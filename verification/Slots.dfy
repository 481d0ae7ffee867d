/** Tables of optional entries, as the timers and the token buckets keep them. */
module Slots {

  datatype Option<+T> = None | Some(value: T)

  /** The first empty slot from `i` on, or -1. */
  function FreePos<T>(slots: seq<Option<T>>, i: nat): (r: int)
    ensures -1 <= r < |slots|
    ensures r >= 0 ==> i <= r && slots[r].None? && forall j :: i <= j < r ==> slots[j].Some?
    ensures r < 0 ==> forall j :: i <= j < |slots| ==> slots[j].Some?
    decreases |slots| - i
  {
    if i >= |slots| then -1 else if slots[i].None? then i else FreePos(slots, i + 1)
  }
}
