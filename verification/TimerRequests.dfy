/**
 What callers ask for is what happens.  The record of jobs and the set of cancelled ones are compared
 with the requests themselves: additions that met a free slot, cancellations that met a job.
 */
module TimerRequests {
  import opened Slots
  import opened TimerSpec
  import opened TimerDeadlines
  import opened TimerTheorems

  function Requests(jobs: seq<Job>): seq<Op> {
    seq(|jobs|, i requires 0 <= i < |jobs| => Request(jobs[i]))
  }

  ghost predicate HasRoom(s: State)
    requires Shaped(s)
  {
    exists k :: 0 <= k < MAX_TASKS && s.tasks[k].None?
  }

  /** An addition is granted when there is room. */
  ghost function Granted(s: State, op: Op): seq<Op>
    requires Shaped(s)
  {
    if op.Add? && HasRoom(s) then [op] else []
  }

  /** A cancellation strikes the job it meets. */
  function Struck(s: State, id: nat): set<nat>
    requires Shaped(s)
  {
    if id < MAX_TASKS && s.tasks[id].Some? then {s.tasks[id].value.uid} else {}
  }

  // ---- one callback ----

  ghost function OpsGrant(s: State, i: nat, ops: seq<Op>): seq<Op>
    requires Shaped(s)
    decreases |ops|
  {
    if ops == [] then [] else Granted(s, ops[0]) + OpsGrant(RunOp(s, i, ops[0]), i, ops[1..])
  }

  function OpStrike(s: State, i: nat, op: Op): set<nat>
    requires Shaped(s)
  {
    if op.Cancel? && op.id != i then Struck(s, op.id) else {}
  }

  function OpsStrike(s: State, i: nat, ops: seq<Op>): set<nat>
    requires Shaped(s)
    decreases |ops|
  {
    if ops == [] then {} else OpStrike(s, i, ops[0]) + OpsStrike(RunOp(s, i, ops[0]), i, ops[1..])
  }

  /**
   `s'` has, besides what `s` has, just these jobs and cancellations; `self` tells of a callback that
   cancelled its own job.
   */
  ghost predicate Served(s: State, s': State, grants: seq<Op>, strikes: set<nat>, self: bool) {
    && Requests(s'.jobs) == Requests(s.jobs) + grants
    && s'.cancelled == s.cancelled + strikes
    && (s'.doubleFree <==> s.doubleFree || self)
  }

  lemma ServedTrans(a: State, b: State, c: State, g: seq<Op>, k: set<nat>, x: bool, g': seq<Op>, k': set<nat>, x': bool)
    requires Served(a, b, g, k, x) && Served(b, c, g', k', x')
    ensures Served(a, c, g + g', k + k', x || x')
  {
    assert Requests(a.jobs) + g + g' == Requests(a.jobs) + (g + g');
  }

  lemma StoreIsServed(s: State, id: nat, pos: nat, sec: int, func: nat, arg: nat)
    requires Shaped(s) && id < MAX_TASKS
    ensures Served(s, StoreJob(s, id, pos, sec, func, arg), [Add(sec, func, arg)], {}, false)
  {
  }

  lemma AddIsServed(s: State, pos: nat, sec: int, func: nat, arg: nat)
    requires Shaped(s)
    ensures Served(s, AddJob(s, pos, sec, func, arg).0, Granted(s, Add(sec, func, arg)), {}, false)
  {
    var id := FreePos(s.tasks, 0);
    if id >= 0 { StoreIsServed(s, id, pos, sec, func, arg); }
  }

  lemma OpIsServed(s: State, i: nat, op: Op)
    requires Shaped(s)
    ensures Served(s, RunOp(s, i, op), Granted(s, op), OpStrike(s, i, op), op == Cancel(i))
  {
    match op
    case Add(sec, func, arg) => AddIsServed(s, i + 1, sec, func, arg);
    case Cancel(id) =>
  }

  lemma {:induction false} OpsAreServed(s: State, i: nat, ops: seq<Op>)
    requires Shaped(s)
    ensures Served(s, RunOps(s, i, ops), OpsGrant(s, i, ops), OpsStrike(s, i, ops), Cancel(i) in ops)
    decreases |ops|
  {
    if ops != [] {
      var s1 := RunOp(s, i, ops[0]);
      OpIsServed(s, i, ops[0]);
      OpsAreServed(s1, i, ops[1..]);
      ServedTrans(s, s1, RunOps(s, i, ops),
                  Granted(s, ops[0]), OpStrike(s, i, ops[0]), ops[0] == Cancel(i),
                  OpsGrant(s1, i, ops[1..]), OpsStrike(s1, i, ops[1..]), Cancel(i) in ops[1..]);
      assert Cancel(i) in ops <==> ops[0] == Cancel(i) || Cancel(i) in ops[1..];
    }
  }

  // ---- one pass ----

  predicate Fires(s: State, p: nat)
    requires Shaped(s) && p < MAX_TASKS
  {
    s.tasks[p].Some? && s.tasks[p].value.sec == 1
  }

  function CallbackOf(s: State, p: nat, cb: Callbacks): seq<Op>
    requires Shaped(s) && p < MAX_TASKS
  {
    if Fires(s, p) then cb(s.tasks[p].value.uid) else []
  }

  /** The table when the callback of the job in slot `p`, if it fires, begins. */
  function AtCallback(s: State, p: nat): (s': State)
    requires Shaped(s) && p < MAX_TASKS
    ensures Shaped(s')
  {
    if Fires(s, p) then Fire(s, p) else s
  }

  ghost function ScanGrant(s: State, p: nat, cb: Callbacks): seq<Op>
    requires Shaped(s) && p <= MAX_TASKS
    decreases |s.tasks| - p
  {
    if p == MAX_TASKS then []
    else OpsGrant(AtCallback(s, p), p, CallbackOf(s, p, cb)) + ScanGrant(Visit(s, p, cb), p + 1, cb)
  }

  function ScanStrike(s: State, p: nat, cb: Callbacks): set<nat>
    requires Shaped(s) && p <= MAX_TASKS
    decreases |s.tasks| - p
  {
    if p == MAX_TASKS then {}
    else OpsStrike(AtCallback(s, p), p, CallbackOf(s, p, cb)) + ScanStrike(Visit(s, p, cb), p + 1, cb)
  }

  /** Some callback of the rest of the pass cancels its own job. */
  function ScanSelf(s: State, p: nat, cb: Callbacks): bool
    requires Shaped(s) && p <= MAX_TASKS
    decreases |s.tasks| - p
  {
    if p == MAX_TASKS then false else Cancel(p) in CallbackOf(s, p, cb) || ScanSelf(Visit(s, p, cb), p + 1, cb)
  }

  lemma VisitIsServed(s: State, p: nat, cb: Callbacks)
    requires Shaped(s) && p < MAX_TASKS
    ensures var (f, ops) := (AtCallback(s, p), CallbackOf(s, p, cb));
      Served(s, Visit(s, p, cb), OpsGrant(f, p, ops), OpsStrike(f, p, ops), Cancel(p) in ops)
  {
    OpsAreServed(AtCallback(s, p), p, CallbackOf(s, p, cb));
  }

  lemma {:induction false} ScanIsServed(s: State, p: nat, cb: Callbacks)
    requires Shaped(s) && p <= MAX_TASKS
    ensures Served(s, Scan(s, p, cb), ScanGrant(s, p, cb), ScanStrike(s, p, cb), ScanSelf(s, p, cb))
    decreases MAX_TASKS - p
  {
    if p < MAX_TASKS {
      var s1 := Visit(s, p, cb);
      var f, ops := AtCallback(s, p), CallbackOf(s, p, cb);
      VisitIsServed(s, p, cb);
      ScanIsServed(s1, p + 1, cb);
      ServedTrans(s, s1, Scan(s, p, cb), OpsGrant(f, p, ops), OpsStrike(f, p, ops), Cancel(p) in ops,
                  ScanGrant(s1, p + 1, cb), ScanStrike(s1, p + 1, cb), ScanSelf(s1, p + 1, cb));
    }
  }

  // ---- whole runs ----

  ghost function StepGrant(s: State, e: Event): seq<Op>
    requires Shaped(s)
  {
    match e
    case EAdd(sec, func, arg) => Granted(s, Add(sec, func, arg))
    case ECancel(_) => []
    case ETick(cb) => ScanGrant(s.(now := s.now + 1), 0, cb)
  }

  function StepStrike(s: State, e: Event): set<nat>
    requires Shaped(s)
  {
    match e
    case EAdd(_, _, _) => {}
    case ECancel(id) => Struck(s, id)
    case ETick(cb) => ScanStrike(s.(now := s.now + 1), 0, cb)
  }

  function StepSelf(s: State, e: Event): bool
    requires Shaped(s)
  {
    e.ETick? && ScanSelf(s.(now := s.now + 1), 0, e.cb)
  }

  ghost function RunGrant(s: State, es: seq<Event>): seq<Op>
    requires Shaped(s)
    decreases |es|
  {
    if es == [] then []
    else RunGrant(s, es[..|es| - 1]) + StepGrant(Run(s, es[..|es| - 1]), es[|es| - 1])
  }

  function RunStrike(s: State, es: seq<Event>): set<nat>
    requires Shaped(s)
    decreases |es|
  {
    if es == [] then {}
    else RunStrike(s, es[..|es| - 1]) + StepStrike(Run(s, es[..|es| - 1]), es[|es| - 1])
  }

  function RunSelf(s: State, es: seq<Event>): bool
    requires Shaped(s)
    decreases |es|
  {
    es != [] && (RunSelf(s, es[..|es| - 1]) || StepSelf(Run(s, es[..|es| - 1]), es[|es| - 1]))
  }

  lemma StepIsServed(s: State, e: Event)
    requires Shaped(s)
    ensures Served(s, Step(s, e), StepGrant(s, e), StepStrike(s, e), StepSelf(s, e))
  {
    match e
    case EAdd(sec, func, arg) => AddIsServed(s, MAX_TASKS, sec, func, arg);
    case ECancel(id) =>
    case ETick(cb) => ScanIsServed(s.(now := s.now + 1), 0, cb);
  }

  /**
   Over every run: the jobs are, in order and with their delay, function and argument, exactly the
   additions that met a free slot, by the main flow and by callbacks; the cancelled jobs are exactly
   those that a cancellation met; and the run is marked as freeing a job twice exactly if a callback
   cancelled its own job.
   */
  lemma {:induction false} RunIsServed(s: State, es: seq<Event>)
    requires Shaped(s)
    ensures Served(s, Run(s, es), RunGrant(s, es), RunStrike(s, es), RunSelf(s, es))
    decreases |es|
  {
    if es != [] {
      var front := es[..|es| - 1];
      var s1 := Run(s, front);
      RunIsServed(s, front);
      StepIsServed(s1, es[|es| - 1]);
      ServedTrans(s, s1, Run(s, es), RunGrant(s, front), RunStrike(s, front), RunSelf(s, front),
                  StepGrant(s1, es[|es| - 1]), StepStrike(s1, es[|es| - 1]), StepSelf(s1, es[|es| - 1]));
    }
  }

  // ---- a cancellation is final ----

  /** The `k`-th operation of a callback, if a cancellation, strikes what is then in its slot. */
  lemma {:induction false} OpStrikes(s: State, i: nat, ops: seq<Op>, k: nat)
    requires Shaped(s) && k < |ops| && ops[k].Cancel? && ops[k].id != i
    ensures Struck(RunOps(s, i, ops[..k]), ops[k].id) <= OpsStrike(s, i, ops)
    decreases k
  {
    if k > 0 {
      assert ops[..k][1..] == ops[1..][..k - 1];
      OpStrikes(RunOp(s, i, ops[0]), i, ops[1..], k - 1);
    }
  }

  /** The table when the slots from `p` up to `q` have had their turn. */
  function ScanTo(s: State, p: nat, q: nat, cb: Callbacks): (s': State)
    requires Shaped(s) && p <= q <= MAX_TASKS
    ensures Shaped(s')
    decreases q - p, s
  {
    if p == q then s else ScanTo(Visit(s, p, cb), p + 1, q, cb)
  }

  lemma {:induction false} SlotStrikes(s: State, p: nat, q: nat, cb: Callbacks)
    requires Shaped(s) && p <= q < MAX_TASKS
    ensures var a := ScanTo(s, p, q, cb);
      OpsStrike(AtCallback(a, q), q, CallbackOf(a, q, cb)) <= ScanStrike(s, p, cb)
    decreases q - p
  {
    if p < q { SlotStrikes(Visit(s, p, cb), p + 1, q, cb); }
  }

  lemma TickStrikes(s: State, cb: Callbacks, q: nat, k: nat)
    requires Shaped(s) && q < MAX_TASKS
    requires var ops := CallbackOf(ScanTo(s.(now := s.now + 1), 0, q, cb), q, cb);
      k < |ops| && ops[k].Cancel? && ops[k].id != q
    ensures var a := ScanTo(s.(now := s.now + 1), 0, q, cb);
      var ops := CallbackOf(a, q, cb);
      Struck(RunOps(AtCallback(a, q), q, ops[..k]), ops[k].id) <= Tick(s, cb).cancelled
  {
    var s1 := s.(now := s.now + 1);
    var a := ScanTo(s1, 0, q, cb);
    OpStrikes(AtCallback(a, q), q, CallbackOf(a, q, cb), k);
    SlotStrikes(s1, 0, q, cb);
    ScanIsServed(s1, 0, cb);
  }

  /** A cancelled job is not live and has not fired, however the run goes on. */
  lemma CancelledStays(s0: State, before: seq<Event>, after: seq<Event>, u: nat)
    requires Empty(s0) && !Run(s0, before + after).doubleFree && u in Run(s0, before).cancelled
    ensures var s := Run(s0, before + after); u in s.cancelled && !Live(s, u) && !HasFired(s, u)
  {
    RunConcat(s0, before, after);
    RunIsServed(Run(s0, before), after);
    var s := Run(s0, before + after);
    EmptyInv(s0);
    RunKeepsInv(s0, before + after);
    JobStages(s, u);
  }

  /**
   A callback's cancellation takes effect for good: the job found in the slot when the `k`-th operation
   of the callback of slot `q` runs is cancelled, not live, and has not fired, in every later state.
   */
  lemma CancelIsFinal(s0: State, before: seq<Event>, cb: Callbacks, after: seq<Event>, q: nat, k: nat)
    requires Empty(s0) && q < MAX_TASKS && !Run(s0, before + [ETick(cb)] + after).doubleFree
    requires var s1 := Run(s0, before);
      var ops := CallbackOf(ScanTo(s1.(now := s1.now + 1), 0, q, cb), q, cb);
      k < |ops| && ops[k].Cancel? && ops[k].id != q
    ensures var s1 := Run(s0, before);
      var a := ScanTo(s1.(now := s1.now + 1), 0, q, cb);
      var ops := CallbackOf(a, q, cb);
      var s := Run(s0, before + [ETick(cb)] + after);
      forall u :: u in Struck(RunOps(AtCallback(a, q), q, ops[..k]), ops[k].id) ==>
        u in s.cancelled && !Live(s, u) && !HasFired(s, u)
  {
    var s1 := Run(s0, before);
    TickStrikes(s1, cb, q, k);
    assert (before + [ETick(cb)])[..|before|] == before;
    assert Run(s0, before + [ETick(cb)]) == Tick(s1, cb);
    forall u | u in Tick(s1, cb).cancelled
      ensures var s := Run(s0, before + [ETick(cb)] + after); u in s.cancelled && !Live(s, u) && !HasFired(s, u)
    {
      CancelledStays(s0, before + [ETick(cb)], after, u);
    }
  }

  /** The same for a cancellation by the main flow. */
  lemma MainCancelIsFinal(s0: State, before: seq<Event>, id: nat, after: seq<Event>)
    requires Empty(s0) && !Run(s0, before + [ECancel(id)] + after).doubleFree
    ensures var s := Run(s0, before + [ECancel(id)] + after);
      forall u :: u in Struck(Run(s0, before), id) ==> u in s.cancelled && !Live(s, u) && !HasFired(s, u)
  {
    assert (before + [ECancel(id)])[..|before|] == before;
    StepIsServed(Run(s0, before), ECancel(id));
    forall u | u in Struck(Run(s0, before), id)
      ensures var s := Run(s0, before + [ECancel(id)] + after); u in s.cancelled && !Live(s, u) && !HasFired(s, u)
    {
      CancelledStays(s0, before + [ECancel(id)], after, u);
    }
  }
}
