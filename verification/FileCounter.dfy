/**
 `adio/flock.c`: any number of processes that each open the same file, lock it, read a number,
 add one, write it back, unlock and close.  Every system call is a step, and the steps of the
 parent and its children interleave freely.
 */
module FileCounter {
  import opened Common
  import opened Decimal

  const BUF_SIZE: nat := 4096

  /** A byte-range lock from `lo` up to `hi`, or to the end of all offsets. */
  datatype Range = Unlocked | From(lo: nat) | Between(lo: nat, hi: nat)

  datatype ChildPc =
    | Unborn
    | Open       // 28
    | Lock       // 37
    | Read       // 44
    | Count      // 49-50
    | Format     // 52
    | Seek       // 54
    | Put        // 55
    | Unlock     // 58
    | Close      // 64
    | Exited     // 65

  datatype Child = Child(pc: ChildPc, held: Range, off: nat, buf: seq<Byte>, i: int, sz: nat)

  datatype ParentPc = Forking(n: nat) | Waiting(n: nat) | Done

  datatype State = State(file: seq<Byte>, kids: seq<Child>, parent: ParentPc)

  datatype Event = Parent | Kid(c: nat)

  /** The lock covers some byte at or after `off`. */
  predicate ReachesPast(r: Range, off: nat) {
    match r
    case Unlocked => false
    case From(_) => true
    case Between(lo, hi) => lo < hi && off < hi
  }

  /** `lockf(fd, F_LOCK, 0)` at `off` has to wait for every other lock on a byte from `off` on. */
  ghost predicate Grantable(s: State, c: nat, off: nat) {
    forall d :: 0 <= d < |s.kids| && d != c ==> !ReachesPast(s.kids[d].held, off)
  }

  /** `lockf(fd, F_ULOCK, 0)` at `off` gives up only what lies from `off` on. */
  function Release(r: Range, off: nat): Range {
    match r
    case Unlocked => Unlocked
    case From(lo) => if lo < off then Between(lo, off) else Unlocked
    case Between(lo, hi) => if lo < off then Between(lo, if off < hi then off else hi) else Unlocked
  }

  /** What a buffer holds after `data` was put at its front; data longer than the buffer is cut. */
  function Fill(buf: seq<Byte>, data: seq<Byte>): (r: seq<Byte>)
    ensures |r| == |buf|
  {
    if |data| <= |buf| then data + buf[|data|..] else data[..|buf|]
  }

  function Available(s: State, off: nat): seq<Byte> {
    if off <= |s.file| then
      (if |s.file| - off <= BUF_SIZE then s.file[off..] else s.file[off..off + BUF_SIZE])
    else []
  }

  /** The file after `data` was written at `off`, which does not lie past its end. */
  function Overwrite(file: seq<Byte>, off: nat, data: seq<Byte>): seq<Byte> {
    if off > |file| then file
    else file[..off] + data + if off + |data| <= |file| then file[off + |data|..] else []
  }

  function CountExited(kids: seq<Child>): nat {
    if kids == [] then 0 else (if kids[0].pc.Exited? then 1 else 0) + CountExited(kids[1..])
  }

  ghost predicate Enabled(s: State, e: Event) {
    match e
    case Parent =>
      (match s.parent
       case Forking(_) => true
       case Waiting(n) => n == |s.kids| || n < CountExited(s.kids)
       case Done => false)
    case Kid(c) =>
      c < |s.kids| && (match s.kids[c].pc
                       case Unborn => false
                       case Exited => false
                       case Lock => Grantable(s, c, s.kids[c].off)
                       case _ => true)
  }

  /** `fork` until there are enough children, then `wait` for each. */
  function ParentStep(s: State): State {
    match s.parent
    case Forking(n) =>
      if n < |s.kids| then s.(kids := s.kids[n := s.kids[n].(pc := Open)], parent := Forking(n + 1))
      else s.(parent := Waiting(0))
    case Waiting(n) => s.(parent := if n < |s.kids| then Waiting(n + 1) else Done)
    case Done => s
  }

  function KidStep(s: State, k: Child): (State, Child) {
    match k.pc
    case Open => (s, k.(off := 0, pc := Lock))
    case Lock => (s, k.(held := From(k.off), pc := Read))
    case Read =>
      var data := Available(s, k.off);
      (s, k.(buf := Fill(k.buf, data), off := k.off + |data|, pc := Count))
    case Count => (s, k.(i := Atoi(k.buf) + 1, pc := Format))
    case Format =>
      var text := PrintInt(k.i);
      var shown := if |text| < BUF_SIZE then text else text[..BUF_SIZE - 1];
      (s, k.(buf := Fill(k.buf, shown + [0]), sz := |text|, pc := Seek))
    case Seek => (s, k.(off := 0, pc := Put))
    case Put =>
      var data := if k.sz <= |k.buf| then k.buf[..k.sz] else k.buf;
      (s.(file := Overwrite(s.file, k.off, data)), k.(off := k.off + |data|, pc := Unlock))
    case Unlock => (s, k.(held := Release(k.held, k.off), pc := Close))
    case Close => (s, k.(held := Unlocked, pc := Exited))
    case _ => (s, k)
  }

  function Apply(s: State, e: Event): State {
    match e
    case Parent => ParentStep(s)
    case Kid(c) =>
      if c < |s.kids| then
        var (s', k) := KidStep(s, s.kids[c]);
        s'.(kids := s.kids[c := k])
      else s
  }

  /**
   The file holds the numeral of `v`, or is empty and counts as 0; the buffer the children inherit
   holds zeros.
   */
  ghost predicate Init(s: State, v: nat, n: nat) {
    && Holds(s.file, v)
    && |s.kids| == n && s.parent == Forking(0)
    && forall c :: 0 <= c < n ==>
         s.kids[c].pc == Unborn && s.kids[c].held == Unlocked && s.kids[c].buf == seq(BUF_SIZE, _ => 0)
  }

  ghost predicate Holds(file: seq<Byte>, x: nat) {
    file == Print(x) || (x == 0 && file == [])
  }

  ghost predicate IsRun(run: seq<State>, es: seq<Event>, v: nat, n: nat) {
    && |run| == |es| + 1 && Init(run[0], v, n)
    && forall k :: 0 <= k < |es| ==> Enabled(run[k], es[k]) && run[k + 1] == Apply(run[k], es[k])
  }

  // ---- the invariant ----

  /** Inside the critical section: from the lock to the close. */
  predicate Inside(k: Child) {
    !(k.pc.Unborn? || k.pc.Open? || k.pc.Lock? || k.pc.Exited?)
  }

  predicate Wrote(k: Child) {
    k.pc.Unlock? || k.pc.Close? || k.pc.Exited?
  }

  function CountWrote(kids: seq<Child>): nat {
    if kids == [] then 0 else (if Wrote(kids[0]) then 1 else 0) + CountWrote(kids[1..])
  }

  /** What a child knows when the file stands for `x`. */
  ghost predicate ChildOk(k: Child, x: nat) {
    && |k.buf| == BUF_SIZE
    && (Inside(k) <==> !k.held.Unlocked?)
    && (Inside(k) && !k.pc.Close? ==> k.held == From(0))
    && (match k.pc
        case Unborn => k.buf == seq(BUF_SIZE, _ => 0)
        case Open => k.buf == seq(BUF_SIZE, _ => 0)
        case Lock => k.off == 0 && k.buf == seq(BUF_SIZE, _ => 0)
        case Read => k.off == 0 && k.buf == seq(BUF_SIZE, _ => 0)
        case Count => Atoi(k.buf) == x
        case Format => k.i == x + 1
        case Seek => k.sz == |Print(x + 1)| <= BUF_SIZE && k.buf[..k.sz] == Print(x + 1)
        case Put => k.off == 0 && k.sz == |Print(x + 1)| <= BUF_SIZE && k.buf[..k.sz] == Print(x + 1)
        case Unlock => k.off >= 1
        case Close => k.held.Between? && k.held.lo == 0 && k.held.hi >= 1
        case Exited => true)
  }

  /** Only one child is inside. */
  ghost predicate Exclusive(kids: seq<Child>) {
    forall c, d :: 0 <= c < |kids| && 0 <= d < |kids| && Inside(kids[c]) && Inside(kids[d]) ==> c == d
  }

  ghost predicate ParentOk(s: State) {
    match s.parent
    case Forking(n) => n <= |s.kids| && forall c :: 0 <= c < |s.kids| ==> (s.kids[c].pc == Unborn <==> n <= c)
    case Waiting(n) =>
      && n <= |s.kids| && n <= CountExited(s.kids)
      && forall c :: 0 <= c < |s.kids| ==> s.kids[c].pc != Unborn
    case Done => CountExited(s.kids) == |s.kids|
  }

  ghost predicate Inv(s: State, v: nat) {
    && v + |s.kids| <= INT_MAX
    && Holds(s.file, v + CountWrote(s.kids))
    && (forall c :: 0 <= c < |s.kids| ==> ChildOk(s.kids[c], v + CountWrote(s.kids)))
    && Exclusive(s.kids)
    && ParentOk(s)
  }

  // ---- the three calls that handle the number ----

  const ZEROS: seq<Byte> := seq(BUF_SIZE, _ => 0)

  /** Reading the whole numeral into a zeroed buffer leaves a string that `atoi` reads back. */
  lemma ReadBack(s: State, x: nat)
    requires Holds(s.file, x) && x <= INT_MAX
    ensures |Available(s, 0)| == |s.file| && Atoi(Fill(ZEROS, Available(s, 0))) == x
  {
    IntFits(x);
    var data := Available(s, 0);
    assert data == s.file;
    var rest := ZEROS[|data|..];
    assert rest[0] == 0;
    if s.file == [] {
      assert Fill(ZEROS, data) == ZEROS;
      AtoiOfNothing(ZEROS);
    } else {
      AtoiOfPrint(x, rest);
    }
  }

  lemma Formatted(buf: seq<Byte>, n: nat)
    requires |buf| == BUF_SIZE && n <= INT_MAX
    ensures |Print(n)| < BUF_SIZE && Fill(buf, Print(n) + [0])[..|Print(n)|] == Print(n)
  {
    IntFits(n);
    assert (Print(n) + [0])[..|Print(n)|] == Print(n);
  }

  /** The new numeral is no shorter than the old one, so no stale digit survives. */
  lemma NoStaleDigits(file: seq<Byte>, x: nat)
    requires Holds(file, x)
    ensures Overwrite(file, 0, Print(x + 1)) == Print(x + 1)
  {
    PrintLengthMonotone(x, x + 1);
    var data := Print(x + 1);
    assert |file| <= |data|;
    assert file[..0] == [] && file[|file|..] == [];
  }

  // ---- counting ----

  lemma {:induction false} CountsUpdate(kids: seq<Child>, c: nat, k: Child)
    requires c < |kids|
    ensures CountWrote(kids[c := k]) ==
      CountWrote(kids) - (if Wrote(kids[c]) then 1 else 0) + (if Wrote(k) then 1 else 0)
    ensures CountExited(kids[c := k]) ==
            CountExited(kids) - (if kids[c].pc.Exited? then 1 else 0) + (if k.pc.Exited? then 1 else 0)
  {
    if c > 0 {
      CountsUpdate(kids[1..], c - 1, k);
      assert kids[c := k][1..] == kids[1..][c - 1 := k];
    } else {
      assert kids[c := k][1..] == kids[1..];
    }
  }

  lemma {:induction false} CountsBounded(kids: seq<Child>)
    ensures CountExited(kids) <= CountWrote(kids) <= |kids|
    ensures CountWrote(kids) == |kids| ==> forall c :: 0 <= c < |kids| ==> Wrote(kids[c])
    ensures CountExited(kids) == |kids| ==> forall c :: 0 <= c < |kids| ==> kids[c].pc.Exited?
    ensures (forall c :: 0 <= c < |kids| ==> kids[c].pc.Exited?) ==> CountExited(kids) == |kids|
    ensures (forall c :: 0 <= c < |kids| ==> !Wrote(kids[c])) ==> CountWrote(kids) == 0
  {
    if kids != [] { CountsBounded(kids[1..]); }
  }

  // ---- steps ----

  /** One child's own step, with the file standing for `x` before it. */
  lemma OwnStep(s: State, c: nat, x: nat)
    requires c < |s.kids| && Enabled(s, Kid(c)) && Holds(s.file, x) && ChildOk(s.kids[c], x)
    requires x < INT_MAX || Wrote(s.kids[c])
    ensures var (s', k) := KidStep(s, s.kids[c]);
      var x' := if s.kids[c].pc.Put? then x + 1 else x;
      && Holds(s'.file, x') && ChildOk(k, x') && s'.parent == s.parent
      && (!s.kids[c].pc.Put? ==> s'.file == s.file)
      && (Wrote(k) <==> Wrote(s.kids[c]) || s.kids[c].pc.Put?)
      && (Inside(k) ==> Inside(s.kids[c]) || s.kids[c].pc.Lock?)
      && k.pc != Unborn
  {
    var k := s.kids[c];
    match k.pc
    case Read => ReadBack(s, x);
    case Format => Formatted(k.buf, x + 1);
    case Put =>
      NoStaleDigits(s.file, x);
    case _ =>
  }

  /** A lock on byte 0 keeps every other child out until it is closed. */
  lemma LockExcludes(s: State, v: nat, c: nat)
    requires Inv(s, v) && c < |s.kids| && s.kids[c].pc.Lock? && Grantable(s, c, s.kids[c].off)
    ensures forall d :: 0 <= d < |s.kids| && d != c ==> !Inside(s.kids[d])
  {
  }

  /** Before a child writes, the count is not yet full. */
  lemma RoomToCount(s: State, v: nat, c: nat)
    requires Inv(s, v) && c < |s.kids| && !Wrote(s.kids[c])
    ensures v + CountWrote(s.kids) < INT_MAX
  {
    CountsBounded(s.kids);
  }

  /** The other children do not notice the step, and none of them is inside while one writes. */
  lemma OtherStaysOk(s: State, v: nat, c: nat, d: nat)
    requires Inv(s, v) && Enabled(s, Kid(c)) && d < |s.kids| && d != c
    ensures var x := v + CountWrote(s.kids);
      ChildOk(s.kids[d], if s.kids[c].pc.Put? then x + 1 else x)
  {
    assert ChildOk(s.kids[d], v + CountWrote(s.kids));
    if s.kids[c].pc.Put? { assert !Inside(s.kids[d]); }
  }

  lemma KidKeepsFile(s: State, v: nat, c: nat)
    requires Inv(s, v) && Enabled(s, Kid(c))
    ensures var s' := Apply(s, Kid(c));
      && Holds(s'.file, v + CountWrote(s'.kids))
      && forall d :: 0 <= d < |s'.kids| ==> ChildOk(s'.kids[d], v + CountWrote(s'.kids))
  {
    var k := s.kids[c];
    var x := v + CountWrote(s.kids);
    var s' := Apply(s, Kid(c));
    CountsUpdate(s.kids, c, s'.kids[c]);
    if !Wrote(k) { RoomToCount(s, v, c); }
    OwnStep(s, c, x);
    var x' := v + CountWrote(s'.kids);
    assert x' == if k.pc.Put? then x + 1 else x;
    forall d | 0 <= d < |s'.kids|
      ensures ChildOk(s'.kids[d], x')
    {
      if d != c { OtherStaysOk(s, v, c, d); }
    }
  }

  lemma KidKeepsExclusive(s: State, v: nat, c: nat)
    requires Inv(s, v) && Enabled(s, Kid(c))
    ensures Exclusive(Apply(s, Kid(c)).kids)
  {
  }

  lemma KidKeepsParent(s: State, c: nat)
    requires ParentOk(s) && Enabled(s, Kid(c))
    ensures ParentOk(Apply(s, Kid(c)))
  {
    var s' := Apply(s, Kid(c));
    CountsUpdate(s.kids, c, s'.kids[c]);
    CountsBounded(s.kids);
  }

  lemma KidKeepsInv(s: State, v: nat, c: nat)
    requires Inv(s, v) && Enabled(s, Kid(c))
    ensures Inv(Apply(s, Kid(c)), v)
  {
    KidKeepsFile(s, v, c);
    KidKeepsExclusive(s, v, c);
    KidKeepsParent(s, c);
  }

  lemma ForkKeepsInv(s: State, v: nat)
    requires Inv(s, v) && s.parent.Forking? && s.parent.n < |s.kids|
    ensures Inv(ParentStep(s), v)
  {
    var n := s.parent.n;
    var k := s.kids[n].(pc := Open);
    CountsUpdate(s.kids, n, k);
    assert ChildOk(s.kids[n], v + CountWrote(s.kids));
    assert ChildOk(k, v + CountWrote(s.kids));
  }

  lemma ParentKeepsInv(s: State, v: nat)
    requires Inv(s, v) && Enabled(s, Parent)
    ensures Inv(ParentStep(s), v)
  {
    if s.parent.Forking? && s.parent.n < |s.kids| {
      ForkKeepsInv(s, v);
    } else {
      CountsBounded(s.kids);
    }
  }

  lemma {:induction false} RunKeepsInv(run: seq<State>, es: seq<Event>, v: nat, n: nat, k: nat)
    requires IsRun(run, es, v, n) && v + n <= INT_MAX && k <= |es|
    ensures Inv(run[k], v) && |run[k].kids| == n
  {
    if k == 0 {
      CountsBounded(run[0].kids);
    } else {
      RunKeepsInv(run, es, v, n, k - 1);
      match es[k - 1] {
        case Parent => ParentKeepsInv(run[k - 1], v);
        case Kid(c) => KidKeepsInv(run[k - 1], v, c);
      }
    }
  }

  // ---- the results ----

  /** The critical sections never overlap, and the lock of a child inside always covers byte 0. */
  lemma MutualExclusion(run: seq<State>, es: seq<Event>, v: nat, n: nat)
    requires IsRun(run, es, v, n) && v + n <= INT_MAX
    ensures Exclusive(run[|es|].kids)
    ensures forall c :: 0 <= c < n && c < |run[|es|].kids| && Inside(run[|es|].kids[c]) ==>
      ReachesPast(run[|es|].kids[c].held, 0)
  {
    RunKeepsInv(run, es, v, n, |es|);
    var s := run[|es|];
    forall c | 0 <= c < |s.kids| && Inside(s.kids[c])
      ensures ReachesPast(s.kids[c].held, 0)
    {
      assert ChildOk(s.kids[c], v + CountWrote(s.kids));
    }
  }

  /**
   The locked counter is exact: for any number of children and every interleaving the file stands
   for `v` plus the children that have written, and when the parent is done it is the canonical
   numeral of `v + n`, byte for byte.
   */
  lemma CounterExact(run: seq<State>, es: seq<Event>, v: nat, n: nat)
    requires IsRun(run, es, v, n) && v + n <= INT_MAX
    ensures var s := run[|es|];
      && Holds(s.file, v + CountWrote(s.kids))
      && (s.parent == Done && n >= 1 ==> s.file == Print(v + n))
  {
    RunKeepsInv(run, es, v, n, |es|);
    CountsBounded(run[|es|].kids);
  }

  /** As long as the parent is not done, some process can step: nobody waits for ever. */
  lemma SomebodySteps(run: seq<State>, es: seq<Event>, v: nat, n: nat)
    requires IsRun(run, es, v, n) && v + n <= INT_MAX && run[|es|].parent != Done
    ensures exists e :: Enabled(run[|es|], e)
  {
    RunKeepsInv(run, es, v, n, |es|);
    var s := run[|es|];
    CountsBounded(s.kids);
    if !Enabled(s, Parent) {
      assert s.parent.Waiting? && CountExited(s.kids) < n;
      var c :| 0 <= c < |s.kids| && !s.kids[c].pc.Exited?;
      assert s.kids[c].pc != Unborn;
      if d :| 0 <= d < |s.kids| && Inside(s.kids[d]) {
        assert Enabled(s, Kid(d));
      } else {
        forall d | 0 <= d < |s.kids|
          ensures s.kids[d].held.Unlocked?
        {
          assert ChildOk(s.kids[d], v + CountWrote(s.kids));
        }
        assert Enabled(s, Kid(c));
      }
    }
  }

  /** Steps left to a child. */
  function Left(pc: ChildPc): nat {
    match pc
    case Unborn => 10
    case Open => 9
    case Lock => 8
    case Read => 7
    case Count => 6
    case Format => 5
    case Seek => 4
    case Put => 3
    case Unlock => 2
    case Close => 1
    case Exited => 0
  }

  function TotalLeft(kids: seq<Child>): nat {
    if kids == [] then 0 else Left(kids[0].pc) + TotalLeft(kids[1..])
  }

  function ParentLeft(s: State): nat {
    match s.parent
    case Forking(n) => if n <= |s.kids| then 2 * |s.kids| + 2 - n else 0
    case Waiting(n) => if n <= |s.kids| then |s.kids| + 1 - n else 0
    case Done => 0
  }

  lemma {:induction false} TotalLeftUpdate(kids: seq<Child>, c: nat, k: Child)
    requires c < |kids|
    ensures TotalLeft(kids[c := k]) == TotalLeft(kids) - Left(kids[c].pc) + Left(k.pc)
  {
    if c > 0 {
      TotalLeftUpdate(kids[1..], c - 1, k);
      assert kids[c := k][1..] == kids[1..][c - 1 := k];
    } else {
      assert kids[c := k][1..] == kids[1..];
    }
  }

  function StepsLeft(s: State): nat {
    TotalLeft(s.kids) + ParentLeft(s)
  }

  lemma KidStepsOn(s: State, c: nat)
    requires Enabled(s, Kid(c))
    ensures var s' := Apply(s, Kid(c));
      s'.parent == s.parent && exists k :: s'.kids == s.kids[c := k] && Left(k.pc) < Left(s.kids[c].pc)
  {
    var (s', k) := KidStep(s, s.kids[c]);
    assert Apply(s, Kid(c)).kids == s.kids[c := k];
  }

  /** Every step uses up one of finitely many, so every run is finite whatever the schedule. */
  lemma StepsRunOut(s: State, v: nat, e: Event)
    requires Inv(s, v) && Enabled(s, e)
    ensures StepsLeft(Apply(s, e)) < StepsLeft(s)
  {
    match e
    case Parent =>
      if s.parent.Forking? && s.parent.n < |s.kids| {
        TotalLeftUpdate(s.kids, s.parent.n, s.kids[s.parent.n].(pc := Open));
      }
    case Kid(c) =>
      KidStepsOn(s, c);
      var k :| Apply(s, e).kids == s.kids[c := k] && Left(k.pc) < Left(s.kids[c].pc);
      TotalLeftUpdate(s.kids, c, k);
  }

  lemma {:induction false} StepsAddUp(run: seq<State>, es: seq<Event>, v: nat, n: nat, k: nat)
    requires IsRun(run, es, v, n) && v + n <= INT_MAX && k <= |es|
    ensures k + StepsLeft(run[k]) <= StepsLeft(run[0])
    decreases k
  {
    if k > 0 {
      StepsAddUp(run, es, v, n, k - 1);
      RunKeepsInv(run, es, v, n, k - 1);
      StepsRunOut(run[k - 1], v, es[k - 1]);
    }
  }

  lemma {:induction false} AllUnborn(kids: seq<Child>)
    requires forall c :: 0 <= c < |kids| ==> kids[c].pc == Unborn
    ensures TotalLeft(kids) == 10 * |kids|
  {
    if kids != [] { AllUnborn(kids[1..]); }
  }

  /**
   Total correctness without any assumption on the schedule: every run has at most `12 * n + 2` steps,
   and every run that cannot be extended ends with the parent done and, with at least one child, the
   canonical numeral of `v + n` in the file.
   */
  lemma CountsInTheEnd(run: seq<State>, es: seq<Event>, v: nat, n: nat)
    requires IsRun(run, es, v, n) && v + n <= INT_MAX
    ensures |es| <= 12 * n + 2
    ensures (forall e :: !Enabled(run[|es|], e)) ==>
      run[|es|].parent == Done && (n >= 1 ==> run[|es|].file == Print(v + n))
  {
    StepsAddUp(run, es, v, n, |es|);
    AllUnborn(run[0].kids);
    CounterExact(run, es, v, n);
    if run[|es|].parent != Done { SomebodySteps(run, es, v, n); }
  }
}
