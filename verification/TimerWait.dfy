/**
 `at_wait` tests the slot and then calls `pause`, in two steps.  A tick that empties the slot in
 between is not seen: the flow pauses all the same and needs one more tick to come back.
 */
module TimerWait {
  import opened Slots
  import opened TimerSpec
  import opened TimerDeadlines
  import opened TimerTheorems
  import opened TimerBoard
  import opened TimerRace

  // ---- the steps of the wait ----

  datatype Place =
    | Testing    // 88
    | Calling    // 89, about to call pause
    | Paused     // 89, blocked until a handler has run
    | Back       // the wait has returned

  datatype Waiter = Waiter(
    at: Place, s: State,
    pauses: nat,    // pauses begun
    vain: nat)      // pauses begun with the slot already empty

  function Go(w: Waiter, id: nat, m: Move): (w': Waiter)
    requires Shaped(w.s) && id < MAX_TASKS
    ensures Shaped(w'.s)
  {
    match m
    case Alarm(cb) => w.(s := Tick(w.s, cb), at := if w.at.Paused? then Testing else w.at)
    case Main =>
      match w.at
      case Testing => w.(at := if w.s.tasks[id].None? then Back else Calling)
      case Calling =>
        w.(at := Paused, pauses := w.pauses + 1, vain := if w.s.tasks[id].None? then w.vain + 1 else w.vain)
      case _ => w
  }

  ghost predicate IsWait(run: seq<Waiter>, ms: seq<Move>, id: nat) {
    && id < MAX_TASKS && |run| == |ms| + 1
    && run[0].at == Testing && run[0].pauses == 0 && run[0].vain == 0
    && forall k :: 0 <= k < |ms| ==> Shaped(run[k].s) && run[k + 1] == Go(run[k], id, ms[k])
  }

  /** A tick takes the job away between the test and the pause. */
  predicate SlipsThrough(w: Waiter, id: nat, m: Move)
    requires Shaped(w.s) && id < MAX_TASKS
  {
    w.at.Calling? && m.Alarm? && w.s.tasks[id].Some? && Tick(w.s, m.cb).tasks[id].None?
  }

  /** The flow pauses, or is about to, or has paused, for a job that is gone. */
  predicate InVain(w: Waiter, id: nat)
    requires Shaped(w.s) && id < MAX_TASKS
  {
    w.vain > 0 || (w.at.Calling? && w.s.tasks[id].None?)
  }

  ghost predicate WaitInv(w: Waiter, id: nat) {
    && Shaped(w.s) && id < MAX_TASKS && w.vain <= 1
    && (w.vain == 1 ==> w.s.tasks[id].None? && !w.at.Calling?)
    && (w.at.Back? ==> w.s.tasks[id].None?)
    && (w.at.Paused? && w.s.tasks[id].None? ==> w.vain == 1)
  }

  lemma GoKeepsInv(w: Waiter, id: nat, m: Move)
    requires WaitInv(w, id) && (m.Alarm? ==> AddsNothing(m.cb))
    ensures WaitInv(Go(w, id, m), id)
    ensures InVain(Go(w, id, m), id) <==> InVain(w, id) || SlipsThrough(w, id, m)
  {
    if m.Alarm? && w.s.tasks[id].None? {
      ScanLeavesEmpty(w.s.(now := w.s.now + 1), 0, m.cb, id);
    }
  }

  /**
   With ticks anywhere and callbacks that add nothing: when the wait returns, exactly one of its
   pauses was begun with the job already gone if some tick took the job away between a test and its
   pause, and none if no tick did.  Before that, a flow paused with the slot empty is in such a pause.
   */
  lemma {:induction false} PausesInVainIff(run: seq<Waiter>, ms: seq<Move>, id: nat, n: nat)
    requires IsWait(run, ms, id) && n <= |ms| && Shaped(run[0].s)
    requires forall k :: 0 <= k < |ms| && ms[k].Alarm? ==> AddsNothing(ms[k].cb)
    ensures WaitInv(run[n], id)
    ensures InVain(run[n], id) <==> exists k :: 0 <= k < n && SlipsThrough(run[k], id, ms[k])
    ensures run[n].at.Back? ==>
      run[n].vain == if exists k :: 0 <= k < n && SlipsThrough(run[k], id, ms[k]) then 1 else 0
    decreases n
  {
    if n > 0 {
      PausesInVainIff(run, ms, id, n - 1);
      GoKeepsInv(run[n - 1], id, ms[n - 1]);
    }
  }

  /** One job with a delay of 1; test, tick, pause. */
  const SLIP: seq<Move> := [Main, Alarm(_ => []), Main]

  /** The job has fired and its slot is empty, but the flow is paused and cannot go on without a further tick. */
  lemma WaitSleepsOn(s0: State) returns (run: seq<Waiter>)
    requires Empty(s0)
    ensures IsWait(run, SLIP, 0) && run[0].s == Run(s0, [EAdd(1, 0, 0)])
    ensures Shaped(run[3].s) && run[3].at == Paused && run[3].s.tasks[0].None? && HasFired(run[3].s, 0)
    ensures run[3].vain == 1 && Go(run[3], 0, Main) == run[3]
  {
    var s := Step(s0, EAdd(1, 0, 0));
    assert [EAdd(1, 0, 0)][..0] == [];
    assert Run(s0, [EAdd(1, 0, 0)]) == s;
    var w0 := Waiter(Testing, s, 0, 0);
    var w1 := Go(w0, 0, SLIP[0]);
    var w2 := Go(w1, 0, SLIP[1]);
    var w3 := Go(w2, 0, SLIP[2]);
    run := [w0, w1, w2, w3];
    SilentTickAt(s, SLIP[1].cb, 0);
  }

  /** What a silent tick does to one slot. */
  lemma SilentTickAt(s: State, cb: Callbacks, id: nat)
    requires Shaped(s) && id < MAX_TASKS && s.tasks[id].Some? && s.tasks[id].value.sec == 1 && forall u :: cb(u) == []
    requires s.fired == [] && forall j :: 0 <= j < id ==> s.tasks[j].None?
    ensures Tick(s, cb).tasks[id].None? && HasFired(Tick(s, cb), s.tasks[id].value.uid)
  {
    var s1 := s.(now := s.now + 1);
    SilentScan(s1, 0, cb);
    ExpiredFirst(s.tasks, s.now + 1, 0, id);
    assert Tick(s, cb).fired[0].uid == s.tasks[id].value.uid;
  }

  lemma {:induction false} ExpiredFirst(tasks: seq<Option<Task>>, tick: nat, i: nat, id: nat)
    requires i <= id < |tasks| && tasks[id].Some? && tasks[id].value.sec == 1
    requires forall j :: i <= j < id ==> tasks[j].None?
    ensures |Expired(tasks, tick, i)| > 0 && Expired(tasks, tick, i)[0].uid == tasks[id].value.uid
    decreases id - i
  {
    if i < id { ExpiredFirst(tasks, tick, i + 1, id); }
  }

  // ---- how many ticks it takes ----

  ghost predicate CancelsOthers(jobs: seq<Job>, cb: Callbacks) {
    forall u, k :: 0 <= u < |jobs| && 0 <= k < |cb(u)| ==> cb(u)[k].Cancel? && cb(u)[k].id != jobs[u].slot
  }

  /** What ticks with such callbacks leave as it is, and what they only add to. */
  ghost predicate Later(s: State, s': State) {
    && s'.doubleFree == s.doubleFree && s'.jobs == s.jobs
    && s.cancelled <= s'.cancelled && s.fired <= s'.fired
  }

  lemma {:induction false} OpsCancel(s: State, i: nat, ops: seq<Op>)
    requires Shaped(s) && forall k :: 0 <= k < |ops| ==> ops[k].Cancel? && ops[k].id != i
    ensures var s' := RunOps(s, i, ops);
      && Later(s, s') && s'.now == s.now
      && (forall j :: 0 <= j < MAX_TASKS ==> s'.tasks[j] == s.tasks[j] || s'.tasks[j].None?)
    decreases |ops|
  {
    if ops != [] {
      assert ops[0].Cancel? && ops[0].id != i;
      OpsCancel(RunOp(s, i, ops[0]), i, ops[1..]);
    }
  }

  lemma VisitCancels(s: State, i: nat, cb: Callbacks)
    requires Inv(s, i) && i < MAX_TASKS && CancelsOthers(s.jobs, cb)
    ensures var s' := Visit(s, i, cb);
      && Later(s, s')
      && (forall j :: 0 <= j < MAX_TASKS && j != i ==> s'.tasks[j] == s.tasks[j] || s'.tasks[j].None?)
      && s'.tasks[i] == Countdown(s.tasks[i])
      && ((forall v :: cb(v) == []) ==> s'.cancelled == s.cancelled)
  {
    assert SlotOk(s, i, i);
    if s.tasks[i].Some? && s.tasks[i].value.sec == 1 {
      var u := s.tasks[i].value.uid;
      assert forall k :: 0 <= k < |cb(u)| ==> cb(u)[k].Cancel? && cb(u)[k].id != s.jobs[u].slot;
      OpsCancel(Fire(s, i), i, cb(u));
    }
  }

  /** What the rest of the pass does to one slot. */
  lemma {:induction false} ScanCancels(s: State, i: nat, cb: Callbacks, id: nat)
    requires i <= MAX_TASKS && Inv(s, i) && CancelsOthers(s.jobs, cb) && !s.doubleFree && id < MAX_TASKS
    ensures var s' := Scan(s, i, cb);
      && Later(s, s')
      && (s'.tasks[id].None? || s'.tasks[id] == if id < i then s.tasks[id] else Countdown(s.tasks[id]))
      && ((forall v :: cb(v) == []) ==> s'.cancelled == s.cancelled)
    decreases MAX_TASKS - i
  {
    if i < MAX_TASKS {
      VisitCancels(s, i, cb);
      VisitKeepsInv(s, i, cb);
      ScanCancels(Visit(s, i, cb), i + 1, cb, id);
    }
  }

  lemma LiveInItsSlot(s: State, u: nat)
    requires Inv(s, MAX_TASKS) && u < |s.jobs| && Live(s, u)
    ensures s.jobs[u].slot < MAX_TASKS && s.tasks[s.jobs[u].slot].Some?
  {
    var j :| 0 <= j < MAX_TASKS && s.tasks[j].Some? && s.tasks[j].value.uid == u;
    assert SlotOk(s, MAX_TASKS, j);
  }

  /** Task `t` of slot `id` left the table `gone` ticks after it had `t.sec` left. */
  ghost predicate SeenOff(s: State, cb: Callbacks, id: nat, t: Task, gone: nat) {
    && t.uid < |s.jobs| && s.jobs[t.uid].slot == id
    && gone <= t.sec
    && HasFired(s, t.uid) == (t.uid !in s.cancelled)
    && (HasFired(s, t.uid) ==> gone == t.sec)
    && ((forall v :: cb(v) == []) ==> HasFired(s, t.uid))
  }

  /** Between ticks, with callbacks that only cancel other jobs. */
  ghost predicate Calm(s: State, cb: Callbacks) {
    Inv(s, MAX_TASKS) && !s.doubleFree && CancelsOthers(s.jobs, cb)
  }

  lemma TickKeepsCalm(s: State, cb: Callbacks, id: nat)
    requires Calm(s, cb) && id < MAX_TASKS
    ensures var s' := Tick(s, cb);
      && Calm(s', cb) && Later(s, s') && s'.now == s.now + 1
      && (s'.tasks[id].None? || s'.tasks[id] == Countdown(s.tasks[id]))
      && ((forall v :: cb(v) == []) ==> s'.cancelled == s.cancelled)
  {
    TickStarts(s);
    ScanCancels(s.(now := s.now + 1), 0, cb, id);
    TickKeepsInv(s, cb);
  }

  /** A tick counts the job in slot `id` down by one, or sees it off. */
  lemma TickOf(s: State, cb: Callbacks, id: nat)
    requires Calm(s, cb) && id < MAX_TASKS && s.tasks[id].Some? && s.tasks[id].value.sec >= 1
    ensures var s' := Tick(s, cb);
      var t := s.tasks[id].value;
      && Calm(s', cb) && s'.now == s.now + 1
      && (s'.tasks[id].Some? ==> t.sec >= 2 && s'.tasks[id] == Some(t.(sec := t.sec - 1)))
      && (s'.tasks[id].None? ==> SeenOff(s', cb, id, t, 1))
  {
    var s' := Tick(s, cb);
    var t := s.tasks[id].value;
    TickKeepsCalm(s, cb, id);
    assert SlotOk(s, MAX_TASKS, id);
    JobStages(s', t.uid);
    if Live(s', t.uid) { LiveInItsSlot(s', t.uid); }
    if HasFired(s', t.uid) {
      var k :| 0 <= k < |s'.fired| && s'.fired[k].uid == t.uid;
      assert FiringOk(s', s'.fired[k]);
    }
  }

  lemma FiredStays(s: State, s': State, u: nat)
    requires s.fired <= s'.fired && HasFired(s, u)
    ensures HasFired(s', u)
  {
    var k :| 0 <= k < |s.fired| && s.fired[k].uid == u;
    assert s'.fired[k].uid == u;
  }

  /** What is gone stays gone, and how it went stays as it was. */
  lemma SeenOffStays(s: State, cb: Callbacks, id: nat, t: Task, gone: nat)
    requires Calm(s, cb) && id < MAX_TASKS && s.tasks[id].None? && SeenOff(s, cb, id, t, gone)
    ensures var s' := Tick(s, cb);
      Calm(s', cb) && s'.now == s.now + 1 && s'.tasks[id].None? && SeenOff(s', cb, id, t, gone)
  {
    var s' := Tick(s, cb);
    TickKeepsCalm(s, cb, id);
    JobStages(s', t.uid);
    if HasFired(s, t.uid) { FiredStays(s, s', t.uid); }
  }

  function Ticked(s: State, cb: Callbacks, n: nat): (s': State)
    requires Shaped(s)
    ensures Shaped(s')
    decreases n
  {
    if n == 0 then s else Tick(Ticked(s, cb, n - 1), cb)
  }

  /** The `gone`-th tick is the one that empties the slot; an empty slot needs none. */
  ghost predicate GoneOn(s: State, cb: Callbacks, id: nat, gone: nat)
    requires Shaped(s) && id < MAX_TASKS
  {
    Ticked(s, cb, gone).tasks[id].None? && forall n: nat :: n < gone ==> Ticked(s, cb, n).tasks[id].Some?
  }

  /** An empty slot stays empty; a job has `n` less to go after `n` ticks, or has been seen off by one of them. */
  lemma {:induction false} TicksOf(s: State, cb: Callbacks, id: nat, n: nat) returns (gone: nat)
    requires Calm(s, cb) && id < MAX_TASKS && (s.tasks[id].Some? ==> s.tasks[id].value.sec >= 1)
    ensures var s' := Ticked(s, cb, n);
      && Calm(s', cb) && s'.now == s.now + n
      && (s'.tasks[id].Some? ==>
            && s.tasks[id].Some? && n < s.tasks[id].value.sec
            && s'.tasks[id] == Some(s.tasks[id].value.(sec := s.tasks[id].value.sec - n))
            && forall m: nat :: m <= n ==> Ticked(s, cb, m).tasks[id].Some?)
      && (s'.tasks[id].None? ==>
            && gone <= n && GoneOn(s, cb, id, gone)
            && (s.tasks[id].Some? ==> SeenOff(s', cb, id, s.tasks[id].value, gone)))
    decreases n
  {
    if n == 0 {
      gone := 0;
    } else {
      gone := TicksOf(s, cb, id, n - 1);
      var s1 := Ticked(s, cb, n - 1);
      if s1.tasks[id].Some? {
        TickOf(s1, cb, id);
        gone := n;
        forall m: nat | m < n
          ensures Ticked(s, cb, m).tasks[id].Some?
        {
          assert m <= n - 1;
        }
      } else if s.tasks[id].Some? {
        SeenOffStays(s1, cb, id, s.tasks[id].value, gone);
      } else {
        TickKeepsCalm(s1, cb, id);
      }
    }
  }

  /** The `gone`-th tick is the one that empties the slot, for good; an empty slot needs none. */
  ghost predicate Leaves(s: State, cb: Callbacks, id: nat, gone: nat)
    requires Shaped(s) && id < MAX_TASKS
  {
    forall n: nat :: EmptyAfter(s, cb, id, n) <==> gone <= n
  }

  ghost predicate EmptyAfter(s: State, cb: Callbacks, id: nat, n: nat)
    requires Shaped(s) && id < MAX_TASKS
  {
    Ticked(s, cb, n).tasks[id].None?
  }

  lemma GoneIff(s: State, cb: Callbacks, id: nat, gone: nat, n: nat)
    requires Calm(s, cb) && id < MAX_TASKS && (s.tasks[id].Some? ==> s.tasks[id].value.sec >= 1)
    requires GoneOn(s, cb, id, gone)
    ensures Ticked(s, cb, n).tasks[id].None? <==> gone <= n
  {
    var g := TicksOf(s, cb, id, n);
    if gone <= n { assert Ticked(s, cb, gone).tasks[id].None?; }
  }

  /** Every job with a positive delay leaves its slot on some tick. */
  lemma LeavesSometime(s: State, cb: Callbacks, id: nat) returns (gone: nat)
    requires Calm(s, cb) && id < MAX_TASKS && (s.tasks[id].Some? ==> s.tasks[id].value.sec >= 1)
    ensures Leaves(s, cb, id, gone)
  {
    gone := TicksOf(s, cb, id, if s.tasks[id].Some? then s.tasks[id].value.sec else 0);
    forall n: nat
      ensures EmptyAfter(s, cb, id, n) <==> gone <= n
    {
      GoneIff(s, cb, id, gone, n);
    }
  }

  /** From then on it is settled how the job went. */
  lemma Settled(s: State, cb: Callbacks, id: nat, gone: nat, n: nat)
    requires Calm(s, cb) && id < MAX_TASKS && (s.tasks[id].Some? ==> s.tasks[id].value.sec >= 1)
    requires Leaves(s, cb, id, gone) && gone <= n
    ensures var s' := Ticked(s, cb, n);
      && Calm(s', cb) && s'.now == s.now + n
      && (s.tasks[id].Some? ==> SeenOff(s', cb, id, s.tasks[id].value, gone))
  {
    var g := TicksOf(s, cb, id, n);
    assert EmptyAfter(s, cb, id, n) && EmptyAfter(s, cb, id, g) && EmptyAfter(s, cb, id, gone);
  }

  // ---- schedules ----

  /**
   The `r`-th test comes after tick number `tests[r]`: `early` ticks come before each test, `late`
   ones between a test and its pause, and one in each pause.
   */
  ghost predicate Schedule(early: nat -> nat, late: nat -> nat, start: nat, tests: seq<nat>) {
    && |tests| > 0 && tests[0] == start + early(0)
    && forall r :: 0 <= r < |tests| - 1 ==> tests[r + 1] == tests[r] + late(r) + 1 + early(r + 1)
  }

  /** No test but the last comes after tick number `last`. */
  ghost predicate NoneAfter(tests: seq<nat>, last: nat) {
    forall r :: 0 <= r < |tests| - 1 ==> tests[r] < last
  }

  /** That tick fell between the last pause and the test before it. */
  ghost predicate Slipped(late: nat -> nat, tests: seq<nat>, last: nat)
    requires |tests| > 0
  {
    var n := |tests| - 1;
    n > 0 && last <= tests[n - 1] + late(n - 1)
  }

  lemma ScheduleOn(early: nat -> nat, late: nat -> nat, start: nat, tests: seq<nat>, last: nat, next: nat)
    requires Schedule(early, late, start, tests) && NoneAfter(tests, last)
    requires var n := |tests| - 1; tests[n] < last && next == tests[n] + late(n) + 1 + early(n + 1)
    ensures Schedule(early, late, start, tests + [next]) && NoneAfter(tests + [next], last)
    ensures Slipped(late, tests + [next], last) <==> last <= tests[|tests| - 1] + late(|tests| - 1)
  {
  }

  /** The slot is empty exactly from tick number `last` on. */
  ghost predicate EmptiesOn(s: State, cb: Callbacks, id: nat, last: nat)
    requires id < MAX_TASKS
  {
    Shaped(s) && Leaves(s, cb, id, if last > s.now then last - s.now else 0)
  }

  lemma {:induction false} OpsKeepNow(s: State, i: nat, ops: seq<Op>)
    requires Shaped(s)
    ensures RunOps(s, i, ops).now == s.now
    decreases |ops|
  {
    if ops != [] { OpsKeepNow(RunOp(s, i, ops[0]), i, ops[1..]); }
  }

  lemma {:induction false} ScanKeepsNow(s: State, i: nat, cb: Callbacks)
    requires Shaped(s) && i <= MAX_TASKS
    ensures Scan(s, i, cb).now == s.now
    decreases MAX_TASKS - i
  {
    if i < MAX_TASKS {
      if s.tasks[i].Some? && s.tasks[i].value.sec == 1 { OpsKeepNow(Fire(s, i), i, cb(s.tasks[i].value.uid)); }
      ScanKeepsNow(Visit(s, i, cb), i + 1, cb);
    }
  }

  lemma {:induction false} TickedNow(s: State, cb: Callbacks, n: nat)
    requires Shaped(s)
    ensures Ticked(s, cb, n).now == s.now + n
    decreases n
  {
    if n > 0 {
      TickedNow(s, cb, n - 1);
      var s1 := Ticked(s, cb, n - 1);
      ScanKeepsNow(s1.(now := s1.now + 1), 0, cb);
    }
  }

  /** `s'` comes from `s` by ticks and nothing else. */
  ghost predicate OnlyTicks(s: State, cb: Callbacks, s': State) {
    Shaped(s) && exists n: nat :: s' == Ticked(s, cb, n)
  }

  lemma OnlyTicksRefl(s: State, cb: Callbacks)
    requires Shaped(s)
    ensures OnlyTicks(s, cb, s)
  {
    assert s == Ticked(s, cb, 0);
  }

  lemma OnlyTicksOn(s: State, cb: Callbacks, s1: State)
    requires OnlyTicks(s, cb, s1)
    ensures Shaped(s1) && OnlyTicks(s, cb, Tick(s1, cb)) && Tick(s1, cb).now == s1.now + 1
  {
    var n: nat :| s1 == Ticked(s, cb, n);
    assert Tick(s1, cb) == Ticked(s, cb, n + 1);
    TickedNow(s, cb, n);
    TickedNow(s, cb, n + 1);
  }

  lemma EmptyYet(s: State, cb: Callbacks, id: nat, last: nat, s': State)
    requires id < MAX_TASKS && EmptiesOn(s, cb, id, last) && OnlyTicks(s, cb, s')
    ensures Shaped(s') && (s'.tasks[id].None? <==> last <= s'.now)
  {
    var n: nat :| s' == Ticked(s, cb, n);
    TickedNow(s, cb, n);
    assert EmptyAfter(s, cb, id, n) <==> s'.tasks[id].None?;
  }

  /**
   With callbacks that only cancel other jobs, a job with `sec >= 1` left (one with less would never be
   seen off) leaves its slot for good on some tick, at most `sec` ticks on.  From that tick on it has
   either fired, and then the tick was the `sec`-th, or been cancelled.  When no callback does anything
   it has fired.
   */
  lemma JobLeaves(s: State, cb: Callbacks, id: nat) returns (last: nat)
    requires Calm(s, cb) && id < MAX_TASKS && s.tasks[id].Some? && s.tasks[id].value.sec >= 1
    ensures EmptiesOn(s, cb, id, last) && s.now < last <= s.now + s.tasks[id].value.sec
    ensures forall s' :: OnlyTicks(s, cb, s') && last <= s'.now ==>
      Calm(s', cb) && SeenOff(s', cb, id, s.tasks[id].value, last - s.now)
  {
    var gone := LeavesSometime(s, cb, id);
    assert EmptyAfter(s, cb, id, 0) <==> gone <= 0;
    Settled(s, cb, id, gone, gone);
    last := s.now + gone;
    forall s' | OnlyTicks(s, cb, s') && last <= s'.now
      ensures Calm(s', cb) && SeenOff(s', cb, id, s.tasks[id].value, gone)
    {
      var n: nat :| s' == Ticked(s, cb, n);
      TickedNow(s, cb, n);
      Settled(s, cb, id, gone, n);
    }
  }

  /** An empty slot stays empty. */
  lemma EmptyStays(s: State, cb: Callbacks, id: nat)
    requires Calm(s, cb) && id < MAX_TASKS && s.tasks[id].None?
    ensures EmptiesOn(s, cb, id, s.now)
  {
    var gone := LeavesSometime(s, cb, id);
    assert EmptyAfter(s, cb, id, 0) <==> gone <= 0;
  }
}
