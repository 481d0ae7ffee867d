/**
 A tick may land anywhere inside `at_add_job`: between two slots of the search, or between the
 search and the store.  The store must not overwrite a live job.
 */
module TimerRace {
  import opened Slots
  import opened TimerSpec
  import opened TimerDeadlines

  /** Where the main flow stands inside `at_add_job`. */
  datatype Pc = Searching(i: nat) | Storing(id: nat) | Full | Returned(id: nat)

  datatype Config = Config(pc: Pc, s: State)

  /** One step of the search or the store by the main flow. */
  function Advance(c: Config, sec: int, func: nat, arg: nat): Config
    requires Shaped(c.s) && (c.pc.Storing? ==> c.pc.id < MAX_TASKS)
  {
    match c.pc
    case Searching(i) =>
      if i >= MAX_TASKS then c.(pc := Full)
      else if c.s.tasks[i].None? then c.(pc := Storing(i))
      else c.(pc := Searching(i + 1))
    case Storing(id) =>
      Config(Returned(id), StoreJob(c.s, id, MAX_TASKS, sec, func, arg))
    case _ => c
  }

  /** What may happen next: the main flow moves, or a tick is delivered. */
  datatype Move = Main | Alarm(cb: Callbacks)

  ghost predicate AddsNothing(cb: Callbacks) {
    forall u, k :: 0 <= k < |cb(u)| ==> cb(u)[k].Cancel?
  }

  ghost predicate Ok(c: Config) {
    Shaped(c.s) && (c.pc.Storing? ==> c.pc.id < MAX_TASKS)
  }

  function Apply(c: Config, m: Move, sec: int, func: nat, arg: nat): (c': Config)
    requires Ok(c)
    ensures Ok(c')
  {
    match m
    case Main => Advance(c, sec, func, arg)
    case Alarm(cb) => c.(s := Tick(c.s, cb))
  }

  function Interleave(c: Config, ms: seq<Move>, sec: int, func: nat, arg: nat): (c': Config)
    requires Ok(c)
    ensures Ok(c')
    decreases |ms|
  {
    if ms == [] then c
    else Apply(Interleave(c, ms[..|ms| - 1], sec, func, arg), ms[|ms| - 1], sec, func, arg)
  }

  // ---- callbacks that add nothing never fill a slot ----

  lemma {:induction false} CancelsEmpty(s: State, i: nat, ops: seq<Op>, j: nat)
    requires Shaped(s) && j < MAX_TASKS && s.tasks[j].None?
    requires forall k :: 0 <= k < |ops| ==> ops[k].Cancel?
    ensures RunOps(s, i, ops).tasks[j].None?
    decreases |ops|
  {
    if ops != [] {
      assert ops[0].Cancel?;
      CancelsEmpty(RunOp(s, i, ops[0]), i, ops[1..], j);
    }
  }

  lemma {:induction false} ScanLeavesEmpty(s: State, i: nat, cb: Callbacks, j: nat)
    requires Shaped(s) && i <= MAX_TASKS && j < MAX_TASKS && s.tasks[j].None? && AddsNothing(cb)
    ensures Scan(s, i, cb).tasks[j].None?
    decreases MAX_TASKS - i
  {
    if i < MAX_TASKS {
      if s.tasks[i].Some? && s.tasks[i].value.sec == 1 {
        CancelsEmpty(Fire(s, i), i, cb(s.tasks[i].value.uid), j);
      }
      ScanLeavesEmpty(Visit(s, i, cb), i + 1, cb, j);
    }
  }

  /**
   However ticks fall into `at_add_job`, if their callbacks add no job the slot it stores into is
   still empty at that moment, so no live job is overwritten.
   */
  lemma {:induction false} StoreIsSafe(s: State, ms: seq<Move>, sec: int, func: nat, arg: nat)
    requires Shaped(s)
    requires forall k :: 0 <= k < |ms| && ms[k].Alarm? ==> AddsNothing(ms[k].cb)
    ensures var c := Interleave(Config(Searching(0), s), ms, sec, func, arg);
      c.pc.Storing? ==> c.s.tasks[c.pc.id].None?
    decreases |ms|
  {
    if ms != [] {
      var front := ms[..|ms| - 1];
      StoreIsSafe(s, front, sec, func, arg);
      var c := Interleave(Config(Searching(0), s), front, sec, func, arg);
      if ms[|ms| - 1].Alarm? && c.pc.Storing? {
        ScanLeavesEmpty(c.s.(now := c.s.now + 1), 0, ms[|ms| - 1].cb, c.pc.id);
      }
    }
  }

  // ---- callbacks that add without cancelling ----

  ghost predicate CancelsNothing(cb: Callbacks) {
    forall u, k :: 0 <= k < |cb(u)| ==> cb(u)[k].Add?
  }

  ghost predicate AlarmsRun(ms: seq<Move>, cb: Callbacks) {
    forall k :: 0 <= k < |ms| && ms[k].Alarm? ==> ms[k].cb == cb
  }

  /** However alarms with these callbacks fall into an `at_add_job` on table `s`, its store hits an empty slot. */
  ghost predicate StoresSafely(s: State, cb: Callbacks)
    requires Shaped(s)
  {
    forall ms, sec, func, arg :: AlarmsRun(ms, cb) ==>
      var c := Interleave(Config(Searching(0), s), ms, sec, func, arg);
      c.pc.Storing? ==> c.s.tasks[c.pc.id].None?
  }

  lemma {:induction false} AddsKeepFilled(s: State, i: nat, ops: seq<Op>, j: nat)
    requires Shaped(s) && j < MAX_TASKS && s.tasks[j].Some?
    requires forall k :: 0 <= k < |ops| ==> ops[k].Add?
    ensures RunOps(s, i, ops).tasks[j] == s.tasks[j]
    decreases |ops|
  {
    if ops != [] {
      assert ops[0].Add?;
      AddsKeepFilled(RunOp(s, i, ops[0]), i, ops[1..], j);
    }
  }

  /** Without cancellations a filled slot that has had its turn stays as it is for the rest of the pass. */
  lemma {:induction false} ScanKeepsFilled(s: State, i: nat, cb: Callbacks, j: nat)
    requires Shaped(s) && j < i <= MAX_TASKS && s.tasks[j].Some? && CancelsNothing(cb)
    ensures Scan(s, i, cb).tasks[j] == s.tasks[j]
    decreases MAX_TASKS - i
  {
    if i < MAX_TASKS {
      if s.tasks[i].Some? && s.tasks[i].value.sec == 1 {
        AddsKeepFilled(Fire(s, i), i, cb(s.tasks[i].value.uid), j);
      }
      ScanKeepsFilled(Visit(s, i, cb), i + 1, cb, j);
    }
  }

  /** Job `u` is about to fire in slot 1, and slot 0 is free. */
  ghost predicate DueBehindGap(s: State, u: nat) {
    Shaped(s) && s.tasks[0].None? && s.tasks[1].Some? && s.tasks[1].value.sec == 1 && s.tasks[1].value.uid == u
  }

  /** A tick on such a table puts the first job its callback adds into slot 0, for good. */
  lemma TickFillsGap(s: State, cb: Callbacks, u: nat)
    requires DueBehindGap(s, u) && CancelsNothing(cb) && cb(u) != []
    ensures var op := cb(u)[0];
      op.Add? && Tick(s, cb).tasks[0] == Some(Task(op.sec, op.func, op.arg, 0, |s.jobs|))
  {
    var s1 := s.(now := s.now + 1);
    assert Visit(s1, 0, cb) == s1;
    var f := Fire(s1, 1);
    var ops := cb(u);
    assert ops[0].Add? && FreePos(f.tasks, 0) == 0;
    AddsKeepFilled(RunOp(f, 1, ops[0]), 1, ops[1..], 0);
    var s2 := Visit(s1, 1, cb);
    ScanKeepsFilled(s2, 2, cb, 0);
    assert Scan(s1, 0, cb) == Scan(s1, 1, cb) == Scan(s2, 2, cb);
  }

  /**
   From such a table, an alarm between the search and the store leaves the live job that the
   callback added in the very slot that the interrupted `at_add_job` is about to overwrite.
   */
  lemma StoreCanOverwrite(s: State, cb: Callbacks, u: nat, sec: int, func: nat, arg: nat)
    requires DueBehindGap(s, u) && CancelsNothing(cb) && cb(u) != []
    ensures var c := Interleave(Config(Searching(0), s), [Main, Alarm(cb)], sec, func, arg);
      c.pc == Storing(0) && c.s.tasks[0].Some? && c.s.tasks[0].value.uid == |s.jobs|
    ensures !StoresSafely(s, cb)
  {
    var c0 := Config(Searching(0), s);
    var ms := [Main, Alarm(cb)];
    assert ms[..1] == [Main] && [Main][..0] == [];
    assert Interleave(c0, [Main], sec, func, arg) == Config(Storing(0), s);
    TickFillsGap(s, cb, u);
    assert AlarmsRun(ms, cb);
  }

  /**
   For callbacks that cancel nothing: `at_add_job` never overwrites a live job, whatever the table,
   the interleaving and the job added, if and only if no callback adds one.
   */
  lemma SafeIffNothingAdded(cb: Callbacks)
    requires CancelsNothing(cb)
    ensures (forall s :: Shaped(s) ==> StoresSafely(s, cb)) <==> (forall u :: cb(u) == [])
  {
    if forall u :: cb(u) == [] {
      forall s | Shaped(s)
        ensures StoresSafely(s, cb)
      {
        forall ms, sec, func, arg | AlarmsRun(ms, cb)
          ensures var c := Interleave(Config(Searching(0), s), ms, sec, func, arg);
            c.pc.Storing? ==> c.s.tasks[c.pc.id].None?
        {
          StoreIsSafe(s, ms, sec, func, arg);
        }
      }
    } else {
      var u :| cb(u) != [];
      var s := State(seq(MAX_TASKS, j => if j == 1 then Some(Task(1, 0, 0, 1, u)) else None), 0, [], [], {}, false);
      StoreCanOverwrite(s, cb, u, 0, 0, 0);
    }
  }

  // ---- on tables a program can reach ----

  /** Only job `u` does anything in its callback. */
  function OnlyJob(u: nat, ops: seq<Op>): Callbacks {
    v => if v == u then ops else []
  }

  /** Add two jobs, the second due on the next tick, and cancel the first. */
  const GAP: seq<Event> := [EAdd(5, 0, 0), EAdd(1, 0, 0), ECancel(0)]

  lemma GapIsReachable(s0: State)
    requires Empty(s0)
    ensures DueBehindGap(Run(s0, GAP), 1) && !Run(s0, GAP).doubleFree
  {
    assert GAP[..2] == [EAdd(5, 0, 0), EAdd(1, 0, 0)] && GAP[..2][..1] == [EAdd(5, 0, 0)] && GAP[..2][..1][..0] == [];
    var s1 := Step(s0, EAdd(5, 0, 0));
    assert s1 == Run(s0, GAP[..2][..1]);
    assert FreePos(s1.tasks, 0) == 1;
    var s2 := Step(s1, EAdd(1, 0, 0));
    assert s2 == Run(s0, GAP[..2]);
    assert Run(s0, GAP) == Step(s2, ECancel(0));
  }

  /** A job with this callback is harmless to an interrupted `at_add_job` in every run of the program. */
  ghost predicate HarmlessInRuns(ops: seq<Op>) {
    forall s0, es, u :: Empty(s0) ==> StoresSafely(Run(s0, es), OnlyJob(u, ops))
  }

  /**
   The same on tables reached from the empty one: among callbacks that cancel nothing, only the one
   that does nothing is harmless.
   */
  lemma HarmlessIffNothingAdded(ops: seq<Op>)
    requires forall k :: 0 <= k < |ops| ==> ops[k].Add?
    ensures HarmlessInRuns(ops) <==> ops == []
  {
    if ops == [] {
      forall s0, es, u: nat | Empty(s0)
        ensures StoresSafely(Run(s0, es), OnlyJob(u, ops))
      {
        SafeIffNothingAdded(OnlyJob(u, ops));
      }
    } else {
      var s0 := State(seq(MAX_TASKS, _ => None), 0, [], [], {}, false);
      assert Empty(s0);
      GapIsReachable(s0);
      StoreCanOverwrite(Run(s0, GAP), OnlyJob(1, ops), 1, 0, 0, 0);
    }
  }

  /**
   Cancellations change this: a callback that cancels what it has just added leaves the slot empty,
   on the very table on which adding alone does harm.
   */
  lemma CancellingUndoes(s: State, u: nat, sec: int, func: nat, arg: nat)
    requires DueBehindGap(s, u) && forall j :: 2 <= j < MAX_TASKS ==> s.tasks[j].None?
    ensures Tick(s, OnlyJob(u, [Add(sec, func, arg), Cancel(0)])).tasks[0].None?
  {
    var cb := OnlyJob(u, [Add(sec, func, arg), Cancel(0)]);
    var s1 := s.(now := s.now + 1);
    var f := Fire(s1, 1);
    var ops := cb(u);
    assert FreePos(f.tasks, 0) == 0;
    var g := RunOp(f, 1, ops[0]);
    assert ops[1..] == [Cancel(0)];
    assert RunOps(g, 1, [Cancel(0)]) == RunOp(g, 1, Cancel(0));
    var s2 := Visit(s1, 1, cb);
    ScanOverEmpty(s2, 2, cb);
    assert Scan(s1, 0, cb) == Scan(s1, 1, cb) == Scan(s2, 2, cb);
  }

  lemma {:induction false} ScanOverEmpty(s: State, i: nat, cb: Callbacks)
    requires Shaped(s) && i <= MAX_TASKS && forall j :: i <= j < MAX_TASKS ==> s.tasks[j].None?
    ensures Scan(s, i, cb) == s
    decreases MAX_TASKS - i
  {
    if i < MAX_TASKS { ScanOverEmpty(s, i + 1, cb); }
  }
}
