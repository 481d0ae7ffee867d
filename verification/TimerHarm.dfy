/**
 Exactly which callbacks can make an interrupted `at_add_job` overwrite a live job, when one job has
 a callback that adds and cancels as it likes and all others leave the table alone.
 */
module TimerHarm {
  import opened Slots
  import opened TimerSpec
  import opened TimerDeadlines
  import opened TimerBoard
  import opened TimerRace

  /**
   A slot that callback `ops`, run from slot `i`, found empty is empty again afterwards, or the
   running pass still comes to it and sees off what is there.
   */
  ghost predicate ClearAt(s: State, i: nat, ops: seq<Op>, j: nat)
    requires Shaped(s) && j < MAX_TASKS
  {
    var t := RunOps(s, i, ops).tasks[j];
    t.None? || (i < j && t.value.sec == 1)
  }

  /** On no table does the callback leave behind a job in a slot it found empty. */
  ghost predicate LeavesClear(ops: seq<Op>) {
    forall s, i: nat, j: nat ::
      Shaped(s) && i < MAX_TASKS && j < MAX_TASKS && s.tasks[i].Some? && s.tasks[j].None? ==> ClearAt(s, i, ops, j)
  }

  // ---- numbers of jobs ----

  /** Live jobs have distinct numbers that have been given out. */
  ghost predicate Numbered(s: State) {
    && Shaped(s) && DistinctUids(s)
    && forall j :: 0 <= j < MAX_TASKS && s.tasks[j].Some? ==> s.tasks[j].value.uid < |s.jobs|
  }

  lemma OpKeepsNumbered(s: State, i: nat, op: Op)
    requires Numbered(s) && i < MAX_TASKS
    ensures Numbered(RunOp(s, i, op)) && (s.tasks[i].Some? ==> RunOp(s, i, op).tasks[i] == s.tasks[i])
  {
  }

  lemma {:induction false} OpsKeepNumbered(s: State, i: nat, ops: seq<Op>)
    requires Numbered(s) && i < MAX_TASKS
    ensures Numbered(RunOps(s, i, ops)) && (s.tasks[i].Some? ==> RunOps(s, i, ops).tasks[i] == s.tasks[i])
    decreases |ops|
  {
    if ops != [] {
      OpKeepsNumbered(s, i, ops[0]);
      OpsKeepNumbered(RunOp(s, i, ops[0]), i, ops[1..]);
    }
  }

  lemma FireKeepsNumbered(s: State, i: nat)
    requires Numbered(s) && i < MAX_TASKS && s.tasks[i].Some?
    ensures Numbered(Fire(s, i))
  {
  }

  lemma VisitKeepsNumbered(s: State, i: nat, cb: Callbacks)
    requires Numbered(s) && i < MAX_TASKS
    ensures Numbered(Visit(s, i, cb))
  {
    if s.tasks[i].Some? {
      FireKeepsNumbered(s, i);
      OpsKeepNumbered(Fire(s, i), i, cb(s.tasks[i].value.uid));
    }
  }

  lemma {:induction false} ScanKeepsNumbered(s: State, i: nat, cb: Callbacks)
    requires Numbered(s) && i <= MAX_TASKS
    ensures Numbered(Scan(s, i, cb))
    decreases MAX_TASKS - i
  {
    if i < MAX_TASKS {
      VisitKeepsNumbered(s, i, cb);
      ScanKeepsNumbered(Visit(s, i, cb), i + 1, cb);
    }
  }

  lemma {:induction false} RunKeepsNumbered(s: State, es: seq<Event>)
    requires Numbered(s)
    ensures Numbered(Run(s, es))
    decreases |es|
  {
    if es != [] {
      var s1 := Run(s, es[..|es| - 1]);
      RunKeepsNumbered(s, es[..|es| - 1]);
      match es[|es| - 1]
      case EAdd(sec, func, arg) =>
      case ECancel(id) =>
      case ETick(cb) => ScanKeepsNumbered(s1.(now := s1.now + 1), 0, cb);
    }
  }

  // ---- a callback that leaves clear does no harm ----

  /** No job `u` is in the slots from `p` on. */
  ghost predicate NotFrom(s: State, p: nat, u: nat)
    requires Shaped(s)
  {
    forall k :: p <= k < MAX_TASKS && s.tasks[k].Some? ==> s.tasks[k].value.uid != u
  }

  /** Slot `j` is empty, or the rest of the pass from slot `p` sees off the job in it. */
  ghost predicate Clears(s: State, p: nat, u: nat, j: nat) {
    && Numbered(s) && j < MAX_TASKS
    && (s.tasks[j].None? || (p <= j && s.tasks[j].value.sec == 1 && NotFrom(s, p, u)))
  }

  lemma FiringClears(s: State, p: nat, u: nat, ops: seq<Op>, j: nat)
    requires Clears(s, p, u, j) && LeavesClear(ops) && p < MAX_TASKS
    requires s.tasks[p].Some? && s.tasks[p].value.sec == 1 && s.tasks[p].value.uid == u
    ensures Clears(Visit(s, p, OnlyJob(u, ops)), p + 1, u, j)
  {
    assert s.tasks[j].None?;
    var f := Fire(s, p);
    FireKeepsNumbered(s, p);
    OpsKeepNumbered(f, p, ops);
    var g := RunOps(f, p, ops);
    assert ClearAt(f, p, ops, j);
    assert g.tasks[p].value.uid == u;
    assert forall k :: p < k < MAX_TASKS && g.tasks[k].Some? ==> g.tasks[k].value.uid != u;
    VisitKeepsNumbered(s, p, OnlyJob(u, ops));
  }

  lemma VisitClears(s: State, p: nat, u: nat, ops: seq<Op>, j: nat)
    requires Clears(s, p, u, j) && LeavesClear(ops) && p < MAX_TASKS
    ensures Clears(Visit(s, p, OnlyJob(u, ops)), p + 1, u, j)
  {
    if s.tasks[p].Some? && s.tasks[p].value.sec == 1 && s.tasks[p].value.uid == u {
      FiringClears(s, p, u, ops, j);
    } else {
      VisitKeepsNumbered(s, p, OnlyJob(u, ops));
    }
  }

  lemma {:induction false} ScanClears(s: State, p: nat, u: nat, ops: seq<Op>, j: nat)
    requires Clears(s, p, u, j) && LeavesClear(ops) && p <= MAX_TASKS
    ensures Scan(s, p, OnlyJob(u, ops)).tasks[j].None?
    decreases MAX_TASKS - p
  {
    if p < MAX_TASKS {
      VisitClears(s, p, u, ops, j);
      ScanClears(Visit(s, p, OnlyJob(u, ops)), p + 1, u, ops, j);
    }
  }

  /** As long as the job is not stored: the slot found for it is still empty. */
  ghost predicate Unharmed(c: Config) {
    Ok(c) && (!c.pc.Returned? ==> Numbered(c.s)) && (c.pc.Storing? ==> c.s.tasks[c.pc.id].None?)
  }

  lemma MoveKeepsUnharmed(c: Config, m: Move, u: nat, ops: seq<Op>, sec: int, func: nat, arg: nat)
    requires Unharmed(c) && LeavesClear(ops) && (m.Alarm? ==> m.cb == OnlyJob(u, ops))
    ensures Unharmed(Apply(c, m, sec, func, arg))
  {
    if m.Alarm? && !c.pc.Returned? {
      var s1 := c.s.(now := c.s.now + 1);
      assert Numbered(s1);
      ScanKeepsNumbered(s1, 0, m.cb);
      if c.pc.Storing? { ScanClears(s1, 0, u, ops, c.pc.id); }
    }
  }

  lemma {:induction false} StaysUnharmed(s: State, ms: seq<Move>, u: nat, ops: seq<Op>, sec: int, func: nat, arg: nat)
    requires Numbered(s) && LeavesClear(ops) && AlarmsRun(ms, OnlyJob(u, ops))
    ensures Unharmed(Interleave(Config(Searching(0), s), ms, sec, func, arg))
    decreases |ms|
  {
    if ms != [] {
      var front, m := ms[..|ms| - 1], ms[|ms| - 1];
      StaysUnharmed(s, front, u, ops, sec, func, arg);
      MoveKeepsUnharmed(Interleave(Config(Searching(0), s), front, sec, func, arg), m, u, ops, sec, func, arg);
    }
  }

  // ---- any other does harm on some table that a run reaches ----

  /** Two tables with the same slots filled, and in slot `j` jobs with the same time left. */
  ghost predicate SameShape(a: State, b: State, j: nat) {
    && Shaped(a) && Shaped(b) && j < MAX_TASKS
    && (forall k :: 0 <= k < MAX_TASKS ==> (a.tasks[k].Some? <==> b.tasks[k].Some?))
    && (a.tasks[j].Some? ==> a.tasks[j].value.sec == b.tasks[j].value.sec)
  }

  lemma SameFree(a: State, b: State, j: nat)
    requires SameShape(a, b, j)
    ensures FreePos(a.tasks, 0) == FreePos(b.tasks, 0)
  {
  }

  lemma OpKeepsShape(a: State, b: State, i: nat, op: Op, j: nat)
    requires SameShape(a, b, j)
    ensures SameShape(RunOp(a, i, op), RunOp(b, i, op), j)
  {
    SameFree(a, b, j);
  }

  /** What a callback does to the shape of a table depends on the shape alone. */
  lemma {:induction false} OpsKeepShape(a: State, b: State, i: nat, ops: seq<Op>, j: nat)
    requires SameShape(a, b, j)
    ensures SameShape(RunOps(a, i, ops), RunOps(b, i, ops), j)
    decreases |ops|
  {
    if ops != [] {
      OpKeepsShape(a, b, i, ops[0], j);
      OpsKeepShape(RunOp(a, i, ops[0]), RunOp(b, i, ops[0]), i, ops[1..], j);
    }
  }

  /** A stretch of the pass in which no callback does anything. */
  lemma {:induction false} QuietPart(s: State, p: nat, q: nat, cb: Callbacks) returns (s': State)
    requires Shaped(s) && p <= q <= MAX_TASKS
    requires forall k :: p <= k < q && s.tasks[k].Some? && s.tasks[k].value.sec == 1 ==> cb(s.tasks[k].value.uid) == []
    ensures Shaped(s') && s'.jobs == s.jobs && Scan(s, p, cb) == Scan(s', q, cb)
    ensures forall k :: 0 <= k < MAX_TASKS ==>
      s'.tasks[k] == if p <= k < q then Countdown(s.tasks[k]) else s.tasks[k]
    decreases q - p
  {
    if p == q {
      s' := s;
    } else {
      var s1 := Visit(s, p, cb);
      assert s1.jobs == s.jobs && s1.tasks == s.tasks[p := Countdown(s.tasks[p])];
      s' := QuietPart(s1, p + 1, q, cb);
    }
  }

  /** A whole pass in which no callback does anything. */
  lemma QuietTick(s: State, cb: Callbacks)
    requires Shaped(s)
    requires forall k :: 0 <= k < MAX_TASKS && s.tasks[k].Some? && s.tasks[k].value.sec == 1 ==>
      cb(s.tasks[k].value.uid) == []
    ensures Tick(s, cb).jobs == s.jobs
    ensures forall k :: 0 <= k < MAX_TASKS ==> Tick(s, cb).tasks[k] == Countdown(s.tasks[k])
  {
    var s' := QuietPart(s.(now := s.now + 1), 0, MAX_TASKS, cb);
  }

  /** A job that the rest of the pass does not see off stays. */
  lemma {:induction false} StaysFilled(s: State, p: nat, cb: Callbacks, u: nat, j: nat)
    requires Shaped(s) && p <= MAX_TASKS && j < MAX_TASKS && NotFrom(s, p, u) && (forall v :: v != u ==> cb(v) == [])
    requires s.tasks[j].Some? && (j < p || s.tasks[j].value.sec != 1)
    ensures Scan(s, p, cb).tasks[j].Some?
    decreases MAX_TASKS - p
  {
    if p < MAX_TASKS {
      assert s.tasks[p].Some? ==> cb(s.tasks[p].value.uid) == [];
      StaysFilled(Visit(s, p, cb), p + 1, cb, u, j);
    }
  }

  /** Time left to the job in slot `k` once all 1024 slots have been filled. */
  function Delays(w: State, i: nat, j: nat, k: nat): int
    requires Shaped(w) && k < MAX_TASKS
  {
    if k == i then 3 else if w.tasks[k].Some? then 9 else if k < j then 2 else 1
  }

  function Adds(w: State, i: nat, j: nat, n: nat): seq<Event>
    requires Shaped(w) && n <= MAX_TASKS
    decreases n
  {
    if n == 0 then [] else Adds(w, i, j, n - 1) + [EAdd(Delays(w, i, j, n - 1), 0, 0)]
  }

  /** The first `n` slots hold the jobs of these numbers, the others none. */
  ghost predicate FilledTo(s: State, w: State, i: nat, j: nat, n: nat) {
    && Shaped(s) && Shaped(w) && |s.jobs| == n
    && forall k :: 0 <= k < MAX_TASKS ==>
         s.tasks[k] == if k < n then Some(Task(Delays(w, i, j, k), 0, 0, k, k)) else None
  }

  lemma FirstFree(tasks: seq<Option<Task>>, n: nat)
    requires n < |tasks| && tasks[n].None? && forall k :: 0 <= k < n ==> tasks[k].Some?
    ensures FreePos(tasks, 0) == n
  {
  }

  lemma AddFillsNext(s: State, w: State, i: nat, j: nat, n: nat)
    requires FilledTo(s, w, i, j, n) && n < MAX_TASKS
    ensures FilledTo(Step(s, EAdd(Delays(w, i, j, n), 0, 0)), w, i, j, n + 1)
  {
    FirstFree(s.tasks, n);
  }

  lemma {:induction false} AddsFill(s0: State, w: State, i: nat, j: nat, n: nat)
    requires Empty(s0) && Shaped(w) && n <= MAX_TASKS
    ensures FilledTo(Run(s0, Adds(w, i, j, n)), w, i, j, n)
    decreases n
  {
    if n > 0 {
      AddsFill(s0, w, i, j, n - 1);
      var es := Adds(w, i, j, n);
      assert es[..|es| - 1] == Adds(w, i, j, n - 1);
      AddFillsNext(Run(s0, Adds(w, i, j, n - 1)), w, i, j, n - 1);
    }
  }

  const SILENT: Callbacks := _ => []

  /** Fill all slots, then let one tick empty those that are to be free. */
  function Setup(w: State, i: nat, j: nat): seq<Event>
    requires Shaped(w)
  {
    Adds(w, i, j, MAX_TASKS) + [ETick(SILENT)]
  }

  /** Slots below `j` are filled and `j` is empty; one tick later just those filled in `w` are. */
  ghost predicate IsSetUp(s: State, w: State, i: nat, j: nat) {
    && Shaped(w) && Numbered(s)
    && forall k :: 0 <= k < MAX_TASKS ==>
         s.tasks[k] == if Delays(w, i, j, k) == 1 then None else Some(Task(Delays(w, i, j, k) - 1, 0, 0, k, k))
  }

  ghost predicate IsFilled(s: State, w: State, i: nat, j: nat) {
    && Shaped(s) && Shaped(w)
    && forall k :: 0 <= k < MAX_TASKS ==> s.tasks[k] == Some(Task(Delays(w, i, j, k), 0, 0, k, k))
  }

  lemma TickSetsUp(s: State, w: State, i: nat, j: nat)
    requires IsFilled(s, w, i, j) && Numbered(Tick(s, SILENT))
    ensures IsSetUp(Tick(s, SILENT), w, i, j)
  {
    QuietTick(s, SILENT);
  }

  lemma EmptyIsNumbered(s0: State)
    requires Empty(s0)
    ensures Numbered(s0)
  {
  }

  lemma SetupReaches(s0: State, w: State, i: nat, j: nat)
    requires Empty(s0) && Shaped(w)
    ensures IsSetUp(Run(s0, Setup(w, i, j)), w, i, j)
  {
    var adds := Adds(w, i, j, MAX_TASKS);
    var es := Setup(w, i, j);
    EmptyIsNumbered(s0);
    RunKeepsNumbered(s0, es);
    assert es[..|es| - 1] == adds && es[|es| - 1] == ETick(SILENT);
    assert Run(s0, es) == Tick(Run(s0, adds), SILENT);
    AddsFill(s0, w, i, j, MAX_TASKS);
    TickSetsUp(Run(s0, adds), w, i, j);
  }

  lemma {:induction false} SearchesOn(s: State, n: nat, sec: int, func: nat, arg: nat)
    requires Shaped(s) && n <= MAX_TASKS && forall k :: 0 <= k < n ==> s.tasks[k].Some?
    ensures Interleave(Config(Searching(0), s), seq(n, _ => Main), sec, func, arg) == Config(Searching(n), s)
    decreases n
  {
    if n > 0 {
      SearchesOn(s, n - 1, sec, func, arg);
      assert seq(n, _ => Main)[..n - 1] == seq(n - 1, _ => Main);
    }
  }

  /** `n` steps of an addition that no tick interrupts. */
  function Alone(s: State, n: nat, sec: int, func: nat, arg: nat): Config
    requires Shaped(s)
  {
    Interleave(Config(Searching(0), s), seq(n, _ => Main), sec, func, arg)
  }

  lemma AloneOn(s: State, n: nat, sec: int, func: nat, arg: nat)
    requires Shaped(s)
    ensures Ok(Alone(s, n, sec, func, arg))
    ensures Alone(s, n + 1, sec, func, arg) == Advance(Alone(s, n, sec, func, arg), sec, func, arg)
  {
    assert seq(n + 1, _ => Main)[..n] == seq(n, _ => Main);
  }

  /** It does what the atomic one does, and returns its answer. */
  lemma UninterruptedAdd(s: State, sec: int, func: nat, arg: nat)
    requires Shaped(s)
    ensures var (s', id) := AddJob(s, MAX_TASKS, sec, func, arg);
      exists n :: 0 <= n && Alone(s, n, sec, func, arg) == Config(if id < 0 then Full else Returned(id), s')
  {
    var id := FreePos(s.tasks, 0);
    var n := if id < 0 then MAX_TASKS else id;
    SearchesOn(s, n, sec, func, arg);
    AloneOn(s, n, sec, func, arg);
    AloneOn(s, n + 1, sec, func, arg);
  }

  /** A tick later just the slots filled in `w` are filled, and only the job in slot `i` is due. */
  ghost predicate IsReady(s: State, w: State, i: nat, j: nat) {
    && Shaped(w) && Numbered(s)
    && forall k :: 0 <= k < MAX_TASKS ==>
         s.tasks[k] == if Delays(w, i, j, k) <= 2 then None else Some(Task(Delays(w, i, j, k) - 2, 0, 0, k, k))
  }

  lemma FirstTick(s: State, w: State, i: nat, ops: seq<Op>, j: nat)
    requires IsSetUp(s, w, i, j)
    ensures IsReady(Tick(s, OnlyJob(i, ops)), w, i, j)
  {
    var cb := OnlyJob(i, ops);
    QuietTick(s, cb);
    ScanKeepsNumbered(s.(now := s.now + 1), 0, cb);
  }

  /** The same when the slots before `i` have had their turn. */
  lemma ReadyAtTurn(s: State, w: State, i: nat, j: nat, s': State)
    requires IsReady(s, w, i, j) && i < MAX_TASKS && j < MAX_TASKS && w.tasks[i].Some? && w.tasks[j].None?
    requires Shaped(s') && s'.jobs == s.jobs
    requires forall k :: 0 <= k < MAX_TASKS ==> s'.tasks[k] == if k < i then Countdown(s.tasks[k]) else s.tasks[k]
    ensures Numbered(s') && SameShape(s', w, j)
    ensures s'.tasks[i].Some? && s'.tasks[i].value.sec == 1 && s'.tasks[i].value.uid == i
  {
    forall k | 0 <= k < MAX_TASKS
      ensures s'.tasks[k].Some? <==> w.tasks[k].Some?
      ensures s'.tasks[k].Some? ==> s'.tasks[k].value.uid == k < |s'.jobs|
    {
      assert s.tasks[k].Some? ==> s.tasks[k].value.uid < |s.jobs|;
    }
  }

  lemma SecondTick(s: State, w: State, i: nat, ops: seq<Op>, j: nat)
    requires IsReady(s, w, i, j) && i < MAX_TASKS && j < MAX_TASKS
    requires w.tasks[i].Some? && w.tasks[j].None? && !ClearAt(w, i, ops, j)
    ensures Tick(s, OnlyJob(i, ops)).tasks[j].Some?
  {
    var s1 := s.(now := s.now + 1);
    var s' := QuietPart(s1, 0, i, OnlyJob(i, ops));
    ReadyAtTurn(s, w, i, j, s');
    FiringHarms(s', w, i, ops, j);
    assert Tick(s, OnlyJob(i, ops)) == Scan(s1, 0, OnlyJob(i, ops));
  }

  /** Two ticks after the setup the callback has run on a table of the shape of `w`, and its job has stayed. */
  lemma TicksDoHarm(s: State, w: State, i: nat, ops: seq<Op>, j: nat)
    requires IsSetUp(s, w, i, j) && i < MAX_TASKS && j < MAX_TASKS
    requires w.tasks[i].Some? && w.tasks[j].None? && !ClearAt(w, i, ops, j)
    ensures var cb := OnlyJob(i, ops); Tick(Tick(s, cb), cb).tasks[j].Some?
  {
    FirstTick(s, w, i, ops, j);
    SecondTick(Tick(s, OnlyJob(i, ops)), w, i, ops, j);
  }

  lemma FiringLeaves(s: State, w: State, i: nat, ops: seq<Op>, j: nat)
    requires Numbered(s) && i < MAX_TASKS && j < MAX_TASKS && SameShape(s, w, j)
    requires s.tasks[i].Some? && s.tasks[i].value.sec == 1 && s.tasks[i].value.uid == i
    requires w.tasks[j].None? && !ClearAt(w, i, ops, j)
    ensures var t := Visit(s, i, OnlyJob(i, ops)).tasks[j]; t.Some? && (j < i || t.value.sec != 1)
    ensures NotFrom(Visit(s, i, OnlyJob(i, ops)), i + 1, i)
  {
    var f := Fire(s, i);
    FireKeepsNumbered(s, i);
    OpsKeepNumbered(f, i, ops);
    OpsKeepShape(f, w, i, ops, j);
    var g := RunOps(f, i, ops);
    assert Visit(s, i, OnlyJob(i, ops)) == g.(tasks := g.tasks[i := None]);
    assert forall k :: i < k < MAX_TASKS && g.tasks[k].Some? ==> g.tasks[k].value.uid != i;
  }

  lemma FiringHarms(s: State, w: State, i: nat, ops: seq<Op>, j: nat)
    requires Numbered(s) && i < MAX_TASKS && j < MAX_TASKS && SameShape(s, w, j)
    requires s.tasks[i].Some? && s.tasks[i].value.sec == 1 && s.tasks[i].value.uid == i
    requires w.tasks[j].None? && !ClearAt(w, i, ops, j)
    ensures Scan(s, i, OnlyJob(i, ops)).tasks[j].Some?
  {
    FiringLeaves(s, w, i, ops, j);
    StaysFilled(Visit(s, i, OnlyJob(i, ops)), i + 1, OnlyJob(i, ops), i, j);
  }

  lemma InterleaveSnoc(c: Config, ms: seq<Move>, m: Move)
    requires Ok(c)
    ensures Interleave(c, ms + [m], 0, 0, 0) == Apply(Interleave(c, ms, 0, 0, 0), m, 0, 0, 0)
  {
    assert (ms + [m])[..|ms + [m]| - 1] == ms;
  }

  lemma SearchStores(s: State, j: nat)
    requires Shaped(s) && j < MAX_TASKS && s.tasks[j].None? && forall k :: 0 <= k < j ==> s.tasks[k].Some?
    ensures Interleave(Config(Searching(0), s), seq(j, _ => Main) + [Main], 0, 0, 0) == Config(Storing(j), s)
  {
    SearchesOn(s, j, 0, 0, 0);
    InterleaveSnoc(Config(Searching(0), s), seq(j, _ => Main), Main);
  }

  /** The search stops at `j`, and two ticks come before the store. */
  lemma TwoTicksIn(s: State, cb: Callbacks, j: nat)
    requires Shaped(s) && j < MAX_TASKS && s.tasks[j].None? && forall k :: 0 <= k < j ==> s.tasks[k].Some?
    ensures Interleave(Config(Searching(0), s), seq(j, _ => Main) + [Main] + [Alarm(cb)] + [Alarm(cb)], 0, 0, 0)
            == Config(Storing(j), Tick(Tick(s, cb), cb))
  {
    var c := Config(Searching(0), s);
    var search := seq(j, _ => Main) + [Main];
    SearchStores(s, j);
    InterleaveSnoc(c, search, Alarm(cb));
    InterleaveSnoc(c, search + [Alarm(cb)], Alarm(cb));
  }

  lemma HarmShows(s: State, cb: Callbacks, j: nat)
    requires Shaped(s) && j < MAX_TASKS && s.tasks[j].None? && forall k :: 0 <= k < j ==> s.tasks[k].Some?
    requires Tick(Tick(s, cb), cb).tasks[j].Some?
    ensures !StoresSafely(s, cb)
  {
    TwoTicksIn(s, cb, j);
    assert AlarmsRun(seq(j, _ => Main) + [Main] + [Alarm(cb)] + [Alarm(cb)], cb);
  }

  lemma ClearIsHarmless(ops: seq<Op>, s: State, u: nat)
    requires LeavesClear(ops) && Numbered(s)
    ensures StoresSafely(s, OnlyJob(u, ops))
  {
    forall ms, sec, func, arg | AlarmsRun(ms, OnlyJob(u, ops))
      ensures Unharmed(Interleave(Config(Searching(0), s), ms, sec, func, arg))
    {
      StaysUnharmed(s, ms, u, ops, sec, func, arg);
    }
  }

  lemma SetUpHarms(s: State, w: State, i: nat, ops: seq<Op>, j: nat)
    requires IsSetUp(s, w, i, j) && i < MAX_TASKS && j < MAX_TASKS
    requires w.tasks[i].Some? && w.tasks[j].None? && !ClearAt(w, i, ops, j)
    ensures !StoresSafely(s, OnlyJob(i, ops))
  {
    TicksDoHarm(s, w, i, ops, j);
    HarmShows(s, OnlyJob(i, ops), j);
  }

  /** The setup is within the reach of a program. */
  lemma SetupIsReachable(w: State, i: nat, j: nat) returns (s0: State, es: seq<Event>)
    requires Shaped(w)
    ensures Empty(s0) && IsSetUp(Run(s0, es), w, i, j)
  {
    s0 := State(seq(MAX_TASKS, _ => None), 0, [], [], {}, false);
    es := Setup(w, i, j);
    SetupReaches(s0, w, i, j);
  }

  lemma UnclearIsHarmful(ops: seq<Op>, w: State, i: nat, j: nat)
    requires Shaped(w) && i < MAX_TASKS && j < MAX_TASKS && w.tasks[i].Some? && w.tasks[j].None?
    requires !ClearAt(w, i, ops, j)
    ensures !HarmlessInRuns(ops)
  {
    var s0, es := SetupIsReachable(w, i, j);
    SetUpHarms(Run(s0, es), w, i, ops, j);
  }

  /**
   A callback is harmless to an interrupted `at_add_job` in every run if and only if on no table it
   leaves behind, in a slot it found empty, a job that the running pass does not see off at once.
   */
  lemma HarmlessIff(ops: seq<Op>)
    ensures HarmlessInRuns(ops) <==> LeavesClear(ops)
  {
    if LeavesClear(ops) {
      forall s0, es, u: nat | Empty(s0)
        ensures StoresSafely(Run(s0, es), OnlyJob(u, ops))
      {
        EmptyIsNumbered(s0);
        RunKeepsNumbered(s0, es);
        ClearIsHarmless(ops, Run(s0, es), u);
      }
    } else {
      var w, i: nat, j: nat :|
        Shaped(w) && i < MAX_TASKS && j < MAX_TASKS && w.tasks[i].Some? && w.tasks[j].None? && !ClearAt(w, i, ops, j);
      UnclearIsHarmful(ops, w, i, j);
    }
  }
}
