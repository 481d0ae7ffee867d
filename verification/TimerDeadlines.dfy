/**
 Countdowns keep deadlines.  The invariant ties every live countdown to the tick on which the
 job is due, at every point of a pass over the table, and survives callbacks that add jobs and
 cancel other jobs in the middle of the pass.
 */
module TimerDeadlines {
  import opened Slots
  import opened TimerSpec

  /** The job in slot `j` when the slots below `pos` have had their turn in the current tick. */
  ghost predicate SlotOk(s: State, pos: nat, j: nat)
    requires Shaped(s) && j < MAX_TASKS
  {
    s.tasks[j].Some? ==>
      var t := s.tasks[j].value;
      && t.pos == j && t.uid < |s.jobs| && t.uid !in s.cancelled && !HasFired(s, t.uid)
      && Matches(s.now, pos, j, t, s.jobs[t.uid])
      && (t.sec >= 1 || s.jobs[t.uid].sec <= 0)
  }

  predicate Matches(now: nat, pos: nat, j: nat, t: Task, job: Job) {
    job.slot == j && job.func == t.func && job.arg == t.arg && Deadline(job) == Due(now, pos, j, t.sec)
    && t.sec <= job.sec
  }

  /** The job in slot `j` is inside its own callback. */
  ghost predicate InCallback(s: State, j: nat)
    requires Shaped(s) && j < MAX_TASKS
  {
    s.tasks[j].Some? &&
      var t := s.tasks[j].value;
      t.pos == j && t.uid < |s.jobs| && t.uid !in s.cancelled && HasFired(s, t.uid)
      && Matches(s.now, j + 1, j, t, s.jobs[t.uid]) && t.sec == 0
  }

  ghost predicate HasFired(s: State, u: nat) {
    exists k :: 0 <= k < |s.fired| && s.fired[k].uid == u
  }

  ghost predicate Live(s: State, u: nat)
    requires Shaped(s)
  {
    exists j :: 0 <= j < MAX_TASKS && s.tasks[j].Some? && s.tasks[j].value.uid == u
  }

  ghost predicate DistinctUids(s: State)
    requires Shaped(s)
  {
    forall i, j :: 0 <= i < j < MAX_TASKS && s.tasks[i].Some? && s.tasks[j].Some? ==>
      s.tasks[i].value.uid != s.tasks[j].value.uid
  }

  /** A firing happened on the tick its job was due, with the job's function and argument. */
  ghost predicate FiringOk(s: State, f: Firing) {
    && f.uid < |s.jobs| && f.uid !in s.cancelled && s.jobs[f.uid].sec >= 1
    && f.tick == Deadline(s.jobs[f.uid]) && f.tick <= s.now
    && f.func == s.jobs[f.uid].func && f.arg == s.jobs[f.uid].arg
  }

  ghost predicate History(s: State)
    requires Shaped(s)
  {
    && (forall k :: 0 <= k < |s.fired| ==> FiringOk(s, s.fired[k]))
    && (forall i, k :: 0 <= i < k < |s.fired| ==> s.fired[i].uid != s.fired[k].uid)
    && (forall u :: u in s.cancelled ==> u < |s.jobs|)
    && (forall u :: 0 <= u < |s.jobs| ==> Live(s, u) || HasFired(s, u) || u in s.cancelled)
    && DistinctUids(s)
  }

  /** The invariant between callbacks, `pos` slots into the pass of tick `now`. */
  ghost predicate Inv(s: State, pos: nat) {
    && Shaped(s)
    && History(s)
    && forall j :: 0 <= j < MAX_TASKS ==> SlotOk(s, pos, j)
  }

  /** The invariant inside the callback of the job in slot `i`. */
  ghost predicate InvIn(s: State, i: nat) {
    && Shaped(s) && i < MAX_TASKS
    && History(s)
    && InCallback(s, i)
    && OthersOk(s, i + 1, i)
  }

  ghost predicate OthersOk(s: State, pos: nat, i: nat)
    requires Shaped(s)
  {
    forall j :: 0 <= j < MAX_TASKS && j != i ==> SlotOk(s, pos, j)
  }

  lemma EmptyInv(s: State)
    requires Empty(s)
    ensures Inv(s, MAX_TASKS)
  {
  }

  // ---- adding and cancelling ----

  lemma FiringsStay(s: State, s': State)
    requires Shaped(s) && History(s) && s'.fired == s.fired && s'.now == s.now
    requires |s'.jobs| >= |s.jobs| && s'.jobs[..|s.jobs|] == s.jobs
    requires forall u :: u in s'.cancelled ==> u in s.cancelled || !HasFired(s, u)
    ensures forall k :: 0 <= k < |s'.fired| ==> FiringOk(s', s'.fired[k])
    ensures forall u :: HasFired(s', u) <==> HasFired(s, u)
  {
  }

  /** Storing a job into a slot that was empty leaves the rest alone. */
  lemma StoreKeepsHistory(s: State, id: nat, pos: nat, sec: int, func: nat, arg: nat)
    requires Shaped(s) && History(s) && id < MAX_TASKS && s.tasks[id].None?
    requires forall j :: 0 <= j < MAX_TASKS && s.tasks[j].Some? ==> s.tasks[j].value.uid < |s.jobs|
    ensures History(StoreJob(s, id, pos, sec, func, arg))
    ensures forall u :: HasFired(StoreJob(s, id, pos, sec, func, arg), u) <==> HasFired(s, u)
  {
    var s' := StoreJob(s, id, pos, sec, func, arg);
    FiringsStay(s, s');
    forall u | 0 <= u < |s'.jobs|
      ensures Live(s', u) || HasFired(s', u) || u in s'.cancelled
    {
      if u == |s.jobs| {
        assert s'.tasks[id].Some? && s'.tasks[id].value.uid == u;
      } else if Live(s, u) {
        var j :| 0 <= j < MAX_TASKS && s.tasks[j].Some? && s.tasks[j].value.uid == u;
        assert s'.tasks[j] == s.tasks[j];
      }
    }
  }

  lemma StoreKeepsSlot(s: State, id: nat, pos: nat, sec: int, func: nat, arg: nat, j: nat)
    requires Shaped(s) && History(s) && id < MAX_TASKS && j < MAX_TASKS && SlotOk(s, pos, j)
    ensures SlotOk(StoreJob(s, id, pos, sec, func, arg), pos, j)
  {
  }

  /** Whichever empty slot the job is stored into. */
  lemma StoreKeepsInv(s: State, id: nat, pos: nat, sec: int, func: nat, arg: nat)
    requires Inv(s, pos) && id < MAX_TASKS && s.tasks[id].None?
    ensures Inv(StoreJob(s, id, pos, sec, func, arg), pos)
  {
    forall j | 0 <= j < MAX_TASKS
      ensures SlotOk(StoreJob(s, id, pos, sec, func, arg), pos, j)
      ensures s.tasks[j].Some? ==> s.tasks[j].value.uid < |s.jobs|
    {
      assert SlotOk(s, pos, j);
      StoreKeepsSlot(s, id, pos, sec, func, arg, j);
    }
    StoreKeepsHistory(s, id, pos, sec, func, arg);
  }

  lemma AddKeepsInv(s: State, pos: nat, sec: int, func: nat, arg: nat)
    requires Inv(s, pos)
    ensures Inv(AddJob(s, pos, sec, func, arg).0, pos)
  {
    var id := FreePos(s.tasks, 0);
    if id >= 0 { StoreKeepsInv(s, id, pos, sec, func, arg); }
  }

  /** Inside a callback an added job never gets the firing slot. */
  lemma AddInCallback(s: State, i: nat, sec: int, func: nat, arg: nat)
    requires InvIn(s, i)
    ensures InvIn(AddJob(s, i + 1, sec, func, arg).0, i)
    ensures AddJob(s, i + 1, sec, func, arg).0.tasks[i] == s.tasks[i]
  {
    var (s', id) := AddJob(s, i + 1, sec, func, arg);
    if id >= 0 {
      forall j | 0 <= j < MAX_TASKS && j != i
        ensures SlotOk(s', i + 1, j) && (s.tasks[j].Some? ==> s.tasks[j].value.uid < |s.jobs|)
      {
        assert SlotOk(s, i + 1, j);
        StoreKeepsSlot(s, id, i + 1, sec, func, arg, j);
      }
      StoreKeepsHistory(s, id, i + 1, sec, func, arg);
      var u := s.tasks[i].value.uid;
      assert s'.jobs[u] == s.jobs[u];
    }
  }

  lemma CancelKeepsHistory(s: State, id: nat)
    requires Shaped(s) && History(s)
    requires id < MAX_TASKS && s.tasks[id].Some? ==>
      s.tasks[id].value.uid < |s.jobs| && !HasFired(s, s.tasks[id].value.uid)
    ensures History(CancelJob(s, id))
    ensures forall u :: HasFired(CancelJob(s, id), u) <==> HasFired(s, u)
  {
    var s' := CancelJob(s, id);
    FiringsStay(s, s');
    forall u | 0 <= u < |s'.jobs|
      ensures Live(s', u) || HasFired(s', u) || u in s'.cancelled
    {
      if Live(s, u) {
        var j :| 0 <= j < MAX_TASKS && s.tasks[j].Some? && s.tasks[j].value.uid == u;
        assert j != id ==> s'.tasks[j] == s.tasks[j];
      }
    }
  }

  lemma CancelKeepsSlot(s: State, pos: nat, id: nat, j: nat)
    requires Shaped(s) && History(s) && j < MAX_TASKS && SlotOk(s, pos, j)
    ensures SlotOk(CancelJob(s, id), pos, j)
  {
  }

  lemma CancelKeepsInv(s: State, pos: nat, id: nat)
    requires Inv(s, pos)
    ensures Inv(CancelJob(s, id), pos)
  {
    if id < MAX_TASKS { assert SlotOk(s, pos, id); }
    CancelKeepsHistory(s, id);
    forall j | 0 <= j < MAX_TASKS
      ensures SlotOk(CancelJob(s, id), pos, j)
    {
      CancelKeepsSlot(s, pos, id, j);
    }
  }

  lemma CancelInCallback(s: State, i: nat, id: nat)
    requires InvIn(s, i) && id != i
    ensures InvIn(CancelJob(s, id), i) && CancelJob(s, id).tasks[i] == s.tasks[i]
  {
    var s' := CancelJob(s, id);
    if id < MAX_TASKS { assert SlotOk(s, i + 1, id); }
    CancelKeepsHistory(s, id);
    var pos := i + 1;
    forall j | 0 <= j < MAX_TASKS && j != i
      ensures SlotOk(s', pos, j)
    {
      CancelKeepsSlot(s, pos, id, j);
    }
    assert id < i && s.tasks[id].Some? ==> s.tasks[i].value.uid != s.tasks[id].value.uid;
    assert i < id < MAX_TASKS && s.tasks[id].Some? ==> s.tasks[i].value.uid != s.tasks[id].value.uid;
  }

  // ---- callbacks and the pass ----

  /** `doubleFree` is never taken back. */
  lemma {:induction false} OpsKeepDoubleFree(s: State, i: nat, ops: seq<Op>)
    requires Shaped(s) && s.doubleFree
    ensures RunOps(s, i, ops).doubleFree
    decreases |ops|
  {
    if ops != [] { OpsKeepDoubleFree(RunOp(s, i, ops[0]), i, ops[1..]); }
  }

  /** A callback that does not cancel its own job keeps its slot and every deadline. */
  lemma {:induction false} OpsKeepInv(s: State, i: nat, ops: seq<Op>)
    requires InvIn(s, i) && !RunOps(s, i, ops).doubleFree
    ensures InvIn(RunOps(s, i, ops), i) && RunOps(s, i, ops).tasks[i] == s.tasks[i]
    ensures RunOps(s, i, ops).now == s.now
    decreases |ops|
  {
    if ops != [] {
      var s1 := RunOp(s, i, ops[0]);
      if s1.doubleFree { OpsKeepDoubleFree(s1, i, ops[1..]); }
      match ops[0] {
        case Add(sec, func, arg) => AddInCallback(s, i, sec, func, arg);
        case Cancel(id) => if id != i { CancelInCallback(s, i, id); }
      }
      OpsKeepInv(s1, i, ops[1..]);
    }
  }

  lemma CountdownKeepsInv(s: State, i: nat)
    requires Inv(s, i) && i < MAX_TASKS && s.tasks[i].Some? && s.tasks[i].value.sec != 1
    ensures Inv(s.(tasks := s.tasks[i := Some(s.tasks[i].value.(sec := s.tasks[i].value.sec - 1))]), i + 1)
  {
    var t := s.tasks[i].value;
    var s' := s.(tasks := s.tasks[i := Some(t.(sec := t.sec - 1))]);
    assert SlotOk(s, i, i);
    FiringsStay(s, s');
    LiveStays(s, s');
    var pos := i + 1;
    forall j | 0 <= j < MAX_TASKS
      ensures SlotOk(s', pos, j)
    {
      assert SlotOk(s, i, j);
    }
  }

  lemma LiveStays(s: State, s': State)
    requires Shaped(s) && Shaped(s')
    requires forall j :: 0 <= j < MAX_TASKS && s.tasks[j].Some? ==>
      s'.tasks[j].Some? && s'.tasks[j].value.uid == s.tasks[j].value.uid
    ensures forall u :: Live(s, u) ==> Live(s', u)
  {
  }

  /** The state in which the callback of the job in slot `i` starts. */
  function Fire(s: State, i: nat): (s': State)
    requires Shaped(s) && i < MAX_TASKS && s.tasks[i].Some?
  {
    var t := s.tasks[i].value;
    s.(tasks := s.tasks[i := Some(t.(sec := t.sec - 1))], fired := s.fired + [Firing(t.uid, s.now, t.func, t.arg)])
  }

  lemma FiredAfter(s: State, s': State, f: Firing, u: nat)
    requires s'.fired == s.fired + [f]
    ensures HasFired(s', u) <==> HasFired(s, u) || f.uid == u
  {
    if HasFired(s, u) {
      var k :| 0 <= k < |s.fired| && s.fired[k].uid == u;
      assert s'.fired[k].uid == u;
    }
    assert s'.fired[|s.fired|].uid == f.uid;
  }

  lemma FireKeepsHistory(s: State, i: nat)
    requires Inv(s, i) && i < MAX_TASKS && s.tasks[i].Some? && s.tasks[i].value.sec == 1
    ensures History(Fire(s, i)) && HasFired(Fire(s, i), s.tasks[i].value.uid)
  {
    var t := s.tasks[i].value;
    var s' := Fire(s, i);
    var f := Firing(t.uid, s.now, t.func, t.arg);
    assert SlotOk(s, i, i);
    LiveStays(s, s');
    forall u
      ensures HasFired(s', u) <==> HasFired(s, u) || u == t.uid
    {
      FiredAfter(s, s', f, u);
    }
    forall k | 0 <= k < |s'.fired|
      ensures FiringOk(s', s'.fired[k]) && (k < |s.fired| ==> s'.fired[k].uid != t.uid)
    {
      if k < |s.fired| {
        assert FiringOk(s, s.fired[k]);
        assert HasFired(s, s.fired[k].uid);
      }
    }
  }

  lemma FireKeepsInv(s: State, i: nat)
    requires Inv(s, i) && i < MAX_TASKS && s.tasks[i].Some? && s.tasks[i].value.sec == 1
    ensures InvIn(Fire(s, i), i)
  {
    var t := s.tasks[i].value;
    var s' := Fire(s, i);
    FireKeepsHistory(s, i);
    assert SlotOk(s, i, i);
    var pos := i + 1;
    forall j | 0 <= j < MAX_TASKS && j != i
      ensures SlotOk(s', pos, j)
    {
      assert SlotOk(s, i, j);
      if s.tasks[j].Some? {
        FiredAfter(s, s', Firing(t.uid, s.now, t.func, t.arg), s.tasks[j].value.uid);
        assert i < j ==> s.tasks[i].value.uid != s.tasks[j].value.uid;
        assert j < i ==> s.tasks[j].value.uid != s.tasks[i].value.uid;
      }
    }
  }

  lemma ReleaseKeepsInv(s: State, i: nat)
    requires InvIn(s, i)
    ensures Inv(s.(tasks := s.tasks[i := None]), i + 1)
  {
    var s' := s.(tasks := s.tasks[i := None]);
    FiringsStay(s, s');
    var pos := i + 1;
    forall j | 0 <= j < MAX_TASKS
      ensures SlotOk(s', pos, j)
    {
      if j != i { assert SlotOk(s, pos, j); }
    }
    forall u | 0 <= u < |s'.jobs|
      ensures Live(s', u) || HasFired(s', u) || u in s'.cancelled
    {
      if Live(s, u) {
        var j :| 0 <= j < MAX_TASKS && s.tasks[j].Some? && s.tasks[j].value.uid == u;
        assert j != i ==> s'.tasks[j] == s.tasks[j];
      }
    }
  }

  lemma VisitKeepsInv(s: State, i: nat, cb: Callbacks)
    requires Inv(s, i) && i < MAX_TASKS && !Visit(s, i, cb).doubleFree
    ensures Inv(Visit(s, i, cb), i + 1) && Visit(s, i, cb).now == s.now
  {
    if s.tasks[i].None? {
      var pos := i + 1;
      forall j | 0 <= j < MAX_TASKS
        ensures SlotOk(s, pos, j)
      {
        assert SlotOk(s, i, j);
      }
    } else if s.tasks[i].value.sec != 1 {
      CountdownKeepsInv(s, i);
    } else {
      var ops := cb(s.tasks[i].value.uid);
      FireKeepsInv(s, i);
      OpsKeepInv(Fire(s, i), i, ops);
      ReleaseKeepsInv(RunOps(Fire(s, i), i, ops), i);
    }
  }

  lemma VisitKeepsDoubleFree(s: State, i: nat, cb: Callbacks)
    requires Shaped(s) && i < MAX_TASKS && s.doubleFree
    ensures Visit(s, i, cb).doubleFree
  {
    if s.tasks[i].Some? && s.tasks[i].value.sec == 1 {
      OpsKeepDoubleFree(Fire(s, i), i, cb(s.tasks[i].value.uid));
    }
  }

  lemma {:induction false} ScanKeepsDoubleFree(s: State, i: nat, cb: Callbacks)
    requires Shaped(s) && i <= MAX_TASKS && s.doubleFree
    ensures Scan(s, i, cb).doubleFree
    decreases MAX_TASKS - i
  {
    if i < MAX_TASKS {
      VisitKeepsDoubleFree(s, i, cb);
      ScanKeepsDoubleFree(Visit(s, i, cb), i + 1, cb);
    }
  }

  lemma {:induction false} ScanKeepsInv(s: State, i: nat, cb: Callbacks)
    requires i <= MAX_TASKS && Inv(s, i) && !Scan(s, i, cb).doubleFree
    ensures Inv(Scan(s, i, cb), MAX_TASKS) && Scan(s, i, cb).now == s.now
    decreases MAX_TASKS - i
  {
    if i < MAX_TASKS {
      if Visit(s, i, cb).doubleFree { ScanKeepsDoubleFree(Visit(s, i, cb), i + 1, cb); }
      VisitKeepsInv(s, i, cb);
      ScanKeepsInv(Visit(s, i, cb), i + 1, cb);
    }
  }

  lemma TickStarts(s: State)
    requires Inv(s, MAX_TASKS)
    ensures Inv(s.(now := s.now + 1), 0)
  {
    var s' := s.(now := s.now + 1);
    forall k | 0 <= k < |s'.fired|
      ensures FiringOk(s', s'.fired[k])
    {
      assert FiringOk(s, s.fired[k]);
    }
    assert forall u :: HasFired(s', u) <==> HasFired(s, u);
    LiveStays(s, s');
    forall j | 0 <= j < MAX_TASKS
      ensures SlotOk(s', 0, j)
    {
      assert SlotOk(s, MAX_TASKS, j);
    }
  }

  lemma TickKeepsInv(s: State, cb: Callbacks)
    requires Inv(s, MAX_TASKS) && !Tick(s, cb).doubleFree
    ensures Inv(Tick(s, cb), MAX_TASKS) && Tick(s, cb).now == s.now + 1
  {
    TickStarts(s);
    ScanKeepsInv(s.(now := s.now + 1), 0, cb);
  }

  lemma StepKeepsInv(s: State, e: Event)
    requires Inv(s, MAX_TASKS) && !Step(s, e).doubleFree
    ensures Inv(Step(s, e), MAX_TASKS)
  {
    match e
    case EAdd(sec, func, arg) => AddKeepsInv(s, MAX_TASKS, sec, func, arg);
    case ECancel(id) => CancelKeepsInv(s, MAX_TASKS, id);
    case ETick(cb) => TickKeepsInv(s, cb);
  }

  lemma StepCountsTicks(s: State, e: Event)
    requires Inv(s, MAX_TASKS) && !Step(s, e).doubleFree
    ensures Step(s, e).now == if e.ETick? then s.now + 1 else s.now
  {
    if e.ETick? { TickKeepsInv(s, e.cb); }
  }

  lemma StepKeepsDoubleFree(s: State, e: Event)
    requires Shaped(s) && s.doubleFree
    ensures Step(s, e).doubleFree
  {
    if e.ETick? { ScanKeepsDoubleFree(s.(now := s.now + 1), 0, e.cb); }
  }

  function Ticks(es: seq<Event>): nat {
    if es == [] then 0 else Ticks(es[..|es| - 1]) + if es[|es| - 1].ETick? then 1 else 0
  }

  lemma {:induction false} RunKeepsInv(s: State, es: seq<Event>)
    requires Inv(s, MAX_TASKS) && !Run(s, es).doubleFree
    ensures Inv(Run(s, es), MAX_TASKS) && Run(s, es).now == s.now + Ticks(es)
    decreases |es|
  {
    if es != [] {
      var front := es[..|es| - 1];
      if Run(s, front).doubleFree { StepKeepsDoubleFree(Run(s, front), es[|es| - 1]); }
      RunKeepsInv(s, front);
      StepKeepsInv(Run(s, front), es[|es| - 1]);
      StepCountsTicks(Run(s, front), es[|es| - 1]);
    }
  }
}
