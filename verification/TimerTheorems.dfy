/** What the countdown table promises over whole runs. */
module TimerTheorems {
  import opened Common
  import opened Slots
  import opened TimerSpec
  import opened TimerDeadlines

  /** Each job is live, fired or cancelled, and nothing else. */
  ghost predicate AllAccounted(s: State)
    requires Shaped(s)
  {
    forall u :: 0 <= u < |s.jobs| ==> ExactlyOneOf(Live(s, u), HasFired(s, u), u in s.cancelled)
  }

  /**
   No job fires twice; each firing happens on the tick on which its job is due, with the job's
   function and argument; no job with a positive delay is overdue, and a job with none never fires.
   */
  ghost predicate OnTime(s: State) {
    && (forall i, k :: 0 <= i < k < |s.fired| ==> s.fired[i].uid != s.fired[k].uid)
    && (forall k :: 0 <= k < |s.fired| ==> FiringOk(s, s.fired[k]))
    && (forall u :: 0 <= u < |s.jobs| && s.jobs[u].sec >= 1 && Deadline(s.jobs[u]) <= s.now && u !in s.cancelled ==>
          HasFired(s, u))
    && (forall u :: 0 <= u < |s.jobs| && s.jobs[u].sec <= 0 ==> !HasFired(s, u))
  }

  lemma JobStages(s: State, u: nat)
    requires Inv(s, MAX_TASKS) && u < |s.jobs|
    ensures ExactlyOneOf(Live(s, u), HasFired(s, u), u in s.cancelled)
    ensures Live(s, u) && s.jobs[u].sec >= 1 ==> s.now < Deadline(s.jobs[u])
    ensures HasFired(s, u) ==> s.jobs[u].sec >= 1
  {
    if HasFired(s, u) {
      var k :| 0 <= k < |s.fired| && s.fired[k].uid == u;
      assert FiringOk(s, s.fired[k]);
    }
    if Live(s, u) {
      var j :| 0 <= j < MAX_TASKS && s.tasks[j].Some? && s.tasks[j].value.uid == u;
      assert SlotOk(s, MAX_TASKS, j);
    }
  }

  lemma InvIsOnTime(s: State)
    requires Inv(s, MAX_TASKS)
    ensures AllAccounted(s) && OnTime(s)
  {
    forall u | 0 <= u < |s.jobs|
      ensures ExactlyOneOf(Live(s, u), HasFired(s, u), u in s.cancelled)
      ensures s.jobs[u].sec >= 1 && Deadline(s.jobs[u]) <= s.now ==> !Live(s, u)
      ensures HasFired(s, u) ==> s.jobs[u].sec >= 1
    {
      JobStages(s, u);
    }
  }

  /**
   Over every run from the empty table, whatever the callbacks add and cancel short of their own
   job: each job is in exactly one of the stages live, fired and cancelled, and fires on time.
   */
  lemma EveryJobOnTime(s0: State, es: seq<Event>)
    requires Empty(s0) && !Run(s0, es).doubleFree
    ensures Run(s0, es).now == Ticks(es) && AllAccounted(Run(s0, es)) && OnTime(Run(s0, es))
  {
    EmptyInv(s0);
    RunKeepsInv(s0, es);
    InvIsOnTime(Run(s0, es));
  }

  /** A job record decides when its job has fired. */
  lemma JobFate(s: State, u: nat)
    requires Shaped(s) && u < |s.jobs| && s.jobs[u].sec >= 1
    requires ExactlyOneOf(Live(s, u), HasFired(s, u), u in s.cancelled)
    requires forall k :: 0 <= k < |s.fired| ==> FiringOk(s, s.fired[k])
    requires Deadline(s.jobs[u]) <= s.now && u !in s.cancelled ==> HasFired(s, u)
    ensures u !in s.cancelled ==> (HasFired(s, u) <==> Deadline(s.jobs[u]) <= s.now)
    ensures forall k :: 0 <= k < |s.fired| && s.fired[k].uid == u ==>
      s.fired[k].tick == Deadline(s.jobs[u]) && s.fired[k].func == s.jobs[u].func && s.fired[k].arg == s.jobs[u].arg
  {
  }

  /** What the record of one job says about its firing in a run. */
  lemma FiresWhenDue(s0: State, es: seq<Event>, u: nat)
    requires Empty(s0) && !Run(s0, es).doubleFree && u < |Run(s0, es).jobs|
    ensures var s := Run(s0, es);
      var job := s.jobs[u];
      && (job.sec < 1 ==> !HasFired(s, u))
      && (job.sec >= 1 && u !in s.cancelled ==> (HasFired(s, u) <==> Ticks(es) >= Deadline(job)))
      && (u in s.cancelled ==> !HasFired(s, u))
      && (forall k :: 0 <= k < |s.fired| && s.fired[k].uid == u ==>
            s.fired[k] == Firing(u, Deadline(job), job.func, job.arg))
  {
    EveryJobOnTime(s0, es);
    var s := Run(s0, es);
    if s.jobs[u].sec >= 1 { JobFate(s, u); }
  }

  // ---- the job records stay as they were written ----

  ghost predicate JobsGrow(s: State, s': State) {
    |s'.jobs| >= |s.jobs| && s'.jobs[..|s.jobs|] == s.jobs
  }

  lemma JobStays(s: State, s': State, u: nat)
    requires JobsGrow(s, s') && u < |s.jobs|
    ensures u < |s'.jobs| && s'.jobs[u] == s.jobs[u]
  {
    assert s'.jobs[u] == s'.jobs[..|s.jobs|][u];
  }

  lemma JobsGrowTrans(a: State, b: State, c: State)
    requires JobsGrow(a, b) && JobsGrow(b, c)
    ensures JobsGrow(a, c)
  {
  }

  lemma {:induction false} OpsGrowJobs(s: State, i: nat, ops: seq<Op>)
    requires Shaped(s)
    ensures JobsGrow(s, RunOps(s, i, ops))
    decreases |ops|
  {
    if ops != [] {
      var s1 := RunOp(s, i, ops[0]);
      assert JobsGrow(s, s1);
      OpsGrowJobs(s1, i, ops[1..]);
      JobsGrowTrans(s, s1, RunOps(s, i, ops));
    }
  }

  lemma {:induction false} ScanGrowsJobs(s: State, i: nat, cb: Callbacks)
    requires Shaped(s) && i <= MAX_TASKS
    ensures JobsGrow(s, Scan(s, i, cb))
    decreases MAX_TASKS - i
  {
    if i < MAX_TASKS {
      var s1 := Visit(s, i, cb);
      if s.tasks[i].Some? && s.tasks[i].value.sec == 1 {
        OpsGrowJobs(Fire(s, i), i, cb(s.tasks[i].value.uid));
      }
      ScanGrowsJobs(s1, i + 1, cb);
      JobsGrowTrans(s, s1, Scan(s, i, cb));
    }
  }

  lemma {:induction false} RunGrowsJobs(s: State, es: seq<Event>)
    requires Shaped(s)
    ensures JobsGrow(s, Run(s, es))
    decreases |es|
  {
    if es != [] {
      var s1 := Run(s, es[..|es| - 1]);
      RunGrowsJobs(s, es[..|es| - 1]);
      match es[|es| - 1] {
        case ETick(cb) => ScanGrowsJobs(s1.(now := s1.now + 1), 0, cb);
        case _ =>
      }
      JobsGrowTrans(s, s1, Run(s, es));
    }
  }

  lemma {:induction false} RunKeepsDoubleFree(s: State, es: seq<Event>)
    requires Shaped(s) && s.doubleFree
    ensures Run(s, es).doubleFree
    decreases |es|
  {
    if es != [] {
      RunKeepsDoubleFree(s, es[..|es| - 1]);
      StepKeepsDoubleFree(Run(s, es[..|es| - 1]), es[|es| - 1]);
    }
  }

  lemma {:induction false} RunConcat(s: State, es: seq<Event>, fs: seq<Event>)
    requires Shaped(s)
    ensures Run(s, es + fs) == Run(Run(s, es), fs) && Ticks(es + fs) == Ticks(es) + Ticks(fs)
    decreases |fs|
  {
    if fs == [] {
      assert es + fs == es;
    } else {
      RunConcat(s, es, fs[..|fs| - 1]);
      assert (es + fs)[..|es + fs| - 1] == es + fs[..|fs| - 1];
    }
  }

  /**
   A job added by the main flow with a delay of `sec >= 1` fires exactly on the `sec`-th later
   tick unless it is cancelled: it has fired after `after` if and only if `after` holds at least
   `sec` ticks, it fired once, and on tick number `now + sec`.
   */
  lemma FiresAfterSecTicks(s0: State, before: seq<Event>, sec: int, func: nat, arg: nat, after: seq<Event>)
    requires Empty(s0) && sec >= 1
    requires FreePos(Run(s0, before).tasks, 0) >= 0
    requires !Run(s0, before + [EAdd(sec, func, arg)] + after).doubleFree
    ensures var u := |Run(s0, before).jobs|;
      var s := Run(s0, before + [EAdd(sec, func, arg)] + after);
      && u < |s.jobs|
      && (u !in s.cancelled ==> (HasFired(s, u) <==> Ticks(after) >= sec))
      && (u in s.cancelled ==> !HasFired(s, u))
      && (forall k :: 0 <= k < |s.fired| && s.fired[k].uid == u ==>
            s.fired[k] == Firing(u, Ticks(before) + sec, func, arg))
  {
    var s1 := Run(s0, before);
    var add := [EAdd(sec, func, arg)];
    var s2 := Run(s0, before + add);
    var s := Run(s0, before + add + after);
    var u := |s1.jobs|;
    assert (before + add)[..|before + add| - 1] == before;
    RunConcat(s0, before, add);
    RunConcat(s0, before + add, after);
    assert s == Run(s2, after) && s2 == Step(s1, EAdd(sec, func, arg));
    if s1.doubleFree { RunKeepsDoubleFree(s2, after); }
    EmptyInv(s0);
    RunKeepsInv(s0, before);
    RunGrowsJobs(s2, after);
    assert s.jobs[u] == s.jobs[..|s2.jobs|][u] == s2.jobs[u];
    assert Ticks(add) == 0 by { assert add[..0] == []; }
    assert Deadline(s.jobs[u]) == Ticks(before) + sec;
    FiresWhenDue(s0, before + add + after, u);
  }

  // ---- jobs added by callbacks ----

  function Request(job: Job): Op {
    Add(job.sec, job.func, job.arg)
  }

  /** Callbacks leave the firings alone, and every job they add asks for a slot other than that of the firing job. */
  lemma {:induction false} OpsAdd(s: State, i: nat, ops: seq<Op>)
    requires Shaped(s) && i < MAX_TASKS && s.tasks[i].Some?
    ensures var s' := RunOps(s, i, ops);
      && s'.now == s.now && s'.fired == s.fired && s'.tasks[i].Some?
      && JobsGrow(s, s')
      && forall u :: |s.jobs| <= u < |s'.jobs| ==>
           s'.jobs[u].born == s.now && s'.jobs[u].pos == i + 1 && s'.jobs[u].slot != i && Request(s'.jobs[u]) in ops
    decreases |ops|
  {
    if ops != [] {
      var s1 := RunOp(s, i, ops[0]);
      assert JobsGrow(s, s1) && s1.tasks[i] == s.tasks[i];
      OpsAdd(s1, i, ops[1..]);
      var s' := RunOps(s, i, ops);
      JobsGrowTrans(s, s1, s');
      forall u | |s.jobs| <= u < |s'.jobs|
        ensures s'.jobs[u].born == s.now && s'.jobs[u].pos == i + 1 && s'.jobs[u].slot != i
        ensures Request(s'.jobs[u]) in ops
      {
        if u < |s1.jobs| { assert s'.jobs[u] == s'.jobs[..|s1.jobs|][u] == s1.jobs[u]; }
      }
    }
  }

  /** Job `u` was asked for, in the current tick, by the callback of the job that fired as number `k`. */
  ghost predicate AskedBy(s: State, cb: Callbacks, u: nat, k: nat)
    requires u < |s.jobs| && k < |s.fired|
  {
    var f := s.fired[k];
    && f.tick == s.now && f.uid < |s.jobs|
    && s.jobs[u].born == s.now && s.jobs[u].pos == s.jobs[f.uid].slot + 1 && s.jobs[u].slot != s.jobs[f.uid].slot
    && Request(s.jobs[u]) in cb(f.uid)
  }

  ghost predicate Asked(s: State, cb: Callbacks, u: nat)
    requires u < |s.jobs|
  {
    exists k :: 0 <= k < |s.fired| && AskedBy(s, cb, u, k)
  }

  ghost predicate AllAsked(s: State, cb: Callbacks, from: nat) {
    forall u :: from <= u < |s.jobs| ==> Asked(s, cb, u)
  }

  lemma AskedStays(s: State, s': State, cb: Callbacks, u: nat)
    requires u < |s.jobs| && Asked(s, cb, u)
    requires JobsGrow(s, s') && s.fired <= s'.fired && s'.now == s.now
    ensures Asked(s', cb, u)
  {
    var k :| 0 <= k < |s.fired| && AskedBy(s, cb, u, k);
    var f := s.fired[k];
    assert s'.fired[k] == f;
    assert s'.jobs[u] == s'.jobs[..|s.jobs|][u] == s.jobs[u];
    assert s'.jobs[f.uid] == s'.jobs[..|s.jobs|][f.uid] == s.jobs[f.uid];
    assert AskedBy(s', cb, u, k);
  }

  lemma VisitAsks(s: State, i: nat, cb: Callbacks, from: nat)
    requires Inv(s, i) && i < MAX_TASKS && AllAsked(s, cb, from)
    ensures AllAsked(Visit(s, i, cb), cb, from)
  {
    var s' := Visit(s, i, cb);
    if s.tasks[i].Some? && s.tasks[i].value.sec == 1 {
      var t := s.tasks[i].value;
      assert SlotOk(s, i, i);
      OpsAdd(Fire(s, i), i, cb(t.uid));
      assert s'.jobs[t.uid] == s'.jobs[..|s.jobs|][t.uid] == s.jobs[t.uid];
      forall u | from <= u < |s'.jobs|
        ensures Asked(s', cb, u)
      {
        if u < |s.jobs| {
          AskedStays(s, s', cb, u);
        } else {
          assert s'.fired[|s.fired|] == Firing(t.uid, s.now, t.func, t.arg);
          assert AskedBy(s', cb, u, |s.fired|);
        }
      }
    } else {
      forall u | from <= u < |s'.jobs|
        ensures Asked(s', cb, u)
      {
        AskedStays(s, s', cb, u);
      }
    }
  }

  lemma {:induction false} ScanAsks(s: State, i: nat, cb: Callbacks, from: nat)
    requires i <= MAX_TASKS && Inv(s, i) && !Scan(s, i, cb).doubleFree && AllAsked(s, cb, from)
    ensures AllAsked(Scan(s, i, cb), cb, from)
    decreases MAX_TASKS - i
  {
    if i < MAX_TASKS {
      var s1 := Visit(s, i, cb);
      if s1.doubleFree { ScanKeepsDoubleFree(s1, i + 1, cb); }
      VisitKeepsInv(s, i, cb);
      VisitAsks(s, i, cb, from);
      ScanAsks(s1, i + 1, cb, from);
    }
  }

  /** How many ticks after the one it was added in a job fires. */
  function Delay(job: Job): int {
    if job.slot < job.pos then job.sec else job.sec - 1
  }

  lemma TickInRun(s0: State, before: seq<Event>, cb: Callbacks, after: seq<Event>)
    requires Empty(s0) && !Run(s0, before + [ETick(cb)] + after).doubleFree
    ensures var s1 := Run(s0, before);
      var s2 := Tick(s1, cb);
      && JobsGrow(s1, s2) && AllAsked(s2, cb, |s1.jobs|) && s2.now == Ticks(before) + 1
      && Run(s0, before + [ETick(cb)] + after) == Run(s2, after)
      && Ticks(before + [ETick(cb)] + after) == Ticks(before) + 1 + Ticks(after)
  {
    var s1 := Run(s0, before);
    var tick := [ETick(cb)];
    var s2 := Tick(s1, cb);
    RunConcat(s0, before, tick);
    RunConcat(s0, before + tick, after);
    assert tick[..0] == [] && Run(s1, tick) == s2 && Ticks(tick) == 1;
    if s2.doubleFree { RunKeepsDoubleFree(s2, after); }
    if s1.doubleFree { StepKeepsDoubleFree(s1, ETick(cb)); }
    EmptyInv(s0);
    RunKeepsInv(s0, before);
    TickKeepsInv(s1, cb);
    TickStarts(s1);
    ScanGrowsJobs(s1.(now := s1.now + 1), 0, cb);
    ScanAsks(s1.(now := s1.now + 1), 0, cb, |s1.jobs|);
  }

  /**
   Every job added during a tick was asked for by the callback of a job firing in it, and got a
   slot other than that job's.  Unless cancelled, it has fired after `after` if and only if `after`
   holds at least `sec` ticks when its slot precedes the firing one, and at least `sec - 1` when it
   follows, in which case the running pass still counts it down.  It fires once, on that tick, with
   its function and argument; with no positive delay it never fires.
   */
  lemma CallbackJobsOnTime(s0: State, before: seq<Event>, cb: Callbacks, after: seq<Event>)
    requires Empty(s0) && !Run(s0, before + [ETick(cb)] + after).doubleFree
    ensures var s1 := Run(s0, before);
      var s2 := Tick(s1, cb);
      var s := Run(s0, before + [ETick(cb)] + after);
      && JobsGrow(s1, s2) && JobsGrow(s2, s)
      && forall u :: |s1.jobs| <= u < |s2.jobs| ==>
           && Asked(s2, cb, u)
           && (s.jobs[u].sec < 1 ==> !HasFired(s, u))
           && (s.jobs[u].sec >= 1 && u !in s.cancelled ==> (HasFired(s, u) <==> Ticks(after) >= Delay(s.jobs[u])))
           && (forall k :: 0 <= k < |s.fired| && s.fired[k].uid == u ==>
                 s.fired[k] == Firing(u, Ticks(before) + 1 + Delay(s.jobs[u]), s.jobs[u].func, s.jobs[u].arg))
  {
    var s1 := Run(s0, before);
    var tick := [ETick(cb)];
    var s2 := Tick(s1, cb);
    var es := before + tick + after;
    var s := Run(s0, es);
    TickInRun(s0, before, cb, after);
    RunGrowsJobs(s2, after);
    forall u | |s1.jobs| <= u < |s2.jobs|
      ensures Asked(s2, cb, u)
      ensures s.jobs[u].sec < 1 ==> !HasFired(s, u)
      ensures s.jobs[u].sec >= 1 && u !in s.cancelled ==> (HasFired(s, u) <==> Ticks(after) >= Delay(s.jobs[u]))
      ensures forall k :: 0 <= k < |s.fired| && s.fired[k].uid == u ==>
        s.fired[k] == Firing(u, Ticks(before) + 1 + Delay(s.jobs[u]), s.jobs[u].func, s.jobs[u].arg)
    {
      assert s.jobs[u] == s.jobs[..|s2.jobs|][u] == s2.jobs[u];
      assert Asked(s2, cb, u);
      assert Deadline(s.jobs[u]) == Ticks(before) + 1 + Delay(s.jobs[u]);
      FiresWhenDue(s0, es, u);
    }
  }
}
