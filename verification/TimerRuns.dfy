/**
 Whole runs of the timers in which ticks may interrupt `at_add_job` anywhere: the search may stop
 at a slot that is no longer the first free one, or no longer free, when the job is stored.
 */
module TimerRuns {
  import opened Common
  import opened Slots
  import opened TimerSpec
  import opened TimerDeadlines
  import opened TimerTheorems
  import opened TimerRace
  import opened TimerRequests

  /** The main flow: outside the library, or inside `at_add_job`. */
  datatype Flow = Resting | Adding(pc: Pc, sec: int, func: nat, arg: nat)

  datatype Moment = Moment(flow: Flow, s: State)

  datatype Happening = BeginAdd(sec: int, func: nat, arg: nat) | CancelNow(id: nat) | Proceed | Interrupt(cb: Callbacks)

  ghost predicate Sound(m: Moment) {
    Shaped(m.s) && (m.flow.Adding? ==> Ok(Config(m.flow.pc, m.s)))
  }

  predicate Enabled(m: Moment, e: Happening) {
    match e
    case BeginAdd(_, _, _) => m.flow.Resting?
    case CancelNow(_) => m.flow.Resting?
    case Proceed => m.flow.Adding?
    case Interrupt(_) => true
  }

  function After(m: Moment, e: Happening): (m': Moment)
    requires Sound(m) && Enabled(m, e)
    ensures Sound(m')
  {
    match e
    case BeginAdd(sec, func, arg) => m.(flow := Adding(Searching(0), sec, func, arg))
    case CancelNow(id) => m.(s := CancelJob(m.s, id))
    case Proceed =>
      var c := Advance(Config(m.flow.pc, m.s), m.flow.sec, m.flow.func, m.flow.arg);
      Moment(if c.pc.Full? || c.pc.Returned? then Resting else m.flow.(pc := c.pc), c.s)
    case Interrupt(cb) => m.(s := Tick(m.s, cb))
  }

  ghost predicate IsRun(run: seq<Moment>, es: seq<Happening>) {
    && |run| == |es| + 1 && run[0].flow == Resting && Empty(run[0].s)
    && forall k :: 0 <= k < |es| ==> Sound(run[k]) && Enabled(run[k], es[k]) && run[k + 1] == After(run[k], es[k])
  }

  /** The step stores a job over a live one. */
  predicate Overwrites(m: Moment, e: Happening)
    requires |m.s.tasks| == MAX_TASKS
  {
    && e.Proceed? && m.flow.Adding? && m.flow.pc.Storing? && m.flow.pc.id < MAX_TASKS
    && m.s.tasks[m.flow.pc.id].Some?
  }

  // ---- without overwriting ----

  lemma StepKeepsInv(m: Moment, e: Happening)
    requires Sound(m) && Enabled(m, e) && Inv(m.s, MAX_TASKS) && !Overwrites(m, e) && !After(m, e).s.doubleFree
    ensures Inv(After(m, e).s, MAX_TASKS)
  {
    match e
    case BeginAdd(_, _, _) =>
    case CancelNow(id) => CancelKeepsInv(m.s, MAX_TASKS, id);
    case Proceed =>
      if m.flow.pc.Storing? {
        StoreKeepsInv(m.s, m.flow.pc.id, MAX_TASKS, m.flow.sec, m.flow.func, m.flow.arg);
      }
    case Interrupt(cb) => TickKeepsInv(m.s, cb);
  }

  lemma StepKeepsFlag(m: Moment, e: Happening)
    requires Sound(m) && Enabled(m, e) && m.s.doubleFree
    ensures After(m, e).s.doubleFree
  {
    if e.Interrupt? { ScanKeepsDoubleFree(m.s.(now := m.s.now + 1), 0, e.cb); }
  }

  lemma {:induction false} RunIsSound(run: seq<Moment>, es: seq<Happening>, k: nat)
    requires IsRun(run, es) && k <= |es|
    ensures Sound(run[k])
  {
    if k > 0 { assert run[k] == After(run[k - 1], es[k - 1]); }
  }

  /** Up to its `n`-th step the run has stored no job over a live one. */
  ghost predicate NoOverwrite(run: seq<Moment>, es: seq<Happening>, n: nat)
    requires IsRun(run, es) && n <= |es|
  {
    forall k :: 0 <= k < n ==> !Overwrites(run[k], es[k])
  }

  lemma {:induction false} RunKeepsInv(run: seq<Moment>, es: seq<Happening>, n: nat)
    requires IsRun(run, es) && n <= |es| && !run[n].s.doubleFree && NoOverwrite(run, es, n)
    ensures Inv(run[n].s, MAX_TASKS)
    decreases n
  {
    if n == 0 {
      EmptyInv(run[0].s);
    } else {
      if run[n - 1].s.doubleFree { StepKeepsFlag(run[n - 1], es[n - 1]); }
      RunKeepsInv(run, es, n - 1);
      StepKeepsInv(run[n - 1], es[n - 1]);
    }
  }

  // ---- an overwritten job is lost for good ----

  ghost predicate Lost(s: State, v: nat) {
    Shaped(s) && v < |s.jobs| && !Live(s, v) && !HasFired(s, v) && v !in s.cancelled
  }

  lemma OverwriteLoses(m: Moment, e: Happening)
    requires Sound(m) && Enabled(m, e) && Inv(m.s, MAX_TASKS) && Overwrites(m, e)
    ensures Lost(After(m, e).s, m.s.tasks[m.flow.pc.id].value.uid)
  {
    var id := m.flow.pc.id;
    var v := m.s.tasks[id].value.uid;
    var s' := After(m, e).s;
    assert SlotOk(m.s, MAX_TASKS, id);
    assert s'.fired == m.s.fired;
    forall j | 0 <= j < MAX_TASKS && s'.tasks[j].Some?
      ensures s'.tasks[j].value.uid != v
    {
      if j != id { assert s'.tasks[j] == m.s.tasks[j]; }
    }
  }

  lemma {:induction false} OpsKeepLost(s: State, i: nat, ops: seq<Op>, v: nat)
    requires Lost(s, v)
    ensures Lost(RunOps(s, i, ops), v)
    decreases |ops|
  {
    if ops != [] {
      OpKeepsLost(s, i, ops[0], v);
      OpsKeepLost(RunOp(s, i, ops[0]), i, ops[1..], v);
    }
  }

  lemma StoreKeepsLost(s: State, id: nat, pos: nat, sec: int, func: nat, arg: nat, v: nat)
    requires Lost(s, v) && id < MAX_TASKS
    ensures Lost(StoreJob(s, id, pos, sec, func, arg), v)
  {
    var s' := StoreJob(s, id, pos, sec, func, arg);
    assert forall j :: 0 <= j < MAX_TASKS && j != id ==> s'.tasks[j] == s.tasks[j];
  }

  lemma CancelKeepsLost(s: State, id: nat, v: nat)
    requires Lost(s, v)
    ensures Lost(CancelJob(s, id), v)
  {
  }

  lemma OpKeepsLost(s: State, i: nat, op: Op, v: nat)
    requires Lost(s, v)
    ensures Lost(RunOp(s, i, op), v)
  {
    match op
    case Add(sec, func, arg) =>
      var id := FreePos(s.tasks, 0);
      if id >= 0 { StoreKeepsLost(s, id, i + 1, sec, func, arg, v); }
    case Cancel(id) => CancelKeepsLost(s, id, v);
  }

  lemma VisitKeepsLost(s: State, i: nat, cb: Callbacks, v: nat)
    requires Lost(s, v) && i < MAX_TASKS
    ensures Lost(Visit(s, i, cb), v)
  {
    if s.tasks[i].Some? && s.tasks[i].value.sec == 1 {
      var t := s.tasks[i].value;
      assert t.uid != v;
      var f := Fire(s, i);
      FiredAfter(s, f, Firing(t.uid, s.now, t.func, t.arg), v);
      OpsKeepLost(f, i, cb(t.uid), v);
    }
  }

  lemma {:induction false} ScanKeepsLost(s: State, i: nat, cb: Callbacks, v: nat)
    requires Lost(s, v) && i <= MAX_TASKS
    ensures Lost(Scan(s, i, cb), v)
    decreases MAX_TASKS - i
  {
    if i < MAX_TASKS {
      VisitKeepsLost(s, i, cb, v);
      ScanKeepsLost(Visit(s, i, cb), i + 1, cb, v);
    }
  }

  lemma StepKeepsLost(m: Moment, e: Happening, v: nat)
    requires Sound(m) && Enabled(m, e) && Lost(m.s, v)
    ensures Lost(After(m, e).s, v)
  {
    match e
    case BeginAdd(_, _, _) =>
    case CancelNow(id) => CancelKeepsLost(m.s, id, v);
    case Proceed =>
      if m.flow.pc.Storing? {
        StoreKeepsLost(m.s, m.flow.pc.id, MAX_TASKS, m.flow.sec, m.flow.func, m.flow.arg, v);
      }
    case Interrupt(cb) => ScanKeepsLost(m.s.(now := m.s.now + 1), 0, cb, v);
  }

  lemma {:induction false} RunLoses(run: seq<Moment>, es: seq<Happening>, n: nat) returns (v: nat)
    requires IsRun(run, es) && n <= |es| && !run[n].s.doubleFree && !NoOverwrite(run, es, n)
    ensures Lost(run[n].s, v)
    decreases n
  {
    var k := n - 1;
    if run[k].s.doubleFree { StepKeepsFlag(run[k], es[k]); }
    if NoOverwrite(run, es, k) {
      RunKeepsInv(run, es, k);
      OverwriteLoses(run[k], es[k]);
      v := run[k].s.tasks[run[k].flow.pc.id].value.uid;
    } else {
      v := RunLoses(run, es, k);
      StepKeepsLost(run[k], es[k], v);
    }
  }

  /**
   Over every run with interrupted additions, short of a callback that cancels its own job: every
   job is live, fired or cancelled if and only if no store has hit a live job, and then every job
   fires on time, counted from its store.
   */
  lemma OnTimeIffNoOverwrite(run: seq<Moment>, es: seq<Happening>)
    requires IsRun(run, es) && !run[|es|].s.doubleFree
    ensures Shaped(run[|es|].s)
    ensures AllAccounted(run[|es|].s) <==> NoOverwrite(run, es, |es|)
    ensures NoOverwrite(run, es, |es|) ==> OnTime(run[|es|].s)
  {
    RunIsSound(run, es, |es|);
    if NoOverwrite(run, es, |es|) {
      RunKeepsInv(run, es, |es|);
      InvIsOnTime(run[|es|].s);
    } else {
      var v := RunLoses(run, es, |es|);
      assert !ExactlyOneOf(Live(run[|es|].s, v), HasFired(run[|es|].s, v), v in run[|es|].s.cancelled);
    }
  }

  // ---- callbacks that add nothing ----

  /** A slot found empty is still empty when the job is stored. */
  ghost predicate Fresh(m: Moment) {
    Sound(m) && (m.flow.Adding? && m.flow.pc.Storing? ==> m.s.tasks[m.flow.pc.id].None?)
  }

  lemma StepKeepsFresh(m: Moment, e: Happening)
    requires Fresh(m) && Enabled(m, e) && (e.Interrupt? ==> AddsNothing(e.cb))
    ensures Fresh(After(m, e))
  {
    if e.Interrupt? && m.flow.Adding? && m.flow.pc.Storing? {
      ScanLeavesEmpty(m.s.(now := m.s.now + 1), 0, e.cb, m.flow.pc.id);
    }
  }

  lemma {:induction false} RunKeepsFresh(run: seq<Moment>, es: seq<Happening>, k: nat)
    requires IsRun(run, es) && k <= |es|
    requires forall j :: 0 <= j < |es| && es[j].Interrupt? ==> AddsNothing(es[j].cb)
    ensures Fresh(run[k])
  {
    if k > 0 {
      RunKeepsFresh(run, es, k - 1);
      StepKeepsFresh(run[k - 1], es[k - 1]);
    }
  }

  /** With callbacks that add nothing every job is on time, however the additions are interrupted. */
  lemma InterruptedOnTime(run: seq<Moment>, es: seq<Happening>)
    requires IsRun(run, es) && !run[|es|].s.doubleFree
    requires forall j :: 0 <= j < |es| && es[j].Interrupt? ==> AddsNothing(es[j].cb)
    ensures Shaped(run[|es|].s) && AllAccounted(run[|es|].s) && OnTime(run[|es|].s)
  {
    forall k | 0 <= k < |es|
      ensures !Overwrites(run[k], es[k])
    {
      RunKeepsFresh(run, es, k);
    }
    OnTimeIffNoOverwrite(run, es);
  }

  // ---- what was asked for ----

  function TicksIn(es: seq<Happening>, b: nat, n: nat): nat
    requires b <= n <= |es|
    decreases n
  {
    if b == n then 0 else TicksIn(es, b, n - 1) + if es[n - 1].Interrupt? then 1 else 0
  }

  /** Step `b` is the store of the addition begun in step `a`. */
  ghost predicate StoresFor(run: seq<Moment>, es: seq<Happening>, a: nat, b: nat)
    requires IsRun(run, es)
  {
    && a < b < |es| && es[a].BeginAdd? && es[b] == Proceed
    && (forall m :: a < m <= b ==> run[m].flow.Adding?)
    && run[b].flow.pc.Storing?
  }

  lemma {:induction false} AdditionKeeps(run: seq<Moment>, es: seq<Happening>, a: nat, m: nat)
    requires IsRun(run, es) && a < m <= |es| && es[a].BeginAdd?
    requires forall k :: a < k <= m ==> run[k].flow.Adding?
    ensures run[m].flow.sec == es[a].sec && run[m].flow.func == es[a].func && run[m].flow.arg == es[a].arg
    decreases m
  {
    assert run[m] == After(run[m - 1], es[m - 1]);
    if m > a + 1 { AdditionKeeps(run, es, a, m - 1); }
  }

  lemma StepCounts(m: Moment, e: Happening)
    requires Sound(m) && Enabled(m, e) && Inv(m.s, MAX_TASKS) && !After(m, e).s.doubleFree
    ensures After(m, e).s.now == m.s.now + if e.Interrupt? then 1 else 0
    ensures JobsGrow(m.s, After(m, e).s) && m.s.cancelled <= After(m, e).s.cancelled
  {
    if e.Interrupt? {
      var s1 := m.s.(now := m.s.now + 1);
      TickKeepsInv(m.s, e.cb);
      ScanGrowsJobs(s1, 0, e.cb);
      ScanIsServed(s1, 0, e.cb);
    }
  }

  lemma {:induction false} FlagStays(run: seq<Moment>, es: seq<Happening>, k: nat, n: nat)
    requires IsRun(run, es) && k <= n <= |es| && !run[n].s.doubleFree
    ensures !run[k].s.doubleFree
    decreases n - k
  {
    if k < n {
      FlagStays(run, es, k + 1, n);
      if run[k].s.doubleFree { StepKeepsFlag(run[k], es[k]); }
    }
  }

  lemma {:induction false} RunCounts(run: seq<Moment>, es: seq<Happening>, b: nat, n: nat)
    requires IsRun(run, es) && b <= n <= |es| && !run[n].s.doubleFree && NoOverwrite(run, es, n)
    ensures run[n].s.now == run[b].s.now + TicksIn(es, b, n)
    ensures JobsGrow(run[b].s, run[n].s) && run[b].s.cancelled <= run[n].s.cancelled
    decreases n
  {
    if b < n {
      FlagStays(run, es, n - 1, n);
      RunCounts(run, es, b, n - 1);
      RunKeepsInv(run, es, n - 1);
      StepCounts(run[n - 1], es[n - 1]);
      JobsGrowTrans(run[b].s, run[n - 1].s, run[n].s);
    }
  }

  lemma StoreWrites(run: seq<Moment>, es: seq<Happening>, a: nat, b: nat)
    requires IsRun(run, es) && StoresFor(run, es, a, b)
    ensures var s, s' := run[b].s, run[b + 1].s;
      && s'.now == s.now && |s'.jobs| == |s.jobs| + 1 && run[b].flow.pc.id < MAX_TASKS
      && s'.jobs[|s.jobs|] == Job(es[a].sec, es[a].func, es[a].arg, run[b].flow.pc.id, s.now, MAX_TASKS)
  {
    AdditionKeeps(run, es, a, b);
    assert run[b + 1] == After(run[b], es[b]);
  }

  lemma {:induction false} TicksSplit(es: seq<Happening>, b: nat, n: nat)
    requires b < n <= |es|
    ensures TicksIn(es, b, n) == (if es[b].Interrupt? then 1 else 0) + TicksIn(es, b + 1, n)
    decreases n
  {
    if n > b + 1 { TicksSplit(es, b, n - 1); }
  }

  /** What the store wrote is still there, and the clock has gone on by the ticks since. */
  lemma RecordStays(run: seq<Moment>, es: seq<Happening>, a: nat, b: nat, n: nat)
    requires IsRun(run, es) && StoresFor(run, es, a, b)
    requires b < n <= |es| && !run[n].s.doubleFree && NoOverwrite(run, es, n)
    ensures var (s, u) := (run[n].s, |run[b].s.jobs|);
      && s.now == run[b].s.now + TicksIn(es, b, n)
      && u < |s.jobs| && s.jobs[u].sec == es[a].sec && s.jobs[u].func == es[a].func && s.jobs[u].arg == es[a].arg
      && Deadline(s.jobs[u]) == run[b].s.now + es[a].sec
  {
    var s, s1, u := run[n].s, run[b + 1].s, |run[b].s.jobs|;
    StoreWrites(run, es, a, b);
    RunCounts(run, es, b + 1, n);
    TicksSplit(es, b, n);
    JobStays(s1, s, u);
  }

  /**
   An interrupted addition in every run in which no store hits a live job: the job asked for in step
   `a` and stored in step `b` has fired at state `n` if and only if at least `sec` ticks lie between `b`
   and `n`, unless it is cancelled; it fires once, `sec` ticks after its store, with the function and
   the argument asked for.
   */
  lemma InterruptedFiresAfterSecTicks(run: seq<Moment>, es: seq<Happening>, a: nat, b: nat, n: nat)
    requires IsRun(run, es) && StoresFor(run, es, a, b) && es[a].sec >= 1
    requires b < n <= |es| && !run[n].s.doubleFree && NoOverwrite(run, es, n)
    ensures var s := run[n].s;
      var u := |run[b].s.jobs|;
      && u < |s.jobs|
      && (u !in s.cancelled ==> (HasFired(s, u) <==> TicksIn(es, b, n) >= es[a].sec))
      && (u in s.cancelled ==> !HasFired(s, u))
      && (forall k :: 0 <= k < |s.fired| && s.fired[k].uid == u ==>
            s.fired[k] == Firing(u, run[b].s.now + es[a].sec, es[a].func, es[a].arg))
  {
    var s := run[n].s;
    var u := |run[b].s.jobs|;
    RecordStays(run, es, a, b, n);
    RunKeepsInv(run, es, n);
    InvIsOnTime(s);
    JobFate(s, u);
  }

  /** A cancellation by the main flow between interrupted additions is final too. */
  lemma InterruptedCancelIsFinal(run: seq<Moment>, es: seq<Happening>, k: nat, n: nat)
    requires IsRun(run, es) && k < n <= |es| && es[k].CancelNow?
    requires !run[n].s.doubleFree && NoOverwrite(run, es, n)
    ensures Shaped(run[k].s) && Shaped(run[n].s)
    ensures forall u :: u in Struck(run[k].s, es[k].id) ==>
      u in run[n].s.cancelled && !Live(run[n].s, u) && !HasFired(run[n].s, u)
  {
    RunIsSound(run, es, k);
    RunIsSound(run, es, n);
    assert run[k + 1] == After(run[k], es[k]);
    RunCounts(run, es, k + 1, n);
    RunKeepsInv(run, es, n);
    forall u | u in Struck(run[k].s, es[k].id)
      ensures u in run[n].s.cancelled && !Live(run[n].s, u) && !HasFired(run[n].s, u)
    {
      JobStages(run[n].s, u);
    }
  }

  /** An addition that returns has stored its job, or has come to the end of the table. */
  lemma AdditionEnds(run: seq<Moment>, es: seq<Happening>, a: nat, n: nat)
    requires IsRun(run, es) && a < n <= |es| && es[a].BeginAdd? && run[n].flow.Resting?
    requires forall m :: a < m < n ==> run[m].flow.Adding?
    ensures a < n - 1
    ensures StoresFor(run, es, a, n - 1) || (run[n - 1].flow.pc.Searching? && run[n - 1].flow.pc.i >= MAX_TASKS)
  {
    assert run[a + 1] == After(run[a], es[a]);
    assert run[n] == After(run[n - 1], es[n - 1]);
    NeverReturned(run, es, n - 1);
  }

  /** Inside `at_add_job` the flow is searching or about to store. */
  lemma {:induction false} NeverReturned(run: seq<Moment>, es: seq<Happening>, k: nat)
    requires IsRun(run, es) && k <= |es|
    ensures run[k].flow.Adding? ==> run[k].flow.pc.Searching? || run[k].flow.pc.Storing?
  {
    if k > 0 {
      NeverReturned(run, es, k - 1);
      assert run[k] == After(run[k - 1], es[k - 1]);
    }
  }
}
