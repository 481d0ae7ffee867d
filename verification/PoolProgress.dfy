/**
 The pool makes progress.  Every new call and every spurious wake-up buys a bounded number of
 steps, whatever the schedule, so that left alone the pool stops; and where it stops, no lock is
 held and, with at least two workers, every call has returned and every task has run.
 */
module PoolProgress {
  import opened PoolMachine
  import opened PoolInvariant
  import opened PoolWorkerSteps
  import opened PoolClientSteps

  /** Some thread can take a step of its own. */
  ghost predicate Moves(s: State)
    requires WellShaped(s)
  {
    || (exists w :: 0 <= w < |s.ws| && WorkerCanStep(s, w))
    || (exists c :: 0 <= c < |s.cs| && ClientCanStep(s, c))
  }

  ghost predicate Stuck(s: State) {
    WellShaped(s) && !Moves(s)
  }

  /** Every call has returned, every submitted task is done, every worker is asleep. */
  ghost predicate Complete(s: State) {
    && (forall c :: 0 <= c < |s.cs| ==> s.cs[c] == CIdle)
    && (forall k :: 0 <= k < |s.log| ==> k in s.done)
    && (forall w :: 0 <= w < |s.ws| ==> s.ws[w] == WAsleep)
  }

  // ---- no deadlock ----

  /** The semaphore of an empty slot is held by a thread that needs no lock to go on. */
  lemma SlotHolderMoves(s: State, i: nat)
    requires Inv(s) && i < MAX_TASKS && !s.waits[i].Free? && s.tasks[i] == NULL
    ensures Moves(s)
  {
    assert HolderOk(s, i);
    if s.waits[i].ByTask? {
      var w :| 0 <= w < |s.ws| && Carrying(s.ws[w]) && s.ws[w].id == i && s.ws[w].k == s.waits[i].k;
      assert WorkerCanStep(s, w);
    } else {
      assert ClientCanStep(s, s.waits[i].c);
    }
  }

  /**
   The holder of `task_mtx` can step, or is a submitter that waits for the semaphore of an empty
   slot, whose holder can.
   */
  lemma TaskHolderMoves(s: State)
    requires Inv(s) && !s.taskMtx.TaskFree?
    ensures Moves(s)
  {
    if s.taskMtx.TaskWorker? {
      assert WorkerHoldsTaskMtx(s.ws[s.taskMtx.w]);
      assert WorkerCanStep(s, s.taskMtx.w);
    } else {
      var c := s.taskMtx.c;
      assert ClientHoldsTaskMtx(s.cs[c]);
      assert ClientSlotOk(s, c, s.cs[c]);
      if s.cs[c].CLockSlot? && !s.waits[s.cs[c].id].Free? {
        SlotHolderMoves(s, s.cs[c].id);
      } else {
        assert ClientCanStep(s, c);
      }
    }
  }

  lemma MtxHolderMoves(s: State)
    requires Inv(s) && s.taskMtx.TaskFree? && !s.mtx.MtxFree?
    ensures Moves(s)
  {
    assert HoldsMtx(s.ws[s.mtx.w]);
    assert WorkerCanStep(s, s.mtx.w);
  }

  /**
   No lock deadlock, for any number of workers: where no thread can step, both mutexes are free,
   every worker is asleep, and a client that has not returned waits for a task that is pending.
   */
  lemma NoLockDeadlock(s: State)
    requires Inv(s) && Stuck(s)
    ensures s.taskMtx.TaskFree? && s.mtx.MtxFree?
    ensures forall w :: 0 <= w < |s.ws| ==> s.ws[w] == WAsleep
    ensures forall c :: 0 <= c < |s.cs| ==>
      s.cs[c] == CIdle || (s.cs[c].CWaitLock? && s.tasks[s.cs[c].id] != NULL)
  {
    if !s.taskMtx.TaskFree? { TaskHolderMoves(s); }
    if !s.mtx.MtxFree? { MtxHolderMoves(s); }
    forall w | 0 <= w < |s.ws|
      ensures s.ws[w] == WAsleep
    {
      assert !WorkerCanStep(s, w);
    }
    forall c | 0 <= c < |s.cs|
      ensures s.cs[c] == CIdle || (s.cs[c].CWaitLock? && s.tasks[s.cs[c].id] != NULL)
    {
      assert !ClientCanStep(s, c);
      assert ClientHoldsTaskMtx(s.cs[c]) <==> s.taskMtx == TaskClient(c);
      if s.cs[c].CWaitLock? && s.tasks[s.cs[c].id] == NULL { SlotHolderMoves(s, s.cs[c].id); }
    }
  }

  /** The thread wants a lock: a mutex, or, as a submitter, the semaphore of its slot. */
  ghost predicate WantsLock(s: State) {
    || (exists w :: 0 <= w < |s.ws| &&
          (s.ws[w].WLockMtx? || s.ws[w].WWoken? || s.ws[w].WLockFind? || s.ws[w].WLockRun?))
    || (exists c :: 0 <= c < |s.cs| && (s.cs[c].CLockAdd? || s.cs[c].CLockSlot?))
  }

  /** In every reachable state in which a thread wants a lock, some thread can step. */
  lemma LocksAreGranted(s: State, workers: nat, clients: nat)
    requires Reachable(s, workers, clients) && WantsLock(s)
    ensures WellShaped(s) && Moves(s)
  {
    ReachableInv(s, workers, clients);
    if !Moves(s) { NoLockDeadlock(s); }
  }

  /**
   A submitter that holds `task_mtx` and waits for `waits[id]` waits for a worker at a running
   task or for a client on its way out of `tp_wait_task`, never for a task that is still pending.
   */
  lemma SubmitterWaitsFor(s: State, workers: nat, clients: nat, c: nat)
    requires Reachable(s, workers, clients) && c < |s.cs| && s.cs[c].CLockSlot?
    ensures WellShaped(s) && s.taskMtx == TaskClient(c) && s.tasks[s.cs[c].id] == NULL
    ensures match s.waits[s.cs[c].id]
      case Free => true
      case ByClient(d) => d < |s.cs| && s.cs[d].CWaitUnlock?
      case ByTask(k) => exists w :: 0 <= w < |s.ws| && Carrying(s.ws[w]) && s.ws[w].k == k && !s.ws[w].WUnlockRun?
  {
    ReachableInv(s, workers, clients);
    var id := s.cs[c].id;
    assert ClientHoldsTaskMtx(s.cs[c]) && ClientSlotOk(s, c, s.cs[c]) && HolderOk(s, id);
    match s.waits[id]
    case Free =>
    case ByClient(d) => assert ClientHoldsTaskMtx(s.cs[d]) ==> d == c;
    case ByTask(k) =>
      var w :| 0 <= w < |s.ws| && Carrying(s.ws[w]) && s.ws[w].id == id && s.ws[w].k == k;
      assert !WorkerHoldsTaskMtx(s.ws[w]);
  }

  lemma NothingPending(s: State)
    requires Inv(s) && Stuck(s) && |s.ws| >= 2
    ensures forall i :: 0 <= i < MAX_TASKS ==> s.tasks[i] == NULL
  {
    NoLockDeadlock(s);
    assert Sleeper(s.ws[0]) && Sleeper(s.ws[1]);
    assert !AtMostOneSleeper(s);
    assert forall k: nat :: !Unannounced(s, k);
  }

  /** With two workers or more, a pool that cannot step has nothing left to do. */
  lemma StuckIsComplete(s: State)
    requires Inv(s) && Stuck(s) && |s.ws| >= 2
    ensures Complete(s)
  {
    NoLockDeadlock(s);
    NothingPending(s);
    forall k | 0 <= k < |s.log|
      ensures k in s.done
    {
      if k !in s.done { SlotHolderMoves(s, s.log[k].slot); }
    }
  }

  // ---- no endless activity ----

  const FULL_PASS: nat := MAX_TASKS + 7
  const PENDING_COST: nat := FULL_PASS + 5

  /** Steps a worker can still take before it sleeps, a pending task paying for its own call. */
  function WorkerCost(pc: WorkerPc): nat {
    match pc
    case WAsleep => 0
    case WCondWait => 1
    case WUnlockEmpty => 2
    case WClear(_, _, _) => 1
    case WRead(_) => 2
    case WLockRun(_) => 3
    case WUnlockFound(_) => 4
    case WScan(i) => if i <= MAX_TASKS then MAX_TASKS - i + 5 else 0
    case WLockFind => MAX_TASKS + 6
    case WLockMtx => FULL_PASS
    case WWoken => FULL_PASS
    case WUnlockWait(_, _) => FULL_PASS + 1
    case WRunning(_, _) => FULL_PASS + 2
    case WCall(_, _, _, _) => FULL_PASS + 3
    case WUnlockMtx(_, _, _, _) => FULL_PASS + 4
    case WUnlockRun(_, _, _, _) => FULL_PASS + 5
  }

  /** Steps a client can still take or cause; a broadcast may send every worker through a full pass. */
  function ClientCost(pc: ClientPc, workers: nat): nat {
    match pc
    case CIdle => 0
    case CExit(_, _) => 1
    case CUnlockFull(_, _) => 2
    case CWaitUnlock(_, _) => 1
    case CWaitLock(_, _) => 2
    case CBroadcast(_, _) => 1 + workers * FULL_PASS
    case CUnlockAdd(_, _) => 2 + workers * FULL_PASS
    case CStore(_, _, _) => 3 + PENDING_COST + workers * FULL_PASS
    case CLockSlot(_, _, _) => 4 + PENDING_COST + workers * FULL_PASS
    case CScan(i, _, _) => if i <= MAX_TASKS then MAX_TASKS - i + 5 + PENDING_COST + workers * FULL_PASS else 0
    case CLockAdd(_, _) => MAX_TASKS + 6 + PENDING_COST + workers * FULL_PASS
  }

  function WorkerCosts(ws: seq<WorkerPc>): nat {
    if ws == [] then 0 else WorkerCost(ws[0]) + WorkerCosts(ws[1..])
  }

  function ClientCosts(cs: seq<ClientPc>, workers: nat): nat {
    if cs == [] then 0 else ClientCost(cs[0], workers) + ClientCosts(cs[1..], workers)
  }

  function PendingCosts(tasks: seq<Ptr>): nat {
    if tasks == [] then 0 else (if tasks[0] == NULL then 0 else PENDING_COST) + PendingCosts(tasks[1..])
  }

  /** A bound on the steps the pool can take by itself. */
  function Measure(s: State): nat {
    WorkerCosts(s.ws) + ClientCosts(s.cs, |s.ws|) + PendingCosts(s.tasks)
  }

  lemma {:induction false} WorkerCostsUpdate(ws: seq<WorkerPc>, w: nat, pc: WorkerPc)
    requires w < |ws|
    ensures WorkerCosts(ws[w := pc]) == WorkerCosts(ws) - WorkerCost(ws[w]) + WorkerCost(pc)
  {
    if w > 0 {
      WorkerCostsUpdate(ws[1..], w - 1, pc);
      assert ws[w := pc][1..] == ws[1..][w - 1 := pc];
    } else {
      assert ws[w := pc][1..] == ws[1..];
    }
  }

  lemma {:induction false} ClientCostsUpdate(cs: seq<ClientPc>, c: nat, pc: ClientPc, workers: nat)
    requires c < |cs|
    ensures ClientCosts(cs[c := pc], workers) ==
            ClientCosts(cs, workers) - ClientCost(cs[c], workers) + ClientCost(pc, workers)
  {
    if c > 0 {
      ClientCostsUpdate(cs[1..], c - 1, pc, workers);
      assert cs[c := pc][1..] == cs[1..][c - 1 := pc];
    } else {
      assert cs[c := pc][1..] == cs[1..];
    }
  }

  lemma {:induction false} PendingCostsUpdate(tasks: seq<Ptr>, i: nat, t: Ptr)
    requires i < |tasks|
    ensures PendingCosts(tasks[i := t]) == PendingCosts(tasks)
      - (if tasks[i] == NULL then 0 else PENDING_COST) + (if t == NULL then 0 else PENDING_COST)
  {
    if i > 0 {
      PendingCostsUpdate(tasks[1..], i - 1, t);
      assert tasks[i := t][1..] == tasks[1..][i - 1 := t];
    } else {
      assert tasks[i := t][1..] == tasks[1..];
    }
  }

  lemma {:induction false} WakeCosts(ws: seq<WorkerPc>)
    ensures WorkerCosts(Wake(ws)) <= WorkerCosts(ws) + |ws| * FULL_PASS
  {
    if ws != [] {
      WakeCosts(ws[1..]);
      assert Wake(ws)[1..] == Wake(ws[1..]);
    }
  }

  lemma WorkerStepDecreases(s: State, w: nat)
    requires WellShaped(s) && w < |s.ws| && WorkerCanStep(s, w) && ChoiceOk(s, s.ws[w])
    requires s.ws[w].WUnlockRun? ==> s.ws[w].task != NULL
    ensures Measure(WorkerNext(s, w)) < Measure(s)
  {
    var s' := WorkerNext(s, w);
    assert WorkerInRange(s.ws[w]);
    WorkerCostsUpdate(s.ws, w, s'.ws[w]);
    if s.ws[w].WClear? {
      PendingCostsUpdate(s.tasks, s.ws[w].id, NULL);
    }
  }

  /** What a client step saves pays for the workers it wakes and the task it leaves behind. */
  lemma ClientCostDrops(s: State, pc: ClientPc, workers: nat)
    requires WellShaped(s) && ClientInRange(pc) && !pc.CIdle?
    ensures ClientCost(ClientGoto(s, pc), workers)
      + (if pc.CBroadcast? then workers * FULL_PASS else 0) + (if pc.CStore? then PENDING_COST else 0)
      < ClientCost(pc, workers)
  {
  }

  lemma ClientStepDecreases(s: State, c: nat)
    requires WellShaped(s) && c < |s.cs| && ClientCanStep(s, c)
    ensures Measure(ClientNext(s, c)) < Measure(s)
  {
    var s' := ClientNext(s, c);
    var pc := s.cs[c];
    assert ClientInRange(pc);
    ClientCostsUpdate(s.cs, c, s'.cs[c], |s.ws|);
    ClientCostDrops(s, pc, |s.ws|);
    if pc.CBroadcast? {
      WakeCosts(s.ws);
    } else if pc.CStore? {
      PendingCostsUpdate(s.tasks, pc.id, pc.task);
    }
  }

  lemma WorkerProgress(s: State, w: nat)
    requires Inv(s) && w < |s.ws| && WorkerCanStep(s, w)
    ensures Inv(WorkerNext(s, w)) && Measure(WorkerNext(s, w)) < Measure(s)
  {
    WorkerKeepsInv(s, w);
    assert ChoiceOk(s, s.ws[w]);
    if s.ws[w].WUnlockRun? { NoNullTask(s, w); }
    WorkerStepDecreases(s, w);
  }

  lemma ClientProgress(s: State, c: nat)
    requires Inv(s) && c < |s.cs| && ClientCanStep(s, c)
    ensures Inv(ClientNext(s, c)) && Measure(ClientNext(s, c)) < Measure(s)
  {
    ClientKeepsInv(s, c);
    ClientStepDecreases(s, c);
  }

  // ---- the bound for every run ----

  /** What an event from outside adds to the work of a pool with this many workers. */
  function Allowance(e: Event, workers: nat): nat {
    match e
    case WorkerStep(_) => 0
    case ClientStep(_) => 0
    case Spurious(_) => 1 + FULL_PASS
    case BeginAdd(_, t, a) => 1 + ClientCost(CLockAdd(t, a), workers)
    case BeginWait(_, _) => 3
  }

  function Allowances(es: seq<Event>, workers: nat): nat {
    if es == [] then 0 else Allowances(es[..|es| - 1], workers) + Allowance(es[|es| - 1], workers)
  }

  /** A step that a thread of the pool takes by itself. */
  predicate Inner(e: Event) {
    e.WorkerStep? || e.ClientStep?
  }

  lemma OuterCost(s: State, e: Event)
    requires WellShaped(s) && Enabled(s, e) && !Inner(e)
    ensures Measure(Apply(s, e)) < Measure(s) + Allowance(e, |s.ws|)
  {
    match e
    case Spurious(w) => WorkerCostsUpdate(s.ws, w, WWoken);
    case BeginAdd(c, t, a) => ClientCostsUpdate(s.cs, c, CLockAdd(t, a), |s.ws|);
    case BeginWait(c, k) => ClientCostsUpdate(s.cs, c, CWaitLock(s.log[k].slot, k), |s.ws|);
  }

  lemma EventCost(s: State, e: Event)
    requires Inv(s) && Enabled(s, e)
    ensures Inv(Apply(s, e)) && |Apply(s, e).ws| == |s.ws|
    ensures Measure(Apply(s, e)) < Measure(s) + Allowance(e, |s.ws|)
  {
    if e.WorkerStep? {
      WorkerProgress(s, e.w);
    } else if e.ClientStep? {
      ClientProgress(s, e.c);
    } else {
      ApplyKeepsInv(s, e);
      OuterCost(s, e);
    }
  }

  /** `run` shows the states that the events `es` lead through. */
  ghost predicate Follows(run: seq<State>, es: seq<Event>) {
    && |run| == |es| + 1
    && forall k :: 0 <= k < |es| ==> WellShaped(run[k]) && Enabled(run[k], es[k]) && run[k + 1] == Apply(run[k], es[k])
  }

  lemma {:induction false} FollowsInv(run: seq<State>, es: seq<Event>, k: nat)
    requires Follows(run, es) && Inv(run[0]) && k <= |es|
    ensures Inv(run[k]) && |run[k].ws| == |run[0].ws|
    decreases k
  {
    if k > 0 {
      FollowsInv(run, es, k - 1);
      ApplyKeepsInv(run[k - 1], es[k - 1]);
    }
  }

  lemma FollowsCost(run: seq<State>, es: seq<Event>, k: nat)
    requires Follows(run, es) && Inv(run[0]) && k < |es|
    ensures Measure(run[k + 1]) < Measure(run[k]) + Allowance(es[k], |run[0].ws|)
  {
    FollowsInv(run, es, k);
    EventCost(run[k], es[k]);
  }

  /** Costs that pay for every step add up over the run. */
  lemma {:induction false} CostsAddUp(run: seq<State>, es: seq<Event>, workers: nat, k: nat)
    requires |run| == |es| + 1 && k <= |es|
    requires forall j :: 0 <= j < |es| ==> Measure(run[j + 1]) < Measure(run[j]) + Allowance(es[j], workers)
    ensures k + Measure(run[k]) <= Measure(run[0]) + Allowances(es[..k], workers)
    decreases k
  {
    if k > 0 {
      CostsAddUp(run, es, workers, k - 1);
      var j := k - 1;
      assert Measure(run[j + 1]) < Measure(run[j]) + Allowance(es[j], workers);
      assert es[..k][..j] == es[..j];
    }
  }

  lemma RunBounded(run: seq<State>, es: seq<Event>)
    requires Follows(run, es) && Inv(run[0])
    ensures |es| <= Measure(run[0]) + Allowances(es, |run[0].ws|)
  {
    forall j | 0 <= j < |es|
      ensures Measure(run[j + 1]) < Measure(run[j]) + Allowance(es[j], |run[0].ws|)
    {
      FollowsCost(run, es, j);
    }
    CostsAddUp(run, es, |run[0].ws|, |es|);
    assert es[..|es|] == es;
  }

  lemma {:induction false} InnerIsFree(es: seq<Event>, workers: nat)
    requires forall k :: 0 <= k < |es| ==> Inner(es[k])
    ensures Allowances(es, workers) == 0
  {
    if es != [] {
      assert Inner(es[|es| - 1]);
      InnerIsFree(es[..|es| - 1], workers);
    }
  }

  /** No thread of the pool can take a step. */
  ghost predicate AtRest(s: State)
    requires WellShaped(s)
  {
    forall e :: Inner(e) ==> !Enabled(s, e)
  }

  lemma RestIsComplete(s: State)
    requires Inv(s) && AtRest(s) && !s.exited && |s.ws| >= 2
    ensures Complete(s)
  {
    forall w | 0 <= w < |s.ws|
      ensures !WorkerCanStep(s, w)
    {
      assert Inner(WorkerStep(w));
    }
    forall c | 0 <= c < |s.cs|
      ensures !ClientCanStep(s, c)
    {
      assert Inner(ClientStep(c));
    }
    StuckIsComplete(s);
  }

  /**
   Progress without any fairness assumption.  From every reachable state, the length of every run
   is at most `Measure(s)` plus a fixed allowance for each new call and each spurious wake-up in it;
   without these, at most `Measure(s)`.  Where a pool with at least two workers comes to rest, the
   process has exited, or every call has returned and every submitted task has been executed.
   */
  lemma PoolProgresses(s: State, workers: nat, clients: nat, run: seq<State>, es: seq<Event>)
    requires Reachable(s, workers, clients)
    requires Follows(run, es) && run[0] == s
    ensures |es| <= Measure(s) + Allowances(es, workers)
    ensures (forall k :: 0 <= k < |es| ==> Inner(es[k])) ==> |es| <= Measure(s)
    ensures WellShaped(run[|es|])
    ensures workers >= 2 && AtRest(run[|es|]) ==> run[|es|].exited || Complete(run[|es|])
  {
    ReachableInv(s, workers, clients);
    WorkerCount(s, workers, clients);
    RunBounded(run, es);
    FollowsInv(run, es, |es|);
    if forall k :: 0 <= k < |es| ==> Inner(es[k]) { InnerIsFree(es, workers); }
    var last := run[|es|];
    if workers >= 2 && AtRest(last) && !last.exited { RestIsComplete(last); }
  }

  lemma WorkerCount(s: State, workers: nat, clients: nat)
    requires Reachable(s, workers, clients)
    ensures |s.ws| == workers && |s.cs| == clients
  {
    var s0 :| Init(s0, workers, clients) && Leads(s0, s);
    var run :| Connects(run, s0, s);
    CountsStay(run);
  }

  lemma {:induction false} CountsStay(run: seq<State>)
    requires IsRun(run)
    ensures |run[|run| - 1].ws| == |run[0].ws| && |run[|run| - 1].cs| == |run[0].cs|
  {
    if |run| > 1 {
      assert Next(run[0], run[1]);
      CountsStay(run[1..]);
    }
  }
}
