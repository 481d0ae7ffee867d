/**
 The wake-up protocol of the pool.  `tp_add_task` broadcasts without holding `mtx`, so a
 worker that has just found the table empty can go to sleep past the broadcast.  That strands
 the task exactly when no second worker exists.
 */
module PoolWakeup {
  import opened PoolMachine
  import opened PoolInvariant
  import opened PoolClientSteps
  import opened PoolSafety
  import opened PoolProgress

  /**
   With two workers or more no wake-up is lost: while a task is pending after its broadcast, at
   most one worker sleeps or is bound to sleep un-notified, so some worker is awake and will scan.
   */
  lemma NoLostWakeup(s: State, workers: nat, clients: nat, k: nat)
    requires Reachable(s, workers, clients) && workers >= 2
    requires WellShaped(s) && Pending(s, k) && Returned(s, k)
    ensures AtMostOneSleeper(s)
    ensures exists w :: 0 <= w < |s.ws| && !Sleeper(s.ws[w])
  {
    ReachableInv(s, workers, clients);
    WorkerCount(s, workers, clients);
    var i :| 0 <= i < MAX_TASKS && s.tasks[i] != NULL && s.tick[i] == k;
    assert !Unannounced(s, s.tick[i]);
    assert Sleeper(s.ws[0]) && Sleeper(s.ws[1]) ==> 0 == 1;
  }

  /** Wherever such a pool comes to rest, nothing is left undone. */
  ghost predicate NeverStrands(workers: nat) {
    forall clients, s :: Reachable(s, workers, clients) && Stuck(s) && !s.exited ==> Complete(s)
  }

  /** A pool of `workers` threads never strands a task if and only if it has at least two. */
  lemma NeverStrandsIff(workers: nat)
    ensures NeverStrands(workers) <==> workers >= 2
  {
    if workers >= 2 {
      forall clients: nat, s | Reachable(s, workers, clients) && Stuck(s) && !s.exited
        ensures Complete(s)
      {
        ReachableInv(s, workers, clients);
        WorkerCount(s, workers, clients);
        StuckIsComplete(s);
      }
    } else {
      var s := StrandedState(workers);
      assert Reachable(s, workers, 1) && Stuck(s) && !s.exited;
      assert 0 !in s.done;
    }
  }

  // ---- the stranding runs ----

  lemma LeadsRefl(s: State)
    ensures Leads(s, s)
  {
    assert Connects([s], s, s);
  }

  lemma Extend(s: State, t: State, e: Event)
    requires Leads(s, t) && WellShaped(t) && Enabled(t, e)
    ensures Leads(s, Apply(t, e))
  {
    var run :| Connects(run, s, t);
    var t' := Apply(t, e);
    assert Next(t, t');
    var longer := run + [t'];
    forall i | 0 <= i < |longer| - 1
      ensures Next(longer[i], longer[i + 1])
    {
      if i < |run| - 1 { assert Next(run[i], run[i + 1]); }
    }
    assert Connects(longer, s, t');
  }

  /** An untouched pool in which the workers and the one client stand at the given places. */
  ghost function Untouched(ws: seq<WorkerPc>, pc: ClientPc, mtx: MtxOwner, taskMtx: TaskOwner): State {
    State(ws, [pc], mtx, taskMtx,
          seq(MAX_TASKS, _ => Free), seq(MAX_TASKS, _ => NULL), seq(MAX_TASKS, _ => NULL), seq(MAX_TASKS, _ => 0),
          [], [], {}, {}, false)
  }

  /** A lone worker scans an empty table to the end. */
  lemma {:induction false} ScansOn(s0: State, i: nat)
    requires i <= MAX_TASKS
    requires Leads(s0, Untouched([WScan(i)], CIdle, MtxWorker(0), TaskWorker(0)))
    ensures Leads(s0, Untouched([WScan(MAX_TASKS)], CIdle, MtxWorker(0), TaskWorker(0)))
    decreases MAX_TASKS - i
  {
    if i < MAX_TASKS {
      var s := Untouched([WScan(i)], CIdle, MtxWorker(0), TaskWorker(0));
      Extend(s0, s, WorkerStep(0));
      assert Apply(s, WorkerStep(0)) == Untouched([WScan(i + 1)], CIdle, MtxWorker(0), TaskWorker(0));
      ScansOn(s0, i + 1);
    }
  }

  lemma StartsScan(s0: State)
    requires s0 == Untouched([WLockMtx], CIdle, MtxFree, TaskFree)
    ensures Leads(s0, Untouched([WScan(0)], CIdle, MtxWorker(0), TaskWorker(0)))
  {
    LeadsRefl(s0);
    Extend(s0, s0, WorkerStep(0));
    var s1 := Untouched([WLockFind], CIdle, MtxWorker(0), TaskFree);
    assert Apply(s0, WorkerStep(0)) == s1;
    Extend(s0, s1, WorkerStep(0));
    assert Apply(s1, WorkerStep(0)) == Untouched([WScan(0)], CIdle, MtxWorker(0), TaskWorker(0));
  }

  lemma EndsScan(s0: State)
    requires Leads(s0, Untouched([WScan(MAX_TASKS)], CIdle, MtxWorker(0), TaskWorker(0)))
    ensures Leads(s0, Untouched([WCondWait], CIdle, MtxWorker(0), TaskFree))
  {
    var s2 := Untouched([WScan(MAX_TASKS)], CIdle, MtxWorker(0), TaskWorker(0));
    Extend(s0, s2, WorkerStep(0));
    var s3 := Untouched([WUnlockEmpty], CIdle, MtxWorker(0), TaskWorker(0));
    assert Apply(s2, WorkerStep(0)) == s3;
    Extend(s0, s3, WorkerStep(0));
    assert Apply(s3, WorkerStep(0)) == Untouched([WCondWait], CIdle, MtxWorker(0), TaskFree);
  }

  /** A lone worker reaches the point just before `pthread_cond_wait`, holding only `mtx`. */
  lemma FindsNothing(s0: State)
    requires s0 == Untouched([WLockMtx], CIdle, MtxFree, TaskFree)
    ensures Leads(s0, Untouched([WCondWait], CIdle, MtxWorker(0), TaskFree))
  {
    StartsScan(s0);
    ScansOn(s0, 0);
    EndsScan(s0);
  }

  /** The client reaches the slot it will fill. */
  lemma PicksSlot(s0: State, ws: seq<WorkerPc>, mtx: MtxOwner)
    requires |ws| <= 1 && (forall w :: 0 <= w < |ws| ==> ws[w] == WCondWait)
    requires Leads(s0, Untouched(ws, CIdle, mtx, TaskFree))
    ensures Leads(s0, Untouched(ws, CLockSlot(0, 1, NULL), mtx, TaskClient(0)))
  {
    var s1 := Untouched(ws, CIdle, mtx, TaskFree);
    Extend(s0, s1, BeginAdd(0, 1, NULL));
    var s2 := Untouched(ws, CLockAdd(1, NULL), mtx, TaskFree);
    assert Apply(s1, BeginAdd(0, 1, NULL)) == s2;
    Extend(s0, s2, ClientStep(0));
    var s3 := Untouched(ws, CScan(0, 1, NULL), mtx, TaskClient(0));
    assert Apply(s2, ClientStep(0)) == s3;
    Extend(s0, s3, ClientStep(0));
    assert Apply(s3, ClientStep(0)) == Untouched(ws, CLockSlot(0, 1, NULL), mtx, TaskClient(0));
  }

  /** The pool with one task stored in slot 0. */
  ghost function Stored(ws: seq<WorkerPc>, pc: ClientPc, mtx: MtxOwner, taskMtx: TaskOwner): State {
    var s := Untouched(ws, pc, mtx, taskMtx);
    s.(tasks := s.tasks[0 := 1], waits := s.waits[0 := ByTask(0)], log := [Submission(0, 1, NULL)])
  }

  /** The client stores the task. */
  lemma StoresTask(s0: State, ws: seq<WorkerPc>, mtx: MtxOwner)
    requires |ws| <= 1 && (forall w :: 0 <= w < |ws| ==> ws[w] == WCondWait)
    requires Leads(s0, Untouched(ws, CIdle, mtx, TaskFree))
    ensures Leads(s0, Stored(ws, CUnlockAdd(0, 0), mtx, TaskClient(0)))
  {
    PicksSlot(s0, ws, mtx);
    var s4 := Untouched(ws, CLockSlot(0, 1, NULL), mtx, TaskClient(0));
    Extend(s0, s4, ClientStep(0));
    var s5 := s4.(cs := [CStore(0, 1, NULL)], waits := s4.waits[0 := ByClient(0)]);
    assert Apply(s4, ClientStep(0)) == s5;
    Extend(s0, s5, ClientStep(0));
    assert Apply(s5, ClientStep(0)) == Stored(ws, CUnlockAdd(0, 0), mtx, TaskClient(0));
  }

  /** ... and broadcasts to nobody. */
  lemma StoresAndBroadcasts(s0: State, ws: seq<WorkerPc>, mtx: MtxOwner)
    requires |ws| <= 1 && (forall w :: 0 <= w < |ws| ==> ws[w] == WCondWait)
    requires Leads(s0, Untouched(ws, CIdle, mtx, TaskFree))
    ensures Leads(s0, Stored(ws, CIdle, mtx, TaskFree))
  {
    StoresTask(s0, ws, mtx);
    var s6 := Stored(ws, CUnlockAdd(0, 0), mtx, TaskClient(0));
    Extend(s0, s6, ClientStep(0));
    var s7 := Stored(ws, CBroadcast(0, 0), mtx, TaskFree);
    assert Apply(s6, ClientStep(0)) == s7;
    Extend(s0, s7, ClientStep(0));
    assert Wake(ws) == ws;
    assert Apply(s7, ClientStep(0)) == Stored(ws, CIdle, mtx, TaskFree);
  }

  lemma StrandedWithNone()
    ensures Reachable(Stored([], CIdle, MtxFree, TaskFree), 0, 1)
  {
    var s0 := Untouched([], CIdle, MtxFree, TaskFree);
    assert s0.ws == seq(0, _ => WLockMtx) && s0.cs == seq(1, _ => CIdle);
    assert Init(s0, 0, 1);
    LeadsRefl(s0);
    StoresAndBroadcasts(s0, [], MtxFree);
  }

  lemma StrandedWithOne()
    ensures Reachable(Stored([WAsleep], CIdle, MtxFree, TaskFree), 1, 1)
  {
    var s0 := Untouched([WLockMtx], CIdle, MtxFree, TaskFree);
    assert s0.ws == seq(1, _ => WLockMtx) && s0.cs == seq(1, _ => CIdle);
    assert Init(s0, 1, 1);
    FindsNothing(s0);
    StoresAndBroadcasts(s0, [WCondWait], MtxWorker(0));
    var s1 := Stored([WCondWait], CIdle, MtxWorker(0), TaskFree);
    Extend(s0, s1, WorkerStep(0));
    assert Apply(s1, WorkerStep(0)) == Stored([WAsleep], CIdle, MtxFree, TaskFree);
  }

  /**
   A run that strands a task: with one worker the broadcast falls between its empty scan and its
   sleep; with none there is nobody to wake.
   */
  lemma StrandedState(workers: nat) returns (s: State)
    requires workers < 2
    ensures Reachable(s, workers, 1) && Stuck(s) && !s.exited
    ensures Pending(s, 0) && Returned(s, 0) && s.done == {} && |s.log| == 1
    ensures workers == 1 ==> s.ws == [WAsleep]
  {
    if workers == 0 {
      StrandedWithNone();
      s := Stored([], CIdle, MtxFree, TaskFree);
    } else {
      StrandedWithOne();
      s := Stored([WAsleep], CIdle, MtxFree, TaskFree);
    }
    assert s.tasks[0] != NULL && s.tick[0] == 0;
  }
}
