/** Every step of a client keeps the pool invariant, and so do all other events. */
module PoolClientSteps {
  import opened PoolMachine
  import opened PoolInvariant
  import opened PoolWorkerSteps

  lemma ClientKeepsLocks(s: State, c: nat)
    requires LockInv(s) && c < |s.cs| && ClientCanStep(s, c)
    requires s.cs[c].CScan? ==> s.cs[c].i <= MAX_TASKS
    ensures LockInv(ClientNext(s, c))
  {
  }

  /** The step touches the table only at the slot it names, and only as far as the client may. */
  lemma ClientTouches(s: State, c: nat)
    requires LockInv(s) && SlotInv(s) && c < |s.cs| && ClientCanStep(s, c) && ClientSlotOk(s, c, s.cs[c])
    ensures var s' := ClientNext(s, c);
      && (forall i :: 0 <= i < MAX_TASKS && s.waits[i].ByTask? ==>
            && s'.waits[i] == s.waits[i] && s'.tasks[i] == s.tasks[i]
            && s'.args[i] == s.args[i] && s'.tick[i] == s.tick[i])
      && (forall i :: 0 <= i < MAX_TASKS && s.waits[i].ByClient? && s.waits[i].c != c ==>
            s'.waits[i] == s.waits[i] && s'.tasks[i] == s.tasks[i])
      && (|s'.log| >= |s.log| && s'.log[..|s.log|] == s.log)
      && s'.calls == s.calls && s'.done == s.done
  {
  }

  lemma ClientKeepsSlots(s: State, c: nat)
    requires LockInv(s) && SlotInv(s) && c < |s.cs| && ClientCanStep(s, c) && ClientSlotOk(s, c, s.cs[c])
    requires WellShaped(ClientNext(s, c))
    ensures SlotInv(ClientNext(s, c))
  {
  }

  lemma ClientKeepsCalls(s: State, c: nat)
    requires WellShaped(s) && CallInv(s) && c < |s.cs|
    ensures CallInv(ClientNext(s, c))
    ensures forall k :: Called(ClientNext(s, c), k) <==> Called(s, k)
  {
    var s' := ClientNext(s, c);
    assert s'.calls == s.calls && s'.done == s.done && s.log <= s'.log;
    forall j | 0 <= j < |s.calls|
      ensures CallOk(s', s.calls[j])
    {
      assert CallOk(s, s.calls[j]);
    }
  }

  /** A carried or chosen slot is out of the client's reach. */
  lemma ClientKeepsWorker(s: State, c: nat, pc: WorkerPc)
    requires LockInv(s) && SlotInv(s) && CarryOk(s, pc) && ChoiceOk(s, pc)
    requires c < |s.cs| && ClientCanStep(s, c) && ClientSlotOk(s, c, s.cs[c])
    requires WellShaped(ClientNext(s, c)) && forall k :: Called(ClientNext(s, c), k) <==> Called(s, k)
    ensures CarryOk(ClientNext(s, c), pc) && ChoiceOk(ClientNext(s, c), pc)
  {
    ClientTouches(s, c);
    var s' := ClientNext(s, c);
    if Carrying(pc) { assert s'.log[pc.k] == s'.log[..|s.log|][pc.k] == s.log[pc.k]; }
  }

  lemma ClientKeepsWorkers(s: State, c: nat)
    requires LockInv(s) && SlotInv(s) && CarryInv(s) && ChoiceInv(s) && CallInv(s)
    requires c < |s.cs| && ClientCanStep(s, c) && ClientSlotOk(s, c, s.cs[c])
    requires WellShaped(ClientNext(s, c))
    ensures CarryInv(ClientNext(s, c)) && ChoiceInv(ClientNext(s, c))
  {
    var s' := ClientNext(s, c);
    ClientKeepsCalls(s, c);
    forall w | 0 <= w < |s.ws|
      ensures CarryOk(s', s'.ws[w]) && ChoiceOk(s', s'.ws[w])
    {
      assert s'.ws[w] == s.ws[w] || s'.ws[w] == WWoken;
      if s'.ws[w] == s.ws[w] { ClientKeepsWorker(s, c, s.ws[w]); }
    }
  }

  lemma ClientKeepsSoleCarrier(s: State, c: nat)
    requires WellShaped(s) && SoleCarrier(s) && c < |s.cs| && ClientCanStep(s, c)
    ensures SoleCarrier(ClientNext(s, c))
  {
  }

  lemma ClientKeepsClientSlots(s: State, c: nat)
    requires LockInv(s) && SlotInv(s) && ClientSlotInv(s) && c < |s.cs| && ClientCanStep(s, c)
    requires WellShaped(ClientNext(s, c))
    ensures ClientSlotInv(ClientNext(s, c))
  {
  }

  lemma ClientKeepsHolders(s: State, c: nat)
    requires LockInv(s) && SlotInv(s) && ClientSlotInv(s) && HolderInv(s) && c < |s.cs| && ClientCanStep(s, c)
    requires WellShaped(ClientNext(s, c)) && ClientSlotInv(ClientNext(s, c))
    ensures HolderInv(ClientNext(s, c))
  {
    var s' := ClientNext(s, c);
    assert ClientSlotOk(s, c, s.cs[c]) && ClientSlotOk(s', c, s'.cs[c]);
    forall i | 0 <= i < MAX_TASKS
      ensures HolderOk(s', i)
    {
      assert HolderOk(s, i);
      if s.waits[i].ByTask? {
        ClientTouches(s, c);
        if s.tasks[i] == NULL {
          var v :| 0 <= v < |s.ws| && Carrying(s.ws[v]) && s.ws[v].id == i && s.ws[v].k == s.waits[i].k;
          assert Carrying(s'.ws[v]) && s'.ws[v].id == i;
        }
      }
    }
  }

  lemma ClientKeepsTable(s: State, c: nat)
    requires Inv(s) && c < |s.cs| && ClientCanStep(s, c)
    ensures LockInv(ClientNext(s, c)) && TableInv(ClientNext(s, c))
  {
    assert ClientScanOk(s, s.cs[c]) && ClientSlotOk(s, c, s.cs[c]);
    ClientKeepsLocks(s, c);
    ClientKeepsSlots(s, c);
    ClientKeepsWorkers(s, c);
    ClientKeepsSoleCarrier(s, c);
    ClientKeepsClientSlots(s, c);
    ClientKeepsHolders(s, c);
  }

  lemma ClientKeepsDone(s: State, c: nat)
    requires LockInv(s) && SlotInv(s) && DoneInv(s) && CallInv(s)
    requires c < |s.cs| && ClientCanStep(s, c) && ClientSlotOk(s, c, s.cs[c])
    requires WellShaped(ClientNext(s, c))
    ensures DoneInv(ClientNext(s, c)) && CallInv(ClientNext(s, c))
  {
    var s' := ClientNext(s, c);
    ClientKeepsCalls(s, c);
    ClientTouches(s, c);
    forall k | 0 <= k < |s'.log| && k !in s'.done
      ensures s'.log[k].slot < MAX_TASKS && s'.waits[s'.log[k].slot] == ByTask(k)
    {
      if k < |s.log| { assert s'.log[k] == s'.log[..|s.log|][k] == s.log[k]; }
    }
    if s.cs[c].CStore? { NewTicket(s); }
  }

  lemma NewTicket(s: State)
    requires WellShaped(s) && DoneInv(s) && CallInv(s)
    ensures |s.log| !in s.done && !Called(s, |s.log|)
  {
    forall j | 0 <= j < |s.calls|
      ensures s.calls[j].ticket != |s.log|
    {
      assert CallOk(s, s.calls[j]);
    }
  }

  lemma ClientKeepsWaits(s: State, c: nat)
    requires LockInv(s) && DoneInv(s) && WaitInv(s) && c < |s.cs| && ClientCanStep(s, c)
    ensures WaitInv(ClientNext(s, c))
  {
  }

  lemma ClientKeepsScan(s: State, c: nat)
    requires LockInv(s) && ScanInv(s) && c < |s.cs| && ClientCanStep(s, c) && ClientSlotOk(s, c, s.cs[c])
    requires WellShaped(ClientNext(s, c))
    ensures ScanInv(ClientNext(s, c))
  {
  }

  /** After a broadcast only the worker between its scan and its sleep can be un-notified. */
  lemma BroadcastLeavesOne(s: State, ws: seq<WorkerPc>)
    requires MtxInv(s) && ws == Wake(s.ws)
    ensures AtMostOneSleeper(s.(ws := ws))
  {
  }

  lemma ClientKeepsWake(s: State, c: nat)
    requires LockInv(s) && WakeInv(s) && c < |s.cs| && ClientCanStep(s, c)
    requires WellShaped(ClientNext(s, c))
    ensures WakeInv(ClientNext(s, c))
  {
    var s' := ClientNext(s, c);
    if s.cs[c].CBroadcast? {
      BroadcastLeavesOne(s, s'.ws);
      assert AtMostOneSleeper(s');
    } else {
      forall i | 0 <= i < MAX_TASKS && s'.tasks[i] != NULL
        ensures Unannounced(s', s'.tick[i]) || AtMostOneSleeper(s')
      {
        if s.cs[c].CStore? && i == s.cs[c].id {
          assert Announcing(s'.cs[c], s'.tick[i]);
        } else if Unannounced(s, s.tick[i]) {
          var d :| 0 <= d < |s.cs| && Announcing(s.cs[d], s.tick[i]);
          assert Announcing(s'.cs[d], s'.tick[i]);
        }
      }
    }
  }

  lemma ClientKeepsInv(s: State, c: nat)
    requires Inv(s) && c < |s.cs| && ClientCanStep(s, c)
    ensures Inv(ClientNext(s, c))
  {
    assert ClientSlotOk(s, c, s.cs[c]);
    ClientKeepsTable(s, c);
    ClientKeepsDone(s, c);
    ClientKeepsWaits(s, c);
    ClientKeepsScan(s, c);
    ClientKeepsWake(s, c);
  }

  // ---- the remaining events ----

  /** Two states that differ only in program counters hold the same shared data. */
  ghost predicate SameShared(s: State, s': State) {
    && s'.mtx == s.mtx && s'.taskMtx == s.taskMtx && s'.waits == s.waits && s'.tasks == s.tasks
    && s'.args == s.args && s'.tick == s.tick && s'.log == s.log && s'.calls == s.calls
    && s'.done == s.done && s'.waited == s.waited
  }

  lemma SpuriousKeepsInv(s: State, w: nat)
    requires Inv(s) && w < |s.ws| && s.ws[w] == WAsleep
    ensures Inv(s.(ws := s.ws[w := WWoken]))
  {
    var s' := s.(ws := s.ws[w := WWoken]);
    assert LockInv(s');
    WorkersSpeakOfShared(s, s');
    HistorySpeaksOfShared(s, s');
    ClientsSpeakOfShared(s, s');
    assert HolderInv(s') by { HoldersStay(s, s'); }
    assert WakeInv(s') by { WakeStays(s, s'); }
  }

  lemma BeginKeepsInv(s: State, c: nat, pc: ClientPc)
    requires Inv(s) && c < |s.cs| && s.cs[c] == CIdle
    requires (pc.CLockAdd? && pc.task != NULL)
          || (pc.CWaitLock? && pc.id < MAX_TASKS && pc.k < |s.log| && s.log[pc.k].slot == pc.id)
    ensures Inv(s.(cs := s.cs[c := pc]))
  {
    var s' := s.(cs := s.cs[c := pc]);
    assert LockInv(s');
    WorkersSpeakOfShared(s, s');
    HistorySpeaksOfShared(s, s');
    ClientsSpeakOfShared(s, s');
    assert HolderInv(s') by { HoldersStay(s, s'); }
    assert WakeInv(s') by { WakeStays(s, s'); }
  }

  lemma WorkersSpeakOfShared(s: State, s': State)
    requires WellShaped(s) && CarryInv(s) && SoleCarrier(s) && ChoiceInv(s) && ScanInv(s)
    requires WellShaped(s') && SameShared(s, s') && |s'.ws| == |s.ws|
    requires forall w :: 0 <= w < |s.ws| ==> s'.ws[w] == s.ws[w] || s'.ws[w] == WWoken
    ensures CarryInv(s') && SoleCarrier(s') && ChoiceInv(s')
    ensures forall w :: 0 <= w < |s'.ws| ==> WorkerScanOk(s', s'.ws[w])
  {
  }

  lemma HistorySpeaksOfShared(s: State, s': State)
    requires WellShaped(s) && DoneInv(s) && CallInv(s) && WellShaped(s') && SameShared(s, s')
    ensures DoneInv(s') && CallInv(s')
  {
  }

  lemma ClientsSpeakOfShared(s: State, s': State)
    requires Inv(s) && WellShaped(s') && SameShared(s, s') && |s'.cs| == |s.cs|
    requires forall c :: 0 <= c < |s.cs| ==>
      (s'.cs[c] == s.cs[c]
      || (s'.cs[c].CLockAdd? && s'.cs[c].task != NULL) || (s'.cs[c].CWaitLock? && WaitOk(s', s'.cs[c])))
    ensures ClientSlotInv(s') && WaitInv(s')
    ensures forall c :: 0 <= c < |s'.cs| ==> ClientScanOk(s', s'.cs[c])
  {
  }

  lemma HoldersStay(s: State, s': State)
    requires WellShaped(s) && HolderInv(s) && WellShaped(s') && SameShared(s, s')
    requires |s'.ws| == |s.ws| && |s'.cs| == |s.cs|
    requires forall w :: 0 <= w < |s.ws| ==> s'.ws[w] == s.ws[w] || s.ws[w] == WAsleep
    requires forall c :: 0 <= c < |s.cs| ==> s'.cs[c] == s.cs[c] || s.cs[c] == CIdle
    ensures HolderInv(s')
  {
    forall i | 0 <= i < MAX_TASKS
      ensures HolderOk(s', i)
    {
      assert HolderOk(s, i);
      if s.waits[i].ByTask? && s.tasks[i] == NULL {
        var v :| 0 <= v < |s.ws| && Carrying(s.ws[v]) && s.ws[v].id == i && s.ws[v].k == s.waits[i].k;
        assert Carrying(s'.ws[v]) && s'.ws[v].id == i;
      }
    }
  }

  lemma WakeStays(s: State, s': State)
    requires WellShaped(s) && WakeInv(s) && WellShaped(s') && SameShared(s, s')
    requires |s'.ws| == |s.ws| && |s'.cs| == |s.cs|
    requires forall w :: 0 <= w < |s.ws| ==> s'.ws[w] == s.ws[w] || s'.ws[w] == WWoken
    requires forall c :: 0 <= c < |s.cs| ==> s'.cs[c] == s.cs[c] || s.cs[c] == CIdle
    ensures WakeInv(s')
  {
  }

  /** The invariant holds after every event. */
  lemma ApplyKeepsInv(s: State, e: Event)
    requires Inv(s) && Enabled(s, e)
    ensures Inv(Apply(s, e))
  {
    match e
    case WorkerStep(w) => WorkerKeepsInv(s, w);
    case ClientStep(c) => ClientKeepsInv(s, c);
    case Spurious(w) => SpuriousKeepsInv(s, w);
    case BeginAdd(c, t, a) => BeginKeepsInv(s, c, CLockAdd(t, a));
    case BeginWait(c, k) => BeginKeepsInv(s, c, CWaitLock(s.log[k].slot, k));
  }

  lemma NextKeepsInv(s: State, s': State)
    requires Inv(s) && Next(s, s')
    ensures Inv(s')
  {
    var e :| Enabled(s, e) && s' == Apply(s, e);
    ApplyKeepsInv(s, e);
  }

  lemma {:induction false} RunKeepsInv(run: seq<State>)
    requires IsRun(run) && Inv(run[0])
    ensures Inv(run[|run| - 1])
  {
    if |run| > 1 {
      NextKeepsInv(run[0], run[1]);
      RunKeepsInv(run[1..]);
    }
  }

  /** The invariant holds in every state of every run, for any number of workers and clients. */
  lemma ReachableInv(s: State, workers: nat, clients: nat)
    requires Reachable(s, workers, clients)
    ensures Inv(s)
  {
    var s0 :| Init(s0, workers, clients) && Leads(s0, s);
    var run :| Connects(run, s0, s);
    InitInv(s0, workers, clients);
    RunKeepsInv(run);
  }
}
