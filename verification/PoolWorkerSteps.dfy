/** Every step of a worker keeps the pool invariant. */
module PoolWorkerSteps {
  import opened PoolMachine
  import opened PoolInvariant

  lemma WorkerKeepsMtx(s: State, w: nat)
    requires WellShaped(s) && MtxInv(s) && w < |s.ws| && WorkerCanStep(s, w)
    requires s.ws[w].WUnlockRun? ==> s.ws[w].task != NULL
    ensures WellShaped(WorkerNext(s, w)) && MtxInv(WorkerNext(s, w))
  {
  }

  lemma WorkerKeepsTaskMtx(s: State, w: nat)
    requires WellShaped(s) && TaskMtxInv(s) && w < |s.ws| && WorkerCanStep(s, w)
    ensures TaskMtxInv(WorkerNext(s, w))
  {
  }

  lemma WorkerKeepsLocks(s: State, w: nat)
    requires Inv(s) && w < |s.ws| && WorkerCanStep(s, w)
    ensures LockInv(WorkerNext(s, w))
  {
    if s.ws[w].WUnlockRun? { NoNullTask(s, w); }
    WorkerKeepsMtx(s, w);
    WorkerKeepsTaskMtx(s, w);
  }

  lemma WorkerKeepsSlots(s: State, w: nat)
    requires WellShaped(s) && SlotInv(s) && w < |s.ws| && WorkerCanStep(s, w) && CarryOk(s, s.ws[w])
    requires WellShaped(WorkerNext(s, w))
    ensures SlotInv(WorkerNext(s, w))
  {
  }

  /** Different workers carry different tickets. */
  lemma DistinctTickets(s: State, w: nat, v: nat)
    requires WellShaped(s) && SoleCarrier(s) && w < |s.ws| && v < |s.ws| && w != v
    requires CarryOk(s, s.ws[w]) && CarryOk(s, s.ws[v]) && Carrying(s.ws[w]) && Carrying(s.ws[v])
    ensures s.ws[w].k != s.ws[v].k && s.ws[w].id != s.ws[v].id
  {
  }

  /** A step of worker `w` does not disturb what another worker carries. */
  lemma WorkerLeavesCarried(s: State, w: nat, v: nat)
    requires WellShaped(s) && SoleCarrier(s) && w < |s.ws| && v < |s.ws| && w != v && WorkerCanStep(s, w)
    requires CarryOk(s, s.ws[w]) && CarryOk(s, s.ws[v])
    requires WellShaped(WorkerNext(s, w))
    ensures CarryOk(WorkerNext(s, w), s.ws[v])
  {
    var s' := WorkerNext(s, w);
    if Carrying(s.ws[v]) {
      if Carrying(s.ws[w]) { DistinctTickets(s, w, v); }
      CalledAfter(s, s', s.ws[v].k);
    }
  }

  lemma WorkerCarriesOn(s: State, w: nat)
    requires WellShaped(s) && SlotInv(s) && DoneInv(s) && w < |s.ws| && WorkerCanStep(s, w)
    requires CarryOk(s, s.ws[w]) && ChoiceOk(s, s.ws[w])
    requires WellShaped(WorkerNext(s, w))
    ensures CarryOk(WorkerNext(s, w), WorkerNext(s, w).ws[w])
  {
    var s' := WorkerNext(s, w);
    if s.ws[w].WCall? {
      assert s'.calls[|s.calls|].ticket == s.ws[w].k;
    }
  }

  lemma WorkerKeepsCarry(s: State, w: nat)
    requires Inv(s) && w < |s.ws| && WorkerCanStep(s, w)
    requires WellShaped(WorkerNext(s, w))
    ensures CarryInv(WorkerNext(s, w))
  {
    var s' := WorkerNext(s, w);
    assert CarryOk(s, s.ws[w]) && ChoiceOk(s, s.ws[w]);
    WorkerCarriesOn(s, w);
    forall v | 0 <= v < |s'.ws|
      ensures CarryOk(s', s'.ws[v])
    {
      if v != w {
        assert CarryOk(s, s.ws[v]);
        WorkerLeavesCarried(s, w, v);
      }
    }
  }

  lemma WorkerKeepsSoleCarrier(s: State, w: nat)
    requires WellShaped(s) && SoleCarrier(s) && CarryInv(s) && w < |s.ws| && WorkerCanStep(s, w)
    requires ChoiceOk(s, s.ws[w])
    ensures SoleCarrier(WorkerNext(s, w))
  {
    assert CarryOk(s, s.ws[w]);
    var s' := WorkerNext(s, w);
    assert s'.ws == s.ws[w := s'.ws[w]];
  }

  lemma WorkerKeepsChoice(s: State, w: nat)
    requires WellShaped(s) && MtxInv(s) && ChoiceInv(s) && w < |s.ws| && WorkerCanStep(s, w)
    requires WellShaped(WorkerNext(s, w))
    ensures ChoiceInv(WorkerNext(s, w))
  {
  }

  lemma WorkerKeepsClientSlots(s: State, w: nat)
    requires WellShaped(s) && ClientSlotInv(s) && w < |s.ws| && WorkerCanStep(s, w) && CarryOk(s, s.ws[w])
    requires WellShaped(WorkerNext(s, w))
    ensures ClientSlotInv(WorkerNext(s, w))
  {
  }

  lemma WorkerKeepsHolders(s: State, w: nat)
    requires WellShaped(s) && SlotInv(s) && HolderInv(s) && w < |s.ws| && WorkerCanStep(s, w)
    requires CarryOk(s, s.ws[w]) && ChoiceOk(s, s.ws[w])
    requires s.ws[w].WUnlockRun? ==> s.ws[w].task != NULL
    requires WellShaped(WorkerNext(s, w))
    ensures HolderInv(WorkerNext(s, w))
  {
    var s' := WorkerNext(s, w);
    assert s'.ws == s.ws[w := s'.ws[w]];
    forall i | 0 <= i < MAX_TASKS
      ensures HolderOk(s', i)
    {
      assert HolderOk(s, i);
      if s'.waits[i].ByTask? && s'.tasks[i] == NULL {
        if s.tasks[i] == NULL {
          var v :| 0 <= v < |s.ws| && Carrying(s.ws[v]) && s.ws[v].id == i && s.ws[v].k == s.waits[i].k;
          assert Carrying(s'.ws[v]) && s'.ws[v].id == i;
        } else {
          assert Carrying(s'.ws[w]) && s'.ws[w].id == i;
        }
      }
    }
  }

  lemma WorkerKeepsTable(s: State, w: nat)
    requires Inv(s) && w < |s.ws| && WorkerCanStep(s, w)
    ensures LockInv(WorkerNext(s, w)) && TableInv(WorkerNext(s, w))
  {
    WorkerKeepsLocks(s, w);
    assert CarryOk(s, s.ws[w]) && ChoiceOk(s, s.ws[w]);
    if s.ws[w].WUnlockRun? { NoNullTask(s, w); }
    WorkerKeepsSlots(s, w);
    WorkerKeepsCarry(s, w);
    WorkerKeepsSoleCarrier(s, w);
    WorkerKeepsChoice(s, w);
    WorkerKeepsClientSlots(s, w);
    WorkerKeepsHolders(s, w);
  }

  lemma WorkerKeepsDone(s: State, w: nat)
    requires WellShaped(s) && DoneInv(s) && SlotInv(s) && w < |s.ws| && WorkerCanStep(s, w) && CarryOk(s, s.ws[w])
    requires WellShaped(WorkerNext(s, w))
    ensures DoneInv(WorkerNext(s, w))
  {
    var s' := WorkerNext(s, w);
    forall i | 0 <= i < MAX_TASKS && s'.tasks[i] != NULL
      ensures s'.tick[i] !in s'.done && !Called(s', s'.tick[i])
    {
      var k := s.tick[i];
      assert s.tasks[i] != NULL && s'.tick[i] == k;
      CalledAfter(s, s', k);
    }
  }

  lemma WorkerKeepsCalls(s: State, w: nat)
    requires WellShaped(s) && CallInv(s) && w < |s.ws| && WorkerCanStep(s, w) && CarryOk(s, s.ws[w])
    ensures CallInv(WorkerNext(s, w))
  {
    var s' := WorkerNext(s, w);
    forall k | k in s'.done
      ensures Called(s', k)
    {
      CalledAfter(s, s', k);
    }
    forall j | 0 <= j < |s'.calls|
      ensures CallOk(s', s'.calls[j])
    {
      if j < |s.calls| { assert CallOk(s, s.calls[j]); }
    }
  }

  lemma WorkerKeepsWaits(s: State, w: nat)
    requires WellShaped(s) && WaitInv(s) && w < |s.ws| && WorkerCanStep(s, w)
    ensures WaitInv(WorkerNext(s, w))
  {
  }

  lemma WorkerKeepsHistory(s: State, w: nat)
    requires Inv(s) && w < |s.ws| && WorkerCanStep(s, w)
    requires WellShaped(WorkerNext(s, w))
    ensures HistoryInv(WorkerNext(s, w))
  {
    assert CarryOk(s, s.ws[w]);
    WorkerKeepsDone(s, w);
    WorkerKeepsCalls(s, w);
    WorkerKeepsWaits(s, w);
  }

  lemma WorkerKeepsScan(s: State, w: nat)
    requires LockInv(s) && ScanInv(s) && w < |s.ws| && WorkerCanStep(s, w)
    requires WellShaped(WorkerNext(s, w))
    ensures ScanInv(WorkerNext(s, w))
  {
  }

  lemma WorkerKeepsWake(s: State, w: nat)
    requires WellShaped(s) && ScanInv(s) && WakeInv(s) && w < |s.ws| && WorkerCanStep(s, w)
    requires WellShaped(WorkerNext(s, w))
    ensures WakeInv(WorkerNext(s, w))
  {
  }

  lemma WorkerKeepsInv(s: State, w: nat)
    requires Inv(s) && w < |s.ws| && WorkerCanStep(s, w)
    ensures Inv(WorkerNext(s, w))
  {
    WorkerKeepsTable(s, w);
    WorkerKeepsHistory(s, w);
    WorkerKeepsScan(s, w);
    WorkerKeepsWake(s, w);
  }
}
