/**
 What every step of the pool keeps.  The invariant is a conjunction of predicates, one per
 concern, and each is shown to be kept by worker steps and by client steps.
 */
module PoolInvariant {
  import opened PoolMachine

  // ---- who holds what, read off the program counters ----

  predicate HoldsMtx(pc: WorkerPc) {
    !(pc.WLockMtx? || pc.WAsleep? || pc.WWoken? || pc.WCall? || pc.WRunning? || pc.WUnlockWait?)
  }

  predicate WorkerHoldsTaskMtx(pc: WorkerPc) {
    pc.WScan? || pc.WUnlockFound? || pc.WUnlockEmpty? || pc.WRead? || pc.WClear? || pc.WUnlockRun?
  }

  predicate ClientHoldsTaskMtx(pc: ClientPc) {
    pc.CScan? || pc.CLockSlot? || pc.CStore? || pc.CUnlockAdd? || pc.CUnlockFull?
  }

  /** The worker has taken ticket `pc.k` out of slot `pc.id` and not yet unlocked `waits[pc.id]`. */
  predicate Carrying(pc: WorkerPc) {
    CarryingUncalled(pc) || pc.WRunning? || pc.WUnlockWait?
  }

  /** The worker has taken a ticket and not called it yet. */
  predicate CarryingUncalled(pc: WorkerPc) {
    pc.WUnlockRun? || pc.WUnlockMtx? || pc.WCall?
  }

  /** The worker has decided on slot `pc.id` and not yet emptied it. */
  predicate Chose(pc: WorkerPc) {
    pc.WUnlockFound? || pc.WLockRun? || pc.WRead? || pc.WClear?
  }

  /** The client has locked `waits[pc.id]` itself. */
  predicate ClientHoldsSlot(pc: ClientPc) {
    pc.CStore? || pc.CWaitUnlock?
  }

  /** The worker found the table empty and is asleep, or bound to sleep, without a notification. */
  predicate Sleeper(pc: WorkerPc) {
    pc.WCondWait? || pc.WAsleep?
  }

  ghost predicate Called(s: State, k: nat) {
    Among(s.calls, k)
  }

  ghost predicate Among(calls: seq<Call>, k: nat) {
    exists j :: 0 <= j < |calls| && calls[j].ticket == k
  }

  // ---- the invariant ----

  ghost predicate MtxInv(s: State) {
    && (forall w :: 0 <= w < |s.ws| ==> (HoldsMtx(s.ws[w]) <==> s.mtx == MtxWorker(w)))
    && (s.mtx.MtxWorker? ==> s.mtx.w < |s.ws|)
  }

  ghost predicate TaskMtxInv(s: State) {
    && (forall w :: 0 <= w < |s.ws| ==> (WorkerHoldsTaskMtx(s.ws[w]) <==> s.taskMtx == TaskWorker(w)))
    && (forall c :: 0 <= c < |s.cs| ==> (ClientHoldsTaskMtx(s.cs[c]) <==> s.taskMtx == TaskClient(c)))
    && (s.taskMtx.TaskWorker? ==> s.taskMtx.w < |s.ws|)
    && (s.taskMtx.TaskClient? ==> s.taskMtx.c < |s.cs|)
  }

  /** A filled slot holds the task and argument of its ticket, and its semaphore; an empty one nothing. */
  ghost predicate SlotInv(s: State)
    requires WellShaped(s)
  {
    && (forall i :: 0 <= i < MAX_TASKS && s.tasks[i] != NULL ==>
          && s.waits[i] == ByTask(s.tick[i])
          && s.tick[i] < |s.log|
          && s.log[s.tick[i]] == Submission(i, s.tasks[i], s.args[i]))
    && (forall i :: 0 <= i < MAX_TASKS && s.tasks[i] == NULL ==> s.args[i] == NULL)
    && (forall k :: 0 <= k < |s.log| ==> s.log[k].slot < MAX_TASKS && s.log[k].task != NULL)
  }

  /** A taken ticket: its slot is empty, its semaphore still its own, the local copies are right. */
  ghost predicate CarryOk(s: State, pc: WorkerPc)
    requires WellShaped(s)
  {
    && (Carrying(pc) ==>
          && pc.id < MAX_TASKS && pc.k < |s.log| && s.log[pc.k].slot == pc.id
          && s.tasks[pc.id] == NULL && s.waits[pc.id] == ByTask(pc.k)
          && (pc.k in s.done <==> pc.WUnlockWait?))
    && (CarryingUncalled(pc) ==> s.log[pc.k] == Submission(pc.id, pc.task, pc.arg) && !Called(s, pc.k))
    && (pc.WRunning? ==> Called(s, pc.k))
  }

  ghost predicate CarryInv(s: State)
    requires WellShaped(s)
  {
    forall w :: 0 <= w < |s.ws| ==> CarryOk(s, s.ws[w])
  }

  /** No two workers are at work on the same slot. */
  ghost predicate SoleCarrier(s: State) {
    forall w, v :: 0 <= w < |s.ws| && 0 <= v < |s.ws| && Carrying(s.ws[w]) && Carrying(s.ws[v]) ==>
      s.ws[w].id == s.ws[v].id ==> w == v
  }

  /** A chosen slot stays filled until the worker that chose it empties it. */
  ghost predicate ChoiceOk(s: State, pc: WorkerPc)
    requires WellShaped(s)
  {
    && (Chose(pc) ==> pc.id < MAX_TASKS && s.tasks[pc.id] != NULL)
    && (pc.WClear? ==> pc.task == s.tasks[pc.id] && pc.arg == s.args[pc.id])
  }

  ghost predicate ChoiceInv(s: State)
    requires WellShaped(s)
  {
    forall w :: 0 <= w < |s.ws| ==> ChoiceOk(s, s.ws[w])
  }

  /** A client's claim on a slot. */
  ghost predicate ClientSlotOk(s: State, c: nat, pc: ClientPc)
    requires WellShaped(s)
  {
    && (ClientHoldsSlot(pc) ==> pc.id < MAX_TASKS && s.waits[pc.id] == ByClient(c))
    && (pc.CLockSlot? ==> pc.id < MAX_TASKS && s.tasks[pc.id] == NULL)
    && (pc.CLockAdd? || pc.CScan? || pc.CLockSlot? || pc.CStore? ==> pc.task != NULL)
  }

  ghost predicate ClientSlotInv(s: State)
    requires WellShaped(s)
  {
    forall c :: 0 <= c < |s.cs| ==> ClientSlotOk(s, c, s.cs[c])
  }

  /** A taken semaphore is a client's, or that of a ticket that is pending or carried. */
  ghost predicate HolderInv(s: State)
    requires WellShaped(s)
  {
    forall i :: 0 <= i < MAX_TASKS ==> HolderOk(s, i)
  }

  ghost predicate HolderOk(s: State, i: nat)
    requires WellShaped(s) && i < MAX_TASKS
  {
    match s.waits[i]
    case Free => true
    case ByClient(c) => c < |s.cs| && ClientHoldsSlot(s.cs[c]) && s.cs[c].id == i
    case ByTask(k) =>
      s.tasks[i] == NULL ==>
        exists w :: 0 <= w < |s.ws| && Carrying(s.ws[w]) && s.ws[w].id == i && s.ws[w].k == k
  }

  /** A ticket that is not done holds the semaphore of its slot. */
  ghost predicate DoneInv(s: State)
    requires WellShaped(s)
  {
    && (forall k :: k in s.done ==> k < |s.log|)
    && (forall k :: 0 <= k < |s.log| && k !in s.done ==>
          s.log[k].slot < MAX_TASKS && s.waits[s.log[k].slot] == ByTask(k))
    && (forall i :: 0 <= i < MAX_TASKS && s.tasks[i] != NULL ==> s.tick[i] !in s.done && !Called(s, s.tick[i]))
  }

  /** Every call is the one its ticket asked for, no ticket is called twice, a done ticket was called. */
  ghost predicate CallInv(s: State) {
    && (forall j :: 0 <= j < |s.calls| ==> CallOk(s, s.calls[j]))
    && (forall i, j :: 0 <= i < j < |s.calls| ==> s.calls[i].ticket != s.calls[j].ticket)
    && (forall k :: k in s.done ==> Called(s, k))
  }

  ghost predicate CallOk(s: State, c: Call) {
    c.ticket < |s.log| && c.task == s.log[c.ticket].task && c.arg == s.log[c.ticket].arg
  }

  /** What the scans have established so far, under `task_mtx`. */
  ghost predicate WorkerScanOk(s: State, pc: WorkerPc)
    requires WellShaped(s)
  {
    && (pc.WScan? ==> pc.i <= MAX_TASKS && forall j :: 0 <= j < pc.i ==> s.tasks[j] == NULL)
    && (pc.WUnlockFound? ==> pc.id <= MAX_TASKS && forall j :: 0 <= j < pc.id ==> s.tasks[j] == NULL)
    && (pc.WUnlockEmpty? ==> forall j :: 0 <= j < MAX_TASKS ==> s.tasks[j] == NULL)
  }

  ghost predicate ClientScanOk(s: State, pc: ClientPc)
    requires WellShaped(s)
  {
    && (pc.CScan? ==> pc.i <= MAX_TASKS && forall j :: 0 <= j < pc.i ==> s.tasks[j] != NULL)
    && (pc.CUnlockFull? ==> forall j :: 0 <= j < MAX_TASKS ==> s.tasks[j] != NULL)
  }

  ghost predicate ScanInv(s: State)
    requires WellShaped(s)
  {
    && (forall w :: 0 <= w < |s.ws| ==> WorkerScanOk(s, s.ws[w]))
    && (forall c :: 0 <= c < |s.cs| ==> ClientScanOk(s, s.cs[c]))
  }

  ghost predicate AtMostOneSleeper(s: State) {
    forall w, v :: 0 <= w < |s.ws| && 0 <= v < |s.ws| && Sleeper(s.ws[w]) && Sleeper(s.ws[v]) ==> w == v
  }

  /** A pending ticket is still to be announced, or at most one worker sleeps through it. */
  ghost predicate WakeInv(s: State)
    requires WellShaped(s)
  {
    forall i :: 0 <= i < MAX_TASKS && s.tasks[i] != NULL ==> Unannounced(s, s.tick[i]) || AtMostOneSleeper(s)
  }

  ghost predicate Unannounced(s: State, k: nat) {
    exists c :: 0 <= c < |s.cs| && Announcing(s.cs[c], k)
  }

  /** Tickets in the hands of clients. */
  ghost predicate WaitInv(s: State) {
    && (forall c :: 0 <= c < |s.cs| ==> WaitOk(s, s.cs[c]))
    && (forall k :: k in s.waited ==> k in s.done)
  }

  ghost predicate WaitOk(s: State, pc: ClientPc) {
    && (pc.CWaitLock? || pc.CWaitUnlock? || pc.CUnlockAdd? || pc.CBroadcast? ==>
          pc.k < |s.log| && s.log[pc.k].slot == pc.id)
    && (pc.CWaitUnlock? ==> pc.k in s.done)
  }

  ghost predicate LockInv(s: State) {
    WellShaped(s) && MtxInv(s) && TaskMtxInv(s)
  }

  ghost predicate TableInv(s: State)
    requires WellShaped(s)
  {
    SlotInv(s) && CarryInv(s) && SoleCarrier(s) && ChoiceInv(s) && ClientSlotInv(s) && HolderInv(s)
  }

  ghost predicate HistoryInv(s: State)
    requires WellShaped(s)
  {
    DoneInv(s) && CallInv(s) && WaitInv(s)
  }

  ghost predicate Inv(s: State) {
    LockInv(s) && TableInv(s) && HistoryInv(s) && ScanInv(s) && WakeInv(s)
  }

  lemma InitInv(s: State, workers: nat, clients: nat)
    requires Init(s, workers, clients)
    ensures Inv(s)
  {
  }

  /** A worker that has emptied a slot took a task out of it: lines 52-53 never return early. */
  lemma NoNullTask(s: State, w: nat)
    requires Inv(s) && w < |s.ws| && s.ws[w].WUnlockRun?
    ensures s.ws[w].task != NULL
  {
  }

  /** How one more call changes the set of called tickets. */
  lemma CalledAfter(s: State, s': State, k: nat)
    requires s'.calls == s.calls || (|s'.calls| == |s.calls| + 1 && s'.calls[..|s.calls|] == s.calls)
    ensures Called(s', k) <==> Called(s, k) || (|s'.calls| > |s.calls| && s'.calls[|s.calls|].ticket == k)
  {
  }
}
