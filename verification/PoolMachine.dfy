/**
 The thread pool of `thread/thread_pool.c` as a transition system.

 Every lock operation, every iteration of the two scanning loops and every access to the
 task table is a step of its own, and the steps of any number of workers and clients
 interleave freely.  A client is a thread that calls `tp_add_task` and `tp_wait_task`.

 `log`, `tick`, `calls`, `done` and `waited`, and the holder written into a taken
 semaphore, are history: no step is enabled or disabled by them.
 */
module PoolMachine {

  const MAX_TASKS: nat := 1024

  /** A C pointer; 0 is `NULL`. */
  type Ptr = nat
  const NULL: Ptr := 0

  /** A task put into the table; its ticket is its position in `State.log`. */
  datatype Submission = Submission(slot: nat, task: Ptr, arg: Ptr)

  /** A call `task(args)` made by a worker. */
  datatype Call = Call(ticket: nat, task: Ptr, arg: Ptr)

  /** Program counter of a worker in `thread_pool_routine`, with its live local variables. */
  datatype WorkerPc =
    | WLockMtx                                        // 68
    | WLockFind                                       // 29
    | WScan(i: nat)                                   // 30-32
    | WUnlockFound(id: nat)                           // 34
    | WUnlockEmpty                                    // 38
    | WCondWait                                       // 81, before the call blocks
    | WAsleep                                         // 81, blocked and not notified
    | WWoken                                          // 81, notified, wants mtx again
    | WLockRun(id: nat)                               // 44
    | WRead(id: nat)                                  // 46-47
    | WClear(id: nat, task: Ptr, arg: Ptr)            // 48-49
    | WUnlockRun(id: nat, task: Ptr, arg: Ptr, k: nat)  // 50-53
    | WUnlockMtx(id: nat, task: Ptr, arg: Ptr, k: nat)  // 55
    | WCall(id: nat, task: Ptr, arg: Ptr, k: nat)       // 58, about to call
    | WRunning(id: nat, k: nat)                         // 58, inside the task
    | WUnlockWait(id: nat, k: nat)                      // 60

  /** Program counter of a client, idle or inside `tp_add_task` or `tp_wait_task`. */
  datatype ClientPc =
    | CIdle
    | CLockAdd(task: Ptr, arg: Ptr)                   // 158
    | CScan(i: nat, task: Ptr, arg: Ptr)              // 159-161
    | CLockSlot(id: nat, task: Ptr, arg: Ptr)         // 163
    | CStore(id: nat, task: Ptr, arg: Ptr)            // 168-169
    | CUnlockAdd(id: nat, k: nat)                     // 171
    | CBroadcast(id: nat, k: nat)                     // 173
    | CUnlockFull(task: Ptr, arg: Ptr)                // 185
    | CExit(task: Ptr, arg: Ptr)                      // 187
    | CWaitLock(id: nat, k: nat)                      // 192
    | CWaitUnlock(id: nat, k: nat)                    // 197

  datatype MtxOwner = MtxFree | MtxWorker(w: nat)
  datatype TaskOwner = TaskFree | TaskWorker(w: nat) | TaskClient(c: nat)

  /** `waits[i]` is locked by one thread and unlocked by another: a binary semaphore. */
  datatype Holder = Free | ByClient(c: nat) | ByTask(k: nat)

  datatype State = State(
    ws: seq<WorkerPc>,
    cs: seq<ClientPc>,
    mtx: MtxOwner,
    taskMtx: TaskOwner,
    waits: seq<Holder>,
    tasks: seq<Ptr>,
    args: seq<Ptr>,
    tick: seq<nat>,          // the ticket last stored in each slot
    log: seq<Submission>,    // every task ever stored, in order
    calls: seq<Call>,        // every call made, in order
    done: set<nat>,          // tickets whose call has returned
    waited: set<nat>,        // tickets for which a tp_wait_task has returned
    exited: bool)            // exit(1) was called

  datatype Event =
    | WorkerStep(w: nat)
    | ClientStep(c: nat)
    | Spurious(w: nat)                              // pthread_cond_wait may return unprompted
    | BeginAdd(c: nat, task: Ptr, arg: Ptr)
    | BeginWait(c: nat, k: nat)                     // wait for the id that submission k returned

  ghost predicate WellShaped(s: State) {
    && |s.waits| == |s.tasks| == |s.args| == |s.tick| == MAX_TASKS
    && (forall w :: 0 <= w < |s.ws| ==> WorkerInRange(s.ws[w]))
    && (forall c :: 0 <= c < |s.cs| ==> ClientInRange(s.cs[c]))
  }

  predicate WorkerInRange(pc: WorkerPc) {
    match pc
    case WScan(i) => i <= MAX_TASKS
    case WUnlockFound(id) => id < MAX_TASKS
    case WLockRun(id) => id < MAX_TASKS
    case WRead(id) => id < MAX_TASKS
    case WClear(id, _, _) => id < MAX_TASKS
    case WUnlockRun(id, _, _, _) => id < MAX_TASKS
    case WUnlockMtx(id, _, _, _) => id < MAX_TASKS
    case WCall(id, _, _, _) => id < MAX_TASKS
    case WRunning(id, _) => id < MAX_TASKS
    case WUnlockWait(id, _) => id < MAX_TASKS
    case _ => true
  }

  predicate ClientInRange(pc: ClientPc) {
    match pc
    case CScan(i, _, _) => i <= MAX_TASKS
    case CLockSlot(id, _, _) => id < MAX_TASKS
    case CStore(id, _, _) => id < MAX_TASKS
    case CUnlockAdd(id, _) => id < MAX_TASKS
    case CBroadcast(id, _) => id < MAX_TASKS
    case CWaitLock(id, _) => id < MAX_TASKS
    case CWaitUnlock(id, _) => id < MAX_TASKS
    case _ => true
  }

  /** An initialised pool (`tp_init` has returned) with idle clients. */
  ghost predicate Init(s: State, workers: nat, clients: nat) {
    && s.ws == seq(workers, _ => WLockMtx)
    && s.cs == seq(clients, _ => CIdle)
    && s.mtx == MtxFree && s.taskMtx == TaskFree
    && s.waits == seq(MAX_TASKS, _ => Free)
    && s.tasks == seq(MAX_TASKS, _ => NULL)
    && s.args == seq(MAX_TASKS, _ => NULL)
    && |s.tick| == MAX_TASKS
    && s.log == [] && s.calls == [] && s.done == {} && s.waited == {} && !s.exited
  }

  /** Whether worker `w` can take its next step; only a lock in other hands or sleep stops it. */
  ghost predicate WorkerCanStep(s: State, w: nat)
    requires w < |s.ws|
  {
    match s.ws[w]
    case WLockMtx => s.mtx.MtxFree?
    case WWoken => s.mtx.MtxFree?
    case WLockFind => s.taskMtx.TaskFree?
    case WLockRun(_) => s.taskMtx.TaskFree?
    case WAsleep => false
    case _ => true
  }

  /** Where the worker goes next. */
  function WorkerGoto(s: State, pc: WorkerPc): WorkerPc
    requires WellShaped(s) && WorkerInRange(pc)
  {
    match pc
    case WLockMtx => WLockFind
    case WLockFind => WScan(0)
    case WScan(i) =>
      if i == MAX_TASKS then WUnlockEmpty
      else if s.tasks[i] != NULL then WUnlockFound(i)
      else WScan(i + 1)
    case WUnlockFound(id) => WLockRun(id)
    case WUnlockEmpty => WCondWait
    case WCondWait => WAsleep
    case WAsleep => WAsleep
    case WWoken => WLockFind
    case WLockRun(id) => WRead(id)
    case WRead(id) => WClear(id, s.tasks[id], s.args[id])
    case WClear(id, t, a) => WUnlockRun(id, t, a, s.tick[id])
    case WUnlockRun(id, t, a, k) =>
      // a NULL task returns to the head of the loop with mtx still held
      if t == NULL then WLockMtx else WUnlockMtx(id, t, a, k)
    case WUnlockMtx(id, t, a, k) => WCall(id, t, a, k)
    case WCall(id, t, a, k) => WRunning(id, k)
    case WRunning(id, k) => WUnlockWait(id, k)
    case WUnlockWait(id, k) => WLockMtx
  }

  /** One step of worker `w`, shared variable by shared variable. */
  function WorkerNext(s: State, w: nat): (s': State)
    requires WellShaped(s) && w < |s.ws|
    ensures |s'.ws| == |s.ws| && |s'.cs| == |s.cs|
  {
    var pc := s.ws[w];
    s.(ws := s.ws[w := WorkerGoto(s, pc)],
       mtx := if pc.WLockMtx? || pc.WWoken? then MtxWorker(w)
              else if pc.WCondWait? || pc.WUnlockMtx? then MtxFree
              else s.mtx,
       taskMtx := if pc.WLockFind? || pc.WLockRun? then TaskWorker(w)
                  else if pc.WUnlockFound? || pc.WUnlockEmpty? || pc.WUnlockRun? then TaskFree
                  else s.taskMtx,
       args := if pc.WClear? then s.args[pc.id := NULL] else s.args,
       tasks := if pc.WClear? then s.tasks[pc.id := NULL] else s.tasks,
       waits := if pc.WUnlockWait? then s.waits[pc.id := Free] else s.waits,
       calls := if pc.WCall? then s.calls + [Call(pc.k, pc.task, pc.arg)] else s.calls,
       done := if pc.WRunning? then s.done + {pc.k} else s.done)
  }

  ghost predicate ClientCanStep(s: State, c: nat)
    requires WellShaped(s) && c < |s.cs|
  {
    match s.cs[c]
    case CIdle => false
    case CLockAdd(_, _) => s.taskMtx.TaskFree?
    case CLockSlot(id, _, _) => s.waits[id].Free?
    case CWaitLock(id, _) => s.waits[id].Free?
    case _ => true
  }

  /** Where the client goes next. */
  function ClientGoto(s: State, pc: ClientPc): ClientPc
    requires WellShaped(s) && ClientInRange(pc)
  {
    match pc
    case CIdle => CIdle
    case CLockAdd(t, a) => CScan(0, t, a)
    case CScan(i, t, a) =>
      if i == MAX_TASKS then CUnlockFull(t, a)
      else if s.tasks[i] == NULL then CLockSlot(i, t, a)
      else CScan(i + 1, t, a)
    case CLockSlot(id, t, a) => CStore(id, t, a)
    case CStore(id, t, a) => CUnlockAdd(id, |s.log|)
    case CUnlockAdd(id, k) => CBroadcast(id, k)
    case CBroadcast(id, k) => CIdle
    case CUnlockFull(t, a) => CExit(t, a)
    case CExit(t, a) => CIdle
    case CWaitLock(id, k) => CWaitUnlock(id, k)
    case CWaitUnlock(id, k) => CIdle
  }

  /** One step of client `c`, shared variable by shared variable. */
  function ClientNext(s: State, c: nat): (s': State)
    requires WellShaped(s) && c < |s.cs|
    ensures |s'.ws| == |s.ws| && |s'.cs| == |s.cs|
  {
    var pc := s.cs[c];
    s.(cs := s.cs[c := ClientGoto(s, pc)],
       ws := if pc.CBroadcast? then Wake(s.ws) else s.ws,
       taskMtx := if pc.CLockAdd? then TaskClient(c)
                  else if pc.CUnlockAdd? || pc.CUnlockFull? then TaskFree
                  else s.taskMtx,
       waits := if pc.CLockSlot? || pc.CWaitLock? then s.waits[pc.id := ByClient(c)]
                else if pc.CStore? then s.waits[pc.id := ByTask(|s.log|)]
                else if pc.CWaitUnlock? then s.waits[pc.id := Free]
                else s.waits,
       tasks := if pc.CStore? then s.tasks[pc.id := pc.task] else s.tasks,
       args := if pc.CStore? then s.args[pc.id := pc.arg] else s.args,
       tick := if pc.CStore? then s.tick[pc.id := |s.log|] else s.tick,
       log := if pc.CStore? then s.log + [Submission(pc.id, pc.task, pc.arg)] else s.log,
       waited := if pc.CWaitUnlock? then s.waited + {pc.k} else s.waited,
       exited := s.exited || pc.CExit?)
  }

  /** `pthread_cond_broadcast`: every worker blocked in `pthread_cond_wait` is notified. */
  function Wake(ws: seq<WorkerPc>): (r: seq<WorkerPc>)
    ensures |r| == |ws|
    ensures forall w :: 0 <= w < |ws| ==> r[w] == if ws[w] == WAsleep then WWoken else ws[w]
  {
    seq(|ws|, w requires 0 <= w < |ws| => if ws[w] == WAsleep then WWoken else ws[w])
  }

  /** Submission `k` has been announced and its id handed back to the caller. */
  ghost predicate Returned(s: State, k: nat) {
    && k < |s.log|
    && forall c :: 0 <= c < |s.cs| ==> !Announcing(s.cs[c], k)
  }

  /** The client has stored ticket `k` and not yet sent its broadcast. */
  predicate Announcing(pc: ClientPc, k: nat) {
    (pc.CUnlockAdd? && pc.k == k) || (pc.CBroadcast? && pc.k == k)
  }

  ghost predicate Enabled(s: State, e: Event)
    requires WellShaped(s)
  {
    && !s.exited
    && match e
       case WorkerStep(w) => w < |s.ws| && WorkerCanStep(s, w)
       case ClientStep(c) => c < |s.cs| && ClientCanStep(s, c)
       case Spurious(w) => w < |s.ws| && s.ws[w] == WAsleep
       case BeginAdd(c, t, a) => c < |s.cs| && s.cs[c] == CIdle && t != NULL
       case BeginWait(c, k) => c < |s.cs| && s.cs[c] == CIdle && Returned(s, k) && s.log[k].slot < MAX_TASKS
  }

  ghost function Apply(s: State, e: Event): State
    requires WellShaped(s) && Enabled(s, e)
  {
    match e
    case WorkerStep(w) => WorkerNext(s, w)
    case ClientStep(c) => ClientNext(s, c)
    case Spurious(w) => s.(ws := s.ws[w := WWoken])
    case BeginAdd(c, t, a) => s.(cs := s.cs[c := CLockAdd(t, a)])
    case BeginWait(c, k) => s.(cs := s.cs[c := CWaitLock(s.log[k].slot, k)])
  }

  ghost predicate Next(s: State, s': State) {
    WellShaped(s) && exists e :: Enabled(s, e) && s' == Apply(s, e)
  }

  ghost predicate IsRun(run: seq<State>) {
    |run| > 0 && forall i :: 0 <= i < |run| - 1 ==> Next(run[i], run[i + 1])
  }

  ghost predicate Connects(run: seq<State>, s: State, s': State) {
    IsRun(run) && run[0] == s && run[|run| - 1] == s'
  }

  /** `s'` is reached from `s` in zero or more steps. */
  ghost predicate Leads(s: State, s': State) {
    exists run :: Connects(run, s, s')
  }

  ghost predicate Reachable(s: State, workers: nat, clients: nat) {
    exists s0 :: Init(s0, workers, clients) && Leads(s0, s)
  }
}
