/**
 The countdown table of `signal/anytimer.c`, one function per routine.

 `uid`, `jobs`, `fired`, `cancelled` and `now` are history.  A callback is the list of table
 operations it performs; since a job fires at most once, indexing callbacks by the job's
 number lets every firing behave in its own way.
 */
module TimerSpec {
  import opened Slots

  const MAX_TASKS: nat := 1024

  datatype Task = Task(sec: int, func: nat, arg: nat, pos: nat, uid: nat)

  datatype Op = Add(sec: int, func: nat, arg: nat) | Cancel(id: nat)

  type Callbacks = nat -> seq<Op>

  /**
   A job as it was added: in tick `born`, when the slots below `pos` had had their turn.  Between
   ticks that is every slot, in the callback of the job in slot `i` it is the slots up to `i`.
   */
  datatype Job = Job(sec: int, func: nat, arg: nat, slot: nat, born: nat, pos: nat)

  datatype Firing = Firing(uid: nat, tick: nat, func: nat, arg: nat)

  datatype State = State(
    tasks: seq<Option<Task>>,
    now: nat,               // ticks begun so far
    jobs: seq<Job>,
    fired: seq<Firing>,
    cancelled: set<nat>,
    doubleFree: bool)       // a callback cancelled its own job

  ghost predicate Shaped(s: State) {
    |s.tasks| == MAX_TASKS
  }

  ghost predicate Empty(s: State) {
    && s.tasks == seq(MAX_TASKS, _ => None)
    && s.now == 0 && s.jobs == [] && s.fired == [] && s.cancelled == {} && !s.doubleFree
  }

  /**
   The tick on which a job should fire that is put into `slot` while the slots below `pos` have
   had their turn in tick `now`: a slot still to come counts the current tick.
   */
  function Due(now: nat, pos: nat, slot: nat, sec: int): int {
    if slot < pos then now + sec else now + sec - 1
  }

  function Deadline(job: Job): int {
    Due(job.born, job.pos, job.slot, job.sec)
  }

  /** The store of `at_add_job` into slot `id`, with the first `pos` slots visited in the current tick. */
  function StoreJob(s: State, id: nat, pos: nat, sec: int, func: nat, arg: nat): (s': State)
    requires Shaped(s) && id < MAX_TASKS
    ensures Shaped(s')
  {
    s.(tasks := s.tasks[id := Some(Task(sec, func, arg, id, |s.jobs|))],
       jobs := s.jobs + [Job(sec, func, arg, id, s.now, pos)])
  }

  /** `at_add_job`, uninterrupted. */
  function AddJob(s: State, pos: nat, sec: int, func: nat, arg: nat): (r: (State, int))
    requires Shaped(s)
    ensures Shaped(r.0) && r.1 == FreePos(s.tasks, 0)
  {
    var id := FreePos(s.tasks, 0);
    if id < 0 then (s, id) else (StoreJob(s, id, pos, sec, func, arg), id)
  }

  /** `at_cancel_job`; an id outside the table is outside the program's meaning and does nothing here. */
  function CancelJob(s: State, id: nat): (s': State)
    requires Shaped(s)
    ensures Shaped(s')
  {
    if id >= MAX_TASKS || s.tasks[id].None? then s
    else s.(tasks := s.tasks[id := None], cancelled := s.cancelled + {s.tasks[id].value.uid})
  }

  /** One operation of the callback of the job in slot `i`. */
  function RunOp(s: State, i: nat, op: Op): (s': State)
    requires Shaped(s)
    ensures Shaped(s')
  {
    match op
    case Add(sec, func, arg) => AddJob(s, i + 1, sec, func, arg).0
    case Cancel(id) => if id == i then s.(doubleFree := true) else CancelJob(s, id)
  }

  function RunOps(s: State, i: nat, ops: seq<Op>): (s': State)
    requires Shaped(s)
    ensures Shaped(s')
    decreases |ops|
  {
    if ops == [] then s else RunOps(RunOp(s, i, ops[0]), i, ops[1..])
  }

  /** The body of the loop of `handle` for slot `i`. */
  function Visit(s: State, i: nat, cb: Callbacks): (s': State)
    requires Shaped(s) && i < MAX_TASKS
    ensures Shaped(s')
  {
    match s.tasks[i]
    case None => s
    case Some(t) =>
      var t' := t.(sec := t.sec - 1);
      var s1 := s.(tasks := s.tasks[i := Some(t')]);
      if t'.sec != 0 then s1
      else
        var s2 := s1.(fired := s1.fired + [Firing(t.uid, s.now, t.func, t.arg)]);
        var s3 := RunOps(s2, i, cb(t.uid));
        s3.(tasks := s3.tasks[i := None])
  }

  function Scan(s: State, i: nat, cb: Callbacks): (s': State)
    requires Shaped(s) && i <= MAX_TASKS
    ensures Shaped(s')
    decreases |s.tasks| - i
  {
    if i == MAX_TASKS then s else Scan(Visit(s, i, cb), i + 1, cb)
  }

  /** `handle`: one tick. */
  function Tick(s: State, cb: Callbacks): (s': State)
    requires Shaped(s)
    ensures Shaped(s')
  {
    Scan(s.(now := s.now + 1), 0, cb)
  }

  datatype Event = EAdd(sec: int, func: nat, arg: nat) | ECancel(id: nat) | ETick(cb: Callbacks)

  function Step(s: State, e: Event): (s': State)
    requires Shaped(s)
    ensures Shaped(s')
  {
    match e
    case EAdd(sec, func, arg) => AddJob(s, MAX_TASKS, sec, func, arg).0
    case ECancel(id) => CancelJob(s, id)
    case ETick(cb) => Tick(s, cb)
  }

  function Run(s: State, es: seq<Event>): (s': State)
    requires Shaped(s)
    ensures Shaped(s')
    decreases |es|
  {
    if es == [] then s else Step(Run(s, es[..|es| - 1]), es[|es| - 1])
  }
}
