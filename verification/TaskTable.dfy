/**
 The task table of `thread/thread_pool.c` itself: the loops and assignments that run while
 `task_mtx` is held, on arrays updated in place.
 */
module TaskTable {
  import opened PoolMachine
  import opened PoolInvariant
  import opened PoolClientSteps

  /** The first slot from `i` on that holds a task, or -1. */
  function FirstFilled(tasks: seq<Ptr>, i: nat): (r: int)
    ensures -1 <= r < |tasks|
    ensures r >= 0 ==> i <= r && tasks[r] != NULL && forall j :: i <= j < r ==> tasks[j] == NULL
    ensures r < 0 ==> forall j :: i <= j < |tasks| ==> tasks[j] == NULL
    decreases |tasks| - i
  {
    if i >= |tasks| then -1 else if tasks[i] != NULL then i else FirstFilled(tasks, i + 1)
  }

  /** The first slot from `i` on that is free, or -1. */
  function FirstEmpty(tasks: seq<Ptr>, i: nat): (r: int)
    ensures -1 <= r < |tasks|
    ensures r >= 0 ==> i <= r && tasks[r] == NULL && forall j :: i <= j < r ==> tasks[j] != NULL
    ensures r < 0 ==> forall j :: i <= j < |tasks| ==> tasks[j] != NULL
    decreases |tasks| - i
  {
    if i >= |tasks| then -1 else if tasks[i] == NULL then i else FirstEmpty(tasks, i + 1)
  }

  class Table {
    const tasks: array<Ptr>
    const args: array<Ptr>

    ghost predicate Valid() {
      tasks.Length == args.Length == MAX_TASKS && tasks != args
    }

    constructor ()
      ensures Valid() && fresh(tasks) && fresh(args)
      ensures tasks[..] == args[..] == seq(MAX_TASKS, _ => NULL)
    {
      tasks := new Ptr[MAX_TASKS](_ => NULL);
      args := new Ptr[MAX_TASKS](_ => NULL);
    }

    /** The locked part of `find_task_lock`. */
    method Find() returns (r: int)
      requires Valid()
      ensures r == FirstFilled(tasks[..], 0)
    {
      var i := 0;
      while i < MAX_TASKS
        invariant 0 <= i <= MAX_TASKS
        invariant FirstFilled(tasks[..], 0) == FirstFilled(tasks[..], i)
      {
        if tasks[i] != NULL { return i; }
        i := i + 1;
      }
      return -1;
    }

    /** The locked part of `run_task_lock`. */
    method Take(id: nat) returns (task: Ptr, arg: Ptr)
      requires Valid() && id < MAX_TASKS
      modifies tasks, args
      ensures Valid() && task == old(tasks[id]) && arg == old(args[id])
      ensures tasks[..] == old(tasks[..])[id := NULL] && args[..] == old(args[..])[id := NULL]
    {
      task := tasks[id];
      arg := args[id];
      args[id] := NULL;
      tasks[id] := NULL;
    }

    /** The locked part of `tp_add_task`; a negative result is the exit for a full table. */
    method Put(task: Ptr, arg: Ptr) returns (r: int)
      requires Valid()
      modifies tasks, args
      ensures Valid() && r == FirstEmpty(old(tasks[..]), 0)
      ensures r < 0 ==> tasks[..] == old(tasks[..]) && args[..] == old(args[..])
      ensures r >= 0 ==> tasks[..] == old(tasks[..])[r := task] && args[..] == old(args[..])[r := arg]
    {
      var i := 0;
      while i < MAX_TASKS
        invariant 0 <= i <= MAX_TASKS
        invariant FirstEmpty(tasks[..], 0) == FirstEmpty(tasks[..], i)
        invariant tasks[..] == old(tasks[..]) && args[..] == old(args[..])
      {
        if tasks[i] == NULL {
          tasks[i] := task;
          args[i] := arg;
          return i;
        }
        i := i + 1;
      }
      return -1;
    }
  }

  /**
   The interleaved scans of the pool find what the loops find: in every reachable state a worker
   about to leave its scan has the first filled slot, or knows that there is none.
   */
  lemma ScanFinds(s: State, workers: nat, clients: nat, w: nat)
    requires Reachable(s, workers, clients) && w < |s.ws|
    ensures WellShaped(s)
    ensures s.ws[w].WUnlockFound? ==> s.ws[w].id == FirstFilled(s.tasks, 0)
    ensures s.ws[w].WUnlockEmpty? ==> FirstFilled(s.tasks, 0) == -1
  {
    ReachableInv(s, workers, clients);
    assert WorkerScanOk(s, s.ws[w]) && ChoiceOk(s, s.ws[w]);
  }
}
