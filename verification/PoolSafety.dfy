/** What the pool invariant says about tasks: each runs exactly once, and waiting is sound. */
module PoolSafety {
  import opened Common
  import opened PoolMachine
  import opened PoolInvariant
  import opened PoolClientSteps

  /** Ticket `k` sits in the table. */
  ghost predicate Pending(s: State, k: nat)
    requires WellShaped(s)
  {
    exists i :: 0 <= i < MAX_TASKS && s.tasks[i] != NULL && s.tick[i] == k
  }

  /** Some worker has taken ticket `k` and its call has not returned. */
  ghost predicate Running(s: State, k: nat) {
    exists w :: 0 <= w < |s.ws| && RunningAt(s.ws[w], k)
  }

  predicate RunningAt(pc: WorkerPc, k: nat) {
    Carrying(pc) && !pc.WUnlockWait? && pc.k == k
  }

  lemma NotDoneIsPendingOrRunning(s: State, k: nat)
    requires Inv(s) && k < |s.log| && k !in s.done
    ensures Pending(s, k) || Running(s, k)
  {
    var i := s.log[k].slot;
    assert s.waits[i] == ByTask(k);
    assert HolderOk(s, i);
    if s.tasks[i] != NULL {
      assert s.tick[i] == k;
    } else {
      var w :| 0 <= w < |s.ws| && Carrying(s.ws[w]) && s.ws[w].id == i && s.ws[w].k == k;
      assert CarryOk(s, s.ws[w]);
      assert RunningAt(s.ws[w], k);
    }
  }

  lemma PendingIsNotRunning(s: State, k: nat)
    requires Inv(s) && Pending(s, k)
    ensures !Running(s, k) && k !in s.done && k < |s.log|
  {
  }

  lemma RunningIsNotDone(s: State, k: nat)
    requires Inv(s) && Running(s, k)
    ensures k !in s.done
  {
  }

  /**
   Exactly-once execution, in every reachable state: each submitted ticket is in exactly one of
   the stages pending, running and done; a ticket is called at most once, with the task and the
   argument it was submitted with, and a done ticket was called; no two workers share a slot.
   */
  lemma ExactlyOnce(s: State, workers: nat, clients: nat)
    requires Reachable(s, workers, clients)
    ensures WellShaped(s)
    ensures forall k :: 0 <= k < |s.log| ==> ExactlyOneOf(Pending(s, k), Running(s, k), k in s.done)
    ensures forall i, j :: 0 <= i < j < |s.calls| ==> s.calls[i].ticket != s.calls[j].ticket
    ensures forall j :: 0 <= j < |s.calls| ==>
      var c := s.calls[j]; c.ticket < |s.log| && c.task == s.log[c.ticket].task && c.arg == s.log[c.ticket].arg
    ensures forall k :: k in s.done ==> Called(s, k)
    ensures forall k :: 0 <= k < |s.log| && Pending(s, k) ==> !Called(s, k)
    ensures SoleCarrier(s)
  {
    ReachableInv(s, workers, clients);
    forall k | 0 <= k < |s.log|
      ensures ExactlyOneOf(Pending(s, k), Running(s, k), k in s.done)
    {
      if k !in s.done { NotDoneIsPendingOrRunning(s, k); }
      if Pending(s, k) { PendingIsNotRunning(s, k); }
      if Running(s, k) { RunningIsNotDone(s, k); }
    }
    forall j | 0 <= j < |s.calls|
      ensures CallOk(s, s.calls[j])
    {
    }
  }

  /**
   Waiting is sound under slot reuse: at the moment `tp_wait_task(id)` gets `waits[id]`, every
   task that was ever put into slot `id` has completed.
   */
  lemma WaitSafety(s: State, workers: nat, clients: nat, c: nat)
    requires Reachable(s, workers, clients)
    requires WellShaped(s) && c < |s.cs| && s.cs[c].CWaitLock? && ClientCanStep(s, c)
    ensures forall k :: 0 <= k < |s.log| && s.log[k].slot == s.cs[c].id ==> k in s.done && Called(s, k)
  {
    ReachableInv(s, workers, clients);
  }

  // ---- all tasks waited for ----

  /** What was asked for and what was done, as task and argument, without tickets. */
  function Submitted(log: seq<Submission>): seq<(Ptr, Ptr)> {
    seq(|log|, i requires 0 <= i < |log| => (log[i].task, log[i].arg))
  }

  function Executed(calls: seq<Call>): seq<(Ptr, Ptr)> {
    seq(|calls|, i requires 0 <= i < |calls| => (calls[i].task, calls[i].arg))
  }

  lemma ExecutedWithout(calls: seq<Call>, j: nat)
    requires j < |calls|
    ensures multiset(Executed(calls)) ==
            multiset(Executed(calls[..j] + calls[j + 1..])) + multiset{(calls[j].task, calls[j].arg)}
  {
    var x := Executed(calls);
    assert x == x[..j] + [x[j]] + x[j + 1..];
    assert Executed(calls[..j] + calls[j + 1..]) == x[..j] + x[j + 1..];
  }

  ghost predicate Answers(log: seq<Submission>, calls: seq<Call>) {
    && (forall i, j :: 0 <= i < j < |calls| ==> calls[i].ticket != calls[j].ticket)
    && (forall j :: 0 <= j < |calls| ==> calls[j].ticket < |log|)
    && (forall j :: 0 <= j < |calls| ==> calls[j].task == log[calls[j].ticket].task)
    && (forall j :: 0 <= j < |calls| ==> calls[j].arg == log[calls[j].ticket].arg)
    && (forall k :: 0 <= k < |log| ==> Among(calls, k))
  }

  lemma AnswersWithoutLast(log: seq<Submission>, calls: seq<Call>, j: nat)
    requires Answers(log, calls) && |log| > 0 && j < |calls| && calls[j].ticket == |log| - 1
    ensures Answers(log[..|log| - 1], calls[..j] + calls[j + 1..])
  {
    var rest := calls[..j] + calls[j + 1..];
    forall i | 0 <= i < |rest|
      ensures rest[i] == calls[if i < j then i else i + 1] && rest[i].ticket != |log| - 1
    {
      var i' := if i < j then i else i + 1;
      assert rest[i] == calls[i'] && calls[i'].ticket != calls[j].ticket;
    }
    forall k | 0 <= k < |log| - 1
      ensures Among(rest, k)
    {
      assert Among(calls, k);
      var i :| 0 <= i < |calls| && calls[i].ticket == k;
      assert rest[if i < j then i else i - 1].ticket == k;
    }
  }

  lemma CallsNeedTickets(log: seq<Submission>, calls: seq<Call>)
    requires Answers(log, calls) && calls != []
    ensures log != []
  {
    assert calls[0].ticket < |log|;
  }

  /** Calls that carry each of the first `|log|` tickets once are a permutation of the log. */
  lemma {:induction false} EveryTicketOnce(log: seq<Submission>, calls: seq<Call>)
    requires Answers(log, calls)
    ensures multiset(Executed(calls)) == multiset(Submitted(log))
  {
    if calls != [] { CallsNeedTickets(log, calls); }
    if log != [] {
      var n := |log| - 1;
      assert Among(calls, n);
      var j :| 0 <= j < |calls| && calls[j].ticket == n;
      AnswersWithoutLast(log, calls, j);
      EveryTicketOnce(log[..n], calls[..j] + calls[j + 1..]);
      ExecutedWithout(calls, j);
      assert Submitted(log) == Submitted(log[..n]) + [(log[n].task, log[n].arg)];
    }
  }

  /**
   The program's `main`: once a `tp_wait_task` has returned for every submitted task, nothing is
   pending or running, and the calls made are exactly the submitted ones, each once.
   */
  lemma MainDone(s: State, workers: nat, clients: nat)
    requires Reachable(s, workers, clients)
    requires forall k :: 0 <= k < |s.log| ==> k in s.waited
    ensures WellShaped(s)
    ensures forall k :: 0 <= k < |s.log| ==> k in s.done && !Pending(s, k) && !Running(s, k)
    ensures forall i :: 0 <= i < MAX_TASKS ==> s.tasks[i] == NULL
    ensures multiset(Executed(s.calls)) == multiset(Submitted(s.log))
  {
    ReachableInv(s, workers, clients);
    ExactlyOnce(s, workers, clients);
    forall j | 0 <= j < |s.calls| ensures CallOk(s, s.calls[j]) { }
    forall k | 0 <= k < |s.log|
      ensures k in s.done && Among(s.calls, k)
    {
      assert Called(s, k);
    }
    EveryTicketOnce(s.log, s.calls);
  }

  /** The task table changes only in a step of the thread that holds `task_mtx`. */
  lemma TableOnlyUnderLock(s: State, workers: nat, clients: nat, e: Event)
    requires Reachable(s, workers, clients) && WellShaped(s) && Enabled(s, e)
    requires Apply(s, e).tasks != s.tasks || Apply(s, e).args != s.args
    ensures (e.WorkerStep? && s.taskMtx == TaskWorker(e.w)) || (e.ClientStep? && s.taskMtx == TaskClient(e.c))
  {
    ReachableInv(s, workers, clients);
  }

  /** Client `c` has found every slot filled and still holds `task_mtx`. */
  ghost predicate FoundFull(s: State, c: nat) {
    && WellShaped(s) && c < |s.cs| && s.cs[c].CUnlockFull? && s.taskMtx == TaskClient(c)
    && forall i :: 0 <= i < MAX_TASKS ==> s.tasks[i] != NULL
  }

  /** In state `k` of the run client `c` found the table full, and up to state `j` it has only unlocked. */
  ghost predicate GivesUp(run: seq<State>, c: nat, k: nat, j: nat)
    requires k <= j < |run|
  {
    FoundFull(run[k], c) && forall m :: k < m <= j ==> c < |run[m].cs| && run[m].cs[c].CExit?
  }

  /** A client is about to exit only if it was so before the step, or had found the table full. */
  ghost predicate ExitIsFounded(s: State, s': State, c: nat) {
    c < |s'.cs| && s'.cs[c].CExit? ==> c < |s.cs| && (s.cs[c].CExit? || FoundFull(s, c))
  }

  lemma {:induction false} ExitComesFrom(run: seq<State>, c: nat, j: nat) returns (k: nat)
    requires j < |run| && c < |run[j].cs| && run[j].cs[c].CExit?
    requires c < |run[0].cs| ==> !run[0].cs[c].CExit?
    requires forall m :: 0 <= m < |run| - 1 ==> ExitIsFounded(run[m], run[m + 1], c)
    ensures k < j && GivesUp(run, c, k, j)
    decreases j
  {
    assert ExitIsFounded(run[j - 1], run[j], c);
    if run[j - 1].cs[c].CExit? {
      k := ExitComesFrom(run, c, j - 1);
    } else {
      k := j - 1;
    }
  }

  lemma OnlyFullExits(s: State, e: Event, c: nat)
    requires Inv(s) && Enabled(s, e)
    ensures ExitIsFounded(s, Apply(s, e), c)
  {
    match e
    case WorkerStep(w) =>
    case ClientStep(d) => if d == c { assert ClientScanOk(s, s.cs[c]); }
    case Spurious(w) =>
    case BeginAdd(d, t, a) =>
    case BeginWait(d, k) =>
  }

  lemma PrefixInv(run: seq<State>, j: nat)
    requires IsRun(run) && Inv(run[0]) && j < |run|
    ensures Inv(run[j])
  {
    var front := run[..j + 1];
    forall i | 0 <= i < j
      ensures Next(front[i], front[i + 1])
    {
      assert Next(run[i], run[i + 1]);
    }
    RunKeepsInv(front);
  }

  /**
   Over every run that ends in "too much tasks": some client found every slot filled at one moment,
   holding `task_mtx`, and from then on only released it and exited.
   */
  lemma ExitsOnlyWhenFull(run: seq<State>, workers: nat, clients: nat) returns (c: nat, k: nat)
    requires IsRun(run) && Init(run[0], workers, clients) && run[|run| - 1].exited
    ensures k < |run| - 2 && GivesUp(run, c, k, |run| - 2)
  {
    InitInv(run[0], workers, clients);
    var j := |run| - 2;
    assert Next(run[j], run[j + 1]);
    c := ExitStep(run[j], run[j + 1]);
    forall m | 0 <= m < |run| - 1
      ensures ExitIsFounded(run[m], run[m + 1], c)
    {
      PrefixInv(run, m);
      assert Next(run[m], run[m + 1]);
      var e :| Enabled(run[m], e) && run[m + 1] == Apply(run[m], e);
      OnlyFullExits(run[m], e, c);
    }
    k := ExitComesFrom(run, c, j);
  }

  lemma ExitStep(s: State, s': State) returns (c: nat)
    requires Next(s, s') && s'.exited
    ensures c < |s.cs| && s.cs[c].CExit?
  {
    var e :| Enabled(s, e) && s' == Apply(s, e);
    c := e.c;
  }

  lemma {:induction false} HistoryGrowsOverRun(run: seq<State>)
    requires IsRun(run)
    ensures var s, s' := run[0], run[|run| - 1];
      s.done <= s'.done && s.log <= s'.log && s.calls <= s'.calls && s.waited <= s'.waited
  {
    if |run| > 1 {
      assert Next(run[0], run[1]);
      HistoryGrowsOverRun(run[1..]);
    }
  }

  /** Completed work stays completed: in every later state the history only has grown. */
  lemma HistoryGrows(s: State, s': State)
    requires Leads(s, s')
    ensures s.done <= s'.done && s.log <= s'.log && s.calls <= s'.calls && s.waited <= s'.waited
  {
    var run :| Connects(run, s, s');
    HistoryGrowsOverRun(run);
  }
}
