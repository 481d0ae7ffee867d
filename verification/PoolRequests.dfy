/**
 What the callers of `tp_add_task` ask for is what the pool stores and, in the end, calls: the pairs
 of task and argument passed in are compared with the log and with the calls.
 */
module PoolRequests {
  import opened PoolMachine
  import opened PoolInvariant
  import opened PoolSafety
  import opened PoolProgress

  type Pairs = multiset<(Ptr, Ptr)>

  /** The pairs passed to `tp_add_task`. */
  function Asked(es: seq<Event>): Pairs {
    if es == [] then multiset{}
    else Asked(es[..|es| - 1]) + AskedBy(es[|es| - 1])
  }

  function AskedBy(e: Event): Pairs {
    if e.BeginAdd? then multiset{(e.task, e.arg)} else multiset{}
  }

  /** The call has not stored its pair. */
  predicate Holding(pc: ClientPc) {
    pc.CLockAdd? || pc.CScan? || pc.CLockSlot? || pc.CStore? || pc.CUnlockFull? || pc.CExit?
  }

  function HeldBy(pc: ClientPc): Pairs {
    if Holding(pc) then multiset{(pc.task, pc.arg)} else multiset{}
  }

  function Held(cs: seq<ClientPc>): Pairs {
    if cs == [] then multiset{} else HeldBy(cs[0]) + Held(cs[1..])
  }

  /** A change of what is held, and of what is stored, by the same amount. */
  lemma Balance(stored: Pairs, stored': Pairs, held: Pairs, held': Pairs, before: Pairs, after: Pairs, dropped: Pairs)
    requires held' + before == held + after && stored' + after + dropped == stored + before
    ensures stored' + held' + dropped == stored + held
  {
    forall p
      ensures (stored' + held' + dropped)[p] == (stored + held)[p]
    {
      assert (held' + before)[p] == (held + after)[p];
      assert (stored' + after + dropped)[p] == (stored + before)[p];
    }
  }

  lemma Carry(x: Pairs, a: Pairs, b: Pairs, c: Pairs, d: Pairs)
    requires a + b == c + d
    ensures (x + a) + b == (x + c) + d
  {
    assert (x + a) + b == x + (a + b);
  }

  lemma {:induction false} HeldUpdate(cs: seq<ClientPc>, c: nat, pc: ClientPc)
    requires c < |cs|
    ensures Held(cs[c := pc]) + HeldBy(cs[c]) == Held(cs) + HeldBy(pc)
  {
    if c > 0 {
      HeldUpdate(cs[1..], c - 1, pc);
      assert cs[c := pc][1..] == cs[1..][c - 1 := pc];
      Carry(HeldBy(cs[0]), Held(cs[1..][c - 1 := pc]), HeldBy(cs[c]), Held(cs[1..]), HeldBy(pc));
    } else {
      assert cs[c := pc][1..] == cs[1..];
    }
  }

  function Stored(s: State): Pairs {
    multiset(Submitted(s.log))
  }

  /** The pair that the step takes out of the process: that of the call that exits. */
  function Dropped(s: State, e: Event): Pairs {
    if e.ClientStep? && e.c < |s.cs| && s.cs[e.c].CExit? then HeldBy(s.cs[e.c]) else multiset{}
  }

  lemma SubmittedSnoc(log: seq<Submission>, x: Submission)
    ensures multiset(Submitted(log + [x])) == multiset(Submitted(log)) + multiset{(x.task, x.arg)}
  {
    assert Submitted(log + [x]) == Submitted(log) + [(x.task, x.arg)];
  }

  /** A call hands its pair on from step to step until it stores it or exits. */
  lemma GotoKeepsPair(s: State, pc: ClientPc)
    requires WellShaped(s) && ClientInRange(pc)
    ensures var pc' := ClientGoto(s, pc);
      && (Holding(pc') <==> Holding(pc) && !pc.CStore? && !pc.CExit?)
      && (Holding(pc') ==> pc'.task == pc.task && pc'.arg == pc.arg)
  {
  }

  lemma NextLog(s: State, c: nat)
    requires WellShaped(s) && c < |s.cs|
    ensures var (s', pc) := (ClientNext(s, c), s.cs[c]);
      && s'.cs == s.cs[c := ClientGoto(s, pc)]
      && s'.log == if pc.CStore? then s.log + [Submission(pc.id, pc.task, pc.arg)] else s.log
  {
  }

  lemma StoreKeepsPairs(s: State, c: nat)
    requires WellShaped(s) && c < |s.cs| && ClientCanStep(s, c)
    ensures var s' := ClientNext(s, c);
      Stored(s') + HeldBy(s'.cs[c]) + Dropped(s, ClientStep(c)) == Stored(s) + HeldBy(s.cs[c])
  {
    var pc := s.cs[c];
    NextLog(s, c);
    GotoKeepsPair(s, pc);
    if pc.CStore? { SubmittedSnoc(s.log, Submission(pc.id, pc.task, pc.arg)); }
  }

  /** What one step of a client does to the pairs. */
  lemma ClientStepKeepsPairs(s: State, c: nat)
    requires WellShaped(s) && c < |s.cs| && ClientCanStep(s, c)
    ensures var s' := ClientNext(s, c);
      Stored(s') + Held(s'.cs) + Dropped(s, ClientStep(c)) == Stored(s) + Held(s.cs)
  {
    var s' := ClientNext(s, c);
    var pc' := s'.cs[c];
    assert s'.cs == s.cs[c := pc'];
    HeldUpdate(s.cs, c, pc');
    StoreKeepsPairs(s, c);
    Balance(Stored(s), Stored(s'), Held(s.cs), Held(s'.cs), HeldBy(s.cs[c]), HeldBy(pc'), Dropped(s, ClientStep(c)));
  }

  lemma BeginKeepsPairs(s: State, c: nat, pc: ClientPc)
    requires c < |s.cs| && s.cs[c] == CIdle
    ensures Held(s.cs[c := pc]) == Held(s.cs) + HeldBy(pc)
  {
    HeldUpdate(s.cs, c, pc);
    assert Held(s.cs[c := pc]) + HeldBy(CIdle) == Held(s.cs[c := pc]);
  }

  lemma BeginAddKeepsPairs(s: State, c: nat, t: Ptr, a: Ptr)
    requires WellShaped(s) && Enabled(s, BeginAdd(c, t, a))
    ensures var s' := Apply(s, BeginAdd(c, t, a)); Stored(s') + Held(s'.cs) == Stored(s) + Held(s.cs) + multiset{(t, a)}
  {
    BeginKeepsPairs(s, c, CLockAdd(t, a));
  }

  /** Steps of workers, and wake-ups, concern neither the log nor the clients. */
  lemma WorkersKeepOut(s: State, e: Event)
    requires WellShaped(s) && Enabled(s, e) && (e.WorkerStep? || e.Spurious?)
    ensures Apply(s, e).log == s.log && Apply(s, e).cs == s.cs
  {
  }

  lemma BeginWaitKeepsPairs(s: State, e: Event)
    requires WellShaped(s) && Enabled(s, e) && e.BeginWait?
    ensures Apply(s, e).log == s.log && Held(Apply(s, e).cs) == Held(s.cs)
  {
    var pc := CWaitLock(s.log[e.k].slot, e.k);
    assert Apply(s, e).cs == s.cs[e.c := pc];
    BeginKeepsPairs(s, e.c, pc);
    assert HeldBy(pc) == multiset{};
  }

  lemma StepKeepsPairs(s: State, e: Event)
    requires WellShaped(s) && Enabled(s, e)
    ensures var s' := Apply(s, e);
      Stored(s') + Held(s'.cs) + Dropped(s, e) == Stored(s) + Held(s.cs) + AskedBy(e)
  {
    if e.ClientStep? {
      ClientStepKeepsPairs(s, e.c);
    } else if e.BeginAdd? {
      BeginAddKeepsPairs(s, e.c, e.task, e.arg);
    } else if e.BeginWait? {
      BeginWaitKeepsPairs(s, e);
    } else {
      WorkersKeepOut(s, e);
    }
  }

  lemma {:induction false} NothingHeld(cs: seq<ClientPc>)
    requires forall c :: 0 <= c < |cs| ==> HeldBy(cs[c]) == multiset{}
    ensures Held(cs) == multiset{}
  {
    if cs != [] { NothingHeld(cs[1..]); }
  }

  lemma ExitIsLast(s: State, e: Event)
    requires WellShaped(s) && Enabled(s, e)
    ensures Apply(s, e).exited <==> e.ClientStep? && s.cs[e.c].CExit?
  {
  }

  /** The pairs accounted for in a state; a process that has exited has lost one. */
  ghost predicate PairsKept(es: seq<Event>, s: State) {
    if s.exited then exists p :: Asked(es) == Stored(s) + Held(s.cs) + multiset{p}
    else Asked(es) == Stored(s) + Held(s.cs)
  }

  lemma AskedSnoc(es: seq<Event>, e: Event)
    ensures Asked(es + [e]) == Asked(es) + AskedBy(e)
  {
    assert (es + [e])[..|es|] == es;
  }

  lemma StepKeepsRequests(s: State, es: seq<Event>, e: Event)
    requires WellShaped(s) && Enabled(s, e) && PairsKept(es, s)
    ensures PairsKept(es + [e], Apply(s, e))
  {
    var s' := Apply(s, e);
    AskedSnoc(es, e);
    StepKeepsPairs(s, e);
    ExitIsLast(s, e);
    assert Asked(es + [e]) == Stored(s') + Held(s'.cs) + Dropped(s, e);
    if s'.exited { assert Dropped(s, e) == multiset{(s.cs[e.c].task, s.cs[e.c].arg)}; }
  }

  lemma StartKeepsRequests(s: State, workers: nat, clients: nat)
    requires Init(s, workers, clients)
    ensures PairsKept([], s)
  {
    NothingHeld(s.cs);
  }

  lemma NextKeepsRequests(run: seq<State>, es: seq<Event>, k: nat)
    requires Follows(run, es) && k < |es| && PairsKept(es[..k], run[k])
    ensures PairsKept(es[..k + 1], run[k + 1])
  {
    StepKeepsRequests(run[k], es[..k], es[k]);
    assert es[..k + 1] == es[..k] + [es[k]];
  }

  /**
   Over every run: the pairs passed to `tp_add_task` are, as a multiset, those stored in the log and
   those of calls that have not come to their store; only a process that has exited has lost one more,
   that of the call that found the table full.
   */
  lemma {:induction false} RequestsAreKept(run: seq<State>, es: seq<Event>, workers: nat, clients: nat, k: nat)
    requires Follows(run, es) && Init(run[0], workers, clients) && k <= |es|
    ensures PairsKept(es[..k], run[k])
    decreases k
  {
    if k == 0 {
      StartKeepsRequests(run[0], workers, clients);
    } else {
      RequestsAreKept(run, es, workers, clients, k - 1);
      NextKeepsRequests(run, es, k - 1);
    }
  }

  lemma FollowsReaches(run: seq<State>, es: seq<Event>, workers: nat, clients: nat)
    requires Follows(run, es) && Init(run[0], workers, clients)
    ensures Reachable(run[|es|], workers, clients)
  {
    forall i | 0 <= i < |run| - 1
      ensures Next(run[i], run[i + 1])
    {
      assert Enabled(run[i], es[i]) && run[i + 1] == Apply(run[i], es[i]);
    }
    assert Connects(run, run[0], run[|es|]);
  }

  /**
   The program's `main` against its own calls: once it has waited for every task and no call is in
   progress, the calls made by the workers are, task by task with its argument, exactly the calls of
   `tp_add_task`, each once.
   */
  lemma EveryRequestServed(run: seq<State>, es: seq<Event>, workers: nat, clients: nat)
    requires Follows(run, es) && Init(run[0], workers, clients) && !run[|es|].exited
    requires forall k :: 0 <= k < |run[|es|].log| ==> k in run[|es|].waited
    requires forall c :: 0 <= c < |run[|es|].cs| ==> run[|es|].cs[c] == CIdle
    ensures multiset(Executed(run[|es|].calls)) == Asked(es)
  {
    var s := run[|es|];
    FollowsReaches(run, es, workers, clients);
    MainDone(s, workers, clients);
    RequestsAreKept(run, es, workers, clients, |es|);
    assert es[..|es|] == es;
    NothingHeld(s.cs);
  }

  /** With two workers or more, a run that has come to rest has served every call of `tp_add_task`. */
  lemma RestHasServedAll(run: seq<State>, es: seq<Event>, workers: nat, clients: nat)
    requires Follows(run, es) && Init(run[0], workers, clients) && workers >= 2
    requires !run[|es|].exited && WellShaped(run[|es|]) && AtRest(run[|es|])
    ensures multiset(Executed(run[|es|].calls)) == Asked(es)
  {
    var s := run[|es|];
    FollowsReaches(run, es, workers, clients);
    ReachesItself(s, workers, clients);
    DoneIsExecuted(s, workers, clients);
    RequestsAreKept(run, es, workers, clients, |es|);
    assert es[..|es|] == es;
    NothingHeld(s.cs);
  }

  lemma ReachesItself(s: State, workers: nat, clients: nat)
    requires Reachable(s, workers, clients) && WellShaped(s) && workers >= 2 && !s.exited && AtRest(s)
    ensures Complete(s)
  {
    PoolProgresses(s, workers, clients, [s], []);
  }

  lemma DoneIsExecuted(s: State, workers: nat, clients: nat)
    requires Reachable(s, workers, clients) && forall k :: 0 <= k < |s.log| ==> k in s.done
    ensures multiset(Executed(s.calls)) == multiset(Submitted(s.log))
  {
    ExactlyOnce(s, workers, clients);
    forall k | 0 <= k < |s.log|
      ensures Among(s.calls, k)
    {
      assert Called(s, k);
    }
    EveryTicketOnce(s.log, s.calls);
  }

  // ---- call by call ----

  /** Where a client inside a call stands after a step. */
  lemma ClientPlace(s: State, e: Event, c: nat)
    requires WellShaped(s) && Enabled(s, e) && c < |s.cs| && s.cs[c] != CIdle
    ensures var s' := Apply(s, e);
      c < |s'.cs| && s'.cs[c] == if e == ClientStep(c) then ClientGoto(s, s.cs[c]) else s.cs[c]
  {
  }

  lemma LogGrows(s: State, e: Event)
    requires WellShaped(s) && Enabled(s, e)
    ensures s.log <= Apply(s, e).log
  {
  }

  /** Client `c` is inside the call of event `a` after `m` events, and still so before event `n`. */
  ghost predicate InCall(run: seq<State>, es: seq<Event>, c: nat, a: nat, n: nat)
    requires Follows(run, es)
  {
    a < n <= |es| && forall m :: a < m < n ==> c < |run[m].cs| && run[m].cs[c] != CIdle
  }

  predicate WaitsFor(pc: ClientPc, k: nat) {
    (pc.CWaitLock? || pc.CWaitUnlock?) && pc.k == k
  }

  lemma {:induction false} StaysInWait(run: seq<State>, es: seq<Event>, a: nat, m: nat)
    requires Follows(run, es) && a < |es| && es[a].BeginWait? && InCall(run, es, es[a].c, a, m + 1) && a < m
    ensures es[a].c < |run[m].cs| && WaitsFor(run[m].cs[es[a].c], es[a].k)
    decreases m
  {
    var c := es[a].c;
    assert run[m] == Apply(run[m - 1], es[m - 1]);
    if m > a + 1 {
      StaysInWait(run, es, a, m - 1);
      ClientPlace(run[m - 1], es[m - 1], c);
    }
  }

  lemma WaitStarts(run: seq<State>, es: seq<Event>, a: nat)
    requires Follows(run, es) && a < |es| && es[a].BeginWait?
    ensures es[a].c < |run[a + 1].cs| && run[a + 1].cs[es[a].c] != CIdle
  {
    assert run[a + 1] == Apply(run[a], es[a]);
  }

  /** The step that ends a wait books it. */
  lemma WaitEnds(s: State, e: Event, c: nat, k: nat)
    requires WellShaped(s) && Enabled(s, e) && c < |s.cs| && WaitsFor(s.cs[c], k)
    ensures c < |Apply(s, e).cs| && (Apply(s, e).cs[c] == CIdle ==> k in Apply(s, e).waited)
  {
    ClientPlace(s, e, c);
  }

  /** `tp_wait_task` returns only when the task it was called for has been executed. */
  lemma WaitReturnsDone(run: seq<State>, es: seq<Event>, workers: nat, clients: nat, a: nat, n: nat)
    requires Follows(run, es) && Init(run[0], workers, clients) && a < |es| && es[a].BeginWait?
    requires InCall(run, es, es[a].c, a, n) && es[a].c < |run[n].cs| && run[n].cs[es[a].c] == CIdle
    ensures es[a].k in run[n].waited && es[a].k in run[n].done && Called(run[n], es[a].k)
  {
    WaitStarts(run, es, a);
    assert n > a + 1;
    StaysInWait(run, es, a, n - 1);
    WaitEnds(run[n - 1], es[n - 1], es[a].c, es[a].k);
    InitInv(run[0], workers, clients);
    FollowsInv(run, es, n);
  }

  /** The pair is stored in the log at or after place `from`. */
  ghost predicate StoredSince(log: seq<Submission>, from: nat, task: Ptr, arg: Ptr) {
    exists j :: from <= j < |log| && log[j].task == task && log[j].arg == arg
  }

  /** The client holds the pair, or has stored it. */
  ghost predicate AddsPair(s: State, c: nat, from: nat, task: Ptr, arg: Ptr) {
    && c < |s.cs| && from <= |s.log|
    && if Holding(s.cs[c]) then s.cs[c].task == task && s.cs[c].arg == arg else StoredSince(s.log, from, task, arg)
  }

  lemma StoredStays(log: seq<Submission>, log': seq<Submission>, from: nat, task: Ptr, arg: Ptr)
    requires log <= log' && StoredSince(log, from, task, arg)
    ensures StoredSince(log', from, task, arg)
  {
    var j :| from <= j < |log| && log[j].task == task && log[j].arg == arg;
    assert log'[j] == log[j];
  }

  lemma StepKeepsAdding(s: State, e: Event, c: nat, from: nat, task: Ptr, arg: Ptr)
    requires WellShaped(s) && Enabled(s, e) && AddsPair(s, c, from, task, arg) && s.cs[c] != CIdle
    ensures Apply(s, e).exited || AddsPair(Apply(s, e), c, from, task, arg)
  {
    var s' := Apply(s, e);
    LogGrows(s, e);
    ClientPlace(s, e, c);
    if !Holding(s.cs[c]) {
      StoredStays(s.log, s'.log, from, task, arg);
      if e == ClientStep(c) { GotoKeepsPair(s, s.cs[c]); }
    } else if e == ClientStep(c) {
      GotoKeepsPair(s, s.cs[c]);
      NextLog(s, c);
      ExitIsLast(s, e);
      if s.cs[c].CStore? { assert s'.log[|s.log|] == Submission(s.cs[c].id, task, arg); }
    }
  }

  lemma {:induction false} StaysInAdd(run: seq<State>, es: seq<Event>, a: nat, m: nat)
    requires Follows(run, es) && a < |es| && es[a].BeginAdd? && InCall(run, es, es[a].c, a, m) && !run[m].exited
    ensures AddsPair(run[m], es[a].c, |run[a].log|, es[a].task, es[a].arg)
    decreases m
  {
    assert run[m] == Apply(run[m - 1], es[m - 1]);
    if m > a + 1 {
      assert !run[m - 1].exited;
      StaysInAdd(run, es, a, m - 1);
      StepKeepsAdding(run[m - 1], es[m - 1], es[a].c, |run[a].log|, es[a].task, es[a].arg);
    }
  }

  /** `tp_add_task` returns only when it has stored the task and the argument it was called with. */
  lemma AddReturnsStored(run: seq<State>, es: seq<Event>, a: nat, n: nat)
    requires Follows(run, es) && a < |es| && es[a].BeginAdd? && InCall(run, es, es[a].c, a, n)
    requires !run[n].exited && es[a].c < |run[n].cs| && run[n].cs[es[a].c] == CIdle
    ensures StoredSince(run[n].log, |run[a].log|, es[a].task, es[a].arg)
  {
    StaysInAdd(run, es, a, n);
  }
}
