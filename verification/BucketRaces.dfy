/**
 One token bucket of `signal/mytbf.c` at the granularity of single loads and stores, with the
 alarm handler allowed between any two of them.  `p->token += n` is a load and a store, and the
 `MIN` macro reads its first argument once to compare it and once more when it wins.
 */
module BucketRaces {
  import opened BucketTable

  /** The next access of the main flow to `p->token`, with its registers. */
  datatype Pc =
    | Idle
    // mytbf_returntoken
    | RetLoad(n: int)                // 92: load
    | RetStore(n: int, reg: int)     // 92: store reg + n
    | RetCompare                     // 93: load, compare with burst
    | RetReload                      // 93: load again
    | RetStoreMin(reg: int)          // 93: store what was loaded
    | RetStoreBurst(reg: int)        // 93: store burst, the load having been the compare
    // mytbf_fetchtoken
    | FetTest(n: int)                // 99: load, compare with 0
    | FetCall(n: int)                // 100: about to call pause
    | FetPause(n: int)               // 100: blocked until a handler has run
    | FetCompare(n: int)             // 103: load, compare with n
    | FetReload(n: int)              // 103: load again
    | FetLoad(r: int)                // 104: load
    | FetStore(r: int, reg: int)     // 104: store reg - r

  datatype State = State(
    cps: int, burst: int, token: int, pc: Pc,
    ticks: nat,        // handler runs
    open: nat,         // handler runs since the load of a load-store pair in progress
    lostTicks: nat,    // handler runs that fell between a load and its store
    fetched: int, returned: int, clipped: int,
    last: Fetch)       // the fetch in progress, or the last one completed

  /** A fetch: the amount asked for, the count first compared, the ticks before it was read again. */
  datatype Fetch = NoFetch | Fetch(asked: int, seen: int, gap: nat, result: int)

  /** What `n` ticks bring in. */
  function Credit(cps: int, n: nat): int
    decreases n
  {
    if n == 0 then 0 else Credit(cps, n - 1) + cps
  }

  /** What such a fetch comes back with. */
  function Amount(f: Fetch, cps: int): int
    requires f.Fetch?
  {
    if f.seen < f.asked then f.seen + Credit(cps, f.gap) else f.asked
  }

  datatype Event = Tick | Main | BeginReturn(n: int) | BeginFetch(n: int)

  /** The main flow has loaded `token` and is about to store over it. */
  predicate InWindow(pc: Pc) {
    pc.RetStore? || pc.RetStoreMin? || pc.RetStoreBurst? || pc.FetStore?
  }

  predicate Enabled(s: State, e: Event) {
    match e
    case Tick => true
    case Main => !s.pc.Idle? && !s.pc.FetPause?
    case BeginReturn(n) => s.pc.Idle? && n >= 0
    case BeginFetch(n) => s.pc.Idle? && n >= 0
  }

  function HandlerRuns(s: State): State {
    s.(token := s.token + s.cps, ticks := s.ticks + 1,
       open := if InWindow(s.pc) then s.open + 1 else 0,
       pc := if s.pc.FetPause? then FetTest(s.pc.n) else s.pc,
       last := if s.pc.FetReload? && s.last.Fetch? then s.last.(gap := s.last.gap + 1) else s.last)
  }

  function NextPc(s: State): Pc {
    match s.pc
    case Idle => Idle
    case RetLoad(n) => RetStore(n, s.token)
    case RetStore(n, reg) => RetCompare
    case RetCompare => if s.token < s.burst then RetReload else RetStoreBurst(s.token)
    case RetReload => RetStoreMin(s.token)
    case RetStoreMin(reg) => Idle
    case RetStoreBurst(reg) => Idle
    case FetTest(n) => if s.token == 0 then FetCall(n) else FetCompare(n)
    case FetCall(n) => FetPause(n)
    case FetPause(n) => FetPause(n)
    case FetCompare(n) => if s.token < n then FetReload(n) else FetLoad(n)
    case FetReload(n) => FetLoad(s.token)
    case FetLoad(r) => FetStore(r, s.token)
    case FetStore(r, reg) => Idle
  }

  /** What is in `token` after the access. */
  function NextToken(s: State): int {
    match s.pc
    case RetStore(n, reg) => reg + n
    case RetStoreMin(reg) => reg
    case RetStoreBurst(reg) => s.burst
    case FetStore(r, reg) => reg - r
    case _ => s.token
  }

  function NextFetch(s: State): Fetch {
    match s.pc
    case FetCompare(n) => Fetch(n, s.token, 0, 0)
    case FetStore(r, _) => if s.last.Fetch? then s.last.(result := r) else s.last
    case _ => s.last
  }

  /** One access of the main flow; a store closes its window, and the handler runs inside it are gone. */
  function MainStep(s: State): State {
    s.(pc := NextPc(s), token := NextToken(s), last := NextFetch(s), open := 0,
       lostTicks := if InWindow(s.pc) then s.lostTicks + s.open else s.lostTicks,
       returned := if s.pc.RetStore? then s.returned + s.pc.n else s.returned,
       fetched := if s.pc.FetStore? then s.fetched + s.pc.r else s.fetched,
       clipped := if s.pc.RetStoreBurst? then s.clipped + s.pc.reg - s.burst else s.clipped)
  }

  function Apply(s: State, e: Event): State
    requires Enabled(s, e)
  {
    match e
    case Tick => HandlerRuns(s)
    case Main => MainStep(s)
    case BeginReturn(n) => s.(pc := RetLoad(n))
    case BeginFetch(n) => s.(pc := FetTest(n))
  }

  ghost predicate Init(s: State) {
    && s.cps >= 0 && s.burst >= 0 && s.token == 0 && s.pc == Idle
    && s.ticks == 0 && s.open == 0 && s.lostTicks == 0
    && s.fetched == 0 && s.returned == 0 && s.clipped == 0 && s.last == NoFetch
  }

  ghost predicate IsRun(run: seq<State>, es: seq<Event>) {
    && |run| == |es| + 1 && Init(run[0])
    && forall k :: 0 <= k < |es| ==> Enabled(run[k], es[k]) && run[k + 1] == Apply(run[k], es[k])
  }

  ghost predicate Reachable(s: State) {
    exists run, es :: IsRun(run, es) && run[|es|] == s
  }

  // ---- the invariant ----

  /** What the registers still know about the token count, whatever ticks have come since. */
  ghost predicate PcOk(s: State) {
    match s.pc
    case RetLoad(n) => n >= 0
    case RetStore(n, reg) => n >= 0 && reg >= 0 && s.token == reg + Credit(s.cps, s.open)
    case RetStoreMin(reg) => reg >= 0 && s.token == reg + Credit(s.cps, s.open)
    case RetStoreBurst(reg) => reg >= s.burst && s.token == reg + Credit(s.cps, s.open)
    case FetTest(n) => n >= 0
    case FetCall(n) => n >= 0
    case FetPause(n) => n >= 0
    case FetCompare(n) => n >= 0 && s.token >= 1
    case FetReload(n) =>
      s.last.Fetch? && 1 <= s.last.seen < n == s.last.asked && s.token == s.last.seen + Credit(s.cps, s.last.gap)
    case FetLoad(r) => FetchOk(s, r) && r <= s.token
    case FetStore(r, reg) => FetchOk(s, r) && r <= reg && s.token == reg + Credit(s.cps, s.open)
    case _ => true
  }

  ghost predicate FetchOk(s: State, r: int) {
    s.last.Fetch? && s.last.seen >= 1 && s.last.asked >= 0 && r == Amount(s.last, s.cps)
  }

  ghost predicate Inv(s: State) {
    && s.cps >= 0 && s.burst >= 0 && s.token >= 0 && s.clipped >= 0
    && s.fetched >= 0 && s.returned >= 0
    && s.lostTicks + s.open <= s.ticks
    && (!InWindow(s.pc) ==> s.open == 0)
    && PcOk(s)
    && (s.last.Fetch? && !s.pc.FetReload? && !s.pc.FetLoad? && !s.pc.FetStore? ==> FetchOk(s, s.last.result))
    && Balanced(s)
  }

  ghost predicate Balanced(s: State) {
    s.token + s.fetched + s.clipped + Credit(s.cps, s.lostTicks) == Credit(s.cps, s.ticks) + s.returned
  }

  lemma {:induction false} CreditAdds(cps: int, a: nat, b: nat)
    ensures Credit(cps, a + b) == Credit(cps, a) + Credit(cps, b)
    decreases b
  {
    if b > 0 { CreditAdds(cps, a, b - 1); }
  }

  lemma {:induction false} CreditIsProduct(cps: int, n: nat)
    ensures Credit(cps, n) == cps * n
    decreases n
  {
    if n > 0 {
      CreditIsProduct(cps, n - 1);
      assert cps * n == cps * (n - 1) + cps;
    }
  }

  lemma {:induction false} CreditNotNegative(cps: int, n: nat)
    requires cps >= 0
    ensures Credit(cps, n) >= 0
    decreases n
  {
    if n > 0 { CreditNotNegative(cps, n - 1); }
  }

  lemma TickKeepsInv(s: State)
    requires Inv(s)
    ensures Inv(HandlerRuns(s))
  {
  }

  lemma StoreKeepsInv(s: State)
    requires Inv(s) && InWindow(s.pc)
    ensures Inv(MainStep(s))
  {
    CreditAdds(s.cps, s.lostTicks, s.open);
    CreditNotNegative(s.cps, s.open);
    if s.last.Fetch? { CreditNotNegative(s.cps, s.last.gap); }
  }

  lemma OtherStepKeepsInv(s: State)
    requires Inv(s) && !InWindow(s.pc) && Enabled(s, Main)
    ensures Inv(MainStep(s))
  {
  }

  lemma ApplyKeepsInv(s: State, e: Event)
    requires Inv(s) && Enabled(s, e)
    ensures Inv(Apply(s, e))
  {
    match e
    case Tick => TickKeepsInv(s);
    case Main => if InWindow(s.pc) { StoreKeepsInv(s); } else { OtherStepKeepsInv(s); }
    case _ =>
  }

  lemma {:induction false} RunKeepsInv(run: seq<State>, es: seq<Event>, k: nat)
    requires IsRun(run, es) && k <= |es|
    ensures Inv(run[k])
  {
    if k > 0 {
      RunKeepsInv(run, es, k - 1);
      ApplyKeepsInv(run[k - 1], es[k - 1]);
    }
  }

  /** The ledger in terms of products. */
  lemma Ledger(s: State)
    requires Inv(s)
    ensures s.token + s.fetched + s.clipped == s.cps * (s.ticks - s.lostTicks) + s.returned
    ensures s.cps * s.lostTicks >= 0 && s.cps * (s.ticks - s.lostTicks) == s.cps * s.ticks - s.cps * s.lostTicks
  {
    CreditIsProduct(s.cps, s.ticks);
    CreditIsProduct(s.cps, s.lostTicks);
    CreditNotNegative(s.cps, s.lostTicks);
    Distributes(s.cps, s.ticks, s.lostTicks);
  }

  lemma Distributes(a: int, b: int, c: int)
    ensures a * (b - c) == a * b - a * c
  {
  }

  lemma Positive(a: int, b: int)
    requires a > 0 && b > 0
    ensures a * b > 0
  {
  }

  /**
   Safety under interruption, over every interleaving: the count never goes negative and the total
   fetched never exceeds `cps` times the ticks plus the total returned.  The ledger of the atomic
   operations survives exactly, less the credits of the ticks that fell between a load of `token`
   and the store based on it.  There are four such pairs: in line 92, in line 104, and in line 93
   from the second load to its store or from the comparison to the store of `burst`.
   */
  lemma BucketSafe(run: seq<State>, es: seq<Event>)
    requires IsRun(run, es)
    ensures var s := run[|es|];
      && s.token >= 0 && s.clipped >= 0 && s.lostTicks <= s.ticks
      && s.fetched <= s.cps * s.ticks + s.returned
      && s.token + s.fetched + s.clipped == s.cps * (s.ticks - s.lostTicks) + s.returned
  {
    RunKeepsInv(run, es, |es|);
    Ledger(run[|es|]);
  }

  /** No tick falls between a load and the store based on it. */
  ghost predicate WindowsQuiet(run: seq<State>, es: seq<Event>, n: nat)
    requires n < |run| && n <= |es|
  {
    forall k :: 0 <= k < n && es[k].Tick? ==> !InWindow(run[k].pc)
  }

  lemma StepCountsLosses(s: State, e: Event)
    requires Inv(s) && Enabled(s, e)
    ensures var s' := Apply(s, e);
      s'.lostTicks == 0 && s'.open == 0 <==> s.lostTicks == 0 && s.open == 0 && !(e.Tick? && InWindow(s.pc))
  {
  }

  lemma {:induction false} QuietIff(run: seq<State>, es: seq<Event>, n: nat)
    requires IsRun(run, es) && n <= |es|
    ensures WindowsQuiet(run, es, n) <==> run[n].lostTicks == 0 && run[n].open == 0
    decreases n
  {
    if n > 0 {
      QuietIff(run, es, n - 1);
      RunKeepsInv(run, es, n - 1);
      StepCountsLosses(run[n - 1], es[n - 1]);
    }
  }

  predicate AtomicLedger(s: State) {
    s.token + s.fetched + s.clipped == s.cps * s.ticks + s.returned
  }

  /**
   The ledger of the atomic operations holds if and only if no credit has been erased; wherever no
   window is open that is, if and only if no tick has fallen into one of the four windows or the ticks
   bring nothing.
   */
  lemma AtomicLedgerIff(run: seq<State>, es: seq<Event>)
    requires IsRun(run, es)
    ensures AtomicLedger(run[|es|]) <==> run[|es|].cps == 0 || run[|es|].lostTicks == 0
    ensures !InWindow(run[|es|].pc) ==>
      (AtomicLedger(run[|es|]) <==> run[|es|].cps == 0 || WindowsQuiet(run, es, |es|))
  {
    RunKeepsInv(run, es, |es|);
    QuietIff(run, es, |es|);
    var s := run[|es|];
    Ledger(s);
    if s.cps > 0 && s.lostTicks > 0 { Positive(s.cps, s.lostTicks); }
  }

  /**
   What a completed fetch returned: at least one token if at least one was asked for; no more than
   asked for exactly when the count it compared had not grown past the request by the time it was
   read again, and in particular when no tick fell between the two evaluations in `MIN`.
   */
  lemma FetchReturns(run: seq<State>, es: seq<Event>)
    requires IsRun(run, es) && run[|es|].pc == Idle && run[|es|].last.Fetch?
    ensures var f := run[|es|].last;
      && (f.asked >= 1 ==> f.result >= 1)
      && (f.result <= f.asked <==> f.asked <= f.seen || f.seen + run[|es|].cps * f.gap <= f.asked)
      && (f.gap == 0 ==> f.result <= f.asked)
  {
    RunKeepsInv(run, es, |es|);
    FetchedAmount(run[|es|]);
  }

  lemma FetchedAmount(s: State)
    requires Inv(s) && s.pc == Idle && s.last.Fetch?
    ensures var f := s.last;
      && (f.asked >= 1 ==> f.result >= 1)
      && (f.result <= f.asked <==> f.asked <= f.seen || f.seen + s.cps * f.gap <= f.asked)
      && (f.gap == 0 ==> f.result <= f.asked)
  {
    CreditIsProduct(s.cps, s.last.gap);
    CreditNotNegative(s.cps, s.last.gap);
  }

  // ---- what was asked for ----

  /** The amounts passed to `mytbf_returntoken` in the first `k` events. */
  function Offered(es: seq<Event>, k: nat): int
    requires k <= |es|
    decreases k
  {
    if k == 0 then 0 else Offered(es, k - 1) + if es[k - 1].BeginReturn? then es[k - 1].n else 0
  }

  /** What a return in progress has not put back yet. */
  function InTransit(pc: Pc): int {
    if pc.RetLoad? || pc.RetStore? then pc.n else 0
  }

  lemma StepBooksReturns(s: State, e: Event)
    requires Enabled(s, e)
    ensures var s' := Apply(s, e);
      s'.returned + InTransit(s'.pc) == s.returned + InTransit(s.pc) + if e.BeginReturn? then e.n else 0
  {
  }

  /** Over every run: what was given back is what callers offered, but for the return in progress. */
  lemma {:induction false} ReturnsAreBooked(run: seq<State>, es: seq<Event>, k: nat)
    requires IsRun(run, es) && k <= |es|
    ensures run[k].returned + InTransit(run[k].pc) == Offered(es, k)
    decreases k
  {
    if k > 0 {
      ReturnsAreBooked(run, es, k - 1);
      StepBooksReturns(run[k - 1], es[k - 1]);
    }
  }

  /** The fetch in progress, or the last one, is one of `n` tokens. */
  predicate Fetching(s: State, n: int) {
    match s.pc
    case FetTest(m) => m == n
    case FetCall(m) => m == n
    case FetPause(m) => m == n
    case FetCompare(m) => m == n
    case FetReload(m) => m == n && s.last.Fetch? && s.last.asked == n
    case FetLoad(_) => s.last.Fetch? && s.last.asked == n
    case FetStore(_, _) => s.last.Fetch? && s.last.asked == n
    case Idle => s.last.Fetch? && s.last.asked == n
    case _ => false
  }

  lemma StepKeepsFetching(s: State, e: Event, n: int)
    requires Enabled(s, e) && Fetching(s, n) && !s.pc.Idle?
    ensures Fetching(Apply(s, e), n)
  {
  }

  /** A fetch stays, until it returns, a fetch of the amount passed to `mytbf_fetchtoken`. */
  lemma {:induction false} FetchIsOfAsked(run: seq<State>, es: seq<Event>, a: nat, k: nat)
    requires IsRun(run, es) && a < k <= |es| && es[a].BeginFetch?
    requires forall m :: a < m < k ==> !run[m].pc.Idle?
    ensures Fetching(run[k], es[a].n)
    decreases k
  {
    if k > a + 1 {
      FetchIsOfAsked(run, es, a, k - 1);
      StepKeepsFetching(run[k - 1], es[k - 1], es[a].n);
    }
  }

  // ---- waiting for tokens ----

  /** The pause of line 100 begins with the `k`-th event. */
  ghost predicate PauseBegins(run: seq<State>, es: seq<Event>, k: nat)
    requires IsRun(run, es) && k < |es|
  {
    run[k].pc.FetCall? && es[k] == Main
  }

  lemma {:induction false} CpsStays(run: seq<State>, es: seq<Event>, k: nat)
    requires IsRun(run, es) && k <= |es|
    ensures run[k].cps == run[0].cps
  {
    if k > 0 { CpsStays(run, es, k - 1); }
  }

  /** Between the test that found the bucket empty and the pause there are ticks and nothing else. */
  lemma {:induction false} OnlyTicksBetween(run: seq<State>, es: seq<Event>, t: nat, k: nat)
    requires IsRun(run, es) && t < k <= |es|
    requires run[t].pc.FetTest? && es[t] == Main && forall m :: t < m <= k ==> run[m].pc.FetCall?
    ensures forall m :: t < m < k ==> es[m] == Tick
    ensures run[k].token == Credit(run[0].cps, k - t - 1)
    decreases k
  {
    CpsStays(run, es, k);
    CpsStays(run, es, k - 1);
    assert run[k] == Apply(run[k - 1], es[k - 1]);
    if k > t + 1 { OnlyTicksBetween(run, es, t, k - 1); }
  }

  /**
   A pause begins on a bucket that has tokens if and only if a tick fell between the test of line 99
   and the call of line 100: then the fetch waits for a tick that it does not need.
   */
  lemma PausesOnCreditIff(run: seq<State>, es: seq<Event>, t: nat, k: nat)
    requires IsRun(run, es) && run[0].cps > 0 && t < k < |es|
    requires run[t].pc.FetTest? && es[t] == Main && (forall m :: t < m <= k ==> run[m].pc.FetCall?)
    requires PauseBegins(run, es, k)
    ensures run[k].token != 0 <==> exists m :: t < m < k && es[m] == Tick
  {
    OnlyTicksBetween(run, es, t, k);
    if k > t + 1 {
      assert es[t + 1] == Tick;
      CreditNotNegative(run[0].cps, k - t - 2);
    }
  }

  /** After its pause the fetch in progress is not sent back to another one. */
  predicate PastPause(s: State) {
    || s.pc.FetPause? || (s.pc.FetTest? && s.token > 0)
    || s.pc.FetCompare? || s.pc.FetReload? || s.pc.FetLoad? || s.pc.FetStore?
  }

  lemma StepPastPause(s: State, e: Event)
    requires Inv(s) && s.cps > 0 && Enabled(s, e) && PastPause(s) && !Apply(s, e).pc.Idle?
    ensures PastPause(Apply(s, e))
  {
  }

  lemma {:induction false} StaysPastPause(run: seq<State>, es: seq<Event>, i: nat, j: nat)
    requires IsRun(run, es) && run[0].cps > 0 && i < j <= |es| && PauseBegins(run, es, i)
    requires forall m :: i <= m <= j ==> !run[m].pc.Idle?
    ensures PastPause(run[j])
    decreases j
  {
    if j > i + 1 {
      StaysPastPause(run, es, i, j - 1);
      NextPastPause(run, es, j - 1);
    }
  }

  lemma NextPastPause(run: seq<State>, es: seq<Event>, k: nat)
    requires IsRun(run, es) && run[0].cps > 0 && k < |es| && PastPause(run[k]) && !run[k + 1].pc.Idle?
    ensures PastPause(run[k + 1])
  {
    RunKeepsInv(run, es, k);
    CpsStays(run, es, k);
    StepPastPause(run[k], es[k]);
  }

  /** With a positive rate a fetch pauses at most once. */
  lemma PausesOnce(run: seq<State>, es: seq<Event>, i: nat, j: nat)
    requires IsRun(run, es) && run[0].cps > 0 && i <= j < |es|
    requires PauseBegins(run, es, i) && PauseBegins(run, es, j)
    requires forall m :: i <= m <= j ==> !run[m].pc.Idle?
    ensures i == j
  {
    if i < j { StaysPastPause(run, es, i, j); }
  }

  // ---- without interruption ----

  /** The bucket as the table of atomic operations sees it. */
  function AsBucket(s: State): Bucket {
    Bucket(s.cps, s.burst, s.token, 0, s.ticks, s.fetched, s.returned, s.clipped)
  }

  function Alone(s: State, n: nat): State
    decreases n
  {
    if n == 0 then s else Alone(MainStep(s), n - 1)
  }

  /** A return that no tick interrupts does, in its five accesses, what the atomic one does. */
  lemma UninterruptedReturn(s: State, n: int)
    requires Inv(s) && s.pc == Idle && n >= 0
    ensures var s1 := Apply(s, BeginReturn(n));
      exists k :: 4 <= k <= 5 && Alone(s1, k).pc == Idle && AsBucket(Alone(s1, k)) == PutBack(AsBucket(s), n)
  {
    var s1 := Apply(s, BeginReturn(n));
    var s2 := MainStep(s1);
    var s3 := MainStep(s2);
    var s4 := MainStep(s3);
    var s5 := MainStep(s4);
    assert Alone(s1, 4) == Alone(s2, 3) == Alone(s3, 2) == Alone(s4, 1) == Alone(s5, 0) == s5;
    if s4.pc.RetReload? {
      var s6 := MainStep(s5);
      assert Alone(s1, 5) == Alone(s2, 4) == Alone(s3, 3) == Alone(s4, 2) == Alone(s5, 1) == Alone(s6, 0) == s6;
    }
  }

  /** A fetch from a filled bucket that no tick interrupts does what the atomic one does. */
  lemma UninterruptedFetch(s: State, n: int)
    requires Inv(s) && s.pc == Idle && n >= 0 && s.token != 0
    ensures var s1 := Apply(s, BeginFetch(n));
      exists k :: 4 <= k <= 5 && Alone(s1, k).pc == Idle && Alone(s1, k).last.Fetch?
                  && (AsBucket(Alone(s1, k)), Alone(s1, k).last.result) == TakeOut(AsBucket(s), n)
  {
    var s1 := Apply(s, BeginFetch(n));
    var s2 := MainStep(s1);
    var s3 := MainStep(s2);
    var s4 := MainStep(s3);
    var s5 := MainStep(s4);
    assert Alone(s1, 4) == Alone(s2, 3) == Alone(s3, 2) == Alone(s4, 1) == Alone(s5, 0) == s5;
    if s3.pc.FetReload? {
      var s6 := MainStep(s5);
      assert Alone(s1, 5) == Alone(s2, 4) == Alone(s3, 3) == Alone(s4, 2) == Alone(s5, 1) == Alone(s6, 0) == s6;
    }
  }

  /**
   A fetch from an empty bucket that is interrupted by one tick only, in its pause, fetches from what
   that tick brought.
   */
  lemma UninterruptedWait(s: State, n: int)
    requires Inv(s) && s.pc == Idle && n >= 0 && s.token == 0 && s.cps > 0
    ensures var s1 := HandlerRuns(Alone(Apply(s, BeginFetch(n)), 2));
      exists k :: 4 <= k <= 5 && Alone(s1, k).pc == Idle && Alone(s1, k).last.Fetch?
                  && (AsBucket(Alone(s1, k)), Alone(s1, k).last.result) == TakeOut(AsBucket(HandlerRuns(s)), n)
  {
    var b := Apply(s, BeginFetch(n));
    assert Alone(b, 2) == Alone(MainStep(b), 1) == Alone(MainStep(MainStep(b)), 0) == MainStep(MainStep(b));
    var s1 := HandlerRuns(MainStep(MainStep(b)));
    var s' := HandlerRuns(s);
    assert s1 == s'.(pc := FetTest(n)) == Apply(s', BeginFetch(n));
    TickKeepsInv(s);
    UninterruptedFetch(s', n);
    var k :| 4 <= k <= 5 && Alone(s1, k).pc == Idle && Alone(s1, k).last.Fetch?
             && (AsBucket(Alone(s1, k)), Alone(s1, k).last.result) == TakeOut(AsBucket(s'), n);
    assert HandlerRuns(Alone(Apply(s, BeginFetch(n)), 2)) == s1;
  }

  // ---- runs that show the limits ----

  lemma Started(s: State)
    requires Init(s)
    ensures Reachable(s)
  {
    assert IsRun([s], []);
  }

  lemma Extend(s: State, e: Event)
    requires Reachable(s) && Enabled(s, e)
    ensures Reachable(Apply(s, e))
  {
    var run, es :| IsRun(run, es) && run[|es|] == s;
    var run', es' := run + [Apply(s, e)], es + [e];
    forall k | 0 <= k < |es'|
      ensures Enabled(run'[k], es'[k]) && run'[k + 1] == Apply(run'[k], es'[k])
    {
      if k < |es| { assert run'[k] == run[k] && run'[k + 1] == run[k + 1] && es'[k] == es[k]; }
    }
    assert IsRun(run', es') && run'[|es'|] == Apply(s, e);
  }

  /** A bucket of 10 tokens a second that has had one tick. */
  const CREDITED: State := State(10, 1024, 10, Idle, 1, 0, 0, 0, 0, 0, NoFetch)

  lemma CreditedIsReachable()
    ensures Reachable(CREDITED)
  {
    var s := State(10, 1024, 0, Idle, 0, 0, 0, 0, 0, 0, NoFetch);
    Started(s);
    Extend(s, Tick);
  }

  lemma ComparedThenTicked()
    ensures Reachable(State(10, 1024, 20, FetReload(15), 2, 0, 0, 0, 0, 0, Fetch(15, 10, 1, 0)))
  {
    CreditedIsReachable();
    Extend(CREDITED, BeginFetch(15));
    var s1 := CREDITED.(pc := FetTest(15));
    Extend(s1, Main);
    var s2 := CREDITED.(pc := FetCompare(15));
    assert Apply(s1, Main) == s2;
    Extend(s2, Main);
    var s3 := CREDITED.(pc := FetReload(15), last := Fetch(15, 10, 0, 0));
    assert Apply(s2, Main) == s3;
    Extend(s3, Tick);
  }

  /** A tick between the two evaluations can make a fetch return more than it was asked for. */
  lemma FetchCanExceed() returns (s: State)
    ensures Reachable(s) && s.pc == Idle && s.last == Fetch(15, 10, 1, 20)
  {
    ComparedThenTicked();
    var s1 := State(10, 1024, 20, FetReload(15), 2, 0, 0, 0, 0, 0, Fetch(15, 10, 1, 0));
    Extend(s1, Main);
    var s2 := s1.(pc := FetLoad(20));
    assert Apply(s1, Main) == s2;
    Extend(s2, Main);
    var s3 := s1.(pc := FetStore(20, 20));
    assert Apply(s2, Main) == s3;
    Extend(s3, Main);
    s := Apply(s3, Main);
  }

  /** Lost credits are real: a tick between the load and the store of line 104 vanishes. */
  lemma CreditCanBeLost() returns (s: State)
    ensures Reachable(s) && s.pc == Idle && s.lostTicks == 1
  {
    AboutToStore();
    var s1 := State(10, 1024, 10, FetStore(1, 10), 1, 0, 0, 0, 0, 0, Fetch(1, 10, 0, 0));
    Extend(s1, Tick);
    var s2 := s1.(token := 20, ticks := 2, open := 1);
    assert Apply(s1, Tick) == s2;
    Extend(s2, Main);
    s := Apply(s2, Main);
  }

  lemma AboutToStore()
    ensures Reachable(State(10, 1024, 10, FetStore(1, 10), 1, 0, 0, 0, 0, 0, Fetch(1, 10, 0, 0)))
  {
    CreditedIsReachable();
    Extend(CREDITED, BeginFetch(1));
    var s1 := CREDITED.(pc := FetTest(1));
    Extend(s1, Main);
    var s2 := CREDITED.(pc := FetCompare(1));
    assert Apply(s1, Main) == s2;
    Extend(s2, Main);
    var s3 := CREDITED.(pc := FetLoad(1), last := Fetch(1, 10, 0, 0));
    assert Apply(s2, Main) == s3;
    Extend(s3, Main);
  }

  /** A fetch that tests an empty bucket, is credited, and pauses all the same. */
  lemma CanPauseOnCredit() returns (s: State)
    ensures Reachable(s) && s.pc == FetPause(5) && s.token == 10 && !Enabled(s, Main)
  {
    var s0 := State(10, 1024, 0, Idle, 0, 0, 0, 0, 0, 0, NoFetch);
    Started(s0);
    Extend(s0, BeginFetch(5));
    var s1 := s0.(pc := FetTest(5));
    Extend(s1, Main);
    var s2 := s0.(pc := FetCall(5));
    assert Apply(s1, Main) == s2;
    Extend(s2, Tick);
    var s3 := s2.(token := 10, ticks := 1);
    assert Apply(s2, Tick) == s3;
    Extend(s3, Main);
    s := Apply(s3, Main);
  }
}
