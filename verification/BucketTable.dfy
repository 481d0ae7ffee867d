/**
 The table of token buckets of `signal/mytbf.c`, operation by operation, each taken as atomic.
 `ticks`, `fetched`, `returned` and `clipped` are each bucket's own ledger, kept as history.
 */
module BucketTable {
  import opened Slots

  const MAX_TBF: nat := 1024

  datatype Bucket = Bucket(
    cps: int, burst: int, token: int, pos: nat,
    ticks: nat, fetched: int, returned: int, clipped: int)

  type Table = seq<Option<Bucket>>

  ghost predicate Shaped(jobs: Table) {
    |jobs| == MAX_TBF
  }

  predicate LiveId(jobs: Table, id: nat) {
    id < |jobs| && jobs[id].Some?
  }

  function Min(x: int, y: int): int {
    if x < y then x else y
  }

  /** `mytbf_init` */
  function Create(jobs: Table, cps: int, burst: int): (Table, int) {
    var id := FreePos(jobs, 0);
    if id < 0 then (jobs, -1) else (jobs[id := Some(Bucket(cps, burst, 0, id, 0, 0, 0, 0))], id)
  }

  /** What the handler does to one slot: credit `cps` tokens, with no regard to `burst`. */
  function Credit(b: Option<Bucket>): Option<Bucket> {
    match b
    case None => None
    case Some(b) => Some(b.(token := b.token + b.cps, ticks := b.ticks + 1))
  }

  /** `handle` */
  function Handle(jobs: Table): (r: Table)
    ensures |r| == |jobs| && forall i :: 0 <= i < |jobs| ==> r[i] == Credit(jobs[i])
  {
    seq(|jobs|, i requires 0 <= i < |jobs| => Credit(jobs[i]))
  }

  /** `mytbf_returntoken` on a bucket. */
  function PutBack(b: Bucket, n: int): Bucket {
    var token := b.token + n;
    b.(token := Min(token, b.burst), returned := b.returned + n, clipped := b.clipped + token - Min(token, b.burst))
  }

  /** `mytbf_fetchtoken` on a bucket once its wait is over: the bucket and the amount fetched. */
  function TakeOut(b: Bucket, n: int): (Bucket, int) {
    var r := Min(b.token, n);
    (b.(token := b.token - r, fetched := b.fetched + r), r)
  }

  /** `mytbf_destroy`, which clears the slot the bucket names. */
  function Destroy(jobs: Table, id: nat): Table
    requires LiveId(jobs, id)
  {
    var pos := jobs[id].value.pos;
    if pos < |jobs| then jobs[pos := None] else jobs
  }

  datatype Event =
    | ETick
    | EInit(cps: int, burst: int)
    | EFetch(id: nat, n: int)
    | EReturn(id: nat, n: int)
    | EDestroy(id: nat)

  /** Callers use live ids, and a fetch completes only when there are tokens. */
  predicate Enabled(jobs: Table, e: Event) {
    match e
    case EFetch(id, _) => LiveId(jobs, id) && jobs[id].value.token != 0
    case EReturn(id, _) => LiveId(jobs, id)
    case EDestroy(id) => LiveId(jobs, id)
    case _ => true
  }

  function Step(jobs: Table, e: Event): Table
    requires Enabled(jobs, e)
  {
    match e
    case ETick => Handle(jobs)
    case EInit(cps, burst) => Create(jobs, cps, burst).0
    case EFetch(id, n) => jobs[id := Some(TakeOut(jobs[id].value, n).0)]
    case EReturn(id, n) => jobs[id := Some(PutBack(jobs[id].value, n))]
    case EDestroy(id) => Destroy(jobs, id)
  }

  ghost predicate IsRun(run: seq<Table>, es: seq<Event>) {
    && |run| == |es| + 1
    && run[0] == seq(MAX_TBF, _ => None)
    && forall k :: 0 <= k < |es| ==> Enabled(run[k], es[k]) && run[k + 1] == Step(run[k], es[k])
  }

  // ---- the ledger ----

  /** Every token a bucket ever got is in it, fetched, or clipped by `burst`. */
  ghost predicate Balanced(b: Bucket) {
    b.token + b.fetched + b.clipped == b.cps * b.ticks + b.returned
  }

  ghost predicate Inv(jobs: Table) {
    && Shaped(jobs)
    && forall i :: 0 <= i < |jobs| && jobs[i].Some? ==> Balanced(jobs[i].value) && jobs[i].value.pos == i
  }

  lemma StepKeepsInv(jobs: Table, e: Event)
    requires Inv(jobs) && Enabled(jobs, e)
    ensures Inv(Step(jobs, e))
  {
  }

  /** The bucket an operation is about; a tick concerns them all. */
  predicate Concerns(jobs: Table, e: Event, i: nat) {
    match e
    case ETick => true
    case EInit(_, _) => FreePos(jobs, 0) == i
    case EFetch(id, _) => id == i
    case EReturn(id, _) => id == i
    case EDestroy(id) => id == i
  }

  /** The terms a bucket was created with. */
  predicate SameTerms(b: Bucket, b': Bucket) {
    b'.cps == b.cps && b'.burst == b.burst && b'.pos == b.pos
  }

  /** All asked for, or all there is. */
  predicate Fetched(b: Bucket, n: int, b': Bucket) {
    var r := b'.fetched - b.fetched;
    && r <= n && b'.token >= 0 && b'.token + r == b.token && (r == n || b'.token == 0)
    && b'.returned == b.returned && b'.clipped == b.clipped && b'.ticks == b.ticks && SameTerms(b, b')
  }

  /** At most `burst` is left, and only what exceeds it is clipped. */
  predicate GivenBack(b: Bucket, n: int, b': Bucket) {
    var cut := b'.clipped - b.clipped;
    && b'.token <= b.burst && cut >= 0 && b'.token + cut == b.token + n && (cut > 0 ==> b'.token == b.burst)
    && b'.returned == b.returned + n && b'.fetched == b.fetched && b'.ticks == b.ticks && SameTerms(b, b')
  }

  /** One tick's credit, with no regard to `burst`. */
  predicate Credited(b: Bucket, b': Bucket) {
    && b'.token == b.token + b.cps && b'.ticks == b.ticks + 1
    && b'.fetched == b.fetched && b'.returned == b.returned && b'.clipped == b.clipped && SameTerms(b, b')
  }

  /** An empty bucket with these terms and a clean ledger. */
  predicate IsNew(b: Bucket, cps: int, burst: int) {
    && b.cps == cps && b.burst == burst
    && b.token == 0 && b.ticks == 0 && b.fetched == 0 && b.returned == 0 && b.clipped == 0
  }

  /** What an operation does: the right thing to the bucket it concerns, nothing to any other. */
  ghost predicate Effect(jobs: Table, e: Event, jobs': Table) {
    && |jobs'| == |jobs|
    && (forall i: nat :: i < |jobs| && !Concerns(jobs, e, i) ==> jobs'[i] == jobs[i])
    && match e
       case EFetch(id, n) => LiveId(jobs, id) && LiveId(jobs', id) && Fetched(jobs[id].value, n, jobs'[id].value)
       case EReturn(id, n) => LiveId(jobs, id) && LiveId(jobs', id) && GivenBack(jobs[id].value, n, jobs'[id].value)
       case EDestroy(id) => LiveId(jobs, id) && jobs'[id].None?
       case EInit(cps, burst) =>
         forall i: nat :: i < |jobs| && Concerns(jobs, e, i) ==>
           jobs[i].None? && jobs'[i].Some? && IsNew(jobs'[i].value, cps, burst)
       case ETick =>
         forall i :: 0 <= i < |jobs| ==>
           jobs'[i].Some? == jobs[i].Some? && (jobs[i].Some? ==> Credited(jobs[i].value, jobs'[i].value))
  }

  /** The answer of `mytbf_init`: the id of the new bucket, or -1 exactly when the table is full. */
  lemma CreateReturns(jobs: Table, cps: int, burst: int)
    ensures var (jobs', id) := Create(jobs, cps, burst);
      && |jobs'| == |jobs| && -1 <= id < |jobs|
      && (id == -1 <==> forall i :: 0 <= i < |jobs| ==> jobs[i].Some?)
      && (id == -1 ==> jobs' == jobs)
      && (id >= 0 ==> jobs[id].None? && jobs'[id].Some? && IsNew(jobs'[id].value, cps, burst))
      && (forall i :: 0 <= i < |jobs| && i != id ==> jobs'[i] == jobs[i])
  {
    var id := FreePos(jobs, 0);
    if id >= 0 { assert jobs[id].None?; }
  }

  lemma StepHasEffect(jobs: Table, e: Event)
    requires Inv(jobs) && Enabled(jobs, e)
    ensures Effect(jobs, e, Step(jobs, e))
  {
  }

  /**
   The exact ledger over every sequence of operations: every live bucket balances and sits in the
   slot it names, so live ids are distinct and name their own bucket.  Hence every operation has
   its effect on the bucket of the id it is given and leaves all others alone.
   */
  lemma {:induction false} LedgerHolds(run: seq<Table>, es: seq<Event>, k: nat)
    requires IsRun(run, es) && k <= |es|
    ensures Inv(run[k])
    ensures k < |es| ==> Effect(run[k], es[k], run[k + 1])
  {
    if k > 0 {
      LedgerHolds(run, es, k - 1);
      StepKeepsInv(run[k - 1], es[k - 1]);
    }
    if k < |es| { StepHasEffect(run[k], es[k]); }
  }

  // ---- every bucket by its own terms ----

  function TicksIn(es: seq<Event>, j: nat, k: nat): nat
    requires j <= k <= |es|
    decreases k
  {
    if j == k then 0 else TicksIn(es, j, k - 1) + if es[k - 1].ETick? then 1 else 0
  }

  /** What was given back to bucket `i`. */
  function ReturnedIn(es: seq<Event>, i: nat, j: nat, k: nat): int
    requires j <= k <= |es|
    decreases k
  {
    if j == k then 0
    else ReturnedIn(es, i, j, k - 1) + if es[k - 1].EReturn? && es[k - 1].id == i then es[k - 1].n else 0
  }

  /** The bucket with id `i` in state `k` is the one that event `j` created. */
  ghost predicate CreatedBy(run: seq<Table>, es: seq<Event>, i: nat, j: nat, k: nat)
    requires IsRun(run, es)
  {
    && j < k <= |es| && es[j].EInit? && FreePos(run[j], 0) == i
    && forall m :: j < m <= k ==> LiveId(run[m], i)
  }

  /** Its terms are those of that event, its ticks and returns those since. */
  ghost predicate OnTerms(run: seq<Table>, es: seq<Event>, i: nat, j: nat, k: nat)
    requires IsRun(run, es)
  {
    && CreatedBy(run, es, i, j, k)
    && var b := run[k][i].value;
       && b.cps == es[j].cps && b.burst == es[j].burst
       && b.ticks == TicksIn(es, j + 1, k) && b.returned == ReturnedIn(es, i, j + 1, k)
  }

  lemma StepKeepsTerms(run: seq<Table>, es: seq<Event>, i: nat, j: nat, k: nat)
    requires IsRun(run, es) && k < |es| && OnTerms(run, es, i, j, k) && LiveId(run[k + 1], i)
    ensures OnTerms(run, es, i, j, k + 1)
  {
    LedgerHolds(run, es, k);
    assert Effect(run[k], es[k], run[k + 1]);
  }

  lemma CreationGivesTerms(run: seq<Table>, es: seq<Event>, i: nat, k: nat)
    requires IsRun(run, es) && k < |es| && !LiveId(run[k], i) && LiveId(run[k + 1], i)
    ensures OnTerms(run, es, i, k, k + 1)
  {
    LedgerHolds(run, es, k);
    assert Effect(run[k], es[k], run[k + 1]);
  }

  lemma {:induction false} TermsHold(run: seq<Table>, es: seq<Event>, i: nat, k: nat) returns (j: nat)
    requires IsRun(run, es) && k <= |es| && LiveId(run[k], i)
    ensures OnTerms(run, es, i, j, k)
    decreases k
  {
    if LiveId(run[k - 1], i) {
      j := TermsHold(run, es, i, k - 1);
      StepKeepsTerms(run, es, i, j, k - 1);
    } else {
      j := k - 1;
      CreationGivesTerms(run, es, i, k - 1);
    }
  }

  /**
   The ledger by each bucket's own terms, over every sequence of operations: a live bucket was created
   by one `mytbf_init`, keeps its rate and its limit, and balances with that rate, the ticks since its
   creation and the amounts given back to it since.
   */
  lemma OwnLedger(run: seq<Table>, es: seq<Event>, i: nat, k: nat) returns (j: nat)
    requires IsRun(run, es) && k <= |es| && LiveId(run[k], i)
    ensures CreatedBy(run, es, i, j, k)
    ensures var b := run[k][i].value;
      && b.cps == es[j].cps && b.burst == es[j].burst
      && b.token + b.fetched + b.clipped == es[j].cps * TicksIn(es, j + 1, k) + ReturnedIn(es, i, j + 1, k)
  {
    j := TermsHold(run, es, i, k);
    LedgerHolds(run, es, k);
  }

  // ---- signs ----

  /** Sensible parameters: rates, limits and amounts are not negative. */
  predicate Sensible(e: Event) {
    match e
    case EInit(cps, burst) => cps >= 0 && burst >= 0
    case EFetch(_, n) => n >= 0
    case EReturn(_, n) => n >= 0
    case _ => true
  }

  ghost predicate NonNegative(jobs: Table) {
    forall i :: 0 <= i < |jobs| && jobs[i].Some? ==>
      var b := jobs[i].value; b.token >= 0 && b.clipped >= 0 && b.cps >= 0 && b.burst >= 0 && b.returned >= 0
  }

  /** No bucket is ever overdrawn, and what was fetched is covered by credits and returns. */
  lemma {:induction false} NeverOverdrawn(run: seq<Table>, es: seq<Event>, k: nat)
    requires IsRun(run, es) && k <= |es| && forall j :: 0 <= j < |es| ==> Sensible(es[j])
    ensures NonNegative(run[k])
    ensures forall i :: 0 <= i < |run[k]| && run[k][i].Some? ==>
      var b := run[k][i].value; b.fetched <= b.cps * b.ticks + b.returned
  {
    LedgerHolds(run, es, k);
    if k > 0 {
      NeverOverdrawn(run, es, k - 1);
      LedgerHolds(run, es, k - 1);
      StepKeepsSigns(run[k - 1], es[k - 1]);
    }
  }

  lemma StepKeepsSigns(jobs: Table, e: Event)
    requires Inv(jobs) && NonNegative(jobs) && Enabled(jobs, e) && Sensible(e)
    ensures NonNegative(Step(jobs, e))
  {
  }
}
