/**
 The loop of `signal/slow_cat.c` as a client of one token bucket, with the alarm allowed
 between any two accesses to the token count.
 */
module SlowCat {
  import opened BucketRaces

  const CPS: int := 10
  const BURST: int := 1024
  const BUF_SIZE: int := 1024

  datatype CatPc =
    | Fetching                // 42, inside mytbf_fetchtoken
    | Reading(r: int)         // 47
    | Returning(m: int)       // 64, inside mytbf_returntoken
    | Exited                  // 50 or 60

  /** `bytes` read so far, and tokens `forfeited` by reads that brought nothing. */
  datatype Cat = Cat(b: State, pc: CatPc, bytes: int, forfeited: int)

  datatype Action =
    | Alarm
    | Access                  // the next load or store inside the bucket
    | ReadOk(sz: int)
    | ReadNothing             // end of file, or an error other than EINTR
    | ReadInterrupted         // EINTR: the tokens are not given back

  predicate Can(c: Cat, a: Action) {
    match a
    case Alarm => true
    case Access => (c.pc.Fetching? || c.pc.Returning?) && Enabled(c.b, Main)
    case ReadOk(sz) => c.pc.Reading? && 0 < sz <= c.pc.r
    case ReadNothing => c.pc.Reading?
    case ReadInterrupted => c.pc.Reading?
  }

  /** The top of the loop: ask for a buffer's worth. */
  function Loop(c: Cat): Cat {
    c.(b := c.b.(pc := FetTest(BUF_SIZE)), pc := Fetching)
  }

  function Act(c: Cat, a: Action): Cat
    requires Can(c, a)
  {
    match a
    case Alarm => c.(b := HandlerRuns(c.b))
    case Access =>
      var c' := c.(b := MainStep(c.b));
      if c'.b.pc != Idle then c'
      else if c.pc.Returning? then Loop(c')
      else if c'.b.last.Fetch? && c'.b.last.result != 0 then c'.(pc := Reading(c'.b.last.result))
      else Loop(c')
    case ReadOk(sz) =>
      c.(b := c.b.(pc := RetLoad(c.pc.r - sz)), pc := Returning(c.pc.r - sz), bytes := c.bytes + sz)
    case ReadNothing => c.(pc := Exited, forfeited := c.forfeited + c.pc.r)
    case ReadInterrupted => Loop(c.(forfeited := c.forfeited + c.pc.r))
  }

  ghost predicate Start(c: Cat) {
    && Init(c.b.(pc := Idle)) && c.b.cps == CPS && c.b.burst == BURST
    && c.b.pc == FetTest(BUF_SIZE) && c.pc == Fetching && c.bytes == 0 && c.forfeited == 0
  }

  ghost predicate IsCatRun(run: seq<Cat>, acts: seq<Action>) {
    && |run| == |acts| + 1 && Start(run[0])
    && forall k :: 0 <= k < |acts| ==> Can(run[k], acts[k]) && run[k + 1] == Act(run[k], acts[k])
  }

  // ---- the invariant ----

  /** Tokens fetched that are neither spent, forfeited nor back in the bucket yet. */
  function InHand(c: Cat): int {
    match c.pc
    case Reading(r) => r
    case Returning(m) => if c.b.pc.RetLoad? || c.b.pc.RetStore? then m else 0
    case _ => 0
  }

  /** Inside `mytbf_fetchtoken(tb, BUF_SIZE)`. */
  ghost predicate FetchingBuffer(b: State) {
    match b.pc
    case FetTest(n) => n == BUF_SIZE
    case FetCall(n) => n == BUF_SIZE
    case FetPause(n) => n == BUF_SIZE
    case FetCompare(n) => n == BUF_SIZE
    case FetReload(n) => n == BUF_SIZE
    case FetLoad(_) => b.last.Fetch? && b.last.asked == BUF_SIZE
    case FetStore(_, _) => b.last.Fetch? && b.last.asked == BUF_SIZE
    case _ => false
  }

  ghost predicate GivingBack(b: State, m: int) {
    match b.pc
    case RetLoad(n) => n == m
    case RetStore(n, _) => n == m
    case _ => b.pc.RetCompare? || b.pc.RetReload? || b.pc.RetStoreMin? || b.pc.RetStoreBurst?
  }

  ghost predicate PcsAgree(c: Cat) {
    match c.pc
    case Fetching => FetchingBuffer(c.b)
    case Reading(r) => c.b.pc.Idle? && r >= 0 && c.b.last.Fetch? && c.b.last.asked == BUF_SIZE && c.b.last.result == r
    case Returning(m) => m >= 0 && GivingBack(c.b, m)
    case Exited => c.b.pc.Idle?
  }

  ghost predicate CatInv(c: Cat) {
    && Inv(c.b) && c.b.cps == CPS && c.b.burst == BURST
    && PcsAgree(c)
    && c.bytes >= 0 && c.forfeited >= 0
    && c.b.fetched == c.bytes + c.forfeited + c.b.returned + InHand(c)
  }

  lemma AccessKeepsInv(c: Cat)
    requires CatInv(c) && Can(c, Access)
    ensures CatInv(Act(c, Access))
  {
    ApplyKeepsInv(c.b, Main);
    var b := MainStep(c.b);
    if b.pc == Idle { ApplyKeepsInv(b, BeginFetch(BUF_SIZE)); }
    if c.pc.Fetching? { FetchAccess(c); }
  }

  /** A fetch access leads on inside the fetch, or completes it with the amount that was booked. */
  lemma FetchAccess(c: Cat)
    requires CatInv(c) && c.pc.Fetching? && Can(c, Access)
    ensures var b := MainStep(c.b);
      && b.returned == c.b.returned
      && (b.pc != Idle ==> FetchingBuffer(b) && b.fetched == c.b.fetched)
      && (b.pc == Idle ==> b.last.Fetch? && b.last.asked == BUF_SIZE && b.last.result >= 1
                           && b.fetched == c.b.fetched + b.last.result)
  {
    if c.b.pc.FetStore? { CreditNotNegative(c.b.cps, c.b.last.gap); }
  }

  lemma ActKeepsInv(c: Cat, a: Action)
    requires CatInv(c) && Can(c, a)
    ensures CatInv(Act(c, a))
  {
    match a
    case Alarm => TickKeepsInv(c.b);
    case Access => AccessKeepsInv(c);
    case ReadOk(sz) => ApplyKeepsInv(c.b, BeginReturn(c.pc.r - sz));
    case ReadNothing =>
    case ReadInterrupted => ApplyKeepsInv(c.b, BeginFetch(BUF_SIZE));
  }

  lemma StartInv(c: Cat)
    requires Start(c)
    ensures CatInv(c)
  {
  }

  lemma {:induction false} CatRunKeepsInv(run: seq<Cat>, acts: seq<Action>, k: nat)
    requires IsCatRun(run, acts) && k <= |acts|
    ensures CatInv(run[k])
  {
    if k == 0 {
      StartInv(run[0]);
    } else {
      CatRunKeepsInv(run, acts, k - 1);
      ActKeepsInv(run[k - 1], acts[k - 1]);
    }
  }

  /**
   End to end: over every run, with interrupted reads that forfeit their tokens and short reads
   that give the surplus back, the bytes read never exceed `CPS` times the ticks delivered; and the
   tokens of every tick that was not lost to a load-store pair are accounted for one by one.
   */
  lemma Throttled(run: seq<Cat>, acts: seq<Action>)
    requires IsCatRun(run, acts)
    ensures var c := run[|acts|];
      && c.bytes <= CPS * c.b.ticks
      && c.bytes + c.forfeited + InHand(c) + c.b.token + c.b.clipped == CPS * (c.b.ticks - c.b.lostTicks)
  {
    CatRunKeepsInv(run, acts, |acts|);
    Ledger(run[|acts|].b);
  }

  // ---- only the end of the file, or an error, ends the loop ----

  lemma ExitStep(c: Cat, a: Action)
    requires Can(c, a)
    ensures Act(c, a).pc.Exited? <==> c.pc.Exited? || a.ReadNothing?
  {
  }

  /** The program has exited if and only if some read found the end of the file or failed; EINTR is neither. */
  lemma {:induction false} ExitsIff(run: seq<Cat>, acts: seq<Action>, n: nat)
    requires IsCatRun(run, acts) && n <= |acts|
    ensures run[n].pc.Exited? <==> exists k :: 0 <= k < n && acts[k].ReadNothing?
    decreases n
  {
    if n > 0 {
      ExitsIff(run, acts, n - 1);
      ExitStep(run[n - 1], acts[n - 1]);
    }
  }

  /** Until then some action of the main flow is possible, unless it is paused. */
  lemma KeepsGoing(run: seq<Cat>, acts: seq<Action>)
    requires IsCatRun(run, acts) && !run[|acts|].pc.Exited? && !run[|acts|].b.pc.FetPause?
    ensures exists a: Action :: !a.Alarm? && Can(run[|acts|], a)
  {
    CatRunKeepsInv(run, acts, |acts|);
    var c := run[|acts|];
    if c.pc.Reading? {
      assert Can(c, ReadNothing);
    } else {
      assert Can(c, Access);
    }
  }

  // ---- reads larger than the buffer ----

  /**
   The read of line 47 stays within `buf` if and only if the fetch before it saw a full buffer's
   worth at once, or the ticks before it read the count again did not take it past that.
   */
  lemma ReadFits(run: seq<Cat>, acts: seq<Action>)
    requires IsCatRun(run, acts) && run[|acts|].pc.Reading?
    ensures var c := run[|acts|];
      && c.b.last.Fetch?
      && (c.pc.r <= BUF_SIZE <==> BUF_SIZE <= c.b.last.seen || c.b.last.seen + CPS * c.b.last.gap <= BUF_SIZE)
  {
    CatRunKeepsInv(run, acts, |acts|);
    FetchedAmount(run[|acts|].b);
  }

  ghost predicate Reached(c: Cat) {
    exists run, acts :: IsCatRun(run, acts) && run[|acts|] == c
  }

  lemma Goes(c: Cat, a: Action)
    requires Reached(c) && Can(c, a)
    ensures Reached(Act(c, a))
  {
    var run, acts :| IsCatRun(run, acts) && run[|acts|] == c;
    var run', acts' := run + [Act(c, a)], acts + [a];
    forall k | 0 <= k < |acts'|
      ensures Can(run'[k], acts'[k]) && run'[k + 1] == Act(run'[k], acts'[k])
    {
      if k < |acts| { assert run'[k] == run[k] && run'[k + 1] == run[k + 1] && acts'[k] == acts[k]; }
    }
    assert IsCatRun(run', acts') && run'[|acts'|] == Act(c, a);
  }

  /** The program before its first access, `n` ticks late. */
  function Late(n: nat): Cat {
    Cat(State(CPS, BURST, CPS * n, FetTest(BUF_SIZE), n, 0, 0, 0, 0, 0, NoFetch), Fetching, 0, 0)
  }

  lemma {:induction false} LateIsReached(n: nat)
    ensures Reached(Late(n))
    decreases n
  {
    if n == 0 {
      assert IsCatRun([Late(0)], []);
    } else {
      LateIsReached(n - 1);
      Goes(Late(n - 1), Alarm);
      assert Act(Late(n - 1), Alarm) == Late(n);
    }
  }

  /** The count has been compared at 1020, a tick has come, and `buf` is about to be overrun by six bytes. */
  lemma ReadCanOverrun() returns (c: Cat)
    ensures Reached(c) && c.pc == Reading(1030) && 1030 > BUF_SIZE
  {
    var c0 := Late(102);
    LateIsReached(102);
    Goes(c0, Access);
    var c1 := c0.(b := c0.b.(pc := FetCompare(BUF_SIZE)));
    assert Act(c0, Access) == c1;
    Goes(c1, Access);
    var c2 := c0.(b := c0.b.(pc := FetReload(BUF_SIZE), last := Fetch(BUF_SIZE, 1020, 0, 0)));
    assert Act(c1, Access) == c2;
    c := AfterTick(c2);
  }

  lemma AfterTick(c2: Cat) returns (c: Cat)
    requires Reached(c2) && c2.pc == Fetching && c2.b.token == 1020 && c2.b.cps == CPS
    requires c2.b.pc == FetReload(BUF_SIZE) && c2.b.last.Fetch?
    ensures Reached(c) && c.pc == Reading(1030)
  {
    Goes(c2, Alarm);
    var c3 := Act(c2, Alarm);
    Goes(c3, Access);
    c := FetchEnds(Act(c3, Access));
  }

  lemma FetchEnds(c4: Cat) returns (c: Cat)
    requires Reached(c4) && c4.pc == Fetching && c4.b.pc == FetLoad(1030) && c4.b.token == 1030 && c4.b.last.Fetch?
    ensures Reached(c) && c.pc == Reading(1030)
  {
    Goes(c4, Access);
    var c5 := Act(c4, Access);
    assert c5.b.pc == FetStore(1030, 1030);
    Goes(c5, Access);
    c := Act(c5, Access);
  }
}
