/**
 `signal/suspend1.c` and `signal/suspend.c`: print a line with SIGINT blocked, then wait for
 SIGINT.  The first unblocks and waits in one atomic call, the second in two.  SIGINT may
 arrive between any two steps; while it is blocked or its handler runs, further arrivals merge.
 */
module SignalWait {

  const LINES: nat := 1000
  const STARS: nat := 5

  datatype Program = Atomic | TwoStep

  datatype Pc =
    | Unblock0          // suspend1.c 35
    | Block0            // suspend1.c 36
    | Top               // suspend1.c 38-40, suspend.c 35-37
    | Star(j: nat)      // the inner loop
    | Newline
    | Unblock           // suspend.c 44
    | Wait              // about to call sigsuspend (47) or pause (46)
    | Waiting           // blocked in it
    | Restore           // the mask the process started with comes back
    | Finished          // main has returned, or SIGTSTP made it exit

  datatype State = State(
    program: Program, pc: Pc, i: nat,
    inherited: bool,     // SIGINT was blocked when the process started
    oldset: bool,        // SIGINT in the mask that line 36 saved
    blocked: bool,       // SIGINT in the current mask
    pending: bool,
    handling: bool,      // the handler is running
    after: bool,         // the mask when it returns
    started: bool,       // SIGINT has been blocked for the first time
    stars: nat,          // stars written
    printed: nat,        // lines written
    released: nat,       // waits that have returned
    inWait: nat,         // handler runs begun inside a wait, since `started`
    outside: nat)        // handler runs begun elsewhere, since `started`

  datatype Event = Arrive | Stop | Deliver | HandlerReturn | Main

  ghost predicate Init(s: State) {
    && s.pc == (if s.program.Atomic? then Unblock0 else Top)
    && s.i == 0 && s.blocked == s.inherited && !s.handling && !s.started
    && s.stars == 0 && s.printed == 0 && s.released == 0 && s.inWait == 0 && s.outside == 0
  }

  predicate Enabled(s: State, e: Event) {
    match e
    case Arrive => true
    case Stop => true
    case Deliver => s.pending && !s.blocked && !s.handling && !s.pc.Finished?
    case HandlerReturn => s.handling
    case Main => !s.handling && !(s.pending && !s.blocked) && !s.pc.Waiting? && !s.pc.Finished?
  }

  /** The handler starts: SIGINT stays blocked until it returns, a `sigsuspend` then undoes its own mask. */
  function StartHandler(s: State): State {
    s.(pending := false, handling := true, blocked := true,
       after := if s.pc.Waiting? && s.program.Atomic? then true else false,
       inWait := s.inWait + if s.started && s.pc.Waiting? then 1 else 0,
       outside := s.outside + if s.started && !s.pc.Waiting? then 1 else 0)
  }

  function EndHandler(s: State): State {
    var s' := s.(handling := false, blocked := s.after);
    if s.pc.Waiting? then s'.(released := s.released + 1, i := s.i + 1, pc := Top) else s'
  }

  /** Where the main flow goes next. */
  function NextPc(s: State): Pc {
    match s.pc
    case Unblock0 => Block0
    case Block0 => Top
    case Top => if s.i < LINES then Star(0) else Restore
    case Star(j) => if j < STARS then Star(j + 1) else Newline
    case Newline => if s.program.Atomic? then Wait else Unblock
    case Unblock => Wait
    case Wait => Waiting
    case Waiting => Waiting
    case Restore => Finished
    case Finished => Finished
  }

  /** Whether SIGINT is in the mask after the step. */
  function NextBlocked(s: State): bool {
    match s.pc
    case Unblock0 => false
    case Block0 => true
    case Top => if s.i < LINES then true else s.blocked
    case Unblock => false
    case Wait => if s.program.Atomic? then s.oldset else s.blocked
    case Restore => s.inherited
    case _ => s.blocked
  }

  function MainStep(s: State): State {
    s.(pc := NextPc(s),
       blocked := NextBlocked(s),
       oldset := if s.pc.Block0? then s.blocked else s.oldset,
       started := s.started || s.pc.Block0? || (s.pc.Top? && s.i < LINES),
       stars := if s.pc.Star? && s.pc.j < STARS then s.stars + 1 else s.stars,
       printed := if s.pc.Newline? then s.printed + 1 else s.printed)
  }

  function Apply(s: State, e: Event): State {
    match e
    case Arrive => s.(pending := true)
    case Stop => s.(pc := Finished)
    case Deliver => StartHandler(s)
    case HandlerReturn => EndHandler(s)
    case Main => MainStep(s)
  }

  ghost predicate IsRun(run: seq<State>, es: seq<Event>) {
    && |run| == |es| + 1 && Init(run[0])
    && forall k :: 0 <= k < |es| ==> Enabled(run[k], es[k]) && run[k + 1] == Apply(run[k], es[k])
  }

  ghost predicate Reachable(s: State) {
    exists run, es :: IsRun(run, es) && run[|es|] == s
  }

  // ---- what every step keeps ----

  /** A line has been written and its wait has not returned. */
  predicate LineOut(s: State) {
    s.pc.Unblock? || s.pc.Wait? || s.pc.Waiting?
  }

  /** The mask in the `sigsuspend` version. */
  ghost predicate AtomicMask(s: State) {
    && !s.pc.Unblock?
    && (s.pc.Block0? && !s.handling ==> !s.blocked)
    && (s.started ==> !s.oldset)
    && (s.started && !s.pc.Waiting? ==> s.blocked && !s.handling)
    && (s.pc.Waiting? && !s.handling ==> !s.blocked)
    && (s.handling ==> s.blocked && (s.after <==> s.pc.Waiting?))
    && s.outside == 0
  }

  /** The mask in the two-step version. */
  ghost predicate TwoStepMask(s: State) {
    && !s.pc.Unblock0? && !s.pc.Block0?
    && (s.pc.Star? || s.pc.Newline? || s.pc.Unblock? ==> s.blocked && !s.handling)
    && ((s.pc.Wait? || s.pc.Waiting?) && !s.handling ==> !s.blocked)
    && (s.handling ==> s.blocked && !s.after)
  }

  ghost predicate PrintedOk(s: State) {
    && (LineOut(s) ==> s.printed == s.released + 1)
    && (!LineOut(s) ==> s.printed == s.released)
    && (s.pc.Star? ==> s.pc.j <= STARS && s.stars == STARS * s.printed + s.pc.j)
    && (s.pc.Newline? ==> s.stars == STARS * s.printed + STARS)
    && (!s.pc.Star? && !s.pc.Newline? ==> s.stars == STARS * s.printed)
  }

  ghost predicate HandledOk(s: State) {
    && (s.handling && s.pc.Waiting? ==> s.inWait == s.released + 1)
    && (!(s.handling && s.pc.Waiting?) ==> s.inWait == s.released)
    && s.i == s.released
  }

  /** SIGINT has been blocked once the loop, or the line before it, is reached. */
  ghost predicate StartOk(s: State) {
    s.started <==> !BeforeStart(s)
  }

  predicate BeforeStart(s: State) {
    s.pc.Unblock0? || s.pc.Block0? || (s.pc.Top? && s.i == 0 && s.program.TwoStep?)
  }

  /** The loop variable. */
  ghost predicate IndexOk(s: State) {
    && s.i <= LINES
    && (s.pc.Star? || s.pc.Newline? || LineOut(s) ==> s.i < LINES)
    && (s.pc.Restore? ==> s.i == LINES)
  }

  ghost predicate Inv(s: State) {
    !s.pc.Finished? ==>
      PrintedOk(s) && HandledOk(s) && StartOk(s) && IndexOk(s)
      && (if s.program.Atomic? then AtomicMask(s) else TwoStepMask(s))
  }

  lemma MainKeepsPrinted(s: State)
    requires PrintedOk(s) && Enabled(s, Main)
    ensures PrintedOk(MainStep(s))
  {
  }

  lemma MainKeepsHandled(s: State)
    requires HandledOk(s) && Enabled(s, Main)
    ensures HandledOk(MainStep(s))
  {
  }

  lemma MainKeepsStart(s: State)
    requires StartOk(s) && Enabled(s, Main) && (s.program.TwoStep? ==> !s.pc.Unblock0? && !s.pc.Block0?)
    ensures MainStep(s).pc.Finished? || StartOk(MainStep(s))
  {
  }

  lemma MainKeepsIndex(s: State)
    requires IndexOk(s) && Enabled(s, Main)
    ensures IndexOk(MainStep(s))
  {
  }

  lemma MainKeepsAtomic(s: State)
    requires s.program.Atomic? && AtomicMask(s) && Enabled(s, Main)
    requires StartOk(s)
    ensures MainStep(s).pc.Finished? || AtomicMask(MainStep(s))
  {
  }

  lemma MainKeepsTwoStep(s: State)
    requires s.program.TwoStep? && TwoStepMask(s) && Enabled(s, Main)
    ensures MainStep(s).pc.Finished? || TwoStepMask(MainStep(s))
  {
  }

  lemma MainKeepsInv(s: State)
    requires Inv(s) && Enabled(s, Main)
    ensures Inv(MainStep(s))
  {
    MainKeepsPrinted(s);
    MainKeepsHandled(s);
    MainKeepsStart(s);
    MainKeepsIndex(s);
    if s.program.Atomic? { MainKeepsAtomic(s); } else { MainKeepsTwoStep(s); }
  }

  lemma HandlerKeepsInv(s: State)
    requires Inv(s)
    ensures Enabled(s, Deliver) ==> Inv(StartHandler(s))
    ensures Enabled(s, HandlerReturn) ==> Inv(EndHandler(s))
  {
  }

  lemma ApplyKeepsInv(s: State, e: Event)
    requires Inv(s) && Enabled(s, e)
    ensures Inv(Apply(s, e))
  {
    if e.Main? { MainKeepsInv(s); } else { HandlerKeepsInv(s); }
  }

  lemma {:induction false} RunKeepsInv(run: seq<State>, es: seq<Event>, k: nat)
    requires IsRun(run, es) && k <= |es|
    ensures Inv(run[k])
  {
    if k > 0 {
      RunKeepsInv(run, es, k - 1);
      ApplyKeepsInv(run[k - 1], es[k - 1]);
    }
  }

  lemma ReachableInv(s: State)
    requires Reachable(s)
    ensures Inv(s)
  {
    var run, es :| IsRun(run, es) && run[|es|] == s;
    RunKeepsInv(run, es, |es|);
  }

  /**
   The `sigsuspend` version, over every run and from the first time SIGINT is blocked until the
   loop is left: the handler starts only inside a wait; handler runs, released lines and printed
   lines agree up to the one in progress; and a SIGINT that came while the line was printed
   releases it, because it can be delivered as soon as the wait begins.
   */
  lemma EverySignalReleases(s: State)
    requires Reachable(s) && s.program.Atomic? && s.started && !s.pc.Finished?
    ensures s.outside == 0
    ensures Enabled(s, Deliver) ==> s.pc.Waiting?
    ensures s.released <= s.inWait <= s.released + 1 && (s.inWait == s.released + 1 <==> s.handling)
    ensures s.released <= s.printed <= s.released + 1
    ensures s.pc.Waiting? ==> s.stars == STARS * s.printed && s.printed == s.released + 1
    ensures s.pc.Waiting? && s.pending && !s.handling ==> Enabled(s, Deliver)
    ensures s.pc.Wait? && s.pending ==> Enabled(MainStep(s), Deliver)
  {
    ReachableInv(s);
  }

  // ---- how the programs end ----

  lemma {:induction false} MaskIsRemembered(run: seq<State>, es: seq<Event>, k: nat)
    requires IsRun(run, es) && k <= |es|
    ensures run[k].inherited == run[0].inherited
  {
    if k > 0 {
      MaskIsRemembered(run, es, k - 1);
      InheritedStays(run[k - 1], es[k - 1]);
    }
  }

  lemma InheritedStays(s: State, e: Event)
    ensures Apply(s, e).inherited == s.inherited
  {
    match e
    case Arrive =>
    case Stop =>
    case Deliver =>
    case HandlerReturn =>
    case Main =>
  }

  /**
   Either program, when it leaves its loop, has printed `LINES` lines of `STARS` stars, each released
   by its own wait, and ends with SIGINT blocked exactly if it was when the program started.
   */
  lemma EndsAsItBegan(run: seq<State>, es: seq<Event>, k: nat)
    requires IsRun(run, es) && k < |es| && es[k] == Main && run[k].pc.Restore?
    ensures var s := run[k + 1];
      && s.pc == Finished && s.printed == LINES && s.released == LINES && s.stars == STARS * LINES
      && s.blocked == run[0].inherited
  {
    RunKeepsInv(run, es, k);
    MaskIsRemembered(run, es, k);
    assert run[k + 1] == Apply(run[k], es[k]);
  }

  lemma FinishStep(s: State, e: Event)
    requires Enabled(s, e)
    ensures Apply(s, e).pc.Finished? <==> s.pc.Finished? || e == Stop || (e == Main && s.pc.Restore?)
  {
    match e
    case Arrive =>
    case Stop =>
    case Deliver =>
    case HandlerReturn =>
    case Main =>
  }

  /** A program has ended if and only if it left its loop or SIGTSTP came. */
  lemma {:induction false} EndsIff(run: seq<State>, es: seq<Event>, n: nat)
    requires IsRun(run, es) && n <= |es|
    ensures run[n].pc.Finished? <==> exists k :: 0 <= k < n && (es[k] == Stop || (es[k] == Main && run[k].pc.Restore?))
    decreases n
  {
    if n > 0 {
      EndsIff(run, es, n - 1);
      FinishStep(run[n - 1], es[n - 1]);
    }
  }

  // ---- when the two-step version keeps up ----

  predicate InPause(s: State) {
    s.pc.Waiting? && !s.handling
  }

  /**
   The event puts a SIGINT where no wait will get it: SIGINT arrives, once it has been blocked for
   the first time, while `pause` is not waiting or its handler is running; or it is blocked for the
   first time with one left over from before.
   */
  predicate Misplaces(s: State, e: Event) {
    || (e.Arrive? && s.started && !InPause(s))
    || (!s.started && Apply(s, e).started && s.pending)
  }

  /** The schedule the two-step version needs in its first `n` steps. */
  ghost predicate ArrivesOnlyInWaits(run: seq<State>, es: seq<Event>, n: nat)
    requires |run| > n && |es| >= n
  {
    forall k :: 0 <= k < n ==> !Misplaces(run[k], es[k])
  }

  /** A SIGINT is pending that no wait will get: it is handled before the next one begins. */
  predicate Missing(s: State) {
    s.started && s.pending && !InPause(s)
  }

  /** A SIGINT was handled outside a wait, or is bound to be. */
  predicate Missed(s: State) {
    s.outside > 0 || Missing(s)
  }

  lemma MainKeepsMisses(s: State)
    requires Inv(s) && s.program.TwoStep? && Enabled(s, Main) && !MainStep(s).pc.Finished?
    ensures Missed(MainStep(s)) <==> Missed(s) || Misplaces(s, Main)
  {
  }

  /** A miss stays a miss, and comes only from a misplaced SIGINT. */
  lemma MissesStay(s: State, e: Event)
    requires Inv(s) && s.program.TwoStep? && Enabled(s, e) && !Apply(s, e).pc.Finished?
    ensures Missed(Apply(s, e)) <==> Missed(s) || Misplaces(s, e)
  {
    if e.Main? { MainKeepsMisses(s); }
  }

  /** The program does not change, and what is unfinished was so before. */
  lemma {:induction false} Earlier(run: seq<State>, es: seq<Event>, k: nat, n: nat)
    requires IsRun(run, es) && k <= n <= |es| && !run[n].pc.Finished?
    ensures !run[k].pc.Finished? && run[k].program == run[n].program
    decreases n - k
  {
    if k < n {
      Earlier(run, es, k + 1, n);
      StaysFinished(run[k], es[k]);
    }
  }

  lemma StaysFinished(s: State, e: Event)
    ensures Apply(s, e).program == s.program
    ensures s.pc.Finished? ==> Apply(s, e).pc.Finished?
  {
    match e
    case Arrive =>
    case Stop =>
    case Deliver =>
    case HandlerReturn =>
    case Main =>
  }

  lemma StepMisses(run: seq<State>, es: seq<Event>, k: nat, n: nat)
    requires IsRun(run, es) && k < n <= |es| && run[n].program.TwoStep? && !run[n].pc.Finished?
    ensures Missed(run[k + 1]) <==> Missed(run[k]) || Misplaces(run[k], es[k])
  {
    Earlier(run, es, k, n);
    Earlier(run, es, k + 1, n);
    RunKeepsInv(run, es, k);
    MissesStay(run[k], es[k]);
  }

  lemma {:induction false} MissesAddUp(run: seq<State>, es: seq<Event>, n: nat)
    requires n < |run| && n <= |es| && !Missed(run[0])
    requires forall k :: 0 <= k < n ==> (Missed(run[k + 1]) <==> Missed(run[k]) || Misplaces(run[k], es[k]))
    ensures ArrivesOnlyInWaits(run, es, n) <==> !Missed(run[n])
    decreases n
  {
    if n > 0 {
      MissesAddUp(run, es, n - 1);
      var k := n - 1;
      assert Missed(run[k + 1]) <==> Missed(run[k]) || Misplaces(run[k], es[k]);
    }
  }

  /**
   The two-step version over whole runs: every handler run since SIGINT was first blocked has
   released a line, and no pending SIGINT is bound to be handled elsewhere, if and only if the
   schedule delivered SIGINT only into waits.
   */
  lemma ReleasesIff(run: seq<State>, es: seq<Event>, n: nat)
    requires IsRun(run, es) && run[0].program.TwoStep? && n <= |es| && !run[n].pc.Finished?
    ensures ArrivesOnlyInWaits(run, es, n) <==> run[n].outside == 0 && !Missing(run[n])
    ensures run[n].inWait == if run[n].handling && run[n].pc.Waiting? then run[n].released + 1 else run[n].released
  {
    Earlier(run, es, 0, n);
    forall k | 0 <= k < n
      ensures Missed(run[k + 1]) <==> Missed(run[k]) || Misplaces(run[k], es[k])
    {
      StepMisses(run, es, k, n);
    }
    MissesAddUp(run, es, n);
    RunKeepsInv(run, es, n);
  }

  // ---- a signal that is lost to its line ----

  lemma Extend(s: State, e: Event)
    requires Reachable(s) && Enabled(s, e)
    ensures Reachable(Apply(s, e))
  {
    var run, es :| IsRun(run, es) && run[|es|] == s;
    var run', es' := run + [Apply(s, e)], es + [e];
    forall k | 0 <= k < |es'|
      ensures Enabled(run'[k], es'[k]) && run'[k + 1] == Apply(run'[k], es'[k])
    {
      if k < |es| { assert run'[k] == run[k] && run'[k + 1] == run[k + 1] && es'[k] == es[k]; }
    }
    assert IsRun(run', es') && run'[|es'|] == Apply(s, e);
  }

  const FIRST_LINE: State :=
    State(TwoStep, Star(0), 0, false, false, true, false, false, false, true, 0, 0, 0, 0, 0)

  lemma {:induction false} StarsPrinted(j: nat)
    requires j <= STARS
    ensures Reachable(FIRST_LINE.(pc := Star(j), stars := j))
  {
    if j == 0 {
      var s := State(TwoStep, Top, 0, false, false, false, false, false, false, false, 0, 0, 0, 0, 0);
      assert IsRun([s], []);
      Extend(s, Main);
    } else {
      StarsPrinted(j - 1);
      Extend(FIRST_LINE.(pc := Star(j - 1), stars := j - 1), Main);
    }
  }

  /**
   In the two-step version a SIGINT that arrives while the line is printed is handled between the
   unblock and the `pause`: a state is reachable in which one SIGINT has been handled, none is
   pending, and the line is still waiting.
   */
  lemma SignalCanMiss() returns (s: State)
    ensures Reachable(s) && s.program.TwoStep? && s.pc.Waiting? && !s.pending && !s.handling
    ensures s.outside == 1 && s.released == 0 && s.printed == 1
    ensures !Enabled(s, Main) && !Enabled(s, Deliver) && !Enabled(s, HandlerReturn)
  {
    StarsPrinted(STARS);
    var s1 := FIRST_LINE.(pc := Star(STARS), stars := STARS);
    Extend(s1, Arrive);
    var s2 := s1.(pending := true);
    Extend(s2, Main);
    var s3 := s2.(pc := Newline);
    assert Apply(s2, Main) == s3;
    Extend(s3, Main);
    var s4 := s3.(pc := Unblock, printed := 1);
    assert Apply(s3, Main) == s4;
    s := MissesFrom(s4);
  }

  lemma MissesFrom(s4: State) returns (s: State)
    requires Reachable(s4) && s4 == FIRST_LINE.(pc := Unblock, stars := STARS, printed := 1, pending := true)
    ensures Reachable(s) && s.program.TwoStep? && s.pc.Waiting? && !s.pending && !s.handling && !s.blocked
    ensures s.outside == 1 && s.released == 0 && s.printed == 1
  {
    Extend(s4, Main);
    var s5 := s4.(blocked := false, pc := Wait);
    assert Apply(s4, Main) == s5;
    Extend(s5, Deliver);
    var s6 := s5.(pending := false, handling := true, blocked := true, outside := 1);
    assert Apply(s5, Deliver) == s6;
    Extend(s6, HandlerReturn);
    var s7 := s6.(handling := false, blocked := false);
    assert Apply(s6, HandlerReturn) == s7;
    Extend(s7, Main);
    s := s7.(pc := Waiting);
    assert Apply(s7, Main) == s;
  }
}
