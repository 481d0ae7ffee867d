/**
 `signal/token.c`: a copy loop that spends one token for each read while the alarm handler
 refills them.  The alarm may fall between any two steps of the main flow, including the load
 and the store of `token--`.
 */
module TokenCat {
  import opened Common

  const TOKEN_MAX: nat := 1024
  const CPS: nat := 10
  const U32: nat := 0x1_0000_0000

  datatype Pc =
    | Test                 // 37
    | Call                 // 38, about to call pause
    | Paused               // 38, blocked until a handler has run
    | Read                 // 40
    | Load                 // 49, load
    | Store(reg: nat)      // 49, store
    | Check                // 52
    | Write                // 57-58
    | Exit(ok: bool)       // 73, or 46 and 65

  datatype State = State(
    src: seq<Byte>, pos: nat,           // the file and its offset
    token: nat,                         // unsigned int
    buf: seq<Byte>, sz: nat, cur: nat,  // locals of main
    out: seq<Byte>,                     // standard output
    pc: Pc,
    ticks: nat, served: nat, bytes: nat,  // handler runs, successful reads, bytes they brought
    capped: nat,                        // handler runs that found the count full
    open: nat, lost: nat)               // tokens credited since the load of `token--`, and those it erased

  datatype Event =
    | Alarm
    | Go                   // a step without a choice
    | ReadOk(k: nat)
    | WriteOk(r: nat)
    | Interrupted          // EINTR from read or write
    | Failed               // another error from read or write

  ghost predicate Init(s: State) {
    && s.pos == 0 && s.token == 0 && |s.buf| == CPS && s.sz == 0 && s.cur == 0 && s.out == [] && s.pc == Test
    && s.ticks == 0 && s.served == 0 && s.bytes == 0 && s.capped == 0 && s.open == 0 && s.lost == 0
  }

  /** `read` brings at most `CPS` bytes, and none only at the end of the file. */
  predicate Enabled(s: State, e: Event) {
    match e
    case Alarm => true
    case Go => s.pc.Test? || s.pc.Call? || s.pc.Load? || s.pc.Store? || s.pc.Check? || (s.pc.Write? && s.sz == 0)
    case ReadOk(k) =>
      && s.pc.Read? && s.pos <= |s.src| && |s.buf| == CPS
      && k <= CPS && k <= |s.src| - s.pos && (k == 0 ==> s.pos == |s.src|)
    case WriteOk(r) => s.pc.Write? && 0 < s.sz && r <= s.sz && s.cur + s.sz <= |s.buf|
    case Interrupted => s.pc.Read? || (s.pc.Write? && 0 < s.sz)
    case Failed => s.pc.Read? || (s.pc.Write? && 0 < s.sz)
  }

  /** `on_alarm`; a `pause` in progress returns once it has run. */
  function OnAlarm(s: State): State {
    var full := s.token >= TOKEN_MAX;
    s.(token := if full then s.token else (s.token + 1) % U32,
       ticks := s.ticks + 1,
       capped := if full then s.capped + 1 else s.capped,
       open := if s.pc.Store? && !full then s.open + 1 else s.open,
       pc := if s.pc.Paused? then Test else s.pc)
  }

  function Apply(s: State, e: Event): State
    requires Enabled(s, e)
  {
    match e
    case Alarm => OnAlarm(s)
    case Go =>
      (match s.pc
       case Test => s.(pc := if s.token <= 0 then Call else Read)
       case Call => s.(pc := Paused)
       case Load => s.(pc := Store(s.token), open := 0)
       case Store(reg) => s.(token := (reg + U32 - 1) % U32, lost := s.lost + s.open, open := 0, pc := Check)
       case Check => if s.sz == 0 then s.(pc := Exit(true)) else s.(cur := 0, pc := Write)
       case _ => s.(pc := Test))
    case ReadOk(k) =>
      s.(buf := s.src[s.pos..s.pos + k] + s.buf[k..], sz := k, pos := s.pos + k,
         served := s.served + 1, bytes := s.bytes + k, pc := Load)
    case WriteOk(r) => s.(out := s.out + s.buf[s.cur..s.cur + r], cur := s.cur + r, sz := s.sz - r)
    case Interrupted => if s.pc.Read? then s.(pc := Test) else s
    case Failed => s.(pc := Exit(false))
  }

  ghost predicate IsRun(run: seq<State>, es: seq<Event>) {
    && |run| == |es| + 1 && Init(run[0])
    && forall k :: 0 <= k < |es| ==> Enabled(run[k], es[k]) && run[k + 1] == Apply(run[k], es[k])
  }

  // ---- the token count ----

  /** The count with the token of a read that is not yet paid for taken out. */
  function Unspent(s: State): int {
    if s.pc.Load? || s.pc.Store? then s.token - 1 else s.token
  }

  ghost predicate TokenInv(s: State) {
    && s.token <= TOKEN_MAX
    && (s.pc.Read? || s.pc.Load? ==> s.token >= 1)
    && (s.pc.Store? ==> 1 <= s.pc.reg && s.token == s.pc.reg + s.open)
    && s.bytes <= CPS * s.served
    && s.served + Unspent(s) + s.lost + s.capped == s.ticks
  }

  /** A tick adds at most one to reads plus unspent tokens, nothing else adds to it, and nothing is unaccounted for. */
  ghost predicate WithinBudget(s: State, s': State) {
    && TokenInv(s')
    && s'.served + Unspent(s') <= s.served + Unspent(s) + (s'.ticks - s.ticks)
    && s'.bytes - s.bytes <= CPS * (s'.served - s.served)
  }

  lemma AlarmBudget(s: State)
    requires TokenInv(s)
    ensures WithinBudget(s, OnAlarm(s))
  {
  }

  lemma GoBudget(s: State)
    requires TokenInv(s) && Enabled(s, Go)
    ensures WithinBudget(s, Apply(s, Go))
  {
  }

  lemma StepBudget(s: State, e: Event)
    requires TokenInv(s) && Enabled(s, e)
    ensures WithinBudget(s, Apply(s, e))
  {
    match e
    case Alarm => AlarmBudget(s);
    case Go => GoBudget(s);
    case ReadOk(k) =>
    case WriteOk(r) =>
    case Interrupted =>
    case Failed =>
  }

  lemma {:induction false} TokensInRange(run: seq<State>, es: seq<Event>, k: nat)
    requires IsRun(run, es) && k <= |es|
    ensures TokenInv(run[k])
  {
    if k > 0 {
      TokensInRange(run, es, k - 1);
      StepBudget(run[k - 1], es[k - 1]);
    }
  }

  lemma {:induction false} Budget(run: seq<State>, es: seq<Event>, i: nat, j: nat)
    requires IsRun(run, es) && i <= j <= |es|
    ensures TokenInv(run[i]) && TokenInv(run[j])
    ensures run[j].served + Unspent(run[j]) <= run[i].served + Unspent(run[i]) + (run[j].ticks - run[i].ticks)
    ensures run[j].bytes - run[i].bytes <= CPS * (run[j].served - run[i].served)
    decreases j
  {
    TokensInRange(run, es, i);
    if i < j {
      Budget(run, es, i, j - 1);
      StepBudget(run[j - 1], es[j - 1]);
    }
  }

  /**
   The exact ledger: every tick has paid for a read, is still unspent, was refused by the full
   count, or was erased by a `token--` whose load it followed.
   */
  lemma EveryTickAccounted(run: seq<State>, es: seq<Event>, k: nat)
    requires IsRun(run, es) && k <= |es|
    ensures run[k].served + Unspent(run[k]) + run[k].lost + run[k].capped == run[k].ticks
    ensures 0 <= Unspent(run[k]) <= TOKEN_MAX
  {
    TokensInRange(run, es, k);
  }

  /**
   The rate bound in every window of every run: between any two points the successful reads are at
   most the ticks in between plus `TOKEN_MAX`, and the bytes at most `CPS` times that; from the
   start they are at most the ticks.  The unsigned count stays within 0 and `TOKEN_MAX`.
   */
  lemma WindowedRate(run: seq<State>, es: seq<Event>, i: nat, j: nat)
    requires IsRun(run, es) && i <= j <= |es|
    ensures run[j].served - run[i].served <= run[j].ticks - run[i].ticks + TOKEN_MAX
    ensures run[j].bytes - run[i].bytes <= CPS * (run[j].ticks - run[i].ticks + TOKEN_MAX)
    ensures run[j].served <= run[j].ticks && run[j].bytes <= CPS * run[j].ticks
    ensures run[j].token <= TOKEN_MAX && (run[j].pc.Store? ==> run[j].pc.reg >= 1)
  {
    Budget(run, es, i, j);
    Budget(run, es, 0, j);
  }

  // ---- the bytes ----

  /** What is written and what is still to be written is what was read. */
  ghost predicate CopyInv(s: State) {
    && s.pos <= |s.src| && |s.buf| == CPS
    && (match s.pc
        case Load => s.sz <= CPS && s.out + s.buf[..s.sz] == s.src[..s.pos] && (s.sz == 0 ==> s.pos == |s.src|)
        case Store(_) => s.sz <= CPS && s.out + s.buf[..s.sz] == s.src[..s.pos] && (s.sz == 0 ==> s.pos == |s.src|)
        case Check => s.sz <= CPS && s.out + s.buf[..s.sz] == s.src[..s.pos] && (s.sz == 0 ==> s.pos == |s.src|)
        case Write => s.cur + s.sz <= CPS && s.out + s.buf[s.cur..s.cur + s.sz] == s.src[..s.pos]
        case Exit(ok) => s.out <= s.src[..s.pos] && (ok ==> s.out == s.src)
        case _ => s.out == s.src[..s.pos])
  }

  lemma MovesKeepCopy(s: State, e: Event)
    requires CopyInv(s) && Enabled(s, e) && (e.ReadOk? || e.WriteOk?)
    ensures CopyInv(Apply(s, e)) && Apply(s, e).src == s.src
  {
  }

  lemma StepKeepsCopy(s: State, e: Event)
    requires CopyInv(s) && Enabled(s, e)
    ensures CopyInv(Apply(s, e)) && Apply(s, e).src == s.src
  {
    if e.ReadOk? || e.WriteOk? { MovesKeepCopy(s, e); }
  }

  /**
   The throttled copy is exact: for every schedule of alarms, interrupted calls, short reads and
   short writes, the output is always a prefix of the file, and the whole file on a normal exit.
   */
  lemma {:induction false} CopyIsExact(run: seq<State>, es: seq<Event>, k: nat)
    requires IsRun(run, es) && k <= |es|
    ensures var s := run[k];
      && CopyInv(s) && s.src == run[0].src
      && s.out <= s.src
      && (s.pc == Exit(true) ==> s.out == s.src)
  {
    if k > 0 {
      CopyIsExact(run, es, k - 1);
      StepKeepsCopy(run[k - 1], es[k - 1]);
    }
    OutIsPrefix(run[k]);
  }

  lemma OutIsPrefix(s: State)
    requires CopyInv(s)
    ensures s.out <= s.src
  {
  }

  // ---- the loop goes on while it can, and ends with the file ----

  /** Main-flow steps until the next test, the pause or the exit. */
  function Left(pc: Pc, sz: nat): nat {
    match pc
    case Exit(_) => 0
    case Paused => 0
    case Call => 1
    case Read => 4
    case Test => 5
    case Write => sz + 6
    case Check => if sz == 0 then 1 else sz + 7
    case Store(_) => if sz == 0 then 2 else sz + 8
    case Load => if sz == 0 then 3 else sz + 9
  }

  function StepsLeft(s: State): nat {
    (if s.pos <= |s.src| then 16 * (|s.src| - s.pos) else 0) + Left(s.pc, s.sz)
  }

  /** What an event from outside, or a call that achieves nothing, adds. */
  function Allowance(e: Event): nat {
    match e
    case Alarm => 6
    case Interrupted => 2
    case WriteOk(r) => if r == 0 then 1 else 0
    case _ => 0
  }

  function Allowances(es: seq<Event>, k: nat): nat
    requires k <= |es|
    decreases k
  {
    if k == 0 then 0 else Allowances(es, k - 1) + Allowance(es[k - 1])
  }

  lemma StepCost(s: State, e: Event)
    requires CopyInv(s) && Enabled(s, e)
    ensures StepsLeft(Apply(s, e)) < StepsLeft(s) + Allowance(e)
  {
    match e
    case Alarm =>
    case Go =>
    case ReadOk(k) =>
    case WriteOk(r) =>
    case Interrupted =>
    case Failed =>
  }

  /**
   Every alarm, interrupted call and empty write buys a fixed number of steps: the length of any run is
   at most 16 times the bytes of the file, and 5, plus what these buy.
   */
  lemma {:induction false} RunBounded(run: seq<State>, es: seq<Event>, k: nat)
    requires IsRun(run, es) && k <= |es|
    ensures k + StepsLeft(run[k]) <= 16 * |run[0].src| + 5 + Allowances(es, k)
    decreases k
  {
    if k > 0 {
      RunBounded(run, es, k - 1);
      CopyIsExact(run, es, k - 1);
      StepCost(run[k - 1], es[k - 1]);
    }
  }

  /** Only an alarm can happen. */
  ghost predicate AtRest(s: State) {
    forall e: Event :: !e.Alarm? ==> !Enabled(s, e)
  }

  /** Wherever nothing but an alarm can happen, the program has exited or is paused. */
  lemma RestsOnlyPaused(run: seq<State>, es: seq<Event>, k: nat)
    requires IsRun(run, es) && k <= |es| && AtRest(run[k])
    ensures run[k].pc.Exit? || run[k].pc.Paused?
  {
    CopyIsExact(run, es, k);
    var s := run[k];
    assert !Enabled(s, Go) && !Enabled(s, Failed);
  }

  /** On its way out with the end of the file read. */
  predicate Leaving(s: State) {
    s.pc == Exit(true) || (s.sz == 0 && (s.pc.Load? || s.pc.Store? || s.pc.Check?))
  }

  lemma StepKeepsLeaving(s: State, e: Event)
    requires Leaving(s) && Enabled(s, e)
    ensures Leaving(Apply(s, e))
  {
  }

  /** A read that finds the end of the file is the last one, and leads to a normal exit. */
  lemma {:induction false} EndOfFileExits(run: seq<State>, es: seq<Event>, k: nat, n: nat)
    requires IsRun(run, es) && k < n <= |es| && es[k] == ReadOk(0)
    ensures Leaving(run[n]) && (AtRest(run[n]) ==> run[n].pc == Exit(true))
    decreases n
  {
    if n > k + 1 {
      EndOfFileExits(run, es, k, n - 1);
      StepKeepsLeaving(run[n - 1], es[n - 1]);
    }
    if !Enabled(run[n], Go) { assert run[n].pc == Exit(true); }
  }

  /** Between a test that found no token and the pause there are alarms and nothing else. */
  lemma {:induction false} OnlyAlarmsBetween(run: seq<State>, es: seq<Event>, t: nat, k: nat)
    requires IsRun(run, es) && t < k <= |es|
    requires run[t].pc.Test? && es[t] == Go && forall m :: t < m <= k ==> run[m].pc.Call?
    ensures (forall m :: t < m < k ==> es[m] == Alarm) && run[k].token <= TOKEN_MAX
    ensures run[k].token == 0 <==> k == t + 1
    decreases k
  {
    TokensInRange(run, es, k - 1);
    assert run[k] == Apply(run[k - 1], es[k - 1]);
    if k > t + 1 { OnlyAlarmsBetween(run, es, t, k - 1); }
  }

  /** A pause begins with tokens to spend if and only if an alarm fell between the test and the call. */
  lemma PausesWithTokenIff(run: seq<State>, es: seq<Event>, t: nat, k: nat)
    requires IsRun(run, es) && t < k < |es| && es[k] == Go
    requires run[t].pc.Test? && es[t] == Go && forall m :: t < m <= k ==> run[m].pc.Call?
    ensures run[k].token > 0 <==> exists m :: t < m < k && es[m] == Alarm
  {
    OnlyAlarmsBetween(run, es, t, k);
    if k > t + 1 { assert es[t + 1] == Alarm; }
  }

  lemma ExitStep(s: State, e: Event)
    requires Enabled(s, e)
    ensures Apply(s, e).pc == Exit(false) <==> s.pc == Exit(false) || e == Failed
    ensures Apply(s, e).pc == Exit(true) ==> s.pc == Exit(true) || (s.pc.Check? && s.sz == 0)
  {
    match e
    case Alarm =>
    case Go =>
    case ReadOk(k) =>
    case WriteOk(r) =>
    case Interrupted =>
    case Failed =>
  }

  /** A read of nothing is being paid for, or has been. */
  predicate EmptyRead(s: State) {
    s.sz == 0 && (s.pc.Load? || s.pc.Store? || s.pc.Check?)
  }

  lemma EmptyReadStep(s: State, e: Event)
    requires Enabled(s, e) && EmptyRead(Apply(s, e))
    ensures EmptyRead(s) || e == ReadOk(0)
  {
  }

  lemma {:induction false} EmptyReadComesFrom(run: seq<State>, es: seq<Event>, n: nat)
    requires IsRun(run, es) && n <= |es| && EmptyRead(run[n])
    ensures exists k :: 0 <= k < n && es[k] == ReadOk(0)
    decreases n
  {
    EmptyReadStep(run[n - 1], es[n - 1]);
    if es[n - 1] != ReadOk(0) { EmptyReadComesFrom(run, es, n - 1); }
  }

  /**
   The program exits with an error if and only if a call has failed otherwise than by EINTR, and exits
   normally only after a read that found the end of the file.
   */
  lemma {:induction false} ExitsIff(run: seq<State>, es: seq<Event>, n: nat)
    requires IsRun(run, es) && n <= |es|
    ensures run[n].pc == Exit(false) <==> exists k :: 0 <= k < n && es[k] == Failed
    ensures run[n].pc == Exit(true) ==> exists k :: 0 <= k < n && es[k] == ReadOk(0)
    decreases n
  {
    if n > 0 {
      ExitsIff(run, es, n - 1);
      ExitStep(run[n - 1], es[n - 1]);
      if EmptyRead(run[n - 1]) { EmptyReadComesFrom(run, es, n - 1); }
    }
  }

  /** An alarm ends a pause, and the next step of the loop leads to a read. */
  lemma AlarmLeadsToRead(run: seq<State>, es: seq<Event>, k: nat)
    requires IsRun(run, es) && k < |es| && run[k].pc.Paused? && es[k] == Alarm
    ensures Enabled(run[k + 1], Go) && Apply(run[k + 1], Go).pc == Read && run[k + 1].token >= 1
  {
    TokensInRange(run, es, k);
    assert run[k + 1] == Apply(run[k], es[k]);
  }
}
