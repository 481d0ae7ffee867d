/**
 With callbacks that leave the table alone, the countdown table refines a board of absolute
 deadlines: a tick takes off and fires exactly the entries due on it, in slot order, and
 touches nothing else.
 */
module TimerBoard {
  import opened Slots
  import opened TimerSpec
  import opened TimerDeadlines

  datatype Entry = Entry(due: int, func: nat, arg: nat, uid: nat)

  datatype Board = Board(now: nat, entries: map<nat, Entry>, added: nat, fired: seq<Firing>)

  /** The lowest slot without an entry, or -1 when the board is full. */
  function FirstFree(entries: map<nat, Entry>, i: nat): int
    requires i <= MAX_TASKS
    decreases MAX_TASKS - i, entries
  {
    if i == MAX_TASKS then -1 else if i !in entries then i else FirstFree(entries, i + 1)
  }

  /** The firings of tick `now`, in slot order from slot `i`. */
  function DueList(entries: map<nat, Entry>, now: nat, i: nat): seq<Firing>
    requires i <= MAX_TASKS
    decreases MAX_TASKS - i, entries
  {
    if i == MAX_TASKS then []
    else (if i in entries && entries[i].due == now
          then [Firing(entries[i].uid, now, entries[i].func, entries[i].arg)] else [])
         + DueList(entries, now, i + 1)
  }

  function BoardStep(b: Board, e: Event): Board {
    match e
    case EAdd(sec, func, arg) =>
      var id := FirstFree(b.entries, 0);
      if id < 0 then b
      else b.(entries := b.entries[id := Entry(b.now + sec, func, arg, b.added)], added := b.added + 1)
    case ECancel(id) => b.(entries := b.entries - {id})
    case ETick(_) =>
      var now := b.now + 1;
      b.(now := now,
         fired := b.fired + DueList(b.entries, now, 0),
         entries := NotDue(b.entries, now))
  }

  function BoardRun(b: Board, es: seq<Event>): Board
    decreases |es|
  {
    if es == [] then b else BoardStep(BoardRun(b, es[..|es| - 1]), es[|es| - 1])
  }

  /** The board a table stands for between ticks: a countdown of `sec` is due at `now + sec`. */
  ghost function Abs(s: State): Board
    requires Shaped(s)
  {
    Board(s.now, Entries(s.tasks, s.now), |s.jobs|, s.fired)
  }

  ghost function Entries(tasks: seq<Option<Task>>, now: nat): map<nat, Entry>
    requires |tasks| == MAX_TASKS
  {
    map j: nat | j < MAX_TASKS && tasks[j].Some? ::
      Entry(now + tasks[j].value.sec, tasks[j].value.func, tasks[j].value.arg, tasks[j].value.uid)
  }

  ghost predicate Silent(e: Event) {
    e.ETick? ==> forall u :: e.cb(u) == []
  }

  // ---- one tick with silent callbacks ----

  function Countdown(t: Option<Task>): Option<Task> {
    if t.None? || t.value.sec == 1 then None else Some(t.value.(sec := t.value.sec - 1))
  }

  /** The slots that reach zero, from slot `i` on. */
  function Expired(tasks: seq<Option<Task>>, now: nat, i: nat): seq<Firing>
    requires i <= |tasks|
    decreases |tasks| - i
  {
    if i == |tasks| then []
    else ExpiredAt(tasks[i], now) + Expired(tasks, now, i + 1)
  }

  function ExpiredAt(t: Option<Task>, now: nat): seq<Firing> {
    if t.Some? && t.value.sec == 1 then [Firing(t.value.uid, now, t.value.func, t.value.arg)] else []
  }

  lemma {:induction false} ExpiredSuffix(a: seq<Option<Task>>, b: seq<Option<Task>>, now: nat, i: nat)
    requires |a| == |b| && i <= |a| && a[i..] == b[i..]
    ensures Expired(a, now, i) == Expired(b, now, i)
    decreases |a| - i
  {
    if i < |a| {
      assert a[i] == a[i..][0] == b[i..][0] == b[i];
      assert a[i + 1..] == a[i..][1..] == b[i..][1..] == b[i + 1..];
      ExpiredSuffix(a, b, now, i + 1);
    }
  }

  lemma SilentVisit(s: State, i: nat, cb: Callbacks)
    requires Shaped(s) && i < MAX_TASKS && forall u :: cb(u) == []
    ensures Visit(s, i, cb) == s.(tasks := s.tasks[i := Countdown(s.tasks[i])],
                                  fired := s.fired + ExpiredAt(s.tasks[i], s.now))
  {
  }

  /** The slots from `i` on count down, the others stay. */
  predicate CountedDown(tasks: seq<Option<Task>>, tasks': seq<Option<Task>>, i: nat) {
    && |tasks'| == |tasks|
    && forall j :: 0 <= j < |tasks| ==> tasks'[j] == if j < i then tasks[j] else Countdown(tasks[j])
  }

  lemma CountsDownFirst(tasks: seq<Option<Task>>, tasks': seq<Option<Task>>, i: nat)
    requires i < |tasks| && CountedDown(tasks[i := Countdown(tasks[i])], tasks', i + 1)
    ensures CountedDown(tasks, tasks', i)
  {
  }

  lemma {:induction false} SilentScan(s: State, i: nat, cb: Callbacks)
    requires Shaped(s) && i <= MAX_TASKS && forall u :: cb(u) == []
    ensures var s' := Scan(s, i, cb);
      && s' == s.(tasks := s'.tasks, fired := s.fired + Expired(s.tasks, s.now, i))
      && CountedDown(s.tasks, s'.tasks, i)
    decreases MAX_TASKS - i
  {
    if i < MAX_TASKS {
      var s1 := Visit(s, i, cb);
      SilentVisit(s, i, cb);
      SilentScan(s1, i + 1, cb);
      CountsDownFirst(s.tasks, Scan(s, i, cb).tasks, i);
      ExpiredSuffix(s.tasks, s1.tasks, s.now, i + 1);
      assert s1.fired + Expired(s.tasks, s.now, i + 1) == s.fired + Expired(s.tasks, s.now, i);
    }
  }

  lemma {:induction false} ExpiredIsDue(tasks: seq<Option<Task>>, now: nat, i: nat)
    requires |tasks| == MAX_TASKS && i <= MAX_TASKS
    ensures Expired(tasks, now + 1, i) == DueList(Entries(tasks, now), now + 1, i)
    decreases MAX_TASKS - i
  {
    if i < MAX_TASKS { ExpiredIsDue(tasks, now, i + 1); }
  }

  function NotDue(entries: map<nat, Entry>, now: nat): map<nat, Entry> {
    map i | i in entries && entries[i].due != now :: entries[i]
  }

  /** Counting down by one keeps every deadline and drops the entries that are due. */
  lemma EntriesAfterTick(tasks: seq<Option<Task>>, tasks': seq<Option<Task>>, now: nat)
    requires |tasks| == MAX_TASKS && CountedDown(tasks, tasks', 0)
    ensures Entries(tasks', now + 1) == NotDue(Entries(tasks, now), now + 1)
  {
  }

  lemma TickRefines(s: State, cb: Callbacks)
    requires Shaped(s) && forall u :: cb(u) == []
    ensures Abs(Tick(s, cb)) == BoardStep(Abs(s), ETick(cb)) && Tick(s, cb).doubleFree == s.doubleFree
  {
    SilentScan(s.(now := s.now + 1), 0, cb);
    CountdownRefines(s, Tick(s, cb), cb);
  }

  lemma CountdownRefines(s: State, s': State, cb: Callbacks)
    requires Shaped(s) && s'.now == s.now + 1 && s'.jobs == s.jobs
    requires CountedDown(s.tasks, s'.tasks, 0) && s'.fired == s.fired + Expired(s.tasks, s.now + 1, 0)
    ensures Abs(s') == BoardStep(Abs(s), ETick(cb))
  {
    EntriesAfterTick(s.tasks, s'.tasks, s.now);
    ExpiredIsDue(s.tasks, s.now, 0);
  }

  lemma {:induction false} FreeAgrees(tasks: seq<Option<Task>>, now: nat, i: nat)
    requires |tasks| == MAX_TASKS && i <= MAX_TASKS
    ensures FreePos(tasks, i) == FirstFree(Entries(tasks, now), i)
    decreases MAX_TASKS - i
  {
    if i < MAX_TASKS { FreeAgrees(tasks, now, i + 1); }
  }

  lemma StepRefines(s: State, e: Event)
    requires Shaped(s) && Silent(e)
    ensures Abs(Step(s, e)) == BoardStep(Abs(s), e) && Step(s, e).doubleFree == s.doubleFree
  {
    match e
    case EAdd(sec, func, arg) =>
      FreeAgrees(s.tasks, s.now, 0);
      assert Abs(Step(s, e)).entries == BoardStep(Abs(s), e).entries;
    case ECancel(id) =>
      assert Abs(Step(s, e)).entries == BoardStep(Abs(s), e).entries;
    case ETick(cb) => TickRefines(s, cb);
  }

  /** Every run of additions, cancellations and silent ticks shows the board's behaviour, firing by firing. */
  lemma {:induction false} TableRefinesBoard(s: State, es: seq<Event>)
    requires Shaped(s) && forall k :: 0 <= k < |es| ==> Silent(es[k])
    ensures Abs(Run(s, es)) == BoardRun(Abs(s), es)
    ensures Run(s, es).doubleFree == s.doubleFree
    decreases |es|
  {
    if es != [] {
      TableRefinesBoard(s, es[..|es| - 1]);
      StepRefines(Run(s, es[..|es| - 1]), es[|es| - 1]);
    }
  }
}
