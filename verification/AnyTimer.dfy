/** `signal/anytimer.c` on an array updated in place, routine by routine, against `TimerSpec`. */
module AnyTimer {
  import opened Slots
  import opened TimerSpec
  import opened TimerDeadlines
  import opened TimerWait

  class Timer {
    const tasks: array<Option<Task>>
    var now: nat            // from here on, history
    var jobs: seq<Job>
    var fired: seq<Firing>
    var cancelled: set<nat>
    var doubleFree: bool

    ghost predicate Valid() {
      tasks.Length == MAX_TASKS
    }

    ghost function View(): (s: State)
      reads this, tasks
      requires Valid()
      ensures Shaped(s)
    {
      State(tasks[..], now, jobs, fired, cancelled, doubleFree)
    }

    constructor ()
      ensures Valid() && fresh(tasks) && Empty(View())
    {
      tasks := new Option<Task>[MAX_TASKS](_ => None);
      now, jobs, fired, cancelled, doubleFree := 0, [], [], {}, false;
    }

    /** `getf_free_pos` */
    method GetFreePos() returns (r: int)
      requires Valid()
      ensures r == FreePos(tasks[..], 0)
    {
      var i := 0;
      while i < MAX_TASKS
        invariant 0 <= i <= MAX_TASKS
        invariant FreePos(tasks[..], 0) == FreePos(tasks[..], i)
      {
        if tasks[i].None? { return i; }
        i := i + 1;
      }
      return -1;
    }

    /** `at_add_job`; `pos` tells the history how far the current pass has come. */
    method AddJob(pos: nat, sec: int, func: nat, arg: nat) returns (id: int)
      requires Valid()
      modifies this, tasks
      ensures Valid()
      ensures (View(), id) == TimerSpec.AddJob(old(View()), pos, sec, func, arg)
    {
      id := GetFreePos();
      if id < 0 { return; }
      tasks[id] := Some(Task(sec, func, arg, id, |jobs|));
      jobs := jobs + [Job(sec, func, arg, id, now, pos)];
      assert View().tasks == TimerSpec.AddJob(old(View()), pos, sec, func, arg).0.tasks;
    }

    /** `at_cancel_job` */
    method CancelJob(id: nat)
      requires Valid() && id < MAX_TASKS
      modifies this, tasks
      ensures Valid() && View() == TimerSpec.CancelJob(old(View()), id)
    {
      var t := tasks[id];
      if t.None? { return; }
      tasks[id] := None;
      cancelled := cancelled + {t.value.uid};
      assert View().tasks == TimerSpec.CancelJob(old(View()), id).tasks;
    }

    /** The operations a callback of the job in slot `i` performs on the table. */
    method Callback(i: nat, ops: seq<Op>)
      requires Valid() && i < MAX_TASKS
      modifies this, tasks
      ensures Valid() && View() == RunOps(old(View()), i, ops)
    {
      var k := 0;
      while k < |ops|
        invariant 0 <= k <= |ops|
        invariant Valid() && RunOps(View(), i, ops[k..]) == RunOps(old(View()), i, ops)
      {
        ghost var before := View();
        match ops[k] {
          case Add(sec, func, arg) => var _ := AddJob(i + 1, sec, func, arg);
          case Cancel(id) =>
            if id == i { doubleFree := true; } else if id < MAX_TASKS { CancelJob(id); }
        }
        assert View() == RunOp(before, i, ops[k]);
        assert ops[k..][1..] == ops[k + 1..];
        k := k + 1;
      }
      assert ops[k..] == [];
    }

    /** `handle` */
    method Handle(cb: Callbacks)
      requires Valid()
      modifies this, tasks
      ensures Valid() && View() == Tick(old(View()), cb)
    {
      now := now + 1;
      var i := 0;
      while i < MAX_TASKS
        invariant 0 <= i <= MAX_TASKS
        invariant Valid() && Scan(View(), i, cb) == Tick(old(View()), cb)
      {
        HandleSlot(i, cb);
        i := i + 1;
      }
    }

    /** The loop body of `handle`. */
    method HandleSlot(i: nat, cb: Callbacks)
      requires Valid() && i < MAX_TASKS
      modifies this, tasks
      ensures Valid() && View() == Visit(old(View()), i, cb)
    {
      var slot := tasks[i];
      if slot.None? { return; }
      var t := slot.value.(sec := slot.value.sec - 1);
      tasks[i] := Some(t);
      assert View().tasks == old(View()).tasks[i := Some(t)];
      if t.sec == 0 {
        fired := fired + [Firing(t.uid, now, t.func, t.arg)];
        assert View() == Fire(old(View()), i);
        Callback(i, cb(t.uid));
        ghost var after := View();
        tasks[i] := None;
        assert View().tasks == after.tasks[i := None];
      }
    }

    /** `n` ticks, in a time that began with table `s`, whose slot `id` becomes empty on tick number `last`. */
    method Deliver(cb: Callbacks, n: nat, id: nat, ghost last: nat, ghost s: State)
      requires Valid() && id < MAX_TASKS && EmptiesOn(s, cb, id, last) && OnlyTicks(s, cb, View())
      modifies this, tasks
      ensures Valid() && now == old(now) + n && OnlyTicks(s, cb, View()) && (tasks[id].None? <==> last <= now)
    {
      var i := 0;
      while i < n
        invariant 0 <= i <= n && now == old(now) + i
        invariant Valid() && OnlyTicks(s, cb, View())
      {
        OnlyTicksOn(s, cb, View());
        Handle(cb);
        i := i + 1;
      }
      EmptyYet(s, cb, id, last, View());
    }

    /** One turn of the loop of `at_wait`, with ticks before the pause and after it. */
    method Pause(cb: Callbacks, before: nat, after: nat, id: nat, ghost last: nat, ghost s: State) returns (vain: bool)
      requires Valid() && id < MAX_TASKS && EmptiesOn(s, cb, id, last) && OnlyTicks(s, cb, View())
      modifies this, tasks
      ensures Valid() && now == old(now) + before + 1 + after && OnlyTicks(s, cb, View())
      ensures tasks[id].None? <==> last <= now
      ensures vain <==> last <= old(now) + before
    {
      Deliver(cb, before, id, last, s);
      vain := tasks[id].None?;
      Deliver(cb, 1 + after, id, last, s);
    }

    /**
     `at_wait` with ticks at every point: `early(r)` fall before its `r`-th test, `late(r)` between
     that test and the pause, and one ends the pause.  The slot becomes empty for good on tick number
     `last`; `TimerWait.JobLeaves` says when, and that the job has then fired or been cancelled.  The
     wait returns with the first test after that tick.  The tick ends the last pause unless it slipped
     through between the last test and its pause: then, and only then, that pause was begun in vain.
     */
    method Wait(id: nat, cb: Callbacks, early: nat -> nat, late: nat -> nat, ghost last: nat)
      returns (pauses: nat, vain: bool, ghost tests: seq<nat>)
      requires Valid() && id < MAX_TASKS && EmptiesOn(View(), cb, id, last)
      modifies this, tasks
      ensures Valid() && tasks[id].None? && OnlyTicks(old(View()), cb, View())
      ensures Schedule(early, late, old(now), tests) && |tests| == pauses + 1 && now == tests[pauses]
      ensures NoneAfter(tests, last) && last <= now
      ensures vain <==> Slipped(late, tests, last)
    {
      ghost var s := View();
      OnlyTicksRefl(s, cb);
      Deliver(cb, early(0), id, last, s);
      pauses, vain, tests := 0, false, [now];
      while tasks[id].Some?
        invariant Valid() && OnlyTicks(s, cb, View()) && (tasks[id].None? <==> last <= now)
        invariant Schedule(early, late, s.now, tests) && |tests| == pauses + 1 && now == tests[pauses]
        invariant NoneAfter(tests, last) && (vain <==> Slipped(late, tests, last))
        decreases last - now
      {
        ScheduleOn(early, late, s.now, tests, last, now + late(pauses) + 1 + early(pauses + 1));
        vain := Pause(cb, late(pauses), early(pauses + 1), id, last, s);
        tests := tests + [now];
        pauses := pauses + 1;
      }
    }
  }
}
