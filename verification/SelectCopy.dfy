/** The loops of `adio/select.c` over an array of pipes updated in place. */
module SelectCopy {
  import opened CopyPipes

  /** The first loop of `pipe_push`: the sets for `select` and the highest descriptor. */
  method Register(ps: array<Pipe>) returns (sets: Sets, nfds: int)
    ensures sets == Registered(ps[..])
    ensures forall i :: 0 <= i < ps.Length ==> ps[i].src <= nfds && ps[i].dst <= nfds
    ensures nfds >= 0 && (nfds > 0 ==> exists i :: 0 <= i < ps.Length && (ps[i].src == nfds || ps[i].dst == nfds))
  {
    var rd: set<int>, wr: set<int>, ex: set<int> := {}, {}, {};
    nfds := 0;
    var i := 0;
    while i < ps.Length
      invariant 0 <= i <= ps.Length
      invariant rd == set j | 0 <= j < i && ps[..][j].phase.READ? :: ps[..][j].src
      invariant wr == set j | 0 <= j < i && ps[..][j].phase.WRITE? :: ps[..][j].dst
      invariant ex == rd + wr
      invariant forall j :: 0 <= j < i ==> ps[j].src <= nfds && ps[j].dst <= nfds
      invariant nfds >= 0 && (nfds > 0 ==> exists j :: 0 <= j < i && (ps[j].src == nfds || ps[j].dst == nfds))
    {
      if ps[i].src > nfds { nfds := ps[i].src; }
      if ps[i].dst > nfds { nfds := ps[i].dst; }
      if ps[i].phase.READ? {
        rd := rd + {ps[i].src};
        ex := ex + {ps[i].src};
      }
      if ps[i].phase.WRITE? {
        wr := wr + {ps[i].dst};
        ex := ex + {ps[i].dst};
      }
      i := i + 1;
    }
    sets := Sets(rd, wr, ex);
  }

  /** The switch of `pipe_push` on one pipe. */
  method Switch(p: Pipe, ready: Sets, io: Io) returns (p': Pipe)
    requires Ok(p)
    ensures p' == PushOne(p, ready, io)
  {
    p' := p;
    match p.phase {
      case READ =>
        if p.src in ready.ex { return p.(phase := ERR); }
        if p.src !in ready.rd { return; }
        var sz := Bring(p, io);
        if sz == 0 { return p.(phase := EOF); }
        p' := p.(buf := p.file[p.pos..p.pos + sz] + p.buf[sz..], pos := p.pos + sz);
        p' := p'.(phase := WRITE, off := 0, len := sz);
      case WRITE =>
        if p.dst in ready.ex { return p.(phase := ERR); }
        if p.dst !in ready.wr { return; }
        var sz := Take(p, io);
        p' := p.(written := p.written + p.buf[..sz], off := p.off + sz);
        if p'.off == p'.len { p' := p'.(phase := READ); }
      case _ =>
    }
  }

  /** The second loop of `pipe_push`, after `select` has reported `ready`. */
  method Advance(ps: array<Pipe>, ready: Sets, io: nat -> Io)
    requires AllOk(ps[..])
    modifies ps
    ensures ps[..] == PushAll(old(ps[..]), ready, io)
  {
    var i := 0;
    while i < ps.Length
      invariant 0 <= i <= ps.Length
      invariant forall j :: 0 <= j < i ==> ps[j] == PushOne(old(ps[..])[j], ready, io(j))
      invariant forall j :: i <= j < ps.Length ==> ps[j] == old(ps[..])[j]
    {
      assert Ok(old(ps[..])[i]);
      ps[i] := Switch(ps[i], ready, io(i));
      i := i + 1;
    }
  }

  /** The test at the end of the driving loop. */
  method Finished(ps: array<Pipe>) returns (finished: bool)
    ensures finished <==> forall i :: 0 <= i < ps.Length ==> !Live(ps[i])
  {
    finished := true;
    var i := 0;
    while i < ps.Length
      invariant 0 <= i <= ps.Length
      invariant finished <==> forall j :: 0 <= j < i ==> !Live(ps[j])
    {
      if !ps[i].phase.EOF? && !ps[i].phase.ERR? { finished := false; }
      i := i + 1;
    }
  }

  /** A kernel that reports registered descriptors only, and at least one when there are any. */
  ghost predicate Honest(kernel: (nat, Sets) -> Sets) {
    forall n: nat, sets :: Within(kernel(n, sets), sets) && (Something(sets) ==> Something(kernel(n, sets)))
  }

  /** `select` without a timeout: with nothing registered it would block for ever. */
  method Select(kernel: (nat, Sets) -> Sets, n: nat, sets: Sets) returns (ready: Sets)
    requires Honest(kernel) && Something(sets)
    ensures Within(ready, sets) && Something(ready) && ready == kernel(n, sets)
  {
    ready := kernel(n, sets);
  }

  function AtRound(io: (nat, nat) -> Io, n: nat): nat -> Io {
    (i: nat) => io(n, i)
  }

  // ---- what a report may do to the pipes ----

  /** The descriptors and the source behind a pipe do not change. */
  predicate SameFiles(p: Pipe, p': Pipe) {
    p'.src == p.src && p'.dst == p.dst && p'.file == p.file
  }

  /** Pipes before and after a report: only an exception on its registered descriptor puts one in error. */
  ghost predicate Advanced(ps: seq<Pipe>, ready: Sets, ps': seq<Pipe>) {
    && |ps'| == |ps|
    && (forall i :: 0 <= i < |ps| ==> SameFiles(ps[i], ps'[i]))
    && (forall i :: 0 <= i < |ps| ==> (ps'[i].phase.ERR? <==> ps[i].phase.ERR? || Excepted(ps[i], ready)))
  }

  lemma PushAllAdvances(ps: seq<Pipe>, ready: Sets, io: nat -> Io)
    requires AllOk(ps)
    ensures Advanced(ps, ready, PushAll(ps, ready, io))
  {
    forall i | 0 <= i < |ps|
      ensures var p' := PushAll(ps, ready, io)[i];
        SameFiles(ps[i], p') && (p'.phase.ERR? <==> ps[i].phase.ERR? || Excepted(ps[i], ready))
    {
      ErrIff(ps[i], ready, io(i));
    }
  }

  /** Some report had an exception on one of the pipe's descriptors. */
  ghost predicate HadException(p: Pipe, reports: seq<Sets>) {
    exists r :: 0 <= r < |reports| && (p.src in reports[r].ex || p.dst in reports[r].ex)
  }

  /** The pipes go back to `start`, and those in error had an exception. */
  ghost predicate Justified(start: seq<Pipe>, ps: seq<Pipe>, reports: seq<Sets>) {
    && |ps| == |start|
    && (forall i :: 0 <= i < |ps| ==> SameFiles(start[i], ps[i]))
    && (forall i :: 0 <= i < |ps| && ps[i].phase.ERR? ==> HadException(ps[i], reports))
  }

  lemma ExceptionStays(p: Pipe, p': Pipe, reports: seq<Sets>, ready: Sets)
    requires SameFiles(p, p') && (HadException(p, reports) || Excepted(p, ready))
    ensures HadException(p', reports + [ready])
  {
    var all := reports + [ready];
    if HadException(p, reports) {
      var r :| 0 <= r < |reports| && (p.src in reports[r].ex || p.dst in reports[r].ex);
      assert all[r] == reports[r];
    } else {
      assert all[|reports|] == ready;
    }
  }

  lemma JustifiedOn(start: seq<Pipe>, ps: seq<Pipe>, reports: seq<Sets>, ready: Sets, ps': seq<Pipe>)
    requires Justified(start, ps, reports) && Advanced(ps, ready, ps')
    ensures Justified(start, ps', reports + [ready])
  {
    forall i | 0 <= i < |ps'| && ps'[i].phase.ERR?
      ensures HadException(ps'[i], reports + [ready])
    {
      ExceptionStays(ps[i], ps'[i], reports, ready);
    }
  }

  /** What the kernel says, in call `r`, of some sets. */
  ghost predicate IsReport(kernel: (nat, Sets) -> Sets, r: nat, report: Sets) {
    exists sets :: report == kernel(r, sets)
  }

  ghost predicate ReportedBy(kernel: (nat, Sets) -> Sets, reports: seq<Sets>) {
    forall r: nat :: r < |reports| ==> IsReport(kernel, r, reports[r])
  }

  lemma ReportedOn(kernel: (nat, Sets) -> Sets, reports: seq<Sets>, sets: Sets)
    requires ReportedBy(kernel, reports)
    ensures ReportedBy(kernel, reports + [kernel(|reports|, sets)])
  {
    assert IsReport(kernel, |reports|, kernel(|reports|, sets));
  }

  /** Every destination is a prefix of its source, and all of it unless the pipe is in error. */
  ghost predicate AllSettled(ps: seq<Pipe>) {
    forall i :: 0 <= i < |ps| ==>
      ps[i].written <= ps[i].file && (ps[i].phase.ERR? || (ps[i].phase.EOF? && ps[i].written == ps[i].file))
  }

  lemma FinishedIsSettled(ps: seq<Pipe>)
    requires AllFaithful(ps) && forall i :: 0 <= i < |ps| ==> !Live(ps[i])
    ensures AllSettled(ps)
  {
    forall i | 0 <= i < |ps|
      ensures ps[i].written <= ps[i].file && (ps[i].phase.ERR? || (ps[i].phase.EOF? && ps[i].written == ps[i].file))
    {
      assert Faithful(ps[i]);
      FaithfulIsPrefix(ps[i]);
    }
  }

  ghost predicate NoExceptions(kernel: (nat, Sets) -> Sets) {
    forall n: nat, sets :: kernel(n, sets).ex == {}
  }

  /** With a kernel that reports no exception nothing ends in error. */
  lemma NoExceptionNoError(kernel: (nat, Sets) -> Sets, start: seq<Pipe>, ps: seq<Pipe>, reports: seq<Sets>)
    requires Justified(start, ps, reports) && ReportedBy(kernel, reports) && NoExceptions(kernel)
    ensures forall i :: 0 <= i < |ps| ==> !ps[i].phase.ERR?
  {
    forall r: nat | r < |reports|
      ensures reports[r].ex == {}
    {
      assert IsReport(kernel, r, reports[r]);
      var sets :| reports[r] == kernel(r, sets);
      assert kernel(r, sets).ex == {};
    }
  }

  /** `pipe_push`: register, wait for a report, push every pipe once; `n` numbers the calls. */
  method Push(ps: array<Pipe>, kernel: (nat, Sets) -> Sets, io: (nat, nat) -> Io, n: nat)
    returns (ghost ready: Sets)
    requires AllFaithful(ps[..]) && exists i :: 0 <= i < ps.Length && Live(ps[..][i])
    requires Honest(kernel) && forall n: nat, i: nat :: io(n, i).take >= BUF_SIZE
    modifies ps
    ensures AllFaithful(ps[..]) && AllOk(old(ps[..])) && TotalWork(ps[..]) < TotalWork(old(ps[..]))
    ensures ready == kernel(n, Registered(old(ps[..]))) && Advanced(old(ps[..]), ready, ps[..])
  {
    var sets, _ := Register(ps);
    LiveIsRegistered(ps[..]);
    var report := Select(kernel, n, sets);
    ready := report;
    PushAllProgress(ps[..], report, AtRound(io, n));
    PushAllAdvances(ps[..], report, AtRound(io, n));
    Advance(ps, report, AtRound(io, n));
  }

  /**
   The driving loop of `main` over any number of pipes, for every readiness schedule, every way the
   reads split the sources, and writes that take what they are offered.  `select` is never called
   without a live pipe; the loop ends after at most `2 * |file| + 1` pushes per pipe; every
   destination is then a prefix of its source, and all of it where the pipe reached its end.  A pipe
   ends in error only if some report had an exception on one of its descriptors; so with a kernel that
   reports none every source is copied whole.
   */
  method Copy(ps: array<Pipe>, kernel: (nat, Sets) -> Sets, io: (nat, nat) -> Io)
    returns (pushes: nat, ghost reports: seq<Sets>)
    requires ps.Length > 0 && forall i :: 0 <= i < ps.Length ==> Fresh(ps[i])
    requires Honest(kernel) && forall n: nat, i: nat :: io(n, i).take >= BUF_SIZE
    modifies ps
    ensures AllOk(old(ps[..])) && pushes <= TotalWork(old(ps[..]))
    ensures AllSettled(ps[..]) && Justified(old(ps[..]), ps[..], reports)
    ensures |reports| == pushes && ReportedBy(kernel, reports)
    ensures NoExceptions(kernel) ==> forall i :: 0 <= i < ps.Length ==> ps[i].phase.EOF? && ps[i].written == ps[i].file
  {
    ghost var start := ps[..];
    forall i | 0 <= i < ps.Length ensures Faithful(ps[..][i]) { FreshIsFaithful(ps[i]); }
    pushes, reports := 0, [];
    var finished := false;
    assert Live(ps[..][0]);
    while !finished
      invariant AllFaithful(ps[..]) && AllOk(start) && pushes + TotalWork(ps[..]) <= TotalWork(start)
      invariant |reports| == pushes && ReportedBy(kernel, reports) && Justified(start, ps[..], reports)
      invariant finished <==> forall i :: 0 <= i < ps.Length ==> !Live(ps[..][i])
      decreases TotalWork(ps[..])
    {
      ghost var before := ps[..];
      ghost var ready := Push(ps, kernel, io, pushes);
      JustifiedOn(start, before, reports, ready, ps[..]);
      ReportedOn(kernel, reports, Registered(before));
      reports := reports + [ready];
      pushes := pushes + 1;
      finished := Finished(ps);
    }
    FinishedIsSettled(ps[..]);
    if NoExceptions(kernel) { NoExceptionNoError(kernel, start, ps[..], reports); }
  }

  /** The bound in the sizes of the sources. */
  lemma {:induction false} FreshWork(ps: seq<Pipe>)
    requires forall i :: 0 <= i < |ps| ==> Fresh(ps[i])
    ensures AllOk(ps) && TotalWork(ps) == 2 * TotalSize(ps) + |ps|
  {
    if ps != [] { FreshWork(ps[1..]); }
  }

  function TotalSize(ps: seq<Pipe>): nat {
    if ps == [] then 0 else |ps[0].file| + TotalSize(ps[1..])
  }
}
