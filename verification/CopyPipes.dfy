/**
 The copy state machines of `adio/select.c`.  A pipe copies one file into another through its
 buffer, driven by the descriptor sets that `select` reports.  `file`, `pos` and `written` are
 the files behind the two descriptors.
 */
module CopyPipes {
  import opened Common

  const BUF_SIZE: nat := 4096

  datatype Phase = READ | WRITE | ERR | EOF

  datatype Pipe = Pipe(
    src: int, dst: int, phase: Phase, buf: seq<Byte>, off: int, len: int,
    file: seq<Byte>, pos: nat, written: seq<Byte>)

  /** Three descriptor sets: those handed to `select`, or those it reports. */
  datatype Sets = Sets(rd: set<int>, wr: set<int>, ex: set<int>)

  /** How much the next `read` would bring and how much the next `write` would take. */
  datatype Io = Io(bring: nat, take: nat)

  predicate Live(p: Pipe) {
    p.phase.READ? || p.phase.WRITE?
  }

  /** `pipe_init` */
  ghost predicate Fresh(p: Pipe) {
    p.phase == READ && p.off == 0 && p.len == 0 && |p.buf| == BUF_SIZE && p.pos == 0 && p.written == []
  }

  function Clamp(x: nat, lo: nat, hi: nat): (r: nat)
    requires lo <= hi
    ensures lo <= r <= hi
  {
    if x < lo then lo else if x > hi then hi else x
  }

  /** A read that is ready brings between one byte and a buffer, and nothing only at the end. */
  function Bring(p: Pipe, io: Io): (k: nat)
    requires p.pos <= |p.file|
    ensures k <= BUF_SIZE && p.pos + k <= |p.file| && (k == 0 <==> p.pos == |p.file|)
  {
    var left := |p.file| - p.pos;
    if left == 0 then 0 else Clamp(io.bring, 1, if left < BUF_SIZE then left else BUF_SIZE)
  }

  /** A write takes between nothing and all of what it is offered. */
  function Take(p: Pipe, io: Io): (k: nat)
    requires 0 <= p.len
    ensures k <= p.len
  {
    Clamp(io.take, 0, p.len)
  }

  ghost predicate Ok(p: Pipe) {
    p.pos <= |p.file| && |p.buf| == BUF_SIZE && 0 <= p.len <= BUF_SIZE
  }

  /** The switch of `pipe_push` for one pipe; the write always starts from the head of the buffer. */
  function PushOne(p: Pipe, ready: Sets, io: Io): (p': Pipe)
    requires Ok(p)
    ensures Ok(p')
  {
    match p.phase
    case READ =>
      if p.src in ready.ex then p.(phase := ERR)
      else if p.src !in ready.rd then p
      else
        var k := Bring(p, io);
        if k == 0 then p.(phase := EOF)
        else p.(buf := p.file[p.pos..p.pos + k] + p.buf[k..], pos := p.pos + k, phase := WRITE, off := 0, len := k)
    case WRITE =>
      if p.dst in ready.ex then p.(phase := ERR)
      else if p.dst !in ready.wr then p
      else
        var k := Take(p, io);
        p.(written := p.written + p.buf[..k], off := p.off + k, phase := if p.off + k == p.len then READ else WRITE)
    case _ => p
  }

  ghost predicate AllOk(ps: seq<Pipe>) {
    forall i :: 0 <= i < |ps| ==> Ok(ps[i])
  }

  function PushAll(ps: seq<Pipe>, ready: Sets, io: nat -> Io): (r: seq<Pipe>)
    requires AllOk(ps)
    ensures |r| == |ps| && forall i :: 0 <= i < |ps| ==> r[i] == PushOne(ps[i], ready, io(i))
    ensures AllOk(r)
  {
    seq(|ps|, i requires 0 <= i < |ps| => PushOne(ps[i], ready, io(i)))
  }

  /** The sets `pipe_push` hands to `select`. */
  function Registered(ps: seq<Pipe>): Sets {
    var rd := set i | 0 <= i < |ps| && ps[i].phase.READ? :: ps[i].src;
    var wr := set i | 0 <= i < |ps| && ps[i].phase.WRITE? :: ps[i].dst;
    Sets(rd, wr, rd + wr)
  }

  predicate Within(a: Sets, b: Sets) {
    a.rd <= b.rd && a.wr <= b.wr && a.ex <= b.ex
  }

  predicate Something(a: Sets) {
    a.rd != {} || a.wr != {} || a.ex != {}
  }

  /** Something is registered exactly when some pipe is live. */
  lemma LiveIsRegistered(ps: seq<Pipe>)
    ensures Something(Registered(ps)) <==> exists i :: 0 <= i < |ps| && Live(ps[i])
  {
    var r := Registered(ps);
    if i :| 0 <= i < |ps| && Live(ps[i]) {
      assert ps[i].phase.READ? ==> ps[i].src in r.rd;
      assert ps[i].phase.WRITE? ==> ps[i].dst in r.wr;
    }
  }

  // ---- the copy is faithful ----

  /** Written, plus the unwritten buffer, is what was consumed of the source. */
  ghost predicate Faithful(p: Pipe) {
    && Ok(p)
    && (match p.phase
        case READ => p.written == p.file[..p.pos]
        case WRITE => 1 <= p.len && p.off == 0 && p.written + p.buf[..p.len] == p.file[..p.pos]
        case EOF => p.pos == |p.file| && p.written == p.file
        case ERR => p.written <= p.file)
  }

  ghost predicate WholeWrite(p: Pipe, io: Io) {
    p.phase.WRITE? ==> io.take >= p.len
  }

  lemma FreshIsFaithful(p: Pipe)
    requires Fresh(p)
    ensures Faithful(p)
  {
  }

  lemma PushKeepsFaithful(p: Pipe, ready: Sets, io: Io)
    requires Faithful(p) && WholeWrite(p, io)
    ensures Faithful(PushOne(p, ready, io)) && PushOne(p, ready, io).file == p.file
  {
  }

  /** A destination is always a prefix of its source, and equals it at the end. */
  lemma FaithfulIsPrefix(p: Pipe)
    requires Faithful(p)
    ensures p.written <= p.file && (p.phase.EOF? ==> p.written == p.file)
  {
  }

  // ---- only exceptions end a copy early ----

  /** The report has an exception on the descriptor the pipe waits for. */
  predicate Excepted(p: Pipe, ready: Sets) {
    (p.phase.READ? && p.src in ready.ex) || (p.phase.WRITE? && p.dst in ready.ex)
  }

  /** A push leaves a pipe in error exactly if it was, or its registered descriptor has an exception. */
  lemma ErrIff(p: Pipe, ready: Sets, io: Io)
    requires Ok(p)
    ensures var p' := PushOne(p, ready, io);
      && (p'.phase.ERR? <==> p.phase.ERR? || Excepted(p, ready))
      && p'.src == p.src && p'.dst == p.dst
  {
  }

  // ---- every report is progress ----

  /** Pushes a pipe can still use. */
  function Work(p: Pipe): nat
    requires p.pos <= |p.file|
  {
    match p.phase
    case READ => 2 * (|p.file| - p.pos) + 1
    case WRITE => 2 * (|p.file| - p.pos) + 2
    case _ => 0
  }

  function TotalWork(ps: seq<Pipe>): nat
    requires AllOk(ps)
  {
    if ps == [] then 0 else assert Ok(ps[0]); Work(ps[0]) + TotalWork(ps[1..])
  }

  predicate Hit(p: Pipe, ready: Sets) {
    || (p.phase.READ? && (p.src in ready.ex || p.src in ready.rd))
    || (p.phase.WRITE? && (p.dst in ready.ex || p.dst in ready.wr))
  }

  /** A pipe that is not reported is left alone. */
  lemma OnlyReportsMove(p: Pipe, ready: Sets, io: Io)
    requires Ok(p) && !Hit(p, ready)
    ensures PushOne(p, ready, io) == p
  {
  }

  lemma PushWorks(p: Pipe, ready: Sets, io: Io)
    requires Faithful(p) && WholeWrite(p, io)
    ensures Work(PushOne(p, ready, io)) <= Work(p)
    ensures Hit(p, ready) ==> Work(PushOne(p, ready, io)) < Work(p)
  {
  }

  lemma {:induction false} TotalDecreases(ps: seq<Pipe>, ps': seq<Pipe>, i: nat)
    requires AllOk(ps) && AllOk(ps') && |ps| == |ps'| && i < |ps|
    requires forall j :: 0 <= j < |ps| ==> Work(ps'[j]) <= Work(ps[j])
    requires Work(ps'[i]) < Work(ps[i])
    ensures TotalWork(ps') < TotalWork(ps)
  {
    if i > 0 {
      TotalDecreases(ps[1..], ps'[1..], i - 1);
    } else {
      TotalNoMore(ps[1..], ps'[1..]);
    }
  }

  lemma {:induction false} TotalNoMore(ps: seq<Pipe>, ps': seq<Pipe>)
    requires AllOk(ps) && AllOk(ps') && |ps| == |ps'|
    requires forall j :: 0 <= j < |ps| ==> Work(ps'[j]) <= Work(ps[j])
    ensures TotalWork(ps') <= TotalWork(ps)
  {
    if ps != [] { TotalNoMore(ps[1..], ps'[1..]); }
  }

  lemma ReportHits(ps: seq<Pipe>, ready: Sets) returns (i: nat)
    requires Within(ready, Registered(ps)) && Something(ready)
    ensures i < |ps| && Hit(ps[i], ready)
  {
    var reg := Registered(ps);
    var fd :| fd in ready.rd || fd in ready.wr || fd in ready.ex;
    if fd in ready.rd {
      i :| 0 <= i < |ps| && ps[i].phase.READ? && ps[i].src == fd;
    } else if fd in ready.wr {
      i :| 0 <= i < |ps| && ps[i].phase.WRITE? && ps[i].dst == fd;
    } else {
      assert fd in reg.rd || fd in reg.wr;
      i :| 0 <= i < |ps| && ((ps[i].phase.READ? && ps[i].src == fd) || (ps[i].phase.WRITE? && ps[i].dst == fd));
    }
  }

  ghost predicate AllFaithful(ps: seq<Pipe>) {
    forall i :: 0 <= i < |ps| ==> Faithful(ps[i])
  }

  /** A push whose `select` reports at least one registered descriptor uses up work and keeps every copy faithful. */
  lemma PushAllProgress(ps: seq<Pipe>, ready: Sets, io: nat -> Io)
    requires AllFaithful(ps) && Within(ready, Registered(ps)) && Something(ready)
    requires forall i :: 0 <= i < |ps| ==> WholeWrite(ps[i], io(i))
    ensures AllOk(ps) && AllFaithful(PushAll(ps, ready, io))
    ensures TotalWork(PushAll(ps, ready, io)) < TotalWork(ps)
    ensures forall i :: 0 <= i < |ps| ==> PushAll(ps, ready, io)[i].file == ps[i].file
  {
    var ps' := PushAll(ps, ready, io);
    forall i | 0 <= i < |ps|
      ensures Faithful(ps'[i]) && ps'[i].file == ps[i].file && Work(ps'[i]) <= Work(ps[i])
      ensures Hit(ps[i], ready) ==> Work(ps'[i]) < Work(ps[i])
    {
      PushKeepsFaithful(ps[i], ready, io(i));
      PushWorks(ps[i], ready, io(i));
    }
    var i := ReportHits(ps, ready);
    TotalDecreases(ps, ps', i);
  }

  // ---- why writes must be whole ----

  /** The bytes that a series of writes puts out, each one from the head of the buffer. */
  function Sent(buf: seq<Byte>, ks: seq<nat>): seq<Byte>
    requires forall i :: 0 <= i < |ks| ==> ks[i] <= |buf|
  {
    if ks == [] then [] else buf[..ks[0]] + Sent(buf, ks[1..])
  }

  function Sum(ks: seq<nat>): nat {
    if ks == [] then 0 else ks[0] + Sum(ks[1..])
  }

  /** Some writes that take nothing, then one that takes all, then some that take nothing. */
  predicate OneWhole(ks: seq<nat>, len: nat) {
    if ks == [] then false
    else if ks[0] == 0 then OneWhole(ks[1..], len)
    else ks[0] == len && Sum(ks[1..]) == 0
  }

  ghost predicate CopiesAnything(ks: seq<nat>, len: nat)
    requires len <= BUF_SIZE && forall i :: 0 <= i < |ks| ==> ks[i] <= len
  {
    forall buf: seq<Byte> :: |buf| == BUF_SIZE ==> Sent(buf, ks) == buf[..len]
  }

  lemma {:induction false} NothingSent(buf: seq<Byte>, ks: seq<nat>)
    requires (forall i :: 0 <= i < |ks| ==> ks[i] <= |buf|) && Sum(ks) == 0
    ensures Sent(buf, ks) == []
  {
    if ks != [] { NothingSent(buf, ks[1..]); }
  }

  lemma {:induction false} WholeSent(buf: seq<Byte>, ks: seq<nat>, len: nat)
    requires len <= |buf| && (forall i :: 0 <= i < |ks| ==> ks[i] <= len) && OneWhole(ks, len)
    ensures Sent(buf, ks) == buf[..len]
  {
    if ks[0] == 0 { WholeSent(buf, ks[1..], len); } else { NothingSent(buf, ks[1..]); }
  }

  /** Sent bytes start with the head of the buffer. */
  lemma {:induction false} SentHead(buf: seq<Byte>, ks: seq<nat>)
    requires (forall i :: 0 <= i < |ks| ==> ks[i] <= |buf|) && Sum(ks) > 0
    ensures |Sent(buf, ks)| > 0 && |buf| > 0 && Sent(buf, ks)[0] == buf[0]
  {
    if ks[0] == 0 { SentHead(buf, ks[1..]); }
  }

  lemma {:induction false} SplitShows(buf: seq<Byte>, ks: seq<nat>, len: nat)
    requires 0 < len <= |buf| && (forall i :: 0 <= i < |ks| ==> ks[i] <= len) && Sum(ks) == len && !OneWhole(ks, len)
    requires forall i :: 0 < i < |buf| ==> buf[i] != buf[0]
    ensures Sent(buf, ks) != buf[..len]
  {
    if ks[0] == 0 {
      SplitShows(buf, ks[1..], len);
    } else {
      SentHead(buf, ks[1..]);
      var k := ks[0];
      assert Sent(buf, ks)[k] == Sent(buf, ks[1..])[0] == buf[0];
      assert k < len && buf[..len][k] == buf[k];
    }
  }

  /**
   Line 163 resends from the start of the buffer.  A series of writes that together take `len`
   bytes copies every possible buffer if and only if one of them takes all of it at once.
   */
  lemma WholeWritesIff(ks: seq<nat>, len: nat)
    requires 0 < len <= BUF_SIZE && (forall i :: 0 <= i < |ks| ==> ks[i] <= len) && Sum(ks) == len
    ensures CopiesAnything(ks, len) <==> OneWhole(ks, len)
  {
    if OneWhole(ks, len) {
      forall buf: seq<Byte> | |buf| == BUF_SIZE
        ensures Sent(buf, ks) == buf[..len]
      {
        WholeSent(buf, ks, len);
      }
    } else {
      var buf: seq<Byte> := seq(BUF_SIZE, i => if i == 0 then 0 else 1);
      SplitShows(buf, ks, len);
    }
  }

  /** A series of writes as the machine performs them. */
  function Writes(p: Pipe, ready: Sets, ks: seq<nat>): (p': Pipe)
    requires Ok(p)
    ensures Ok(p')
    decreases |ks|
  {
    if ks == [] then p else Writes(PushOne(p, ready, Io(0, ks[0])), ready, ks[1..])
  }

  /** Until the counts add up to `len`, the machine sends what `Sent` says. */
  lemma {:induction false} WritesSend(p: Pipe, ready: Sets, ks: seq<nat>)
    requires Ok(p) && p.phase.WRITE? && p.dst in ready.wr && p.dst !in ready.ex
    requires forall i :: 0 <= i < |ks| ==> ks[i] <= p.len
    requires forall i :: 0 <= i < |ks| ==> p.off + Sum(ks[..i]) < p.len
    ensures Writes(p, ready, ks).written == p.written + Sent(p.buf, ks)
    ensures Writes(p, ready, ks).off == p.off + Sum(ks)
    ensures |ks| > 0 && p.off + Sum(ks) == p.len ==> Writes(p, ready, ks).phase == READ
    decreases |ks|
  {
    if ks != [] {
      var p1 := PushOne(p, ready, Io(0, ks[0]));
      if |ks| > 1 {
        forall i | 0 <= i < |ks| - 1
          ensures p1.off + Sum(ks[1..][..i]) < p1.len
        {
          assert ks[..i + 1][1..] == ks[1..][..i];
          assert p.off + Sum(ks[..i + 1]) < p.len;
        }
        assert ks[1..][..0] == [];
        WritesSend(p1, ready, ks[1..]);
      } else {
        assert ks[1..] == [];
      }
    }
  }

  /** One report of `select` after another, each with what its read or write would move. */
  function Pushes(p: Pipe, reports: seq<(Sets, Io)>): (p': Pipe)
    requires Ok(p)
    ensures Ok(p')
    decreases |reports|
  {
    if reports == [] then p else Pushes(PushOne(p, reports[0].0, reports[0].1), reports[1..])
  }

  /**
   Once short writes have overshot the length the pipe never reads again and never ends well: over
   any series of pushes it goes on writing, or stops with an error.
   */
  lemma {:induction false} OvershootIsFinal(p: Pipe, reports: seq<(Sets, Io)>)
    requires Ok(p) && (p.phase.ERR? || (p.phase.WRITE? && p.off > p.len))
    ensures var p' := Pushes(p, reports);
      p'.pos == p.pos && (p'.phase.ERR? || (p'.phase.WRITE? && p'.off > p'.len))
    decreases |reports|
  {
    if reports != [] { OvershootIsFinal(PushOne(p, reports[0].0, reports[0].1), reports[1..]); }
  }
}
