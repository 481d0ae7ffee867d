/**
 The byte loop of `download` in `socket/http_client.c`, which looks for the blank line that
 ends the header of an HTTP/1.0 response (section 6 of RFC 1945) and emits what follows.
 */
module HttpBody {
  import opened Common

  const CR: Byte := 13
  const LF: Byte := 10

  // ---- the automaton ----

  datatype Splitter = Splitter(status: nat, body: bool, out: seq<Byte>)

  /** The loop body for byte `c`. */
  function Feed(a: Splitter, c: Byte): Splitter {
    var s1 := if c == CR && a.status == 0 then 1 else a.status;
    var s2 := if c == LF && s1 == 1 then 2 else s1;
    var s3 := if c == CR && s2 == 2 then 3 else s2;
    if c == LF && s3 == 3 then a.(status := s3, body := true)
    else
      a.(status := if c != CR && c != LF then 0 else s3, out := if a.body then a.out + [c] else a.out)
  }

  function Run(input: seq<Byte>): Splitter {
    if input == [] then Splitter(0, false, [])
    else Feed(Run(input[..|input| - 1]), input[|input| - 1])
  }

  method Download(input: seq<Byte>) returns (out: seq<Byte>)
    ensures out == Run(input).out
  {
    var status, body := 0, false;
    out := [];
    var i := 0;
    while i < |input|
      invariant 0 <= i <= |input|
      invariant Splitter(status, body, out) == Run(input[..i])
    {
      var c := input[i];
      assert input[..i + 1][..i] == input[..i];
      i := i + 1;
      if c == CR && status == 0 { status := 1; }
      if c == LF && status == 1 { status := 2; }
      if c == CR && status == 2 { status := 3; }
      if c == LF && status == 3 {
        body := true;
        continue;
      }
      if c != CR && c != LF { status := 0; }
      if body { out := out + [c]; }
    }
    assert input[..i] == input;
  }

  // ---- the description ----

  predicate IsBreak(c: Byte) {
    c == CR || c == LF
  }

  /** `p` can be read off `w` from left to right, skipping bytes. */
  predicate Subsequence(p: seq<Byte>, w: seq<Byte>)
    decreases |w|
  {
    if p == [] then true
    else if w == [] then false
    else
      var p', w' := p[..|p| - 1], w[..|w| - 1];
      (p[|p| - 1] == w[|w| - 1] && Subsequence(p', w')) || Subsequence(p, w')
  }

  /** The CR and LF bytes a text ends in. */
  function Trailing(w: seq<Byte>): seq<Byte>
    decreases |w|
  {
    if w == [] || !IsBreak(w[|w| - 1]) then [] else Trailing(w[..|w| - 1]) + [w[|w| - 1]]
  }

  const CRLFCR: seq<Byte> := [CR, LF, CR]
  const BLANK: seq<Byte> := [CR, LF, CR, LF]

  /** How much of CR, LF, CR a run of break bytes holds. */
  function Matched(w: seq<Byte>): nat {
    if Subsequence([CR, LF, CR], w) then 3
    else if Subsequence([CR, LF], w) then 2
    else if Subsequence([CR], w) then 1
    else 0
  }

  lemma SubsequenceSnoc(p: seq<Byte>, x: Byte, w: seq<Byte>, c: Byte)
    ensures Subsequence(p + [x], w + [c]) <==> (x == c && Subsequence(p, w)) || Subsequence(p + [x], w)
  {
  }

  lemma {:induction false} SubsequencePrefix(p: seq<Byte>, x: Byte, w: seq<Byte>)
    requires Subsequence(p + [x], w)
    ensures Subsequence(p, w)
    decreases |w|
  {
    assert (p + [x])[..|p|] == p;
    var w' := w[..|w| - 1];
    if w[|w| - 1] == x && Subsequence(p, w') {
      SubsequenceWider(p, w', w[|w| - 1]);
      assert w' + [w[|w| - 1]] == w;
    } else {
      SubsequencePrefix(p, x, w');
      SubsequenceWider(p, w', w[|w| - 1]);
      assert w' + [w[|w| - 1]] == w;
    }
  }

  lemma SubsequenceWider(p: seq<Byte>, w: seq<Byte>, c: Byte)
    requires Subsequence(p, w)
    ensures Subsequence(p, w + [c])
  {
  }

  /** One more break byte advances the match by at most one place. */
  lemma MatchedSnoc(w: seq<Byte>, c: Byte)
    requires IsBreak(c)
    ensures Matched(w + [c]) ==
      if c == CR && Matched(w) == 0 then 1
      else if c == LF && Matched(w) == 1 then 2
      else if c == CR && Matched(w) == 2 then 3
      else Matched(w)
    ensures Subsequence(BLANK, w + [c]) <==> Subsequence(BLANK, w) || (c == LF && Matched(w) == 3)
  {
    SubsequenceSnoc([], CR, w, c);
    SubsequenceSnoc([CR], LF, w, c);
    SubsequenceSnoc([CR, LF], CR, w, c);
    SubsequenceSnoc([CR, LF, CR], LF, w, c);
    assert [] + [CR] == [CR] && [CR] + [LF] == [CR, LF] && [CR, LF] + [CR] == [CR, LF, CR];
    assert [CR, LF, CR] + [LF] == BLANK;
    if Subsequence([CR, LF], w) { SubsequencePrefix([CR], LF, w); }
    if Subsequence([CR, LF, CR], w) { SubsequencePrefix([CR, LF], CR, w); }
  }

  /** The counter `status` is exactly the match in the current run of break bytes. */
  lemma {:induction false} StatusIsMatch(input: seq<Byte>)
    ensures Run(input).status == Matched(Trailing(input))
    decreases |input|
  {
    if input != [] {
      var w, c := input[..|input| - 1], input[|input| - 1];
      StatusIsMatch(w);
      if IsBreak(c) { MatchedSnoc(Trailing(w), c); }
    }
  }

  /** The run of break bytes up to and including byte `j` holds CR, LF, CR, LF in this order. */
  ghost predicate EndsHeader(input: seq<Byte>, j: nat)
    requires j < |input|
  {
    Subsequence(BLANK, Trailing(input[..j + 1]))
  }

  ghost predicate HeaderEnded(input: seq<Byte>) {
    exists j :: 0 <= j < |input| && EndsHeader(input, j)
  }

  lemma EndsHeaderInPrefix(input: seq<Byte>, n: nat)
    requires n <= |input|
    ensures forall j :: 0 <= j < n ==> (EndsHeader(input[..n], j) <==> EndsHeader(input, j))
  {
    forall j | 0 <= j < n
      ensures EndsHeader(input[..n], j) <==> EndsHeader(input, j)
    {
      assert input[..n][..j + 1] == input[..j + 1];
    }
  }

  lemma EndsHeaderLast(input: seq<Byte>)
    requires input != []
    ensures EndsHeader(input, |input| - 1) <==> Subsequence(BLANK, Trailing(input))
  {
    assert input[..|input| - 1 + 1] == input;
  }

  /** A header has ended in a text if it has in the text without its last byte, or ends with that byte. */
  lemma HeaderEndedSnoc(input: seq<Byte>)
    requires input != []
    ensures HeaderEnded(input) <==> HeaderEnded(input[..|input| - 1]) || EndsHeader(input, |input| - 1)
  {
    var n := |input| - 1;
    EndsHeaderInPrefix(input, n);
    if HeaderEnded(input) {
      var j :| 0 <= j < |input| && EndsHeader(input, j);
      assert j < n ==> EndsHeader(input[..n], j);
    }
    if HeaderEnded(input[..n]) {
      var j :| 0 <= j < n && EndsHeader(input[..n], j);
      assert EndsHeader(input, j);
    }
  }

  lemma EndsNow(input: seq<Byte>)
    requires Subsequence(BLANK, Trailing(input))
    ensures HeaderEnded(input)
  {
    EndsHeaderLast(input);
  }

  /**
   The flag is set exactly from the first byte on at which the current run of CR and LF bytes
   contains CR, LF, CR, LF as a subsequence.
   */
  lemma {:induction false} BodyFlag(input: seq<Byte>)
    ensures Run(input).body <==> HeaderEnded(input)
    decreases |input|
  {
    if input != [] {
      var w, c := input[..|input| - 1], input[|input| - 1];
      BodyFlag(w);
      StatusIsMatch(w);
      HeaderEndedSnoc(input);
      EndsHeaderLast(input);
      FeedSetsFlag(Run(w), c);
      if IsBreak(c) {
        MatchedSnoc(Trailing(w), c);
        if Subsequence(BLANK, Trailing(w)) { EndsNow(w); }
      }
    }
  }

  lemma FeedSetsFlag(a: Splitter, c: Byte)
    requires a.status <= 3
    ensures Feed(a, c).body <==> a.body || (c == LF && a.status == 3)
  {
  }

  // ---- what is emitted ----

  /** A line feed that the loop takes for the end of a header once more and drops. */
  ghost predicate Swallowed(input: seq<Byte>, k: nat)
    requires k < |input|
  {
    input[k] == LF && Subsequence(CRLFCR, Trailing(input[..k]))
  }

  /** The bytes from `h` to `k` that are not swallowed. */
  ghost function Kept(input: seq<Byte>, h: nat, k: nat): seq<Byte>
    requires h <= k <= |input|
    decreases k
  {
    if h == k then []
    else Kept(input, h, k - 1) + if Swallowed(input, k - 1) then [] else [input[k - 1]]
  }

  /** `h` is the number of bytes up to and including the one that first sets the flag. */
  ghost predicate HeaderLength(input: seq<Byte>, h: nat) {
    && 0 < h <= |input|
    && EndsHeader(input, h - 1)
    && forall j :: 0 <= j < h - 1 ==> !EndsHeader(input, j)
  }

  lemma FlagUpTo(input: seq<Byte>, h: nat, k: nat)
    requires HeaderLength(input, h) && k <= |input|
    ensures Run(input[..k]).body <==> k >= h
  {
    var w := input[..k];
    BodyFlag(w);
    EndsHeaderInPrefix(input, k);
    if k >= h { assert EndsHeader(w, h - 1); }
  }

  lemma FeedOut(a: Splitter, c: Byte)
    ensures Feed(a, c).out == if a.body && !(c == LF && a.status == 3) then a.out + [c] else a.out
  {
  }

  lemma RunSnoc(input: seq<Byte>, k: nat)
    requires 0 < k <= |input|
    ensures Run(input[..k]) == Feed(Run(input[..k - 1]), input[k - 1])
  {
    assert input[..k][..k - 1] == input[..k - 1];
  }

  lemma StatusThree(input: seq<Byte>)
    ensures Run(input).status == 3 <==> Subsequence(CRLFCR, Trailing(input))
  {
    StatusIsMatch(input);
  }

  lemma EmitsNext(input: seq<Byte>, h: nat, k: nat)
    requires HeaderLength(input, h) && k < |input|
    ensures Run(input[..k + 1]).out ==
      Run(input[..k]).out + if k >= h && !Swallowed(input, k) then [input[k]] else []
  {
    FlagUpTo(input, h, k);
    StatusThree(input[..k]);
    RunSnoc(input, k + 1);
    FeedOut(Run(input[..k]), input[k]);
  }

  lemma {:induction false} EmittedUpTo(input: seq<Byte>, h: nat, k: nat)
    requires HeaderLength(input, h) && k <= |input|
    ensures Run(input[..k]).out == if k <= h then [] else Kept(input, h, k)
    decreases k
  {
    if k > 0 {
      EmittedUpTo(input, h, k - 1);
      EmitsNext(input, h, k - 1);
    }
  }

  /** The output, for every input: what follows the header, less the swallowed line feeds. */
  lemma Emitted(input: seq<Byte>, h: nat)
    requires HeaderLength(input, h)
    ensures Run(input).out == Kept(input, h, |input|)
  {
    EmittedUpTo(input, h, |input|);
    assert input[..|input|] == input;
  }

  lemma {:induction false} NothingEmitted(input: seq<Byte>)
    requires !HeaderEnded(input)
    ensures Run(input).out == []
    decreases |input|
  {
    BodyFlag(input);
    if input != [] {
      var n := |input| - 1;
      var w := input[..n];
      EndsHeaderInPrefix(input, n);
      NothingEmitted(w);
      BodyFlag(w);
    }
  }

  lemma {:induction false} KeptAll(input: seq<Byte>, h: nat, k: nat)
    requires h <= k <= |input|
    ensures |Kept(input, h, k)| <= k - h
    ensures Kept(input, h, k) == input[h..k] <==> forall j :: h <= j < k ==> !Swallowed(input, j)
    ensures |Kept(input, h, k)| == k - h ==> Kept(input, h, k) == input[h..k]
    decreases k
  {
    if h < k {
      KeptAll(input, h, k - 1);
      assert input[h..k] == input[h..k - 1] + [input[k - 1]];
    }
  }

  // ---- seen from the body alone ----

  predicate AllBreaks(w: seq<Byte>) {
    forall i :: 0 <= i < |w| ==> IsBreak(w[i])
  }

  /** A body the loop passes on unharmed. */
  ghost predicate Clean(body: seq<Byte>) {
    forall k :: 0 <= k < |body| && body[k] == LF ==>
      !AllBreaks(body[..k]) && !Subsequence(CRLFCR, Trailing(body[..k]))
  }

  lemma AllBreaksSnoc(w: seq<Byte>, c: Byte)
    ensures AllBreaks(w + [c]) <==> AllBreaks(w) && IsBreak(c)
  {
    assert (w + [c])[|w|] == c;
    if AllBreaks(w + [c]) {
      forall i | 0 <= i < |w|
        ensures IsBreak(w[i])
      {
        assert w[i] == (w + [c])[i];
      }
    }
  }

  lemma TrailingSnoc(w: seq<Byte>, c: Byte)
    ensures Trailing(w + [c]) == if IsBreak(c) then Trailing(w) + [c] else []
  {
    assert (w + [c])[..|w|] == w;
  }

  lemma {:induction false} TrailingOfConcat(a: seq<Byte>, b: seq<Byte>)
    ensures Trailing(a + b) == if AllBreaks(b) then Trailing(a) + b else Trailing(b)
    decreases |b|
  {
    if b == [] {
      assert a + b == a;
    } else {
      var b', c := b[..|b| - 1], b[|b| - 1];
      assert b == b' + [c] && a + b == (a + b') + [c];
      TrailingOfConcat(a, b');
      TrailingSnoc(a + b', c);
      TrailingSnoc(b', c);
      AllBreaksSnoc(b', c);
      assert Trailing(a) + b == (Trailing(a) + b') + [c];
    }
  }

  lemma {:induction false} SubsequenceExtends(p: seq<Byte>, a: seq<Byte>, b: seq<Byte>)
    requires Subsequence(p, a)
    ensures Subsequence(p, a + b)
    decreases |b|
  {
    if b == [] {
      assert a + b == a;
    } else {
      SubsequenceExtends(p, a, b[..|b| - 1]);
      SubsequenceWider(p, a + b[..|b| - 1], b[|b| - 1]);
      assert a + b[..|b| - 1] + [b[|b| - 1]] == a + b;
    }
  }

  lemma SwallowedInBody(input: seq<Byte>, h: nat, k: nat)
    requires HeaderLength(input, h) && h <= k < |input|
    ensures var body := input[h..];
      Swallowed(input, k) <==>
        body[k - h] == LF && (AllBreaks(body[..k - h]) || Subsequence(CRLFCR, Trailing(body[..k - h])))
  {
    var b := input[h..][..k - h];
    assert input[..k] == input[..h] + b;
    TrailingOfConcat(input[..h], b);
    assert input[..h - 1 + 1] == input[..h];
    assert BLANK == CRLFCR + [LF];
    SubsequencePrefix(CRLFCR, LF, Trailing(input[..h]));
    SubsequenceExtends(CRLFCR, Trailing(input[..h]), b);
  }

  /**
   The output is exactly the bytes after the header if and only if the body is clean: no line feed
   among the CR and LF bytes it starts with, and no later run of them with CR, LF, CR, LF in it.
   */
  lemma PassedOnIff(input: seq<Byte>, h: nat)
    requires HeaderLength(input, h)
    ensures Run(input).out == input[h..] <==> Clean(input[h..])
  {
    Emitted(input, h);
    KeptAll(input, h, |input|);
    var body := input[h..];
    assert input[h..|input|] == body;
    forall k | h <= k < |input|
      ensures Swallowed(input, k) <==>
        body[k - h] == LF && (AllBreaks(body[..k - h]) || Subsequence(CRLFCR, Trailing(body[..k - h])))
    {
      SwallowedInBody(input, h, k);
    }
    if Clean(body) {
      forall k | h <= k < |input|
        ensures !Swallowed(input, k)
      {
        assert body[k - h] == input[k];
      }
    } else {
      var i :| 0 <= i < |body| && body[i] == LF && (AllBreaks(body[..i]) || Subsequence(CRLFCR, Trailing(body[..i])));
      assert i + h - h == i && Swallowed(input, i + h);
    }
  }

  // ---- well-formed headers ----

  /** No bare CR or LF: every CR is followed by an LF, as far as the text goes, and every LF follows a CR. */
  predicate Paired(w: seq<Byte>) {
    && (forall i :: 0 <= i < |w| && w[i] == LF ==> 0 < i && w[i - 1] == CR)
    && (forall i :: 0 <= i < |w| - 1 && w[i] == CR ==> w[i + 1] == LF)
  }

  /** CR, LF, CR, LF, ... */
  predicate Alternating(w: seq<Byte>) {
    forall i :: 0 <= i < |w| ==> w[i] == if i % 2 == 0 then CR else LF
  }

  /** The text before its trailing run. */
  function Leading(w: seq<Byte>): seq<Byte>
    decreases |w|
  {
    if w == [] || !IsBreak(w[|w| - 1]) then w else Leading(w[..|w| - 1])
  }

  lemma {:induction false} LeadingAndTrailing(w: seq<Byte>)
    ensures w == Leading(w) + Trailing(w)
    decreases |w|
  {
    if w != [] && IsBreak(w[|w| - 1]) {
      var w', c := w[..|w| - 1], w[|w| - 1];
      LeadingAndTrailing(w');
      calc {
        w;
        w' + [c];
        (Leading(w') + Trailing(w')) + [c];
        Leading(w') + (Trailing(w') + [c]);
      }
    }
  }

  /** In paired text a run of break bytes alternates, beginning with CR. */
  lemma {:induction false} RunsAlternate(w: seq<Byte>)
    requires Paired(w)
    ensures Alternating(Trailing(w))
    decreases |w|
  {
    if w != [] && IsBreak(w[|w| - 1]) {
      var w', c := w[..|w| - 1], w[|w| - 1];
      PairedPrefix(w, |w| - 1);
      RunsAlternate(w');
      LastOfTrailing(w');
      LastPair(w);
      AlternatesOn(Trailing(w'), c);
    }
  }

  lemma LastOfTrailing(w: seq<Byte>)
    ensures var t := Trailing(w);
      if w != [] && IsBreak(w[|w| - 1]) then t != [] && t[|t| - 1] == w[|w| - 1] else t == []
  {
  }

  /** How the last break byte of paired text follows the byte before it. */
  lemma LastPair(w: seq<Byte>)
    requires Paired(w) && w != [] && IsBreak(w[|w| - 1])
    ensures w[|w| - 1] == LF <==> |w| > 1 && w[|w| - 2] == CR
  {
  }

  lemma AlternatesOn(t: seq<Byte>, c: Byte)
    requires Alternating(t) && IsBreak(c)
    requires t == [] ==> c == CR
    requires t != [] ==> (t[|t| - 1] == CR <==> c == LF)
    ensures Alternating(t + [c])
  {
  }

  lemma {:induction false} SubsequenceLength(p: seq<Byte>, w: seq<Byte>)
    requires Subsequence(p, w)
    ensures |p| <= |w|
    decreases |w|
  {
    if p != [] {
      var p', w' := p[..|p| - 1], w[..|w| - 1];
      if p[|p| - 1] == w[|w| - 1] && Subsequence(p', w') {
        SubsequenceLength(p', w');
      } else {
        SubsequenceLength(p, w');
      }
    }
  }

  lemma {:induction false} SubsequenceSelf(w: seq<Byte>)
    ensures Subsequence(w, w)
    decreases |w|
  {
    if w != [] { SubsequenceSelf(w[..|w| - 1]); }
  }

  predicate OccursAt(p: seq<Byte>, w: seq<Byte>, i: nat) {
    i + |p| <= |w| && w[i..i + |p|] == p
  }

  /** `head` followed by the first blank line: CRLFCRLF occurs there and nowhere before. */
  ghost predicate FirstBlank(head: seq<Byte>) {
    forall i: nat :: i < |head| ==> !OccursAt(BLANK, head + BLANK, i)
  }

  /** In paired text, where the run contains CR, LF, CR, LF, CRLFCRLF has occurred as it stands. */
  lemma EarlyBlank(text: seq<Byte>, n: nat)
    requires Paired(text) && n <= |text| && Subsequence(BLANK, Trailing(text[..n]))
    ensures |Leading(text[..n])| + 4 <= n && OccursAt(BLANK, text, |Leading(text[..n])|)
  {
    var w := text[..n];
    var a, t := Leading(w), Trailing(w);
    PairedPrefix(text, n);
    RunsAlternate(w);
    SubsequenceLength(BLANK, t);
    LeadingAndTrailing(w);
    assert t[..4] == BLANK;
    assert w == a + t;
    assert w[|a|..|a| + 4] == t[..4];
    assert text[|a|..|a| + 4] == w[|a|..|a| + 4];
  }

  /** Before its last byte, a header followed by its first blank line does not set the flag. */
  lemma NotEarlier(head: seq<Byte>, n: nat)
    requires Paired(head + BLANK) && FirstBlank(head) && n < |head| + 4
    ensures !Subsequence(BLANK, Trailing((head + BLANK)[..n]))
  {
    if Subsequence(BLANK, Trailing((head + BLANK)[..n])) {
      EarlyBlank(head + BLANK, n);
      assert false;
    }
  }

  /** A text that ends in break bytes has them, in order, in its trailing run. */
  lemma BreaksAtEnd(head: seq<Byte>, b: seq<Byte>)
    requires AllBreaks(b)
    ensures Subsequence(b, Trailing(head + b))
  {
    TrailingOfConcat(head, b);
    SubsequenceSelf(b);
    SubsequenceAfter(b, Trailing(head), b);
  }

  lemma BlankEndsHeader(head: seq<Byte>)
    ensures Subsequence(BLANK, Trailing(head + BLANK))
  {
    BreaksAtEnd(head, BLANK);
  }

  /**
   For a response whose header has no bare CR or LF, the flag is set exactly at the end of the
   first CRLFCRLF, whatever follows.
   */
  lemma WellFormedHeader(head: seq<Byte>, body: seq<Byte>)
    requires Paired(head + BLANK) && FirstBlank(head)
    ensures HeaderLength(head + BLANK + body, |head| + 4)
  {
    var text := head + BLANK;
    var input := text + body;
    var h := |head| + 4;
    assert input[..h - 1 + 1] == text;
    BlankEndsHeader(head);
    forall j | 0 <= j < h - 1
      ensures !EndsHeader(input, j)
    {
      assert input[..j + 1] == text[..j + 1];
      NotEarlier(head, j + 1);
    }
  }

  lemma PairedPrefix(w: seq<Byte>, n: nat)
    requires Paired(w) && n <= |w|
    ensures Paired(w[..n])
  {
  }

  lemma {:induction false} SubsequenceAfter(p: seq<Byte>, a: seq<Byte>, b: seq<Byte>)
    requires Subsequence(p, b)
    ensures Subsequence(p, a + b)
    decreases |b|
  {
    if p != [] {
      var p', b' := p[..|p| - 1], b[..|b| - 1];
      assert (a + b)[..|a + b| - 1] == a + b';
      if p[|p| - 1] == b[|b| - 1] && Subsequence(p', b') {
        SubsequenceAfter(p', a, b');
      } else {
        SubsequenceAfter(p, a, b');
      }
    }
  }

  /**
   The download of a well-formed response: the file gets exactly the entity body if and only if
   the body is clean.
   */
  lemma DownloadIff(head: seq<Byte>, body: seq<Byte>)
    requires Paired(head + BLANK) && FirstBlank(head)
    ensures Run(head + BLANK + body).out == body <==> Clean(body)
  {
    WellFormedHeader(head, body);
    PassedOnIff(head + BLANK + body, |head| + 4);
    assert (head + BLANK + body)[|head| + 4..] == body;
  }

  /** A damaged response: of a body that is a single line feed nothing arrives, whatever the header. */
  lemma LineFeedIsLost(head: seq<Byte>)
    requires Paired(head + BLANK) && FirstBlank(head)
    ensures !Clean([LF]) && Run(head + BLANK + [LF]).out == []
  {
    var input := head + BLANK + [LF];
    var h := |head| + 4;
    assert !Clean([LF]) by { assert [LF][0] == LF && AllBreaks([LF][..0]); }
    WellFormedHeader(head, [LF]);
    Emitted(input, h);
    KeptAll(input, h, h + 1);
    DownloadIff(head, [LF]);
    assert input[h..] == [LF];
  }
}
