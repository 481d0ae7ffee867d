/** Decimal numerals as `snprintf("%d")` writes them and `atoi` reads them. */
module Decimal {
  import opened Common

  const INT_MAX: int := 0x7fff_ffff

  predicate IsDigit(c: Byte) {
    48 <= c <= 57
  }

  function Digit(c: Byte): int {
    var d: int := c;
    d - 48
  }

  /** Canonical numeral of a natural number: no leading zeros. */
  function Print(n: nat): (w: seq<Byte>)
    ensures |w| >= 1 && forall i :: 0 <= i < |w| ==> IsDigit(w[i])
  {
    if n < 10 then [48 + n] else Print(n / 10) + [48 + n % 10]
  }

  function PrintInt(n: int): seq<Byte> {
    if n < 0 then [45] + Print(-n) else Print(n)
  }

  predicate IsSpace(c: Byte) {
    c == 32 || 9 <= c <= 13
  }

  function SkipSpaces(b: seq<Byte>, i: nat): (r: nat)
    requires i <= |b|
    ensures i <= r <= |b|
    decreases |b| - i
  {
    if i < |b| && IsSpace(b[i]) then SkipSpaces(b, i + 1) else i
  }

  function ParseDigits(b: seq<Byte>, i: nat, acc: int): int
    requires i <= |b|
    decreases |b| - i
  {
    if i < |b| && IsDigit(b[i]) then ParseDigits(b, i + 1, acc * 10 + Digit(b[i])) else acc
  }

  /** `atoi`: white space, an optional sign, digits up to the first byte that is none. */
  function Atoi(b: seq<Byte>): int {
    var i := SkipSpaces(b, 0);
    if i < |b| && b[i] == 45 then -ParseDigits(b, i + 1, 0)
    else if i < |b| && b[i] == 43 then ParseDigits(b, i + 1, 0)
    else ParseDigits(b, i, 0)
  }

  /** The value of a numeral, most significant digit first. */
  function Value(w: seq<Byte>): int
    requires forall i :: 0 <= i < |w| ==> IsDigit(w[i])
  {
    if w == [] then 0 else Value(w[..|w| - 1]) * 10 + Digit(w[|w| - 1])
  }

  lemma {:induction false} ValueOfPrint(n: nat)
    ensures Value(Print(n)) == n
  {
    if n >= 10 {
      ValueOfPrint(n / 10);
      assert Print(n)[..|Print(n)| - 1] == Print(n / 10);
    } else {
      assert Print(n)[..0] == [];
    }
  }

  lemma {:induction false} ParseAccumulates(w: seq<Byte>, rest: seq<Byte>, k: nat)
    requires (forall i :: 0 <= i < |w| ==> IsDigit(w[i])) && k <= |w|
    requires rest != [] ==> !IsDigit(rest[0])
    ensures ParseDigits(w + rest, k, Value(w[..k])) == Value(w)
    decreases |w| - k
  {
    if k < |w| {
      assert w[..k + 1][..k] == w[..k];
      ParseAccumulates(w, rest, k + 1);
    } else {
      assert w[..k] == w;
    }
  }

  /** `atoi` undoes `snprintf`, whatever follows the terminator. */
  lemma AtoiOfPrint(n: nat, rest: seq<Byte>)
    requires rest != [] ==> !IsDigit(rest[0])
    ensures Atoi(Print(n) + rest) == n
  {
    var w := Print(n);
    assert (w + rest)[0] == w[0];
    assert w[..0] == [];
    ParseAccumulates(w, rest, 0);
    ValueOfPrint(n);
  }

  lemma AtoiOfNothing(rest: seq<Byte>)
    requires rest != [] && rest[0] == 0
    ensures Atoi(rest) == 0
  {
  }

  /** A larger number never has the shorter numeral. */
  lemma {:induction false} PrintLengthMonotone(n: nat, m: nat)
    requires n <= m
    ensures |Print(n)| <= |Print(m)|
    decreases m
  {
    if n >= 10 { PrintLengthMonotone(n / 10, m / 10); }
  }

  function Pow10(k: nat): nat {
    if k == 0 then 1 else 10 * Pow10(k - 1)
  }

  lemma {:induction false} PrintLengthBound(n: nat, k: nat)
    requires k >= 1 && n < Pow10(k)
    ensures |Print(n)| <= k
    decreases k
  {
    if n >= 10 {
      assert n / 10 < Pow10(k - 1);
      PrintLengthBound(n / 10, k - 1);
    }
  }

  lemma IntFits(n: nat)
    requires n <= INT_MAX
    ensures |Print(n)| <= 10
  {
    assert Pow10(10) == 10_000_000_000;
    PrintLengthBound(n, 10);
  }
}
