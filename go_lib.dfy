/** The parts of Go's runtime and standard library whose behaviour the
    modelled code depends on: fixed-width integer wrap-around, `strconv.Atoi`
    (with `strconv.Itoa` as its reference inverse), `strings.Split` on a
    one-character separator, and `len` of a string, which counts UTF-8 bytes. */
module GoLib {
  import opened Wrappers

  const TwoTo32: int := 0x1_0000_0000
  const TwoTo64: int := 0x1_0000_0000_0000_0000
  const MinInt32: int := -0x8000_0000
  const MaxInt32: int := 0x7FFF_FFFF
  const MinInt64: int := -0x8000_0000_0000_0000
  const MaxInt64: int := 0x7FFF_FFFF_FFFF_FFFF

  // ---------------------------------------------------------------------------
  // Fixed-width integers

  /** The value Go keeps of an `int` (64-bit) result: the unique int64 congruent
      to `x` modulo 2^64. */
  function WrapInt64(x: int): (r: int)
    ensures MinInt64 <= r <= MaxInt64
    ensures (x - r) % TwoTo64 == 0
    ensures MinInt64 <= x <= MaxInt64 ==> r == x
  {
    (x - MinInt64) % TwoTo64 + MinInt64
  }

  /** Go's conversion `int32(x)`: keeps the low 32 bits, read as two's complement. */
  function WrapInt32(x: int): (r: int)
    ensures MinInt32 <= r <= MaxInt32
    ensures (x - r) % TwoTo32 == 0
    ensures MinInt32 <= x <= MaxInt32 ==> r == x
  {
    (x - MinInt32) % TwoTo32 + MinInt32
  }

  // ---------------------------------------------------------------------------
  // Decimal digits

  predicate IsDigit(c: char) {
    '0' <= c <= '9'
  }

  predicate AllDigits(s: string) {
    forall i :: 0 <= i < |s| ==> IsDigit(s[i])
  }

  function Pow10(n: nat): (p: nat)
    ensures p >= 1
  {
    if n == 0 then 1 else 10 * Pow10(n - 1)
  }

  /** The number a string of decimal digits denotes, most significant first. */
  function DecimalValue(s: string): (v: nat)
    requires AllDigits(s)
    ensures v < Pow10(|s|)
  {
    if s == [] then 0
    else DecimalValue(s[..|s| - 1]) * 10 + (s[|s| - 1] as int - '0' as int)
  }

  lemma DecimalValueAppend(s: string, c: char)
    requires AllDigits(s) && IsDigit(c)
    ensures AllDigits(s + [c])
    ensures DecimalValue(s + [c]) == DecimalValue(s) * 10 + (c as int - '0' as int)
  {
    assert (s + [c])[..|s + [c]| - 1] == s;
  }

  // ---------------------------------------------------------------------------
  // strconv.Atoi and strconv.Itoa

  /** Why `strconv.Atoi` rejected its input. */
  datatype NumError = ErrSyntax | ErrRange

  function HasSign(s: string): bool {
    |s| > 0 && (s[0] == '+' || s[0] == '-')
  }

  /** `strconv.Atoi` on a 64-bit platform: an optional '+' or '-', then one or
      more ASCII digits and nothing else; a value outside the int64 range is a
      range error. */
  function Atoi(s: string): (r: Result<int, NumError>)
    ensures r.Success? ==> MinInt64 <= r.value <= MaxInt64
    ensures r.Success? ==> s != [] && forall i :: 0 < i < |s| ==> IsDigit(s[i])
    ensures r.Success? && !HasSign(s) ==> AllDigits(s) && r.value == DecimalValue(s)
    ensures r.Success? && HasSign(s) ==>
      |s| > 1 && AllDigits(s[1..]) &&
      r.value == (if s[0] == '-' then -(DecimalValue(s[1..]) as int) else DecimalValue(s[1..]))
    ensures !HasSign(s) && s != [] && AllDigits(s) && DecimalValue(s) <= MaxInt64 ==> r.Success?
    ensures (HasSign(s) && |s| > 1 && AllDigits(s[1..]) &&
             (if s[0] == '-' then DecimalValue(s[1..]) <= -MinInt64 else DecimalValue(s[1..]) <= MaxInt64))
            ==> r.Success?
  {
    var digits := if HasSign(s) then s[1..] else s;
    if digits == [] || !AllDigits(digits) then Failure(ErrSyntax)
    else
      var v: int := if s[0] == '-' then -(DecimalValue(digits) as int) else DecimalValue(digits);
      if v < MinInt64 || MaxInt64 < v then Failure(ErrRange) else Success(v)
  }

  /** The decimal digits of a natural number, without leading zeros. */
  function NatToDecimal(n: nat): (s: string)
    ensures |s| > 0 && AllDigits(s) && DecimalValue(s) == n
    ensures s[0] != '0' || n == 0
    decreases n
  {
    var last := ('0' as int + n % 10) as char;
    if n < 10 then [last]
    else
      var prefix := NatToDecimal(n / 10);
      DecimalValueAppend(prefix, last);
      prefix + [last]
  }

  /** `strconv.Itoa`: the canonical decimal spelling of an int. */
  function Itoa(n: int): (s: string)
  {
    if n < 0 then "-" + NatToDecimal(-n) else NatToDecimal(n)
  }

  /** `strconv.Atoi` reads back every int64 that `strconv.Itoa` writes. */
  lemma AtoiItoa(n: int)
    requires MinInt64 <= n <= MaxInt64
    ensures Atoi(Itoa(n)) == Success(n)
  {
    if n < 0 {
      var t := NatToDecimal(-n);
      assert ("-" + t)[1..] == t;
      assert HasSign("-" + t);
    } else {
      var t := NatToDecimal(n);
      assert !HasSign(t);
    }
  }

  /** A string of exactly `n` ASCII digits with n <= 18 always parses, to its
      decimal value. */
  lemma AtoiDigits(s: string)
    requires AllDigits(s) && 0 < |s| <= 18
    ensures Atoi(s) == Success(DecimalValue(s))
  {
    Pow10Monotone(|s|, 18);
    assert Pow10(18) == 1_000_000_000_000_000_000 by { Pow10Value18(); }
    assert !HasSign(s);
  }

  /** A sign followed by at most 18 digits always parses, to the signed
      decimal value. */
  lemma AtoiSignedDigits(s: string)
    requires HasSign(s) && AllDigits(s[1..]) && 1 < |s| <= 19
    ensures Atoi(s) == Success(if s[0] == '-' then -(DecimalValue(s[1..]) as int) else DecimalValue(s[1..]))
  {
    assert DecimalValue(s[1..]) < 1_000_000_000_000_000_000 by {
      Pow10Monotone(|s| - 1, 18);
      Pow10Value18();
    }
  }

  lemma Pow10Monotone(m: nat, n: nat)
    requires m <= n
    ensures Pow10(m) <= Pow10(n)
  {
    if m < n { Pow10Monotone(m, n - 1); }
  }

  lemma Pow10Value18()
    ensures Pow10(18) == 1_000_000_000_000_000_000
  {
    assert Pow10(1) == 10;
    assert Pow10(2) == 100;
    assert Pow10(3) == 1000;
    assert Pow10(4) == 10000;
    assert Pow10(5) == 100000;
    assert Pow10(6) == 1000000;
    assert Pow10(7) == 10000000;
    assert Pow10(8) == 100000000;
    assert Pow10(9) == 1000000000;
    assert Pow10(10) == 10000000000;
    assert Pow10(11) == 100000000000;
    assert Pow10(12) == 1000000000000;
    assert Pow10(13) == 10000000000000;
    assert Pow10(14) == 100000000000000;
    assert Pow10(15) == 1000000000000000;
    assert Pow10(16) == 10000000000000000;
    assert Pow10(17) == 100000000000000000;
  }

  // ---------------------------------------------------------------------------
  // strings.Split with a one-character separator

  /** How many times `c` occurs in `s`. */
  function Count(s: string, c: char): nat {
    if s == [] then 0 else (if s[0] == c then 1 else 0) + Count(s[1..], c)
  }

  /** `strings.Join`: the parts with `sep` between consecutive ones. */
  function Join(parts: seq<string>, sep: char): string
    requires |parts| > 0
  {
    if |parts| == 1 then parts[0] else parts[0] + [sep] + Join(parts[1..], sep)
  }

  /** `strings.Split(s, sep)` for a one-character separator: the maximal
      separator-free pieces between separators, one more piece than there are
      separators ("" splits into [""]). */
  function Split(s: string, sep: char): (parts: seq<string>)
    ensures |parts| == Count(s, sep) + 1
    ensures forall i :: 0 <= i < |parts| ==> sep !in parts[i]
    ensures Join(parts, sep) == s
    decreases |s|
  {
    if s == [] then [[]]
    else
      var rest := Split(s[1..], sep);
      if s[0] == sep then
        assert ([[]] + rest)[1..] == rest;
        [[]] + rest
      else
        var parts := [[s[0]] + rest[0]] + rest[1..];
        assert s == [s[0]] + s[1..];
        assert |rest| > 1 ==> rest[0] + [sep] + Join(rest[1..], sep) == Join(rest, sep);
        assert |rest| > 1 ==> parts[1..] == rest[1..];
        parts
  }

  /** Splitting a joined list of separator-free parts gives the parts back. */
  lemma {:induction false} SplitJoin(parts: seq<string>, sep: char)
    requires |parts| > 0
    requires forall i :: 0 <= i < |parts| ==> sep !in parts[i]
    ensures Split(Join(parts, sep), sep) == parts
  {
    if |parts| == 1 {
      SplitNoSeparator(parts[0], sep);
    } else {
      SplitJoin(parts[1..], sep);
      SplitAfterPiece(parts[0], sep, Join(parts[1..], sep));
      assert parts == [parts[0]] + parts[1..];
    }
  }

  /** A string without the separator is one piece. */
  lemma SplitNoSeparator(a: string, sep: char)
    requires sep !in a
    ensures Split(a, sep) == [a]
  {
  }

  lemma {:induction false} SplitAfterPiece(a: string, sep: char, t: string)
    requires sep !in a
    ensures Split(a + [sep] + t, sep) == [a] + Split(t, sep)
    decreases |a|
  {
    var s := a + [sep] + t;
    if a == [] {
      assert s[0] == sep && s[1..] == t;
    } else {
      assert s[1..] == a[1..] + [sep] + t;
      SplitAfterPiece(a[1..], sep, t);
      assert a == [a[0]] + a[1..];
    }
  }

  // ---------------------------------------------------------------------------
  // len(string): the UTF-8 byte count

  /** The number of bytes UTF-8 uses for a character. */
  function RuneLen(c: char): (n: nat)
    ensures 1 <= n <= 4
  {
    if c as int < 0x80 then 1
    else if c as int < 0x800 then 2
    else if c as int < 0x10000 then 3
    else 4
  }

  /** Go's `len` of a string: its UTF-8 byte length. */
  function Utf8Len(s: string): (n: nat)
    ensures n >= |s|
    ensures n == |s| <==> forall i :: 0 <= i < |s| ==> s[i] as int < 0x80
  {
    if s == [] then 0
    else
      var n := RuneLen(s[0]) + Utf8Len(s[1..]);
      assert forall i :: 0 < i < |s| ==> s[i] == s[1..][i - 1];
      n
  }
}
