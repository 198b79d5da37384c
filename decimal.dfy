/**
 * Decimal text of integers: what `sprintf('%d', ...)` writes, what PHP 7's
 * `(integer)` cast reads from a string, and a strict parser used by the
 * server-side view of the protocol.
 */
module Decimal {
  import opened Wrappers

  predicate IsDigit(c: char) { '0' <= c <= '9' }

  predicate AllDigits(s: string) { forall i :: 0 <= i < |s| ==> IsDigit(s[i]) }

  function DigitValue(c: char): (d: nat)
    requires IsDigit(c)
    ensures d < 10
  {
    (c as int) - ('0' as int)
  }

  function DigitChar(d: nat): (c: char)
    requires d < 10
    ensures IsDigit(c) && DigitValue(c) == d
  {
    (('0' as int) + d) as char
  }

  /** The decimal digits of `n`, most significant first, without leading zeros. */
  function FormatNat(n: nat): (s: string)
    ensures |s| > 0 && AllDigits(s)
    ensures n < 10 <==> |s| == 1
    decreases n
  {
    if n < 10 then [DigitChar(n)] else FormatNat(n / 10) + [DigitChar(n % 10)]
  }

  /** `sprintf('%d', i)`: a minus sign for negative numbers, then the digits. */
  function FormatInt(i: int): (s: string)
    ensures |s| > 0
    ensures i >= 0 ==> AllDigits(s)
    ensures i < 0 ==> s[0] == '-' && AllDigits(s[1..]) && |s| > 1
  {
    if i < 0 then "-" + FormatNat(-i) else FormatNat(i)
  }

  /** The number a string of digits denotes (the empty string denotes 0). */
  function ValueOf(s: string): nat
    requires AllDigits(s)
  {
    if s == [] then 0 else ValueOf(s[..|s| - 1]) * 10 + DigitValue(s[|s| - 1])
  }

  lemma {:induction false} ValueOfFormatNat(n: nat)
    ensures ValueOf(FormatNat(n)) == n
    decreases n
  {
    if n >= 10 {
      var s := FormatNat(n);
      assert s[..|s| - 1] == FormatNat(n / 10);
      ValueOfFormatNat(n / 10);
    }
  }

  /** The length of the run of digits that `s` starts with. */
  function DigitRun(s: string): (k: nat)
    ensures k <= |s| && AllDigits(s[..k])
    ensures k < |s| ==> !IsDigit(s[k])
  {
    if s == [] || !IsDigit(s[0]) then 0
    else
      var k := 1 + DigitRun(s[1..]);
      assert s[..k] == [s[0]] + s[1..][..k - 1];
      k
  }

  lemma {:induction false} DigitRunOfDigits(d: string, suffix: string)
    requires AllDigits(d)
    requires suffix == [] || !IsDigit(suffix[0])
    ensures DigitRun(d + suffix) == |d|
    decreases |d|
  {
    if d != [] {
      assert (d + suffix)[1..] == d[1..] + suffix;
      DigitRunOfDigits(d[1..], suffix);
    } else {
      assert d + suffix == suffix;
    }
  }

  /** The blanks PHP skips before a number: space, tab, LF, CR, VT and FF. */
  predicate IsBlank(c: char) {
    c == ' ' || c == '\t' || c == '\n' || c == '\r' || c as int == 11 || c as int == 12
  }

  /** The length of the run of blanks that `s` starts with. */
  function BlankRun(s: string): (k: nat)
    ensures k <= |s| && forall i :: 0 <= i < k ==> IsBlank(s[i])
    ensures k < |s| ==> !IsBlank(s[k])
  {
    if s == [] || !IsBlank(s[0]) then 0 else 1 + BlankRun(s[1..])
  }

  function Pow10(n: nat): (p: nat)
    ensures p > 0
  {
    if n == 0 then 1 else 10 * Pow10(n - 1)
  }

  /** `n` times ten to the power `e`, truncated toward zero when `e` is negative. */
  function Scaled(n: nat, e: int): nat {
    if e >= 0 then Times(n, Pow10(e)) else Over(n, Pow10(-e))
  }

  function Times(a: nat, b: nat): nat { a * b }

  function Over(a: nat, b: nat): nat
    requires b > 0
  {
    a / b
  }

  /**
   * The exponent a float literal's `e`/`E` part denotes: an optional sign and
   * at least one digit; anything else is no exponent at all.
   */
  function Exponent(s: string): int {
    if |s| < 2 || (s[0] != 'e' && s[0] != 'E') then 0
    else
      var t := s[1..];
      if (t[0] == '-' || t[0] == '+') && |t| > 1 && IsDigit(t[1]) then
        var v: int := ValueOf(t[1..][..DigitRun(t[1..])]);
        if t[0] == '-' then -v else v
      else if IsDigit(t[0]) then ValueOf(t[..DigitRun(t)])
      else 0
  }

  /**
   * The magnitude of the number an unsigned text starts with, truncated to
   * an integer: digits, then a fraction when a '.' is followed by a digit,
   * then an exponent; text that starts with neither a digit nor '.' and a
   * digit denotes 0.
   */
  function Magnitude(s: string): nat {
    var k := DigitRun(s);
    var t := s[k..];
    if |t| > 1 && t[0] == '.' && IsDigit(t[1]) then
      var u := t[1..];
      var f := DigitRun(u);
      assert AllDigits(s[..k] + u[..f]);
      Scaled(ValueOf(s[..k] + u[..f]), Exponent(u[f..]) - f)
    else if k > 0 then Scaled(ValueOf(s[..k]), Exponent(t))
    else 0
  }

  /**
   * PHP 7's `(integer)` cast of a string: leading blanks skipped, an
   * optional sign, then the number the text starts with, read as a float
   * when it has a fraction or an exponent and truncated toward zero; a
   * string that does not start with a number is 0.
   */
  function LeadingInt(s: string): int {
    SignedNumber(s[BlankRun(s)..])
  }

  /** An optional sign, then the magnitude of the number that follows. */
  function SignedNumber(t: string): int {
    if |t| > 0 && (t[0] == '-' || t[0] == '+') then
      var m: int := Magnitude(t[1..]);
      if t[0] == '-' then -m else m
    else
      Magnitude(t)
  }

  /** Text that cannot continue a number: it starts with no digit, '.', 'e' or 'E'. */
  predicate EndsNumber(suffix: string) {
    suffix == [] || (!IsDigit(suffix[0]) && suffix[0] != '.' && suffix[0] != 'e' && suffix[0] != 'E')
  }

  /** Digits followed by no fraction: the value of the digits, scaled by the exponent that follows. */
  lemma {:induction false} MagnitudeOfInteger(d: string, t: string)
    requires AllDigits(d) && d != []
    requires t == [] || !IsDigit(t[0])
    requires !(|t| > 1 && t[0] == '.' && IsDigit(t[1]))
    ensures Magnitude(d + t) == Scaled(ValueOf(d), Exponent(t))
  {
    DigitRunOfDigits(d, t);
    assert (d + t)[..|d|] == d;
    assert (d + t)[|d|..] == t;
  }

  lemma {:induction false} MagnitudeOfDigits(d: string, suffix: string)
    requires AllDigits(d) && d != []
    requires EndsNumber(suffix)
    ensures Magnitude(d + suffix) == ValueOf(d)
  {
    MagnitudeOfInteger(d, suffix);
  }

  /** `e` followed by digits is the exponent those digits denote. */
  lemma {:induction false} ExponentOfDigits(x: string)
    requires AllDigits(x) && x != []
    ensures Exponent("e" + x) == ValueOf(x)
  {
    assert ("e" + x)[1..] == x;
    DigitRunOfDigits(x, []);
    assert x + [] == x;
  }

  /** The sign `%d` writes is read back: the cast is the signed magnitude of what follows it. */
  lemma {:induction false} SignedRead(i: int, tail: string)
    requires Magnitude(FormatNat(if i < 0 then -i else i) + tail) == (if i < 0 then -i else i)
    ensures LeadingInt(FormatInt(i) + tail) == i
  {
    var n: nat := if i < 0 then -i else i;
    var x := FormatNat(n) + tail;
    assert x[0] == FormatNat(n)[0];
    if i < 0 {
      assert FormatInt(i) + tail == "-" + x;
      NegativeRead(x);
    } else {
      assert FormatInt(i) + tail == x;
      UnsignedRead(x);
    }
  }

  /** A minus sign before a digit negates the magnitude that follows. */
  lemma {:induction false} NegativeRead(x: string)
    requires x != [] && IsDigit(x[0])
    ensures LeadingInt("-" + x) + Magnitude(x) == 0
  {
    var t := "-" + x;
    assert t[0] == '-' && !IsBlank(t[0]);
    assert BlankRun(t) == 0;
    assert t[0..] == t && t[1..] == x;
  }

  /** Text that starts with a digit is read as its magnitude. */
  lemma {:induction false} UnsignedRead(x: string)
    requires x != [] && IsDigit(x[0])
    ensures LeadingInt(x) == Magnitude(x)
  {
    assert !IsBlank(x[0]) && BlankRun(x) == 0;
    assert x[0..] == x;
  }

  /** Reading back what `%d` wrote, whatever text follows it that does not continue the number. */
  lemma {:induction false} LeadingIntFormat(i: int, suffix: string)
    requires EndsNumber(suffix)
    ensures LeadingInt(FormatInt(i) + suffix) == i
  {
    var n: nat := if i < 0 then -i else i;
    MagnitudeOfDigits(FormatNat(n), suffix);
    ValueOfFormatNat(n);
    SignedRead(i, suffix);
  }

  /** An exponent after the digits `%d` wrote scales the integer by that power of ten. */
  lemma {:induction false} LeadingIntExponent(n: nat, e: nat)
    ensures LeadingInt(FormatNat(n) + "e" + FormatNat(e)) == n * Pow10(e)
  {
    var d := FormatNat(n);
    var x := FormatNat(e);
    var s := d + "e" + x;
    assert s == d + ("e" + x);
    MagnitudeOfInteger(d, "e" + x);
    ExponentOfDigits(x);
    ValueOfFormatNat(n);
    ValueOfFormatNat(e);
    assert !IsBlank(s[0]) && s[0] != '-' && s[0] != '+' by { assert s[0] == d[0]; }
    assert s[BlankRun(s)..] == s;
  }

  /** Leading blanks do not change what the cast reads. */
  lemma {:induction false} LeadingIntSkipsBlanks(b: string, s: string)
    requires forall i :: 0 <= i < |b| ==> IsBlank(b[i])
    ensures LeadingInt(b + s) == LeadingInt(s)
    decreases |b|
  {
    if b != [] {
      assert (b + s)[1..] == b[1..] + s;
      LeadingIntSkipsBlanks(b[1..], s);
      assert BlankRun(b + s) == 1 + BlankRun(b[1..] + s);
      assert (b + s)[BlankRun(b + s)..] == (b[1..] + s)[BlankRun(b[1..] + s)..];
    } else {
      assert b + s == s;
    }
  }

  /** PHP 7 casts `" 5"` to 5 and `"1e3"` to 1000. */
  lemma CastExamples()
    ensures LeadingInt(" 5") == 5
    ensures LeadingInt("1e3") == 1000
  {
    BlankExample();
    ExponentExample();
  }

  lemma BlankExample()
    ensures LeadingInt(" 5") == 5
  {
    assert FormatNat(5) == "5" && FormatInt(5) == "5";
    LeadingIntFormat(5, []);
    assert "5" + [] == "5";
    LeadingIntSkipsBlanks(" ", "5");
    assert " " + "5" == " 5";
  }

  lemma ExponentExample()
    ensures LeadingInt("1e3") == 1000
  {
    assert FormatNat(1) == "1" && FormatNat(3) == "3";
    LeadingIntExponent(1, 3);
    assert "1" + "e" + "3" == "1e3";
  }

  lemma {:induction false} ValueOfConcat(a: string, b: string)
    requires AllDigits(a) && AllDigits(b)
    ensures AllDigits(a + b)
    ensures ValueOf(a + b) == ValueOf(a) * Pow10(|b|) + ValueOf(b)
    decreases |b|
  {
    if b != [] {
      var c := a + b;
      var b' := b[..|b| - 1];
      assert c[..|c| - 1] == a + b';
      assert c[|c| - 1] == b[|b| - 1];
      ValueOfConcat(a, b');
      var x, y, p, last := ValueOf(a), ValueOf(b'), Pow10(|b'|), DigitValue(b[|b| - 1]);
      assert ValueOf(c) == ValueOf(a + b') * 10 + last;
      assert ValueOf(b) == y * 10 + last;
      assert Pow10(|b|) == 10 * p;
      Shift(x, p, y, last);
    } else {
      assert a + b == a;
    }
  }

  lemma Shift(x: nat, p: nat, y: nat, last: nat)
    ensures (x * p + y) * 10 + last == x * (10 * p) + (y * 10 + last)
  {
  }

  lemma {:induction false} ValueOfBound(b: string)
    requires AllDigits(b)
    ensures ValueOf(b) < Pow10(|b|)
    decreases |b|
  {
    if b != [] {
      ValueOfBound(b[..|b| - 1]);
    }
  }

  /** Digits, a '.' and more digits: the fraction is cut off. */
  lemma {:induction false} MagnitudeOfFraction(d: string, f: string)
    requires AllDigits(d) && AllDigits(f) && f != []
    ensures Magnitude(d + ("." + f)) == ValueOf(d)
  {
    var t := "." + f;
    DigitRunOfDigits(d, t);
    assert (d + t)[..|d|] == d && (d + t)[|d|..] == t;
    var u := t[1..];
    assert u == f;
    DigitRunOfDigits(f, []);
    assert f + [] == f;
    assert u[..|f|] == f && u[|f|..] == [];
    ValueOfConcat(d, f);
    ValueOfBound(f);
    var p := Pow10(|f|);
    DivideOff(ValueOf(d), ValueOf(f), p);
  }

  lemma AtLeastOnce(k: nat, p: nat)
    requires k >= 1
    ensures k * p >= p
  {
    var j: nat := k - 1;
    assert k * p == j * p + p;
  }

  lemma DivideOff(x: nat, y: nat, p: nat)
    requires y < p
    ensures (x * p + y) / p == x
  {
    var n := x * p + y;
    var q, r := n / p, n % p;
    assert n == q * p + r && 0 <= r < p;
    if q > x {
      assert q * p == x * p + (q - x) * p;
      AtLeastOnce(q - x, p);
    } else if q < x {
      assert x * p == q * p + (x - q) * p;
      AtLeastOnce(x - q, p);
    }
  }

  /** PHP 7 truncates a decimal fraction toward zero: `"-2.5"` casts to -2. */
  lemma {:induction false} LeadingIntFraction(i: int, f: string)
    requires AllDigits(f) && f != []
    ensures LeadingInt(FormatInt(i) + ("." + f)) == i
  {
    var n: nat := if i < 0 then -i else i;
    MagnitudeOfFraction(FormatNat(n), f);
    ValueOfFormatNat(n);
    SignedRead(i, "." + f);
  }

  /** Strict decimal integer: an optional '-' and at least one digit, nothing else. */
  function ParseInt(s: string): (r: Option<int>)
    ensures r.Some? ==> r.value == LeadingInt(s)
  {
    if |s| > 1 && s[0] == '-' && AllDigits(s[1..]) then
      assert LeadingInt(s) == 0 - ValueOf(s[1..]) by {
        assert s[BlankRun(s)..] == s;
        MagnitudeOfDigits(s[1..], []);
        assert s[1..] + [] == s[1..];
      }
      Some(0 - ValueOf(s[1..]))
    else if |s| > 0 && AllDigits(s) then
      assert LeadingInt(s) == ValueOf(s) by {
        assert !IsBlank(s[0]) && s[0] != '-' && s[0] != '+';
        assert s[BlankRun(s)..] == s;
        MagnitudeOfDigits(s, []);
        assert s + [] == s;
      }
      Some(ValueOf(s))
    else None
  }

  lemma ParseIntFormat(i: int)
    ensures ParseInt(FormatInt(i)) == Some(i)
  {
    LeadingIntFormat(i, []);
    assert FormatInt(i) + [] == FormatInt(i);
  }
}
