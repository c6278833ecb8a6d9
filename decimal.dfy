/**
 * Decimal text for unsigned integers: `format!("{n}")` (used for the PDH status
 * codes in error messages) and `str::parse::<u16>()` (used for the `PORT` setting).
 */
module Decimal {
  import opened Ints
  import opened Wrappers

  predicate IsDigit(c: char) {
    '0' <= c <= '9'
  }

  predicate AllDigits(s: string) {
    forall i :: 0 <= i < |s| ==> IsDigit(s[i])
  }

  function DigitValue(c: char): (d: nat)
    requires IsDigit(c)
    ensures d < 10
  {
    c as int - '0' as int
  }

  function DigitChar(d: nat): (c: char)
    requires d < 10
    ensures IsDigit(c) && DigitValue(c) == d
  {
    ('0' as int + d) as char
  }

  /** The number a string of decimal digits denotes, most significant digit first. */
  function Value(s: string): nat
    requires AllDigits(s)
  {
    if s == [] then 0 else Value(s[..|s| - 1]) * 10 + DigitValue(s[|s| - 1])
  }

  /** Canonical decimal text: no leading zero except for the number zero itself. */
  predicate Canonical(s: string) {
    |s| >= 1 && AllDigits(s) && (s[0] == '0' ==> |s| == 1)
  }

  /** Rust's `Display` for unsigned integers. */
  function Format(n: nat): (s: string)
    ensures Canonical(s)
    ensures Value(s) == n
  {
    if n < 10 then [DigitChar(n)]
    else
      var prefix := Format(n / 10);
      var s := prefix + [DigitChar(n % 10)];
      assert s[..|s| - 1] == prefix;
      s
  }

  /** A canonical digit string has value 0 exactly when it is "0", and a value below 10 exactly when it is one digit. */
  lemma {:induction false} CanonicalValue(s: string)
    requires Canonical(s)
    ensures Value(s) == 0 <==> s == "0"
    ensures Value(s) < 10 <==> |s| == 1
  {
    if |s| > 1 {
      var p := s[..|s| - 1];
      assert Canonical(p) && p[0] == s[0];
      CanonicalValue(p);
    }
  }

  /** Formatting is the inverse of reading canonical text. */
  lemma {:induction false} FormatValue(s: string)
    requires Canonical(s)
    ensures Format(Value(s)) == s
  {
    CanonicalValue(s);
    if |s| > 1 {
      var p := s[..|s| - 1];
      assert Canonical(p) && p[0] == s[0];
      CanonicalValue(p);
      FormatValue(p);
      var v, d := Value(s), DigitValue(s[|s| - 1]);
      assert v == Value(p) * 10 + d && 10 <= v;
      assert v / 10 == Value(p) && v % 10 == d;
      assert DigitChar(d) == s[|s| - 1];
      assert Format(v) == Format(v / 10) + [DigitChar(v % 10)];
      assert s == p + [s[|s| - 1]];
    } else {
      assert s == [s[0]];
    }
  }

  /**
   * The digit loop of `u16::from_str`: each step multiplies by ten and adds the
   * digit with checked arithmetic, so a non-digit or an overflow fails the parse.
   */
  function Accumulate(acc: u16, s: string): (r: Option<u16>)
    ensures r.Some? ==> AllDigits(s) && acc <= r.value
    ensures s != [] && !IsDigit(s[0]) ==> r.None?
    decreases |s|
  {
    if s == [] then Some(acc)
    else if !IsDigit(s[0]) then None
    else
      var next := acc * 10 + DigitValue(s[0]);
      if next < TWO_16 then Accumulate(next, s[1..]) else None
  }

  /** `u16::from_str`: an optional leading '+', then at least one ASCII digit. */
  function ParseU16(s: string): (r: Option<u16>)
    ensures r.Some? <==> var d := Unsigned(s); d != [] && AllDigits(d) && Value(d) < TWO_16
    ensures r.Some? ==> r.value == Value(Unsigned(s))
  {
    var digits := Unsigned(s);
    if digits == [] then None
    else
      AccumulateValue([], digits);
      assert [] + digits == digits;
      Accumulate(0, digits)
  }

  /** The text after an optional leading '+'. */
  function Unsigned(s: string): (d: string)
    ensures |d| <= |s| && d == s[|s| - |d|..]
  {
    if |s| > 0 && s[0] == '+' then s[1..] else s
  }

  /** Appending digits never makes a number smaller. */
  lemma {:induction false} ValueGrows(p: string, t: string)
    requires AllDigits(p) && AllDigits(t)
    ensures AllDigits(p + t) && Value(p) <= Value(p + t)
  {
    if t != [] {
      var q := p + t[..|t| - 1];
      assert (p + t)[..|p + t| - 1] == q;
      ValueGrows(p, t[..|t| - 1]);
    } else {
      assert p + t == p;
    }
  }

  /**
   * Continuing the digit loop from the value of an already-read prefix `p`
   * yields the value of `p + s`, exactly when `s` is all digits and that value fits.
   */
  lemma {:induction false} AccumulateValue(p: string, s: string)
    requires AllDigits(p) && Value(p) < TWO_16
    ensures Accumulate(Value(p), s) ==
      if AllDigits(s) && Value(p + s) < TWO_16 then Some(Value(p + s)) else None
    decreases |s|
  {
    if s == [] {
      assert p + s == p;
    } else if IsDigit(s[0]) {
      var p' := p + [s[0]];
      assert p'[..|p'| - 1] == p;
      assert p' + s[1..] == p + s;
      if Value(p') < TWO_16 {
        AccumulateValue(p', s[1..]);
      } else if AllDigits(s) {
        ValueGrows(p', s[1..]);
      }
    }
  }

  /** Reading back what `Format` wrote gives the number, with or without a '+'. */
  lemma ParseFormat(n: nat)
    requires n < TWO_16
    ensures ParseU16(Format(n)) == Some(n)
    ensures ParseU16("+" + Format(n)) == Some(n)
  {
    var f := Format(n);
    assert IsDigit(f[0]) && Unsigned(f) == f;
    assert ("+" + f)[1..] == f;
    assert Unsigned("+" + f) == f;
  }
}
