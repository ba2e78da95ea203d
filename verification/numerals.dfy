/** Decimal numerals: the lenient decoder behind `Token.Int()`
    (internal/token/token.go:35-46) and the `%v` rendering of an `int` that the
    syntax-error message uses (internal/parser/expectation.go:16-18). */
module Numerals {
  import opened Runes

  predicate AllDigits(s: string) {
    forall i | 0 <= i < |s| :: IsAsciiDigit(s[i])
  }

  function DigitValue(c: char): nat
    requires IsAsciiDigit(c)
  {
    c as int - '0' as int
  }

  function DigitRune(d: nat): (c: char)
    requires d < 10
    ensures IsAsciiDigit(c) && DigitValue(c) == d
  {
    ('0' as int + d) as char
  }

  function Pow10(n: nat): nat {
    if n == 0 then 1 else 10 * Pow10(n - 1)
  }

  /** The decoder of token.go: digits are accumulated left to right as
      `value*10 + digit` and every other rune is skipped.  Written on the last
      rune, so one unfolding is one step of that accumulation; machine
      overflow is not modelled. */
  function Value(s: string): nat {
    if s == [] then 0
    else
      var init, c := s[..|s| - 1], s[|s| - 1];
      if IsAsciiDigit(c) then 10 * Value(init) + DigitValue(c) else Value(init)
  }

  /** The ASCII digits of `s`, in order. */
  function OnlyDigits(s: string): (r: string)
    ensures AllDigits(r) && |r| <= |s|
  {
    if s == [] then []
    else OnlyDigits(s[..|s| - 1]) + (if IsAsciiDigit(s[|s| - 1]) then [s[|s| - 1]] else [])
  }

  /** Reference meaning of a digit string: each digit weighted by its place. */
  ghost function Positional(s: string): nat
    requires AllDigits(s)
  {
    if s == [] then 0 else DigitValue(s[0]) * Pow10(|s| - 1) + Positional(s[1..])
  }

  /** `%v` of a non-negative int: shortest decimal form, no sign. */
  function FormatNat(n: nat): (r: string)
    ensures 1 <= |r| && AllDigits(r)
    ensures n < 10 <==> |r| == 1
  {
    if n < 10 then [DigitRune(n)] else FormatNat(n / 10) + [DigitRune(n % 10)]
  }

  /** `%v` of an int: a minus sign before the magnitude of a negative value. */
  function Format(n: int): (r: string)
    ensures |r| >= 1
    ensures (n < 0) <==> r[0] == '-'
  {
    if n < 0 then "-" + FormatNat(-n) else FormatNat(n)
  }

  /** Splits off the longest prefix of ASCII digits. */
  function SplitDigits(s: string): (r: (string, string))
    ensures r.0 + r.1 == s && AllDigits(r.0)
    ensures r.1 == [] || !IsAsciiDigit(r.1[0])
  {
    if s != [] && IsAsciiDigit(s[0]) then
      var (a, b) := SplitDigits(s[1..]);
      assert [s[0]] + a + b == s;
      ([s[0]] + a, b)
    else ([], s)
  }

  lemma {:induction false} ValueOfEmpty()
    ensures Value("") == 0
  {
  }

  /** Appending a digit shifts the value one place; any other rune leaves it alone. */
  lemma {:induction false} ValueAppend(s: string, c: char)
    ensures IsAsciiDigit(c) ==> Value(s + [c]) == 10 * Value(s) + DigitValue(c)
    ensures !IsAsciiDigit(c) ==> Value(s + [c]) == Value(s)
  {
    assert (s + [c])[..|s|] == s;
  }

  /** Non-digit runes do not influence the decoded value. */
  lemma {:induction false} ValueIgnoresNonDigits(s: string)
    ensures Value(s) == Value(OnlyDigits(s))
    decreases |s|
  {
    if s != [] {
      var init, c := s[..|s| - 1], s[|s| - 1];
      assert s == init + [c];
      ValueIgnoresNonDigits(init);
      if IsAsciiDigit(c) {
        ValueAppend(OnlyDigits(init), c);
      } else {
        assert OnlyDigits(s) == OnlyDigits(init);
      }
    }
  }

  /** A leading non-digit, such as a sign, is ignored by the decoder. */
  lemma {:induction false} ValueSkipsLeadingNonDigit(c: char, s: string)
    requires !IsAsciiDigit(c)
    ensures Value([c] + s) == Value(s)
    decreases |s|
  {
    if s == [] {
      assert ([c] + s)[..0] == [];
    } else {
      var init, d := s[..|s| - 1], s[|s| - 1];
      assert [c] + s == ([c] + init) + [d];
      assert s == init + [d];
      ValueSkipsLeadingNonDigit(c, init);
      ValueAppend([c] + init, d);
      ValueAppend(init, d);
    }
  }

  lemma {:induction false} PositionalAppend(s: string, c: char)
    requires AllDigits(s) && IsAsciiDigit(c)
    ensures AllDigits(s + [c])
    ensures Positional(s + [c]) == 10 * Positional(s) + DigitValue(c)
    decreases |s|
  {
    var t := s + [c];
    if s == [] {
      assert t[1..] == [];
    } else {
      assert t[1..] == s[1..] + [c];
      PositionalAppend(s[1..], c);
      var d, p, q := DigitValue(s[0]), Pow10(|s| - 1), Positional(s[1..]);
      assert Pow10(|t| - 1) == 10 * p;
      assert Positional(t) == d * (10 * p) + (10 * q + DigitValue(c));
      ShiftPlace(d, p, q);
    }
  }

  lemma ShiftPlace(d: nat, p: nat, q: nat)
    ensures d * (10 * p) + 10 * q == 10 * (d * p + q)
  {
  }

  /** On a pure digit string the decoder computes the positional value. */
  lemma {:induction false} ValueIsPositional(s: string)
    requires AllDigits(s)
    ensures Value(s) == Positional(s)
    decreases |s|
  {
    if s != [] {
      var init, c := s[..|s| - 1], s[|s| - 1];
      assert s == init + [c];
      ValueIsPositional(init);
      ValueAppend(init, c);
      PositionalAppend(init, c);
    }
  }

  /** Decoding the rendering of a natural number gives the number back. */
  lemma {:induction false} FormatNatRoundTrip(n: nat)
    ensures Value(FormatNat(n)) == n
    decreases n
  {
    if n < 10 {
      ValueAppend([], DigitRune(n));
      assert [] + [DigitRune(n)] == FormatNat(n);
    } else {
      FormatNatRoundTrip(n / 10);
      ValueAppend(FormatNat(n / 10), DigitRune(n % 10));
    }
  }

  /** Decoding the rendering of any int gives its magnitude; the sign is
      carried only by the leading '-'. */
  lemma {:induction false} FormatRoundTrip(n: int)
    ensures Value(Format(n)) == if n < 0 then -n else n
  {
    if n < 0 {
      FormatNatRoundTrip(-n);
      ValueSkipsLeadingNonDigit('-', FormatNat(-n));
    } else {
      FormatNatRoundTrip(n);
    }
  }

  /** A digit run followed by a non-digit splits exactly there. */
  lemma {:induction false} SplitDigitsOf(a: string, b: string)
    requires AllDigits(a)
    requires b == [] || !IsAsciiDigit(b[0])
    ensures SplitDigits(a + b) == (a, b)
    decreases |a|
  {
    if a == [] {
      assert a + b == b;
    } else {
      assert (a + b)[1..] == a[1..] + b;
      SplitDigitsOf(a[1..], b);
      assert [a[0]] + a[1..] == a;
    }
  }
}
