/**
 * String helpers the sensor engine relies on: upper-casing, case-insensitive comparison,
 * decimal rendering of integers, `Split(' ')[0]`, `string.Format` with one argument and
 * ordinal string order. Only ASCII letters have case; culture rules are not modelled.
 */
module Text {

  /** `char.ToUpperInvariant` restricted to ASCII letters. */
  function Upper(c: char): (u: char)
    ensures 'a' <= c <= 'z' ==> u as int == c as int - 32
    ensures !('a' <= c <= 'z') ==> u == c
  {
    if 'a' <= c <= 'z' then (c as int - 32) as char else c
  }

  /** Ordinal comparison that ignores ASCII case (`StringComparison.OrdinalIgnoreCase`). */
  predicate EqualsIgnoreCase(a: string, b: string)
  {
    |a| == |b| && forall i :: 0 <= i < |a| ==> Upper(a[i]) == Upper(b[i])
  }

  lemma EqualsIgnoreCaseIsEquivalence(a: string, b: string, c: string)
    ensures EqualsIgnoreCase(a, a)
    ensures EqualsIgnoreCase(a, b) ==> EqualsIgnoreCase(b, a)
    ensures EqualsIgnoreCase(a, b) && EqualsIgnoreCase(b, c) ==> EqualsIgnoreCase(a, c)
  {
  }

  predicate IsDigit(c: char) { '0' <= c <= '9' }

  function DigitChar(d: int): (c: char)
    requires 0 <= d < 10
    ensures IsDigit(c) && c as int - '0' as int == d
  {
    (d + '0' as int) as char
  }

  /** The decimal digits of `n`, most significant first, with no leading zero. */
  function NatToString(n: nat): (s: string)
    decreases n
  {
    if n < 10 then [DigitChar(n)] else NatToString(n / 10) + [DigitChar(n % 10)]
  }

  /** The number a string of decimal digits denotes: the inverse of `NatToString`. */
  function DigitsValue(s: string): nat
    requires forall i :: 0 <= i < |s| ==> IsDigit(s[i])
  {
    if s == [] then 0
    else
      var last := s[|s| - 1];
      assert IsDigit(last);
      DigitsValue(s[..|s| - 1]) * 10 + (last as int - '0' as int)
  }

  /** Decimal rendering round-trips: it yields digits only, canonically, and reading them back gives `n`. */
  lemma {:induction false} NatToStringRoundTrip(n: nat)
    ensures |NatToString(n)| > 0
    ensures forall i :: 0 <= i < |NatToString(n)| ==> IsDigit(NatToString(n)[i])
    ensures DigitsValue(NatToString(n)) == n
    ensures NatToString(n)[0] == '0' ==> n == 0
    decreases n
  {
    if n >= 10 {
      NatToStringRoundTrip(n / 10);
      var s := NatToString(n);
      assert s[..|s| - 1] == NatToString(n / 10);
    }
  }

  lemma NatToStringInjective(m: nat, n: nat)
    ensures NatToString(m) == NatToString(n) ==> m == n
  {
    NatToStringRoundTrip(m);
    NatToStringRoundTrip(n);
  }

  /** `int.ToString()` in the invariant culture. */
  function IntToString(i: int): (s: string)
  {
    if i < 0 then "-" + NatToString(-i) else NatToString(i)
  }

  /** The rendering starts with a minus sign exactly for negative numbers. */
  lemma IntToStringSign(i: int)
    ensures |IntToString(i)| > 0
    ensures IntToString(i)[0] == '-' <==> i < 0
  {
    if i >= 0 { NatToStringRoundTrip(i); }
  }

  /** Distinct integers render differently, so numbered names never collide. */
  lemma IntToStringInjective(a: int, b: int)
    ensures IntToString(a) == IntToString(b) ==> a == b
  {
    IntToStringSign(a);
    IntToStringSign(b);
    if IntToString(a) == IntToString(b) {
      if a < 0 {
        assert NatToString(-a) == IntToString(a)[1..] == IntToString(b)[1..] == NatToString(-b);
        NatToStringInjective(-a, -b);
      } else {
        NatToStringInjective(a, b);
      }
    }
  }

  /**
   * `s.Split(' ')[0]`: the characters before the first space (all of `s` when it has none).
   */
  function FirstToken(s: string): (r: string)
    ensures r <= s
    ensures ' ' !in r
    ensures |r| < |s| ==> s[|r|] == ' '
  {
    if s == [] || s[0] == ' ' then [] else [s[0]] + FirstToken(s[1..])
  }

  /** A text without a space is its own first token. */
  lemma {:induction false} FirstTokenOfSpaceless(s: string)
    requires forall i :: 0 <= i < |s| ==> s[i] != ' '
    ensures FirstToken(s) == s
  {
    if s != [] {
      FirstTokenOfSpaceless(s[1..]);
    }
  }

  /**
   * `string.Format(fmt, arg)` for format strings whose only item is `{0}`: every
   * occurrence of `{0}` is replaced by `arg`. Escaped braces and other items are not modelled.
   */
  function Format1(fmt: string, arg: string): string
    decreases |fmt|
  {
    if |fmt| < 3 then fmt
    else if fmt[..3] == "{0}" then arg + Format1(fmt[3..], arg)
    else [fmt[0]] + Format1(fmt[1..], arg)
  }

  lemma {:induction false} Format1WithoutItem(fmt: string, arg: string)
    requires '{' !in fmt
    ensures Format1(fmt, arg) == fmt
    decreases |fmt|
  {
    if |fmt| >= 3 {
      assert fmt[0] in fmt;
      assert fmt[1..] <= fmt[1..];
      assert forall c :: c in fmt[1..] ==> c in fmt;
      Format1WithoutItem(fmt[1..], arg);
    }
  }

  lemma Format1Examples(arg: string)
    ensures Format1("{0}", arg) == arg
    ensures Format1("[{0}]", arg) == "[" + arg + "]"
  {
    assert Format1("", arg) == "";
    assert Format1("]", arg) == "]";
    assert "[{0}]"[1..] == "{0}]";
    assert "{0}]"[3..] == "]";
  }

  /** Ordinal (code-point) order on strings: `string.CompareOrdinal(a, b) < 0`. */
  predicate OrdinalLess(a: string, b: string)
    decreases |a|
  {
    if a == [] then b != []
    else if b == [] then false
    else if a[0] != b[0] then a[0] < b[0]
    else OrdinalLess(a[1..], b[1..])
  }

  lemma {:induction false} OrdinalLessIrreflexive(a: string)
    ensures !OrdinalLess(a, a)
    decreases |a|
  {
    if a != [] { OrdinalLessIrreflexive(a[1..]); }
  }

  lemma {:induction false} OrdinalLessTransitive(a: string, b: string, c: string)
    requires OrdinalLess(a, b) && OrdinalLess(b, c)
    ensures OrdinalLess(a, c)
    decreases |a|
  {
    if a != [] && b != [] && c != [] && a[0] == b[0] && b[0] == c[0] {
      OrdinalLessTransitive(a[1..], b[1..], c[1..]);
    }
  }

  lemma {:induction false} OrdinalLessTotal(a: string, b: string)
    ensures a == b || OrdinalLess(a, b) || OrdinalLess(b, a)
    decreases |a|
  {
    if a != [] && b != [] && a[0] == b[0] {
      OrdinalLessTotal(a[1..], b[1..]);
      if a[1..] == b[1..] {
        assert a == [a[0]] + a[1..] && b == [b[0]] + b[1..];
      }
    }
  }

  lemma {:induction false} OrdinalLessAsymmetric(a: string, b: string)
    ensures !(OrdinalLess(a, b) && OrdinalLess(b, a))
    decreases |a|
  {
    if a != [] && b != [] && a[0] == b[0] {
      OrdinalLessAsymmetric(a[1..], b[1..]);
    }
  }
}
