/**
 * Text helpers the screens rely on: decimal numerals as `Number.prototype.toString`
 * writes them for non-negative integers, reading such numerals back, left padding
 * (`padStart`) and `String.prototype.trim`.
 */
module Text {
  import opened Wrappers

  predicate IsDigit(c: char) { '0' <= c <= '9' }

  predicate AllDigits(s: string) {
    forall i :: 0 <= i < |s| ==> IsDigit(s[i])
  }

  function DigitValue(c: char): (d: nat)
    requires IsDigit(c)
    ensures d < 10
  {
    c as int - '0' as int
  }

  function DigitChar(d: nat): (c: char)
    requires d < 10
    ensures IsDigit(c) && DigitValue(c) == d
  {
    (d + '0' as int) as char
  }

  /** The decimal numeral of `n`, without leading zeros. */
  function NatToString(n: nat): (s: string)
    ensures |s| >= 1 && AllDigits(s)
    ensures s[0] == '0' <==> n == 0
    decreases n
  {
    if n < 10 then [DigitChar(n)] else NatToString(n / 10) + [DigitChar(n % 10)]
  }

  /** The decimal numeral of an integer, with a leading '-' when it is negative. */
  function IntToString(i: int): (s: string)
    ensures |s| >= 1
    ensures i >= 0 ==> s == NatToString(i)
    ensures i < 0 ==> s[0] == '-' && s[1..] == NatToString(-i)
  {
    if i < 0 then "-" + NatToString(-i) else NatToString(i)
  }

  /** The value of a string of decimal digits (leading zeros allowed). */
  function DigitsValue(s: string): nat
    requires AllDigits(s)
  {
    if s == [] then 0 else 10 * DigitsValue(s[..|s| - 1]) + DigitValue(s[|s| - 1])
  }

  lemma {:induction false} NatToStringRoundTrip(n: nat)
    ensures DigitsValue(NatToString(n)) == n
  {
    if n >= 10 {
      var s := NatToString(n / 10);
      var t := s + [DigitChar(n % 10)];
      NatToStringRoundTrip(n / 10);
      assert t[..|t| - 1] == s;
    }
  }

  lemma {:induction false} LeadingZeroIgnored(s: string)
    requires AllDigits(s)
    ensures AllDigits("0" + s) && DigitsValue("0" + s) == DigitsValue(s)
  {
    var t := "0" + s;
    if s != [] {
      LeadingZeroIgnored(s[..|s| - 1]);
      assert t[..|t| - 1] == "0" + s[..|s| - 1];
    } else {
      assert t[..|t| - 1] == [];
    }
  }

  /** `str.padStart(2, '0')`: one '0' in front of a single character, otherwise `str` itself. */
  function PadStart2(s: string): (r: string)
    ensures |r| >= 2 && |r| >= |s|
    ensures |s| >= 2 ==> r == s
    ensures |s| < 2 ==> r[|r| - |s|..] == s && forall i :: 0 <= i < |r| - |s| ==> r[i] == '0'
  {
    if |s| >= 2 then s else if |s| == 1 then "0" + s else "00"
  }

  /** Reading a padded numeral gives back the number. */
  lemma PaddedNumeralValue(n: nat)
    ensures AllDigits(PadStart2(NatToString(n)))
    ensures DigitsValue(PadStart2(NatToString(n))) == n
  {
    NatToStringRoundTrip(n);
    if |NatToString(n)| < 2 {
      LeadingZeroIgnored(NatToString(n));
    }
  }

  /** The length of the longest prefix of `s` made of decimal digits. */
  function DigitRun(s: string): (k: nat)
    ensures k <= |s|
    ensures AllDigits(s[..k])
    ensures k < |s| ==> !IsDigit(s[k])
  {
    if s == [] || !IsDigit(s[0]) then 0
    else
      var k' := DigitRun(s[1..]);
      assert s[..1 + k'] == [s[0]] + s[1..][..k'];
      1 + k'
  }

  /** A numeral followed by a non-digit (or nothing) is read as exactly that numeral. */
  lemma {:induction false} DigitRunOfNumeral(t: string, rest: string)
    requires AllDigits(t)
    requires rest == [] || !IsDigit(rest[0])
    ensures DigitRun(t + rest) == |t|
  {
    if t != [] {
      assert (t + rest)[1..] == t[1..] + rest;
      DigitRunOfNumeral(t[1..], rest);
    } else {
      assert t + rest == rest;
    }
  }

  /** A numeral below 100 has at most two digits. */
  lemma NumeralBelowHundred(n: nat)
    requires n < 100
    ensures |NatToString(n)| <= 2
  {
    if n >= 10 {
      assert NatToString(n) == NatToString(n / 10) + [DigitChar(n % 10)];
    }
  }

  /**
   * Reads the decimal numeral at the start of `s`: its value and what follows it,
   * or None when `s` does not start with a digit.
   */
  function ReadNumeral(s: string): (r: Option<(nat, string)>)
    ensures r.None? <==> (s == [] || !IsDigit(s[0]))
    ensures r.Some? ==> |r.value.1| < |s|
    ensures r.Some? ==> r.value.1 == [] || !IsDigit(r.value.1[0])
  {
    var k := DigitRun(s);
    if k == 0 then None else Some((DigitsValue(s[..k]), s[k..]))
  }

  /** A written numeral followed by a non-digit reads back as its number and that rest. */
  lemma ReadNumeralOf(n: nat, rest: string)
    requires rest == [] || !IsDigit(rest[0])
    ensures ReadNumeral(NatToString(n) + rest) == Some((n, rest))
  {
    var t := NatToString(n);
    DigitRunOfNumeral(t, rest);
    NatToStringRoundTrip(n);
    assert (t + rest)[..|t|] == t;
    assert (t + rest)[|t|..] == rest;
  }

  /** The characters `String.prototype.trim` removes: ECMAScript WhiteSpace and LineTerminator. */
  predicate IsJsWhitespace(c: char) {
    || c == '\t' || c == '\n' || c == '\U{000B}' || c == '\U{000C}' || c == '\r'
    || c == ' ' || c == '\U{00A0}' || c == '\U{1680}' || ('\U{2000}' <= c <= '\U{200A}')
    || c == '\U{2028}' || c == '\U{2029}' || c == '\U{202F}' || c == '\U{205F}'
    || c == '\U{3000}' || c == '\U{FEFF}'
  }

  predicate AllWhitespace(s: string) {
    forall i :: 0 <= i < |s| ==> IsJsWhitespace(s[i])
  }

  /** White space followed by white space is white space. */
  lemma WhitespaceJoin(a: string, b: string)
    requires AllWhitespace(a) && AllWhitespace(b)
    ensures AllWhitespace(a + b)
  {
    forall i | 0 <= i < |a + b|
      ensures IsJsWhitespace((a + b)[i])
    {
      if i < |a| {
        assert (a + b)[i] == a[i];
      } else {
        assert (a + b)[i] == b[i - |a|];
      }
    }
  }

  /** Cutting a suffix of `s` at `k` is cutting `s` at `a + k`. */
  lemma SliceOfSuffix(s: string, a: nat, k: nat)
    requires a + k <= |s|
    ensures s[a..][..k] == s[a..a + k] && s[a..][k..] == s[a + k..]
  {
  }

  function TrimStart(s: string): (r: string)
    ensures |r| <= |s| && r == s[|s| - |r|..]
    ensures r == [] || !IsJsWhitespace(r[0])
    ensures AllWhitespace(s[..|s| - |r|])
  {
    if s != [] && IsJsWhitespace(s[0]) then
      var rest := s[1..];
      var r := TrimStart(rest);
      assert rest[|rest| - |r|..] == s[|s| - |r|..];
      assert s[..|s| - |r|] == [s[0]] + rest[..|rest| - |r|];
      WhitespaceJoin([s[0]], rest[..|rest| - |r|]);
      r
    else
      assert s[..0] == [];
      s
  }

  function TrimEnd(s: string): (r: string)
    ensures |r| <= |s| && r == s[..|r|]
    ensures r == [] || !IsJsWhitespace(r[|r| - 1])
    ensures AllWhitespace(s[|r|..])
  {
    if s != [] && IsJsWhitespace(s[|s| - 1]) then
      var init := s[..|s| - 1];
      var r := TrimEnd(init);
      assert init[..|r|] == s[..|r|];
      assert s[|r|..] == init[|r|..] + [s[|s| - 1]];
      WhitespaceJoin(init[|r|..], [s[|s| - 1]]);
      r
    else
      assert s[|s|..] == [];
      s
  }

  /**
   * `String.prototype.trim`: `s` without its leading and trailing white space. The
   * result neither starts nor ends with white space and is empty exactly when `s`
   * is all white space; TrimIsSlice says that only white space was cut off.
   */
  function Trim(s: string): (r: string)
    ensures r == [] || (!IsJsWhitespace(r[0]) && !IsJsWhitespace(r[|r| - 1]))
    ensures r == [] <==> AllWhitespace(s)
  {
    var t := TrimStart(s);
    var r := TrimEnd(t);
    assert r == [] ==> AllWhitespace(s) by {
      if r == [] {
        assert s == s[..|s| - |t|] + t;
      }
    }
    assert r != [] ==> !IsJsWhitespace(r[0]) by {
      if r != [] {
        assert r[0] == t[0];
      }
    }
    r
  }

  /** What Trim removes is white space at the two ends, and what it keeps is a slice of `s`. */
  lemma TrimIsSlice(s: string)
    ensures exists a :: 0 <= a <= |s| - |Trim(s)| && Trim(s) == s[a..a + |Trim(s)|]
                        && AllWhitespace(s[..a]) && AllWhitespace(s[a + |Trim(s)|..])
  {
    var t := TrimStart(s);
    var r := TrimEnd(t);
    assert Trim(s) == r;
    var a := |s| - |t|;
    SliceOfSuffix(s, a, |r|);
    assert t == s[a..];
    assert r == s[a..a + |r|];
    assert s[a + |r|..] == t[|r|..];
  }

  /** Trimming twice is trimming once. */
  lemma TrimIdempotent(s: string)
    ensures Trim(Trim(s)) == Trim(s)
  {
    var r := Trim(s);
    assert TrimStart(r) == r;
    assert TrimEnd(r) == r;
  }
}
