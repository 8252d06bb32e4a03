/**
 * The pieces of JavaScript's string handling the three services rely on:
 * `String.prototype.trim`, `parseInt` without a radix, the `\d` class of
 * regular expressions and the decimal rendering of a counter inside a
 * template literal (`${i}`).
 */
module JsText {
  import opened Wrappers

  /** WhiteSpace and LineTerminator code points of ECMAScript: what `trim` and `parseInt` skip. */
  predicate IsSpace(c: char)
  {
    || c == '\t' || c == '\n' || c == '\U{B}' || c == '\U{C}' || c == '\r' || c == ' '
    || c == '\U{A0}' || c == '\U{1680}' || ('\U{2000}' <= c <= '\U{200A}')
    || c == '\U{2028}' || c == '\U{2029}' || c == '\U{202F}' || c == '\U{205F}'
    || c == '\U{3000}' || c == '\U{FEFF}'
  }

  /** The regular-expression class `\d` (no `u` flag): ASCII digits only. */
  predicate IsDigit(c: char)
  {
    '0' <= c <= '9'
  }

  predicate AllDigits(s: string)
  {
    forall i | 0 <= i < |s| :: IsDigit(s[i])
  }

  /** An optional string that JavaScript treats as false: absent (undefined or null) or empty. */
  predicate Falsy(s: Option<string>)
  {
    s.None? || s.value == ""
  }

  /** Removes leading white space. */
  function TrimStart(s: string): (r: string)
    ensures |r| <= |s| && r == s[|s| - |r|..]
    ensures forall i | 0 <= i < |s| - |r| :: IsSpace(s[i])
    ensures r == [] || !IsSpace(r[0])
  {
    if s != [] && IsSpace(s[0]) then
      var r := TrimStart(s[1..]);
      assert s[1..][|s| - 1 - |r|..] == s[|s| - |r|..];
      r
    else s
  }

  /** Removes trailing white space. */
  function TrimEnd(s: string): (r: string)
    ensures |r| <= |s| && r == s[..|r|]
    ensures forall i | |r| <= i < |s| :: IsSpace(s[i])
    ensures r == [] || !IsSpace(r[|r| - 1])
  {
    if s != [] && IsSpace(s[|s| - 1]) then TrimEnd(s[..|s| - 1]) else s
  }

  /** Number of white-space characters `trim` removes from the front of `s`. */
  function LeadingSpaces(s: string): (k: nat)
    ensures k <= |s|
  {
    |s| - |TrimStart(s)|
  }

  /** `s.trim()`: the infix of `s` left once white space is removed from both ends. */
  function Trim(s: string): (r: string)
    ensures LeadingSpaces(s) + |r| <= |s|
    ensures r == s[LeadingSpaces(s)..LeadingSpaces(s) + |r|]
    ensures forall i | 0 <= i < LeadingSpaces(s) :: IsSpace(s[i])
    ensures forall i | LeadingSpaces(s) + |r| <= i < |s| :: IsSpace(s[i])
    ensures r == [] || (!IsSpace(r[0]) && !IsSpace(r[|r| - 1]))
  {
    var t := TrimStart(s);
    var r := TrimEnd(t);
    var k := |s| - |t|;
    assert LeadingSpaces(s) == k;
    TrimInfix(s, k, t, r);
    r
  }

  /** A prefix of the suffix of `s` at `k` is an infix of `s`, and what it leaves is the tail of `s`. */
  lemma TrimInfix(s: string, k: nat, t: string, r: string)
    requires k <= |s| && t == s[k..] && |r| <= |t| && r == t[..|r|]
    requires forall i | |r| <= i < |t| :: IsSpace(t[i])
    ensures r == s[k..k + |r|]
    ensures forall i | k + |r| <= i < |s| :: IsSpace(s[i])
  {
    forall i | k + |r| <= i < |s|
      ensures IsSpace(s[i])
    {
      assert s[i] == t[i - k];
    }
  }

  /** Value of a character as a digit of radix up to 36; 36 for anything that is no digit. */
  function DigitValue(c: char): (v: nat)
    ensures v <= 36
    ensures v < 10 <==> IsDigit(c)
  {
    if '0' <= c <= '9' then c as int - '0' as int
    else if 'a' <= c <= 'z' then c as int - 'a' as int + 10
    else if 'A' <= c <= 'Z' then c as int - 'A' as int + 10
    else 36
  }

  /** The character of a decimal digit. */
  function DigitChar(d: nat): (c: char)
    requires d < 10
    ensures IsDigit(c) && DigitValue(c) == d
  {
    ('0' as int + d) as char
  }

  /** Length of the longest prefix of `s` made of digits of `radix`. */
  function DigitRun(s: string, radix: nat): (n: nat)
    ensures n <= |s|
    ensures forall i | 0 <= i < n :: DigitValue(s[i]) < radix
    ensures n < |s| ==> DigitValue(s[n]) >= radix
  {
    if s != [] && DigitValue(s[0]) < radix then 1 + DigitRun(s[1..], radix) else 0
  }

  /** Positional value of a string of digits of `radix`, most significant first. */
  function Value(s: string, radix: nat): nat
    requires forall i | 0 <= i < |s| :: DigitValue(s[i]) < radix
  {
    if s == [] then 0 else Value(s[..|s| - 1], radix) * radix + DigitValue(s[|s| - 1])
  }

  /** Radix and digits left after the optional `0x`/`0X` prefix that `parseInt` honours. */
  function StripRadixPrefix(u: string): (r: (nat, string))
    ensures r.0 == 10 || r.0 == 16
    ensures r.0 == 10 ==> r.1 == u
  {
    if |u| >= 2 && u[0] == '0' && (u[1] == 'x' || u[1] == 'X') then (16, u[2..]) else (10, u)
  }

  /** Leading sign of `parseInt`'s input: whether it is negative, and what follows it. */
  function StripSign(t: string): (r: (bool, string))
    ensures r.0 ==> t != [] && t[0] == '-'
    ensures t == [] || (t[0] != '-' && t[0] != '+') ==> r == (false, t)
  {
    if t != [] && (t[0] == '-' || t[0] == '+') then (t[0] == '-', t[1..]) else (false, t)
  }

  /**
   * `parseInt(s)` with no radix: skip leading white space, take an optional
   * sign, switch to radix 16 after a `0x`/`0X` prefix, then read the longest
   * run of digits; no digit at all is `NaN`, written `None`.
   */
  function ParseInt(s: string): (r: Option<int>)
  {
    var (negative, u) := StripSign(TrimStart(s));
    var (radix, v) := StripRadixPrefix(u);
    var z := v[..DigitRun(v, radix)];
    if z == [] then None
    else
      var magnitude: int := Value(z, radix);
      Some(if negative then -magnitude else magnitude)
  }

  /** A blank string, or one of white space only, is `NaN`. */
  lemma ParseIntBlank(s: string)
    ensures TrimStart(s) == [] ==> ParseInt(s).None?
  {
    var t := TrimStart(s);
    if t == [] {
      assert StripSign(t) == (false, []);
      assert StripRadixPrefix([]) == (10, []);
    }
  }

  /** A string that starts with a decimal digit, and not with a `0x`/`0X` prefix, is a non-negative number. */
  lemma ParseIntDigitStart(s: string)
    requires s != [] && IsDigit(s[0]) && !(|s| >= 2 && s[0] == '0' && (s[1] == 'x' || s[1] == 'X'))
    ensures ParseInt(s).Some? && ParseInt(s).value >= 0
  {
    assert !IsSpace(s[0]);
    assert TrimStart(s) == s;
    assert StripSign(s) == (false, s);
    assert StripRadixPrefix(s) == (10, s);
    assert DigitRun(s, 10) > 0;
  }

  /** A non-empty string of decimal digits parses to its decimal value. */
  lemma ParseIntDigits(s: string)
    requires s != [] && AllDigits(s)
    ensures ParseInt(s) == Some(Value(s, 10))
  {
    assert !IsSpace(s[0]);
    assert TrimStart(s) == s;
    assert StripSign(s) == (false, s);
    assert StripRadixPrefix(s) == (10, s) by {
      assert |s| >= 2 ==> IsDigit(s[1]);
    }
    assert s[..DigitRun(s, 10)] == s;
  }

  /** A leading zero digit does not change a positional value. */
  lemma {:induction false} ValueLeadingZero(s: string, radix: nat)
    requires 0 < radix && forall i | 0 <= i < |s| :: DigitValue(s[i]) < radix
    ensures Value(['0'] + s, radix) == Value(s, radix)
    decreases |s|
  {
    var z := ['0'] + s;
    if s != [] {
      assert z[..|z| - 1] == ['0'] + s[..|s| - 1];
      ValueLeadingZero(s[..|s| - 1], radix);
    }
  }

  /** Prefixing a digit string with "0" does not change what `parseInt` makes of it. */
  lemma ParseIntLeadingZero(s: string)
    requires s != [] && AllDigits(s)
    ensures ParseInt(['0'] + s) == ParseInt(s)
  {
    var z := ['0'] + s;
    assert AllDigits(z) by {
      forall i | 0 <= i < |z|
        ensures IsDigit(z[i])
      {
        if i > 0 {
          assert z[i] == s[i - 1];
        }
      }
    }
    ParseIntDigits(s);
    ParseIntDigits(z);
    assert forall i | 0 <= i < |s| :: DigitValue(s[i]) < 10;
    ValueLeadingZero(s, 10);
  }

  /** `${n}` for a natural number: its decimal digits without leading zeros. */
  function DecimalString(n: nat): (s: string)
    ensures s != [] && AllDigits(s)
    ensures n > 0 ==> s[0] != '0'
    ensures Value(s, 10) == n
  {
    if n < 10 then [DigitChar(n)]
    else
      var p := DecimalString(n / 10);
      var s := p + [DigitChar(n % 10)];
      assert s[..|s| - 1] == p;
      s
  }

  /** Distinct numbers render as distinct strings, as the round trip through `Value` shows. */
  lemma DecimalStringInjective(m: nat, n: nat)
    requires DecimalString(m) == DecimalString(n)
    ensures m == n
  {
  }
}
