/** The Python string built-ins the core relies on: strip, find, replace, lower, str(int), int(str), zero padding. */
module Text {
  import opened Wrappers

  // ---------------------------------------------------------------------------
  // Whitespace and str.strip()
  // ---------------------------------------------------------------------------

  /** The characters for which Python's str.isspace() holds; str.strip() with no argument removes exactly these. */
  predicate IsSpace(c: char) {
    c == ' ' || ('\t' <= c <= '\r') || ('\U{1C}' <= c <= '\U{1F}') || c == '\U{85}' || c == '\U{A0}'
    || c == '\U{1680}' || ('\U{2000}' <= c <= '\U{200A}') || c == '\U{2028}' || c == '\U{2029}'
    || c == '\U{202F}' || c == '\U{205F}' || c == '\U{3000}'
  }

  /** `not s.strip()`: the string holds no character other than whitespace. */
  predicate IsBlank(s: string) {
    forall i :: 0 <= i < |s| ==> IsSpace(s[i])
  }

  /** Python's s.lstrip(). */
  function TrimStart(s: string): string {
    if s != [] && IsSpace(s[0]) then TrimStart(s[1..]) else s
  }

  /** lstrip removes exactly the leading whitespace: the result is a suffix of s that does not start with
      whitespace, and everything removed is whitespace. */
  lemma {:induction false} TrimStartSpec(s: string)
    ensures var r := TrimStart(s);
            && |r| <= |s| && r == s[|s| - |r|..]
            && (r != [] ==> !IsSpace(r[0]))
            && forall i :: 0 <= i < |s| - |r| ==> IsSpace(s[i])
  {
    if s != [] && IsSpace(s[0]) {
      TrimStartSpec(s[1..]);
      var r := TrimStart(s);
      forall i | 0 <= i < |s| - |r| ensures IsSpace(s[i]) {
        if i > 0 {
          assert s[i] == s[1..][i - 1];
        }
      }
    }
  }

  /** Python's s.rstrip(). */
  function TrimEnd(s: string): string {
    if s != [] && IsSpace(s[|s| - 1]) then TrimEnd(s[..|s| - 1]) else s
  }

  /** rstrip removes exactly the trailing whitespace: the result is a prefix of s that does not end with
      whitespace, and everything removed is whitespace. */
  lemma {:induction false} TrimEndSpec(s: string)
    ensures var r := TrimEnd(s);
            && |r| <= |s| && r == s[..|r|]
            && (r != [] ==> !IsSpace(r[|r| - 1]))
            && forall i :: |r| <= i < |s| ==> IsSpace(s[i])
  {
    if s != [] && IsSpace(s[|s| - 1]) {
      TrimEndSpec(s[..|s| - 1]);
      var r := TrimEnd(s);
      forall i | |r| <= i < |s| ensures IsSpace(s[i]) {
        if i < |s| - 1 {
          assert s[i] == s[..|s| - 1][i];
        }
      }
    }
  }

  /** Python's s.strip(). */
  function Strip(s: string): string {
    TrimEnd(TrimStart(s))
  }

  /** strip gives a slice of s that neither starts nor ends with whitespace, and it is empty exactly when s is
      blank. */
  lemma StripSpec(s: string)
    ensures var r := Strip(s);
            && |r| <= |s|
            && (r != [] ==> !IsSpace(r[0]) && !IsSpace(r[|r| - 1]))
            && (r == [] <==> IsBlank(s))
  {
    var t := TrimStart(s);
    var r := TrimEnd(t);
    TrimStartSpec(s);
    TrimEndSpec(t);
    assert t != [] ==> t[0] == s[|s| - |t|];
    if r != [] {
      assert r[0] == t[0];
    }
    assert r == [] ==> t == [];
    if t != [] {
      assert !IsSpace(s[|s| - |t|]);
    }
  }

  // ---------------------------------------------------------------------------
  // Substring search: str.find and str.replace
  // ---------------------------------------------------------------------------

  /** `sub` occurs in `s` starting at position i. */
  predicate OccursAt(s: string, sub: string, i: int) {
    0 <= i && i + |sub| <= |s| && s[i..i + |sub|] == sub
  }

  predicate Contains(s: string, sub: string) {
    exists i :: 0 <= i <= |s| - |sub| && OccursAt(s, sub, i)
  }

  /** Python's s.find(sub, start) for a non-negative start: the lowest position at or after `start` where `sub`
      occurs, or -1 when there is none. */
  function FindFrom(s: string, sub: string, start: nat): (r: int)
    ensures r == -1 || (start <= r && OccursAt(s, sub, r))
    decreases |s| - start
  {
    if start + |sub| > |s| then -1
    else if s[start..start + |sub|] == sub then start
    else FindFrom(s, sub, start + 1)
  }

  /** FindFrom finds the first occurrence: -1 exactly when there is none at or after `start`, and no occurrence
      lies between `start` and the position found. */
  lemma {:induction false} FindFromFirst(s: string, sub: string, start: nat)
    ensures FindFrom(s, sub, start) == -1 <==> forall i :: start <= i ==> !OccursAt(s, sub, i)
    ensures FindFrom(s, sub, start) != -1 ==> forall i :: start <= i < FindFrom(s, sub, start) ==> !OccursAt(s, sub, i)
    decreases |s| - start
  {
    if start + |sub| <= |s| && s[start..start + |sub|] != sub {
      FindFromFirst(s, sub, start + 1);
    }
  }

  /** Python's s.replace(pat, rep) for a non-empty pattern: occurrences are replaced left to right, without overlap.
      A string in which the pattern does not occur is returned unchanged. */
  function ReplaceAll(s: string, pat: string, rep: string): (r: string)
    requires pat != []
    ensures !Contains(s, pat) ==> r == s
    decreases |s|
  {
    if |s| < |pat| then s
    else if s[..|pat|] == pat then
      assert OccursAt(s, pat, 0);
      rep + ReplaceAll(s[|pat|..], pat, rep)
    else
      ContainsInTail(s, pat);
      [s[0]] + ReplaceAll(s[1..], pat, rep)
  }

  lemma ContainsInTail(s: string, pat: string)
    requires s != []
    ensures Contains(s[1..], pat) ==> Contains(s, pat)
  {
    if Contains(s[1..], pat) {
      var i :| 0 <= i <= |s[1..]| - |pat| && OccursAt(s[1..], pat, i);
      assert s[i + 1..i + 1 + |pat|] == s[1..][i..i + |pat|];
      assert OccursAt(s, pat, i + 1);
    }
  }

  /** A leading occurrence of the pattern is replaced, and the rest is processed on its own. */
  lemma ReplaceAllLeading(pat: string, rep: string, rest: string)
    requires pat != []
    ensures ReplaceAll(pat + rest, pat, rep) == rep + ReplaceAll(rest, pat, rep)
  {
    assert (pat + rest)[..|pat|] == pat;
    assert (pat + rest)[|pat|..] == rest;
  }

  // ---------------------------------------------------------------------------
  // str.lower() on ASCII letters
  // ---------------------------------------------------------------------------

  function LowerChar(c: char): char {
    if 'A' <= c <= 'Z' then (c as int + 32) as char else c
  }

  /** Python's s.lower(), restricted to ASCII letters: no upper-case letter is left, every upper-case letter becomes
      the same letter in lower case, and every other character is kept. */
  function Lower(s: string): (r: string)
    ensures |r| == |s|
    ensures forall i :: 0 <= i < |s| ==> !('A' <= r[i] <= 'Z')
    ensures forall i :: 0 <= i < |s| && 'A' <= s[i] <= 'Z' ==>
              'a' <= r[i] <= 'z' && r[i] as int - 'a' as int == s[i] as int - 'A' as int
    ensures forall i :: 0 <= i < |s| && !('A' <= s[i] <= 'Z') ==> r[i] == s[i]
  {
    seq(|s|, i requires 0 <= i < |s| => LowerChar(s[i]))
  }

  /** Lower-casing twice is lower-casing once. */
  lemma LowerIdempotent(s: string)
    ensures Lower(Lower(s)) == Lower(s)
  {
    var a, b := Lower(Lower(s)), Lower(s);
    assert |a| == |b|;
    forall i | 0 <= i < |a| ensures a[i] == b[i] {
      assert a[i] == LowerChar(LowerChar(s[i]));
    }
  }

  // ---------------------------------------------------------------------------
  // Decimal digits: str(int), f"{n:03d}", int(str)
  // ---------------------------------------------------------------------------

  predicate IsDigit(c: char) {
    '0' <= c <= '9'
  }

  predicate AllDigits(s: string) {
    forall i :: 0 <= i < |s| ==> IsDigit(s[i])
  }

  function DigitChar(d: nat): char
    requires d < 10
  {
    ('0' as int + d) as char
  }

  /** The value of a string of decimal digits. */
  function DigitsValue(s: string): nat
    requires AllDigits(s)
  {
    if s == [] then 0 else DigitsValue(s[..|s| - 1]) * 10 + (s[|s| - 1] as int - '0' as int)
  }

  /** Python's str(n) for a non-negative integer: decimal digits without leading zeros. */
  function NatToString(n: nat): (r: string)
    ensures r != [] && AllDigits(r)
    ensures DigitsValue(r) == n
  {
    if n < 10 then [DigitChar(n)]
    else
      var r := NatToString(n / 10) + [DigitChar(n % 10)];
      assert r[..|r| - 1] == NatToString(n / 10);
      r
  }

  /** Python's str(i) for any integer. */
  function IntToString(i: int): (r: string)
    ensures r != [] && r[0] != '+' && !IsSpace(r[0]) && !IsSpace(r[|r| - 1])
    ensures i >= 0 ==> AllDigits(r) && DigitsValue(r) == i
    ensures i < 0 ==> r[0] == '-' && AllDigits(r[1..]) && DigitsValue(r[1..]) == -i
  {
    if i < 0 then
      var r := "-" + NatToString(-i);
      assert r[1..] == NatToString(-i);
      r
    else NatToString(i)
  }

  function Zeros(k: nat): (r: string)
    ensures |r| == k && AllDigits(r) && DigitsValue(r) == 0
  {
    if k == 0 then ""
    else
      var r := Zeros(k - 1) + "0";
      assert r[..|r| - 1] == Zeros(k - 1);
      r
  }

  /** Leading zeros do not change the value of a digit string. */
  lemma {:induction false} LeadingZeros(k: nat, s: string)
    requires AllDigits(s)
    ensures AllDigits(Zeros(k) + s) && DigitsValue(Zeros(k) + s) == DigitsValue(s)
  {
    var z := Zeros(k) + s;
    assert AllDigits(z) by {
      forall i | 0 <= i < |z| ensures IsDigit(z[i]) {
        if i >= k { assert z[i] == s[i - k]; }
      }
    }
    if s != [] {
      var s' := s[..|s| - 1];
      assert z[..|z| - 1] == Zeros(k) + s';
      assert z[|z| - 1] == s[|s| - 1];
      LeadingZeros(k, s');
    } else {
      assert z == Zeros(k);
    }
  }

  /** Python's f"{n:03d}" for a non-negative n: the decimal digits of n, left-padded with zeros to width 3. It keeps
      the value of n, so different numbers give different strings. */
  function Pad3(n: nat): string {
    if n < 10 then "00" + NatToString(n)
    else if n < 100 then "0" + NatToString(n)
    else NatToString(n)
  }

  /** Pad3 gives at least three digits whose value is n. */
  lemma Pad3Value(n: nat)
    ensures |Pad3(n)| >= 3 && AllDigits(Pad3(n)) && DigitsValue(Pad3(n)) == n
  {
    var digits := NatToString(n);
    if n < 10 {
      assert Zeros(2) == "00" by {
        assert Zeros(1) == "0";
      }
      assert Pad3(n) == Zeros(2) + digits;
      LeadingZeros(2, digits);
    } else if n < 100 {
      assert Zeros(1) == "0";
      assert Pad3(n) == Zeros(1) + digits;
      LeadingZeros(1, digits);
    } else {
      NatToStringLength(n);
    }
  }

  /** A number of at least 100 has at least three digits. */
  lemma {:induction false} NatToStringLength(n: nat)
    ensures n >= 10 ==> |NatToString(n)| >= 2
    ensures n >= 100 ==> |NatToString(n)| >= 3
  {
    if n >= 10 {
      NatToStringLength(n / 10);
    }
  }

  /** Python's int(s) on a string: surrounding whitespace, an optional sign, then one or more ASCII digits. */
  function ParseInt(s: string): (r: Option<int>)
    ensures r.Some? ==> Strip(s) != []
    ensures Strip(s) == [] ==> r.None?
  {
    var t := Strip(s);
    if t == [] then None
    else
      var negative := t[0] == '-';
      var digits := if t[0] == '-' || t[0] == '+' then t[1..] else t;
      if digits == [] || !AllDigits(digits) then None
      else
        var v: int := DigitsValue(digits);
        Some(if negative then -v else v)
  }

  /** `s` reads as an integer literal the way int() reads one: whitespace, an optional sign, one or more ASCII
      digits, whitespace. */
  predicate IntLiteral(s: string, lead: string, sign: string, digits: string, trail: string) {
    && IsBlank(lead) && IsBlank(trail)
    && (sign == "" || sign == "+" || sign == "-")
    && digits != [] && AllDigits(digits)
    && s == lead + sign + digits + trail
  }

  /** The value of a sign and its digits. */
  function LiteralValue(sign: string, digits: string): int
    requires AllDigits(digits)
  {
    var v: int := DigitsValue(digits);
    if sign == "-" then -v else v
  }

  /** Leading whitespace in front of a string that does not start with whitespace is what lstrip removes. */
  lemma {:induction false} TrimStartBlank(lead: string, t: string)
    requires IsBlank(lead) && (t == [] || !IsSpace(t[0]))
    ensures TrimStart(lead + t) == t
  {
    if lead == [] {
      assert lead + t == t;
    } else {
      assert (lead + t)[1..] == lead[1..] + t;
      TrimStartBlank(lead[1..], t);
    }
  }

  /** Trailing whitespace after a string that does not end with whitespace is what rstrip removes. */
  lemma {:induction false} TrimEndBlank(t: string, trail: string)
    requires IsBlank(trail) && (t == [] || !IsSpace(t[|t| - 1]))
    ensures TrimEnd(t + trail) == t
  {
    if trail == [] {
      assert t + trail == t;
    } else {
      var n := |trail| - 1;
      assert (t + trail)[..|t + trail| - 1] == t + trail[..n];
      assert (t + trail)[|t + trail| - 1] == trail[n];
      TrimEndBlank(t, trail[..n]);
    }
  }

  /** Stripping an integer literal leaves its sign and digits. */
  lemma StripLiteral(s: string, lead: string, sign: string, digits: string, trail: string)
    requires IntLiteral(s, lead, sign, digits, trail)
    ensures Strip(s) == sign + digits
  {
    var body := sign + digits;
    assert body[|body| - 1] == digits[|digits| - 1];
    assert s == lead + (body + trail);
    assert (body + trail)[0] == body[0];
    TrimStartBlank(lead, body + trail);
    TrimEndBlank(body, trail);
  }

  /** int() accepts every integer literal, with the value its sign and digits give. */
  lemma ParseIntLiteral(s: string, lead: string, sign: string, digits: string, trail: string)
    requires IntLiteral(s, lead, sign, digits, trail)
    ensures ParseInt(s) == Some(LiteralValue(sign, digits))
  {
    StripLiteral(s, lead, sign, digits, trail);
    var t := sign + digits;
    if sign == "" {
      assert t == digits && IsDigit(t[0]);
    } else {
      assert t[0] == sign[0] && t[1..] == digits;
    }
  }

  /** lstrip cuts off a blank prefix. */
  lemma TrimStartParts(s: string) returns (lead: string)
    ensures IsBlank(lead) && s == lead + TrimStart(s)
  {
    TrimStartSpec(s);
    lead := s[..|s| - |TrimStart(s)|];
    forall i | 0 <= i < |lead| ensures IsSpace(lead[i]) {
      assert lead[i] == s[i];
    }
  }

  /** rstrip cuts off a blank suffix. */
  lemma TrimEndParts(t: string) returns (trail: string)
    ensures IsBlank(trail) && t == TrimEnd(t) + trail
  {
    TrimEndSpec(t);
    var n := |TrimEnd(t)|;
    trail := t[n..];
    forall i | 0 <= i < |trail| ensures IsSpace(trail[i]) {
      assert trail[i] == t[n + i];
    }
  }

  /** The parts of a string as lstrip and rstrip split it: blank lead and trail around the stripped body. */
  lemma StripParts(s: string) returns (lead: string, trail: string)
    ensures IsBlank(lead) && IsBlank(trail) && s == lead + Strip(s) + trail
  {
    lead := TrimStartParts(s);
    trail := TrimEndParts(TrimStart(s));
  }

  /** What int() found when it accepted a string: the stripped string is a sign and one or more digits. */
  lemma ParsedParts(s: string) returns (sign: string, digits: string)
    requires ParseInt(s).Some?
    ensures sign == "" || sign == "+" || sign == "-"
    ensures digits != [] && AllDigits(digits) && Strip(s) == sign + digits
  {
    var body := Strip(s);
    sign := if body[0] == '-' || body[0] == '+' then [body[0]] else "";
    digits := body[|sign|..];
    assert body == sign + digits;
  }

  /** int() accepts nothing but integer literals. */
  lemma ParseIntOnlyLiterals(s: string)
    requires ParseInt(s).Some?
    ensures exists lead, sign, digits, trail ::
              IntLiteral(s, lead, sign, digits, trail) && ParseInt(s) == Some(LiteralValue(sign, digits))
  {
    var lead, trail := StripParts(s);
    var sign, digits := ParsedParts(s);
    assert s == lead + sign + digits + trail;
    assert IntLiteral(s, lead, sign, digits, trail);
    ParseIntLiteral(s, lead, sign, digits, trail);
  }

  /** int(str(i)) == i. */
  lemma ParseIntToString(i: int)
    ensures ParseInt(IntToString(i)) == Some(i)
  {
    var s := IntToString(i);
    assert TrimStart(s) == s;
    assert TrimEnd(s) == s;
    assert Strip(s) == s;
  }
}
