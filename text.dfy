/** String helpers with the JavaScript meaning the source relies on:
    `toLowerCase`, `includes`, `trim`, number-to-string and `parseFloat`
    restricted to integers. Case mapping covers ASCII letters only. */
module Text {
  import opened Common

  function LowerChar(c: char): char {
    if 'A' <= c <= 'Z' then (c as int + 32) as char else c
  }

  /** `s.toLowerCase()` on ASCII letters. */
  function ToLower(s: string): (r: string)
    ensures |r| == |s|
    ensures forall i :: 0 <= i < |s| ==> r[i] == LowerChar(s[i])
  {
    if s == [] then [] else [LowerChar(s[0])] + ToLower(s[1..])
  }

  /** `sub` occurs in `s` starting at offset `i`. */
  predicate OccursAt(s: string, sub: string, i: int) {
    0 <= i <= |s| - |sub| && s[i..i + |sub|] == sub
  }

  /** `s.includes(sub)`: `sub` occurs in `s` at some offset. */
  predicate Contains(s: string, sub: string) {
    exists i | 0 <= i <= |s| - |sub| :: OccursAt(s, sub, i)
  }

  /** `a.toLowerCase().includes(b.toLowerCase())`. */
  predicate ContainsIgnoringCase(s: string, sub: string) {
    Contains(ToLower(s), ToLower(sub))
  }

  /** Every string includes the empty string. */
  lemma ContainsEmpty(s: string)
    ensures Contains(s, "")
  {
    assert OccursAt(s, "", 0);
  }

  /** So an empty search term matches every string, case-insensitively too. */
  lemma ContainsIgnoringCaseEmpty(s: string)
    ensures ContainsIgnoringCase(s, "")
  {
    ContainsEmpty(ToLower(s));
  }

  /** The characters JavaScript's `trim` removes (the common ones; other
      Unicode space separators are not modelled). */
  predicate IsSpace(c: char) {
    c == ' ' || c == '\t' || c == '\n' || c == '\r'
    || c as int == 0x0B || c as int == 0x0C || c as int == 0xA0
    || c as int == 0xFEFF || c as int == 0x2028 || c as int == 0x2029
  }

  predicate IsBlank(s: string) {
    forall i :: 0 <= i < |s| ==> IsSpace(s[i])
  }

  /** The characters of `s` at positions `lo` up to `hi` are all blanks. */
  predicate BlankBetween(s: string, lo: int, hi: int) {
    forall i :: lo <= i < hi && 0 <= i < |s| ==> IsSpace(s[i])
  }

  /** `s.trimStart()`: the suffix left after dropping the leading blanks. */
  function TrimStart(s: string): (r: string)
    ensures |r| <= |s| && r == s[|s| - |r|..]
    ensures r != [] ==> !IsSpace(r[0])
    ensures r == [] <==> IsBlank(s)
  {
    if s == [] then s
    else if IsSpace(s[0]) then TrimStart(s[1..])
    else s
  }

  /** `s.trimEnd()`: the prefix left after dropping the trailing blanks. */
  function TrimEnd(s: string): (r: string)
    ensures |r| <= |s| && r == s[..|r|]
    ensures r != [] ==> !IsSpace(r[|r| - 1])
    ensures r == [] <==> IsBlank(s)
  {
    if s == [] then s
    else if IsSpace(s[|s| - 1]) then TrimEnd(s[..|s| - 1])
    else s
  }

  /** `trimStart` removes only blanks: everything before the suffix it
      keeps is blank. */
  lemma {:induction false} TrimStartRemovesOnlyBlanks(s: string)
    ensures BlankBetween(s, 0, |s| - |TrimStart(s)|)
  {
    if s != [] && IsSpace(s[0]) {
      TrimStartRemovesOnlyBlanks(s[1..]);
      forall i | 1 <= i < |s| - |TrimStart(s)|
        ensures IsSpace(s[i])
      {
        assert s[i] == s[1..][i - 1];
      }
    }
  }

  /** `trimEnd` removes only blanks: everything after the prefix it keeps
      is blank. */
  lemma {:induction false} TrimEndRemovesOnlyBlanks(s: string)
    ensures BlankBetween(s, |TrimEnd(s)|, |s|)
  {
    if s != [] && IsSpace(s[|s| - 1]) {
      TrimEndRemovesOnlyBlanks(s[..|s| - 1]);
      forall i | |TrimEnd(s)| <= i < |s| - 1
        ensures IsSpace(s[i])
      {
        assert s[i] == s[..|s| - 1][i];
      }
    }
  }

  /** `s.trim()`: a contiguous slice of `s` that neither starts nor ends with
      a space, and is empty exactly when `s` is blank; what is cut off on
      either side is blank (TrimRemovesOnlyBlanks). */
  function Trim(s: string): (r: string)
    ensures |r| <= |s|
    ensures exists k :: OccursAt(s, r, k)
    ensures r != [] ==> !IsSpace(r[0]) && !IsSpace(r[|r| - 1])
    ensures r == [] <==> IsBlank(s)
  {
    var a := TrimStart(s);
    var b := TrimEnd(a);
    assert OccursAt(s, b, |s| - |a|);
    TrimEnds(s);
    b
  }

  /** Trimming both ends leaves a string that is empty exactly when `s` is
      blank, and otherwise starts and ends with a non-blank. */
  lemma TrimEnds(s: string)
    ensures var r := TrimEnd(TrimStart(s));
            && (r == [] <==> IsBlank(s))
            && (r != [] ==> !IsSpace(r[0]) && !IsSpace(r[|r| - 1]))
  {
    var a := TrimStart(s);
    var b := TrimEnd(a);
    if a != [] {
      assert !IsBlank(a);
      assert b[0] == a[0];
    }
  }

  /** `trim` removes only blanks: the result sits at an offset `k` of `s`,
      and every character before `k` and after the result is blank. */
  lemma TrimRemovesOnlyBlanks(s: string)
    ensures exists k :: OccursAt(s, Trim(s), k) && BlankBetween(s, 0, k) && BlankBetween(s, k + |Trim(s)|, |s|)
  {
    var a := TrimStart(s);
    var b := TrimEnd(a);
    var k := |s| - |a|;
    TrimStartRemovesOnlyBlanks(s);
    TrimEndRemovesOnlyBlanks(a);
    assert b == Trim(s);
    assert OccursAt(s, b, k);
    forall i | k + |b| <= i < |s|
      ensures IsSpace(s[i])
    {
      assert s[i] == a[i - k];
    }
  }

  /** Trimming an already trimmed string changes nothing. */
  lemma {:induction false} TrimIdempotent(s: string)
    ensures Trim(Trim(s)) == Trim(s)
  {
    var t := Trim(s);
    if t != [] {
      assert TrimStart(t) == t;
      assert TrimEnd(t) == t;
    }
  }

  function DigitChar(d: nat): (c: char)
    requires d < 10
    ensures '0' <= c <= '9'
  {
    ('0' as int + d) as char
  }

  predicate IsDigit(c: char) {
    '0' <= c <= '9'
  }

  function DigitValue(c: char): (d: nat)
    requires IsDigit(c)
    ensures d < 10 && DigitChar(d) == c
  {
    c as int - '0' as int
  }

  /** Decimal rendering of a natural number, as a template literal prints it. */
  function NatToString(n: nat): (r: string)
    ensures |r| >= 1 && (|r| == 1 <==> n < 10)
    ensures forall i :: 0 <= i < |r| ==> IsDigit(r[i])
  {
    if n < 10 then [DigitChar(n)] else NatToString(n / 10) + [DigitChar(n % 10)]
  }

  function IntToString(i: int): string {
    if i < 0 then "-" + NatToString(-i) else NatToString(i)
  }

  /** Different numbers print differently. */
  lemma {:induction false} NatToStringInjective(a: nat, b: nat)
    requires NatToString(a) == NatToString(b)
    ensures a == b
  {
    var s := NatToString(a);
    if a >= 10 && b >= 10 {
      assert s[|s| - 1] == DigitChar(a % 10) == DigitChar(b % 10);
      assert NatToString(a / 10) == s[..|s| - 1] == NatToString(b / 10);
      NatToStringInjective(a / 10, b / 10);
    } else {
      assert s[0] == DigitChar(a) == DigitChar(b);
    }
  }

  /** The value of a string of decimal digits. */
  function DigitsValue(s: string): (v: nat)
    requires forall i :: 0 <= i < |s| ==> IsDigit(s[i])
  {
    if s == [] then 0 else DigitsValue(s[..|s| - 1]) * 10 + DigitValue(s[|s| - 1])
  }

  /** The longest prefix of `s` made of decimal digits. */
  function DigitPrefix(s: string): (r: string)
    ensures |r| <= |s| && r == s[..|r|]
    ensures forall i :: 0 <= i < |r| ==> IsDigit(r[i])
    ensures |r| < |s| ==> !IsDigit(s[|r|])
  {
    if s == [] || !IsDigit(s[0]) then [] else [s[0]] + DigitPrefix(s[1..])
  }

  /** `parseFloat(s)` on integer input: leading spaces are skipped, an optional
      sign is read, then the longest run of digits; no digit at all is NaN,
      written `None`. Fractions and exponents are not modelled. */
  function ParseAmount(s: string): (r: Option<int>)
    ensures r.Some? ==> exists k :: 0 <= k < |s| && IsDigit(s[k])
  {
    if s != [] && IsSpace(s[0]) then
      var r := ParseAmount(s[1..]);
      assert r.Some? ==> exists k :: 0 <= k < |s[1..]| && IsDigit(s[1..][k]);
      assert forall k :: 0 <= k < |s[1..]| ==> s[1..][k] == s[k + 1];
      r
    else ParseSigned(s)
  }

  /** The sign and the digits, once the leading spaces are skipped. */
  function ParseSigned(t: string): (r: Option<int>)
    ensures r.Some? ==> exists k :: 0 <= k < |t| && IsDigit(t[k])
  {
    var neg := t != [] && t[0] == '-';
    var body := if t != [] && (t[0] == '-' || t[0] == '+') then t[1..] else t;
    var ds := DigitPrefix(body);
    if ds == [] then None
    else
      assert ds[0] == t[|t| - |body|];
      Some(if neg then -(DigitsValue(ds) as int) else DigitsValue(ds) as int)
  }

  lemma {:induction false} DigitsValueOfNatToString(n: nat)
    ensures DigitsValue(NatToString(n)) == n
  {
    var s := NatToString(n);
    if n >= 10 {
      assert s[..|s| - 1] == NatToString(n / 10);
      DigitsValueOfNatToString(n / 10);
    }
  }

  lemma DigitPrefixOfDigits(s: string)
    requires forall i :: 0 <= i < |s| ==> IsDigit(s[i])
    ensures DigitPrefix(s) == s
  {
  }

  /** Parsing a printed number gives the number back. */
  lemma NatToStringRoundTrip(n: nat)
    ensures ParseAmount(NatToString(n)) == Some(n)
  {
    var s := NatToString(n);
    assert !IsSpace(s[0]);
    DigitPrefixOfDigits(s);
    DigitsValueOfNatToString(n);
  }
}
