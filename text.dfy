/**
 * The pieces of Python's `str` behaviour that the ERP relies on: ASCII case
 * mapping, `strip()` with Python's whitespace set, `replace(c, "")`, `split`
 * and `join`, `int()` of decimal text, `str()` of an integer and the
 * zero-padding format `{n:0Wd}`.
 */
module Text {
  import opened Wrappers

  predicate IsDigit(c: char) { '0' <= c <= '9' }
  predicate IsUpper(c: char) { 'A' <= c <= 'Z' }
  predicate IsLower(c: char) { 'a' <= c <= 'z' }
  predicate IsLetter(c: char) { IsUpper(c) || IsLower(c) }

  /** The characters Python's `str.isspace()` (and so `strip()`) treats as whitespace. */
  predicate IsSpace(c: char)
  {
    c == ' ' || ('\t' <= c <= '\r') || ('\U{1C}' <= c <= '\U{1F}') || c == '\U{85}' || c == '\U{A0}'
    || c == '\U{1680}' || ('\U{2000}' <= c <= '\U{200A}') || c == '\U{2028}' || c == '\U{2029}'
    || c == '\U{202F}' || c == '\U{205F}' || c == '\U{3000}'
  }

  predicate AllDigits(s: string) { forall i :: 0 <= i < |s| ==> IsDigit(s[i]) }
  predicate AllSpace(s: string) { forall i :: 0 <= i < |s| ==> IsSpace(s[i]) }
  predicate NoLower(s: string) { forall i :: 0 <= i < |s| ==> !IsLower(s[i]) }

  /** `s.startswith(p)`. */
  predicate StartsWith(s: string, p: string) { |p| <= |s| && s[..|p|] == p }

  /** `s.startswith(p)` for a one-character `p`, written on the character. */
  predicate Leads(s: string, a: char) { |s| >= 1 && s[0] == a }

  /** `s.startswith(p)` for a two-character `p`, written on the characters. */
  predicate Leads2(s: string, a: char, b: char) { |s| >= 2 && s[0] == a && s[1] == b }

  lemma LeadsIsStartsWith(s: string, a: char)
    ensures Leads(s, a) <==> StartsWith(s, [a])
  {
    if |s| >= 1 {
      assert s[..1] == [s[0]];
    }
  }

  lemma Leads2IsStartsWith(s: string, a: char, b: char)
    ensures Leads2(s, a, b) <==> StartsWith(s, [a, b])
  {
    if |s| >= 2 {
      assert s[..2] == [s[0], s[1]];
    }
  }

  /** `s.isspace()`-free ends: neither the first nor the last character is whitespace. */
  predicate Trimmed(s: string) { s == [] || (!IsSpace(s[0]) && !IsSpace(s[|s| - 1])) }

  // ---------------------------------------------------------------- case

  function UpperChar(c: char): (r: char)
    ensures !IsLower(r)
    ensures IsLower(c) ==> IsUpper(r) && r as int == c as int - 32
    ensures !IsLower(c) ==> r == c
  {
    if IsLower(c) then (c as int - 32) as char else c
  }

  function LowerChar(c: char): (r: char)
    ensures !IsUpper(r)
    ensures IsUpper(c) ==> IsLower(r) && r as int == c as int + 32
    ensures !IsUpper(c) ==> r == c
  {
    if IsUpper(c) then (c as int + 32) as char else c
  }

  /** `s.upper()` on ASCII letters; every other character is kept. */
  function Upper(s: string): (r: string)
    ensures |r| == |s|
    ensures forall i :: 0 <= i < |s| ==> r[i] == UpperChar(s[i])
  {
    if s == [] then [] else [UpperChar(s[0])] + Upper(s[1..])
  }

  /** `s.lower()` on ASCII letters; every other character is kept. */
  function Lower(s: string): (r: string)
    ensures |r| == |s|
    ensures forall i :: 0 <= i < |s| ==> r[i] == LowerChar(s[i])
  {
    if s == [] then [] else [LowerChar(s[0])] + Lower(s[1..])
  }

  lemma UpperOfNoLower(s: string)
    requires NoLower(s)
    ensures Upper(s) == s
  {
  }

  lemma UpperAppend(a: string, b: string)
    ensures Upper(a + b) == Upper(a) + Upper(b)
  {
    assert forall i :: 0 <= i < |a + b| ==> Upper(a + b)[i] == (Upper(a) + Upper(b))[i];
  }

  /** Upper-casing ignores the case the text was written in. */
  lemma UpperOfLower(s: string)
    ensures Upper(Lower(s)) == Upper(s)
  {
    assert forall i :: 0 <= i < |s| ==> Upper(Lower(s))[i] == Upper(s)[i];
  }

  // ---------------------------------------------------------------- strip

  /** `s.lstrip()`: the longest suffix of `s` that does not start with whitespace. */
  function TrimStart(s: string): (r: string)
    ensures |r| <= |s| && r == s[|s| - |r|..]
    ensures AllSpace(s[..|s| - |r|])
    ensures r == [] || !IsSpace(r[0])
    decreases |s|
  {
    if s != [] && IsSpace(s[0]) then
      var t := s[1..];
      var r := TrimStart(t);
      assert s[..|s| - |r|] == [s[0]] + t[..|t| - |r|];
      r
    else s
  }

  /** `s.rstrip()`: the longest prefix of `s` that does not end with whitespace. */
  function TrimEnd(s: string): (r: string)
    ensures |r| <= |s| && r == s[..|r|]
    ensures AllSpace(s[|r|..])
    ensures r == [] || !IsSpace(r[|r| - 1])
    decreases |s|
  {
    if s != [] && IsSpace(s[|s| - 1]) then
      var p := s[..|s| - 1];
      var r := TrimEnd(p);
      assert s[|r|..] == p[|r|..] + [s[|s| - 1]];
      r
    else s
  }

  /** `s.strip()`. */
  function Strip(s: string): (r: string)
    ensures Trimmed(r)
  {
    TrimEnd(TrimStart(s))
  }

  /** `strip()` keeps a slice of its input and drops only whitespace around it. */
  lemma StripSlice(s: string) returns (i: nat, j: nat)
    ensures i <= j <= |s| && Strip(s) == s[i..j] && AllSpace(s[..i]) && AllSpace(s[j..])
  {
    var t := TrimStart(s);
    var r := TrimEnd(t);
    i, j := |s| - |t|, |s| - |t| + |r|;
    assert s[j..] == t[|r|..];
  }

  lemma StripTrimmed(s: string)
    requires Trimmed(s)
    ensures Strip(s) == s
  {
  }

  lemma StripCharsFrom(s: string)
    ensures forall x :: x in Strip(s) ==> x in s
  {
    var i, j := StripSlice(s);
    forall x | x in Strip(s) ensures x in s {
      var k :| 0 <= k < |Strip(s)| && Strip(s)[k] == x;
      assert s[i + k] == x;
    }
  }

  lemma {:induction false} TrimStartSpacePrefix(a: string, m: string)
    requires AllSpace(a)
    ensures TrimStart(a + m) == TrimStart(m)
    decreases |a|
  {
    if a != [] {
      assert (a + m)[1..] == a[1..] + m;
      TrimStartSpacePrefix(a[1..], m);
    } else {
      assert a + m == m;
    }
  }

  lemma {:induction false} TrimEndSpaceSuffix(m: string, b: string)
    requires AllSpace(b)
    ensures TrimEnd(m + b) == TrimEnd(m)
    decreases |b|
  {
    if b != [] {
      assert (m + b)[..|m + b| - 1] == m + b[..|b| - 1];
      TrimEndSpaceSuffix(m, b[..|b| - 1]);
    } else {
      assert m + b == m;
    }
  }

  /** A suffix of whitespace does not survive `lstrip` once a non-space has been met. */
  lemma {:induction false} TrimStartAppend(m: string, b: string)
    requires exists k :: 0 <= k < |m| && !IsSpace(m[k])
    ensures TrimStart(m + b) == TrimStart(m) + b
    decreases |m|
  {
    if IsSpace(m[0]) {
      var k :| 0 <= k < |m| && !IsSpace(m[k]);
      assert k > 0 && !IsSpace(m[1..][k - 1]);
      assert (m + b)[1..] == m[1..] + b;
      TrimStartAppend(m[1..], b);
    }
  }

  lemma TrimStartAllSpace(m: string)
    requires AllSpace(m)
    ensures TrimStart(m) == []
  {
  }

  /** Whitespace on either side of `m` never changes its `strip()`. */
  lemma StripSurrounded(a: string, m: string, b: string)
    requires AllSpace(a) && AllSpace(b)
    ensures Strip(a + m + b) == Strip(m)
  {
    assert a + m + b == a + (m + b);
    TrimStartSpacePrefix(a, m + b);
    if k :| 0 <= k < |m| && !IsSpace(m[k]) {
      TrimStartAppend(m, b);
      TrimEndSpaceSuffix(TrimStart(m), b);
    } else {
      assert AllSpace(m + b);
      TrimStartAllSpace(m + b);
      TrimStartAllSpace(m);
    }
  }

  /** `not s or not s.strip()`: empty or whitespace only. */
  predicate Blank(s: string) { AllSpace(s) }

  /** `strip()` leaves nothing exactly when every character is whitespace. */
  lemma StripEmptyIffBlank(s: string)
    ensures Strip(s) == [] <==> Blank(s)
  {
    var i, j := StripSlice(s);
    if Strip(s) == [] {
      assert i == j;
      forall k | 0 <= k < |s| ensures IsSpace(s[k]) {
        if k < i { assert s[..i][k] == s[k]; } else { assert s[j..][k - j] == s[k]; }
      }
    } else if AllSpace(s) {
      TrimStartAllSpace(s);
    }
  }

  /** A string whose first character is not whitespace is not blank. */
  lemma NotBlankLeading(s: string)
    requires |s| > 0 && !IsSpace(s[0])
    ensures !Blank(s)
  {
    StripEmptyIffBlank(s);
  }

  lemma StripNewline(x: string)
    requires Trimmed(x)
    ensures Strip(x + "\n") == x
  {
    var e: string := [];
    assert e + x + "\n" == x + "\n";
    StripSurrounded(e, x, "\n");
    StripTrimmed(x);
  }

  // ---------------------------------------------------------------- replace(c, "")

  /** `s.replace(c, "")` for a one-character `c`: every occurrence of `c` deleted, order kept. */
  function Remove(s: string, c: char): (r: string)
    ensures c !in r
    ensures |r| <= |s|
    ensures c !in s ==> r == s
  {
    if s == [] then [] else (if s[0] == c then [] else [s[0]]) + Remove(s[1..], c)
  }

  /** What survives a deletion: exactly the other characters. */
  lemma {:induction false} RemoveMembers(s: string, c: char)
    ensures forall x :: x in Remove(s, c) <==> x in s && x != c
  {
    if s != [] {
      RemoveMembers(s[1..], c);
      assert s == [s[0]] + s[1..];
    }
  }

  lemma {:induction false} RemoveAppend(a: string, b: string, c: char)
    ensures Remove(a + b, c) == Remove(a, c) + Remove(b, c)
  {
    if a == [] {
      assert a + b == b;
    } else {
      RemoveHead(a, b, c);
      RemoveAppend(a[1..], b, c);
      AppendAssoc(if a[0] == c then [] else [a[0]], Remove(a[1..], c), Remove(b, c));
    }
  }

  /** Deleting from a non-empty string handles its first character, then the rest. */
  lemma RemoveHead(a: string, b: string, c: char)
    requires a != []
    ensures Remove(a + b, c) == (if a[0] == c then [] else [a[0]]) + Remove(a[1..] + b, c)
    ensures Remove(a, c) == (if a[0] == c then [] else [a[0]]) + Remove(a[1..], c)
  {
    assert (a + b)[1..] == a[1..] + b;
  }

  lemma AppendAssoc(h: string, x: string, y: string)
    ensures h + (x + y) == (h + x) + y
  {
  }

  lemma RemoveOne(c: char, d: char)
    ensures Remove([c], d) == if c == d then [] else [c]
  {
    assert [c][1..] == [];
  }

  lemma RemoveLast(t: string, c: char)
    requires c !in t
    ensures Remove(t + [c], c) == t
  {
    RemoveAppend(t, [c], c);
    RemoveOne(c, c);
  }

  /** One more occurrence of the deleted character makes no difference. */
  lemma RemoveExtra(x: string, y: string, c: char)
    ensures Remove(x + [c] + y, c) == Remove(x + y, c)
  {
    RemoveAppend(x + [c], y, c);
    RemoveAppend(x, [c], c);
    RemoveAppend(x, y, c);
    RemoveOne(c, c);
  }

  /** Deleting two characters gives the same string in either order. */
  lemma {:induction false} RemoveCommute(s: string, a: char, b: char)
    ensures Remove(Remove(s, a), b) == Remove(Remove(s, b), a)
  {
    if s != [] {
      RemoveCommute(s[1..], a, b);
      var h := if s[0] == a then [] else [s[0]];
      var k := if s[0] == b then [] else [s[0]];
      assert Remove(s, a) == h + Remove(s[1..], a);
      assert Remove(s, b) == k + Remove(s[1..], b);
      RemoveAppend(h, Remove(s[1..], a), b);
      RemoveAppend(k, Remove(s[1..], b), a);
    }
  }

  lemma RemoveKeepsSpace(s: string, c: char)
    requires AllSpace(s)
    ensures AllSpace(Remove(s, c))
  {
    var r := Remove(s, c);
    RemoveMembers(s, c);
    forall i | 0 <= i < |r| ensures IsSpace(r[i]) {
      assert r[i] in r;
      var j :| 0 <= j < |s| && s[j] == r[i];
    }
  }

  // ---------------------------------------------------------------- decimal digits

  function DigitValue(c: char): (d: nat)
    requires IsDigit(c)
    ensures d < 10
  {
    c as int - '0' as int
  }

  function DigitChar(d: nat): (c: char)
    requires d < 10
    ensures IsDigit(c) && DigitValue(c) == d
  {
    ('0' as int + d) as char
  }

  function Pow10(k: nat): (p: nat)
    ensures p >= 1
  {
    if k == 0 then 1 else 10 * Pow10(k - 1)
  }

  /** The value of a string of decimal digits, as Python's `int()` reads it. */
  function NatOf(s: string): (n: nat)
    requires AllDigits(s)
    ensures n < Pow10(|s|)
  {
    if s == [] then 0 else NatOf(s[..|s| - 1]) * 10 + DigitValue(s[|s| - 1])
  }

  lemma {:induction false} NatOfAppend(a: string, b: string)
    requires AllDigits(a) && AllDigits(b)
    ensures AllDigits(a + b) && NatOf(a + b) == NatOf(a) * Pow10(|b|) + NatOf(b)
    decreases |b|
  {
    AllDigitsAppend(a, b);
    if b == [] {
      assert a + b == a;
    } else {
      var b' := b[..|b| - 1];
      assert (a + b)[..|a + b| - 1] == a + b';
      NatOfAppend(a, b');
      assert b[..|b| - 1] == b';
      ShiftDigit(NatOf(a), Pow10(|b'|), NatOf(b'), DigitValue(b[|b| - 1]));
    }
  }

  lemma AllDigitsAppend(a: string, b: string)
    requires AllDigits(a) && AllDigits(b)
    ensures AllDigits(a + b)
  {
    forall i | 0 <= i < |a + b| ensures IsDigit((a + b)[i]) {
      if i < |a| { assert (a + b)[i] == a[i]; } else { assert (a + b)[i] == b[i - |a|]; }
    }
  }

  lemma ShiftDigit(x: int, p: int, y: int, d: int)
    ensures (x * p + y) * 10 + d == x * (10 * p) + (y * 10 + d)
  {
  }

  function Repeat(c: char, k: nat): (r: string)
    ensures |r| == k && forall i :: 0 <= i < k ==> r[i] == c
  {
    if k == 0 then [] else [c] + Repeat(c, k - 1)
  }

  lemma {:induction false} NatOfZeros(k: nat)
    ensures AllDigits(Repeat('0', k)) && NatOf(Repeat('0', k)) == 0
  {
    if k > 0 {
      var z := Repeat('0', k);
      assert z[..k - 1] == Repeat('0', k - 1);
      NatOfZeros(k - 1);
    }
  }

  /** `str(n)` for a natural number: decimal digits without leading zeros. */
  function NatToString(n: nat): (s: string)
    ensures |s| >= 1 && AllDigits(s) && NatOf(s) == n
    ensures s[0] == '0' ==> n == 0 && |s| == 1
    ensures n < 10 ==> |s| == 1
    ensures 10 <= n < 100 ==> |s| == 2
  {
    if n < 10 then [DigitChar(n)]
    else
      var s := NatToString(n / 10) + [DigitChar(n % 10)];
      assert s[..|s| - 1] == NatToString(n / 10);
      s
  }

  /** `str(n)` for any integer. */
  function IntToString(n: int): (s: string)
  {
    if n >= 0 then NatToString(n) else "-" + NatToString(-n)
  }

  /** Left-pad `s` with '0' to length `w`. */
  function ZeroFill(s: string, w: nat): (r: string)
    ensures |r| == if |s| < w then w else |s|
    ensures r == Repeat('0', |r| - |s|) + s
  {
    if |s| < w then Repeat('0', w - |s|) + s else Repeat('0', 0) + s
  }

  /** Python's `f"{n:0{w}d}"`: zero padding after the sign, to a total width of at least `w`. */
  function PadInt(n: int, w: nat): (r: string)
    ensures |r| >= w
    ensures n >= 0 ==> r == ZeroFill(NatToString(n), w)
    ensures n < 0 ==> r == "-" + ZeroFill(NatToString(-n), if w > 0 then w - 1 else 0)
  {
    if n >= 0 then ZeroFill(NatToString(n), w)
    else "-" + ZeroFill(NatToString(-n), if w > 0 then w - 1 else 0)
  }

  // ---------------------------------------------------------------- int()

  /**
   * The digit part accepted by Python's `int()` in base 10: digits, with
   * single underscores allowed between two digits.
   */
  predicate IsIntBody(s: string)
  {
    |s| > 0 && IsDigit(s[0]) && IsDigit(s[|s| - 1])
    && (forall i :: 0 <= i < |s| ==> IsDigit(s[i]) || s[i] == '_')
    && (forall i :: 0 <= i < |s| - 1 ==> NotDoubleUnderscoreAt(s, i))
  }

  predicate NotDoubleUnderscoreAt(s: string, i: nat)
    requires i + 1 < |s|
  {
    s[i] != '_' || s[i + 1] != '_'
  }

  lemma BodyDigits(s: string)
    requires IsIntBody(s)
    ensures AllDigits(Remove(s, '_'))
  {
    var r := Remove(s, '_');
    RemoveMembers(s, '_');
    forall i | 0 <= i < |r| ensures IsDigit(r[i]) {
      assert r[i] in r;
      var j :| 0 <= j < |s| && s[j] == r[i];
    }
  }

  function BodyValue(s: string): (n: nat)
    requires IsIntBody(s)
  {
    BodyDigits(s);
    NatOf(Remove(s, '_'))
  }

  /** The unsigned part of `int()`: `None` where Python raises `ValueError`. */
  function ParseNat(body: string): (r: Option<int>)
    ensures r.Some? ==> r.value >= 0
  {
    if IsIntBody(body) then Some(BodyValue(body)) else None
  }

  function Signed(negative: bool, r: Option<int>): Option<int>
  {
    if negative && r.Some? then Some(-r.value) else r
  }

  /** `int()` after `strip()`: an optional sign, then the digit part. */
  function ParseSigned(t: string): Option<int>
  {
    var signed := |t| > 0 && (t[0] == '-' || t[0] == '+');
    Signed(signed && t[0] == '-', ParseNat(if signed then t[1..] else t))
  }

  /** Python's `int(s)` for decimal text: `None` where Python raises `ValueError`. */
  function ParseInt(s: string): Option<int>
  {
    ParseSigned(Strip(s))
  }

  /** Zero padding does not change the value of a digit string. */
  lemma ZeroFillValue(d: string, w: nat)
    requires AllDigits(d)
    ensures AllDigits(ZeroFill(d, w)) && NatOf(ZeroFill(d, w)) == NatOf(d)
  {
    var r := ZeroFill(d, w);
    var z := Repeat('0', |r| - |d|);
    assert r == z + d;
    NatOfZeros(|z|);
    NatOfAppend(z, d);
    assert NatOf(z) * Pow10(|d|) == 0;
  }

  lemma NoUnderscore(t: string)
    requires |t| > 0 && AllDigits(t)
    ensures IsIntBody(t) && BodyValue(t) == NatOf(t)
  {
    forall k | 0 <= k < |t| ensures t[k] != '_' { assert IsDigit(t[k]); }
    assert Remove(t, '_') == t;
  }


  lemma ParseDigits(t: string)
    requires |t| > 0 && AllDigits(t)
    ensures ParseInt(t) == Some(NatOf(t))
  {
    DigitsTrimmed(t);
    DigitsParseSigned(t);
  }

  lemma DigitsTrimmed(t: string)
    requires |t| > 0 && AllDigits(t)
    ensures Strip(t) == t
  {
    assert IsDigit(t[0]) && IsDigit(t[|t| - 1]);
    StripTrimmed(t);
  }

  lemma DigitsParseSigned(t: string)
    requires |t| > 0 && AllDigits(t)
    ensures ParseSigned(t) == Some(NatOf(t))
  {
    assert IsDigit(t[0]);
    DigitsParseNat(t);
  }

  lemma ParseSignedNegative(p: string, v: int)
    requires |p| > 0 && p[0] == '-' && ParseNat(p[1..]) == Some(v)
    ensures ParseSigned(p) == Some(-v)
  {
  }

  lemma NegTrimmed(t: string)
    requires |t| > 0 && AllDigits(t)
    ensures Strip("-" + t) == "-" + t
  {
    var p := "-" + t;
    assert p[|p| - 1] == t[|t| - 1];
    StripTrimmed(p);
  }

  lemma DigitsParseNat(t: string)
    requires |t| > 0 && AllDigits(t)
    ensures ParseNat(t) == Some(NatOf(t))
  {
    NoUnderscore(t);
  }

  lemma NegParseSigned(t: string)
    requires |t| > 0 && AllDigits(t)
    ensures ParseSigned("-" + t) == Some(-(NatOf(t) as int))
  {
    DigitsParseNat(t);
    var p := "-" + t;
    assert p[1..] == t;
    ParseSignedNegative(p, NatOf(t));
  }

  lemma ParseNegDigits(t: string)
    requires |t| > 0 && AllDigits(t)
    ensures ParseInt("-" + t) == Some(-(NatOf(t) as int))
  {
    NegTrimmed(t);
    NegParseSigned(t);
  }

  lemma ParsePadNonNegative(n: nat, w: nat)
    ensures ParseInt(PadInt(n, w)) == Some(n)
  {
    ZeroFillValue(NatToString(n), w);
    ParseDigits(ZeroFill(NatToString(n), w));
  }

  lemma ParsePadNegative(n: int, w: nat)
    requires n < 0
    ensures ParseInt(PadInt(n, w)) == Some(n)
  {
    var w' := if w > 0 then w - 1 else 0;
    ZeroFillValue(NatToString(-n), w');
    ParseNegDigits(ZeroFill(NatToString(-n), w'));
  }

  /** Reading back a number written by `PadInt` gives the number. */
  lemma ParsePadInt(n: int, w: nat)
    ensures ParseInt(PadInt(n, w)) == Some(n)
  {
    if n >= 0 { ParsePadNonNegative(n, w); } else { ParsePadNegative(n, w); }
  }

  /** `f"{n:02d}"` for a number below 100. */
  function TwoDigits(n: nat): (r: string)
    requires n < 100
    ensures |r| == 2 && AllDigits(r) && NatOf(r) == n
  {
    ZeroFillValue(NatToString(n), 2);
    PadInt(n, 2)
  }

  lemma DigitsSlice(s: string, i: nat, j: nat)
    requires AllDigits(s) && i <= j <= |s|
    ensures AllDigits(s[i..j])
  {
    forall k | 0 <= k < j - i ensures IsDigit(s[i..j][k]) {
      assert s[i..j][k] == s[i + k];
    }
  }

  // ---------------------------------------------------------------- split / join

  /** `sep.join(parts)` for a one-character separator. */
  function Join(parts: seq<string>, sep: string): (s: string)
  {
    if |parts| == 0 then "" else if |parts| == 1 then parts[0] else parts[0] + sep + Join(parts[1..], sep)
  }

  /** `"".join(parts)`. */
  function Concat(parts: seq<string>): string
  {
    if parts == [] then "" else parts[0] + Concat(parts[1..])
  }

  function IndexOf(s: string, c: char): (i: nat)
    requires c in s
    ensures i < |s| && s[i] == c && c !in s[..i]
  {
    if s[0] == c then 0 else 1 + IndexOf(s[1..], c)
  }

  /** `s.split(sep)` for a one-character separator. */
  function Split(s: string, sep: char): (parts: seq<string>)
    ensures |parts| >= 1
    decreases |s|
  {
    if sep !in s then [s]
    else
      var i := IndexOf(s, sep);
      [s[..i]] + Split(s[i + 1..], sep)
  }

  /** No piece of a split holds the separator. */
  lemma {:induction false} SplitPieceNoSep(s: string, sep: char, k: nat)
    requires k < |Split(s, sep)|
    ensures sep !in Split(s, sep)[k]
    decreases |s|
  {
    if sep in s {
      var i := IndexOf(s, sep);
      assert Split(s, sep) == [s[..i]] + Split(s[i + 1..], sep);
      if k > 0 {
        SplitPieceNoSep(s[i + 1..], sep, k - 1);
      }
    }
  }

  /** Joining the pieces of a split with the separator gives back the string. */
  lemma {:induction false} SplitJoin(s: string, sep: char)
    ensures Join(Split(s, sep), [sep]) == s
    decreases |s|
  {
    if sep in s {
      var i := IndexOf(s, sep);
      var ps := Split(s[i + 1..], sep);
      var parts := [s[..i]] + ps;
      assert Split(s, sep) == parts;
      assert |parts| > 1 && parts[0] == s[..i] && parts[1..] == ps;
      assert Join(parts, [sep]) == s[..i] + [sep] + Join(ps, [sep]);
      SplitJoin(s[i + 1..], sep);
      assert s == s[..i] + [sep] + s[i + 1..];
    }
  }

  /** The first piece is everything before the first separator. */
  lemma SplitFirst(a: string, rest: string, sep: char)
    requires sep !in a
    ensures Split(a + [sep] + rest, sep) == [a] + Split(rest, sep)
  {
    var s := a + [sep] + rest;
    assert s[|a|] == sep;
    var i := IndexOf(s, sep);
    assert s[..|a|] == a;
    assert i == |a|;
    assert s[..i] == a && s[i + 1..] == rest;
  }

  /** Splitting a string with exactly two separators gives its three pieces. */
  lemma SplitThree(a: string, b: string, c: string, sep: char)
    requires sep !in a && sep !in b && sep !in c
    ensures Split(a + [sep] + b + [sep] + c, sep) == [a, b, c]
  {
    SplitTwo(b, c, sep);
    SplitFirst(a, b + [sep] + c, sep);
    JoinedThree(a, b, c, sep);
  }

  lemma SplitTwo(b: string, c: string, sep: char)
    requires sep !in b && sep !in c
    ensures Split(b + [sep] + c, sep) == [b, c]
  {
    SplitFirst(b, c, sep);
    assert Split(c, sep) == [c];
  }

  lemma JoinedThree(a: string, b: string, c: string, sep: char)
    ensures a + [sep] + b + [sep] + c == a + [sep] + (b + [sep] + c)
  {
  }

  // ---------------------------------------------------------------- ordering

  /** Code-point lexicographic order, the order in which `max()` picks the greatest string. */
  predicate LexLe(a: string, b: string)
  {
    if a == [] then true
    else if b == [] then false
    else if a[0] != b[0] then a[0] < b[0]
    else LexLe(a[1..], b[1..])
  }

  lemma {:induction false} LexLeTotal(a: string, b: string)
    ensures LexLe(a, b) || LexLe(b, a)
  {
    if a != [] && b != [] && a[0] == b[0] {
      LexLeTotal(a[1..], b[1..]);
    }
  }

  lemma {:induction false} LexLeReflexive(a: string)
    ensures LexLe(a, a)
  {
    if a != [] {
      LexLeReflexive(a[1..]);
    }
  }

  /** A shared prefix does not change the order. */
  lemma {:induction false} LexLeSharedPrefix(p: string, a: string, b: string)
    ensures LexLe(p + a, p + b) == LexLe(a, b)
  {
    if p != [] {
      assert (p + a)[1..] == p[1..] + a;
      assert (p + b)[1..] == p[1..] + b;
      LexLeSharedPrefix(p[1..], a, b);
    } else {
      assert p + a == a && p + b == b;
    }
  }

  lemma {:induction false} LexLeTransitive(a: string, b: string, c: string)
    requires LexLe(a, b) && LexLe(b, c)
    ensures LexLe(a, c)
  {
    if a != [] && b != [] && c != [] && a[0] == b[0] && b[0] == c[0] {
      LexLeTransitive(a[1..], b[1..], c[1..]);
    }
  }

  /** `int()` of text without a minus sign is never negative. */
  lemma ParseIntNoMinus(t: string)
    requires '-' !in t
    ensures ParseInt(t).Some? ==> ParseInt(t).value >= 0
  {
    var u := Strip(t);
    assert u == [] || u[0] != '-' by {
      var i, j := StripSlice(t);
      if |u| > 0 {
        assert u[0] == t[i];
      }
    }
    ParseSignedNoMinus(u);
  }

  lemma ParseSignedNoMinus(u: string)
    requires u == [] || u[0] != '-'
    ensures ParseSigned(u).Some? ==> ParseSigned(u).value >= 0
  {
  }
}
