/**
 * The clean-up every identifier validator applies before matching:
 * upper-case, strip surrounding whitespace, delete dashes and spaces.
 *
 * As written, the validators strip BEFORE deleting, so whitespace that only
 * becomes trailing once a dash is deleted survives ("12345678Z\n-" becomes
 * "12345678Z\n"). `NormalizeAsWritten` is that order; `Normalize` deletes
 * first and strips afterwards, which is what the rest of the model uses.
 */
module Normalization {
  import opened Text

  /** What a validator does in the original order of normalisation: it returns a value or raises `ValueError`. */
  datatype Outcome = Returns(value: bool) | RaisesValueError

  /** `s.upper().strip().replace("-", "").replace(" ", "")`, in the order the validators write it. */
  function NormalizeAsWritten(s: string): (r: string)
    ensures '-' !in r && ' ' !in r
  {
    RemoveMembers(Remove(Strip(Upper(s)), '-'), ' ');
    Remove(Remove(Strip(Upper(s)), '-'), ' ')
  }

  /** Upper-case, delete every dash and space, then strip the remaining whitespace. */
  function Normalize(s: string): (r: string)
    ensures Trimmed(r) && '-' !in r && ' ' !in r && NoLower(r)
  {
    var d := Remove(Remove(Upper(s), '-'), ' ');
    NormalFormNoLower(s);
    RemoveMembers(Remove(Upper(s), '-'), ' ');
    StripCharsFrom(d);
    Strip(d)
  }

  lemma NormalFormNoLower(s: string)
    ensures NoLower(Strip(Remove(Remove(Upper(s), '-'), ' ')))
  {
    var u := Upper(s);
    var d := Remove(Remove(u, '-'), ' ');
    var r := Strip(d);
    StripCharsFrom(d);
    RemoveMembers(u, '-');
    RemoveMembers(Remove(u, '-'), ' ');
    forall i | 0 <= i < |r| ensures !IsLower(r[i]) {
      assert r[i] in r;
      var j :| 0 <= j < |u| && u[j] == r[i];
    }
  }

  /** Normalising never lengthens a string; the empty string is normal. */
  lemma NormalizeLength(s: string)
    ensures |Normalize(s)| <= |s|
    ensures s == [] ==> Normalize(s) == []
  {
    var d := Remove(Remove(Upper(s), '-'), ' ');
    assert |TrimEnd(TrimStart(d))| <= |d|;
  }

  /** A string already in normal form is its own normalisation. */
  lemma NormalizeFixed(s: string)
    requires Trimmed(s) && '-' !in s && ' ' !in s && NoLower(s)
    ensures Normalize(s) == s
  {
    UpperOfNoLower(s);
    StripTrimmed(s);
  }

  /** Upper-case letters and digits only. */
  predicate Alnum(s: string)
  {
    forall k :: 0 <= k < |s| ==> IsUpper(s[k]) || IsDigit(s[k])
  }

  /** Upper-case letters and digits have no whitespace, dash or lower-case letter among them. */
  lemma AlnumPlain(s: string)
    requires Alnum(s)
    ensures Trimmed(s) && NoLower(s) && '-' !in s && ' ' !in s && '\n' !in s
  {
    forall k | 0 <= k < |s| ensures !IsSpace(s[k]) && !IsLower(s[k]) && s[k] != '-' {
      assert IsUpper(s[k]) || IsDigit(s[k]);
    }
  }

  /** A string of upper-case letters and digits is already normal. */
  lemma NormalizeAlnum(s: string)
    requires Alnum(s)
    ensures Normalize(s) == s
  {
    AlnumPlain(s);
    NormalizeFixed(s);
  }

  /** Normalising twice is normalising once. */
  lemma NormalizeIdempotent(s: string)
    ensures Normalize(Normalize(s)) == Normalize(s)
  {
    NormalizeFixed(Normalize(s));
  }

  /** The intended normal form is the as-written one with its leftover whitespace stripped. */
  lemma NormalizeStripsAsWritten(s: string)
    ensures Normalize(s) == Strip(NormalizeAsWritten(s))
  {
    StripAfterRemovals(Upper(s));
  }

  lemma StripAfterRemovals(u: string)
    ensures Strip(Remove(Remove(u, '-'), ' ')) == Strip(Remove(Remove(Strip(u), '-'), ' '))
  {
    var a, m, b := StripParts(u);
    RemovalsOfThree(a, m, b);
    SpacesStaySpaces(a);
    SpacesStaySpaces(b);
    StripSurrounded(Remove(Remove(a, '-'), ' '), Remove(Remove(m, '-'), ' '), Remove(Remove(b, '-'), ' '));
  }

  /** A string is its stripped middle with whitespace on either side. */
  lemma StripParts(u: string) returns (a: string, m: string, b: string)
    ensures u == a + m + b && Strip(u) == m && AllSpace(a) && AllSpace(b)
  {
    var i, j := StripSlice(u);
    a, m, b := u[..i], u[i..j], u[j..];
    SliceThree(u, i, j);
  }

  lemma SliceThree(u: string, i: nat, j: nat)
    requires i <= j <= |u|
    ensures u == u[..i] + u[i..j] + u[j..]
  {
    assert u[..i] + u[i..j] == u[..j];
    assert u[..j] + u[j..] == u;
  }

  lemma RemovalsOfThree(a: string, m: string, b: string)
    ensures Remove(Remove(a + m + b, '-'), ' ')
      == Remove(Remove(a, '-'), ' ') + Remove(Remove(m, '-'), ' ') + Remove(Remove(b, '-'), ' ')
  {
    RemoveThree(a, m, b, '-');
    RemoveThree(Remove(a, '-'), Remove(m, '-'), Remove(b, '-'), ' ');
  }

  lemma SpacesStaySpaces(a: string)
    requires AllSpace(a)
    ensures AllSpace(Remove(Remove(a, '-'), ' '))
  {
    RemoveKeepsSpace(a, '-');
    RemoveKeepsSpace(Remove(a, '-'), ' ');
  }

  lemma RemoveThree(a: string, m: string, b: string, c: char)
    ensures Remove(a + m + b, c) == Remove(a, c) + Remove(m, c) + Remove(b, c)
  {
    RemoveAppend(a + m, b, c);
    RemoveAppend(a, m, c);
  }

  /** A dash or a space inserted anywhere does not change the normal form. */
  lemma NormalizeIgnoresSeparator(a: string, b: string, c: char)
    requires c == '-' || c == ' '
    ensures Normalize(a + [c] + b) == Normalize(a + b)
  {
    UpperAround(a, b, c);
    RemovalsIgnoreSeparator(Upper(a), Upper(b), c);
  }

  lemma UpperAround(a: string, b: string, c: char)
    requires c == '-' || c == ' '
    ensures Upper(a + [c] + b) == Upper(a) + [c] + Upper(b) && Upper(a + b) == Upper(a) + Upper(b)
  {
    UpperAppend(a + [c], b);
    UpperAppend(a, [c]);
    UpperAppend(a, b);
  }

  lemma RemovalsIgnoreSeparator(x: string, y: string, c: char)
    requires c == '-' || c == ' '
    ensures Remove(Remove(x + [c] + y, '-'), ' ') == Remove(Remove(x + y, '-'), ' ')
  {
    if c == '-' {
      RemoveExtra(x, y, '-');
    } else {
      var x1, y1 := Remove(x, '-'), Remove(y, '-');
      assert Remove(x + [' '] + y, '-') == x1 + [' '] + y1 by {
        RemoveThree(x, [' '], y, '-');
        RemoveOne(' ', '-');
      }
      assert Remove(x + y, '-') == x1 + y1 by { RemoveAppend(x, y, '-'); }
      RemoveExtra(x1, y1, ' ');
    }
  }

  /** Lower-case input has the same normal form as upper-case input. */
  lemma NormalizeIgnoresCase(s: string)
    ensures Normalize(Lower(s)) == Normalize(s)
  {
    UpperOfLower(s);
  }

  // ---------------------------------------------------------------- the two orders side by side

  /** The as-written clean-up leaves no lower-case letter. */
  lemma AsWrittenNoLower(s: string)
    ensures NoLower(NormalizeAsWritten(s))
  {
    var u := Upper(s);
    UpperNoLower(s);
    StripKeepsNoLower(u);
    RemoveKeepsNoLower(Strip(u), '-');
    RemoveKeepsNoLower(Remove(Strip(u), '-'), ' ');
  }

  lemma UpperNoLower(s: string)
    ensures NoLower(Upper(s))
  {
    var u := Upper(s);
    forall i | 0 <= i < |u| ensures !IsLower(u[i]) {
      assert u[i] == UpperChar(s[i]);
    }
  }

  lemma StripKeepsNoLower(u: string)
    requires NoLower(u)
    ensures NoLower(Strip(u))
  {
    var t := Strip(u);
    StripCharsFrom(u);
    forall i | 0 <= i < |t| ensures !IsLower(t[i]) {
      assert t[i] in t;
      var j :| 0 <= j < |u| && u[j] == t[i];
    }
  }

  lemma RemoveKeepsNoLower(t: string, c: char)
    requires NoLower(t)
    ensures NoLower(Remove(t, c))
  {
    var r := Remove(t, c);
    RemoveMembers(t, c);
    forall i | 0 <= i < |r| ensures !IsLower(r[i]) {
      assert r[i] in r;
      var j :| 0 <= j < |t| && t[j] == r[i];
    }
  }

  /** When the as-written clean-up leaves only letters and digits, the two orders agree. */
  lemma AsWrittenAlnum(s: string)
    requires Alnum(NormalizeAsWritten(s))
    ensures Normalize(s) == NormalizeAsWritten(s)
  {
    var t := NormalizeAsWritten(s);
    AlnumPlain(t);
    StripTrimmed(t);
    NormalizeStripsAsWritten(s);
  }

  /**
   * Cleaning an already cleaned string again, in either order, only strips
   * it: with no dash, space or lower-case letter left, the second pass can
   * only remove surrounding whitespace.
   */
  lemma RenormalizeAsWritten(s: string)
    ensures NormalizeAsWritten(NormalizeAsWritten(s)) == Strip(NormalizeAsWritten(s))
    ensures Normalize(NormalizeAsWritten(s)) == Strip(NormalizeAsWritten(s))
  {
    var d := NormalizeAsWritten(s);
    AsWrittenNoLower(s);
    UpperOfNoLower(d);
    StripCharsFrom(d);
    assert '-' !in Strip(d) && ' ' !in Strip(d);
  }

  /** Letters and digits, a whitespace character other than a space, then a dash. */
  lemma AsWrittenSpaceDash(x: string, w: char)
    requires x != [] && Alnum(x) && !IsLower(w) && w != ' ' && w != '-'
    ensures NormalizeAsWritten(x + [w, '-']) == x + [w]
  {
    var t := x + [w, '-'];
    SpaceDashPlain(x, w);
    UpperStripIdentity(t);
    SpaceDashRemovals(x, w);
    AsWrittenOfPlain(t, x + [w]);
  }

  /** On a stripped string without lower case, the as-written clean-up only deletes. */
  lemma AsWrittenOfPlain(t: string, r: string)
    requires Strip(Upper(t)) == t && Remove(Remove(t, '-'), ' ') == r
    ensures NormalizeAsWritten(t) == r
  {
  }

  /** The intended clean-up of the same string keeps only the letters and digits. */
  lemma NormalizeSpaceDash(x: string, w: char)
    requires x != [] && Alnum(x) && IsSpace(w) && w != ' '
    ensures Normalize(x + [w, '-']) == x
  {
    AsWrittenSpaceDash(x, w);
    NormalizeStripsAsWritten(x + [w, '-']);
    StripSpaceAfter(x, w);
  }

  lemma SpaceDashPlain(x: string, w: char)
    requires x != [] && Alnum(x) && !IsLower(w)
    ensures Trimmed(x + [w, '-']) && NoLower(x + [w, '-'])
  {
    var t := x + [w, '-'];
    AlnumPlain(x);
    assert t[0] == x[0];
    forall k | 0 <= k < |t| ensures !IsLower(t[k]) {
      if k < |x| { assert t[k] == x[k]; }
    }
  }

  lemma SpaceDashRemovals(x: string, w: char)
    requires Alnum(x) && w != ' ' && w != '-'
    ensures Remove(Remove(x + [w, '-'], '-'), ' ') == x + [w]
  {
    AlnumPlain(x);
    assert x + [w, '-'] == (x + [w]) + ['-'];
    RemoveLast(x + [w], '-');
  }

  lemma StripSpaceAfter(x: string, w: char)
    requires Alnum(x) && IsSpace(w)
    ensures Strip(x + [w]) == x
  {
    AlnumPlain(x);
    var e: string := [];
    assert e + x + [w] == x + [w];
    StripSurrounded(e, x, [w]);
    StripTrimmed(x);
  }

  /** A dash, a whitespace character other than a space, then letters and digits. */
  lemma AsWrittenDashSpace(x: string, w: char)
    requires x != [] && Alnum(x) && !IsLower(w) && w != ' ' && w != '-'
    ensures NormalizeAsWritten(['-', w] + x) == [w] + x
  {
    var t := ['-', w] + x;
    DashSpacePlain(x, w);
    UpperStripIdentity(t);
    DashSpaceRemovals(x, w);
    AsWrittenOfPlain(t, [w] + x);
  }

  /** The intended clean-up of the same string keeps only the letters and digits. */
  lemma NormalizeDashSpace(x: string, w: char)
    requires x != [] && Alnum(x) && IsSpace(w) && w != ' '
    ensures Normalize(['-', w] + x) == x
  {
    AsWrittenDashSpace(x, w);
    NormalizeStripsAsWritten(['-', w] + x);
    StripSpaceBefore(x, w);
  }

  lemma DashSpacePlain(x: string, w: char)
    requires x != [] && Alnum(x) && !IsLower(w)
    ensures Trimmed(['-', w] + x) && NoLower(['-', w] + x)
  {
    var t := ['-', w] + x;
    AlnumPlain(x);
    assert t[|t| - 1] == x[|x| - 1];
    forall k | 0 <= k < |t| ensures !IsLower(t[k]) {
      if k >= 2 { assert t[k] == x[k - 2]; }
    }
  }

  lemma DashSpaceRemovals(x: string, w: char)
    requires Alnum(x) && w != ' ' && w != '-'
    ensures Remove(Remove(['-', w] + x, '-'), ' ') == [w] + x
  {
    AlnumPlain(x);
    assert ['-', w] + x == ['-'] + ([w] + x);
    RemoveAppend(['-'], [w] + x, '-');
    RemoveOne('-', '-');
    assert [] + ([w] + x) == [w] + x;
  }

  lemma StripSpaceBefore(x: string, w: char)
    requires Alnum(x) && IsSpace(w)
    ensures Strip([w] + x) == x
  {
    AlnumPlain(x);
    var e: string := [];
    assert [w] + x + e == [w] + x;
    StripSurrounded([w], x, e);
    StripTrimmed(x);
  }

  /** Letters and digits followed by "\n-": the as-written normal form keeps the newline. */
  lemma AsWrittenKeepsNewline(x: string)
    requires x != [] && Alnum(x)
    ensures NormalizeAsWritten(x + "\n-") == x + "\n"
    ensures Normalize(x + "\n-") == x
  {
    assert x + "\n-" == x + ['\n', '-'];
    AsWrittenSpaceDash(x, '\n');
    NormalizeSpaceDash(x, '\n');
  }

  /** The two clean-ups of letters and digits followed by a tab and a dash. */
  lemma AsWrittenTabDash(x: string)
    requires x != [] && Alnum(x)
    ensures NormalizeAsWritten(x + "\t-") == x + "\t"
    ensures Normalize(x + "\t-") == x
  {
    assert x + "\t-" == x + ['\t', '-'];
    AsWrittenSpaceDash(x, '\t');
    NormalizeSpaceDash(x, '\t');
  }

  /** The two clean-ups of a dash and a tab followed by letters and digits. */
  lemma AsWrittenDashTab(x: string)
    requires x != [] && Alnum(x)
    ensures NormalizeAsWritten("-\t" + x) == "\t" + x
    ensures Normalize("-\t" + x) == x
  {
    assert "-\t" + x == ['-', '\t'] + x;
    AsWrittenDashSpace(x, '\t');
    NormalizeDashSpace(x, '\t');
  }

  lemma UpperStripIdentity(t: string)
    requires Trimmed(t) && NoLower(t)
    ensures Strip(Upper(t)) == t
  {
    UpperOfNoLower(t);
    StripTrimmed(t);
  }
}
