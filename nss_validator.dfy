/**
 * Spanish Social Security numbers (número de Seguretat Social): twelve
 * digits, two for the province, eight for the number and two control digits
 * equal to the first ten read as a number modulo 97.
 *
 * As written, the clean-up strips surrounding whitespace BEFORE deleting
 * spaces, dashes and slashes, and the pattern `^\d{12}$` also matches twelve
 * digits followed by one newline. So "…\n/" is accepted with a thirteen
 * character clean form and is not formatted. `CleanAsWritten`,
 * `ValidateNssAsWritten` and `FormatNssAsWritten` are that code; `Clean`,
 * `ValidateNss` and `FormatNss` delete first and strip afterwards.
 */
module NssValidator {
  import opened Text
  import Normalization

  /** `nss.strip().replace(" ", "").replace("-", "").replace("/", "")`, in the source's order. */
  function CleanAsWritten(s: string): (r: string)
    ensures ' ' !in r && '-' !in r && '/' !in r
    ensures |r| <= |s|
  {
    RemoveMembers(Strip(s), ' ');
    RemoveMembers(Remove(Strip(s), ' '), '-');
    RemoveMembers(Remove(Remove(Strip(s), ' '), '-'), '/');
    Remove(Remove(Remove(Strip(s), ' '), '-'), '/')
  }

  /** Deleting before or after stripping leaves the same thing once the result is stripped as well. */
  lemma CleanStripsAsWritten(s: string)
    ensures Clean(s) == Strip(CleanAsWritten(s))
  {
    var a, m, b := Normalization.StripParts(s);
    Normalization.RemoveThree(a, m, b, ' ');
    Normalization.RemoveThree(Remove(a, ' '), Remove(m, ' '), Remove(b, ' '), '-');
    Normalization.RemoveThree(Remove(Remove(a, ' '), '-'), Remove(Remove(m, ' '), '-'), Remove(Remove(b, ' '), '-'), '/');
    RemoveKeepsSpace(a, ' ');
    RemoveKeepsSpace(Remove(a, ' '), '-');
    RemoveKeepsSpace(Remove(Remove(a, ' '), '-'), '/');
    RemoveKeepsSpace(b, ' ');
    RemoveKeepsSpace(Remove(b, ' '), '-');
    RemoveKeepsSpace(Remove(Remove(b, ' '), '-'), '/');
    StripSurrounded(Remove(Remove(Remove(a, ' '), '-'), '/'), Remove(Remove(Remove(m, ' '), '-'), '/'),
                    Remove(Remove(Remove(b, ' '), '-'), '/'));
  }

  /** Space, dash and slash deleted, surrounding whitespace stripped afterwards. */
  function Clean(s: string): (r: string)
    ensures Trimmed(r) && ' ' !in r && '-' !in r && '/' !in r
  {
    var d := Remove(Remove(Remove(s, ' '), '-'), '/');
    RemoveMembers(Remove(s, ' '), '-');
    RemoveMembers(Remove(Remove(s, ' '), '-'), '/');
    StripCharsFrom(d);
    Strip(d)
  }

  /** A string without the deleted characters and without surrounding whitespace is clean. */
  lemma CleanFixed(s: string)
    requires Trimmed(s) && ' ' !in s && '-' !in s && '/' !in s
    ensures Clean(s) == s
  {
    StripTrimmed(s);
  }

  lemma CleanIdempotent(s: string)
    ensures Clean(Clean(s)) == Clean(s)
  {
    CleanFixed(Clean(s));
  }

  /** Digits carry nothing the clean-up deletes. */
  lemma DigitsPlain(s: string)
    requires AllDigits(s)
    ensures Trimmed(s) && ' ' !in s && '-' !in s && '/' !in s && '\n' !in s
  {
    forall k | 0 <= k < |s| ensures s[k] != ' ' && s[k] != '-' && s[k] != '/' && !IsSpace(s[k]) {
      assert IsDigit(s[k]);
    }
  }

  lemma CleanDigits(s: string)
    requires AllDigits(s)
    ensures Clean(s) == s
  {
    DigitsPlain(s);
    CleanFixed(s);
  }

  /** Exactly twelve decimal digits. */
  predicate NssShape(s: string) { |s| == 12 && AllDigits(s) }

  /** The province is not zero and the last two digits are the first ten modulo 97. */
  predicate ControlHolds(t: string)
    requires NssShape(t)
  {
    DigitsSlice(t, 0, 2);
    DigitsSlice(t, 0, 10);
    DigitsSlice(t, 10, 12);
    var province := NatOf(t[..2]);
    province != 0 && province <= 99 && NatOf(t[10..12]) == NatOf(t[..10]) % 97
  }

  /** `validate_nss`, with the clean-up in the intended order. */
  function ValidateNss(nss: string): (ok: bool)
    ensures ok ==> nss != [] && NssShape(Clean(nss))
  {
    if nss == [] then false
    else
      var s := Clean(nss);
      NssShape(s) && ControlHolds(s)
  }

  /**
   * Twelve digits are a valid number exactly when the province is not "00"
   * and the last two digits are the first ten modulo 97.
   */
  lemma NssControl(d: string, c: string)
    requires |d| == 10 && AllDigits(d) && |c| == 2 && AllDigits(c)
    ensures AllDigits(d[..2])
    ensures ValidateNss(d + c) <==> NatOf(d[..2]) != 0 && NatOf(c) == NatOf(d) % 97
  {
    DigitsSlice(d, 0, 2);
    NatOfAppend(d, c);
    CleanDigits(d + c);
    ControlOfParts(d, c);
  }

  /** The control condition on twelve digits, read off the ten-digit prefix and the two control digits. */
  lemma ControlOfParts(d: string, c: string)
    requires |d| == 10 && AllDigits(d) && |c| == 2 && AllDigits(c)
    requires AllDigits(d + c) && AllDigits(d[..2])
    ensures ControlHolds(d + c) <==> NatOf(d[..2]) != 0 && NatOf(c) == NatOf(d) % 97
  {
    SlicesOfTwelve(d, c);
    assert NatOf(d[..2]) < Pow10(2) == 100;
  }

  lemma SlicesOfTwelve(d: string, c: string)
    requires |d| == 10 && |c| == 2
    ensures (d + c)[..2] == d[..2] && (d + c)[..10] == d && (d + c)[10..12] == c
  {
  }

  /** The control digits of a ten-digit prefix. */
  function NssControlDigits(d: string): (c: string)
    requires |d| == 10 && AllDigits(d)
    ensures |c| == 2 && AllDigits(c)
  {
    TwoDigits(NatOf(d) % 97)
  }

  /** Appending the computed control digits makes any prefix with a non-zero province valid. */
  lemma NssControlDigitsValid(d: string)
    requires |d| == 10 && AllDigits(d)
    ensures AllDigits(d[..2])
    ensures ValidateNss(d + NssControlDigits(d)) <==> NatOf(d[..2]) != 0
  {
    NssControl(d, NssControlDigits(d));
  }

  /** The computed control digits are the only ones that validate. */
  lemma NssControlUnique(d: string, c: string)
    requires |d| == 10 && AllDigits(d) && |c| == 2 && AllDigits(c)
    requires ValidateNss(d + c)
    ensures c == NssControlDigits(d)
  {
    NssControl(d, c);
    NatOfInjective(c, NssControlDigits(d));
  }

  /** Equal-length digit strings with the same value are equal. */
  lemma {:induction false} NatOfInjective(a: string, b: string)
    requires AllDigits(a) && AllDigits(b) && |a| == |b| && NatOf(a) == NatOf(b)
    ensures a == b
  {
    if a != [] {
      var n := |a| - 1;
      var x, y := a[..n], b[..n];
      assert NatOf(a) == NatOf(x) * 10 + DigitValue(a[n]);
      assert NatOf(b) == NatOf(y) * 10 + DigitValue(b[n]);
      assert DigitValue(a[n]) == DigitValue(b[n]) && NatOf(x) == NatOf(y) by {
        SplitTen(NatOf(x), DigitValue(a[n]), NatOf(y), DigitValue(b[n]));
      }
      NatOfInjective(x, y);
      assert a == x + [a[n]] && b == y + [b[n]];
    }
  }

  lemma SplitTen(p: int, i: int, q: int, j: int)
    requires 0 <= i < 10 && 0 <= j < 10 && p * 10 + i == q * 10 + j
    ensures i == j && p == q
  {
  }

  /** Province "00" is never valid, whatever the other digits are. */
  lemma ProvinceZeroRejected(nss: string)
    requires |Clean(nss)| >= 2 && Clean(nss)[..2] == "00"
    ensures !ValidateNss(nss)
  {
    var s := Clean(nss);
    if NssShape(s) {
      assert NatOf(s[..2]) == 0;
    }
  }

  /** `format_nss`: "PP/NNNNNNNN/CC" for twelve characters, the cleaned input otherwise. */
  function FormatNss(nss: string): (r: string)
    ensures nss == [] ==> r == []
    ensures nss != [] && |Clean(nss)| != 12 ==> r == Clean(nss)
    ensures nss != [] && |Clean(nss)| == 12 ==> |r| == 14 && r[2] == '/' && r[11] == '/'
  {
    if nss == [] then ""
    else
      var s := Clean(nss);
      if |s| != 12 then s else Slashed(s)
  }

  /** "PP/NNNNNNNN/CC" for twelve characters. */
  function Slashed(s: string): (r: string)
    requires |s| == 12
    ensures |r| == 14 && r[2] == '/' && r[11] == '/'
  {
    s[..2] + "/" + s[2..10] + "/" + s[10..12]
  }

  lemma SliceMembers(s: string, i: nat, j: nat)
    requires i <= j <= |s|
    ensures forall x :: x in s[i..j] ==> x in s
  {
    forall x | x in s[i..j] ensures x in s {
      var k :| 0 <= k < j - i && s[i..j][k] == x;
      assert s[i + k] == x;
    }
  }

  lemma SliceLacks(s: string, i: nat, j: nat, c: char)
    requires i <= j <= |s| && c !in s
    ensures c !in s[i..j]
  {
    SliceMembers(s, i, j);
  }

  /** The slashes are the only characters formatting adds. */
  lemma SlashedMembers(s: string)
    requires |s| == 12
    ensures forall x :: x in Slashed(s) ==> x == '/' || x in s
  {
    SliceMembers(s, 0, 2);
    SliceMembers(s, 2, 10);
    SliceMembers(s, 10, 12);
  }

  lemma RemoveSlashBetween(a: string, b: string)
    requires '/' !in a && '/' !in b
    ensures Remove(a + "/" + b, '/') == a + b
  {
    RemoveAppend(a + "/", b, '/');
    RemoveLast(a, '/');
  }

  lemma UnslashThree(a: string, b: string, c: string)
    requires '/' !in a && '/' !in b && '/' !in c
    ensures Remove(a + "/" + b + "/" + c, '/') == a + b + c
  {
    var ab := a + "/" + b;
    RemoveSlashBetween(a, b);
    RemoveExtra(ab, c, '/');
    RemoveAppend(ab, c, '/');
    assert ab + "/" + c == ab + ['/'] + c;
  }

  /** Deleting the slashes of a twelve-character string's format gives it back. */
  lemma UnslashSlashed(s: string)
    requires |s| == 12 && '/' !in s
    ensures Remove(Slashed(s), '/') == s
  {
    var a, b, c := s[..2], s[2..10], s[10..12];
    SliceLacks(s, 0, 2, '/');
    SliceLacks(s, 2, 10, '/');
    SliceLacks(s, 10, 12, '/');
    UnslashThree(a, b, c);
    assert a + b + c == s;
  }

  /** Formatting a clean number and cleaning it again gives the number back. */
  lemma CleanSlashed(s: string)
    requires |s| == 12 && Trimmed(s) && ' ' !in s && '-' !in s && '/' !in s
    ensures Clean(Slashed(s)) == s
  {
    var r := Slashed(s);
    SlashedMembers(s);
    assert ' ' !in r && '-' !in r;
    UnslashSlashed(s);
    StripTrimmed(s);
  }

  /** Deleting the slashes of a formatted number gives back its clean form. */
  lemma FormatNssUnslash(nss: string)
    ensures Remove(FormatNss(nss), '/') == Clean(nss)
  {
    if nss != [] && |Clean(nss)| == 12 {
      UnslashSlashed(Clean(nss));
    } else if nss == [] {
      assert Remove(nss, ' ') == [];
    }
  }

  /** Formatting a formatted number changes nothing. */
  lemma FormatNssIdempotent(nss: string)
    ensures FormatNss(FormatNss(nss)) == FormatNss(nss)
  {
    var s := Clean(nss);
    if nss != [] && |s| == 12 {
      CleanSlashed(s);
    } else if nss != [] {
      CleanIdempotent(nss);
    }
  }

  /**
   * `get_province_code` in the corrected order: the first two characters of
   * the clean form, nothing for fewer than two raw characters.
   */
  function GetProvinceCode(nss: string): (r: string)
    ensures |nss| < 2 ==> r == []
    ensures |nss| >= 2 ==> r <= Clean(nss) && (|r| == 2 || r == Clean(nss))
  {
    if |nss| < 2 then ""
    else
      var s := Clean(nss);
      if |s| < 2 then s else s[..2]
  }

  /**
   * `get_province_code` exactly as the source writes it: the two characters
   * are taken from the as-written clean form (strip before the deletions).
   */
  function GetProvinceCodeAsWritten(nss: string): (r: string)
    ensures |nss| < 2 ==> r == []
    ensures |nss| >= 2 ==> r <= CleanAsWritten(nss) && (|r| == 2 || r == CleanAsWritten(nss))
  {
    if |nss| < 2 then ""
    else
      var s := CleanAsWritten(nss);
      if |s| < 2 then s else s[..2]
  }

  /** On a number the as-written validation accepts, both orders give the same province. */
  lemma ProvinceAgreesWhenValid(nss: string)
    requires ValidateNssAsWritten(nss)
    ensures GetProvinceCodeAsWritten(nss) == GetProvinceCode(nss)
  {
    var s := CleanAsWritten(nss);
    assert MatchesTwelveDigits(s);
    MatchedIsClean(nss);
    ProvinceOfCleanAsWritten(nss, s);
    ProvinceOfCleanForm(nss, s[..12]);
    assert s[..12][..2] == s[..2];
  }

  /**
   * A leading "-" followed by a tab: the source's order strips nothing and
   * takes the tab as the first province character; the intended order
   * deletes the dash, strips the tab and takes the real province.
   */
  lemma ProvinceDashTab(d: string)
    requires NssShape(d)
    ensures GetProvinceCodeAsWritten("-\t" + d) == ['\t', d[0]]
    ensures GetProvinceCode("-\t" + d) == d[..2]
  {
    ProvinceDashTabAsWritten(d);
    ProvinceDashTabClean(d);
  }

  lemma ProvinceDashTabAsWritten(d: string)
    requires NssShape(d)
    ensures GetProvinceCodeAsWritten("-\t" + d) == ['\t', d[0]]
  {
    DashTabCleanAsWritten(d);
    TabLedProvince("-\t" + d, d);
  }

  lemma TabLedProvince(t: string, d: string)
    requires |t| >= 2 && |d| >= 1 && CleanAsWritten(t) == "\t" + d
    ensures GetProvinceCodeAsWritten(t) == ['\t', d[0]]
  {
    TabLedPrefix("\t" + d, d);
    ProvinceOfCleanAsWritten(t, "\t" + d);
  }

  lemma TabLedPrefix(c: string, d: string)
    requires |d| >= 1 && c == "\t" + d
    ensures |c| >= 2 && c[..2] == ['\t', d[0]]
  {
  }

  lemma ProvinceDashTabClean(d: string)
    requires NssShape(d)
    ensures GetProvinceCode("-\t" + d) == d[..2]
  {
    DashTabClean(d);
    ProvinceOfCleanForm("-\t" + d, d);
  }

  lemma ProvinceOfCleanAsWritten(nss: string, c: string)
    requires |nss| >= 2 && |c| >= 2 && CleanAsWritten(nss) == c
    ensures GetProvinceCodeAsWritten(nss) == c[..2]
  {
  }

  lemma ProvinceOfCleanForm(nss: string, c: string)
    requires |nss| >= 2 && |c| >= 2 && Clean(nss) == c
    ensures GetProvinceCode(nss) == c[..2]
  {
  }

  /** A valid number has a non-zero two-digit province, and it leads the formatted number. */
  lemma ValidProvince(nss: string)
    requires ValidateNss(nss)
    ensures |GetProvinceCode(nss)| == 2 && AllDigits(GetProvinceCode(nss))
    ensures NatOf(GetProvinceCode(nss)) != 0
    ensures FormatNss(nss)[..2] == GetProvinceCode(nss)
  {
    var s := Clean(nss);
    RemoveShorter(nss);
    ProvinceOfClean(nss);
    ControlProvince(s);
    SlashedLeads(s);
  }

  lemma ProvinceOfClean(nss: string)
    requires |nss| >= 2 && |Clean(nss)| >= 2
    ensures GetProvinceCode(nss) == Clean(nss)[..2]
  {
  }

  lemma ControlProvince(t: string)
    requires NssShape(t) && ControlHolds(t)
    ensures |t[..2]| == 2 && AllDigits(t[..2]) && NatOf(t[..2]) != 0
  {
    DigitsSlice(t, 0, 2);
  }

  lemma SlashedLeads(s: string)
    requires |s| == 12
    ensures Slashed(s)[..2] == s[..2]
  {
  }

  /** The clean-up never lengthens its input. */
  lemma RemoveShorter(nss: string)
    ensures |Clean(nss)| <= |nss|
  {
    var d := Remove(Remove(Remove(nss, ' '), '-'), '/');
    assert |TrimEnd(TrimStart(d))| <= |d|;
  }

  // ---------------------------------------------------------------- as written

  /** `re.match(r'^\d{12}$', s)`: `$` also matches just before a final newline. */
  predicate MatchesTwelveDigits(s: string)
  {
    NssShape(s) || (|s| == 13 && s[12] == '\n' && NssShape(s[..12]))
  }

  /** What the as-written pattern accepts is, once stripped, the intended clean form: twelve digits. */
  lemma MatchedIsClean(nss: string)
    requires MatchesTwelveDigits(CleanAsWritten(nss))
    ensures Clean(nss) == CleanAsWritten(nss)[..12] && NssShape(Clean(nss))
  {
    CleanStripsAsWritten(nss);
    StripOfMatch(CleanAsWritten(nss));
  }

  /** Stripping a matched string leaves its twelve digits. */
  lemma StripOfMatch(c: string)
    requires MatchesTwelveDigits(c)
    ensures Strip(c) == c[..12] && NssShape(c[..12])
  {
    var d := c[..12];
    if NssShape(c) {
      assert c == d;
      DigitsPlain(c);
      StripTrimmed(c);
    } else {
      assert c == d + "\n";
      DigitsPlain(d);
      StripNewline(d);
    }
  }

  /**
   * `validate_nss` exactly as the source writes it. Whatever it accepts the
   * intended order accepts too; the converse fails (see `NssDashTab`).
   */
  function ValidateNssAsWritten(nss: string): (ok: bool)
    ensures ok ==> ValidateNss(nss)
  {
    if nss == [] then false
    else
      var s := CleanAsWritten(nss);
      if MatchesTwelveDigits(s) then
        MatchedIsClean(nss);
        ControlHolds(s[..12])
      else false
  }

  /**
   * `format_nss` exactly as the source writes it: deleting the slashes of
   * the result gives the as-written clean form.
   */
  function FormatNssAsWritten(nss: string): (r: string)
    ensures Remove(r, '/') == CleanAsWritten(nss)
  {
    if nss == [] then ""
    else
      var s := CleanAsWritten(nss);
      if |s| != 12 then s
      else
        UnslashSlashed(s);
        Slashed(s)
  }

  lemma NewlineSlashPlain(d: string)
    requires NssShape(d)
    ensures Trimmed(d + "\n/") && ' ' !in d + "\n/" && '-' !in d + "\n/" && '/' !in d + "\n"
    ensures (d + "\n") + ['/'] == d + "\n/"
  {
    DigitsPlain(d);
    assert (d + "\n/")[0] == d[0];
  }

  lemma CleanAsWrittenNewlineSlash(d: string)
    requires NssShape(d)
    ensures CleanAsWritten(d + "\n/") == d + "\n"
  {
    NewlineSlashPlain(d);
    StripTrimmed(d + "\n/");
    RemoveLast(d + "\n", '/');
  }

  lemma CleanNewlineSlash(d: string)
    requires NssShape(d)
    ensures Clean(d + "\n/") == d
  {
    NewlineSlashPlain(d);
    RemoveLast(d + "\n", '/');
    DigitsPlain(d);
    StripNewline(d);
  }

  /**
   * A valid number followed by a newline and a slash: the source accepts it
   * with a clean form of thirteen characters and leaves it unformatted,
   * where the intended clean-up yields the twelve digits and formats them.
   */
  lemma NssNewlineSlash(d: string)
    requires NssShape(d) && ControlHolds(d)
    ensures ValidateNssAsWritten(d + "\n/") && |CleanAsWritten(d + "\n/")| == 13
    ensures FormatNssAsWritten(d + "\n/") == d + "\n"
    ensures ValidateNss(d + "\n/") && FormatNss(d + "\n/") == Slashed(d)
  {
    AsWrittenNewlineSlash(d);
    CleanNewlineSlash(d);
  }

  lemma AsWrittenNewlineSlash(d: string)
    requires NssShape(d) && ControlHolds(d)
    ensures ValidateNssAsWritten(d + "\n/") && |CleanAsWritten(d + "\n/")| == 13
    ensures FormatNssAsWritten(d + "\n/") == d + "\n"
  {
    CleanAsWrittenNewlineSlash(d);
    AsWrittenOnNewline(d + "\n/", d);
  }

  /** Whatever the as-written clean-up turns into twelve good digits and a newline is accepted and left unformatted. */
  lemma AsWrittenOnNewline(y: string, d: string)
    requires y != [] && NssShape(d) && ControlHolds(d) && CleanAsWritten(y) == d + "\n"
    ensures ValidateNssAsWritten(y) && |CleanAsWritten(y)| == 13
    ensures FormatNssAsWritten(y) == d + "\n"
  {
    var c := d + "\n";
    assert c[..12] == d && c[12] == '\n';
    assert MatchesTwelveDigits(c) && !NssShape(c);
  }

  /** As written, formatting is not idempotent: the unformatted thirteen characters format on a second pass. */
  lemma FormatNssAsWrittenNotIdempotent(d: string)
    requires NssShape(d)
    ensures FormatNssAsWritten(FormatNssAsWritten(d + "\n/")) != FormatNssAsWritten(d + "\n/")
  {
    CleanAsWrittenNewlineSlash(d);
    DigitsPlain(d);
    StripNewline(d);
    assert CleanAsWritten(d + "\n") == d;
  }

  /** A dash and a tab before a valid number: the intended order accepts it, the source's order does not. */
  lemma NssDashTab(d: string)
    requires NssShape(d) && ControlHolds(d)
    ensures !ValidateNssAsWritten("-\t" + d) && ValidateNss("-\t" + d)
  {
    DashTabCleanAsWritten(d);
    DashTabClean(d);
    TabLedRefused("-\t" + d, d);
  }

  lemma TabLedRefused(y: string, d: string)
    requires NssShape(d) && CleanAsWritten(y) == "\t" + d
    ensures !ValidateNssAsWritten(y)
  {
    var c := "\t" + d;
    assert c[0] == '\t' && c[12] == d[11];
    assert !MatchesTwelveDigits(c);
  }

  lemma DashTabPlain(d: string)
    requires NssShape(d)
    ensures Trimmed("-\t" + d) && ' ' !in "-\t" + d && '/' !in "\t" + d && '-' !in "\t" + d
  {
    DigitsPlain(d);
    var t := "-\t" + d;
    assert t[|t| - 1] == d[11];
    assert forall k :: 0 <= k < |t| ==> t[k] == '-' || t[k] == '\t' || t[k] in d;
  }

  lemma DashTabCleanAsWritten(d: string)
    requires NssShape(d)
    ensures CleanAsWritten("-\t" + d) == "\t" + d
  {
    var t := "-\t" + d;
    DashTabPlain(d);
    StripTrimmed(t);
    DashDropped(d);
    CleanAsWrittenOfPlain(t, "\t" + d);
  }

  lemma DashDropped(d: string)
    requires '-' !in "\t" + d
    ensures Remove("-\t" + d, '-') == "\t" + d
  {
    assert "-\t" + d == ['-'] + ("\t" + d);
    RemoveAppend(['-'], "\t" + d, '-');
    RemoveOne('-', '-');
    assert [] + ("\t" + d) == "\t" + d;
  }

  /** On a stripped string the as-written clean-up only deletes. */
  lemma CleanAsWrittenOfPlain(t: string, r: string)
    requires Strip(t) == t && Remove(Remove(Remove(t, ' '), '-'), '/') == r
    ensures CleanAsWritten(t) == r
  {
  }

  lemma DashTabClean(d: string)
    requires NssShape(d)
    ensures Clean("-\t" + d) == d
  {
    DashTabPlain(d);
    DashDropped(d);
    DigitsPlain(d);
    var e: string := [];
    assert "\t" + d + e == "\t" + d;
    StripSurrounded("\t", d, e);
    StripTrimmed(d);
  }
}
