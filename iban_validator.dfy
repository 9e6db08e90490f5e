/**
 * `IBANValidator`: structure of an International Bank Account Number as
 * ISO 13616-1 lays it out (country code, two check digits, BBAN), the
 * MOD 97-10 check of ISO/IEC 7064, and the printed form in groups of four.
 */
module IbanValidator {
  import opened Text
  import opened Normalization

  /** `IBAN_LENGTHS`: the total length for the countries the validator knows. */
  const IbanLengths: map<string, nat> :=
    map["ES" := 24, "FR" := 27, "DE" := 22, "IT" := 27, "PT" := 25, "GB" := 22, "NL" := 18, "BE" := 16]

  /** `^[A-Z]{2}\d{2}[A-Z0-9]+$` on a normalised string (which has no trailing newline). */
  predicate IbanShape(s: string)
  {
    |s| >= 5 && IsUpper(s[0]) && IsUpper(s[1]) && IsDigit(s[2]) && IsDigit(s[3]) && Alnum(s[4..])
  }

  /** The length rule: the tabulated length for a known country, 15 to 34 otherwise. */
  predicate LengthOk(country: string, n: nat)
  {
    if country in IbanLengths then n == IbanLengths[country] else 15 <= n <= 34
  }

  /** A digit stands for itself; a letter A..Z for the number 10..35. */
  function CharDigits(c: char): (r: string)
    requires IsUpper(c) || IsDigit(c)
    ensures |r| >= 1 && AllDigits(r)
  {
    if IsDigit(c) then [c] else NatToString(c as int - 'A' as int + 10)
  }

  /** The digit string the loop at lines 53-58 builds. */
  function Digits(s: string): (r: string)
    requires Alnum(s)
    ensures AllDigits(r)
  {
    if s == [] then []
    else
      var r := CharDigits(s[0]) + Digits(s[1..]);
      AllDigitsAppend(CharDigits(s[0]), Digits(s[1..]));
      r
  }

  lemma {:induction false} DigitsAppend(a: string, b: string)
    requires Alnum(a) && Alnum(b)
    ensures Alnum(a + b) && Digits(a + b) == Digits(a) + Digits(b)
  {
    AlnumAppend(a, b);
    if a == [] {
      assert a + b == b;
    } else {
      AlnumTail(a, b);
      DigitsAppend(a[1..], b);
      DigitsCons(a + b, a[0], a[1..] + b);
      DigitsCons(a, a[0], a[1..]);
      AppendAssoc(CharDigits(a[0]), Digits(a[1..]), Digits(b));
    }
  }

  lemma AlnumAppend(a: string, b: string)
    requires Alnum(a) && Alnum(b)
    ensures Alnum(a + b)
  {
    forall k | 0 <= k < |a + b| ensures IsUpper((a + b)[k]) || IsDigit((a + b)[k]) {
      if k < |a| { assert (a + b)[k] == a[k]; } else { assert (a + b)[k] == b[k - |a|]; }
    }
  }

  lemma AlnumTail(a: string, b: string)
    requires a != [] && Alnum(a) && Alnum(b)
    ensures Alnum(a[1..]) && (a + b)[1..] == a[1..] + b && (a + b)[0] == a[0]
  {
    assert forall k :: 0 <= k < |a[1..]| ==> a[1..][k] == a[k + 1];
    assert (a + b)[1..] == a[1..] + b;
  }

  lemma DigitsCons(s: string, c: char, t: string)
    requires s != [] && Alnum(s) && s[0] == c && s[1..] == t
    ensures Alnum(t) && Digits(s) == CharDigits(c) + Digits(t)
  {
    assert forall k :: 0 <= k < |t| ==> t[k] == s[k + 1];
  }

  lemma {:induction false} DigitsOfDigits(s: string)
    requires AllDigits(s)
    ensures Alnum(s) && Digits(s) == s
  {
    if s != [] {
      DigitsOfDigits(s[1..]);
      assert s == [s[0]] + s[1..];
    }
  }

  /** The number whose remainder modulo 97 decides: the first four characters moved to the end, letters expanded. */
  function IbanNumber(s: string): nat
    requires IbanShape(s)
  {
    RearrangedAlnum(s);
    NatOf(Digits(s[4..] + s[..4]))
  }

  lemma RearrangedAlnum(s: string)
    requires IbanShape(s)
    ensures Alnum(s[4..] + s[..4])
  {
    var t := s[4..] + s[..4];
    forall k | 0 <= k < |t| ensures IsUpper(t[k]) || IsDigit(t[k]) {
      if k < |s| - 4 { assert t[k] == s[4..][k]; } else { assert t[k] == s[k - (|s| - 4)]; }
    }
  }

  /** `validate_iban`. */
  function ValidateIban(iban: string): (ok: bool)
    ensures ok ==> iban != [] && IbanShape(Normalize(iban)) && LengthOk(Normalize(iban)[..2], |Normalize(iban)|)
  {
    if iban == [] then false
    else
      var s := Normalize(iban);
      IbanShape(s) && LengthOk(s[..2], |s|) && IbanNumber(s) % 97 == 1
  }

  /**
   * A country code, two check digits and an alphanumeric BBAN form a valid
   * IBAN exactly when the length fits the country and the BBAN, the country
   * and the check digits, read as one number, leave remainder 1 modulo 97.
   */
  lemma IbanCheck(country: string, check: string, bban: string)
    requires |country| == 2 && IsUpper(country[0]) && IsUpper(country[1])
    requires |check| == 2 && AllDigits(check) && bban != [] && Alnum(bban)
    ensures ValidateIban(country + check + bban) <==> LengthOk(country, 4 + |bban|) && CheckHolds(country, check, bban)
  {
    var s := country + check + bban;
    IbanParts(country, check, bban);
    NormalizeAlnum(s);
    ValidateNormal(s);
    IbanNumberOf(country, check, bban);
    CheckOfParts(s, country, check, bban);
  }

  lemma CheckOfParts(s: string, country: string, check: string, bban: string)
    requires |country| == 2 && IsUpper(country[0]) && IsUpper(country[1])
    requires |check| == 2 && AllDigits(check) && Alnum(bban)
    requires |s| == 4 + |bban| && IbanShape(s) && s[..2] == country
    requires ValidateIban(s) <==> LengthOk(s[..2], |s|) && IbanNumber(s) % 97 == 1
    requires IbanNumber(s) % 97 == 1 <==> CheckHolds(country, check, bban)
    ensures ValidateIban(s) <==> LengthOk(country, 4 + |bban|) && CheckHolds(country, check, bban)
  {
  }

  lemma ValidateNormal(s: string)
    requires s != [] && IbanShape(s) && Normalize(s) == s
    ensures ValidateIban(s) <==> LengthOk(s[..2], |s|) && IbanNumber(s) % 97 == 1
  {
  }

  /** The MOD 97-10 condition on the parts: BBAN, country and check digits read as one number leave remainder 1. */
  predicate CheckHolds(country: string, check: string, bban: string)
    requires |country| == 2 && IsUpper(country[0]) && IsUpper(country[1])
    requires |check| == 2 && AllDigits(check) && Alnum(bban)
  {
    BbanCountryAlnum(country, bban);
    (NatOf(Digits(bban + country)) * 100 + NatOf(check)) % 97 == 1
  }

  /** The number of an IBAN: the BBAN and the country expanded, then the check digits. */
  lemma IbanNumberOf(country: string, check: string, bban: string)
    requires |country| == 2 && IsUpper(country[0]) && IsUpper(country[1])
    requires |check| == 2 && AllDigits(check) && bban != [] && Alnum(bban)
    ensures IbanShape(country + check + bban) && (country + check + bban)[..2] == country
    ensures IbanNumber(country + check + bban) % 97 == 1 <==> CheckHolds(country, check, bban)
  {
    IbanParts(country, check, bban);
    BbanCountryAlnum(country, bban);
    RearrangedParts(country, check, bban);
  }

  lemma RearrangedParts(country: string, check: string, bban: string)
    requires |country| == 2 && IsUpper(country[0]) && IsUpper(country[1])
    requires |check| == 2 && AllDigits(check) && bban != [] && Alnum(bban)
    requires IbanShape(country + check + bban) && Alnum(bban + country)
    ensures IbanNumber(country + check + bban) == NatOf(Digits(bban + country)) * 100 + NatOf(check)
  {
    var s := country + check + bban;
    assert s[4..] == bban && s[..4] == country + check;
    assert s[4..] + s[..4] == (bban + country) + check;
    DigitsThenCheck(bban + country, check);
  }

  lemma DigitsThenCheck(x: string, check: string)
    requires Alnum(x) && |check| == 2 && AllDigits(check)
    ensures Alnum(x + check) && NatOf(Digits(x + check)) == NatOf(Digits(x)) * 100 + NatOf(check)
  {
    DigitsOfDigits(check);
    DigitsAppend(x, check);
    NatOfAppend(Digits(x), check);
    assert Pow10(2) == 100;
  }

  lemma IbanParts(country: string, check: string, bban: string)
    requires |country| == 2 && IsUpper(country[0]) && IsUpper(country[1])
    requires |check| == 2 && AllDigits(check) && bban != [] && Alnum(bban)
    ensures IbanShape(country + check + bban) && Alnum(country + check + bban)
  {
    var s := country + check + bban;
    assert s[4..] == bban;
    forall k | 0 <= k < |s| ensures IsUpper(s[k]) || IsDigit(s[k]) {
      if k >= 4 { assert s[k] == bban[k - 4]; }
      else if k >= 2 { assert s[k] == check[k - 2]; }
    }
  }

  /** The check digits ISO/IEC 7064 MOD 97-10 assigns to a country code and BBAN: 98 minus the remainder of the number with "00" in their place. */
  function CheckDigits(country: string, bban: string): (r: string)
    requires |country| == 2 && IsUpper(country[0]) && IsUpper(country[1]) && Alnum(bban)
    ensures |r| == 2 && AllDigits(r) && 2 <= NatOf(r) <= 98
  {
    BbanCountryAlnum(country, bban);
    TwoDigits(98 - (NatOf(Digits(bban + country)) * 100) % 97)
  }

  lemma BbanCountryAlnum(country: string, bban: string)
    requires |country| == 2 && IsUpper(country[0]) && IsUpper(country[1]) && Alnum(bban)
    ensures Alnum(bban + country)
  {
    var t := bban + country;
    forall k | 0 <= k < |t| ensures IsUpper(t[k]) || IsDigit(t[k]) {
      if k < |bban| { assert t[k] == bban[k]; } else { assert t[k] == country[k - |bban|]; }
    }
  }

  /** Check digits computed by MOD 97-10 always give an IBAN the validator accepts, when the length fits. */
  lemma CheckDigitsValid(country: string, bban: string)
    requires |country| == 2 && IsUpper(country[0]) && IsUpper(country[1])
    requires bban != [] && Alnum(bban) && LengthOk(country, 4 + |bban|)
    ensures ValidateIban(country + CheckDigits(country, bban) + bban)
  {
    IbanCheck(country, CheckDigits(country, bban), bban);
    CheckDigitsHold(country, bban);
  }

  lemma CheckDigitsHold(country: string, bban: string)
    requires |country| == 2 && IsUpper(country[0]) && IsUpper(country[1]) && Alnum(bban)
    ensures CheckHolds(country, CheckDigits(country, bban), bban)
  {
    BbanCountryAlnum(country, bban);
    var w := NatOf(Digits(bban + country)) * 100;
    assert NatOf(CheckDigits(country, bban)) == 98 - w % 97;
    ModNinetySeven(w);
  }

  lemma ModNinetySeven(v: nat)
    ensures (v + (98 - v % 97)) % 97 == 1
  {
    var q := v / 97;
    assert v == 97 * q + v % 97;
    assert v + (98 - v % 97) == 97 * (q + 1) + 1;
  }

  /** Dashes, spaces and letter case do not change the verdict. */
  lemma IbanIgnoresSeparator(a: string, b: string, c: char)
    requires c == '-' || c == ' '
    ensures ValidateIban(a + [c] + b) == ValidateIban(a + b)
  {
    NormalizeIgnoresSeparator(a, b, c);
    NormalizeLength(a + b);
  }

  lemma IbanIgnoresCase(s: string)
    ensures ValidateIban(Lower(s)) == ValidateIban(s)
  {
    NormalizeIgnoresCase(s);
  }

  /** The source deletes spaces before dashes; the order makes no difference. */
  lemma IbanNormalizeOrder(s: string)
    ensures Normalize(s) == Strip(Remove(Remove(Upper(s), ' '), '-'))
  {
    RemoveCommute(Upper(s), '-', ' ');
  }

  // ---------------------------------------------------------------- format_iban

  /** The slices `s[i:i+4]` for `i` in `range(0, len(s), 4)`. */
  function Groups(s: string): (g: seq<string>)
    ensures Concat(g) == s
    ensures forall i :: 0 <= i < |g| ==> 1 <= |g[i]| <= 4
    ensures forall i :: 0 <= i < |g| - 1 ==> |g[i]| == 4
    ensures s == [] <==> g == []
    decreases |s|
  {
    if s == [] then []
    else if |s| <= 4 then
      assert Concat([s]) == s + Concat([]);
      [s]
    else
      var g := [s[..4]] + Groups(s[4..]);
      assert g[1..] == Groups(s[4..]);
      assert s == s[..4] + s[4..];
      g
  }

  /** `format_iban`. */
  function FormatIban(iban: string): (r: string)
    ensures iban == [] ==> r == []
  {
    if iban == [] then [] else Join(Groups(Normalize(iban)), " ")
  }

  /** Deleting the spaces of the grouped form gives back the string grouped. */
  lemma {:induction false} GroupsUnjoin(s: string)
    ensures Remove(Join(Groups(s), " "), ' ') == Remove(s, ' ')
    decreases |s|
  {
    if |s| > 4 {
      var rest := Groups(s[4..]);
      assert Groups(s) == [s[..4]] + rest;
      assert |rest| >= 1;
      assert Join(Groups(s), " ") == s[..4] + " " + Join(rest, " ");
      GroupsUnjoin(s[4..]);
      RemoveThree(s[..4], " ", Join(rest, " "), ' ');
      RemoveOne(' ', ' ');
      assert s == s[..4] + s[4..];
      RemoveAppend(s[..4], s[4..], ' ');
    }
  }

  /** Deleting the spaces of `format_iban(x)` gives the normalised `x`. */
  lemma FormatIbanUnformat(iban: string)
    ensures Remove(FormatIban(iban), ' ') == Normalize(iban)
  {
    if iban != [] {
      GroupsUnjoin(Normalize(iban));
    }
  }

  // ---------------------------------------------------------------- country

  /** `get_country_code`: the length test is on the raw input, before normalising. */
  function CountryCode(iban: string): (r: string)
    ensures |iban| < 2 ==> r == []
    ensures |iban| >= 2 ==> r == Normalize(iban)[..if |Normalize(iban)| < 2 then |Normalize(iban)| else 2]
  {
    if |iban| < 2 then []
    else
      var s := Normalize(iban);
      s[..if |s| < 2 then |s| else 2]
  }

  /** `is_spanish_iban`. */
  predicate IsSpanishIban(iban: string)
  {
    CountryCode(iban) == "ES"
  }

  /** An IBAN is Spanish exactly when its first two normalised characters are "ES". */
  lemma SpanishIban(iban: string)
    ensures IsSpanishIban(iban) <==> |Normalize(iban)| >= 2 && Normalize(iban)[..2] == "ES"
  {
    NormalizeLength(iban);
  }

  // ---------------------------------------------------------------- as written

  /**
   * `iban.upper().strip().replace(" ", "").replace("-", "")`: the strip comes
   * first, and deleting spaces before dashes gives the same string as the
   * other validators' order.
   */
  function CleanAsWritten(iban: string): (r: string)
    ensures r == NormalizeAsWritten(iban)
  {
    RemoveCommute(Strip(Upper(iban)), '-', ' ');
    Remove(Remove(Strip(Upper(iban)), ' '), '-')
  }

  lemma IbanShapeAlnum(s: string)
    requires IbanShape(s)
    ensures Alnum(s)
  {
    forall k | 4 <= k < |s| ensures IsUpper(s[k]) || IsDigit(s[k]) {
      assert s[k] == s[4..][k - 4];
    }
  }

  /**
   * `validate_iban` with strip-before-delete. A final "\n" passes `$` but
   * counts for the length rule; when the length fits, the loop expands the
   * newline to `str(ord("\n") - ord("A") + 10)`, that is "-45", in the
   * middle of the number, and `int()` raises.
   */
  function ValidateIbanAsWritten(iban: string): (r: Outcome)
    ensures r == Returns(true) ==> ValidateIban(iban)
  {
    if iban == [] then Returns(false)
    else
      AcceptedAsWritten(iban);
      VerdictAsWritten(CleanAsWritten(iban))
  }

  /** The checks of `validate_iban` on its clean string, as written. */
  function VerdictAsWritten(s: string): (r: Outcome)
    ensures r == Returns(true) ==> IbanShape(s) && LengthOk(s[..2], |s|) && IbanNumber(s) % 97 == 1
  {
    if IbanShape(s) then Returns(LengthOk(s[..2], |s|) && IbanNumber(s) % 97 == 1)
    else if |s| >= 6 && s[|s| - 1] == '\n' && IbanShape(s[..|s| - 1]) then
      if LengthOk(s[..2], |s|) then RaisesValueError else Returns(false)
    else Returns(false)
  }

  lemma AcceptedAsWritten(iban: string)
    ensures IbanShape(NormalizeAsWritten(iban)) ==> Normalize(iban) == NormalizeAsWritten(iban)
  {
    if IbanShape(NormalizeAsWritten(iban)) {
      IbanShapeAlnum(NormalizeAsWritten(iban));
      AsWrittenAlnum(iban);
    }
  }

  /** As written, a valid IBAN followed by a tab and a dash is refused; the intended validator accepts it. */
  lemma IbanTabDashRefused(x: string)
    requires IbanShape(x) && ValidateIban(x)
    ensures ValidateIbanAsWritten(x + "\t-") == Returns(false)
    ensures ValidateIban(x + "\t-")
  {
    IbanShapeAlnum(x);
    AsWrittenTabDash(x);
    NormalizeAlnum(x);
    TabVerdict(x + "\t");
  }

  lemma TabVerdict(s: string)
    requires |s| >= 6 && s[|s| - 1] == '\t'
    ensures VerdictAsWritten(s) == Returns(false)
  {
    assert !Alnum(s[4..]) by { assert s[4..][|s| - 5] == '\t'; }
  }

  /**
   * As written, a well-shaped IBAN whose length plus one fits the length rule,
   * followed by a newline and a dash, makes `validate_iban` raise.
   */
  lemma IbanNewlineDashRaises(x: string)
    requires IbanShape(x) && LengthOk(x[..2], |x| + 1)
    ensures ValidateIbanAsWritten(x + "\n-") == RaisesValueError
  {
    IbanShapeAlnum(x);
    AsWrittenKeepsNewline(x);
    NewlineVerdict(x + "\n", x);
  }

  lemma NewlineVerdict(s: string, x: string)
    requires s == x + "\n" && IbanShape(x) && LengthOk(x[..2], |x| + 1)
    ensures VerdictAsWritten(s) == RaisesValueError
  {
    assert s[..|s| - 1] == x;
    assert s[..2] == x[..2];
    assert !Alnum(s[4..]) by { assert s[4..][|s| - 5] == '\n'; }
  }

  /** `format_iban` with strip-before-delete: deleting the spaces of the result gives the as-written clean form. */
  function FormatIbanAsWritten(iban: string): (r: string)
    ensures iban == [] ==> r == []
    ensures Remove(r, ' ') == CleanAsWritten(iban)
  {
    if iban == [] then []
    else
      GroupsUnjoin(CleanAsWritten(iban));
      Join(Groups(CleanAsWritten(iban)), " ")
  }

  /** As written, a tab before a final dash survives into the groups; the intended form drops it. */
  lemma FormatIbanKeepsTab(x: string)
    requires x != [] && Alnum(x)
    ensures Remove(FormatIbanAsWritten(x + "\t-"), ' ') == x + "\t"
    ensures Remove(FormatIban(x + "\t-"), ' ') == x
  {
    AsWrittenTabDash(x);
    GroupsUnjoin(x + "\t");
    AlnumPlain(x);
    assert ' ' !in x + "\t";
    FormatIbanUnformat(x + "\t-");
  }

  /** `get_country_code` with strip-before-delete. */
  function CountryCodeAsWritten(iban: string): (r: string)
    ensures |iban| < 2 ==> r == []
    ensures |iban| >= 2 ==> r <= CleanAsWritten(iban) && (|r| == 2 || r == CleanAsWritten(iban))
  {
    if |iban| < 2 then []
    else
      var s := CleanAsWritten(iban);
      s[..if |s| < 2 then |s| else 2]
  }

  /** `is_spanish_iban` with strip-before-delete. */
  predicate IsSpanishIbanAsWritten(iban: string)
  {
    CountryCodeAsWritten(iban) == "ES"
  }

  /**
   * As written, a dash and a tab before a Spanish IBAN make the country code
   * the tab and "E", so the IBAN is not Spanish; the intended country is "ES".
   */
  lemma DashTabNotSpanish(x: string)
    requires |x| >= 2 && Alnum(x) && x[..2] == "ES"
    ensures CountryCodeAsWritten("-\t" + x) == ['\t', 'E']
    ensures !IsSpanishIbanAsWritten("-\t" + x)
    ensures CountryCode("-\t" + x) == "ES" && IsSpanishIban("-\t" + x)
  {
    AsWrittenDashTab(x);
    TabCountry("\t" + x, x);
    CountryAsWritten("-\t" + x, "\t" + x);
    assert ['\t', 'E'] != "ES";
    NormalCountry("-\t" + x, x);
  }

  lemma CountryAsWritten(iban: string, s: string)
    requires |iban| >= 2 && NormalizeAsWritten(iban) == s && |s| >= 2
    ensures CountryCodeAsWritten(iban) == s[..2]
  {
  }

  lemma TabCountry(s: string, x: string)
    requires s == "\t" + x && |x| >= 2 && x[..2] == "ES"
    ensures s[..2] == ['\t', 'E']
  {
    assert x[0] == x[..2][0];
  }

  lemma NormalCountry(iban: string, x: string)
    requires |iban| >= 2 && Normalize(iban) == x && |x| >= 2 && x[..2] == "ES"
    ensures CountryCode(iban) == "ES" && IsSpanishIban(iban)
  {
  }
}
