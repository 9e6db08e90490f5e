/**
 * `DocumentValidator`: the control characters of the Spanish personal tax
 * number (NIF/DNI), the foreigner's number (NIE) and the company tax code
 * (CIF), and the dispatcher that picks one by the first character.
 *
 * Every validator matches its pattern against `Normalization.Normalize` of
 * the input. A normalised string has no whitespace at its end, so Python's
 * `$` (which also matches before a final "\n") and a plain end-of-string
 * agree on it; the `...AsWritten` members below keep the original order of
 * normalisation, where they do not.
 */
module NifCifValidator {
  import opened Text
  import opened Normalization

  const NifLetters: string := "TRWAGMYFPDXBNJZSQVHLCKE"
  const CifLetters: string := "JABCDEFGHI"
  const CifOrgTypes: string := "ABCDEFGHJNPQRSUVW"
  /** Organisation types whose control character must be a letter. */
  const LetterControlTypes: string := "NPQRSW"

  // ---------------------------------------------------------------- NIF

  /** `^\d{8}[A-Z]$` on a string with no trailing newline. */
  predicate NifShape(s: string)
  {
    |s| == 9 && AllDigits(s[..8]) && IsUpper(s[8])
  }

  /** The control letter of an 8-digit number: `NIF_LETTERS[n % 23]`. */
  function NifLetter(n: nat): (c: char)
    ensures IsUpper(c)
  {
    assert forall k :: 0 <= k < |NifLetters| ==> IsUpper(NifLetters[k]);
    NifLetters[n % 23]
  }

  /** `validate_nif`. */
  function ValidateNif(nif: string): (ok: bool)
    ensures ok ==> nif != [] && NifShape(Normalize(nif))
  {
    if nif == [] then false
    else
      var s := Normalize(nif);
      NifShape(s) && s[8] == NifLetter(NatOf(s[..8]))
  }

  /** Eight digits and an upper-case letter are a valid NIF exactly when the letter is the control letter. */
  lemma NifControl(digits: string, c: char)
    requires |digits| == 8 && AllDigits(digits) && IsUpper(c)
    ensures ValidateNif(digits + [c]) <==> c == NifLetter(NatOf(digits))
  {
    var s := digits + [c];
    assert Alnum(s) by {
      forall k | 0 <= k < |s| ensures IsUpper(s[k]) || IsDigit(s[k]) {
        if k < 8 { assert s[k] == digits[k]; }
      }
    }
    NormalizeAlnum(s);
    assert s[..8] == digits;
  }

  /** Every 8-digit number has exactly one accepted letter. */
  lemma NifLetterUnique(digits: string, c: char, c': char)
    requires |digits| == 8 && AllDigits(digits) && IsUpper(c) && IsUpper(c')
    requires ValidateNif(digits + [c]) && ValidateNif(digits + [c'])
    ensures c == c'
  {
    NifControl(digits, c);
    NifControl(digits, c');
  }

  // ---------------------------------------------------------------- NIE

  /** `^[XYZ]\d{7}[A-Z]$` on a string with no trailing newline. */
  predicate NieShape(s: string)
  {
    |s| == 9 && s[0] in "XYZ" && AllDigits(s[1..8]) && IsUpper(s[8])
  }

  /** X, Y and Z stand for the digits 0, 1 and 2. */
  function NiePrefixDigit(c: char): (d: char)
    requires c in "XYZ"
    ensures IsDigit(d)
  {
    if c == 'X' then '0' else if c == 'Y' then '1' else '2'
  }

  /** The number the control letter is computed from: the prefix digit followed by the seven digits. */
  function NieNumber(s: string): nat
    requires NieShape(s)
  {
    var t := [NiePrefixDigit(s[0])] + s[1..8];
    assert forall k :: 0 <= k < |t| ==> IsDigit(t[k]);
    NatOf(t)
  }

  /** `validate_nie`. */
  function ValidateNie(nie: string): (ok: bool)
    ensures ok ==> nie != [] && NieShape(Normalize(nie))
  {
    if nie == [] then false
    else
      var s := Normalize(nie);
      NieShape(s) && s[8] == NifLetter(NieNumber(s))
  }

  /** An NIE is checked as the NIF whose first digit replaces its X, Y or Z. */
  lemma NieAsNif(p: char, digits: string, c: char)
    requires p in "XYZ" && |digits| == 7 && AllDigits(digits) && IsUpper(c)
    ensures ValidateNie([p] + digits + [c]) == ValidateNif([NiePrefixDigit(p)] + digits + [c])
  {
    var s := [p] + digits + [c];
    var t := [NiePrefixDigit(p)] + digits;
    assert Alnum(s) by {
      forall k | 0 <= k < |s| ensures IsUpper(s[k]) || IsDigit(s[k]) {
        if 0 < k < 8 { assert s[k] == digits[k - 1]; }
      }
    }
    NormalizeAlnum(s);
    assert s[1..8] == digits;
    assert AllDigits(t) by {
      forall k | 0 <= k < |t| ensures IsDigit(t[k]) {
        if k > 0 { assert t[k] == digits[k - 1]; }
      }
    }
    assert NieNumber(s) == NatOf(t);
    NifControl(t, c);
    assert t + [c] == [NiePrefixDigit(p)] + digits + [c];
  }

  // ---------------------------------------------------------------- CIF

  /** `^[A-Z]\d{7}[A-Z0-9]$` on a string with no trailing newline. */
  predicate CifShape(s: string)
  {
    |s| == 9 && IsUpper(s[0]) && AllDigits(s[1..8]) && (IsUpper(s[8]) || IsDigit(s[8]))
  }

  /** The digit sum of twice a digit: `doubled // 10 + doubled % 10`. */
  function DoubledDigitSum(c: char): (n: nat)
    requires IsDigit(c)
    ensures n <= 9
    ensures n % 9 == (2 * DigitValue(c)) % 9
  {
    var d := 2 * DigitValue(c);
    d / 10 + d % 10
  }

  /** `sum_a + sum_b`: the digits at positions 1, 3 and 5 plus the doubled digits at 0, 2, 4 and 6. */
  function CifWeightedSum(digits: string): nat
    requires |digits| == 7 && AllDigits(digits)
  {
    DigitValue(digits[1]) + DigitValue(digits[3]) + DigitValue(digits[5])
    + DoubledDigitSum(digits[0]) + DoubledDigitSum(digits[2]) + DoubledDigitSum(digits[4])
    + DoubledDigitSum(digits[6])
  }

  /** The control digit: the digit that brings the weighted sum up to a multiple of ten. */
  function CifControlDigit(digits: string): (d: nat)
    requires |digits| == 7 && AllDigits(digits)
    ensures d < 10
    ensures (CifWeightedSum(digits) + d) % 10 == 0
  {
    TenComplement(CifWeightedSum(digits));
    (10 - CifWeightedSum(digits) % 10) % 10
  }

  /** `(10 - n % 10) % 10` is what brings `n` up to a multiple of ten. */
  lemma TenComplement(n: nat)
    ensures (n + (10 - n % 10) % 10) % 10 == 0
  {
    var q, r := n / 10, n % 10;
    assert n == 10 * q + r;
    if r == 0 {
      assert n + (10 - r) % 10 == 10 * q;
    } else {
      assert n + (10 - r) % 10 == 10 * (q + 1);
    }
  }

  /** `validate_cif`. */
  function ValidateCif(cif: string): (ok: bool)
    ensures ok ==> cif != [] && CifShape(Normalize(cif)) && Normalize(cif)[0] in CifOrgTypes
  {
    if cif == [] then false
    else
      var s := Normalize(cif);
      CifShape(s) && CifAccepts(s)
  }

  /** The checks of `validate_cif` after the pattern: the organisation type, then the control character. */
  predicate CifAccepts(s: string)
    requires CifShape(s)
  {
    && s[0] in CifOrgTypes
    && var d := CifControlDigit(s[1..8]);
      if s[0] in LetterControlTypes then s[8] == CifLetters[d]
      else s[8] == DigitChar(d) || s[8] == CifLetters[d]
  }

  /**
   * A letter, seven digits and a control character form a valid CIF exactly
   * when the letter is an organisation type and the control character is the
   * control letter, or, for types outside N/P/Q/R/S/W, the control digit.
   */
  lemma CifControl(org: char, digits: string, c: char)
    requires IsUpper(org) && |digits| == 7 && AllDigits(digits) && (IsUpper(c) || IsDigit(c))
    ensures ValidateCif([org] + digits + [c]) <==>
      org in CifOrgTypes
      && (c == CifLetters[CifControlDigit(digits)]
          || (org !in LetterControlTypes && c == DigitChar(CifControlDigit(digits))))
  {
    var s := [org] + digits + [c];
    assert Alnum(s) by {
      forall k | 0 <= k < |s| ensures IsUpper(s[k]) || IsDigit(s[k]) {
        if 0 < k < 8 { assert s[k] == digits[k - 1]; }
      }
    }
    NormalizeAlnum(s);
    assert s[1..8] == digits;
  }

  // ---------------------------------------------------------------- dispatch and formatting

  datatype DocumentType = NIF | NIE | CIF | INVALID

  /** `validate_document`: the first normalised character alone picks the validator, with no fallback. */
  function ValidateDocument(document: string): (r: (bool, DocumentType))
    ensures r.0 <==> r.1 != INVALID
    ensures document == [] ==> r == (false, INVALID)
  {
    if document == [] then (false, INVALID) else Dispatch(Normalize(document))
  }

  /** The branches of `validate_document` after normalisation. */
  function Dispatch(s: string): (r: (bool, DocumentType))
    ensures r.0 <==> r.1 != INVALID
  {
    if s == [] then (false, INVALID) else Choose(s[0], ValidateNie(s), ValidateCif(s), ValidateNif(s))
  }

  /** The branch taken on the first character, given the answers of the NIE, CIF and NIF validators. */
  function Choose(c: char, nie: bool, cif: bool, nif: bool): (r: (bool, DocumentType))
    ensures r.0 <==> r.1 != INVALID
  {
    if c in "XYZ" then (if nie then (true, NIE) else (false, INVALID))
    else if IsUpper(c) then (if cif then (true, CIF) else (false, INVALID))
    else if IsDigit(c) then (if nif then (true, NIF) else (false, INVALID))
    else (false, INVALID)
  }

  /** Validating an already normalised non-empty string is validating the original. */
  lemma ValidateNormalized(document: string)
    requires Normalize(document) != []
    ensures ValidateNif(Normalize(document)) == ValidateNif(document)
    ensures ValidateNie(Normalize(document)) == ValidateNie(document)
    ensures ValidateCif(Normalize(document)) == ValidateCif(document)
  {
    NormalizeIdempotent(document);
  }

  /**
   * The first character decides: X/Y/Z is judged as an NIE, any other letter
   * as a CIF, a digit as an NIF, anything else is invalid, and a valid
   * result carries the tag of the validator that accepted it.
   */
  lemma DocumentDispatch(document: string)
    ensures var s := Normalize(document);
      var r := ValidateDocument(document);
      && (s == [] ==> r == (false, INVALID))
      && (s != [] && s[0] in "XYZ" ==> r.0 == ValidateNie(document) && (r.0 ==> r.1 == NIE))
      && (s != [] && IsUpper(s[0]) && s[0] !in "XYZ" ==> r.0 == ValidateCif(document) && (r.0 ==> r.1 == CIF))
      && (s != [] && IsDigit(s[0]) ==> r.0 == ValidateNif(document) && (r.0 ==> r.1 == NIF))
      && (s != [] && !IsUpper(s[0]) && !IsDigit(s[0]) ==> r == (false, INVALID))
  {
    var s := Normalize(document);
    if s != [] {
      ValidateNormalized(document);
      DispatchBranches(s);
    }
  }

  lemma DispatchBranches(s: string)
    requires s != []
    ensures s[0] in "XYZ" ==> Dispatch(s) == (if ValidateNie(s) then (true, NIE) else (false, INVALID))
    ensures IsUpper(s[0]) && s[0] !in "XYZ" ==> Dispatch(s) == (if ValidateCif(s) then (true, CIF) else (false, INVALID))
    ensures IsDigit(s[0]) ==> Dispatch(s) == (if ValidateNif(s) then (true, NIF) else (false, INVALID))
    ensures !IsUpper(s[0]) && !IsDigit(s[0]) ==> Dispatch(s) == (false, INVALID)
  {
    var c := s[0];
    assert c in "XYZ" <==> c == 'X' || c == 'Y' || c == 'Z';
    if c in "XYZ" {
      assert IsUpper(c) && !IsDigit(c);
    } else if IsUpper(c) {
      assert !IsDigit(c);
    }
  }

  /** `format_document`. */
  function FormatDocument(document: string): (r: string)
    ensures document == [] ==> r == []
    ensures Trimmed(r) && '-' !in r && ' ' !in r && NoLower(r)
  {
    if document == [] then [] else Normalize(document)
  }

  lemma FormatDocumentIdempotent(document: string)
    ensures FormatDocument(FormatDocument(document)) == FormatDocument(document)
  {
    NormalizeIdempotent(document);
  }

  /** Every validator gives the same answer on a document and on its formatted form. */
  lemma FormattedValidatesAlike(document: string)
    ensures ValidateNif(FormatDocument(document)) == ValidateNif(document)
    ensures ValidateNie(FormatDocument(document)) == ValidateNie(document)
    ensures ValidateCif(FormatDocument(document)) == ValidateCif(document)
  {
    NormalizeIdempotent(document);
  }

  lemma FormattedDispatchesAlike(document: string)
    ensures ValidateDocument(FormatDocument(document)) == ValidateDocument(document)
  {
    var f := FormatDocument(document);
    if f != [] {
      NormalizeIdempotent(document);
      assert Normalize(f) == Normalize(document);
    }
  }

  // ---------------------------------------------------------------- as written

  /**
   * `validate_nif` with strip-before-delete: a normalised string of nine NIF
   * characters and a final "\n" still matches `^\d{8}[A-Z]$`, and then
   * `int(nif[:-1])` meets the letter and raises.
   */
  function ValidateNifAsWritten(nif: string): (r: Outcome)
    ensures r == Returns(true) ==> ValidateNif(nif)
  {
    if nif == [] then Returns(false)
    else
      var s := NormalizeAsWritten(nif);
      if NifShape(s) then
        AsWrittenNifShape(nif);
        Returns(s[8] == NifLetter(NatOf(s[..8])))
      else if |s| == 10 && s[9] == '\n' && NifShape(s[..9]) then RaisesValueError
      else Returns(false)
  }

  /** When the as-written normal form already has the NIF shape, the two normal forms agree. */
  lemma AsWrittenNifShape(nif: string)
    requires NifShape(NormalizeAsWritten(nif))
    ensures Normalize(nif) == NormalizeAsWritten(nif)
  {
    var s := NormalizeAsWritten(nif);
    assert Alnum(s) by { NifShapeAlnum(s); }
    AlnumPlain(s);
    StripTrimmed(s);
    NormalizeStripsAsWritten(nif);
  }

  lemma NifShapeAlnum(s: string)
    requires NifShape(s)
    ensures Alnum(s)
  {
    forall k | 0 <= k < |s| ensures IsUpper(s[k]) || IsDigit(s[k]) {
      if k < 8 { assert s[k] == s[..8][k]; }
    }
  }

  /** `format_document` with strip-before-delete. */
  function FormatDocumentAsWritten(document: string): (r: string)
    ensures '-' !in r && ' ' !in r
  {
    if document == [] then [] else NormalizeAsWritten(document)
  }

  /** As written, a valid NIF followed by a newline and a dash makes `validate_nif` raise. */
  lemma NifNewlineDashRaises(digits: string, c: char)
    requires |digits| == 8 && AllDigits(digits) && c == NifLetter(NatOf(digits))
    ensures ValidateNifAsWritten(digits + [c] + "\n-") == RaisesValueError
    ensures ValidateNif(digits + [c] + "\n-")
  {
    var x := digits + [c];
    DigitsLetterShape(digits, c);
    NifShapeAlnum(x);
    AsWrittenKeepsNewline(x);
    NewlineShapeRaises(x + "\n-", x);
    ValidateNifOfNormal(x + "\n-", x);
  }

  lemma DigitsLetterShape(digits: string, c: char)
    requires |digits| == 8 && AllDigits(digits) && IsUpper(c)
    ensures NifShape(digits + [c]) && (digits + [c])[..8] == digits && (digits + [c])[8] == c
  {
    assert (digits + [c])[..8] == digits;
  }

  /** A NIF followed by a newline after the as-written normalisation is the case `validate_nif` raises on. */
  lemma NewlineShapeRaises(y: string, x: string)
    requires y != [] && NifShape(x) && NormalizeAsWritten(y) == x + "\n"
    ensures ValidateNifAsWritten(y) == RaisesValueError
  {
    var t := x + "\n";
    assert t[..9] == x && |t| == 10 && t[9] == '\n';
    assert !NieShape(t);
  }

  /** Whatever normalises to a NIF with its control letter is a valid NIF. */
  lemma ValidateNifOfNormal(y: string, x: string)
    requires y != [] && Normalize(y) == x && NifShape(x) && x[8] == NifLetter(NatOf(x[..8]))
    ensures ValidateNif(y)
  {
  }

  /** As written, formatting is not idempotent: the second pass strips what the first left behind. */
  lemma FormatDocumentAsWrittenNotIdempotent(x: string)
    requires x != [] && Alnum(x)
    ensures FormatDocumentAsWritten(x + "\n-") == x + "\n"
    ensures FormatDocumentAsWritten(x + "\n") == x
  {
    AsWrittenKeepsNewline(x);
    AsWrittenNewline(x);
  }

  lemma AsWrittenNewline(x: string)
    requires Alnum(x)
    ensures NormalizeAsWritten(x + "\n") == x
  {
    NewlineNoLower(x);
    UpperOfNoLower(x + "\n");
    AlnumPlain(x);
    StripNewline(x);
  }

  lemma NewlineNoLower(x: string)
    requires Alnum(x)
    ensures NoLower(x + "\n")
  {
    var t := x + "\n";
    forall k | 0 <= k < |t| ensures !IsLower(t[k]) {
      if k < |x| { assert t[k] == x[k]; assert IsUpper(x[k]) || IsDigit(x[k]); }
    }
  }

  // ---------------------------------------------------------------- as written: NIE, CIF and dispatch

  lemma NieShapeAlnum(s: string)
    requires NieShape(s)
    ensures Alnum(s)
  {
    assert IsUpper(s[0]) by { assert s[0] in "XYZ"; }
    forall k | 0 < k < 8 ensures IsDigit(s[k]) {
      assert s[k] == s[1..8][k - 1];
    }
  }

  lemma CifShapeAlnum(s: string)
    requires CifShape(s)
    ensures Alnum(s)
  {
    forall k | 0 < k < 8 ensures IsDigit(s[k]) {
      assert s[k] == s[1..8][k - 1];
    }
  }

  /**
   * `validate_nie` with strip-before-delete: as for the NIF, a final "\n"
   * passes `$`, and `int()` of the prefix digit and `nie[1:-1]` then meets
   * the control letter and raises.
   */
  function ValidateNieAsWritten(nie: string): (r: Outcome)
    ensures r == Returns(true) ==> ValidateNie(nie)
  {
    if nie == [] then Returns(false)
    else
      var s := NormalizeAsWritten(nie);
      if NieShape(s) then
        NieShapeAlnum(s);
        AsWrittenAlnum(nie);
        Returns(s[8] == NifLetter(NieNumber(s)))
      else if |s| == 10 && s[9] == '\n' && NieShape(s[..9]) then RaisesValueError
      else Returns(false)
  }

  /** As written, a valid NIE followed by a newline and a dash makes `validate_nie` raise. */
  lemma NieNewlineDashRaises(x: string)
    requires NieShape(x) && x[8] == NifLetter(NieNumber(x))
    ensures ValidateNieAsWritten(x + "\n-") == RaisesValueError
    ensures ValidateNie(x + "\n-")
  {
    NieShapeAlnum(x);
    AsWrittenKeepsNewline(x);
    NieNewlineRaises(x + "\n-", x);
  }

  lemma NieNewlineRaises(y: string, x: string)
    requires y != [] && NieShape(x) && NormalizeAsWritten(y) == x + "\n"
    ensures ValidateNieAsWritten(y) == RaisesValueError
  {
    var t := x + "\n";
    assert t[..9] == x && |t| == 10 && t[9] == '\n';
    assert !NieShape(t);
  }

  /**
   * `validate_cif` with strip-before-delete. A final "\n" passes `$`, and
   * the type, the digits and the control character are then read from the
   * first nine characters, so the newline does no harm; any other
   * whitespace left behind fails the pattern.
   */
  function ValidateCifAsWritten(cif: string): (ok: bool)
    ensures ok ==> ValidateCif(cif)
  {
    if cif == [] then false
    else
      var s := NormalizeAsWritten(cif);
      if CifShape(s) then
        CifShapeAlnum(s);
        AsWrittenAlnum(cif);
        CifAccepts(s)
      else if |s| == 10 && s[9] == '\n' && CifShape(s[..9]) then
        CifNewlineNormal(cif);
        CifAccepts(s[..9])
      else false
  }

  lemma CifNewlineNormal(cif: string)
    requires var s := NormalizeAsWritten(cif); |s| == 10 && s[9] == '\n' && CifShape(s[..9])
    ensures Normalize(cif) == NormalizeAsWritten(cif)[..9]
  {
    var s := NormalizeAsWritten(cif);
    CifShapeAlnum(s[..9]);
    StripFinalNewline(s);
    NormalizeStripsAsWritten(cif);
  }

  lemma StripFinalNewline(s: string)
    requires |s| == 10 && s[9] == '\n' && Alnum(s[..9])
    ensures Strip(s) == s[..9]
  {
    var x := s[..9];
    assert s == x + "\n";
    AlnumPlain(x);
    StripNewline(x);
  }

  /** As written, a valid CIF followed by a tab and a dash is refused; the intended validator accepts it. */
  lemma CifTabDashRefused(x: string)
    requires CifShape(x) && CifAccepts(x)
    ensures !ValidateCifAsWritten(x + "\t-")
    ensures ValidateCif(x + "\t-")
  {
    CifShapeAlnum(x);
    AsWrittenTabDash(x);
    CifTabLeft(x + "\t-", x + ['\t']);
    CifOfNormal(x + "\t-", x);
  }

  lemma CifTabLeft(y: string, s: string)
    requires y != [] && NormalizeAsWritten(y) == s && |s| == 10 && s[9] == '\t'
    ensures !ValidateCifAsWritten(y)
  {
  }

  lemma CifOfNormal(y: string, x: string)
    requires y != [] && Normalize(y) == x && CifShape(x) && CifAccepts(x)
    ensures ValidateCif(y)
  {
  }

  /** What `validate_document` does as written: a verdict, or the `ValueError` a validator raises. */
  datatype DocumentOutcome = Verdict(result: (bool, DocumentType)) | DocumentRaises

  /** `validate_document` with strip-before-delete; the validators it calls clean the string again. */
  function ValidateDocumentAsWritten(document: string): (r: DocumentOutcome)
    ensures document == [] ==> r == Verdict((false, INVALID))
  {
    if document == [] then Verdict((false, INVALID)) else DispatchAsWritten(NormalizeAsWritten(document))
  }

  /** The branches of `validate_document`, each calling its validator as written. */
  function DispatchAsWritten(s: string): DocumentOutcome
  {
    if s == [] then Verdict((false, INVALID))
    else ChooseAsWritten(s[0], ValidateNieAsWritten(s), ValidateCifAsWritten(s), ValidateNifAsWritten(s))
  }

  /** The branch taken on the first character; the validator it calls may raise. */
  function ChooseAsWritten(c: char, nie: Outcome, cif: bool, nif: Outcome): DocumentOutcome
  {
    if c in "XYZ" then
      match nie
      case Returns(ok) => Verdict(if ok then (true, NIE) else (false, INVALID))
      case RaisesValueError => DocumentRaises
    else if IsUpper(c) then
      Verdict(if cif then (true, CIF) else (false, INVALID))
    else if IsDigit(c) then
      match nif
      case Returns(ok) => Verdict(if ok then (true, NIF) else (false, INVALID))
      case RaisesValueError => DocumentRaises
    else Verdict((false, INVALID))
  }

  /**
   * As written, `validate_document` never raises: the validators' second
   * clean-up strips what the first one left behind. Its verdict is the
   * intended dispatch, but on the as-written clean string, whose first
   * character may still be whitespace.
   */
  lemma DocumentAsWrittenDispatch(document: string)
    ensures ValidateDocumentAsWritten(document)
      == Verdict(if document == [] then (false, INVALID) else Dispatch(NormalizeAsWritten(document)))
  {
    if document != [] {
      RenormalizeAsWritten(document);
      DispatchOfClean(NormalizeAsWritten(document));
    }
  }

  lemma DispatchOfClean(d: string)
    requires NormalizeAsWritten(d) == Normalize(d)
    ensures DispatchAsWritten(d) == Verdict(Dispatch(d))
  {
    if d != [] {
      CleanValidators(d);
      ChosenAlike(d[0], ValidateNie(d), ValidateCif(d), ValidateNif(d));
    }
  }

  /** When no validator raises, the branch taken as written is the intended one. */
  lemma ChosenAlike(c: char, nie: bool, cif: bool, nif: bool)
    ensures ChooseAsWritten(c, Returns(nie), cif, Returns(nif)) == Verdict(Choose(c, nie, cif, nif))
  {
  }

  /** On a string both clean-ups leave alike, each validator as written returns the intended answer. */
  lemma CleanValidators(d: string)
    requires d != [] && NormalizeAsWritten(d) == Normalize(d)
    ensures ValidateNifAsWritten(d) == Returns(ValidateNif(d))
    ensures ValidateNieAsWritten(d) == Returns(ValidateNie(d))
    ensures ValidateCifAsWritten(d) == ValidateCif(d)
  {
    NoFinalNewline(Normalize(d));
    CleanNif(d);
    CleanNie(d);
    CleanCif(d);
  }

  lemma NoFinalNewline(s: string)
    requires Trimmed(s)
    ensures |s| == 10 ==> s[9] != '\n'
  {
  }

  lemma CleanNif(d: string)
    requires d != [] && NormalizeAsWritten(d) == Normalize(d)
    requires |Normalize(d)| == 10 ==> Normalize(d)[9] != '\n'
    ensures ValidateNifAsWritten(d) == Returns(ValidateNif(d))
  {
  }

  lemma CleanNie(d: string)
    requires d != [] && NormalizeAsWritten(d) == Normalize(d)
    requires |Normalize(d)| == 10 ==> Normalize(d)[9] != '\n'
    ensures ValidateNieAsWritten(d) == Returns(ValidateNie(d))
  {
  }

  lemma CleanCif(d: string)
    requires d != [] && NormalizeAsWritten(d) == Normalize(d)
    requires |Normalize(d)| == 10 ==> Normalize(d)[9] != '\n'
    ensures ValidateCifAsWritten(d) == ValidateCif(d)
  {
  }

  /**
   * As written, a dash and a tab before a valid NIF leave the tab in front,
   * and the document is INVALID; the intended normal form is the NIF.
   */
  lemma DocumentDashTabInvalid(x: string)
    requires NifShape(x) && x[8] == NifLetter(NatOf(x[..8]))
    ensures ValidateDocumentAsWritten("-\t" + x) == Verdict((false, INVALID))
    ensures ValidateDocument("-\t" + x) == (true, NIF)
  {
    NifShapeAlnum(x);
    AsWrittenDashTab(x);
    TabLeadInvalid("\t" + x);
    NifDispatched(x);
  }

  lemma TabLeadInvalid(s: string)
    requires s != [] && s[0] == '\t'
    ensures DispatchAsWritten(s) == Verdict((false, INVALID))
  {
    assert s[0] !in "XYZ";
  }

  lemma NifDispatched(x: string)
    requires NifShape(x) && x[8] == NifLetter(NatOf(x[..8]))
    ensures Dispatch(x) == (true, NIF)
  {
    NifShapeAlnum(x);
    NormalizeAlnum(x);
    assert IsDigit(x[0]) by { assert x[0] == x[..8][0]; }
    DispatchBranches(x);
  }
}
