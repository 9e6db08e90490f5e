# ContaCat core, modelled in Dafny

ContaCat is a small ERP for Spanish and Catalan companies. This project models its domain layer and proves properties of that model:

- **Identifier validators.** The control characters of the NIF/DNI, the NIE and the CIF; IBAN structure (ISO 13616-1) with the MOD 97-10 check of ISO/IEC 7064; the mod-97 control digits of Social Security numbers.
- **Payroll arithmetic.** The IRPF withholding table with its reductions and its clamp; Social Security contribution groups, the clamped contribution base and the cent-rounded contributions; the payroll record of a month.
- **Sales documents.** Quotes, sales orders and sales invoices, with cent-rounded line amounts and totals, the VAT breakdown, validation and status machines. Their services handle partner checks, numbering, due dates, posting to the journal and payment.
- **Purchases.** Purchase orders and supplier invoices, with their totals, transitions, numbering, posting and payments.
- **Bookkeeping.** Journal lines and entries; account balances as folds over the posted entries; the trial balance; the balance sheet and the profit and loss account of the Spanish chart of accounts; the data of VAT form 303.
- **Ledgers and registries.** Inventory movements that never take stock below zero; fiscal years that never overlap; manual bank reconciliation; linear asset depreciation capped at the residual value; accounts, partners, budgets, audit diffs, document uploads, file-name sanitising and the company address.

Code whose source changes state step by step is modelled as classes with `modifies` clauses and loops with invariants. Pure computations are modelled as functions and lemmas. Repositories are sequences or maps held in a class. Decimal amounts are exact reals, and the one rounding the code does, `quantize(Decimal("0.01"))`, is `Money.Quantize`: round half to even, as in Python's default decimal context. Identifiers the system generates are inputs to the model, and so are today's date and the current time.

Every module lives in its own file, named after the source file it models. `Wrappers`, `Text`, `Money` and `Dates` hold the shared helpers: Option and Result, the parts of Python's `str` the code uses, cent rounding, and `datetime.date` arithmetic.

## Model

| member | source | states |
|---|---|---|
| Normalization.NormalizeAsWritten | app/domain/validators/nif_cif_validator.py:28 | the clean-up in the order the validators write it (strip before deleting); no dash or space is left |
| Normalization.Normalize | app/domain/validators/nif_cif_validator.py:28 | the intended clean-up: no surrounding whitespace, no dash, no space, no lower-case letter |
| Normalization.NormalizeLength | app/domain/validators/nif_cif_validator.py:124 | normalising never lengthens a document, and the empty document stays empty |
| Normalization.NormalizeFixed | app/domain/validators/nif_cif_validator.py:153 | a string already in normal form is left unchanged |
| Normalization.NormalizeAlnum | app/domain/validators/nif_cif_validator.py:153 | a string of upper-case letters and digits is already normal |
| Normalization.NormalizeIdempotent | app/domain/validators/nif_cif_validator.py:153 | normalising twice gives what normalising once gives |
| Normalization.NormalizeStripsAsWritten | app/domain/validators/nif_cif_validator.py:28 | the intended normal form is the as-written one with its leftover whitespace stripped |
| Normalization.NormalizeIgnoresSeparator | app/domain/validators/nif_cif_validator.py:124 | a dash or a space inserted anywhere does not change the normal form |
| Normalization.NormalizeIgnoresCase | app/domain/validators/nif_cif_validator.py:124 | lower-case input has the same normal form as upper-case input |
| NifCifValidator.NifLetter | app/domain/validators/nif_cif_validator.py:11 | the control letter of a number, taken from the 23-letter table by the remainder mod 23, is an upper-case letter |
| NifCifValidator.ValidateNif | app/domain/validators/nif_cif_validator.py:20-41 | an accepted NIF is non-empty and its normal form is eight digits and a letter |
| NifCifValidator.NifControl | app/domain/validators/nif_cif_validator.py:31-41 | eight digits and an upper-case letter are accepted exactly when the letter is the control letter of the number |
| NifCifValidator.NifLetterUnique | app/domain/validators/nif_cif_validator.py:39-41 | each 8-digit number has exactly one accepted letter |
| NifCifValidator.NiePrefixDigit | app/domain/validators/nif_cif_validator.py:59 | X, Y and Z stand for the digits 0, 1 and 2 |
| NifCifValidator.ValidateNie | app/domain/validators/nif_cif_validator.py:44-67 | an accepted NIE is non-empty and its normal form is X, Y or Z, seven digits and a letter |
| NifCifValidator.NieAsNif | app/domain/validators/nif_cif_validator.py:58-67 | an NIE is accepted exactly when the NIF with the prefix replaced by its digit is |
| NifCifValidator.DoubledDigitSum | app/domain/validators/nif_cif_validator.py:97-98 | the digit sum of a doubled digit is at most 9 and congruent to it mod 9 |
| NifCifValidator.CifControlDigit | app/domain/validators/nif_cif_validator.py:94-102 | the control digit is below 10 and brings the weighted sum to a multiple of ten |
| NifCifValidator.ValidateCif | app/domain/validators/nif_cif_validator.py:70-113 | an accepted CIF is non-empty, has the letter-seven-digits-control shape and an allowed organisation letter |
| NifCifValidator.CifControl | app/domain/validators/nif_cif_validator.py:85-113 | a well-shaped CIF is accepted exactly when its control is the letter (types N, P, Q, R, S, W) or the digit or the letter (the rest) for its control digit |
| NifCifValidator.ValidateDocument | app/domain/validators/nif_cif_validator.py:116-144 | the verdict is valid exactly when a type is named; the empty document is INVALID |
| NifCifValidator.Dispatch | app/domain/validators/nif_cif_validator.py:126-144 | after normalisation, the verdict is valid exactly when a type is named |
| NifCifValidator.ValidateNormalized | app/domain/validators/nif_cif_validator.py:128-140 | each validator gives the same answer on a normalised document as on the original |
| NifCifValidator.DocumentDispatch | app/domain/validators/nif_cif_validator.py:121-144 | the document's verdict is that of the branch its first normalised character selects |
| NifCifValidator.DispatchBranches | app/domain/validators/nif_cif_validator.py:127-144 | X, Y or Z goes only to the NIE check, another letter only to the CIF check, a digit only to the NIF check, anything else is INVALID, with no fallback |
| NifCifValidator.FormatDocument | app/domain/validators/nif_cif_validator.py:147-153 | the empty document formats to ""; a formatted document has no surrounding whitespace, dash, space or lower-case letter |
| NifCifValidator.FormatDocumentIdempotent | app/domain/validators/nif_cif_validator.py:147-153 | formatting twice gives what formatting once gives |
| NifCifValidator.FormattedValidatesAlike | app/domain/validators/nif_cif_validator.py:147-153 | every validator answers the same on a document and on its formatted form |
| NifCifValidator.FormattedDispatchesAlike | app/domain/validators/nif_cif_validator.py:116-153 | validate_document answers the same on a document and on its formatted form |
| NifCifValidator.ValidateNifAsWritten | app/domain/validators/nif_cif_validator.py:20-41 | as written (strip before delete, `$` before a final newline, `int` raising), a true answer implies the intended validator accepts |
| NifCifValidator.AsWrittenNifShape | app/domain/validators/nif_cif_validator.py:28-32 | when the as-written normal form already has the NIF shape, both normal forms agree |
| NifCifValidator.FormatDocumentAsWritten | app/domain/validators/nif_cif_validator.py:153 | as written, formatting leaves no dash or space |
| Normalization.AsWrittenKeepsNewline | app/domain/validators/nif_cif_validator.py:28 | as written, "x\n-" normalises to "x\n", where the intended form is "x" |
| NifCifValidator.NifNewlineDashRaises | app/domain/validators/nif_cif_validator.py:28-35 | as written, a valid NIF followed by a newline and a dash passes the shape check and then raises ValueError, while the intended validator accepts it |
| NifCifValidator.FormatDocumentAsWrittenNotIdempotent | app/domain/validators/nif_cif_validator.py:153 | as written, formatting "x\n-" gives "x\n" and formatting again gives "x": not idempotent |
| Normalization.AsWrittenNoLower | app/domain/validators/nif_cif_validator.py:52 | the as-written clean-up leaves no lower-case letter |
| Normalization.AsWrittenAlnum | app/domain/validators/nif_cif_validator.py:52 | when the as-written clean-up leaves only letters and digits, it agrees with the intended one |
| Normalization.RenormalizeAsWritten | app/domain/validators/nif_cif_validator.py:124 | cleaning the as-written clean form again, in either order, only strips its surrounding whitespace |
| Normalization.AsWrittenSpaceDash | app/domain/validators/nif_cif_validator.py:52 | as written, letters and digits followed by a non-space character and a dash keep that character |
| Normalization.NormalizeSpaceDash | app/domain/validators/nif_cif_validator.py:52 | the intended clean-up drops a whitespace character and a dash after letters and digits |
| Normalization.AsWrittenDashSpace | app/domain/validators/nif_cif_validator.py:124 | as written, a dash and a non-space character before letters and digits leave that character in front |
| Normalization.NormalizeDashSpace | app/domain/validators/nif_cif_validator.py:124 | the intended clean-up drops a dash and a whitespace character before letters and digits |
| Normalization.AsWrittenTabDash | app/domain/validators/nif_cif_validator.py:78 | as written, "x\t-" cleans to "x\t", where the intended form is "x" |
| Normalization.AsWrittenDashTab | app/domain/validators/nif_cif_validator.py:124 | as written, "-\tx" cleans to "\tx", where the intended form is "x" |
| Normalization.UpperStripIdentity | app/domain/validators/nif_cif_validator.py:52 | upper-casing and stripping change nothing on a trimmed string without lower-case letters |
| NifCifValidator.ValidateNieAsWritten | app/domain/validators/nif_cif_validator.py:44-67 | as written (strip before delete, `$` before a final newline, `int` raising), a true answer implies the intended NIE validator accepts |
| NifCifValidator.NieNewlineDashRaises | app/domain/validators/nif_cif_validator.py:52-67 | as written, a valid NIE followed by a newline and a dash raises ValueError; the intended clean-up accepts it |
| NifCifValidator.ValidateCifAsWritten | app/domain/validators/nif_cif_validator.py:70-113 | as written, an accepted CIF is accepted by the intended validator too |
| NifCifValidator.CifTabDashRefused | app/domain/validators/nif_cif_validator.py:78 | as written, a valid CIF followed by a tab and a dash is refused; the intended clean-up accepts it |
| NifCifValidator.Choose | app/domain/validators/nif_cif_validator.py:126-144 | the branch verdict is valid exactly when it names a type |
| NifCifValidator.ValidateDocumentAsWritten | app/domain/validators/nif_cif_validator.py:116-144 | as written, the empty document is INVALID |
| NifCifValidator.DocumentAsWrittenDispatch | app/domain/validators/nif_cif_validator.py:116-144 | as written, validate_document never raises: its verdict is the intended dispatch applied to the as-written clean string |
| NifCifValidator.DocumentDashTabInvalid | app/domain/validators/nif_cif_validator.py:124 | as written, a valid NIF after a dash and a tab is INVALID; the intended clean-up finds a NIF |
| IbanValidator.CharDigits | app/domain/validators/iban_validator.py:54-58 | a digit stands for itself and a letter for its number 10..35: always a non-empty digit string |
| IbanValidator.Digits | app/domain/validators/iban_validator.py:53-58 | the expanded string the loop builds consists of digits only |
| IbanValidator.DigitsAppend | app/domain/validators/iban_validator.py:53-58 | expansion distributes over concatenation |
| IbanValidator.DigitsOfDigits | app/domain/validators/iban_validator.py:55-56 | a string of digits expands to itself |
| IbanValidator.ValidateIban | app/domain/validators/iban_validator.py:24-61 | an accepted IBAN is non-empty, its normal form has the two-letters-two-digits-alphanumerics shape and the length its country requires (15 to 34 for an unknown country) |
| IbanValidator.IbanCheck | app/domain/validators/iban_validator.py:35-61 | country, check digits and BBAN are accepted exactly when the length fits and the MOD 97 condition holds |
| IbanValidator.ValidateNormal | app/domain/validators/iban_validator.py:39-61 | on a well-shaped normal string, the verdict is the length rule and remainder 1 of the rearranged number |
| IbanValidator.IbanNumberOf | app/domain/validators/iban_validator.py:50-61 | the rearranged number leaves remainder 1 exactly when BBAN, country and check digits read as one number do |
| IbanValidator.RearrangedParts | app/domain/validators/iban_validator.py:50 | moving the first four characters to the end puts the check digits last, as the two lowest decimal places |
| IbanValidator.CheckDigits | app/domain/validators/iban_validator.py:8 | the ISO 13616 check digits of a country and BBAN are two digits between 02 and 98 |
| IbanValidator.CheckDigitsValid | app/domain/validators/iban_validator.py:24-61 | an IBAN built with the computed check digits is accepted whenever its length fits |
| IbanValidator.CheckDigitsHold | app/domain/validators/iban_validator.py:61 | the computed check digits satisfy the MOD 97 condition |
| IbanValidator.IbanIgnoresSeparator | app/domain/validators/iban_validator.py:32 | inserting a dash or a space does not change the verdict |
| IbanValidator.IbanIgnoresCase | app/domain/validators/iban_validator.py:32 | lower-case input gets the same verdict |
| IbanValidator.IbanNormalizeOrder | app/domain/validators/iban_validator.py:32 | deleting spaces before dashes gives the same clean-up as deleting dashes first |
| IbanValidator.Groups | app/domain/validators/iban_validator.py:76 | the groups concatenate back to the string, each holds 1 to 4 characters and all but the last exactly 4 |
| IbanValidator.FormatIban | app/domain/validators/iban_validator.py:64-76 | the empty IBAN formats to "" |
| IbanValidator.GroupsUnjoin | app/domain/validators/iban_validator.py:76 | deleting the spaces of the grouped form gives the string back without spaces |
| IbanValidator.FormatIbanUnformat | app/domain/validators/iban_validator.py:64-76 | deleting the spaces of a formatted IBAN gives its normal form |
| IbanValidator.CountryCode | app/domain/validators/iban_validator.py:79-87 | an input shorter than two characters has no country; otherwise the country is the first two normalised characters (fewer if the normal form is shorter) |
| IbanValidator.SpanishIban | app/domain/validators/iban_validator.py:90-94 | an IBAN is Spanish exactly when its normal form starts with "ES" |
| IbanValidator.CleanAsWritten | app/domain/validators/iban_validator.py:32 | deleting spaces and then dashes after stripping is the shared as-written clean-up |
| IbanValidator.ValidateIbanAsWritten | app/domain/validators/iban_validator.py:24-61 | as written (strip before delete, `$` before a final newline, and a newline expanding to "-45" so that `int` raises), a true answer implies the intended validator accepts |
| IbanValidator.VerdictAsWritten | app/domain/validators/iban_validator.py:35-61 | on the as-written clean string, an accepted IBAN has the shape, the length its country needs and remainder 1 |
| IbanValidator.AcceptedAsWritten | app/domain/validators/iban_validator.py:32 | when the as-written clean form has the IBAN shape, it is the intended clean form |
| IbanValidator.IbanTabDashRefused | app/domain/validators/iban_validator.py:32 | as written, a valid IBAN followed by a tab and a dash is refused; the intended clean-up accepts it |
| IbanValidator.IbanNewlineDashRaises | app/domain/validators/iban_validator.py:32-61 | as written, a well-shaped IBAN followed by a newline and a dash, with the length its country needs counting the newline, raises ValueError in `int` |
| IbanValidator.FormatIbanAsWritten | app/domain/validators/iban_validator.py:64-76 | as written, the empty IBAN formats to "", and deleting the spaces of the result gives the as-written clean form |
| IbanValidator.FormatIbanKeepsTab | app/domain/validators/iban_validator.py:73 | as written, a tab before a final dash survives into the grouped form; the intended form drops it |
| IbanValidator.CountryCodeAsWritten | app/domain/validators/iban_validator.py:79-87 | as written, no country for fewer than two raw characters; otherwise a prefix of the as-written clean form, two characters unless it is shorter |
| IbanValidator.DashTabNotSpanish | app/domain/validators/iban_validator.py:86 | as written, a dash and a tab before a Spanish IBAN give the country code tab and "E", so it is not Spanish; the intended country is "ES" |
| NssValidator.Clean | app/domain/validators/nss_validator.py:20 | the intended clean-up: no surrounding whitespace, space, dash or slash is left |
| NssValidator.CleanFixed | app/domain/validators/nss_validator.py:20 | a string with nothing to delete and nothing to strip is already clean |
| NssValidator.CleanIdempotent | app/domain/validators/nss_validator.py:20 | cleaning twice gives what cleaning once gives |
| NssValidator.CleanDigits | app/domain/validators/nss_validator.py:20-23 | a string of digits is left as it is |
| NssValidator.ValidateNss | app/domain/validators/nss_validator.py:11-40 | an accepted number is non-empty and its clean form is exactly twelve digits |
| NssValidator.NssControl | app/domain/validators/nss_validator.py:23-40 | ten digits and two control digits are accepted exactly when the province is not 00 and the control is the first ten digits modulo 97 |
| NssValidator.NssControlDigits | app/domain/validators/nss_validator.py:37-38 | the control of a ten-digit prefix is two digits |
| NssValidator.NssControlDigitsValid | app/domain/validators/nss_validator.py:32-40 | appending the computed control makes a prefix valid exactly when its province is not 00 |
| NssValidator.NssControlUnique | app/domain/validators/nss_validator.py:37-40 | the computed control digits are the only ones accepted |
| NssValidator.ProvinceZeroRejected | app/domain/validators/nss_validator.py:32-34 | a number whose clean form starts with 00 is never accepted |
| NssValidator.FormatNss | app/domain/validators/nss_validator.py:43-58 | "" for the empty input; the clean form when it is not twelve characters long; otherwise fourteen characters with slashes at positions 2 and 11 |
| NssValidator.Slashed | app/domain/validators/nss_validator.py:58 | the formatted number is fourteen characters with slashes at positions 2 and 11 |
| NssValidator.SlashedMembers | app/domain/validators/nss_validator.py:58 | the slashes are the only characters formatting adds |
| NssValidator.UnslashSlashed | app/domain/validators/nss_validator.py:58 | deleting the slashes of a formatted twelve-character number gives it back |
| NssValidator.CleanSlashed | app/domain/validators/nss_validator.py:52-58 | cleaning a formatted clean number gives the number back |
| NssValidator.FormatNssUnslash | app/domain/validators/nss_validator.py:43-58 | deleting the slashes of a formatted number gives its clean form |
| NssValidator.FormatNssIdempotent | app/domain/validators/nss_validator.py:43-58 | formatting a formatted number changes nothing |
| NssValidator.GetProvinceCode | app/domain/validators/nss_validator.py:61-69 | the corrected order (delete, then strip): nothing for fewer than two raw characters; otherwise a prefix of the clean form, two characters long unless the clean form is shorter |
| NssValidator.GetProvinceCodeAsWritten | app/domain/validators/nss_validator.py:61-69 | as written (strip, then delete): nothing for fewer than two raw characters; otherwise a prefix of the as-written clean form, two characters long unless that form is shorter |
| NssValidator.ProvinceAgreesWhenValid | app/domain/validators/nss_validator.py:61-69 | on a number the as-written validation accepts, both orders give the same province |
| NssValidator.ProvinceDashTab | app/domain/validators/nss_validator.py:68 | for "-\t" before a valid number, the as-written province is the tab and the first digit, and the corrected one is the first two digits |
| NssValidator.ValidProvince | app/domain/validators/nss_validator.py:27-34 | an accepted number has a non-zero two-digit province, and it leads the formatted number |
| NssValidator.RemoveShorter | app/domain/validators/nss_validator.py:20 | the clean-up never lengthens its input |
| NssValidator.NssNewlineSlash | app/domain/validators/nss_validator.py:20-58 | as written, twelve digits followed by "\n/" are accepted with a thirteen-character clean form and are left unformatted; the intended clean-up accepts and formats them |
| NssValidator.AsWrittenNewlineSlash | app/domain/validators/nss_validator.py:20-23 | as written, twelve digits followed by "\n/" pass the twelve-digit check with a clean form of thirteen characters, and format_nss returns them unformatted |
| NssValidator.FormatNssAsWrittenNotIdempotent | app/domain/validators/nss_validator.py:43-58 | as written, formatting is not idempotent on twelve digits followed by "\n/" |
| NssValidator.CleanAsWritten | app/domain/validators/nss_validator.py:20 | as written, no space, dash or slash is left, and the result is never longer than the input |
| NssValidator.CleanStripsAsWritten | app/domain/validators/nss_validator.py:20 | the intended clean form is the as-written one with its leftover whitespace stripped |
| NssValidator.MatchedIsClean | app/domain/validators/nss_validator.py:20-23 | what the as-written `^\d{12}$` match accepts is the intended clean form followed by at most a newline |
| NssValidator.ValidateNssAsWritten | app/domain/validators/nss_validator.py:11-40 | as written, an accepted number is accepted by the intended validator too |
| NssValidator.FormatNssAsWritten | app/domain/validators/nss_validator.py:43-58 | as written, deleting the slashes of the result gives the as-written clean form |
| NssValidator.NssDashTab | app/domain/validators/nss_validator.py:20 | as written, a valid number after a dash and a tab is refused; the intended clean-up accepts it |
| IrpfCalculator.FirstFit | app/domain/validators/irpf_calculator.py:67-70 | the loop with `break` stops at the first row the salary fits in, and no earlier row fits |
| IrpfCalculator.RetentionTableGraduated | app/domain/validators/irpf_calculator.py:18-25 | the rates of the 2024 table never decrease, the last row has no limit, and every rate lies in 0..45 |
| IrpfCalculator.BaseRetentionMonotone | app/domain/validators/irpf_calculator.py:66-70 | on a graduated table a larger salary never gets a lower base rate |
| IrpfCalculator.ChildrenReduction | app/domain/validators/irpf_calculator.py:28-34 | the children reduction lies in 0..6 points: nothing without children, 6 points from four children |
| IrpfCalculator.ChildrenReductionMonotone | app/domain/validators/irpf_calculator.py:73-78 | more children never give a smaller reduction |
| IrpfCalculator.DisabilityReduction | app/domain/validators/irpf_calculator.py:81-85 | 4 points from a 65 % degree, 2 points from 33 %, nothing below |
| IrpfCalculator.DisabilityReductionMonotone | app/domain/validators/irpf_calculator.py:81-85 | a higher degree never gives a smaller reduction |
| IrpfCalculator.Clamp | app/domain/validators/irpf_calculator.py:91-94 | the result lies in 0..45 and a value already there is kept |
| IrpfCalculator.ClampMonotone | app/domain/validators/irpf_calculator.py:91-94 | clamping preserves order |
| IrpfCalculator.CalculateRetention | app/domain/validators/irpf_calculator.py:44-96 | the percentage lies in 0..45, and a salary of zero or less withholds nothing |
| IrpfCalculator.RetentionIgnoresMaritalStatus | app/domain/validators/irpf_calculator.py:48 | the marital status does not change the percentage |
| IrpfCalculator.RetentionMonotoneInSalary | app/domain/validators/irpf_calculator.py:62-96 | a higher salary never lowers the percentage |
| IrpfCalculator.RetentionNonIncreasingInChildren | app/domain/validators/irpf_calculator.py:73-96 | more children never raise the percentage |
| IrpfCalculator.RetentionNonIncreasingInDisability | app/domain/validators/irpf_calculator.py:81-96 | a higher disability degree never raises the percentage |
| IrpfCalculator.RetentionWithoutReductions | app/domain/validators/irpf_calculator.py:66-96 | with no children and no disability, the percentage is the rate of the first bracket the salary fits in |
| IrpfCalculator.MonthlyRetentionAmount | app/domain/validators/irpf_calculator.py:99-106 | the withheld amount is in cents and within half a cent of salary times percentage over 100 |
| IrpfCalculator.NetSalary | app/domain/validators/irpf_calculator.py:109-119 | the net salary is within half a cent of the gross times the share not withheld |
| IrpfCalculator.NetSalaryBounds | app/domain/validators/irpf_calculator.py:109-119 | for a gross amount in cents and a percentage in 0..100, the net salary is in cents and between 0 and the gross |
| SocialSecurity.DefaultGroup | app/domain/hr/social_security.py:10-35 | a group built from number, name and bases keeps them and gets the dataclass's default percentages |
| SocialSecurity.GroupsTable | app/domain/hr/social_security.py:65-132 | the table holds exactly groups 1 to 11, each under its own number, with 0 < minimum base <= maximum base and the default percentages |
| SocialSecurity.DefaultPercentages | app/domain/hr/social_security.py:37-54 | the default percentages total 29.90 for the company and 6.35 for the worker |
| SocialSecurity.GetGroup | app/domain/hr/social_security.py:134-139 | a group is returned exactly for the numbers 1 to 11, otherwise the ValueError; the group carries its number and sound bases |
| SocialSecurity.GroupPercentages | app/domain/hr/social_security.py:37-54 | every group of the table charges the company 29.90 % and the worker 6.35 % |
| SocialSecurity.ClampBase | app/domain/hr/social_security.py:159-164 | the base lies between the group's minimum and maximum, is the gross salary when that already does, and the nearer bound otherwise |
| SocialSecurity.ContributionBase | app/domain/hr/social_security.py:141-164 | a base exists exactly for a valid group; it lies within the group's bounds and is the gross salary when that does |
| SocialSecurity.ContributionBaseMonotone | app/domain/hr/social_security.py:159-164 | a larger gross salary never gets a smaller base |
| SocialSecurity.Component | app/domain/hr/social_security.py:182 | each component is in cents and within half a cent of base times rate over 100 |
| SocialSecurity.CompanyContribution | app/domain/hr/social_security.py:166-190 | defined exactly for a valid group; the breakdown's base is the contribution base and the total is the sum of the four cent components |
| SocialSecurity.WorkerContribution | app/domain/hr/social_security.py:192-215 | defined exactly for a valid group; the breakdown's base is the contribution base and the total is the sum of the three cent components (no FOGASA) |
| SocialSecurity.CompanyTotalBound | app/domain/hr/social_security.py:177-190 | the company total is in cents and within two cents of 29.90 % of the base |
| SocialSecurity.WorkerTotalBound | app/domain/hr/social_security.py:203-215 | the worker total is in cents and within 1.5 cents of 6.35 % of the base |
| SocialSecurity.TotalContributions | app/domain/hr/social_security.py:217-246 | defined exactly for a valid group; it reports the base, both totals, and their sum as the general total |
| HrServices.LastDayOfMonth | app/domain/hr/services.py:104-107 | a date exists exactly for months 1..12 of years 1..9999; it is a valid date of that month and year, on the month's last day |
| HrServices.LastDayIsLast | app/domain/hr/services.py:104-107 | the day after the last day of a month lies in another month, or does not exist |
| HrServices.ComputePayroll | app/domain/hr/services.py:35-82 | a payroll is computed exactly for groups 1..11 and a valid month and year; it belongs to the employee and period, with the employee's salary as gross and IRPF percentage as rate |
| HrServices.PayrollFacts | app/domain/hr/services.py:40-82 | base and supplements add up to gross (the employee's split is kept when it does); net is gross less the worker's contribution and the withheld IRPF; both contributions are the calculator's totals; the IRPF base is the contribution base; the period runs from the 1st to the last day; 30 working days; DRAFT |
| HrServices.PayrollIrpfBaseClamped | app/domain/hr/services.py:73 | the IRPF base stays between the group's minimum and maximum base whatever the gross salary |
| HrServices.PayrollService.CalculatePayroll | app/domain/hr/services.py:29-86 | an unknown employee gives "Employee not found: <id>"; otherwise the computed payroll, which is appended to the payroll repository; a failed computation stores nothing |
| HrServices.NewEmployee | app/domain/hr/services.py:135-146 | the new employee keeps the given id, DNI and salary and starts active |
| HrServices.Deactivated | app/domain/hr/services.py:188-189 | the same employees remain; the one deactivated has only its active flag cleared, every other is unchanged |
| HrServices.DeactivatedOnlyFlag | app/domain/hr/services.py:188 | deactivation keeps the employee's identity, DNI, salary, terms, hire date and names |
| HrServices.DeactivatedIdempotent | app/domain/hr/services.py:182-189 | deactivating twice is deactivating once |
| HrServices.EmployeeService.CreateEmployee | app/domain/hr/services.py:116-151 | refused with "Ja existeix un empleat amb el DNI <dni>" exactly when the DNI is on file, storing nothing; otherwise the new active employee is stored under its id |
| HrServices.EmployeeService.DeactivateEmployee | app/domain/hr/services.py:182-189 | an unknown id gives "No s'ha trobat l'empleat amb ID <id>" and changes nothing; otherwise only that employee's flag is cleared |
| HrServices.EmployeeService.DeleteEmployee | app/domain/hr/services.py:203-209 | an unknown id gives "No s'ha trobat l'empleat amb ID <id>" and changes nothing; otherwise exactly that employee is removed |
| AccountingEntities.ValidateLine | app/domain/accounting/entities.py:41-53 | a line passes exactly when it is valid; a missing code and a negative side fail with their own messages, in the source's order |
| AccountingEntities.LineValidOneSide | app/domain/accounting/entities.py:36-53 | a valid line has a code and exactly one strictly positive side, and its amount is that side |
| AccountingEntities.TotalsAppend | app/domain/accounting/entities.py:70-78 | both totals are additive over concatenation of the lines |
| AccountingEntities.SumAmountsOfValid | app/domain/accounting/entities.py:36-39 | on valid lines the amounts add up to debit plus credit, and are positive for a non-empty entry |
| AccountingEntities.FirstInvalid | app/domain/accounting/entities.py:94-95 | the loop stops at the first invalid line; every earlier line is valid |
| AccountingEntities.ValidateEntry | app/domain/accounting/entities.py:85-102 | an entry passes exactly when it is valid; a blank description, fewer than two lines and an unbalanced entry fail with their own messages, in the source's order |
| AccountingEntities.ValidEntryMovesMoney | app/domain/accounting/entities.py:85-102 | a valid entry moves an equal, strictly positive amount on each side |
| AccountingEntities.ValidationIgnoresStatus | app/domain/accounting/entities.py:104-107 | validation does not look at the status, so a posted entry can be posted again |
| AccountingEntities.JournalEntry.Post | app/domain/accounting/entities.py:104-107 | the result is the validation verdict; the entry becomes POSTED when it passes and is unchanged otherwise |
| AccountingServices.FindAccount | app/domain/accounting/services.py:33 | an account is found exactly when one has the code; the one found has that code and is in the chart |
| AccountingServices.FindEntry | app/domain/accounting/services.py:104 | the position found holds the id and no earlier entry does; the end of the journal when none does |
| AccountingServices.DraftChangesNoBalance | app/domain/accounting/services.py:146-148 | a new draft entry changes no account's debit or credit totals |
| AccountingServices.PostingAddsEntry | app/domain/accounting/services.py:146-156 | posting a draft adds exactly its own lines on the account to the totals, when its date is not after the end date |
| AccountingServices.LedgerBalanced | app/domain/accounting/services.py:143-156 | when every stored entry balances, the posted debits of the whole ledger equal its posted credits |
| AccountingServices.ValidLedgerBalanced | app/domain/accounting/entities.py:97-102 | a journal of entries that passed validation is balanced as a whole |
| AccountingServices.FirstUnknown | app/domain/accounting/services.py:74-78 | the loop stops at the first line whose account does not exist; every earlier line's account exists |
| AccountingServices.NewEntry | app/domain/accounting/services.py:62-100 | succeeds exactly when every line's account exists and the draft entry validates, giving that draft; the first unknown account fails with "El compte <code> no existeix" |
| AccountingServices.TrialFoldKeys | app/domain/accounting/services.py:169-176 | the trial balance holds exactly the codes seen whose balance is non-zero, each with that balance |
| AccountingServices.AccountingService.CreateAccount | app/domain/accounting/services.py:23-47 | an existing code fails with "Ja existeix un compte amb el codi <code>" and changes nothing; otherwise the account is appended |
| AccountingServices.NextEntryNumber | app/infrastructure/persistence/accounting/repository.py:107-115 | 1 for an empty journal; otherwise one more than a stored number, and greater than every stored number |
| AccountingServices.AppendNextNumber | app/domain/accounting/services.py:69-70 | an entry numbered by the next number keeps the numbers distinct, and the next number after it is one more |
| AccountingServices.AccountingService.CreateJournalEntry | app/domain/accounting/services.py:62-100 | the result is the new-entry verdict for the journal's next number; the draft is appended only on success; every stored entry stays valid and entry numbers stay distinct |
| AccountingServices.AccountingService.PostJournalEntry | app/domain/accounting/services.py:102-113 | a missing id and an already posted entry fail with their messages; success exactly for a valid draft, which is replaced by its POSTED copy; every stored entry stays valid and entry numbers stay distinct |
| AccountingServices.AccountingService.GetAccountBalance | app/domain/accounting/services.py:130-162 | an unknown code fails with "El compte <code> no existeix"; otherwise the debit-minus-credit (or credit-minus-debit) balance over the posted entries up to the end date |
| AccountingServices.AccountingService.GetTrialBalance | app/domain/accounting/services.py:164-178 | exactly the accounts with a non-zero balance, keyed by code, each with its balance |
| Accounts.FindByCode | app/domain/accounts/services.py:28 | nothing is found exactly when no stored account has the code; what is found is stored and has the code |
| Accounts.NewAccount | app/domain/accounts/services.py:14-37 | the four checks in the source's order on the trimmed (and, for the type, lower-cased) inputs, each with its message; success exactly when all pass, giving the trimmed active account |
| Accounts.PaddedCodeIsDuplicate | app/domain/accounts/services.py:17-30 | input that differs from a stored code only by surrounding whitespace is refused as a duplicate |
| Accounts.TypeCaseIgnored | app/domain/accounts/services.py:19-26 | the type check ignores case and surrounding whitespace |
| Accounts.AccountService.CreateAccount | app/domain/accounts/services.py:14-38 | the result follows the new-account verdict; on success the account is appended, on failure nothing is stored; stored codes stay unique |
| Accounts.CreateKeepsCodesUnique | app/domain/accounts/services.py:28-38 | appending an accepted account keeps the stored codes unique |
| Partners.Validate | app/domain/partners/entities.py:20-27 | a partner passes exactly when valid; a blank name, a blank tax id and a partner with no role fail with their own messages, in that order |
| Partners.WhitespaceNameRejected | app/domain/partners/entities.py:22-23 | a name made only of whitespace is refused like an empty one |
| Partners.FindByTaxId | app/domain/partners/services.py:23 | nothing is found exactly when no partner has the tax id; what is found is stored and has it |
| Partners.FindById | app/domain/partners/services.py:46-48 | nothing is found exactly when no partner has the id; what is found is stored and has it |
| Partners.CustomersMembers | app/domain/partners/services.py:50-53 | the customer list holds exactly the stored partners that are customers |
| Partners.SuppliersMembers | app/domain/partners/services.py:55-58 | the supplier list holds exactly the stored partners that are suppliers |
| Partners.CustomersAppend | app/domain/partners/services.py:53 | the customer filter keeps the order of the list it filters |
| Partners.SuppliersAppend | app/domain/partners/services.py:58 | the supplier filter keeps the order of the list it filters |
| Partners.InsertByName | app/infrastructure/persistence/partners/repository.py:42 | inserting adds exactly the one partner |
| Partners.InsertKeepsNameOrder | app/infrastructure/persistence/partners/repository.py:42 | inserting into a list in name order keeps it in name order |
| Partners.ListAll | app/infrastructure/persistence/partners/repository.py:40-59 | the register's partners, each as often as stored, in name order |
| Partners.CustomersSorted | app/domain/partners/services.py:50-53 | the customers of a list in name order are in name order |
| Partners.SuppliersSorted | app/domain/partners/services.py:55-58 | the suppliers of a list in name order are in name order |
| Partners.BothRolesInBothLists | app/domain/partners/services.py:50-58 | a partner with both roles appears in both lists |
| Partners.NewPartner | app/domain/partners/services.py:12-40 | a tax id already on file fails with "Ja existeix un partner amb el NIF/CIF <id>"; otherwise success exactly when the partner validates, giving that partner, and the validation message when it does not |
| Partners.PartnerService.CreatePartner | app/domain/partners/services.py:12-40 | the result is the new-partner verdict; the partner is appended only on success; tax ids stay unique |
| Partners.PartnerService.GetCustomers | app/domain/partners/services.py:50-53 | exactly the stored partners that are customers, in name order |
| Partners.PartnerService.GetSuppliers | app/domain/partners/services.py:55-58 | exactly the stored partners that are suppliers, in name order |
| Audit.OrEmpty | app/domain/audit/entities.py:36-37 | a missing map is stored as the empty map, a given one as itself |
| Audit.CreateLog | app/domain/audit/entities.py:25-47 | the log stores both change maps, always present, with the given type, id, action, user, clock reading and identifier |
| Audit.CreatedLogReadsBack | app/domain/audit/entities.py:49-60 | a log made by create_log reads back the old and new values it was given, empty for missing ones |
| Audit.Differing | app/domain/audit/entities.py:62-65 | the loop keeps exactly the listed keys whose two readings differ, and never more keys than listed |
| Audit.DifferingNoDuplicates | app/domain/audit/entities.py:63-65 | iterating a duplicate-free key list reports each key at most once |
| Audit.ChangedFields | app/domain/audit/entities.py:56-67 | each key of either map is reported once exactly when its old and new readings differ, for any iteration order of the key set |
| Audit.DifferingSelf | app/domain/audit/entities.py:64 | comparing a map with itself finds no difference |
| Audit.NoChangeNoFields | app/domain/audit/entities.py:56-67 | equal old and new maps report no changed field |
| Audit.NullMatchesMissing | app/domain/audit/entities.py:64 | a key that is null on one side and absent on the other does not count as changed |
| Audit.UnparseableHasNoChanges | app/domain/audit/entities.py:51-54 | a log whose text does not parse reports no changed field |
| Banking.MatchLine | app/domain/banking/services.py:79-82 | the line carrying the requested id becomes MATCHED against the entry, with every other field kept; any other line is left as it was |
| Banking.MatchLines | app/domain/banking/services.py:78-82 | the loop keeps the number of lines and treats each line on its own |
| Banking.StatusAfter | app/domain/banking/services.py:87-90 | the statement becomes RECONCILED exactly when every line is matched, PARTIAL otherwise |
| Banking.Rematch | app/domain/banking/services.py:79-81 | reconciling a line a second time keeps only the later entry |
| Banking.ReconciledIffOthersMatched | app/domain/banking/services.py:78-90 | after matching a line that exists, the statement is RECONCILED exactly when every other line was already matched |
| Banking.HasLineStep | app/domain/banking/services.py:78-83 | scanning one more line finds the id exactly when it was found before or sits on that line |
| Banking.MatchAll | app/domain/banking/services.py:75-88 | the loop returns the matched lines, reports the line found exactly when some line has the id, and reports all reconciled exactly when every resulting line is matched |
| Banking.BankingService.ReconcileLine | app/domain/banking/services.py:70-92 | an unknown statement or line returns false and changes nothing; otherwise the statement is saved with the matched lines and the status that follows from them, and true is returned |
| Budgets.OwnerId | app/domain/budgets/entities.py:28 | a present id is used as the line's budget id, a missing one gives the empty string |
| Budgets.PlannedAppend | app/domain/budgets/entities.py:26-33 | appending a line raises the planned total by exactly its amount |
| Budgets.Budget.AddLine | app/domain/budgets/entities.py:26-33 | exactly one line, owned by the budget's id, is appended and returned; every other field is unchanged |
| Budgets.BudgetService.CreateBudget | app/domain/budgets/services.py:12-22 | the new budget is a DRAFT without lines, stored under its fresh id with both timestamps at the clock reading, the rest of the store untouched |
| Budgets.BudgetService.AddBudgetLine | app/domain/budgets/services.py:30-46 | an unknown id gives nothing and changes nothing; otherwise exactly one line is appended to that budget, its planned total grows by the amount, its update time is set and every other budget is left as it was |
| Budgets.BudgetService.UpdateStatus | app/domain/budgets/services.py:48-54 | an unknown id gives nothing and changes nothing; otherwise only that budget's status and update time change |
| Documents.Validate | app/domain/documents/entities.py:42-66 | the document is accepted exactly when its name is not blank, both entity fields are present, its size is positive and at most 10 MiB and its type is listed; each failed check gives its own message, in source order |
| Documents.ValidImageTypes | app/domain/documents/entities.py:33-35 | among accepted documents, the images are exactly the three image types of the allowed list |
| Documents.PdfNotImage | app/domain/documents/entities.py:33-40 | a PDF is never an image |
| FileStorage.LastIndexOf | app/infrastructure/storage/file_storage.py:72 | the position found holds the separator and no later position does; -1 means there is none |
| FileStorage.Basename | app/infrastructure/storage/file_storage.py:72 | the base name holds no separator, is a suffix of the path, is the whole path or follows a separator, and is the whole path when there is no separator |
| FileStorage.Replace | app/infrastructure/storage/file_storage.py:73-75 | each character is kept when it is an ASCII letter, digit, '.', '_' or '-', and becomes '_' otherwise |
| FileStorage.SanitizeFilename | app/infrastructure/storage/file_storage.py:69-75 | the result has the base name's length, holds only safe characters, and keeps each safe character of the base name in place |
| FileStorage.NoSeparator | app/infrastructure/storage/file_storage.py:69-75 | a sanitised name never holds a path separator |
| FileStorage.SanitizeIdempotent | app/infrastructure/storage/file_storage.py:69-75 | sanitising a sanitised name changes nothing |
| FileStorage.SafeNameKept | app/infrastructure/storage/file_storage.py:69-75 | a name made only of safe characters is kept as it is |
| Settings.NonEmpty | app/domain/settings/entities.py:50 | the filter keeps exactly the non-empty parts and never adds any |
| Settings.KeptParts | app/domain/settings/entities.py:49-50 | the middle "zip city" part is always kept, and street and province are kept exactly when not empty |
| Settings.FullAddress | app/domain/settings/entities.py:46-50 | the address is the street and ", " when there is a street, then zip, a space and city, then ", " and the province when there is one |
| Inventory.ValidateItem | app/domain/inventory/entities.py:34-42 | an item is accepted exactly when code and name are not blank and price and quantity are not negative; each failure gives its own message, in source order |
| Inventory.ValidateMovement | app/domain/inventory/entities.py:64-68 | a movement is accepted exactly when its item code is not blank and its quantity is not zero |
| Inventory.CodeIndex | app/infrastructure/persistence/inventory/repositories.py:68-74 | no position exactly when no item has the code; a position found holds the code |
| Inventory.FirstCodeIndex | app/infrastructure/persistence/inventory/repositories.py:71 | the position found is the first with that code |
| Inventory.IdIndex | app/infrastructure/persistence/inventory/repositories.py:60-66 | no position exactly when no item has the id; a position found holds the id |
| Inventory.Save | app/infrastructure/persistence/inventory/repositories.py:31-58 | an item whose id is stored replaces the stored one in place; otherwise it is added at the end |
| Inventory.Delete | app/infrastructure/persistence/inventory/repositories.py:84-92 | exactly the items without that id survive |
| Inventory.SaveKeepsInvariant | app/infrastructure/persistence/inventory/repositories.py:31-58 | saving keeps ids unique, and keeps stock non-negative when the saved item's stock is |
| Inventory.DeleteKeepsIdsUnique | app/infrastructure/persistence/inventory/repositories.py:84-92 | deleting keeps ids unique |
| Inventory.DeleteKeepsStockNonNegative | app/infrastructure/persistence/inventory/repositories.py:84-92 | deleting keeps stock non-negative |
| Inventory.SaveAtIndex | app/infrastructure/persistence/inventory/repositories.py:34-42 | with unique ids, saving overwrites the item at its id's position |
| Inventory.Movement | app/domain/inventory/services.py:59-74 | an invalid movement, an unknown code or a resulting stock below zero is refused with its message; otherwise only the item with that code changes, to the new stock |
| Inventory.MovementEffect | app/domain/inventory/services.py:69-74 | a movement that succeeds adds its quantity to exactly one item, leaves the others as they were, and keeps ids unique and stock non-negative |
| Inventory.OverdrawRefused | app/domain/inventory/services.py:69-71 | an exit larger than the stock is refused |
| Inventory.StockLevelAfterMovement | app/domain/inventory/services.py:59-89 | after a successful movement the stock level of its code is the old level plus its quantity |
| Inventory.InventoryService.CreateItem | app/domain/inventory/services.py:18-26 | an invalid item or a code already in use is refused and changes nothing; otherwise the item is saved and returned |
| Inventory.InventoryService.UpdateItem | app/domain/inventory/services.py:28-36 | an invalid item or an unknown id is refused and changes nothing; otherwise the stored item with that id is replaced |
| Inventory.InventoryService.DeleteItem | app/domain/inventory/services.py:50-56 | an unknown id is refused and changes nothing; otherwise the item is removed |
| Inventory.InventoryService.RegisterMovement | app/domain/inventory/services.py:59-76 | a refused movement changes nothing; an accepted one changes the register as the movement function says and appends the movement to the log |
| Inventory.InventoryService.GetStockLevel | app/domain/inventory/services.py:84-89 | an unknown code is refused; otherwise the stored quantity is returned, never negative in a valid register |
| FiscalYears.MakeFiscalYear | app/domain/fiscal/entities.py:29-31 | a year is built exactly when its start comes strictly before its end, and then contains both ends; otherwise construction fails with the source's message |
| FiscalYears.OverlapsIffSharedDay | app/domain/fiscal/services.py:28 | for well-formed ranges the overlap test holds exactly when the two ranges share a day |
| FiscalYears.FindByName | app/infrastructure/persistence/fiscal/repositories.py:58-63 | nothing is found exactly when no year has the name; a year found is stored and has it |
| FiscalYears.IdIndex | app/infrastructure/persistence/fiscal/repositories.py:51-56 | no position exactly when no year has the id; a position found holds it |
| FiscalYears.FindByDate | app/infrastructure/persistence/fiscal/repositories.py:72-78 | no position exactly when no year contains the date; a position found contains it |
| FiscalYears.AtMostOneYearPerDate | app/infrastructure/persistence/fiscal/repositories.py:72-78 | in a store without overlaps a date lies in at most one year, so the lookup by date does not depend on row order |
| FiscalYears.CurrentIndex | app/infrastructure/persistence/fiscal/repositories.py:65-70 | nothing is found exactly when no year is open; otherwise the position holds an open year and no earlier position does |
| FiscalYears.CurrentIsLatestOpen | app/infrastructure/persistence/fiscal/repositories.py:67-69 | in the store's descending order no open year starts after the one found |
| FiscalYears.FirstOverlap | app/domain/fiscal/services.py:26-29 | nothing is found exactly when no stored year overlaps the range; a year found is stored and overlaps it |
| FiscalYears.ScanOverlaps | app/domain/fiscal/services.py:27-29 | the loop stops at the first overlapping year in list order, or finds none |
| FiscalYears.InsertPos | app/infrastructure/persistence/fiscal/repositories.py:80-85 | the new year goes after every year that does not start earlier and before the first that does |
| FiscalYears.Insert | app/infrastructure/persistence/fiscal/repositories.py:38-49 | the store gains exactly the new year |
| FiscalYears.InsertKeepsStartsDesc | app/infrastructure/persistence/fiscal/repositories.py:80-85 | adding a year keeps the list ordered by descending start date |
| FiscalYears.InsertKeepsDisjoint | app/domain/fiscal/services.py:25-38 | adding a well-formed year that overlaps none keeps the store free of overlaps |
| FiscalYears.InsertKeepsKeys | app/domain/fiscal/services.py:20-23 | a year with a fresh name and the next id keeps names and ids unique |
| FiscalYears.InsertKeepsValid | app/domain/fiscal/services.py:13-38 | storing a year that passed the name, overlap and date checks under the next id keeps every store invariant, with the id bound one higher |
| FiscalYears.SetStatusKeeps | app/domain/fiscal/services.py:49-50 | changing only one year's status keeps order, disjointness, well-formedness and unique names and ids |
| FiscalYears.CloseThenReopen | app/domain/fiscal/services.py:40-62 | closing an open year and then reopening it restores the store |
| FiscalYears.FiscalYearService.CreateFiscalYear | app/domain/fiscal/services.py:13-38 | a taken name, an overlap with some stored year (the first met is named) or a start not before the end is refused and changes nothing; otherwise a new OPEN year with the next id is added; it succeeds exactly when none of those holds, and the store invariants hold after |
| FiscalYears.FiscalYearService.CloseFiscalYear | app/domain/fiscal/services.py:40-50 | an unknown id or a year already closed is refused and changes nothing; otherwise only that year's status becomes CLOSED |
| FiscalYears.FiscalYearService.ReopenFiscalYear | app/domain/fiscal/services.py:52-62 | an unknown id or a year already open is refused and changes nothing; otherwise only that year's status becomes OPEN |
| FiscalYears.FiscalYearService.GetCurrentFiscalYear | app/domain/fiscal/services.py:64-66 | nothing exactly when no year is open; otherwise an open stored year that no open year starts after |
| FiscalYears.FiscalYearService.ValidateDateInOpenYear | app/domain/fiscal/services.py:72-75 | true exactly when the year found for the date is open, which in a valid store means some year holding the date is open |
| FiscalYears.OpenYearForDate | app/domain/fiscal/services.py:74-75 | in a store without overlaps the date is in an open year exactly when the year found for it is open |
| Model303.VatDetail.Add | app/domain/fiscal/models.py:12-14 | base and quota grow by exactly the amounts given; the rate is kept |
| Model303.Keys | app/domain/fiscal/models.py:27-30 | the keys of the dictionary are the rates of its entries, in order |
| Model303.MissingMembers | app/domain/fiscal/models.py:43-47 | the rates added are exactly the standard rates that are not yet keys |
| Model303.FilledKeys | app/domain/fiscal/models.py:41-47 | after filling, every standard rate is a key and the given keys come first, in their order |
| Model303.AddIfMissing | app/domain/fiscal/models.py:44-47 | a rate that is not a key gets one new empty entry at the end; a rate already present changes nothing |
| Model303.FillStandardRates | app/domain/fiscal/models.py:43-47 | the loop keeps the given entries and appends a new empty entry for each standard rate without one, in the order 4, 10, 21 |
| Model303.Model303Data.constructor | app/domain/fiscal/models.py:16-47 | both dictionaries keep their given entries and gain new empty entries for the missing standard rates; the totals start at 0 |
| Model303.SumUpdate | app/domain/fiscal/models.py:48-51 | adding to one entry's quota raises the dictionary's total by the same amount |
| Model303.SumAppendZero | app/domain/fiscal/models.py:45-51 | a new empty entry does not change the total |
| Model303.Model303Data.CalculateTotals | app/domain/fiscal/models.py:49-52 | each total is the sum of the quotas of its dictionary and the result is output VAT less input VAT; nothing else changes |
| Assets.AccumulatedNonNegative | app/domain/assets/entities.py:55-56 | entries of non-negative amounts add up to a non-negative total |
| Assets.CurrentValue | app/domain/assets/entities.py:49-52 | the purchase price while nothing is recorded, and never more than it while no entry is negative |
| Assets.RecordLowersValue | app/domain/assets/entities.py:49-56 | recording one more entry raises the accumulated depreciation, and lowers the current value, by exactly its amount |
| Assets.AnnualDepreciation | app/domain/assets/services.py:27-33 | with a useful life the annual amount times the years is the depreciable amount; without one it is 0 |
| Assets.TenThousandOverTenYears | app/domain/assets/services.py:30-32 | 10000 over ten years with no residual value is 1000 a year |
| Assets.StepAmount | app/domain/assets/services.py:57-59 | the amount is the annual amount or the remaining depreciable value, whichever is smaller |
| Assets.StepLines | app/domain/assets/services.py:64-69 | two lines, debiting the expense account and crediting the accumulated depreciation account by the same amount, so they balance |
| Assets.YearEnd | app/domain/assets/services.py:72 | the year-end date exists exactly for the years 1 to 9999, and is 31 December of the year |
| Assets.StepJournalEntry | app/domain/assets/services.py:71-75 | a year out of range is refused with Python's "year N is out of range" before anything is booked; a booked entry is dated on the year end |
| Assets.StepEntry | app/domain/assets/services.py:77-90 | the entry carries the step's amount, the accumulated depreciation including it and the year-end date |
| Assets.StepStaysWithinDepreciable | app/domain/assets/services.py:57-81 | a step from an asset with value left never depreciates past the residual value |
| Assets.FullyDepreciatedIffAtResidual | app/domain/assets/services.py:94-97 | after a step from ACTIVE the asset is FULLY_DEPRECIATED exactly when its value has come down to the residual value, and ACTIVE otherwise |
| Assets.StepKeepsRunningTotals | app/domain/assets/services.py:81 | each recorded entry keeps carrying the running total of the amounts up to itself |
| Assets.NoUsefulLifeNoEntry | app/domain/assets/services.py:29-75 | an asset without a useful life gets a zero amount, so the journal entry is refused |
| Assets.GetAsset | app/domain/assets/services.py:21-25 | a stored id gives its asset; any other gives the not-found message |
| Assets.AssetService.CreateAsset | app/domain/assets/services.py:11-16 | a code already in use is refused and changes nothing; otherwise the asset is stored under its new id |
| Assets.AssetService.GenerateDepreciationEntry | app/domain/assets/services.py:37-99 | a missing or non-active asset is refused with no change; an asset with nothing left above its residual value is marked FULLY_DEPRECIATED and refused; otherwise a year outside 1 to 9999 is refused with no change, and a balanced journal entry for the capped amount, numbered by the journal's next number, is added and the entry recorded, or the journal's refusal is passed on with no change |
| Assets.AssetService.BookStep | app/domain/assets/services.py:66-92 | a year outside 1 to 9999 is refused before anything is booked; otherwise the journal gains the step's entry under the journal's next number and the depreciation entry, linked to that number, is returned, or the refusal is passed on with the journal unchanged |
| SalesEntities.LineSubtotal | app/domain/sales/entities.py:71-74 | the line subtotal is a whole number of cents |
| SalesEntities.DiscountAmount | app/domain/sales/entities.py:76-79 | the discount is a whole number of cents |
| SalesEntities.NetAmount | app/domain/sales/entities.py:81-84 | the discounted subtotal is exactly subtotal less discount, the final rounding changing nothing |
| SalesEntities.LineTax | app/domain/sales/entities.py:86-89 | the line VAT is a whole number of cents |
| SalesEntities.LineTotal | app/domain/sales/entities.py:91-94 | the line total is exactly discounted subtotal plus VAT, in cents |
| SalesEntities.ValidateLine | app/domain/sales/entities.py:96-114 | a line is accepted exactly when code and description are not blank, quantity is positive, price is not negative, the discount lies in 0..100 and the VAT rate is 0, 4, 10 or 21; each failure gives its own message in source order |
| SalesEntities.SubtotalNonNegative | app/domain/sales/entities.py:71-108 | a positive quantity at a non-negative price gives a non-negative subtotal |
| SalesEntities.DiscountWithinSubtotal | app/domain/sales/entities.py:76-111 | a discount of 0..100 percent lies between 0 and the subtotal |
| SalesEntities.TaxNonNegative | app/domain/sales/entities.py:86-89 | a non-negative base at a non-negative rate gives non-negative VAT |
| SalesEntities.ValidLineAmounts | app/domain/sales/entities.py:71-114 | on a valid line no amount is negative and the total is at least the discounted subtotal |
| SalesEntities.ValidPrefix | app/domain/sales/entities.py:171-172 | a prefix of valid lines is valid |
| SalesEntities.FirstInvalid | app/domain/sales/entities.py:171-172 | the validation loop stops at the first invalid line, every earlier one being valid |
| SalesEntities.ValidateLines | app/domain/sales/entities.py:171-172 | the lines pass exactly when every line is valid |
| SalesEntities.Subtotal | app/domain/sales/entities.py:137-140 | the document subtotal is a whole number of cents |
| SalesEntities.TotalTax | app/domain/sales/entities.py:142-145 | the document VAT is a whole number of cents |
| SalesEntities.Total | app/domain/sales/entities.py:147-150 | a document without lines has no total (Python's integer 0 has no quantize); otherwise the total is subtotal plus VAT, in cents |
| SalesEntities.TotalIsSumOfLineTotals | app/domain/sales/entities.py:137-150 | the grand total is the sum of the line totals |
| SalesEntities.ValidTotalsNonNegative | app/domain/sales/entities.py:137-145 | with valid lines neither subtotal nor VAT total is negative |
| SalesEntities.GroupIndex | app/domain/sales/entities.py:337 | the dictionary lookup finds the only entry for the rate, or reports none |
| SalesEntities.AddLineRates | app/domain/sales/entities.py:336-343 | after one step the rates present are the old ones plus the line's own |
| SalesEntities.AddLineSums | app/domain/sales/entities.py:336-343 | one step adds exactly the line's discounted subtotal to the bases and its VAT to the taxes |
| SalesEntities.BreakdownCorrect | app/domain/sales/entities.py:333-345 | the breakdown has one entry per rate that occurs on some line and no other, each entry holds exactly the base and VAT of its lines, and the entries sum to the subtotal and the VAT total |
| SalesEntities.ValidPositiveTaxes | app/domain/sales/entities.py:333-345 | with valid lines no entry has negative VAT, so the entries with positive VAT sum to the VAT total |
| SalesEntities.InvoiceNumber | app/domain/sales/entities.py:312-315 | the number reads series "/" year "/" and then at least three digits that parse back to the number |
| SalesEntities.InvoiceNumberInjective | app/domain/sales/entities.py:312-315 | within one series and year, different numbers give different invoice numbers |
| SalesEntities.ValidateQuote | app/domain/sales/entities.py:157-172 | a quote is accepted exactly when number and client are not blank, it has lines, its validity date is not before its date and every line is valid; the first failure's message is given |
| SalesEntities.SendCheck | app/domain/sales/entities.py:175-178 | a quote can be sent exactly when it is a valid draft |
| SalesEntities.AcceptCheck | app/domain/sales/entities.py:182-187 | a quote can be accepted exactly when it is a draft or sent and has not expired |
| SalesEntities.RejectCheck | app/domain/sales/entities.py:190-193 | a quote can be rejected exactly when it is a draft or sent |
| SalesEntities.QuoteFinalStates | app/domain/sales/entities.py:175-193 | an accepted, rejected or expired quote admits no transition |
| SalesEntities.Quote.Send | app/domain/sales/entities.py:175-180 | on success the status becomes SENT and nothing else changes; on failure nothing changes |
| SalesEntities.Quote.Accept | app/domain/sales/entities.py:182-188 | on success the status becomes ACCEPTED and nothing else changes; on failure nothing changes |
| SalesEntities.Quote.Reject | app/domain/sales/entities.py:190-194 | on success the status becomes REJECTED and nothing else changes; on failure nothing changes |
| SalesEntities.ValidateOrder | app/domain/sales/entities.py:239-255 | an order is accepted exactly when number and client are not blank, it has lines, a given delivery date is not before it and every line is valid |
| SalesEntities.ConfirmCheck | app/domain/sales/entities.py:257-260 | an order can be confirmed exactly when it is a valid draft |
| SalesEntities.StartCheck | app/domain/sales/entities.py:264-267 | work can start exactly on a confirmed order |
| SalesEntities.DeliverCheck | app/domain/sales/entities.py:270-273 | an order can be delivered exactly when confirmed or in progress |
| SalesEntities.CancelCheck | app/domain/sales/entities.py:276-279 | any order but a delivered one can be cancelled, a cancelled one included |
| SalesEntities.DeliveredIsFinal | app/domain/sales/entities.py:257-279 | a delivered order admits no transition at all |
| SalesEntities.SalesOrder.Confirm | app/domain/sales/entities.py:257-262 | on success the status becomes CONFIRMED; on failure nothing changes |
| SalesEntities.SalesOrder.StartProgress | app/domain/sales/entities.py:264-268 | on success the status becomes IN_PROGRESS; on failure nothing changes |
| SalesEntities.SalesOrder.Deliver | app/domain/sales/entities.py:270-274 | on success the status becomes DELIVERED; on failure nothing changes |
| SalesEntities.SalesOrder.Cancel | app/domain/sales/entities.py:276-280 | on success the status becomes CANCELLED; on failure nothing changes |
| SalesEntities.ValidateInvoice | app/domain/sales/entities.py:347-369 | an invoice is accepted exactly when series and client are not blank, the year lies in 2000..2100, the number is positive, it has lines, the due date is not before the invoice date and every line is valid |
| SalesEntities.PostCheck | app/domain/sales/entities.py:371-374 | an invoice can be posted exactly when it is a valid draft |
| SalesEntities.PayCheck | app/domain/sales/entities.py:378-381 | an invoice can be marked paid exactly when it is posted |
| SalesEntities.InvoiceLifecycle | app/domain/sales/entities.py:371-383 | a postable invoice cannot yet be paid, a paid one cannot be paid again, and a payable one cannot be posted |
| SalesEntities.SalesInvoice.Post | app/domain/sales/entities.py:371-376 | on success the status becomes POSTED; on failure nothing changes |
| SalesEntities.SalesInvoice.MarkAsPaid | app/domain/sales/entities.py:378-383 | on success status and payment status both become PAID; on failure nothing changes |
| SalesEntities.SalesInvoice.TaxBreakdown | app/domain/sales/entities.py:333-345 | the loop builds exactly the breakdown of the invoice's lines |
| SalesNumbering.Greatest | app/infrastructure/persistence/sales/repository.py:144-146 | no number exactly when nothing is stored; otherwise a stored number that no stored number sorts after |
| SalesNumbering.NextNumberAsWritten | app/infrastructure/persistence/sales/repository.py:142-160 | the successor of the greatest stored number when it has three parts and an integer tail, otherwise the current year's first number |
| SalesNumbering.SuccessorOfWellFormed | app/infrastructure/persistence/sales/repository.py:151-154 | a last number "P-Y-n" gives the prefix, the copied year and n + 1 in at least three digits |
| SalesNumbering.MalformedFallsBack | app/infrastructure/persistence/sales/repository.py:151-160 | any other shape of last number falls back to the current year's first number |
| SalesNumbering.SuccessorChains | app/infrastructure/persistence/sales/repository.py:151-154 | from a generated number, the next one has the same year and a tail one higher |
| SalesNumbering.NumberRepeatsAfter999 | app/infrastructure/persistence/sales/repository.py:144-154 | with tails 999 and 1000 stored, the generator returns the 1000 number a second time |
| SalesNumbering.HighestTail | app/infrastructure/persistence/sales/repository.py:142-160 | the well-formed stored number with the greatest numeric tail; none exactly when no stored number is well formed |
| SalesNumbering.SuccessorWellFormed | app/infrastructure/persistence/sales/repository.py:151-154 | the successor of a well-formed number is well formed with a tail one higher |
| SalesNumbering.NextNumberFresh | app/infrastructure/persistence/sales/repository.py:142-160 | the corrected generator never returns a number already stored |
| SalesNumbering.NextNumberLeads | app/infrastructure/persistence/sales/repository.py:150-160 | every generated number starts with the prefix |
| SalesNumbering.QuoteNumberFresh | app/infrastructure/persistence/sales/repository.py:142-160 | a new quote number is neither already stored nor blank |
| SalesNumbering.OrderNumberFresh | app/infrastructure/persistence/sales/repository.py:294-312 | a new order number is neither already stored nor blank |
| SalesNumbering.MaxInvoiceNumber | app/infrastructure/persistence/sales/repository.py:470-473 | nothing exactly when no invoice has the series and year; otherwise the highest number among them |
| SalesNumbering.NextInvoiceNumber | app/infrastructure/persistence/sales/repository.py:468-478 | the next number exceeds every number of the same series and year, is 1 when there is none, and otherwise is one more than a stored number |
| SalesServices.LineOf | app/domain/sales/services.py:54-61 | a request line keeps its code, description, quantity and price; an absent discount is 0 and an absent VAT rate 21 |
| SalesServices.BuildLinesPointwise | app/domain/sales/services.py:51-62 | one line per request line, the i-th built from the i-th |
| SalesServices.LineOfComplete | app/domain/sales/services.py:54-61 | a request line with every field given keeps them all |
| SalesServices.MakeLines | app/domain/sales/services.py:51-62 | the loop builds exactly the lines of the request, in order |
| SalesServices.CopyLines | app/domain/sales/services.py:414-423 | the comprehension copies the order's lines unchanged |
| SalesServices.CustomerCheck | app/domain/sales/services.py:36-42 | it passes exactly when the partner exists and is a customer; a missing partner and a non-customer get their own messages |
| SalesServices.SupplierOnlyRejected | app/domain/sales/services.py:41-42 | a partner that is only a supplier is refused |
| SalesServices.ShiftDate | app/domain/sales/services.py:48 | adding days succeeds exactly when the result stays within years 1 to 9999, with Python's overflow message otherwise |
| SalesServices.FindQuote | app/domain/sales/services.py:85-87 | the first quote with the id, or none |
| SalesServices.NewQuote | app/domain/sales/services.py:27-76 | the partner checks come first; the quote is created exactly when they pass, the validity date exists and the new DRAFT quote, with the next number and the request's lines, validates (the number comes from the corrected generator `SalesNumbering.NextNumber`; the source calls the string-ordered one, see "## Findings") |
| SalesServices.NewQuoteProperties | app/domain/sales/services.py:27-76 | a created quote has a number no stored quote has, a non-negative validity, one line per request line, and can be sent at once (the number comes from the corrected generator `SalesNumbering.NextNumber`; the source calls the string-ordered one, see "## Findings") |
| SalesServices.EditedQuote | app/domain/sales/services.py:93-110 | editing keeps id, number, status, partner and dates |
| SalesServices.EditNothing | app/domain/sales/services.py:93-110 | editing with nothing given changes nothing |
| SalesServices.QuoteService.CreateQuote | app/domain/sales/services.py:27-76 | the result is the created quote or its refusal, and the store gains the quote exactly on success |
| SalesServices.QuoteService.UpdateQuote | app/domain/sales/services.py:78-113 | an unknown id or a quote that is not a draft is refused; the edit succeeds exactly when the edited quote validates, and then only that quote is replaced; on failure nothing changes |
| SalesServices.QuoteService.SendQuote | app/domain/sales/services.py:115-123 | an unknown id is refused; otherwise the quote's own send decides, and on success only that quote becomes SENT |
| SalesServices.QuoteService.AcceptQuote | app/domain/sales/services.py:125-133 | an unknown id is refused; otherwise the quote's own accept decides, and on success only that quote becomes ACCEPTED |
| SalesServices.QuoteService.RejectQuote | app/domain/sales/services.py:135-143 | an unknown id is refused; otherwise the quote's own reject decides, and on success only that quote becomes REJECTED |
| SalesServices.QuoteService.DeleteQuote | app/domain/sales/services.py:158-168 | an unknown id or a quote that is not a draft is refused; otherwise exactly that quote is removed |
| SalesServices.FindOrder | app/domain/sales/services.py:277-279 | the first order with the id, or none |
| SalesServices.NewOrder | app/domain/sales/services.py:183-230 | the partner checks come first; the order is created exactly when they pass and the new DRAFT order, with the next number and the request's lines, validates (the number comes from the corrected generator `SalesNumbering.NextNumber`; the source calls the string-ordered one, see "## Findings") |
| SalesServices.OrderFromQuote | app/domain/sales/services.py:232-273 | an unknown quote or one that is not accepted is refused; a converted order always validates |
| SalesServices.OrderFromQuoteCopies | app/domain/sales/services.py:242-270 | the converted order copies the quote's partner, lines and notes, links the quote, starts as a DRAFT with the next number, and is dated the given date or today |
| SalesServices.ValidAcceptedQuoteConverts | app/domain/sales/services.py:232-273 | an accepted quote that validates always converts when an order date is given |
| SalesServices.SalesOrderService.CreateOrder | app/domain/sales/services.py:183-230 | the result is the created order or its refusal, and the store gains the order exactly on success (the number comes from the corrected generator `SalesNumbering.NextNumber`; the source calls the string-ordered one, see "## Findings") |
| SalesServices.SalesOrderService.CreateFromQuote | app/domain/sales/services.py:232-273 | the result is the conversion or its refusal, and the store gains the order exactly on success |
| SalesServices.SalesOrderService.ConfirmOrder | app/domain/sales/services.py:275-283 | an unknown id is refused; otherwise the order's own confirm decides, and on success only that order becomes CONFIRMED |
| SalesServices.SalesOrderService.DeliverOrder | app/domain/sales/services.py:285-293 | an unknown id is refused; otherwise the order's own deliver decides, and on success only that order becomes DELIVERED |
| SalesServices.SalesOrderService.CancelOrder | app/domain/sales/services.py:295-303 | an unknown id is refused; otherwise the order's own cancel decides, and on success only that order becomes CANCELLED |
| SalesInvoicing.FindInvoice | app/domain/sales/services.py:444-446 | the first invoice with the id, or none |
| SalesInvoicing.NewInvoice | app/domain/sales/services.py:334-386 | the partner checks come first, then a due date that does not exist is refused; the invoice is created exactly when those pass and the new DRAFT invoice, numbered next in its series and year, validates |
| SalesInvoicing.NewInvoiceProperties | app/domain/sales/services.py:334-386 | a created invoice's printed number is used by no stored invoice of its series and year, its payment term is not negative, and it can be posted at once |
| SalesInvoicing.InvoiceFromOrderAsWritten | app/domain/sales/services.py:388-440 | a delivered order whose partner exists makes the call raise, because the partner has no payment term attribute |
| SalesInvoicing.OrderInvoice | app/domain/sales/services.py:405-440 | the invoice copies the order's partner, lines and notes, links the order, and is created exactly when the due date exists and it validates |
| SalesInvoicing.InvoiceFromOrder | app/domain/sales/services.py:388-440 | an unknown order or one not delivered is refused; a created invoice comes from a delivered order and validates |
| SalesInvoicing.KnownPartnerBlocksInvoicing | app/domain/sales/services.py:401-403 | a valid delivered order of a known partner is invoiced by the corrected conversion and refused by the code as written |
| SalesInvoicing.InvoiceFromOrderCopies | app/domain/sales/services.py:397-436 | the invoice copies lines, partner and notes, links the order, is dated the given date or today, is a DRAFT without journal entry, and falls due 30 days later |
| SalesInvoicing.DeliveredOrderInvoices | app/domain/sales/services.py:388-440 | a valid delivered order is invoiced when the series is named, the year is in range and the due date exists |
| SalesInvoicing.VatLinesTotals | app/domain/sales/services.py:476-484 | the VAT lines debit nothing and credit the positive VAT of the breakdown |
| SalesInvoicing.VatLinesShape | app/domain/sales/services.py:476-484 | each VAT line is a valid credit on the output VAT account |
| SalesInvoicing.VatLinesEmpty | app/domain/sales/services.py:476-484 | there is a VAT line exactly when some entry has positive VAT |
| SalesInvoicing.PostingLines | app/domain/sales/services.py:456-484 | the journal lines are at least the two fixed lines |
| SalesInvoicing.EntryDescription | app/domain/sales/services.py:489 | the entry's description is never blank |
| SalesInvoicing.ValidLinesBookable | app/domain/sales/services.py:456-484 | valid invoice lines have non-negative totals and their booked VAT adds up to the VAT total |
| SalesInvoicing.PostingBalanced | app/domain/sales/services.py:456-484 | the entry balances, debiting the invoice total |
| SalesInvoicing.HeadTotals | app/domain/sales/services.py:458-474 | the fixed lines debit the total and credit the subtotal |
| SalesInvoicing.PostingLinesValid | app/domain/sales/services.py:456-484 | the lines all validate exactly when the subtotal is positive |
| SalesInvoicing.PostingAccounts | app/domain/sales/services.py:458-484 | the lines name known accounts exactly when receivable and revenue accounts exist, and the VAT account when VAT is booked |
| SalesInvoicing.PostingEntry | app/domain/sales/services.py:456-491 | the journal entry is created exactly when those accounts exist and the subtotal is positive, and then balances on the invoice total |
| SalesInvoicing.VatLoop | app/domain/sales/services.py:476-484 | the loop books exactly the VAT lines of the breakdown, in order |
| SalesInvoicing.BuildPosting | app/domain/sales/services.py:456-484 | the lines built are exactly the posting lines of the invoice |
| SalesInvoicing.PostStep | app/domain/sales/services.py:448-498 | a refused post is passed on; on success the invoice is POSTED and linked to the entry |
| SalesInvoicing.PostOutcome | app/domain/sales/services.py:442-500 | an unknown invoice or a refused post is passed on; on success the found invoice is POSTED and linked to the entry |
| SalesInvoicing.PostOutcomeOk | app/domain/sales/services.py:448-491 | a draft invoice that validates posts exactly when the accounts exist and its subtotal is positive |
| SalesInvoicing.PostedEntryBalanced | app/domain/sales/services.py:456-494 | the entry stored with a posted invoice balances on the invoice total |
| SalesInvoicing.BookEntry | app/domain/sales/services.py:487-494 | the entry is created and posted exactly when creation succeeds; the journal then gains it POSTED, and is unchanged otherwise |
| SalesInvoicing.PostAndBuild | app/domain/sales/services.py:448-484 | the invoice's own post decides, and on success its lines are the posting lines |
| SalesInvoicing.PostFound | app/domain/sales/services.py:448-498 | the step's outcome, with the journal gaining the posted entry exactly on success |
| SalesInvoicing.SalesInvoiceService.CreateInvoice | app/domain/sales/services.py:334-386 | the result is the created invoice or its refusal, and the store gains it exactly on success |
| SalesInvoicing.SalesInvoiceService.CreateFromOrder | app/domain/sales/services.py:388-440 | the corrected conversion's result, and the store gains the invoice exactly on success |
| SalesInvoicing.SalesInvoiceService.PostInvoice | app/domain/sales/services.py:442-500 | the outcome of posting; on success that invoice is replaced and the journal gains the posted entry; otherwise nothing changes |
| SalesInvoicing.SalesInvoiceService.MarkAsPaid | app/domain/sales/services.py:502-510 | an unknown invoice or one not posted is refused with no change; otherwise only that invoice becomes PAID in both statuses |
| PurchasesEntities.ZeroRateLine | app/domain/purchases/entities.py:44-55 | a line at rate 0 has no tax and totals exactly quantity times unit price |
| PurchasesEntities.TotalIsSumOfLineTotals | app/domain/purchases/entities.py:68-82 | a document's total amount (subtotal plus tax) equals the sum of its lines' totals |
| PurchasesEntities.EmptyDocument | app/domain/purchases/entities.py:68-82 | a document without lines has subtotal, tax and total all 0 |
| PurchasesEntities.ZeroRateDocument | app/domain/purchases/entities.py:68-82 | when every line is at rate 0 the document's tax is 0 and its total is its subtotal |
| PurchasesEntities.SumOfAppend | app/domain/purchases/entities.py:125-139 | a sum over the lines of two documents joined is the sum of the two sums |
| PurchasesRepository.NextNumberAsWritten | app/infrastructure/persistence/purchases/repository.py:129-145 | the first number "<prefix>-2025-001" on an empty store; otherwise the last dash segment of the greatest stored string plus one, in at least three digits, after "<prefix>-2025-", or the time stamp where that segment is not an integer |
| PurchasesRepository.YearIsIgnored | app/infrastructure/persistence/purchases/repository.py:139-143 | the year of the last number is never read: the next number is written in 2025 whatever year the stored one carries |
| PurchasesRepository.MalformedTailUsesStamp | app/infrastructure/persistence/purchases/repository.py:144-145 | a last number whose tail is not an integer gives "<prefix>-2025-<stamp>" |
| PurchasesRepository.NumberRepeatsAfter999 | app/infrastructure/persistence/purchases/repository.py:129-145 | with numbers 999 and 1000 stored, the as-written generator returns the stored 1000 again |
| PurchasesRepository.RepeatWhenTailSortsHigher | app/infrastructure/persistence/purchases/repository.py:129-145 | whenever a tail sorts after its successor as a string, the successor already stored is produced again |
| PurchasesRepository.TailOfBuilt | app/infrastructure/persistence/purchases/repository.py:141-142 | the last dash segment of "<prefix>-2025-<t>" read as an integer is t read as an integer |
| PurchasesRepository.MaxOfBounds | app/infrastructure/persistence/purchases/repository.py:129-145 | the greatest present tail is absent only when no tail is present, is one of the tails, and no tail exceeds it |
| PurchasesRepository.BuiltTail | app/infrastructure/persistence/purchases/repository.py:142-143 | a number written with tail k reads back with tail k |
| PurchasesRepository.TailNotNegative | app/infrastructure/persistence/purchases/repository.py:141-142 | a tail read from the last dash segment is never negative |
| PurchasesRepository.NextNumberFresh | app/infrastructure/persistence/purchases/repository.py:129-145 | the corrected generator never returns a stored number unless it must fall back on the stamp |
| PurchasesRepository.AboveAllTails | app/infrastructure/persistence/purchases/repository.py:142-143 | a number built with a tail above every stored tail is not stored |
| PurchasesRepository.AgreesWhenOrdersAgree | app/infrastructure/persistence/purchases/repository.py:129-145 | where the greatest string also carries the greatest tail, the corrected and as-written generators agree |
| PurchasesRepository.OrderNumberFresh | app/infrastructure/persistence/purchases/repository.py:129-145 | the corrected "PO" number is not among the stored order numbers |
| PurchasesRepository.InvoiceNumberFresh | app/infrastructure/persistence/purchases/repository.py:282-297 | the corrected "PI" number is not among the stored invoice numbers |
| PurchasesRepository.InsertLine | app/infrastructure/persistence/purchases/repository.py:159 | inserting a line gives the old lines plus that one, one longer, starting with it or with the old first line |
| PurchasesRepository.InsertKeepsOrder | app/infrastructure/persistence/purchases/repository.py:159 | inserting into lines ordered by line number keeps them ordered |
| PurchasesRepository.SortLines | app/infrastructure/persistence/purchases/repository.py:159 | loaded lines are a permutation of the stored ones, ordered by line number |
| PurchasesRepository.SortKeepsSorted | app/infrastructure/persistence/purchases/repository.py:311 | lines already in order are loaded unchanged |
| PurchasesRepository.InsertWithNumber | app/infrastructure/persistence/purchases/repository.py:159 | inserting a line puts it first among the lines of its number and leaves the lines of every other number as they were |
| PurchasesRepository.SortStable | app/infrastructure/persistence/purchases/repository.py:159 | the sort is stable: lines with the same number keep the order they were stored in |
| PurchasesRepository.SumOfInsert | app/infrastructure/persistence/purchases/repository.py:311 | inserting a line adds its amount to any sum over the lines |
| PurchasesRepository.SumOfSort | app/infrastructure/persistence/purchases/repository.py:311 | sorting leaves every sum over the lines unchanged |
| PurchasesRepository.LoadKeepsTotals | app/infrastructure/persistence/purchases/repository.py:147-170 | a loaded order has the subtotal, tax and total of the saved one |
| PurchasesServices.FindBy | app/infrastructure/persistence/purchases/repository.py:86-96 | the position of the first record with the id, or the length when none has it, and no earlier record has that id |
| PurchasesServices.SavedIsFound | app/infrastructure/persistence/purchases/repository.py:33-84 | after a save the record is found under its id, and every record with another id stays where it was |
| PurchasesServices.FindWithin | app/infrastructure/persistence/purchases/repository.py:86-96 | the first record carrying the id is the one found |
| PurchasesServices.SaveTwice | app/infrastructure/persistence/purchases/repository.py:33-84 | saving twice under one id keeps only the second record |
| PurchasesServices.LoadOrder | app/infrastructure/persistence/purchases/repository.py:147-170 | a loaded order equals the stored one except for its lines, which are a permutation in line order with the same total |
| PurchasesServices.LoadInvoice | app/infrastructure/persistence/purchases/repository.py:299-325 | a loaded invoice equals the stored one except for its lines, which are a permutation in line order with the same subtotal, tax and total |
| PurchasesServices.OrderTransition | app/domain/purchases/services.py:78-126 | an unknown order gives "Order not found", an order in a status the action does not allow gives that action's refusal, and otherwise the loaded order with the action's status and nothing else changed |
| PurchasesServices.StepsMoveForward | app/domain/purchases/services.py:78-126 | no status change moves an order back in draft, confirmed, received, invoiced, cancelled; only cancelling a cancelled order leaves it where it is |
| PurchasesServices.FinalStatuses | app/domain/purchases/services.py:84-85 | an invoiced order accepts no action, and a cancelled one only being cancelled again |
| PurchasesServices.FailedLines | app/domain/purchases/services.py:100-111 | the lines logged as failed are lines with a product whose inventory update failed, no more of them than lines |
| PurchasesServices.NothingFailsWhenAllRecorded | app/domain/purchases/services.py:100-111 | when every inventory update goes through, nothing is logged |
| PurchasesServices.RecordLines | app/domain/purchases/services.py:100-111 | the loop logs exactly the failed lines, and logs nothing without an inventory service |
| PurchasesServices.PurchaseOrderService.CreateOrder | app/domain/purchases/services.py:37-60 | a DRAFT order with the next order number, dated today unless a date is given, saved in the store (the number comes from the corrected generator `PurchasesRepository.NextNumber`; the source calls the string-ordered one, see "## Findings") |
| PurchasesServices.PurchaseOrderService.ConfirmOrder | app/domain/purchases/services.py:78-88 | the confirm transition, saved on success and nothing stored otherwise |
| PurchasesServices.PurchaseOrderService.ReceiveOrder | app/domain/purchases/services.py:90-113 | the receive transition, saved on success, with the lines whose inventory update failed |
| PurchasesServices.PurchaseOrderService.CancelOrder | app/domain/purchases/services.py:115-126 | the cancel transition, refused for received and invoiced orders, saved on success |
| PurchasesServices.PurchaseOrderService.Apply | app/domain/purchases/services.py:78-126 | load, check the status, set the new one and save: the store changes only on success |
| PurchasesServices.NewInvoice | app/domain/purchases/services.py:149-179 | a DRAFT invoice with the next invoice number, due on the given date or 30 days after its date, refused only when that date is out of range (the number comes from the corrected generator `PurchasesRepository.NextNumber`; the source calls the string-ordered one, see "## Findings") |
| PurchasesServices.NewInvoiceProperties | app/domain/purchases/services.py:149-179 | a new invoice owes its whole total, falls due after its date, and carries a number no stored invoice has (the number comes from the corrected generator `PurchasesRepository.NextNumber`; the source calls the string-ordered one, see "## Findings") |
| PurchasesServices.FromOrder | app/domain/purchases/services.py:181-217 | "Order not found" for an unknown order, "Order must be received first" for one not RECEIVED, otherwise an invoice |
| PurchasesServices.FromOrderBillsOrder | app/domain/purchases/services.py:181-217 | the invoice bills the order: same supplier and lines in line order, same total, reference "PO-" plus the order number, dated today, DRAFT, nothing paid, linked to the order |
| PurchasesServices.TruncateToInt | app/domain/purchases/services.py:252 | Python's int of a number: the integer next to it toward zero |
| PurchasesServices.PostingBalanced | app/domain/purchases/services.py:241-260 | the posting debits subtotal and tax and credits the total, so both sides equal the total and balance |
| PurchasesServices.PostChecks | app/domain/purchases/services.py:221-231 | "Invoice not found", "Only draft invoices can be posted" and "Supplier not found", in that order; otherwise the loaded invoice and its supplier |
| PurchasesServices.PostableIff | app/domain/purchases/services.py:233-294 | with known account codes, a checked draft posts exactly when its subtotal and its tax are both positive |
| PurchasesServices.DescriptionNotBlank | app/domain/purchases/services.py:234 | the posting description is never blank |
| PurchasesServices.PostingLinesValid | app/domain/purchases/services.py:241-260 | the three posting lines are all valid exactly when subtotal and tax are positive |
| PurchasesServices.PostingEntryOkIff | app/domain/purchases/services.py:241-260 | with known, non-empty account codes the journal accepts the posting entry exactly when subtotal and tax are positive |
| PurchasesServices.PostOutcomeFollowsEntry | app/domain/purchases/services.py:219-294 | once the invoice is found, is a DRAFT and its supplier is known, posting succeeds exactly when the journal accepts its entry |
| PurchasesServices.PostKeepsInvoice | app/domain/purchases/services.py:268-269 | posting a DRAFT invoice changes only its status, to POSTED, and its entry link; lines and total are kept |
| PurchasesServices.PostingNeverSucceeds | app/domain/purchases/services.py:237-239 | as written every post fails; once the invoice passes the guards it fails on the missing mapping method |
| PurchasesServices.PostAsWritten | app/domain/purchases/services.py:219-239 | as written, posting always fails, and a failing guard gives its own message |
| PurchasesServices.Paid | app/domain/purchases/services.py:341-347 | the amount is added to what was paid; PAID in both statuses once that covers the total, otherwise PARTIAL with the status unchanged; nothing else changes |
| PurchasesServices.PaymentChecks | app/domain/purchases/services.py:304-309 | "Invoice not found", then "Only posted invoices can be marked as paid"; otherwise the loaded invoice |
| PurchasesServices.PaymentAccumulates | app/domain/purchases/services.py:296-349 | a payment is taken only on a POSTED invoice, adds exactly its amount, and makes the invoice PAID exactly when the payments reach the total, PARTIAL and still POSTED otherwise |
| PurchasesServices.NonPositivePaymentRefused | app/domain/purchases/services.py:319-338 | a payment of zero or less is refused, its journal lines being invalid |
| PurchasesServices.PaidInvoiceTakesNoPayment | app/domain/purchases/services.py:308-309 | once an invoice is PAID, a further payment is refused |
| PurchasesServices.PaymentBalanced | app/domain/purchases/services.py:319-332 | the payment entry debits the supplier and credits the bank by the amount, and balances |
| PurchasesServices.PaymentNeverSucceeds | app/domain/purchases/services.py:315 | as written every payment fails; once the invoice passes the guards it fails on the missing mapping method |
| PurchasesServices.PayAsWritten | app/domain/purchases/services.py:296-315 | as written, paying always fails, and a failing guard gives its own message |
| PurchasesServices.AmountDueAfterPayment | app/domain/purchases/entities.py:141-144 | a payment lowers what is due by its amount, and the invoice is PAID exactly when nothing is left due |
| PurchasesServices.PurchaseInvoiceService.CreateInvoice | app/domain/purchases/services.py:149-179 | the new invoice, dated today unless a date is given, saved on success |
| PurchasesServices.PurchaseInvoiceService.CreateFromOrder | app/domain/purchases/services.py:181-217 | the invoice from the order is saved and the order stored INVOICED, or nothing changes |
| PurchasesServices.PurchaseInvoiceService.PostInvoiceAsWritten | app/domain/purchases/services.py:219-239 | as written, the result is always an error and nothing changes |
| PurchasesServices.PurchaseInvoiceService.PostInvoice | app/domain/purchases/services.py:219-294 | the corrected posting: the invoice saved POSTED and exactly one entry appended on success; nothing changes on error; inventory updated only for an invoice not made from an order |
| PurchasesServices.PurchaseInvoiceService.MarkPaidAsWritten | app/domain/purchases/services.py:296-315 | as written, the result is always an error and nothing changes |
| PurchasesServices.PurchaseInvoiceService.MarkPaid | app/domain/purchases/services.py:296-349 | the corrected payment: the payment entry appended and the paid invoice saved on success, nothing changed on error |
| AccountingReporting.FindGroup | app/domain/accounting/reporting_service.py:43 | the position of the group with the name, or the number of groups when there is none, and no earlier group has that name |
| AccountingReporting.AddItemSum | app/domain/accounting/reporting_service.py:156-165 | adding a line adds its amount to the sum of the group totals |
| AccountingReporting.AddItemGroupTotal | app/domain/accounting/reporting_service.py:156-165 | adding a line raises the total of its own group by its amount and leaves every other group's total alone |
| AccountingReporting.AddItemConsistent | app/domain/accounting/reporting_service.py:156-165 | adding a line keeps every group total equal to the sum of its lines |
| AccountingReporting.AddItemNoZero | app/domain/accounting/reporting_service.py:39-51 | adding a non-zero line keeps every line of every group non-zero |
| AccountingReporting.AssetPlacementOf | app/domain/accounting/reporting_service.py:63-86 | an asset account is always placed in the assets |
| AccountingReporting.SidePlacementOf | app/domain/accounting/reporting_service.py:89-116 | a liability or equity account is always placed in equity and liabilities |
| AccountingReporting.Placement | app/domain/accounting/reporting_service.py:55-116 | income and expense accounts are not placed; any other account is placed among the assets exactly when it is an asset |
| AccountingReporting.AssetPlacement | app/domain/accounting/reporting_service.py:63-86 | an asset is non-current exactly when its code starts with "2"; codes 57 are cash and codes 43/44 receivables, both current |
| AccountingReporting.SidePlacement | app/domain/accounting/reporting_service.py:89-116 | a liability is equity only with a code 10-12, an equity account a current liability only with a code 40, 41 or 52, and codes 13-17 outside 10-12 are exactly the long-term debts |
| AccountingReporting.AddToCategoryKeeps | app/domain/accounting/reporting_service.py:39-53 | adding an amount keeps every total the sum of its parts and no line zero, and adds the amount to the side it is on only |
| AccountingReporting.SheetFold | app/domain/accounting/reporting_service.py:55-116 | the report after any prefix of the loop is consistent and carries the end date |
| AccountingReporting.SheetTotals | app/domain/accounting/reporting_service.py:55-116 | the assets total is the sum of the asset balances and the equity-and-liabilities total the sum of the equity and liability balances; income and expense accounts count in neither |
| AccountingReporting.IncomeClass | app/domain/accounting/reporting_service.py:168-181 | an income account is financial exactly when its code starts with "76", and never a tax |
| AccountingReporting.ExpenseClass | app/domain/accounting/reporting_service.py:184-206 | an expense is a tax on profits exactly when its code starts with "63", which is exactly its going to group 16, and financial exactly when it starts with "66" |
| AccountingReporting.BookKeeps | app/domain/accounting/reporting_service.py:156-206 | booking a line keeps the groups in step with the results and adds its amount to the sum of the group totals |
| AccountingReporting.IncomeStepKeeps | app/domain/accounting/reporting_service.py:168-181 | one income account adds its balance to the group totals and keeps the report consistent |
| AccountingReporting.ExpenseStepKeeps | app/domain/accounting/reporting_service.py:184-206 | one expense account takes its balance off the group totals and keeps the report consistent |
| AccountingReporting.IncomeFoldSum | app/domain/accounting/reporting_service.py:168-181 | the income loop adds the sum of the income balances to the group totals |
| AccountingReporting.ExpenseFoldSum | app/domain/accounting/reporting_service.py:184-206 | the expense loop takes the sum of the expense balances off the group totals |
| AccountingReporting.ProfitLossResult | app/domain/accounting/reporting_service.py:168-215 | the result of the year is total income less total expenses and the sum of the group totals; the pre-tax result is the operating plus the financial result |
| AccountingReporting.OneMoreExpense | app/domain/accounting/reporting_service.py:184-215 | one more expense lowers the result of the year by its balance, the operating result when it is operating, the financial one for code 66, and neither for a tax (63) |
| AccountingReporting.ReportingService.GetBalanceSheetReport | app/domain/accounting/reporting_service.py:14-118 | the loop builds the report the fold describes over every account, and it is consistent |
| AccountingReporting.ReportingService.GetProfitLossReport | app/domain/accounting/reporting_service.py:120-218 | the loops build the report the folds describe |

## Left out

- Persistence: SQLAlchemy sessions, models and queries are not modelled. A repository is a sequence or map; `save` replaces the record with the same id or adds it, and `find_by_id` looks it up. From the repository files only the number generators, `get_next_entry_number`, the line ordering of `_to_entity` and the order by name of the partners' `list_all` are modelled.
- Partners.ListAll: names are compared by code point, which is SQLite's default binary collation; the collation of another database is not modelled. Partners with equal names are kept in the order they were stored, an order SQL leaves open.
- Identifiers and time: uuids, database auto-increment ids, `date.today()`, `datetime.now()` and the `%m%d%H%M` time stamp are inputs, because they are not functions of the state.
- Decimal precision: amounts are exact reals. The 28-digit context of Python's `Decimal` is not modelled; cent rounding is, wherever the code quantizes.
- Floats: amounts the code keeps as Python floats (assets, inventory prices, bank lines, journal line amounts) are reals. No IEEE rounding is claimed.
- Text: `strip` and `isspace` use the full set of characters Python's `str.isspace()` treats as whitespace (`Text.IsSpace`), but `upper` and `lower` are modelled on ASCII letters only. Unicode case mapping is left out. `Text.Blank` means "empty or all whitespace", which is what `not s.strip()` tests.
- The VAT rate in the descriptions of the VAT lines is rendered by a parameter `rateText`. `tax_breakdown` turns each rate into a float (app/domain/sales/entities.py:337), and the f-string prints it as `str(float)` does, so 21 becomes "21.0". Python's shortest round-trip float printing is outside the model. Rates are exact reals, so float rounding of the keys is left out too.
- Account codes from the account-mapping service are parameters of the posting functions. The mapping service's own constants are not modelled, apart from the methods it lacks (see Findings).
- Dictionary order: report groups, the VAT breakdown and model 303 slots are lists in insertion order, which is Python's dictionary order. The order in which SQL returns rows is an input wherever the code relies on it.
- Audit: the JSON text of old and new values is modelled by the map it parses to. `json.dumps` and `json.loads` are left out.
- The profit and loss report calls `AccountingService.get_profit_loss`, which does not exist. `ReportingService.GetProfitLossReport` therefore takes the period's income and expense lists (code, name, balance) as inputs, and so the call would fail in the source before any of the modelled logic runs.
- Purchases `post_invoice` and `mark_paid` call `create_journal_entry` with a keyword list the accounting service does not accept (`date=` where it takes `entry_date`). Their `entry_lines` are dictionaries, too: the loop `for account_code, debit, credit, line_desc in lines` would unpack each four-key dictionary into its keys, so the account looked up would be "account_code", which does not exist. The corrected members call the modelled `CreateJournalEntry` with the same date, description and lines as tuples.
- `AccountingServices.AccountingService.CreateAccount`: the source passes fields that `Account` does not have, so it would raise on every call. The model keeps the evident rule: a duplicate code is refused, and otherwise the account is added. Debit-sidedness (`is_debit_account`, which `Account` lacks) is a field of the modelled account record.
- HR: `app/domain/hr/services.py` imports `Payroll`/`PayrollStatus`, which the entities file does not define. The payroll record of the model carries the fields `calculate_payroll` writes. `Employee.validate`, and the employee fields the service reads but the entity lacks, are modelled only as the service uses them. Only the second `EmployeeService` is modelled, because Python keeps the last definition. Its update, list and get use cases are plain repository reads and writes and are left out.
- The PDF and Excel exports, email, the SII stubs, authentication, the AI classifier, loan amortisation (floating point), the treasury forecast and analytics are outside the modelled core.
- Banking: the CSV statement upload (csv parsing, float and strptime) is left out, as are statement get and list. Only `reconcile_line` is modelled.
- Partners: `list_partners` and the other plain list and get calls are left out.
- Budgets: get, list and delete are plain repository calls and are left out.
- Inventory: `get_item`, `get_item_by_code`, `list_items` and `list_movements` are plain repository reads and are left out, and so is the `is_active` filter of `list_all`. The database's unique constraint on item codes is modelled as the `FirstCodeIndex` lookup. `record_purchase`, called by the purchase services, is a parameter standing for whether each update went through.
- File storage: `save_file`, `delete_file`, `get_file_path` and `file_exists` are filesystem I/O and are left out. Only `_sanitize_filename` is modelled.
- FileStorage.Basename: `os.path.basename` is modelled as on POSIX (`posixpath.basename`), which splits at '/' only. On Windows `os.path` is `ntpath`, which also splits at a backslash and after a drive colon; that variant is not modelled.
- Documents: the rounding of `file_size_mb`, the uuid and `fromisoformat` are left out.
- Fiscal years: `list_all` is the store itself, and `get_fiscal_year_for_date` is `FindByDate`.
- Model 303: the in-place updates of shared `VatDetail` objects are modelled on values, so aliasing between slots is not captured.
- Assets: listing is left out. Only the LINEAR depreciation method exists in the source, and only it is modelled.
- Sales: get and list use cases are left out. The audit log calls of the purchase services are left out, and so are the line uuids.
- Purchases numbering: the year 2025 is written into the generators, as in the source. When an order is received or posted, the inventory reference is `"PO-" + order_number` even though the number already starts with "PO-". The model does not carry that reference.
- Concurrency: the source has no locking, and each use case is modelled as one atomic step.
- Digits: `\d` in the patterns, `int()` and `str.isdigit()` accept every Unicode decimal digit (Arabic-Indic, full-width and others). The model accepts only the ASCII digits '0' to '9' (`Text.IsDigit`), in the NIF, NIE and CIF validators, the IBAN validator and the NSS validator alike.
- AccountingEntities.ValidateEntry: the message for an unbalanced entry stops at "L'assentament no està quadrat". The totals the source appends (": Deure=…, Haver=…", app/domain/accounting/entities.py:99-102) are left out, because amounts are exact reals, which do not keep the exponent that `str(Decimal)` prints.
- AccountingServices.AccountingService.GetAccountBalance: app/domain/accounts/entities.py defines `Account` with only `code`, `name`, `account_type` (a string) and `is_active`. It defines no `AccountType`, so the imports of `AccountType` at app/domain/accounting/entities.py:8, app/domain/accounting/services.py:5 and app/domain/accounting/reporting_service.py:5 fail. Even with them, `account.is_debit_account` (app/domain/accounting/services.py:159) does not exist. The model assumes the richer account the accounting code expects: `LedgerAccount`, with a type enumeration, a group, a parent and `debitSide` standing for `is_debit_account`.
- AccountingServices.AccountingService.GetTrialBalance: it rests on the same assumed account, both through `get_account_balance` and through `account.account_type.value`, which a string type does not have.

## Findings

| source | as written | input that shows it | evidently intended | confidence | as-written member | corrected member |
|---|---|---|---|---|---|---|
| app/domain/validators/nif_cif_validator.py:28 | `upper().strip()` runs before dashes and spaces are deleted, and `$` matches before a final newline, so a string that ends in whitespace once a dash is gone still matches `^\d{8}[A-Z]$` and `int(nif[:-1])` raises `ValueError` | "12345678Z\n-" | delete dashes and spaces first, then strip, so the NIF validates | not executed | NifCifValidator.NifNewlineDashRaises | Normalization.Normalize |
| app/domain/validators/nif_cif_validator.py:52 | `validate_nie` strips before deleting dashes and spaces, and `$` matches before a final newline, so a valid NIE followed by "\n-" passes the shape check and `int` raises `ValueError` | "X1234567L\n-" | delete first, then strip, so the NIE validates | not executed | NifCifValidator.NieNewlineDashRaises | NifCifValidator.ValidateNie |
| app/domain/validators/nif_cif_validator.py:78 | `validate_cif` strips before deleting, so a valid CIF followed by "\t-" keeps the tab and is refused | a valid CIF followed by "\t-" | the CIF validates | not executed | NifCifValidator.CifTabDashRefused | NifCifValidator.ValidateCif |
| app/domain/validators/nif_cif_validator.py:124 | `validate_document` strips before deleting, so "-\t" before a NIF leaves a tab in front, and no branch takes a tab | "-\t12345678Z" | the NIF is found | not executed | NifCifValidator.DocumentDashTabInvalid | NifCifValidator.ValidateDocument |
| app/domain/validators/iban_validator.py:32 | `validate_iban` strips before deleting, so a valid IBAN followed by "\t-" keeps the tab and fails the pattern | "ES9121000418450200051332\t-" | the IBAN validates | not executed | IbanValidator.IbanTabDashRefused | IbanValidator.ValidateIban |
| app/domain/validators/iban_validator.py:32 | the same order leaves a newline before a final dash, `$` accepts it, and the newline expands to "-45", so `int` raises `ValueError` instead of answering | a well-shaped IBAN whose country length counts the newline, followed by "\n-" | answer False | not executed | IbanValidator.IbanNewlineDashRaises | IbanValidator.ValidateIban |
| app/domain/validators/iban_validator.py:73 | `format_iban` strips before deleting, so a tab before a final dash survives into the groups | "ES9121000418450200051332\t-" | the twenty-four characters in groups of four | not executed | IbanValidator.FormatIbanKeepsTab | IbanValidator.FormatIban |
| app/domain/validators/iban_validator.py:86 | `get_country_code` strips before deleting, so "-\t" before a Spanish IBAN gives the country "\tE", and `is_spanish_iban` says no | "-\tES9121000418450200051332" | the country "ES" | not executed | IbanValidator.DashTabNotSpanish | IbanValidator.CountryCode |
| app/domain/validators/nss_validator.py:68 | `get_province_code` strips before deleting, so "-\t" before a number leaves the tab in front, and it becomes the first province character | "-\t281234567840" | the province "28" | not executed | NssValidator.ProvinceDashTab | NssValidator.GetProvinceCode |
| app/domain/validators/nss_validator.py:20 | strip before deleting spaces, dashes and slashes, so "<12 digits>\n/" cleans to thirteen characters that `^\d{12}$` accepts and `format_nss` leaves unformatted | "281234567840\n/" with valid control digits | the twelve digits are validated and formatted | not executed | NssValidator.AsWrittenNewlineSlash | NssValidator.Clean |
| app/infrastructure/persistence/sales/repository.py:142-160 | the last number is chosen by string order, so "PRE-2025-999" sorts after "PRE-2025-1000", and the next number is "PRE-2025-1000" again | stored "PRE-2025-999" and "PRE-2025-1000" | continue from the greatest numeric tail, giving a number not yet stored | not executed | SalesNumbering.NumberRepeatsAfter999 | SalesNumbering.NextNumberFresh |
| app/infrastructure/persistence/purchases/repository.py:129-145 | the same string order in the purchase order and invoice generators repeats "PO-2025-1000" | stored "PO-2025-999" and "PO-2025-1000" | continue from the greatest numeric tail | not executed | PurchasesRepository.NumberRepeatsAfter999 | PurchasesRepository.NextNumberFresh |
| app/domain/sales/services.py:401-403 | `partner.payment_days` is read, but `Partner` has no such field, so invoicing a delivered order of a known partner raises `AttributeError` | any delivered, valid order whose partner exists | invoice with the 30-day default term | not executed | SalesInvoicing.KnownPartnerBlocksInvoicing | SalesInvoicing.InvoiceFromOrder |
| app/domain/purchases/services.py:237-239 | `post_invoice` calls `get_purchase_account`, which `AccountMappingService` does not define, so every draft invoice with a known supplier fails | any DRAFT invoice whose supplier exists | post the balanced three-line entry and mark the invoice POSTED | not executed | PurchasesServices.PostingNeverSucceeds | PurchasesServices.PostableIff |
| app/domain/purchases/services.py:315 | `mark_paid` calls `get_accounts_payable_account`, which `AccountMappingService` does not define, so no payment can be recorded | any POSTED invoice | record the payment entry and accumulate `amount_paid` | not executed | PurchasesServices.PaymentNeverSucceeds | PurchasesServices.PaymentAccumulates |
