/**
 * Sales documents: the shared sales line with its cent-rounded amounts,
 * quotes, sales orders and sales invoices with their totals, validation
 * and status transitions, and the per-rate VAT breakdown of an invoice.
 *
 * Each document is an object whose transition methods update its fields;
 * the record a repository stores is the matching `...Record` value.
 */
module SalesEntities {
  import opened Wrappers
  import opened Money
  import opened Dates
  import opened Text

  datatype QuoteStatus = DRAFT | SENT | ACCEPTED | REJECTED | EXPIRED
  datatype OrderStatus = DRAFT | CONFIRMED | IN_PROGRESS | DELIVERED | CANCELLED
  datatype InvoiceStatus = DRAFT | POSTED | PAID | CANCELLED
  datatype PaymentStatus = PENDING | PARTIAL | PAID

  // ---------------------------------------------------------------- lines

  /** A line of a quote, order or invoice. The line's uuid is never read and is not modelled. */
  datatype SalesLine = SalesLine(
    productCode: string,
    description: string,
    quantity: real,
    unitPrice: real,
    discountPercent: real,
    taxRate: real)

  /** `subtotal`: quantity times unit price, rounded to cents. */
  function LineSubtotal(l: SalesLine): (r: real)
    ensures IsCents(r)
  {
    Quantize(l.quantity * l.unitPrice)
  }

  /** `discount_amount`: the discount percentage of the subtotal, rounded to cents. */
  function DiscountAmount(l: SalesLine): (r: real)
    ensures IsCents(r)
  {
    Percent(LineSubtotal(l), l.discountPercent)
  }

  /** `subtotal_after_discount`: the rounding is a no-op, both operands being cents already. */
  function NetAmount(l: SalesLine): (r: real)
    ensures IsCents(r)
    ensures r == LineSubtotal(l) - DiscountAmount(l)
  {
    var s, d := LineSubtotal(l), DiscountAmount(l);
    CentsAdd(s, d);
    QuantizeCents(s - d);
    Quantize(s - d)
  }

  /** `tax_amount`: the VAT rate applied to the discounted subtotal, rounded to cents. */
  function LineTax(l: SalesLine): (r: real)
    ensures IsCents(r)
  {
    Percent(NetAmount(l), l.taxRate)
  }

  /** `total`: discounted subtotal plus VAT, exactly. */
  function LineTotal(l: SalesLine): (r: real)
    ensures IsCents(r)
    ensures r == NetAmount(l) + LineTax(l)
  {
    var n, t := NetAmount(l), LineTax(l);
    CentsAdd(n, t);
    QuantizeCents(n + t);
    Quantize(n + t)
  }

  /** The VAT rates `validate` accepts. */
  const TaxRates: set<real> := {0.0, 4.0, 10.0, 21.0}

  predicate LineValid(l: SalesLine)
  {
    && !Blank(l.productCode)
    && !Blank(l.description)
    && l.quantity > 0.0
    && l.unitPrice >= 0.0
    && 0.0 <= l.discountPercent <= 100.0
    && l.taxRate in TaxRates
  }

  /** `SalesLine.validate`: the first failing check's message. */
  function ValidateLine(l: SalesLine): (r: Result<(), string>)
    ensures r.Ok? <==> LineValid(l)
    ensures Blank(l.productCode) ==> r == Err("El codi del producte és obligatori")
    ensures !Blank(l.productCode) && Blank(l.description) ==> r == Err("La descripció és obligatòria")
  {
    if Blank(l.productCode) then Err("El codi del producte és obligatori")
    else if Blank(l.description) then Err("La descripció és obligatòria")
    else if l.quantity <= 0.0 then Err("La quantitat ha de ser superior a 0")
    else if l.unitPrice < 0.0 then Err("El preu unitari no pot ser negatiu")
    else if l.discountPercent < 0.0 || l.discountPercent > 100.0 then Err("El descompte ha d'estar entre 0 i 100")
    else if l.taxRate !in TaxRates then Err("El tipus d'IVA ha de ser 0, 4, 10 o 21")
    else Ok(())
  }

  lemma SubtotalNonNegative(l: SalesLine)
    requires l.quantity > 0.0 && l.unitPrice >= 0.0
    ensures LineSubtotal(l) >= 0.0
  {
    var x := l.quantity * l.unitPrice;
    assert x >= 0.0;
    QuantizeNonNegative(x);
  }

  lemma DiscountWithinSubtotal(l: SalesLine)
    requires LineSubtotal(l) >= 0.0 && 0.0 <= l.discountPercent <= 100.0
    ensures 0.0 <= DiscountAmount(l) <= LineSubtotal(l)
  {
    PercentWithin(LineSubtotal(l), l.discountPercent);
  }

  lemma TaxNonNegative(l: SalesLine)
    requires NetAmount(l) >= 0.0 && l.taxRate >= 0.0
    ensures LineTax(l) >= 0.0
  {
    PercentNonNegative(NetAmount(l), l.taxRate);
  }

  /** On a valid line the discount lies between 0 and the subtotal, so no amount is negative. */
  lemma ValidLineAmounts(l: SalesLine)
    requires LineValid(l)
    ensures 0.0 <= DiscountAmount(l) <= LineSubtotal(l)
    ensures NetAmount(l) >= 0.0 && LineTax(l) >= 0.0 && LineTotal(l) >= NetAmount(l)
  {
    SubtotalNonNegative(l);
    DiscountWithinSubtotal(l);
    TaxNonNegative(l);
  }

  predicate AllLinesValid(lines: seq<SalesLine>)
  {
    forall i :: 0 <= i < |lines| ==> LineValid(lines[i])
  }

  lemma ValidPrefix(lines: seq<SalesLine>, n: nat)
    requires AllLinesValid(lines) && n <= |lines|
    ensures AllLinesValid(lines[..n])
  {
    assert forall i :: 0 <= i < n ==> lines[..n][i] == lines[i];
  }

  /** Position of the first invalid line, `|lines|` when all are valid: where the validation loop raises. */
  function FirstInvalid(lines: seq<SalesLine>): (k: nat)
    ensures k <= |lines|
    ensures k < |lines| ==> !LineValid(lines[k])
    ensures forall j :: 0 <= j < k ==> LineValid(lines[j])
  {
    if lines == [] then 0 else if !LineValid(lines[0]) then 0 else 1 + FirstInvalid(lines[1..])
  }

  /** `for line in self.lines: line.validate()`: the first invalid line's message. */
  function ValidateLines(lines: seq<SalesLine>): (r: Result<(), string>)
    ensures r.Ok? <==> AllLinesValid(lines)
  {
    var k := FirstInvalid(lines);
    if k == |lines| then Ok(()) else ValidateLine(lines[k])
  }

  // ---------------------------------------------------------------- document totals

  /** `subtotal`: the sum of the discounted line subtotals. */
  function Subtotal(lines: seq<SalesLine>): (r: real)
    ensures IsCents(r)
  {
    if lines == [] then ZeroCents(); 0.0
    else
      var s, n := Subtotal(lines[..|lines| - 1]), NetAmount(lines[|lines| - 1]);
      CentsAdd(s, n);
      s + n
  }

  /** `total_tax`: the sum of the line VAT amounts. */
  function TotalTax(lines: seq<SalesLine>): (r: real)
    ensures IsCents(r)
  {
    if lines == [] then ZeroCents(); 0.0
    else
      var s, t := TotalTax(lines[..|lines| - 1]), LineTax(lines[|lines| - 1]);
      CentsAdd(s, t);
      s + t
  }

  /**
   * `total`: subtotal plus VAT. For a document without lines Python's `sum`
   * returns the integer 0, which has no `quantize`, so the property raises
   * `AttributeError`: that case is `None`.
   */
  function Total(lines: seq<SalesLine>): (r: Option<real>)
    ensures r.None? <==> lines == []
    ensures r.Some? ==> IsCents(r.value) && r.value == Subtotal(lines) + TotalTax(lines)
  {
    if lines == [] then None
    else
      var s, t := Subtotal(lines), TotalTax(lines);
      CentsAdd(s, t);
      QuantizeCents(s + t);
      Some(Quantize(s + t))
  }

  /** The grand total is the sum of the line totals. */
  lemma {:induction false} TotalIsSumOfLineTotals(lines: seq<SalesLine>)
    ensures Subtotal(lines) + TotalTax(lines) == SumLineTotals(lines)
  {
    if lines != [] {
      TotalIsSumOfLineTotals(lines[..|lines| - 1]);
    }
  }

  function SumLineTotals(lines: seq<SalesLine>): real
  {
    if lines == [] then 0.0 else SumLineTotals(lines[..|lines| - 1]) + LineTotal(lines[|lines| - 1])
  }

  /** With valid lines neither the subtotal nor the VAT total is negative. */
  lemma {:induction false} ValidTotalsNonNegative(lines: seq<SalesLine>)
    requires AllLinesValid(lines)
    ensures Subtotal(lines) >= 0.0 && TotalTax(lines) >= 0.0
  {
    if lines != [] {
      var n := |lines| - 1;
      ValidPrefix(lines, n);
      ValidTotalsNonNegative(lines[..n]);
      ValidLineAmounts(lines[n]);
    }
  }

  // ---------------------------------------------------------------- VAT breakdown

  /** One entry of `tax_breakdown`: the summed base and VAT of the lines at one rate. */
  datatype TaxGroup = TaxGroup(rate: real, base: real, tax: real)

  /** Position of the entry for `rate`, `|g|` when there is none (dictionary lookup). */
  function GroupIndex(g: seq<TaxGroup>, rate: real): (k: nat)
    ensures k <= |g|
    ensures k < |g| ==> g[k].rate == rate
    ensures forall j :: 0 <= j < k ==> g[j].rate != rate
  {
    if g == [] then 0 else if g[0].rate == rate then 0 else 1 + GroupIndex(g[1..], rate)
  }

  /** One iteration of the loop: create the entry for a new rate, then add the line's base and VAT to it. */
  function AddLine(g: seq<TaxGroup>, l: SalesLine): seq<TaxGroup>
  {
    var k := GroupIndex(g, l.taxRate);
    if k == |g| then g + [TaxGroup(l.taxRate, 0.0 + NetAmount(l), 0.0 + LineTax(l))]
    else g[k := TaxGroup(l.taxRate, g[k].base + NetAmount(l), g[k].tax + LineTax(l))]
  }

  /** `tax_breakdown`: the entries in the order their rates first occur (a dictionary keeps insertion order). */
  function Breakdown(lines: seq<SalesLine>): seq<TaxGroup>
  {
    if lines == [] then [] else AddLine(Breakdown(lines[..|lines| - 1]), lines[|lines| - 1])
  }

  /** Sum of the discounted subtotals of the lines at `rate`. */
  function RateBase(lines: seq<SalesLine>, rate: real): real
  {
    if lines == [] then 0.0
    else RateBase(lines[..|lines| - 1], rate) + (if lines[|lines| - 1].taxRate == rate then NetAmount(lines[|lines| - 1]) else 0.0)
  }

  /** Sum of the VAT amounts of the lines at `rate`. */
  function RateTax(lines: seq<SalesLine>, rate: real): real
  {
    if lines == [] then 0.0
    else RateTax(lines[..|lines| - 1], rate) + (if lines[|lines| - 1].taxRate == rate then LineTax(lines[|lines| - 1]) else 0.0)
  }

  function SumBases(g: seq<TaxGroup>): real
  {
    if g == [] then 0.0 else SumBases(g[..|g| - 1]) + g[|g| - 1].base
  }

  function SumTaxes(g: seq<TaxGroup>): real
  {
    if g == [] then 0.0 else SumTaxes(g[..|g| - 1]) + g[|g| - 1].tax
  }

  predicate DistinctRates(g: seq<TaxGroup>)
  {
    forall i, j :: 0 <= i < j < |g| ==> g[i].rate != g[j].rate
  }

  predicate HasRate(g: seq<TaxGroup>, rate: real)
  {
    exists j :: 0 <= j < |g| && g[j].rate == rate
  }

  predicate SomeLineHasRate(lines: seq<SalesLine>, rate: real)
  {
    exists i :: 0 <= i < |lines| && lines[i].taxRate == rate
  }

  /** Every entry holds exactly the base and VAT of the lines at its rate. */
  predicate Tallies(g: seq<TaxGroup>, lines: seq<SalesLine>)
  {
    forall j :: 0 <= j < |g| ==> g[j].base == RateBase(lines, g[j].rate) && g[j].tax == RateTax(lines, g[j].rate)
  }

  lemma {:induction false} RateSumsAbsent(lines: seq<SalesLine>, rate: real)
    requires !SomeLineHasRate(lines, rate)
    ensures RateBase(lines, rate) == 0.0 && RateTax(lines, rate) == 0.0
  {
    if lines != [] {
      var n := |lines| - 1;
      assert !SomeLineHasRate(lines[..n], rate) by {
        forall i | 0 <= i < n ensures lines[..n][i].taxRate != rate {
          assert lines[..n][i] == lines[i];
        }
      }
      RateSumsAbsent(lines[..n], rate);
    }
  }

  lemma {:induction false} SumUpdate(g: seq<TaxGroup>, k: nat, x: TaxGroup)
    requires k < |g|
    ensures SumBases(g[k := x]) == SumBases(g) - g[k].base + x.base
    ensures SumTaxes(g[k := x]) == SumTaxes(g) - g[k].tax + x.tax
  {
    var n := |g| - 1;
    if k < n {
      assert g[k := x][..n] == g[..n][k := x];
      SumUpdate(g[..n], k, x);
    } else {
      assert g[k := x][..n] == g[..n];
    }
  }

  lemma SumAppend(g: seq<TaxGroup>, x: TaxGroup)
    ensures SumBases(g + [x]) == SumBases(g) + x.base
    ensures SumTaxes(g + [x]) == SumTaxes(g) + x.tax
  {
    assert (g + [x])[..|g|] == g;
  }

  /** The line sums per rate gain exactly the last line at its own rate. */
  lemma RateSumsSnoc(lines: seq<SalesLine>, rate: real)
    requires lines != []
    ensures var l := lines[|lines| - 1];
      && RateBase(lines, rate) == RateBase(lines[..|lines| - 1], rate) + (if l.taxRate == rate then NetAmount(l) else 0.0)
      && RateTax(lines, rate) == RateTax(lines[..|lines| - 1], rate) + (if l.taxRate == rate then LineTax(l) else 0.0)
  {
  }

  lemma SomeLineSnoc(lines: seq<SalesLine>, rate: real)
    requires lines != []
    ensures SomeLineHasRate(lines, rate) <==>
      SomeLineHasRate(lines[..|lines| - 1], rate) || lines[|lines| - 1].taxRate == rate
  {
    var n := |lines| - 1;
    if SomeLineHasRate(lines, rate) && lines[n].taxRate != rate {
      var i :| 0 <= i < |lines| && lines[i].taxRate == rate;
      assert lines[..n][i] == lines[i];
    }
    if SomeLineHasRate(lines[..n], rate) {
      var i :| 0 <= i < n && lines[..n][i].taxRate == rate;
      assert lines[..n][i] == lines[i];
    }
  }

  /** Adding a line whose rate has no entry yet appends an entry that tallies it. */
  lemma AddNewRate(g: seq<TaxGroup>, lines: seq<SalesLine>)
    requires lines != []
    requires var p, l := lines[..|lines| - 1], lines[|lines| - 1];
      && DistinctRates(g) && Tallies(g, p) && (forall r :: HasRate(g, r) <==> SomeLineHasRate(p, r))
      && GroupIndex(g, l.taxRate) == |g|
    ensures var p, l := lines[..|lines| - 1], lines[|lines| - 1];
      && DistinctRates(AddLine(g, l)) && Tallies(AddLine(g, l), lines)
  {
    var p, l := lines[..|lines| - 1], lines[|lines| - 1];
    var r := AddLine(g, l);
    assert !HasRate(g, l.taxRate);
    RateSumsAbsent(p, l.taxRate);
    forall j | 0 <= j < |r| ensures r[j].base == RateBase(lines, r[j].rate) && r[j].tax == RateTax(lines, r[j].rate) {
      RateSumsSnoc(lines, r[j].rate);
    }
  }

  /** Adding a line whose rate has an entry adds its base and VAT to that entry only. */
  lemma AddKnownRate(g: seq<TaxGroup>, lines: seq<SalesLine>)
    requires lines != []
    requires var p, l := lines[..|lines| - 1], lines[|lines| - 1];
      && DistinctRates(g) && Tallies(g, p) && GroupIndex(g, l.taxRate) < |g|
    ensures var p, l := lines[..|lines| - 1], lines[|lines| - 1];
      && DistinctRates(AddLine(g, l)) && Tallies(AddLine(g, l), lines)
  {
    var p, l := lines[..|lines| - 1], lines[|lines| - 1];
    var k := GroupIndex(g, l.taxRate);
    var r := AddLine(g, l);
    forall j | 0 <= j < |r| ensures r[j].base == RateBase(lines, r[j].rate) && r[j].tax == RateTax(lines, r[j].rate) {
      RateSumsSnoc(lines, r[j].rate);
    }
  }

  lemma AddLineRates(g: seq<TaxGroup>, l: SalesLine, rate: real)
    ensures HasRate(AddLine(g, l), rate) <==> HasRate(g, rate) || l.taxRate == rate
  {
    var r := AddLine(g, l);
    var k := GroupIndex(g, l.taxRate);
    if HasRate(g, rate) {
      var j :| 0 <= j < |g| && g[j].rate == rate;
      assert r[j].rate == rate;
    }
    if HasRate(r, rate) && l.taxRate != rate {
      var j :| 0 <= j < |r| && r[j].rate == rate;
      assert j < |g| && g[j].rate == rate;
    }
    if l.taxRate == rate {
      assert r[if k == |g| then |g| else k].rate == rate;
    }
  }

  lemma AddLineSums(g: seq<TaxGroup>, l: SalesLine)
    ensures SumBases(AddLine(g, l)) == SumBases(g) + NetAmount(l)
    ensures SumTaxes(AddLine(g, l)) == SumTaxes(g) + LineTax(l)
  {
    var k := GroupIndex(g, l.taxRate);
    if k == |g| {
      SumAppend(g, TaxGroup(l.taxRate, 0.0 + NetAmount(l), 0.0 + LineTax(l)));
    } else {
      SumUpdate(g, k, TaxGroup(l.taxRate, g[k].base + NetAmount(l), g[k].tax + LineTax(l)));
    }
  }

  /**
   * The breakdown has one entry per rate that occurs on some line and no
   * other, each entry holds exactly the base and VAT of the lines at its
   * rate, and the bases sum to the subtotal and the VAT amounts to the VAT
   * total.
   */
  lemma {:induction false} BreakdownCorrect(lines: seq<SalesLine>)
    ensures var g := Breakdown(lines);
      && DistinctRates(g)
      && Tallies(g, lines)
      && (forall rate :: HasRate(g, rate) <==> SomeLineHasRate(lines, rate))
      && SumBases(g) == Subtotal(lines)
      && SumTaxes(g) == TotalTax(lines)
  {
    if lines != [] {
      var n := |lines| - 1;
      var p, l := lines[..n], lines[n];
      var g := Breakdown(p);
      BreakdownCorrect(p);
      if GroupIndex(g, l.taxRate) == |g| {
        AddNewRate(g, lines);
      } else {
        AddKnownRate(g, lines);
      }
      forall rate ensures HasRate(AddLine(g, l), rate) <==> SomeLineHasRate(lines, rate) {
        AddLineRates(g, l, rate);
        SomeLineSnoc(lines, rate);
      }
      AddLineSums(g, l);
    }
  }

  /** The VAT amounts of the entries whose VAT is positive: the ones `post_invoice` books. */
  function PositiveTaxes(g: seq<TaxGroup>): real
  {
    if g == [] then 0.0
    else PositiveTaxes(g[..|g| - 1]) + (if g[|g| - 1].tax > 0.0 then g[|g| - 1].tax else 0.0)
  }

  lemma {:induction false} RateTaxNonNegative(lines: seq<SalesLine>, rate: real)
    requires AllLinesValid(lines)
    ensures RateTax(lines, rate) >= 0.0
  {
    if lines != [] {
      var n := |lines| - 1;
      ValidPrefix(lines, n);
      RateTaxNonNegative(lines[..n], rate);
      ValidLineAmounts(lines[n]);
    }
  }

  lemma {:induction false} PositiveTaxesAll(g: seq<TaxGroup>)
    requires forall j :: 0 <= j < |g| ==> g[j].tax >= 0.0
    ensures PositiveTaxes(g) == SumTaxes(g)
  {
    if g != [] {
      PositiveTaxesAll(g[..|g| - 1]);
    }
  }

  /** With valid lines no entry has negative VAT, so skipping the zero entries loses nothing. */
  lemma ValidPositiveTaxes(lines: seq<SalesLine>)
    requires AllLinesValid(lines)
    ensures PositiveTaxes(Breakdown(lines)) == TotalTax(lines)
  {
    var g := Breakdown(lines);
    BreakdownCorrect(lines);
    forall j | 0 <= j < |g| ensures g[j].tax >= 0.0 {
      RateTaxNonNegative(lines, g[j].rate);
    }
    PositiveTaxesAll(g);
  }

  // ---------------------------------------------------------------- invoice numbering

  /** `invoice_number`: `f"{series}/{year}/{number:03d}"`. */
  function InvoiceNumber(series: string, year: int, number: int): (r: string)
    ensures |r| >= |series| + |IntToString(year)| + 5
    ensures r[..|series| + |IntToString(year)| + 2] == series + "/" + IntToString(year) + "/"
    ensures var tail := r[|series| + |IntToString(year)| + 2..]; |tail| >= 3 && ParseInt(tail) == Some(number)
  {
    ParsePadInt(number, 3);
    var prefix := series + "/" + IntToString(year) + "/";
    PrefixLength(series, IntToString(year));
    SlicesOfJoin(prefix, PadInt(number, 3));
    prefix + PadInt(number, 3)
  }

  lemma PrefixLength(series: string, year: string)
    ensures |series + "/" + year + "/"| == |series| + |year| + 2
  {
  }

  /** Cutting a concatenation where its parts meet gives the parts back. */
  lemma SlicesOfJoin(x: string, y: string)
    ensures (x + y)[..|x|] == x && (x + y)[|x|..] == y
  {
  }

  /** Within one series and year, distinct numbers give distinct invoice numbers. */
  lemma InvoiceNumberInjective(series: string, year: int, n1: int, n2: int)
    requires InvoiceNumber(series, year, n1) == InvoiceNumber(series, year, n2)
    ensures n1 == n2
  {
    var k := |series| + |IntToString(year)| + 2;
    assert InvoiceNumber(series, year, n1)[k..] == InvoiceNumber(series, year, n2)[k..];
  }

  // ---------------------------------------------------------------- quotes

  datatype QuoteRecord = QuoteRecord(
    id: string,
    quoteNumber: string,
    quoteDate: Date,
    validUntil: Date,
    partnerId: string,
    lines: seq<SalesLine>,
    status: QuoteStatus,
    notes: string)

  predicate QuoteValid(q: QuoteRecord)
  {
    && !Blank(q.quoteNumber)
    && !Blank(q.partnerId)
    && q.lines != []
    && !Before(q.validUntil, q.quoteDate)
    && AllLinesValid(q.lines)
  }

  /** `Quote.validate`. */
  function ValidateQuote(q: QuoteRecord): (r: Result<(), string>)
    ensures r.Ok? <==> QuoteValid(q)
    ensures Blank(q.quoteNumber) ==> r == Err("El número de pressupost és obligatori")
    ensures !Blank(q.quoteNumber) && !Blank(q.partnerId) && q.lines == [] ==> r == Err("El pressupost ha de tenir almenys una línia")
  {
    if Blank(q.quoteNumber) then Err("El número de pressupost és obligatori")
    else if Blank(q.partnerId) then Err("El client és obligatori")
    else if q.lines == [] then Err("El pressupost ha de tenir almenys una línia")
    else if Before(q.validUntil, q.quoteDate) then Err("La data de validesa no pot ser anterior a la data del pressupost")
    else ValidateLines(q.lines)
  }

  /** Whether `send` succeeds: only a valid draft can be sent. */
  function SendCheck(q: QuoteRecord): (r: Result<(), string>)
    ensures r.Ok? <==> q.status == QuoteStatus.DRAFT && QuoteValid(q)
    ensures q.status != QuoteStatus.DRAFT ==> r == Err("Només es poden enviar pressupostos en esborrany")
  {
    if q.status != QuoteStatus.DRAFT then Err("Només es poden enviar pressupostos en esborrany")
    else ValidateQuote(q)
  }

  /** `is_expired`: `today` is after `valid_until`. */
  predicate Expired(q: QuoteRecord, today: Date)
  {
    Before(q.validUntil, today)
  }

  /** Whether `accept` succeeds: a draft or sent quote that has not expired. */
  function AcceptCheck(q: QuoteRecord, today: Date): (r: Result<(), string>)
    ensures r.Ok? <==> q.status in {QuoteStatus.DRAFT, QuoteStatus.SENT} && !Expired(q, today)
    ensures q.status in {QuoteStatus.DRAFT, QuoteStatus.SENT} && Expired(q, today) ==>
      r == Err("No es pot acceptar un pressupost caducat")
  {
    if q.status !in {QuoteStatus.SENT, QuoteStatus.DRAFT} then Err("Només es poden acceptar pressupostos enviats o en esborrany")
    else if Expired(q, today) then Err("No es pot acceptar un pressupost caducat")
    else Ok(())
  }

  /** Whether `reject` succeeds: a draft or sent quote, expired or not. */
  function RejectCheck(q: QuoteRecord): (r: Result<(), string>)
    ensures r.Ok? <==> q.status in {QuoteStatus.DRAFT, QuoteStatus.SENT}
  {
    if q.status !in {QuoteStatus.SENT, QuoteStatus.DRAFT} then Err("Només es poden rebutjar pressupostos enviats o en esborrany")
    else Ok(())
  }

  /** An accepted, rejected or expired quote admits no further transition. */
  lemma QuoteFinalStates(q: QuoteRecord, today: Date)
    requires q.status in {QuoteStatus.ACCEPTED, QuoteStatus.REJECTED, QuoteStatus.EXPIRED}
    ensures SendCheck(q).Err? && AcceptCheck(q, today).Err? && RejectCheck(q).Err?
  {
  }

  class Quote {
    var id: string
    var quoteNumber: string
    var quoteDate: Date
    var validUntil: Date
    var partnerId: string
    var lines: seq<SalesLine>
    var status: QuoteStatus
    var notes: string

    function Record(): QuoteRecord
      reads this
    {
      QuoteRecord(id, quoteNumber, quoteDate, validUntil, partnerId, lines, status, notes)
    }

    constructor (r: QuoteRecord)
      ensures Record() == r
    {
      id, quoteNumber, quoteDate, validUntil := r.id, r.quoteNumber, r.quoteDate, r.validUntil;
      partnerId, lines, status, notes := r.partnerId, r.lines, r.status, r.notes;
    }

    /** `send`: DRAFT to SENT after validation. */
    method Send() returns (r: Result<(), string>)
      modifies this
      ensures r == SendCheck(old(Record()))
      ensures Record() == if r.Ok? then old(Record()).(status := QuoteStatus.SENT) else old(Record())
    {
      r := SendCheck(Record());
      if r.Ok? {
        status := QuoteStatus.SENT;
      }
    }

    /** `accept`: to ACCEPTED; `today` stands for `date.today()`. */
    method Accept(today: Date) returns (r: Result<(), string>)
      modifies this
      ensures r == AcceptCheck(old(Record()), today)
      ensures Record() == if r.Ok? then old(Record()).(status := QuoteStatus.ACCEPTED) else old(Record())
    {
      r := AcceptCheck(Record(), today);
      if r.Ok? {
        status := QuoteStatus.ACCEPTED;
      }
    }

    /** `reject`: to REJECTED. */
    method Reject() returns (r: Result<(), string>)
      modifies this
      ensures r == RejectCheck(old(Record()))
      ensures Record() == if r.Ok? then old(Record()).(status := QuoteStatus.REJECTED) else old(Record())
    {
      r := RejectCheck(Record());
      if r.Ok? {
        status := QuoteStatus.REJECTED;
      }
    }

    /** `can_edit`. */
    predicate CanEdit()
      reads this
    {
      status == QuoteStatus.DRAFT
    }
  }

  // ---------------------------------------------------------------- sales orders

  datatype OrderRecord = OrderRecord(
    id: string,
    orderNumber: string,
    orderDate: Date,
    partnerId: string,
    lines: seq<SalesLine>,
    status: OrderStatus,
    quoteId: Option<string>,
    deliveryDate: Option<Date>,
    deliveryAddress: string,
    notes: string)

  predicate OrderValid(o: OrderRecord)
  {
    && !Blank(o.orderNumber)
    && !Blank(o.partnerId)
    && o.lines != []
    && !(o.deliveryDate.Some? && Before(o.deliveryDate.value, o.orderDate))
    && AllLinesValid(o.lines)
  }

  /** `SalesOrder.validate`; a missing delivery date is never checked. */
  function ValidateOrder(o: OrderRecord): (r: Result<(), string>)
    ensures r.Ok? <==> OrderValid(o)
    ensures Blank(o.orderNumber) ==> r == Err("El número de comanda és obligatori")
  {
    if Blank(o.orderNumber) then Err("El número de comanda és obligatori")
    else if Blank(o.partnerId) then Err("El client és obligatori")
    else if o.lines == [] then Err("La comanda ha de tenir almenys una línia")
    else if o.deliveryDate.Some? && Before(o.deliveryDate.value, o.orderDate) then
      Err("La data de lliurament no pot ser anterior a la data de la comanda")
    else ValidateLines(o.lines)
  }

  /** Whether `confirm` succeeds: only a valid draft. */
  function ConfirmCheck(o: OrderRecord): (r: Result<(), string>)
    ensures r.Ok? <==> o.status == OrderStatus.DRAFT && OrderValid(o)
  {
    if o.status != OrderStatus.DRAFT then Err("Només es poden confirmar comandes en esborrany")
    else ValidateOrder(o)
  }

  /** Whether `start_progress` succeeds: only a confirmed order. */
  function StartCheck(o: OrderRecord): (r: Result<(), string>)
    ensures r.Ok? <==> o.status == OrderStatus.CONFIRMED
  {
    if o.status != OrderStatus.CONFIRMED then Err("Només es poden processar comandes confirmades") else Ok(())
  }

  /** Whether `deliver` succeeds: a confirmed order or one in progress. */
  function DeliverCheck(o: OrderRecord): (r: Result<(), string>)
    ensures r.Ok? <==> o.status in {OrderStatus.CONFIRMED, OrderStatus.IN_PROGRESS}
  {
    if o.status !in {OrderStatus.CONFIRMED, OrderStatus.IN_PROGRESS} then
      Err("Només es poden lliurar comandes confirmades o en procés")
    else Ok(())
  }

  /** Whether `cancel` succeeds: anything but a delivered order, a cancelled one included. */
  function CancelCheck(o: OrderRecord): (r: Result<(), string>)
    ensures r.Ok? <==> o.status != OrderStatus.DELIVERED
  {
    if o.status == OrderStatus.DELIVERED then Err("No es pot cancel·lar una comanda ja lliurada") else Ok(())
  }

  /** A delivered order admits no transition at all. */
  lemma DeliveredIsFinal(o: OrderRecord)
    requires o.status == OrderStatus.DELIVERED
    ensures ConfirmCheck(o).Err? && StartCheck(o).Err? && DeliverCheck(o).Err? && CancelCheck(o).Err?
  {
  }

  class SalesOrder {
    var id: string
    var orderNumber: string
    var orderDate: Date
    var partnerId: string
    var lines: seq<SalesLine>
    var status: OrderStatus
    var quoteId: Option<string>
    var deliveryDate: Option<Date>
    var deliveryAddress: string
    var notes: string

    function Record(): OrderRecord
      reads this
    {
      OrderRecord(id, orderNumber, orderDate, partnerId, lines, status, quoteId, deliveryDate, deliveryAddress, notes)
    }

    constructor (r: OrderRecord)
      ensures Record() == r
    {
      id, orderNumber, orderDate, partnerId, lines := r.id, r.orderNumber, r.orderDate, r.partnerId, r.lines;
      status, quoteId, deliveryDate, deliveryAddress, notes := r.status, r.quoteId, r.deliveryDate, r.deliveryAddress, r.notes;
    }

    /** `confirm`: DRAFT to CONFIRMED after validation. */
    method Confirm() returns (r: Result<(), string>)
      modifies this
      ensures r == ConfirmCheck(old(Record()))
      ensures Record() == if r.Ok? then old(Record()).(status := OrderStatus.CONFIRMED) else old(Record())
    {
      r := ConfirmCheck(Record());
      if r.Ok? {
        status := OrderStatus.CONFIRMED;
      }
    }

    /** `start_progress`: CONFIRMED to IN_PROGRESS. */
    method StartProgress() returns (r: Result<(), string>)
      modifies this
      ensures r == StartCheck(old(Record()))
      ensures Record() == if r.Ok? then old(Record()).(status := OrderStatus.IN_PROGRESS) else old(Record())
    {
      r := StartCheck(Record());
      if r.Ok? {
        status := OrderStatus.IN_PROGRESS;
      }
    }

    /** `deliver`: to DELIVERED. */
    method Deliver() returns (r: Result<(), string>)
      modifies this
      ensures r == DeliverCheck(old(Record()))
      ensures Record() == if r.Ok? then old(Record()).(status := OrderStatus.DELIVERED) else old(Record())
    {
      r := DeliverCheck(Record());
      if r.Ok? {
        status := OrderStatus.DELIVERED;
      }
    }

    /** `cancel`: to CANCELLED. */
    method Cancel() returns (r: Result<(), string>)
      modifies this
      ensures r == CancelCheck(old(Record()))
      ensures Record() == if r.Ok? then old(Record()).(status := OrderStatus.CANCELLED) else old(Record())
    {
      r := CancelCheck(Record());
      if r.Ok? {
        status := OrderStatus.CANCELLED;
      }
    }

    /** `can_edit`. */
    predicate CanEdit()
      reads this
    {
      status == OrderStatus.DRAFT
    }
  }

  // ---------------------------------------------------------------- sales invoices

  datatype InvoiceRecord = InvoiceRecord(
    id: string,
    series: string,
    year: int,
    number: int,
    invoiceDate: Date,
    dueDate: Date,
    partnerId: string,
    lines: seq<SalesLine>,
    status: InvoiceStatus,
    paymentStatus: PaymentStatus,
    orderId: Option<string>,
    journalEntryId: Option<string>,
    notes: string)

  predicate InvoiceValid(v: InvoiceRecord)
  {
    && !Blank(v.series)
    && 2000 <= v.year <= 2100
    && v.number > 0
    && !Blank(v.partnerId)
    && v.lines != []
    && !Before(v.dueDate, v.invoiceDate)
    && AllLinesValid(v.lines)
  }

  /** `SalesInvoice.validate`. */
  function ValidateInvoice(v: InvoiceRecord): (r: Result<(), string>)
    ensures r.Ok? <==> InvoiceValid(v)
    ensures !Blank(v.series) && !(2000 <= v.year <= 2100) ==> r == Err("L'any de factura no és vàlid")
  {
    if Blank(v.series) then Err("La sèrie de factura és obligatòria")
    else if v.year < 2000 || v.year > 2100 then Err("L'any de factura no és vàlid")
    else if v.number <= 0 then Err("El número de factura ha de ser superior a 0")
    else if Blank(v.partnerId) then Err("El client és obligatori")
    else if v.lines == [] then Err("La factura ha de tenir almenys una línia")
    else if Before(v.dueDate, v.invoiceDate) then Err("La data de venciment no pot ser anterior a la data de factura")
    else ValidateLines(v.lines)
  }

  /** Whether `post` succeeds: only a valid draft. */
  function PostCheck(v: InvoiceRecord): (r: Result<(), string>)
    ensures r.Ok? <==> v.status == InvoiceStatus.DRAFT && InvoiceValid(v)
    ensures v.status != InvoiceStatus.DRAFT ==> r == Err("Només es poden comptabilitzar factures en esborrany")
  {
    if v.status != InvoiceStatus.DRAFT then Err("Només es poden comptabilitzar factures en esborrany")
    else ValidateInvoice(v)
  }

  /** Whether `mark_as_paid` succeeds: only a posted invoice. */
  function PayCheck(v: InvoiceRecord): (r: Result<(), string>)
    ensures r.Ok? <==> v.status == InvoiceStatus.POSTED
  {
    if v.status != InvoiceStatus.POSTED then Err("Només es poden marcar com a pagades factures comptabilitzades") else Ok(())
  }

  /** The record after `mark_as_paid`: status and payment status both PAID. */
  function Paid(v: InvoiceRecord): InvoiceRecord
  {
    v.(status := InvoiceStatus.PAID, paymentStatus := PaymentStatus.PAID)
  }

  /** An invoice can be marked paid only after being posted, and a paid one neither posts nor pays again. */
  lemma InvoiceLifecycle(v: InvoiceRecord)
    ensures PostCheck(v).Ok? ==> PayCheck(v).Err?
    ensures PayCheck(v).Ok? ==> PayCheck(Paid(v)).Err?
    ensures PayCheck(v).Ok? ==> PostCheck(v).Err?
  {
  }

  class SalesInvoice {
    var id: string
    var series: string
    var year: int
    var number: int
    var invoiceDate: Date
    var dueDate: Date
    var partnerId: string
    var lines: seq<SalesLine>
    var status: InvoiceStatus
    var paymentStatus: PaymentStatus
    var orderId: Option<string>
    var journalEntryId: Option<string>
    var notes: string

    function Record(): InvoiceRecord
      reads this
    {
      InvoiceRecord(id, series, year, number, invoiceDate, dueDate, partnerId, lines, status, paymentStatus,
                    orderId, journalEntryId, notes)
    }

    constructor (r: InvoiceRecord)
      ensures Record() == r
    {
      id, series, year, number, invoiceDate, dueDate := r.id, r.series, r.year, r.number, r.invoiceDate, r.dueDate;
      partnerId, lines, status, paymentStatus := r.partnerId, r.lines, r.status, r.paymentStatus;
      orderId, journalEntryId, notes := r.orderId, r.journalEntryId, r.notes;
    }

    /** `post`: DRAFT to POSTED after validation. */
    method Post() returns (r: Result<(), string>)
      modifies this
      ensures r == PostCheck(old(Record()))
      ensures Record() == if r.Ok? then old(Record()).(status := InvoiceStatus.POSTED) else old(Record())
    {
      r := PostCheck(Record());
      if r.Ok? {
        status := InvoiceStatus.POSTED;
      }
    }

    /** `mark_as_paid`: POSTED to PAID, with the payment status PAID as well. */
    method MarkAsPaid() returns (r: Result<(), string>)
      modifies this
      ensures r == PayCheck(old(Record()))
      ensures Record() == if r.Ok? then Paid(old(Record()))
                          else old(Record())
    {
      r := PayCheck(Record());
      if r.Ok? {
        paymentStatus := PaymentStatus.PAID;
        status := InvoiceStatus.PAID;
      }
    }

    /** `tax_breakdown`: the loop over the lines filling the per-rate dictionary. */
    method TaxBreakdown() returns (groups: seq<TaxGroup>)
      ensures groups == Breakdown(lines)
    {
      groups := [];
      for i := 0 to |lines|
        invariant groups == Breakdown(lines[..i])
      {
        assert lines[..i + 1][..i] == lines[..i];
        groups := AddLine(groups, lines[i]);
      }
      assert lines[..|lines|] == lines;
    }

    /** `can_edit`. */
    predicate CanEdit()
      reads this
    {
      status == InvoiceStatus.DRAFT
    }
  }
}
