/**
 * The sales-invoice use cases: creating an invoice from line data or from a
 * delivered order, posting it with its journal entry (customer receivable on
 * the debit side, sales revenue and output VAT on the credit side), and
 * marking it paid.
 */
module SalesInvoicing {
  import opened Wrappers
  import opened Dates
  import opened Text
  import opened SalesEntities
  import SalesNumbering
  import Partners
  import SalesServices
  import AE = AccountingEntities
  import AccountingServices

  /** Position of the first invoice with that id, `|invoices|` when there is none. */
  function FindInvoice(invoices: seq<InvoiceRecord>, id: string): (k: nat)
    ensures k <= |invoices|
    ensures k < |invoices| ==> invoices[k].id == id
    ensures forall j :: 0 <= j < k ==> invoices[j].id != id
  {
    if invoices == [] then 0 else if invoices[0].id == id then 0 else 1 + FindInvoice(invoices[1..], id)
  }

  /** Whether two invoices share a series and year, the scope of a number. */
  predicate SameSeries(v: InvoiceRecord, series: string, year: int)
  {
    v.series == series && v.year == year
  }

  // ---------------------------------------------------------------- creation

  /**
   * `create_invoice`: partner checks, the next number of the series in the
   * invoice's year, the due date `payment_days` later, the lines, validation.
   */
  function NewInvoice(invoices: seq<InvoiceRecord>, partners: seq<Partners.Partner>, newId: string, partnerId: string,
                      invoiceDate: Date, data: seq<SalesServices.LineData>, series: string, paymentDays: int,
                      notes: string): (r: Result<InvoiceRecord, string>)
    requires Valid(invoiceDate)
    ensures SalesServices.CustomerCheck(partners, partnerId).Err? ==>
      r == Err(SalesServices.CustomerCheck(partners, partnerId).error)
    ensures SalesServices.CustomerCheck(partners, partnerId).Ok? && AddDays(invoiceDate, paymentDays).None? ==>
      r == Err("date value out of range")
    ensures r.Ok? <==>
      && SalesServices.CustomerCheck(partners, partnerId).Ok?
      && AddDays(invoiceDate, paymentDays).Some?
      && InvoiceValid(InvoiceRecord(newId, series, invoiceDate.year,
                                    SalesNumbering.NextInvoiceNumber(invoices, series, invoiceDate.year), invoiceDate,
                                    AddDays(invoiceDate, paymentDays).value, partnerId, SalesServices.BuildLines(data),
                                    InvoiceStatus.DRAFT, PaymentStatus.PENDING, None, None, notes))
    ensures r.Ok? ==> r.value == InvoiceRecord(newId, series, invoiceDate.year,
                                               SalesNumbering.NextInvoiceNumber(invoices, series, invoiceDate.year),
                                               invoiceDate, AddDays(invoiceDate, paymentDays).value, partnerId,
                                               SalesServices.BuildLines(data), InvoiceStatus.DRAFT, PaymentStatus.PENDING,
                                               None, None, notes)
  {
    match SalesServices.CustomerCheck(partners, partnerId)
    case Err(e) => Err(e)
    case Ok(_) =>
      match SalesServices.ShiftDate(invoiceDate, paymentDays)
      case Err(e) => Err(e)
      case Ok(dueDate) =>
        var v := InvoiceRecord(newId, series, invoiceDate.year,
                               SalesNumbering.NextInvoiceNumber(invoices, series, invoiceDate.year), invoiceDate,
                               dueDate, partnerId, SalesServices.BuildLines(data), InvoiceStatus.DRAFT,
                               PaymentStatus.PENDING, None, None, notes);
        match ValidateInvoice(v)
        case Err(e) => Err(e)
        case Ok(_) => Ok(v)
  }

  /**
   * A created invoice's number is not used by any stored invoice of the same
   * series and year, its payment term is not negative, and it can be posted
   * at once.
   */
  lemma NewInvoiceProperties(invoices: seq<InvoiceRecord>, partners: seq<Partners.Partner>, newId: string,
                             partnerId: string, invoiceDate: Date, data: seq<SalesServices.LineData>, series: string,
                             paymentDays: int, notes: string)
    requires Valid(invoiceDate)
    requires NewInvoice(invoices, partners, newId, partnerId, invoiceDate, data, series, paymentDays, notes).Ok?
    ensures var v := NewInvoice(invoices, partners, newId, partnerId, invoiceDate, data, series, paymentDays, notes).value;
      && (forall i :: 0 <= i < |invoices| && SameSeries(invoices[i], series, invoiceDate.year) ==>
            InvoiceNumber(invoices[i].series, invoices[i].year, invoices[i].number) != InvoiceNumber(v.series, v.year, v.number))
      && paymentDays >= 0
      && PostCheck(v).Ok?
  {
    var v := NewInvoice(invoices, partners, newId, partnerId, invoiceDate, data, series, paymentDays, notes).value;
    forall i | 0 <= i < |invoices| && SameSeries(invoices[i], series, invoiceDate.year)
      ensures InvoiceNumber(invoices[i].series, invoices[i].year, invoices[i].number) != InvoiceNumber(v.series, v.year, v.number)
    {
      if InvoiceNumber(invoices[i].series, invoices[i].year, invoices[i].number) == InvoiceNumber(v.series, v.year, v.number) {
        InvoiceNumberInjective(series, invoiceDate.year, invoices[i].number, v.number);
      }
    }
    AddDaysOrder(invoiceDate, paymentDays, v.dueDate);
  }

  /** The message Python raises when `create_from_order` reads `partner.payment_days`. */
  const NoPaymentDays := "'Partner' object has no attribute 'payment_days'"

  /**
   * `create_from_order` as written: a delivered order is invoiced on the
   * given date or today; the payment term is read from the order's partner,
   * which has no such attribute, so a partner that exists makes the call
   * raise, and only an order whose partner is missing gets the 30 days.
   */
  function InvoiceFromOrderAsWritten(invoices: seq<InvoiceRecord>, orders: seq<OrderRecord>,
                                     partners: seq<Partners.Partner>, newId: string, orderId: string,
                                     invoiceDate: Option<Date>, today: Date, series: string): (r: Result<InvoiceRecord, string>)
    requires Valid(today) && (invoiceDate.Some? ==> Valid(invoiceDate.value))
    ensures var k := SalesServices.FindOrder(orders, orderId);
      k < |orders| && orders[k].status == OrderStatus.DELIVERED && Partners.FindById(partners, orders[k].partnerId).Some? ==>
        r == Err(NoPaymentDays)
  {
    var k := SalesServices.FindOrder(orders, orderId);
    if k == |orders| then Err("No s'ha trobat la comanda amb ID " + orderId)
    else if orders[k].status != OrderStatus.DELIVERED then Err("Només es poden facturar comandes lliurades")
    else if Partners.FindById(partners, orders[k].partnerId).Some? then Err(NoPaymentDays)
    else OrderInvoice(invoices, orders[k], newId, orderId, if invoiceDate.Some? then invoiceDate.value else today, series, 30)
  }

  /** The invoice built from a delivered order: the order's partner, lines and notes, linked to the order. */
  function OrderInvoice(invoices: seq<InvoiceRecord>, o: OrderRecord, newId: string, orderId: string, date: Date,
                        series: string, paymentDays: int): (r: Result<InvoiceRecord, string>)
    requires Valid(date)
    ensures AddDays(date, paymentDays).None? ==> r == Err("date value out of range")
    ensures r.Ok? <==>
      AddDays(date, paymentDays).Some? &&
      InvoiceValid(InvoiceRecord(newId, series, date.year, SalesNumbering.NextInvoiceNumber(invoices, series, date.year),
                                 date, AddDays(date, paymentDays).value, o.partnerId, o.lines, InvoiceStatus.DRAFT,
                                 PaymentStatus.PENDING, Some(orderId), None, o.notes))
    ensures r.Ok? ==> r.value == InvoiceRecord(newId, series, date.year,
                                               SalesNumbering.NextInvoiceNumber(invoices, series, date.year), date,
                                               AddDays(date, paymentDays).value, o.partnerId, o.lines,
                                               InvoiceStatus.DRAFT, PaymentStatus.PENDING, Some(orderId), None, o.notes)
  {
    match SalesServices.ShiftDate(date, paymentDays)
    case Err(e) => Err(e)
    case Ok(dueDate) =>
      var v := InvoiceRecord(newId, series, date.year, SalesNumbering.NextInvoiceNumber(invoices, series, date.year), date,
                             dueDate, o.partnerId, o.lines, InvoiceStatus.DRAFT, PaymentStatus.PENDING, Some(orderId),
                             None, o.notes);
      match ValidateInvoice(v)
      case Err(e) => Err(e)
      case Ok(_) => Ok(v)
  }

  /**
   * The evident intent of `create_from_order`: every delivered order is
   * invoiced with the 30-day default term, whether or not its partner exists.
   */
  function InvoiceFromOrder(invoices: seq<InvoiceRecord>, orders: seq<OrderRecord>, newId: string, orderId: string,
                            invoiceDate: Option<Date>, today: Date, series: string): (r: Result<InvoiceRecord, string>)
    requires Valid(today) && (invoiceDate.Some? ==> Valid(invoiceDate.value))
    ensures SalesServices.FindOrder(orders, orderId) == |orders| ==> r == Err("No s'ha trobat la comanda amb ID " + orderId)
    ensures var k := SalesServices.FindOrder(orders, orderId);
      k < |orders| && orders[k].status != OrderStatus.DELIVERED ==> r == Err("Només es poden facturar comandes lliurades")
    ensures var k := SalesServices.FindOrder(orders, orderId);
      r.Ok? ==> k < |orders| && orders[k].status == OrderStatus.DELIVERED && InvoiceValid(r.value)
  {
    var k := SalesServices.FindOrder(orders, orderId);
    if k == |orders| then Err("No s'ha trobat la comanda amb ID " + orderId)
    else if orders[k].status != OrderStatus.DELIVERED then Err("Només es poden facturar comandes lliurades")
    else OrderInvoice(invoices, orders[k], newId, orderId, if invoiceDate.Some? then invoiceDate.value else today, series, 30)
  }

  /**
   * The counterexample: a validated delivered order of a known partner,
   * which the corrected conversion invoices, makes the code as written raise.
   */
  lemma KnownPartnerBlocksInvoicing(invoices: seq<InvoiceRecord>, orders: seq<OrderRecord>,
                                    partners: seq<Partners.Partner>, newId: string, orderId: string,
                                    date: Date, today: Date, series: string)
    requires Valid(today) && Valid(date)
    requires forall i :: 0 <= i < |invoices| ==> invoices[i].number > 0
    requires SalesServices.FindOrder(orders, orderId) < |orders|
    requires var o := orders[SalesServices.FindOrder(orders, orderId)];
      o.status == OrderStatus.DELIVERED && OrderValid(o) && Partners.FindById(partners, o.partnerId).Some?
    requires !Blank(series) && 2000 <= date.year <= 2100 && AddDays(date, 30).Some?
    ensures InvoiceFromOrderAsWritten(invoices, orders, partners, newId, orderId, Some(date), today, series).Err?
    ensures InvoiceFromOrder(invoices, orders, newId, orderId, Some(date), today, series).Ok?
  {
    DeliveredOrderInvoices(invoices, orders, newId, orderId, date, today, series);
  }

  /**
   * The corrected conversion copies the order and links it; a delivered
   * order that passed validation is invoiced whenever the invoice year is
   * one `SalesInvoice` accepts and the due date exists.
   */
  lemma InvoiceFromOrderCopies(invoices: seq<InvoiceRecord>, orders: seq<OrderRecord>, newId: string, orderId: string,
                               invoiceDate: Option<Date>, today: Date, series: string)
    requires Valid(today) && (invoiceDate.Some? ==> Valid(invoiceDate.value))
    requires InvoiceFromOrder(invoices, orders, newId, orderId, invoiceDate, today, series).Ok?
    ensures var v := InvoiceFromOrder(invoices, orders, newId, orderId, invoiceDate, today, series).value;
      var o := orders[SalesServices.FindOrder(orders, orderId)];
      && v.lines == o.lines && v.partnerId == o.partnerId && v.notes == o.notes && v.orderId == Some(orderId)
      && v.invoiceDate == (if invoiceDate.Some? then invoiceDate.value else today)
      && v.year == v.invoiceDate.year && v.status == InvoiceStatus.DRAFT && v.journalEntryId == None
      && AddDays(v.invoiceDate, 30) == Some(v.dueDate)
  {
  }

  /**
   * A validated delivered order converts when the series is named, the year
   * is in range, 30 days later exists and the stored numbers are positive.
   */
  lemma DeliveredOrderInvoices(invoices: seq<InvoiceRecord>, orders: seq<OrderRecord>, newId: string, orderId: string,
                               date: Date, today: Date, series: string)
    requires Valid(today) && Valid(date)
    requires forall i :: 0 <= i < |invoices| ==> invoices[i].number > 0
    requires SalesServices.FindOrder(orders, orderId) < |orders|
    requires var o := orders[SalesServices.FindOrder(orders, orderId)]; o.status == OrderStatus.DELIVERED && OrderValid(o)
    requires !Blank(series) && 2000 <= date.year <= 2100 && AddDays(date, 30).Some?
    ensures InvoiceFromOrder(invoices, orders, newId, orderId, Some(date), today, series).Ok?
  {
    AddDaysOrder(date, 30, AddDays(date, 30).value);
  }

  // ---------------------------------------------------------------- posting

  /** The receivable, revenue and output-VAT accounts `post_invoice` books on. */
  const CustomerAccount := "43000000"
  const SalesAccount := "70000000"
  const VatAccount := "47700000"

  /**
   * One VAT credit line per breakdown entry with positive VAT, in breakdown
   * order. The rate is converted to a float and interpolated into an
   * f-string, so `rateText` renders a rate as `str(float)` does (21 as "21.0").
   */
  function VatLines(g: seq<TaxGroup>, number: string, rateText: real -> string): seq<AE.JournalLine>
  {
    if g == [] then []
    else
      var t := g[|g| - 1];
      VatLines(g[..|g| - 1], number, rateText) +
      (if t.tax > 0.0 then [AE.JournalLine(VatAccount, 0.0, t.tax, "IVA " + rateText(t.rate) + "% factura " + number)] else [])
  }

  /** The VAT lines debit nothing and credit the positive VAT of the breakdown. */
  lemma {:induction false} VatLinesTotals(g: seq<TaxGroup>, number: string, rateText: real -> string)
    ensures AE.TotalDebit(VatLines(g, number, rateText)) == 0.0
    ensures AE.TotalCredit(VatLines(g, number, rateText)) == PositiveTaxes(g)
  {
    if g != [] {
      var n := |g| - 1;
      var front := VatLines(g[..n], number, rateText);
      VatLinesTotals(g[..n], number, rateText);
      var last := if g[n].tax > 0.0 then [AE.JournalLine(VatAccount, 0.0, g[n].tax, "IVA " + rateText(g[n].rate) + "% factura " + number)] else [];
      AE.TotalsAppend(front, last);
      assert last != [] ==> last[..0] == [];
    }
  }

  /** Each VAT line is a valid credit on the VAT account. */
  lemma {:induction false} VatLinesShape(g: seq<TaxGroup>, number: string, rateText: real -> string)
    ensures forall j :: 0 <= j < |VatLines(g, number, rateText)| ==>
      var l := VatLines(g, number, rateText)[j]; l.accountCode == VatAccount && AE.LineValid(l)
  {
    if g != [] {
      var n := |g| - 1;
      var front := VatLines(g[..n], number, rateText);
      VatLinesShape(g[..n], number, rateText);
      var last := if g[n].tax > 0.0 then [AE.JournalLine(VatAccount, 0.0, g[n].tax, "IVA " + rateText(g[n].rate) + "% factura " + number)] else [];
      assert forall j :: 0 <= j < |front| ==> (front + last)[j] == front[j];
      assert forall j :: 0 <= j < |last| ==> (front + last)[|front| + j] == last[j];
    }
  }

  /** There is a VAT line exactly when some entry has positive VAT. */
  lemma {:induction false} VatLinesEmpty(g: seq<TaxGroup>, number: string, rateText: real -> string)
    ensures PositiveTaxes(g) >= 0.0
    ensures VatLines(g, number, rateText) == [] <==> PositiveTaxes(g) == 0.0
  {
    if g != [] {
      VatLinesEmpty(g[..|g| - 1], number, rateText);
    }
  }

  /** The two fixed lines of `post_invoice`: the receivable for the total, the revenue for the subtotal. */
  function HeadLines(lines: seq<SalesLine>, number: string): seq<AE.JournalLine>
    requires lines != []
  {
    [AE.JournalLine(CustomerAccount, Total(lines).value, 0.0, "Factura " + number),
     AE.JournalLine(SalesAccount, 0.0, Subtotal(lines), "Venda factura " + number)]
  }

  /** The journal lines of `post_invoice` for an invoice with these lines and this number. */
  function PostingLines(lines: seq<SalesLine>, number: string, rateText: real -> string): (r: seq<AE.JournalLine>)
    requires lines != []
    ensures |r| >= 2
  {
    HeadLines(lines, number) + VatLines(Breakdown(lines), number, rateText)
  }

  /** The description of the invoice's journal entry. */
  function EntryDescription(number: string): (d: string)
    ensures !Blank(d)
  {
    NotBlankLeading("Factura de venda " + number);
    "Factura de venda " + number
  }

  /**
   * The facts about an invoice's amounts that posting relies on: it has
   * lines, neither total is negative, and the VAT booked per rate adds up to
   * the VAT total.
   */
  predicate Bookable(lines: seq<SalesLine>)
  {
    && lines != []
    && Subtotal(lines) >= 0.0 && TotalTax(lines) >= 0.0
    && PositiveTaxes(Breakdown(lines)) == TotalTax(lines)
  }

  /** Valid invoice lines are bookable. */
  lemma ValidLinesBookable(lines: seq<SalesLine>)
    requires lines != [] && AllLinesValid(lines)
    ensures Bookable(lines)
  {
    ValidTotalsNonNegative(lines);
    ValidPositiveTaxes(lines);
  }

  /**
   * Double entry: the receivable carries the invoice total, the revenue and
   * VAT credits add up to the same amount.
   */
  lemma PostingBalanced(lines: seq<SalesLine>, number: string, rateText: real -> string)
    requires Bookable(lines)
    ensures AE.IsBalanced(PostingLines(lines, number, rateText))
    ensures AE.TotalDebit(PostingLines(lines, number, rateText)) == Total(lines).value
  {
    var head := HeadLines(lines, number);
    var vat := VatLines(Breakdown(lines), number, rateText);
    HeadTotals(lines, number);
    AE.TotalsAppend(head, vat);
    VatLinesTotals(Breakdown(lines), number, rateText);
    var total := Total(lines).value;
    assert total == Subtotal(lines) + TotalTax(lines);
    assert AE.TotalDebit(head + vat) == total;
    assert AE.TotalCredit(head + vat) == Subtotal(lines) + PositiveTaxes(Breakdown(lines));
  }

  /** The fixed lines debit the total and credit the subtotal. */
  lemma HeadTotals(lines: seq<SalesLine>, number: string)
    requires lines != []
    ensures AE.TotalDebit(HeadLines(lines, number)) == Total(lines).value
    ensures AE.TotalCredit(HeadLines(lines, number)) == Subtotal(lines)
  {
    var head := HeadLines(lines, number);
    var first := head[..1];
    assert first[..0] == [];
    assert AE.TotalDebit(first) == head[0].debit && AE.TotalCredit(first) == head[0].credit;
    assert head[..|head| - 1] == first;
  }

  /**
   * Given valid invoice lines, the entry's lines all validate exactly when
   * the subtotal is positive: a zero subtotal leaves the revenue line with
   * neither debit nor credit.
   */
  lemma PostingLinesValid(lines: seq<SalesLine>, number: string, rateText: real -> string)
    requires Bookable(lines)
    ensures AE.AllLinesValid(PostingLines(lines, number, rateText)) <==> Subtotal(lines) > 0.0
  {
    var p := PostingLines(lines, number, rateText);
    var vat := VatLines(Breakdown(lines), number, rateText);
    assert p[1] == HeadLines(lines, number)[1];
    if Subtotal(lines) > 0.0 {
      VatLinesShape(Breakdown(lines), number, rateText);
      assert AE.LineValid(p[0]) && AE.LineValid(p[1]);
      assert forall j :: 2 <= j < |p| ==> p[j] == vat[j - 2];
    }
  }

  /** The entry's lines name the three accounts, the VAT account only when some VAT is booked. */
  lemma PostingAccounts(accounts: seq<AccountingServices.LedgerAccount>, lines: seq<SalesLine>, number: string,
                        rateText: real -> string)
    requires Bookable(lines)
    ensures (forall j :: 0 <= j < |PostingLines(lines, number, rateText)| ==>
               AccountingServices.AccountKnown(accounts, PostingLines(lines, number, rateText)[j].accountCode)) <==>
            && AccountingServices.AccountKnown(accounts, CustomerAccount)
            && AccountingServices.AccountKnown(accounts, SalesAccount)
            && (TotalTax(lines) > 0.0 ==> AccountingServices.AccountKnown(accounts, VatAccount))
  {
    var p := PostingLines(lines, number, rateText);
    var vat := VatLines(Breakdown(lines), number, rateText);
    VatLinesShape(Breakdown(lines), number, rateText);
    VatLinesEmpty(Breakdown(lines), number, rateText);
    assert p[0].accountCode == CustomerAccount && p[1].accountCode == SalesAccount;
    assert forall j :: 2 <= j < |p| ==> p[j] == vat[j - 2];
    if vat != [] {
      assert p[2] == vat[0];
    }
  }

  /**
   * The journal entry `post_invoice` asks for: it is created exactly when
   * the three accounts exist (the VAT one only when VAT is booked) and the
   * subtotal is positive, and it then balances on the invoice total.
   */
  lemma PostingEntry(accounts: seq<AccountingServices.LedgerAccount>, lines: seq<SalesLine>, date: Date, number: string,
                     entryId: string, entryNumber: int, rateText: real -> string)
    requires Bookable(lines)
    ensures var r := AccountingServices.NewEntry(accounts, entryId, entryNumber, date, EntryDescription(number),
                                                 PostingLines(lines, number, rateText));
      && (r.Ok? <==>
            && AccountingServices.AccountKnown(accounts, CustomerAccount)
            && AccountingServices.AccountKnown(accounts, SalesAccount)
            && (TotalTax(lines) > 0.0 ==> AccountingServices.AccountKnown(accounts, VatAccount))
            && Subtotal(lines) > 0.0)
      && (r.Ok? ==> AE.TotalDebit(r.value.lines) == AE.TotalCredit(r.value.lines) == Total(lines).value)
  {
    PostingAccounts(accounts, lines, number, rateText);
    PostingLinesValid(lines, number, rateText);
    PostingBalanced(lines, number, rateText);
  }

  /** `invoice_number` of an invoice record. */
  function NumberOf(v: InvoiceRecord): string
  {
    InvoiceNumber(v.series, v.year, v.number)
  }

  /** The loop of `post_invoice` over `tax_breakdown.items()`, booking each entry with positive VAT. */
  method VatLoop(groups: seq<TaxGroup>, number: string, rateText: real -> string) returns (vat: seq<AE.JournalLine>)
    ensures vat == VatLines(groups, number, rateText)
  {
    vat := [];
    for i := 0 to |groups|
      invariant vat == VatLines(groups[..i], number, rateText)
    {
      assert groups[..i + 1][..i] == groups[..i];
      if groups[i].tax > 0.0 {
        vat := vat + [AE.JournalLine(VatAccount, 0.0, groups[i].tax, "IVA " + rateText(groups[i].rate) + "% factura " + number)];
      }
    }
    assert groups[..|groups|] == groups;
  }

  /** The journal lines of `post_invoice`: the two fixed lines, then the VAT loop over the invoice's breakdown. */
  method BuildPosting(v: SalesInvoice, number: string, rateText: real -> string) returns (lines: seq<AE.JournalLine>)
    requires v.lines != []
    ensures lines == PostingLines(v.lines, number, rateText)
  {
    var groups := v.TaxBreakdown();
    var vat := VatLoop(groups, number, rateText);
    lines := HeadLines(v.lines, number) + vat;
  }

  /** The entry `post_invoice` stores for a posted invoice, once it is itself posted. */
  function PostedEntry(v: InvoiceRecord, entryId: string, entryNumber: int, rateText: real -> string): AE.EntryRecord
    requires v.lines != []
  {
    AE.EntryRecord(entryId, entryNumber, v.invoiceDate, EntryDescription(NumberOf(v)),
                   PostingLines(v.lines, NumberOf(v), rateText), AE.POSTED)
  }

  /**
   * `post_invoice` on a found invoice: `post`, then `create_journal_entry`,
   * may raise; otherwise the invoice is POSTED and linked to the entry.
   */
  function PostStep(accounts: seq<AccountingServices.LedgerAccount>, v: InvoiceRecord, entryId: string,
                    entryNumber: int, rateText: real -> string): (r: Result<InvoiceRecord, string>)
    ensures PostCheck(v).Err? ==> r == Err(PostCheck(v).error)
    ensures r.Ok? ==> PostCheck(v).Ok? && r.value == v.(status := InvoiceStatus.POSTED, journalEntryId := Some(entryId))
  {
    match PostCheck(v)
    case Err(e) => Err(e)
    case Ok(_) =>
      var number := NumberOf(v);
      match AccountingServices.NewEntry(accounts, entryId, entryNumber, v.invoiceDate, EntryDescription(number),
                                        PostingLines(v.lines, number, rateText))
      case Err(e) => Err(e)
      case Ok(_) => Ok(v.(status := InvoiceStatus.POSTED, journalEntryId := Some(entryId)))
  }

  /** The outcome of `post_invoice`: a missing invoice raises, a found one goes through `PostStep`. */
  function PostOutcome(invoices: seq<InvoiceRecord>, accounts: seq<AccountingServices.LedgerAccount>, id: string,
                       entryId: string, entryNumber: int, rateText: real -> string): (r: Result<InvoiceRecord, string>)
    ensures FindInvoice(invoices, id) == |invoices| ==> r == Err("No s'ha trobat la factura amb ID " + id)
    ensures var k := FindInvoice(invoices, id);
      k < |invoices| && PostCheck(invoices[k]).Err? ==> r == Err(PostCheck(invoices[k]).error)
    ensures r.Ok? ==>
      var k := FindInvoice(invoices, id);
      && k < |invoices| && PostCheck(invoices[k]).Ok?
      && r.value == invoices[k].(status := InvoiceStatus.POSTED, journalEntryId := Some(entryId))
  {
    var k := FindInvoice(invoices, id);
    if k == |invoices| then Err("No s'ha trobat la factura amb ID " + id)
    else PostStep(accounts, invoices[k], entryId, entryNumber, rateText)
  }

  /**
   * A draft invoice that validates posts exactly when the three accounts
   * exist (the VAT one only when VAT is booked) and its subtotal is
   * positive; the stored entry then balances on the invoice total.
   */
  lemma PostOutcomeOk(invoices: seq<InvoiceRecord>, accounts: seq<AccountingServices.LedgerAccount>, id: string,
                      entryId: string, entryNumber: int, rateText: real -> string)
    requires FindInvoice(invoices, id) < |invoices| && PostCheck(invoices[FindInvoice(invoices, id)]).Ok?
    ensures var v := invoices[FindInvoice(invoices, id)];
      && (PostOutcome(invoices, accounts, id, entryId, entryNumber, rateText).Ok? <==>
            && AccountingServices.AccountKnown(accounts, CustomerAccount)
            && AccountingServices.AccountKnown(accounts, SalesAccount)
            && (TotalTax(v.lines) > 0.0 ==> AccountingServices.AccountKnown(accounts, VatAccount))
            && Subtotal(v.lines) > 0.0)
  {
    var v := invoices[FindInvoice(invoices, id)];
    assert PostOutcome(invoices, accounts, id, entryId, entryNumber, rateText) == PostStep(accounts, v, entryId, entryNumber, rateText);
    ValidLinesBookable(v.lines);
    PostingEntry(accounts, v.lines, v.invoiceDate, NumberOf(v), entryId, entryNumber, rateText);
  }

  /** The entry stored with a posted invoice balances on the invoice total. */
  lemma PostedEntryBalanced(v: InvoiceRecord, entryId: string, entryNumber: int, rateText: real -> string)
    requires v.lines != [] && AllLinesValid(v.lines)
    ensures var e := PostedEntry(v, entryId, entryNumber, rateText);
      AE.TotalDebit(e.lines) == AE.TotalCredit(e.lines) == Total(v.lines).value
  {
    ValidLinesBookable(v.lines);
    PostingBalanced(v.lines, NumberOf(v), rateText);
  }

  /** A fresh entry id appended to the journal is found at the end. */
  lemma FindAppended(journal: seq<AE.EntryRecord>, e: AE.EntryRecord)
    requires AccountingServices.FindEntry(journal, e.id) == |journal|
    ensures AccountingServices.FindEntry(journal + [e], e.id) == |journal|
  {
    assert (journal + [e])[|journal|] == e;
  }

  /**
   * `create_journal_entry` followed by `post_journal_entry` on the new
   * entry's id: a created entry always posts, since it was validated as a
   * draft and its id is new.
   */
  method BookEntry(accounting: AccountingServices.AccountingService, id: string, date: Date,
                   description: string, lines: seq<AE.JournalLine>) returns (r: Result<AE.EntryRecord, string>)
    requires AccountingServices.FindEntry(accounting.journal, id) == |accounting.journal|
    modifies accounting`journal
    ensures var e := AccountingServices.NewEntry(accounting.accounts, id, AccountingServices.NextEntryNumber(old(accounting.journal)), date,
                                                 description, lines);
      && (r.Ok? <==> e.Ok?)
      && (e.Err? ==> r == Err(e.error))
      && (r.Ok? ==> r.value == e.value.(status := AE.POSTED) && accounting.journal == old(accounting.journal) + [r.value])
    ensures r.Err? ==> accounting.journal == old(accounting.journal)
  {
    var created := accounting.CreateJournalEntry(id, date, description, lines);
    if created.Err? {
      return Err(created.error);
    }
    FindAppended(old(accounting.journal), created.value);
    r := accounting.PostJournalEntry(id);
    assert r.Ok?;
  }

  /**
   * The invoice side of `post_invoice`: load the record into an entity,
   * `post` it, and on success build the journal lines from its totals and
   * breakdown.
   */
  method PostAndBuild(rec: InvoiceRecord, rateText: real -> string)
    returns (p: Result<(), string>, posted: InvoiceRecord, lines: seq<AE.JournalLine>)
    ensures p == PostCheck(rec)
    ensures p.Ok? ==> posted == rec.(status := InvoiceStatus.POSTED) && rec.lines != []
    ensures p.Ok? ==> lines == PostingLines(rec.lines, NumberOf(rec), rateText)
  {
    var v := new SalesInvoice(rec);
    p := v.Post();
    posted := v.Record();
    lines := [];
    if p.Ok? {
      lines := BuildPosting(v, NumberOf(posted), rateText);
    }
  }

  /** The body of `post_invoice` once the invoice is loaded: the entity's `post`, then the booking. */
  method PostFound(accounting: AccountingServices.AccountingService, rec: InvoiceRecord, entryId: string,
                   rateText: real -> string) returns (r: Result<InvoiceRecord, string>)
    requires AccountingServices.FindEntry(accounting.journal, entryId) == |accounting.journal|
    modifies accounting`journal
    ensures r == PostStep(accounting.accounts, rec, entryId, AccountingServices.NextEntryNumber(old(accounting.journal)), rateText)
    ensures accounting.journal ==
      if r.Ok? then old(accounting.journal) + [PostedEntry(r.value, entryId, AccountingServices.NextEntryNumber(old(accounting.journal)), rateText)]
      else old(accounting.journal)
  {
    var p, posted, lines := PostAndBuild(rec, rateText);
    if p.Err? {
      return Err(p.error);
    }
    var booked := BookEntry(accounting, entryId, rec.invoiceDate, EntryDescription(NumberOf(rec)), lines);
    if booked.Err? {
      return Err(booked.error);
    }
    r := Ok(posted.(journalEntryId := Some(entryId)));
  }

  // ---------------------------------------------------------------- the service

  /** The invoice repository with the order and partner repositories it reads and the accounting service it books on. */
  class SalesInvoiceService {
    var invoices: seq<InvoiceRecord>
    var orders: seq<OrderRecord>
    var partners: seq<Partners.Partner>
    const accounting: AccountingServices.AccountingService

    constructor (invoices: seq<InvoiceRecord>, orders: seq<OrderRecord>, partners: seq<Partners.Partner>,
                 accounting: AccountingServices.AccountingService)
      ensures this.invoices == invoices && this.orders == orders && this.partners == partners
      ensures this.accounting == accounting
    {
      this.invoices := invoices;
      this.orders := orders;
      this.partners := partners;
      this.accounting := accounting;
    }

    /** `create_invoice`; the series and the payment term are the caller's (default "A" and 30). */
    method CreateInvoice(newId: string, partnerId: string, invoiceDate: Date, data: seq<SalesServices.LineData>,
                         series: string, paymentDays: int, notes: string) returns (r: Result<InvoiceRecord, string>)
      requires Valid(invoiceDate)
      modifies this`invoices
      ensures r == NewInvoice(old(invoices), partners, newId, partnerId, invoiceDate, data, series, paymentDays, notes)
      ensures invoices == if r.Ok? then old(invoices) + [r.value] else old(invoices)
    {
      var c := SalesServices.CustomerCheck(partners, partnerId);
      if c.Err? {
        return Err(c.error);
      }
      var year := invoiceDate.year;
      var number := SalesNumbering.NextInvoiceNumber(invoices, series, year);
      var due := SalesServices.ShiftDate(invoiceDate, paymentDays);
      if due.Err? {
        return Err(due.error);
      }
      var lines := SalesServices.MakeLines(data);
      var v := new SalesInvoice(InvoiceRecord(newId, series, year, number, invoiceDate, due.value, partnerId, lines,
                                              InvoiceStatus.DRAFT, PaymentStatus.PENDING, None, None, notes));
      var ok := ValidateInvoice(v.Record());
      if ok.Err? {
        return Err(ok.error);
      }
      var rec := v.Record();
      invoices := invoices + [rec];
      r := Ok(rec);
    }

    /** `create_from_order`, with the 30-day term the code evidently means. */
    method CreateFromOrder(newId: string, orderId: string, invoiceDate: Option<Date>, today: Date, series: string)
      returns (r: Result<InvoiceRecord, string>)
      requires Valid(today) && (invoiceDate.Some? ==> Valid(invoiceDate.value))
      modifies this`invoices
      ensures r == InvoiceFromOrder(old(invoices), orders, newId, orderId, invoiceDate, today, series)
      ensures invoices == if r.Ok? then old(invoices) + [r.value] else old(invoices)
    {
      var k := SalesServices.FindOrder(orders, orderId);
      if k == |orders| {
        return Err("No s'ha trobat la comanda amb ID " + orderId);
      }
      var o := orders[k];
      if o.status != OrderStatus.DELIVERED {
        return Err("Només es poden facturar comandes lliurades");
      }
      var date := if invoiceDate.Some? then invoiceDate.value else today;
      var number := SalesNumbering.NextInvoiceNumber(invoices, series, date.year);
      var due := SalesServices.ShiftDate(date, 30);
      if due.Err? {
        return Err(due.error);
      }
      var lines := SalesServices.CopyLines(o.lines);
      var v := new SalesInvoice(InvoiceRecord(newId, series, date.year, number, date, due.value, o.partnerId, lines,
                                              InvoiceStatus.DRAFT, PaymentStatus.PENDING, Some(orderId), None, o.notes));
      var ok := ValidateInvoice(v.Record());
      if ok.Err? {
        return Err(ok.error);
      }
      var rec := v.Record();
      invoices := invoices + [rec];
      r := Ok(rec);
    }

    /**
     * `post_invoice`: post the invoice, create its journal entry, post the
     * entry, and store the invoice linked to it. The entry takes the
     * journal's next number; its uuid is an input, new to the journal.
     */
    method PostInvoice(id: string, entryId: string, rateText: real -> string)
      returns (r: Result<InvoiceRecord, string>)
      requires AccountingServices.FindEntry(accounting.journal, entryId) == |accounting.journal|
      modifies this`invoices, accounting`journal
      ensures r == PostOutcome(old(invoices), accounting.accounts, id, entryId, AccountingServices.NextEntryNumber(old(accounting.journal)), rateText)
      ensures invoices == if r.Ok? then old(invoices)[FindInvoice(old(invoices), id) := r.value] else old(invoices)
      ensures accounting.journal ==
        if r.Ok? then old(accounting.journal) + [PostedEntry(r.value, entryId, AccountingServices.NextEntryNumber(old(accounting.journal)), rateText)]
        else old(accounting.journal)
    {
      var k := FindInvoice(invoices, id);
      if k == |invoices| {
        return Err("No s'ha trobat la factura amb ID " + id);
      }
      r := PostFound(accounting, invoices[k], entryId, rateText);
      if r.Ok? {
        invoices := invoices[k := r.value];
      }
    }

    /** `mark_as_paid`. */
    method MarkAsPaid(id: string) returns (r: Result<InvoiceRecord, string>)
      modifies this`invoices
      ensures var k := FindInvoice(old(invoices), id);
        && (k == |old(invoices)| ==> r == Err("No s'ha trobat la factura amb ID " + id))
        && (k < |old(invoices)| && PayCheck(old(invoices)[k]).Err? ==> r == Err(PayCheck(old(invoices)[k]).error))
        && (r.Ok? <==> k < |old(invoices)| && PayCheck(old(invoices)[k]).Ok?)
        && (r.Ok? ==>
              && r.value == Paid(old(invoices)[k])
              && invoices == old(invoices)[k := r.value])
      ensures r.Err? ==> invoices == old(invoices)
    {
      var k := FindInvoice(invoices, id);
      if k == |invoices| {
        return Err("No s'ha trobat la factura amb ID " + id);
      }
      var before := invoices[k];
      var v := new SalesInvoice(before);
      var p := v.MarkAsPaid();
      if p.Err? {
        return Err(p.error);
      }
      var rec := v.Record();
      invoices := invoices[k := rec];
      r := Ok(rec);
    }
  }
}
