/**
 * The quote and sales-order use cases: partner checks, line building from
 * the caller's line data, numbering, date arithmetic and the status
 * transitions, over in-memory repositories. Each use case loads a copy of
 * the stored record into an entity object, works on the object and writes
 * the record back only when nothing raised.
 */
module SalesServices {
  import opened Wrappers
  import opened Dates
  import opened Text
  import opened SalesEntities
  import SalesNumbering
  import Partners

  // ---------------------------------------------------------------- shared rules

  /** One line dictionary of a request; `discount_percent` and `tax_rate` may be absent. */
  datatype LineData = LineData(
    productCode: string,
    description: string,
    quantity: real,
    unitPrice: real,
    discountPercent: Option<real>,
    taxRate: Option<real>)

  /** The line built from a dictionary: an absent discount is 0 and an absent VAT rate is 21. */
  function LineOf(d: LineData): (l: SalesLine)
    ensures l.productCode == d.productCode && l.description == d.description
    ensures l.quantity == d.quantity && l.unitPrice == d.unitPrice
    ensures l.discountPercent == (if d.discountPercent.Some? then d.discountPercent.value else 0.0)
    ensures l.taxRate == (if d.taxRate.Some? then d.taxRate.value else 21.0)
  {
    SalesLine(d.productCode, d.description, d.quantity, d.unitPrice,
              if d.discountPercent.Some? then d.discountPercent.value else 0.0,
              if d.taxRate.Some? then d.taxRate.value else 21.0)
  }

  /** The lines of a request, one per dictionary and in order. */
  function BuildLines(data: seq<LineData>): (lines: seq<SalesLine>)
  {
    if data == [] then [] else BuildLines(data[..|data| - 1]) + [LineOf(data[|data| - 1])]
  }

  /** One line per dictionary, the i-th built from the i-th. */
  lemma {:induction false} BuildLinesPointwise(data: seq<LineData>)
    ensures |BuildLines(data)| == |data|
    ensures forall i :: 0 <= i < |data| ==> BuildLines(data)[i] == LineOf(data[i])
  {
    if data != [] {
      BuildLinesPointwise(data[..|data| - 1]);
    }
  }

  /** A request line with all fields given keeps them all. */
  lemma LineOfComplete(d: LineData)
    requires d.discountPercent.Some? && d.taxRate.Some?
    ensures LineOf(d) == SalesLine(d.productCode, d.description, d.quantity, d.unitPrice,
                                   d.discountPercent.value, d.taxRate.value)
  {
  }

  /** The loop `for line_data in lines: sales_lines.append(SalesLine(...))`. */
  method MakeLines(data: seq<LineData>) returns (lines: seq<SalesLine>)
    ensures lines == BuildLines(data)
  {
    lines := [];
    for i := 0 to |data|
      invariant lines == BuildLines(data[..i])
    {
      assert data[..i + 1][..i] == data[..i];
      lines := lines + [LineOf(data[i])];
    }
    assert data[..|data|] == data;
  }

  /**
   * The list comprehension that copies lines into a new document: a fresh
   * line with the same six fields for each line, in order.
   */
  method CopyLines(src: seq<SalesLine>) returns (dst: seq<SalesLine>)
    ensures dst == src
  {
    dst := [];
    for i := 0 to |src|
      invariant dst == src[..i]
    {
      var l := src[i];
      dst := dst + [SalesLine(l.productCode, l.description, l.quantity, l.unitPrice, l.discountPercent, l.taxRate)];
    }
    assert src[..|src|] == src;
  }

  /** The partner checks of `create_quote`, `create_order` and `create_invoice`. */
  function CustomerCheck(partners: seq<Partners.Partner>, partnerId: string): (r: Result<(), string>)
    ensures r.Ok? <==> Partners.FindById(partners, partnerId).Some? && Partners.FindById(partners, partnerId).value.isCustomer
    ensures Partners.FindById(partners, partnerId).None? ==> r == Err("No s'ha trobat el client amb ID " + partnerId)
    ensures Partners.FindById(partners, partnerId).Some? && !Partners.FindById(partners, partnerId).value.isCustomer ==>
      r == Err("El partner ha de ser un client")
  {
    match Partners.FindById(partners, partnerId)
    case None => Err("No s'ha trobat el client amb ID " + partnerId)
    case Some(p) => if !p.isCustomer then Err("El partner ha de ser un client") else Ok(())
  }

  /** A partner that is only a supplier cannot be invoiced or quoted. */
  lemma SupplierOnlyRejected(partners: seq<Partners.Partner>, p: Partners.Partner)
    requires p in partners && !p.isCustomer
    requires forall i :: 0 <= i < |partners| && partners[i].id == p.id ==> partners[i] == p
    ensures CustomerCheck(partners, p.id).Err?
  {
  }

  /** `date + timedelta(days=k)`, which raises `OverflowError` outside years 1 to 9999. */
  function ShiftDate(d: Date, k: int): (r: Result<Date, string>)
    requires Valid(d)
    ensures r.Ok? <==> AddDays(d, k).Some?
    ensures r.Ok? ==> r.value == AddDays(d, k).value && Valid(r.value)
    ensures r.Err? ==> r.error == "date value out of range"
  {
    match AddDays(d, k)
    case None => Err("date value out of range")
    case Some(e) => Ok(e)
  }

  // ---------------------------------------------------------------- quotes

  /** Position of the first quote with that id, `|quotes|` when there is none. */
  function FindQuote(quotes: seq<QuoteRecord>, id: string): (k: nat)
    ensures k <= |quotes|
    ensures k < |quotes| ==> quotes[k].id == id
    ensures forall j :: 0 <= j < k ==> quotes[j].id != id
  {
    if quotes == [] then 0 else if quotes[0].id == id then 0 else 1 + FindQuote(quotes[1..], id)
  }

  function QuoteNumbers(quotes: seq<QuoteRecord>): (r: seq<string>)
    ensures |r| == |quotes| && forall i :: 0 <= i < |quotes| ==> r[i] == quotes[i].quoteNumber
  {
    if quotes == [] then [] else QuoteNumbers(quotes[..|quotes| - 1]) + [quotes[|quotes| - 1].quoteNumber]
  }

  /**
   * `create_quote`: partner checks, then the next number, `valid_until`,
   * the lines, and validation. The uuid and the current year are inputs.
   */
  function NewQuote(quotes: seq<QuoteRecord>, partners: seq<Partners.Partner>, newId: string, partnerId: string,
                    quoteDate: Date, validDays: int, data: seq<LineData>, notes: string, currentYear: int)
    : (r: Result<QuoteRecord, string>)
    requires Valid(quoteDate)
    ensures CustomerCheck(partners, partnerId).Err? ==> r == Err(CustomerCheck(partners, partnerId).error)
    ensures r.Ok? <==>
      && CustomerCheck(partners, partnerId).Ok?
      && AddDays(quoteDate, validDays).Some?
      && QuoteValid(QuoteRecord(newId, SalesNumbering.NextQuoteNumber(QuoteNumbers(quotes), currentYear), quoteDate,
                                AddDays(quoteDate, validDays).value, partnerId, BuildLines(data), QuoteStatus.DRAFT, notes))
    ensures r.Ok? ==> r.value == QuoteRecord(newId, SalesNumbering.NextQuoteNumber(QuoteNumbers(quotes), currentYear),
                                             quoteDate, AddDays(quoteDate, validDays).value, partnerId, BuildLines(data),
                                             QuoteStatus.DRAFT, notes)
  {
    match CustomerCheck(partners, partnerId)
    case Err(e) => Err(e)
    case Ok(_) =>
      match ShiftDate(quoteDate, validDays)
      case Err(e) => Err(e)
      case Ok(validUntil) =>
        var q := QuoteRecord(newId, SalesNumbering.NextQuoteNumber(QuoteNumbers(quotes), currentYear), quoteDate,
                             validUntil, partnerId, BuildLines(data), QuoteStatus.DRAFT, notes);
        match ValidateQuote(q)
        case Err(e) => Err(e)
        case Ok(_) => Ok(q)
  }

  /** A created quote has a number no stored quote has, a non-negative validity, and can be sent at once. */
  lemma NewQuoteProperties(quotes: seq<QuoteRecord>, partners: seq<Partners.Partner>, newId: string, partnerId: string,
                           quoteDate: Date, validDays: int, data: seq<LineData>, notes: string, currentYear: nat)
    requires Valid(quoteDate)
    requires NewQuote(quotes, partners, newId, partnerId, quoteDate, validDays, data, notes, currentYear).Ok?
    ensures var q := NewQuote(quotes, partners, newId, partnerId, quoteDate, validDays, data, notes, currentYear).value;
      && (forall i :: 0 <= i < |quotes| ==> quotes[i].quoteNumber != q.quoteNumber)
      && validDays >= 0
      && |q.lines| == |data|
      && SendCheck(q).Ok?
  {
    var q := NewQuote(quotes, partners, newId, partnerId, quoteDate, validDays, data, notes, currentYear).value;
    SalesNumbering.QuoteNumberFresh(QuoteNumbers(quotes), currentYear);
    AddDaysOrder(quoteDate, validDays, q.validUntil);
    BuildLinesPointwise(data);
  }

  /** `update_quote`'s edit: lines replaced when given, notes replaced when given. */
  function EditedQuote(q: QuoteRecord, data: Option<seq<LineData>>, notes: Option<string>): (r: QuoteRecord)
    ensures r.id == q.id && r.quoteNumber == q.quoteNumber && r.status == q.status && r.partnerId == q.partnerId
    ensures r.quoteDate == q.quoteDate && r.validUntil == q.validUntil
  {
    q.(lines := if data.Some? then BuildLines(data.value) else q.lines,
       notes := if notes.Some? then notes.value else q.notes)
  }

  /** Editing with nothing given changes nothing. */
  lemma EditNothing(q: QuoteRecord)
    ensures EditedQuote(q, None, None) == q
  {
  }

  /** Every quote passes `Quote.validate`. */
  predicate QuotesValid(quotes: seq<QuoteRecord>)
  {
    forall i :: 0 <= i < |quotes| ==> QuoteValid(quotes[i])
  }

  lemma QuotesAppendValid(quotes: seq<QuoteRecord>, q: QuoteRecord)
    requires QuotesValid(quotes) && QuoteValid(q)
    ensures QuotesValid(quotes + [q])
  {
    assert forall i :: 0 <= i < |quotes| ==> (quotes + [q])[i] == quotes[i];
  }

  lemma QuotesUpdateValid(quotes: seq<QuoteRecord>, k: nat, q: QuoteRecord)
    requires QuotesValid(quotes) && k < |quotes| && QuoteValid(q)
    ensures QuotesValid(quotes[k := q])
  {
  }

  lemma QuotesRemoveValid(quotes: seq<QuoteRecord>, k: nat)
    requires QuotesValid(quotes) && k < |quotes|
    ensures QuotesValid(quotes[..k] + quotes[k + 1..])
  {
    var rest := quotes[..k] + quotes[k + 1..];
    assert forall i :: 0 <= i < |rest| ==> rest[i] == (if i < k then quotes[i] else quotes[i + 1]);
  }

  /** The quote repository with the partner repository it reads. */
  class QuoteService {
    var quotes: seq<QuoteRecord>
    var partners: seq<Partners.Partner>

    constructor (quotes: seq<QuoteRecord>, partners: seq<Partners.Partner>)
      ensures this.quotes == quotes && this.partners == partners
    {
      this.quotes := quotes;
      this.partners := partners;
    }

    method CreateQuote(newId: string, partnerId: string, quoteDate: Date, validDays: int, data: seq<LineData>,
                       notes: string, currentYear: int) returns (r: Result<QuoteRecord, string>)
      requires Valid(quoteDate)
      modifies this`quotes
      ensures r == NewQuote(old(quotes), partners, newId, partnerId, quoteDate, validDays, data, notes, currentYear)
      ensures quotes == if r.Ok? then old(quotes) + [r.value] else old(quotes)
    {
      var c := CustomerCheck(partners, partnerId);
      if c.Err? {
        return Err(c.error);
      }
      var number := SalesNumbering.NextQuoteNumber(QuoteNumbers(quotes), currentYear);
      var validUntil := ShiftDate(quoteDate, validDays);
      if validUntil.Err? {
        return Err(validUntil.error);
      }
      var lines := MakeLines(data);
      var q := new Quote(QuoteRecord(newId, number, quoteDate, validUntil.value, partnerId, lines, QuoteStatus.DRAFT, notes));
      var v := ValidateQuote(q.Record());
      if v.Err? {
        return Err(v.error);
      }
      var rec := q.Record();
      quotes := quotes + [rec];
      r := Ok(rec);
    }

    /** `update_quote`: only a draft can be edited, and the edited quote must validate before it is stored. */
    method UpdateQuote(id: string, data: Option<seq<LineData>>, notes: Option<string>) returns (r: Result<QuoteRecord, string>)
      modifies this`quotes
      ensures var k := FindQuote(old(quotes), id);
        && (k == |old(quotes)| ==> r == Err("No s'ha trobat el pressupost amb ID " + id))
        && (k < |old(quotes)| && old(quotes)[k].status != QuoteStatus.DRAFT ==>
              r == Err("Només es poden editar pressupostos en esborrany"))
        && (r.Ok? <==> k < |old(quotes)| && old(quotes)[k].status == QuoteStatus.DRAFT
                       && QuoteValid(EditedQuote(old(quotes)[k], data, notes)))
        && (r.Ok? ==> r.value == EditedQuote(old(quotes)[k], data, notes) && quotes == old(quotes)[k := r.value])
      ensures r.Err? ==> quotes == old(quotes)
    {
      var k := FindQuote(quotes, id);
      if k == |quotes| {
        return Err("No s'ha trobat el pressupost amb ID " + id);
      }
      var q := new Quote(quotes[k]);
      if !q.CanEdit() {
        return Err("Només es poden editar pressupostos en esborrany");
      }
      ghost var edited := EditedQuote(quotes[k], data, notes);
      if data.Some? {
        var lines := MakeLines(data.value);
        q.lines := lines;
      }
      if notes.Some? {
        q.notes := notes.value;
      }
      assert q.Record() == edited;
      var v := ValidateQuote(q.Record());
      if v.Err? {
        return Err(v.error);
      }
      var rec := q.Record();
      quotes := quotes[k := rec];
      r := Ok(rec);
    }

    /** `send_quote`. */
    method SendQuote(id: string) returns (r: Result<QuoteRecord, string>)
      modifies this`quotes
      ensures var k := FindQuote(old(quotes), id);
        && (k == |old(quotes)| ==> r == Err("No s'ha trobat el pressupost amb ID " + id))
        && (k < |old(quotes)| && SendCheck(old(quotes)[k]).Err? ==> r == Err(SendCheck(old(quotes)[k]).error))
        && (r.Ok? <==> k < |old(quotes)| && SendCheck(old(quotes)[k]).Ok?)
        && (r.Ok? ==> r.value == old(quotes)[k].(status := QuoteStatus.SENT) && quotes == old(quotes)[k := r.value])
      ensures r.Err? ==> quotes == old(quotes)
    {
      var k := FindQuote(quotes, id);
      if k == |quotes| {
        return Err("No s'ha trobat el pressupost amb ID " + id);
      }
      var q := new Quote(quotes[k]);
      var t := q.Send();
      if t.Err? {
        return Err(t.error);
      }
      var rec := q.Record();
      quotes := quotes[k := rec];
      r := Ok(rec);
    }

    /** `accept_quote`; `today` stands for `date.today()` inside `accept`. */
    method AcceptQuote(id: string, today: Date) returns (r: Result<QuoteRecord, string>)
      modifies this`quotes
      ensures var k := FindQuote(old(quotes), id);
        && (k == |old(quotes)| ==> r == Err("No s'ha trobat el pressupost amb ID " + id))
        && (k < |old(quotes)| && AcceptCheck(old(quotes)[k], today).Err? ==> r == Err(AcceptCheck(old(quotes)[k], today).error))
        && (r.Ok? <==> k < |old(quotes)| && AcceptCheck(old(quotes)[k], today).Ok?)
        && (r.Ok? ==> r.value == old(quotes)[k].(status := QuoteStatus.ACCEPTED) && quotes == old(quotes)[k := r.value])
      ensures r.Err? ==> quotes == old(quotes)
    {
      var k := FindQuote(quotes, id);
      if k == |quotes| {
        return Err("No s'ha trobat el pressupost amb ID " + id);
      }
      var q := new Quote(quotes[k]);
      var t := q.Accept(today);
      if t.Err? {
        return Err(t.error);
      }
      var rec := q.Record();
      quotes := quotes[k := rec];
      r := Ok(rec);
    }

    /** `reject_quote`. */
    method RejectQuote(id: string) returns (r: Result<QuoteRecord, string>)
      modifies this`quotes
      ensures var k := FindQuote(old(quotes), id);
        && (k == |old(quotes)| ==> r == Err("No s'ha trobat el pressupost amb ID " + id))
        && (k < |old(quotes)| && RejectCheck(old(quotes)[k]).Err? ==> r == Err(RejectCheck(old(quotes)[k]).error))
        && (r.Ok? <==> k < |old(quotes)| && RejectCheck(old(quotes)[k]).Ok?)
        && (r.Ok? ==> r.value == old(quotes)[k].(status := QuoteStatus.REJECTED) && quotes == old(quotes)[k := r.value])
      ensures r.Err? ==> quotes == old(quotes)
    {
      var k := FindQuote(quotes, id);
      if k == |quotes| {
        return Err("No s'ha trobat el pressupost amb ID " + id);
      }
      var q := new Quote(quotes[k]);
      var t := q.Reject();
      if t.Err? {
        return Err(t.error);
      }
      var rec := q.Record();
      quotes := quotes[k := rec];
      r := Ok(rec);
    }

    /** `delete_quote`: only a draft is removed. */
    method DeleteQuote(id: string) returns (r: Result<(), string>)
      modifies this`quotes
      ensures var k := FindQuote(old(quotes), id);
        && (k == |old(quotes)| ==> r == Err("No s'ha trobat el pressupost amb ID " + id))
        && (k < |old(quotes)| && old(quotes)[k].status != QuoteStatus.DRAFT ==>
              r == Err("Només es poden eliminar pressupostos en esborrany"))
        && (r.Ok? <==> k < |old(quotes)| && old(quotes)[k].status == QuoteStatus.DRAFT)
        && (r.Ok? ==> quotes == old(quotes)[..k] + old(quotes)[k + 1..])
      ensures r.Err? ==> quotes == old(quotes)
    {
      var k := FindQuote(quotes, id);
      if k == |quotes| {
        return Err("No s'ha trobat el pressupost amb ID " + id);
      }
      var q := new Quote(quotes[k]);
      if !q.CanEdit() {
        return Err("Només es poden eliminar pressupostos en esborrany");
      }
      quotes := quotes[..k] + quotes[k + 1..];
      r := Ok(());
    }
  }

  // ---------------------------------------------------------------- sales orders

  /** Position of the first order with that id, `|orders|` when there is none. */
  function FindOrder(orders: seq<OrderRecord>, id: string): (k: nat)
    ensures k <= |orders|
    ensures k < |orders| ==> orders[k].id == id
    ensures forall j :: 0 <= j < k ==> orders[j].id != id
  {
    if orders == [] then 0 else if orders[0].id == id then 0 else 1 + FindOrder(orders[1..], id)
  }

  function OrderNumbers(orders: seq<OrderRecord>): (r: seq<string>)
    ensures |r| == |orders| && forall i :: 0 <= i < |orders| ==> r[i] == orders[i].orderNumber
  {
    if orders == [] then [] else OrderNumbers(orders[..|orders| - 1]) + [orders[|orders| - 1].orderNumber]
  }

  /** `create_order`: partner checks, the next number, the lines, validation. */
  function NewOrder(orders: seq<OrderRecord>, partners: seq<Partners.Partner>, newId: string, partnerId: string,
                    orderDate: Date, data: seq<LineData>, deliveryDate: Option<Date>, deliveryAddress: string,
                    notes: string, currentYear: int): (r: Result<OrderRecord, string>)
    ensures CustomerCheck(partners, partnerId).Err? ==> r == Err(CustomerCheck(partners, partnerId).error)
    ensures r.Ok? <==>
      CustomerCheck(partners, partnerId).Ok? &&
      OrderValid(OrderRecord(newId, SalesNumbering.NextOrderNumber(OrderNumbers(orders), currentYear), orderDate, partnerId,
                             BuildLines(data), OrderStatus.DRAFT, None, deliveryDate, deliveryAddress, notes))
    ensures r.Ok? ==> r.value == OrderRecord(newId, SalesNumbering.NextOrderNumber(OrderNumbers(orders), currentYear),
                                             orderDate, partnerId, BuildLines(data), OrderStatus.DRAFT, None,
                                             deliveryDate, deliveryAddress, notes)
  {
    match CustomerCheck(partners, partnerId)
    case Err(e) => Err(e)
    case Ok(_) =>
      var o := OrderRecord(newId, SalesNumbering.NextOrderNumber(OrderNumbers(orders), currentYear), orderDate, partnerId,
                           BuildLines(data), OrderStatus.DRAFT, None, deliveryDate, deliveryAddress, notes);
      match ValidateOrder(o)
      case Err(e) => Err(e)
      case Ok(_) => Ok(o)
  }

  /**
   * `create_from_quote`: only an accepted quote converts. The order takes the
   * quote's partner, lines and notes; no partner check is made. `today` is
   * both the default order date and the year of the number.
   */
  function OrderFromQuote(orders: seq<OrderRecord>, quotes: seq<QuoteRecord>, newId: string, quoteId: string,
                          orderDate: Option<Date>, today: Date): (r: Result<OrderRecord, string>)
    ensures FindQuote(quotes, quoteId) == |quotes| ==> r == Err("No s'ha trobat el pressupost amb ID " + quoteId)
    ensures FindQuote(quotes, quoteId) < |quotes| && quotes[FindQuote(quotes, quoteId)].status != QuoteStatus.ACCEPTED ==>
      r == Err("Només es poden convertir pressupostos acceptats")
    ensures r.Ok? ==> FindQuote(quotes, quoteId) < |quotes| && quotes[FindQuote(quotes, quoteId)].status == QuoteStatus.ACCEPTED
    ensures r.Ok? ==> OrderValid(r.value)
  {
    var k := FindQuote(quotes, quoteId);
    if k == |quotes| then Err("No s'ha trobat el pressupost amb ID " + quoteId)
    else if quotes[k].status != QuoteStatus.ACCEPTED then Err("Només es poden convertir pressupostos acceptats")
    else
      var q := quotes[k];
      var o := OrderRecord(newId, SalesNumbering.NextOrderNumber(OrderNumbers(orders), today.year),
                           if orderDate.Some? then orderDate.value else today, q.partnerId, q.lines,
                           OrderStatus.DRAFT, Some(quoteId), None, "", q.notes);
      match ValidateOrder(o)
      case Err(e) => Err(e)
      case Ok(_) => Ok(o)
  }

  /** The converted order copies the quote's partner, lines and notes, links the quote, and starts as a draft. */
  lemma OrderFromQuoteCopies(orders: seq<OrderRecord>, quotes: seq<QuoteRecord>, newId: string, quoteId: string,
                             orderDate: Option<Date>, today: Date)
    requires OrderFromQuote(orders, quotes, newId, quoteId, orderDate, today).Ok?
    ensures var o := OrderFromQuote(orders, quotes, newId, quoteId, orderDate, today).value;
      var q := quotes[FindQuote(quotes, quoteId)];
      && o.lines == q.lines && o.partnerId == q.partnerId && o.notes == q.notes
      && o.quoteId == Some(quoteId) && o.status == OrderStatus.DRAFT && o.id == newId
      && o.orderDate == (if orderDate.Some? then orderDate.value else today)
      && o.orderNumber == SalesNumbering.NextOrderNumber(OrderNumbers(orders), today.year)
      && o.deliveryDate == None && o.deliveryAddress == ""
  {
  }

  /** An accepted quote that passed validation always converts when an order date is given. */
  lemma ValidAcceptedQuoteConverts(orders: seq<OrderRecord>, quotes: seq<QuoteRecord>, newId: string, quoteId: string,
                                   orderDate: Date, today: Date)
    requires FindQuote(quotes, quoteId) < |quotes|
    requires var q := quotes[FindQuote(quotes, quoteId)]; q.status == QuoteStatus.ACCEPTED && QuoteValid(q)
    ensures OrderFromQuote(orders, quotes, newId, quoteId, Some(orderDate), today).Ok?
  {
    SalesNumbering.OrderNumberNotBlank(OrderNumbers(orders), today.year);
  }

  /** Every order passes `SalesOrder.validate`. */
  predicate OrdersValid(orders: seq<OrderRecord>)
  {
    forall i :: 0 <= i < |orders| ==> OrderValid(orders[i])
  }

  lemma OrdersAppendValid(orders: seq<OrderRecord>, o: OrderRecord)
    requires OrdersValid(orders) && OrderValid(o)
    ensures OrdersValid(orders + [o])
  {
    assert forall i :: 0 <= i < |orders| ==> (orders + [o])[i] == orders[i];
  }

  lemma OrdersUpdateValid(orders: seq<OrderRecord>, k: nat, o: OrderRecord)
    requires OrdersValid(orders) && k < |orders| && OrderValid(o)
    ensures OrdersValid(orders[k := o])
  {
  }

  /** The order repository with the quote and partner repositories it reads. */
  class SalesOrderService {
    var orders: seq<OrderRecord>
    var quotes: seq<QuoteRecord>
    var partners: seq<Partners.Partner>

    constructor (orders: seq<OrderRecord>, quotes: seq<QuoteRecord>, partners: seq<Partners.Partner>)
      ensures this.orders == orders && this.quotes == quotes && this.partners == partners
    {
      this.orders := orders;
      this.quotes := quotes;
      this.partners := partners;
    }

    method CreateOrder(newId: string, partnerId: string, orderDate: Date, data: seq<LineData>, deliveryDate: Option<Date>,
                       deliveryAddress: string, notes: string, currentYear: int) returns (r: Result<OrderRecord, string>)
      modifies this`orders
      ensures r == NewOrder(old(orders), partners, newId, partnerId, orderDate, data, deliveryDate, deliveryAddress, notes, currentYear)
      ensures orders == if r.Ok? then old(orders) + [r.value] else old(orders)
    {
      var c := CustomerCheck(partners, partnerId);
      if c.Err? {
        return Err(c.error);
      }
      var number := SalesNumbering.NextOrderNumber(OrderNumbers(orders), currentYear);
      var lines := MakeLines(data);
      var o := new SalesOrder(OrderRecord(newId, number, orderDate, partnerId, lines, OrderStatus.DRAFT, None,
                                          deliveryDate, deliveryAddress, notes));
      var v := ValidateOrder(o.Record());
      if v.Err? {
        return Err(v.error);
      }
      var rec := o.Record();
      orders := orders + [rec];
      r := Ok(rec);
    }

    method CreateFromQuote(newId: string, quoteId: string, orderDate: Option<Date>, today: Date)
      returns (r: Result<OrderRecord, string>)
      modifies this`orders
      ensures r == OrderFromQuote(old(orders), quotes, newId, quoteId, orderDate, today)
      ensures orders == if r.Ok? then old(orders) + [r.value] else old(orders)
    {
      var k := FindQuote(quotes, quoteId);
      if k == |quotes| {
        return Err("No s'ha trobat el pressupost amb ID " + quoteId);
      }
      var q := quotes[k];
      if q.status != QuoteStatus.ACCEPTED {
        return Err("Només es poden convertir pressupostos acceptats");
      }
      var number := SalesNumbering.NextOrderNumber(OrderNumbers(orders), today.year);
      var date := if orderDate.Some? then orderDate.value else today;
      var lines := CopyLines(q.lines);
      var o := new SalesOrder(OrderRecord(newId, number, date, q.partnerId, lines, OrderStatus.DRAFT, Some(quoteId), None, "", q.notes));
      var v := ValidateOrder(o.Record());
      if v.Err? {
        return Err(v.error);
      }
      var rec := o.Record();
      orders := orders + [rec];
      r := Ok(rec);
    }

    /** `confirm_order`. */
    method ConfirmOrder(id: string) returns (r: Result<OrderRecord, string>)
      modifies this`orders
      ensures var k := FindOrder(old(orders), id);
        && (k == |old(orders)| ==> r == Err("No s'ha trobat la comanda amb ID " + id))
        && (k < |old(orders)| && ConfirmCheck(old(orders)[k]).Err? ==> r == Err(ConfirmCheck(old(orders)[k]).error))
        && (r.Ok? <==> k < |old(orders)| && ConfirmCheck(old(orders)[k]).Ok?)
        && (r.Ok? ==> r.value == old(orders)[k].(status := OrderStatus.CONFIRMED) && orders == old(orders)[k := r.value])
      ensures r.Err? ==> orders == old(orders)
    {
      var k := FindOrder(orders, id);
      if k == |orders| {
        return Err("No s'ha trobat la comanda amb ID " + id);
      }
      var o := new SalesOrder(orders[k]);
      var t := o.Confirm();
      if t.Err? {
        return Err(t.error);
      }
      var rec := o.Record();
      orders := orders[k := rec];
      r := Ok(rec);
    }

    /** `deliver_order`. */
    method DeliverOrder(id: string) returns (r: Result<OrderRecord, string>)
      modifies this`orders
      ensures var k := FindOrder(old(orders), id);
        && (k == |old(orders)| ==> r == Err("No s'ha trobat la comanda amb ID " + id))
        && (k < |old(orders)| && DeliverCheck(old(orders)[k]).Err? ==> r == Err(DeliverCheck(old(orders)[k]).error))
        && (r.Ok? <==> k < |old(orders)| && DeliverCheck(old(orders)[k]).Ok?)
        && (r.Ok? ==> r.value == old(orders)[k].(status := OrderStatus.DELIVERED) && orders == old(orders)[k := r.value])
      ensures r.Err? ==> orders == old(orders)
    {
      var k := FindOrder(orders, id);
      if k == |orders| {
        return Err("No s'ha trobat la comanda amb ID " + id);
      }
      var o := new SalesOrder(orders[k]);
      var t := o.Deliver();
      if t.Err? {
        return Err(t.error);
      }
      var rec := o.Record();
      orders := orders[k := rec];
      r := Ok(rec);
    }

    /** `cancel_order`. */
    method CancelOrder(id: string) returns (r: Result<OrderRecord, string>)
      modifies this`orders
      ensures var k := FindOrder(old(orders), id);
        && (k == |old(orders)| ==> r == Err("No s'ha trobat la comanda amb ID " + id))
        && (k < |old(orders)| && CancelCheck(old(orders)[k]).Err? ==> r == Err(CancelCheck(old(orders)[k]).error))
        && (r.Ok? <==> k < |old(orders)| && CancelCheck(old(orders)[k]).Ok?)
        && (r.Ok? ==> r.value == old(orders)[k].(status := OrderStatus.CANCELLED) && orders == old(orders)[k := r.value])
      ensures r.Err? ==> orders == old(orders)
    {
      var k := FindOrder(orders, id);
      if k == |orders| {
        return Err("No s'ha trobat la comanda amb ID " + id);
      }
      var o := new SalesOrder(orders[k]);
      var t := o.Cancel();
      if t.Err? {
        return Err(t.error);
      }
      var rec := o.Record();
      orders := orders[k := rec];
      r := Ok(rec);
    }
  }
}
