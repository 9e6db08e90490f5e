/**
 * The purchase order and supplier invoice services. Each repository is a
 * list of stored records: `find_by_id` loads a record with its lines in
 * line-number order, and `save` replaces the record with the same id or
 * appends it. The order repository is an object of its own, because both
 * services hold it. Identifiers (uuids), today's date and the fallback time
 * stamp of the number generators are inputs.
 */
module PurchasesServices {
  import opened Wrappers
  import opened Dates
  import opened Text
  import opened PurchasesEntities
  import opened PurchasesRepository
  import Partners
  import AE = AccountingEntities
  import AccountingServices
  import SalesServices

  // ---------------------------------------------------------------- repositories

  /** The index of the first record whose key is `id`, or the length when there is none. */
  function FindBy<T>(s: seq<T>, id: string, key: T -> string): (k: nat)
    ensures k <= |s|
    ensures k < |s| ==> key(s[k]) == id
    ensures forall j :: 0 <= j < k ==> key(s[j]) != id
  {
    if s == [] then 0 else if key(s[0]) == id then 0 else 1 + FindBy(s[1..], id, key)
  }

  /** `save`: update the stored record with the same id, or add a new one. */
  function SaveBy<T>(s: seq<T>, x: T, key: T -> string): (r: seq<T>)
  {
    var k := FindBy(s, key(x), key);
    if k < |s| then s[k := x] else s + [x]
  }

  /** After a save the record is found under its id, and every record with another id is where it was. */
  lemma SavedIsFound<T>(s: seq<T>, x: T, key: T -> string)
    ensures var r := SaveBy(s, x, key);
      FindBy(r, key(x), key) < |r| && r[FindBy(r, key(x), key)] == x
    ensures var r := SaveBy(s, x, key);
      |s| <= |r| && forall j :: 0 <= j < |s| && key(s[j]) != key(x) ==> r[j] == s[j]
  {
    var k := FindBy(s, key(x), key);
    var r := SaveBy(s, x, key);
    if k == |s| {
      assert r[|s|] == x;
      assert FindBy(r, key(x), key) == |s| by {
        FindWithin(r, key(x), key, |s|);
      }
    } else {
      FindWithin(r, key(x), key, k);
    }
  }

  /** A record with the key at `k`, and none before, is the one found. */
  lemma FindWithin<T>(s: seq<T>, id: string, key: T -> string, k: nat)
    requires k < |s| && key(s[k]) == id
    requires forall j :: 0 <= j < k ==> key(s[j]) != id
    ensures FindBy(s, id, key) == k
  {
    var f := FindBy(s, id, key);
    assert f <= k;
  }

  /** Saving twice under the same id keeps only the second record. */
  lemma SaveTwice<T>(s: seq<T>, x: T, y: T, key: T -> string)
    requires key(x) == key(y)
    ensures SaveBy(SaveBy(s, x, key), y, key) == SaveBy(s, y, key)
  {
    var k := FindBy(s, key(x), key);
    var t := SaveBy(s, x, key);
    if k < |s| {
      FindWithin(t, key(y), key, k);
    } else {
      FindWithin(t, key(y), key, |s|);
      assert t[|s| := y] == s + [y];
    }
  }

  function OrderId(o: PurchaseOrder): string { o.id }

  function InvoiceId(v: PurchaseInvoice): string { v.id }

  /** `_to_entity` of an order: the lines come back sorted by line number. */
  function LoadOrder(o: PurchaseOrder): (r: PurchaseOrder)
    ensures r == o.(lines := r.lines) && SortedByLineNumber(r.lines)
    ensures multiset(r.lines) == multiset(o.lines) && TotalAmount(r.lines) == TotalAmount(o.lines)
  {
    LoadKeepsTotals(o.lines);
    o.(lines := SortLines(o.lines))
  }

  /** `_to_entity` of an invoice. */
  function LoadInvoice(v: PurchaseInvoice): (r: PurchaseInvoice)
    ensures r == v.(lines := r.lines) && SortedByLineNumber(r.lines)
    ensures multiset(r.lines) == multiset(v.lines)
    ensures Subtotal(r.lines) == Subtotal(v.lines) && TaxAmount(r.lines) == TaxAmount(v.lines)
    ensures TotalAmount(r.lines) == TotalAmount(v.lines)
  {
    LoadKeepsTotals(v.lines);
    v.(lines := SortLines(v.lines))
  }

  function OrderNumbers(orders: seq<PurchaseOrder>): (r: seq<string>)
    ensures |r| == |orders| && forall i :: 0 <= i < |orders| ==> r[i] == orders[i].orderNumber
  {
    seq(|orders|, i requires 0 <= i < |orders| => orders[i].orderNumber)
  }

  function InvoiceNumbers(invoices: seq<PurchaseInvoice>): (r: seq<string>)
    ensures |r| == |invoices| && forall i :: 0 <= i < |invoices| ==> r[i] == invoices[i].invoiceNumber
  {
    seq(|invoices|, i requires 0 <= i < |invoices| => invoices[i].invoiceNumber)
  }

  /** The order repository, shared by both services. */
  class OrderStore {
    var orders: seq<PurchaseOrder>

    constructor (orders: seq<PurchaseOrder>)
      ensures this.orders == orders
    {
      this.orders := orders;
    }
  }

  // ---------------------------------------------------------------- order life cycle

  datatype OrderAction = Confirm | Receive | Cancel

  /** The status an action requires. */
  predicate Allowed(a: OrderAction, s: PurchaseOrderStatus)
  {
    match a
    case Confirm => s == PurchaseOrderStatus.DRAFT
    case Receive => s == PurchaseOrderStatus.CONFIRMED
    case Cancel => s != PurchaseOrderStatus.RECEIVED && s != PurchaseOrderStatus.INVOICED
  }

  /** The status an action sets. */
  function Target(a: OrderAction): PurchaseOrderStatus
  {
    match a
    case Confirm => PurchaseOrderStatus.CONFIRMED
    case Receive => PurchaseOrderStatus.RECEIVED
    case Cancel => PurchaseOrderStatus.CANCELLED
  }

  /** The message of the refusal. */
  function Refusal(a: OrderAction): string
  {
    match a
    case Confirm => "Only draft orders can be confirmed"
    case Receive => "Only confirmed orders can be received"
    case Cancel => "Cannot cancel received/invoiced orders"
  }

  /**
   * `confirm_order`, `receive_order` and `cancel_order`: an unknown order is
   * refused, an order not in the status the action requires is refused, and
   * otherwise the loaded order gets the action's status and nothing else
   * changes.
   */
  function OrderTransition(orders: seq<PurchaseOrder>, id: string, a: OrderAction): (r: Result<PurchaseOrder, string>)
    ensures var k := FindBy(orders, id, OrderId);
      r.Ok? <==> k < |orders| && Allowed(a, orders[k].status)
    ensures var k := FindBy(orders, id, OrderId);
      r.Ok? ==> r.value == LoadOrder(orders[k]).(status := Target(a)) && r.value.id == id
    ensures FindBy(orders, id, OrderId) == |orders| ==> r == Err("Order not found")
    ensures var k := FindBy(orders, id, OrderId);
      k < |orders| && !Allowed(a, orders[k].status) ==> r == Err(Refusal(a))
  {
    var k := FindBy(orders, id, OrderId);
    if k == |orders| then Err("Order not found")
    else
      var o := LoadOrder(orders[k]);
      if !Allowed(a, o.status) then Err(Refusal(a)) else Ok(o.(status := Target(a)))
  }

  /** One status change of an order: an action, or `create_from_order` invoicing a received order. */
  predicate OrderStep(s: PurchaseOrderStatus, t: PurchaseOrderStatus)
  {
    (exists a: OrderAction :: Allowed(a, s) && Target(a) == t)
    || (s == PurchaseOrderStatus.RECEIVED && t == PurchaseOrderStatus.INVOICED)
  }

  /** The order of the life cycle: draft, confirmed, received, invoiced; cancelled last. */
  function Stage(s: PurchaseOrderStatus): nat
  {
    match s
    case DRAFT => 0
    case CONFIRMED => 1
    case RECEIVED => 2
    case INVOICED => 3
    case CANCELLED => 4
  }

  /** An order never goes back in its life cycle, and it only stays where it is when a cancelled order is cancelled again. */
  lemma StepsMoveForward(s: PurchaseOrderStatus, t: PurchaseOrderStatus)
    requires OrderStep(s, t)
    ensures Stage(s) <= Stage(t)
    ensures s == t ==> s == PurchaseOrderStatus.CANCELLED
  {
    if s != PurchaseOrderStatus.RECEIVED || t != PurchaseOrderStatus.INVOICED {
      var a: OrderAction :| Allowed(a, s) && Target(a) == t;
    }
  }

  /** An invoiced order accepts no action; a cancelled one accepts only being cancelled again. */
  lemma FinalStatuses(a: OrderAction)
    ensures !Allowed(a, PurchaseOrderStatus.INVOICED)
    ensures Allowed(a, PurchaseOrderStatus.CANCELLED) <==> a == Cancel
  {
  }

  // ---------------------------------------------------------------- inventory on receipt

  /** `if line.product_id:` - a line with a non-empty product is recorded in the inventory. */
  predicate Attempted(l: PurchaseLine)
  {
    l.productId.Some? && l.productId.value != ""
  }

  /** The lines whose inventory update failed, in order; `recorded(l)` says whether `record_purchase` returned normally. */
  function FailedLines(lines: seq<PurchaseLine>, recorded: PurchaseLine -> bool): (r: seq<PurchaseLine>)
    ensures forall x :: x in r ==> x in lines && Attempted(x) && !recorded(x)
    ensures |r| <= |lines|
  {
    if lines == [] then []
    else
      var n := |lines| - 1;
      assert lines == lines[..n] + [lines[n]];
      var l := lines[n];
      FailedLines(lines[..n], recorded) + (if Attempted(l) && !recorded(l) then [l] else [])
  }

  /** When every update goes through, nothing is logged. */
  lemma {:induction false} NothingFailsWhenAllRecorded(lines: seq<PurchaseLine>, recorded: PurchaseLine -> bool)
    requires forall i :: 0 <= i < |lines| ==> recorded(lines[i])
    ensures FailedLines(lines, recorded) == []
  {
    if lines != [] {
      var n := |lines| - 1;
      assert forall i :: 0 <= i < n ==> lines[..n][i] == lines[i];
      NothingFailsWhenAllRecorded(lines[..n], recorded);
    }
  }

  /**
   * The inventory loop of `receive_order` and `post_invoice`: each attempted
   * line is recorded, and a failure is logged and the loop goes on. No
   * inventory service means no loop.
   */
  method RecordLines(lines: seq<PurchaseLine>, inventory: Option<PurchaseLine -> bool>)
    returns (failed: seq<PurchaseLine>)
    ensures failed == if inventory.Some? then FailedLines(lines, inventory.value) else []
  {
    failed := [];
    if inventory.None? {
      return;
    }
    var recorded := inventory.value;
    var i := 0;
    while i < |lines|
      invariant 0 <= i <= |lines|
      invariant failed == FailedLines(lines[..i], recorded)
    {
      var l := lines[i];
      if Attempted(l) && !recorded(l) {
        failed := failed + [l];
      }
      assert lines[..i + 1][..i] == lines[..i];
      i := i + 1;
    }
    assert lines[..i] == lines;
  }

  class PurchaseOrderService {
    const store: OrderStore

    constructor (store: OrderStore)
      ensures this.store == store
    {
      this.store := store;
    }

    /** `create_order`: a new DRAFT order with the next order number, dated today unless a date is given. */
    method CreateOrder(newId: string, partnerId: string, lines: seq<PurchaseLine>, orderDate: Option<Date>,
                       today: Date, notes: string, stamp: string) returns (o: PurchaseOrder)
      modifies store`orders
      ensures o == PurchaseOrder(newId, partnerId, if orderDate.Some? then orderDate.value else today, lines,
                                 NextOrderNumber(OrderNumbers(old(store.orders)), stamp), PurchaseOrderStatus.DRAFT, notes)
      ensures store.orders == SaveBy(old(store.orders), o, OrderId)
    {
      var date := if orderDate.Some? then orderDate.value else today;
      var number := NextOrderNumber(OrderNumbers(store.orders), stamp);
      o := PurchaseOrder(newId, partnerId, date, lines, number, PurchaseOrderStatus.DRAFT, notes);
      store.orders := SaveBy(store.orders, o, OrderId);
    }

    method ConfirmOrder(id: string) returns (r: Result<PurchaseOrder, string>)
      modifies store`orders
      ensures r == OrderTransition(old(store.orders), id, Confirm)
      ensures store.orders == if r.Ok? then SaveBy(old(store.orders), r.value, OrderId) else old(store.orders)
    {
      r := Apply(id, Confirm);
    }

    /**
     * `receive_order`: the status change happens whatever the inventory
     * does; the lines whose update failed are the ones logged.
     */
    method ReceiveOrder(id: string, inventory: Option<PurchaseLine -> bool>)
      returns (r: Result<PurchaseOrder, string>, failed: seq<PurchaseLine>)
      modifies store`orders
      ensures r == OrderTransition(old(store.orders), id, Receive)
      ensures store.orders == if r.Ok? then SaveBy(old(store.orders), r.value, OrderId) else old(store.orders)
      ensures failed == if r.Ok? && inventory.Some? then FailedLines(r.value.lines, inventory.value) else []
    {
      failed := [];
      var k := FindBy(store.orders, id, OrderId);
      if k == |store.orders| {
        return Err("Order not found"), [];
      }
      var o := LoadOrder(store.orders[k]);
      if o.status != PurchaseOrderStatus.CONFIRMED {
        return Err("Only confirmed orders can be received"), [];
      }
      failed := RecordLines(o.lines, inventory);
      o := o.(status := PurchaseOrderStatus.RECEIVED);
      store.orders := SaveBy(store.orders, o, OrderId);
      r := Ok(o);
    }

    method CancelOrder(id: string) returns (r: Result<PurchaseOrder, string>)
      modifies store`orders
      ensures r == OrderTransition(old(store.orders), id, Cancel)
      ensures store.orders == if r.Ok? then SaveBy(old(store.orders), r.value, OrderId) else old(store.orders)
    {
      r := Apply(id, Cancel);
    }

    /** Load, check the status, set the new one and save. */
    method Apply(id: string, a: OrderAction) returns (r: Result<PurchaseOrder, string>)
      modifies store`orders
      ensures r == OrderTransition(old(store.orders), id, a)
      ensures store.orders == if r.Ok? then SaveBy(old(store.orders), r.value, OrderId) else old(store.orders)
    {
      var k := FindBy(store.orders, id, OrderId);
      if k == |store.orders| {
        return Err("Order not found");
      }
      var o := LoadOrder(store.orders[k]);
      if !Allowed(a, o.status) {
        return Err(Refusal(a));
      }
      o := o.(status := Target(a));
      store.orders := SaveBy(store.orders, o, OrderId);
      r := Ok(o);
    }
  }

  // ---------------------------------------------------------------- invoices

  /**
   * `create_invoice` once the date is settled: a DRAFT, unpaid invoice with
   * the next invoice number, due on the given date or 30 days after the
   * invoice date; that addition fails past the last representable date.
   */
  function NewInvoice(invoices: seq<PurchaseInvoice>, newId: string, partnerId: string, lines: seq<PurchaseLine>,
                      date: Date, supplierReference: string, dueDate: Option<Date>, notes: string,
                      stamp: string): (r: Result<PurchaseInvoice, string>)
    requires Valid(date)
    ensures r.Err? <==> dueDate.None? && AddDays(date, 30).None?
    ensures r.Err? ==> r.error == "date value out of range"
    ensures r.Ok? ==> r.value.dueDate == Some(if dueDate.Some? then dueDate.value else AddDays(date, 30).value)
    ensures r.Ok? ==> r.value == PurchaseInvoice(newId, partnerId, date, lines,
      NextInvoiceNumber(InvoiceNumbers(invoices), stamp), supplierReference, r.value.dueDate, None,
      PurchaseInvoiceStatus.DRAFT, PaymentStatus.PENDING, 0.0, None, notes)
  {
    var due := if dueDate.Some? then Ok(dueDate.value) else SalesServices.ShiftDate(date, 30);
    if due.Err? then Err(due.error)
    else
      Ok(PurchaseInvoice(newId, partnerId, date, lines, NextInvoiceNumber(InvoiceNumbers(invoices), stamp),
                         supplierReference, Some(due.value), None, PurchaseInvoiceStatus.DRAFT,
                         PaymentStatus.PENDING, 0.0, None, notes))
  }

  /** A new invoice owes its whole total, is due after its date when no due date is given, and has a new number. */
  lemma NewInvoiceProperties(invoices: seq<PurchaseInvoice>, newId: string, partnerId: string,
                             lines: seq<PurchaseLine>, date: Date, supplierReference: string,
                             notes: string, stamp: string)
    requires Valid(date)
    requires NewInvoice(invoices, newId, partnerId, lines, date, supplierReference, None, notes, stamp).Ok?
    requires invoices == [] || exists v :: v in invoices && LastTail(v.invoiceNumber).Some?
    ensures var v := NewInvoice(invoices, newId, partnerId, lines, date, supplierReference, None, notes, stamp).value;
      && AmountDue(v) == TotalAmount(lines)
      && Before(date, v.dueDate.value)
      && forall j :: 0 <= j < |invoices| ==> invoices[j].invoiceNumber != v.invoiceNumber
  {
    var ns := InvoiceNumbers(invoices);
    if invoices != [] {
      var v :| v in invoices && LastTail(v.invoiceNumber).Some?;
      var j :| 0 <= j < |invoices| && invoices[j] == v;
      assert ns[j] in ns;
    }
    InvoiceNumberFresh(ns, stamp);
    forall j | 0 <= j < |invoices| ensures invoices[j].invoiceNumber in ns {
      assert ns[j] == invoices[j].invoiceNumber;
    }
  }

  /**
   * `create_from_order`: an unknown order and an order that is not RECEIVED
   * are refused; otherwise the invoice is created from the order's lines,
   * dated today, with reference "PO-<order number>", and linked to the order.
   */
  function FromOrder(invoices: seq<PurchaseInvoice>, orders: seq<PurchaseOrder>, newId: string, orderId: string,
                     today: Date, stamp: string): (r: Result<PurchaseInvoice, string>)
    requires Valid(today)
    ensures var k := FindBy(orders, orderId, OrderId);
      r.Ok? <==> k < |orders| && orders[k].status == PurchaseOrderStatus.RECEIVED && AddDays(today, 30).Some?
    ensures FindBy(orders, orderId, OrderId) == |orders| ==> r == Err("Order not found")
    ensures var k := FindBy(orders, orderId, OrderId);
      k < |orders| && orders[k].status != PurchaseOrderStatus.RECEIVED ==> r == Err("Order must be received first")
  {
    var k := FindBy(orders, orderId, OrderId);
    if k == |orders| then Err("Order not found")
    else
      var o := LoadOrder(orders[k]);
      if o.status != PurchaseOrderStatus.RECEIVED then Err("Order must be received first")
      else
        match NewInvoice(invoices, newId, o.partnerId, o.lines, today, "PO-" + o.orderNumber, None,
                         "Generated from " + o.orderNumber, stamp)
        case Err(e) => Err(e)
        case Ok(v) => Ok(v.(purchaseOrderId := Some(o.id)))
  }

  /** The order after `create_from_order`: loaded and INVOICED. */
  function InvoicedOrder(orders: seq<PurchaseOrder>, orderId: string): PurchaseOrder
    requires FindBy(orders, orderId, OrderId) < |orders|
  {
    LoadOrder(orders[FindBy(orders, orderId, OrderId)]).(status := PurchaseOrderStatus.INVOICED)
  }

  /** The invoice made from an order bills the order: same supplier, same lines in line order, same total, linked back. */
  lemma FromOrderBillsOrder(invoices: seq<PurchaseInvoice>, orders: seq<PurchaseOrder>, newId: string,
                            orderId: string, today: Date, stamp: string)
    requires Valid(today) && FromOrder(invoices, orders, newId, orderId, today, stamp).Ok?
    ensures var v := FromOrder(invoices, orders, newId, orderId, today, stamp).value;
      var o := orders[FindBy(orders, orderId, OrderId)];
      && v.purchaseOrderId == Some(orderId) && v.partnerId == o.partnerId
      && v.lines == SortLines(o.lines) && TotalAmount(v.lines) == TotalAmount(o.lines)
      && v.supplierReference == "PO-" + o.orderNumber && v.invoiceDate == today
      && v.status == PurchaseInvoiceStatus.DRAFT && v.amountPaid == 0.0
  {
  }

  /** The account codes the mapping service would give: purchases (600), input VAT (472), suppliers (400). */
  datatype PurchaseAccounts = PurchaseAccounts(expense: string, inputVat: string, payable: string)

  /** `supplier_reference or invoice_number`. */
  function Reference(v: PurchaseInvoice): string
  {
    if v.supplierReference != "" then v.supplierReference else v.invoiceNumber
  }

  /** Python's `int()` of a number: truncation toward zero. */
  function TruncateToInt(x: real): (r: int)
    ensures x >= 0.0 ==> r as real <= x < r as real + 1.0
    ensures x < 0.0 ==> r as real - 1.0 < x <= r as real
  {
    if x >= 0.0 then x.Floor else -((-x).Floor)
  }

  /** The rate shown on the VAT line: the first line's, or 21 for no lines. */
  function VatLabel(lines: seq<PurchaseLine>): string
  {
    "IVA Suportat (" + IntToString(if lines != [] then TruncateToInt(lines[0].taxRate) else 21) + "%)"
  }

  function PostDescription(v: PurchaseInvoice, supplier: Partners.Partner): string
  {
    "Factura Compra " + Reference(v) + " - " + supplier.name
  }

  /** The three journal lines of `post_invoice`: debit the subtotal and the tax, credit the total. */
  function PostingLines(v: PurchaseInvoice, supplier: Partners.Partner, codes: PurchaseAccounts): seq<AE.JournalLine>
  {
    [ AE.JournalLine(codes.expense, Subtotal(v.lines), 0.0, PostDescription(v, supplier)),
      AE.JournalLine(codes.inputVat, TaxAmount(v.lines), 0.0, VatLabel(v.lines)),
      AE.JournalLine(codes.payable, 0.0, TotalAmount(v.lines), "Proveïdor: " + supplier.name) ]
  }

  lemma ThreeLineTotals(a: AE.JournalLine, b: AE.JournalLine, c: AE.JournalLine)
    ensures AE.TotalDebit([a, b, c]) == a.debit + b.debit + c.debit
    ensures AE.TotalCredit([a, b, c]) == a.credit + b.credit + c.credit
  {
    TwoLineTotals(a, b);
    assert [a, b, c][..2] == [a, b];
  }

  lemma TwoLineTotals(a: AE.JournalLine, b: AE.JournalLine)
    ensures AE.TotalDebit([a, b]) == a.debit + b.debit
    ensures AE.TotalCredit([a, b]) == a.credit + b.credit
  {
    assert [a][..0] == [];
    assert AE.TotalDebit([a]) == a.debit && AE.TotalCredit([a]) == a.credit;
    assert [a, b][..1] == [a];
  }

  /** The purchase posting always balances: subtotal plus tax is the total. */
  lemma PostingBalanced(v: PurchaseInvoice, supplier: Partners.Partner, codes: PurchaseAccounts)
    ensures var p := PostingLines(v, supplier, codes);
      && AE.TotalDebit(p) == TotalAmount(v.lines) && AE.TotalCredit(p) == TotalAmount(v.lines)
      && AE.IsBalanced(p)
  {
    var p := PostingLines(v, supplier, codes);
    ThreeLineTotals(p[0], p[1], p[2]);
  }

  const NoPurchaseAccount := "'AccountMappingService' object has no attribute 'get_purchase_account'"
  const NoPayableAccount := "'AccountMappingService' object has no attribute 'get_accounts_payable_account'"

  /** The checks of `post_invoice` before any journal work: the invoice, its status, its supplier. */
  function PostChecks(invoices: seq<PurchaseInvoice>, partners: seq<Partners.Partner>, id: string)
    : (r: Result<(PurchaseInvoice, Partners.Partner), string>)
    ensures var k := FindBy(invoices, id, InvoiceId);
      r.Ok? <==> k < |invoices| && invoices[k].status == PurchaseInvoiceStatus.DRAFT
                 && Partners.FindById(partners, invoices[k].partnerId).Some?
    ensures var k := FindBy(invoices, id, InvoiceId);
      r.Ok? ==> r.value.0 == LoadInvoice(invoices[k]) && r.value.1 == Partners.FindById(partners, invoices[k].partnerId).value
    ensures FindBy(invoices, id, InvoiceId) == |invoices| ==> r == Err("Invoice not found")
    ensures var k := FindBy(invoices, id, InvoiceId);
      k < |invoices| && invoices[k].status != PurchaseInvoiceStatus.DRAFT ==> r == Err("Only draft invoices can be posted")
    ensures var k := FindBy(invoices, id, InvoiceId);
      (k < |invoices| && invoices[k].status == PurchaseInvoiceStatus.DRAFT
       && Partners.FindById(partners, invoices[k].partnerId).None?) ==> r == Err("Supplier not found")
  {
    var k := FindBy(invoices, id, InvoiceId);
    if k == |invoices| then Err("Invoice not found")
    else
      var v := LoadInvoice(invoices[k]);
      if v.status != PurchaseInvoiceStatus.DRAFT then Err("Only draft invoices can be posted")
      else
        match Partners.FindById(partners, v.partnerId)
        case None => Err("Supplier not found")
        case Some(p) => Ok((v, p))
  }

  /** The journal entry `post_invoice` creates. */
  function PostingEntry(v: PurchaseInvoice, supplier: Partners.Partner, codes: PurchaseAccounts,
                        entryId: string, entryNumber: int, accounts: seq<AccountingServices.LedgerAccount>)
    : Result<AE.EntryRecord, string>
  {
    AccountingServices.NewEntry(accounts, entryId, entryNumber, v.invoiceDate, PostDescription(v, supplier),
                                PostingLines(v, supplier, codes))
  }

  /**
   * `post_invoice`, corrected: after the checks, the entry is created, and
   * the invoice becomes POSTED with the entry's id; an entry the journal
   * refuses refuses the posting.
   */
  function PostOutcome(invoices: seq<PurchaseInvoice>, partners: seq<Partners.Partner>,
                       accounts: seq<AccountingServices.LedgerAccount>, id: string, codes: PurchaseAccounts,
                       entryId: string, entryNumber: int): (r: Result<PurchaseInvoice, string>)
  {
    match PostChecks(invoices, partners, id)
    case Err(e) => Err(e)
    case Ok((v, p)) =>
      match PostingEntry(v, p, codes, entryId, entryNumber, accounts)
      case Err(e) => Err(e)
      case Ok(_) => Ok(v.(journalEntryId := Some(entryId), status := PurchaseInvoiceStatus.POSTED))
  }

  /**
   * A checked draft invoice posts exactly when its subtotal and its tax are
   * both positive (given known, non-empty account codes): the VAT line of an
   * invoice without tax is a line with neither debit nor credit, which the
   * journal refuses.
   */
  lemma PostableIff(invoices: seq<PurchaseInvoice>, partners: seq<Partners.Partner>,
                    accounts: seq<AccountingServices.LedgerAccount>, id: string, codes: PurchaseAccounts,
                    entryId: string, entryNumber: int)
    requires PostChecks(invoices, partners, id).Ok?
    requires codes.expense != "" && codes.inputVat != "" && codes.payable != ""
    requires AccountingServices.AccountKnown(accounts, codes.expense)
    requires AccountingServices.AccountKnown(accounts, codes.inputVat)
    requires AccountingServices.AccountKnown(accounts, codes.payable)
    ensures var v := invoices[FindBy(invoices, id, InvoiceId)];
      PostOutcome(invoices, partners, accounts, id, codes, entryId, entryNumber).Ok? <==>
      Subtotal(v.lines) > 0.0 && TaxAmount(v.lines) > 0.0
  {
    var (v, p) := PostChecks(invoices, partners, id).value;
    PostOutcomeFollowsEntry(invoices, partners, accounts, id, codes, entryId, entryNumber);
    PostingEntryOkIff(v, p, codes, entryId, entryNumber, accounts);
  }

  /** Past the checks, the posting succeeds exactly when the journal accepts its entry. */
  lemma PostOutcomeFollowsEntry(invoices: seq<PurchaseInvoice>, partners: seq<Partners.Partner>,
                                accounts: seq<AccountingServices.LedgerAccount>, id: string, codes: PurchaseAccounts,
                                entryId: string, entryNumber: int)
    requires PostChecks(invoices, partners, id).Ok?
    ensures var (v, p) := PostChecks(invoices, partners, id).value;
      PostOutcome(invoices, partners, accounts, id, codes, entryId, entryNumber).Ok? <==>
      PostingEntry(v, p, codes, entryId, entryNumber, accounts).Ok?
  {
  }

  /** With known, non-empty account codes, the journal accepts the posting entry exactly when subtotal and tax are positive. */
  lemma PostingEntryOkIff(v: PurchaseInvoice, p: Partners.Partner, codes: PurchaseAccounts, entryId: string,
                          entryNumber: int, accounts: seq<AccountingServices.LedgerAccount>)
    requires codes.expense != "" && codes.inputVat != "" && codes.payable != ""
    requires AccountingServices.AccountKnown(accounts, codes.expense)
    requires AccountingServices.AccountKnown(accounts, codes.inputVat)
    requires AccountingServices.AccountKnown(accounts, codes.payable)
    ensures PostingEntry(v, p, codes, entryId, entryNumber, accounts).Ok? <==>
      Subtotal(v.lines) > 0.0 && TaxAmount(v.lines) > 0.0
  {
    var lines := PostingLines(v, p, codes);
    PostingBalanced(v, p, codes);
    DescriptionNotBlank(v, p);
    PostingLinesValid(v, p, codes);
    assert |lines| == 3;
    assert forall j :: 0 <= j < |lines| ==> AccountingServices.AccountKnown(accounts, lines[j].accountCode) by {
      assert lines[0].accountCode == codes.expense && lines[1].accountCode == codes.inputVat;
      assert lines[2].accountCode == codes.payable;
    }
  }

  lemma DescriptionNotBlank(v: PurchaseInvoice, supplier: Partners.Partner)
    ensures !Blank(PostDescription(v, supplier))
  {
    var d := PostDescription(v, supplier);
    assert d[0] == 'F';
    NotBlankLeading(d);
  }

  /** The three posting lines are valid exactly when the subtotal and the tax are positive. */
  lemma PostingLinesValid(v: PurchaseInvoice, supplier: Partners.Partner, codes: PurchaseAccounts)
    requires codes.expense != "" && codes.inputVat != "" && codes.payable != ""
    ensures AE.AllLinesValid(PostingLines(v, supplier, codes)) <==> Subtotal(v.lines) > 0.0 && TaxAmount(v.lines) > 0.0
  {
    var lines := PostingLines(v, supplier, codes);
    assert AE.AllLinesValid(lines) <==> AE.LineValid(lines[0]) && AE.LineValid(lines[1]) && AE.LineValid(lines[2]);
  }

  /** A posting changes only the status and the entry link; it keeps the lines (in line order) and the amounts. */
  lemma PostKeepsInvoice(invoices: seq<PurchaseInvoice>, partners: seq<Partners.Partner>,
                         accounts: seq<AccountingServices.LedgerAccount>, id: string, codes: PurchaseAccounts,
                         entryId: string, entryNumber: int)
    requires PostOutcome(invoices, partners, accounts, id, codes, entryId, entryNumber).Ok?
    ensures var v := invoices[FindBy(invoices, id, InvoiceId)];
      var w := PostOutcome(invoices, partners, accounts, id, codes, entryId, entryNumber).value;
      && v.status == PurchaseInvoiceStatus.DRAFT
      && w == v.(lines := SortLines(v.lines), status := PurchaseInvoiceStatus.POSTED, journalEntryId := Some(entryId))
      && TotalAmount(w.lines) == TotalAmount(v.lines)
  {
  }

  /**
   * `post_invoice` as written: after its three checks it asks the mapping
   * service for `get_purchase_account`, a method that service does not
   * have, so every call that gets that far raises and nothing is stored.
   */
  function PostAsWritten(invoices: seq<PurchaseInvoice>, partners: seq<Partners.Partner>, id: string)
    : (r: Result<PurchaseInvoice, string>)
    ensures r.Err?
    ensures PostChecks(invoices, partners, id).Err? ==> r.error == PostChecks(invoices, partners, id).error
  {
    match PostChecks(invoices, partners, id)
    case Err(e) => Err(e)
    case Ok(_) => Err(NoPurchaseAccount)
  }

  /** No purchase invoice can be posted as written. */
  lemma PostingNeverSucceeds(invoices: seq<PurchaseInvoice>, partners: seq<Partners.Partner>, id: string)
    ensures PostAsWritten(invoices, partners, id).Err?
    ensures PostChecks(invoices, partners, id).Ok? ==> PostAsWritten(invoices, partners, id) == Err(NoPurchaseAccount)
  {
  }

  // ---------------------------------------------------------------- payments

  /** The two journal lines of `mark_paid`: debit the supplier, credit the bank, both by the amount. */
  function PaymentLines(v: PurchaseInvoice, supplier: Option<Partners.Partner>, amount: real,
                        payable: string, bank: string): seq<AE.JournalLine>
  {
    [ AE.JournalLine(payable, amount, 0.0, "Pagament a " + (if supplier.Some? then supplier.value.name else "Proveïdor")),
      AE.JournalLine(bank, 0.0, amount, "Pagament " + Reference(v)) ]
  }

  /** A payment adds the amount to what was paid; the invoice is PAID once that covers the total, PARTIAL otherwise. */
  function Paid(v: PurchaseInvoice, amount: real): (w: PurchaseInvoice)
    ensures w.amountPaid == v.amountPaid + amount
    ensures w.paymentStatus == PaymentStatus.PAID <==> w.amountPaid >= TotalAmount(v.lines)
    ensures w.paymentStatus != PaymentStatus.PAID ==> w.paymentStatus == PaymentStatus.PARTIAL && w.status == v.status
    ensures w.paymentStatus == PaymentStatus.PAID ==> w.status == PurchaseInvoiceStatus.PAID
    ensures w == v.(amountPaid := w.amountPaid, paymentStatus := w.paymentStatus, status := w.status)
  {
    var paid := v.amountPaid + amount;
    if paid >= TotalAmount(v.lines) then
      v.(amountPaid := paid, paymentStatus := PaymentStatus.PAID, status := PurchaseInvoiceStatus.PAID)
    else
      v.(amountPaid := paid, paymentStatus := PaymentStatus.PARTIAL)
  }

  /** A payment lowers what is due by its amount, and the invoice is PAID exactly when nothing is left due. */
  lemma AmountDueAfterPayment(v: PurchaseInvoice, amount: real)
    ensures AmountDue(Paid(v, amount)) == AmountDue(v) - amount
    ensures Paid(v, amount).paymentStatus == PaymentStatus.PAID <==> AmountDue(Paid(v, amount)) <= 0.0
  {
    var w := Paid(v, amount);
    assert w.lines == v.lines;
  }

  /** The checks of `mark_paid`: the invoice exists and is POSTED. */
  function PaymentChecks(invoices: seq<PurchaseInvoice>, id: string): (r: Result<PurchaseInvoice, string>)
    ensures var k := FindBy(invoices, id, InvoiceId);
      r.Ok? <==> k < |invoices| && invoices[k].status == PurchaseInvoiceStatus.POSTED
    ensures r.Ok? ==> r.value == LoadInvoice(invoices[FindBy(invoices, id, InvoiceId)])
    ensures FindBy(invoices, id, InvoiceId) == |invoices| ==> r == Err("Invoice not found")
    ensures var k := FindBy(invoices, id, InvoiceId);
      k < |invoices| && invoices[k].status != PurchaseInvoiceStatus.POSTED ==>
      r == Err("Only posted invoices can be marked as paid")
  {
    var k := FindBy(invoices, id, InvoiceId);
    if k == |invoices| then Err("Invoice not found")
    else
      var v := LoadInvoice(invoices[k]);
      if v.status != PurchaseInvoiceStatus.POSTED then Err("Only posted invoices can be marked as paid") else Ok(v)
  }

  /** The payment entry `mark_paid` creates. */
  function PaymentEntry(v: PurchaseInvoice, partners: seq<Partners.Partner>, accounts: seq<AccountingServices.LedgerAccount>,
                        paymentDate: Date, amount: real, payable: string, bank: string,
                        entryId: string, entryNumber: int): Result<AE.EntryRecord, string>
  {
    AccountingServices.NewEntry(accounts, entryId, entryNumber, paymentDate, "Pagament " + Reference(v),
                                PaymentLines(v, Partners.FindById(partners, v.partnerId), amount, payable, bank))
  }

  /** `mark_paid`, corrected: the checks, the payment entry, then the payment itself. */
  function PayOutcome(invoices: seq<PurchaseInvoice>, partners: seq<Partners.Partner>,
                      accounts: seq<AccountingServices.LedgerAccount>, id: string, paymentDate: Date, amount: real,
                      payable: string, bank: string, entryId: string, entryNumber: int): (r: Result<PurchaseInvoice, string>)
  {
    match PaymentChecks(invoices, id)
    case Err(e) => Err(e)
    case Ok(v) =>
      match PaymentEntry(v, partners, accounts, paymentDate, amount, payable, bank, entryId, entryNumber)
      case Err(e) => Err(e)
      case Ok(_) => Ok(Paid(v, amount))
  }

  /**
   * A payment is taken only on a POSTED invoice, adds exactly its amount,
   * and makes the invoice PAID exactly when the cumulative payments reach
   * the total; otherwise the invoice stays POSTED and is PARTIAL.
   */
  lemma PaymentAccumulates(invoices: seq<PurchaseInvoice>, partners: seq<Partners.Partner>,
                           accounts: seq<AccountingServices.LedgerAccount>, id: string, paymentDate: Date,
                           amount: real, payable: string, bank: string, entryId: string, entryNumber: int)
    requires PayOutcome(invoices, partners, accounts, id, paymentDate, amount, payable, bank, entryId, entryNumber).Ok?
    ensures var v := invoices[FindBy(invoices, id, InvoiceId)];
      var w := PayOutcome(invoices, partners, accounts, id, paymentDate, amount, payable, bank, entryId, entryNumber).value;
      && v.status == PurchaseInvoiceStatus.POSTED
      && w.amountPaid == v.amountPaid + amount
      && (w.status == PurchaseInvoiceStatus.PAID <==> w.amountPaid >= TotalAmount(v.lines))
      && (w.paymentStatus == PaymentStatus.PAID <==> w.amountPaid >= TotalAmount(v.lines))
      && (w.amountPaid < TotalAmount(v.lines) ==>
            w.status == PurchaseInvoiceStatus.POSTED && w.paymentStatus == PaymentStatus.PARTIAL)
  {
  }

  /** A payment of nothing, or a negative one, is refused: its journal lines are not valid. */
  lemma NonPositivePaymentRefused(invoices: seq<PurchaseInvoice>, partners: seq<Partners.Partner>,
                                  accounts: seq<AccountingServices.LedgerAccount>, id: string, paymentDate: Date,
                                  amount: real, payable: string, bank: string, entryId: string, entryNumber: int)
    requires amount <= 0.0
    ensures PayOutcome(invoices, partners, accounts, id, paymentDate, amount, payable, bank, entryId, entryNumber).Err?
  {
    match PaymentChecks(invoices, id)
    case Err(_) =>
    case Ok(v) =>
      var lines := PaymentLines(v, Partners.FindById(partners, v.partnerId), amount, payable, bank);
      assert !AE.LineValid(lines[0]);
      assert !AE.AllLinesValid(lines);
  }

  /** Once a payment makes an invoice PAID, a further payment is refused. */
  lemma PaidInvoiceTakesNoPayment(invoices: seq<PurchaseInvoice>, w: PurchaseInvoice, partners: seq<Partners.Partner>,
                                  accounts: seq<AccountingServices.LedgerAccount>, paymentDate: Date,
                                  amount: real, payable: string, bank: string, entryId: string, entryNumber: int)
    requires w.status == PurchaseInvoiceStatus.PAID
    ensures PayOutcome(SaveBy(invoices, w, InvoiceId), partners, accounts, w.id, paymentDate, amount, payable, bank,
                       entryId, entryNumber) == Err("Only posted invoices can be marked as paid")
  {
    SavedIsFound(invoices, w, InvoiceId);
  }

  /** The payment entry moves the amount from the supplier to the bank and balances. */
  lemma PaymentBalanced(v: PurchaseInvoice, supplier: Option<Partners.Partner>, amount: real, payable: string, bank: string)
    ensures var p := PaymentLines(v, supplier, amount, payable, bank);
      AE.TotalDebit(p) == amount && AE.TotalCredit(p) == amount && AE.IsBalanced(p)
  {
    var p := PaymentLines(v, supplier, amount, payable, bank);
    TwoLineTotals(p[0], p[1]);
  }

  /** `mark_paid` as written: once the invoice passes its checks, the missing `get_accounts_payable_account` raises. */
  function PayAsWritten(invoices: seq<PurchaseInvoice>, id: string): (r: Result<PurchaseInvoice, string>)
    ensures r.Err?
    ensures PaymentChecks(invoices, id).Err? ==> r.error == PaymentChecks(invoices, id).error
  {
    match PaymentChecks(invoices, id)
    case Err(e) => Err(e)
    case Ok(_) => Err(NoPayableAccount)
  }

  /** No purchase invoice can be marked as paid as written. */
  lemma PaymentNeverSucceeds(invoices: seq<PurchaseInvoice>, id: string)
    ensures PayAsWritten(invoices, id).Err?
    ensures PaymentChecks(invoices, id).Ok? ==> PayAsWritten(invoices, id) == Err(NoPayableAccount)
  {
  }

  // ---------------------------------------------------------------- the invoice service

  class PurchaseInvoiceService {
    var invoices: seq<PurchaseInvoice>
    const orderStore: OrderStore
    const partners: seq<Partners.Partner>
    const accounting: AccountingServices.AccountingService

    constructor (invoices: seq<PurchaseInvoice>, orderStore: OrderStore, partners: seq<Partners.Partner>,
                 accounting: AccountingServices.AccountingService)
      ensures this.invoices == invoices && this.orderStore == orderStore
      ensures this.partners == partners && this.accounting == accounting
    {
      this.invoices := invoices;
      this.orderStore := orderStore;
      this.partners := partners;
      this.accounting := accounting;
    }

    /** `create_invoice`: dated today unless a date is given. */
    method CreateInvoice(newId: string, partnerId: string, lines: seq<PurchaseLine>, invoiceDate: Option<Date>,
                         today: Date, supplierReference: string, dueDate: Option<Date>, notes: string,
                         stamp: string) returns (r: Result<PurchaseInvoice, string>)
      requires Valid(today) && (invoiceDate.Some? ==> Valid(invoiceDate.value))
      modifies this`invoices
      ensures r == NewInvoice(old(invoices), newId, partnerId, lines,
                              if invoiceDate.Some? then invoiceDate.value else today,
                              supplierReference, dueDate, notes, stamp)
      ensures invoices == if r.Ok? then SaveBy(old(invoices), r.value, InvoiceId) else old(invoices)
    {
      var date := if invoiceDate.Some? then invoiceDate.value else today;
      var due: Date;
      if dueDate.Some? {
        due := dueDate.value;
      } else {
        var shifted := SalesServices.ShiftDate(date, 30);
        if shifted.Err? {
          return Err(shifted.error);
        }
        due := shifted.value;
      }
      var number := NextInvoiceNumber(InvoiceNumbers(invoices), stamp);
      var v := PurchaseInvoice(newId, partnerId, date, lines, number, supplierReference, Some(due), None,
                               PurchaseInvoiceStatus.DRAFT, PaymentStatus.PENDING, 0.0, None, notes);
      invoices := SaveBy(invoices, v, InvoiceId);
      r := Ok(v);
    }

    /**
     * `create_from_order`: the invoice is stored twice, before and after it
     * is linked to the order, so the second record replaces the first; the
     * order is stored as INVOICED.
     */
    method CreateFromOrder(newId: string, orderId: string, today: Date, stamp: string)
      returns (r: Result<PurchaseInvoice, string>)
      requires Valid(today)
      modifies this`invoices, orderStore`orders
      ensures r == FromOrder(old(invoices), old(orderStore.orders), newId, orderId, today, stamp)
      ensures invoices == if r.Ok? then SaveBy(old(invoices), r.value, InvoiceId) else old(invoices)
      ensures orderStore.orders ==
        if r.Ok? then SaveBy(old(orderStore.orders), InvoicedOrder(old(orderStore.orders), orderId), OrderId)
        else old(orderStore.orders)
    {
      var k := FindBy(orderStore.orders, orderId, OrderId);
      if k == |orderStore.orders| {
        return Err("Order not found");
      }
      var o := LoadOrder(orderStore.orders[k]);
      if o.status != PurchaseOrderStatus.RECEIVED {
        return Err("Order must be received first");
      }
      var created := CreateInvoice(newId, o.partnerId, o.lines, Some(today), today, "PO-" + o.orderNumber, None,
                                   "Generated from " + o.orderNumber, stamp);
      if created.Err? {
        return Err(created.error);
      }
      var v := created.value.(purchaseOrderId := Some(o.id));
      orderStore.orders := SaveBy(orderStore.orders, o.(status := PurchaseOrderStatus.INVOICED), OrderId);
      SaveTwice(old(invoices), created.value, v, InvoiceId);
      invoices := SaveBy(invoices, v, InvoiceId);
      r := Ok(v);
    }

    /** `post_invoice` as written: it stops at the missing mapping method and changes nothing. */
    method PostInvoiceAsWritten(id: string) returns (r: Result<PurchaseInvoice, string>)
      ensures r == PostAsWritten(invoices, partners, id)
      ensures r.Err?
    {
      var checked := PostChecks(invoices, partners, id);
      if checked.Err? {
        return Err(checked.error);
      }
      r := Err(NoPurchaseAccount);
    }

    /**
     * `post_invoice` with the accounts given and the journal entry created
     * with its date and lines as the accounting service expects them; the
     * inventory is updated only for an invoice not made from an order.
     */
    method PostInvoice(id: string, codes: PurchaseAccounts, entryId: string,
                       inventory: Option<PurchaseLine -> bool>)
      returns (r: Result<PurchaseInvoice, string>, failed: seq<PurchaseLine>)
      modifies this`invoices, accounting`journal
      ensures r == PostOutcome(old(invoices), partners, accounting.accounts, id, codes, entryId,
                               AccountingServices.NextEntryNumber(old(accounting.journal)))
      ensures invoices == if r.Ok? then SaveBy(old(invoices), r.value, InvoiceId) else old(invoices)
      ensures r.Ok? ==>
        var (v, p) := PostChecks(old(invoices), partners, id).value;
        accounting.journal == old(accounting.journal) + [PostingEntry(v, p, codes, entryId,
          AccountingServices.NextEntryNumber(old(accounting.journal)), accounting.accounts).value]
      ensures r.Err? ==> accounting.journal == old(accounting.journal)
      ensures failed == if r.Ok? && r.value.purchaseOrderId.None? && inventory.Some?
                        then FailedLines(r.value.lines, inventory.value) else []
    {
      failed := [];
      var checked := PostChecks(invoices, partners, id);
      if checked.Err? {
        return Err(checked.error), [];
      }
      var (v, p) := checked.value;
      var created := accounting.CreateJournalEntry(entryId, v.invoiceDate, PostDescription(v, p),
                                                   PostingLines(v, p, codes));
      if created.Err? {
        return Err(created.error), [];
      }
      v := v.(journalEntryId := Some(entryId), status := PurchaseInvoiceStatus.POSTED);
      if v.purchaseOrderId.None? {
        failed := RecordLines(v.lines, inventory);
      }
      invoices := SaveBy(invoices, v, InvoiceId);
      r := Ok(v);
    }

    /** `mark_paid` as written: it stops at the missing mapping method and changes nothing. */
    method MarkPaidAsWritten(id: string) returns (r: Result<PurchaseInvoice, string>)
      ensures r == PayAsWritten(invoices, id)
      ensures r.Err?
    {
      var checked := PaymentChecks(invoices, id);
      if checked.Err? {
        return Err(checked.error);
      }
      r := Err(NoPayableAccount);
    }

    /** `mark_paid` with the supplier account given; `bank` is "572" unless the caller says otherwise. */
    method MarkPaid(id: string, paymentDate: Date, amount: real, payable: string, bank: string,
                    entryId: string) returns (r: Result<PurchaseInvoice, string>)
      modifies this`invoices, accounting`journal
      ensures r == PayOutcome(old(invoices), partners, accounting.accounts, id, paymentDate, amount, payable, bank,
                              entryId, AccountingServices.NextEntryNumber(old(accounting.journal)))
      ensures invoices == if r.Ok? then SaveBy(old(invoices), r.value, InvoiceId) else old(invoices)
      ensures r.Ok? ==>
        accounting.journal == old(accounting.journal) + [PaymentEntry(PaymentChecks(old(invoices), id).value, partners,
          accounting.accounts, paymentDate, amount, payable, bank, entryId,
          AccountingServices.NextEntryNumber(old(accounting.journal))).value]
      ensures r.Err? ==> accounting.journal == old(accounting.journal)
    {
      var checked := PaymentChecks(invoices, id);
      if checked.Err? {
        return Err(checked.error);
      }
      var v := checked.value;
      var supplier := Partners.FindById(partners, v.partnerId);
      var created := accounting.CreateJournalEntry(entryId, paymentDate, "Pagament " + Reference(v),
                                                   PaymentLines(v, supplier, amount, payable, bank));
      if created.Err? {
        return Err(created.error);
      }
      v := Paid(v, amount);
      invoices := SaveBy(invoices, v, InvoiceId);
      r := Ok(v);
    }
  }
}
