/**
 * Purchase orders and supplier invoices: their statuses, their lines, and
 * the amounts computed from the lines. Order lines and invoice lines have
 * the same fields and the same formulas, so one line type serves both; the
 * line uuids are left out. Decimal amounts are reals, computed without
 * rounding.
 */
module PurchasesEntities {
  import opened Wrappers
  import opened Dates

  datatype PurchaseOrderStatus = DRAFT | CONFIRMED | RECEIVED | INVOICED | CANCELLED

  datatype PurchaseInvoiceStatus = DRAFT | POSTED | PAID | CANCELLED

  datatype PaymentStatus = PENDING | PARTIAL | PAID

  /** A line of an order or an invoice; the tax rate is a percentage (21 by default). */
  datatype PurchaseLine = PurchaseLine(
    description: string,
    quantity: real,
    unitPrice: real,
    taxRate: real,
    productId: Option<string>,
    lineNumber: int)

  datatype PurchaseOrder = PurchaseOrder(
    id: string,
    partnerId: string,
    orderDate: Date,
    lines: seq<PurchaseLine>,
    orderNumber: string,
    status: PurchaseOrderStatus,
    notes: string)

  datatype PurchaseInvoice = PurchaseInvoice(
    id: string,
    partnerId: string,
    invoiceDate: Date,
    lines: seq<PurchaseLine>,
    invoiceNumber: string,
    supplierReference: string,
    dueDate: Option<Date>,
    purchaseOrderId: Option<string>,
    status: PurchaseInvoiceStatus,
    paymentStatus: PaymentStatus,
    amountPaid: real,
    journalEntryId: Option<string>,
    notes: string)

  /** `quantity * unit_price`, the line amount before tax. */
  function LineSubtotal(l: PurchaseLine): real
  {
    l.quantity * l.unitPrice
  }

  /** The line's `tax_amount`. */
  function LineTax(l: PurchaseLine): real
  {
    LineSubtotal(l) * (l.taxRate / 100.0)
  }

  /** The line's `total`. */
  function LineTotal(l: PurchaseLine): real
  {
    LineSubtotal(l) + LineTax(l)
  }

  /** A line at rate 0 costs exactly quantity times price. */
  lemma ZeroRateLine(l: PurchaseLine)
    requires l.taxRate == 0.0
    ensures LineTax(l) == 0.0 && LineTotal(l) == l.quantity * l.unitPrice
  {
  }

  /** `sum(f(line) for line in lines)`, 0 for no lines. */
  function SumOf(lines: seq<PurchaseLine>, f: PurchaseLine -> real): real
  {
    if lines == [] then 0.0 else f(lines[0]) + SumOf(lines[1..], f)
  }

  /** The document's `subtotal`. */
  function Subtotal(lines: seq<PurchaseLine>): real
  {
    SumOf(lines, LineSubtotal)
  }

  /** The document's `tax_amount`. */
  function TaxAmount(lines: seq<PurchaseLine>): real
  {
    SumOf(lines, LineTax)
  }

  /** The document's `total_amount`: subtotal plus tax. */
  function TotalAmount(lines: seq<PurchaseLine>): real
  {
    Subtotal(lines) + TaxAmount(lines)
  }

  /** The total of a document is also the sum of its line totals. */
  lemma {:induction false} TotalIsSumOfLineTotals(lines: seq<PurchaseLine>)
    ensures TotalAmount(lines) == SumOf(lines, LineTotal)
  {
    if lines != [] {
      TotalIsSumOfLineTotals(lines[1..]);
    }
  }

  /** A document without lines has nothing to pay. */
  lemma EmptyDocument()
    ensures Subtotal([]) == 0.0 && TaxAmount([]) == 0.0 && TotalAmount([]) == 0.0
  {
  }

  /** A document all of whose lines are at rate 0 has no tax, and its total is its subtotal. */
  lemma {:induction false} ZeroRateDocument(lines: seq<PurchaseLine>)
    requires forall i :: 0 <= i < |lines| ==> lines[i].taxRate == 0.0
    ensures TaxAmount(lines) == 0.0 && TotalAmount(lines) == Subtotal(lines)
  {
    if lines != [] {
      assert forall i :: 0 <= i < |lines[1..]| ==> lines[1..][i] == lines[i + 1];
      ZeroRateDocument(lines[1..]);
    }
  }

  /** Sums are additive over concatenation. */
  lemma {:induction false} SumOfAppend(a: seq<PurchaseLine>, b: seq<PurchaseLine>, f: PurchaseLine -> real)
    ensures SumOf(a + b, f) == SumOf(a, f) + SumOf(b, f)
  {
    if a == [] {
      assert a + b == b;
    } else {
      assert (a + b)[1..] == a[1..] + b;
      SumOfAppend(a[1..], b, f);
    }
  }

  /** The invoice's `amount_due`: the total less what has been paid. */
  function AmountDue(v: PurchaseInvoice): (r: real)
    ensures r + v.amountPaid == TotalAmount(v.lines)
    ensures v.amountPaid == 0.0 ==> r == TotalAmount(v.lines)
  {
    TotalAmount(v.lines) - v.amountPaid
  }
}
