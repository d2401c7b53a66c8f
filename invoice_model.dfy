/**
 * The billing service's invoice entities (Invoice, InvoiceItem) and the
 * arithmetic that createInvoice performs on their line items.
 */
module Invoices {
  import opened Wrappers
  import opened Common
  import opened Money

  datatype InvoiceStatus = Draft | Sent | Paid | Overdue | Cancelled

  datatype ItemType = Delivery | Surcharge | Discount | Other

  /** The persistent columns of an invoice item, as a value (the item entity without its invoice back-reference). */
  datatype LineItem = LineItem(
    itemType: Option<ItemType>,
    description: Option<string>,
    quantity: Option<int>,
    unitPrice: Option<real>,
    discountPercent: Option<real>,
    lineTotal: Option<real>,
    deliveryId: Option<Uuid>)

  /** An InvoiceItem entity. `invoice` is the many-to-one link that createInvoice sets. */
  class InvoiceItem {
    var invoice: Invoice?
    var itemType: Option<ItemType>
    var description: Option<string>
    var quantity: Option<int>
    var unitPrice: Option<real>
    var discountPercent: Option<real>
    var lineTotal: Option<real>
    var deliveryId: Option<Uuid>

    /**
     * InvoiceItem.builder()...build(). The builder ignores the field
     * initialisers (quantity 1, discount 0), so a field the caller does
     * not give is null.
     */
    constructor(data: LineItem)
      ensures Data() == data && invoice == null
    {
      invoice := null;
      itemType := data.itemType;
      description := data.description;
      quantity := data.quantity;
      unitPrice := data.unitPrice;
      discountPercent := data.discountPercent;
      lineTotal := data.lineTotal;
      deliveryId := data.deliveryId;
    }

    function Data(): LineItem
      reads this
    {
      LineItem(itemType, description, quantity, unitPrice, discountPercent, lineTotal, deliveryId)
    }
  }

  /** The customer's details, copied into the invoice when it is issued. */
  datatype CustomerSnapshot = CustomerSnapshot(
    name: Option<string>,
    address: Option<string>,
    city: Option<string>,
    postalCode: Option<string>,
    country: Option<string>)

  /** The payment columns of an invoice. */
  datatype PaymentDetails = PaymentDetails(
    paymentMethod: Option<string>,
    date: Option<Date>,
    reference: Option<string>)

  /** The header fields that updateInvoice copies from the submitted invoice. */
  datatype InvoiceDetails = InvoiceDetails(
    customerId: Option<Uuid>,
    issueDate: Option<Date>,
    dueDate: Option<Date>,
    status: Option<InvoiceStatus>,
    customer: CustomerSnapshot,
    payment: PaymentDetails,
    notes: Option<string>)

  /** The amounts of an invoice, which only createInvoice computes. */
  datatype InvoiceTotals = InvoiceTotals(
    subtotal: Option<real>,
    taxRate: Option<real>,
    taxAmount: Option<real>,
    totalAmount: Option<real>)

  /** The columns the repository's queries and aggregates look at. */
  datatype InvoiceRow = InvoiceRow(
    customerId: Option<Uuid>,
    status: Option<InvoiceStatus>,
    issueDate: Option<Date>,
    dueDate: Option<Date>,
    totalAmount: Option<real>)

  /** An Invoice entity. The creator column createdBy and the auditing columns createdAt and updatedAt are not modelled. */
  class Invoice {
    var id: Option<Uuid>
    var invoiceNumber: Option<string>
    var customerId: Option<Uuid>
    var issueDate: Option<Date>
    var dueDate: Option<Date>
    var status: Option<InvoiceStatus>
    var subtotal: Option<real>
    var taxRate: Option<real>
    var taxAmount: Option<real>
    var totalAmount: Option<real>
    var currency: Option<string>
    var customer: CustomerSnapshot   // customerName, customerAddress, customerCity, customerPostalCode, customerCountry
    var payment: PaymentDetails      // paymentMethod, paymentDate, paymentReference
    var sentAt: Option<DateTime>
    var notes: Option<string>

    /**
     * Invoice.builder().build(): every field is null, including status and
     * currency, whose initialisers (DRAFT, "USD") the builder ignores.
     */
    constructor()
      ensures id == None && invoiceNumber == None && currency == None && sentAt == None
      ensures Header() == InvoiceDetails(None, None, None, None, CustomerSnapshot(None, None, None, None, None),
                                         PaymentDetails(None, None, None), None)
      ensures Totals() == InvoiceTotals(None, None, None, None)
    {
      id := None;
      invoiceNumber := None;
      customerId := None;
      issueDate := None;
      dueDate := None;
      status := None;
      subtotal := None;
      taxRate := None;
      taxAmount := None;
      totalAmount := None;
      currency := None;
      customer := CustomerSnapshot(None, None, None, None, None);
      payment := PaymentDetails(None, None, None);
      sentAt := None;
      notes := None;
    }

    function Header(): InvoiceDetails
      reads this
    {
      InvoiceDetails(customerId, issueDate, dueDate, status, customer, payment, notes)
    }

    function Totals(): InvoiceTotals
      reads this
    {
      InvoiceTotals(subtotal, taxRate, taxAmount, totalAmount)
    }

    function Row(): InvoiceRow
      reads this
    {
      InvoiceRow(customerId, status, issueDate, dueDate, totalAmount)
    }
  }

  // ---------------------------------------------------------------------
  // Line totals, subtotal and tax (createInvoice).
  // ---------------------------------------------------------------------

  /** The line total createInvoice computes when none is given: the gross amount, less the discount when it is positive. */
  function ComputedLineTotal(unitPrice: real, quantity: int, discountPercent: Option<real>): real {
    var gross := unitPrice * quantity as real;
    if discountPercent.Some? && discountPercent.value > 0.0 then gross - gross * discountPercent.value / 100.0
    else gross
  }

  /**
   * The line total an item ends with: a given lineTotal is kept as it is;
   * otherwise it is computed, and a missing quantity (unboxed first, as the
   * argument of new BigDecimal) or unit price is a NullPointerException.
   */
  function LineTotalOf(item: LineItem): (r: Result<real>)
    ensures item.lineTotal.Some? ==> r == Success(item.lineTotal.value)
    ensures r.Failure? <==> item.lineTotal.None? && (item.quantity.None? || item.unitPrice.None?)
  {
    if item.lineTotal.Some? then Success(item.lineTotal.value)
    else if item.quantity.None? then Failure(NullValue("quantity"))
    else if item.unitPrice.None? then Failure(NullValue("unitPrice"))
    else Success(ComputedLineTotal(item.unitPrice.value, item.quantity.value, item.discountPercent))
  }

  /** The item after createInvoice has filled in its line total. */
  function Filled(item: LineItem): (f: LineItem)
    requires LineTotalOf(item).Success?
    ensures f.lineTotal.Some? && LineTotalOf(f) == LineTotalOf(item)
    ensures f == item.(lineTotal := f.lineTotal)
  {
    item.(lineTotal := Some(LineTotalOf(item).value))
  }

  /** The subtotal createInvoice folds over the items, or the error of the first item that has none. */
  function ItemsSubtotal(items: seq<LineItem>): Result<real>
  {
    if items == [] then Success(0.0)
    else
      match ItemsSubtotal(items[..|items| - 1])
      case Failure(e) => Failure(e)
      case Success(s) =>
        match LineTotalOf(items[|items| - 1])
        case Failure(e) => Failure(e)
        case Success(t) => Success(s + t)
  }

  /** The sum of the line totals (a missing one counts as zero). */
  function LineTotalsSum(items: seq<LineItem>): real {
    if items == [] then 0.0 else LineTotalsSum(items[..|items| - 1]) + items[|items| - 1].lineTotal.GetOr(0.0)
  }

  /** The tax is subtotal × taxRate, not rounded. */
  function InvoiceTax(subtotal: real, taxRate: real): real {
    subtotal * taxRate
  }

  const DefaultTaxRate: real := 0.10
  const DefaultPaymentTermDays: int := 30

  /** The header after createInvoice's defaults: a missing issue date becomes today, a missing due date the issue date plus 30 days. */
  function WithDefaults(header: InvoiceDetails, today: Date): InvoiceDetails {
    var issueDate := header.issueDate.GetOr(today);
    header.(issueDate := Some(issueDate),
            dueDate := Some(header.dueDate.GetOr(PlusDays(issueDate, DefaultPaymentTermDays))))
  }

  /** The amounts createInvoice stores for a subtotal and a tax rate. */
  function TotalsFor(subtotal: real, taxRate: real): InvoiceTotals {
    var taxAmount := InvoiceTax(subtotal, taxRate);
    InvoiceTotals(Some(subtotal), Some(taxRate), Some(taxAmount), Some(subtotal + taxAmount))
  }

  // ---------------------------------------------------------------------
  // Properties of the line-item arithmetic.
  // ---------------------------------------------------------------------

  /** Under the item bounds (unit price ≥ 0, quantity ≥ 1, discount in [0, 100]) a computed line total lies between 0 and the gross amount. */
  lemma ComputedLineTotalBounds(unitPrice: real, quantity: int, discountPercent: Option<real>)
    requires unitPrice >= 0.0 && quantity >= 1
    requires discountPercent.Some? ==> 0.0 <= discountPercent.value <= 100.0
    ensures 0.0 <= ComputedLineTotal(unitPrice, quantity, discountPercent) <= unitPrice * quantity as real
  {
    var gross := unitPrice * quantity as real;
    assert gross >= 0.0;
    if discountPercent.Some? && discountPercent.value > 0.0 {
      var d := discountPercent.value;
      assert gross - gross * d / 100.0 == gross * (100.0 - d) / 100.0;
      assert gross * (100.0 - d) >= 0.0;
      assert gross * d >= 0.0;
    }
  }

  /** A discount of 100 percent makes the line free; a discount that is zero, negative or absent is ignored. */
  lemma DiscountExtremes(unitPrice: real, quantity: int, d: real)
    ensures ComputedLineTotal(unitPrice, quantity, Some(100.0)) == 0.0
    ensures d <= 0.0 ==> ComputedLineTotal(unitPrice, quantity, Some(d)) == unitPrice * quantity as real
    ensures ComputedLineTotal(unitPrice, quantity, None) == unitPrice * quantity as real
  {
  }

  /** The fold fails exactly when some item has neither a line total nor the amounts to compute one. */
  lemma {:induction false} ItemsSubtotalFailsIffAnItemFails(items: seq<LineItem>)
    ensures ItemsSubtotal(items).Failure? <==> exists i :: 0 <= i < |items| && LineTotalOf(items[i]).Failure?
  {
    if items != [] {
      var init := items[..|items| - 1];
      ItemsSubtotalFailsIffAnItemFails(init);
      if ItemsSubtotal(init).Failure? {
        var i :| 0 <= i < |init| && LineTotalOf(init[i]).Failure?;
        assert items[i] == init[i];
      } else {
        forall i | 0 <= i < |items| - 1
          ensures LineTotalOf(items[i]).Success?
        {
          assert items[i] == init[i];
        }
      }
    }
  }

  /** Once every item carries its line total, the fold is the plain sum of the line totals. */
  lemma {:induction false} ItemsSubtotalIsSum(items: seq<LineItem>)
    requires forall i :: 0 <= i < |items| ==> items[i].lineTotal.Some?
    ensures ItemsSubtotal(items) == Success(LineTotalsSum(items))
  {
    if items != [] {
      var init := items[..|items| - 1];
      assert forall i :: 0 <= i < |init| ==> init[i] == items[i];
      ItemsSubtotalIsSum(init);
    }
  }

  /** Filling in the line totals does not change the subtotal the fold computes. */
  lemma {:induction false} ItemsSubtotalOfFilled(items: seq<LineItem>, filled: seq<LineItem>)
    requires |filled| == |items|
    requires forall i :: 0 <= i < |items| ==> LineTotalOf(items[i]).Success? && filled[i] == Filled(items[i])
    ensures ItemsSubtotal(filled) == ItemsSubtotal(items)
  {
    if items != [] {
      var n := |items| - 1;
      assert forall i :: 0 <= i < n ==> items[..n][i] == items[i] && filled[..n][i] == filled[i];
      ItemsSubtotalOfFilled(items[..n], filled[..n]);
    }
  }

  /** The sum of non-negative line totals is non-negative. */
  lemma {:induction false} LineTotalsSumNonNegative(items: seq<LineItem>)
    requires forall i :: 0 <= i < |items| ==> items[i].lineTotal.GetOr(0.0) >= 0.0
    ensures LineTotalsSum(items) >= 0.0
  {
    if items != [] {
      var init := items[..|items| - 1];
      assert forall i :: 0 <= i < |init| ==> init[i] == items[i];
      LineTotalsSumNonNegative(init);
    }
  }

  /** The defaults fill only what is missing: given dates are kept, everything else in the header is untouched, and a due date that was missing ends 30 days after the issue date. */
  lemma DefaultsFillOnlyMissing(header: InvoiceDetails, today: Date)
    ensures var d := WithDefaults(header, today);
      && d.issueDate.Some? && d.dueDate.Some?
      && (header.issueDate.Some? ==> d.issueDate == header.issueDate)
      && (header.issueDate.None? ==> d.issueDate == Some(today))
      && (header.dueDate.Some? ==> d.dueDate == header.dueDate)
      && (header.dueDate.None? ==> d.dueDate.value == d.issueDate.value + 30)
      && d.customerId == header.customerId && d.status == header.status && d.customer == header.customer
      && d.payment == header.payment && d.notes == header.notes
  {
  }

  /** Applying the defaults twice changes nothing more, whatever the second day is. */
  lemma DefaultsIdempotent(header: InvoiceDetails, today: Date, later: Date)
    ensures WithDefaults(WithDefaults(header, today), later) == WithDefaults(header, today)
  {
  }

  /** The stored total is the subtotal plus the tax, and with a non-negative subtotal and rate no amount is negative. */
  lemma TotalsAddUp(subtotal: real, taxRate: real)
    ensures var t := TotalsFor(subtotal, taxRate);
      && t.taxAmount == Some(subtotal * taxRate)
      && t.totalAmount.value == t.subtotal.value + t.taxAmount.value
      && (subtotal >= 0.0 && taxRate >= 0.0 ==> t.taxAmount.value >= 0.0 && t.totalAmount.value >= subtotal)
  {
  }

  /** Unlike the pricing calculation, the invoice tax is not rounded: 0.05 at 10 % is 0.005. */
  lemma InvoiceTaxIsUnrounded()
    ensures InvoiceTax(0.05, DefaultTaxRate) == 0.005 && !IsCents(InvoiceTax(0.05, DefaultTaxRate))
  {
    assert (0.005 * 100.0).Floor == 0;
  }
}
