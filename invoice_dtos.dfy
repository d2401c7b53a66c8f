/**
 * The validity of the shared InvoiceItemDto and InvoiceDto transfer
 * objects, as their constraint annotations define it, and what a valid
 * object guarantees.
 */
module InvoiceDtos {
  import opened Wrappers
  import opened Common
  import opened Constraints
  import opened Invoices

  datatype InvoiceItemDto = InvoiceItemDto(
    id: Option<Uuid>,
    itemType: Option<ItemType>,
    description: Option<string>,
    quantity: Option<int>,
    unitPrice: Option<real>,
    discountPercent: Option<real>,
    lineTotal: Option<real>,
    deliveryId: Option<Uuid>)

  /** Every constraint on the item holds. */
  predicate ValidItem(d: InvoiceItemDto) {
    && d.itemType.Some?
    && NotBlank(d.description) && SizeAtMost(d.description, 500)
    && d.quantity.Some? && IntAtLeast(d.quantity, 1)
    && d.unitPrice.Some? && AtLeast(d.unitPrice, 0.0)
    && AtLeast(d.discountPercent, 0.0) && AtMost(d.discountPercent, 100.0)
    && d.lineTotal.Some? && AtLeast(d.lineTotal, 0.0)
  }

  /** The no-argument constructor's item: quantity 1 and discount 0 from the field initialisers. */
  function NoArgsItem(): (d: InvoiceItemDto)
    ensures d.quantity == Some(1) && d.discountPercent == Some(0.0)
    ensures !ValidItem(d)
  {
    InvoiceItemDto(None, None, None, Some(1), None, Some(0.0), None, None)
  }

  /**
   * With the defaults of the no-argument constructor, an item is valid as
   * soon as its type, a description, a unit price and a line total are set.
   */
  lemma NoArgsItemNeedsFourFields(t: ItemType, description: string, unitPrice: real, lineTotal: real)
    requires NotBlank(Some(description)) && |description| <= 500 && unitPrice >= 0.0 && lineTotal >= 0.0
    ensures ValidItem(NoArgsItem().(itemType := Some(t), description := Some(description),
                                    unitPrice := Some(unitPrice), lineTotal := Some(lineTotal)))
  {
  }

  /**
   * The amounts of a valid item keep a computed line total between zero
   * and unit price × quantity.
   */
  lemma ValidItemLineTotalBounds(d: InvoiceItemDto)
    requires ValidItem(d)
    ensures 0.0 <= ComputedLineTotal(d.unitPrice.value, d.quantity.value, d.discountPercent)
                <= d.unitPrice.value * d.quantity.value as real
  {
    ComputedLineTotalBounds(d.unitPrice.value, d.quantity.value, d.discountPercent);
  }

  /** The line total is not checked against the amounts: a valid item may carry any non-negative line total. */
  lemma ItemLineTotalNotCrossChecked()
    ensures exists d :: (ValidItem(d)
      && d.lineTotal.value != ComputedLineTotal(d.unitPrice.value, d.quantity.value, d.discountPercent))
  {
    var d := InvoiceItemDto(None, Some(Delivery), Some("x"), Some(1), Some(10.0), None, Some(3.0), None);
    assert d.description.value[0] > ' ';
    assert ValidItem(d);
  }

  /** The item's fields as an invoice line (the DTO's id is not carried). */
  function AsLineItem(d: InvoiceItemDto): LineItem {
    LineItem(d.itemType, d.description, d.quantity, d.unitPrice, d.discountPercent, d.lineTotal, d.deliveryId)
  }

  function AsLineItems(ds: seq<InvoiceItemDto>): (items: seq<LineItem>)
    ensures |items| == |ds|
  {
    if ds == [] then [] else AsLineItems(ds[..|ds| - 1]) + [AsLineItem(ds[|ds| - 1])]
  }

  /**
   * Valid items never make createInvoice's line-total fold fail: their
   * given line totals are kept, and add up to a non-negative subtotal.
   */
  lemma {:induction false} ValidItemsAddUp(ds: seq<InvoiceItemDto>)
    requires forall i :: 0 <= i < |ds| ==> ValidItem(ds[i])
    ensures ItemsSubtotal(AsLineItems(ds)).Success?
    ensures ItemsSubtotal(AsLineItems(ds)).value >= 0.0
  {
    if ds != [] {
      var init := ds[..|ds| - 1];
      assert forall i :: 0 <= i < |init| ==> init[i] == ds[i];
      ValidItemsAddUp(init);
      var items := AsLineItems(ds);
      assert items[..|items| - 1] == AsLineItems(init);
      assert items[|items| - 1] == AsLineItem(ds[|ds| - 1]);
    }
  }

  datatype InvoiceDto = InvoiceDto(
    id: Option<Uuid>,
    invoiceNumber: Option<string>,
    customerId: Option<Uuid>,
    customerName: Option<string>,
    customerAddress: Option<string>,
    customerCity: Option<string>,
    customerPostalCode: Option<string>,
    customerCountry: Option<string>,
    issueDate: Option<Date>,
    dueDate: Option<Date>,
    status: Option<InvoiceStatus>,
    subtotal: Option<real>,
    taxRate: Option<real>,
    taxAmount: Option<real>,
    totalAmount: Option<real>,
    currency: Option<string>,
    paymentMethod: Option<string>,
    paymentDate: Option<Date>,
    paymentReference: Option<string>,
    notes: Option<string>,
    items: Option<seq<InvoiceItemDto>>)

  /** Every constraint on the invoice holds; the items are not validated (the list carries no @Valid). */
  predicate ValidInvoice(d: InvoiceDto) {
    && NotBlank(d.invoiceNumber) && SizeAtMost(d.invoiceNumber, 50)
    && d.customerId.Some?
    && NotBlank(d.customerName) && SizeAtMost(d.customerName, 255)
    && SizeAtMost(d.customerAddress, 500) && SizeAtMost(d.customerCity, 100)
    && SizeAtMost(d.customerPostalCode, 20) && SizeAtMost(d.customerCountry, 100)
    && d.issueDate.Some? && d.dueDate.Some? && d.status.Some?
    && d.subtotal.Some? && AtLeast(d.subtotal, 0.0)
    && d.taxRate.Some? && AtLeast(d.taxRate, 0.0)
    && d.taxAmount.Some? && AtLeast(d.taxAmount, 0.0)
    && d.totalAmount.Some? && AtLeast(d.totalAmount, 0.0)
    && NotBlank(d.currency) && SizeBetween(d.currency, 3, 3)
    && SizeAtMost(d.paymentMethod, 50) && SizeAtMost(d.paymentReference, 100) && SizeAtMost(d.notes, 1000)
  }

  /** The items list plays no part in the invoice's validity, so an invalid item passes. */
  lemma ItemsNotValidated(d: InvoiceDto, items: Option<seq<InvoiceItemDto>>)
    ensures ValidInvoice(d) <==> ValidInvoice(d.(items := items))
  {
  }

  /** The no-argument constructor's invoice has currency "USD", which meets the currency constraints. */
  function NoArgsInvoice(): (d: InvoiceDto)
    ensures d.currency == Some("USD")
    ensures NotBlank(d.currency) && SizeBetween(d.currency, 3, 3)
    ensures !ValidInvoice(d)
  {
    var d := InvoiceDto(None, None, None, None, None, None, None, None, None, None, None,
                        None, None, None, None, Some("USD"), None, None, None, None, None);
    assert "USD"[0] > ' ';
    d
  }

  /** The currency must be three characters, not all of them blank. */
  lemma CurrencyRules(d: InvoiceDto)
    ensures d.currency == Some("   ") ==> !ValidInvoice(d)
    ensures d.currency == Some("EURO") ==> !ValidInvoice(d)
    ensures d.currency.None? ==> !ValidInvoice(d)
    ensures ValidInvoice(d) ==> |d.currency.value| == 3
  {
  }

  /**
   * No cross-field check: a valid invoice may fall due before it is issued,
   * and its total need not be subtotal + tax.
   */
  lemma NoCrossFieldCheck()
    ensures exists d :: (ValidInvoice(d) && d.dueDate.value < d.issueDate.value
      && d.totalAmount.value != d.subtotal.value + d.taxAmount.value)
  {
    var d := InvoiceDto(None, Some("INV-1"), Some(1), Some("A"), None, None, None, None, Some(10), Some(9), Some(Draft),
                        Some(100.0), Some(0.1), Some(10.0), Some(0.0), Some("USD"), None, None, None, None, None);
    assert "INV-1"[0] > ' ' && "A"[0] > ' ' && "USD"[0] > ' ';
    assert ValidInvoice(d);
  }
}
