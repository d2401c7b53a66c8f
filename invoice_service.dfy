/**
 * InvoiceService: creating an invoice from its items, and the header
 * updates (updateInvoice, updateInvoiceStatus, recordPayment,
 * deleteInvoice). The invoice table is a map from id to entity; the
 * service is transactional, so a call that throws leaves the map as it was.
 */
module InvoiceServices {
  import opened Wrappers
  import opened Common
  import opened Invoices

  /** The contents of a list of item entities. */
  function ItemContents(items: seq<InvoiceItem>): (c: seq<LineItem>)
    reads items
    ensures |c| == |items| && forall k :: 0 <= k < |items| ==> c[k] == items[k].Data()
  {
    seq(|items|, k requires 0 <= k < |items| reads items => items[k].Data())
  }

  /** The sent timestamp after a status update: stamped with `now` only the first time the invoice becomes SENT. */
  function SentAtAfter(sentAt: Option<DateTime>, status: Option<InvoiceStatus>, now: DateTime): (r: Option<DateTime>)
    ensures sentAt.Some? ==> r == sentAt
    ensures r.Some? <==> sentAt.Some? || status == Some(Sent)
  {
    if status == Some(Sent) && sentAt.None? then Some(now) else sentAt
  }

  /** A status update as updateInvoiceStatus receives it, with the time it happens. */
  datatype StatusUpdate = StatusUpdate(status: Option<InvoiceStatus>, at: DateTime)

  /** The sent timestamp after a series of status updates. */
  function SentAtAfterAll(sentAt: Option<DateTime>, updates: seq<StatusUpdate>): Option<DateTime>
    decreases |updates|
  {
    if updates == [] then sentAt
    else SentAtAfterAll(SentAtAfter(sentAt, updates[0].status, updates[0].at), updates[1..])
  }

  /** The time of the first update to SENT, if there is one. */
  function FirstSendTime(updates: seq<StatusUpdate>): (r: Option<DateTime>)
    ensures r.Some? ==> exists i :: 0 <= i < |updates| && updates[i].status == Some(Sent) && updates[i].at == r.value
  {
    if updates == [] then None
    else if updates[0].status == Some(Sent) then Some(updates[0].at)
    else
      var r := FirstSendTime(updates[1..]);
      assert r.Some? ==> exists i :: 0 <= i < |updates| - 1 && updates[1..][i].status == Some(Sent) && updates[1..][i].at == r.value;
      r
  }

  /** sentAt is set once: a stamped invoice keeps its stamp, and an unstamped one ends with the time of its first SENT update. */
  lemma {:induction false} SentAtIsFirstSend(sentAt: Option<DateTime>, updates: seq<StatusUpdate>)
    ensures sentAt.Some? ==> SentAtAfterAll(sentAt, updates) == sentAt
    ensures sentAt.None? ==> SentAtAfterAll(sentAt, updates) == FirstSendTime(updates)
    decreases |updates|
  {
    if updates != [] {
      SentAtIsFirstSend(SentAtAfter(sentAt, updates[0].status, updates[0].at), updates[1..]);
    }
  }

  /** No update ever to SENT leaves sentAt unset. */
  lemma {:induction false} NoSendNoStamp(updates: seq<StatusUpdate>)
    requires forall i :: 0 <= i < |updates| ==> updates[i].status != Some(Sent)
    ensures SentAtAfterAll(None, updates) == None
  {
    SentAtIsFirstSend(None, updates);
  }

  class InvoiceService {
    var invoices: map<Uuid, Invoice>

    /** Every stored invoice carries the id it is stored under. */
    ghost predicate Valid()
      reads this, invoices.Values
    {
      forall k | k in invoices :: invoices[k].id == Some(k)
    }

    constructor()
      ensures Valid() && invoices == map[]
    {
      invoices := map[];
    }

    /**
     * createInvoice, with the generated invoice number, the id the database
     * assigns and LocalDate.now() as parameters. The header defaults are
     * filled in first; then each item is linked to the invoice, a missing
     * line total is computed, and the line totals are added up; the tax is
     * subtotal × taxRate, unrounded. An item whose line total cannot be
     * computed throws, and the invoice is not stored.
     */
    method CreateInvoice(invoice: Invoice, items: seq<InvoiceItem>, invoiceNumber: string, newId: Uuid, today: Date)
      returns (res: Result<Invoice>)
      requires Valid()
      requires newId !in invoices && invoice.id == None
      modifies this, invoice, items
      ensures Valid()
      ensures invoice.id == Some(newId) && invoice.invoiceNumber == Some(invoiceNumber)
      ensures invoice.Header() == WithDefaults(old(invoice.Header()), today)
      ensures invoice.taxRate == Some(old(invoice.taxRate).GetOr(DefaultTaxRate))
      ensures invoice.currency == old(invoice.currency) && invoice.sentAt == old(invoice.sentAt)
      ensures ItemsSubtotal(old(ItemContents(items))).Failure? ==>
        res == Failure(ItemsSubtotal(old(ItemContents(items))).error) && invoices == old(invoices)
      ensures ItemsSubtotal(old(ItemContents(items))).Success? ==>
        && res == Success(invoice)
        && invoices == old(invoices)[newId := invoice]
        && invoice.Totals() == TotalsFor(ItemsSubtotal(old(ItemContents(items))).value, invoice.taxRate.value)
        && (forall k :: 0 <= k < |items| ==>
              LineTotalOf(old(ItemContents(items))[k]).Success?
              && items[k].Data() == Filled(old(ItemContents(items))[k]) && items[k].invoice == invoice)
    {
      NotStored(invoice);
      FillDefaults(invoice, invoiceNumber, today);
      invoice.id := Some(newId);
      var sum := AddUpItems(invoice, items);
      if sum.Failure? {
        return Failure(sum.error);
      }
      SetTotals(invoice, sum.value);
      invoices := invoices[newId := invoice];
      res := Success(invoice);
    }

    /** The first steps of createInvoice: the invoice number, then the defaults for the issue date, the due date and the tax rate. */
    static method FillDefaults(invoice: Invoice, invoiceNumber: string, today: Date)
      modifies invoice
      ensures invoice.invoiceNumber == Some(invoiceNumber)
      ensures invoice.Header() == WithDefaults(old(invoice.Header()), today)
      ensures invoice.taxRate == Some(old(invoice.taxRate).GetOr(DefaultTaxRate))
      ensures invoice.id == old(invoice.id) && invoice.currency == old(invoice.currency) && invoice.sentAt == old(invoice.sentAt)
    {
      invoice.invoiceNumber := Some(invoiceNumber);
      if invoice.issueDate == None {
        invoice.issueDate := Some(today);
      }
      if invoice.dueDate == None {
        invoice.dueDate := Some(PlusDays(invoice.issueDate.value, DefaultPaymentTermDays));
      }
      if invoice.taxRate == None {
        invoice.taxRate := Some(DefaultTaxRate);
      }
    }

    /** The last steps of createInvoice: the tax is subtotal × taxRate, and the total is their sum. */
    static method SetTotals(invoice: Invoice, subtotal: real)
      requires invoice.taxRate.Some?
      modifies invoice
      ensures invoice.taxRate == old(invoice.taxRate) && invoice.Header() == old(invoice.Header())
      ensures invoice.Totals() == TotalsFor(subtotal, invoice.taxRate.value)
      ensures invoice.id == old(invoice.id) && invoice.invoiceNumber == old(invoice.invoiceNumber)
      ensures invoice.currency == old(invoice.currency) && invoice.sentAt == old(invoice.sentAt)
    {
      var taxAmount := InvoiceTax(subtotal, invoice.taxRate.value);
      var totalAmount := subtotal + taxAmount;
      invoice.subtotal := Some(subtotal);
      invoice.taxAmount := Some(taxAmount);
      invoice.totalAmount := Some(totalAmount);
    }

    /**
     * The item loop of createInvoice: links each item to the invoice, fills
     * in a missing line total and adds the line totals up. The same item
     * may occur twice in the list; its second visit finds the line total
     * set by the first.
     */
    static method AddUpItems(invoice: Invoice, items: seq<InvoiceItem>) returns (res: Result<real>)
      modifies items
      ensures res == ItemsSubtotal(old(ItemContents(items)))
      ensures res.Success? ==>
        forall k :: 0 <= k < |items| ==>
          LineTotalOf(old(ItemContents(items))[k]).Success?
          && items[k].Data() == Filled(old(ItemContents(items))[k]) && items[k].invoice == invoice
    {
      ghost var before := ItemContents(items);
      ghost var done: set<InvoiceItem> := {};
      var subtotal := 0.0;
      for i := 0 to |items|
        invariant ItemsSubtotal(before[..i]) == Success(subtotal)
        invariant forall k :: 0 <= k < |items| && items[k] in done ==>
          LineTotalOf(before[k]).Success? && items[k].Data() == Filled(before[k]) && items[k].invoice == invoice
        invariant forall k :: 0 <= k < |items| && items[k] !in done ==> items[k].Data() == before[k]
        invariant forall k :: 0 <= k < i ==> items[k] in done
      {
        var item := items[i];
        var lineTotal := FillLineTotal(invoice, item);
        if lineTotal.Failure? {
          ItemsSubtotalFailurePropagates(before, i + 1);
          return Failure(lineTotal.error);
        }
        done := done + {item};
        PrefixStep(before, i);
        subtotal := subtotal + lineTotal.value;
      }
      assert before[..|items|] == before;
      res := Success(subtotal);
    }

    /**
     * One pass of the item loop: link the item to the invoice and, when its
     * line total is missing, compute it from the unit price, the quantity
     * and a positive discount. A missing quantity or unit price throws.
     */
    static method FillLineTotal(invoice: Invoice, item: InvoiceItem) returns (res: Result<real>)
      modifies item
      ensures res == LineTotalOf(old(item.Data()))
      ensures res.Success? ==> item.Data() == Filled(old(item.Data())) && item.invoice == invoice
    {
      item.invoice := invoice;
      if item.lineTotal == None {
        if item.quantity == None {
          return Failure(NullValue("quantity"));
        }
        if item.unitPrice == None {
          return Failure(NullValue("unitPrice"));
        }
        var lineTotal := item.unitPrice.value * item.quantity.value as real;
        if item.discountPercent.Some? && item.discountPercent.value > 0.0 {
          var discountAmount := lineTotal * item.discountPercent.value / 100.0;
          lineTotal := lineTotal - discountAmount;
        }
        assert lineTotal == ComputedLineTotal(item.unitPrice.value, item.quantity.value, item.discountPercent);
        item.lineTotal := Some(lineTotal);
      }
      res := Success(item.lineTotal.value);
    }

    /** An invoice without an id is not one of the stored invoices. */
    lemma NotStored(invoice: Invoice)
      requires Valid() && invoice.id == None
      ensures forall k | k in invoices :: invoices[k] != invoice
    {
    }

    /**
     * updateInvoice: copies the header fields of `details` onto the stored
     * invoice. The invoice number, the totals, the currency and sentAt are
     * not touched. Fails with nothing changed when the id is absent.
     */
    method UpdateInvoice(id: Uuid, details: InvoiceDetails) returns (res: Result<Invoice>)
      requires Valid()
      modifies if id in invoices then {invoices[id]} else {}
      ensures Valid() && invoices == old(invoices)
      ensures id !in invoices ==> res == Failure(NotFound("Invoice"))
      ensures id in invoices ==>
        var inv := invoices[id];
        && res == Success(inv)
        && inv.Header() == details
        && inv.Totals() == old(inv.Totals())
        && inv.id == old(inv.id) && inv.invoiceNumber == old(inv.invoiceNumber)
        && inv.currency == old(inv.currency) && inv.sentAt == old(inv.sentAt)
    {
      if id !in invoices {
        return Failure(NotFound("Invoice"));
      }
      var invoice := invoices[id];
      CopyHeader(invoice, details);
      res := Success(invoice);
    }

    /** The setter calls of updateInvoice: every header field takes the value from `details`. */
    static method CopyHeader(invoice: Invoice, details: InvoiceDetails)
      modifies invoice
      ensures invoice.Header() == details
      ensures invoice.Totals() == old(invoice.Totals())
      ensures invoice.id == old(invoice.id) && invoice.invoiceNumber == old(invoice.invoiceNumber)
      ensures invoice.currency == old(invoice.currency) && invoice.sentAt == old(invoice.sentAt)
    {
      invoice.customerId := details.customerId;
      invoice.issueDate := details.issueDate;
      invoice.dueDate := details.dueDate;
      invoice.status := details.status;
      invoice.customer := details.customer;
      invoice.payment := details.payment;
      invoice.notes := details.notes;
    }

    /**
     * updateInvoiceStatus: any status may follow any other. The notes are
     * overwritten only by non-null notes, and sentAt is stamped with `now`
     * (LocalDateTime.now()) only the first time the invoice becomes SENT.
     */
    method UpdateInvoiceStatus(id: Uuid, status: Option<InvoiceStatus>, notes: Option<string>, now: DateTime)
      returns (res: Result<Invoice>)
      requires Valid()
      modifies if id in invoices then {invoices[id]} else {}
      ensures Valid() && invoices == old(invoices)
      ensures id !in invoices ==> res == Failure(NotFound("Invoice"))
      ensures id in invoices ==>
        var inv := invoices[id];
        && res == Success(inv)
        && inv.Header() == old(inv.Header()).(status := status, notes := if notes.Some? then notes else old(inv.notes))
        && inv.sentAt == SentAtAfter(old(inv.sentAt), status, now)
        && inv.Totals() == old(inv.Totals())
        && inv.id == old(inv.id) && inv.invoiceNumber == old(inv.invoiceNumber) && inv.currency == old(inv.currency)
    {
      if id !in invoices {
        return Failure(NotFound("Invoice"));
      }
      var invoice := invoices[id];
      invoice.status := status;
      if notes != None {
        invoice.notes := notes;
      }
      if status == Some(Sent) && invoice.sentAt == None {
        invoice.sentAt := Some(now);
      }
      res := Success(invoice);
    }

    /**
     * recordPayment: the invoice becomes PAID with the given method and
     * reference; the payment date defaults to `today` (LocalDate.now()).
     */
    method RecordPayment(id: Uuid, paymentMethod: Option<string>, paymentDate: Option<Date>,
                         paymentReference: Option<string>, today: Date)
      returns (res: Result<Invoice>)
      requires Valid()
      modifies if id in invoices then {invoices[id]} else {}
      ensures Valid() && invoices == old(invoices)
      ensures id !in invoices ==> res == Failure(NotFound("Invoice"))
      ensures id in invoices ==>
        var inv := invoices[id];
        && res == Success(inv)
        && inv.Header() == old(inv.Header()).(status := Some(Paid),
                                              payment := PaymentDetails(paymentMethod, Some(paymentDate.GetOr(today)), paymentReference))
        && inv.Totals() == old(inv.Totals())
        && inv.id == old(inv.id) && inv.invoiceNumber == old(inv.invoiceNumber)
        && inv.currency == old(inv.currency) && inv.sentAt == old(inv.sentAt)
    {
      if id !in invoices {
        return Failure(NotFound("Invoice"));
      }
      var invoice := invoices[id];
      invoice.status := Some(Paid);
      invoice.payment := PaymentDetails(paymentMethod, if paymentDate != None then paymentDate else Some(today), paymentReference);
      res := Success(invoice);
    }

    /** deleteInvoice: removes the invoice; fails with nothing changed when the id is absent. */
    method DeleteInvoice(id: Uuid) returns (res: Outcome)
      requires Valid()
      modifies this
      ensures Valid()
      ensures res == (if id in old(invoices) then Done else Failed(NotFound("Invoice")))
      ensures invoices == (if id in old(invoices) then old(invoices) - {id} else old(invoices))
    {
      if id !in invoices {
        return Failed(NotFound("Invoice"));
      }
      invoices := invoices - {id};
      res := Done;
    }
  }

  // ---------------------------------------------------------------------
  // Steps of the createInvoice loop.
  // ---------------------------------------------------------------------

  /** Extending the processed prefix by one item whose line total exists. */
  lemma PrefixStep(before: seq<LineItem>, i: int)
    requires 0 <= i < |before|
    requires ItemsSubtotal(before[..i]).Success? && LineTotalOf(before[i]).Success?
    ensures ItemsSubtotal(before[..i + 1]) == Success(ItemsSubtotal(before[..i]).value + LineTotalOf(before[i]).value)
  {
    assert before[..i + 1][..i] == before[..i];
  }

  /** A failing item, after a prefix that succeeds, makes the whole fold fail with its error. */
  lemma {:induction false} ItemsSubtotalFailurePropagates(s: seq<LineItem>, j: int)
    requires 0 < j <= |s|
    requires ItemsSubtotal(s[..j - 1]).Success? && LineTotalOf(s[j - 1]).Failure?
    ensures ItemsSubtotal(s) == Failure(LineTotalOf(s[j - 1]).error)
    decreases |s|
  {
    if j == |s| {
      assert s[..j - 1] == s[..|s| - 1];
    } else {
      var init := s[..|s| - 1];
      assert init[..j - 1] == s[..j - 1] && init[j - 1] == s[j - 1];
      ItemsSubtotalFailurePropagates(init, j);
    }
  }
}
