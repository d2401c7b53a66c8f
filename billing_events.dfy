/**
 * The billing service's EventConsumer: which delivery events lead to an
 * invoice, and how a price calculation becomes the invoice header and its
 * ordered line items.
 */
module BillingEvents {
  import opened Wrappers
  import opened Common
  import opened PricingRules
  import opened Pricing
  import opened PricingProperties
  import opened Invoices
  import opened InvoiceServices

  /** DeliveryEvent.DeliveryStatus, the status an event carries. */
  datatype EventStatus = Created | Assigned | PickedUp | InTransit | Delivered | Cancelled

  /** The fields of a DeliveryEvent this consumer reads. */
  datatype DeliveryEvent = DeliveryEvent(
    eventType: Option<string>,
    deliveryId: Option<Uuid>,
    orderNumber: Option<string>,
    customerId: Option<Uuid>,
    status: Option<EventStatus>)

  /** `name()` of an event status. */
  function StatusName(s: EventStatus): string {
    match s
    case Created => "CREATED"
    case Assigned => "ASSIGNED"
    case PickedUp => "PICKED_UP"
    case InTransit => "IN_TRANSIT"
    case Delivered => "DELIVERED"
    case Cancelled => "CANCELLED"
  }

  /** `name()` of a priority level. */
  function PriorityName(p: PriorityLevel): string {
    match p
    case Low => "LOW"
    case Normal => "NORMAL"
    case High => "HIGH"
    case Urgent => "URGENT"
  }

  /** `PriorityLevel.valueOf(name)`: the level with that name; None stands for the IllegalArgumentException. */
  function PriorityLevelNamed(name: string): (r: Option<PriorityLevel>)
    ensures r.Some? ==> PriorityName(r.value) == name
  {
    if name == "LOW" then Some(Low)
    else if name == "NORMAL" then Some(Normal)
    else if name == "HIGH" then Some(High)
    else if name == "URGENT" then Some(Urgent)
    else None
  }

  /** valueOf inverts name(): every priority level is found under its own name. */
  lemma PriorityLevelNamedInvertsName(p: PriorityLevel)
    ensures PriorityLevelNamed(PriorityName(p)) == Some(p)
  {
  }

  /**
   * `PriorityLevel.valueOf(event.getStatus().name())`: the priority level
   * named like the event's status. None stands for the exception: the
   * NullPointerException of a null status, or the IllegalArgumentException
   * of a name that is no priority level.
   */
  function PriorityOfStatus(status: Option<EventStatus>): (r: Option<PriorityLevel>)
    ensures r.Some? ==> status.Some? && PriorityName(r.value) == StatusName(status.value)
  {
    if status.None? then None else PriorityLevelNamed(StatusName(status.value))
  }

  /** No delivery status is named like a priority level, so the lookup throws for every event. */
  lemma NoStatusIsAPriority(status: Option<EventStatus>)
    ensures PriorityOfStatus(status) == None
  {
    if PriorityOfStatus(status).Some? {
      var p := PriorityOfStatus(status).value;
      assert PriorityName(p)[0] == StatusName(status.value)[0];
      assert PriorityName(p)[|PriorityName(p)| - 1] == StatusName(status.value)[|StatusName(status.value)| - 1];
    }
  }

  const DeliveryCompleted: string := "delivery.completed"

  /**
   * handleDeliveryEvent's filter: only a "delivery.completed" event with
   * both a delivery id and a customer id leads to an invoice. A null event
   * type makes the switch throw, and the exception is swallowed, so it
   * leads to nothing either.
   */
  predicate TriggersInvoice(event: DeliveryEvent) {
    event.eventType == Some(DeliveryCompleted) && event.deliveryId.Some? && event.customerId.Some?
  }

  /** Java string concatenation: a null operand is written as "null". */
  function Concat(prefix: string, s: Option<string>): (r: string)
    ensures |r| >= |prefix| && r[..|prefix|] == prefix
  {
    prefix + match s { case Some(v) => v case None => "null" }
  }

  // The descriptions of the optional items.
  const DistanceChargeText: string := "Distance charge"
  const UrgentText: string := "Urgent delivery surcharge"
  const AfterHoursText: string := "After-hours delivery surcharge"
  const WeekendText: string := "Weekend delivery surcharge"
  const WeightText: string := "Weight surcharge"
  const ExtraDistanceText: string := "Extra distance surcharge"

  /** An item for one charge: quantity 1, with the amount as both unit price and line total. */
  function ChargeItem(itemType: ItemType, description: string, amount: real, deliveryId: Uuid): LineItem {
    LineItem(Some(itemType), Some(description), Some(1), Some(amount), None, Some(amount), Some(deliveryId))
  }

  /** The base-rate item that every invoice starts with. */
  function BaseItem(c: Charges, deliveryId: Uuid, orderNumber: Option<string>): LineItem {
    ChargeItem(Delivery, Concat("Medical Delivery - ", orderNumber), c.baseRate, deliveryId)
  }

  /** An optional charge: its item type, its description and its amount. */
  datatype Component = Component(itemType: ItemType, description: string, amount: real)

  /** The optional charges of a calculation, in the consumer's order; the per-km rate, the subtotal and the tax are not among them. */
  function OptionalComponents(c: Charges): (cs: seq<Component>)
    ensures |cs| == 6
  {
    [ Component(Delivery, DistanceChargeText, c.distanceCharge),
      Component(Surcharge, UrgentText, c.urgentSurcharge),
      Component(Surcharge, AfterHoursText, c.afterHoursSurcharge),
      Component(Surcharge, WeekendText, c.weekendSurcharge),
      Component(Surcharge, WeightText, c.weightSurcharge),
      Component(Surcharge, ExtraDistanceText, c.distanceSurcharge) ]
  }

  /** One conditional `items.add(...)`: the item for a charge is added only when the amount is positive. */
  function AddIfPositive(items: seq<LineItem>, comp: Component, deliveryId: Uuid): seq<LineItem> {
    if comp.amount > 0.0 then items + [ChargeItem(comp.itemType, comp.description, comp.amount, deliveryId)] else items
  }

  /** The conditional adds for a list of charges, one after the other. */
  function AddAll(items: seq<LineItem>, cs: seq<Component>, deliveryId: Uuid): seq<LineItem>
    decreases |cs|
  {
    if cs == [] then items else AddAll(AddIfPositive(items, cs[0], deliveryId), cs[1..], deliveryId)
  }

  /** The items createInvoiceForCompletedDelivery builds: the base item, then the conditional adds in the consumer's order. */
  function InvoiceItemsFor(c: Charges, deliveryId: Uuid, orderNumber: Option<string>): seq<LineItem> {
    AddAll([BaseItem(c, deliveryId, orderNumber)], OptionalComponents(c), deliveryId)
  }

  /** The header createInvoiceForCompletedDelivery builds: a DRAFT due 30 days after today, with placeholder customer details. */
  function InvoiceHeaderFor(customerId: Uuid, orderNumber: Option<string>, today: Date): InvoiceDetails {
    InvoiceDetails(
      Some(customerId), Some(today), Some(PlusDays(today, 30)), Some(Draft),
      CustomerSnapshot(Some("Customer Name"), Some("Customer Address"), Some("Customer City"), Some("12345"), Some("Country")),
      PaymentDetails(None, None, None),
      Some(Concat("Invoice for delivery: ", orderNumber)))
  }

  const InvoiceTaxRate: real := 0.10

  // ---------------------------------------------------------------------
  // An independent description of the items: the base item, then one item
  // per optional charge whose amount is positive.
  // ---------------------------------------------------------------------

  /** The components with a positive amount, in order. */
  function Positive(cs: seq<Component>): (r: seq<Component>)
    ensures |r| <= |cs|
  {
    if cs == [] then []
    else (if cs[0].amount > 0.0 then [cs[0]] else []) + Positive(cs[1..])
  }

  /** The items for a list of components. */
  function ItemsOf(cs: seq<Component>, deliveryId: Uuid): (r: seq<LineItem>)
    ensures |r| == |cs|
  {
    if cs == [] then [] else [ChargeItem(cs[0].itemType, cs[0].description, cs[0].amount, deliveryId)] + ItemsOf(cs[1..], deliveryId)
  }

  /** The items are the base item followed by one item per positive optional charge, in the consumer's order. */
  lemma ItemsAreBaseThenPositiveCharges(c: Charges, deliveryId: Uuid, orderNumber: Option<string>)
    ensures InvoiceItemsFor(c, deliveryId, orderNumber)
            == [BaseItem(c, deliveryId, orderNumber)] + ItemsOf(Positive(OptionalComponents(c)), deliveryId)
  {
    AddAllKeepsPositive([BaseItem(c, deliveryId, orderNumber)], OptionalComponents(c), deliveryId);
  }

  /** Adding a list of charges one by one appends the items of its positive charges. */
  lemma {:induction false} AddAllKeepsPositive(items: seq<LineItem>, cs: seq<Component>, deliveryId: Uuid)
    ensures AddAll(items, cs, deliveryId) == items + ItemsOf(Positive(cs), deliveryId)
    decreases |cs|
  {
    if cs == [] {
      assert items + [] == items;
    } else {
      var rest := Positive(cs[1..]);
      AddAllKeepsPositive(AddIfPositive(items, cs[0], deliveryId), cs[1..], deliveryId);
      if cs[0].amount > 0.0 {
        var item := ChargeItem(cs[0].itemType, cs[0].description, cs[0].amount, deliveryId);
        assert Positive(cs) == [cs[0]] + rest;
        assert ItemsOf([cs[0]] + rest, deliveryId) == [item] + ItemsOf(rest, deliveryId) by {
          assert ([cs[0]] + rest)[1..] == rest;
        }
        assert (items + [item]) + ItemsOf(rest, deliveryId) == items + ([item] + ItemsOf(rest, deliveryId));
      } else {
        assert Positive(cs) == [] + rest;
        assert [] + rest == rest;
        assert AddIfPositive(items, cs[0], deliveryId) == items;
      }
    }
  }

  /** The items for a list of charges, position by position. */
  lemma {:induction false} ItemsOfAt(cs: seq<Component>, deliveryId: Uuid, i: int)
    requires 0 <= i < |cs|
    ensures ItemsOf(cs, deliveryId)[i] == ChargeItem(cs[i].itemType, cs[i].description, cs[i].amount, deliveryId)
  {
    if i > 0 {
      ItemsOfAt(cs[1..], deliveryId, i - 1);
    }
  }

  /** Every kept charge is one of the given charges, with a positive amount. */
  lemma {:induction false} PositiveMembers(cs: seq<Component>)
    ensures forall x :: x in Positive(cs) ==> x in cs && x.amount > 0.0
  {
    if cs != [] {
      PositiveMembers(cs[1..]);
    }
  }

  /**
   * Between one and seven items; the first is always the base-rate item,
   * even when the base rate is zero, and every later one has a positive
   * amount. Each item has quantity 1, no discount, the amount as both unit
   * price and line total, and the event's delivery id.
   */
  lemma ItemShape(c: Charges, deliveryId: Uuid, orderNumber: Option<string>)
    ensures var items := InvoiceItemsFor(c, deliveryId, orderNumber);
      && 1 <= |items| <= 7
      && items[0] == BaseItem(c, deliveryId, orderNumber) && items[0].itemType == Some(Delivery)
      && items[0].lineTotal == Some(c.baseRate)
      && (forall i :: 1 <= i < |items| ==> items[i].lineTotal.Some? && items[i].lineTotal.value > 0.0)
      && (forall i :: 0 <= i < |items| ==>
            && items[i].quantity == Some(1) && items[i].discountPercent == None
            && items[i].lineTotal.Some? && items[i].unitPrice == items[i].lineTotal
            && items[i].deliveryId == Some(deliveryId))
  {
    ItemsAreBaseThenPositiveCharges(c, deliveryId, orderNumber);
    var cs := Positive(OptionalComponents(c));
    PositiveMembers(OptionalComponents(c));
    var items := InvoiceItemsFor(c, deliveryId, orderNumber);
    forall i | 1 <= i < |items|
      ensures items[i] == ChargeItem(cs[i - 1].itemType, cs[i - 1].description, cs[i - 1].amount, deliveryId)
      ensures cs[i - 1].amount > 0.0
    {
      ItemsOfAt(cs, deliveryId, i - 1);
      assert cs[i - 1] in cs;
    }
  }

  /** The per-km rate, the subtotal and the tax never become items: every item's amount is the base rate or one of the six optional charges. */
  lemma ItemsAreCharges(c: Charges, deliveryId: Uuid, orderNumber: Option<string>)
    ensures forall i :: 0 <= i < |InvoiceItemsFor(c, deliveryId, orderNumber)| ==>
      InvoiceItemsFor(c, deliveryId, orderNumber)[i].lineTotal.Some?
      && InvoiceItemsFor(c, deliveryId, orderNumber)[i].lineTotal.value in
           {c.baseRate, c.distanceCharge, c.urgentSurcharge, c.afterHoursSurcharge,
            c.weekendSurcharge, c.weightSurcharge, c.distanceSurcharge}
  {
    ItemsAreBaseThenPositiveCharges(c, deliveryId, orderNumber);
    var cs := Positive(OptionalComponents(c));
    PositiveMembers(OptionalComponents(c));
    var items := InvoiceItemsFor(c, deliveryId, orderNumber);
    forall i | 1 <= i < |items|
      ensures items[i].lineTotal == Some(cs[i - 1].amount) && cs[i - 1] in OptionalComponents(c)
    {
      ItemsOfAt(cs, deliveryId, i - 1);
      assert cs[i - 1] in cs;
    }
  }

  /** The sum of the positive amounts of a list of charges. */
  function PositiveSum(cs: seq<Component>): real {
    if cs == [] then 0.0 else (if cs[0].amount > 0.0 then cs[0].amount else 0.0) + PositiveSum(cs[1..])
  }

  /** Adding charges one by one adds their positive amounts to the sum of the line totals. */
  lemma {:induction false} SumOfAddAll(items: seq<LineItem>, cs: seq<Component>, deliveryId: Uuid)
    ensures LineTotalsSum(AddAll(items, cs, deliveryId)) == LineTotalsSum(items) + PositiveSum(cs)
    decreases |cs|
  {
    if cs != [] {
      var added := AddIfPositive(items, cs[0], deliveryId);
      SumOfAddAll(added, cs[1..], deliveryId);
      if cs[0].amount > 0.0 {
        assert added[..|added| - 1] == items;
      }
    }
  }

  /** The amount an optional charge contributes: itself when positive, nothing otherwise. */
  function PositivePart(x: real): real {
    if x > 0.0 then x else 0.0
  }

  /** One step of PositiveSum at a position. */
  lemma PositiveSumAt(cs: seq<Component>, k: int)
    requires 0 <= k < |cs|
    ensures PositiveSum(cs[k..]) == PositivePart(cs[k].amount) + PositiveSum(cs[k + 1..])
  {
    assert cs[k..][0] == cs[k] && cs[k..][1..] == cs[k + 1..];
  }

  /** The positive sum of the six optional charges. */
  lemma PositiveSumOfCharges(c: Charges)
    ensures PositiveSum(OptionalComponents(c))
            == PositivePart(c.distanceCharge) + PositivePart(c.urgentSurcharge) + PositivePart(c.afterHoursSurcharge)
               + PositivePart(c.weekendSurcharge) + PositivePart(c.weightSurcharge) + PositivePart(c.distanceSurcharge)
  {
    var cs := OptionalComponents(c);
    PositiveSumAt(cs, 0); PositiveSumAt(cs, 1); PositiveSumAt(cs, 2);
    PositiveSumAt(cs, 3); PositiveSumAt(cs, 4); PositiveSumAt(cs, 5);
    assert cs[0..] == cs && cs[6..] == [];
  }

  /**
   * The line totals add up to the base rate plus every optional charge
   * that is positive; a charge that is zero or negative contributes nothing.
   */
  lemma ItemsSum(c: Charges, deliveryId: Uuid, orderNumber: Option<string>)
    ensures LineTotalsSum(InvoiceItemsFor(c, deliveryId, orderNumber))
            == c.baseRate + PositivePart(c.distanceCharge) + PositivePart(c.urgentSurcharge)
               + PositivePart(c.afterHoursSurcharge) + PositivePart(c.weekendSurcharge)
               + PositivePart(c.weightSurcharge) + PositivePart(c.distanceSurcharge)
  {
    var base := [BaseItem(c, deliveryId, orderNumber)];
    SumOfAddAll(base, OptionalComponents(c), deliveryId);
    PositiveSumOfCharges(c);
    assert base[..0] == [];
  }

  /**
   * When the optional charges are non-negative, the line totals add up to
   * the calculation's subtotal (the base item counts whatever its sign).
   */
  lemma ItemsSumToSubtotal(c: Charges, deliveryId: Uuid, orderNumber: Option<string>)
    requires c.subtotal == c.baseRate + c.distanceCharge + c.urgentSurcharge + c.afterHoursSurcharge
                           + c.weekendSurcharge + c.weightSurcharge + c.distanceSurcharge
    requires c.distanceCharge >= 0.0 && c.urgentSurcharge >= 0.0 && c.afterHoursSurcharge >= 0.0
    requires c.weekendSurcharge >= 0.0 && c.weightSurcharge >= 0.0 && c.distanceSurcharge >= 0.0
    ensures LineTotalsSum(InvoiceItemsFor(c, deliveryId, orderNumber)) == c.subtotal
  {
    ItemsSum(c, deliveryId, orderNumber);
  }

  /** A negative charge is dropped, so the items no longer add up to the subtotal. */
  lemma NegativeChargeIsDropped(deliveryId: Uuid, orderNumber: Option<string>)
    ensures var c := Charges(15.0, 1.2, -1.0, 0.0, 0.0, 0.0, 0.0, 0.0, 14.0, 1.4, 15.4);
      LineTotalsSum(InvoiceItemsFor(c, deliveryId, orderNumber)) == 15.0 != c.subtotal
  {
    ItemsSum(Charges(15.0, 1.2, -1.0, 0.0, 0.0, 0.0, 0.0, 0.0, 14.0, 1.4, 15.4), deliveryId, orderNumber);
  }
  /**
   * For a price quoted from rule values that are all non-negative, the
   * invoice items add up to the quoted subtotal.
   */
  lemma QuotedItemsSumToSubtotal(rules: seq<PricingRule>, req: PricingRequest, today: Date,
                                 deliveryId: Uuid, orderNumber: Option<string>)
    requires RuleValuesNonNegative(rules) && req.distanceKm >= 0.0
    ensures LineTotalsSum(InvoiceItemsFor(Quote(rules, req, today), deliveryId, orderNumber)) == Quote(rules, req, today).subtotal
  {
    ComponentsNonNegative(rules, req, today);
    PricingProperties.TotalsAddUp(rules, req, today);
    ItemsSumToSubtotal(Quote(rules, req, today), deliveryId, orderNumber);
  }

  /** The header is a DRAFT at 10 % tax due 30 days after issue, and createInvoice's defaults leave it as it is. */
  lemma HeaderShape(customerId: Uuid, orderNumber: Option<string>, today: Date, anyDay: Date)
    ensures var h := InvoiceHeaderFor(customerId, orderNumber, today);
      && h.status == Some(Draft) && h.issueDate == Some(today) && h.dueDate == Some(today + 30)
      && h.customerId == Some(customerId) && h.payment == PaymentDetails(None, None, None)
      && WithDefaults(h, anyDay) == h
  {
  }

  // ---------------------------------------------------------------------
  // The consumer itself.
  // ---------------------------------------------------------------------


  /** One step of AddAll at a position. */
  lemma AddAllAt(items: seq<LineItem>, cs: seq<Component>, k: int, deliveryId: Uuid)
    requires 0 <= k < |cs|
    ensures AddAll(items, cs[k..], deliveryId) == AddAll(AddIfPositive(items, cs[k], deliveryId), cs[k + 1..], deliveryId)
  {
    assert cs[k..][0] == cs[k] && cs[k..][1..] == cs[k + 1..];
  }

  /** The six conditional adds after any item list, written out. */
  lemma AddAllUnrolled(items: seq<LineItem>, c: Charges, deliveryId: Uuid)
    ensures var cs := OptionalComponents(c);
      AddAll(items, cs, deliveryId)
      == AddIfPositive(AddIfPositive(AddIfPositive(AddIfPositive(AddIfPositive(AddIfPositive(
           items, cs[0], deliveryId), cs[1], deliveryId), cs[2], deliveryId),
           cs[3], deliveryId), cs[4], deliveryId), cs[5], deliveryId)
  {
    var cs := OptionalComponents(c);
    var s1 := AddIfPositive(items, cs[0], deliveryId);
    var s2 := AddIfPositive(s1, cs[1], deliveryId);
    var s3 := AddIfPositive(s2, cs[2], deliveryId);
    var s4 := AddIfPositive(s3, cs[3], deliveryId);
    var s5 := AddIfPositive(s4, cs[4], deliveryId);
    AddAllAt(items, cs, 0, deliveryId); AddAllAt(s1, cs, 1, deliveryId); AddAllAt(s2, cs, 2, deliveryId);
    AddAllAt(s3, cs, 3, deliveryId); AddAllAt(s4, cs, 4, deliveryId); AddAllAt(s5, cs, 5, deliveryId);
    assert cs[0..] == cs && cs[6..] == [];
  }

  /** items.add(InvoiceItem.builder()...build()) */
  method AddItem(items: seq<InvoiceItem>, data: LineItem) returns (r: seq<InvoiceItem>)
    ensures ItemContents(r) == old(ItemContents(items)) + [data]
    ensures forall x :: x in r ==> x in items || fresh(x)
  {
    var item := new InvoiceItem(data);
    r := items + [item];
  }

  /** One `if (amount > 0) items.add(...)` of the consumer. */
  method AddCharge(items: seq<InvoiceItem>, comp: Component, deliveryId: Uuid) returns (r: seq<InvoiceItem>)
    ensures ItemContents(r) == AddIfPositive(old(ItemContents(items)), comp, deliveryId)
    ensures forall x :: x in r ==> x in items || fresh(x)
  {
    r := items;
    if comp.amount > 0.0 {
      r := AddItem(items, ChargeItem(comp.itemType, comp.description, comp.amount, deliveryId));
    }
  }

  /** The five conditional surcharge adds of the consumer, in its order. */
  method AddSurcharges(items: seq<InvoiceItem>, calculation: PricingCalculation, deliveryId: Uuid)
    returns (r: seq<InvoiceItem>)
    ensures var cs := OptionalComponents(calculation.Snapshot());
      ItemContents(r)
      == AddIfPositive(AddIfPositive(AddIfPositive(AddIfPositive(AddIfPositive(
           old(ItemContents(items)), cs[1], deliveryId), cs[2], deliveryId), cs[3], deliveryId),
           cs[4], deliveryId), cs[5], deliveryId)
    ensures forall x :: x in r ==> x in items || fresh(x)
  {
    ghost var cs := OptionalComponents(calculation.Snapshot());
    r := AddCharge(items, Component(Surcharge, UrgentText, calculation.urgentSurcharge), deliveryId);
    ghost var s := AddIfPositive(old(ItemContents(items)), cs[1], deliveryId);
    r := AddCharge(r, Component(Surcharge, AfterHoursText, calculation.afterHoursSurcharge), deliveryId);
    s := AddIfPositive(s, cs[2], deliveryId);
    assert ItemContents(r) == s;
    r := AddCharge(r, Component(Surcharge, WeekendText, calculation.weekendSurcharge), deliveryId);
    s := AddIfPositive(s, cs[3], deliveryId);
    assert ItemContents(r) == s;
    r := AddCharge(r, Component(Surcharge, WeightText, calculation.weightSurcharge), deliveryId);
    s := AddIfPositive(s, cs[4], deliveryId);
    assert ItemContents(r) == s;
    r := AddCharge(r, Component(Surcharge, ExtraDistanceText, calculation.distanceSurcharge), deliveryId);
  }

  /** The item list of createInvoiceForCompletedDelivery, built from the fields of the price calculation. */
  method AssembleItems(calculation: PricingCalculation, deliveryId: Uuid, orderNumber: Option<string>)
    returns (items: seq<InvoiceItem>)
    ensures ItemContents(items) == InvoiceItemsFor(calculation.Snapshot(), deliveryId, orderNumber)
    ensures forall k :: 0 <= k < |items| ==> fresh(items[k])
  {
    ghost var c := calculation.Snapshot();
    ghost var s := [BaseItem(c, deliveryId, orderNumber)];
    items := AddItem([], BaseItem(calculation.Snapshot(), deliveryId, orderNumber));
    assert ItemContents(items) == s;
    items := AddCharge(items, Component(Delivery, DistanceChargeText, calculation.distanceCharge), deliveryId);
    s := AddIfPositive(s, OptionalComponents(c)[0], deliveryId);
    assert ItemContents(items) == s;
    items := AddSurcharges(items, calculation, deliveryId);
    assert calculation.Snapshot() == c;
    AddAllUnrolled([BaseItem(c, deliveryId, orderNumber)], c, deliveryId);
    assert forall k :: 0 <= k < |items| ==> items[k] in items;
  }

  /** The Invoice.builder() call of createInvoiceForCompletedDelivery. */
  method BuildInvoice(customerId: Uuid, orderNumber: Option<string>, today: Date) returns (invoice: Invoice)
    ensures fresh(invoice)
    ensures invoice.Header() == InvoiceHeaderFor(customerId, orderNumber, today)
    ensures invoice.Totals() == InvoiceTotals(None, Some(InvoiceTaxRate), None, None)
    ensures invoice.id == None && invoice.invoiceNumber == None && invoice.currency == None && invoice.sentAt == None
  {
    invoice := new Invoice();
    invoice.customerId := Some(customerId);
    invoice.customer := CustomerSnapshot(Some("Customer Name"), Some("Customer Address"), Some("Customer City"),
                                         Some("12345"), Some("Country"));
    invoice.issueDate := Some(today);
    invoice.dueDate := Some(PlusDays(today, 30));
    invoice.status := Some(Draft);
    invoice.taxRate := Some(InvoiceTaxRate);
    invoice.notes := Some(Concat("Invoice for delivery: ", orderNumber));
  }

  /** The request createInvoiceForCompletedDelivery prices: a medical facility, 10 km, 1 kg, delivered now. */
  function ConsumerRequest(customerId: Uuid, priority: Option<PriorityLevel>, now: DateTime): PricingRequest {
    PricingRequest(Some(customerId), Some(MedicalFacility), priority, 10.0, 1.0, now)
  }

  /**
   * handleDeliveryEvent as written. A triggering event is priced at the
   * priority level named like its delivery status; that lookup throws for
   * every event, before anything is priced or stored, and the catch only
   * logs it. So no event ever stores an invoice.
   */
  method HandleDeliveryEventAsWritten(service: InvoiceService, pricing: PricingService, event: DeliveryEvent,
                                      invoiceNumber: string, newId: Uuid, now: DateTime)
    modifies service
    ensures unchanged(service)
  {
    if !TriggersInvoice(event) {
      return;
    }
    var priority := PriorityOfStatus(event.status);
    if priority.None? {
      return;  // valueOf threw; the catch logs it
    }
    NoStatusIsAPriority(event.status);
    assert false;
  }

  /**
   * handleDeliveryEvent as intended: a triggering event is priced at the
   * delivery's own priority level (which the event does not carry, so it is
   * a parameter) and its invoice is stored; any other event changes nothing.
   * The items stored with the invoice are returned.
   */
  method HandleDeliveryEvent(service: InvoiceService, pricing: PricingService, event: DeliveryEvent,
                             priority: Option<PriorityLevel>, invoiceNumber: string, newId: Uuid, now: DateTime)
    returns (items: seq<InvoiceItem>)
    requires service.Valid() && newId !in service.invoices
    modifies service
    ensures service.Valid()
    ensures !TriggersInvoice(event) ==> service.invoices == old(service.invoices) && items == []
    ensures TriggersInvoice(event) ==>
      var quote := Quote(pricing.rules, ConsumerRequest(event.customerId.value, priority, now), now.date);
      var built := InvoiceItemsFor(quote, event.deliveryId.value, event.orderNumber);
      && newId in service.invoices && fresh(service.invoices[newId])
      && service.invoices == old(service.invoices)[newId := service.invoices[newId]]
      && service.invoices[newId].invoiceNumber == Some(invoiceNumber)
      && service.invoices[newId].Header() == InvoiceHeaderFor(event.customerId.value, event.orderNumber, now.date)
      && service.invoices[newId].Totals() == TotalsFor(LineTotalsSum(built), InvoiceTaxRate)
      && (RuleValuesNonNegative(pricing.rules) ==> service.invoices[newId].Totals() == TotalsFor(quote.subtotal, InvoiceTaxRate))
      && ItemContents(items) == built
      && (forall k :: 0 <= k < |items| ==> fresh(items[k]) && items[k].invoice == service.invoices[newId])
  {
    if event.eventType != Some(DeliveryCompleted) || event.deliveryId.None? || event.customerId.None? {
      items := [];
      return;
    }
    items := CreateInvoiceForCompletedDelivery(service, pricing, event.customerId.value, event.deliveryId.value,
                                               event.orderNumber, priority, invoiceNumber, newId, now);
  }

  /**
   * createInvoiceForCompletedDelivery: the price of a medical-facility
   * delivery of 10 km and 1 kg at `now`, the invoice header, the list of
   * the positive charges, and createInvoice over them. Every item carries
   * its line total, so createInvoice stores the items exactly as built, and
   * the invoice always.
   */
  method CreateInvoiceForCompletedDelivery(service: InvoiceService, pricing: PricingService, customerId: Uuid,
                                           deliveryId: Uuid, orderNumber: Option<string>,
                                           priority: Option<PriorityLevel>, invoiceNumber: string, newId: Uuid,
                                           now: DateTime)
    returns (items: seq<InvoiceItem>)
    requires service.Valid() && newId !in service.invoices
    modifies service
    ensures service.Valid()
    ensures var quote := Quote(pricing.rules, ConsumerRequest(customerId, priority, now), now.date);
      var built := InvoiceItemsFor(quote, deliveryId, orderNumber);
      && newId in service.invoices && fresh(service.invoices[newId])
      && service.invoices == old(service.invoices)[newId := service.invoices[newId]]
      && service.invoices[newId].invoiceNumber == Some(invoiceNumber)
      && service.invoices[newId].Header() == InvoiceHeaderFor(customerId, orderNumber, now.date)
      && service.invoices[newId].Totals() == TotalsFor(LineTotalsSum(built), InvoiceTaxRate)
      && (RuleValuesNonNegative(pricing.rules) ==> service.invoices[newId].Totals() == TotalsFor(quote.subtotal, InvoiceTaxRate))
      && ItemContents(items) == built
      && (forall k :: 0 <= k < |items| ==> fresh(items[k]) && items[k].invoice == service.invoices[newId])
  {
    var req := ConsumerRequest(customerId, priority, now);
    var calculation := pricing.CalculateDeliveryPrice(req, now.date);
    var invoice := BuildInvoice(customerId, orderNumber, now.date);
    items := AssembleItems(calculation, deliveryId, orderNumber);
    ghost var built := InvoiceItemsFor(calculation.Snapshot(), deliveryId, orderNumber);
    ItemShape(calculation.Snapshot(), deliveryId, orderNumber);
    ItemsSubtotalIsSum(built);
    HeaderShape(customerId, orderNumber, now.date, now.date);
    if RuleValuesNonNegative(pricing.rules) {
      QuotedItemsSumToSubtotal(pricing.rules, req, now.date, deliveryId, orderNumber);
    }
    var created := service.CreateInvoice(invoice, items, invoiceNumber, newId, now.date);
    // The result is not inspected: a failure would be logged and swallowed.
    assert forall k :: 0 <= k < |items| ==> items[k].Data() == Filled(built[k]) == built[k];
  }
}
