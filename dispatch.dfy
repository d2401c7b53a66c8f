/**
 * The dispatch service's DeliveryOrderService: delivery orders as entities
 * in a table keyed by id, and the append-only status-history table. The
 * service is transactional, so a call that throws changes nothing.
 */
module Dispatch {
  import opened Wrappers
  import opened Common
  import opened DeliveryDtos

  /** DeliveryOrder.Status. */
  datatype OrderStatus = Created | Assigned | PickedUp | InTransit | Delivered | Cancelled

  /** The fields updateDeliveryOrder copies: both endpoints, the package and the requested times. */
  datatype OrderDetails = OrderDetails(
    pickup: Endpoint,
    dropoff: Endpoint,
    priority: Option<Priority>,
    packageDescription: Option<string>,
    packageWeight: Option<real>,
    isMedicalSpecimen: Option<bool>,
    temperatureControlled: Option<bool>,
    requestedPickupTime: Option<DateTime>,
    estimatedDeliveryTime: Option<DateTime>)

  /** The timestamps a status change may set, and the cancellation reason. */
  datatype Stamps = Stamps(
    actualPickupTime: Option<DateTime>,
    actualDeliveryTime: Option<DateTime>,
    cancelledAt: Option<DateTime>,
    cancellationReason: Option<string>)

  const NoStamps: Stamps := Stamps(None, None, None, None)

  /** The state of an order apart from its id. */
  datatype OrderRecord = OrderRecord(
    orderNumber: Option<string>,
    customerId: Option<Uuid>,
    details: OrderDetails,
    status: Option<OrderStatus>,
    stamps: Stamps,
    assignedDriverId: Option<Uuid>,
    assignedAt: Option<DateTime>,
    createdBy: Option<Uuid>)

  /** A DeliveryStatusHistory row. */
  datatype HistoryEntry = HistoryEntry(
    deliveryId: Option<Uuid>,
    fromStatus: Option<OrderStatus>,
    toStatus: Option<OrderStatus>,
    changedBy: Option<Uuid>,
    changedAt: DateTime,
    notes: Option<string>)

  const CreatedNote: string := "Delivery order created"
  const AssignedNote: string := "Driver assigned"

  /** The switch of updateDeliveryStatus: which timestamp the new status sets. */
  function StampsAfter(s: Stamps, toStatus: OrderStatus, notes: Option<string>, now: DateTime): Stamps {
    match toStatus
    case PickedUp => s.(actualPickupTime := Some(now))
    case Delivered => s.(actualDeliveryTime := Some(now))
    case Cancelled => s.(cancelledAt := Some(now), cancellationReason := if notes.Some? then notes else s.cancellationReason)
    case _ => s
  }

  /** An order after updateDeliveryStatus moved it to `toStatus` at `now`. */
  function StatusChanged(r: OrderRecord, toStatus: OrderStatus, notes: Option<string>, now: DateTime): OrderRecord {
    r.(status := Some(toStatus), stamps := StampsAfter(r.stamps, toStatus, notes, now))
  }

  /** The history row of a status change: the given from-status, or the order's previous status when none is given. */
  function EntryFor(deliveryId: Uuid, previous: Option<OrderStatus>, fromStatus: Option<OrderStatus>, toStatus: OrderStatus,
                    changedBy: Option<Uuid>, notes: Option<string>, now: DateTime): (e: HistoryEntry)
    ensures e.fromStatus == (if fromStatus.Some? then fromStatus else previous)
    ensures e.toStatus == Some(toStatus) && e.deliveryId == Some(deliveryId) && e.changedAt == now && e.notes == notes
  {
    HistoryEntry(Some(deliveryId), if fromStatus.Some? then fromStatus else previous, Some(toStatus), changedBy, now, notes)
  }

  /**
   * Any status may follow any other. PICKED_UP stamps the pickup time,
   * DELIVERED the delivery time and CANCELLED the cancellation time (and
   * the reason, when notes are given); every other status stamps nothing,
   * and nothing but the status and that stamp changes.
   */
  lemma StatusChangeEffects(r: OrderRecord, toStatus: OrderStatus, notes: Option<string>, now: DateTime)
    ensures var a := StatusChanged(r, toStatus, notes, now);
      && a.status == Some(toStatus)
      && a.stamps.actualPickupTime == (if toStatus == PickedUp then Some(now) else r.stamps.actualPickupTime)
      && a.stamps.actualDeliveryTime == (if toStatus == Delivered then Some(now) else r.stamps.actualDeliveryTime)
      && a.stamps.cancelledAt == (if toStatus == Cancelled then Some(now) else r.stamps.cancelledAt)
      && a.stamps.cancellationReason
         == (if toStatus == Cancelled && notes.Some? then notes else r.stamps.cancellationReason)
      && a.(status := r.status, stamps := r.stamps) == r
  {
  }

  /** A status change as updateDeliveryStatus receives it, with the time it happens. */
  datatype StatusChange = StatusChange(
    fromStatus: Option<OrderStatus>,
    toStatus: OrderStatus,
    changedBy: Option<Uuid>,
    notes: Option<string>,
    at: DateTime)

  /** An order after a series of status changes. */
  function Replay(r: OrderRecord, changes: seq<StatusChange>): OrderRecord
    decreases |changes|
  {
    if changes == [] then r
    else
      var last := changes[|changes| - 1];
      StatusChanged(Replay(r, changes[..|changes| - 1]), last.toStatus, last.notes, last.at)
  }

  /** The history rows a series of status changes appends. */
  function EntriesOf(deliveryId: Uuid, r: OrderRecord, changes: seq<StatusChange>): (h: seq<HistoryEntry>)
    ensures |h| == |changes|
    decreases |changes|
  {
    if changes == [] then []
    else
      var init := changes[..|changes| - 1];
      var last := changes[|changes| - 1];
      EntriesOf(deliveryId, r, init)
      + [EntryFor(deliveryId, Replay(r, init).status, last.fromStatus, last.toStatus, last.changedBy, last.notes, last.at)]
  }

  /**
   * When callers leave the from-status to the service, the history is a
   * chain: each row starts where the previous one ended, the first starts
   * at the order's status, and the last ends at the order's current status.
   */
  lemma {:induction false} HistoryIsAChain(deliveryId: Uuid, r: OrderRecord, changes: seq<StatusChange>)
    requires forall i :: 0 <= i < |changes| ==> changes[i].fromStatus.None?
    ensures var h := EntriesOf(deliveryId, r, changes);
      && (forall i :: 0 <= i < |h| ==> h[i].toStatus == Some(changes[i].toStatus))
      && (|h| > 0 ==> h[0].fromStatus == r.status && h[|h| - 1].toStatus == Replay(r, changes).status)
      && (forall i :: 0 < i < |h| ==> h[i].fromStatus == h[i - 1].toStatus)
    decreases |changes|
  {
    if changes != [] {
      var init := changes[..|changes| - 1];
      assert forall i :: 0 <= i < |init| ==> init[i] == changes[i];
      HistoryIsAChain(deliveryId, r, init);
      var h := EntriesOf(deliveryId, r, changes);
      assert h[..|h| - 1] == EntriesOf(deliveryId, r, init);
      if init != [] {
        assert h[|h| - 2] == EntriesOf(deliveryId, r, init)[|init| - 1];
      }
    }
  }

  /** The time of the last change to PICKED_UP, or `before` when there is none. */
  function LastPickupTime(before: Option<DateTime>, changes: seq<StatusChange>): (t: Option<DateTime>)
    ensures t != before ==> exists i :: 0 <= i < |changes| && changes[i].toStatus == PickedUp && t == Some(changes[i].at)
    decreases |changes|
  {
    if changes == [] then before
    else if changes[|changes| - 1].toStatus == PickedUp then Some(changes[|changes| - 1].at)
    else
      var init := changes[..|changes| - 1];
      var t := LastPickupTime(before, init);
      assert forall i :: 0 <= i < |init| ==> init[i] == changes[i];
      t
  }

  /** Unlike an invoice's sentAt, the pickup time is overwritten: it is that of the last PICKED_UP change. */
  lemma {:induction false} PickupTimeIsLastPickup(r: OrderRecord, changes: seq<StatusChange>)
    ensures Replay(r, changes).stamps.actualPickupTime == LastPickupTime(r.stamps.actualPickupTime, changes)
    decreases |changes|
  {
    if changes != [] {
      PickupTimeIsLastPickup(r, changes[..|changes| - 1]);
    }
  }

  class DeliveryOrder {
    var id: Option<Uuid>
    var orderNumber: Option<string>
    var customerId: Option<Uuid>
    var details: OrderDetails
    var status: Option<OrderStatus>
    var stamps: Stamps
    var assignedDriverId: Option<Uuid>
    var assignedAt: Option<DateTime>
    var createdBy: Option<Uuid>

    /** A new, unsaved order (DeliveryOrder.builder()...build()). */
    constructor(customerId: Option<Uuid>, details: OrderDetails, createdBy: Option<Uuid>)
      ensures id == None
      ensures Record() == OrderRecord(None, customerId, details, None, NoStamps, None, None, createdBy)
    {
      id := None;
      orderNumber := None;
      this.customerId := customerId;
      this.details := details;
      status := None;
      stamps := NoStamps;
      assignedDriverId := None;
      assignedAt := None;
      this.createdBy := createdBy;
    }

    function Record(): OrderRecord
      reads this
    {
      OrderRecord(orderNumber, customerId, details, status, stamps, assignedDriverId, assignedAt, createdBy)
    }
  }

  class DeliveryOrderService {
    var orders: map<Uuid, DeliveryOrder>
    var history: seq<HistoryEntry>

    /** Every stored order carries the id it is stored under (so no order is stored twice). */
    ghost predicate Valid()
      reads this, orders.Values
    {
      forall k | k in orders :: orders[k].id == Some(k)
    }

    constructor()
      ensures Valid() && orders == map[] && history == []
    {
      orders := map[];
      history := [];
    }

    /** An order without an id is not in the table. */
    lemma NotStored(order: DeliveryOrder)
      requires Valid() && order.id == None
      ensures forall k :: k in orders ==> orders[k] != order
    {
    }

    /**
     * createDeliveryOrder, with the generated order number, the id the
     * database assigns and the clock as parameters: the order is stored as
     * CREATED, and one history row from no status to CREATED is appended.
     */
    method CreateDeliveryOrder(order: DeliveryOrder, orderNumber: string, newId: Uuid, now: DateTime)
      returns (saved: DeliveryOrder)
      requires Valid() && newId !in orders && order.id == None
      modifies this, order
      ensures Valid()
      ensures saved == order && order.id == Some(newId) && orders == old(orders)[newId := order]
      ensures order.Record() == old(order.Record()).(orderNumber := Some(orderNumber), status := Some(Created))
      ensures history == old(history) + [HistoryEntry(Some(newId), None, Some(Created), order.createdBy, now, Some(CreatedNote))]
    {
      NotStored(order);
      order.orderNumber := Some(orderNumber);
      order.status := Some(Created);
      order.id := Some(newId);
      orders := orders[newId := order];
      history := history + [HistoryEntry(Some(newId), None, Some(Created), order.createdBy, now, Some(CreatedNote))];
      saved := order;
    }

    /**
     * updateDeliveryStatus: sets the status whatever it was, stamps the
     * time the new status calls for, and appends one history row. A null
     * target status makes the switch throw, so nothing changes.
     */
    method UpdateDeliveryStatus(deliveryId: Uuid, fromStatus: Option<OrderStatus>, toStatus: Option<OrderStatus>,
                                changedBy: Option<Uuid>, notes: Option<string>, now: DateTime)
      returns (res: Result<DeliveryOrder>)
      requires Valid()
      modifies this, if deliveryId in orders then {orders[deliveryId]} else {}
      ensures Valid() && orders == old(orders)
      ensures deliveryId !in orders ==> res == Failure(NotFound("Delivery order")) && history == old(history)
      ensures deliveryId in orders && toStatus.None? ==>
        && res == Failure(NullValue("toStatus")) && history == old(history)
        && orders[deliveryId].Record() == old(orders[deliveryId].Record())
      ensures deliveryId in orders && toStatus.Some? ==>
        var o := orders[deliveryId];
        && res == Success(o) && o.id == old(o.id)
        && o.Record() == StatusChanged(old(o.Record()), toStatus.value, notes, now)
        && history == old(history) + [EntryFor(deliveryId, old(o.status), fromStatus, toStatus.value, changedBy, notes, now)]
    {
      if deliveryId !in orders {
        return Failure(NotFound("Delivery order"));
      }
      if toStatus.None? {
        return Failure(NullValue("toStatus"));
      }
      var order := orders[deliveryId];
      var previousStatus := order.status;
      order.status := toStatus;
      match toStatus.value {
        case PickedUp =>
          order.stamps := order.stamps.(actualPickupTime := Some(now));
        case Delivered =>
          order.stamps := order.stamps.(actualDeliveryTime := Some(now));
        case Cancelled =>
          order.stamps := order.stamps.(cancelledAt := Some(now));
          if notes.Some? {
            order.stamps := order.stamps.(cancellationReason := notes);
          }
        case _ =>
      }
      history := history + [EntryFor(deliveryId, previousStatus, fromStatus, toStatus.value, changedBy, notes, now)];
      res := Success(order);
    }

    /**
     * assignDriver: records the driver and the assignment time, and moves a
     * CREATED order to ASSIGNED through updateDeliveryStatus, which changes
     * the same order object (one managed instance per transaction).
     */
    method AssignDriver(deliveryId: Uuid, driverId: Option<Uuid>, assignedBy: Option<Uuid>, now: DateTime)
      returns (res: Result<DeliveryOrder>)
      requires Valid()
      modifies this, if deliveryId in orders then {orders[deliveryId]} else {}
      ensures Valid() && orders == old(orders)
      ensures deliveryId !in orders ==> res == Failure(NotFound("Delivery order")) && history == old(history)
      ensures deliveryId in orders ==>
        var o := orders[deliveryId];
        var withDriver := old(o.Record()).(assignedDriverId := driverId, assignedAt := Some(now));
        && res == Success(o) && o.id == old(o.id)
        && (old(o.status) == Some(Created) ==>
              && o.Record() == StatusChanged(withDriver, Assigned, Some(AssignedNote), now)
              && history == old(history)
                 + [EntryFor(deliveryId, Some(Created), Some(Created), Assigned, assignedBy, Some(AssignedNote), now)])
        && (old(o.status) != Some(Created) ==> o.Record() == withDriver && history == old(history))
    {
      if deliveryId !in orders {
        return Failure(NotFound("Delivery order"));
      }
      var order := orders[deliveryId];
      order.assignedDriverId := driverId;
      order.assignedAt := Some(now);
      if order.status == Some(Created) {
        var updated := UpdateDeliveryStatus(deliveryId, Some(Created), Some(Assigned), assignedBy, Some(AssignedNote), now);
      }
      res := Success(order);
    }

    /**
     * updateDeliveryOrder: copies the endpoints, the package and the
     * requested times; the order number, the customer, the status, the
     * stamps and the assignment stay as they were.
     */
    method UpdateDeliveryOrder(id: Uuid, details: OrderDetails) returns (res: Result<DeliveryOrder>)
      requires Valid()
      modifies if id in orders then {orders[id]} else {}
      ensures Valid() && orders == old(orders)
      ensures id !in orders ==> res == Failure(NotFound("Delivery order"))
      ensures id in orders ==>
        var o := orders[id];
        && res == Success(o) && o.id == old(o.id)
        && o.Record() == old(o.Record()).(details := details)
    {
      if id !in orders {
        return Failure(NotFound("Delivery order"));
      }
      var order := orders[id];
      order.details := details;
      res := Success(order);
    }

    /** deleteDeliveryOrder: removes the order; its history rows stay. */
    method DeleteDeliveryOrder(id: Uuid) returns (res: Outcome)
      requires Valid()
      modifies this
      ensures Valid() && history == old(history)
      ensures id !in old(orders) ==> res == Failed(NotFound("Delivery order")) && orders == old(orders)
      ensures id in old(orders) ==> res == Done && orders == old(orders) - {id}
    {
      if id !in orders {
        return Failed(NotFound("Delivery order"));
      }
      orders := orders - {id};
      res := Done;
    }
  }
}
