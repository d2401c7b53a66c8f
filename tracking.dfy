/**
 * The tracking service's DeliveryRouteService: delivery routes as documents
 * in a collection keyed by id. The service is not transactional; a call
 * that throws before its save leaves the stored documents as they were.
 * The store stamps createdAt on the first save and updatedAt on every save.
 */
module Tracking {
  import opened Wrappers
  import opened Common

  /** A document id. */
  type RouteId = string

  /** DeliveryRoute.RouteStatus. */
  datatype RouteStatus = Planned | InProgress | Completed | Cancelled

  /** DeliveryRoute.Location. */
  datatype Location = Location(name: Option<string>, address: Option<string>, latitude: Option<real>, longitude: Option<real>)

  /** DeliveryRoute.LocationPoint: one reading along the route. */
  datatype LocationPoint = LocationPoint(
    latitude: Option<real>,
    longitude: Option<real>,
    timestamp: Option<DateTime>,
    speed: Option<real>,
    heading: Option<real>)

  /** The LocationUpdate document of the tracking service, as a driver's device reports it. */
  datatype LocationUpdate = LocationUpdate(
    driverId: Option<Uuid>,
    deliveryId: Option<Uuid>,
    latitude: Option<real>,
    longitude: Option<real>,
    accuracy: Option<real>,
    speed: Option<real>,
    heading: Option<real>,
    timestamp: Option<DateTime>,
    batteryLevel: Option<int>,
    deviceId: Option<string>)

  /** The route point built from an update: its position, time, speed and heading. */
  function PointOf(u: LocationUpdate): LocationPoint {
    LocationPoint(u.latitude, u.longitude, u.timestamp, u.speed, u.heading)
  }

  /** The fields createRoute fills from its arguments; nothing later changes them. */
  datatype RoutePlan = RoutePlan(
    deliveryId: Option<Uuid>,
    driverId: Option<Uuid>,
    pickupLocation: Option<Location>,
    dropoffLocation: Option<Location>,
    estimatedDistance: Option<real>,
    estimatedDuration: Option<int>)

  /** The state of a route apart from its id and its last-modified stamp. */
  datatype RouteRecord = RouteRecord(
    plan: RoutePlan,
    routePoints: Option<seq<LocationPoint>>,
    actualDistance: Option<real>,
    actualDuration: Option<int>,
    status: Option<RouteStatus>,
    startedAt: Option<DateTime>,
    completedAt: Option<DateTime>,
    createdAt: Option<DateTime>)

  /** The sort order `createdAt: -1` reverses: a missing timestamp sorts before every timestamp. */
  predicate NotLaterThan(a: Option<DateTime>, b: Option<DateTime>) {
    a.None? || (b.Some? && Instant(a.value) <= Instant(b.value))
  }

  /**
   * A result of findLatestByDriverIdAndStatus: a candidate whose createdAt
   * no other candidate exceeds. Between routes created at the same instant
   * the store may return either.
   */
  predicate IsLatestIn(k: RouteId, candidates: set<RouteId>, created: map<RouteId, Option<DateTime>>) {
    k in candidates && k in created
    && forall j :: j in candidates && j in created ==> NotLaterThan(created[j], created[k])
  }

  /** Every non-empty set of candidates has a latest one. */
  lemma {:induction false} LatestExists(candidates: set<RouteId>, created: map<RouteId, Option<DateTime>>) returns (m: RouteId)
    requires candidates != {} && candidates <= created.Keys
    ensures IsLatestIn(m, candidates, created)
    decreases candidates
  {
    var x :| x in candidates;
    if candidates == {x} {
      m := x;
    } else {
      var rest := LatestExists(candidates - {x}, created);
      if NotLaterThan(created[x], created[rest]) {
        m := rest;
      } else {
        m := x;
      }
    }
  }

  /** findLatestByDriverIdAndStatus on a non-empty set of candidates: one of the latest. */
  method Latest(candidates: set<RouteId>, created: map<RouteId, Option<DateTime>>) returns (k: RouteId)
    requires candidates != {} && candidates <= created.Keys
    ensures IsLatestIn(k, candidates, created)
  {
    ghost var m := LatestExists(candidates, created);
    k :| IsLatestIn(k, candidates, created);
  }

  /** Two latest candidates were created at the same instant. */
  lemma LatestIsUniqueUpToTies(k1: RouteId, k2: RouteId, candidates: set<RouteId>, created: map<RouteId, Option<DateTime>>)
    requires IsLatestIn(k1, candidates, created) && IsLatestIn(k2, candidates, created)
    ensures created[k1].None? <==> created[k2].None?
    ensures created[k1].Some? ==> Instant(created[k1].value) == Instant(created[k2].value)
  {
  }

  /** The status and timestamps updateRouteStatus leaves: startedAt only when none was set, completedAt on every COMPLETED. */
  function StatusSet(r: RouteRecord, status: Option<RouteStatus>, now: DateTime): RouteRecord {
    if status == Some(InProgress) && r.startedAt.None? then r.(status := status, startedAt := Some(now))
    else if status == Some(Completed) then r.(status := status, completedAt := Some(now))
    else r.(status := status)
  }

  /** The route finalizeRoute leaves: the actual distance and duration, COMPLETED, and the completion time. */
  function Finalized(r: RouteRecord, actualDistance: Option<real>, actualDuration: Option<int>, now: DateTime): RouteRecord {
    r.(actualDistance := actualDistance, actualDuration := actualDuration, status := Some(Completed), completedAt := Some(now))
  }

  /**
   * The route addLocationPointToRoute leaves: a route not yet in progress
   * is moved to IN_PROGRESS and its start time is set; then the point is
   * appended.
   */
  function PointAdded(r: RouteRecord, point: LocationPoint, now: DateTime): RouteRecord
    requires r.routePoints.Some?
  {
    var promoted := if r.status == Some(InProgress) then r else r.(status := Some(InProgress), startedAt := Some(now));
    promoted.(routePoints := Some(r.routePoints.value + [point]))
  }

  /**
   * Any status may follow any other and a null status is stored as null.
   * IN_PROGRESS stamps the start time only when the route has none;
   * COMPLETED stamps the completion time every time; nothing else changes.
   */
  lemma StatusSetEffects(r: RouteRecord, status: Option<RouteStatus>, now: DateTime)
    ensures var a := StatusSet(r, status, now);
      && a.status == status
      && a.startedAt == (if status == Some(InProgress) && r.startedAt.None? then Some(now) else r.startedAt)
      && a.completedAt == (if status == Some(Completed) then Some(now) else r.completedAt)
      && a.(status := r.status, startedAt := r.startedAt, completedAt := r.completedAt) == r
  {
  }

  /** finalizeRoute is a status update to COMPLETED that also records the actual distance and duration. */
  lemma FinalizeIsCompletion(r: RouteRecord, actualDistance: Option<real>, actualDuration: Option<int>, now: DateTime)
    ensures Finalized(r, actualDistance, actualDuration, now)
            == StatusSet(r, Some(Completed), now).(actualDistance := actualDistance, actualDuration := actualDuration)
  {
  }

  /**
   * Adding a point appends exactly that point and keeps the earlier ones;
   * afterwards the route is in progress. A route already in progress keeps
   * its start time, any other has it set to now; nothing else changes.
   */
  lemma PointAddedEffects(r: RouteRecord, point: LocationPoint, now: DateTime)
    requires r.routePoints.Some?
    ensures var a := PointAdded(r, point, now);
      var before := r.routePoints.value;
      && a.routePoints.Some? && |a.routePoints.value| == |before| + 1
      && a.routePoints.value[..|before|] == before && a.routePoints.value[|before|] == point
      && a.status == Some(InProgress)
      && a.startedAt == (if r.status == Some(InProgress) then r.startedAt else Some(now))
      && a.(routePoints := r.routePoints, status := r.status, startedAt := r.startedAt) == r
  {
  }

  /**
   * Promoting a planned route by a point overwrites a start time it already
   * has, where a status update to IN_PROGRESS keeps it.
   */
  lemma PromotionOverwritesStart(r: RouteRecord, point: LocationPoint, now: DateTime)
    requires r.status == Some(Planned) && r.routePoints.Some? && r.startedAt.Some? && r.startedAt != Some(now)
    ensures PointAdded(r, point, now).startedAt == Some(now)
    ensures StatusSet(r, Some(InProgress), now).startedAt == r.startedAt
    ensures PointAdded(r, point, now).startedAt != StatusSet(r, Some(InProgress), now).startedAt
  {
  }

  /** A status update as updateRouteStatus receives it, with the time it happens. */
  datatype StatusUpdate = StatusUpdate(status: Option<RouteStatus>, at: DateTime)

  /** A route after a series of status updates, in order. */
  function ReplayStatus(r: RouteRecord, updates: seq<StatusUpdate>): RouteRecord
    decreases |updates|
  {
    if updates == [] then r
    else ReplayStatus(StatusSet(r, updates[0].status, updates[0].at), updates[1..])
  }

  /** The start time a series of status updates leaves: the one already set, else that of the first IN_PROGRESS update. */
  function FirstStart(before: Option<DateTime>, updates: seq<StatusUpdate>): (t: Option<DateTime>)
    ensures before.Some? ==> t == before
    ensures before.None? && t.Some? ==>
      exists i :: (0 <= i < |updates| && updates[i].status == Some(InProgress) && t == Some(updates[i].at)
        && forall j :: 0 <= j < i ==> updates[j].status != Some(InProgress))
    ensures before.None? && t.None? ==> forall i :: 0 <= i < |updates| ==> updates[i].status != Some(InProgress)
    decreases |updates|
  {
    if before.Some? || updates == [] then before
    else if updates[0].status == Some(InProgress) then Some(updates[0].at)
    else
      var t := FirstStart(None, updates[1..]);
      assert forall i :: 1 <= i < |updates| ==> updates[i] == updates[1..][i - 1];
      t
  }

  /** The completion time a series of status updates leaves: that of the last COMPLETED update, else the one already set. */
  function LastCompletion(before: Option<DateTime>, updates: seq<StatusUpdate>): Option<DateTime>
    decreases |updates|
  {
    if updates == [] then before
    else LastCompletion(if updates[0].status == Some(Completed) then Some(updates[0].at) else before, updates[1..])
  }

  /** Update `j` is a COMPLETED one with no COMPLETED after it. */
  predicate IsLastCompletion(j: int, updates: seq<StatusUpdate>) {
    0 <= j < |updates| && updates[j].status == Some(Completed)
    && forall l :: j < l < |updates| ==> updates[l].status != Some(Completed)
  }

  /** Without a COMPLETED update the completion time stays; with one it is that of the last. */
  lemma {:induction false} LastCompletionIsLast(before: Option<DateTime>, updates: seq<StatusUpdate>)
    ensures (forall i :: 0 <= i < |updates| ==> updates[i].status != Some(Completed)) ==> LastCompletion(before, updates) == before
    ensures (exists i :: 0 <= i < |updates| && updates[i].status == Some(Completed)) ==>
      exists j :: IsLastCompletion(j, updates) && LastCompletion(before, updates) == Some(updates[j].at)
    decreases |updates|
  {
    if updates != [] {
      var rest := updates[1..];
      var next := if updates[0].status == Some(Completed) then Some(updates[0].at) else before;
      LastCompletionIsLast(next, rest);
      assert forall i :: 1 <= i < |updates| ==> updates[i] == rest[i - 1];
      if exists i :: 0 <= i < |rest| && rest[i].status == Some(Completed) {
        var j :| IsLastCompletion(j, rest) && LastCompletion(next, rest) == Some(rest[j].at);
        assert IsLastCompletion(j + 1, updates);
      } else if updates[0].status == Some(Completed) {
        assert IsLastCompletion(0, updates);
      }
    }
  }

  /** Only the first IN_PROGRESS of a route without a start time sets it; later ones leave it. */
  lemma {:induction false} StartedAtIsFirstStart(r: RouteRecord, updates: seq<StatusUpdate>)
    ensures ReplayStatus(r, updates).startedAt == FirstStart(r.startedAt, updates)
    decreases |updates|
  {
    if updates != [] {
      StartedAtIsFirstStart(StatusSet(r, updates[0].status, updates[0].at), updates[1..]);
    }
  }

  /** Every COMPLETED overwrites the completion time, so it is that of the last one. */
  lemma {:induction false} CompletedAtIsLastCompletion(r: RouteRecord, updates: seq<StatusUpdate>)
    ensures ReplayStatus(r, updates).completedAt == LastCompletion(r.completedAt, updates)
    decreases |updates|
  {
    if updates != [] {
      CompletedAtIsLastCompletion(StatusSet(r, updates[0].status, updates[0].at), updates[1..]);
    }
  }

  /** Status updates change only the status and the two timestamps: the plan, the points and the actuals stay. */
  lemma {:induction false} ReplayKeepsTheRest(r: RouteRecord, updates: seq<StatusUpdate>)
    ensures var a := ReplayStatus(r, updates);
      a.(status := r.status, startedAt := r.startedAt, completedAt := r.completedAt) == r
    ensures updates != [] ==> ReplayStatus(r, updates).status == updates[|updates| - 1].status
    decreases |updates|
  {
    if updates != [] {
      var next := StatusSet(r, updates[0].status, updates[0].at);
      ReplayKeepsTheRest(next, updates[1..]);
    }
  }

  class DeliveryRoute {
    var id: Option<RouteId>
    var plan: RoutePlan
    var routePoints: Option<seq<LocationPoint>>
    var actualDistance: Option<real>
    var actualDuration: Option<int>
    var status: Option<RouteStatus>
    var startedAt: Option<DateTime>
    var completedAt: Option<DateTime>
    var createdAt: Option<DateTime>
    var updatedAt: Option<DateTime>

    /** DeliveryRoute.builder()...build(): the fields not given are null, the point list included. */
    constructor(plan: RoutePlan, status: Option<RouteStatus>)
      ensures id == None && updatedAt == None
      ensures Record() == RouteRecord(plan, None, None, None, status, None, None, None)
    {
      id := None;
      this.plan := plan;
      routePoints := None;
      actualDistance := None;
      actualDuration := None;
      this.status := status;
      startedAt := None;
      completedAt := None;
      createdAt := None;
      updatedAt := None;
    }

    function Record(): RouteRecord
      reads this
    {
      RouteRecord(plan, routePoints, actualDistance, actualDuration, status, startedAt, completedAt, createdAt)
    }
  }

  /** The query of findLatestByDriverIdAndStatus: same driver (a null driver matches a null one) and same status. */
  predicate Matches(route: DeliveryRoute, driverId: Option<Uuid>, status: RouteStatus)
    reads route
  {
    route.plan.driverId == driverId && route.status == Some(status)
  }

  class DeliveryRouteService {
    var routes: map<RouteId, DeliveryRoute>

    /** Every stored route carries the id it is stored under (so no route is stored twice). */
    ghost predicate Valid()
      reads this, routes.Values
    {
      forall k | k in routes :: routes[k].id == Some(k)
    }

    constructor()
      ensures Valid() && routes == map[]
    {
      routes := map[];
    }

    /** The ids of the routes the query matches. */
    function Candidates(driverId: Option<Uuid>, status: RouteStatus): set<RouteId>
      reads this, routes.Values
    {
      set k | k in routes && Matches(routes[k], driverId, status)
    }

    /** The creation time of every stored route. */
    function CreatedAtOf(): map<RouteId, Option<DateTime>>
      reads this, routes.Values
    {
      map k | k in routes :: routes[k].createdAt
    }

    /** The routes addLocationPointToRoute may choose: the latest in progress, else the latest planned. */
    ghost predicate Picks(k: RouteId, driverId: Option<Uuid>)
      reads this, routes.Values
    {
      var active := Candidates(driverId, InProgress);
      if active != {} then IsLatestIn(k, active, CreatedAtOf())
      else IsLatestIn(k, Candidates(driverId, Planned), CreatedAtOf())
    }

    /** A route without an id is not in the collection. */
    lemma NotStored(route: DeliveryRoute)
      requires Valid() && route.id == None
      ensures forall k :: k in routes ==> routes[k] != route
    {
    }

    /** Saving a new route: the store assigns the id and stamps both audit times. */
    method Insert(route: DeliveryRoute, newId: RouteId, now: DateTime)
      requires Valid() && newId !in routes && route.id == None
      modifies this, route
      ensures Valid() && routes == old(routes)[newId := route]
      ensures route.id == Some(newId) && route.updatedAt == Some(now)
      ensures route.Record() == old(route.Record()).(createdAt := Some(now))
    {
      NotStored(route);
      route.id := Some(newId);
      route.createdAt := Some(now);
      route.updatedAt := Some(now);
      routes := routes[newId := route];
    }

    /**
     * createRoute as the source writes it, with the id the store assigns
     * and the clock as parameters: a PLANNED route with the given plan and
     * no point list at all.
     */
    method CreateRouteAsWritten(deliveryId: Option<Uuid>, driverId: Option<Uuid>,
                                pickupLocation: Option<Location>, dropoffLocation: Option<Location>,
                                estimatedDistance: Option<real>, estimatedDuration: Option<int>,
                                newId: RouteId, now: DateTime)
      returns (route: DeliveryRoute)
      requires Valid() && newId !in routes
      modifies this
      ensures Valid() && fresh(route) && routes == old(routes)[newId := route]
      ensures route.id == Some(newId) && route.updatedAt == Some(now)
      ensures route.Record() == RouteRecord(
        RoutePlan(deliveryId, driverId, pickupLocation, dropoffLocation, estimatedDistance, estimatedDuration),
        None, None, None, Some(Planned), None, None, Some(now))
    {
      route := new DeliveryRoute(
        RoutePlan(deliveryId, driverId, pickupLocation, dropoffLocation, estimatedDistance, estimatedDuration),
        Some(Planned));
      Insert(route, newId, now);
    }

    /** createRoute as evidently intended: the same PLANNED route, with an empty point list. */
    method CreateRoute(deliveryId: Option<Uuid>, driverId: Option<Uuid>,
                       pickupLocation: Option<Location>, dropoffLocation: Option<Location>,
                       estimatedDistance: Option<real>, estimatedDuration: Option<int>,
                       newId: RouteId, now: DateTime)
      returns (route: DeliveryRoute)
      requires Valid() && newId !in routes
      modifies this
      ensures Valid() && fresh(route) && routes == old(routes)[newId := route]
      ensures route.id == Some(newId) && route.updatedAt == Some(now)
      ensures route.Record() == RouteRecord(
        RoutePlan(deliveryId, driverId, pickupLocation, dropoffLocation, estimatedDistance, estimatedDuration),
        Some([]), None, None, Some(Planned), None, None, Some(now))
    {
      route := new DeliveryRoute(
        RoutePlan(deliveryId, driverId, pickupLocation, dropoffLocation, estimatedDistance, estimatedDuration),
        Some(Planned));
      route.routePoints := Some([]);
      Insert(route, newId, now);
    }

    /** updateRouteStatus, with the clock as a parameter. */
    method UpdateRouteStatus(routeId: RouteId, status: Option<RouteStatus>, now: DateTime) returns (res: Result<DeliveryRoute>)
      requires Valid()
      modifies if routeId in routes then {routes[routeId]} else {}
      ensures Valid() && routes == old(routes)
      ensures routeId !in routes ==> res == Failure(NotFound("Route"))
      ensures routeId in routes ==>
        var r := routes[routeId];
        && res == Success(r) && r.id == old(r.id) && r.updatedAt == Some(now)
        && r.Record() == StatusSet(old(r.Record()), status, now)
    {
      if routeId !in routes {
        return Failure(NotFound("Route"));
      }
      var route := routes[routeId];
      route.status := status;
      if status == Some(InProgress) && route.startedAt.None? {
        route.startedAt := Some(now);
      } else if status == Some(Completed) {
        route.completedAt := Some(now);
      }
      route.updatedAt := Some(now);
      res := Success(route);
    }

    /** finalizeRoute, with the clock as a parameter. */
    method FinalizeRoute(routeId: RouteId, actualDistance: Option<real>, actualDuration: Option<int>, now: DateTime)
      returns (res: Result<DeliveryRoute>)
      requires Valid()
      modifies if routeId in routes then {routes[routeId]} else {}
      ensures Valid() && routes == old(routes)
      ensures routeId !in routes ==> res == Failure(NotFound("Route"))
      ensures routeId in routes ==>
        var r := routes[routeId];
        && res == Success(r) && r.id == old(r.id) && r.updatedAt == Some(now)
        && r.Record() == Finalized(old(r.Record()), actualDistance, actualDuration, now)
    {
      if routeId !in routes {
        return Failure(NotFound("Route"));
      }
      var route := routes[routeId];
      route.actualDistance := actualDistance;
      route.actualDuration := actualDuration;
      route.status := Some(Completed);
      route.completedAt := Some(now);
      route.updatedAt := Some(now);
      res := Success(route);
    }

    /**
     * The two lookups of addLocationPointToRoute: the driver's latest route
     * in progress, else the driver's latest planned route, else none.
     */
    method ChooseRoute(driverId: Option<Uuid>) returns (k: Option<RouteId>)
      ensures k.None? <==> Candidates(driverId, InProgress) == {} && Candidates(driverId, Planned) == {}
      ensures k.Some? ==> k.value in routes && Picks(k.value, driverId)
    {
      var created := CreatedAtOf();
      var active := Candidates(driverId, InProgress);
      if active != {} {
        var latest := Latest(active, created);
        return Some(latest);
      }
      var planned := Candidates(driverId, Planned);
      if planned != {} {
        var latest := Latest(planned, created);
        return Some(latest);
      }
      return None;
    }

    /**
     * addLocationPointToRoute, with the clock as a parameter. The route is
     * chosen by the update's driver alone; the delivery id is not used.
     * With no route in progress or planned for the driver the result is
     * null. A chosen route with a null point list makes the append throw
     * before the save, so nothing is stored.
     */
    method AddLocationPointToRoute(deliveryId: Option<Uuid>, update: LocationUpdate, now: DateTime)
      returns (res: Result<Option<DeliveryRoute>>)
      requires Valid()
      modifies routes.Values
      ensures Valid() && routes == old(routes)
      ensures res == Success(None) <==>
        old(Candidates(update.driverId, InProgress)) == {} && old(Candidates(update.driverId, Planned)) == {}
      ensures res.Failure? ==>
        && res == Failure(NullValue("routePoints"))
        && (exists k :: (old(Picks(k, update.driverId)) && old(routes[k].routePoints).None?))
      ensures !(res.Success? && res.value.Some?) ==>
        forall k :: k in routes ==> routes[k].Record() == old(routes[k].Record()) && routes[k].updatedAt == old(routes[k].updatedAt)
      ensures res.Success? && res.value.Some? ==>
        exists k :: (
          && old(Picks(k, update.driverId)) && old(routes[k].routePoints).Some?
          && res.value.value == routes[k] && routes[k].updatedAt == Some(now)
          && routes[k].Record() == PointAdded(old(routes[k].Record()), PointOf(update), now)
          && forall j :: j in routes && j != k ==>
               routes[j].Record() == old(routes[j].Record()) && routes[j].updatedAt == old(routes[j].updatedAt))
    {
      var chosen := ChooseRoute(update.driverId);
      if chosen.None? {
        return Success(None);
      }
      var k := chosen.value;
      var route := routes[k];
      if route.routePoints.None? {
        return Failure(NullValue("routePoints"));
      }
      AppendPoint(route, PointOf(update), now);
      assert routes[k].Record() == PointAdded(old(routes[k].Record()), PointOf(update), now);
      res := Success(Some(route));
    }
  }

  /**
   * The update and save of addLocationPointToRoute on the chosen route: a
   * planned route is moved to IN_PROGRESS with the start time set, the
   * point is appended, and the save stamps updatedAt.
   */
  method AppendPoint(route: DeliveryRoute, point: LocationPoint, now: DateTime)
    requires route.routePoints.Some? && route.status in {Some(InProgress), Some(Planned)}
    modifies route
    ensures route.id == old(route.id) && route.updatedAt == Some(now)
    ensures route.Record() == PointAdded(old(route.Record()), point, now)
  {
    if route.status == Some(Planned) {
      route.status := Some(InProgress);
      route.startedAt := Some(now);
    }
    route.routePoints := Some(route.routePoints.value + [point]);
    route.updatedAt := Some(now);
  }

  /** The driver's route on an otherwise empty collection, created as the source creates it, cannot take its first point. */
  method FirstPointAsWritten(deliveryId: Option<Uuid>, pickupLocation: Option<Location>, dropoffLocation: Option<Location>,
                             estimatedDistance: Option<real>, estimatedDuration: Option<int>,
                             update: LocationUpdate, newId: RouteId, createdAt: DateTime, now: DateTime)
    returns (error: Option<Error>)
    ensures error == Some(NullValue("routePoints"))
  {
    var service := new DeliveryRouteService();
    var route := service.CreateRouteAsWritten(deliveryId, update.driverId, pickupLocation, dropoffLocation,
                                              estimatedDistance, estimatedDuration, newId, createdAt);
    assert service.Candidates(update.driverId, InProgress) == {};
    assert service.Candidates(update.driverId, Planned) == {newId};
    var res := service.AddLocationPointToRoute(deliveryId, update, now);
    error := if res.Failure? then Some(res.error) else None;
  }

  /** The same route created with an empty point list takes the point and is in progress from now. */
  method FirstPointCorrected(deliveryId: Option<Uuid>, pickupLocation: Option<Location>, dropoffLocation: Option<Location>,
                             estimatedDistance: Option<real>, estimatedDuration: Option<int>,
                             update: LocationUpdate, newId: RouteId, createdAt: DateTime, now: DateTime)
    returns (points: Option<seq<LocationPoint>>, status: Option<RouteStatus>, startedAt: Option<DateTime>)
    ensures points == Some([PointOf(update)]) && status == Some(InProgress) && startedAt == Some(now)
  {
    var service := new DeliveryRouteService();
    var route := service.CreateRoute(deliveryId, update.driverId, pickupLocation, dropoffLocation,
                                     estimatedDistance, estimatedDuration, newId, createdAt);
    assert service.Candidates(update.driverId, InProgress) == {};
    assert service.Candidates(update.driverId, Planned) == {newId};
    assert forall k :: service.Picks(k, update.driverId) ==> k == newId;
    ghost var before := route.Record();
    var res := service.AddLocationPointToRoute(deliveryId, update, now);
    assert res.Success? && res.value.Some?;
    assert route.Record() == PointAdded(before, PointOf(update), now);
    assert before.routePoints == Some([]) && before.status == Some(Planned);
    assert [] + [PointOf(update)] == [PointOf(update)];
    points := route.routePoints;
    status := route.status;
    startedAt := route.startedAt;
  }
}
