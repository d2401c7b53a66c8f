/**
 * The validity of the shared DeliveryRequestDto. Its pickup and dropoff
 * fields carry the same constraints, so they are grouped as two endpoints
 * of one shape.
 */
module DeliveryDtos {
  import opened Wrappers
  import opened Common
  import opened Constraints

  /** DeliveryRequestDto.Priority. */
  datatype Priority = Low | Normal | High | Urgent

  /** The pickup… or dropoff… fields of a request. */
  datatype Endpoint = Endpoint(
    name: Option<string>,
    address: Option<string>,
    city: Option<string>,
    postalCode: Option<string>,
    latitude: Option<real>,
    longitude: Option<real>,
    contactName: Option<string>,
    contactPhone: Option<string>,
    notes: Option<string>)

  datatype DeliveryRequestDto = DeliveryRequestDto(
    id: Option<Uuid>,
    customerId: Option<Uuid>,
    pickup: Endpoint,
    dropoff: Endpoint,
    priority: Option<Priority>,
    packageDescription: Option<string>,
    packageWeight: Option<real>,
    isMedicalSpecimen: Option<bool>,
    temperatureControlled: Option<bool>,
    requestedPickupTime: Option<DateTime>,
    estimatedDeliveryTime: Option<DateTime>)

  /** The constraints every endpoint's fields must meet. */
  predicate ValidEndpoint(e: Endpoint) {
    && NotBlank(e.name) && SizeAtMost(e.name, 255)
    && NotBlank(e.address) && SizeAtMost(e.address, 500)
    && NotBlank(e.city) && SizeAtMost(e.city, 100)
    && NotBlank(e.postalCode) && SizeAtMost(e.postalCode, 20)
    && AtLeast(e.latitude, -90.0) && AtMost(e.latitude, 90.0)
    && AtLeast(e.longitude, -180.0) && AtMost(e.longitude, 180.0)
    && SizeAtMost(e.contactName, 100) && SizeAtMost(e.contactPhone, 20) && SizeAtMost(e.notes, 1000)
  }

  /** Every constraint on the request holds. */
  predicate ValidRequest(d: DeliveryRequestDto) {
    && d.customerId.Some?
    && ValidEndpoint(d.pickup) && ValidEndpoint(d.dropoff)
    && d.priority.Some?
    && SizeAtMost(d.packageDescription, 1000)
    && Above(d.packageWeight, 0.0)
  }

  /** The no-argument constructor's request: a medical specimen, not temperature controlled. */
  function NoArgsRequest(): (d: DeliveryRequestDto)
    ensures d.isMedicalSpecimen == Some(true) && d.temperatureControlled == Some(false)
    ensures !ValidRequest(d)
  {
    var none := Endpoint(None, None, None, None, None, None, None, None, None);
    DeliveryRequestDto(None, None, none, none, None, None, None, Some(true), Some(false), None, None)
  }

  /** Pickup and dropoff follow the same rules: swapping them keeps a request valid or invalid. */
  lemma EndpointsAreSymmetric(d: DeliveryRequestDto)
    ensures ValidRequest(d) <==> ValidRequest(d.(pickup := d.dropoff, dropoff := d.pickup))
  {
  }

  /** Both endpoints of a valid request are named, and their coordinates, when given, lie on the globe (bounds included). */
  lemma ValidCoordinates(d: DeliveryRequestDto)
    requires ValidRequest(d)
    ensures forall e :: e in {d.pickup, d.dropoff} ==>
      && NotBlank(e.name)
      && (e.latitude.Some? ==> -90.0 <= e.latitude.value <= 90.0)
      && (e.longitude.Some? ==> -180.0 <= e.longitude.value <= 180.0)
  {
    // Unfolding ValidRequest and ValidEndpoint is the whole proof; the lemma states what validity guarantees.
  }

  /**
   * The package weight bound is strict: a weight of zero is refused, any
   * positive weight or none at all is accepted.
   */
  lemma PackageWeightStrict(d: DeliveryRequestDto)
    requires ValidRequest(d)
    ensures !ValidRequest(d.(packageWeight := Some(0.0)))
    ensures ValidRequest(d.(packageWeight := None))
    ensures forall w :: w > 0.0 ==> ValidRequest(d.(packageWeight := Some(w)))
  {
  }

  /** The poles and the antimeridian are valid coordinates; a null one is too. */
  lemma CoordinateBoundsInclusive(e: Endpoint)
    requires ValidEndpoint(e)
    ensures ValidEndpoint(e.(latitude := Some(90.0), longitude := Some(-180.0)))
    ensures ValidEndpoint(e.(latitude := None, longitude := None))
    ensures !ValidEndpoint(e.(latitude := Some(90.5)))
  {
  }
}
