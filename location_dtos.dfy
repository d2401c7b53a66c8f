/** The validity of the shared LocationUpdateDto, a driver's position report. */
module LocationDtos {
  import opened Wrappers
  import opened Common
  import opened Constraints

  datatype LocationUpdateDto = LocationUpdateDto(
    id: Option<Uuid>,
    driverId: Option<Uuid>,
    deliveryId: Option<Uuid>,
    latitude: Option<real>,
    longitude: Option<real>,
    accuracy: Option<real>,
    speed: Option<real>,
    heading: Option<real>,
    timestamp: Option<DateTime>,
    batteryLevel: Option<int>,
    deviceId: Option<string>)

  /** Every constraint on the update holds. */
  predicate ValidUpdate(u: LocationUpdateDto) {
    && u.driverId.Some?
    && u.latitude.Some? && AtLeast(u.latitude, -90.0) && AtMost(u.latitude, 90.0)
    && u.longitude.Some? && AtLeast(u.longitude, -180.0) && AtMost(u.longitude, 180.0)
    && AtLeast(u.accuracy, 0.0) && AtLeast(u.speed, 0.0)
    && AtLeast(u.heading, 0.0) && AtMost(u.heading, 360.0)
    && IntAtLeast(u.batteryLevel, 0) && IntAtMost(u.batteryLevel, 100)
    && SizeAtMost(u.deviceId, 100)
  }

  /** What a valid update guarantees about its values. */
  lemma ValidUpdateBounds(u: LocationUpdateDto)
    requires ValidUpdate(u)
    ensures u.driverId.Some?
    ensures -90.0 <= u.latitude.value <= 90.0 && -180.0 <= u.longitude.value <= 180.0
    ensures u.speed.Some? ==> u.speed.value >= 0.0
    ensures u.heading.Some? ==> 0.0 <= u.heading.value <= 360.0
    ensures u.batteryLevel.Some? ==> 0 <= u.batteryLevel.value <= 100
  {
    // Unfolding ValidUpdate is the whole proof; the lemma states what validity guarantees.
  }

  /**
   * Only the driver and the position are required: the delivery, the
   * timestamp and every other reading may be missing.
   */
  lemma MinimalUpdateIsValid(driverId: Uuid, latitude: real, longitude: real)
    requires -90.0 <= latitude <= 90.0 && -180.0 <= longitude <= 180.0
    ensures ValidUpdate(LocationUpdateDto(None, Some(driverId), None, Some(latitude), Some(longitude),
                                          None, None, None, None, None, None))
    ensures !ValidUpdate(LocationUpdateDto(None, None, None, Some(latitude), Some(longitude),
                                           None, None, None, None, None, None))
  {
  }

  /** The heading and battery bounds are inclusive at both ends. */
  lemma ReadingBoundsInclusive(u: LocationUpdateDto)
    requires ValidUpdate(u)
    ensures ValidUpdate(u.(heading := Some(0.0))) && ValidUpdate(u.(heading := Some(360.0)))
    ensures ValidUpdate(u.(batteryLevel := Some(0))) && ValidUpdate(u.(batteryLevel := Some(100)))
    ensures !ValidUpdate(u.(heading := Some(360.5))) && !ValidUpdate(u.(batteryLevel := Some(101)))
  {
  }
}
