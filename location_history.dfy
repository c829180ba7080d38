/**
 * The spatial pre-check of a radar profile: was the device seen within a
 * radius of a target location during a time window? The location history is
 * a query function and the geographic distance is a parameter.
 */
module LocationHistory {
  import opened Wrappers
  import Devices

  /** A location fix; `time` is when it was taken, in milliseconds. */
  datatype LocationModel = LocationModel(lat: real, lng: real, time: int)

  /** `getAllLocationsByAddress(deviceAddress, fromTime, toTime)`. */
  datatype LocationQuery = LocationQuery(deviceAddress: string, fromTime: int, toTime: int)

  /** The answer of `execute`, with the history query it made, if any. */
  datatype HistoryCheck = HistoryCheck(query: Option<LocationQuery>, withinRadius: bool)

  /** The window `[fromTime, toTime]` overlaps the device's known lifetime. */
  predicate WindowOverlapsLifetime(device: Devices.DeviceData, fromTime: int, toTime: int)
  {
    !(toTime < device.firstDetectTimeMs || fromTime > device.lastDetectTimeMs)
  }

  /** `locations.any { it.distanceTo(target) <= radius }`. */
  function AnyWithinRadius(locations: seq<LocationModel>, target: LocationModel, radius: real,
                           distanceTo: (LocationModel, LocationModel) -> real): (r: bool)
    ensures r <==> exists i :: 0 <= i < |locations| && distanceTo(locations[i], target) <= radius
    ensures locations == [] ==> !r
  {
    if locations == [] then false
    else
      distanceTo(locations[0], target) <= radius
      || AnyWithinRadius(locations[1..], target, radius, distanceTo)
  }

  /**
   * `CheckDeviceLocationHistoryInteractor.execute`: false without a query when
   * the window misses the device's lifetime; otherwise one query for exactly
   * the device and window, and true iff some returned fix is within the radius.
   */
  function CheckDeviceLocationHistory(target: LocationModel, radius: real, device: Devices.DeviceData,
                                      fromTime: int, toTime: int,
                                      history: LocationQuery -> seq<LocationModel>,
                                      distanceTo: (LocationModel, LocationModel) -> real): (r: HistoryCheck)
    ensures !WindowOverlapsLifetime(device, fromTime, toTime) ==> r == HistoryCheck(None, false)
    ensures WindowOverlapsLifetime(device, fromTime, toTime) ==>
      r.query == Some(LocationQuery(device.address, fromTime, toTime))
    ensures r.withinRadius <==>
      && WindowOverlapsLifetime(device, fromTime, toTime)
      && exists l :: l in history(LocationQuery(device.address, fromTime, toTime)) && distanceTo(l, target) <= radius
  {
    if toTime < device.firstDetectTimeMs || fromTime > device.lastDetectTimeMs then
      HistoryCheck(None, false)
    else
      var query := LocationQuery(device.address, fromTime, toTime);
      var locations := history(query);
      var found := AnyWithinRadius(locations, target, radius, distanceTo);
      assert found ==> exists l :: l in locations && distanceTo(l, target) <= radius;
      assert (exists l :: l in locations && distanceTo(l, target) <= radius) ==> found by {
        if l :| l in locations && distanceTo(l, target) <= radius {
          var i :| 0 <= i < |locations| && locations[i] == l;
        }
      }
      HistoryCheck(Some(query), found)
  }

  /** A larger radius finds everything a smaller one finds. */
  lemma {:induction false} LargerRadiusMonotone(locations: seq<LocationModel>, target: LocationModel,
                                                 r1: real, r2: real,
                                                 distanceTo: (LocationModel, LocationModel) -> real)
    requires r1 <= r2
    ensures AnyWithinRadius(locations, target, r1, distanceTo) ==> AnyWithinRadius(locations, target, r2, distanceTo)
  {
    if AnyWithinRadius(locations, target, r1, distanceTo) {
      var i :| 0 <= i < |locations| && distanceTo(locations[i], target) <= r1;
    }
  }
}
