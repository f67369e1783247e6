/** The three tables the server actions of lib/actions/driver.ts and
    lib/actions/deliveries.ts read and write, and one method per action.

    Each method takes the authenticated caller as `Option<UserId>` (`None`
    when `auth.getUser()` finds nobody), the current instant `now`, and the
    database's answers as parameters: `dbError` is the error a table
    statement reports (a failed statement writes nothing), the `Rpc` oracles
    stand for the remote procedures. A query takes `rows`, the `deliveries`
    table as the database lists it in the query's `.order(...)`. */
module Ledger {
  import opened Common
  import opened Schema
  import opened PointText
  import opened DriverActions
  import opened DeliveryActions
  import Dispatch

  /** The `for (const delivery of allDeliveries)` loop of `getAvailableDeliveries`:
      parse each truthy `pickup_location`, ask `calculate_distance`, and push the
      rows at a truthy distance of at most 10. */
  method KeepNear(all: seq<Delivery>, lat: Option<Coord>, lng: Option<Coord>, dist: DistanceRpc)
    returns (nearby: seq<Delivery>)
    ensures nearby == Filter(all, NearTest(lat, lng, dist))
  {
    nearby := [];
    for i := 0 to |all|
      invariant nearby == Filter(all[..i], NearTest(lat, lng, dist))
    {
      var delivery := all[i];
      assert all[..i + 1][..i] == all[..i];
      if TruthyText(delivery.pickupLocation) {
        var coords := ParsePoint(delivery.pickupLocation.value);
        var distance := dist(lat, lng, coords.1, coords.0).data;
        if distance.Some? && distance.value != 0.0 && distance.value <= NearbyRadiusKm {
          nearby := nearby + [delivery];
        }
      }
    }
    assert all[..|all|] == all;
  }

  class Ledger {
    var deliveries: map<DeliveryId, Delivery>
    var driverInfo: map<UserId, DriverInfo>
    var tracking: seq<TrackingRow>

    ghost predicate Valid()
      reads this
    {
      DeliveriesKeyed(deliveries) && DriverInfoKeyed(driverInfo)
    }

    constructor (deliveries0: map<DeliveryId, Delivery>, driverInfo0: map<UserId, DriverInfo>, tracking0: seq<TrackingRow>)
      requires DeliveriesKeyed(deliveries0) && DriverInfoKeyed(driverInfo0)
      ensures Valid()
      ensures deliveries == deliveries0 && driverInfo == driverInfo0 && tracking == tracking0
    {
      deliveries := deliveries0;
      driverInfo := driverInfo0;
      tracking := tracking0;
    }

    /** driver.ts `acceptDelivery`: the conditional update `.eq("id", …).is("driver_id", null)`.
        Success is reported whether or not a row matched. */
    method AcceptDelivery(caller: Option<UserId>, deliveryId: DeliveryId, now: Time, dbError: Option<string>)
      returns (r: Response<()>)
      requires Valid()
      modifies this`deliveries
      ensures Valid()
      ensures caller.None? ==> r == Err(AuthRequired) && deliveries == old(deliveries)
      ensures caller.Some? && dbError.Some? ==> r == Err(dbError.value) && deliveries == old(deliveries)
      ensures caller.Some? && dbError.None? ==>
        r == Ok(()) && deliveries == Claimed(old(deliveries), deliveryId, caller.value, now)
    {
      if caller.None? {
        return Err(AuthRequired);
      }
      if dbError.Some? {
        return Err(dbError.value);
      }
      if deliveryId in deliveries && deliveries[deliveryId].driverId.None? {
        var row := deliveries[deliveryId];
        deliveries := deliveries[deliveryId := row.(driverId := caller, status := Accepted, acceptedAt := Some(now))];
      }
      return Ok(());
    }

    /** driver.ts `updateDeliveryStatus`: no caller check and no guard on the current status. */
    method UpdateDeliveryStatus(deliveryId: DeliveryId, status: string, now: Time, dbError: Option<string>)
      returns (r: Response<()>)
      requires Valid()
      modifies this`deliveries
      ensures Valid()
      ensures dbError.Some? ==> r == Err(dbError.value) && deliveries == old(deliveries)
      ensures dbError.None? ==> r == Ok(()) && deliveries == StatusWritten(old(deliveries), deliveryId, status, now)
    {
      if dbError.Some? {
        return Err(dbError.value);
      }
      if deliveryId in deliveries {
        var updated := deliveries[deliveryId].(status := status);
        if status == PickedUp {
          updated := updated.(pickedUpAt := Some(now));
        } else if status == Delivered {
          updated := updated.(deliveredAt := Some(now));
        }
        deliveries := deliveries[deliveryId := updated];
      }
      return Ok(());
    }

    /** driver.ts `getAvailableDeliveries`. Without a located `driver_info` row
        the query itself returns the first 20 open rows; otherwise the loop keeps
        the open rows near the driver and the first 20 of those are returned.
        `rows` is the `deliveries` table as the database lists it: the same
        rows as the table's values, so every listed row is the stored one.
        `infoError` is the error of the `driver_info` read, which the action
        discards: a failed read leaves `driverInfo` null, as a missing row does. */
    method GetAvailableDeliveries(caller: Option<UserId>, infoError: Option<string>, rows: seq<Delivery>,
                                  queryError: Option<string>, dist: DistanceRpc)
      returns (r: Response<seq<Delivery>>)
      requires Valid()
      requires forall d :: d in rows <==> d in deliveries.Values
      ensures r.Ok? ==> forall d :: d in r.value ==> d.id in deliveries && deliveries[d.id] == d
      ensures caller.None? ==> r == Err(AuthRequired)
      ensures caller.Some? && queryError.Some? ==> r == Err(queryError.value)
      ensures caller.Some? && queryError.None? && infoError.None? ==>
        r == Ok(Available(InfoOf(driverInfo, caller.value), rows, dist))
      ensures caller.Some? && queryError.None? && infoError.Some? ==>
        r == Ok(Available(None, rows, dist))
    {
      if caller.None? {
        return Err(AuthRequired);
      }
      Dispatch.StoredRows(deliveries, rows);
      var info := if infoError.Some? then None else InfoOf(driverInfo, caller.value);
      if !HasLocation(info) {
        if queryError.Some? {
          return Err(queryError.value);
        }
        return Ok(Take(Filter(rows, IsOpen), AvailableLimit));
      }
      if queryError.Some? {
        return Err(queryError.value);
      }
      var nearby := KeepNear(Filter(rows, IsOpen), info.value.currentLatitude, info.value.currentLongitude, dist);
      return Ok(Take(nearby, AvailableLimit));
    }

    /** driver.ts `updateDriverAvailability` on the caller's `driver_info` row. */
    method UpdateDriverAvailability(caller: Option<UserId>, isAvailable: bool, dbError: Option<string>)
      returns (r: Response<()>)
      requires Valid()
      modifies this`driverInfo
      ensures Valid()
      ensures caller.None? ==> r == Err(AuthRequired) && driverInfo == old(driverInfo)
      ensures caller.Some? && dbError.Some? ==> r == Err(dbError.value) && driverInfo == old(driverInfo)
      ensures caller.Some? && dbError.None? ==>
        r == Ok(()) && driverInfo == AvailabilityWritten(old(driverInfo), caller.value, isAvailable)
    {
      if caller.None? {
        return Err(AuthRequired);
      }
      if dbError.Some? {
        return Err(dbError.value);
      }
      var user := caller.value;
      if user in driverInfo {
        driverInfo := driverInfo[user := driverInfo[user].(isAvailable := isAvailable)];
      }
      return Ok(());
    }

    /** driver.ts `updateDriverLocation`: the caller's position is written first;
        only when that succeeds and `deliveryId` is truthy is one tracking row
        appended, and a failed append still reports success. */
    method UpdateDriverLocation(caller: Option<UserId>, lat: Coord, lng: Coord, deliveryId: Option<DeliveryId>, now: Time,
                                updateError: Option<string>, trackingError: Option<string>)
      returns (r: Response<()>)
      requires Valid()
      modifies this`driverInfo, this`tracking
      ensures Valid()
      ensures caller.None? ==> r == Err(AuthRequired) && driverInfo == old(driverInfo) && tracking == old(tracking)
      ensures caller.Some? && updateError.Some? ==>
        r == Err(updateError.value) && driverInfo == old(driverInfo) && tracking == old(tracking)
      ensures caller.Some? && updateError.None? ==>
        && r == Ok(())
        && driverInfo == LocationWritten(old(driverInfo), caller.value, lat, lng)
        && tracking == old(tracking) +
             (if TruthyText(deliveryId) && trackingError.None?
              then [TrackingRow(deliveryId.value, caller.value, FormatPoint(lng, lat), now)] else [])
    {
      if caller.None? {
        return Err(AuthRequired);
      }
      if updateError.Some? {
        return Err(updateError.value);
      }
      var user := caller.value;
      if user in driverInfo {
        driverInfo := driverInfo[user := driverInfo[user].(
          currentLocation := Some(FormatPoint(lng, lat)), currentLatitude := Some(lat), currentLongitude := Some(lng))];
      }
      if TruthyText(deliveryId) && trackingError.None? {
        tracking := tracking + [TrackingRow(deliveryId.value, user, FormatPoint(lng, lat), now)];
      }
      return Ok(());
    }

    /** deliveries.ts `createDelivery`. `newId` is the key the database
        generates for the inserted row. */
    method CreateDelivery(caller: Option<UserId>, data: CreateDeliveryData, newId: DeliveryId, now: Time,
                          distanceRpc: DistanceRpc, feeRpc: FeeRpc, insertError: Option<string>,
                          nearbyRpc: NearbyDriversRpc)
      returns (r: Response<Created>)
      requires Valid() && newId !in deliveries
      modifies this`deliveries
      ensures Valid()
      ensures r.Err? ==> deliveries == old(deliveries)
      ensures caller.None? ==> r == Err(AuthRequired)
      ensures caller.Some? && DistanceStep(data, distanceRpc).Err? ==> r == Err(DistanceFailed)
      ensures (caller.Some? && DistanceStep(data, distanceRpc).Ok? &&
               FeeStep(DistanceStep(data, distanceRpc).value, feeRpc).Err?) ==>
        r == Err(FeeFailed)
      ensures (caller.Some? && DistanceStep(data, distanceRpc).Ok? &&
               FeeStep(DistanceStep(data, distanceRpc).value, feeRpc).Ok? && insertError.Some?) ==>
        r == Err(insertError.value)
      ensures (caller.Some? && DistanceStep(data, distanceRpc).Ok? &&
               FeeStep(DistanceStep(data, distanceRpc).value, feeRpc).Ok? && insertError.None?) ==>
        var distanceKm := DistanceStep(data, distanceRpc).value;
        var row := NewDeliveryRow(newId, caller.value, data, distanceKm, FeeStep(distanceKm, feeRpc).value, now);
        && deliveries == old(deliveries)[newId := row]
        && r == Ok(Created(row, NearbyDriversCount(nearbyRpc(data.pickupLat, data.pickupLng, NearbyDriversRadiusKm, NotifyLimit))))
    {
      if caller.None? {
        return Err(AuthRequired);
      }
      var distanceAnswer := distanceRpc(Some(data.pickupLat), Some(data.pickupLng), Some(data.deliveryLat), Some(data.deliveryLng));
      if distanceAnswer.error.Some? {
        return Err(DistanceFailed);
      }
      var distanceKm := distanceAnswer.data;
      var feeAnswer := feeRpc(distanceKm);
      if feeAnswer.error.Some? || feeAnswer.data.None? || |feeAnswer.data.value| == 0 {
        return Err(FeeFailed);
      }
      var fees := feeAnswer.data.value[0];
      if insertError.Some? {
        return Err(insertError.value);
      }
      var row := NewDeliveryRow(newId, caller.value, data, distanceKm, fees, now);
      deliveries := deliveries[newId := row];
      var nearbyDrivers := nearbyRpc(data.pickupLat, data.pickupLng, NearbyDriversRadiusKm, NotifyLimit);
      return Ok(Created(row, NearbyDriversCount(nearbyDrivers)));
    }

    /** deliveries.ts `cancelDelivery`: no caller check and no guard on the current status. */
    method CancelDelivery(deliveryId: DeliveryId, now: Time, dbError: Option<string>)
      returns (r: Response<()>)
      requires Valid()
      modifies this`deliveries
      ensures Valid()
      ensures dbError.Some? ==> r == Err(dbError.value) && deliveries == old(deliveries)
      ensures dbError.None? ==> r == Ok(()) && deliveries == CancelWritten(old(deliveries), deliveryId, now)
    {
      if dbError.Some? {
        return Err(dbError.value);
      }
      if deliveryId in deliveries {
        deliveries := deliveries[deliveryId := deliveries[deliveryId].(status := Cancelled, cancelledAt := Some(now))];
      }
      return Ok(());
    }

    /** deliveries.ts `rateDelivery`: no caller check and no guard on the current status. */
    method RateDelivery(deliveryId: DeliveryId, rating: int, review: Option<string>, dbError: Option<string>)
      returns (r: Response<()>)
      requires Valid()
      modifies this`deliveries
      ensures Valid()
      ensures dbError.Some? ==> r == Err(dbError.value) && deliveries == old(deliveries)
      ensures dbError.None? ==> r == Ok(()) && deliveries == RatingWritten(old(deliveries), deliveryId, rating, review)
    {
      if dbError.Some? {
        return Err(dbError.value);
      }
      if deliveryId in deliveries {
        var row := deliveries[deliveryId];
        var updated := row.(customerRating := Some(rating));
        if review.Some? {
          updated := updated.(customerReview := review);
        }
        deliveries := deliveries[deliveryId := updated];
      }
      return Ok(());
    }
  }
}
