/** The value-level meaning of lib/actions/deliveries.ts: the row
    `createDelivery` inserts, the rows `cancelDelivery` and `rateDelivery`
    write, and the read-only queries. The class in module Ledger executes the
    writes against its tables. */
module DeliveryActions {
  import opened Common
  import opened Schema
  import opened PointText
  import DriverActions

  /** Radius and result caps handed to `find_nearby_drivers`. */
  const NearbyDriversRadiusKm: real := 10.0
  const NotifyLimit: nat := 5
  const LookupLimit: nat := 10

  /** The `distance_km` `createDelivery` obtains, or the failure that ends it. */
  function DistanceStep(data: CreateDeliveryData, distanceRpc: DistanceRpc): (r: Response<Option<real>>)
    ensures var answer := distanceRpc(Some(data.pickupLat), Some(data.pickupLng), Some(data.deliveryLat), Some(data.deliveryLng));
      && (r.Err? <==> answer.error.Some?)
      && (r.Err? ==> r.message == DistanceFailed)
      && (r.Ok? ==> r.value == answer.data)
  {
    var answer := distanceRpc(Some(data.pickupLat), Some(data.pickupLng), Some(data.deliveryLat), Some(data.deliveryLng));
    if answer.error.Some? then Err(DistanceFailed) else Ok(answer.data)
  }

  /** The fee row `createDelivery` copies (`feeData[0]`), or the failure that ends it. */
  function FeeStep(distanceKm: Option<real>, feeRpc: FeeRpc): (r: Response<FeeRow>)
    ensures r.Err? <==>
      feeRpc(distanceKm).error.Some? || feeRpc(distanceKm).data.None? || feeRpc(distanceKm).data.value == []
    ensures r.Err? ==> r.message == FeeFailed
    ensures r.Ok? ==> r.value == feeRpc(distanceKm).data.value[0]
  {
    var answer := feeRpc(distanceKm);
    if answer.error.Some? || answer.data.None? || |answer.data.value| == 0 then Err(FeeFailed)
    else Ok(answer.data.value[0])
  }

  /** The row `createDelivery` inserts: every column of lines 65-85 plus the
      id and `created_at` the database fills in; every other column is null. */
  function NewDeliveryRow(id: DeliveryId, customer: UserId, data: CreateDeliveryData,
                          distanceKm: Option<real>, fees: FeeRow, now: Time): Delivery
  {
    Delivery(
      id := id,
      customerId := customer,
      driverId := None,
      pickupAddress := data.pickupAddress,
      pickupLocation := Some(FormatPoint(data.pickupLng, data.pickupLat)),
      pickupContactName := data.pickupContactName,
      pickupContactPhone := data.pickupContactPhone,
      pickupNotes := data.pickupNotes,
      deliveryAddress := data.deliveryAddress,
      deliveryLocation := Some(FormatPoint(data.deliveryLng, data.deliveryLat)),
      deliveryContactName := data.deliveryContactName,
      deliveryContactPhone := data.deliveryContactPhone,
      deliveryNotes := data.deliveryNotes,
      itemDescription := data.itemDescription,
      itemWeight := data.itemWeight,
      packageSize := data.packageSize,
      distanceKm := distanceKm,
      baseFee := fees.baseFee,
      distanceFee := fees.distanceFee,
      totalFee := fees.totalFee,
      driverFee := fees.driverFee,
      platformFee := fees.platformFee,
      status := Pending,
      createdAt := now,
      acceptedAt := None,
      pickedUpAt := None,
      deliveredAt := None,
      cancelledAt := None,
      customerRating := None,
      customerReview := None)
  }

  /** The success value of `createDelivery`. */
  datatype Created = Created(delivery: Delivery, nearbyDriversCount: nat)

  /** `nearbyDrivers?.length || 0` */
  function NearbyDriversCount(answer: Rpc<seq<DriverCandidate>>): (n: nat)
    ensures answer.data.None? ==> n == 0
    ensures answer.data.Some? ==> n == |answer.data.value|
  {
    if answer.data.Some? then |answer.data.value| else 0
  }

  /** The update of `cancelDelivery`: no caller or status test. */
  function CancelWritten(m: map<DeliveryId, Delivery>, id: DeliveryId, now: Time): (m': map<DeliveryId, Delivery>)
    ensures m'.Keys == m.Keys
    ensures forall k :: k in m && k != id ==> m'[k] == m[k]
    ensures id in m ==> m'[id] == m[id].(status := Cancelled, cancelledAt := Some(now))
  {
    if id in m then m[id := m[id].(status := Cancelled, cancelledAt := Some(now))] else m
  }

  /** The update of `rateDelivery`. An omitted review (`undefined`) is dropped
      from the request body, so the stored review stays as it was. */
  function RatingWritten(m: map<DeliveryId, Delivery>, id: DeliveryId, rating: int, review: Option<string>): (m': map<DeliveryId, Delivery>)
    ensures m'.Keys == m.Keys
    ensures forall k :: k in m && k != id ==> m'[k] == m[k]
    ensures id in m ==> m'[id] == m[id].(
      customerRating := Some(rating),
      customerReview := if review.Some? then review else m[id].customerReview)
  {
    if id !in m then m
    else
      var row := m[id];
      m[id := row.(customerRating := Some(rating), customerReview := if review.Some? then review else row.customerReview)]
  }

  function OwnedBy(customer: UserId): Delivery -> bool
  {
    (d: Delivery) => d.customerId == customer
  }

  /** `getMyDeliveries`, over the table as the database lists it by `created_at` descending. */
  function MyDeliveries(caller: Option<UserId>, rows: seq<Delivery>, queryError: Option<string>): (r: Response<seq<Delivery>>)
    ensures caller.None? ==> r == Err(AuthRequired)
    ensures caller.Some? && queryError.Some? ==> r == Err(queryError.value)
    ensures caller.Some? && queryError.None? ==> r.Ok?
    ensures r.Ok? ==> forall d :: d in r.value ==> d in rows && Some(d.customerId) == caller
    ensures r.Ok? ==> forall d :: d in rows && Some(d.customerId) == caller ==> d in r.value
    ensures r.Ok? && Chain(rows, DriverActions.NewerOrSame) ==> Chain(r.value, DriverActions.NewerOrSame)
  {
    if caller.None? then Err(AuthRequired)
    else if queryError.Some? then Err(queryError.value)
    else
      var kept := Filter(rows, OwnedBy(caller.value));
      assert forall d :: OwnedBy(caller.value)(d) <==> Some(d.customerId) == caller;
      assert Chain(rows, DriverActions.NewerOrSame) ==> Chain(kept, DriverActions.NewerOrSame) by {
        if Chain(rows, DriverActions.NewerOrSame) {
          FilterKeepsChain(rows, OwnedBy(caller.value), DriverActions.NewerOrSame);
        }
      }
      Ok(kept)
  }

  /** `getMyDeliveries` hands back its rows in the order the database listed
      them, whatever that order is; for a strict order this also means each row
      appears once. */
  lemma MyDeliveriesKeepsOrder(caller: Option<UserId>, rows: seq<Delivery>, queryError: Option<string>,
                               before: (Delivery, Delivery) -> bool)
    requires Chain(rows, before)
    ensures MyDeliveries(caller, rows, queryError).Ok? ==> Chain(MyDeliveries(caller, rows, queryError).value, before)
  {
    if caller.Some? && queryError.None? {
      FilterKeepsChain(rows, OwnedBy(caller.value), before);
    }
  }

  /** `getNearbyDrivers`: no caller test; `find_nearby_drivers` within 10 km, at most 10 rows. */
  function NearbyDrivers(pickupLat: Coord, pickupLng: Coord, nearbyRpc: NearbyDriversRpc): (r: Response<Option<seq<DriverCandidate>>>)
    ensures r.Err? <==> nearbyRpc(pickupLat, pickupLng, NearbyDriversRadiusKm, LookupLimit).error.Some?
    ensures r.Err? ==> r.message == nearbyRpc(pickupLat, pickupLng, NearbyDriversRadiusKm, LookupLimit).error.value
    ensures r.Ok? ==> r.value == nearbyRpc(pickupLat, pickupLng, NearbyDriversRadiusKm, LookupLimit).data
  {
    var answer := nearbyRpc(pickupLat, pickupLng, NearbyDriversRadiusKm, LookupLimit);
    if answer.error.Some? then Err(answer.error.value) else Ok(answer.data)
  }

  /** A freshly created row is open (pending, no driver, no lifecycle stamp),
      belongs to its customer, carries the quoted fees, and its pickup
      location parses back to the pickup coordinates, longitude first. */
  lemma NewRowProperties(id: DeliveryId, customer: UserId, data: CreateDeliveryData,
                         distanceKm: Option<real>, fees: FeeRow, now: Time)
    ensures var row := NewDeliveryRow(id, customer, data, distanceKm, fees, now);
      && DriverActions.IsOpen(row)
      && row.customerId == customer && row.id == id && row.createdAt == now
      && row.acceptedAt.None? && row.pickedUpAt.None? && row.deliveredAt.None? && row.cancelledAt.None?
      && row.distanceKm == distanceKm
      && FeeRow(row.baseFee, row.distanceFee, row.totalFee, row.driverFee, row.platformFee) == fees
      && row.pickupLocation.Some? && ParsePoint(row.pickupLocation.value) == (Some(data.pickupLng), Some(data.pickupLat))
      && row.deliveryLocation.Some? && ParsePoint(row.deliveryLocation.value) == (Some(data.deliveryLng), Some(data.deliveryLat))
  {
    PointRoundTrip(data.pickupLng, data.pickupLat);
    PointRoundTrip(data.deliveryLng, data.deliveryLat);
  }
}
