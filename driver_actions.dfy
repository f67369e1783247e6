/** The value-level meaning of lib/actions/driver.ts: the rows each update
    statement writes, the per-row test of the nearby-delivery loop, and the
    read-only queries. The class in module Ledger executes these against its
    tables. */
module DriverActions {
  import opened Common
  import opened Schema
  import opened PointText

  const AvailableLimit: nat := 20
  const NearbyRadiusKm: real := 10.0
  const HistoryLimit: nat := 50

  /** `.eq("status", "pending").is("driver_id", null)` */
  predicate IsOpen(d: Delivery) { d.status == Pending && d.driverId.None? }

  /** The statuses of `.in("status", ["accepted", "picked_up", "in_transit"])` */
  predicate IsAssignedStatus(s: string) { s == Accepted || s == PickedUp || s == InTransit }

  /** The statuses of `.in("status", ["delivered", "cancelled"])` */
  predicate IsHistoryStatus(s: string) { s == Delivered || s == Cancelled }

  /** `created_at` descending: `a` may be listed before `b`. */
  predicate NewerOrSame(a: Delivery, b: Delivery) { a.createdAt >= b.createdAt }

  /** The update of `acceptDelivery`: `.eq("id", id).is("driver_id", null)` sets
      `driver_id`, `status` and `accepted_at`. The status is not tested. */
  function Claimed(m: map<DeliveryId, Delivery>, id: DeliveryId, driver: UserId, now: Time): (m': map<DeliveryId, Delivery>)
    ensures m'.Keys == m.Keys
    ensures forall k :: k in m && k != id ==> m'[k] == m[k]
    ensures id in m && m[id].driverId.Some? ==> m' == m
    ensures id in m && m[id].driverId.None? ==>
      m'[id] == m[id].(driverId := Some(driver), status := Accepted, acceptedAt := Some(now))
  {
    if id in m && m[id].driverId.None? then
      m[id := m[id].(driverId := Some(driver), status := Accepted, acceptedAt := Some(now))]
    else m
  }

  /** The update of `updateDeliveryStatus`: the status is written whatever the
      current one is; `picked_up_at` / `delivered_at` are stamped for those two statuses. */
  function StatusWritten(m: map<DeliveryId, Delivery>, id: DeliveryId, status: string, now: Time): (m': map<DeliveryId, Delivery>)
    ensures m'.Keys == m.Keys
    ensures forall k :: k in m && k != id ==> m'[k] == m[k]
    ensures id in m ==> m'[id] == m[id].(
      status := status,
      pickedUpAt := if status == PickedUp then Some(now) else m[id].pickedUpAt,
      deliveredAt := if status == Delivered then Some(now) else m[id].deliveredAt)
  {
    if id !in m then m
    else
      var row := m[id];
      var stamped :=
        if status == PickedUp then row.(status := status, pickedUpAt := Some(now))
        else if status == Delivered then row.(status := status, deliveredAt := Some(now))
        else row.(status := status);
      m[id := stamped]
  }

  /** The update of `updateDriverAvailability` on the caller's `driver_info` row. */
  function AvailabilityWritten(infos: map<UserId, DriverInfo>, driver: UserId, isAvailable: bool): (r: map<UserId, DriverInfo>)
    ensures r.Keys == infos.Keys
    ensures forall k :: k in infos && k != driver ==> r[k] == infos[k]
    ensures driver in infos ==> r[driver] == infos[driver].(isAvailable := isAvailable)
  {
    if driver in infos then infos[driver := infos[driver].(isAvailable := isAvailable)] else infos
  }

  /** The update of `updateDriverLocation` on the caller's `driver_info` row. */
  function LocationWritten(infos: map<UserId, DriverInfo>, driver: UserId, lat: Coord, lng: Coord): (r: map<UserId, DriverInfo>)
    ensures r.Keys == infos.Keys
    ensures forall k :: k in infos && k != driver ==> r[k] == infos[k]
    ensures driver in infos ==> r[driver] == infos[driver].(
      currentLocation := Some(FormatPoint(lng, lat)), currentLatitude := Some(lat), currentLongitude := Some(lng))
  {
    if driver in infos then
      infos[driver := infos[driver].(
        currentLocation := Some(FormatPoint(lng, lat)), currentLatitude := Some(lat), currentLongitude := Some(lng))]
    else infos
  }

  /** The branch test of `getAvailableDeliveries`: a `driver_info` row with a truthy latitude and longitude. */
  predicate HasLocation(info: Option<DriverInfo>)
  {
    info.Some? && TruthyNumber(info.value.currentLatitude) && TruthyNumber(info.value.currentLongitude)
  }

  /** The distance the loop obtains for one row: `calculate_distance` from the
      driver's position to the parsed pickup point (its error is ignored). */
  function PickupDistance(d: Delivery, lat: Option<Coord>, lng: Option<Coord>, dist: DistanceRpc): Option<real>
    requires d.pickupLocation.Some?
  {
    var (pickupLng, pickupLat) := ParsePoint(d.pickupLocation.value);
    dist(lat, lng, pickupLat, pickupLng).data
  }

  /** The loop's keep test: a truthy `pickup_location` and `distance && distance <= 10`. */
  predicate IsNear(d: Delivery, lat: Option<Coord>, lng: Option<Coord>, dist: DistanceRpc)
  {
    TruthyText(d.pickupLocation) &&
    var distance := PickupDistance(d, lat, lng, dist);
    distance.Some? && distance.value != 0.0 && distance.value <= NearbyRadiusKm
  }

  function NearTest(lat: Option<Coord>, lng: Option<Coord>, dist: DistanceRpc): Delivery -> bool
  {
    d => IsNear(d, lat, lng, dist)
  }

  /** What `getAvailableDeliveries` returns once its queries succeed, over the
      `deliveries` table as the database lists it by `created_at` descending. */
  function Available(info: Option<DriverInfo>, rows: seq<Delivery>, dist: DistanceRpc): (r: seq<Delivery>)
    ensures |r| <= AvailableLimit
    ensures forall d :: d in r ==> d in rows && IsOpen(d)
  {
    var open := Filter(rows, IsOpen);
    if HasLocation(info) then
      Take(Filter(open, NearTest(info.value.currentLatitude, info.value.currentLongitude, dist)), AvailableLimit)
    else Take(open, AvailableLimit)
  }

  /** The whole test a row of `getAvailableDeliveries` must pass: open, and
      near the driver when the driver is located. */
  function Qualifies(info: Option<DriverInfo>, dist: DistanceRpc): Delivery -> bool
  {
    (d: Delivery) => IsOpen(d) &&
      (HasLocation(info) ==> IsNear(d, info.value.currentLatitude, info.value.currentLongitude, dist))
  }

  /** The rows assigned to `driver` and still under way. */
  function AssignedTo(driver: UserId): Delivery -> bool
  {
    (d: Delivery) => d.driverId == Some(driver) && IsAssignedStatus(d.status)
  }

  /** The rows `driver` delivered or that were cancelled while assigned to them. */
  function HistoryOf(driver: UserId): Delivery -> bool
  {
    (d: Delivery) => d.driverId == Some(driver) && IsHistoryStatus(d.status)
  }

  /** `getMyAssignedDeliveries`, over the table as the database lists it by `accepted_at` descending. */
  function MyAssignedDeliveries(caller: Option<UserId>, rows: seq<Delivery>, queryError: Option<string>): (r: Response<seq<Delivery>>)
    ensures caller.None? ==> r == Err(AuthRequired)
    ensures caller.Some? && queryError.Some? ==> r == Err(queryError.value)
    ensures caller.Some? && queryError.None? ==> r.Ok?
    ensures r.Ok? ==> forall d :: d in r.value ==> d in rows && d.driverId == caller && IsAssignedStatus(d.status)
    ensures r.Ok? ==> forall d :: d in rows && d.driverId == caller && IsAssignedStatus(d.status) ==> d in r.value
  {
    if caller.None? then Err(AuthRequired)
    else if queryError.Some? then Err(queryError.value)
    else
      var kept := Filter(rows, AssignedTo(caller.value));
      assert forall d :: AssignedTo(caller.value)(d) <==> d.driverId == caller && IsAssignedStatus(d.status);
      Ok(kept)
  }

  /** `getMyDeliveryHistory`, over the table as the database lists it by `delivered_at` descending. */
  function MyDeliveryHistory(caller: Option<UserId>, rows: seq<Delivery>, queryError: Option<string>): (r: Response<seq<Delivery>>)
    ensures caller.None? ==> r == Err(AuthRequired)
    ensures caller.Some? && queryError.Some? ==> r == Err(queryError.value)
    ensures caller.Some? && queryError.None? ==> r.Ok?
    ensures r.Ok? ==> |r.value| <= HistoryLimit
    ensures r.Ok? ==> forall d :: d in r.value ==> d in rows && d.driverId == caller && IsHistoryStatus(d.status)
    ensures r.Ok? && |r.value| < HistoryLimit ==>
      forall d :: d in rows && d.driverId == caller && IsHistoryStatus(d.status) ==> d in r.value
    ensures r.Ok? ==> caller.Some?
    ensures r.Ok? && caller.Some? ==>
      var all := Filter(rows, HistoryOf(caller.value));
      |r.value| == (if |all| < HistoryLimit then |all| else HistoryLimit) && r.value == all[..|r.value|]
  {
    if caller.None? then Err(AuthRequired)
    else if queryError.Some? then Err(queryError.value)
    else
      var kept := Filter(rows, HistoryOf(caller.value));
      assert forall d :: HistoryOf(caller.value)(d) <==> d.driverId == caller && IsHistoryStatus(d.status);
      Ok(Take(kept, HistoryLimit))
  }

  /** What `getAvailableDeliveries` promises: open rows only, at most 20, in the
      database's order, and in the located branch only rows whose pickup point
      is at a truthy distance of at most 10; when fewer than 20 come back,
      every such row does. */
  lemma {:induction false} AvailableProperties(info: Option<DriverInfo>, rows: seq<Delivery>, dist: DistanceRpc)
    ensures |Available(info, rows, dist)| <= AvailableLimit
    ensures forall d :: d in Available(info, rows, dist) ==> d in rows && IsOpen(d)
    ensures HasLocation(info) ==> forall d :: d in Available(info, rows, dist) ==>
      IsNear(d, info.value.currentLatitude, info.value.currentLongitude, dist)
    ensures |Available(info, rows, dist)| < AvailableLimit ==>
      forall d :: d in rows && IsOpen(d) &&
        (HasLocation(info) ==> IsNear(d, info.value.currentLatitude, info.value.currentLongitude, dist))
        ==> d in Available(info, rows, dist)
    ensures Chain(rows, NewerOrSame) ==> Chain(Available(info, rows, dist), NewerOrSame)
    ensures var q := Filter(rows, Qualifies(info, dist));
      var r := Available(info, rows, dist);
      && |r| <= |q|
      && r == q[..|r|]
      && (|r| == |q| || |r| == AvailableLimit)
  {
    var open := Filter(rows, IsOpen);
    if HasLocation(info) {
      var test := NearTest(info.value.currentLatitude, info.value.currentLongitude, dist);
      assert forall d :: test(d) <==> IsNear(d, info.value.currentLatitude, info.value.currentLongitude, dist);
      FilterFilter(rows, IsOpen, test, Qualifies(info, dist));
      if Chain(rows, NewerOrSame) {
        FilterKeepsChain(rows, IsOpen, NewerOrSame);
        FilterKeepsChain(open, test, NewerOrSame);
        TakeKeepsChain(Filter(open, test), AvailableLimit, NewerOrSame);
      }
    } else {
      FilterSame(rows, IsOpen, Qualifies(info, dist));
      if Chain(rows, NewerOrSame) {
        FilterKeepsChain(rows, IsOpen, NewerOrSame);
        TakeKeepsChain(open, AvailableLimit, NewerOrSame);
      }
    }
  }

  /** Both driver queries hand back their rows in the order the database
      listed them, whatever column that order is on (`accepted_at`, `delivered_at`). */
  lemma QueriesKeepOrder(caller: Option<UserId>, rows: seq<Delivery>, queryError: Option<string>,
                         before: (Delivery, Delivery) -> bool)
    requires Chain(rows, before)
    ensures MyAssignedDeliveries(caller, rows, queryError).Ok? ==>
      Chain(MyAssignedDeliveries(caller, rows, queryError).value, before)
    ensures MyDeliveryHistory(caller, rows, queryError).Ok? ==>
      Chain(MyDeliveryHistory(caller, rows, queryError).value, before)
  {
    if caller.Some? && queryError.None? {
      FilterKeepsChain(rows, AssignedTo(caller.value), before);
      FilterKeepsChain(rows, HistoryOf(caller.value), before);
      TakeKeepsChain(Filter(rows, HistoryOf(caller.value)), HistoryLimit, before);
    }
  }

  /** A pickup point at distance exactly 0 from the driver is dropped: `0` is falsy. */
  lemma ZeroDistanceDropped(d: Delivery, lat: Option<Coord>, lng: Option<Coord>, dist: DistanceRpc)
    requires d.pickupLocation.Some? && PickupDistance(d, lat, lng, dist) == Some(0.0)
    ensures !IsNear(d, lat, lng, dist)
  {
  }

  /** A driver without a `driver_info` row (missing, or its read failed), or
      whose stored latitude or longitude is null or 0, gets the unfiltered
      fallback list: the first 20 open rows. */
  lemma UnlocatedFallsBack(info: Option<DriverInfo>, rows: seq<Delivery>, dist: DistanceRpc)
    requires info.None? || info.value.currentLatitude in {None, Some(0)} || info.value.currentLongitude in {None, Some(0)}
    ensures Available(info, rows, dist) == Take(Filter(rows, IsOpen), AvailableLimit)
  {
  }
}
