/** The rows of the three tables the server actions touch (`deliveries`,
    `driver_info`, `delivery_tracking`), the inputs of `createDelivery`, and the
    shapes in which the hosted database answers. */
module Schema {
  import opened Common

  type UserId = string
  type DeliveryId = string
  /** An instant: `new Date().toISOString()` or a column default of "now". */
  type Time = int
  /** A latitude or longitude (a JavaScript number in the source). */
  type Coord = int

  const Pending := "pending"
  const Accepted := "accepted"
  const PickedUp := "picked_up"
  const InTransit := "in_transit"
  const Delivered := "delivered"
  const Cancelled := "cancelled"

  /** The message of every "no authenticated user" early return. */
  const AuthRequired := "인증이 필요합니다"
  const DistanceFailed := "거리 계산에 실패했습니다"
  const FeeFailed := "요금 계산에 실패했습니다"

  /** A row of `deliveries`. A column the source never sets is left out;
      nullable columns are `Option`s. */
  datatype Delivery = Delivery(
    id: DeliveryId,
    customerId: UserId,
    driverId: Option<UserId>,
    pickupAddress: string,
    pickupLocation: Option<string>,
    pickupContactName: string,
    pickupContactPhone: string,
    pickupNotes: Option<string>,
    deliveryAddress: string,
    deliveryLocation: Option<string>,
    deliveryContactName: string,
    deliveryContactPhone: string,
    deliveryNotes: Option<string>,
    itemDescription: Option<string>,
    itemWeight: Option<int>,
    packageSize: Option<string>,
    distanceKm: Option<real>,
    baseFee: int,
    distanceFee: int,
    totalFee: int,
    driverFee: int,
    platformFee: int,
    status: string,
    createdAt: Time,
    acceptedAt: Option<Time>,
    pickedUpAt: Option<Time>,
    deliveredAt: Option<Time>,
    cancelledAt: Option<Time>,
    customerRating: Option<int>,
    customerReview: Option<string>)

  /** A row of `driver_info`, keyed by the driver's user id. */
  datatype DriverInfo = DriverInfo(
    id: UserId,
    currentLocation: Option<string>,
    currentLatitude: Option<Coord>,
    currentLongitude: Option<Coord>,
    isAvailable: bool,
    totalDeliveries: int)

  /** A row of `delivery_tracking`. */
  datatype TrackingRow = TrackingRow(deliveryId: DeliveryId, driverId: UserId, location: string, createdAt: Time)

  /** The argument of `createDelivery`; optional members are `Option`s. */
  datatype CreateDeliveryData = CreateDeliveryData(
    pickupAddress: string,
    pickupLat: Coord,
    pickupLng: Coord,
    pickupContactName: string,
    pickupContactPhone: string,
    pickupNotes: Option<string>,
    deliveryAddress: string,
    deliveryLat: Coord,
    deliveryLng: Coord,
    deliveryContactName: string,
    deliveryContactPhone: string,
    deliveryNotes: Option<string>,
    itemDescription: Option<string>,
    itemWeight: Option<int>,
    packageSize: Option<string>)

  /** One row of the `calculate_delivery_fee` result. */
  datatype FeeRow = FeeRow(baseFee: int, distanceFee: int, totalFee: int, driverFee: int, platformFee: int)

  /** One row of the `find_nearby_drivers` result; only the length of the result is used. */
  datatype DriverCandidate = DriverCandidate(driverId: UserId, distanceKm: real)

  /** The `{ data, error }` answer of the hosted database to a remote procedure call. */
  datatype Rpc<T> = Rpc(data: Option<T>, error: Option<string>)

  /** `calculate_distance(lat1, lon1, lat2, lon2)`, whose body is not part of this model. */
  type DistanceRpc = (Option<Coord>, Option<Coord>, Option<Coord>, Option<Coord>) -> Rpc<real>
  /** `calculate_delivery_fee(distance_km)`, whose body is not part of this model. */
  type FeeRpc = Option<real> -> Rpc<seq<FeeRow>>
  /** `find_nearby_drivers(pickup_lat, pickup_lng, max_distance_km, limit_count)`,
      whose body is not part of this model. */
  type NearbyDriversRpc = (Coord, Coord, real, nat) -> Rpc<seq<DriverCandidate>>

  /** JavaScript truthiness of a nullable number: `null` and `0` are falsy. */
  predicate TruthyNumber(x: Option<int>) { x.Some? && x.value != 0 }

  /** JavaScript truthiness of a nullable string: `null` and `""` are falsy. */
  predicate TruthyText(x: Option<string>) { x.Some? && x.value != "" }

  /** The `driver_info` row `.eq("id", user).single()` finds, or `null`. */
  function InfoOf(infos: map<UserId, DriverInfo>, user: UserId): Option<DriverInfo>
  {
    if user in infos then Some(infos[user]) else None
  }

  /** Every row is stored under its own id (the primary key). */
  ghost predicate DeliveriesKeyed(m: map<DeliveryId, Delivery>) { forall id :: id in m ==> m[id].id == id }
  ghost predicate DriverInfoKeyed(m: map<UserId, DriverInfo>) { forall id :: id in m ==> m[id].id == id }
}
