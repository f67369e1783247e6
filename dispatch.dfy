/** Properties of the `deliveries` table across any sequential interleaving
    of the actions that write it. Each successful call of a `Ledger` method
    that writes `deliveries` replaces the table by `Apply` of one `Write`
    (its `ensures` say so); a failed call leaves it unchanged. */
module Dispatch {
  import opened Common
  import opened Schema
  import opened PointText
  import opened DriverActions
  import opened DeliveryActions

  /** The table write of one successful action. */
  datatype Write =
    | Claim(id: DeliveryId, driver: UserId, at: Time)              // acceptDelivery
    | SetStatus(id: DeliveryId, status: string, at: Time)          // updateDeliveryStatus
    | Cancel(id: DeliveryId, at: Time)                             // cancelDelivery
    | Rate(id: DeliveryId, rating: int, review: Option<string>)    // rateDelivery
    | Insert(row: Delivery)                                        // createDelivery

  function Apply(m: map<DeliveryId, Delivery>, w: Write): map<DeliveryId, Delivery>
  {
    match w
    case Claim(id, driver, at) => Claimed(m, id, driver, at)
    case SetStatus(id, status, at) => StatusWritten(m, id, status, at)
    case Cancel(id, at) => CancelWritten(m, id, at)
    case Rate(id, rating, review) => RatingWritten(m, id, rating, review)
    case Insert(row) => if row.id in m then m else m[row.id := row]
  }

  /** The table after the writes `ws`, in order. */
  function Replay(m: map<DeliveryId, Delivery>, ws: seq<Write>): map<DeliveryId, Delivery>
    decreases |ws|
  {
    if ws == [] then m else Replay(Apply(m, ws[0]), ws[1..])
  }

  /** The driver of the first claim on `id` among `ws`. */
  function FirstClaimer(ws: seq<Write>, id: DeliveryId): Option<UserId>
    decreases |ws|
  {
    if ws == [] then None
    else if ws[0].Claim? && ws[0].id == id then Some(ws[0].driver)
    else FirstClaimer(ws[1..], id)
  }

  /** No write removes a row or changes its driver, except a claim on an unassigned row. */
  lemma ApplyKeepsDriver(m: map<DeliveryId, Delivery>, w: Write, id: DeliveryId)
    requires id in m
    ensures id in Apply(m, w)
    ensures !(w.Claim? && w.id == id && m[id].driverId.None?) ==> Apply(m, w)[id].driverId == m[id].driverId
    ensures w.Claim? && w.id == id && m[id].driverId.None? ==> Apply(m, w)[id].driverId == Some(w.driver)
  {
  }

  /** Once a row has a driver, no sequence of actions replaces or clears it. */
  lemma {:induction false} AssignedDriverIsKept(m: map<DeliveryId, Delivery>, ws: seq<Write>, id: DeliveryId)
    requires id in m && m[id].driverId.Some?
    ensures id in Replay(m, ws) && Replay(m, ws)[id].driverId == m[id].driverId
    decreases |ws|
  {
    if ws != [] {
      ApplyKeepsDriver(m, ws[0], id);
      AssignedDriverIsKept(Apply(m, ws[0]), ws[1..], id);
    }
  }

  /** At most one driver is ever attached to an unassigned row: the first claimer,
      whatever claims, status writes, cancellations, ratings and inserts follow. */
  lemma {:induction false} FirstClaimWins(m: map<DeliveryId, Delivery>, ws: seq<Write>, id: DeliveryId)
    requires id in m && m[id].driverId.None?
    ensures id in Replay(m, ws) && Replay(m, ws)[id].driverId == FirstClaimer(ws, id)
    decreases |ws|
  {
    if ws != [] {
      var m1 := Apply(m, ws[0]);
      ApplyKeepsDriver(m, ws[0], id);
      if ws[0].Claim? && ws[0].id == id {
        AssignedDriverIsKept(m1, ws[1..], id);
      } else {
        FirstClaimWins(m1, ws[1..], id);
      }
    }
  }

  /** No write moves a row to another key: the table stays keyed by row id. */
  lemma ApplyKeepsKeyed(m: map<DeliveryId, Delivery>, w: Write)
    requires DeliveriesKeyed(m)
    ensures DeliveriesKeyed(Apply(m, w))
  {
  }

  /** Any sequence of writes keeps the table keyed by row id. */
  lemma {:induction false} ReplayKeepsKeyed(m: map<DeliveryId, Delivery>, ws: seq<Write>)
    requires DeliveriesKeyed(m)
    ensures DeliveriesKeyed(Replay(m, ws))
    decreases |ws|
  {
    if ws != [] {
      ApplyKeepsKeyed(m, ws[0]);
      ReplayKeepsKeyed(Apply(m, ws[0]), ws[1..]);
    }
  }

  /** In a keyed table, a row listed in the table's values is the row stored under its id. */
  lemma StoredRows(m: map<DeliveryId, Delivery>, rows: seq<Delivery>)
    requires DeliveriesKeyed(m)
    requires forall d :: d in rows ==> d in m.Values
    ensures forall d :: d in rows ==> d.id in m && m[d.id] == d
  {
    forall d | d in rows ensures d.id in m && m[d.id] == d {
      var k :| k in m && m[k] == d;
    }
  }

  /** After `acceptDelivery` on `id` (whether or not it matched), the row `id`
      has a driver, so the available-deliveries query of the new table never
      lists it: the `.is("driver_id", null)` filter of both its queries. */
  lemma ClaimedNeverAvailable(m: map<DeliveryId, Delivery>, id: DeliveryId, driver: UserId, now: Time,
                              info: Option<DriverInfo>, rows: seq<Delivery>, dist: DistanceRpc)
    requires DeliveriesKeyed(m) && id in m
    requires forall d :: d in rows <==> d in Claimed(m, id, driver, now).Values
    ensures forall d :: d in Available(info, rows, dist) ==> d.id != id
  {
    var m' := Claimed(m, id, driver, now);
    ApplyKeepsKeyed(m, Claim(id, driver, now));
    StoredRows(m', rows);
    assert m'[id].driverId.Some?;
  }

  /** The write of a successful `Ledger.CreateDelivery` (`old(deliveries)[newId := row]`
      for a fresh `newId`) is the `Insert` of its row, and it adds exactly one key. */
  lemma CreateIsInsert(m: map<DeliveryId, Delivery>, id: DeliveryId, customer: UserId, data: CreateDeliveryData,
                       distanceKm: Option<real>, fees: FeeRow, now: Time)
    requires id !in m
    ensures var row := NewDeliveryRow(id, customer, data, distanceKm, fees, now);
      Apply(m, Insert(row)) == m[id := row] && Apply(m, Insert(row)).Keys == m.Keys + {id}
  {
  }

  /** Two drivers accept the same open row one after the other: the first stays
      assigned and the second changes nothing. Both calls still report success,
      as the `ensures` of `Ledger.AcceptDelivery` state for any `dbError`-free call. */
  lemma SecondClaimChangesNothing(m: map<DeliveryId, Delivery>, id: DeliveryId, first: UserId, second: UserId, t1: Time, t2: Time)
    requires id in m && m[id].driverId.None?
    ensures var once := Claimed(m, id, first, t1);
      && once[id].driverId == Some(first)
      && Claimed(once, id, second, t2) == once
  {
  }

  /** A claim ignores the status: an unassigned cancelled row becomes "accepted". */
  lemma ClaimIgnoresStatus(m: map<DeliveryId, Delivery>, id: DeliveryId, driver: UserId, now: Time)
    requires id in m && m[id].driverId.None? && m[id].status == Cancelled
    ensures Claimed(m, id, driver, now)[id].status == Accepted
  {
  }

  /** For a delivery created with pickup (`pickupLat`, `pickupLng`), the nearby
      test of the driver screen asks `calculate_distance` about exactly that
      point, latitude as `lat2` and longitude as `lon2`. */
  lemma CreatedRowDistance(id: DeliveryId, customer: UserId, data: CreateDeliveryData, distanceKm: Option<real>,
                           fees: FeeRow, now: Time, lat: Option<Coord>, lng: Option<Coord>, dist: DistanceRpc)
    ensures var row := NewDeliveryRow(id, customer, data, distanceKm, fees, now);
      var distance := dist(lat, lng, Some(data.pickupLat), Some(data.pickupLng)).data;
      IsNear(row, lat, lng, dist) <==> distance.Some? && distance.value != 0.0 && distance.value <= NearbyRadiusKm
  {
    var row := NewDeliveryRow(id, customer, data, distanceKm, fees, now);
    NewRowProperties(id, customer, data, distanceKm, fees, now);
    assert row.pickupLocation.value != "" by {
      assert |FormatPoint(data.pickupLng, data.pickupLat)| > 0;
    }
  }
}
