/** The four counters of the customer dashboard (app/customer/page.tsx),
    computed over the rows `getMyDeliveries` returned. */
module CustomerStats {
  import opened Common
  import opened Schema
  import DriverActions
  import DeliveryActions

  datatype Stats = Stats(total: nat, pending: nat, inProgress: nat, completed: nat)

  predicate IsWaiting(d: Delivery) { d.status == Pending }
  /** `["accepted", "picked_up", "in_transit"].includes(d.status)` */
  predicate IsUnderWay(d: Delivery) { d.status in [Accepted, PickedUp, InTransit] }
  predicate IsCompleted(d: Delivery) { d.status == Delivered }
  /** A row none of the three counters sees (cancelled, or any other status). */
  predicate IsUncounted(d: Delivery) { !IsWaiting(d) && !IsUnderWay(d) && !IsCompleted(d) }
  predicate IsCancelled(d: Delivery) { d.status == Cancelled }
  predicate IsWaitingOrUnderWay(d: Delivery) { IsWaiting(d) || IsUnderWay(d) }
  predicate IsCounted(d: Delivery) { IsWaitingOrUnderWay(d) || IsCompleted(d) }

  /** `const { deliveries = [] } = await getMyDeliveries()`: an error answer
      carries no `deliveries`, so the dashboard counts an empty list. */
  function DashboardRows(answer: Response<seq<Delivery>>): (rows: seq<Delivery>)
    ensures answer.Ok? ==> rows == answer.value
    ensures answer.Err? ==> rows == []
  {
    if answer.Ok? then answer.value else []
  }

  /** The `stats` object of the dashboard. */
  function CustomerStats(deliveries: seq<Delivery>): Stats
  {
    Stats(
      total := |deliveries|,
      pending := |Filter(deliveries, IsWaiting)|,
      inProgress := |Filter(deliveries, IsUnderWay)|,
      completed := |Filter(deliveries, IsCompleted)|)
  }

  /** The three counters count disjoint classes; together with the rows they do
      not see they account for every delivery. */
  lemma {:induction false} StatsPartition(deliveries: seq<Delivery>)
    ensures var s := CustomerStats(deliveries);
      s.pending + s.inProgress + s.completed + |Filter(deliveries, IsUncounted)| == s.total
  {
    CountDisjointUnion(deliveries, IsWaiting, IsUnderWay, IsWaitingOrUnderWay);
    CountDisjointUnion(deliveries, IsWaitingOrUnderWay, IsCompleted, IsCounted);
    CountComplement(deliveries, IsCounted, IsUncounted);
  }

  /** Cancelled deliveries are counted by none of the three counters. */
  lemma StatsLeaveOutCancelled(deliveries: seq<Delivery>)
    ensures var s := CustomerStats(deliveries);
      s.pending + s.inProgress + s.completed + |Filter(deliveries, IsCancelled)| <= s.total
  {
    StatsPartition(deliveries);
    CountMono(deliveries, IsCancelled, IsUncounted);
  }

  /** The dashboard counts only the caller's own deliveries, and nothing when
      the caller is not signed in or the query fails. */
  lemma DashboardCountsOwnRows(caller: Option<UserId>, rows: seq<Delivery>, queryError: Option<string>)
    ensures var shown := DashboardRows(DeliveryActions.MyDeliveries(caller, rows, queryError));
      && (forall d :: d in shown ==> caller.Some? && d.customerId == caller.value)
      && (caller.None? || queryError.Some? ==> CustomerStats(shown) == Stats(0, 0, 0, 0))
  {
  }

  /** "In progress" on the dashboard is the status set of the driver's assigned-deliveries query. */
  lemma UnderWayIsAssignedStatus(d: Delivery)
    ensures IsUnderWay(d) <==> DriverActions.IsAssignedStatus(d.status)
  {
  }
}
