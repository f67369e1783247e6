# Courier dispatch ledger in Dafny

This project models the core of a courier-dispatch web app. Customers post delivery requests. Drivers near the pickup see and claim them, report progress and stream their position. Customers cancel and rate their deliveries. Admins review accident reports.

The model covers three parts:

- **The delivery ledger.** These are the server actions of `lib/actions/driver.ts` and `lib/actions/deliveries.ts` and the three tables they read and write: `deliveries`, `driver_info` and `delivery_tracking`. Module `Ledger` holds one class, `Ledger`, whose fields are those tables. It has one method per action. Each write method's `ensures` ties the new table to a value-level function in `DriverActions` or `DeliveryActions`, such as `Claimed`, `StatusWritten` or `NewDeliveryRow`. `Dispatch` then proves properties of any sequence of those writes: the first driver to claim a delivery keeps it, and an assigned driver is never replaced.
- **The `POINT(lng lat)` text.** The actions write points as text and `getAvailableDeliveries` parses them back (`PointText`). The model proves the two round-trip.
- **Three screens.** These are the customer dashboard counters (`CustomerStats`), the accident screen's counters, labels and badges (`AccidentStats`), and the bottom navigation bar (`BottomNav`).

Module layout:

- `Common`: `Option`, `Response` (`{ error }` versus a success payload), `Filter`, `Take`, order preservation (`Chain`) and counting lemmas.
- `Schema`: rows of the three tables, RPC answer shapes, message constants and JavaScript truthiness.
- `PointText`: `${n}` rendering of numbers, `Number.parseFloat`, `String.replace` (first occurrence only), `split`, the point format and its parse.
- `DriverActions`, `DeliveryActions`: what each statement writes and what each query returns, as functions on the tables.
- `Ledger`: the stateful class.
- `Dispatch`: lemmas over interleavings of the actions.
- `CustomerStats`, `AccidentStats`, `BottomNav`: the screens.

External inputs are parameters:

- The authenticated user is `caller: Option<UserId>`, with `None` when `auth.getUser()` returns no user.
- The clock is `now`.
- A failing table statement is `dbError: Option<string>`. A failed statement writes nothing.
- Remote procedures (`calculate_distance`, `calculate_delivery_fee`, `find_nearby_drivers`) are function-valued oracles returning `Rpc(data, error)`.
- A query receives `rows`, the table as the database lists it in that query's `.order(...)`. Its result is stated as a filter of `rows` that keeps their order (`MyDeliveriesKeepsOrder` and `QueriesKeepOrder` for any order, `AvailableProperties` for `created_at`). A `.limit(n)` keeps the first n of them.
- `DistanceStep`, `FeeStep`, `NearbyDrivers` and `DashboardRows` only pass an RPC or query answer through. What a failure means for the tables, that it writes nothing, is stated by the `ensures` of `Ledger.Ledger.CreateDelivery`.

The model follows the code, not an idealised delivery lifecycle:

- A status is any string, because `updateDeliveryStatus` writes whatever it is given.
- Status and cancellation writes have no transition guard.
- `acceptDelivery` reports success even when its conditional update matched no row.
- `updateDeliveryStatus`, `cancelDelivery`, `rateDelivery` and `getNearbyDrivers` do not check the caller.

## Model

| member | source | states |
|---|---|---|
| Common.Filter | lib/actions/driver.ts:50-68 | the kept elements are exactly the input elements satisfying the test, and no more of them than the input has |
| Common.FilterKeepsChain | lib/actions/driver.ts:42 | filtering a list ordered by a relation keeps it ordered, so the order a query's `.order(...)` produced survives `filter` |
| Common.CountComplement | app/customer/page.tsx:29-34 | counts of a test and of its negation add up to the list length |
| Common.CountDisjointUnion | app/admin/accidents/page.tsx:26-32 | counts of two exclusive tests add up to the count of their disjunction |
| Common.FilterFilter | lib/actions/driver.ts:37-41 | filtering by one test and then by another keeps exactly what one filter by their conjunction keeps, in the same order (the open-row query followed by the nearby loop) |
| PointText.NumberRoundTrip | lib/actions/driver.ts:54-55 | `parseFloat` of the `${n}` text of an integer gives that integer back |
| PointText.SplitJoin | lib/actions/driver.ts:53 | splitting the join of pieces that do not contain the separator gives the pieces back |
| PointText.FormatPoint | lib/actions/driver.ts:232 | defines the `POINT(${lng} ${lat})` text written for driver positions (and at deliveries.ts lines 67 and 72 for pickups and drop-offs); its meaning is stated by PointText.PointRoundTrip |
| PointText.ParsePoint | lib/actions/driver.ts:53-55 | defines the parse of the loop: strip the first "POINT(" and the first ")", split on " ", and `parseFloat` the first two pieces as longitude and latitude; its meaning is stated by PointText.PointRoundTrip |
| PointText.PointRoundTrip | lib/actions/driver.ts:53-55 | the `replace("POINT(")`, `replace(")")`, `split(" ")`, `parseFloat` pipeline applied to `POINT(lng lat)` returns longitude then latitude |
| DriverActions.Claimed | lib/actions/driver.ts:135-143 | the claim touches only the row `id`, keeps every key, does nothing when the row already has a driver, and otherwise sets driver, "accepted" and `accepted_at` whatever the status |
| DriverActions.StatusWritten | lib/actions/driver.ts:155-166 | any status is written to row `id` only, stamping `picked_up_at` for "picked_up" and `delivered_at` for "delivered" and leaving both as they were otherwise |
| DriverActions.AvailabilityWritten | lib/actions/driver.ts:187 | only the caller's `driver_info` row changes, and only its `is_available` |
| DriverActions.LocationWritten | lib/actions/driver.ts:229-236 | only the caller's `driver_info` row changes: its point text and its latitude and longitude |
| DriverActions.HasLocation | lib/actions/driver.ts:20 | defines the branch test `driverInfo && current_latitude && current_longitude`, where null and 0 are falsy; its consequence is stated by DriverActions.UnlocatedFallsBack |
| DriverActions.IsNear | lib/actions/driver.ts:50-64 | defines the loop's keep test: a truthy `pickup_location`, and `calculate_distance` from the driver to the parsed pickup (latitude as `lat2`, longitude as `lon2`) truthy and at most 10; stated for created rows by Dispatch.CreatedRowDistance |
| DriverActions.Available | lib/actions/driver.ts:20-70 | what the action returns once its queries succeed; its own contract gives at most 20 rows, each open and from the table, and DriverActions.AvailableProperties gives the rest |
| DriverActions.AvailableProperties | lib/actions/driver.ts:6-71 | at most 20 rows, all pending and unassigned; with a located driver every row is within 10 km with a nonzero distance; the result is the leading part of the qualifying rows in the database's `created_at`-descending order (`.limit(20)` at line 28, `.slice(0, 20)` at line 70), so it is the 20 newest or all of them; the order is kept |
| DriverActions.ZeroDistanceDropped | lib/actions/driver.ts:64 | a pickup at distance 0 fails the `distance &&` test and is never listed |
| DriverActions.UnlocatedFallsBack | lib/actions/driver.ts:18-35 | a driver with no readable `driver_info` row, or with a stored latitude or longitude that is null or 0, takes the fallback branch and sees the first 20 open rows, unfiltered |
| DriverActions.MyAssignedDeliveries | lib/actions/driver.ts:73-96 | auth and query errors pass through; otherwise the result holds exactly the caller's rows in accepted, picked_up or in_transit |
| DriverActions.MyDeliveryHistory | lib/actions/driver.ts:98-122 | auth and query errors pass through; otherwise the first `min(50, n)` of the caller's n delivered or cancelled rows in the database's `delivered_at` order (`.limit(50)`), so all of them when fewer than 50 |
| DriverActions.QueriesKeepOrder | lib/actions/driver.ts:89-115 | the assigned-deliveries and history queries keep whatever order the database listed the rows in (`accepted_at` and `delivered_at` descending) |
| DeliveryActions.DistanceStep | lib/actions/deliveries.ts:37-49 | pass-through of the RPC: `calculate_distance` is asked pickup to drop-off; its error becomes "거리 계산에 실패했습니다", otherwise its data is the distance |
| DeliveryActions.FeeStep | lib/actions/deliveries.ts:51-60 | pass-through of the RPC: an error, no data or an empty list becomes "요금 계산에 실패했습니다"; otherwise the first fee row is used |
| DeliveryActions.NewDeliveryRow | lib/actions/deliveries.ts:62-88 | defines the inserted row column by column, with the id and `created_at` the database fills in and every other column null; its properties are stated by DeliveryActions.NewRowProperties |
| DeliveryActions.NearbyDriversCount | lib/actions/deliveries.ts:105 | `nearbyDrivers?.length \|\| 0`: the number of rows `find_nearby_drivers` returned, 0 when its data is null |
| DeliveryActions.NewRowProperties | lib/actions/deliveries.ts:62-88 | the inserted row is pending, unassigned and unstamped, belongs to the caller, carries the distance and the five fees, and both point texts parse back to their coordinates |
| DeliveryActions.CancelWritten | lib/actions/deliveries.ts:136-142 | row `id` only: status "cancelled" and `cancelled_at`, whatever the status was |
| DeliveryActions.RatingWritten | lib/actions/deliveries.ts:155-161 | row `id` only: the rating, and the review when one is given; an omitted review leaves the stored one |
| DeliveryActions.MyDeliveries | lib/actions/deliveries.ts:109-131 | auth and query errors pass through; otherwise exactly the caller's own rows, newest first |
| DeliveryActions.MyDeliveriesKeepsOrder | lib/actions/deliveries.ts:120-130 | the caller's rows come back in whatever order the database listed them (`created_at` descending at line 124), so under a strict order each appears once |
| DeliveryActions.NearbyDrivers | lib/actions/deliveries.ts:171-186 | pass-through of the RPC: `find_nearby_drivers` is asked with 10 km and a limit of 10; its error passes through, otherwise its data is returned |
| Ledger.Ledger.AcceptDelivery | lib/actions/driver.ts:124-151 | no caller or a failed update changes nothing and reports the error; otherwise the table becomes `Claimed` and success is reported |
| Ledger.Ledger.UpdateDeliveryStatus | lib/actions/driver.ts:153-174 | a failed update changes nothing; otherwise the table becomes `StatusWritten` |
| Ledger.Ledger.GetAvailableDeliveries | lib/actions/driver.ts:6-71 | over `rows` holding exactly the ledger's `deliveries` rows, the loop returns exactly `Available` of the caller's `driver_info` row, or `Available` with no row when that read failed (its error is discarded at line 18), or the auth or query error; every listed row is the row stored under its id |
| Ledger.KeepNear | lib/actions/driver.ts:49-68 | the `for` loop with its `push` returns exactly the open rows that pass `IsNear`, in their order |
| Ledger.Ledger.UpdateDriverAvailability | lib/actions/driver.ts:176-195 | no caller or a failed update changes nothing; otherwise `driver_info` becomes `AvailabilityWritten` |
| Ledger.Ledger.UpdateDriverLocation | lib/actions/driver.ts:217-256 | the position is written first; one tracking row is appended exactly when that succeeded, a non-empty delivery id was given and the insert succeeded; a failed insert still reports success |
| Ledger.Ledger.CreateDelivery | lib/actions/deliveries.ts:26-107 | each failure (auth, distance, fee, insert) returns its message and writes nothing; success inserts `NewDeliveryRow` under the new id and returns it with the count `find_nearby_drivers` returns when asked for 5 drivers within 10 km |
| Ledger.Ledger.CancelDelivery | lib/actions/deliveries.ts:133-150 | a failed update changes nothing; otherwise the table becomes `CancelWritten` |
| Ledger.Ledger.RateDelivery | lib/actions/deliveries.ts:152-169 | a failed update changes nothing; otherwise the table becomes `RatingWritten` |
| Dispatch.ApplyKeepsDriver | lib/actions/driver.ts:135-143 | no write removes a row or changes its driver, except a claim on an unassigned row, which sets the claimer |
| Dispatch.ApplyKeepsKeyed | lib/actions/driver.ts:142 | no write moves a row to another key, so every `.eq("id", …)` update finds the row stored under that id |
| Dispatch.ReplayKeepsKeyed | lib/actions/driver.ts:142 | after any sequence of writes the `deliveries` table is still keyed by row id, the invariant `Ledger.Valid` keeps |
| Dispatch.CreateIsInsert | lib/actions/deliveries.ts:62-88 | the table write of a successful `createDelivery` is the `Insert` of its new row and adds exactly the new key |
| Dispatch.StoredRows | lib/actions/driver.ts:37-42 | in a table keyed by id, each row a query lists is the row stored under its own id |
| Dispatch.ClaimedNeverAvailable | lib/actions/driver.ts:26 | after `acceptDelivery` on a row, the available-deliveries query over the new table never lists that row, because its `.is("driver_id", null)` filter (lines 26 and 41) now fails |
| Dispatch.AssignedDriverIsKept | lib/actions/driver.ts:143 | once a row has a driver, no sequence of claims, status writes, cancellations, ratings and inserts replaces it |
| Dispatch.FirstClaimWins | lib/actions/driver.ts:142-143 | after any sequence of writes, an unassigned row's driver is the first claimer in the sequence |
| Dispatch.SecondClaimChangesNothing | lib/actions/driver.ts:143-150 | a second claim on a claimed row leaves the table as the first claim left it |
| Dispatch.ClaimIgnoresStatus | lib/actions/driver.ts:137-143 | an unassigned cancelled row can still be claimed and becomes "accepted" |
| Dispatch.CreatedRowDistance | lib/actions/driver.ts:51-64 | for a created row, the nearby test asks `calculate_distance` about exactly its pickup latitude and longitude |
| CustomerStats.DashboardRows | app/customer/page.tsx:27 | pass-through of `{ deliveries = [] }`: an error answer counts as an empty list |
| CustomerStats.CustomerStats | app/customer/page.tsx:29-34 | defines the four counters as `filter(...).length` over the rows; their relations are stated by CustomerStats.StatsPartition and CustomerStats.StatsLeaveOutCancelled |
| CustomerStats.StatsPartition | app/customer/page.tsx:29-34 | pending, in progress and completed are disjoint and, with the rows none of them counts, add up to the total |
| CustomerStats.StatsLeaveOutCancelled | app/customer/page.tsx:29-34 | cancelled deliveries are counted by none of the three counters |
| CustomerStats.DashboardCountsOwnRows | app/customer/page.tsx:27-34 | only the caller's own deliveries are counted, and all counters are 0 when signed out or on a query error |
| CustomerStats.UnderWayIsAssignedStatus | app/customer/page.tsx:32 | "in progress" is exactly the status set of the driver's assigned-deliveries query |
| AccidentStats.ResolvedCardCounts | app/admin/accidents/page.tsx:78 | the "해결됨" card counts the reports that are resolved or closed |
| AccidentStats.AccidentStats | app/admin/accidents/page.tsx:26-32 | defines the five counters as `filter(...).length` over the reports; their relations are stated by AccidentStats.StatusCountsPartition and AccidentStats.CardsAddUpIff |
| AccidentStats.StatusCountsPartition | app/admin/accidents/page.tsx:26-32 | the four status counters are disjoint and, with the reports of any other status, add up to the total |
| AccidentStats.CardsAddUpIff | app/admin/accidents/page.tsx:26-78 | the three status cards sum to the total card exactly when every report has one of the four statuses |
| AccidentStats.TypeLabel | app/admin/accidents/page.tsx:101-107 | the three known types get their labels, and "기타" is shown exactly for every other type |
| AccidentStats.StatusLabel | app/admin/accidents/page.tsx:132-138 | closed, resolved and investigating get their labels, and "접수됨" is shown exactly for every other status |
| AccidentStats.StatusStyle | app/admin/accidents/page.tsx:122-130 | defines the badge classes by the same case split as the text (gray, green, blue, yellow); the pairing is stated by AccidentStats.BadgeConsistent |
| AccidentStats.BadgeConsistent | app/admin/accidents/page.tsx:122-138 | two statuses get the same badge colour exactly when they get the same badge text |
| BottomNav.HiddenIffAuth | components/layout/bottom-nav.tsx:10-12 | nothing is rendered exactly when the path starts with "/auth" |
| BottomNav.Render | components/layout/bottom-nav.tsx:10-99 | defines the rendered bar for a possibly null pathname: nothing on "/auth" paths, otherwise home, the role links of the path's prefix, and "내 정보", each with its highlight test; its properties are stated by the BottomNav lemmas |
| BottomNav.HomeAndProfileAlwaysShown | components/layout/bottom-nav.tsx:22-31 | otherwise the bar begins with the home link and ends with the "내 정보" link |
| BottomNav.RoleLinksIff | components/layout/bottom-nav.tsx:14-16 | the customer, driver and admin links appear exactly on paths with their prefixes |
| BottomNav.AtMostOneRole | components/layout/bottom-nav.tsx:33-86 | no path has two role prefixes, so the bar holds two to four links |
| BottomNav.HighlightIffExact | components/layout/bottom-nav.tsx:88-99 | a link is highlighted exactly on its own path, and "내 정보" (active at line 92 only on "/auth" paths) never is |

## Left out

- The remote procedures `calculate_distance`, `calculate_delivery_fee` and `find_nearby_drivers` are oracles: their SQL is not part of this model.
- Coordinates are integers and distances are reals. JavaScript floating point, and `${n}` rendering of fractions and exponents, are not modelled.
- PointText.ParseNumber: `Number.parseFloat` is modelled on an optional sign and a digit run. Leading whitespace, fractions, exponents and "Infinity" are not modelled.
- The stored `pickup_location` is taken to be the text the insert wrote. How the PostGIS column echoes it back is not part of this model.
- Session handling, `revalidatePath`, redirects, `console.error` and rendering markup are framework effects without state in the model.
- Concurrent requests are not modelled. `Dispatch` covers every sequential interleaving of the writes.
- DriverActions.MyAssignedDeliveries, DriverActions.MyDeliveryHistory and DeliveryActions.MyDeliveries are functions of `rows` and do not state that `rows` lists the ledger's `deliveries` table; only `Ledger.Ledger.GetAvailableDeliveries` requires that link.
- The order in which the database lists rows is an input (`rows`). The model states that each query keeps it, not that the `.order(...)` column produces it.
- `TruthyNumber` over integer coordinates captures the falsy 0. NaN is not modelled.
- `getDriverInfo`, the authentication actions, the accident-report actions and the other screens are not part of this model.
- Ledger.Ledger.CreateDelivery: the new row's id is a parameter required to be fresh, because the database generates it.
- Ledger.Ledger.AcceptDelivery: the claim runs atomically in one statement. Racing requests inside the database are not modelled.
