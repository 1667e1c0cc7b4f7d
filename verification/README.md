# manage-petro order engine in Dafny

This project models the core of manage-petro, a multi-tenant back end for
fuel-delivery orders, and proves properties of the model.

- **Orders.** A dispatcher creates an order for a client's location. The order
  moves through `DRAFT`, `SUBMITTED`, `SCHEDULED` (a truck is booked for its
  delivery window), `EN_ROUTE` (a driver is dispatched), `DELIVERED` and
  `CANCELLED`.
- **Tenancy.** Every row belongs to a tenant. The tenant is resolved from the
  route slug, and every query is filtered by it.
- **Rules around the lifecycle.** Trucks, locations and clients each have
  guards. Four role policies decide who may do what, and the front end keeps
  its own permission matrix. Every write leaves a row in the audit trail. The
  dashboard aggregates counts and sums, and the request classes validate
  input.

## Structure

The modules follow the application's own layers.

- **`Schema`, `Store`.** The rows as the migrations declare them. `Store`
  holds the whole database: `Tables` is its state as a value, and
  `Database` is the mutable store. The migrations' integrity conditions form
  the invariant `Store.Consistent`:
  - composite `(id, tenant_id)` foreign keys;
  - unique ids;
  - one plate per tenant;
  - window ends present past `DRAFT`;
  - no truck double-booked.
- **`Tenancy`.** The `BelongsToTenant` global scope and `creating` hook, and
  `TenantMiddleware`.
- **`Availability`, `OrderQueries`, `TruckQueries`.** The read-only
  repository queries, with `orderBy` modelled as a sort (`Sorting`).
- **`ActivityLog`.** The payloads of `ActivityLogger` and the formatted
  description of `ActivityLog`.
- **Services.** `OrderRules`, `TruckRules`, `LocationRules` and `ClientRules`
  are decision functions: the outcome of each service call as a value.
  - An outcome holds the new tables, the audit rows appended and the result
    or error.
  - `OrderServices`, `TruckServices`, `LocationServices` and `ClientServices`
    are classes whose methods update the `Database` in place.
  - Each method is proved equal to its decision function.
  - The `*Properties`/`*Spec` lemmas state the guards and effects.
  - The `*Preserves` lemmas prove that `Consistent` is kept.
- **`Policies`, `Permissions`.** The server-side policies and the front-end
  `usePermissions` hook, compared against each other.
- **`Dashboard`.** The aggregates of `DashboardService`.
- **`OrderControllerRules`, `OrderControllers`.** The check order and status
  codes of the two order controllers.
- **`Requests`.** The validation rule tables of the request classes, and the
  validated values they hand on.

The bound tenant, the authenticated user and the clock are explicit
parameters. Every `OrderService` transition loads the order through the
tenant scope, throws at its first failed guard, saves, and then logs. A
PHP exception maps onto `Store.ServiceError`:

- `ModelNotFoundException` becomes `NotFound`.
- `\Exception` becomes `Refused`.
- `QueryException` becomes `Integrity`.
- `\Error` becomes `Fatal`.

The availability query is inclusive at both ends (`BETWEEN`), so windows
that only touch conflict. The invariant "no truck double-booked"
(`Store.NoDoubleBooking`) counts two bookings as overlapping only when both
windows are well formed: a window ending before it starts holds no instant
and so counts as no booking. The source lets such a window be stored, since
`after:window_start` in UpdateOrderRequest.php passes when only `window_end`
is sent.

## Model

| member | source | states |
|---|---|---|
| Schema.ParseStatus | database/migrations/2024_01_05_000000_create_orders_table.php:31-32 | only the six enum literals are accepted, each read back as the status it names |
| Schema.StatusRoundTrip | database/migrations/2024_01_05_000000_create_orders_table.php:31-32 | every status survives the enum column unchanged |
| Schema.StatusNameInjective | database/migrations/2024_01_05_000000_create_orders_table.php:31 | distinct statuses are stored as distinct strings |
| Schema.OrderAttributes | database/migrations/2024_01_05_000000_create_orders_table.php:15-42 | an order row as its attribute array carries its id and its status name |
| Schema.OrderAttributesSameColumns | database/migrations/2024_01_05_000000_create_orders_table.php:15-42 | every order row has the same columns |
| Schema.OrderAttributesInjective | database/migrations/2024_01_05_000000_create_orders_table.php:15-42 | the attribute array loses nothing: equal arrays come from equal rows |
| Store.Empty | database/migrations/2024_01_05_000000_create_orders_table.php:14-85 | an empty database satisfies every declared constraint |
| Store.OverlappingSymmetric | app/Modules/Orders/Repositories/OrderRepository.php:94-101 | two bookings overlap regardless of which one is asked about |
| Store.NoDoubleBookingReplace | app/Modules/Orders/Services/OrderService.php:179-192 | rewriting one order that overlaps no other booking keeps "no truck double-booked" |
| Store.NoDoubleBookingReplaceUnbooked | app/Modules/Orders/Services/OrderService.php:279-296 | a row leaving SCHEDULED/EN_ROUTE never creates a double booking |
| Store.NoDoubleBookingReplaceSameSlot | app/Modules/Orders/Services/OrderService.php:208-227 | a row keeping its truck, window and booked status keeps the invariant |
| Store.NoDoubleBookingAppendUnbooked | app/Modules/Orders/Services/OrderService.php:59-74 | inserting an unbooked order keeps the invariant |
| Store.NoDoubleBookingRemove | app/Modules/Orders/Services/OrderService.php:116-127 | deleting an order keeps the invariant |
| Store.FreshIdDistinct | database/migrations/2024_01_05_000000_create_orders_table.php:15 | the next auto-increment id is unused, so inserting under it keeps ids distinct |
| Store.IdsBelowUpdate | database/migrations/2024_01_05_000000_create_orders_table.php:15 | rewriting a row under its own id keeps every id below the counter |
| Store.IdsBelowRemove | database/migrations/2024_01_05_000000_create_orders_table.php:15 | deleting a row keeps every id below the counter |
| Store.ReplaceOrderConsistent | database/migrations/2024_01_05_000000_create_orders_table.php:44-74 | an order rewritten under its key with valid references and no overlap keeps the database consistent |
| Store.AppendOrderConsistent | database/migrations/2024_01_05_000000_create_orders_table.php:44-74 | a DRAFT order inserted under the next id with valid references keeps the database consistent |
| Store.RemoveOrderConsistent | database/migrations/2024_01_05_000000_create_orders_table.php:44-74 | deleting an order keeps the database consistent |
| Store.ReplaceTruckConsistent | database/migrations/2024_01_03_000000_create_delivery_trucks_table.php:22-25 | a truck rewritten under its key with a plate free in its tenant keeps the database consistent |
| Store.AppendTruckConsistent | database/migrations/2024_01_03_000000_create_delivery_trucks_table.php:22-25 | a truck inserted with a plate free in its tenant keeps the database consistent |
| Store.RemoveTruckConsistent | database/migrations/2024_01_05_000000_create_orders_table.php:58-62 | deleting a truck no order references keeps the database consistent (restrictOnDelete) |
| Store.ReplaceClientConsistent | database/migrations/2024_01_04_000000_create_locations_table.php:23-27 | a client rewritten under its key keeps the database consistent |
| Store.AppendClientConsistent | database/migrations/2024_01_04_000000_create_locations_table.php:23-27 | a client inserted under the next id keeps the database consistent |
| Store.RemoveClientConsistent | database/migrations/2024_01_04_000000_create_locations_table.php:23-27 | deleting a client no location and no order references keeps the database consistent |
| Store.ReplaceLocationConsistent | database/migrations/2024_01_04_000000_create_locations_table.php:23-27 | a location rewritten to a client of its own tenant keeps the database consistent |
| Store.AppendLocationConsistent | database/migrations/2024_01_04_000000_create_locations_table.php:23-27 | a location inserted for a client of its own tenant keeps the database consistent |
| Store.RemoveLocationConsistent | database/migrations/2024_01_05_000000_create_orders_table.php:52-56 | deleting a location no order references keeps the database consistent |
| Store.Fail | app/Modules/Orders/Services/OrderService.php:89-90 | a guard that throws leaves the tables as they were and logs nothing |
| Store.Logged | app/Modules/ActivityLog/Services/ActivityLogger.php:22-38 | after a write the logger appends exactly its one row, or throws and leaves the write in place |
| Store.Database.constructor | database/migrations/2024_01_05_000000_create_orders_table.php:14-85 | a new database holds only the given users, satisfies every declared constraint and has an empty audit trail |
| Store.Database.Commit | app/Modules/Orders/Services/OrderService.php:148-151 | the stored state becomes the given tables and the audit trail grows by exactly the given rows |
| Tenancy.ScopeOf | app/Modules/Shared/Concerns/BelongsToTenant.php:24-28 | the query is filtered exactly when a tenant is bound, and by that tenant's id |
| Tenancy.FindById | app/Modules/Shared/Concerns/BelongsToTenant.php:24-28 | a lookup finds the first row with the id in the bound tenant, and fails only when no such row exists |
| Tenancy.Find | app/Modules/Shared/Concerns/BelongsToTenant.php:24-28 | the scanning lookup returns what `FindById` specifies |
| Tenancy.FindAfterUpdate | app/Modules/Shared/Concerns/BelongsToTenant.php:24-28 | rewriting the found row under the same key leaves the lookup unchanged |
| Tenancy.FoundIffKeyInTenant | app/Modules/Shared/Concerns/BelongsToTenant.php:24-28 | with a tenant bound, a lookup succeeds iff the tenant owns a row with that id |
| Tenancy.ForeignIdNotFound | app/Modules/Shared/Concerns/BelongsToTenant.php:24-28 | another tenant's id is not found |
| Tenancy.UnscopedFindsAnyTenant | app/Modules/Shared/Concerns/BelongsToTenant.php:25 | with no tenant bound, any tenant's row is found |
| Tenancy.StampKeepsGiven | app/Modules/Shared/Concerns/BelongsToTenant.php:18 | an explicit tenant_id is kept, even when another tenant is bound |
| Tenancy.StampFillsUnset | app/Modules/Shared/Concerns/BelongsToTenant.php:17-21 | an unset tenant_id becomes the bound tenant's, or stays unset when none is bound |
| Tenancy.ScopeFilter | app/Modules/Shared/Concerns/BelongsToTenant.php:24-28 | every row a scoped query returns is in scope |
| Tenancy.ScopeFilterMembers | app/Modules/Shared/Concerns/BelongsToTenant.php:24-28 | a scoped query keeps exactly the rows of the bound tenant |
| Tenancy.ScopeFilterIsFilter | app/Modules/Shared/Concerns/BelongsToTenant.php:26 | the scope is the `where tenant_id = ?` clause |
| Tenancy.ScopedRowsBelongToTenant | app/Modules/Shared/Concerns/BelongsToTenant.php:24-28 | with a tenant bound, every row seen belongs to it |
| Tenancy.UnscopedIsIdentity | app/Modules/Shared/Concerns/BelongsToTenant.php:25 | with no tenant bound, no filter applies |
| Tenancy.ResolveSlug | app/Modules/Shared/Tenancy/TenantMiddleware.php:25 | the slug resolves to the first tenant carrying it, or to none when no tenant does |
| Tenancy.TenantContext.constructor | app/Modules/Shared/Tenancy/TenantMiddleware.php:32 | initially no tenant is bound |
| Tenancy.TenantContext.Handle | app/Modules/Shared/Tenancy/TenantMiddleware.php:17-35 | a falsy slug aborts with 400 and an unknown one with 404, neither binding anything; a known slug binds exactly its tenant |
| Text.ToLower | app/Modules/ActivityLog/Services/ActivityLogger.php:118 | `strtolower` keeps the length, lowers exactly A-Z and leaves no upper-case ASCII letter |
| Text.ToLowerIdempotent | app/Modules/ActivityLog/Services/ActivityLogger.php:118 | lower-casing twice is lower-casing once |
| Text.NatToString | app/Modules/ActivityLog/Services/ActivityLogger.php:120-125 | `%d` of a natural number is a non-empty string of digits |
| Text.NatToStringRoundTrip | app/Modules/ActivityLog/Services/ActivityLogger.php:120-125 | reading the `%d` digits back gives the number |
| Text.IntToString | app/Modules/ActivityLog/Domain/Models/ActivityLog.php:62-70 | a negative id is printed as a minus sign before its digits |
| Text.ClassBasename | app/Modules/ActivityLog/Domain/Models/ActivityLog.php:58 | `class_basename` is a suffix of the class name with no backslash in it |
| Sorting.SortBySorted | app/Modules/Orders/Repositories/OrderRepository.php:46 | `orderBy` returns rows in the requested order |
| Sorting.SortByMembers | app/Modules/Orders/Repositories/OrderRepository.php:41-48 | `orderBy` returns exactly the selected rows |
| Availability.InclusiveIsClosedIntersection | app/Modules/Orders/Repositories/OrderRepository.php:94-101 | for well-formed windows the three-way BETWEEN test is exactly closed-interval intersection |
| Availability.ClosedIntersectSymmetric | app/Modules/Orders/Repositories/OrderRepository.php:94-101 | closed intersection is symmetric |
| Availability.TouchingWindowsConflict | app/Modules/Orders/Repositories/OrderRepository.php:94-101 | an order over [10,12] conflicts with a request for [12,14], which a half-open test would allow |
| Availability.NullWindowOnlyMatchesThroughOtherEnd | app/Modules/Orders/Repositories/OrderRepository.php:94-101 | an order without a start matches only when its end lies in the window |
| Availability.ScheduledInWindow | app/Modules/Orders/Repositories/OrderRepository.php:89-108 | every order returned has the truck, is SCHEDULED or EN_ROUTE, meets the window and is not the excluded one |
| Availability.ScheduledInWindowMembers | app/Modules/Orders/Repositories/OrderRepository.php:89-108 | the result holds exactly the orders meeting every condition of the query |
| Availability.ExcludeRemovesExactly | app/Modules/Orders/Repositories/OrderRepository.php:103-105 | a truthy exclude id removes exactly that order and nothing else |
| Availability.ZeroExcludeIgnored | app/Modules/Orders/Repositories/OrderRepository.php:103 | an exclude id of 0 is falsy and changes nothing |
| Availability.UnbookedNeverConflicts | app/Modules/Orders/Repositories/OrderRepository.php:93 | an order that is not SCHEDULED or EN_ROUTE never conflicts |
| Availability.IsAvailableIffNoConflicts | app/Modules/Trucks/Repositories/TruckRepository.php:47-66 | `isAvailable` holds iff `getScheduledInWindow` with the same arguments returns nothing |
| Availability.NoConflictMeansDisjoint | app/Modules/Trucks/Repositories/TruckRepository.php:47-66 | with no conflict, a well-formed window intersects no booking of the truck |
| OrderQueries.OrderingsArePreorders | app/Modules/Orders/Repositories/OrderRepository.php:24 | the created, updated and window-start orderings are total preorders |
| OrderQueries.ByStatusSpec | app/Modules/Orders/Repositories/OrderRepository.php:41-48 | `getByStatus` returns exactly the tenant's orders with that status, earliest window first |
| OrderQueries.RecentSpec | app/Modules/Orders/Repositories/OrderRepository.php:145-152 | `getRecent` returns at most `limit` orders of the tenant, most recently updated first, and all of them when there are few |
| OrderQueries.TrucksInUseSpec | app/Modules/Orders/Repositories/OrderRepository.php:123-130 | the trucks in use are exactly the non-null truck ids of SCHEDULED and EN_ROUTE orders |
| OrderQueries.SearchAndFilterSpec | app/Modules/Orders/Repositories/OrderRepository.php:157-198 | `searchAndFilter` returns exactly the orders meeting every non-empty filter, newest first |
| OrderQueries.NoFilterMatchesAll | app/Modules/Orders/Repositories/OrderRepository.php:157-198 | empty filters constrain nothing |
| OrderQueries.NoFilterSearchIsAll | app/Modules/Orders/Repositories/OrderRepository.php:157-198 | with no filter the search lists every order of the tenant |
| OrderQueries.LegacyBranchListsAll | app/Modules/Orders/Services/OrderService.php:27-38 | the legacy listing that `index` reaches without filters lists every order, as the search would |
| OrderQueries.IndexWithFilter | app/Modules/Orders/Http/Controllers/OrderController.php:28-38 | with any filter given, `index` returns exactly the matching orders |
| TruckQueries.LexLeTotal | app/Modules/Trucks/Repositories/TruckRepository.php:24 | plate order compares every pair |
| TruckQueries.LexLeTransitive | app/Modules/Trucks/Repositories/TruckRepository.php:24 | plate order is transitive |
| TruckQueries.PlateOrderIsPreorder | app/Modules/Trucks/Repositories/TruckRepository.php:24 | ordering trucks by plate is a total preorder |
| TruckQueries.ActiveSpec | app/Modules/Trucks/Repositories/TruckRepository.php:20-26 | `getActive` returns exactly the tenant's active trucks, by plate |
| TruckQueries.AllTrucksSpec | app/Modules/Trucks/Repositories/TruckRepository.php:31-42 | with `activeOnly` the listing equals `getActive`, without it every truck of the tenant, by plate |
| TruckQueries.FindByPlateNo | app/Modules/Trucks/Repositories/TruckRepository.php:72-77 | finds a truck of the tenant with that plate, and fails only when there is none |
| TruckQueries.PlateHolderIsAnother | app/Modules/Trucks/Services/TruckService.php:61-65 | a truck found under a plate different from the row's own is another truck |
| ActivityLog.Log | app/Modules/ActivityLog/Services/ActivityLogger.php:14-39 | without a user it throws; otherwise one row stamped with the user's tenant and id and carrying the given payload |
| ActivityLog.CreatedDeletedMirror | app/Modules/ActivityLog/Services/ActivityLogger.php:44-87 | a creation has no old values and all attributes as new values; a deletion is the mirror image |
| ActivityLog.Changes | app/Modules/ActivityLog/Services/ActivityLogger.php:61 | `getChanges` holds exactly the attributes whose value changed, with their new values |
| ActivityLog.ChangesOfDifferentArrays | app/Modules/ActivityLog/Services/ActivityLogger.php:61 | two different arrays over the same columns always have a change |
| ActivityLog.IntersectKey | app/Modules/ActivityLog/Services/ActivityLogger.php:62 | `array_intersect_key` keeps the entries of the first array whose key the second has |
| ActivityLog.LogUpdatedPairsValues | app/Modules/ActivityLog/Services/ActivityLogger.php:59-72 | an update record names exactly the changed columns, each with its old and its new value |
| ActivityLog.TransitionPayload | app/Modules/ActivityLog/Services/ActivityLogger.php:112-135 | the action is the lower-cased new status, old values `{status: old}`, new values `{status: new}` merged with the extra data, and the transition sentence as description |
| ActivityLog.TransitionActions | app/Modules/ActivityLog/Services/ActivityLogger.php:118 | each status gives its own lower-case action name |
| ActivityLog.StoredDescriptionVerbatim | app/Modules/ActivityLog/Domain/Models/ActivityLog.php:54-56 | a truthy stored description is shown verbatim |
| ActivityLog.EnRouteTakesFallback | app/Modules/ActivityLog/Domain/Models/ActivityLog.php:61-71 | the `en_route` action has no template and takes the "performed" fallback |
| ActivityLog.TransitionShownVerbatim | app/Modules/ActivityLog/Domain/Models/ActivityLog.php:54-56 | a transition row is always shown by its own sentence |
| OrderRules.ApplyPatch | app/Modules/Orders/Services/OrderService.php:105 | an update never touches id, tenant, status, truck, driver or creator |
| OrderRules.Transition | app/Modules/Orders/Services/OrderService.php:148-151 | a transition writes exactly the changed order into its row |
| OrderProperties.CreateOrderSpec | app/Modules/Orders/Services/OrderService.php:59-79 | success only with client and location found in the tenant and paired; the new order is DRAFT, of the bound tenant, created by the acting user, with no truck or driver, appended to the table |
| OrderProperties.CreatedRowHasInsertedKeys | app/Modules/Orders/Services/OrderService.php:70-77 | a successful create logs one `created` row with no old values whose new values hold exactly the inserted keys (the sent fields, `status`, `created_by`, `tenant_id`, the id and the timestamps) with the new order's values; an unsent window stays null |
| OrderProperties.CreateOrderForeignClient | app/Modules/Orders/Services/OrderService.php:61 | another tenant's client is not found and nothing is written |
| OrderProperties.CreateOrderPreserves | app/Modules/Orders/Services/OrderService.php:59-79 | `createOrder` keeps the database consistent |
| OrderProperties.UpdateOrderSpec | app/Modules/Orders/Services/OrderService.php:85-110 | not found, then non-DRAFT refused; a success rewrites exactly that row with the sent fields, stays DRAFT, and a sent client or location ends up paired within the tenant |
| OrderProperties.UpdateWithoutIdsSkipsPairing | app/Modules/Orders/Services/OrderService.php:94 | without a client or location in the request, a DRAFT update fails only when no user is signed in |
| OrderProperties.UpdateLocationOnlyUsesStoredClient | app/Modules/Orders/Services/OrderService.php:94-102 | a location sent alone is checked against the stored client |
| OrderProperties.AttributesDifferIffRowsDiffer | app/Modules/ActivityLog/Services/ActivityLogger.php:61 | two different order rows always differ in some column |
| OrderProperties.UpdateLogAsWrittenLosesChanges | app/Modules/Orders/Services/OrderService.php:108 | the update record built from the reloaded model has empty old and new values although the row changed |
| OrderProperties.UpdateLogRecordsChanges | app/Modules/Orders/Services/OrderService.php:105-108 | the corrected update record names exactly the changed columns with old and new values, and is empty iff nothing changed |
| OrderProperties.UpdateOrderPreserves | app/Modules/Orders/Services/OrderService.php:85-110 | `updateOrder` keeps the database consistent |
| OrderProperties.DeleteOrderSpec | app/Modules/Orders/Services/OrderService.php:116-127 | not found, then non-DRAFT refused; a success removes exactly the row after a `deleted` audit row with all attributes as old values; with no user signed in the logger throws first and the order stays |
| OrderProperties.DeleteOrderPreserves | app/Modules/Orders/Services/OrderService.php:116-127 | `deleteOrder` keeps the database consistent |
| OrderProperties.SubmitOrderSpec | app/Modules/Orders/Services/OrderService.php:133-153 | non-DRAFT refused, then zero litres or a missing window refused; otherwise only status and update time change, to SUBMITTED |
| OrderProperties.SubmitOrderPreserves | app/Modules/Orders/Services/OrderService.php:133-153 | `submitOrder` keeps the database consistent |
| OrderProperties.ScheduleOrderSpec | app/Modules/Orders/Services/OrderService.php:159-202 | refusals in order: not SUBMITTED, truck not in tenant, inactive, over capacity (equality passes), conflict; a write sets exactly truck, SCHEDULED and update time |
| OrderProperties.ScheduledOrderOverlapsNothing | app/Modules/Orders/Services/OrderService.php:179-186 | passing the conflict query rules out every overlap with the new booking |
| OrderProperties.ScheduleOrderPreserves | app/Modules/Orders/Services/OrderService.php:159-202 | scheduling keeps the database consistent, in particular no truck double-booked |
| OrderProperties.ScheduleNeverFatal | app/Modules/Orders/Services/OrderService.php:179-183 | in a consistent database a NULL window never reaches the conflict query |
| OrderProperties.ScheduleScopedNeverRefusedByDatabase | app/Modules/Orders/Services/OrderService.php:166-192 | with a tenant bound, the truck foreign key never refuses the write |
| OrderProperties.DispatchOrderSpec | app/Modules/Orders/Services/OrderService.php:208-237 | non-SCHEDULED refused, then no truck refused; a write sets exactly driver, EN_ROUTE and update time, with a driver of the order's tenant |
| OrderProperties.DispatchOrderPreserves | app/Modules/Orders/Services/OrderService.php:208-237 | dispatching keeps the database consistent |
| OrderProperties.OverLimitIsTenPercent | app/Modules/Orders/Services/OrderService.php:255 | the integer test `10*d > 11*fuel` is exactly `d > fuel * 1.1` in exact arithmetic |
| OrderProperties.OverLimitBoundary | app/Modules/Orders/Services/OrderService.php:255 | 1000 L accepts 1100 L and rejects 1101 L |
| OrderProperties.DeliverOrderSpec | app/Modules/Orders/Services/OrderService.php:243-273 | the order changes iff it is EN_ROUTE and `0 < d <= 1.1*fuel`; refusals in source order; a write records d, the time and DELIVERED |
| OrderProperties.DeliverOrderPreserves | app/Modules/Orders/Services/OrderService.php:243-273 | delivering keeps the database consistent |
| OrderProperties.CancelOrderSpec | app/Modules/Orders/Services/OrderService.php:279-306 | DELIVERED and CANCELLED refused with their messages; the order changes iff in one of the other four; a truthy reason is stored, otherwise the old one stays |
| OrderProperties.CancelOrderPreserves | app/Modules/Orders/Services/OrderService.php:279-306 | cancelling keeps the database consistent |
| OrderProperties.TerminalStatusesAreFinal | app/Modules/Orders/Services/OrderService.php:283-289 | no operation changes a DELIVERED or CANCELLED order |
| OrderProperties.OnlyScheduleBooks | app/Modules/Orders/Services/OrderService.php:89-91 | from an unbooked status, no operation but scheduling makes an order SCHEDULED or EN_ROUTE |
| OrderProperties.ForeignOrderIsNotFound | app/Modules/Shared/Concerns/BelongsToTenant.php:24-28 | every order operation treats another tenant's order as not found and writes nothing |
| OrderProperties.ScheduleOnTruckTransition | app/Modules/Orders/Services/OrderService.php:192-200 | a booking that passes every check is the SCHEDULED transition carrying the truck's id and plate |
| OrderProperties.ScheduleLogsOnce | app/Modules/Orders/Services/OrderService.php:195-200 | a successful scheduling appends one `scheduled` row by the acting user naming the truck |
| OrderProperties.DispatchLogsOnce | app/Modules/Orders/Services/OrderService.php:230-235 | a successful dispatch appends one `en_route` row naming the driver |
| OrderProperties.TransitionEntry | app/Modules/ActivityLog/Services/ActivityLogger.php:112-135 | a successful transition logs one row by the actor: the lower-cased new status as action, `{status: old}` as old values, and `{status: new}` with every extra key and value as new values |
| OrderProperties.SubmitLogsOnce | app/Modules/Orders/Services/OrderService.php:146-151 | a successful submission appends one `submitted` row by the acting user for the order, old values `{status: DRAFT}`, new values exactly `{status: SUBMITTED}` |
| OrderProperties.DeliverLogsOnce | app/Modules/Orders/Services/OrderService.php:259-271 | a successful delivery appends one `delivered` row by the acting user, old values `{status: EN_ROUTE}`, new values exactly `status` DELIVERED, `delivered_liters` the delivered amount and `delivered_at` the delivery time |
| OrderProperties.CancelLogsOnce | app/Modules/Orders/Services/OrderService.php:291-304 | a successful cancellation appends one `cancelled` row by the acting user, old values the order's stored status, new values exactly `status` CANCELLED and `cancellation_reason` the reason as given, null when none was sent |
| OrderServices.OrderService.constructor | app/Modules/Orders/Services/OrderService.php:16-20 | the service works on the given database |
| OrderServices.OrderService.SaveTransition | app/Modules/Orders/Services/OrderService.php:148-151 | saving then logging leaves the state and audit rows `OrderRules.Transition` gives |
| OrderServices.OrderService.CreateOrder | app/Modules/Orders/Services/OrderService.php:59-79 | the result, new tables and new audit rows are those of `OrderRules.CreateOrder`, whose `created` row holds the inserted keys only; consistency is kept |
| OrderServices.OrderService.UpdateOrder | app/Modules/Orders/Services/OrderService.php:85-110 | as `OrderRules.UpdateOrder`, whose audit row is the corrected one (see Findings); consistency is kept |
| OrderServices.OrderService.SaveUpdate | app/Modules/Orders/Services/OrderService.php:105-108 | the write of an update and its corrected audit row (changed columns, old and new values), as `OrderRules.SaveUpdate` |
| OrderServices.OrderService.DeleteOrder | app/Modules/Orders/Services/OrderService.php:116-127 | as `OrderRules.DeleteOrder`; consistency is kept |
| OrderServices.OrderService.SubmitOrder | app/Modules/Orders/Services/OrderService.php:133-153 | as `OrderRules.SubmitOrder`; consistency is kept |
| OrderServices.OrderService.ScheduleOrder | app/Modules/Orders/Services/OrderService.php:159-202 | as `OrderRules.ScheduleOrder`; consistency is kept |
| OrderServices.OrderService.DispatchOrder | app/Modules/Orders/Services/OrderService.php:208-237 | as `OrderRules.DispatchOrder`; consistency is kept |
| OrderServices.OrderService.DeliverOrder | app/Modules/Orders/Services/OrderService.php:243-273 | as `OrderRules.DeliverOrder`; consistency is kept |
| OrderServices.OrderService.CancelOrder | app/Modules/Orders/Services/OrderService.php:279-306 | as `OrderRules.CancelOrder`; consistency is kept |
| TruckRules.GetTruck | app/Modules/Trucks/Services/TruckService.php:35-38 | succeeds iff the id is found in the tenant, returning that truck, else not found |
| TruckRules.CreateTruckSpec | app/Modules/Trucks/Services/TruckService.php:43-51 | refused iff the plate exists in the tenant; otherwise exactly one truck is added, active by default |
| TruckRules.CreateTruckPreserves | database/migrations/2024_01_03_000000_create_delivery_trucks_table.php:23 | a created truck never breaks per-tenant plate uniqueness |
| TruckRules.UpdateTruckSpec | app/Modules/Trucks/Services/TruckService.php:56-71 | refused iff a changed plate is held by a truck the tenant sees; otherwise exactly the sent fields change |
| TruckRules.UpdateTruckPreserves | app/Modules/Trucks/Services/TruckService.php:56-71 | an update never gives two trucks of a tenant one plate |
| TruckRules.DeleteTruckSpec | app/Modules/Trucks/Services/TruckService.php:76-86 | refused iff an order of the tenant names the truck, in any status; otherwise exactly that row goes |
| TruckRules.DeleteTruckPreserves | app/Modules/Trucks/Services/TruckService.php:76-86 | the orders' truck foreign key never refuses the delete |
| TruckRules.ToggleActiveSpec | app/Modules/Trucks/Services/TruckService.php:91-98 | `active` is negated and nothing else changes |
| TruckRules.ToggleTwiceRestores | app/Modules/Trucks/Services/TruckService.php:91-98 | toggling twice restores the table |
| TruckRules.ToggleActivePreserves | app/Modules/Trucks/Services/TruckService.php:91-98 | toggling keeps the database consistent |
| TruckRules.IsTruckAvailableSpec | app/Modules/Trucks/Services/TruckService.php:103-106 | the answer is exactly the repository's, and a missing truck is an error |
| TruckServices.TruckService.constructor | app/Modules/Trucks/Services/TruckService.php:12-14 | the service works on the given database |
| TruckServices.TruckService.GetTruck | app/Modules/Trucks/Services/TruckService.php:35-38 | returns `TruckRules.GetTruck` and changes nothing |
| TruckServices.TruckService.CreateTruck | app/Modules/Trucks/Services/TruckService.php:43-51 | as `TruckRules.CreateTruck`; consistency is kept |
| TruckServices.TruckService.UpdateTruck | app/Modules/Trucks/Services/TruckService.php:56-71 | as `TruckRules.UpdateTruck`; consistency is kept |
| TruckServices.TruckService.DeleteTruck | app/Modules/Trucks/Services/TruckService.php:76-86 | as `TruckRules.DeleteTruck`; consistency is kept |
| TruckServices.TruckService.ToggleActive | app/Modules/Trucks/Services/TruckService.php:91-98 | as `TruckRules.ToggleActive`; consistency is kept |
| LocationRules.ListingPrecedence | app/Modules/Locations/Services/LocationService.php:20-31 | a search term wins over a client filter; with neither every location is listed |
| LocationRules.BelongsToClientIsPairing | app/Modules/Locations/Services/LocationService.php:87-90 | the pairing test is the one `createOrder` performs on the found location |
| LocationRules.CreateLocationSpec | app/Modules/Locations/Services/LocationService.php:44-50 | fails unless the client is found in the tenant; otherwise one location is appended |
| LocationRules.CreateLocationPreserves | app/Modules/Locations/Services/LocationService.php:44-50 | the new location's client is of its tenant, so consistency is kept |
| LocationRules.UpdateLocationSpec | app/Modules/Locations/Services/LocationService.php:55-67 | the client is looked up only for a changed `client_id`; exactly the sent fields change |
| LocationRules.UpdateLocationIgnoresOrders | app/Modules/Locations/Services/LocationService.php:55-67 | the orders never affect the update, so a location with orders can move |
| LocationRules.MoveUnpairsOrders | app/Modules/Locations/Services/LocationService.php:60-64 | after a move, an order placed for the old client no longer matches the location's client |
| LocationRules.UpdateLocationPreserves | app/Modules/Locations/Services/LocationService.php:55-67 | a moved location points at a client of its tenant |
| LocationRules.DeleteLocationSpec | app/Modules/Locations/Services/LocationService.php:72-82 | refused iff an order of the tenant is at the location; otherwise exactly that row goes |
| LocationRules.DeleteLocationPreserves | app/Modules/Locations/Services/LocationService.php:72-82 | the orders' location foreign key never refuses the delete |
| LocationServices.LocationService.constructor | app/Modules/Locations/Services/LocationService.php:12-15 | the service works on the given database |
| LocationServices.LocationService.CreateLocation | app/Modules/Locations/Services/LocationService.php:44-50 | as `LocationRules.CreateLocation`; consistency is kept |
| LocationServices.LocationService.UpdateLocation | app/Modules/Locations/Services/LocationService.php:55-67 | as `LocationRules.UpdateLocation`; consistency is kept |
| LocationServices.LocationService.DeleteLocation | app/Modules/Locations/Services/LocationService.php:72-82 | as `LocationRules.DeleteLocation`; consistency is kept |
| ClientRules.ListingFor | app/Modules/Clients/Services/ClientService.php:18-25 | the search path is taken iff the term is truthy |
| ClientRules.GetClient | app/Modules/Clients/Services/ClientService.php:30-33 | the client with that id in the tenant, or none |
| ClientRules.CreateClientSpec | app/Modules/Clients/Services/ClientService.php:38-41 | a created client carries the bound tenant and the next id; with no tenant bound the insert is refused |
| ClientRules.CreateClientPreserves | app/Modules/Clients/Services/ClientService.php:38-41 | creating a client keeps the database consistent |
| ClientRules.UpdateClientSpec | app/Modules/Clients/Services/ClientService.php:46-52 | an id outside the tenant is not found; otherwise exactly the sent fields change |
| ClientRules.EmptyPatchKeepsClient | app/Modules/Clients/Services/ClientService.php:48-51 | an empty update leaves the row unchanged |
| ClientRules.UpdateClientPreserves | app/Modules/Clients/Services/ClientService.php:46-52 | updating a client keeps the database consistent |
| ClientRules.DeleteClientSpec | app/Modules/Clients/Services/ClientService.php:57-67 | refused iff a location of the tenant belongs to the client; succeeds iff neither a location nor an order refers to it, and then removes exactly that row |
| ClientRules.DeleteClientReachesForeignKey | app/Modules/Clients/Services/ClientService.php:57-67 | a client without locations but with orders passes the guard and is refused by the orders' foreign key |
| ClientRules.DeleteClientPreserves | app/Modules/Clients/Services/ClientService.php:57-67 | deleting a client keeps the database consistent |
| ClientServices.ClientService.constructor | app/Modules/Clients/Services/ClientService.php:11-13 | the service works on the given database |
| ClientServices.ClientService.CreateClient | app/Modules/Clients/Services/ClientService.php:38-41 | as `ClientRules.CreateClient`; consistency is kept |
| ClientServices.ClientService.UpdateClient | app/Modules/Clients/Services/ClientService.php:46-52 | as `ClientRules.UpdateClient`; consistency is kept |
| ClientServices.ClientService.DeleteClient | app/Modules/Clients/Services/ClientService.php:57-67 | as `ClientRules.DeleteClient`; consistency is kept |
| Policies.OrderPolicy | app/Policies/OrderPolicy.php:13-123 | viewAny for the four roles; view for staff and the assigned driver; deliver for ADMIN and the assigned driver, never DISPATCHER or CLIENT_REP; all else for ADMIN/DISPATCHER whatever the status; CLIENT_REP only lists |
| Policies.OrderClassPolicy | app/Policies/OrderPolicy.php:13-49 | the class-level `viewAny` and `create` agree with the per-order policy for any order |
| Policies.OrderPolicyOnlyReadsAssignment | app/Policies/OrderPolicy.php:22-123 | the order matters only through whether the user is its driver |
| Policies.UnassignedHiddenFromDrivers | app/Policies/OrderPolicy.php:30-32 | no driver can view or deliver an order with no driver |
| Policies.ClientPolicy | app/Policies/ClientPolicy.php:13-61 | viewAny for the four roles; view, create, update for ADMIN/DISPATCHER; delete for ADMIN; unknown roles denied |
| Policies.LocationPolicy | app/Policies/LocationPolicy.php:13-60 | viewAny for the four roles; view denied to DRIVER and CLIENT_REP; create, update, delete for ADMIN/DISPATCHER |
| Policies.TruckPolicy | app/Policies/TruckPolicy.php:13-53 | viewAny and view for the four roles; create and delete for ADMIN; update for ADMIN/DISPATCHER |
| Policies.AdminGrantedEverything | app/Policies/OrderPolicy.php:13-123 | ADMIN is granted every ability each policy defines |
| Permissions.Can | resources/js/hooks/usePermissions.ts:69-76 | false without a user or role; otherwise iff the role is in the permission's list |
| Permissions.CanAny | resources/js/hooks/usePermissions.ts:81-83 | true iff some listed permission is granted |
| Permissions.CanAll | resources/js/hooks/usePermissions.ts:88-90 | true iff every listed permission is granted |
| Permissions.EmptyListsAndImplication | resources/js/hooks/usePermissions.ts:81-90 | `canAny([])` is false, `canAll([])` true, and on a non-empty list `canAll` implies `canAny` |
| Permissions.Flags | resources/js/hooks/usePermissions.ts:93-96 | at most one role flag holds; `isAdmin` iff the activity log is visible |
| Permissions.MatrixCoversPolicies | resources/js/hooks/usePermissions.ts:29-61 | whatever a server policy grants, the matrix shows |
| Permissions.MatrixMatchesPoliciesElsewhere | resources/js/hooks/usePermissions.ts:29-61 | matrix and policies agree on every permission except the three single-record views and delivery |
| Permissions.DeliverMatrixSkipsOwnership | resources/js/hooks/usePermissions.ts:38 | the matrix shows delivery to an unassigned driver whom the policy refuses |
| Permissions.ViewMatrixWiderThanPolicies | resources/js/hooks/usePermissions.ts:29-61 | the matrix shows CLIENT_REP single-record views the policies refuse |
| Permissions.AdminOnlyPermissions | resources/js/hooks/usePermissions.ts:45-60 | client.delete, truck.create, truck.delete and activity_log.view are shown exactly to ADMIN |
| Dashboard.StatusCountsPartition | app/Modules/Dashboard/Services/DashboardService.php:31-39 | the six status counts add up to the number of orders |
| Dashboard.GetOrderStatistics | app/Modules/Dashboard/Services/DashboardService.php:21-42 | `by_status` has exactly the six keys, each counting that status since the period start, summing to `total` |
| Dashboard.UnknownPeriodIsToday | app/Modules/Dashboard/Services/DashboardService.php:21-26 | any period other than week or month gives today's figures |
| Dashboard.ActiveSumIsMaskedSum | app/Modules/Dashboard/Services/DashboardService.php:51-55 | the capacity of the active trucks is the sum counting inactive tanks as zero |
| Dashboard.TruckIdsBound | app/Modules/Dashboard/Services/DashboardService.php:63-66 | distinct truck ids never outnumber the orders |
| Dashboard.InUseAreActiveOrderTrucks | app/Modules/Dashboard/Services/DashboardService.php:57-66 | the trucks in use are the truck ids of the current SCHEDULED and EN_ROUTE orders |
| Dashboard.GetFleetStatistics | app/Modules/Dashboard/Services/DashboardService.php:48-72 | the number of the tenant's trucks and of its active trucks, the capacity of active trucks only, the fuel of booked orders, in-use trucks counted distinct and at most the booked orders, utilization used/total×100 before rounding and 0 without capacity |
| Dashboard.GetRecentActivity | app/Modules/Dashboard/Services/DashboardService.php:77-90 | at most ten rows, one per most recently updated order of the tenant, in that order |
| Dashboard.ClientNameKnown | app/Modules/Dashboard/Services/DashboardService.php:83 | in a consistent database every order's client is found, so "N/A" never shows |
| OrderControllerRules.Caught | app/Modules/Orders/Http/Controllers/OrderActionsController.php:41-43 | a PHP `\Error` is 500 and every other failure 422, a refusal carrying its own message; no order is returned |
| OrderControllerRules.Answer | app/Modules/Orders/Http/Controllers/OrderActionsController.php:36-43 | success is 200 with the order; a failure is the caught reply, with the state the service left |
| OrderControllerRules.ActPrecedence | app/Modules/Orders/Http/Controllers/OrderActionsController.php:24-44 | a missing order is 404 before anything; a refused policy is 422 and the service is not called; 403 never occurs |
| OrderControllerRules.UnassignedDriverCannotDeliver | app/Modules/Orders/Http/Controllers/OrderActionsController.php:105-128 | an unassigned driver's delivery is 422 and changes nothing, whatever the status |
| OrderControllerRules.ForeignTruckIs422 | app/Modules/Orders/Http/Controllers/OrderActionsController.php:49-72 | scheduling with a truck outside the tenant is 422 with its not-found message |
| OrderControllerRules.IndexOrders | app/Modules/Orders/Http/Controllers/OrderController.php:23-44 | 403 iff the role is none of the four; otherwise the listing of the branch taken |
| OrderControllerRules.IndexBranches | app/Modules/Orders/Http/Controllers/OrderController.php:28-38 | without filters `index` lists every order of the tenant |
| OrderControllerRules.StoreCreated | app/Modules/Orders/Http/Controllers/OrderController.php:49-67 | a 201 carries a DRAFT order created by the user, and only staff get one |
| OrderControllerRules.ShowPrecedence | app/Modules/Orders/Http/Controllers/OrderController.php:72-86 | a missing order is 404 even for a user with no role; an order shown is the tenant's |
| OrderControllerRules.RefusalCodes | app/Modules/Orders/Http/Controllers/OrderController.php:49-136 | a refusal is 403 in store and show, 422 in update and destroy, and changes nothing |
| OrderControllers.OrderActionsController.constructor | app/Modules/Orders/Http/Controllers/OrderActionsController.php:17-19 | the controller calls the given service |
| OrderControllers.OrderActionsController.Act | app/Modules/Orders/Http/Controllers/OrderActionsController.php:24-156 | the reply, tables and audit rows are those of `OrderControllerRules.Act` |
| OrderControllers.OrderController.constructor | app/Modules/Orders/Http/Controllers/OrderController.php:16-18 | the controller calls the given service |
| OrderControllers.OrderController.Store | app/Modules/Orders/Http/Controllers/OrderController.php:49-67 | as `OrderControllerRules.StoreOrder` |
| OrderControllers.OrderController.Show | app/Modules/Orders/Http/Controllers/OrderController.php:72-86 | as `OrderControllerRules.ShowOrder`, writing nothing |
| OrderControllers.OrderController.Update | app/Modules/Orders/Http/Controllers/OrderController.php:91-111 | as `OrderControllerRules.UpdateOrder`, with the corrected update audit row |
| OrderControllers.OrderController.Destroy | app/Modules/Orders/Http/Controllers/OrderController.php:116-136 | as `OrderControllerRules.DestroyOrder` |
| Requests.ValidatedNewOrder | app/Modules/Orders/Http/Requests/StoreOrderRequest.php:17-21 | a valid create has existing client and location ids, at least 100 L, and a window ending after it starts; a window bound is among the validated data exactly when it was sent |
| Requests.ForeignClientPassesValidation | app/Modules/Orders/Http/Requests/StoreOrderRequest.php:17-18 | another tenant's client passes `exists` and `createOrder` then answers not found |
| Requests.ValidatedOrderPatch | app/Modules/Orders/Http/Requests/UpdateOrderRequest.php:17-21 | only the sent fields, each within the create's bounds, and a window ending after it starts |
| Requests.ForeignTruckPassesValidation | app/Modules/Orders/Http/Requests/ScheduleOrderRequest.php:17 | another tenant's truck passes `exists` and `scheduleOrder` then answers not found |
| Requests.ForeignDriverReachesForeignKey | app/Modules/Orders/Http/Requests/DispatchOrderRequest.php:17 | a user of another tenant passes `exists` and only the orders' foreign key refuses the dispatch |
| Requests.DeliverGuardShadowed | app/Modules/Orders/Http/Requests/DeliverOrderRequest.php:17 | after validation the service's "greater than 0" refusal cannot occur |
| Requests.ValidatedReason | app/Modules/Orders/Http/Requests/CancelOrderRequest.php:17 | a valid reason is absent, null or at most 1000 characters |
| Requests.ValidatedNewTruck | app/Modules/Trucks/Http/Requests/StoreTruckRequest.php:17-19 | a plate of 1 to 50 characters, a tank of 1000 to 50000 L, and `active` only when sent |
| Requests.ValidatedTruckPatch | app/Modules/Trucks/Http/Requests/UpdateTruckRequest.php:17-19 | exactly the sent fields, each within the create's bounds |
| Requests.ValidatedLocationPatch | app/Modules/Locations/Http/Requests/UpdateLocationRequest.php:17-20 | a sent client exists, an address of 1 to 500 characters, lat in [-90,90] and lng in [-180,180] or cleared |
| Requests.ValidatedNewClient | app/Modules/Clients/Http/Requests/StoreClientRequest.php:17-20 | a name of 1 to 255 characters and contacts within 255, 50 and 255 |

## Left out

- The React UI, the JSON resources and `ApiResponse` envelopes, login and tokens are not part of this model.
- The client, location, truck, dashboard and activity-log controllers are not modelled; they pass through to their services. The first three never call `authorize`, so `ClientPolicy`, `LocationPolicy` and `TruckPolicy` are modelled as functions that no endpoint consults.
- Eloquent plumbing is not modelled: eager loading, `BaseRepository`, relations, and pagination. A paginated listing is modelled as the full ordered result.
- `ClientRepository::search` and `LocationRepository::search` use LIKE with a database collation. They are named as branches (`ClientRules.ListingFor`, `LocationRules.ListingFor`) but not evaluated.
- Rows with equal sort keys come back in one fixed order. SQL leaves their order open.
- Plates compare by code point, not by the database collation.
- Concurrency is not modelled: calls are sequential. The check-then-act of `scheduleOrder` runs without a lock.
- OrderProperties.OverLimitIsTenPercent: compares against exact `1.1 * fuel`, not the double-precision product `fuel_liters * 1.1` the source computes.
- Dashboard.GetFleetStatistics: the utilization is the exact quotient; the floating-point `round(…, 2)` applied to it is not modelled.
- Floating point is not modelled otherwise: lat/lng decimal precision is ignored.
- Carbon dates are integers passed in as `Dashboard.Clock` and `now`. `diffForHumans()` is left out, and so is `request()->ip()` in the audit row.
- Ids are integers. PHP's strict `!==` on a string id against an integer one is not modelled.
- `OrderService::getOrdersByDriver`, `getOrdersByTruck`, `getByTruck` and `getByDriver` are plain `where` listings with no guard. They are not part of this model.
- Requests.ValidatedNewClient: `contact_email` is checked for length only. The `email` format rule is not modelled.
- Numeric strings are not modelled: a value is an integer, a real, a string, a boolean or null. Laravel's `integer` and `numeric` rules also accept numeric strings, and the `ConvertEmptyStringsToNull` middleware is not modelled either.
- Requests.ValidatedOrderPatch: `after:window_start` passes when `window_start` is absent or null, because the comparison is then against nothing. The model states this outcome rather than Laravel's date-parsing path.
- OrderRules.SaveUpdate: the audit row is the corrected one, the changed columns with old and new values; OrderService.php:108 writes `{}` and `{}` (see Findings, where `OrderRules.UpdateLogAsWritten` is the row as written).
- OrderRules.UpdateOrder: logs the corrected update row of `OrderRules.SaveUpdate`, not the empty one the source writes.
- OrderServices.OrderService.SaveUpdate: runs the corrected update row of `OrderRules.SaveUpdate`, not the empty one the source writes.
- OrderServices.OrderService.UpdateOrder: runs the corrected update row of `OrderRules.SaveUpdate`, not the empty one the source writes.
- OrderControllers.OrderController.Update: a successful update leaves the corrected audit row of `OrderRules.SaveUpdate`, not the empty one the source writes.
- The request classes' `authorize()` always returns true. It is not modelled; role checks are the policies'.
- `UpdateClientRequest` is not part of this model. `ClientRules.ClientPatch` takes the fields as the service receives them.
- database/migrations/2024_01_05_000000_create_orders_table.php declares no `cancellation_reason` column. The model keeps the field, as `cancelOrder` and the `Order` model write it.
- `Store.Database` keeps the audit trail as a ghost field, so the service methods' contracts use `old` and count as state updates.

## Findings

| source | as written | input that shows it | evidently intended | confidence | as-written member | corrected member |
|---|---|---|---|---|---|---|
| app/Modules/Orders/Services/OrderService.php:108 | `logUpdated($order->fresh(), …)` takes the changes of a freshly loaded model, which has none, so the update record's old and new values are always empty | a DRAFT order with `fuel_liters` 1000 updated to 1200: the row changes, the record shows `{}` and `{}` | record the columns the update changed, with old and new values | not executed | OrderProperties.UpdateLogAsWrittenLosesChanges | OrderProperties.UpdateLogRecordsChanges |
