/**
 * The order lifecycle of `OrderService` as decision functions: each takes the
 * database state, the bound tenant, the authenticated user (for the audit
 * row), the call's arguments and the clock reading, and returns the
 * `Outcome`. Guards run in the source's order and throw before any write;
 * the database then checks its constraints on the write; the audit row is
 * appended after the write (before it, for deletion).
 */
module OrderRules {
  import opened Wrappers
  import opened Text
  import opened Schema
  import opened Tenancy
  import opened Availability
  import opened ActivityLog
  import opened Store
  import Rows

  const LocationMismatch: string := "Location does not belong to the specified client"
  const UpdateNotDraft: string := "Can only update orders in DRAFT status"
  const DeleteNotDraft: string := "Can only delete orders in DRAFT status"
  const SubmitNotDraft: string := "Can only submit orders in DRAFT status"
  const SubmitIncomplete: string := "Order must have fuel_liters, window_start, and window_end to be submitted"
  const ScheduleNotSubmitted: string := "Can only schedule orders in SUBMITTED status"
  const InactiveTruck: string := "Cannot schedule order with inactive truck"
  const TruckConflict: string := "Truck has conflicting orders in this time window"
  const DispatchNotScheduled: string := "Can only dispatch orders in SCHEDULED status"
  const NoTruckAssigned: string := "Order must have a truck assigned to be dispatched"
  const DeliverNotEnRoute: string := "Can only deliver orders in EN_ROUTE status"
  const NothingDelivered: string := "Delivered liters must be greater than 0"
  const OverDelivered: string := "Delivered liters cannot exceed ordered amount by more than 10%"
  const CancelDelivered: string := "Cannot cancel a delivered order"
  const AlreadyCancelled: string := "Order is already cancelled"

  /** `"Order requires {fuel}L but truck capacity is only {capacity}L"`. */
  function CapacityMessage(fuel: int, capacity: int): string {
    "Order requires " + IntToString(fuel) + "L but truck capacity is only " + IntToString(capacity) + "L"
  }

  /** `findOrFail($id)` on the tenant-scoped orders. */
  function FindOrder(t: Tables, scope: Scope, id: Id): Option<nat> {
    FindById(t.orders, OrderKey, scope, id)
  }

  /**
   * The validated fields of a create request. A window end is `Keep` when the
   * request did not carry its key, and `Put(None)` when it was sent as null.
   */
  datatype NewOrder = NewOrder(clientId: Id, locationId: Id, fuelLiters: int,
                               windowStart: Patch<Option<int>>, windowEnd: Patch<Option<int>>)
  {
    /** The stored column: null when the key was not sent. */
    function Start(): Option<int> { windowStart.Patched(None) }
    function End(): Option<int> { windowEnd.Patched(None) }
  }

  /**
   * The keys of the model `create($data)` returns: the validated keys, with
   * `status` and `created_by` added by the service, `tenant_id` by the
   * `creating` hook, and the id and both timestamps by the insert. The model
   * is not reloaded, so no other column appears.
   */
  function InsertedKeys(d: NewOrder): (ks: set<string>)
    ensures "window_start" in ks <==> d.windowStart.Put?
    ensures "window_end" in ks <==> d.windowEnd.Put?
    ensures "truck_id" !in ks && "driver_id" !in ks && "delivered_liters" !in ks
    ensures "delivered_at" !in ks && "cancellation_reason" !in ks
  {
    {"id", "tenant_id", "client_id", "location_id", "fuel_liters", "status", "created_by", "created_at", "updated_at"}
      + (if d.windowStart.Put? then {"window_start"} else {})
      + (if d.windowEnd.Put? then {"window_end"} else {})
  }

  /** `getAttributes()` of the freshly created model: the inserted keys, each with the row's value. */
  function CreatedAttributes(o: Order, d: NewOrder): (a: Attrs)
    ensures a.Keys == InsertedKeys(d)
    ensures forall k | k in a :: a[k] == OrderAttributes(o)[k]
  {
    var all := OrderAttributes(o);
    map k | k in all && k in InsertedKeys(d) :: all[k]
  }

  /** The validated fields of an update request: the ids and litres are non-null when sent. */
  datatype OrderPatch = OrderPatch(
    clientId: Option<Id>, locationId: Option<Id>, fuelLiters: Option<int>,
    windowStart: Patch<Option<int>>, windowEnd: Patch<Option<int>>)

  /** `logCreated($order, "Order created for {client}")` on the created model. */
  function CreatedEntry(actor: Option<User>, o: Order, d: NewOrder, clientName: string): Result<LogEntry, string> {
    LogCreated(actor, OrderClass, o.id, CreatedAttributes(o, d), Some("Order created for " + clientName))
  }

  /** `createOrder`: client, then location, then their pairing; the row is DRAFT and created by `userId`. */
  function CreateOrder(t: Tables, bound: Option<Tenant>, actor: Option<User>, userId: Id, d: NewOrder, now: int): Outcome<Order> {
    var scope := ScopeOf(bound);
    var ci := FindById(t.clients, ClientKey, scope, d.clientId);
    if ci.None? then Fail(t, NotFound(ClientClass, d.clientId))
    else
      var li := FindById(t.locations, LocationKey, scope, d.locationId);
      if li.None? then Fail(t, NotFound(LocationClass, d.locationId))
      else if t.locations[li.value].clientId != d.clientId then Fail(t, Refused(LocationMismatch))
      else
        var tenant := StampTenant(None, bound);
        if tenant.None? then Fail(t, Integrity("orders.tenant_id is NOT NULL"))
        else
          var o := Order(t.nextOrderId, tenant.value, d.clientId, d.locationId, None, userId, None,
                         d.fuelLiters, DRAFT, d.Start(), d.End(), None, None, None, now, now);
          if !OrderRefsOk(t, o) then Fail(t, Integrity("orders composite foreign key"))
          else
            var t' := t.(orders := t.orders + [o], nextOrderId := t.nextOrderId + 1);
            Logged(t', CreatedEntry(actor, o, d, t.clients[ci.value].name), o)
  }

  /** The row after `update($data)`: the sent fields replaced; `updated_at` moves only when something changed. */
  function ApplyPatch(o: Order, p: OrderPatch, now: int): (r: Order)
    ensures r.id == o.id && r.tenantId == o.tenantId && r.status == o.status
    ensures r.truckId == o.truckId && r.driverId == o.driverId && r.createdBy == o.createdBy
  {
    var n := o.(clientId := p.clientId.GetOr(o.clientId), locationId := p.locationId.GetOr(o.locationId),
                fuelLiters := p.fuelLiters.GetOr(o.fuelLiters),
                windowStart := p.windowStart.Patched(o.windowStart), windowEnd := p.windowEnd.Patched(o.windowEnd));
    if n == o then o else n.(updatedAt := now)
  }

  /**
   * The pairing re-check of `updateOrder`: only when a client or a location
   * is sent, and against the stored value of the one that is not.
   */
  function PairingCheck(t: Tables, scope: Scope, o: Order, p: OrderPatch): Result<(), ServiceError> {
    if p.clientId.None? && p.locationId.None? then Ok(())
    else
      var clientId := p.clientId.GetOr(o.clientId);
      var locationId := p.locationId.GetOr(o.locationId);
      var li := FindById(t.locations, LocationKey, scope, locationId);
      if li.None? then Err(NotFound(LocationClass, locationId))
      else if t.locations[li.value].clientId != clientId then Err(Refused(LocationMismatch))
      else Ok(())
  }

  /**
   * The write of `updateOrder`, which the foreign keys check when an id
   * changed, and its audit row in the corrected form: the changed columns
   * with their old and new values (`UpdateLogAsWritten` is the row as the
   * source builds it).
   */
  function SaveUpdate(t: Tables, i: nat, n: Order, actor: Option<User>): Outcome<Order>
    requires i < |t.orders|
  {
    var o := t.orders[i];
    if (n.clientId != o.clientId || n.locationId != o.locationId) && !OrderRefsOk(t, n) then
      Fail(t, Integrity("orders composite foreign key"))
    else
      Logged(t.(orders := t.orders[i := n]),
             LogUpdated(actor, OrderClass, o.id, Changes(OrderAttributes(o), OrderAttributes(n)),
                        OrderAttributes(o), Some("Order #" + IntToString(o.id) + " updated")), n)
  }

  /** `updateOrder`, with the corrected audit row of `SaveUpdate`. */
  function UpdateOrder(t: Tables, bound: Option<Tenant>, actor: Option<User>, id: Id, p: OrderPatch, now: int): Outcome<Order> {
    var scope := ScopeOf(bound);
    var i := FindOrder(t, scope, id);
    if i.None? then Fail(t, NotFound(OrderClass, id))
    else
      var o := t.orders[i.value];
      if o.status != DRAFT then Fail(t, Refused(UpdateNotDraft))
      else
        var pairing := PairingCheck(t, scope, o, p);
        if pairing.Err? then Fail(t, pairing.error)
        else SaveUpdate(t, i.value, ApplyPatch(o, p, now), actor)
  }

  /** The audit row `updateOrder` writes as the source has it: built from a reloaded model, which has no changes. */
  function UpdateLogAsWritten(actor: Option<User>, before: Order, after: Order): Result<LogEntry, string> {
    LogUpdated(actor, OrderClass, after.id, map[], OrderAttributes(before), Some("Order #" + IntToString(before.id) + " updated"))
  }

  /** `deleteOrder`: DRAFT only; the audit row is written first, so a logging failure keeps the order. */
  function DeleteOrder(t: Tables, bound: Option<Tenant>, actor: Option<User>, id: Id): Outcome<bool> {
    var i := FindOrder(t, ScopeOf(bound), id);
    if i.None? then Fail(t, NotFound(OrderClass, id))
    else
      var o := t.orders[i.value];
      if o.status != DRAFT then Fail(t, Refused(DeleteNotDraft))
      else
        var entry := LogDeleted(actor, OrderClass, o.id, OrderAttributes(o), Some("Order #" + IntToString(o.id) + " deleted"));
        if entry.Err? then Fail(t, Refused(entry.error))
        else Outcome(t.(orders := Rows.RemoveAt(t.orders, i.value)), [entry.value], Ok(true))
  }

  /** Save the changed order, then log the transition from the old status. */
  function Transition(t: Tables, i: nat, n: Order, actor: Option<User>, from: Status, extra: Option<Attrs>): (r: Outcome<Order>)
    requires i < |t.orders|
    ensures r.tables == t.(orders := t.orders[i := n])
  {
    Logged(t.(orders := t.orders[i := n]),
           LogOrderTransition(actor, n.id, StatusName(from), StatusName(n.status), extra), n)
  }

  /** `submitOrder`: DRAFT with non-zero litres and both window ends becomes SUBMITTED. */
  function SubmitOrder(t: Tables, bound: Option<Tenant>, actor: Option<User>, id: Id, now: int): Outcome<Order> {
    var i := FindOrder(t, ScopeOf(bound), id);
    if i.None? then Fail(t, NotFound(OrderClass, id))
    else
      var o := t.orders[i.value];
      if o.status != DRAFT then Fail(t, Refused(SubmitNotDraft))
      else if o.fuelLiters == 0 || o.windowStart.None? || o.windowEnd.None? then Fail(t, Refused(SubmitIncomplete))
      else Transition(t, i.value, o.(status := SUBMITTED, updatedAt := now), actor, o.status, None)
  }

  /**
   * `scheduleOrder`: status, then the truck's existence in the tenant, its
   * activity, its capacity and its conflicts; then the write, which the
   * truck foreign key can refuse. A NULL window cannot be passed to the
   * `\DateTime` parameters of the conflict query.
   */
  function ScheduleOrder(t: Tables, bound: Option<Tenant>, actor: Option<User>, id: Id, truckId: Id, now: int): Outcome<Order> {
    var scope := ScopeOf(bound);
    var i := FindOrder(t, scope, id);
    if i.None? then Fail(t, NotFound(OrderClass, id))
    else
      var o := t.orders[i.value];
      if o.status != SUBMITTED then Fail(t, Refused(ScheduleNotSubmitted))
      else
        var ti := FindById(t.trucks, TruckKey, scope, truckId);
        if ti.None? then Fail(t, NotFound(TruckClass, truckId))
        else ScheduleOnTruck(t, scope, actor, i.value, t.trucks[ti.value], now)
  }

  /** The checks of `scheduleOrder` once the truck is found, and the write. */
  function ScheduleOnTruck(t: Tables, scope: Scope, actor: Option<User>, i: nat, truck: Truck, now: int): Outcome<Order>
    requires i < |t.orders|
  {
    var o := t.orders[i];
    if !truck.active then Fail(t, Refused(InactiveTruck))
    else if o.fuelLiters > truck.tankCapacityL then Fail(t, Refused(CapacityMessage(o.fuelLiters, truck.tankCapacityL)))
    else if o.windowStart.None? || o.windowEnd.None? then Fail(t, Fatal("TypeError: a NULL window passed as \\DateTime"))
    else if |ScheduledInWindow(t.orders, scope, truck.id, o.windowStart.value, o.windowEnd.value, None)| > 0 then
      Fail(t, Refused(TruckConflict))
    else
      var n := o.(truckId := Some(truck.id), status := SCHEDULED, updatedAt := now);
      if !OrderRefsOk(t, n) then Fail(t, Integrity("orders composite foreign key"))
      else Transition(t, i, n, actor, o.status,
                      Some(map["truck_id" := Int(truck.id), "truck_plate" := Str(truck.plateNo)]))
  }

  /** `dispatchOrder`: SCHEDULED with a truck becomes EN_ROUTE with the driver; only the foreign key checks the driver. */
  function DispatchOrder(t: Tables, bound: Option<Tenant>, actor: Option<User>, id: Id, driverId: Id, now: int): Outcome<Order> {
    var i := FindOrder(t, ScopeOf(bound), id);
    if i.None? then Fail(t, NotFound(OrderClass, id))
    else
      var o := t.orders[i.value];
      if o.status != SCHEDULED then Fail(t, Refused(DispatchNotScheduled))
      else if o.truckId.None? || o.truckId.value == 0 then Fail(t, Refused(NoTruckAssigned))
      else
        var n := o.(driverId := Some(driverId), status := EN_ROUTE, updatedAt := now);
        if !OrderRefsOk(t, n) then Fail(t, Integrity("orders composite foreign key"))
        else Transition(t, i.value, n, actor, o.status, Some(map["driver_id" := Int(driverId)]))
  }

  /** The over-delivery test `d > fuel * 1.1`, in integers. */
  predicate OverLimit(delivered: int, fuel: int) {
    10 * delivered > 11 * fuel
  }

  /** `deliverOrder`: EN_ROUTE with `0 < d` and at most 10% over the order becomes DELIVERED at `now`. */
  function DeliverOrder(t: Tables, bound: Option<Tenant>, actor: Option<User>, id: Id, delivered: int, now: int): Outcome<Order> {
    var i := FindOrder(t, ScopeOf(bound), id);
    if i.None? then Fail(t, NotFound(OrderClass, id))
    else
      var o := t.orders[i.value];
      if o.status != EN_ROUTE then Fail(t, Refused(DeliverNotEnRoute))
      else if delivered <= 0 then Fail(t, Refused(NothingDelivered))
      else if OverLimit(delivered, o.fuelLiters) then Fail(t, Refused(OverDelivered))
      else
        var n := o.(deliveredLiters := Some(delivered), deliveredAt := Some(now), status := DELIVERED, updatedAt := now);
        Transition(t, i.value, n, actor, o.status, Some(map["delivered_liters" := Int(delivered), "delivered_at" := Int(now)]))
  }

  /** `cancelOrder`: anything but DELIVERED and CANCELLED; a falsy reason leaves the stored one. */
  function CancelOrder(t: Tables, bound: Option<Tenant>, actor: Option<User>, id: Id, reason: Option<string>, now: int): Outcome<Order> {
    var i := FindOrder(t, ScopeOf(bound), id);
    if i.None? then Fail(t, NotFound(OrderClass, id))
    else
      var o := t.orders[i.value];
      if o.status == DELIVERED then Fail(t, Refused(CancelDelivered))
      else if o.status == CANCELLED then Fail(t, Refused(AlreadyCancelled))
      else
        var n := o.(status := CANCELLED, updatedAt := now,
                    cancellationReason := if TruthyOpt(reason) then reason else o.cancellationReason);
        Transition(t, i.value, n, actor, o.status, Some(map["cancellation_reason" := OptStr(reason)]))
  }
}
