/**
 * `OrderService`: each method loads the order through the tenant scope,
 * throws at the first failed guard, assigns the new column values, saves,
 * and then has the audit row appended. The update's audit row is the
 * corrected one, recording the changed columns. Each method is proved
 * against the decision function of `OrderRules` with the same name, and
 * keeps the database's declared integrity (`Database.Valid`), which includes
 * the no-double-booking invariant.
 */
module OrderServices {
  import opened Wrappers
  import opened Text
  import opened Schema
  import opened Tenancy
  import opened Availability
  import opened ActivityLog
  import opened Store
  import OrderRules
  import OrderProperties
  import Rows

  class OrderService {
    const db: Database

    constructor(db: Database)
      ensures this.db == db
    {
      this.db := db;
    }

    /** `$order->save()` followed by `logOrderTransition`: the write stands even when the logger throws. */
    method SaveTransition(i: nat, n: Order, actor: Option<User>, from: Status, extra: Option<Attrs>)
      returns (r: Result<Order, ServiceError>)
      requires i < |db.orders|
      modifies db
      ensures var out := OrderRules.Transition(old(db.State()), i, n, actor, from, extra);
        r == out.result && db.State() == out.tables && db.log == old(db.log) + out.logged
    {
      db.orders := db.orders[i := n];
      var entry := LogOrderTransition(actor, n.id, StatusName(from), StatusName(n.status), extra);
      if entry.Err? {
        return Err(Refused(entry.error));
      }
      db.log := db.log + [entry.value];
      r := Ok(n);
    }

    method CreateOrder(bound: Option<Tenant>, actor: Option<User>, userId: Id, d: OrderRules.NewOrder, now: int)
      returns (r: Result<Order, ServiceError>)
      requires db.Valid()
      modifies db
      ensures db.Valid()
      ensures var out := OrderRules.CreateOrder(old(db.State()), bound, actor, userId, d, now);
        r == out.result && db.State() == out.tables && db.log == old(db.log) + out.logged
    {
      ghost var t := db.State();
      OrderProperties.CreateOrderPreserves(t, bound, actor, userId, d, now);
      var scope := ScopeOf(bound);
      var ci := Find(db.clients, ClientKey, scope, d.clientId);
      if ci.None? {
        return Err(NotFound(ClientClass, d.clientId));
      }
      var li := Find(db.locations, LocationKey, scope, d.locationId);
      if li.None? {
        return Err(NotFound(LocationClass, d.locationId));
      }
      if db.locations[li.value].clientId != d.clientId {
        return Err(Refused(OrderRules.LocationMismatch));
      }
      var tenant := StampTenant(None, bound);
      if tenant.None? {
        return Err(Integrity("orders.tenant_id is NOT NULL"));
      }
      var o := Order(db.nextOrderId, tenant.value, d.clientId, d.locationId, None, userId, None,
                     d.fuelLiters, DRAFT, d.Start(), d.End(), None, None, None, now, now);
      if !OrderRefsOk(db.State(), o) {
        return Err(Integrity("orders composite foreign key"));
      }
      var clientName := db.clients[ci.value].name;
      var entry := OrderRules.CreatedEntry(actor, o, d, clientName);
      assert OrderRules.CreateOrder(t, bound, actor, userId, d, now)
        == Logged(t.(orders := t.orders + [o], nextOrderId := t.nextOrderId + 1), entry, o);
      r := InsertOrder(o, entry);
    }

    /** `Order::create` writes the row and takes the next id; then the logger runs. */
    method InsertOrder(o: Order, entry: Result<LogEntry, string>) returns (r: Result<Order, ServiceError>)
      modifies db
      ensures var t := old(db.State());
        var out := Logged(t.(orders := t.orders + [o], nextOrderId := t.nextOrderId + 1), entry, o);
        r == out.result && db.State() == out.tables && db.log == old(db.log) + out.logged
    {
      db.orders := db.orders + [o];
      db.nextOrderId := db.nextOrderId + 1;
      if entry.Err? {
        return Err(Refused(entry.error));
      }
      db.log := db.log + [entry.value];
      r := Ok(o);
    }

    method UpdateOrder(bound: Option<Tenant>, actor: Option<User>, id: Id, p: OrderRules.OrderPatch, now: int)
      returns (r: Result<Order, ServiceError>)
      requires db.Valid()
      modifies db
      ensures db.Valid()
      ensures var out := OrderRules.UpdateOrder(old(db.State()), bound, actor, id, p, now);
        r == out.result && db.State() == out.tables && db.log == old(db.log) + out.logged
    {
      ghost var t := db.State();
      OrderProperties.UpdateOrderPreserves(t, bound, actor, id, p, now);
      var scope := ScopeOf(bound);
      var found := Find(db.orders, OrderKey, scope, id);
      if found.None? {
        return Err(NotFound(OrderClass, id));
      }
      var i := found.value;
      var o := db.orders[i];
      if o.status != DRAFT {
        return Err(Refused(OrderRules.UpdateNotDraft));
      }
      if p.clientId.Some? || p.locationId.Some? {
        var clientId := p.clientId.GetOr(o.clientId);
        var locationId := p.locationId.GetOr(o.locationId);
        var li := Find(db.locations, LocationKey, scope, locationId);
        if li.None? {
          return Err(NotFound(LocationClass, locationId));
        }
        if db.locations[li.value].clientId != clientId {
          return Err(Refused(OrderRules.LocationMismatch));
        }
      }
      r := SaveUpdate(i, OrderRules.ApplyPatch(o, p, now), actor);
    }

    /** The `update()` of an order row, then `logUpdated`. */
    method SaveUpdate(i: nat, n: Order, actor: Option<User>) returns (r: Result<Order, ServiceError>)
      requires i < |db.orders|
      modifies db
      ensures var out := OrderRules.SaveUpdate(old(db.State()), i, n, actor);
        r == out.result && db.State() == out.tables && db.log == old(db.log) + out.logged
    {
      var o := db.orders[i];
      if (n.clientId != o.clientId || n.locationId != o.locationId) && !OrderRefsOk(db.State(), n) {
        return Err(Integrity("orders composite foreign key"));
      }
      db.orders := db.orders[i := n];
      var entry := LogUpdated(actor, OrderClass, o.id, Changes(OrderAttributes(o), OrderAttributes(n)),
                              OrderAttributes(o), Some("Order #" + IntToString(o.id) + " updated"));
      if entry.Err? {
        return Err(Refused(entry.error));
      }
      db.log := db.log + [entry.value];
      r := Ok(n);
    }

    method DeleteOrder(bound: Option<Tenant>, actor: Option<User>, id: Id) returns (r: Result<bool, ServiceError>)
      requires db.Valid()
      modifies db
      ensures db.Valid()
      ensures var out := OrderRules.DeleteOrder(old(db.State()), bound, actor, id);
        r == out.result && db.State() == out.tables && db.log == old(db.log) + out.logged
    {
      ghost var t := db.State();
      OrderProperties.DeleteOrderPreserves(t, bound, actor, id);
      var found := Find(db.orders, OrderKey, ScopeOf(bound), id);
      if found.None? {
        return Err(NotFound(OrderClass, id));
      }
      var i := found.value;
      var o := db.orders[i];
      if o.status != DRAFT {
        return Err(Refused(OrderRules.DeleteNotDraft));
      }
      var entry := LogDeleted(actor, OrderClass, o.id, OrderAttributes(o), Some("Order #" + IntToString(o.id) + " deleted"));
      if entry.Err? {
        return Err(Refused(entry.error));
      }
      db.log := db.log + [entry.value];
      db.orders := Rows.RemoveAt(db.orders, i);
      r := Ok(true);
    }

    method SubmitOrder(bound: Option<Tenant>, actor: Option<User>, id: Id, now: int) returns (r: Result<Order, ServiceError>)
      requires db.Valid()
      modifies db
      ensures db.Valid()
      ensures var out := OrderRules.SubmitOrder(old(db.State()), bound, actor, id, now);
        r == out.result && db.State() == out.tables && db.log == old(db.log) + out.logged
    {
      ghost var t := db.State();
      OrderProperties.SubmitOrderPreserves(t, bound, actor, id, now);
      var found := Find(db.orders, OrderKey, ScopeOf(bound), id);
      if found.None? {
        return Err(NotFound(OrderClass, id));
      }
      var i := found.value;
      var o := db.orders[i];
      if o.status != DRAFT {
        return Err(Refused(OrderRules.SubmitNotDraft));
      }
      if o.fuelLiters == 0 || o.windowStart.None? || o.windowEnd.None? {
        return Err(Refused(OrderRules.SubmitIncomplete));
      }
      r := SaveTransition(i, o.(status := SUBMITTED, updatedAt := now), actor, o.status, None);
    }

    method ScheduleOrder(bound: Option<Tenant>, actor: Option<User>, id: Id, truckId: Id, now: int)
      returns (r: Result<Order, ServiceError>)
      requires db.Valid()
      modifies db
      ensures db.Valid()
      ensures var out := OrderRules.ScheduleOrder(old(db.State()), bound, actor, id, truckId, now);
        r == out.result && db.State() == out.tables && db.log == old(db.log) + out.logged
    {
      ghost var t := db.State();
      OrderProperties.ScheduleOrderPreserves(t, bound, actor, id, truckId, now);
      var scope := ScopeOf(bound);
      var found := Find(db.orders, OrderKey, scope, id);
      if found.None? {
        return Err(NotFound(OrderClass, id));
      }
      var i := found.value;
      var o := db.orders[i];
      if o.status != SUBMITTED {
        return Err(Refused(OrderRules.ScheduleNotSubmitted));
      }
      var ti := Find(db.trucks, TruckKey, scope, truckId);
      if ti.None? {
        return Err(NotFound(TruckClass, truckId));
      }
      var truck := db.trucks[ti.value];
      assert OrderRules.ScheduleOrder(t, bound, actor, id, truckId, now) == OrderRules.ScheduleOnTruck(t, scope, actor, i, truck, now);
      if !truck.active {
        return Err(Refused(OrderRules.InactiveTruck));
      }
      if o.fuelLiters > truck.tankCapacityL {
        return Err(Refused(OrderRules.CapacityMessage(o.fuelLiters, truck.tankCapacityL)));
      }
      if o.windowStart.None? || o.windowEnd.None? {
        return Err(Fatal("TypeError: a NULL window passed as \\DateTime"));
      }
      if |ScheduledInWindow(db.orders, scope, truck.id, o.windowStart.value, o.windowEnd.value, None)| > 0 {
        return Err(Refused(OrderRules.TruckConflict));
      }
      var n := o.(truckId := Some(truck.id), status := SCHEDULED, updatedAt := now);
      if !OrderRefsOk(db.State(), n) {
        return Err(Integrity("orders composite foreign key"));
      }
      r := SaveTransition(i, n, actor, o.status, Some(map["truck_id" := Int(truck.id), "truck_plate" := Str(truck.plateNo)]));
    }

    method DispatchOrder(bound: Option<Tenant>, actor: Option<User>, id: Id, driverId: Id, now: int)
      returns (r: Result<Order, ServiceError>)
      requires db.Valid()
      modifies db
      ensures db.Valid()
      ensures var out := OrderRules.DispatchOrder(old(db.State()), bound, actor, id, driverId, now);
        r == out.result && db.State() == out.tables && db.log == old(db.log) + out.logged
    {
      ghost var t := db.State();
      OrderProperties.DispatchOrderPreserves(t, bound, actor, id, driverId, now);
      var found := Find(db.orders, OrderKey, ScopeOf(bound), id);
      if found.None? {
        return Err(NotFound(OrderClass, id));
      }
      var i := found.value;
      var o := db.orders[i];
      if o.status != SCHEDULED {
        return Err(Refused(OrderRules.DispatchNotScheduled));
      }
      if o.truckId.None? || o.truckId.value == 0 {
        return Err(Refused(OrderRules.NoTruckAssigned));
      }
      var n := o.(driverId := Some(driverId), status := EN_ROUTE, updatedAt := now);
      if !OrderRefsOk(db.State(), n) {
        return Err(Integrity("orders composite foreign key"));
      }
      r := SaveTransition(i, n, actor, o.status, Some(map["driver_id" := Int(driverId)]));
    }

    method DeliverOrder(bound: Option<Tenant>, actor: Option<User>, id: Id, delivered: int, now: int)
      returns (r: Result<Order, ServiceError>)
      requires db.Valid()
      modifies db
      ensures db.Valid()
      ensures var out := OrderRules.DeliverOrder(old(db.State()), bound, actor, id, delivered, now);
        r == out.result && db.State() == out.tables && db.log == old(db.log) + out.logged
    {
      ghost var t := db.State();
      OrderProperties.DeliverOrderPreserves(t, bound, actor, id, delivered, now);
      var found := Find(db.orders, OrderKey, ScopeOf(bound), id);
      if found.None? {
        return Err(NotFound(OrderClass, id));
      }
      var i := found.value;
      var o := db.orders[i];
      if o.status != EN_ROUTE {
        return Err(Refused(OrderRules.DeliverNotEnRoute));
      }
      if delivered <= 0 {
        return Err(Refused(OrderRules.NothingDelivered));
      }
      if OrderRules.OverLimit(delivered, o.fuelLiters) {
        return Err(Refused(OrderRules.OverDelivered));
      }
      var n := o.(deliveredLiters := Some(delivered), deliveredAt := Some(now), status := DELIVERED, updatedAt := now);
      r := SaveTransition(i, n, actor, o.status, Some(map["delivered_liters" := Int(delivered), "delivered_at" := Int(now)]));
    }

    method CancelOrder(bound: Option<Tenant>, actor: Option<User>, id: Id, reason: Option<string>, now: int)
      returns (r: Result<Order, ServiceError>)
      requires db.Valid()
      modifies db
      ensures db.Valid()
      ensures var out := OrderRules.CancelOrder(old(db.State()), bound, actor, id, reason, now);
        r == out.result && db.State() == out.tables && db.log == old(db.log) + out.logged
    {
      ghost var t := db.State();
      OrderProperties.CancelOrderPreserves(t, bound, actor, id, reason, now);
      var found := Find(db.orders, OrderKey, ScopeOf(bound), id);
      if found.None? {
        return Err(NotFound(OrderClass, id));
      }
      var i := found.value;
      var o := db.orders[i];
      if o.status == DELIVERED {
        return Err(Refused(OrderRules.CancelDelivered));
      }
      if o.status == CANCELLED {
        return Err(Refused(OrderRules.AlreadyCancelled));
      }
      var n := o.(status := CANCELLED, updatedAt := now,
                  cancellationReason := if TruthyOpt(reason) then reason else o.cancellationReason);
      r := SaveTransition(i, n, actor, o.status, Some(map["cancellation_reason" := OptStr(reason)]));
    }
  }
}
