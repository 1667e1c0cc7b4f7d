/**
 * What the order lifecycle guarantees: each operation's guards and effect,
 * the terminal statuses, tenant isolation of every lookup, and the database
 * invariant `Store.Consistent` (composite foreign keys, unique ids, window
 * ends present past DRAFT, no double booking of a truck) kept by every call.
 */
module OrderProperties {
  import opened Wrappers
  import opened Text
  import opened Schema
  import opened Tenancy
  import opened Availability
  import opened ActivityLog
  import opened Store
  import opened OrderRules
  import Rows

  // ---------------------------------------------------------------- create

  /**
   * A successful create found the client and the location in the tenant,
   * checked their pairing, and appended a DRAFT order created by `userId`,
   * with no truck and no driver, whatever the request held.
   */
  lemma CreateOrderSpec(t: Tables, bound: Option<Tenant>, actor: Option<User>, userId: Id, d: NewOrder, now: int)
    ensures var r := CreateOrder(t, bound, actor, userId, d, now);
      r.result.Ok? ==>
        && FindById(t.clients, ClientKey, ScopeOf(bound), d.clientId).Some?
        && FindById(t.locations, LocationKey, ScopeOf(bound), d.locationId).Some?
        && t.locations[FindById(t.locations, LocationKey, ScopeOf(bound), d.locationId).value].clientId == d.clientId
        && bound.Some? && r.result.value.tenantId == bound.value.id
        && r.result.value.status == DRAFT && r.result.value.createdBy == userId
        && r.result.value.truckId.None? && r.result.value.driverId.None?
        && r.result.value.fuelLiters == d.fuelLiters
        && r.tables.orders == t.orders + [r.result.value]
  {
  }

  /**
   * The `created` audit row of a successful create holds the keys the insert
   * set, so an unsent window end and the columns filled later (truck,
   * driver, delivery, cancellation) do not appear in it.
   */
  lemma CreatedRowHasInsertedKeys(t: Tables, bound: Option<Tenant>, actor: Option<User>, userId: Id, d: NewOrder, now: int)
    ensures var r := CreateOrder(t, bound, actor, userId, d, now);
      r.result.Ok? ==>
        && |r.logged| == 1 && r.logged[0].action == "created"
        && r.logged[0].oldValues.None? && r.logged[0].newValues.Some?
        && r.logged[0].newValues.value.Keys == InsertedKeys(d)
        && (forall k | k in r.logged[0].newValues.value ::
              r.logged[0].newValues.value[k] == OrderAttributes(r.result.value)[k])
        && r.result.value.windowStart == d.Start() && r.result.value.windowEnd == d.End()
  {
  }

  /** With a tenant bound, a client or location of another tenant is not found. */
  lemma CreateOrderForeignClient(t: Tables, tenant: Tenant, actor: Option<User>, userId: Id, d: NewOrder, now: int, owner: Id)
    requires Rows.DistinctIds(t.clients, ClientKey)
    requires (d.clientId, owner) in Rows.Keys(t.clients, ClientKey) && owner != tenant.id
    ensures CreateOrder(t, Some(tenant), actor, userId, d, now) == Fail(t, NotFound(ClientClass, d.clientId))
  {
    ForeignIdNotFound(t.clients, ClientKey, tenant.id, d.clientId, owner);
  }

  lemma CreateOrderPreserves(t: Tables, bound: Option<Tenant>, actor: Option<User>, userId: Id, d: NewOrder, now: int)
    requires Consistent(t)
    ensures Consistent(CreateOrder(t, bound, actor, userId, d, now).tables)
  {
    var scope := ScopeOf(bound);
    var ci := FindById(t.clients, ClientKey, scope, d.clientId);
    var li := FindById(t.locations, LocationKey, scope, d.locationId);
    var tenant := StampTenant(None, bound);
    if ci.Some? && li.Some? && t.locations[li.value].clientId == d.clientId && tenant.Some? {
      var o := Order(t.nextOrderId, tenant.value, d.clientId, d.locationId, None, userId, None,
                     d.fuelLiters, DRAFT, d.Start(), d.End(), None, None, None, now, now);
      if OrderRefsOk(t, o) {
        AppendOrderConsistent(t, o);
      }
    }
  }

  // ---------------------------------------------------------------- update

  /**
   * `updateOrder` succeeds only on a DRAFT order, keeps it DRAFT with its
   * truck, driver and creator, and when a client or location is sent the
   * resulting location is in the tenant and belongs to the resulting client.
   */
  lemma UpdateOrderSpec(t: Tables, bound: Option<Tenant>, actor: Option<User>, id: Id, p: OrderPatch, now: int)
    ensures var r := UpdateOrder(t, bound, actor, id, p, now);
      var i := FindOrder(t, ScopeOf(bound), id);
      && (i.None? ==> r == Fail(t, NotFound(OrderClass, id)))
      && (i.Some? && t.orders[i.value].status != DRAFT ==> r == Fail(t, Refused(UpdateNotDraft)))
      && (r.result.Ok? ==>
            && i.Some? && t.orders[i.value].status == DRAFT
            && r.result.value == ApplyPatch(t.orders[i.value], p, now)
            && r.result.value.status == DRAFT
            && r.tables.orders == t.orders[i.value := r.result.value])
      && (r.result.Ok? && (p.clientId.Some? || p.locationId.Some?) ==>
            var li := FindById(t.locations, LocationKey, ScopeOf(bound), r.result.value.locationId);
            li.Some? && t.locations[li.value].clientId == r.result.value.clientId)
  {
  }

  /** Without a client or location in the request the pairing is not consulted: only the logger can fail. */
  lemma UpdateWithoutIdsSkipsPairing(t: Tables, bound: Option<Tenant>, actor: Option<User>, id: Id, p: OrderPatch, now: int)
    requires p.clientId.None? && p.locationId.None?
    requires FindOrder(t, ScopeOf(bound), id).Some? && t.orders[FindOrder(t, ScopeOf(bound), id).value].status == DRAFT
    ensures UpdateOrder(t, bound, actor, id, p, now).result.Ok? <==> actor.Some?
  {
  }

  /** The pairing check uses the stored client when only a location is sent. */
  lemma UpdateLocationOnlyUsesStoredClient(t: Tables, bound: Option<Tenant>, actor: Option<User>, id: Id, p: OrderPatch, now: int)
    requires p.clientId.None? && p.locationId.Some?
    requires FindOrder(t, ScopeOf(bound), id).Some?
    ensures var o := t.orders[FindOrder(t, ScopeOf(bound), id).value];
      var li := FindById(t.locations, LocationKey, ScopeOf(bound), p.locationId.value);
      o.status == DRAFT && li.Some? && t.locations[li.value].clientId != o.clientId ==>
        UpdateOrder(t, bound, actor, id, p, now) == Fail(t, Refused(LocationMismatch))
  {
  }

  /** Changed columns of a row are exactly the columns whose attribute differs. */
  lemma AttributesDifferIffRowsDiffer(a: Order, b: Order)
    ensures OrderAttributes(a).Keys == OrderAttributes(b).Keys
    ensures a != b ==> Changes(OrderAttributes(a), OrderAttributes(b)) != map[]
  {
    OrderAttributesSameColumns(a, b);
    if a != b {
      if OrderAttributes(a) == OrderAttributes(b) {
        OrderAttributesInjective(a, b);
      }
      ChangesOfDifferentArrays(OrderAttributes(a), OrderAttributes(b));
    }
  }

  /**
   * As written, the update record comes from a freshly reloaded model whose
   * `getChanges()` is empty: old and new values are both empty although the
   * row changed.
   */
  lemma UpdateLogAsWrittenLosesChanges(actor: Option<User>, before: Order, after: Order)
    requires actor.Some? && before != after
    ensures UpdateLogAsWritten(actor, before, after).value.oldValues == Some(map[])
    ensures UpdateLogAsWritten(actor, before, after).value.newValues == Some(map[])
    ensures Changes(OrderAttributes(before), OrderAttributes(after)) != map[]
  {
    AttributesDifferIffRowsDiffer(before, after);
    assert IntersectKey(OrderAttributes(before), map[]) == map[];
  }

  /**
   * The model's update record: its new values name exactly the columns the
   * update changed, each paired with its old value; it is empty exactly when
   * nothing changed.
   */
  lemma UpdateLogRecordsChanges(t: Tables, bound: Option<Tenant>, actor: Option<User>, id: Id, p: OrderPatch, now: int)
    ensures var r := UpdateOrder(t, bound, actor, id, p, now);
      r.result.Ok? ==>
        var o := t.orders[FindOrder(t, ScopeOf(bound), id).value];
        var n := r.result.value;
        && |r.logged| == 1 && r.logged[0].action == "updated"
        && r.logged[0].newValues.Some? && r.logged[0].oldValues.Some?
        && (forall k :: k in r.logged[0].newValues.value <==> k in OrderAttributes(n) && OrderAttributes(o)[k] != OrderAttributes(n)[k])
        && (forall k | k in r.logged[0].newValues.value ::
              r.logged[0].oldValues.value[k] == OrderAttributes(o)[k] && r.logged[0].newValues.value[k] == OrderAttributes(n)[k])
        && (r.logged[0].newValues.value == map[] <==> n == o)
  {
    var r := UpdateOrder(t, bound, actor, id, p, now);
    if r.result.Ok? {
      var o := t.orders[FindOrder(t, ScopeOf(bound), id).value];
      var n := r.result.value;
      AttributesDifferIffRowsDiffer(o, n);
      LogUpdatedPairsValues(actor, OrderClass, o.id, OrderAttributes(o), OrderAttributes(n), Some("Order #" + IntToString(o.id) + " updated"));
    }
  }

  lemma UpdateOrderPreserves(t: Tables, bound: Option<Tenant>, actor: Option<User>, id: Id, p: OrderPatch, now: int)
    requires Consistent(t)
    ensures Consistent(UpdateOrder(t, bound, actor, id, p, now).tables)
  {
    var r := UpdateOrder(t, bound, actor, id, p, now);
    if r.tables != t {
      var i := FindOrder(t, ScopeOf(bound), id).value;
      var o := t.orders[i];
      var n := ApplyPatch(o, p, now);
      assert r.tables == t.(orders := t.orders[i := n]);
      assert OrderRefsOk(t, n);
      NoDoubleBookingReplaceUnbooked(t.orders, i, n);
      ReplaceOrderConsistent(t, i, n);
    }
  }

  // ---------------------------------------------------------------- delete

  /**
   * `deleteOrder` removes exactly the found DRAFT order, after its audit row;
   * when the logger throws, the order stays.
   */
  lemma DeleteOrderSpec(t: Tables, bound: Option<Tenant>, actor: Option<User>, id: Id)
    ensures var r := DeleteOrder(t, bound, actor, id);
      var i := FindOrder(t, ScopeOf(bound), id);
      && (i.None? ==> r == Fail(t, NotFound(OrderClass, id)))
      && (i.Some? && t.orders[i.value].status != DRAFT ==> r == Fail(t, Refused(DeleteNotDraft)))
      && (actor.None? ==> r.tables == t && r.result.Err?)
      && (r.result.Ok? ==>
            && i.Some? && t.orders[i.value].status == DRAFT
            && r.tables.orders == Rows.RemoveAt(t.orders, i.value)
            && |r.logged| == 1 && r.logged[0].action == "deleted"
            && r.logged[0].oldValues == Some(OrderAttributes(t.orders[i.value])) && r.logged[0].newValues.None?)
  {
  }

  lemma DeleteOrderPreserves(t: Tables, bound: Option<Tenant>, actor: Option<User>, id: Id)
    requires Consistent(t)
    ensures Consistent(DeleteOrder(t, bound, actor, id).tables)
  {
    var i := FindOrder(t, ScopeOf(bound), id);
    if i.Some? {
      RemoveOrderConsistent(t, i.value);
    }
  }

  // ---------------------------------------------------------------- submit

  /** `submitOrder` accepts exactly a DRAFT order with non-zero litres and both window ends, and changes only its status. */
  lemma SubmitOrderSpec(t: Tables, bound: Option<Tenant>, actor: Option<User>, id: Id, now: int)
    requires FindOrder(t, ScopeOf(bound), id).Some?
    ensures var i := FindOrder(t, ScopeOf(bound), id).value;
      var o := t.orders[i];
      var r := SubmitOrder(t, bound, actor, id, now);
      && (o.status != DRAFT ==> r == Fail(t, Refused(SubmitNotDraft)))
      && (o.status == DRAFT && (o.fuelLiters == 0 || o.windowStart.None? || o.windowEnd.None?) ==>
            r == Fail(t, Refused(SubmitIncomplete)))
      && (o.status == DRAFT && o.fuelLiters != 0 && o.windowStart.Some? && o.windowEnd.Some? ==>
            r.tables.orders == t.orders[i := o.(status := SUBMITTED, updatedAt := now)])
  {
  }

  lemma SubmitOrderPreserves(t: Tables, bound: Option<Tenant>, actor: Option<User>, id: Id, now: int)
    requires Consistent(t)
    ensures Consistent(SubmitOrder(t, bound, actor, id, now).tables)
  {
    var i := FindOrder(t, ScopeOf(bound), id);
    if i.Some? {
      var o := t.orders[i.value];
      if o.status == DRAFT && o.fuelLiters != 0 && o.windowStart.Some? && o.windowEnd.Some? {
        var n := o.(status := SUBMITTED, updatedAt := now);
        assert OrderRefsOk(t, o);
        NoDoubleBookingReplaceUnbooked(t.orders, i.value, n);
        ReplaceOrderConsistent(t, i.value, n);
      }
    }
  }

  // ---------------------------------------------------------------- schedule

  /**
   * `scheduleOrder` rejects, in this order: a status other than SUBMITTED, a
   * truck not found in the tenant, an inactive truck, an order larger than
   * the tank (equality passes), and any conflicting booking. On success it
   * sets exactly the truck, the status and the update time.
   */
  lemma ScheduleOrderSpec(t: Tables, bound: Option<Tenant>, actor: Option<User>, id: Id, truckId: Id, now: int)
    requires FindOrder(t, ScopeOf(bound), id).Some?
    ensures var scope := ScopeOf(bound);
      var i := FindOrder(t, scope, id).value;
      var o := t.orders[i];
      var ti := FindById(t.trucks, TruckKey, scope, truckId);
      var r := ScheduleOrder(t, bound, actor, id, truckId, now);
      && (o.status != SUBMITTED ==> r == Fail(t, Refused(ScheduleNotSubmitted)))
      && (o.status == SUBMITTED && ti.None? ==> r == Fail(t, NotFound(TruckClass, truckId)))
      && (o.status == SUBMITTED && ti.Some? && !t.trucks[ti.value].active ==> r == Fail(t, Refused(InactiveTruck)))
      && (o.status == SUBMITTED && ti.Some? && t.trucks[ti.value].active && o.fuelLiters > t.trucks[ti.value].tankCapacityL ==>
            r == Fail(t, Refused(CapacityMessage(o.fuelLiters, t.trucks[ti.value].tankCapacityL))))
      && (r.tables != t ==>
            && o.status == SUBMITTED && ti.Some? && t.trucks[ti.value].active
            && o.fuelLiters <= t.trucks[ti.value].tankCapacityL
            && o.windowStart.Some? && o.windowEnd.Some?
            && |ScheduledInWindow(t.orders, scope, truckId, o.windowStart.value, o.windowEnd.value, None)| == 0
            && r.tables.orders == t.orders[i := o.(truckId := Some(truckId), status := SCHEDULED, updatedAt := now)])
  {
  }

  /** The conflict query, run for the order's own window, rules out every overlap with the new booking. */
  lemma ScheduledOrderOverlapsNothing(t: Tables, scope: Scope, i: nat, n: Order, truckId: Id, j: nat)
    requires Consistent(t) && i < |t.orders| && j < |t.orders| && j != i
    requires InScope(n.tenantId, scope) && n.truckId == Some(truckId) && OrderRefsOk(t, n)
    requires n.windowStart.Some? && n.windowEnd.Some?
    requires |ScheduledInWindow(t.orders, scope, truckId, n.windowStart.value, n.windowEnd.value, None)| == 0
    ensures !Overlapping(n, t.orders[j])
  {
    var other := t.orders[j];
    if Overlapping(n, other) {
      assert OrderRefsOk(t, other);
      Rows.KeyTenantUnique(t.trucks, TruckKey, truckId, n.tenantId, other.tenantId);
      assert other in t.orders;
      NoConflictMeansDisjoint(t.orders, scope, truckId, n.windowStart.value, n.windowEnd.value, other);
      assert false;
    }
  }

  lemma ScheduleOrderPreserves(t: Tables, bound: Option<Tenant>, actor: Option<User>, id: Id, truckId: Id, now: int)
    requires Consistent(t)
    ensures Consistent(ScheduleOrder(t, bound, actor, id, truckId, now).tables)
  {
    var r := ScheduleOrder(t, bound, actor, id, truckId, now);
    if r.tables != t {
      var scope := ScopeOf(bound);
      var i := FindOrder(t, scope, id).value;
      ScheduleOrderSpec(t, bound, actor, id, truckId, now);
      var o := t.orders[i];
      var n := o.(truckId := Some(truckId), status := SCHEDULED, updatedAt := now);
      assert OrderRefsOk(t, n);
      forall j | 0 <= j < |t.orders| && j != i ensures !Overlapping(n, t.orders[j]) {
        ScheduledOrderOverlapsNothing(t, scope, i, n, truckId, j);
      }
      NoDoubleBookingReplace(t.orders, i, n);
      ReplaceOrderConsistent(t, i, n);
    }
  }

  /** In a consistent database a SUBMITTED order has both window ends: the `TypeError` path is unreachable. */
  lemma ScheduleNeverFatal(t: Tables, bound: Option<Tenant>, actor: Option<User>, id: Id, truckId: Id, now: int)
    requires Consistent(t)
    ensures !ScheduleOrder(t, bound, actor, id, truckId, now).result.Err?
      || !ScheduleOrder(t, bound, actor, id, truckId, now).result.error.Fatal?
  {
    var i := FindOrder(t, ScopeOf(bound), id);
    if i.Some? {
      assert WindowsSet(t.orders[i.value]);
    }
  }

  /**
   * With a tenant bound, the truck found in the tenant is the order's own
   * tenant's, so the truck foreign key never refuses the write.
   */
  lemma ScheduleScopedNeverRefusedByDatabase(t: Tables, tenant: Tenant, actor: Option<User>, id: Id, truckId: Id, now: int)
    requires Consistent(t)
    ensures var r := ScheduleOrder(t, Some(tenant), actor, id, truckId, now);
      !r.result.Err? || !r.result.error.Integrity?
  {
    var scope := ScopeOf(Some(tenant));
    var i := FindOrder(t, scope, id);
    var ti := FindById(t.trucks, TruckKey, scope, truckId);
    if i.Some? && ti.Some? {
      var o := t.orders[i.value];
      assert OrderRefsOk(t, o);
      Rows.KeyOfRow(t.trucks, TruckKey, ti.value);
    }
  }

  // ---------------------------------------------------------------- dispatch

  /** `dispatchOrder` accepts a SCHEDULED order with a truck and sets exactly the driver, the status and the update time. */
  lemma DispatchOrderSpec(t: Tables, bound: Option<Tenant>, actor: Option<User>, id: Id, driverId: Id, now: int)
    requires FindOrder(t, ScopeOf(bound), id).Some?
    ensures var i := FindOrder(t, ScopeOf(bound), id).value;
      var o := t.orders[i];
      var r := DispatchOrder(t, bound, actor, id, driverId, now);
      && (o.status != SCHEDULED ==> r == Fail(t, Refused(DispatchNotScheduled)))
      && (o.status == SCHEDULED && (o.truckId.None? || o.truckId == Some(0)) ==> r == Fail(t, Refused(NoTruckAssigned)))
      && (r.tables != t ==>
            && o.status == SCHEDULED && o.truckId.Some? && o.truckId != Some(0)
            && (driverId, o.tenantId) in Rows.Keys(t.users, UserKey)
            && r.tables.orders == t.orders[i := o.(driverId := Some(driverId), status := EN_ROUTE, updatedAt := now)])
  {
  }

  lemma DispatchOrderPreserves(t: Tables, bound: Option<Tenant>, actor: Option<User>, id: Id, driverId: Id, now: int)
    requires Consistent(t)
    ensures Consistent(DispatchOrder(t, bound, actor, id, driverId, now).tables)
  {
    var r := DispatchOrder(t, bound, actor, id, driverId, now);
    if r.tables != t {
      var i := FindOrder(t, ScopeOf(bound), id).value;
      var o := t.orders[i];
      var n := o.(driverId := Some(driverId), status := EN_ROUTE, updatedAt := now);
      NoDoubleBookingReplaceSameSlot(t.orders, i, n);
      ReplaceOrderConsistent(t, i, n);
    }
  }

  // ---------------------------------------------------------------- deliver

  /** The integer test agrees with exact arithmetic on `fuel * 1.1`. */
  lemma OverLimitIsTenPercent(delivered: int, fuel: int)
    ensures OverLimit(delivered, fuel) <==> (delivered as real) > (fuel as real) * 1.1
  {
  }

  /** An order of 1000 L accepts a delivery of 1100 L and rejects 1101 L. */
  lemma OverLimitBoundary()
    ensures !OverLimit(1100, 1000) && OverLimit(1101, 1000)
  {
  }

  /** `deliverOrder` accepts exactly an EN_ROUTE order and `0 < d <= 1.1 * fuel`, and records `d` and `now`. */
  lemma DeliverOrderSpec(t: Tables, bound: Option<Tenant>, actor: Option<User>, id: Id, delivered: int, now: int)
    requires FindOrder(t, ScopeOf(bound), id).Some?
    ensures var i := FindOrder(t, ScopeOf(bound), id).value;
      var o := t.orders[i];
      var r := DeliverOrder(t, bound, actor, id, delivered, now);
      && (o.status != EN_ROUTE ==> r == Fail(t, Refused(DeliverNotEnRoute)))
      && (o.status == EN_ROUTE && delivered <= 0 ==> r == Fail(t, Refused(NothingDelivered)))
      && (o.status == EN_ROUTE && delivered > 0 && OverLimit(delivered, o.fuelLiters) ==> r == Fail(t, Refused(OverDelivered)))
      && (r.tables != t <==> o.status == EN_ROUTE && 0 < delivered && !OverLimit(delivered, o.fuelLiters))
      && (r.tables != t ==>
            r.tables.orders == t.orders[i := o.(deliveredLiters := Some(delivered), deliveredAt := Some(now),
                                                  status := DELIVERED, updatedAt := now)])
  {
    var i := FindOrder(t, ScopeOf(bound), id).value;
    var o := t.orders[i];
    if o.status == EN_ROUTE && 0 < delivered && !OverLimit(delivered, o.fuelLiters) {
      var n := o.(deliveredLiters := Some(delivered), deliveredAt := Some(now), status := DELIVERED, updatedAt := now);
      assert t.orders[i := n][i].status != t.orders[i].status;
    }
  }

  lemma DeliverOrderPreserves(t: Tables, bound: Option<Tenant>, actor: Option<User>, id: Id, delivered: int, now: int)
    requires Consistent(t)
    ensures Consistent(DeliverOrder(t, bound, actor, id, delivered, now).tables)
  {
    var r := DeliverOrder(t, bound, actor, id, delivered, now);
    if r.tables != t {
      var i := FindOrder(t, ScopeOf(bound), id).value;
      var o := t.orders[i];
      var n := o.(deliveredLiters := Some(delivered), deliveredAt := Some(now), status := DELIVERED, updatedAt := now);
      assert OrderRefsOk(t, o) && WindowsSet(o);
      NoDoubleBookingReplaceUnbooked(t.orders, i, n);
      ReplaceOrderConsistent(t, i, n);
    }
  }

  // ---------------------------------------------------------------- cancel

  /**
   * `cancelOrder` changes the order exactly when it is DRAFT, SUBMITTED,
   * SCHEDULED or EN_ROUTE; the reason is stored only when it is truthy.
   */
  lemma CancelOrderSpec(t: Tables, bound: Option<Tenant>, actor: Option<User>, id: Id, reason: Option<string>, now: int)
    requires FindOrder(t, ScopeOf(bound), id).Some?
    ensures var i := FindOrder(t, ScopeOf(bound), id).value;
      var o := t.orders[i];
      var r := CancelOrder(t, bound, actor, id, reason, now);
      && (o.status == DELIVERED ==> r == Fail(t, Refused(CancelDelivered)))
      && (o.status == CANCELLED ==> r == Fail(t, Refused(AlreadyCancelled)))
      && (r.tables != t <==> o.status in {DRAFT, SUBMITTED, SCHEDULED, EN_ROUTE})
      && (r.tables != t ==>
            && |r.tables.orders| == |t.orders|
            && r.tables.orders[i].status == CANCELLED
            && r.tables.orders[i].cancellationReason == (if TruthyOpt(reason) then reason else o.cancellationReason)
            && r.tables.orders == t.orders[i := o.(status := CANCELLED, updatedAt := now,
                                                   cancellationReason := r.tables.orders[i].cancellationReason)])
  {
    var i := FindOrder(t, ScopeOf(bound), id).value;
    var o := t.orders[i];
    if o.status in {DRAFT, SUBMITTED, SCHEDULED, EN_ROUTE} {
      var n := o.(status := CANCELLED, updatedAt := now,
                  cancellationReason := if TruthyOpt(reason) then reason else o.cancellationReason);
      assert t.orders[i := n][i].status != t.orders[i].status;
    }
  }

  lemma CancelOrderPreserves(t: Tables, bound: Option<Tenant>, actor: Option<User>, id: Id, reason: Option<string>, now: int)
    requires Consistent(t)
    ensures Consistent(CancelOrder(t, bound, actor, id, reason, now).tables)
  {
    var r := CancelOrder(t, bound, actor, id, reason, now);
    if r.tables != t {
      var i := FindOrder(t, ScopeOf(bound), id).value;
      var o := t.orders[i];
      var n := o.(status := CANCELLED, updatedAt := now,
                  cancellationReason := if TruthyOpt(reason) then reason else o.cancellationReason);
      assert OrderRefsOk(t, o);
      NoDoubleBookingReplaceUnbooked(t.orders, i, n);
      ReplaceOrderConsistent(t, i, n);
    }
  }

  // ---------------------------------------------------------------- lifecycle

  /** DELIVERED and CANCELLED are terminal: no operation changes such an order or writes anything. */
  lemma TerminalStatusesAreFinal(t: Tables, bound: Option<Tenant>, actor: Option<User>, id: Id, now: int,
                                 p: OrderPatch, truckId: Id, driverId: Id, delivered: int, reason: Option<string>)
    requires FindOrder(t, ScopeOf(bound), id).Some? && Terminal(t.orders[FindOrder(t, ScopeOf(bound), id).value].status)
    ensures UpdateOrder(t, bound, actor, id, p, now).tables == t
    ensures DeleteOrder(t, bound, actor, id).tables == t
    ensures SubmitOrder(t, bound, actor, id, now).tables == t
    ensures ScheduleOrder(t, bound, actor, id, truckId, now).tables == t
    ensures DispatchOrder(t, bound, actor, id, driverId, now).tables == t
    ensures DeliverOrder(t, bound, actor, id, delivered, now).tables == t
    ensures CancelOrder(t, bound, actor, id, reason, now).tables == t
  {
  }

  /** Only scheduling makes an order SCHEDULED or EN_ROUTE from an unbooked status. */
  lemma OnlyScheduleBooks(t: Tables, bound: Option<Tenant>, actor: Option<User>, id: Id, now: int,
                          p: OrderPatch, driverId: Id, delivered: int, reason: Option<string>)
    requires FindOrder(t, ScopeOf(bound), id).Some? && !Booked(t.orders[FindOrder(t, ScopeOf(bound), id).value])
    ensures var i := FindOrder(t, ScopeOf(bound), id).value;
      && (UpdateOrder(t, bound, actor, id, p, now).tables.orders == t.orders ||
          !Booked(UpdateOrder(t, bound, actor, id, p, now).tables.orders[i]))
      && (SubmitOrder(t, bound, actor, id, now).tables == t || !Booked(SubmitOrder(t, bound, actor, id, now).tables.orders[i]))
      && DispatchOrder(t, bound, actor, id, driverId, now).tables == t
      && DeliverOrder(t, bound, actor, id, delivered, now).tables == t
      && (CancelOrder(t, bound, actor, id, reason, now).tables == t || !Booked(CancelOrder(t, bound, actor, id, reason, now).tables.orders[i]))
  {
  }

  /**
   * Tenant isolation: with a tenant bound, an order id that belongs to
   * another tenant is not found by any operation, and nothing is written.
   */
  lemma ForeignOrderIsNotFound(t: Tables, tenant: Tenant, actor: Option<User>, id: Id, owner: Id, now: int,
                               p: OrderPatch, truckId: Id, driverId: Id, delivered: int, reason: Option<string>)
    requires Rows.DistinctIds(t.orders, OrderKey)
    requires (id, owner) in Rows.Keys(t.orders, OrderKey) && owner != tenant.id
    ensures UpdateOrder(t, Some(tenant), actor, id, p, now) == Fail(t, NotFound(OrderClass, id))
    ensures DeleteOrder(t, Some(tenant), actor, id) == Fail(t, NotFound(OrderClass, id))
    ensures SubmitOrder(t, Some(tenant), actor, id, now) == Fail(t, NotFound(OrderClass, id))
    ensures ScheduleOrder(t, Some(tenant), actor, id, truckId, now) == Fail(t, NotFound(OrderClass, id))
    ensures DispatchOrder(t, Some(tenant), actor, id, driverId, now) == Fail(t, NotFound(OrderClass, id))
    ensures DeliverOrder(t, Some(tenant), actor, id, delivered, now) == Fail(t, NotFound(OrderClass, id))
    ensures CancelOrder(t, Some(tenant), actor, id, reason, now) == Fail(t, NotFound(OrderClass, id))
  {
    ForeignIdNotFound(t.orders, OrderKey, tenant.id, id, owner);
  }

  /** A booking that passes every check is the transition to SCHEDULED carrying the truck's id and plate. */
  lemma ScheduleOnTruckTransition(t: Tables, scope: Scope, actor: Option<User>, i: nat, truck: Truck, now: int)
    requires i < |t.orders|
    ensures var r := ScheduleOnTruck(t, scope, actor, i, truck, now);
      r.result.Ok? ==>
        && actor.Some?
        && r.logged == [LogOrderTransition(actor, t.orders[i].id, StatusName(t.orders[i].status), StatusName(SCHEDULED),
                          Some(map["truck_id" := Int(truck.id), "truck_plate" := Str(truck.plateNo)])).value]
  {
    var r := ScheduleOnTruck(t, scope, actor, i, truck, now);
    if r.result.Ok? {
      var o := t.orders[i];
      var n := o.(truckId := Some(truck.id), status := SCHEDULED, updatedAt := now);
      var extra := map["truck_id" := Int(truck.id), "truck_plate" := Str(truck.plateNo)];
      assert r == Transition(t, i, n, actor, o.status, Some(extra));
      assert n.id == o.id;
    }
  }

  lemma ScheduleLogsOnce(t: Tables, bound: Option<Tenant>, actor: Option<User>, id: Id, truckId: Id, now: int)
    ensures var r := ScheduleOrder(t, bound, actor, id, truckId, now);
      r.result.Ok? ==>
        && |r.logged| == 1 && r.logged[0].action == "scheduled"
        && r.logged[0].tenantId == actor.value.tenantId && r.logged[0].userId == actor.value.id
        && r.logged[0].newValues.Some? && r.logged[0].newValues.value["truck_id"] == Int(truckId)
        && r.logged[0].newValues.value["status"] == Str("SCHEDULED")
  {
    var r := ScheduleOrder(t, bound, actor, id, truckId, now);
    if r.result.Ok? {
      var scope := ScopeOf(bound);
      var i := FindOrder(t, scope, id).value;
      var truck := t.trucks[FindById(t.trucks, TruckKey, scope, truckId).value];
      assert r == ScheduleOnTruck(t, scope, actor, i, truck, now) && truck.id == truckId;
      ScheduleOnTruckTransition(t, scope, actor, i, truck, now);
      var extra := map["truck_id" := Int(truckId), "truck_plate" := Str(truck.plateNo)];
      TransitionActions(SCHEDULED);
      TransitionPayload(actor, t.orders[i].id, StatusName(t.orders[i].status), StatusName(SCHEDULED), Some(extra));
      assert "truck_id" in extra && "status" !in extra;
    }
  }

  /** A successful dispatch appends exactly one audit row, whose action is `en_route`, naming the driver. */
  lemma DispatchLogsOnce(t: Tables, bound: Option<Tenant>, actor: Option<User>, id: Id, driverId: Id, now: int)
    ensures var r := DispatchOrder(t, bound, actor, id, driverId, now);
      r.result.Ok? ==>
        && |r.logged| == 1 && r.logged[0].action == "en_route"
        && r.logged[0].newValues.Some? && r.logged[0].newValues.value["driver_id"] == Int(driverId)
        && r.logged[0].newValues.value["status"] == Str("EN_ROUTE")
  {
    var r := DispatchOrder(t, bound, actor, id, driverId, now);
    if r.result.Ok? {
      var i := FindOrder(t, ScopeOf(bound), id).value;
      var o := t.orders[i];
      var n := o.(driverId := Some(driverId), status := EN_ROUTE, updatedAt := now);
      var extra := map["driver_id" := Int(driverId)];
      assert r == Transition(t, i, n, actor, SCHEDULED, Some(extra));
      TransitionActions(EN_ROUTE);
      TransitionPayload(actor, n.id, StatusName(SCHEDULED), StatusName(EN_ROUTE), Some(extra));
    }
  }

  /** The audit row of a transition carrying extra data that leaves `status` alone. */
  lemma TransitionEntry(t: Tables, i: nat, n: Order, actor: Option<User>, from: Status, extra: Attrs)
    requires i < |t.orders| && "status" !in extra
    ensures var r := Transition(t, i, n, actor, from, Some(extra));
      r.result.Ok? ==>
        && actor.Some? && |r.logged| == 1 && r.logged[0].action == ActionName(n.status)
        && r.logged[0].tenantId == actor.value.tenantId && r.logged[0].userId == actor.value.id
        && r.logged[0].modelId == n.id
        && r.logged[0].oldValues == Some(map["status" := Str(StatusName(from))])
        && r.logged[0].newValues.Some?
        && r.logged[0].newValues.value.Keys == {"status"} + extra.Keys
        && r.logged[0].newValues.value["status"] == Str(StatusName(n.status))
        && (forall k | k in extra :: r.logged[0].newValues.value[k] == extra[k])
  {
    if actor.Some? {
      TransitionActions(n.status);
      TransitionPayload(actor, n.id, StatusName(from), StatusName(n.status), Some(extra));
    }
  }

  /**
   * A successful submission appends exactly one audit row by the acting
   * user, whose action is `submitted`, moving the status from DRAFT.
   */
  lemma SubmitLogsOnce(t: Tables, bound: Option<Tenant>, actor: Option<User>, id: Id, now: int)
    ensures var r := SubmitOrder(t, bound, actor, id, now);
      r.result.Ok? ==>
        && actor.Some? && |r.logged| == 1 && r.logged[0].action == "submitted"
        && r.logged[0].tenantId == actor.value.tenantId && r.logged[0].userId == actor.value.id
        && r.logged[0].modelId == id
        && r.logged[0].oldValues == Some(map["status" := Str("DRAFT")])
        && r.logged[0].newValues == Some(map["status" := Str("SUBMITTED")])
  {
    var r := SubmitOrder(t, bound, actor, id, now);
    if r.result.Ok? {
      var i := FindOrder(t, ScopeOf(bound), id).value;
      var o := t.orders[i];
      var n := o.(status := SUBMITTED, updatedAt := now);
      assert r == Transition(t, i, n, actor, DRAFT, None);
      assert OrderKey(o).0 == id;
      TransitionActions(SUBMITTED);
      TransitionPayload(actor, n.id, StatusName(DRAFT), StatusName(SUBMITTED), None);
      var e := r.logged[0];
      assert e.newValues.value.Keys == {"status"} && e.newValues.value["status"] == Str("SUBMITTED");
      assert e.newValues.value == map["status" := Str("SUBMITTED")];
    }
  }

  /**
   * A successful delivery appends exactly one audit row by the acting user,
   * whose action is `delivered`, moving the status from EN_ROUTE and
   * recording the delivered litres and the delivery time.
   */
  lemma DeliverLogsOnce(t: Tables, bound: Option<Tenant>, actor: Option<User>, id: Id, delivered: int, now: int)
    ensures var r := DeliverOrder(t, bound, actor, id, delivered, now);
      r.result.Ok? ==>
        && actor.Some? && |r.logged| == 1 && r.logged[0].action == "delivered"
        && r.logged[0].tenantId == actor.value.tenantId && r.logged[0].userId == actor.value.id
        && r.logged[0].modelId == id
        && r.logged[0].oldValues == Some(map["status" := Str("EN_ROUTE")])
        && r.logged[0].newValues.Some?
        && r.logged[0].newValues.value.Keys == {"status", "delivered_liters", "delivered_at"}
        && r.logged[0].newValues.value["status"] == Str("DELIVERED")
        && r.logged[0].newValues.value["delivered_liters"] == Int(delivered)
        && r.logged[0].newValues.value["delivered_at"] == Int(now)
  {
    var r := DeliverOrder(t, bound, actor, id, delivered, now);
    if r.result.Ok? {
      var i := FindOrder(t, ScopeOf(bound), id).value;
      var o := t.orders[i];
      var n := o.(deliveredLiters := Some(delivered), deliveredAt := Some(now), status := DELIVERED, updatedAt := now);
      var extra := map["delivered_liters" := Int(delivered), "delivered_at" := Int(now)];
      assert r == Transition(t, i, n, actor, EN_ROUTE, Some(extra));
      assert OrderKey(o).0 == id;
      TransitionEntry(t, i, n, actor, EN_ROUTE, extra);
      assert "delivered_liters" in extra && "delivered_at" in extra;
    }
  }

  /**
   * A successful cancellation appends exactly one audit row by the acting
   * user, whose action is `cancelled`, moving the status from the order's
   * stored one and recording the reason as given, null included.
   */
  lemma CancelLogsOnce(t: Tables, bound: Option<Tenant>, actor: Option<User>, id: Id, reason: Option<string>, now: int)
    ensures var r := CancelOrder(t, bound, actor, id, reason, now);
      var i := FindOrder(t, ScopeOf(bound), id);
      r.result.Ok? ==>
        && i.Some? && actor.Some? && |r.logged| == 1 && r.logged[0].action == "cancelled"
        && r.logged[0].tenantId == actor.value.tenantId && r.logged[0].userId == actor.value.id
        && r.logged[0].modelId == id
        && r.logged[0].oldValues == Some(map["status" := Str(StatusName(t.orders[i.value].status))])
        && r.logged[0].newValues.Some?
        && r.logged[0].newValues.value.Keys == {"status", "cancellation_reason"}
        && r.logged[0].newValues.value["status"] == Str("CANCELLED")
        && r.logged[0].newValues.value["cancellation_reason"] == OptStr(reason)
  {
    var r := CancelOrder(t, bound, actor, id, reason, now);
    if r.result.Ok? {
      var i := FindOrder(t, ScopeOf(bound), id).value;
      var o := t.orders[i];
      var n := o.(status := CANCELLED, updatedAt := now,
                  cancellationReason := if TruthyOpt(reason) then reason else o.cancellationReason);
      var extra := map["cancellation_reason" := OptStr(reason)];
      assert r == Transition(t, i, n, actor, o.status, Some(extra));
      assert OrderKey(o).0 == id;
      TransitionEntry(t, i, n, actor, o.status, extra);
      assert "cancellation_reason" in extra;
    }
  }
}
