/**
 * The database the services work on: one table per entity, the
 * auto-increment counters, the integrity the migrations declare, and the
 * audit trail. `Tables` is the state as a value; `Database` is the mutable
 * store the service classes update in place.
 *
 * The declared integrity (`Consistent`) is:
 *  - ids are unique per table and below the table's auto-increment counter;
 *  - every `(x_id, tenant_id)` composite foreign key of `locations` and
 *    `orders` names a row of the referenced table with the same tenant;
 *  - `(plate_no, tenant_id)` is unique in `delivery_trucks`;
 * and the service-level invariants the order lifecycle keeps:
 *  - an order past DRAFT (other than CANCELLED) has both window ends;
 *  - no two SCHEDULED/EN_ROUTE orders of one truck share an instant.
 */
module Store {
  import opened Wrappers
  import opened Schema
  import opened Availability
  import opened ActivityLog
  import Rows

  datatype Tables = Tables(
    users: seq<User>, clients: seq<Client>, locations: seq<Location>,
    trucks: seq<Truck>, orders: seq<Order>,
    nextClientId: Id, nextLocationId: Id, nextTruckId: Id, nextOrderId: Id)

  /** Every id of the table is positive and below the next auto-increment value. */
  predicate IdsBelow<T>(rows: seq<T>, key: T -> Rows.Key, next: Id) {
    forall k | 0 <= k < |rows| :: 0 < key(rows[k]).0 < next
  }

  /** The `(client_id, tenant_id)` foreign key of `locations`. */
  predicate LocationRefsOk(t: Tables, l: Location) {
    (l.clientId, l.tenantId) in Rows.Keys(t.clients, ClientKey)
  }

  /** The five composite foreign keys of `orders`; a NULL truck or driver is not checked. */
  predicate OrderRefsOk(t: Tables, o: Order) {
    && (o.clientId, o.tenantId) in Rows.Keys(t.clients, ClientKey)
    && (o.locationId, o.tenantId) in Rows.Keys(t.locations, LocationKey)
    && (o.truckId.Some? ==> (o.truckId.value, o.tenantId) in Rows.Keys(t.trucks, TruckKey))
    && (o.createdBy, o.tenantId) in Rows.Keys(t.users, UserKey)
    && (o.driverId.Some? ==> (o.driverId.value, o.tenantId) in Rows.Keys(t.users, UserKey))
  }

  /** `unique(['plate_no', 'tenant_id'])`. */
  predicate PlatesUnique(trucks: seq<Truck>) {
    forall i, j | 0 <= i < |trucks| && 0 <= j < |trucks| && i != j ::
      trucks[i].tenantId == trucks[j].tenantId ==> trucks[i].plateNo != trucks[j].plateNo
  }

  /** Submission demands both window ends, and windows change only in DRAFT. */
  predicate WindowsSet(o: Order) {
    o.status in {SUBMITTED, SCHEDULED, EN_ROUTE, DELIVERED} ==> o.windowStart.Some? && o.windowEnd.Some?
  }

  /**
   * Two orders hold the same truck at a common instant. A window whose start
   * lies after its end holds no instant, hence the well-formedness conjuncts.
   */
  predicate Overlapping(a: Order, b: Order) {
    && Booked(a) && Booked(b)
    && a.truckId.Some? && a.truckId == b.truckId
    && WellFormed(a) && WellFormed(b)
    && ClosedIntersect(a.windowStart.value, a.windowEnd.value, b.windowStart.value, b.windowEnd.value)
  }

  /** No two SCHEDULED/EN_ROUTE orders on one truck have intersecting windows. */
  predicate NoDoubleBooking(orders: seq<Order>) {
    forall i, j | 0 <= i < |orders| && 0 <= j < |orders| && i != j :: !Overlapping(orders[i], orders[j])
  }

  predicate Consistent(t: Tables) {
    && 0 < t.nextClientId && 0 < t.nextLocationId && 0 < t.nextTruckId && 0 < t.nextOrderId
    && Rows.DistinctIds(t.clients, ClientKey) && IdsBelow(t.clients, ClientKey, t.nextClientId)
    && Rows.DistinctIds(t.locations, LocationKey) && IdsBelow(t.locations, LocationKey, t.nextLocationId)
    && Rows.DistinctIds(t.trucks, TruckKey) && IdsBelow(t.trucks, TruckKey, t.nextTruckId)
    && Rows.DistinctIds(t.orders, OrderKey) && IdsBelow(t.orders, OrderKey, t.nextOrderId)
    && (forall k | 0 <= k < |t.locations| :: LocationRefsOk(t, t.locations[k]))
    && (forall k | 0 <= k < |t.orders| :: OrderRefsOk(t, t.orders[k]))
    && PlatesUnique(t.trucks)
    && (forall k | 0 <= k < |t.orders| :: WindowsSet(t.orders[k]))
    && NoDoubleBooking(t.orders)
  }

  /** An empty database with its users is consistent. */
  function Empty(users: seq<User>): (t: Tables)
    ensures Consistent(t)
    ensures t.clients == [] && t.locations == [] && t.trucks == [] && t.orders == []
  {
    Tables(users, [], [], [], [], 1, 1, 1, 1)
  }

  lemma OverlappingSymmetric(a: Order, b: Order)
    ensures Overlapping(a, b) <==> Overlapping(b, a)
  {
  }

  /** Replacing one order keeps the invariant when the new row overlaps no other row. */
  lemma NoDoubleBookingReplace(orders: seq<Order>, i: nat, o: Order)
    requires i < |orders| && NoDoubleBooking(orders)
    requires forall j | 0 <= j < |orders| && j != i :: !Overlapping(o, orders[j])
    ensures NoDoubleBooking(orders[i := o])
  {
    var n := orders[i := o];
    forall a, b | 0 <= a < |n| && 0 <= b < |n| && a != b ensures !Overlapping(n[a], n[b]) {
      if a == i {
        assert n[b] == orders[b];
      } else if b == i {
        assert n[a] == orders[a];
        OverlappingSymmetric(o, orders[a]);
      } else {
        assert n[a] == orders[a] && n[b] == orders[b];
      }
    }
  }

  /** An order that is not SCHEDULED or EN_ROUTE can replace any row. */
  lemma NoDoubleBookingReplaceUnbooked(orders: seq<Order>, i: nat, o: Order)
    requires i < |orders| && NoDoubleBooking(orders) && !Booked(o)
    ensures NoDoubleBooking(orders[i := o])
  {
    NoDoubleBookingReplace(orders, i, o);
  }

  /** A row that keeps its status class, truck and window can replace itself. */
  lemma NoDoubleBookingReplaceSameSlot(orders: seq<Order>, i: nat, o: Order)
    requires i < |orders| && NoDoubleBooking(orders)
    requires Booked(o) == Booked(orders[i]) && o.truckId == orders[i].truckId
    requires o.windowStart == orders[i].windowStart && o.windowEnd == orders[i].windowEnd
    ensures NoDoubleBooking(orders[i := o])
  {
    forall j | 0 <= j < |orders| && j != i ensures !Overlapping(o, orders[j]) {
      assert !Overlapping(orders[i], orders[j]);
    }
    NoDoubleBookingReplace(orders, i, o);
  }

  lemma NoDoubleBookingAppendUnbooked(orders: seq<Order>, o: Order)
    requires NoDoubleBooking(orders) && !Booked(o)
    ensures NoDoubleBooking(orders + [o])
  {
    var n := orders + [o];
    forall a, b | 0 <= a < |n| && 0 <= b < |n| && a != b ensures !Overlapping(n[a], n[b]) {
      if a < |orders| && b < |orders| {
        assert n[a] == orders[a] && n[b] == orders[b];
      }
    }
  }

  lemma NoDoubleBookingRemove(orders: seq<Order>, i: nat)
    requires i < |orders| && NoDoubleBooking(orders)
    ensures NoDoubleBooking(Rows.RemoveAt(orders, i))
  {
    var n := Rows.RemoveAt(orders, i);
    forall a, b | 0 <= a < |n| && 0 <= b < |n| && a != b ensures !Overlapping(n[a], n[b]) {
      var a' := if a < i then a else a + 1;
      var b' := if b < i then b else b + 1;
      assert n[a] == orders[a'] && n[b] == orders[b'];
    }
  }

  /** Every row of a table whose ids are below `next` differs from a row with id `next`. */
  lemma FreshIdDistinct<T>(rows: seq<T>, key: T -> Rows.Key, next: Id, x: T)
    requires Rows.DistinctIds(rows, key) && IdsBelow(rows, key, next) && 0 < next && key(x).0 == next
    ensures Rows.DistinctIds(rows + [x], key)
    ensures IdsBelow(rows + [x], key, next + 1)
  {
    Rows.DistinctIdsAppend(rows, key, x);
    var n := rows + [x];
    forall k | 0 <= k < |n| ensures 0 < key(n[k]).0 < next + 1 {
      if k < |rows| {
        assert n[k] == rows[k];
      }
    }
  }

  lemma IdsBelowUpdate<T>(rows: seq<T>, key: T -> Rows.Key, next: Id, i: nat, x: T)
    requires IdsBelow(rows, key, next) && i < |rows| && key(x).0 == key(rows[i]).0
    ensures IdsBelow(rows[i := x], key, next)
  {
    var n := rows[i := x];
    forall k | 0 <= k < |n| ensures 0 < key(n[k]).0 < next {
      if k != i {
        assert n[k] == rows[k];
      }
    }
  }

  lemma IdsBelowRemove<T>(rows: seq<T>, key: T -> Rows.Key, next: Id, i: nat)
    requires IdsBelow(rows, key, next) && i < |rows|
    ensures IdsBelow(Rows.RemoveAt(rows, i), key, next)
  {
    var n := Rows.RemoveAt(rows, i);
    forall k | 0 <= k < |n| ensures 0 < key(n[k]).0 < next {
      if k < i {
        assert n[k] == rows[k];
      } else {
        assert n[k] == rows[k + 1];
      }
    }
  }

  /** Rewriting one order in place, under its own id and tenant, keeps the database consistent. */
  lemma ReplaceOrderConsistent(t: Tables, i: nat, o: Order)
    requires Consistent(t) && i < |t.orders|
    requires o.id == t.orders[i].id && o.tenantId == t.orders[i].tenantId
    requires OrderRefsOk(t, o) && WindowsSet(o) && NoDoubleBooking(t.orders[i := o])
    ensures Consistent(t.(orders := t.orders[i := o]))
  {
    var t' := t.(orders := t.orders[i := o]);
    Rows.DistinctIdsUpdate(t.orders, OrderKey, i, o);
    IdsBelowUpdate(t.orders, OrderKey, t.nextOrderId, i, o);
    forall k | 0 <= k < |t'.orders| ensures OrderRefsOk(t', t'.orders[k]) && WindowsSet(t'.orders[k]) {
      if k != i {
        assert t'.orders[k] == t.orders[k];
      }
    }
  }

  /** Inserting a DRAFT order under the next id keeps the database consistent. */
  lemma AppendOrderConsistent(t: Tables, o: Order)
    requires Consistent(t) && o.id == t.nextOrderId
    requires OrderRefsOk(t, o) && WindowsSet(o) && !Booked(o)
    ensures Consistent(t.(orders := t.orders + [o], nextOrderId := t.nextOrderId + 1))
  {
    var t' := t.(orders := t.orders + [o], nextOrderId := t.nextOrderId + 1);
    FreshIdDistinct(t.orders, OrderKey, t.nextOrderId, o);
    NoDoubleBookingAppendUnbooked(t.orders, o);
    forall k | 0 <= k < |t'.orders| ensures OrderRefsOk(t', t'.orders[k]) && WindowsSet(t'.orders[k]) {
      if k < |t.orders| {
        assert t'.orders[k] == t.orders[k];
      }
    }
  }

  /** Deleting an order keeps the database consistent: nothing in the model references orders. */
  lemma RemoveOrderConsistent(t: Tables, i: nat)
    requires Consistent(t) && i < |t.orders|
    ensures Consistent(t.(orders := Rows.RemoveAt(t.orders, i)))
  {
    var t' := t.(orders := Rows.RemoveAt(t.orders, i));
    Rows.DistinctIdsRemove(t.orders, OrderKey, i);
    IdsBelowRemove(t.orders, OrderKey, t.nextOrderId, i);
    NoDoubleBookingRemove(t.orders, i);
    forall k | 0 <= k < |t'.orders| ensures OrderRefsOk(t', t'.orders[k]) && WindowsSet(t'.orders[k]) {
      if k < i {
        assert t'.orders[k] == t.orders[k];
      } else {
        assert t'.orders[k] == t.orders[k + 1];
      }
    }
  }

  /** No order row holds the composite key `k` in the given column. */
  predicate NoOrderRefersTo(orders: seq<Order>, ref: Order -> Option<Id>, k: Rows.Key) {
    forall j | 0 <= j < |orders| :: !(ref(orders[j]) == Some(k.0) && orders[j].tenantId == k.1)
  }

  function TruckRef(o: Order): Option<Id> { o.truckId }
  function ClientRef(o: Order): Option<Id> { Some(o.clientId) }
  function LocationRef(o: Order): Option<Id> { Some(o.locationId) }

  /** Rewriting a truck under its own key, with a plate no other truck of its tenant holds, keeps the database consistent. */
  lemma ReplaceTruckConsistent(t: Tables, i: nat, x: Truck)
    requires Consistent(t) && i < |t.trucks| && TruckKey(x) == TruckKey(t.trucks[i])
    requires forall k | 0 <= k < |t.trucks| && k != i && t.trucks[k].tenantId == x.tenantId :: t.trucks[k].plateNo != x.plateNo
    ensures Consistent(t.(trucks := t.trucks[i := x]))
  {
    var t' := t.(trucks := t.trucks[i := x]);
    Rows.KeysUpdate(t.trucks, TruckKey, i, x);
    Rows.DistinctIdsUpdate(t.trucks, TruckKey, i, x);
    IdsBelowUpdate(t.trucks, TruckKey, t.nextTruckId, i, x);
    assert forall k | 0 <= k < |t'.orders| :: OrderRefsOk(t', t'.orders[k]) by {
      forall k | 0 <= k < |t'.orders| ensures OrderRefsOk(t', t'.orders[k]) {
        assert OrderRefsOk(t, t.orders[k]);
      }
    }
    assert forall k | 0 <= k < |t'.locations| :: LocationRefsOk(t', t'.locations[k]) by {
      forall k | 0 <= k < |t'.locations| ensures LocationRefsOk(t', t'.locations[k]) {
        assert LocationRefsOk(t, t.locations[k]);
      }
    }
  }

  /** Inserting a truck under the next id, with a plate free in its tenant, keeps the database consistent. */
  lemma AppendTruckConsistent(t: Tables, x: Truck)
    requires Consistent(t) && x.id == t.nextTruckId
    requires forall k | 0 <= k < |t.trucks| && t.trucks[k].tenantId == x.tenantId :: t.trucks[k].plateNo != x.plateNo
    ensures Consistent(t.(trucks := t.trucks + [x], nextTruckId := t.nextTruckId + 1))
  {
    var t' := t.(trucks := t.trucks + [x], nextTruckId := t.nextTruckId + 1);
    Rows.KeysAppend(t.trucks, TruckKey, x);
    FreshIdDistinct(t.trucks, TruckKey, t.nextTruckId, x);
    assert forall k | 0 <= k < |t'.orders| :: OrderRefsOk(t', t'.orders[k]) by {
      forall k | 0 <= k < |t'.orders| ensures OrderRefsOk(t', t'.orders[k]) {
        assert OrderRefsOk(t, t.orders[k]);
      }
    }
    assert forall k | 0 <= k < |t'.locations| :: LocationRefsOk(t', t'.locations[k]) by {
      forall k | 0 <= k < |t'.locations| ensures LocationRefsOk(t', t'.locations[k]) {
        assert LocationRefsOk(t, t.locations[k]);
      }
    }
    forall a, b | 0 <= a < |t'.trucks| && 0 <= b < |t'.trucks| && a != b && t'.trucks[a].tenantId == t'.trucks[b].tenantId
      ensures t'.trucks[a].plateNo != t'.trucks[b].plateNo
    {
      if a < |t.trucks| && b < |t.trucks| {
        assert t'.trucks[a] == t.trucks[a] && t'.trucks[b] == t.trucks[b];
      }
    }
  }

  /** Deleting a truck that no order references keeps the database consistent. */
  lemma RemoveTruckConsistent(t: Tables, i: nat)
    requires Consistent(t) && i < |t.trucks|
    requires NoOrderRefersTo(t.orders, TruckRef, TruckKey(t.trucks[i]))
    ensures Consistent(t.(trucks := Rows.RemoveAt(t.trucks, i)))
  {
    var t' := t.(trucks := Rows.RemoveAt(t.trucks, i));
    Rows.KeysRemove(t.trucks, TruckKey, i);
    Rows.DistinctIdsRemove(t.trucks, TruckKey, i);
    IdsBelowRemove(t.trucks, TruckKey, t.nextTruckId, i);
    assert forall k | 0 <= k < |t'.orders| :: OrderRefsOk(t', t'.orders[k]) by {
      forall k | 0 <= k < |t'.orders| ensures OrderRefsOk(t', t'.orders[k]) {
        assert OrderRefsOk(t, t.orders[k]);
        assert !(TruckRef(t.orders[k]) == Some(t.trucks[i].id) && t.orders[k].tenantId == t.trucks[i].tenantId);
      }
    }
    assert forall k | 0 <= k < |t'.locations| :: LocationRefsOk(t', t'.locations[k]) by {
      forall k | 0 <= k < |t'.locations| ensures LocationRefsOk(t', t'.locations[k]) {
        assert LocationRefsOk(t, t.locations[k]);
      }
    }
    var n := t'.trucks;
    forall a, b | 0 <= a < |n| && 0 <= b < |n| && a != b && n[a].tenantId == n[b].tenantId
      ensures n[a].plateNo != n[b].plateNo
    {
      var a' := if a < i then a else a + 1;
      var b' := if b < i then b else b + 1;
      assert n[a] == t.trucks[a'] && n[b] == t.trucks[b'];
    }
  }

  /** Rewriting a client under its own key keeps the database consistent. */
  lemma ReplaceClientConsistent(t: Tables, i: nat, x: Client)
    requires Consistent(t) && i < |t.clients| && ClientKey(x) == ClientKey(t.clients[i])
    ensures Consistent(t.(clients := t.clients[i := x]))
  {
    var t' := t.(clients := t.clients[i := x]);
    Rows.KeysUpdate(t.clients, ClientKey, i, x);
    Rows.DistinctIdsUpdate(t.clients, ClientKey, i, x);
    IdsBelowUpdate(t.clients, ClientKey, t.nextClientId, i, x);
    assert forall k | 0 <= k < |t'.orders| :: OrderRefsOk(t', t'.orders[k]) by {
      forall k | 0 <= k < |t'.orders| ensures OrderRefsOk(t', t'.orders[k]) {
        assert OrderRefsOk(t, t.orders[k]);
      }
    }
    assert forall k | 0 <= k < |t'.locations| :: LocationRefsOk(t', t'.locations[k]) by {
      forall k | 0 <= k < |t'.locations| ensures LocationRefsOk(t', t'.locations[k]) {
        assert LocationRefsOk(t, t.locations[k]);
      }
    }
  }

  /** Inserting a client under the next id keeps the database consistent. */
  lemma AppendClientConsistent(t: Tables, x: Client)
    requires Consistent(t) && x.id == t.nextClientId
    ensures Consistent(t.(clients := t.clients + [x], nextClientId := t.nextClientId + 1))
  {
    var t' := t.(clients := t.clients + [x], nextClientId := t.nextClientId + 1);
    Rows.KeysAppend(t.clients, ClientKey, x);
    FreshIdDistinct(t.clients, ClientKey, t.nextClientId, x);
    assert forall k | 0 <= k < |t'.orders| :: OrderRefsOk(t', t'.orders[k]) by {
      forall k | 0 <= k < |t'.orders| ensures OrderRefsOk(t', t'.orders[k]) {
        assert OrderRefsOk(t, t.orders[k]);
      }
    }
    assert forall k | 0 <= k < |t'.locations| :: LocationRefsOk(t', t'.locations[k]) by {
      forall k | 0 <= k < |t'.locations| ensures LocationRefsOk(t', t'.locations[k]) {
        assert LocationRefsOk(t, t.locations[k]);
      }
    }
  }

  /** Deleting a client that no location and no order references keeps the database consistent. */
  lemma RemoveClientConsistent(t: Tables, i: nat)
    requires Consistent(t) && i < |t.clients|
    requires forall k | 0 <= k < |t.locations| :: (t.locations[k].clientId, t.locations[k].tenantId) != ClientKey(t.clients[i])
    requires NoOrderRefersTo(t.orders, ClientRef, ClientKey(t.clients[i]))
    ensures Consistent(t.(clients := Rows.RemoveAt(t.clients, i)))
  {
    var t' := t.(clients := Rows.RemoveAt(t.clients, i));
    Rows.KeysRemove(t.clients, ClientKey, i);
    Rows.DistinctIdsRemove(t.clients, ClientKey, i);
    IdsBelowRemove(t.clients, ClientKey, t.nextClientId, i);
    assert forall k | 0 <= k < |t'.orders| :: OrderRefsOk(t', t'.orders[k]) by {
      forall k | 0 <= k < |t'.orders| ensures OrderRefsOk(t', t'.orders[k]) {
        assert OrderRefsOk(t, t.orders[k]);
      }
    }
    assert forall k | 0 <= k < |t'.locations| :: LocationRefsOk(t', t'.locations[k]) by {
      forall k | 0 <= k < |t'.locations| ensures LocationRefsOk(t', t'.locations[k]) {
        assert LocationRefsOk(t, t.locations[k]);
      }
    }
  }

  /** Rewriting a location under its own key, still pointing at a client of its tenant, keeps the database consistent. */
  lemma ReplaceLocationConsistent(t: Tables, i: nat, x: Location)
    requires Consistent(t) && i < |t.locations| && LocationKey(x) == LocationKey(t.locations[i])
    requires LocationRefsOk(t, x)
    ensures Consistent(t.(locations := t.locations[i := x]))
  {
    var t' := t.(locations := t.locations[i := x]);
    Rows.KeysUpdate(t.locations, LocationKey, i, x);
    Rows.DistinctIdsUpdate(t.locations, LocationKey, i, x);
    IdsBelowUpdate(t.locations, LocationKey, t.nextLocationId, i, x);
    assert forall k | 0 <= k < |t'.orders| :: OrderRefsOk(t', t'.orders[k]) by {
      forall k | 0 <= k < |t'.orders| ensures OrderRefsOk(t', t'.orders[k]) {
        assert OrderRefsOk(t, t.orders[k]);
      }
    }
    assert forall k | 0 <= k < |t'.locations| :: LocationRefsOk(t', t'.locations[k]) by {
      forall k | 0 <= k < |t'.locations| ensures LocationRefsOk(t', t'.locations[k]) {
        if k != i {
          assert LocationRefsOk(t, t.locations[k]);
        }
      }
    }
  }

  /** Inserting a location under the next id, pointing at a client of its tenant, keeps the database consistent. */
  lemma AppendLocationConsistent(t: Tables, x: Location)
    requires Consistent(t) && x.id == t.nextLocationId && LocationRefsOk(t, x)
    ensures Consistent(t.(locations := t.locations + [x], nextLocationId := t.nextLocationId + 1))
  {
    var t' := t.(locations := t.locations + [x], nextLocationId := t.nextLocationId + 1);
    Rows.KeysAppend(t.locations, LocationKey, x);
    FreshIdDistinct(t.locations, LocationKey, t.nextLocationId, x);
    assert forall k | 0 <= k < |t'.orders| :: OrderRefsOk(t', t'.orders[k]) by {
      forall k | 0 <= k < |t'.orders| ensures OrderRefsOk(t', t'.orders[k]) {
        assert OrderRefsOk(t, t.orders[k]);
      }
    }
    assert forall k | 0 <= k < |t'.locations| :: LocationRefsOk(t', t'.locations[k]) by {
      forall k | 0 <= k < |t'.locations| ensures LocationRefsOk(t', t'.locations[k]) {
        if k < |t.locations| {
          assert LocationRefsOk(t, t.locations[k]);
        }
      }
    }
  }

  /** Deleting a location that no order references keeps the database consistent. */
  lemma RemoveLocationConsistent(t: Tables, i: nat)
    requires Consistent(t) && i < |t.locations|
    requires NoOrderRefersTo(t.orders, LocationRef, LocationKey(t.locations[i]))
    ensures Consistent(t.(locations := Rows.RemoveAt(t.locations, i)))
  {
    var t' := t.(locations := Rows.RemoveAt(t.locations, i));
    Rows.KeysRemove(t.locations, LocationKey, i);
    Rows.DistinctIdsRemove(t.locations, LocationKey, i);
    IdsBelowRemove(t.locations, LocationKey, t.nextLocationId, i);
    assert forall k | 0 <= k < |t'.orders| :: OrderRefsOk(t', t'.orders[k]) by {
      forall k | 0 <= k < |t'.orders| ensures OrderRefsOk(t', t'.orders[k]) {
        assert OrderRefsOk(t, t.orders[k]);
      }
    }
    assert forall k | 0 <= k < |t'.locations| :: LocationRefsOk(t', t'.locations[k]) by {
      forall k | 0 <= k < |t'.locations| ensures LocationRefsOk(t', t'.locations[k]) {
        if k < i {
          assert t'.locations[k] == t.locations[k];
        } else {
          assert t'.locations[k] == t.locations[k + 1];
        }
      }
    }
  }

  /** The exceptions a service call can end in. */
  datatype ServiceError =
    | NotFound(model: string, id: Id)   // `ModelNotFoundException` from `findOrFail`
    | Refused(message: string)          // an `\Exception` the service or the logger throws
    | Integrity(constraint: string)     // a `QueryException`: the database refused the write
    | Fatal(reason: string)             // a PHP `\Error` such as a `TypeError`: not an `\Exception`

  /** What a service call leaves behind: the tables, the audit rows it appended and its result. */
  datatype Outcome<+T> = Outcome(tables: Tables, logged: seq<LogEntry>, result: Result<T, ServiceError>)

  /** A guard threw: nothing was written. */
  function Fail<T>(t: Tables, e: ServiceError): (r: Outcome<T>)
    ensures r.tables == t && r.logged == [] && r.result == Err(e)
  {
    Outcome(t, [], Err(e))
  }

  /** The write stands; then the logger either appends its row or throws. */
  function Logged<T>(t: Tables, entry: Result<LogEntry, string>, value: T): (r: Outcome<T>)
    ensures r.tables == t
    ensures entry.Ok? ==> r.logged == [entry.value] && r.result == Ok(value)
    ensures entry.Err? ==> r.logged == [] && r.result == Err(Refused(entry.error))
  {
    if entry.Ok? then Outcome(t, [entry.value], Ok(value)) else Outcome(t, [], Err(Refused(entry.error)))
  }

  /** The database: each table a sequence of rows, the counters, and the audit trail. */
  class Database {
    var users: seq<User>
    var clients: seq<Client>
    var locations: seq<Location>
    var trucks: seq<Truck>
    var orders: seq<Order>
    var nextClientId: Id
    var nextLocationId: Id
    var nextTruckId: Id
    var nextOrderId: Id
    /** The `activity_logs` rows, oldest first. */
    ghost var log: seq<LogEntry>

    function State(): Tables
      reads this
    {
      Tables(users, clients, locations, trucks, orders, nextClientId, nextLocationId, nextTruckId, nextOrderId)
    }

    ghost predicate Valid()
      reads this
    {
      Consistent(State())
    }

    constructor(people: seq<User>)
      ensures State() == Empty(people) && log == []
      ensures Valid()
    {
      users, clients, locations, trucks, orders := people, [], [], [], [];
      nextClientId, nextLocationId, nextTruckId, nextOrderId := 1, 1, 1, 1;
      log := [];
    }

    /** Store a whole new state, as the end of a service call does. */
    method Commit(t: Tables, logged: seq<LogEntry>)
      modifies this
      ensures State() == t && log == old(log) + logged
    {
      users, clients, locations, trucks, orders := t.users, t.clients, t.locations, t.trucks, t.orders;
      nextClientId, nextLocationId, nextTruckId, nextOrderId := t.nextClientId, t.nextLocationId, t.nextTruckId, t.nextOrderId;
      log := log + logged;
    }
  }
}
