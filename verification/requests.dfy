/**
 * The `*Request` rule tables as predicates over the submitted fields, and
 * the validated values each hands to its service. A field is `None` when
 * the request leaves it out.
 */
module Requests {
  import opened Wrappers
  import opened Schema
  import opened Store
  import OrderRules
  import TruckRules
  import LocationRules
  import ClientRules
  import Rows
  import opened Tenancy

  /** A submitted request field: a string carries the instant it parses to as a date, if any. */
  datatype Input = Null | Int(i: int) | Real(r: real) | Str(s: string, date: Option<int>) | Bool(b: bool)

  /** The characters PHP's `trim` removes: space, tab, newline, return, NUL and vertical tab. */
  predicate Blank(s: string) {
    forall k | 0 <= k < |s| :: s[k] in {' ', '\t', '\n', '\r', 0 as char, 11 as char}
  }

  /** `required` on a present value: not null and not a blank string. */
  predicate Filled(v: Input) {
    !v.Null? && !(v.Str? && Blank(v.s))
  }

  /** `string|max:n`. */
  predicate StringUpTo(v: Input, n: nat) {
    v.Str? && |v.s| <= n
  }

  /** `integer|min:lo|max:hi`; the size of an integer is its value. */
  predicate IntegerIn(v: Input, lo: int, hi: int) {
    v.Int? && lo <= v.i <= hi
  }

  /** `numeric|between:lo,hi`. */
  predicate NumericIn(v: Input, lo: real, hi: real) {
    (v.Int? && lo <= v.i as real <= hi) || (v.Real? && lo <= v.r <= hi)
  }

  /** `boolean`: true, false, 0, 1, "0" and "1". */
  predicate IsBoolean(v: Input) {
    v.Bool? || (v.Int? && (v.i == 0 || v.i == 1)) || (v.Str? && (v.s == "0" || v.s == "1"))
  }

  predicate IsDate(v: Input) {
    v.Str? && v.date.Some?
  }

  /**
   * `exists:table,id`: a plain query on the table, without the tenant
   * scope, so a row of any tenant satisfies it.
   */
  predicate ExistsIn(v: Input, ids: set<Id>) {
    v.Int? && v.i in ids
  }

  function ClientIds(t: Tables): set<Id> { set c | c in t.clients :: c.id }
  function LocationIds(t: Tables): set<Id> { set l | l in t.locations :: l.id }
  function TruckIds(t: Tables): set<Id> { set x | x in t.trucks :: x.id }
  function UserIds(t: Tables): set<Id> { set u | u in t.users :: u.id }

  /** `after:window_start`: only checked against a start that is itself a date. */
  predicate EndsAfter(start: Option<Input>, end: Input) {
    IsDate(end) && (start.Some? && IsDate(start.value) ==> end.date.value > start.value.date.value)
  }

  /** The fields of `StoreOrderRequest`. */
  datatype OrderInput = OrderInput(
    clientId: Option<Input>, locationId: Option<Input>, fuelLiters: Option<Input>,
    windowStart: Option<Input>, windowEnd: Option<Input>)

  /** `StoreOrderRequest`: both ids required and existing, at least 100 litres, an optional window with its end after its start. */
  predicate ValidStoreOrder(r: OrderInput, t: Tables) {
    && r.clientId.Some? && Filled(r.clientId.value) && ExistsIn(r.clientId.value, ClientIds(t))
    && r.locationId.Some? && Filled(r.locationId.value) && ExistsIn(r.locationId.value, LocationIds(t))
    && r.fuelLiters.Some? && Filled(r.fuelLiters.value) && r.fuelLiters.value.Int? && r.fuelLiters.value.i >= 100
    && (r.windowStart.None? || r.windowStart.value.Null? || IsDate(r.windowStart.value))
    && (r.windowEnd.None? || r.windowEnd.value.Null? || EndsAfter(r.windowStart, r.windowEnd.value))
  }

  /** A nullable date field as the instant the model stores. */
  function InstantOf(f: Option<Input>): Option<int> {
    if f.Some? && IsDate(f.value) then f.value.date else None
  }

  /**
   * `$request->validated()` for a create: at least 100 litres, and when both
   * window ends are given the window is well-formed.
   */
  function ValidatedNewOrder(r: OrderInput, t: Tables): (d: OrderRules.NewOrder)
    requires ValidStoreOrder(r, t)
    ensures d.fuelLiters >= 100
    ensures d.Start().Some? && d.End().Some? ==> d.Start().value < d.End().value
    ensures d.clientId in ClientIds(t) && d.locationId in LocationIds(t)
    ensures d.windowStart.Put? <==> r.windowStart.Some?
    ensures d.windowEnd.Put? <==> r.windowEnd.Some?
  {
    OrderRules.NewOrder(r.clientId.value.i, r.locationId.value.i, r.fuelLiters.value.i,
                        if r.windowStart.None? then Keep else Put(InstantOf(r.windowStart)),
                        if r.windowEnd.None? then Keep else Put(InstantOf(r.windowEnd)))
  }

  /**
   * `exists:clients,id` accepts the id of another tenant's client; the
   * request then passes validation and `createOrder` answers not found.
   */
  lemma ForeignClientPassesValidation(r: OrderInput, t: Tables, tenant: Tenant, actor: Option<User>, userId: Id, now: int)
    requires ValidStoreOrder(r, t)
    requires forall k | 0 <= k < |t.clients| :: t.clients[k].id == r.clientId.value.i ==> t.clients[k].tenantId != tenant.id
    ensures OrderRules.CreateOrder(t, Some(tenant), actor, userId, ValidatedNewOrder(r, t), now).result
      == Err(NotFound(ClientClass, r.clientId.value.i))
  {
  }

  /** `UpdateOrderRequest`: each field checked only when sent; the ids and litres are then required. */
  predicate ValidUpdateOrder(r: OrderInput, t: Tables) {
    && (r.clientId.None? || (Filled(r.clientId.value) && ExistsIn(r.clientId.value, ClientIds(t))))
    && (r.locationId.None? || (Filled(r.locationId.value) && ExistsIn(r.locationId.value, LocationIds(t))))
    && (r.fuelLiters.None? || (Filled(r.fuelLiters.value) && r.fuelLiters.value.Int? && r.fuelLiters.value.i >= 100))
    && (r.windowStart.None? || r.windowStart.value.Null? || IsDate(r.windowStart.value))
    && (r.windowEnd.None? || r.windowEnd.value.Null? || EndsAfter(r.windowStart, r.windowEnd.value))
  }

  /** A sent window end as the patch: left out, cleared with null, or set. */
  function WindowPatch(f: Option<Input>): Patch<Option<int>> {
    if f.None? then Keep else Put(InstantOf(f))
  }

  /** `$request->validated()` for an update: only the sent fields, each within the create's bounds. */
  function ValidatedOrderPatch(r: OrderInput, t: Tables): (p: OrderRules.OrderPatch)
    requires ValidUpdateOrder(r, t)
    ensures p.clientId.Some? <==> r.clientId.Some?
    ensures p.locationId.Some? <==> r.locationId.Some?
    ensures p.fuelLiters.Some? ==> p.fuelLiters.value >= 100
    ensures p.windowStart.Put? && p.windowEnd.Put? && p.windowStart.value.Some? && p.windowEnd.value.Some?
      ==> p.windowStart.value.value < p.windowEnd.value.value
  {
    OrderRules.OrderPatch(
      if r.clientId.Some? then Some(r.clientId.value.i) else None,
      if r.locationId.Some? then Some(r.locationId.value.i) else None,
      if r.fuelLiters.Some? then Some(r.fuelLiters.value.i) else None,
      WindowPatch(r.windowStart), WindowPatch(r.windowEnd))
  }

  /** `ScheduleOrderRequest`: a truck id of any tenant. */
  predicate ValidSchedule(truckId: Option<Input>, t: Tables) {
    truckId.Some? && Filled(truckId.value) && ExistsIn(truckId.value, TruckIds(t))
  }

  /** `DispatchOrderRequest`: a user id, of any tenant and any role. */
  predicate ValidDispatch(driverId: Option<Input>, t: Tables) {
    driverId.Some? && Filled(driverId.value) && ExistsIn(driverId.value, UserIds(t))
  }

  /**
   * `exists:delivery_trucks,id` accepts another tenant's truck; the scoped
   * lookup in `scheduleOrder` then answers not found.
   */
  lemma ForeignTruckPassesValidation(truckId: Option<Input>, t: Tables, tenant: Tenant, actor: Option<User>, id: Id, now: int)
    requires ValidSchedule(truckId, t)
    requires OrderRules.FindOrder(t, ScopeOf(Some(tenant)), id).Some?
    requires t.orders[OrderRules.FindOrder(t, ScopeOf(Some(tenant)), id).value].status == SUBMITTED
    requires forall k | 0 <= k < |t.trucks| :: t.trucks[k].id == truckId.value.i ==> t.trucks[k].tenantId != tenant.id
    ensures OrderRules.ScheduleOrder(t, Some(tenant), actor, id, truckId.value.i, now).result
      == Err(NotFound(TruckClass, truckId.value.i))
  {
  }

  /**
   * `exists:users,id` accepts a user of another tenant, and of any role;
   * nothing in `dispatchOrder` looks at the driver, and only the orders'
   * composite foreign key refuses the write.
   */
  lemma ForeignDriverReachesForeignKey(driverId: Option<Input>, t: Tables, bound: Option<Tenant>, actor: Option<User>, id: Id, now: int)
    requires ValidDispatch(driverId, t)
    requires OrderRules.FindOrder(t, ScopeOf(bound), id).Some?
    requires var o := t.orders[OrderRules.FindOrder(t, ScopeOf(bound), id).value];
      o.status == SCHEDULED && o.truckId.Some? && o.truckId.value != 0
      && forall k | 0 <= k < |t.users| :: t.users[k].id == driverId.value.i ==> t.users[k].tenantId != o.tenantId
    ensures OrderRules.DispatchOrder(t, bound, actor, id, driverId.value.i, now).result
      == Err(Integrity("orders composite foreign key"))
  {
    var o := t.orders[OrderRules.FindOrder(t, ScopeOf(bound), id).value];
    assert (driverId.value.i, o.tenantId) !in Rows.Keys(t.users, UserKey);
  }

  /** `DeliverOrderRequest`: an integer of at least 1. */
  predicate ValidDeliver(delivered: Option<Input>) {
    delivered.Some? && Filled(delivered.value) && delivered.value.Int? && delivered.value.i >= 1
  }

  /** After validation, `deliverOrder`'s own "greater than 0" guard can never be the one that refuses. */
  lemma DeliverGuardShadowed(delivered: Option<Input>, t: Tables, bound: Option<Tenant>, actor: Option<User>, id: Id, now: int)
    requires ValidDeliver(delivered)
    ensures OrderRules.DeliverOrder(t, bound, actor, id, delivered.value.i, now).result != Err(Refused(OrderRules.NothingDelivered))
  {
  }

  /** `CancelOrderRequest`: an optional reason of at most 1000 characters. */
  predicate ValidCancel(reason: Option<Input>) {
    reason.None? || reason.value.Null? || StringUpTo(reason.value, 1000)
  }

  /** The reason `cancelOrder` receives: the string, or nothing. */
  function ValidatedReason(reason: Option<Input>): (r: Option<string>)
    requires ValidCancel(reason)
    ensures r.Some? ==> |r.value| <= 1000
    ensures r.None? <==> reason.None? || reason.value.Null?
  {
    if reason.Some? && reason.value.Str? then Some(reason.value.s) else None
  }

  /** The fields of the truck requests. */
  datatype TruckInput = TruckInput(plateNo: Option<Input>, tankCapacityL: Option<Input>, active: Option<Input>)

  /** `boolean` without `nullable`: absent is fine, null is not. */
  predicate OptionalBoolean(f: Option<Input>) {
    f.None? || IsBoolean(f.value)
  }

  function BooleanOf(v: Input): bool {
    match v
    case Bool(b) => b
    case Int(i) => i == 1
    case Str(s, _) => s == "1"
    case _ => false
  }

  /** `StoreTruckRequest`: a plate of at most 50 characters, a tank of 1000 to 50000 litres, an optional flag. */
  predicate ValidStoreTruck(r: TruckInput) {
    && r.plateNo.Some? && Filled(r.plateNo.value) && StringUpTo(r.plateNo.value, 50)
    && r.tankCapacityL.Some? && Filled(r.tankCapacityL.value) && IntegerIn(r.tankCapacityL.value, 1000, 50000)
    && OptionalBoolean(r.active)
  }

  function ValidatedNewTruck(r: TruckInput): (d: TruckRules.NewTruck)
    requires ValidStoreTruck(r)
    ensures 0 < |d.plateNo| <= 50
    ensures 1000 <= d.tankCapacityL <= 50000
    ensures d.active.Some? <==> r.active.Some?
  {
    TruckRules.NewTruck(r.plateNo.value.s, r.tankCapacityL.value.i,
                        if r.active.Some? then Some(BooleanOf(r.active.value)) else None)
  }

  /** `UpdateTruckRequest`: the same bounds on whichever fields are sent. */
  predicate ValidUpdateTruck(r: TruckInput) {
    && (r.plateNo.None? || (Filled(r.plateNo.value) && StringUpTo(r.plateNo.value, 50)))
    && (r.tankCapacityL.None? || (Filled(r.tankCapacityL.value) && IntegerIn(r.tankCapacityL.value, 1000, 50000)))
    && OptionalBoolean(r.active)
  }

  function ValidatedTruckPatch(r: TruckInput): (p: TruckRules.TruckPatch)
    requires ValidUpdateTruck(r)
    ensures p.plateNo.Some? ==> 0 < |p.plateNo.value| <= 50
    ensures p.tankCapacityL.Some? ==> 1000 <= p.tankCapacityL.value <= 50000
    ensures p.plateNo.Some? <==> r.plateNo.Some?
    ensures p.tankCapacityL.Some? <==> r.tankCapacityL.Some?
    ensures p.active.Some? <==> r.active.Some?
  {
    TruckRules.TruckPatch(
      if r.plateNo.Some? then Some(r.plateNo.value.s) else None,
      if r.tankCapacityL.Some? then Some(r.tankCapacityL.value.i) else None,
      if r.active.Some? then Some(BooleanOf(r.active.value)) else None)
  }

  /** The fields of `UpdateLocationRequest`. */
  datatype LocationInput = LocationInput(clientId: Option<Input>, address: Option<Input>, lat: Option<Input>, lng: Option<Input>)

  /** `UpdateLocationRequest`: a sent client must exist, a sent address be at most 500 characters, the coordinates in range or null. */
  predicate ValidUpdateLocation(r: LocationInput, t: Tables) {
    && (r.clientId.None? || (Filled(r.clientId.value) && ExistsIn(r.clientId.value, ClientIds(t))))
    && (r.address.None? || (Filled(r.address.value) && StringUpTo(r.address.value, 500)))
    && (r.lat.None? || r.lat.value.Null? || NumericIn(r.lat.value, -90.0, 90.0))
    && (r.lng.None? || r.lng.value.Null? || NumericIn(r.lng.value, -180.0, 180.0))
  }

  function NumberOf(v: Input): real {
    if v.Int? then v.i as real else if v.Real? then v.r else 0.0
  }

  /** A nullable coordinate as the patch: left out, cleared, or set. */
  function CoordinatePatch(f: Option<Input>): Patch<Option<real>> {
    if f.None? then Keep else if f.value.Null? then Put(None) else Put(Some(NumberOf(f.value)))
  }

  function ValidatedLocationPatch(r: LocationInput, t: Tables): (p: LocationRules.LocationPatch)
    requires ValidUpdateLocation(r, t)
    ensures p.clientId.Some? ==> p.clientId.value in ClientIds(t)
    ensures p.address.Some? ==> 0 < |p.address.value| <= 500
    ensures p.lat.Put? && p.lat.value.Some? ==> -90.0 <= p.lat.value.value <= 90.0
    ensures p.lng.Put? && p.lng.value.Some? ==> -180.0 <= p.lng.value.value <= 180.0
    ensures p.lat.Keep? <==> r.lat.None?
    ensures p.lng.Keep? <==> r.lng.None?
  {
    LocationRules.LocationPatch(
      if r.clientId.Some? then Some(r.clientId.value.i) else None,
      if r.address.Some? then Some(r.address.value.s) else None,
      CoordinatePatch(r.lat), CoordinatePatch(r.lng))
  }

  /** The fields of `StoreClientRequest`. */
  datatype ClientInput = ClientInput(name: Option<Input>, contactPerson: Option<Input>, contactPhone: Option<Input>, contactEmail: Option<Input>)

  /** A nullable string field of at most `n` characters. */
  predicate NullableUpTo(f: Option<Input>, n: nat) {
    f.None? || f.value.Null? || StringUpTo(f.value, n)
  }

  /** `StoreClientRequest`: a name of at most 255 characters, contacts optional within 255, 50 and 255. */
  predicate ValidStoreClient(r: ClientInput) {
    && r.name.Some? && Filled(r.name.value) && StringUpTo(r.name.value, 255)
    && NullableUpTo(r.contactPerson, 255)
    && NullableUpTo(r.contactPhone, 50)
    && NullableUpTo(r.contactEmail, 255)
  }

  function NullableString(f: Option<Input>): Option<string> {
    if f.Some? && f.value.Str? then Some(f.value.s) else None
  }

  function ValidatedNewClient(r: ClientInput): (d: ClientRules.NewClient)
    requires ValidStoreClient(r)
    ensures 0 < |d.name| <= 255
    ensures d.contactPerson.Some? ==> |d.contactPerson.value| <= 255
    ensures d.contactPhone.Some? ==> |d.contactPhone.value| <= 50
    ensures d.contactEmail.Some? ==> |d.contactEmail.value| <= 255
  {
    ClientRules.NewClient(r.name.value.s, NullableString(r.contactPerson), NullableString(r.contactPhone), NullableString(r.contactEmail))
  }
}
