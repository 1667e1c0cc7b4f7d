/**
 * The rows of the tenant-scoped tables, as the migrations declare them: the
 * order status enum, nullable columns as `Option`, and the composite
 * `(id, tenant_id)` keys that the same-tenant foreign keys point at.
 * Timestamps are opaque integers.
 */
module Schema {
  import opened Wrappers
  import Rows

  type Id = int

  /** The `status` enum column of `orders`, with its six values. */
  datatype Status = DRAFT | SUBMITTED | SCHEDULED | EN_ROUTE | DELIVERED | CANCELLED

  const AllStatuses: seq<Status> := [DRAFT, SUBMITTED, SCHEDULED, EN_ROUTE, DELIVERED, CANCELLED]

  /** The string stored in the enum column. */
  function StatusName(s: Status): string {
    match s
    case DRAFT => "DRAFT"
    case SUBMITTED => "SUBMITTED"
    case SCHEDULED => "SCHEDULED"
    case EN_ROUTE => "EN_ROUTE"
    case DELIVERED => "DELIVERED"
    case CANCELLED => "CANCELLED"
  }

  /** Reading the enum column: only the six literals are accepted. */
  function ParseStatus(s: string): (r: Option<Status>)
    ensures r.Some? ==> StatusName(r.value) == s
  {
    if s == "DRAFT" then Some(DRAFT)
    else if s == "SUBMITTED" then Some(SUBMITTED)
    else if s == "SCHEDULED" then Some(SCHEDULED)
    else if s == "EN_ROUTE" then Some(EN_ROUTE)
    else if s == "DELIVERED" then Some(DELIVERED)
    else if s == "CANCELLED" then Some(CANCELLED)
    else None
  }

  /** Every status survives the column round trip, so status names are distinct. */
  lemma StatusRoundTrip(s: Status)
    ensures ParseStatus(StatusName(s)) == Some(s)
  {
  }

  lemma StatusNameInjective(a: Status, b: Status)
    ensures StatusName(a) == StatusName(b) ==> a == b
  {
    StatusRoundTrip(a);
    StatusRoundTrip(b);
  }

  lemma AllStatusesComplete(s: Status)
    ensures s in AllStatuses
  {
  }

  datatype Tenant = Tenant(id: Id, name: string, slug: string)

  datatype User = User(id: Id, tenantId: Id, name: string, role: string)

  datatype Client = Client(
    id: Id, tenantId: Id, name: string,
    contactPerson: Option<string>, contactPhone: Option<string>, contactEmail: Option<string>)

  /** `locations`: `client_id` and `address` required, `lat`/`lng` nullable. */
  datatype Location = Location(
    id: Id, tenantId: Id, clientId: Id, address: string, lat: Option<real>, lng: Option<real>)

  /** `delivery_trucks`: `tank_capacity_l` is a plain integer, `active` defaults to true. */
  datatype Truck = Truck(id: Id, tenantId: Id, plateNo: string, tankCapacityL: int, active: bool)

  /**
   * `orders`: `client_id`, `location_id`, `created_by`, `fuel_liters` and
   * `status` are NOT NULL; the truck, the driver, both window ends and the
   * delivery columns are nullable. `cancellation_reason` is the column the
   * service writes.
   */
  datatype Order = Order(
    id: Id, tenantId: Id, clientId: Id, locationId: Id, truckId: Option<Id>,
    createdBy: Id, driverId: Option<Id>, fuelLiters: int, status: Status,
    windowStart: Option<int>, windowEnd: Option<int>,
    deliveredLiters: Option<int>, deliveredAt: Option<int>,
    cancellationReason: Option<string>, createdAt: int, updatedAt: int)

  /** The composite keys that the `unique(['id', 'tenant_id'])` indexes declare. */
  function UserKey(u: User): Rows.Key { (u.id, u.tenantId) }
  function ClientKey(c: Client): Rows.Key { (c.id, c.tenantId) }
  function LocationKey(l: Location): Rows.Key { (l.id, l.tenantId) }
  function TruckKey(t: Truck): Rows.Key { (t.id, t.tenantId) }
  function OrderKey(o: Order): Rows.Key { (o.id, o.tenantId) }

  /** The statuses that hold a truck: SCHEDULED and EN_ROUTE. */
  predicate Booked(o: Order) {
    o.status == SCHEDULED || o.status == EN_ROUTE
  }

  /** DELIVERED and CANCELLED: no transition leaves them. */
  predicate Terminal(s: Status) {
    s == DELIVERED || s == CANCELLED
  }

  /** A column value as Eloquent's attribute array holds it. */
  datatype Value = Null | Int(i: int) | Str(s: string) | Bool(b: bool)

  /** An attribute array, `getAttributes()` or `getChanges()`. */
  type Attrs = map<string, Value>

  function OptInt(x: Option<int>): Value {
    if x.Some? then Int(x.value) else Null
  }

  function OptStr(x: Option<string>): Value {
    if x.Some? then Str(x.value) else Null
  }

  lemma OptIntInjective(x: Option<int>, y: Option<int>)
    ensures OptInt(x) == OptInt(y) ==> x == y
  {
  }

  lemma OptStrInjective(x: Option<string>, y: Option<string>)
    ensures OptStr(x) == OptStr(y) ==> x == y
  {
  }

  /** An order row as an attribute array keyed by column name. */
  function OrderAttributes(o: Order): (a: Attrs)
    ensures "id" in a && a["id"] == Int(o.id)
    ensures "status" in a && a["status"] == Str(StatusName(o.status))
  {
    map[
      "id" := Int(o.id), "tenant_id" := Int(o.tenantId),
      "client_id" := Int(o.clientId), "location_id" := Int(o.locationId),
      "truck_id" := OptInt(o.truckId), "created_by" := Int(o.createdBy),
      "driver_id" := OptInt(o.driverId), "fuel_liters" := Int(o.fuelLiters),
      "status" := Str(StatusName(o.status)),
      "window_start" := OptInt(o.windowStart), "window_end" := OptInt(o.windowEnd),
      "delivered_liters" := OptInt(o.deliveredLiters), "delivered_at" := OptInt(o.deliveredAt),
      "cancellation_reason" := OptStr(o.cancellationReason),
      "created_at" := Int(o.createdAt), "updated_at" := Int(o.updatedAt)
    ]
  }

  /** Every order row has the same sixteen columns. */
  lemma OrderAttributesSameColumns(a: Order, b: Order)
    ensures OrderAttributes(a).Keys == OrderAttributes(b).Keys
  {
  }

  /** The attribute array loses nothing: equal arrays come from equal rows. */
  lemma OrderAttributesInjective(a: Order, b: Order)
    requires OrderAttributes(a) == OrderAttributes(b)
    ensures a == b
  {
    var x, y := OrderAttributes(a), OrderAttributes(b);
    assert x["status"] == y["status"];
    StatusNameInjective(a.status, b.status);
    assert x["truck_id"] == y["truck_id"];
    OptIntInjective(a.truckId, b.truckId);
    assert x["driver_id"] == y["driver_id"];
    OptIntInjective(a.driverId, b.driverId);
    assert x["window_start"] == y["window_start"];
    OptIntInjective(a.windowStart, b.windowStart);
    assert x["window_end"] == y["window_end"];
    OptIntInjective(a.windowEnd, b.windowEnd);
    assert x["delivered_liters"] == y["delivered_liters"];
    OptIntInjective(a.deliveredLiters, b.deliveredLiters);
    assert x["delivered_at"] == y["delivered_at"];
    OptIntInjective(a.deliveredAt, b.deliveredAt);
    assert x["cancellation_reason"] == y["cancellation_reason"];
    OptStrInjective(a.cancellationReason, b.cancellationReason);
    assert x["id"] == y["id"] && x["tenant_id"] == y["tenant_id"];
    assert x["client_id"] == y["client_id"] && x["location_id"] == y["location_id"];
    assert x["created_by"] == y["created_by"] && x["fuel_liters"] == y["fuel_liters"];
    assert x["created_at"] == y["created_at"] && x["updated_at"] == y["updated_at"];
  }

  /** The fully qualified model classes, as `get_class` reports them. */
  const OrderClass: string := "App\\Modules\\Orders\\Domain\\Models\\Order"
  const ClientClass: string := "App\\Modules\\Clients\\Domain\\Models\\Client"
  const LocationClass: string := "App\\Modules\\Locations\\Domain\\Models\\Location"
  const TruckClass: string := "App\\Modules\\Trucks\\Domain\\Models\\DeliveryTruck"
}
