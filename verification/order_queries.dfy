/**
 * The read-only order queries of `OrderRepository` and the listing paths that
 * `OrderService::getAllOrders` and `OrderController::index` choose between.
 * Every query runs under the tenant scope. Eager loading is not modelled, and
 * a paginated listing is modelled as its full ordered result, every page at once.
 */
module OrderQueries {
  import opened Wrappers
  import opened Text
  import opened Schema
  import opened Tenancy
  import opened Sorting
  import Rows

  /** `orderBy('created_at', 'desc')`. */
  predicate CreatedDesc(a: Order, b: Order) {
    a.createdAt >= b.createdAt
  }

  /** `orderBy('updated_at', 'desc')`. */
  predicate UpdatedDesc(a: Order, b: Order) {
    a.updatedAt >= b.updatedAt
  }

  /** `orderBy('window_start')`: ascending, with NULL first as MySQL sorts it. */
  predicate WindowStartAsc(a: Order, b: Order) {
    a.windowStart.None? || (b.windowStart.Some? && a.windowStart.value <= b.windowStart.value)
  }

  lemma OrderingsArePreorders()
    ensures Total(CreatedDesc) && Transitive(CreatedDesc)
    ensures Total(UpdatedDesc) && Transitive(UpdatedDesc)
    ensures Total(WindowStartAsc) && Transitive(WindowStartAsc)
  {
  }

  /** `getByStatus($status)`: the orders with that status, earliest window first. */
  function ByStatus(orders: seq<Order>, scope: Scope, status: string): seq<Order> {
    SortBy(Rows.Filter(orders, (o: Order) => InScope(o.tenantId, scope) && StatusName(o.status) == status), WindowStartAsc)
  }

  lemma ByStatusSpec(orders: seq<Order>, scope: Scope, status: string, o: Order)
    ensures o in ByStatus(orders, scope, status) <==>
      o in orders && InScope(o.tenantId, scope) && StatusName(o.status) == status
    ensures SortedBy(ByStatus(orders, scope, status), WindowStartAsc)
  {
    var p := (o: Order) => InScope(o.tenantId, scope) && StatusName(o.status) == status;
    Rows.FilterMembers(orders, p, o);
    SortByMembers(Rows.Filter(orders, p), WindowStartAsc, o);
    OrderingsArePreorders();
    SortBySorted(Rows.Filter(orders, p), WindowStartAsc);
  }

  /** `getByClient($clientId)`: newest first. */
  function ByClient(orders: seq<Order>, scope: Scope, clientId: Id): seq<Order> {
    SortBy(Rows.Filter(orders, (o: Order) => InScope(o.tenantId, scope) && o.clientId == clientId), CreatedDesc)
  }

  /** `getAllWithRelations()`: every order of the tenant, newest first. */
  function AllOrders(orders: seq<Order>, scope: Scope): seq<Order> {
    SortBy(ScopeFilter(orders, OrderKey, scope), CreatedDesc)
  }

  /** `getRecent($limit)`: most recently updated first, at most `limit` rows; Laravel ignores a negative limit. */
  function Recent(orders: seq<Order>, scope: Scope, limit: int): seq<Order> {
    var sorted := SortBy(ScopeFilter(orders, OrderKey, scope), UpdatedDesc);
    if 0 <= limit < |sorted| then sorted[..limit] else sorted
  }

  lemma RecentSpec(orders: seq<Order>, scope: Scope, limit: int)
    ensures limit >= 0 ==> |Recent(orders, scope, limit)| <= limit
    ensures limit >= 0 && |ScopeFilter(orders, OrderKey, scope)| <= limit ==>
      |Recent(orders, scope, limit)| == |ScopeFilter(orders, OrderKey, scope)|
    ensures SortedBy(Recent(orders, scope, limit), UpdatedDesc)
    ensures forall k | 0 <= k < |Recent(orders, scope, limit)| ::
      Recent(orders, scope, limit)[k] in orders && InScope(Recent(orders, scope, limit)[k].tenantId, scope)
  {
    var scoped := ScopeFilter(orders, OrderKey, scope);
    var sorted := SortBy(scoped, UpdatedDesc);
    OrderingsArePreorders();
    SortBySorted(scoped, UpdatedDesc);
    var r := Recent(orders, scope, limit);
    forall k | 0 <= k < |r| ensures r[k] in orders && InScope(r[k].tenantId, scope) {
      assert r[k] == sorted[k] && r[k] in sorted;
      SortByMembers(scoped, UpdatedDesc, r[k]);
      ScopeFilterMembers(orders, OrderKey, scope, r[k]);
    }
  }

  /** `getCurrentActiveOrders()`: SCHEDULED and EN_ROUTE orders. */
  function CurrentActive(orders: seq<Order>, scope: Scope): seq<Order> {
    Rows.Filter(orders, (o: Order) => InScope(o.tenantId, scope) && Booked(o))
  }

  /** `getOrdersSince($dateFrom)`: orders created at or after the instant. */
  function OrdersSince(orders: seq<Order>, scope: Scope, from: int): seq<Order> {
    Rows.Filter(orders, (o: Order) => InScope(o.tenantId, scope) && o.createdAt >= from)
  }

  /** `getTrucksInUse()`: the distinct non-null truck ids of SCHEDULED and EN_ROUTE orders. */
  function TrucksInUse(orders: seq<Order>, scope: Scope): set<Id> {
    set k | 0 <= k < |orders| && InScope(orders[k].tenantId, scope) && Booked(orders[k]) && orders[k].truckId.Some?
      :: orders[k].truckId.value
  }

  lemma TrucksInUseSpec(orders: seq<Order>, scope: Scope, id: Id)
    ensures id in TrucksInUse(orders, scope) <==>
      exists k | 0 <= k < |orders| :: InScope(orders[k].tenantId, scope) && Booked(orders[k]) && orders[k].truckId == Some(id)
  {
  }

  /** The `status` filter: absent, one value, or a list. */
  datatype StatusFilter = NoStatus | One(name: string) | AnyOf(names: seq<string>)

  /**
   * The seven filter keys of `searchAndFilter`. Dates are instants; an id of
   * 0 and an empty status are PHP-`empty` and behave as absent.
   */
  datatype Filters = Filters(
    dateFrom: Option<int>, dateTo: Option<int>, status: StatusFilter,
    clientId: Option<Id>, locationId: Option<Id>, driverId: Option<Id>, truckId: Option<Id>)

  /** `!empty($filters[k])` on an id. */
  predicate Given(x: Option<Id>) {
    x.Some? && x.value != 0
  }

  predicate StatusGiven(f: StatusFilter) {
    match f
    case NoStatus => false
    case One(n) => Truthy(n)
    case AnyOf(ns) => ns != []
  }

  /** `whereIn` for a list, `where` for a single value, nothing when empty. */
  predicate StatusMatches(o: Order, f: StatusFilter) {
    match f
    case NoStatus => true
    case One(n) => !Truthy(n) || StatusName(o.status) == n
    case AnyOf(ns) => ns == [] || StatusName(o.status) in ns
  }

  predicate IdMatches(x: Option<Id>, column: Option<Id>) {
    !Given(x) || column == Some(x.value)
  }

  /** The conjunction of every non-empty filter. */
  predicate Matches(o: Order, f: Filters) {
    && (f.dateFrom.None? || o.createdAt >= f.dateFrom.value)
    && (f.dateTo.None? || o.createdAt <= f.dateTo.value)
    && StatusMatches(o, f.status)
    && IdMatches(f.clientId, Some(o.clientId))
    && IdMatches(f.locationId, Some(o.locationId))
    && IdMatches(f.driverId, o.driverId)
    && IdMatches(f.truckId, o.truckId)
  }

  /** `searchAndFilter($filters)`: newest first. */
  function SearchAndFilter(orders: seq<Order>, scope: Scope, f: Filters): seq<Order> {
    SortBy(Rows.Filter(orders, (o: Order) => InScope(o.tenantId, scope) && Matches(o, f)), CreatedDesc)
  }

  lemma SearchAndFilterSpec(orders: seq<Order>, scope: Scope, f: Filters, o: Order)
    ensures o in SearchAndFilter(orders, scope, f) <==> o in orders && InScope(o.tenantId, scope) && Matches(o, f)
    ensures SortedBy(SearchAndFilter(orders, scope, f), CreatedDesc)
  {
    var p := (o: Order) => InScope(o.tenantId, scope) && Matches(o, f);
    Rows.FilterMembers(orders, p, o);
    SortByMembers(Rows.Filter(orders, p), CreatedDesc, o);
    OrderingsArePreorders();
    SortBySorted(Rows.Filter(orders, p), CreatedDesc);
  }

  /** `!empty(array_filter($filters))`: at least one filter is non-empty. */
  predicate AnyFilter(f: Filters) {
    f.dateFrom.Some? || f.dateTo.Some? || StatusGiven(f.status)
    || Given(f.clientId) || Given(f.locationId) || Given(f.driverId) || Given(f.truckId)
  }

  /** A list of empty filters matches every order. */
  lemma NoFilterMatchesAll(o: Order, f: Filters)
    requires !AnyFilter(f)
    ensures Matches(o, f)
  {
  }

  /** Without any filter, `searchAndFilter` lists every order of the tenant. */
  lemma NoFilterSearchIsAll(orders: seq<Order>, scope: Scope, f: Filters)
    requires !AnyFilter(f)
    ensures SearchAndFilter(orders, scope, f) == AllOrders(orders, scope)
  {
    ScopeFilterIsFilter(orders, OrderKey, scope, (o: Order) => InScope(o.tenantId, scope) && Matches(o, f));
  }

  /** `OrderService::getAllOrders`: status first, then client, then everything. */
  function GetAllOrders(orders: seq<Order>, scope: Scope, status: Option<string>, clientId: Option<Id>): seq<Order> {
    if TruthyOpt(status) then ByStatus(orders, scope, status.value)
    else if Given(clientId) then ByClient(orders, scope, clientId.value)
    else AllOrders(orders, scope)
  }

  /** The `status` query parameter as the legacy path reads it. */
  function LegacyStatus(f: StatusFilter): Option<string> {
    match f
    case One(n) => Some(n)
    case _ => None
  }

  /** `OrderController::index`: the advanced filter when any key is non-empty, else the legacy path. */
  function Index(orders: seq<Order>, scope: Scope, f: Filters): seq<Order> {
    if AnyFilter(f) then SearchAndFilter(orders, scope, f)
    else GetAllOrders(orders, scope, LegacyStatus(f.status), f.clientId)
  }

  /**
   * The legacy path is reached only when `status` and `client_id` are
   * empty, so it always lists every order; both branches then agree.
   */
  lemma LegacyBranchListsAll(orders: seq<Order>, scope: Scope, f: Filters)
    requires !AnyFilter(f)
    ensures Index(orders, scope, f) == AllOrders(orders, scope)
    ensures Index(orders, scope, f) == SearchAndFilter(orders, scope, f)
  {
    NoFilterSearchIsAll(orders, scope, f);
  }

  /** With a filter given, `index` returns exactly the matching orders. */
  lemma IndexWithFilter(orders: seq<Order>, scope: Scope, f: Filters, o: Order)
    requires AnyFilter(f)
    ensures o in Index(orders, scope, f) <==> o in orders && InScope(o.tenantId, scope) && Matches(o, f)
  {
    SearchAndFilterSpec(orders, scope, f, o);
  }
}
