/**
 * `DashboardService`: order counts per status over a period, the integer
 * parts of the fleet statistics, and the ten most recent orders. Carbon's
 * clock readings are parameters.
 */
module Dashboard {
  import opened Wrappers
  import opened Schema
  import opened Tenancy
  import opened Store
  import opened OrderQueries
  import Rows

  /** The instants `Carbon::today()`, `startOfWeek()` and `startOfMonth()` return. */
  datatype Clock = Clock(today: int, startOfWeek: int, startOfMonth: int)

  /** The `match` on the period: `week` and `month` have their own start, anything else is today. */
  function DateFrom(period: string, clock: Clock): int {
    if period == "week" then clock.startOfWeek
    else if period == "month" then clock.startOfMonth
    else clock.today
  }

  function StatusCount(orders: seq<Order>, s: Status): nat {
    Rows.Count(orders, (o: Order) => o.status == s)
  }

  /** The six status counts add up to the number of orders. */
  lemma {:induction false} StatusCountsPartition(orders: seq<Order>)
    ensures StatusCount(orders, DRAFT) + StatusCount(orders, SUBMITTED) + StatusCount(orders, SCHEDULED)
      + StatusCount(orders, EN_ROUTE) + StatusCount(orders, DELIVERED) + StatusCount(orders, CANCELLED) == |orders|
  {
    if orders != [] {
      StatusCountsPartition(orders[1..]);
    }
  }

  datatype OrderStatistics = OrderStatistics(total: nat, byStatus: map<string, nat>, period: string, dateFrom: int)

  /**
   * `getOrderStatistics`: `by_status` has the six status names as its keys,
   * each counting the tenant's orders of that status created since the
   * period began, and together they make up `total`.
   */
  function GetOrderStatistics(orders: seq<Order>, scope: Scope, period: string, clock: Clock): (r: OrderStatistics)
    ensures r.byStatus.Keys == {"DRAFT", "SUBMITTED", "SCHEDULED", "EN_ROUTE", "DELIVERED", "CANCELLED"}
    ensures forall s: Status ::
      (StatusName(s) in r.byStatus && r.byStatus[StatusName(s)] == StatusCount(OrdersSince(orders, scope, DateFrom(period, clock)), s))
    ensures r.total == |OrdersSince(orders, scope, DateFrom(period, clock))|
    ensures r.total == r.byStatus["DRAFT"] + r.byStatus["SUBMITTED"] + r.byStatus["SCHEDULED"]
      + r.byStatus["EN_ROUTE"] + r.byStatus["DELIVERED"] + r.byStatus["CANCELLED"]
    ensures r.period == period
  {
    var since := OrdersSince(orders, scope, DateFrom(period, clock));
    StatusCountsPartition(since);
    OrderStatistics(
      |since|,
      map[
        "DRAFT" := StatusCount(since, DRAFT),
        "SUBMITTED" := StatusCount(since, SUBMITTED),
        "SCHEDULED" := StatusCount(since, SCHEDULED),
        "EN_ROUTE" := StatusCount(since, EN_ROUTE),
        "DELIVERED" := StatusCount(since, DELIVERED),
        "CANCELLED" := StatusCount(since, CANCELLED)],
      period,
      DateFrom(period, clock))
  }

  /** A period other than `week` or `month` gives today's figures; only the echoed name differs. */
  lemma UnknownPeriodIsToday(orders: seq<Order>, scope: Scope, period: string, clock: Clock)
    requires period != "week" && period != "month"
    ensures GetOrderStatistics(orders, scope, period, clock) == GetOrderStatistics(orders, scope, "today", clock).(period := period)
  {
  }

  predicate IsActive(t: Truck) {
    t.active
  }

  function Capacity(t: Truck): int {
    t.tankCapacityL
  }

  /** A truck's share of the fleet capacity: its tank if active, nothing otherwise. */
  function ActiveCapacity(t: Truck): int {
    if t.active then t.tankCapacityL else 0
  }

  function FuelOf(o: Order): int {
    o.fuelLiters
  }

  lemma {:induction false} ActiveSumIsMaskedSum(trucks: seq<Truck>)
    ensures Rows.Sum(Rows.Filter(trucks, IsActive), Capacity) == Rows.Sum(trucks, ActiveCapacity)
  {
    if trucks != [] {
      ActiveSumIsMaskedSum(trucks[1..]);
    }
  }

  /** The distinct truck ids of a list of orders. */
  function TruckIdsOf(orders: seq<Order>): set<Id> {
    set k | 0 <= k < |orders| && orders[k].truckId.Some? :: orders[k].truckId.value
  }

  lemma {:induction false} TruckIdsBound(orders: seq<Order>)
    ensures |TruckIdsOf(orders)| <= |orders|
  {
    if orders != [] {
      TruckIdsBound(orders[1..]);
      var head := if orders[0].truckId.Some? then {orders[0].truckId.value} else {};
      forall id | id in TruckIdsOf(orders) ensures id in head + TruckIdsOf(orders[1..]) {
        var k :| 0 <= k < |orders| && orders[k].truckId.Some? && orders[k].truckId.value == id;
        if k > 0 {
          assert orders[1..][k - 1] == orders[k];
        }
      }
      SubsetCardinality(TruckIdsOf(orders), head + TruckIdsOf(orders[1..]));
    }
  }

  lemma {:induction false} SubsetCardinality<T>(a: set<T>, b: set<T>)
    requires a <= b
    ensures |a| <= |b|
  {
    if a != {} {
      assert exists x :: x in a;
      var x :| x in a;
      SubsetCardinality(a - {x}, b - {x});
    }
  }

  /** The trucks in use are the truck ids of the current SCHEDULED and EN_ROUTE orders. */
  lemma InUseAreActiveOrderTrucks(orders: seq<Order>, scope: Scope)
    ensures TrucksInUse(orders, scope) == TruckIdsOf(CurrentActive(orders, scope))
  {
    var active := CurrentActive(orders, scope);
    var p := (o: Order) => InScope(o.tenantId, scope) && Booked(o);
    forall id ensures id in TrucksInUse(orders, scope) <==> id in TruckIdsOf(active) {
      if id in TrucksInUse(orders, scope) {
        var k :| 0 <= k < |orders| && InScope(orders[k].tenantId, scope) && Booked(orders[k]) && orders[k].truckId.Some? && orders[k].truckId.value == id;
        Rows.FilterMembers(orders, p, orders[k]);
        var j :| 0 <= j < |active| && active[j] == orders[k];
        assert active[j].truckId.Some? && active[j].truckId.value == id;
      }
      if id in TruckIdsOf(active) {
        var j :| 0 <= j < |active| && active[j].truckId.Some? && active[j].truckId.value == id;
        Rows.FilterMembers(orders, p, active[j]);
        var k :| 0 <= k < |orders| && orders[k] == active[j];
        assert InScope(orders[k].tenantId, scope) && Booked(orders[k]) && orders[k].truckId.Some? && orders[k].truckId.value == id;
      }
    }
  }

  datatype FleetStatistics = FleetStatistics(
    totalTrucks: nat, activeTrucks: nat, inUseTrucks: nat,
    totalCapacityLiters: int, usedCapacityLiters: int, capacityUtilizationPercent: real)

  /**
   * `getFleetStatistics`: the number of trucks and of active trucks, the
   * tank capacity of the active trucks only, the fuel of the SCHEDULED and
   * EN_ROUTE orders, and the number of distinct trucks those orders hold,
   * which never exceeds the number of orders.
   */
  function GetFleetStatistics(trucks: seq<Truck>, orders: seq<Order>, scope: Scope): (r: FleetStatistics)
    ensures r.totalTrucks == |ScopeFilter(trucks, TruckKey, scope)|
    ensures r.activeTrucks == Rows.Count(ScopeFilter(trucks, TruckKey, scope), IsActive)
    ensures r.activeTrucks <= r.totalTrucks
    ensures r.totalCapacityLiters == Rows.Sum(ScopeFilter(trucks, TruckKey, scope), ActiveCapacity)
    ensures r.usedCapacityLiters == Rows.Sum(CurrentActive(orders, scope), FuelOf)
    ensures r.inUseTrucks == |TrucksInUse(orders, scope)| && r.inUseTrucks <= |CurrentActive(orders, scope)|
    ensures r.totalCapacityLiters <= 0 ==> r.capacityUtilizationPercent == 0.0
    ensures r.totalCapacityLiters > 0 ==>
      r.capacityUtilizationPercent * (r.totalCapacityLiters as real) == (r.usedCapacityLiters as real) * 100.0
  {
    var all := ScopeFilter(trucks, TruckKey, scope);
    var active := Rows.Filter(all, IsActive);
    var total := Rows.Sum(active, Capacity);
    var used := Rows.Sum(CurrentActive(orders, scope), FuelOf);
    ActiveSumIsMaskedSum(all);
    Rows.CountIsFilterLength(all, IsActive);
    InUseAreActiveOrderTrucks(orders, scope);
    TruckIdsBound(CurrentActive(orders, scope));
    FleetStatistics(
      |all|, |active|, |TrucksInUse(orders, scope)|, total, used,
      if total > 0 then (used as real / total as real) * 100.0 else 0.0)
  }

  /** One row of `getRecentActivity`. */
  datatype RecentRow = RecentRow(id: Id, clientName: string, status: string, fuelLiters: int)

  /** `$order->client?->name ?? 'N/A'`: the client through the tenant scope. */
  function ClientName(clients: seq<Client>, scope: Scope, o: Order): string {
    var i := FindById(clients, ClientKey, scope, o.clientId);
    if i.Some? then clients[i.value].name else "N/A"
  }

  function RecentRowOf(clients: seq<Client>, scope: Scope, o: Order): RecentRow {
    RecentRow(o.id, ClientName(clients, scope, o), StatusName(o.status), o.fuelLiters)
  }

  /** `getRecentActivity`: the last ten orders by update, one row each. */
  function GetRecentActivity(t: Tables, scope: Scope): (r: seq<RecentRow>)
    ensures |r| <= 10
    ensures |r| == |Recent(t.orders, scope, 10)|
    ensures forall k | 0 <= k < |r| :: r[k] == RecentRowOf(t.clients, scope, Recent(t.orders, scope, 10)[k])
  {
    RecentSpec(t.orders, scope, 10);
    var recent := Recent(t.orders, scope, 10);
    seq(|recent|, k requires 0 <= k < |recent| => RecentRowOf(t.clients, scope, recent[k]))
  }

  /** In a consistent database every order's client is found, so `N/A` never shows. */
  lemma ClientNameKnown(t: Tables, scope: Scope, o: Order)
    requires Consistent(t) && o in t.orders && InScope(o.tenantId, scope)
    ensures exists c | c in t.clients :: c.id == o.clientId && ClientName(t.clients, scope, o) == c.name
  {
    var k :| 0 <= k < |t.orders| && t.orders[k] == o;
    assert (o.clientId, o.tenantId) in Rows.Keys(t.clients, ClientKey);
    var j :| 0 <= j < |t.clients| && ClientKey(t.clients[j]) == (o.clientId, o.tenantId);
    assert ClientKey(t.clients[j]).0 == o.clientId && InScope(ClientKey(t.clients[j]).1, scope);
    var i := FindById(t.clients, ClientKey, scope, o.clientId);
    assert i.Some?;
    assert t.clients[i.value] in t.clients;
  }
}
