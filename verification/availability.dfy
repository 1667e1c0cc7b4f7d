/**
 * The truck-availability test shared by `OrderRepository::getScheduledInWindow`
 * and `TruckRepository::isAvailable`: an order of the truck in SCHEDULED or
 * EN_ROUTE status conflicts with the window `[s, e]` when its start lies in
 * `[s, e]`, its end lies in `[s, e]`, or it covers `[s, e]`. SQL's `BETWEEN`
 * is inclusive on both ends, and a comparison with a NULL column is false.
 */
module Availability {
  import opened Wrappers
  import opened Schema
  import opened Tenancy
  import Rows

  /** `column BETWEEN lo AND hi` on a nullable column. */
  predicate Between(x: Option<int>, lo: int, hi: int) {
    x.Some? && lo <= x.value <= hi
  }

  /** The `where` closure: start in window, end in window, or the order covers the window. */
  predicate InWindow(o: Order, s: int, e: int) {
    || Between(o.windowStart, s, e)
    || Between(o.windowEnd, s, e)
    || (o.windowStart.Some? && o.windowEnd.Some? && o.windowStart.value <= s && o.windowEnd.value >= e)
  }

  /** Closed intervals `[a1, a2]` and `[b1, b2]` share at least one instant. */
  predicate ClosedIntersect(a1: int, a2: int, b1: int, b2: int) {
    a1 <= b2 && b1 <= a2
  }

  /** Half-open intervals `[a1, a2)` and `[b1, b2)` share at least one instant. */
  predicate HalfOpenIntersect(a1: int, a2: int, b1: int, b2: int) {
    a1 < b2 && b1 < a2
  }

  /** Both ends present and start not after end. */
  predicate WellFormed(o: Order) {
    o.windowStart.Some? && o.windowEnd.Some? && o.windowStart.value <= o.windowEnd.value
  }

  /** For well-formed windows the code's test is exactly closed-interval intersection. */
  lemma InclusiveIsClosedIntersection(o: Order, s: int, e: int)
    requires WellFormed(o) && s <= e
    ensures InWindow(o, s, e) <==> ClosedIntersect(o.windowStart.value, o.windowEnd.value, s, e)
  {
  }

  /** Closed intersection does not depend on which window is asked about. */
  lemma ClosedIntersectSymmetric(a1: int, a2: int, b1: int, b2: int)
    ensures ClosedIntersect(a1, a2, b1, b2) <==> ClosedIntersect(b1, b2, a1, a2)
  {
  }

  /**
   * Windows that only touch conflict: an order over `[10, 12]` blocks a
   * request for `[12, 14]`, although the half-open reading would allow it.
   */
  lemma TouchingWindowsConflict(o: Order)
    requires o.windowStart == Some(10) && o.windowEnd == Some(12)
    ensures InWindow(o, 12, 14)
    ensures !HalfOpenIntersect(10, 12, 12, 14)
  {
  }

  /** An order without a start or an end never matches a window it does not reach. */
  lemma NullWindowOnlyMatchesThroughOtherEnd(o: Order, s: int, e: int)
    requires o.windowStart.None?
    ensures InWindow(o, s, e) <==> Between(o.windowEnd, s, e)
  {
  }

  /** PHP's `if ($excludeOrderId)`: null and 0 are ignored. */
  predicate Excluded(o: Order, exclude: Option<Id>) {
    exclude.Some? && exclude.value != 0 && o.id == exclude.value
  }

  /** The full `where` of `getScheduledInWindow`, including the tenant scope. */
  predicate Conflicts(o: Order, scope: Scope, truckId: Id, s: int, e: int, exclude: Option<Id>) {
    && InScope(o.tenantId, scope)
    && o.truckId == Some(truckId)
    && Booked(o)
    && InWindow(o, s, e)
    && !Excluded(o, exclude)
  }

  /** `OrderRepository::getScheduledInWindow`: the conflicting orders, in table order. */
  function ScheduledInWindow(orders: seq<Order>, scope: Scope, truckId: Id, s: int, e: int, exclude: Option<Id>): (r: seq<Order>)
    ensures forall k | 0 <= k < |r| :: r[k].truckId == Some(truckId) && Booked(r[k])
    ensures forall k | 0 <= k < |r| :: InWindow(r[k], s, e) && !Excluded(r[k], exclude)
  {
    Rows.Filter(orders, (o: Order) => Conflicts(o, scope, truckId, s, e, exclude))
  }

  /** The result holds exactly the orders that satisfy every condition of the query. */
  lemma ScheduledInWindowMembers(orders: seq<Order>, scope: Scope, truckId: Id, s: int, e: int, exclude: Option<Id>, o: Order)
    ensures o in ScheduledInWindow(orders, scope, truckId, s, e, exclude) <==>
      o in orders && Conflicts(o, scope, truckId, s, e, exclude)
  {
    Rows.FilterMembers(orders, (o: Order) => Conflicts(o, scope, truckId, s, e, exclude), o);
  }

  /** A truthy `excludeOrderId` removes exactly that order and nothing else. */
  lemma ExcludeRemovesExactly(orders: seq<Order>, scope: Scope, truckId: Id, s: int, e: int, x: Id, o: Order)
    requires x != 0
    ensures o in ScheduledInWindow(orders, scope, truckId, s, e, Some(x)) <==>
      o in ScheduledInWindow(orders, scope, truckId, s, e, None) && o.id != x
  {
    ScheduledInWindowMembers(orders, scope, truckId, s, e, Some(x), o);
    ScheduledInWindowMembers(orders, scope, truckId, s, e, None, o);
  }

  /** An `excludeOrderId` of 0 is falsy and changes nothing. */
  lemma ZeroExcludeIgnored(orders: seq<Order>, scope: Scope, truckId: Id, s: int, e: int)
    ensures ScheduledInWindow(orders, scope, truckId, s, e, Some(0)) == ScheduledInWindow(orders, scope, truckId, s, e, None)
  {
    Rows.FilterSamePredicate(orders,
      (o: Order) => Conflicts(o, scope, truckId, s, e, Some(0)),
      (o: Order) => Conflicts(o, scope, truckId, s, e, None));
  }

  /** An order that is not SCHEDULED or EN_ROUTE is never a conflict, whatever its window. */
  lemma UnbookedNeverConflicts(o: Order, scope: Scope, truckId: Id, s: int, e: int, exclude: Option<Id>)
    requires !Booked(o)
    ensures !Conflicts(o, scope, truckId, s, e, exclude)
  {
  }

  /**
   * `TruckRepository::isAvailable`: `find($truckId)->orders()` is the truck's
   * orders under the tenant scope, then the same status and window filters,
   * then `count() === 0`. The truck must exist: `find` returning null would
   * fail at `->orders()`.
   */
  function IsAvailable(trucks: seq<Truck>, orders: seq<Order>, scope: Scope, truckId: Id, s: int, e: int, exclude: Option<Id>): bool
    requires FindById(trucks, TruckKey, scope, truckId).Some?
  {
    var truck := trucks[FindById(trucks, TruckKey, scope, truckId).value];
    Rows.Count(orders, (o: Order) =>
      o.truckId == Some(truck.id) && InScope(o.tenantId, scope)
      && (o.status == SCHEDULED || o.status == EN_ROUTE)
      && InWindow(o, s, e) && !Excluded(o, exclude)) == 0
  }

  /** `isAvailable` holds exactly when `getScheduledInWindow` returns nothing. */
  lemma IsAvailableIffNoConflicts(trucks: seq<Truck>, orders: seq<Order>, scope: Scope, truckId: Id, s: int, e: int, exclude: Option<Id>)
    requires FindById(trucks, TruckKey, scope, truckId).Some?
    ensures IsAvailable(trucks, orders, scope, truckId, s, e, exclude) <==>
      |ScheduledInWindow(orders, scope, truckId, s, e, exclude)| == 0
  {
    var p := (o: Order) => Conflicts(o, scope, truckId, s, e, exclude);
    var truck := trucks[FindById(trucks, TruckKey, scope, truckId).value];
    var q := (o: Order) =>
      o.truckId == Some(truck.id) && InScope(o.tenantId, scope)
      && (o.status == SCHEDULED || o.status == EN_ROUTE)
      && InWindow(o, s, e) && !Excluded(o, exclude);
    Rows.FilterSamePredicate(orders, p, q);
    Rows.CountIsFilterLength(orders, q);
  }

  /** With no conflict, a well-formed window does not intersect any booked order of the truck. */
  lemma NoConflictMeansDisjoint(orders: seq<Order>, scope: Scope, truckId: Id, s: int, e: int, o: Order)
    requires |ScheduledInWindow(orders, scope, truckId, s, e, None)| == 0
    requires o in orders && InScope(o.tenantId, scope) && o.truckId == Some(truckId) && Booked(o)
    requires WellFormed(o) && s <= e
    ensures !ClosedIntersect(o.windowStart.value, o.windowEnd.value, s, e)
  {
    ScheduledInWindowMembers(orders, scope, truckId, s, e, None, o);
    assert o !in ScheduledInWindow(orders, scope, truckId, s, e, None);
    InclusiveIsClosedIntersection(o, s, e);
  }
}
