/**
 * The four server-side policies (`OrderPolicy`, `ClientPolicy`,
 * `LocationPolicy`, `TruckPolicy`): role membership over the user's role
 * string, plus the one ownership test, a driver assigned to an order.
 * `in_array` compares loosely, which on these non-numeric role names is
 * string equality.
 */
module Policies {
  import opened Wrappers
  import opened Schema

  const ADMIN: string := "ADMIN"
  const DISPATCHER: string := "DISPATCHER"
  const DRIVER: string := "DRIVER"
  const CLIENT_REP: string := "CLIENT_REP"

  /** The four roles of the application. */
  const AllRoles: seq<string> := [ADMIN, DISPATCHER, DRIVER, CLIENT_REP]
  /** The office roles most abilities are granted to. */
  const Staff: seq<string> := [ADMIN, DISPATCHER]

  /** The abilities the controllers name in `authorize`. */
  datatype Ability = ViewAny | View | Create | Update | Delete | Submit | Schedule | Dispatch | Deliver | Cancel

  /** The abilities that move an order through its lifecycle. */
  predicate Lifecycle(a: Ability) {
    a == Submit || a == Schedule || a == Dispatch || a == Deliver || a == Cancel
  }

  /** `$order->driver_id === $user->id`: a null driver is nobody's. */
  predicate AssignedTo(o: Order, u: User) {
    o.driverId == Some(u.id)
  }

  /**
   * `OrderPolicy`. Listing is open to every role; viewing one order to the
   * staff and to its assigned driver; delivering to ADMIN and the assigned
   * driver; everything else to the staff, whatever the order's status.
   */
  function OrderPolicy(u: User, a: Ability, o: Order): (allowed: bool)
    ensures allowed ==> u.role in AllRoles
    ensures a == ViewAny ==> (allowed <==> u.role in AllRoles)
    ensures a == View ==> (allowed <==> u.role == ADMIN || u.role == DISPATCHER || (u.role == DRIVER && o.driverId == Some(u.id)))
    ensures a == Deliver ==> (allowed <==> u.role == ADMIN || (u.role == DRIVER && o.driverId == Some(u.id)))
    ensures a != ViewAny && a != View && a != Deliver ==> (allowed <==> u.role == ADMIN || u.role == DISPATCHER)
    ensures a == Deliver && (u.role == DISPATCHER || u.role == CLIENT_REP) ==> !allowed
    ensures u.role == CLIENT_REP ==> (allowed <==> a == ViewAny)
  {
    match a
    case ViewAny => u.role in AllRoles
    case View => u.role in Staff || (u.role == DRIVER && AssignedTo(o, u))
    case Deliver => u.role == ADMIN || (u.role == DRIVER && AssignedTo(o, u))
    case _ => u.role in Staff
  }

  /**
   * `OrderPolicy::viewAny` and `OrderPolicy::create`, authorized against the
   * class rather than an order; the other abilities need an order.
   */
  function OrderClassPolicy(u: User, a: Ability): (allowed: bool)
    ensures allowed ==> a == ViewAny || a == Create
    ensures forall o: Order :: (a == ViewAny || a == Create) ==> allowed == OrderPolicy(u, a, o)
  {
    match a
    case ViewAny => u.role in AllRoles
    case Create => u.role in Staff
    case _ => false
  }

  /** Nothing but the role and the assignment matters: not the status, the client, the truck or the tenant. */
  lemma OrderPolicyOnlyReadsAssignment(u: User, a: Ability, o: Order, o': Order)
    requires AssignedTo(o, u) == AssignedTo(o', u)
    ensures OrderPolicy(u, a, o) == OrderPolicy(u, a, o')
  {
  }

  /** A driver can neither view nor deliver an order with no driver. */
  lemma UnassignedHiddenFromDrivers(u: User, o: Order)
    requires u.role == DRIVER && o.driverId.None?
    ensures !OrderPolicy(u, View, o) && !OrderPolicy(u, Deliver, o)
  {
  }

  /**
   * `ClientPolicy`: listing for every role, one client and its edits for the
   * staff, deletion for ADMIN. An ability the policy has no method for is
   * denied by the gate.
   */
  function ClientPolicy(u: User, a: Ability): (allowed: bool)
    ensures allowed ==> u.role in AllRoles && !Lifecycle(a)
    ensures a == ViewAny ==> (allowed <==> u.role in AllRoles)
    ensures a == View || a == Create || a == Update ==> (allowed <==> u.role == ADMIN || u.role == DISPATCHER)
    ensures a == Delete ==> (allowed <==> u.role == ADMIN)
  {
    match a
    case ViewAny => u.role in AllRoles
    case View => u.role in Staff
    case Create => u.role in Staff
    case Update => u.role in Staff
    case Delete => u.role == ADMIN
    case _ => false
  }

  /** `LocationPolicy`: as `ClientPolicy`, except that DISPATCHER may also delete. */
  function LocationPolicy(u: User, a: Ability): (allowed: bool)
    ensures allowed ==> u.role in AllRoles && !Lifecycle(a)
    ensures a == ViewAny ==> (allowed <==> u.role in AllRoles)
    ensures a == View ==> (allowed <==> u.role != DRIVER && u.role != CLIENT_REP && u.role in AllRoles)
    ensures a == Create || a == Update || a == Delete ==> (allowed <==> u.role == ADMIN || u.role == DISPATCHER)
  {
    match a
    case ViewAny => u.role in AllRoles
    case View => u.role in Staff
    case Create => u.role in Staff
    case Update => u.role in Staff
    case Delete => u.role in Staff
    case _ => false
  }

  /** `TruckPolicy`: every role may look, ADMIN alone creates and deletes, the staff update. */
  function TruckPolicy(u: User, a: Ability): (allowed: bool)
    ensures allowed ==> u.role in AllRoles && !Lifecycle(a)
    ensures a == ViewAny || a == View ==> (allowed <==> u.role in AllRoles)
    ensures a == Create || a == Delete ==> (allowed <==> u.role == ADMIN)
    ensures a == Update ==> (allowed <==> u.role == ADMIN || u.role == DISPATCHER)
  {
    match a
    case ViewAny => u.role in AllRoles
    case View => u.role in AllRoles
    case Create => u.role == ADMIN
    case Update => u.role in Staff
    case Delete => u.role == ADMIN
    case _ => false
  }

  /** ADMIN is granted every ability of every policy that defines it, whatever the order. */
  lemma AdminGrantedEverything(u: User, a: Ability, o: Order)
    requires u.role == ADMIN
    ensures OrderPolicy(u, a, o)
    ensures !Lifecycle(a) ==> ClientPolicy(u, a) && LocationPolicy(u, a) && TruckPolicy(u, a)
  {
  }
}
