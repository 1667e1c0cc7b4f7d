/**
 * `OrderController` and `OrderActionsController`: which check runs first,
 * which exceptions the `try` turns into 422, and which status code each
 * branch answers with. The policy is `Policies.OrderPolicy`; the service
 * calls are the `OrderRules` functions.
 */
module OrderControllerRules {
  import opened Wrappers
  import opened Text
  import opened Schema
  import opened Tenancy
  import opened ActivityLog
  import opened Store
  import opened Policies
  import OrderQueries
  import OrderRules

  const OrderNotFound: string := "Order not found"
  /** The message of Laravel's `AuthorizationException`. */
  const Unauthorized: string := "This action is unauthorized."
  /** What the exception handler answers for an uncaught `\Error`. */
  const ServerError: string := "Server Error"

  /** The status code, the message and the order of an `ApiResponse`. */
  datatype Reply = Reply(code: int, message: string, order: Option<Order>)

  /** A request's effect: the tables and audit rows the service left, and the reply. */
  datatype Handled = Handled(tables: Tables, logged: seq<LogEntry>, reply: Reply)

  /** `ModelNotFoundException`'s message. */
  function NotFoundMessage(model: string, id: Id): string {
    "No query results for model [" + model + "] " + IntToString(id)
  }

  /**
   * `catch (\Exception $e)`: every exception becomes 422 with its message;
   * a PHP `\Error` is not an `\Exception` and escapes to the handler as 500.
   */
  function Caught(e: ServiceError): (r: Reply)
    ensures r.order.None?
    ensures r.code == 500 <==> e.Fatal?
    ensures r.code == 422 <==> !e.Fatal?
    ensures e.Refused? ==> r.message == e.message
  {
    match e
    case NotFound(model, id) => Reply(422, NotFoundMessage(model, id), None)
    case Refused(message) => Reply(422, message, None)
    case Integrity(constraint) => Reply(422, constraint, None)
    case Fatal(_) => Reply(500, ServerError, None)
  }

  /** A service outcome as the reply inside `try`: `success` with the order, or the caught error. */
  function Answer(out: Outcome<Order>, code: int, message: string): (h: Handled)
    ensures h.tables == out.tables && h.logged == out.logged
    ensures out.result.Ok? ==> h.reply == Reply(code, message, Some(out.result.value))
    ensures out.result.Err? ==> h.reply == Caught(out.result.error)
  {
    if out.result.Ok? then Handled(out.tables, out.logged, Reply(code, message, Some(out.result.value)))
    else Handled(out.tables, out.logged, Caught(out.result.error))
  }

  /** The five lifecycle actions, each with the one validated field it forwards. */
  datatype Action =
    | SubmitAction
    | ScheduleAction(truckId: Id)
    | DispatchAction(driverId: Id)
    | DeliverAction(deliveredLiters: int)
    | CancelAction(reason: Option<string>)

  function AbilityOf(a: Action): Ability {
    match a
    case SubmitAction => Submit
    case ScheduleAction(_) => Schedule
    case DispatchAction(_) => Dispatch
    case DeliverAction(_) => Deliver
    case CancelAction(_) => Cancel
  }

  function SuccessMessage(a: Action): string {
    match a
    case SubmitAction => "Order submitted successfully"
    case ScheduleAction(_) => "Order scheduled successfully"
    case DispatchAction(_) => "Order dispatched successfully"
    case DeliverAction(_) => "Order delivered successfully"
    case CancelAction(_) => "Order cancelled successfully"
  }

  /** The service method an action calls, given its field and the signed-in user as the logger's actor. */
  function Service(t: Tables, bound: Option<Tenant>, user: User, a: Action, id: Id, now: int): Outcome<Order> {
    match a
    case SubmitAction => OrderRules.SubmitOrder(t, bound, Some(user), id, now)
    case ScheduleAction(truckId) => OrderRules.ScheduleOrder(t, bound, Some(user), id, truckId, now)
    case DispatchAction(driverId) => OrderRules.DispatchOrder(t, bound, Some(user), id, driverId, now)
    case DeliverAction(liters) => OrderRules.DeliverOrder(t, bound, Some(user), id, liters, now)
    case CancelAction(reason) => OrderRules.CancelOrder(t, bound, Some(user), id, reason, now)
  }

  /** `OrderActionsController`: look the order up, authorize inside `try`, then call the service. */
  function Act(t: Tables, bound: Option<Tenant>, user: User, a: Action, id: Id, now: int): Handled {
    var i := OrderRules.FindOrder(t, ScopeOf(bound), id);
    if i.None? then Handled(t, [], Reply(404, OrderNotFound, None))
    else if !OrderPolicy(user, AbilityOf(a), t.orders[i.value]) then Handled(t, [], Reply(422, Unauthorized, None))
    else Answer(Service(t, bound, user, a, id, now), 200, SuccessMessage(a))
  }

  /**
   * A missing order is 404 before anything else; a refused policy is 422 and
   * the service is never called; otherwise the reply and the state are the
   * service's.
   */
  lemma ActPrecedence(t: Tables, bound: Option<Tenant>, user: User, a: Action, id: Id, now: int)
    ensures var i := OrderRules.FindOrder(t, ScopeOf(bound), id);
      var h := Act(t, bound, user, a, id, now);
      && (i.None? ==> h == Handled(t, [], Reply(404, OrderNotFound, None)))
      && (i.Some? && !OrderPolicy(user, AbilityOf(a), t.orders[i.value]) ==> h.tables == t && h.logged == [] && h.reply.code == 422)
      && (h.tables != t || h.logged != [] ==> i.Some? && OrderPolicy(user, AbilityOf(a), t.orders[i.value]))
      && (h.reply.code == 200 ==> Service(t, bound, user, a, id, now).result.Ok?)
      && (h.reply.code == 403 ==> false)
  {
  }

  /** A driver not assigned to an order cannot deliver it, whatever its status: the refusal comes before the service. */
  lemma UnassignedDriverCannotDeliver(t: Tables, bound: Option<Tenant>, user: User, liters: int, id: Id, now: int)
    requires user.role == DRIVER
    requires OrderRules.FindOrder(t, ScopeOf(bound), id).Some?
    requires t.orders[OrderRules.FindOrder(t, ScopeOf(bound), id).value].driverId != Some(user.id)
    ensures Act(t, bound, user, DeliverAction(liters), id, now) == Handled(t, [], Reply(422, Unauthorized, None))
  {
  }

  /** A scheduling request for a truck of another tenant ends as 422 with the truck's not-found message. */
  lemma ForeignTruckIs422(t: Tables, bound: Option<Tenant>, user: User, truckId: Id, id: Id, now: int)
    requires OrderRules.FindOrder(t, ScopeOf(bound), id).Some?
    requires OrderPolicy(user, Schedule, t.orders[OrderRules.FindOrder(t, ScopeOf(bound), id).value])
    requires t.orders[OrderRules.FindOrder(t, ScopeOf(bound), id).value].status == SUBMITTED
    requires FindById(t.trucks, TruckKey, ScopeOf(bound), truckId).None?
    ensures Act(t, bound, user, ScheduleAction(truckId), id, now).reply == Reply(422, NotFoundMessage(TruckClass, truckId), None)
  {
  }

  /**
   * `index`: `viewAny` outside `try` (a refusal is 403), then the advanced
   * search when any filter is non-empty, else the legacy listing.
   */
  function IndexOrders(orders: seq<Order>, scope: Scope, user: User, f: OrderQueries.Filters): (r: Result<seq<Order>, int>)
    ensures r.Err? <==> user.role !in AllRoles
    ensures r.Err? ==> r.error == 403
  {
    if !OrderClassPolicy(user, ViewAny) then Err(403)
    else if OrderQueries.AnyFilter(f) then Ok(OrderQueries.SearchAndFilter(orders, scope, f))
    else Ok(OrderQueries.GetAllOrders(orders, scope, OrderQueries.LegacyStatus(f.status), f.clientId))
  }

  /** Without a filter the legacy path has neither a status nor a client either, so it lists every order. */
  lemma IndexBranches(orders: seq<Order>, scope: Scope, user: User, f: OrderQueries.Filters)
    requires user.role in AllRoles
    ensures OrderQueries.AnyFilter(f) ==> IndexOrders(orders, scope, user, f) == Ok(OrderQueries.SearchAndFilter(orders, scope, f))
    ensures !OrderQueries.AnyFilter(f) ==> IndexOrders(orders, scope, user, f) == Ok(OrderQueries.AllOrders(orders, scope))
  {
  }

  /** `store`: `create` outside `try` (a refusal is 403), then the service; success is 201. */
  function StoreOrder(t: Tables, bound: Option<Tenant>, user: User, d: OrderRules.NewOrder, now: int): Handled {
    if !OrderClassPolicy(user, Create) then Handled(t, [], Reply(403, Unauthorized, None))
    else Answer(OrderRules.CreateOrder(t, bound, Some(user), user.id, d, now), 201, "Order created successfully")
  }

  /** A 201 carries a DRAFT order created by the signed-in user; only the staff ever get one. */
  lemma StoreCreated(t: Tables, bound: Option<Tenant>, user: User, d: OrderRules.NewOrder, now: int)
    ensures var h := StoreOrder(t, bound, user, d, now);
      && (h.reply.code == 403 <==> user.role != ADMIN && user.role != DISPATCHER)
      && (h.reply.code == 201 ==>
            && (user.role == ADMIN || user.role == DISPATCHER)
            && h.reply.order.Some? && h.reply.order.value.status == DRAFT && h.reply.order.value.createdBy == user.id)
  {
  }

  /** `show`: existence first (404), then `view` outside `try` (403). */
  function ShowOrder(t: Tables, bound: Option<Tenant>, user: User, id: Id): Reply {
    var i := OrderRules.FindOrder(t, ScopeOf(bound), id);
    if i.None? then Reply(404, OrderNotFound, None)
    else if !OrderPolicy(user, View, t.orders[i.value]) then Reply(403, Unauthorized, None)
    else Reply(200, "Order retrieved successfully", Some(t.orders[i.value]))
  }

  /** Even a user with no role learns that an order is missing; an order shown is one of the tenant's. */
  lemma ShowPrecedence(t: Tables, bound: Option<Tenant>, user: User, id: Id)
    ensures var r := ShowOrder(t, bound, user, id);
      && (r.code == 404 <==> OrderRules.FindOrder(t, ScopeOf(bound), id).None?)
      && (r.code == 200 ==>
            && r.order.Some? && r.order.value in t.orders && r.order.value.id == id
            && InScope(r.order.value.tenantId, ScopeOf(bound)) && OrderPolicy(user, View, r.order.value))
      && (r.code == 403 ==> user.role != ADMIN && user.role != DISPATCHER)
  {
  }

  /** `update`: 404 for a missing order, then `update` inside `try`, so a refusal is 422. */
  function UpdateOrder(t: Tables, bound: Option<Tenant>, user: User, id: Id, p: OrderRules.OrderPatch, now: int): Handled {
    var i := OrderRules.FindOrder(t, ScopeOf(bound), id);
    if i.None? then Handled(t, [], Reply(404, OrderNotFound, None))
    else if !OrderPolicy(user, Update, t.orders[i.value]) then Handled(t, [], Reply(422, Unauthorized, None))
    else Answer(OrderRules.UpdateOrder(t, bound, Some(user), id, p, now), 200, "Order updated successfully")
  }

  /** `destroy`: as `update`, with `delete` and no order in the reply. */
  function DestroyOrder(t: Tables, bound: Option<Tenant>, user: User, id: Id): Handled {
    var i := OrderRules.FindOrder(t, ScopeOf(bound), id);
    if i.None? then Handled(t, [], Reply(404, OrderNotFound, None))
    else if !OrderPolicy(user, Delete, t.orders[i.value]) then Handled(t, [], Reply(422, Unauthorized, None))
    else
      var out := OrderRules.DeleteOrder(t, bound, Some(user), id);
      if out.result.Ok? then Handled(out.tables, out.logged, Reply(200, "Order deleted successfully", None))
      else Handled(out.tables, out.logged, Caught(out.result.error))
  }

  /**
   * The refusal codes differ by where `authorize` sits: 403 in `store` and
   * `show`, where it is outside `try`; 422 in `update` and `destroy`, inside.
   * Neither refusal changes anything.
   */
  lemma RefusalCodes(t: Tables, bound: Option<Tenant>, user: User, id: Id, p: OrderRules.OrderPatch, d: OrderRules.NewOrder, now: int)
    requires user.role !in AllRoles
    ensures StoreOrder(t, bound, user, d, now) == Handled(t, [], Reply(403, Unauthorized, None))
    ensures OrderRules.FindOrder(t, ScopeOf(bound), id).Some? ==>
      && ShowOrder(t, bound, user, id) == Reply(403, Unauthorized, None)
      && UpdateOrder(t, bound, user, id, p, now) == Handled(t, [], Reply(422, Unauthorized, None))
      && DestroyOrder(t, bound, user, id) == Handled(t, [], Reply(422, Unauthorized, None))
  {
  }
}

/** The two order controllers calling `OrderService` on the database. */
module OrderControllers {
  import opened Wrappers
  import opened Schema
  import opened Tenancy
  import opened Store
  import opened Policies
  import opened OrderControllerRules
  import OrderRules
  import OrderServices

  class OrderActionsController {
    const service: OrderServices.OrderService

    constructor(service: OrderServices.OrderService)
      ensures this.service == service
    {
      this.service := service;
    }

    /** `submit`, `schedule`, `dispatch`, `deliver` and `cancel`. */
    method Act(bound: Option<Tenant>, user: User, a: Action, id: Id, now: int) returns (reply: Reply)
      requires service.db.Valid()
      modifies service.db
      ensures service.db.Valid()
      ensures var h := OrderControllerRules.Act(old(service.db.State()), bound, user, a, id, now);
        reply == h.reply && service.db.State() == h.tables && service.db.log == old(service.db.log) + h.logged
    {
      var i := Find(service.db.orders, OrderKey, ScopeOf(bound), id);
      if i.None? {
        return Reply(404, OrderNotFound, None);
      }
      if !OrderPolicy(user, AbilityOf(a), service.db.orders[i.value]) {
        return Reply(422, Unauthorized, None);
      }
      var r: Result<Order, ServiceError>;
      match a {
        case SubmitAction =>
          r := service.SubmitOrder(bound, Some(user), id, now);
        case ScheduleAction(truckId) =>
          r := service.ScheduleOrder(bound, Some(user), id, truckId, now);
        case DispatchAction(driverId) =>
          r := service.DispatchOrder(bound, Some(user), id, driverId, now);
        case DeliverAction(liters) =>
          r := service.DeliverOrder(bound, Some(user), id, liters, now);
        case CancelAction(reason) =>
          r := service.CancelOrder(bound, Some(user), id, reason, now);
      }
      reply := if r.Ok? then Reply(200, SuccessMessage(a), Some(r.value)) else Caught(r.error);
    }
  }

  class OrderController {
    const service: OrderServices.OrderService

    constructor(service: OrderServices.OrderService)
      ensures this.service == service
    {
      this.service := service;
    }

    method Store(bound: Option<Tenant>, user: User, d: OrderRules.NewOrder, now: int) returns (reply: Reply)
      requires service.db.Valid()
      modifies service.db
      ensures service.db.Valid()
      ensures var h := OrderControllerRules.StoreOrder(old(service.db.State()), bound, user, d, now);
        reply == h.reply && service.db.State() == h.tables && service.db.log == old(service.db.log) + h.logged
    {
      if !OrderClassPolicy(user, Create) {
        return Reply(403, Unauthorized, None);
      }
      var r := service.CreateOrder(bound, Some(user), user.id, d, now);
      reply := if r.Ok? then Reply(201, "Order created successfully", Some(r.value)) else Caught(r.error);
    }

    /** `show` reads only: the reply is 404, 403 or the order. */
    method Show(bound: Option<Tenant>, user: User, id: Id) returns (reply: Reply)
      ensures reply == OrderControllerRules.ShowOrder(service.db.State(), bound, user, id)
      ensures reply.code == 200 ==> reply.order.Some? && reply.order.value in service.db.orders
      ensures reply.code == 404 <==> OrderRules.FindOrder(service.db.State(), ScopeOf(bound), id).None?
    {
      ShowPrecedence(service.db.State(), bound, user, id);
      var i := Find(service.db.orders, OrderKey, ScopeOf(bound), id);
      if i.None? {
        return Reply(404, OrderNotFound, None);
      }
      var o := service.db.orders[i.value];
      if !OrderPolicy(user, View, o) {
        return Reply(403, Unauthorized, None);
      }
      reply := Reply(200, "Order retrieved successfully", Some(o));
    }

    method Update(bound: Option<Tenant>, user: User, id: Id, p: OrderRules.OrderPatch, now: int) returns (reply: Reply)
      requires service.db.Valid()
      modifies service.db
      ensures service.db.Valid()
      ensures var h := OrderControllerRules.UpdateOrder(old(service.db.State()), bound, user, id, p, now);
        reply == h.reply && service.db.State() == h.tables && service.db.log == old(service.db.log) + h.logged
    {
      var i := Find(service.db.orders, OrderKey, ScopeOf(bound), id);
      if i.None? {
        return Reply(404, OrderNotFound, None);
      }
      if !OrderPolicy(user, Ability.Update, service.db.orders[i.value]) {
        return Reply(422, Unauthorized, None);
      }
      var r := service.UpdateOrder(bound, Some(user), id, p, now);
      reply := if r.Ok? then Reply(200, "Order updated successfully", Some(r.value)) else Caught(r.error);
    }

    method Destroy(bound: Option<Tenant>, user: User, id: Id) returns (reply: Reply)
      requires service.db.Valid()
      modifies service.db
      ensures service.db.Valid()
      ensures var h := OrderControllerRules.DestroyOrder(old(service.db.State()), bound, user, id);
        reply == h.reply && service.db.State() == h.tables && service.db.log == old(service.db.log) + h.logged
    {
      var i := Find(service.db.orders, OrderKey, ScopeOf(bound), id);
      if i.None? {
        return Reply(404, OrderNotFound, None);
      }
      if !OrderPolicy(user, Delete, service.db.orders[i.value]) {
        return Reply(422, Unauthorized, None);
      }
      var r := service.DeleteOrder(bound, Some(user), id);
      reply := if r.Ok? then Reply(200, "Order deleted successfully", None) else Caught(r.error);
    }
  }
}
