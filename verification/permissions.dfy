/**
 * The front end's `usePermissions` hook: a constant permission matrix, the
 * `can`/`canAny`/`canAll` lookups and the four role flags, and how the
 * matrix compares with the server-side policies.
 */
module Permissions {
  import opened Wrappers
  import opened Schema
  import opened Policies

  datatype Permission =
    | OrderCreate | OrderView | OrderUpdate | OrderDelete | OrderSubmit
    | OrderSchedule | OrderDispatch | OrderDeliver | OrderCancel
    | ClientCreate | ClientView | ClientUpdate | ClientDelete
    | LocationCreate | LocationView | LocationUpdate | LocationDelete
    | TruckCreate | TruckView | TruckUpdate | TruckDelete
    | ActivityLogView

  /** `permissionMatrix`: the roles each permission lists. */
  function PermissionMatrix(p: Permission): seq<string> {
    match p
    case OrderCreate => [ADMIN, DISPATCHER]
    case OrderView => [ADMIN, DISPATCHER, DRIVER, CLIENT_REP]
    case OrderUpdate => [ADMIN, DISPATCHER]
    case OrderDelete => [ADMIN, DISPATCHER]
    case OrderSubmit => [ADMIN, DISPATCHER]
    case OrderSchedule => [ADMIN, DISPATCHER]
    case OrderDispatch => [ADMIN, DISPATCHER]
    case OrderDeliver => [ADMIN, DRIVER]
    case OrderCancel => [ADMIN, DISPATCHER]
    case ClientCreate => [ADMIN, DISPATCHER]
    case ClientView => [ADMIN, DISPATCHER, DRIVER, CLIENT_REP]
    case ClientUpdate => [ADMIN, DISPATCHER]
    case ClientDelete => [ADMIN]
    case LocationCreate => [ADMIN, DISPATCHER]
    case LocationView => [ADMIN, DISPATCHER, DRIVER, CLIENT_REP]
    case LocationUpdate => [ADMIN, DISPATCHER]
    case LocationDelete => [ADMIN, DISPATCHER]
    case TruckCreate => [ADMIN]
    case TruckView => [ADMIN, DISPATCHER, DRIVER, CLIENT_REP]
    case TruckUpdate => [ADMIN, DISPATCHER]
    case TruckDelete => [ADMIN]
    case ActivityLogView => [ADMIN]
  }

  /** The signed-in user as the hook sees it: the role may be missing. */
  datatype AuthUser = AuthUser(role: Option<string>)

  /** `user?.role`, with a missing user or role as the empty string. */
  function RoleOf(user: Option<AuthUser>): string {
    if user.Some? && user.value.role.Some? then user.value.role.value else ""
  }

  /**
   * `can`: false with no user or a falsy role, else membership in the
   * matrix. No role list contains the empty string, so the membership test
   * alone decides.
   */
  function Can(user: Option<AuthUser>, p: Permission): (r: bool)
    ensures r <==> RoleOf(user) in PermissionMatrix(p)
    ensures r ==> RoleOf(user) in AllRoles
    ensures user.None? ==> !r
  {
    if user.None? || user.value.role.None? || user.value.role.value == "" then false
    else user.value.role.value in PermissionMatrix(p)
  }

  /** `canAny`: `some` over the list. */
  function CanAny(user: Option<AuthUser>, ps: seq<Permission>): (r: bool)
    ensures r <==> exists k | 0 <= k < |ps| :: Can(user, ps[k])
  {
    if ps == [] then false else Can(user, ps[0]) || CanAny(user, ps[1..])
  }

  /** `canAll`: `every` over the list. */
  function CanAll(user: Option<AuthUser>, ps: seq<Permission>): (r: bool)
    ensures r <==> forall k | 0 <= k < |ps| :: Can(user, ps[k])
  {
    if ps == [] then true else Can(user, ps[0]) && CanAll(user, ps[1..])
  }

  /** `canAny([])` is false and `canAll([])` is true; on a non-empty list `canAll` implies `canAny`. */
  lemma EmptyListsAndImplication(user: Option<AuthUser>, ps: seq<Permission>)
    ensures !CanAny(user, []) && CanAll(user, [])
    ensures ps != [] && CanAll(user, ps) ==> CanAny(user, ps)
  {
    if ps != [] && CanAll(user, ps) {
      assert Can(user, ps[0]);
    }
  }

  /** `isAdmin`, `isDispatcher`, `isDriver`, `isClientRep`. */
  datatype RoleFlags = RoleFlags(isAdmin: bool, isDispatcher: bool, isDriver: bool, isClientRep: bool)

  /** The role flags: at most one holds, and ADMIN is exactly the role that may view the activity log. */
  function Flags(user: Option<AuthUser>): (f: RoleFlags)
    ensures (if f.isAdmin then 1 else 0) + (if f.isDispatcher then 1 else 0)
      + (if f.isDriver then 1 else 0) + (if f.isClientRep then 1 else 0) <= 1
    ensures f.isAdmin <==> Can(user, ActivityLogView)
    ensures f.isAdmin || f.isDispatcher || f.isDriver || f.isClientRep <==> Can(user, OrderView)
  {
    var role := if user.Some? then user.value.role else None;
    RoleFlags(role == Some(ADMIN), role == Some(DISPATCHER), role == Some(DRIVER), role == Some(CLIENT_REP))
  }

  /**
   * The server's decision for a permission: the policy method of the same
   * name, on a given order for the order permissions. The activity log has
   * no policy; ADMIN alone reaches it.
   */
  function ServerAllows(u: User, p: Permission, o: Order): bool {
    match p
    case OrderCreate => OrderPolicy(u, Create, o)
    case OrderView => OrderPolicy(u, View, o)
    case OrderUpdate => OrderPolicy(u, Update, o)
    case OrderDelete => OrderPolicy(u, Delete, o)
    case OrderSubmit => OrderPolicy(u, Submit, o)
    case OrderSchedule => OrderPolicy(u, Schedule, o)
    case OrderDispatch => OrderPolicy(u, Dispatch, o)
    case OrderDeliver => OrderPolicy(u, Deliver, o)
    case OrderCancel => OrderPolicy(u, Cancel, o)
    case ClientCreate => ClientPolicy(u, Create)
    case ClientView => ClientPolicy(u, View)
    case ClientUpdate => ClientPolicy(u, Update)
    case ClientDelete => ClientPolicy(u, Delete)
    case LocationCreate => LocationPolicy(u, Create)
    case LocationView => LocationPolicy(u, View)
    case LocationUpdate => LocationPolicy(u, Update)
    case LocationDelete => LocationPolicy(u, Delete)
    case TruckCreate => TruckPolicy(u, Create)
    case TruckView => TruckPolicy(u, View)
    case TruckUpdate => TruckPolicy(u, Update)
    case TruckDelete => TruckPolicy(u, Delete)
    case ActivityLogView => u.role == ADMIN
  }

  /** Whatever a policy grants, the matrix shows: the front end never hides an allowed action. */
  lemma MatrixCoversPolicies(u: User, p: Permission, o: Order)
    ensures ServerAllows(u, p, o) ==> Can(Some(AuthUser(Some(u.role))), p)
  {
  }

  /**
   * The matrix and the policies agree on every permission except the four
   * views of one record and delivery, where the matrix grants more.
   */
  lemma MatrixMatchesPoliciesElsewhere(u: User, p: Permission, o: Order)
    requires p !in {OrderView, OrderDeliver, ClientView, LocationView}
    ensures ServerAllows(u, p, o) <==> Can(Some(AuthUser(Some(u.role))), p)
  {
  }

  /** `order.deliver` shows ADMIN and DRIVER without the assignment test `OrderPolicy::deliver` makes. */
  lemma DeliverMatrixSkipsOwnership(u: User, o: Order)
    requires u.role == DRIVER && o.driverId != Some(u.id)
    ensures Can(Some(AuthUser(Some(u.role))), OrderDeliver)
    ensures !ServerAllows(u, OrderDeliver, o)
  {
  }

  /** `client.view`, `location.view` and `order.view` show CLIENT_REP what the policies refuse. */
  lemma ViewMatrixWiderThanPolicies(u: User, o: Order)
    requires u.role == CLIENT_REP
    ensures Can(Some(AuthUser(Some(u.role))), ClientView) && !ServerAllows(u, ClientView, o)
    ensures Can(Some(AuthUser(Some(u.role))), LocationView) && !ServerAllows(u, LocationView, o)
    ensures Can(Some(AuthUser(Some(u.role))), OrderView) && !ServerAllows(u, OrderView, o)
  {
  }

  /** `client.delete`, `truck.create`, `truck.delete` and `activity_log.view` are shown to ADMIN alone. */
  lemma AdminOnlyPermissions(user: Option<AuthUser>, p: Permission)
    requires p in {ClientDelete, TruckCreate, TruckDelete, ActivityLogView}
    ensures Can(user, p) <==> RoleOf(user) == ADMIN
  {
  }
}
