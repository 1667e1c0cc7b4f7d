/**
 * Tenant isolation: the `BelongsToTenant` global scope that restricts every
 * query to the bound tenant, the `creating` hook that stamps `tenant_id`, and
 * the middleware that resolves the `{tenant}` route slug and binds the tenant.
 * The bound tenant is passed explicitly as a `Scope` instead of living in the
 * service container.
 */
module Tenancy {
  import opened Wrappers
  import opened Text
  import opened Schema
  import Rows

  /** The tenant id the global scope filters by; `None` when no tenant is bound. */
  type Scope = Option<Id>

  function ScopeOf(bound: Option<Tenant>): (s: Scope)
    ensures s.Some? <==> bound.Some?
    ensures s.Some? ==> s.value == bound.value.id
  {
    if bound.Some? then Some(bound.value.id) else None
  }

  /** The global scope's `where tenant_id = ?`, applied only when a tenant is bound. */
  predicate InScope(rowTenant: Id, scope: Scope) {
    scope.None? || scope.value == rowTenant
  }

  /** `find($id)` / `findOrFail($id)` through the global scope: the row index, if any. */
  function FindById<T>(rows: seq<T>, key: T -> Rows.Key, scope: Scope, id: Id): (r: Option<nat>)
    ensures r.Some? ==> r.value < |rows| && key(rows[r.value]).0 == id
    ensures r.Some? ==> InScope(key(rows[r.value]).1, scope)
    ensures r.Some? ==> forall k | 0 <= k < r.value :: !(key(rows[k]).0 == id && InScope(key(rows[k]).1, scope))
    ensures r.None? ==> forall k | 0 <= k < |rows| :: !(key(rows[k]).0 == id && InScope(key(rows[k]).1, scope))
  {
    Rows.FirstIndex(rows, (x: T) => key(x).0 == id && InScope(key(x).1, scope))
  }

  /** The lookup as the query runs it: a scan of the table that stops at the first row of the tenant with the id. */
  method Find<T>(rows: seq<T>, key: T -> Rows.Key, scope: Scope, id: Id) returns (r: Option<nat>)
    ensures r == FindById(rows, key, scope, id)
  {
    var k := 0;
    while k < |rows|
      invariant k <= |rows|
      invariant forall j | 0 <= j < k :: !(key(rows[j]).0 == id && InScope(key(rows[j]).1, scope))
    {
      if key(rows[k]).0 == id && InScope(key(rows[k]).1, scope) {
        return Some(k);
      }
      k := k + 1;
    }
    return None;
  }

  /** Rewriting the found row under the same key leaves the lookup where it was. */
  lemma FindAfterUpdate<T>(rows: seq<T>, key: T -> Rows.Key, scope: Scope, id: Id, i: nat, x: T)
    requires FindById(rows, key, scope, id) == Some(i) && key(x) == key(rows[i])
    ensures FindById(rows[i := x], key, scope, id) == Some(i)
  {
    assert forall k | 0 <= k < i :: rows[i := x][k] == rows[k];
    assert key(rows[i := x][i]) == key(rows[i]);
  }

  /** With a tenant bound, a lookup succeeds exactly for the keys of that tenant. */
  lemma FoundIffKeyInTenant<T>(rows: seq<T>, key: T -> Rows.Key, tenant: Id, id: Id)
    ensures FindById(rows, key, Some(tenant), id).Some? <==> (id, tenant) in Rows.Keys(rows, key)
  {
    var r := FindById(rows, key, Some(tenant), id);
    if (id, tenant) in Rows.Keys(rows, key) {
      var k :| 0 <= k < |rows| && key(rows[k]) == (id, tenant);
      assert key(rows[k]).0 == id && InScope(key(rows[k]).1, Some(tenant));
    }
    if r.Some? {
      Rows.KeyOfRow(rows, key, r.value);
    }
  }

  /** Another tenant's id behaves as not found. */
  lemma ForeignIdNotFound<T>(rows: seq<T>, key: T -> Rows.Key, tenant: Id, id: Id, owner: Id)
    requires Rows.DistinctIds(rows, key)
    requires (id, owner) in Rows.Keys(rows, key) && owner != tenant
    ensures FindById(rows, key, Some(tenant), id).None?
  {
    FoundIffKeyInTenant(rows, key, tenant, id);
    if (id, tenant) in Rows.Keys(rows, key) {
      Rows.KeyTenantUnique(rows, key, id, owner, tenant);
    }
  }

  /** With no tenant bound, no filter applies: any row with the id is found. */
  lemma UnscopedFindsAnyTenant<T>(rows: seq<T>, key: T -> Rows.Key, id: Id, owner: Id)
    requires (id, owner) in Rows.Keys(rows, key)
    ensures FindById(rows, key, None, id).Some?
  {
    var k :| 0 <= k < |rows| && key(rows[k]) == (id, owner);
    assert key(rows[k]).0 == id && InScope(key(rows[k]).1, None);
  }

  /** The `creating` hook: fill `tenant_id` from the bound tenant only when it is unset. */
  function StampTenant(given: Option<Id>, bound: Option<Tenant>): Option<Id> {
    if given.None? && bound.Some? then Some(bound.value.id) else given
  }

  /** An explicitly supplied `tenant_id` is kept, even when another tenant is bound. */
  lemma StampKeepsGiven(given: Option<Id>, bound: Option<Tenant>)
    requires given.Some?
    ensures StampTenant(given, bound) == given
  {
  }

  /** An unset `tenant_id` becomes the bound tenant's id, or stays unset without one. */
  lemma StampFillsUnset(bound: Option<Tenant>)
    ensures StampTenant(None, bound) == ScopeOf(bound)
  {
  }

  /** The global scope applied to a whole table. */
  function ScopeFilter<T>(rows: seq<T>, key: T -> Rows.Key, scope: Scope): (r: seq<T>)
    ensures |r| <= |rows|
    ensures forall k | 0 <= k < |r| :: InScope(key(r[k]).1, scope)
  {
    if rows == [] then []
    else if InScope(key(rows[0]).1, scope) then [rows[0]] + ScopeFilter(rows[1..], key, scope)
    else ScopeFilter(rows[1..], key, scope)
  }

  /** The scope keeps exactly the rows of the bound tenant. */
  lemma {:induction false} ScopeFilterMembers<T>(rows: seq<T>, key: T -> Rows.Key, scope: Scope, x: T)
    ensures x in ScopeFilter(rows, key, scope) <==> x in rows && InScope(key(x).1, scope)
  {
    if rows != [] {
      ScopeFilterMembers(rows[1..], key, scope, x);
      assert rows == [rows[0]] + rows[1..];
    }
  }

  /** A `where` that agrees with the scope on every row selects what the scope selects. */
  lemma {:induction false} ScopeFilterIsFilter<T>(rows: seq<T>, key: T -> Rows.Key, scope: Scope, p: T -> bool)
    requires forall k | 0 <= k < |rows| :: p(rows[k]) == InScope(key(rows[k]).1, scope)
    ensures ScopeFilter(rows, key, scope) == Rows.Filter(rows, p)
  {
    if rows != [] {
      assert forall k | 0 <= k < |rows[1..]| :: rows[1..][k] == rows[k + 1];
      ScopeFilterIsFilter(rows[1..], key, scope, p);
    }
  }

  /** With a tenant bound, every row a query sees belongs to that tenant. */
  lemma ScopedRowsBelongToTenant<T>(rows: seq<T>, key: T -> Rows.Key, tenant: Id)
    ensures forall k | 0 <= k < |ScopeFilter(rows, key, Some(tenant))| ::
      key(ScopeFilter(rows, key, Some(tenant))[k]).1 == tenant
  {
  }

  /** With no tenant bound, the scope is the identity. */
  lemma {:induction false} UnscopedIsIdentity<T>(rows: seq<T>, key: T -> Rows.Key)
    ensures ScopeFilter(rows, key, None) == rows
  {
    if rows != [] {
      UnscopedIsIdentity(rows[1..], key);
      assert rows == [rows[0]] + rows[1..];
    }
  }

  /** `Tenant::where('slug', $slug)->first()`. */
  function ResolveSlug(tenants: seq<Tenant>, slug: string): (r: Option<Tenant>)
    ensures r.Some? ==> r.value.slug == slug
    ensures r.Some? ==> exists k | 0 <= k < |tenants| ::
      (tenants[k] == r.value && forall j | 0 <= j < k :: tenants[j].slug != slug)
    ensures r.None? ==> forall k | 0 <= k < |tenants| :: tenants[k].slug != slug
  {
    match Rows.FirstIndex(tenants, (t: Tenant) => t.slug == slug)
    case None => None
    case Some(k) => Some(tenants[k])
  }

  /** What the middleware does with a request: abort with a status code, or pass it on. */
  datatype Response = Abort(code: int, message: string) | Next

  /** The container's `tenant` binding. */
  class TenantContext {
    var bound: Option<Tenant>

    constructor()
      ensures bound.None?
    {
      bound := None;
    }

    function Scope(): Scope
      reads this
    {
      ScopeOf(bound)
    }

    /**
     * `TenantMiddleware::handle`: a falsy slug aborts with 400, an unknown one
     * with 404, and neither binds anything; a known slug binds the first
     * tenant carrying it before the next handler runs.
     */
    method Handle(slug: Option<string>, tenants: seq<Tenant>) returns (resp: Response)
      modifies this
      ensures !TruthyOpt(slug) ==> resp == Abort(400, "Tenant slug is required") && bound == old(bound)
      ensures TruthyOpt(slug) && ResolveSlug(tenants, slug.value).None? ==>
        resp == Abort(404, "Tenant not found") && bound == old(bound)
      ensures TruthyOpt(slug) && ResolveSlug(tenants, slug.value).Some? ==>
        resp == Next && bound == ResolveSlug(tenants, slug.value)
    {
      if !TruthyOpt(slug) {
        return Abort(400, "Tenant slug is required");
      }
      var tenant := ResolveSlug(tenants, slug.value);
      if tenant.None? {
        return Abort(404, "Tenant not found");
      }
      bound := tenant;
      resp := Next;
    }
  }
}
