/**
 * The read-only truck queries of `TruckRepository`: active trucks and the
 * paginated listing, both ordered by plate, and the lookup by plate number.
 * Plates are ordered by code point; the database collation is not modelled.
 */
module TruckQueries {
  import opened Wrappers
  import opened Schema
  import opened Tenancy
  import opened Sorting
  import Rows

  /** Lexicographic order on strings, by code point. */
  predicate LexLe(a: string, b: string)
    decreases |a|
  {
    a == [] || (b != [] && (a[0] < b[0] || (a[0] == b[0] && LexLe(a[1..], b[1..]))))
  }

  lemma {:induction false} LexLeTotal(a: string, b: string)
    ensures LexLe(a, b) || LexLe(b, a)
    decreases |a|
  {
    if a != [] && b != [] && a[0] == b[0] {
      LexLeTotal(a[1..], b[1..]);
    }
  }

  lemma {:induction false} LexLeTransitive(a: string, b: string, c: string)
    requires LexLe(a, b) && LexLe(b, c)
    ensures LexLe(a, c)
    decreases |a|
  {
    if a != [] && b != [] && c != [] && a[0] == b[0] && b[0] == c[0] {
      LexLeTransitive(a[1..], b[1..], c[1..]);
    }
  }

  /** `orderBy('plate_no')`. */
  predicate PlateLe(x: Truck, y: Truck) {
    LexLe(x.plateNo, y.plateNo)
  }

  lemma PlateOrderIsPreorder()
    ensures Total(PlateLe) && Transitive(PlateLe)
  {
    forall x: Truck, y: Truck ensures PlateLe(x, y) || PlateLe(y, x) {
      LexLeTotal(x.plateNo, y.plateNo);
    }
    forall x: Truck, y: Truck, z: Truck | PlateLe(x, y) && PlateLe(y, z) ensures PlateLe(x, z) {
      LexLeTransitive(x.plateNo, y.plateNo, z.plateNo);
    }
  }

  /** `getAllPaginated($activeOnly)`: every truck of the tenant, or only the active ones, by plate. */
  function AllTrucks(trucks: seq<Truck>, scope: Scope, activeOnly: bool): seq<Truck> {
    SortBy(Rows.Filter(trucks, (t: Truck) => InScope(t.tenantId, scope) && (!activeOnly || t.active)), PlateLe)
  }

  /** `getActive()`: the active trucks of the tenant, by plate. */
  function Active(trucks: seq<Truck>, scope: Scope): seq<Truck> {
    SortBy(Rows.Filter(trucks, (t: Truck) => InScope(t.tenantId, scope) && t.active), PlateLe)
  }

  lemma ActiveSpec(trucks: seq<Truck>, scope: Scope, t: Truck)
    ensures t in Active(trucks, scope) <==> t in trucks && InScope(t.tenantId, scope) && t.active
    ensures SortedBy(Active(trucks, scope), PlateLe)
  {
    var p := (t: Truck) => InScope(t.tenantId, scope) && t.active;
    Rows.FilterMembers(trucks, p, t);
    SortByMembers(Rows.Filter(trucks, p), PlateLe, t);
    PlateOrderIsPreorder();
    SortBySorted(Rows.Filter(trucks, p), PlateLe);
  }

  /** With `activeOnly`, the listing holds the same trucks as `getActive()`; without it, every truck of the tenant. */
  lemma AllTrucksSpec(trucks: seq<Truck>, scope: Scope, activeOnly: bool, t: Truck)
    ensures t in AllTrucks(trucks, scope, activeOnly) <==>
      t in trucks && InScope(t.tenantId, scope) && (!activeOnly || t.active)
    ensures activeOnly ==> AllTrucks(trucks, scope, activeOnly) == Active(trucks, scope)
    ensures SortedBy(AllTrucks(trucks, scope, activeOnly), PlateLe)
  {
    var p := (t: Truck) => InScope(t.tenantId, scope) && (!activeOnly || t.active);
    Rows.FilterMembers(trucks, p, t);
    SortByMembers(Rows.Filter(trucks, p), PlateLe, t);
    PlateOrderIsPreorder();
    SortBySorted(Rows.Filter(trucks, p), PlateLe);
    if activeOnly {
      Rows.FilterSamePredicate(trucks, p, (t: Truck) => InScope(t.tenantId, scope) && t.active);
    }
  }

  /** `findByPlateNo($plateNo)`: the first truck of the tenant with that plate, if any. */
  function FindByPlateNo(trucks: seq<Truck>, scope: Scope, plate: string): (r: Option<nat>)
    ensures r.Some? ==> r.value < |trucks| && trucks[r.value].plateNo == plate && InScope(trucks[r.value].tenantId, scope)
    ensures r.None? ==> forall k | 0 <= k < |trucks| :: !(trucks[k].plateNo == plate && InScope(trucks[k].tenantId, scope))
  {
    Rows.FirstIndex(trucks, (t: Truck) => t.plateNo == plate && InScope(t.tenantId, scope))
  }

  /** With distinct ids, a truck found under a plate other than row `i`'s is another truck. */
  lemma PlateHolderIsAnother(trucks: seq<Truck>, scope: Scope, i: nat, plate: string)
    requires Rows.DistinctIds(trucks, TruckKey) && i < |trucks| && trucks[i].plateNo != plate
    ensures var e := FindByPlateNo(trucks, scope, plate);
      e.Some? ==> trucks[e.value].id != trucks[i].id
  {
    var e := FindByPlateNo(trucks, scope, plate);
    if e.Some? {
      assert TruckKey(trucks[e.value]).0 != TruckKey(trucks[i]).0;
    }
  }
}
