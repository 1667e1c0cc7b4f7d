/**
 * `TruckService`: the plate-uniqueness guard on creation and on a plate
 * change, the delete guard on existing orders, `toggleActive`, the scoped
 * lookup and the availability question, as decision functions giving each
 * call's outcome. Trucks write no audit rows.
 */
module TruckRules {
  import opened Wrappers
  import opened Schema
  import opened Tenancy
  import opened Availability
  import opened Store
  import opened TruckQueries
  import Rows

  const PlateTaken: string := "Truck with this plate number already exists"
  const TruckHasOrders: string := "Cannot delete truck with existing orders. Set as inactive instead."

  /** The validated fields of a create request; `active` takes the column default when absent. */
  datatype NewTruck = NewTruck(plateNo: string, tankCapacityL: int, active: Option<bool>)

  /** The validated fields of an update request, each absent or non-null. */
  datatype TruckPatch = TruckPatch(plateNo: Option<string>, tankCapacityL: Option<int>, active: Option<bool>)

  /** `getTruck`: `findOrFail` through the tenant scope. */
  function GetTruck(t: Tables, bound: Option<Tenant>, id: Id): (r: Result<Truck, ServiceError>)
    ensures r.Ok? <==> FindById(t.trucks, TruckKey, ScopeOf(bound), id).Some?
    ensures r.Ok? ==> r.value in t.trucks && r.value.id == id && InScope(r.value.tenantId, ScopeOf(bound))
    ensures r.Err? ==> r.error == NotFound(TruckClass, id)
  {
    var i := FindById(t.trucks, TruckKey, ScopeOf(bound), id);
    if i.None? then Err(NotFound(TruckClass, id)) else Ok(t.trucks[i.value])
  }

  /** `createTruck`: refused when `findByPlateNo` finds the plate; the insert needs a bound tenant. */
  function CreateTruck(t: Tables, bound: Option<Tenant>, d: NewTruck): Outcome<Truck> {
    if FindByPlateNo(t.trucks, ScopeOf(bound), d.plateNo).Some? then Fail(t, Refused(PlateTaken))
    else
      var tenant := StampTenant(None, bound);
      if tenant.None? then Fail(t, Integrity("delivery_trucks.tenant_id is NOT NULL"))
      else
        var x := Truck(t.nextTruckId, tenant.value, d.plateNo, d.tankCapacityL, d.active.GetOr(true));
        Outcome(t.(trucks := t.trucks + [x], nextTruckId := t.nextTruckId + 1), [], Ok(x))
  }

  /** The row after `update($data)`: each sent field replaced. */
  function PatchTruck(x: Truck, p: TruckPatch): Truck {
    x.(plateNo := p.plateNo.GetOr(x.plateNo), tankCapacityL := p.tankCapacityL.GetOr(x.tankCapacityL),
       active := p.active.GetOr(x.active))
  }

  /** The guard of `updateTruck`: a changed plate that `findByPlateNo` finds on another truck. */
  predicate PlateClash(trucks: seq<Truck>, scope: Scope, x: Truck, plate: Option<string>) {
    && plate.Some? && plate.value != x.plateNo
    && var e := FindByPlateNo(trucks, scope, plate.value);
       e.Some? && trucks[e.value].id != x.id
  }

  function UpdateTruck(t: Tables, bound: Option<Tenant>, id: Id, p: TruckPatch): Outcome<Truck> {
    var scope := ScopeOf(bound);
    var i := FindById(t.trucks, TruckKey, scope, id);
    if i.None? then Fail(t, NotFound(TruckClass, id))
    else
      var x := t.trucks[i.value];
      if PlateClash(t.trucks, scope, x, p.plateNo) then Fail(t, Refused(PlateTaken))
      else
        var n := PatchTruck(x, p);
        Outcome(t.(trucks := t.trucks[i.value := n]), [], Ok(n))
  }

  /** `$truck->orders()->count()`: the orders naming the truck, under the tenant scope. */
  function OrderCount(orders: seq<Order>, scope: Scope, truckId: Id): nat {
    Rows.Count(orders, (o: Order) => o.truckId == Some(truckId) && InScope(o.tenantId, scope))
  }

  function DeleteTruck(t: Tables, bound: Option<Tenant>, id: Id): Outcome<bool> {
    var scope := ScopeOf(bound);
    var i := FindById(t.trucks, TruckKey, scope, id);
    if i.None? then Fail(t, NotFound(TruckClass, id))
    else if OrderCount(t.orders, scope, t.trucks[i.value].id) > 0 then Fail(t, Refused(TruckHasOrders))
    else Outcome(t.(trucks := Rows.RemoveAt(t.trucks, i.value)), [], Ok(true))
  }

  /** `toggleActive`: `$truck->active = !$truck->active`, then `save()`. */
  function ToggleActive(t: Tables, bound: Option<Tenant>, id: Id): Outcome<Truck> {
    var i := FindById(t.trucks, TruckKey, ScopeOf(bound), id);
    if i.None? then Fail(t, NotFound(TruckClass, id))
    else
      var x := t.trucks[i.value];
      var n := x.(active := !x.active);
      Outcome(t.(trucks := t.trucks[i.value := n]), [], Ok(n))
  }

  /**
   * `isTruckAvailable` forwards to `TruckRepository::isAvailable`, whose
   * `find($truckId)->orders()` is a call on null when the truck is not found.
   */
  function IsTruckAvailable(t: Tables, bound: Option<Tenant>, truckId: Id, s: int, e: int, exclude: Option<Id>): Result<bool, ServiceError> {
    var scope := ScopeOf(bound);
    if FindById(t.trucks, TruckKey, scope, truckId).None? then Err(Fatal("Call to a member function orders() on null"))
    else Ok(IsAvailable(t.trucks, t.orders, scope, truckId, s, e, exclude))
  }

  lemma CreateTruckSpec(t: Tables, bound: Option<Tenant>, d: NewTruck)
    ensures var r := CreateTruck(t, bound, d);
      && (FindByPlateNo(t.trucks, ScopeOf(bound), d.plateNo).Some? ==> r == Fail(t, Refused(PlateTaken)))
      && (r.result.Ok? <==> FindByPlateNo(t.trucks, ScopeOf(bound), d.plateNo).None? && bound.Some?)
      && (r.result.Ok? ==>
            && r.result.value == Truck(t.nextTruckId, bound.value.id, d.plateNo, d.tankCapacityL, d.active.GetOr(true))
            && r.tables.trucks == t.trucks + [r.result.value]
            && r.tables.orders == t.orders && r.tables.clients == t.clients && r.tables.locations == t.locations)
      && r.logged == []
  {
  }

  /** A created truck's plate is free in its tenant, so the `(plate_no, tenant_id)` index never refuses it. */
  lemma CreateTruckPreserves(t: Tables, bound: Option<Tenant>, d: NewTruck)
    requires Consistent(t)
    ensures Consistent(CreateTruck(t, bound, d).tables)
  {
    var r := CreateTruck(t, bound, d);
    if r.result.Ok? {
      AppendTruckConsistent(t, r.result.value);
    }
  }

  /**
   * The plate guard refuses exactly when a new, different plate is already
   * held by a truck the scope can see; otherwise the sent fields are written
   * and the row keeps its id and tenant.
   */
  lemma UpdateTruckSpec(t: Tables, bound: Option<Tenant>, id: Id, p: TruckPatch)
    requires Rows.DistinctIds(t.trucks, TruckKey)
    requires FindById(t.trucks, TruckKey, ScopeOf(bound), id).Some?
    ensures var i := FindById(t.trucks, TruckKey, ScopeOf(bound), id).value;
      var x := t.trucks[i];
      var r := UpdateTruck(t, bound, id, p);
      && (r.result.Err? <==>
            && p.plateNo.Some? && p.plateNo.value != x.plateNo
            && exists k | 0 <= k < |t.trucks| :: t.trucks[k].plateNo == p.plateNo.value && InScope(t.trucks[k].tenantId, ScopeOf(bound)))
      && (r.result.Err? ==> r == Fail(t, Refused(PlateTaken)))
      && (r.result.Ok? ==>
            && r.tables == t.(trucks := t.trucks[i := r.result.value])
            && r.result.value.id == x.id && r.result.value.tenantId == x.tenantId
            && r.result.value.plateNo == p.plateNo.GetOr(x.plateNo)
            && r.result.value.tankCapacityL == p.tankCapacityL.GetOr(x.tankCapacityL)
            && r.result.value.active == p.active.GetOr(x.active))
  {
    var scope := ScopeOf(bound);
    var i := FindById(t.trucks, TruckKey, scope, id).value;
    var x := t.trucks[i];
    if p.plateNo.Some? && p.plateNo.value != x.plateNo {
      var e := FindByPlateNo(t.trucks, scope, p.plateNo.value);
      if e.Some? && e.value != i {
        assert TruckKey(t.trucks[e.value]).0 != TruckKey(t.trucks[i]).0;
      }
    }
  }

  /** An update never gives two trucks of a tenant the same plate. */
  lemma UpdateTruckPreserves(t: Tables, bound: Option<Tenant>, id: Id, p: TruckPatch)
    requires Consistent(t)
    ensures Consistent(UpdateTruck(t, bound, id, p).tables)
  {
    var scope := ScopeOf(bound);
    var r := UpdateTruck(t, bound, id, p);
    if r.result.Ok? {
      var i := FindById(t.trucks, TruckKey, scope, id).value;
      var x := t.trucks[i];
      var n := r.result.value;
      if p.plateNo.Some? && p.plateNo.value != x.plateNo {
        PlateHolderIsAnother(t.trucks, scope, i, p.plateNo.value);
      }
      forall k | 0 <= k < |t.trucks| && k != i && t.trucks[k].tenantId == n.tenantId
        ensures t.trucks[k].plateNo != n.plateNo
      {
        assert InScope(t.trucks[k].tenantId, scope);
      }
      ReplaceTruckConsistent(t, i, n);
    }
  }

  /** Deletion is refused whenever an order of the tenant names the truck, whatever its status. */
  lemma DeleteTruckSpec(t: Tables, bound: Option<Tenant>, id: Id)
    requires FindById(t.trucks, TruckKey, ScopeOf(bound), id).Some?
    ensures var i := FindById(t.trucks, TruckKey, ScopeOf(bound), id).value;
      var r := DeleteTruck(t, bound, id);
      && ((exists k | 0 <= k < |t.orders| :: t.orders[k].truckId == Some(id) && InScope(t.orders[k].tenantId, ScopeOf(bound)))
            <==> r == Fail(t, Refused(TruckHasOrders)))
      && (r.result.Ok? ==> r.tables == t.(trucks := Rows.RemoveAt(t.trucks, i)))
      && (r.result.Ok? || r.result == Err(Refused(TruckHasOrders)))
  {
    var scope := ScopeOf(bound);
    Rows.CountZeroIffNone(t.orders, (o: Order) => o.truckId == Some(id) && InScope(o.tenantId, scope));
  }

  /** The scoped count sees every order that references the truck, so the orders' foreign key never refuses the delete. */
  lemma DeleteTruckPreserves(t: Tables, bound: Option<Tenant>, id: Id)
    requires Consistent(t)
    ensures Consistent(DeleteTruck(t, bound, id).tables)
  {
    var scope := ScopeOf(bound);
    var r := DeleteTruck(t, bound, id);
    if r.result.Ok? {
      var i := FindById(t.trucks, TruckKey, scope, id).value;
      var p := (o: Order) => o.truckId == Some(id) && InScope(o.tenantId, scope);
      Rows.CountZeroIffNone(t.orders, p);
      forall j | 0 <= j < |t.orders| ensures !(TruckRef(t.orders[j]) == Some(t.trucks[i].id) && t.orders[j].tenantId == t.trucks[i].tenantId) {
        assert !p(t.orders[j]);
      }
      RemoveTruckConsistent(t, i);
    }
  }

  lemma ToggleActiveSpec(t: Tables, bound: Option<Tenant>, id: Id)
    ensures var i := FindById(t.trucks, TruckKey, ScopeOf(bound), id);
      var r := ToggleActive(t, bound, id);
      && (i.None? ==> r == Fail(t, NotFound(TruckClass, id)))
      && (i.Some? ==> r.result.Ok? && r.result.value == t.trucks[i.value].(active := !t.trucks[i.value].active)
                      && r.tables == t.(trucks := t.trucks[i.value := r.result.value]) && r.logged == [])
  {
  }

  /** Toggling twice restores the table. */
  lemma ToggleTwiceRestores(t: Tables, bound: Option<Tenant>, id: Id)
    ensures ToggleActive(ToggleActive(t, bound, id).tables, bound, id).tables == t
  {
    var scope := ScopeOf(bound);
    var i := FindById(t.trucks, TruckKey, scope, id);
    if i.Some? {
      var t1 := ToggleActive(t, bound, id).tables;
      FindAfterUpdate(t.trucks, TruckKey, scope, id, i.value, t1.trucks[i.value]);
      assert t1.trucks[i.value := t.trucks[i.value]] == t.trucks;
    }
  }

  lemma ToggleActivePreserves(t: Tables, bound: Option<Tenant>, id: Id)
    requires Consistent(t)
    ensures Consistent(ToggleActive(t, bound, id).tables)
  {
    var i := FindById(t.trucks, TruckKey, ScopeOf(bound), id);
    if i.Some? {
      ReplaceTruckConsistent(t, i.value, t.trucks[i.value].(active := !t.trucks[i.value].active));
    }
  }

  /** The service returns exactly the repository's answer, and a missing truck is an error rather than an answer. */
  lemma IsTruckAvailableSpec(t: Tables, bound: Option<Tenant>, truckId: Id, s: int, e: int, exclude: Option<Id>)
    ensures var r := IsTruckAvailable(t, bound, truckId, s, e, exclude);
      && (r.Ok? <==> FindById(t.trucks, TruckKey, ScopeOf(bound), truckId).Some?)
      && (r.Ok? ==> (r.value <==> |ScheduledInWindow(t.orders, ScopeOf(bound), truckId, s, e, exclude)| == 0))
      && (r.Err? ==> r.error.Fatal?)
  {
    if FindById(t.trucks, TruckKey, ScopeOf(bound), truckId).Some? {
      IsAvailableIffNoConflicts(t.trucks, t.orders, ScopeOf(bound), truckId, s, e, exclude);
    }
  }
}

/** `TruckService` performing the steps of `TruckRules` on the database. */
module TruckServices {
  import opened Wrappers
  import opened Schema
  import opened Tenancy
  import opened Store
  import opened TruckQueries
  import opened TruckRules
  import Rows

  /** The truck endpoints' service over the database. */
  class TruckService {
    const db: Database

    constructor(db: Database)
      ensures this.db == db
    {
      this.db := db;
    }

    method GetTruck(bound: Option<Tenant>, id: Id) returns (r: Result<Truck, ServiceError>)
      ensures r == TruckRules.GetTruck(db.State(), bound, id)
    {
      var i := Find(db.trucks, TruckKey, ScopeOf(bound), id);
      if i.None? {
        return Err(NotFound(TruckClass, id));
      }
      r := Ok(db.trucks[i.value]);
    }

    method CreateTruck(bound: Option<Tenant>, d: NewTruck) returns (r: Result<Truck, ServiceError>)
      requires db.Valid()
      modifies db
      ensures db.Valid()
      ensures var out := TruckRules.CreateTruck(old(db.State()), bound, d);
        r == out.result && db.State() == out.tables && db.log == old(db.log)
    {
      CreateTruckPreserves(db.State(), bound, d);
      var clash := FindByPlateNo(db.trucks, ScopeOf(bound), d.plateNo);
      if clash.Some? {
        return Err(Refused(PlateTaken));
      }
      var tenant := StampTenant(None, bound);
      if tenant.None? {
        return Err(Integrity("delivery_trucks.tenant_id is NOT NULL"));
      }
      var x := Truck(db.nextTruckId, tenant.value, d.plateNo, d.tankCapacityL, d.active.GetOr(true));
      db.trucks := db.trucks + [x];
      db.nextTruckId := db.nextTruckId + 1;
      r := Ok(x);
    }

    method UpdateTruck(bound: Option<Tenant>, id: Id, p: TruckPatch) returns (r: Result<Truck, ServiceError>)
      requires db.Valid()
      modifies db
      ensures db.Valid()
      ensures var out := TruckRules.UpdateTruck(old(db.State()), bound, id, p);
        r == out.result && db.State() == out.tables && db.log == old(db.log)
    {
      UpdateTruckPreserves(db.State(), bound, id, p);
      var scope := ScopeOf(bound);
      var i := Find(db.trucks, TruckKey, scope, id);
      if i.None? {
        return Err(NotFound(TruckClass, id));
      }
      var x := db.trucks[i.value];
      if p.plateNo.Some? && p.plateNo.value != x.plateNo {
        var existing := FindByPlateNo(db.trucks, scope, p.plateNo.value);
        if existing.Some? && db.trucks[existing.value].id != x.id {
          return Err(Refused(PlateTaken));
        }
      }
      var n := PatchTruck(x, p);
      db.trucks := db.trucks[i.value := n];
      r := Ok(n);
    }

    method DeleteTruck(bound: Option<Tenant>, id: Id) returns (r: Result<bool, ServiceError>)
      requires db.Valid()
      modifies db
      ensures db.Valid()
      ensures var out := TruckRules.DeleteTruck(old(db.State()), bound, id);
        r == out.result && db.State() == out.tables && db.log == old(db.log)
    {
      DeleteTruckPreserves(db.State(), bound, id);
      var scope := ScopeOf(bound);
      var i := Find(db.trucks, TruckKey, scope, id);
      if i.None? {
        return Err(NotFound(TruckClass, id));
      }
      if OrderCount(db.orders, scope, db.trucks[i.value].id) > 0 {
        return Err(Refused(TruckHasOrders));
      }
      db.trucks := Rows.RemoveAt(db.trucks, i.value);
      r := Ok(true);
    }

    method ToggleActive(bound: Option<Tenant>, id: Id) returns (r: Result<Truck, ServiceError>)
      requires db.Valid()
      modifies db
      ensures db.Valid()
      ensures var out := TruckRules.ToggleActive(old(db.State()), bound, id);
        r == out.result && db.State() == out.tables && db.log == old(db.log)
    {
      ToggleActivePreserves(db.State(), bound, id);
      var i := Find(db.trucks, TruckKey, ScopeOf(bound), id);
      if i.None? {
        return Err(NotFound(TruckClass, id));
      }
      var x := db.trucks[i.value];
      x := x.(active := !x.active);
      db.trucks := db.trucks[i.value := x];
      r := Ok(x);
    }
  }
}
