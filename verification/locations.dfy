/**
 * `LocationService`: creation behind the client lookup, the update that
 * re-checks the client only when it changes, the delete guard on existing
 * orders, the listing branch and the location/client pairing test.
 */
module LocationRules {
  import opened Wrappers
  import opened Text
  import opened Schema
  import opened Tenancy
  import opened Store
  import Rows

  const LocationHasOrders: string := "Cannot delete location with existing orders"

  /** The validated fields of a create request. */
  datatype NewLocation = NewLocation(clientId: Id, address: string, lat: Option<real>, lng: Option<real>)

  /** The validated fields of an update request: `client_id` and `address` non-null when sent, the coordinates nullable. */
  datatype LocationPatch = LocationPatch(clientId: Option<Id>, address: Option<string>, lat: Patch<Option<real>>, lng: Patch<Option<real>>)

  /** The query `getAllLocations` runs. */
  datatype LocationListing = SearchByAddress(term: string) | ByClient(clientId: Id) | AllLocations(perPage: nat)

  /** `getAllLocations`: a truthy search term first, then a truthy client id, else the plain page of 15. */
  function ListingFor(clientId: Option<Id>, search: Option<string>): LocationListing {
    if TruthyOpt(search) then SearchByAddress(search.value)
    else if clientId.Some? && clientId.value != 0 then ByClient(clientId.value)
    else AllLocations(15)
  }

  /** The search term wins over the client filter; with neither, every location is listed. */
  lemma ListingPrecedence(clientId: Option<Id>, search: Option<string>)
    ensures TruthyOpt(search) <==> ListingFor(clientId, search).SearchByAddress?
    ensures ListingFor(clientId, search).SearchByAddress? ==> ListingFor(clientId, search).term == search.value
    ensures ListingFor(clientId, search).ByClient? <==> !TruthyOpt(search) && clientId.Some? && clientId.value != 0
    ensures ListingFor(clientId, search).ByClient? ==> ListingFor(clientId, search).clientId == clientId.value
    ensures (clientId.None? || clientId == Some(0)) && !TruthyOpt(search) ==> ListingFor(clientId, search) == AllLocations(15)
  {
  }

  /** `createLocation`: `findOrFail` on the client through the tenant scope, then the insert. */
  function CreateLocation(t: Tables, bound: Option<Tenant>, d: NewLocation): Outcome<Location> {
    if FindById(t.clients, ClientKey, ScopeOf(bound), d.clientId).None? then Fail(t, NotFound(ClientClass, d.clientId))
    else
      var tenant := StampTenant(None, bound);
      if tenant.None? then Fail(t, Integrity("locations.tenant_id is NOT NULL"))
      else
        var x := Location(t.nextLocationId, tenant.value, d.clientId, d.address, d.lat, d.lng);
        Outcome(t.(locations := t.locations + [x], nextLocationId := t.nextLocationId + 1), [], Ok(x))
  }

  /** The row after `update($data)`: each sent field replaced. */
  function PatchLocation(l: Location, p: LocationPatch): Location {
    l.(clientId := p.clientId.GetOr(l.clientId), address := p.address.GetOr(l.address),
       lat := p.lat.Patched(l.lat), lng := p.lng.Patched(l.lng))
  }

  /**
   * `updateLocation`: the new client is looked up only when `client_id` is
   * sent and differs; the composite foreign key then checks it against the
   * location's own tenant.
   */
  function UpdateLocation(t: Tables, bound: Option<Tenant>, id: Id, p: LocationPatch): Outcome<Location> {
    var scope := ScopeOf(bound);
    var i := FindById(t.locations, LocationKey, scope, id);
    if i.None? then Fail(t, NotFound(LocationClass, id))
    else
      var l := t.locations[i.value];
      if p.clientId.Some? && p.clientId.value != l.clientId && FindById(t.clients, ClientKey, scope, p.clientId.value).None? then
        Fail(t, NotFound(ClientClass, p.clientId.value))
      else
        var n := PatchLocation(l, p);
        if n.clientId != l.clientId && !LocationRefsOk(t, n) then Fail(t, Integrity("locations composite foreign key"))
        else Outcome(t.(locations := t.locations[i.value := n]), [], Ok(n))
  }

  /** `$location->orders()->count()`: the orders at the location, under the tenant scope. */
  function OrderCount(orders: seq<Order>, scope: Scope, locationId: Id): nat {
    Rows.Count(orders, (o: Order) => o.locationId == locationId && InScope(o.tenantId, scope))
  }

  function DeleteLocation(t: Tables, bound: Option<Tenant>, id: Id): Outcome<bool> {
    var scope := ScopeOf(bound);
    var i := FindById(t.locations, LocationKey, scope, id);
    if i.None? then Fail(t, NotFound(LocationClass, id))
    else if OrderCount(t.orders, scope, t.locations[i.value].id) > 0 then Fail(t, Refused(LocationHasOrders))
    else Outcome(t.(locations := Rows.RemoveAt(t.locations, i.value)), [], Ok(true))
  }

  /** `validateLocationBelongsToClient`: a location of the tenant with that id and that client exists. */
  predicate BelongsToClient(locations: seq<Location>, scope: Scope, locationId: Id, clientId: Id) {
    exists k | 0 <= k < |locations| ::
      locations[k].id == locationId && locations[k].clientId == clientId && InScope(locations[k].tenantId, scope)
  }

  /** With distinct ids this is the pairing test `createOrder` and `updateOrder` perform on the found location. */
  lemma BelongsToClientIsPairing(locations: seq<Location>, scope: Scope, locationId: Id, clientId: Id)
    requires Rows.DistinctIds(locations, LocationKey)
    ensures var i := FindById(locations, LocationKey, scope, locationId);
      BelongsToClient(locations, scope, locationId, clientId) <==> i.Some? && locations[i.value].clientId == clientId
  {
    var i := FindById(locations, LocationKey, scope, locationId);
    if BelongsToClient(locations, scope, locationId, clientId) {
      var k :| 0 <= k < |locations| && locations[k].id == locationId && locations[k].clientId == clientId && InScope(locations[k].tenantId, scope);
      assert LocationKey(locations[k]).0 == locationId && InScope(LocationKey(locations[k]).1, scope);
      assert LocationKey(locations[i.value]).0 == LocationKey(locations[k]).0;
    }
  }

  lemma CreateLocationSpec(t: Tables, bound: Option<Tenant>, d: NewLocation)
    ensures var r := CreateLocation(t, bound, d);
      && (FindById(t.clients, ClientKey, ScopeOf(bound), d.clientId).None? ==> r == Fail(t, NotFound(ClientClass, d.clientId)))
      && (r.result.Ok? <==> FindById(t.clients, ClientKey, ScopeOf(bound), d.clientId).Some? && bound.Some?)
      && (r.result.Ok? ==>
            && r.result.value == Location(t.nextLocationId, bound.value.id, d.clientId, d.address, d.lat, d.lng)
            && r.tables == t.(locations := t.locations + [r.result.value], nextLocationId := t.nextLocationId + 1))
  {
  }

  /** The client was found in the bound tenant, so the new row's foreign key holds. */
  lemma CreateLocationPreserves(t: Tables, bound: Option<Tenant>, d: NewLocation)
    requires Consistent(t)
    ensures Consistent(CreateLocation(t, bound, d).tables)
  {
    var r := CreateLocation(t, bound, d);
    if r.result.Ok? {
      var ci := FindById(t.clients, ClientKey, ScopeOf(bound), d.clientId).value;
      Rows.KeyOfRow(t.clients, ClientKey, ci);
      AppendLocationConsistent(t, r.result.value);
    }
  }

  /**
   * The client is looked up only for a changed `client_id`; the sent fields
   * are written, the row keeps its id and tenant; and the orders are never
   * consulted.
   */
  lemma UpdateLocationSpec(t: Tables, bound: Option<Tenant>, id: Id, p: LocationPatch)
    requires FindById(t.locations, LocationKey, ScopeOf(bound), id).Some?
    ensures var i := FindById(t.locations, LocationKey, ScopeOf(bound), id).value;
      var l := t.locations[i];
      var r := UpdateLocation(t, bound, id, p);
      && ((p.clientId.None? || p.clientId.value == l.clientId) ==> r.result.Ok?)
      && (r.result == Err(NotFound(ClientClass, p.clientId.GetOr(0))) ==> p.clientId.Some? && p.clientId.value != l.clientId)
      && (r.result.Ok? ==>
            && r.tables == t.(locations := t.locations[i := r.result.value])
            && r.result.value.id == l.id && r.result.value.tenantId == l.tenantId
            && r.result.value.clientId == p.clientId.GetOr(l.clientId)
            && r.result.value.address == p.address.GetOr(l.address)
            && r.result.value.lat == p.lat.Patched(l.lat) && r.result.value.lng == p.lng.Patched(l.lng))
  {
  }

  /** Nothing about orders affects `updateLocation`: a location with orders can move to another client. */
  lemma UpdateLocationIgnoresOrders(t: Tables, bound: Option<Tenant>, id: Id, p: LocationPatch, orders: seq<Order>)
    ensures UpdateLocation(t.(orders := orders), bound, id, p).result == UpdateLocation(t, bound, id, p).result
  {
  }

  /**
   * After a move, an order that was placed for the location's old client no
   * longer names the location's client: the pairing `createOrder` checked
   * does not survive.
   */
  lemma MoveUnpairsOrders(t: Tables, bound: Option<Tenant>, id: Id, p: LocationPatch, o: Order)
    requires FindById(t.locations, LocationKey, ScopeOf(bound), id).Some?
    requires p.clientId.Some? && p.clientId.value != t.locations[FindById(t.locations, LocationKey, ScopeOf(bound), id).value].clientId
    requires o.locationId == id && o.clientId == t.locations[FindById(t.locations, LocationKey, ScopeOf(bound), id).value].clientId
    ensures var r := UpdateLocation(t, bound, id, p);
      r.result.Ok? ==> r.result.value.id == o.locationId && r.result.value.clientId != o.clientId
  {
  }

  /** A moved location points at a client of its tenant: the scoped lookup or the foreign key saw to it. */
  lemma UpdateLocationPreserves(t: Tables, bound: Option<Tenant>, id: Id, p: LocationPatch)
    requires Consistent(t)
    ensures Consistent(UpdateLocation(t, bound, id, p).tables)
  {
    var r := UpdateLocation(t, bound, id, p);
    if r.result.Ok? {
      var i := FindById(t.locations, LocationKey, ScopeOf(bound), id).value;
      assert LocationRefsOk(t, t.locations[i]);
      ReplaceLocationConsistent(t, i, r.result.value);
    }
  }

  /** Deletion is refused whenever an order of the tenant is at the location. */
  lemma DeleteLocationSpec(t: Tables, bound: Option<Tenant>, id: Id)
    requires FindById(t.locations, LocationKey, ScopeOf(bound), id).Some?
    ensures var i := FindById(t.locations, LocationKey, ScopeOf(bound), id).value;
      var r := DeleteLocation(t, bound, id);
      && ((exists k | 0 <= k < |t.orders| :: t.orders[k].locationId == id && InScope(t.orders[k].tenantId, ScopeOf(bound)))
            <==> r == Fail(t, Refused(LocationHasOrders)))
      && (r.result.Ok? ==> r.tables == t.(locations := Rows.RemoveAt(t.locations, i)))
      && (r.result.Ok? || r.result == Err(Refused(LocationHasOrders)))
  {
    Rows.CountZeroIffNone(t.orders, (o: Order) => o.locationId == id && InScope(o.tenantId, ScopeOf(bound)));
  }

  /** The scoped count sees every order at the location, so the orders' foreign key never refuses the delete. */
  lemma DeleteLocationPreserves(t: Tables, bound: Option<Tenant>, id: Id)
    requires Consistent(t)
    ensures Consistent(DeleteLocation(t, bound, id).tables)
  {
    var scope := ScopeOf(bound);
    var r := DeleteLocation(t, bound, id);
    if r.result.Ok? {
      var i := FindById(t.locations, LocationKey, scope, id).value;
      var p := (o: Order) => o.locationId == id && InScope(o.tenantId, scope);
      Rows.CountZeroIffNone(t.orders, p);
      forall j | 0 <= j < |t.orders|
        ensures !(LocationRef(t.orders[j]) == Some(t.locations[i].id) && t.orders[j].tenantId == t.locations[i].tenantId)
      {
        assert !p(t.orders[j]);
      }
      RemoveLocationConsistent(t, i);
    }
  }
}

/** `LocationService` performing the steps of `LocationRules` on the database. */
module LocationServices {
  import opened Wrappers
  import opened Schema
  import opened Tenancy
  import opened Store
  import opened LocationRules
  import Rows

  class LocationService {
    const db: Database

    constructor(db: Database)
      ensures this.db == db
    {
      this.db := db;
    }

    method CreateLocation(bound: Option<Tenant>, d: NewLocation) returns (r: Result<Location, ServiceError>)
      requires db.Valid()
      modifies db
      ensures db.Valid()
      ensures var out := LocationRules.CreateLocation(old(db.State()), bound, d);
        r == out.result && db.State() == out.tables && db.log == old(db.log)
    {
      CreateLocationPreserves(db.State(), bound, d);
      var ci := Find(db.clients, ClientKey, ScopeOf(bound), d.clientId);
      if ci.None? {
        return Err(NotFound(ClientClass, d.clientId));
      }
      var tenant := StampTenant(None, bound);
      if tenant.None? {
        return Err(Integrity("locations.tenant_id is NOT NULL"));
      }
      var x := Location(db.nextLocationId, tenant.value, d.clientId, d.address, d.lat, d.lng);
      db.locations := db.locations + [x];
      db.nextLocationId := db.nextLocationId + 1;
      r := Ok(x);
    }

    method UpdateLocation(bound: Option<Tenant>, id: Id, p: LocationPatch) returns (r: Result<Location, ServiceError>)
      requires db.Valid()
      modifies db
      ensures db.Valid()
      ensures var out := LocationRules.UpdateLocation(old(db.State()), bound, id, p);
        r == out.result && db.State() == out.tables && db.log == old(db.log)
    {
      UpdateLocationPreserves(db.State(), bound, id, p);
      var scope := ScopeOf(bound);
      var i := Find(db.locations, LocationKey, scope, id);
      if i.None? {
        return Err(NotFound(LocationClass, id));
      }
      var l := db.locations[i.value];
      if p.clientId.Some? && p.clientId.value != l.clientId {
        var ci := Find(db.clients, ClientKey, scope, p.clientId.value);
        if ci.None? {
          return Err(NotFound(ClientClass, p.clientId.value));
        }
      }
      var n := PatchLocation(l, p);
      if n.clientId != l.clientId && !LocationRefsOk(db.State(), n) {
        return Err(Integrity("locations composite foreign key"));
      }
      db.locations := db.locations[i.value := n];
      r := Ok(n);
    }

    method DeleteLocation(bound: Option<Tenant>, id: Id) returns (r: Result<bool, ServiceError>)
      requires db.Valid()
      modifies db
      ensures db.Valid()
      ensures var out := LocationRules.DeleteLocation(old(db.State()), bound, id);
        r == out.result && db.State() == out.tables && db.log == old(db.log)
    {
      DeleteLocationPreserves(db.State(), bound, id);
      var scope := ScopeOf(bound);
      var i := Find(db.locations, LocationKey, scope, id);
      if i.None? {
        return Err(NotFound(LocationClass, id));
      }
      if OrderCount(db.orders, scope, db.locations[i.value].id) > 0 {
        return Err(Refused(LocationHasOrders));
      }
      db.locations := Rows.RemoveAt(db.locations, i.value);
      r := Ok(true);
    }
  }
}
