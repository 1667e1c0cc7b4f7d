/**
 * `ClientService`: the listing branch, the scoped lookup, creation, the
 * partial update and the delete guard on existing locations.
 */
module ClientRules {
  import opened Wrappers
  import opened Text
  import opened Schema
  import opened Tenancy
  import opened Store
  import Rows

  const ClientHasLocations: string := "Cannot delete client with existing locations"

  /** The validated fields of a create request. */
  datatype NewClient = NewClient(name: string, contactPerson: Option<string>, contactPhone: Option<string>, contactEmail: Option<string>)

  /** The fields of an update request: `name` non-null when sent, the contacts nullable. */
  datatype ClientPatch = ClientPatch(
    name: Option<string>, contactPerson: Patch<Option<string>>,
    contactPhone: Patch<Option<string>>, contactEmail: Patch<Option<string>>)

  /** The query `getAllClients` runs. */
  datatype ClientListing = SearchClients(term: string) | AllClients(perPage: nat)

  /** `getAllClients`: the search path exactly for a truthy term, else the page of 15 ordered by name. */
  function ListingFor(search: Option<string>): (r: ClientListing)
    ensures r.SearchClients? <==> TruthyOpt(search)
    ensures r.SearchClients? ==> r.term == search.value
    ensures r.AllClients? ==> r.perPage == 15
  {
    if TruthyOpt(search) then SearchClients(search.value) else AllClients(15)
  }

  /** `getClient`: the scoped `find`, null for an id of another tenant or none at all. */
  function GetClient(t: Tables, bound: Option<Tenant>, id: Id): (r: Option<Client>)
    ensures r.Some? ==> r.value in t.clients && r.value.id == id && InScope(r.value.tenantId, ScopeOf(bound))
    ensures r.None? ==> forall c | c in t.clients :: !(c.id == id && InScope(c.tenantId, ScopeOf(bound)))
  {
    var i := FindById(t.clients, ClientKey, ScopeOf(bound), id);
    if i.Some? then Some(t.clients[i.value]) else None
  }

  function CreateClient(t: Tables, bound: Option<Tenant>, d: NewClient): Outcome<Client> {
    var tenant := StampTenant(None, bound);
    if tenant.None? then Fail(t, Integrity("clients.tenant_id is NOT NULL"))
    else
      var x := Client(t.nextClientId, tenant.value, d.name, d.contactPerson, d.contactPhone, d.contactEmail);
      Outcome(t.(clients := t.clients + [x], nextClientId := t.nextClientId + 1), [], Ok(x))
  }

  /** The row after `update($data)`: each sent field replaced. */
  function PatchClient(c: Client, p: ClientPatch): Client {
    c.(name := p.name.GetOr(c.name), contactPerson := p.contactPerson.Patched(c.contactPerson),
       contactPhone := p.contactPhone.Patched(c.contactPhone), contactEmail := p.contactEmail.Patched(c.contactEmail))
  }

  /** `updateClient`: `findOrFail`, the update, and the re-read row. */
  function UpdateClient(t: Tables, bound: Option<Tenant>, id: Id, p: ClientPatch): Outcome<Client> {
    var i := FindById(t.clients, ClientKey, ScopeOf(bound), id);
    if i.None? then Fail(t, NotFound(ClientClass, id))
    else
      var n := PatchClient(t.clients[i.value], p);
      Outcome(t.(clients := t.clients[i.value := n]), [], Ok(n))
  }

  /** `$client->locations()->count()`: the client's locations, under the tenant scope. */
  function LocationCount(locations: seq<Location>, scope: Scope, clientId: Id): nat {
    Rows.Count(locations, (l: Location) => l.clientId == clientId && InScope(l.tenantId, scope))
  }

  /**
   * `deleteClient`: refused while the client has locations; otherwise the
   * row goes, unless an order still names the client, whose foreign key
   * restricts the delete.
   */
  function DeleteClient(t: Tables, bound: Option<Tenant>, id: Id): Outcome<bool> {
    var scope := ScopeOf(bound);
    var i := FindById(t.clients, ClientKey, scope, id);
    if i.None? then Fail(t, NotFound(ClientClass, id))
    else if LocationCount(t.locations, scope, t.clients[i.value].id) > 0 then Fail(t, Refused(ClientHasLocations))
    else if !NoOrderRefersTo(t.orders, ClientRef, ClientKey(t.clients[i.value])) then Fail(t, Integrity("orders composite foreign key to clients"))
    else Outcome(t.(clients := Rows.RemoveAt(t.clients, i.value)), [], Ok(true))
  }

  /** A created client carries the bound tenant and the next id; with no tenant bound the insert is refused. */
  lemma CreateClientSpec(t: Tables, bound: Option<Tenant>, d: NewClient)
    ensures var r := CreateClient(t, bound, d);
      && (r.result.Ok? <==> bound.Some?)
      && (bound.None? ==> r == Fail(t, Integrity("clients.tenant_id is NOT NULL")))
      && (r.result.Ok? ==>
            && r.result.value == Client(t.nextClientId, bound.value.id, d.name, d.contactPerson, d.contactPhone, d.contactEmail)
            && r.tables == t.(clients := t.clients + [r.result.value], nextClientId := t.nextClientId + 1))
  {
  }

  lemma CreateClientPreserves(t: Tables, bound: Option<Tenant>, d: NewClient)
    requires Consistent(t)
    ensures Consistent(CreateClient(t, bound, d).tables)
  {
    var r := CreateClient(t, bound, d);
    if r.result.Ok? {
      AppendClientConsistent(t, r.result.value);
    }
  }

  /** An id outside the tenant is not found; otherwise exactly the sent fields change. */
  lemma UpdateClientSpec(t: Tables, bound: Option<Tenant>, id: Id, p: ClientPatch)
    ensures var i := FindById(t.clients, ClientKey, ScopeOf(bound), id);
      var r := UpdateClient(t, bound, id, p);
      && (i.None? <==> r == Fail(t, NotFound(ClientClass, id)))
      && (i.Some? ==>
            && r.result.Ok?
            && r.tables == t.(clients := t.clients[i.value := r.result.value])
            && r.result.value.id == id && r.result.value.tenantId == t.clients[i.value].tenantId
            && r.result.value.name == p.name.GetOr(t.clients[i.value].name)
            && r.result.value.contactPerson == p.contactPerson.Patched(t.clients[i.value].contactPerson)
            && r.result.value.contactPhone == p.contactPhone.Patched(t.clients[i.value].contactPhone)
            && r.result.value.contactEmail == p.contactEmail.Patched(t.clients[i.value].contactEmail))
  {
  }

  /** An empty patch writes the row back unchanged. */
  lemma EmptyPatchKeepsClient(t: Tables, bound: Option<Tenant>, id: Id)
    ensures var r := UpdateClient(t, bound, id, ClientPatch(None, Keep, Keep, Keep));
      r.tables == t
  {
    var i := FindById(t.clients, ClientKey, ScopeOf(bound), id);
    if i.Some? {
      assert t.clients[i.value := t.clients[i.value]] == t.clients;
    }
  }

  lemma UpdateClientPreserves(t: Tables, bound: Option<Tenant>, id: Id, p: ClientPatch)
    requires Consistent(t)
    ensures Consistent(UpdateClient(t, bound, id, p).tables)
  {
    var r := UpdateClient(t, bound, id, p);
    if r.result.Ok? {
      var i := FindById(t.clients, ClientKey, ScopeOf(bound), id).value;
      ReplaceClientConsistent(t, i, r.result.value);
    }
  }

  /**
   * A client of the tenant with a location is never deleted, and one that
   * goes has neither locations nor orders left.
   */
  lemma DeleteClientSpec(t: Tables, bound: Option<Tenant>, id: Id)
    requires FindById(t.clients, ClientKey, ScopeOf(bound), id).Some?
    ensures var i := FindById(t.clients, ClientKey, ScopeOf(bound), id).value;
      var r := DeleteClient(t, bound, id);
      && ((exists k | 0 <= k < |t.locations| :: t.locations[k].clientId == id && InScope(t.locations[k].tenantId, ScopeOf(bound)))
            <==> r == Fail(t, Refused(ClientHasLocations)))
      && (r.result.Ok? <==>
            && (forall k | 0 <= k < |t.locations| :: !(t.locations[k].clientId == id && InScope(t.locations[k].tenantId, ScopeOf(bound))))
            && NoOrderRefersTo(t.orders, ClientRef, ClientKey(t.clients[i])))
      && (r.result.Ok? ==> r.tables == t.(clients := Rows.RemoveAt(t.clients, i)))
  {
    Rows.CountZeroIffNone(t.locations, (l: Location) => l.clientId == id && InScope(l.tenantId, ScopeOf(bound)));
  }

  /**
   * The orders' foreign key is the only thing between the guard and the
   * delete: a client whose one location was moved away by `updateLocation`
   * still has its orders, and the delete then fails in the database.
   */
  lemma DeleteClientReachesForeignKey(t: Tables, bound: Option<Tenant>, id: Id, k: nat)
    requires FindById(t.clients, ClientKey, ScopeOf(bound), id).Some?
    requires forall j | 0 <= j < |t.locations| :: t.locations[j].clientId != id
    requires k < |t.orders| && t.orders[k].clientId == id
    requires t.orders[k].tenantId == t.clients[FindById(t.clients, ClientKey, ScopeOf(bound), id).value].tenantId
    ensures DeleteClient(t, bound, id) == Fail(t, Integrity("orders composite foreign key to clients"))
  {
    var i := FindById(t.clients, ClientKey, ScopeOf(bound), id).value;
    Rows.CountZeroIffNone(t.locations, (l: Location) => l.clientId == id && InScope(l.tenantId, ScopeOf(bound)));
    assert ClientRef(t.orders[k]) == Some(t.clients[i].id);
  }

  /** The scoped count sees every location of the client, so the locations' foreign key never refuses the delete. */
  lemma DeleteClientPreserves(t: Tables, bound: Option<Tenant>, id: Id)
    requires Consistent(t)
    ensures Consistent(DeleteClient(t, bound, id).tables)
  {
    var scope := ScopeOf(bound);
    var r := DeleteClient(t, bound, id);
    if r.result.Ok? {
      var i := FindById(t.clients, ClientKey, scope, id).value;
      var p := (l: Location) => l.clientId == id && InScope(l.tenantId, scope);
      Rows.CountZeroIffNone(t.locations, p);
      forall k | 0 <= k < |t.locations|
        ensures (t.locations[k].clientId, t.locations[k].tenantId) != ClientKey(t.clients[i])
      {
        assert !p(t.locations[k]);
      }
      RemoveClientConsistent(t, i);
    }
  }
}

/** `ClientService` performing the steps of `ClientRules` on the database. */
module ClientServices {
  import opened Wrappers
  import opened Schema
  import opened Tenancy
  import opened Store
  import opened ClientRules
  import Rows

  class ClientService {
    const db: Database

    constructor(db: Database)
      ensures this.db == db
    {
      this.db := db;
    }

    method CreateClient(bound: Option<Tenant>, d: NewClient) returns (r: Result<Client, ServiceError>)
      requires db.Valid()
      modifies db
      ensures db.Valid()
      ensures var out := ClientRules.CreateClient(old(db.State()), bound, d);
        r == out.result && db.State() == out.tables && db.log == old(db.log)
    {
      CreateClientPreserves(db.State(), bound, d);
      var tenant := StampTenant(None, bound);
      if tenant.None? {
        return Err(Integrity("clients.tenant_id is NOT NULL"));
      }
      var x := Client(db.nextClientId, tenant.value, d.name, d.contactPerson, d.contactPhone, d.contactEmail);
      db.clients := db.clients + [x];
      db.nextClientId := db.nextClientId + 1;
      r := Ok(x);
    }

    method UpdateClient(bound: Option<Tenant>, id: Id, p: ClientPatch) returns (r: Result<Client, ServiceError>)
      requires db.Valid()
      modifies db
      ensures db.Valid()
      ensures var out := ClientRules.UpdateClient(old(db.State()), bound, id, p);
        r == out.result && db.State() == out.tables && db.log == old(db.log)
    {
      UpdateClientPreserves(db.State(), bound, id, p);
      var i := Find(db.clients, ClientKey, ScopeOf(bound), id);
      if i.None? {
        return Err(NotFound(ClientClass, id));
      }
      var n := PatchClient(db.clients[i.value], p);
      db.clients := db.clients[i.value := n];
      r := Ok(n);
    }

    method DeleteClient(bound: Option<Tenant>, id: Id) returns (r: Result<bool, ServiceError>)
      requires db.Valid()
      modifies db
      ensures db.Valid()
      ensures var out := ClientRules.DeleteClient(old(db.State()), bound, id);
        r == out.result && db.State() == out.tables && db.log == old(db.log)
    {
      DeleteClientPreserves(db.State(), bound, id);
      var scope := ScopeOf(bound);
      var i := Find(db.clients, ClientKey, scope, id);
      if i.None? {
        return Err(NotFound(ClientClass, id));
      }
      if LocationCount(db.locations, scope, db.clients[i.value].id) > 0 {
        return Err(Refused(ClientHasLocations));
      }
      if !NoOrderRefersTo(db.orders, ClientRef, ClientKey(db.clients[i.value])) {
        return Err(Integrity("orders composite foreign key to clients"));
      }
      db.clients := Rows.RemoveAt(db.clients, i.value);
      r := Ok(true);
    }
  }
}
