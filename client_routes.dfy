/** The `/clients` handlers (src/routes/client.ts): paginated list, create,
    partial update and delete with cascade over the client's allocations.

    Each handler validates its input first (a failure is `BadRequest` and
    touches nothing), then runs its store calls one after another. */
module ClientRoutes {
  import opened Responses
  import opened Pagination
  import opened Store

  /** Stand-in for the schema's email format check: an '@' with text on both sides. */
  predicate ValidEmail(email: string)
  {
    exists i :: 0 < i < |email| - 1 && email[i] == '@'
  }

  /** An update body: each field is optional, and only the supplied ones are written. */
  datatype ClientPatch = ClientPatch(name: Option<string>, email: Option<string>, status: Option<bool>)

  /** The update body's schema: a supplied email must be well-formed. */
  predicate ValidPatch(p: ClientPatch)
  {
    p.email.None? || ValidEmail(p.email.value)
  }

  /** The row `client.update` writes: supplied fields replaced, omitted fields kept, id kept. */
  function Patched(c: Client, p: ClientPatch): (r: Client)
    ensures r.id == c.id
    ensures p.name.None? ==> r.name == c.name
    ensures p.name.Some? ==> r.name == p.name.value
    ensures p.email.None? ==> r.email == c.email
    ensures p.email.Some? ==> r.email == p.email.value
    ensures p.status.None? ==> r.status == c.status
    ensures p.status.Some? ==> r.status == p.status.value
    ensures p == ClientPatch(None, None, None) ==> r == c
  {
    Client(c.id, OrDefault(p.name, c.name), OrDefault(p.email, c.email), OrDefault(p.status, c.status))
  }

  /** GET /clients: one window of the client table with its page metadata. */
  method List(s: Store, page: Option<int>, perPage: Option<int>) returns (r: Response<Page<Client>>)
    ensures var pg, pp := OrDefault(page, DefaultPage), OrDefault(perPage, DefaultPerPage);
      && (!ValidQuery(pg, pp) ==> r == BadRequest)
      && (ValidQuery(pg, pp) ==>
            && r == Ok(PageOf(s.clients, pg, pp))
            && |r.value.data| <= pp
            && (forall k :: 0 <= k < |r.value.data| ==> r.value.data[k] == s.clients[Skip(pg, pp) + k])
            && r.value.meta.total == |s.clients|
            && r.value.meta.totalPages == TotalPages(|s.clients|, pp))
  {
    var pg := OrDefault(page, DefaultPage);
    var pp := OrDefault(perPage, DefaultPerPage);
    if !ValidQuery(pg, pp) {
      return BadRequest;
    }
    var rows := Window(s.clients, Skip(pg, pp), pp);
    var total := |s.clients|;
    r := Ok(Page(rows, Meta(pg, pp, total, TotalPages(total, pp))));
  }

  /** POST /clients: the new row gets a fresh id and exactly the given fields; emails need not be unique. */
  method Create(s: Store, name: string, email: string, status: bool) returns (r: Response<Client>)
    requires s.Valid()
    modifies s
    ensures s.Valid()
    ensures s.allocations == old(s.allocations) && s.assets == old(s.assets)
    ensures s.nextAllocationId == old(s.nextAllocationId) && s.nextAssetId == old(s.nextAssetId)
    ensures !ValidEmail(email) ==> r == BadRequest && s.clients == old(s.clients) && s.nextClientId == old(s.nextClientId)
    ensures ValidEmail(email) ==>
      && r == Created(Client(old(s.nextClientId), name, email, status))
      && !HasClient(old(s.clients), r.value.id)
      && s.clients == old(s.clients) + [r.value]
      && s.nextClientId == old(s.nextClientId) + 1
  {
    if !ValidEmail(email) {
      return BadRequest;
    }
    var client := Client(s.nextClientId, name, email, status);
    s.clients := s.clients + [client];
    s.nextClientId := s.nextClientId + 1;
    r := Created(client);
  }

  /** PUT /clients/:id: an unknown id is `NotFound` and changes nothing; otherwise only that client
      changes, and only in the supplied fields. */
  method Update(s: Store, id: int, patch: ClientPatch) returns (r: Response<Client>)
    requires s.Valid()
    modifies s
    ensures s.Valid()
    ensures s.allocations == old(s.allocations) && s.assets == old(s.assets)
    ensures s.nextClientId == old(s.nextClientId)
    ensures s.nextAllocationId == old(s.nextAllocationId) && s.nextAssetId == old(s.nextAssetId)
    ensures !ValidPatch(patch) ==> r == BadRequest && s.clients == old(s.clients)
    ensures ValidPatch(patch) && !HasClient(old(s.clients), id) ==> r == NotFound && s.clients == old(s.clients)
    ensures ValidPatch(patch) && HasClient(old(s.clients), id) ==>
      && |s.clients| == |old(s.clients)|
      && (forall k :: 0 <= k < |s.clients| ==>
            s.clients[k] == if old(s.clients)[k].id == id then Patched(old(s.clients)[k], patch) else old(s.clients)[k])
      && r.Ok? && r.value.id == id && r.value in s.clients
  {
    if !ValidPatch(patch) {
      return BadRequest;
    }
    var found := IndexOfClient(s.clients, id);
    if found.None? {
      return NotFound;
    }
    var i := found.value;
    var updated := Patched(s.clients[i], patch);
    s.clients := s.clients[i := updated];
    r := Ok(updated);
  }

  /** DELETE /clients/:id: an unknown id is `NotFound` and changes nothing; otherwise every allocation
      of the client goes, then the client, and nothing else changes. */
  method Delete(s: Store, id: int) returns (r: Response<()>)
    requires s.Valid()
    modifies s
    ensures s.Valid()
    ensures s.assets == old(s.assets) && s.nextClientId == old(s.nextClientId)
    ensures s.nextAllocationId == old(s.nextAllocationId) && s.nextAssetId == old(s.nextAssetId)
    ensures !HasClient(old(s.clients), id) ==>
      r == NotFound && s.clients == old(s.clients) && s.allocations == old(s.allocations)
    ensures HasClient(old(s.clients), id) ==>
      && r == NoContent
      && s.allocations == Filter(old(s.allocations), ByClient(id), false)
      && s.clients == RemoveClient(old(s.clients), id)
      && !HasClient(s.clients, id)
      && (forall a :: a in s.allocations ==> a.clientId != id)
      && (forall a :: a in old(s.allocations) && a.clientId != id ==> a in s.allocations)
      && (forall c :: c in old(s.clients) && c.id != id ==> c in s.clients)
  {
    var found := IndexOfClient(s.clients, id);
    if found.None? {
      return NotFound;
    }
    var owned := Filter(s.allocations, ByClient(id), true);  // findFirst({ where: { clientId: id } })
    if owned != [] {
      FilterKeepsUnique(s.allocations, ByClient(id), false);
      s.allocations := Filter(s.allocations, ByClient(id), false);
    } else {
      NothingSelectedKeepsAll(s.allocations, ByClient(id));
    }
    RemoveClientKeepsUnique(s.clients, id);
    s.clients := RemoveClient(s.clients, id);
    r := NoContent;
  }
}
