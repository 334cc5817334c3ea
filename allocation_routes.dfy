/** The `/clients/:id/allocations` handlers (src/routes/allocation.ts):
    the per-client list joined with asset details, create with a conflict
    check on the composite key, quantity update, and delete by key.

    An allocation row is identified by its (clientId, assetId) pair; the
    handlers keep "at most one row per pair, every quantity positive". */
module AllocationRoutes {
  import opened Responses
  import opened Pagination
  import opened Store

  /** One item of the list response: the row with its asset joined in. `asset` is `None` only for a
      row whose assetId names no asset, which the store's foreign key would have refused. */
  datatype AllocationView = AllocationView(id: int, asset: Option<Asset>, quantity: int, clientId: int)

  /** The response's `.map` over the page of rows, joining each with its asset. */
  function Views(rows: seq<Allocation>, assets: seq<Asset>): (r: seq<AllocationView>)
    ensures |r| == |rows|
    ensures forall k :: 0 <= k < |rows| ==>
      && r[k].id == rows[k].id && r[k].clientId == rows[k].clientId && r[k].quantity == rows[k].quantity
      && (r[k].asset.Some? ==> r[k].asset.value in assets && r[k].asset.value.id == rows[k].assetId)
      && (r[k].asset.None? ==> forall a :: a in assets ==> a.id != rows[k].assetId)
  {
    seq(|rows|, k requires 0 <= k < |rows| =>
      AllocationView(rows[k].id, AssetById(assets, rows[k].assetId), rows[k].quantity, rows[k].clientId))
  }

  /** The schema of the create and update bodies: `quantity` a positive integer. */
  predicate ValidQuantity(quantity: int)
  {
    quantity > 0
  }

  /** GET /clients/:id/allocations: `NotFound` for an unknown client; otherwise one window of that
      client's rows, in table order, and the count of all of them. */
  method List(s: Store, id: int, page: Option<int>, perPage: Option<int>) returns (r: Response<Page<AllocationView>>)
    ensures var pg, pp := OrDefault(page, DefaultPage), OrDefault(perPage, DefaultPerPage);
      && (!ValidQuery(pg, pp) ==> r == BadRequest)
      && (ValidQuery(pg, pp) && !HasClient(s.clients, id) ==> r == NotFound)
      && (ValidQuery(pg, pp) && HasClient(s.clients, id) ==>
            var owned := Filter(s.allocations, ByClient(id), true);
            var rows := PageOf(owned, pg, pp);
            && r == Ok(Page(Views(rows.data, s.assets), rows.meta))
            && |r.value.data| <= pp
            && (forall v :: v in r.value.data ==> v.clientId == id)
            && r.value.meta.total == |owned|
            && r.value.meta.totalPages == TotalPages(|owned|, pp))
  {
    var pg := OrDefault(page, DefaultPage);
    var pp := OrDefault(perPage, DefaultPerPage);
    if !ValidQuery(pg, pp) {
      return BadRequest;
    }
    var client := IndexOfClient(s.clients, id);
    if client.None? {
      return NotFound;
    }
    var owned := Filter(s.allocations, ByClient(id), true);
    var rows := Window(owned, Skip(pg, pp), pp);
    var total := |owned|;
    var data := Views(rows, s.assets);
    forall v | v in data ensures v.clientId == id {
      var k :| 0 <= k < |data| && data[k] == v;
      assert rows[k] in owned;
    }
    r := Ok(Page(data, Meta(pg, pp, total, TotalPages(total, pp))));
  }

  /** POST /clients/:id/allocations: `Conflict` when the pair already has a row; otherwise exactly one
      row is added, with the given key and quantity, and the key stays unique. */
  method Create(s: Store, clientId: int, assetId: int, quantity: int) returns (r: Response<Allocation>)
    requires s.Valid()
    modifies s
    ensures s.Valid()
    ensures s.clients == old(s.clients) && s.assets == old(s.assets)
    ensures s.nextClientId == old(s.nextClientId) && s.nextAssetId == old(s.nextAssetId)
    ensures !ValidQuantity(quantity) ==>
      r == BadRequest && s.allocations == old(s.allocations) && s.nextAllocationId == old(s.nextAllocationId)
    ensures ValidQuantity(quantity) && HasPair(old(s.allocations), clientId, assetId) ==>
      r == Conflict && s.allocations == old(s.allocations) && s.nextAllocationId == old(s.nextAllocationId)
    ensures ValidQuantity(quantity) && !HasPair(old(s.allocations), clientId, assetId) ==>
      && r == Created(Allocation(old(s.nextAllocationId), clientId, assetId, quantity))
      && s.allocations == old(s.allocations) + [r.value]
      && s.nextAllocationId == old(s.nextAllocationId) + 1
      && |Filter(s.allocations, ByPair(clientId, assetId), true)| == 1
  {
    if !ValidQuantity(quantity) {
      return BadRequest;
    }
    var existing := IndexOfPair(s.allocations, clientId, assetId);
    if existing.Some? {
      return Conflict;
    }
    var row := Allocation(s.nextAllocationId, clientId, assetId, quantity);
    s.allocations := s.allocations + [row];
    s.nextAllocationId := s.nextAllocationId + 1;
    assert s.allocations[|s.allocations| - 1] == row;
    assert UniquePairs(s.allocations);
    PairSelectsOne(s.allocations, clientId, assetId);
    r := Created(row);
  }

  /** PUT /clients/:id/allocations/:assetId: `NotFound` when the pair has no row; otherwise only that
      row's quantity changes. */
  method Update(s: Store, clientId: int, assetId: int, quantity: int) returns (r: Response<Allocation>)
    requires s.Valid()
    modifies s
    ensures s.Valid()
    ensures s.clients == old(s.clients) && s.assets == old(s.assets)
    ensures s.nextClientId == old(s.nextClientId) && s.nextAssetId == old(s.nextAssetId)
    ensures s.nextAllocationId == old(s.nextAllocationId)
    ensures !ValidQuantity(quantity) ==> r == BadRequest && s.allocations == old(s.allocations)
    ensures ValidQuantity(quantity) && !HasPair(old(s.allocations), clientId, assetId) ==>
      r == NotFound && s.allocations == old(s.allocations)
    ensures ValidQuantity(quantity) && HasPair(old(s.allocations), clientId, assetId) ==>
      && |s.allocations| == |old(s.allocations)|
      && (forall k :: 0 <= k < |s.allocations| ==>
            s.allocations[k] ==
              if Matches(ByPair(clientId, assetId), old(s.allocations)[k])
              then old(s.allocations)[k].(quantity := quantity)
              else old(s.allocations)[k])
      && r.Ok? && r.value in s.allocations
      && r.value.clientId == clientId && r.value.assetId == assetId && r.value.quantity == quantity
  {
    if !ValidQuantity(quantity) {
      return BadRequest;
    }
    var found := IndexOfPair(s.allocations, clientId, assetId);
    if found.None? {
      return NotFound;
    }
    var i := found.value;
    s.allocations := SetQuantity(s.allocations, i, quantity);
    r := Ok(s.allocations[i]);
  }

  /** DELETE /clients/:clientId/allocations/:assetId: removes exactly the row with that key. There is
      no existence check, so an absent key makes the store call fail: `StoreError`, not `NotFound`. */
  method Delete(s: Store, clientId: int, assetId: int) returns (r: Response<()>)
    requires s.Valid()
    modifies s
    ensures s.Valid()
    ensures s.clients == old(s.clients) && s.assets == old(s.assets)
    ensures s.nextClientId == old(s.nextClientId) && s.nextAssetId == old(s.nextAssetId)
    ensures s.nextAllocationId == old(s.nextAllocationId)
    ensures !HasPair(old(s.allocations), clientId, assetId) ==>
      r == StoreError && s.allocations == old(s.allocations)
    ensures HasPair(old(s.allocations), clientId, assetId) ==>
      && r == NoContent
      && s.allocations == Filter(old(s.allocations), ByPair(clientId, assetId), false)
      && |s.allocations| == |old(s.allocations)| - 1
      && !HasPair(s.allocations, clientId, assetId)
  {
    match DeletePair(s.allocations, clientId, assetId)
    case None =>
      r := StoreError;
    case Some(rest) =>
      FilterKeepsUnique(s.allocations, ByPair(clientId, assetId), false);
      FilterSplits(s.allocations, ByPair(clientId, assetId));
      PairSelectsOne(s.allocations, clientId, assetId);
      s.allocations := rest;
      r := NoContent;
  }
}
