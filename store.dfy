/** The relational store behind the handlers: the `Client`, `Asset` and
    `Allocation` tables, the queries the handlers issue against them, and
    the invariants the handlers are meant to keep.

    A table is a sequence of rows in the store's default (insertion) order,
    which is the order `findMany` hands them back in. Ids are assigned from
    one increasing counter per table, as an auto-increment column does. */
module Store {
  import opened Responses

  datatype Client = Client(id: int, name: string, email: string, status: bool)

  /** `price` is carried through unchanged; nothing here computes with it. */
  datatype Asset = Asset(id: int, name: string, price: real)

  datatype Allocation = Allocation(id: int, clientId: int, assetId: int, quantity: int)

  // ---------------------------------------------------------------- clients

  ghost predicate HasClient(clients: seq<Client>, id: int)
  {
    exists i :: 0 <= i < |clients| && clients[i].id == id
  }

  /** `client.findUnique({ where: { id } })`: the position of the client with that id. */
  function IndexOfClient(clients: seq<Client>, id: int): (r: Option<nat>)
    ensures r.None? <==> !HasClient(clients, id)
    ensures r.Some? ==> r.value < |clients| && clients[r.value].id == id
  {
    if clients == [] then None
    else if clients[0].id == id then Some(0)
    else
      match IndexOfClient(clients[1..], id)
      case None => None
      case Some(i) => Some(i + 1)
  }

  /** `client.delete({ where: { id } })`: the table without the client with that id. */
  function RemoveClient(clients: seq<Client>, id: int): (r: seq<Client>)
    ensures forall c :: c in r <==> c in clients && c.id != id
  {
    if clients == [] then []
    else if clients[0].id == id then RemoveClient(clients[1..], id)
    else [clients[0]] + RemoveClient(clients[1..], id)
  }

  ghost predicate UniqueClientIds(clients: seq<Client>)
  {
    forall i, j :: 0 <= i < j < |clients| ==> clients[i].id != clients[j].id
  }

  /** Ids unique, and all below the next id to be assigned. */
  ghost predicate ClientTableOk(clients: seq<Client>, nextId: int)
  {
    UniqueClientIds(clients) && forall c :: c in clients ==> c.id < nextId
  }

  lemma {:induction false} RemoveClientKeepsUnique(clients: seq<Client>, id: int)
    requires UniqueClientIds(clients)
    ensures UniqueClientIds(RemoveClient(clients, id))
  {
    if clients != [] {
      var tail := clients[1..];
      assert UniqueClientIds(tail) by {
        forall i, j | 0 <= i < j < |tail| ensures tail[i].id != tail[j].id {
          assert tail[i] == clients[i + 1] && tail[j] == clients[j + 1];
        }
      }
      RemoveClientKeepsUnique(tail, id);
      if clients[0].id != id {
        var rest := RemoveClient(tail, id);
        forall c | c in rest ensures c.id != clients[0].id {
          var j :| 0 <= j < |tail| && tail[j] == c;
          assert clients[j + 1] == c;
        }
        ConsKeepsUnique(clients[0], rest);
      }
    }
  }

  /** A client whose id no row has can go in front of a table with unique ids. */
  lemma ConsKeepsUnique(c: Client, rest: seq<Client>)
    requires UniqueClientIds(rest)
    requires forall d :: d in rest ==> d.id != c.id
    ensures UniqueClientIds([c] + rest)
  {
    var r := [c] + rest;
    forall i, j | 0 <= i < j < |r| ensures r[i].id != r[j].id {
      assert r[j] == rest[j - 1] && r[j] in rest;
      if i > 0 {
        assert r[i] == rest[i - 1];
      }
    }
  }

  // ------------------------------------------------------------ allocations

  /** The `where` argument of the allocation queries: by owning client, or by the composite key. */
  datatype AllocationWhere = ByClient(clientId: int) | ByPair(clientId: int, assetId: int)

  predicate Matches(w: AllocationWhere, a: Allocation)
  {
    match w
    case ByClient(c) => a.clientId == c
    case ByPair(c, s) => a.clientId == c && a.assetId == s
  }

  /** The rows, in table order, whose match against `w` is `keep`:
      `findMany`/`count` select with `keep`, `deleteMany` leaves the rows with `!keep`. */
  function Filter(rows: seq<Allocation>, w: AllocationWhere, keep: bool): (r: seq<Allocation>)
    ensures |r| <= |rows|
    ensures forall a :: a in r <==> a in rows && Matches(w, a) == keep
  {
    if rows == [] then []
    else if Matches(w, rows[0]) == keep then [rows[0]] + Filter(rows[1..], w, keep)
    else Filter(rows[1..], w, keep)
  }

  ghost predicate HasPair(rows: seq<Allocation>, clientId: int, assetId: int)
  {
    exists i :: 0 <= i < |rows| && rows[i].clientId == clientId && rows[i].assetId == assetId
  }

  /** `allocation.findUnique({ where: { clientId_assetId } })`: the position of the row with that key. */
  function IndexOfPair(rows: seq<Allocation>, clientId: int, assetId: int): (r: Option<nat>)
    ensures r.None? <==> !HasPair(rows, clientId, assetId)
    ensures r.Some? ==> r.value < |rows| && rows[r.value].clientId == clientId && rows[r.value].assetId == assetId
  {
    if rows == [] then None
    else if rows[0].clientId == clientId && rows[0].assetId == assetId then Some(0)
    else
      match IndexOfPair(rows[1..], clientId, assetId)
      case None => None
      case Some(i) => Some(i + 1)
  }

  /** `allocation.delete({ where: { clientId_assetId } })`: fails when there is no such row. */
  function DeletePair(rows: seq<Allocation>, clientId: int, assetId: int): (r: Option<seq<Allocation>>)
    ensures r.None? <==> !HasPair(rows, clientId, assetId)
    ensures r.Some? ==> r.value == Filter(rows, ByPair(clientId, assetId), false)
  {
    if IndexOfPair(rows, clientId, assetId).None? then None
    else Some(Filter(rows, ByPair(clientId, assetId), false))
  }

  /** No two rows share a (clientId, assetId) key. */
  ghost predicate UniquePairs(rows: seq<Allocation>)
  {
    forall i, j :: 0 <= i < j < |rows| ==>
      rows[i].clientId != rows[j].clientId || rows[i].assetId != rows[j].assetId
  }

  ghost predicate UniqueAllocationIds(rows: seq<Allocation>)
  {
    forall i, j :: 0 <= i < j < |rows| ==> rows[i].id != rows[j].id
  }

  /** One row per key, ids unique and below the next id, every quantity positive. */
  ghost predicate AllocationTableOk(rows: seq<Allocation>, nextId: int)
  {
    && UniquePairs(rows)
    && UniqueAllocationIds(rows)
    && forall a :: a in rows ==> a.id < nextId && a.quantity > 0
  }

  /** Removing rows keeps keys and ids unique. */
  lemma {:induction false} FilterKeepsUnique(rows: seq<Allocation>, w: AllocationWhere, keep: bool)
    requires UniquePairs(rows) && UniqueAllocationIds(rows)
    ensures UniquePairs(Filter(rows, w, keep)) && UniqueAllocationIds(Filter(rows, w, keep))
  {
    if rows != [] {
      var tail := rows[1..];
      assert UniquePairs(tail) && UniqueAllocationIds(tail) by {
        forall i, j | 0 <= i < j < |tail|
          ensures tail[i].clientId != tail[j].clientId || tail[i].assetId != tail[j].assetId
          ensures tail[i].id != tail[j].id
        {
          assert tail[i] == rows[i + 1] && tail[j] == rows[j + 1];
        }
      }
      FilterKeepsUnique(tail, w, keep);
      if Matches(w, rows[0]) == keep {
        var rest := Filter(tail, w, keep);
        forall a | a in rest
          ensures a.clientId != rows[0].clientId || a.assetId != rows[0].assetId
          ensures a.id != rows[0].id
        {
          var j :| 0 <= j < |tail| && tail[j] == a;
          assert rows[j + 1] == a;
        }
        var r := [rows[0]] + rest;
        forall i, j | 0 <= i < j < |r|
          ensures r[i].clientId != r[j].clientId || r[i].assetId != r[j].assetId
          ensures r[i].id != r[j].id
        {
          assert r[j] == rest[j - 1] && r[j] in rest;
          if i > 0 {
            assert r[i] == rest[i - 1];
          }
        }
      }
    }
  }

  /** `deleteMany` and `findMany` with the same `where` split the table between them. */
  lemma {:induction false} FilterSplits(rows: seq<Allocation>, w: AllocationWhere)
    ensures |Filter(rows, w, true)| + |Filter(rows, w, false)| == |rows|
  {
    if rows != [] {
      FilterSplits(rows[1..], w);
    }
  }

  /** When `findMany` selects nothing, `deleteMany` with the same `where` leaves the table as it was. */
  lemma {:induction false} NothingSelectedKeepsAll(rows: seq<Allocation>, w: AllocationWhere)
    requires Filter(rows, w, true) == []
    ensures Filter(rows, w, false) == rows
  {
    if rows != [] {
      NothingSelectedKeepsAll(rows[1..], w);
      assert rows == [rows[0]] + rows[1..];
    }
  }

  /** Under unique keys, a key selects at most one row, and exactly one when present. */
  lemma {:induction false} PairSelectsOne(rows: seq<Allocation>, clientId: int, assetId: int)
    requires UniquePairs(rows)
    ensures |Filter(rows, ByPair(clientId, assetId), true)| == if HasPair(rows, clientId, assetId) then 1 else 0
  {
    if rows != [] {
      var tail := rows[1..];
      assert UniquePairs(tail) by {
        forall i, j | 0 <= i < j < |tail|
          ensures tail[i].clientId != tail[j].clientId || tail[i].assetId != tail[j].assetId
        {
          assert tail[i] == rows[i + 1] && tail[j] == rows[j + 1];
        }
      }
      PairSelectsOne(tail, clientId, assetId);
      if rows[0].clientId == clientId && rows[0].assetId == assetId {
        forall j | 0 <= j < |tail| ensures tail[j].clientId != clientId || tail[j].assetId != assetId {
          assert rows[j + 1] == tail[j];
        }
      } else {
        if HasPair(rows, clientId, assetId) {
          var j :| 0 <= j < |rows| && rows[j].clientId == clientId && rows[j].assetId == assetId;
          assert tail[j - 1] == rows[j];
        }
        if HasPair(tail, clientId, assetId) {
          var j :| 0 <= j < |tail| && tail[j].clientId == clientId && tail[j].assetId == assetId;
          assert rows[j + 1] == tail[j];
        }
      }
    }
  }

  /** `allocation.update({ where: { clientId_assetId }, data: { quantity } })`: the row at `i` gets the new quantity. */
  function SetQuantity(rows: seq<Allocation>, i: nat, quantity: int): (r: seq<Allocation>)
    requires i < |rows|
    ensures |r| == |rows| && r[i].quantity == quantity
    ensures r[i].id == rows[i].id && r[i].clientId == rows[i].clientId && r[i].assetId == rows[i].assetId
    ensures forall k :: 0 <= k < |rows| && k != i ==> r[k] == rows[k]
  {
    rows[i := rows[i].(quantity := quantity)]
  }

  // ----------------------------------------------------------------- assets

  ghost predicate HasName(assets: seq<Asset>, name: string)
  {
    exists i :: 0 <= i < |assets| && assets[i].name == name
  }

  /** `asset.findUnique({ where: { name } })`: the position of the asset with that name. */
  function IndexOfName(assets: seq<Asset>, name: string): (r: Option<nat>)
    ensures r.None? <==> !HasName(assets, name)
    ensures r.Some? ==> r.value < |assets| && assets[r.value].name == name
  {
    if assets == [] then None
    else if assets[0].name == name then Some(0)
    else
      match IndexOfName(assets[1..], name)
      case None => None
      case Some(i) => Some(i + 1)
  }

  /** The asset an allocation row's `assetId` refers to, as `include: { asset: true }` joins it. */
  function AssetById(assets: seq<Asset>, id: int): (r: Option<Asset>)
    ensures r.Some? ==> r.value in assets && r.value.id == id
    ensures r.None? ==> forall a :: a in assets ==> a.id != id
  {
    if assets == [] then None
    else if assets[0].id == id then Some(assets[0])
    else AssetById(assets[1..], id)
  }

  ghost predicate UniqueAssetNames(assets: seq<Asset>)
  {
    forall i, j :: 0 <= i < j < |assets| ==> assets[i].name != assets[j].name
  }

  ghost predicate UniqueAssetIds(assets: seq<Asset>)
  {
    forall i, j :: 0 <= i < j < |assets| ==> assets[i].id != assets[j].id
  }

  /** Names unique (the upsert key), ids unique and below the next id. */
  ghost predicate AssetTableOk(assets: seq<Asset>, nextId: int)
  {
    UniqueAssetNames(assets) && UniqueAssetIds(assets) && forall a :: a in assets ==> a.id < nextId
  }

  // ------------------------------------------------------------ the handle

  /** The store handle the handlers and the seed script share. */
  class Store {
    var clients: seq<Client>
    var allocations: seq<Allocation>
    var assets: seq<Asset>
    var nextClientId: int
    var nextAllocationId: int
    var nextAssetId: int

    ghost predicate Valid()
      reads this
    {
      && ClientTableOk(clients, nextClientId)
      && AllocationTableOk(allocations, nextAllocationId)
      && AssetTableOk(assets, nextAssetId)
    }

    /** An empty store; auto-increment ids start at 1. */
    constructor ()
      ensures Valid()
      ensures clients == [] && allocations == [] && assets == []
      ensures nextClientId == 1 && nextAllocationId == 1 && nextAssetId == 1
    {
      clients, allocations, assets := [], [], [];
      nextClientId, nextAllocationId, nextAssetId := 1, 1, 1;
    }
  }
}
