/** The seed script (prisma/seeds.ts): insert each listed asset unless an
    asset with its name already exists. The upsert's update part is empty,
    so an existing asset is left exactly as it was, and running the script
    again changes nothing. */
module Seeds {
  import opened Store

  /** One entry of the seed list: what `create` writes, the id being assigned by the store. */
  datatype AssetInput = AssetInput(name: string, price: real)

  /** The script's seed list. */
  const SeedAssets: seq<AssetInput> := [
    AssetInput("Ação XYZ", 12.5),
    AssetInput("Fundo AFC", 118.3),
    AssetInput("Ação LNM", 1000.0),
    AssetInput("Fundo LKY", 2.75)
  ]

  /** The asset table with its next auto-increment id. */
  datatype AssetTable = AssetTable(rows: seq<Asset>, nextId: int)

  ghost predicate NamedIn(xs: seq<AssetInput>, name: string)
  {
    exists i :: 0 <= i < |xs| && xs[i].name == name
  }

  /** `asset.upsert({ where: { name }, update: {}, create })`: an absent name is appended under the
      next id; a present one leaves the table as it is. Names and ids stay unique. */
  function Upsert(t: AssetTable, x: AssetInput): (r: AssetTable)
    ensures HasName(t.rows, x.name) ==> r == t
    ensures !HasName(t.rows, x.name) ==>
      r == AssetTable(t.rows + [Asset(t.nextId, x.name, x.price)], t.nextId + 1)
    ensures HasName(r.rows, x.name)
    ensures AssetTableOk(t.rows, t.nextId) ==> AssetTableOk(r.rows, r.nextId)
  {
    if IndexOfName(t.rows, x.name).Some? then t
    else
      var r := AssetTable(t.rows + [Asset(t.nextId, x.name, x.price)], t.nextId + 1);
      assert r.rows[|t.rows|].name == x.name;
      r
  }

  /** The table after the script's loop has upserted every input, in order. */
  function SeedFold(t: AssetTable, xs: seq<AssetInput>): (r: AssetTable)
    ensures |t.rows| <= |r.rows| <= |t.rows| + |xs|
    ensures r.nextId == t.nextId + (|r.rows| - |t.rows|)
  {
    if xs == [] then t else Upsert(SeedFold(t, xs[..|xs| - 1]), xs[|xs| - 1])
  }

  /** The loop over the seed list, one upsert per entry; the other tables are not touched. */
  method Seed(s: Store, seeds: seq<AssetInput>)
    requires s.Valid()
    modifies s
    ensures s.Valid()
    ensures AssetTable(s.assets, s.nextAssetId) == SeedFold(AssetTable(old(s.assets), old(s.nextAssetId)), seeds)
    ensures s.clients == old(s.clients) && s.allocations == old(s.allocations)
    ensures s.nextClientId == old(s.nextClientId) && s.nextAllocationId == old(s.nextAllocationId)
  {
    for i := 0 to |seeds|
      invariant AssetTable(s.assets, s.nextAssetId) == SeedFold(AssetTable(old(s.assets), old(s.nextAssetId)), seeds[..i])
      invariant s.Valid()
      invariant s.clients == old(s.clients) && s.allocations == old(s.allocations)
      invariant s.nextClientId == old(s.nextClientId) && s.nextAllocationId == old(s.nextAllocationId)
    {
      assert seeds[..i + 1][..i] == seeds[..i];
      var t := Upsert(AssetTable(s.assets, s.nextAssetId), seeds[i]);
      s.assets, s.nextAssetId := t.rows, t.nextId;
    }
    assert seeds[..|seeds|] == seeds;
  }

  /** The script's `main`: seed the fixed list. Afterwards every listed name is present. */
  method RunSeed(s: Store)
    requires s.Valid()
    modifies s
    ensures s.Valid()
    ensures AssetTable(s.assets, s.nextAssetId) == SeedFold(AssetTable(old(s.assets), old(s.nextAssetId)), SeedAssets)
    ensures forall x :: x in SeedAssets ==> HasName(s.assets, x.name)
    ensures old(s.assets) <= s.assets
    ensures s.clients == old(s.clients) && s.allocations == old(s.allocations)
    ensures s.nextClientId == old(s.nextClientId) && s.nextAllocationId == old(s.nextAllocationId)
  {
    ghost var before := AssetTable(s.assets, s.nextAssetId);
    Seed(s, SeedAssets);
    SeedAddsEveryName(before, SeedAssets);
    SeedKeepsExisting(before, SeedAssets);
  }

  /** The script's four names are distinct. */
  lemma SeedNamesDistinct()
    ensures forall i, j :: 0 <= i < j < |SeedAssets| ==> SeedAssets[i].name != SeedAssets[j].name
  {
    var xs := SeedAssets;
    assert xs[0].name != xs[1].name by { assert xs[0].name[0] != xs[1].name[0]; }
    assert xs[0].name != xs[2].name by { assert xs[0].name[5] != xs[2].name[5]; }
    assert xs[0].name != xs[3].name by { assert xs[0].name[0] != xs[3].name[0]; }
    assert xs[1].name != xs[2].name by { assert xs[1].name[0] != xs[2].name[0]; }
    assert xs[1].name != xs[3].name by { assert xs[1].name[6] != xs[3].name[6]; }
    assert xs[2].name != xs[3].name by { assert xs[2].name[0] != xs[3].name[0]; }
  }

  /** Seeding a table that holds none of the four names appends all four, in list order, under the
      next four ids. */
  lemma SeedIntoFreshTable(t: AssetTable)
    requires forall i :: 0 <= i < |SeedAssets| ==> !HasName(t.rows, SeedAssets[i].name)
    ensures SeedFold(t, SeedAssets) == AssetTable(t.rows + Inserted(SeedAssets, t.nextId), t.nextId + 4)
  {
    SeedNamesDistinct();
    SeedOfFreshNames(t, SeedAssets);
  }

  /** The rows that inserting every entry of `xs` appends, numbered from `id`. */
  function Inserted(xs: seq<AssetInput>, id: int): seq<Asset>
  {
    seq(|xs|, i requires 0 <= i < |xs| => Asset(id + i, xs[i].name, xs[i].price))
  }

  /** Entries with distinct names, none of them in the table, are all appended in list order under
      consecutive ids. */
  lemma {:induction false} SeedOfFreshNames(t: AssetTable, xs: seq<AssetInput>)
    requires forall i, j :: 0 <= i < j < |xs| ==> xs[i].name != xs[j].name
    requires forall i :: 0 <= i < |xs| ==> !HasName(t.rows, xs[i].name)
    ensures SeedFold(t, xs) == AssetTable(t.rows + Inserted(xs, t.nextId), t.nextId + |xs|)
  {
    if xs != [] {
      var n := |xs| - 1;
      var prefix, id := xs[..n], t.nextId;
      var mid := AssetTable(t.rows + Inserted(prefix, id), id + n);
      assert SeedFold(t, prefix) == mid by {
        forall i, j | 0 <= i < j < |prefix| ensures prefix[i].name != prefix[j].name {
          assert prefix[i] == xs[i] && prefix[j] == xs[j];
        }
        forall i | 0 <= i < |prefix| ensures !HasName(t.rows, prefix[i].name) {
          assert prefix[i] == xs[i];
        }
        SeedOfFreshNames(t, prefix);
      }
      assert Upsert(mid, xs[n]) == AssetTable(t.rows + Inserted(xs, id), id + n + 1) by {
        assert !HasName(t.rows, xs[n].name);
        assert forall i :: 0 <= i < n ==> xs[i].name != xs[n].name;
        UpsertFreshName(t.rows, id, xs);
      }
    } else {
      assert Inserted(xs, t.nextId) == [];
    }
  }

  /** The inductive step of `SeedOfFreshNames`: a last entry whose name is new is appended after the
      rows inserted for the entries before it. */
  lemma UpsertFreshName(base: seq<Asset>, id: int, xs: seq<AssetInput>)
    requires xs != []
    requires !HasName(base, xs[|xs| - 1].name)
    requires forall i :: 0 <= i < |xs| - 1 ==> xs[i].name != xs[|xs| - 1].name
    ensures Upsert(AssetTable(base + Inserted(xs[..|xs| - 1], id), id + |xs| - 1), xs[|xs| - 1])
         == AssetTable(base + Inserted(xs, id), id + |xs|)
  {
    var n := |xs| - 1;
    var added := Inserted(xs[..n], id);
    var rows := base + added;
    assert !HasName(rows, xs[n].name) by {
      forall k | 0 <= k < |rows| ensures rows[k].name != xs[n].name {
        if k >= |base| {
          assert rows[k] == added[k - |base|];
        }
      }
    }
    var last := Asset(id + n, xs[n].name, xs[n].price);
    InsertedSnoc(xs, id);
    assert rows + [last] == base + (added + [last]);
  }

  /** The rows for one more entry are the rows so far plus that entry's row. */
  lemma InsertedSnoc(xs: seq<AssetInput>, id: int)
    requires xs != []
    ensures Inserted(xs, id) == Inserted(xs[..|xs| - 1], id) + [Asset(id + |xs| - 1, xs[|xs| - 1].name, xs[|xs| - 1].price)]
  {
    var n := |xs| - 1;
    var lhs, rhs := Inserted(xs, id), Inserted(xs[..n], id) + [Asset(id + n, xs[n].name, xs[n].price)];
    assert |lhs| == |rhs|;
    forall k | 0 <= k < |lhs| ensures lhs[k] == rhs[k] {
      if k < n {
        assert xs[..n][k] == xs[k];
      }
    }
  }

  /** After the loop every seed name is in the table. */
  lemma {:induction false} SeedAddsEveryName(t: AssetTable, xs: seq<AssetInput>)
    ensures forall x :: x in xs ==> HasName(SeedFold(t, xs).rows, x.name)
  {
    if xs != [] {
      var prefix := xs[..|xs| - 1];
      var mid := SeedFold(t, prefix);
      SeedAddsEveryName(t, prefix);
      forall x | x in xs ensures HasName(SeedFold(t, xs).rows, x.name) {
        if x != xs[|xs| - 1] {
          var j :| 0 <= j < |xs| && xs[j] == x;
          assert prefix[j] == x;
          var i :| 0 <= i < |mid.rows| && mid.rows[i].name == x.name;
          assert SeedFold(t, xs).rows[i] == mid.rows[i];
        }
      }
    }
  }

  /** Rows already in the table stay exactly where and as they were; every row added carries a seed
      name that was absent before. */
  lemma {:induction false} SeedKeepsExisting(t: AssetTable, xs: seq<AssetInput>)
    ensures t.rows <= SeedFold(t, xs).rows
    ensures forall k :: |t.rows| <= k < |SeedFold(t, xs).rows| ==>
      NamedIn(xs, SeedFold(t, xs).rows[k].name) && !HasName(t.rows, SeedFold(t, xs).rows[k].name)
  {
    if xs != [] {
      var prefix := xs[..|xs| - 1];
      var mid := SeedFold(t, prefix);
      var r := SeedFold(t, xs);
      SeedKeepsExisting(t, prefix);
      forall k | |t.rows| <= k < |r.rows|
        ensures NamedIn(xs, r.rows[k].name) && !HasName(t.rows, r.rows[k].name)
      {
        if k < |mid.rows| {
          assert r.rows[k] == mid.rows[k];
          var i :| 0 <= i < |prefix| && prefix[i].name == mid.rows[k].name;
          assert xs[i] == prefix[i];
        } else {
          assert r.rows[k].name == xs[|xs| - 1].name;
          forall i | 0 <= i < |t.rows| ensures t.rows[i].name != r.rows[k].name {
            assert mid.rows[i] == t.rows[i];
          }
        }
      }
    }
  }

  /** Upserting names that are all present already changes nothing. */
  lemma {:induction false} SeedOfPresentNamesIsNoop(t: AssetTable, xs: seq<AssetInput>)
    requires forall x :: x in xs ==> HasName(t.rows, x.name)
    ensures SeedFold(t, xs) == t
  {
    if xs != [] {
      var prefix := xs[..|xs| - 1];
      forall x | x in prefix ensures HasName(t.rows, x.name) {
        var j :| 0 <= j < |prefix| && prefix[j] == x;
        assert xs[j] == x;
      }
      SeedOfPresentNamesIsNoop(t, prefix);
    }
  }

  /** Running the seed twice gives the same table as running it once. */
  lemma SeedIdempotent(t: AssetTable, xs: seq<AssetInput>)
    ensures SeedFold(SeedFold(t, xs), xs) == SeedFold(t, xs)
  {
    SeedAddsEveryName(t, xs);
    SeedOfPresentNamesIsNoop(SeedFold(t, xs), xs);
  }

  /** Names and ids stay unique and ids below the counter. */
  lemma {:induction false} SeedKeepsTableOk(t: AssetTable, xs: seq<AssetInput>)
    requires AssetTableOk(t.rows, t.nextId)
    ensures AssetTableOk(SeedFold(t, xs).rows, SeedFold(t, xs).nextId)
  {
    if xs != [] {
      SeedKeepsTableOk(t, xs[..|xs| - 1]);
    }
  }
}
