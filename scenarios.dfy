/** Four request sequences, checked against the handlers' contracts alone. */
module Scenarios {
  import opened Responses
  import opened Store
  import ClientRoutes
  import AllocationRoutes
  import Seeds

  /** A new store after the seed script: the four listed assets under ids 1 to 4, nothing else. */
  method SeededStore() returns (s: Store)
    ensures fresh(s) && s.Valid()
    ensures s.clients == [] && s.allocations == [] && s.nextClientId == 1 && s.nextAllocationId == 1
    ensures |s.assets| == 4 && s.assets[0] == Asset(1, "Ação XYZ", 12.5) && s.nextAssetId == 5
  {
    s := new Store();
    Seeds.SeedIntoFreshTable(Seeds.AssetTable(s.assets, s.nextAssetId));
    Seeds.RunSeed(s);
  }

  /** Seed the assets, then create a client and an allocation of the first asset; repeating the
      allocation is a conflict. */
  method AllocationLifecycle() {
    var s := SeededStore();
    assert ClientRoutes.ValidEmail("ana@x.com") by { assert "ana@x.com"[3] == '@'; }
    var c := ClientRoutes.Create(s, "Ana", "ana@x.com", true);
    assert c == Created(Client(1, "Ana", "ana@x.com", true));

    var a1 := AllocationRoutes.Create(s, 1, 1, 10);
    assert a1 == Created(Allocation(1, 1, 1, 10));
    assert s.allocations == [Allocation(1, 1, 1, 10)];
    var a2 := AllocationRoutes.Create(s, 1, 1, 10);
    assert a2 == Conflict;
  }

  /** After seeding, an update reaches only a pair that has a row, and changes only its quantity. */
  method AllocationUpdate() {
    var s := SeededStore();
    assert ClientRoutes.ValidEmail("ana@x.com") by { assert "ana@x.com"[3] == '@'; }
    var c := ClientRoutes.Create(s, "Ana", "ana@x.com", true);
    var a := AllocationRoutes.Create(s, 1, 1, 10);
    assert s.allocations == [Allocation(1, 1, 1, 10)];

    var u1 := AllocationRoutes.Update(s, 1, 2, 5);
    assert u1 == NotFound;
    var u2 := AllocationRoutes.Update(s, 1, 1, 5);
    assert u2.Ok? && u2.value == Allocation(1, 1, 1, 5);
    assert s.allocations == [Allocation(1, 1, 1, 5)];
  }

  /** After seeding, deleting a client takes its allocations with it; listing them afterwards is `NotFound`. */
  method CascadingDelete() {
    var s := SeededStore();
    assert ClientRoutes.ValidEmail("ana@x.com") by { assert "ana@x.com"[3] == '@'; }
    var c := ClientRoutes.Create(s, "Ana", "ana@x.com", true);
    var a := AllocationRoutes.Create(s, 1, 1, 5);
    assert s.allocations == [Allocation(1, 1, 1, 5)];

    assert s.clients[0].id == 1;
    var d := ClientRoutes.Delete(s, 1);
    assert d == NoContent;
    assert [Allocation(1, 1, 1, 5)][1..] == [];
    assert s.allocations == [];
    var l := AllocationRoutes.List(s, 1, None, None);
    assert l == NotFound;
  }

  /** Page 2 of one client per page, out of three, is the second client, and there are three pages. */
  method SecondOfThreePages() {
    var s := new Store();
    assert ClientRoutes.ValidEmail("b@x.com") by { assert "b@x.com"[1] == '@'; }
    var c1 := ClientRoutes.Create(s, "A", "b@x.com", true);
    var c2 := ClientRoutes.Create(s, "B", "b@x.com", false);
    var c3 := ClientRoutes.Create(s, "C", "b@x.com", true);
    var l := ClientRoutes.List(s, Some(2), Some(1));
    assert l.Ok? && l.value.data == [Client(2, "B", "b@x.com", false)];
    assert l.value.meta.totalPages == 3;
  }
}
