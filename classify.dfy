/**
 * The identity resolver of `sync` (src/ResidentParser.ts:166-192): the external account ids of the
 * stored profiles go into an ordered set; each feed record with a usable tenant id is EXISTING
 * when its id is still in the set (and the id is then removed), NEW otherwise.
 */
module Classification {
  import opened Wrappers
  import opened Records

  /** The ids the profile tree holds: every truthy `id_account` of a stored profile. */
  function TreeIds(ps: seq<Profile>): set<int> {
    set p | p in ps && p.idAccount.Some? && p.idAccount.value != 0 :: p.idAccount.value
  }

  /** Building the profile tree (src/ResidentParser.ts:167-173). */
  method BuildProfileTree(ps: seq<Profile>) returns (tree: set<int>)
    ensures forall id :: id in tree <==> id != 0 && exists p :: p in ps && p.idAccount == Some(id)
  {
    tree := {};
    var i := 0;
    while i < |ps|
      invariant 0 <= i <= |ps|
      invariant forall id :: id in tree <==> id != 0 && exists k :: 0 <= k < i && ps[k].idAccount == Some(id)
    {
      var p := ps[i];
      if p.idAccount.Some? && p.idAccount.value != 0 {
        tree := tree + {p.idAccount.value};
      }
      i := i + 1;
    }
  }

  /** The two partitions and what is left of the tree. */
  datatype Split = Split(toCreate: seq<FeedRecord>, toUpdate: seq<FeedRecord>, tree: set<int>)

  /** The classification loop as a function of the records seen so far. */
  function Partition(rs: seq<FeedRecord>, tree: set<int>): Split
    decreases |rs|
  {
    if rs == [] then Split([], [], tree)
    else
      var s := Partition(rs[..|rs| - 1], tree);
      var j := rs[|rs| - 1];
      if !HasTenant(j) then s
      else if TenantOf(j) in s.tree then Split(s.toCreate, s.toUpdate + [j], s.tree - {TenantOf(j)})
      else Split(s.toCreate + [j], s.toUpdate, s.tree)
  }

  /** The classification loop (src/ResidentParser.ts:175-192). */
  method Classify(rs: seq<FeedRecord>, tree0: set<int>) returns (toCreate: seq<FeedRecord>, toUpdate: seq<FeedRecord>)
    ensures Partition(rs, tree0) == Split(toCreate, toUpdate, Partition(rs, tree0).tree)
  {
    toCreate, toUpdate := [], [];
    var tree := tree0;
    var i := 0;
    while i < |rs|
      invariant 0 <= i <= |rs|
      invariant Partition(rs[..i], tree0) == Split(toCreate, toUpdate, tree)
    {
      var j := rs[i];
      assert rs[..i + 1][..i] == rs[..i];
      if HasTenant(j) {
        var accountId := j.tenantId.value;
        if accountId in tree {
          toUpdate := toUpdate + [j];
          tree := tree - {accountId};
        } else {
          toCreate := toCreate + [j];
        }
      }
      i := i + 1;
    }
    assert rs[..|rs|] == rs;
  }

  function Ids(rs: seq<FeedRecord>): set<int> {
    set r | r in rs :: TenantOf(r)
  }

  predicate DistinctIds(rs: seq<FeedRecord>) {
    forall a, b :: 0 <= a < b < |rs| ==> TenantOf(rs[a]) != TenantOf(rs[b])
  }

  function Usable(rs: seq<FeedRecord>): seq<FeedRecord> {
    Filter(rs, HasTenant)
  }

  /** The usable ids of the batch. */
  function BatchIds(rs: seq<FeedRecord>): set<int> {
    set r | r in rs && HasTenant(r) :: TenantOf(r)
  }

  /** The classification is an order-preserving split of exactly the records with a usable tenant id. */
  lemma {:induction false} PartitionSplitsBatch(rs: seq<FeedRecord>, tree: set<int>)
    ensures var s := Partition(rs, tree);
      && (forall r :: r in s.toCreate ==> HasTenant(r))
      && (forall r :: r in s.toUpdate ==> HasTenant(r))
      && multiset(s.toCreate) + multiset(s.toUpdate) == multiset(Usable(rs))
      && Subsequence(s.toCreate, Usable(rs)) && Subsequence(s.toUpdate, Usable(rs))
  {
    if rs != [] {
      var init := rs[..|rs| - 1];
      var j := rs[|rs| - 1];
      PartitionSplitsBatch(init, tree);
      var p := Partition(init, tree);
      assert Usable(rs) == if HasTenant(j) then Usable(init) + [j] else Usable(init);
      if HasTenant(j) {
        SubsequenceExtend(p.toCreate, Usable(init), j);
        SubsequenceExtend(p.toUpdate, Usable(init), j);
        if TenantOf(j) in p.tree {
          SubsequenceAppend(p.toUpdate, Usable(init), j);
        } else {
          SubsequenceAppend(p.toCreate, Usable(init), j);
        }
      }
    }
  }

  /**
   * EXISTING records carry distinct ids, each drawn from the profile tree, and the tree loses
   * exactly those ids; every tree id that occurs in the batch is classified EXISTING once.
   */
  lemma {:induction false} ExistingIdsOnce(rs: seq<FeedRecord>, tree: set<int>)
    ensures var s := Partition(rs, tree);
      && DistinctIds(s.toUpdate)
      && Ids(s.toUpdate) <= tree
      && s.tree == tree - Ids(s.toUpdate)
      && Ids(s.toUpdate) == tree * BatchIds(rs)
  {
    if rs != [] {
      var init := rs[..|rs| - 1];
      var j := rs[|rs| - 1];
      ExistingIdsOnce(init, tree);
      var p := Partition(init, tree);
      assert BatchIds(rs) == BatchIds(init) + (if HasTenant(j) then {TenantOf(j)} else {});
      if HasTenant(j) && TenantOf(j) in p.tree {
        assert Ids(p.toUpdate + [j]) == Ids(p.toUpdate) + {TenantOf(j)};
      }
    }
  }

  /** A record classified NEW whose id has a stored profile repeats an id classified EXISTING. */
  lemma {:induction false} RepeatsGoToNew(rs: seq<FeedRecord>, tree: set<int>)
    ensures var s := Partition(rs, tree);
      forall r :: r in s.toCreate && TenantOf(r) in tree ==> TenantOf(r) in Ids(s.toUpdate)
  {
    if rs != [] {
      var init := rs[..|rs| - 1];
      RepeatsGoToNew(init, tree);
      ExistingIdsOnce(init, tree);
      var j := rs[|rs| - 1];
      var p := Partition(init, tree);
      if HasTenant(j) && TenantOf(j) in p.tree {
        assert Ids(p.toUpdate + [j]) == Ids(p.toUpdate) + {TenantOf(j)};
      }
    }
  }
}
