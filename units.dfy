/**
 * The unit upsert `saveUnits` (src/ResidentParser.ts:1153-1206): every distinct non-blank unit
 * title of the batch that the store lacks is inserted active; the first stored unit carrying a
 * batch title is re-activated when it is inactive.
 */
module Units {
  import opened Wrappers
  import opened Text
  import opened Records
  import opened Db

  /** `f.unit_title && f.unit_title.trim().length`: the raw title is kept, not its trimmed form. */
  predicate ValidTitle(j: FeedRecord) {
    j.unitTitle != "" && Trim(j.unitTitle) != ""
  }

  function TitleOf(j: FeedRecord): string {
    j.unitTitle
  }

  /** `uniqUnitsInJSON`: the distinct valid titles of the batch, in order of first appearance. */
  function BatchTitles(rs: seq<FeedRecord>): (r: seq<string>)
    ensures Distinct(r)
    ensures forall t :: t in r <==> exists j :: j in rs && ValidTitle(j) && j.unitTitle == t
  {
    var valid := Filter(rs, ValidTitle);
    var titles := Map(valid, TitleOf);
    assert forall t :: t in titles <==> exists j :: j in valid && j.unitTitle == t by {
      forall t | t in titles ensures exists j :: j in valid && j.unitTitle == t {
        var i :| 0 <= i < |titles| && titles[i] == t;
        assert valid[i] in valid;
      }
      forall j | j in valid ensures j.unitTitle in titles {
        var i :| 0 <= i < |valid| && valid[i] == j;
        assert titles[i] == j.unitTitle;
      }
    }
    Dedup(titles)
  }

  function StoredTitles(units: seq<Unit>): set<string> {
    set u | u in units :: u.title
  }

  /** `unitsCreateList`: the batch titles without a stored unit. */
  function TitlesToCreate(rs: seq<FeedRecord>, units: seq<Unit>): (r: seq<string>)
    ensures Distinct(r)
    ensures forall t :: t in r <==> t in BatchTitles(rs) && t !in StoredTitles(units)
  {
    var stored := StoredTitles(units);
    FilterDistinct(BatchTitles(rs), t => t !in stored);
    Filter(BatchTitles(rs), t => t !in stored)
  }

  /** `commonUnits` (and `existingUnits`, which equals it): the batch titles already stored. */
  function CommonTitles(rs: seq<FeedRecord>, units: seq<Unit>): (r: seq<string>)
    ensures forall t :: t in r <==> t in BatchTitles(rs) && t in StoredTitles(units)
  {
    var stored := StoredTitles(units);
    Filter(BatchTitles(rs), t => t in stored)
  }

  /** `unitsToAdd`: one active unit of the community per title to create. */
  function UnitsToAdd(rs: seq<FeedRecord>, units: seq<Unit>, community: int): seq<Unit> {
    Map(TitlesToCreate(rs, units), (t: string) => Unit(0, community, t, 1))
  }

  /** `dbUnits.find(d => d.title == unitTitle)`. */
  function FirstWithTitle(units: seq<Unit>, t: string): (r: Option<Unit>)
    ensures r.Some? ==> r.value in units && r.value.title == t
    ensures r.None? <==> forall u :: u in units ==> u.title != t
  {
    if units == [] then None
    else if units[0].title == t then Some(units[0])
    else FirstWithTitle(units[1..], t)
  }

  /** The re-activation loop (src/ResidentParser.ts:1177-1187) over the titles seen so far. */
  function Reactivations(titles: seq<string>, units: seq<Unit>): seq<Unit> {
    if titles == [] then []
    else
      var r := Reactivations(titles[..|titles| - 1], units);
      match FirstWithTitle(units, titles[|titles| - 1])
      case Some(u) => if u.isActive == 0 then r + [u.(isActive := 1)] else r
      case None => r
  }

  method StageReactivations(titles: seq<string>, units: seq<Unit>) returns (toUpdate: seq<Unit>)
    ensures toUpdate == Reactivations(titles, units)
  {
    toUpdate := [];
    var i := 0;
    while i < |titles|
      invariant 0 <= i <= |titles|
      invariant toUpdate == Reactivations(titles[..i], units)
    {
      assert titles[..i + 1][..i] == titles[..i];
      var found := FirstWithTitle(units, titles[i]);
      if found.Some? {
        var u := found.value;
        if u.isActive == 0 {
          toUpdate := toUpdate + [u.(isActive := 1)];
        }
      }
      i := i + 1;
    }
    assert titles[..|titles|] == titles;
  }

  /** A stored unit is re-activated: it is inactive and is the first stored unit of a listed title. */
  predicate Reactivated(titles: seq<string>, units: seq<Unit>, u: Unit) {
    u.isActive == 0 && u.title in titles && FirstWithTitle(units, u.title) == Some(u)
  }

  /** The re-activation list holds, set active, exactly the re-activated stored units. */
  lemma {:induction false} ReactivationsExact(titles: seq<string>, units: seq<Unit>)
    ensures forall v :: v in Reactivations(titles, units) <==>
      exists u :: Reactivated(titles, units, u) && v == u.(isActive := 1)
  {
    if titles != [] {
      var init := titles[..|titles| - 1];
      var t := titles[|titles| - 1];
      ReactivationsExact(init, units);
      assert forall x :: x in titles <==> x in init || x == t;
      var r := Reactivations(titles, units);
      assert titles[..|titles| - 1] == init;
      assert forall v :: v in Reactivations(init, units) ==> v in r;
      forall v | v in r ensures exists u :: Reactivated(titles, units, u) && v == u.(isActive := 1) {
        if v !in Reactivations(init, units) {
          var u := FirstWithTitle(units, t).value;
          assert Reactivated(titles, units, u);
        }
      }
      forall u | Reactivated(titles, units, u) ensures u.(isActive := 1) in r {
        if u.title != t {
          assert Reactivated(init, units, u);
          assert u.(isActive := 1) in Reactivations(init, units);
        } else {
          assert FirstWithTitle(units, t) == Some(u);
          assert r == Reactivations(init, units) + [u.(isActive := 1)];
        }
      }
    }
  }

  predicate UniqueIds(units: seq<Unit>) {
    forall i, k :: 0 <= i < k < |units| ==> units[i].id != units[k].id
  }

  /** The rows `saveBulk` appends: the units to add, in reverse, under ids from `next` on. */
  function Added(rs: seq<FeedRecord>, units: seq<Unit>, community: int, next: int): seq<Unit> {
    Numbered(Reversed(UnitsToAdd(rs, units, community)), next, (u: Unit, k: int) => u.(id := k))
  }

  /** The appended units are active units of the community, one per title to create. */
  lemma AddedUnits(rs: seq<FeedRecord>, units: seq<Unit>, community: int, next: int)
    ensures var added := Added(rs, units, community, next);
      && |added| == |TitlesToCreate(rs, units)|
      && (forall n :: 0 <= n < |added| ==> added[n].isActive == 1 && added[n].community == community && added[n].id == next + n)
      && (forall t :: t in TitlesToCreate(rs, units) <==> exists n :: 0 <= n < |added| && added[n].title == t)
  {
    var created := TitlesToCreate(rs, units);
    var toAdd := UnitsToAdd(rs, units, community);
    var added := Added(rs, units, community, next);
    forall t | t in created ensures exists n :: 0 <= n < |added| && added[n].title == t {
      var m :| 0 <= m < |created| && created[m] == t;
      var n := |toAdd| - 1 - m;
      assert added[n].title == Reversed(toAdd)[n].title == toAdd[m].title;
    }
    forall n | 0 <= n < |added| ensures added[n].title in created {
      assert added[n].title == Reversed(toAdd)[n].title == toAdd[|toAdd| - 1 - n].title;
    }
  }

  /**
   * `updateBulk(['is_active'])` over the stored units and the appended ones: exactly the
   * re-activated stored units become active, every other column and row is left as it was.
   */
  lemma {:induction false} ReactivationOutcome(titles: seq<string>, units: seq<Unit>, added: seq<Unit>, next: int)
    requires UniqueIds(units)
    requires forall u :: u in units ==> u.id < next
    requires forall u :: u in added ==> u.id >= next
    ensures var r := Updated(units + added, Reactivations(titles, units), (u: Unit) => u.id, CopyIsActive);
      && (forall i :: 0 <= i < |units| ==>
            r[i] == if Reactivated(titles, units, units[i]) then units[i].(isActive := 1) else units[i])
      && r[|units|..] == added
  {
    var ups := Reactivations(titles, units);
    var all := units + added;
    var r := Updated(all, ups, (u: Unit) => u.id, CopyIsActive);
    ReactivationsExact(titles, units);
    forall i | 0 <= i < |units|
      ensures r[i] == if Reactivated(titles, units, units[i]) then units[i].(isActive := 1) else units[i]
    {
      assert all[i] == units[i];
      match LastFor(ups, (u: Unit) => u.id, units[i].id)
      case Some(v) => {
        var u :| Reactivated(titles, units, u) && v == u.(isActive := 1);
        var k :| 0 <= k < |units| && units[k] == u;
        assert k == i;
      }
      case None => {
        assert units[i].(isActive := 1) !in ups;
      }
    }
    forall i | |units| <= i < |r|
      ensures r[i] == added[i - |units|]
    {
      assert all[i] == added[i - |units|];
      assert all[i] in added;
      forall v | v in ups ensures v.id != all[i].id {
        var u :| Reactivated(titles, units, u) && v == u.(isActive := 1);
      }
    }
  }

  /** After the upsert, whatever keeps the titles of the stored and appended units stores every batch title. */
  lemma {:induction false} BatchTitlesStored(rs: seq<FeedRecord>, units: seq<Unit>, community: int, next: int, after: seq<Unit>)
    requires UnitsKept(units + Added(rs, units, community, next), after)
    ensures forall t :: t in BatchTitles(rs) ==> t in StoredTitles(after)
  {
    var added := Added(rs, units, community, next);
    var all := units + added;
    AddedUnits(rs, units, community, next);
    forall t | t in BatchTitles(rs) ensures t in StoredTitles(after) {
      if t in StoredTitles(units) {
        var i :| 0 <= i < |units| && units[i].title == t;
        assert all[i] == units[i];
        assert after[i].title == t;
        assert after[i] in after;
      } else {
        assert t in TitlesToCreate(rs, units);
        var n :| 0 <= n < |added| && added[n].title == t;
        assert all[|units| + n] == added[n];
        assert after[|units| + n].title == t;
        assert after[|units| + n] in after;
      }
    }
  }
}
