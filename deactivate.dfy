/**
 * The deactivation pass `deactivateUsers` (src/ResidentParser.ts:560-677). The records that name a
 * unit by id and title are matched to a stored unit (by title) and a stored user (by external
 * account id); every unit membership outside the matched (unit, user) pairs is deleted, and every
 * profile with an external account id whose user was not matched is soft-deleted and has its
 * contracts deactivated, unless the user belongs to an administrative group.
 */
module Deactivation {
  import opened Wrappers
  import opened Records
  import opened Units
  import opened Db

  /** `_.filter(inputUsers, j => j.unit_id && j.unit_title)`. */
  predicate NamesUnit(j: FeedRecord) {
    j.unitId != "" && j.unitTitle != ""
  }

  /** The external ids the pass looks users up by: the present tenant ids of the records. */
  function AccountIdsOf(rs: seq<FeedRecord>): set<int> {
    set j | j in rs && j.tenantId.Some? :: j.tenantId.value
  }

  /** One record matched to a unit and a user. */
  datatype UnitUser = UnitUser(title: string, idUnit: int, idUser: int, account: Option<int>)

  /** The matching loop (src/ResidentParser.ts:580-597) over the records seen so far. */
  function Matched(units: seq<Unit>, ups: seq<UserProfile>, rs: seq<FeedRecord>): seq<UnitUser> {
    if rs == [] then []
    else
      var m := Matched(units, ups, rs[..|rs| - 1]);
      var j := rs[|rs| - 1];
      match FirstWithTitle(units, j.unitTitle)
      case None => m
      case Some(unit) =>
        match UserOfAccount(ups, j.tenantId)
        case None => m
        case Some(user) => m + [UnitUser(j.unitTitle, unit.id, user.userId, j.tenantId)]
  }

  method MatchUnitUsers(units: seq<Unit>, ups: seq<UserProfile>, rs: seq<FeedRecord>) returns (matched: seq<UnitUser>)
    ensures matched == Matched(units, ups, rs)
  {
    matched := [];
    var i := 0;
    while i < |rs|
      invariant 0 <= i <= |rs|
      invariant matched == Matched(units, ups, rs[..i])
    {
      assert rs[..i + 1][..i] == rs[..i];
      var j := rs[i];
      var unit := FirstWithTitle(units, j.unitTitle);
      var user := UserOfAccount(ups, j.tenantId);
      if unit.Some? && user.Some? {
        matched := matched + [UnitUser(j.unitTitle, unit.value.id, user.value.userId, j.tenantId)];
      }
      i := i + 1;
    }
    assert rs[..|rs|] == rs;
  }

  /** A record's match: the first unit of its title and the first user of its account id. */
  predicate MatchOf(units: seq<Unit>, ups: seq<UserProfile>, j: FeedRecord, m: UnitUser) {
    FirstWithTitle(units, j.unitTitle).Some? && UserOfAccount(ups, j.tenantId).Some?
      && m == UnitUser(j.unitTitle, FirstWithTitle(units, j.unitTitle).value.id,
                       UserOfAccount(ups, j.tenantId).value.userId, j.tenantId)
  }

  /**
   * The matches are exactly those of the records having both a unit of their title and a user of
   * their account id; each names a stored unit of the record's title and a stored user of its id.
   */
  lemma {:induction false} MatchedExact(units: seq<Unit>, ups: seq<UserProfile>, rs: seq<FeedRecord>)
    ensures |Matched(units, ups, rs)| <= |rs|
    ensures forall m :: m in Matched(units, ups, rs) <==> exists j :: j in rs && MatchOf(units, ups, j, m)
    ensures forall m :: m in Matched(units, ups, rs) ==>
      (exists u :: u in units && u.id == m.idUnit && u.title == m.title)
      && (exists v :: v in ups && v.userId == m.idUser && SameAccount(v.idAccount, m.account))
  {
    if rs != [] {
      var init := rs[..|rs| - 1];
      var j := rs[|rs| - 1];
      MatchedExact(units, ups, init);
      assert forall x :: x in rs <==> x in init || x == j;
      var mi := Matched(units, ups, init);
      assert forall m :: m in Matched(units, ups, rs) <==> m in mi || MatchOf(units, ups, j, m) by {
        match FirstWithTitle(units, j.unitTitle)
        case None =>
        case Some(unit) =>
          match UserOfAccount(ups, j.tenantId)
          case None =>
          case Some(user) =>
            assert Matched(units, ups, rs) == mi + [UnitUser(j.unitTitle, unit.id, user.userId, j.tenantId)];
      }
      forall m ensures m in Matched(units, ups, rs) <==> exists j' :: j' in rs && MatchOf(units, ups, j', m) {
        if m in mi {
          var j' :| j' in init && MatchOf(units, ups, j', m);
          assert j' in rs;
        }
        if exists j' :: j' in rs && MatchOf(units, ups, j', m) {
          var j' :| j' in rs && MatchOf(units, ups, j', m);
          if j' in init {
            assert m in mi;
          }
        }
      }
    }
  }

  /** Some match pairs the membership's unit with its user. */
  predicate HasPair(matched: seq<UnitUser>, u: UnitProfile) {
    exists m :: m in matched && m.idUnit == u.idUnit && m.idUser == u.idUser
  }

  /** `jDbUnitUsers.find(f => f.id_unit == db.id_unit && f.id_user == db.id_user)`. */
  function PairIn(matched: seq<UnitUser>, u: UnitProfile): (r: bool)
    ensures r <==> HasPair(matched, u)
  {
    if matched == [] then false
    else if matched[0].idUnit == u.idUnit && matched[0].idUser == u.idUser then true
    else
      assert forall m :: m in matched <==> m == matched[0] || m in matched[1..];
      PairIn(matched[1..], u)
  }

  /** The removal loop (src/ResidentParser.ts:607-617) over the memberships seen so far. */
  function Removals(ups: seq<UnitProfile>, matched: seq<UnitUser>): seq<int> {
    if ups == [] then []
    else
      var r := Removals(ups[..|ups| - 1], matched);
      var u := ups[|ups| - 1];
      if PairIn(matched, u) then r else r + [u.id]
  }

  method UnitProfilesToRemove(ups: seq<UnitProfile>, matched: seq<UnitUser>) returns (ids: seq<int>)
    ensures ids == Removals(ups, matched)
  {
    ids := [];
    var i := 0;
    while i < |ups|
      invariant 0 <= i <= |ups|
      invariant ids == Removals(ups[..i], matched)
    {
      assert ups[..i + 1][..i] == ups[..i];
      var db := ups[i];
      if !PairIn(matched, db) {
        ids := ids + [db.id];
      }
      i := i + 1;
    }
    assert ups[..|ups|] == ups;
  }

  /** The removal list holds exactly the ids of the memberships no match pairs. */
  lemma {:induction false} RemovalsExact(ups: seq<UnitProfile>, matched: seq<UnitUser>)
    ensures forall id :: id in Removals(ups, matched) <==> exists u :: u in ups && u.id == id && !HasPair(matched, u)
  {
    if ups != [] {
      var init := ups[..|ups| - 1];
      RemovalsExact(init, matched);
      assert forall x :: x in ups <==> x in init || x == ups[|ups| - 1];
    }
  }

  predicate UniqueMembershipIds(ups: seq<UnitProfile>) {
    forall a, b :: 0 <= a < b < |ups| ==> ups[a].id != ups[b].id
  }

  /**
   * With distinct membership ids, `hardDeleteUnitProfilesByIDs` of the removal list keeps exactly
   * the memberships whose (unit, user) pair was matched.
   */
  lemma KeptIffMatched(ups: seq<UnitProfile>, matched: seq<UnitUser>)
    requires UniqueMembershipIds(ups)
    ensures forall u :: u in ups && u.id !in Removals(ups, matched) <==> u in ups && HasPair(matched, u)
  {
    var ids := Removals(ups, matched);
    RemovalsExact(ups, matched);
    forall u | u in ups && HasPair(matched, u) ensures u.id !in ids {
      forall v | v in ups && v.id == u.id ensures v == u {
        var a :| 0 <= a < |ups| && ups[a] == u;
        var b :| 0 <= b < |ups| && ups[b] == v;
      }
    }
  }

  /** A group name outside the three resident groups (`dbAdminGroups`), matched exactly. */
  predicate IsAdminEntry(g: UserGroup) {
    g.groupName != "" && g.groupName != OwnersName && g.groupName != ResidentsName && g.groupName != TenantName
  }

  /** `dbAdminGroups.find(d => d.id_role == p.id_user)`. */
  function RoleIn(gs: seq<UserGroup>, user: int): (r: bool)
    ensures r <==> exists g :: g in gs && g.role == user
  {
    if gs == [] then false
    else if gs[0].role == user then true
    else
      assert forall g :: g in gs <==> g == gs[0] || g in gs[1..];
      RoleIn(gs[1..], user)
  }

  /**
   * `jIDUsers.find(id_user => p.id_user == id_user)` is truthy: the user was matched and its id is
   * not 0 (a found 0 is falsy in the source's test).
   */
  predicate StillListed(jIds: seq<int>, user: int) {
    user in jIds && user != 0
  }

  /** The deactivation loop (src/ResidentParser.ts:631-667) over the profiles seen so far. */
  function Victims(ps: seq<Profile>, admins: seq<UserGroup>, jIds: seq<int>): seq<Profile> {
    if ps == [] then []
    else
      var r := Victims(ps[..|ps| - 1], admins, jIds);
      var p := ps[|ps| - 1];
      if RoleIn(admins, p.idUser) then r
      else if !StillListed(jIds, p.idUser) then r + [p]
      else r
  }

  method ProfilesToDeactivate(ps: seq<Profile>, admins: seq<UserGroup>, jIds: seq<int>) returns (victims: seq<Profile>)
    ensures victims == Victims(ps, admins, jIds)
  {
    victims := [];
    var i := 0;
    while i < |ps|
      invariant 0 <= i <= |ps|
      invariant victims == Victims(ps[..i], admins, jIds)
    {
      assert ps[..i + 1][..i] == ps[..i];
      var p := ps[i];
      if !RoleIn(admins, p.idUser) {
        if !StillListed(jIds, p.idUser) {
          victims := victims + [p];
        }
      }
      i := i + 1;
    }
    assert ps[..|ps|] == ps;
  }

  /**
   * A profile is deactivated exactly when its user holds no administrative group and was not
   * matched to a unit (or has user id 0); so administrators and matched users are never touched.
   */
  lemma {:induction false} VictimsExact(ps: seq<Profile>, admins: seq<UserGroup>, jIds: seq<int>)
    ensures forall p :: p in Victims(ps, admins, jIds) <==>
      p in ps && (forall g :: g in admins ==> g.role != p.idUser) && !StillListed(jIds, p.idUser)
    ensures Subsequence(Victims(ps, admins, jIds), ps)
  {
    if ps != [] {
      var init := ps[..|ps| - 1];
      var p := ps[|ps| - 1];
      VictimsExact(init, admins, jIds);
      assert forall x :: x in ps <==> x in init || x == p;
      SubsequenceExtend(Victims(init, admins, jIds), init, p);
      if !RoleIn(admins, p.idUser) && !StillListed(jIds, p.idUser) {
        SubsequenceAppend(Victims(init, admins, jIds), init, p);
      }
    }
  }
}
