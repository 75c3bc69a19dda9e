/**
 * Role-group assignment `saveUsersToRoleGroups` (src/ResidentParser.ts:242-315). Each record whose
 * tenant id still occurs among the stored profiles' account ids consumes one occurrence; when its
 * resident type maps to a group, the profile's user joins that group (unless it is Residents) and
 * the Residents group, each only when that membership is not already stored.
 */
module RoleGroups {
  import opened Wrappers
  import opened Text
  import opened Records

  /** `_.findIndex(idAccounts, f => f == j.tenant_id)`. */
  function IndexOfAccount(ids: seq<Option<int>>, tenant: Option<int>): (r: Option<nat>)
    ensures r.Some? ==> r.value < |ids| && SameAccount(ids[r.value], tenant)
    ensures r.None? <==> forall k :: 0 <= k < |ids| ==> !SameAccount(ids[k], tenant)
  {
    if ids == [] then None
    else if SameAccount(ids[0], tenant) then Some(0)
    else match IndexOfAccount(ids[1..], tenant)
      case None => None
      case Some(k) => Some(k + 1)
  }

  /** `this.residentGroups.find(g => g.name == ResidentGroup.Residents)`: an exact-case match. */
  function ResidentsGroup(groups: seq<Group>): (r: Option<Group>)
    ensures r.Some? ==> r.value in groups && r.value.name == ResidentsName
    ensures r.None? <==> forall g :: g in groups ==> g.name != ResidentsName
  {
    if groups == [] then None
    else if groups[0].name == ResidentsName then Some(groups[0])
    else ResidentsGroup(groups[1..])
  }

  /** `name.toUpperCase() == ResidentGroup.Residents.toUpperCase()`. */
  predicate IsResidents(name: string) {
    ToUpper(name) == "RESIDENTS"
  }

  /** The record's own group, unless it is Residents or already stored (src/ResidentParser.ts:286-292). */
  function OwnRow(instance: int, g: Group, user: int, stored: seq<RoleGroup>): seq<RoleGroup> {
    if !IsResidents(g.name) && RoleGroup(instance, g.id, user) !in stored then [RoleGroup(instance, g.id, user)] else []
  }

  /** The Residents group, when there is one and it is not already stored (src/ResidentParser.ts:294-306). */
  function ResidentsRow(instance: int, residents: Option<Group>, user: int, stored: seq<RoleGroup>): seq<RoleGroup> {
    if residents.Some? && RoleGroup(instance, residents.value.id, user) !in stored
    then [RoleGroup(instance, residents.value.id, user)] else []
  }

  /** The memberships one record queues for the user `user`, given its group `g`. */
  function RowsFor(instance: int, g: Group, residents: Option<Group>, user: int, stored: seq<RoleGroup>): seq<RoleGroup> {
    OwnRow(instance, g, user, stored) + ResidentsRow(instance, residents, user, stored)
  }

  /** The snapshots and settings the loop reads. */
  datatype RoleEnv = RoleEnv(ps: seq<Profile>, stored: seq<RoleGroup>, instance: int,
                             residents: Option<Group>, groupOf: string -> Option<Group>)

  /** The loop state: the account ids not yet consumed and the memberships to add. */
  datatype RoleState = RoleState(ids: seq<Option<int>>, toAdd: seq<RoleGroup>)

  /** `_.map(dbProfiles, m => m.id_account)`. */
  function InitialIds(ps: seq<Profile>): (r: seq<Option<int>>)
    ensures |r| == |ps|
  {
    if ps == [] then [] else InitialIds(ps[..|ps| - 1]) + [ps[|ps| - 1].idAccount]
  }

  /** One iteration of the loop of src/ResidentParser.ts:257-309. */
  function Step(e: RoleEnv, s: RoleState, j: FeedRecord): RoleState {
    match IndexOfAccount(s.ids, j.tenantId)
    case None => s
    case Some(k) =>
      var ids := s.ids[..k] + s.ids[k + 1..];
      match e.groupOf(j.residentType)
      case None => RoleState(ids, s.toAdd)
      case Some(g) =>
        match ProfileOfTenant(e.ps, j.tenantId)
        case None => RoleState(ids, s.toAdd)
        case Some(p) => RoleState(ids, s.toAdd + OwnRow(e.instance, g, p.idUser, e.stored) + ResidentsRow(e.instance, e.residents, p.idUser, e.stored))
  }

  /** What the loop has left after the records `rs`. */
  function Assign(e: RoleEnv, rs: seq<FeedRecord>): RoleState {
    if rs == [] then RoleState(InitialIds(e.ps), [])
    else Step(e, Assign(e, rs[..|rs| - 1]), rs[|rs| - 1])
  }

  /** The account ids the records `rs` have consumed, in order. */
  function Consumed(e: RoleEnv, rs: seq<FeedRecord>): seq<Option<int>> {
    if rs == [] then []
    else
      var s := Assign(e, rs[..|rs| - 1]);
      match IndexOfAccount(s.ids, rs[|rs| - 1].tenantId)
      case None => Consumed(e, rs[..|rs| - 1])
      case Some(k) => Consumed(e, rs[..|rs| - 1]) + [s.ids[k]]
  }

  method StageRoleGroups(e: RoleEnv, rs: seq<FeedRecord>) returns (toAdd: seq<RoleGroup>)
    ensures toAdd == Assign(e, rs).toAdd
  {
    var idAccounts := InitialIds(e.ps);
    toAdd := [];
    var i := 0;
    while i < |rs|
      invariant 0 <= i <= |rs|
      invariant Assign(e, rs[..i]) == RoleState(idAccounts, toAdd)
    {
      assert rs[..i + 1][..i] == rs[..i];
      var j := rs[i];
      ghost var s0 := RoleState(idAccounts, toAdd);
      assert Assign(e, rs[..i + 1]) == Step(e, s0, j);
      var found := IndexOfAccount(idAccounts, j.tenantId);
      if found.Some? {
        var k := found.value;
        idAccounts := idAccounts[..k] + idAccounts[k + 1..];
        var matched := e.groupOf(j.residentType);
        if matched.Some? {
          var profile := ProfileOfTenant(e.ps, j.tenantId);
          if profile.Some? {
            var user := profile.value.idUser;
            var g := matched.value;
            if !IsResidents(g.name) && RoleGroup(e.instance, g.id, user) !in e.stored {
              toAdd := toAdd + [RoleGroup(e.instance, g.id, user)];
            }
            assert toAdd == s0.toAdd + OwnRow(e.instance, g, user, e.stored);
            if e.residents.Some? && RoleGroup(e.instance, e.residents.value.id, user) !in e.stored {
              toAdd := toAdd + [RoleGroup(e.instance, e.residents.value.id, user)];
            }
            assert toAdd == s0.toAdd + OwnRow(e.instance, g, user, e.stored) + ResidentsRow(e.instance, e.residents, user, e.stored);
          }
        }
      }
      i := i + 1;
    }
    assert rs[..|rs|] == rs;
  }

  /** A membership one record may queue for the user `user`. */
  predicate Justified(e: RoleEnv, rs: seq<FeedRecord>, m: RoleGroup) {
    exists j, p :: j in rs && p in e.ps && SameAccount(p.idAccount, j.tenantId) && m.role == p.idUser
      && e.groupOf(j.residentType).Some?
      && (m.group == e.groupOf(j.residentType).value.id || (e.residents.Some? && m.group == e.residents.value.id))
  }

  /**
   * Every queued membership is new against the stored snapshot, belongs to the instance, and is
   * either the record's own group or Residents, for the user of a profile carrying the record's
   * tenant id — and only for a record whose resident type maps to a group.
   */
  lemma {:induction false} AssignOnlyNew(e: RoleEnv, rs: seq<FeedRecord>)
    ensures forall m :: m in Assign(e, rs).toAdd ==> m !in e.stored && m.instance == e.instance && Justified(e, rs, m)
  {
    if rs != [] {
      var init := rs[..|rs| - 1];
      var j := rs[|rs| - 1];
      AssignOnlyNew(e, init);
      var s := Assign(e, init);
      forall m | m in s.toAdd ensures Justified(e, rs, m) {
        var j', p :| j' in init && p in e.ps && SameAccount(p.idAccount, j'.tenantId) && m.role == p.idUser
          && e.groupOf(j'.residentType).Some?
          && (m.group == e.groupOf(j'.residentType).value.id || (e.residents.Some? && m.group == e.residents.value.id));
        assert j' in rs;
      }
      match IndexOfAccount(s.ids, j.tenantId)
      case None =>
      case Some(k) =>
        match e.groupOf(j.residentType)
        case None =>
        case Some(g) =>
          match ProfileOfTenant(e.ps, j.tenantId)
          case None =>
          case Some(p) =>
            forall m | m in OwnRow(e.instance, g, p.idUser, e.stored) + ResidentsRow(e.instance, e.residents, p.idUser, e.stored)
              ensures m !in e.stored && m.instance == e.instance && Justified(e, rs, m)
            {
              assert j in rs;
            }
    }
  }

  /** One record moves at most one id from the remaining list to the consumed list. */
  lemma ConsumeStep(e: RoleEnv, rs: seq<FeedRecord>)
    requires rs != []
    ensures var init := rs[..|rs| - 1];
      multiset(Assign(e, rs).ids) + multiset(Consumed(e, rs))
        == multiset(Assign(e, init).ids) + multiset(Consumed(e, init))
  {
    var init := rs[..|rs| - 1];
    var j := rs[|rs| - 1];
    var s := Assign(e, init);
    assert Assign(e, rs) == Step(e, s, j);
    var found := IndexOfAccount(s.ids, j.tenantId);
    if found.Some? {
      var k := found.value;
      assert Consumed(e, rs) == Consumed(e, init) + [s.ids[k]];
      assert Assign(e, rs).ids == s.ids[..k] + s.ids[k + 1..];
      assert s.ids == s.ids[..k] + [s.ids[k]] + s.ids[k + 1..];
      assert multiset(s.ids) == multiset(s.ids[..k] + s.ids[k + 1..]) + multiset{s.ids[k]};
    } else {
      assert Consumed(e, rs) == Consumed(e, init);
      assert Assign(e, rs).ids == s.ids;
    }
  }

  /**
   * Account-id consumption: every processed record removes one occurrence of its id, so the
   * remaining and consumed ids together are the stored profiles' ids, and a stored id is processed
   * at most as many times as profiles carry it.
   */
  lemma {:induction false} AssignConsumesOnce(e: RoleEnv, rs: seq<FeedRecord>)
    ensures multiset(Assign(e, rs).ids) + multiset(Consumed(e, rs)) == multiset(InitialIds(e.ps))
    ensures multiset(Consumed(e, rs)) <= multiset(InitialIds(e.ps))
    ensures |Consumed(e, rs)| <= |e.ps|
  {
    if rs != [] {
      AssignConsumesOnce(e, rs[..|rs| - 1]);
      ConsumeStep(e, rs);
    }
    assert |multiset(Consumed(e, rs))| <= |multiset(InitialIds(e.ps))|;
  }

  /** A record whose resident type maps to no group queues nothing, not even Residents. */
  lemma NoGroupNoMembership(e: RoleEnv, rs: seq<FeedRecord>, j: FeedRecord)
    requires e.groupOf(j.residentType).None?
    ensures Assign(e, rs + [j]).toAdd == Assign(e, rs).toAdd
  {
    assert (rs + [j])[..|rs + [j]| - 1] == rs;
  }
}
