/**
 * The unit-membership part of `update` (src/ResidentParser.ts:1549-1679). A first loop finds, for
 * each record, its joined row and the stored membership of (community, unit title, user): without
 * one it lists the row for creation; with one whose resident type, group type or residency flag
 * differs it stages an update of those three columns and, on a change between an owner type and
 * Tenant, the removal of the group the user leaves. A second loop turns the creation list into
 * new memberships of stored units.
 */
module UpdateMemberships {
  import opened Wrappers
  import opened Text
  import opened Records
  import opened Units

  /** `residentGroups.find(f => f.name.toUpperCase() == upper)`: its id, or 0 when there is none. */
  function GroupIdOf(groups: seq<Group>, upper: string): (r: int)
    ensures r != 0 ==> exists g :: g in groups && ToUpper(g.name) == upper && g.id == r
    ensures (forall g :: g in groups ==> ToUpper(g.name) != upper) ==> r == 0
  {
    if groups == [] then 0
    else if ToUpper(groups[0].name) == upper then groups[0].id
    else GroupIdOf(groups[1..], upper)
  }

  /**
   * The row lookup of src/ResidentParser.ts:1554: an account of the record's email, or a row of
   * its tenant id (the middle disjunct of the source implies the first).
   */
  predicate RowMatches(d: UserProfile, j: FeedRecord) {
    (j.email != "" && d.userEmail.Some? && Normalize(d.userEmail.value) == j.email)
    || SameAccount(d.idAccount, j.tenantId)
  }

  function RowOfRecord(ups: seq<UserProfile>, j: FeedRecord): (r: Option<UserProfile>)
    ensures r.Some? ==> r.value in ups && RowMatches(r.value, j)
    ensures r.None? <==> forall d :: d in ups ==> !RowMatches(d, j)
  {
    if ups == [] then None
    else if RowMatches(ups[0], j) then Some(ups[0])
    else RowOfRecord(ups[1..], j)
  }

  /** `d.id_community == community && d.title == title && d.id_user == user`. */
  predicate ViewMatches(v: UnitProfileView, community: int, title: string, user: int) {
    v.row.community == community && v.title == title && v.row.idUser == user
  }

  function ViewIn(views: seq<UnitProfileView>, community: int, title: string, user: int): (r: Option<UnitProfileView>)
    ensures r.Some? ==> r.value in views && ViewMatches(r.value, community, title, user)
    ensures r.None? <==> forall v :: v in views ==> !ViewMatches(v, community, title, user)
  {
    if views == [] then None
    else if ViewMatches(views[0], community, title, user) then Some(views[0])
    else ViewIn(views[1..], community, title, user)
  }

  /** An entry of `unitProfilesCreateList`: the joined row's account id and tenant id with the record's unit fields. */
  datatype Entry = Entry(userId: int, account: Option<int>, title: string, residentType: string, isResident: int)

  /**
   * The snapshots the first loop reads: the joined rows (read after the profile writes), the
   * memberships of the batch titles (read when the pass starts), and the ids of the Owners and
   * Tenant groups (0 when the group is missing).
   */
  datatype TransitionEnv = TransitionEnv(ups: seq<UserProfile>, views: seq<UnitProfileView>, c: Collaborators,
                                         ctx: Context, ownerGroup: int, tenantGroup: int)

  /** `unitProfilesCreateList`, `unitProfilesUpdateList` and `roleGroupsToRemove`. */
  datatype TransitionState = TransitionState(creates: seq<Entry>, updates: seq<UnitProfile>, removals: seq<RoleGroup>)

  /**
   * The group memberships a change of resident type from `row`'s to `newType` removes: the Owners
   * membership on a change from an owner type to Tenant, the Tenant membership on a change from
   * Tenant to an owner type, and nothing otherwise (never the Residents membership).
   */
  function GroupRemovals(e: TransitionEnv, row: UnitProfile, newType: int): (r: seq<RoleGroup>)
    ensures IsOwnerType(row.idResidentType) && newType == TenantType && e.ownerGroup != 0 ==>
      r == [RoleGroup(e.ctx.instance, e.ownerGroup, row.idUser)]
    ensures row.idResidentType == TenantType && IsOwnerType(newType) && e.tenantGroup != 0 ==>
      r == [RoleGroup(e.ctx.instance, e.tenantGroup, row.idUser)]
    ensures (!(IsOwnerType(row.idResidentType) && newType == TenantType && e.ownerGroup != 0)
             && !(row.idResidentType == TenantType && IsOwnerType(newType) && e.tenantGroup != 0)) ==> r == []
  {
    var previous := row.idResidentType;
    if previous == newType then []
    else
      (if e.ownerGroup != 0 && IsOwnerType(previous) && newType == TenantType
       then [RoleGroup(e.ctx.instance, e.ownerGroup, row.idUser)] else [])
      + (if e.tenantGroup != 0 && previous == TenantType && IsOwnerType(newType)
         then [RoleGroup(e.ctx.instance, e.tenantGroup, row.idUser)] else [])
  }

  /** The stored membership of the record's joined row, if both exist. */
  function ViewOfRecord(e: TransitionEnv, j: FeedRecord): Option<UnitProfileView> {
    match RowOfRecord(e.ups, j)
    case None => None
    case Some(u) => ViewIn(e.views, e.ctx.community, j.unitTitle, u.userId)
  }

  /** The membership `row` with the record's residency flag, group type and resident type. */
  function Retyped(e: TransitionEnv, j: FeedRecord, row: UnitProfile): UnitProfile {
    var isRes := IsResidentOr1(j);
    row.(isResident := isRes, idGroupType := e.c.groupTypeId(j.residentType, isRes),
         idResidentType := e.c.residentTypeId(j.residentType))
  }

  /** The record's stored membership differs from it in one of the three columns. */
  predicate MustRetype(e: TransitionEnv, j: FeedRecord, row: UnitProfile) {
    Retyped(e, j, row) != row
  }

  function TransitionStep(e: TransitionEnv, s: TransitionState, j: FeedRecord): TransitionState {
    match RowOfRecord(e.ups, j)
    case None => s
    case Some(u) =>
      match ViewIn(e.views, e.ctx.community, j.unitTitle, u.userId)
      case None => s.(creates := s.creates + [Entry(u.userId, u.idAccount, j.unitTitle, j.residentType, IsResidentOr1(j))])
      case Some(v) =>
        var isRes := IsResidentOr1(j);
        var groupType := e.c.groupTypeId(j.residentType, isRes);
        var residentType := e.c.residentTypeId(j.residentType);
        if v.row.idResidentType != residentType || v.row.idGroupType != groupType || v.row.isResident != isRes then
          TransitionState(s.creates, s.updates + [Retyped(e, j, v.row)],
                          s.removals + GroupRemovals(e, v.row, residentType))
        else s
  }

  function Transitions(e: TransitionEnv, rs: seq<FeedRecord>): TransitionState {
    if rs == [] then TransitionState([], [], [])
    else TransitionStep(e, Transitions(e, rs[..|rs| - 1]), rs[|rs| - 1])
  }

  method StageTransitions(e: TransitionEnv, rs: seq<FeedRecord>)
    returns (creates: seq<Entry>, updates: seq<UnitProfile>, removals: seq<RoleGroup>)
    ensures TransitionState(creates, updates, removals) == Transitions(e, rs)
  {
    creates, updates, removals := [], [], [];
    var i := 0;
    while i < |rs|
      invariant 0 <= i <= |rs|
      invariant Transitions(e, rs[..i]) == TransitionState(creates, updates, removals)
    {
      assert rs[..i + 1][..i] == rs[..i];
      var j := rs[i];
      var row := RowOfRecord(e.ups, j);
      if row.Some? {
        var userProfile := row.value;
        var unitProfile := ViewIn(e.views, e.ctx.community, j.unitTitle, userProfile.userId);
        if unitProfile.None? {
          creates := creates + [Entry(userProfile.userId, userProfile.idAccount, j.unitTitle, j.residentType, IsResidentOr1(j))];
        } else {
          var stored := unitProfile.value.row;
          var isRes := IsResidentOr1(j);
          var residentType := e.c.residentTypeId(j.residentType);
          var groupType := e.c.groupTypeId(j.residentType, isRes);
          if stored.idResidentType != residentType || stored.idGroupType != groupType || stored.isResident != isRes {
            updates := updates + [stored.(isResident := isRes, idGroupType := groupType, idResidentType := residentType)];
            var oldType := stored.idResidentType;
            if oldType != residentType {
              if e.ownerGroup != 0 && IsOwnerType(oldType) && residentType == TenantType {
                removals := removals + [RoleGroup(e.ctx.instance, e.ownerGroup, stored.idUser)];
              }
              if e.tenantGroup != 0 && oldType == TenantType && IsOwnerType(residentType) {
                removals := removals + [RoleGroup(e.ctx.instance, e.tenantGroup, stored.idUser)];
              }
            }
          }
        }
      }
      i := i + 1;
    }
    assert rs[..|rs|] == rs;
  }

  /** `x` is the creation entry of `j`: it has a joined row but no stored membership of its title. */
  predicate CreateFor(e: TransitionEnv, j: FeedRecord, x: Entry) {
    RowOfRecord(e.ups, j).Some? && ViewOfRecord(e, j).None?
    && x == Entry(RowOfRecord(e.ups, j).value.userId, RowOfRecord(e.ups, j).value.idAccount,
                  j.unitTitle, j.residentType, IsResidentOr1(j))
  }

  /** `x` is the update of `j`'s stored membership, which differs from the record. */
  predicate UpdateFor(e: TransitionEnv, j: FeedRecord, x: UnitProfile) {
    ViewOfRecord(e, j).Some? && MustRetype(e, j, ViewOfRecord(e, j).value.row)
    && x == Retyped(e, j, ViewOfRecord(e, j).value.row)
  }

  /** `x` is a group membership removed by the change of `j`'s stored membership. */
  predicate RemovalFor(e: TransitionEnv, j: FeedRecord, x: RoleGroup) {
    ViewOfRecord(e, j).Some? && MustRetype(e, j, ViewOfRecord(e, j).value.row)
    && x in GroupRemovals(e, ViewOfRecord(e, j).value.row, e.c.residentTypeId(j.residentType))
  }

  /**
   * The creation list, the membership updates and the group removals are exactly those of the
   * batch records, each decided against the snapshots alone.
   */
  lemma {:induction false} TransitionsExact(e: TransitionEnv, rs: seq<FeedRecord>)
    ensures forall x :: x in Transitions(e, rs).creates <==> exists j :: j in rs && CreateFor(e, j, x)
    ensures forall x :: x in Transitions(e, rs).updates <==> exists j :: j in rs && UpdateFor(e, j, x)
    ensures forall x :: x in Transitions(e, rs).removals <==> exists j :: j in rs && RemovalFor(e, j, x)
  {
    if rs != [] {
      var init := rs[..|rs| - 1];
      var j := rs[|rs| - 1];
      TransitionsExact(e, init);
      assert forall x :: x in rs <==> x in init || x == j;
      var p := Transitions(e, init);
      var s := Transitions(e, rs);
      assert forall x :: x in s.creates <==> x in p.creates || CreateFor(e, j, x);
      assert forall x :: x in s.updates <==> x in p.updates || UpdateFor(e, j, x);
      assert forall x :: x in s.removals <==> x in p.removals || RemovalFor(e, j, x);
    }
  }

  /** `x` is the stored membership `row` with only its three type columns replaced. */
  predicate RetypeOf(row: UnitProfile, x: UnitProfile) {
    x == row.(isResident := x.isResident, idGroupType := x.idGroupType, idResidentType := x.idResidentType)
  }

  /** Every update rewrites a stored membership in its three type columns only. */
  lemma {:induction false} UpdatesKeepRows(e: TransitionEnv, rs: seq<FeedRecord>)
    ensures forall x :: x in Transitions(e, rs).updates ==> exists v :: v in e.views && RetypeOf(v.row, x)
  {
    TransitionsExact(e, rs);
    forall x | x in Transitions(e, rs).updates ensures exists v :: v in e.views && RetypeOf(v.row, x) {
      var j :| j in rs && UpdateFor(e, j, x);
      assert ViewOfRecord(e, j).value in e.views;
    }
  }

  /**
   * Every removal is the Owners or the Tenant membership of a stored membership's user (never a
   * group id 0); so no membership of any other group, Residents included, is ever removed.
   */
  lemma {:induction false} RemovalsOnlyOwnersOrTenant(e: TransitionEnv, rs: seq<FeedRecord>)
    ensures forall x :: x in Transitions(e, rs).removals ==>
      x.instance == e.ctx.instance && x.group != 0 && (x.group == e.ownerGroup || x.group == e.tenantGroup)
  {
    if rs != [] {
      var init := rs[..|rs| - 1];
      var j := rs[|rs| - 1];
      RemovalsOnlyOwnersOrTenant(e, init);
      var s := Transitions(e, init);
      assert Transitions(e, rs) == TransitionStep(e, s, j);
      match RowOfRecord(e.ups, j)
      case None =>
      case Some(u) =>
        match ViewIn(e.views, e.ctx.community, j.unitTitle, u.userId)
        case None =>
        case Some(v) =>
          var residentType := e.c.residentTypeId(j.residentType);
          assert Transitions(e, rs).removals == s.removals
            || Transitions(e, rs).removals == s.removals + GroupRemovals(e, v.row, residentType);
    }
  }


  /** A record whose stored membership moves from an owner type to Tenant removes its Owners membership. */
  lemma OwnerToTenantRemovesOwners(e: TransitionEnv, rs: seq<FeedRecord>, j: FeedRecord)
    requires j in rs && ViewOfRecord(e, j).Some? && e.ownerGroup != 0
    requires IsOwnerType(ViewOfRecord(e, j).value.row.idResidentType) && e.c.residentTypeId(j.residentType) == TenantType
    ensures RoleGroup(e.ctx.instance, e.ownerGroup, ViewOfRecord(e, j).value.row.idUser) in Transitions(e, rs).removals
  {
    TransitionsExact(e, rs);
    assert RemovalFor(e, j, RoleGroup(e.ctx.instance, e.ownerGroup, ViewOfRecord(e, j).value.row.idUser));
  }

  /** A record whose stored membership moves from Tenant to an owner type removes its Tenant membership. */
  lemma TenantToOwnerRemovesTenant(e: TransitionEnv, rs: seq<FeedRecord>, j: FeedRecord)
    requires j in rs && ViewOfRecord(e, j).Some? && e.tenantGroup != 0
    requires ViewOfRecord(e, j).value.row.idResidentType == TenantType && IsOwnerType(e.c.residentTypeId(j.residentType))
    ensures RoleGroup(e.ctx.instance, e.tenantGroup, ViewOfRecord(e, j).value.row.idUser) in Transitions(e, rs).removals
  {
    TransitionsExact(e, rs);
    assert RemovalFor(e, j, RoleGroup(e.ctx.instance, e.tenantGroup, ViewOfRecord(e, j).value.row.idUser));
  }

  // ------------------------------------------------------------ creation of the listed memberships

  /**
   * The snapshots the second loop reads: the joined rows (read after the group removals), the
   * memberships of the batch titles (the same snapshot as the first loop) and the stored units.
   */
  datatype AddEnv = AddEnv(ups: seq<UserProfile>, views: seq<UnitProfileView>, units: seq<Unit>, c: Collaborators, ctx: Context)

  /**
   * The joined row of a listed entry whose account id is 0. Its object has no `email` field, so
   * the source's email comparison holds exactly for a row without account email.
   */
  function FirstWithoutEmail(ups: seq<UserProfile>): (r: Option<UserProfile>)
    ensures r.Some? ==> r.value in ups && r.value.userEmail.None?
    ensures r.None? <==> forall d :: d in ups ==> d.userEmail.Some?
  {
    if ups == [] then None
    else if ups[0].userEmail.None? then Some(ups[0])
    else FirstWithoutEmail(ups[1..])
  }

  /** The user id an entry is added under (`aUser.id`, replaced when it is 0). */
  function EntryUser(e: AddEnv, a: Entry): Option<int> {
    if a.userId != 0 then Some(a.userId)
    else match FirstWithoutEmail(e.ups) case Some(d) => Some(d.userId) case None => None
  }

  /** The membership added for an entry: always flagged resident (src/ResidentParser.ts:1661). */
  function AddedMembership(e: AddEnv, a: Entry, unit: Unit, user: int): UnitProfile {
    UnitProfile(0, e.ctx.community, unit.id, user, 1, e.c.groupTypeId(a.residentType, a.isResident),
                e.c.residentTypeId(a.residentType), e.ctx.timestamp)
  }

  function AddStep(e: AddEnv, toAdd: seq<UnitProfile>, a: Entry): seq<UnitProfile> {
    if a.title == "" then toAdd
    else match EntryUser(e, a)
      case None => toAdd
      case Some(user) =>
        if ViewIn(e.views, e.ctx.community, a.title, user).Some? then toAdd
        else match FirstWithTitle(e.units, a.title)
          case None => toAdd
          case Some(unit) => toAdd + [AddedMembership(e, a, unit, user)]
  }

  function Additions(e: AddEnv, entries: seq<Entry>): seq<UnitProfile> {
    if entries == [] then [] else AddStep(e, Additions(e, entries[..|entries| - 1]), entries[|entries| - 1])
  }

  method StageAdditions(e: AddEnv, entries: seq<Entry>) returns (toAdd: seq<UnitProfile>)
    ensures toAdd == Additions(e, entries)
  {
    toAdd := [];
    var i := 0;
    while i < |entries|
      invariant 0 <= i <= |entries|
      invariant toAdd == Additions(e, entries[..i])
    {
      assert entries[..i + 1][..i] == entries[..i];
      var a := entries[i];
      if a.title != "" {
        var user := EntryUser(e, a);
        if user.Some? && ViewIn(e.views, e.ctx.community, a.title, user.value).None? {
          var unit := FirstWithTitle(e.units, a.title);
          if unit.Some? {
            toAdd := toAdd + [AddedMembership(e, a, unit.value, user.value)];
          }
        }
      }
      i := i + 1;
    }
    assert entries[..|entries|] == entries;
  }

  /** `m` is the membership added for `a`: a titled entry with a user, no stored membership, and a unit. */
  predicate AddedFor(e: AddEnv, a: Entry, m: UnitProfile) {
    a.title != "" && EntryUser(e, a).Some?
    && ViewIn(e.views, e.ctx.community, a.title, EntryUser(e, a).value).None?
    && FirstWithTitle(e.units, a.title).Some?
    && m == AddedMembership(e, a, FirstWithTitle(e.units, a.title).value, EntryUser(e, a).value)
  }

  /**
   * A membership is added exactly for each listed entry with a title, a user, a stored unit of
   * that title and no stored membership of that title; each joins the user to a unit of the title.
   */
  lemma {:induction false} AdditionsExact(e: AddEnv, entries: seq<Entry>)
    ensures forall m :: m in Additions(e, entries) <==> exists a :: a in entries && AddedFor(e, a, m)
    ensures forall m :: m in Additions(e, entries) ==>
      m.isResident == 1 && m.community == e.ctx.community
      && exists u :: u in e.units && u.id == m.idUnit && u.title != ""
  {
    if entries != [] {
      var init := entries[..|entries| - 1];
      var a := entries[|entries| - 1];
      AdditionsExact(e, init);
      assert forall x :: x in entries <==> x in init || x == a;
      assert forall m :: m in Additions(e, entries) <==> m in Additions(e, init) || AddedFor(e, a, m);
      if FirstWithTitle(e.units, a.title).Some? {
        assert FirstWithTitle(e.units, a.title).value in e.units;
      }
    }
  }
}
