/**
 * The membership and contract stages of `create` (src/ResidentParser.ts:1003-1143): each record
 * with a unit title is matched to a user (by tenant id) and a unit (by title); every new
 * (user, title, tenant id) triple is remembered, gets a unit membership when that user has none in
 * a unit of that title, and later a contract row when no stored contract of the community links
 * that user and tenant id.
 */
module CreateMemberships {
  import opened Wrappers
  import opened Records
  import opened Units

  /** An entry of `jMatchedUsers`; `leaseId` is the record's own `unit_id`. */
  datatype JMatch = JMatch(idUser: int, title: string, leaseId: string, tenant: Option<int>)

  /** `m.id_user == user.id && m.unit_title == j.unit_title && m.tenant_id == j.tenant_id`. */
  predicate SameMatch(m: JMatch, user: int, j: FeedRecord) {
    m.idUser == user && m.title == j.unitTitle && m.tenant == j.tenantId
  }

  function MatchStaged(ms: seq<JMatch>, user: int, j: FeedRecord): (r: bool)
    ensures r <==> exists m :: m in ms && SameMatch(m, user, j)
  {
    if ms == [] then false
    else if SameMatch(ms[0], user, j) then true
    else
      assert forall m :: m in ms <==> m == ms[0] || m in ms[1..];
      MatchStaged(ms[1..], user, j)
  }

  /** `d.id_unit && d.id_user && d.title && d.id_user == user.id && j.unit_title && d.title == j.unit_title`. */
  predicate ViewMatches(v: UnitProfileView, user: int, title: string) {
    v.row.idUnit != 0 && v.row.idUser != 0 && v.title != "" && v.row.idUser == user && title != "" && v.title == title
  }

  function ViewOf(views: seq<UnitProfileView>, user: int, title: string): (r: Option<UnitProfileView>)
    ensures r.Some? ==> r.value in views && ViewMatches(r.value, user, title)
    ensures r.None? <==> forall v :: v in views ==> !ViewMatches(v, user, title)
  {
    if views == [] then None
    else if ViewMatches(views[0], user, title) then Some(views[0])
    else ViewOf(views[1..], user, title)
  }

  /** The membership staged for a record in the stored unit `unit`. */
  function NewMembership(c: Collaborators, ctx: Context, unit: Unit, user: int, j: FeedRecord): UnitProfile {
    var isRes := IsResidentOr1(j);
    UnitProfile(0, ctx.community, unit.id, user, isRes, c.groupTypeId(j.residentType, isRes), c.residentTypeId(j.residentType), ctx.timestamp)
  }

  /** The snapshots the loop reads: the re-read units, the memberships of the batch titles, and the accounts of its ids. */
  datatype MemberEnv = MemberEnv(c: Collaborators, ctx: Context, units: seq<Unit>, views: seq<UnitProfileView>, ups: seq<UserProfile>)

  /** `jMatchedUsers` and `newUnitProfiles`. */
  datatype MemberState = MemberState(matched: seq<JMatch>, toAdd: seq<UnitProfile>)

  /**
   * One iteration (src/ResidentParser.ts:1037-1104). The records all carry a tenant id here, so
   * the source's email fallback for records without one is never taken.
   */
  function MemberStep(e: MemberEnv, s: MemberState, j: FeedRecord): MemberState {
    if j.unitTitle == "" || !HasTenant(j) then s
    else match UserOfAccount(e.ups, j.tenantId)
      case None => s
      case Some(user) =>
        match FirstWithTitle(e.units, j.unitTitle)
        case None => s
        case Some(unit) =>
          if MatchStaged(s.matched, user.userId, j) then s
          else
            var matched := s.matched + [JMatch(user.userId, unit.title, j.unitId, j.tenantId)];
            if ViewOf(e.views, user.userId, j.unitTitle).Some? then MemberState(matched, s.toAdd)
            else MemberState(matched, s.toAdd + [NewMembership(e.c, e.ctx, unit, user.userId, j)])
  }

  function Members(e: MemberEnv, rs: seq<FeedRecord>): MemberState {
    if rs == [] then MemberState([], []) else MemberStep(e, Members(e, rs[..|rs| - 1]), rs[|rs| - 1])
  }

  method StageMemberships(e: MemberEnv, rs: seq<FeedRecord>) returns (matched: seq<JMatch>, toAdd: seq<UnitProfile>)
    ensures MemberState(matched, toAdd) == Members(e, rs)
  {
    matched, toAdd := [], [];
    var i := 0;
    while i < |rs|
      invariant 0 <= i <= |rs|
      invariant Members(e, rs[..i]) == MemberState(matched, toAdd)
    {
      assert rs[..i + 1][..i] == rs[..i];
      var j := rs[i];
      if j.unitTitle != "" && HasTenant(j) {
        var user := UserOfAccount(e.ups, j.tenantId);
        if user.Some? {
          var unit := FirstWithTitle(e.units, j.unitTitle);
          if unit.Some? && !MatchStaged(matched, user.value.userId, j) {
            matched := matched + [JMatch(user.value.userId, unit.value.title, j.unitId, j.tenantId)];
            var unitProfile := ViewOf(e.views, user.value.userId, j.unitTitle);
            if unitProfile.None? {
              toAdd := toAdd + [NewMembership(e.c, e.ctx, unit.value, user.value.userId, j)];
            }
          }
        }
      }
      i := i + 1;
    }
    assert rs[..|rs|] == rs;
  }

  /** Two entries for the same user, title and tenant id. */
  predicate SameTriple(m: JMatch, n: JMatch) {
    m.idUser == n.idUser && m.title == n.title && m.tenant == n.tenant
  }

  /** The match `m` and, when given, the membership `u` are those of the record `j`. */
  predicate MatchFor(e: MemberEnv, j: FeedRecord, m: JMatch) {
    && j.unitTitle != "" && HasTenant(j)
    && m.title == j.unitTitle && m.leaseId == j.unitId && m.tenant == j.tenantId
    && (exists v :: v in e.ups && SameAccount(v.idAccount, j.tenantId) && v.userId == m.idUser)
    && (exists unit :: unit in e.units && unit.title == j.unitTitle)
  }

  predicate MembershipFor(e: MemberEnv, j: FeedRecord, u: UnitProfile) {
    && j.unitTitle != "" && HasTenant(j)
    && (exists v :: v in e.ups && SameAccount(v.idAccount, j.tenantId) && v.userId == u.idUser)
    && (exists unit :: unit in e.units && unit.title == j.unitTitle && unit.id == u.idUnit)
    && (forall v :: v in e.views ==> !ViewMatches(v, u.idUser, j.unitTitle))
    && u.community == e.ctx.community && u.isResident == IsResidentOr1(j)
    && u.idResidentType == e.c.residentTypeId(j.residentType)
    && u.idGroupType == e.c.groupTypeId(j.residentType, IsResidentOr1(j))
  }

  /** What one iteration adds is the match and membership of its record, and no repeated triple. */
  lemma MemberStepSound(e: MemberEnv, s: MemberState, j: FeedRecord)
    requires forall x, y :: 0 <= x < y < |s.matched| ==> !SameTriple(s.matched[x], s.matched[y])
    ensures var t := MemberStep(e, s, j);
      && (forall x, y :: 0 <= x < y < |t.matched| ==> !SameTriple(t.matched[x], t.matched[y]))
      && (forall m :: m in t.matched ==> m in s.matched || MatchFor(e, j, m))
      && (forall u :: u in t.toAdd ==> u in s.toAdd || MembershipFor(e, j, u))
  {
    var t := MemberStep(e, s, j);
    if t != s {
      var user := UserOfAccount(e.ups, j.tenantId).value;
      var unit := FirstWithTitle(e.units, j.unitTitle).value;
      var m := JMatch(user.userId, unit.title, j.unitId, j.tenantId);
      assert t.matched == s.matched + [m];
      forall x | 0 <= x < |s.matched| ensures !SameTriple(s.matched[x], m) {
        assert s.matched[x] in s.matched;
      }
      assert MatchFor(e, j, m);
      if t.toAdd != s.toAdd {
        assert t.toAdd == s.toAdd + [NewMembership(e.c, e.ctx, unit, user.userId, j)];
        assert MembershipFor(e, j, NewMembership(e.c, e.ctx, unit, user.userId, j));
      }
    }
  }

  /**
   * No (user, title, tenant id) triple is matched twice; every match and every staged membership is
   * that of a batch record with a user of its tenant id and a unit of its title, and a membership is
   * staged only when that user has none in a unit of that title.
   */
  lemma {:induction false} MembersSound(e: MemberEnv, rs: seq<FeedRecord>)
    ensures forall x, y :: 0 <= x < y < |Members(e, rs).matched| ==> !SameTriple(Members(e, rs).matched[x], Members(e, rs).matched[y])
    ensures forall m :: m in Members(e, rs).matched ==> exists j :: j in rs && MatchFor(e, j, m)
    ensures forall u :: u in Members(e, rs).toAdd ==> exists j :: j in rs && MembershipFor(e, j, u)
  {
    if rs != [] {
      var init := rs[..|rs| - 1];
      var j := rs[|rs| - 1];
      MembersSound(e, init);
      var q := Members(e, init);
      MemberStepSound(e, q, j);
      var s := Members(e, rs);
      forall m | m in s.matched ensures exists j' :: j' in rs && MatchFor(e, j', m) {
        if m in q.matched {
          var j' :| j' in init && MatchFor(e, j', m);
          assert j' in rs;
        } else {
          assert j in rs;
        }
      }
      forall u | u in s.toAdd ensures exists j' :: j' in rs && MembershipFor(e, j', u) {
        if u in q.toAdd {
          var j' :| j' in init && MembershipFor(e, j', u);
          assert j' in rs;
        } else {
          assert j in rs;
        }
      }
    }
  }

  // ------------------------------------------------------------ contracts

  /**
   * `t.id_community && t.id_community == community && t.id_user && t.id_user == jm.id_user
   *  && jm.tenant_id && jm.tenant_id == t.mds_contract_record`.
   */
  predicate ContractOf(t: Contract, community: int, m: JMatch) {
    t.community != 0 && t.community == community && t.idUser != 0 && t.idUser == m.idUser
      && m.tenant.Some? && m.tenant.value != 0 && SameAccount(t.record, m.tenant)
  }

  function HasContract(cs: seq<Contract>, community: int, m: JMatch): (r: bool)
    ensures r <==> exists t :: t in cs && ContractOf(t, community, m)
  {
    if cs == [] then false
    else if ContractOf(cs[0], community, m) then true
    else
      assert forall t :: t in cs <==> t == cs[0] || t in cs[1..];
      HasContract(cs[1..], community, m)
  }

  /** The staged contract row of a match: active, not stopped, dated today, keyed by the tenant id. */
  function NewContract(ctx: Context, m: JMatch): Contract {
    Contract(0, ctx.community, m.idUser, m.leaseId, m.tenant, 1, 0, ctx.date, "")
  }

  /** The contract loop (src/ResidentParser.ts:1113-1138) over the matches seen so far. */
  function ContractsToInsert(cs: seq<Contract>, ctx: Context, ms: seq<JMatch>): seq<Contract> {
    if ms == [] then []
    else
      var r := ContractsToInsert(cs, ctx, ms[..|ms| - 1]);
      var m := ms[|ms| - 1];
      if HasContract(cs, ctx.community, m) then r else r + [NewContract(ctx, m)]
  }

  method StageContracts(cs: seq<Contract>, ctx: Context, ms: seq<JMatch>) returns (toAdd: seq<Contract>)
    ensures toAdd == ContractsToInsert(cs, ctx, ms)
  {
    toAdd := [];
    var i := 0;
    while i < |ms|
      invariant 0 <= i <= |ms|
      invariant toAdd == ContractsToInsert(cs, ctx, ms[..i])
    {
      assert ms[..i + 1][..i] == ms[..i];
      var jm := ms[i];
      if !HasContract(cs, ctx.community, jm) {
        toAdd := toAdd + [NewContract(ctx, jm)];
      }
      i := i + 1;
    }
    assert ms[..|ms|] == ms;
  }

  /** Exactly the matches with no stored contract of the community, user and tenant id get one. */
  lemma {:induction false} ContractsExact(cs: seq<Contract>, ctx: Context, ms: seq<JMatch>)
    ensures forall c :: c in ContractsToInsert(cs, ctx, ms) <==>
      exists m :: m in ms && (forall t :: t in cs ==> !ContractOf(t, ctx.community, m)) && c == NewContract(ctx, m)
    ensures |ContractsToInsert(cs, ctx, ms)| <= |ms|
  {
    if ms != [] {
      var init := ms[..|ms| - 1];
      ContractsExact(cs, ctx, init);
      assert forall x :: x in ms <==> x in init || x == ms[|ms| - 1];
    }
  }
}
