/**
 * The profile and contract loop of `update` (src/ResidentParser.ts:1393-1547). For each record
 * with a joined row and a stored profile of its tenant id it decides whether the profile changed
 * (deleted, renamed, email moved, phone changed), stages the rewritten profile if so, and stages
 * an insert of a contract row for a tenant id without one, or an update of the existing row when
 * the profile changed or the row belongs to another community.
 */
module UpdateProfiles {
  import opened Wrappers
  import opened Text
  import opened Records
  import Db

  /**
   * The email test of src/ResidentParser.ts:1429. The conditional operator binds looser than `||`,
   * so the test reads `(pe != ue || pe != e) ? e : ((null || ue != e) ? e : null)`; for a record
   * with an email its value is truthy exactly when not both stored emails are the record's email.
   */
  function EmailChanged(pe: Option<string>, ue: Option<string>, email: string): (r: bool)
    ensures email != "" ==> (r <==> !(pe == Some(email) && ue == Some(email)))
  {
    var value :=
      if pe != ue || pe != Some(email) then Some(email)
      else if ue != Some(email) then Some(email)
      else None;
    Truthy(value)
  }

  /** `d.user_email?.trim().toLowerCase() == email`. */
  predicate UserEmailIs(u: UserProfile, email: string) {
    u.userEmail.Some? && Normalize(u.userEmail.value) == email
  }

  function RowByUserEmail(ups: seq<UserProfile>, email: string): (r: Option<UserProfile>)
    ensures r.Some? ==> r.value in ups && UserEmailIs(r.value, email)
    ensures r.None? <==> forall u :: u in ups ==> !UserEmailIs(u, email)
  {
    if ups == [] then None
    else if UserEmailIs(ups[0], email) then Some(ups[0])
    else RowByUserEmail(ups[1..], email)
  }

  /**
   * For a record without email: the profile is not linked to the emailed account, or it still
   * holds an email (src/ResidentParser.ts:1441-1442).
   */
  predicate Relinks(u: UserProfile) {
    (u.profileEmail.None? && u.userEmail.Some?) || Truthy(u.profileEmail)
  }

  /** `getUsersByDisplayName(name)[0]`. */
  function FirstNamed(accs: seq<Account>, name: string): (r: Option<Account>)
    ensures r.Some? ==> r.value in accs && r.value.displayName == name
    ensures r.None? <==> forall a :: a in accs ==> a.displayName != name
  {
    if accs == [] then None
    else if accs[0].displayName == name then Some(accs[0])
    else FirstNamed(accs[1..], name)
  }

  /**
   * The snapshots the loop reads: the joined rows (read after the account writes), the profiles
   * of the batch (read before them), the contracts of the batch, the placeholder accounts just
   * saved, and the stored accounts.
   */
  datatype RefreshEnv = RefreshEnv(ups: seq<UserProfile>, ps: seq<Profile>, contracts: seq<Contract>,
                                   saved: seq<Account>, accs: seq<Account>, c: Collaborators, ctx: Context)

  /**
   * The account a record without email is relinked to: a placeholder saved for its tenant id,
   * else the first account with the stored profile's display name (src/ResidentParser.ts:1444-1458).
   */
  function MatchedUser(e: RefreshEnv, j: FeedRecord, p: Profile): Option<Account> {
    match UserOfRef(e.saved, j.tenantId)
    case Some(a) => Some(a)
    case None => if p.displayName != "" then FirstNamed(e.accs, p.displayName) else None
  }

  /** What the loop decides for one record: its stored profile, the user to link, and the phones. */
  datatype Decision = Decision(profile: Profile, idUser: int, changed: bool, phone: Option<string>, cell: Option<string>)

  /** The record's profile differs from the stored one, in the terms the loop tests. */
  predicate Differs(c: Collaborators, u: UserProfile, p: Profile, j: FeedRecord) {
    || p.isDeleted != 0
    || p.firstName != j.name.first || p.lastName != j.name.last
    || (j.email != "" && !(p.email == Some(j.email) && u.userEmail == Some(j.email)))
    || (j.email == "" && Relinks(u))
    || p.phone != OrNull(c.parsePhone(j.phone))
    || p.cellPhone != OrNull(c.parsePhone(j.cellPhone))
  }

  /** The decision of src/ResidentParser.ts:1401-1491; None when the record is skipped. */
  function Decide(e: RefreshEnv, j: FeedRecord): (r: Option<Decision>)
    ensures r.Some? <==> UserOfAccount(e.ups, j.tenantId).Some? && ProfileOfTenant(e.ps, j.tenantId).Some?
    ensures r.Some? ==> r.value.profile == ProfileOfTenant(e.ps, j.tenantId).value
    ensures r.Some? ==> (r.value.changed <==> Differs(e.c, UserOfAccount(e.ups, j.tenantId).value, r.value.profile, j))
  {
    match UserOfAccount(e.ups, j.tenantId)
    case None => None
    case Some(u0) =>
      match ProfileOfTenant(e.ps, j.tenantId)
      case None => None
      case Some(p) =>
        var emailChanged := j.email != "" && EmailChanged(p.email, u0.userEmail, j.email);
        var u := if emailChanged then (match RowByUserEmail(e.ups, j.email) case Some(v) => v case None => u0) else u0;
        var relink := j.email == "" && Relinks(u0);
        var matched := if relink then MatchedUser(e, j, p) else None;
        var phone := e.c.parsePhone(j.phone);
        var cell := e.c.parsePhone(j.cellPhone);
        var changed := p.isDeleted != 0 || p.firstName != j.name.first || p.lastName != j.name.last
          || emailChanged || relink || p.phone != OrNull(phone) || p.cellPhone != OrNull(cell);
        Some(Decision(p, if matched.Some? then matched.value.id else u.userId, changed, phone, cell))
  }

  /** The profile row sent to `updateBulk`: the stored profile with every listed column rewritten. */
  function ProfileUpdate(d: Decision, j: FeedRecord): Profile {
    d.profile.(idUser := d.idUser, firstName := j.name.first, lastName := j.name.last,
      displayName := j.name.display, email := EmailOrNull(j.email), isValidEmail := Flag(j.email != ""),
      isLocal := Flag(j.email == ""), isAclActive := 1, phone := d.phone,
      isValidHomePhone := Flag(Truthy(d.phone)), cellPhone := d.cell,
      isValidCellPhone := Flag(Truthy(d.cell)), isDeleted := 0)
  }

  /** `dbMdsTrans.find(d => j.tenant_id && d.mds_contract_record == j.tenant_id)`. */
  function ContractOfTenant(cs: seq<Contract>, j: FeedRecord): (r: Option<Contract>)
    ensures r.Some? ==> r.value in cs && HasTenant(j) && SameAccount(r.value.record, j.tenantId)
    ensures r.None? <==> forall c :: c in cs ==> !(HasTenant(j) && SameAccount(c.record, j.tenantId))
  {
    if cs == [] then None
    else if HasTenant(j) && SameAccount(cs[0].record, j.tenantId) then Some(cs[0])
    else ContractOfTenant(cs[1..], j)
  }

  /** The contract row sent to `updateBulk`: the stored row re-pointed at the community and user. */
  function ContractUpdate(ct: Contract, ctx: Context, idUser: int, j: FeedRecord): Contract {
    ct.(community := ctx.community, idUser := idUser, leaseId := j.unitId, record := j.tenantId,
        isActive := 1, modified := ctx.date)
  }

  /** The contract row inserted for a tenant id without one; the source sets no lease id on it. */
  function ContractInsert(ctx: Context, idUser: int, j: FeedRecord): Contract {
    Contract(0, ctx.community, idUser, "", j.tenantId, 1, 0, ctx.date, "")
  }

  /** `profilesToUpdate`, `mdsTransInsert` and `mdsTransUpdate`. */
  datatype RefreshState = RefreshState(profiles: seq<Profile>, inserts: seq<Contract>, updates: seq<Contract>)

  function RefreshStep(e: RefreshEnv, s: RefreshState, j: FeedRecord): RefreshState {
    match Decide(e, j)
    case None => s
    case Some(d) =>
      var s1 := if d.changed then s.(profiles := s.profiles + [ProfileUpdate(d, j)]) else s;
      match ContractOfTenant(e.contracts, j)
      case Some(ct) =>
        if d.changed || ct.community != e.ctx.community
        then s1.(updates := s1.updates + [ContractUpdate(ct, e.ctx, d.idUser, j)])
        else s1
      case None => s1.(inserts := s1.inserts + [ContractInsert(e.ctx, d.idUser, j)])
  }

  function Refresh(e: RefreshEnv, rs: seq<FeedRecord>): RefreshState {
    if rs == [] then RefreshState([], [], [])
    else RefreshStep(e, Refresh(e, rs[..|rs| - 1]), rs[|rs| - 1])
  }

  method StageRefresh(e: RefreshEnv, rs: seq<FeedRecord>)
    returns (profiles: seq<Profile>, inserts: seq<Contract>, updates: seq<Contract>)
    ensures RefreshState(profiles, inserts, updates) == Refresh(e, rs)
  {
    profiles, inserts, updates := [], [], [];
    var i := 0;
    while i < |rs|
      invariant 0 <= i <= |rs|
      invariant Refresh(e, rs[..i]) == RefreshState(profiles, inserts, updates)
    {
      assert rs[..i + 1][..i] == rs[..i];
      var j := rs[i];
      var row := UserOfAccount(e.ups, j.tenantId);
      var stored := ProfileOfTenant(e.ps, j.tenantId);
      if row.Some? && stored.Some? {
        var userProfile := row.value;
        var profile := stored.value;
        var matchedUser: Option<Account> := None;
        var hasChanged := profile.isDeleted != 0;
        if profile.firstName != j.name.first || profile.lastName != j.name.last {
          hasChanged := true;
        }
        if j.email != "" {
          if EmailChanged(profile.email, userProfile.userEmail, j.email) {
            hasChanged := true;
            var ofEmail := RowByUserEmail(e.ups, j.email);
            if ofEmail.Some? {
              userProfile := ofEmail.value;
            }
          }
        } else if Relinks(userProfile) {
          hasChanged := true;
          matchedUser := MatchedUser(e, j, profile);
        }
        var phone := e.c.parsePhone(j.phone);
        if profile.phone != OrNull(phone) {
          hasChanged := true;
        }
        var cell := e.c.parsePhone(j.cellPhone);
        if profile.cellPhone != OrNull(cell) {
          hasChanged := true;
        }
        var idUser := if matchedUser.Some? then matchedUser.value.id else userProfile.userId;
        var d := Decision(profile, idUser, hasChanged, phone, cell);
        assert Decide(e, j) == Some(d);
        if hasChanged {
          profiles := profiles + [ProfileUpdate(d, j)];
        }
        var found := ContractOfTenant(e.contracts, j);
        if found.Some? {
          if found.value.community != e.ctx.community {
            hasChanged := true;
          }
          if hasChanged {
            updates := updates + [ContractUpdate(found.value, e.ctx, idUser, j)];
          }
        } else {
          inserts := inserts + [ContractInsert(e.ctx, idUser, j)];
        }
      }
      i := i + 1;
    }
    assert rs[..|rs|] == rs;
  }

  /** `p` is the profile rewrite staged for `j`. */
  predicate WrittenFor(e: RefreshEnv, j: FeedRecord, p: Profile) {
    Decide(e, j).Some? && Decide(e, j).value.changed && p == ProfileUpdate(Decide(e, j).value, j)
  }

  /** `c` is the contract insert staged for `j`. */
  predicate InsertFor(e: RefreshEnv, j: FeedRecord, c: Contract) {
    Decide(e, j).Some? && ContractOfTenant(e.contracts, j).None?
    && c == ContractInsert(e.ctx, Decide(e, j).value.idUser, j)
  }

  /** `c` is the contract update staged for `j`. */
  predicate UpdateFor(e: RefreshEnv, j: FeedRecord, c: Contract) {
    Decide(e, j).Some? && ContractOfTenant(e.contracts, j).Some?
    && (Decide(e, j).value.changed || ContractOfTenant(e.contracts, j).value.community != e.ctx.community)
    && c == ContractUpdate(ContractOfTenant(e.contracts, j).value, e.ctx, Decide(e, j).value.idUser, j)
  }

  /**
   * A profile rewrite is staged exactly for the records whose profile changed; a contract insert
   * exactly for the decided records whose tenant id has no contract row; a contract update
   * exactly for those whose row exists and whose profile changed or whose row has another community.
   */
  lemma {:induction false} RefreshExact(e: RefreshEnv, rs: seq<FeedRecord>)
    ensures forall p :: p in Refresh(e, rs).profiles <==> exists j :: j in rs && WrittenFor(e, j, p)
    ensures forall c :: c in Refresh(e, rs).inserts <==> exists j :: j in rs && InsertFor(e, j, c)
    ensures forall c :: c in Refresh(e, rs).updates <==> exists j :: j in rs && UpdateFor(e, j, c)
  {
    if rs != [] {
      var init := rs[..|rs| - 1];
      var j := rs[|rs| - 1];
      RefreshExact(e, init);
      assert forall x :: x in rs <==> x in init || x == j;
      var p := Refresh(e, init);
      var s := Refresh(e, rs);
      assert forall x :: x in s.profiles <==> x in p.profiles || WrittenFor(e, j, x);
      assert forall x :: x in s.inserts <==> x in p.inserts || InsertFor(e, j, x);
      assert forall x :: x in s.updates <==> x in p.updates || UpdateFor(e, j, x);
    }
  }

  /**
   * `p` carries the record's values: the id of its tenant's stored profile, its email (none when
   * blank), `is_local` exactly when there is no email, and the parsed phones, flagged valid exactly
   * when they are non-empty strings.
   */
  predicate FollowsRecord(e: RefreshEnv, j: FeedRecord, p: Profile) {
    && ProfileOfTenant(e.ps, j.tenantId).Some? && p.id == ProfileOfTenant(e.ps, j.tenantId).value.id
    && p.email == EmailOrNull(j.email) && p.isValidEmail == Flag(j.email != "") && p.isLocal == 1 - p.isValidEmail
    && p.phone == e.c.parsePhone(j.phone) && (p.isValidHomePhone == 1 <==> Truthy(p.phone))
    && p.cellPhone == e.c.parsePhone(j.cellPhone) && (p.isValidCellPhone == 1 <==> Truthy(p.cellPhone))
  }

  /**
   * Every rewritten profile is undeleted and ACL-active, and carries the values of a batch record
   * whose tenant id owns it; in particular a blank feed email clears the profile's email.
   */
  lemma WrittenProfileRules(e: RefreshEnv, rs: seq<FeedRecord>)
    ensures forall p :: p in Refresh(e, rs).profiles ==> p.isDeleted == 0 && p.isAclActive == 1
    ensures forall p :: p in Refresh(e, rs).profiles ==> exists j :: j in rs && FollowsRecord(e, j, p)
  {
    RefreshExact(e, rs);
    forall p | p in Refresh(e, rs).profiles
      ensures p.isDeleted == 0 && p.isAclActive == 1
      ensures exists j :: j in rs && FollowsRecord(e, j, p)
    {
      var j :| j in rs && WrittenFor(e, j, p);
      assert FollowsRecord(e, j, p);
    }
  }

  /**
   * After the rewrite is applied, the record no longer differs from its profile in any column the
   * profile holds (deleted flag, names, phones), provided the phone parser never yields "".
   */
  lemma RewriteSettles(e: RefreshEnv, j: FeedRecord)
    requires Decide(e, j).Some?
    requires e.c.parsePhone(j.phone) != Some("") && e.c.parsePhone(j.cellPhone) != Some("")
    ensures var p := Db.CopyProfileColumns(Decide(e, j).value.profile, ProfileUpdate(Decide(e, j).value, j));
      && p.isDeleted == 0 && p.firstName == j.name.first && p.lastName == j.name.last
      && p.phone == OrNull(e.c.parsePhone(j.phone)) && p.cellPhone == OrNull(e.c.parsePhone(j.cellPhone))
      && p.email == EmailOrNull(j.email)
  {
  }

  /** Every contract update addresses a stored contract row of the same tenant id. */
  lemma ContractUpdatesAddressStoredRows(e: RefreshEnv, rs: seq<FeedRecord>)
    ensures forall c :: c in Refresh(e, rs).updates ==>
      exists ct :: ct in e.contracts && ct.id == c.id && SameAccount(ct.record, c.record)
    ensures forall c :: c in Refresh(e, rs).inserts ==> c.isActive == 1 && c.stop == 0 && c.community == e.ctx.community
  {
    RefreshExact(e, rs);
    forall c | c in Refresh(e, rs).updates
      ensures exists ct :: ct in e.contracts && ct.id == c.id && SameAccount(ct.record, c.record)
    {
      var j :| j in rs && UpdateFor(e, j, c);
      var ct := ContractOfTenant(e.contracts, j).value;
      assert ct in e.contracts && ct.id == c.id;
    }
    forall c | c in Refresh(e, rs).inserts ensures c.isActive == 1 && c.stop == 0 && c.community == e.ctx.community {
      var j :| j in rs && InsertFor(e, j, c);
    }
  }
}
