/**
 * The engine, class `ResidentParser` (src/ResidentParser.ts:23-240): its state (`id_instance`,
 * `instanceData`, `residentGroups`), `init`, and `sync`, which holds the import guard and runs the
 * phases in order on the store: unit upsert, classification, create, update, metadata, role
 * groups and the deactivation sweep. Every phase reads its snapshots, runs the staging loop of
 * its own module, then issues the bulk writes the source issues, in the source's order.
 */
module Parser {
  import opened Wrappers
  import opened Text
  import opened Records
  import opened Db
  import Units
  import Classification
  import MetaSync
  import RoleGroups
  import Deactivation
  import CreateAccounts
  import CreateMemberships
  import UpdateAccounts
  import UpdateProfiles
  import UpdateMemberships

  /** `instanceData`: the instance id (0 until `init` reads it) and its community. */
  datatype Instance = Instance(id: int, community: int)

  /** The clock readings of one run: the guard's marker, the row timestamp and the row date. */
  datatype Clock = Clock(startedAt: string, timestamp: string, date: string)

  /** How `init` ends: ready, or the error it throws. */
  datatype InitOutcome = Ready | NoGroups | MissingGroups | AlreadyRunning(at: string)

  /** How `sync` ends: the error it throws before `init`, or the object it returns ("" for no errors). */
  datatype SyncResult = NotInitialised | Finished(success: bool, syncComplete: bool, errors: string)

  const NoTenantsError := "There are no residents/tenants that have valid tenant_id."
  const NoUnitEntriesError := "All entries are  required to have valid tenant_id"
  const NoMatchError := "Did not match any existing record."

  function RunningError(at: string): string {
    "A running import process already started at " + at + ". Please wait until the import completes."
  }

  /** The upper-cased names of the three resident groups (`ResidentGroup.X.toUpperCase()`). */
  const OwnersUpper := "OWNERS"
  const ResidentsUpper := "RESIDENTS"
  const TenantUpper := "TENANT"

  /** `roleGroups.find(g => g.name.toUpperCase() == upper)`. */
  function GroupNamed(groups: seq<Group>, upper: string): (r: Option<Group>)
    ensures r.Some? ==> r.value in groups && ToUpper(r.value.name) == upper
    ensures r.None? <==> forall g :: g in groups ==> ToUpper(g.name) != upper
  {
    if groups == [] then None
    else if ToUpper(groups[0].name) == upper then Some(groups[0])
    else GroupNamed(groups[1..], upper)
  }

  function Listed(g: Option<Group>): seq<Group> {
    if g.Some? then [g.value] else []
  }

  /**
   * The groups `init` pushes onto `residentGroups`: Owners, Residents, Tenant, each when found.
   * Three groups are pushed exactly when all three are found, and then in that order.
   */
  function FoundGroups(groups: seq<Group>): (r: seq<Group>)
    ensures AllFound(groups) <==> |r| == 3
    ensures AllFound(groups) ==>
      r == [GroupNamed(groups, OwnersUpper).value, GroupNamed(groups, ResidentsUpper).value, GroupNamed(groups, TenantUpper).value]
  {
    Listed(GroupNamed(groups, OwnersUpper)) + Listed(GroupNamed(groups, ResidentsUpper)) + Listed(GroupNamed(groups, TenantUpper))
  }

  predicate AllFound(groups: seq<Group>) {
    GroupNamed(groups, OwnersUpper).Some? && GroupNamed(groups, ResidentsUpper).Some? && GroupNamed(groups, TenantUpper).Some?
  }

  predicate HasEmail(j: FeedRecord) {
    j.email != ""
  }

  function EmailOf(j: FeedRecord): string {
    j.email
  }

  predicate HasTitle(j: FeedRecord) {
    j.unitTitle != ""
  }

  /** `allUniqEmails`: the distinct non-blank emails of the records, in order of first appearance. */
  function BatchEmails(rs: seq<FeedRecord>): seq<string> {
    Dedup(Map(Filter(rs, HasEmail), EmailOf))
  }

  /** The external account ids of the records with a usable tenant id. */
  function TenantIds(rs: seq<FeedRecord>): set<int> {
    set j | j in rs && HasTenant(j) :: j.tenantId.value
  }

  /** The present values of a list of temporary references. */
  function RefIds(refs: seq<Option<int>>): set<int> {
    set r | r in refs && r.Some? :: r.value
  }

  function RefOf(a: Account): Option<int> {
    a.accountRef
  }

  // ------------------------------------------------------------------ what each phase writes
  //
  // The functions below give the tables a phase leaves behind, as functions of the tables it
  // starts from: each one reads the snapshots the source reads, runs the staging folds on them and
  // applies the bulk writes the source issues, in the source's order and under the same guards.

  /** Steps 1 and 2 of `create`: the email accounts, then the emailed profiles (read after the accounts are saved). */
  function AfterEmailUsers(t: Tables, jUsers: seq<FeedRecord>, emails: seq<string>, c: Collaborators, ctx: Context): Tables {
    var withEmail := Filter(jUsers, HasEmail);
    var newEmails := CreateAccounts.EmailAccounts(t.UsersByEmails(emails), t.profiles, withEmail).toAdd;
    var t1 := if |newEmails| > 0 then t.SaveAccounts(Reversed(newEmails)) else t;
    var newProfiles := CreateAccounts.EmailProfiles(
      CreateAccounts.ProfileEnv(t1.UsersByEmails(emails), t.profiles, c, ctx.community, ctx.timestamp), withEmail).profiles;
    if |newProfiles| > 0 then t1.SaveProfiles(Reversed(newProfiles)) else t1
  }

  /** The temporary references step 3 of `create` hands out. */
  function NoEmailRefs(t: Tables, jUsers: seq<FeedRecord>): seq<Option<int>> {
    CreateAccounts.Placeholders(t.ProfilesByAccountIds(TenantIds(jUsers)), Filter(jUsers, CreateAccounts.NoEmailTenant)).refs
  }

  /** Steps 3 and 4 of `create`: the placeholder accounts, then the profiles without email. */
  function AfterNoEmailUsers(t: Tables, jUsers: seq<FeedRecord>, c: Collaborators, ctx: Context): Tables {
    var noEmail := Filter(jUsers, CreateAccounts.NoEmailTenant);
    var ids := TenantIds(jUsers);
    var withIds := t.ProfilesByAccountIds(ids);
    var placeholders := CreateAccounts.Placeholders(withIds, noEmail).toAdd;
    var t1 := if |placeholders| > 0 then t.SaveAccounts(Reversed(placeholders)) else t;
    var refUsers := if |placeholders| > 0 then t1.UsersByAccountRefs(ids) else [];
    var newProfiles := CreateAccounts.NoEmailProfiles(CreateAccounts.NoEmailEnv(withIds, refUsers, c, ctx.timestamp), noEmail);
    if |newProfiles| > 0 then t1.SaveProfiles(Reversed(newProfiles)) else t1
  }

  /** Steps 5 and 6 of `create`: the unit memberships, then the contract rows of the matches. */
  function AfterCreateUnitLinks(t: Tables, jUsers: seq<FeedRecord>, c: Collaborators, ctx: Context): Tables {
    var titles := Dedup(Map(Filter(jUsers, HasTitle), Units.TitleOf));
    var ms := CreateMemberships.Members(CreateMemberships.MemberEnv(c, ctx, t.units, t.UnitProfilesByTitles(titles),
                                                                    t.UserProfilesByAccountIds(TenantIds(jUsers))), jUsers);
    var t1 := if |ms.toAdd| > 0 then t.SaveUnitProfiles(Reversed(ms.toAdd)) else t;
    var inserts := CreateMemberships.ContractsToInsert(t1.contracts, ctx, ms.matched);
    if |inserts| > 0 then t1.SaveContracts(Reversed(inserts)) else t1
  }

  /** `create` on records with a usable tenant id: the six steps, then the references cleared. */
  function AfterCreate(t: Tables, jUsers: seq<FeedRecord>, emails: seq<string>, c: Collaborators, ctx: Context): Tables {
    var t1 := AfterEmailUsers(t, jUsers, emails, c, ctx);
    AfterCreateUnitLinks(AfterNoEmailUsers(t1, jUsers, c, ctx), jUsers, c, ctx).ClearAccountRefs(RefIds(NoEmailRefs(t1, jUsers)))
  }

  /** The account loop of `update` on the stored accounts. */
  function AccountChangesOf(t: Tables, jUsers: seq<FeedRecord>, ups: seq<UserProfile>): UpdateAccounts.AccountState {
    UpdateAccounts.AccountChanges(UpdateAccounts.AccountEnv(ups, t.accounts), jUsers)
  }

  /** The account writes of `update`: the changed-email accounts, the renames, then the placeholders. */
  function AfterUserAccounts(t: Tables, jUsers: seq<FeedRecord>, ups: seq<UserProfile>): Tables {
    var ch := AccountChangesOf(t, jUsers, ups);
    var t1 := if |ch.toAdd| > 0 then t.SaveAccounts(Reversed(ch.toAdd)) else t;
    var t2 := if |ch.toUpdate| > 0 then t1.UpdateAccountNames(ch.toUpdate) else t1;
    if |ch.noEmail| > 0 then t2.SaveAccounts(Reversed(ch.noEmail)) else t2
  }

  /** The placeholders as saved, read back by their temporary references. */
  function SavedPlaceholders(t: Tables, jUsers: seq<FeedRecord>, ups: seq<UserProfile>): seq<Account> {
    var noEmail := AccountChangesOf(t, jUsers, ups).noEmail;
    if |noEmail| > 0 then AfterUserAccounts(t, jUsers, ups).UsersByAccountRefs(RefIds(Map(noEmail, RefOf))) else []
  }

  /** The profile and contract loop of `update`, on the joined rows and contracts read when it starts. */
  function RefreshOf(t: Tables, jUsers: seq<FeedRecord>, dbProfiles: seq<Profile>, saved: seq<Account>,
                     c: Collaborators, ctx: Context): UpdateProfiles.RefreshState {
    var ids := TenantIds(jUsers);
    UpdateProfiles.Refresh(UpdateProfiles.RefreshEnv(t.UserProfilesByAccountIdsOrEmails(ids, BatchEmails(jUsers)), dbProfiles,
                                                     t.ContractsByAccountIds(ids), saved, t.accounts, c, ctx), jUsers)
  }

  /** The profile and contract writes of `update`: profile columns, new contracts, contract updates. */
  function AfterUserProfiles(t: Tables, jUsers: seq<FeedRecord>, dbProfiles: seq<Profile>, saved: seq<Account>,
                             c: Collaborators, ctx: Context): Tables {
    var r := RefreshOf(t, jUsers, dbProfiles, saved, c, ctx);
    var t1 := if |r.profiles| > 0 then t.UpdateProfiles(r.profiles) else t;
    var t2 := if |r.inserts| > 0 then t1.SaveContracts(Reversed(r.inserts)) else t1;
    if |r.updates| > 0 then t2.UpdateContracts(r.updates) else t2
  }

  /** The snapshots of the membership-transition loop: the joined rows are read when it starts. */
  function TransitionEnvOf(t: Tables, jUsers: seq<FeedRecord>, views: seq<UnitProfileView>, c: Collaborators, ctx: Context,
                           owners: int, tenant: int): UpdateMemberships.TransitionEnv {
    UpdateMemberships.TransitionEnv(t.UserProfilesByAccountIdsOrEmails(TenantIds(jUsers), BatchEmails(jUsers)), views, c, ctx, owners, tenant)
  }

  /** The group removals of the transition loop. */
  function AfterTransitions(t: Tables, jUsers: seq<FeedRecord>, views: seq<UnitProfileView>, c: Collaborators, ctx: Context,
                            owners: int, tenant: int): Tables {
    var removals := UpdateMemberships.Transitions(TransitionEnvOf(t, jUsers, views, c, ctx, owners, tenant), jUsers).removals;
    if |removals| > 0 then t.DeleteRoleGroups(removals) else t
  }

  /** The memberships `update` creates, then the retyped ones it rewrites. */
  function AfterUpdateUnitLinks(t: Tables, jUsers: seq<FeedRecord>, creates: seq<UpdateMemberships.Entry>, retyped: seq<UnitProfile>,
                                views: seq<UnitProfileView>, c: Collaborators, ctx: Context): Tables {
    var ups := t.UserProfilesByAccountIdsOrEmails(TenantIds(jUsers), BatchEmails(jUsers));
    var additions := UpdateMemberships.Additions(UpdateMemberships.AddEnv(ups, views, t.units, c, ctx), creates);
    var t1 := if |creates| > 0 && |additions| > 0 then t.SaveUnitProfiles(Reversed(additions)) else t;
    if |retyped| > 0 then t1.UpdateUnitProfiles(retyped) else t1
  }

  /**
   * `update` on records with a usable tenant id: the account writes, the profile and contract
   * writes, the group removals, the membership creates and updates, then the references cleared.
   */
  function AfterUpdate(t: Tables, jUsers: seq<FeedRecord>, c: Collaborators, ctx: Context, owners: int, tenant: int): Tables {
    var ids := TenantIds(jUsers);
    var ups := t.UserProfilesByAccountIdsOrEmails(ids, BatchEmails(jUsers));
    var views := t.UnitProfilesByTitles(Dedup(Map(jUsers, Units.TitleOf)));
    var t1 := AfterUserAccounts(t, jUsers, ups);
    var t2 := AfterUserProfiles(t1, jUsers, t.ProfilesByAccountIds(ids), SavedPlaceholders(t, jUsers, ups), c, ctx);
    var tr := UpdateMemberships.Transitions(TransitionEnvOf(t2, jUsers, views, c, ctx, owners, tenant), jUsers);
    var t4 := AfterUpdateUnitLinks(AfterTransitions(t2, jUsers, views, c, ctx, owners, tenant), jUsers, tr.creates, tr.updates, views, c, ctx);
    var refs := Map(AccountChangesOf(t, jUsers, ups).noEmail, RefOf);
    if |refs| > 0 then t4.ClearAccountRefs(RefIds(refs)) else t4
  }

  /** The records the sweep reads and what they match (src/ResidentParser.ts:562-598). */
  function SweepMatches(t: Tables, rs: seq<FeedRecord>): seq<Deactivation.UnitUser> {
    var js := Filter(rs, Deactivation.NamesUnit);
    Deactivation.Matched(t.units, t.UserProfilesByAccountIds(Deactivation.AccountIdsOf(js)), js)
  }

  function MatchedUser(m: Deactivation.UnitUser): int {
    m.idUser
  }

  function ProfileIds(ps: seq<Profile>): set<int> {
    set p | p in ps :: p.id
  }

  function UserIds(ps: seq<Profile>): set<int> {
    set p | p in ps :: p.idUser
  }

  /** The sweep up to its victim loop: the unmatched memberships deleted, then the duplicate-email collapse. */
  function AfterCollapse(t: Tables, rs: seq<FeedRecord>, dupVictims: set<int>): Tables {
    var removals := Deactivation.Removals(t.unitProfiles, SweepMatches(t, rs));
    (if |removals| > 0 then t.DeleteUnitProfiles(removals) else t).SoftDeleteProfiles(dupVictims)
  }

  /** The administrative groups of the users of `ps` (`dbAdminGroups`). */
  function AdminsOf(t: Tables, ps: seq<Profile>): seq<UserGroup> {
    Filter(t.UserGroupsOf(UserIds(ps)), Deactivation.IsAdminEntry)
  }

  /** The profiles the victim loop deactivates, read after the collapse. */
  function SweptProfiles(t: Tables, rs: seq<FeedRecord>, dupVictims: set<int>): seq<Profile> {
    var t1 := AfterCollapse(t, rs, dupVictims);
    var ps := t1.ProfilesWithAccountIds();
    Deactivation.Victims(ps, AdminsOf(t1, ps), Dedup(Map(SweepMatches(t, rs), MatchedUser)))
  }

  /** `deactivateUsers` once some record matched: the collapse, then the victims soft-deleted and their contracts deactivated. */
  function AfterSweep(t: Tables, rs: seq<FeedRecord>, dupVictims: set<int>): Tables {
    var t1 := AfterCollapse(t, rs, dupVictims);
    var victims := SweptProfiles(t, rs, dupVictims);
    if |victims| > 0 then t1.SoftDeleteProfiles(ProfileIds(victims)).DeactivateContracts(UserIds(victims)) else t1
  }

  /**
   * What the sweep does to profiles and contracts: a profile ends soft-deleted exactly when it
   * was already, or is a duplicate-email victim, or is a swept profile; a contract ends inactive
   * exactly when it was already or belongs to the user of a swept profile; nothing else changes
   * in either table. The swept profiles are exactly the profiles with an external id, read after
   * the collapse, whose user holds no administrative group and was not matched to a unit.
   */
  lemma {:induction false} SweepEffect(t: Tables, rs: seq<FeedRecord>, dupVictims: set<int>)
    ensures var after := AfterSweep(t, rs, dupVictims);
      var vs := SweptProfiles(t, rs, dupVictims);
      && SoftDeletesOnly(t.profiles, after.profiles) && DeactivatesOnly(t.contracts, after.contracts)
      && (forall i :: 0 <= i < |t.profiles| ==>
            (after.profiles[i].isDeleted == 1 <==>
               t.profiles[i].isDeleted == 1 || t.profiles[i].id in dupVictims || t.profiles[i].id in ProfileIds(vs)))
      && (forall i :: 0 <= i < |t.contracts| ==>
            (after.contracts[i].isActive == 0 <==> t.contracts[i].isActive == 0 || t.contracts[i].idUser in UserIds(vs)))
    ensures var t1 := AfterCollapse(t, rs, dupVictims);
      forall p :: p in SweptProfiles(t, rs, dupVictims) <==>
        p in t1.profiles && p.idAccount.Some?
        && (forall g :: g in AdminsOf(t1, t1.ProfilesWithAccountIds()) ==> g.role != p.idUser)
        && !Deactivation.StillListed(Dedup(Map(SweepMatches(t, rs), MatchedUser)), p.idUser)
  {
    var t1 := AfterCollapse(t, rs, dupVictims);
    var vs := SweptProfiles(t, rs, dupVictims);
    var ps := t1.ProfilesWithAccountIds();
    Deactivation.VictimsExact(ps, AdminsOf(t1, ps), Dedup(Map(SweepMatches(t, rs), MatchedUser)));
    if |vs| > 0 {
      var t2 := t1.SoftDeleteProfiles(ProfileIds(vs));
      SoftDeletesOnlyTrans(t.profiles, t1.profiles, t2.profiles);
    }
  }

  // ------------------------------------------------------------------ unit upsert, metadata, role groups

  /**
   * The tables after `saveUnits` (src/ResidentParser.ts:1153-1206): unchanged without a valid
   * title; otherwise the new units appended in reverse, then the reactivations written.
   */
  function AfterSaveUnits(t: Tables, rs: seq<FeedRecord>, community: int): Tables {
    if Filter(rs, Units.ValidTitle) == [] then t
    else
      t.SaveUnits(Reversed(Units.UnitsToAdd(rs, t.units, community)))
       .UpdateUnits(Units.Reactivations(Units.CommonTitles(rs, t.units), t.units))
  }

  /** The unit pass's snapshots (src/ResidentParser.ts:400-436): units resolve by title among the batch titles. */
  function UnitMetaEnv(t: Tables, rs: seq<FeedRecord>): MetaSync.MetaEnv {
    var titles := Map(Filter(rs, HasTitle), Units.TitleOf);
    var units := Filter(t.units, (u: Unit) => u.title in titles);
    MetaSync.MetaEnv(UnitEntity,
      Filter(t.definedFields, (d: DefinedField) => d.entity == UnitEntity),
      Filter(t.customFields, (f: CustomField) => f.entity == UnitEntity),
      t.metaData,
      (j: FeedRecord) => match Units.FirstWithTitle(units, j.unitTitle) case Some(u) => Some(u.id) case None => None)
  }

  /** The user pass's snapshots (src/ResidentParser.ts:478-500): users resolve to the `id_user` of their tenant id's profile. */
  function UserMetaEnv(t: Tables, rs: seq<FeedRecord>): MetaSync.MetaEnv {
    var ps := t.ProfilesByAccountIds(TenantIds(rs));
    MetaSync.MetaEnv(UserEntity,
      Filter(t.definedFields, (d: DefinedField) => d.entity == UserEntity),
      Filter(t.customFields, (f: CustomField) => f.entity == UserEntity),
      t.metaData,
      (j: FeedRecord) => match ProfileOfTenant(ps, j.tenantId) case Some(p) => Some(p.idUser) case None => None)
  }

  /** A pass runs only when its entity has both stored and configured fields. */
  function PassQueue(e: MetaSync.MetaEnv, rs: seq<FeedRecord>): MetaSync.Queue {
    if e.customFields != [] && e.defined != [] then MetaSync.Collect(e, rs) else MetaSync.Queue([], [])
  }

  /** Both passes compare against the same metadata snapshot, so their queues concatenate. */
  function MetaQueue(t: Tables, rs: seq<FeedRecord>): MetaSync.Queue {
    var u := PassQueue(UnitMetaEnv(t, rs), rs);
    var p := PassQueue(UserMetaEnv(t, rs), rs);
    MetaSync.Queue(u.adds + p.adds, u.ups + p.ups)
  }

  /** The metadata inserts in reverse, then the `value` updates, each only when non-empty. */
  function AfterMetaWrites(t: Tables, adds: seq<MetaData>, ups: seq<MetaData>): Tables {
    var t1 := if |adds| > 0 then t.SaveMetaData(Reversed(adds)) else t;
    if |ups| > 0 then t1.UpdateMetaData(ups) else t1
  }

  /** The tables after `saveCustomFieldsMetaDataByMapping` (src/ResidentParser.ts:398-558). */
  function AfterMetaData(t: Tables, rs: seq<FeedRecord>): Tables {
    AfterMetaWrites(t, MetaQueue(t, rs).adds, MetaQueue(t, rs).ups)
  }

  /**
   * The role-group pass's snapshots (src/ResidentParser.ts:245-255): the profiles, the memberships
   * of the three resident groups (looked up by exact name), and the Residents group among the resident
   * groups `init` found.
   */
  function RoleEnvOf(t: Tables, idInstance: int, residentGroups: seq<Group>, c: Collaborators): RoleGroups.RoleEnv {
    var residentIds := set g | g in t.groups && (g.name == OwnersName || g.name == ResidentsName || g.name == TenantName) :: g.id;
    RoleGroups.RoleEnv(t.profiles, t.MembershipsOf(residentIds), idInstance,
                       RoleGroups.ResidentsGroup(residentGroups), c.groupOfResidentType)
  }

  /** The tables after `saveUsersToRoleGroups` (src/ResidentParser.ts:242-315): the queued memberships appended in reverse. */
  function AfterRoleGroups(t: Tables, rs: seq<FeedRecord>, env: RoleGroups.RoleEnv): Tables {
    var toAdd := RoleGroups.Assign(env, rs).toAdd;
    if |toAdd| > 0 then t.SaveRoleGroups(Reversed(toAdd)) else t
  }

  /**
   * The tables after the classification and the two pipelines (src/ResidentParser.ts:143-217):
   * the records with a usable tenant id are split against the profile tree of `t`; `create`
   * runs on the NEW part when it is non-empty, then `update` on the EXISTING part.
   */
  function AfterReconcile(t: Tables, rs: seq<FeedRecord>, c: Collaborators, ctx: Context, owners: int, tenant: int): Tables {
    var jUsers := Filter(rs, HasTenant);
    var split := Classification.Partition(jUsers, Classification.TreeIds(t.profiles));
    var t1 := if split.toCreate != [] then AfterCreate(t, Filter(split.toCreate, HasTenant), BatchEmails(jUsers), c, ctx) else t;
    if split.toUpdate != [] then AfterUpdate(t1, Filter(split.toUpdate, HasTenant), c, ctx, owners, tenant) else t1
  }

  /**
   * The tables after the passes that close a run (src/ResidentParser.ts:219-221): the metadata
   * upsert on the whole batch, the role groups on the records with a usable tenant id, read
   * against the tables the upsert left, then the deactivation sweep on those records, which
   * writes only when one of them matches.
   */
  function AfterFinish(t: Tables, rs: seq<FeedRecord>, c: Collaborators, idInstance: int, residentGroups: seq<Group>,
                       dupVictims: set<int>): Tables {
    var jUsers := Filter(rs, HasTenant);
    var t1 := AfterMetaData(t, rs);
    var t2 := AfterRoleGroups(t1, jUsers, RoleEnvOf(t1, idInstance, residentGroups, c));
    if SweepMatches(t2, jUsers) != [] then AfterSweep(t2, jUsers, dupVictims) else t2
  }

  class ResidentParser {
    /** `id_instance`, given to the constructor; the role-group pass stamps it on its rows. */
    const idInstance: int
    /** The store behind `dbTask`. */
    const store: Store
    /** `instanceData`, all zero until `init` reads it. */
    var instance: Instance
    /** `residentGroups`: what `init` found of Owners, Residents and Tenant (it accumulates across calls). */
    var residentGroups: seq<Group>

    constructor (idInstance: int, store: Store)
      ensures this.idInstance == idInstance && this.store == store
      ensures instance == Instance(0, 0) && residentGroups == []
    {
      this.idInstance := idInstance;
      this.store := store;
      instance := Instance(0, 0);
      residentGroups := [];
    }

    /** The id of the Owners group among the resident groups, 0 when it is missing. */
    function OwnersId(): int
      reads this
    {
      UpdateMemberships.GroupIdOf(residentGroups, OwnersUpper)
    }

    function TenantId(): int
      reads this
    {
      UpdateMemberships.GroupIdOf(residentGroups, TenantUpper)
    }

    /** A membership the update pipeline may remove: an Owners or Tenant membership of this instance. */
    predicate Removable(m: RoleGroup)
      reads this
    {
      m.instance == instance.id && m.group != 0 && (m.group == OwnersId() || m.group == TenantId())
    }

    function ContextOf(clock: Clock): Context
      reads this
    {
      Context(instance.id, instance.community, clock.timestamp, clock.date)
    }

    /**
     * The tables after a run that passes the guard (src/ResidentParser.ts:138-222): the marker
     * set, the unit upsert, the pipelines, the closing passes, and the marker released.
     */
    function AfterSync(t: Tables, rs: seq<FeedRecord>, c: Collaborators, clock: Clock, dupVictims: set<int>): Tables
      reads this
    {
      var t1 := AfterSaveUnits(t.SetImportStart(clock.startedAt), rs, instance.community);
      AfterFinish(AfterReconcile(t1, rs, c, ContextOf(clock), OwnersId(), TenantId()), rs, c, idInstance, residentGroups, dupVictims).ClearImportStart()
    }

    // ------------------------------------------------------------------ init

    /**
     * `init` (src/ResidentParser.ts:44-105): reads `instanceData`, looks the three resident groups
     * up by upper-cased name and pushes each one found, then fails unless all three are there and
     * exactly three were pushed, or when an import is already running.
     */
    method Init(data: Instance) returns (r: InitOutcome)
      modifies this
      ensures instance == data
      ensures store.groups == [] ==> r == NoGroups && residentGroups == old(residentGroups)
      ensures store.groups != [] ==> residentGroups == old(residentGroups) + FoundGroups(store.groups)
      ensures r == Ready <==>
        store.groups != [] && AllFound(store.groups) && |residentGroups| == 3 && store.importStart.None?
      ensures r == MissingGroups <==> store.groups != [] && !(AllFound(store.groups) && |residentGroups| == 3)
      ensures r.AlreadyRunning? <==>
        store.groups != [] && AllFound(store.groups) && |residentGroups| == 3 && store.importStart.Some?
      ensures r.AlreadyRunning? ==> store.importStart == Some(r.at)
    {
      instance := data;
      var groups := store.groups;
      if |groups| == 0 {
        return NoGroups;
      }
      var owners := GroupNamed(groups, OwnersUpper);
      if owners.Some? {
        residentGroups := residentGroups + [owners.value];
      }
      var residents := GroupNamed(groups, ResidentsUpper);
      if residents.Some? {
        residentGroups := residentGroups + [residents.value];
      }
      var tenant := GroupNamed(groups, TenantUpper);
      if tenant.Some? {
        residentGroups := residentGroups + [tenant.value];
      }
      assert residentGroups == old(residentGroups) + FoundGroups(groups);
      assert AllFound(groups) <==> owners.Some? && residents.Some? && tenant.Some?;
      if owners.None? || residents.None? || tenant.None? || |residentGroups| != 3 {
        return MissingGroups;
      }
      if store.importStart.Some? {
        return AlreadyRunning(store.importStart.value);
      }
      return Ready;
    }

    // ------------------------------------------------------------------ sync

    /**
     * `sync` (src/ResidentParser.ts:113-240). Before `init` it fails; while the guard's marker is
     * set it returns the running-import error and writes nothing. Otherwise it sets the marker,
     * runs every phase and releases the marker (`clearCache`); the create and update phases only
     * see records with a usable tenant id, so neither reports an error and the run succeeds.
     * Across the run no unit, account, profile, contract or metadata row is removed or re-keyed,
     * no active unit goes inactive, every valid batch title names a stored unit, and the only
     * role-group memberships removed are Owners and Tenant memberships.
     */
    method Sync(rs: seq<FeedRecord>, c: Collaborators, clock: Clock, dupVictims: set<int>) returns (r: SyncResult)
      modifies store
      ensures instance.id == 0 ==> r == NotInitialised && unchanged(store)
      ensures instance.id != 0 && old(store.importStart).Some? ==>
        r == Finished(false, false, RunningError(old(store.importStart).value)) && unchanged(store)
      ensures instance.id != 0 && old(store.importStart).None? ==>
        r == Finished(true, true, "") && store.importStart.None? &&
        store.Snapshot() == AfterSync(old(store.Snapshot()), rs, c, clock, dupVictims)
      ensures forall t :: t in Units.BatchTitles(rs) && instance.id != 0 && old(store.importStart).None? ==>
        t in Units.StoredTitles(store.units)
      ensures UnitsKept(old(store.units), store.units) && ActiveKept(old(store.units), store.units)
      ensures AccountsKept(old(store.accounts), store.accounts)
      ensures ProfilesKept(old(store.profiles), store.profiles)
      ensures ContractsKept(old(store.contracts), store.contracts)
      ensures MetaKept(old(store.metaData), store.metaData)
      ensures forall m :: m in old(store.roleGroups) && m !in store.roleGroups ==> Removable(m)
      ensures store.groups == old(store.groups) && store.customFields == old(store.customFields)
      ensures store.definedFields == old(store.definedFields)
    {
      if instance.id == 0 {
        return NotInitialised;
      }
      if store.importStart.Some? {
        return Finished(false, false, RunningError(store.importStart.value));
      }
      var success, errors := RunImport(rs, c, clock, dupVictims);
      r := Finished(success, success, errors);
    }

    /**
     * The guarded part of `sync` (src/ResidentParser.ts:138-222): the marker set, the unit
     * upsert, the classification and the two pipelines, the closing passes, and the marker
     * released. It reports success with no errors.
     */
    method RunImport(rs: seq<FeedRecord>, c: Collaborators, clock: Clock, dupVictims: set<int>) returns (success: bool, errors: string)
      modifies store
      ensures success && errors == ""
      ensures store.Snapshot() == AfterSync(old(store.Snapshot()), rs, c, clock, dupVictims)
      ensures store.importStart.None?
      ensures forall t :: t in Units.BatchTitles(rs) ==> t in Units.StoredTitles(store.units)
      ensures UnitsKept(old(store.units), store.units) && ActiveKept(old(store.units), store.units)
      ensures AccountsKept(old(store.accounts), store.accounts)
      ensures ProfilesKept(old(store.profiles), store.profiles)
      ensures ContractsKept(old(store.contracts), store.contracts)
      ensures MetaKept(old(store.metaData), store.metaData)
      ensures forall m :: m in old(store.roleGroups) && m !in store.roleGroups ==> Removable(m)
      ensures store.groups == old(store.groups) && store.customFields == old(store.customFields)
      ensures store.definedFields == old(store.definedFields)
    {
      ghost var t0 := store.Snapshot();
      store.SetImportStart(clock.startedAt);
      SaveUnits(rs);
      ghost var t1 := store.Snapshot();
      success, errors := Reconcile(rs, c, clock);
      ghost var t2 := store.Snapshot();
      Finish(rs, c, dupVictims);
      ghost var t3 := store.Snapshot();
      store.ClearImportStart();
      assert t3.units == t1.units;
      ProfilesKeptTrans(t0.profiles, t2.profiles, t3.profiles);
      ContractsKeptTrans(t0.contracts, t2.contracts, t3.contracts);
    }

    /**
     * The passes after the two pipelines (src/ResidentParser.ts:219-222): the metadata upsert on
     * the whole batch, then the role groups and the deactivation sweep on the records with a
     * usable tenant id. Metadata rows are only added or revalued, memberships of role groups only
     * added, profiles only soft-deleted and contracts only deactivated.
     */
    method Finish(rs: seq<FeedRecord>, c: Collaborators, dupVictims: set<int>)
      modifies store
      ensures store.Snapshot() == AfterFinish(old(store.Snapshot()), rs, c, idInstance, residentGroups, dupVictims)
      ensures MetaKept(old(store.metaData), store.metaData)
      ensures forall m :: m in old(store.roleGroups) ==> m in store.roleGroups
      ensures ProfilesKept(old(store.profiles), store.profiles)
      ensures ContractsKept(old(store.contracts), store.contracts)
      ensures store.units == old(store.units) && store.accounts == old(store.accounts)
      ensures store.groups == old(store.groups) && store.customFields == old(store.customFields)
      ensures store.definedFields == old(store.definedFields) && store.importStart == old(store.importStart)
    {
      SaveMetaData(rs);
      var jUsers := Filter(rs, HasTenant);
      SaveRoleGroups(jUsers, c);
      ghost var t0 := store.Snapshot();
      var _ := Deactivate(jUsers, dupVictims);
      SoftDeletesKeepProfiles(t0.profiles, store.profiles);
      DeactivatesKeepContracts(t0.contracts, store.contracts);
    }

    /**
     * The classification and the two pipelines (src/ResidentParser.ts:143-217): the records with
     * a usable tenant id are split into NEW and EXISTING against the profile tree, `create` runs
     * on the first part and `update` on the second. Both parts hold only such records, so neither
     * pipeline fails and the run reports success with no errors.
     */
    method Reconcile(rs: seq<FeedRecord>, c: Collaborators, clock: Clock) returns (success: bool, errors: string)
      modifies store
      ensures success && errors == ""
      ensures store.Snapshot() == AfterReconcile(old(store.Snapshot()), rs, c, ContextOf(clock), OwnersId(), TenantId())
      ensures AccountsKept(old(store.accounts), store.accounts)
      ensures ProfilesKept(old(store.profiles), store.profiles)
      ensures ContractsKept(old(store.contracts), store.contracts)
      ensures forall m :: m in old(store.roleGroups) && m !in store.roleGroups ==> Removable(m)
      ensures store.units == old(store.units) && store.groups == old(store.groups)
      ensures store.customFields == old(store.customFields) && store.definedFields == old(store.definedFields)
      ensures store.metaData == old(store.metaData) && store.importStart == old(store.importStart)
    {
      var jUsers := Filter(rs, HasTenant);
      var emails := BatchEmails(jUsers);
      var tree := Classification.BuildProfileTree(store.profiles);
      assert tree == Classification.TreeIds(store.profiles);
      var toCreate, toUpdate := Classification.Classify(jUsers, tree);
      Classification.PartitionSplitsBatch(jUsers, tree);
      ghost var t0 := store.Snapshot();
      ghost var ctx, owners, tenant := ContextOf(clock), OwnersId(), TenantId();
      success, errors := true, "";
      success, errors := CreateBlock(toCreate, emails, c, clock, success, errors);
      ghost var t1 := store.Snapshot();
      success, errors := UpdateBlock(toUpdate, c, clock, success, errors);
      assert ctx == ContextOf(clock) && owners == OwnersId() && tenant == TenantId();
      AccountsKeptTrans(t0.accounts, t1.accounts, store.accounts);
      ProfilesKeptTrans(t0.profiles, t1.profiles, store.profiles);
      ContractsKeptTrans(t0.contracts, t1.contracts, store.contracts);
    }

    /**
     * The `create` block of the reconcile (src/ResidentParser.ts:191-201): it runs only on a
     * non-empty NEW part, a reported error clears `success` and is appended to `errors`, and a
     * result without an error sets `success`.
     */
    method CreateBlock(newJUsers: seq<FeedRecord>, emails: seq<string>, c: Collaborators, clock: Clock,
                       success0: bool, errors0: string) returns (success: bool, errors: string)
      requires forall j :: j in newJUsers ==> HasTenant(j)
      modifies store
      ensures success == (success0 || newJUsers != []) && errors == errors0
      ensures store.Snapshot() == if newJUsers != [] then
        AfterCreate(old(store.Snapshot()), Filter(newJUsers, HasTenant), emails, c, ContextOf(clock)) else old(store.Snapshot())
      ensures AccountsKept(old(store.accounts), store.accounts)
      ensures ProfilesKept(old(store.profiles), store.profiles)
      ensures ContractsKept(old(store.contracts), store.contracts)
      ensures store.Snapshot() == old(store.Snapshot()).(accounts := store.accounts, profiles := store.profiles,
        unitProfiles := store.unitProfiles, contracts := store.contracts, nextId := store.nextId)
    {
      success, errors := success0, errors0;
      ghost var t0 := store.Snapshot();
      if |newJUsers| > 0 {
        assert newJUsers[0] in newJUsers;
        var failure := Create(newJUsers, emails, c, clock);
        match failure {
          case Some(msg) =>
            if msg != "" {
              success := false;
              errors := errors + msg + ". ";
            }
          case None =>
            success := true;
        }
        PrefixKeepsProfiles(t0.profiles, store.profiles);
        PrefixKeepsContracts(t0.contracts, store.contracts);
      }
    }

    /**
     * The `update` block of the reconcile (src/ResidentParser.ts:202-212): it runs only on a
     * non-empty EXISTING part; a reported error clears `success` and is appended to `errors`, an
     * empty one sets `success`, and a result without an error leaves both as they were.
     */
    method UpdateBlock(oldJUsers: seq<FeedRecord>, c: Collaborators, clock: Clock,
                       success0: bool, errors0: string) returns (success: bool, errors: string)
      requires forall j :: j in oldJUsers ==> HasTenant(j)
      modifies store
      ensures success == success0 && errors == errors0
      ensures store.Snapshot() == if oldJUsers != [] then
        AfterUpdate(old(store.Snapshot()), Filter(oldJUsers, HasTenant), c, ContextOf(clock), OwnersId(), TenantId())
        else old(store.Snapshot())
      ensures AccountsKept(old(store.accounts), store.accounts) && ProfilesKept(old(store.profiles), store.profiles)
      ensures ContractsKept(old(store.contracts), store.contracts)
      ensures forall m :: m in old(store.roleGroups) && m !in store.roleGroups ==> Removable(m)
      ensures store.Snapshot() == old(store.Snapshot()).(accounts := store.accounts, profiles := store.profiles,
        unitProfiles := store.unitProfiles, roleGroups := store.roleGroups, contracts := store.contracts, nextId := store.nextId)
    {
      success, errors := success0, errors0;
      if |oldJUsers| > 0 {
        assert oldJUsers[0] in oldJUsers;
        var failure := Update(oldJUsers, c, clock);
        match failure {
          case Some(msg) =>
            if msg != "" {
              success := false;
              errors := errors + msg + ". ";
            } else {
              success := true;
            }
          case None =>
        }
      }
    }

    // ------------------------------------------------------------------ unit upsert

    /**
     * `saveUnits` (src/ResidentParser.ts:1153-1206): without a valid title it writes nothing;
     * otherwise it appends, in reverse, one active unit per batch title without a stored unit,
     * then sets `is_active` on the inactive stored units of the batch titles.
     */
    method SaveUnits(rs: seq<FeedRecord>)
      modifies store
      ensures store.Snapshot() == AfterSaveUnits(old(store.Snapshot()), rs, instance.community)
      ensures Units.BatchTitles(rs) == [] ==> unchanged(store)
      ensures Units.BatchTitles(rs) != [] ==> (store.units ==
        Updated(old(store.units) + Units.Added(rs, old(store.units), instance.community, old(store.nextId)),
                Units.Reactivations(Units.CommonTitles(rs, old(store.units)), old(store.units)),
                (u: Unit) => u.id, CopyIsActive))
      ensures forall t :: t in Units.BatchTitles(rs) ==> t in Units.StoredTitles(store.units)
      ensures UnitsKept(old(store.units), store.units) && ActiveKept(old(store.units), store.units)
      ensures store.Snapshot() == old(store.Snapshot()).(units := store.units, nextId := store.nextId)
    {
      var units := store.units;
      if |Filter(rs, Units.ValidTitle)| == 0 {
        assert forall t :: t !in Units.BatchTitles(rs);
        return;
      }
      assert Filter(rs, Units.ValidTitle)[0] in Filter(rs, Units.ValidTitle);
      assert Filter(rs, Units.ValidTitle)[0].unitTitle in Units.BatchTitles(rs);
      var next := store.nextId;
      var common := Units.CommonTitles(rs, units);
      var toUpdate := Units.StageReactivations(common, units);
      var toAdd := Units.UnitsToAdd(rs, units, instance.community);
      store.SaveUnits(Reversed(toAdd));
      ghost var all := store.units;
      assert all == units + Units.Added(rs, units, instance.community, next);
      store.UpdateUnits(toUpdate);
      Units.ReactivationsExact(common, units);
      assert forall u :: u in toUpdate ==> u.isActive == 1;
      UnitsKeptTrans(units, all, store.units);
      ActiveKeptTrans(units, all, store.units);
      Units.BatchTitlesStored(rs, units, instance.community, next, store.units);
    }

    // ------------------------------------------------------------------ create

    /**
     * `create` (src/ResidentParser.ts:679-1151) on the records classified NEW: fails when none has
     * a usable tenant id; otherwise saves the email accounts, the emailed profiles, the placeholder
     * accounts, the profiles without email, the unit memberships and the contract rows, each list
     * reversed and each staged against the snapshot the source reads before it, and finally
     * clears the placeholders' temporary references. Existing profiles, memberships and contracts
     * are left exactly as they were; accounts keep their ids, usernames and emails.
     */
    method Create(rs: seq<FeedRecord>, emails: seq<string>, c: Collaborators, clock: Clock) returns (failure: Option<string>)
      modifies store
      ensures failure.Some? <==> forall j :: j in rs ==> !HasTenant(j)
      ensures failure.Some? ==> failure.value == NoTenantsError && unchanged(store)
      ensures failure.None? ==> store.Snapshot() == AfterCreate(old(store.Snapshot()), Filter(rs, HasTenant), emails, c, ContextOf(clock))
      ensures old(store.profiles) <= store.profiles && old(store.unitProfiles) <= store.unitProfiles
      ensures old(store.contracts) <= store.contracts
      ensures AccountsKept(old(store.accounts), store.accounts)
      ensures store.Snapshot() == old(store.Snapshot()).(accounts := store.accounts, profiles := store.profiles,
        unitProfiles := store.unitProfiles, contracts := store.contracts, nextId := store.nextId)
    {
      var jUsers := Filter(rs, HasTenant);
      if |jUsers| == 0 {
        return Some(NoTenantsError);
      }
      assert jUsers[0] in jUsers;
      ghost var t0 := store.Snapshot();
      CreateEmailUsers(jUsers, emails, c, clock);
      ghost var t1 := store.Snapshot();
      var refs := CreateNoEmailUsers(jUsers, c, clock);
      ghost var t2 := store.Snapshot();
      CreateUnitLinks(jUsers, c, clock);
      store.ClearAccountRefs(RefIds(refs));
      AccountsKeptTrans(t0.accounts, t1.accounts, t2.accounts);
      AccountsKeptTrans(t0.accounts, t2.accounts, store.accounts);
      return None;
    }

    /** Steps 1 and 2 of `create` (src/ResidentParser.ts:704-870): the email accounts, then the emailed profiles. */
    method CreateEmailUsers(jUsers: seq<FeedRecord>, emails: seq<string>, c: Collaborators, clock: Clock)
      modifies store
      ensures store.Snapshot() == AfterEmailUsers(old(store.Snapshot()), jUsers, emails, c, ContextOf(clock))
      ensures old(store.profiles) <= store.profiles
      ensures AccountsKept(old(store.accounts), store.accounts)
      ensures store.Snapshot() == old(store.Snapshot()).(accounts := store.accounts, profiles := store.profiles, nextId := store.nextId)
    {
      var dbProfiles := store.profiles;
      var dbEmails := store.Snapshot().UsersByEmails(emails);
      var withEmail := Filter(jUsers, HasEmail);
      var newEmails := CreateAccounts.StageEmailAccounts(dbEmails, dbProfiles, withEmail);
      if |newEmails| > 0 {
        store.SaveAccounts(Reversed(newEmails));
        dbEmails := store.Snapshot().UsersByEmails(emails);
      }
      var newProfiles, newAccounts := CreateAccounts.StageEmailProfiles(
        CreateAccounts.ProfileEnv(dbEmails, dbProfiles, c, instance.community, clock.timestamp), withEmail);
      if |newProfiles| > 0 {
        store.SaveProfiles(Reversed(newProfiles));
      }
    }

    /**
     * Steps 3 and 4 of `create` (src/ResidentParser.ts:872-1005): one placeholder account per
     * tenant id without email, then the profiles without email; returns the temporary references.
     */
    method CreateNoEmailUsers(jUsers: seq<FeedRecord>, c: Collaborators, clock: Clock) returns (refs: seq<Option<int>>)
      modifies store
      ensures store.Snapshot() == AfterNoEmailUsers(old(store.Snapshot()), jUsers, c, ContextOf(clock))
      ensures refs == NoEmailRefs(old(store.Snapshot()), jUsers)
      ensures old(store.profiles) <= store.profiles
      ensures AccountsKept(old(store.accounts), store.accounts)
      ensures store.Snapshot() == old(store.Snapshot()).(accounts := store.accounts, profiles := store.profiles, nextId := store.nextId)
    {
      var noEmail := Filter(jUsers, CreateAccounts.NoEmailTenant);
      var ids := TenantIds(jUsers);
      var withIds := store.Snapshot().ProfilesByAccountIds(ids);
      var placeholders;
      placeholders, refs := CreateAccounts.StagePlaceholders(withIds, noEmail);
      var refUsers: seq<Account> := [];
      if |placeholders| > 0 {
        store.SaveAccounts(Reversed(placeholders));
        refUsers := store.Snapshot().UsersByAccountRefs(ids);
      }
      var noEmailProfiles := CreateAccounts.StageNoEmailProfiles(
        CreateAccounts.NoEmailEnv(withIds, refUsers, c, clock.timestamp), noEmail);
      if |noEmailProfiles| > 0 {
        store.SaveProfiles(Reversed(noEmailProfiles));
      }
    }

    /** Steps 5 and 6 of `create` (src/ResidentParser.ts:1007-1138): the unit memberships, then the contract rows. */
    method CreateUnitLinks(jUsers: seq<FeedRecord>, c: Collaborators, clock: Clock)
      modifies store
      ensures store.Snapshot() == AfterCreateUnitLinks(old(store.Snapshot()), jUsers, c, ContextOf(clock))
      ensures old(store.unitProfiles) <= store.unitProfiles && old(store.contracts) <= store.contracts
      ensures store.Snapshot() == old(store.Snapshot()).(unitProfiles := store.unitProfiles, contracts := store.contracts, nextId := store.nextId)
    {
      var ctx := ContextOf(clock);
      var ids := TenantIds(jUsers);
      var units := store.units;
      var titles := Dedup(Map(Filter(jUsers, HasTitle), Units.TitleOf));
      var views := store.Snapshot().UnitProfilesByTitles(titles);
      var ups := store.Snapshot().UserProfilesByAccountIds(ids);
      var matched, memberships := CreateMemberships.StageMemberships(
        CreateMemberships.MemberEnv(c, ctx, units, views, ups), jUsers);
      if |memberships| > 0 {
        store.SaveUnitProfiles(Reversed(memberships));
      }
      var inserts := CreateMemberships.StageContracts(store.contracts, ctx, matched);
      if |inserts| > 0 {
        store.SaveContracts(Reversed(inserts));
      }
    }

    // ------------------------------------------------------------------ update

    /**
     * `update` (src/ResidentParser.ts:1208-1695) on the records classified EXISTING: fails when
     * none has a usable tenant id; otherwise runs the account loop and its writes, the profile and
     * contract loop and its writes, the membership-transition loop and its group removals, the
     * creation of the listed memberships, the membership updates, and clears the placeholders'
     * references. Removals happen before membership creates, and creates before updates. No row
     * is removed except Owners and Tenant memberships, and none is re-keyed.
     */
    method Update(rs: seq<FeedRecord>, c: Collaborators, clock: Clock) returns (failure: Option<string>)
      modifies store
      ensures failure.Some? <==> forall j :: j in rs ==> !HasTenant(j)
      ensures failure.Some? ==> failure.value == NoTenantsError && unchanged(store)
      ensures failure.None? ==>
        store.Snapshot() == AfterUpdate(old(store.Snapshot()), Filter(rs, HasTenant), c, ContextOf(clock), OwnersId(), TenantId())
      ensures AccountsKept(old(store.accounts), store.accounts) && ProfilesKept(old(store.profiles), store.profiles)
      ensures ContractsKept(old(store.contracts), store.contracts)
      ensures MembershipsKept(old(store.unitProfiles), store.unitProfiles)
      ensures forall m :: m in store.roleGroups ==> m in old(store.roleGroups)
      ensures forall m :: m in old(store.roleGroups) && m !in store.roleGroups ==> Removable(m)
      ensures store.Snapshot() == old(store.Snapshot()).(accounts := store.accounts, profiles := store.profiles,
        unitProfiles := store.unitProfiles, roleGroups := store.roleGroups, contracts := store.contracts, nextId := store.nextId)
    {
      var jUsers := Filter(rs, HasTenant);
      if |jUsers| == 0 {
        return Some(NoTenantsError);
      }
      assert jUsers[0] in jUsers;
      var ids := TenantIds(jUsers);
      var emails := BatchEmails(jUsers);
      var ups := store.Snapshot().UserProfilesByAccountIdsOrEmails(ids, emails);
      var dbProfiles := store.Snapshot().ProfilesByAccountIds(ids);
      var views := store.Snapshot().UnitProfilesByTitles(Dedup(Map(jUsers, Units.TitleOf)));
      ghost var t0 := store.Snapshot();
      var refs, saved := UpdateUserAccounts(jUsers, ups);
      ghost var t1 := store.Snapshot();
      UpdateUserProfiles(jUsers, dbProfiles, saved, c, clock);
      ghost var t2 := store.Snapshot();
      var creates, retyped := UpdateTransitions(jUsers, views, c, clock);
      UpdateUnitLinks(jUsers, creates, retyped, views, c, clock);
      if |refs| > 0 {
        store.ClearAccountRefs(RefIds(refs));
      }
      AccountsKeptTrans(t0.accounts, t1.accounts, store.accounts);
      return None;
    }

    /**
     * The account loop of `update` and its writes (src/ResidentParser.ts:1279-1391): new accounts
     * for changed emails, display-name updates, and placeholder accounts for email-less profiles
     * under temporary references; returns those references and the placeholders as saved.
     */
    method UpdateUserAccounts(jUsers: seq<FeedRecord>, ups: seq<UserProfile>) returns (refs: seq<Option<int>>, saved: seq<Account>)
      modifies store
      ensures store.Snapshot() == AfterUserAccounts(old(store.Snapshot()), jUsers, ups)
      ensures refs == Map(AccountChangesOf(old(store.Snapshot()), jUsers, ups).noEmail, RefOf)
      ensures saved == SavedPlaceholders(old(store.Snapshot()), jUsers, ups)
      ensures AccountsKept(old(store.accounts), store.accounts)
      ensures store.Snapshot() == old(store.Snapshot()).(accounts := store.accounts, nextId := store.nextId)
    {
      var toAdd, toUpdate, noEmail := UpdateAccounts.StageAccountChanges(UpdateAccounts.AccountEnv(ups, store.accounts), jUsers);
      refs, saved := [], [];
      ghost var a0 := store.accounts;
      if |toAdd| > 0 || |toUpdate| > 0 || |noEmail| > 0 {
        if |toAdd| > 0 {
          store.SaveAccounts(Reversed(toAdd));
        }
        ghost var a1 := store.accounts;
        if |toUpdate| > 0 {
          store.UpdateAccountNames(toUpdate);
        }
        AccountsKeptTrans(a0, a1, store.accounts);
        ghost var a2 := store.accounts;
        if |noEmail| > 0 {
          refs := Map(noEmail, RefOf);
          store.SaveAccounts(Reversed(noEmail));
          saved := store.Snapshot().UsersByAccountRefs(RefIds(refs));
        }
        AccountsKeptTrans(a0, a2, store.accounts);
      }
    }

    /**
     * The profile and contract loop of `update` and its writes (src/ResidentParser.ts:1393-1547):
     * profile-column updates, then the new contract rows, then the contract updates.
     */
    method UpdateUserProfiles(jUsers: seq<FeedRecord>, dbProfiles: seq<Profile>, saved: seq<Account>, c: Collaborators, clock: Clock)
      modifies store
      ensures store.Snapshot() == AfterUserProfiles(old(store.Snapshot()), jUsers, dbProfiles, saved, c, ContextOf(clock))
      ensures ProfilesKept(old(store.profiles), store.profiles) && ContractsKept(old(store.contracts), store.contracts)
      ensures store.Snapshot() == old(store.Snapshot()).(profiles := store.profiles, contracts := store.contracts, nextId := store.nextId)
    {
      var ids := TenantIds(jUsers);
      var ups := store.Snapshot().UserProfilesByAccountIdsOrEmails(ids, BatchEmails(jUsers));
      var contracts := store.Snapshot().ContractsByAccountIds(ids);
      var profiles, inserts, updates := UpdateProfiles.StageRefresh(
        UpdateProfiles.RefreshEnv(ups, dbProfiles, contracts, saved, store.accounts, c, ContextOf(clock)), jUsers);
      if |profiles| > 0 {
        store.UpdateProfiles(profiles);
      }
      ghost var c0 := store.contracts;
      if |inserts| > 0 {
        store.SaveContracts(Reversed(inserts));
      }
      ghost var c1 := store.contracts;
      if |updates| > 0 {
        store.UpdateContracts(updates);
      }
      ContractsKeptTrans(c0, c1, store.contracts);
    }

    /**
     * The membership-transition loop of `update` and its group removals
     * (src/ResidentParser.ts:1549-1616): exactly the memberships the loop lists are removed, and
     * they are Owners and Tenant memberships of this instance; returns the memberships to create
     * and the retyped ones.
     */
    method UpdateTransitions(jUsers: seq<FeedRecord>, views: seq<UnitProfileView>, c: Collaborators, clock: Clock)
      returns (creates: seq<UpdateMemberships.Entry>, retyped: seq<UnitProfile>)
      modifies store
      ensures store.Snapshot() == AfterTransitions(old(store.Snapshot()), jUsers, views, c, ContextOf(clock), OwnersId(), TenantId())
      ensures var tr := UpdateMemberships.Transitions(TransitionEnvOf(old(store.Snapshot()), jUsers, views, c, ContextOf(clock), OwnersId(), TenantId()), jUsers);
        && creates == tr.creates && retyped == tr.updates
        && forall m :: m in store.roleGroups <==> m in old(store.roleGroups) && m !in tr.removals
      ensures forall m :: m in old(store.roleGroups) && m !in store.roleGroups ==> Removable(m)
      ensures store.Snapshot() == old(store.Snapshot()).(roleGroups := store.roleGroups)
    {
      var ups := store.Snapshot().UserProfilesByAccountIdsOrEmails(TenantIds(jUsers), BatchEmails(jUsers));
      var te := UpdateMemberships.TransitionEnv(ups, views, c, ContextOf(clock), OwnersId(), TenantId());
      var removals;
      creates, retyped, removals := UpdateMemberships.StageTransitions(te, jUsers);
      UpdateMemberships.RemovalsOnlyOwnersOrTenant(te, jUsers);
      if |removals| > 0 {
        store.DeleteRoleGroups(removals);
      }
    }

    /**
     * The memberships `update` creates, then the retyped ones it rewrites
     * (src/ResidentParser.ts:1618-1679).
     */
    method UpdateUnitLinks(jUsers: seq<FeedRecord>, creates: seq<UpdateMemberships.Entry>, retyped: seq<UnitProfile>,
                           views: seq<UnitProfileView>, c: Collaborators, clock: Clock)
      modifies store
      ensures store.Snapshot() == AfterUpdateUnitLinks(old(store.Snapshot()), jUsers, creates, retyped, views, c, ContextOf(clock))
      ensures MembershipsKept(old(store.unitProfiles), store.unitProfiles)
      ensures store.Snapshot() == old(store.Snapshot()).(unitProfiles := store.unitProfiles, nextId := store.nextId)
    {
      var ups := store.Snapshot().UserProfilesByAccountIdsOrEmails(TenantIds(jUsers), BatchEmails(jUsers));
      ghost var m0 := store.unitProfiles;
      if |creates| > 0 {
        var units := store.units;
        var additions := UpdateMemberships.StageAdditions(UpdateMemberships.AddEnv(ups, views, units, c, ContextOf(clock)), creates);
        if |additions| > 0 {
          store.SaveUnitProfiles(Reversed(additions));
        }
      }
      ghost var m1 := store.unitProfiles;
      if |retyped| > 0 {
        store.UpdateUnitProfiles(retyped);
      }
      MembershipsKeptTrans(m0, m1, store.unitProfiles);
    }

    // ------------------------------------------------------------------ metadata

    /**
     * `saveCustomFieldsMetaDataByMapping` (src/ResidentParser.ts:398-558): appends the queued
     * inserts in reverse, then rewrites the `value` of the queued updates.
     */
    method SaveMetaData(rs: seq<FeedRecord>)
      modifies store
      ensures store.Snapshot() == AfterMetaData(old(store.Snapshot()), rs)
      ensures var q := MetaQueue(old(store.Snapshot()), rs);
        store.metaData == Updated(
          old(store.metaData) + Numbered(Reversed(q.adds), old(store.nextId), (m: MetaData, k: int) => m.(id := k)),
          q.ups, (m: MetaData) => m.id, CopyMetaValue)
      ensures MetaKept(old(store.metaData), store.metaData)
      ensures store.Snapshot() == old(store.Snapshot()).(metaData := store.metaData, nextId := store.nextId)
    {
      var ue := UnitMetaEnv(store.Snapshot(), rs);
      var pe := UserMetaEnv(store.Snapshot(), rs);
      var adds: seq<MetaData>, ups: seq<MetaData> := [], [];
      if |ue.customFields| > 0 && |ue.defined| > 0 {
        adds, ups := MetaSync.StageMetaData(ue, rs);
      }
      if |pe.customFields| > 0 && |pe.defined| > 0 {
        var userAdds, userUps := MetaSync.StageMetaData(pe, rs);
        adds, ups := adds + userAdds, ups + userUps;
      }
      assert MetaSync.Queue(adds, ups) == MetaQueue(store.Snapshot(), rs);
      WriteMetaData(adds, ups);
    }

    /** The two bulk writes of the metadata pass: the inserts in reverse, then the `value` updates. */
    method WriteMetaData(adds: seq<MetaData>, ups: seq<MetaData>)
      modifies store
      ensures store.Snapshot() == AfterMetaWrites(old(store.Snapshot()), adds, ups)
      ensures store.metaData == Updated(
        old(store.metaData) + Numbered(Reversed(adds), old(store.nextId), (m: MetaData, k: int) => m.(id := k)),
        ups, (m: MetaData) => m.id, CopyMetaValue)
      ensures MetaKept(old(store.metaData), store.metaData)
      ensures store.Snapshot() == old(store.Snapshot()).(metaData := store.metaData, nextId := store.nextId)
    {
      ghost var m0 := store.metaData;
      if |adds| > 0 || |ups| > 0 {
        if |adds| > 0 {
          store.SaveMetaData(Reversed(adds));
        }
        ghost var m1 := store.metaData;
        if |ups| > 0 {
          store.UpdateMetaData(ups);
        }
        MetaKeptTrans(m0, m1, store.metaData);
      }
    }

    // ------------------------------------------------------------------ role groups

    /** `saveUsersToRoleGroups` (src/ResidentParser.ts:242-315): appends the queued memberships in reverse. */
    method SaveRoleGroups(rs: seq<FeedRecord>, c: Collaborators)
      modifies store
      ensures store.Snapshot() == AfterRoleGroups(old(store.Snapshot()), rs, RoleEnvOf(old(store.Snapshot()), idInstance, residentGroups, c))
      ensures store.roleGroups ==
        old(store.roleGroups) + Reversed(RoleGroups.Assign(RoleEnvOf(old(store.Snapshot()), idInstance, residentGroups, c), rs).toAdd)
      ensures store.Snapshot() == old(store.Snapshot()).(roleGroups := store.roleGroups)
    {
      var toAdd := RoleGroups.StageRoleGroups(RoleEnvOf(store.Snapshot(), idInstance, residentGroups, c), rs);
      if |toAdd| > 0 {
        store.SaveRoleGroups(Reversed(toAdd));
      }
    }


    // ------------------------------------------------------------------ deactivation

    /**
     * `deactivateUsers` (src/ResidentParser.ts:560-677): when some record matches a unit and a
     * user, deletes the memberships outside the matched pairs, runs the duplicate-email collapse
     * (its victims given), and soft-deletes the unmatched non-administrative profiles with
     * external ids and deactivates their contracts (see `SweepEffect`). Profiles and contracts
     * change only in those two flags.
     */
    method Deactivate(rs: seq<FeedRecord>, dupVictims: set<int>) returns (failure: Option<string>)
      modifies store
      ensures failure.None? <==> SweepMatches(old(store.Snapshot()), rs) != []
      ensures Filter(rs, Deactivation.NamesUnit) == [] ==> failure == Some(NoUnitEntriesError)
      ensures failure.Some? ==> unchanged(store)
      ensures failure.None? ==> store.Snapshot() == AfterSweep(old(store.Snapshot()), rs, dupVictims)
      ensures failure.None? ==> forall u :: u in store.unitProfiles <==>
        u in old(store.unitProfiles) && u.id !in Deactivation.Removals(old(store.unitProfiles), SweepMatches(old(store.Snapshot()), rs))
      ensures failure.None? && Deactivation.UniqueMembershipIds(old(store.unitProfiles)) ==> forall u :: u in store.unitProfiles <==>
        u in old(store.unitProfiles) && Deactivation.HasPair(SweepMatches(old(store.Snapshot()), rs), u)
      ensures failure.None? ==> var vs := SweptProfiles(old(store.Snapshot()), rs, dupVictims);
        && (forall i :: 0 <= i < |old(store.profiles)| ==>
              (store.profiles[i].isDeleted == 1 <==>
                 old(store.profiles[i].isDeleted) == 1 || old(store.profiles[i].id) in dupVictims || old(store.profiles[i].id) in ProfileIds(vs)))
        && (forall i :: 0 <= i < |old(store.contracts)| ==>
              (store.contracts[i].isActive == 0 <==> old(store.contracts[i].isActive) == 0 || old(store.contracts[i].idUser) in UserIds(vs)))
      ensures SoftDeletesOnly(old(store.profiles), store.profiles)
      ensures DeactivatesOnly(old(store.contracts), store.contracts)
      ensures store.Snapshot() == old(store.Snapshot()).(unitProfiles := store.unitProfiles, profiles := store.profiles,
        contracts := store.contracts)
    {
      var js := Filter(rs, Deactivation.NamesUnit);
      if |js| == 0 {
        assert SweepMatches(store.Snapshot(), rs) == [];
        return Some(NoUnitEntriesError);
      }
      var ups := store.Snapshot().UserProfilesByAccountIds(Deactivation.AccountIdsOf(js));
      var matched := Deactivation.MatchUnitUsers(store.units, ups, js);
      if |matched| == 0 {
        return Some(NoMatchError);
      }
      ghost var t0 := store.Snapshot();
      var removals := Deactivation.UnitProfilesToRemove(store.unitProfiles, matched);
      if Deactivation.UniqueMembershipIds(store.unitProfiles) {
        Deactivation.KeptIffMatched(store.unitProfiles, matched);
      }
      if |removals| > 0 {
        store.DeleteUnitProfiles(removals);
      }
      store.SoftDeleteProfiles(dupVictims);
      var jIds := Dedup(Map(matched, MatchedUser));
      var ps := store.Snapshot().ProfilesWithAccountIds();
      var admins := Filter(store.Snapshot().UserGroupsOf(UserIds(ps)), Deactivation.IsAdminEntry);
      var victims := Deactivation.ProfilesToDeactivate(ps, admins, jIds);
      if |victims| > 0 {
        store.SoftDeleteProfiles(ProfileIds(victims));
        store.DeactivateContracts(UserIds(victims));
      }
      SweepEffect(t0, rs, dupVictims);
      return None;
    }
  }
}
