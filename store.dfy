/**
 * The persistent store behind the engine's `DbTask`: one sequence per table. Reads are functions
 * of the current tables; `saveBulk` appends rows under the next auto-increment ids; `updateBulk`
 * overwrites only the listed columns of the rows whose id it names (a later entry for the same id
 * wins); hard deletes drop rows, soft deletes set a flag.
 */
module Db {
  import opened Wrappers
  import opened Text
  import opened Records

  /** The rows `saveBulk` stores: row `i` receives id `start + i` unless it already carries one. */
  function Numbered<T>(rows: seq<T>, start: int, withId: (T, int) -> T): (r: seq<T>)
    ensures |r| == |rows| && forall i :: 0 <= i < |rows| ==> r[i] == withId(rows[i], start + i)
  {
    if rows == [] then [] else Numbered(rows[..|rows| - 1], start, withId) + [withId(rows[|rows| - 1], start + |rows| - 1)]
  }

  /** The last entry of an `updateBulk` list that addresses `id`. */
  function LastFor<T>(ups: seq<T>, idOf: T -> int, id: int): (r: Option<T>)
    ensures r.Some? ==> r.value in ups && idOf(r.value) == id
    ensures r.None? <==> forall u :: u in ups ==> idOf(u) != id
  {
    if ups == [] then None
    else if idOf(ups[|ups| - 1]) == id then Some(ups[|ups| - 1])
    else LastFor(ups[..|ups| - 1], idOf, id)
  }

  /** `updateBulk`: every row addressed by an entry takes that entry's listed columns (`copy`). */
  function Updated<T>(rows: seq<T>, ups: seq<T>, idOf: T -> int, copy: (T, T) -> T): (r: seq<T>)
    ensures |r| == |rows|
    ensures forall i :: 0 <= i < |rows| ==>
      r[i] == match LastFor(ups, idOf, idOf(rows[i])) case None => rows[i] case Some(u) => copy(rows[i], u)
  {
    Map(rows, (x: T) => match LastFor(ups, idOf, idOf(x)) case None => x case Some(u) => copy(x, u))
  }

  /** The single unit column written by the unit upsert (src/ResidentParser.ts:1201). */
  function CopyIsActive(row: Unit, up: Unit): Unit {
    row.(isActive := up.isActive)
  }

  /** The profile columns written by the update pipeline (src/ResidentParser.ts:1533). */
  function CopyProfileColumns(row: Profile, up: Profile): (r: Profile)
    ensures r.id == row.id && r.community == row.community && r.idAccount == row.idAccount
    ensures r.registered == row.registered && r.idLanguage == row.idLanguage
  {
    row.(idUser := up.idUser, firstName := up.firstName, lastName := up.lastName,
         displayName := up.displayName, email := up.email, isValidEmail := up.isValidEmail,
         isLocal := up.isLocal, isAclActive := up.isAclActive, phone := up.phone,
         isValidHomePhone := up.isValidHomePhone, cellPhone := up.cellPhone,
         isValidCellPhone := up.isValidCellPhone, isDeleted := up.isDeleted)
  }

  /** The unit-membership columns written by the update pipeline (src/ResidentParser.ts:1678). */
  function CopyUnitProfileColumns(row: UnitProfile, up: UnitProfile): UnitProfile {
    row.(isResident := up.isResident, idGroupType := up.idGroupType, idResidentType := up.idResidentType)
  }

  /** The contract columns written by the update pipeline (src/ResidentParser.ts:1546). */
  function CopyContractColumns(row: Contract, up: Contract): Contract {
    row.(community := up.community, idUser := up.idUser, modified := up.modified)
  }

  /** The single metadata column ever updated (src/ResidentParser.ts:554). */
  function CopyMetaValue(row: MetaData, up: MetaData): MetaData {
    row.(value := up.value)
  }

  /** The single account column updated on a name change (src/ResidentParser.ts:1377). */
  function CopyDisplayName(row: Account, up: Account): Account {
    row.(displayName := up.displayName)
  }

  /** Accounts joined with the profiles linked to them, in profile order (an inner join). */
  function JoinProfiles(ps: seq<Profile>, accounts: seq<Account>): (r: seq<UserProfile>)
    ensures |r| <= |ps|
    ensures forall v :: v in r ==> exists p :: p in ps && p.idAccount == v.idAccount && p.email == v.profileEmail
  {
    if ps == [] then []
    else
      var rest := JoinProfiles(ps[..|ps| - 1], accounts);
      var p := ps[|ps| - 1];
      assert forall q :: q in ps[..|ps| - 1] ==> q in ps;
      match Find(accounts, (a: Account) => a.id == p.idUser)
      case None => rest
      case Some(a) =>
        rest + [UserProfile(a.id, p.idAccount, a.email, p.email, a.displayName, p.displayName)]
  }

  /** Unit memberships joined with the title of their unit, kept when the title is listed. */
  function JoinUnits(ups: seq<UnitProfile>, units: seq<Unit>, titles: set<string>): (r: seq<UnitProfileView>)
    ensures forall v :: v in r ==> v.row in ups && v.title in titles
  {
    if ups == [] then []
    else
      var rest := JoinUnits(ups[..|ups| - 1], units, titles);
      var u := ups[|ups| - 1];
      assert forall q :: q in ups[..|ups| - 1] ==> q in ups;
      match Find(units, (x: Unit) => x.id == u.idUnit)
      case Some(x) => if x.title in titles then rest + [UnitProfileView(u, x.title)] else rest
      case None => rest
  }

  predicate EmailIn(e: Option<string>, keys: set<string>) {
    e.Some? && Normalize(e.value) in keys
  }

  predicate AccountIn(a: Option<int>, ids: set<int>) {
    a.Some? && a.value in ids
  }

  /** A membership together with the name of its group (`getUsersGroupsOfUserIDs`). */
  datatype UserGroup = UserGroup(role: int, groupName: string)

  function GroupNamesOf(ms: seq<RoleGroup>, groups: seq<Group>, users: set<int>): (r: seq<UserGroup>)
    ensures forall g :: g in r ==> g.role in users
  {
    if ms == [] then []
    else
      var rest := GroupNamesOf(ms[..|ms| - 1], groups, users);
      var m := ms[|ms| - 1];
      match Find(groups, (g: Group) => g.id == m.group)
      case Some(g) => if m.role in users then rest + [UserGroup(m.role, g.name)] else rest
      case None => rest
  }

  // ------------------------------------------------- what the writes keep of existing rows

  /** No unit is removed, and every stored unit keeps its id, community and title. */
  predicate UnitsKept(before: seq<Unit>, after: seq<Unit>) {
    |before| <= |after|
    && forall i :: 0 <= i < |before| ==>
      after[i].id == before[i].id && after[i].community == before[i].community && after[i].title == before[i].title
  }

  /** No active unit becomes inactive. */
  predicate ActiveKept(before: seq<Unit>, after: seq<Unit>) {
    |before| <= |after| && forall i :: 0 <= i < |before| && before[i].isActive == 1 ==> after[i].isActive == 1
  }

  /** No account is removed, and every account keeps its id, username and email. */
  predicate AccountsKept(before: seq<Account>, after: seq<Account>) {
    |before| <= |after|
    && forall i :: 0 <= i < |before| ==>
      after[i].id == before[i].id && after[i].username == before[i].username && after[i].email == before[i].email
  }

  /** No profile is removed, and every profile keeps its id, community and external account id. */
  predicate ProfilesKept(before: seq<Profile>, after: seq<Profile>) {
    |before| <= |after|
    && forall i :: 0 <= i < |before| ==>
      after[i].id == before[i].id && after[i].community == before[i].community && after[i].idAccount == before[i].idAccount
  }

  /** No membership is removed, and every membership keeps its id, community, unit and user. */
  predicate MembershipsKept(before: seq<UnitProfile>, after: seq<UnitProfile>) {
    |before| <= |after|
    && forall i :: 0 <= i < |before| ==>
      after[i].id == before[i].id && after[i].community == before[i].community
      && after[i].idUnit == before[i].idUnit && after[i].idUser == before[i].idUser
  }

  /** No contract row is removed, and every row keeps its id and contract record (the tenant id). */
  predicate ContractsKept(before: seq<Contract>, after: seq<Contract>) {
    |before| <= |after|
    && forall i :: 0 <= i < |before| ==> after[i].id == before[i].id && after[i].record == before[i].record
  }

  /** No metadata row is removed, and every row keeps its key (id, entity, object, field). */
  predicate MetaKept(before: seq<MetaData>, after: seq<MetaData>) {
    |before| <= |after|
    && forall i :: 0 <= i < |before| ==>
      after[i].id == before[i].id && after[i].entity == before[i].entity
      && after[i].objectId == before[i].objectId && after[i].field == before[i].field
  }

  /** Profiles change at most in their soft-delete flag. */
  predicate SoftDeletesOnly(before: seq<Profile>, after: seq<Profile>) {
    |before| == |after| && forall i :: 0 <= i < |before| ==> after[i] == before[i] || after[i] == before[i].(isDeleted := 1)
  }

  /** Contract rows change at most in their active flag. */
  predicate DeactivatesOnly(before: seq<Contract>, after: seq<Contract>) {
    |before| == |after| && forall i :: 0 <= i < |before| ==> after[i] == before[i] || after[i] == before[i].(isActive := 0)
  }

  lemma SoftDeletesOnlyTrans(a: seq<Profile>, b: seq<Profile>, c: seq<Profile>)
    requires SoftDeletesOnly(a, b) && SoftDeletesOnly(b, c)
    ensures SoftDeletesOnly(a, c)
  {
    forall i | 0 <= i < |a| ensures c[i] == a[i] || c[i] == a[i].(isDeleted := 1) {
      if b[i] != a[i] {
        assert b[i].(isDeleted := 1) == a[i].(isDeleted := 1);
      }
    }
  }

  lemma DeactivatesOnlyTrans(a: seq<Contract>, b: seq<Contract>, c: seq<Contract>)
    requires DeactivatesOnly(a, b) && DeactivatesOnly(b, c)
    ensures DeactivatesOnly(a, c)
  {
    forall i | 0 <= i < |a| ensures c[i] == a[i] || c[i] == a[i].(isActive := 0) {
      if b[i] != a[i] {
        assert b[i].(isActive := 0) == a[i].(isActive := 0);
      }
    }
  }

  /** The removed rows are listed ones, and no row is added. */
  predicate RemovedOnly<T(==)>(before: seq<T>, after: seq<T>, rows: seq<T>) {
    (forall m :: m in after ==> m in before) && (forall m :: m in before && m !in after ==> m in rows)
  }

  lemma UnitsKeptTrans(a: seq<Unit>, b: seq<Unit>, c: seq<Unit>)
    requires UnitsKept(a, b) && UnitsKept(b, c)
    ensures UnitsKept(a, c)
  {
  }

  lemma ActiveKeptTrans(a: seq<Unit>, b: seq<Unit>, c: seq<Unit>)
    requires ActiveKept(a, b) && ActiveKept(b, c)
    ensures ActiveKept(a, c)
  {
  }

  lemma MetaKeptTrans(a: seq<MetaData>, b: seq<MetaData>, c: seq<MetaData>)
    requires MetaKept(a, b) && MetaKept(b, c)
    ensures MetaKept(a, c)
  {
  }

  lemma AccountsKeptTrans(a: seq<Account>, b: seq<Account>, c: seq<Account>)
    requires AccountsKept(a, b) && AccountsKept(b, c)
    ensures AccountsKept(a, c)
  {
  }

  lemma ProfilesKeptTrans(a: seq<Profile>, b: seq<Profile>, c: seq<Profile>)
    requires ProfilesKept(a, b) && ProfilesKept(b, c)
    ensures ProfilesKept(a, c)
  {
  }

  lemma ContractsKeptTrans(a: seq<Contract>, b: seq<Contract>, c: seq<Contract>)
    requires ContractsKept(a, b) && ContractsKept(b, c)
    ensures ContractsKept(a, c)
  {
  }

  lemma MembershipsKeptTrans(a: seq<UnitProfile>, b: seq<UnitProfile>, c: seq<UnitProfile>)
    requires MembershipsKept(a, b) && MembershipsKept(b, c)
    ensures MembershipsKept(a, c)
  {
  }

  /** Appending keeps every existing row. */
  lemma PrefixKeepsProfiles(a: seq<Profile>, b: seq<Profile>)
    requires a <= b
    ensures ProfilesKept(a, b)
  {
  }

  lemma PrefixKeepsContracts(a: seq<Contract>, b: seq<Contract>)
    requires a <= b
    ensures ContractsKept(a, b)
  {
  }

  lemma SoftDeletesKeepProfiles(a: seq<Profile>, b: seq<Profile>)
    requires SoftDeletesOnly(a, b)
    ensures ProfilesKept(a, b)
  {
    forall i | 0 <= i < |a| ensures b[i].id == a[i].id && b[i].community == a[i].community && b[i].idAccount == a[i].idAccount {
    }
  }

  lemma DeactivatesKeepContracts(a: seq<Contract>, b: seq<Contract>)
    requires DeactivatesOnly(a, b)
    ensures ContractsKept(a, b)
  {
    forall i | 0 <= i < |a| ensures b[i].id == a[i].id && b[i].record == a[i].record {
    }
  }

  /**
   * Every table of the store at one moment. The queries the engine issues are functions of this
   * value, and each bulk write is the function giving the tables after it.
   */
  datatype Tables = Tables(
    units: seq<Unit>, accounts: seq<Account>, profiles: seq<Profile>, unitProfiles: seq<UnitProfile>,
    roleGroups: seq<RoleGroup>, groups: seq<Group>, customFields: seq<CustomField>,
    definedFields: seq<DefinedField>, metaData: seq<MetaData>, contracts: seq<Contract>,
    importStart: Option<string>, nextId: int)
  {
    // ---------------------------------------------------------------- reads

    /** `getUsersByEmails`: accounts whose email matches one of `emails` after trimming and lower-casing. */
    function UsersByEmails(emails: seq<string>): (r: seq<Account>)
      ensures forall a :: a in r <==> a in accounts && EmailIn(a.email, set e | e in emails :: Normalize(e))
    {
      var keys := set e | e in emails :: Normalize(e);
      Filter(accounts, (a: Account) => EmailIn(a.email, keys))
    }

    /** `getProfilesByAccountIDs`. */
    function ProfilesByAccountIds(ids: set<int>): (r: seq<Profile>)
      ensures forall p :: p in r <==> p in profiles && AccountIn(p.idAccount, ids)
    {
      Filter(profiles, (p: Profile) => AccountIn(p.idAccount, ids))
    }

    /** `getProfilesWithAccountIDs`. */
    function ProfilesWithAccountIds(): (r: seq<Profile>)
      ensures forall p :: p in r <==> p in profiles && p.idAccount.Some?
    {
      Filter(profiles, (p: Profile) => p.idAccount.Some?)
    }

    /** `getUsersByAccountIDs`: accounts carrying one of `ids` as temporary reference. */
    function UsersByAccountRefs(ids: set<int>): (r: seq<Account>)
      ensures forall a :: a in r <==> a in accounts && AccountIn(a.accountRef, ids)
    {
      Filter(accounts, (a: Account) => AccountIn(a.accountRef, ids))
    }

    /** `getUserProfilesByAccountIDs`: linked account/profile pairs of the listed external ids. */
    function UserProfilesByAccountIds(ids: set<int>): seq<UserProfile> {
      JoinProfiles(ProfilesByAccountIds(ids), accounts)
    }

    /**
     * `getUserProfilesByAccountIDsOrEmails`: the linked pairs of the listed external ids or
     * emails, followed by the accounts with a listed email that no profile links to yet.
     */
    function UserProfilesByAccountIdsOrEmails(ids: set<int>, emails: seq<string>): seq<UserProfile> {
      var keys := set e | e in emails :: Normalize(e);
      var accs, profs := accounts, profiles;
      var linked := Filter(profs, (p: Profile) =>
        AccountIn(p.idAccount, ids)
        || exists a :: a in accs && a.id == p.idUser && EmailIn(a.email, keys));
      var unlinked := Filter(accs, (a: Account) =>
        EmailIn(a.email, keys) && forall p :: p in profs ==> p.idUser != a.id);
      JoinProfiles(linked, accounts)
        + Map(unlinked, (a: Account) => UserProfile(a.id, None, a.email, None, a.displayName, ""))
    }

    /** `getUnitProfilesByUnitTitles`. */
    function UnitProfilesByTitles(titles: seq<string>): seq<UnitProfileView> {
      JoinUnits(unitProfiles, units, set t | t in titles)
    }

    /** `getMdsTransactionsByAccountIDs`. */
    function ContractsByAccountIds(ids: set<int>): (r: seq<Contract>)
      ensures forall c :: c in r <==> c in contracts && AccountIn(c.record, ids)
    {
      Filter(contracts, (c: Contract) => AccountIn(c.record, ids))
    }

    /** `getUsersRoleGroups(residentGroupNames)`: memberships of the listed groups. */
    function MembershipsOf(groupIds: set<int>): (r: seq<RoleGroup>)
      ensures forall m :: m in r <==> m in roleGroups && m.group in groupIds
    {
      Filter(roleGroups, (m: RoleGroup) => m.group in groupIds)
    }

    /** `getUsersGroupsOfUserIDs`. */
    function UserGroupsOf(users: set<int>): seq<UserGroup> {
      GroupNamesOf(roleGroups, groups, users)
    }

    // ---------------------------------------------------------------- writes

    function SetImportStart(at: string): Tables {
      this.(importStart := Some(at))
    }

    /** `clearCache`, which releases the import guard. */
    function ClearImportStart(): Tables {
      this.(importStart := None)
    }

    /** `saveBulk` on units. */
    function SaveUnits(rows: seq<Unit>): (r: Tables)
      ensures UnitsKept(units, r.units) && ActiveKept(units, r.units)
    {
      this.(units := units + Numbered(rows, nextId, (u: Unit, k: int) => u.(id := k)), nextId := nextId + |rows|)
    }

    /** `updateBulk(units, ['is_active'])`. */
    function UpdateUnits(ups: seq<Unit>): (r: Tables)
      ensures UnitsKept(units, r.units)
      ensures (forall u :: u in ups ==> u.isActive == 1) ==> ActiveKept(units, r.units)
    {
      this.(units := Updated(units, ups, (u: Unit) => u.id, CopyIsActive))
    }

    /**
     * `saveBulk` on accounts. A staged row that already carries an id keeps it, even when a stored
     * account has that id: the appended row then repeats a stored key.
     */
    function SaveAccounts(rows: seq<Account>): (r: Tables)
      ensures AccountsKept(accounts, r.accounts)
    {
      this.(accounts := accounts + Numbered(rows, nextId, (a: Account, k: int) => if a.id != 0 then a else a.(id := k)),
            nextId := nextId + |rows|)
    }

    /** `updateBulk(users, ['display_name'])`. */
    function UpdateAccountNames(ups: seq<Account>): (r: Tables)
      ensures AccountsKept(accounts, r.accounts)
    {
      this.(accounts := Updated(accounts, ups, (a: Account) => a.id, CopyDisplayName))
    }

    /** `clearAccountIDsFromUsers`: drop the temporary reference from the listed accounts. */
    function ClearAccountRefs(ids: set<int>): (r: Tables)
      ensures AccountsKept(accounts, r.accounts)
    {
      this.(accounts := Map(accounts, (a: Account) => if AccountIn(a.accountRef, ids) then a.(accountRef := None) else a))
    }

    /** `saveBulk` on profiles. */
    function SaveProfiles(rows: seq<Profile>): (r: Tables)
      ensures ProfilesKept(profiles, r.profiles) && profiles <= r.profiles
    {
      this.(profiles := profiles + Numbered(rows, nextId, (p: Profile, k: int) => p.(id := k)), nextId := nextId + |rows|)
    }

    /** `updateBulk` on the profile columns the update pipeline writes. */
    function UpdateProfiles(ups: seq<Profile>): (r: Tables)
      ensures ProfilesKept(profiles, r.profiles)
    {
      this.(profiles := Updated(profiles, ups, (p: Profile) => p.id, CopyProfileColumns))
    }

    /** `softDeleteProfilesByIDs`; also the opaque duplicate-email collapse, given its victims. */
    function SoftDeleteProfiles(ids: set<int>): (r: Tables)
      ensures SoftDeletesOnly(profiles, r.profiles)
      ensures forall i :: 0 <= i < |profiles| ==> (r.profiles[i].isDeleted == 1 <==> profiles[i].isDeleted == 1 || profiles[i].id in ids)
    {
      this.(profiles := Map(profiles, (p: Profile) => if p.id in ids then p.(isDeleted := 1) else p))
    }

    /** `saveBulk` on unit memberships. */
    function SaveUnitProfiles(rows: seq<UnitProfile>): (r: Tables)
      ensures MembershipsKept(unitProfiles, r.unitProfiles) && unitProfiles <= r.unitProfiles
    {
      this.(unitProfiles := unitProfiles + Numbered(rows, nextId, (u: UnitProfile, k: int) => u.(id := k)), nextId := nextId + |rows|)
    }

    /** `updateBulk` on the three type columns of unit memberships. */
    function UpdateUnitProfiles(ups: seq<UnitProfile>): (r: Tables)
      ensures MembershipsKept(unitProfiles, r.unitProfiles)
    {
      this.(unitProfiles := Updated(unitProfiles, ups, (u: UnitProfile) => u.id, CopyUnitProfileColumns))
    }

    /** `hardDeleteUnitProfilesByIDs`. */
    function DeleteUnitProfiles(ids: seq<int>): (r: Tables)
      ensures forall u :: u in r.unitProfiles <==> u in unitProfiles && u.id !in ids
    {
      this.(unitProfiles := Filter(unitProfiles, (u: UnitProfile) => u.id !in ids))
    }

    function SaveRoleGroups(rows: seq<RoleGroup>): Tables {
      this.(roleGroups := roleGroups + rows)
    }

    /** `hardDeleteRoleGroups`: drop the memberships equal to a listed (instance, group, role). */
    function DeleteRoleGroups(rows: seq<RoleGroup>): (r: Tables)
      ensures forall m :: m in r.roleGroups <==> m in roleGroups && m !in rows
    {
      this.(roleGroups := Filter(roleGroups, (m: RoleGroup) => m !in rows))
    }

    /** `saveBulk` on metadata. */
    function SaveMetaData(rows: seq<MetaData>): (r: Tables)
      ensures MetaKept(metaData, r.metaData)
    {
      this.(metaData := metaData + Numbered(rows, nextId, (m: MetaData, k: int) => m.(id := k)), nextId := nextId + |rows|)
    }

    /** `updateBulk(metaData, ['value'])`. */
    function UpdateMetaData(ups: seq<MetaData>): (r: Tables)
      ensures MetaKept(metaData, r.metaData)
    {
      this.(metaData := Updated(metaData, ups, (m: MetaData) => m.id, CopyMetaValue))
    }

    /** `saveBulk` on contracts. */
    function SaveContracts(rows: seq<Contract>): (r: Tables)
      ensures ContractsKept(contracts, r.contracts) && contracts <= r.contracts
    {
      this.(contracts := contracts + Numbered(rows, nextId, (c: Contract, k: int) => c.(id := k)), nextId := nextId + |rows|)
    }

    /** `updateBulk` on the contract columns the update pipeline writes. */
    function UpdateContracts(ups: seq<Contract>): (r: Tables)
      ensures ContractsKept(contracts, r.contracts)
    {
      this.(contracts := Updated(contracts, ups, (c: Contract) => c.id, CopyContractColumns))
    }

    /** `deactivateMdsTransactionsByProfile`: the contracts of the listed users become inactive. */
    function DeactivateContracts(users: set<int>): (r: Tables)
      ensures DeactivatesOnly(contracts, r.contracts)
      ensures forall i :: 0 <= i < |contracts| ==> (r.contracts[i].isActive == 0 <==> contracts[i].isActive == 0 || contracts[i].idUser in users)
    {
      this.(contracts := Map(contracts, (c: Contract) => if c.idUser in users then c.(isActive := 0) else c))
    }
  }

  /** The persistent store: one mutable field per table. Every write replaces its tables by `Tables`' write. */
  class Store {
    var units: seq<Unit>
    var accounts: seq<Account>
    var profiles: seq<Profile>
    var unitProfiles: seq<UnitProfile>
    var roleGroups: seq<RoleGroup>
    var groups: seq<Group>
    var customFields: seq<CustomField>
    var definedFields: seq<DefinedField>
    var metaData: seq<MetaData>
    var contracts: seq<Contract>
    /** The import guard's marker: the time the running import started. */
    var importStart: Option<string>
    /** The next auto-increment id. */
    var nextId: int

    constructor (units: seq<Unit>, accounts: seq<Account>, profiles: seq<Profile>,
                 unitProfiles: seq<UnitProfile>, roleGroups: seq<RoleGroup>, groups: seq<Group>,
                 customFields: seq<CustomField>, definedFields: seq<DefinedField>,
                 metaData: seq<MetaData>, contracts: seq<Contract>, nextId: int)
      ensures Snapshot() == Tables(units, accounts, profiles, unitProfiles, roleGroups, groups, customFields,
                                   definedFields, metaData, contracts, None, nextId)
    {
      this.units, this.accounts, this.profiles := units, accounts, profiles;
      this.unitProfiles, this.roleGroups, this.groups := unitProfiles, roleGroups, groups;
      this.customFields, this.definedFields, this.metaData := customFields, definedFields, metaData;
      this.contracts, this.importStart, this.nextId := contracts, None, nextId;
    }

    function Snapshot(): Tables
      reads this
    {
      Tables(units, accounts, profiles, unitProfiles, roleGroups, groups, customFields,
             definedFields, metaData, contracts, importStart, nextId)
    }

    method SetImportStart(at: string)
      modifies this
      ensures Snapshot() == old(Snapshot()).SetImportStart(at)
    {
      importStart := Some(at);
    }

    method ClearImportStart()
      modifies this
      ensures Snapshot() == old(Snapshot()).ClearImportStart()
    {
      importStart := None;
    }

    method SaveUnits(rows: seq<Unit>)
      modifies this
      ensures Snapshot() == old(Snapshot()).SaveUnits(rows)
    {
      var t := Snapshot().SaveUnits(rows);
      units, nextId := t.units, t.nextId;
    }

    method UpdateUnits(ups: seq<Unit>)
      modifies this
      ensures Snapshot() == old(Snapshot()).UpdateUnits(ups)
    {
      units := Snapshot().UpdateUnits(ups).units;
    }

    method SaveAccounts(rows: seq<Account>)
      modifies this
      ensures Snapshot() == old(Snapshot()).SaveAccounts(rows)
    {
      var t := Snapshot().SaveAccounts(rows);
      accounts, nextId := t.accounts, t.nextId;
    }

    method UpdateAccountNames(ups: seq<Account>)
      modifies this
      ensures Snapshot() == old(Snapshot()).UpdateAccountNames(ups)
    {
      accounts := Snapshot().UpdateAccountNames(ups).accounts;
    }

    method ClearAccountRefs(ids: set<int>)
      modifies this
      ensures Snapshot() == old(Snapshot()).ClearAccountRefs(ids)
    {
      accounts := Snapshot().ClearAccountRefs(ids).accounts;
    }

    method SaveProfiles(rows: seq<Profile>)
      modifies this
      ensures Snapshot() == old(Snapshot()).SaveProfiles(rows)
    {
      var t := Snapshot().SaveProfiles(rows);
      profiles, nextId := t.profiles, t.nextId;
    }

    method UpdateProfiles(ups: seq<Profile>)
      modifies this
      ensures Snapshot() == old(Snapshot()).UpdateProfiles(ups)
    {
      profiles := Snapshot().UpdateProfiles(ups).profiles;
    }

    method SoftDeleteProfiles(ids: set<int>)
      modifies this
      ensures Snapshot() == old(Snapshot()).SoftDeleteProfiles(ids)
    {
      profiles := Snapshot().SoftDeleteProfiles(ids).profiles;
    }

    method SaveUnitProfiles(rows: seq<UnitProfile>)
      modifies this
      ensures Snapshot() == old(Snapshot()).SaveUnitProfiles(rows)
    {
      var t := Snapshot().SaveUnitProfiles(rows);
      unitProfiles, nextId := t.unitProfiles, t.nextId;
    }

    method UpdateUnitProfiles(ups: seq<UnitProfile>)
      modifies this
      ensures Snapshot() == old(Snapshot()).UpdateUnitProfiles(ups)
    {
      unitProfiles := Snapshot().UpdateUnitProfiles(ups).unitProfiles;
    }

    method DeleteUnitProfiles(ids: seq<int>)
      modifies this
      ensures Snapshot() == old(Snapshot()).DeleteUnitProfiles(ids)
    {
      unitProfiles := Snapshot().DeleteUnitProfiles(ids).unitProfiles;
    }

    method SaveRoleGroups(rows: seq<RoleGroup>)
      modifies this
      ensures Snapshot() == old(Snapshot()).SaveRoleGroups(rows)
    {
      roleGroups := Snapshot().SaveRoleGroups(rows).roleGroups;
    }

    method DeleteRoleGroups(rows: seq<RoleGroup>)
      modifies this
      ensures Snapshot() == old(Snapshot()).DeleteRoleGroups(rows)
    {
      roleGroups := Snapshot().DeleteRoleGroups(rows).roleGroups;
    }

    method SaveMetaData(rows: seq<MetaData>)
      modifies this
      ensures Snapshot() == old(Snapshot()).SaveMetaData(rows)
    {
      var t := Snapshot().SaveMetaData(rows);
      metaData, nextId := t.metaData, t.nextId;
    }

    method UpdateMetaData(ups: seq<MetaData>)
      modifies this
      ensures Snapshot() == old(Snapshot()).UpdateMetaData(ups)
    {
      metaData := Snapshot().UpdateMetaData(ups).metaData;
    }

    method SaveContracts(rows: seq<Contract>)
      modifies this
      ensures Snapshot() == old(Snapshot()).SaveContracts(rows)
    {
      var t := Snapshot().SaveContracts(rows);
      contracts, nextId := t.contracts, t.nextId;
    }

    method UpdateContracts(ups: seq<Contract>)
      modifies this
      ensures Snapshot() == old(Snapshot()).UpdateContracts(ups)
    {
      contracts := Snapshot().UpdateContracts(ups).contracts;
    }

    method DeactivateContracts(users: set<int>)
      modifies this
      ensures Snapshot() == old(Snapshot()).DeactivateContracts(users)
    {
      contracts := Snapshot().DeactivateContracts(users).contracts;
    }
  }
}
