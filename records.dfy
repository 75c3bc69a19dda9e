/**
 * The entities the reconciliation engine reads and writes, the feed record it consumes, and the
 * collaborators it calls without seeing their code. Numeric columns hold `0` for SQL NULL where
 * the source only ever tests them for truthiness (`id_user`, `id_unit`).
 */
module Records {
  import opened Wrappers

  /** A name triple produced by the name-formatting collaborator (`j.formattedName`). */
  datatype FormattedName = FormattedName(first: string, last: string, display: string)

  /**
   * One mapped row of the feed. `tenantId` is None for an absent, empty or non-numeric value;
   * `email`, `phone` and friends are "" when blank; `fields` holds every other mapped column,
   * read only by the metadata synchroniser.
   */
  datatype FeedRecord = FeedRecord(
    tenantId: Option<int>,
    email: string,
    name: FormattedName,
    phone: string,
    cellPhone: string,
    unitTitle: string,
    unitId: string,
    residentType: string,
    isResident: Option<int>,
    fields: map<string, string>)

  /** `j.tenant_id` is truthy: present and not zero. */
  predicate HasTenant(j: FeedRecord) {
    j.tenantId.Some? && j.tenantId.value != 0
  }

  /** The numeric tenant id, 0 when absent. */
  function TenantOf(j: FeedRecord): int {
    if j.tenantId.Some? then j.tenantId.value else 0
  }

  /** `j.is_resident ?? 1`. */
  function IsResidentOr1(j: FeedRecord): int {
    if j.isResident.Some? then j.isResident.value else 1
  }

  /** Loose equality `stored == j.tenant_id` of a stored `id_account` with a feed tenant id. */
  predicate SameAccount(stored: Option<int>, tenant: Option<int>) {
    stored.Some? && tenant.Some? && stored.value == tenant.value
  }

  /** A nullable string column is truthy. */
  predicate Truthy(s: Option<string>) {
    s.Some? && s.value != ""
  }

  /** `x ? x : null` on a nullable string. */
  function OrNull(s: Option<string>): (r: Option<string>)
    ensures r.Some? <==> Truthy(s)
  {
    if Truthy(s) then s else None
  }

  /** `j.email ? j.email : null`. */
  function EmailOrNull(e: string): (r: Option<string>)
    ensures r.None? <==> e == ""
  {
    if e == "" then None else Some(e)
  }

  function Flag(b: bool): int {
    if b then 1 else 0
  }

  datatype Unit = Unit(id: int, community: int, title: string, isActive: int)

  /** A row of the accounts table (`users`). `accountRef` is the temporary `id_account` reference. */
  datatype Account = Account(
    id: int,
    username: Option<string>,
    email: Option<string>,
    displayName: string,
    isValidEmail: int,
    accountRef: Option<int>)

  datatype Profile = Profile(
    id: int,
    community: int,
    idUser: int,
    firstName: string,
    lastName: string,
    displayName: string,
    email: Option<string>,
    idAccount: Option<int>,
    isValidEmail: int,
    isLocal: int,
    isAclActive: int,
    isDeleted: int,
    phone: Option<string>,
    isValidHomePhone: int,
    cellPhone: Option<string>,
    isValidCellPhone: int,
    registered: string,
    idLanguage: int)

  datatype UnitProfile = UnitProfile(
    id: int,
    community: int,
    idUnit: int,
    idUser: int,
    isResident: int,
    idGroupType: int,
    idResidentType: int,
    created: string)

  /** A role-group membership row: `id_role` is the member's user id. */
  datatype RoleGroup = RoleGroup(instance: int, group: int, role: int)

  /** A role group (Owners, Residents, Tenant, or an administrative group). */
  datatype Group = Group(id: int, name: string)

  datatype CustomField = CustomField(id: int, entity: int, fieldType: int, tag: string)

  /** A configured field: which feed column (`inputField`) feeds which custom field. */
  datatype DefinedField = DefinedField(entity: int, fieldType: int, tag: string, inputField: string)

  datatype MetaData = MetaData(id: int, entity: int, objectId: int, field: int, value: string)

  /** A contract ("mds transaction") row mirroring a lease. */
  datatype Contract = Contract(
    id: int,
    community: int,
    idUser: int,
    leaseId: string,
    record: Option<int>,
    isActive: int,
    stop: int,
    created: string,
    modified: string)

  /** A row of the accounts-joined-with-profiles queries (`IDbUserProfile`); `userId` is the account id. */
  datatype UserProfile = UserProfile(
    userId: int,
    idAccount: Option<int>,
    userEmail: Option<string>,
    profileEmail: Option<string>,
    userDisplayName: string,
    profileDisplayName: string)

  /** A unit membership joined with its unit's title. */
  datatype UnitProfileView = UnitProfileView(row: UnitProfile, title: string)

  /** `dbProfiles.find(d => d.id_account == j.tenant_id)`. */
  function ProfileOfTenant(ps: seq<Profile>, tenant: Option<int>): (r: Option<Profile>)
    ensures r.Some? ==> r.value in ps && SameAccount(r.value.idAccount, tenant)
    ensures r.None? <==> forall p :: p in ps ==> !SameAccount(p.idAccount, tenant)
  {
    if ps == [] then None
    else if SameAccount(ps[0].idAccount, tenant) then Some(ps[0])
    else ProfileOfTenant(ps[1..], tenant)
  }

  /** `dbUserProfiles.find(u => u.id_account == j.tenant_id)`: the first joined row of the tenant id. */
  function UserOfAccount(ups: seq<UserProfile>, tenant: Option<int>): (r: Option<UserProfile>)
    ensures r.Some? ==> r.value in ups && SameAccount(r.value.idAccount, tenant)
    ensures r.None? <==> forall u :: u in ups ==> !SameAccount(u.idAccount, tenant)
  {
    if ups == [] then None
    else if SameAccount(ups[0].idAccount, tenant) then Some(ups[0])
    else UserOfAccount(ups[1..], tenant)
  }

  /** `users.find(d => d.id_account == j.tenant_id)`: the first account whose temporary reference is the tenant id. */
  function UserOfRef(accs: seq<Account>, tenant: Option<int>): (r: Option<Account>)
    ensures r.Some? ==> r.value in accs && SameAccount(r.value.accountRef, tenant)
    ensures r.None? <==> forall a :: a in accs ==> !SameAccount(a.accountRef, tenant)
  {
    if accs == [] then None
    else if SameAccount(accs[0].accountRef, tenant) then Some(accs[0])
    else UserOfRef(accs[1..], tenant)
  }

  /** Resident type ids: ResidentOwner, NonResidentOwner and Tenant. */
  const ResidentOwner := 1
  const NonResidentOwner := 2
  const TenantType := 3

  predicate IsOwnerType(t: int) {
    t == ResidentOwner || t == NonResidentOwner
  }

  /** Entity ids of the custom-field tables (`EntityTypes.Units.id`, `EntityTypes.Users.id`). */
  const UnitEntity := 1
  const UserEntity := 2

  const OwnersName := "Owners"
  const ResidentsName := "Residents"
  const TenantName := "Tenant"

  /** The functions the engine calls but whose code is not part of this model. */
  datatype Collaborators = Collaborators(
    /** `parsePhone(x, true)`: a normalised number, or None for the non-string sentinel. */
    parsePhone: string -> Option<string>,
    /** `DbTask.getResidentTypeID(resident_type)`. */
    residentTypeId: string -> int,
    /** `DbTask.getGroupTypeID(resident_type, is_resident)`. */
    groupTypeId: (string, int) -> int,
    /** `getUserGroupByResidentType(resident_type)`: one of the resident groups, or None. */
    groupOfResidentType: string -> Option<Group>)

  /** `instanceData` together with the clock values one phase stamps on its rows. */
  datatype Context = Context(
    instance: int,
    community: int,
    timestamp: string,
    date: string)
}
