/**
 * The account and profile stages of `create` (src/ResidentParser.ts:679-1005), run on the records
 * classified NEW. Four loops, each over a snapshot read before it:
 *  1. one account per email not yet used as a username (src/ResidentParser.ts:710-761);
 *  2. one profile per emailed record whose tenant id has no profile (src/ResidentParser.ts:798-862);
 *  3. one placeholder account per tenant id of the records without email (src/ResidentParser.ts:884-917);
 *  4. one profile per such record whose tenant id has no profile (src/ResidentParser.ts:934-988).
 */
module CreateAccounts {
  import opened Wrappers
  import opened Text
  import opened Records

  /** The feed emails arrive trimmed and lower-cased. */
  predicate NormalizedEmails(rs: seq<FeedRecord>) {
    forall j :: j in rs ==> Normalize(j.email) == j.email
  }

  lemma NormalizedIsLower(e: string)
    requires Normalize(e) == e
    ensures ToLower(e) == e
  {
    ToLowerIdempotent(Trim(e));
  }

  // ------------------------------------------------------------ 1. accounts with email

  /** `d.username && j.email && d.username.trim().toLowerCase() == j.email`. */
  predicate UsernameMatches(a: Account, e: string) {
    Truthy(a.username) && e != "" && Normalize(a.username.value) == e
  }

  function UserByUsername(accs: seq<Account>, e: string): (r: Option<Account>)
    ensures r.Some? ==> r.value in accs && UsernameMatches(r.value, e)
    ensures r.None? <==> forall a :: a in accs ==> !UsernameMatches(a, e)
  {
    if accs == [] then None
    else if UsernameMatches(accs[0], e) then Some(accs[0])
    else UserByUsername(accs[1..], e)
  }

  /** `d.email && j.email && d.email.trim().toLowerCase() == j.email`. */
  predicate ProfileEmailMatches(p: Profile, e: string) {
    Truthy(p.email) && e != "" && Normalize(p.email.value) == e
  }

  function ProfileByEmail(ps: seq<Profile>, e: string): (r: Option<Profile>)
    ensures r.Some? ==> r.value in ps && ProfileEmailMatches(r.value, e)
    ensures r.None? <==> forall p :: p in ps ==> !ProfileEmailMatches(p, e)
  {
    if ps == [] then None
    else if ProfileEmailMatches(ps[0], e) then Some(ps[0])
    else ProfileByEmail(ps[1..], e)
  }

  /**
   * The account staged for an emailed record: username and email are the trimmed, lower-cased
   * email; it re-uses the user id of a stored profile with that email, and gets a fresh id otherwise.
   */
  function EmailAccount(ps: seq<Profile>, j: FeedRecord): Account {
    var key := Normalize(j.email);
    var id := match ProfileByEmail(ps, j.email) case Some(p) => p.idUser case None => 0;
    Account(id, Some(key), Some(key), j.name.display, 1, None)
  }

  /** `newEmailsToAdd` and `newEmailsSet`. */
  datatype EmailState = EmailState(toAdd: seq<Account>, seen: set<string>)

  /** One iteration: the skip test looks up `toLowerCase(email)`, the set receives the trimmed key. */
  function EmailStep(accs: seq<Account>, ps: seq<Profile>, s: EmailState, j: FeedRecord): EmailState {
    if j.email == "" || ToLower(j.email) in s.seen || UserByUsername(accs, j.email).Some? then s
    else EmailState(s.toAdd + [EmailAccount(ps, j)], s.seen + {Normalize(j.email)})
  }

  function EmailAccounts(accs: seq<Account>, ps: seq<Profile>, rs: seq<FeedRecord>): EmailState {
    if rs == [] then EmailState([], {})
    else EmailStep(accs, ps, EmailAccounts(accs, ps, rs[..|rs| - 1]), rs[|rs| - 1])
  }

  method StageEmailAccounts(accs: seq<Account>, ps: seq<Profile>, rs: seq<FeedRecord>) returns (toAdd: seq<Account>)
    ensures toAdd == EmailAccounts(accs, ps, rs).toAdd
  {
    toAdd := [];
    var seen: set<string> := {};
    var i := 0;
    while i < |rs|
      invariant 0 <= i <= |rs|
      invariant EmailAccounts(accs, ps, rs[..i]) == EmailState(toAdd, seen)
    {
      assert rs[..i + 1][..i] == rs[..i];
      var j := rs[i];
      if j.email != "" && ToLower(j.email) !in seen {
        var user := UserByUsername(accs, j.email);
        if user.None? {
          var key := Normalize(j.email);
          var profile := ProfileByEmail(ps, j.email);
          if profile.Some? {
            toAdd := toAdd + [Account(profile.value.idUser, Some(key), Some(key), j.name.display, 1, None)];
            seen := seen + {key};
          } else {
            toAdd := toAdd + [Account(0, Some(key), Some(key), j.name.display, 1, None)];
            seen := seen + {key};
          }
        }
      }
      i := i + 1;
    }
    assert rs[..|rs|] == rs;
  }

  /** The account `a` is the one staged for the record `j`: it has an email no username matches. */
  predicate StagedFor(accs: seq<Account>, ps: seq<Profile>, j: FeedRecord, a: Account) {
    j.email != "" && UserByUsername(accs, j.email).None? && a == EmailAccount(ps, j)
  }

  /** Each staged account is that of a batch record with an email that no stored username matches. */
  lemma {:induction false} EmailAccountsSound(accs: seq<Account>, ps: seq<Profile>, rs: seq<FeedRecord>)
    ensures forall a :: a in EmailAccounts(accs, ps, rs).toAdd ==> exists j :: j in rs && StagedFor(accs, ps, j, a)
  {
    if rs != [] {
      var init := rs[..|rs| - 1];
      var j := rs[|rs| - 1];
      EmailAccountsSound(accs, ps, init);
      var p := EmailAccounts(accs, ps, init);
      var s := EmailAccounts(accs, ps, rs);
      forall a | a in s.toAdd ensures exists j' :: j' in rs && StagedFor(accs, ps, j', a) {
        if a in p.toAdd {
          var j' :| j' in init && StagedFor(accs, ps, j', a);
          assert j' in rs;
        } else {
          assert s.toAdd == p.toAdd + [EmailAccount(ps, j)];
          assert StagedFor(accs, ps, j, a);
        }
      }
    }
  }

  /** Every staged account carries an email, and the key set holds exactly those emails. */
  ghost predicate KeyedByEmail(s: EmailState) {
    (forall a :: a in s.toAdd ==> a.email.Some?)
    && forall k :: k in s.seen <==> exists a :: a in s.toAdd && a.email == Some(k)
  }

  lemma {:induction false} EmailAccountsKeyed(accs: seq<Account>, ps: seq<Profile>, rs: seq<FeedRecord>)
    ensures KeyedByEmail(EmailAccounts(accs, ps, rs))
  {
    if rs != [] {
      var init := rs[..|rs| - 1];
      var j := rs[|rs| - 1];
      EmailAccountsKeyed(accs, ps, init);
      var p := EmailAccounts(accs, ps, init);
      var s := EmailAccounts(accs, ps, rs);
      if s != p {
        var a := EmailAccount(ps, j);
        assert s.toAdd == p.toAdd + [a];
        assert s.seen == p.seen + {Normalize(j.email)};
        assert a.email == Some(Normalize(j.email));
      }
    }
  }

  /** No two staged accounts share an email. */
  predicate OnePerEmail(toAdd: seq<Account>) {
    forall x, y :: 0 <= x < y < |toAdd| ==> toAdd[x].email != toAdd[y].email
  }

  /** One iteration keeps the staged emails distinct when the record's email is normalised. */
  lemma OnePerEmailStep(accs: seq<Account>, ps: seq<Profile>, q: EmailState, j: FeedRecord)
    requires Normalize(j.email) == j.email
    requires KeyedByEmail(q) && OnePerEmail(q.toAdd)
    ensures OnePerEmail(EmailStep(accs, ps, q, j).toAdd)
    ensures j.email != "" && UserByUsername(accs, j.email).None? ==>
      exists a :: a in EmailStep(accs, ps, q, j).toAdd && a.email == Some(j.email)
  {
    NormalizedIsLower(j.email);
    var s := EmailStep(accs, ps, q, j);
    if s != q {
      assert s.toAdd == q.toAdd + [EmailAccount(ps, j)];
      forall x | 0 <= x < |q.toAdd| ensures q.toAdd[x].email != Some(j.email) {
        assert q.toAdd[x] in q.toAdd;
      }
      assert s.toAdd[|q.toAdd|].email == Some(j.email);
    }
  }

  /**
   * With normalised feed emails: at most one account is staged per email, and every batch email
   * that no stored username matches gets one.
   */
  lemma {:induction false} OneAccountPerEmail(accs: seq<Account>, ps: seq<Profile>, rs: seq<FeedRecord>)
    requires NormalizedEmails(rs)
    ensures var s := EmailAccounts(accs, ps, rs);
      && OnePerEmail(s.toAdd)
      && (forall j :: j in rs && j.email != "" && UserByUsername(accs, j.email).None? ==>
            exists a :: a in s.toAdd && a.email == Some(j.email))
  {
    if rs != [] {
      var init := rs[..|rs| - 1];
      var j := rs[|rs| - 1];
      OneAccountPerEmail(accs, ps, init);
      EmailAccountsKeyed(accs, ps, init);
      var q := EmailAccounts(accs, ps, init);
      OnePerEmailStep(accs, ps, q, j);
      var s := EmailAccounts(accs, ps, rs);
      assert forall a :: a in q.toAdd ==> a in s.toAdd;
      assert forall x :: x in rs <==> x in init || x == j;
    }
  }

  /** With normalised feed emails, no staged account takes an email an existing account has as username. */
  lemma NoAccountForExistingUsername(accs: seq<Account>, ps: seq<Profile>, rs: seq<FeedRecord>)
    requires NormalizedEmails(rs)
    ensures forall a :: a in EmailAccounts(accs, ps, rs).toAdd ==>
      a.email.Some? && forall d :: d in accs && Truthy(d.username) ==> Normalize(d.username.value) != a.email.value
  {
    EmailAccountsSound(accs, ps, rs);
    var s := EmailAccounts(accs, ps, rs);
    forall a | a in s.toAdd
      ensures a.email.Some? && forall d :: d in accs && Truthy(d.username) ==> Normalize(d.username.value) != a.email.value
    {
      var j :| j in rs && StagedFor(accs, ps, j, a);
      assert a.email == Some(j.email);
      forall d | d in accs && Truthy(d.username) ensures Normalize(d.username.value) != a.email.value {
        assert !UsernameMatches(d, j.email);
      }
    }
  }

  // ------------------------------------------------------------ 2. profiles with email

  /** `d.email?.trim().toLowerCase() == j.email && j.email`. */
  predicate EmailMatches(a: Account, e: string) {
    a.email.Some? && e != "" && Normalize(a.email.value) == e
  }

  function UserByEmail(accs: seq<Account>, e: string): (r: Option<Account>)
    ensures r.Some? ==> r.value in accs && EmailMatches(r.value, e)
    ensures r.None? <==> forall a :: a in accs ==> !EmailMatches(a, e)
  {
    if accs == [] then None
    else if EmailMatches(accs[0], e) then Some(accs[0])
    else UserByEmail(accs[1..], e)
  }

  /** An entry of `newAccounts`: the tenant id, email and display name of a staged profile. */
  datatype NewAccount = NewAccount(account: Option<int>, email: string, display: string)

  /** The `accountFound` test of src/ResidentParser.ts:812-814. */
  predicate SameNewAccount(a: NewAccount, j: FeedRecord) {
    a.account == j.tenantId && Normalize(a.email) == j.email && j.email != "" && a.display != ""
      && ToUpper(a.display) == ToUpper(j.name.display)
  }

  function AccountStaged(nas: seq<NewAccount>, j: FeedRecord): (r: bool)
    ensures r <==> exists a :: a in nas && SameNewAccount(a, j)
  {
    if nas == [] then false
    else if SameNewAccount(nas[0], j) then true
    else
      assert forall a :: a in nas <==> a == nas[0] || a in nas[1..];
      AccountStaged(nas[1..], j)
  }

  /** `parsePhone(raw, true)` when the raw number is truthy; a non-string result is None. */
  function ParsedPhone(c: Collaborators, raw: string): Option<string> {
    if raw != "" then c.parsePhone(raw) else None
  }

  /** The profile `create` stages for a record (src/ResidentParser.ts:821-853 and 955-985). */
  function NewProfile(c: Collaborators, community: int, idUser: int, timestamp: string, j: FeedRecord): Profile {
    var phone := ParsedPhone(c, j.phone);
    var cell := ParsedPhone(c, j.cellPhone);
    Profile(0, community, idUser, j.name.first, j.name.last, j.name.display, EmailOrNull(j.email), j.tenantId,
      Flag(j.email != ""), Flag(j.email == ""), 1, 0, phone, Flag(phone.Some?), cell, Flag(cell.Some?), timestamp, 5)
  }

  /** The flag rules of a created profile, read against its record. */
  predicate FieldRules(c: Collaborators, j: FeedRecord, p: Profile) {
    && p.idAccount == j.tenantId && p.isDeleted == 0 && p.isAclActive == 1
    && (p.email.Some? <==> j.email != "") && (p.email.Some? ==> p.email.value == j.email)
    && (p.isValidEmail == 1 <==> p.email.Some?) && (p.isValidEmail == 0 <==> p.email.None?)
    && p.isLocal == 1 - p.isValidEmail
    && (p.phone.Some? <==> j.phone != "" && c.parsePhone(j.phone).Some?)
    && (p.phone.Some? ==> p.phone == c.parsePhone(j.phone))
    && (p.isValidHomePhone == 1 <==> p.phone.Some?) && (p.isValidHomePhone == 0 <==> p.phone.None?)
    && (p.cellPhone.Some? <==> j.cellPhone != "" && c.parsePhone(j.cellPhone).Some?)
    && (p.cellPhone.Some? ==> p.cellPhone == c.parsePhone(j.cellPhone))
    && (p.isValidCellPhone == 1 <==> p.cellPhone.Some?) && (p.isValidCellPhone == 0 <==> p.cellPhone.None?)
  }

  lemma NewProfileRules(c: Collaborators, community: int, idUser: int, timestamp: string, j: FeedRecord)
    ensures FieldRules(c, j, NewProfile(c, community, idUser, timestamp, j))
  {
  }

  function EntryOf(p: Profile): NewAccount {
    NewAccount(p.idAccount, if p.email.Some? then p.email.value else "", p.displayName)
  }

  /** `newProfilesWithEmail` and `newAccounts`. */
  datatype ProfileState = ProfileState(profiles: seq<Profile>, accounts: seq<NewAccount>)

  /** The snapshots the loop reads: the refreshed accounts by email and the profiles read at the start. */
  datatype ProfileEnv = ProfileEnv(accs: seq<Account>, ps: seq<Profile>, c: Collaborators, community: int, timestamp: string)

  function ProfileStep(e: ProfileEnv, s: ProfileState, j: FeedRecord): ProfileState {
    if j.email == "" then s
    else match UserByEmail(e.accs, j.email)
      case None => s
      case Some(user) =>
        if AccountStaged(s.accounts, j) || ProfileOfTenant(e.ps, j.tenantId).Some? then s
        else
          var p := NewProfile(e.c, e.community, user.id, e.timestamp, j);
          ProfileState(s.profiles + [p], s.accounts + [EntryOf(p)])
  }

  function EmailProfiles(e: ProfileEnv, rs: seq<FeedRecord>): ProfileState {
    if rs == [] then ProfileState([], [])
    else ProfileStep(e, EmailProfiles(e, rs[..|rs| - 1]), rs[|rs| - 1])
  }

  method StageEmailProfiles(e: ProfileEnv, rs: seq<FeedRecord>) returns (newProfiles: seq<Profile>, newAccounts: seq<NewAccount>)
    ensures ProfileState(newProfiles, newAccounts) == EmailProfiles(e, rs)
  {
    newProfiles, newAccounts := [], [];
    var i := 0;
    while i < |rs|
      invariant 0 <= i <= |rs|
      invariant EmailProfiles(e, rs[..i]) == ProfileState(newProfiles, newAccounts)
    {
      assert rs[..i + 1][..i] == rs[..i];
      var j := rs[i];
      if j.email != "" {
        var user := UserByEmail(e.accs, j.email);
        if user.Some? && !AccountStaged(newAccounts, j) {
          var profile := ProfileOfTenant(e.ps, j.tenantId);
          if profile.None? {
            var p := NewProfile(e.c, e.community, user.value.id, e.timestamp, j);
            newProfiles := newProfiles + [p];
            newAccounts := newAccounts + [NewAccount(p.idAccount, if p.email.Some? then p.email.value else "", p.displayName)];
          }
        }
      }
      i := i + 1;
    }
    assert rs[..|rs|] == rs;
  }

  /** A profile staged for the emailed record `j`. */
  predicate EmailProfileFor(e: ProfileEnv, j: FeedRecord, p: Profile) {
    && j.email != "" && FieldRules(e.c, j, p) && p.community == e.community
    && p.firstName == j.name.first && p.lastName == j.name.last && p.displayName == j.name.display
    && (forall q :: q in e.ps ==> !SameAccount(q.idAccount, j.tenantId))
    && exists u :: u in e.accs && EmailMatches(u, j.email) && u.id == p.idUser
  }

  /**
   * Every staged profile belongs to an emailed record with a matching account and no stored profile
   * of its tenant id, follows the flag rules, and is mirrored by its `newAccounts` entry.
   */
  lemma {:induction false} EmailProfilesSound(e: ProfileEnv, rs: seq<FeedRecord>)
    ensures var s := EmailProfiles(e, rs);
      && s.accounts == Map(s.profiles, EntryOf)
      && forall p :: p in s.profiles ==> exists j :: j in rs && EmailProfileFor(e, j, p)
  {
    if rs != [] {
      var init := rs[..|rs| - 1];
      var j := rs[|rs| - 1];
      EmailProfilesSound(e, init);
      var q := EmailProfiles(e, init);
      var s := EmailProfiles(e, rs);
      assert forall x :: x in rs <==> x in init || x == j;
      forall p | p in q.profiles ensures exists j' :: j' in rs && EmailProfileFor(e, j', p) {
        var j' :| j' in init && EmailProfileFor(e, j', p);
        assert j' in rs;
      }
      if s != q {
        var user := UserByEmail(e.accs, j.email).value;
        var p := NewProfile(e.c, e.community, user.id, e.timestamp, j);
        assert s.profiles == q.profiles + [p];
        NewProfileRules(e.c, e.community, user.id, e.timestamp, j);
        assert EmailProfileFor(e, j, p);
      }
    }
  }

  /** Two staged profiles with the same tenant id, email and case-insensitive display name. */
  predicate SameEntry(p: Profile, q: Profile) {
    p.idAccount == q.idAccount && p.email == q.email && p.displayName != "" && ToUpper(p.displayName) == ToUpper(q.displayName)
  }

  predicate NoRepeatedEntry(ps: seq<Profile>) {
    forall x, y :: 0 <= x < y < |ps| ==> !SameEntry(ps[x], ps[y])
  }

  /** One iteration stages no profile repeating the entry of an earlier one when its email is normalised. */
  lemma OncePerEntryStep(e: ProfileEnv, q: ProfileState, j: FeedRecord)
    requires Normalize(j.email) == j.email
    requires q.accounts == Map(q.profiles, EntryOf)
    requires forall p :: p in q.profiles ==> p.email.Some? && Normalize(p.email.value) == p.email.value
    requires NoRepeatedEntry(q.profiles)
    ensures NoRepeatedEntry(ProfileStep(e, q, j).profiles)
  {
    var s := ProfileStep(e, q, j);
    if s != q {
      var user := UserByEmail(e.accs, j.email).value;
      var p := NewProfile(e.c, e.community, user.id, e.timestamp, j);
      assert s.profiles == q.profiles + [p];
      forall x | 0 <= x < |q.profiles| ensures !SameEntry(q.profiles[x], p) {
        assert q.profiles[x] in q.profiles;
        assert q.accounts[x] == EntryOf(q.profiles[x]);
        assert q.accounts[x] in q.accounts;
      }
    }
  }

  /** With normalised feed emails, no two staged profiles repeat a (tenant id, email, display name) entry. */
  lemma {:induction false} EmailProfilesOncePerEntry(e: ProfileEnv, rs: seq<FeedRecord>)
    requires NormalizedEmails(rs)
    ensures NoRepeatedEntry(EmailProfiles(e, rs).profiles)
  {
    if rs != [] {
      var init := rs[..|rs| - 1];
      var j := rs[|rs| - 1];
      EmailProfilesOncePerEntry(e, init);
      EmailProfilesSound(e, init);
      var q := EmailProfiles(e, init);
      forall p | p in q.profiles ensures p.email.Some? && Normalize(p.email.value) == p.email.value {
        var j' :| j' in init && EmailProfileFor(e, j', p);
      }
      OncePerEntryStep(e, q, j);
    }
  }

  // ------------------------------------------------------------ 3. placeholder accounts without email

  /** `jUsersNoEmail`: a tenant id and no email. */
  predicate NoEmailTenant(j: FeedRecord) {
    HasTenant(j) && j.email == ""
  }

  /** `d.id_account && d.id_account == j.tenant_id && !d.id_user`: a profile of the id without a user. */
  predicate UnlinkedProfileOf(p: Profile, tenant: Option<int>) {
    SameAccount(p.idAccount, tenant) && p.idAccount.value != 0 && p.idUser == 0
  }

  function UnlinkedProfile(ps: seq<Profile>, tenant: Option<int>): (r: Option<Profile>)
    ensures r.Some? ==> r.value in ps && UnlinkedProfileOf(r.value, tenant)
    ensures r.None? <==> forall p :: p in ps ==> !UnlinkedProfileOf(p, tenant)
  {
    if ps == [] then None
    else if UnlinkedProfileOf(ps[0], tenant) then Some(ps[0])
    else UnlinkedProfile(ps[1..], tenant)
  }

  /**
   * The placeholder account of a record without email; the tenant id is kept as a temporary
   * reference. A matched user-less profile lends its (empty) user id.
   */
  function PlaceholderFor(ps: seq<Profile>, j: FeedRecord): Account {
    var id := match UnlinkedProfile(ps, j.tenantId) case Some(p) => p.idUser case None => 0;
    Account(id, None, None, j.name.display, 0, j.tenantId)
  }

  /** `newUsersNoEmail` and `newUsersAccountID`. */
  datatype PlaceholderState = PlaceholderState(toAdd: seq<Account>, refs: seq<Option<int>>)

  function PlaceholderStep(ps: seq<Profile>, s: PlaceholderState, j: FeedRecord): PlaceholderState {
    if !NoEmailTenant(j) || j.tenantId in s.refs then s
    else PlaceholderState(s.toAdd + [PlaceholderFor(ps, j)], s.refs + [j.tenantId])
  }

  function Placeholders(ps: seq<Profile>, rs: seq<FeedRecord>): PlaceholderState {
    if rs == [] then PlaceholderState([], [])
    else PlaceholderStep(ps, Placeholders(ps, rs[..|rs| - 1]), rs[|rs| - 1])
  }

  method StagePlaceholders(ps: seq<Profile>, rs: seq<FeedRecord>) returns (toAdd: seq<Account>, refs: seq<Option<int>>)
    ensures PlaceholderState(toAdd, refs) == Placeholders(ps, rs)
  {
    toAdd, refs := [], [];
    var i := 0;
    while i < |rs|
      invariant 0 <= i <= |rs|
      invariant Placeholders(ps, rs[..i]) == PlaceholderState(toAdd, refs)
    {
      assert rs[..i + 1][..i] == rs[..i];
      var j := rs[i];
      if NoEmailTenant(j) && j.tenantId !in refs {
        var profile := UnlinkedProfile(ps, j.tenantId);
        if profile.Some? {
          toAdd := toAdd + [Account(profile.value.idUser, None, None, j.name.display, 0, j.tenantId)];
          refs := refs + [j.tenantId];
        } else {
          toAdd := toAdd + [Account(0, None, None, j.name.display, 0, j.tenantId)];
          refs := refs + [j.tenantId];
        }
      }
      i := i + 1;
    }
    assert rs[..|rs|] == rs;
  }

  /**
   * One placeholder per tenant id of the records without email, each with no id of its own (both
   * branches of the source stage the same row), no email, an invalid-email flag and the record's
   * display name; its reference is the tenant id.
   */
  lemma {:induction false} PlaceholdersExact(ps: seq<Profile>, rs: seq<FeedRecord>)
    ensures var s := Placeholders(ps, rs);
      && s.refs == Map(s.toAdd, (a: Account) => a.accountRef)
      && Distinct(s.refs)
      && (forall j :: j in rs && NoEmailTenant(j) ==> j.tenantId in s.refs)
      && (forall r :: r in s.refs ==> exists j :: j in rs && NoEmailTenant(j) && j.tenantId == r)
      && forall a :: a in s.toAdd ==>
           a.id == 0 && a.email.None? && a.username.None? && a.isValidEmail == 0
           && exists j :: j in rs && NoEmailTenant(j) && a.accountRef == j.tenantId && a.displayName == j.name.display
  {
    if rs != [] {
      var init := rs[..|rs| - 1];
      var j := rs[|rs| - 1];
      PlaceholdersExact(ps, init);
      var q := Placeholders(ps, init);
      var s := Placeholders(ps, rs);
      assert forall x :: x in rs <==> x in init || x == j;
      if s != q {
        var a := PlaceholderFor(ps, j);
        assert s.toAdd == q.toAdd + [a];
        assert a.id == 0;
        assert Map(s.toAdd, (a: Account) => a.accountRef) == Map(q.toAdd, (a: Account) => a.accountRef) + [j.tenantId];
      }
      forall r | r in s.refs ensures exists j' :: j' in rs && NoEmailTenant(j') && j'.tenantId == r {
        if r in q.refs {
          var j' :| j' in init && NoEmailTenant(j') && j'.tenantId == r;
          assert j' in rs;
        }
      }
      forall a | a in s.toAdd ensures exists j' :: j' in rs && NoEmailTenant(j') && a.accountRef == j'.tenantId && a.displayName == j'.name.display {
        if a in q.toAdd {
          var j' :| j' in init && NoEmailTenant(j') && a.accountRef == j'.tenantId && a.displayName == j'.name.display;
          assert j' in rs;
        }
      }
    }
  }

  // ------------------------------------------------------------ 4. profiles without email

  /**
   * The snapshots the loop reads: the profiles of the batch's tenant ids (read after stage 2's
   * save) and the placeholder accounts by reference (empty when stage 3 staged none).
   */
  datatype NoEmailEnv = NoEmailEnv(ps: seq<Profile>, refUsers: seq<Account>, c: Collaborators, timestamp: string)

  /** The user id of the placeholder of the record's tenant id, 0 when there is none. */
  function RefUserId(e: NoEmailEnv, j: FeedRecord): int {
    match UserOfRef(e.refUsers, j.tenantId) case Some(u) => u.id case None => 0
  }

  /** The profile row carries no community: the source sets none for it. */
  function NoEmailStep(e: NoEmailEnv, s: seq<Profile>, j: FeedRecord): seq<Profile> {
    if !NoEmailTenant(j) || ProfileOfTenant(e.ps, j.tenantId).Some? then s
    else s + [NewProfile(e.c, 0, RefUserId(e, j), e.timestamp, j)]
  }

  function NoEmailProfiles(e: NoEmailEnv, rs: seq<FeedRecord>): seq<Profile> {
    if rs == [] then [] else NoEmailStep(e, NoEmailProfiles(e, rs[..|rs| - 1]), rs[|rs| - 1])
  }

  method StageNoEmailProfiles(e: NoEmailEnv, rs: seq<FeedRecord>) returns (newProfiles: seq<Profile>)
    ensures newProfiles == NoEmailProfiles(e, rs)
  {
    newProfiles := [];
    var i := 0;
    while i < |rs|
      invariant 0 <= i <= |rs|
      invariant NoEmailProfiles(e, rs[..i]) == newProfiles
    {
      assert rs[..i + 1][..i] == rs[..i];
      var j := rs[i];
      if NoEmailTenant(j) {
        var profile := ProfileOfTenant(e.ps, j.tenantId);
        if profile.None? {
          var user := UserOfRef(e.refUsers, j.tenantId);
          var userId := if user.Some? then user.value.id else 0;
          newProfiles := newProfiles + [NewProfile(e.c, 0, userId, e.timestamp, j)];
        }
      }
      i := i + 1;
    }
    assert rs[..|rs|] == rs;
  }

  /** A profile staged for the record `j`, which has a tenant id, no email and no stored profile. */
  predicate NoEmailProfileFor(e: NoEmailEnv, j: FeedRecord, p: Profile) {
    && NoEmailTenant(j) && FieldRules(e.c, j, p)
    && p.email.None? && p.isValidEmail == 0 && p.isLocal == 1
    && p.displayName == j.name.display
    && (forall q :: q in e.ps ==> !SameAccount(q.idAccount, j.tenantId))
    && (p.idUser == 0 || exists u :: u in e.refUsers && SameAccount(u.accountRef, j.tenantId) && u.id == p.idUser)
  }

  /** The profile one iteration stages is one for its record. */
  lemma NoEmailStepSound(e: NoEmailEnv, q: seq<Profile>, j: FeedRecord)
    ensures forall p :: p in NoEmailStep(e, q, j) && p !in q ==> NoEmailProfileFor(e, j, p)
  {
    NewProfileRules(e.c, 0, RefUserId(e, j), e.timestamp, j);
  }

  /**
   * Every staged profile is that of a record without email whose tenant id has no stored profile:
   * local, without email, following the flag rules, linked to the placeholder of its tenant id if any.
   */
  lemma {:induction false} NoEmailProfilesSound(e: NoEmailEnv, rs: seq<FeedRecord>)
    ensures forall p :: p in NoEmailProfiles(e, rs) ==> exists j :: j in rs && NoEmailProfileFor(e, j, p)
  {
    if rs != [] {
      var init := rs[..|rs| - 1];
      var j := rs[|rs| - 1];
      NoEmailProfilesSound(e, init);
      NoEmailStepSound(e, NoEmailProfiles(e, init), j);
      forall p | p in NoEmailProfiles(e, rs) ensures exists j' :: j' in rs && NoEmailProfileFor(e, j', p) {
        if p in NoEmailProfiles(e, init) {
          var j' :| j' in init && NoEmailProfileFor(e, j', p);
          assert j' in rs;
        } else {
          assert j in rs;
        }
      }
    }
  }

  /** Every record without email whose tenant id has no stored profile gets a profile of that id. */
  lemma {:induction false} NoEmailProfilesComplete(e: NoEmailEnv, rs: seq<FeedRecord>)
    ensures forall j :: j in rs && NoEmailTenant(j) && ProfileOfTenant(e.ps, j.tenantId).None? ==>
      exists p :: p in NoEmailProfiles(e, rs) && p.idAccount == j.tenantId
  {
    if rs != [] {
      var init := rs[..|rs| - 1];
      var j := rs[|rs| - 1];
      NoEmailProfilesComplete(e, init);
      var q := NoEmailProfiles(e, init);
      var s := NoEmailProfiles(e, rs);
      assert forall x :: x in rs <==> x in init || x == j;
      assert forall p :: p in q ==> p in s;
      if NoEmailTenant(j) && ProfileOfTenant(e.ps, j.tenantId).None? {
        assert s[|s| - 1].idAccount == j.tenantId;
      }
    }
  }

  /**
   * Uniqueness holds only against stored rows: two records without email sharing a tenant id that
   * has no profile each stage one.
   */
  lemma RepeatedTenantTwoProfiles(e: NoEmailEnv, j: FeedRecord)
    requires NoEmailTenant(j) && ProfileOfTenant(e.ps, j.tenantId).None?
    ensures |NoEmailProfiles(e, [j, j])| == 2
  {
    assert [j, j][..1] == [j];
    assert [j][..0] == [];
    assert NoEmailProfiles(e, [j][..0]) == [];
    var one := NoEmailProfiles(e, [j]);
    assert one == NoEmailStep(e, NoEmailProfiles(e, [j][..0]), j);
    assert |one| == 1;
    assert NoEmailProfiles(e, [j, j]) == NoEmailStep(e, one, j);
  }
}
