/**
 * The account loop of `update` (src/ResidentParser.ts:1280-1344), run on the records classified
 * EXISTING. For each record with a joined account/profile row of its tenant id it may stage
 *  - a new account, when the record has an email that either stored email disagrees with;
 *  - a placeholder account (no email, the tenant id as temporary reference), when the record has
 *    no email but the row does, or the profile is not yet linked to an emailed account;
 *  - a display-name update of the row's account, when the name-change test fails.
 */
module UpdateAccounts {
  import opened Wrappers
  import opened Text
  import opened Records

  /**
   * `(x ? x : null) !== (j.email ? j.email : null)` for the account and the profile email: for a
   * record with an email, true exactly when not both stored emails equal it.
   */
  function EmailDiffers(u: UserProfile, email: string): (r: bool)
    ensures email != "" ==> (r <==> !(u.userEmail == Some(email) && u.profileEmail == Some(email)))
  {
    OrNull(u.userEmail) != EmailOrNull(email) || OrNull(u.profileEmail) != EmailOrNull(email)
  }

  /** The account staged for an email change: username and email are the normalised email. */
  function EmailedAccount(j: FeedRecord): Account {
    Account(0, Some(Normalize(j.email)), Some(Normalize(j.email)), j.name.display, 1, None)
  }

  /** A placeholder account without email, carrying the tenant id as temporary reference. */
  function Placeholder(j: FeedRecord): Account {
    Account(0, None, None, j.name.display, 0, j.tenantId)
  }

  /**
   * The row sent to `updateBulk(users, ['display_name'])`: the row's account id with the record's
   * values (only the display name is written).
   */
  function Renamed(u: UserProfile, j: FeedRecord): Account {
    var key := if j.email != "" then Some(Normalize(j.email)) else None;
    Account(u.userId, key, key, j.name.display, Flag(j.email != ""), None)
  }

  /** The name-change test fails for the account's or the profile's display name. */
  predicate NameChanged(u: UserProfile, j: FeedRecord) {
    !NameUnchanged(j.name.display, u.userDisplayName) || !NameUnchanged(j.name.display, u.profileDisplayName)
  }

  /**
   * A record whose display name equals both stored display names up to letter case queues no
   * display-name update: the name-change test is case-insensitive.
   */
  lemma SameNameNoRename(u: UserProfile, j: FeedRecord)
    requires ToLower(j.name.display) == ToLower(u.userDisplayName) && ToLower(j.name.display) == ToLower(u.profileDisplayName)
    ensures !NameChanged(u, j)
  {
    NameUnchangedReflexive(j.name.display, u.userDisplayName);
    NameUnchangedReflexive(j.name.display, u.profileDisplayName);
  }

  /** `profile_email == null && user_email != null`: the profile is not linked to the emailed account. */
  predicate LinkPending(u: UserProfile) {
    u.profileEmail.None? && u.userEmail.Some?
  }

  /** `user_email || profile_email`. */
  predicate RowHasEmail(u: UserProfile) {
    Truthy(u.userEmail) || Truthy(u.profileEmail)
  }

  /** `newUsersNoEmail.find(d => d.display_name == display && d.id_account == tenant)`. */
  function Queued(q: seq<Account>, display: string, tenant: Option<int>): (r: bool)
    ensures r <==> exists a :: a in q && a.displayName == display && SameAccount(a.accountRef, tenant)
  {
    if q == [] then false
    else if q[0].displayName == display && SameAccount(q[0].accountRef, tenant) then true
    else
      assert forall a :: a in q <==> a == q[0] || a in q[1..];
      Queued(q[1..], display, tenant)
  }

  /** `getUsersByDisplayName(display)` is not empty. */
  function HasDisplayName(accs: seq<Account>, display: string): (r: bool)
    ensures r <==> exists a :: a in accs && a.displayName == display
  {
    if accs == [] then false
    else if accs[0].displayName == display then true
    else
      assert forall a :: a in accs <==> a == accs[0] || a in accs[1..];
      HasDisplayName(accs[1..], display)
  }

  /** The snapshots the loop reads: the joined rows and the stored accounts. */
  datatype AccountEnv = AccountEnv(ups: seq<UserProfile>, accs: seq<Account>)

  /** `usersToAdd`, `usersToUpdate` and `newUsersNoEmail`. */
  datatype AccountState = AccountState(toAdd: seq<Account>, toUpdate: seq<Account>, noEmail: seq<Account>)

  /**
   * The no-email branch as written (src/ResidentParser.ts:1309-1328): `else( a || b )` followed by
   * a block on the next line is an `else` whose statement is the bare expression, so the block,
   * which stages a placeholder when no account has the display name, runs for every such record.
   */
  function NoEmailStepAsWritten(e: AccountEnv, q: seq<Account>, u: UserProfile, j: FeedRecord): seq<Account> {
    var q1 := if LinkPending(u) && !Queued(q, j.name.display, j.tenantId) then q + [Placeholder(j)] else q;
    if HasDisplayName(e.accs, j.name.display) then q1 else q1 + [Placeholder(j)]
  }

  /** The no-email branch read as the `else if` its layout and comment intend. */
  function NoEmailStep(e: AccountEnv, q: seq<Account>, u: UserProfile, j: FeedRecord): seq<Account> {
    if LinkPending(u) then
      if Queued(q, j.name.display, j.tenantId) then q else q + [Placeholder(j)]
    else if RowHasEmail(u) then
      if HasDisplayName(e.accs, j.name.display) then q else q + [Placeholder(j)]
    else q
  }

  /** One iteration of the loop, with the corrected no-email branch. */
  function AccountStep(e: AccountEnv, s: AccountState, j: FeedRecord): AccountState {
    match UserOfAccount(e.ups, j.tenantId)
    case None => s
    case Some(u) =>
      var s1 :=
        if j.email != "" then
          if EmailDiffers(u, j.email) then s.(toAdd := s.toAdd + [EmailedAccount(j)]) else s
        else s.(noEmail := NoEmailStep(e, s.noEmail, u, j));
      if NameChanged(u, j) then s1.(toUpdate := s1.toUpdate + [Renamed(u, j)]) else s1
  }

  function AccountChanges(e: AccountEnv, rs: seq<FeedRecord>): AccountState {
    if rs == [] then AccountState([], [], [])
    else AccountStep(e, AccountChanges(e, rs[..|rs| - 1]), rs[|rs| - 1])
  }

  method StageAccountChanges(e: AccountEnv, rs: seq<FeedRecord>)
    returns (toAdd: seq<Account>, toUpdate: seq<Account>, noEmail: seq<Account>)
    ensures AccountState(toAdd, toUpdate, noEmail) == AccountChanges(e, rs)
  {
    toAdd, toUpdate, noEmail := [], [], [];
    var i := 0;
    while i < |rs|
      invariant 0 <= i <= |rs|
      invariant AccountChanges(e, rs[..i]) == AccountState(toAdd, toUpdate, noEmail)
    {
      assert rs[..i + 1][..i] == rs[..i];
      var j := rs[i];
      var row := UserOfAccount(e.ups, j.tenantId);
      if row.Some? {
        var u := row.value;
        if j.email != "" {
          if EmailDiffers(u, j.email) {
            toAdd := toAdd + [EmailedAccount(j)];
          }
        } else {
          if LinkPending(u) {
            if !Queued(noEmail, j.name.display, j.tenantId) {
              noEmail := noEmail + [Placeholder(j)];
            }
          } else if RowHasEmail(u) {
            if !HasDisplayName(e.accs, j.name.display) {
              noEmail := noEmail + [Placeholder(j)];
            }
          }
        }
        if NameChanged(u, j) {
          toUpdate := toUpdate + [Renamed(u, j)];
        }
      }
      i := i + 1;
    }
    assert rs[..|rs|] == rs;
  }

  /** `a` is the account staged for the email change of `j`. */
  predicate EmailChangeFor(e: AccountEnv, j: FeedRecord, a: Account) {
    j.email != "" && UserOfAccount(e.ups, j.tenantId).Some?
    && EmailDiffers(UserOfAccount(e.ups, j.tenantId).value, j.email) && a == EmailedAccount(j)
  }

  /** `a` is the display-name update staged for `j`. */
  predicate RenameFor(e: AccountEnv, j: FeedRecord, a: Account) {
    UserOfAccount(e.ups, j.tenantId).Some? && NameChanged(UserOfAccount(e.ups, j.tenantId).value, j)
    && a == Renamed(UserOfAccount(e.ups, j.tenantId).value, j)
  }

  /**
   * A new account is staged exactly for each record with an email that its row's stored emails
   * do not both equal, and a name update exactly for each record whose name-change test fails.
   */
  lemma {:induction false} AccountChangesExact(e: AccountEnv, rs: seq<FeedRecord>)
    ensures forall a :: a in AccountChanges(e, rs).toAdd <==> exists j :: j in rs && EmailChangeFor(e, j, a)
    ensures forall a :: a in AccountChanges(e, rs).toUpdate <==> exists j :: j in rs && RenameFor(e, j, a)
  {
    if rs != [] {
      var init := rs[..|rs| - 1];
      var j := rs[|rs| - 1];
      AccountChangesExact(e, init);
      assert forall x :: x in rs <==> x in init || x == j;
      var p := AccountChanges(e, init);
      var s := AccountChanges(e, rs);
      assert forall a :: a in s.toAdd <==> a in p.toAdd || EmailChangeFor(e, j, a);
      assert forall a :: a in s.toUpdate <==> a in p.toUpdate || RenameFor(e, j, a);
    }
  }

  /** `a` is a placeholder of `j`, a record without email whose row has an email or a pending link. */
  predicate PlaceholderFor(e: AccountEnv, j: FeedRecord, a: Account) {
    j.email == "" && UserOfAccount(e.ups, j.tenantId).Some?
    && (LinkPending(UserOfAccount(e.ups, j.tenantId).value) || RowHasEmail(UserOfAccount(e.ups, j.tenantId).value))
    && a == Placeholder(j)
  }

  /** The corrected branch stages at most one placeholder, and only one `PlaceholderFor` the record. */
  lemma NoEmailStepSound(e: AccountEnv, q: seq<Account>, u: UserProfile, j: FeedRecord)
    requires j.email == "" && UserOfAccount(e.ups, j.tenantId) == Some(u)
    ensures |NoEmailStep(e, q, u, j)| <= |q| + 1
    ensures forall a :: a in NoEmailStep(e, q, u, j) ==> a in q || PlaceholderFor(e, j, a)
  {
  }

  /**
   * Every placeholder is that of a batch record without email whose row has an email or a
   * pending link, with at most one per record; none carries an email.
   */
  lemma {:induction false} PlaceholdersSound(e: AccountEnv, rs: seq<FeedRecord>)
    ensures |AccountChanges(e, rs).noEmail| <= |rs|
    ensures forall a :: a in AccountChanges(e, rs).noEmail ==> exists j :: j in rs && PlaceholderFor(e, j, a)
    ensures forall a :: a in AccountChanges(e, rs).noEmail ==> a.email.None? && a.isValidEmail == 0
  {
    if rs != [] {
      var init := rs[..|rs| - 1];
      var j := rs[|rs| - 1];
      PlaceholdersSound(e, init);
      var p := AccountChanges(e, init);
      var s := AccountChanges(e, rs);
      match UserOfAccount(e.ups, j.tenantId)
      case None =>
        assert s == p;
      case Some(u) =>
        if j.email == "" {
          NoEmailStepSound(e, p.noEmail, u, j);
          assert s.noEmail == NoEmailStep(e, p.noEmail, u, j);
        } else {
          assert s.noEmail == p.noEmail;
        }
      forall a | a in s.noEmail ensures exists j' :: j' in rs && PlaceholderFor(e, j', a) {
        if a in p.noEmail {
          var j' :| j' in init && PlaceholderFor(e, j', a);
          assert j' in rs;
        } else {
          assert PlaceholderFor(e, j, a);
        }
      }
    }
  }

  /**
   * As written, one record without email, whose profile is not yet linked to its emailed account
   * and whose display name no account has, stages two placeholders; and one whose row has no
   * email at all stages a placeholder as well.
   */
  lemma NoEmailStepAsWrittenStagesTwice()
    ensures var u := UserProfile(5, Some(7), Some("a@b.c"), None, "Ann Lee", "Ann Lee");
      var j := FeedRecord(Some(7), "", FormattedName("Ann", "Lee", "Ann Lee"), "", "", "101", "L1", "Tenant", None, map[]);
      var e := AccountEnv([u], []);
      && |NoEmailStepAsWritten(e, [], u, j)| == 2
      && |NoEmailStep(e, [], u, j)| == 1
    ensures var u := UserProfile(5, Some(7), None, None, "Ann Lee", "Ann Lee");
      var j := FeedRecord(Some(7), "", FormattedName("Ann", "Lee", "Ann Lee"), "", "", "101", "L1", "Tenant", None, map[]);
      var e := AccountEnv([u], []);
      && NoEmailStepAsWritten(e, [], u, j) == [Placeholder(j)]
      && NoEmailStep(e, [], u, j) == []
  {
  }
}
