# Resident import reconciliation, modelled in Dafny

This project models the reconciliation engine of `resident-import`: the class `ResidentParser`
(`src/ResidentParser.ts`). One `sync` call takes a batch of feed records, which are residents and
tenants, each keyed by an external account id (`tenant_id`). It reconciles the batch with a
community's stored units, user accounts, profiles, unit memberships, lease contracts
(`mds_transactions`), custom-field metadata and role-group memberships. The phases run in the
source's order:

1. the import guard (the persisted start marker);
2. the unit upsert;
3. the identity resolver, which splits the records into NEW and EXISTING against the stored
   profiles' account ids;
4. the create pipeline: accounts, profiles, placeholder accounts, unit memberships and contracts;
5. the update pipeline: accounts, profiles, contracts, resident-type transitions and unit
   memberships;
6. the metadata synchroniser;
7. the role-group assigner;
8. the deactivation sweep.

The project has three layers:

- **The store** is the class `Db.Store`. Its tables are `seq` fields, and `Snapshot()` is their
  value as a `Db.Tables`. Queries and bulk writes are functions of `Db.Tables`; each write method
  of the store (`modifies this`) ends with its snapshot equal to the write function applied to
  the old one:
  - `saveBulk` appends rows under the next auto-increment ids;
  - `updateBulk(columns)` copies the named columns from the last update row of each id;
  - hard deletes filter rows out;
  - soft deletes flip a flag.
- **The engine** is the class `Parser.ResidentParser`. It has the source's fields (`id_instance`,
  `instanceData`, `residentGroups`) and one method per source method. Each method reads its
  snapshots, runs its staging loop and issues the source's bulk writes, in the source's order.
  Each method's contract gives the new store as an effect function of the old one (for example
  `Parser.AfterEmailUsers`, `Parser.AfterUpdate`, `Parser.AfterSweep`): the staging folds applied
  to the snapshots the source reads, and their lists written under the source's guards. The
  phases of `sync` compose the same way: `Parser.AfterReconcile` (the split, then `create` and
  `update`), `Parser.AfterFinish` (metadata, role groups, sweep) and
  `Parser.ResidentParser.AfterSync` (the marker set, the unit upsert, both of those, the marker
  cleared). Each method also states which rows can never be lost.
- **Staging loops.** Every loop of the source that builds a write list is a `Stage*` method. The
  method's `while` loop is proved equal to a fold over the records (a prefix-recursive function).
  Lemmas about that fold state what the list holds, both directions where the source gives
  both.

Values are modelled as follows:

- `tenant_id` is `Option<int>`. It is truthy when present and non-zero.
- A user id of 0 stands for a null `id_user`.
- Emails and names are `string`s.
- `parsePhone`, `getResidentTypeID`, `getGroupTypeID` and `getUserGroupByResidentType` are the
  function fields of `Records.Collaborators`.
- The clock is the `Parser.Clock` parameter.

Where the code differs from what its layout or tests suggest, the model follows the code, with
one exception listed last:

- **Blank email on update.** A blank feed email on an EXISTING record rewrites the profile with a
  null email (`src/ResidentParser.ts:1480`). The program's own test marks the older
  non-destructive behaviour obsolete (`src/tests/profile.update.email.test.ts:161-163`). See
  `UpdateProfiles.WrittenProfileRules`.
- **No matching record.** When no record matches a unit and a user, the deactivation sweep
  returns an error object and writes nothing (`src/ResidentParser.ts:598-602`).
- **The no-email branch of the account loop** (`src/ResidentParser.ts:1318-1328`) is the one
  place where the engine does not run the code as written. The code's `else` followed by a bare
  expression runs the display-name block for every blank-email record. The engine runs the
  `else if` the layout intends. Both readings are modelled; see "## Findings".

## Model

| member | source | states |
|---|---|---|
| Parser.ResidentParser.Init | src/ResidentParser.ts:45-96 | the groups found by upper-cased name are appended to `residentGroups`, in the order Owners, Residents, Tenant; it fails with no groups, with a missing group or a group count other than three, and when the start marker is set (carrying that marker); otherwise it is ready |
| Parser.FoundGroups | src/ResidentParser.ts:58-80 | all three groups are found exactly when three groups are pushed, and they are then pushed in the order Owners, Residents, Tenant |
| Parser.GroupNamed | src/ResidentParser.ts:60-74 | a group whose upper-cased name matches, or None exactly when no group matches |
| Parser.ResidentParser.Sync | src/ResidentParser.ts:113-240 | fails before `init`; while the marker is set it returns the running-import error and changes nothing; otherwise it succeeds and the new store is `AfterSync` of the old: the marker set, `AfterSaveUnits`, `AfterReconcile`, `AfterFinish`, the marker cleared; every valid batch title then names a stored unit; across the run no unit, account, profile, contract or metadata row is lost or re-keyed, no active unit is deactivated, and the only memberships removed are Owners and Tenant memberships |
| Parser.ResidentParser.RunImport | src/ResidentParser.ts:138-222 | success with no errors; the new store is `AfterSync` of the old (the phases in the source's order, the marker cleared at the end); the marker is cleared, every valid batch title names a stored unit, and the same rows are kept as for `Sync` |
| Parser.ResidentParser.Reconcile | src/ResidentParser.ts:143-217 | the result is success with no errors, and the new store is `AfterReconcile` of the old: the records with a usable tenant id are split by `Partition` against the stored profile ids, `AfterCreate` is applied to the NEW part when it is non-empty, then `AfterUpdate` to the EXISTING part when it is non-empty; accounts, profiles and contracts are kept, and units, metadata and the marker are untouched |
| Parser.ResidentParser.CreateBlock | src/ResidentParser.ts:191-201 | on records that all have a usable tenant id: the store becomes `AfterCreate` of the old when the list is non-empty and is unchanged otherwise; `success` is set by a non-empty list and the errors are untouched; accounts, profiles and contracts are kept |
| Parser.ResidentParser.UpdateBlock | src/ResidentParser.ts:202-212 | on records that all have a usable tenant id: the store becomes `AfterUpdate` of the old when the list is non-empty and is unchanged otherwise; `success` and the errors are untouched; accounts, profiles and contracts are kept, and only Owners and Tenant memberships are removed |
| Parser.ResidentParser.Finish | src/ResidentParser.ts:219-221 | the new store is `AfterFinish` of the old: `AfterMetaData` on the whole batch, then `AfterRoleGroups` on the records with a usable tenant id against the tables the metadata pass left, then `AfterSweep` when `SweepMatches` is non-empty; metadata is only added or revalued, role-group memberships are only added by the role-group pass, and units, accounts and the marker are untouched |
| Parser.ResidentParser.SaveUnits | src/ResidentParser.ts:1153-1206 | the new store is `AfterSaveUnits` of the old; without a valid title nothing changes; otherwise the units become the stored units plus one new active unit per new title, with the inactive stored units of batch titles reactivated; every batch title then names a stored unit, and only `units` and the id counter change |
| Parser.ResidentParser.Create | src/ResidentParser.ts:679-1151 | fails exactly when no record has a usable tenant id, and then changes nothing; otherwise the new store is `AfterCreate` of the old: the email accounts and profiles, the placeholders and the no-email profiles, the memberships and the contracts, each staged by its fold against the snapshot the source reads and appended in reverse, then the placeholder references cleared; profiles, memberships and contracts are only appended to, accounts are kept, and no other table changes |
| Parser.ResidentParser.CreateEmailUsers | src/ResidentParser.ts:704-870 | the new store is `AfterEmailUsers` of the old: the `EmailAccounts` list appended in reverse when non-empty, then the `EmailProfiles` list, staged against the re-read accounts, appended in reverse when non-empty; only the accounts, the profiles and the id counter change |
| Parser.ResidentParser.CreateNoEmailUsers | src/ResidentParser.ts:872-1005 | the new store is `AfterNoEmailUsers` of the old: the `Placeholders` accounts appended in reverse, then the `NoEmailProfiles` staged against the saved placeholders appended in reverse; the returned references are those of `Placeholders`; only the accounts, the profiles and the id counter change |
| Parser.ResidentParser.CreateUnitLinks | src/ResidentParser.ts:1007-1141 | the new store is `AfterCreateUnitLinks` of the old: the `Members` memberships appended in reverse, then the `ContractsToInsert` rows for the matches appended in reverse; only those two tables and the id counter change |
| Parser.ResidentParser.Update | src/ResidentParser.ts:1208-1695 | fails exactly when no record has a usable tenant id, and then changes nothing; otherwise the new store is `AfterUpdate` of the old: the account writes, the profile and contract writes, the group removals, the membership additions and updates and the reference clearing, in that order, each from its fold; accounts, profiles, contracts and memberships are kept, no role-group membership is added, and the only ones removed are Owners and Tenant memberships |
| Parser.ResidentParser.UpdateUserAccounts | src/ResidentParser.ts:1279-1391 | the new store is `AfterUserAccounts` of the old: the changed-email accounts appended, the `AccountChanges` renames applied, then the placeholders appended; the returned references and saved placeholders are those of the same fold; accounts are kept, and only the accounts and the id counter change |
| Parser.ResidentParser.UpdateUserProfiles | src/ResidentParser.ts:1393-1547 | the new store is `AfterUserProfiles` of the old: the `Refresh` profile columns written, then its contract inserts appended in reverse, then its contract updates written; profiles and contracts are kept, and nothing else changes |
| Parser.ResidentParser.UpdateTransitions | src/ResidentParser.ts:1549-1616 | a membership of a role group remains exactly when it was stored and is not among the `Transitions` removals; those are Owners or Tenant memberships; the returned creation and retype lists are those of `Transitions`; nothing else changes |
| Parser.ResidentParser.UpdateUnitLinks | src/ResidentParser.ts:1618-1679 | the new store is `AfterUpdateUnitLinks` of the old: the `Additions` of the creation entries appended in reverse, then the three type columns of the retyped memberships written; memberships are kept |
| Parser.ResidentParser.SaveMetaData | src/ResidentParser.ts:398-558 | the new store is `AfterMetaData` of the old: the `MetaQueue` of the unit and user snapshots written by `AfterMetaWrites`; the metadata table becomes the stored rows plus the queued inserts, with the queued values copied onto their ids; metadata rows are kept |
| Parser.ResidentParser.WriteMetaData | src/ResidentParser.ts:545-556 | the new store is `AfterMetaWrites` of the old: the additions inserted in reverse when there are any, then the `value` column of the queued updates written when there are any |
| Parser.ResidentParser.SaveRoleGroups | src/ResidentParser.ts:242-315 | the new store is `AfterRoleGroups` of the old: the memberships become the stored ones plus the `Assign` list, computed against the stored profiles and resident-group memberships, in reverse; nothing else changes |
| Parser.ResidentParser.Deactivate | src/ResidentParser.ts:560-677 | it succeeds exactly when some record matches a unit and a user, and a batch without unit entries gets the unit-entries error; on failure nothing changes; on success the new store is `AfterSweep` of the old: the memberships left are the stored ones not covered by the removal list (with unique ids, exactly those a match covers); a profile is deleted afterwards exactly when it already was, is a duplicate-email victim or is one of the `Victims`; a contract is inactive exactly when it already was or belongs to a victim's user; nothing else in profiles and contracts changes |
| Parser.SweepEffect | src/ResidentParser.ts:607-676 | after the sweep, profiles only get soft-deleted and contracts only deactivated; a profile is deleted exactly when it already was, its id is a duplicate-email victim or a `Victims` id; a contract is inactive exactly when it already was or its user is a victim's; and a profile is a victim exactly when it is stored after the collapse, has an account id, is in no administrative group and its user was not matched |
| Classification.BuildProfileTree | src/ResidentParser.ts:166-173 | an id is in the tree exactly when it is non-zero and some stored profile carries it |
| Classification.Classify | src/ResidentParser.ts:175-192 | the NEW and EXISTING lists and the remaining tree are those of the split `Partition` |
| Classification.PartitionSplitsBatch | src/ResidentParser.ts:175-192 | every record with a usable id goes to exactly one of NEW and EXISTING (a multiset split); both lists keep batch order, and no record without an id is classified |
| Classification.ExistingIdsOnce | src/ResidentParser.ts:186-188 | EXISTING ids are distinct; they are exactly the tree ids that the batch mentions, and the tree loses exactly those ids |
| Classification.RepeatsGoToNew | src/ResidentParser.ts:186-191 | a record classified NEW whose id is a stored profile id repeats an id already classified EXISTING |
| Units.BatchTitles | src/ResidentParser.ts:1160-1172 | the distinct valid titles of the batch, and no others |
| Units.TitlesToCreate | src/ResidentParser.ts:1173-1174 | distinct, and exactly the batch titles that no stored unit has |
| Units.CommonTitles | src/ResidentParser.ts:1173-1176 | exactly the batch titles that some stored unit has |
| Units.FirstWithTitle | src/ResidentParser.ts:1179-1181 | a stored unit with the title, or None exactly when there is none |
| Units.StageReactivations | src/ResidentParser.ts:1177-1188 | the loop's update list is `Reactivations` |
| Units.ReactivationsExact | src/ResidentParser.ts:1177-1188 | the update list holds exactly the reactivated copies of inactive units that are the first stored unit of a common title |
| Units.AddedUnits | src/ResidentParser.ts:1189-1200 | one new unit per title to create, active, in the community, with consecutive ids, and no other |
| Units.ReactivationOutcome | src/ResidentParser.ts:1200-1201 | after the insert and the update, every stored unit is unchanged except that a reactivated unit has `is_active` 1, and the new units follow unchanged |
| Units.BatchTitlesStored | src/ResidentParser.ts:1153-1206 | after the upsert, every valid batch title names a stored unit |
| CreateAccounts.UserByUsername | src/ResidentParser.ts:722-727 | an account whose trimmed lower-cased username equals the email, or None exactly when there is none |
| CreateAccounts.ProfileByEmail | src/ResidentParser.ts:730-735 | a profile whose trimmed lower-cased email equals the record's email, or None exactly when there is none |
| CreateAccounts.StageEmailAccounts | src/ResidentParser.ts:709-762 | the loop's account list is `EmailAccounts` |
| CreateAccounts.EmailAccountsSound | src/ResidentParser.ts:712-761 | every staged account is the new account of a batch record with an email and no account of that username; it reuses the user id of a profile holding the email when one exists |
| CreateAccounts.EmailAccountsKeyed | src/ResidentParser.ts:717-760 | the seen-email set is exactly the normalised emails of the staged accounts |
| CreateAccounts.OneAccountPerEmail | src/ResidentParser.ts:709-762 | with normalised feed emails, no two staged accounts share an email, and every email without a stored username gets an account |
| CreateAccounts.NoAccountForExistingUsername | src/ResidentParser.ts:722-752 | with normalised feed emails, no staged account's email is the normalised username of a stored account |
| CreateAccounts.AccountStaged | src/ResidentParser.ts:807-809 | true exactly when an entry with the record's tenant id, email and display name (in upper case) was already staged |
| CreateAccounts.StageEmailProfiles | src/ResidentParser.ts:791-862 | the loop's profile and entry lists are `EmailProfiles` |
| CreateAccounts.NewProfileRules | src/ResidentParser.ts:821-854 | a new profile carries the record's tenant id, is undeleted and ACL-active, and has an email exactly when the record has one; its validity and locality flags follow that email, and each phone is set, with its flag, exactly when the raw value is non-blank and parses |
| CreateAccounts.EmailProfilesSound | src/ResidentParser.ts:794-861 | the entry list mirrors the profile list, and every new profile belongs to a batch record with a stored account of its email and no stored profile of its tenant id |
| CreateAccounts.EmailProfilesOncePerEntry | src/ResidentParser.ts:806-812 | with normalised feed emails, no two new profiles share a tenant id, an email and a display name (compared in upper case) |
| CreateAccounts.UnlinkedProfile | src/ResidentParser.ts:895-898 | a stored profile of the tenant id without a user, or None exactly when there is none |
| CreateAccounts.StagePlaceholders | src/ResidentParser.ts:883-917 | the loop's placeholder and reference lists are `Placeholders` |
| CreateAccounts.PlaceholdersExact | src/ResidentParser.ts:885-917 | the references are distinct and are exactly the tenant ids of the no-email records; every placeholder has no email or username, is not a valid email, and carries a record's tenant id and display name |
| CreateAccounts.StageNoEmailProfiles | src/ResidentParser.ts:935-996 | the loop's profile list is `NoEmailProfiles` |
| CreateAccounts.NoEmailProfilesSound | src/ResidentParser.ts:937-995 | every new profile belongs to a no-email record whose tenant id has no stored profile, and links the user staged for it |
| CreateAccounts.NoEmailProfilesComplete | src/ResidentParser.ts:949-995 | every no-email record whose tenant id has no stored profile gets a profile with that id |
| CreateAccounts.RepeatedTenantTwoProfiles | src/ResidentParser.ts:942-947 | the staged-entry check never fires for a blank email, so a tenant id listed twice without email gets two profiles |
| CreateMemberships.MatchStaged | src/ResidentParser.ts:1068-1073 | true exactly when the (user, title, tenant id) triple was already matched |
| CreateMemberships.ViewOf | src/ResidentParser.ts:1082-1084 | a stored membership of the user in a unit of the title, or None exactly when there is none |
| CreateMemberships.StageMemberships | src/ResidentParser.ts:1034-1104 | the loop's match and membership lists are `Members` |
| CreateMemberships.MemberStepSound | src/ResidentParser.ts:1037-1104 | one record adds at most a new triple and, for it, a membership it justifies |
| CreateMemberships.MembersSound | src/ResidentParser.ts:1037-1104 | matched triples are pairwise distinct, and each match and each new membership comes from a batch record with a stored user and unit |
| CreateMemberships.HasContract | src/ResidentParser.ts:1118-1120 | true exactly when a stored contract of the community links the user and the tenant id |
| CreateMemberships.StageContracts | src/ResidentParser.ts:1113-1132 | the loop's insert list is `ContractsToInsert` |
| CreateMemberships.ContractsExact | src/ResidentParser.ts:1113-1132 | an insert is exactly the new active contract of a match that no stored contract covers, and there are at most as many inserts as matches |
| UpdateAccounts.EmailDiffers | src/ResidentParser.ts:1290-1293 | for a non-blank email, true exactly when the user's or the profile's email is not that email |
| UpdateAccounts.Queued | src/ResidentParser.ts:1306-1309 | true exactly when a placeholder with the display name and tenant id is already staged |
| UpdateAccounts.HasDisplayName | src/ResidentParser.ts:1320-1321 | true exactly when a stored account has the display name |
| UpdateAccounts.StageAccountChanges | src/ResidentParser.ts:1276-1344 | the loop's three lists are `AccountChanges` |
| UpdateAccounts.AccountChangesExact | src/ResidentParser.ts:1280-1344 | an account added is exactly the normalised new account of a record whose email differs from the stored ones; an account renamed is exactly the update for a record whose display name no longer matches the stored names |
| UpdateAccounts.SameNameNoRename | src/ResidentParser.ts:1331-1341 | a record whose display name equals both stored display names up to letter case queues no display-name update |
| UpdateAccounts.NoEmailStepSound | src/ResidentParser.ts:1303-1329 | for a blank email, the corrected branch stages at most one placeholder, and only for that record |
| UpdateAccounts.PlaceholdersSound | src/ResidentParser.ts:1303-1329 | there are at most as many placeholders as records; each belongs to a batch record and has no email and no valid-email flag |
| UpdateAccounts.NoEmailStepAsWrittenStagesTwice | src/ResidentParser.ts:1305-1328 | as written, a profile pending a link stages two placeholders where one is intended, and a profile without any email stages one where none is intended |
| UpdateProfiles.EmailChanged | src/ResidentParser.ts:1429 | for a non-blank email, true exactly when the profile's or the user's email differs from it |
| UpdateProfiles.RowByUserEmail | src/ResidentParser.ts:1433-1435 | a row whose normalised user email equals the email, or None exactly when there is none |
| UpdateProfiles.FirstNamed | src/ResidentParser.ts:1454-1457 | a stored account with the display name, or None exactly when there is none |
| UpdateProfiles.Decide | src/ResidentParser.ts:1401-1491 | a record is processed exactly when its tenant id has a joined row and a profile; it is then marked changed exactly when the profile is deleted, or its names, email, link or phones differ from the record |
| UpdateProfiles.ContractOfTenant | src/ResidentParser.ts:1494-1496 | a stored contract of the tenant id, or None exactly when there is none or the record has no usable id |
| UpdateProfiles.StageRefresh | src/ResidentParser.ts:1397-1527 | the loop's profile, insert and update lists are `Refresh` |
| UpdateProfiles.RefreshExact | src/ResidentParser.ts:1401-1527 | a profile rewrite, a contract insert and a contract update are each exactly the write some batch record calls for |
| UpdateProfiles.WrittenProfileRules | src/ResidentParser.ts:1473-1491 | every rewritten profile is undeleted and ACL-active, and follows a batch record's email, phones and flags; a blank email gives a null email |
| UpdateProfiles.RewriteSettles | src/ResidentParser.ts:1473-1533 | after the column update, the profile's names, email, phones and deleted flag are those the comparison expects, so the same record does not trigger a rewrite for them again |
| UpdateProfiles.ContractUpdatesAddressStoredRows | src/ResidentParser.ts:1497-1525 | each contract update targets a stored contract of the same tenant id; each insert is active, not stopped, and in the community |
| UpdateMemberships.GroupIdOf | src/ResidentParser.ts:1267-1274 | a non-zero result is the id of a group with the upper-cased name, and the result is 0 when no group has it |
| UpdateMemberships.RowOfRecord | src/ResidentParser.ts:1553-1555 | a joined row matching the record's email or tenant id, or None exactly when there is none |
| UpdateMemberships.ViewIn | src/ResidentParser.ts:1560-1562 | a stored membership of the community, title and user, or None exactly when there is none |
| UpdateMemberships.GroupRemovals | src/ResidentParser.ts:1582-1609 | owner to Tenant removes the Owners membership; Tenant to owner removes the Tenant membership (each only when the group exists); any other change removes nothing |
| UpdateMemberships.StageTransitions | src/ResidentParser.ts:1552-1612 | the loop's creation, update and removal lists are `Transitions` |
| UpdateMemberships.TransitionsExact | src/ResidentParser.ts:1552-1612 | each list holds exactly the entries some batch record calls for |
| UpdateMemberships.UpdatesKeepRows | src/ResidentParser.ts:1572-1580 | every membership update is a stored membership with only its three type columns changed |
| UpdateMemberships.RemovalsOnlyOwnersOrTenant | src/ResidentParser.ts:1582-1615 | every removal is the instance's Owners or Tenant membership, never group 0 |
| UpdateMemberships.OwnerToTenantRemovesOwners | src/ResidentParser.ts:1587-1596 | a record moving a stored owner to Tenant removes that user's Owners membership |
| UpdateMemberships.TenantToOwnerRemovesTenant | src/ResidentParser.ts:1598-1608 | a record moving a stored tenant to an owner type removes that user's Tenant membership |
| UpdateMemberships.FirstWithoutEmail | src/ResidentParser.ts:1631-1633 | a row without a user email, or None exactly when every row has one |
| UpdateMemberships.StageAdditions | src/ResidentParser.ts:1622-1666 | the loop's membership list is `Additions` |
| UpdateMemberships.AdditionsExact | src/ResidentParser.ts:1624-1666 | a new membership is exactly the one a creation entry with a stored unit and no existing membership calls for; each is resident and in the community |
| MetaSync.MatchField | src/ResidentParser.ts:445-447 | a stored custom field with the defined field's entity, type and tag, or None exactly when no stored field matches |
| MetaSync.MatchFieldFirst | src/ResidentParser.ts:445-447 | the field returned is the first matching one, as `find` returns |
| MetaSync.StoredRow | src/ResidentParser.ts:451-453 | the stored metadata row of the entity, object and field, or None exactly when there is none |
| MetaSync.StageMetaData | src/ResidentParser.ts:434-543 | the two nested loops' insert and update lists are `Collect` |
| MetaSync.FieldsExact | src/ResidentParser.ts:444-474 | the inner loop adds exactly the inserts and updates its fields need |
| MetaSync.CollectExact | src/ResidentParser.ts:398-558 | an insert is exactly a wanted value with no stored row, and an update is exactly a wanted value that differs from its stored row |
| MetaSync.UpdatesChangeValueOnly | src/ResidentParser.ts:454-464 | every update is a stored row with only its value changed, and that value differs |
| MetaSync.QueuedWhenNeeded | src/ResidentParser.ts:454-473 | every needed insert or update of a batch record is queued |
| MetaSync.NothingQueuedIffUpToDate | src/ResidentParser.ts:398-558 | nothing is queued exactly when every wanted value is already stored with the record's value |
| RoleGroups.IndexOfAccount | src/ResidentParser.ts:259-261 | the index of a matching id, or None exactly when no id matches |
| RoleGroups.ResidentsGroup | src/ResidentParser.ts:253-255 | a group named exactly Residents, or None exactly when there is none |
| RoleGroups.StageRoleGroups | src/ResidentParser.ts:257-309 | the loop's membership list is `Assign` |
| RoleGroups.AssignOnlyNew | src/ResidentParser.ts:258-309 | every queued membership is absent from the stored ones and belongs to the instance; it is the record's own group or Residents, for the user of a profile carrying the record's tenant id, and only for a record whose resident type maps to a group |
| RoleGroups.ConsumeStep | src/ResidentParser.ts:259-265 | one record moves at most one account id from the remaining list to the consumed list |
| RoleGroups.AssignConsumesOnce | src/ResidentParser.ts:247-265 | the remaining and consumed ids together are the stored profiles' ids, so each stored id is processed at most as often as profiles carry it |
| RoleGroups.NoGroupNoMembership | src/ResidentParser.ts:268-271 | a record whose resident type maps to no group queues nothing, not even Residents |
| Deactivation.MatchUnitUsers | src/ResidentParser.ts:580-597 | the loop's match list is `Matched` |
| Deactivation.MatchedExact | src/ResidentParser.ts:581-597 | at most one match per record; a match is exactly the (unit, user) pair of a record with a stored unit of its title and a joined row of its tenant id |
| Deactivation.PairIn | src/ResidentParser.ts:611-613 | true exactly when a match has the membership's unit and user |
| Deactivation.UnitProfilesToRemove | src/ResidentParser.ts:607-617 | the loop's removal list is `Removals` |
| Deactivation.RemovalsExact | src/ResidentParser.ts:610-617 | an id is removed exactly when it is the id of a stored membership that no match covers |
| Deactivation.KeptIffMatched | src/ResidentParser.ts:607-620 | with unique membership ids, a membership survives the delete exactly when a match covers it |
| Deactivation.RoleIn | src/ResidentParser.ts:653-655 | true exactly when an administrative group lists the user |
| Deactivation.ProfilesToDeactivate | src/ResidentParser.ts:631-667 | the loop's victim list is `Victims` |
| Deactivation.VictimsExact | src/ResidentParser.ts:651-667 | a profile is deactivated exactly when it is stored, is in no administrative group, and its user was not matched; victims keep the stored order |
| Text.NameUnchangedReflexive | src/ResidentParser.ts:1338-1341 | a display name equal to the stored name up to letter case passes the name-change test |

## Left out

- The store's queries and bulk writes (`DbTask`) are not part of this model. Each query is a
  filter or join over the tables, as its name and use describe. `saveBulk` appends rows under the
  next auto-increment ids, except that a row carrying an id keeps it. `updateBulk` lets the last
  row per id win.
- `Db.Tables.SaveAccounts`: a staged account that already carries an id (the email account
  reusing a profile's `id_user`, `src/ResidentParser.ts:739-746`) keeps it, and the model appends
  it as a second row with a stored key. Neither an upsert nor a duplicate-key failure of the
  database is modelled.
- `Parser.ResidentParser.Sync`: the source never clears the start marker itself. The model
  assumes that `DbTask.clearCache` (`src/ResidentParser.ts:222`) releases it, and clears it
  there.
- `UpdateAccounts.StageAccountChanges`: the fold it equals runs the corrected no-email branch
  `UpdateAccounts.NoEmailStep`, not `src/ResidentParser.ts:1318-1328` as written
  (`UpdateAccounts.NoEmailStepAsWritten`), so the extra placeholders the code as written stages
  are not captured.
- `UpdateAccounts.AccountStep`: calls the corrected `UpdateAccounts.NoEmailStep`, for the same
  reason.
- `Parser.ResidentParser.UpdateUserAccounts`: its effect `Parser.AfterUserAccounts` appends the
  placeholders of the corrected branch, not those of the code as written.
- `Parser.ResidentParser.Update`: its effect `Parser.AfterUpdate` runs the corrected no-email
  branch, for the same reason.
- `Parser.RoleEnvOf`: `getUsersRoleGroups(residentGroupNames)` (`src/ResidentParser.ts:250`,
  names at `:31-34`) is a store query outside the model; it is modelled as the memberships of
  the groups whose name is exactly Owners, Residents or Tenant, compared without case folding.
- `UpdateMemberships.GroupRemovals`: the resident-type lookup is a total function, so the
  `getResidentTypeID(...) ?? 3` default at `src/ResidentParser.ts:1583` is not modelled. When the
  lookup returns null the source compares against 3; the model has no null to compare.
- `MetaSync.NothingQueuedIffUpToDate`: it is not proved that a pass leaves the store up to date.
  It does not when two records give one (entity, object, field) key different values.
- `CreateAccounts.NoAccountForExistingUsername`: proved only for normalised feed emails, for the
  same reason as `CreateAccounts.OneAccountPerEmail`.
- `UpdateProfiles.RewriteSettles`: proved only when the phone parser never yields the empty
  string. For such a parser the source writes `""` (`src/ResidentParser.ts:1484`) but compares
  against null (`src/ResidentParser.ts:1465`), so the record rewrites the profile on every run.
- `UpdateMemberships.FirstWithoutEmail`: assumes the joined rows of
  `getUserProfilesByAccountIDsOrEmails` carry no `email` column, so a creation entry spread from
  one has no email and the lookup at `src/ResidentParser.ts:1632` matches a row without a user
  email.
- `init`'s config-file check, its auth-action and permit checks, and its custom-field settings
  and object-group writes (`src/ResidentParser.ts:50-52`, `81-91`, `99-100`) are omitted. They
  touch tables outside the model.
- The mapping of the raw input into feed records (`castUnitsToUsersWithCustomFields`,
  `mapUnitUsersToCustomFields`) and `setFormattedNames` are not modelled. Records arrive already
  mapped, with their formatted names.
- Clocks, audit trails and logging are not modelled. Timestamps and dates are parameters;
  `saveAuditTrails` and console output are dropped.
- Exceptions thrown by the store are not modelled. Every write succeeds, so the model has no path
  that leaves the marker set after a failure.
- Concurrency is not modelled. Two `sync` calls never interleave; the guard is modelled as a
  single check-then-set.
- `softDeleteOldProfilesWithDuplicateEmails` is opaque. `Parser.ResidentParser.Deactivate` takes
  the ids of the profiles it soft-deletes as a parameter.
- The unused `saveCustomFieldsMetaData` (`src/ResidentParser.ts:317-396`) is not modelled.
- Dead values are not modelled: the `userTree` of `sync`, the debugging filters (`uProfiles`,
  `aList`) and the refetch after saving changed-email accounts (`filteredNewUsers`).
- `parsePhone` and the resident-type and group-type lookups are parameters. Only their results
  are used.
- Case mapping and trimming are ASCII-only. Unicode case folding and Unicode white space are not
  modelled.
- `CreateAccounts.OneAccountPerEmail`: proved only for normalised feed emails (trimmed and lower
  case). The duplicate check lower-cases the raw email but the seen-set stores the trimmed one, so
  two spellings of one address can each stage an account.
- `CreateAccounts.EmailProfilesOncePerEntry`: proved only for normalised feed emails, for the same
  reason.
- `Text.NameUnchangedReflexive`: the rename test builds a regular expression from the stored
  name. In the template string `\s` is a plain `s`, so the model reads the test as "the display
  name ends, ignoring letter case, with the stored name, optionally followed by `s`". It does not
  model regular-expression metacharacters inside the stored name. Nor does it model a null
  stored display name: the source interpolates it as the text "null", the match fails and a
  rename is queued, while the model's stored names are plain strings.

## Findings

| source | as written | input that shows it | evidently intended | confidence | as-written member | corrected member |
|---|---|---|---|---|---|---|
| src/ResidentParser.ts:1318-1328 | `}else( a \|\| b )` followed on the next line by `{ ... }`: automatic semicolon insertion ends the `else` after the bare expression, so the block runs for every EXISTING record without an email | a record with a blank email whose stored profile has no email and whose user has one, and no account has its display name: two placeholder accounts are staged for one record; with neither email set, one is staged where none is intended | `else if( a \|\| b ) { ... }`: look up the display name only when the user or the profile has an email | not executed | UpdateAccounts.NoEmailStepAsWritten (counterexample UpdateAccounts.NoEmailStepAsWrittenStagesTwice) | UpdateAccounts.NoEmailStep (UpdateAccounts.NoEmailStepSound, UpdateAccounts.PlaceholdersSound) |
