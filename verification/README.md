# Verification of the openGauss service broker

A Dafny model of an Open Service Broker (OSB API 2.16) control plane for openGauss, and proofs about it. The
broker keeps a record store (instances and bindings) beside a SQL catalog (databases, roles, tablespaces,
memberships, grants, default privileges). It changes the catalog by ordered batches of statements without
transactions, undoes a failed batch with another batch, and lets one mutating request run at a time.

The assumption behind everything here is hostile: an oracle (`State.Faults`) may make any single step of any
request fail without effect, reads, probes, statements and record writes alike, also while a failed operation
is being rolled back. What the model shows is that the order of the statements carries the broker's safety: the
group role (or the user) is created first and dropped last, so it works as a token of ownership.

`dafny verify dfyconfig.toml` checks the whole project with Dafny 4.11.

## How the model is built

| module | what it is |
|---|---|
| `Sql` | the catalog and the statements: a precondition and an effect each |
| `State` | the shared state, the atomic steps of a request, and decision trees of such steps with their execution under faults |
| `Names`, `Params`, `Plans`, `Vault`, `Uri` | derived names, quoting and passwords; limits and their published schema; the plans file; encryption at rest; the connection URI |
| `Tenancy` | the eight batches, and the operations that run them with their probes and rollbacks, as trees |
| `Lifecycle`, `Membership`, `Sparing` | what one tenant's, or one user's, operation does and what it spares |
| `Operations` | whole requests (`Serve`): what is read, what is answered, which tree is run |
| `Safety`, `Isolation`, `Secrets`, `Quotas`, `Activity` | what every request keeps |
| `Rotation` | re-encryption under a new key |
| `Runs`, `Repeats` | runs of requests, restarts and application work; repeated and stopped requests |
| `Answers` | what clients get for what they ask, in terms of the request's own values |
| `Lock` | any number of requests interleaving as atomic steps |
| `Driver`, `Storage`, `Admin`, `Broker` | the program itself: classes whose methods loop, branch and update fields as the source does, each proved to do what the tree or the request above says |
| `Text`, `Templates`, `SqlFiles`, `Decimal` | splitting and rendering of SQL, and the eight template files |

The methods of the classes end in an `ensures` of the form `Execute(tree, ...) == Outcome(...)` or
`Serve(...) == Outcome(...)`: the imperative code does, step by step and fault by fault, what the tree says, so
every theorem about `Execute` and `Serve` is one about those methods.

## What is surprising in the code

- If the record of an instance (or binding) cannot be deleted after its statements went through, the record
  stays and its group role (or user) is gone. The ownership invariant then fails, and no later attempt to
  remove it can succeed. That is the only way to lose the invariant. `Safety.ServeKeepsSafe` is an equivalence
  with a condition on the environment (`Safety.Severs`: of a removal's steps, the first that fails is the
  deletion of its record, which comes after two reads and the seven or six steps of SQL),
  `Runs.OneLostDeletionIsEnough` is a run from an empty store that shows it, and
  `Repeats.DeprovisionGetsStuck` and `Repeats.UnbindGetsStuck` show the dead end.
- A provision whose record cannot be written leaves the whole tenant standing without a record, and a bind its
  joined user (`Repeats.ProvisionUnderOneFault` and `Repeats.BindUnderOneFault` say for every step what its
  failure leads to).
- `state.go:246` says that rotation refuses to start on a store it cannot fully decrypt. The loop does not look
  ahead: records before an unreadable one are moved (`Rotation.RotationDoesNotLookAhead` is such a table).
  `Rotation.FailedRotationIsCleanOnlyIfFirst` says exactly when a failed rotation has changed nothing; no
  plaintext is lost either way.
- An update without a quota sets it to the plan's value, not to the stored one (`Params.ResolvedIsWithinPlan`).
  An update that stops after its GRANT leaves the admin in the tenant's group (`Quotas.UpdateSucceedsExactly`,
  exact for every pattern of failures); the next successful one ends that membership
  (`Quotas.SuccessfulUpdateAgrees`).
- Bound applications are not confined to their tenant's database: CREATE USER gives each user a schema in the
  admin database, whose CONNECT nothing takes away. `Activity.ApplicationsAreConfined` is the true extent, and
  dropping that schema with all it holds before the user is what lets every unbind succeed
  (`Repeats.WorkedBindingCanBeRemoved`).
- The rollback of a bind also drops a schema that had the user's name before (`Membership.BindCompensation` is
  exact about when the catalog is restored).
- Parameters are judged as float64, so a fraction next to a whole number can pass the resolver and not the
  schema (`Params.RoundingGoesBeyondSchema` says exactly which numbers do, `Params.FractionIsAccepted` is one);
  on values that are exact the two differ only by a name that is
  not text.

## Model

| member | source | states |
|---|---|---|
| Safety.ServeKeepsSafe | broker.go:61-291 | after any request with any steps failing, the ownership invariant holds if and only if the request was not a removal whose first failing step is the deletion of its record: group roles and users of stored records exist, are pairwise different, own what they should, belong to no other tenant, and stored databases admit nobody else |
| Safety.ServeAnswersOrActs | broker.go:61-291 | a request either changes nothing (and fails then only for an unreadable store) or runs its operation on the records as stored, an instance being deprovisioned only without bindings |
| Safety.ProvisionKeepsSafe | broker.go:90-100 | a provision stopped at any statement, rollback included, keeps every stored record's ownership, and stores its own record only for a tenant it has made |
| Safety.UpdateKeepsSafe | broker.go:137-150 | an update keeps the invariant and stores quotas within the plan |
| Safety.DeprovisionKeepsSafe | broker.go:176-184 | a deprovision keeps the invariant exactly when one of its seven steps of SQL fails or the deletion of its record does not; otherwise the record outlives its group role |
| Safety.BindKeepsSafe | broker.go:221-234 | a bind keeps the invariant; the new user belongs to its own tenant's group only |
| Safety.UnbindKeepsSafe | broker.go:256-264 | an unbind keeps the invariant exactly when one of its six steps of SQL fails or the deletion of its record does not; otherwise the record outlives its user |
| Safety.RemovalActs | broker.go:154-176 | a deprovision or unbind runs its SQL exactly when there is something to remove that can be read, nothing is bound to an instance, and both reads go through; otherwise it changes nothing |
| Safety.NoBindingsMeansUnbound | broker.go:167-174 | an empty list of bindings means that no binding of the instance is stored, since an unreadable one is an error |
| Isolation.OtherTenantsAreUntouched | broker.go:61-265 | for every stored instance that a request is not about: its record, its bindings, its database with all grants, contents and limits, its tablespace, its role, the role's members and its users are exactly as before, however the request ends |
| Isolation.TenantSqlKeepsView | gaussdb.go:60-84 | the SQL of one tenant's operation, at whatever statement it stops, shows in no other tenant's view |
| Isolation.UserSqlKeepsView | gaussdb.go:86-118 | the SQL of a bind or unbind shows in no other tenant's view |
| Sparing.TenantOperationSparesTenant | gaussdb.go:60-84 | wherever an operation on one tenant stops, every other tenant can still be removed as a whole and its role has joined nothing |
| Sparing.UserOperationSparesUser | gaussdb.go:86-118 | wherever an operation on one user stops, every other user can still be removed as a whole and is in its own group only |
| Sparing.LaterOperationKeepsClosed | templates/opengauss/admin-db/provision.sql:20-24 | an update or deprovision never opens the tenant database to anyone: as long as it exists only the group role and the admin may connect and only the group may create |
| Lifecycle.TenantFrame | gaussdb.go:60-84 | the catalog without the tenant is the same before and after the tenant's operation, and no reference dangles |
| Lifecycle.UserFrame | gaussdb.go:86-118 | the catalog without the user is the same before and after the user's operation |
| Lifecycle.ProvisionAdminAccepted | templates/opengauss/admin-db/provision.sql:4-27 | on free names every statement's precondition holds when it is reached, and the temporary membership is over at the end |
| Lifecycle.ProvisionTenantAccepted | templates/opengauss/tenant-db/provision.sql:5-11 | the tenant-side batch follows on acceptably and completes the database |
| Lifecycle.DeprovisionAccepted | templates/opengauss/admin-db/deprovision.sql:5-15 | from any halfway state that still has the group role, every dropping statement is accepted and nothing of the tenant remains |
| Lifecycle.UpdateAccepted | templates/opengauss/admin-db/update.sql:5-14 | with database and tablespace in place every statement of the quota batch is accepted |
| Lifecycle.CreationIsAllOrNothing | gaussdb.go:74-84 | whichever one statement of the two provision batches fails, the catalog is exactly as before, also when creating the role failed and the rollback stops at its own first statement |
| Lifecycle.CreationDone | gaussdb.go:74-84 | a creation succeeds exactly when none of its thirteen steps fails, and has then made the whole tenant |
| Lifecycle.StoppedDeprovisionKeepsToken | gaussdb.go:120-123 | a stopped deprovision still has the group role and can be repeated; a finished one left no trace |
| Lifecycle.DeprovisionDone | gaussdb.go:120-123 | a deprovision is done exactly when none of its seven steps fails |
| Lifecycle.ProvisionProbes | gaussdb.go:61-69 | nothing is run unless all three names are free; a taken one is reported as such |
| Lifecycle.ProbesAreExact | driver.go:49-63 | what a probe tells its caller: the creating batch can be accepted to its end if and only if none of the three names is listed |
| Lifecycle.OrderIsForced | templates/opengauss/admin-db/deprovision.sql:4-15 | why the order: without the temporary membership the server refuses to create, alter or drop for the group role, and it refuses the tablespace and the role while something of theirs stands |
| Membership.BindCompensation | gaussdb.go:96-104 | a failed bind is undone exactly if and only if the user was never created, or the tenant database exists and no schema had the user's name |
| Membership.UnbindCanBeRepeated | gaussdb.go:108-117 | an unbind removes every trace of the user exactly when none of its six steps fails; a stopped one can be repeated and ends the same |
| Membership.UnbindAccepted | templates/opengauss/admin-db/unbind.sql:6-8 | after what the user owns in its tenant database is dropped, its schema in the admin database with all it holds, and then the user, can be dropped in this order |
| Membership.UserGoesLast | templates/opengauss/admin-db/unbind.sql:4-8 | why the order: the server refuses to drop a user with default privileges, tables or schemas left in any database |
| Membership.BindAdminAccepted | templates/opengauss/admin-db/bind.sql:4-6 | on a free name user and membership are accepted |
| Membership.BindTenantAccepted | templates/opengauss/tenant-db/bind.sql:5-11 | both default privileges are accepted for the new user |
| Membership.JoiningDone | gaussdb.go:96-104 | a bind succeeds exactly when the tenant database exists and none of its six steps fails, and has then made user, membership and default privileges |
| State.RoleOutlivesBatch | driver.go:40-44 | a batch that drops a role last and stopped short still has it, with its password |
| State.AcceptedBatch | driver.go:30-45 | a batch of acceptable statements fails only where the environment makes a step fail, and otherwise ends in the batch's catalog |
| Sql.StatementKeepsConsistent | templates/opengauss/admin-db/deprovision.sql:5-15 | no accepted statement leaves a dangling reference in the catalog |
| Secrets.RequestsKeepCredentialsWorking | broker.go:187-265 | every stored binding's credentials name its own user and its instance's database, hold that user's present password and can be decrypted, after any request |
| Secrets.RequestsKeepRecords | broker.go:49-53 | no request changes an instance's name, compatibility, encoding, plan, service or database, or a kept binding's record or role |
| Secrets.WorkingCredentialsAreRead | state.go:282-296 | working credentials are what a read returns |
| Quotas.UndisturbedRequestsSucceed | gaussdb.go:60-129 | a request that nothing disturbs never fails, and afterwards the server enforces exactly the recorded quotas, encodings and compatibilities and the admin is in no tenant's group |
| Quotas.UpdateSucceedsExactly | templates/opengauss/admin-db/update.sql:5-14 | for every pattern of failures: an update is done exactly when database and tablespace exist and none of its five steps fails; otherwise it changed nothing if it was stopped before its GRANT, and left exactly the admin's membership behind if after it |
| Quotas.SuccessfulUpdateAgrees | broker.go:129-150 | a successful update makes connection limit and storage cap equal the recorded quotas and ends the membership, even after earlier failures |
| Quotas.SuccessfulProvisionIsIntact | broker.go:90-100 | a successful provision makes a database with exactly the recorded parameters |
| Quotas.ProvisionReply | broker.go:79-100 | undisturbed, a new instance is provisioned exactly when all three derived names are free, and is a conflict that changes nothing otherwise |
| Quotas.NamesakeIsRefused | gaussdb.go:61-69 | an instance whose derived database is a stored one's is refused, whatever fails, and changes nothing |
| Quotas.BindReply | broker.go:210-234 | undisturbed, a new binding gets its credentials exactly when its user name is free, and is a conflict that changes nothing otherwise |
| Answers.ProvisionMakesWhatIsAsked | broker.go:71-100 | an undisturbed provision on free names stores, and makes the server enforce, exactly the values of its parameters: connection limit, storage cap, encoding, compatibility and name, with the plan's quotas, PG, UTF8 and no name where they are silent, absent or `null`; the database is closed to everyone but its group and the admin |
| Answers.ProvisionIsJudged | broker.go:64-78 | a provision is invalid if and only if it is for another service, names no plan, carries no object or breaks a published rule; then nothing is read or changed |
| Answers.StoredInstanceIsCompared | broker.go:79-88 | a stored instance asked for again exists already if and only if plan and all values asked for are the recorded ones, and is a conflict otherwise |
| Answers.UpdateMakesWhatIsAsked | broker.go:121-150 | an undisturbed update stores, and makes the server enforce, exactly the two quotas of its parameters, the plan's where they are silent; nothing else in records or catalog changes but the end of a left-over admin membership |
| Answers.UpdateIsJudged | broker.go:108-136 | an update is invalid if and only if it is for another service or, keeping the plan, breaks a rule; a plan change if and only if it names another plan; both change nothing |
| Answers.BindMakesWhatIsAsked | broker.go:201-234 | an undisturbed bind creates, records and answers with the user of the name in its parameters, with the new password and the instance's database |
| Answers.BindIsJudged | broker.go:191-208 | a bind to a stored instance is invalid if and only if it is for another service or its name is not text; then nothing changes |
| Answers.StoredBindingIsCompared | broker.go:210-219 | a stored binding asked for again returns the stored credentials if and only if instance and name asked for are the recorded ones, and is a conflict otherwise |
| Answers.GetInstanceAnswersTheRecord | broker.go:268-279 | a reader gets the stored record, not found exactly when there is none, and a failure when the read fails |
| Answers.GetBindingAnswersTheCredentials | broker.go:282-291 | a reader gets a stored binding's parameters and the credentials that open its tenant: its database, its user and that user's present password |
| Answers.GivenCredentialsAreRead | broker.go:282-291 | after any run that does not unbind it, rotations included, a reader gets the very credentials the bind gave |
| Answers.UnreadableIsNeverMissing | state.go:203-206 | a stored binding that cannot be decrypted fails every request that asks for it; it is not bound over, not unbound, and its instance not removed |
| Answers.ForeignServiceIsRefused | broker.go:64-66 | a request for another service is invalid at once |
| Quotas.UpdateReply | broker.go:105-127 | undisturbed, an update is not found, a plan change, invalid, or changes the two quotas of one record and nothing else in the store |
| Activity.ApplicationsAreConfined | templates/opengauss/admin-db/unbind.sql:4-6 | a bound application can make and drop things in its own tenant's database, and inside the schema of its own name in the admin database, and nowhere else |
| Activity.SessionsAreConfined | templates/opengauss/admin-db/provision.sql:20-24 | a bound application is let into a stored instance's database if and only if it is its own tenant's; the admin is let into all of them |
| Activity.ApplicationsShareTheirTenant | templates/opengauss/tenant-db/provision.sql:7-11 | of all databases, a bound application can make new tables in `public`, and new schemas, in its own tenant's exactly |
| Activity.ApplicationsFillTheirSchema | templates/opengauss/admin-db/bind.sql:4 | in the admin database a bound application can make tables exactly in a schema of its user's name that its user owns, if everyone may connect there |
| Activity.WorkIsDone | templates/opengauss/tenant-db/provision.sql:7-11 | what a bound application is let make is there afterwards and is its user's |
| Activity.ApplicationsKeepSafe | templates/opengauss/tenant-db/unbind.sql:4-6 | whatever bound applications make and drop, in whatever databases, the ownership invariant stays, so what they own goes with their user |
| Runs.RunsStayGood | broker.go:61-265 | in every state of every run of requests, application work, restarts and rotations, the invariant holds and all credentials work, as long as the environment makes no removal fail first in the deletion of its record |
| Runs.StepIsSafeExactlyWhenTidy | broker.go:181-183 | the invariant breaks at an event exactly when it is a removal that fails first in the deletion of its record |
| Runs.OneLostDeletionIsEnough | broker.go:176-184 | the exception is real: a run of two requests from an empty store, with one failing step, ends with a stored instance whose group role does not exist |
| Runs.RunsFromEmptyStoresStayGood | main.go:27-60 | the same for every run from an empty store on any catalog the admin can work in; without outside faults no request of it fails |
| Runs.UndisturbedRunsNeverFail | broker.go:61-265 | a run without outside faults has no failed request, and catalog and records agree throughout |
| Runs.RestartKeepsGood | main.go:43-49 | a restart with a key rotation, finished or stopped, keeps all credentials readable under the keys in use |
| Runs.ConfiguredBrokerIsServed | config.go:105-113 | derived names, validated plans and the credential payload meet the assumptions of all of this |
| Repeats.ProvisionCanBeRepeated | broker.go:79-88 | after any run without updates or removal of that instance, rotations included, provisioning it again answers already-exists for the same plan and resolved parameters and a conflict for any others, after one read, changing nothing |
| Repeats.BindCanBeRepeated | broker.go:210-219 | after any run that does not unbind it, rotations included, binding again returns the very credentials first given for the same instance and name and a conflict for any others, changing nothing |
| Repeats.BindingOutlivesRun | state.go:37-45 | over any run a binding that is not removed keeps instance, user, password and parameters, and its instance keeps its identity |
| Repeats.InstanceOutlivesRun | state.go:26-35 | over any run a record that no event is about stays as it is |
| Repeats.DeprovisionConverges | broker.go:176-184 | after any number of deprovisions stopped at any steps, one undisturbed one succeeds and ends in the state of a single undisturbed one |
| Repeats.UnbindConverges | broker.go:256-264 | the same for unbinding |
| Repeats.DeprovisionGetsStuck | broker.go:178-183 | with the group role gone and the record left, no deprovision succeeds or changes anything |
| Repeats.UnbindGetsStuck | broker.go:258-263 | with the user gone and the record left, no unbind succeeds or changes anything |
| Repeats.ProvisionUnderOneFault | broker.go:79-100 | for a provision with at most one failing step, which step decides the outcome: nothing changed (read, probes, creation with its rollback), the whole tenant without a record (the two steps of writing it), or success |
| Repeats.BindUnderOneFault | broker.go:210-234 | the same for a bind: nothing changed before CREATE USER, then restored if and only if the tenant database exists and no schema had the user's name, the joined user without a record, or success |
| Repeats.DeprovisionReply | broker.go:154-184 | undisturbed, an instance is removed with every trace exactly when it is stored and nothing is bound to it |
| Repeats.UnbindReply | broker.go:238-264 | undisturbed, a binding is removed, nothing in the catalog refers to its user any more, and nothing else changes, exactly when it is stored for the named instance |
| Repeats.WorkedBindingCanBeRemoved | templates/opengauss/admin-db/unbind.sql:4-8 | after any run, with any work of any applications, one undisturbed unbind removes any stored binding and every reference to its user |
| Rotation.RotateIsPointwise | state.go:254-278 | the loop settles exactly the records before the first one it cannot get past, and counts those it moved |
| Rotation.RotationKeepsPlaintexts | state.go:248-279 | wherever it stops, no record, no other column and no plaintext readable under the two keys is lost |
| Rotation.RotationSucceeds | state.go:248-279 | it succeeds exactly when every record is readable and no needed write fails; then all are readable under the current key, and the count is right |
| Rotation.SecondRotationIsIdle | state.go:265-267 | after a success another rotation moves nothing |
| Rotation.RerunFinishes | state.go:248-279 | a stopped rotation is finished by running it again, each record being moved once in all |
| Rotation.FailedRotationIsCleanOnlyIfFirst | state.go:244-264 | a failed rotation left the table unchanged if and only if all records before the failing one were on the current key |
| Rotation.RotationDoesNotLookAhead | state.go:244-264 | a table that cannot be fully decrypted and is changed all the same |
| Lock.EveryScheduleIsSerialised | broker.go:28-32 | the invariant behind serialisability, for every schedule of atomic steps |
| Lock.InterleavingsAreSerial | broker.go:61-265 | whenever the lock is free, state and replies are those of running the mutating requests one by one in lock order; every unlocked reader's reply is that of a serial state between its start and its end |
| Lock.SafeWheneverTheLockIsFree | broker.go:28-32 | however requests interleave, the ownership invariant holds whenever the lock is free, as long as the environment made no removal fail first in the deletion of its record |
| Lock.EveryoneCanFinish | broker.go:28-32 | no deadlock: whatever state a schedule has led to, it can go on until every request has its reply and the lock is free |
| Lock.ReadersNeverWait | broker.go:268-291 | three steps of its own answer a read, whoever holds the lock |
| Lock.RequestsWriteOnce | broker.go:95-99 | every mutating request writes the store at most once |
| Lock.ReadersSeeTheStore | broker.go:268-291 | a reader's answer depends on one look at the store |
| Driver.Database.Exec | driver.go:30-46 | the loop over statements does what the batch's tree says, stopping at the first failure |
| Admin.Admin.EnsureAbsent | gaussdb.go:136-145 | free, taken or unreadable |
| Admin.Admin.Provision | gaussdb.go:60-84 | probes, both batches and the rollback of either, fault by fault as specified |
| Admin.Admin.Bind | gaussdb.go:86-105 | probe, both batches and the rollback of either |
| Admin.Admin.Unbind | gaussdb.go:108-117 | tenant side first, then the admin side |
| Admin.Admin.Deprovision | gaussdb.go:120-123 | the dropping batch |
| Admin.Admin.Update | gaussdb.go:126-129 | the quota batch |
| Broker.Broker.Provision | broker.go:61-101 | validation, record check, admin and record in the source's order give exactly the specified reply, state and number of steps, and keep the ownership invariant |
| Broker.Broker.Update | broker.go:105-151 | the same for updates, with only the two quotas overwritten |
| Broker.Broker.Deprovision | broker.go:154-185 | the same for deprovisioning |
| Broker.Broker.Bind | broker.go:188-235 | the same for binding |
| Broker.Broker.Unbind | broker.go:238-265 | the same for unbinding |
| Broker.Broker.GetInstance | broker.go:268-279 | reports the stored record or that there is none |
| Broker.Broker.GetBinding | broker.go:282-291 | reports the decrypted credentials and parameters or that there are none |
| Storage.Table.Create | state.go:132 | inserting under a taken key fails; otherwise the map is extended and keys stay unique |
| Storage.Table.Update | state.go:129-130 | updating a row updates the map |
| Storage.Table.Delete | state.go:152-154 | deleting a row removes the key |
| Storage.CreatedExtends | state.go:131-132 | inserting a new row keeps primary keys unique and extends the map the table stands for |
| Storage.DeletedRemoves | state.go:152-154 | deleting by key is removal from the map |
| Storage.Store.PutInstance | state.go:124-136 | reading first and then inserting or updating is one map update, or no change on failure |
| Storage.Store.GetInstance | state.go:139-149 | the record, its absence, or a read failure |
| Storage.Store.PutBinding | state.go:157-183 | the same with marshalled, encrypted and encoded credentials |
| Storage.Store.GetBinding | state.go:194-213 | the decrypted binding; one that cannot be decrypted is a failure |
| Storage.Store.BindingsForInstance | state.go:223-242 | the loop lists the decrypted rows of the instance or fails |
| Storage.ListedBindingsAreAll | state.go:220-242 | the list holds every binding of the instance exactly once, or there is none if any one cannot be decrypted |
| Storage.Store.RotateBindings | state.go:248-279 | the loop over the table does what the rotation of the map says, keys and their order unchanged |
| Vault.StoreThenPlain | encrypt.go:47-68 | what is encrypted is stored as the nonce followed by the sealed text, is decrypted to the same bytes, and not at all under another key |
| Vault.CredentialsRoundTrip | state.go:157-171 | credentials stored and read back are equal; another key reads nothing |
| Text.SplitSQL | templates.go:82-101 | the two loops compute the pipeline |
| Text.SplitIsAssembly | templates.go:82-101 | the pipeline assembles the words between semicolons of all lines that are not comments |
| Text.SplitOnIsExact | templates.go:82-92 | splitting takes out the separators and nothing else |
| Text.SplitIsNormal | templates.go:79-101 | every statement is non-empty, without semicolons, trimmed and single-spaced |
| Text.CommentsDoNotMatter | templates.go:77-89 | a comment line contributes nothing, whatever it contains |
| Text.CommentsBeginWithDashes | templates.go:84-86 | a trimmed line is a comment exactly when it begins with two dashes |
| Text.SplittingAgain | templates.go:92-99 | written out one to a line and split again, the statements come back if and only if none begins with two dashes |
| Templates.RenderThenSplit | templates.go:69-75 | splitting a rendered template is rendering the split template, for all values that are non-empty, have no white space or semicolon and no dash in front |
| Templates.StrayValuesBreakTemplates | templates.go:69-101 | a value with a semicolon or stray white space never comes out of a template whole |
| SqlFiles.FilesSendTheBatches | gaussdb.go:47-57 | for all ids, names, parameters and passwords the eight files send exactly the modelled statements, as text |
| SqlFiles.ProvisionAdminSends | templates/opengauss/admin-db/provision.sql:1-27 | this file sends the creating batch, whatever its comments |
| SqlFiles.ProvisionTenantSends | templates/opengauss/tenant-db/provision.sql:1-11 | this file sends the tenant-side batch |
| SqlFiles.DeprovisionAdminSends | templates/opengauss/admin-db/deprovision.sql:1-15 | this file sends the dropping batch |
| SqlFiles.UpdateAdminSends | templates/opengauss/admin-db/update.sql:1-14 | this file sends the quota batch |
| SqlFiles.BindAdminSends | templates/opengauss/admin-db/bind.sql:1-6 | this file sends user creation and membership |
| SqlFiles.BindTenantSends | templates/opengauss/tenant-db/bind.sql:1-11 | this file sends the default privileges |
| SqlFiles.UnbindTenantSends | templates/opengauss/tenant-db/unbind.sql:1-6 | this file sends the tenant-side removal |
| SqlFiles.UnbindAdminSends | templates/opengauss/admin-db/unbind.sql:1-8 | this file sends schema and user removal; its comment with a semicolon adds nothing |
| SqlFiles.EveryValueFits | gaussdb.go:31-44 | every value that can be prepared for a template can be spliced into it safely |
| SqlFiles.QuotasReadBack | gaussdb.go:31-44 | the two quotas are sent as numerals that read back as the recorded numbers, storage in gigabytes |
| Names.DerivedNamesAreIdentifiers | names.go:40-60 | all derived names match `[a-z][a-z0-9_]*` and have at most 63 characters |
| Names.CustomNameIsUsed | names.go:40-60 | a usable custom name names database, group role and tablespace, or the user, cut to 58 or 61 characters less the prefix |
| Names.UnusableNameIsHashed | names.go:43-46 | a name with no usable character, or none, gives the id's hash |
| Names.SameLowerSameNames | names.go:32-33 | names that lower-casing makes equal derive equal objects |
| Names.StrayCharacterDoesNotMatter | names.go:32-33 | a character outside the alphabet makes no difference to what is derived |
| Names.SharedNamesAreAllShared | names.go:40-49 | two instances that share one derived name share all three |
| Names.GroupRoleIsNeverUser | names.go:45-57 | no group role is ever a binding user's name |
| Names.SanitizeIdempotent | names.go:32-38 | sanitising twice is sanitising once, and stays within its budget and alphabet |
| Names.DerivedNamingIsSound | names.go:40-60 | derivation under an accepted prefix is a naming scheme the safety proofs can rely on |
| Names.QuotedReadsBack | names.go:62-68 | a quoted value is read back as that value and ends at its own closing quote |
| Names.QuotesReadBack | names.go:62-68 | a quoted identifier or literal opens with its quote, reads back as its value and ends there |
| Names.RandomPassword | names.go:72-99 | the retry loop returns the first attempt with all four character classes |
| Names.DrawPassword | names.go:74-81 | one attempt is the drawn characters of the alphabet |
| Names.HasAllClasses | names.go:82-97 | the flag loop decides whether all four classes occur |
| Names.QualifiesByLists | names.go:70-97 | a text over the password alphabet has all four classes exactly when it has a character of each of its four lists |
| Params.ResolveInstanceParams | params.go:47-77 | the field-by-field merge is the resolution |
| Params.ResolverDecidesSchema | params.go:47-118 | the resolver accepts exactly what the schema accepts once numbers are float64 and names set aside |
| Params.PublishedSchemaImpliesAcceptance | params.go:93-130 | every published-valid document is accepted |
| Params.BeyondSchemaOnlyByName | params.go:66-68 | on exact numbers the resolver goes beyond the schema only for names that are not text |
| Params.RoundingGoesBeyondSchema | params.go:85-87 | a number is accepted beyond the schema exactly when it is not, but rounds to, a whole number within the plan |
| Params.FractionIsAccepted | params.go:85-87 | a fraction, a little more than 1, that every plan accepts as 1 |
| Params.ResolvedIsWithinPlan | params.go:79-91 | resolved quotas lie between 1 and the plan's; an omitted one is the plan's |
| Params.ResolvedIsTheRequest | params.go:47-77 | resolved parameters are the requested ones as float64, and the plan's or the default where the request is silent |
| Params.BuildUpdatableSchema | params.go:122-130 | the loop copies exactly the two quota rules |
| Plans.ValidatePlans | plans.go:80-103 | the loop accepts exactly the files with well-formed plans and pairwise different ids and names |
| Plans.UuidsAreFiveGroups | plans.go:45 | an id is accepted as a UUID exactly when it is five lower-case hexadecimal groups of 8, 4, 4, 4 and 12 digits |
| Plans.FindPlan | broker.go:40-47 | the loop finds the first plan with the id |
| Plans.LookupFindsEachPlan | plans.go:80-103 | on a valid file every plan is found by its id |
| Uri.UriRoundTrip | broker.go:318-325 | a client following RFC 3986 gets user, password, host, port and database back out of the URI, and the TLS mode, which is absent exactly for `disable` |
| Uri.PayloadIsConsistent | broker.go:325-334 | the payload's fields are the values asked for, and its URI names the same user, password, host, port, database and TLS mode |
| Uri.GeneratedSecretsAreEscapable | names.go:51-99 | derived users and generated passwords meet the round trip's condition |

## Left out

- HTTP server, authentication, health probe, logging and signals: no state of their own. `LastOperation` and `LastBindingOperation` only report that a record exists.
- Environment and TOML reading: only the accepted prefix patterns and the rule that a previous key needs a current key appear, as preconditions.
- The database drivers and GORM: a statement or row operation is one atomic step that happens or fails without effect; a step that took effect but reported failure is not covered.
- SHA-256, AES-GCM, base64, JSON and float64 conversion: functions with the laws stated in the `Lawful` predicates. A failing random source is not modelled.
- openGauss beyond the stated preconditions and effects: locks, storage use, running sessions; `CASCADE` does not reach beyond a schema's own objects; what is granted to PUBLIC other than CONNECT, so that only grantees may fill a schema `public`.
- Bound applications make and drop tables and make schemas; what they grant to each other, `SET ROLE` to the group, and who may read what (default privileges, private objects) is not modelled.
- The text of comments in template files and template actions other than field references: the file theorems hold for any comments. Files from TEMPLATE_DIR are not shown.
- Names.RandomPassword: takes for granted that some attempt qualifies; that this has probability one is not shown.
- Changing plans, prefix or service id across restarts; moving a store from no key to a key.
- Lock.InterleavingsAreSerial: a read of several rows, such as the list of an instance's bindings, is one atomic step; keys do not rotate while requests run, as in the source.
- The catalog payload (`plans.go:106-156`) and user-facing messages: no property beyond copying.
- Uri.UriRoundTrip: user names, passwords and hosts with blanks or characters of more than one byte are outside it; neither can be generated, and the host is taken as plain.
