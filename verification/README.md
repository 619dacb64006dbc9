# Verification of the tenant sign-in service

A Dafny model of the service that decides who may enter which tenant: its revision-gated caches, its
tenant registry and the transactions on it, its sign-in policy language, its Microsoft signing-key cache,
and the parts of its dashboard that turn a policy or a URL into fields and back.
`dafny verify dfyconfig.toml` checks all of it.

## The parts

* **Freshness.** `TtlCache` and `RevisionGate` hold the two objects of `internal/cache`. `Freshness`
  interleaves their critical sections, and the database reads between them, with commits, other requests
  and a clock that never goes back; a step that is not enabled changes nothing. `FreshnessProofs` shows
  each step keeps one invariant, `FreshnessTheorems` draws the promises from it for every run, and
  `FreshnessWitness` gives a run that meets the propagation bound with nothing to spare, and
  `FreshnessProgress` shows that the caches do serve.
* **Registry.** `Registry` has the five tables and the SQL statements on them, `Operators` the operator's
  writes as lists of statements, `OperatorLaws` what they do to each other, `Enrollment` an operator
  write and an automatic enrollment each as one transition. `Store` runs the same writers as the program does, statement by statement with early exits.
  `Transactions` interleaves the statements of any number of them, and of other programs' writes, under
  the revision lock; `TransactionProofs` and `TransactionTheorems` show that every run is a sequence of
  the one-step transitions, and what follows; `ExactlyOnce` is about repeated and concurrent enrollments.
* **Admission.** `Admission` is the language of claim checks, `Resolver` the rest of `Resolve`, `SignIn`
  automatic enrollment as a sign-in drives it and why the sign-in that enrolls is then admitted.
  `Revocation` is what the freshness bound means for an identity.
* **Policies.** `Validation` is what a policy edit and a slug must satisfy, `PolicyStore` how an edit is
  written to and read from configuration rows, `PolicyEditor` the dashboard's structured editor.
* **Signing keys.** `SigningKeys` is the key cache and token verification, `KeyRefresh` any number of
  logins that share its refreshes, `KeyRefreshTheorems` what holds in every run.
* **Routes.** `Routes` reads and prints the dashboard's URLs, over `Percent` and `Queries`.

Some facts worth knowing before reading:

* In `Freshness`, fields such as `version`, `serial` and `floor` are history. No step's choice depends on
  them; the theorems are about them.
* A single-flight group is modelled by its contract: a name with a running call is joined, and a joiner
  gets that call's result.
* Each run theorem is about every finite list of steps. Steps say which request, load or transaction
  moves, so a list of steps is an interleaving.

## What does not hold

* `web/src/policy.ts` deletes the Entra `tid` rule when no tenant id is left in its field, and trims the
  ids in it. A stored `tid: []`, which validation accepts and which admits nobody, is therefore dropped
  when its policy is opened and saved untouched, and the tenant then admits any Entra organization:
  `PolicyEditor.EmptyTidListOpensTenant`. So it is with a `tid: null` that another program stored:
  `PolicyEditor.NullTidOpensTenant`. An accepted id with an outer blank loses it, and the claims it
  admitted are refused: `PolicyEditor.PaddedTidIsTrimmed`. `PolicyEditor.UntouchedTenantIds` says exactly
  which rules keep their verdict, and `PolicyEditor.UntouchedHostedDomains` does for `hd`, whose padded
  options only another program can store.
* Saving back a policy as it was read loses the providers that are stored as an empty map or nil, and
  nothing else: `PolicyStore.SaveAfterRead` and `PolicyStore.EmptyRulesAreLost`. They have no rules, so no
  verdict changes. The service itself never stores such a row, since it deletes instead; only another
  program can.
* The identity's default tenant can be none of its tenants: `Resolver.DefaultIsPermitted` says exactly
  when, and `Resolver.CaseMismatchEscapes` and `Resolver.UnexaminedDefaultEscapes` are the two ways.

## Model

| member | source | states |
|---|---|---|
| `TtlCache.TTLCache.OnePass` | internal/cache/ttl.go:57-110 | one pass: an unexpired entry ends the call with its value; otherwise, if no invalidation overlaps, the load's value or error does, and if one does, there is another pass; the load is stored between the invalidations before and after it |
| `TtlCache.TTLCache.Get` | internal/cache/ttl.go:55-112 | the retry loop: an unexpired entry at the start is returned at once; the first pass that hits or is not overlapped decides, with the entry, the load or the loader's error; it is cancelled only when every pass was overlapped; what it returns is what the cache then holds |
| `TtlCache.TTLCache.Store` | internal/cache/ttl.go:80-91 | a finished load is cached only in the generation it began in, expiring one TTL after its start; below capacity nothing else changes, and at capacity exactly one arbitrary entry makes room |
| `TtlCache.TTLCache.Invalidate` | internal/cache/ttl.go:115-120 | exactly the one entry goes, and every load in flight is retired |
| `TtlCache.TTLCache.Purge` | internal/cache/ttl.go:123-128 | every entry goes, and every load in flight is retired |
| `TtlCache.TTLCache.Len` | internal/cache/ttl.go:131-135 | the entry count, never above a positive capacity |
| `TtlCache.StoredWithinCapacity` | internal/cache/ttl.go:82-90 | storing never takes a cache over a positive capacity, whichever entry is evicted |
| `TtlCache.FlightKeyInjective` | internal/cache/ttl.go:68 | two misses share a load only if they agree on generation and key, although keys may hold colons |
| `RevisionGate.RevisionGate.Check` | internal/cache/revision.go:22-42 | a check succeeds within the window of the last success or by a probe; only a first, failed-before or different revision purges, and then all three caches; a failure closes the gate and keeps the recorded revision |
| `FreshnessProofs.EnterGateKeeps` | internal/cache/revision.go:23-27 | inside the window the recorded revision already covers all the caller is owed |
| `FreshnessProofs.ReconcileKeeps` | internal/cache/revision.go:36-41 | leaving the caches alone is right only because an equal revision means nothing was committed in between |
| `FreshnessProofs.PurgeNextKeeps` | internal/resolver/resolver.go:79 | purging one cache after another, with loads running, never leaves older data in a purged cache |
| `FreshnessProofs.StoreLoadKeeps` | internal/cache/ttl.go:80-91 | store-or-discard keeps every cached value at least as new as the last purge of its cache and the last invalidation of its key |
| `FreshnessProofs.JoinKeeps` | internal/cache/ttl.go:68 | a request that joins a load by name waits for one of its own cache, generation and key |
| `FreshnessProofs.ReceiveKeeps` | internal/cache/ttl.go:97-110 | a result accepted in the generation of its load is as fresh as what the cache may hold |
| `FreshnessProofs.NextKeeps` | internal/cache/ttl.go:55-128 | every step of every part keeps the invariant tying entries, loads, generations, the gate and the commits together |
| `FreshnessTheorems.PropagationBound` | docs/operations.md:5-23 | in every run, a value returned after the gate admitted a request is a row of one committed state that includes every commit made at least one interval before the request called Check |
| `FreshnessWitness.PropagationBoundIsExact` | internal/cache/revision.go:25-40 | no stronger bound holds: for any number of caches and a TTL no shorter than the interval, some run serves a value that a commit one tick younger than the interval has already replaced by another |
| `Revocation.DisabledUserIsRefused` | docs/operations.md:5-23 | a user disabled at least one interval before the check, and since, gets no identity for any tenant |
| `Revocation.RemovedMemberIsRefused` | docs/operations.md:5-23 | a membership gone that long is not among the identity's tenants, unless the sign-in enrolls the user anew |
| `Revocation.RemovedProviderIsRefused` | docs/operations.md:5-23 | a provider off a tenant's list that long does not reach the tenant |
| `Revocation.TightenedRulesRefuse` | docs/operations.md:5-23 | rules that have failed these claims that long shut out a member without overrides |
| `FreshnessTheorems.NoStaleReturn` | internal/cache/ttl.go:97-128 | a Get that begins after an Invalidate of its key or a purge finished returns only a value whose load started after it, joined or not, whatever else is invalidated |
| `FreshnessTheorems.CacheBounds` | internal/cache/ttl.go:56-111 | in every run: no cache outgrows its capacity, no hit is served at or after load start plus TTL, and a Get makes at most one pass more than the generations that passed since it began |
| `FreshnessTheorems.SingleFlight` | internal/cache/ttl.go:68 | at most one load runs for a cache, generation and key |
| `FreshnessProgress.HitReturns` | internal/cache/ttl.go:61-67 | a request past the gate that finds an unexpired entry returns it |
| `FreshnessProgress.MissReturns` | internal/cache/ttl.go:68-109 | one that finds none, and meets no other load and no invalidation, returns the newest row, cached for one TTL from the load's start |
| `FreshnessProgress.GateOpens` | internal/cache/revision.go:22-42 | within the window a check passes at once; after it, a probe that reads the same revision reopens the gate without purging |
| `FreshnessProgress.FailureForcesProbe` | internal/cache/revision.go:31-35 | a failed probe refuses its request and leaves no window, so the next check probes again, however soon |
| `Registry.ExecKeepsSchema` | migrations/001_auth.sql:4-41 | unique slugs and emails, and every foreign key, survive every statement that succeeds |
| `Registry.KeysIgnorePadding` | migrations/001_auth.sql:39-41 | emails and slugs that differ only in outer blanks and letter case have the same key |
| `Registry.UpdateTenantKeepsSchema` | internal/admin/store.go:295 | an update keeps slugs unique because it finds at most one tenant and never changes its slug |
| `Operators.CreateTenantKeepsDefaults` | internal/admin/store.go:292-303 | creating a tenant, even a disabled one, leaves every stored default an enabled membership |
| `Operators.EditTenantKeepsDefaults` | internal/admin/store.go:272-304 | disabling a tenant clears it as a default, so no default names a disabled tenant |
| `Operators.EditUserKeepsDefaults` | internal/admin/store.go:326-335 | a new default is accepted only as an enabled membership of that user |
| `Operators.RemoveMembershipKeepsDefaults` | internal/admin/store.go:344-355 | removing a membership takes the default it backed with it |
| `Operators.OperationKeepsDefaults` | internal/admin/store.go:272-358 | every operator write that succeeds leaves every stored default an enabled membership of its user |
| `Operators.PolicyStmtsTouchConfigOnly` | internal/admin/store.go:238-271 | a policy edit changes no tenant, user, membership or domain |
| `OperatorLaws.AddThenRemoveMembership` | internal/admin/store.go:337-358 | adding a membership and removing it again restores the whole registry, the user's default included |
| `OperatorLaws.AddThenRemoveDomain` | internal/admin/server.go:331-368 | adding a domain and removing it again restores the registry |
| `OperatorLaws.EditTenantEffect` | internal/admin/store.go:272-304 | a tenant edit sets the named fields of that tenant, merges metadata with null as removal, keeps id and slug, and of everything else only clears the defaults it disables |
| `OperatorLaws.EditUserEffect` | internal/admin/store.go:326-335 | a user edit changes that user only; an omitted default stays, an empty one clears, and a named one ends up an enabled membership |
| `OperatorLaws.EditUserSucceeds` | internal/admin/store.go:326-335 | exactly when a user edit succeeds: the user exists, a named default is an enabled membership, and no other user has the email |
| `OperatorLaws.CreateTenantEffect` | internal/admin/store.go:292-303 | a tenant is created exactly when id and normalized slug are new, with the fields given and the metadata not given as null; nothing else changes |
| `OperatorLaws.CreateUserEffect` | internal/admin/store.go:319-325 | a user is created exactly when no default is named and id and normalized email are new, with the fields given and no default |
| `OperatorLaws.AddMembershipEffect` | internal/admin/store.go:337-357 | exactly when a membership is added, and that it starts without overrides |
| `OperatorLaws.RemoveMembershipEffect` | internal/admin/store.go:337-355 | exactly when one is removed, with the default that named its tenant and nothing else |
| `OperatorLaws.EditOverridesEffect` | internal/admin/membership_auth.go:47-64 | the overrides of exactly one existing membership become those given |
| `OperatorLaws.DomainEffects` | internal/admin/server.go:331-367 | a domain is added exactly to an existing tenant while no tenant has it, and removed exactly from the tenant that has it |
| `OperatorLaws.EditUserTwice` | internal/admin/store.go:326-335 | a repeated user edit succeeds and changes nothing |
| `Store.Transaction.SaveTenant` | internal/admin/store.go:272-304 | ends with exactly the tables, revision and error that the tenant edit's statements give in order |
| `Store.Transaction.SaveUser` | internal/admin/store.go:318-336 | a new user has no default; an edit checks existence, then the default, then writes, and stops at the first error |
| `Store.Transaction.ValidDefault` | internal/admin/store.go:305-317 | clearing is always allowed; otherwise only an enabled membership is |
| `Store.Transaction.ChangeMembership` | internal/admin/store.go:337-358 | adds or removes exactly one membership after both sides are known to exist, and clears the default of a removed one |
| `Store.Transaction.SaveMembershipAuth` | internal/admin/membership_auth.go:47-64 | replaces the overrides of exactly one membership, which must exist |
| `Store.Transaction.ChangeDomain` | internal/admin/server.go:331-368 | a domain is added to an existing tenant or removed from the tenant it names, and no other way |
| `Store.Transaction.SavePolicy` | internal/admin/store.go:238-271 | the policy's puts and deletes all succeed once the tenant exists, each costing one revision |
| `Store.Database.Write` | internal/admin/store.go:64-90 | a write commits all of its plan and one audit row with its operator, action, path, fields and the new revision, or, on a stale revision or any error, changes nothing at all |
| `Store.Database.AutoAddUser` | internal/mtdb/enrollment.go:18-91 | denied unless, in the rows at that moment, the domain maps to the enabled tenant, the flag row holds a packed true, every user with the email is enabled and the policy rows authorize, and never otherwise; told enrolled exactly when a user with the email has the membership; else it is the one enrollment transition, which a fresh id and a normalized email always get through |
| `TransactionProofs.LockKeeps` | internal/admin/store.go:71-76 | taking the revision row starts a transaction on the committed state of that moment, or ends it on a stale revision |
| `TransactionProofs.OperatorKeeps` | internal/admin/store.go:77-85 | whatever the others do, a lock holder's statements are a prefix of its plan run on the state it locked |
| `TransactionProofs.EnrollReadKeeps` | internal/mtdb/enrollment.go:28-64 | the reads of an enrollment, each at its own moment, are all of the one state it locked |
| `TransactionProofs.EnrollWriteKeeps` | internal/mtdb/enrollment.go:65-85 | its inserts and audit row are those of the one enrollment transition from that state |
| `TransactionProofs.PlatformKeeps` | migrations/001_auth.sql:60-81 | other programs' statements take the same lock before they change a row |
| `TransactionProofs.NextKeeps` | internal/admin/store.go:64-90 | every step keeps the lock invariant: one holder, working on the committed state it locked |
| `TransactionTheorems.CommitsAreAtomic` | internal/admin/store.go:61-90 | only a commit changes the registry, and it is one atomic write, enrollment or platform change from exactly the committed state |
| `TransactionTheorems.LockFreezesRegistry` | internal/mtdb/enrollment.go:14-25 | from taking the lock to the end of the transaction the committed registry stands still, and each read sees it plus the transaction's own statements |
| `TransactionTheorems.SchemaAlwaysOk` | migrations/001_auth.sql:4-41 | unique indexes and foreign keys hold of every committed registry of every run |
| `TransactionTheorems.RevisionDeterminesData` | migrations/001_auth.sql:60-81 | in every run the committed revision never goes back, and equal revisions mean equal data in all five tables |
| `TransactionTheorems.NoLostUpdate` | internal/admin/store.go:41-90 | a write that expects the revision an operator read commits only on the data that was read (section 13.1.1 of RFC 9110) |
| `TransactionTheorems.StaleWriteNeverCommits` | internal/admin/store.go:71-76 | a write whose expected revision is already behind commits nothing in any run |
| `TransactionTheorems.EnrollmentFrame` | internal/mtdb/enrollment.go:25-85 | every enrollment of a run committed where the domain row maps to that enabled tenant, the flag row holds a packed true and every user with the email is enabled; it adds one membership with no overrides and at most one user, touches no other row of any table, and its audit row names the operator system:auto-add, the membership, the added fields and the revision it commits |
| `Enrollment.EligibleMeans` | internal/mtdb/enrollment.go:28-59 | eligibility in terms of the rows: an absent, null or other flag value does not enable enrollment, and an absent policy row reads as nil |
| `Enrollment.EnrolledMeans` | internal/mtdb/enrollment.go:60-64 | being enrolled in terms of the rows |
| `TransactionTheorems.EnrollmentRowsAreSound` | internal/mtdb/enrollment.go:83 | in every run, a membership row enters the audit trail only with such an enrollment |
| `ExactlyOnce.HeldRefuses` | internal/mtdb/enrollment.go:60-64 | while some user with the email has an enabled membership there, no attempt of that email and slug, with whatever claims and domain, is an enrollment |
| `ExactlyOnce.EnrollOnce` | internal/mtdb/enrollment.go:60-64 | an attempt of the same email and slug right after an enrollment is none |
| `ExactlyOnce.TransitionSpares` | internal/mtdb/enrollment.go:60-85 | no enrollment of any email, and no operator write that does not disable the tenant, change the user's email or remove the membership, ends an enrollment or adds a row for it |
| `ExactlyOnce.LaterAttemptsChangeNothing` | internal/mtdb/enrollment.go:60-64 | in every run of such transactions from a state in which the email is enrolled: it keeps one user and its membership, and the commit of every attempt leaves tables, revision and audit trail as they are |
| `ExactlyOnce.EnrolledExactlyOnce` | internal/mtdb/enrollment.go:60-90 | after the commit that enrolls an email, in every such run, there is one user with it, one membership and exactly one audit row more than before, whatever is attempted concurrently or again |
| `TransactionTheorems.EnrolledAtMostOnce` | internal/mtdb/enrollment.go:60-85 | in every run of concurrent sign-ins, the enrollment rows of a membership are at most its removals plus one, and no more than its removals if it existed before |
| `TransactionTheorems.AtomicKeepsDefaults` | internal/mtdb/enrollment.go:66-79 | an enrollment's new default is the tenant it enrolls into, so defaults stay enabled memberships |
| `TransactionTheorems.DefaultsAlwaysOk` | internal/admin/store.go:300-358 | in every run of operator writes and enrollments, every stored default names an enabled tenant its user is a member of |
| `Admission.EvaluateChecks` | internal/resolver/resolver.go:398-429 | in every map order the verdict is that every claim is present and, against a list, a nonempty text in it, against a text, that text; any other rule fails |
| `Admission.EvaluateTenantChecks` | internal/resolver/resolver.go:361-389 | in every map order: a Google account whose hd is missing or empty passes a tenant with an hd rule exactly as a member, with the blank option in that rule and every other rule holding; everyone else exactly when every rule holds |
| `Admission.BlankOptionRelaxesHdOnly` | internal/resolver/resolver.go:358-386 | whoever passes satisfies every other rule in full, and fails hd only as an unhosted registered Google member under an explicit blank option |
| `Admission.MemberAdmitsMore` | internal/resolver/resolver.go:375-377 | registration only widens what is admitted |
| `Admission.MergeOverrides` | internal/resolver/resolver.go:293-306 | the merged rules are the tenant's, with each override in place of its claim's rule |
| `Admission.OverridesReplaceOnlyTheirClaims` | internal/resolver/resolver.go:290-306 | a member must satisfy every override and every tenant rule that is not overridden, and nothing else |
| `Admission.AutoAddAllowed` | internal/resolver/enrollment.go:78-126 | allowed exactly when the provider list is nil, empty or all nonempty names with this one; Google's email_verified is true, or an Entra tid is an accepted organization; the organization claim is a nonempty text that the policy has a rule for; and every rule holds without the blank option |
| `Admission.EnrollmentNamesTheOrganization` | internal/resolver/enrollment.go:75-126 | whoever enrolls carries an organization claim that the policy's own rule names |
| `Admission.EnrollmentImpliesMembership` | internal/resolver/enrollment.go:78-126 | whoever may enroll is admitted as a member by the same provider list and rules |
| `Resolver.SplitKeyInverts` | internal/resolver/resolver.go:72-78 | the config loader reads back the slug and key it was asked for exactly when the slug has no colon |
| `Resolver.ProviderAllowed` | internal/resolver/resolver.go:340-356 | only a nonempty list gates providers, and then exactly to its members; a lookup error is reported as such |
| `Resolver.TenantPasses` | internal/resolver/resolver.go:266-318 | the checks of one tenant, in order with their early exits, come to the predicate the next row spells out |
| `Resolver.PassesMeans` | internal/resolver/resolver.go:266-318 | a tenant is kept exactly when both settings can be read, a nonempty provider list has the provider, and its rules, with the member's overrides in place, hold of the claims for a registered member; an empty override entry refuses |
| `Resolver.ApplyAuthChecks` | internal/resolver/resolver.go:253-332 | keeps the passing tenants in order, drops only failing ones, and forgets a default that was not kept |
| `Resolver.KeptExactly` | internal/resolver/resolver.go:266-318 | what is kept is an in-order part of the candidates, holding exactly those that pass |
| `Resolver.ErrorsOnlyShrink` | internal/resolver/resolver.go:271-288 | failed configuration lookups can only lose tenants |
| `Resolver.ArraysToTenants` | internal/resolver/resolver.go:439-456 | one tenant per slug, in order, with blanks where the other arrays are shorter |
| `Resolver.FinishedIdentity` | internal/resolver/resolver.go:184-247 | an identity names exactly the user's passing tenants, the requested one among them up to letter case, the row's name or else the claimed one, and as default the requested tenant, else the stored one if it is still there or no provider examines it, else the first |
| `Resolver.FinishedRefusal` | internal/resolver/resolver.go:184-213 | 401 exactly when no tenant of the user passes, 403 exactly when some do but not the requested one, and an identity otherwise |
| `Resolver.RequestedIgnoresPadding` | internal/resolver/resolver.go:458-466 | outer blanks and letter case of the tenant parameter do not matter |
| `Resolver.EmailFromClaims` | internal/resolver/resolver.go:513-520 | the first of email, upn and preferred_username that is a nonempty text, else the fallback |
| `Resolver.FinishResolve` | internal/resolver/resolver.go:180-247 | once the row is known, ends in the refusal or identity that the two rows above spell out |
| `Resolver.Resolve` | internal/resolver/resolver.go:133-248 | only oauth, azure_entra and session are user sign-ins; each ends, stage by stage, in its failure, its refusal with its code, or as FinishResolve has it for the row found or, when the user or the requested membership is missing, the row autoAdd answers |
| `Resolver.DefaultIsPermitted` | internal/resolver/resolver.go:180-225 | exactly when the identity's default is one of its tenants, in terms of the user's row and the request: the requested slug is spelled as the row has it; or, with none requested, there is a provider, or no stored default, or a stored default among the row's tenants |
| `Resolver.CaseMismatchEscapes` | internal/resolver/resolver.go:204-218 | a stored slug "A" and a request for "a": the identity's default is none of its tenants |
| `Resolver.UnexaminedDefaultEscapes` | internal/resolver/resolver.go:260-264 | no provider and a stored default outside the enabled memberships: the same |
| `Resolver.NormalizedDefaultIsPermitted` | internal/resolver/resolver.go:204-225 | with lower-case slugs in the row and a provider it always is |
| `SignIn.AutoAdd` | internal/resolver/enrollment.go:16-73 | the transaction runs exactly when provider, address, domain row, requested tenant, membership, flag and policy, as cached, all allow it, and with exactly this request; otherwise it is an error exactly when a lookup that still mattered failed; every attempt drops the user's cached row and nothing else does |
| `SignIn.DisplayNameIsValid` | internal/resolver/enrollment.go:53-64 | the name given to a new user is one the operator's own validation accepts |
| `SignIn.DisplayNameKeeps` | internal/resolver/enrollment.go:53-64 | a clean claimed name is taken as it is, and one with nothing in it gives way to the address |
| `SignIn.EmailDomainIs` | internal/resolver/resolver.go:522-528 | the domain is what follows the last at sign, in lower case, and nothing without one |
| `SignIn.EnrolledTenantPasses` | internal/mtdb/enrollment.go:57-79 | after an attempt that enrolled the user or found the user enrolled, the tenant admits its member exactly when the member's own overrides do, and a new member has none |
| `SignIn.EnrollmentImpliesAdmission` | internal/resolver/resolver.go:171-225 | of Resolve's outcome, with the policy unchanged: the sign-in that enrolled, and one that lost the race and was told so, ends in an identity for that tenant unless the member's own overrides refuse; it is the default when it was requested or the user is new |
| `SignIn.UnhostedMemberIsAdmitted` | internal/resolver/resolver.go:312-386 | a registered Google member without a hosted domain gets an identity with a tenant whose hd rule has the blank option and whose other rules hold |
| `SigningKeys.ReadDocument` | internal/loginproviders/microsoft_keys.go:115-139 | a key document is taken whole or not at all: 1 to 512 keys, all parsable, and at least one RSA key of 2048 bits or more with id and issuer, for signing with RS256 |
| `SigningKeys.UsableKeysByOne` | internal/loginproviders/microsoft_keys.go:122-135 | the filter keeps exactly such keys, each judged alone, in the document's order |
| `SigningKeys.MicrosoftKeys.BeginRefresh` | internal/loginproviders/microsoft_keys.go:90-106 | keys under 24 hours old are served unless a forced caller comes a minute or more after the last attempt; within that minute there is no fetch; each fetch records its time and nothing else changes |
| `SigningKeys.MicrosoftKeys.FinishRefresh` | internal/loginproviders/microsoft_keys.go:109-144 | only an acceptable document changes the keys; every failure leaves keys and success time |
| `SigningKeys.MicrosoftKeys.Load` | internal/loginproviders/microsoft_keys.go:83-157 | the answer and the new cache of one load alone, in every case |
| `SigningKeys.Verify` | internal/loginproviders/microsoft_keys.go:71-81 | a payload comes back exactly when some listed key has the token's id, the template or the caller's issuer, and verifies it; and it is the first such key's |
| `SigningKeys.VerifySignature` | internal/loginproviders/microsoft_keys.go:38-69 | no load without exactly one signature with a key id, two loads exactly when the first list has no key of that id, and a payload exactly when the last list loaded has a verifying key of that id and a permitted issuer (section 4.1.4 of RFC 7515) |
| `KeyRefreshTheorems.LoadIsSafe` | internal/loginproviders/microsoft_keys.go:83-157 | in every run, a load that succeeds returns at least one key, all usable and from one document fetched whole, stored under 24 hours before the cache was looked at |
| `KeyRefreshTheorems.FirstLoadReturns` | internal/loginproviders/microsoft_keys.go:83-157 | a login that comes to an empty cache alone fetches, and an acceptable document gives it every usable key |
| `KeyRefreshTheorems.RefreshRateBound` | internal/loginproviders/microsoft_keys.go:97-105 | in every run, whatever the mix of forced and unforced callers and failures, fetches start a minute apart, so a window of length T has at most T/minute + 1 |
| `KeyRefreshTheorems.FetchRateBound` | internal/loginproviders/microsoft_keys.go:97-112 | the same bound on the steps of the run that start a fetch, every one of which is recorded |
| `KeyRefreshTheorems.OneFetchAtATime` | internal/loginproviders/microsoft_keys.go:90 | at most one fetch runs at a time |
| `KeyRefreshTheorems.FailuresKeepKeys` | internal/loginproviders/microsoft_keys.go:115-139 | no step but the end of a successful fetch changes the cached keys |
| `KeyRefreshTheorems.AcceptedKeyIsStrong` | internal/loginproviders/microsoft_keys.go:71-134 | a key that verifies a token is an RSA key of 2048 bits or more with the token's id, published under a permitted issuer |
| `Validation.ValidSlugIsCanonical` | internal/admin/validation.go:32-38 | an accepted slug is left alone by validation, the unique index and the sign-in's tenant parameter, and splits back out of every config cache key |
| `Validation.WordsAreNames` | internal/admin/validation.go:17-31 | lower-case words are provider names up to 64, claim names up to 128, labels up to 63 and text up to its limit |
| `Validation.LastCharacter` | internal/admin/validation.go:17-31 | which other characters may end a provider name, a claim name, a label and a text |
| `Validation.FirstCharacter` | internal/admin/validation.go:17-19 | which may begin a name |
| `Validation.MiddleCharacter` | internal/admin/validation.go:17-31 | which may stand inside a label, and that blanks alone are no text |
| `Validation.CheckHosted` | internal/admin/validation.go:173-207 | a hosted domain, or each of at most 128, is the blank option or one the normalizer accepts, and becomes what it answers; anything else is refused |
| `Validation.CheckClaim` | internal/admin/validation.go:208-225 | a claim rule is a text, or at most 128 of them, and nothing else |
| `Validation.Validate` | internal/admin/validation.go:148-229 | accepts exactly the allowed shapes, in any map order, and rewrites nothing but hosted domains |
| `Validation.NormalizedOnce` | internal/admin/validation.go:148-229 | what was accepted and normalized is accepted again unchanged |
| `Validation.AcceptedRulesNeedClaims` | internal/admin/validation.go:168-222 | under accepted rules nobody passes with an absent, empty or non-text claim, except unhosted registered Google members under the blank option |
| `PolicyStore.PolicyWrites` | internal/admin/store.go:238-271 | the statements say of each edited key what the edit says, and miss none |
| `PolicyStore.CarriedOutIsSaved` | internal/admin/store.go:259-269 | the outcome does not depend on the map order the statements follow |
| `PolicyStore.EditPolicySaves` | internal/admin/store.go:238-271 | through the transaction machinery, an edit needs its tenant and then changes exactly the named cells of that tenant in the whole registry |
| `PolicyStore.SavedCells` | internal/admin/store.go:250-269 | what an edit leaves in the cells it names: a packed flag, the packed list of names, packed rules, and no cell where the rules are empty |
| `PolicyStore.ReadPolicy` | internal/admin/store.go:194-237 | in any row order: the flag is set exactly by a packed true, the rules are those of every packed checks row, and, where every value decodes, it fails exactly on a provider list that is neither nil nor all texts; the source also fails on bytes that do not decode |
| `PolicyStore.ReadAfterSave` | internal/admin/store.go:194-271 | reading after saving gives the old policy overlaid with the edit; an unreadable stored list stays an error exactly when the edit omits the list |
| `PolicyStore.SavesCompose` | internal/admin/store.go:238-271 | two edits in a row are one edit, the later winning part by part |
| `PolicyStore.SaveIsIdempotent` | internal/admin/store.go:238-271 | saving twice equals saving once |
| `PolicyStore.SaveAfterRead` | internal/admin/store.go:194-271 | saving what was read, null included, changes nothing that is read, if and only if no stored provider value is an empty map or nil |
| `PolicyStore.EmptyRulesAreLost` | internal/admin/store.go:259-269 | of the providers read, exactly those stored as an empty map or nil are lost, and the others keep their value |
| `PolicyStore.RulelessRowsAreRead` | internal/admin/store.go:231-234 | the rows that show it: a packed empty map and a packed nil both read as their provider's value |
| `PolicyStore.SaveFrame` | internal/admin/store.go:250-269 | other tenants, other keys and unnamed providers keep their cells and their reading |
| `PolicyStore.ShownIsEnforced` | internal/admin/store.go:215-234 | a policy that can be read says exactly what the enrollment transaction and the resolver decide from the same rows |
| `PolicyEditor.OverlayClaims` | web/src/policy.ts:27-60 | the two updates in place yield the overlay whose frame, stability and verdicts the rows below state |
| `PolicyEditor.OverlayFrame` | web/src/policy.ts:33-57 | only the tid rule of azure and the hd rule of google can change, and no provider is lost |
| `PolicyEditor.OverlaySets` | web/src/policy.ts:43-57 | typed fields become a rule with exactly the ids listed, or none; and a rule with exactly the domains listed and the blank option if allowed, or none when unrestricted |
| `PolicyEditor.OverlayIsStable` | web/src/policy.ts:10-59 | whatever was typed, opening the saved policy again and saving it untouched changes nothing |
| `PolicyEditor.UntouchedHostedDomains` | web/src/policy.ts:10-23 | for every hd rule the form can read: untouched, it keeps the verdict for every claims map exactly when it is unset, every option is on one line without outer blanks, or the other rules cannot be satisfied; unset, [] and [""] stay apart |
| `PolicyEditor.EditedRule` | web/src/policy.ts:33-42 | editing one rule of a provider keeps its verdict for every claims map exactly when that rule admits what it did or the others can never hold |
| `PolicyEditor.UntouchedTenantIds` | web/src/policy.ts:43-47 | for every tid rule the form can read, null included: untouched, it keeps the verdict for every claims map exactly when it is unset, names a tenant with every id on one line without outer blanks, or the other rules cannot be satisfied |
| `PolicyEditor.EmptyTidListOpensTenant` | web/src/TenantEditor.tsx:263-266 | a failing policy: tid [] admits nobody, and after an untouched save everybody |
| `PolicyEditor.NullTidOpensTenant` | web/src/TenantEditor.tsx:263-266 | another: a stored tid of null, which also shows an empty field |
| `PolicyEditor.EmptyTidListIsAccepted` | internal/admin/validation.go:208-222 | such a policy passes validation |
| `PolicyEditor.PaddedTidIsTrimmed` | web/src/policy.ts:43-47 | an accepted id with an outer blank is saved without it, and the claims it admitted are refused |
| `PolicyEditor.UntouchedSaveKeepsVerdicts` | web/src/TenantEditor.tsx:263-304 | from stored rows, nil ones included, through the form and back: flag and providers stay, and each provider's rules keep their verdict, for azure and google under exactly those conditions |
| `Percent.DecodeEncodePath` | web/src/routes.ts:79 | a path segment decodes to what was encoded, and an encoded one holds no separator |
| `Percent.EncodedByOne` | web/src/routes.ts:79 | which characters stand for themselves in a path and in a query, and how every other byte is written |
| `Percent.MalformedEscape` | web/src/routes.ts:34-38 | a percent sign without two hex digits fails in a path, and stands for itself in a query |
| `Queries.ParsePrintQuery` | web/src/routes.ts:68-78 | printed parameters parse back to the same names and values, whatever they hold |
| `Queries.GetIsFirst` | web/src/routes.ts:45-66 | the first value of a name wins |
| `Routes.ReadRoute` | web/src/routes.ts:24-67 | filling the fields step by step, with each early exit, yields the route that printing inverts, or not found |
| `Routes.PathSelects` | web/src/routes.ts:26-44 | exactly when a path selects something, and the area and selection it selects |
| `Routes.FieldsRead` | web/src/routes.ts:45-66 | what each field is read from, with trimming, lower case, the two flags and the limit of a million |
| `Routes.RouteURL` | web/src/routes.ts:68-80 | setting each parameter in turn yields the path and query that read back as the route |
| `Routes.UrlParts` | web/src/routes.ts:78-79 | the area, the encoded selection if there is one, and the query if there are parameters and the area is not status |
| `Routes.GetOfRoute` | web/src/routes.ts:69-77 | under which name each field is printed, and when |
| `Routes.UrlSplits` | web/src/routes.ts:79 | the printed path holds no question mark, so the URL splits back into that path and that query |
| `Routes.ReadPrinted` | web/src/routes.ts:24-80 | every normal route survives its URL |
| `Routes.ReadPrintRead` | web/src/routes.ts:24-80 | for every path and query that select a route, reading, printing and reading again gives the same route |
| `Routes.ReadableIsNormal` | web/src/routes.ts:24-67 | the routes that some URL selects are exactly the normal ones |

## Left out

- HTTP servers, cookies, OAuth redirects, sessions, rendering and the React components around the editor and the router.
- SQL text, drivers and isolation below the statement: tables are maps, and a query is a function of what its transaction sees. An external writer's first statement, whose snapshot may be older than its lock, can be any statement here, so nothing depends on what it read.
- Integer widths: the cache generation and the revision grow without bound here; wrapping a 64-bit counter is not modelled.
- MessagePack, JOSE, JSON, UUID, mail-address and internationalized domain parsing: their outcomes are parameters. A configuration value whose bytes do not decode is a failed lookup in `Resolver`, and is not modelled in `PolicyStore` and `Store`.
- Case folding and trimming beyond ASCII, in slugs, emails, claims and editor fields; texts in `Routes` are UTF-8 code units, whose validity is not checked.
- Dot segments, which a browser resolves before the router sees a path.
- `tenant_domains` rows are keyed by their normalized name, so a normalized name has at most one row.
- `TTLCache.fetch` and `TTLCache.put` are no part of `Get` and are not modelled.
- TtlCache.TTLCache.Get: one caller's loop, with the other goroutines' invalidations scripted; joining and interleaving are in `Freshness`.
- RevisionGate.RevisionGate.Check: one uninterrupted check; its steps interleave in `Freshness`.
- Store.Database.Write: one transaction at a time; the interleaving, on values rather than updated rows, is in `Transactions`.
- Store.Database.AutoAddUser: the row read back after the audit insert, and errors of the connection, which roll back like any other error.
- SignIn.AutoAdd: the transaction's own answer and the mail parser's are parameters; cutting a name inside a multi-byte character is not modelled.
- Admission.MergeOverrides: maps are values here, so that the cached tenant rules are not aliased is not something to prove.
- FreshnessTheorems.PropagationBound: wall-clock jumps are not modelled; the clock never goes back.
- PolicyEditor.UntouchedTenantIds: a rule that is neither a string, a list of strings nor null, which the form's own types exclude, is not modelled; for hd the form refuses it.
- PolicyStore.SaveAfterRead: a stored provider value that is neither a map nor nil, which the API does not take back: its request decoder refuses the edit.
- PolicyStore.ReadPolicy: bytes that do not decode, which make the source fail.
- ExactlyOnce.LaterAttemptsChangeNothing: other programs' writes, which may undo an enrollment in any way; `TransactionTheorems.EnrolledAtMostOnce` bounds the rows with them too.
- The user, tenant and domain listings, and the input checks of tenants, users and emails, which would add only easy members.
