# Tiller: protocols, migrations and transformations, verified

This project models the parts of the Tiller router where correctness depends on order:
concurrent credential changes, caches in front of a database, boots that may die between
two statements, trackers and pollers behind a mutex, a streaming parser, request
normalizers that must be safe to apply twice, and the writes of a key rotation. Each
component is a state machine or a function written as the Go code computes it; classes and
loops stand where the code updates state in place, and each of their methods is proved
equal to the step or the function the theorems are about. Every theorem speaks of all
inputs, all runs or all interleavings.

`dafny verify dfyconfig.toml` checks everything.

## How the models are cut

* **Credentials** (`Credentials*.dfy`): an operation is the reads and the one transaction
  its code performs, each an atomic action; a run is any sequence of actions of any number
  of calls. `CredentialProofs` shows what every action keeps and relies on,
  `CredentialTheorems` what follows for whole runs, and `CredentialStore` runs the
  transactions statement by statement. `ChallengeStore` holds the pending passkey
  ceremonies.
* **Caches and sessions** (`VerifyCache*.dfy`, `SessionRenewal*.dfy`, `UserSession*.dfy`):
  the lock sections, the unlocked reads and the database statements are separate actions. A
  row carries a version that counts its mutations; it is not a column. Customer sessions
  add to both schemes a cached copy of the user's row, and changes that commit outside the
  mutex and may spare one session.
* **Boots** (`ActivityUpgrade*.dfy`, `ActivityBoot.dfy`, `ActivityMove*.dfy`): a boot is the
  list of statements it would issue, cut anywhere.
* **Runtime state** (`Inflight*.dfy`, `Poller*.dfy`, `Cooldown*.dfy`): maps under a mutex,
  with emissions and polls in flight as separate actions.
* **Streams, requests, failover, keys** (`Sse*.dfy`, `Json.dfy`, `Codex*.dfy`,
  `ClaudeRequest.dfy`, `DeepSeekRequest.dfy`, `Efforts.dfy`, `ModelsDev.dfy`, `Dns.dfy`,
  `Base64.dfy`, `SecretCipher.dfy`, `KeyRotation.dfy`).

The `*Laws.dfy` files, `CredentialRows.dfy`, and the lemmas at the end of the smaller modules, say of each operation
what it answers and leaves behind in terms of the request, the rows and the fields alone: who is
granted and who is refused, what a change writes and voids, what a frame delivers, what a request
becomes.

## Where a promise fails, and exactly when it holds

* A password reset caught between reading its token and committing survives a sign-in
  toggle or a verification, because those do not delete token rows (`ToggleLosesRace`,
  `RaceHappens`, `VerificationLosesRace`, `VerifyRaceHappens`). It uses the current generation if and only if nothing
  bumped the generation in between (`ResetIsCurrentIffUndisturbed`).
* A change that spares the session it was made from leaves that session's cached copy of the
  user's row as it was; a renewal keeps the copy unless it loses its swap
  (`SparedCopyIsOld`). Every other session is granted only from a row at least as new
  (`GrantsAreCurrent`).
* The comment at internal/database/activity.go:323-327 says a fresh database never has the
  retired column and that its removal is a no-op there. The code adds the column and drops
  it on the first boot, because only the recorded drop suppresses the addition
  (`FreshBootRewritesTheTable`). The models follow the code.
* A boot can fail on a missing column exactly in the state `BootSucceedsIff` names.
* `Register` and `Reconcile` with a changed ref during a poll leave its inflight flag up
  (`RegisterOrphans`, `ReconcileOrphans`, `OrphanStaysStuck`), and so does a poll begun on
  the registration without identity that a header leaves on a provider removed during its
  poll, which the server reaches (`StrayPollSticks`, `RemovedDuringItsPoll`). A call keeps
  every flag with its poll if and only if it does neither (`FlagsStayIff`). A poll without
  identity stores for no provider, and under the empty key exactly when the generations
  coincide (`StrayStoresIff`), which they never do in a run of the server
  (`NowhereStaysEmpty`, `ServerFollows`).
* Codex normalization is idempotent if and only if the alias table is stable
  (`IdempotentIff`); the tables built at discovery are, because the client-local effort is
  filtered out first (`DiscoveredAliasesAreStable`, `UnfilteredLevelsAreUnstable`).
* A key rotation that can read master.key twice is recoverable at every point if and only if
  master.key opens every secret at its start (`RecoverableIff`); a second rotation without
  recovery is the failing case (`SecondRotationLosesTheKey`). Where the second read can fail
  it silently writes no sidecar (`FailedRereadLosesTheKey`), and every point is recoverable
  if and only if the sidecar opens every secret beforehand too (`AlwaysRecoverableIff`).
* A consumer of the emitted deltas sees a negative sum when an end is emitted before its
  start (`EndCanOvertake`), and never where each request emits its start first, as the
  server's do (`OrderlySumsStay`).
* Pruning cooldowns shows in one answer, the flag of `removeByName`, and there only once
  every window of the name is closed (`PrunedIsNotReported`,
  `ReportDiffersOnlyWhenClosed`).
* A payload line ending in a carriage return does not survive printing and framing
  (`TrailingReturnIsLost`); everything else does (`PrintedIsParsedIff`).
* Associated data is injective up to parts of 2^32 - 1 bytes and not beyond
  (`AadIsInjective`, `LongPartsCollide`); frames round-trip up to 65535 bytes and not beyond
  (`FrameRoundTripsIff`); joined keys are injective without NUL and not with it
  (`KeyIsInjective`, `NulCollides`).

## Model

| member | source | states |
|---|---|---|
| CredentialTheorems.WayInAlways | internal/identity/webauthn.go:386-499 | In every state of every interleaving each verified user keeps a way in: password sign-in with a hash, a linked Google identity, or a passkey |
| CredentialTheorems.ResetUsesCurrentToken | internal/identity/identity.go:833-913 | A reset that commits after a password change, earlier reset, confirmed e-mail change, revoke-all or Google link was issued at the generation that change set, or later |
| CredentialTheorems.TokenCommitsOnce | internal/identity/identity.go:870-905 | No two commits in a run consume one reset token |
| CredentialTheorems.ResetIsCurrentIffUndisturbed | internal/identity/identity.go:849-860 | Between the read of a token and its commit no token-deleting change commits, and the commit meets the current generation exactly when no other change bumped it |
| CredentialTheorems.ToggleLosesRace | internal/identity/webauthn.go:430-499 | A sign-in toggle between a reset's read and its commit leaves the token usable: the reset still commits on an older generation and turns password sign-in on again |
| CredentialTheorems.RaceHappens | internal/identity/identity.go:833-860 | A start state, which is consistent, reaches the race |
| CredentialTheorems.VerificationLosesRace | internal/identity/identity.go:723-780 | A verification between a reset's read and its commit does not stop the reset either, which replaces the password just chosen |
| CredentialTheorems.VerifyRaceHappens | internal/identity/identity.go:790-860 | A start state, which is consistent, reaches that race |
| CredentialTheorems.SessionWasAuthorised | internal/identity/identity.go:653-680 | A session minted by a password sign-in carries the hash still stored at its insertion, with password sign-in still on |
| CredentialTheorems.SurvivingSession | internal/identity/identity.go:915-951 | A session row that outlives a revoking change is the one that change spared or was inserted later from a user read at its generation or a newer one |
| CredentialTheorems.GenerationCountsChanges | internal/identity/identity.go:885-951 | auth_generation equals its starting value plus the credential changes in the trace |
| CredentialTheorems.SessionOwnerIsVerified | internal/identity/identity.go:920-951 | The owner of every session row exists and is verified |
| CredentialTheorems.RowsAreInserted | internal/identity/identity.go:920-951 | A session row was there at the start or its insertion is in the trace |
| CredentialTheorems.MutualExclusion | internal/identity/webauthn.go:386-418 | authMethodsMu has at most one holder among the calls in progress |
| CredentialTheorems.RunKeepsInvariant | internal/identity/identity.go:653-951 | The inductive invariant over database, calls and past events holds after every run |
| CredentialProofs.InvStep | internal/identity/google.go:81-219 | One atomic action of any operation keeps the invariant |
| CredentialProofs.EffectMoves | internal/identity/account.go:130-334 | Each action moves the database only as allowed: generations grow by one per change, hashes never vanish, tokens and sessions go or are new, and sign-in methods shrink only under the lock |
| CredentialProofs.MovesKeepCall | internal/identity/webauthn.go:386-418 | What a call has read stays true under everyone else's actions unless both hold the lock |
| CredentialStore.Store.IssuePasswordReset | internal/identity/identity.go:803-830 | The issuing transaction, statement by statement, is the one action the interleavings are built from; without its user it changes nothing |
| CredentialStore.Store.ConsumePasswordReset | internal/identity/identity.go:870-911 | The consuming transaction is that action, or leaves every table as it was when a row is refused |
| CredentialStore.Store.ConsumeVerificationToken | internal/identity/identity.go:723-780 | Verification activates, sets the password and bumps the generation, or changes nothing |
| CredentialStore.Store.ChangeUserPassword | internal/identity/account.go:154-180 | A password change revokes other sessions and both kinds of token in its transaction |
| CredentialStore.Store.RevokeAllUserSessions | internal/identity/account.go:187-208 | Revoke-all bumps the generation and deletes sessions and reset tokens; an unknown user is no error |
| CredentialStore.Store.ConfirmEmailChange | internal/identity/account.go:301-334 | Confirming consumes the token and deletes tokens and all sessions but the initiating one |
| CredentialStore.Store.CreateUserSession | internal/identity/identity.go:920-951 | The insert happens exactly for a live, verified user still at the generation read |
| CredentialStore.Store.PasskeyMayBeDeleted | internal/identity/webauthn.go:386-412 | The guard of DeletePasskey on the tables, with its two refusals |
| CredentialStore.Store.RemovePasskey | internal/identity/webauthn.go:404-418 | Deleting the passkey is its action |
| CredentialStore.Store.SetPasswordSignInEnabled | internal/identity/webauthn.go:430-499 | The toggle is its action, sparing the kept session, or refused for the reason that applies |
| CredentialStore.Store.LinkGoogleIdentity | internal/identity/google.go:81-139 | Linking is refused or inserts the identity, turns the password off and deletes reset tokens |
| CredentialStore.Store.UnlinkGoogleIdentity | internal/identity/google.go:178-219 | Unlinking turns the password back on, or is refused without user, password hash or link |
| ChallengeStore.StoreIsBounded | internal/identity/webauthn.go:75-104 | Pending ceremonies never exceed the cap |
| ChallengeStore.ChallengesAreOneUse | internal/identity/webauthn.go:106-119 | A ceremony is completed at most once; any attempt on it, even of the wrong kind, ends it |
| ChallengeStore.CeremonySurvives | internal/identity/webauthn.go:84-103 | A ceremony stays until taken or expired unless at least the cap of others are in its way: begun later, or earlier by the same clock reading or a later one |
| ChallengeStore.Challenges.Begin | internal/identity/webauthn.go:68-104 | One scan drops the expired, evicts an oldest entry only when full, and inserts the new one |
| ChallengeStore.Challenges.Complete | internal/identity/webauthn.go:106-119 | The entry is removed whatever the outcome; the user is returned only for a live entry of the kind |
| VerifyCacheProofs.GrantsAreCurrent | internal/auth/keys.go:247-402 | No grant decided after an invalidation rests on a row read before it, over any number of verifications, hits and evictions |
| VerifyCacheProofs.MutationsTakeEffect | internal/auth/api_tokens.go:319-353 | Once a mutation committed and its invalidation followed, only the mutated row or a newer one is granted |
| VerifyCacheProofs.FloorIsCurrent | internal/auth/keys.go:359-402 | An invalidation covers the version its row has at that moment |
| VerifyCacheProofs.HoldingExcludesGrants | internal/auth/api_tokens.go:328-337 | While InvalidateWith holds the mutex nothing is granted or cached |
| VerifyCacheProofs.CacheIsBounded | internal/auth/keys.go:315-342 | The cache never exceeds maxEntries |
| VerifyCacheProofs.InvStep | internal/auth/keys.go:247-313 | One action keeps every cached and every publishable row at least as new as the invalidations of its id |
| VerifyCacheProofs.EntryStays | internal/auth/keys.go:252-313 | Under one action each cached entry stays a copy no older than any invalidation of its id |
| VerifyCacheStore.Authenticator.Lookup | internal/auth/keys.go:252-270 | A hit slides the entry and grants, an expired token is dropped and refused, anything else misses |
| VerifyCacheStore.Authenticator.SweepExpired | internal/auth/keys.go:329-342 | Exactly the expired entries go |
| VerifyCacheStore.Authenticator.EnsureRoom | internal/auth/keys.go:315-327 | Expired entries go first, live ones only while the cache is still full |
| VerifyCacheStore.Authenticator.Publish | internal/auth/keys.go:296-313 | A verified row is cached and granted only at an unchanged revision and before its own expiry |
| VerifyCacheStore.Authenticator.InvalidateId | internal/auth/keys.go:386-393 | The revision moves and exactly one id's entries go |
| VerifyCacheStore.Authenticator.InvalidateAccount | internal/auth/keys.go:395-402 | The revision moves and exactly one account's entries go |
| VerifyCacheStore.Authenticator.InvalidateAll | internal/auth/api_tokens.go:339-344 | The revision moves and nothing stays cached |
| SessionRenewalProofs.StoredExpiryGrows | internal/auth/keys.go:716-793 | Under concurrent renewals, revocations and pruning a stored expiry only grows while its row exists, and a row never comes back |
| SessionRenewalProofs.CachedExpiryIsCovered | internal/auth/keys.go:816-828 | A cached expiry never exceeds the stored one; without a row, and outside a revocation, it has passed |
| SessionRenewalProofs.GrantsAreLive | internal/auth/keys.go:716-828 | A granted session had not expired when its request began and is told no later expiry than the row's |
| SessionRenewalProofs.RevocationIsFinal | internal/auth/keys.go:921-943 | After a revocation that deleted its rows returns, none of its sessions is granted again |
| SessionRenewalProofs.InvStep | internal/auth/keys.go:716-955 | One action keeps the coverage of every expiry held in memory |
| SessionRenewalStore.SessionStore.Lookup | internal/auth/keys.go:721-767 | A usable entry with the right secret hits; any other is dropped |
| SessionRenewalStore.SessionStore.Renew | internal/auth/keys.go:733-745 | The renewal is a compare-and-swap on the expiry seen |
| SessionRenewalStore.SessionStore.SweepExpired | internal/auth/keys.go:853-859 | Exactly the entries past their own time go |
| SessionRenewalStore.SessionStore.EnsureRoom | internal/auth/keys.go:833-845 | Expired entries go first, live ones only while the cache is still full |
| SessionRenewalStore.SessionStore.Publish | internal/auth/keys.go:816-828 | Publishing needs an unchanged revision, keeps the latest expiry known, and drops other entries only to make room |
| SessionRenewalStore.SessionStore.Revoke | internal/auth/keys.go:921-927 | One section deletes the row, unless the database refuses, and drops the entry |
| SessionRenewalStore.SessionStore.InvalidateAll | internal/auth/keys.go:934-941 | One section empties the table and the cache |
| SessionRenewalStore.SessionStore.PruneExpired | internal/auth/keys.go:949-955 | Pruning removes exactly the rows past the cutoff |
| UserSessionProofs.GrantsAreCurrent | internal/identity/identity.go:954-1058 | Once a mutation's invalidation has run, no grant decided later rests on a copy of the user's row read before it, except for the one session it spared |
| UserSessionProofs.SparedCopyIsOld | internal/identity/identity.go:961-1002 | The exception is real: the spared session goes on being granted from the old copy, renewed or not, unless its renewal loses the swap and loads the row again |
| UserSessionProofs.RevocationIsFinal | internal/identity/identity.go:1060-1100 | A session whose row was gone when its entry was dropped is never granted again, whatever requests were in flight |
| UserSessionProofs.CachedExpiryIsCovered | internal/identity/identity.go:1046-1058 | Outside a revocation a cached expiry never exceeds the stored one, and without a row it has passed |
| UserSessionProofs.GrantsAreLive | internal/identity/identity.go:954-1040 | A granted session was live when its request began, goes to the user it was drawn for and is told no later expiry than its row's |
| UserSessionProofs.InvStep | internal/identity/identity.go:954-1131 | One action of any request, change, revocation or sweep keeps what every entry and every publishable copy rests on |
| UserSessionStore.UserStore.Lookup | internal/identity/identity.go:960-1002 | A usable entry with the right secret hits; any other is dropped |
| UserSessionStore.UserStore.Renew | internal/identity/identity.go:969-980 | The renewal is a compare-and-swap on the expiry seen and keeps the owner |
| UserSessionStore.UserStore.Publish | internal/identity/identity.go:1046-1058 | Publishing needs an unchanged revision, keeps the latest expiry known, and drops other entries only to make room |
| UserSessionStore.UserStore.EnsureRoom | internal/identity/identity.go:1332-1347 | Expired entries go first, live ones only while the cache is still full |
| UserSessionStore.UserStore.SweepExpired | internal/identity/identity.go:1118-1125 | Exactly the entries past their own end or their session's go |
| UserSessionStore.UserStore.InvalidateCache | internal/identity/account.go:345-355 | The revision moves and exactly one user's entries go, but for the kept one |
| UserSessionStore.UserStore.InvalidateUser | internal/identity/identity.go:1078-1088 | The rows go unless the database refuses, and the entries go anyway |
| UserSessionStore.UserStore.DeleteUserSession | internal/identity/identity.go:1060-1070 | One session's row and entry go and the revision moves |
| ActivityUpgradeProofs.InterruptedBootsConverge | internal/database/activity.go:340-439 | However earlier boots were cut, the next whole boot succeeds and reaches the one final schema, and later boots issue no statement |
| ActivityUpgradeProofs.BackfillCommitsOnce | internal/database/activity.go:383-439 | Over any interrupted boots the provenance backfill commits once as soon as it is recorded, never twice, and before its column is dropped |
| ActivityUpgradeProofs.OriginalRowsGetTheirSource | internal/database/activity.go:288-308 | Each row present before the first boot survives and gets the sources its original flag and counts determine |
| ActivityUpgradeProofs.WholeBoot | internal/database/activity.go:340-439 | A boot that is not cut issues only statements that succeed, in a sound order, and leaves the final schema |
| ActivityUpgradeProofs.BootSucceedsIff | internal/database/activity.go:298-308 | A boot can fail exactly when the drop is recorded, the backfill is not, and the column is gone |
| ActivityUpgradeProofs.FinalIsQuiet | internal/database/activity.go:340-439 | The final schema is a fixed point of the boot |
| ActivityUpgradeProofs.FreshBootRewritesTheTable | internal/database/activity.go:323-338 | A fresh database does get the retired column added and dropped on its first boot |
| ActivityBoot.Activity.Issue | internal/database/activity.go:394-408 | A statement takes effect as a whole or, without power or when it is refused, not at all |
| ActivityBoot.Activity.AddColumns | internal/database/activity.go:341-370 | One upgrade entry issues its planned statements as far as the power and the statements go |
| ActivityBoot.Activity.UpgradeSchema | internal/database/activity.go:340-378 | The additive loop issues the schema plan as far as the power and the statements go |
| ActivityBoot.Activity.UpgradeData | internal/database/activity.go:383-411 | The data loop issues the unrecorded rewrites in order, up to the first that is refused or finds no power |
| ActivityBoot.Activity.DropColumns | internal/database/activity.go:420-439 | The removal loop drops what is present and then records it, as far as the power and the statements go |
| ActivityBoot.Activity.Boot | internal/database/activity.go:340-439 | From any schema a boot issues its plan until it dies or a statement is refused, with power enough exactly where BootSucceedsIff says; where the drop is recorded only after the backfill it is the boot of the interruption theorems |
| ActivityMoveProofs.NoRowIsLost | internal/database/activity.go:476-564 | At every crash point both central tables stand or both are gone with every id found in the copy; Activity logs stay, as they were unless the central table has them too, and attempts stay unless a central one takes their slot |
| ActivityMoveProofs.RowsAreCarried | internal/database/activity.go:476-564 | At every crash point of boots whose copies lose nothing, the central tables stand untouched or every row of theirs is in the copy with its content |
| ActivityMoveProofs.AttemptStaysIff | internal/database/activity.go:508-512 | Once carried over, an original Activity attempt is there if and only if the central table has it too or none of its rows took the slot; it is the central row in the first case and its own in the second |
| ActivityMoveProofs.AttemptIsDisplaced | internal/database/activity.go:508-512 | One boot does displace an attempt whose slot a central one holds under another id |
| ActivityMoveProofs.RerunCompletes | internal/database/activity.go:470-543 | A boot that is not interrupted completes the move after any number that were, with every central row carried over exactly |
| ActivityMoveProofs.MovedIsQuiet | internal/database/activity.go:480-486 | A completed move is not repeated |
| ActivityMoveProofs.EnforcedCopyWouldCascade | internal/database/activity.go:497-515 | With foreign keys enforced the copy of the logs would delete Activity attempts |
| ActivityMove.CopyAttemptRows | internal/database/activity.go:508-512 | Row-by-row INSERT OR REPLACE gives one result whatever the row order |
| ActivityMoveStore.Databases.VerifyCopy | internal/database/activity.go:545-564 | The missing-row counts are zero exactly when every id is in the copy |
| ActivityMoveStore.Databases.CopyLogRows | internal/database/activity.go:500-507 | The log copy as one statement, with its cascade |
| ActivityMoveStore.Databases.CopyAttemptTable | internal/database/activity.go:508-512 | The attempt copy as one statement |
| ActivityMoveStore.Databases.VerifyAndDrop | internal/database/activity.go:516-539 | Verification, then both drops in one transaction |
| ActivityMoveStore.Databases.Migrate | internal/database/activity.go:476-543 | The move dying after any number of statements is the boot of the theorems |
| InflightProofs.DeltasAddUp | internal/server/inflight.go:64-165 | For any interleaving of calls and emissions and any ids, emitted plus outstanding deltas equal the tracked count plus the one an empty id confuses it with; a consumer's sum is not negative exactly while no more than that is outstanding |
| InflightProofs.SumIsCountIff | internal/server/inflight.go:72-80 | With nothing outstanding a consumer's sum is the tracked count if and only if the count an empty id confuses it with is zero, as it is whenever the ids are given |
| InflightProofs.EndCanOvertake | internal/server/inflight.go:132-165 | An end emitted before its start makes the sum negative |
| InflightProofs.OrderlySumsStay | internal/server/client.go:1781-1815 | Where every request emits its start before it calls its end, the sum is never negative, whatever is outstanding and in whatever order it is emitted |
| InflightProofs.CapHolds | internal/server/inflight.go:82-100 | While an account starts only through tryAcquire with one limit, its live requests stay within it |
| InflightProofs.AcquireCounts | internal/server/inflight.go:90-100 | tryAcquire refuses exactly at the limit and counts exactly one otherwise |
| InflightProofs.EmptyIdsAreAmbiguous | internal/server/inflight.go:220-228 | With empty client and target ids a leg's delta reads as a ticket's |
| InflightProofs.KeyIsInjective | internal/server/inflight.go:49-58 | The NUL-joined keys are injective on NUL-free identities |
| InflightProofs.PrefixIsTheAccount | internal/server/inflight.go:170-182 | The prefix filter selects exactly one account's keys |
| InflightProofs.NulCollides | internal/server/inflight.go:49-58 | With a NUL inside an identity two tickets share a key |
| InflightProofs.AlwaysLabelled | internal/server/inflight.go:72-80 | Each entry carries the client and route of its key |
| InflightTracker.Tracker.ClientStart | internal/server/inflight.go:64-80 | A start counts one and emits it |
| InflightTracker.Tracker.TryAcquire | internal/server/inflight.go:90-100 | Admission under one lock, by the sum of live requests |
| InflightTracker.Tracker.ActiveRequests | internal/server/inflight.go:209-218 | The scan adds up the account's live requests whatever the map order |
| InflightTracker.Tracker.ClientStreaming | internal/server/inflight.go:102-112 | Streaming counts one and emits it |
| InflightTracker.Tracker.ClientResolved | internal/server/inflight.go:114-127 | A resolved model is recorded and emitted, an empty one ignored |
| InflightTracker.Tracker.ClientEnd | internal/server/inflight.go:132-165 | An end releases at most what was reserved and emits exactly that |
| InflightTracker.Tracker.TargetStart | internal/server/inflight.go:220-228 | A leg's start counts one and emits it |
| InflightTracker.Tracker.TargetEnd | internal/server/inflight.go:230-248 | A leg's end releases one if there is one |
| InflightTracker.Tracker.RouteSnapshot | internal/server/inflight.go:170-182 | The snapshot is exactly the account's tickets |
| InflightTracker.Tracker.ClientSnapshot | internal/server/inflight.go:185-204 | Per client, exactly the fold of its routes |
| PollerProofs.StalePollNeverStores | internal/providerquota/poller.go:289-329 | Whatever is called meanwhile, what a poll stores for a provider is stored for the provider polled, and its registration did not change between the poll's beginning and the store |
| PollerProofs.SnapshotsAreRegistered | internal/providerquota/poller.go:163-229 | After any calls every cached snapshot of a provider belongs to its registration |
| PollerProofs.StrayStoresIff | internal/providerquota/poller.go:315-329 | A poll begun without identity touches no provider; it stores under the empty key if and only if its generation is that key's and no better figures are kept there |
| PollerProofs.NowhereStaysEmpty | internal/providerquota/poller.go:110-117 | Where headers are set only on keys once registered and no empty key is registered, such polls store nothing anywhere |
| PollerProofs.StoresAreNamed | internal/providerquota/poller.go:315-329 | And so every store of such a run is for a provider, as StalePollNeverStores asks |
| PollerProofs.ServerStoresAreFresh | internal/providerquota/poller.go:289-329 | In such a run whatever a poll stores is for the provider it was begun for, whose registration did not change meanwhile |
| PollerProofs.ServerFollows | internal/server/quota.go:31-55 | That is so in every run whose headers come from the credential hook of a running poll |
| PollerProofs.PollsAreSpaced | internal/providerquota/poller.go:289-313 | Two polls begun under one registration are at least MinInterval apart, forced or not |
| PollerProofs.AvailableStays | internal/providerquota/poller.go:315-329 | Under one registration an available snapshot is never replaced by an unavailable one |
| PollerProofs.FlagsStayIff | internal/providerquota/poller.go:128-229 | A call keeps every set inflight flag with a running poll that will clear it, if and only if it pushes no changed ref through Register or Reconcile during a poll and begins no poll without identity |
| PollerProofs.FlagHasItsPoll | internal/providerquota/poller.go:170-229 | Over runs of such calls a set inflight flag has a running poll |
| PollerProofs.RegisterOrphans | internal/providerquota/poller.go:126-140 | A changed ref registered during its poll leaves a flag no poll will clear |
| PollerProofs.ReconcileOrphans | internal/providerquota/poller.go:147-162 | So does a changed ref in a reconciled list |
| PollerProofs.OrphanStaysStuck | internal/providerquota/poller.go:289-365 | Such a flag refuses every poll, forced or triggered, until the provider is removed or ReconcileAccount clears it |
| PollerProofs.StrayPollSticks | internal/providerquota/poller.go:289-329 | A poll begun on a ref without identity leaves its provider's flag up with no poll to clear it |
| PollerProofs.RemovedDuringItsPoll | internal/server/quota.go:51-87 | The server reaches that: a provider removed during its poll gets its header back from the poll's hook, and is triggered again |
| PollerProofs.StrayHeader | internal/providerquota/poller.go:110-117 | The package alone also lets a header register a key never seen, whose poll does store under the empty key |
| PollerProofs.GateHolds | internal/providerquota/poller.go:341-365 | TriggerIfDue never has more than eight polls in flight |
| PollerStore.QuotaPoller.Register | internal/providerquota/poller.go:122-140 | Only a new or changed supported ref is recorded, and bumps its generation |
| PollerStore.QuotaPoller.Unregister | internal/providerquota/poller.go:219-229 | Everything cached of the provider goes and its generation moves |
| PollerStore.QuotaPoller.SetAccountHeader | internal/providerquota/poller.go:110-117 | The header is set on the ref, present or not |
| PollerStore.QuotaPoller.MarkActive | internal/providerquota/poller.go:91-99 | Only the activity mark of a named provider changes |
| PollerStore.QuotaPoller.Reconcile | internal/providerquota/poller.go:146-173 | Two loops replace the registered set, each key as the slot function says |
| PollerStore.QuotaPoller.ReconcileAccount | internal/providerquota/poller.go:177-216 | Two loops replace one account's set, keep its headers, and leave every other key alone |
| PollerStore.QuotaPoller.BeginRefresh | internal/providerquota/poller.go:289-313 | A poll begins exactly when registered, idle and due |
| PollerStore.QuotaPoller.FinishRefresh | internal/providerquota/poller.go:315-329 | The result is kept only at the generation the poll began with |
| CooldownProofs.PruningIsInvisible | internal/server/cooldown.go:40-112 | With a clock that never runs backwards the pruned, lazily read store answers exactly as one never pruned, by target, by name and by account |
| CooldownProofs.ReportDiffersOnlyWhenClosed | internal/server/cooldown.go:135-148 | The flag of removeByName can differ, and only where no window of the name is open any more |
| CooldownProofs.PrunedIsNotReported | internal/server/cooldown.go:53-59 | It does: a closed window that was pruned is not reported |
| CooldownProofs.LatestEndIsKept | internal/server/cooldown.go:64-85 | Since a target's last removal the store keeps the latest end time asked for |
| CooldownProofs.EntryWasOpened | internal/server/cooldown.go:64-85 | Every entry was opened by a call nothing later removed or matched; ties keep the newer detail |
| CooldownProofs.WindowsOnlyExtend | internal/server/cooldown.go:64-85 | An open window is never shortened while its target is not removed |
| CooldownProofs.StatusIsUnique | internal/server/cooldown.go:92-112 | There is one answer by name: the least live entry by end time, then id |
| CooldownStore.Cooldowns.IsCooled | internal/server/cooldown.go:40-48 | A target cools exactly while its window is open |
| CooldownStore.Cooldowns.PruneExpired | internal/server/cooldown.go:53-59 | Exactly the closed windows go |
| CooldownStore.Cooldowns.SetWindow | internal/server/cooldown.go:64-85 | Prunes, then records unless a longer window is open |
| CooldownStore.Cooldowns.StatusByName | internal/server/cooldown.go:97-112 | The scan finds the least live entry whatever the map order |
| CooldownStore.Cooldowns.Remove | internal/server/cooldown.go:125-129 | Exactly one target's entry goes |
| CooldownStore.Cooldowns.RemoveByName | internal/server/cooldown.go:135-148 | Exactly the account's entries of a name go, and it says whether any did |
| CooldownStore.Cooldowns.ClearFor | internal/server/cooldown.go:114-123 | Exactly one account's entries go |
| CooldownStore.Cooldowns.Snapshot | internal/server/cooldown.go:162-185 | Prunes, then lists exactly the account's open windows |
| SseStreamProofs.RunsEndOnce | clients/go/stream.go:75-164 | Every run is a list of events followed by exactly one completion or failure |
| SseStreamProofs.RunReplaysFrames | clients/go/stream.go:89-153 | A run is the decode of its payloads in order; it can stop sooner only by failing, and does not within budget |
| SseStreamProofs.CompletionMeansDone | clients/go/stream.go:134-139 | A run completes only at the first [DONE], after everything before it was delivered |
| SseStreamProofs.BudgetsHold | clients/go/stream.go:107-112 | Delivered tool arguments, each frame's length, and the length of all frames on top of the body bytes spent before stay within their budgets over the whole run |
| SseStreamProofs.FirstOverFails | clients/go/stream.go:107-112 | The first line over any of the three byte budgets is where the run fails, unless it ended before; earlier frames are delivered |
| SseStreamProofs.FirstOverIs | clients/go/stream.go:107-112 | That line is the first by which some budget is exceeded, and there is none exactly when all hold |
| SseStreamProofs.DecodeOk | clients/go/stream.go:166-258 | A decoded frame starts with the native frame and accounts for its tool arguments |
| SseStreamProofs.PrintedIsParsedIff | clients/go/stream.go:107-134 | Payloads printed as data lines are framed back unchanged if and only if no line of theirs ends in a carriage return |
| SseStreamProofs.TrailingReturnIsLost | clients/go/stream.go:107 | A payload ending in a carriage return comes back without it |
| SseClient.Stream.Next | clients/go/stream.go:75-154 | Each call returns the next reply the lines call for, end-of-stream for ever after the last, and a transport failure on cancellation |
| SseClient.Stream.ReadFrame | clients/go/stream.go:90-133 | One frame's data lines, or the failure the run ends with |
| SseClient.Stream.Kept | clients/go/stream.go:116-126 | Only data fields are kept, less one leading space |
| SseClient.Stream.DecodeFrame | clients/go/stream.go:166-258 | The decode in its order of checks, carrying the argument count |
| SseClient.Stream.DecodeChoices | clients/go/stream.go:217-249 | The choice loop, stopping at the first bad one |
| SseClient.Stream.DecodeChoice | clients/go/stream.go:218-249 | One choice's events in order |
| SseClient.Stream.DecodeTools | clients/go/stream.go:235-245 | Tool fragments, counted against the budget |
| SseClient.Stream.DecodeReasons | clients/go/stream.go:228-234 | Reasoning fragments that hold something |
| CodexProofs.IdempotentIff | internal/server/codex_request.go:18-97 | Normalizing twice is normalizing once on all objects, if and only if no alias leads to another or to the client-local effort |
| CodexProofs.FixedIffNormal | internal/server/codex_request.go:18-97 | The requests left alone are exactly the normal ones |
| CodexProofs.CodexNormalizes | internal/server/codex_request.go:52-95 | The result has no system or developer item, a non-empty input list where it is a list, non-empty instructions and no rejected field |
| CodexProofs.UnstableWitness | internal/server/codex_request.go:23-36 | An alias to the client-local effort, or to another alias, makes a second pass differ |
| CodexNormalizer.EnsureEncrypted | internal/server/codex_request.go:99-113 | The include list gains the entry once, keeping the rest |
| CodexNormalizer.FixContent | internal/server/codex_request.go:125-135 | Assistant blocks become output text in place |
| CodexNormalizer.FixItem | internal/server/codex_request.go:68-70 | Only an assistant item with a content list changes |
| CodexNormalizer.Scan | internal/server/codex_request.go:58-78 | One pass keeps the other items in order and collects the system text |
| CodexNormalizer.ResolveEffort | internal/server/codex_request.go:23-36 | The effort is dropped, mapped or left |
| CodexNormalizer.AskSummary | internal/server/codex_request.go:44-51 | Active reasoning asks for a summary and encrypted content |
| CodexNormalizer.MoveSystem | internal/server/codex_request.go:58-84 | System text moves in front of the instructions |
| CodexNormalizer.Finish | internal/server/codex_request.go:88-95 | Fixed fields are set and rejected ones removed |
| CodexNormalizer.Normalize | internal/server/codex_request.go:18-97 | The whole pass is the composition the theorems are about |
| ClaudeRequest.ClaudeIsIdempotent | internal/server/claude_request.go:19-103 | A second pass, whatever random values it draws, changes nothing and never refuses |
| ClaudeRequest.BlocksInOrder | internal/server/claude_request.go:57-74 | The billing block, the identity block, then the other original blocks in order |
| ClaudeRequest.OtherFieldsStay | internal/server/claude_request.go:75-101 | Only the system list and a missing user id change |
| ClaudeRequest.Inspect | internal/server/claude_request.go:40-56 | The validation loop and its two flags |
| ClaudeRequest.Normalize | internal/server/claude_request.go:19-103 | The pass with its error cases |
| DeepSeekRequest.DeepSeekIsIdempotent | internal/server/deepseek_request.go:35-80 | A second pass changes nothing |
| DeepSeekRequest.DeepSeekIsNative | internal/server/deepseek_request.go:35-115 | A normalized request needs nothing more |
| DeepSeekRequest.NativeIsFixed | internal/server/deepseek_request.go:76-80 | A request that needs nothing comes back as it was |
| DeepSeekRequest.MessagesKeepTheirFields | internal/server/deepseek_request.go:89-115 | Messages keep their number, order and fields; only a missing reasoning_content is added, empty, with tools present |
| DeepSeekRequest.Backfill | internal/server/deepseek_request.go:100-115 | The messages are filled in place and the flag says whether any was |
| DeepSeekRequest.BackfillRequest | internal/server/deepseek_request.go:89-115 | No change without tools or messages |
| DeepSeekRequest.Normalize | internal/server/deepseek_request.go:35-80 | The changed flag is exactly the need to change |
| KeyRotation.RotationIsRecoverable | cmd/tiller-router/main.go:274-320 | If master.key opens every secret, every crash and error point leaves master.key or master.key.previous opening every secret; so too when the second read of master.key fails, if the sidecar opened them beforehand |
| KeyRotation.RecoverableIff | cmd/tiller-router/main.go:285-305 | While that read succeeds, from no other state with a key file |
| KeyRotation.AlwaysRecoverableIff | cmd/tiller-router/main.go:285-320 | Over all faults, that failing read included, if and only if both key files open every secret at the start |
| KeyRotation.WholeRotation | cmd/tiller-router/main.go:285-306 | Without faults the new key is in place, the old one beside it, and every plaintext unchanged under the new key |
| KeyRotation.PlaintextsStay | internal/store/secrets.go:406-442 | No crash or error point changes a plaintext |
| KeyRotation.ConfiguredKeyLeavesFiles | cmd/tiller-router/main.go:279-285 | A configured key leaves the key files alone |
| KeyRotation.RecoveryRestores | cmd/tiller-router/main.go:227-240 | After recovering from the sidecar another rotation is safe whatever fails; after a completed one, short of a failing second read |
| KeyRotation.SecondRotationLosesTheKey | cmd/tiller-router/main.go:285-305 | A second rotation without recovery overwrites the only key that opens anything |
| KeyRotation.FailedRereadLosesTheKey | cmd/tiller-router/main.go:285-305 | If the second read of master.key fails, no sidecar is written and a crash loses the key |
| KeyRotation.Machine.RotateSecrets | internal/store/secrets.go:406-442 | All secrets are resealed or, if one does not open, none |
| KeyRotation.Machine.RotateAndRestore | cmd/tiller-router/main.go:306-320 | The rotation and its restore path |
| KeyRotation.Machine.Rotate | cmd/tiller-router/main.go:247-320 | The command dying at any step is the rotation of the theorems |
| SecretCipher.AadIsInjective | internal/crypto/cipher.go:146-161 | Associated data determines its parts, each shorter than 2^32 bytes |
| SecretCipher.LongPartsCollide | internal/crypto/cipher.go:154-159 | At 2^32 bytes the length wraps and two contexts collide |
| SecretCipher.BuildAad | internal/crypto/cipher.go:146-161 | The buffer has the computed size and content |
| SecretCipher.FormatParses | internal/crypto/cipher.go:106-136 | The enc:v1 form parses back to its nonce and sealed bytes |
| SecretCipher.EncryptedSecretOpens | internal/crypto/cipher.go:98-144 | A secret opens under exactly the key lists that hold its key |
| SecretCipher.MovedSecretIsLocked | internal/crypto/cipher.go:146-161 | A ciphertext moved to another context stays locked |
| SecretCipher.TryKeys | internal/crypto/cipher.go:120-144 | Keys are tried in order |
| SecretCipher.KeyFileParses | internal/crypto/keyfile.go:40-60 | A written key file parses back to its key |
| Base64.DecodeUndoesEncode | internal/crypto/cipher.go:107 | Decoding undoes encoding (section 4 of RFC 4648) |
| Dns.SharesNeverShrink | internal/dnsfallback/resolver.go:163-179 | With obedient attempts nobody's share shrinks, every candidate is reached before the deadline and the last ends by it |
| Dns.EveryCandidateIsTried | internal/dnsfallback/resolver.go:163-179 | No candidate is cut off by the deadline before its turn |
| Dns.AnswerMeans | internal/dnsfallback/resolver.go:180-202 | The first authoritative or truncated reply in order, else the last other one, else a failure |
| Dns.AnswerIsToTheQuery | internal/dnsfallback/resolver.go:204-252 | Whatever the candidates send, the answer is a reply to the query with a whole header |
| Dns.RoundTrip | internal/dnsfallback/resolver.go:220-248 | Over UDP the first matching message in time counts, over TCP only the first message |
| Dns.Exchange | internal/dnsfallback/resolver.go:160-202 | The loop answers so unless the context ends first |
| Dns.CandidatesInOrder | internal/dnsfallback/resolver.go:59-104 | Fallbacks follow the supplied servers, each address once |
| Dns.AppendIfNew | internal/dnsfallback/resolver.go:97-104 | A server is appended only if new |
| Dns.FrameRoundTripsIff | internal/dnsfallback/resolver.go:254-273 | A frame reads back exactly when its message has at most 65535 bytes |
| Dns.WriteFrame | internal/dnsfallback/resolver.go:264-273 | The buffer is the length prefix and the message |
| Efforts.SortedIsIdempotent | internal/providers/registry.go:247-265 | Sorting twice is sorting once |
| Efforts.SortedKeepsValues | internal/providers/registry.go:247-265 | The result holds exactly the input's values, each once |
| Efforts.SortedOrder | internal/providers/registry.go:247-265 | Known values first by canonical position, unknown ones by first encounter |
| Efforts.OnlyOneOrder | internal/providers/registry.go:263 | Any correct sort gives the same result |
| Efforts.SortByIndex | internal/providers/registry.go:263 | The known values in canonical order |
| Efforts.SortEfforts | internal/providers/registry.go:249-265 | One pass and a sort give the specified order |
| Efforts.AliasTargets | internal/providers/registry.go:754-776 | An alias leads to a listed level other than itself |
| CodexAliases.DiscoveredAliasesAreStable | internal/providers/registry.go:754-789 | Discovered aliases are stable exactly unless ultra stands for the client-local effort, and always once that level is filtered out |
| CodexAliases.UnfilteredLevelsAreUnstable | internal/providers/registry.go:754-776 | Without the filter the alias of ultra can be the client-local effort, and the table is unstable |
| Efforts.CodexEffortAliases | internal/providers/registry.go:754-776 | The case analysis and its backward search |
| Efforts.ResolvedIsFinal | internal/providers/registry.go:781-789 | What a level resolves to resolves to itself |
| ModelsDev.EnrichedTwice | internal/providers/modelsdev.go:314-387 | Enriching twice from one entry is enriching once |
| ModelsDev.ProviderFieldsStay | internal/providers/modelsdev.go:314-351 | Every provider-reported field is kept, with the provider's options as a prefix and only new kinds added |
| ModelsDev.ProviderCapabilitiesStay | internal/providers/modelsdev.go:356-387 | The other capability fields it reported are kept |
| ModelsDev.ParsedUnknownIff | internal/providers/modelsdev.go:272-312 | Parsed options are unknown exactly when nothing in a non-empty list is usable |
| ModelsDev.ParseReasoningOptions | internal/providers/modelsdev.go:272-312 | The entry loop skips malformed entries one by one |
| ModelsDev.MergeFallback | internal/providers/modelsdev.go:356-387 | The merge loops over a fixed set of present kinds |
| ModelsDev.EnrichCapabilities | internal/providers/modelsdev.go:340-349 | Gateways and explicitly empty lists are left alone |
| ModelsDev.EnrichFlags | internal/providers/modelsdev.go:321-334 | Unknown flags are filled |
| ModelsDev.Enrich | internal/providers/modelsdev.go:314-351 | The whole fill |
| ModelsDev.ExtractSelectors | internal/providers/registry.go:189-227 | The widest budget, the last effort list, and whether none is listed |
| CredentialLaws.PasswordSessionWasVerified | internal/identity/identity.go:653-680 | A session of a password sign-in is inserted only after the password presented matched, against the hash the event names; verifying it was the last thing the call did |
| CredentialLaws.MatchSignsIn | internal/identity/identity.go:653-680 | And a user who may sign in and whose password matches does get a session |
| CredentialLaws.PasswordChangeWasConfirmed | internal/identity/account.go:120-153 | A password change commits only after the current password matched, or for a caller confirmed another way |
| CredentialLaws.ResetTokenWasIssued | internal/identity/identity.go:790-869 | A reset commits on a token that was issued to a user found without Google, at the generation read then |
| CredentialLaws.HashIsTheChosen | internal/identity/identity.go:870-913 | A stored hash is the one chosen last: in any run only a committed change of that user replaces it, by the one it brings |
| CredentialLaws.ChangesOpen | internal/identity/webauthn.go:430-499 | Which changes leave password sign-in on, which off, and which activate the user |
| CredentialLaws.ChangesIff | internal/identity/account.go:154-334 | Exactly when each change takes place, which tokens it voids, and whether it cuts sessions |
| CredentialLaws.PendingChangeIsVoid | internal/identity/account.go:273-334 | A pending e-mail change does not survive a password change, a reset or another confirmed change |
| CredentialRows.SessionsAre | internal/identity/identity.go:915-951 | Each session row is inserted by the one action that announces it, and goes only with a change that cuts it, a deletion that names it, its user, or the invalidation behind a change; the spared one stays |
| CredentialRows.InsertedIff | internal/identity/identity.go:920-951 | A session is inserted exactly for a user still at the generation read, still verified, active and of an active account |
| CredentialRows.TokensAre | internal/identity/identity.go:685-911 | Each one-time token is issued for the user its call read, in place of the earlier one of its kind, and goes when used, with the changes that void it, or with its user |
| CredentialRows.UsersAre | internal/identity/identity.go:555-911 | A user's row changes in exactly the fields a change is about, its generation with each credential change; a new user begins as its kind of sign-up says |
| CredentialRows.ReadsGoOnIff | internal/identity/webauthn.go:386-499 | An operation goes on from each of its reads exactly if the read finds what it needs, with just that in hand, and under the lock where it edits sign-in methods |
| CredentialRows.NoCallIsStuck | internal/identity/webauthn.go:386-499 | Whatever the others do, a call may take its next step |
| CredentialRows.GoogleStaysUnique | internal/identity/google.go:81-139 | Over any interleaving no Google identity is ever linked to two users |
| CredentialRows.VerificationWasIssued | internal/identity/identity.go:685-722 | A verification token is issued only to a user read as not yet verified, by the call that read it |
| VerifyCacheLaws.GrantsWereVerified | internal/auth/keys.go:271-313 | Every grant, from the cache or not, rests on a row read for that key while active, by a call whose secret matched, and not expired at the grant |
| VerifyCacheLaws.HitsAreRecent | internal/auth/keys.go:252-270 | A hit follows a grant of the same row on the same key less than the time to live ago |
| VerifyCacheLaws.InvalidationsTakeEffect | internal/auth/keys.go:359-402 | After an invalidation of one credential, of an account or of all, no grant it covers is older than the row was then |
| VerifyCacheLaws.DisabledIsRefused | internal/auth/api_tokens.go:319-353 | A credential switched off and then invalidated is not granted again unless another mutation of it follows |
| VerifyCacheLaws.MatchIsGranted | internal/auth/keys.go:271-313 | A live credential whose secret matches is granted, and cached under its key |
| VerifyCacheLaws.HitIsGranted | internal/auth/keys.go:252-270 | A cached one is granted at once and its entry renewed |
| SessionRenewalLaws.GrantsWereVerified | internal/auth/keys.go:716-828 | Every granted session's row was read live, and the granting request presented its secret |
| SessionRenewalLaws.HitsAreRecent | internal/auth/keys.go:716-745 | A request answered from the cache follows a grant less than the cache's time to live ago |
| SessionRenewalLaws.RenewalSlides | internal/auth/keys.go:716-793 | A session with less than half of its lifetime left is extended to a whole one from now, another is left as it is, unless the swap is lost and the row is loaded again |
| SessionRenewalLaws.RefusedRenewal | internal/auth/keys.go:716-793 | A renewal the database refuses ends the request, unless the cache answered it: that one goes on with the expiry it had |
| SessionRenewalLaws.MatchIsGranted | internal/auth/keys.go:795-828 | A live session presented with its secret is granted |
| SessionRenewalLaws.RevocationTakesRow | internal/auth/keys.go:921-943 | Signing out, invalidating all and finding a session expired each delete the row at once and hold the mutex until the entry is dropped too |
| SessionRenewalLaws.ExpiredIsRevoked | internal/auth/keys.go:795-814 | A request that finds its session expired goes on to revoke it |
| SessionRenewalLaws.DeletedIsRefused | internal/auth/keys.go:913-927 | What a section deleted is never granted once it has returned |
| UserSessionLaws.GrantsWereVerified | internal/identity/identity.go:1027-1058 | A granted session's row and its owner's were read while the owner was active, at the version granted, and the granting request presented the secret |
| UserSessionLaws.HitsAreRecent | internal/identity/identity.go:954-985 | A request answered from the cache follows a grant of the same copy less than the cache's time to live ago |
| UserSessionLaws.RenewalSlides | internal/identity/identity.go:954-1025 | A session in the last half of its lifetime is extended to a whole one from now, unless its swap is lost and it loads the row again |
| UserSessionLaws.MatchIsGranted | internal/identity/identity.go:1027-1058 | A live session of an active user, presented with its secret, is granted |
| UserSessionLaws.DroppedIsRefused | internal/identity/identity.go:1060-1071 | A session whose row is gone when its entry is dropped is never granted afterwards |
| UserSessionLaws.RowsAreTaken | internal/identity/identity.go:1060-1089 | Deleting a session or a user's sessions takes exactly those rows, but for the one spared |
| UserSessionLaws.CommitIs | internal/identity/account.go:154-180 | A change of a user moves its row to the next version and changes no other user |
| UserSessionLaws.SuspendedIsRefused | internal/identity/identity.go:1027-1045 | A user suspended and then invalidated is granted nothing, the spared session aside, unless another change of theirs follows |
| ActivityMoveProofs.LogsAreNamed | internal/database/activity.go:500-507 | Field by field: every central log is carried over under its id with its key and content, named after its client key, or with no name where the key has none |
| ActivityUpgradeProofs.LegacyStatusesAreResolved | internal/database/activity.go:276-286 | Over any interrupted boots exactly the legacy statuses become unresolved, once that rewrite is recorded and not before |
| SseStreamLaws.FrameTellsAll | clients/go/stream.go:166-258 | A decoded frame delivers itself, then choice by choice its text unless empty, its reasons that hold something, all its tools and its finish reason, each in order and under its index, and its usage last exactly when given |
| SseStreamLaws.DecodesIff | clients/go/stream.go:166-258 | A frame decodes exactly when it is an object without error and with choices, each shaped and indexed and none finished by an error, its usage readable, and the tool arguments within budget |
| SseStreamLaws.FailuresAreNamed | clients/go/stream.go:166-245 | What is malformed and what is the stream's own failure: a reported error by its category, an error finish, an overdrawn budget |
| SseStreamLaws.LinesAreFields | clients/go/stream.go:107-133 | A line is a name and, after its first colon, a value less one leading space; only data lines are kept |
| SseStreamLaws.EndFailsTheRun | clients/go/stream.go:90-106 | A body that breaks off, or has a line that cannot be held, fails a run that nothing ended before |
| CodexLaws.OtherFieldsStay | internal/server/codex_request.go:84-95 | The request streams and is not stored, the rejected fields are gone, and every field the passes are not about comes through |
| CodexLaws.ReasoningBecomes | internal/server/codex_request.go:23-51 | The client-local effort goes, an alias is replaced, a missing summary is auto and encrypted content is included where reasoning is asked for; all else of the reasoning object stays |
| CodexLaws.InputBecomes | internal/server/codex_request.go:52-87 | A text becomes one user message, nothing a message of dots; other items that are neither system nor developer stay in order, only assistant input text turning into output text |
| CodexLaws.InstructionsBecome | internal/server/codex_request.go:57-93 | The texts of the system and developer items, in order, stand before the instructions given; the default stands where nothing is left |
| CodexLaws.InstructionTextIs | internal/server/codex_request.go:137-158 | What a text, a list and an object speak |
| Strings.JoinIs | internal/server/codex_request.go:80-83 | Joining puts the separator between the parts and nowhere else |
| Strings.TrimSpaceIs | internal/server/codex_request.go:80-83 | Trimming takes blank ends off, and all of them |
| ClaudeRequest.RefusedIff | internal/server/claude_request.go:19-90 | A request is refused exactly for a system field that is neither a text nor a list of text blocks, or else for metadata that is neither an object nor null |
| ClaudeRequest.ClaudeBecomes | internal/server/claude_request.go:19-103 | The system blocks sent: those given behind a billing block and the identity, which are kept where given and written from the drawn values where not; and the user id given or drawn |
| DeepSeekRequest.ThinkingBecomes | internal/server/deepseek_request.go:35-75 | Thinking is off where the effort is none and else as reasoning.enabled says; its other fields, and all other fields, stay |
| DeepSeekRequest.MessagesFilledIff | internal/server/deepseek_request.go:89-115 | An assistant message without reasoning_content gets an empty one exactly when the request carries tools; no other message changes |
| InflightLaws.StartTells | internal/server/inflight.go:64-89 | A start counts one request, notes the model asked for and says both |
| InflightLaws.AcquireTells | internal/server/inflight.go:90-101 | A limited start is a start, or nothing once the limit is reached; a negative limit is none |
| InflightLaws.MarksTell | internal/server/inflight.go:102-131 | A stream counts one, a resolved model is noted, and both are said |
| InflightLaws.EndTells | internal/server/inflight.go:132-169 | An end releases one request and one stream, each if it is counted, says exactly that, and drops the entry with its last count |
| InflightLaws.LegsTell | internal/server/inflight.go:220-260 | A leg's start counts one, its end releases one if counted, and a leg passed over is said to be |
| InflightLaws.EmitTells | internal/server/inflight.go:64-70 | Emitting moves one waiting delta behind those emitted |
| PollerLaws.BeginsIff | internal/providerquota/poller.go:289-313 | A poll begins exactly when its provider is registered, idle and has waited a minute (forced, failed, or in use) or half an hour; only flag and time change |
| PollerLaws.TriggersIff | internal/providerquota/poller.go:347-368 | A trigger is a forced poll that in addition finds fewer than eight in flight |
| PollerLaws.FinishLeaves | internal/providerquota/poller.go:315-330 | At an unchanged generation the flag goes down, success decides the next wait, and the figures are kept unless they would replace available ones by none; else nothing changes |
| PollerLaws.RegisterBecomes | internal/providerquota/poller.go:122-140 | A new or changed supported provider is recorded under the next generation, all else kept |
| PollerLaws.UnregisterBecomes | internal/providerquota/poller.go:219-229 | Everything but the time of last use is forgotten, under the next generation |
| PollerLaws.ReconcileBecomes | internal/providerquota/poller.go:146-175 | The last entry that speaks for a provider registers it, and every other registered one goes |
| PollerLaws.ReconcileAccountBecomes | internal/providerquota/poller.go:177-217 | Of one account, unchanged providers stay as they are, changed ones start afresh with the header known so far, others are forgotten; other accounts stay |
| PollerLaws.MarksBecome | internal/providerquota/poller.go:91-117 | A header changes only the header and a mark only the time of last use |
| CooldownProofs.StatusIsSoonest | internal/server/cooldown.go:97-112 | The answer by name is an open window of that name that ends first, and of those the least id |
| CooldownProofs.RemovalsAreExact | internal/server/cooldown.go:114-148 | Each removal takes exactly its target, name or account |
| KeyRotation.SecretsMoveTogether | internal/store/secrets.go:406-442 | After any crash or error point no secret has changed or all are under the new key |
| KeyRotation.ConfiguredKeyRotates | cmd/tiller-router/main.go:279-320 | With a configured key the secrets move exactly when the database step is taken and succeeds |
| KeyRotation.RefusalRestoresTheKey | cmd/tiller-router/main.go:306-320 | Where the database refuses, master.key gets its key back and no secret changes |
| KeyRotation.NothingToRotate | cmd/tiller-router/main.go:247-284 | Without encrypted secrets or a key nothing is touched |
| SecretCipher.ParsesIff | internal/crypto/cipher.go:120-136 | A stored text parses exactly when it is the prefix, a twelve-byte nonce and, behind the next colon, the sealed bytes |
| SecretCipher.DecryptsTo | internal/crypto/cipher.go:120-144 | Plain text passes through, malformed text is refused, and the first key that opens decides |
| SecretCipher.EncryptsTo | internal/crypto/cipher.go:98-118 | The first key seals, in that form |
| SecretCipher.ParsesKeyIff | internal/crypto/keyfile.go:40-56 | A key text is a key exactly when, less blanks and the prefix, it is base64 for thirty-two bytes |
| SecretCipher.AadBytes | internal/crypto/cipher.go:146-161 | Each part stands behind its length in four bytes, the highest first |
| Base64.TestVectors | internal/crypto/cipher.go:107 | The test vectors of section 10 of RFC 4648 |
| KeyRotation.FailedWritesLeaveFiles | cmd/tiller-router/main.go:285-320 | A write that fails before it replaces its file leaves that file, and where the run stops then |
| ModelsDev.MergeFills | internal/providers/modelsdev.go:356-387 | A merge fills each field the provider left empty, and no other, from the fallback |
| CooldownProofs.WritesAreExact | internal/server/cooldown.go:53-85 | Listing and opening drop exactly the closed windows; a new window stands unless the target's own ends later |
| ChallengeStore.BeginLeaves | internal/identity/webauthn.go:84-104 | Beginning adds the ceremony and keeps the others that have not expired, all but one that expires first where the cap is reached |
| SseStreamLaws.WithinIff | clients/go/stream.go:89-112 | The budgets are kept exactly when no line is longer than a line may be, no frame costs more than a frame may, and all lines together no more than the body may |
| ActivityUpgradeProofs.RowsStayOnceBooted | internal/database/activity.go:340-439 | Once a boot has completed no later one changes a row, and rows written then stay as written |
| ActivityUpgradeProofs.LifeBoots | internal/database/activity.go:340-439 | What is written between boots leaves the schema to them |
| VerifyCacheLaws.MutationRuns | internal/auth/keys.go:359-402 | A mutation runs to its end: its row changes as told, its entries go and no others, loads in flight are outrun, and the mutex is held in between exactly if asked |
| VerifyCacheLaws.SectionsLeave | internal/auth/keys.go:329-402 | What invalidating an account or all takes, and what a sweep takes |
| VerifyCacheLaws.LookupLeaves | internal/auth/keys.go:252-270 | A lookup leaves an entry only under a grant |
| VerifyCacheLaws.OthersLeave | internal/auth/keys.go:247-313 | A new credential adds its row, and giving up ends nothing but the call |
| SessionRenewalLaws.LookupLeaves | internal/auth/keys.go:716-765 | A lookup leaves the entry only to a request that goes on with it, exactly if both ends lie ahead and the secret was presented |
| SessionRenewalLaws.PublishLeaves | internal/auth/keys.go:816-828 | Publishing grants exactly if no revocation came in between, under the later of the two expiries known, and leaves an entry of just that |
| SessionRenewalLaws.HitIsGranted | internal/auth/keys.go:716-765 | A live session in the cache, presented with its secret, is granted, even where the database refuses its renewal |
| SessionRenewalLaws.ReloadIsGranted | internal/auth/keys.go:716-814 | A request that lost its swap loads the row again and, if it is live, is granted without another renewal |
| SessionRenewalLaws.RevocationRuns | internal/auth/keys.go:913-943 | A revocation holds the mutex from its statement to its return; the rows it is about go unless the database refuses, their entries go anyway, no others do, and loads in flight are outrun |
| SessionRenewalLaws.RevokingExcludes | internal/auth/keys.go:921-943 | While a revocation holds the mutex nothing is looked up, granted, revoked or evicted |
| SessionRenewalLaws.OthersLeave | internal/auth/keys.go:686-714 | A session is created with a whole lifetime; eviction takes its entries; giving up ends nothing but the call |
| SessionRenewalLaws.PruneLeaves | internal/auth/keys.go:949-957 | Pruning takes exactly the rows past the cutoff, and no entry |
| UserSessionLaws.LookupLeaves | internal/identity/identity.go:954-1000 | A lookup leaves the entry only to a request that goes on with its copy, exactly if both ends lie ahead and the secret was presented |
| UserSessionLaws.PublishLeaves | internal/identity/identity.go:1046-1058 | Publishing grants exactly if no invalidation came in between, under the later of the two expiries known, and leaves an entry of just that copy |
| UserSessionLaws.HitIsGranted | internal/identity/identity.go:954-1000 | A live session in the cache, presented with its secret and not due for renewal, is granted from its copy |
| UserSessionLaws.RefusedRenewal | internal/identity/identity.go:954-1025 | A renewal the database refuses ends the request and changes nothing else |
| UserSessionLaws.ReloadIsGranted | internal/identity/identity.go:954-1045 | A request that lost its swap loads the row again and, if it finds a live session of an active user, is granted without another renewal |
| UserSessionLaws.ChangeRuns | internal/identity/account.go:154-185 | A change runs to its end: its users' rows move on, its cut takes their sessions' rows but the spared one's, its invalidation their entries but the kept one, and loads in flight are outrun |
| UserSessionLaws.SignOutRuns | internal/identity/identity.go:1060-1071 | Signing out takes the row unless the database refuses, the entry anyway, no others, and outruns loads in flight |
| UserSessionLaws.OthersLeave | internal/identity/identity.go:920-951 | A session is created for its user with a whole lifetime; eviction takes its entries; giving up ends nothing but the call |
| UserSessionLaws.PruneLeaves | internal/identity/account.go:479-490 | Pruning takes exactly the rows past the cutoff, and no entry |
| Dns.HeaderMeans | internal/dnsfallback/resolver.go:189-195 | QR marks a reply; truncation, success and name error decide |
| Dns.HeardIs | internal/dnsfallback/resolver.go:220-252 | The first message that answers the query is heard; over TCP only the very first message may be it |
| Dns.NothingHeard | internal/dnsfallback/resolver.go:220-252 | Where no message answers the query nothing is heard |
| Dns.BudgetIs | internal/dnsfallback/resolver.go:163-179 | A budget is the most an attempt may take within the timeout and an equal share of the time left |
| Dns.FallbacksInOrder | internal/dnsfallback/resolver.go:59-104 | A fallback goes behind all before it unless its address is there |
| Dns.ReadsIff | internal/dnsfallback/resolver.go:254-262 | A stream is a message exactly when its first two bytes are the length of what follows |
| Efforts.EffortOnTheWire | internal/providers/registry.go:754-789 | Ultra stands for the multi-agent effort if listed, else max, else the last other level; the client-local effort for nothing; any other for itself |
| Efforts.EffortsAreRanked | internal/providers/registry.go:230-265 | The known efforts come in their fixed order, before all others |
| ModelsDev.GapsAreFilled | internal/providers/modelsdev.go:314-339 | What each field the provider did not report is filled with |
| ModelsDev.CapabilitiesBecome | internal/providers/modelsdev.go:272-387 | The options a model ends up with: the usable entries in order, or its own with those of kinds it did not report |
| ChallengeStore.AnswersAreBegun | internal/identity/webauthn.go:106-119 | A completion answers only for a ceremony of its kind begun under its token less than ten minutes before, with the user who began it |
| ChallengeStore.CeremonyCompletes | internal/identity/webauthn.go:106-119 | And the first completion of the right kind in time finds its user, short of the cap |

## Left out

- HTTP handlers, JSON and CSV views, mail, HTML, configuration, plans and platform endpoints: plumbing around the modelled cores.
- SQL text, SQLite, WAL and fsync: rows, columns and ledger versions with atomic transactions stand for them, and a crash is a process crash.
- Hashers, AES-GCM, WebAuthn ceremonies, RSA and random tokens: a match is a parameter, an authenticated cipher is a pair of functions with its assumption stated per lemma, and selectors and ids are never drawn twice.
- Time as text: times are integers.
- Credentials: e-mail addresses, passwords, token expiry and secret comparison are not in the state; a call that fails one of those checks is a call that aborts. Token rows already used are absent, since no read sees them. Legal acceptance, mail enqueueing and passkey metadata are not modelled.
- The platform session cache of internal/identity, which repeats `SessionRenewal`.
- Cache sizes: maxEntries is taken to be at least one; with a cap of zero the eviction loop of the code would not end.
- Session caches: token rehashing and CSRF values; a request's clock reading is at most the wall clock's.
- ActivityUpgrade: columns that only carry values through, and indexes; the backfill theorem is about rows already in activity.db, since rows moved from the central database arrive after the backfill is recorded.
- ActivityMove: retention deletes, and the columns of a row beyond its identity, owner and content.
- The target snapshot of the tracker, which repeats the route snapshot.
- Inflight, poller and cooldown maps are keyed by identity tuples; the lemmas on joined keys justify that for NUL-free identities.
- Poller: provider adapters, credential hydration and snapshot contents are parameters of a poll's finish; the zero time is taken never to be a poll's time; the credential hook sets no header for the empty identity, since loading that provider fails (internal/server/quota.go:34-37).
- Cooldown: timestamps and origin details are numbers; identifiers are ordered numbers instead of strings.
- Stream: JSON parsing is a function parameter that yields the decoded wire record; the connection, its closing and request ids are not modelled.
- Requests: Go's case-insensitive field matching and duplicate keys; numbers keep their text; object fields are maps, so aliasing between nested objects and field order are not captured.
- Claude billing text: the version, build and hash after the prefix are one drawn string.
- ModelsDev.Merged: for an explicitly empty list with nothing to add the code returns a nil list and the model an empty one; enrichment leaves such lists alone and never asks.
- models.dev lookup by provider, laboratory and plain name, the dataset cache and provider discovery calls.
- DNS: sockets, the resolv.conf text and address parsing; a candidate's exchange is its reply and the time it takes.
- KeyRotation: the operator's sources for the new key, key parsing errors and removal errors; the database rotation either commits or reports an error, not both.
- OAuth exchanges, provider quota adapters, SMTP, and floating-point cost estimates.
