# A verified model of acs

acs launches coding agents in contained Sessions under saved Profiles. This project
models the parts of it whose correctness spans many functions, crashes or
interleavings, and proves what they promise.

**Named credentials** (Quarantine, CredentialStore, BindingProtocol, BindingInvariant,
BindingTheorems, BindingFinalization, BindingProgress, BindingFailures,
BindingCompletion, BindingRecovery, BindingLoss). Each named identity has an exclusive
lock, a provider record and a durable marker. An operation projects the record into a
private Session root and runs contained processes that can outlive acs. The marker and
the store are classes, method by method. The sequences of the executor are a
transition system: every durable effect is one step, and between any two steps the
owner may crash, a process may write its credential file or end, and other invocations
may wait. Marker writes may take effect and still report failure. The main theorems
are global: a live process is always named by the marker, credentials are never
orphaned, nothing but the captured generation changes, and a crash anywhere in
finalization leaves the same record as no crash, exactly unless a finalization
discards unseen a projection it had to store. An operation or recovery that nothing
fails ends with the record and the report its credential file calls for, one that
fails cleanly leaves nothing behind, and from every reachable world an operation can
succeed.

**The Profile builder** (SaveRuntime, BuilderModel, BuilderRun, BuilderTheorems,
BuilderSaver, BuilderPaths, BuilderStart, BuilderConfirmations, BuilderDrafts,
BuilderCommits). The screen machine is a value with the source's handlers; the save
gate and the panic latch are classes. A session interleaves keys, messages, save
commands, callbacks that commit, fail, panic or exit, signals and the shutdown of the
terminal.

**The authority manifest** (AuthorityManifest, AuthorityEncoder, AuthorityTheorems,
AuthorityPlan, AuthorityExplanation, AuthorityBags, AuthorityRequested,
AuthorityAdded, AuthorityRuntime, AuthorityShown, AuthorityEffect): the encoder
appends to a buffer in loops; a reader of the format shows that it is injective, and a
uniqueness theorem for sorts shows that order does not matter. The facts of a plan are
built from the plan that also holds its machine-local bindings; the manifest is shown
not to depend on those, and to depend on everything else in the plan. Each loop over
the intents or decisions of a plan appends one fact list an element; AuthorityPlan
gives those lists, and the loop that appends them is AuthorityExplanation.AddAll.

**Environment frames** (EnvironmentIntent, EnvironmentFrames, EnvironmentResolution,
EnvironmentResource): resolving a selection, and a bounded writer, reader and restore
over bytes.

**Smaller cores**: SignalSupervisor, ProviderSelection, ExchangeFile, ProfileDiff,
RestoreBindings, CategoryRegistry, CommonReferences, SurrogateScanner. ByteCoding,
Sorting and Options are shared.

## What the code does against what it says

- BuilderStart.OnlyCommittedExactly: a compact mutation builder stays on its cleared
  preview until the terminal stops. Enter, handled between Escape and the stop, or after
  the discard question that Escape may raise was declined, commits a preview without a
  save function: the session reports a creation without error although no callback ran.
  A builder has such a run exactly when its mutation is compact with a confirmation that
  can be typed, or when it edits without a saver. Profile rename and delete are compact
  (internal/cli/mutations.go:127-131).
- BindingFinalization.LossesDiffer: a read or verification that fails only once makes
  both finalizations discard the projection and then remove it
  (internal/codexauthresource/store.go:486-496, 579-590). The refreshed credential is
  then lost, where a crash at the same place would have let recovery store it.
- Quarantine.PreparedWithPermission: the marker operations admit a prepared marker with
  refresh permission; only the order of calls in the executor rules it out.
- SignalSupervisor.ResizeCanBlock: the supervisor's operations let a resize alone refuse a
  later reservation, after one that ended without a child. An execution reserves once
  and returns when its start fails (internal/executor/codex_execution.go:177,
  internal/executor/executor.go:1108, 1327-1331), so it meets only
  SignalSupervisor.FirstReservation, where a termination alone refuses.

## Steps of the protocol and their source

| step | source |
|---|---|
| inspect, load, create Session, publish, confirm, unpublish | internal/executor/codex_auth_binding.go:125-177, internal/codexauthresource/store.go:90-155 |
| protect, project, materialize | internal/codexauthresource/store.go:507-533, internal/executor/codex_execution.go:254-395 |
| advance, arm, mark pending, spawn, settle | internal/executor/codex_auth_contained.go:131-213, internal/executor/codex_execution.go:173-241 |
| version probe, then the command | internal/executor/codex_auth_login.go:121-173, internal/executor/codex_auth_status.go:76-97 |
| decide, permit, conclude, finalize, remove, unmark, release | internal/executor/codex_auth_binding.go:20-115, internal/executor/codex_auth_service.go:141-244, internal/executor/codex_execution.go:395-456 |
| settler | internal/executor/codex_auth_service.go:104-137 |
| recovery | internal/executor/codex_auth_binding.go:181-242 |
| logout | internal/codexauthresource/store.go:253-267 |

## Model

| member | source | states |
|---|---|---|
| BindingInvariant.NextKeepsInv | internal/executor/codex_auth_contained.go:131-213 | Every step of every actor (owner, settler, recovery, logout, contained process, crash) keeps the invariant that ties marker, Session roots, live process trees, record and each program location together. |
| BindingTheorems.LiveProcessIsNamed | internal/executor/codex_auth_contained.go:144-196 | In every reachable state a process tree that may be alive is named by the marker: same Session, its own challenge, cleanup pending, no refresh permission. |
| BindingTheorems.OnlyCapturedGenerationsChange | internal/codexauthresource/store.go:291-406 | Over every run a step changes or deletes a marker only if the acting owner, settler or recovery captured exactly that Session and challenge; without a marker it can only publish its own prepared one. |
| BindingTheorems.RootsAndRecordsChangeSafely | internal/executor/codex_auth_binding.go:181-242 | No step removes a Session root with a live process tree; over an existing marker no root is created; a record changes only while no tree is live, is created verified and over a marker, keeps its metadata, and is deleted only without a marker. |
| BindingTheorems.CredentialsAreNamed | internal/codexauthresource/store.go:90-110 | At every instant a root that holds credentials is the one the marker names, and while a marker exists no login, status, launch or logout is past its inspection. |
| BindingTheorems.MetadataIsStable | internal/codexauthresource/store.go:537-594 | Over all runs the metadata of a record never changes between its creation and its deletion. |
| BindingFinalization.NextOwes | internal/codexauthresource/store.go:465-503 | Every step, by whichever actor, leaves the record that finalization still owes the same, and leaves nobody about to remove what is owed exactly when it is not a finalization that discards a projection it could not see or verify. |
| BindingFinalization.FinalizationPays | internal/executor/codex_auth_binding.go:61-114 | A stretch of a run that starts with refresh permission, ends with the marker gone and never discards unseen what it owes leaves exactly the record that was owed at its start. |
| BindingFinalization.CrashEquivalence | internal/codexauthresource/store.go:465-594 | From any reachable state with refresh permission, the uncrashed continuation and any continuation with crashes and recoveries leave the same provider record, unless a finalization discards unseen what it had to store. |
| BindingFinalization.LossesDiffer | internal/codexauthresource/store.go:579-591 | From every state where a status or recovery finalization does not see a changed, verified projection, one continuation deletes the marker over the old record and another, that saw it, over the new one: the condition of crash equivalence is exact. |
| BindingLoss.UnseenRefreshIsLost | internal/codexauthresource/store.go:483-503 | For every record, every verified credential that replaces it and every reachable world without owner and marker, an operation comes without a failure to a finalization whose reading and misreading continuations end in different records. |
| BindingTheorems.HeldRecordWasLoaded | internal/codexauthresource/store.go:135-155 | The record an operation holds is the one stored at an earlier load of the same uninterrupted operation. |
| BindingTheorems.ReportsAreTrue | internal/executor/codex_auth_binding.go:20-115 | A discarded projection left the loaded record unchanged; a committed refresh replaced it by a verified credential under equal metadata; both with root and marker gone; a nil error implies one of the two. |
| BindingTheorems.LoginsAreTrue | internal/executor/codex_auth_service.go:141-244 | A login without error stored a verified record and left neither Session root nor marker. |
| BindingTheorems.RecoveriesAreTrue | internal/executor/codex_auth_binding.go:181-242 | A recovery that reports an outcome left neither the captured Session root nor the marker; a discarded projection left the record found when the recovery took the lock, and a refresh replaced it by a verified credential under equal metadata. |
| BindingTheorems.CommandsFollowAProbe | internal/executor/codex_auth_login.go:121-173 | Over every run no operation contains its own process before the version probe of the same operation ran and was accepted. |
| BindingTheorems.UncertainPublicationIsKept | internal/executor/codex_auth_binding.go:143-160 | A publication that took effect but reported failure, once the Session is protected, keeps root and marker until the operation returns an uncertain result. |
| BindingProgress.OperationsSucceed | internal/executor/codex_auth_service.go:141-244 | Every login, status or launch of every run that finds no marker, and whose own calls all succeed, returns without root and marker: a login with the verified credential its command left as the record, the others with their record or the refreshed credential of the same identity, and each with the report that says so. |
| BindingFailures.FailuresAreClean | internal/executor/codex_auth_contained.go:131-198 | Every operation of every run whose calls succeed but for one that fails without leaving anything uncertain returns the error of that failure over the record it found, with neither root nor marker. |
| BindingCompletion.OperationsComplete | internal/executor/codex_auth_service.go:141-244 | From every reachable world without owner and marker, every operation has a continuation in which nothing fails, its command leaves any given credential, and it ends with the record and report that credential calls for. |
| BindingRecovery.RecoveriesSucceed | internal/executor/codex_auth_binding.go:181-242 | A recovery that nothing fails leaves the record that the file in the quarantined root called for when it took the lock, without root and marker, and reports what it did. |
| BindingRecovery.RecoveriesComplete | internal/executor/codex_auth_binding.go:181-242 | From every reachable world without owner whose marker is not a pending one without a cleanup proof, a recovery has a continuation in which nothing fails, and ends so. |
| BindingRecovery.SettlementsSucceed | internal/executor/codex_auth_service.go:104-137 | A settlement that nothing fails makes exactly its own pending generation recoverable and gives the lock back. |
| BindingRecovery.UnprovenCleanupsAreSettled | internal/executor/codex_auth_service.go:104-137 | From every world where a running process tree outlives its bounded cleanup, the settler left behind makes the marker recoverable once the tree ends, without any other invocation. |
| BindingRecovery.LogoutsSucceed | internal/codexauthresource/store.go:253-267 | A logout that nothing fails deletes the record of an unmarked identity, and changes nothing for a marked one. |
| CredentialStore.VerdictsAreTruthful | internal/codexauthresource/store.go:465-594 | Status and recovery finalization leave the record alone or leave the verified projection under the old metadata, agree on the record, and their dispositions say which; only an uncertain write leaves it open; each reports no error exactly in the stated cases. |
| CredentialStore.FinalizedIdempotent | internal/codexauthresource/store.go:465-503 | Finalizing again after the replacement took effect changes nothing. |
| CredentialStore.GuardedTouchesOwnGeneration | internal/codexauthresource/store.go:291-406 | Whatever fails, a binding changes or deletes a marker only if it is the generation it captured; a stale binding is refused. |
| CredentialStore.GuardedSucceedsExactly | internal/codexauthresource/store.go:291-406 | A marker update succeeds exactly when nothing fails, the marker is the captured generation and its phase admits the update, and then leaves exactly that update of it. |
| CredentialStore.UncertainAdvanceStrandsBinding | internal/codexauthresource/store.go:342-354 | After an advance that took effect but reported failure, every later call of that binding is refused and leaves the marker alone. |
| CredentialStore.WaitingRecoveryKeepsItsGeneration | internal/codexauthresource/store.go:159-214 | A recovery that waited captures only the recoverable generation it first saw; any other marker ends it with the generation-changed error. |
| CredentialStore.AcquireRecovery | internal/codexauthresource/store.go:159-214 | The retry loop computes the specified outcome of its polls, in order, until the lock is free or broken or the context ends. |
| CredentialStore.Store.Acquire | internal/codexauthresource/store.go:90-110 | The lock is taken exactly when it is free and, unless markers are allowed, no marker exists; otherwise it is given back. |
| CredentialStore.Store.AcquireLogin | internal/codexauthresource/store.go:114-131 | A login binding exists exactly for an unlocked, unmarked identity without a record. |
| CredentialStore.Store.AcquireStatus | internal/codexauthresource/store.go:135-155 | A status or launch binding exists exactly for an unlocked, unmarked identity with a record, and holds that record. |
| CredentialStore.Store.Logout | internal/codexauthresource/store.go:253-267 | A record is deleted only under the lock and without a marker; other identities are untouched. |
| CredentialStore.Binding.PublishPrepared | internal/codexauthresource/store.go:278-289 | The generation is captured, then the marker is created without replacing one. |
| CredentialStore.Binding.CurrentGeneration | internal/codexauthresource/store.go:291-308 | Returns the marker exactly when it is the captured Session and challenge in an admitted phase. |
| CredentialStore.Binding.Published | internal/codexauthresource/store.go:313-325 | Says whether the captured generation is the prepared marker on disk. |
| CredentialStore.Binding.Mark | internal/codexauthresource/store.go:329-373 | MarkCleanupPending, MarkRefreshAllowed and MarkRecoverable: generation check, then the update, other names untouched. |
| CredentialStore.Binding.AdvanceCleanupChallenge | internal/codexauthresource/store.go:342-354 | The binding takes the new challenge exactly when the update reported success. |
| CredentialStore.Binding.SettlePending | internal/codexauthresource/store.go:379-397 | The settler takes its own lock and may move only its own pending generation to recoverable. |
| CredentialStore.Binding.DeleteMarkerAfterProjectionRemoval | internal/codexauthresource/store.go:399-407 | Deletes the marker only if it is the captured generation. |
| CredentialStore.Binding.CommitLogin | internal/codexauthresource/store.go:537-560 | The exact record and error of a login commit: created only over an own recoverable generation, from a verified credential, never replacing. |
| CredentialStore.Binding.FinalizeStatus | internal/codexauthresource/store.go:564-594 | The exact record, disposition and error of status finalization behind its guards. |
| CredentialStore.RecoveryBinding.DeleteMarkerAfterProjectionRemoval | internal/codexauthresource/store.go:448-463 | Deletes exactly the captured marker; an absent one counts as deleted; any other is left alone. |
| CredentialStore.RecoveryBinding.FinalizeRecovery | internal/codexauthresource/store.go:465-503 | The exact record, disposition and error of recovery finalization behind its guards. |
| Quarantine.UpdatesOnlyAdvance | internal/codexauthresource/quarantine.go:210-315 | No sequence of marker updates, whatever fails, moves a marker to another Session, withdraws refresh permission, or leaves the recoverable phase. |
| Quarantine.PreparedWithPermission | internal/codexauthresource/quarantine.go:218-315 | One update reaches a prepared marker with refresh permission exactly when it is an accepted advance of a permitted cleanup-pending marker whose rename takes effect. |
| Quarantine.FileQuarantine.Inspect | internal/codexauthresource/quarantine.go:129-157 | Reads the marker of a name, or reports that it is unavailable. |
| Quarantine.FileQuarantine.Create | internal/codexauthresource/quarantine.go:159-208 | Creates a marker without replacing one; an error after the rename leaves it in place. |
| Quarantine.FileQuarantine.Update | internal/codexauthresource/quarantine.go:247-315 | Mutates the marker of one name through the update; an error after the rename leaves the new marker in place. |
| Quarantine.FileQuarantine.Delete | internal/codexauthresource/quarantine.go:317-331 | Removes the marker of one name; an error of the directory synchronisation leaves it removed. |
| Quarantine.FileQuarantine.FindBySession | internal/codexauthresource/quarantine.go:73-122 | The bounded scan answers the only match, refuses two matches, and answers nothing past an unusable entry. |
| BuilderTheorems.OutcomesAreTrue | internal/builder/model.go:493-596 | Over every interleaving: all callbacks have ended; one that committed is the last and the result carries its draft and path with a nil or Committed error; one that ended unknown makes the result an error with no outcome; a cancellation without error means only ordinary failures. |
| BuilderTheorems.NoSaveAfterAnOutcome | internal/builder/model.go:208-232 | A callback that committed or ended unknown is the last one ever started, and its result stands. |
| BuilderTheorems.NothingAfterReturn | internal/builder/save_runtime.go:29-46 | Once the session has returned no callback starts and no result changes. |
| BuilderTheorems.NoSaveAfterAStop | internal/builder/save_runtime.go:29-46 | After a signal, a panic or the shutdown of the terminal no callback starts, whatever keys and commands were under way. |
| BuilderTheorems.OneSaveAtATime | internal/builder/model.go:408-430 | At most one save is in flight, and while it is, Ctrl+C finds a cancel function. |
| BuilderSaver.CreationsAreCommitted | internal/builder/model.go:550-575 | From a model where every save has a saver or a confirmation that cannot be typed, a creation reported without error is the last callback's, committed, with its draft and path. |
| BuilderStart.OnlyCommittedExactly | internal/builder/mutation.go:34-160 | For every builder the program starts, all finished runs report only committed creations exactly when the builder has a saver or chooses one, or its mutation is not compact, or its confirmation cannot be typed. |
| BuilderStart.UnsafeReportsUnsaved | internal/builder/mutation.go:85-160 | Every other builder has a run that reports a creation no callback made: for a compact mutation, read the preview, type the name, leave with Escape, decline the discard question if it is asked, and press Enter before the terminal stops. |
| BuilderCommits.BuildersCommit | internal/builder/model.go:408-425 | Every builder that can save has a run with one callback that commits the draft an editor or the creation screen answered, or the given draft where nothing can be edited, and reports it with the callback's path. |
| BuilderRun.NextKeepsInv | internal/builder/model.go:171-269 | Every delivered message, command, callback end, panic, signal and shutdown step keeps the invariant of a session. |
| BuilderRun.UpdateEffect | internal/builder/model.go:171-269 | One update is a caught panic, a refusal after the end, or a move that starts a save only from an idle screen and never leaves a saving one but through its completion. |
| BuilderDrafts.AttemptsCarryTheConfirmedDraft | internal/builder/model.go:408-425 | Over every run, every save callback was given the draft shown at the update that issued it, the previewed draft on a mutation preview and the edited one elsewhere, and a key that confirms it issued it. |
| BuilderDrafts.UpdateDrafts | internal/builder/model.go:284-358 | One update changes the draft only to what an open editor, the creation screen or a reload answers, or to the previewed draft. |
| BuilderDrafts.EditsAreKept | internal/builder/model.go:335-358 | Whatever key an open editor handles, its draft becomes the draft of the model. |
| BuilderConfirmations.SavesAreConfirmed | internal/builder/mutation.go:85-160 | One update issues a save only for a key that confirms what the screen shows; on a mutation preview only after it was read to its end, its warning acknowledged and its confirmation typed. |
| BuilderConfirmations.UpdateGuarded | internal/builder/model.go:445-463 | One update acknowledges a warning, enters a preview or cancels only as it may: previews start unread, a conflict is not retried, and no edit is dropped without the question being accepted. |
| BuilderDrafts.CancellationsWereAsked | internal/builder/model.go:445-463 | Over every run a session that ends as cancelled was cancelled over an unchanged draft, by accepting the discard question, or on the creation screen. |
| BuilderDrafts.WarningsWereAcknowledged | internal/builder/mutation.go:120-125 | Over every run an acknowledged warning was acknowledged by the user, on the preview of the same draft, read to its end. |
| BuilderConfirmations.SavesCanBeCancelled | internal/builder/model.go:208-245 | Ctrl+C during a save and the completion after it: an ordinary cancellation ends the session or asks about lost edits, and a commit is reported as the creation it is. |
| BuilderConfirmations.ReloadsReplaceTheDraft | internal/builder/mutation.go:189-236 | After a conflict, reloading replaces the draft and what counts as unchanged, requires every category to be loaded again, and prepares a compact mutation anew. |
| BuilderConfirmations.CategoriesLoadOnce | internal/builder/model.go:171-206 | A category is loaded before it is edited, whatever else completes meanwhile, and then opens at once. |
| BuilderRun.SaveEndedHandles | internal/builder/model.go:208-232 | A completion is handled by what the transaction reported: committed quits with its outcome, uncertain quits with the error, ordinary failures alone let the user go on. |
| SaveRuntime.CancellationHidesNothing | internal/builder/model.go:577-596 | An error suppressed as cancellation only carries no other error in any branch. |
| SaveRuntime.CancellationOnlyExactly | internal/builder/model.go:577-596 | An error is suppressed exactly when every branch of it ends in a cancellation. |
| SaveRuntime.UncertainExactly | internal/builder/model.go:211-217 | Whether the user may go on is decided by the first transaction of the error, in depth-first order. |
| SaveRuntime.SettleRuntime | internal/builder/model.go:550-575 | The outcome and error are decided from the settled attempt after the gate is closed. |
| SaveRuntime.Gate.Admit | internal/builder/save_runtime.go:29-40 | A closed gate starts no callback; an open one makes the new attempt current. |
| SaveRuntime.Gate.Complete | internal/builder/save_runtime.go:39-68 | The result is stored before the attempt is done; a callback without an outcome leaves an unknown one. |
| SaveRuntime.Gate.Acknowledge | internal/builder/save_runtime.go:73-86 | Only an ordinary failure of the current attempt is dropped. |
| SaveRuntime.Gate.Stop | internal/builder/save_runtime.go:88-98 | Closes the gate and names the attempt to settle. |
| SaveRuntime.PanicLatch.Record | internal/builder/panic_runtime.go:18-27 | The first record closes the gate and sets the latch; later ones do nothing. |
| AuthorityTheorems.ManifestIdentifies | internal/authority/plan.go:716-817 | Two manifests are the same bytes exactly when version, overlay, recipe and, section by section, the multisets of facts are the same, up to MCP lists of facts without the MCP flag. |
| AuthorityTheorems.OrderDoesNotMatter | internal/authority/plan.go:502-537 | Any permutation of the appended facts, under any sort by the comparator, gives the same bytes. |
| AuthorityTheorems.LessIsAnOrder | internal/authority/plan.go:522-528 | The comparator is a strict weak order that ties only facts of equal encoding. |
| AuthorityManifest.FactRoundTrip | internal/authority/plan.go:716-790 | A reader recovers a fact from its encoding, although three blocks are optional and carry no presence flag. |
| AuthorityManifest.ManifestRoundTrip | internal/authority/plan.go:792-817 | A reader recovers versions, names and every section of a manifest. |
| AuthorityEncoder.CanonicalFactEncoding | internal/authority/plan.go:716-790 | The buffer-appending encoder writes the specified bytes of a fact. |
| AuthorityEncoder.CanonicalManifest | internal/authority/plan.go:792-817 | The buffer-appending encoder writes the specified bytes of a manifest. |
| AuthorityExplanation.BuildExplanation | internal/authority/plan.go:502-537 | The facts of every part of a plan, appended in order and sorted by an unspecified sort, give the one manifest of the plan. |
| AuthorityExplanation.ManifestIsPublic | internal/authority/plan.go:539-678 | Plans that differ only in the authentication reference, the target's paths, the host paths and names of grants and exclusions, or the host names and references of environment values have the same manifest. |
| AuthorityShown.ManifestShowsExactly | internal/authority/plan.go:502-710 | With the same contributions two plans have the same manifest exactly when every field that shows is the same up to the order of lists: accesses, grants, exclusions, executables, environment entries, binding source, decisions, requirements, command, version and runtime. |
| AuthorityEffect.GrantAdds | internal/authority/plan.go:582-601 | One more path grant adds its request, and takes effect unless it is in the workspace and read-only or the workspace is writable; nothing else changes. |
| AuthorityEffect.ExclusionAdds | internal/authority/plan.go:603-616 | One more exclusion adds its request and its effect, both denied, and nothing else. |
| AuthorityEffect.ExecutableAdds | internal/authority/plan.go:558-580 | One more executable adds its request, and takes effect unless it is in the workspace; nothing else changes. |
| AuthorityEffect.IntentAdds | internal/authority/plan.go:539-556 | One more environment entry adds its request and its effect, with destination and requirement, and nothing else. |
| AuthorityEffect.DecisionAdds | internal/authority/plan.go:631-637 | One more configuration decision is added by the target, and listed as not supported exactly when it turns off apps, plugins or MCP. |
| AuthorityExplanation.OverrideIsVisible | internal/authority/plan.go:340-352 | An override for one run and an overlay reference give different manifests exactly when the target authenticates. |
| EnvironmentFrames.FramesAreLeases | internal/environmentresource/resource.go:118-197 | Bytes are read successfully, with these entries and this rest, exactly when they are the frame of an admitted lease apart from the intrinsic names, followed by the rest. |
| EnvironmentFrames.LeaseRoundTrip | internal/environmentresource/resource.go:118-219 | An admitted lease written, read back and restored is the same lease, values with equals signs included. |
| EnvironmentFrames.FrameRoundTrip | internal/environmentresource/resource.go:150-219 | What any read accepted restores to a lease whose frame is the bytes it consumed, within the aggregate limit. |
| EnvironmentFrames.RestoreInvertsLines | internal/environmentresource/resource.go:201-219 | Lines restore exactly when they are the lines of an admitted lease, and restore that lease. |
| EnvironmentResolution.ResolvesExactly | internal/environmentresource/resource.go:45-95 | A selection resolves exactly when it is acceptable and every secret and every required host entry has a value, none with a NUL or too long, and all within the aggregate limit. |
| EnvironmentResolution.RefusalIsTheFirst | internal/environmentresource/resource.go:59-88 | A refusal carries the error of the first entry, by ID, up to which the host cannot fill the selection. |
| EnvironmentResolution.ResolvedIsAdmitted | internal/environmentresource/resource.go:45-88 | A resolved lease is admitted and holds exactly the selected destinations the host has values for, a host variable under its name and a secret under its reference; only optional host entries are absent. |
| EnvironmentResolution.ResolveIgnoresOrder | internal/environmentresource/resource.go:45-88 | The order of the intents changes neither the lease nor the error. |
| EnvironmentResource.Resolve | internal/environmentresource/resource.go:45-88 | Fills a lease by the specification; a refusal gives its error and no lease. |
| EnvironmentResource.Lease.WriteFrame | internal/environmentresource/resource.go:118-148 | Writes the frame of an active lease; a failing stream has taken the prefix it had room for; a released lease writes nothing. |
| EnvironmentResource.ReadFrame | internal/environmentresource/resource.go:150-197 | Reads a frame entry by entry as specified, without a negative remainder. |
| EnvironmentResource.Restore | internal/environmentresource/resource.go:201-219 | Builds an active lease from lines exactly when the specification accepts them. |
| EnvironmentResource.Lease.Release | internal/environmentresource/resource.go:221-236 | Zeroes and drops every owned buffer, once. |
| EnvironmentIntent.Canonical | internal/environmentintent/schema.go:155-194 | The checking loops and the sort compute the canonical selection, or refuse. |
| EnvironmentIntent.CanonicalIdempotent | internal/environmentintent/schema.go:155-194 | A canonical selection holds exactly the given entries in order and is its own canonical form. |
| EnvironmentIntent.CanonicalIgnoresOrder | internal/environmentintent/schema.go:155-194 | The canonical form depends on the multiset of entries alone. |
| SignalSupervisor.PreflightTerminationBlocks | internal/executor/executor.go:1189-1255 | A termination handled in preflight cancels it and makes every later reservation fail; nothing is delivered after it. |
| SignalSupervisor.ReservationReplays | internal/executor/executor.go:1211-1280 | Signals handled during a reservation are replayed to the child that starts: the last termination, else a resize. |
| SignalSupervisor.ChildHearsEverySignal | internal/executor/executor.go:1189-1230 | In every trace, from the start of a child to the next cleanup or start, each handled signal is delivered to it, in order, and nothing else is sent, printed or ended. |
| SignalSupervisor.OwedIsTheLastTermination | internal/executor/executor.go:1211-1221 | What is replayed is the last termination, which no resize erases and only a later termination supersedes. |
| SignalSupervisor.CleanupOnlyExits | internal/executor/executor.go:1189-1209 | In cleanup nothing is newly forwarded, the first termination prints the notice, and each from the second on forces the exit. |
| SignalSupervisor.RefusedExactly | internal/executor/executor.go:1189-1293 | In every trace of a new supervisor a reservation is refused exactly when no child was started and, before any cleanup, a termination was handled or a resize was handled during a reservation. |
| SignalSupervisor.FirstReservation | internal/executor/executor.go:1107-1117 | A first reservation is refused exactly when a termination was handled before it and before any cleanup. |
| SignalSupervisor.ResizeCanBlock | internal/executor/executor.go:1211-1265 | The trace reserve, resize, failed start, reserve of a new supervisor ends with a refused reservation. |
| SignalSupervisor.Supervisor.HandleSignal | internal/executor/executor.go:1189-1230 | The exact effect of one signal on the supervisor and on what it sends, prints or ends. |
| SignalSupervisor.Supervisor.ReserveInteractive | internal/executor/executor.go:1241-1249 | Reserves exactly when no signal is pending. |
| SignalSupervisor.Supervisor.StartReserved | internal/executor/executor.go:1257-1278 | Ends the reservation, replays the pending signal to a started child, and says whether the child runs. |
| SignalSupervisor.Supervisor.BeginCleanup | internal/executor/executor.go:1287-1293 | Drops the child and the reservation and enters cleanup. |
| ProviderSelection.SuccessesAgree | internal/codexauthresource/provider_selection_linux.go:67-127 | Through racing writers, crashes and power losses, all calls that return without error asked for the same identifier, and it stays stored. |
| ProviderSelection.WriteOnce | internal/codexauthresource/provider_selection_linux.go:67-127 | A visible selection never changes short of a power loss before it was synchronised; a durable one never changes. |
| ProviderSelection.NeverPartial | internal/codexauthresource/provider_selection_linux.go:83-107 | A visible selection is what was there at first or a whole document. |
| ProviderSelection.CallsAnswer | internal/codexauthresource/provider_selection_linux.go:67-127 | From every world a call has a continuation in which nothing fails: without a stored document it stores and synchronises its own and succeeds; over one it succeeds exactly when that decodes to its identifier, and otherwise says why not. |
| ExchangeFile.Publish | internal/exchangefile/publish.go:45-149 | Published holds exactly when nothing prevented the exclusive rename, and then the destination holds precisely the data; otherwise it is untouched and a leftover temporary is an error; no error implies published. |
| ExchangeFile.Commit | internal/exchangefile/publish.go:126-148 | The publish step and the durability attempted after it. |
| ExchangeFile.WriteTemporary | internal/exchangefile/publish.go:96-119 | Write, synchronise and close the temporary, with a hook before and after each. |
| ProfileDiff.DiffFacts | internal/cli/profile_history.go:443-480 | The loops, for any order of keys, compute the three sorted lists of a diff. |
| ProfileDiff.DiffReconstructs | internal/cli/profile_history.go:443-480 | Outside the changed keys, the facts of b are those of a without the removed and with the added ones. |
| ProfileDiff.ChangedKeys | internal/cli/profile_history.go:443-480 | A changed key has exactly one fact on each side, and they differ. |
| ProfileDiff.EmptyDiff | internal/cli/profile_history.go:443-480 | The three lists are empty exactly when both sides have the same facts. |
| RestoreBindings.Candidate.PreserveCurrentRestoreBindings | internal/cli/profile_history.go:783-984 | The in-place edit replaces every reusable local binding, keeps the rest, and says whether any is still needed. |
| RestoreBindings.NothingHistoricalSurvives | internal/cli/profile_history.go:783-984 | When nothing is needed, every Skill source, local binding and overlay reference is the current Profile's, and portable fields are unchanged. |
| RestoreBindings.PreservingIsIdempotent | internal/cli/profile_history.go:783-984 | Applying it again changes nothing and needs the same. |
| RestoreBindings.NeededExactly | internal/cli/profile_history.go:783-984 | A binding is needed exactly when current has no or several sources for a Skill path, no last entry of a local entry's ID with its shape, or no overlay where the historical one has a reference; where current has one, it is reused. |
| RestoreBindings.Sources | internal/cli/profile_history.go:792-807 | The table with its ambiguity set gives a path a source exactly when all its listings agree. |
| CategoryRegistry.Normalize | internal/category/registry.go:431-479 | Accepts exactly the candidates of supported version, known names, convertible payloads and admitted references, and gives their normal form. |
| CategoryRegistry.AcceptedExactly | internal/category/registry.go:431-479 | A candidate is accepted exactly when its version and names are known and it stands for selections that pass every check, an absent optional capability for its empty one; its normal form holds each of them encoded. |
| CategoryRegistry.NormalizeIsIdempotent | internal/category/registry.go:431-479 | Normalizing fills every registered capability and no other, and is idempotent under the codec laws. |
| CategoryRegistry.DraftRoundTrip | internal/category/registry.go:283-417 | The Profile made of a draft is its own normal form, is accepted exactly when the clone is admitted, and seeds the cloned draft. |
| CommonReferences.EnvironmentCodecIsLawful | internal/environmentintent/schema.go:80-194 | As registered, over any JSON pair that reads back what it wrote, the environment codec encodes exactly the admitted selections, decodes them to their canonical form, and obeys the codec law. |
| CommonReferences.CommonIsLawful | internal/commonprofile/mcp.go:95-131 | A registry of the common capabilities is lawful: rereading selections through their codecs changes no MCP reference check, whatever order the environment entries had. |
| CommonReferences.ValidateReferences | internal/mcpintent/schema.go:214-265 | The loops accept exactly when every reference of every server leads to a selected entry and no secret reaches its arguments. |
| CommonReferences.ReferencedExactly | internal/mcpintent/schema.go:214-265 | Among entries of distinct IDs a server's references hold exactly when each leads to a selected entry and its arguments take paths and environment entries only from its own lists, and only non-secret ones. |
| SurrogateScanner.ScannerAgrees | internal/instructions/model.go:148-192 | On every well-formed JSON text the byte scanner is true exactly when every surrogate escape is half of a high-then-low pair (section 7 of RFC 8259). |
| SurrogateScanner.ValidJSONSurrogateEscapes | internal/instructions/model.go:148-192 | The index loops stay in bounds, end, and compute the scan. |
| SurrogateScanner.HexIsSpelled | internal/instructions/model.go:163-176 | Four bytes have a value exactly when they spell it in base 16 in any mixture of cases, and none exactly when one of them is no digit. |
| CredentialStore.Binding.Release | internal/codexauthresource/store.go:408-416 | Gives the identity lock back once and forgets the credential; the generation stays for the settler. |
| CredentialStore.RecoveryBinding.Release | internal/codexauthresource/store.go:418-427 | Gives the identity lock back once. |
| SignalSupervisor.Supervisor.CancelInteractiveReservation | internal/executor/executor.go:1251-1255 | Ends a reservation and keeps what is pending. |
| RestoreBindings.PreserveSkills | internal/cli/profile_history.go:787-821 | Every Skill with one current source takes it; the rest are needed. |
| RestoreBindings.PreserveEntries | internal/cli/profile_history.go:826-973 | Every local entry takes the binding of the current entry of its identifier and shape; the rest are needed. |
| RestoreBindings.PreserveOverlays | internal/cli/profile_history.go:975-982 | Every overlay takes the current reference; one with a reference and no current overlay is needed. |
| SurrogateScanner.ScanString | internal/instructions/model.go:153-188 | The inner loop gives a verdict or the position behind the closing quote. |
| SurrogateScanner.ScanEscape | internal/instructions/model.go:157-186 | One escape gives a verdict or the position behind it, in bounds. |
| ProfileDiff.FindChanged | internal/cli/profile_history.go:468-474 | For any order of keys, finds the changed keys and drops their facts from both lists. |
| ProfileDiff.DeletePrefixed | internal/cli/profile_history.go:471-472 | Deleting by the prefix of a key deletes exactly the facts of that key. |
| EnvironmentResource.ReadOne | internal/environmentresource/resource.go:169-194 | One entry is read or refused as specified; the aggregate never exceeds its limit. |
| EnvironmentResource.SeenNames | internal/environmentresource/resource.go:159-166 | The intrinsic assignments give their names, or are refused. |
| AuthorityEncoder.Encoder.PutFacts | internal/authority/plan.go:804-811 | A section is its count and each fact under its length. |
| CategoryRegistry.ConvertAll | internal/category/registry.go:441-471 | Every registered capability is converted, in order, or the candidate is refused. |

## Left out

- BindingTheorems.LiveProcessIsNamed: one identity at a time, because identities share no marker, record, lock or Session; the product of independent copies is not written out.
- BindingRecovery.RecoveriesComplete: that a continuation exists is stated, not that every schedule takes it; a pending marker whose process tree is never proven over stays.
- The guard lock of a Session (internal/session is not part of this model): a recovery's refusal to take a lease is a free choice, and no theorem relies on when it refuses. Session roots are created with recovery protection, so a failed protection check is a free choice too.
- A Session removal may succeed, fail after removing, fail and keep the root with or without its credential file, or report success while a prepared process still retains the lease; which one is a free choice.
- Fresh Session names and challenges are distinct from earlier ones; whether a credential verifies is a fixed function, which one call may fail to evaluate; expiry is such a failure of every later call; a cleanup proof is given only for a challenge whose process tree is over.
- BindingFinalization.CrashEquivalence: the executor sequences are steps of a transition system rather than methods, because other actors act between any two of them.
- CredentialStore.Binding.FinalizeStatus: the projected credential file and the protection of its root are read once and passed in; clearing of byte buffers is not modelled.
- Quarantine.FileQuarantine.Update: the JSON form of a marker, its version and name fields, file modes and the pinned directory are not modelled; a failure is placed before or after the rename.
- AuthorityTheorems.ManifestIdentifies: SHA-256 is left out; the bytes are those before the digest, and a manifest is shorter than a Go slice can be.
- AuthorityExplanation.BuildExplanation: how a plan gathers its intents from its contributions (internal/authority/plan.go:262-329) is left out; a contributed capability describes itself by a given function of the overlay.
- EnvironmentResolution.ResolvedIsAdmitted: intents arrive in the form of selection entries; the JSON decoder of a selection is not part of this model.
- EnvironmentResource.Lease.Release: the mutex of a lease is not modelled; each method is one step.
- BuilderRun.NextKeepsInv: editors, rendering, discovery contents and the text of a preview are answers from outside; a command returned by an editor never asks the terminal to stop; the cancellation of a context is not modelled beyond the gate.
- BuilderTheorems.OutcomesAreTrue: a callback that never returns blocks settlement, so nothing is claimed about a session that does not finish.
- ExchangeFile.Publish: the path checks before the temporary is created are one point that may fail; no other process writes into the directory meanwhile; the write stores a prefix of the data.
- ProviderSelection.SuccessesAgree: directory creation, ownership and mode checks are a read or create that fails; the decoder is any function that decodes the two documents and nothing unsupported.
- RestoreBindings.Candidate.PreserveCurrentRestoreBindings: selections are given decoded, so a failing codec, and the canonical order that encoding again gives them, are left out; the four kinds of entries share one shape of identifier, compared fields and binding.
- BuilderStart.OnlyCommittedExactly: confirmations and typed text are ASCII, so that a character is a byte; each builder is started in one of the three ways the adapters use, and the text of a preview has as many lines as the answers say.
- CommonReferences.CommonIsLawful: JSON is a given pair of functions; the codecs of executables, paths and MCP servers are given, with the law that rereading keeps identifiers and references.
- CategoryRegistry.Normalize: the selections of other capabilities are opaque values.
- SurrogateScanner.ScannerAgrees: JSON outside strings is any bytes without a quote; the decoder that rejects malformed text is not part of this model.
- System calls, Keychain, RSA and JWKS, sessionops recovery, the native sandboxes, the terminal program, category editors, doctor, check, help and self-update are not modelled.
