# Verified models of a local model gateway

Dafny models of the parts of the gateway whose correctness rests on an order of
writes, an interleaving of threads, or a search: the undo log behind linking and
unlinking an agent, the lifecycle of the native TypeScript client, the account
pool, and a handful of smaller algorithms. `dafny verify dfyconfig.toml` checks
everything.

## The undo log of an agent link

A link or a sync backs up the files it will touch, writes an in-progress
manifest, and then saves, strips and rewrites, checkpointing a digest after each
tracked write. Manifests form a chain through their predecessors. An unlink
checks the whole chain against a simulated rollback, hands credentials back,
rolls files back from the newest manifest to the oldest, restores the agent's
binding, and marks the manifests from the oldest to the newest.

`MigrationDisk` has the stored state and its individual writes; a run is the list
of its writes and a crash keeps a prefix of that list. `Reconcile` and `Unlink`
give the list of writes of each run as a function of the state it starts from.
`MigrationMachine` is the code itself, loops that change the state in place,
proved to perform exactly those writes. The results are about every cut of every
run:

* `UnlinkInverts.UnlinkInvertsHistory`: any number of links and syncs, of an agent
  whose credentials move or of one that keeps copies, then one more cut at any
  write after its manifest; unlink then gives back the files, all bindings and all
  keys from before the first link, exactly unless the cut lies between a write
  that changed a file and its checkpoint. In that case it refuses and writes
  nothing.
* `MigrationRuns.CredentialsConserved`: over any history of links, syncs and
  unlinks from any number of agent homes, each cut anywhere, mixed with edits from
  outside, no home loses a provider it has a key for or is owed one of. Every link
  must be guarded: it replaces no account that a home is still waiting for.
  `Holdings.GuardIsExact` says that the cuts of a link keep everything exactly if
  it is; `HomesMatter.GuardIsAboutOpenAi` says that only OpenAI, whose account id
  depends on the kind of credential, can break it, and
  `HomesMatter.TwoHomesLoseAKey` is a history that does and loses a key.
* `UnlinkRetry.RetryOutcome`: an unlink cut anywhere and run again is accepted
  exactly if every file besides the shard is still what the newest manifest
  tracking it left there, and the binding likewise; it then ends in the disk the
  first run would have left. So it is refused once a file went back to something
  else. `reconcile.rs` says at line 898 that a retry can finish when marking an
  older manifest fails; `RetryLimits.RetryRefused` and
  `RetryLimits.FailedMarkIsFinal` show that it cannot, unless the links left the
  files as they were.
* `FileRollback.Preflight`: the simulation accepts exactly when the rollback is
  safe at every manifest.
* `LinkOutcome.LinkLeaves` and `LinkOutcome.ShardAfterLink`: everything a completed
  link leaves, file by file and account by account. `UnlinkDemands.UnlinkExactlyIf`
  and `UnlinkDemands.UnlinkSettles`: exactly when an unlink goes through, and what
  it leaves at every home; it fails closed when an owed source has no account.

The in-progress manifest is what makes a cut recoverable; a cut before it leaves
stray backup copies only (`UnlinkInverts.StrayBackups`).

## The native client

`Cancellation`, `ClientLifecycle` and `ClosableStream` are state machines with one
step per atomic access and lock transition. A schedule lets any number of calls
take their steps in any order, and each object is also a class whose methods take
one step in place. A close that loses the swap may return before the client is
drained; `ClientLifecycle.CloseDrainsExactly` says exactly when a returning close
has drained the client for good. `ClosingStreams` runs the client and the streams
of its operations together: once a close has won and nothing can move any more,
every stream was dropped, every operation has finished and the close has returned
(`ClosingStreams.ClosingDrains`). `LiveStream` is about reading without a
cancellation: the pair is put back after every item and given up only when the
stream fails or ends. `Admission` says who is refused and why, and that every call
ends.

## The account pool and the smaller algorithms

`AccountHandle`, `RoundRobin`, `Affinity`, `AccountPool`, `PoolAcquire`,
`RouteAcquire` and `SessionPool` follow an acquisition from health to session
affinity; `RoutePreference` says what a served route is worth in terms of what the
providers offer. `JsonGraph`, `LegacyPaths`, `GeneratedIds`, `AgentProfiles`, `ExactIds`,
`ReferenceRules` and `RouteResolver` are independent of the rest.
`AgentProfiles.EditedAgain` answers when regenerating profiles twice equals doing
it once; the exception is a rename that loses a user's own keys on the second run
(`AgentProfiles.SecondRunLosesKey`). `ProfileOutcome` gives the document after an
edit key by key, and when an edit is refused.

## Model

| member | source | states |
|---|---|---|
| UnlinkInverts.UnlinkInvertsHistory | crates/agent-migration/src/reconcile.rs:870-910 | after any links and syncs, with moved or copied credentials, and one more run cut at any write after its manifest, unlink succeeds exactly outside a gap between a changing write and its checkpoint; then files, every binding and every home's keys are as before the first link and no manifest is active; otherwise it writes nothing |
| UnlinkInverts.UndoCut | crates/agent-migration/src/reconcile.rs:1495-1563 | the same from any undoable state: one more run, cut at any write including its completion |
| UnlinkInverts.LinksKeepUndoable | crates/agent-migration/src/reconcile.rs:841-852 | completed links and syncs in a row keep everything undoable |
| UnlinkInverts.StrayBackups | crates/agent-migration/src/reconcile.rs:1448-1461 | a cut before the in-progress manifest changes nothing about what any unlink does |
| CutUnlink.CutUnlinks | crates/agent-migration/src/reconcile.rs:870-904 | unlinking a run cut anywhere does what unlinking its predecessors would have done before it, exactly if the rollback and the binding before it were safe and the cut is in no gap |
| CutUnlink.CutHandsOff | crates/agent-migration/src/reconcile.rs:1147-1236 | the credential handoff of that unlink never fails |
| CutUnlink.CutFiles | crates/agent-migration/src/reconcile.rs:1083-1145 | preflight at a cut holds exactly outside a gap and if it held before, and the rollback agrees with the one before up to the fresh backups |
| CutUnlink.TipHasNoSuccessor | crates/agent-migration/src/reconcile.rs:912-940 | the newest active manifest of a well-shaped log has no active successor |
| UnlinkRetry.RetryOutcome | crates/agent-migration/src/reconcile.rs:870-910 | an unlink cut anywhere and run again is accepted exactly if each non-shard file is what the newest manifest tracking it left and the binding what the newest manifest wrote or replaced; then it ends in the disk of the uncut unlink, otherwise it writes nothing |
| UnlinkRetry.SafeAgain | crates/agent-migration/src/reconcile.rs:1083-1132 | on any disk with the same backups, the preflight that accepted once accepts again exactly if the files stand |
| UnlinkRetry.RolledAlike | crates/agent-migration/src/reconcile.rs:1301-1328 | disks that agree in backups and untracked files are rolled back to the same files |
| UnlinkRetry.BindingAgain | crates/agent-migration/src/reconcile.rs:1330-1391 | the binding check accepts again exactly if the binding is what the newest manifest wrote or replaced, and leads to the same one |
| UnlinkRetry.HandsOverAgain | crates/agent-migration/src/reconcile.rs:1147-1236 | a handoff that went through goes through again, however much of it was granted and recorded |
| RetryLimits.RetryWhileMarking | crates/agent-migration/src/reconcile.rs:898-903 | while manifests are being marked a retry is accepted exactly if the files from before the first link are also what the newest manifests left |
| RetryLimits.RetryRefused | crates/agent-migration/src/reconcile.rs:898-903 | after any links the last of which changed the fragment, an unlink cut between two marks is refused from then on, its manifest still active; the comment there promises otherwise |
| RetryLimits.FailedMarkIsFinal | crates/agent-migration/src/reconcile.rs:898-903 | a link, a sync and an unlink that misses only its last mark: the retry is refused |
| UnlinkCuts.CutReaches | crates/agent-migration/src/reconcile.rs:892-903 | a cut unlink is still granting keys, or has granted all, done a part of the rollback, and marked the manifests below some name |
| UnlinkCuts.LogAdvanced | crates/agent-migration/src/reconcile.rs:898-903 | the log after a cut is the log before it with marks added |
| UnlinkCuts.LogBackupsApart | crates/agent-migration/src/manifest.rs:394-417 | no backup recorded in a log is itself a tracked file of it |
| MigrationRuns.CredentialsConserved | crates/agent-migration/src/reconcile.rs:1495-1554 | over every history of links, syncs and unlinks from any homes, each cut anywhere, mixed with outside edits, no home loses a provider it has a key for or is owed one of, if no link replaces an account a home is waiting for |
| MigrationRuns.UnlinkReturnsEverything | crates/agent-migration/src/reconcile.rs:1147-1236 | from a disk with nothing linked and after any such history, an unlink that completes leaves every home a key for each provider it had before the first link or held at any point since |
| MigrationRuns.OneHomeCovers | crates/agent-migration/src/reconcile.rs:1495-1554 | with one home no guard is needed: no provider with a credential at the agent or in the gateway's shard loses it |
| MigrationRuns.OneHomeReturns | crates/agent-migration/src/reconcile.rs:1147-1236 | with one home an unlink that completes leaves the agent a key for every provider that had a credential at any earlier point |
| Holdings.GuardIsExact | crates/agent-migration/src/reconcile.rs:1971-1997 | every cut of a planned link keeps what every home holds exactly if the import carries on an account of every source a home is still waiting for |
| Holdings.GuardElsewhere | crates/agent-migration/src/reconcile.rs:1937-1956 | over a shard of gateway-owned accounts that guard is about other homes only: no source owed there is imported under another id |
| Holdings.LinkHolds | crates/agent-migration/src/reconcile.rs:1495-1554 | a guarded link cut anywhere keeps what every home holds and the shape of the log |
| Holdings.UnlinkHolds | crates/agent-migration/src/reconcile.rs:870-904 | an unlink cut anywhere keeps what every home holds; a complete one leaves each home the keys themselves |
| Holdings.UnlinkReturns | crates/agent-migration/src/reconcile.rs:1205-1236 | after a complete unlink a home is without a source it was owed exactly if it was without it before and no imported account of the newest manifest is for it; so no home goes without exactly if each owed source is there or has such an account |
| Holdings.HandoffReturns | crates/agent-migration/src/reconcile.rs:1205-1236 | the same of the handoff alone |
| HomesMatter.TwoHomesLoseAKey | crates/agent-migration/src/reconcile.rs:1209-1217 | an OpenAI API key linked from one home, an OAuth login for OpenAI linked from another and cut after its manifest, and one complete unlink: the first home's key is lost |
| HomesMatter.GuardIsAboutOpenAi | crates/agent-migration/src/adapters/opencode.rs:791-865 | with the account ids that discovery gives, only a link that imports OpenAI under the other of its two ids can break the guard |
| HomesMatter.LinkStrips | crates/agent-migration/src/reconcile.rs:1543-1554 | a completed link takes exactly the transferred keys from its home and touches no other home |
| ReconcileCompletes.LinkCompletes | crates/agent-migration/src/reconcile.rs:1590-1648 | a planned run with no outside edit passes its own final validation, with moved, copied or no credentials |
| ReconcileCompletes.CopiesValid | crates/agent-migration/src/reconcile.rs:1590-1625 | the shard saved with copied credentials holds every imported id, under no foreign owner |
| ReconcileCuts.CutReached | crates/agent-migration/src/reconcile.rs:1495-1563 | the invariant at every cut: files untouched, checkpointed or at the one open write; keys stripped only after the shard is saved and checkpointed |
| ReconcileCuts.CompleteReached | crates/agent-migration/src/reconcile.rs:1556-1558 | the invariant after completion |
| ReconcileCuts.OpeningCut | crates/agent-migration/src/reconcile.rs:1448-1461 | a cut before the manifest only adds copies of tracked files |
| ReconcileCuts.BackupsCopied | crates/agent-migration/src/manifest.rs:394-417 | cutting the backups anywhere leaves every file as it was or a copy of its original |
| ReconcileCuts.SetAppliedAt | crates/agent-migration/src/manifest.rs:466-472 | the digest of exactly the named entry is recorded |
| LinkOutcome.LinkLeaves | crates/agent-migration/src/reconcile.rs:1448-1563 | a planned link or sync completes and leaves exactly: the fragment and every edit as planned, all other files but its backups as they were, the agent's binding and nobody else's, one new manifest whose fields are those of the plan, and a record of each tracked file with its old copy and its new content |
| LinkOutcome.ShardAfterLink | crates/agent-migration/src/reconcile.rs:1500-1504 | account by account, what the shard holds afterwards: foreign accounts untouched, copies that were not imported disabled, a gateway-owned account gone exactly if its source was imported under another id, the imported ones as imported, and nothing else |
| LinkOutcome.CompleteExactlyIf | crates/agent-migration/src/reconcile.rs:1590-1648 | whatever was planned, a run is declared complete exactly if the binding, every recorded file besides the shard, and every imported and transferred account are on disk as they should be |
| LinkUndo.MidRestores | crates/agent-migration/src/reconcile.rs:1301-1328 | wherever a run was cut, restoring its entries gives the files before it |
| LinkUndo.MidAccepted | crates/agent-migration/src/reconcile.rs:1134-1145 | preflight accepts a cut run's entries exactly outside a gap |
| LinkUndo.LogExtended | crates/agent-migration/src/reconcile.rs:1463-1495 | a manifest with the highest name extends the log by one link and is its newest |
| HandoffBacking.SavedAccounts | crates/agent-migration/src/reconcile.rs:1971-1997 | the saved shard holds exactly the imported accounts |
| HandoffBacking.HandoffGoesThrough | crates/agent-migration/src/reconcile.rs:1205-1223 | accounts that cover what is owed let every home's handoff through |
| CutHandoff.CutHandoffAgent | crates/agent-migration/src/reconcile.rs:1238-1299 | the newest manifest of a run cut anywhere loads enough accounts for the handoff |
| ChainInversion.LinkKeepsUndoable | crates/agent-migration/src/reconcile.rs:1401-1563 | a completed link keeps files, bindings and keys recoverable to the base |
| CutCredentials.CutKeysReturn | crates/agent-migration/src/reconcile.rs:1147-1236 | the handoff at any cut gives every home exactly its keys from before the first link |
| ManifestChain.WalkChain | crates/agent-migration/src/reconcile.rs:991-1030 | the walk equals its specification and ends on every stored graph, cyclic ones included |
| ManifestChain.WalkIsExact | crates/agent-migration/src/reconcile.rs:991-1030 | the walk returns a chain exactly if it is the chain of that manifest: restorable in all its recorded paths, linked by predecessors, without repetition, with at most one manifest with relative paths |
| ManifestChain.PreparedExactly | crates/agent-migration/src/manifest.rs:164-234 | a manifest is refused exactly if one of its paths is relative and it is not an older one under an absolute root; otherwise only relative paths change, and none is left |
| ManifestLog.LatestActive | crates/agent-migration/src/manifest.rs:132-157 | the answer is the greatest active manifest, or none is active |
| ManifestLog.ActiveFormOneChain | crates/agent-migration/src/manifest.rs:132-157 | the active manifests are a prefix of the log of the newest one, the rest of which is unlinked |
| ManifestLog.UnlinkedIsClosed | crates/agent-migration/src/reconcile.rs:898-903 | unlinked manifests are closed under the predecessor |
| ManifestLog.LogIsChain | crates/agent-migration/src/reconcile.rs:991-1030 | in a well-shaped log the walk from any manifest succeeds with its log |
| LogMarks.ShapeAdvanced | crates/agent-migration/src/reconcile.rs:898-903 | marks set from the oldest manifest up keep the shape of the log |
| LogMarks.UnlinkMarksCut | crates/agent-migration/src/reconcile.rs:898-903 | cutting the marking anywhere leaves exactly the manifests below some name marked |
| LogMarks.HandoffMarksCut | crates/agent-migration/src/reconcile.rs:1225-1235 | cutting the record of the handoff changes only handoff marks |
| FileRollback.Preflight | crates/agent-migration/src/reconcile.rs:1083-1132 | accepts exactly when every manifest's files are its images on the disk that the rollback of its successors leaves |
| FileRollback.CheckEntries | crates/agent-migration/src/reconcile.rs:1087-1116 | accepts exactly when the entries match the simulated disk |
| FileRollback.SimulateManifest | crates/agent-migration/src/reconcile.rs:1118-1128 | the simulated restore, failing exactly on an unreadable backup |
| FileRollback.SimulationTracks | crates/agent-migration/src/reconcile.rs:1118-1128 | the simulated restore of entries tracks the real one |
| FileRollback.SafeAtEveryManifest | crates/agent-migration/src/reconcile.rs:1083-1132 | a safe rollback finds each manifest's recorded images when it reaches it |
| FileRollback.ReplayChain | crates/agent-migration/src/reconcile.rs:1301-1328 | the writes of the rollback have the effect of the restore |
| BindingRollback.PreflightBindings | crates/agent-migration/src/reconcile.rs:1330-1360 | accepts exactly when the restoration would run to its end |
| BindingRollback.BindingsFitExactly | crates/agent-migration/src/reconcile.rs:1330-1360 | the restoration of the binding runs to its end exactly if each manifest finds what it wrote or what it replaced on the binding the newer ones lead back to |
| BindingRollback.OldestIsLast | crates/agent-migration/src/reconcile.rs:1362-1391 | the binding led back to is the one before the last manifest of the chain that recorded any |
| BindingRollback.BindingRestored | crates/agent-migration/src/reconcile.rs:1362-1399 | an accepted chain returns the agent to the oldest recorded binding and leaves all other agents alone |
| CredentialHandoff.HandoffKeys | crates/agent-migration/src/reconcile.rs:1205-1236 | a complete handoff adds exactly the keys of loaded accounts that are owed and absent |
| CredentialHandoff.GrantsAddKeys | crates/agent-migration/src/reconcile.rs:1222-1227 | grants never replace or remove a key |
| CredentialHandoff.Collected | crates/agent-migration/src/reconcile.rs:1251-1280 | the loaded accounts are those found, all of them if the manifest guarantees them |
| UnlinkDemands.UnlinkExactlyIf | crates/agent-migration/src/reconcile.rs:870-904 | an unlink goes through exactly if no active manifest follows, the manifest heads a chain and is active, every manifest of it finds its files and the binding as recorded, and the handoff has what it demands |
| UnlinkDemands.HandoffExactlyIf | crates/agent-migration/src/reconcile.rs:1147-1299 | a handoff goes through exactly if nothing is awaited, or the newest manifest's accounts can be loaded and every waiting manifest is served: an account for each source owed if the agent's keys may be gone, each imported account of an older manifest, and every account to be handed over exportable |
| UnlinkDemands.UnlinkSettles | crates/agent-migration/src/reconcile.rs:1147-1236 | after an unlink each home has its own keys unchanged and besides them exactly those owed to it and supplied, each from the last account for its source; if the keys may have been gone, every transferred source is back |
| UnlinkDemands.HandoffReturnsTransfers | crates/agent-migration/src/reconcile.rs:1205-1223 | if the newest manifest is complete or its transfer shard checkpointed, a handoff that goes through leaves every transferred source of every waiting manifest at that manifest's home |
| UnlinkDemands.MissingSourceRefuses | crates/agent-migration/src/reconcile.rs:1206-1218 | with a transferred source that no imported account is for, the handoff and the unlink refuse, even if the key is there |
| UnlinkDemands.FollowedIs | crates/agent-migration/src/reconcile.rs:912-940 | a manifest is followed exactly if another active one of the agent has it further down its chain, or has no chain |
| Unlink.RefusalChangesNothing | crates/agent-migration/src/reconcile.rs:890-892 | a refused unlink changes no file, binding or manifest; with one home it writes nothing at all |
| Unlink.UnlinkOutcome | crates/agent-migration/src/reconcile.rs:892-903 | a complete unlink: files as rolled back, the oldest binding, every manifest of the chain marked, nothing else changed |
| UnlinkSafety.UnlinkCut | crates/agent-migration/src/reconcile.rs:870-904 | one unlink of any manifest, cut anywhere, keeps every credential and the shape of the log |
| UnlinkSafety.HandoffDrains | crates/agent-migration/src/reconcile.rs:1205-1223 | a complete handoff gives the agent everything only the gateway had |
| UnlinkCuts.OnlyTipUnlinks | crates/agent-migration/src/reconcile.rs:876-887 | an unlink of any manifest but the newest active one refuses |
| CredentialSafety.CutKept | crates/agent-migration/src/reconcile.rs:1495-1554 | a link cut anywhere loses no provider, and owes the agent whatever only the shard holds |
| CredentialSafety.OwedWhenSaved | crates/agent-migration/src/reconcile.rs:1937-1956 | what only the saved shard holds was transferred now or owed before |
| MigrationMachine.Machine.Apply | crates/agent-migration/src/reconcile.rs:1401-1563 | performs exactly the specified writes of a link or sync, of which LinkOutcome says what they leave |
| MigrationMachine.Machine.RunTask | crates/agent-migration/src/reconcile.rs:1565-1588 | one step and its checkpoint |
| MigrationMachine.Machine.BackupPathFor | crates/agent-migration/src/manifest.rs:394-417 | the first call copies and records, later ones change nothing |
| MigrationMachine.Machine.BackUpAll | crates/agent-migration/src/reconcile.rs:1448-1461 | every tracked file is copied aside or remembered as created |
| MigrationMachine.Machine.SetAppliedDigest | crates/agent-migration/src/manifest.rs:466-472 | records the digest of the first entry for the path |
| MigrationMachine.MarkLast | crates/agent-migration/src/manifest.rs:545-551 | the last entry is marked as created exactly if its file did not exist |
| MigrationMachine.Machine.Unlink | crates/agent-migration/src/reconcile.rs:870-910 | performs exactly the specified writes of an unlink, for every chain whose backups are not tracked files; UnlinkDemands says when it goes through and what it leaves at every home |
| MigrationMachine.Machine.UnlinkLogged | crates/agent-migration/src/reconcile.rs:870-910 | the same for every log that links and syncs write, without that condition |
| MigrationMachine.Machine.ActiveSuccessor | crates/agent-migration/src/reconcile.rs:912-940 | finds a descendant, or a manifest that cannot be followed, exactly if there is one |
| MigrationMachine.Machine.RestorePendingCredentials | crates/agent-migration/src/reconcile.rs:1147-1236 | keys first, then the marks; stops before the marks if a home fails, as UnlinkDemands.HandoffExactlyIf says when |
| MigrationMachine.Machine.LoadAccounts | crates/agent-migration/src/reconcile.rs:1238-1281 | equals the specified load with its failures |
| MigrationMachine.Machine.GrantAll | crates/agent-migration/src/reconcile.rs:1205-1223 | one insert-if-absent per home, up to the first home that fails |
| MigrationMachine.Machine.RestoreManifestFiles | crates/agent-migration/src/reconcile.rs:1301-1328 | restores the entries in reverse order |
| MigrationMachine.Machine.RestoreFiles | crates/agent-migration/src/reconcile.rs:894-896 | rolls the chain back from the newest manifest |
| MigrationMachine.Machine.RestoreBindings | crates/agent-migration/src/reconcile.rs:1362-1391 | skips restored bindings and stops at an unknown one |
| MigrationMachine.Machine.MarkUnlinked | crates/agent-migration/src/reconcile.rs:900-903 | marks the manifests from the oldest up |
| Cancellation.ReasonIsFinal | bindings/typescript/native/lifecycle.rs:54-70 | once the reason has left live, no schedule changes it |
| Cancellation.AnswersAgree | bindings/typescript/native/lifecycle.rs:92-101 | the reason is the winner's, and every waiter answers it |
| Cancellation.CleanupRunsOnce | bindings/typescript/native/lifecycle.rs:72-90 | a cleanup runs at most once and never on a live operation; once both parties are done it ran exactly once if cancelled and not replaced, and is still registered if live |
| Cancellation.NoWaiterLeftParked | bindings/typescript/native/lifecycle.rs:92-101 | after the notification a waiter answers within three turns of its own, whatever others do |
| Cancellation.NoDeadlock | bindings/typescript/native/lifecycle.rs:54-101 | when no call can move, all have returned except waiters of a live operation |
| Cancellation.CancelledOnReturn | bindings/typescript/native/lifecycle.rs:54-70 | a cancellation that has returned has cancelled the operation |
| Cancellation.EveryCallEnds | bindings/typescript/native/lifecycle.rs:54-101 | every call, also a waiter, takes at most five steps on any schedule |
| Cancellation.Cell.StepSwap | bindings/typescript/native/lifecycle.rs:54-70 | one step of a cancellation in place |
| Cancellation.Cell.StepWinner | bindings/typescript/native/lifecycle.rs:72-76 | the winner's steps in place |
| Cancellation.Cell.StepLook | bindings/typescript/native/lifecycle.rs:79-83 | looking at the reason under the lock, in place |
| Cancellation.Cell.StepStore | bindings/typescript/native/lifecycle.rs:83-90 | storing or running the cleanup, in place |
| Cancellation.Cell.StepCancelled | bindings/typescript/native/lifecycle.rs:92-101 | a waiter's steps in place |
| Cancellation.Cell.Advance | bindings/typescript/native/lifecycle.rs:54-101 | one step of any call keeps the invariant and is the step of the machine |
| Cancellation.Cell.Follow | bindings/typescript/native/lifecycle.rs:54-101 | the object follows any schedule as the machine does, its invariant kept |
| ClientLifecycle.ActiveOnlyShrinks | bindings/typescript/native/lifecycle.rs:166-178 | after the winning closer's snapshot the active operations only shrink |
| ClientLifecycle.WinnerDrains | bindings/typescript/native/lifecycle.rs:180-188 | when the close that won returns, the table is empty and stays empty |
| ClientLifecycle.CloseDrainsExactly | bindings/typescript/native/lifecycle.rs:180-188 | any returning close has drained the client for good exactly if no registration is about to insert its operation |
| ClientLifecycle.LosingCloseReturnsEarly | bindings/typescript/native/lifecycle.rs:167-169 | a schedule in which a losing close returns and an operation appears afterwards |
| ClientLifecycle.CountIsExact | bindings/typescript/native/lifecycle.rs:159 | whenever the lock is free the published count is the size of the table |
| ClientLifecycle.SnapshotCancelled | bindings/typescript/native/lifecycle.rs:171-177 | when the winner has gone on to wait, every operation left is cancelled |
| ClientLifecycle.NoDeadlock | bindings/typescript/native/lifecycle.rs:180-194 | when no call can move all have returned: no closer misses the last wake-up |
| Admission.RefusalsHaveReason | bindings/typescript/native/lifecycle.rs:145-169 | on every schedule a registration is refused only if the client is closed or its operation cancelled, a close past its swap has closed the client, and a returned cancellation has reached its operation |
| Admission.ShutOutNeverEnters | bindings/typescript/native/lifecycle.rs:151-158 | a registration the client is closed to, or whose operation is cancelled, before its last look never enters the table |
| Admission.TurnedAwayNeverLocks | bindings/typescript/native/lifecycle.rs:146-151 | one that comes after the close or the cancellation never takes the lock |
| Admission.CloseCancelsTable | bindings/typescript/native/lifecycle.rs:171-177 | whatever is cancelled was cancelled by its user or is or was in the table |
| Admission.CancelledBeforeClose | bindings/typescript/native/lifecycle.rs:166-177 | before the snapshot only what a user asked for is cancelled |
| Admission.EveryCallEnds | bindings/typescript/native/lifecycle.rs:145-194 | every call takes at most as many steps as its rank, and two more for each count published meanwhile |
| ClientLifecycle.Client.StepAdmit | bindings/typescript/native/lifecycle.rs:145-155 | the two loads, of the client and of the operation, before and again under the lock, in place |
| ClientLifecycle.Client.StepInsert | bindings/typescript/native/lifecycle.rs:157-159 | insertion and publication of the count, in place |
| ClientLifecycle.Client.StepFinish | bindings/typescript/native/lifecycle.rs:190-194 | the drop of the guard takes the lock, in place |
| ClientLifecycle.Client.StepRemove | bindings/typescript/native/lifecycle.rs:190-194 | removal and publication of the count, in place |
| ClientLifecycle.Client.StepSwap | bindings/typescript/native/lifecycle.rs:166-169 | the swap of the closed flag, in place |
| ClientLifecycle.Client.StepCancel | bindings/typescript/native/lifecycle.rs:171-177 | the snapshot and the cancellations, in place |
| ClientLifecycle.Client.StepWait | bindings/typescript/native/lifecycle.rs:180-188 | the wait for a count of zero, in place |
| ClientLifecycle.Client.Advance | bindings/typescript/native/lifecycle.rs:145-194 | one step of any call keeps the invariant and is the step of the machine |
| ClientLifecycle.Client.Follow | bindings/typescript/native/lifecycle.rs:145-194 | the object follows any schedule as the machine does, its invariant kept |
| ClosableStream.PairInOnePlace | bindings/typescript/native/stream.rs:57-107 | the stream and its guard are in the slot, with one read, or dropped, and dropped at most once |
| ClosableStream.SlotStaysEmpty | bindings/typescript/native/stream.rs:88-98 | once cancelled and cleaned up the slot stays empty and no read is about to store the pair |
| ClosableStream.CancelledIsDropped | bindings/typescript/native/stream.rs:20-42 | when all calls have returned and the operation was cancelled, the pair was dropped exactly once |
| ClosableStream.NoDeadlock | bindings/typescript/native/stream.rs:57-107 | when no call can move, whatever the stream answers, all have returned |
| ClosableStream.StepKeeps | bindings/typescript/native/stream.rs:20-108 | every step of every call keeps the locks, the cell and the single place of the pair |
| LiveStream.LiveKeepsPair | bindings/typescript/native/stream.rs:85-92 | a stream nobody cancelled still has its pair in the slot when every call has returned |
| LiveStream.LiveSlotFull | bindings/typescript/native/stream.rs:57-92 | a live stream that neither fails nor ends has its pair with a read or in the slot, in every state |
| LiveStream.LiveReadsGotItem | bindings/typescript/native/stream.rs:57-89 | no read of a live stream returns without an item polled for it |
| LiveStream.FailedReadCloses | bindings/typescript/native/stream.rs:99-107 | once a read was told that the stream failed or ended and has returned, the stream is closed and the pair dropped once |
| LiveStream.CloseEmptiesSlot | bindings/typescript/native/stream.rs:39-42 | a close that has returned has cancelled the stream and emptied its slot for good |
| LiveStream.LateReadTakesNothing | bindings/typescript/native/stream.rs:57-64 | a read that finds the stream cancelled before its turn never takes the pair |
| LiveStream.EndsWhenCancelled | bindings/typescript/native/stream.rs:74-107 | whatever the stream answers, a call of a cancelled stream takes at most nine more steps |
| LiveStream.NothingBeforeMade | bindings/typescript/native/stream.rs:20-42 | no read or close begins before the stream is made, and the reason is that of the call that won |
| ClosableStream.Stream.StepStore | bindings/typescript/native/stream.rs:20-33 | registering the discarding cleanup, in place |
| ClosableStream.Stream.StepMade | bindings/typescript/native/stream.rs:20-33 | releasing the lock or discarding late, in place |
| ClosableStream.Stream.StepEnter | bindings/typescript/native/stream.rs:57-72 | waiting for the turn and taking the pair, in place |
| ClosableStream.Stream.StepPoll | bindings/typescript/native/stream.rs:74-82 | polling the stream while live, in place |
| ClosableStream.Stream.StepPut | bindings/typescript/native/stream.rs:85-92 | putting the pair back or refusing to, in place |
| ClosableStream.Stream.StepLeave | bindings/typescript/native/stream.rs:92-107 | dropping the pair and leaving, in place |
| ClosableStream.Stream.StepSwap | bindings/typescript/native/stream.rs:39-42 | the cancellation of a close, in place |
| ClosableStream.Stream.StepClean | bindings/typescript/native/stream.rs:35-42 | running the cleanup and discarding, in place |
| ClosableStream.Stream.DiscardPair | bindings/typescript/native/stream.rs:35-37 | empties the slot and drops what was there |
| ClosableStream.Stream.Advance | bindings/typescript/native/stream.rs:20-107 | one step of any call keeps the invariant and is the step of the machine |
| ClosableStream.Stream.Follow | bindings/typescript/native/stream.rs:20-107 | the object follows any schedule as the machine does, its invariant kept |
| ClosingStreams.ClosingDrains | bindings/typescript/native/lifecycle.rs:166-200 | once a close has won and nothing can move, whatever the streams answer, the table is empty, every call has returned or been refused, and the pair of every registered stream was dropped once, the cancelled streams at rest |
| ClosingStreams.EveryCloseDrains | bindings/typescript/native/lifecycle.rs:180-200 | the same at the end of every schedule of a client and its streams from the start |
| ClosingStreams.CancelledRests | bindings/typescript/native/stream.rs:20-42 | the stream of a cancelled operation comes to rest with its pair dropped and its operation finished |
| AccountHandle.Handle.MarkFailure | crates/accounts/src/handle.rs:51-55 | one more failure and a cooldown of the penalty from now |
| AccountHandle.Handle.MarkSuccess | crates/accounts/src/handle.rs:65-72 | no failures and no cooldown |
| AccountHandle.PenaltyGrows | crates/accounts/src/handle.rs:51-56 | the penalty doubles up to the fifth failure in a row and then stays, within the longest duration |
| AccountHandle.HealthFollowsStreak | crates/accounts/src/handle.rs:40-72 | after any history an account is healthy exactly if the penalty of its current streak has passed since its last failure |
| RoundRobin.Pick | crates/accounts/src/pool.rs:561-575 | the first healthy account from the cursor on; the cursor advances unless the list is empty |
| RoundRobin.ChosenIsHealthy | crates/accounts/src/pool.rs:561-575 | unhealthy accounts are never chosen, and one is chosen exactly if one is healthy |
| RoundRobin.Fairness | crates/accounts/src/pool.rs:561-575 | over as many consecutive calls as accounts, a healthy account is chosen once plus once for each unhealthy one directly before it |
| Affinity.Affinity.Lookup | crates/accounts/src/affinity.rs:141-172 | the answer of the entry held, and the exact cache afterwards |
| Affinity.Affinity.LookupShared | crates/accounts/src/affinity.rs:143-155 | the section under the read lock |
| Affinity.Affinity.LookupExclusive | crates/accounts/src/affinity.rs:156-172 | the section under the write lock, which forgets a stale entry |
| Affinity.Affinity.Record | crates/accounts/src/affinity.rs:175-185 | binds the key, after the sweep that is due |
| Affinity.Affinity.MaybeSweep | crates/accounts/src/affinity.rs:131-138 | sweeps stale entries at every 1024th operation |
| Affinity.CacheRefinesHistory | crates/accounts/src/affinity.rs:131-185 | whatever was recorded and forgotten, and wherever sweeps fall, a lookup answers as the last record of its key demands |
| Affinity.LookupIsOps | crates/accounts/src/affinity.rs:131-172 | a lookup of one caller is a sweep or nothing and then at most a forgetting, so part of such a history |
| Affinity.LegacyIsPlan | crates/accounts/src/affinity.rs:87-98 | a legacy retention equals the plan with the saturating remainder |
| Affinity.PlanIsLegacy | crates/accounts/src/affinity.rs:95-98 | a plan, also a saturating one, equals a legacy retention |
| Affinity.AnswerByAge | crates/accounts/src/affinity.rs:141-172 | a binding is live exactly until its time to live has passed and unknown exactly once its retention has |
| AccountPool.FromHandles | crates/accounts/src/pool.rs:98-124 | the buckets partition the accounts by provider and tier, in provider order, none empty, with fresh cursors |
| PoolAcquire.PickHealthy | crates/accounts/src/pool.rs:551-554 | a healthy account, from the fallback tier only if no active one is healthy; the cursors move as the code moves them |
| PoolAcquire.EarliestCooldown | crates/accounts/src/pool.rs:577-588 | the first account of least cooldown |
| PoolAcquire.BucketEarliest | crates/accounts/src/pool.rs:556-558 | the active list, the fallback list only if there are no actives |
| PoolAcquire.FirstHealthy | crates/accounts/src/pool.rs:455-459 | the pick of the first candidate with a healthy account; none only if no candidate has one |
| PoolAcquire.LeastOf | crates/accounts/src/pool.rs:461-473 | the account of least cooldown over all candidates, first among equals |
| RouteAcquire.Attempt | crates/accounts/src/pool.rs:455-473 | a healthy account of the first candidate that has one, else the least cooldown |
| RouteAcquire.FindPair | crates/accounts/src/pool.rs:441-442 | the nested search over evidence and endpoints |
| RouteAcquire.FirstPairIs | crates/accounts/src/pool.rs:441-454 | the pair found is the lexicographically first wanted one |
| RouteAcquire.PairIsFirst | crates/accounts/src/pool.rs:262-276 | a first pair exists exactly if the pool has a route |
| RouteAcquire.AcquireFromRoute | crates/accounts/src/pool.rs:435-475 | serves the first pair any allowed bucket matches with its best account, and fails only without a route |
| RoutePreference.ServedBest | crates/accounts/src/pool.rs:435-475 | the buckets serve exactly if some provider reaches some endpoint, and then on a best route |
| RoutePreference.FirstIsBest | crates/accounts/src/pool.rs:477-543 | on the first pair no provider knows the model if the one served does not, and none does as well at an endpoint tried before; a mode that passes requests on keeps the endpoint, a fuzzy route needs a provider that knows a candidate |
| RoutePreference.RouteExists | crates/accounts/src/pool.rs:262-276 | there is a route exactly if some permitted provider reaches some endpoint |
| RoutePreference.MayServeReaches | crates/accounts/src/pool.rs:412-423 | a session's account may serve exactly where its provider reaches |
| SessionPool.Pool.Choose | crates/accounts/src/pool.rs:227-252 | the session's account exactly while its binding is live and it is allowed, out of cooldown and matching; the best of the buckets otherwise; always an account of the pool that the client may use |
| SessionPool.Pool.AcquireForRoute | crates/accounts/src/pool.rs:227-260 | the session's account exactly while usable, else the best account of the first pair any bucket matches; always an account of the pool that the client may use; the session is bound to whoever serves it |
| SessionPool.StickyExactly | crates/accounts/src/pool.rs:234-247 | a session keeps its account exactly if the binding is live and the first account of that id is allowed, out of cooldown and matches somewhere in the order |
| SessionPool.ServedMayServe | crates/accounts/src/pool.rs:435-475 | whoever the buckets serve is an account of the pool, allowed to the client and matching at the pair found |
| SessionPool.SessionSticks | crates/accounts/src/pool.rs:234-247 | a session keeps its account and endpoint while the binding is live and the account healthy |
| SessionPool.SameEndpoint | crates/accounts/src/pool.rs:412-423 | on its own, a candidate of the first pair matches first at that pair's endpoint |
| JsonGraph.AssertJson | bindings/typescript/src/serialization.ts:4-41 | equals the specified check, restores the path on success and failure, and ends on every graph |
| JsonGraph.CheckIsExact | bindings/typescript/src/serialization.ts:4-41 | accepts a value exactly if some finite JSON tree represents it |
| JsonGraph.CheckIsAcyclic | bindings/typescript/src/serialization.ts:17-40 | accepts a value exactly if no walk from it closes a cycle or meets something that cannot be written |
| LegacyPaths.ResolveFromMissingRoot | crates/agent-migration/src/manifest.rs:316-390 | succeeds exactly if no component but the last arrives at an existing non-directory, and then equals lexical normalisation; the missing depth is exact on the way |
| LegacyPaths.ResolveLegacyPath | crates/agent-migration/src/manifest.rs:236-284 | a missing root is followed exactly if its existing part is a directory and its missing part has no parent component |
| LegacyPaths.DeepestExisting | crates/agent-migration/src/manifest.rs:286-314 | the deepest existing prefix |
| LegacyPaths.PhysicalIsNormalized | crates/agent-migration/src/manifest.rs:236-246 | without symbolic links an existing path is its lexical normalisation |
| GeneratedIds.Store.FreshId | crates/accounts/src/management.rs:187-193 | the first free candidate, after at most as many tries as there are accounts |
| GeneratedIds.Store.InsertWithId | crates/accounts/src/management.rs:183-200 | a generated id never collides, a chosen one is refused if it does, and existing accounts are unchanged |
| GeneratedIds.Pigeonhole | crates/accounts/src/management.rs:189-193 | a store holds no more candidates than accounts |
| GeneratedIds.CandidatesDiffer | crates/accounts/src/management.rs:191-191 | different suffixes print differently |
| GeneratedIds.DistinctKept | crates/accounts/src/management.rs:195-200 | distinct ids stay distinct |
| AgentProfiles.Document.EditProfiles | crates/agent-migration/src/reconcile.rs:2726-2747 | the edit in place equals its specification, with its errors; ProfileOutcome says key by key what that leaves |
| AgentProfiles.Document.UpsertRoutes | crates/agent-migration/src/reconcile.rs:2796-2828 | one profile per route, or a mismatch |
| AgentProfiles.Document.RemoveAgentProfiles | crates/agent-migration/src/reconcile.rs:2886-2899 | removes exactly the agent's generated children |
| AgentProfiles.Document.RemoveMaterializedProfile | crates/agent-migration/src/reconcile.rs:2853-2866 | removes the profile if owned, and its generated children |
| AgentProfiles.OthersKept | crates/agent-migration/src/reconcile.rs:2726-2747 | no profile the agent does not own is changed, added or removed |
| AgentProfiles.EditedAgain | crates/agent-migration/src/reconcile.rs:2726-2747 | the edit run twice equals the edit run once exactly unless the second run loses extra keys of a renamed profile |
| AgentProfiles.SecondRunLosesKey | crates/agent-migration/src/reconcile.rs:2731-2735 | a document and an edit whose second run differs |
| AgentProfiles.RoutesAreChildren | crates/agent-migration/src/reconcile.rs:2901-2914 | every profile written for a route is recognised as a generated child |
| AgentProfiles.ModeChangeCleansUp | crates/agent-migration/src/reconcile.rs:2738-2744 | a later edit without routes removes every child named after the profile |
| AgentProfiles.RoutesLeave | crates/agent-migration/src/reconcile.rs:2796-2828 | routes leave their profiles as written, keep extra keys, and touch nothing else |
| ProfileOutcome.MainProfile | crates/agent-migration/src/reconcile.rs:2755-2793 | the main profile field by field: mode, agent, default provider, accounts and providers as the write and its source demand, and the other keys found after the rename |
| ProfileOutcome.RouteProfiles | crates/agent-migration/src/reconcile.rs:2796-2828 | the profile of each route field by field, in the modes that pass requests on |
| ProfileOutcome.OtherProfiles | crates/agent-migration/src/reconcile.rs:2726-2747 | every other key stays exactly if it is neither renamed away nor generated under the profile, unchanged |
| ProfileOutcome.RefusedExactly | crates/agent-migration/src/reconcile.rs:2796-2884 | an edit is refused exactly if another's item has the main profile's name, two routes disagree about a profile, or the profile of a route is taken |
| ExactIds.ExactRoundTrip | crates/accounts/src/routing.rs:91-101 | a printed id resolves to its own provider and model exactly if the provider has no slash and neither is blank |
| ExactIds.ResolvedPrints | crates/accounts/src/routing.rs:91-108 | what resolves is the printed form of the result |
| ExactIds.CompileShared | crates/agent-migration/src/projection.rs:250-267 | the published map, the first publisher of an id keeping it |
| ExactIds.PublishedIfOffered | crates/agent-migration/src/projection.rs:250-267 | in every mode an id is published exactly if some model has it |
| ExactIds.FirstPublisherKeeps | crates/agent-migration/src/projection.rs:250-267 | under the name of the first model that has it, in the order of providers and models, with its provider's name in exact mode |
| ExactIds.TrimKeeps | crates/agent-migration/src/projection.rs:112-114 | trimming changes nothing exactly if neither end is white space |
| ExactIds.ExactNeverMerges | crates/agent-migration/src/projection.rs:250-267 | exact publication has one entry per provider and model, and no other |
| ExactIds.PublishedResolves | crates/agent-migration/src/projection.rs:253-254 | every exactly published id resolves to its own provider and model |
| ExactIds.ValidateProviderIds | crates/agent-migration/src/projection.rs:106-134 | accepts exactly trimmed, non-empty, slash-free provider ids, and in exact mode no source of several gateway providers that owns a credential or an account |
| ExactIds.SeveralGateways | crates/agent-migration/src/projection.rs:503-517 | a source has more than one collected gateway provider exactly if two of its routes differ in theirs |
| ReferenceRules.InsertReferenceRule | crates/agent-migration/src/projection.rs:791-805 | equals its specification |
| ReferenceRules.CompilationOutcome | crates/agent-migration/src/projection.rs:791-805 | inserting rules succeeds exactly if no two for one key differ; then all are there, none twice |
| RouteResolver.Resolver.constructor | crates/accounts/src/routing.rs:35-55 | the last family wins a name and every member it lists |
| RouteResolver.ExactIdSelectsItsProvider | crates/accounts/src/routing.rs:91-108 | in exact mode a printed id selects exactly its provider |
| RouteResolver.ResolveMeans | crates/accounts/src/routing.rs:61-129 | what each mode resolves to: the header before the default mode; the default provider or any; the last family listing the model, else the last of that name, else the model itself; and an exact id exactly if it splits into a provider and a model that are not blank |

## Left out

- Real files, permissions, fsync, temporary names, and the text of YAML, TOML and JSON: contents are abstract values, parsing and printing are the identity.
- Digests are injective: an entry records the content itself where the source records its SHA-256.
- The agent adapters: stripping removes the transferred keys, restoring inserts absent ones. Keys of one agent home are one map.
- The plan of a link: what planning and revalidation guarantee is the predicate `Reconcile.Planned`, and the edit that strips the agent's keys comes before its other edits, as its adapter orders them.
- Older manifest versions are modelled in the chain walk, the preflight and the handoff; the results about histories are for logs of the current version, under strictly increasing manifest names.
- HomesMatter.GuardIsAboutOpenAi: takes the account ids from the one function of discovery that gives them; which credentials discovery accepts is left out.
- ManifestChain.WalkChain: resolves a legacy relative path by joining it to the legacy root; LegacyPaths has the resolution under a missing root.
- MigrationMachine.Machine.Unlink: is stated for chains whose backup copies are not themselves tracked files, which `UnlinkLogged` discharges for every log links write; for others the source's simulation reads backups its own rollback would have changed.
- MigrationMachine.Machine.Apply: its writes are those of a plan whose tracked paths are distinct ordinary files; the revalidations between writes, which stop a run early when something changed outside, are left out, as stopping early leaves the disk of a cut.
- MigrationRuns.CredentialsConserved: without the guard it is false (HomesMatter.TwoHomesLoseAKey); edits that delete a key from an agent home, an account from the shard, or a manifest are not part of a history.
- UnlinkInverts.UnlinkInvertsHistory: has no outside edits and one agent home; backup copies stay behind.
- UnlinkRetry.RetryOutcome: assumes no outside edit between the cut and the retry; with edits, `UnlinkRetry.SafeAgain` says when the files are accepted.
- ClosingStreams.ClosingDrains: that something always moves until then; a stream that never answers is polled forever while its operation is live.
- Cancellation.CleanupRunsOnce: a cleanup replaced by a second registration is dropped without running, as in the source; the source registers one per operation.
- Weak memory effects, the failed upgrade of a weak reference, panics and poisoned locks: steps are sequentially consistent and complete.
- ClientLifecycle.SnapshotCancelled: the closer cancels in the order of ids; the source's order is that of a hash table.
- ClosableStream: the answers a read returns to its caller, and a stream object that is dropped without being closed.
- RoundRobin.Pick: the cursor does not wrap.
- AccountHandle.Handle.MarkFailure: the sum of the current time and the cooldown does not overflow.
- RouteAcquire.AcquireFromRoute: health is judged at one point in time, providers of one id offer the same, and a pair without candidates is passed over without an attempt, which would pick nobody.
- AccountPool: the other acquisition entry points, which differ in how they match a bucket.
- GeneratedIds: the choice of the base from the account's user name, provider account and provider.
- AgentProfiles: sorting and deduplicating the providers of the accounts, comments and the order of keys.
- ExactIds.CompileShared: the rules for rewriting model references that the function also returns; ReferenceRules has their insertion.
- ExactIds: publication rules other than the shared one.
- RouteResolver: parsing the mode header.
- Quota probing, token refresh, HTTP, SQLite, the TypeScript and Python wrappers and the desktop interface.
