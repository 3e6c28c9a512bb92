# Verified models of the MCP adapter's stateful core

This project models, in Dafny, the parts of the Pi MCP adapter whose correctness depends on
ordering, partial failure or layering, and proves what they promise for all inputs and all runs:

- **The bearer-credential store.** A record longer than one keyring value is written as
  digest-keyed chunks plus a manifest. Every account operation may be refused, or may take effect
  and then throw. `BearerStore.dfy` holds the protocol as functions of a store with a fault
  oracle, and the class that runs it. `BearerStoreAftermath.dfy` says what single failures leave
  behind, account by account. `BearerStoreProofs.dfy` proves that a read returns the
  installed record or fails, that a save commits, when a failed save or removal is atomic, and that fault-free
  runs are runs of a plain map.
- **The keep-alive manager.** Each asynchronous method is cut at its awaits. `Lifecycle.dfy` holds
  the pieces as functions and as the methods of the manager class. `LifecycleRuns.dfy` lets them
  interleave with registration, disposal, replacement, time, the server manager and shutdown, and
  `LifecycleProgress.dfy` follows failures, successes and pending publications through whole runs.
  `LifecycleOutcomes.dfy` says what every ending of an awaited call must lead to.
- **Runtime publication.** Generations, owners and the current promise decide which
  initialisation publishes its state and who shuts a state down (`RuntimePublication.dfy`,
  `RuntimeRuns.dfy`), and what each event must start or bring about (`RuntimeOutcomes.dfy`).
- **The direct-tool registry.** Registered, search-mode, search-activated and active tools under
  syncs, searches and host changes (`ToolRegistry.dfy`, `ToolRegistryProofs.dfy`).
- **Layered configuration.** The field-by-field merge with its stripping rules and provenance
  marks (`ConfigMerge.dfy`), the order in which a load merges its sources (`LoadOrder.dfy`), the
  write of one server's disabled flag (`DisabledOverride.dfy`) and what a load makes of it
  (`OverrideReload.dfy`), the ancestor sources (`AncestorSources.dfy`), and the write-preview diff
  (`UnifiedDiff.dfy`).
- **Skill discovery and menus.** A walk over real directories with symlink cycles
  (`SkillDiscovery.dfy`, with the containment tests of `Paths.dfy`) and the uniquified menus of
  form elicitation (`ElicitationMenus.dfy`), with the rounds that a rejected selection starts
  (`ElicitationRounds.dfy`).

Code that changes state or loops is a class or a method proved against a specification function;
the main results are lemmas about those functions. The classes McpLifecycleManager and McpAdapter
are tied to the runs the lemmas speak of by `ManagerRuns.dfy` and `AdapterRuns.dfy`; their single
methods follow their functions branch by branch and have no rows of their own below.

## What the proofs found

Where the code does not do what it, its comments or its documentation suggest, the code is kept as
it is and the exact condition is proved.

- **A failed save can lose the record it rewrites.** If the first manifest read fails, a rewrite of
  the identical chunked record no longer knows that it shares chunk accounts with the installed one;
  if a later write also fails, its cleanup removes them (`BlindRewriteLosesRecord`).
  `SaveAtomicExactly` says that this is the only case under all-or-nothing account writes, and
  `UnacknowledgedFlipLosesRecord` that all-or-nothing writes are needed.
- **A failed removal can lose the record too.** Chunks are removed before the main account, so a
  removal that throws after its first step leaves a record that no longer reads.
  `RemoveAtomicExactly` gives the exact condition, `HalfRemovalLosesRecord` the schedule, and
  `RemovalCompletes` that removing again without faults finishes the work.
- **A failed finalization is not retried.** A failure during finalization has stopped the owner
  before the rejection handler runs, so the handler returns early and the rejected promise stays in
  `initPromise`; the retry that `adapter/index.ts:191-194` announces is started only when it is
  empty. `RetryFreedExactlyBeforeFinalization`, `FinalizationCanFail` and `StuckUntilNextSession`
  say when this happens, that it does, and how long it lasts.
- **A state can be orphaned.** When the runtime is replaced during the synchronous part of
  `initializeMcp`, the guard after the call throws, and the state its promise may still produce is
  neither published nor handed to `shutdownState`. `OrphanedExactlyWhenReplacedDuringCall` says
  that this is the only way, and `OrphanCanHappen` that it happens. What the state's owner cleans up
  itself, its lifecycle manager among it (`adapter/init.ts:256`), is still shut down.
- **The publish callback's deletions are not fenced.** They are safe because convergence is
  single-flight (`StaleCheckIsHarmless`) and would not be otherwise (`SingleFlightIsNeeded`).
- **Enabling a server can have no effect.** The override writer does not consult packages, plugins
  and discovered host files; `OverrideTakesEffectOnLoad` gives the exact condition for the real load
  order, and `EnablingCanFail` such a load. Disabling always works.
- **Enabling or disabling a server can change others.** Whether a Claude plugin's server is used
  depends on which other names are there, and the write can add or delete the only entry of a name.
  `OverrideSparesOthersExactly` and `OverrideKeepsOtherFieldsOnLoad` give the exact conditions;
  `EnablingCanRevealAnother` and `EnablingCanDropTheServer` are loads in which enabling one server
  makes another appear, or makes that server itself disappear.
- **The two containment tests differ.** The skill loader's test rejects what lies below a child of
  the root whose own name starts with two dots; the configuration's test does not
  (`ContainmentExactly`, `ContainmentTestsDiffer`).

## Model

| member | source | states |
|---|---|---|
| BearerStore.SlicesJoin | adapter/mcp-bearer-store.ts:226-236 | the ceil(n/1000) slices of a payload, joined in order, are the payload |
| BearerStore.SecretStore.WriteRecord | adapter/mcp-bearer-store.ts:292-322 | the class's save, with its loops and early exits, is SaveSpec under every schedule of faults |
| BearerStore.SecretStore.RemoveRecord | adapter/mcp-bearer-store.ts:324-338 | the class's removal is RemoveSpec: chunks first, the main account last, stopping at the first failure |
| BearerStore.SecretStore.ReadRecord | adapter/mcp-bearer-store.ts:260-290 | the class's read is ReadSpec: absent, the parsed record, or an error |
| BearerStore.SecretStore.ExistingManifest | adapter/mcp-bearer-store.ts:238-245 | a failed or unparsable read of the main account counts as no manifest |
| BearerStore.SecretStore.DropChunks | adapter/mcp-bearer-store.ts:247-258 | the cleanup loop removes the manifest's chunks in order and stops at the first failure |
| BearerStoreProofs.ReadAgrees | adapter/mcp-bearer-store.ts:260-290 | faults can turn a read's answer into an error, never into another answer, and a read changes nothing |
| BearerStoreProofs.SaveEffect | adapter/mcp-bearer-store.ts:292-322 | what a save can have done to every single account, whatever failed |
| BearerStoreProofs.RemoveEffect | adapter/mcp-bearer-store.ts:324-338 | every account a removal can have changed, and that without faults it fails only on a malformed main account |
| BearerStoreProofs.ReadUnderInv | adapter/mcp-bearer-store.ts:260-290 | with payloads told apart by their digests, a fault-free read finds the installed record exactly when every chunk of it is in place, and otherwise fails |
| BearerStoreProofs.RunKeepsInv | adapter/mcp-bearer-store.ts:222-338 | after any run under any faults the main accounts hold the installed records and every chunk account holds a slice of a saved record with that digest |
| BearerStoreProofs.ReadsOnlyTheInstalledRecord | adapter/mcp-bearer-store.ts:260-290 | after any run of saves, removals and reads of any servers under any faults, a read gives the last installed and not removed record, absence when there is none, or an error; never a mixture |
| BearerStoreProofs.SaveCommits | adapter/mcp-bearer-store.ts:292-322 | a save that returns is readable as the new record from any store, even when cleanup of old chunks failed |
| BearerStoreProofs.SaveLeavesOthers | adapter/mcp-bearer-store.ts:292-322 | a save changes no other server's readable record |
| BearerStoreProofs.FailedSaveKeepsRecord | adapter/mcp-bearer-store.ts:309-321 | outside the blind rewrite, a save that throws leaves a readable record or its absence as it was |
| BearerStoreProofs.BlindRewriteLosesRecord | adapter/mcp-bearer-store.ts:238-245 | from every store with a readable chunked record there are two refused operations that make rewriting the same record destroy it |
| BearerStoreProofs.SaveAtomicExactly | adapter/mcp-bearer-store.ts:292-322 | a throwing save is atomic under every all-or-nothing schedule if and only if the first read answers or the save is not a chunked rewrite of the installed record |
| BearerStoreProofs.UnacknowledgedFlipLosesRecord | adapter/mcp-bearer-store.ts:302-316 | a manifest write that takes effect and then throws loses the record, so all-or-nothing account writes are needed |
| BearerStoreProofs.RemoveAtomicExactly | adapter/mcp-bearer-store.ts:324-337 | a throwing removal leaves a readable record readable if and only if its read failed or the first removal it tried was refused; absence stays absence |
| BearerStoreProofs.HalfRemovalLosesRecord | adapter/mcp-bearer-store.ts:329-330 | from every store with a readable chunked record, refusing only the second chunk's removal makes the removal throw and the record unreadable |
| BearerStoreProofs.RemovalCompletes | adapter/mcp-bearer-store.ts:324-338 | however earlier calls failed, a fault-free removal leaves neither the record nor any of its chunks |
| BearerStoreProofs.SaveRefinesMap | adapter/mcp-bearer-store.ts:292-322 | without faults a save is an update of a plain map, account by account, with no orphan chunk |
| BearerStoreProofs.RemoveRefinesMap | adapter/mcp-bearer-store.ts:324-338 | without faults a removal is a removal from the plain map and leaves no chunk |
| BearerStoreProofs.ReadRefinesMap | adapter/mcp-bearer-store.ts:260-290 | without faults a read is a lookup in the plain map |
| BearerStoreProofs.RunRefinesMap | adapter/mcp-bearer-store.ts:292-338 | a fault-free run leaves exactly the accounts of the plain map the same operations build |
| BearerStoreProofs.StoredValuesFit | adapter/mcp-bearer-store.ts:35-36 | in every run no account holds more than 1280 UTF-16 code units |
| BearerStoreProofs.AccountNamesDistinct | adapter/mcp-bearer-store.ts:179-228 | main and chunk accounts that differ have different names |
| BearerStoreAftermath.FailedSaveLeavesNothing | adapter/mcp-bearer-store.ts:309-321 | a save that throws because one operation was refused leaves every account of the store as it was |
| BearerStoreAftermath.RefusedCleanupLeavesOldChunks | adapter/mcp-bearer-store.ts:306-308 | a save that returns although a removal of its cleanup was refused has installed the record, and leaves exactly the old chunks from that removal on |
| BearerStoreAftermath.FailedRemovalStops | adapter/mcp-bearer-store.ts:324-337 | a removal with one refused operation stops there: the chunks before it are gone and every other account is as it was |
| BearerStoreAftermath.MalformedMainBlocks | adapter/mcp-bearer-store.ts:217-220 | a main account that is no JSON makes reads and removals fail without effect, but no save |
| BearerStoreAftermath.PayloadLayout | adapter/mcp-bearer-store.ts:296-305 | up to 1000 units are stored whole, longer payloads in consecutive thousands, with nothing else under the server's names |
| UnifiedDiff.SplitThenJoin | adapter/config.ts:1075-1076 | splitting a text at line breaks and joining gives it back |
| UnifiedDiff.LcsIsMaximal | adapter/config.ts:1079-1090 | no common subsequence of two line lists is longer than the table's value |
| UnifiedDiff.FillTable | adapter/config.ts:1079-1090 | every cell of the filled table is the recursive value for its two suffixes |
| UnifiedDiff.ScriptEdits | adapter/config.ts:1095-1111 | the walk's script turns the first list into the second and keeps as many lines as the table says |
| UnifiedDiff.ScriptIsOptimal | adapter/config.ts:1095-1111 | every other edit script between the lists keeps no more lines and is no shorter |
| UnifiedDiff.Walk | adapter/config.ts:1092-1111 | the index loop terminates and prints the header and exactly that script |
| UnifiedDiff.BuildUnifiedDiff | adapter/config.ts:1072-1114 | the method gives the diff text, or the no-changes text exactly for equal inputs |
| UnifiedDiff.DiffRebuildsBothTexts | adapter/config.ts:1092-1113 | the diff alone gives back both texts, and is never the no-changes text |
| UnifiedDiff.DiffKeepsLongestCommonSubsequence | adapter/config.ts:1072-1114 | the unchanged lines printed are a common subsequence, and none is longer |
| UnifiedDiff.AddedBeforeDropped | adapter/config.ts:1101-1110 | where lines are replaced the added ones come first: no dropped line is directly before an added one |
| UnifiedDiff.DiffLines | adapter/config.ts:1092-1113 | a diff is its two header lines and then lines that each start with a sign and a space, in that order |
| LifecycleRuns.ResumeKeeps | adapter/lifecycle.ts:160-339 | what any piece of any check can do: touch only its own name, add or change records only under its own registration, close only what it connected |
| LifecycleRuns.RunKeepsInv | adapter/lifecycle.ts:122-339 | every interleaving keeps single flight, record ownership, failure pacing and shutdown order |
| LifecycleRuns.StaleCheckIsHarmless | adapter/lifecycle.ts:160-339 | in every run, a check started for a definition no longer registered adds and changes no record, touches no other name, and meets no record last made or taken up for publication under the current registration |
| LifecycleRuns.ClosesOnlyItsOwn | adapter/lifecycle.ts:302-330 | a check closes a connection only when it is stale, and only the current one its own connect or reconnect returned |
| LifecycleRuns.SingleFlightIsNeeded | adapter/lifecycle.ts:314-315 | with two unfinished checks of one name, a stale one removes the current registration's pending record |
| LifecycleRuns.FailuresArePaced | adapter/lifecycle.ts:341-405 | in every run the failures since a record was cleared are its attempts, and the k-th comes no sooner than the sum of the delays before it |
| LifecycleRuns.DelayShape | adapter/lifecycle.ts:14-15 | delays start at 30 s, double up to the fourth, never shrink, and are at the 300 s cap exactly from the fifth on |
| LifecycleRuns.ShutdownIsQuiescent | adapter/lifecycle.ts:413-439 | once shutdown has begun no pass starts, closeAll runs at most once, and only after every pass and the health check have ended |
| LifecycleProgress.FailureRests | adapter/lifecycle.ts:383-405 | in every run, the piece that records a failure ends its check and leaves the server at rest for exactly its delay |
| LifecycleProgress.BackoffHolds | adapter/lifecycle.ts:341-349 | in every run, until that delay has passed no check of the server gets past its start, unless the name is disposed of, the manager shuts down, or a check finds the connection or its status changed |
| LifecycleProgress.BackoffEndsExactly | adapter/lifecycle.ts:341-349 | in every run, however long the server was left undisturbed, the next check that finds it unmoved and has something to do contacts it if and only if the delay has passed |
| LifecycleProgress.SuccessRestartsTheBackoff | adapter/lifecycle.ts:262-339 | in every run, after a publication, a refresh or an authorization notice that goes through, all failures the backoff counts came later |
| LifecycleProgress.PendingUntilSettled | adapter/lifecycle.ts:160-339 | a step removes a pending publication only when it went through, needs authorization, or is disposed of or shut down |
| LifecycleProgress.FailedPublicationIsRetried | adapter/lifecycle.ts:210-213 | in every run, once begun and until settled, a publication is what the next due check of the connected server does first, however often it fails |
| LifecycleProgress.EveryCheckEnds | adapter/lifecycle.ts:160-300 | in every run a check runs at most five pieces, although a superseded connection restarts it |
| LifecycleOutcomes.FailedConnectIsRecorded | adapter/lifecycle.ts:183-189 | a failed connect or reconnect of a registered server is recorded: one attempt more, due 30 s later, doubled per attempt, at most 300 s |
| LifecycleOutcomes.ClosedConnectIsRecorded | adapter/lifecycle.ts:195-204 | so is one that returns no connected session, against the connection it returned |
| LifecycleOutcomes.ConnectedIsPublished | adapter/lifecycle.ts:205-207 | one that connects is pending publication, and its check waits for that |
| LifecycleOutcomes.NeedsAuthIsAnnounced | adapter/lifecycle.ts:191-194 | one that needs authorization is announced and leaves no record |
| LifecycleOutcomes.StaleConnectIsClosed | adapter/lifecycle.ts:302-330 | a stale check closes what it connected while that is current, and touches no record |
| LifecycleOutcomes.FailedRefreshIsRecorded | adapter/lifecycle.ts:219-229 | a failed refresh of a connection that is still there is recorded, unless the session was lost |
| LifecycleOutcomes.LostSessionReconnects | adapter/lifecycle.ts:226-236 | a lost session is reconnected, unless an authorization is pending |
| LifecycleOutcomes.TimeoutIsRecorded | adapter/lifecycle.ts:266-269 | a refresh that timed out is recorded without a warning |
| LifecycleOutcomes.RefreshRestoresHealth | adapter/lifecycle.ts:270-273 | a refresh that went through clears the record, and announces health exactly when there was one |
| LifecycleOutcomes.SupersededFollowsTheManager | adapter/lifecycle.ts:276-296 | after a superseded refresh the manager's current connection is published, announced, or found healthy |
| LifecycleOutcomes.SupersededStartsOverOnce | adapter/lifecycle.ts:297-299 | without one the check starts over once, and then ends |
| LifecycleOutcomes.StaleRefreshEnds | adapter/lifecycle.ts:270-284 | a stale check touches nothing after a refresh |
| LifecycleOutcomes.FailedPublicationIsRecorded | adapter/lifecycle.ts:316-319 | a publication that throws is recorded and stays pending |
| LifecycleOutcomes.PublicationClears | adapter/lifecycle.ts:313-315 | one that goes through clears the name's records |
| LifecycleOutcomes.RecordedFailureRests | adapter/lifecycle.ts:341-405 | in every run, each of these recorded failures puts the server to rest |
| LifecycleOutcomes.StoppedChecksEnd | adapter/lifecycle.ts:166-220 | once the manager or the caller has stopped, a check ends without contact or record |
| LifecycleOutcomes.StaleCheckEnds | adapter/lifecycle.ts:166-170 | a queued check of a replaced, disposed or disabled definition does nothing |
| LifecycleOutcomes.NeedsAuthIsLeftAlone | adapter/lifecycle.ts:172-175 | a server that needs authorization is left alone and no longer pending |
| LifecycleOutcomes.CheckStarts | adapter/lifecycle.ts:176-218 | a check that may act connects, publishes or refreshes, by what the manager has |
| LifecycleOutcomes.RegistersExactly | adapter/lifecycle.ts:66-69 | an enabled definition replaces the name's registration, and nothing else changes |
| LifecycleOutcomes.UnregistersExactly | adapter/lifecycle.ts:77-83 | disposal forgets the name's registration and records, and nothing of other names |
| LifecycleOutcomes.PassStartsExactly | adapter/lifecycle.ts:122-127 | a pass that queues a check of every registration starts exactly when none is current and nobody has stopped |
| LifecycleOutcomes.PassEndsExactly | adapter/lifecycle.ts:128-133 | a pass whose checks are done makes way for the next |
| LifecycleOutcomes.HealthCheckProceeds | adapter/lifecycle.ts:108-149 | a health check starts, converges and ends, or stops early |
| LifecycleOutcomes.ShutdownBegins | adapter/lifecycle.ts:419-425 | shutdown stops the manager and waits for the health check |
| LifecycleOutcomes.ShutdownCompletes | adapter/lifecycle.ts:425-439 | once the health check and the current pass have ended, shutdown clears the records, closes all and ends |
| ManagerRuns.RunManager | adapter/lifecycle.ts:66-439 | a manager object driven by its own methods through any events goes through the states of Execute, of which the lemmas about runs speak |
| RuntimeRuns.GuardMeansCurrent | adapter/index.ts:211-224 | until an initialisation settles, its runtime guard holds exactly while it is the current promise |
| RuntimeRuns.RunKeepsInv | adapter/index.ts:833-1023 | every interleaving keeps owners, generations, promises and states consistent and every state accounted for |
| RuntimeRuns.PublishedStateIsCurrent | adapter/index.ts:883-905 | a published state belongs to the active owner and current generation and was handed to nobody |
| RuntimeRuns.OneInitializationIsCurrent | adapter/index.ts:833-989 | at most one unfinished initialisation belongs to the current runtime, and it is the current promise |
| RuntimeRuns.PublishedExactlyWhenCurrent | adapter/index.ts:883-905 | a produced state is published exactly when its promise is current, and handed to shutdown there and then otherwise |
| RuntimeRuns.EveryStateHasOneFate | adapter/index.ts:833-1011 | every state made is published, waiting, orphaned, or handed to shutdown exactly once |
| RuntimeRuns.OrphanedExactlyWhenReplacedDuringCall | adapter/index.ts:866-877 | in every run, the result of an initialisation's call of initializeMcp is dropped if and only if the runtime was replaced while that call was under way |
| RuntimeRuns.OrphanStartsOnly | adapter/index.ts:833-1011 | no other step drops a result and none takes a dropped one up again |
| RuntimeRuns.DroppedStateIsNobodys | adapter/index.ts:866-905 | the state such a call makes is never published and never handed to shutdown |
| RuntimeRuns.OrphanCanHappen | adapter/index.ts:866-877 | a run that leaves such a state: a session starts while a first operation's initialisation calls initializeMcp |
| RuntimeRuns.RetryFreedExactlyBeforeFinalization | adapter/index.ts:991-1000 | a failed current initialisation frees the promise for a retry exactly when it failed before finalization |
| RuntimeRuns.FinalizationCanFail | adapter/index.ts:954-984 | a run in which the current initialisation fails in finalization |
| RuntimeRuns.StuckUntilNextSession | adapter/index.ts:991-1023 | after that, until the next session event, nothing is published and no initialisation starts |
| RuntimeOutcomes.AskingStarts | adapter/index.ts:1013-1091 | in every run, after an undeferred current session start, a first operation, a retry or the load-time start, there is a state or a promise: what there was, or exactly one new and current initialisation |
| RuntimeOutcomes.FirstOperationStarts | adapter/index.ts:1013-1023 | a first operation takes over an active current owner and a positive generation |
| RuntimeOutcomes.FreshStartStarts | adapter/index.ts:253-260 | a retry and the load-time start bring a new owner and a new generation |
| RuntimeOutcomes.OvertakenStartIsSilent | adapter/index.ts:1084-1088 | a session start that was overtaken or deferred starts nothing |
| RuntimeOutcomes.SessionStartTakesOver | adapter/index.ts:1058-1082 | a session start brings a new generation and a new active owner, stops the old one, and hands over the published state |
| RuntimeOutcomes.SessionShutdownEmpties | adapter/index.ts:1147-1165 | a session shutdown leaves no owner, state or promise and hands over the published state |
| RuntimeOutcomes.LoadedExactly | adapter/index.ts:843-866 | loaded modules take exactly the current initialisation on to its call |
| RuntimeOutcomes.ContinuedExactly | adapter/index.ts:883-905 | a produced state is published, or handed over, and nothing else changes |
| RuntimeOutcomes.FinalizedExactly | adapter/index.ts:951-988 | finalization publishes for good, takes its state back and hands it over, or was overtaken |
| RuntimeOutcomes.CleanedExactly | adapter/index.ts:976-984 | the clean-up stops the owner of the state that was handed over |
| RuntimeOutcomes.FailedExactly | adapter/index.ts:991-1010 | the rejection handler frees the promise and stops the owner exactly for an early failure of the current initialisation |
| RuntimeOutcomes.UndisturbedStartIsPublished | adapter/index.ts:833-989 | a current initialisation that nothing disturbs ends with its state published for good |
| RuntimeOutcomes.FailedStartIsRetried | adapter/index.ts:253-260 | one that fails early makes way, and a retry then starts a new one |
| AdapterRuns.RunAdapter | adapter/index.ts:833-1168 | an adapter object driven by its own methods through any events goes through the states of Run, and hands over the same states |
| ToolRegistry.Claims | adapter/direct-tool-surface.ts:133-186 | claimed names are unique and are exactly the candidates' names that no builtin has |
| ToolRegistry.ResolveDirectTools | adapter/direct-tool-surface.ts:76-199 | the loops emit the available claims and reserve the names of all claims |
| ToolRegistry.DirectTools.SyncDirectTools | adapter/index.ts:523-586 | the class's sync is Sync, and reports the added, the updated and the deactivated names |
| ToolRegistry.DirectTools.SyncOne | adapter/index.ts:538-571 | one turn of the sync loop, with its mode flips and fallback re-activation |
| ToolRegistry.DirectTools.ForgetAll | adapter/index.ts:573-581 | the loop over names without a spec forgets each, with its lazy and searched standing |
| ToolRegistry.DirectTools.DeactivateTools | adapter/index.ts:504-521 | deactivation with and without a host that can unregister |
| ToolRegistry.DirectTools.HoldLazyToolsInactive | adapter/index.ts:448-454 | lazy tools no search has activated leave the active list, in order |
| ToolRegistry.DirectTools.ActivateSearchMatches | adapter/index.ts:462-480 | a search appends the matched inactive lazy tools of the right server, once each |
| ToolRegistryProofs.FirstCandidateClaims | adapter/direct-tool-surface.ts:137-145 | the first candidate of a free name gets it |
| ToolRegistryProofs.BuiltinsAreNeverClaimed | adapter/direct-tool-surface.ts:10 | none of the eight built-in names is claimed |
| ToolRegistryProofs.ClaimsKeepOrder | adapter/direct-tool-surface.ts:133-184 | claims keep the order in which their names are first met |
| ToolRegistryProofs.AvailabilityNeverReassigns | adapter/direct-tool-surface.ts:186-190 | an unavailable server's tools are dropped but keep their names: no other server gets them |
| ToolRegistryProofs.SyncMirrors | adapter/index.ts:523-584 | after a sync the registered map is the spec list's, lazy is its search-mode tools, and search-activated is within lazy |
| ToolRegistryProofs.SyncHoldsLazyTools | adapter/index.ts:448-454 | after a sync an active lazy tool is one a search activated |
| ToolRegistryProofs.SyncLeavesOthers | adapter/index.ts:523-584 | a sync leaves the active tools of other extensions as they were, in order |
| ToolRegistryProofs.EagerToolActivation | adapter/index.ts:538-571 | an eager tool is active after a sync if and only if it was before or this sync is one that switches it on |
| ToolRegistryProofs.RegisterSpecEffect | adapter/index.ts:538-571 | what one turn of the sync loop leaves of the tool's activation, standing and bookkeeping, and that it touches no other tool |
| ToolRegistryProofs.SyncTwiceIsSyncOnce | adapter/index.ts:523-584 | a second sync with the same specs changes, registers and deactivates nothing |
| ToolRegistryProofs.ReportedExactly | adapter/index.ts:538-558 | a tool is reported as added, updated or not at all according to what was registered before the whole sync |
| ToolRegistryProofs.DroppedToolsAreInactive | adapter/index.ts:573-584 | a registered tool that no spec has any more is inactive after the sync, on either kind of host |
| ToolRegistryProofs.DeactivationIsRemembered | adapter/index.ts:504-521 | which tools a host that cannot unregister them is remembered to have kept |
| ToolRegistryProofs.DroppedToolReturnsActive | adapter/index.ts:504-555 | an active tool that one sync drops and the next brings back eager is active again, on either kind of host |
| ToolRegistryProofs.SearchedToolStaysActive | adapter/index.ts:448-454 | a search-activated tool stays active over a sync that keeps it in search mode |
| ToolRegistryProofs.SearchOnlyAdds | adapter/index.ts:456-480 | a search deactivates nothing, adds each lazy tool that a match of its own server named, once, and remembers all it adds |
| ToolRegistryProofs.RunKeepsRegistry | adapter/index.ts:340-352 | every run of syncs, searches and host changes keeps the registry consistent |
| ToolRegistryProofs.SyncAfterAnyRun | adapter/index.ts:523-584 | all of the above hold of a sync after any such run |
| ConfigMerge.MergeServerMaps | adapter/config.ts:661-719 | the loop over the higher map merges each of its servers and keeps the others |
| ConfigMerge.MergeOne | adapter/config.ts:678-718 | the deleting branches, in their order, leave the existing entry without Strips, then merge |
| ConfigMerge.Load | adapter/config.ts:642-651 | whole configurations, however grouped and cloned, merge server by server |
| LoadOrder.ExpandImports | adapter/config.ts:728-750 | an earlier import wins, and a file's own servers are merged onto its imports' |
| LoadOrder.FirstImportExactly | adapter/config.ts:732-741 | an import counts for a server exactly when it is the first that has it |
| LoadOrder.LoadHosts | adapter/config.ts:398-408 | discovered host files are merged in order, later ones on top |
| LoadOrder.MergeClaudeDefaults | adapter/config.ts:363-379 | a Claude plugin's server lies below all others, and is dropped exactly when the last higher server of its namespace has another name |
| LoadOrder.ClaudeEntryExactly | adapter/config.ts:369-377 | a Claude plugin's server is used exactly when every higher server of its namespace with another name is followed by its own |
| LoadOrder.PluginHidesPackage | adapter/config.ts:329-351 | an Agent Plugin hides a package's server of its name; exclusive mode ignores packages and host files |
| LoadOrder.LoadMcpConfig | adapter/config.ts:325-353 | every loaded server has the entry of the merge tree that the source kinds and their order fix |
| LoadOrder.LoadedFlag | adapter/config.ts:325-353 | a loaded server's flag is that of the highest layer that has one, in the order Claude plugins, packages, Agent Plugins, host files, then each source's imports and own servers |
| ConfigMerge.EffectiveFieldIsItsSuppliers | adapter/agent-plugin-provenance.ts:21-36 | in every merge tree a field is in effect, with whose value and with whose literal mark: its last supplier's, unless stripped since |
| ConfigMerge.InheritedFieldSurvivesExactly | adapter/config.ts:678-718 | an inherited field survives a layer if and only if the layer chooses no other transport than the field's own, changes no url the field is bound to, and replaces no plugin environment it describes |
| ConfigMerge.CredentialSurvivesExactly | adapter/config.ts:679-712 | an inherited credential survives a layer if and only if the layer brings no new transport and no other url |
| ConfigMerge.UrlChangeDropsCredentials | adapter/config.ts:704-712 | a layer with another url string carries over none of headers, bearerToken, bearerTokenEnv, bearerTokenStore, requestHeadersCommand and caFile, and oauth only where it is false |
| ConfigMerge.MergedMarksExactly | adapter/agent-plugin-provenance.ts:21-36 | which of args, env, cwd and headers a merge and a clone leave marked as literal |
| ConfigMerge.CredentialsAreSentOnlyToTheirUrl | adapter/config.ts:654-659 | in every merge tree a credential whose supplier also gave a url is in effect only with that url |
| ConfigMerge.CredentialsStayWithTheUrlTheyMet | adapter/config.ts:668-677 | the url in effect with a credential was in effect where the credential came in |
| ConfigMerge.EffectiveHasOneTransport | adapter/config.ts:679-703 | if every layer names at most one of command, url and socket, so does the result |
| DisabledOverride.ProjectFile.WriteProjectServerDisabledOverride | adapter/config.ts:1172-1233 | the class's write is Override, with its error cases and its test for no change |
| DisabledOverride.FlagIsLastSuppliers | adapter/config.ts:642-651 | under every grouping of layers the flag in effect is the last supplier's |
| DisabledOverride.LowerSourcesIsTree | adapter/config.ts:1209-1220 | what the writer merges from the other sources is a merge tree of their imported and own layers |
| DisabledOverride.OverrideWritesOnlyTheFlag | adapter/config.ts:1204-1232 | the write changes only the flag of the one server, in what a read finds |
| DisabledOverride.OverrideTwiceIsUnchanged | adapter/config.ts:1224-1226 | a second identical call reports no change |
| DisabledOverride.OverrideFailsExactly | adapter/config.ts:1192-1218 | the write fails if and only if the servers value is null or no object, the server's entry is no object, or the call enables and an unknown kind is imported |
| DisabledOverride.OverrideWritesExactly | adapter/config.ts:1204-1226 | otherwise it changes nothing if and only if the entry already is as the call asks |
| DisabledOverride.ReadsExactly | adapter/config.ts:841-847 | a file's servers are read from mcpServers, and from mcp-servers when that is absent or null |
| DisabledOverride.OverrideWritesInPlace | adapter/config.ts:1190-1230 | the write goes to the key the file already uses and leaves the other one alone |
| DisabledOverride.FirstDisabling | adapter/config.ts:1192-1232 | without a project file, disabling a server writes one with its flag |
| DisabledOverride.OverrideTakesEffect | adapter/config.ts:1172-1233 | after a reload disabling has always taken effect, and the server is still disabled after enabling if and only if no source the writer consults has the flag and a hidden layer disables it |
| OverrideReload.OverrideTakesEffectOnLoad | adapter/config.ts:325-353 | the same for the flag in the load itself, with the project file on top: its hidden layers are the plugins', the packages' and the discovered host files' |
| OverrideReload.EnablingCanFail | adapter/config.ts:343-352 | a load in which a package disables a server, and enabling it changes no file and nothing else |
| OverrideReload.PresentExactly | adapter/config.ts:325-353 | a server is among the higher ones exactly when the project file has an entry for it or another layer names it |
| OverrideReload.ClaudeEntryChanges | adapter/config.ts:363-379 | when one server's entry changes, a Claude plugin's server comes into use or goes out of it exactly when that one comes or goes and decides its namespace |
| OverrideReload.EntryComesOrGoes | adapter/config.ts:1203-1229 | for a server named nowhere else, the write adds or deletes its entry exactly when disabling finds none or enabling finds only the flag |
| OverrideReload.OverrideSparesOthersExactly | adapter/config.ts:1172-1233 | after the write and a reload every other server's merge tree is as before, if and only if the write does not add or delete the only entry of a server that decides whether the other's Claude plugin default is used; else, if nothing higher names it, the other appears or disappears |
| OverrideReload.OverrideKeepsOtherFieldsOnLoad | adapter/config.ts:1172-1233 | for the server itself its Claude plugin default is used as before under the same kind of condition, and then every field but the flag and every literal mark is as before |
| OverrideReload.EnablingCanRevealAnother | adapter/config.ts:369-377 | a load in which enabling my_server makes a Claude plugin's my-server appear |
| OverrideReload.EnablingCanDropTheServer | adapter/config.ts:369-377 | a load in which enabling a Claude plugin's server makes that server disappear |
| DisabledOverride.TwinsLoadAlike | adapter/config.ts:728-750 | trees that differ only in flags load to entries that differ only in the flag |
| DisabledOverride.OverrideKeepsOtherFields | adapter/config.ts:1204-1232 | the file's layer before and after the write is such a pair |
| Paths.ContainmentExactly | adapter/config.ts:585-588 | the configuration's test accepts exactly what is the base or below it; the skill loader's rejects also what is below a child named with two leading dots |
| Paths.ContainmentTestsDiffer | adapter/claude-plugin-loader.ts:301-304 | a path on which the two tests disagree |
| SkillDiscovery.ClosedHoldsWalk | adapter/claude-plugin-loader.ts:194-236 | a set of directories closed under contained children holds all that its members reach |
| SkillDiscovery.SkillScanner.Visit | adapter/claude-plugin-loader.ts:197-233 | a visit terminates on any graph, enters new directories once, and leaves what it entered closed and reached from its start |
| SkillDiscovery.SkillScanner.VisitEntry | adapter/claude-plugin-loader.ts:209-231 | one entry of a listing: link, directory, file or other |
| SkillDiscovery.SkillScanner.VisitLink | adapter/claude-plugin-loader.ts:210-220 | a symbolic link leads into a contained directory, to a contained skill file, or nowhere |
| SkillDiscovery.DiscoverContainedSkillFiles | adapter/claude-plugin-loader.ts:194-236 | the directories entered are exactly those reachable through contained ones, each once, and the result is exactly their contained SKILL.md targets, once per listing |
| SkillDiscovery.SkillsCount | adapter/claude-plugin-loader.ts:208-231 | a listing counts a skill file once for every entry that is it or points to it |
| AncestorSources.GetConfiguredAncestorRoot | adapter/config.ts:590-622 | only the last global source with the setting counts; the chosen root lies under home and around cwd, and every other such entry of it contains the chosen one |
| AncestorSources.ChooseRoot | adapter/config.ts:604-621 | the loop over the entries, and the longest of those that qualify |
| AncestorSources.GetAncestorProjectDirs | adapter/config.ts:624-636 | the walk terminates and yields the chain from the root to cwd's parent |
| AncestorSources.ChainIsTheLineBetween | adapter/config.ts:624-636 | that chain is every directory between the two, farthest first |
| AncestorSources.ReinsertKeepsLast | adapter/config.ts:533-542 | deleting before setting keeps each identity at its last occurrence |
| AncestorSources.KeptIsDetermined | adapter/config.ts:533-542 | keeping the last occurrence of each identity in order fixes the list |
| AncestorSources.KeptExactly | adapter/config.ts:526-546 | the sources kept are eligible files, one per identity, and no eligible file is missing |
| AncestorSources.GetAncestorSources | adapter/config.ts:514-547 | the nested loops keep the last occurrences of the eligible files, with distinct identities, none of them reserved |
| AncestorSources.LastSettingDecides | adapter/config.ts:591-600 | the setting of the last source that has one decides alone |
| AncestorSources.SourcesAreNearest | adapter/config.ts:528-546 | sources come farthest first, shared files before Pi's, and of all names of one file the nearest is kept |
| ElicitationMenus.FreeIsShortest | adapter/elicitation-handler.ts:275-286 | a label is lengthened by the fewest characters that make it unused |
| ElicitationMenus.UniqueAction | adapter/elicitation-handler.ts:282-286 | the loop terminates and gives a lengthened label that is not among the choices |
| ElicitationMenus.UniqueLabels | adapter/elicitation-handler.ts:272-280 | the loops terminate and label the list |
| ElicitationMenus.LabelsAreDistinct | adapter/elicitation-handler.ts:272-280 | displays are pairwise distinct |
| ElicitationMenus.LabelsKeptExactly | adapter/elicitation-handler.ts:272-280 | labels stay as they are if and only if they were distinct |
| ElicitationMenus.DisplaysShowTheirLabels | adapter/elicitation-handler.ts:272-280 | each display is its own label, possibly lengthened |
| ElicitationMenus.EnumActionsShowTheirEntries | adapter/elicitation-handler.ts:133-138 | the strings the enum menu offers are distinct, one per choice, default and omission, and each shows its own entry |
| ElicitationMenus.EveryEntryDecodes | adapter/elicitation-handler.ts:139-143 | each offered string is collected as its own entry, and one that was not offered as nothing |
| ElicitationMenus.CollectEnum | adapter/elicitation-handler.ts:126-144 | the branch offers those strings and its string comparisons decode them so |
| ElicitationMenus.AcceptedExactly | adapter/elicitation-handler.ts:199-221 | when a string field's value is accepted |
| ElicitationMenus.CollectValidEnum | adapter/elicitation-handler.ts:86-112 | on any answers an enum field takes the first that cancels or is accepted, so a required one ends cancelled, still open, or with one of its choices |
| ElicitationMenus.EveryAnswerMeansOnePick | adapter/elicitation-handler.ts:169-175 | every answer to the multi-select menu means exactly one pick |
| ElicitationMenus.OfferedShowTheChoices | adapter/elicitation-handler.ts:169-171 | the menu shows each choice at its position, marked when selected, and Done last |
| ElicitationMenus.DialogueIsUnique | adapter/elicitation-handler.ts:168-178 | a list of answers can be read as picks in one way only |
| ElicitationMenus.SelectedByParity | adapter/elicitation-handler.ts:176-177 | a value ends selected exactly when its start and the number of its picks say so, and nothing is selected twice |
| ElicitationMenus.MultiSelect.Turn | adapter/elicitation-handler.ts:168-178 | one turn decodes the answer to its pick and toggles, ends or asks again |
| ElicitationMenus.CollectMultiSelect | adapter/elicitation-handler.ts:167-178 | on any answers the loop leaves the start set with every pick toggled, and Done returns it |
| ElicitationRounds.CollectArray | adapter/elicitation-handler.ts:157-179 | one round of the array branch: the default, the omission, or a selection made in the menu |
| ElicitationRounds.AcceptedListExactly | adapter/elicitation-handler.ts:244-258 | when a multi-select field's value is accepted |
| ElicitationRounds.CollectValidMultiSelect | adapter/elicitation-handler.ts:86-112 | on any answers a multi-select field takes the value of the first accepted round, and each rejected round's value is where the next one starts |
| ElicitationRounds.SelectionCarriesOver | adapter/elicitation-handler.ts:86-112 | over any number of rejected rounds that choose values, the selection is the start set with every pick of every round toggled |

## Left out

- Bearer store: JSON and SHA-256 are an abstract codec with stated laws; that different saved payloads have different truncated digests is a precondition of the read and atomicity results. Keyring loading and the URL checks are not modelled. Each account operation happens at one instant and keeps every code unit it is given: two processes saving at once, and a keyring that re-encodes a chunk ending inside a surrogate pair, are not modelled.
- BearerStoreProofs.StoredValuesFit: assumes payloads no longer than the longest ECMAScript string, 2^53 - 1 code units.
- Keep-alive manager: callbacks and `close` are assumed not to throw outside the try blocks, `parallelLimit` to wait for all of its workers, and a pass not to call back into the manager before its first await. The failure callback, console messages, and the maps of all servers and their idle settings are left out. Restarting health checks after they stopped, and idle timeouts, are not modelled.
- Runtime publication: the handlers' own later assignments of an awaited state (`adapter/index.ts:1230`, `1375`, `1442`, `1785`), OAuth runtimes, status publication and the rollback of tool sets after a failed finalization (`adapter/index.ts:958-969`) are not modelled.
- ToolRegistry.ResolveDirectTools: which tools of a server's cache become candidates (selectors, filters, prefixes, cache validity) is an input.
- Direct tools: the bookkeeping of reported names and versions, proxy and namespace tools, and the state before the host's tool functions are ready are not modelled.
- Direct tools: the host's own registration is taken to be what the adapter's comments say: it activates a tool it does not know and only replaces one it does. Where it has `unregisterTool`, that is taken to answer true exactly for the tools the host knows, and to take them off the active list.
- Configuration: parsing, validation, interpolation, the merge of `settings`, and what packages, Claude and Agent plugins contain are inputs, as is the order in which a merged object enumerates its names.
- OverrideReload.OverrideTakesEffectOnLoad: the project file is the last source, as it is outside exclusive mode.
- OverrideReload.OverrideKeepsOtherFieldsOnLoad: literal marks are taken to cover only fields that are present, as the Agent Plugin loader sets them (`adapter/agent-plugin-loader.ts:243-276`).
- OverrideReload.OverrideSparesOthersExactly: the names that both loads have are enumerated in the same order.
- AncestorSources.GetConfiguredAncestorRoot: takes what realpath and stat answer for each entry; Windows paths are left out.
- SkillDiscovery.DiscoverContainedSkillFiles: the file system does not change during the walk, and the order of the result, which follows the locale's name order, is not stated.
- Menus: boolean, number and text fields and the review screen, which only add single branches; the length limits, the numbers of items and the schema validator are one abstract test of a collected value.
- The adapter's server manager, OAuth flow, metadata cache, panels, bundled user interface and everything outside `adapter/`.
