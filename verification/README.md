# Verified model of the news platform's core

A Dafny model of the parts of this Go repository whose correctness depends on interleavings, whole runs or
all nested values. Each module states what its component does as functions or atomic steps, gives the
methods that change state in their own form, proved against those functions, and then proves what the
component is for.

| module | component |
|---|---|
| SourceRegistry, SourceFence | sources added, replaced and removed while fetches run; the generation counters and gates that fence stale effects |
| DirectStore, DirectDelivery | direct messages: admission records, claims, per-channel checkpoints, crash and recovery, the drain at shutdown |
| EnvReferences, ConfigManager | the configuration file with `${ENV}` references, external writers, and edits with a runtime step and rollback |
| DeliverySlots | the digest delivery worker's send slots and the claim lifetime computed from waves |
| Supervisor, FrameScanner | the child-process supervisor's calls and reverse requests; the scanner for repeated JSON keys |
| RoutePolicy, RouteBatch, RoutePhrase | typed routing: validation, decision, one batch, critical keywords |
| RateWindows, AiLimits, RateLimit | fixed one-minute windows and what they admit in any minute |
| Sorting, TopicDigest | the digest text, independent of input order |
| RecencyCache | the least-recently-written caches of the deduplication filter |
| Utf8Cut | cutting UTF-8 text (section 4 of RFC 3629) to a byte limit |
| DigestMigration | the one-time topic migration of the digest store |

Concurrent components are state machines. A step is one critical section, one atomic operation or one
blocking call; a run is any sequence of enabled steps of any number of actors. What the operating system, a
library, another process or a remote service decides is a parameter of the step, so every theorem holds
whatever they answer. Sequential code that loops over changing variables is a method, and objects whose
methods update fields are classes; their postconditions give the whole new state.

Where the code does not keep what its comments or names promise, the model follows the code and proves
exactly when the promise holds:

- Two channels of one name pass validation, and a write that edits nothing can then lose a reference; so
  can a reference without braces; and an edit with a dollar sign is expanded again (EnvReferences, with the
  exact condition for every configuration).
- A rendered topic is more than one line of text if its title or a source name has a line break
  (TopicDigest.TextKeepsLimit).
- A preview's hash covers ids only, so the apply may do something else than was previewed; exactly when is
  DigestMigration.AppliedAsPreviewedIff, and ChangedSourceIsApplied is a case.
- A NaN minimum score passes validation and never matches (RoutePolicy.AcceptedBandTakesSomeScore;
  NaNPolicyIsNeverDirect is such a policy).
- The lane in a message's metadata can differ from the lane of its record in the store
  (RouteBatch.TagTellsLane says exactly when; DigestRecordIsTaggedDirect is a case).

Two edge cases the theorems include: a cache capacity below one acts as one (RecencyCache), and a negative
per-minute limit admits nothing (AiLimits, RateLimit).

`dafny verify dfyconfig.toml` checks the whole project.

## Model

| member | source | states |
|---|---|---|
| `SourceFence.HolderExcludesChanges` | internal/core/news_engine.go:1402-1432 | In every reachable state of every interleaving, while a fetch holds effects the registry serves exactly its source and generation, and no activation, disabling or removal of that name can commit |
| `SourceFence.EffectsBlockCommit` | internal/core/news_engine.go:1302-1313 | An effect holder and a committer of the same name contend on one gate, so the committer's write lock cannot coexist with the holder's read lock |
| `SourceFence.GateIsStable` | internal/core/news_engine.go:1255-1273 | Once a name has a generation of at least 1 its stored gate never changes again, and generations never decrease, although preparing and removing may create a gate without storing it |
| `SourceFence.RunIsLinearizable` | internal/core/news_engine.go:1285-1348 | The log of commits and effects of any run replays to the registry: each commit was prepared from, and each effect belongs to, the source and generation serving at that moment |
| `SourceFence.OneCommitPerSnapshot` | internal/core/news_engine.go:1302-1318 | Along the log the generations committed for a name strictly increase, also across removal and re-adding, so of all changes prepared from one snapshot at most one commits |
| `SourceFence.NoStaleEffect` | internal/core/news_engine.go:821-833 | An effect logged after a commit of its name was fetched under the committed generation or a later one, never an older one |
| `SourceFence.Preserved` | internal/core/news_engine.go:1408-1432 | Every atomic step keeps the invariant that ties gate identity, lock ownership and generations together |
| `SourceFence.NeverDeadlocked` | internal/core/news_engine.go:1302-1348 | In every reachable state in which an actor is under way, some actor under way has a step: writers, readers and waiters of the gates never block each other for good |
| `SourceFence.UndisturbedFetchTakesEffect` | internal/core/news_engine.go:1402-1432 | Where no writer holds the gate, a fetch of a registered name reaches its effects with the source and generation that serve |
| `SourceFence.EffectsEnd` | internal/core/news_engine.go:1402-1440 | A fetch in its effects logs them, gives its gate back and goes round with the same source and generation |
| `SourceFence.UndisturbedChangeCommits` | internal/core/news_engine.go:1285-1348 | Where the gate is free, a prepared change that still matches is committed, logged once, and its gate freed |
| `SourceRegistry.PrepareKeepsValid` | internal/core/news_engine.go:1235-1274 | Preparing a change keeps the registry consistent and returns the source and generation it saw |
| `SourceRegistry.RemovalKeepsValid` | internal/core/news_engine.go:1442-1451 | The snapshot of a removal keeps the registry consistent even though its fresh gate is not stored |
| `SourceRegistry.OneGate` | internal/core/news_engine.go:1252-1273 | A name has one gate from the moment one is stored: fetches that had to make it up, later fetches and later changes carry the same |
| `SourceRegistry.CommitKeepsValid` | internal/core/news_engine.go:1302-1344 | A commit installs or removes exactly its own name under the next generation and stores its gate; source, generation and gate of every other name stay |
| `SourceRegistry.CommitListsItsInfo` | internal/core/news_engine.go:1319-1336 | An installed info stands where its name stood in the scheduling list, or at the end if the name is new, every other entry at its own place; a removed name goes and the others keep their order |
| `SourceRegistry.TriggerAfterCommit` | internal/core/news_engine.go:1302-1344 | After a commit a trigger finds the change's source and info under the next generation, or nothing after a removal, and for every other name what it found before |
| `SourceRegistry.TriggerFindsInfo` | internal/core/news_engine.go:187-231 | In a consistent registry the info a trigger finds is the only one of its name |
| `SourceRegistry.ConfiguredIsFound` | internal/core/news_engine.go:187-231 | In a new engine a trigger finds each configured source with its own info at generation 1 |
| `SourceRegistry.ConfiguredIsValid` | internal/core/news_engine.go:174-236 | The engine is built with every configured source at generation 1 behind its own gate |
| `SourceRegistry.ConfiguredNames` | internal/core/news_engine.go:187-231 | Exactly the configured names are registered |
| `SourceRegistry.ReplacedAt` | internal/core/news_engine.go:1319-1333 | The list of infos is updated at the first entry of the name, or extended if there is none |
| `SourceRegistry.WithoutAt` | internal/core/news_engine.go:1474-1479 | Removal drops the first entry of the name and keeps the order of the others |
| `SourceRegistry.NewsEngine.constructor` | internal/core/news_engine.go:174-236 | The constructed maps equal the specification's registry |
| `SourceRegistry.NewsEngine.PrepareSourceChange` | internal/core/news_engine.go:1252-1273 | The method's new maps and its change are the specification's |
| `SourceRegistry.NewsEngine.BeginRemoval` | internal/core/news_engine.go:1442-1451 | The locked snapshot of RemoveSource equals the specification's |
| `SourceRegistry.NewsEngine.CommitChange` | internal/core/news_engine.go:1302-1344 | It commits if and only if source and generation still match the snapshot, and then makes exactly the specification's change; the name has a scheduling goroutine afterwards if and only if the engine runs and the new source is new or took over from a scheduled one; a look-up afterwards finds exactly the committed source and info, and other names unchanged |
| `SourceRegistry.NewsEngine.Start` | internal/core/news_engine.go:372-407 | A started engine runs and has a scheduling goroutine for exactly the registered names |
| `SourceRegistry.NewsEngine.IsCurrentSource` | internal/core/news_engine.go:1402-1406 | True if and only if the registry serves this very source at this generation |
| `SourceRegistry.NewsEngine.GateFor` | internal/core/news_engine.go:1408-1416 | A missing gate is created and stored |
| `SourceRegistry.NewsEngine.Lookup` | internal/core/news_engine.go:311-342 | A trigger is refused if and only if the engine does not run; else it finds the source together with its info and current generation exactly for registered names |
| `DirectDelivery.FinishedClaimCalls` | internal/core/routing.go:165-209 | Over all interleavings and crashes, a claim worked to its end made exactly one release call, as its last; an unfenced, well-formed one attempted each channel once, in order, and reported each attempt: complete if and only if the dispatch succeeded, failed for good if and only if the channel is not configured, failed for now if and only if the dispatch failed |
| `DirectDelivery.StoredCompletionDelivers` | internal/core/routing.go:196-202 | A completion the store takes leaves the channel delivered whenever the record still holds the claim |
| `DirectDelivery.DeliveredOnlyGrows` | internal/store/digest_routing.go:224-263 | What is delivered stays delivered over failures, releases, takeovers, crashes and recoveries |
| `DirectDelivery.WorkersNeverStuck` | internal/core/news_engine.go:460-480 | Until it is done every worker has an enabled step of its own |
| `DirectDelivery.CompletedOnlyAfterSend` | internal/core/routing.go:185-202 | Every completion follows the same worker's successful dispatch to that channel, and every channel the store holds as delivered was sent, over any claims, failures, crashes and recoveries |
| `DirectDelivery.ClosedMessageIsAccounted` | internal/store/digest_routing.go:224-263 | A message closed by the store lost no channel: each was sent or failed terminally |
| `DirectDelivery.FenceHolds` | internal/core/news_engine.go:460-470 | In any run a claim is fenced, and not counted, if and only if Stop has lowered the flag; otherwise it is counted and its delivery begins |
| `DirectDelivery.DrainIsFinal` | internal/core/news_engine.go:483-542 | From the moment Stop lowers the flag until the engine is started again or crashes, deliveries in flight only drain, and none are left when Stop has returned |
| `DirectDelivery.Reachable` | internal/core/news_engine.go:426-480 | Every reachable state keeps records, workers and the in-flight count consistent, store calls that fail and change nothing included |
| `DirectDelivery.DirectRunner.DeliverDirectClaim` | internal/core/routing.go:165-209 | Each configured channel is sent to once; the call for it completes exactly what was sent, fails for good exactly what is not configured and for now exactly what failed; then one release; true if and only if every channel was sent and recorded and the release succeeded |
| `DirectDelivery.DirectRunner.RunDirectClaim` | internal/core/news_engine.go:460-480 | A fenced claim is only released; any other is delivered, and the in-flight count is back where it was |
| `DirectStore.DueChannelsAreUnfinished` | internal/store/digest_routing.go:299-308 | The store hands out exactly the due channels, none of them finished |
| `DirectStore.ClaimGranted` | internal/store/digest_routing.go:146-181 | A claim is granted if and only if the record is a direct one with a message, is open, its lease is over and some channel is due |
| `DirectStore.CompleteKeepsValid` | internal/store/digest_routing.go:224-263 | A completion is accepted if and only if the claim and the channel are the record's; it adds exactly its channel to the delivered ones |
| `DirectStore.FailKeepsValid` | internal/store/digest_routing.go:183-222 | A failure never changes what was delivered; a permanent one settles the channel |
| `DirectStore.FailureIsRecorded` | internal/store/digest_routing.go:183-222 | A failure counts one attempt of its channel, for good if and only if it is permanent or the tenth, and otherwise the channel is due again exactly when the backoff is over; no other channel is touched |
| `DirectStore.ReleaseKeepsValid` | internal/store/digest_routing.go:265-287 | A release gives up this claim's token and nothing else |
| `DirectStore.StaleTokenIsHarmless` | internal/store/digest_routing.go:183-287 | Calls under a token that is not the record's change nothing |
| `DirectStore.BackoffIsCapped` | internal/store/digest_routing.go:207-213 | The retry delay doubles from 30 seconds and stays at 3840 from the eighth failure on |
| `EnvReferences.HasReferenceIff` | internal/config/fingerprint.go:102-147 | A text has a reference if and only if a dollar sign with a brace right behind it occurs in it |
| `EnvReferences.EditSurvives` | internal/config/fingerprint.go:102-147 | At every depth of maps and lists: expanding the preserved edit gives the edit back if and only if each string is a restored reference or untouched by expansion |
| `EnvReferences.ReferencesSurvive` | internal/config/fingerprint.go:102-147 | Writing back the unedited live value gives the raw value back if and only if every changed raw string contains a braced reference |
| `EnvReferences.ConfigEditSurvives` | internal/config/fingerprint.go:58-100 | The same round trip for whole configurations, without any demand on names |
| `EnvReferences.ConfigReferencesSurvive` | internal/config/fingerprint.go:58-100 | For every configuration, also with several channels of one name: an unedited write restores the file if and only if each text is restored to itself from the last entry of its name, or is not restored and untouched by expansion |
| `EnvReferences.KeptIffRestored` | internal/config/fingerprint.go:102-147 | The same at every depth of one value compared with the value of the last entry |
| `EnvReferences.UniqueNamesReferencesSurvive` | internal/config/fingerprint.go:58-100 | With unique names an unedited write restores the file if and only if all its references are braced |
| `EnvReferences.PlainEditSurvives` | internal/config/fingerprint.go:58-147 | An edit without dollar signs always survives the write and the reload |
| `EnvReferences.BracedDollarsSurvive` | internal/config/fingerprint.go:58-147 | If every raw string with a dollar sign has a braced reference and names are unique, an unedited write keeps the file |
| `EnvReferences.DollarEditIsRewritten` | internal/config/platform.go:329-346 | An edit holding an unbraced reference is rewritten by the reload: a concrete environment and edit |
| `EnvReferences.DuplicateChannelLosesReference` | internal/config/fingerprint.go:65-80 | Two channels of one name pass validation, and an unedited write then loses a reference: a concrete configuration |
| `EnvReferences.FixedIffUnchanged` | internal/config/platform.go:329-346 | Expansion leaves a nested value alone if and only if it leaves each of its strings alone |
| `EnvReferences.PreserveEnvValue` | internal/config/fingerprint.go:113-140 | The recursive in-place walk computes the preservation function |
| `EnvReferences.PreserveEnvMap` | internal/config/fingerprint.go:102-111 | The walk over a map, in any order, computes the preservation function |
| `EnvReferences.ChannelsByName` | internal/config/fingerprint.go:65-72 | A map filled in list order finds the last channel of a name |
| `EnvReferences.PreserveChannels` | internal/config/fingerprint.go:65-81 | Each edited channel is merged with the raw and live channel of its name |
| `EnvReferences.PreserveSources` | internal/config/fingerprint.go:83-99 | Each edited source is merged with the raw and live source of its name |
| `EnvReferences.PreserveEnvironmentReferences` | internal/config/fingerprint.go:58-100 | The whole method computes the preserved configuration |
| `ConfigManager.AlwaysCoherent` | internal/config/manager.go:426-494 | In every reachable state raw, live and fingerprint come from one byte string, and raw and live are valid, whatever other processes write |
| `ConfigManager.RevisionTellsChange` | internal/config/manager.go:115-144 | Revisions never decrease, and an equal revision means that nothing in memory changed in between |
| `ConfigManager.Preserved` | internal/config/manager.go:701-747 | Each section either leaves memory alone or swaps in another coherent configuration and adds one to the revision |
| `ConfigManager.FailedMutationOutcomes` | internal/config/manager.go:293-375 | After a failed runtime step the rollback succeeds if and only if nothing changed since the write and the file can be written; then bytes, raw, live and fingerprint are exactly those of before with the revision two higher; otherwise it reports an error and overwrites nothing |
| `ConfigManager.SuccessfulMutation` | internal/config/manager.go:304-353 | Along a run: the write leaves the edit, as EditedAsMeant says what it is, with its references in file and memory, live equal to the edit if and only if that is stable under expansion; the later success of the runtime step touches nothing, and memory is then still what was written if and only if no section swapped in between |
| `ConfigManager.EditedAsMeant` | internal/config/manager.go:612-655 | An edit fails if and only if no source has the name; dropping takes out the first of the name and keeps all others in order; replacing keeps every other position and puts the given source under that name, with its own enabled flag or else the old one; no other field changes |
| `ConfigManager.MutationBeginsIff` | internal/config/manager.go:304-353 | A mutation begins if and only if the file still has the bytes memory came from, a source has the name, the edit with its defaults is valid before and after it is written and parsed again, and the file can be written |
| `ConfigManager.PersistsIff` | internal/config/manager.go:445-494 | A write happens if and only if the file still has the bytes memory came from, the outcome is valid and the file can be written: another process's bytes are never overwritten |
| `ConfigManager.ReloadTakesFile` | internal/config/manager.go:115-144 | A reload succeeds if and only if the bytes read are valid and still the file's; memory then mirrors them and the file is left alone |
| `ConfigManager.PreviewCommitsIff` | internal/config/manager.go:701-747 | A previewed reload is committed if and only if nothing was committed since and the file had the previewed, valid bytes on all three looks |
| `ConfigManager.DefaultsFillGaps` | internal/config/platform.go:189-301 | Defaults leave no gap, change nothing if and only if there is none, and touch only the gaps, entry by entry |
| `ConfigManager.PersistGivesEdit` | internal/config/manager.go:426-441 | What a write leaves on disk, as raw and as live, including that a dollar-free edit is live as edited |
| `ConfigManager.TicketIsSnapshot` | internal/config/manager.go:612-655 | What the first section keeps for the rollback are the bytes and configurations of before the write |
| `ConfigManager.TicketKept` | internal/config/manager.go:656-676 | Other sections in between do not change what a rollback will restore |
| `ConfigManager.MirrorsIsUnique` | internal/config/fingerprint.go:45-48 | Memory mirrors at most one byte string |
| `ConfigManager.DefaultsAreIdempotent` | internal/config/platform.go:189-301 | Applying the defaults twice is applying them once |
| `ConfigManager.DefaultsIgnoreReferences` | internal/config/fingerprint.go:25-43 | Restoring references does not undo a default, so parsing what was written applies none again |
| `ConfigManager.Validate` | internal/config/platform.go:165-186 | The loop with its set of seen names accepts exactly the valid configurations |
| `ConfigManager.ParsePlatformBytes` | internal/config/fingerprint.go:25-43 | Decoding, defaults, validation, expansion and validation again |
| `ConfigManager.ConfigManager.PersistBytesLocked` | internal/config/manager.go:445-494 | It refuses a file changed outside and otherwise swaps bytes, copies, fingerprint and revision together; on an error nothing changes |
| `ConfigManager.ConfigManager.PersistLocked` | internal/config/manager.go:426-441 | References restored, encoded, parsed again, then written |
| `ConfigManager.ConfigManager.BeginMutation` | internal/config/manager.go:304-353 | The first locked section, each of its error cases included |
| `ConfigManager.ConfigManager.RollBack` | internal/config/manager.go:358-373 | The second locked section: conflict, or the snapshot written back |
| `ConfigManager.ConfigManager.Reload` | internal/config/manager.go:115-144 | The locked half of a reload |
| `ConfigManager.ConfigManager.CommitPreviewLocked` | internal/config/manager.go:701-747 | A preview is committed only at its own revision and if all three looks at the file agree |
| `ConfigManager.ConfigManager.FindSource` | internal/config/manager.go:327-338 | The loop finds the first source of the name |
| `ConfigManager.ConfigManager.EditSource` | internal/config/manager.go:322-342 | The source is replaced in place, keeping its enabled flag if the edit has none, or dropped; nothing without such a source |
| `DeliverySlots.SendsAreBounded` | internal/core/digest_delivery_worker.go:272-295 | In every reachable state at most `concurrency` sends run, those that outlived their timeout included; each attempt is recorded at most once, and once when its cycle is over |
| `DeliverySlots.UndisturbedAttemptIsRecorded` | internal/core/digest_delivery_worker.go:272-295 | A waiting attempt with a slot free is sent, gives its slot back and is recorded once |
| `DeliverySlots.ScheduleBounds` | internal/core/digest_delivery_worker.go:194-257 | If sends return within the timeout and all slots are free at the start, every schedule of a batch in any order keeps each send within its waves |
| `DeliverySlots.BatchFinishesInTime` | internal/core/digest_delivery_worker.go:194-216 | A claimed batch of at most batchSize attempts: after ceil(batch / concurrency) timeouts every attempt has been sent, and once the claim's lifetime is over every one has been committed, none of them later |
| `DeliverySlots.BatchIsPartitioned` | internal/core/digest_delivery_worker.go:205-214 | At every moment each attempt of the batch waits, runs or has returned |
| `DeliverySlots.SmallestRank` | internal/core/digest_delivery_worker.go:272-295 | Of c sends running at once one started at least c - 1 places before the newest |
| `DeliverySlots.EndsWithinBatch` | internal/core/digest_delivery_worker.go:194-200 | A send of rank r ends within the time of its batch |
| `DeliverySlots.BatchEndIsWaves` | internal/core/digest_delivery_worker.go:194-196 | That time is the number of waves times the send timeout |
| `DeliverySlots.ClaimTtlIsLeast` | internal/core/digest_delivery_worker.go:194-200 | The claim lives for the configured time or as much longer as a full batch and one commit need, and no longer |
| `DeliverySlots.WithDefaults` | internal/core/digest_delivery_worker.go:87-107 | Every option that is not positive, negative ones included, is replaced by 120, 45, 20 and 4, and the others are kept |
| `Supervisor.CallsAreSerialized` | internal/runtime/supervisor.go:297-318 | Over all runs a call is executed at most once and answered at most once, two executing calls are one call, and the queue never exceeds its bound |
| `Supervisor.EveryCallIsAnswered` | internal/runtime/supervisor.go:297-318 | In every reachable state a call has its one answer if and only if it is neither in the queue nor with the worker; so a finished call has been answered, and nothing then keeps its caller from returning |
| `Supervisor.WorkerNeverStuck` | internal/runtime/supervisor.go:297-391 | As long as the worker holds a call or one waits it has a step |
| `Supervisor.UndisturbedCallIsServed` | internal/runtime/supervisor.go:297-391 | A queued call at the head, whose context has not ended, is executed on the current child: one frame under a fresh id, one answer, and worker and child free again |
| `Supervisor.BoundReverseIsAnswered` | internal/runtime/supervisor.go:493-562 | While a call awaits its answer a reverse request bound to its id on the current child is served and answered |
| `Supervisor.ReapedStaysOut` | internal/runtime/supervisor.go:597-610 | A child that was reaped is never the current one again |
| `Supervisor.AwaitedIsWritten` | internal/runtime/supervisor.go:343-391 | A worker that awaits an answer has written its request, and nothing after it |
| `Supervisor.OldestFirst` | internal/runtime/supervisor.go:297-304 | Of two waiting calls the one ahead is taken first |
| `Supervisor.EndedContextWritesNothing` | internal/runtime/supervisor.go:303-312 | A call whose context ended before it started executing never writes a frame, even if its cancellation came too late |
| `Supervisor.CancelledNeverWrites` | internal/runtime/supervisor.go:177-207 | A call whose cancellation won the race in the queue stays cancelled, is never executed and never writes a frame |
| `Supervisor.PendingIsActiveParent` | internal/runtime/supervisor.go:343-359 | A child's pending set holds the active parent and nothing else, and no request id is written twice |
| `Supervisor.ReverseIsBound` | internal/runtime/supervisor.go:493-562 | A handler runs and a reply is written only for an id of the same child whose call was executed; while that id is the active parent its call is the one executing and the only one pending |
| `Supervisor.Preserved` | internal/runtime/supervisor.go:297-391 | Every atomic step of callers, worker, children and handlers keeps the invariant |
| `Supervisor.CallCell.CompareAndSwap` | internal/runtime/supervisor.go:202-204 | The swap happens if and only if the state was the expected one |
| `Supervisor.SupervisorCore.Submit` | internal/runtime/supervisor.go:182-188 | A call is queued only if the queue has room; a closed supervisor refuses, or takes the free place where Go may choose either; a full queue of an open one is overloaded; a refusal changes nothing |
| `Supervisor.SupervisorCore.Cancel` | internal/runtime/supervisor.go:202-204 | The caller cancels only what is still queued |
| `Supervisor.SupervisorCore.TakeNext` | internal/runtime/supervisor.go:303-307 | The oldest call is taken and started if and only if it is still queued, else answered |
| `Supervisor.SupervisorCore.RegisterRequest` | internal/runtime/supervisor.go:337-349 | A fresh id becomes pending and the active parent in one section |
| `Supervisor.SupervisorCore.UnregisterRequest` | internal/runtime/supervisor.go:350-359 | The id leaves the pending set, and the parent is cleared if it is still this id |
| `FrameScanner.ScannerAccepts` | internal/runtime/protocol.go:191-233 | For every input: the scanner succeeds and stops right behind a prefix if and only if that prefix is the text of one JSON value in which no object at any depth has two equal keys |
| `FrameScanner.RepeatedKeyIsRefused` | internal/runtime/protocol.go:200-217 | On the text of any value followed by anything it consumes exactly the value, or fails if a key repeats |
| `FrameScanner.ReadWasValue` | internal/runtime/protocol.go:191-233 | Whatever the scanner gets through, from any state of the token reader, was one value with distinct keys |
| `FrameScanner.ReadingsAgree` | internal/runtime/protocol.go:185-189 | All readings of an input agree on where its value ends and that its keys are distinct |
| `FrameScanner.FreshNamesAreUnique` | internal/runtime/protocol.go:203-215 | Checking each key against those seen so far is checking that all keys differ |
| `FrameScanner.TextThenRest` | internal/runtime/protocol.go:191-233 | The text of a value does not depend on what follows it |
| `FrameScanner.Decoder.ScanJSONValue` | internal/runtime/protocol.go:191-233 | The recursive loops with their seen set compute the specified scan |
| `FrameScanner.RejectDuplicateKeys` | internal/runtime/protocol.go:185-189 | True if and only if the input starts with a value without repeated keys |
| `RateWindows.AnyMinute` | internal/filter/ai_filter.go:168-191 | Any closed minute holds at most twice the limit of a fixed-window log |
| `AiLimits.AnyMinuteIsBounded` | internal/filter/ai_filter.go:168-228 | For any non-decreasing call times, typed and legacy together stay within twice the global limit in any minute, and each typed source and the legacy path within twice the per-minute limit |
| `AiLimits.RefusalIsEarned` | internal/filter/ai_filter.go:168-228 | A refused call comes at the end of a minute in which its own group or everybody together used up the limit |
| `RateWindows.FullWindowIsFullMinute` | internal/filter/ai_filter.go:172-178 | A window that is full and has not run out stands for as many admissions in the last minute |
| `AiLimits.GroupsShareGlobal` | internal/filter/ai_filter.go:168-228 | No admission of a source or of the legacy path escapes the global count |
| `AiLimits.TwiceIsReached` | internal/filter/ai_filter.go:168-228 | The factor two is attained: for any limits and each group they let use its limit up, a burst of the whole limit passes at both ends of a minute |
| `AiLimits.AdmissionIsLogged` | internal/filter/ai_filter.go:168-228 | Exactly the admitted calls of a group are counted, with their own times |
| `AiLimits.DefaultLimits` | internal/filter/ai_filter.go:63-80 | Ten calls a minute where none are configured, four times as many for all together, and nothing else changes |
| `AiLimits.AIFilter.constructor` | internal/filter/ai_filter.go:63-80 | The defaults of the two limits, with all windows unstarted |
| `AiLimits.AIFilter.AllowTypedEval` | internal/filter/ai_filter.go:168-191 | The windows after a typed call, also after each kind of refusal |
| `AiLimits.AIFilter.AllowEval` | internal/filter/ai_filter.go:204-228 | The windows after a legacy call: both roll before either is checked |
| `RateLimit.AnyMinuteIsBounded` | internal/filter/ratelimit.go:74-122 | In any minute at most twice the rule's limit of a pair's non-critical messages pass, also where other pairs share its counter |
| `RateLimit.PassIsLogged` | internal/filter/ratelimit.go:74-122 | Under a rule exactly the passing non-critical messages of the pair are counted |
| `RateLimit.HeldIsEarned` | internal/filter/ratelimit.go:74-122 | A message is held only if it is not critical, a rule applies to it, and within the minute before it as many as the rule allows have passed under its key |
| `RateLimit.BestRuleIsBest` | internal/filter/ratelimit.go:146-180 | The rule that applies is the earliest of the most specific ones that fit, and none applies if none fits |
| `RateLimit.FindRule` | internal/filter/ratelimit.go:146-180 | The four loops compute that rule |
| `RateLimit.PeekForesees` | internal/filter/ratelimit.go:125-143 | The check without queueing agrees with what a message would meet, except if and only if the rule admits nothing and the counter has run out |
| `RateLimit.RatelimitFilter.ShouldFilter` | internal/filter/ratelimit.go:74-122 | The answer, the counters and both totals after one message |
| `RateLimit.RatelimitFilter.ShouldFilterWithoutQueue` | internal/filter/ratelimit.go:125-143 | The check changes nothing and answers as specified |
| `TopicDigest.RenderIgnoresOrder` | internal/digest/digest.go:451-503 | The text is the same for every order of topics with distinct keys and of the items with distinct ids inside each |
| `TopicDigest.MoreUsefulOrders` | internal/digest/digest.go:424-448 | moreUsefulTopicItem is a strict total order on items with distinct ids |
| `TopicDigest.MoreUsefulIsLexicographic` | internal/digest/digest.go:424-448 | The first difference in content, its length, short content, its length, media, link and time decides for the larger value, and without one the smaller id wins |
| `TopicDigest.TiesOnlyWithinAnId` | internal/digest/digest.go:424-448 | Two items tie if and only if they agree in id, time and everything usefulness looks at |
| `TopicDigest.UsefulnessCounts` | internal/digest/digest.go:401-422 | Content and short content count with their trimmed lengths, media one by one where they are named, and blanks as nothing |
| `TopicDigest.TrimSpaceMeans` | internal/digest/digest.go:405-406 | Trimming takes the blanks off both ends and nothing else; nothing is left if and only if nothing is visible |
| `TopicDigest.TitleIsOfMostUseful` | internal/digest/digest.go:467-475 | The title is that of the item more useful than all others of its topic |
| `TopicDigest.TitleOfMeans` | internal/digest/digest.go:467-475 | An item has a title if and only if its message has a visible title or content, and the title goes first |
| `TopicDigest.LineShows` | internal/digest/digest.go:485-500 | A line is a dash, the cut title and the sources in full-width brackets, in this order |
| `TopicDigest.AttributionShows` | internal/digest/digest.go:485-499 | Up to four sources are read back from the line by splitting; of more, the first four and the number of all |
| `TopicDigest.DecimalReadsBack` | internal/digest/digest.go:496-499 | The number of sources reads back from its digits |
| `TopicDigest.CutKeepsFront` | internal/digest/digest.go:476-500 | A cut text agrees with the whole up to the limit, and has an ellipsis if and only if something was cut off |
| `TopicDigest.TextReadsBack` | internal/digest/digest.go:500-502 | Where no line has a break, splitting the text gives the lines of the topics shown |
| `TopicDigest.NamesIgnoreOrder` | internal/digest/digest.go:476-499 | The attribution does not depend on the order in which a map is walked |
| `TopicDigest.LinesAreBounded` | internal/digest/digest.go:452-466 | At most twelve lines, and never more than a positive limit |
| `TopicDigest.ShownCount` | internal/digest/digest.go:452-503 | A line is left out only because twelve, or a positive limit, are shown |
| `TopicDigest.TopicsAreOrdered` | internal/digest/digest.go:455-461 | Topics come by falling priority and within one by rising key |
| `TopicDigest.LineIsBounded` | internal/digest/digest.go:485-500 | A line is bounded whatever the lengths of titles and names and the number of sources, of which only the digits grow |
| `TopicDigest.FirstLinesAreShown` | internal/digest/digest.go:463-500 | Topics without a title use up no place: the first lines there are get shown |
| `TopicDigest.TextLines` | internal/digest/digest.go:500-502 | Joined lines have one break between each two and those inside the lines |
| `TopicDigest.TextKeepsLimit` | internal/digest/digest.go:451-503 | The text has one line for each topic shown and one more for each break in the cut title of its most useful item and in the cut source names shown; it keeps its limit if and only if these together do |
| `TopicDigest.OneLinedItemsKeepLimit` | internal/digest/digest.go:451-503 | Where no title, content or source has a line break, every text has at most twelve lines and never more than a positive limit |
| `TopicDigest.BreakInTitle` | internal/digest/digest.go:469-475 | A title with a line break inside: its one line is two lines of text |
| `TopicDigest.RenderTopics` | internal/digest/digest.go:451-503 | The loops compute the specified text |
| `TopicDigest.SourceNames` | internal/digest/digest.go:476-495 | The set walked in any order gives the specified sorted names |
| `Sorting.SortIsSorted` | internal/digest/digest.go:456-468 | Sorting keeps the elements and orders them, where the order is total on them |
| `Sorting.SortedIsUnique` | internal/digest/digest.go:456-468 | Two sorted arrangements of the same elements are equal, so nothing depends on the sorting algorithm |
| `RecencyCache.HoldsMostRecent` | internal/filter/unified_dedup.go:373-451 | After any writes a cache holds exactly the most recently written keys, as many as its capacity and at least one, each with its last value, latest first |
| `RecencyCache.RecencyIsLastWrites` | internal/filter/unified_dedup.go:435-451 | An entry is in the unbounded recency list if and only if it is the last write of its key |
| `RecencyCache.Cache.Set` | internal/filter/unified_dedup.go:435-451 | A write makes the specified change of the recency list and keeps map and list in agreement |
| `RecencyCache.Cache.Get` | internal/filter/unified_dedup.go:426-433 | A read finds exactly the keys held with their values and changes nothing |
| `RecencyCache.Cache.MapAndListAgree` | internal/filter/unified_dedup.go:359-371 | Map and list are in bijection: a key is mapped if and only if the list has it, to that one element |
| `RecencyCache.Cache.Refresh` | internal/filter/unified_dedup.go:374-378 | A known key moves to the front with the new value |
| `RecencyCache.Cache.DropOldest` | internal/filter/unified_dedup.go:379-384 | The element at the back leaves list and map |
| `RoutePolicy.AcceptedIffUsable` | internal/config/config.go:413-461 | Policies without an error are exactly the usable ones: known words, at most 64 keywords of 1 to 128 characters, usable bands, a band for every lane the policy can name, and a reason for direct delivery where there is a direct band |
| `RoutePolicy.ValidateSourceRouting` | internal/config/config.go:413-461 | A policy passes if and only if it is usable, as UsablePolicy says in plain conjuncts; otherwise the error is the first in the order of the checks |
| `RoutePolicy.ValidateRouteBand` | internal/config/config.go:484-512 | A band passes if and only if its minimum is there where required and within 0 and 10 or NaN, its quota is not negative, its priority is within -100 and 100 and it names a known briefing or, for direct, none; an error names a defect the band has |
| `RoutePolicy.CriticalIsDirect` | internal/core/routing.go:97-101 | A critical message is direct whatever policy and evaluator say, and the evaluator is not asked |
| `RoutePolicy.BypassFollowsDefault` | internal/core/routing.go:101-104 | Under a bypass policy an ordinary message goes where the default says, with that lane's band and without an evaluation |
| `RoutePolicy.ScoreDecides` | internal/core/routing.go:105-143 | With a score that does not block, direct if and only if the direct band takes it or no band does and the default is direct; digest if and only if the digest band takes it and direct does not, or no band does and the default is digest; the decision keeps band and evaluation |
| `RoutePolicy.LaneHasItsBand` | internal/core/routing.go:97-143 | Under an accepted policy a digest decision always has a band with a known briefing, and a direct one has its band unless the message is critical |
| `RoutePolicy.FailedEvaluationFailsClosed` | internal/core/routing.go:105-115 | Without a successful required evaluation an ordinary message is never direct, and is digest if and only if the policy says so for failures; a blocked one is silent |
| `RoutePolicy.BetterScoreStaysDirect` | internal/core/routing.go:97-122 | Among the scores an evaluation can have, 0 to 10, a better one never takes a message out of the direct lane, except if and only if the default is direct and the digest band starts above 0 where the direct one does not match |
| `RoutePolicy.AcceptedBandTakesSomeScore` | internal/config/config.go:484-512 | A band accepted with a required score takes some score from 0 to 10 if and only if its minimum is not NaN, and otherwise none at all |
| `RoutePolicy.NaNBandNeverMatches` | internal/core/routing.go:323-325 | With a NaN minimum a lane is reached by the default alone, for the direct and the digest band alike |
| `RoutePolicy.NaNPolicyIsNeverDirect` | internal/config/config.go:484-512 | An accepted policy whose direct band has a NaN minimum: every scored message is silent |
| `RoutePolicy.DirectIsReachable` | internal/core/routing.go:97-143 | For every accepted policy with required evaluation, exactly when some score reaches the direct lane |
| `RoutePolicy.DigestIsReachable` | internal/core/routing.go:97-143 | The same for the digest lane |
| `RoutePolicy.PriorityFollowsScore` | internal/core/routing.go:331-336 | The stored priority is in range, within five of the band's, and monotone in the score |
| `RoutePolicy.PriorityIsShiftedByScore` | internal/core/routing.go:331-336 | Where it is not cut off at the ends of the range, the stored priority is the band's moved by the rounded score's distance from five |
| `RoutePolicy.RoundIsNearest` | internal/core/routing.go:331-336 | Rounding gives the nearest integer, and of two the one farther from zero |
| `RouteBatch.EveryCallIsAllowed` | internal/core/routing.go:34-95 | Whatever filters, enhancer and store answer: every digest request carries the quota, priority and known briefing of the digest band, no ordinary message goes direct on a failed or blocked evaluation, and a claim is run only for an admitted message |
| `RouteBatch.CallsOfMessage` | internal/core/routing.go:34-93 | Exactly which calls a message leads to, in order: admission if direct and prepared, a claim if admitted, the run of the claim if one was handed out, the digest if decided so and neither filtered nor dropped or if it overflows |
| `RouteBatch.GoesOnIff` | internal/core/routing.go:34-95 | A message ends the batch if and only if the store fails on its way to its lane or its claim fails |
| `RouteBatch.EntersOneLane` | internal/core/routing.go:62-75 | No message of a batch is admitted to more than one lane, overflow of the direct quota included |
| `RouteBatch.FailureEndsBatch` | internal/core/routing.go:34-95 | The batch succeeds if and only if no message meets a failing store; up to the first failure every message makes all its calls |
| `RouteBatch.CriticalIsNeverRefused` | internal/store/digest_routing.go:361-420 | A critical message is admitted unless the store fails, whatever the quota, and never enqueued for the digest |
| `RouteBatch.OverflowGoesToDigest` | internal/core/routing.go:50-75 | A message decided for the direct lane is enqueued for the digest if and only if its delivery was prepared, the direct quota is used up with no record of the message, it is not critical, and a required evaluation gave a score the digest band takes |
| `RouteBatch.TagTellsLane` | internal/core/routing.go:67-93 | Over what the surroundings hold before the batch: the lane in the metadata is that of the message's record if and only if a digest message is neither filtered nor dropped and meets no failing store and no record elsewhere, and a prepared direct delivery meets no record elsewhere nor, when it overflows, such a store |
| `RouteBatch.DigestRecordIsTaggedDirect` | internal/core/routing.go:67-93 | A critical message that is in the digest already: its metadata says direct, its record says digest |
| `RouteBatch.Engine.RouteTypedMessages` | internal/core/routing.go:34-95 | The loop makes exactly the specified calls in order |
| `RouteBatch.Engine.RouteMessage` | internal/core/routing.go:39-93 | The body of the loop, branch by branch |
| `RouteBatch.Engine.AdmitTypedDigest` | internal/core/routing.go:224-238 | One digest request, the lane it leaves in the metadata, and whether the batch goes on |
| `RoutePhrase.RoutePhraseMatches` | internal/core/routing.go:280-299 | True if and only if the phrase occurs, as whole words if it is a phrase of words; overlapping occurrences are not missed |
| `RoutePhrase.IsASCIIWordPhrase` | internal/core/routing.go:301-313 | True if and only if the phrase has word bytes and otherwise only blanks |
| `RoutePhrase.NormalizeKeywords` | internal/config/config.go:463-482 | Compacting the list over its own front gives the specified keywords |
| `RoutePhrase.CompactKeepsMeaning` | internal/config/config.go:463-482 | No two kept keywords fold alike, none is blank, each was given, and every given one is still covered |
| `RoutePhrase.FirstSpellingsInOrder` | internal/config/config.go:463-482 | The kept keywords are the first spellings, in the order given |
| `RoutePhrase.CleanStaysClean` | internal/config/config.go:463-482 | Normalizing twice is normalizing once |
| `Utf8Cut.SafeCutIsLargest` | internal/channel/formatter.go:368-380 | For well-formed UTF-8 the cut is the largest character boundary within the limit |
| `Utf8Cut.BoundaryIsRuneStart` | internal/channel/formatter.go:375-378 | Inside well-formed text the character boundaries are exactly the bytes that are no continuation |
| `Utf8Cut.SafeCutIndex` | internal/channel/formatter.go:368-380 | The loop computes the cut |
| `Utf8Cut.ClampedIsClean` | internal/channel/formatter.go:384-390 | The result is well-formed, the text itself if it fits and else cut at a boundary and ended by the dots; it keeps the limit if and only if the text fits or the limit is at least 3 |
| `Utf8Cut.ClampedIsLongest` | internal/channel/formatter.go:384-390 | Every boundary prefix that fits with the dots is kept |
| `Utf8Cut.TruncatedIsClean` | internal/channel/formatter.go:342-365 | The same for truncateText at every limit of at least -3; its callers ask for positive limits only |
| `Utf8Cut.PanicsBelowMinusThree` | internal/channel/formatter.go:352-354 | No slice starts before the text at any limit of at least -3, and so at none of the positive ones in use; the bound is exact |
| `Utf8Cut.KeepsSentences` | internal/channel/formatter.go:351-356 | The last sentence mark in the second half of what fits ends the text, with nothing put behind it |
| `Utf8Cut.KeepsWords` | internal/channel/formatter.go:358-362 | Without such a mark the dots stand at the last blank of the second half |
| `Utf8Cut.KeepsAllThatFits` | internal/channel/formatter.go:345-365 | With neither a late mark nor a late blank, everything that fits together with the dots is kept |
| `Utf8Cut.ClampRunes` | internal/channel/formatter.go:384-390 | The method computes the clamped text |
| `Utf8Cut.TruncateText` | internal/channel/formatter.go:342-365 | The method computes the truncated text of any bytes, well-formed or not; the mark is decoded in the whole text again |
| `DigestMigration.OnlyPendingTopicsChange` | internal/store/digest_migration.go:72-160 | Every outcome keeps all ids and changes only schema, priority and topic key of pending items; refused runs, previews and runs behind the marker change nothing |
| `DigestMigration.SecondRunFindsNothing` | internal/store/digest_migration.go:90-113 | After an apply a second run finds no update even if it does not see the marker |
| `DigestMigration.ApplyDoesWhatPreviewSaw` | internal/store/digest_migration.go:32-44 | An apply on the state a preview saw is let through by its hash and changes exactly as many items as it counted |
| `DigestMigration.FenceTellsIdsApart` | internal/store/digest_migration.go:162-171 | For ids without a NUL two id sets have the same hash if and only if they are equal |
| `DigestMigration.FenceTellsDigestIdsApart` | internal/store/digest_routing.go:462-469 | Two sets of ids as the store gives them out have the same hash if and only if they are equal |
| `DigestMigration.NulDefeatsFence` | internal/store/digest_migration.go:162-171 | Why ids without a NUL are asked for: with one inside an id, which the store never gives out, two sets would share the hash |
| `DigestMigration.PreviewedHashLetsThrough` | internal/store/digest_migration.go:75-124 | A previewed hash lets an apply through if and only if the bucket is there, every value decodes under its own key, and the ids are those the preview saw |
| `DigestMigration.AppliedAsPreviewedIff` | internal/store/digest_migration.go:90-132 | An apply let through changes exactly the previewed items, to the previewed values, if and only if what is due has stayed the same: the same items to update, none behind the marker, each with the contents it was previewed with |
| `DigestMigration.ChangedSourceIsApplied` | internal/store/digest_migration.go:90-132 | An item whose source changed after the preview: the hash lets the apply through, the count is the previewed one, and what is written is not what was previewed |
| `DigestMigration.UpdateShowsBasis` | internal/store/digest_migration.go:93-112 | Two states of a pending item get the same update if and only if they agree in source, briefing, message, time and the fields written back unchanged |
| `DigestMigration.WalkErrorIff` | internal/store/digest_migration.go:75-89 | The first pass ends without an error if and only if the context lasts to its end and every value is sound; else the error is the first in key order |
| `DigestMigration.HashIgnoresOrder` | internal/store/digest_migration.go:162-171 | The hash does not depend on the order in which the store lists the ids |
| `DigestMigration.PriorityInRange` | internal/store/digest_migration.go:93-102 | The new priority is between -100 and 100 |
| `DigestMigration.PriorityIsLarger` | internal/store/digest_migration.go:93-102 | Without a score an item has its source's priority, with one the larger of that and the one of the score, each held within the range |
| `DigestMigration.OutdatedIffChanged` | internal/store/digest_migration.go:90-112 | An item is due if and only if it is pending and upgrading would change it |
| `DigestMigration.AppliedItems` | internal/store/digest_migration.go:90-132 | After a first apply every pending item has the current schema, its own topic and its own priority and keeps all else; every other item is as it was |
| `DigestMigration.ReportTells` | internal/store/digest_migration.go:114-150 | The report has the number of items, of those due and their hash, and tells whether this run applied anything |
| `DigestMigration.DigestDb.Migrate` | internal/store/digest_migration.go:46-160 | The transaction has the specified outcome and is rolled back on every error; the conservation check never fails |
| `DigestMigration.DigestDb.RunOn` | internal/store/digest_migration.go:62-155 | The body of the transaction on its own copy |
| `DigestMigration.DigestDb.Scan` | internal/store/digest_migration.go:75-118 | The first pass gives the first error by rising key, the check of the context before each item included, or all ids and exactly the specified updates |

## Left out

Assumptions of the model:

- Libraries: marshalling a configuration and parsing it again gives it back, hashes do not collide, the environment stays fixed, and expansion leaves text without a dollar sign alone.
- The fingerprint check and the rename of the file are one step; a writer between them (internal/config/manager.go:472-481) is not modelled.
- Clocks never run backwards; floating point scores are reals, with NaN only where a configured minimum can hold it.
- The token reader of the JSON library checks and skips separators as its documentation says; lexical errors are one kind of lexeme.
- `container/list` is a sequence of elements, and a sorting routine is any that returns a sorted arrangement.

Not modelled:

- Closing replaced sources, cancelling their goroutines and waiting for them, FetchOnly, health states and metrics of the engine.
- Wrap-around of the 64-bit generation, revision and request counters.
- A delivery that outlasts the one-minute lease of its claim is modelled as a claim taken over by another worker; how long a delivery takes is not.
- DispatchNews returning without an error for a channel disabled after the look-up counts as sent.
- Sends that never return keep their slot; that they starve later batches is outside the timing theorem, which assumes sends return within the timeout.
- NormalizeSourceConfig, which an edit passes before the manager is locked.
- Configuration fields other than those that carry references or meet the defaults, validation and edits modelled; option checks per delivery kind are one parameter.
- Subscribers of the configuration manager, and its plain updates, which are the same locked write without a runtime step.
- Response payloads, cancellation frames, backoff and circuit breaker, process groups and stderr of the supervisor; a reply is written after a separate look at the active parent, and the time between the two is open.
- decodeFrame's field checks behind the scanner.
- The one warning per window of the AI filter, the caches in front of it, and resets of the rate-limit counters, after which a minute can admit more.
- Topic keys and clustering, whose normalisation lives in libraries; the migration takes the topic hash as a parameter.
- forEach of the news cache, similarity of titles, and the store behind the deduplication filter.
- Lower-casing and splitting of the text searched for critical keywords, which is taken as already normalised.
- The tables behind AdmitDirect and EnqueueRoutedDigest: the record of the message and the use of the quota they find are parameters of a batch; the rule by which they answer is modelled.
- Index maintenance and generation counters in putDigestItem, and JSON encoding of stored items.
- Schedule arithmetic, the retry queue, HTTP handlers, channels, language model providers and the web interface.

Stated weaker or on other terms than the code:

- ConfigManager.ConfigManager.Reload: the read before the lock is a parameter, because another process may write in between; the whole reload is two steps of the state machine.
- DirectDelivery.DrainIsFinal: holds until the engine is started again or the process crashes, since both end the drain.
- SourceRegistry.NewsEngine.Start: does not model the contexts it makes, the wiring of the retry queue and the recovery, retry and evaluation goroutines it starts; raising the direct-delivery flags is DirectDelivery's StartEngine step.
- SourceRegistry.NewsEngine.CommitChange: does not model the cancelled contexts, the closing of the old source and the health registration of the section, because nothing it decides depends on them.
- ConfigManager.DefaultsAreIdempotent: covers the defaults of channel modes, source intervals, delivery modes and the news store, because the other defaulted fields meet neither references nor the edits modelled.
- ConfigManager.Validate: takes the validation of one source's delivery as a parameter, because it looks at that source alone.
- RoutePhrase.NormalizeKeywords: trimming and folding are parameters.
