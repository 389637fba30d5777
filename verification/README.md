# Real-Ming, modelled and proved in Dafny

Real-Ming is a personal operations control plane. This project models the parts of it whose correctness
spans many calls, states what they are meant to keep, and proves it for every input, every run and every
interleaving. `dafny verify dfyconfig.toml` checks all of it.

| area | modules |
|---|---|
| Knowledge compiler over a versioned vault: a cache, its log, quarantine and restarts | KnowledgeText, KnowledgeCompiler, KnowledgeAgreement, KnowledgeRuns, KnowledgeSessions, KnowledgeConfinement |
| Cutover of the legacy sources: positional join, counting validator, drift check, two phases with one commit point | CutoverPlanBuilder, CutoverPlan, CutoverDrift, CutoverPhases, CutoverWitness |
| Daily scheduler and native reports over one run ledger | SchedulerLedger, SchedulerProtocol, SchedulerSafety, SchedulerResults, SchedulerOwnership, SchedulerTakeover, DailyScheduler |
| Exception Notices: grouping, holding, releasing, recovering, and the delivery outbox | ExceptionNotices, NoticeConservation, TelegramOutbox |
| Financial Snapshots in supersession chains, approved through the policy engine | SnapshotChains, FinancialSnapshots, PolicyEngine |
| Personal Context, retention arithmetic and retention evidence | PersonalContext, PersonalContextStore, RetentionCalendar, RetentionEvidence |
| Operating clock, stdio framing and serving, reconciliation, cost totals | OperatingClock, StdioFraming, McpStdio, McpLineOrder, FinancialReconciliation, MeteredCost |
| Shared | Contracts, Sequences, Text, Wrappers |

Code that updates state in place is modelled by a class or a method with the same branches and loops, tied by
its postcondition to a function of the old state; runs and interleavings are sequences of those functions.
What is outside (clocks, transports, the secret detector, the vault's and the database's refusals) is a
parameter of each step, so a statement about all parameters is a statement about failure at any step.

## What does not hold as promised

Each is shown by the member named; when the promise does hold is stated there or by the members beside it.

- A malformed input line is answered at once and may overtake a queued request (`McpStdio.ParseErrorOvertakesQueuedRequest`; exactly when: `McpLineOrder.LineOrderExactlyWhenNothingOvertakes`).
- A page listed twice in a source snapshot can stand in for a missing one (`CutoverWitness.FirstPageTwiceIsAccepted`; exactly when: `CutoverDrift.AcceptedSnapshotIsExactWhenPagesDistinct`).
- A retirement that was asked for but failed, or came back unlocked, is reported as before the commit point (`CutoverWitness.FirstRetirementMayFail`; exactly when: `CutoverPhases.MasterTasksCutover.RecoverAfterRun`).
- A completion that read its snapshot before a successor was prepared reopens it (`SnapshotChains.StaleWriteBackLetsAChainBranch`).
- A cancelled delivery that could still be claimed is sent every time it is notified (`TelegramOutbox.CancelledIsAcceptedTwice`; exactly how often: `AcceptedCountIsExact`).
- An occurrence can be taken over from a holder still at work, because a tick dates all its claims to its own beginning and a native call waits five minutes for another, and the holder taken over can overwrite a success (`SchedulerTakeover.TickSuccessIsOverwritten`, `CallTakesOverFromRun`, `TakeoverLeadsToOverwrite`; exactly when not, under the control plane's division of jobs between the owners: `SchedulerOwnership.NothingAbandonedExactlyWhenOnTime`).
- A root whose first read fails counts as loaded and empty, and the next publication supersedes everything in it (`KnowledgeSessions.FirstReadRaisedSupersedesEverything`; exactly when memory and vault agree: `AgreementExactlyUnlessBlind`).
- A purge that dies after removing a payload leaves a candidate that is neither purged nor readable until the next purge (`PersonalContextStore.InterruptedPurgeResumes`; exactly when: `TornExactlyWhenPurgeDied`).
- A publication that the vault refuses leaves its line in the compiler's log (`KnowledgeRuns.LogCountsGenerations`).
- A page whose content begins with white space contradicts even its own continuation (`KnowledgeText.AppendedContentExtends`).
- A quarantined page whose content reads like provenance is quarantined again after a restart (`KnowledgeRuns.QuarantineIsRecognisedIfReadBack`).
- A recompiled page is served uncontested beside its quarantined contradiction (`KnowledgeRuns.CompilationReplacesOnlyItsPage`; exactly when contested: `ContestedExactlyWhenContradictedSince`).
- A payload staged again after its tombstone is never dropped by retention (`RetentionEvidence.RestagedPayloadIsKept`).
- Amounts below half a cent are lost from every total (`MeteredCost.SmallAmountsNeverAddUp`).

## Model

| member | source | states |
|---|---|---|
| KnowledgeAgreement.CacheEqualsStore | src/knowledge/knowledge-compiler.ts:244-353 | Over every run of a compiler that has read its root, from a vault whose quarantined pages read back as themselves, with candidates that would if quarantined, and whatever the vault refuses on the way, the files, page records, hashes, quarantine fingerprints and operational records in memory are what a fresh compiler would rebuild |
| KnowledgeSessions.AgreementExactlyUnlessBlind | src/knowledge/knowledge-compiler.ts:240-311 | Over every run of operations, readers and restarts, memory agrees so with the vault exactly unless, since the last restart, the first use of the root could not read a vault that held files and nothing has been published since |
| KnowledgeSessions.FirstReadRaisedSupersedesEverything | src/knowledge/knowledge-compiler.ts:240-243 | A reader comes first and the vault cannot be read: memory disagrees with it, and the next candidate is published as one page, an empty quarantine and a log of one line, whatever the vault held |
| KnowledgeSessions.NothingIsLost | src/knowledge/knowledge-compiler.ts:628-648 | Over every run every page, quarantined page and operational file stays published as long as nothing is published blindly |
| KnowledgeSessions.BlindPublicationLosesTheRest | src/knowledge/knowledge-compiler.ts:628-648 | A blind publication leaves one file of the three kinds and supersedes all others |
| KnowledgeSessions.LogCountsAcrossRestarts | src/knowledge/knowledge-compiler.ts:257-268 | Over every run with restarts the stored log has a line for every generation but those before a blind publication, and one for every refused publication that a later generation carried along; the log in memory has besides those refused since |
| KnowledgeSessions.RestartCannotBeNoticed | src/knowledge/knowledge-compiler.ts:240-311 | Unless the compiler was blind or a publication was refused since the last accepted one, a restart that reads the vault gives every later run of events, further restarts included, the same replies and the same vault |
| KnowledgeSessions.DifferentLogsShow | src/knowledge/knowledge-compiler.ts:628-648 | Otherwise a restart shows: over one vault compilers with different logs leave different generations whenever both publish |
| KnowledgeSessions.CompilingIsAnEvent | src/knowledge/knowledge-compiler.ts:390-398 | What the class does to compile a candidate is an event of these runs |
| KnowledgeSessions.FilingIsAnEvent | src/knowledge/knowledge-compiler.ts:559-566 | And what it does to file an output |
| KnowledgeAgreement.SoundIsLoaded | src/knowledge/knowledge-compiler.ts:240-311 | The invariant of that run, unfolded: equality with what loading the vault gives, page generations aside |
| KnowledgeAgreement.StepIsSound | src/knowledge/knowledge-compiler.ts:356-494 | Each compilation, quarantine, filing, rejection and refused publication keeps the agreement |
| KnowledgeRuns.LogCountsGenerations | src/knowledge/knowledge-compiler.ts:628-648 | Over every run of a compiler that has read its root, the log has one line for every generation plus one for every publication the vault refused, numbered in order: as many lines as generations exactly when none was refused |
| KnowledgeRuns.LogEqualsStore | src/knowledge/knowledge-compiler.ts:257-268 | Over every run, the log a fresh compiler rebuilds is the one in memory without the lines refused since the last accepted publication |
| KnowledgeRuns.CompiledCacheIsReloaded | src/knowledge/knowledge-compiler.ts:420-493 | Right after a compilation or quarantine the whole cache, page generations included, is what a fresh compiler rebuilds |
| KnowledgeRuns.FiledCacheDiffersInGenerations | src/knowledge/knowledge-compiler.ts:606-621 | Right after an operational filing it is so but for page generations, which move in memory only: exactly equal if and only if no page is served |
| KnowledgeRuns.AlikeRuns | src/knowledge/knowledge-compiler.ts:313-328 | Two compilers over one vault that differ only in page generations answer every run alike |
| KnowledgeRuns.RecompilingPublishesNothing | src/knowledge/knowledge-compiler.ts:391-417 | Compiling a candidate just compiled, quarantined, left alone or rejected changes nothing and names where it went |
| KnowledgeRuns.RecompilingAfterRestartPublishesNothing | src/knowledge/knowledge-compiler.ts:391-417 | The same after a restart in between |
| KnowledgeRuns.QuarantineIsRecognisedIfReadBack | src/knowledge/knowledge-compiler.ts:246-256 | After a restart a quarantined candidate is recognised exactly when its page reads back as its fingerprint |
| KnowledgeRuns.QuarantineDisturbsNoPage | src/knowledge/knowledge-compiler.ts:420-451 | A quarantine leaves the text, hash and citations of every served page alone: only generations move and the contradicted page is marked contested |
| KnowledgeRuns.CompilationReplacesOnlyItsPage | src/knowledge/knowledge-compiler.ts:460-493 | A compilation replaces its own page only and serves it uncontested, although an earlier contradiction stays in quarantine beside it, which the interface comment (lines 70-76) rules out |
| KnowledgeRuns.ContestedExactlyWhenContradictedSince | src/knowledge/knowledge-compiler.ts:412-493 | Over every run a page is served contested exactly when a candidate for it was quarantined since it was last compiled, or it was contested at first and has not been compiled |
| KnowledgeRuns.KeyFilesAtMostOnce | src/knowledge/knowledge-compiler.ts:556-561 | Over every run an idempotency key files at most once, and keeps its first record |
| KnowledgeConfinement.EveryRunIsConfined | src/knowledge/knowledge-compiler.ts:92-119 | Over every run on a Trust Domain's root, restarts and failing reads included, from any vault of which it holds, every served page and operational record comes from a source registered for that domain, carries a citation, and lies under a path of its kind, in memory and in what a restart would load |
| KnowledgeText.ExtendingRepeatsTheOpening | src/knowledge/knowledge-compiler.ts:404-410 | What extending a published page means: repeating the first forty characters of what its content says before its first blank line, trimmed |
| KnowledgeText.AppendedContentExtends | src/knowledge/knowledge-compiler.ts:399-411 | Appending to a page's content counts as extending it exactly when the content does not begin with white space or has a blank opening; otherwise even the unchanged content counts as a contradiction |
| KnowledgeText.QuarantineReadsBack | src/knowledge/knowledge-compiler.ts:246-256 | A quarantined page is reloaded with its own fingerprint exactly when nothing in its name or content reads as other provenance and its evidence identity is one trimmed line |
| KnowledgeText.FirstInFront | src/knowledge/knowledge-compiler.ts:248-249 | The two provenance patterns look at whole lines in front first, whatever follows them |
| KnowledgeText.EvidenceLineIsRead | src/knowledge/knowledge-compiler.ts:249 | The evidence line gives its identity back exactly when that is one trimmed line |
| KnowledgeCompiler.KnowledgeCompiler.EnsureLoaded | src/knowledge/knowledge-compiler.ts:240-243 | The root is marked as loaded before the vault is read: a read that succeeds changes no root's view, and one that raises leaves the root as one that has nothing |
| KnowledgeCompiler.KnowledgeCompiler.PublishFiles | src/knowledge/knowledge-compiler.ts:628-648 | The log line is appended and put among the files before the vault is asked; a refusal leaves it |
| KnowledgeCompiler.KnowledgeCompiler.PublishRecordsOf | src/knowledge/knowledge-compiler.ts:342-353 | Page records are kept only once the vault has accepted their generation |
| KnowledgeCompiler.KnowledgeCompiler.QuarantineCandidate | src/knowledge/knowledge-compiler.ts:412-457 | The quarantine branch, on exactly its root |
| KnowledgeCompiler.KnowledgeCompiler.CompilePage | src/knowledge/knowledge-compiler.ts:460-493 | The publishing branch, on exactly its root |
| KnowledgeCompiler.KnowledgeCompiler.Compile | src/knowledge/knowledge-compiler.ts:356-398 | A candidate is rejected with no change at all, or takes the specified step on its own root and no other, a first read that raises included |
| KnowledgeCompiler.KnowledgeCompiler.FileOutput | src/knowledge/knowledge-compiler.ts:592-621 | The filing branch |
| KnowledgeCompiler.KnowledgeCompiler.FileOperationalOutput | src/knowledge/knowledge-compiler.ts:506-566 | An output is refused with no change at all, or takes the specified step on its own root and no other, a first read that raises included |
| CutoverPlanBuilder.BuildCutoverPlan | src/migration/cutover-plan-builder.ts:160-278 | Building accepts or fails exactly as the join and the validator say |
| CutoverPlanBuilder.PlaceBatch | src/migration/cutover-plan-builder.ts:193-242 | One batch: placed by index, checked against titles, and refused when ambiguous |
| CutoverPlanBuilder.RowsJoinExactlyWhenPlaced | src/migration/cutover-plan-builder.ts:203-236 | The rows of a batch join exactly when every index is in range and used once, and then decide one row each |
| CutoverPlanBuilder.PlacedRowsCoverEveryRecord | src/migration/cutover-plan-builder.ts:194-214 | Accepted batch indices are a permutation of the record positions |
| CutoverPlanBuilder.UnambiguousIsInsensitive | src/migration/cutover-plan-builder.ts:237-241 | A batch that passes the ambiguity check gives every position the same however its unproven rows are moved |
| CutoverPlanBuilder.AmbiguityCheckIsExact | src/migration/cutover-plan-builder.ts:237-241 | The ambiguity check passes precisely when no movement of unproven rows changes anything |
| CutoverPlanBuilder.ReshuffleProvesNoLess | src/migration/cutover-plan-builder.ts:215-225 | Moving an unproven row may prove it by title, but leaves no new identity unproven |
| CutoverPlanBuilder.BuiltDecisionsAreInsensitive | src/migration/cutover-plan-builder.ts:199-242 | If a digest builds a plan, every movement of rows that no title proved joins as well and decides for every page what the plan decides |
| CutoverPlanBuilder.BuiltPlanDecidesEveryRecordOnce | src/migration/cutover-plan-builder.ts:199-277 | A built plan holds and decides every record of every source exactly once, with its own page and hash |
| CutoverPlan.Counted | src/migration/master-tasks-cutover.ts:227-237 | The counting loop gives every key its number of occurrences, in order of first sight |
| CutoverPlan.CheckCounts | src/migration/master-tasks-cutover.ts:337-369 | Comparing counts with bounds by deleting what was compared reports exactly the mismatches |
| CutoverPlan.NoMismatchesExactlyWhenCountsHold | src/migration/master-tasks-cutover.ts:337-369 | No mismatch is reported exactly when every bound is the actual count, a repeated key zero, and no other key occurs |
| CutoverPlan.CountsThatHoldAddUp | src/migration/master-tasks-cutover.ts:337-369 | Counts that hold add up to the number of entries |
| CutoverPlan.ValidateCutoverPlan | src/migration/master-tasks-cutover.ts:251-372 | The validator's problems are those specified, and none exactly when the plan holds |
| CutoverPlan.NoProblemsExactlyWhenPlanHolds | src/migration/master-tasks-cutover.ts:251-372 | A plan without problems is one whose every bound is true of its decisions |
| CutoverPlan.ValidPlanConservesRecords | src/migration/master-tasks-cutover.ts:254-369 | Imports and archived records make up the reviewed ones, lifecycle counts add up to them and routing counts to the imports |
| CutoverPlan.SourceCountsAddUp | src/migration/master-tasks-cutover.ts:302-309 | Distinct bound sources share the reviewed records out between them |
| CutoverDrift.VerifySnapshots | src/migration/master-tasks-cutover.ts:725-784 | The drift check errs, reports and records source names exactly as specified |
| CutoverDrift.ReferencesIdentifyRecords | src/migration/master-tasks-cutover.ts:32-37 | Source references tell records apart when no source id holds a colon |
| CutoverDrift.ReferencesMayCollide | src/migration/master-tasks-cutover.ts:32-37 | With a colon in a source id two records can share a reference |
| CutoverDrift.AcceptedSnapshotIsExactWhenPagesDistinct | src/migration/master-tasks-cutover.ts:748-783 | In an accepted read a snapshot holds exactly the decided page and hash pairs precisely when it lists no page twice |
| CutoverDrift.DriftCheckIsExact | src/migration/master-tasks-cutover.ts:725-784 | With no page listed twice the check accepts exactly the decided sources and records |
| CutoverWitness.FirstPageTwiceIsAccepted | src/migration/master-tasks-cutover.ts:748-783 | One approved packet whose snapshot lists a page twice and lacks another is accepted |
| CutoverWitness.UnreadPageMayBeRetired | src/migration/master-tasks-cutover.ts:613-655 | With that packet everything up to retirement succeeds, whatever retiring then answers |
| CutoverPhases.MasterTasksCutover.ExecutePhaseA | src/migration/master-tasks-cutover.ts:456-611 | Phase A succeeds exactly when everything it verifies holds, and touches no legacy source |
| CutoverPhases.MasterTasksCutover.CheckExisting | src/migration/master-tasks-cutover.ts:490-532 | Only a safe replay of the plan's own records, equal in every compared field to what their Work Items project, may already be in the target |
| CutoverPhases.MasterTasksCutover.FindSamples | src/migration/master-tasks-cutover.ts:786-806 | One imported item for each view, or the first that has none |
| CutoverPhases.MasterTasksCutover.CheckProjection | src/migration/master-tasks-cutover.ts:885-947 | The projected records are exactly those of the imported items |
| CutoverPhases.MasterTasksCutover.EditSample | src/migration/master-tasks-cutover.ts:949-995 | The edit of the first migrated record a familiar page shows: it succeeds exactly when every step of it does and the Work Item shows the edited priority, and reports the priority it restored |
| CutoverPhases.MasterTasksCutover.PrepareRetirement | src/migration/master-tasks-cutover.ts:613-656 | Views, sample edits and retirability probes come before any retirement, and the edits are one for each page that shows a migrated record |
| CutoverPhases.MasterTasksCutover.RetireSources | src/migration/master-tasks-cutover.ts:657-679 | Sources are asked to retire in order under their recorded names up to the first that fails or stays unlocked; the workspace's answers are recorded, but for that one |
| CutoverPhases.RetiredIsTheLockedPrefix | src/migration/master-tasks-cutover.ts:661-678 | The answers recorded are those for the longest run of sources, in order, that come back locked |
| CutoverPhases.MasterTasksCutover.ExecutePhaseB | src/migration/master-tasks-cutover.ts:613-697 | No source is asked to retire unless Phase A was verified and every view, sample edit and probe succeeded; recorded retirements are the locked prefix of the bound sources |
| CutoverPhases.MasterTasksCutover.ExecuteApprovedPhaseB | src/migration/master-tasks-cutover.ts:440-454 | On a fresh object, whatever fails, sources are asked to retire only after everything before succeeded; a normal return means all are retired |
| CutoverPhases.MasterTasksCutover.RecoverAfterRun | src/migration/master-tasks-cutover.ts:657-723 | Recovery says after-commit exactly when a retirement is recorded, and is wrong about a source that was asked to retire exactly when the first one failed or stayed unlocked |
| CutoverWitness.FirstRetirementMayFail | src/migration/master-tasks-cutover.ts:657-679 | One packet, approval and world in which everything before retirement succeeds and the first retirement fails |
| CutoverPhases.ImportCountsFollowFromValidation | src/migration/master-tasks-cutover.ts:808-851 | Once every item matches its decision, the final import count can only fail for a plan that binds a lifecycle or route with records twice |
| CutoverPhases.ReportAccountsForEveryDecision | src/migration/master-tasks-cutover.ts:589-611 | Imported and archived records together are the reviewed ones, each once |
| SchedulerSafety.AtMostOneRunner | src/operations/daily-operations-scheduler.ts:157-192 | Over every interleaving a process has at most one unsettled runner of a job, even after a timeout |
| SchedulerSafety.SucceededChangesOnlyByItsHolder | src/operations/operations-state.ts:1878-1948 | No step starts a succeeded occurrence again; its row changes only when someone who still holds it completes it |
| SchedulerSafety.EveryHolderIsAlone | src/operations/daily-operations-scheduler.ts:280-347 | Over every interleaving in which nobody takes over an occurrence from a holder still at work, an occurrence has one holder, who holds it by its last claim |
| SchedulerSafety.SucceededForGood | src/operations/operations-state.ts:1878-1978 | In such an interleaving a succeeded occurrence is neither started nor overwritten again by either owner |
| SchedulerResults.ComposedTextIsReplayed | src/operations/native-scheduled-reports.ts:128-147 | In such an interleaving every later native call replays the composed text under the composing run's id and changes nothing |
| SchedulerOwnership.TicksTakeNothingOver | src/runtime/daily-operations-control-plane.ts:577-581 | With native calls only for jobs the scheduler does not run, no step of the scheduler takes over an occurrence whose holder is at work |
| SchedulerOwnership.NothingAbandonedExactlyWhenOnTime | src/operations/native-scheduled-reports.ts:164-231 | Then over every interleaving nobody takes over an occurrence from a holder at work exactly when every native call begins within five minutes of every call still at work on its occurrence, and not before it |
| SchedulerOwnership.OnTimeSuccessIsForGood | src/operations/operations-state.ts:1878-1978 | With that ownership and every native call on time, a succeeded occurrence is neither started nor overwritten again by either owner |
| SchedulerOwnership.OnTimeTextIsReplayed | src/operations/native-scheduled-reports.ts:128-147 | And every later native call replays the composed text under the composing run's id and changes nothing |
| SchedulerTakeover.TakeoverLeadsToOverwrite | src/operations/native-scheduled-reports.ts:164-231 | From any state, an event that takes over an occurrence from a holder at work, tick or native call on either side, can be followed by a success of the occurrence and then by its being overwritten as failed |
| SchedulerTakeover.OneLateCallIsEnough | src/operations/native-scheduled-reports.ts:164-231 | So with that ownership one late native call is enough: some run that begins like this one overwrites a success |
| SchedulerTakeover.TickTakesOverFromCall | src/operations/daily-operations-scheduler.ts:314-345 | A run from a new ledger in which a tick takes an occurrence from a native call that is younger than the tick |
| SchedulerTakeover.TickSuccessIsOverwritten | src/operations/daily-operations-scheduler.ts:366-402 | That run carried on: the tick's run succeeds and the call it overtook leaves the occurrence failed |
| SchedulerTakeover.CallTakesOverFromRun | src/operations/native-scheduled-reports.ts:164-231 | A run from a new ledger in which a native call takes an occurrence from a run of the scheduler |
| SchedulerResults.OlderTickTakesOver | src/operations/daily-operations-scheduler.ts:314-345 | Where it fails: a tick that began before a native composition did takes it over, however young it is |
| SchedulerResults.LateRunIsStaleAtOnce | src/operations/daily-operations-scheduler.ts:314-326 | Where it fails: a run started late in a tick is stale to native calls five minutes after the tick began |
| SchedulerResults.CompletedTickCountsEveryJob | src/operations/daily-operations-scheduler.ts:283-411 | Over every interleaving a tick that ends has put every job with a runner into exactly one of its four lists |
| SchedulerResults.MissedGraceNeverApplies | src/operations/daily-operations-scheduler.ts:231-257 | For a due job the same-day guard and the hour of grace never hold a missed report back |
| SchedulerResults.MissedIsRecordedOnce | src/operations/daily-operations-scheduler.ts:225-280 | Considering a due job leaves its previous occurrence failed unless it succeeded or was never seen and is routine, and records that once |
| SchedulerLedger.RunLedger.ClaimSchedulerRun | src/operations/operations-state.ts:1878-1948 | A claim's answer and the row it starts |
| SchedulerLedger.RunLedger.CompleteSchedulerRun | src/operations/operations-state.ts:1950-1998 | A completion's failure count, row and output |
| SchedulerLedger.LatestIsNewest | src/operations/operations-state.ts:2008-2043 | The output replayed is a kept one, and none was created after it |
| SchedulerProtocol.CountFailureStreak | src/operations/daily-operations-scheduler.ts:131-140 | The number of runs that failed in a row up to the last |
| DailyScheduler.DailyOperationsScheduler.Tick | src/operations/daily-operations-scheduler.ts:283-411 | The loop over the jobs does to each in turn what the protocol does to it undisturbed |
| DailyScheduler.DailyOperationsScheduler.Claim | src/operations/daily-operations-scheduler.ts:314-352 | A stale attempt is recorded as failed before it is claimed again; a job that is not taken counts as already run |
| DailyScheduler.OneJobIsAnInterleaving | src/operations/daily-operations-scheduler.ts:294-408 | One job of an undisturbed tick is a sequence of the protocol's own steps |
| DailyScheduler.TickContinuesTheRun | src/operations/daily-operations-scheduler.ts:283-411 | A whole undisturbed tick, from any state a run reaches, is one more stretch of that run, so whatever holds over every interleaving holds of it |
| NoticeConservation.OnePassPerOpenGroup | src/operations/exception-notice-rhythm.ts:162-198 | Over every run, between two admissions of a signature that pass grouping the incident was recovered or reopened because its delivery was dead |
| NoticeConservation.OpenAfterStep | src/operations/operations-state.ts:1777-1811 | A group is open after a step exactly when the step opened it, or found it open and did not end it |
| NoticeConservation.GroupedOccurrenceOnlyCounts | src/operations/exception-notice-rhythm.ts:187-196 | An occurrence that does not pass is counted and delivers nothing |
| NoticeConservation.HeldNoticeIsConserved | src/operations/operations-state.ts:2724-2794 | In one step a pending notice is released exactly when a sweep notified it under its own kind, text and key without failing, never early, or the recovery of its unseen incident cancelled it; otherwise it stays as it is |
| NoticeConservation.HeldUntilWaitEnds | src/operations/exception-notice-rhythm.ts:247-283 | Over every run a pending notice stays pending until such a step |
| NoticeConservation.EveryRunIsCoherent | src/operations/exception-notice-rhythm.ts:205-226 | Over every run keys stay distinct, notices wait for the end of the window they were held in, and a delivery recorded as held has a pending notice |
| NoticeConservation.SweepReleasesWhatItLetGo | src/operations/exception-notice-rhythm.ts:247-283 | A sweep releases exactly the notices it let go |
| NoticeConservation.BatchIsDue | src/operations/exception-notice-rhythm.ts:251-253 | A sweep takes due notices only, at most fifty, and none left out is due for release before one taken |
| NoticeConservation.SweepAccountsForBatch | src/operations/exception-notice-rhythm.ts:247-283 | Released and failed add up to the due notices, at most fifty |
| NoticeConservation.UnseenRecoveryAdmitsNothing | src/operations/exception-notice-rhythm.ts:299-324 | A recovery whose recorded notice never reached the CEO sends and holds nothing, and withdraws what was recorded, held and waiting |
| NoticeConservation.RecoveryAnswers | src/operations/exception-notice-rhythm.ts:285-341 | When a recovery admits a notice, clears an unseen one, or has nothing to recover |
| NoticeConservation.RecoveryIsIdempotent | src/operations/exception-notice-rhythm.ts:285-298 | A second recovery changes nothing |
| ExceptionNotices.ExceptionNoticeRhythm.ClaimSignature | src/operations/exception-notice-rhythm.ts:162-198 | Claiming a group, and reopening a dead one |
| ExceptionNotices.ExceptionNoticeRhythm.Admit | src/operations/exception-notice-rhythm.ts:150-245 | Admission does to the four tables exactly what the specification says |
| ExceptionNotices.ExceptionNoticeRhythm.ReleaseHeld | src/operations/exception-notice-rhythm.ts:247-283 | The sweep's loop, one notice at a time |
| ExceptionNotices.ExceptionNoticeRhythm.RecordRecovery | src/operations/exception-notice-rhythm.ts:285-341 | Recovery does to the four tables exactly what the specification says |
| TelegramOutbox.AcceptedAtMostOnce | src/operations/operations-state.ts:1087-1256 | So it is accepted at most once exactly when at most one acceptance found it cancelled, and a key once accepted so stays cancelled and claimable |
| TelegramOutbox.AcceptedCountIsExact | src/operations/operations-state.ts:1087-1256 | Over every run the transport accepts a delivery key once if its row says sent, and besides once for each acceptance that found the row cancelled but still to be claimed, and never more |
| TelegramOutbox.CancelledDeliveryIsSentAgain | src/operations/operations-state.ts:1143-1153 | Such a row, once its retry time has passed, is sent every time it is notified, stays cancelled, and recording the acceptance raises |
| TelegramOutbox.CancelledIsAcceptedTwice | src/operations/operations-state.ts:2820-2827 | A run from the empty outbox that comes to it: refused for now, cancelled, notified and notified again is accepted twice |
| TelegramOutbox.TriedAtMostThreeTimes | src/operations/operations-state.ts:1110-1153 | Over every run no row counts more than three attempts |
| TelegramOutbox.ReplayIsDeduplicated | src/telegram/telegram-front-door.ts:291-299 | A replay of a sent notification reaches the CEO without sending again |
| SnapshotChains.FirstVersionKeepsChains | src/operations/financial-snapshot.ts:263-290 | A fresh first version starts a chain of its own |
| SnapshotChains.SuccessorKeepsChains | src/operations/financial-snapshot.ts:245-290 | A successor of a snapshot that has none adds one link to its chain |
| SnapshotChains.WriteBackKeepsChainsExactlyUnlessSuperseded | src/operations/financial-snapshot.ts:194-221 | Writing back a copy read earlier keeps the chains exactly when the row was not superseded meanwhile |
| SnapshotChains.StaleWriteBackLetsAChainBranch | src/operations/financial-snapshot.ts:380-412 | Otherwise a superseded snapshot reopens and a second successor can be prepared beside the first |
| SnapshotChains.ChainLinks | src/operations/financial-snapshot.ts:245-262 | In a chained table the version is the position in the chain, each link succeeds the next, and the last is a first version |
| SnapshotChains.ChainIsAcyclic | src/operations/financial-snapshot.ts:245-262 | A chain never comes back to a snapshot |
| SnapshotChains.ChainsThatMeetAreOne | src/operations/financial-snapshot.ts:245-262 | Two chains that meet are one chain |
| SnapshotChains.HeadOfChain | src/operations/financial-snapshot.ts:245-262 | Every snapshot leads up to one that is not superseded |
| SnapshotChains.HeadIsUnique | src/operations/financial-snapshot.ts:245-262 | And to only one |
| SnapshotChains.DigestIdentifiesArtifact | src/operations/financial-snapshot.ts:135-139 | A digest determines workbook, period and version when no period holds the separator |
| SnapshotChains.DigestsMayCollide | src/operations/financial-snapshot.ts:135-139 | With the separator in a period it does not |
| FinancialSnapshots.FinancialSnapshotLedger.Prepare | src/operations/financial-snapshot.ts:238-291 | Preparing keeps chains and permits; a failed successor insert leaves the ledger as it was |
| FinancialSnapshots.FinancialSnapshotLedger.Validate | src/operations/financial-snapshot.ts:293-314 | Validation by the Personal CFO's reconciliation, keeping chains and artifacts |
| FinancialSnapshots.FinancialSnapshotLedger.Present | src/operations/financial-snapshot.ts:316-378 | Presenting asks for approval of exactly this id and digest, or leaves the ledger alone |
| FinancialSnapshots.FinancialSnapshotLedger.Complete | src/operations/financial-snapshot.ts:380-412 | Completing succeeds only through a granted, unexpired approval whose scope, type, identity and version are this snapshot's |
| FinancialSnapshots.PrepareKeeps | src/operations/financial-snapshot.ts:238-291 | Preparing keeps the ledger's invariant |
| FinancialSnapshots.ValidateKeeps | src/operations/financial-snapshot.ts:293-314 | Validating keeps it |
| FinancialSnapshots.PresentKeeps | src/operations/financial-snapshot.ts:316-378 | Presenting keeps it |
| FinancialSnapshots.CompleteKeeps | src/operations/financial-snapshot.ts:380-412 | Completing keeps it: every approved snapshot was validated and has a permit that covers it |
| FinancialSnapshots.PermissionIsACoveringApproval | src/operations/financial-snapshot.ts:393-405 | The gateway's permission for a snapshot is an approval that covers exactly it |
| FinancialSnapshots.PermitDoesNotTravel | src/operations/financial-snapshot.ts:353-368 | A permit for one snapshot is none for another, nor for another version |
| PolicyEngine.OnlyACoveringApprovalPermits | src/operations/policy-engine.ts:93-162 | A write that is not low-risk is permitted exactly through an approval that covers it and is not shadowed |
| PolicyEngine.InvalidatedApprovalNoLongerCovers | src/operations/policy-engine.ts:117-131 | An approval the outcome invalidates was granted for another version, or expired |
| PolicyEngine.FirstGrantedIsFirst | src/operations/policy-engine.ts:112-115 | The approval looked at is the first granted one of the action's target |
| PolicyEngine.Gateway.RequestAction | src/operations/operations-gateway.ts:406-549 | A request permits, executes or asks exactly as the engine decides, and requests at most one approval |
| PolicyEngine.Gateway.GrantApproval | src/operations/operations-gateway.ts:551-569 | Only a requested approval can be granted |
| PersonalContextStore.EveryRunKeeps | src/knowledge/personal-context-ingestion.ts:641-894 | Over every run of ingestions, purges and crashes, wherever the process dies, the payload of a purged candidate is gone and one that is there holds its candidate's content; rows are distinct, and as their identities call for |
| PersonalContextStore.TornExactlyWhenPurgeDied | src/knowledge/personal-context-ingestion.ts:855-862 | Over every run a row's payload is gone without a record exactly when a purge died between removing and recording it and none has recorded it since |
| PersonalContextStore.WellKeptExactlyUnlessTorn | src/knowledge/personal-context-ingestion.ts:837-865 | So a payload file exists exactly for unpurged rows with a payload path if and only if no purge is torn |
| PersonalContextStore.PurgeMendsWhatIsDue | src/knowledge/personal-context-ingestion.ts:842-865 | A purge mends the torn rows that are due by then, and no others |
| PersonalContextStore.ReingestionAddsNothing | src/knowledge/personal-context-ingestion.ts:672-685 | Ingesting again what was ingested adds no row and changes nothing, even after a purge |
| PersonalContextStore.StreamIsOneChain | src/knowledge/personal-context-ingestion.ts:688-697 | Each candidate supersedes the one immediately before it in its stream |
| PersonalContextStore.PurgeIsExact | src/knowledge/personal-context-ingestion.ts:842-865 | A purge returns, in row order, exactly the eligible rows with a payload not purged before, and records exactly those |
| PersonalContextStore.PurgedAtMostOnce | src/knowledge/personal-context-ingestion.ts:842-865 | Over every run a candidate is purged at most once, once if it is recorded: by a purge that reported it or by one that died afterwards |
| PersonalContextStore.OrphansAreUnreferenced | src/knowledge/personal-context-ingestion.ts:866-892 | Orphan cleanup deletes no payload a row refers to and records no candidate as purged |
| PersonalContextStore.NothingStagedOutlivesThirtyDays | src/knowledge/personal-context-ingestion.ts:837-894 | After a purge no staged file is older than thirty days |
| PersonalContextStore.InterruptedPurgeResumes | src/knowledge/personal-context-ingestion.ts:855-862 | A purge that dies between removing a payload and recording it leaves the store torn; any purge from then on, at the same time or later, reports and leaves what it would have, had the payload still been there |
| PersonalContextStore.ReadReturnsWhatWasIngested | src/knowledge/personal-context-ingestion.ts:798-827 | A read is let through exactly for an allowed role on a clean, unpurged snapshot, and returns what was ingested unless its purge was torn |
| PersonalContext.PersonalContextIngestion.Ingest | src/knowledge/personal-context-ingestion.ts:641-792 | Ingestion checks, finds, writes the payload and inserts the row, and removes the payload when the insert fails |
| PersonalContext.PersonalContextIngestion.PurgeExpired | src/knowledge/personal-context-ingestion.ts:837-894 | The purge's two loops; a record that raises ends the purge with the file it was for already gone |
| PersonalContext.PersonalContextIngestion.RemoveStrays | src/knowledge/personal-context-ingestion.ts:866-892 | The loop over the directory, in any order, up to a record that raises |
| PersonalContext.OneMoreOrphan | src/knowledge/personal-context-ingestion.ts:866-892 | Removing orphans one at a time comes to removing them together |
| RetentionCalendar.RetentionIsExactlyTheGrantedDays | src/knowledge/personal-context-ingestion.ts:377-425 | A retention class is accepted exactly for at most thirty days, four weeks, or one month captured in a month of at most thirty days, and never grants more than thirty days |
| RetentionCalendar.MovedDaySpan | src/knowledge/personal-context-ingestion.ts:403-418 | What every class does to the calendar before the limit |
| RetentionCalendar.MonthsSpan | src/knowledge/personal-context-ingestion.ts:413-414 | A shift by months fits in thirty days only for one month of at most thirty days |
| RetentionCalendar.CivilDatesAreDistinct | src/knowledge/personal-context-ingestion.ts:408-418 | No two calendar dates share a day number |
| RetentionEvidence.KnowledgeRetention.Run | src/knowledge/knowledge-operations.ts:550-680 | The job's loops, up to the first failure |
| RetentionEvidence.KnowledgeRetention.PerformOne | src/knowledge/knowledge-operations.ts:616-639 | A payload is dropped only after its tombstone is recorded |
| RetentionEvidence.EvidenceIsAppendOnly | src/operations/operations-state.ts:2642-2697 | Whatever becomes of a run, recorded evidence is never changed, removed or recorded again |
| RetentionEvidence.SuccessIsDone | src/knowledge/knowledge-operations.ts:564-588 | A run that succeeds is done with every task, none of which drifted |
| RetentionEvidence.DriftFails | src/knowledge/knowledge-operations.ts:566-577 | A drifting key fails the run |
| RetentionEvidence.EveryEligibleCandidateIsRecorded | src/knowledge/knowledge-operations.ts:609-634 | A run that succeeds leaves a tombstone for every eligible raw candidate |
| RetentionEvidence.RerunAddsNothing | src/knowledge/knowledge-operations.ts:550-680 | Rerun at the same time on the same facts, a run that succeeded adds nothing |
| RetentionEvidence.PayloadDropsAfterTombstone | src/knowledge/knowledge-operations.ts:634-638 | Whatever becomes of a run, a payload is dropped only if its tombstone is recorded |
| RetentionEvidence.SuccessDropsDuePayloads | src/knowledge/knowledge-operations.ts:616-638 | A run that succeeds drops exactly the payloads of the candidates it recorded |
| RetentionEvidence.RestagedPayloadIsKept | src/knowledge/knowledge-operations.ts:609-616 | A payload staged again after its tombstone was recorded is kept by every later run |
| OperatingClock.LocalTimeRoundTrip | src/operations/daily-schedule.ts:48-58 | Reading back the instant of a wall-clock time gives that day and time |
| OperatingClock.InstantWithinItsMinute | src/operations/daily-schedule.ts:9-35 | An instant lies in the minute its own day and minutes name |
| OperatingClock.WindowsTileTime | src/operations/daily-schedule.ts:95-103 | Day windows tile time |
| OperatingClock.ReleaseIsFirstInstantOutside | src/operations/exception-notice-rhythm.ts:93-100 | A held notice is released at the first later instant outside do-not-disturb, at most eight hours on |
| OperatingClock.NextExpectedRunIsUnique | src/operations/daily-operations-scheduler.ts:461-494 | The next expected run is the only instant of the next day that shows the job's wall-clock time |
| OperatingClock.PreviousOccurrenceIsYesterday | src/operations/daily-operations-scheduler.ts:231-237 | A day earlier always names the operating day before |
| OperatingClock.WeekendRecursWeekly | src/operations/daily-schedule.ts:105-108 | The weekend is two days of every week |
| StdioFraming.FramingIsChunkIndependent | src/integration/mcp-stdio.ts:166-188 | However the input is cut into chunks, the handler extracts the lines and keeps the tail that one whole chunk would give |
| StdioFraming.SplitThenJoin | src/integration/mcp-stdio.ts:166-173 | Splitting is the inverse of joining with newlines |
| StdioFraming.OneMoreChunk | src/integration/mcp-stdio.ts:184-188 | One more chunk adds the lines it completes |
| McpStdio.McpServer.OnData | src/integration/mcp-stdio.ts:184-224 | What one chunk of input does to buffer, queue and output |
| McpStdio.McpServer.OnSettled | src/integration/mcp-stdio.ts:208-222 | What one settled request does to queue and output |
| McpStdio.ResponsesFollowRequests | src/integration/mcp-stdio.ts:113-225 | Over every interleaving and every way to cut the input, each well-formed request outside the notifications methods is answered once and in order, up to those still queued, and each malformed line draws one parse error (sections 4.1 and 5 of the JSON-RPC 2.0 Specification) |
| McpLineOrder.LineOrderExactlyWhenNothingOvertakes | src/integration/mcp-stdio.ts:166-225 | Over every interleaving and every way to cut the input, the whole output is in the order of the lines it answers exactly when no malformed line is received while a queued request is owed an answer |
| McpStdio.ParseErrorOvertakesQueuedRequest | src/integration/mcp-stdio.ts:188-222 | A run in which it is not: a parse error is written before the answer to an earlier request |
| FinancialReconciliation.Reconcile | src/operations/financial-reconciliation.ts:105-172 | The join by deletion gives the specified books |
| FinancialReconciliation.BooksMention | src/operations/financial-reconciliation.ts:131-172 | The books mention every Moomoo row once and every identity only Money Manager holds once |
| FinancialReconciliation.PartitionExactlyWhenDistinct | src/operations/financial-reconciliation.ts:131-172 | Every identity of the union lands in exactly one list precisely when no Moomoo identity repeats |
| FinancialReconciliation.EachIdentityLandsWhereItShould | src/operations/financial-reconciliation.ts:136-172 | Agreed rows match, conflicts differ in the named field, and a missing line names the side that lacks it |
| FinancialReconciliation.SwappingExportsSwapsSides | src/operations/financial-reconciliation.ts:131-172 | Swapping the exports swaps only the sides |
| MeteredCost.MeteredCostLedger.Record | src/operations/metered-cost.ts:198-240 | Every metered observation is kept, over the cap or not |
| MeteredCost.MeteredCostLedger.Group | src/operations/metered-cost.ts:141-153 | The grouping loop |
| MeteredCost.TotalIsWithinHalfACentEach | src/operations/metered-cost.ts:137-139 | A running total is at most half a cent off for every observation |
| MeteredCost.SmallAmountsNeverAddUp | src/operations/metered-cost.ts:191-195 | Amounts below half a cent never add up to anything, so no number of them passes the cap |
| MeteredCost.WholeCentTotalsAreExact | src/operations/metered-cost.ts:191-195 | Whole-cent amounts are totalled exactly |
| MeteredCost.GroupIsTotalOfItsObservations | src/operations/metered-cost.ts:141-153 | A group's amount is the total of its own observations |
| MeteredCost.GroupsAddUpToTotal | src/operations/metered-cost.ts:242-250 | For whole-cent amounts every grouping adds up to the total |

## Left out

- Ticks of one scheduler do not overlap, and ledger, table and file operations are atomic between the points where the source waits.
- The operating zone is a fixed 480 minutes ahead of UTC; time-zone lookup is not modelled.
- Digests are injective: a digest is the value it was computed from, and the shortened digest in a quarantine file's name tells its fingerprints apart.
- Fingerprints are pairs of evidence and hash, where the source joins them with a colon.
- JSON files and the log file are read back as they were written; the order of records in them is not modelled, nor line breaks inside identifiers of a log line.
- A failure to read the vault's own log, which a root whose files hold no log is loaded from, is not modelled apart from a failure to read its files.
- The actor and the generation digest on a log line rebuilt from the vault's own log are left blank.
- The index page is the set of wiki paths; its sorting and naming are not modelled.
- Lower-casing of source identities covers ASCII letters only.
- The vault's encryption, role views, superseded generations and their purge are not modelled.
- Sensitive-secret detection, path normalisation and date parsing are answers given to each step; so is the rejection of a Telegram message that holds a secret, which comes before its delivery is claimed.
- Digest text parsing (`parseDigestRows`) and the wording of problems and errors are not modelled; title normalisation is a parameter.
- Notion, the linked views and the workspace behind the cutover are a world of arbitrary answers, given to each call; how an edited record comes back through reconciliation is among them.
- Timestamps of incident groups and audit records are not modelled.
- The notices that a scheduler tick admits, and `schedulerHealth`, are not modelled; a notice that cannot be persisted ends the tick.
- DailyScheduler.DailyOperationsScheduler.Tick: the class runs a tick that nothing comes between; interleavings are stated over the protocol's events, of which such a tick is a run.
- The registered native jobs are any job given to the call; a restart ends every tick, runner and native call at once.
- Personal Context keeps payloads in the clear; AES and scrypt are not modelled, and a candidate's identity holds its fields apart where the source joins them with colons.
- Facts in retention evidence are of the kind their task is about: backups carry no raw-candidate evidence.
- MeteredCost.MeteredCostLedger.Group: lists groups in the order they first occur; the source sorts them by key with the locale's order, which is not modelled.
- Cost amounts are exact numbers; floating point, budgets and model routing are not modelled.
- Retention class names are parsed elsewhere: a class is a count and a unit.
- The synchronous MCP path, domain health and status merging are single-branch facts.
- The migration rehearsal, the Hermes turn loop and the environment-file upsert would only add easier members.
- HTTP, CLI and MCP wiring, dashboards, provider bridges, OAuth and digests are plumbing and presentation.
