# CurseDelete, verified

A Dafny model of the parts of CurseDelete where mistakes cost data or entitlements, with proofs of what they promise:

- the streaming delete pipeline: an enumerator, a coordinator, file workers and directory workers that share queues, a
  directory tracker and counters (`Pipeline*.dfy`, `DirectoryTracker.dfy`, `Attempts.dfy`, `Report.dfy`);
- the tree walk that feeds it, the file filters, and the end-to-end results that the three together prune a tree and
  that the counters are those of the tree, rehearsed or real (`Walk.dfy`, `Identifiers.dfy`, `Filter.dfy`, `Prune.dfy`,
  `Census.dfy`);
- the resizable semaphore and the adaptive controller that sets its size (`Semaphore.dfy`, `Adaptive.dfy`);
- the lexical path layer and the Windows verbatim form (`Target.dfy`, `Verbatim.dfy`);
- licences: the signed envelope, validation, resolution, the files on disk and the commands that change them
  (`Envelope.dfy`, `Validate.dfy`, `Resolve.dfy`, `Store.dfy`, `Commands.dfy`).

`dafny verify dfyconfig.toml` checks everything.

## How the pipeline is modelled

The pipeline is a transition system. Every thread has a program counter, and one step of a thread is one access to
shared memory: a tracker operation under its shard lock, a channel operation, an engine call, a semaphore operation, a
read of the cancellation flag. So the check that a directory looks ready and the `try_finalise` that follows are two
steps, and any other thread may run between them. A run is a sequence of such steps in any order, together with
interruptions and resizes of the semaphore at any point. The engine is an arbitrary source of answers; where a result
needs a well-behaved engine, its statement says so. Counters are only read after all threads have been joined, so a
counter update is made in the step next to it. Polling timeouts change nothing and are not steps.

An entry is named by its position in the stream of events. `StreamOf` in `Walk.dfy` translates the identifiers that the
walk allocates into positions; `Identifiers.dfy` proves that this loses nothing, since no identifier is used that was
not handed out. The walk is proved to produce what the pipeline model requires of a stream, so the results compose: see
`Prune.DeletionIsPrune` and `Census.RehearsalOfTree`.

The proof is layered. `PipelineInvariant` states what holds between steps, `PipelineSteps` and `PipelineReach` prove it
for every step and every run. `PipelineLife` then views each step from a single entry, as a transition of a small
automaton, from which the properties of whole runs follow: what is handed to the engine (`PipelineSafety`), how each
entry is counted whatever the engine answers (`PipelineFaults`, `PipelineRepairs`), what the counters, the log and the
exit code say (`PipelineLedger`, `PipelineConservation`, `PipelineLog`), that runs end (`PipelineProgress`,
`PipelineTermination`, `PipelineEnd`), and what they leave on disk (`PipelinePrune`, `PipelineFinish`).

No proof depends on Dafny's automatic induction (`--manual-lemma-induction` may be added); where a lemma is inductive, or
is about streams and trees, it is switched off.

Where code and documentation disagree the model follows the code. The exit code for failed lock resolution is tied to a
failure category that `process_one` never produces (crates/cursdel-core/src/pipeline.rs:505-513,
crates/cursdel-core/src/report.rs:67-73); the model keeps both as they are and claims nothing about that exit code.
Three properties that look universal are not, and each has its exact condition: `Target.PrintedFormReadsBack` (with
`Target.RelativeReadsBackAsDrive` as an example that fails), `Verbatim.PlainUndoesVerbatim`, and
`Verbatim.VerbatimMeansTheSame` (with `Verbatim.MixedSeparatorsChangeMeaning`).

## Model

| member | source | states |
|---|---|---|
| `DirectoryTracking.DirectoryTracker.MarkEnumerationDone` | crates/cursdel-core/src/directory_tracker.rs:109-121 | an uninterrupted call marks the listing done, and finalises and sends the directory exactly when nothing is pending and it was not finalised |
| `DirectoryTracking.DirectoryTracker.CompleteChild` | crates/cursdel-core/src/directory_tracker.rs:127-147 | an uninterrupted call resolves one child, counts it if it is still there, and sends the parent once when it was listed and this was its last child |
| `DirectoryTracking.DirectoryTracker.TryFinalise` | crates/cursdel-core/src/directory_tracker.rs:149-169 | a directory is sent at most once, with the simulated answer of the moment |
| `Attempts.StagesAreHonest` | crates/cursdel-core/src/pipeline.rs:469-548 | each retry has one recorded cause, a success is always the engine's own last answer, and at most seven calls are made |
| `Attempts.CallsMade` | crates/cursdel-core/src/pipeline.rs:469-548 | the exact sequence of engine calls for any options and answers, written out repair by repair, and what is reported in the end: the last answer to a delete call, unless a remote lock could not be closed |
| `Attempts.OptionsAreObeyed` | crates/cursdel-core/src/pipeline.rs:454-548 | without `allow_remediation`, `kill_locks` or `close_remote_locks` no such call is made and no such counter moves; a repair of permissions is tried exactly if it is allowed and the first delete answered AccessDenied or ReparsePointRefused; a lock is touched only while the last delete answer is SharingViolation, and for a leaf |
| `Attempts.CallsAreCounted` | crates/cursdel-core/src/pipeline.rs:469-548 | attempts, successes, resolved locks and retries are the numbers of the calls they name |
| `Attempts.DeleteWithRemediation` | crates/cursdel-core/src/pipeline.rs:469-494 | the imperative procedure computes what running the stages computes: outcome, counters and number of calls |
| `Attempts.ProcessOne` | crates/cursdel-core/src/pipeline.rs:496-548 | the same for a leaf, with both lock repairs |
| `Report.LogKeepsThePrefix` | crates/cursdel-core/src/pipeline.rs:59-75 | the stored failures are the first 10000 pushed, and the flag says whether any were lost |
| `Report.FailureLog.Push` | crates/cursdel-core/src/pipeline.rs:59-67 | the log stays the log of everything pushed so far |
| `Report.FailureLog.IntoParts` | crates/cursdel-core/src/pipeline.rs:69-74 | what comes out is the prefix of what went in, and whether it is a proper one |
| `PipelineReach.RunCore` | crates/cursdel-core/src/pipeline.rs:295-439 | in every state of every run, faulty and cancelled ones included, each entry is the business of exactly one thread or queue, queues hold no entry twice, every tracked record is exact, and each entry is counted at most once |
| `PipelineLife.TakesLife` | crates/cursdel-core/src/pipeline.rs:327-439 | seen from one entry, every step is invisible or one transition of its life cycle, taken by the thread that has it |
| `PipelineSafety.TrackerIsExact` | crates/cursdel-core/src/directory_tracker.rs:79-164 | in every reachable state a pending count is the number of announced, unresolved children, so never negative, the count of children still present is right, and the parent of an unresolved child is tracked and not finalised |
| `PipelineSafety.SentOnceAndReady` | crates/cursdel-core/src/directory_tracker.rs:109-169 | a directory goes on the ready channel at most once in a run, and only when its listing is done and every child of it is resolved |
| `PipelineSafety.ChildrenResolved` | crates/cursdel-core/src/pipeline.rs:564-632 | once a directory is no longer waiting, all children the stream will ever name for it are resolved |
| `PipelineSafety.OnlyTheChosenAreHanded` | crates/cursdel-core/src/pipeline.rs:345-385 | whatever is handed to an engine delete was announced, is no leaf the filters retain or that was counted as retained, and nothing is handed over in a dry run |
| `PipelineSafety.CancellationSpares` | crates/cursdel-core/src/pipeline.rs:355-359 | a leaf that has not passed its check when the run is cancelled is never handed to the engine |
| `PipelineFaults.HowEntriesAreCounted` | crates/cursdel-core/src/pipeline.rs:345-632 | in any run, faulty and cancelled ones included: a leaf handed to the engine is deleted or failed as the engine last reported, any other is retained if the filters or an interruption say so; a directory handed to it is deleted if it reports so, retained exactly if it reports NotEmpty and the target is preserved or the run interrupted at that moment, and failed otherwise; in a dry run it is deleted exactly if all its children were |
| `PipelineFaults.VerdictTellsTheDisk` | crates/cursdel-core/src/pipeline.rs:412-436 | in every state of a real run an entry that is counted is counted as deleted exactly if it is gone from the disk |
| `PipelineFaults.VerdictsAreFinal` | crates/cursdel-core/src/pipeline.rs:345-632 | a count is never revised, and nothing is asked of the engine about the entry, or changes on disk, after it |
| `PipelineFaults.PreservedTargetStays` | crates/cursdel-core/src/pipeline.rs:576-582 | a preserved target is never handed to the engine, never counted and still there in every state of every run |
| `PipelineRepairs.RunAllowed` | crates/cursdel-core/src/pipeline.rs:469-548 | in every state of every run the counters of repairs that the options do not allow are zero, and no thread is about to make one |
| `PipelineRepairs.RepairsAreCounted` | crates/cursdel-core/src/pipeline.rs:469-548 | in every state of every run each counter of repairs is the number of engine answers it stands for, over all threads |
| `PipelineLedger.RunLedger` | crates/cursdel-core/src/pipeline.rs:345-436 | in every reachable state each counter is the sum of the verdicts on the entries, retries have one cause each, and the log holds what its bound allows |
| `PipelineConservation.LeavesAreConserved` | crates/cursdel-core/src/pipeline.rs:345-436 | in every reachable state files scanned = deleted + retained + failed + queued + in flight |
| `PipelineConservation.TheBooksBalance` | crates/cursdel-core/src/report.rs:52-92 | at the end files and directories scanned are accounted for, a preserved root excepted, failures are those of files, directories and listings, the stored failures are bounded with the flag exact, and the exit code is Success exactly for an uninterrupted run without failures |
| `PipelineLog.RunLog` | crates/cursdel-core/src/pipeline.rs:412-436 | in every state of every run a category in the log is that of a failed listing or of what the engine reported about an entry counted as failed, and each such entry's is in it, about to be, or dropped because the log is full |
| `PipelineLog.SuccessMeansDone` | crates/cursdel-core/src/report.rs:52-92 | after a real run that exits with Success, what is still on disk is a leaf the filters retain, the preserved target, or a directory the engine found not empty |
| `PipelineLog.ExitCodeTells` | crates/cursdel-core/src/report.rs:52-92 | Interrupted exactly for an interrupted run; remote-lock trouble only if an entry failed for it, and always then unless interrupted, not asked for or the log is full; missing privileges only if repairs were attempted and none was applied |
| `Report.Summary.ExitCodeSays` | crates/cursdel-core/src/report.rs:52-92 | the exact condition of each exit code and their order of precedence |
| `PipelineProgress.RunControlled` | crates/cursdel-core/src/pipeline.rs:245-276 | in every reachable state permits granted are those held, the file queue is closed and the flags are raised exactly when the coordinator has got there, root_done was sent exactly when the root is resolved, and a worker has left only when its queue was closed and empty |
| `PipelineTermination.WorkIsBounded` | crates/cursdel-core/src/pipeline.rs:295-633 | the steps of a run, and what may still come, fit into a bound given by the stream and the number of threads |
| `PipelineEnd.RoomToSend` | crates/cursdel-core/src/pipeline.rs:32 | a thread about to send a ready directory finds fewer in the channel than the tree has directories |
| `PipelineEnd.TerminatedIsComplete` | crates/cursdel-core/src/pipeline.rs:245-276 | when every thread has left, root_done was sent and received once, the tracker is empty, and every entry was received, resolved and counted |
| `PipelineEnd.EveryRunEnds` | crates/cursdel-core/src/pipeline.rs:245-276 | with room for every directory in the ready channel, a run's steps are bounded and it can go no further exactly when every thread has left, root_done having been sent once and the tracker being empty |
| `PipelinePrune.RunsPrune` | crates/cursdel-core/src/pipeline.rs:327-439 | whatever the schedule, an undisturbed real run leaves exactly what a recursive prune keeps |
| `PipelinePrune.RehearsalIsRight` | crates/cursdel-core/src/pipeline.rs:584-611 | two undisturbed runs on the same stream with the same filters, one of them possibly dry, end with identical counters and failures, whatever the two schedules, worker counts and queue sizes |
| `PipelinePrune.SimulationIsRight` | crates/cursdel-core/src/directory_tracker.rs:127-164 | when a directory worker takes a directory, its simulated answer is what the disk says |
| `PipelinePrune.TrackerTells` | crates/cursdel-core/src/directory_tracker.rs:149-164 | at finalisation the count of children still present is positive exactly when the reference keeps a child |
| `PipelineFinish.CanBeFinished` | crates/cursdel-core/src/pipeline.rs:186-277 | an undisturbed run, however far it has come, can be carried to its end without disturbance |
| `PipelineFinish.SomeRunFinishes` | crates/cursdel-core/src/pipeline.rs:186-277 | there is a finished undisturbed run for every job |
| `Filter.FilterSet.DeletedIffNoObjection` | crates/cursdel-core/src/filter.rs:170-222 | a file goes exactly when no test objects, and a named reason is a test that objects |
| `Filter.FilterSet.DeletedIff` | crates/cursdel-core/src/filter.rs:170-222 | deletion in terms of the file's name, size and the chosen time: with an age filter the time must be known and lie at least the age before the reference time, unless the age is zero |
| `Walk.StreamTree` | crates/cursdel-core/src/walk.rs:57-159 | for any tree, any failing listings and cancellation at any check the walk ends with a well-formed stream whose entries describe nodes reached by real directories, and whose identifiers are handed out in order and used only afterwards; uncancelled, each listable directory's children are sent exactly and in order and each unlistable one is reported; cancelled at check n, that holds of exactly n directories, and then the open ones are completed |
| `Identifiers.WellFormedIffOrderly` | crates/cursdel-core/src/engine.rs:57-72 | for identifiers handed out in order, the numbered stream is well formed exactly when each directory is announced before its entries, under an identifier of its own, and is completed exactly once, after all of them |
| `Walk.SendChildren` | crates/cursdel-core/src/walk.rs:78-122 | the loop over one listing sends every child once, under the directory's identifier, and stacks the directories among them under new ones |
| `Walk.Flush` | crates/cursdel-core/src/walk.rs:142-153 | after cancellation every open directory gets its one completion, by its identifier, and nothing else is sent |
| `Prune.WalkFindsExactly` | crates/cursdel-core/src/walk.rs:57-159 | an uncancelled walk that can list everything sends entries for exactly the nodes reachable without crossing a reparse point |
| `Prune.KeptIsStays` | crates/cursdel-core/src/walk.rs:78-122 | the pipeline's notion of what is kept, on positions, is the tree's, on nodes |
| `Prune.DeletionIsPrune` | crates/cursdel-core/src/pipeline.rs:103-292 | walking a listable tree and running the pipeline undisturbed leaves the recursively pruned tree, and the target itself exactly when there were filters |
| `Prune.NothingOutsideIsHanded` | crates/cursdel-core/src/walk.rs:78-122 | in every run on a walk's stream, faulty and cancelled ones included, what is handed to the engine is the target or lies below it through real directories only |
| `Census.EntriesMakeUpTheTree` | crates/cursdel-core/src/walk.rs:78-122 | whatever order a complete walk sends a tree in, any quantity summed over its entries is that quantity summed over the tree |
| `Census.CountersAreCensus` | crates/cursdel-core/src/pipeline.rs:345-436 | the final counters of an undisturbed run on any complete walk are read off the tree and the filters: leaves and directories that stay, that go, and the bytes of those that go |
| `Census.RehearsalOfTree` | crates/cursdel-core/src/pipeline.rs:363-385 | two undisturbed runs on one tree with the same filters end with identical counters, although the walks may send it in different orders, the schedules and settings differ, and one run is dry |
| `Semaphore.ResizableSemaphore.TryAcquire` | crates/cursdel-core/src/sync.rs:35-41 | one pass through the loop takes a permit exactly when one is free, and then stays within capacity |
| `Semaphore.NoWakeupIsLost` | crates/cursdel-core/src/sync.rs:35-58 | in every state of every run granted permits are those held, and unless everybody is about to be notified, woken threads and pending notifications cover the free permits that are wanted |
| `Semaphore.NobodySleepsForNothing` | crates/cursdel-core/src/sync.rs:35-58 | if a thread sleeps while a permit is free, a wakeup is on its way |
| `Semaphore.NeverTakenBeyondCapacity` | crates/cursdel-core/src/sync.rs:35-41 | right after an acquire the permits held are within the capacity, across any resizes |
| `Target.ResolveDotComponents` | crates/cursdel-core/src/target.rs:200-215 | the loop computes the resolution defined part by part |
| `Target.ResolvedAreSurvivors` | crates/cursdel-core/src/target.rs:200-215 | what is left is, in order, exactly the names from which on the path never comes back up |
| `Target.DepthIsLargestBalance` | crates/cursdel-core/src/target.rs:200-215 | the depth is the largest excess of names over `..` in any suffix |
| `Target.NamesVanish` | crates/cursdel-core/src/target.rs:200-215 | names in front of a path leave no trace exactly when the rest rises above all of them on the way |
| `Target.ProtectedIffEverySuffixFalls` | crates/cursdel-core/src/target.rs:69-76 | a path is a protected root exactly when it is absolute and every suffix of its parts has at least as many `..` as names |
| `Target.ParseUncBody` | crates/cursdel-core/src/target.rs:177-198 | the offset scan leaves exactly the parts from the third on, or nothing |
| `Target.ReadsAs` | crates/cursdel-core/src/target.rs:99-198 | prefix, letter, server, share and components of any path, character by character |
| `Target.SplitJoin` | crates/cursdel-core/src/target.rs:99-101 | splitting undoes joining |
| `Target.PrintedFormReadsBack` | crates/cursdel-core/src/target.rs:79-142 | printing and reading back gives the same path, except exactly for a server called `?` and a relative path that starts like a drive |
| `Target.RelativeReadsBackAsDrive` | crates/cursdel-core/src/target.rs:79-142 | `./C:/y` is relative, prints as `C:/y` and is read back as a drive path |
| `Verbatim.VerbatimIsIdempotent` | crates/cursdel-windows/src/sys.rs:34-52 | the verbatim form is marked, has no forward slashes and is its own verbatim form |
| `Verbatim.VerbatimMeansTheSame` | crates/cursdel-windows/src/sys.rs:34-52 | a drive or share path is classified like its verbatim form exactly when it does not start with two different separators, `?` and a separator, or what follows repeats that prefix and rises above the names the other reading adds |
| `Verbatim.MixedSeparatorsChangeMeaning` | crates/cursdel-windows/src/sys.rs:34-52 | `\/?\C:\x`, a share path that becomes a drive path |
| `Verbatim.PlainUndoesVerbatim` | crates/cursdel-windows/src/lock.rs:225-234 | the prefix comes off again exactly for paths that were not verbatim and do not start with `UNC\` |
| `Envelope.SignedMessageIsInjective` | crates/cursdel-license/src/envelope.rs:105-112 | equal messages have equal kind and payload |
| `Envelope.CheckSignatures` | crates/cursdel-license/src/envelope.rs:152-201 | the loop with its early returns computes the verdict defined over all signatures |
| `Envelope.Open` | crates/cursdel-license/src/envelope.rs:116-202 | the procedure computes the function the results are about, error cases included |
| `Envelope.OpensIff` | crates/cursdel-license/src/envelope.rs:116-202 | an envelope opens exactly when its shape is right, some signature by a trusted key with an allowed algorithm verifies and none fails; out come the signed payload and exactly the verifying keys |
| `Envelope.TextOpensIff` | crates/cursdel-license/src/envelope.rs:116-202 | the same from the text: it is within the size bound, parses, and what it parses to opens |
| `Envelope.KeysVouch` | crates/cursdel-license/src/envelope.rs:157-201 | every key reported as verifying is trusted, of an allowed algorithm, and its signature on the payload verifies |
| `Envelope.ErrorsTellWhy` | crates/cursdel-license/src/envelope.rs:157-201 | which error comes out: the first bad signature's, else the untrusted keys, else the algorithms not allowed, else the unknown ones |
| `Envelope.OrderDoesNotMatter` | crates/cursdel-license/src/envelope.rs:157-201 | success, payload and verifying keys do not depend on the order of the signatures |
| `Validate.LicensePolicy.NothingUnsignedIsAccepted` | crates/cursdel-license/src/validate.rs:115-177 | accepted licences and certificates are signed for that very purpose, for this product and version, and no text passes as both |
| `Validate.LicensePolicy.IdentifiedIff` | crates/cursdel-license/src/validate.rs:115-128 | a text is identified exactly when it opens as a licence, its claims can be read and are for this product and version |
| `Validate.LicensePolicy.VerifiedIff` | crates/cursdel-license/src/validate.rs:98-113 | a licence is accepted exactly when it is identified and, if a subscription, now is before its end; one past it is Expired |
| `Validate.LicensePolicy.ActivatesIff` | crates/cursdel-license/src/validate.rs:134-177 | a certificate is accepted exactly when it opens as one, is for this build, this licence and, in any case of letters, this device, and has neither expired nor gone unrefreshed too long |
| `Resolve.Setting.FindActivation` | crates/cursdel-license/src/resolve.rs:104-114 | the loop returns the first certificate that activates, else the first certificate's error |
| `Resolve.Setting.ResolveAll` | crates/cursdel-license/src/resolve.rs:80-139 | the two loops compute the resolution the results are about |
| `Resolve.ActiveIsFirstBest` | crates/cursdel-license/src/resolve.rs:128-138 | the active licence is the first candidate of the highest edition among the valid ones, and there is none exactly when no candidate is valid |
| `Resolve.NoneIsLost` | crates/cursdel-license/src/resolve.rs:90-127 | every candidate is valid or rejected, and each rejection names its candidate and reason |
| `Resolve.OnlyGoodLicensesCount` | crates/cursdel-license/src/resolve.rs:80-139 | the active licence is the first of the highest edition among the candidates that are readable, verified, not revoked and, if Business, activated by a stored certificate; every other candidate is rejected for its reason, Revoked included |
| `Resolve.TheHighestEditionWins` | crates/cursdel-license/src/resolve.rs:128-138 | the edition in effect is Enterprise if a good licence is for it, else Business, else Education, else Community |
| `Resolve.TheActiveLicenseIsCurrent` | crates/cursdel-license/src/resolve.rs:90-127 | the active licence is not on the revocation list and is perpetual or not yet past its end |
| `Resolve.MoreCandidatesNeverLower` | crates/cursdel-license/src/resolve.rs:80-139 | more candidates never lower the edition |
| `Resolve.RevocationNeverRaises` | crates/cursdel-license/src/store.rs:263-274 | a longer list of revoked licences never raises the edition |
| `Store.LicenseStore.WriteActivation` | crates/cursdel-license/src/store.rs:238-256 | fails exactly when there is no such scope or a file operation fails, having written at most the credentials; the credentials go first: stopped anywhere, no certificate is without credentials |
| `Store.LicenseStore.RemoveActivation` | crates/cursdel-license/src/store.rs:258-261 | fails exactly when there is no such scope or a file operation fails, having removed at most the certificate; the credentials go last: stopped anywhere, no certificate is without credentials |
| `Store.LicenseStore.RecordRevocation` | crates/cursdel-license/src/store.rs:276-283 | the licence is listed afterwards, unless there is no such scope or the write fails, and then nothing has changed |
| `Store.LicenseStore.ClearRevocation` | crates/cursdel-license/src/store.rs:286-296 | the licence is not listed in that scope afterwards and all others are as before, unless the write fails, and then nothing has changed |
| `Store.ActivationReadsBack` | crates/cursdel-license/src/store.rs:238-261 | after an activation its certificate and credentials are read back, after its removal none are, and everything else on disk is the same |
| `Store.RevocationReadsBack` | crates/cursdel-license/src/store.rs:263-296 | recording adds one id and clearing removes it, and everything else on disk is the same |
| `LicenseCommands.Install` | crates/cursdel-cli/src/license_cmd.rs:280-329 | only an accepted licence is installed, only on Success; any other exit code leaves the disk as it was |
| `LicenseCommands.Activate` | crates/cursdel-cli/src/license_cmd.rs:348-437 | LicenseRequired exactly when the server or the validation of its answer refuses, changing nothing; UnexpectedFatal only when the scope is missing or a file operation fails; Success, in every other case, leaves exactly the granted licence, certificate and credentials on disk and puts the edition into effect; the licence file changes only on Success |
| `LicenseCommands.ActivationTakesEffect` | crates/cursdel-cli/src/license_cmd.rs:375-436 | after a successful activation resolution gives at least the granted edition, unless the licence is still listed as revoked |
| `LicenseCommands.Deactivate` | crates/cursdel-cli/src/license_cmd.rs:452-508 | an activation that was found is removed, with Success, exactly when the server released it, revoked it or no longer knows it and no file operation fails; LicenseRequired exactly when the server did none of these; licences are never touched |
| `LicenseCommands.RenewableIff` | crates/cursdel-cli/src/license_cmd.rs:513-528 | there is something to renew exactly when a readable licence in the scope is recognised, and a licence still valid is preferred |
| `LicenseCommands.RenewsTheFirst` | crates/cursdel-cli/src/license_cmd.rs:513-528 | what is renewed is the first readable licence that is good now, or if there is none the first that is recognised |
| `LicenseCommands.Renew` | crates/cursdel-cli/src/license_cmd.rs:530-642 | a refused renewal is LicenseRequired and changes nothing; otherwise a grant is installed, a reported revocation recorded or an inactive activation removed, unless the scope is missing or a file operation fails, which is UnexpectedFatal; the licence file changes only on Success |
| `LicenseCommands.Run` | crates/cursdel-cli/src/license_cmd.rs:280-642 | over any run of commands, any answers, any failing file operation and any interruption, no certificate is without credentials and every installed licence is the first one or recognised for ever; a licence changes only during a command that ends with Success, and only to one accepted at the time of that command |
| `Adaptive.AdaptiveController.OnSample` | crates/cursdel-core/src/adaptive.rs:112-160 | the new fields and the decision are those of the specification, the bounds are kept, and the decision is the change that was made |
| `Adaptive.GainMovesOn` | crates/cursdel-core/src/adaptive.rs:136-155 | a gain of at least 5 % moves on in the same direction, with a step half as large again within the limit |
| `Adaptive.LossTurnsBack` | crates/cursdel-core/src/adaptive.rs:136-155 | a loss of at least 5 % turns the direction round, with half the step, and the count moves that way as far as its bounds allow |
| `Adaptive.NeitherHolds` | crates/cursdel-core/src/adaptive.rs:176-195 | anything between holds, but the sixth time probes by at most two, in the direction whose turn it is |
| `Adaptive.OtherSamples` | crates/cursdel-core/src/adaptive.rs:112-134 | a window without completions changes nothing, one with too many errors shrinks, and the first one with completions grows |
| `Adaptive.FlatStretch` | crates/cursdel-core/src/adaptive.rs:176-195 | over any stretch of windows within 5 % of each other five hold and the sixth probes, and the probes go up and down in turn |
| `Adaptive.After` | crates/cursdel-core/src/adaptive.rs:88-221 | after any samples the controller is still within its bounds of workers, step and holds, and the bounds are the ones it was made with |
| `Adaptive.ReachesTheTop` | crates/cursdel-core/src/adaptive.rs:112-174 | a fresh controller whose every increase gains at least 5 % reaches its maximum within seven samples |
| `Adaptive.ReachesTheBottom` | crates/cursdel-core/src/adaptive.rs:120-122 | under more than 15 % errors it reaches its minimum in exactly the distance over the step, rounded up, samples |

## Left out

- EveryRunEnds: needs room for every directory in the ready channel. Directory workers both read and fill that channel,
  so with more than `DIR_CHANNEL_CAP` directories nothing is claimed.
- RunCore: `run_single_object`, which handles a target that is not a directory without any concurrency, is not modelled.
- StreamTree: the tree does not change while it is walked, and sending never fails, since the coordinator receives until
  the enumerator has finished; a node stands in for what lies at its path.
- RehearsalOfTree: every directory can be listed. Where one cannot, what is in it is not in the stream, and nothing is
  claimed about the answers of the engine.
- RunsPrune: names of entries are positions in the stream and the file system is the set of entries still there; paths
  come back in `Prune.DeletionIsPrune`.
- NoWakeupIsLost: fairness of the condition variable, and so that a given waiter is served eventually.
- OnSample: throughput and error rate are exact rationals instead of floating point, and worker counts do not overflow.
- PrintedFormReadsBack: strings are sequences of characters, so the byte indexing of `strip_prefix_ci` is not modelled.
- Activate: client secrets, device identifiers and the server's answers are arguments; messages to the user are left out.
- WriteActivation: a write that fails leaves the file as it was; the temporary file it may leave behind is never read.
- The filters' glob matching, cryptography, base64url, JSON and timestamps are functions nothing is known about.
- Target validation against the real file system: canonicalisation, symbolic links, metadata.
- The platform engines: delete calls, permission repair, lock detection and the native listings.
- The window sampler's atomic swaps, wall-clock time and polling intervals.
- Status output, reports as text and JSON, argument parsing, size and age notation, progress and tracing.
