# Axrun: caller-side protocols and their guarantees

Axrun drives evaluation episodes from a caller process. The Runs it creates live in Axern and outlive
it, so its guarantees are about locked records, remote calls that may lose their answers, and processes
that may die between any two of them. This project models that part of the repository and proves what
it keeps over every run.

## How the model is built

- **Records.** Each critical section of a lock is a function from the persisted record to the record it
  leaves and the exception it raises. The same section is written a second time as an imperative method
  of a class (`EpisodeRunner`, `EpisodeStore`, `ExecutionStore`, `PreparationService`) that assigns
  fields as the source does, and is proved to leave exactly what the function says. The properties are
  then proved about the functions.
- **Protocols.** A protocol is a step system: one step is one critical section or one remote call.
  `Trace` applies any sequence of steps, so a theorem about every trace covers every interleaving, every
  lost answer and every crash. A step that is not enabled changes nothing.
- **Remotes.** Axern and Kova are steps of the system or arguments. A call that may lose its answer has
  one argument for whether it took effect and one for whether it was answered.
- **Digests.** SHA-256 over canonical JSON is taken as injective: a digest is identified with what was
  digested (`Digest<T>`). Content-addressed files are maps from digests to contents, and every read still
  compares the digest, so a replaced file is an input of the model.
- **Locks and files.** `flock` is a mutex, and an atomic write is one step.

### Files

| file | what it models |
|---|---|
| `models.dfy`, `strings.dfy`, `posix_paths.dfy` | contracts, Python string order, POSIX paths |
| `episode_records.dfy`, `episode_runner.dfy`, `episode_store.dfy` | the episode record, its sections, its files |
| `episode_protocol.dfy`, `episode_safety.dfy`, `episode_completion.dfy`, `episode_phases.dfy` | any number of callers of one episode |
| `episode_recovery.dfy`, `episode_lost.dfy`, `episode_failures.dfy`, `episode_cleanup.dfy` | what later callers, exceptions and cancels make of an episode |
| `multirun_store.dfy`, `multirun_protocol.dfy`, `multirun_safety.dfy`, `multirun_completion.dfy`, `multirun_restart.dfy`, `multirun_cancel.dfy` | one multi-Run verification, restarted and cancelled |
| `multirun_verdicts.dfy`, `multirun_breaks.dfy`, `multirun_order.dfy`, `multirun_cleanup.dfy` | what it publishes, how it breaks, the order of its branches, and that it leaves no Run behind |
| `scorer.dfy`, `scorer_laws.dfy`, `scorer_details.dfy` | the caller-side scorer |
| `preparation.dfy`, `preparation_service.dfy`, `preparation_protocol.dfy`, `preparation_laws.dfy` | Environment preparation |
| `qualification.dfy`, `qualification_safety.dfy`, `qualification_completion.dfy` | racing qualifiers and the evidence file |
| `candidates.dfy`, `candidate_laws.dfy`, `reports.dfy`, `report_laws.dfy` | CandidateBundles, recovery and independent verification of records |
| `archive.dfy`, `archive_laws.dfy`, `archive_round_trip.dfy`, `archive_modes.dfy`, `archive_extraction.dfy` | workspace archives |
| `backend.dfy`, `lifecycle.dfy` | stage execution cleanup, output capture, lifecycle resources |

### Steps and the source they stand for

Episode protocol (`EpisodeProtocol`): `StartRun` src/axrun/runner.py:62-71; `CreateRun`, `WaitRunning`,
`WriteMarker`, `CancelUnreleased` src/axrun/axern_backend.py:166-214; `Bind`, `CancelRejected`
src/axrun/runner.py:236-256; `WaitRun` src/axrun/axern_backend.py:215-241; `RejectStage`
src/axrun/runner.py:279-303 and 427-437; `CommitCandidate` src/axrun/runner.py:304-320; `BeginVerification`
src/axrun/runner.py:325-330; `Finish` src/axrun/runner.py:438-472; `HandleFailure` src/axrun/runner.py:86-88
and 474-497; `StartRecovery`, `LoadCandidate`, `ReadRun` src/axrun/runner.py:90-149 and
src/axrun/axern_backend.py:243-289; `BeginCancel`, `QueryRun`, `AskCancel`, `EndCancel`
src/axrun/runner.py:181-231 and src/axrun/axern_backend.py:335-338; `OtherWriter` the sections of
src/axrun/qualification.py and src/axrun/lifecycle/stage_progress.py.

Multi-Run verification (`MultiRunProtocol`, src/axrun/adapters/programbench_official.py): `Open` 83-116;
`Decide` 320-331, 407-415 and 481-483; `RequireLive` 160-168; `Bind` 333-336 and 419-426; `Settle`
348-376 and 442-479; `Drop` 377-379; `CheckCompiled` 380-405; `FinishFailure` 527-571; `Sum` 484-490;
`Delete`, `SaveDeleted` 491-494, 446-452, 470-472 and 772-783; `BeginCancel`, `AskCancel`, `EndAsking`,
`Clean` 256-290. A Run is created, followed or recovered as src/axrun/verification/multirun.py:25-73 does,
and cancelled as its lines 75-87 do.

Preparation (`PreparationProtocol`, src/axrun/preparation/service.py): `BeginResolve`, `LookUp` 193-208;
`MarkFailed` 202-205; `MarkCreating`, `Create` 209-224; `RecordFailure` 283-296; `Accept` 225-238;
`OtherTurn` 91-191 and 240-278.

Qualification (`Qualification`, src/axrun/qualification.py): `Begin` 89-94; `Check` 103-109; `Bind`, `Rebind`
111-134 and 146; `Recover` 141-145; `Judge` 147-177; `Persist` 382-397; `Commit` 180-189.

### Where the code differs from its documentation

- docs/contracts/environment-preparation.md:25-27 describes an ambiguous record as one that resumes by
  replaying the persisted request. In the code a retryable, unambiguous failure met while retrying (for
  instance a lost connection when the Kova version is asked for) keeps the state `ambiguous` but clears
  `ambiguous_operation`, and no later resume can move that record. `Preparation.RetryStrandsIff` gives the
  exact condition, `Preparation.VersionErrorStrands` the case, and `Preparation.ResumableIff` all records
  that a resume can still finish.
- A scorer entry is meant for every (branch, test) pair, but the mapping is keyed by the joined name, so
  two pairs may collide; the branch visited last then decides. Distinct joined names are the exact condition
  for one entry per pair, for a complete listing, for counters that count every pair, and for details that do
  not depend on the order of the branches (`ScorerLaws.EntryPerPairIff`, `AllListedIff`, `CountersIff`,
  `OrderIndependentIff`). `ScorerLaws.BranchNamesIff` says which branch names guarantee it, and branch names
  without a slash do (`ScorerLaws.SlashFreeDistinct`). All locked branch names are slash-free
  (src/axrun/datasets/programbench_official.py:98-125), and a case with any other branch set is refused
  (src/axrun/adapters/programbench_official.py:811), so `ScorerLaws.SlashLosesAnEntry` lies outside them.
- Archive names are meant to be sequences of proper components; the single name "." is accepted as well
  (`PosixPaths.ValidNameIff`).
- docs/architecture.md:39-44 draws arrows to `failed` only from the running phases and to `cancelled` only
  from running or candidate_ready. The code also cancels a new episode (src/axrun/runner.py:184-231) and
  fails a candidate_ready one, for instance when its bundle does not load (src/axrun/runner.py:109-114).
  `EpisodeRecords.DrawnIff` and `EpisodePhases.StepDrawnIff` give the exact condition for a section and for
  a step of any run, and `EpisodePhases.NewIsCancelled` and `EpisodePhases.ReadyFails` reach both cases.
- A completed record satisfies recovery but not independent verification unless it was qualified, which
  `run` itself does not require of every task (`Reports.VerifyIff`; `Reports.UnqualifiedIsRefused` has the
  reachable records).

## Model

| member | source | states |
|---|---|---|
| `EpisodeRunners.EpisodeRunner.Start` | src/axrun/runner.py:62-71 | The section of `run` moves exactly a new record to inference_running; any other unfinished record is refused and left as it is. |
| `EpisodeRunners.EpisodeRunner.Bind` | src/axrun/runner.py:236-256 | A binding is saved only in its stage's running phase, in the resolved Environment, for a fresh verification Run and an unchanged identity; it asks for cancellation exactly if the record is cancelled. |
| `EpisodeRunners.EpisodeRunner.FailStage` | src/axrun/runner.py:279-303 | A failed stage ends the episode only for the persisted execution of the running stage, and keeps that execution. |
| `EpisodeRunners.EpisodeRunner.CommitCandidate` | src/axrun/runner.py:304-319 | The candidate and the terminal execution are published together, and only for the persisted inference Run. |
| `EpisodeRunners.EpisodeRunner.StartVerification` | src/axrun/runner.py:325-330 | Exactly a candidate_ready record starts verification, so of two racing starters one is refused. |
| `EpisodeRunners.EpisodeRunner.Finish` | src/axrun/runner.py:438-472 | Terminal publication checks execution, candidate and verifier, stores the result under its digest before the record names it, and stores nothing when it refuses. |
| `EpisodeRunners.EpisodeRunner.RecordFailure` | src/axrun/runner.py:474-497 | An exception ends an unfinished episode exactly when it is a contract error or leaves no Run to recover, a diagnosed one only for the progress observer; both stage executions stay. |
| `EpisodeRunners.EpisodeRunner.Cancel` | src/axrun/runner.py:184-231 | Cancellation ends exactly the records that have not ended. |
| `EpisodeRunners.EpisodeRunner.BindQualification` | src/axrun/qualification.py:111-134 | A slot accepts its first Run or the same Run with its allocation filled in, only while the episode is new. |
| `EpisodeRunners.EpisodeRunner.CommitQualification` | src/axrun/qualification.py:180-189 | The first evidence is committed, and later ones leave the record alone. |
| `EpisodeRunners.EpisodeRunner.PublishProgress` | src/axrun/lifecycle/stage_progress.py:215-227 | Progress is recorded only for the bound inference Run while inference runs. |
| `EpisodeRunners.MergeExecution` | src/axrun/runner.py:578-585 | An execution is replaced exactly if Run and Environment are unchanged and a known allocation stays. |
| `EpisodeRecords.SectionLawful` | src/axrun/runner.py:236-497 | Every section of every writer keeps the phase or takes the next one, fails or cancels an unfinished episode, and keeps the identity promises of the record. |
| `EpisodeRecords.DrawnIff` | docs/architecture.md:39-44 | A section keeps to the documented diagram exactly unless it cancels a new episode, or records an exception that ends a new or candidate_ready one. |
| `EpisodeRecords.HistoryAdvances` | src/axrun/runner.py:236-497 | Over any sections of any writers: phases only advance or end, each stage's Environment and Run are fixed once set, an allocation is filled in once, and a committed candidate, trajectory, termination reason, progress and evidence stay. |
| `EpisodeRecords.TerminalAbsorbs` | src/axrun/runner.py:184-231 | A completed, failed or cancelled record never changes again in any field, whatever the runner, qualification and progress writers attempt. |
| `EpisodeRecords.ReachableSound` | src/axrun/runner.py:499-525 | In every reachable record each bound Environment is the resolved one, verification uses a fresh Run, and a completed record carries a result for its own candidate and verifier. |
| `EpisodeRecords.HistoryMonotone` | src/axrun/runner.py:236-497 | Between any two instants of one history the later record keeps every promise made by the earlier one. |
| `EpisodeStores.EpisodeStore.InitializeEpisode` | src/axrun/store.py:37-57 | The specification is written before its record, and a persisted or orphaned one is never replaced by another. |
| `EpisodeStores.EpisodeStore.LoadResult` | src/axrun/store.py:125-129 | A result is returned exactly if the stored content has the recorded digest. |
| `EpisodeStores.SpecificationStays` | src/axrun/store.py:37-57 | Over any initializations, crashes between the two writes and saves, the first specification stays and its record belongs to it. |
| `EpisodeStores.AcceptedIff` | src/axrun/store.py:37-104 | An episode is accepted exactly if it is the persisted one, crash or not, and then loads as the specification. |
| `EpisodeSafety.OneExecutionPerStage` | src/axrun/runner.py:62-83 | Over any number of callers, recoveries, lost answers and crashes, a stage is executed at most once and has at most one Run. |
| `EpisodeSafety.ReleasedIsPersisted` | src/axrun/axern_backend.py:166-192 | A released Run is persisted with its allocation, in the resolved Environment, and the record still names it. |
| `EpisodeSafety.PersistedWhileLive` | src/axrun/runner.py:236-253 | Every persisted identity was saved at an instant when the record was running that stage and held exactly this identity. |
| `EpisodeSafety.CancelledIsStopped` | src/axrun/runner.py:181-231 | Once the record is cancelled, every bound Run and every released Run has ended or has been asked to stop. |
| `EpisodeSafety.CandidateFromReleasedRun` | src/axrun/runner.py:258-320 | A committed candidate comes from a Run that was persisted, released and exited with status 0. |
| `EpisodeSafety.StepAdvances` | src/axrun/runner.py:51-256 | No step of any caller changes the record except by one lawful section. |
| `EpisodeSafety.TraceAdvances` | src/axrun/runner.py:51-256 | The record promises hold between any two instants of any run of the system. |
| `EpisodeSafety.EndedStaysEnded` | src/axrun/runner.py:184-256 | After the episode has ended, nothing more is persisted and the record is frozen; a Run released then or later had been persisted before the end. |
| `EpisodeSafety.TraceIsHistory` | src/axrun/runner.py:51-256 | Whatever the callers do, the record on disk goes through a history of the sections above and nothing else. |
| `EpisodeCompletion.UndisturbedCompletes` | src/axrun/runner.py:51-88 | One undisturbed caller completes the episode with any verdict on any candidate, so the theorems about completed records are not empty. |
| `EpisodeRecovery.InferenceRecovers` | src/axrun/runner.py:90-149 | From every reachable state: an inference Run that outlived its callers and exited with 0 is committed by any caller that recovers the episode, without starting or creating anything, and the record then names the whole execution. |
| `EpisodeRecovery.ReadyRecovers` | src/axrun/runner.py:109-149 | A committed candidate is handed to verification by any caller that recovers the episode. |
| `EpisodeRecovery.VerificationRecovers` | src/axrun/runner.py:102-149 | From every reachable state: a verification Run that outlived its callers is published by any caller that recovers the episode, with a verdict that fits. |
| `EpisodeLost.InferenceRecoversIff` | src/axrun/runner.py:90-149 | When all callers of a running inference are gone, candidate_ready can be reached exactly if the Run is on record and has succeeded, or was released and still runs; otherwise no steps whatever reach it. |
| `EpisodeLost.VerificationRecoversIff` | src/axrun/runner.py:90-149 | When all callers of a running verification are gone, completion can be reached exactly if its Run is on record. |
| `EpisodeFailures.FailedInferenceIsRecorded` | src/axrun/runner.py:279-303 | An inference Run that failed ends the episode whoever recovers it, with its diagnosis and its whole execution. |
| `EpisodeFailures.UnreadableVerdictIsRecorded` | src/axrun/runner.py:427-437 | A verification output that cannot be read ends the episode and keeps the candidate. |
| `EpisodeFailures.UnusableBundleIsRecorded` | src/axrun/runner.py:109-114 | A recovery that finds its bundle unusable ends the episode. |
| `EpisodeFailures.ThrownIsRecorded` | src/axrun/runner.py:474-497 | An exception of a caller whose Run is released, or not created, is recorded by its kind, and no Run is touched. |
| `EpisodeFailures.ThrownBeforeReleaseIsRecorded` | src/axrun/axern_backend.py:193-214 | Before the release the Run is asked to stop first, and the worst of exception, failed close and failed cancel is recorded. |
| `EpisodeCleanup.CancelReaches` | src/axrun/runner.py:181-231 | Every unfinished reachable episode is cancelled by a caller whose control calls are answered, and the Run of its running stage has ended or been asked to stop. |
| `EpisodeCleanup.NoRunIsLeftBehind` | src/axrun/axern_backend.py:166-214 | Over any interleaving, refusal and exception: unless a caller died or an answer about the Run was lost, every created Run is released, was asked to stop, or is attended by its creator. |
| `EpisodeCleanup.RefusedBindStops` | src/axrun/runner.py:236-256 | A Run that is bound after the phase has moved on is asked to stop by its caller, and nothing is recorded. |
| `EpisodePhases.StepDrawnIff` | docs/architecture.md:39-44 | In every run of any number of callers, a step leaves the documented diagram exactly when a caller accepts the cancellation of a new episode, or records an ending exception of a candidate_ready one. |
| `EpisodePhases.NewIsCancelled` | src/axrun/runner.py:184-231 | An episode that never started is cancelled in some run. |
| `EpisodePhases.ReadyFails` | src/axrun/runner.py:109-114 | A crash after any committed candidate, and a recovery whose bundle does not load, fail a candidate_ready episode. |
| `MultiRunStore.ExecutionStore.Initialize` | src/axrun/adapters/programbench_official.py:83-116 | A verification is opened once, for the same branches, and never after it was cancelled. |
| `MultiRunStore.ExecutionStore.SaveLive` | src/axrun/adapters/programbench_official.py:147-158 | A save lands exactly while no cancel has been accepted. |
| `MultiRunStore.ExecutionStore.ClaimCompile` | src/axrun/adapters/programbench_official.py:182-199 | The compile step is claimed unless a Run may already exist unrecorded. |
| `MultiRunStore.ExecutionStore.ClaimBranch` | src/axrun/adapters/programbench_official.py:201-218 | A branch step is claimed unless a Run may already exist unrecorded, and a completed one is left alone. |
| `MultiRunStore.CancelRuns` | src/axrun/verification/multirun.py:75-87 | Every distinct Run is asked to stop exactly once, and a failure is reported exactly if some Run could not be. |
| `MultiRunStore.ExecutionStore.Cancel` | src/axrun/adapters/programbench_official.py:256-290 | A cancel asks exactly the running recorded Runs, and leaves the record cancelled, or cancelling if a Run or the Environment could not be ended. |
| `MultiRunCancel.CancelIsItsSteps` | src/axrun/adapters/programbench_official.py:256-290 | That cancel is what the protocol's cancel steps amount to when nothing comes between them. |
| `MultiRunSafety.OneRunPerStep` | src/axrun/adapters/programbench_official.py:182-218 | Over any crashes, restarts and cancels, the compile Run and each branch Run are created at most once, the latter from the derived Environment. |
| `MultiRunSafety.CompletedPublishesExpected` | src/axrun/adapters/programbench_official.py:481-494 | Every execution that completes publishes the details that the sealed outputs alone determine, and has deleted its derived Environment. |
| `MultiRunSafety.SameDigest` | src/axrun/adapters/programbench_official.py:481-494 | Two executions over the same sealed outputs publish the same digest, however often either crashed. |
| `MultiRunCompletion.UndisturbedCompletes` | src/axrun/adapters/programbench_official.py:292-495 | The crash-free execution completes and publishes that same digest. |
| `MultiRunCompletion.RestartCompletes` | src/axrun/adapters/programbench_official.py:292-495 | After any number of crashes anywhere, a restarted verifier completes a healthy verification, unless a Run of some step was left unrecorded, unreleased or killed. |
| `MultiRunRestart.RestartIff` | src/axrun/adapters/programbench_official.py:292-495 | With no verifier alive and the lock free, some continuation of a healthy verification completes exactly if it is neither cancelled nor broken and no Run of a claimed step was left unrecorded, unreleased or killed: no later crash, restart or cancel repairs any of these. |
| `MultiRunCompletion.FailureCompletes` | src/axrun/adapters/programbench_official.py:527-571 | A submission that does not compile has a crash-free execution that completes. |
| `MultiRunCompletion.CompletesIff` | src/axrun/adapters/programbench_official.py:292-494 | Some execution completes exactly if the submission fails to compile or every Run ends well with an acceptable report; no crash, restart or cancel lets another verification complete. |
| `MultiRunSafety.CancelWins` | src/axrun/adapters/programbench_official.py:147-218 | Once a cancel is accepted or the marker is stored, no verifier write and no claim lands: steps, executable and details stay as they were. |
| `MultiRunSafety.ReleasedIsRecorded` | src/axrun/adapters/programbench_official.py:333-336 | A released Run is on record with its allocation, so a cancel finds it. |
| `MultiRunSafety.CancelledIsStopped` | src/axrun/adapters/programbench_official.py:256-290 | When verification is cancelled, every released Run has ended or has been asked to stop, and the derived Environment is deleted. |
| `MultiRunSafety.EnvironmentsAccounted` | src/axrun/adapters/programbench_official.py:446-494 | Once verification is cancelled, completed, or failed with its cleanup done, and no verifier holds a result, every received derived Environment is deleted, or was lost in a crash or a failed deletion. |
| `MultiRunSafety.EnvironmentsDeleted` | src/axrun/adapters/programbench_official.py:772-783 | Without a crash or a failed deletion, at each of these three ends every derived Environment that the verifier received has been deleted by it or by a cancel. |
| `MultiRunSafety.FailureCounts` | src/axrun/adapters/programbench_official.py:527-571 | A submission that does not compile lists every expected test as not run, and the counters agree. |
| `MultiRunVerdicts.FailurePublished` | src/axrun/adapters/programbench_official.py:527-571 | Every completed record of a submission that does not compile says so with the reason of its exit status, nothing passed or failed, every expected test not run, score 0.0 and not resolved. |
| `MultiRunVerdicts.ScorePublished` | src/axrun/adapters/programbench_official.py:853-926 | Every other completed record publishes the share of the deciding pairs of the sealed reports that passed, and is resolved exactly if there are some and all passed. |
| `MultiRunVerdicts.SealedIsRecorded` | src/axrun/adapters/programbench_official.py:455-479 | In every reachable state a branch that is done holds the digest and the reason of what its own Run sealed. |
| `MultiRunOrder.OneBranchAtATime` | src/axrun/adapters/programbench_official.py:409-479 | Over any crashes, restarts and cancels a branch is begun only after all branches before it are done; a broken record is cleaning up or has done so, and a completed one has nothing left to clean. |
| `MultiRunBreaks.BadBranchBreaks` | src/axrun/adapters/programbench_official.py:442-479 | A submission that compiles and has a branch that ends badly leads to a broken record with its Environment deleted, and never to a completed one. |
| `MultiRunBreaks.UnreadableCompileBreaks` | src/axrun/adapters/programbench_official.py:380-399 | A compile result that cannot be read leads to a broken record with its Environment deleted, and never to a completed one. |
| `MultiRunBreaks.BrokenIsCleaned` | src/axrun/adapters/programbench_official.py:320-327 | From every reachable broken state whose deletion failed or was interrupted, the next start deletes the Environment and changes nothing else. |
| `MultiRunBreaks.EarlyCancelWins` | src/axrun/adapters/programbench_official.py:256-290 | A cancel that comes before the first start wins for good: over any steps nothing is recorded or run. |
| `MultiRunCleanup.NoRunIsLeftBehind` | src/axrun/verification/multirun.py:25-73 | Unless the verifier died or an answer about the Run was lost, every created Run is released, was asked to stop, or is attended by the verifier. |
| `MultiRunCleanup.RefusedBindStops` | src/axrun/adapters/programbench_official.py:333-336 | Once cancellation is accepted, a verifier that binds a Run stops this Run, saves nothing and ends. |
| `MultiRunCleanup.RefusedCompileDrops` | src/axrun/adapters/programbench_official.py:373-379 | Once cancellation is accepted, a verifier whose compile Run succeeds deletes the Environment, saves nothing and ends. |
| `Scorer.Aggregate` | src/axrun/adapters/programbench_official.py:853-926 | Aggregation succeeds exactly if every branch is completed, its stored file has the recorded digest and is well formed; the first branch that is not decides the error, and otherwise the merged mapping is published. |
| `ScorerLaws.MergeKeys` | src/axrun/adapters/programbench_official.py:857-903 | The mapping holds exactly the joined names of active tests and of observations that are not ignored. |
| `ScorerLaws.KeyDescribes` | src/axrun/adapters/programbench_official.py:877-898 | On every input an entry is that of the last visited branch that knows its joined name, and carries the last observation of that test, or not_run. |
| `ScorerLaws.DecidingIff` | src/axrun/adapters/programbench_official.py:857-903 | Every scored (branch, test) pair decides its own entry exactly if no two pairs share a joined name. |
| `ScorerLaws.EntryPerPairIff` | src/axrun/adapters/programbench_official.py:857-903 | There is one entry per (branch, test) pair exactly if no two pairs share a joined name. |
| `ScorerLaws.BranchNamesIff` | src/axrun/adapters/programbench_official.py:887-891 | A set of branch names keeps joined names distinct for all tests and results exactly if no branch name extends another one by a slash. |
| `ScorerLaws.SlashFreeDistinct` | src/axrun/datasets/programbench_official.py:98-125 | Branch names without a slash, as the locked cases have, never let two pairs share a joined name. |
| `ScorerLaws.SlashLosesAnEntry` | src/axrun/adapters/programbench_official.py:887-891 | Two branches, outside the locked cases, whose pairs collide: one entry is lost, and the branch visited last decides which. |
| `ScorerLaws.CountersCount` | src/axrun/adapters/programbench_official.py:904-908 | On every input passed, failed and not_run count the deciding pairs of each kind, and add up to the listed entries. |
| `ScorerLaws.CountersIff` | src/axrun/adapters/programbench_official.py:904-908 | The counters count every scored pair by its final status exactly if no two pairs share a joined name. |
| `ScorerLaws.ListingSound` | src/axrun/adapters/programbench_official.py:904 | Every listed entry is a deciding pair with its final status, and the entries stand in strict key order. |
| `ScorerLaws.ListedIff` | src/axrun/adapters/programbench_official.py:904 | A scored pair is listed with its final status exactly if it decides. |
| `ScorerLaws.AllListedIff` | src/axrun/adapters/programbench_official.py:904 | Every scored pair is listed with its final status exactly if no two pairs share a joined name. |
| `ScorerLaws.ResolvedIff` | src/axrun/adapters/programbench_official.py:908-925 | On every input an instance is resolved exactly if something was scored and every deciding pair passed. |
| `ScorerLaws.OrderIndependentIff` | src/axrun/adapters/programbench_official.py:853-926 | Visiting the branches in any order publishes the same details, and so the same digest, exactly if no two scored pairs share a joined name. |
| `ScorerDetails.ScoreIs` | src/axrun/adapters/programbench_official.py:907 | On every input the score is the share of the deciding pairs that passed, and 0.0 if nothing is scored. |
| `ScorerDetails.BranchFields` | src/axrun/adapters/programbench_official.py:862-925 | On every input the branch errors are those of the branches that ended in one, with their reasons. |
| `ScorerDetails.DenominatorsCount` | src/axrun/adapters/programbench_official.py:868-925 | For different branches the two denominators count the places of the active tests and the ignored pairs. |
| `PreparationServices.PreparationService.Initialize` | src/axrun/preparation/store.py:27-50 | A preparation is opened once for one request, also after a crash between its two files. |
| `PreparationServices.PreparationService.SubmitBuild` | src/axrun/preparation/service.py:91-114 | A build identity is accepted only if it matches the request; every failure is recorded. |
| `PreparationServices.PreparationService.AwaitBuild` | src/axrun/preparation/service.py:116-191 | A build ends in a failed, a cancelled or a succeeded record with the matching receipt. |
| `PreparationServices.PreparationService.FindOrCreateEnvironment` | src/axrun/preparation/service.py:193-238 | An Environment is created only if none carries the request digest; a mismatch is terminal. |
| `PreparationServices.PreparationService.ConfirmEnvironment` | src/axrun/preparation/service.py:240-278 | The ready receipt repeats the facts that Axern confirms. |
| `PreparationServices.PreparationService.Resume` | src/axrun/preparation/service.py:51-89 | The loop terminates for all answers of the remotes, and does what its turns do one after another. |
| `Preparation.ResumableIff` | src/axrun/preparation/service.py:51-89 | Which records one resume can carry to a ready receipt under some answers of the remotes; every other record is left as it is by every resume, whatever they answer. |
| `Preparation.RetryStrandsIff` | src/axrun/preparation/service.py:283-296 | After a failure met while retrying an ambiguous operation, a later resume can still reach ready exactly if that failure is ambiguous for a known operation (and the seed is recorded where it is needed); it is final, or strands the record for good, otherwise. |
| `Preparation.VersionErrorStrands` | src/axrun/preparation/service.py:91-101 | After a build submission whose answer was lost, a lost connection while asking for the Kova version strands a record that could still have been resumed, whatever else the remotes answer then and later. |
| `PreparationLaws.SubmitTurn` | src/axrun/preparation/service.py:91-114 | Answer by answer, what a build submission leaves on record. |
| `PreparationLaws.EndedTurn` | src/axrun/preparation/service.py:143-147 | A matching build that ends without success ends the preparation, as cancelled exactly if the build was cancelled and as failed otherwise, with a receipt of that build and status. |
| `PreparationLaws.SucceededTurn` | src/axrun/preparation/service.py:148-191 | A build that succeeds gives a receipt of its one output exactly if its results fit the request. |
| `PreparationLaws.UnfinishedTurn` | src/axrun/preparation/service.py:116-142 | A build that belongs to another request is rejected, and a lost or late answer is recorded by its kind. |
| `PreparationLaws.ResolveTurn` | src/axrun/preparation/service.py:193-238 | Answer by answer, what the resolution of an Environment leaves on record. |
| `PreparationLaws.ConfirmTurn` | src/axrun/preparation/service.py:240-278 | The ready receipt is exactly the request, the seed and the confirmed Environment. |
| `PreparationLaws.EndIsReported` | src/axrun/preparation/service.py:143-147 | Over all traces a record is cancelled exactly if its seed receipt is of a cancelled build, and failed if that build ended in any other way but success. |
| `PreparationLaws.ImmutableRefIff` | src/axrun/preparation/service.py:148-191 | Exactly the references without a scheme that are a nonempty name without "@", an "@" and the digest are accepted. |
| `PreparationProtocol.ResolutionIsOneTurn` | src/axrun/preparation/service.py:193-238 | Without a crash, the single steps of environment resolution amount to one turn of the loop. |
| `PreparationProtocol.AtMostOneEnvironment` | src/axrun/preparation/service.py:193-238 | Over any crashes, lost create answers and resumes, at most one Environment carries the request digest, and the multiple_environments failure is never reached. |
| `PreparationProtocol.ReadyIsTraceable` | src/axrun/preparation/service.py:240-278 | A ready receipt names the recorded seed receipt and the only Environment of the request, with the image and manifest of the single output of the Kova build that the seed receipt names, which built the request's source. |
| `QualificationSafety.OneReleasedPerRole` | src/axrun/qualification.py:111-146 | However many qualifiers race, crash and restart, at most one Run per role is ever released. |
| `QualificationSafety.SlotsFollowRoles` | src/axrun/qualification.py:96-134 | Slot i always carries the Environment of role i, and a released Run stands in its slot with its allocation. |
| `QualificationSafety.EvidenceNeverConflicts` | src/axrun/qualification.py:382-397 | Racing qualifiers that get as far as writing evidence write the same evidence, so the write is never refused. |
| `QualificationSafety.CommittedLoads` | src/axrun/qualification.py:400-471 | A committed result is always accepted when it is loaded again, and no other file is. |
| `QualificationCompletion.QualifierCompletes` | src/axrun/qualification.py:96-189 | From every reachable open record a new qualifier can complete the qualification if every taken slot has a released Run that may still succeed or has done so acceptably; these Runs are used again, one Run is created for each free slot, and the evidence names them and loads. |
| `QualificationCompletion.QualifiableIff` | src/axrun/qualification.py:96-189 | Once no qualifier is at work, evidence can be reached exactly if every taken slot has such a Run; otherwise no qualifiers, crashes or other writers ever lead to it. |
| `QualificationCompletion.ClosedIsLeftAlone` | src/axrun/qualification.py:89-94 | For an episode that has started or is qualified, over any qualifier steps no Run is created and the record stays. |
| `Candidates.BundlePathsDiffer` | src/axrun/adapters/_candidate.py:41 | Two outputs are never copied to the same place of a bundle, even if they share a name. |
| `Candidates.BundleStore.PersistCandidate` | src/axrun/adapters/_candidate.py:34-101 | A bundle is published with verified copies under its digest, or the existing one of that digest is checked and returned. |
| `Candidates.LoadCandidate` | src/axrun/adapters/_candidate.py:104-124 | A bundle loads exactly if the manifest has its digest and every listed file has its size and digest. |
| `Candidates.PersistLoads` | src/axrun/adapters/_candidate.py:61-124 | The published directory loads as the returned bundle, with the provenance of the episode and Run, and no other bundle changes. |
| `Candidates.PersistAgain` | src/axrun/adapters/_candidate.py:92-97 | Persisting again after a crash returns the same bundle and changes nothing, as docs/architecture.md promises. |
| `Candidates.BundleHoldsOutputs` | src/axrun/adapters/_candidate.py:38-61 | For every required role the bundle holds the bytes that the Run sealed under its path. |
| `Candidates.LoadedHoldsOutputs` | src/axrun/adapters/_candidate.py:104-124 | Tampering is refused: whatever directory loads under the digest of a persisted bundle holds the bytes that the Run sealed for each role, and its provenance. |
| `CandidateLaws.PersistIff` | src/axrun/adapters/_candidate.py:34-101 | For every bundle: persisting returns it exactly if it lists each required output at its place with the role, path, size, digest and media type of the first artifact of that name, says where it comes from, and no tampered directory has its name. |
| `CandidateLaws.FirstFailureDecides` | src/axrun/adapters/_candidate.py:38-49 | The first output in declared order that is missing or damaged decides the error, and nothing is published. |
| `CandidateLaws.NothingElse` | src/axrun/adapters/_candidate.py:61-99 | A published directory holds the copies of the outputs and nothing else, and is the only new one. |
| `CandidateLaws.LoadIff` | src/axrun/adapters/_candidate.py:104-124 | For every directory: a bundle is read exactly if its manifest has its digest and each file lies there with its size and digest. |
| `CandidateLaws.CopyIsNamed` | src/axrun/adapters/_candidate.py:41 | A copy lies below files/ under the index of its output, in at least two digits, and the last name of its path. |
| `Reports.CompletedIsTrusted` | src/axrun/runner.py:540-563 | Every completed record that the writers can produce is accepted by recovery, with the published result. |
| `Reports.VerifyIff` | src/axrun/report.py:22-101 | Independent verification accepts a record of the writers exactly if its qualification, trajectory and progress files pass their own checks and a completed one was qualified. |
| `Reports.EvidenceVerifies` | src/axrun/report.py:22-101 | Over any racing, crashing qualifiers and any writers, committed evidence always passes: verification of what they leave fails only for a trajectory or progress file, or for a completion without qualification. |
| `Reports.UnqualifiedIsRefused` | src/axrun/report.py:22-101 | An undisturbed episode that was never qualified completes with any persisted candidate and fitting verdict; recovery accepts it and independent verification refuses it. |
| `Reports.PersistedIsFromAdapters` | src/axrun/provenance.py:9-26 | A candidate from persist_candidate has the provenance that both readers demand. |
| `ReportLaws.ReportIff` | src/axrun/report.py:22-101 | For every record and all files, also ones that no writer left: verification reports exactly the genuine evidence, bundle and verdict that the record names, and accepts the record exactly if these, its paired references, its executions and its completeness are in order. |
| `ReportLaws.TrustedIff` | src/axrun/runner.py:540-563 | For every record and all files: recovery trusts a verdict exactly if bundle and verdict are genuine and another Run of the right Environment reached it. |
| `ReportLaws.EvidenceIff` | src/axrun/qualification.py:400-471 | For every record and file: evidence is read exactly if it has the recorded digest and its two targets are the Environments and qualification Runs of this episode with acceptable checks. |
| `ReportLaws.VerifiedIsTrusted` | src/axrun/report.py:22-101 | Recovery trusts every completed record that verification accepts, with the verdict that the report shows. |
| `PosixPaths.ValidNameIff` | src/axrun/candidates/archive.py:95-107 | An accepted name is a bounded sequence of proper components without NUL or backslash, or the single name "."; every such name is accepted. |
| `Archives.CreateArchive` | src/axrun/candidates/archive.py:19-53 | Members are listed in name order, and nothing is archived beyond a limit or besides files and directories. |
| `Archives.Filesystem.ExtractArchive` | src/axrun/candidates/archive.py:56-92 | The destination and its missing ancestors are made, extraction stops at the first rejected member, and what was written before stays. |
| `ArchiveLaws.CreateSucceedsIff` | src/axrun/candidates/archive.py:19-53 | A directory can be archived exactly if it has few enough entries, only files and directories with acceptable names, and fits the size limit. |
| `ArchiveLaws.DirectoriesFirst` | src/axrun/candidates/archive.py:26-48 | In a created archive every entry has a member of its kind, and each directory above it is a directory member before it. |
| `ArchiveLaws.MetadataIsIgnored` | src/axrun/candidates/archive.py:38-43 | The archive does not depend on times, owners or mode bits beyond the permissions. |
| `ArchiveLaws.ExtractionIsContained` | src/axrun/candidates/archive.py:56-118 | For every member list and disk, also when extraction fails midway: besides the missing ancestors of the destination, which become directories, only paths below it change; no link is made or replaced, no two members have one target, every written file holds its member's content, and the bytes stay below the bound. |
| `ArchiveRoundTrip.RoundTrip` | src/axrun/candidates/archive.py:19-92 | Extracting what was created into an empty or missing destination passes every limit and restores the same paths, kinds, contents and permissions there; nothing else changes anywhere, but for the missing directories on the way to it. |
| `ArchiveModes.EntriesComeBack` | src/axrun/candidates/archive.py:38-92 | After the round trip every entry has its own nine permission bits and no others, so a mode below 512 comes back as it was. |
| `ArchiveModes.SameArchiveIff` | src/axrun/candidates/archive.py:38-43 | Two trees give the same archive exactly if they have the same paths, kinds and contents and agree in the nine permission bits of every entry. |
| `ArchiveExtraction.ExtractSucceedsIff` | src/axrun/candidates/archive.py:56-92 | For every disk and member list: exactly which archives are extracted without a fault; then every member is where its name says with its permissions and content, and everything else but the directories on the way is as before. |
| `Backend.Execute` | src/axrun/axern_backend.py:166-241 | For every combination of failures the calls come in order up to the first that fails, a created Run is cancelled exactly once if it was not released and never otherwise, a supplied lifecycle is closed exactly once, and the ready marker follows both binds. |
| `Backend.LogFiles.Capture` | src/axrun/axern_backend.py:343-366 | Each log file holds the first 16 MiB of its own stream. |
| `Backend.InterleavingIgnored` | src/axrun/axern_backend.py:357-365 | What a stream said does not depend on how other streams interleave with it. |
| `Backend.SpokenInOrder` | src/axrun/axern_backend.py:355-365 | What a stream said is the data of its events, one after the other. |
| `Lifecycles.CompositeLifecycle.Close` | src/axrun/lifecycle/base.py:45-61 | Every started child is closed once, the last first; those that refuse stay, in start order, and the error is that of the last started among them. |
| `Lifecycles.CompositeLifecycle.Start` | src/axrun/lifecycle/base.py:32-43 | Children start in order up to the first failure, which closes all that were attempted. |
| `Lifecycles.StartsInOrder` | src/axrun/lifecycle/base.py:32-61 | For all failures: children are attempted in order up to the first that fails; only then the attempted ones are closed, the last first, and those that refuse stay held. |
| `Lifecycles.ClosesInReverse` | src/axrun/lifecycle/base.py:45-61 | The i-th close is that of the i-th child from the end. |
| `Lifecycles.CompositeHoldsOutstanding` | src/axrun/lifecycle/base.py:32-61 | Over any starts and closes with any failures, the composite holds exactly the children whose start was attempted and whose close has not succeeded since, in start order. |
| `Lifecycles.ModelTunnelLifecycle.Close` | src/axrun/lifecycle/model_tunnel.py:88-115 | A close tries everything, keeps exactly what failed, and reports the first failure. |
| `Lifecycles.ModelTunnelLifecycle.Start` | src/axrun/lifecycle/model_tunnel.py:50-86 | A start that fails anywhere cleans up what it knows it made. |
| `Lifecycles.TunnelKeepsUnfinished` | src/axrun/lifecycle/model_tunnel.py:50-115 | Over any starts and closes with any failures, the unrevoked session and the unstopped connector are kept; only a session whose creation was never answered exists unheld, and only one whose revocation was never answered is held without existing. |

## Left out

- EpisodeRecovery.VerificationRecovers: the verdict is what the verifier reads from the sealed output, and is an argument; which outputs a verifier can read is not modelled.
- QualificationCompletion.QualifiableIff: assumes that some sealed checks satisfy the requirements of each role, and that Axern can still create Runs; the Run identities are arguments.
- CandidateLaws.LoadIff: files in a directory that its manifest does not list are not looked at, as in the source.
- ArchiveExtraction.ExtractSucceedsIff: does not say which of the two faults is raised when several members are wrong.
- Multi-Run verification inside the episode protocol: the episode protocol has the single-Run verifier; the multi-Run one is a system of its own, and only the sections that it shares (`Bind`, `Finish` with its multi-Run flag) are common to both.
- MultiRunSafety.CompletedPublishesExpected: assumes one live verifier per execution, because the verifier saves its whole in-memory record; crashes and cancels are unrestricted. It also assumes of Axern that a Run which is cancelled or lost (`Kill`) never ends with status 0 or with a status that stands for a compile verdict (21 to 25).
- MultiRunSafety.EnvironmentsDeleted: an Environment that the backend receives but whose outputs it cannot download is deleted inside the backend and never reaches the verifier; that deletion is not modelled.
- PreparationProtocol.AtMostOneEnvironment: assumes at most one such Environment at the start, one preparation caller at a time, nobody else creating Environments with the same label, complete label lookups, and that a create request has taken effect or been dropped before the next lookup is answered.
- Preparation.RetryStrandsIff: the grammar of the repository name in an immutable image reference is not modelled; the digest, the single "@" and the missing scheme are.
- EpisodeSafety.CancelledIsStopped: a Run that was created but whose creation was never answered is known to nobody; it is never released, and the model says nothing more of it.
- ArchiveRoundTrip.RoundTrip: permissions are stored and restored but not enforced, so an extraction that a restored read-only directory would stop is not modelled; times and owners are those of the extractor.
- Archives.Filesystem.ExtractArchive: the destination is given with the links among its ancestors followed.
- MultiRunStore.ExecutionStore.Initialize: of the identity that a reopening compares only the branches are modelled; the episode, the candidate and contract digests and the order of the branches are those of the one verification.
- PreparationServices.PreparationService.AwaitBuild: the grammar of the repository name in an immutable image reference is not modelled.
- MultiRunRestart.RestartIff: speaks of plans whose Runs end well; MultiRunCompletion.CompletesIff covers all others.
- Candidates.LoadCandidate: the checks that manifest and files are no symbolic links and lie below the bundle, and the shape of the manifest JSON, are not modelled.
- QualificationSafety.CommittedLoads: Run identities from Axern are taken as nonempty; the shape of digests, images and Environment identities inside a target is not modelled.
- Reports.VerifyIff: the progress and trajectory files are represented by whether their own checks succeed, and admission receipts are not checked.
- Lifecycles.TunnelKeepsUnfinished: session identities from Axern are taken as nonempty; a session whose creation was never answered is known to nobody, and its expiry is not modelled.
- Liveness under concurrent callers: a process that loses a race may drive candidate_ready, or a verification without a bound Run, to failed (src/axrun/runner.py:86-88).
- Agreement between the progress file and the record: the file is written first and may run ahead; independent verification takes its check as an input.
- Trajectory bundles, admission receipts, dataset resolvers, locked constants and qualification check contents: equality checks against fixed values, taken as inputs.
- The constants that only describe a verification (aggregation_state, timestamps, artifact paths, exit summaries): no code decides anything by them.
- Output download in the backend, input uploads, HTTP proxying, sockets and threads: calls with an answer.
- Tar headers, JSON encoding, fsync and rename: an archive is a list of members with a number of header bytes, a file write is one step.
- Command line, Markdown reports, shell scripts and harness arguments.
