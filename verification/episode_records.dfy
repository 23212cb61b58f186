/**
 * What each critical section of the episode lock does to the persisted record, and what
 * every sequence of such sections, by any writers with any arguments, preserves.
 */
module EpisodeRecords {
  import opened Models

  /** The record on disk when the section releases the lock, and the exception it leaves with. */
  datatype Outcome = Outcome(record: EpisodeRecord, raised: Option<Failure>)

  function Refuse(r: EpisodeRecord, error: Failure): Outcome {
    Outcome(r, Some(error))
  }

  function Save(r: EpisodeRecord): Outcome {
    Outcome(r, None)
  }

  /** The same remote execution, where an allocation may still be missing on the left. */
  predicate SameExecution(saved: ExecutionRef, x: ExecutionRef) {
    && saved.run == x.run
    && saved.environment == x.environment
    && (saved.allocation == "" || saved.allocation == x.allocation)
  }

  function WithBound(r: EpisodeRecord, stage: Stage, x: ExecutionRef): EpisodeRecord {
    match stage
    case Inference => r.(inference := Some(x))
    case Verification => r.(verification := Some(x))
  }

  function Fail(r: EpisodeRecord, code: string, message: string, now: string): EpisodeRecord {
    r.(phase := Failed, diagnosticCode := code, message := message, completedAt := now)
  }

  function StartRun(r: EpisodeRecord): Outcome {
    if r.phase.Completed? then Save(r)
    else if !r.phase.New? then Refuse(r, RecoveryRequired)
    else Save(r.(phase := InferenceRunning))
  }

  function Bind(e: Episode, r: EpisodeRecord, stage: Stage, x: ExecutionRef): Outcome {
    if r.phase != RunningPhase(stage) then Refuse(r, RecoveryRequired)
    else if x.environment != e.EnvironmentOf(stage) then Refuse(r, Infrastructure)
    else if stage.Verification? && r.inference.Some? && x.run == r.inference.value.run then Refuse(r, Infrastructure)
    else if r.Bound(stage).Some? && !SameExecution(r.Bound(stage).value, x) then Refuse(r, Infrastructure)
    else Save(WithBound(r, stage, x))
  }

  /** Why a stage result may not be committed, if it may not. */
  function RequireExecution(e: Episode, r: EpisodeRecord, stage: Stage, x: ExecutionRef): Option<Failure> {
    if r.phase != RunningPhase(stage) then Some(RecoveryRequired)
    else if r.Bound(stage).None? || !SameExecution(r.Bound(stage).value, x) then Some(Infrastructure)
    else if x.environment != e.EnvironmentOf(stage) then Some(Infrastructure)
    else None
  }

  function FailStage(e: Episode, r: EpisodeRecord, stage: Stage, x: ExecutionRef,
                     code: string, message: string, now: string): Outcome
  {
    var refused := RequireExecution(e, r, stage, x);
    if refused.Some? then Outcome(r, refused)
    else Save(Fail(WithBound(r, stage, x), code, message, now))
  }

  function CommitCandidate(e: Episode, r: EpisodeRecord, x: ExecutionRef,
                           candidate: Digest<CandidateManifest>, trajectory: Option<(string, string, string)>): Outcome
  {
    var refused := RequireExecution(e, r, Inference, x);
    if refused.Some? then Outcome(r, refused)
    else
      var (path, digest, reason) :=
        if trajectory.Some? then trajectory.value
        else (r.trajectoryManifest, r.trajectoryDigest, "completed");
      Save(r.(inference := Some(x), candidateManifest := candidate, candidateDigest := candidate,
              trajectoryManifest := path, trajectoryDigest := digest, terminationReason := reason,
              phase := CandidateReady, diagnosticCode := "", message := ""))
  }

  function StartVerification(r: EpisodeRecord): Outcome {
    if !r.phase.CandidateReady? then Refuse(r, RecoveryRequired)
    else Save(r.(phase := VerificationRunning))
  }

  const CANDIDATE_MISMATCH := "VerificationResult references the wrong CandidateBundle"
  const VERIFIER_MISMATCH := "VerificationResult references the wrong verifier"

  /** Terminal publication; a multi-Run verifier keeps the bound execution when it is rejected. */
  function Finish(e: Episode, r: EpisodeRecord, x: ExecutionRef, v: VerificationResult,
                  multiRun: bool, now: string): Outcome
  {
    var refused := RequireExecution(e, r, Verification, x);
    var rejected := if multiRun then r else WithBound(r, Verification, x);
    if refused.Some? then Outcome(r, refused)
    else if v.candidateDigest != r.candidateDigest then
      Refuse(Fail(rejected, "AXRUN_CANDIDATE_MISMATCH", CANDIDATE_MISMATCH, now), Contract)
    else if v.verifier != e.verifier then
      Refuse(Fail(rejected, "AXRUN_VERIFIER_MISMATCH", VERIFIER_MISMATCH, now), Contract)
    else
      Save(r.(verification := Some(x), verificationResult := Sha(v), verificationResultDigest := Sha(v),
              phase := Completed, diagnosticCode := v.diagnosticCode, message := "", completedAt := v.completedAt))
  }

  predicate HasRecoverableIdentity(r: EpisodeRecord) {
    (r.phase.InferenceRunning? && r.inference.Some?) || (r.phase.VerificationRunning? && r.verification.Some?)
  }

  const STAGE_FAILED := "stage failed before a recoverable result was recorded"
  const STAGE_INTERRUPTED := "stage interrupted; inspect or resume the persisted Axern Run"

  function RecordFailure(r: EpisodeRecord, error: Failure, now: string): Outcome {
    if Terminal(r.phase) then Save(r)
    else if error.Diagnosed? then
      var r' := r.(diagnosticCode := error.code, message := error.message);
      Save(if error.code == "progress_observer_failed" then r'.(phase := Failed, completedAt := now) else r')
    else if error.Contract? || !HasRecoverableIdentity(r) then
      Save(r.(phase := Failed, diagnosticCode := "AXRUN_STAGE_FAILED", message := STAGE_FAILED))
    else
      Save(r.(message := STAGE_INTERRUPTED))
  }

  function Cancel(r: EpisodeRecord, now: string): Outcome {
    if Terminal(r.phase) then Save(r)
    else Save(r.(phase := Cancelled, diagnosticCode := "AXRUN_CANCELLED", completedAt := now))
  }

  /** The callback that qualification passes to the backend for the Run of slot index. */
  function BindQualification(e: Episode, r: EpisodeRecord, index: nat, environment: string, x: ExecutionRef): Outcome {
    if !r.phase.New? || x.environment != environment then Refuse(r, RecoveryRequired)
    else if index < |r.qualifications| then
      var saved := r.qualifications[index];
      if saved.run != x.run || (saved.allocation != "" && saved.allocation != x.allocation) then Refuse(r, Contract)
      else Save(r.(qualifications := r.qualifications[index := x]))
    else if index == |r.qualifications| then Save(r.(qualifications := r.qualifications + [x]))
    else Refuse(r, Contract)
  }

  function CommitQualification(r: EpisodeRecord, executions: seq<ExecutionRef>, path: string,
                               digest: Digest<QualificationResult>): Outcome
  {
    if !r.phase.New? then Refuse(r, RecoveryRequired)
    else if r.qualificationResult != "" then Save(r)
    else Save(r.(qualifications := executions, qualificationResult := path, qualificationResultDigest := digest))
  }

  function PublishProgress(r: EpisodeRecord, run: string, path: string, revision: nat): Outcome {
    if !r.phase.InferenceRunning? then Save(r)
    else if r.inference.None? || r.inference.value.run != run then Refuse(r, Infrastructure)
    else Save(r.(progressPath := path, progressRevision := revision))
  }

  /** Every critical section that may save the record, with everything it takes from outside. */
  datatype Write =
    | StartingRun
    | Binding(stage: Stage, execution: ExecutionRef)
    | FailingStage(stage: Stage, execution: ExecutionRef, code: string, message: string, now: string)
    | CommittingCandidate(execution: ExecutionRef, candidate: Digest<CandidateManifest>,
                          trajectory: Option<(string, string, string)>)
    | StartingVerification
    | Finishing(execution: ExecutionRef, verdict: VerificationResult, multiRun: bool, now: string)
    | RecordingFailure(error: Failure, now: string)
    | Cancelling(now: string)
    | BindingQualification(index: nat, environment: string, execution: ExecutionRef)
    | CommittingQualification(executions: seq<ExecutionRef>, path: string, digest: Digest<QualificationResult>)
    | PublishingProgress(run: string, path: string, revision: nat)

  function Section(e: Episode, r: EpisodeRecord, w: Write): Outcome {
    match w
    case StartingRun => StartRun(r)
    case Binding(stage, x) => Bind(e, r, stage, x)
    case FailingStage(stage, x, code, message, now) => FailStage(e, r, stage, x, code, message, now)
    case CommittingCandidate(x, candidate, trajectory) => CommitCandidate(e, r, x, candidate, trajectory)
    case StartingVerification => StartVerification(r)
    case Finishing(x, v, multiRun, now) => Finish(e, r, x, v, multiRun, now)
    case RecordingFailure(error, now) => RecordFailure(r, error, now)
    case Cancelling(now) => Cancel(r, now)
    case BindingQualification(index, environment, x) => BindQualification(e, r, index, environment, x)
    case CommittingQualification(executions, path, digest) => CommitQualification(r, executions, path, digest)
    case PublishingProgress(run, path, revision) => PublishProgress(r, run, path, revision)
  }

  function History(e: Episode, r: EpisodeRecord, ws: seq<Write>): EpisodeRecord
    decreases |ws|
  {
    if |ws| == 0 then r else History(e, Section(e, r, ws[0]).record, ws[1..])
  }

  // ------------------------------------------------------------------ phase order

  /** The moves of the code: the order of phases, and any unfinished episode may fail or be cancelled. */
  predicate PhaseEdge(from: Phase, to: Phase) {
    || (from.New? && to.InferenceRunning?)
    || (from.InferenceRunning? && to.CandidateReady?)
    || (from.CandidateReady? && to.VerificationRunning?)
    || (from.VerificationRunning? && to.Completed?)
    || (!Terminal(from) && (to.Failed? || to.Cancelled?))
  }

  /** The arrows of the documented diagram. */
  predicate Drawn(from: Phase, to: Phase) {
    || (from.New? && to.InferenceRunning?)
    || (from.InferenceRunning? && (to.CandidateReady? || to.Failed?))
    || (from.CandidateReady? && to.VerificationRunning?)
    || (from.VerificationRunning? && (to.Completed? || to.Failed?))
    || ((from.InferenceRunning? || from.CandidateReady? || from.VerificationRunning?) && to.Cancelled?)
  }

  function Rank(phase: Phase): nat {
    match phase
    case New => 0
    case InferenceRunning => 1
    case CandidateReady => 2
    case VerificationRunning => 3
    case Completed => 4
    case Failed => 4
    case Cancelled => 4
  }

  /** How a persisted identity may differ from an earlier one: an allocation is filled in once. */
  predicate IdentityKept(before: Option<ExecutionRef>, after: Option<ExecutionRef>) {
    before.Some? ==> after.Some? && SameExecution(before.value, after.value)
  }

  /** What a later record owes to an earlier one, whatever happened in between. */
  predicate Advances(r: EpisodeRecord, r': EpisodeRecord) {
    && Rank(r.phase) <= Rank(r'.phase)
    && (Terminal(r.phase) ==> r' == r)
    && r'.createdAt == r.createdAt
    && IdentityKept(r.inference, r'.inference)
    && IdentityKept(r.verification, r'.verification)
    && (Rank(r.phase) >= 2 ==>
          && r'.inference == r.inference
          && r'.candidateManifest == r.candidateManifest
          && r'.candidateDigest == r.candidateDigest
          && r'.trajectoryManifest == r.trajectoryManifest
          && r'.trajectoryDigest == r.trajectoryDigest
          && r'.terminationReason == r.terminationReason
          && r'.progressPath == r.progressPath
          && r'.progressRevision == r.progressRevision)
    && (r.qualificationResult != "" || !r.phase.New? ==>
          && r'.qualificationResult == r.qualificationResult
          && r'.qualificationResultDigest == r.qualificationResultDigest)
    && (!r.phase.New? ==> r'.qualifications == r.qualifications)
  }

  /** What is true of the record by itself in every reachable state. */
  predicate Sound(e: Episode, r: EpisodeRecord) {
    && (r.phase.New? ==> r.inference.None?)
    && (r.inference.Some? ==> r.inference.value.environment == e.inferenceEnvironment.environment)
    && (r.phase.CandidateReady? || r.phase.VerificationRunning? || r.phase.Completed? ==>
          r.inference.Some? && r.candidateDigest == r.candidateManifest)
    && (Rank(r.phase) <= 2 ==> r.verification.None?)
    && (r.verification.Some? ==>
          && r.verification.value.environment == e.verificationEnvironment.environment
          && r.inference.Some?
          && r.verification.value.run != r.inference.value.run)
    && (r.phase.Completed? ==>
          && r.verification.Some?
          && r.verificationResult.Sha?
          && r.verificationResultDigest == r.verificationResult
          && r.verificationResult.content.candidateDigest == r.candidateDigest
          && r.verificationResult.content.verifier == e.verifier)
  }

  /** One section keeps the phase or takes an edge, and keeps every promise. */
  predicate Lawful(e: Episode, r: EpisodeRecord, r': EpisodeRecord) {
    && Sound(e, r')
    && Advances(r, r')
    && (r'.phase == r.phase || PhaseEdge(r.phase, r'.phase))
  }

  lemma SectionLawful(e: Episode, r: EpisodeRecord, w: Write)
    requires Sound(e, r)
    ensures Lawful(e, r, Section(e, r, w).record)
  {
    match w
    case Binding(stage, x) => BindLawful(e, r, stage, x);
    case FailingStage(stage, x, code, message, now) => FailStageLawful(e, r, stage, x, code, message, now);
    case CommittingCandidate(x, candidate, trajectory) => CommitLawful(e, r, x, candidate, trajectory);
    case Finishing(x, v, multiRun, now) => FinishLawful(e, r, x, v, multiRun, now);
    case RecordingFailure(error, now) => RecordFailureLawful(e, r, error, now);
    case StartingRun => StartLawful(e, r);
    case StartingVerification => StartLawful(e, r);
    case Cancelling(now) => CancelLawful(e, r, now);
    case BindingQualification(index, environment, x) => QualificationLawful(e, r, w);
    case CommittingQualification(executions, path, digest) => QualificationLawful(e, r, w);
    case PublishingProgress(run, path, revision) => ProgressLawful(e, r, run, path, revision);
  }

  lemma SameLawful(e: Episode, r: EpisodeRecord)
    requires Sound(e, r)
    ensures Lawful(e, r, r)
  {
  }

  lemma StartLawful(e: Episode, r: EpisodeRecord)
    requires Sound(e, r)
    ensures Lawful(e, r, StartRun(r).record) && Lawful(e, r, StartVerification(r).record)
  {
  }

  lemma CancelLawful(e: Episode, r: EpisodeRecord, now: string)
    requires Sound(e, r)
    ensures Lawful(e, r, Cancel(r, now).record)
  {
  }

  lemma QualificationLawful(e: Episode, r: EpisodeRecord, w: Write)
    requires Sound(e, r)
    requires w.BindingQualification? || w.CommittingQualification?
    ensures Lawful(e, r, Section(e, r, w).record)
  {
  }

  lemma ProgressLawful(e: Episode, r: EpisodeRecord, run: string, path: string, revision: nat)
    requires Sound(e, r)
    ensures Lawful(e, r, PublishProgress(r, run, path, revision).record)
  {
  }

  lemma BindLawful(e: Episode, r: EpisodeRecord, stage: Stage, x: ExecutionRef)
    requires Sound(e, r)
    ensures Lawful(e, r, Bind(e, r, stage, x).record)
  {
  }

  lemma FailStageLawful(e: Episode, r: EpisodeRecord, stage: Stage, x: ExecutionRef,
                        code: string, message: string, now: string)
    requires Sound(e, r)
    ensures Lawful(e, r, FailStage(e, r, stage, x, code, message, now).record)
  {
  }

  lemma CommitLawful(e: Episode, r: EpisodeRecord, x: ExecutionRef,
                     candidate: Digest<CandidateManifest>, trajectory: Option<(string, string, string)>)
    requires Sound(e, r)
    ensures Lawful(e, r, CommitCandidate(e, r, x, candidate, trajectory).record)
  {
  }

  lemma FinishLawful(e: Episode, r: EpisodeRecord, x: ExecutionRef, v: VerificationResult, multiRun: bool, now: string)
    requires Sound(e, r)
    ensures Lawful(e, r, Finish(e, r, x, v, multiRun, now).record)
  {
  }

  lemma RecordFailureLawful(e: Episode, r: EpisodeRecord, error: Failure, now: string)
    requires Sound(e, r)
    ensures Lawful(e, r, RecordFailure(r, error, now).record)
  {
    if Terminal(r.phase) {
      SameLawful(e, r);
    } else if error.Diagnosed? {
      assert RecordFailure(r, error, now).record.inference == r.inference;
    }
  }

  /** An exception that ends an episode which has no Run to recover. */
  predicate Ends(error: Failure) {
    error.Diagnosed? ==> error.code == "progress_observer_failed"
  }

  /**
   * A section keeps to the diagram exactly unless it cancels a new episode, or records such an exception
   * of a new or candidate_ready one.
   */
  lemma DrawnIff(e: Episode, r: EpisodeRecord, w: Write)
    requires Sound(e, r)
    ensures
      var r' := Section(e, r, w).record;
      (r'.phase == r.phase || Drawn(r.phase, r'.phase))
      <==> !(w.Cancelling? && r.phase.New?)
           && !(w.RecordingFailure? && Ends(w.error) && (r.phase.New? || r.phase.CandidateReady?))
  {
    SectionLawful(e, r, w);
  }

  lemma AdvancesTransitive(r: EpisodeRecord, r': EpisodeRecord, r'': EpisodeRecord)
    requires Advances(r, r') && Advances(r', r'')
    ensures Advances(r, r'')
  {
  }

  /** Over any writers, any arguments and any interleaving of their sections. */
  lemma {:induction false} HistoryAdvances(e: Episode, r: EpisodeRecord, ws: seq<Write>)
    requires Sound(e, r)
    ensures Sound(e, History(e, r, ws)) && Advances(r, History(e, r, ws))
    decreases |ws|
  {
    if |ws| > 0 {
      var r' := Section(e, r, ws[0]).record;
      SectionLawful(e, r, ws[0]);
      HistoryAdvances(e, r', ws[1..]);
      AdvancesTransitive(r, r', History(e, r', ws[1..]));
    }
  }

  /** Once completed, failed or cancelled, no writer changes any field again. */
  lemma {:induction false} TerminalAbsorbs(e: Episode, r: EpisodeRecord, ws: seq<Write>)
    requires Terminal(r.phase)
    ensures History(e, r, ws) == r
    decreases |ws|
  {
    if |ws| > 0 {
      assert Section(e, r, ws[0]).record == r;
      TerminalAbsorbs(e, r, ws[1..]);
    }
  }

  /** Every record that starts as initialize writes it keeps its identities sound. */
  lemma ReachableSound(e: Episode, now: string, ws: seq<Write>)
    ensures Sound(e, History(e, NewRecord(now), ws))
  {
    HistoryAdvances(e, NewRecord(now), ws);
  }

  /** Between any two instants of one history the later record advances the earlier one. */
  lemma HistoryMonotone(e: Episode, now: string, earlier: seq<Write>, later: seq<Write>)
    ensures Advances(History(e, NewRecord(now), earlier), History(e, NewRecord(now), earlier + later))
  {
    HistoryAdvances(e, NewRecord(now), earlier);
    HistorySplits(e, NewRecord(now), earlier, later);
    HistoryAdvances(e, History(e, NewRecord(now), earlier), later);
  }

  lemma {:induction false} HistorySplits(e: Episode, r: EpisodeRecord, xs: seq<Write>, ys: seq<Write>)
    ensures History(e, r, xs + ys) == History(e, History(e, r, xs), ys)
    decreases |xs|
  {
    if |xs| == 0 {
      assert xs + ys == ys;
    } else {
      assert (xs + ys)[0] == xs[0] && (xs + ys)[1..] == xs[1..] + ys;
      HistorySplits(e, Section(e, r, xs[0]).record, xs[1..], ys);
    }
  }
}
