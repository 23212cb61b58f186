/** What failed Runs, unusable files and exceptions leave on the record of an episode. */
module EpisodeFailures {
  import opened Models
  import opened EpisodeProtocol
  import opened EpisodeSafety
  import opened EpisodeRecovery
  import Records = EpisodeRecords

  // ------------------------------------------------------------------ failed Runs

  /** The episode has failed with this diagnosis; everything the stages produced is kept. */
  predicate FailedWith(r: EpisodeRecord, r': EpisodeRecord, code: string, message: string, now: string) {
    && r'.phase.Failed? && r'.diagnosticCode == code && r'.message == message && r'.completedAt == now
    && r'.candidateDigest == r.candidateDigest && r'.verificationResult == r.verificationResult
    && r'.qualificationResult == r.qualificationResult && r'.trajectoryDigest == r.trajectoryDigest
  }

  /** An inference Run that failed ends the episode, whoever recovers it, and its execution is recorded whole. */
  lemma FailedInferenceIsRecorded(e: Episode, s: State, c: Caller, code: string, message: string, now: string)
    returns (s': State)
    requires Reachable(e, s) && s.lock.None? && At(s, c).Idle? && Outlives(s, Inference)
    requires
      var exit := s.runs[s.disk.inference.value.run].exit;
      exit.Some? && exit != Some(0)
    ensures Leads(e, s, s') && FailedWith(s.disk, s'.disk, code, message, now)
    ensures s'.disk.inference == Some(Whole(s, s.disk.inference.value)) && s'.disk.verification == s.disk.verification
  {
    s' := Rejects(e, s, c, Inference, code, message, now);
  }

  /** A verification Run whose output cannot be read as a verdict ends the episode, and keeps the candidate. */
  lemma UnreadableVerdictIsRecorded(e: Episode, s: State, c: Caller, code: string, message: string, now: string)
    returns (s': State)
    requires Reachable(e, s) && s.lock.None? && At(s, c).Idle? && Outlives(s, Verification)
    requires s.runs[s.disk.verification.value.run].exit.Some?
    ensures Leads(e, s, s') && FailedWith(s.disk, s'.disk, code, message, now)
    ensures s'.disk.verification == Some(Whole(s, s.disk.verification.value)) && s'.disk.inference == s.disk.inference
  {
    s' := Rejects(e, s, c, Verification, code, message, now);
  }

  lemma Rejects(e: Episode, s: State, c: Caller, stage: Stage, code: string, message: string, now: string)
    returns (s': State)
    requires Reachable(e, s) && s.lock.None? && At(s, c).Idle? && Outlives(s, stage)
    requires
      var exit := s.runs[s.disk.Bound(stage).value.run].exit;
      exit.Some? && (stage.Inference? ==> exit != Some(0))
    ensures Leads(e, s, s') && FailedWith(s.disk, s'.disk, code, message, now)
    ensures s'.disk.Bound(stage) == Some(Whole(s, s.disk.Bound(stage).value))
    ensures if stage.Inference? then s'.disk.verification == s.disk.verification
            else s'.disk.inference == s.disk.inference
  {
    ReachableInv(e, s);
    BoundIsKnown(e, s, stage);
    Stays(e, s);
    hide Leads, Apply, Trace, Inv, Reachable;
    var held := Reads(e, s, s, c, stage);
    var step := RejectStage(c, code, message, now, Infrastructure);
    RejectIs(e, held, step);
    Then(e, s, held, step);
    s' := Apply(e, held, step);
  }

  lemma RejectIs(e: Episode, s: State, step: Step)
    requires step.RejectStage?
    ensures Apply(e, s, step) == DoRejectStage(e, s, step.c, step.code, step.message, step.now, step.error)
  {
    hide Trace, DoRejectStage;
  }

  // ------------------------------------------------------------------ exceptions

  /** The Run of the running stage is on record. */
  predicate Resumable(r: EpisodeRecord) {
    (r.phase.InferenceRunning? && r.inference.Some?) || (r.phase.VerificationRunning? && r.verification.Some?)
  }

  /**
   * An episode that has ended stays as it is. A diagnosed failure is recorded, and only that of the progress
   * observer ends the episode. Any other ends it if it is a contract error or leaves no Run to recover, and is
   * noted as an interruption otherwise.
   */
  predicate Handled(r: EpisodeRecord, r': EpisodeRecord, error: Failure, now: string) {
    if r.phase.Completed? || r.phase.Failed? || r.phase.Cancelled? then r' == r
    else if error.Diagnosed? then
      if error.code == "progress_observer_failed" then
        r' == r.(phase := Failed, diagnosticCode := error.code, message := error.message, completedAt := now)
      else r' == r.(diagnosticCode := error.code, message := error.message)
    else if error.Contract? || !Resumable(r) then
      r' == r.(phase := Failed, diagnosticCode := "AXRUN_STAGE_FAILED",
               message := "stage failed before a recoverable result was recorded")
    else r' == r.(message := "stage interrupted; inspect or resume the persisted Axern Run")
  }

  predicate Guarded(a: Activity) {
    (a.Planning? || a.Observing? || a.Holding? || a.Delivering?) && a.guards > 0
  }

  predicate Unreleased(a: Activity) {
    (a.Created? || a.Waiting? || a.Allocated? || a.Preparing?) && a.guards > 0
  }

  lemma Both(e: Episode, s: State, x: Step, y: Step)
    ensures Trace(e, s, [x, y]) == Apply(e, Apply(e, s, x), y)
  {
    hide Apply;
    assert [x, y][1..] == [y] && [y][1..] == [];
    assert Trace(e, Apply(e, s, x), [y]) == Trace(e, Apply(e, Apply(e, s, x), y), []);
  }

  lemma AllThree(e: Episode, s: State, x: Step, y: Step, z: Step)
    ensures Trace(e, s, [x, y, z]) == Apply(e, Apply(e, Apply(e, s, x), y), z)
  {
    assert [x, y, z][1..] == [y, z];
    Both(e, Apply(e, s, x), y, z);
    hide Apply;
  }

  lemma FailingStepIs(e: Episode, s: State, step: Step)
    ensures step.Throw? ==> Apply(e, s, step) == DoThrow(s, step.c, step.error)
    ensures step.HandleFailure? ==> Apply(e, s, step) == DoHandleFailure(s, step.c, step.now)
    ensures step.CancelUnreleased? ==>
              Apply(e, s, step) == DoCancelUnreleased(s, step.c, step.closed, step.landed, step.answered)
    ensures step.LoadCandidate? ==> Apply(e, s, step) == DoLoadCandidate(s, step.c, step.ok)
  {
    hide Trace, DoThrow, DoHandleFailure, DoCancelUnreleased, DoLoadCandidate;
  }

  /** An exception of a caller whose Run is released, or not created, is recorded; no Run is touched. */
  lemma ThrownIsRecorded(e: Episode, s: State, c: Caller, error: Failure, now: string)
    requires s.lock.None? && Guarded(At(s, c))
    ensures
      var s' := Trace(e, s, [Throw(c, error), HandleFailure(c, now)]);
      Handled(s.disk, s'.disk, error, now) && s'.runs == s.runs
  {
    Both(e, s, Throw(c, error), HandleFailure(c, now));
    FailingStepIs(e, s, Throw(c, error));
    FailingStepIs(e, Apply(e, s, Throw(c, error)), HandleFailure(c, now));
    hide Apply, Trace;
  }

  /** What the backend raises after it has cleaned up behind an exception. */
  function Raised(error: Failure, closed: bool, answered: bool): Failure {
    if !answered then Diagnosed("prestart_cleanup_failed", "unreleased_run_cancel_failed")
    else if !closed then Diagnosed("lifecycle_cleanup_failed", "component_cleanup_failed")
    else error
  }

  /** Before the release the Run is asked to stop first; what is recorded is the worst that happened. */
  lemma ThrownBeforeReleaseIsRecorded(e: Episode, s: State, c: Caller, error: Failure, closed: bool, landed: bool,
                                      answered: bool, now: string)
    requires s.lock.None? && Unreleased(At(s, c)) && (answered ==> landed)
    ensures
      var s' := Trace(e, s, [Throw(c, error), CancelUnreleased(c, closed, landed, answered), HandleFailure(c, now)]);
      var run := At(s, c).x.run;
      && Handled(s.disk, s'.disk, Raised(error, closed, answered), now)
      && s'.runs == if landed && run in s.runs then s.runs[run := s.runs[run].(cancelRequested := true)] else s.runs
  {
    var cancel := CancelUnreleased(c, closed, landed, answered);
    AllThree(e, s, Throw(c, error), cancel, HandleFailure(c, now));
    var s1 := Apply(e, s, Throw(c, error));
    FailingStepIs(e, s, Throw(c, error));
    FailingStepIs(e, s1, cancel);
    FailingStepIs(e, Apply(e, s1, cancel), HandleFailure(c, now));
    hide Apply, Trace, Handled, Records.RecordFailure;
    HandlerRecords(s.disk, Raised(error, closed, answered), now);
  }

  lemma HandlerRecords(r: EpisodeRecord, error: Failure, now: string)
    ensures Handled(r, Records.RecordFailure(r, error, now).record, error, now)
  {
  }

  /** A recovery that finds its bundle unusable ends the episode. */
  lemma UnusableBundleIsRecorded(e: Episode, s: State, c: Caller, now: string)
    requires s.lock.None? && At(s, c).Idle?
    requires s.disk.phase.CandidateReady? || (s.disk.phase.VerificationRunning? && s.disk.verification.Some?)
    ensures
      var s' := Trace(e, s, [StartRecovery(c), LoadCandidate(c, false), HandleFailure(c, now)]);
      && s'.disk == s.disk.(phase := Failed, diagnosticCode := "AXRUN_STAGE_FAILED",
                            message := "stage failed before a recoverable result was recorded")
      && s'.runs == s.runs
  {
    AllThree(e, s, StartRecovery(c), LoadCandidate(c, false), HandleFailure(c, now));
    var s1 := Apply(e, s, StartRecovery(c));
    StepIs(e, s, StartRecovery(c));
    FailingStepIs(e, s1, LoadCandidate(c, false));
    FailingStepIs(e, Apply(e, s1, LoadCandidate(c, false)), HandleFailure(c, now));
    hide Apply, Trace;
  }
}
