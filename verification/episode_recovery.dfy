/** What later callers can still make of an episode whose callers are gone. */
module EpisodeRecovery {
  import opened Models
  import opened EpisodeProtocol
  import opened EpisodeSafety
  import Completion = EpisodeCompletion
  import Records = EpisodeRecords

  /** Nothing is started or executed anew, and nobody crashes. */
  predicate Continues(step: Step) {
    !step.StartRun? && !step.CreateRun? && !step.Crash? && !step.Throw?
  }

  ghost predicate Leads(e: Episode, s: State, s': State) {
    exists steps: seq<Step> :: (forall step | step in steps :: Continues(step)) && Trace(e, s, steps) == s'
  }

  lemma Stays(e: Episode, s: State)
    ensures Leads(e, s, s)
  {
    assert Trace(e, s, []) == s;
  }

  lemma Then(e: Episode, s: State, s': State, step: Step)
    requires Leads(e, s, s') && Continues(step)
    ensures Leads(e, s, Apply(e, s', step))
  {
    var steps: seq<Step> :| (forall step | step in steps :: Continues(step)) && Trace(e, s, steps) == s';
    Completion.TraceSnoc(e, s, steps, step);
    assert forall x | x in steps + [step] :: Continues(x);
  }

  /** The Run that the record names for its running stage, as Axern knows it. */
  ghost predicate Outlives(s: State, stage: Stage) {
    && s.disk.phase == RunningPhase(stage) && s.disk.Bound(stage).Some?
    && s.disk.Bound(stage).value.run in s.runs
  }

  function Whole(s: State, x: ExecutionRef): ExecutionRef
    requires x.run in s.runs
  {
    ExecutionRef(s.runs[x.run].environment, x.run, s.runs[x.run].allocation)
  }

  lemma BoundIsKnown(e: Episode, s: State, stage: Stage)
    requires Inv(e, s) && s.disk.Bound(stage).Some?
    ensures Names(s, stage, s.disk.Bound(stage).value)
    ensures s.disk.Bound(stage).value.environment == e.EnvironmentOf(stage)
    ensures s.disk.phase.VerificationRunning? ==> s.disk.inference.Some?
  {
  }

  lemma StepIs(e: Episode, s: State, step: Step)
    ensures step.StartRecovery? ==> Apply(e, s, step) == DoStartRecovery(s, step.c)
    ensures step.LoadCandidate? ==> Apply(e, s, step) == DoLoadCandidate(s, step.c, step.ok)
    ensures step.ReadRun? ==> Apply(e, s, step) == DoReadRun(s, step.c)
    ensures step.CommitCandidate? ==>
              Apply(e, s, step) == DoCommitCandidate(e, s, step.c, step.candidate, step.trajectory)
    ensures step.BeginVerification? ==> Apply(e, s, step) == DoBeginVerification(s, step.c)
    ensures step.Finish? ==> Apply(e, s, step) == DoFinish(e, s, step.c, step.verdict, step.now)
    ensures step.Exit? ==> Apply(e, s, step) == DoExit(s, step.run, step.status)
    ensures step.BeginCancel? ==> Apply(e, s, step) == DoBeginCancel(s, step.c)
    ensures step.QueryRun? ==> Apply(e, s, step) == DoQueryRun(s, step.c)
    ensures step.AskCancel? ==> Apply(e, s, step) == DoAskCancel(s, step.c, step.landed, step.answered)
    ensures step.EndCancel? ==> Apply(e, s, step) == DoEndCancel(s, step.c, step.now)
  {
    hide Trace, DoStartRecovery, DoLoadCandidate, DoReadRun, DoCommitCandidate, DoBeginVerification, DoFinish, DoExit,
      DoBeginCancel, DoQueryRun, DoAskCancel, DoEndCancel;
  }

  /** The recovering caller asks for the Run, after the bundle was checked if there is one. */
  lemma Asks(e: Episode, base: State, s: State, c: Caller, stage: Stage) returns (s': State)
    requires Leads(e, base, s) && s.lock.None? && At(s, c).Idle? && Outlives(s, stage)
    ensures Leads(e, base, s') && s' == Move(s, c, Reading(stage, s.disk.Bound(stage).value))
  {
    hide Leads, Apply, Trace;
    var x := s.disk.Bound(stage).value;
    StepIs(e, s, StartRecovery(c));
    Then(e, base, s, StartRecovery(c));
    s' := DoStartRecovery(s, c);
    if stage.Verification? {
      StepIs(e, s', LoadCandidate(c, true));
      Then(e, base, s', LoadCandidate(c, true));
      s' := DoLoadCandidate(s', c, true);
      assert s'.callers == s.callers[c := Reading(stage, x)];
    }
  }

  /** The terminal Run of an earlier caller is read back. */
  lemma Reads(e: Episode, base: State, s: State, c: Caller, stage: Stage) returns (s': State)
    requires Inv(e, s) && Leads(e, base, s) && s.lock.None? && At(s, c).Idle? && Outlives(s, stage)
    requires s.runs[s.disk.Bound(stage).value.run].exit.Some?
    ensures Leads(e, base, s')
    ensures
      var x := s.disk.Bound(stage).value;
      s' == Move(s, c, Holding(stage, Whole(s, x), s.runs[x.run].exit.value, 0))
  {
    BoundIsKnown(e, s, stage);
    hide Leads, Apply, Trace, Inv;
    var reading := Asks(e, base, s, c, stage);
    StepIs(e, reading, ReadRun(c));
    Then(e, base, reading, ReadRun(c));
    s' := DoReadRun(reading, c);
    var x := s.disk.Bound(stage).value;
    assert s'.callers == s.callers[c := Holding(stage, Whole(s, x), s.runs[x.run].exit.value, 0)];
  }

  /**
   * An inference Run that outlived its callers and succeeded is committed by whoever recovers the episode,
   * with any candidate that was built from it.
   */
  lemma InferenceRecovers(e: Episode, s: State, c: Caller, candidate: Digest<CandidateManifest>,
                          trajectory: Option<(string, string, string)>)
    returns (s': State)
    requires Reachable(e, s) && s.lock.None? && At(s, c).Idle? && Outlives(s, Inference)
    requires s.runs[s.disk.inference.value.run].exit == Some(0)
    ensures Leads(e, s, s') && s'.lock.None? && At(s', c) == Delivering(0) && s'.runs == s.runs
    ensures s'.disk.phase.CandidateReady? && s'.disk.candidateManifest == s'.disk.candidateDigest == candidate
    ensures s'.disk.inference == Some(Whole(s, s.disk.inference.value))
    ensures trajectory.Some? ==>
              s'.disk.trajectoryManifest == trajectory.value.0 && s'.disk.trajectoryDigest == trajectory.value.1
              && s'.disk.terminationReason == trajectory.value.2
    ensures trajectory.None? ==> s'.disk.terminationReason == "completed"
  {
    ReachableInv(e, s);
    BoundIsKnown(e, s, Inference);
    Stays(e, s);
    hide Leads, Apply, Trace, Inv, Reachable;
    var held := Reads(e, s, s, c, Inference);
    StepIs(e, held, CommitCandidate(c, candidate, trajectory));
    Then(e, s, held, CommitCandidate(c, candidate, trajectory));
    s' := DoCommitCandidate(e, held, c, candidate, trajectory);
  }

  /** A committed candidate is handed to verification by whoever recovers the episode. */
  lemma ReadyRecovers(e: Episode, s: State, c: Caller) returns (s': State)
    requires s.lock.None? && At(s, c).Idle? && s.disk.phase.CandidateReady?
    ensures Leads(e, s, s') && s'.disk == s.disk.(phase := VerificationRunning)
    ensures s'.verification.owner == Some(c) && At(s', c) == Planning(Verification, 1)
  {
    Stays(e, s);
    hide Leads, Apply, Trace;
    StepIs(e, s, StartRecovery(c));
    Then(e, s, s, StartRecovery(c));
    var loading := DoStartRecovery(s, c);
    StepIs(e, loading, LoadCandidate(c, true));
    Then(e, s, loading, LoadCandidate(c, true));
    var delivering := DoLoadCandidate(loading, c, true);
    StepIs(e, delivering, BeginVerification(c));
    Then(e, s, delivering, BeginVerification(c));
    s' := DoBeginVerification(delivering, c);
  }

  /** A verification Run that outlived its callers is published with the verdict on the committed candidate. */
  lemma VerificationRecovers(e: Episode, s: State, c: Caller, verdict: VerificationResult, now: string)
    returns (s': State)
    requires Reachable(e, s) && s.lock.None? && At(s, c).Idle? && Outlives(s, Verification)
    requires s.runs[s.disk.verification.value.run].exit.Some?
    requires verdict.candidateDigest == s.disk.candidateDigest && verdict.verifier == e.verifier
    ensures Leads(e, s, s') && s'.disk.phase.Completed?
    ensures s'.disk.verificationResult == s'.disk.verificationResultDigest == Sha(verdict)
    ensures s'.disk.verification == Some(Whole(s, s.disk.verification.value)) && s'.disk.inference == s.disk.inference
    ensures s'.disk.completedAt == verdict.completedAt && s'.disk.diagnosticCode == verdict.diagnosticCode
  {
    ReachableInv(e, s);
    BoundIsKnown(e, s, Verification);
    Stays(e, s);
    hide Leads, Apply, Trace, Inv, Reachable;
    var held := Reads(e, s, s, c, Verification);
    StepIs(e, held, Finish(c, verdict, now));
    Then(e, s, held, Finish(c, verdict, now));
    s' := DoFinish(e, held, c, verdict, now);
  }
}
