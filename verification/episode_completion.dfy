/** The undisturbed run of one caller reaches completion, so what is proved of completed episodes has instances. */
module EpisodeCompletion {
  import opened Models
  import opened EpisodeProtocol
  import Records = EpisodeRecords

  ghost predicate Reaches(e: Episode, s: State, s': State) {
    exists steps: seq<Step> :: (forall step | step in steps :: !step.Crash? && !step.Throw?) && Trace(e, s, steps) == s'
  }

  lemma {:induction false} TraceSnoc(e: Episode, s: State, steps: seq<Step>, step: Step)
    ensures Trace(e, s, steps + [step]) == Apply(e, Trace(e, s, steps), step)
    decreases |steps|
  {
    if |steps| == 0 {
      assert (steps + [step])[1..] == [];
    } else {
      assert (steps + [step])[1..] == steps[1..] + [step];
      TraceSnoc(e, Apply(e, s, steps[0]), steps[1..], step);
    }
  }

  lemma ThenStep(e: Episode, s: State, s': State, step: Step)
    requires Reaches(e, s, s') && !step.Crash? && !step.Throw?
    ensures Reaches(e, s, Apply(e, s', step))
  {
    var steps: seq<Step> :| (forall step | step in steps :: !step.Crash? && !step.Throw?) && Trace(e, s, steps) == s';
    TraceSnoc(e, s, steps, step);
    assert forall x | x in steps + [step] :: !x.Crash? && !x.Throw?;
  }

  /** Caller 0 executes a stage whose record is running and names no Run yet. */
  ghost predicate Planned(e: Episode, now: string, s: State, stage: Stage, guards: nat) {
    && Reaches(e, Init(now), s)
    && s.lock.None? && At(s, 0) == Planning(stage, guards)
    && s.disk.phase == RunningPhase(stage) && s.disk.Bound(stage).None?
  }

  /** The Run is created and bound. */
  lemma Creates(e: Episode, now: string, s: State, stage: Stage, guards: nat, run: string) returns (s': State)
    requires Planned(e, now, s, stage, guards) && run !in s.runs
    requires stage.Verification? ==> s.disk.inference.Some? && s.disk.inference.value.run != run
    ensures Reaches(e, Init(now), s') && s'.lock.None?
    ensures At(s', 0) == Waiting(stage, ExecutionRef(e.EnvironmentOf(stage), run, ""), guards)
    ensures s'.runs == s.runs[run := Run(stage, e.EnvironmentOf(stage), "", None, false, false)]
    ensures s'.disk == Records.WithBound(s.disk, stage, ExecutionRef(e.EnvironmentOf(stage), run, ""))
  {
    ThenStep(e, Init(now), s, CreateRun(0, run, true, true));
    var created := Apply(e, s, CreateRun(0, run, true, true));
    assert At(created, 0) == Created(stage, ExecutionRef(e.EnvironmentOf(stage), run, ""), guards);
    ThenStep(e, Init(now), created, Bind(0));
    s' := Apply(e, created, Bind(0));
  }

  /** It gets its allocation. */
  lemma Allocates(e: Episode, now: string, s: State, stage: Stage, guards: nat, run: string) returns (s': State)
    requires Reaches(e, Init(now), s) && s.lock.None?
    requires At(s, 0) == Waiting(stage, ExecutionRef(e.EnvironmentOf(stage), run, ""), guards)
    requires run in s.runs && s.runs[run] == Run(stage, e.EnvironmentOf(stage), "", None, false, false)
    ensures Reaches(e, Init(now), s') && s'.lock.None? && s'.disk == s.disk
    ensures At(s', 0) == Allocated(stage, ExecutionRef(e.EnvironmentOf(stage), run, "a"), guards)
    ensures s'.runs == s.runs[run := Run(stage, e.EnvironmentOf(stage), "a", None, false, false)]
  {
    hide Reaches;
    ThenStep(e, Init(now), s, Allocate(run, "a"));
    var placed := Apply(e, s, Allocate(run, "a"));
    ThenStep(e, Init(now), placed, WaitRunning(0));
    s' := Apply(e, placed, WaitRunning(0));
  }

  /** It is bound again and released. */
  lemma Releases(e: Episode, now: string, s: State, stage: Stage, guards: nat, run: string) returns (s': State)
    requires Reaches(e, Init(now), s) && s.lock.None? && s.disk.phase == RunningPhase(stage)
    requires At(s, 0) == Allocated(stage, ExecutionRef(e.EnvironmentOf(stage), run, "a"), guards)
    requires s.disk.Bound(stage) == Some(ExecutionRef(e.EnvironmentOf(stage), run, ""))
    requires stage.Verification? ==> s.disk.inference.Some? && s.disk.inference.value.run != run
    requires run in s.runs && s.runs[run] == Run(stage, e.EnvironmentOf(stage), "a", None, false, false)
    ensures Reaches(e, Init(now), s') && s'.lock.None?
    ensures At(s', 0) == Observing(stage, ExecutionRef(e.EnvironmentOf(stage), run, "a"), guards)
    ensures s'.runs == s.runs[run := Run(stage, e.EnvironmentOf(stage), "a", None, true, false)]
    ensures s'.disk == Records.WithBound(s.disk, stage, ExecutionRef(e.EnvironmentOf(stage), run, "a"))
  {
    hide Reaches;
    ThenStep(e, Init(now), s, Bind(0));
    var bound := Apply(e, s, Bind(0));
    assert At(bound, 0) == Preparing(stage, ExecutionRef(e.EnvironmentOf(stage), run, "a"), guards);
    ThenStep(e, Init(now), bound, WriteMarker(0, true, true));
    s' := Apply(e, bound, WriteMarker(0, true, true));
  }

  /** It exits with status 0. */
  lemma Ends(e: Episode, now: string, s: State, stage: Stage, guards: nat, run: string) returns (s': State)
    requires Reaches(e, Init(now), s) && s.lock.None?
    requires At(s, 0) == Observing(stage, ExecutionRef(e.EnvironmentOf(stage), run, "a"), guards)
    requires run in s.runs && s.runs[run] == Run(stage, e.EnvironmentOf(stage), "a", None, true, false)
    ensures Reaches(e, Init(now), s') && s'.lock.None? && s'.disk == s.disk
    ensures At(s', 0) == Holding(stage, ExecutionRef(e.EnvironmentOf(stage), run, "a"), 0, guards)
    ensures s'.runs.Keys == s.runs.Keys
  {
    hide Reaches;
    ThenStep(e, Init(now), s, Exit(run, 0));
    var ended := Apply(e, s, Exit(run, 0));
    ThenStep(e, Init(now), ended, WaitRun(0));
    s' := Apply(e, ended, WaitRun(0));
  }

  lemma Executes(e: Episode, now: string, s: State, stage: Stage, guards: nat, run: string) returns (s': State)
    requires Planned(e, now, s, stage, guards) && run !in s.runs
    requires stage.Verification? ==> s.disk.inference.Some? && s.disk.inference.value.run != run
    ensures Reaches(e, Init(now), s') && s'.lock.None? && s'.runs.Keys == s.runs.Keys + {run}
    ensures At(s', 0) == Holding(stage, ExecutionRef(e.EnvironmentOf(stage), run, "a"), 0, guards)
    ensures s'.disk == Records.WithBound(s.disk, stage, ExecutionRef(e.EnvironmentOf(stage), run, "a"))
  {
    hide Reaches, At, Apply, Trace;
    var created := Creates(e, now, s, stage, guards, run);
    var placed := Allocates(e, now, created, stage, guards, run);
    var released := Releases(e, now, placed, stage, guards, run);
    s' := Ends(e, now, released, stage, guards, run);
  }

  /** The candidate is committed. */
  lemma CommitsCandidate(e: Episode, now: string, candidate: Digest<CandidateManifest>) returns (s': State)
    ensures Reaches(e, Init(now), s') && s'.lock.None? && At(s', 0) == Delivering(1)
    ensures s'.disk.phase.CandidateReady? && s'.disk.verification.None?
    ensures s'.disk.inference == Some(ExecutionRef(e.EnvironmentOf(Inference), "i", "a")) && s'.runs.Keys == {"i"}
    ensures s'.disk.candidateDigest == s'.disk.candidateManifest == candidate && s'.disk.qualificationResult == ""
  {
    assert Trace(e, Init(now), []) == Init(now);
    assert Reaches(e, Init(now), Init(now));
    ThenStep(e, Init(now), Init(now), StartRun(0));
    var started := DoStartRun(Init(now), 0);
    var held := Executes(e, now, started, Inference, 1, "i");
    s' := Delivers(e, now, held, candidate);
  }

  lemma Delivers(e: Episode, now: string, s: State, candidate: Digest<CandidateManifest>) returns (s': State)
    requires Reaches(e, Init(now), s) && s.lock.None? && s.disk.phase.InferenceRunning?
    requires At(s, 0) == Holding(Inference, ExecutionRef(e.EnvironmentOf(Inference), "i", "a"), 0, 1)
    requires s.disk.inference == Some(ExecutionRef(e.EnvironmentOf(Inference), "i", "a"))
    ensures Reaches(e, Init(now), s') && s'.lock.None? && At(s', 0) == Delivering(1)
    ensures s'.disk.phase.CandidateReady? && s'.disk.verification == s.disk.verification && s'.runs == s.runs
    ensures s'.disk.inference == s.disk.inference && s'.disk.qualificationResult == s.disk.qualificationResult
    ensures s'.disk.candidateDigest == s'.disk.candidateManifest == candidate
  {
    hide Reaches;
    ThenStep(e, Init(now), s, CommitCandidate(0, candidate, None));
    s' := DoCommitCandidate(e, s, 0, candidate, None);
  }

  /** Verification of the candidate begins. */
  lemma Commits(e: Episode, now: string, candidate: Digest<CandidateManifest>) returns (s': State)
    ensures Planned(e, now, s', Verification, 2)
    ensures s'.disk.inference == Some(ExecutionRef(e.EnvironmentOf(Inference), "i", "a"))
    ensures s'.disk.candidateDigest == s'.disk.candidateManifest == candidate && s'.runs.Keys == {"i"}
    ensures s'.disk.qualificationResult == ""
  {
    var committed := CommitsCandidate(e, now, candidate);
    hide Reaches;
    ThenStep(e, Init(now), committed, BeginVerification(0));
    s' := DoBeginVerification(committed, 0);
  }

  /** One caller that nothing disturbs completes the episode with any verdict on any candidate. */
  lemma UndisturbedCompletes(e: Episode, now: string, candidate: Digest<CandidateManifest>, verdict: VerificationResult)
    returns (s: State)
    requires verdict.candidateDigest == candidate && verdict.verifier == e.verifier
    ensures Reaches(e, Init(now), s)
    ensures s.disk.phase.Completed? && s.disk.verificationResult == s.disk.verificationResultDigest == Sha(verdict)
    ensures s.disk.candidateDigest == s.disk.candidateManifest == candidate && s.disk.qualificationResult == ""
    ensures s.disk.inference == Some(ExecutionRef(e.EnvironmentOf(Inference), "i", "a"))
    ensures s.disk.verification == Some(ExecutionRef(e.EnvironmentOf(Verification), "v", "a"))
  {
    hide Reaches, Trace;
    var planned := Commits(e, now, candidate);
    var held := Executes(e, now, planned, Verification, 2, "v");
    s := DoFinish(e, held, 0, verdict, now);
    assert Apply(e, held, Finish(0, verdict, now)) == s;
    hide Apply;
    ThenStep(e, Init(now), held, Finish(0, verdict, now));
  }
}
