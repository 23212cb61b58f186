/** Where the runs of the protocol leave the documented phase diagram. */
module EpisodePhases {
  import opened Models
  import opened EpisodeProtocol
  import opened EpisodeSafety
  import Completion = EpisodeCompletion
  import Records = EpisodeRecords

  // ------------------------------------------------------------------ which steps leave it

  /** While the record is new, callers do nothing but cancel. */
  ghost predicate Untouched(s: State) {
    s.disk.phase.New? ==> forall c :: At(s, c).Idle? || InCancel(At(s, c))
  }

  lemma SectionStaysNew(e: Episode, r: EpisodeRecord, w: Records.Write)
    requires Records.Section(e, r, w).record.phase.New?
    ensures r.phase.New?
  {
  }

  lemma StaysNew(e: Episode, s: State, step: Step)
    requires Apply(e, s, step).disk.phase.New?
    ensures s.disk.phase.New?
  {
    hide Apply;
    StepIsSection(e, s, step);
    if Apply(e, s, step).disk != s.disk {
      var w :| Apply(e, s, step).disk == Records.Section(e, s.disk, w).record;
      SectionStaysNew(e, s.disk, w);
    }
  }

  lemma StepUntouched(e: Episode, s: State, step: Step)
    requires Untouched(s)
    ensures Untouched(Apply(e, s, step))
  {
    var s' := Apply(e, s, step);
    if s'.disk.phase.New? {
      StaysNew(e, s, step);
      forall c ensures At(s', c).Idle? || InCancel(At(s', c)) {
        assert At(s, c).Idle? || InCancel(At(s, c));
        if !step.OtherWriter? && !step.Allocate? && !step.Exit? {
          assert At(s, step.c).Idle? || InCancel(At(s, step.c));
          ActorUntouched(e, s, step, c);
        }
      }
    }
  }

  lemma ActorUntouched(e: Episode, s: State, step: Step, c: Caller)
    requires !step.OtherWriter? && !step.Allocate? && !step.Exit?
    requires Apply(e, s, step).disk.phase.New? && s.disk.phase.New?
    requires At(s, c).Idle? || InCancel(At(s, c))
    requires At(s, step.c).Idle? || InCancel(At(s, step.c))
    ensures At(Apply(e, s, step), c).Idle? || InCancel(At(Apply(e, s, step), c))
  {
    hide Records.CommitCandidate, Records.Finish, Records.Bind, Records.FailStage, Records.RecordFailure,
      Records.StartVerification, Records.Section, Trace, DoOtherWriter, DoAllocate, DoExit;
    if OfCancel(step) {
      CancellerUntouched(e, s, step, c);
    }
  }

  predicate OfCancel(step: Step) {
    step.BeginCancel? || step.QueryRun? || step.AskCancel? || step.EndCancel? || step.Throw? || step.Crash?
  }

  lemma CancellerUntouched(e: Episode, s: State, step: Step, c: Caller)
    requires OfCancel(step)
    requires At(s, c).Idle? || InCancel(At(s, c))
    requires At(s, step.c).Idle? || InCancel(At(s, step.c))
    ensures At(Apply(e, s, step), c).Idle? || InCancel(At(Apply(e, s, step), c))
  {
    hide Trace, Records.Cancel, LiveExecution;
    match step
    case BeginCancel(_) =>
    case QueryRun(_) =>
    case AskCancel(_, _, _) =>
    case EndCancel(_, _) =>
    case Throw(_, _) =>
    case Crash(_) =>
  }

  lemma {:induction false} TraceUntouched(e: Episode, s: State, steps: seq<Step>)
    requires Untouched(s)
    ensures Untouched(Trace(e, s, steps))
    decreases |steps|
  {
    hide Untouched;
    if |steps| > 0 {
      StepUntouched(e, s, steps[0]);
      TraceUntouched(e, Apply(e, s, steps[0]), steps[1..]);
    }
  }

  /** A caller accepts the cancellation of an episode that never started. */
  predicate CancelsNew(s: State, step: Step) {
    step.EndCancel? && s.lock == Some(step.c) && At(s, step.c).Ending? && s.disk.phase.New?
  }

  /** A caller records an exception that ends a candidate_ready episode. */
  predicate FailsReady(s: State, step: Step) {
    step.HandleFailure? && s.lock.None? && At(s, step.c).Raising? && At(s, step.c).guards > 0
    && s.disk.phase.CandidateReady? && Records.Ends(At(s, step.c).error)
  }

  /** In every run of the protocol, a step keeps to the diagram exactly unless it is one of these two. */
  lemma StepDrawnIff(e: Episode, s: State, step: Step)
    requires Reachable(e, s)
    ensures
      var before, after := s.disk.phase, Apply(e, s, step).disk.phase;
      (after == before || Records.Drawn(before, after)) <==> !CancelsNew(s, step) && !FailsReady(s, step)
  {
    hide Trace, Reachable, Records.Section, Records.Sound, Untouched;
    ReachableFits(e, s);
    if !TakesRecordLock(step) {
      QuietStep(e, s, step);
    } else if step.OtherWriter? {
      Records.DrawnIff(e, s.disk, step.w);
    } else if step.RejectStage? || step.CommitCandidate? || step.Finish? {
      CommitDrawn(e, s, step);
    } else if step.HandleFailure? || step.EndCancel? {
      EndDrawn(e, s, step);
    } else {
      StartDrawn(e, s, step);
    }
  }

  lemma ReachableFits(e: Episode, s: State)
    requires Reachable(e, s)
    ensures Records.Sound(e, s.disk) && Untouched(s)
  {
    ReachableInv(e, s);
    var now: string, steps: seq<Step> :| s == Trace(e, Init(now), steps);
    TraceUntouched(e, Init(now), steps);
  }

  lemma CommitDrawn(e: Episode, s: State, step: Step)
    requires Records.Sound(e, s.disk) && (step.RejectStage? || step.CommitCandidate? || step.Finish?)
    ensures
      var before, after := s.disk.phase, Apply(e, s, step).disk.phase;
      after == before || Records.Drawn(before, after)
  {
    hide Records.Sound, Records.Drawn;
    var a := At(s, step.c);
    if a.Holding? {
      match step
      case RejectStage(c, code, message, now, error) =>
        Records.DrawnIff(e, s.disk, Records.FailingStage(a.stage, a.x, code, message, now));
      case CommitCandidate(c, candidate, trajectory) =>
        Records.DrawnIff(e, s.disk, Records.CommittingCandidate(a.x, candidate, trajectory));
      case Finish(c, verdict, now) => Records.DrawnIff(e, s.disk, Records.Finishing(a.x, verdict, false, now));
    }
  }

  lemma StartDrawn(e: Episode, s: State, step: Step)
    requires Records.Sound(e, s.disk) && (step.StartRun? || step.Bind? || step.BeginVerification?)
    ensures
      var before, after := s.disk.phase, Apply(e, s, step).disk.phase;
      after == before || Records.Drawn(before, after)
  {
    hide Records.Sound, Records.Drawn, Trace;
    var a := At(s, step.c);
    match step
    case StartRun(c) => Records.DrawnIff(e, s.disk, Records.StartingRun);
    case Bind(c) => if a.Created? || a.Allocated? { Records.DrawnIff(e, s.disk, Records.Binding(a.stage, a.x)); }
    case BeginVerification(c) => Records.DrawnIff(e, s.disk, Records.StartingVerification);
  }

  lemma EndDrawn(e: Episode, s: State, step: Step)
    requires Records.Sound(e, s.disk) && Untouched(s) && (step.HandleFailure? || step.EndCancel?)
    ensures
      var before, after := s.disk.phase, Apply(e, s, step).disk.phase;
      (after == before || Records.Drawn(before, after)) <==> !CancelsNew(s, step) && !FailsReady(s, step)
  {
    hide Records.Sound, Records.Section, Trace;
    var a := At(s, step.c);
    match step
    case HandleFailure(c, now) =>
      if a.Raising? { Records.DrawnIff(e, s.disk, Records.RecordingFailure(a.error, now)); }
    case EndCancel(c, now) => Records.DrawnIff(e, s.disk, Records.Cancelling(now));
  }

  // ------------------------------------------------------------------ both happen

  lemma Next(e: Episode, s: State, step: Step)
    requires Reachable(e, s)
    ensures Reachable(e, Apply(e, s, step))
  {
    var now: string, steps: seq<Step> :| s == Trace(e, Init(now), steps);
    Completion.TraceSnoc(e, Init(now), steps, step);
  }

  lemma InitReachable(e: Episode, now: string)
    ensures Reachable(e, Init(now))
  {
    assert Trace(e, Init(now), []) == Init(now);
  }

  /** An episode is cancelled before it started. */
  lemma NewIsCancelled(e: Episode, now: string) returns (s: State, step: Step)
    ensures Reachable(e, s) && CancelsNew(s, step)
    ensures s.disk.phase.New? && Apply(e, s, step).disk.phase.Cancelled?
  {
    hide Reachable, DoFinish, DoCommitCandidate, DoRejectStage, DoBind, DoCreateRun, DoHandleFailure, DoOtherWriter;
    var begun := DoBeginCancel(Init(now), 0);
    assert Apply(e, Init(now), BeginCancel(0)) == begun;
    InitReachable(e, now);
    Next(e, Init(now), BeginCancel(0));
    s := Queries(e, begun, now);
    step := EndCancel(0, now);
  }

  lemma Queries(e: Episode, s: State, now: string) returns (s': State)
    requires Reachable(e, s) && s.disk == NewRecord(now) && s.lock == Some(0) && At(s, 0) == Querying(None)
    ensures Reachable(e, s') && CancelsNew(s', EndCancel(0, now)) && s'.disk.phase.New?
    ensures Apply(e, s', EndCancel(0, now)).disk.phase.Cancelled?
  {
    hide Reachable, Trace, DoFinish, DoCommitCandidate, DoRejectStage, DoBind, DoCreateRun, DoHandleFailure;
    s' := DoQueryRun(s, 0);
    assert Apply(e, s, QueryRun(0)) == s';
    assert Apply(e, s', EndCancel(0, now)).disk == Records.Cancel(s'.disk, now).record;
    hide Apply;
    Next(e, s, QueryRun(0));
  }

  /** The process dies after the candidate is committed, and the recovery finds a bundle that does not load. */
  lemma ReadyFails(e: Episode, now: string, candidate: Digest<CandidateManifest>) returns (s: State, step: Step)
    ensures Reachable(e, s) && FailsReady(s, step)
    ensures s.disk.phase.CandidateReady? && s.disk.candidateDigest == candidate
    ensures Apply(e, s, step).disk.phase.Failed?
  {
    var committed := Completion.CommitsCandidate(e, now, candidate);
    assert Reachable(e, committed) by { ReachesIsReachable(e, now, committed); }
    hide Reachable, Completion.Reaches;
    s := Recovers(e, committed);
    step := HandleFailure(0, now);
    assert DoHandleFailure(s, 0, now).disk == Records.RecordFailure(s.disk, Contract, now).record;
  }

  lemma Recovers(e: Episode, s: State) returns (s': State)
    requires Reachable(e, s) && s.lock.None? && s.disk.phase.CandidateReady?
    ensures Reachable(e, s') && s'.lock.None? && s'.disk == s.disk && At(s', 0) == Raising(Contract, 1)
  {
    hide Reachable, Trace, DoFinish, DoCommitCandidate, DoRejectStage, DoBind, DoCreateRun, DoHandleFailure;
    var dead := DoCrash(s, 0);
    assert Apply(e, s, Crash(0)) == dead;
    Next(e, s, Crash(0));
    s' := FindsNothing(e, dead);
  }

  lemma FindsNothing(e: Episode, s: State) returns (s': State)
    requires Reachable(e, s) && s.lock.None? && s.disk.phase.CandidateReady? && At(s, 0).Idle?
    ensures Reachable(e, s') && s'.lock.None? && s'.disk == s.disk && At(s', 0) == Raising(Contract, 1)
  {
    hide Reachable, Trace, DoFinish, DoCommitCandidate, DoRejectStage, DoBind, DoCreateRun, DoHandleFailure;
    var recovering := DoStartRecovery(s, 0);
    s' := DoLoadCandidate(recovering, 0, false);
    assert Apply(e, s, StartRecovery(0)) == recovering && Apply(e, recovering, LoadCandidate(0, false)) == s';
    hide Apply;
    Next(e, s, StartRecovery(0));
    Next(e, recovering, LoadCandidate(0, false));
  }

  lemma ReachesIsReachable(e: Episode, now: string, s: State)
    requires Completion.Reaches(e, Init(now), s)
    ensures Reachable(e, s)
  {
  }
}
