/** Which episodes nobody can carry further once their callers are gone. */
module EpisodeLost {
  import opened Models
  import opened EpisodeProtocol
  import opened EpisodeSafety
  import opened EpisodeRecovery
  import Records = EpisodeRecords

  /** The caller may still bind or release the Run of the stage. */
  predicate Binds(a: Activity, stage: Stage) {
    match a
    case Planning(k, _) => k == stage
    case Created(k, _, _) => k == stage
    case Waiting(k, _, _) => k == stage
    case Allocated(k, _, _) => k == stage
    case Preparing(k, _, _) => k == stage
    case _ => false
  }

  /** An inference Run that did not succeed, and cannot any more. */
  predicate Useless(run: Run) {
    if run.exit.Some? then run.exit != Some(0) else !run.released
  }

  /** The stage runs without a Run, or with a useless one, and no caller is about to change that. */
  ghost predicate Lost(s: State, stage: Stage) {
    && s.disk.phase == RunningPhase(stage)
    && (forall c :: !Binds(At(s, c), stage))
    && match s.disk.Bound(stage)
       case None => true
       case Some(x) => stage.Inference? && x.run in s.runs && s.runs[x.run].stage.Inference? && Useless(s.runs[x.run])
  }

  predicate Given(phase: Phase) {
    phase.Failed? || phase.Cancelled?
  }

  /** What a step has to leave alone for the stage to stay lost. */
  ghost predicate LeavesLost(s: State, s': State, stage: Stage) {
    && s'.disk.phase == s.disk.phase && s'.disk.Bound(stage) == s.disk.Bound(stage)
    && (forall c :: Binds(At(s', c), stage) ==> Binds(At(s, c), stage))
    && forall run | run in s.runs && s.runs[run].stage == stage && Useless(s.runs[run]) ::
         run in s'.runs && s'.runs[run].stage == stage && Useless(s'.runs[run])
  }

  lemma LostPhase(s: State, stage: Stage)
    requires Lost(s, stage)
    ensures s.disk.phase == RunningPhase(stage)
  {
  }

  lemma StaysLost(s: State, s': State, stage: Stage)
    requires Lost(s, stage) && LeavesLost(s, s', stage)
    ensures Lost(s', stage)
  {
  }

  /** A caller that was not binding the stage moves on without binding it, and nothing else changes. */
  lemma MoveLeaves(s: State, c: Caller, a: Activity, stage: Stage)
    requires !Binds(a, stage)
    ensures LeavesLost(s, Move(s, c, a), stage)
  {
  }

  lemma LeavesTwice(s: State, s': State, s'': State, stage: Stage)
    requires LeavesLost(s, s', stage) && LeavesLost(s', s'', stage)
    ensures LeavesLost(s, s'', stage)
  {
  }

  /** The record is saved by a section that keeps phase and binding. */
  lemma DiskLeaves(s: State, r: EpisodeRecord, stage: Stage)
    requires r.phase == s.disk.phase && r.Bound(stage) == s.disk.Bound(stage)
    ensures LeavesLost(s, s.(disk := r), stage)
  {
  }

  // ------------------------------------------------------------------ step by step

  /** A step that only moves its caller. */
  ghost predicate Moves(s: State, s': State, c: Caller, stage: Stage) {
    s' == s || (s' == Move(s, c, At(s', c)) && !Binds(At(s', c), stage))
  }

  lemma MovesLeave(s: State, s': State, c: Caller, stage: Stage)
    requires Moves(s, s', c, stage)
    ensures LeavesLost(s, s', stage)
  {
    if s' != s { MoveLeaves(s, c, At(s', c), stage); }
  }

  lemma Movers(s: State, c: Caller, stage: Stage)
    requires !Binds(At(s, c), stage)
    ensures Moves(s, DoWaitRunning(s, c), c, stage) && Moves(s, DoWaitRun(s, c), c, stage)
    ensures Moves(s, DoStartRecovery(s, c), c, stage) && Moves(s, DoReadRun(s, c), c, stage)
    ensures Moves(s, DoLoadCandidate(s, c, true), c, stage) && Moves(s, DoLoadCandidate(s, c, false), c, stage)
    ensures Moves(s, DoQueryRun(s, c), c, stage)
  {
  }

  lemma StartRunLeaves(s: State, c: Caller, stage: Stage)
    requires s.disk.phase == RunningPhase(stage)
    ensures DoStartRun(s, c) == s
  {
  }

  lemma CreateRunLeaves(e: Episode, s: State, c: Caller, run: string, made: bool, answered: bool, stage: Stage)
    requires !Binds(At(s, c), stage)
    ensures LeavesLost(s, DoCreateRun(e, s, c, run, made, answered), stage)
  {
  }

  lemma RequestLeaves(s: State, run: string, landed: bool, stage: Stage)
    ensures LeavesLost(s, RequestCancel(s, run, landed), stage)
  {
  }

  lemma CancelRejectedLeaves(s: State, c: Caller, landed: bool, stage: Stage)
    ensures LeavesLost(s, DoCancelRejected(s, c, landed), stage)
  {
    var a := At(s, c);
    if a.Rejected? {
      var s' := RequestCancel(s, a.x.run, landed);
      RequestLeaves(s, a.x.run, landed, stage);
      MoveLeaves(s', c, Unwinding(a.stage, a.x, a.guards, RecoveryRequired), stage);
      hide LeavesLost, RequestCancel;
      LeavesTwice(s, s', DoCancelRejected(s, c, landed), stage);
    }
  }

  lemma CancelUnreleasedLeaves(s: State, c: Caller, closed: bool, landed: bool, answered: bool, stage: Stage)
    ensures LeavesLost(s, DoCancelUnreleased(s, c, closed, landed, answered), stage)
  {
    var a := At(s, c);
    if a.Unwinding? && (answered ==> landed) {
      var s' := RequestCancel(s, a.x.run, landed);
      RequestLeaves(s, a.x.run, landed, stage);
      var s'' := DoCancelUnreleased(s, c, closed, landed, answered);
      MoveLeaves(s', c, At(s'', c), stage);
      hide LeavesLost, RequestCancel;
      LeavesTwice(s, s', s'', stage);
    }
  }

  lemma AskCancelLeaves(s: State, c: Caller, landed: bool, answered: bool, stage: Stage)
    ensures LeavesLost(s, DoAskCancel(s, c, landed, answered), stage)
  {
    var a := At(s, c);
    if a.Asking? && (answered ==> landed) {
      var s' := RequestCancel(s, a.x.run, landed);
      RequestLeaves(s, a.x.run, landed, stage);
      if answered {
        MoveLeaves(s', c, Ending(Some(a.x)), stage);
      } else {
        ThrowLeaves(s', c, Infrastructure, stage);
      }
      hide LeavesLost, RequestCancel;
      LeavesTwice(s, s', DoAskCancel(s, c, landed, answered), stage);
    }
  }

  lemma BeginCancelLeaves(s: State, c: Caller, stage: Stage)
    ensures LeavesLost(s, DoBeginCancel(s, c), stage)
  {
  }

  /** A caller of the other stage binds in vain, and releases another Run. */
  lemma BindLeaves(e: Episode, s: State, c: Caller, stage: Stage)
    requires Lost(s, stage)
    ensures LeavesLost(s, DoBind(e, s, c), stage)
  {
    assert !Binds(At(s, c), stage);
  }

  lemma MarkerLeaves(e: Episode, s: State, c: Caller, landed: bool, answered: bool, stage: Stage)
    requires Inv(e, s) && Lost(s, stage)
    ensures LeavesLost(s, DoWriteMarker(s, c, landed, answered), stage)
  {
    assert !Binds(At(s, c), stage);
    assert CallerInv(e, s, c);
    hide Inv;
  }

  lemma ThrowLeaves(s: State, c: Caller, error: Failure, stage: Stage)
    ensures LeavesLost(s, DoThrow(s, c, error), stage) && LeavesLost(s, DoCrash(s, c), stage)
  {
  }

  /** A new record that keeps phase and binding, or gives the episode up. */
  ghost predicate Resigned(s: State, r: EpisodeRecord, stage: Stage) {
    Given(r.phase) || (r.phase == s.disk.phase && r.Bound(stage) == s.disk.Bound(stage))
  }

  lemma SavedLeaves(s: State, r: EpisodeRecord, c: Caller, a: Activity, stage: Stage)
    requires Resigned(s, r, stage) && !Binds(a, stage)
    ensures LeavesLost(s, Move(s.(disk := r), c, a), stage) || Given(r.phase)
  {
    if !Given(r.phase) {
      DiskLeaves(s, r, stage);
      MoveLeaves(s.(disk := r), c, a, stage);
      hide LeavesLost;
      LeavesTwice(s, s.(disk := r), Move(s.(disk := r), c, a), stage);
    }
  }

  lemma HandleLeaves(s: State, c: Caller, now: string, stage: Stage)
    requires Lost(s, stage)
    ensures LeavesLost(s, DoHandleFailure(s, c, now), stage) || Given(DoHandleFailure(s, c, now).disk.phase)
  {
    var a := At(s, c);
    if s.lock.None? && a.Raising? && a.guards > 0 {
      var r := Records.RecordFailure(s.disk, a.error, now).record;
      assert Resigned(s, r, stage);
      hide LeavesLost, Lost, Resigned, Records.RecordFailure;
      SavedLeaves(s, r, c, Raise(a.error, a.guards - 1), stage);
    }
  }

  lemma EndLeaves(s: State, c: Caller, now: string, stage: Stage)
    requires Lost(s, stage)
    ensures LeavesLost(s, DoEndCancel(s, c, now), stage) || Given(DoEndCancel(s, c, now).disk.phase)
  {
    hide LeavesLost;
    DiskLeaves(s, s.disk, stage);
  }

  lemma OtherLeaves(e: Episode, s: State, w: Records.Write, stage: Stage)
    requires Lost(s, stage)
    ensures LeavesLost(s, DoOtherWriter(e, s, w), stage)
  {
    if s.lock.None? && IsOtherWriter(w) {
      DiskLeaves(s, Records.Section(e, s.disk, w).record, stage);
    } else {
      DiskLeaves(s, s.disk, stage);
    }
    hide LeavesLost;
  }

  lemma RecordingLeaves(e: Episode, s: State, step: Step, stage: Stage)
    requires Lost(s, stage) && (step.HandleFailure? || step.EndCancel? || step.OtherWriter?)
    ensures LeavesLost(s, Apply(e, s, step), stage) || Given(Apply(e, s, step).disk.phase)
  {
    hide LeavesLost, Lost, Apply, Trace, DoHandleFailure, DoEndCancel, DoOtherWriter;
    RecordersAre(e, s, step);
    match step
    case HandleFailure(c, now) => HandleLeaves(s, c, now, stage);
    case EndCancel(c, now) => EndLeaves(s, c, now, stage);
    case OtherWriter(w) => OtherLeaves(e, s, w, stage);
  }

  lemma RecordersAre(e: Episode, s: State, step: Step)
    ensures step.HandleFailure? ==> Apply(e, s, step) == DoHandleFailure(s, step.c, step.now)
    ensures step.EndCancel? ==> Apply(e, s, step) == DoEndCancel(s, step.c, step.now)
    ensures step.OtherWriter? ==> Apply(e, s, step) == DoOtherWriter(e, s, step.w)
  {
    hide Trace, DoHandleFailure, DoEndCancel, DoOtherWriter;
  }

  /** A result of the lost stage is refused, or ends the episode. */
  lemma RejectLeaves(e: Episode, s: State, c: Caller, code: string, message: string, now: string, error: Failure,
                     stage: Stage)
    requires Lost(s, stage)
    ensures
      var s' := DoRejectStage(e, s, c, code, message, now, error);
      LeavesLost(s, s', stage) || Given(s'.disk.phase)
  {
    var a := At(s, c);
    if s.lock.None? && a.Holding? && !(a.stage.Inference? && a.exit == 0) {
      var o := Records.FailStage(e, s.disk, a.stage, a.x, code, message, now);
      assert Resigned(s, o.record, stage);
      hide LeavesLost, Lost, Resigned, Records.FailStage;
      SavedLeaves(s, o.record, c, Raise(if o.raised.Some? then o.raised.value else error, a.guards), stage);
    }
  }

  lemma CommitLeaves(e: Episode, s: State, c: Caller, candidate: Digest<CandidateManifest>,
                     trajectory: Option<(string, string, string)>, stage: Stage)
    requires Inv(e, s) && Lost(s, stage)
    ensures
      var s' := DoCommitCandidate(e, s, c, candidate, trajectory);
      LeavesLost(s, s', stage) || Given(s'.disk.phase)
  {
    var a := At(s, c);
    assert CallerInv(e, s, c);
    hide Inv;
    if s.lock.None? && a.Holding? && a.stage.Inference? && a.exit == 0 {
      var o := Records.CommitCandidate(e, s.disk, a.x, candidate, trajectory);
      assert o.record == s.disk && o.raised.Some?;
      hide LeavesLost, Lost, Records.CommitCandidate;
      SavedLeaves(s, o.record, c, Raise(o.raised.value, a.guards), stage);
    }
  }

  lemma FinishLeaves(e: Episode, s: State, c: Caller, verdict: VerificationResult, now: string, stage: Stage)
    requires Lost(s, stage)
    ensures
      var s' := DoFinish(e, s, c, verdict, now);
      LeavesLost(s, s', stage) || Given(s'.disk.phase)
  {
    var a := At(s, c);
    if s.lock.None? && a.Holding? && a.stage.Verification? {
      var o := Records.Finish(e, s.disk, a.x, verdict, false, now);
      assert o.record == s.disk && o.raised.Some?;
      hide LeavesLost, Lost, Records.Finish;
      SavedLeaves(s, o.record, c, Raise(o.raised.value, a.guards), stage);
    }
  }

  lemma BeginLeaves(s: State, c: Caller, stage: Stage)
    requires Lost(s, stage)
    ensures LeavesLost(s, DoBeginVerification(s, c), stage)
  {
    if s.lock.None? && At(s, c).Delivering? {
      MoveLeaves(s, c, Raise(RecoveryRequired, At(s, c).guards), stage);
    }
  }

  lemma AxernLeaves(e: Episode, s: State, step: Step, stage: Stage)
    requires step.Allocate? || step.Exit?
    ensures LeavesLost(s, Apply(e, s, step), stage)
  {
    hide Trace;
    match step
    case Allocate(run, allocation) =>
    case Exit(run, status) =>
  }

  lemma OthersAre(e: Episode, s: State, step: Step)
    ensures step.StartRun? ==> Apply(e, s, step) == DoStartRun(s, step.c)
    ensures step.CreateRun? ==> Apply(e, s, step) == DoCreateRun(e, s, step.c, step.run, step.made, step.answered)
    ensures step.Bind? ==> Apply(e, s, step) == DoBind(e, s, step.c)
    ensures step.CancelRejected? ==> Apply(e, s, step) == DoCancelRejected(s, step.c, step.landed)
    ensures step.WaitRunning? ==> Apply(e, s, step) == DoWaitRunning(s, step.c)
    ensures step.WriteMarker? ==> Apply(e, s, step) == DoWriteMarker(s, step.c, step.landed, step.answered)
    ensures step.WaitRun? ==> Apply(e, s, step) == DoWaitRun(s, step.c)
    ensures step.Throw? ==> Apply(e, s, step) == DoThrow(s, step.c, step.error)
    ensures step.CancelUnreleased? ==>
              Apply(e, s, step) == DoCancelUnreleased(s, step.c, step.closed, step.landed, step.answered)
    ensures step.RejectStage? ==>
              Apply(e, s, step) == DoRejectStage(e, s, step.c, step.code, step.message, step.now, step.error)
    ensures step.Crash? ==> Apply(e, s, step) == DoCrash(s, step.c)
  {
    hide Trace, DoStartRun, DoCreateRun, DoBind, DoCancelRejected, DoWaitRunning, DoWriteMarker, DoWaitRun, DoThrow,
      DoCancelUnreleased, DoRejectStage, DoCrash;
  }

  /** Steps that stand for calls to Axern, or that move the caller. */
  lemma CallLeaves(e: Episode, s: State, step: Step, stage: Stage)
    requires Inv(e, s) && Lost(s, stage)
    requires step.StartRun? || step.CreateRun? || step.Bind? || step.CancelRejected? || step.WaitRunning?
             || step.WriteMarker? || step.WaitRun? || step.Throw? || step.CancelUnreleased? || step.Crash?
    ensures LeavesLost(s, Apply(e, s, step), stage)
  {
    assert !Binds(At(s, step.c), stage);
    hide Inv, LeavesLost, Apply, Trace, Moves, Lost, DoCreateRun, DoBind, DoCancelRejected, DoWaitRunning,
      DoWriteMarker, DoWaitRun, DoThrow, DoCancelUnreleased, DoCrash;
    OthersAre(e, s, step);
    match step
    case StartRun(c) => LostPhase(s, stage); StartRunLeaves(s, c, stage); DiskLeaves(s, s.disk, stage);
    case CreateRun(c, run, made, answered) => CreateRunLeaves(e, s, c, run, made, answered, stage);
    case Bind(c) => BindLeaves(e, s, c, stage);
    case CancelRejected(c, landed) => CancelRejectedLeaves(s, c, landed, stage);
    case WaitRunning(c) => Movers(s, c, stage); MovesLeave(s, DoWaitRunning(s, c), c, stage);
    case WriteMarker(c, landed, answered) => MarkerLeaves(e, s, c, landed, answered, stage);
    case WaitRun(c) => Movers(s, c, stage); MovesLeave(s, DoWaitRun(s, c), c, stage);
    case Throw(c, error) => ThrowLeaves(s, c, error, stage);
    case CancelUnreleased(c, closed, landed, answered) => CancelUnreleasedLeaves(s, c, closed, landed, answered, stage);
    case Crash(c) => ThrowLeaves(s, c, Infrastructure, stage);
  }

  lemma RecoveryLeaves(e: Episode, s: State, step: Step, stage: Stage)
    requires (step.StartRecovery? || step.LoadCandidate? || step.ReadRun?) && !Binds(At(s, step.c), stage)
    ensures LeavesLost(s, Apply(e, s, step), stage)
  {
    hide LeavesLost, Apply, Trace, Moves, DoStartRecovery, DoLoadCandidate, DoReadRun;
    StepIs(e, s, step);
    Movers(s, step.c, stage);
    match step
    case StartRecovery(c) => MovesLeave(s, DoStartRecovery(s, c), c, stage);
    case LoadCandidate(c, ok) => MovesLeave(s, DoLoadCandidate(s, c, ok), c, stage);
    case ReadRun(c) => MovesLeave(s, DoReadRun(s, c), c, stage);
  }

  lemma CancellingLeaves(e: Episode, s: State, step: Step, stage: Stage)
    requires (step.BeginCancel? || step.QueryRun? || step.AskCancel?) && !Binds(At(s, step.c), stage)
    ensures LeavesLost(s, Apply(e, s, step), stage)
  {
    hide LeavesLost, Apply, Trace, Moves, DoBeginCancel, DoQueryRun, DoAskCancel;
    StepIs(e, s, step);
    match step
    case BeginCancel(c) => BeginCancelLeaves(s, c, stage);
    case QueryRun(c) => Movers(s, c, stage); MovesLeave(s, DoQueryRun(s, c), c, stage);
    case AskCancel(c, landed, answered) => AskCancelLeaves(s, c, landed, answered, stage);
  }

  lemma StepLeaves(e: Episode, s: State, step: Step, stage: Stage)
    requires Inv(e, s) && Lost(s, stage)
    ensures LeavesLost(s, Apply(e, s, step), stage) || Given(Apply(e, s, step).disk.phase)
  {
    if !step.OtherWriter? && !step.Allocate? && !step.Exit? { assert !Binds(At(s, step.c), stage); }
    hide Inv, Lost, LeavesLost, Apply, Trace;
    match step
    case HandleFailure(_, _) => RecordingLeaves(e, s, step, stage);
    case EndCancel(_, _) => RecordingLeaves(e, s, step, stage);
    case OtherWriter(_) => RecordingLeaves(e, s, step, stage);
    case RejectStage(c, code, message, now, error) =>
      OthersAre(e, s, step);
      RejectLeaves(e, s, c, code, message, now, error, stage);
    case CommitCandidate(c, candidate, trajectory) =>
      StepIs(e, s, step);
      CommitLeaves(e, s, c, candidate, trajectory, stage);
    case BeginVerification(c) => StepIs(e, s, step); BeginLeaves(s, c, stage);
    case Finish(c, verdict, now) => StepIs(e, s, step); FinishLeaves(e, s, c, verdict, now, stage);
    case StartRecovery(_) => RecoveryLeaves(e, s, step, stage);
    case LoadCandidate(_, _) => RecoveryLeaves(e, s, step, stage);
    case ReadRun(_) => RecoveryLeaves(e, s, step, stage);
    case BeginCancel(_) => CancellingLeaves(e, s, step, stage);
    case QueryRun(_) => CancellingLeaves(e, s, step, stage);
    case AskCancel(_, _, _) => CancellingLeaves(e, s, step, stage);
    case Allocate(_, _) => AxernLeaves(e, s, step, stage);
    case Exit(_, _) => AxernLeaves(e, s, step, stage);
    case _ => CallLeaves(e, s, step, stage);
  }

  // ------------------------------------------------------------------ for good

  lemma {:induction false} LostForGood(e: Episode, s: State, steps: seq<Step>, stage: Stage)
    requires Inv(e, s) && (Lost(s, stage) || Given(s.disk.phase))
    ensures Lost(Trace(e, s, steps), stage) || Given(Trace(e, s, steps).disk.phase)
    decreases |steps|
  {
    hide Inv, Lost;
    if |steps| > 0 {
      var s' := Apply(e, s, steps[0]);
      if Given(s.disk.phase) {
        GivenStays(e, s, steps[0]);
      } else {
        StepLeaves(e, s, steps[0], stage);
        if LeavesLost(s, s', stage) { StaysLost(s, s', stage); }
      }
      StepKeeps(e, s, steps[0]);
      LostForGood(e, s', steps[1..], stage);
    }
  }

  lemma GivenStays(e: Episode, s: State, step: Step)
    requires Inv(e, s) && Given(s.disk.phase)
    ensures Apply(e, s, step).disk == s.disk
  {
    StepAdvances(e, s, step);
    hide Apply;
  }

  ghost predicate Idle(s: State) {
    s.lock.None? && forall c :: At(s, c).Idle?
  }

  ghost predicate CanReach(e: Episode, s: State, phase: Phase) {
    exists steps: seq<Step> :: Trace(e, s, steps).disk.phase == phase
  }

  /** The inference Run can still be read back as a success. */
  ghost predicate Promising(s: State) {
    Outlives(s, Inference) && !Useless(s.runs[s.disk.inference.value.run])
  }

  lemma IdleIsLost(e: Episode, s: State)
    requires Inv(e, s) && Idle(s)
    ensures s.disk.phase.InferenceRunning? && !Promising(s) ==> Lost(s, Inference)
    ensures s.disk.phase.VerificationRunning? && !Outlives(s, Verification) ==> Lost(s, Verification)
  {
    if s.disk.inference.Some? { BoundIsKnown(e, s, Inference); }
    if s.disk.verification.Some? { BoundIsKnown(e, s, Verification); }
  }

  /**
   * When all callers of a running inference are gone, the episode can reach candidate_ready exactly if its
   * Run is on record and has succeeded, or was released and still runs.
   */
  lemma InferenceRecoversIff(e: Episode, s: State)
    requires Reachable(e, s) && Idle(s) && s.disk.phase.InferenceRunning?
    ensures CanReach(e, s, CandidateReady) <==> Promising(s)
  {
    ReachableInv(e, s);
    if Promising(s) {
      var s' := FinishesInference(e, s);
    } else {
      IdleIsLost(e, s);
      hide Inv, Lost;
      forall steps: seq<Step> ensures !Trace(e, s, steps).disk.phase.CandidateReady? {
        LostForGood(e, s, steps, Inference);
        if Lost(Trace(e, s, steps), Inference) { LostPhase(Trace(e, s, steps), Inference); }
      }
    }
  }

  lemma FinishesInference(e: Episode, s: State) returns (s': State)
    requires Reachable(e, s) && Idle(s) && s.disk.phase.InferenceRunning? && Promising(s)
    ensures Leads(e, s, s') && s'.disk.phase.CandidateReady? && CanReach(e, s, CandidateReady)
  {
    hide Reachable, Leads, Trace, Apply;
    var run := s.disk.inference.value.run;
    var ended := s;
    var steps: seq<Step> := [];
    Stays(e, s);
    if s.runs[run].exit.None? {
      StepIs(e, s, Exit(run, 0));
      Then(e, s, s, Exit(run, 0));
      ended := DoExit(s, run, 0);
    }
    assert At(s, 0).Idle? && At(ended, 0) == At(s, 0);
    LeadsReaches(e, s, ended);
    var recovered := InferenceRecovers(e, ended, 0, NoDigest, None);
    s' := recovered;
    LeadsTwice(e, s, ended, s');
    LeadsCan(e, s, s');
  }

  lemma LeadsReaches(e: Episode, s: State, s': State)
    requires Reachable(e, s) && Leads(e, s, s')
    ensures Reachable(e, s')
  {
    var now: string, before: seq<Step> :| s == Trace(e, Init(now), before);
    var steps: seq<Step> :| (forall step | step in steps :: Continues(step)) && Trace(e, s, steps) == s';
    TraceJoins(e, Init(now), before, steps);
  }

  lemma LeadsTwice(e: Episode, s: State, s': State, s'': State)
    requires Leads(e, s, s') && Leads(e, s', s'')
    ensures Leads(e, s, s'')
  {
    var xs: seq<Step> :| (forall step | step in xs :: Continues(step)) && Trace(e, s, xs) == s';
    var ys: seq<Step> :| (forall step | step in ys :: Continues(step)) && Trace(e, s', ys) == s'';
    TraceJoins(e, s, xs, ys);
    assert forall step | step in xs + ys :: Continues(step);
  }

  lemma LeadsCan(e: Episode, s: State, s': State)
    requires Leads(e, s, s')
    ensures CanReach(e, s, s'.disk.phase)
  {
  }

  lemma {:induction false} TraceJoins(e: Episode, s: State, xs: seq<Step>, ys: seq<Step>)
    ensures Trace(e, s, xs + ys) == Trace(e, Trace(e, s, xs), ys)
    decreases |xs|
  {
    hide Apply;
    if |xs| == 0 {
      assert xs + ys == ys;
    } else {
      assert (xs + ys)[1..] == xs[1..] + ys;
      TraceJoins(e, Apply(e, s, xs[0]), xs[1..], ys);
    }
  }

  /** When all callers of a running verification are gone, it can be completed exactly if its Run is on record. */
  lemma VerificationRecoversIff(e: Episode, s: State)
    requires Reachable(e, s) && Idle(s) && s.disk.phase.VerificationRunning?
    ensures CanReach(e, s, Completed) <==> s.disk.verification.Some?
  {
    ReachableInv(e, s);
    if s.disk.verification.Some? {
      BoundIsKnown(e, s, Verification);
      FinishesVerification(e, s);
    } else {
      IdleIsLost(e, s);
      hide Inv, Lost;
      forall steps: seq<Step> ensures !Trace(e, s, steps).disk.phase.Completed? {
        LostForGood(e, s, steps, Verification);
        if Lost(Trace(e, s, steps), Verification) { LostPhase(Trace(e, s, steps), Verification); }
      }
    }
  }

  lemma FinishesVerification(e: Episode, s: State)
    requires Reachable(e, s) && Idle(s) && Outlives(s, Verification)
    ensures CanReach(e, s, Completed)
  {
    hide Reachable, Leads, Trace, Apply;
    var run := s.disk.verification.value.run;
    var ended := s;
    Stays(e, s);
    if s.runs[run].exit.None? {
      StepIs(e, s, Exit(run, 1));
      Then(e, s, s, Exit(run, 1));
      ended := DoExit(s, run, 1);
    }
    assert At(s, 0).Idle? && At(ended, 0) == At(s, 0);
    LeadsReaches(e, s, ended);
    var verdict := VerificationResult(s.disk.candidateDigest, e.verifier, "", "", 0.0, "");
    var s' := VerificationRecovers(e, ended, 0, verdict, "");
    LeadsTwice(e, s, ended, s');
    LeadsCan(e, s, s');
  }
}
