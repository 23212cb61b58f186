/** Cancellation succeeds when it is answered, and no created Run is left behind unreleased. */
module EpisodeCleanup {
  import opened Models
  import opened EpisodeProtocol
  import opened EpisodeSafety
  import opened EpisodeRecovery
  import Records = EpisodeRecords

  // ------------------------------------------------------------------ cancelling

  /** The Run that a cancel has to stop, as it is afterwards. */
  ghost predicate Ended(s: State, s': State, x: ExecutionRef) {
    && x.run in s.runs && x.run in s'.runs && Stopped(s'.runs[x.run])
    && (s.runs[x.run].exit.None? ==> s'.runs[x.run].cancelRequested)
    && s'.runs[x.run].exit == s.runs[x.run].exit
  }

  /** Any unfinished episode is cancelled by a caller whose control calls are answered. */
  lemma CancelReaches(e: Episode, s: State, c: Caller, now: string) returns (s': State)
    requires Reachable(e, s) && s.lock.None? && At(s, c).Idle? && !Terminal(s.disk.phase)
    ensures Leads(e, s, s') && s'.lock.None? && s'.disk.phase.Cancelled? && s'.disk.diagnosticCode == "AXRUN_CANCELLED"
    ensures s'.disk.completedAt == now
    ensures s'.disk.inference == s.disk.inference && s'.disk.verification == s.disk.verification
    ensures forall stage | s.disk.phase == RunningPhase(stage) && s.disk.Bound(stage).Some? ::
              Ended(s, s', s.disk.Bound(stage).value)
  {
    TargetKnown(e, s);
    Stays(e, s);
    hide Reachable, Leads, Apply, Trace, Ended;
    StepIs(e, s, BeginCancel(c));
    Then(e, s, s, BeginCancel(c));
    var target := LiveExecution(s.disk);
    var querying := DoBeginCancel(s, c);
    var ending := Stops(e, s, querying, c, target);
    s' := Ends(e, s, ending, c, now);
    if target.Some? { EndedSame(querying, ending, s, s', target.value); }
  }

  lemma Ends(e: Episode, base: State, s: State, c: Caller, now: string) returns (s': State)
    requires Leads(e, base, s) && s.lock == Some(c) && At(s, c).Ending? && !Terminal(s.disk.phase)
    ensures Leads(e, base, s') && s'.lock.None? && s'.runs == s.runs
    ensures s'.disk.phase.Cancelled? && s'.disk.diagnosticCode == "AXRUN_CANCELLED" && s'.disk.completedAt == now
    ensures s'.disk.inference == s.disk.inference && s'.disk.verification == s.disk.verification
  {
    hide Leads, Apply, Trace;
    StepIs(e, s, EndCancel(c, now));
    Then(e, base, s, EndCancel(c, now));
    s' := DoEndCancel(s, c, now);
  }

  lemma EndedSame(s: State, s': State, t: State, t': State, x: ExecutionRef)
    requires Ended(s, s', x) && t.runs == s.runs && t'.runs == s'.runs
    ensures Ended(t, t', x)
  {
  }

  lemma TargetKnown(e: Episode, s: State)
    requires Reachable(e, s)
    ensures LiveExecution(s.disk).Some? ==> LiveExecution(s.disk).value.run in s.runs
    ensures forall stage | s.disk.phase == RunningPhase(stage) :: LiveExecution(s.disk) == s.disk.Bound(stage)
  {
    ReachableInv(e, s);
    if s.disk.inference.Some? { BoundIsKnown(e, s, Inference); }
    if s.disk.verification.Some? { BoundIsKnown(e, s, Verification); }
  }

  lemma Stops(e: Episode, base: State, s: State, c: Caller, target: Option<ExecutionRef>) returns (s': State)
    requires Leads(e, base, s) && At(s, c) == Querying(target) && (target.Some? ==> target.value.run in s.runs)
    ensures Leads(e, base, s') && At(s', c) == Ending(target) && s'.lock == s.lock && s'.disk == s.disk
    ensures target.Some? ==> Ended(s, s', target.value)
  {
    hide Leads, Apply, Trace;
    StepIs(e, s, QueryRun(c));
    Then(e, base, s, QueryRun(c));
    s' := DoQueryRun(s, c);
    if target.Some? && s.runs[target.value.run].exit.None? {
      StepIs(e, s', AskCancel(c, true, true));
      Then(e, base, s', AskCancel(c, true, true));
      s' := DoAskCancel(s', c, true, true);
    }
  }

  // ------------------------------------------------------------------ no Run is left behind

  /** The caller answers for a Run that it has not released. */
  predicate Attends(a: Activity, run: string) {
    match a
    case Created(_, x, _) => x.run == run
    case Waiting(_, x, _) => x.run == run
    case Allocated(_, x, _) => x.run == run
    case Preparing(_, x, _) => x.run == run
    case Rejected(_, x, _) => x.run == run
    case Unwinding(_, x, _, _) => x.run == run
    case _ => false
  }

  ghost predicate Settled(s: State, run: string)
    requires run in s.runs
  {
    s.runs[run].released || s.runs[run].cancelRequested || exists c :: Attends(At(s, c), run)
  }

  /** Every created Run is released, asked to stop, or attended. */
  ghost predicate AllSettled(s: State) {
    forall run | run in s.runs :: Settled(s, run)
  }

  /** No caller dies, and every answer about a Run that is not released arrives. */
  predicate Answered(step: Step) {
    match step
    case Crash(_) => false
    case CreateRun(_, _, made, answered) => made ==> answered
    case CancelUnreleased(_, _, _, answered) => answered
    case _ => true
  }

  /** What another caller's view needs. */
  ghost predicate Keeps(s: State, s': State, c: Caller) {
    && (forall d | d != c :: At(s', d) == At(s, d))
    && (forall run | run in s'.runs && run !in s.runs :: Attends(At(s', c), run))
    && (forall run | run in s.runs ::
          && run in s'.runs
          && (s.runs[run].released ==> s'.runs[run].released)
          && (s.runs[run].cancelRequested ==> s'.runs[run].cancelRequested)
          && (Attends(At(s, c), run) ==>
                s'.runs[run].released || s'.runs[run].cancelRequested || Attends(At(s', c), run)))
  }

  lemma KeepsSettled(s: State, s': State, c: Caller)
    requires AllSettled(s) && Keeps(s, s', c)
    ensures AllSettled(s')
  {
    forall run | run in s'.runs ensures Settled(s', run) {
      if run in s.runs {
        assert Settled(s, run);
        if !s.runs[run].released && !s.runs[run].cancelRequested {
          var d :| Attends(At(s, d), run);
          if d != c { assert Attends(At(s', d), run); }
        }
      }
    }
  }

  lemma ExecutingKeeps(e: Episode, s: State, step: Step)
    requires step.CreateRun? || step.Bind? || step.WaitRunning? || step.WriteMarker?
    requires Answered(step)
    ensures Keeps(s, Apply(e, s, step), step.c)
  {
    hide Trace, Records.Bind;
    match step
    case CreateRun(c, run, made, answered) =>
    case Bind(c) =>
    case WaitRunning(c) =>
    case WriteMarker(c, landed, answered) =>
  }

  lemma RejectedKeeps(s: State, c: Caller, landed: bool)
    ensures Keeps(s, DoCancelRejected(s, c, landed), c)
  {
  }

  lemma UnreleasedKeeps(s: State, c: Caller, closed: bool, landed: bool)
    ensures Keeps(s, DoCancelUnreleased(s, c, closed, landed, true), c)
  {
  }

  lemma ThrowKeeps(s: State, c: Caller, error: Failure)
    ensures Keeps(s, DoThrow(s, c, error), c)
  {
  }

  /** Steps of a caller that attends no Run, before or after. */
  ghost predicate Elsewhere(s: State, s': State, c: Caller) {
    && (forall d | d != c :: At(s', d) == At(s, d))
    && (s'.runs != s.runs || At(s', c) != At(s, c) ==> forall run :: !Attends(At(s, c), run))
    && (forall run :: run in s'.runs <==> run in s.runs)
    && (forall run | run in s.runs ::
          && (s.runs[run].released ==> s'.runs[run].released)
          && (s.runs[run].cancelRequested ==> s'.runs[run].cancelRequested))
  }

  lemma ElsewhereKeeps(s: State, s': State, c: Caller)
    requires Elsewhere(s, s', c)
    ensures Keeps(s, s', c)
  {
  }

  lemma StageElsewhere(e: Episode, s: State, step: Step)
    requires step.StartRun? || step.WaitRun? || step.HandleFailure? || step.RejectStage?
    ensures Elsewhere(s, Apply(e, s, step), step.c)
  {
    hide Trace, Records.StartRun, Records.RecordFailure, Records.FailStage;
    match step
    case StartRun(c) =>
    case WaitRun(c) =>
    case HandleFailure(c, now) =>
    case RejectStage(c, code, message, now, error) =>
  }

  lemma CommitElsewhere(e: Episode, s: State, step: Step)
    requires step.CommitCandidate? || step.BeginVerification? || step.Finish?
    ensures Elsewhere(s, Apply(e, s, step), step.c)
  {
    hide Trace, Records.CommitCandidate, Records.StartVerification, Records.Finish;
    match step
    case CommitCandidate(c, candidate, trajectory) =>
    case BeginVerification(c) =>
    case Finish(c, verdict, now) =>
  }

  lemma RecoveryElsewhere(e: Episode, s: State, step: Step)
    requires step.StartRecovery? || step.LoadCandidate? || step.ReadRun?
    ensures Elsewhere(s, Apply(e, s, step), step.c)
  {
    hide Trace;
    match step
    case StartRecovery(c) =>
    case LoadCandidate(c, ok) =>
    case ReadRun(c) =>
  }

  lemma QueryElsewhere(s: State, c: Caller, now: string)
    ensures Elsewhere(s, DoBeginCancel(s, c), c) && Elsewhere(s, DoQueryRun(s, c), c)
    ensures Elsewhere(s, DoEndCancel(s, c, now), c)
  {
    hide Records.Cancel, LiveExecution;
  }

  lemma AskElsewhere(s: State, c: Caller, landed: bool, answered: bool)
    ensures Elsewhere(s, DoAskCancel(s, c, landed, answered), c)
  {
  }

  lemma CancelElsewhere(e: Episode, s: State, step: Step)
    requires step.BeginCancel? || step.QueryRun? || step.AskCancel? || step.EndCancel?
    ensures Elsewhere(s, Apply(e, s, step), step.c)
  {
    hide Trace, Apply, Elsewhere, DoBeginCancel, DoQueryRun, DoAskCancel, DoEndCancel;
    StepIs(e, s, step);
    match step
    case BeginCancel(c) => QueryElsewhere(s, c, "");
    case QueryRun(c) => QueryElsewhere(s, c, "");
    case AskCancel(c, landed, answered) => AskElsewhere(s, c, landed, answered);
    case EndCancel(c, now) => QueryElsewhere(s, c, now);
  }

  lemma AxernSettles(e: Episode, s: State, step: Step)
    requires step.OtherWriter? || step.Allocate? || step.Exit?
    requires AllSettled(s)
    ensures AllSettled(Apply(e, s, step))
  {
    var s' := Apply(e, s, step);
    hide Trace, Records.Section;
    assert forall c :: At(s', c) == At(s, c);
    forall run | run in s'.runs ensures Settled(s', run) {
      assert Settled(s, run);
      if !s.runs[run].released && !s.runs[run].cancelRequested {
        var c :| Attends(At(s, c), run);
        assert Attends(At(s', c), run);
      }
    }
  }

  lemma UnwindersAre(e: Episode, s: State, step: Step)
    ensures step.CancelRejected? ==> Apply(e, s, step) == DoCancelRejected(s, step.c, step.landed)
    ensures step.Throw? ==> Apply(e, s, step) == DoThrow(s, step.c, step.error)
    ensures step.CancelUnreleased? ==>
              Apply(e, s, step) == DoCancelUnreleased(s, step.c, step.closed, step.landed, step.answered)
  {
    hide Trace, DoCancelRejected, DoThrow, DoCancelUnreleased;
  }

  lemma StepSettles(e: Episode, s: State, step: Step)
    requires AllSettled(s) && Answered(step)
    ensures AllSettled(Apply(e, s, step))
  {
    hide AllSettled, Keeps, Elsewhere, Apply, Trace;
    if step.OtherWriter? || step.Allocate? || step.Exit? {
      AxernSettles(e, s, step);
    } else {
      UnwindersAre(e, s, step);
      match step {
        case CancelRejected(c, landed) => RejectedKeeps(s, c, landed);
        case CancelUnreleased(c, closed, landed, answered) => UnreleasedKeeps(s, c, closed, landed);
        case Throw(c, error) => ThrowKeeps(s, c, error);
        case _ => ActorKeeps(e, s, step);
      }
      KeepsSettled(s, Apply(e, s, step), step.c);
    }
  }

  lemma ActorKeeps(e: Episode, s: State, step: Step)
    requires Answered(step)
    requires !step.OtherWriter? && !step.Allocate? && !step.Exit?
    requires !step.CancelRejected? && !step.CancelUnreleased? && !step.Throw?
    ensures Keeps(s, Apply(e, s, step), step.c)
  {
    hide Keeps, Elsewhere, Apply, Trace;
    if step.CreateRun? || step.Bind? || step.WaitRunning? || step.WriteMarker? {
      ExecutingKeeps(e, s, step);
    } else {
      if step.StartRun? || step.WaitRun? || step.HandleFailure? || step.RejectStage? {
        StageElsewhere(e, s, step);
      } else if step.CommitCandidate? || step.BeginVerification? || step.Finish? {
        CommitElsewhere(e, s, step);
      } else if step.StartRecovery? || step.LoadCandidate? || step.ReadRun? {
        RecoveryElsewhere(e, s, step);
      } else {
        CancelElsewhere(e, s, step);
      }
      ElsewhereKeeps(s, Apply(e, s, step), step.c);
    }
  }

  lemma {:induction false} TraceSettles(e: Episode, s: State, steps: seq<Step>)
    requires AllSettled(s) && forall step | step in steps :: Answered(step)
    ensures AllSettled(Trace(e, s, steps))
    decreases |steps|
  {
    hide AllSettled, Apply, Answered;
    if |steps| > 0 {
      StepSettles(e, s, steps[0]);
      TraceSettles(e, Apply(e, s, steps[0]), steps[1..]);
    }
  }

  /**
   * Over any interleaving, binding refusals and exceptions: unless a caller died or an answer about the Run
   * was lost, every Run that was created is released, has been asked to stop, or is still attended by the
   * caller that created it.
   */
  lemma NoRunIsLeftBehind(e: Episode, now: string, steps: seq<Step>, run: string)
    requires forall step | step in steps :: Answered(step)
    requires run in Trace(e, Init(now), steps).runs
    ensures
      var s := Trace(e, Init(now), steps);
      s.runs[run].released || s.runs[run].cancelRequested || exists c :: Attends(At(s, c), run)
  {
    TraceSettles(e, Init(now), steps);
    assert Settled(Trace(e, Init(now), steps), run);
  }

  // ------------------------------------------------------------------ refused bindings

  lemma {:induction false} Both(e: Episode, s: State, x: Step, y: Step)
    ensures Trace(e, s, [x, y]) == Apply(e, Apply(e, s, x), y)
  {
    hide Apply;
    assert [x, y][1..] == [y] && [y][1..] == [];
    assert Trace(e, Apply(e, s, x), [y]) == Trace(e, Apply(e, Apply(e, s, x), y), []);
  }

  lemma RefusedStepIs(e: Episode, s: State, step: Step)
    ensures step.Bind? ==> Apply(e, s, step) == DoBind(e, s, step.c)
    ensures step.CancelRejected? ==> Apply(e, s, step) == DoCancelRejected(s, step.c, step.landed)
    ensures step.CancelUnreleased? ==>
              Apply(e, s, step) == DoCancelUnreleased(s, step.c, step.closed, step.landed, step.answered)
  {
    hide DoBind, DoCancelRejected, DoCancelUnreleased, Trace;
  }

  /**
   * A Run that is bound after the phase has moved on is stopped by its caller, and nothing is recorded; after
   * a cancellation it is asked to stop even before the backend unwinds.
   */
  lemma RefusedBindStops(e: Episode, s: State, c: Caller, closed: bool)
    requires s.lock.None? && (At(s, c).Created? || At(s, c).Allocated?) && At(s, c).x.run in s.runs
    requires s.disk.phase != RunningPhase(At(s, c).stage)
    ensures
      var a := At(s, c);
      var stop := if s.disk.phase.Cancelled? then CancelRejected(c, true) else CancelUnreleased(c, closed, true, true);
      var s' := Trace(e, s, [Bind(c), stop]);
      && s'.disk == s.disk && s'.persisted == s.persisted
      && s'.runs == s.runs[a.x.run := s.runs[a.x.run].(cancelRequested := true)]
  {
    var stop := if s.disk.phase.Cancelled? then CancelRejected(c, true) else CancelUnreleased(c, closed, true, true);
    Both(e, s, Bind(c), stop);
    RefusedStepIs(e, s, Bind(c));
    RefusedStepIs(e, Apply(e, s, Bind(c)), stop);
    hide Apply, Trace;
  }
}
