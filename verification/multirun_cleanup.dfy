/** No Run of a multi-Run verification is left behind unreleased. */
module MultiRunCleanup {
  import opened Models
  import opened Scorer
  import opened MultiRunStore
  import opened MultiRunProtocol
  import Safety = MultiRunSafety

  /** The verifier answers for a Run that it has not released. */
  predicate Attends(a: Activity, run: string) {
    match a
    case Created(_, x) => x.run == run
    case Waiting(_, x) => x.run == run
    case Allocated(_, x) => x.run == run
    case Preparing(_, x) => x.run == run
    case Unwinding(x) => x.run == run
    case _ => false
  }

  ghost predicate AllSettled(s: State) {
    forall run | run in s.world.runs ::
      s.world.runs[run].released || s.world.runs[run].cancelRequested || Attends(s.verifier, run)
  }

  /** The verifier does not die, and every answer about a Run that is not released arrives. */
  predicate Answered(step: MultiRunProtocol.Step) {
    match step
    case Crash => false
    case CreateRun(_, made, answered) => made ==> answered
    case CancelUnreleased(landed) => landed
    case _ => true
  }

  /** Runs stay settled, and the verifier attends what it attended. */
  ghost predicate Quiet(s: State, s': State) {
    && s'.world.runs.Keys == s.world.runs.Keys
    && (forall run | run in s.world.runs ::
          && (s.world.runs[run].released ==> s'.world.runs[run].released)
          && (s.world.runs[run].cancelRequested ==> s'.world.runs[run].cancelRequested)
          && (Attends(s.verifier, run) ==> Attends(s'.verifier, run)))
  }

  lemma QuietSettles(s: State, s': State)
    requires AllSettled(s) && Quiet(s, s')
    ensures AllSettled(s')
  {
  }

  lemma CreatesSettles(p: Plan, s: State, run: string, made: bool, answered: bool)
    requires AllSettled(s) && (made ==> answered)
    ensures AllSettled(DoCreateRun(p, s, run, made, answered))
  {
  }

  lemma BindQuiet(s: State, accepted: bool)
    ensures Quiet(s, DoBind(s, accepted))
  {
    hide Live, WithStep;
  }

  lemma ReleaseSettles(s: State, landed: bool, answered: bool)
    requires AllSettled(s)
    ensures AllSettled(DoWriteMarker(s, landed, answered)) && AllSettled(DoCancelUnreleased(s, true))
  {
  }

  lemma WaitQuiet(p: Plan, s: State)
    ensures Quiet(s, DoWaitRunning(s)) && Quiet(s, DoWaitRun(p, s))
    ensures Quiet(s, DoRequireLive(s)) && Quiet(s, DoOpen(p, s))
  {
    hide Live, Opened;
  }

  lemma ThrowQuiet(p: Plan, s: State)
    ensures Quiet(s, DoThrow(p, s))
  {
    hide InHand;
  }

  lemma DecideQuiet(p: Plan, s: State)
    ensures Quiet(s, DoDecide(p, s))
  {
    hide Live, Claim, FirstPending;
  }

  lemma SettleQuiet(p: Plan, s: State)
    ensures Quiet(s, DoSettle(p, s))
  {
    hide Live, ValidBranchResult;
  }

  lemma CheckQuiet(p: Plan, s: State)
    requires ValidPlan(p)
    ensures Quiet(s, DoCheckCompiled(p, s)) && Quiet(s, DoFinishFailure(p, s))
  {
    hide Live, CompileFailure, ValidPlan;
  }

  lemma SumQuiet(p: Plan, s: State, files: map<string, BranchResult>)
    requires ValidPlan(p)
    ensures Quiet(s, DoSum(p, s, files))
  {
    hide Live, Accepted, Aggregated, RecordedSteps;
  }

  lemma CleanQuiet(p: Plan, s: State, landed: bool, answered: bool)
    ensures Quiet(s, DoDrop(p, s, landed, answered)) && Quiet(s, DoDelete(s, landed, answered))
    ensures Quiet(s, DoSaveDeleted(s))
  {
    hide Live;
  }

  lemma CancelQuiet(s: State, run: string, landed: bool, answered: bool)
    ensures Quiet(s, DoBeginCancel(s)) && Quiet(s, DoAskCancel(s, run, landed, answered)) && Quiet(s, DoEndAsking(s))
    ensures Quiet(s, DoClean(s, landed, answered)) && Quiet(s, s.(canceller := Free))
  {
    hide RunningRuns;
  }

  lemma AxernQuiet(p: Plan, s: State, run: string, allocation: string, status: int)
    ensures Quiet(s, DoAllocate(s, run, allocation)) && Quiet(s, DoExit(p, s, run)) && Quiet(s, DoKill(s, run, status))
  {
  }

  lemma VerifierSettles(p: Plan, s: State, step: MultiRunProtocol.Step)
    requires ValidPlan(p) && AllSettled(s) && Answered(step)
    requires step.Open? || step.Decide? || step.RequireLive? || step.CreateRun? || step.Bind? || step.WaitRunning?
             || step.WriteMarker? || step.WaitRun? || step.CancelUnreleased?
    ensures AllSettled(Apply(p, s, step))
  {
    hide AllSettled, Quiet, DoOpen, DoDecide, DoRequireLive, DoCreateRun, DoBind, DoWaitRunning, DoWriteMarker,
      DoWaitRun, DoCancelUnreleased, Trace;
    match step
    case Open => WaitQuiet(p, s); QuietSettles(s, DoOpen(p, s));
    case Decide => DecideQuiet(p, s); QuietSettles(s, DoDecide(p, s));
    case RequireLive => WaitQuiet(p, s); QuietSettles(s, DoRequireLive(s));
    case CreateRun(run, made, answered) => CreatesSettles(p, s, run, made, answered);
    case Bind(accepted) => BindQuiet(s, accepted); QuietSettles(s, DoBind(s, accepted));
    case WaitRunning => WaitQuiet(p, s); QuietSettles(s, DoWaitRunning(s));
    case WriteMarker(landed, answered) => ReleaseSettles(s, landed, answered);
    case WaitRun => WaitQuiet(p, s); QuietSettles(s, DoWaitRun(p, s));
    case CancelUnreleased(landed) => ReleaseSettles(s, landed, true);
  }

  lemma ResultSettles(p: Plan, s: State, step: MultiRunProtocol.Step)
    requires ValidPlan(p) && AllSettled(s)
    requires step.Settle? || step.Drop? || step.CheckCompiled? || step.FinishFailure? || step.Sum? || step.Delete?
             || step.SaveDeleted? || step.Throw?
    ensures AllSettled(Apply(p, s, step))
  {
    hide AllSettled, Quiet, DoSettle, DoDrop, DoCheckCompiled, DoFinishFailure, DoSum, DoDelete, DoSaveDeleted, DoThrow,
      Trace;
    match step
    case Settle => SettleQuiet(p, s); QuietSettles(s, DoSettle(p, s));
    case Drop(landed, answered) => CleanQuiet(p, s, landed, answered); QuietSettles(s, DoDrop(p, s, landed, answered));
    case CheckCompiled => CheckQuiet(p, s); QuietSettles(s, DoCheckCompiled(p, s));
    case FinishFailure => CheckQuiet(p, s); QuietSettles(s, DoFinishFailure(p, s));
    case Sum(files) => SumQuiet(p, s, files); QuietSettles(s, DoSum(p, s, files));
    case Delete(landed, answered) => CleanQuiet(p, s, landed, answered); QuietSettles(s, DoDelete(s, landed, answered));
    case SaveDeleted => CleanQuiet(p, s, true, true); QuietSettles(s, DoSaveDeleted(s));
    case Throw => ThrowQuiet(p, s); QuietSettles(s, DoThrow(p, s));
  }

  lemma OtherSettles(p: Plan, s: State, step: MultiRunProtocol.Step)
    requires ValidPlan(p) && AllSettled(s)
    requires step.BeginCancel? || step.AskCancel? || step.EndAsking? || step.Clean? || step.CrashCancel?
             || step.Allocate? || step.Exit? || step.Kill?
    ensures AllSettled(Apply(p, s, step))
  {
    hide AllSettled, Quiet, DoBeginCancel, DoAskCancel, DoEndAsking, DoClean, DoAllocate, DoExit, DoKill, Trace;
    match step
    case BeginCancel => CancelQuiet(s, "", true, true); QuietSettles(s, DoBeginCancel(s));
    case AskCancel(run, landed, answered) =>
      CancelQuiet(s, run, landed, answered);
      QuietSettles(s, DoAskCancel(s, run, landed, answered));
    case EndAsking => CancelQuiet(s, "", true, true); QuietSettles(s, DoEndAsking(s));
    case Clean(landed, answered) => CancelQuiet(s, "", landed, answered); QuietSettles(s, DoClean(s, landed, answered));
    case CrashCancel => CancelQuiet(s, "", true, true); QuietSettles(s, s.(canceller := Free));
    case Allocate(run, allocation) =>
      AxernQuiet(p, s, run, allocation, 1);
      QuietSettles(s, DoAllocate(s, run, allocation));
    case Exit(run) => AxernQuiet(p, s, run, "", 1); QuietSettles(s, DoExit(p, s, run));
    case Kill(run, status) => AxernQuiet(p, s, run, "", status); QuietSettles(s, DoKill(s, run, status));
  }

  lemma {:induction false} TraceSettles(p: Plan, s: State, steps: seq<MultiRunProtocol.Step>)
    requires ValidPlan(p) && AllSettled(s) && forall step | step in steps :: Answered(step)
    ensures AllSettled(Trace(p, s, steps))
    decreases |steps|
  {
    hide AllSettled, Apply, ValidPlan;
    if |steps| > 0 {
      var step := steps[0];
      assert Answered(step);
      if step.BeginCancel? || step.AskCancel? || step.EndAsking? || step.Clean? || step.CrashCancel?
         || step.Allocate? || step.Exit? || step.Kill? {
        OtherSettles(p, s, step);
      } else if step.Settle? || step.Drop? || step.CheckCompiled? || step.FinishFailure? || step.Sum? || step.Delete?
             || step.SaveDeleted? || step.Throw? {
        ResultSettles(p, s, step);
      } else {
        VerifierSettles(p, s, step);
      }
      TraceSettles(p, Apply(p, s, step), steps[1..]);
    }
  }

  /**
   * Unless the verifier died or an answer about the Run was lost, every Run that was created is released,
   * has been asked to stop, or is attended by the verifier, whatever was refused, thrown or cancelled.
   */
  lemma NoRunIsLeftBehind(p: Plan, steps: seq<MultiRunProtocol.Step>, run: string)
    requires ValidPlan(p) && forall step | step in steps :: Answered(step)
    requires run in Trace(p, Init(), steps).world.runs
    ensures
      var s := Trace(p, Init(), steps);
      s.world.runs[run].released || s.world.runs[run].cancelRequested || Attends(s.verifier, run)
  {
    TraceSettles(p, Init(), steps);
  }

  // ------------------------------------------------------------------ once cancellation has won

  lemma {:induction false} Both(p: Plan, s: State, x: MultiRunProtocol.Step, y: MultiRunProtocol.Step)
    requires ValidPlan(p)
    ensures Trace(p, s, [x, y]) == Apply(p, Apply(p, s, x), y)
  {
    hide Apply;
    assert [x, y][1..] == [y] && [y][1..] == [];
    assert Trace(p, Apply(p, s, x), [y]) == Trace(p, Apply(p, Apply(p, s, x), y), []);
  }

  lemma StepIs(p: Plan, s: State, step: MultiRunProtocol.Step)
    requires ValidPlan(p)
    ensures step.Bind? ==> Apply(p, s, step) == DoBind(s, step.accepted)
    ensures step.CancelUnreleased? ==> Apply(p, s, step) == DoCancelUnreleased(s, step.landed)
    ensures step.Settle? ==> Apply(p, s, step) == DoSettle(p, s)
    ensures step.Drop? ==> Apply(p, s, step) == DoDrop(p, s, step.landed, step.answered)
  {
    hide DoBind, DoCancelUnreleased, DoSettle, DoDrop, Trace;
  }

  /** Cancellation has been accepted, and nobody holds the lock. */
  predicate Refusing(s: State) {
    s.canceller.Free? && (s.marker || s.disk.None? || s.disk.value.phase.Cancelling? || s.disk.value.phase.Cancelled?)
  }

  /** A verifier that binds a Run after that stops this Run, saves nothing and ends. */
  lemma RefusedBindStops(p: Plan, s: State, accepted: bool)
    requires ValidPlan(p) && Refusing(s) && (s.verifier.Created? || s.verifier.Allocated?)
    requires Has(s.m, s.verifier.key) && s.verifier.x.run in s.world.runs
    ensures
      var s' := Trace(p, s, [Bind(accepted), CancelUnreleased(true)]);
      && s'.verifier.Out? && s'.disk == s.disk
      && s'.world.runs
         == s.world.runs[s.verifier.x.run := s.world.runs[s.verifier.x.run].(cancelRequested := true)]
  {
    Both(p, s, Bind(accepted), CancelUnreleased(true));
    StepIs(p, s, Bind(accepted));
    StepIs(p, Apply(p, s, Bind(accepted)), CancelUnreleased(true));
    hide Apply, Trace;
  }

  /** A verifier whose compile Run succeeds after that deletes the Environment, saves nothing and ends. */
  lemma RefusedCompileDrops(p: Plan, s: State, x: ExecutionRef)
    requires ValidPlan(p) && Refusing(s) && s.verifier == Held(Compile, x) && p.compile.derived != ""
    requires x.run in s.world.runs && s.world.runs[x.run].exit == Some(0)
    ensures
      var s' := Trace(p, s, [Settle, Drop(true, true)]);
      && s'.verifier.Out? && s'.disk == s.disk && s'.world.runs == s.world.runs
      && s'.world.deleted == s.world.deleted + {p.compile.derived}
  {
    Both(p, s, Settle, Drop(true, true));
    StepIs(p, s, Settle);
    StepIs(p, Apply(p, s, Settle), Drop(true, true));
    hide Apply, Trace;
  }

  /** What any other Run seals after that is not recorded, and the verifier ends. */
  lemma RefusedBranchEnds(p: Plan, s: State, b: string, x: ExecutionRef)
    requires ValidPlan(p) && Refusing(s) && s.verifier == Held(Branch(b), x)
    requires b in p.branches && b in s.m.branches && x.run in s.world.runs && s.world.runs[x.run].exit.Some?
    ensures Apply(p, s, Settle) == s.(verifier := Out)
  {
    StepIs(p, s, Settle);
    hide Apply, Trace;
  }
}
