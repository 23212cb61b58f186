/** Which states a restarted verification can still complete from. */
module MultiRunRestart {
  import opened Models
  import opened Scorer
  import opened MultiRunStore
  import opened MultiRunProtocol
  import opened MultiRunCompletion
  import Safety = MultiRunSafety

  // ------------------------------------------------------------------ a step that cannot end

  /** A Run that ended badly, or that nobody released. */
  predicate Useless(run: Run) {
    if run.exit.Some? then run.exit != Some(0) else !run.released
  }

  /** The verifier is creating or releasing the Run of this step. */
  predicate Handles(a: Activity, key: Key) {
    match a
    case Created(k, _) => k == key
    case Waiting(k, _) => k == key
    case Allocated(k, _) => k == key
    case Preparing(k, _) => k == key
    case _ => false
  }

  /** The step is claimed for a Run that is unrecorded or useless, and the verifier is not about to change that. */
  ghost predicate Barred(s: State, key: Key) {
    s.disk.Some? && Has(s.disk.value, key) && Bars(StepOf(s.disk.value, key), s.world.runs, s.verifier, key)
  }

  predicate Bars(step: MultiRunStore.Step, runs: map<string, Run>, a: Activity, key: Key) {
    && step.state.Running?
    && !Handles(a, key)
    && (key.Compile? ==> !a.Checking?)
    && match step.execution
       case None => a != Claimed(key) && a != Creating(key)
       case Some(x) => x.run in runs && Useless(runs[x.run])
  }

  lemma AsideBars(step: MultiRunStore.Step, runs: map<string, Run>, a: Activity, a': Activity, key: Key)
    requires Bars(step, runs, a, key) && Aside(a', key)
    ensures Bars(step, runs, a', key)
  {
  }

  /** What the verifier remembers of a step is what is recorded of it. */
  lemma SameInMemory(p: Plan, s: State, key: Key)
    requires ValidPlan(p) && Safety.Inv(p, s) && !s.verifier.Out? && s.disk.Some? && Has(s.disk.value, key)
    ensures Has(s.m, key) && StepOf(s.m, key) == StepOf(s.disk.value, key)
    ensures Safety.VerifierInv(p, s.world, s.m, s.verifier)
  {
  }

  lemma NamedRun(p: Plan, s: State, key: Key)
    requires ValidPlan(p) && Safety.Inv(p, s) && s.disk.Some? && Has(s.disk.value, key)
    requires StepOf(s.disk.value, key).execution.Some?
    ensures Safety.Names(s.world, key, StepOf(s.disk.value, key).execution.value)
    ensures Safety.RunInv(p, s.world, StepOf(s.disk.value, key).execution.value.run)
    ensures forall r | r in s.world.runs && s.world.runs[r].key == key ::
              r == StepOf(s.disk.value, key).execution.value.run
  {
    assert Safety.StepInv(p, s.world, key, StepOf(s.disk.value, key));
  }

  /** An activity that leaves the step alone. */
  predicate Aside(a: Activity, key: Key) {
    !Handles(a, key) && a != Claimed(key) && a != Creating(key) && !(key.Compile? && a.Checking?)
  }

  ghost predicate Remembered(s: State, key: Key) {
    s.disk.Some? && Has(s.disk.value, key) && Has(s.m, key) && StepOf(s.m, key) == StepOf(s.disk.value, key)
  }

  lemma StaysBarred(s: State, s': State, key: Key)
    requires Barred(s, key) && s'.world.runs == s.world.runs && Aside(s'.verifier, key)
    requires s'.disk.Some? && Has(s'.disk.value, key) && StepOf(s'.disk.value, key) == StepOf(s.disk.value, key)
    ensures Barred(s', key)
  {
    AsideBars(StepOf(s.disk.value, key), s.world.runs, s.verifier, s'.verifier, key);
  }

  lemma AtStays(s: State, a: Activity, key: Key)
    requires Barred(s, key) && Aside(a, key)
    ensures Barred(At(s, a), key)
  {
    StaysBarred(s, At(s, a), key);
    hide Barred;
  }

  lemma SaveStays(s: State, m': Execution, next: Activity, refused: Activity, key: Key)
    requires Barred(s, key) && Has(m', key) && StepOf(m', key) == StepOf(s.disk.value, key)
    requires Aside(next, key) && Aside(refused, key)
    ensures Barred(Save(s, m', next, refused), key)
  {
    hide Bars, Aside, Live;
    var saved := s.(disk := Some(m'), m := m', verifier := next);
    StaysBarred(s, saved, key);
    StaysBarred(s, At(s, refused), key);
    hide Barred;
  }

  /** A change of another step. */
  lemma OtherStep(m: Execution, k: Key, step: MultiRunStore.Step, key: Key)
    requires Has(m, k) && Has(m, key) && k != key
    ensures Has(WithStep(m, k, step), key) && StepOf(WithStep(m, k, step), key) == StepOf(m, key)
  {
  }

  lemma ClaimStays(s: State, k: Key, key: Key)
    requires Barred(s, key)
    ensures Barred(DoClaim(s, k), key)
  {
    if k != key && s.disk.Some? && Has(s.disk.value, k) {
      OtherStep(s.disk.value, k, StepOf(s.disk.value, k).(state := Running), key);
    }
  }

  lemma DecideStays(p: Plan, s: State, key: Key)
    requires ValidPlan(p) && Barred(s, key) && (!s.verifier.Out? ==> Remembered(s, key))
    ensures Barred(DoDecide(p, s), key)
  {
    hide DoClaim, Save, Claim, FirstPending, Barred;
    if s.verifier.Deciding? {
      AtStays(s, Out, key);
      AtStays(s, Deleting(AsBroken), key);
      ClaimStays(s, Compile, key);
      match FirstPending(p.visited, s.m)
      case Some(b) => ClaimStays(s, Branch(b), key);
      case None => SaveStays(s, s.m.(phase := Aggregating), Summing, Out, key);
    }
  }

  lemma ClaimingStays(p: Plan, s: State, key: Key, step: MultiRunProtocol.Step)
    requires ValidPlan(p) && Barred(s, key) && (!s.verifier.Out? ==> Remembered(s, key))
    requires s.verifier.Creating? ==> Safety.Unrecorded(s.world, s.m, s.verifier.key)
    requires step.Open? || step.RequireLive? || step.CreateRun?
    ensures Barred(Apply(p, s, step), key)
  {
    hide Live, Claim, FirstPending, ExpectedDetails, Trace, Reaches;
    match step
    case Open =>
    case RequireLive =>
    case CreateRun(run, made, answered) =>
  }

  lemma BindStays(s: State, accepted: bool, key: Key)
    requires Barred(s, key) && (!s.verifier.Out? ==> Remembered(s, key))
    ensures Barred(DoBind(s, accepted), key)
  {
    hide Save;
    var a := s.verifier;
    if (a.Created? || a.Allocated?) && Has(s.m, a.key) {
      var step := StepOf(s.m, a.key).(execution := Some(a.x));
      OtherStep(s.m, a.key, step, key);
      SaveStays(s, WithStep(s.m, a.key, step),
                if a.key.Compile? && !accepted then Unwinding(a.x)
                else if a.Created? then Waiting(a.key, a.x)
                else Preparing(a.key, a.x), Unwinding(a.x), key);
    }
  }

  lemma ExecutingStays(p: Plan, s: State, key: Key, step: MultiRunProtocol.Step)
    requires ValidPlan(p) && Barred(s, key)
    requires step.WaitRunning? || step.WriteMarker? || step.WaitRun? || step.CancelUnreleased?
    requires s.verifier.Preparing? && s.verifier.x.run in s.world.runs ==>
               StepOf(s.disk.value, key).execution.Some? ==>
                 s.verifier.x.run != StepOf(s.disk.value, key).execution.value.run
    ensures Barred(Apply(p, s, step), key)
  {
    hide ExpectedDetails, Trace, Reaches;
    match step
    case WaitRunning =>
    case WriteMarker(landed, answered) =>
    case WaitRun =>
    case CancelUnreleased(landed) =>
  }

  lemma OtherRun(p: Plan, s: State, key: Key)
    requires Healthy(p) && Safety.Inv(p, s) && Barred(s, key) && s.verifier.Preparing?
    ensures s.verifier.x.run in s.world.runs && StepOf(s.disk.value, key).execution.Some? ==>
              s.verifier.x.run != StepOf(s.disk.value, key).execution.value.run
  {
    SameInMemory(p, s, key);
    if StepOf(s.disk.value, key).execution.Some? { NamedRun(p, s, key); }
  }

  /** The Run of the step that has ended ended badly. */
  lemma EndedBadly(p: Plan, s: State, key: Key)
    requires Healthy(p) && Safety.Inv(p, s) && Barred(s, key) && s.verifier.Held? && s.verifier.key == key
    ensures s.verifier.x.run in s.world.runs && s.world.runs[s.verifier.x.run].exit.Some?
    ensures s.world.runs[s.verifier.x.run].exit != Some(0)
    ensures key.Compile? ==> s.world.runs[s.verifier.x.run].exit.value !in COMPILE_REASONS
  {
    SameInMemory(p, s, key);
    NamedRun(p, s, key);
  }

  lemma SettleCompileStays(p: Plan, s: State, x: ExecutionRef, exit: int, key: Key)
    requires Barred(s, key) && Remembered(s, key)
    requires key.Compile? ==> exit != 0 && exit !in COMPILE_REASONS
    ensures Barred(SettleCompile(p, s, x, exit), key)
  {
    hide Save, Barred;
    AtStays(s, Out, key);
    if key.Branch? {
      if exit in COMPILE_REASONS {
        var step := s.m.compile.(state := BusinessFailed, reason := COMPILE_REASONS[exit]);
        SaveStays(s, s.m.(compile := step, phase := Aggregating), Failing, Out, key);
      } else {
        SaveStays(s, s.m.(compile := s.m.compile.(execution := Some(x)), derived := p.compile.derived), Checking,
                  Dropping, key);
      }
    }
  }

  lemma SettleBranchStays(p: Plan, s: State, b: string, x: ExecutionRef, exit: int, key: Key)
    requires Barred(s, key) && Remembered(s, key) && b in p.branches && b in s.m.branches
    requires key == Branch(b) ==> exit != 0
    ensures Barred(SettleBranch(p, s, b, x, exit), key)
  {
    hide Save, Barred, ValidBranchResult;
    SaveStays(s, s.m.(cleanup := InProgress), Deleting(ExitFailed), Out, key);
    SaveStays(s, MarkBroken(s.m), Deleting(AsBroken), Out, key);
    if exit != 0 || p.branches[b].report.None? {
    } else {
      var report := p.branches[b].report.value;
      var sealed := MultiRunStore.Step(Done, Some(x), Sha(report), report.reason);
      OtherStep(s.m, Branch(b), sealed, key);
      OtherStep(s.m, Branch(b), sealed.(state := StepBroken), key);
      SaveStays(s, s.m.(branches := s.m.branches[b := sealed]), Deciding, Out, key);
      SaveStays(s, MarkBroken(s.m.(branches := s.m.branches[b := sealed.(state := StepBroken)])), Deleting(AsBroken),
                Out, key);
    }
  }

  lemma SettlingStays(p: Plan, s: State, key: Key)
    requires Healthy(p) && Safety.Inv(p, s) && Barred(s, key)
    ensures Barred(DoSettle(p, s), key)
  {
    HealthyIsValid(p);
    hide SettleCompile, SettleBranch, Healthy;
    if s.verifier.Held? {
      var x := s.verifier.x;
      SameInMemory(p, s, key);
      if s.verifier.key == key { EndedBadly(p, s, key); }
      hide Safety.Inv, Barred;
      if x.run in s.world.runs && s.world.runs[x.run].exit.Some? {
        var exit := s.world.runs[x.run].exit.value;
        match s.verifier.key
        case Compile => SettleCompileStays(p, s, x, exit, key);
        case Branch(b) => if b in p.branches && b in s.m.branches { SettleBranchStays(p, s, b, x, exit, key); }
      }
    }
  }

  lemma CheckStays(p: Plan, s: State, key: Key)
    requires Barred(s, key) && (!s.verifier.Out? ==> Remembered(s, key))
    ensures Barred(DoCheckCompiled(p, s), key)
  {
    hide Save;
    if s.verifier.Checking? {
      var m := s.m;
      SaveStays(s, MarkBroken(m), Deleting(AsBroken), Out, key);
      if p.compile.report.Some? {
        var done := m.compile.(state := Done);
        SaveStays(s, m.(compile := done, executable := p.compile.report.value, phase := BranchesRunning), Deciding,
                  Out, key);
      }
    }
  }

  lemma FinishStays(p: Plan, s: State, key: Key)
    requires ValidPlan(p) && Barred(s, key) && (!s.verifier.Out? ==> Remembered(s, key))
    ensures Barred(DoFinishFailure(p, s), key)
  {
    hide Save, Barred, CompileFailure;
    if s.verifier.Failing? {
      var details := Sha(CompileFailure(p.listed, p.tests, s.m.compile.reason));
      SaveStays(s, s.m.(details := details, cleanup := NotCreated, phase := Progress.Completed), Out, Out, key);
    }
  }

  lemma SumStays(p: Plan, s: State, files: map<string, BranchResult>, key: Key)
    requires ValidPlan(p) && Barred(s, key) && (!s.verifier.Out? ==> Remembered(s, key))
    ensures Barred(DoSum(p, s, files), key)
  {
    hide Save, Barred, Aggregated, Accepted, RecordedSteps;
    if s.verifier.Summing? {
      AtStays(s, Out, key);
      if forall b | b in p.listed :: b in files && b in s.m.branches {
        var details := Sha(Aggregated(p.listed, p.tests, files, s.m.executable));
        SaveStays(s, s.m.(details := details, cleanup := InProgress), Deleting(Succeeded), Out, key);
      }
    }
  }

  lemma SavedStays(s: State, key: Key)
    requires Barred(s, key) && (!s.verifier.Out? ==> Remembered(s, key))
    ensures Barred(DoSaveDeleted(s), key)
  {
    hide Save, Barred;
    if s.verifier.Saving? {
      var cleaned := s.m.(cleanup := Cleaned);
      SaveStays(s, cleaned.(phase := Progress.Completed), Out, Out, key);
      SaveStays(s, cleaned.(phase := Broken), Out, Out, key);
      SaveStays(s, cleaned, Out, Out, key);
    }
  }

  lemma LeavingStays(p: Plan, s: State, key: Key, step: MultiRunProtocol.Step)
    requires ValidPlan(p) && Barred(s, key)
    requires step.Drop? || step.Delete? || step.Throw? || step.Crash?
    ensures Barred(Apply(p, s, step), key)
  {
    hide ExpectedDetails, InHand, Trace, Reaches;
    match step
    case Drop(landed, answered) =>
    case Delete(landed, answered) =>
    case Throw =>
    case Crash =>
  }

  lemma CancellingStays(p: Plan, s: State, key: Key, step: MultiRunProtocol.Step)
    requires ValidPlan(p) && Barred(s, key)
    requires step.BeginCancel? || step.AskCancel? || step.EndAsking? || step.Clean? || step.CrashCancel?
    ensures Barred(Apply(p, s, step), key)
  {
    hide ExpectedDetails, RunningRuns, Trace, Reaches;
    match step
    case BeginCancel =>
    case AskCancel(run, landed, answered) =>
    case EndAsking =>
    case Clean(landed, answered) =>
    case CrashCancel =>
  }

  lemma AxernStays(p: Plan, s: State, key: Key, step: MultiRunProtocol.Step)
    requires ValidPlan(p) && Barred(s, key)
    requires step.Allocate? || step.Exit? || step.Kill?
    ensures Barred(Apply(p, s, step), key)
  {
    hide ExpectedDetails, Trace, Reaches;
    match step
    case Allocate(run, allocation) =>
    case Exit(run) =>
    case Kill(run, status) =>
  }

  lemma ApplyIs(p: Plan, s: State, step: MultiRunProtocol.Step)
    requires ValidPlan(p)
    ensures step.Decide? ==> Apply(p, s, step) == DoDecide(p, s)
    ensures step.Bind? ==> Apply(p, s, step) == DoBind(s, step.accepted)
    ensures step.Settle? ==> Apply(p, s, step) == DoSettle(p, s)
    ensures step.CheckCompiled? ==> Apply(p, s, step) == DoCheckCompiled(p, s)
    ensures step.FinishFailure? ==> Apply(p, s, step) == DoFinishFailure(p, s)
    ensures step.Sum? ==> Apply(p, s, step) == DoSum(p, s, step.files)
    ensures step.SaveDeleted? ==> Apply(p, s, step) == DoSaveDeleted(s)
  {
    hide Trace, DoDecide, DoBind, DoSettle, DoCheckCompiled, DoFinishFailure, DoSum, DoSaveDeleted;
  }

  lemma ConcludingStays(p: Plan, s: State, key: Key, step: MultiRunProtocol.Step)
    requires ValidPlan(p) && Barred(s, key) && (!s.verifier.Out? ==> Remembered(s, key))
    requires step.CheckCompiled? || step.FinishFailure? || step.Sum? || step.SaveDeleted?
    ensures Barred(Apply(p, s, step), key)
  {
    hide Apply, Barred, DoCheckCompiled, DoFinishFailure, DoSum, DoSaveDeleted;
    ApplyIs(p, s, step);
    match step
    case CheckCompiled => CheckStays(p, s, key);
    case FinishFailure => FinishStays(p, s, key);
    case Sum(files) => SumStays(p, s, files, key);
    case SaveDeleted => SavedStays(s, key);
  }

  lemma BarredStays(p: Plan, s: State, key: Key, step: MultiRunProtocol.Step)
    requires Healthy(p) && Safety.Inv(p, s) && Barred(s, key)
    ensures Barred(Apply(p, s, step), key)
  {
    hide Safety.Inv, Healthy, Apply, Trace, Bars;
    HealthyIsValid(p);
    if !s.verifier.Out? { SameInMemory(p, s, key); }
    if s.verifier.Preparing? { OtherRun(p, s, key); }
    hide Barred;
    if step.Decide? {
      DecideStays(p, s, key);
      ApplyIs(p, s, step);
    } else if step.Open? || step.RequireLive? || step.CreateRun? {
      ClaimingStays(p, s, key, step);
    } else if step.Bind? {
      BindStays(s, step.accepted, key);
      ApplyIs(p, s, step);
    } else if step.WaitRunning? || step.WriteMarker? || step.WaitRun? || step.CancelUnreleased? {
      ExecutingStays(p, s, key, step);
    } else if step.Settle? {
      SettlingStays(p, s, key);
      ApplyIs(p, s, step);
    } else if step.CheckCompiled? || step.FinishFailure? || step.Sum? || step.SaveDeleted? {
      ConcludingStays(p, s, key, step);
    } else if step.Drop? || step.Delete? || step.Throw? || step.Crash? {
      LeavingStays(p, s, key, step);
    } else if step.Allocate? || step.Exit? || step.Kill? {
      AxernStays(p, s, key, step);
    } else {
      CancellingStays(p, s, key, step);
    }
  }

  lemma HealthyIsValid(p: Plan)
    requires Healthy(p)
    ensures ValidPlan(p)
  {
  }

  // ------------------------------------------------------------------ a broken record

  /** The record is broken, and a live verifier only cleans up. */
  ghost predicate Wrecked(s: State) {
    && s.disk.Some? && s.disk.value.phase.Broken?
    && (s.verifier.Out? || (s.m.phase.Broken? && (s.verifier.Deciding? || s.verifier == Deleting(AsBroken)
                                                  || s.verifier == Saving(AsBroken))))
  }

  /** Cancellation has won, or a cancel came before the record. */
  ghost predicate Called(s: State) {
    if s.disk.None? then s.marker else Safety.Stopping(s.disk.value)
  }

  predicate ByVerifier(step: MultiRunProtocol.Step) {
    || step.Open? || step.Decide? || step.Delete? || step.SaveDeleted? || step.Throw? || step.Crash?
  }

  /** The steps of cancels and of Axern, and those that an idle or deleting verifier cannot take. */
  lemma OthersLeaveWreck(p: Plan, s: State, step: MultiRunProtocol.Step)
    requires ValidPlan(p) && s.canceller.Free? && Wrecked(s) && !ByVerifier(step)
    ensures Wrecked(Apply(p, s, step)) || Called(Apply(p, s, step))
  {
    hide ExpectedDetails, RunningRuns, Claim, FirstPending, SettleCompile, SettleBranch, Trace, Save;
  }

  lemma WreckedStays(p: Plan, s: State, step: MultiRunProtocol.Step)
    requires ValidPlan(p) && Safety.Inv(p, s) && Wrecked(s)
    ensures Wrecked(Apply(p, s, step)) || Called(Apply(p, s, step))
  {
    assert s.canceller.Free?;
    hide Safety.Inv, ExpectedDetails, RunningRuns, Claim, FirstPending, SettleCompile, SettleBranch, Trace;
    if !ByVerifier(step) {
      OthersLeaveWreck(p, s, step);
    } else {
      match step
      case Open =>
      case Decide =>
      case Delete(landed, answered) =>
      case SaveDeleted =>
      case Throw =>
      case Crash =>
    }
  }

  // ------------------------------------------------------------------ no way back

  /** No step leads to completion any more. */
  ghost predicate Dead(s: State) {
    Called(s) || Wrecked(s) || exists key :: Barred(s, key)
  }

  lemma DeadStays(p: Plan, s: State, step: MultiRunProtocol.Step)
    requires Healthy(p) && Safety.Inv(p, s) && Dead(s)
    ensures Dead(Apply(p, s, step))
  {
    hide Safety.Inv, Healthy, Wrecked, Barred, Apply;
    HealthyIsValid(p);
    if Called(s) {
      Safety.StepFreezes(p, s, step);
    } else if Wrecked(s) {
      WreckedStays(p, s, step);
    } else {
      var key :| Barred(s, key);
      BarredStays(p, s, key, step);
    }
  }

  lemma DeadIsIncomplete(p: Plan, s: State)
    requires Healthy(p) && Safety.Inv(p, s) && Dead(s)
    ensures !(s.disk.Some? && s.disk.value.phase.Completed?)
  {
    if key :| Barred(s, key) {
      assert Safety.StepInv(p, s.world, Compile, StepOf(s.disk.value, Compile));
    }
  }

  lemma {:induction false} DeadForever(p: Plan, s: State, steps: seq<MultiRunProtocol.Step>)
    requires Healthy(p) && Safety.Inv(p, s) && Dead(s)
    ensures !(Trace(p, s, steps).disk.Some? && Trace(p, s, steps).disk.value.phase.Completed?)
    decreases |steps|
  {
    hide Safety.Inv, Dead, Healthy;
    HealthyIsValid(p);
    if |steps| == 0 {
      DeadIsIncomplete(p, s);
    } else {
      Safety.StepKeeps(p, s, steps[0]);
      DeadStays(p, s, steps[0]);
      DeadForever(p, Apply(p, s, steps[0]), steps[1..]);
    }
  }

  lemma UnresumableIsBarred(p: Plan, s: State, key: Key)
    requires Healthy(p) && Safety.Inv(p, s) && s.verifier.Out? && s.disk.Some? && Has(s.disk.value, key)
    requires !Resumable(s.world, StepOf(s.disk.value, key))
    ensures Barred(s, key)
  {
    assert Safety.StepInv(p, s.world, key, StepOf(s.disk.value, key));
    if key.Branch? { assert HealthyBranch(p, key.name); }
  }

  ghost predicate Completes(p: Plan, s: State)
    requires ValidPlan(p)
  {
    exists steps: seq<MultiRunProtocol.Step> ::
      Trace(p, s, steps).disk.Some? && Trace(p, s, steps).disk.value.phase.Completed?
  }

  /**
   * After any crashes, with no verifier alive and the lock free: some continuation completes exactly if
   * the record is neither cancelled nor broken and no Run of a claimed step was left unrecorded,
   * unreleased or killed. Whatever else happens afterwards, these are permanent.
   */
  lemma RestartIff(p: Plan, s: State)
    requires Healthy(p) && Safety.Reachable(p, s) && s.verifier.Out? && s.canceller.Free?
    ensures Completes(p, s) <==> Restartable(s)
  {
    Safety.ReachableInv(p, s);
    if Restartable(s) {
      var s' := RestartCompletes(p, s);
    } else {
      UnrestartableIsDead(p, s);
      hide Safety.Inv, Dead, Healthy;
      forall steps: seq<MultiRunProtocol.Step>
        ensures !(Trace(p, s, steps).disk.Some? && Trace(p, s, steps).disk.value.phase.Completed?)
      {
        DeadForever(p, s, steps);
      }
    }
  }

  lemma UnrestartableIsDead(p: Plan, s: State)
    requires Healthy(p) && Safety.Inv(p, s) && s.verifier.Out? && s.canceller.Free? && !Restartable(s)
    ensures Dead(s)
  {
    if s.disk.Some? && !Called(s) && !Wrecked(s) {
      var key :| Has(s.disk.value, key) && !Resumable(s.world, StepOf(s.disk.value, key));
      UnresumableIsBarred(p, s, key);
    }
  }
}
