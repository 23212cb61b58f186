/** Branches run one at a time, in their order, and the record says how far its cleanup is. */
module MultiRunOrder {
  import opened Models
  import opened Scorer
  import opened MultiRunStore
  import opened MultiRunProtocol
  import Details = ScorerDetails
  import Safety = MultiRunSafety

  /** A branch is begun only after all branches before it are done. */
  ghost predicate Ordered(visited: seq<string>, m: Execution) {
    forall i, j | 0 <= i < j < |visited| && visited[i] in m.branches && visited[j] in m.branches ::
      m.branches[visited[j]].state.Pending? || m.branches[visited[i]].state.Done?
  }

  /** A broken record is cleaning up or has done so, and a completed one has nothing left to clean. */
  ghost predicate Labelled(m: Execution) {
    && (m.phase.Broken? ==> m.cleanup.InProgress? || m.cleanup.Cleaned?)
    && (m.phase.Completed? ==> if m.derived == "" then m.cleanup.NotCreated? else m.cleanup.Cleaned?)
  }

  ghost predicate Fine(p: Plan, m: Execution) {
    Ordered(p.visited, m) && Labelled(m)
  }

  ghost predicate OrderInv(p: Plan, s: State) {
    && (s.disk.Some? ==> Fine(p, s.disk.value))
    && (!s.verifier.Out? ==> Fine(p, s.m))
    && (s.verifier.Summing? ==> !s.m.phase.Completed?)
  }

  lemma SaveFine(p: Plan, s: State, m': Execution, next: Activity, refused: Activity)
    requires OrderInv(p, s) && Fine(p, m') && !s.verifier.Out?
    requires !refused.Summing? && (next.Summing? ==> !m'.phase.Completed?)
    ensures OrderInv(p, Save(s, m', next, refused))
  {
    hide Fine;
  }

  // ------------------------------------------------------------------ branches

  lemma {:induction false} FirstIsFirst(visited: seq<string>, m: Execution)
    requires FirstPending(visited, m).Some?
    ensures exists j :: 0 <= j < |visited| && visited[j] == FirstPending(visited, m).value
                        && visited[j] in m.branches && !m.branches[visited[j]].state.Done?
                        && forall i | 0 <= i < j && visited[i] in m.branches :: m.branches[visited[i]].state.Done?
    decreases |visited|
  {
    if !(visited[0] in m.branches && !m.branches[visited[0]].state.Done?) {
      var rest := visited[1..];
      FirstIsFirst(rest, m);
      var j :| 0 <= j < |rest| && rest[j] == FirstPending(rest, m).value
               && rest[j] in m.branches && !m.branches[rest[j]].state.Done?
               && forall i | 0 <= i < j && rest[i] in m.branches :: m.branches[rest[i]].state.Done?;
      forall i | 0 <= i < j + 1 && visited[i] in m.branches ensures m.branches[visited[i]].state.Done? {
        if i > 0 { assert rest[i - 1] == visited[i]; }
      }
      assert visited[j + 1] == rest[j];
    }
  }

  /** The first branch that is not done is begun. */
  lemma ClaimOrdered(visited: seq<string>, m: Execution, b: string, step: MultiRunStore.Step)
    requires Details.NoRepeats(visited) && Ordered(visited, m) && FirstPending(visited, m) == Some(b)
    ensures b in m.branches && Ordered(visited, WithStep(m, Branch(b), step))
  {
    FirstIsFirst(visited, m);
    var at :| 0 <= at < |visited| && visited[at] == b && b in m.branches && !m.branches[b].state.Done?
              && forall i | 0 <= i < at && visited[i] in m.branches :: m.branches[visited[i]].state.Done?;
    OneStep(visited, m, at, step);
  }

  /** A step may change if all before it are done, and it was not done itself. */
  lemma OneStep(visited: seq<string>, m: Execution, at: nat, step: MultiRunStore.Step)
    requires Details.NoRepeats(visited) && Ordered(visited, m) && at < |visited| && visited[at] in m.branches
    requires !m.branches[visited[at]].state.Done?
    requires forall i | 0 <= i < at && visited[i] in m.branches :: m.branches[visited[i]].state.Done?
    ensures Ordered(visited, WithStep(m, Branch(visited[at]), step))
  {
    hide FirstPending;
    var b := visited[at];
    var m' := m.(branches := m.branches[b := step]);
    forall i, j | 0 <= i < j < |visited| && visited[i] in m'.branches && visited[j] in m'.branches
      ensures m'.branches[visited[j]].state.Pending? || m'.branches[visited[i]].state.Done?
    {
      assert j != at ==> visited[j] != b;
      assert i != at ==> visited[i] != b;
    }
  }

  /** A branch that was begun may change: all before it are done. */
  lemma BegunOrdered(visited: seq<string>, m: Execution, b: string, step: MultiRunStore.Step)
    requires Details.NoRepeats(visited) && Ordered(visited, m) && b in m.branches
    requires !m.branches[b].state.Pending?
    requires m.branches[b].state.Done? ==> step.state.Done?
    ensures Ordered(visited, WithStep(m, Branch(b), step))
  {
    var m' := m.(branches := m.branches[b := step]);
    forall i, j | 0 <= i < j < |visited| && visited[i] in m'.branches && visited[j] in m'.branches
      ensures m'.branches[visited[j]].state.Pending? || m'.branches[visited[i]].state.Done?
    {
      assert visited[i] != visited[j];
    }
  }

  // ------------------------------------------------------------------ steps

  lemma OpenFine(p: Plan, s: State)
    requires OrderInv(p, s)
    ensures OrderInv(p, DoOpen(p, s))
  {
    assert Fine(p, FreshExecution(p.branches.Keys));
    hide Fine;
  }

  lemma ClaimFine(p: Plan, s: State, key: Key)
    requires OrderInv(p, s) && Details.NoRepeats(p.visited) && s.verifier.Deciding? && Has(s.m, key)
    requires s.disk.Some? && s.disk.value.branches == s.m.branches
    requires key.Branch? ==> FirstPending(p.visited, s.disk.value) == Some(key.name)
    ensures OrderInv(p, DoClaim(s, key))
  {
    hide FirstPending, Ordered;
    var d := s.disk.value;
    if key.Branch? {
      ClaimOrdered(p.visited, d, key.name, StepOf(d, key).(state := Running));
    } else {
      SameBranches(p.visited, d, WithStep(d, key, StepOf(d, key).(state := Running)).(phase := CompileRunning));
    }
  }

  lemma SameBranches(visited: seq<string>, m: Execution, m': Execution)
    requires Ordered(visited, m) && m'.branches == m.branches
    ensures Ordered(visited, m')
  {
  }

  lemma FirstAgrees(visited: seq<string>, m: Execution, m': Execution)
    requires m'.branches == m.branches
    ensures FirstPending(visited, m) == FirstPending(visited, m')
  {
    if |visited| > 0 { FirstAgrees(visited[1..], m, m'); }
  }

  lemma DecideFine(p: Plan, s: State)
    requires ValidPlan(p) && OrderInv(p, s) && Safety.Inv(p, s) && Details.NoRepeats(p.visited)
    ensures OrderInv(p, DoDecide(p, s))
  {
    if s.verifier.Deciding? && !s.m.phase.Broken? {
      var d := s.disk.value;
      assert Safety.Agrees(d, s.m) && d.branches == s.m.branches && Safety.Concluded(d);
      FirstAgrees(p.visited, s.m, d);
      hide Safety.Inv, Ordered;
      if !s.m.compile.state.Done? {
        ClaimFine(p, s, Compile);
      } else if s.m.derived != "" && s.m.executable != "" {
        match FirstPending(p.visited, s.m)
        case Some(b) =>
          FirstIsFirst(p.visited, s.m);
          ClaimFine(p, s, Branch(b));
        case None =>
          SameBranches(p.visited, s.m, s.m.(phase := Aggregating));
          SaveFine(p, s, s.m.(phase := Aggregating), Summing, Out);
      }
    }
  }

  lemma BindFine(p: Plan, s: State, accepted: bool)
    requires ValidPlan(p) && OrderInv(p, s) && Safety.Inv(p, s) && Details.NoRepeats(p.visited)
    ensures OrderInv(p, DoBind(s, accepted))
  {
    var a := s.verifier;
    hide Ordered;
    if (a.Created? || a.Allocated?) && Has(s.m, a.key) {
      assert Safety.Working(s.world, s.m, a.key, a.x);
      var m' := WithStep(s.m, a.key, StepOf(s.m, a.key).(execution := Some(a.x)));
      if a.key.Branch? {
        BegunOrdered(p.visited, s.m, a.key.name, StepOf(s.m, a.key).(execution := Some(a.x)));
      } else {
        SameBranches(p.visited, s.m, m');
      }
      hide Safety.Inv;
    }
  }

  lemma SettleFine(p: Plan, s: State)
    requires ValidPlan(p) && OrderInv(p, s) && Safety.Inv(p, s) && Details.NoRepeats(p.visited)
    ensures OrderInv(p, DoSettle(p, s))
  {
    match s.verifier
    case Held(Compile, x) => SettleCompileFine(p, s, x);
    case Held(Branch(b), x) => SettleBranchFine(p, s, b, x);
    case _ =>
  }

  lemma SettleCompileFine(p: Plan, s: State, x: ExecutionRef)
    requires ValidPlan(p) && OrderInv(p, s) && Safety.Inv(p, s) && s.verifier == Held(Compile, x)
    ensures OrderInv(p, DoSettle(p, s))
  {
    assert Safety.Working(s.world, s.m, Compile, x) && Safety.StepInv(p, s.world, Compile, s.m.compile);
    assert Safety.RunInv(p, s.world, x.run);
    hide Safety.Inv, Ordered;
    var exit := s.world.runs[x.run].exit.value;
    if exit in COMPILE_REASONS {
      var step := s.m.compile.(state := BusinessFailed, reason := COMPILE_REASONS[exit]);
      SameBranches(p.visited, s.m, s.m.(compile := step, phase := Aggregating));
    } else {
      SameBranches(p.visited, s.m, s.m.(compile := s.m.compile.(execution := Some(x)), derived := p.compile.derived));
    }
  }

  lemma SettleBranchFine(p: Plan, s: State, b: string, x: ExecutionRef)
    requires ValidPlan(p) && OrderInv(p, s) && Safety.Inv(p, s) && Details.NoRepeats(p.visited)
    requires s.verifier == Held(Branch(b), x)
    ensures OrderInv(p, DoSettle(p, s))
  {
    assert Safety.Working(s.world, s.m, Branch(b), x);
    assert Safety.StepInv(p, s.world, Branch(b), s.m.branches[b]);
    hide Safety.Inv, Safety.RecordInv, Fine;
    if x.run in s.world.runs && s.world.runs[x.run].exit.Some? {
      BranchSaves(p, s, b, x, s.world.runs[x.run].exit.value);
    }
  }

  lemma BranchSaves(p: Plan, s: State, b: string, x: ExecutionRef, exit: int)
    requires OrderInv(p, s) && !s.verifier.Out? && Details.NoRepeats(p.visited)
    requires b in p.branches && b in s.m.branches && !s.m.branches[b].state.Pending? && !s.m.phase.Completed?
    requires s.m.branches[b].state.Done? ==> Safety.SealedBranch(p, b, s.m.branches[b].result)
    ensures OrderInv(p, SettleBranch(p, s, b, x, exit))
  {
    hide Ordered, Save;
    SameBranches(p.visited, s.m, s.m.(cleanup := InProgress));
    SaveFine(p, s, s.m.(cleanup := InProgress), Deleting(ExitFailed), Out);
    SameBranches(p.visited, s.m, MarkBroken(s.m));
    SaveFine(p, s, MarkBroken(s.m), Deleting(AsBroken), Out);
    if p.branches[b].report.Some? && ValidBranchResult(p.branches[b].report.value, b) {
      var report := p.branches[b].report.value;
      var sealed := Step(Done, Some(x), Sha(report), report.reason);
      if report.status.InfrastructureError? {
        var broken := s.m.(branches := s.m.branches[b := sealed.(state := StepBroken)]);
        BegunOrdered(p.visited, s.m, b, sealed.(state := StepBroken));
        SameBranches(p.visited, broken, MarkBroken(broken));
        SaveFine(p, s, MarkBroken(broken), Deleting(AsBroken), Out);
      } else {
        BegunOrdered(p.visited, s.m, b, sealed);
        SaveFine(p, s, s.m.(branches := s.m.branches[b := sealed]), Deciding, Out);
      }
    }
  }

  lemma CheckFine(p: Plan, s: State)
    requires OrderInv(p, s)
    ensures OrderInv(p, DoCheckCompiled(p, s))
  {
    if s.verifier.Checking? { SameBranchesAll(p.visited, s.m); }
    hide Ordered;
  }

  lemma SumFine(p: Plan, s: State, files: map<string, BranchResult>)
    requires ValidPlan(p) && OrderInv(p, s)
    ensures OrderInv(p, DoSum(p, s, files))
  {
    if s.verifier.Summing? {
      SameBranchesAll(p.visited, s.m);
      hide Ordered, Aggregated, ExpectedDetails, Accepted, Save;
      if (forall b | b in p.listed :: b in files && b in s.m.branches)
         && Accepted(p.listed, RecordedSteps(s.m), files) {
        var details := Sha(Aggregated(p.listed, p.tests, files, s.m.executable));
        SaveFine(p, s, s.m.(details := details, cleanup := InProgress), Deleting(Succeeded), Out);
      }
    }
  }

  /** The details of a failure are stored. */
  lemma FailureFine(p: Plan, s: State)
    requires ValidPlan(p) && OrderInv(p, s) && Safety.Inv(p, s)
    ensures OrderInv(p, DoFinishFailure(p, s))
  {
    if s.verifier.Failing? {
      assert Safety.StepInv(p, s.world, Compile, StepOf(s.m, Compile)) && Safety.Labelled(p, s.world, s.m);
      SameBranchesAll(p.visited, s.m);
      hide Safety.Inv, Safety.RecordInv, Ordered, CompileFailure, ExpectedDetails, Save;
      var details := Sha(CompileFailure(p.listed, p.tests, s.m.compile.reason));
      SaveFine(p, s, s.m.(details := details, cleanup := NotCreated, phase := Progress.Completed), Out, Out);
    }
  }

  /** The deletion is recorded. */
  lemma DeletedFine(p: Plan, s: State)
    requires ValidPlan(p) && OrderInv(p, s) && Safety.Inv(p, s)
    ensures OrderInv(p, DoSaveDeleted(s))
  {
    if s.verifier.Saving? {
      assert s.m.derived != "";
      SameBranchesAll(p.visited, s.m);
      hide Safety.Inv, Ordered, Save;
      var cleaned := s.m.(cleanup := Cleaned);
      SaveFine(p, s, cleaned.(phase := Progress.Completed), Out, Out);
      SaveFine(p, s, cleaned.(phase := Broken), Out, Out);
      SaveFine(p, s, cleaned, Out, Out);
    }
  }

  lemma SameBranchesAll(visited: seq<string>, m: Execution)
    requires Ordered(visited, m)
    ensures forall m': Execution | m'.branches == m.branches :: Ordered(visited, m')
  {
  }

  lemma CancelFine(p: Plan, s: State, run: string, landed: bool, answered: bool)
    requires OrderInv(p, s)
    ensures OrderInv(p, DoBeginCancel(s)) && OrderInv(p, DoAskCancel(s, run, landed, answered))
    ensures OrderInv(p, DoEndAsking(s)) && OrderInv(p, DoClean(s, landed, answered))
  {
    if s.disk.Some? { SameBranchesAll(p.visited, s.disk.value); }
    hide Ordered;
  }

  /** Steps that save nothing. */
  lemma QuietFine(p: Plan, s: State, step: MultiRunProtocol.Step)
    requires ValidPlan(p) && OrderInv(p, s)
    requires step.RequireLive? || step.CreateRun? || step.WaitRunning? || step.WriteMarker? || step.WaitRun?
             || step.CancelUnreleased? || step.Drop? || step.Delete? || step.Throw? || step.Crash?
             || step.CrashCancel? || step.Allocate? || step.Exit? || step.Kill?
    ensures OrderInv(p, Apply(p, s, step))
  {
    hide Fine, Trace;
  }

  lemma StepFine(p: Plan, s: State, step: MultiRunProtocol.Step)
    requires ValidPlan(p) && OrderInv(p, s) && Safety.Inv(p, s) && Details.NoRepeats(p.visited)
    ensures OrderInv(p, Apply(p, s, step))
  {
    hide Safety.Inv, OrderInv, Trace;
    match step
    case Open => OpenFine(p, s);
    case Decide => DecideFine(p, s);
    case Bind(accepted) => BindFine(p, s, accepted);
    case Settle => SettleFine(p, s);
    case CheckCompiled => CheckFine(p, s);
    case FinishFailure => FailureFine(p, s);
    case Sum(files) => SumFine(p, s, files);
    case SaveDeleted => DeletedFine(p, s);
    case BeginCancel => CancelFine(p, s, "", false, false);
    case AskCancel(run, landed, answered) => CancelFine(p, s, run, landed, answered);
    case EndAsking => CancelFine(p, s, "", false, false);
    case Clean(landed, answered) => CancelFine(p, s, "", landed, answered);
    case _ => QuietFine(p, s, step);
  }

  lemma {:induction false} TraceFine(p: Plan, s: State, steps: seq<MultiRunProtocol.Step>)
    requires ValidPlan(p) && OrderInv(p, s) && Safety.Inv(p, s) && Details.NoRepeats(p.visited)
    ensures OrderInv(p, Trace(p, s, steps))
    decreases |steps|
  {
    hide Safety.Inv, OrderInv, Apply;
    if |steps| > 0 {
      StepFine(p, s, steps[0]);
      Safety.StepKeeps(p, s, steps[0]);
      TraceFine(p, Apply(p, s, steps[0]), steps[1..]);
    }
  }

  /**
   * Over any crashes, restarts and cancels: a branch is begun only after all branches before it are done, so
   * at most one is begun and not done; a broken record is cleaning up or has done so; a completed one has
   * nothing left to clean.
   */
  lemma OneBranchAtATime(p: Plan, s: State)
    requires ValidPlan(p) && Safety.Reachable(p, s) && s.disk.Some? && Details.NoRepeats(p.visited)
    ensures forall i, j | 0 <= i < j < |p.visited| ::
              && p.visited[i] in s.disk.value.branches && p.visited[j] in s.disk.value.branches
              && (s.disk.value.branches[p.visited[j]].state.Pending? || s.disk.value.branches[p.visited[i]].state.Done?)
    ensures Labelled(s.disk.value)
  {
    var steps: seq<MultiRunProtocol.Step> :| s == Trace(p, Init(), steps);
    Safety.ReachableInv(p, Init()) by { assert Trace(p, Init(), []) == Init(); }
    Safety.ReachableInv(p, s);
    TraceFine(p, Init(), steps);
  }
}
