/** How a verification ends whose submission compiles, but one of whose branches does not end well. */
module MultiRunBreaks {
  import opened Models
  import opened Scorer
  import opened MultiRunStore
  import opened MultiRunProtocol
  import opened MultiRunCompletion
  import Safety = MultiRunSafety

  /** No branch was left in between. */
  ghost predicate Clean(m: Execution) {
    forall b | b in m.branches :: m.branches[b] == PENDING || m.branches[b].state.Done?
  }

  /** The record is broken, and its derived Environment is deleted. */
  ghost predicate BrokenAndClean(p: Plan, s: State) {
    && s.disk.Some? && s.disk.value.phase.Broken? && s.disk.value.cleanup.Cleaned?
    && p.compile.derived in s.world.deleted
  }

  /** The bad end of a branch sends the verifier to clean up. */
  lemma Settles(p: Plan, base: State, s: State, b: string, x: ExecutionRef) returns (s': State, purpose: Purpose)
    requires ValidPlan(p) && Reaches(p, base, s) && s.verifier == Held(Branch(b), x)
    requires s.canceller.Free? && !s.marker && s.disk == Some(s.m) && !Safety.Stopping(s.m)
    requires b in p.branches && b in s.m.branches && !HealthyBranch(p, b)
    requires x.run in s.world.runs && s.world.runs[x.run].exit == Some(p.branches[b].exit)
    ensures Reaches(p, base, s') && s'.verifier == Deleting(purpose) && s'.canceller.Free? && !s'.marker
    ensures s'.disk == Some(s'.m) && !Safety.Stopping(s'.m) && s'.m.derived == s.m.derived
    ensures purpose.AsBroken? || purpose.ExitFailed?
    ensures purpose.AsBroken? ==> s'.m.phase.Broken?
  {
    hide Reaches, Trace;
    ThenStep(p, base, s, Settle);
    s' := DoSettle(p, s);
    purpose := s'.verifier.purpose;
  }

  lemma CleansUp(p: Plan, base: State, s: State, purpose: Purpose) returns (s': State)
    requires ValidPlan(p) && Reaches(p, base, s) && s.verifier == Deleting(purpose) && !purpose.Succeeded?
    requires s.canceller.Free? && !s.marker && s.disk == Some(s.m) && !Safety.Stopping(s.m)
    requires s.m.derived == p.compile.derived != "" && (purpose.AsBroken? ==> s.m.phase.Broken?)
    ensures Reaches(p, base, s') && BrokenAndClean(p, s')
  {
    hide Reaches, Trace;
    ThenStep(p, base, s, Delete(true, true));
    var deleted := DoDelete(s, true, true);
    ThenStep(p, base, deleted, SaveDeleted);
    s' := DoSaveDeleted(deleted);
  }

  lemma Breaks(p: Plan, base: State, s: State, b: string) returns (s': State)
    requires Compiled(p) && Halfway(p, base, s) && FirstPending(p.visited, s.m) == Some(b)
    requires b in p.branches && b in s.m.branches && !HealthyBranch(p, b) && s.m.branches[b] == PENDING
    ensures Reaches(p, base, s') && BrokenAndClean(p, s')
  {
    hide Reaches, Safety.Inv, HealthyBranch;
    var held, x := Executes(p, base, s, Branch(b));
    hide FirstPending, DoDecide, DoClaim;
    var deleting, purpose := Settles(p, base, held, b, x);
    s' := CleansUp(p, base, deleting, purpose);
  }

  /** A branch that is done ended well. */
  lemma DoneIsHealthy(p: Plan, base: State, s: State, b: string)
    requires ValidPlan(p) && Ready(p, base, s) && b in p.branches && b in s.m.branches && s.m.branches[b].state.Done?
    ensures HealthyBranch(p, b)
  {
    ReachesInv(p, base, s);
    assert Safety.StepInv(p, s.world, Branch(b), StepOf(s.m, Branch(b)));
  }

  lemma {:induction false} RunsUntilBad(p: Plan, base: State, s: State, bad: string) returns (s': State)
    requires Compiled(p) && Halfway(p, base, s) && Clean(s.m) && s.m.branches.Keys == p.branches.Keys
    requires bad in p.branches && !HealthyBranch(p, bad)
    ensures Reaches(p, base, s') && BrokenAndClean(p, s')
    decreases |Remaining(s.m)|
  {
    Safety.FirstPendingFinds(p.visited, s.m);
    if s.m.branches[bad].state.Done? { DoneIsHealthy(p, base, s, bad); }
    hide Reaches, HealthyBranch, BrokenAndClean;
    var b := FirstPending(p.visited, s.m).value;
    if HealthyBranch(p, b) {
      var next := Advances(p, base, s, b);
      CleanAdvances(s, next, b);
      assert |Remaining(next.m)| < |Remaining(s.m)|;
      s' := RunsUntilBad(p, base, next, bad);
    } else {
      s' := Breaks(p, base, s, b);
    }
  }

  lemma CleanAdvances(s: State, s': State, b: string)
    requires Clean(s.m) && s'.m.branches.Keys == s.m.branches.Keys && b in s.m.branches
    requires forall c | c in s.m.branches && c != b :: s'.m.branches[c] == s.m.branches[c]
    requires Remaining(s'.m) == Remaining(s.m) - {b}
    ensures Clean(s'.m)
  {
    assert b !in Remaining(s'.m);
  }

  /** Such a verification can end with a broken record and its Environment deleted, and never completes. */
  lemma BadBranchBreaks(p: Plan) returns (s: State)
    requires Compiled(p) && !Healthy(p)
    ensures Reaches(p, Init(), s) && BrokenAndClean(p, s)
    ensures forall s' | Safety.Reachable(p, s') && s'.disk.Some? :: !s'.disk.value.phase.Completed?
  {
    hide Trace, Apply, ExpectedDetails, BrokenAndClean, Clean;
    InitRestartable(p);
    Safety.ReachableInv(p, Init());
    var bad :| bad in p.branches && !HealthyBranch(p, bad);
    var begun := Opens(p, Init());
    assert begun.m == FreshExecution(p.branches.Keys);
    var held, x := Executes(p, Init(), begun, Compile);
    var checked := Checks(p, Init(), held, x);
    StaysClean(p, checked);
    s := RunsUntilBad(p, Init(), checked, bad);
    forall s' | Safety.Reachable(p, s') && s'.disk.Some? ensures !s'.disk.value.phase.Completed? {
      if s'.disk.value.phase.Completed? { CompletedWasHealthy(p, s'); }
    }
  }

  lemma StaysClean(p: Plan, s: State)
    requires s.m.branches == FreshExecution(p.branches.Keys).branches
    ensures Clean(s.m) && forall b | b in s.m.branches :: Resumable(s.world, s.m.branches[b])
  {
  }

  // ------------------------------------------------------------------ compile results, and restarts

  /** A compile Run that succeeds without a readable result. */
  ghost predicate UnreadableCompile(p: Plan) {
    ValidPlan(p) && p.compile.exit == 0 && p.compile.derived != "" && p.compile.report.None?
  }

  /** The Environment of such a Run is recorded first, so that it is deleted again. */
  lemma SettlesUnreadable(p: Plan, base: State, s: State, x: ExecutionRef) returns (s': State)
    requires UnreadableCompile(p) && Reaches(p, base, s) && s.verifier == Held(Compile, x)
    requires s.canceller.Free? && !s.marker && s.disk == Some(s.m) && !Safety.Stopping(s.m)
    requires x.run in s.world.runs && s.world.runs[x.run].exit == Some(0)
    ensures Reaches(p, base, s') && s'.verifier == Deleting(AsBroken) && s'.canceller.Free? && !s'.marker
    ensures s'.disk == Some(s'.m) && !Safety.Stopping(s'.m) && s'.m.derived == p.compile.derived
    ensures s'.m.phase.Broken?
  {
    hide Reaches, Trace;
    ThenStep(p, base, s, Settle);
    var settled := DoSettle(p, s);
    assert settled.verifier.Checking?;
    ThenStep(p, base, settled, CheckCompiled);
    s' := DoCheckCompiled(p, settled);
  }

  /** A compile result that cannot be read breaks the verification, and its Environment is deleted. */
  lemma UnreadableCompileBreaks(p: Plan) returns (s: State)
    requires UnreadableCompile(p)
    ensures Reaches(p, Init(), s) && BrokenAndClean(p, s)
    ensures forall s' | Safety.Reachable(p, s') && s'.disk.Some? :: !s'.disk.value.phase.Completed?
  {
    hide Trace, Apply, ExpectedDetails, BrokenAndClean;
    InitRestartable(p);
    Safety.ReachableInv(p, Init());
    var begun := Opens(p, Init());
    assert begun.m == FreshExecution(p.branches.Keys);
    var held, x := Executes(p, Init(), begun, Compile);
    var deleting := SettlesUnreadable(p, Init(), held, x);
    s := CleansUp(p, Init(), deleting, AsBroken);
    forall s' | Safety.Reachable(p, s') && s'.disk.Some? ensures !s'.disk.value.phase.Completed? {
      if s'.disk.value.phase.Completed? { CompletedWasHealthy(p, s'); }
    }
  }

  /** The Environment of a broken verification whose deletion failed or was interrupted is deleted on the next start. */
  lemma BrokenIsCleaned(p: Plan, s: State) returns (s': State)
    requires ValidPlan(p) && Safety.Reachable(p, s) && s.verifier.Out? && s.canceller.Free? && !s.marker
    requires s.disk.Some? && s.disk.value.phase.Broken? && !s.disk.value.cleanup.Cleaned?
    requires s.disk.value.derived != ""
    ensures Reaches(p, s, s') && BrokenAndClean(p, s') && s'.verifier.Out?
    ensures s'.disk == Some(s.disk.value.(cleanup := Cleaned)) && s'.world.runs == s.world.runs
  {
    RecordFits(p, s);
    assert Trace(p, s, []) == s;
    assert Reaches(p, s, s);
    hide Reaches, Trace, Apply, Safety.Reachable;
    QuietIs(p, s, Open);
    ThenStep(p, s, s, Open);
    var begun := DoOpen(p, s);
    QuietIs(p, begun, Decide);
    ThenStep(p, s, begun, Decide);
    var deleting := DoDecide(p, begun);
    assert deleting.verifier == Deleting(AsBroken);
    QuietIs(p, deleting, Delete(true, true));
    ThenStep(p, s, deleting, Delete(true, true));
    var deleted := DoDelete(deleting, true, true);
    QuietIs(p, deleted, SaveDeleted);
    ThenStep(p, s, deleted, SaveDeleted);
    s' := DoSaveDeleted(deleted);
  }

  lemma RecordFits(p: Plan, s: State)
    requires ValidPlan(p) && Safety.Reachable(p, s) && s.disk.Some?
    ensures s.disk.value.branches.Keys == p.branches.Keys
    ensures s.disk.value.derived != "" ==> s.disk.value.derived == p.compile.derived
  {
    Safety.ReachableInv(p, s);
    hide Safety.Reachable, Trace;
  }

  lemma QuietIs(p: Plan, s: State, step: MultiRunProtocol.Step)
    requires ValidPlan(p)
    ensures step.Open? ==> Apply(p, s, step) == DoOpen(p, s)
    ensures step.Decide? ==> Apply(p, s, step) == DoDecide(p, s)
    ensures step.Delete? ==> Apply(p, s, step) == DoDelete(s, step.landed, step.answered)
    ensures step.SaveDeleted? ==> Apply(p, s, step) == DoSaveDeleted(s)
  {
    hide DoOpen, DoDecide, DoDelete, DoSaveDeleted, Trace;
  }

  // ------------------------------------------------------------------ a cancel that comes first

  ghost predicate NeverStarted(s: State) {
    s.disk.None? && s.marker && s.verifier.Out? && s.world.runs == map[]
  }

  lemma NeverStarts(p: Plan, s: State, step: MultiRunProtocol.Step)
    requires ValidPlan(p) && NeverStarted(s)
    ensures NeverStarted(Apply(p, s, step))
  {
    hide Trace, ExpectedDetails, Aggregated, CompileFailure;
  }

  lemma {:induction false} StaysUnstarted(p: Plan, s: State, steps: seq<MultiRunProtocol.Step>)
    requires ValidPlan(p) && NeverStarted(s)
    ensures NeverStarted(Trace(p, s, steps))
    decreases |steps|
  {
    hide Apply, NeverStarted;
    if |steps| > 0 {
      NeverStarts(p, s, steps[0]);
      StaysUnstarted(p, Apply(p, s, steps[0]), steps[1..]);
    }
  }

  /** A cancel that comes before the first start wins for good: nothing is ever recorded or run. */
  lemma EarlyCancelWins(p: Plan, steps: seq<MultiRunProtocol.Step>)
    requires ValidPlan(p)
    ensures
      var s := Trace(p, Apply(p, Init(), BeginCancel), steps);
      s.disk.None? && s.world.runs == map[]
  {
    StaysUnstarted(p, Apply(p, Init(), BeginCancel), steps);
  }
}
