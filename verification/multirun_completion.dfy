/** The undisturbed execution: it completes, so the expected details are what it publishes. */
module MultiRunCompletion {
  import opened Models
  import opened Scorer
  import opened MultiRunStore
  import opened MultiRunProtocol
  import Safety = MultiRunSafety

  /** The submission compiles. */
  ghost predicate Compiled(p: Plan) {
    && ValidPlan(p)
    && p.compile.exit == 0 && p.compile.derived != ""
    && p.compile.report.Some? && p.compile.report.value != ""
  }

  /** Every Run of the plan ends well. */
  ghost predicate Healthy(p: Plan) {
    Compiled(p) && forall b | b in p.branches :: HealthyBranch(p, b)
  }

  ghost predicate HealthyBranch(p: Plan, b: string)
    requires b in p.branches
  {
    && p.branches[b].exit == 0
    && p.branches[b].report.Some?
    && ValidBranchResult(p.branches[b].report.value, b)
    && !p.branches[b].report.value.status.InfrastructureError?
  }

  /** No crash, no exception, no cancel, and every remote call lands and answers. */
  ghost predicate Smooth(step: MultiRunProtocol.Step) {
    match step
    case Open => true
    case Decide => true
    case RequireLive => true
    case CreateRun(_, made, answered) => made && answered
    case Bind(accepted) => accepted
    case WaitRunning => true
    case WriteMarker(landed, answered) => landed && answered
    case WaitRun => true
    case Settle => true
    case CheckCompiled => true
    case FinishFailure => true
    case Sum(_) => true
    case Delete(landed, answered) => landed && answered
    case SaveDeleted => true
    case Allocate(_, _) => true
    case Exit(_) => true
    case _ => false
  }

  ghost predicate Reaches(p: Plan, s: State, s': State)
    requires ValidPlan(p)
  {
    exists steps: seq<MultiRunProtocol.Step> ::
      (forall step | step in steps :: Smooth(step)) && Trace(p, s, steps) == s'
  }

  lemma {:induction false} TraceSnoc(p: Plan, s: State, steps: seq<MultiRunProtocol.Step>, step: MultiRunProtocol.Step)
    requires ValidPlan(p)
    ensures Trace(p, s, steps + [step]) == Apply(p, Trace(p, s, steps), step)
    decreases |steps|
  {
    if |steps| == 0 {
      assert (steps + [step])[1..] == [];
    } else {
      assert (steps + [step])[1..] == steps[1..] + [step];
      TraceSnoc(p, Apply(p, s, steps[0]), steps[1..], step);
    }
  }

  lemma ThenStep(p: Plan, s: State, s': State, step: MultiRunProtocol.Step)
    requires ValidPlan(p) && Reaches(p, s, s') && Smooth(step)
    ensures Reaches(p, s, Apply(p, s', step))
  {
    var steps: seq<MultiRunProtocol.Step>
      :| (forall step | step in steps :: Smooth(step)) && Trace(p, s, steps) == s';
    TraceSnoc(p, s, steps, step);
    assert forall x | x in steps + [step] :: Smooth(x);
  }

  lemma {:induction false} ReachesInv(p: Plan, base: State, s: State)
    requires ValidPlan(p) && Reaches(p, base, s) && Safety.Inv(p, base)
    ensures Safety.Inv(p, s)
  {
    var steps: seq<MultiRunProtocol.Step>
      :| (forall step | step in steps :: Smooth(step)) && Trace(p, base, steps) == s;
    Safety.TraceKeeps(p, base, steps);
  }

  /** The verifier is about to decide, nobody else acts, and the record is what it remembers. */
  ghost predicate Ready(p: Plan, base: State, s: State)
    requires ValidPlan(p)
  {
    && Reaches(p, base, s) && Safety.Inv(p, base)
    && s.verifier.Deciding? && s.canceller.Free? && !s.marker
    && s.disk == Some(s.m)
    && !Safety.Stopping(s.m) && !s.m.phase.Broken?
    && s.m.branches.Keys == p.branches.Keys
  }

  /** A step that a new verifier can bring to its end: no Run is unrecorded, unreleased or killed. */
  ghost predicate Resumable(w: World, step: MultiRunStore.Step) {
    || step == PENDING
    || step.state.Done?
    || (step.state.Running? && step.execution.Some? && step.execution.value.run in w.runs
        && var run := w.runs[step.execution.value.run]; run.exit == Some(0) || (run.exit.None? && run.released))
  }

  /** No verifier is alive, and the record allows another one. */
  ghost predicate Restartable(s: State) {
    && s.verifier.Out? && s.canceller.Free? && !s.marker
    && (s.disk.Some? ==>
          && !Safety.Stopping(s.disk.value) && !s.disk.value.phase.Broken?
          && forall key | Has(s.disk.value, key) :: Resumable(s.world, StepOf(s.disk.value, key)))
  }

  lemma {:induction false} FreshRun(runs: set<string>) returns (run: string)
    ensures run !in runs
  {
    var n := LongerThanAll(runs);
    run := seq(n, i => 'r');
  }

  lemma {:induction false} LongerThanAll(runs: set<string>) returns (n: nat)
    ensures forall r | r in runs :: |r| < n
    decreases |runs|
  {
    if runs == {} {
      n := 0;
    } else {
      var r :| r in runs;
      var rest := LongerThanAll(runs - {r});
      n := rest + |r| + 1;
      forall x | x in runs ensures |x| < n { assert x == r || x in runs - {r}; }
    }
  }

  /** The claim of a pending step. */
  lemma Claims(p: Plan, base: State, s: State, key: Key) returns (s': State)
    requires ValidPlan(p) && Ready(p, base, s)
    requires Has(s.m, key) && StepOf(s.m, key) == PENDING
    requires DoDecide(p, s) == DoClaim(s, key)
    ensures Reaches(p, base, s') && s' == s.(disk := s'.disk, m := s'.m, verifier := Creating(key))
    ensures s'.disk == Some(s'.m)
    ensures s'.m == WithStep(s.m, key, PENDING.(state := Running)).(phase := s'.m.phase)
    ensures s'.m.phase == if key.Compile? then CompileRunning else s.m.phase
  {
    ThenStep(p, base, s, Decide);
    var claimed := Apply(p, s, Decide);
    ThenStep(p, base, claimed, RequireLive);
    s' := Apply(p, claimed, RequireLive);
  }

  /** The Run is created and bound. */
  lemma Creates(p: Plan, base: State, s: State, key: Key, run: string) returns (s': State, x: ExecutionRef)
    requires ValidPlan(p) && Reaches(p, base, s) && s.verifier == Creating(key)
    requires s.canceller.Free? && !s.marker && s.disk == Some(s.m) && !Safety.Stopping(s.m)
    requires Has(s.m, key) && run !in s.world.runs
    ensures Reaches(p, base, s')
    ensures s' == s.(disk := s'.disk, m := s'.m, verifier := Waiting(key, x), world := s'.world)
    ensures s'.disk == Some(s'.m)
    ensures s'.m == WithStep(s.m, key, StepOf(s.m, key).(execution := Some(x)))
    ensures x.run == run && x.allocation == "" && run in s'.world.runs
    ensures s'.world.runs == s.world.runs[run := Run(key, x.environment, "", None, false, false)]
  {
    x := ExecutionRef(if key.Compile? then p.environment else s.m.derived, run, "");
    ThenStep(p, base, s, CreateRun(run, true, true));
    var created := Apply(p, s, CreateRun(run, true, true));
    assert created.verifier == Created(key, x);
    ThenStep(p, base, created, Bind(true));
    s' := Apply(p, created, Bind(true));
  }

  /** The Run gets its allocation. */
  lemma Allocates(p: Plan, base: State, s: State, key: Key, x: ExecutionRef) returns (s': State)
    requires ValidPlan(p) && Reaches(p, base, s) && s.verifier == Waiting(key, x)
    requires x.run in s.world.runs && s.world.runs[x.run] == Run(key, x.environment, "", None, false, false)
    ensures Reaches(p, base, s')
    ensures s' == s.(verifier := Allocated(key, x.(allocation := "a")), world := s'.world)
    ensures s'.world.runs == s.world.runs[x.run := Run(key, x.environment, "a", None, false, false)]
  {
    ThenStep(p, base, s, Allocate(x.run, "a"));
    var placed := Apply(p, s, Allocate(x.run, "a"));
    ThenStep(p, base, placed, WaitRunning);
    s' := Apply(p, placed, WaitRunning);
  }

  /** The Run is bound again and released. */
  lemma Releases(p: Plan, base: State, s: State, key: Key, x: ExecutionRef) returns (s': State)
    requires ValidPlan(p) && Reaches(p, base, s) && s.verifier == Allocated(key, x)
    requires s.canceller.Free? && !s.marker && s.disk == Some(s.m) && !Safety.Stopping(s.m)
    requires Has(s.m, key) && x.run in s.world.runs
    requires s.world.runs[x.run] == Run(key, x.environment, x.allocation, None, false, false)
    ensures Reaches(p, base, s')
    ensures s' == s.(disk := s'.disk, m := s'.m, verifier := Following(key, x), world := s'.world)
    ensures s'.disk == Some(s'.m)
    ensures s'.m == WithStep(s.m, key, StepOf(s.m, key).(execution := Some(x)))
    ensures s'.world.runs == s.world.runs[x.run := Run(key, x.environment, x.allocation, None, true, false)]
  {
    ThenStep(p, base, s, Bind(true));
    var bound := Apply(p, s, Bind(true));
    assert bound.verifier == Preparing(key, x);
    ThenStep(p, base, bound, WriteMarker(true, true));
    s' := Apply(p, bound, WriteMarker(true, true));
  }

  lemma TwiceBound(m: Execution, key: Key, x: ExecutionRef, y: ExecutionRef)
    requires Has(m, key)
    ensures
      var once := WithStep(m, key, StepOf(m, key).(execution := Some(x)));
      WithStep(once, key, StepOf(once, key).(execution := Some(y)))
      == WithStep(m, key, StepOf(m, key).(execution := Some(y)))
  {
    if key.Branch? {
      var once := m.branches[key.name := m.branches[key.name].(execution := Some(x))];
      assert once[key.name := m.branches[key.name].(execution := Some(y))]
          == m.branches[key.name := m.branches[key.name].(execution := Some(y))];
    }
  }

  /** The released Run ends with its sealed exit status. */
  lemma Ends(p: Plan, base: State, s: State, key: Key, x: ExecutionRef) returns (s': State)
    requires ValidPlan(p) && Reaches(p, base, s) && s.verifier == Following(key, x)
    requires key.Branch? ==> key.name in p.branches
    requires x.run in s.world.runs && x.allocation != ""
    requires s.world.runs[x.run] == Run(key, x.environment, x.allocation, None, true, false)
    ensures Reaches(p, base, s')
    ensures s' == s.(verifier := Held(key, x), world := s'.world, received := s'.received)
    ensures x.run in s'.world.runs && s'.world.runs[x.run].exit == Some(ExitOf(p, key))
    ensures s'.world.runs == s.world.runs[x.run := s'.world.runs[x.run]]
  {
    ThenStep(p, base, s, Exit(x.run));
    var s1 := Apply(p, s, Exit(x.run));
    ThenStep(p, base, s1, WaitRun);
    s' := Apply(p, s1, WaitRun);
  }

  /** Runs of other steps are as they were. */
  ghost predicate OthersSame(s: State, s': State, key: Key) {
    forall r | r in s.world.runs && s.world.runs[r].key != key ::
      r in s'.world.runs && s'.world.runs[r] == s.world.runs[r]
  }

  /** The step has been worked on, and its Run has ended. */
  ghost predicate Worked(p: Plan, s: State, s': State, key: Key, x: ExecutionRef)
    requires key.Branch? ==> key.name in p.branches
  {
    && s'.verifier == Held(key, x) && s'.canceller.Free? && !s'.marker && s'.disk == Some(s'.m)
    && Has(s'.m, key)
    && s'.m == WithStep(s.m, key, StepOf(s'.m, key)).(phase := s'.m.phase)
    && s'.m.phase == (if key.Compile? then CompileRunning else s.m.phase)
    && x.run in s'.world.runs && s'.world.runs[x.run].exit == Some(ExitOf(p, key))
    && OthersSame(s, s', key)
  }

  /** A claimed step gets its Run, which is brought to its end. */
  lemma RunsFirst(p: Plan, base: State, s: State, key: Key) returns (s': State, x: ExecutionRef)
    requires ValidPlan(p) && Reaches(p, base, s) && s.verifier == Creating(key)
    requires s.canceller.Free? && !s.marker && s.disk == Some(s.m) && !Safety.Stopping(s.m) && Has(s.m, key)
    requires key.Branch? ==> key.name in p.branches
    ensures Reaches(p, base, s')
    ensures s'.verifier == Held(key, x) && s'.canceller.Free? && !s'.marker && s'.disk == Some(s'.m)
    ensures s'.m == WithStep(s.m, key, StepOf(s.m, key).(execution := Some(x)))
    ensures x.run in s'.world.runs && s'.world.runs[x.run].exit == Some(ExitOf(p, key))
    ensures forall r | r in s.world.runs :: r in s'.world.runs && s'.world.runs[r] == s.world.runs[r]
  {
    hide Reaches, Apply, Trace;
    var run := FreshRun(s.world.runs.Keys);
    var created, first := Creates(p, base, s, key, run);
    var placed := Allocates(p, base, created, key, first);
    x := first.(allocation := "a");
    var released := Releases(p, base, placed, key, x);
    TwiceBound(s.m, key, first, x);
    s' := Ends(p, base, released, key, x);
  }

  lemma Executes(p: Plan, base: State, s: State, key: Key) returns (s': State, x: ExecutionRef)
    requires ValidPlan(p) && Ready(p, base, s)
    requires Has(s.m, key) && StepOf(s.m, key) == PENDING
    requires DoDecide(p, s) == DoClaim(s, key)
    ensures Reaches(p, base, s') && Worked(p, s, s', key, x)
  {
    hide Reaches, DoDecide, DoClaim, Safety.Inv;
    var claimed := Claims(p, base, s, key);
    s', x := RunsFirst(p, base, claimed, key);
    if key.Branch? {
      var running := PENDING.(state := Running, execution := Some(x));
      assert s.m.branches[key.name := PENDING.(state := Running)][key.name := running]
          == s.m.branches[key.name := running];
    }
  }

  /** A step that was left with a recorded Run is claimed again. */
  lemma Reclaims(p: Plan, base: State, s: State, key: Key) returns (s': State)
    requires ValidPlan(p) && Ready(p, base, s) && Has(s.m, key)
    requires StepOf(s.m, key).state.Running? && StepOf(s.m, key).execution.Some?
    requires DoDecide(p, s) == DoClaim(s, key)
    ensures Reaches(p, base, s')
    ensures s' == s.(disk := s'.disk, m := s'.m, verifier := Following(key, StepOf(s.m, key).execution.value))
    ensures s'.disk == Some(s'.m) && s'.m == s.m.(phase := s'.m.phase)
    ensures s'.m.phase == if key.Compile? then CompileRunning else s.m.phase
  {
    hide Reaches;
    SameStep(s.m, key);
    ThenStep(p, base, s, Decide);
    var claimed := DoDecide(p, s);
    ThenStep(p, base, claimed, RequireLive);
    s' := DoRequireLive(claimed);
  }

  /** The recorded Run ends, if it has not ended before, and its identity is read back. */
  lemma Recovers(p: Plan, base: State, s: State, key: Key, saved: ExecutionRef) returns (s': State, x: ExecutionRef)
    requires ValidPlan(p) && Reaches(p, base, s) && s.verifier == Following(key, saved)
    requires (key.Branch? ==> key.name in p.branches) && ExitOf(p, key) == 0 && Safety.Names(s.world, key, saved)
    requires
      var run := s.world.runs[saved.run];
      run.exit == Some(0) || (run.exit.None? && run.released)
    ensures Reaches(p, base, s')
    ensures s' == s.(verifier := Held(key, x), world := s'.world, received := s'.received)
    ensures x.run in s'.world.runs && s'.world.runs[x.run].exit == Some(0) && OthersSame(s, s', key)
  {
    hide Reaches;
    var ended := s;
    if s.world.runs[saved.run].exit.None? {
      ThenStep(p, base, s, Exit(saved.run));
      ended := DoExit(p, s, saved.run);
    }
    ThenStep(p, base, ended, WaitRun);
    s' := DoWaitRun(p, ended);
    x := s'.verifier.x;
  }

  /** A step that was left with a released Run is claimed again and followed. */
  lemma Follows(p: Plan, base: State, s: State, key: Key) returns (s': State, x: ExecutionRef)
    requires ValidPlan(p) && Ready(p, base, s) && Has(s.m, key)
    requires StepOf(s.m, key).state.Running? && Resumable(s.world, StepOf(s.m, key))
    requires DoDecide(p, s) == DoClaim(s, key) && ExitOf(p, key) == 0
    ensures Reaches(p, base, s') && Worked(p, s, s', key, x)
  {
    ReachesInv(p, base, s);
    assert Safety.StepInv(p, s.world, key, StepOf(s.m, key));
    hide Reaches, Safety.Inv;
    var following := Reclaims(p, base, s, key);
    SameStep(s.m, key);
    s', x := Recovers(p, base, following, key, StepOf(s.m, key).execution.value);
  }

  lemma SameStep(m: Execution, key: Key)
    requires Has(m, key)
    ensures WithStep(m, key, StepOf(m, key)) == m
  {
    if key.Branch? { assert m.branches[key.name := m.branches[key.name]] == m.branches; }
  }

  /** Whatever a crash left of the step that is next, it is brought to its end. */
  lemma Works(p: Plan, base: State, s: State, key: Key) returns (s': State, x: ExecutionRef)
    requires ValidPlan(p) && Ready(p, base, s)
    requires Has(s.m, key) && Resumable(s.world, StepOf(s.m, key)) && !StepOf(s.m, key).state.Done?
    requires DoDecide(p, s) == DoClaim(s, key) && ExitOf(p, key) == 0
    ensures Reaches(p, base, s') && Worked(p, s, s', key, x)
  {
    if StepOf(s.m, key) == PENDING {
      s', x := Executes(p, base, s, key);
    } else {
      s', x := Follows(p, base, s, key);
    }
  }

  /** The record is opened by a new verifier. */
  lemma Opens(p: Plan, s: State) returns (s': State)
    requires ValidPlan(p) && Safety.Inv(p, s) && Restartable(s)
    ensures Ready(p, s, s') && s'.world == s.world
    ensures forall key | Has(s'.m, key) :: Resumable(s'.world, StepOf(s'.m, key))
    ensures s'.m == if s.disk.Some? then s.disk.value else FreshExecution(p.branches.Keys)
  {
    assert Trace(p, s, []) == s;
    assert Reaches(p, s, s);
    ThenStep(p, s, s, Open);
    s' := DoOpen(p, s);
  }

  /** The compile step is brought to its checked result, unless it was done before. */
  lemma Compiles(p: Plan, base: State, s: State) returns (s': State)
    requires Compiled(p) && Ready(p, base, s)
    requires forall key | Has(s.m, key) :: Resumable(s.world, StepOf(s.m, key))
    ensures Halfway(p, base, s')
  {
    hide Trace, Apply, ExpectedDetails, HealthyBranch;
    ReachesInv(p, base, s);
    if s.m.compile.state.Done? {
      s' := s;
      forall b | b in s.m.branches ensures Resumable(s.world, s.m.branches[b]) {
        assert Resumable(s.world, StepOf(s.m, Branch(b)));
      }
    } else {
      assert Resumable(s.world, StepOf(s.m, Compile));
      var held, x := Works(p, base, s, Compile);
      s' := Checks(p, base, held, x);
      forall b | b in s.m.branches ensures Resumable(s'.world, s'.m.branches[b]) {
        assert Resumable(s.world, StepOf(s.m, Branch(b)));
        OthersResumable(p, s, held, Compile, Branch(b));
      }
    }
  }

  /** What a crash left of the other steps is still there. */
  lemma OthersResumable(p: Plan, s: State, s': State, key: Key, other: Key)
    requires ValidPlan(p) && Safety.Inv(p, s) && !s.verifier.Out? && OthersSame(s, s', key)
    requires Has(s.m, other) && other != key && Resumable(s.world, StepOf(s.m, other))
    ensures Resumable(s'.world, StepOf(s.m, other))
  {
    assert Safety.StepInv(p, s.world, other, StepOf(s.m, other));
  }

  lemma Checks(p: Plan, base: State, s: State, x: ExecutionRef) returns (s': State)
    requires Compiled(p) && Reaches(p, base, s) && Safety.Inv(p, base) && s.verifier == Held(Compile, x)
    requires s.canceller.Free? && !s.marker && s.disk == Some(s.m) && s.m.phase.CompileRunning?
    requires s.m.branches.Keys == p.branches.Keys
    requires x.run in s.world.runs && s.world.runs[x.run].exit == Some(0)
    ensures Ready(p, base, s') && s'.m.compile.state.Done? && s'.m.branches == s.m.branches
    ensures s'.m.derived == p.compile.derived && s'.m.executable == p.compile.report.value
    ensures s'.world == s.world
  {
    ThenStep(p, base, s, Settle);
    var settled := Apply(p, s, Settle);
    assert settled.verifier.Checking?;
    ThenStep(p, base, settled, CheckCompiled);
    s' := Apply(p, settled, CheckCompiled);
  }

  /** Each branch is finished, untouched, or left with a released Run. */
  ghost predicate Halfway(p: Plan, base: State, s: State)
    requires ValidPlan(p)
  {
    && Ready(p, base, s)
    && s.m.compile.state.Done? && s.m.derived == p.compile.derived && s.m.executable != ""
    && forall b | b in s.m.branches :: Resumable(s.world, s.m.branches[b])
  }

  function Remaining(m: Execution): set<string> {
    set b | b in m.branches && !m.branches[b].state.Done?
  }

  /** A sealed branch result is recorded. */
  lemma Records(p: Plan, base: State, s: State, b: string, x: ExecutionRef) returns (s': State)
    requires Compiled(p) && Reaches(p, base, s) && s.verifier == Held(Branch(b), x)
    requires s.canceller.Free? && !s.marker && s.disk == Some(s.m) && !Safety.Stopping(s.m)
    requires b in p.branches && b in s.m.branches && HealthyBranch(p, b)
    requires x.run in s.world.runs && s.world.runs[x.run].exit == Some(0)
    ensures Reaches(p, base, s') && s'.verifier.Deciding?
    ensures s'.canceller.Free? && !s'.marker && s'.disk == Some(s'.m)
    ensures b in s'.m.branches && s'.m == s.m.(branches := s.m.branches[b := s'.m.branches[b]])
    ensures s'.m.branches[b].state.Done? && s'.world == s.world
  {
    hide Reaches;
    ThenStep(p, base, s, Settle);
    s' := DoSettle(p, s);
  }

  /** The next branch Run is brought to its end and its result recorded. */
  lemma Advances(p: Plan, base: State, s: State, b: string) returns (s': State)
    requires Compiled(p) && Halfway(p, base, s) && FirstPending(p.visited, s.m) == Some(b)
    requires b in p.branches && HealthyBranch(p, b)
    ensures Halfway(p, base, s') && b in Remaining(s.m) && Remaining(s'.m) == Remaining(s.m) - {b}
    ensures s'.m.branches.Keys == s.m.branches.Keys
    ensures forall c | c in s.m.branches && c != b :: s'.m.branches[c] == s.m.branches[c]
  {
    hide Reaches, Safety.Inv;
    Safety.FirstPendingFinds(p.visited, s.m);
    var held, x := Works(p, base, s, Branch(b));
    s' := Records(p, base, held, b, x);
    ReachesInv(p, base, s);
    hide FirstPending, HealthyBranch;
    BranchAdvanced(p, s, held, s', b);
  }

  lemma BranchAdvanced(p: Plan, s: State, held: State, s': State, b: string)
    requires ValidPlan(p) && Safety.Inv(p, s) && s.verifier.Deciding? && b in s.m.branches && b in held.m.branches
    requires forall c | c in s.m.branches :: Resumable(s.world, s.m.branches[c])
    requires !s.m.branches[b].state.Done?
    requires OthersSame(s, held, Branch(b)) && s'.world == held.world
    requires held.m.branches == s.m.branches[b := held.m.branches[b]]
    requires b in s'.m.branches && s'.m.branches == held.m.branches[b := s'.m.branches[b]]
    requires s'.m.branches[b].state.Done?
    ensures b in Remaining(s.m) && Remaining(s'.m) == Remaining(s.m) - {b}
    ensures forall c | c in s'.m.branches :: Resumable(s'.world, s'.m.branches[c])
  {
    forall c | c in s.m.branches
      ensures s'.m.branches[c] == s.m.branches[c] || (c == b && s'.m.branches[c].state.Done?)
    {
    }
    forall c | c in s'.m.branches ensures Resumable(s'.world, s'.m.branches[c]) {
      if c != b { OthersResumable(p, s, held, Branch(b), Branch(c)); }
    }
  }

  lemma {:induction false} FinishesBranches(p: Plan, base: State, s: State) returns (s': State)
    requires Healthy(p) && Halfway(p, base, s)
    ensures Halfway(p, base, s') && FirstPending(p.visited, s'.m) == None
    decreases |Remaining(s.m)|
  {
    match FirstPending(p.visited, s.m)
    case None => s' := s;
    case Some(b) =>
      Safety.FirstPendingFinds(p.visited, s.m);
      assert HealthyBranch(p, b);
      var next := Advances(p, base, s, b);
      assert |Remaining(next.m)| < |Remaining(s.m)|;
      s' := FinishesBranches(p, base, next);
  }

  /** With every branch done, the verifier turns to the sum. */
  lemma Turns(p: Plan, base: State, s: State) returns (s': State)
    requires Healthy(p) && Halfway(p, base, s) && FirstPending(p.visited, s.m) == None
    ensures Reaches(p, base, s') && s'.verifier.Summing?
    ensures s'.canceller.Free? && !s'.marker && s'.disk == Some(s'.m) && !Safety.Stopping(s'.m)
  {
    hide Reaches, FirstPending;
    ThenStep(p, base, s, Decide);
    s' := DoDecide(p, s);
  }

  /** The sealed reports are stored where the record says. */
  lemma Sums(p: Plan, base: State, s: State) returns (s': State)
    requires Healthy(p) && Reaches(p, base, s) && Safety.Inv(p, base) && s.verifier.Summing?
    requires s.canceller.Free? && !s.marker && s.disk == Some(s.m) && !Safety.Stopping(s.m)
    ensures Reaches(p, base, s') && s'.verifier == Deleting(Succeeded)
    ensures s'.canceller.Free? && !s'.marker && s'.disk == Some(s'.m) && !Safety.Stopping(s'.m)
  {
    ReportsAccepted(p, base, s);
    hide Reaches, ExpectedDetails, Aggregated, Accepted, Reports;
    ThenStep(p, base, s, Sum(Reports(p)));
    s' := DoSum(p, s, Reports(p));
  }

  /** The Environment is deleted, and the completion recorded. */
  lemma Publishes(p: Plan, base: State, s: State) returns (s': State)
    requires ValidPlan(p) && Reaches(p, base, s) && s.verifier == Deleting(Succeeded)
    requires s.canceller.Free? && !s.marker && s.disk == Some(s.m) && !Safety.Stopping(s.m)
    ensures Reaches(p, base, s') && s'.disk.Some? && s'.disk.value.phase.Completed?
  {
    ThenStep(p, base, s, Delete(true, true));
    var deleted := Apply(p, s, Delete(true, true));
    ThenStep(p, base, deleted, SaveDeleted);
    s' := Apply(p, deleted, SaveDeleted);
  }

  lemma ReportsAccepted(p: Plan, base: State, s: State)
    requires Healthy(p) && Reaches(p, base, s) && Safety.Inv(p, base) && s.verifier.Summing?
    ensures forall b | b in p.listed :: b in Reports(p) && b in s.m.branches
    ensures Accepted(p.listed, RecordedSteps(s.m), Reports(p))
  {
    ReachesInv(p, base, s);
    forall b | b in p.listed
      ensures b in Reports(p) && b in s.m.branches
      ensures RecordedSteps(s.m)[b] == Recorded(true, Sha(Reports(p)[b])) && ValidBranchResult(Reports(p)[b], b)
    {
      assert HealthyBranch(p, b);
      SummedBranch(p, s, b);
    }
  }

  lemma SummedBranch(p: Plan, s: State, b: string)
    requires ValidPlan(p) && Safety.Inv(p, s) && s.verifier.Summing? && b in p.branches
    ensures b in s.m.branches && s.m.branches[b].state.Done? && p.branches[b].report.Some?
    ensures s.m.branches[b].result == Sha(p.branches[b].report.value)
  {
    assert Safety.StepInv(p, s.world, Branch(b), StepOf(s.m, Branch(b)));
  }

  /**
   * After any crash, however often and wherever, a restarted verifier completes, unless a Run of
   * some step was left unrecorded, unreleased or killed.
   */
  lemma RestartCompletes(p: Plan, s: State) returns (s': State)
    requires Healthy(p) && Safety.Reachable(p, s) && Restartable(s)
    ensures Reaches(p, s, s') && s'.disk.Some? && s'.disk.value.phase.Completed?
  {
    Safety.ReachableInv(p, s);
    hide ExpectedDetails, Reaches, Safety.Inv;
    var begun := Opens(p, s);
    var compiled := Compiles(p, s, begun);
    var finished := FinishesBranches(p, s, compiled);
    var summing := Turns(p, s, finished);
    var summed := Sums(p, s, summing);
    s' := Publishes(p, s, summed);
  }

  lemma InitRestartable(p: Plan)
    requires ValidPlan(p)
    ensures Safety.Reachable(p, Init()) && Restartable(Init())
  {
    assert Trace(p, Init(), []) == Init();
  }

  lemma Completes(p: Plan) returns (s: State)
    requires Healthy(p)
    ensures Reaches(p, Init(), s) && s.disk.Some? && s.disk.value.phase.Completed?
  {
    InitRestartable(p);
    s := RestartCompletes(p, Init());
  }

  /**
   * The undisturbed execution of a healthy plan completes. With CompletedPublishesExpected, an
   * execution that crashed any number of times publishes the very digest that this one does.
   */
  lemma UndisturbedCompletes(p: Plan) returns (s: State)
    requires Healthy(p)
    ensures Reaches(p, Init(), s)
    ensures s.disk.Some? && s.disk.value.phase.Completed? && s.disk.value.details == ExpectedDetails(p)
    ensures s.lost == {}
  {
    hide ExpectedDetails;
    s := Completes(p);
    var steps: seq<MultiRunProtocol.Step>
      :| (forall step | step in steps :: Smooth(step)) && Trace(p, Init(), steps) == s;
    assert Safety.Reachable(p, s);
    Safety.CompletedPublishesExpected(p, s);
    Safety.NothingLost(p, Init(), steps);
  }

  /** A submission that does not compile is published without running any branch. */
  lemma FailureCompletes(p: Plan) returns (s: State)
    requires ValidPlan(p) && p.compile.exit in COMPILE_REASONS
    ensures Reaches(p, Init(), s) && s.disk.Some? && s.disk.value.phase.Completed?
  {
    InitRestartable(p);
    Safety.ReachableInv(p, Init());
    var begun := Opens(p, Init());
    assert begun.m == FreshExecution(p.branches.Keys);
    var held, x := Executes(p, Init(), begun, Compile);
    s := Fails(p, held, x);
  }

  lemma Fails(p: Plan, s: State, x: ExecutionRef) returns (s': State)
    requires ValidPlan(p) && Reaches(p, Init(), s) && p.compile.exit in COMPILE_REASONS
    requires s.verifier == Held(Compile, x) && s.canceller.Free? && !s.marker && s.disk == Some(s.m)
    requires !Safety.Stopping(s.m)
    requires x.run in s.world.runs && s.world.runs[x.run].exit == Some(p.compile.exit)
    ensures Reaches(p, Init(), s') && s'.disk.Some? && s'.disk.value.phase.Completed?
  {
    hide Reaches, ExpectedDetails, CompileFailure, Trace;
    ThenStep(p, Init(), s, Settle);
    var failing := DoSettle(p, s);
    assert failing.verifier.Failing?;
    ThenStep(p, Init(), failing, FinishFailure);
    s' := DoFinishFailure(p, failing);
  }

  lemma CompletedWasHealthy(p: Plan, s: State)
    requires ValidPlan(p) && Safety.Reachable(p, s) && s.disk.Some? && s.disk.value.phase.Completed?
    ensures p.compile.exit in COMPILE_REASONS || Healthy(p)
  {
    Safety.ReachableInv(p, s);
    var d := s.disk.value;
    if d.compile.state.BusinessFailed? {
      assert Safety.StepInv(p, s.world, Compile, StepOf(d, Compile));
    } else {
      forall b | b in p.branches ensures HealthyBranch(p, b) {
        assert Safety.StepInv(p, s.world, Branch(b), StepOf(d, Branch(b)));
      }
    }
  }

  /**
   * Some execution completes exactly if the submission fails to compile or every Run ends well;
   * no crash, restart or cancel lets any other verification complete.
   */
  lemma CompletesIff(p: Plan)
    requires ValidPlan(p)
    ensures (exists s :: Safety.Reachable(p, s) && s.disk.Some? && s.disk.value.phase.Completed?)
            <==> p.compile.exit in COMPILE_REASONS || Healthy(p)
  {
    hide Healthy;
    if p.compile.exit in COMPILE_REASONS {
      var s := FailureCompletes(p);
      assert Safety.Reachable(p, s);
    }
    if Healthy(p) {
      var s := Completes(p);
      assert Safety.Reachable(p, s);
    }
    forall s | Safety.Reachable(p, s) && s.disk.Some? && s.disk.value.phase.Completed?
      ensures p.compile.exit in COMPILE_REASONS || Healthy(p)
    {
      CompletedWasHealthy(p, s);
    }
  }
}
