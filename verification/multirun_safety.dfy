/** What holds in every reachable state of a multi-Run verification. */
module MultiRunSafety {
  import opened Models
  import opened Scorer
  import opened MultiRunStore
  import opened MultiRunProtocol
  import Laws = ScorerLaws

  // ------------------------------------------------------------------ the invariant

  ghost predicate Names(w: World, key: Key, x: ExecutionRef) {
    && x.run in w.runs
    && w.runs[x.run].key == key
    && w.runs[x.run].environment == x.environment
    && (x.allocation == "" || x.allocation == w.runs[x.run].allocation)
  }

  ghost predicate RunInv(p: Plan, w: World, run: string)
    requires run in w.runs
  {
    var facts := w.runs[run];
    && w.calls[facts.key] == 1
    && facts.environment == EnvironmentOf(p, facts.key)
    && (facts.key.Branch? ==> facts.key.name in p.branches)
    && (facts.exit.Some? && (facts.exit.value == 0 || facts.exit.value in COMPILE_REASONS) ==>
          facts.exit.value == ExitOf(p, facts.key))
    && (facts.released ==> facts.allocation != "")
  }

  ghost predicate WorldInv(p: Plan, w: World) {
    && (forall key :: w.calls[key] <= 1)
    && (forall r | r in w.runs :: RunInv(p, w, r))
    && (forall r1, r2 | r1 in w.runs && r2 in w.runs && w.runs[r1].key == w.runs[r2].key :: r1 == r2)
  }

  ghost predicate SealedBranch(p: Plan, b: string, result: Digest<BranchResult>) {
    && b in p.branches
    && p.branches[b].exit == 0
    && p.branches[b].report.Some?
    && ValidBranchResult(p.branches[b].report.value, b)
    && !p.branches[b].report.value.status.InfrastructureError?
    && result == Sha(p.branches[b].report.value)
  }

  predicate SealedFailure(output: BranchOutput) {
    output.report.Some? && output.report.value.status.InfrastructureError?
  }

  ghost predicate StepInv(p: Plan, w: World, key: Key, step: MultiRunStore.Step) {
    && (step.state.Pending? ==> step == PENDING && w.calls[key] == 0)
    && (step.state.StepBroken? ==> key.Branch? && key.name in p.branches && SealedFailure(p.branches[key.name]))
    && (step.execution.Some? ==> Names(w, key, step.execution.value))
    && (!step.state.Pending? && !step.state.Running? ==>
          step.execution.Some? && w.runs[step.execution.value.run].exit.Some?)
    && (step.state.Done? && key.Branch? ==>
          SealedBranch(p, key.name, step.result) && step.reason == p.branches[key.name].report.value.reason)
    && (step.state.BusinessFailed? ==>
          key.Compile? && p.compile.exit in COMPILE_REASONS && step.reason == COMPILE_REASONS[p.compile.exit])
  }

  /** What a finished verification has to publish. */
  ghost predicate Published(p: Plan, details: Digest<Details>)
    requires ValidPlan(p)
  {
    details.Sha? && details == ExpectedDetails(p)
  }

  /** The fields that have no quantified meaning. */
  ghost predicate Labelled(p: Plan, w: World, d: Execution)
    requires ValidPlan(p)
  {
    && (d.derived != "" ==> d.derived == p.compile.derived && p.compile.exit == 0)
    && (d.compile.state.Done? ==>
          d.derived != "" && p.compile.report.Some? && d.executable == p.compile.report.value)
    && (d.phase.Completed? ==>
          Published(p, d.details) && (if d.derived == "" then p.compile.exit != 0 else d.derived in w.deleted))
    && (d.cleanup.Cleaned? ==> d.derived != "" && d.derived in w.deleted)
  }

  ghost predicate AllDone(d: Execution) {
    d.compile.state.Done? && d.executable != "" && forall b | b in d.branches :: d.branches[b].state.Done?
  }

  /** What a completed verification has behind it. */
  ghost predicate Concluded(d: Execution) {
    d.phase.Completed? ==> d.compile.state.BusinessFailed? || AllDone(d)
  }

  ghost predicate RecordInv(p: Plan, w: World, d: Execution)
    requires ValidPlan(p)
  {
    && d.branches.Keys == p.branches.Keys
    && (forall key | Has(d, key) :: StepInv(p, w, key, StepOf(d, key)))
    && Labelled(p, w, d)
    && Concluded(d)
  }

  /** The record holds the full identity of every released Run. */
  ghost predicate Kept(w: World, d: Execution) {
    forall r | r in w.runs && w.runs[r].released ::
      && Has(d, w.runs[r].key)
      && StepOf(d, w.runs[r].key).execution == Some(ExecutionRef(w.runs[r].environment, r, w.runs[r].allocation))
  }

  ghost predicate AllStopped(w: World, d: Execution, except: set<string>) {
    forall key | Has(d, key) && StepOf(d, key).state.Running? && StepOf(d, key).execution.Some? ::
      var run := StepOf(d, key).execution.value.run;
      run in except || (run in w.runs && Stopped(w.runs[run]))
  }

  predicate Stopping(d: Execution) {
    d.phase.Cancelling? || d.phase.Cancelled?
  }

  /** Only a cancel may have changed the record since the verifier last saw it. */
  ghost predicate Agrees(d: Execution, m: Execution) {
    && d.(phase := m.phase, cleanup := m.cleanup) == m
    && (!Stopping(d) ==> d == m)
  }

  ghost predicate Unrecorded(w: World, m: Execution, key: Key) {
    && Based(m, key)
    && StepOf(m, key).state.Running?
    && StepOf(m, key).execution.None?
    && w.calls[key] == 0
  }

  ghost predicate Exited(w: World, key: Key, x: ExecutionRef) {
    && Names(w, key, x)
    && x.allocation == w.runs[x.run].allocation
    && w.runs[x.run].exit.Some?
  }

  /** Branch Runs start from the derived Environment, and nothing is executed after completion. */
  ghost predicate Based(m: Execution, key: Key) {
    && Has(m, key)
    && (key.Branch? ==> m.derived != "")
    && (m.phase.Completed? ==> key.Compile? && m.compile.state.BusinessFailed?)
  }

  /** A Run of the claimed step. */
  ghost predicate Working(w: World, m: Execution, key: Key, x: ExecutionRef) {
    Based(m, key) && Names(w, key, x) && !StepOf(m, key).state.Pending?
  }

  ghost predicate VerifierInv(p: Plan, w: World, m: Execution, a: Activity)
    requires ValidPlan(p)
  {
    match a
    case Claimed(key) => Based(m, key) && (StepOf(m, key).execution.None? ==> Unrecorded(w, m, key))
    case Creating(key) => Unrecorded(w, m, key)
    case Created(key, x) => Working(w, m, key, x) && !w.runs[x.run].released
    case Waiting(key, x) => Working(w, m, key, x)
    case Allocated(key, x) => Working(w, m, key, x) && x.allocation != ""
    case Preparing(key, x) => Working(w, m, key, x) && x.allocation != "" && StepOf(m, key).execution == Some(x)
    case Unwinding(x) => x.run in w.runs
    case Following(key, x) => Working(w, m, key, x) && StepOf(m, key).execution.Some?
    case Held(key, x) => Working(w, m, key, x) && StepOf(m, key).execution.Some? && Exited(w, key, x)
    case Checking =>
      m.derived != "" && m.compile.execution.Some? && m.compile.execution.value.run in w.runs
      && w.runs[m.compile.execution.value.run].exit.Some?
    case Failing => m.compile.state.BusinessFailed?
    case Summing => AllDone(m)
    case Deleting(purpose) => m.derived != "" && (purpose.Succeeded? ==> Published(p, m.details) && AllDone(m))
    case Saving(purpose) =>
      && m.derived != "" && m.derived in w.deleted
      && (purpose.Succeeded? ==> Published(p, m.details) && AllDone(m))
    case _ => true
  }

  ghost predicate CancelInv(s: State) {
    match s.canceller
    case Free => true
    case Asking(todo, failed) =>
      && s.disk.Some? && s.disk.value.phase.Cancelling?
      && (!failed ==> AllStopped(s.world, s.disk.value, todo))
    case Cleaning =>
      && s.disk.Some? && s.disk.value.phase.Cancelling? && s.disk.value.derived != ""
      && AllStopped(s.world, s.disk.value, {})
  }

  ghost predicate DiskInv(p: Plan, s: State)
    requires ValidPlan(p)
  {
    if s.disk.None? then s.verifier.Out? && s.canceller.Free? && s.world.calls == multiset{}
    else
      var d := s.disk.value;
      && !s.marker
      && RecordInv(p, s.world, d)
      && Kept(s.world, d)
      && (d.phase.Cancelled? ==> AllStopped(s.world, d, {}) && (d.derived != "" ==> d.derived in s.world.deleted))
  }

  ghost predicate MemoryInv(p: Plan, s: State)
    requires ValidPlan(p)
  {
    !s.verifier.Out? ==>
      && s.disk.Some?
      && RecordInv(p, s.world, s.m)
      && Agrees(s.disk.value, s.m)
      && VerifierInv(p, s.world, s.m, s.verifier)
  }

  /** The derived Environment, once received, is deleted, on record, held, or lost in a failure. */
  ghost predicate EnvironmentInv(p: Plan, s: State) {
    && s.received <= {p.compile.derived} - {""}
    && forall env | env in s.received ::
         || env in s.world.deleted
         || env in s.lost
         || (s.disk.Some? && s.disk.value.derived == env)
         || env in InHand(p, s)
  }

  ghost predicate Inv(p: Plan, s: State)
    requires ValidPlan(p)
  {
    && WorldInv(p, s.world)
    && DiskInv(p, s)
    && MemoryInv(p, s)
    && CancelInv(s)
    && EnvironmentInv(p, s)
  }

  // ------------------------------------------------------------------ frames

  ghost predicate RunGrows(a: Run, b: Run) {
    && a.key == b.key
    && a.environment == b.environment
    && (a.allocation != "" || a.exit.Some? ==> b.allocation == a.allocation)
    && (a.exit.Some? ==> b.exit == a.exit)
    && (a.released ==> b.released)
    && (a.cancelRequested ==> b.cancelRequested)
  }

  ghost predicate Grows(w: World, w': World) {
    && w.deleted <= w'.deleted
    && forall r | r in w.runs :: r in w'.runs && RunGrows(w.runs[r], w'.runs[r])
  }

  lemma StepGrows(p: Plan, w: World, w': World, key: Key, step: MultiRunStore.Step)
    requires StepInv(p, w, key, step) && Grows(w, w')
    requires step.state.Pending? ==> w'.calls[key] == w.calls[key]
    ensures StepInv(p, w', key, step)
  {
  }

  lemma RecordGrows(p: Plan, w: World, w': World, d: Execution)
    requires ValidPlan(p) && RecordInv(p, w, d) && Grows(w, w')
    requires forall key | Has(d, key) && StepOf(d, key).state.Pending? :: w'.calls[key] == w.calls[key]
    ensures RecordInv(p, w', d)
  {
    forall key | Has(d, key) ensures StepInv(p, w', key, StepOf(d, key)) {
      StepGrows(p, w, w', key, StepOf(d, key));
    }
  }

  lemma StoppedGrows(w: World, w': World, d: Execution, except: set<string>)
    requires AllStopped(w, d, except) && Grows(w, w')
    ensures AllStopped(w', d, except)
  {
  }

  lemma VerifierGrows(p: Plan, w: World, w': World, m: Execution, a: Activity)
    requires ValidPlan(p) && VerifierInv(p, w, m, a) && Grows(w, w') && w'.calls == w.calls
    requires a.Created? ==> !w'.runs[a.x.run].released
    ensures VerifierInv(p, w', m, a)
  {
  }

  /** Axern's side changes: Runs gain facts, Environments are deleted. */
  lemma WorldKeeps(p: Plan, s: State, w: World)
    requires ValidPlan(p) && Inv(p, s)
    requires Grows(s.world, w) && w.calls == s.world.calls && WorldInv(p, w)
    requires s.disk.Some? ==> Kept(w, s.disk.value)
    requires s.verifier.Created? ==> !w.runs[s.verifier.x.run].released
    ensures Inv(p, s.(world := w))
  {
    if s.disk.Some? {
      RecordGrows(p, s.world, w, s.disk.value);
      StoppedKeeps(p, s, w);
    }
    if !s.verifier.Out? {
      RecordGrows(p, s.world, w, s.m);
      VerifierGrows(p, s.world, w, s.m, s.verifier);
    }
    HandGrows(p, s, w);
  }

  lemma StoppedKeeps(p: Plan, s: State, w: World)
    requires ValidPlan(p) && s.disk.Some? && DiskInv(p, s) && CancelInv(s) && Grows(s.world, w)
    ensures s.disk.value.phase.Cancelled? ==> AllStopped(w, s.disk.value, {})
    ensures CancelInv(s.(world := w))
  {
    match s.canceller {
      case Asking(todo, failed) => if !failed { StoppedGrows(s.world, w, s.disk.value, todo); }
      case Cleaning => StoppedGrows(s.world, w, s.disk.value, {});
      case Free =>
    }
    if s.disk.value.phase.Cancelled? { StoppedGrows(s.world, w, s.disk.value, {}); }
  }

  lemma HandGrows(p: Plan, s: State, w: World)
    requires EnvironmentInv(p, s) && Grows(s.world, w)
    ensures EnvironmentInv(p, s.(world := w))
  {
  }

  /** Only the verifier's place changes. */
  lemma AtKeeps(p: Plan, s: State, a: Activity)
    requires ValidPlan(p) && Inv(p, s)
    requires a.Out? || (!s.verifier.Out? && VerifierInv(p, s.world, s.m, a))
    requires InHand(p, s) <= InHand(p, At(s, a))
    ensures Inv(p, At(s, a))
  {
  }

  /** A record that the verifier may save. */
  ghost predicate Savable(p: Plan, s: State, m': Execution)
    requires ValidPlan(p)
  {
    && RecordInv(p, s.world, m')
    && Kept(s.world, m')
    && (s.m.derived != "" ==> m'.derived == s.m.derived)
    && (Stopping(m') ==> Stopping(s.m))
  }

  lemma SaveKeeps(p: Plan, s: State, m': Execution, next: Activity, refused: Activity)
    requires ValidPlan(p) && Inv(p, s) && !s.verifier.Out?
    requires Live(s.disk, s.marker) ==> Savable(p, s, m') && VerifierInv(p, s.world, m', next)
    requires VerifierInv(p, s.world, s.m, refused)
    requires InHand(p, s) <= {m'.derived} && InHand(p, s) <= InHand(p, At(s, refused))
    ensures Inv(p, Save(s, m', next, refused))
  {
    if s.canceller.Free? {
      if Live(s.disk, s.marker) {
        var s' := s.(disk := Some(m'), m := m', verifier := next);
        assert s.disk.value == s.m;
        assert EnvironmentInv(p, s');
      } else {
        AtKeeps(p, s, refused);
      }
    }
  }

  // ------------------------------------------------------------------ the verifier's steps

  lemma OpenKeeps(p: Plan, s: State)
    requires ValidPlan(p) && Inv(p, s)
    ensures Inv(p, DoOpen(p, s))
  {
    if s.verifier.Out? && s.canceller.Free? && s.disk.None? && !s.marker {
      var m := FreshExecution(p.branches.Keys);
      forall key | Has(m, key) ensures StepInv(p, s.world, key, StepOf(m, key)) {
        assert StepOf(m, key) == PENDING;
      }
      NoRuns(p, s.world);
    }
  }

  lemma NoRuns(p: Plan, w: World)
    requires WorldInv(p, w) && w.calls == multiset{}
    ensures w.runs == map[]
  {
    forall r | r in w.runs ensures false { CalledOnce(p, w, r); }
  }

  lemma CalledOnce(p: Plan, w: World, r: string)
    requires WorldInv(p, w) && r in w.runs
    ensures w.calls[w.runs[r].key] == 1
  {
    assert RunInv(p, w, r);
  }

  lemma ClaimKeeps(p: Plan, s: State, key: Key)
    requires ValidPlan(p) && Inv(p, s) && s.verifier.Deciding?
    requires key.Branch? ==> s.m.derived != ""
    requires key.Compile? ==> !s.m.compile.state.Done?
    requires key.Branch? ==> Has(s.m, key) && !StepOf(s.m, key).state.Done?
    ensures Inv(p, DoClaim(s, key))
  {
    var r := Claim(s.disk, s.marker, key);
    if s.canceller.Free? && r.Ok? {
      assert s.disk.value == s.m;
      var step := StepOf(s.m, key);
      assert StepInv(p, s.world, key, step);
      ClaimSavable(p, s, key, r.value);
      SaveKeeps(p, s, r.value, Claimed(key), Out);
    }
  }

  /** A step that can still be claimed belongs to a verification that is not completed. */
  lemma ClaimedBeforeCompletion(p: Plan, s: State, key: Key)
    requires ValidPlan(p) && Inv(p, s) && !s.verifier.Out? && Has(s.m, key)
    requires !StepOf(s.m, key).state.Done? && (key.Compile? ==> !StepOf(s.m, key).state.BusinessFailed?)
    requires key.Branch? ==> s.m.derived != ""
    ensures !s.m.phase.Completed?
  {
    assert StepInv(p, s.world, Compile, StepOf(s.m, Compile));
  }

  lemma ClaimSavable(p: Plan, s: State, key: Key, m': Execution)
    requires ValidPlan(p) && Inv(p, s) && s.verifier.Deciding? && s.disk == Some(s.m)
    requires Claim(s.disk, s.marker, key) == Ok(m')
    requires key.Branch? ==> s.m.derived != ""
    requires key.Compile? ==> !s.m.compile.state.Done?
    requires key.Branch? ==> Has(s.m, key) && !StepOf(s.m, key).state.Done?
    ensures Savable(p, s, m') && VerifierInv(p, s.world, m', Claimed(key))
  {
    var step := StepOf(s.m, key);
    assert StepInv(p, s.world, key, step);
    MemorySavable(p, s);
    if !(key.Compile? && step.state.BusinessFailed?) {
      ClaimedBeforeCompletion(p, s, key);
      RunningSavable(p, s, key, m');
    }
  }

  lemma RunningSavable(p: Plan, s: State, key: Key, m': Execution)
    requires ValidPlan(p) && Inv(p, s) && s.verifier.Deciding? && Has(s.m, key) && !s.m.phase.Completed?
    requires key.Compile? ==> !s.m.compile.state.Done?
    requires var step := StepOf(s.m, key); !step.state.Pending? ==> step.execution.Some?
    requires
      m' == var claimed := WithStep(s.m, key, StepOf(s.m, key).(state := Running));
            if key.Compile? then claimed.(phase := CompileRunning) else claimed
    ensures Savable(p, s, m')
  {
    var step := StepOf(s.m, key).(state := Running);
    assert StepInv(p, s.world, key, StepOf(s.m, key));
    KeptAgrees(s.world, s.disk.value, s.m);
    StepSavable(p, s, key, step);
    if key.Compile? {
      Relabelled(p, s, WithStep(s.m, key, step), m');
    }
  }

  lemma {:induction false} FirstPendingFinds(visited: seq<string>, m: Execution)
    ensures
      match FirstPending(visited, m)
      case Some(b) => b in visited && b in m.branches && !m.branches[b].state.Done?
      case None => forall b | b in visited && b in m.branches :: m.branches[b].state.Done?
  {
    if |visited| > 0 {
      FirstPendingFinds(visited[1..], m);
    }
  }

  lemma DecideKeeps(p: Plan, s: State)
    requires ValidPlan(p) && Inv(p, s)
    ensures Inv(p, DoDecide(p, s))
  {
    if s.verifier.Deciding? {
      if s.m.phase.Broken? {
        AtKeeps(p, s, DoDecide(p, s).verifier);
      } else if !s.m.compile.state.Done? {
        ClaimKeeps(p, s, Compile);
      } else if s.m.derived == "" || s.m.executable == "" {
        AtKeeps(p, s, Out);
      } else {
        FirstPendingFinds(p.visited, s.m);
        match FirstPending(p.visited, s.m)
        case Some(b) => ClaimKeeps(p, s, Branch(b));
        case None => MemorySavable(p, s);
                     Relabelled(p, s, s.m, s.m.(phase := Aggregating));
                     SaveKeeps(p, s, s.m.(phase := Aggregating), Summing, Out);
      }
    }
  }

  lemma MemorySavable(p: Plan, s: State)
    requires ValidPlan(p) && Inv(p, s) && !s.verifier.Out?
    ensures Savable(p, s, s.m)
  {
    KeptAgrees(s.world, s.disk.value, s.m);
  }

  lemma Relabelled(p: Plan, s: State, m: Execution, m': Execution)
    requires ValidPlan(p) && Savable(p, s, m)
    requires m'.compile == m.compile && m'.branches == m.branches
    requires Labelled(p, s.world, m') && Concluded(m')
    requires s.m.derived != "" ==> m'.derived == s.m.derived
    requires Stopping(m') ==> Stopping(s.m)
    ensures Savable(p, s, m')
  {
    KeptSteps(s.world, m, m');
    forall key | Has(m', key) ensures StepInv(p, s.world, key, StepOf(m', key)) {
      assert StepInv(p, s.world, key, StepOf(m, key));
    }
  }

  /** A new value for one step, which keeps the identity of a released Run. */
  lemma StepSavable(p: Plan, s: State, key: Key, step: MultiRunStore.Step)
    requires ValidPlan(p) && Inv(p, s) && !s.verifier.Out? && Has(s.m, key)
    requires StepInv(p, s.world, key, step)
    requires forall r | r in s.world.runs && s.world.runs[r].released && s.world.runs[r].key == key ::
               step.execution == Some(ExecutionRef(s.world.runs[r].environment, r, s.world.runs[r].allocation))
    requires key.Compile? && step.state.Done? ==> s.m.compile.state.Done?
    requires s.m.phase.Completed? ==> key.Compile? && step.state.BusinessFailed?
    ensures Savable(p, s, WithStep(s.m, key, step))
  {
    MemorySavable(p, s);
    var m' := WithStep(s.m, key, step);
    forall k | Has(m', k) ensures StepInv(p, s.world, k, StepOf(m', k)) {
      assert k != key ==> StepInv(p, s.world, k, StepOf(s.m, k)) && StepOf(m', k) == StepOf(s.m, k);
    }
    forall r | r in s.world.runs && s.world.runs[r].released
      ensures Has(m', s.world.runs[r].key)
      ensures StepOf(m', s.world.runs[r].key).execution
              == Some(ExecutionRef(s.world.runs[r].environment, r, s.world.runs[r].allocation))
    {
      assert s.world.runs[r].key != key ==> StepOf(m', s.world.runs[r].key) == StepOf(s.m, s.world.runs[r].key);
    }
  }

  lemma KeptAgrees(w: World, d: Execution, m: Execution)
    requires Kept(w, d) && Agrees(d, m)
    ensures Kept(w, m)
  {
    KeptSteps(w, d, m);
  }

  /** Only the steps matter for what is kept. */
  lemma KeptSteps(w: World, d: Execution, m: Execution)
    requires Kept(w, d) && m.compile == d.compile && m.branches == d.branches
    ensures Kept(w, m)
  {
    forall r | r in w.runs && w.runs[r].released
      ensures Has(m, w.runs[r].key)
      ensures StepOf(m, w.runs[r].key).execution
              == Some(ExecutionRef(w.runs[r].environment, r, w.runs[r].allocation))
    {
      assert StepOf(m, w.runs[r].key) == StepOf(d, w.runs[r].key);
    }
  }

  lemma RequireLiveKeeps(p: Plan, s: State)
    requires ValidPlan(p) && Inv(p, s)
    ensures Inv(p, DoRequireLive(s))
  {
    if s.verifier.Claimed? && s.canceller.Free? {
      assert StepInv(p, s.world, s.verifier.key, StepOf(s.m, s.verifier.key));
      AtKeeps(p, s, DoRequireLive(s).verifier);
    }
  }

  lemma CreateRunKeeps(p: Plan, s: State, run: string, made: bool, answered: bool)
    requires ValidPlan(p) && Inv(p, s)
    ensures Inv(p, DoCreateRun(p, s, run, made, answered))
  {
    var a := s.verifier;
    if a.Creating? && run !in s.world.runs && (answered ==> made) {
      var called := s.world.(calls := s.world.calls + multiset{a.key});
      CallKeeps(p, s, a.key);
      var s' := At(s.(world := called), Deciding);
      if made {
        var facts := Run(a.key, EnvironmentOf(p, a.key), "", None, false, false);
        var w := called.(runs := called.runs[run := facts]);
        NewRunKeeps(p, s', w, run);
        AtKeeps(p, s'.(world := w), if answered then Created(a.key, ExecutionRef(facts.environment, run, "")) else Out);
      } else {
        AtKeeps(p, s', Out);
      }
    }
  }

  lemma CallKeeps(p: Plan, s: State, key: Key)
    requires ValidPlan(p) && Inv(p, s) && s.verifier == Creating(key)
    ensures Inv(p, At(s.(world := s.world.(calls := s.world.calls + multiset{key})), Deciding))
    ensures forall r | r in s.world.runs :: s.world.runs[r].key != key
    ensures key.Branch? ==> key.name in p.branches && s.m.derived == p.compile.derived
  {
    var w := s.world.(calls := s.world.calls + multiset{key});
    forall k | k != key ensures w.calls[k] == s.world.calls[k] {}
    forall r | r in w.runs ensures RunInv(p, w, r) && s.world.runs[r].key != key { assert RunInv(p, s.world, r); }
    RecordGrows(p, s.world, w, s.m);
    PendingAgrees(s.disk.value, s.m, key);
    RecordGrows(p, s.world, w, s.disk.value);
    StoppedKeeps(p, s, w);
    HandGrows(p, s, w);
    assert EnvironmentInv(p, At(s.(world := w), Deciding));
  }

  lemma PendingAgrees(d: Execution, m: Execution, key: Key)
    requires Agrees(d, m)
    ensures Has(d, key) <==> Has(m, key)
    ensures Has(d, key) ==> StepOf(d, key) == StepOf(m, key)
  {
  }

  lemma NewRunKeeps(p: Plan, s: State, w: World, run: string)
    requires ValidPlan(p) && Inv(p, s) && s.verifier.Deciding? && run !in s.world.runs
    requires run in w.runs && w.runs == s.world.runs[run := w.runs[run]] && w == s.world.(runs := w.runs)
    requires !w.runs[run].released && w.runs[run].exit.None? && s.world.calls[w.runs[run].key] == 1
    requires forall r | r in s.world.runs :: s.world.runs[r].key != w.runs[run].key
    requires w.runs[run].environment == EnvironmentOf(p, w.runs[run].key)
    requires w.runs[run].key.Branch? ==> w.runs[run].key.name in p.branches
    ensures Inv(p, s.(world := w))
  {
    hide RecordInv, VerifierInv, CancelInv, EnvironmentInv, AllStopped, ExpectedDetails;
    NewRunWorld(p, s.world, w, run);
    hide WorldInv;
    WorldKeeps(p, s, w);
  }

  lemma NewRunWorld(p: Plan, before: World, w: World, run: string)
    requires ValidPlan(p) && WorldInv(p, before) && run !in before.runs
    requires run in w.runs && w.runs == before.runs[run := w.runs[run]] && w == before.(runs := w.runs)
    requires !w.runs[run].released && w.runs[run].exit.None? && before.calls[w.runs[run].key] == 1
    requires forall r | r in before.runs :: before.runs[r].key != w.runs[run].key
    requires w.runs[run].environment == EnvironmentOf(p, w.runs[run].key)
    requires w.runs[run].key.Branch? ==> w.runs[run].key.name in p.branches
    ensures WorldInv(p, w) && Grows(before, w)
  {
    hide ExpectedDetails, ValidPlan;
    forall r | r in w.runs ensures RunInv(p, w, r) { assert r != run ==> RunInv(p, before, r); }
  }

  lemma BindKeeps(p: Plan, s: State, accepted: bool)
    requires ValidPlan(p) && Inv(p, s)
    ensures Inv(p, DoBind(s, accepted))
  {
    var a := s.verifier;
    if (a.Created? || a.Allocated?) && Has(s.m, a.key) {
      var step := StepOf(s.m, a.key);
      assert StepInv(p, s.world, a.key, step);
      BoundIsExact(p, s, a.key, a.x);
      StepSavable(p, s, a.key, step.(execution := Some(a.x)));
      var next := if a.key.Compile? && !accepted then Unwinding(a.x)
                  else if a.Created? then Waiting(a.key, a.x)
                  else Preparing(a.key, a.x);
      SaveKeeps(p, s, WithStep(s.m, a.key, step.(execution := Some(a.x))), next, Unwinding(a.x));
    }
  }

  lemma BoundIsExact(p: Plan, s: State, key: Key, x: ExecutionRef)
    requires WorldInv(p, s.world) && Names(s.world, key, x)
    requires x.allocation != "" || !s.world.runs[x.run].released
    ensures forall r | r in s.world.runs && s.world.runs[r].released && s.world.runs[r].key == key ::
              x == ExecutionRef(s.world.runs[r].environment, r, s.world.runs[r].allocation)
  {
  }

  lemma WaitRunningKeeps(p: Plan, s: State)
    requires ValidPlan(p) && Inv(p, s)
    ensures Inv(p, DoWaitRunning(s))
  {
    if DoWaitRunning(s) != s {
      AtKeeps(p, s, DoWaitRunning(s).verifier);
    }
  }

  /** One fact about one Run is added. */
  lemma GrowKeeps(p: Plan, s: State, run: string, facts: Run)
    requires ValidPlan(p) && Inv(p, s) && run in s.world.runs && RunGrows(s.world.runs[run], facts)
    requires facts.exit.Some? && (facts.exit.value == 0 || facts.exit.value in COMPILE_REASONS) ==>
               (facts.key.Branch? ==> facts.key.name in p.branches) && facts.exit.value == ExitOf(p, facts.key)
    requires facts.released ==>
               && facts.allocation != ""
               && s.disk.Some?
               && Has(s.disk.value, facts.key)
               && StepOf(s.disk.value, facts.key).execution
                  == Some(ExecutionRef(facts.environment, run, facts.allocation))
               && (s.verifier.Created? ==> s.verifier.x.run != run)
    ensures Inv(p, WithRun(s, run, facts))
  {
    var w := s.world.(runs := s.world.runs[run := facts]);
    GrownWorld(p, s.world, run, facts);
    GrownKept(p, s, run, facts);
    WorldKeeps(p, s, w);
  }

  lemma GrownWorld(p: Plan, w: World, run: string, facts: Run)
    requires WorldInv(p, w) && run in w.runs && RunGrows(w.runs[run], facts)
    requires facts.exit.Some? && (facts.exit.value == 0 || facts.exit.value in COMPILE_REASONS) ==>
               (facts.key.Branch? ==> facts.key.name in p.branches) && facts.exit.value == ExitOf(p, facts.key)
    requires facts.released ==> facts.allocation != ""
    ensures WorldInv(p, w.(runs := w.runs[run := facts])) && Grows(w, w.(runs := w.runs[run := facts]))
  {
    var w' := w.(runs := w.runs[run := facts]);
    forall r | r in w'.runs ensures RunInv(p, w', r) { assert RunInv(p, w, r); }
  }

  lemma GrownKept(p: Plan, s: State, run: string, facts: Run)
    requires ValidPlan(p) && Inv(p, s) && run in s.world.runs && RunGrows(s.world.runs[run], facts)
    requires facts.released ==>
               && s.disk.Some?
               && Has(s.disk.value, facts.key)
               && StepOf(s.disk.value, facts.key).execution
                  == Some(ExecutionRef(facts.environment, run, facts.allocation))
    ensures s.disk.Some? ==> Kept(s.world.(runs := s.world.runs[run := facts]), s.disk.value)
  {
    if s.disk.Some? {
      var w := s.world.(runs := s.world.runs[run := facts]);
      var d := s.disk.value;
      forall r | r in w.runs && w.runs[r].released
        ensures Has(d, w.runs[r].key)
        ensures StepOf(d, w.runs[r].key).execution == Some(ExecutionRef(w.runs[r].environment, r, w.runs[r].allocation))
      {
        if r != run { assert s.world.runs[r].released; }
      }
    }
  }

  lemma ReleasedIsKept(p: Plan, s: State, run: string)
    requires ValidPlan(p) && Inv(p, s) && run in s.world.runs && s.world.runs[run].released
    ensures
      var facts := s.world.runs[run];
      && facts.allocation != ""
      && s.disk.Some?
      && Has(s.disk.value, facts.key)
      && StepOf(s.disk.value, facts.key).execution == Some(ExecutionRef(facts.environment, run, facts.allocation))
      && (s.verifier.Created? ==> s.verifier.x.run != run)
  {
    assert RunInv(p, s.world, run);
  }

  lemma RequestCancelKeeps(p: Plan, s: State, run: string, landed: bool)
    requires ValidPlan(p) && Inv(p, s)
    ensures Inv(p, RequestCancel(s, run, landed))
  {
    if landed && run in s.world.runs {
      assert RunInv(p, s.world, run);
      if s.world.runs[run].released { ReleasedIsKept(p, s, run); }
      GrowKeeps(p, s, run, s.world.runs[run].(cancelRequested := true));
    }
  }

  lemma ReleaseKeeps(p: Plan, s: State, key: Key, x: ExecutionRef)
    requires ValidPlan(p) && Inv(p, s) && s.verifier == Preparing(key, x)
    ensures Inv(p, WithRun(s, x.run, s.world.runs[x.run].(released := true)))
  {
    assert RunInv(p, s.world, x.run);
    PendingAgrees(s.disk.value, s.m, key);
    GrowKeeps(p, s, x.run, s.world.runs[x.run].(released := true));
  }

  lemma WriteMarkerKeeps(p: Plan, s: State, landed: bool, answered: bool)
    requires ValidPlan(p) && Inv(p, s)
    ensures Inv(p, DoWriteMarker(s, landed, answered))
  {
    hide RecordInv, WorldInv, CancelInv, EnvironmentInv, Kept, AllStopped, ExpectedDetails;
    var a := s.verifier;
    if a.Preparing? && (answered ==> landed) {
      var s' := if landed then WithRun(s, a.x.run, s.world.runs[a.x.run].(released := true)) else s;
      if landed { ReleaseKeeps(p, s, a.key, a.x); }
      AtKeeps(p, s', if answered then Following(a.key, a.x) else Unwinding(a.x));
    }
  }

  lemma CancelUnreleasedKeeps(p: Plan, s: State, landed: bool)
    requires ValidPlan(p) && Inv(p, s)
    ensures Inv(p, DoCancelUnreleased(s, landed))
  {
    if s.verifier.Unwinding? {
      RequestCancelKeeps(p, s, s.verifier.x.run, landed);
      AtKeeps(p, RequestCancel(s, s.verifier.x.run, landed), Out);
    }
  }

  lemma WaitRunKeeps(p: Plan, s: State)
    requires ValidPlan(p) && Inv(p, s)
    ensures Inv(p, DoWaitRun(p, s))
  {
    var s' := DoWaitRun(p, s);
    if s' != s {
      AtKeeps(p, s, s'.verifier);
      hide Inv;
      if s'.received != s.received {
        ReceivedKeeps(p, At(s, s'.verifier));
      }
    }
  }

  lemma ReceivedKeeps(p: Plan, s: State)
    requires ValidPlan(p) && Inv(p, s) && InHand(p, s) == {p.compile.derived} && p.compile.derived != ""
    ensures Inv(p, s.(received := s.received + {p.compile.derived}))
  {
    hide WorldInv, DiskInv, MemoryInv;
    assert InHand(p, s.(received := s.received + {p.compile.derived})) == InHand(p, s);
    SameButReceived(p, s, s.received + {p.compile.derived});
  }

  lemma SameButReceived(p: Plan, s: State, received: set<string>)
    requires ValidPlan(p)
    ensures DiskInv(p, s.(received := received)) == DiskInv(p, s)
    ensures MemoryInv(p, s.(received := received)) == MemoryInv(p, s)
    ensures CancelInv(s.(received := received)) == CancelInv(s)
  {
  }

  lemma DropKeeps(p: Plan, s: State, landed: bool, answered: bool)
    requires ValidPlan(p) && Inv(p, s)
    ensures Inv(p, DoDrop(p, s, landed, answered))
  {
    if s.verifier.Dropping? && (answered ==> landed) {
      DeletionKeeps(p, s, if landed then {p.compile.derived} else {});
    }
  }

  lemma DeletionKeeps(p: Plan, s: State, gone: set<string>)
    requires ValidPlan(p) && Inv(p, s)
    ensures Inv(p, s.(world := s.world.(deleted := s.world.deleted + gone)))
  {
    var w := s.world.(deleted := s.world.deleted + gone);
    forall r | r in w.runs ensures RunInv(p, w, r) { assert RunInv(p, s.world, r); }
    WorldKeeps(p, s, w);
  }

  lemma DeleteKeeps(p: Plan, s: State, landed: bool, answered: bool)
    requires ValidPlan(p) && Inv(p, s)
    ensures Inv(p, DoDelete(s, landed, answered))
  {
    var a := s.verifier;
    if a.Deleting? && (answered ==> landed) {
      var gone := if landed && s.m.derived != "" then {s.m.derived} else {};
      DeletionKeeps(p, s, gone);
      assert s.world.deleted + {} == s.world.deleted;
      AtKeeps(p, s.(world := s.world.(deleted := s.world.deleted + gone)), if answered then Saving(a.purpose) else Out);
    }
  }

  lemma ThrowKeeps(p: Plan, s: State)
    requires ValidPlan(p) && Inv(p, s)
    ensures Inv(p, DoThrow(p, s)) && Inv(p, DoCrash(p, s))
  {
    var lost := s.(lost := s.lost + InHand(p, s));
    assert Inv(p, DoCrash(p, s));
    if DoThrow(p, s).verifier.Unwinding? {
      AtKeeps(p, s, DoThrow(p, s).verifier);
    }
  }

  // ------------------------------------------------------------------ results

  lemma SettleCompileKeeps(p: Plan, s: State, x: ExecutionRef)
    requires ValidPlan(p) && Inv(p, s) && s.verifier == Held(Compile, x)
    ensures Inv(p, SettleCompile(p, s, x, s.world.runs[x.run].exit.value))
  {
    var exit := s.world.runs[x.run].exit.value;
    var step := s.m.compile;
    assert RunInv(p, s.world, x.run);
    assert StepInv(p, s.world, Compile, StepOf(s.m, Compile));
    if exit in COMPILE_REASONS {
      var failed := step.(state := BusinessFailed, reason := COMPILE_REASONS[exit]);
      BusinessSavable(p, s, x, failed);
      SaveKeeps(p, s, s.m.(compile := failed, phase := Aggregating), Failing, Out);
    } else if exit != 0 || p.compile.derived == "" {
      AtKeeps(p, s, Out);
    } else {
      DerivedKeeps(p, s, x);
    }
  }

  lemma DerivedKeeps(p: Plan, s: State, x: ExecutionRef)
    requires ValidPlan(p) && Inv(p, s) && s.verifier == Held(Compile, x)
    requires p.compile.derived != "" && s.world.runs[x.run].exit == Some(0)
    ensures Inv(p, SettleCompile(p, s, x, 0))
  {
    var m' := s.m.(compile := s.m.compile.(execution := Some(x)), derived := p.compile.derived);
    DerivedSavable(p, s, x, m');
    SaveKeeps(p, s, m', Checking, Dropping);
  }

  lemma DerivedSavable(p: Plan, s: State, x: ExecutionRef, m': Execution)
    requires ValidPlan(p) && Inv(p, s) && s.verifier == Held(Compile, x)
    requires p.compile.derived != "" && s.world.runs[x.run].exit == Some(0)
    requires m' == s.m.(compile := s.m.compile.(execution := Some(x)), derived := p.compile.derived)
    ensures Savable(p, s, m')
  {
    var step := s.m.compile.(execution := Some(x));
    assert RunInv(p, s.world, x.run);
    assert StepInv(p, s.world, Compile, StepOf(s.m, Compile));
    BoundIsExact(p, s, Compile, x);
    StepSavable(p, s, Compile, step);
    Relabelled(p, s, WithStep(s.m, Compile, step), m');
  }

  lemma BusinessSavable(p: Plan, s: State, x: ExecutionRef, failed: MultiRunStore.Step)
    requires ValidPlan(p) && Inv(p, s) && s.verifier == Held(Compile, x)
    requires p.compile.exit in COMPILE_REASONS && s.world.runs[x.run].exit == Some(p.compile.exit)
    requires failed == s.m.compile.(state := BusinessFailed, reason := COMPILE_REASONS[p.compile.exit])
    ensures Savable(p, s, s.m.(compile := failed, phase := Aggregating))
  {
    assert StepInv(p, s.world, Compile, StepOf(s.m, Compile));
    KeptAgrees(s.world, s.disk.value, s.m);
    StepSavable(p, s, Compile, failed);
    Relabelled(p, s, WithStep(s.m, Compile, failed), s.m.(compile := failed, phase := Aggregating));
  }

  lemma SettleBranchKeeps(p: Plan, s: State, b: string, x: ExecutionRef)
    requires ValidPlan(p) && Inv(p, s) && s.verifier == Held(Branch(b), x)
    ensures Inv(p, SettleBranch(p, s, b, x, s.world.runs[x.run].exit.value))
  {
    var exit := s.world.runs[x.run].exit.value;
    var report := p.branches[b].report;
    assert RunInv(p, s.world, x.run);
    MemorySavable(p, s);
    if exit != 0 {
      Relabelled(p, s, s.m, s.m.(cleanup := InProgress));
      SaveKeeps(p, s, s.m.(cleanup := InProgress), Deleting(ExitFailed), Out);
    } else if report.None? || !ValidBranchResult(report.value, b) {
      Relabelled(p, s, s.m, MarkBroken(s.m));
      SaveKeeps(p, s, MarkBroken(s.m), Deleting(AsBroken), Out);
    } else {
      ReportKeeps(p, s, b, x, report.value);
    }
  }

  lemma ReportKeeps(p: Plan, s: State, b: string, x: ExecutionRef, report: BranchResult)
    requires ValidPlan(p) && Inv(p, s) && s.verifier == Held(Branch(b), x)
    requires b in p.branches && p.branches[b].report == Some(report) && ValidBranchResult(report, b)
    requires s.world.runs[x.run].exit == Some(0)
    ensures Inv(p, SettleBranch(p, s, b, x, 0))
  {
    var broken := report.status.InfrastructureError?;
    var sealed := Step(if broken then StepBroken else Done, Some(x), Sha(report), report.reason);
    assert RunInv(p, s.world, x.run);
    BoundIsExact(p, s, Branch(b), x);
    StepSavable(p, s, Branch(b), sealed);
    var m' := WithStep(s.m, Branch(b), sealed);
    if broken {
      Relabelled(p, s, m', MarkBroken(m'));
      SaveKeeps(p, s, MarkBroken(m'), Deleting(AsBroken), Out);
    } else {
      SaveKeeps(p, s, m', Deciding, Out);
    }
  }

  lemma SettleKeeps(p: Plan, s: State)
    requires ValidPlan(p) && Inv(p, s)
    ensures Inv(p, DoSettle(p, s))
  {
    match s.verifier
    case Held(Compile, x) => SettleCompileKeeps(p, s, x);
    case Held(Branch(b), x) => SettleBranchKeeps(p, s, b, x);
    case _ =>
  }

  lemma CheckCompiledKeeps(p: Plan, s: State)
    requires ValidPlan(p) && Inv(p, s)
    ensures Inv(p, DoCheckCompiled(p, s))
  {
    if s.verifier.Checking? {
      MemorySavable(p, s);
      match p.compile.report
      case None =>
        Relabelled(p, s, s.m, MarkBroken(s.m));
        SaveKeeps(p, s, MarkBroken(s.m), Deleting(AsBroken), Out);
      case Some(executable) =>
        var m' := s.m.(compile := s.m.compile.(state := Done), executable := executable, phase := BranchesRunning);
        CheckedSavable(p, s, m');
        SaveKeeps(p, s, m', Deciding, Out);
    }
  }

  lemma CheckedSavable(p: Plan, s: State, m': Execution)
    requires ValidPlan(p) && Inv(p, s) && s.verifier.Checking? && p.compile.report.Some?
    requires m' == s.m.(compile := s.m.compile.(state := Done), executable := p.compile.report.value,
                        phase := BranchesRunning)
    ensures Savable(p, s, m')
  {
    MemorySavable(p, s);
    forall key | Has(m', key) ensures StepInv(p, s.world, key, StepOf(m', key)) {
      assert StepInv(p, s.world, key, StepOf(s.m, key));
    }
    forall r | r in s.world.runs && s.world.runs[r].released
      ensures Has(m', s.world.runs[r].key)
      ensures StepOf(m', s.world.runs[r].key).execution
              == Some(ExecutionRef(s.world.runs[r].environment, r, s.world.runs[r].allocation))
    {
      assert StepOf(m', s.world.runs[r].key).execution == StepOf(s.m, s.world.runs[r].key).execution;
    }
  }

  /** The verifier saves its record with other labels. */
  lemma LabelKeeps(p: Plan, s: State, m': Execution, next: Activity)
    requires ValidPlan(p) && Inv(p, s) && !s.verifier.Out? && InHand(p, s) == {}
    requires m'.compile == s.m.compile && m'.branches == s.m.branches && m'.derived == s.m.derived
    requires Labelled(p, s.world, m') && Concluded(m') && (Stopping(m') ==> Stopping(s.m))
    requires VerifierInv(p, s.world, m', next)
    ensures Inv(p, Save(s, m', next, Out))
  {
    MemorySavable(p, s);
    Relabelled(p, s, s.m, m');
    SaveKeeps(p, s, m', next, Out);
  }

  lemma FailureReason(p: Plan, s: State)
    requires ValidPlan(p) && Inv(p, s) && s.verifier.Failing?
    ensures p.compile.exit in COMPILE_REASONS && s.m.compile.reason == COMPILE_REASONS[p.compile.exit]
    ensures s.m.derived == ""
  {
    assert StepInv(p, s.world, Compile, StepOf(s.m, Compile));
  }

  lemma FailureDetails(p: Plan, reason: string)
    requires ValidPlan(p) && p.compile.exit in COMPILE_REASONS && reason == COMPILE_REASONS[p.compile.exit]
    ensures Published(p, Sha(CompileFailure(p.listed, p.tests, reason)))
  {
  }

  lemma FinishFailureKeeps(p: Plan, s: State)
    requires ValidPlan(p) && Inv(p, s)
    ensures Inv(p, DoFinishFailure(p, s))
  {
    if s.verifier.Failing? {
      FailureReason(p, s);
      FailureDetails(p, s.m.compile.reason);
      var details := Sha(CompileFailure(p.listed, p.tests, s.m.compile.reason));
      LabelKeeps(p, s, s.m.(details := details, cleanup := NotCreated, phase := Progress.Completed), Out);
    }
  }

  /** A file that matches its recorded digest is the sealed report. */
  lemma AcceptedFile(p: Plan, s: State, b: string, file: BranchResult)
    requires ValidPlan(p) && Inv(p, s) && s.verifier.Summing? && b in s.m.branches
    requires s.m.branches[b].result == Sha(file)
    ensures b in p.branches && p.branches[b].report == Some(file)
  {
    assert StepInv(p, s.world, Branch(b), StepOf(s.m, Branch(b)));
  }

  lemma AcceptedFiles(p: Plan, s: State, files: map<string, BranchResult>)
    requires ValidPlan(p) && Inv(p, s) && s.verifier.Summing?
    requires forall b | b in p.listed :: b in files && b in s.m.branches
    requires Accepted(p.listed, RecordedSteps(s.m), files)
    ensures Sha(Aggregated(p.listed, p.tests, files, s.m.executable)) == ExpectedDetails(p)
  {
    forall b | b in p.listed ensures b in p.branches && p.branches[b].report == Some(files[b]) {
      assert RecordedSteps(s.m)[b].digest == Sha(files[b]);
      AcceptedFile(p, s, b, files[b]);
    }
    assert p.compile.exit == 0 && p.compile.report == Some(s.m.executable);
    SealedSum(p, files);
  }

  lemma SealedSum(p: Plan, files: map<string, BranchResult>)
    requires ValidPlan(p) && p.compile.exit == 0 && p.compile.report.Some?
    requires forall b | b in p.listed :: b in files && b in p.branches && p.branches[b].report == Some(files[b])
    ensures Sha(Aggregated(p.listed, p.tests, files, p.compile.report.value)) == ExpectedDetails(p)
  {
    forall b | b in p.branches ensures p.branches[b].report.Some? { assert b in p.listed; }
    Laws.SameReports(p.listed, p.tests, files, Reports(p), p.compile.report.value);
  }

  lemma SumKeeps(p: Plan, s: State, files: map<string, BranchResult>)
    requires ValidPlan(p) && Inv(p, s)
    ensures Inv(p, DoSum(p, s, files))
  {
    if s.verifier.Summing? && forall b | b in p.listed :: b in files && b in s.m.branches {
      if Accepted(p.listed, RecordedSteps(s.m), files) {
        var details := Sha(Aggregated(p.listed, p.tests, files, s.m.executable));
        AcceptedFiles(p, s, files);
        LabelSum(p, s, details);
      } else {
        AtKeeps(p, s, Out);
      }
    }
  }

  lemma LabelSum(p: Plan, s: State, details: Digest<Details>)
    requires ValidPlan(p) && Inv(p, s) && s.verifier.Summing?
    requires Published(p, details)
    ensures Inv(p, Save(s, s.m.(details := details, cleanup := InProgress), Deleting(Succeeded), Out))
  {
    hide ExpectedDetails;
    LabelKeeps(p, s, s.m.(details := details, cleanup := InProgress), Deleting(Succeeded));
  }

  lemma SaveDeletedKeeps(p: Plan, s: State)
    requires ValidPlan(p) && Inv(p, s)
    ensures Inv(p, DoSaveDeleted(s))
  {
    hide ExpectedDetails;
    if s.verifier.Saving? {
      var cleaned := s.m.(cleanup := Cleaned);
      match s.verifier.purpose
      case Succeeded => LabelKeeps(p, s, cleaned.(phase := Progress.Completed), Out);
      case ExitFailed => LabelKeeps(p, s, cleaned.(phase := Broken), Out);
      case AsBroken => LabelKeeps(p, s, cleaned, Out);
    }
  }

  // ------------------------------------------------------------------ cancel

  lemma RunningRunsNamed(w: World, p: Plan, d: Execution)
    requires ValidPlan(p) && RecordInv(p, w, d)
    ensures AllStopped(w, d, RunningRuns(d))
    ensures forall r | r in RunningRuns(d) :: r in w.runs
  {
    forall r | r in RunningRuns(d) ensures r in w.runs { RunningRunExists(w, p, d, r); }
  }

  lemma RunningRunExists(w: World, p: Plan, d: Execution, r: string)
    requires ValidPlan(p) && RecordInv(p, w, d) && r in RunningRuns(d)
    ensures r in w.runs
  {
    assert StepInv(p, w, Compile, StepOf(d, Compile));
    if !(d.compile.execution.Some? && d.compile.execution.value.run == r) {
      var b :| b in d.branches && d.branches[b].execution.Some? && d.branches[b].execution.value.run == r;
      assert StepInv(p, w, Branch(b), StepOf(d, Branch(b)));
    }
  }

  /** A cancel rewrites the labels of the record, and nothing else of it. */
  lemma RelabelDisk(p: Plan, s: State, phase: Progress, cleanup: Cleanup)
    requires ValidPlan(p) && Inv(p, s) && s.disk.Some?
    requires phase.Cancelling? || (phase.Cancelled? && s.canceller.Free?)
    requires cleanup.Cleaned? ==> s.disk.value.derived != "" && s.disk.value.derived in s.world.deleted
    requires phase.Cancelled? ==> AllStopped(s.world, s.disk.value, {})
    requires phase.Cancelled? && s.disk.value.derived != "" ==> s.disk.value.derived in s.world.deleted
    ensures Inv(p, s.(disk := Some(s.disk.value.(phase := phase, cleanup := cleanup))))
  {
    var d := s.disk.value;
    var d' := d.(phase := phase, cleanup := cleanup);
    KeptSteps(s.world, d, d');
    forall key | Has(d', key) ensures StepInv(p, s.world, key, StepOf(d', key)) {
      assert StepInv(p, s.world, key, StepOf(d, key));
    }
    if AllStopped(s.world, d, {}) { SameStopped(s.world, d, d', {}); }
    if s.canceller.Asking? && AllStopped(s.world, d, s.canceller.todo) {
      SameStopped(s.world, d, d', s.canceller.todo);
    }
  }

  lemma SameStopped(w: World, d: Execution, d': Execution, except: set<string>)
    requires AllStopped(w, d, except) && d'.compile == d.compile && d'.branches == d.branches
    ensures AllStopped(w, d', except)
  {
    forall key | Has(d', key) && StepOf(d', key).state.Running? && StepOf(d', key).execution.Some?
      ensures
        var run := StepOf(d', key).execution.value.run;
        run in except || (run in w.runs && Stopped(w.runs[run]))
    {
      assert StepOf(d', key) == StepOf(d, key);
    }
  }

  lemma CancellerKeeps(p: Plan, s: State, canceller: Canceller)
    requires ValidPlan(p) && Inv(p, s)
    requires s.disk.None? ==> canceller.Free?
    requires CancelInv(s.(canceller := canceller))
    ensures Inv(p, s.(canceller := canceller))
  {
  }

  lemma BeginCancelKeeps(p: Plan, s: State)
    requires ValidPlan(p) && Inv(p, s)
    ensures Inv(p, DoBeginCancel(s))
  {
    if s.canceller.Free? && s.disk.Some? && !s.disk.value.phase.Cancelled? {
      var d := s.disk.value;
      RelabelDisk(p, s, Cancelling, d.cleanup);
      RunningRunsNamed(s.world, p, d);
      SameStopped(s.world, d, d.(phase := Cancelling), RunningRuns(d));
      CancellerKeeps(p, s.(disk := Some(d.(phase := Cancelling))), Asking(RunningRuns(d), false));
    }
  }

  lemma AskCancelKeeps(p: Plan, s: State, run: string, landed: bool, answered: bool)
    requires ValidPlan(p) && Inv(p, s)
    ensures Inv(p, DoAskCancel(s, run, landed, answered))
  {
    match s.canceller {
      case Asking(todo, failed) =>
        if run in todo && run in s.world.runs && (answered && !landed ==> s.world.runs[run].exit.Some?) {
          var s' := RequestCancel(s, run, landed);
          RequestCancelKeeps(p, s, run, landed);
          if !failed && answered { OneLess(s'.world, s'.disk.value, todo, run); }
          CancellerKeeps(p, s', Asking(todo - {run}, failed || !answered));
        }
      case _ =>
    }
  }

  lemma OneLess(w: World, d: Execution, todo: set<string>, run: string)
    requires AllStopped(w, d, todo) && run in w.runs && Stopped(w.runs[run])
    ensures AllStopped(w, d, todo - {run})
  {
  }

  lemma EndAskingKeeps(p: Plan, s: State)
    requires ValidPlan(p) && Inv(p, s)
    ensures Inv(p, DoEndAsking(s))
  {
    if s.canceller.Asking? && s.canceller.todo == {} && s.disk.Some? {
      var d := s.disk.value;
      CancellerKeeps(p, s, Free);
      var free := s.(canceller := Free);
      if !s.canceller.failed {
        if d.derived != "" && !d.cleanup.Cleaned? {
          RelabelDisk(p, free, Cancelling, InProgress);
          SameStopped(s.world, d, d.(phase := Cancelling, cleanup := InProgress), {});
          CancellerKeeps(p, free.(disk := Some(d.(phase := Cancelling, cleanup := InProgress))), Cleaning);
        } else {
          RelabelDisk(p, free, Progress.Cancelled, d.cleanup);
        }
      }
    }
  }

  lemma CleanKeeps(p: Plan, s: State, landed: bool, answered: bool)
    requires ValidPlan(p) && Inv(p, s)
    ensures Inv(p, DoClean(s, landed, answered))
  {
    if s.canceller.Cleaning? && s.disk.Some? && (answered ==> landed) {
      var gone := if landed then {s.disk.value.derived} else {};
      DeletionKeeps(p, s, gone);
      assert s.world.deleted + {} == s.world.deleted;
      var s' := s.(world := s.world.(deleted := s.world.deleted + gone));
      CancellerKeeps(p, s', Free);
      if answered {
        RelabelDisk(p, s'.(canceller := Free), Progress.Cancelled, Cleaned);
      }
    }
  }

  // ------------------------------------------------------------------ Axern

  lemma AllocateKeeps(p: Plan, s: State, run: string, allocation: string)
    requires ValidPlan(p) && Inv(p, s)
    ensures Inv(p, DoAllocate(s, run, allocation))
  {
    if run in s.world.runs && s.world.runs[run].allocation == "" && s.world.runs[run].exit.None? {
      assert RunInv(p, s.world, run);
      GrowKeeps(p, s, run, s.world.runs[run].(allocation := allocation));
    }
  }

  lemma ExitKeeps(p: Plan, s: State, run: string)
    requires ValidPlan(p) && Inv(p, s)
    ensures Inv(p, DoExit(p, s, run))
  {
    if run in s.world.runs && s.world.runs[run].exit.None? && s.world.runs[run].released {
      assert RunInv(p, s.world, run);
      ReleasedIsKept(p, s, run);
      GrowKeeps(p, s, run, s.world.runs[run].(exit := Some(ExitOf(p, s.world.runs[run].key))));
    }
  }

  lemma KillKeeps(p: Plan, s: State, run: string, status: int)
    requires ValidPlan(p) && Inv(p, s)
    ensures Inv(p, DoKill(s, run, status))
  {
    if run in s.world.runs && s.world.runs[run].exit.None? && status != 0 && status !in COMPILE_REASONS {
      assert RunInv(p, s.world, run);
      if s.world.runs[run].released { ReleasedIsKept(p, s, run); }
      GrowKeeps(p, s, run, s.world.runs[run].(exit := Some(status)));
    }
  }

  // ------------------------------------------------------------------ every run

  lemma StepKeeps(p: Plan, s: State, step: MultiRunProtocol.Step)
    requires ValidPlan(p) && Inv(p, s)
    ensures Inv(p, Apply(p, s, step))
  {
    hide Inv;
    if step.CreateRun? || step.Bind? || step.WaitRunning? || step.WriteMarker? || step.WaitRun?
       || step.CancelUnreleased? {
      ExecuteKeeps(p, s, step);
    } else if step.BeginCancel? || step.AskCancel? || step.EndAsking? || step.Clean? || step.CrashCancel? {
      CancelKeeps(p, s, step);
    } else if step.Delete? || step.SaveDeleted? || step.Throw? || step.Crash? {
      CleanupKeeps(p, s, step);
    } else if step.Settle? || step.Drop? || step.CheckCompiled? || step.FinishFailure? || step.Sum? {
      ResultKeeps(p, s, step);
    } else {
      OtherKeeps(p, s, step);
    }
  }

  lemma OtherKeeps(p: Plan, s: State, step: MultiRunProtocol.Step)
    requires ValidPlan(p) && Inv(p, s)
    requires step.Open? || step.Decide? || step.RequireLive? || step.Allocate? || step.Exit? || step.Kill?
    ensures Inv(p, Apply(p, s, step))
  {
    hide Inv;
    match step
    case Open => OpenKeeps(p, s);
    case Decide => DecideKeeps(p, s);
    case RequireLive => RequireLiveKeeps(p, s);
    case Allocate(run, allocation) => AllocateKeeps(p, s, run, allocation);
    case Exit(run) => ExitKeeps(p, s, run);
    case Kill(run, status) => KillKeeps(p, s, run, status);
  }

  lemma ExecuteKeeps(p: Plan, s: State, step: MultiRunProtocol.Step)
    requires ValidPlan(p) && Inv(p, s)
    requires
      || step.CreateRun? || step.Bind? || step.WaitRunning? || step.WriteMarker? || step.WaitRun?
      || step.CancelUnreleased?
    ensures Inv(p, Apply(p, s, step))
  {
    hide Inv;
    match step
    case CreateRun(run, made, answered) => CreateRunKeeps(p, s, run, made, answered);
    case Bind(accepted) => BindKeeps(p, s, accepted);
    case WaitRunning => WaitRunningKeeps(p, s);
    case WriteMarker(landed, answered) => WriteMarkerKeeps(p, s, landed, answered);
    case WaitRun => WaitRunKeeps(p, s);
    case CancelUnreleased(landed) => CancelUnreleasedKeeps(p, s, landed);
  }

  lemma CancelKeeps(p: Plan, s: State, step: MultiRunProtocol.Step)
    requires ValidPlan(p) && Inv(p, s)
    requires step.BeginCancel? || step.AskCancel? || step.EndAsking? || step.Clean? || step.CrashCancel?
    ensures Inv(p, Apply(p, s, step))
  {
    hide Inv;
    match step
    case BeginCancel => BeginCancelKeeps(p, s);
    case AskCancel(run, landed, answered) => AskCancelKeeps(p, s, run, landed, answered);
    case EndAsking => EndAskingKeeps(p, s);
    case Clean(landed, answered) => CleanKeeps(p, s, landed, answered);
    case CrashCancel => CancellerKeeps(p, s, Free);
  }

  lemma CleanupKeeps(p: Plan, s: State, step: MultiRunProtocol.Step)
    requires ValidPlan(p) && Inv(p, s)
    requires step.Delete? || step.SaveDeleted? || step.Throw? || step.Crash?
    ensures Inv(p, Apply(p, s, step))
  {
    hide Inv;
    match step
    case Delete(landed, answered) => DeleteKeeps(p, s, landed, answered);
    case SaveDeleted => SaveDeletedKeeps(p, s);
    case Throw => ThrowKeeps(p, s);
    case Crash => ThrowKeeps(p, s);
  }

  lemma ResultKeeps(p: Plan, s: State, step: MultiRunProtocol.Step)
    requires ValidPlan(p) && Inv(p, s)
    requires step.Settle? || step.Drop? || step.CheckCompiled? || step.FinishFailure? || step.Sum?
    ensures Inv(p, Apply(p, s, step))
  {
    hide Inv;
    match step
    case Settle => SettleKeeps(p, s);
    case Drop(landed, answered) => DropKeeps(p, s, landed, answered);
    case CheckCompiled => CheckCompiledKeeps(p, s);
    case FinishFailure => FinishFailureKeeps(p, s);
    case Sum(files) => SumKeeps(p, s, files);
  }

  lemma {:induction false} TraceKeeps(p: Plan, s: State, steps: seq<MultiRunProtocol.Step>)
    requires ValidPlan(p) && Inv(p, s)
    ensures Inv(p, Trace(p, s, steps))
    decreases |steps|
  {
    hide Inv;
    if |steps| > 0 {
      StepKeeps(p, s, steps[0]);
      TraceKeeps(p, Apply(p, s, steps[0]), steps[1..]);
    }
  }

  ghost predicate Reachable(p: Plan, s: State)
    requires ValidPlan(p)
  {
    exists steps: seq<MultiRunProtocol.Step> :: s == Trace(p, Init(), steps)
  }

  lemma ReachableInv(p: Plan, s: State)
    requires ValidPlan(p) && Reachable(p, s)
    ensures Inv(p, s)
  {
    var steps: seq<MultiRunProtocol.Step> :| s == Trace(p, Init(), steps);
    TraceKeeps(p, Init(), steps);
  }

  /** Over any crashes, restarts and cancels, one create_run per compile or branch, and one Run at most. */
  lemma OneRunPerStep(p: Plan, s: State, key: Key)
    requires ValidPlan(p) && Reachable(p, s)
    ensures s.world.calls[key] <= 1
    ensures forall r1, r2 | r1 in s.world.runs && r2 in s.world.runs
              && s.world.runs[r1].key == key && s.world.runs[r2].key == key :: r1 == r2
    ensures forall r | r in s.world.runs && s.world.runs[r].key == key ::
              s.world.runs[r].environment == EnvironmentOf(p, key)
  {
    ReachableInv(p, s);
    forall r | r in s.world.runs && s.world.runs[r].key == key
      ensures s.world.runs[r].environment == EnvironmentOf(p, key)
    {
      assert RunInv(p, s.world, r);
    }
  }

  /** Every execution that completes publishes what the sealed outputs determine. */
  lemma CompletedPublishesExpected(p: Plan, s: State)
    requires ValidPlan(p) && Reachable(p, s)
    requires s.disk.Some? && s.disk.value.phase.Completed?
    ensures s.disk.value.details.Sha? && s.disk.value.details == ExpectedDetails(p)
    ensures s.disk.value.derived != "" ==>
              s.disk.value.derived == p.compile.derived && s.disk.value.derived in s.world.deleted
  {
    ReachableInv(p, s);
  }

  /** Two executions with the same sealed outputs, whatever their crashes, publish the same digest. */
  lemma SameDigest(p: Plan, s: State, t: State)
    requires ValidPlan(p) && Reachable(p, s) && Reachable(p, t)
    requires s.disk.Some? && s.disk.value.phase.Completed?
    requires t.disk.Some? && t.disk.value.phase.Completed?
    ensures s.disk.value.details == t.disk.value.details
  {
    CompletedPublishesExpected(p, s);
    CompletedPublishesExpected(p, t);
  }

  /** Once a cancel has been accepted, the record changes in its phase and cleanup only. */
  ghost predicate Frozen(s: State, s': State) {
    if s.disk.None? then s.marker ==> s'.disk.None? && s'.marker
    else Stopping(s.disk.value) ==>
      && s'.disk.Some?
      && Stopping(s'.disk.value)
      && s'.disk.value.(phase := s.disk.value.phase, cleanup := s.disk.value.cleanup) == s.disk.value
  }

  lemma ResultFreezes(p: Plan, s: State, step: MultiRunProtocol.Step)
    requires ValidPlan(p)
    requires step.Settle? || step.CheckCompiled? || step.FinishFailure? || step.Sum? || step.SaveDeleted?
    ensures Frozen(s, Apply(p, s, step))
  {
  }

  lemma StepFreezes(p: Plan, s: State, step: MultiRunProtocol.Step)
    requires ValidPlan(p)
    ensures Frozen(s, Apply(p, s, step))
  {
    if step.Settle? || step.CheckCompiled? || step.FinishFailure? || step.Sum? || step.SaveDeleted? {
      ResultFreezes(p, s, step);
    }
  }

  lemma {:induction false} CancelWins(p: Plan, s: State, steps: seq<MultiRunProtocol.Step>)
    requires ValidPlan(p)
    ensures Frozen(s, Trace(p, s, steps))
    decreases |steps|
  {
    if |steps| > 0 {
      StepFreezes(p, s, steps[0]);
      CancelWins(p, Apply(p, s, steps[0]), steps[1..]);
    }
  }

  /** After cancellation every released Run is finished or asked to stop, and the Environment is gone. */
  lemma CancelledIsStopped(p: Plan, s: State)
    requires ValidPlan(p) && Reachable(p, s)
    requires s.disk.Some? && s.disk.value.phase.Cancelled?
    ensures forall r | r in s.world.runs && s.world.runs[r].released :: Stopped(s.world.runs[r])
    ensures s.disk.value.derived != "" ==> s.disk.value.derived in s.world.deleted
  {
    ReachableInv(p, s);
    forall r | r in s.world.runs && s.world.runs[r].released ensures Stopped(s.world.runs[r]) {
      ReleasedIsKept(p, s, r);
      assert StepInv(p, s.world, s.world.runs[r].key, StepOf(s.disk.value, s.world.runs[r].key));
    }
  }

  /** A released Run is on record with its allocation: nothing runs that cancel could not find. */
  lemma ReleasedIsRecorded(p: Plan, s: State, run: string)
    requires ValidPlan(p) && Reachable(p, s) && run in s.world.runs && s.world.runs[run].released
    ensures
      var facts := s.world.runs[run];
      && s.disk.Some?
      && Has(s.disk.value, facts.key)
      && facts.allocation != ""
      && StepOf(s.disk.value, facts.key).execution == Some(ExecutionRef(facts.environment, run, facts.allocation))
  {
    ReachableInv(p, s);
    ReleasedIsKept(p, s, run);
  }

  /** Verification is over for its Environment: cancelled, completed, or failed with the cleanup done. */
  predicate CleanedUp(s: State) {
    s.disk.Some? && (s.disk.value.phase.Cancelled? || s.disk.value.phase.Completed? || s.disk.value.cleanup.Cleaned?)
  }

  /**
   * When verification is cleaned up and no verifier holds a result, every received Environment is
   * deleted or was lost in a crash or a failed deletion.
   */
  lemma EnvironmentsAccounted(p: Plan, s: State)
    requires ValidPlan(p) && Reachable(p, s)
    requires CleanedUp(s)
    requires InHand(p, s) == {}
    ensures s.received <= s.world.deleted + s.lost
  {
    ReachableInv(p, s);
  }

  ghost predicate Loses(step: MultiRunProtocol.Step) {
    step.Crash? || (step.Drop? && !step.answered)
  }

  lemma OnlyFailuresLose(p: Plan, s: State, step: MultiRunProtocol.Step)
    requires ValidPlan(p) && !Loses(step)
    ensures Apply(p, s, step).lost == s.lost
  {
    if step.Settle? || step.CheckCompiled? || step.FinishFailure? || step.Sum? || step.SaveDeleted? {
      ResultsLoseNothing(p, s, step);
    } else if step.Decide? || step.Open? || step.RequireLive? || step.CreateRun? || step.Bind? {
      hide ValidPlan, Claim, Opened, FirstPending, StepOf, WithStep;
    }
  }

  lemma ResultsLoseNothing(p: Plan, s: State, step: MultiRunProtocol.Step)
    requires ValidPlan(p)
    requires step.Settle? || step.CheckCompiled? || step.FinishFailure? || step.Sum? || step.SaveDeleted?
    ensures Apply(p, s, step).lost == s.lost
  {
    hide ValidPlan, Aggregated, CompileFailure, Accepted, RecordedSteps, ValidBranchResult, Live;
    match step
    case Settle =>
    case CheckCompiled =>
    case FinishFailure =>
    case Sum(_) =>
    case SaveDeleted =>
  }

  lemma {:induction false} NothingLost(p: Plan, s: State, steps: seq<MultiRunProtocol.Step>)
    requires ValidPlan(p) && forall step | step in steps :: !Loses(step)
    ensures Trace(p, s, steps).lost == s.lost
    decreases |steps|
  {
    if |steps| > 0 {
      OnlyFailuresLose(p, s, steps[0]);
      NothingLost(p, Apply(p, s, steps[0]), steps[1..]);
    }
  }

  /** Without a crash, the verifier or a cancel deletes every derived Environment. */
  lemma EnvironmentsDeleted(p: Plan, steps: seq<MultiRunProtocol.Step>)
    requires ValidPlan(p) && forall step | step in steps :: !Loses(step)
    requires
      var s := Trace(p, Init(), steps);
      CleanedUp(s) && InHand(p, s) == {}
    ensures Trace(p, Init(), steps).received <= Trace(p, Init(), steps).world.deleted
  {
    EnvironmentsAccounted(p, Trace(p, Init(), steps));
    NothingLost(p, Init(), steps);
  }

  /** A submission that does not compile fails every expected test, and the counters agree with the list. */
  lemma {:induction false} FailureCounts(order: seq<string>, tests: map<string, Expected>, reason: string)
    requires forall b | b in order :: b in tests
    ensures
      var d := CompileFailure(order, tests, reason);
      && d.passed + d.failed + d.notRun == |d.tests|
      && (forall entry | entry in d.tests :: entry.status.NotRun?)
      && (forall b, n | b in order && n in tests[b].active :: Entry(b, n, NotRun) in d.tests)
    decreases |order|
  {
    if |order| > 0 {
      var b := order[|order| - 1];
      var active := tests[b].active;
      var last := seq(|active|, i requires 0 <= i < |active| => Entry(b, active[i], NotRun));
      FailureCounts(order[..|order| - 1], tests, reason);
      forall n | n in active ensures Entry(b, n, NotRun) in last {
        var i :| 0 <= i < |active| && active[i] == n;
        assert last[i] == Entry(b, n, NotRun);
      }
    }
  }
}
