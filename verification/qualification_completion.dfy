/** What qualifiers can still reach: exactly which slots of a record can be turned into evidence. */
module QualificationCompletion {
  import opened Models
  import opened Qualification
  import opened QualificationSafety
  import Records = EpisodeRecords

  /** Nobody crashes or is interrupted, and no other writer moves the record. */
  predicate Continues(step: Step) {
    !step.Crash? && !step.Throw? && !step.OtherWriter?
  }

  ghost predicate Leads(k: Context, s: State, s': State) {
    exists steps: seq<Step> :: (forall step | step in steps :: Continues(step)) && Trace(k, s, steps) == s'
  }

  lemma {:induction false} TraceSnoc(k: Context, s: State, steps: seq<Step>, step: Step)
    ensures Trace(k, s, steps + [step]) == Apply(k, Trace(k, s, steps), step)
    decreases |steps|
  {
    hide Apply;
    if |steps| == 0 {
      assert (steps + [step])[1..] == [];
    } else {
      assert (steps + [step])[1..] == steps[1..] + [step];
      TraceSnoc(k, Apply(k, s, steps[0]), steps[1..], step);
    }
  }

  lemma Then(k: Context, base: State, s: State, step: Step)
    requires Leads(k, base, s) && Inv(k, s) && Continues(step)
    ensures Leads(k, base, Apply(k, s, step)) && Inv(k, Apply(k, s, step))
  {
    hide Inv, Apply;
    var steps: seq<Step> :| (forall step | step in steps :: Continues(step)) && Trace(k, base, steps) == s;
    TraceSnoc(k, base, steps, step);
    assert forall x | x in steps + [step] :: Continues(x);
    StepKeeps(k, s, step);
  }

  lemma StepIs(k: Context, s: State, step: Step)
    ensures step.Begin? ==> Apply(k, s, step) == DoBegin(s, step.c)
    ensures step.Check? ==> Apply(k, s, step) == DoCheck(s, step.c)
    ensures step.CreateRun? ==> Apply(k, s, step) == DoCreateRun(k, s, step.c, step.run, step.made, step.answered)
    ensures step.Bind? ==> Apply(k, s, step) == DoBind(k, s, step.c)
    ensures step.WaitRunning? ==> Apply(k, s, step) == DoWaitRunning(s, step.c)
    ensures step.WriteMarker? ==> Apply(k, s, step) == DoWriteMarker(s, step.c, step.landed, step.answered)
    ensures step.WaitRun? ==> Apply(k, s, step) == DoWaitRun(s, step.c)
    ensures step.Recover? ==> Apply(k, s, step) == DoRecover(s, step.c)
    ensures step.Rebind? ==> Apply(k, s, step) == DoRebind(k, s, step.c)
    ensures step.Judge? ==> Apply(k, s, step) == DoJudge(k, s, step.c)
    ensures step.Persist? ==> Apply(k, s, step) == DoPersist(k, s, step.c)
    ensures step.Commit? ==> Apply(k, s, step) == DoCommit(k, s, step.c)
    ensures step.Throw? ==> Apply(k, s, step) == DoThrow(s, step.c)
    ensures step.OtherWriter? ==> Apply(k, s, step) == DoOtherWriter(k, s, step.w)
    ensures step.Allocate? ==> Apply(k, s, step) == DoAllocate(s, step.run, step.allocation)
    ensures step.Exit? ==> Apply(k, s, step) == DoExit(s, step.run, step.status, step.checks)
    ensures step.Crash? ==> Apply(k, s, step) == Move(s, step.c, Out)
    ensures step.Unwind? ==> Apply(k, s, step) == s || Apply(k, s, step) == Move(s, step.c, Out)
  {
    hide DoBegin, DoCheck, DoCreateRun, DoBind, DoWaitRunning, DoWriteMarker, DoWaitRun, DoRecover, DoRebind, DoJudge,
      DoPersist, DoCommit, DoThrow, DoOtherWriter, DoAllocate, DoExit;
  }

  // ------------------------------------------------------------------ a fresh Run fills a slot

  ghost predicate Open(s: State) {
    s.disk.phase.New? && s.disk.qualificationResult == ""
  }

  function Fresh(k: Context, index: nat, run: string): ExecutionRef {
    ExecutionRef(BindingOf(k.episode, index).environment, run, "")
  }

  function Placed(k: Context, index: nat, run: string): ExecutionRef {
    ExecutionRef(BindingOf(k.episode, index).environment, run, "a")
  }

  /** The Run is created and bound. */
  lemma Creates(k: Context, base: State, s: State, c: Caller, done: seq<ExecutionRef>, run: string) returns (s': State)
    requires Leads(k, base, s) && Inv(k, s) && Open(s) && At(s, c) == Checking(done)
    requires |s.disk.qualifications| == |done| && run !in s.runs && run != ""
    ensures Leads(k, base, s') && Inv(k, s')
    ensures At(s', c) == Waiting(done, Fresh(k, |done|, run))
    ensures s'.runs == s.runs[run := Run(|done|, BindingOf(k.episode, |done|).environment, "", None, false, "")]
    ensures s'.disk == s.disk.(qualifications := s.disk.qualifications + [Fresh(k, |done|, run)])
  {
    hide Leads, Inv, Apply;
    StepIs(k, s, Check(c));
    Then(k, base, s, Check(c));
    var s1 := DoCheck(s, c);
    StepIs(k, s1, CreateRun(c, run, true, true));
    Then(k, base, s1, CreateRun(c, run, true, true));
    var s2 := DoCreateRun(k, s1, c, run, true, true);
    StepIs(k, s2, Bind(c));
    Then(k, base, s2, Bind(c));
    s' := DoBind(k, s2, c);
  }

  /** It gets an allocation, is bound again and released. */
  lemma Releases(k: Context, base: State, s: State, c: Caller, done: seq<ExecutionRef>, run: string)
    returns (s': State)
    requires Leads(k, base, s) && Inv(k, s) && Open(s) && At(s, c) == Waiting(done, Fresh(k, |done|, run))
    requires |s.disk.qualifications| == |done| + 1 && s.disk.qualifications[|done|] == Fresh(k, |done|, run)
    requires run in s.runs
    requires s.runs[run] == Run(|done|, BindingOf(k.episode, |done|).environment, "", None, false, "")
    ensures Leads(k, base, s') && Inv(k, s')
    ensures At(s', c) == Following(done, Placed(k, |done|, run))
    ensures s'.runs == s.runs[run := Run(|done|, BindingOf(k.episode, |done|).environment, "a", None, true, "")]
    ensures s'.disk == s.disk.(qualifications := s.disk.qualifications[|done| := Placed(k, |done|, run)])
  {
    hide Leads, Inv, Apply;
    StepIs(k, s, Allocate(run, "a"));
    Then(k, base, s, Allocate(run, "a"));
    var s1 := DoAllocate(s, run, "a");
    StepIs(k, s1, WaitRunning(c));
    Then(k, base, s1, WaitRunning(c));
    var s2 := DoWaitRunning(s1, c);
    assert At(s2, c) == Allocated(done, Placed(k, |done|, run));
    StepIs(k, s2, Bind(c));
    Then(k, base, s2, Bind(c));
    var s3 := DoBind(k, s2, c);
    assert At(s3, c) == Preparing(done, Placed(k, |done|, run));
    StepIs(k, s3, WriteMarker(c, true, true));
    Then(k, base, s3, WriteMarker(c, true, true));
    s' := DoWriteMarker(s3, c, true, true);
  }

  /** The Run of the slot has succeeded with acceptable checks. */
  ghost predicate Succeeded(k: Context, s: State, index: nat) {
    && index < |s.disk.qualifications|
    && s.disk.qualifications[index].run in s.runs
    && s.runs[s.disk.qualifications[index].run].exit == Some(0)
    && k.accepts(RoleOf(index), s.runs[s.disk.qualifications[index].run].checks)
  }

  /** Where a qualifier goes that has accepted a slot. */
  function Accepting(done: seq<ExecutionRef>, x: ExecutionRef): Activity {
    if |done| == 0 then Checking([x]) else Persisting(done + [x])
  }

  /** A terminal Run that the qualifier has bound is accepted. */
  lemma Judges(k: Context, base: State, s: State, c: Caller, done: seq<ExecutionRef>, x: ExecutionRef)
    returns (s': State)
    requires Leads(k, base, s) && Inv(k, s) && At(s, c) == Judging(done, x) && x.run in s.runs
    requires s.runs[x.run].exit == Some(0) && k.accepts(RoleOf(|done|), s.runs[x.run].checks)
    ensures Leads(k, base, s') && Inv(k, s') && At(s', c) == Accepting(done, x)
    ensures s'.runs == s.runs && s'.disk == s.disk
  {
    hide Leads, Inv, Apply, Trace;
    StepIs(k, s, Judge(c));
    Then(k, base, s, Judge(c));
    s' := DoJudge(k, s, c);
  }

  /** The released Run succeeds. */
  lemma Ends(k: Context, base: State, s: State, c: Caller, done: seq<ExecutionRef>, x: ExecutionRef, checks: string)
    returns (s': State)
    requires Leads(k, base, s) && Inv(k, s) && At(s, c) == Following(done, x) && x.run in s.runs
    requires s.runs[x.run].exit.None? && s.runs[x.run].released
    ensures Leads(k, base, s') && Inv(k, s') && At(s', c) == Judging(done, x)
    ensures s'.runs == s.runs[x.run := s.runs[x.run].(exit := Some(0), checks := checks)] && s'.disk == s.disk
  {
    hide Leads, Inv, Apply, Trace;
    StepIs(k, s, Exit(x.run, 0, checks));
    Then(k, base, s, Exit(x.run, 0, checks));
    var s1 := DoExit(s, x.run, 0, checks);
    StepIs(k, s1, WaitRun(c));
    Then(k, base, s1, WaitRun(c));
    s' := DoWaitRun(s1, c);
  }

  /** A slot that nobody has bound is filled by a Run of the qualifier's own. */
  lemma FillsSlot(k: Context, base: State, s: State, c: Caller, done: seq<ExecutionRef>, run: string, checks: string)
    returns (s': State)
    requires Leads(k, base, s) && Inv(k, s) && Open(s) && At(s, c) == Checking(done)
    requires |s.disk.qualifications| == |done| && run !in s.runs && run != ""
    requires k.accepts(RoleOf(|done|), checks)
    ensures Leads(k, base, s') && Inv(k, s') && At(s', c) == Accepting(done, Placed(k, |done|, run))
    ensures s'.runs == s.runs[run := Run(|done|, BindingOf(k.episode, |done|).environment, "a", Some(0), true, checks)]
    ensures s'.disk == s.disk.(qualifications := s.disk.qualifications + [Placed(k, |done|, run)])
  {
    hide Leads, Inv, Apply, Trace;
    var s1 := Creates(k, base, s, c, done, run);
    var s2 := Releases(k, base, s1, c, done, run);
    var s3 := Ends(k, base, s2, c, done, Placed(k, |done|, run), checks);
    s' := Judges(k, base, s3, c, done, Placed(k, |done|, run));
  }

  /** The Run that the slot names is read back. */
  lemma Recovers(k: Context, base: State, s: State, c: Caller, done: seq<ExecutionRef>) returns (s': State)
    requires Leads(k, base, s) && Inv(k, s) && At(s, c) == Checking(done) && |done| < |s.disk.qualifications|
    requires s.disk.qualifications[|done|].run in s.runs
    requires
      var x := s.disk.qualifications[|done|];
      var run := s.runs[x.run];
      run.exit.Some? && x == ExecutionRef(run.environment, x.run, run.allocation)
    ensures Leads(k, base, s') && Inv(k, s') && At(s', c) == Rebinding(done, s.disk.qualifications[|done|])
    ensures s'.runs == s.runs && s'.disk == s.disk
  {
    hide Leads, Inv, Apply, Trace;
    StepIs(k, s, Check(c));
    Then(k, base, s, Check(c));
    var s1 := DoCheck(s, c);
    StepIs(k, s1, Recover(c));
    Then(k, base, s1, Recover(c));
    s' := DoRecover(s1, c);
  }

  /** A slot whose Run has succeeded is taken over, without a new Run. */
  lemma TakesSlot(k: Context, base: State, s: State, c: Caller, done: seq<ExecutionRef>) returns (s': State)
    requires Leads(k, base, s) && Inv(k, s) && Open(s) && At(s, c) == Checking(done)
    requires Succeeded(k, s, |done|)
    ensures Leads(k, base, s') && Inv(k, s')
    ensures s'.runs == s.runs && s'.disk == s.disk
    ensures At(s', c) == Accepting(done, s.disk.qualifications[|done|])
  {
    var x := s.disk.qualifications[|done|];
    SlotIsWhole(k, s, |done|);
    hide Leads, Inv, Apply, Trace;
    var s1 := Recovers(k, base, s, c, done);
    StepIs(k, s1, Rebind(c));
    Then(k, base, s1, Rebind(c));
    var s2 := DoRebind(k, s1, c);
    assert s2.disk.qualifications == s.disk.qualifications;
    s' := Judges(k, base, s2, c, done, x);
  }

  /** A Run that succeeded was released, so its slot names its allocation. */
  lemma SlotIsWhole(k: Context, s: State, index: nat)
    requires Inv(k, s) && Succeeded(k, s, index)
    ensures index < 2
    ensures
      var x := s.disk.qualifications[index];
      && x == ExecutionRef(s.runs[x.run].environment, x.run, s.runs[x.run].allocation)
      && x.environment == BindingOf(k.episode, index).environment
  {
    assert Names(s, index, s.disk.qualifications[index]);
    assert RunInv(k, s, s.disk.qualifications[index].run);
  }

  /** Both slots are accepted: the evidence is written and committed. */
  lemma Commits(k: Context, base: State, s: State, c: Caller) returns (s': State)
    requires Leads(k, base, s) && Inv(k, s) && Open(s) && At(s, c).Persisting?
    ensures Leads(k, base, s') && Inv(k, s')
    ensures s'.disk.qualificationResult != "" && s'.runs == s.runs
    ensures s'.disk.qualifications == s.disk.qualifications
  {
    assert CallerInv(k, s, c);
    DoneIsSlots(k, s, At(s, c).done);
    PersistKeeps(k, s, c);
    hide Leads, Inv, Apply, CallerInv, ResultOf, DoneInv;
    StepIs(k, s, Persist(c));
    Then(k, base, s, Persist(c));
    var s1 := DoPersist(k, s, c);
    assert At(s1, c) == Committing(At(s, c).done) && s1.disk == s.disk && s1.runs == s.runs;
    StepIs(k, s1, Commit(c));
    Then(k, base, s1, Commit(c));
    s' := DoCommit(k, s1, c);
  }

  /** The Run has been released and may still succeed, or has done so with acceptable checks. */
  ghost predicate MaySucceed(k: Context, s: State, index: nat)
    requires index < |s.disk.qualifications|
  {
    var run := s.disk.qualifications[index].run;
    && run in s.runs && s.runs[run].released
    && (s.runs[run].exit.None?
        || (s.runs[run].exit == Some(0) && k.accepts(RoleOf(index), s.runs[run].checks)))
  }

  /** Success of one Run takes nothing from the other slots. */
  lemma ExitSucceeds(k: Context, s: State, index: nat, checks: string)
    requires Inv(k, s) && index < |s.disk.qualifications| && MaySucceed(k, s, index)
    requires k.accepts(RoleOf(index), checks)
    ensures
      var s' := DoExit(s, s.disk.qualifications[index].run, 0, checks);
      && Succeeded(k, s', index) && s'.runs.Keys == s.runs.Keys && s' == s.(runs := s'.runs)
      && (forall i: nat | i < |s.disk.qualifications| && MaySucceed(k, s, i) :: MaySucceed(k, s', i))
      && (forall i: nat | i < |s.disk.qualifications| && Succeeded(k, s, i) :: Succeeded(k, s', i))
  {
    SlotsApart(k, s);
    hide Inv;
  }

  /** A released Run that is still active succeeds. */
  lemma EndsSlot(k: Context, base: State, s: State, index: nat, checks: string) returns (s': State)
    requires Leads(k, base, s) && Inv(k, s) && index < |s.disk.qualifications| && MaySucceed(k, s, index)
    requires k.accepts(RoleOf(index), checks)
    ensures Leads(k, base, s') && Inv(k, s') && Succeeded(k, s', index)
    ensures s'.disk == s.disk && s'.callers == s.callers && s'.runs.Keys == s.runs.Keys
    ensures forall i: nat | i < |s.disk.qualifications| && MaySucceed(k, s, i) :: MaySucceed(k, s', i)
    ensures forall i: nat | i < |s.disk.qualifications| && Succeeded(k, s, i) :: Succeeded(k, s', i)
  {
    var run := s.disk.qualifications[index].run;
    ExitSucceeds(k, s, index, checks);
    StepIs(k, s, Exit(run, 0, checks));
    hide Leads, Apply, Trace, Inv, DoExit;
    Then(k, base, s, Exit(run, 0, checks));
    s' := DoExit(s, run, 0, checks);
  }

  /** Every slot that is taken has a Run that succeeded. */
  ghost predicate AllSucceeded(k: Context, s: State) {
    forall i | 0 <= i < |s.disk.qualifications| :: Succeeded(k, s, i)
  }

  lemma EndsAll(k: Context, base: State, s: State, c0: string, c1: string) returns (s': State)
    requires Leads(k, base, s) && Inv(k, s)
    requires forall i: nat | i < |s.disk.qualifications| :: MaySucceed(k, s, i)
    requires k.accepts(Inference, c0) && k.accepts(Verification, c1)
    ensures Leads(k, base, s') && Inv(k, s') && AllSucceeded(k, s')
    ensures s'.disk == s.disk && s'.callers == s.callers && s'.runs.Keys == s.runs.Keys
  {
    AtMostTwo(k, s);
    assert RoleOf(0) == Inference && RoleOf(1) == Verification;
    hide *;
    s' := s;
    if |s.disk.qualifications| > 0 { s' := EndsSlot(k, base, s', 0, c0); }
    if |s.disk.qualifications| > 1 { s' := EndsSlot(k, base, s', 1, c1); }
    AllOf(k, s');
  }

  lemma AllOf(k: Context, s: State)
    requires |s.disk.qualifications| <= 2
    requires forall i | 0 <= i < |s.disk.qualifications| :: i == 0 || i == 1 ==> Succeeded(k, s, i)
    ensures AllSucceeded(k, s)
  {
  }

  lemma AtMostTwo(k: Context, s: State)
    requires Inv(k, s)
    ensures |s.disk.qualifications| <= 2
  {
  }

  lemma SameSucceed(k: Context, s: State, s': State)
    requires AllSucceeded(k, s) && s'.runs == s.runs && s'.disk == s.disk
    ensures AllSucceeded(k, s')
  {
    forall i | 0 <= i < |s'.disk.qualifications| ensures Succeeded(k, s', i) { assert Succeeded(k, s, i); }
  }

  lemma NewSucceeds(k: Context, s: State, s': State, run: string, facts: Run, x: ExecutionRef)
    requires AllSucceeded(k, s) && run !in s.runs && x.run == run
    requires s'.runs == s.runs[run := facts] && s'.disk.qualifications == s.disk.qualifications + [x]
    requires facts.exit == Some(0) && k.accepts(RoleOf(|s.disk.qualifications|), facts.checks)
    ensures AllSucceeded(k, s')
  {
    forall i | 0 <= i < |s'.disk.qualifications| ensures Succeeded(k, s', i) {
      assert i < |s.disk.qualifications| ==> Succeeded(k, s, i);
    }
  }

  /** The next slot is accepted: that of the record, or a new one. */
  lemma AcceptsSlot(k: Context, base: State, s: State, c: Caller, done: seq<ExecutionRef>, run: string, checks: string)
    returns (s': State)
    requires Leads(k, base, s) && Inv(k, s) && Open(s) && At(s, c) == Checking(done) && AllSucceeded(k, s)
    requires run !in s.runs && run != "" && k.accepts(RoleOf(|done|), checks)
    ensures Leads(k, base, s') && Inv(k, s') && Open(s') && AllSucceeded(k, s')
    ensures |done| < |s'.disk.qualifications|
    ensures At(s', c) == Accepting(done, s'.disk.qualifications[|done|])
    ensures |done| < |s.disk.qualifications| ==> s'.disk == s.disk && s'.runs == s.runs
    ensures |done| >= |s.disk.qualifications| ==>
              && s'.disk.qualifications == s.disk.qualifications + [s'.disk.qualifications[|done|]]
              && s'.disk.qualifications[|done|].run == run
              && s'.runs.Keys == s.runs.Keys + {run}
  {
    DoneFits(k, s, c, done);
    if |done| < |s.disk.qualifications| {
      assert Succeeded(k, s, |done|);
      hide Leads, Inv, Trace, Succeeded;
      s' := TakesSlot(k, base, s, c, done);
      SameSucceed(k, s, s');
    } else {
      hide Leads, Inv, Trace, AllSucceeded, Succeeded;
      s' := FillsSlot(k, base, s, c, done, run, checks);
      NewSucceeds(k, s, s', run, s'.runs[run], Placed(k, |done|, run));
    }
  }

  lemma DoneFits(k: Context, s: State, c: Caller, done: seq<ExecutionRef>)
    requires Inv(k, s) && At(s, c) == Checking(done)
    ensures |done| <= |s.disk.qualifications|
  {
    assert CallerInv(k, s, c);
    if |done| > 0 { assert Accepted(k, s, |done| - 1, done[|done| - 1]); }
  }

  /**
   * Whatever happened before, a new qualifier completes the qualification if every taken slot has a released
   * Run that may still succeed or has done so acceptably. The Runs of these slots are used again, and one Run
   * is created for each free slot; the evidence that it commits names all of them and loads.
   */
  lemma QualifierCompletes(k: Context, s: State, c: Caller, r0: string, r1: string, c0: string, c1: string)
    returns (s': State)
    requires Reachable(k, s) && Open(s) && At(s, c).Out?
    requires forall i: nat | i < |s.disk.qualifications| :: MaySucceed(k, s, i)
    requires r0 != r1 && r0 != "" && r1 != "" && r0 !in s.runs && r1 !in s.runs
    requires k.accepts(Inference, c0) && k.accepts(Verification, c1)
    ensures Leads(k, s, s') && s'.disk.qualificationResult != "" && s'.file.Some?
    ensures Load(k, s'.disk, s'.file) == Ok(s'.file.value) && |s'.file.value.targets| == 2
    ensures
      var slots := s.disk.qualifications;
      && s'.file.value.targets[0].run == (if |slots| > 0 then slots[0].run else r0)
      && s'.file.value.targets[1].run == (if |slots| > 1 then slots[1].run else r1)
      && s'.runs.Keys == s.runs.Keys + (if |slots| > 0 then {} else {r0}) + (if |slots| > 1 then {} else {r1})
  {
    ReachableInv(k, s);
    assert Trace(k, s, []) == s;
    AtMostTwo(k, s);
    assert RoleOf(0) == Inference && RoleOf(1) == Verification;
    var s1 := Begins(k, s, c, c0, c1);
    hide *;
    s' := Fills(k, s, s1, c, r0, r1, c0, c1);
  }

  /** Both slots are accepted one after the other. */
  lemma Fills(k: Context, base: State, s: State, c: Caller, r0: string, r1: string, c0: string, c1: string)
    returns (s': State)
    requires Leads(k, base, s) && Inv(k, s) && Open(s) && AllSucceeded(k, s) && At(s, c) == Checking([])
    requires r0 != r1 && r0 != "" && r1 != "" && r0 !in s.runs && r1 !in s.runs
    requires k.accepts(RoleOf(0), c0) && k.accepts(RoleOf(1), c1) && |s.disk.qualifications| <= 2
    ensures Leads(k, base, s') && s'.disk.qualificationResult != "" && s'.file.Some?
    ensures Load(k, s'.disk, s'.file) == Ok(s'.file.value) && |s'.file.value.targets| == 2
    ensures
      var slots := s.disk.qualifications;
      && s'.file.value.targets[0].run == (if |slots| > 0 then slots[0].run else r0)
      && s'.file.value.targets[1].run == (if |slots| > 1 then slots[1].run else r1)
      && s'.runs.Keys == s.runs.Keys + (if |slots| > 0 then {} else {r0}) + (if |slots| > 1 then {} else {r1})
  {
    AcceptingIs();
    hide *;
    var s2 := AcceptsSlot(k, base, s, c, [], r0, c0);
    var x := s2.disk.qualifications[0];
    var s3 := AcceptsSlot(k, base, s2, c, [x], r1, c1);
    s' := Commits(k, base, s3, c);
    InvLoads(k, s');
  }

  lemma AcceptingIs()
    ensures forall x :: Accepting([], x) == Checking([x])
    ensures forall x, y :: Accepting([x], y).Persisting?
  {
  }

  /** The active Runs end, and the qualifier begins. */
  lemma Begins(k: Context, base: State, c: Caller, c0: string, c1: string) returns (s': State)
    requires Leads(k, base, base) && Inv(k, base) && Open(base) && At(base, c).Out?
    requires forall i: nat | i < |base.disk.qualifications| :: MaySucceed(k, base, i)
    requires k.accepts(Inference, c0) && k.accepts(Verification, c1)
    ensures Leads(k, base, s') && Inv(k, s') && Open(s') && AllSucceeded(k, s')
    ensures At(s', c) == Checking([]) && s'.disk == base.disk && s'.runs.Keys == base.runs.Keys
  {
    hide Leads, Inv, Apply, Trace, AllSucceeded, MaySucceed;
    var s := EndsAll(k, base, base, c0, c1);
    StepIs(k, s, Begin(c));
    Then(k, base, s, Begin(c));
    s' := DoBegin(s, c);
    SameSucceed(k, s, s');
  }

  /** The slots name different Runs. */
  lemma SlotsApart(k: Context, s: State)
    requires Inv(k, s)
    ensures forall i, j | 0 <= i < j < |s.disk.qualifications| ::
              s.disk.qualifications[i].run != s.disk.qualifications[j].run
  {
    forall i, j | 0 <= i < j < |s.disk.qualifications|
      ensures s.disk.qualifications[i].run != s.disk.qualifications[j].run
    {
      assert Names(s, i, s.disk.qualifications[i]) && Names(s, j, s.disk.qualifications[j]);
    }
  }

  // ------------------------------------------------------------------ what can never be evidence

  /** The caller may still release this Run. */
  predicate Works(a: Activity, run: string) {
    (a.Created? || a.Waiting? || a.Allocated? || a.Preparing?) && a.x.run == run
  }

  /** The Run was not released, and nobody is left who could do it. */
  ghost predicate Abandoned(s: State, run: string) {
    && run in s.runs && !s.runs[run].released && s.runs[run].exit != Some(0)
    && forall c :: !Works(At(s, c), run)
  }

  ghost predicate EndedBadly(k: Context, s: State, index: nat, run: string) {
    && run in s.runs && s.runs[run].exit.Some?
    && !(s.runs[run].exit == Some(0) && k.accepts(RoleOf(index), s.runs[run].checks))
  }

  ghost predicate Doomed(k: Context, s: State, index: nat) {
    && index < |s.disk.qualifications|
    && (Abandoned(s, s.disk.qualifications[index].run) || EndedBadly(k, s, index, s.disk.qualifications[index].run))
  }

  lemma AbandonedMoves(s: State, run: string, c: Caller, a: Activity)
    requires Abandoned(s, run) && !Works(a, run)
    ensures Abandoned(Move(s, c, a), run)
  {
    forall c' ensures !Works(At(Move(s, c, a), c'), run) { assert !Works(At(s, c'), run); }
  }

  lemma AbandonedRuns(s: State, run: string, other: string, facts: Run)
    requires Abandoned(s, run)
    requires other == run ==> !facts.released && facts.exit != Some(0)
    ensures Abandoned(s.(runs := s.runs[other := facts]), run)
  {
    var s' := s.(runs := s.runs[other := facts]);
    forall c ensures !Works(At(s', c), run) { assert !Works(At(s, c), run); }
  }

  lemma AbandonedDisk(s: State, run: string, disk: EpisodeRecord, file: Option<QualificationResult>)
    requires Abandoned(s, run)
    ensures Abandoned(s.(disk := disk, file := file), run)
  {
    var s' := s.(disk := disk, file := file);
    forall c ensures !Works(At(s', c), run) { assert !Works(At(s, c), run); }
  }

  /** An abandoned Run stays so: no qualifier takes up the release of a Run that it did not create. */
  lemma AbandonedStays(k: Context, s: State, run: string, step: Step)
    requires Abandoned(s, run)
    ensures Abandoned(Apply(k, s, step), run)
  {
    StepIs(k, s, step);
    hide Apply, Trace, ResultOf, Records.BindQualification, Records.CommitQualification, Records.Section;
    match step
    case CreateRun(c, other, made, answered) => AbandonedCreates(k, s, run, c, other, made, answered);
    case WriteMarker(c, landed, answered) =>
      assert !Works(At(s, c), run);
      AbandonedMarks(s, run, c, landed, answered);
    case Allocate(other, allocation) =>
      if other in s.runs { AbandonedRuns(s, run, other, s.runs[other].(allocation := allocation)); }
    case Exit(other, status, checks) =>
      if other in s.runs { AbandonedExits(s, run, other, status, checks); }
    case OtherWriter(w) =>
      AbandonedDisk(s, run, DoOtherWriter(k, s, w).disk, s.file);
      assert DoOtherWriter(k, s, w) == s.(disk := DoOtherWriter(k, s, w).disk, file := s.file);
    case _ => AbandonedCaller(k, s, run, step);
  }

  lemma AbandonedCreates(k: Context, s: State, run: string, c: Caller, other: string, made: bool, answered: bool)
    requires Abandoned(s, run)
    ensures Abandoned(DoCreateRun(k, s, c, other, made, answered), run)
  {
    var a, s' := At(s, c), DoCreateRun(k, s, c, other, made, answered);
    if a.Creating? && other != "" && other !in s.runs && (answered ==> made) {
      var environment := BindingOf(k.episode, |a.done|).environment;
      var facts := Run(|a.done|, environment, "", None, false, "");
      AbandonedRuns(s, run, other, facts);
      AbandonedMoves(if made then s.(runs := s.runs[other := facts]) else s, run, c, At(s', c));
    }
  }

  lemma AbandonedMarks(s: State, run: string, c: Caller, landed: bool, answered: bool)
    requires Abandoned(s, run) && !Works(At(s, c), run)
    ensures Abandoned(DoWriteMarker(s, c, landed, answered), run)
  {
    var a, s' := At(s, c), DoWriteMarker(s, c, landed, answered);
    if a.Preparing? && a.x.run in s.runs && (answered ==> landed) {
      var facts := s.runs[a.x.run].(released := true);
      AbandonedRuns(s, run, a.x.run, facts);
      AbandonedMoves(if landed then s.(runs := s.runs[a.x.run := facts]) else s, run, c, At(s', c));
    }
  }

  lemma AbandonedExits(s: State, run: string, other: string, status: int, checks: string)
    requires Abandoned(s, run) && other in s.runs
    ensures Abandoned(DoExit(s, other, status, checks), run)
  {
    if s.runs[other].exit.None? && (status == 0 ==> s.runs[other].released) {
      AbandonedRuns(s, run, other, s.runs[other].(exit := Some(status), checks := checks));
    }
  }

  /** Steps of one caller that leave the Runs alone. */
  lemma AbandonedCaller(k: Context, s: State, run: string, step: Step)
    requires Abandoned(s, run)
    requires !step.CreateRun? && !step.WriteMarker? && !step.Allocate? && !step.Exit? && !step.OtherWriter?
    ensures Abandoned(Apply(k, s, step), run)
  {
    var c, s' := step.c, Apply(k, s, step);
    assert !Works(At(s, c), run);
    CallerOnly(k, s, step);
    hide Apply, Trace;
    if s' != s {
      AbandonedDisk(s, run, s'.disk, s'.file);
      AbandonedMoves(s.(disk := s'.disk, file := s'.file), run, c, At(s', c));
    }
  }

  lemma CallerOnly(k: Context, s: State, step: Step)
    requires !step.CreateRun? && !step.WriteMarker? && !step.Allocate? && !step.Exit? && !step.OtherWriter?
    ensures
      var s' := Apply(k, s, step);
      && (s' == s || s' == Move(s.(disk := s'.disk, file := s'.file), step.c, At(s', step.c)))
      && forall run :: Works(At(s', step.c), run) ==> Works(At(s, step.c), run)
  {
    hide Trace, ResultOf, Records.BindQualification, Records.CommitQualification;
  }

  ghost predicate RunsGrow(s: State, s': State) {
    forall run | run in s.runs :: run in s'.runs && RunGrows(s.runs[run], s'.runs[run])
  }

  /** What is known of a Run, and which Run a slot names, is never taken back. */
  lemma StepGrows(k: Context, s: State, step: Step)
    requires Inv(k, s)
    ensures RunsGrow(s, Apply(k, s, step))
    ensures SlotsGrow(s.disk.qualifications, Apply(k, s, step).disk.qualifications)
  {
    StepIs(k, s, step);
    RunsOnlyGrow(k, s, step);
    hide Apply, Trace, RunsGrow, Inv;
    match step
    case Bind(c) => BindSlotsGrow(k, s, c);
    case Rebind(c) => RebindSlotsGrow(k, s, c);
    case Commit(c) => CommitSlotsGrow(k, s, c);
    case OtherWriter(w) => if IsOtherWriter(w) { OthersLeaveSlots(k.episode, s.disk, w); }
    case _ => QuietStep(k, s, step);
  }

  lemma BindSlotsGrow(k: Context, s: State, c: Caller)
    requires Inv(k, s)
    ensures SlotsGrow(s.disk.qualifications, DoBind(k, s, c).disk.qualifications)
  {
    var a := At(s, c);
    assert CallerInv(k, s, c) && SlotsInv(k, s);
    hide Inv, Trace, ResultOf, SlotsInv;
    if a.Created? || a.Allocated? {
      var o := Records.BindQualification(k.episode, s.disk, |a.done|, BindingOf(k.episode, |a.done|).environment, a.x);
      if o.raised.None? { BoundGrows(k, s, |a.done|, a.x); }
    }
  }

  lemma RebindSlotsGrow(k: Context, s: State, c: Caller)
    requires Inv(k, s)
    ensures SlotsGrow(s.disk.qualifications, DoRebind(k, s, c).disk.qualifications)
  {
    var a := At(s, c);
    assert CallerInv(k, s, c) && SlotsInv(k, s);
    hide Inv, Trace, ResultOf, SlotsInv;
    if a.Rebinding? {
      var o := Records.BindQualification(k.episode, s.disk, |a.done|, BindingOf(k.episode, |a.done|).environment, a.x);
      if o.raised.None? { BoundGrows(k, s, |a.done|, a.x); }
    }
  }

  lemma CommitSlotsGrow(k: Context, s: State, c: Caller)
    requires Inv(k, s)
    ensures SlotsGrow(s.disk.qualifications, DoCommit(k, s, c).disk.qualifications)
  {
    var a := At(s, c);
    assert CallerInv(k, s, c);
    if a.Committing? { DoneIsSlots(k, s, a.done); }
    hide Inv, Trace, ResultOf, CallerInv;
  }

  lemma RunsOnlyGrow(k: Context, s: State, step: Step)
    ensures RunsGrow(s, Apply(k, s, step))
  {
    StepIs(k, s, step);
    if !step.CreateRun? && !step.WriteMarker? && !step.Allocate? && !step.Exit? && !step.OtherWriter? {
      CallerOnly(k, s, step);
    }
    hide Apply, Trace, ResultOf, Records.Section;
  }

  lemma DoomedStays(k: Context, s: State, index: nat, step: Step)
    requires Inv(k, s) && Doomed(k, s, index)
    ensures Doomed(k, Apply(k, s, step), index)
  {
    var run := s.disk.qualifications[index].run;
    StepGrows(k, s, step);
    if Abandoned(s, run) { AbandonedStays(k, s, run, step); }
    hide Apply, Trace, Inv, Abandoned;
  }

  lemma {:induction false} DoomedForever(k: Context, s: State, index: nat, steps: seq<Step>)
    requires Inv(k, s) && Doomed(k, s, index)
    ensures Inv(k, Trace(k, s, steps)) && Doomed(k, Trace(k, s, steps), index)
    decreases |steps|
  {
    hide Inv, Doomed, Apply;
    if |steps| > 0 {
      DoomedStays(k, s, index, steps[0]);
      StepKeeps(k, s, steps[0]);
      DoomedForever(k, Apply(k, s, steps[0]), index, steps[1..]);
    }
  }

  lemma DoomedIsOpen(k: Context, s: State, index: nat)
    requires Inv(k, s) && Doomed(k, s, index)
    ensures s.disk.qualificationResult == ""
  {
    if s.disk.qualificationResult != "" { CommittedSucceeded(k, s, index); }
  }

  lemma CommittedSucceeded(k: Context, s: State, index: nat)
    requires Inv(k, s) && s.disk.qualificationResult != "" && index < |s.disk.qualifications|
    ensures Succeeded(k, s, index)
  {
    assert Accepted(k, s, index, s.disk.qualifications[index]);
  }

  /**
   * Once no qualifier is at work, whether an open record can still be qualified is decided by its slots: it
   * can, by a new qualifier alone, exactly if each of them names a released Run that may still succeed or has
   * done so acceptably. Otherwise no qualifiers, crashes or other writers ever lead to evidence.
   */
  lemma QualifiableIff(k: Context, s: State, r0: string, r1: string, c0: string, c1: string)
    requires Reachable(k, s) && Open(s) && forall c :: At(s, c).Out?
    requires r0 != r1 && r0 != "" && r1 != "" && r0 !in s.runs && r1 !in s.runs
    requires k.accepts(Inference, c0) && k.accepts(Verification, c1)
    ensures (forall i: nat | i < |s.disk.qualifications| :: MaySucceed(k, s, i)) ==>
              exists s' :: Leads(k, s, s') && s'.disk.qualificationResult != ""
    ensures (exists i: nat :: i < |s.disk.qualifications| && !MaySucceed(k, s, i)) ==>
              forall steps: seq<Step> :: Trace(k, s, steps).disk.qualificationResult == ""
  {
    ReachableInv(k, s);
    if i: nat :| i < |s.disk.qualifications| && !MaySucceed(k, s, i) {
      StuckIsDoomed(k, s, i);
      hide *;
      forall steps: seq<Step> ensures Trace(k, s, steps).disk.qualificationResult == "" {
        DoomedForever(k, s, i, steps);
        DoomedIsOpen(k, Trace(k, s, steps), i);
      }
    } else {
      hide Leads, Inv, Trace, MaySucceed;
      var s' := QualifierCompletes(k, s, 0, r0, r1, c0, c1);
    }
  }

  lemma StuckIsDoomed(k: Context, s: State, index: nat)
    requires Inv(k, s) && (forall c :: At(s, c).Out?)
    requires index < |s.disk.qualifications| && !MaySucceed(k, s, index)
    ensures Doomed(k, s, index)
  {
    var run := s.disk.qualifications[index].run;
    assert Names(s, index, s.disk.qualifications[index]);
    assert RunInv(k, s, run);
    forall c ensures !Works(At(s, c), run) { assert At(s, c).Out?; }
    hide Inv;
  }

  // ------------------------------------------------------------------ closed records

  ghost predicate Closed(s: State) {
    !Open(s) && forall c :: At(s, c).Out?
  }

  lemma ClosedStays(k: Context, s: State, step: Step)
    requires Closed(s) && !step.OtherWriter?
    ensures Closed(Apply(k, s, step)) && Apply(k, s, step).disk == s.disk && Apply(k, s, step).runs.Keys == s.runs.Keys
  {
    StepIs(k, s, step);
    hide Apply, Trace, ResultOf, Records.BindQualification, Records.CommitQualification;
    if step.Allocate? || step.Exit? {
      forall c ensures At(Apply(k, s, step), c).Out? { assert At(s, c).Out?; }
    } else {
      assert At(s, step.c).Out?;
      forall c ensures At(Apply(k, s, step), c).Out? { assert At(s, c).Out?; }
    }
  }

  /** For an episode that has started, or is qualified, no qualifier ever creates a Run or touches the record. */
  lemma {:induction false} ClosedIsLeftAlone(k: Context, s: State, steps: seq<Step>)
    requires Closed(s) && forall step | step in steps :: !step.OtherWriter?
    ensures Trace(k, s, steps).disk == s.disk && Trace(k, s, steps).runs.Keys == s.runs.Keys
    decreases |steps|
  {
    hide Apply, Closed;
    if |steps| > 0 {
      ClosedStays(k, s, steps[0]);
      ClosedIsLeftAlone(k, Apply(k, s, steps[0]), steps[1..]);
    }
  }
}
