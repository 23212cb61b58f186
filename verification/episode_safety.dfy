/** What holds in every reachable state of the episode protocol. */
module EpisodeSafety {
  import opened Models
  import opened EpisodeProtocol
  import Records = EpisodeRecords

  // ------------------------------------------------------------------ the invariant

  /** x names a Run of the given stage, with an allocation that is missing or right. */
  ghost predicate Names(s: State, stage: Stage, x: ExecutionRef) {
    && x.run in s.runs
    && s.runs[x.run].stage == stage
    && s.runs[x.run].environment == x.environment
    && (x.allocation == "" || x.allocation == s.runs[x.run].allocation)
  }

  ghost predicate StageInv(s: State, stage: Stage) {
    && var permit := s.PermitOf(stage);
    && permit.calls <= 1
    && (permit.owner.None? ==> permit.calls == 0)
    && (s.disk.Bound(stage).Some? ==> Names(s, stage, s.disk.Bound(stage).value))
    && (s.disk.phase.Cancelled? && s.disk.Bound(stage).Some? ==> Stopped(s.runs[s.disk.Bound(stage).value.run]))
  }

  /** The inference Run behind a committed candidate. */
  ghost predicate InferenceSucceeded(s: State) {
    && s.disk.inference.Some?
    && s.disk.inference.value.run in s.runs
    && s.runs[s.disk.inference.value.run].exit == Some(0)
    && s.runs[s.disk.inference.value.run].released
  }

  ghost predicate RunInv(e: Episode, s: State, run: string)
    requires run in s.runs
  {
    var facts := s.runs[run];
    && facts.environment == e.EnvironmentOf(facts.stage)
    && s.PermitOf(facts.stage).calls == 1
    && (facts.exit == Some(0) ==> facts.released)
    && (facts.released ==>
          facts.allocation != "" && ExecutionRef(facts.environment, run, facts.allocation) in s.persisted)
  }

  /** A persisted execution is still the one that the record names for its stage. */
  ghost predicate PersistedInv(s: State, x: ExecutionRef) {
    && x.run in s.runs
    && Names(s, s.runs[x.run].stage, x)
    && s.disk.Bound(s.runs[x.run].stage).Some?
    && s.disk.Bound(s.runs[x.run].stage).value.run == x.run
  }

  ghost predicate CallerInv(e: Episode, s: State, c: Caller) {
    match At(s, c)
    case Planning(stage, _) => s.PermitOf(stage) == Permit(Some(c), 0)
    case Created(stage, x, _) => Names(s, stage, x)
    case Waiting(stage, x, _) => Names(s, stage, x)
    case Allocated(stage, x, _) => Names(s, stage, x) && x.allocation != ""
    case Preparing(stage, x, _) => Names(s, stage, x) && x.allocation != "" && x in s.persisted
    case Observing(stage, x, _) => Names(s, stage, x)
    case Rejected(stage, x, _) => Names(s, stage, x)
    case Unwinding(stage, x, _, _) => Names(s, stage, x)
    case Holding(stage, x, exit, _) => Names(s, stage, x) && s.runs[x.run].exit == Some(exit)
    case Loading(stage, x) => Names(s, stage, x)
    case Reading(stage, x) => Names(s, stage, x)
    case Querying(target) => CancelInv(s, c, target)
    case Asking(x) => CancelInv(s, c, Some(x))
    case Ending(target) => CancelInv(s, c, target) && (target.Some? ==> Stopped(s.runs[target.value.run]))
    case _ => true
  }

  ghost predicate CancelInv(s: State, c: Caller, target: Option<ExecutionRef>) {
    && s.lock == Some(c)
    && !Terminal(s.disk.phase)
    && target == LiveExecution(s.disk)
    && (target.Some? ==> target.value.run in s.runs)
  }

  ghost predicate GlobalInv(e: Episode, s: State) {
    && Records.Sound(e, s.disk)
    && StageInv(s, Inference)
    && StageInv(s, Verification)
    && (s.disk.phase.New? ==> s.inference.owner.None?)
    && (Records.Rank(s.disk.phase) <= 2 ==> s.verification.owner.None?)
    && (s.disk.phase.CandidateReady? || s.disk.phase.VerificationRunning? || s.disk.phase.Completed? ==>
          InferenceSucceeded(s))
    && (s.disk.verification.Some? ==> InferenceSucceeded(s))
  }

  /** At most one Run per stage. */
  ghost predicate OneRun(s: State) {
    forall r1, r2 | r1 in s.runs && r2 in s.runs && s.runs[r1].stage == s.runs[r2].stage :: r1 == r2
  }

  ghost predicate Inv(e: Episode, s: State) {
    && GlobalInv(e, s)
    && OneRun(s)
    && (forall run | run in s.runs :: RunInv(e, s, run))
    && (forall x | x in s.persisted :: PersistedInv(s, x))
    && (forall c :: CallerInv(e, s, c))
  }

  // ------------------------------------------------------------------ frames

  /** Facts about a Run only grow. */
  ghost predicate RunGrows(a: Run, b: Run) {
    && a.stage == b.stage
    && a.environment == b.environment
    && (a.allocation != "" ==> b.allocation == a.allocation)
    && (a.exit.Some? ==> b.exit == a.exit)
    && (a.released ==> b.released)
    && (a.cancelRequested ==> b.cancelRequested)
  }

  ghost predicate RunsGrow(s: State, s': State) {
    forall run | run in s.runs :: run in s'.runs && RunGrows(s.runs[run], s'.runs[run])
  }

  /** A step of somebody else, as caller c sees it. */
  ghost predicate Undisturbed(s: State, s': State, c: Caller) {
    && At(s', c) == At(s, c)
    && s.persisted <= s'.persisted
    && (s.inference.owner == Some(c) ==> s'.inference == s.inference)
    && (s.verification.owner == Some(c) ==> s'.verification == s.verification)
    && (s.lock == Some(c) ==> s'.lock == s.lock && s'.disk == s.disk)
  }

  lemma UndisturbedKeeps(e: Episode, s: State, s': State, c: Caller)
    requires CallerInv(e, s, c) && RunsGrow(s, s') && Undisturbed(s, s', c)
    ensures CallerInv(e, s', c)
  {
  }

  /** Only the actor's own activity has to be looked at. */
  lemma OthersKeep(e: Episode, s: State, s': State, actor: Caller)
    requires forall c :: CallerInv(e, s, c)
    requires RunsGrow(s, s')
    requires forall c | c != actor :: Undisturbed(s, s', c)
    requires CallerInv(e, s', actor)
    ensures forall c :: CallerInv(e, s', c)
  {
    forall c ensures CallerInv(e, s', c) {
      if c != actor {
        UndisturbedKeeps(e, s, s', c);
      }
    }
  }

  /** A step in which no caller acts. */
  lemma CallersKeep(e: Episode, s: State, s': State)
    requires forall c :: CallerInv(e, s, c)
    requires RunsGrow(s, s')
    requires forall c :: Undisturbed(s, s', c)
    ensures forall c :: CallerInv(e, s', c)
  {
    forall c ensures CallerInv(e, s', c) { UndisturbedKeeps(e, s, s', c); }
  }

  /** The caller moves on and nothing else changes. */
  lemma MoveKeeps(e: Episode, s: State, c: Caller, a: Activity)
    requires Inv(e, s)
    requires CallerInv(e, Move(s, c, a), c)
    ensures Inv(e, Move(s, c, a))
  {
    var s' := Move(s, c, a);
    OthersKeep(e, s, s', c);
    forall run | run in s'.runs ensures RunInv(e, s', run) { assert RunInv(e, s, run); }
    forall x | x in s'.persisted ensures PersistedInv(s', x) { assert PersistedInv(s, x); }
  }

  lemma DiskSound(e: Episode, s: State)
    requires Inv(e, s)
    ensures Records.Sound(e, s.disk)
  {
  }

  /** A section of the record lock. */
  lemma SectionKeeps(e: Episode, s: State, w: Records.Write)
    requires Inv(e, s) && s.lock.None?
    requires GlobalInv(e, s.(disk := Records.Section(e, s.disk, w).record))
    ensures Inv(e, s.(disk := Records.Section(e, s.disk, w).record))
  {
    hide CallerInv, GlobalInv, Records.Section, Records.Sound;
    var s' := s.(disk := Records.Section(e, s.disk, w).record);
    assert Records.Sound(e, s.disk) by { DiskSound(e, s); }
    Records.SectionLawful(e, s.disk, w);
    CallersKeep(e, s, s');
    forall run | run in s'.runs ensures RunInv(e, s', run) { assert RunInv(e, s, run); }
    forall x | x in s'.persisted ensures PersistedInv(s', x) { assert PersistedInv(s, x); }
  }

  /** A fact about one Run is added. */
  lemma GrowKeeps(e: Episode, s: State, run: string, facts: Run)
    requires Inv(e, s) && run in s.runs && RunGrows(s.runs[run], facts)
    requires facts.exit == Some(0) ==> facts.released
    requires facts.released ==>
               facts.allocation != "" && ExecutionRef(facts.environment, run, facts.allocation) in s.persisted
    ensures Inv(e, s.(runs := s.runs[run := facts]))
  {
    hide CallerInv;
    var s' := s.(runs := s.runs[run := facts]);
    GrowGlobal(e, s, run, facts);
    GrowFacts(e, s, run, facts);
    hide GlobalInv, OneRun, RunInv, PersistedInv;
    CallersKeep(e, s, s');
  }

  lemma GrowGlobal(e: Episode, s: State, run: string, facts: Run)
    requires Inv(e, s) && run in s.runs && RunGrows(s.runs[run], facts)
    ensures GlobalInv(e, s.(runs := s.runs[run := facts])) && OneRun(s.(runs := s.runs[run := facts]))
  {
    hide CallerInv, RunInv, PersistedInv, Records.Sound;
  }

  lemma GrowFacts(e: Episode, s: State, run: string, facts: Run)
    requires Inv(e, s) && run in s.runs && RunGrows(s.runs[run], facts)
    requires facts.exit == Some(0) ==> facts.released
    requires facts.released ==>
               facts.allocation != "" && ExecutionRef(facts.environment, run, facts.allocation) in s.persisted
    ensures
      var s' := s.(runs := s.runs[run := facts]);
      && (forall r | r in s'.runs :: RunInv(e, s', r))
      && (forall x | x in s'.persisted :: PersistedInv(s', x))
  {
    hide CallerInv, GlobalInv, OneRun;
    var s' := s.(runs := s.runs[run := facts]);
    forall r | r in s'.runs ensures RunInv(e, s', r) { assert RunInv(e, s, r); }
    forall x | x in s'.persisted ensures PersistedInv(s', x) { assert PersistedInv(s, x); }
  }

  lemma NothingYet(e: Episode, s: State)
    requires Inv(e, s) && s.disk.phase.New?
    ensures s.runs == map[] && s.persisted == {}
  {
    forall run | run in s.runs ensures false { RunMeansStarted(e, s, run); }
    forall x | x in s.persisted ensures false { PersistedMeansStarted(e, s, x); }
  }

  lemma RunMeansStarted(e: Episode, s: State, run: string)
    requires Inv(e, s) && run in s.runs
    ensures !s.disk.phase.New?
  {
    assert RunInv(e, s, run);
  }

  lemma PersistedMeansStarted(e: Episode, s: State, x: ExecutionRef)
    requires Inv(e, s) && x in s.persisted
    ensures !s.disk.phase.New?
  {
    assert PersistedInv(s, x);
  }

  lemma StartRunKeeps(e: Episode, s: State, c: Caller)
    requires Inv(e, s)
    ensures Inv(e, DoStartRun(s, c))
  {
    var s' := DoStartRun(s, c);
    if s' != s {
      Records.SectionLawful(e, s.disk, Records.StartingRun);
      NothingYet(e, s);
      OthersKeep(e, s, s', c);
    }
  }

  lemma CreateRunKeeps(e: Episode, s: State, c: Caller, run: string, made: bool, answered: bool)
    requires Inv(e, s)
    ensures Inv(e, DoCreateRun(e, s, c, run, made, answered))
  {
    var a := At(s, c);
    if a.Planning? && run !in s.runs && (answered ==> made) {
      assert CallerInv(e, s, c);
      forall r | r in s.runs ensures s.runs[r].stage != a.stage { assert RunInv(e, s, r); }
      var called := WithPermit(s, a.stage, Permit(Some(c), 1));
      var moved := Move(called, c, Raise(Infrastructure, a.guards));
      CallKeeps(e, s, c, a);
      if made {
        var facts := Run(a.stage, e.EnvironmentOf(a.stage), "", None, false, false);
        NewRunKeeps(e, moved, run, facts);
        if answered {
          var s' := moved.(runs := moved.runs[run := facts]);
          MoveKeeps(e, s', c, Created(a.stage, ExecutionRef(facts.environment, run, ""), a.guards));
          MoveTwice(WithPermit(s, a.stage, Permit(Some(c), 1)).(runs := s'.runs), c,
                    Raise(Infrastructure, a.guards),
                    Created(a.stage, ExecutionRef(facts.environment, run, ""), a.guards));
        }
      }
    }
  }

  lemma MoveTwice(s: State, c: Caller, a: Activity, b: Activity)
    ensures Move(Move(s, c, a), c, b) == Move(s, c, b)
  {
    assert s.callers[c := a][c := b] == s.callers[c := b];
  }

  lemma CallKeeps(e: Episode, s: State, c: Caller, a: Activity)
    requires Inv(e, s) && a.Planning? && At(s, c) == a && s.PermitOf(a.stage) == Permit(Some(c), 0)
    ensures Inv(e, Move(WithPermit(s, a.stage, Permit(Some(c), 1)), c, Raise(Infrastructure, a.guards)))
  {
    hide Records.Sound;
    var s' := Move(WithPermit(s, a.stage, Permit(Some(c), 1)), c, Raise(Infrastructure, a.guards));
    OthersKeep(e, s, s', c);
    hide CallerInv;
    forall r | r in s'.runs ensures RunInv(e, s', r) { assert RunInv(e, s, r); }
    forall x | x in s'.persisted ensures PersistedInv(s', x) { assert PersistedInv(s, x); }
  }

  lemma NewRunKeeps(e: Episode, s: State, run: string, facts: Run)
    requires Inv(e, s) && run !in s.runs && s.PermitOf(facts.stage).calls == 1
    requires forall r | r in s.runs :: s.runs[r].stage != facts.stage
    requires facts == Run(facts.stage, e.EnvironmentOf(facts.stage), "", None, false, false)
    ensures Inv(e, s.(runs := s.runs[run := facts]))
  {
    hide CallerInv;
    var s' := s.(runs := s.runs[run := facts]);
    CallersKeep(e, s, s');
    forall r | r in s'.runs ensures RunInv(e, s', r) { assert r in s.runs ==> RunInv(e, s, r); }
    forall x | x in s'.persisted ensures PersistedInv(s', x) { assert PersistedInv(s, x); }
  }

  lemma BindKeeps(e: Episode, s: State, c: Caller)
    requires Inv(e, s)
    ensures Inv(e, DoBind(e, s, c))
  {
    var a := At(s, c);
    if s.lock.None? && (a.Created? || a.Allocated?) {
      assert CallerInv(e, s, c);
      var o := Records.Bind(e, s.disk, a.stage, a.x);
      if o.raised.Some? {
        MoveKeeps(e, s, c, if s.disk.phase.Cancelled? then Rejected(a.stage, a.x, a.guards)
                           else Unwinding(a.stage, a.x, a.guards, o.raised.value));
      } else {
        BoundKeeps(e, s, a.stage, a.x);
        var bound := s.(disk := o.record, persisted := s.persisted + {a.x});
        MoveKeeps(e, bound, c,
                  if a.Created? then Waiting(a.stage, a.x, a.guards) else Preparing(a.stage, a.x, a.guards));
      }
    }
  }

  lemma BindGlobal(e: Episode, s: State, stage: Stage, x: ExecutionRef)
    requires GlobalInv(e, s) && Names(s, stage, x)
    ensures GlobalInv(e, s.(disk := Records.Bind(e, s.disk, stage, x).record))
  {
    Records.BindLawful(e, s.disk, stage, x);
  }

  lemma BindFinds(e: Episode, r: EpisodeRecord, stage: Stage, x: ExecutionRef)
    requires Records.Bind(e, r, stage, x).raised.None?
    ensures Records.Bind(e, r, stage, x).record.Bound(stage) == Some(x)
  {
  }

  lemma BoundKeeps(e: Episode, s: State, stage: Stage, x: ExecutionRef)
    requires Inv(e, s) && s.lock.None? && Names(s, stage, x)
    requires Records.Bind(e, s.disk, stage, x).raised.None?
    ensures Inv(e, s.(disk := Records.Bind(e, s.disk, stage, x).record, persisted := s.persisted + {x}))
  {
    var w := Records.Binding(stage, x);
    BindGlobal(e, s, stage, x);
    BindFinds(e, s.disk, stage, x);
    hide GlobalInv, OneRun, Records.Bind;
    var s' := s.(disk := Records.Section(e, s.disk, w).record);
    SectionKeeps(e, s, w);
    var s'' := s'.(persisted := s.persisted + {x});
    CallersKeep(e, s', s'');
    forall r | r in s''.runs ensures RunInv(e, s'', r) { assert RunInv(e, s', r); }
    forall y | y in s''.persisted ensures PersistedInv(s'', y) { assert y != x ==> PersistedInv(s', y); }
  }

  lemma RequestCancelKeeps(e: Episode, s: State, run: string, landed: bool)
    requires Inv(e, s) && run in s.runs
    ensures Inv(e, RequestCancel(s, run, landed))
  {
    assert RunInv(e, s, run);
    if landed {
      GrowKeeps(e, s, run, s.runs[run].(cancelRequested := true));
    }
  }

  lemma CancelRejectedKeeps(e: Episode, s: State, c: Caller, landed: bool)
    requires Inv(e, s)
    ensures Inv(e, DoCancelRejected(s, c, landed))
  {
    var a := At(s, c);
    assert CallerInv(e, s, c);
    if a.Rejected? {
      RequestCancelKeeps(e, s, a.x.run, landed);
      MoveKeeps(e, RequestCancel(s, a.x.run, landed), c, Unwinding(a.stage, a.x, a.guards, RecoveryRequired));
    }
  }

  lemma CancelUnreleasedKeeps(e: Episode, s: State, c: Caller, closed: bool, landed: bool, answered: bool)
    requires Inv(e, s)
    ensures Inv(e, DoCancelUnreleased(s, c, closed, landed, answered))
  {
    var a := At(s, c);
    assert CallerInv(e, s, c);
    if a.Unwinding? && (answered ==> landed) {
      RequestCancelKeeps(e, s, a.x.run, landed);
      var error := if !answered then Diagnosed("prestart_cleanup_failed", "unreleased_run_cancel_failed")
                   else if !closed then Diagnosed("lifecycle_cleanup_failed", "component_cleanup_failed")
                   else a.error;
      MoveKeeps(e, RequestCancel(s, a.x.run, landed), c, Raise(error, a.guards));
    }
  }

  lemma WriteMarkerKeeps(e: Episode, s: State, c: Caller, landed: bool, answered: bool)
    requires Inv(e, s)
    ensures Inv(e, DoWriteMarker(s, c, landed, answered))
  {
    var a := At(s, c);
    assert CallerInv(e, s, c);
    if a.Preparing? && (answered ==> landed) {
      var s' := s;
      if landed {
        var facts := s.runs[a.x.run].(released := true);
        assert a.x == ExecutionRef(facts.environment, a.x.run, facts.allocation);
        GrowKeeps(e, s, a.x.run, facts);
        s' := s.(runs := s.runs[a.x.run := facts]);
      }
      MoveKeeps(e, s', c, if answered then Observing(a.stage, a.x, a.guards)
                          else Unwinding(a.stage, a.x, a.guards, Infrastructure));
    }
  }

  lemma AllocateKeeps(e: Episode, s: State, run: string, allocation: string)
    requires Inv(e, s)
    ensures Inv(e, DoAllocate(s, run, allocation))
  {
    if run in s.runs && s.runs[run].allocation == "" {
      assert RunInv(e, s, run);
      GrowKeeps(e, s, run, s.runs[run].(allocation := allocation));
    }
  }

  lemma ExitKeeps(e: Episode, s: State, run: string, status: int)
    requires Inv(e, s)
    ensures Inv(e, DoExit(s, run, status))
  {
    if run in s.runs && s.runs[run].exit.None? && (status == 0 ==> s.runs[run].released) {
      assert RunInv(e, s, run);
      GrowKeeps(e, s, run, s.runs[run].(exit := Some(status)));
    }
  }

  // The record sections that callers execute, one by one.

  lemma FailureGlobal(e: Episode, s: State, error: Failure, now: string)
    requires GlobalInv(e, s)
    ensures GlobalInv(e, s.(disk := Records.RecordFailure(s.disk, error, now).record))
  {
    Records.RecordFailureLawful(e, s.disk, error, now);
  }

  lemma RejectGlobal(e: Episode, s: State, stage: Stage, x: ExecutionRef, code: string, message: string, now: string)
    requires GlobalInv(e, s) && Names(s, stage, x)
    ensures GlobalInv(e, s.(disk := Records.FailStage(e, s.disk, stage, x, code, message, now).record))
  {
    Records.FailStageLawful(e, s.disk, stage, x, code, message, now);
  }

  lemma CommitGlobal(e: Episode, s: State, x: ExecutionRef, candidate: Digest<CandidateManifest>,
                     trajectory: Option<(string, string, string)>)
    requires GlobalInv(e, s) && Names(s, Inference, x)
    requires s.runs[x.run].exit == Some(0) && s.runs[x.run].released
    ensures GlobalInv(e, s.(disk := Records.CommitCandidate(e, s.disk, x, candidate, trajectory).record))
  {
    Records.CommitLawful(e, s.disk, x, candidate, trajectory);
  }

  lemma FinishGlobal(e: Episode, s: State, x: ExecutionRef, verdict: VerificationResult, now: string)
    requires GlobalInv(e, s) && Names(s, Verification, x)
    ensures GlobalInv(e, s.(disk := Records.Finish(e, s.disk, x, verdict, false, now).record))
  {
    Records.FinishLawful(e, s.disk, x, verdict, false, now);
  }

  lemma BeginGlobal(e: Episode, s: State)
    requires GlobalInv(e, s)
    ensures GlobalInv(e, s.(disk := Records.StartVerification(s.disk).record))
  {
    Records.StartLawful(e, s.disk);
  }

  lemma OtherGlobal(e: Episode, s: State, w: Records.Write)
    requires GlobalInv(e, s) && IsOtherWriter(w)
    ensures GlobalInv(e, s.(disk := Records.Section(e, s.disk, w).record))
  {
    Records.SectionLawful(e, s.disk, w);
  }

  lemma HandleFailureKeeps(e: Episode, s: State, c: Caller, now: string)
    requires Inv(e, s)
    ensures Inv(e, DoHandleFailure(s, c, now))
  {
    var a := At(s, c);
    if s.lock.None? && a.Raising? && a.guards > 0 {
      var w := Records.RecordingFailure(a.error, now);
      FailureGlobal(e, s, a.error, now);
      SectionKeeps(e, s, w);
      MoveKeeps(e, s.(disk := Records.Section(e, s.disk, w).record), c, Raise(a.error, a.guards - 1));
    }
  }

  lemma RejectStageKeeps(e: Episode, s: State, c: Caller, code: string, message: string, now: string, error: Failure)
    requires Inv(e, s)
    ensures Inv(e, DoRejectStage(e, s, c, code, message, now, error))
  {
    hide GlobalInv, OneRun, PersistedInv, RunInv;
    var a := At(s, c);
    assert CallerInv(e, s, c);
    if s.lock.None? && a.Holding? && (a.stage.Inference? ==> a.exit != 0) {
      var w := Records.FailingStage(a.stage, a.x, code, message, now);
      var o := Records.Section(e, s.disk, w);
      RejectGlobal(e, s, a.stage, a.x, code, message, now);
      SectionKeeps(e, s, w);
      MoveKeeps(e, s.(disk := o.record), c, Raise(if o.raised.Some? then o.raised.value else error, a.guards));
    }
  }

  lemma CommitCandidateKeeps(e: Episode, s: State, c: Caller, candidate: Digest<CandidateManifest>,
                             trajectory: Option<(string, string, string)>)
    requires Inv(e, s)
    ensures Inv(e, DoCommitCandidate(e, s, c, candidate, trajectory))
  {
    hide GlobalInv, OneRun, PersistedInv;
    var a := At(s, c);
    assert CallerInv(e, s, c);
    if s.lock.None? && a.Holding? && a.stage.Inference? && a.exit == 0 {
      var w := Records.CommittingCandidate(a.x, candidate, trajectory);
      var o := Records.Section(e, s.disk, w);
      assert RunInv(e, s, a.x.run);
      CommitGlobal(e, s, a.x, candidate, trajectory);
      SectionKeeps(e, s, w);
      MoveKeeps(e, s.(disk := o.record), c,
                if o.raised.Some? then Raise(o.raised.value, a.guards) else Delivering(a.guards));
    }
  }

  lemma FinishKeeps(e: Episode, s: State, c: Caller, verdict: VerificationResult, now: string)
    requires Inv(e, s)
    ensures Inv(e, DoFinish(e, s, c, verdict, now))
  {
    var a := At(s, c);
    assert CallerInv(e, s, c);
    if s.lock.None? && a.Holding? && a.stage.Verification? {
      var w := Records.Finishing(a.x, verdict, false, now);
      var o := Records.Section(e, s.disk, w);
      FinishGlobal(e, s, a.x, verdict, now);
      SectionKeeps(e, s, w);
      MoveKeeps(e, s.(disk := o.record), c, if o.raised.Some? then Raise(o.raised.value, a.guards) else Idle);
    }
  }

  lemma BeginVerificationKeeps(e: Episode, s: State, c: Caller)
    requires Inv(e, s)
    ensures Inv(e, DoBeginVerification(s, c))
  {
    var a := At(s, c);
    if s.lock.None? && a.Delivering? {
      var o := Records.StartVerification(s.disk);
      if o.raised.Some? {
        MoveKeeps(e, s, c, Raise(o.raised.value, a.guards));
      } else {
        var w := Records.StartingVerification;
        BeginGlobal(e, s);
        SectionKeeps(e, s, w);
        PermitKeeps(e, s.(disk := o.record), c, Planning(Verification, a.guards + 1));
      }
    }
  }

  lemma PermitKeeps(e: Episode, s: State, c: Caller, a: Activity)
    requires Inv(e, s) && s.disk.phase.VerificationRunning? && s.verification.owner.None?
    requires a.Planning? && a.stage.Verification?
    ensures Inv(e, WithPermit(Move(s, c, a), Verification, s.verification.(owner := Some(c))))
  {
    var s' := WithPermit(Move(s, c, a), Verification, s.verification.(owner := Some(c)));
    OthersKeep(e, s, s', c);
    forall r | r in s'.runs ensures RunInv(e, s', r) { assert RunInv(e, s, r); }
    forall x | x in s'.persisted ensures PersistedInv(s', x) { assert PersistedInv(s, x); }
  }

  lemma OtherWriterKeeps(e: Episode, s: State, w: Records.Write)
    requires Inv(e, s)
    ensures Inv(e, DoOtherWriter(e, s, w))
  {
    if s.lock.None? && IsOtherWriter(w) {
      OtherGlobal(e, s, w);
      SectionKeeps(e, s, w);
    }
  }

  lemma CrashKeeps(e: Episode, s: State, c: Caller)
    requires Inv(e, s)
    ensures Inv(e, DoCrash(s, c))
  {
    MoveKeeps(e, s, c, Idle);
    if s.lock == Some(c) {
      LockKeeps(e, Move(s, c, Idle), None);
      assert Move(s.(lock := None), c, Idle) == Move(s, c, Idle).(lock := None);
    }
  }

  /** Taking or leaving the lock, while its holder is not inside cancel. */
  lemma LockKeeps(e: Episode, s: State, lock: Option<Caller>)
    requires Inv(e, s)
    requires s.lock.Some? ==> At(s, s.lock.value).Idle?
    ensures Inv(e, s.(lock := lock))
  {
    var s' := s.(lock := lock);
    forall c ensures CallerInv(e, s', c) { assert CallerInv(e, s, c); }
    forall run | run in s'.runs ensures RunInv(e, s', run) { assert RunInv(e, s, run); }
    forall x | x in s'.persisted ensures PersistedInv(s', x) { assert PersistedInv(s, x); }
  }

  lemma WaitKeeps(e: Episode, s: State, c: Caller)
    requires Inv(e, s)
    ensures Inv(e, DoWaitRunning(s, c)) && Inv(e, DoWaitRun(s, c))
  {
    var a := At(s, c);
    assert CallerInv(e, s, c);
    if DoWaitRunning(s, c) != s {
      MoveKeeps(e, s, c, Allocated(a.stage, a.x.(allocation := s.runs[a.x.run].allocation), a.guards));
    }
    if DoWaitRun(s, c) != s {
      MoveKeeps(e, s, c, Holding(a.stage, a.x, s.runs[a.x.run].exit.value, a.guards));
    }
  }

  lemma ThrowKeeps(e: Episode, s: State, c: Caller, error: Failure)
    requires Inv(e, s)
    ensures Inv(e, DoThrow(s, c, error))
  {
    if InCancel(At(s, c)) {
      CrashKeeps(e, s, c);
    } else {
      AfterThrowFits(e, s, c, error);
      MoveKeeps(e, s, c, AfterThrow(At(s, c), error));
    }
  }

  lemma AfterThrowFits(e: Episode, s: State, c: Caller, error: Failure)
    requires CallerInv(e, s, c) && !InCancel(At(s, c))
    ensures CallerInv(e, Move(s, c, AfterThrow(At(s, c), error)), c)
  {
  }

  lemma StartRecoveryKeeps(e: Episode, s: State, c: Caller)
    requires Inv(e, s)
    ensures Inv(e, DoStartRecovery(s, c))
  {
    if DoStartRecovery(s, c) != s {
      MoveKeeps(e, s, c, At(DoStartRecovery(s, c), c));
    }
  }

  lemma LoadCandidateKeeps(e: Episode, s: State, c: Caller, ok: bool)
    requires Inv(e, s)
    ensures Inv(e, DoLoadCandidate(s, c, ok))
  {
    assert CallerInv(e, s, c);
    if DoLoadCandidate(s, c, ok) != s {
      MoveKeeps(e, s, c, At(DoLoadCandidate(s, c, ok), c));
    }
  }

  lemma ReadRunKeeps(e: Episode, s: State, c: Caller)
    requires Inv(e, s)
    ensures Inv(e, DoReadRun(s, c))
  {
    assert CallerInv(e, s, c);
    if DoReadRun(s, c) != s {
      MoveKeeps(e, s, c, At(DoReadRun(s, c), c));
    }
  }

  lemma BeginCancelKeeps(e: Episode, s: State, c: Caller)
    requires Inv(e, s)
    ensures Inv(e, DoBeginCancel(s, c))
  {
    if DoBeginCancel(s, c) != s {
      LockKeeps(e, s, Some(c));
      MoveKeeps(e, s.(lock := Some(c)), c, Querying(LiveExecution(s.disk)));
    }
  }

  lemma QueryRunKeeps(e: Episode, s: State, c: Caller)
    requires Inv(e, s)
    ensures Inv(e, DoQueryRun(s, c))
  {
    assert CallerInv(e, s, c);
    if DoQueryRun(s, c) != s {
      MoveKeeps(e, s, c, At(DoQueryRun(s, c), c));
    }
  }

  lemma AskCancelKeeps(e: Episode, s: State, c: Caller, landed: bool, answered: bool)
    requires Inv(e, s)
    ensures Inv(e, DoAskCancel(s, c, landed, answered))
  {
    hide GlobalInv, RunInv, PersistedInv, OneRun, Trace;
    var a := At(s, c);
    assert CallerInv(e, s, c);
    if a.Asking? && (answered ==> landed) {
      var s' := RequestCancel(s, a.x.run, landed);
      RequestCancelKeeps(e, s, a.x.run, landed);
      if answered {
        MoveKeeps(e, s', c, Ending(Some(a.x)));
      } else {
        CrashKeeps(e, s', c);
      }
    }
  }

  lemma EndCancelKeeps(e: Episode, s: State, c: Caller, now: string)
    requires Inv(e, s)
    ensures Inv(e, DoEndCancel(s, c, now))
  {
    assert CallerInv(e, s, c);
    if s.lock == Some(c) && At(s, c).Ending? {
      var idle := Move(s, c, Idle);
      MoveKeeps(e, s, c, Idle);
      LockKeeps(e, idle, None);
      var unlocked := idle.(lock := None);
      CancelGlobal(e, unlocked, now);
      SectionKeeps(e, unlocked, Records.Cancelling(now));
    }
  }

  lemma CancelGlobal(e: Episode, s: State, now: string)
    requires GlobalInv(e, s) && !Terminal(s.disk.phase)
    requires LiveExecution(s.disk).Some? ==>
               LiveExecution(s.disk).value.run in s.runs && Stopped(s.runs[LiveExecution(s.disk).value.run])
    ensures GlobalInv(e, s.(disk := Records.Cancel(s.disk, now).record))
  {
    Records.CancelLawful(e, s.disk, now);
  }

  lemma StepKeeps(e: Episode, s: State, step: Step)
    requires Inv(e, s)
    ensures Inv(e, Apply(e, s, step))
  {
    hide Records.Sound;
    hide Inv;
    match step
    case StartRun(c) => StartRunKeeps(e, s, c);
    case CreateRun(c, run, made, answered) => CreateRunKeeps(e, s, c, run, made, answered);
    case Bind(c) => BindKeeps(e, s, c);
    case CancelRejected(c, landed) => CancelRejectedKeeps(e, s, c, landed);
    case WaitRunning(c) => WaitKeeps(e, s, c);
    case WriteMarker(c, landed, answered) => WriteMarkerKeeps(e, s, c, landed, answered);
    case WaitRun(c) => WaitKeeps(e, s, c);
    case Throw(c, error) => ThrowKeeps(e, s, c, error);
    case CancelUnreleased(c, closed, landed, answered) => CancelUnreleasedKeeps(e, s, c, closed, landed, answered);
    case HandleFailure(c, now) => HandleFailureKeeps(e, s, c, now);
    case Crash(c) => CrashKeeps(e, s, c);
    case Allocate(run, allocation) => AllocateKeeps(e, s, run, allocation);
    case Exit(run, status) => ExitKeeps(e, s, run, status);
    case RejectStage(c, code, message, now, error) => CommittingKeeps(e, s, step);
    case CommitCandidate(c, candidate, trajectory) => CommittingKeeps(e, s, step);
    case BeginVerification(c) => CommittingKeeps(e, s, step);
    case Finish(c, verdict, now) => CommittingKeeps(e, s, step);
    case OtherWriter(w) => CommittingKeeps(e, s, step);
    case StartRecovery(c) => RecoveringKeeps(e, s, step);
    case LoadCandidate(c, ok) => RecoveringKeeps(e, s, step);
    case ReadRun(c) => RecoveringKeeps(e, s, step);
    case _ => CancellingKeeps(e, s, step);
  }

  lemma CommittingKeeps(e: Episode, s: State, step: Step)
    requires Inv(e, s)
    requires
      step.RejectStage? || step.CommitCandidate? || step.BeginVerification? || step.Finish? || step.OtherWriter?
    ensures Inv(e, Apply(e, s, step))
  {
    hide Inv;
    match step
    case RejectStage(c, code, message, now, error) => RejectStageKeeps(e, s, c, code, message, now, error);
    case CommitCandidate(c, candidate, trajectory) => CommitCandidateKeeps(e, s, c, candidate, trajectory);
    case BeginVerification(c) => BeginVerificationKeeps(e, s, c);
    case Finish(c, verdict, now) => FinishKeeps(e, s, c, verdict, now);
    case OtherWriter(w) => OtherWriterKeeps(e, s, w);
  }

  lemma RecoveringKeeps(e: Episode, s: State, step: Step)
    requires Inv(e, s)
    requires step.StartRecovery? || step.LoadCandidate? || step.ReadRun?
    ensures Inv(e, Apply(e, s, step))
  {
    hide Inv;
    match step
    case StartRecovery(c) => StartRecoveryKeeps(e, s, c);
    case LoadCandidate(c, ok) => LoadCandidateKeeps(e, s, c, ok);
    case ReadRun(c) => ReadRunKeeps(e, s, c);
  }

  lemma CancellingKeeps(e: Episode, s: State, step: Step)
    requires Inv(e, s)
    requires step.BeginCancel? || step.QueryRun? || step.AskCancel? || step.EndCancel?
    ensures Inv(e, Apply(e, s, step))
  {
    hide Inv;
    match step
    case BeginCancel(c) => BeginCancelKeeps(e, s, c);
    case QueryRun(c) => QueryRunKeeps(e, s, c);
    case AskCancel(c, landed, answered) => AskCancelKeeps(e, s, c, landed, answered);
    case EndCancel(c, now) => EndCancelKeeps(e, s, c, now);
  }

  lemma {:induction false} TraceKeeps(e: Episode, s: State, steps: seq<Step>)
    requires Inv(e, s)
    ensures Inv(e, Trace(e, s, steps))
    decreases |steps|
  {
    hide Inv;
    if |steps| > 0 {
      StepKeeps(e, s, steps[0]);
      TraceKeeps(e, Apply(e, s, steps[0]), steps[1..]);
    }
  }

  ghost predicate Reachable(e: Episode, s: State) {
    exists now: string, steps: seq<Step> :: s == Trace(e, Init(now), steps)
  }

  lemma ReachableInv(e: Episode, s: State)
    requires Reachable(e, s)
    ensures Inv(e, s)
  {
    var now: string, steps: seq<Step> :| s == Trace(e, Init(now), steps);
    TraceKeeps(e, Init(now), steps);
  }

  // ------------------------------------------------------------------ what every run keeps

  /** backend.execute is called at most once per stage, whoever recovers, and makes at most one Run. */
  lemma OneExecutionPerStage(e: Episode, s: State, stage: Stage)
    requires Reachable(e, s)
    ensures s.PermitOf(stage).calls <= 1
    ensures forall r1, r2 | r1 in s.runs && r2 in s.runs && s.runs[r1].stage == stage && s.runs[r2].stage == stage ::
              r1 == r2
    ensures (exists r :: r in s.runs && s.runs[r].stage == stage) ==> s.PermitOf(stage).calls == 1
  {
    ReachableInv(e, s);
    forall r | r in s.runs && s.runs[r].stage == stage ensures s.PermitOf(stage).calls == 1 {
      assert RunInv(e, s, r);
    }
  }

  /** A released Run has its allocation persisted, and the record still names it. */
  lemma ReleasedIsPersisted(e: Episode, s: State, run: string)
    requires Reachable(e, s)
    requires run in s.runs && s.runs[run].released
    ensures
      var facts := s.runs[run];
      && facts.allocation != ""
      && ExecutionRef(facts.environment, run, facts.allocation) in s.persisted
      && facts.environment == e.EnvironmentOf(facts.stage)
      && s.disk.Bound(facts.stage).Some?
      && s.disk.Bound(facts.stage).value.run == run
  {
    ReachableInv(e, s);
    assert RunInv(e, s, run);
    assert PersistedInv(s, ExecutionRef(s.runs[run].environment, run, s.runs[run].allocation));
  }

  /** Persisted means: at some earlier instant the record was live in the stage and held exactly this. */
  lemma {:induction false} PersistedWhileLive(e: Episode, now: string, steps: seq<Step>, x: ExecutionRef)
    requires x in Trace(e, Init(now), steps).persisted
    ensures exists k, stage ::
              && 0 <= k <= |steps|
              && HeldLive(Trace(e, Init(now), steps[..k]), stage, x)
    decreases |steps|
  {
    assert |steps| > 0;
    var n := |steps| - 1;
    TraceSnoc(e, Init(now), steps);
    var before := Trace(e, Init(now), steps[..n]);
    if x in before.persisted {
      PersistedWhileLive(e, now, steps[..n], x);
      var k, stage :| 0 <= k <= n && HeldLive(Trace(e, Init(now), steps[..n][..k]), stage, x);
      assert steps[..n][..k] == steps[..k];
    } else {
      OnlyBindPersists(e, before, steps[n], x);
      assert steps[..n + 1] == steps;
      var stage :| HeldLive(Trace(e, Init(now), steps[..n + 1]), stage, x);
    }
  }

  ghost predicate HeldLive(s: State, stage: Stage, x: ExecutionRef) {
    s.disk.phase == RunningPhase(stage) && s.disk.Bound(stage) == Some(x)
  }

  lemma OnlyBindPersists(e: Episode, s: State, step: Step, x: ExecutionRef)
    requires x !in s.persisted && x in Apply(e, s, step).persisted
    ensures exists stage :: HeldLive(Apply(e, s, step), stage, x)
  {
    var stage := At(s, step.c).stage;
    assert HeldLive(Apply(e, s, step), stage, x);
  }

  lemma {:induction false} TraceSnoc(e: Episode, s: State, steps: seq<Step>)
    requires |steps| > 0
    ensures Trace(e, s, steps) == Apply(e, Trace(e, s, steps[..|steps| - 1]), steps[|steps| - 1])
    decreases |steps|
  {
    var n := |steps| - 1;
    if n > 0 {
      TraceSnoc(e, Apply(e, s, steps[0]), steps[1..]);
      assert steps[1..][..n - 1] == steps[..n][1..];
    }
  }

  /** After cancellation nothing of this episode keeps running unasked. */
  lemma CancelledIsStopped(e: Episode, s: State)
    requires Reachable(e, s) && s.disk.phase.Cancelled?
    ensures forall stage: Stage | s.disk.Bound(stage).Some? ::
              s.disk.Bound(stage).value.run in s.runs && Stopped(s.runs[s.disk.Bound(stage).value.run])
    ensures forall run | run in s.runs && s.runs[run].released :: Stopped(s.runs[run])
  {
    ReachableInv(e, s);
    forall run | run in s.runs && s.runs[run].released ensures Stopped(s.runs[run]) {
      ReleasedIsPersisted(e, s, run);
      assert StageInv(s, s.runs[run].stage);
    }
    forall stage: Stage | s.disk.Bound(stage).Some?
      ensures s.disk.Bound(stage).value.run in s.runs && Stopped(s.runs[s.disk.Bound(stage).value.run])
    {
      assert StageInv(s, stage);
    }
  }

  /** A committed candidate comes from a Run that was released, persisted and exited 0. */
  lemma CandidateFromReleasedRun(e: Episode, s: State)
    requires Reachable(e, s)
    requires s.disk.phase.CandidateReady? || s.disk.phase.VerificationRunning? || s.disk.phase.Completed?
    ensures s.disk.inference.Some? && s.disk.inference.value.run in s.runs
    ensures
      var x := s.disk.inference.value;
      var facts := s.runs[x.run];
      && facts.stage.Inference? && facts.exit == Some(0) && facts.released
      && ExecutionRef(facts.environment, x.run, facts.allocation) in s.persisted
  {
    ReachableInv(e, s);
    assert RunInv(e, s, s.disk.inference.value.run);
  }

  /** The steps that run a section of the record lock. */
  ghost predicate TakesRecordLock(step: Step) {
    || step.StartRun? || step.Bind? || step.HandleFailure? || step.RejectStage? || step.CommitCandidate?
    || step.BeginVerification? || step.Finish? || step.EndCancel? || step.OtherWriter?
  }

  lemma QuietStep(e: Episode, s: State, step: Step)
    requires !TakesRecordLock(step)
    ensures Apply(e, s, step).disk == s.disk
  {
  }

  /** Each step changes the record by one lawful section, or not at all. */
  lemma StepAdvances(e: Episode, s: State, step: Step)
    requires Records.Sound(e, s.disk)
    ensures Records.Lawful(e, s.disk, Apply(e, s, step).disk)
  {
    if step.RejectStage? || step.CommitCandidate? || step.Finish? {
      CommitAdvances(e, s, step);
    } else if step.OtherWriter? {
      Records.SectionLawful(e, s.disk, step.w);
    } else if TakesRecordLock(step) {
      LockAdvances(e, s, step);
    } else {
      QuietStep(e, s, step);
    }
  }

  lemma LockAdvances(e: Episode, s: State, step: Step)
    requires Records.Sound(e, s.disk)
    requires
      step.StartRun? || step.Bind? || step.HandleFailure? || step.BeginVerification? || step.EndCancel?
    ensures Records.Lawful(e, s.disk, Apply(e, s, step).disk)
  {
    hide Records.Sound, Records.Lawful;
    Records.SameLawful(e, s.disk);
    match step
    case StartRun(c) => Records.StartLawful(e, s.disk);
    case Bind(c) =>
      if At(s, c).Created? || At(s, c).Allocated? { Records.BindLawful(e, s.disk, At(s, c).stage, At(s, c).x); }
    case HandleFailure(c, now) =>
      if At(s, c).Raising? { Records.RecordFailureLawful(e, s.disk, At(s, c).error, now); }
    case BeginVerification(c) => Records.StartLawful(e, s.disk);
    case EndCancel(c, now) => Records.CancelLawful(e, s.disk, now);
  }

  lemma CommitAdvances(e: Episode, s: State, step: Step)
    requires Records.Sound(e, s.disk)
    requires step.RejectStage? || step.CommitCandidate? || step.Finish?
    ensures Records.Lawful(e, s.disk, Apply(e, s, step).disk)
  {
    hide Records.Sound, Records.Lawful, Trace;
    Records.SameLawful(e, s.disk);
    if At(s, step.c).Holding? {
      match step
      case RejectStage(c, code, message, now, error) =>
        Records.FailStageLawful(e, s.disk, At(s, c).stage, At(s, c).x, code, message, now);
      case CommitCandidate(c, candidate, trajectory) =>
        Records.CommitLawful(e, s.disk, At(s, c).x, candidate, trajectory);
      case Finish(c, verdict, now) =>
        Records.FinishLawful(e, s.disk, At(s, c).x, verdict, false, now);
    }
  }

  lemma EndedBindsNothing(e: Episode, s: State, step: Step)
    requires Terminal(s.disk.phase)
    ensures Apply(e, s, step).persisted == s.persisted
  {
    if step.Bind? {
      assert DoBind(e, s, step.c).persisted == s.persisted;
    }
  }

  /** The record promises of EpisodeRecords hold between any two instants of any run. */
  lemma {:induction false} TraceAdvances(e: Episode, s: State, steps: seq<Step>)
    requires Records.Sound(e, s.disk)
    ensures Records.Sound(e, Trace(e, s, steps).disk) && Records.Advances(s.disk, Trace(e, s, steps).disk)
    decreases |steps|
  {
    if |steps| > 0 {
      var s' := Apply(e, s, steps[0]);
      StepAdvances(e, s, steps[0]);
      TraceAdvances(e, s', steps[1..]);
      Records.AdvancesTransitive(s.disk, s'.disk, Trace(e, s', steps[1..]).disk);
    }
  }

  /**
   * Once the episode has ended, the record is frozen and nothing is persisted any more; a Run that is
   * released then or later had been persisted before the end.
   */
  lemma EndedStaysEnded(e: Episode, s: State, steps: seq<Step>)
    requires Reachable(e, s) && Terminal(s.disk.phase)
    ensures
      var s' := Trace(e, s, steps);
      && s'.disk == s.disk
      && s'.persisted == s.persisted
      && forall run | run in s'.runs && s'.runs[run].released ::
           exists x :: x in s.persisted && x.run == run
  {
    ReachableInv(e, s);
    EndedKeeps(e, s, steps);
  }

  lemma {:induction false} EndedKeeps(e: Episode, s: State, steps: seq<Step>)
    requires Inv(e, s) && Terminal(s.disk.phase)
    ensures
      var s' := Trace(e, s, steps);
      && s'.disk == s.disk
      && s'.persisted == s.persisted
      && forall run | run in s'.runs && s'.runs[run].released ::
           exists x :: x in s.persisted && x.run == run
    decreases |steps|
  {
    if |steps| == 0 {
      forall run | run in s.runs && s.runs[run].released
        ensures exists x :: x in s.persisted && x.run == run
      {
        assert RunInv(e, s, run);
        assert ExecutionRef(s.runs[run].environment, run, s.runs[run].allocation).run == run;
      }
    } else {
      StepAdvances(e, s, steps[0]);
      EndedBindsNothing(e, s, steps[0]);
      StepKeeps(e, s, steps[0]);
      EndedKeeps(e, Apply(e, s, steps[0]), steps[1..]);
    }
  }

  // ------------------------------------------------------------------ runs are histories

  ghost predicate IsSection(e: Episode, r: EpisodeRecord, r': EpisodeRecord) {
    r' == r || exists w :: r' == Records.Section(e, r, w).record
  }

  lemma SectionIs(e: Episode, r: EpisodeRecord, w: Records.Write)
    ensures IsSection(e, r, Records.Section(e, r, w).record)
  {
  }

  /** What each step does to the record is one section of it. */
  lemma StepIsSection(e: Episode, s: State, step: Step)
    ensures IsSection(e, s.disk, Apply(e, s, step).disk)
  {
    if !TakesRecordLock(step) {
      QuietStep(e, s, step);
    } else if step.OtherWriter? {
      SectionIs(e, s.disk, step.w);
    } else if step.StartRun? || step.BeginVerification? || step.EndCancel? {
      PlainIsSection(e, s, step);
    } else if step.HandleFailure? || step.Bind? {
      ActingIsSection(e, s, step);
    } else if At(s, step.c).Holding? {
      CommitIsSection(e, s, step);
    }
  }

  lemma PlainIsSection(e: Episode, s: State, step: Step)
    requires step.StartRun? || step.BeginVerification? || step.EndCancel?
    ensures IsSection(e, s.disk, Apply(e, s, step).disk)
  {
    match step
    case StartRun(c) => SectionIs(e, s.disk, Records.StartingRun);
    case BeginVerification(c) => SectionIs(e, s.disk, Records.StartingVerification);
    case EndCancel(c, now) => SectionIs(e, s.disk, Records.Cancelling(now));
  }

  lemma ActingIsSection(e: Episode, s: State, step: Step)
    requires step.HandleFailure? || step.Bind?
    ensures IsSection(e, s.disk, Apply(e, s, step).disk)
  {
    var a := At(s, step.c);
    match step
    case HandleFailure(c, now) => if a.Raising? { SectionIs(e, s.disk, Records.RecordingFailure(a.error, now)); }
    case Bind(c) => if a.Created? || a.Allocated? { SectionIs(e, s.disk, Records.Binding(a.stage, a.x)); }
  }

  lemma CommitIsSection(e: Episode, s: State, step: Step)
    requires (step.RejectStage? || step.CommitCandidate? || step.Finish?) && At(s, step.c).Holding?
    ensures IsSection(e, s.disk, Apply(e, s, step).disk)
  {
    var a := At(s, step.c);
    match step
    case RejectStage(c, code, message, now, error) =>
      SectionIs(e, s.disk, Records.FailingStage(a.stage, a.x, code, message, now));
    case CommitCandidate(c, candidate, trajectory) =>
      SectionIs(e, s.disk, Records.CommittingCandidate(a.x, candidate, trajectory));
    case Finish(c, verdict, now) => SectionIs(e, s.disk, Records.Finishing(a.x, verdict, false, now));
  }

  /** Whatever the callers do, the record goes through a history of sections, and nothing else. */
  lemma {:induction false} TraceIsHistory(e: Episode, s: State, steps: seq<Step>) returns (ws: seq<Records.Write>)
    ensures Trace(e, s, steps).disk == Records.History(e, s.disk, ws)
    decreases |steps|
  {
    if |steps| == 0 {
      ws := [];
    } else {
      var s' := Apply(e, s, steps[0]);
      StepIsSection(e, s, steps[0]);
      var rest := TraceIsHistory(e, s', steps[1..]);
      if s'.disk == s.disk {
        ws := rest;
      } else {
        var w :| s'.disk == Records.Section(e, s.disk, w).record;
        ws := [w] + rest;
      }
    }
  }
}
