/** What holds in every reachable state of qualification. */
module QualificationSafety {
  import opened Models
  import opened Qualification
  import Records = EpisodeRecords

  ghost predicate Names(s: State, index: nat, x: ExecutionRef) {
    && x.run in s.runs
    && s.runs[x.run].index == index
    && s.runs[x.run].environment == x.environment
    && (x.allocation == "" || x.allocation == s.runs[x.run].allocation)
  }

  ghost predicate SlotsInv(k: Context, s: State) {
    && |s.disk.qualifications| <= 2
    && forall i | 0 <= i < |s.disk.qualifications| ::
         Names(s, i, s.disk.qualifications[i])
         && s.disk.qualifications[i].environment == BindingOf(k.episode, i).environment
  }

  ghost predicate RunInv(k: Context, s: State, run: string)
    requires run in s.runs
  {
    var facts := s.runs[run];
    && run != ""
    && facts.index < 2
    && facts.environment == BindingOf(k.episode, facts.index).environment
    && (facts.exit == Some(0) ==> facts.released)
    && (facts.released ==>
          && facts.allocation != ""
          && facts.index < |s.disk.qualifications|
          && s.disk.qualifications[facts.index] == ExecutionRef(facts.environment, run, facts.allocation))
  }

  /** The slot holds this execution, whose Run succeeded with acceptable checks. */
  ghost predicate Accepted(k: Context, s: State, index: nat, x: ExecutionRef) {
    && index < |s.disk.qualifications|
    && s.disk.qualifications[index] == x
    && x.allocation != ""
    && Names(s, index, x)
    && s.runs[x.run].exit == Some(0)
    && k.accepts(RoleOf(index), s.runs[x.run].checks)
  }

  ghost predicate DoneInv(k: Context, s: State, done: seq<ExecutionRef>) {
    |done| <= 2 && forall i | 0 <= i < |done| :: Accepted(k, s, i, done[i])
  }

  ghost predicate WorkInv(k: Context, s: State, done: seq<ExecutionRef>, x: ExecutionRef) {
    |done| < 2 && DoneInv(k, s, done) && Names(s, |done|, x)
  }

  ghost predicate CallerInv(k: Context, s: State, c: Caller) {
    match At(s, c)
    case Out => true
    case Unwinding(_) => true
    case Checking(done) => |done| < 2 && DoneInv(k, s, done)
    case Creating(done) => |done| < 2 && DoneInv(k, s, done)
    case Created(done, x) => WorkInv(k, s, done, x)
    case Waiting(done, x) => WorkInv(k, s, done, x)
    case Allocated(done, x) => WorkInv(k, s, done, x) && x.allocation != ""
    case Preparing(done, x) => WorkInv(k, s, done, x) && Held(s, |done|, x)
    case Following(done, x) => WorkInv(k, s, done, x) && Held(s, |done|, x)
    case Recovering(done, x) => WorkInv(k, s, done, x)
    case Rebinding(done, x) =>
      WorkInv(k, s, done, x) && s.runs[x.run].exit.Some? && x.allocation == s.runs[x.run].allocation
    case Judging(done, x) =>
      WorkInv(k, s, done, x) && s.runs[x.run].exit.Some? && (s.runs[x.run].exit == Some(0) ==> Held(s, |done|, x))
    case Persisting(done) => |done| == 2 && DoneInv(k, s, done)
    case Committing(done) => |done| == 2 && DoneInv(k, s, done) && s.file == Some(ResultOf(k.episode, s.runs, done))
  }

  ghost predicate Held(s: State, index: nat, x: ExecutionRef) {
    x.allocation != "" && index < |s.disk.qualifications| && s.disk.qualifications[index] == x
  }

  ghost predicate FileInv(k: Context, s: State) {
    && (s.file.Some? ==>
          && |s.disk.qualifications| == 2
          && DoneInv(k, s, s.disk.qualifications)
          && s.file.value == ResultOf(k.episode, s.runs, s.disk.qualifications))
    && (s.disk.qualificationResult != "" ==> s.file.Some? && s.disk.qualificationResultDigest == Sha(s.file.value))
  }

  ghost predicate Inv(k: Context, s: State) {
    && SlotsInv(k, s)
    && (forall run | run in s.runs :: RunInv(k, s, run))
    && FileInv(k, s)
    && (forall c :: CallerInv(k, s, c))
  }

  // ------------------------------------------------------------------ frames

  ghost predicate RunGrows(a: Run, b: Run) {
    && a.index == b.index
    && a.environment == b.environment
    && (a.allocation != "" || a.exit.Some? ==> b.allocation == a.allocation)
    && (a.exit.Some? ==> b.exit == a.exit && b.checks == a.checks)
    && (a.released ==> b.released)
  }

  /** A slot keeps its Run, and its allocation once it has one. */
  ghost predicate SlotsGrow(q: seq<ExecutionRef>, q': seq<ExecutionRef>) {
    && |q| <= |q'|
    && forall i | 0 <= i < |q| :: q[i].run == q'[i].run && (q[i].allocation != "" ==> q'[i] == q[i])
  }

  ghost predicate Grows(s: State, s': State) {
    && (forall run | run in s.runs :: run in s'.runs && RunGrows(s.runs[run], s'.runs[run]))
    && SlotsGrow(s.disk.qualifications, s'.disk.qualifications)
    && (s.file.Some? ==> s'.file == s.file)
  }

  lemma DoneGrows(k: Context, s: State, s': State, done: seq<ExecutionRef>)
    requires DoneInv(k, s, done) && Grows(s, s')
    ensures DoneInv(k, s', done)
    ensures ResultOf(k.episode, s'.runs, done) == ResultOf(k.episode, s.runs, done)
  {
    forall i | 0 <= i < |done|
      ensures Accepted(k, s', i, done[i])
      ensures TargetOf(k.episode, s'.runs, i, done[i]) == TargetOf(k.episode, s.runs, i, done[i])
    {
      assert Accepted(k, s, i, done[i]);
    }
  }

  lemma CallerGrows(k: Context, s: State, s': State, c: Caller)
    requires CallerInv(k, s, c) && Grows(s, s') && At(s', c) == At(s, c)
    ensures CallerInv(k, s', c)
  {
    hide DoneInv, ResultOf;
    match At(s, c)
    case Out =>
    case Unwinding(_) =>
    case Checking(done) => DoneGrows(k, s, s', done);
    case Creating(done) => DoneGrows(k, s, s', done);
    case Created(done, _) => DoneGrows(k, s, s', done);
    case Waiting(done, _) => DoneGrows(k, s, s', done);
    case Allocated(done, _) => DoneGrows(k, s, s', done);
    case Preparing(done, _) => DoneGrows(k, s, s', done);
    case Following(done, _) => DoneGrows(k, s, s', done);
    case Recovering(done, _) => DoneGrows(k, s, s', done);
    case Rebinding(done, _) => DoneGrows(k, s, s', done);
    case Judging(done, _) => DoneGrows(k, s, s', done);
    case Persisting(done) => DoneGrows(k, s, s', done);
    case Committing(done) => DoneGrows(k, s, s', done);
  }

  /** Everything but the acting caller follows from growth. */
  lemma OthersGrow(k: Context, s: State, s': State, actor: Caller)
    requires (forall c :: CallerInv(k, s, c)) && Grows(s, s')
    requires forall c | c != actor :: At(s', c) == At(s, c)
    requires CallerInv(k, s', actor)
    ensures forall c :: CallerInv(k, s', c)
  {
    forall c ensures CallerInv(k, s', c) {
      if c != actor { CallerGrows(k, s, s', c); }
    }
  }

  lemma MoveKeeps(k: Context, s: State, c: Caller, a: Activity)
    requires Inv(k, s) && CallerInv(k, Move(s, c, a), c)
    ensures Inv(k, Move(s, c, a))
  {
    hide CallerInv;
    var s' := Move(s, c, a);
    OthersGrow(k, s, s', c);
    forall run | run in s'.runs ensures RunInv(k, s', run) { assert RunInv(k, s, run); }
    if s.file.Some? { DoneGrows(k, s, s', s.disk.qualifications); }
  }

  /** Facts about one Run are added. */
  lemma FactsKeep(k: Context, s: State, run: string, facts: Run)
    requires Inv(k, s) && run in s.runs && RunGrows(s.runs[run], facts)
    requires facts.exit == Some(0) ==> facts.released
    requires facts.released ==>
               && facts.allocation != ""
               && facts.index < |s.disk.qualifications|
               && s.disk.qualifications[facts.index] == ExecutionRef(facts.environment, run, facts.allocation)
    ensures Inv(k, s.(runs := s.runs[run := facts]))
  {
    hide CallerInv;
    var s' := s.(runs := s.runs[run := facts]);
    FactsKeepRuns(k, s, run, facts);
    FactsGrow(s, run, facts);
    hide ResultOf, DoneInv, SlotsInv, RunInv, Grows, RunGrows;
    if s.file.Some? { DoneGrows(k, s, s', s.disk.qualifications); }
    forall c ensures CallerInv(k, s', c) { CallerGrows(k, s, s', c); }
  }

  lemma FactsGrow(s: State, run: string, facts: Run)
    requires run in s.runs && RunGrows(s.runs[run], facts)
    ensures Grows(s, s.(runs := s.runs[run := facts]))
  {
  }

  lemma FactsKeepRuns(k: Context, s: State, run: string, facts: Run)
    requires Inv(k, s) && run in s.runs && RunGrows(s.runs[run], facts)
    requires facts.exit == Some(0) ==> facts.released
    requires facts.released ==>
               && facts.allocation != ""
               && facts.index < |s.disk.qualifications|
               && s.disk.qualifications[facts.index] == ExecutionRef(facts.environment, run, facts.allocation)
    ensures
      var s' := s.(runs := s.runs[run := facts]);
      SlotsInv(k, s') && forall r | r in s'.runs :: RunInv(k, s', r)
  {
    hide CallerInv, FileInv;
    var s' := s.(runs := s.runs[run := facts]);
    forall r | r in s'.runs ensures RunInv(k, s', r) { assert RunInv(k, s, r); }
  }

  /** A section of the record lock that lets the slots grow. */
  lemma DiskKeeps(k: Context, s: State, disk: EpisodeRecord)
    requires Inv(k, s) && SlotsGrow(s.disk.qualifications, disk.qualifications)
    requires SlotsInv(k, s.(disk := disk))
    requires disk.qualificationResult != "" ==>
               s.file.Some? && disk.qualificationResultDigest == Sha(s.file.value)
    ensures Inv(k, s.(disk := disk))
  {
    hide CallerInv;
    var s' := s.(disk := disk);
    forall r | r in s'.runs ensures RunInv(k, s', r) { assert RunInv(k, s, r); }
    if s.file.Some? {
      DoneGrows(k, s, s', s.disk.qualifications);
      FullSlotsStay(k, s, s');
    }
    hide ResultOf, DoneInv;
    forall c ensures CallerInv(k, s', c) { CallerGrows(k, s, s', c); }
  }

  /** Two finished slots never change again. */
  lemma FullSlotsStay(k: Context, s: State, s': State)
    requires |s.disk.qualifications| == 2 && DoneInv(k, s, s.disk.qualifications)
    requires SlotsGrow(s.disk.qualifications, s'.disk.qualifications) && |s'.disk.qualifications| <= 2
    ensures s'.disk.qualifications == s.disk.qualifications
  {
    forall i | 0 <= i < 2 ensures s'.disk.qualifications[i] == s.disk.qualifications[i] {
      assert Accepted(k, s, i, s.disk.qualifications[i]);
    }
  }

  // ------------------------------------------------------------------ steps

  lemma BoundGrows(k: Context, s: State, index: nat, x: ExecutionRef)
    requires SlotsInv(k, s) && index < 2 && Names(s, index, x)
    requires
      Records.BindQualification(k.episode, s.disk, index, BindingOf(k.episode, index).environment, x).raised.None?
    ensures
      var environment := BindingOf(k.episode, index).environment;
      var disk := Records.BindQualification(k.episode, s.disk, index, environment, x).record;
      && SlotsGrow(s.disk.qualifications, disk.qualifications)
      && SlotsInv(k, s.(disk := disk))
      && index < |disk.qualifications| && disk.qualifications[index] == x
      && disk == s.disk.(qualifications := disk.qualifications)
  {
  }

  lemma BindKeeps(k: Context, s: State, c: Caller)
    requires Inv(k, s)
    ensures Inv(k, DoBind(k, s, c))
  {
    hide SlotsInv, ResultOf;
    var a := At(s, c);
    assert CallerInv(k, s, c);
    if a.Created? || a.Allocated? {
      var o := Records.BindQualification(k.episode, s.disk, |a.done|, BindingOf(k.episode, |a.done|).environment, a.x);
      if o.raised.Some? {
        MoveKeeps(k, s, c, Unwinding(a.x));
      } else {
        BoundGrows(k, s, |a.done|, a.x);
        DiskKeeps(k, s, o.record);
        assert CallerInv(k, s.(disk := o.record), c);
        MoveKeeps(k, s.(disk := o.record), c, if a.Created? then Waiting(a.done, a.x) else Preparing(a.done, a.x));
      }
    }
  }

  lemma RebindKeeps(k: Context, s: State, c: Caller)
    requires Inv(k, s)
    ensures Inv(k, DoRebind(k, s, c))
  {
    hide SlotsInv, ResultOf;
    var a := At(s, c);
    assert CallerInv(k, s, c);
    if a.Rebinding? {
      var o := Records.BindQualification(k.episode, s.disk, |a.done|, BindingOf(k.episode, |a.done|).environment, a.x);
      if o.raised.Some? {
        MoveKeeps(k, s, c, Out);
      } else {
        BoundGrows(k, s, |a.done|, a.x);
        DiskKeeps(k, s, o.record);
        assert CallerInv(k, s.(disk := o.record), c) && RunInv(k, s, a.x.run);
        MoveKeeps(k, s.(disk := o.record), c, Judging(a.done, a.x));
      }
    }
  }

  lemma CreateRunKeeps(k: Context, s: State, c: Caller, run: string, made: bool, answered: bool)
    requires Inv(k, s)
    ensures Inv(k, DoCreateRun(k, s, c, run, made, answered))
  {
    hide SlotsInv, FileInv, ResultOf;
    var a := At(s, c);
    assert CallerInv(k, s, c);
    if a.Creating? && run != "" && run !in s.runs && (answered ==> made) {
      var environment := BindingOf(k.episode, |a.done|).environment;
      var s' := s;
      if made {
        s' := s.(runs := s.runs[run := Run(|a.done|, environment, "", None, false, "")]);
        NewRunKeeps(k, s, run, s'.runs[run]);
        CallerGrows(k, s, s', c);
      }
      MoveKeeps(k, s', c, if answered then Created(a.done, ExecutionRef(environment, run, "")) else Out);
    }
  }

  lemma NewRunKeeps(k: Context, s: State, run: string, facts: Run)
    requires Inv(k, s) && run !in s.runs && run != ""
    requires facts.index < 2 && facts.environment == BindingOf(k.episode, facts.index).environment
    requires !facts.released && facts.exit.None?
    ensures Inv(k, s.(runs := s.runs[run := facts]))
  {
    hide CallerInv;
    var s' := s.(runs := s.runs[run := facts]);
    NewRunFits(k, s, run, facts);
    hide ResultOf, DoneInv, SlotsInv, RunInv, Grows;
    if s.file.Some? { DoneGrows(k, s, s', s.disk.qualifications); }
    forall c ensures CallerInv(k, s', c) { CallerGrows(k, s, s', c); }
  }

  lemma NewRunFits(k: Context, s: State, run: string, facts: Run)
    requires Inv(k, s) && run !in s.runs && run != ""
    requires facts.index < 2 && facts.environment == BindingOf(k.episode, facts.index).environment
    requires !facts.released && facts.exit.None?
    ensures
      var s' := s.(runs := s.runs[run := facts]);
      Grows(s, s') && SlotsInv(k, s') && forall r | r in s'.runs :: RunInv(k, s', r)
  {
    hide CallerInv, FileInv;
    var s' := s.(runs := s.runs[run := facts]);
    forall r | r in s'.runs ensures RunInv(k, s', r) { assert r != run ==> RunInv(k, s, r); }
  }

  lemma WriteMarkerKeeps(k: Context, s: State, c: Caller, landed: bool, answered: bool)
    requires Inv(k, s)
    ensures Inv(k, DoWriteMarker(s, c, landed, answered))
  {
    hide SlotsInv, FileInv, ResultOf;
    var a := At(s, c);
    assert CallerInv(k, s, c);
    if a.Preparing? && (answered ==> landed) {
      var s' := s;
      if landed {
        var facts := s.runs[a.x.run].(released := true);
        assert RunInv(k, s, a.x.run);
        FactsKeep(k, s, a.x.run, facts);
        s' := s.(runs := s.runs[a.x.run := facts]);
        CallerGrows(k, s, s', c);
      }
      MoveKeeps(k, s', c, if answered then Following(a.done, a.x) else Unwinding(a.x));
    }
  }

  lemma AllocateKeeps(k: Context, s: State, run: string, allocation: string)
    requires Inv(k, s)
    ensures Inv(k, DoAllocate(s, run, allocation))
  {
    if run in s.runs && s.runs[run].exit.None? && s.runs[run].allocation == "" {
      assert RunInv(k, s, run);
      hide Inv;
      FactsKeep(k, s, run, s.runs[run].(allocation := allocation));
    }
  }

  lemma ExitKeeps(k: Context, s: State, run: string, status: int, checks: string)
    requires Inv(k, s)
    ensures Inv(k, DoExit(s, run, status, checks))
  {
    if run in s.runs && s.runs[run].exit.None? && (status == 0 ==> s.runs[run].released) {
      assert RunInv(k, s, run);
      hide Inv;
      FactsKeep(k, s, run, s.runs[run].(exit := Some(status), checks := checks));
    }
  }

  /** A caller that stays, or goes where its invariant holds. */
  lemma GoesKeeps(k: Context, s: State, s': State, c: Caller)
    requires Inv(k, s) && (s' == s || (s' == Move(s, c, At(s', c)) && CallerInv(k, s', c)))
    ensures Inv(k, s')
  {
    hide Inv, CallerInv;
    if s' != s { MoveKeeps(k, s, c, At(s', c)); }
  }

  /** Steps that only move the caller. */
  lemma MovingKeeps(k: Context, s: State, c: Caller)
    requires Inv(k, s)
    ensures Inv(k, DoBegin(s, c)) && Inv(k, DoCheck(s, c)) && Inv(k, DoWaitRunning(s, c)) && Inv(k, DoWaitRun(s, c))
    ensures Inv(k, DoRecover(s, c)) && Inv(k, DoThrow(s, c)) && Inv(k, Move(s, c, Out))
  {
    assert CallerInv(k, s, c);
    CheckFits(k, s, c);
    WaitFits(k, s, c);
    BeginFits(k, s, c);
    hide Inv, CallerInv;
    GoesKeeps(k, s, DoBegin(s, c), c);
    GoesKeeps(k, s, DoCheck(s, c), c);
    GoesKeeps(k, s, DoWaitRunning(s, c), c);
    GoesKeeps(k, s, DoWaitRun(s, c), c);
    GoesKeeps(k, s, DoRecover(s, c), c);
    GoesKeeps(k, s, DoThrow(s, c), c);
    GoesKeeps(k, s, Move(s, c, Out), c);
  }

  lemma BeginFits(k: Context, s: State, c: Caller)
    ensures CallerInv(k, DoBegin(s, c), c) || DoBegin(s, c) == s
    ensures CallerInv(k, DoThrow(s, c), c) || DoThrow(s, c) == s
    ensures CallerInv(k, Move(s, c, Out), c)
  {
  }

  lemma CheckFits(k: Context, s: State, c: Caller)
    requires CallerInv(k, s, c) && SlotsInv(k, s)
    ensures CallerInv(k, DoCheck(s, c), c)
  {
    var a := At(s, c);
    if a.Checking? {
      DoneGrows(k, s, DoCheck(s, c), a.done);
    }
  }

  lemma WaitFits(k: Context, s: State, c: Caller)
    requires CallerInv(k, s, c)
    ensures CallerInv(k, DoWaitRunning(s, c), c) && CallerInv(k, DoWaitRun(s, c), c) && CallerInv(k, DoRecover(s, c), c)
  {
    hide DoneInv, ResultOf, TargetOf, Trace;
    var a := At(s, c);
    if a.Waiting? { DoneGrows(k, s, DoWaitRunning(s, c), a.done); }
    if a.Following? { DoneGrows(k, s, DoWaitRun(s, c), a.done); }
    if a.Recovering? { DoneGrows(k, s, DoRecover(s, c), a.done); }
  }

  lemma JudgeKeeps(k: Context, s: State, c: Caller)
    requires Inv(k, s)
    ensures Inv(k, DoJudge(k, s, c))
  {
    hide SlotsInv, FileInv, ResultOf;
    var a := At(s, c);
    assert CallerInv(k, s, c);
    if a.Judging? {
      var s' := DoJudge(k, s, c);
      if s.runs[a.x.run].exit == Some(0) && k.accepts(RoleOf(|a.done|), s.runs[a.x.run].checks) {
        forall i | 0 <= i < |a.done + [a.x]| ensures Accepted(k, s', i, (a.done + [a.x])[i]) {
          assert i < |a.done| ==> Accepted(k, s, i, a.done[i]);
        }
        assert |a.done| == 0 ==> a.done + [a.x] == [a.x];
      }
      MoveKeeps(k, s, c, At(s', c));
    }
  }

  /** Whoever has accepted both slots holds the two slots of the record. */
  lemma DoneIsSlots(k: Context, s: State, done: seq<ExecutionRef>)
    requires SlotsInv(k, s) && |done| == 2 && DoneInv(k, s, done)
    ensures done == s.disk.qualifications
  {
    assert Accepted(k, s, 0, done[0]) && Accepted(k, s, 1, done[1]);
  }

  lemma PersistKeeps(k: Context, s: State, c: Caller)
    requires Inv(k, s)
    ensures Inv(k, DoPersist(k, s, c))
    ensures At(s, c).Persisting? ==> At(DoPersist(k, s, c), c).Committing?
  {
    var a := At(s, c);
    assert CallerInv(k, s, c);
    if a.Persisting? {
      DoneIsSlots(k, s, a.done);
      var result := ResultOf(k.episode, s.runs, a.done);
      assert s.file.Some? ==> s.file.value == result;
      var written := s.(file := Some(result));
      FileKeeps(k, s, result);
      DoneGrows(k, s, written, a.done);
      DoneGrows(k, written, Move(written, c, Committing(a.done)), a.done);
      MoveKeeps(k, written, c, Committing(a.done));
    }
  }

  lemma FileKeeps(k: Context, s: State, result: QualificationResult)
    requires Inv(k, s) && |s.disk.qualifications| == 2 && DoneInv(k, s, s.disk.qualifications)
    requires result == ResultOf(k.episode, s.runs, s.disk.qualifications)
    ensures Inv(k, s.(file := Some(result)))
  {
    hide CallerInv;
    var s' := s.(file := Some(result));
    DoneGrows(k, s, s', s.disk.qualifications);
    forall r | r in s'.runs ensures RunInv(k, s', r) { assert RunInv(k, s, r); }
    hide ResultOf, DoneInv;
    forall c ensures CallerInv(k, s', c) { CallerGrows(k, s, s', c); }
  }

  lemma CommitKeeps(k: Context, s: State, c: Caller)
    requires Inv(k, s)
    ensures Inv(k, DoCommit(k, s, c))
  {
    var a := At(s, c);
    assert CallerInv(k, s, c);
    if a.Committing? {
      DoneIsSlots(k, s, a.done);
      var digest := Sha(ResultOf(k.episode, s.runs, a.done));
      var disk := Records.CommitQualification(s.disk, a.done, RESULT_PATH, digest).record;
      assert SlotsInv(k, s.(disk := disk));
      DiskKeeps(k, s, disk);
      MoveKeeps(k, s.(disk := disk), c, Out);
    }
  }

  /** Nobody else writes the qualification fields. */
  lemma OthersLeaveSlots(e: Episode, r: EpisodeRecord, w: Records.Write)
    requires IsOtherWriter(w)
    ensures
      var r' := Records.Section(e, r, w).record;
      && r'.qualifications == r.qualifications && r'.qualificationResult == r.qualificationResult
      && r'.qualificationResultDigest == r.qualificationResultDigest
  {
  }

  lemma OtherWriterKeeps(k: Context, s: State, w: Records.Write)
    requires Inv(k, s)
    ensures Inv(k, DoOtherWriter(k, s, w))
  {
    if IsOtherWriter(w) {
      OthersLeaveSlots(k.episode, s.disk, w);
      DiskKeeps(k, s, Records.Section(k.episode, s.disk, w).record);
    }
  }

  lemma StepKeeps(k: Context, s: State, step: Step)
    requires Inv(k, s)
    ensures Inv(k, Apply(k, s, step))
  {
    hide Inv;
    match step
    case CreateRun(c, run, made, answered) => CreateRunKeeps(k, s, c, run, made, answered);
    case Bind(c) => BindKeeps(k, s, c);
    case WriteMarker(c, landed, answered) => WriteMarkerKeeps(k, s, c, landed, answered);
    case Rebind(c) => RebindKeeps(k, s, c);
    case Judge(c) => JudgeKeeps(k, s, c);
    case Persist(c) => PersistKeeps(k, s, c);
    case Commit(c) => CommitKeeps(k, s, c);
    case OtherWriter(w) => OtherWriterKeeps(k, s, w);
    case Allocate(run, allocation) => AllocateKeeps(k, s, run, allocation);
    case Exit(run, status, checks) => ExitKeeps(k, s, run, status, checks);
    case _ => MovingKeeps(k, s, step.c);
  }

  lemma {:induction false} TraceKeeps(k: Context, s: State, steps: seq<Step>)
    requires Inv(k, s)
    ensures Inv(k, Trace(k, s, steps))
    decreases |steps|
  {
    hide Inv;
    if |steps| > 0 {
      StepKeeps(k, s, steps[0]);
      TraceKeeps(k, Apply(k, s, steps[0]), steps[1..]);
    }
  }

  // ------------------------------------------------------------------ steps are sections

  /** The section of the record that a step executes; a step of any other kind leaves the record alone. */
  function SectionOf(k: Context, s: State, step: Step): (w: Records.Write)
    ensures step.OtherWriter? ==> w == step.w
    ensures w.CommittingQualification? && !step.OtherWriter? ==> w.path != "" && w.digest.Sha?
    ensures !step.OtherWriter? ==> !w.CommittingCandidate? && !w.Finishing?
  {
    match step
    case OtherWriter(w) => w
    case Bind(c) => BindsSlot(k, s, c)
    case Rebind(c) => BindsSlot(k, s, c)
    case Commit(c) =>
      if At(s, c).Committing? then
        var done := At(s, c).done;
        Records.CommittingQualification(done, RESULT_PATH, Sha(ResultOf(k.episode, s.runs, done)))
      else Records.StartingRun
    case _ => Records.StartingRun
  }

  function BindsSlot(k: Context, s: State, c: Caller): Records.Write {
    var a := At(s, c);
    if a.Created? || a.Allocated? || a.Rebinding? then
      Records.BindingQualification(|a.done|, BindingOf(k.episode, |a.done|).environment, a.x)
    else Records.StartingRun
  }

  lemma QuietStep(k: Context, s: State, step: Step)
    requires !step.OtherWriter? && !step.Bind? && !step.Rebind? && !step.Commit?
    ensures Apply(k, s, step).disk == s.disk
  {
    hide Trace, ResultOf, TargetOf;
  }

  /** What each step does to the record is one section of it, or nothing. */
  lemma StepIsSection(k: Context, s: State, step: Step)
    ensures
      var r := Apply(k, s, step).disk;
      r == s.disk || r == Records.Section(k.episode, s.disk, SectionOf(k, s, step)).record
  {
    hide Trace, ResultOf, Records.BindQualification, Records.CommitQualification;
    match step
    case OtherWriter(w) => hide Records.Section;
    case Bind(c) =>
    case Rebind(c) =>
    case Commit(c) =>
    case _ => QuietStep(k, s, step);
  }

  ghost predicate Reachable(k: Context, s: State) {
    exists now: string, steps: seq<Step> :: s == Trace(k, Init(now), steps)
  }

  lemma ReachableInv(k: Context, s: State)
    requires Reachable(k, s)
    ensures Inv(k, s)
  {
    var now: string, steps: seq<Step> :| s == Trace(k, Init(now), steps);
    TraceKeeps(k, Init(now), steps);
  }

  /** However many qualifiers race or restart, at most one Run per role is ever released. */
  lemma OneReleasedPerRole(k: Context, s: State, r1: string, r2: string)
    requires Reachable(k, s)
    requires r1 in s.runs && r2 in s.runs && s.runs[r1].index == s.runs[r2].index
    requires s.runs[r1].released && s.runs[r2].released
    ensures r1 == r2
  {
    ReachableInv(k, s);
    assert RunInv(k, s, r1) && RunInv(k, s, r2);
  }

  /** Slot i is of role i, and a released Run is recorded in its slot. */
  lemma SlotsFollowRoles(k: Context, s: State)
    requires Reachable(k, s)
    ensures |s.disk.qualifications| <= 2
    ensures forall i | 0 <= i < |s.disk.qualifications| ::
              s.disk.qualifications[i].environment == BindingOf(k.episode, i).environment
    ensures forall r | r in s.runs && s.runs[r].released ::
              var facts := s.runs[r];
              facts.index < |s.disk.qualifications|
              && s.disk.qualifications[facts.index] == ExecutionRef(facts.environment, r, facts.allocation)
  {
    ReachableInv(k, s);
    forall r | r in s.runs && s.runs[r].released
      ensures
        var facts := s.runs[r];
        facts.index < |s.disk.qualifications|
        && s.disk.qualifications[facts.index] == ExecutionRef(facts.environment, r, facts.allocation)
    {
      assert RunInv(k, s, r);
    }
  }

  /** Racing qualifiers never disagree about the evidence: writing it is never refused. */
  lemma EvidenceNeverConflicts(k: Context, s: State, c: Caller)
    requires Reachable(k, s) && At(s, c).Persisting?
    ensures s.file.Some? ==> s.file.value == ResultOf(k.episode, s.runs, At(s, c).done)
    ensures At(DoPersist(k, s, c), c).Committing?
  {
    ReachableInv(k, s);
    assert CallerInv(k, s, c);
    DoneIsSlots(k, s, At(s, c).done);
    PersistKeeps(k, s, c);
  }

  /** Committed evidence names the Runs of both slots, and loads. */
  lemma InvLoads(k: Context, s: State)
    requires Inv(k, s) && s.disk.qualificationResult != ""
    ensures s.file.Some? && Load(k, s.disk, s.file) == Ok(s.file.value)
    ensures |s.disk.qualifications| == 2 && |s.file.value.targets| == 2
    ensures forall i | 0 <= i < 2 :: s.file.value.targets[i].run == s.disk.qualifications[i].run
  {
    var done := s.disk.qualifications;
    assert Accepted(k, s, 0, done[0]) && Accepted(k, s, 1, done[1]);
    assert s.file.value.targets[0] == TargetOf(k.episode, s.runs, 0, done[0]);
    assert s.file.value.targets[1] == TargetOf(k.episode, s.runs, 1, done[1]);
    assert Names(s, 0, done[0]) && Names(s, 1, done[1]);
  }

  /** A committed result is always accepted when it is loaded again, and no other file is. */
  lemma CommittedLoads(k: Context, s: State)
    requires Reachable(k, s) && s.disk.qualificationResult != ""
    ensures s.file.Some? && Load(k, s.disk, s.file) == Ok(s.file.value)
    ensures forall file :: Load(k, s.disk, file).Ok? <==> file == s.file
  {
    ReachableInv(k, s);
    InvLoads(k, s);
    assert s.disk.qualificationResultDigest == Sha(s.file.value);
    hide Inv, Reachable;
  }
}
