/**
 * Preparation against an Axern that may lose answers: one caller at a time, which may die before
 * or after every remote call and every locked write, and be started again.
 */
module PreparationProtocol {
  import opened Models
  import opened Preparation

  /** Where the caller is inside environment resolution; every other turn is one step. */
  datatype Activity =
    | Out
    | Looping
    | Looking(seed: SeedBuildReceipt)
    | Rejecting
    | Marking(seed: SeedBuildReceipt)
    | Creating(seed: SeedBuildReceipt)
    | Failing(error: RemoteError)
    | Judging(seed: SeedBuildReceipt, facts: EnvironmentFacts)

  /** observed keeps the Kova results that some caller has seen; made counts create calls that landed. */
  datatype State = State(
    disk: PreparationRecord,
    caller: Activity,
    environments: set<EnvironmentFacts>,
    pending: Option<EnvironmentFacts>,
    observed: set<KovaResults>)

  /** How a create request fares: it may be answered, still travel, or be dropped. */
  datatype Fate = Landed | Travelling | Dropped

  datatype Step =
    | Start
    | OtherTurn(answers: Answers)
    | BeginResolve(seedFile: SeedBuildReceipt)
    | LookUp(found: Result<seq<EnvironmentFacts>, RemoteError>)
    | MarkFailed
    | MarkCreating
    | Create(facts: EnvironmentFacts, fate: Fate, answer: Option<RemoteError>)
    | RecordFailure
    | Accept
    | Crash
    // Axern
    | Settle(lands: bool)

  function Init(spec: SeedBuildSpec, environments: set<EnvironmentFacts>): State {
    State(NewPreparation(spec), Out, environments, None, {})
  }

  predicate Labelled(spec: SeedBuildSpec, facts: EnvironmentFacts) {
    facts.namespace == spec.namespace && facts.preparation == Sha(spec)
  }

  function Matching(spec: SeedBuildSpec, s: State): set<EnvironmentFacts> {
    set facts | facts in s.environments && Labelled(spec, facts)
  }

  /** A complete label lookup lists every match once. */
  predicate Lists(found: seq<EnvironmentFacts>, all: set<EnvironmentFacts>) {
    (set facts | facts in found) == all && |found| == |all|
  }

  function At(s: State, a: Activity): State {
    s.(caller := a)
  }

  /** The answers of one turn are recorded as seen when they decide the build. */
  function Seen(r: PreparationRecord, a: Answers): set<KovaResults> {
    if r.state.BuildSubmitted? && a.results.Ok? then {a.results.value} else {}
  }

  /** get_environment answers with the Environment of that ID, or fails. */
  predicate Truthful(s: State, a: Answers) {
    s.disk.state.EnvironmentCreated? && a.observed.Ok? ==>
      a.observed.value in s.environments && a.observed.value.id == s.disk.environment
  }

  function DoOtherTurn(spec: SeedBuildSpec, s: State, a: Answers): State {
    if !s.caller.Looping? || Resolving(s.disk) || !Truthful(s, a) then s
    else
      var t := Turn(spec, s.disk, a);
      s.(disk := t.record, caller := if t.next.Continue? then Looping else Out,
         observed := s.observed + Seen(s.disk, a))
  }

  function DoBeginResolve(spec: SeedBuildSpec, s: State, seedFile: SeedBuildReceipt): State {
    if !s.caller.Looping? || !Resolving(s.disk) then s
    else At(s, if s.disk.request == Sha(spec) && s.disk.seed == Sha(seedFile) then Looking(seedFile) else Out)
  }

  /** A create request that is still travelling has settled before the next lookup is answered. */
  function DoLookUp(spec: SeedBuildSpec, s: State, found: Result<seq<EnvironmentFacts>, RemoteError>): State {
    if !s.caller.Looking? || (found.Ok? && (s.pending.Some? || !Lists(found.value, Matching(spec, s)))) then s
    else
      var seed := s.caller.seed;
      At(s, if found.Err? then Failing(found.error)
            else if |found.value| > 1 then Rejecting
            else if |found.value| == 1 then Judging(seed, found.value[0])
            else Marking(seed))
  }

  function DoMarkFailed(s: State): State {
    if !s.caller.Rejecting? then s
    else At(s.(disk := Mark(Diagnose(s.disk, "multiple_environments"), PreparationState.Failed)), Out)
  }

  function DoMarkCreating(s: State): State {
    if !s.caller.Marking? then s else At(s.(disk := Mark(s.disk, EnvironmentCreating)), Creating(s.caller.seed))
  }

  /** Axern resolves the image; the labels, namespace and image are those that were asked for. */
  function DoCreate(spec: SeedBuildSpec, s: State, facts: EnvironmentFacts, fate: Fate, answer: Option<RemoteError>)
    : State
  {
    if !s.caller.Creating? || s.pending.Some? || !Labelled(spec, facts) || facts.image != s.caller.seed.immutableRef
       || (answer.None? && !fate.Landed?)
       || (!fate.Dropped? && exists other | other in s.environments :: other.id == facts.id) then s
    else
      var s' := match fate
        case Landed => s.(environments := s.environments + {facts})
        case Travelling => s.(pending := Some(facts))
        case Dropped => s;
      At(s', if answer.None? then Judging(s.caller.seed, facts) else Failing(answer.value))
  }

  function DoRecordFailure(s: State): State {
    if !s.caller.Failing? then s else At(s.(disk := RemoteFailed(s.disk, s.caller.error)), Out)
  }

  function DoAccept(spec: SeedBuildSpec, s: State): State {
    if !s.caller.Judging? then s
    else
      var t := JudgeEnvironment(spec, s.disk, s.caller.seed, s.caller.facts);
      At(s.(disk := t.record), if t.next.Continue? then Looping else Out)
  }

  function DoSettle(s: State, lands: bool): State {
    if s.pending.None? then s
    else s.(pending := None, environments := if lands then s.environments + {s.pending.value} else s.environments)
  }

  function Apply(spec: SeedBuildSpec, s: State, step: Step): State {
    match step
    case Start => if s.caller.Out? then At(s, Looping) else s
    case OtherTurn(a) => DoOtherTurn(spec, s, a)
    case BeginResolve(seedFile) => DoBeginResolve(spec, s, seedFile)
    case LookUp(found) => DoLookUp(spec, s, found)
    case MarkFailed => DoMarkFailed(s)
    case MarkCreating => DoMarkCreating(s)
    case Create(facts, fate, answer) => DoCreate(spec, s, facts, fate, answer)
    case RecordFailure => DoRecordFailure(s)
    case Accept => DoAccept(spec, s)
    case Crash => At(s, Out)
    case Settle(lands) => DoSettle(s, lands)
  }

  function Trace(spec: SeedBuildSpec, s: State, steps: seq<Step>): State
    decreases |steps|
  {
    if |steps| == 0 then s else Trace(spec, Apply(spec, s, steps[0]), steps[1..])
  }

  // ------------------------------------------------------------------ steps and turns

  lemma TraceCons(spec: SeedBuildSpec, s: State, step: Step, rest: seq<Step>)
    ensures Trace(spec, s, [step] + rest) == Trace(spec, Apply(spec, s, step), rest)
  {
    assert ([step] + rest)[1..] == rest;
  }

  function CreateStep(spec: SeedBuildSpec, a: Answers): Step {
    if a.made.Ok? then Create(a.made.value, Landed, None)
    else Create(EnvironmentFacts("", spec.namespace, a.seedFile.immutableRef, "", Sha(spec), ""), Dropped,
                Some(a.made.error))
  }

  function AfterLookup(spec: SeedBuildSpec, a: Answers): seq<Step> {
    if a.matches.Err? then [RecordFailure]
    else if |a.matches.value| > 1 then [MarkFailed]
    else if |a.matches.value| == 1 then [Accept]
    else [MarkCreating] + ([CreateStep(spec, a)] + [if a.made.Err? then RecordFailure else Accept])
  }

  /** One resolution without a crash. */
  function ResolutionSteps(spec: SeedBuildSpec, r: PreparationRecord, a: Answers): seq<Step> {
    if r.seed != Sha(a.seedFile) then [BeginResolve(a.seedFile)]
    else [BeginResolve(a.seedFile)] + ([LookUp(a.matches)] + AfterLookup(spec, a))
  }

  /** The remotes answer the caller of state s as they do in the steps. */
  ghost predicate Consistent(spec: SeedBuildSpec, s: State, a: Answers) {
    && s.pending.None?
    && (a.matches.Ok? ==> Lists(a.matches.value, Matching(spec, s)))
    && (a.made.Ok? ==>
          && Labelled(spec, a.made.value) && a.made.value.image == a.seedFile.immutableRef
          && forall other | other in s.environments :: other.id != a.made.value.id)
  }

  ghost predicate SameAs(s: State, t: Turned) {
    s.disk == t.record && (s.caller.Looping? <==> t.next.Continue?)
  }

  /** Undisturbed, the steps of one resolution are the turn that the service loop takes. */
  lemma ResolutionIsOneTurn(spec: SeedBuildSpec, s: State, a: Answers)
    requires s.caller.Looping? && Resolving(s.disk) && s.disk.request == Sha(spec)
    requires Consistent(spec, s, a)
    ensures SameAs(Trace(spec, s, ResolutionSteps(spec, s.disk, a)), Turn(spec, s.disk, a))
  {
    var began := Apply(spec, s, BeginResolve(a.seedFile));
    if s.disk.seed == Sha(a.seedFile) {
      assert Matching(spec, began) == Matching(spec, s);
      TraceCons(spec, s, BeginResolve(a.seedFile), [LookUp(a.matches)] + AfterLookup(spec, a));
      TraceCons(spec, began, LookUp(a.matches), AfterLookup(spec, a));
      AfterLookupIsTurn(spec, began, a);
    } else {
      assert [BeginResolve(a.seedFile)] == [BeginResolve(a.seedFile)] + [];
      TraceCons(spec, s, BeginResolve(a.seedFile), []);
    }
  }

  lemma OneStep(spec: SeedBuildSpec, s: State, step: Step)
    ensures Trace(spec, s, [step]) == Apply(spec, s, step)
  {
    assert [step] == [step] + [];
    TraceCons(spec, s, step, []);
  }

  lemma AfterLookupIsTurn(spec: SeedBuildSpec, s: State, a: Answers)
    requires s.caller == Looking(a.seedFile) && s.disk.seed == Sha(a.seedFile) && Consistent(spec, s, a)
    ensures SameAs(Trace(spec, Apply(spec, s, LookUp(a.matches)), AfterLookup(spec, a)),
                   ResolveEnvironment(spec, s.disk, a))
  {
    var looked := Apply(spec, s, LookUp(a.matches));
    if a.matches.Err? || |a.matches.value| >= 1 {
      OneStep(spec, looked, AfterLookup(spec, a)[0]);
    } else {
      var last := if a.made.Err? then RecordFailure else Accept;
      var marked := Apply(spec, looked, MarkCreating);
      TraceCons(spec, looked, MarkCreating, [CreateStep(spec, a)] + [last]);
      TraceCons(spec, marked, CreateStep(spec, a), [last]);
      OneStep(spec, Apply(spec, marked, CreateStep(spec, a)), last);
    }
  }

  // ------------------------------------------------------------------ safety

  /** A seed receipt that says what Kova answered for this request. */
  ghost predicate Genuine(spec: SeedBuildSpec, s: State, seed: SeedBuildReceipt) {
    exists results ::
      && results in s.observed
      && results.buildId == seed.buildId
      && results.sourceUri == spec.sourceUri
      && results.sourceDigest == spec.sourceDigest
      && |results.outputs| == 1
      && results.outputs[0].manifest == seed.manifest
      && results.outputs[0].immutableRef == seed.immutableRef
  }

  ghost predicate SeedInv(spec: SeedBuildSpec, s: State) {
    s.disk.seed.Sha? && !s.disk.state.Failed? && !s.disk.state.Cancelled? ==> Genuine(spec, s, s.disk.seed.content)
  }

  /** The Environment that the record names is the only one with the request's label. */
  ghost predicate NamedInv(spec: SeedBuildSpec, s: State) {
    s.disk.state.EnvironmentCreated? || s.disk.state.Ready? ==>
      && s.disk.seed.Sha?
      && exists facts ::
           Matching(spec, s) == {facts} && facts.id == s.disk.environment
           && EnvironmentMatches(spec, s.disk.seed.content, facts)
  }

  ghost predicate ReadyInv(spec: SeedBuildSpec, s: State) {
    s.disk.state.Ready? ==>
      && s.disk.receipt.Sha? && s.disk.seed.Sha?
      && s.disk.receipt.content.request == Sha(spec)
      && s.disk.receipt.content.seed == s.disk.seed
      && s.disk.receipt.content.environment == s.disk.environment
      && s.disk.receipt.content.image == s.disk.seed.content.immutableRef
      && s.disk.receipt.content.manifest == s.disk.seed.content.manifest
  }

  ghost predicate OneEnvironment(spec: SeedBuildSpec, s: State) {
    && |Matching(spec, s)| <= 1
    && (s.pending.Some? ==> Labelled(spec, s.pending.value) && Matching(spec, s) == {})
  }

  ghost predicate CallerInv(spec: SeedBuildSpec, s: State) {
    match s.caller
    case Out => true
    case Looping => true
    case Looking(seed) => Resolving(s.disk) && s.disk.seed == Sha(seed)
    case Rejecting => false
    case Marking(seed) => Resolving(s.disk) && s.disk.seed == Sha(seed) && Matching(spec, s) == {} && s.pending.None?
    case Creating(seed) => Resolving(s.disk) && s.disk.seed == Sha(seed) && Matching(spec, s) == {} && s.pending.None?
    case Failing(_) => Resolving(s.disk)
    case Judging(seed, facts) =>
      Resolving(s.disk) && s.disk.seed == Sha(seed) && Matching(spec, s) == {facts} && s.pending.None?
  }

  ghost predicate Inv(spec: SeedBuildSpec, s: State) {
    && s.disk.request == Sha(spec)
    && (s.disk.state.EnvironmentCreated? || s.disk.state.Ready? ==> s.pending.None?)
    && SeedInv(spec, s)
    && NamedInv(spec, s)
    && ReadyInv(spec, s)
    && OneEnvironment(spec, s)
    && CallerInv(spec, s)
  }

  /** What only depends on the record and on what Kova was seen to answer. */
  ghost predicate RecordInv(spec: SeedBuildSpec, s: State) {
    s.disk.request == Sha(spec) && SeedInv(spec, s) && ReadyInv(spec, s)
  }

  /** A new record for a caller outside resolution. */
  lemma RecordKeeps(spec: SeedBuildSpec, s: State, s': State)
    requires Inv(spec, s)
    requires s' == s.(disk := s'.disk, caller := s'.caller, observed := s'.observed)
    requires s'.caller.Looping? || s'.caller.Out?
    requires RecordInv(spec, s')
    requires s'.disk.state.EnvironmentCreated? || s'.disk.state.Ready? ==>
               && (s.disk.state.EnvironmentCreated? || s.disk.state.Ready?)
               && s'.disk.seed == s.disk.seed && s'.disk.environment == s.disk.environment
    ensures Inv(spec, s')
  {
    assert Matching(spec, s') == Matching(spec, s);
  }

  /** A failure of any kind leaves the genuine receipt, or ends the preparation. */
  lemma FailureKeeps(spec: SeedBuildSpec, s: State, s': State)
    requires Inv(spec, s) && (s'.caller.Looping? || s'.caller.Out?)
    requires s' == s.(disk := s'.disk, caller := s'.caller, observed := s'.observed) && s.observed <= s'.observed
    requires s'.disk.request == s.disk.request && s'.disk.seed == s.disk.seed
    requires s'.disk.environment == s.disk.environment && s'.disk.receipt == s.disk.receipt
    requires s'.disk.state == s.disk.state || s'.disk.state.Failed? || s'.disk.state.Ambiguous?
    requires !s.disk.state.Failed? && !s.disk.state.Cancelled?
    ensures Inv(spec, s')
  {
    SeedSurvives(spec, s, s');
    RecordKeeps(spec, s, s');
  }

  lemma SeedSurvives(spec: SeedBuildSpec, s: State, s': State)
    requires SeedInv(spec, s) && s.observed <= s'.observed && s'.disk.seed == s.disk.seed
    requires !s.disk.state.Failed? && !s.disk.state.Cancelled?
    ensures SeedInv(spec, s')
  {
    if s.disk.seed.Sha? {
      assert Genuine(spec, s, s.disk.seed.content);
      assert Genuine(spec, s', s.disk.seed.content);
    }
  }

  lemma SubmitKeeps(spec: SeedBuildSpec, s: State, a: Answers)
    requires Inv(spec, s) && s.caller.Looping? && Submitting(s.disk)
    ensures Inv(spec, DoOtherTurn(spec, s, a))
  {
    var s' := DoOtherTurn(spec, s, a);
    var t := Submit(spec, s.disk, a);
    assert s'.disk == t.record;
    if t.next.Continue? {
      SeedSurvives(spec, s, s');
      RecordKeeps(spec, s, s');
    } else {
      FailureKeeps(spec, s, s');
    }
  }

  /** A build succeeds on exactly one output of its source, ends without one, or is left as it was. */
  ghost predicate BuildOutcome(spec: SeedBuildSpec, r: PreparationRecord, results: Result<KovaResults, RemoteError>,
                               t: Turned)
  {
    && t.record.request == r.request && t.record.environment == r.environment && t.record.receipt == r.receipt
    && if t.next.Continue? then
         && t.record.state.BuildSucceeded?
         && results.Ok? && |results.value.outputs| == 1
         && results.value.sourceUri == spec.sourceUri && results.value.sourceDigest == spec.sourceDigest
         && t.record.seed.Sha?
         && t.record.seed.content.buildId == results.value.buildId
         && t.record.seed.content.manifest == results.value.outputs[0].manifest
         && t.record.seed.content.immutableRef == results.value.outputs[0].immutableRef
       else if t.record.seed != r.seed then t.record.state.Cancelled? || t.record.state.Failed?
       else
         || t.record.state == r.state
         || t.record.state.Failed? || t.record.state.Ambiguous? || t.record.state.Cancelled?
  }

  lemma EndBuildOutcome(spec: SeedBuildSpec, r: PreparationRecord, build: KovaBuild,
                        results: Result<KovaResults, RemoteError>)
    ensures BuildOutcome(spec, r, results, EndBuild(spec, r, build, results))
  {
  }

  lemma FailureOutcome(spec: SeedBuildSpec, r: PreparationRecord, a: Answers)
    ensures BuildOutcome(spec, r, a.results, Turned(r, Raised(RecoveryRequired)))
    ensures forall e :: BuildOutcome(spec, r, a.results, ObservationFailed(r, e))
    ensures forall code :: BuildOutcome(spec, r, a.results, Turned(ContractFailed(r, code), Raised(Contract)))
  {
  }

  lemma FinishBuildOutcome(spec: SeedBuildSpec, r: PreparationRecord, a: Answers)
    ensures BuildOutcome(spec, r, a.results, FinishBuild(spec, r, a))
  {
    if a.got.Ok? { EndBuildOutcome(spec, r, a.got.value, a.results); }
    if a.waited.Ok? { EndBuildOutcome(spec, r, a.waited.value, a.results); }
    FailureOutcome(spec, r, a);
    hide EndBuild, BuildOutcome, ObservationFailed, ContractFailed, BuildMatches, ResultsMatch;
  }

  lemma FinishBuildKeeps(spec: SeedBuildSpec, s: State, a: Answers)
    requires Inv(spec, s) && s.caller.Looping? && s.disk.state.BuildSubmitted?
    ensures Inv(spec, DoOtherTurn(spec, s, a))
  {
    var s' := DoOtherTurn(spec, s, a);
    var t := FinishBuild(spec, s.disk, a);
    assert s'.disk == t.record;
    FinishBuildOutcome(spec, s.disk, a);
    if t.next.Continue? {
      assert a.results.value in s'.observed;
      assert Genuine(spec, s', s'.disk.seed.content);
      RecordKeeps(spec, s, s');
    } else if t.record.state.Cancelled? || t.record.seed != s.disk.seed {
      RecordKeeps(spec, s, s');
    } else {
      FailureKeeps(spec, s, s');
    }
  }

  lemma FinishEnvironmentKeeps(spec: SeedBuildSpec, s: State, a: Answers)
    requires Inv(spec, s) && s.caller.Looping? && s.disk.state.EnvironmentCreated? && Truthful(s, a)
    ensures Inv(spec, DoOtherTurn(spec, s, a))
  {
    var s' := DoOtherTurn(spec, s, a);
    var t := FinishEnvironment(spec, s.disk, a);
    assert s'.disk == t.record;
    if t.next.Continue? {
      SeedSurvives(spec, s, s');
      assert a.observed.value.id == s.disk.environment;
      RecordKeeps(spec, s, s');
    } else {
      FailureKeeps(spec, s, s');
    }
  }

  lemma OtherTurnKeeps(spec: SeedBuildSpec, s: State, a: Answers)
    requires Inv(spec, s)
    ensures Inv(spec, DoOtherTurn(spec, s, a))
  {
    if s.caller.Looping? && !Resolving(s.disk) && Truthful(s, a) {
      if Submitting(s.disk) {
        SubmitKeeps(spec, s, a);
      } else if s.disk.state.BuildSubmitted? {
        FinishBuildKeeps(spec, s, a);
      } else if s.disk.state.EnvironmentCreated? {
        FinishEnvironmentKeeps(spec, s, a);
      } else {
        var s' := DoOtherTurn(spec, s, a);
        assert Matching(spec, s') == Matching(spec, s);
        RecordKeeps(spec, s, s');
      }
    }
  }

  lemma LookUpKeeps(spec: SeedBuildSpec, s: State, found: Result<seq<EnvironmentFacts>, RemoteError>)
    requires Inv(spec, s)
    ensures Inv(spec, DoLookUp(spec, s, found)) && !DoLookUp(spec, s, found).caller.Rejecting?
  {
    var s' := DoLookUp(spec, s, found);
    assert Matching(spec, s') == Matching(spec, s);
    if s.caller.Looking? && found.Ok? && s.pending.None? && Lists(found.value, Matching(spec, s)) {
      if |found.value| == 1 {
        assert found.value[0] in (set facts | facts in found.value);
        SingletonIs(Matching(spec, s), found.value[0]);
      } else {
        assert |found.value| == 0;
      }
    }
  }

  lemma SingletonIs(all: set<EnvironmentFacts>, facts: EnvironmentFacts)
    requires |all| == 1 && facts in all
    ensures all == {facts}
  {
    assert |all - {facts}| == 0;
  }

  lemma CreateKeeps(spec: SeedBuildSpec, s: State, facts: EnvironmentFacts, fate: Fate, answer: Option<RemoteError>)
    requires Inv(spec, s)
    ensures Inv(spec, DoCreate(spec, s, facts, fate, answer))
  {
    var s' := DoCreate(spec, s, facts, fate, answer);
    if s' != s {
      assert Matching(spec, s') == if fate.Landed? then Matching(spec, s) + {facts} else Matching(spec, s);
    }
  }

  lemma AcceptKeeps(spec: SeedBuildSpec, s: State)
    requires Inv(spec, s)
    ensures Inv(spec, DoAccept(spec, s))
  {
    if s.caller.Judging? {
      var s' := DoAccept(spec, s);
      assert Matching(spec, s') == {s.caller.facts};
      SeedSurvives(spec, s, s');
    }
  }

  lemma SettleKeeps(spec: SeedBuildSpec, s: State, lands: bool)
    requires Inv(spec, s)
    ensures Inv(spec, DoSettle(s, lands))
  {
    var s' := DoSettle(s, lands);
    if s.pending.Some? {
      assert Matching(spec, s') == if lands then {s.pending.value} else {};
    }
  }

  lemma CallerKeeps(spec: SeedBuildSpec, s: State, a: Activity)
    requires Inv(spec, s)
    requires a.Out? || a.Looping? || (a.Looking? && Resolving(s.disk) && s.disk.seed == Sha(a.seed))
    ensures Inv(spec, At(s, a))
  {
    assert Matching(spec, At(s, a)) == Matching(spec, s);
  }

  lemma ResolvingKeeps(spec: SeedBuildSpec, s: State)
    requires Inv(spec, s)
    ensures Inv(spec, DoMarkCreating(s)) && Inv(spec, DoRecordFailure(s))
  {
    if s.caller.Marking? {
      var s' := DoMarkCreating(s);
      assert Matching(spec, s') == Matching(spec, s);
      SeedSurvives(spec, s, s');
    }
    if s.caller.Failing? {
      FailureKeeps(spec, s, DoRecordFailure(s));
    }
  }

  lemma NeverRejecting(spec: SeedBuildSpec, s: State)
    requires Inv(spec, s)
    ensures DoMarkFailed(s) == s
  {
  }

  lemma StepKeeps(spec: SeedBuildSpec, s: State, step: Step)
    requires Inv(spec, s)
    ensures Inv(spec, Apply(spec, s, step))
  {
    hide Inv;
    match step
    case Start => if s.caller.Out? { CallerKeeps(spec, s, Looping); }
    case OtherTurn(a) => OtherTurnKeeps(spec, s, a);
    case BeginResolve(seedFile) =>
      if s.caller.Looping? && Resolving(s.disk) { CallerKeeps(spec, s, DoBeginResolve(spec, s, seedFile).caller); }
    case LookUp(found) => LookUpKeeps(spec, s, found);
    case MarkFailed => NeverRejecting(spec, s);
    case MarkCreating => ResolvingKeeps(spec, s);
    case Create(facts, fate, answer) => CreateKeeps(spec, s, facts, fate, answer);
    case RecordFailure => ResolvingKeeps(spec, s);
    case Accept => AcceptKeeps(spec, s);
    case Crash => CallerKeeps(spec, s, Out);
    case Settle(lands) => SettleKeeps(spec, s, lands);
  }

  lemma {:induction false} TraceKeeps(spec: SeedBuildSpec, s: State, steps: seq<Step>)
    requires Inv(spec, s)
    ensures Inv(spec, Trace(spec, s, steps))
    decreases |steps|
  {
    hide Inv;
    if |steps| > 0 {
      StepKeeps(spec, s, steps[0]);
      TraceKeeps(spec, Apply(spec, s, steps[0]), steps[1..]);
    }
  }

  /**
   * Over any crashes, lost answers and resumes, at most one Environment carries the request digest,
   * and the multiple_environments failure is never reached.
   */
  lemma AtMostOneEnvironment(spec: SeedBuildSpec, environments: set<EnvironmentFacts>, steps: seq<Step>)
    requires |Matching(spec, Init(spec, environments))| <= 1
    ensures
      var s := Trace(spec, Init(spec, environments), steps);
      && |Matching(spec, s) + if s.pending.Some? then {s.pending.value} else {}| <= 1
      && !s.caller.Rejecting?
  {
    TraceKeeps(spec, Init(spec, environments), steps);
    hide Inv, Trace, Matching;
    InvBounds(spec, Trace(spec, Init(spec, environments), steps));
  }

  lemma InvBounds(spec: SeedBuildSpec, s: State)
    requires Inv(spec, s)
    ensures |Matching(spec, s) + if s.pending.Some? then {s.pending.value} else {}| <= 1 && !s.caller.Rejecting?
  {
    hide SeedInv, NamedInv, ReadyInv;
    if s.pending.Some? {
      assert Matching(spec, s) + {s.pending.value} == {s.pending.value};
    } else {
      assert Matching(spec, s) + {} == Matching(spec, s);
    }
  }

  /** A receipt names the one Environment of the request, and the one output of a Kova build of its source. */
  lemma ReadyIsTraceable(spec: SeedBuildSpec, environments: set<EnvironmentFacts>, steps: seq<Step>)
    requires |Matching(spec, Init(spec, environments))| <= 1
    requires Trace(spec, Init(spec, environments), steps).disk.state.Ready?
    ensures
      var s := Trace(spec, Init(spec, environments), steps);
      && s.disk.receipt.Sha? && s.disk.seed.Sha? && s.disk.receipt.content.seed == s.disk.seed
      && (exists facts, results ::
            && Matching(spec, s) == {facts} && facts.id == s.disk.receipt.content.environment
            && results in s.observed && results.buildId == s.disk.seed.content.buildId
            && results.sourceUri == spec.sourceUri && results.sourceDigest == spec.sourceDigest
            && |results.outputs| == 1
            && s.disk.receipt.content.image == results.outputs[0].immutableRef == facts.image
            && s.disk.receipt.content.manifest == results.outputs[0].manifest == facts.manifest)
  {
    TraceKeeps(spec, Init(spec, environments), steps);
    var s := Trace(spec, Init(spec, environments), steps);
    assert Genuine(spec, s, s.disk.seed.content);
  }
}
