/** Environment preparation: its records, its locked writes, and one turn of the resume loop. */
module Preparation {
  import opened Models

  datatype SeedBuildSpec = SeedBuildSpec(
    preparationId: string,
    sourceUri: string,
    sourceDigest: string,
    recipeDigest: string,
    destination: string,
    targetRole: string,
    platform: string,
    format: string,
    idempotencyKey: string,
    namespace: string,
    workingDirectory: string,
    labels: map<string, string>)

  datatype KovaVersion = KovaVersion(version: string, apiVersion: string)

  datatype KovaBuild = KovaBuild(
    id: string,
    status: string,
    sourceUri: string,
    sourceDigest: string,
    idempotencyKey: string,
    failureCode: string)

  datatype KovaOutput = KovaOutput(
    image: string,
    manifest: string,
    immutableRef: string,
    platform: string,
    format: string)

  datatype KovaResults = KovaResults(
    buildId: string,
    sourceUri: string,
    sourceDigest: string,
    idempotencyKey: string,
    outputs: seq<KovaOutput>)

  /** The two labels that preparation relies on are fields of their own. */
  datatype EnvironmentFacts = EnvironmentFacts(
    id: string,
    namespace: string,
    image: string,
    manifest: string,
    preparation: Digest<SeedBuildSpec>,
    platform: string)

  datatype RemoteError = RemoteError(operation: string, code: string, status: int, retryable: bool, ambiguous: bool)

  datatype SeedBuildReceipt = SeedBuildReceipt(
    request: Digest<SeedBuildSpec>,
    sourceUri: string,
    sourceDigest: string,
    recipeDigest: string,
    targetRole: string,
    destination: string,
    platform: string,
    format: string,
    idempotencyKey: string,
    buildId: string,
    version: KovaVersion,
    status: string,
    manifest: string,
    immutableRef: string,
    failureCode: string)

  datatype EnvironmentReceipt = EnvironmentReceipt(
    preparationId: string,
    request: Digest<SeedBuildSpec>,
    seed: Digest<SeedBuildReceipt>,
    environment: string,
    image: string,
    manifest: string,
    platform: string,
    workingDirectory: string)

  datatype PreparationState =
    | New
    | BuildSubmitting
    | BuildSubmitted
    | BuildSucceeded
    | EnvironmentCreating
    | EnvironmentCreated
    | Ready
    | Failed
    | Cancelled
    | Ambiguous

  /** record.json; a receipt is named by the digest that its path contains. */
  datatype PreparationRecord = PreparationRecord(
    request: Digest<SeedBuildSpec>,
    state: PreparationState,
    buildId: string,
    version: KovaVersion,
    seed: Digest<SeedBuildReceipt>,
    environment: string,
    receipt: Digest<EnvironmentReceipt>,
    ambiguousOperation: string,
    diagnosticCode: string,
    remoteStatus: int,
    remoteRetryable: bool)

  function NewPreparation(spec: SeedBuildSpec): PreparationRecord {
    PreparationRecord(Sha(spec), PreparationState.New, "", KovaVersion("", ""), NoDigest, "", NoDigest, "", "", 0,
                      false)
  }

  /** initialize keeps what is there, unless it belongs to another request. */
  function Initialized(disk: Option<PreparationRecord>, persisted: Option<SeedBuildSpec>, spec: SeedBuildSpec)
    : Result<PreparationRecord, Failure>
  {
    if disk.Some? then if disk.value.request != Sha(spec) then Err(RecoveryRequired) else Ok(disk.value)
    else if persisted.Some? && Sha(persisted.value) != Sha(spec) then Err(RecoveryRequired)
    else Ok(NewPreparation(spec))
  }

  // ------------------------------------------------------------------ validators

  predicate SameOrEmpty(answer: string, expected: string) {
    answer == "" || answer == expected
  }

  predicate BuildMatches(spec: SeedBuildSpec, build: KovaBuild) {
    && SameOrEmpty(build.sourceUri, spec.sourceUri)
    && SameOrEmpty(build.sourceDigest, spec.sourceDigest)
    && SameOrEmpty(build.idempotencyKey, spec.idempotencyKey)
  }

  predicate HexDigit(c: char) {
    '0' <= c <= '9' || 'a' <= c <= 'f'
  }

  predicate ValidDigest(s: string) {
    |s| == 71 && s[..7] == "sha256:" && forall i | 7 <= i < 71 :: HexDigit(s[i])
  }

  /** One "@", no scheme, and the digest at the end; the grammar of the name before it is not modelled. */
  predicate ImmutableRef(ref: string, digest: string) {
    && |ref| > |digest| + 1
    && ref[|ref| - |digest| - 1..] == "@" + digest
    && '@' !in ref[..|ref| - |digest| - 1]
    && !HasScheme(ref)
  }

  predicate HasScheme(ref: string) {
    |ref| >= 3 && (ref[..3] == "://" || HasScheme(ref[1..]))
  }

  predicate ResultsMatch(spec: SeedBuildSpec, build: KovaBuild, results: KovaResults) {
    && results.buildId == build.id
    && results.sourceUri == spec.sourceUri
    && results.sourceDigest == spec.sourceDigest
    && results.idempotencyKey == spec.idempotencyKey
    && |results.outputs| == 1
    && results.outputs[0].platform == spec.platform
    && results.outputs[0].format == spec.format
    && results.outputs[0].image == spec.destination
    && ValidDigest(results.outputs[0].manifest)
    && ImmutableRef(results.outputs[0].immutableRef, results.outputs[0].manifest)
  }

  const PLATFORM_LABEL := "linux-amd64"

  predicate EnvironmentMatches(spec: SeedBuildSpec, seed: SeedBuildReceipt, facts: EnvironmentFacts) {
    && facts.namespace == spec.namespace
    && facts.image == seed.immutableRef
    && facts.manifest == seed.manifest
    && facts.preparation == Sha(spec)
    && facts.platform == PLATFORM_LABEL
  }

  function FailedReceipt(spec: SeedBuildSpec, r: PreparationRecord, build: KovaBuild): SeedBuildReceipt {
    SeedBuildReceipt(Sha(spec), spec.sourceUri, spec.sourceDigest, spec.recipeDigest, spec.targetRole,
                     spec.destination, spec.platform, spec.format, spec.idempotencyKey, build.id, r.version,
                     build.status, "", "", build.failureCode)
  }

  function SucceededReceipt(spec: SeedBuildSpec, r: PreparationRecord, build: KovaBuild, results: KovaResults)
    : SeedBuildReceipt
    requires |results.outputs| == 1
  {
    var output := results.outputs[0];
    SeedBuildReceipt(Sha(spec), results.sourceUri, results.sourceDigest, spec.recipeDigest, spec.targetRole,
                     spec.destination, output.platform, output.format, results.idempotencyKey, build.id, r.version,
                     build.status, output.manifest, output.immutableRef, "")
  }

  function ReadyReceipt(spec: SeedBuildSpec, r: PreparationRecord, facts: EnvironmentFacts): EnvironmentReceipt {
    EnvironmentReceipt(spec.preparationId, Sha(spec), r.seed, facts.id, facts.image, facts.manifest,
                       spec.platform, spec.workingDirectory)
  }

  // ------------------------------------------------------------------ locked writes

  function Mark(r: PreparationRecord, state: PreparationState): PreparationRecord {
    r.(state := state)
  }

  function AcceptBuild(r: PreparationRecord, build: KovaBuild, version: KovaVersion): PreparationRecord {
    r.(buildId := build.id, version := version, state := BuildSubmitted, ambiguousOperation := "", diagnosticCode := "")
  }

  function RemoteFailed(r: PreparationRecord, e: RemoteError): PreparationRecord {
    var state := if e.ambiguous then Ambiguous else if !e.retryable then PreparationState.Failed else r.state;
    r.(state := state, ambiguousOperation := if e.ambiguous then e.operation else "", diagnosticCode := e.code,
       remoteStatus := e.status, remoteRetryable := e.retryable)
  }

  function ContractFailed(r: PreparationRecord, code: string): PreparationRecord {
    r.(state := PreparationState.Failed, ambiguousOperation := "", diagnosticCode := code)
  }

  function Diagnose(r: PreparationRecord, code: string): PreparationRecord {
    r.(diagnosticCode := code)
  }

  function FailBuild(r: PreparationRecord, seed: SeedBuildReceipt): PreparationRecord {
    r.(seed := Sha(seed),
       state := if seed.status == "cancelled" then PreparationState.Cancelled else PreparationState.Failed,
       diagnosticCode := if seed.failureCode != "" then seed.failureCode else "kova_build_" + seed.status)
  }

  function SucceedBuild(r: PreparationRecord, seed: SeedBuildReceipt): PreparationRecord {
    r.(seed := Sha(seed), state := BuildSucceeded, diagnosticCode := "")
  }

  function AcceptEnvironment(r: PreparationRecord, environment: string): PreparationRecord {
    r.(environment := environment, state := EnvironmentCreated, ambiguousOperation := "", diagnosticCode := "")
  }

  function Finish(r: PreparationRecord, receipt: EnvironmentReceipt): PreparationRecord {
    r.(receipt := Sha(receipt), state := Ready, diagnosticCode := "")
  }

  // ------------------------------------------------------------------ one turn of the loop

  /** What the remotes and the receipt files answer during one turn. */
  datatype Answers = Answers(
    version: Result<KovaVersion, RemoteError>,
    created: Result<KovaBuild, RemoteError>,
    got: Result<KovaBuild, RemoteError>,
    waited: Result<KovaBuild, RemoteError>,
    results: Result<KovaResults, RemoteError>,
    seedFile: SeedBuildReceipt,
    readyFile: EnvironmentReceipt,
    matches: Result<seq<EnvironmentFacts>, RemoteError>,
    made: Result<EnvironmentFacts, RemoteError>,
    observed: Result<EnvironmentFacts, RemoteError>)

  datatype Next = Continue | Returned(receipt: EnvironmentReceipt) | Raised(error: Failure)

  datatype Turned = Turned(record: PreparationRecord, next: Next)

  function Submit(spec: SeedBuildSpec, r: PreparationRecord, a: Answers): Turned {
    if a.version.Err? then Turned(RemoteFailed(r, a.version.error), Raised(Infrastructure))
    else if a.created.Err? then Turned(RemoteFailed(r, a.created.error), Raised(Infrastructure))
    else if !BuildMatches(spec, a.created.value) then
      Turned(ContractFailed(r, "build_identity_mismatch"), Raised(Contract))
    else if !r.state.BuildSubmitting? && !r.state.Ambiguous? then Turned(r, Raised(RecoveryRequired))
    else Turned(AcceptBuild(r, a.created.value, a.version.value), Continue)
  }

  predicate TerminalStatus(status: string) {
    status == "succeeded" || status == "failed" || status == "cancelled"
  }

  /** A wait that times out is only diagnosed; any other remote error is recorded as a failure. */
  function ObservationFailed(r: PreparationRecord, e: RemoteError): Turned {
    Turned(if e.code == "timeout" then Diagnose(r, e.code) else RemoteFailed(r, e), Raised(Infrastructure))
  }

  function FinishBuild(spec: SeedBuildSpec, r: PreparationRecord, a: Answers): Turned {
    if r.buildId == "" then Turned(r, Raised(RecoveryRequired))
    else if a.got.Err? then ObservationFailed(r, a.got.error)
    else if !BuildMatches(spec, a.got.value) then
      Turned(ContractFailed(r, "build_identity_mismatch"), Raised(Contract))
    else if TerminalStatus(a.got.value.status) then EndBuild(spec, r, a.got.value, a.results)
    else if a.waited.Err? then ObservationFailed(r, a.waited.error)
    else if !BuildMatches(spec, a.waited.value) then
      Turned(ContractFailed(r, "build_identity_mismatch"), Raised(Contract))
    else EndBuild(spec, r, a.waited.value, a.results)
  }

  function EndBuild(spec: SeedBuildSpec, r: PreparationRecord, build: KovaBuild,
                    results: Result<KovaResults, RemoteError>): Turned
  {
    if build.status != "succeeded" then Turned(FailBuild(r, FailedReceipt(spec, r, build)), Raised(Infrastructure))
    else if results.Err? then Turned(RemoteFailed(r, results.error), Raised(Infrastructure))
    else if !ResultsMatch(spec, build, results.value) then
      Turned(ContractFailed(r, "invalid_kova_results"), Raised(Contract))
    else Turned(SucceedBuild(r, SucceededReceipt(spec, r, build, results.value)), Continue)
  }

  /** Looks the Environment up by the request digest, and creates it only if there is none. */
  function ResolveEnvironment(spec: SeedBuildSpec, r: PreparationRecord, a: Answers): Turned {
    if r.seed != Sha(a.seedFile) then Turned(r, Raised(Contract))
    else if a.matches.Err? then Turned(RemoteFailed(r, a.matches.error), Raised(Infrastructure))
    else if |a.matches.value| > 1 then
      Turned(Mark(Diagnose(r, "multiple_environments"), PreparationState.Failed), Raised(Infrastructure))
    else if |a.matches.value| == 1 then JudgeEnvironment(spec, r, a.seedFile, a.matches.value[0])
    else
      var creating := Mark(r, EnvironmentCreating);
      if a.made.Err? then Turned(RemoteFailed(creating, a.made.error), Raised(Infrastructure))
      else JudgeEnvironment(spec, creating, a.seedFile, a.made.value)
  }

  function JudgeEnvironment(spec: SeedBuildSpec, r: PreparationRecord, seed: SeedBuildReceipt, facts: EnvironmentFacts)
    : Turned
  {
    if EnvironmentMatches(spec, seed, facts) then Turned(AcceptEnvironment(r, facts.id), Continue)
    else Turned(ContractFailed(r, "environment_mismatch"), Raised(Contract))
  }

  function FinishEnvironment(spec: SeedBuildSpec, r: PreparationRecord, a: Answers): Turned {
    if r.environment == "" then Turned(r, Raised(RecoveryRequired))
    else if r.seed != Sha(a.seedFile) then Turned(r, Raised(Contract))
    else if a.observed.Err? then Turned(RemoteFailed(r, a.observed.error), Raised(Infrastructure))
    else if !EnvironmentMatches(spec, a.seedFile, a.observed.value) then
      Turned(ContractFailed(r, "environment_mismatch"), Raised(Contract))
    else Turned(Finish(r, ReadyReceipt(spec, r, a.observed.value)), Continue)
  }

  predicate Submitting(r: PreparationRecord) {
    r.state.BuildSubmitting? || (r.state.Ambiguous? && r.ambiguousOperation == "create_build")
  }

  predicate Resolving(r: PreparationRecord) {
    || r.state.BuildSucceeded?
    || r.state.EnvironmentCreating?
    || (r.state.Ambiguous? && r.ambiguousOperation == "create_environment")
  }

  function Turn(spec: SeedBuildSpec, r: PreparationRecord, a: Answers): Turned {
    if r.request != Sha(spec) then Turned(r, Raised(Contract))
    else if r.state.Ready? then
      Turned(r, if r.receipt == Sha(a.readyFile) then Returned(a.readyFile) else Raised(Contract))
    else if r.state.Failed? || r.state.Cancelled? then Turned(r, Raised(Infrastructure))
    else if r.state.New? then Turned(Mark(r, BuildSubmitting), Continue)
    else if Submitting(r) then Submit(spec, r, a)
    else if r.state.BuildSubmitted? then FinishBuild(spec, r, a)
    else if Resolving(r) then ResolveEnvironment(spec, r, a)
    else if r.state.EnvironmentCreated? then FinishEnvironment(spec, r, a)
    else Turned(r, Raised(RecoveryRequired))
  }

  /** How far a preparation has come. */
  function Rank(r: PreparationRecord): nat {
    match r.state
    case New => 0
    case BuildSubmitting => 1
    case BuildSubmitted => 2
    case BuildSucceeded => 3
    case EnvironmentCreating => 4
    case EnvironmentCreated => 5
    case Ready => 6
    case Failed => 6
    case Cancelled => 6
    case Ambiguous => if r.ambiguousOperation == "create_build" then 1
                      else if r.ambiguousOperation == "create_environment" then 4
                      else 6
  }

  /** Each turn returns, raises, or moves strictly forward: the loop takes at most seven turns. */
  lemma TurnAdvances(spec: SeedBuildSpec, r: PreparationRecord, a: Answers)
    ensures Turn(spec, r, a).next.Continue? ==> Rank(r) < Rank(Turn(spec, r, a).record) <= 6
  {
  }

  datatype Resumed = Resumed(record: PreparationRecord, result: Result<EnvironmentReceipt, Failure>)

  function ResumeFrom(spec: SeedBuildSpec, r: PreparationRecord, answers: nat -> Answers, turn: nat): Resumed
    decreases 6 - Rank(r)
  {
    var t := Turn(spec, r, answers(turn));
    TurnAdvances(spec, r, answers(turn));
    match t.next
    case Continue => ResumeFrom(spec, t.record, answers, turn + 1)
    case Returned(receipt) => Resumed(t.record, Ok(receipt))
    case Raised(error) => Resumed(t.record, Err(error))
  }

  /** resume. */
  function Resume(spec: SeedBuildSpec, r: PreparationRecord, timeout: real, answers: nat -> Answers): Resumed {
    if timeout <= 0.0 then Resumed(r, Err(Contract)) else ResumeFrom(spec, r, answers, 0)
  }

  // ------------------------------------------------------------------ records that nothing can move

  /** A state that the loop does not support. */
  predicate Stuck(r: PreparationRecord) {
    r.state.Ambiguous? && r.ambiguousOperation != "create_build" && r.ambiguousOperation != "create_environment"
  }

  /** Some answers of the remotes and of the receipt files carry the record to a ready receipt in one resume. */
  predicate Resumable(spec: SeedBuildSpec, r: PreparationRecord) {
    r.request == Sha(spec) &&
      (|| r.state.New?
       || Submitting(r)
       || (r.state.BuildSubmitted? && r.buildId != "")
       || (Resolving(r) && r.seed.Sha?)
       || (r.state.EnvironmentCreated? && r.seed.Sha? && r.environment != "")
       || (r.state.Ready? && r.receipt.Sha?))
  }

  function Manifest(): string {
    "sha256:" + seq(64, i => '0')
  }

  /** The receipt of a build that Kova makes as requested. */
  function BuiltSeed(spec: SeedBuildSpec, version: KovaVersion): SeedBuildReceipt {
    SeedBuildReceipt(Sha(spec), spec.sourceUri, spec.sourceDigest, spec.recipeDigest, spec.targetRole, spec.destination,
                     spec.platform, spec.format, spec.idempotencyKey, "build", version, "succeeded", Manifest(),
                     "r@" + Manifest(), "")
  }

  function FittingEnvironment(spec: SeedBuildSpec, seed: SeedBuildReceipt): EnvironmentFacts {
    EnvironmentFacts("environment", spec.namespace, seed.immutableRef, seed.manifest, Sha(spec), PLATFORM_LABEL)
  }

  function FittingReceipt(spec: SeedBuildSpec, seed: SeedBuildReceipt): EnvironmentReceipt {
    EnvironmentReceipt(spec.preparationId, Sha(spec), Sha(seed), "environment", seed.immutableRef, seed.manifest,
                       spec.platform, spec.workingDirectory)
  }

  /** Kova builds as requested, and Axern has no Environment yet and makes one of that seed. */
  function Favourable(spec: SeedBuildSpec, seed: SeedBuildReceipt): Answers {
    var build := KovaBuild("build", "succeeded", "", "", "", "");
    var output := KovaOutput(spec.destination, Manifest(), "r@" + Manifest(), spec.platform, spec.format);
    var results := KovaResults("build", spec.sourceUri, spec.sourceDigest, spec.idempotencyKey, [output]);
    var facts := FittingEnvironment(spec, seed);
    Answers(Ok(seed.version), Ok(build), Ok(build), Ok(build), Ok(results), seed, FittingReceipt(spec, seed), Ok([]),
            Ok(facts), Ok(facts))
  }

  lemma {:induction false} NoSlashNoScheme(s: string)
    requires '/' !in s
    ensures !HasScheme(s)
  {
    if |s| >= 3 {
      assert s[..3][1] == s[1] && s[1] in s;
      NoSlashNoScheme(s[1..]);
    }
  }

  lemma ManifestIsValid()
    ensures ValidDigest(Manifest()) && ImmutableRef("r@" + Manifest(), Manifest())
  {
    NoSlashNoScheme("r@" + Manifest());
  }

  lemma ConfirmsEnvironment(spec: SeedBuildSpec, r: PreparationRecord, seed: SeedBuildReceipt, answers: nat -> Answers,
                            turn: nat)
    requires r.request == Sha(spec) && r.state.EnvironmentCreated? && r.seed == Sha(seed) && r.environment != ""
    requires forall i :: answers(i) == Favourable(spec, seed)
    ensures ResumeFrom(spec, r, answers, turn).result == Ok(FittingReceipt(spec, seed))
  {
    var ready := Finish(r, FittingReceipt(spec, seed));
    assert Turn(spec, r, answers(turn)) == Turned(ready, Continue);
    assert ResumeFrom(spec, ready, answers, turn + 1).result == Ok(FittingReceipt(spec, seed));
  }

  lemma MakesEnvironment(spec: SeedBuildSpec, r: PreparationRecord, seed: SeedBuildReceipt, answers: nat -> Answers,
                         turn: nat)
    requires r.request == Sha(spec) && Resolving(r) && r.seed == Sha(seed)
    requires forall i :: answers(i) == Favourable(spec, seed)
    ensures ResumeFrom(spec, r, answers, turn).result == Ok(FittingReceipt(spec, seed))
  {
    var created := AcceptEnvironment(Mark(r, EnvironmentCreating), "environment");
    assert Turn(spec, r, answers(turn)) == Turned(created, Continue);
    ConfirmsEnvironment(spec, created, seed, answers, turn + 1);
  }

  lemma Builds(spec: SeedBuildSpec, r: PreparationRecord, answers: nat -> Answers, turn: nat)
    requires r.request == Sha(spec) && r.state.BuildSubmitted? && r.buildId != ""
    requires forall i :: answers(i) == Favourable(spec, BuiltSeed(spec, r.version))
    ensures ResumeFrom(spec, r, answers, turn).result == Ok(FittingReceipt(spec, BuiltSeed(spec, r.version)))
  {
    var seed := BuiltSeed(spec, r.version);
    ManifestIsValid();
    assert Turn(spec, r, answers(turn)) == Turned(SucceedBuild(r, seed), Continue);
    MakesEnvironment(spec, SucceedBuild(r, seed), seed, answers, turn + 1);
  }

  lemma Submits(spec: SeedBuildSpec, r: PreparationRecord, version: KovaVersion, answers: nat -> Answers, turn: nat)
    requires r.request == Sha(spec) && Submitting(r)
    requires forall i :: answers(i) == Favourable(spec, BuiltSeed(spec, version))
    ensures ResumeFrom(spec, r, answers, turn).result == Ok(FittingReceipt(spec, BuiltSeed(spec, version)))
  {
    var submitted := AcceptBuild(r, answers(turn).created.value, version);
    assert Turn(spec, r, answers(turn)) == Turned(submitted, Continue);
    Builds(spec, submitted, answers, turn + 1);
  }

  lemma Prepares(spec: SeedBuildSpec, r: PreparationRecord, timeout: real) returns (a: Answers)
    requires timeout > 0.0 && Resumable(spec, r)
    ensures Resume(spec, r, timeout, turn => a).result == Ok(a.readyFile)
  {
    var version := if r.state.BuildSubmitted? then r.version else KovaVersion("1", "v1");
    var seed := if Resolving(r) || r.state.EnvironmentCreated? then r.seed.content else BuiltSeed(spec, version);
    a := Favourable(spec, seed);
    if r.state.Ready? { a := a.(readyFile := r.receipt.content); }
    var answers: nat -> Answers := turn => a;
    if r.state.New? {
      assert Turn(spec, r, answers(0)) == Turned(Mark(r, BuildSubmitting), Continue);
      Submits(spec, Mark(r, BuildSubmitting), version, answers, 1);
    } else if Submitting(r) {
      Submits(spec, r, version, answers, 0);
    } else if r.state.BuildSubmitted? {
      Builds(spec, r, answers, 0);
    } else if Resolving(r) {
      MakesEnvironment(spec, r, seed, answers, 0);
    } else if r.state.EnvironmentCreated? {
      ConfirmsEnvironment(spec, r, seed, answers, 0);
    }
  }

  /**
   * Which records one resume can carry to a ready receipt, given the right answers; any other record is
   * left as it is by every resume, whatever the remotes answer.
   */
  lemma ResumableIff(spec: SeedBuildSpec, r: PreparationRecord, timeout: real)
    requires timeout > 0.0
    ensures (exists answers :: Resume(spec, r, timeout, answers).result.Ok?) <==> Resumable(spec, r)
    ensures !Resumable(spec, r) ==>
              forall answers ::
                Resume(spec, r, timeout, answers).record == r && Resume(spec, r, timeout, answers).result.Err?
  {
    if Resumable(spec, r) {
      var a := Prepares(spec, r, timeout);
      var answers: nat -> Answers := turn => a;
      assert Resume(spec, r, timeout, answers).result.Ok?;
    }
  }

  /**
   * A remote failure met while retrying an ambiguous operation ends the preparation if it is final, and
   * strands it for good exactly if it is retryable without being ambiguous, or ambiguous for another
   * operation; otherwise a later resume can still prepare the Environment.
   */
  lemma RetryStrandsIff(spec: SeedBuildSpec, r: PreparationRecord, e: RemoteError, timeout: real)
    requires r.request == Sha(spec) && r.state.Ambiguous? && !Stuck(r) && timeout > 0.0
    ensures
      var r' := RemoteFailed(r, e);
      && ((exists answers :: Resume(spec, r', timeout, answers).result.Ok?)
          <==> e.ambiguous && (e.operation == "create_build" || (e.operation == "create_environment" && r.seed.Sha?)))
      && (r'.state.Failed? <==> !e.ambiguous && !e.retryable)
      && (Stuck(r') <==> if e.ambiguous then e.operation != "create_build" && e.operation != "create_environment"
                         else e.retryable)
  {
    ResumableIff(spec, RemoteFailed(r, e), timeout);
  }

  /** A build submission whose answer was lost. */
  function Unanswered(spec: SeedBuildSpec): PreparationRecord {
    RemoteFailed(Mark(NewPreparation(spec), BuildSubmitting),
                 RemoteError("create_build", "kova_transport_error", 0, true, true))
  }

  /**
   * A submission whose answer was lost, and then a lost connection while asking for the Kova version,
   * before the identical request is replayed.
   */
  lemma VersionErrorStrands(spec: SeedBuildSpec, timeout: real, a: Answers, answers: nat -> Answers)
    requires a.version == Err(RemoteError("kova_version", "kova_transport_error", 0, true, false))
    ensures
      var r := Unanswered(spec);
      var r' := Turn(spec, r, a).record;
      && Resumable(spec, r)
      && r' == RemoteFailed(r, a.version.error)
      && Stuck(r')
      && Resume(spec, r', timeout, answers).record == r' && Resume(spec, r', timeout, answers).result.Err?
  {
    if timeout > 0.0 { ResumableIff(spec, RemoteFailed(Unanswered(spec), a.version.error), timeout); }
  }
}
