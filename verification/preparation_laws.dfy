/** What one turn of the resume loop leaves on record, answer by answer. */
module PreparationLaws {
  import opened Models
  import opened Preparation
  import Protocol = PreparationProtocol

  /** Everything but the state and the diagnosis is kept. */
  predicate SameWork(r: PreparationRecord, r': PreparationRecord) {
    && r'.request == r.request && r'.buildId == r.buildId && r'.version == r.version
    && r'.seed == r.seed && r'.environment == r.environment && r'.receipt == r.receipt
  }

  /** A remote failure is ambiguous, final or neither, and is diagnosed with its code and status. */
  predicate RecordsFailure(r: PreparationRecord, r': PreparationRecord, e: RemoteError) {
    && SameWork(r, r')
    && (if e.ambiguous then r'.state.Ambiguous? && r'.ambiguousOperation == e.operation
        else r'.ambiguousOperation == "" && if e.retryable then r'.state == r.state else r'.state.Failed?)
    && r'.diagnosticCode == e.code && r'.remoteStatus == e.status && r'.remoteRetryable == e.retryable
  }

  predicate Rejects(r: PreparationRecord, r': PreparationRecord, code: string) {
    SameWork(r, r') && r'.state.Failed? && r'.ambiguousOperation == "" && r'.diagnosticCode == code
  }

  /** The build answers for this request, or leaves open what it answers for. */
  predicate Fits(spec: SeedBuildSpec, build: KovaBuild) {
    && build.sourceUri in {"", spec.sourceUri}
    && build.sourceDigest in {"", spec.sourceDigest}
    && build.idempotencyKey in {"", spec.idempotencyKey}
  }

  lemma SubmitTurn(spec: SeedBuildSpec, r: PreparationRecord, a: Answers)
    requires r.request == Sha(spec) && Submitting(r)
    ensures
      var t := Turn(spec, r, a);
      if a.version.Err? then RecordsFailure(r, t.record, a.version.error) && t.next == Raised(Infrastructure)
      else if a.created.Err? then RecordsFailure(r, t.record, a.created.error) && t.next == Raised(Infrastructure)
      else if !Fits(spec, a.created.value) then
        Rejects(r, t.record, "build_identity_mismatch") && t.next == Raised(Contract)
      else
        && t.next.Continue? && t.record.state.BuildSubmitted?
        && t.record.buildId == a.created.value.id && t.record.version == a.version.value
        && t.record.ambiguousOperation == "" && t.record.diagnosticCode == ""
        && t.record.seed == r.seed && t.record.environment == r.environment
  {
  }

  /** The build that a turn judges: the first answer if it is final, and the awaited one otherwise. */
  function Judged(a: Answers): Result<KovaBuild, RemoteError> {
    if a.got.Ok? && a.got.value.status !in {"succeeded", "failed", "cancelled"} then a.waited else a.got
  }

  /** A seed receipt that repeats the request and the end of the build. */
  predicate Reports(spec: SeedBuildSpec, r: PreparationRecord, seed: SeedBuildReceipt, build: KovaBuild) {
    && seed.request == Sha(spec) && seed.buildId == build.id && seed.status == build.status
    && seed.version == r.version && seed.recipeDigest == spec.recipeDigest && seed.targetRole == spec.targetRole
    && seed.sourceUri == spec.sourceUri && seed.sourceDigest == spec.sourceDigest
    && seed.destination == spec.destination && seed.platform == spec.platform && seed.format == spec.format
    && seed.idempotencyKey == spec.idempotencyKey
  }

  /** One output for the requested target, with an immutable reference. */
  predicate Delivers(spec: SeedBuildSpec, build: KovaBuild, results: KovaResults) {
    && results.buildId == build.id && results.sourceUri == spec.sourceUri
    && results.sourceDigest == spec.sourceDigest && results.idempotencyKey == spec.idempotencyKey
    && |results.outputs| == 1
    && var output := results.outputs[0];
    && output.platform == spec.platform && output.format == spec.format && output.image == spec.destination
    && ValidDigest(output.manifest) && ImmutableRef(output.immutableRef, output.manifest)
  }

  /** A build that is refused, lost or unfinished. */
  lemma UnfinishedTurn(spec: SeedBuildSpec, r: PreparationRecord, a: Answers)
    requires r.request == Sha(spec) && r.state.BuildSubmitted? && r.buildId != ""
    ensures
      var t := Turn(spec, r, a);
      && (a.got.Ok? && !Fits(spec, a.got.value) ==>
            Rejects(r, t.record, "build_identity_mismatch") && t.next == Raised(Contract))
      && (a.got.Ok? && Fits(spec, a.got.value) && Judged(a).Ok? && !Fits(spec, Judged(a).value) ==>
            Rejects(r, t.record, "build_identity_mismatch") && t.next == Raised(Contract))
      && ((a.got.Err? || Fits(spec, a.got.value)) && Judged(a).Err? ==>
            && t.next == Raised(Infrastructure)
            && if Judged(a).error.code == "timeout" then t.record == r.(diagnosticCode := "timeout")
               else RecordsFailure(r, t.record, Judged(a).error))
  {
  }

  /** A build that ends without success ends the preparation, as cancelled exactly if it was cancelled. */
  lemma EndedTurn(spec: SeedBuildSpec, r: PreparationRecord, a: Answers)
    requires r.request == Sha(spec) && r.state.BuildSubmitted? && r.buildId != ""
    requires a.got.Ok? && Fits(spec, a.got.value) && Judged(a).Ok? && Fits(spec, Judged(a).value)
    requires Judged(a).value.status != "succeeded"
    ensures
      var t := Turn(spec, r, a);
      var build := Judged(a).value;
      && t.next == Raised(Infrastructure)
      && (if build.status == "cancelled" then t.record.state.Cancelled? else t.record.state.Failed?)
      && t.record.seed.Sha? && Reports(spec, r, t.record.seed.content, build)
      && t.record.seed.content.failureCode == build.failureCode && t.record.seed.content.manifest == ""
      && t.record.diagnosticCode
         == (if build.failureCode != "" then build.failureCode else "kova_build_" + build.status)
      && t.record.buildId == r.buildId && t.record.environment == r.environment && t.record.receipt == r.receipt
  {
  }

  /** A build that succeeds gives a receipt of its one output, if its results fit the request. */
  lemma SucceededTurn(spec: SeedBuildSpec, r: PreparationRecord, a: Answers)
    requires r.request == Sha(spec) && r.state.BuildSubmitted? && r.buildId != ""
    requires a.got.Ok? && Fits(spec, a.got.value) && Judged(a).Ok? && Fits(spec, Judged(a).value)
    requires Judged(a).value.status == "succeeded"
    ensures
      var t := Turn(spec, r, a);
      var build := Judged(a).value;
      if a.results.Err? then RecordsFailure(r, t.record, a.results.error) && t.next == Raised(Infrastructure)
      else if !Delivers(spec, build, a.results.value) then
        Rejects(r, t.record, "invalid_kova_results") && t.next == Raised(Contract)
      else
        && t.next.Continue? && t.record.state.BuildSucceeded? && t.record.diagnosticCode == ""
        && t.record.seed.Sha? && Reports(spec, r, t.record.seed.content, build)
        && t.record.seed.content.manifest == a.results.value.outputs[0].manifest
        && t.record.seed.content.immutableRef == a.results.value.outputs[0].immutableRef
        && t.record.seed.content.failureCode == ""
        && t.record.buildId == r.buildId && t.record.environment == r.environment
  {
    hide ImmutableRef, ValidDigest;
  }

  /** The Environment was made of this seed, for this request. */
  predicate Suits(spec: SeedBuildSpec, seed: SeedBuildReceipt, facts: EnvironmentFacts) {
    && facts.namespace == spec.namespace && facts.preparation == Sha(spec)
    && facts.image == seed.immutableRef && facts.manifest == seed.manifest && facts.platform == "linux-amd64"
  }

  /** An Environment is created only if none is found, and accepted only if it suits the request. */
  lemma ResolveTurn(spec: SeedBuildSpec, r: PreparationRecord, a: Answers)
    requires r.request == Sha(spec) && Resolving(r)
    ensures
      var t := Turn(spec, r, a);
      if r.seed != Sha(a.seedFile) then t.record == r && t.next == Raised(Contract)
      else if a.matches.Err? then RecordsFailure(r, t.record, a.matches.error) && t.next == Raised(Infrastructure)
      else if |a.matches.value| > 1 then
        && t.record == r.(state := PreparationState.Failed, diagnosticCode := "multiple_environments")
        && t.next == Raised(Infrastructure)
      else if a.matches.value == [] && a.made.Err? then
        && RecordsFailure(r.(state := EnvironmentCreating), t.record, a.made.error)
        && t.next == Raised(Infrastructure)
      else
        var facts := if a.matches.value == [] then a.made.value else a.matches.value[0];
        if !Suits(spec, a.seedFile, facts) then
          Rejects(r, t.record, "environment_mismatch") && t.next == Raised(Contract)
        else
          && t.next.Continue? && t.record.state.EnvironmentCreated? && t.record.environment == facts.id
          && t.record.ambiguousOperation == "" && t.record.diagnosticCode == ""
          && t.record.seed == r.seed && t.record.buildId == r.buildId
  {
  }

  /** The receipt repeats what Axern confirms. */
  lemma ConfirmTurn(spec: SeedBuildSpec, r: PreparationRecord, a: Answers)
    requires r.request == Sha(spec) && r.state.EnvironmentCreated? && r.environment != "" && r.seed == Sha(a.seedFile)
    ensures
      var t := Turn(spec, r, a);
      if a.observed.Err? then RecordsFailure(r, t.record, a.observed.error) && t.next == Raised(Infrastructure)
      else if !Suits(spec, a.seedFile, a.observed.value) then
        Rejects(r, t.record, "environment_mismatch") && t.next == Raised(Contract)
      else
        && t.next.Continue? && t.record.state.Ready? && t.record.diagnosticCode == ""
        && t.record.receipt == Sha(EnvironmentReceipt(
             spec.preparationId, r.request, r.seed, a.observed.value.id, a.seedFile.immutableRef, a.seedFile.manifest,
             spec.platform, spec.workingDirectory))
        && t.record.environment == r.environment && t.record.seed == r.seed
  {
  }

  /** The turns that ask nobody: a first one is marked, an ended one is repeated, any other is refused. */
  lemma QuietTurn(spec: SeedBuildSpec, r: PreparationRecord, a: Answers)
    ensures
      var t := Turn(spec, r, a);
      && (r.request != Sha(spec) ==> t == Turned(r, Raised(Contract)))
      && (r.request == Sha(spec) ==>
            && (r.state.New? ==> t == Turned(r.(state := BuildSubmitting), Continue))
            && (r.state.Ready? ==>
                  t == Turned(r, if r.receipt == Sha(a.readyFile) then Returned(a.readyFile) else Raised(Contract)))
            && (r.state.Failed? || r.state.Cancelled? ==> t == Turned(r, Raised(Infrastructure)))
            && (r.state.BuildSubmitted? && r.buildId == "" ==> t == Turned(r, Raised(RecoveryRequired)))
            && (r.state.EnvironmentCreated? && r.environment == "" ==> t == Turned(r, Raised(RecoveryRequired)))
            && (r.state.EnvironmentCreated? && r.environment != "" && r.seed != Sha(a.seedFile) ==>
                  t == Turned(r, Raised(Contract)))
            && (r.state.Ambiguous? && r.ambiguousOperation !in {"create_build", "create_environment"} ==>
                  t == Turned(r, Raised(RecoveryRequired))))
  {
  }

  // ------------------------------------------------------------------ immutable references

  predicate LowerHex(c: char) {
    c in {'0', '1', '2', '3', '4', '5', '6', '7', '8', '9', 'a', 'b', 'c', 'd', 'e', 'f'}
  }

  predicate SchemeAt(s: string, i: nat) {
    i + 3 <= |s| && s[i] == ':' && s[i + 1] == '/' && s[i + 2] == '/'
  }

  lemma {:induction false} SchemeIff(s: string)
    ensures HasScheme(s) <==> exists i: nat :: SchemeAt(s, i)
    decreases |s|
  {
    if |s| >= 3 {
      SchemeIff(s[1..]);
      assert SchemeAt(s, 0) <==> s[..3] == "://" by { assert s[..3] == [s[0], s[1], s[2]]; }
      forall i: nat | SchemeAt(s[1..], i) ensures SchemeAt(s, i + 1) {}
      forall i: nat | SchemeAt(s, i) ensures i == 0 || SchemeAt(s[1..], i - 1) {}
    }
  }

  /** A manifest digest is 64 lower-case hexadecimal digits of SHA-256. */
  lemma DigestIff(s: string)
    ensures ValidDigest(s) <==>
              exists hex: string :: s == "sha256:" + hex && |hex| == 64 && forall c | c in hex :: LowerHex(c)
  {
    if ValidDigest(s) {
      var hex := s[7..];
      assert s == "sha256:" + hex;
      forall c | c in hex ensures LowerHex(c) {
        var i :| 0 <= i < |hex| && hex[i] == c;
        assert HexDigit(s[i + 7]);
      }
    }
    if hex: string :| s == "sha256:" + hex && |hex| == 64 && forall c | c in hex :: LowerHex(c) {
      assert s[..7] == "sha256:";
      forall i | 7 <= i < 71 ensures HexDigit(s[i]) { assert s[i] == hex[i - 7] && hex[i - 7] in hex; }
    }
  }

  /** An immutable reference is a scheme-free name, one "@", and the digest. */
  lemma ImmutableRefIff(ref: string, digest: string)
    ensures ImmutableRef(ref, digest) <==>
              !HasScheme(ref) && exists name: string :: name != "" && '@' !in name && ref == name + "@" + digest
  {
    if ImmutableRef(ref, digest) {
      var name := ref[..|ref| - |digest| - 1];
      assert ref == name + "@" + digest;
    }
    if name: string :| name != "" && '@' !in name && ref == name + "@" + digest {
      assert ref[|ref| - |digest| - 1..] == "@" + digest && ref[..|ref| - |digest| - 1] == name;
    }
  }

  // ------------------------------------------------------------------ over whole runs

  /** How a preparation that Kova ended is recorded. */
  predicate EndRecorded(r: PreparationRecord) {
    && (r.state.Cancelled? ==> r.seed.Sha? && r.seed.content.status == "cancelled")
    && (r.seed.Sha? && r.seed.content.status != "succeeded" ==>
          if r.seed.content.status == "cancelled" then r.state.Cancelled? else r.state.Failed?)
  }

  lemma BuildEndRecorded(spec: SeedBuildSpec, r: PreparationRecord, build: KovaBuild,
                         results: Result<KovaResults, RemoteError>)
    requires EndRecorded(r) && !r.state.Failed? && !r.state.Cancelled?
    ensures EndRecorded(EndBuild(spec, r, build, results).record)
  {
    hide ResultsMatch;
  }

  lemma FinishEndRecorded(spec: SeedBuildSpec, r: PreparationRecord, a: Answers)
    requires EndRecorded(r) && r.state.BuildSubmitted?
    ensures EndRecorded(FinishBuild(spec, r, a).record)
  {
    if a.got.Ok? { BuildEndRecorded(spec, r, a.got.value, a.results); }
    if a.waited.Ok? { BuildEndRecorded(spec, r, a.waited.value, a.results); }
    hide EndBuild, BuildMatches;
  }

  lemma OthersEndRecorded(spec: SeedBuildSpec, r: PreparationRecord, a: Answers)
    requires EndRecorded(r) && !r.state.Failed? && !r.state.Cancelled?
    ensures EndRecorded(Submit(spec, r, a).record)
    ensures EndRecorded(ResolveEnvironment(spec, r, a).record) && EndRecorded(FinishEnvironment(spec, r, a).record)
  {
    hide BuildMatches, EnvironmentMatches;
  }

  lemma TurnEndRecorded(spec: SeedBuildSpec, r: PreparationRecord, a: Answers)
    requires EndRecorded(r)
    ensures EndRecorded(Turn(spec, r, a).record)
  {
    if r.state.BuildSubmitted? {
      FinishEndRecorded(spec, r, a);
    } else if !r.state.Failed? && !r.state.Cancelled? {
      OthersEndRecorded(spec, r, a);
    }
    hide FinishBuild, Submit, ResolveEnvironment, FinishEnvironment;
  }

  lemma StepEndRecorded(spec: SeedBuildSpec, s: Protocol.State, step: Protocol.Step)
    requires Protocol.Inv(spec, s) && EndRecorded(s.disk)
    ensures EndRecorded(Protocol.Apply(spec, s, step).disk)
  {
    if step.OtherTurn? {
      TurnEndRecorded(spec, s.disk, step.answers);
      hide Turn, EndRecorded, Protocol.Inv;
    } else {
      hide Turn;
    }
  }

  lemma {:induction false} TraceEndRecorded(spec: SeedBuildSpec, s: Protocol.State, steps: seq<Protocol.Step>)
    requires Protocol.Inv(spec, s) && EndRecorded(s.disk)
    ensures EndRecorded(Protocol.Trace(spec, s, steps).disk)
    decreases |steps|
  {
    hide Protocol.Inv, EndRecorded;
    if |steps| > 0 {
      StepEndRecorded(spec, s, steps[0]);
      Protocol.StepKeeps(spec, s, steps[0]);
      TraceEndRecorded(spec, Protocol.Apply(spec, s, steps[0]), steps[1..]);
    }
  }

  /** Over any crashes and resumes: cancelled means that Kova reported a cancelled build, and failed any other end. */
  lemma EndIsReported(spec: SeedBuildSpec, environments: set<EnvironmentFacts>, steps: seq<Protocol.Step>)
    requires |Protocol.Matching(spec, Protocol.Init(spec, environments))| <= 1
    ensures
      var r := Protocol.Trace(spec, Protocol.Init(spec, environments), steps).disk;
      && (r.state.Cancelled? <==> r.seed.Sha? && r.seed.content.status == "cancelled")
      && (r.seed.Sha? && r.seed.content.status !in {"cancelled", "succeeded"} ==> r.state.Failed?)
  {
    TraceEndRecorded(spec, Protocol.Init(spec, environments), steps);
  }
}
