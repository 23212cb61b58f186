/** Two readers of a finished record: recovery by the runner, and independent verification. */
module Reports {
  import opened Models
  import Bundles = Candidates
  import Evidence = Qualification
  import EvidenceSafety = QualificationSafety
  import Completion = EpisodeCompletion
  import Protocol = EpisodeProtocol
  import Records = EpisodeRecords
  import Store = EpisodeStores

  /**
   * The files that a record refers to; results are those of EpisodeStore. Trajectory bundles and the
   * progress file are represented by whether their own checks against the record succeed.
   */
  datatype Stores = Stores(
    bundles: Bundles.Bundles,
    results: map<Digest<VerificationResult>, VerificationResult>,
    evidence: Option<QualificationResult>,
    trajectory: bool,
    progress: bool)

  predicate ValidCandidate(b: CandidateBundle, e: Episode, inference: Option<ExecutionRef>) {
    && b.manifest.episodeId == e.id
    && b.manifest.taskId == e.taskId
    && b.manifest.seedDigest == e.seedDigest
    && b.manifest.harness == e.harness
    && b.manifest.candidate == e.candidate
    && inference.Some?
    && b.manifest.inferenceRun == inference.value.run
    && inference.value.environment == e.inferenceEnvironment.environment
  }

  predicate ValidResult(v: VerificationResult, e: Episode, b: CandidateBundle) {
    v.candidateDigest == b.digest && v.verifier == e.verifier
  }

  function LoadCandidate(s: Stores, e: Episode, r: EpisodeRecord): Result<CandidateBundle, Failure> {
    if r.candidateManifest !in s.bundles then Err(Contract)
    else
      var loaded := Bundles.Load(s.bundles[r.candidateManifest]);
      if loaded.Err? then loaded
      else if loaded.value.digest != r.candidateDigest then Err(Contract)
      else if !ValidCandidate(loaded.value, e, r.inference) then Err(Contract)
      else loaded
  }

  function LoadResult(s: Stores, path: Digest<VerificationResult>, digest: Digest<VerificationResult>)
    : Result<VerificationResult, Failure>
  {
    Store.StoredResult(s.results, path, digest)
  }

  /** What the runner trusts of a completed record. */
  function LoadVerification(s: Stores, e: Episode, r: EpisodeRecord): Result<VerificationResult, Failure> {
    var candidate := LoadCandidate(s, e, r);
    if candidate.Err? then Err(candidate.error)
    else
      var result := LoadResult(s, r.verificationResult, r.verificationResultDigest);
      if result.Err? then result
      else if !ValidResult(result.value, e, candidate.value) then Err(Contract)
      else if r.verification.None? || r.verification.value.environment != e.verificationEnvironment.environment
              || r.inference.None? || r.verification.value.run == r.inference.value.run then Err(Contract)
      else result
  }

  datatype Report = Report(
    qualification: Option<QualificationResult>,
    candidate: Option<CandidateBundle>,
    result: Option<VerificationResult>)

  function VerifiedQualification(k: Evidence.Context, s: Stores, r: EpisodeRecord)
    : Result<Option<QualificationResult>, Failure>
  {
    if (r.qualificationResult != "") != r.qualificationResultDigest.Sha? then Err(Contract)
    else if r.qualificationResult == "" then Ok(None)
    else
      var loaded := Evidence.Load(k, r, s.evidence);
      if loaded.Err? then Err(loaded.error) else Ok(Some(loaded.value))
  }

  function VerifiedCandidate(e: Episode, s: Stores, r: EpisodeRecord): Result<Option<CandidateBundle>, Failure> {
    if r.candidateManifest.Sha? != r.candidateDigest.Sha? then Err(Contract)
    else if r.candidateManifest.NoDigest? then Ok(None)
    else
      var loaded := LoadCandidate(s, e, r);
      if loaded.Err? then Err(loaded.error) else Ok(Some(loaded.value))
  }

  function VerifiedResult(e: Episode, s: Stores, r: EpisodeRecord, candidate: Option<CandidateBundle>)
    : Result<Option<VerificationResult>, Failure>
  {
    if r.verificationResult.Sha? != r.verificationResultDigest.Sha? then Err(Contract)
    else if r.verificationResult.NoDigest? then Ok(None)
    else
      var loaded := LoadResult(s, r.verificationResult, r.verificationResultDigest);
      if loaded.Err? then Err(loaded.error)
      else if candidate.None? || !ValidResult(loaded.value, e, candidate.value) then Err(Contract)
      else Ok(Some(loaded.value))
  }

  predicate ExecutionsFit(e: Episode, r: EpisodeRecord) {
    && (r.inference.Some? ==> r.inference.value.environment == e.inferenceEnvironment.environment)
    && (r.verification.Some? ==>
          && r.verification.value.environment == e.verificationEnvironment.environment
          && (r.inference.Some? ==> r.verification.value.run != r.inference.value.run))
  }

  /** verify_record. */
  function Verify(k: Evidence.Context, s: Stores, r: EpisodeRecord): Result<Report, Failure> {
    var e := k.episode;
    var qualification := VerifiedQualification(k, s, r);
    if qualification.Err? then Err(qualification.error)
    else
      var candidate := VerifiedCandidate(e, s, r);
      if candidate.Err? then Err(candidate.error)
      else if (r.trajectoryManifest != "") != (r.trajectoryDigest != "")
              || (r.trajectoryManifest != "" && !s.trajectory) then Err(Contract)
      else
        var result := VerifiedResult(e, s, r, candidate.value);
        if result.Err? then Err(result.error)
        else if !ExecutionsFit(e, r) then Err(Contract)
        else if r.progressPath != "" && !s.progress then Err(Contract)
        else if r.phase.Completed?
                && (qualification.value.None? || candidate.value.None? || result.value.None?
                    || r.verification.None?) then
          Err(Contract)
        else Ok(Report(qualification.value, candidate.value, result.value))
  }

  // ------------------------------------------------------------------ what the writers guarantee

  /** The candidate was persisted for this episode and Run before the record names it, and so on. */
  ghost predicate FromAdapters(e: Episode, s: Stores, w: Records.Write) {
    match w
    case CommittingCandidate(x, candidate, trajectory) =>
      && candidate.Sha?
      && candidate in s.bundles
      && Bundles.Load(s.bundles[candidate]) == Ok(CandidateBundle(candidate.content, candidate))
      && candidate.content == Bundles.ManifestFor(e, x.run, e.harness, candidate.content.files)
      && (trajectory.Some? ==> trajectory.value.0 != "" && trajectory.value.1 != "")
    case Finishing(x, v, multiRun, now) => Sha(v) in s.results && s.results[Sha(v)] == v
    case CommittingQualification(executions, path, digest) => path != "" && digest.Sha?
    case _ => true
  }

  /** The references of a record agree with each other and with the stored files. */
  ghost predicate Referenced(e: Episode, s: Stores, r: EpisodeRecord) {
    && r.candidateManifest == r.candidateDigest
    && r.verificationResult == r.verificationResultDigest
    && (r.qualificationResult != "" <==> r.qualificationResultDigest.Sha?)
    && (r.trajectoryManifest != "" <==> r.trajectoryDigest != "")
    && (r.candidateManifest.Sha? ==>
          && Records.Rank(r.phase) >= 2
          && LoadCandidate(s, e, r).Ok?
          && LoadCandidate(s, e, r).value.digest == r.candidateDigest)
    && (r.verificationResult.Sha? ==>
          && r.phase.Completed?
          && LoadResult(s, r.verificationResult, r.verificationResultDigest) == Ok(r.verificationResult.content))
    && (r.phase.CandidateReady? || r.phase.VerificationRunning? || r.phase.Completed? ==> r.candidateManifest.Sha?)
  }

  /** Sections that leave every reference as it is. */
  ghost predicate LeavesReferences(w: Records.Write) {
    !w.CommittingCandidate? && !w.Finishing? && !w.CommittingQualification?
  }

  ghost predicate SameReferences(r: EpisodeRecord, r': EpisodeRecord) {
    && r'.candidateManifest == r.candidateManifest && r'.candidateDigest == r.candidateDigest
    && r'.verificationResult == r.verificationResult && r'.verificationResultDigest == r.verificationResultDigest
    && r'.qualificationResult == r.qualificationResult && r'.qualificationResultDigest == r.qualificationResultDigest
    && r'.trajectoryManifest == r.trajectoryManifest && r'.trajectoryDigest == r.trajectoryDigest
  }

  lemma ReferencesLeft(e: Episode, r: EpisodeRecord, w: Records.Write)
    requires LeavesReferences(w)
    ensures SameReferences(r, Records.Section(e, r, w).record)
    ensures Records.Section(e, r, w).record.phase.Completed? ==> r.phase.Completed?
    ensures Records.Section(e, r, w).record.phase.CandidateReady? ==> r.phase.CandidateReady?
    ensures Records.Section(e, r, w).record.phase.VerificationRunning? ==>
              r.phase.VerificationRunning? || r.phase.CandidateReady?
  {
    hide Records.CommitCandidate, Records.Finish, Records.CommitQualification;
  }

  lemma SectionReferenced(e: Episode, s: Stores, r: EpisodeRecord, w: Records.Write)
    requires Records.Sound(e, r) && Referenced(e, s, r) && FromAdapters(e, s, w)
    ensures Referenced(e, s, Records.Section(e, r, w).record)
  {
    Records.SectionLawful(e, r, w);
    if LeavesReferences(w) {
      ReferencesLeft(e, r, w);
    } else {
      CommitReferenced(e, s, r, w);
    }
  }

  lemma CommitReferenced(e: Episode, s: Stores, r: EpisodeRecord, w: Records.Write)
    requires Records.Sound(e, r) && Referenced(e, s, r) && FromAdapters(e, s, w) && !LeavesReferences(w)
    ensures Referenced(e, s, Records.Section(e, r, w).record)
  {
    match w
    case CommittingCandidate(x, candidate, trajectory) => CandidateReferenced(e, s, r, x, candidate, trajectory);
    case Finishing(x, v, multiRun, now) => ResultReferenced(e, s, r, x, v, multiRun, now);
    case CommittingQualification(executions, path, digest) =>
  }

  lemma CandidateReferenced(e: Episode, s: Stores, r: EpisodeRecord, x: ExecutionRef,
                            candidate: Digest<CandidateManifest>, trajectory: Option<(string, string, string)>)
    requires Records.Sound(e, r) && Referenced(e, s, r)
    requires FromAdapters(e, s, Records.CommittingCandidate(x, candidate, trajectory))
    ensures Referenced(e, s, Records.CommitCandidate(e, r, x, candidate, trajectory).record)
  {
  }

  lemma ResultReferenced(e: Episode, s: Stores, r: EpisodeRecord, x: ExecutionRef, v: VerificationResult,
                         multiRun: bool, now: string)
    requires Records.Sound(e, r) && Referenced(e, s, r)
    requires FromAdapters(e, s, Records.Finishing(x, v, multiRun, now))
    ensures Referenced(e, s, Records.Finish(e, r, x, v, multiRun, now).record)
  {
    hide Bundles.Load, ValidCandidate;
  }

  lemma {:induction false} HistoryReferenced(e: Episode, s: Stores, r: EpisodeRecord, ws: seq<Records.Write>)
    requires Records.Sound(e, r) && Referenced(e, s, r)
    requires forall w | w in ws :: FromAdapters(e, s, w)
    ensures Records.Sound(e, Records.History(e, r, ws)) && Referenced(e, s, Records.History(e, r, ws))
    decreases |ws|
  {
    if |ws| > 0 {
      Records.SectionLawful(e, r, ws[0]);
      SectionReferenced(e, s, r, ws[0]);
      HistoryReferenced(e, s, Records.Section(e, r, ws[0]).record, ws[1..]);
    }
  }

  /** Every completed record that the writers can produce is trusted by recovery. */
  lemma CompletedIsTrusted(e: Episode, s: Stores, now: string, ws: seq<Records.Write>)
    requires forall w | w in ws :: FromAdapters(e, s, w)
    requires Records.History(e, NewRecord(now), ws).phase.Completed?
    ensures
      var r := Records.History(e, NewRecord(now), ws);
      r.verificationResult.Sha? && LoadVerification(s, e, r) == Ok(r.verificationResult.content)
  {
    HistoryReferenced(e, s, NewRecord(now), ws);
  }

  /**
   * Verification accepts a record of the writers exactly if its qualification, trajectory and
   * progress files pass their own checks, and a completed one was qualified at all.
   */
  lemma VerifyIff(k: Evidence.Context, s: Stores, now: string, ws: seq<Records.Write>)
    requires forall w | w in ws :: FromAdapters(k.episode, s, w)
    ensures
      var r := Records.History(k.episode, NewRecord(now), ws);
      Verify(k, s, r).Ok?
      <==>
        && (r.qualificationResult != "" ==> Evidence.Load(k, r, s.evidence).Ok?)
        && (r.trajectoryManifest != "" ==> s.trajectory)
        && (r.progressPath != "" ==> s.progress)
        && (r.phase.Completed? ==> r.qualificationResult != "")
  {
    var e := k.episode;
    var r := Records.History(e, NewRecord(now), ws);
    HistoryReferenced(e, s, NewRecord(now), ws);
    CandidateVerifies(e, s, r);
  }

  // ------------------------------------------------------------------ with the qualifiers

  /** Only the record and its sections: what a qualifier's step does to it. */
  lemma StepReferenced(k: Evidence.Context, s: Stores, q: Evidence.State, step: Evidence.Step)
    requires Records.Sound(k.episode, q.disk) && Referenced(k.episode, s, q.disk)
    requires step.OtherWriter? ==> FromAdapters(k.episode, s, step.w)
    ensures
      var r := Evidence.Apply(k, q, step).disk;
      Records.Sound(k.episode, r) && Referenced(k.episode, s, r)
  {
    var e := k.episode;
    var w := EvidenceSafety.SectionOf(k, q, step);
    EvidenceSafety.StepIsSection(k, q, step);
    hide Referenced, Records.Sound, Evidence.Apply;
    if Evidence.Apply(k, q, step).disk != q.disk {
      assert FromAdapters(e, s, w);
      Records.SectionLawful(e, q.disk, w);
      SectionReferenced(e, s, q.disk, w);
    }
  }

  lemma {:induction false} TraceReferenced(k: Evidence.Context, s: Stores, q: Evidence.State, steps: seq<Evidence.Step>)
    requires Records.Sound(k.episode, q.disk) && Referenced(k.episode, s, q.disk)
    requires forall step | step in steps && step.OtherWriter? :: FromAdapters(k.episode, s, step.w)
    ensures
      var r := Evidence.Trace(k, q, steps).disk;
      Records.Sound(k.episode, r) && Referenced(k.episode, s, r)
    decreases |steps|
  {
    hide Referenced, Records.Sound, Evidence.Apply, FromAdapters;
    if |steps| > 0 {
      StepReferenced(k, s, q, steps[0]);
      TraceReferenced(k, s, Evidence.Apply(k, q, steps[0]), steps[1..]);
    }
  }

  /**
   * Over any racing, crashing qualifiers and any writers of the record, independent verification of what
   * they leave can only fail for a trajectory or progress file, or for a completion without qualification:
   * evidence that was committed always passes.
   */
  lemma EvidenceVerifies(k: Evidence.Context, s: Stores, now: string, steps: seq<Evidence.Step>)
    requires forall step | step in steps && step.OtherWriter? :: FromAdapters(k.episode, s, step.w)
    requires s.evidence == Evidence.Trace(k, Evidence.Init(now), steps).file
    ensures
      var r := Evidence.Trace(k, Evidence.Init(now), steps).disk;
      Verify(k, s, r).Ok?
      <==>
        && (r.trajectoryManifest != "" ==> s.trajectory)
        && (r.progressPath != "" ==> s.progress)
        && (r.phase.Completed? ==> r.qualificationResult != "")
  {
    var q := Evidence.Trace(k, Evidence.Init(now), steps);
    TraceReferenced(k, s, Evidence.Init(now), steps);
    assert EvidenceSafety.Reachable(k, q);
    hide EvidenceSafety.Reachable, Evidence.Trace, Records.Sound, ExecutionsFit;
    if q.disk.qualificationResult != "" {
      EvidenceSafety.CommittedLoads(k, q);
    }
    CandidateVerifies(k.episode, s, q.disk);
  }

  lemma CandidateVerifies(e: Episode, s: Stores, r: EpisodeRecord)
    requires Records.Sound(e, r) && Referenced(e, s, r)
    ensures VerifiedCandidate(e, s, r).Ok? && (VerifiedCandidate(e, s, r).value.Some? <==> r.candidateManifest.Sha?)
    ensures
      var result := VerifiedResult(e, s, r, VerifiedCandidate(e, s, r).value);
      result.Ok? && (result.value.Some? <==> r.verificationResult.Sha?)
    ensures ExecutionsFit(e, r)
  {
  }

  /** A candidate from persist_candidate is what the record may name. */
  lemma PersistedIsFromAdapters(e: Episode, s: Stores, x: ExecutionRef, outputs: seq<Bundles.Required>,
                                artifacts: seq<Bundles.Artifact>, before: Bundles.Bundles)
    requires
      var p := Bundles.Persist(before, e, x.run, e.harness, outputs, artifacts);
      p.result.Ok? && Bundles.Kept(p.bundles, s.bundles)
    ensures
      var p := Bundles.Persist(before, e, x.run, e.harness, outputs, artifacts);
      FromAdapters(e, s, Records.CommittingCandidate(x, p.result.value.digest, None))
  {
    Bundles.PersistLoads(before, e, x.run, e.harness, outputs, artifacts);
  }

  /**
   * Nothing makes a caller qualify: an episode that was never qualified completes undisturbed with any
   * persisted candidate and any fitting verdict, recovery trusts it, and independent verification refuses it.
   */
  lemma UnqualifiedIsRefused(k: Evidence.Context, s: Stores, now: string, outputs: seq<Bundles.Required>,
                             artifacts: seq<Bundles.Artifact>, before: Bundles.Bundles, v: VerificationResult)
    returns (reached: Protocol.State)
    requires
      var p := Bundles.Persist(before, k.episode, "i", k.episode.harness, outputs, artifacts);
      && p.result.Ok? && Bundles.Kept(p.bundles, s.bundles)
      && v.candidateDigest == p.result.value.digest
    requires v.verifier == k.episode.verifier && Sha(v) in s.results && s.results[Sha(v)] == v
    ensures Completion.Reaches(k.episode, Protocol.Init(now), reached) && reached.disk.phase.Completed?
    ensures LoadVerification(s, k.episode, reached.disk) == Ok(v)
    ensures Verify(k, s, reached.disk).Err?
  {
    var e := k.episode;
    Bundles.PersistLoads(before, e, "i", e.harness, outputs, artifacts);
    hide Completion.Reaches, Bundles.Load, Bundles.Persist;
    reached := Completion.UndisturbedCompletes(e, now, v.candidateDigest, v);
    var p := Bundles.Persist(before, e, "i", e.harness, outputs, artifacts);
    assert s.bundles[v.candidateDigest] == p.bundles[v.candidateDigest];
    assert VerifiedQualification(k, s, reached.disk).Err? || VerifiedQualification(k, s, reached.disk).value.None?;
  }
}
