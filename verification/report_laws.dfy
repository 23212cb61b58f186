/** What both readers of a record accept, for any record and any files, also ones that no writer left. */
module ReportLaws {
  import opened Models
  import opened Reports
  import Bundles = Candidates
  import Evidence = Qualification

  /** The bundle that the record names is intact, and comes from this episode and from its inference Run. */
  ghost predicate GenuineBundle(s: Stores, e: Episode, r: EpisodeRecord, b: CandidateBundle) {
    && r.candidateManifest in s.bundles
    && r.candidateDigest == b.digest == Sha(b.manifest)
    && s.bundles[r.candidateManifest].manifest == b.manifest
    && s.bundles[r.candidateManifest].digest == b.digest
    && (forall file | file in b.manifest.files ::
          && file.bundlePath in s.bundles[r.candidateManifest].files
          && |s.bundles[r.candidateManifest].files[file.bundlePath]| == file.size
          && Sha(s.bundles[r.candidateManifest].files[file.bundlePath]) == file.sha256)
    && b.manifest.episodeId == e.id
    && b.manifest.taskId == e.taskId
    && b.manifest.seedDigest == e.seedDigest
    && b.manifest.harness == e.harness
    && b.manifest.candidate == e.candidate
    && r.inference.Some?
    && r.inference.value.run == b.manifest.inferenceRun
    && r.inference.value.environment == e.inferenceEnvironment.environment
  }

  /** The stored verdict has the recorded digest, and is about this candidate and from this verifier. */
  ghost predicate GenuineVerdict(s: Stores, e: Episode, r: EpisodeRecord, b: CandidateBundle, v: VerificationResult) {
    && r.verificationResult in s.results
    && s.results[r.verificationResult] == v
    && r.verificationResultDigest == Sha(v)
    && v.candidateDigest == b.digest
    && v.verifier == e.verifier
  }

  /** One target of the evidence, about this Environment and this qualification Run. */
  ghost predicate GenuineTarget(k: Evidence.Context, t: QualificationTarget, role: Stage, b: Binding, x: ExecutionRef) {
    && t.role == role
    && t.environment == b.environment && t.image == b.image && t.platform == b.platform
    && t.workingDirectory == b.workingDirectory
    && x == ExecutionRef(b.environment, t.run, t.allocation)
    && t.run != "" && t.allocation != ""
    && k.accepts(role, t.checks)
  }

  /** The evidence file has the recorded digest, and qualifies both Environments of this episode. */
  ghost predicate GenuineEvidence(k: Evidence.Context, s: Stores, r: EpisodeRecord, q: QualificationResult) {
    && s.evidence == Some(q)
    && r.qualificationResultDigest == Sha(q)
    && q.episodeId == k.episode.id
    && q.spec == Sha(k.episode)
    && |q.targets| == 2 && |r.qualifications| == 2
    && GenuineTarget(k, q.targets[0], Inference, k.episode.inferenceEnvironment, r.qualifications[0])
    && GenuineTarget(k, q.targets[1], Verification, k.episode.verificationEnvironment, r.qualifications[1])
  }

  /** A candidate is read back exactly if it is genuine. */
  lemma CandidateIff(s: Stores, e: Episode, r: EpisodeRecord, b: CandidateBundle)
    ensures LoadCandidate(s, e, r) == Ok(b) <==> GenuineBundle(s, e, r, b)
    ensures LoadCandidate(s, e, r).Err? ==> LoadCandidate(s, e, r).error == Contract
  {
  }

  /** Evidence is read back exactly if it is genuine: another file, digest, Run or Environment is refused. */
  lemma EvidenceIff(k: Evidence.Context, s: Stores, r: EpisodeRecord, q: QualificationResult)
    ensures Evidence.Load(k, r, s.evidence) == Ok(q) <==> GenuineEvidence(k, s, r, q)
    ensures Evidence.Load(k, r, s.evidence).Err? ==> Evidence.Load(k, r, s.evidence).error == Contract
  {
  }

  /** Recovery trusts a verdict exactly if it is genuine, and was reached by another Run than the candidate. */
  lemma TrustedIff(s: Stores, e: Episode, r: EpisodeRecord, v: VerificationResult)
    ensures LoadVerification(s, e, r) == Ok(v)
            <==> exists b: CandidateBundle ::
              && GenuineBundle(s, e, r, b)
              && GenuineVerdict(s, e, r, b, v)
              && r.verification.Some?
              && r.verification.value.environment == e.verificationEnvironment.environment
              && r.verification.value.run != r.inference.value.run
    ensures LoadVerification(s, e, r).Err? ==> LoadVerification(s, e, r).error == Contract
  {
    var loaded := LoadCandidate(s, e, r);
    if loaded.Ok? { CandidateIff(s, e, r, loaded.value); }
    forall b | GenuineBundle(s, e, r, b) ensures loaded == Ok(b) { CandidateIff(s, e, r, b); }
    hide GenuineBundle, LoadCandidate;
  }

  /** The references of the record that come in pairs are complete. */
  ghost predicate Paired(r: EpisodeRecord) {
    && (r.qualificationResult == "" <==> r.qualificationResultDigest.NoDigest?)
    && (r.candidateManifest.NoDigest? <==> r.candidateDigest.NoDigest?)
    && (r.trajectoryManifest == "" <==> r.trajectoryDigest == "")
    && (r.verificationResult.NoDigest? <==> r.verificationResultDigest.NoDigest?)
  }

  /** Whoever ran, ran in the Environments of the episode, each stage with its own Run. */
  ghost predicate RanApart(e: Episode, r: EpisodeRecord) {
    && (r.inference.Some? ==> r.inference.value.environment == e.inferenceEnvironment.environment)
    && (r.verification.Some? ==> r.verification.value.environment == e.verificationEnvironment.environment)
    && (r.inference.Some? && r.verification.Some? ==> r.inference.value.run != r.verification.value.run)
  }

  /** Each part of the report is present exactly if the record names it, and then it is the genuine one. */
  ghost predicate Genuine(k: Evidence.Context, s: Stores, r: EpisodeRecord, report: Report) {
    && (report.qualification.None? <==> r.qualificationResult == "")
    && (report.qualification.Some? ==> GenuineEvidence(k, s, r, report.qualification.value))
    && (report.candidate.None? <==> r.candidateManifest.NoDigest?)
    && (report.candidate.Some? ==> GenuineBundle(s, k.episode, r, report.candidate.value))
    && (report.result.None? <==> r.verificationResult.NoDigest?)
    && (report.result.Some? ==>
          && report.candidate.Some?
          && GenuineVerdict(s, k.episode, r, report.candidate.value, report.result.value))
  }

  ghost predicate Complete(r: EpisodeRecord, report: Report) {
    r.phase.Completed? ==>
      report.qualification.Some? && report.candidate.Some? && report.result.Some? && r.verification.Some?
  }

  /** Verification of any record over any files: what it accepts, and what it then reports. */
  lemma ReportIff(k: Evidence.Context, s: Stores, r: EpisodeRecord, report: Report)
    ensures Verify(k, s, r) == Ok(report)
            <==>
              && Genuine(k, s, r, report) && Complete(r, report) && Paired(r) && RanApart(k.episode, r)
              && (r.trajectoryManifest != "" ==> s.trajectory)
              && (r.progressPath != "" ==> s.progress)
    ensures Verify(k, s, r).Err? ==> Verify(k, s, r).error == Contract
  {
    PartsIff(k, s, r, report);
    PartsFail(k, s, r);
    hide Genuine, VerifiedQualification, VerifiedCandidate, VerifiedResult;
  }

  lemma PartsIff(k: Evidence.Context, s: Stores, r: EpisodeRecord, report: Report)
    ensures
      VerifiedQualification(k, s, r) == Ok(report.qualification)
      && VerifiedCandidate(k.episode, s, r) == Ok(report.candidate)
      && VerifiedResult(k.episode, s, r, report.candidate) == Ok(report.result)
      && (r.trajectoryManifest == "" <==> r.trajectoryDigest == "")
      <==> Genuine(k, s, r, report) && Paired(r)
  {
    var q, b := Evidence.Load(k, r, s.evidence), LoadCandidate(s, k.episode, r);
    if q.Ok? { EvidenceIff(k, s, r, q.value); }
    if report.qualification.Some? { EvidenceIff(k, s, r, report.qualification.value); }
    if b.Ok? { CandidateIff(s, k.episode, r, b.value); }
    if report.candidate.Some? { CandidateIff(s, k.episode, r, report.candidate.value); }
    hide GenuineBundle, GenuineEvidence, LoadCandidate, Evidence.Load;
  }

  lemma PartsFail(k: Evidence.Context, s: Stores, r: EpisodeRecord)
    ensures VerifiedQualification(k, s, r).Err? ==> VerifiedQualification(k, s, r).error == Contract
    ensures VerifiedCandidate(k.episode, s, r).Err? ==> VerifiedCandidate(k.episode, s, r).error == Contract
    ensures forall b | VerifiedResult(k.episode, s, r, b).Err? :: VerifiedResult(k.episode, s, r, b).error == Contract
  {
  }

  /**
   * The two readers agree: recovery trusts every completed record that verification accepts, with the
   * result that the report shows.
   */
  lemma VerifiedIsTrusted(k: Evidence.Context, s: Stores, r: EpisodeRecord)
    requires r.phase.Completed? && Verify(k, s, r).Ok?
    ensures Verify(k, s, r).value.result.Some?
    ensures LoadVerification(s, k.episode, r) == Ok(Verify(k, s, r).value.result.value)
  {
    var report := Verify(k, s, r).value;
    ReportIff(k, s, r, report);
    hide Verify;
    TrustedIff(s, k.episode, r, report.result.value);
  }
}
