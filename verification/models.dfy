/** Domain contracts shared by the caller-side components. */
module Models {

  datatype Option<+T> = None | Some(value: T)

  datatype Result<+T, +E> = Ok(value: T) | Err(error: E)

  /** A SHA-256 digest, taken as injective: it is identified with what was digested. */
  datatype Digest<+T> = NoDigest | Sha(content: T)

  datatype Stage = Inference | Verification

  datatype Phase =
    | New
    | InferenceRunning
    | CandidateReady
    | VerificationRunning
    | Completed
    | Failed
    | Cancelled

  predicate Terminal(phase: Phase) {
    phase.Completed? || phase.Failed? || phase.Cancelled?
  }

  function RunningPhase(stage: Stage): Phase {
    match stage
    case Inference => InferenceRunning
    case Verification => VerificationRunning
  }

  /** Public Axern identities. An empty allocation means that none was published yet. */
  datatype ExecutionRef = ExecutionRef(environment: string, run: string, allocation: string)

  datatype Binding = Binding(environment: string, image: string, platform: string, workingDirectory: string)

  datatype Identity = Identity(name: string, version: string)

  datatype Episode = Episode(
    id: string,
    taskId: string,
    seedDigest: string,
    inferenceEnvironment: Binding,
    verificationEnvironment: Binding,
    harness: Identity,
    candidate: Identity,
    verifier: Identity)
  {
    function EnvironmentOf(stage: Stage): string {
      match stage
      case Inference => inferenceEnvironment.environment
      case Verification => verificationEnvironment.environment
    }
  }

  /** The exceptions that the runner tells apart. */
  datatype Failure =
    | Contract
    | Infrastructure
    | Diagnosed(code: string, message: string)
    | RecoveryRequired

  datatype CandidateFile = CandidateFile(
    role: string,
    declaredPath: string,
    bundlePath: string,
    size: nat,
    sha256: Digest<seq<bv8>>,
    mediaType: string)

  /** The unsigned content of candidate-manifest.json; its digest names the bundle. */
  datatype CandidateManifest = CandidateManifest(
    episodeId: string,
    taskId: string,
    seedDigest: string,
    inferenceRun: string,
    harness: Identity,
    candidate: Identity,
    files: seq<CandidateFile>)

  datatype CandidateBundle = CandidateBundle(manifest: CandidateManifest, digest: Digest<CandidateManifest>)

  datatype VerificationResult = VerificationResult(
    candidateDigest: Digest<CandidateManifest>,
    verifier: Identity,
    verdict: string,
    diagnosticCode: string,
    score: real,
    completedAt: string)

  /** What qualification learned about one Environment from the sealed output of its Run. */
  datatype QualificationTarget = QualificationTarget(
    role: Stage,
    environment: string,
    image: string,
    platform: string,
    workingDirectory: string,
    run: string,
    allocation: string,
    checks: string)

  datatype QualificationResult = QualificationResult(
    episodeId: string,
    spec: Digest<Episode>,
    targets: seq<QualificationTarget>)

  /**
   * execution.json, with its fields in the source's order. Candidate and result files are
   * content addressed, so their paths are given by the digest that names the directory.
   */
  datatype EpisodeRecord = EpisodeRecord(
    phase: Phase,
    qualifications: seq<ExecutionRef>,
    qualificationResult: string,
    qualificationResultDigest: Digest<QualificationResult>,
    inference: Option<ExecutionRef>,
    candidateManifest: Digest<CandidateManifest>,
    candidateDigest: Digest<CandidateManifest>,
    trajectoryManifest: string,
    trajectoryDigest: string,
    progressPath: string,
    progressRevision: nat,
    terminationReason: string,
    verification: Option<ExecutionRef>,
    verificationResult: Digest<VerificationResult>,
    verificationResultDigest: Digest<VerificationResult>,
    diagnosticCode: string,
    message: string,
    createdAt: string,
    completedAt: string)
  {
    function Bound(stage: Stage): Option<ExecutionRef> {
      match stage
      case Inference => inference
      case Verification => verification
    }
  }

  function NewRecord(now: string): EpisodeRecord {
    EpisodeRecord(New, [], "", NoDigest, None, NoDigest, NoDigest, "", "", "", 0, "", None, NoDigest, NoDigest,
                  "", "", now, "")
  }
}
