/**
 * The runner's critical sections as they are executed: load the record, assign its fields,
 * save it. Each is proved to leave on disk exactly what EpisodeRecords says it leaves.
 */
module EpisodeRunners {
  import opened Models
  import Records = EpisodeRecords
  import Stores = EpisodeStores

  class EpisodeRunner {
    const episode: Episode
    /** execution.json; every method below is one tenure of the episode lock. */
    var disk: EpisodeRecord
    /** Keeps the verification results. */
    const store: Stores.EpisodeStore

    constructor (episode: Episode, store: Stores.EpisodeStore, now: string)
      ensures this.episode == episode && this.store == store && disk == NewRecord(now)
    {
      this.episode := episode;
      this.store := store;
      this.disk := NewRecord(now);
    }

    /** The execution is that of the record, where an allocation may still be missing. */
    predicate Continues(saved: ExecutionRef, x: ExecutionRef) {
      saved.run == x.run && saved.environment == x.environment && saved.allocation in {"", x.allocation}
    }

    /** A later caller finds the Run of the running stage on record. */
    predicate Recoverable(record: EpisodeRecord) {
      match record.phase
      case InferenceRunning => record.inference.Some?
      case VerificationRunning => record.verification.Some?
      case _ => false
    }

    predicate CanBind(record: EpisodeRecord, stage: Stage, x: ExecutionRef) {
      match stage
      case Inference =>
        && record.phase.InferenceRunning? && x.environment == episode.inferenceEnvironment.environment
        && (record.inference.Some? ==> Continues(record.inference.value, x))
      case Verification =>
        && record.phase.VerificationRunning? && x.environment == episode.verificationEnvironment.environment
        && (record.inference.Some? ==> x.run != record.inference.value.run)
        && (record.verification.Some? ==> Continues(record.verification.value, x))
    }

    predicate CanCommit(record: EpisodeRecord, stage: Stage, x: ExecutionRef) {
      match stage
      case Inference =>
        && record.phase.InferenceRunning? && x.environment == episode.inferenceEnvironment.environment
        && record.inference.Some? && Continues(record.inference.value, x)
      case Verification =>
        && record.phase.VerificationRunning? && x.environment == episode.verificationEnvironment.environment
        && record.verification.Some? && Continues(record.verification.value, x)
    }

    method Start() returns (raised: Option<Failure>)
      modifies this`disk
      ensures Records.Outcome(disk, raised) == Records.StartRun(old(disk))
      ensures disk != old(disk) <==> raised.None? && old(disk).phase.New?
      ensures raised.None? <==> disk.phase.Completed? || (old(disk).phase.New? && disk.phase.InferenceRunning?)
      ensures disk == if old(disk).phase.New? then old(disk).(phase := InferenceRunning) else old(disk)
      ensures raised.None? <==> old(disk).phase.Completed? || old(disk).phase.New?
    {
      var record := disk;
      if record.phase.Completed? {
        return None;
      }
      if !record.phase.New? {
        return Some(RecoveryRequired);
      }
      record := record.(phase := InferenceRunning);
      disk := record;
      return None;
    }

    /** cancelled asks the caller to cancel the execution after the lock is released. */
    method Bind(stage: Stage, execution: ExecutionRef) returns (raised: Option<Failure>, cancelled: bool)
      modifies this`disk
      ensures Records.Outcome(disk, raised) == Records.Bind(episode, old(disk), stage, execution)
      ensures cancelled <==> old(disk).phase.Cancelled?
      ensures raised.None? ==> old(disk).phase == disk.phase == RunningPhase(stage)
      ensures raised.None? ==> disk.Bound(stage) == Some(execution)
      ensures raised.None? ==> Records.IdentityKept(old(disk).Bound(stage), disk.Bound(stage))
      ensures raised.None? <==> CanBind(old(disk), stage, execution)
      ensures raised.None? ==>
                disk == match stage
                        case Inference => old(disk).(inference := Some(execution))
                        case Verification => old(disk).(verification := Some(execution))
      ensures raised == Some(RecoveryRequired) <==> old(disk).phase != RunningPhase(stage)
      ensures raised.Some? ==> disk == old(disk)
    {
      var record := disk;
      if record.phase != RunningPhase(stage) {
        return Some(RecoveryRequired), record.phase.Cancelled?;
      }
      if execution.environment != episode.EnvironmentOf(stage) {
        return Some(Infrastructure), false;
      }
      match stage {
        case Inference =>
          var merged := MergeExecution(record.inference, execution);
          if merged.Err? {
            return Some(merged.error), false;
          }
          record := record.(inference := Some(merged.value));
        case Verification =>
          if record.inference.Some? && execution.run == record.inference.value.run {
            return Some(Infrastructure), false;
          }
          var merged := MergeExecution(record.verification, execution);
          if merged.Err? {
            return Some(merged.error), false;
          }
          record := record.(verification := Some(merged.value));
      }
      disk := record;
      return None, false;
    }

    method FailStage(stage: Stage, execution: ExecutionRef, code: string, message: string, now: string)
      returns (raised: Option<Failure>)
      modifies this`disk
      ensures Records.Outcome(disk, raised)
           == Records.FailStage(episode, old(disk), stage, execution, code, message, now)
      ensures raised.None? <==> disk != old(disk) && disk.phase.Failed?
      ensures raised.None? ==> disk.Bound(stage) == Some(execution) && disk.diagnosticCode == code
      ensures raised.None? ==> old(disk).Bound(stage).Some?
      ensures raised.None? ==> Records.IdentityKept(old(disk).Bound(stage), Some(execution))
      ensures raised.None? <==> CanCommit(old(disk), stage, execution)
      ensures raised.None? ==>
                disk == (match stage
                         case Inference => old(disk).(inference := Some(execution))
                         case Verification => old(disk).(verification := Some(execution)))
                        .(phase := Failed, diagnosticCode := code, message := message, completedAt := now)
      ensures raised.Some? ==> disk == old(disk)
    {
      var record := disk;
      raised := Records.RequireExecution(episode, record, stage, execution);
      if raised.Some? {
        return;
      }
      match stage {
        case Inference => record := record.(inference := Some(execution));
        case Verification => record := record.(verification := Some(execution));
      }
      record := record.(phase := Failed);
      record := record.(diagnosticCode := code);
      record := record.(message := message);
      record := record.(completedAt := now);
      disk := record;
    }

    method CommitCandidate(execution: ExecutionRef, candidate: Digest<CandidateManifest>,
                           trajectory: Option<(string, string, string)>)
      returns (raised: Option<Failure>)
      modifies this`disk
      ensures Records.Outcome(disk, raised)
           == Records.CommitCandidate(episode, old(disk), execution, candidate, trajectory)
      ensures raised.None? <==> disk != old(disk) && disk.phase.CandidateReady?
      ensures raised.None? ==> disk.inference == Some(execution)
      ensures raised.None? ==> disk.candidateManifest == disk.candidateDigest == candidate
      ensures raised.None? <==> CanCommit(old(disk), Inference, execution)
      ensures raised.None? && trajectory.Some? ==>
                (disk.trajectoryManifest, disk.trajectoryDigest, disk.terminationReason) == trajectory.value
      ensures raised.None? && trajectory.None? ==>
                && disk.trajectoryManifest == old(disk).trajectoryManifest
                && disk.trajectoryDigest == old(disk).trajectoryDigest
                && disk.terminationReason == "completed"
      ensures raised.None? ==>
                disk == old(disk).(
                  inference := disk.inference, candidateManifest := candidate, candidateDigest := candidate,
                  trajectoryManifest := disk.trajectoryManifest, trajectoryDigest := disk.trajectoryDigest,
                  terminationReason := disk.terminationReason, phase := CandidateReady, diagnosticCode := "",
                  message := "")
      ensures raised.None? ==> old(disk).inference.Some? && Records.IdentityKept(old(disk).inference, disk.inference)
      ensures raised.Some? ==> disk == old(disk)
    {
      var record := disk;
      raised := Records.RequireExecution(episode, record, Inference, execution);
      if raised.Some? {
        return;
      }
      record := record.(inference := Some(execution));
      record := record.(candidateManifest := candidate, candidateDigest := candidate);
      if trajectory.Some? {
        record := record.(trajectoryManifest := trajectory.value.0, trajectoryDigest := trajectory.value.1,
                          terminationReason := trajectory.value.2);
      } else {
        record := record.(terminationReason := "completed");
      }
      record := record.(phase := CandidateReady);
      record := record.(diagnosticCode := "", message := "");
      disk := record;
    }

    method StartVerification() returns (raised: Option<Failure>)
      modifies this`disk
      ensures Records.Outcome(disk, raised) == Records.StartVerification(old(disk))
      ensures disk != old(disk) <==> raised.None?
      ensures raised.None? <==> old(disk).phase.CandidateReady? && disk.phase.VerificationRunning?
      ensures disk == if raised.None? then old(disk).(phase := VerificationRunning) else old(disk)
    {
      var record := disk;
      if !record.phase.CandidateReady? {
        return Some(RecoveryRequired);
      }
      disk := record.(phase := VerificationRunning);
      return None;
    }

    /** The single-Run path writes the execution before a rejection, the multi-Run path does not. */
    method Finish(execution: ExecutionRef, verdict: VerificationResult, multiRun: bool, now: string)
      returns (raised: Option<Failure>)
      modifies this`disk, store`results
      ensures Records.Outcome(disk, raised)
           == Records.Finish(episode, old(disk), execution, verdict, multiRun, now)
      ensures store.results == if raised.None? then old(store.results)[Sha(verdict) := verdict] else old(store.results)
      ensures raised.None? <==> disk != old(disk) && disk.phase.Completed?
      ensures raised.None? ==>
                Stores.StoredResult(store.results, disk.verificationResult, disk.verificationResultDigest)
                == Ok(verdict)
      ensures raised.None? ==> verdict.candidateDigest == disk.candidateDigest && verdict.verifier == episode.verifier
      ensures raised == Some(Contract) <==> disk != old(disk) && disk.phase.Failed?
      ensures raised.None? <==>
                && CanCommit(old(disk), Verification, execution)
                && verdict.candidateDigest == old(disk).candidateDigest && verdict.verifier == episode.verifier
      ensures raised.None? ==>
                disk == old(disk).(
                  verification := Some(execution), verificationResult := Sha(verdict),
                  verificationResultDigest := Sha(verdict), phase := Completed,
                  diagnosticCode := verdict.diagnosticCode, message := "", completedAt := verdict.completedAt)
      ensures raised == Some(Contract) ==>
                && disk.diagnosticCode == (if verdict.candidateDigest != old(disk).candidateDigest
                                           then "AXRUN_CANDIDATE_MISMATCH" else "AXRUN_VERIFIER_MISMATCH")
                && disk.verification == (if multiRun then old(disk).verification else Some(execution))
                && disk == old(disk).(
                     verification := disk.verification, phase := Failed, diagnosticCode := disk.diagnosticCode,
                     message := disk.message, completedAt := now)
      ensures !CanCommit(old(disk), Verification, execution) ==> disk == old(disk)
    {
      var record := disk;
      raised := Records.RequireExecution(episode, record, Verification, execution);
      if raised.Some? {
        return;
      }
      if verdict.candidateDigest != record.candidateDigest {
        if !multiRun {
          record := record.(verification := Some(execution));
        }
        record := record.(phase := Failed, diagnosticCode := "AXRUN_CANDIDATE_MISMATCH");
        record := record.(message := Records.CANDIDATE_MISMATCH, completedAt := now);
        disk := record;
        return Some(Contract);
      }
      if verdict.verifier != episode.verifier {
        if !multiRun {
          record := record.(verification := Some(execution));
        }
        record := record.(phase := Failed, diagnosticCode := "AXRUN_VERIFIER_MISMATCH");
        record := record.(message := Records.VERIFIER_MISMATCH, completedAt := now);
        disk := record;
        return Some(Contract);
      }
      var digest := store.SaveResult(verdict);
      record := record.(verification := Some(execution));
      record := record.(verificationResult := digest, verificationResultDigest := digest);
      record := record.(phase := Completed);
      record := record.(diagnosticCode := verdict.diagnosticCode, message := "");
      record := record.(completedAt := verdict.completedAt);
      disk := record;
    }

    method RecordFailure(error: Failure, now: string)
      modifies this`disk
      ensures Records.Outcome(disk, None) == Records.RecordFailure(old(disk), error, now)
      ensures disk.inference == old(disk).inference && disk.verification == old(disk).verification
      ensures Terminal(old(disk).phase) ==> disk == old(disk)
      ensures !Terminal(old(disk).phase) ==>
                (Terminal(disk.phase) <==>
                   if error.Diagnosed? then error.code == "progress_observer_failed"
                   else error.Contract? || !Recoverable(old(disk)))
      ensures !Terminal(old(disk).phase) && error.Diagnosed? ==>
                && disk.diagnosticCode == error.code && disk.message == error.message
                && disk.completedAt == if disk.phase.Failed? then now else old(disk).completedAt
      ensures !Terminal(old(disk).phase) && !error.Diagnosed? ==>
                && disk.diagnosticCode == (if disk.phase.Failed? then "AXRUN_STAGE_FAILED"
                                           else old(disk).diagnosticCode)
                && disk.completedAt == old(disk).completedAt
      ensures disk == old(disk).(
                phase := disk.phase, diagnosticCode := disk.diagnosticCode, message := disk.message,
                completedAt := disk.completedAt)
      ensures disk.phase == old(disk).phase || disk.phase.Failed?
    {
      var record := disk;
      if record.phase.Cancelled? || record.phase.Completed? || record.phase.Failed? {
        return;
      }
      if error.Diagnosed? {
        record := record.(diagnosticCode := error.code);
        record := record.(message := error.message);
        if error.code == "progress_observer_failed" {
          record := record.(phase := Failed, completedAt := now);
        }
      } else if error.Contract? || !Records.HasRecoverableIdentity(record) {
        record := record.(phase := Failed);
        record := record.(diagnosticCode := "AXRUN_STAGE_FAILED", message := Records.STAGE_FAILED);
      } else {
        record := record.(message := Records.STAGE_INTERRUPTED);
      }
      disk := record;
    }

    /** The part of cancel that follows the control RPCs; the lock has been held since it began. */
    method Cancel(now: string)
      modifies this`disk
      ensures Records.Outcome(disk, None) == Records.Cancel(old(disk), now)
      ensures Terminal(disk.phase)
      ensures disk.phase.Cancelled? <==> !old(disk).phase.Completed? && !old(disk).phase.Failed?
      ensures disk == if Terminal(old(disk).phase) then old(disk)
                      else old(disk).(phase := Cancelled, diagnosticCode := "AXRUN_CANCELLED", completedAt := now)
      ensures disk.inference == old(disk).inference && disk.verification == old(disk).verification
    {
      var record := disk;
      if record.phase.Completed? || record.phase.Failed? || record.phase.Cancelled? {
        return;
      }
      record := record.(phase := Cancelled);
      record := record.(diagnosticCode := "AXRUN_CANCELLED");
      record := record.(completedAt := now);
      disk := record;
    }

    method BindQualification(index: nat, environment: string, execution: ExecutionRef)
      returns (raised: Option<Failure>)
      modifies this`disk
      ensures Records.Outcome(disk, raised)
           == Records.BindQualification(episode, old(disk), index, environment, execution)
      ensures raised.None? ==> index < |disk.qualifications| && disk.qualifications[index] == execution
      ensures forall i | 0 <= i < |old(disk).qualifications| ::
                i < |disk.qualifications| && disk.qualifications[i].run == old(disk).qualifications[i].run
      ensures disk == old(disk).(qualifications := disk.qualifications)
      ensures raised.None? ==>
                && old(disk).phase.New? && execution.environment == environment
                && |disk.qualifications| == (if index < |old(disk).qualifications| then |old(disk).qualifications|
                                             else |old(disk).qualifications| + 1)
                && forall i | 0 <= i < |old(disk).qualifications| && i != index ::
                     disk.qualifications[i] == old(disk).qualifications[i]
      ensures raised.None? <==>
                && old(disk).phase.New? && execution.environment == environment
                && index <= |old(disk).qualifications|
                && (index < |old(disk).qualifications| ==>
                      var saved := old(disk).qualifications[index];
                      saved.run == execution.run && saved.allocation in {"", execution.allocation})
      ensures raised.Some? ==> disk == old(disk)
    {
      var current := disk;
      if !current.phase.New? || execution.environment != environment {
        return Some(RecoveryRequired);
      }
      var values := current.qualifications;
      if |values| > index {
        var previous := values[index];
        if previous.run != execution.run
           || (previous.allocation != "" && previous.allocation != execution.allocation) {
          return Some(Contract);
        }
        values := values[index := execution];
      } else if |values| == index {
        values := values + [execution];
      } else {
        return Some(Contract);
      }
      disk := current.(qualifications := values);
      return None;
    }

    method CommitQualification(executions: seq<ExecutionRef>, path: string,
                               digest: Digest<QualificationResult>)
      returns (raised: Option<Failure>)
      modifies this`disk
      ensures Records.Outcome(disk, raised) == Records.CommitQualification(old(disk), executions, path, digest)
      ensures raised.None? <==> old(disk).phase.New?
      ensures disk != old(disk) ==> old(disk).phase.New? && old(disk).qualificationResult == ""
      ensures old(disk).phase.New? && old(disk).qualificationResult == "" ==>
                disk.qualifications == executions && disk.qualificationResultDigest == digest
      ensures disk == if disk == old(disk) then old(disk)
                      else old(disk).(qualifications := executions, qualificationResult := path,
                                      qualificationResultDigest := digest)
    {
      var record := disk;
      if !record.phase.New? {
        return Some(RecoveryRequired);
      }
      if record.qualificationResult != "" {
        return None;
      }
      record := record.(qualifications := executions);
      record := record.(qualificationResult := path);
      record := record.(qualificationResultDigest := digest);
      disk := record;
      return None;
    }

    method PublishProgress(run: string, path: string, revision: nat) returns (raised: Option<Failure>)
      modifies this`disk
      ensures Records.Outcome(disk, raised) == Records.PublishProgress(old(disk), run, path, revision)
      ensures disk != old(disk) ==> old(disk).phase.InferenceRunning? && old(disk).inference.Some?
                                    && old(disk).inference.value.run == run
      ensures raised.None? && old(disk).phase.InferenceRunning? ==>
                disk.progressPath == path && disk.progressRevision == revision
      ensures disk == old(disk).(progressPath := disk.progressPath, progressRevision := disk.progressRevision)
      ensures raised.Some? <==> old(disk).phase.InferenceRunning?
                                && (old(disk).inference.None? || old(disk).inference.value.run != run)
    {
      var record := disk;
      if !record.phase.InferenceRunning? {
        return None;
      }
      if record.inference.None? || record.inference.value.run != run {
        return Some(Infrastructure);
      }
      record := record.(progressPath := path);
      record := record.(progressRevision := revision);
      disk := record;
      return None;
    }
  }

  function MergeExecution(current: Option<ExecutionRef>, update: ExecutionRef): (r: Result<ExecutionRef, Failure>)
    ensures r.Ok? <==> current.None? || Records.SameExecution(current.value, update)
    ensures r.Ok? && current.Some? ==>
              && current.value.run == update.run && current.value.environment == update.environment
              && current.value.allocation in {"", update.allocation}
    ensures r.Ok? ==> r.value == update
    ensures r.Err? ==> r.error.Infrastructure?
  {
    if current.Some? && (current.value.run != update.run
                         || current.value.environment != update.environment
                         || (current.value.allocation != "" && current.value.allocation != update.allocation)) then
      Err(Infrastructure)
    else
      Ok(update)
  }
}
