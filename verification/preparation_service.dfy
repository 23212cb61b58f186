/** The preparation service as it works on its record file: a loop of locked writes. */
module PreparationServices {
  import opened Models
  import opened Preparation

  function Ended(raised: Option<Failure>): Next {
    if raised.Some? then Raised(raised.value) else Continue
  }

  class PreparationService {
    const spec: SeedBuildSpec
    var specFile: Option<SeedBuildSpec>
    var disk: Option<PreparationRecord>

    constructor (spec: SeedBuildSpec, specFile: Option<SeedBuildSpec>, disk: Option<PreparationRecord>)
      ensures this.spec == spec && this.specFile == specFile && this.disk == disk
    {
      this.spec := spec;
      this.specFile := specFile;
      this.disk := disk;
    }

    method Initialize() returns (r: Result<PreparationRecord, Failure>)
      modifies this
      ensures r == Initialized(old(disk), old(specFile), spec)
      ensures disk == if r.Ok? then Some(r.value) else old(disk)
      ensures specFile == if r.Ok? && old(disk).None? then Some(spec) else old(specFile)
      ensures r.Ok? ==> r.value.request == Sha(spec)
      ensures r.Ok? && old(disk).None? ==>
                && r.value.state.New? && r.value.buildId == "" && r.value.environment == ""
                && r.value.seed.NoDigest? && r.value.receipt.NoDigest?
                && r.value.ambiguousOperation == "" && r.value.diagnosticCode == ""
      ensures r.Err? || old(disk).Some? ==> disk == old(disk) && specFile == old(specFile)
    {
      if disk.Some? {
        if disk.value.request != Sha(spec) {
          return Err(RecoveryRequired);
        }
        return Ok(disk.value);
      }
      if specFile.Some? {
        if Sha(specFile.value) != Sha(spec) {
          return Err(RecoveryRequired);
        }
      } else {
        specFile := Some(spec);
      }
      var record := NewPreparation(spec);
      disk := Some(record);
      return Ok(record);
    }

    method RecordRemoteFailure(e: RemoteError)
      requires disk.Some?
      modifies this`disk
      ensures disk == Some(RemoteFailed(old(disk).value, e))
      ensures disk.value.state == if e.ambiguous then Ambiguous
                                  else if e.retryable then old(disk).value.state else PreparationState.Failed
      ensures disk.value.ambiguousOperation == (if e.ambiguous then e.operation else "")
      ensures disk.value.diagnosticCode == e.code && disk.value.remoteStatus == e.status
      ensures disk.value.remoteRetryable == e.retryable
    {
      var current := disk.value;
      if e.ambiguous {
        current := current.(state := Ambiguous);
      } else if !e.retryable {
        current := current.(state := PreparationState.Failed);
      }
      current := current.(ambiguousOperation := if e.ambiguous then e.operation else "");
      current := current.(diagnosticCode := e.code, remoteStatus := e.status, remoteRetryable := e.retryable);
      disk := Some(current);
    }

    method RecordContractFailure(code: string)
      requires disk.Some?
      modifies this`disk
      ensures disk == Some(ContractFailed(old(disk).value, code))
      ensures disk.value.state.Failed? && disk.value.ambiguousOperation == "" && disk.value.diagnosticCode == code
    {
      disk := Some(disk.value.(state := PreparationState.Failed, ambiguousOperation := "", diagnosticCode := code));
    }

    method RecordObservationFailure(e: RemoteError)
      requires disk.Some?
      modifies this`disk
      ensures disk == Some(ObservationFailed(old(disk).value, e).record)
    {
      if e.code == "timeout" {
        disk := Some(disk.value.(diagnosticCode := e.code));
      } else {
        RecordRemoteFailure(e);
      }
    }

    method SubmitBuild(a: Answers) returns (raised: Option<Failure>)
      requires disk.Some?
      modifies this`disk
      ensures disk.Some?
      ensures Turned(disk.value, Ended(raised)) == Submit(spec, old(disk).value, a)
      ensures raised.None? ==> disk.value.state.BuildSubmitted? && a.created.Ok? && BuildMatches(spec, a.created.value)
                               && disk.value.buildId == a.created.value.id
      ensures raised == Some(Contract) ==> disk.value.state.Failed? && disk.value.buildId == old(disk).value.buildId
    {
      if a.version.Err? {
        RecordRemoteFailure(a.version.error);
        return Some(Infrastructure);
      }
      if a.created.Err? {
        RecordRemoteFailure(a.created.error);
        return Some(Infrastructure);
      }
      var build := a.created.value;
      if !BuildMatches(spec, build) {
        RecordContractFailure("build_identity_mismatch");
        return Some(Contract);
      }
      var current := disk.value;
      if !current.state.BuildSubmitting? && !current.state.Ambiguous? {
        return Some(RecoveryRequired);
      }
      current := current.(buildId := build.id, version := a.version.value, state := BuildSubmitted);
      disk := Some(current.(ambiguousOperation := "", diagnosticCode := ""));
      return None;
    }

    method AwaitBuild(a: Answers) returns (raised: Option<Failure>)
      requires disk.Some?
      modifies this`disk
      ensures disk.Some?
      ensures Turned(disk.value, Ended(raised)) == FinishBuild(spec, old(disk).value, a)
      ensures raised.None? ==> disk.value.state.BuildSucceeded? && disk.value.seed.Sha? && a.results.Ok?
                               && disk.value.seed.content.buildId == a.results.value.buildId
                               && |a.results.value.outputs| == 1
                               && disk.value.seed.content.manifest == a.results.value.outputs[0].manifest
      ensures raised == Some(Contract) ==> disk.value.state.Failed? && disk.value.seed == old(disk).value.seed
      ensures disk.value.seed != old(disk).value.seed ==>
                && disk.value.seed.Sha? && disk.value.seed.content.version == old(disk).value.version
                && disk.value.state == match disk.value.seed.content.status {
                     case "succeeded" => BuildSucceeded
                     case "cancelled" => PreparationState.Cancelled
                     case _ => PreparationState.Failed
                   }
    {
      var record := disk.value;
      if record.buildId == "" {
        return Some(RecoveryRequired);
      }
      if a.got.Err? {
        RecordObservationFailure(a.got.error);
        return Some(Infrastructure);
      }
      var build := a.got.value;
      if !BuildMatches(spec, build) {
        RecordContractFailure("build_identity_mismatch");
        return Some(Contract);
      }
      if !TerminalStatus(build.status) {
        if a.waited.Err? {
          RecordObservationFailure(a.waited.error);
          return Some(Infrastructure);
        }
        build := a.waited.value;
        if !BuildMatches(spec, build) {
          RecordContractFailure("build_identity_mismatch");
          return Some(Contract);
        }
      }
      if build.status != "succeeded" {
        var failure := FailedReceipt(spec, record, build);
        var state := if build.status == "cancelled" then PreparationState.Cancelled else PreparationState.Failed;
        var code := if build.failureCode != "" then build.failureCode else "kova_build_" + build.status;
        disk := Some(disk.value.(seed := Sha(failure), state := state, diagnosticCode := code));
        return Some(Infrastructure);
      }
      if a.results.Err? {
        RecordRemoteFailure(a.results.error);
        return Some(Infrastructure);
      }
      if !ResultsMatch(spec, build, a.results.value) {
        RecordContractFailure("invalid_kova_results");
        return Some(Contract);
      }
      var receipt := SucceededReceipt(spec, record, build, a.results.value);
      disk := Some(disk.value.(seed := Sha(receipt), state := BuildSucceeded, diagnosticCode := ""));
      return None;
    }

    method FindOrCreateEnvironment(a: Answers) returns (raised: Option<Failure>)
      requires disk.Some?
      modifies this`disk
      ensures disk.Some?
      ensures Turned(disk.value, Ended(raised)) == ResolveEnvironment(spec, old(disk).value, a)
      ensures raised.None? ==> disk.value.state.EnvironmentCreated? && a.matches.Ok? && |a.matches.value| <= 1
      ensures raised.None? && a.matches.value == [] ==> a.made.Ok? && disk.value.environment == a.made.value.id
      ensures raised.None? && a.matches.value != [] ==> disk.value.environment == a.matches.value[0].id
    {
      if disk.value.seed != Sha(a.seedFile) {
        return Some(Contract);
      }
      if a.matches.Err? {
        RecordRemoteFailure(a.matches.error);
        return Some(Infrastructure);
      }
      var found := a.matches.value;
      if |found| > 1 {
        disk := Some(disk.value.(diagnosticCode := "multiple_environments"));
        disk := Some(disk.value.(state := PreparationState.Failed));
        return Some(Infrastructure);
      }
      var facts: EnvironmentFacts;
      if |found| == 1 {
        facts := found[0];
      } else {
        disk := Some(disk.value.(state := EnvironmentCreating));
        if a.made.Err? {
          RecordRemoteFailure(a.made.error);
          return Some(Infrastructure);
        }
        facts := a.made.value;
      }
      if !EnvironmentMatches(spec, a.seedFile, facts) {
        RecordContractFailure("environment_mismatch");
        return Some(Contract);
      }
      var current := disk.value.(environment := facts.id, state := EnvironmentCreated);
      disk := Some(current.(ambiguousOperation := "", diagnosticCode := ""));
      return None;
    }

    method ConfirmEnvironment(a: Answers) returns (raised: Option<Failure>)
      requires disk.Some?
      modifies this`disk
      ensures disk.Some?
      ensures Turned(disk.value, Ended(raised)) == FinishEnvironment(spec, old(disk).value, a)
      ensures raised.None? ==> disk.value.state.Ready? && disk.value.receipt.Sha? && a.observed.Ok?
                               && disk.value.receipt.content.environment == a.observed.value.id
                               && disk.value.receipt.content.image == a.seedFile.immutableRef
                               && old(disk).value.seed == Sha(a.seedFile)
    {
      var record := disk.value;
      if record.environment == "" {
        return Some(RecoveryRequired);
      }
      if record.seed != Sha(a.seedFile) {
        return Some(Contract);
      }
      if a.observed.Err? {
        RecordRemoteFailure(a.observed.error);
        return Some(Infrastructure);
      }
      var facts := a.observed.value;
      if !EnvironmentMatches(spec, a.seedFile, facts) {
        RecordContractFailure("environment_mismatch");
        return Some(Contract);
      }
      var receipt := ReadyReceipt(spec, record, facts);
      disk := Some(disk.value.(receipt := Sha(receipt), state := Ready, diagnosticCode := ""));
      return None;
    }

    method Resume(timeout: real, answers: nat -> Answers) returns (r: Result<EnvironmentReceipt, Failure>)
      modifies this`disk
      ensures old(disk).None? ==> disk.None? && r == Err(Contract)
      ensures old(disk).Some? ==>
                disk.Some? && Resumed(disk.value, r) == Preparation.Resume(spec, old(disk).value, timeout, answers)
      ensures r.Ok? ==> disk.Some? && disk.value.state.Ready? && disk.value.receipt == Sha(r.value)
    {
      if timeout <= 0.0 || disk.None? {
        return Err(Contract);
      }
      var turn: nat := 0;
      while true
        invariant disk.Some?
        invariant ResumeFrom(spec, disk.value, answers, turn) == ResumeFrom(spec, old(disk).value, answers, 0)
        decreases 6 - Rank(disk.value)
      {
        var record := disk.value;
        var a := answers(turn);
        TurnAdvances(spec, record, a);
        var raised: Option<Failure> := None;
        if record.request != Sha(spec) {
          return Err(Contract);
        } else if record.state.Ready? {
          return if record.receipt == Sha(a.readyFile) then Ok(a.readyFile) else Err(Contract);
        } else if record.state.Failed? || record.state.Cancelled? {
          return Err(Infrastructure);
        } else if record.state.New? {
          disk := Some(record.(state := BuildSubmitting));
        } else if record.state.BuildSubmitting?
               || (record.state.Ambiguous? && record.ambiguousOperation == "create_build") {
          raised := SubmitBuild(a);
        } else if record.state.BuildSubmitted? {
          raised := AwaitBuild(a);
        } else if record.state.BuildSucceeded? || record.state.EnvironmentCreating?
               || (record.state.Ambiguous? && record.ambiguousOperation == "create_environment") {
          raised := FindOrCreateEnvironment(a);
        } else if record.state.EnvironmentCreated? {
          raised := ConfirmEnvironment(a);
        } else {
          return Err(RecoveryRequired);
        }
        assert Turn(spec, record, a) == Turned(disk.value, Ended(raised));
        if raised.Some? {
          return Err(raised.value);
        }
        turn := turn + 1;
      }
    }
  }
}
