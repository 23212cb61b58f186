/** The files of one episode: its specification, its record, and content-addressed results. */
module EpisodeStores {
  import opened Models

  datatype Saved = Saved(spec: Digest<Episode>, record: EpisodeRecord)

  datatype Files = Files(spec: Option<Episode>, saved: Option<Saved>)

  datatype Initialized = Initialized(files: Files, result: Result<EpisodeRecord, Failure>)

  /** The persisted specification, if it is the one that the record was made for. */
  function LoadSpec(f: Files, id: string): Result<Episode, Failure> {
    if f.spec.None? then Err(RecoveryRequired)
    else if f.spec.value.id != id then Err(Contract)
    else if f.saved.None? || f.saved.value.spec != Sha(f.spec.value) then Err(Contract)
    else Ok(f.spec.value)
  }

  function WriteSpec(f: Files, e: Episode): Files {
    if f.spec.Some? then f else f.(spec := Some(e))
  }

  /** The files of the episode id are given; a new record needs the specification first. */
  function Initialize(f: Files, e: Episode, now: string): Initialized {
    if f.saved.Some? then
      if f.saved.value.spec != Sha(e) then Initialized(f, Err(RecoveryRequired))
      else
        var spec := LoadSpec(f, e.id);
        Initialized(f, if spec.Err? then Err(spec.error) else Ok(f.saved.value.record))
    else if f.spec.Some? && Sha(f.spec.value) != Sha(e) then Initialized(f, Err(RecoveryRequired))
    else
      var record := NewRecord(now);
      Initialized(WriteSpec(f, e).(saved := Some(Saved(Sha(e), record))), Ok(record))
  }

  /** The stored result of a path, if it has the recorded digest. */
  function StoredResult(results: map<Digest<VerificationResult>, VerificationResult>,
                        path: Digest<VerificationResult>, digest: Digest<VerificationResult>)
    : Result<VerificationResult, Failure>
  {
    if path !in results || Sha(results[path]) != digest then Err(Contract) else Ok(results[path])
  }

  class EpisodeStore {
    var spec: Option<Episode>
    var saved: Option<Saved>
    var results: map<Digest<VerificationResult>, VerificationResult>

    function OnDisk(): Files
      reads this
    {
      Files.Files(spec, saved)
    }

    constructor ()
      ensures OnDisk() == Files.Files(None, None) && results == map[]
    {
      spec := None;
      saved := None;
      results := map[];
    }

    method InitializeEpisode(e: Episode, now: string) returns (r: Result<EpisodeRecord, Failure>)
      modifies this`spec, this`saved
      ensures Initialized(OnDisk(), r) == Initialize(old(OnDisk()), e, now)
      ensures r.Ok? ==> spec == Some(e) && saved == Some(Saved(Sha(e), r.value))
      ensures r.Err? || old(saved).Some? ==> OnDisk() == old(OnDisk())
      ensures r.Ok? && old(saved).None? ==>
                && r.value.phase.New? && r.value.createdAt == now && r.value.completedAt == ""
                && r.value.inference.None? && r.value.verification.None? && r.value.qualifications == []
                && r.value.candidateDigest.NoDigest? && r.value.verificationResultDigest.NoDigest?
    {
      if saved.Some? {
        if saved.value.spec != Sha(e) {
          return Err(RecoveryRequired);
        }
        var checked := LoadSpec(OnDisk(), e.id);
        if checked.Err? {
          return Err(checked.error);
        }
        return Ok(saved.value.record);
      }
      if spec.Some? {
        if Sha(spec.value) != Sha(e) {
          return Err(RecoveryRequired);
        }
      } else {
        spec := Some(e);
      }
      var record := NewRecord(now);
      saved := Some(Saved(Sha(e), record));
      return Ok(record);
    }

    /** The record carries the digest of its specification. */
    method Save(value: Saved)
      modifies this`saved
      ensures saved == Some(value)
    {
      saved := Some(value);
    }

    method SaveResult(v: VerificationResult) returns (digest: Digest<VerificationResult>)
      modifies this`results
      ensures digest == Sha(v) && results == old(results)[digest := v]
    {
      digest := Sha(v);
      results := results[digest := v];
    }

    method LoadResult(path: Digest<VerificationResult>, digest: Digest<VerificationResult>)
      returns (r: Result<VerificationResult, Failure>)
      ensures r == StoredResult(results, path, digest)
      ensures r.Ok? <==> path in results && Sha(results[path]) == digest
      ensures r.Ok? ==> Sha(r.value) == digest
    {
      if path !in results || Sha(results[path]) != digest {
        return Err(Contract);
      }
      return Ok(results[path]);
    }
  }

  // ------------------------------------------------------------------ any sequence of calls

  /** A crash may leave the specification without its record; callers save records that they loaded. */
  datatype Call =
    | Initializing(e: Episode, now: string)
    | Crashing(e: Episode)
    | Saving(record: EpisodeRecord)

  function After(f: Files, call: Call): Files {
    match call
    case Initializing(e, now) => Initialize(f, e, now).files
    case Crashing(e) => if f.saved.Some? then f else WriteSpec(f, e)
    case Saving(record) => if f.saved.None? then f else f.(saved := Some(f.saved.value.(record := record)))
  }

  function Calls(f: Files, calls: seq<Call>): Files
    decreases |calls|
  {
    if |calls| == 0 then f else Calls(After(f, calls[0]), calls[1..])
  }

  /** The record was made for the specification on disk. */
  ghost predicate Consistent(f: Files) {
    f.saved.Some? ==> f.spec.Some? && f.saved.value.spec == Sha(f.spec.value)
  }

  /** The first specification of an episode stays, and its record belongs to it. */
  lemma {:induction false} SpecificationStays(f: Files, calls: seq<Call>)
    requires Consistent(f)
    ensures Consistent(Calls(f, calls))
    ensures f.spec.Some? ==> Calls(f, calls).spec == f.spec
    decreases |calls|
  {
    if |calls| > 0 {
      SpecificationStays(After(f, calls[0]), calls[1..]);
    }
  }

  /**
   * After any calls, an episode is accepted exactly if it is the persisted one, whether or not an
   * earlier call crashed between its two writes; what is accepted loads as the specification.
   */
  lemma AcceptedIff(calls: seq<Call>, e: Episode, now: string)
    ensures
      var f := Calls(Files.Files(None, None), calls);
      var i := Initialize(f, e, now);
      && (i.result.Ok? <==> f.spec.None? || f.spec == Some(e))
      && (i.result.Ok? ==> LoadSpec(i.files, e.id) == Ok(e))
      && (f.saved.Some? && i.result.Ok? ==> i.files == f && i.result.value == f.saved.value.record)
      && (i.result.Err? ==> i.files == f)
  {
    SpecificationStays(Files.Files(None, None), calls);
  }
}
