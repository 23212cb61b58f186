/** CandidateBundles: content-addressed directories that are published once and checked when loaded. */
module Candidates {
  import opened Models
  import opened PosixPaths

  /** A sealed output; content is what its downloaded file holds now. */
  datatype Artifact = Artifact(
    name: string,
    size: nat,
    sha256: Digest<seq<bv8>>,
    mediaType: string,
    content: seq<bv8>)

  type Files = map<string, seq<bv8>>

  /** A published directory: the manifest file and the copied outputs. */
  datatype Directory = Directory(manifest: CandidateManifest, digest: Digest<CandidateManifest>, files: Files)

  type Bundles = map<Digest<CandidateManifest>, Directory>

  /** A role, and the declared path that fills it. */
  datatype Required = Required(role: string, path: string)

  // ------------------------------------------------------------------ names inside a bundle

  function Digit(d: nat): char
    requires d < 10
  {
    '0' + (d as char)
  }

  function Decimal(n: nat): string {
    if n < 10 then [Digit(n)] else Decimal(n / 10) + [Digit(n % 10)]
  }

  /** f"{n:02d}" */
  function TwoDigits(n: nat): string {
    if n < 10 then "0" + Decimal(n) else Decimal(n)
  }

  function BaseName(path: string): string {
    var parts := Parts(path);
    if |parts| == 0 then "" else parts[|parts| - 1]
  }

  function BundlePath(index: nat, path: string): string {
    "files/" + TwoDigits(index) + "-" + BaseName(path)
  }

  predicate IsDigit(c: char) {
    '0' <= c <= '9'
  }

  function Value(s: string): nat
    requires forall c | c in s :: IsDigit(c)
  {
    if |s| == 0 then 0
    else
      assert IsDigit(s[|s| - 1]);
      10 * Value(s[..|s| - 1]) + (s[|s| - 1] as int - '0' as int)
  }

  lemma {:induction false} DecimalReads(n: nat)
    ensures (forall c | c in Decimal(n) :: IsDigit(c)) && Value(Decimal(n)) == n
  {
    if n < 10 {
      assert Decimal(n)[..0] == "";
    } else {
      DecimalReads(n / 10);
      assert Decimal(n)[..|Decimal(n)| - 1] == Decimal(n / 10);
    }
  }

  lemma TwoDigitsReads(n: nat)
    ensures (forall c | c in TwoDigits(n) :: IsDigit(c)) && Value(TwoDigits(n)) == n
  {
    DecimalReads(n);
    if n < 10 {
      assert TwoDigits(n)[..1] == "0" && "0"[..0] == "";
    }
  }

  function BeforeDash(s: string): string {
    if |s| == 0 || s[0] == '-' then "" else [s[0]] + BeforeDash(s[1..])
  }

  lemma {:induction false} DashEnds(a: string, x: string)
    requires '-' !in a
    ensures BeforeDash(a + "-" + x) == a
  {
    var s := a + "-" + x;
    if |a| == 0 {
      assert s[0] == '-';
    } else {
      assert s[0] == a[0] && s[1..] == a[1..] + "-" + x;
      DashEnds(a[1..], x);
    }
  }

  /** Two outputs are never copied to the same place, whatever they are called. */
  lemma BundlePathsDiffer(i: nat, p: string, j: nat, q: string)
    requires BundlePath(i, p) == BundlePath(j, q)
    ensures i == j
  {
    TwoDigitsReads(i);
    TwoDigitsReads(j);
    hide TwoDigits, BaseName;
    var s, t := TwoDigits(i) + "-" + BaseName(p), TwoDigits(j) + "-" + BaseName(q);
    assert BundlePath(i, p) == "files/" + s && BundlePath(j, q) == "files/" + t;
    assert ("files/" + s)[6..] == s && ("files/" + t)[6..] == t;
    DashEnds(TwoDigits(i), BaseName(p));
    DashEnds(TwoDigits(j), BaseName(q));
  }

  // ------------------------------------------------------------------ collecting the outputs

  function Find(artifacts: seq<Artifact>, path: string): Option<Artifact> {
    if |artifacts| == 0 then None
    else if artifacts[0].name == path then Some(artifacts[0])
    else Find(artifacts[1..], path)
  }

  predicate Intact(a: Artifact) {
    |a.content| == a.size && Sha(a.content) == a.sha256
  }

  function FileFor(index: nat, required: Required, a: Artifact): CandidateFile {
    CandidateFile(required.role, a.name, BundlePath(index, required.path), a.size, a.sha256, a.mediaType)
  }

  datatype Collected = Collected(listed: seq<CandidateFile>, copies: Files)

  function Collect(outputs: seq<Required>, artifacts: seq<Artifact>): Result<Collected, Failure> {
    if |outputs| == 0 then Ok(Collected([], map[]))
    else
      var index := |outputs| - 1;
      var before := Collect(outputs[..index], artifacts);
      if before.Err? then before
      else
        match Find(artifacts, outputs[index].path)
        case None => Err(Contract)
        case Some(a) =>
          if !Intact(a) then Err(Infrastructure)
          else
            var file := FileFor(index, outputs[index], a);
            Ok(Collected(before.value.listed + [file], before.value.copies[file.bundlePath := a.content]))
  }

  lemma {:induction false} FailureStays(outputs: seq<Required>, artifacts: seq<Artifact>, i: nat)
    requires i <= |outputs| && Collect(outputs[..i], artifacts).Err?
    ensures Collect(outputs, artifacts) == Collect(outputs[..i], artifacts)
    decreases |outputs|
  {
    if i == |outputs| {
      assert outputs[..i] == outputs;
    } else {
      assert outputs[..|outputs| - 1][..i] == outputs[..i];
      FailureStays(outputs[..|outputs| - 1], artifacts, i);
    }
  }

  method FindArtifact(artifacts: seq<Artifact>, path: string) returns (found: Option<Artifact>)
    ensures found == Find(artifacts, path)
  {
    for i := 0 to |artifacts|
      invariant Find(artifacts, path) == Find(artifacts[i..], path)
    {
      assert artifacts[i..][1..] == artifacts[i + 1..];
      if artifacts[i].name == path {
        return Some(artifacts[i]);
      }
    }
    return None;
  }

  // ------------------------------------------------------------------ loading

  predicate FileIntact(file: CandidateFile, files: Files) {
    && file.bundlePath in files
    && |files[file.bundlePath]| == file.size
    && Sha(files[file.bundlePath]) == file.sha256
  }

  predicate AllIntact(listed: seq<CandidateFile>, files: Files) {
    forall file | file in listed :: FileIntact(file, files)
  }

  function Load(d: Directory): Result<CandidateBundle, Failure> {
    if Sha(d.manifest) != d.digest || !AllIntact(d.manifest.files, d.files) then Err(Contract)
    else Ok(CandidateBundle(d.manifest, d.digest))
  }

  method LoadCandidate(d: Directory) returns (r: Result<CandidateBundle, Failure>)
    ensures r == Load(d)
  {
    if Sha(d.manifest) != d.digest {
      return Err(Contract);
    }
    for i := 0 to |d.manifest.files|
      invariant AllIntact(d.manifest.files[..i], d.files)
    {
      var item := d.manifest.files[i];
      if item.bundlePath !in d.files || |d.files[item.bundlePath]| != item.size
         || Sha(d.files[item.bundlePath]) != item.sha256 {
        assert item in d.manifest.files;
        return Err(Contract);
      }
      assert forall x | x in d.manifest.files[..i + 1] :: x in d.manifest.files[..i] || x == item;
    }
    assert d.manifest.files[..|d.manifest.files|] == d.manifest.files;
    r := Ok(CandidateBundle(d.manifest, d.digest));
  }

  // ------------------------------------------------------------------ persisting

  function ManifestFor(e: Episode, run: string, harness: Identity, listed: seq<CandidateFile>): CandidateManifest {
    CandidateManifest(e.id, e.taskId, e.seedDigest, run, harness, e.candidate, listed)
  }

  datatype Persisted = Persisted(bundles: Bundles, result: Result<CandidateBundle, Failure>)

  /** A directory of that name is kept if it loads as the same bundle, and refused otherwise. */
  function Persist(bundles: Bundles, e: Episode, run: string, harness: Identity, outputs: seq<Required>,
                   artifacts: seq<Artifact>): Persisted
  {
    var collected := Collect(outputs, artifacts);
    if collected.Err? then Persisted(bundles, Err(collected.error))
    else
      var manifest := ManifestFor(e, run, harness, collected.value.listed);
      var bundle := CandidateBundle(manifest, Sha(manifest));
      if Sha(manifest) in bundles then
        var existing := Load(bundles[Sha(manifest)]);
        Persisted(bundles, if existing.Ok? && existing.value != bundle then Err(Contract) else existing)
      else
        Persisted(bundles[Sha(manifest) := Directory(manifest, Sha(manifest), collected.value.copies)], Ok(bundle))
  }

  class BundleStore {
    var bundles: Bundles

    constructor ()
      ensures bundles == map[]
    {
      bundles := map[];
    }

    method PersistCandidate(e: Episode, run: string, harness: Identity, outputs: seq<Required>,
                            artifacts: seq<Artifact>)
      returns (r: Result<CandidateBundle, Failure>)
      modifies this
      ensures Persisted(bundles, r) == Persist(old(bundles), e, run, harness, outputs, artifacts)
    {
      var files: seq<CandidateFile> := [];
      var temporary: Files := map[];
      for index := 0 to |outputs|
        invariant bundles == old(bundles)
        invariant Collect(outputs[..index], artifacts) == Ok(Collected(files, temporary))
      {
        assert outputs[..index + 1][..index] == outputs[..index] && outputs[..index + 1][index] == outputs[index];
        var required := outputs[index];
        var source := FindArtifact(artifacts, required.path);
        if source.None? {
          FailureStays(outputs, artifacts, index + 1);
          return Err(Contract);
        }
        var artifact := source.value;
        var bundlePath := BundlePath(index, required.path);
        temporary := temporary[bundlePath := artifact.content];
        if |artifact.content| != artifact.size || Sha(artifact.content) != artifact.sha256 {
          FailureStays(outputs, artifacts, index + 1);
          return Err(Infrastructure);
        }
        files := files + [CandidateFile(required.role, artifact.name, bundlePath, artifact.size, artifact.sha256,
                                        artifact.mediaType)];
      }
      assert outputs[..|outputs|] == outputs;
      var unsigned := CandidateManifest(e.id, e.taskId, e.seedDigest, run, harness, e.candidate, files);
      var digest := Sha(unsigned);
      var bundle := CandidateBundle(unsigned, digest);
      if digest in bundles {
        var existing := LoadCandidate(bundles[digest]);
        if existing.Ok? && existing.value != bundle {
          return Err(Contract);
        }
        return existing;
      }
      bundles := bundles[digest := Directory(unsigned, digest, temporary)];
      r := Ok(bundle);
    }
  }

  // ------------------------------------------------------------------ what was persisted loads again

  lemma {:induction false} CollectedEach(outputs: seq<Required>, artifacts: seq<Artifact>)
    requires Collect(outputs, artifacts).Ok?
    ensures
      var c := Collect(outputs, artifacts).value;
      && |c.listed| == |outputs|
      && (forall i | 0 <= i < |outputs| ::
            && c.listed[i].role == outputs[i].role
            && c.listed[i].bundlePath == BundlePath(i, outputs[i].path)
            && c.listed[i].bundlePath in c.copies
            && Find(artifacts, outputs[i].path).Some?
            && c.copies[c.listed[i].bundlePath] == Find(artifacts, outputs[i].path).value.content
            && Intact(Find(artifacts, outputs[i].path).value)
            && c.listed[i] == FileFor(i, outputs[i], Find(artifacts, outputs[i].path).value))
    decreases |outputs|
  {
    hide BundlePath, Find, Intact;
    if |outputs| > 0 {
      var last := |outputs| - 1;
      CollectedEach(outputs[..last], artifacts);
      forall i | 0 <= i < last ensures BundlePath(i, outputs[i].path) != BundlePath(last, outputs[last].path) {
        if BundlePath(i, outputs[i].path) == BundlePath(last, outputs[last].path) {
          BundlePathsDiffer(i, outputs[i].path, last, outputs[last].path);
        }
      }
    }
  }

  lemma CollectedIntact(outputs: seq<Required>, artifacts: seq<Artifact>)
    requires Collect(outputs, artifacts).Ok?
    ensures AllIntact(Collect(outputs, artifacts).value.listed, Collect(outputs, artifacts).value.copies)
  {
    CollectedEach(outputs, artifacts);
    var c := Collect(outputs, artifacts).value;
    forall file | file in c.listed ensures FileIntact(file, c.copies) {
      var i :| 0 <= i < |c.listed| && c.listed[i] == file;
      assert c.listed[i] == FileFor(i, outputs[i], Find(artifacts, outputs[i].path).value);
    }
  }

  /** Every earlier bundle stays as it was. */
  ghost predicate Kept(bundles: Bundles, bundles': Bundles) {
    forall d | d in bundles :: d in bundles' && bundles'[d] == bundles[d]
  }

  /**
   * load(persist(x)) == x, for any outputs, also ones that share a base name: the published directory
   * loads as the returned bundle, its manifest names the episode and the Run, and no other bundle
   * was touched.
   */
  lemma PersistLoads(bundles: Bundles, e: Episode, run: string, harness: Identity, outputs: seq<Required>,
                     artifacts: seq<Artifact>)
    ensures
      var p := Persist(bundles, e, run, harness, outputs, artifacts);
      && Kept(bundles, p.bundles)
      && (p.result.Ok? ==>
            var bundle := p.result.value;
            && bundle.digest == Sha(bundle.manifest)
            && bundle.digest in p.bundles
            && Load(p.bundles[bundle.digest]) == Ok(bundle)
            && bundle.manifest == ManifestFor(e, run, harness, bundle.manifest.files))
  {
    var collected := Collect(outputs, artifacts);
    if collected.Ok? {
      CollectedIntact(outputs, artifacts);
    }
  }

  /** After a crash between publication and the record update, persisting again reuses the same bundle. */
  lemma PersistAgain(bundles: Bundles, e: Episode, run: string, harness: Identity, outputs: seq<Required>,
                     artifacts: seq<Artifact>)
    requires Persist(bundles, e, run, harness, outputs, artifacts).result.Ok?
    ensures
      var p := Persist(bundles, e, run, harness, outputs, artifacts);
      Persist(p.bundles, e, run, harness, outputs, artifacts) == p
  {
    PersistLoads(bundles, e, run, harness, outputs, artifacts);
  }

  /** A bundle holds, for every required role, the bytes that the Run sealed under its path. */
  lemma BundleHoldsOutputs(bundles: Bundles, e: Episode, run: string, harness: Identity, outputs: seq<Required>,
                           artifacts: seq<Artifact>, i: nat)
    requires Persist(bundles, e, run, harness, outputs, artifacts).result.Ok? && i < |outputs|
    ensures
      var p := Persist(bundles, e, run, harness, outputs, artifacts);
      var files := p.result.value.manifest.files;
      && |files| == |outputs|
      && files[i].role == outputs[i].role
      && p.result.value.digest in p.bundles
      && files[i].bundlePath in p.bundles[p.result.value.digest].files
      && Find(artifacts, outputs[i].path).Some?
      && p.bundles[p.result.value.digest].files[files[i].bundlePath] == Find(artifacts, outputs[i].path).value.content
  {
    PersistLoads(bundles, e, run, harness, outputs, artifacts);
    CollectedEach(outputs, artifacts);
    var p := Persist(bundles, e, run, harness, outputs, artifacts);
    var file := p.result.value.manifest.files[i];
    assert file in p.result.value.manifest.files;
    assert FileIntact(file, p.bundles[p.result.value.digest].files);
  }

  /**
   * Tampering is refused: whatever directory loads under the digest of a persisted bundle holds the bytes
   * that the Run sealed for each role, and the provenance of the episode and Run.
   */
  lemma LoadedHoldsOutputs(bundles: Bundles, e: Episode, run: string, harness: Identity, outputs: seq<Required>,
                           artifacts: seq<Artifact>, d: Directory, i: nat)
    requires Persist(bundles, e, run, harness, outputs, artifacts).result.Ok? && i < |outputs|
    requires Load(d).Ok?
    requires Load(d).value.digest == Persist(bundles, e, run, harness, outputs, artifacts).result.value.digest
    ensures Load(d) == Persist(bundles, e, run, harness, outputs, artifacts).result
    ensures d.manifest == ManifestFor(e, run, harness, d.manifest.files) && |d.manifest.files| == |outputs|
    ensures
      var file := d.manifest.files[i];
      && file.role == outputs[i].role
      && file.bundlePath in d.files
      && Find(artifacts, outputs[i].path).Some?
      && d.files[file.bundlePath] == Find(artifacts, outputs[i].path).value.content
  {
    PersistLoads(bundles, e, run, harness, outputs, artifacts);
    BundleHoldsOutputs(bundles, e, run, harness, outputs, artifacts, i);
    var published := Persist(bundles, e, run, harness, outputs, artifacts);
    var file := d.manifest.files[i];
    assert file in d.manifest.files && d.manifest == published.result.value.manifest;
    assert FileIntact(file, d.files) && FileIntact(file, published.bundles[d.digest].files);
  }
}
