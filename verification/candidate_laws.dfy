/** What a candidate bundle consists of, and exactly when one is published, returned or read. */
module CandidateLaws {
  import opened Models
  import opened PosixPaths
  import opened Candidates

  /** The first artifact of that name: a later one of the same name is never looked at. */
  ghost predicate Names(artifacts: seq<Artifact>, path: string, a: Artifact) {
    exists j :: 0 <= j < |artifacts| && artifacts[j] == a && a.name == path
                && forall i | 0 <= i < j :: artifacts[i].name != path
  }

  lemma {:induction false} FindIff(artifacts: seq<Artifact>, path: string)
    ensures Find(artifacts, path).None? <==> forall a | a in artifacts :: a.name != path
    ensures forall a :: Find(artifacts, path) == Some(a) <==> Names(artifacts, path, a)
    decreases |artifacts|
  {
    if |artifacts| > 0 {
      var rest := artifacts[1..];
      FindIff(rest, path);
      if artifacts[0].name == path {
        assert Names(artifacts, path, artifacts[0]);
      } else {
        forall a ensures Names(artifacts, path, a) <==> Names(rest, path, a) {
          if Names(rest, path, a) {
            var j :| 0 <= j < |rest| && rest[j] == a && forall i | 0 <= i < j :: rest[i].name != path;
            forall i | 0 <= i < j + 1 ensures artifacts[i].name != path {
              if i > 0 { assert artifacts[i] == rest[i - 1]; }
            }
            assert artifacts[j + 1] == a;
          }
          if Names(artifacts, path, a) {
            var j :| 0 <= j < |artifacts| && artifacts[j] == a && forall i | 0 <= i < j :: artifacts[i].name != path;
            forall i | 0 <= i < j - 1 ensures rest[i].name != path { assert rest[i] == artifacts[i + 1]; }
            assert rest[j - 1] == a;
          }
        }
      }
    }
  }

  /** The downloaded file still has the size and the digest that the Run sealed. */
  ghost predicate Undamaged(a: Artifact) {
    a.size == |a.content| && a.sha256 == Sha(a.content)
  }

  /** The entry of one required output. */
  ghost predicate Entry(index: nat, required: Required, a: Artifact, file: CandidateFile) {
    && file.role == required.role
    && file.declaredPath == required.path
    && file.bundlePath == BundlePath(index, required.path)
    && file.size == |a.content|
    && file.sha256 == Sha(a.content)
    && file.mediaType == a.mediaType
  }

  /** Every required output is there, undamaged, and listed at its place. */
  ghost predicate Listed(outputs: seq<Required>, artifacts: seq<Artifact>, files: seq<CandidateFile>) {
    && |files| == |outputs|
    && forall i | 0 <= i < |outputs| ::
         exists a :: Names(artifacts, outputs[i].path, a) && Undamaged(a) && Entry(i, outputs[i], a, files[i])
  }

  ghost predicate Missing(artifacts: seq<Artifact>, path: string) {
    forall a | a in artifacts :: a.name != path
  }

  ghost predicate Sealed(artifacts: seq<Artifact>, path: string) {
    exists a :: Names(artifacts, path, a) && Undamaged(a)
  }

  lemma NamesOnce(artifacts: seq<Artifact>, path: string, a: Artifact)
    requires Names(artifacts, path, a)
    ensures Find(artifacts, path) == Some(a)
  {
    FindIff(artifacts, path);
  }

  lemma SealedIff(artifacts: seq<Artifact>, path: string)
    ensures Sealed(artifacts, path) <==> Find(artifacts, path).Some? && Undamaged(Find(artifacts, path).value)
    ensures Find(artifacts, path).Some? ==> Names(artifacts, path, Find(artifacts, path).value)
    ensures Find(artifacts, path).Some? ==> Find(artifacts, path).value.name == path
  {
    FindIff(artifacts, path);
    hide Find;
  }

  lemma {:induction false} CollectIff(outputs: seq<Required>, artifacts: seq<Artifact>)
    ensures Collect(outputs, artifacts).Ok? <==> forall i | 0 <= i < |outputs| :: Sealed(artifacts, outputs[i].path)
    ensures Collect(outputs, artifacts).Ok? ==> Listed(outputs, artifacts, Collect(outputs, artifacts).value.listed)
    decreases |outputs|
  {
    hide BundlePath, Find, Sealed, Names;
    if |outputs| > 0 {
      var index := |outputs| - 1;
      var front, last := outputs[..index], outputs[index];
      CollectIff(front, artifacts);
      SealedIff(artifacts, last.path);
      assert forall i | 0 <= i < index :: front[i] == outputs[i];
      if Collect(outputs, artifacts).Ok? {
        var a := Find(artifacts, last.path).value;
        assert Entry(index, last, a, FileFor(index, last, a));
      }
      assert (forall i | 0 <= i < |outputs| :: Sealed(artifacts, outputs[i].path)) <==>
             (forall i | 0 <= i < index :: Sealed(artifacts, front[i].path)) && Sealed(artifacts, last.path);
    }
  }

  lemma EntryOnce(index: nat, required: Required, x: Artifact, a: CandidateFile, b: CandidateFile)
    requires Entry(index, required, x, a) && Entry(index, required, x, b)
    ensures a == b
  {
    hide BundlePath;
  }

  /** There is one list of entries for given artifacts. */
  lemma ListedOnce(outputs: seq<Required>, artifacts: seq<Artifact>, a: seq<CandidateFile>, b: seq<CandidateFile>)
    requires Listed(outputs, artifacts, a) && Listed(outputs, artifacts, b)
    ensures a == b
  {
    hide Names, Undamaged, BundlePath, Find;
    forall i | 0 <= i < |a| ensures a[i] == b[i] {
      var x :| Names(artifacts, outputs[i].path, x) && Entry(i, outputs[i], x, a[i]);
      var y :| Names(artifacts, outputs[i].path, y) && Entry(i, outputs[i], y, b[i]);
      NamesOnce(artifacts, outputs[i].path, x);
      NamesOnce(artifacts, outputs[i].path, y);
      EntryOnce(i, outputs[i], x, a[i], b[i]);
    }
  }

  /** The manifest says where the candidate comes from. */
  ghost predicate From(e: Episode, run: string, harness: Identity, m: CandidateManifest) {
    && m.episodeId == e.id && m.taskId == e.taskId && m.seedDigest == e.seedDigest
    && m.inferenceRun == run && m.harness == harness && m.candidate == e.candidate
  }

  /** Every listed file lies in the directory, with its size and its digest. */
  ghost predicate Undisturbed(d: Directory, m: CandidateManifest) {
    && d.manifest == m && d.digest == Sha(m)
    && forall i | 0 <= i < |m.files| ::
         && m.files[i].bundlePath in d.files
         && |d.files[m.files[i].bundlePath]| == m.files[i].size
         && Sha(d.files[m.files[i].bundlePath]) == m.files[i].sha256
  }

  /** A directory is read exactly if it is undisturbed. */
  lemma LoadIff(d: Directory, b: CandidateBundle)
    ensures Load(d) == Ok(b) <==> Undisturbed(d, b.manifest) && b.digest == Sha(b.manifest)
    ensures Load(d).Err? ==> Load(d).error == Contract
  {
    assert forall i | 0 <= i < |d.manifest.files| :: d.manifest.files[i] in d.manifest.files;
  }

  /**
   * Persisting returns exactly the bundle of the required outputs, unless a directory of its name was
   * there before and has been tampered with.
   */
  lemma PersistIff(bundles: Bundles, e: Episode, run: string, harness: Identity, outputs: seq<Required>,
                   artifacts: seq<Artifact>, b: CandidateBundle)
    ensures
      Persist(bundles, e, run, harness, outputs, artifacts).result == Ok(b)
      <==>
        && Listed(outputs, artifacts, b.manifest.files)
        && From(e, run, harness, b.manifest)
        && b.digest == Sha(b.manifest)
        && (b.digest in bundles ==> Undisturbed(bundles[b.digest], b.manifest))
  {
    CollectIff(outputs, artifacts);
    var collected := Collect(outputs, artifacts);
    if collected.Ok? {
      var m := ManifestFor(e, run, harness, collected.value.listed);
      if Listed(outputs, artifacts, b.manifest.files) {
        ListedOnce(outputs, artifacts, b.manifest.files, collected.value.listed);
      }
      if Sha(m) in bundles { LoadIff(bundles[Sha(m)], CandidateBundle(m, Sha(m))); }
      hide Listed, Load, Undisturbed, Collect;
    } else {
      ListedSealed(outputs, artifacts, b.manifest.files);
      hide Listed, Sealed, Collect;
    }
  }

  lemma ListedSealed(outputs: seq<Required>, artifacts: seq<Artifact>, files: seq<CandidateFile>)
    ensures Listed(outputs, artifacts, files) ==> forall i | 0 <= i < |outputs| :: Sealed(artifacts, outputs[i].path)
  {
    hide Names, Undamaged, Entry;
  }

  /**
   * The first output in declared order that is not sealed decides how persisting fails: a missing one breaks
   * the contract, a damaged one is an infrastructure failure. Nothing is published then.
   */
  lemma FirstFailureDecides(bundles: Bundles, e: Episode, run: string, harness: Identity, outputs: seq<Required>,
                            artifacts: seq<Artifact>, i: nat)
    requires i < |outputs| && !Sealed(artifacts, outputs[i].path)
    requires forall j | 0 <= j < i :: Sealed(artifacts, outputs[j].path)
    ensures Persist(bundles, e, run, harness, outputs, artifacts)
            == Persisted(bundles, Err(if Missing(artifacts, outputs[i].path) then Contract else Infrastructure))
  {
    var front := outputs[..i + 1];
    CollectIff(front[..i], artifacts);
    assert forall j | 0 <= j < i :: front[..i][j] == outputs[j];
    FindIff(artifacts, outputs[i].path);
    SealedIff(artifacts, outputs[i].path);
    hide Find, Sealed;
    FailureStays(outputs, artifacts, i + 1);
  }

  /** Persisting all sealed outputs fails only for a disturbed directory of that name, which stays as it is. */
  lemma DisturbedIsRefused(bundles: Bundles, e: Episode, run: string, harness: Identity, outputs: seq<Required>,
                           artifacts: seq<Artifact>)
    requires forall i | 0 <= i < |outputs| :: Sealed(artifacts, outputs[i].path)
    requires Persist(bundles, e, run, harness, outputs, artifacts).result.Err?
    ensures Persist(bundles, e, run, harness, outputs, artifacts) == Persisted(bundles, Err(Contract))
  {
    CollectIff(outputs, artifacts);
    hide Sealed, Collect;
  }

  /** A published directory holds the copies of the outputs and nothing else. */
  lemma NothingElse(bundles: Bundles, e: Episode, run: string, harness: Identity, outputs: seq<Required>,
                    artifacts: seq<Artifact>, b: CandidateBundle)
    requires Persist(bundles, e, run, harness, outputs, artifacts).result == Ok(b) && b.digest !in bundles
    ensures
      var p := Persist(bundles, e, run, harness, outputs, artifacts);
      && p.bundles.Keys == bundles.Keys + {b.digest}
      && Undisturbed(p.bundles[b.digest], b.manifest)
      && p.bundles[b.digest].files.Keys == set i | 0 <= i < |outputs| :: BundlePath(i, outputs[i].path)
  {
    PersistLoads(bundles, e, run, harness, outputs, artifacts);
    var p := Persist(bundles, e, run, harness, outputs, artifacts);
    LoadIff(p.bundles[b.digest], b);
    CopiedKeys(outputs, artifacts);
  }

  lemma {:induction false} CopiedKeys(outputs: seq<Required>, artifacts: seq<Artifact>)
    requires Collect(outputs, artifacts).Ok?
    ensures Collect(outputs, artifacts).value.copies.Keys
            == set i | 0 <= i < |outputs| :: BundlePath(i, outputs[i].path)
    decreases |outputs|
  {
    hide BundlePath, Find;
    if |outputs| > 0 {
      var index := |outputs| - 1;
      CopiedKeys(outputs[..index], artifacts);
      assert forall i | 0 <= i < index :: outputs[..index][i] == outputs[i];
    }
  }

  // ------------------------------------------------------------------ where a copy lies

  lemma {:induction false} LastKept(parts: seq<string>, last: string)
    requires last != "" && last != "."
    ensures PosixPaths.Kept(parts + [last]) == PosixPaths.Kept(parts) + [last]
  {
    if |parts| == 0 {
      assert PosixPaths.Kept([last]) == [last] + PosixPaths.Kept([]);
    } else {
      assert (parts + [last])[1..] == parts[1..] + [last];
      LastKept(parts[1..], last);
    }
  }

  lemma {:induction false} SplitLast(parent: string, name: string)
    requires '/' !in name
    ensures Split(parent + "/" + name) == Split(parent) + [name]
  {
    if |parent| == 0 {
      SplitFirst("", name);
      SplitWhole(name);
      assert parent + "/" + name == "" + "/" + name;
    } else {
      var whole := parent + "/" + name;
      assert whole[0] == parent[0] && whole[1..] == parent[1..] + "/" + name;
      SplitLast(parent[1..], name);
    }
  }

  /** A copy lies below files/, under the two-digit index of its output and the last name of its path. */
  lemma CopyIsNamed(index: nat, parent: string, name: string)
    requires '/' !in name && name != "" && name != "."
    ensures exists digits: string ::
              && |digits| >= 2
              && (forall c | c in digits :: IsDigit(c))
              && Value(digits) == index
              && BundlePath(index, parent + "/" + name) == "files/" + digits + "-" + name
              && BundlePath(index, name) == "files/" + digits + "-" + name
  {
    LastNames(parent, name);
    TwoDigitsReads(index);
    hide BaseName, Value;
    assert |TwoDigits(index)| >= 2 by { assert index >= 10 ==> |Decimal(index / 10)| >= 1; }
    hide TwoDigits;
    assert BundlePath(index, name) == "files/" + TwoDigits(index) + "-" + name;
  }

  lemma LastNames(parent: string, name: string)
    requires '/' !in name && name != "" && name != "."
    ensures BaseName(parent + "/" + name) == name && BaseName(name) == name
  {
    SplitLast(parent, name);
    SplitWhole(name);
    LastKept(Split(parent), name);
    LastKept([], name);
    assert [] + [name] == [name];
  }
}
