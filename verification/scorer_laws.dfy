/** What the published details mean, stated without the loops that compute them. */
module ScorerLaws {
  import opened Strings
  import opened Scorer

  // ------------------------------------------------------------------ an independent reading

  /** The tests of a branch that are scored: the active ones and every observed one not ignored. */
  function Names(expected: Expected, value: BranchResult): set<string> {
    (set n | n in expected.active) + if value.status.BranchError? then {} else Got(value.tests, expected.ignored)
  }

  /** Status of the last observation of a name. */
  function LastStatus(tests: seq<Observation>, name: string): Status
    requires exists item :: item in tests && item.name == name
  {
    var last := tests[|tests| - 1];
    if last.name == name then last.status
    else
      var item :| item in tests && item.name == name;
      assert item in tests[..|tests| - 1];
      LastStatus(tests[..|tests| - 1], name)
  }

  function Final(expected: Expected, value: BranchResult, name: string): Status {
    if !value.status.BranchError? && name in Got(value.tests, expected.ignored) then LastStatus(value.tests, name)
    else NotRun
  }

  type Pair = (string, string)

  function Pairs(order: seq<string>, tests: map<string, Expected>, values: map<string, BranchResult>): set<Pair>
    requires forall b | b in order :: b in tests && b in values
  {
    set b, n | b in order && n in Names(tests[b], values[b]) :: (b, n)
  }

  /** The pairs whose score is the given status. */
  function Scored(order: seq<string>, tests: map<string, Expected>, values: map<string, BranchResult>, status: Status)
    : set<Pair>
    requires forall b | b in order :: b in tests && b in values
  {
    set b, n | b in order && n in Names(tests[b], values[b]) && Final(tests[b], values[b], n) == status :: (b, n)
  }

  predicate SlashFree(s: string) {
    '/' !in s
  }

  ghost predicate KeysDistinct(pairs: set<Pair>) {
    forall p, q | p in pairs && q in pairs && Key(p.0, p.1) == Key(q.0, q.1) :: p == q
  }

  /** The branch has a scored pair under this full test name. */
  ghost predicate Touches(tests: map<string, Expected>, values: map<string, BranchResult>, b: string, k: string)
    requires b in tests && b in values
  {
    exists n :: n in Names(tests[b], values[b]) && Key(b, n) == k
  }

  /** No other branch with a pair of the same full test name is visited after the branch of this pair. */
  ghost predicate Decides(order: seq<string>, tests: map<string, Expected>, values: map<string, BranchResult>, p: Pair)
    requires forall b | b in order :: b in tests && b in values
  {
    && p in Pairs(order, tests, values)
    && exists i :: 0 <= i < |order| && order[i] == p.0
                   && forall j | i < j < |order| && order[j] != p.0 :: !Touches(tests, values, order[j], Key(p.0, p.1))
  }

  ghost function Deciding(order: seq<string>, tests: map<string, Expected>, values: map<string, BranchResult>)
    : set<Pair>
    requires forall b | b in order :: b in tests && b in values
  {
    set p | p in Pairs(order, tests, values) && Decides(order, tests, values, p)
  }

  /** The deciding pairs whose score is the given status. */
  ghost function DecidedAs(order: seq<string>, tests: map<string, Expected>, values: map<string, BranchResult>,
                           status: Status): set<Pair>
    requires forall b | b in order :: b in tests && b in values
  {
    Scored(order, tests, values, status) * Deciding(order, tests, values)
  }

  // ------------------------------------------------------------------ keys

  lemma SameBranchKeys(b: string, n: string, n': string)
    requires Key(b, n) == Key(b, n')
    ensures n == n'
  {
    assert Key(b, n)[|b| + 1..] == n;
    assert Key(b, n')[|b| + 1..] == n';
  }

  lemma SlashFreeKeys(b: string, n: string, b': string, n': string)
    requires SlashFree(b) && SlashFree(b') && Key(b, n) == Key(b', n')
    ensures b == b' && n == n'
  {
    assert Key(b, n)[|b|] == '/' && Key(b', n')[|b'|] == '/';
    assert Key(b, n)[..|b|] == b && Key(b', n')[..|b'|] == b';
    SameBranchKeys(b, n, n');
  }

  // ------------------------------------------------------------------ one branch

  lemma {:induction false} ObservedHit(m: Table, b: string, tests: seq<Observation>, ignored: set<string>, n: string)
    requires n in Got(tests, ignored)
    ensures
      var r := AddObserved(m, b, tests, ignored);
      Key(b, n) in r && r[Key(b, n)] == Entry(b, n, LastStatus(tests, n))
    decreases |tests|
  {
    var last := tests[|tests| - 1];
    if last.name != n {
      assert n in Got(tests[..|tests| - 1], ignored);
      ObservedHit(m, b, tests[..|tests| - 1], ignored, n);
      if Key(b, last.name) == Key(b, n) { SameBranchKeys(b, last.name, n); }
    }
  }

  /** Outside the given keys two tables agree. */
  ghost predicate Agree(m: Table, r: Table, k: string) {
    (k in r <==> k in m) && (k in m ==> r[k] == m[k])
  }

  lemma {:induction false} ObservedMiss(m: Table, b: string, tests: seq<Observation>, ignored: set<string>, k: string)
    requires forall n | n in Got(tests, ignored) :: k != Key(b, n)
    ensures Agree(m, AddObserved(m, b, tests, ignored), k)
    decreases |tests|
  {
    if |tests| > 0 {
      var before := tests[..|tests| - 1];
      assert tests == before + [tests[|tests| - 1]];
      assert Got(before, ignored) <= Got(tests, ignored);
      ObservedMiss(m, b, before, ignored, k);
    }
  }

  lemma {:induction false} MissingHit(m: Table, b: string, active: seq<string>, got: set<string>, n: string)
    requires n in active && n !in got
    ensures
      var r := AddMissing(m, b, active, got);
      Key(b, n) in r && r[Key(b, n)] == Entry(b, n, NotRun)
    decreases |active|
  {
    var last := active[|active| - 1];
    if last != n {
      MissingHit(m, b, active[..|active| - 1], got, n);
      if Key(b, last) == Key(b, n) { SameBranchKeys(b, last, n); }
    }
  }

  lemma {:induction false} MissingMiss(m: Table, b: string, active: seq<string>, got: set<string>, k: string)
    requires forall n | n in active && n !in got :: k != Key(b, n)
    ensures Agree(m, AddMissing(m, b, active, got), k)
    decreases |active|
  {
    if |active| > 0 {
      MissingMiss(m, b, active[..|active| - 1], got, k);
    }
  }

  lemma BranchHit(m: Table, b: string, expected: Expected, value: BranchResult, n: string)
    requires n in Names(expected, value)
    ensures
      var r := AddBranch(m, b, expected, value);
      Key(b, n) in r && r[Key(b, n)] == Entry(b, n, Final(expected, value, n))
  {
    if value.status.BranchError? {
      MissingHit(m, b, expected.active, {}, n);
    } else {
      var observed := AddObserved(m, b, value.tests, expected.ignored);
      var got := Got(value.tests, expected.ignored);
      if n in got {
        ObservedHit(m, b, value.tests, expected.ignored, n);
        forall n' | n' in expected.active && n' !in got ensures Key(b, n) != Key(b, n') {
          if Key(b, n) == Key(b, n') { SameBranchKeys(b, n, n'); }
        }
        MissingMiss(observed, b, expected.active, got, Key(b, n));
      } else {
        MissingHit(observed, b, expected.active, got, n);
      }
    }
  }

  lemma BranchMiss(m: Table, b: string, expected: Expected, value: BranchResult, k: string)
    requires forall n | n in Names(expected, value) :: k != Key(b, n)
    ensures Agree(m, AddBranch(m, b, expected, value), k)
  {
    if value.status.BranchError? {
      MissingMiss(m, b, expected.active, {}, k);
    } else {
      ObservedMiss(m, b, value.tests, expected.ignored, k);
      MissingMiss(AddObserved(m, b, value.tests, expected.ignored), b, expected.active,
                  Got(value.tests, expected.ignored), k);
    }
  }

  // ------------------------------------------------------------------ all branches

  lemma {:induction false} MergeHas(order: seq<string>, tests: map<string, Expected>, values: map<string, BranchResult>,
                                    b: string, n: string)
    requires forall b | b in order :: b in tests && b in values
    requires b in order && n in Names(tests[b], values[b])
    ensures Key(b, n) in Merge(order, tests, values)
    decreases |order|
  {
    var last := order[|order| - 1];
    var before := order[..|order| - 1];
    var m := Merge(before, tests, values);
    if last == b {
      BranchHit(m, b, tests[b], values[b], n);
    } else {
      MergeHas(before, tests, values, b, n);
      if n' :| n' in Names(tests[last], values[last]) && Key(b, n) == Key(last, n') {
        BranchHit(m, last, tests[last], values[last], n');
      } else {
        BranchMiss(m, last, tests[last], values[last], Key(b, n));
      }
    }
  }

  /** Every key of the mapping is that of a deciding pair. */
  lemma {:induction false} Decider(order: seq<string>, tests: map<string, Expected>, values: map<string, BranchResult>,
                                   k: string) returns (p: Pair)
    requires forall b | b in order :: b in tests && b in values
    requires k in Merge(order, tests, values)
    ensures Decides(order, tests, values, p) && k == Key(p.0, p.1)
    decreases |order|
  {
    var last := order[|order| - 1];
    var before := order[..|order| - 1];
    var m := Merge(before, tests, values);
    if Touches(tests, values, last, k) {
      var n :| n in Names(tests[last], values[last]) && k == Key(last, n);
      p := (last, n);
      assert order[|order| - 1] == p.0;
    } else {
      BranchMiss(m, last, tests[last], values[last], k);
      p := Decider(before, tests, values, k);
      assert p in Pairs(order, tests, values);
      var i :| 0 <= i < |before| && before[i] == p.0
               && forall j | i < j < |before| && before[j] != p.0 :: !Touches(tests, values, before[j], k);
      assert order[i] == p.0;
      forall j | i < j < |order| && order[j] != p.0 ensures !Touches(tests, values, order[j], k) {
        assert j < |before| ==> order[j] == before[j];
      }
    }
  }

  function KeyImage(pairs: set<Pair>): set<string> {
    set p | p in pairs :: Key(p.0, p.1)
  }

  /** On every input the mapping has exactly the keys of the scored pairs. */
  lemma MergeKeys(order: seq<string>, tests: map<string, Expected>, values: map<string, BranchResult>)
    requires forall b | b in order :: b in tests && b in values
    ensures Merge(order, tests, values).Keys == KeyImage(Pairs(order, tests, values))
  {
    var m := Merge(order, tests, values);
    forall k | k in m.Keys ensures k in KeyImage(Pairs(order, tests, values)) {
      var p := Decider(order, tests, values, k);
      assert p in Pairs(order, tests, values);
    }
    forall k | k in KeyImage(Pairs(order, tests, values)) ensures k in m.Keys {
      var p :| p in Pairs(order, tests, values) && k == Key(p.0, p.1);
      MergeHas(order, tests, values, p.0, p.1);
    }
  }

  /** The key of a deciding pair holds the final status of that pair. */
  lemma {:induction false} MergeDecided(order: seq<string>, tests: map<string, Expected>,
                                        values: map<string, BranchResult>, p: Pair)
    requires forall b | b in order :: b in tests && b in values
    requires Decides(order, tests, values, p)
    ensures
      var m := Merge(order, tests, values);
      Key(p.0, p.1) in m && m[Key(p.0, p.1)] == Entry(p.0, p.1, Final(tests[p.0], values[p.0], p.1))
    decreases |order|
  {
    var last := order[|order| - 1];
    var before := order[..|order| - 1];
    var k := Key(p.0, p.1);
    var m := Merge(before, tests, values);
    if last == p.0 {
      BranchHit(m, last, tests[last], values[last], p.1);
    } else {
      var i :| 0 <= i < |order| && order[i] == p.0
               && forall j | i < j < |order| && order[j] != p.0 :: !Touches(tests, values, order[j], k);
      assert before[i] == p.0 && !Touches(tests, values, order[|order| - 1], k);
      assert forall j | i < j < |before| :: before[j] == order[j];
      MergeDecided(before, tests, values, p);
      BranchMiss(m, last, tests[last], values[last], k);
    }
  }

  /** What a key of the finished mapping says: the last branch that knows the full name decides. */
  lemma KeyDescribes(order: seq<string>, tests: map<string, Expected>, values: map<string, BranchResult>, k: string)
    requires forall b | b in order :: b in tests && b in values
    requires k in Merge(order, tests, values)
    ensures
      var item := Merge(order, tests, values)[k];
      && k == Key(item.branch, item.name)
      && Decides(order, tests, values, (item.branch, item.name))
      && item.status == Final(tests[item.branch], values[item.branch], item.name)
  {
    var p := Decider(order, tests, values, k);
    MergeDecided(order, tests, values, p);
  }

  /** Every scored pair decides its entry exactly when no two scored pairs share a full test name. */
  lemma DecidingIff(order: seq<string>, tests: map<string, Expected>, values: map<string, BranchResult>)
    requires forall b | b in order :: b in tests && b in values
    ensures KeysDistinct(Deciding(order, tests, values))
    ensures KeyImage(Deciding(order, tests, values)) == Merge(order, tests, values).Keys
    ensures Deciding(order, tests, values) == Pairs(order, tests, values)
            <==> KeysDistinct(Pairs(order, tests, values))
  {
    var pairs, deciding := Pairs(order, tests, values), Deciding(order, tests, values);
    forall p, q | p in deciding && q in deciding && Key(p.0, p.1) == Key(q.0, q.1) ensures p == q {
      MergeDecided(order, tests, values, p);
      MergeDecided(order, tests, values, q);
    }
    forall k ensures k in KeyImage(deciding) <==> k in Merge(order, tests, values) {
      if k in Merge(order, tests, values) {
        var p := Decider(order, tests, values, k);
        assert p in deciding;
      }
      if k in KeyImage(deciding) {
        var p :| p in deciding && Key(p.0, p.1) == k;
        MergeDecided(order, tests, values, p);
      }
    }
    if KeysDistinct(pairs) {
      forall p | p in pairs ensures p in deciding { DistinctDecides(order, tests, values, p); }
    }
  }

  lemma DistinctDecides(order: seq<string>, tests: map<string, Expected>, values: map<string, BranchResult>, p: Pair)
    requires forall b | b in order :: b in tests && b in values
    requires KeysDistinct(Pairs(order, tests, values)) && p in Pairs(order, tests, values)
    ensures Decides(order, tests, values, p)
  {
    var i :| 0 <= i < |order| && order[i] == p.0;
    forall j | i < j < |order| && order[j] != p.0 ensures !Touches(tests, values, order[j], Key(p.0, p.1)) {
      forall n | n in Names(tests[order[j]], values[order[j]]) ensures Key(order[j], n) != Key(p.0, p.1) {
        assert (order[j], n) in Pairs(order, tests, values);
      }
    }
  }

  // ------------------------------------------------------------------ how many entries

  lemma {:induction false} ImageSize(pairs: set<Pair>)
    ensures |KeyImage(pairs)| <= |pairs|
    ensures |KeyImage(pairs)| == |pairs| <==> KeysDistinct(pairs)
    decreases pairs
  {
    if pairs != {} {
      var p :| p in pairs;
      var rest := pairs - {p};
      var k := Key(p.0, p.1);
      ImageSize(rest);
      assert KeyImage(pairs) == KeyImage(rest) + {k};
      if k in KeyImage(rest) {
        var q :| q in rest && Key(q.0, q.1) == k;
        assert KeyImage(pairs) == KeyImage(rest);
        assert p != q && p in pairs && q in pairs;
      } else {
        forall x, y | x in pairs && y in pairs && KeysDistinct(rest) && Key(x.0, x.1) == Key(y.0, y.1)
          ensures x == y
        {
          assert x in rest || x == p;
          assert y in rest || y == p;
        }
      }
    }
  }

  /** One entry per scored pair, exactly when no two scored pairs share a full test name. */
  lemma EntryPerPairIff(order: seq<string>, tests: map<string, Expected>, values: map<string, BranchResult>,
                        executable: string)
    requires forall b | b in order :: b in tests && b in values
    ensures |Aggregated(order, tests, values, executable).tests| <= |Pairs(order, tests, values)|
    ensures |Aggregated(order, tests, values, executable).tests| == |Pairs(order, tests, values)|
            <==> KeysDistinct(Pairs(order, tests, values))
  {
    MergeKeys(order, tests, values);
    ImageSize(Pairs(order, tests, values));
  }

  /** Slash-free branch names, which the locked cases have, make full test names distinct. */
  lemma SlashFreeDistinct(order: seq<string>, tests: map<string, Expected>, values: map<string, BranchResult>)
    requires forall b | b in order :: b in tests && b in values && SlashFree(b)
    ensures KeysDistinct(Pairs(order, tests, values))
  {
    forall p, q | p in Pairs(order, tests, values) && q in Pairs(order, tests, values) && Key(p.0, p.1) == Key(q.0, q.1)
      ensures p == q
    {
      SlashFreeKeys(p.0, p.1, q.0, q.1);
    }
  }

  predicate Extends(b: string, b': string) {
    |b| < |b'| && b'[..|b| + 1] == b + "/"
  }

  lemma CollisionExtends(b: string, n: string, b': string, n': string)
    requires Key(b, n) == Key(b', n')
    ensures (b == b' && n == n') || Extends(b, b') || Extends(b', b)
  {
    var k := Key(b, n);
    assert k[..|b|] == b && k[..|b'|] == b' && k[..|b| + 1] == b + "/" && k[..|b'| + 1] == b' + "/";
    if |b| < |b'| {
      assert k[..|b'|][..|b| + 1] == k[..|b| + 1];
    } else if |b'| < |b| {
      assert k[..|b|][..|b'| + 1] == k[..|b'| + 1];
    } else {
      SameBranchKeys(b, n, n');
    }
  }

  /** Which branch names keep full test names distinct, whatever the tests and their results are. */
  lemma BranchNamesIff(order: seq<string>)
    ensures
      (forall tests, values | (forall b | b in order :: b in tests && b in values) ::
         KeysDistinct(Pairs(order, tests, values)))
      <==> forall b, b' | b in order && b' in order :: !Extends(b, b')
  {
    if b, b' :| b in order && b' in order && Extends(b, b') {
      var c := b'[|b| + 1..];
      var tests := map x | x in order :: Expected([c + "/x", "x"], {});
      var values := map x | x in order :: BranchResult(x, BranchError, "", []);
      var pairs := Pairs(order, tests, values);
      assert (b, c + "/x") in pairs by { assert tests[b].active[0] == c + "/x"; }
      assert (b', "x") in pairs by { assert tests[b'].active[1] == "x"; }
      assert Key(b, c + "/x") == Key(b', "x") by { assert b' == b + "/" + c; }
      assert !KeysDistinct(pairs);
    } else {
      forall tests: map<string, Expected>, values: map<string, BranchResult>
        | forall b | b in order :: b in tests && b in values
        ensures KeysDistinct(Pairs(order, tests, values))
      {
        forall p, q | p in Pairs(order, tests, values) && q in Pairs(order, tests, values)
                      && Key(p.0, p.1) == Key(q.0, q.1)
          ensures p == q
        {
          CollisionExtends(p.0, p.1, q.0, q.1);
        }
      }
    }
  }

  // ------------------------------------------------------------------ counters and verdict

  /** The keys whose entry has a status. */
  function KeysWith(m: Table, keys: set<string>, status: Status): set<string>
    requires keys <= m.Keys
  {
    set k | k in keys && m[k].status == status
  }

  function Rows(m: Table, keys: seq<string>): seq<Entry>
    requires forall k | k in keys :: k in m
  {
    seq(|keys|, i requires 0 <= i < |keys| => m[keys[i]])
  }

  predicate Distinct(keys: seq<string>) {
    |keys| == 0 || (keys[|keys| - 1] !in keys[..|keys| - 1] && Distinct(keys[..|keys| - 1]))
  }

  lemma {:induction false} AscendingIsDistinct(keys: seq<string>)
    requires Ascending(keys)
    ensures Distinct(keys)
    decreases |keys|
  {
    if |keys| > 0 {
      var n := |keys| - 1;
      AscendingIsDistinct(keys[..n]);
      forall i | 0 <= i < n ensures keys[i] != keys[n] { AscendingDistinct(keys, i, n); }
    }
  }

  function KeySet(keys: seq<string>): set<string> {
    set k | k in keys
  }

  lemma {:induction false} CountKeys(m: Table, keys: seq<string>, status: Status)
    requires KeySet(keys) <= m.Keys
    requires forall k | k in keys :: k in m
    requires Distinct(keys)
    ensures Count(Rows(m, keys), status) == |KeysWith(m, KeySet(keys), status)|
    decreases |keys|
  {
    if |keys| > 0 {
      var n := |keys| - 1;
      var before := keys[..n];
      assert KeySet(keys) == KeySet(before) + {keys[n]} by { assert keys == before + [keys[n]]; }
      CountKeys(m, before, status);
      assert Rows(m, keys)[..n] == Rows(m, before);
      KeysWithOneMore(m, KeySet(before), keys[n], status);
    }
  }

  lemma KeysWithOneMore(m: Table, keys: set<string>, k: string, status: Status)
    requires keys <= m.Keys && k in m && k !in keys
    ensures |KeysWith(m, keys + {k}, status)| == |KeysWith(m, keys, status)| + if m[k].status == status then 1 else 0
  {
    if m[k].status == status {
      assert KeysWith(m, keys + {k}, status) == KeysWith(m, keys, status) + {k};
    } else {
      assert KeysWith(m, keys + {k}, status) == KeysWith(m, keys, status);
    }
  }

  lemma CountStatus(m: Table, status: Status)
    ensures Count(Listing(m), status) == |KeysWith(m, m.Keys, status)|
  {
    var keys := Sorted(m.Keys);
    AscendingIsDistinct(keys);
    assert KeySet(keys) == m.Keys;
    CountKeys(m, keys, status);
    assert Rows(m, keys) == Listing(m);
  }

  lemma KeysWithDecided(order: seq<string>, tests: map<string, Expected>, values: map<string, BranchResult>,
                        status: Status)
    requires forall b | b in order :: b in tests && b in values
    ensures
      var m := Merge(order, tests, values);
      |KeysWith(m, m.Keys, status)| == |DecidedAs(order, tests, values, status)|
  {
    var m := Merge(order, tests, values);
    var decided := DecidedAs(order, tests, values, status);
    forall k | k in KeysWith(m, m.Keys, status) ensures k in KeyImage(decided) {
      KeyDescribes(order, tests, values, k);
      assert (m[k].branch, m[k].name) in decided;
    }
    forall k | k in KeyImage(decided) ensures k in KeysWith(m, m.Keys, status) {
      var p :| p in decided && k == Key(p.0, p.1);
      MergeDecided(order, tests, values, p);
    }
    assert KeysWith(m, m.Keys, status) == KeyImage(decided);
    DecidingIff(order, tests, values);
    ImageSize(decided);
  }

  lemma DisjointScores(order: seq<string>, tests: map<string, Expected>, values: map<string, BranchResult>)
    requires forall b | b in order :: b in tests && b in values
    ensures Scored(order, tests, values, Passed) * Scored(order, tests, values, NotRun) == {}
    ensures DecidedAs(order, tests, values, Passed) * DecidedAs(order, tests, values, NotRun) == {}
  {
  }

  /** Each counter is the number of deciding pairs of its kind, and together they cover every entry. */
  lemma CountersCount(order: seq<string>, tests: map<string, Expected>, values: map<string, BranchResult>,
                      executable: string)
    requires forall b | b in order :: b in tests && b in values
    ensures
      var d := Aggregated(order, tests, values, executable);
      && |d.tests| == |Deciding(order, tests, values)|
      && d.passed == |DecidedAs(order, tests, values, Passed)|
      && d.notRun == |DecidedAs(order, tests, values, NotRun)|
      && d.failed == |Deciding(order, tests, values) - DecidedAs(order, tests, values, Passed)
                      - DecidedAs(order, tests, values, NotRun)|
      && d.passed + d.failed + d.notRun == |d.tests|
  {
    hide Merge, Decides, Pairs, Scored, Names, KeysDistinct, KeysWith, Sorted;
    var m := Merge(order, tests, values);
    CountStatus(m, Passed);
    CountStatus(m, NotRun);
    DisjointScores(order, tests, values);
    KeysWithDecided(order, tests, values, Passed);
    KeysWithDecided(order, tests, values, NotRun);
    DecidingIff(order, tests, values);
    ImageSize(Deciding(order, tests, values));
    SizeOfRest(Deciding(order, tests, values), DecidedAs(order, tests, values, Passed),
               DecidedAs(order, tests, values, NotRun));
  }

  /** The counters count every scored pair by its final status exactly when full test names are distinct. */
  lemma CountersIff(order: seq<string>, tests: map<string, Expected>, values: map<string, BranchResult>,
                    executable: string)
    requires forall b | b in order :: b in tests && b in values
    ensures
      var d := Aggregated(order, tests, values, executable);
      && d.passed == |Scored(order, tests, values, Passed)|
      && d.notRun == |Scored(order, tests, values, NotRun)|
      && d.failed == |Pairs(order, tests, values) - Scored(order, tests, values, Passed)
                      - Scored(order, tests, values, NotRun)|
      <==> KeysDistinct(Pairs(order, tests, values))
  {
    var pairs := Pairs(order, tests, values);
    CountersCount(order, tests, values, executable);
    DecidingIff(order, tests, values);
    EntryPerPairIff(order, tests, values, executable);
    SizeOfRest(pairs, Scored(order, tests, values, Passed), Scored(order, tests, values, NotRun));
    if KeysDistinct(pairs) {
      AllDecidedAs(order, tests, values, Passed);
      AllDecidedAs(order, tests, values, NotRun);
    }
  }

  lemma AllDecidedAs(order: seq<string>, tests: map<string, Expected>, values: map<string, BranchResult>,
                     status: Status)
    requires forall b | b in order :: b in tests && b in values
    requires Deciding(order, tests, values) == Pairs(order, tests, values)
    ensures DecidedAs(order, tests, values, status) == Scored(order, tests, values, status)
  {
    assert Scored(order, tests, values, status) <= Pairs(order, tests, values);
  }

  lemma SizeOfRest(all: set<Pair>, a: set<Pair>, b: set<Pair>)
    requires a <= all && b <= all && a * b == {}
    ensures |all - a - b| == |all| - |a| - |b|
  {
    assert |all - a| == |all| - |a|;
    assert b <= all - a;
  }

  /** Every listed entry is a deciding pair with its final status, and the entries stand in key order. */
  lemma ListingSound(order: seq<string>, tests: map<string, Expected>, values: map<string, BranchResult>,
                     executable: string, i: nat)
    requires forall b | b in order :: b in tests && b in values
    requires i < |Aggregated(order, tests, values, executable).tests|
    ensures
      var entries := Aggregated(order, tests, values, executable).tests;
      var item := entries[i];
      && Decides(order, tests, values, (item.branch, item.name))
      && item.status == Final(tests[item.branch], values[item.branch], item.name)
      && (i > 0 ==> Less(Key(entries[i - 1].branch, entries[i - 1].name), Key(item.branch, item.name)))
  {
    hide Merge, Decides, Pairs, Names, Final, Less, Count, SumActive, SumIgnored, Errors;
    var keys := Sorted(Merge(order, tests, values).Keys);
    assert keys[i] in keys;
    KeyDescribes(order, tests, values, keys[i]);
    if i > 0 {
      assert keys[i - 1] in keys;
      KeyDescribes(order, tests, values, keys[i - 1]);
    }
  }

  /** A scored pair is listed with its final status exactly if it decides. */
  lemma ListedIff(order: seq<string>, tests: map<string, Expected>, values: map<string, BranchResult>,
                  executable: string, p: Pair)
    requires forall b | b in order :: b in tests && b in values
    requires p in Pairs(order, tests, values)
    ensures Entry(p.0, p.1, Final(tests[p.0], values[p.0], p.1)) in Aggregated(order, tests, values, executable).tests
            <==> Decides(order, tests, values, p)
  {
    var item := Entry(p.0, p.1, Final(tests[p.0], values[p.0], p.1));
    var d := Aggregated(order, tests, values, executable);
    if item in d.tests {
      var i :| 0 <= i < |d.tests| && d.tests[i] == item;
      ListingSound(order, tests, values, executable, i);
    }
    if Decides(order, tests, values, p) {
      var m := Merge(order, tests, values);
      var keys := Sorted(m.Keys);
      MergeDecided(order, tests, values, p);
      assert Key(p.0, p.1) in keys;
      var i :| 0 <= i < |keys| && keys[i] == Key(p.0, p.1);
      assert Listing(m)[i] == m[keys[i]];
    }
  }

  /** Every scored pair is listed with its final status exactly when full test names are distinct. */
  lemma AllListedIff(order: seq<string>, tests: map<string, Expected>, values: map<string, BranchResult>,
                     executable: string)
    requires forall b | b in order :: b in tests && b in values
    ensures
      (forall p | p in Pairs(order, tests, values) ::
         Entry(p.0, p.1, Final(tests[p.0], values[p.0], p.1)) in Aggregated(order, tests, values, executable).tests)
      <==> KeysDistinct(Pairs(order, tests, values))
  {
    DecidingIff(order, tests, values);
    forall p | p in Pairs(order, tests, values)
      ensures Entry(p.0, p.1, Final(tests[p.0], values[p.0], p.1)) in Aggregated(order, tests, values, executable).tests
              <==> p in Deciding(order, tests, values)
    {
      ListedIff(order, tests, values, executable, p);
    }
  }

  lemma PassedDecide(order: seq<string>, tests: map<string, Expected>, values: map<string, BranchResult>)
    requires forall b | b in order :: b in tests && b in values
    ensures Deciding(order, tests, values) <= Pairs(order, tests, values)
    ensures DecidedAs(order, tests, values, Passed) == Deciding(order, tests, values)
            <==> forall p | Decides(order, tests, values, p) :: p in Scored(order, tests, values, Passed)
  {
    forall p | Decides(order, tests, values, p) ensures p in Deciding(order, tests, values) {}
  }

  /** A submission is resolved exactly when something was scored and everything that decides passed. */
  lemma ResolvedIff(order: seq<string>, tests: map<string, Expected>, values: map<string, BranchResult>,
                    executable: string)
    requires forall b | b in order :: b in tests && b in values
    ensures
      Aggregated(order, tests, values, executable).resolved
      <==> Pairs(order, tests, values) != {}
           && forall p | Decides(order, tests, values, p) :: p in Scored(order, tests, values, Passed)
  {
    PassedDecide(order, tests, values);
    hide Merge, Names, KeysDistinct, Publish, Aggregated, Decides, Pairs, Scored, KeyImage;
    SomethingDecides(order, tests, values);
    ResolvedCounts(order, tests, values, executable);
    SubsetFull(DecidedAs(order, tests, values, Passed), Deciding(order, tests, values));
  }

  lemma ResolvedCounts(order: seq<string>, tests: map<string, Expected>, values: map<string, BranchResult>,
                       executable: string)
    requires forall b | b in order :: b in tests && b in values
    ensures
      Aggregated(order, tests, values, executable).resolved
      <==> |Deciding(order, tests, values)| > 0
           && |DecidedAs(order, tests, values, Passed)| == |Deciding(order, tests, values)|
  {
    CountersCount(order, tests, values, executable);
    hide Merge, Sorted, Count, Errors, SumActive, SumIgnored;
    var d := Aggregated(order, tests, values, executable);
    CountBound(d.tests);
    FullIff(d.passed, |d.tests|);
  }

  lemma SomethingDecides(order: seq<string>, tests: map<string, Expected>, values: map<string, BranchResult>)
    requires forall b | b in order :: b in tests && b in values
    ensures Deciding(order, tests, values) == {} <==> Pairs(order, tests, values) == {}
  {
    hide Merge, Decides, KeysDistinct;
    DecidingIff(order, tests, values);
    MergeKeys(order, tests, values);
    SameImageEmpty(Deciding(order, tests, values), Pairs(order, tests, values));
  }

  lemma SameImageEmpty(a: set<Pair>, b: set<Pair>)
    requires a <= b && KeyImage(a) == KeyImage(b)
    ensures a == {} <==> b == {}
  {
    if p :| p in b {
      assert Key(p.0, p.1) in KeyImage(b);
    }
  }

  lemma FullIff(part: nat, whole: nat)
    requires part <= whole
    ensures (if whole == 0 then 0.0 else part as real / whole as real) == 1.0 <==> whole > 0 && part == whole
  {
  }

  lemma SubsetFull(part: set<Pair>, whole: set<Pair>)
    requires part <= whole
    ensures |part| <= |whole|
    ensures |part| == |whole| <==> part == whole
  {
    assert |whole - part| == |whole| - |part|;
    if |part| == |whole| {
      assert whole - part == {};
    }
  }

  // ------------------------------------------------------------------ order of branches

  ghost predicate SameBranches(order: seq<string>, order': seq<string>) {
    && (forall b :: b in order <==> b in order')
    && (forall i, j | 0 <= i < j < |order| :: order[i] != order[j])
    && (forall i, j | 0 <= i < j < |order'| :: order'[i] != order'[j])
  }

  lemma SameMerge(order: seq<string>, order': seq<string>, tests: map<string, Expected>,
                  values: map<string, BranchResult>)
    requires SameBranches(order, order')
    requires forall b | b in order :: b in tests && b in values
    requires KeysDistinct(Pairs(order, tests, values))
    ensures Merge(order, tests, values) == Merge(order', tests, values)
  {
    hide Merge, Names, Touches;
    var m, m' := Merge(order, tests, values), Merge(order', tests, values);
    assert Pairs(order, tests, values) == Pairs(order', tests, values);
    MergeKeys(order, tests, values);
    MergeKeys(order', tests, values);
    forall k | k in m ensures m[k] == m'[k] {
      KeyDescribes(order, tests, values, k);
      KeyDescribes(order', tests, values, k);
    }
  }

  lemma OrderIndependent(order: seq<string>, order': seq<string>, tests: map<string, Expected>,
                         values: map<string, BranchResult>, executable: string)
    requires SameBranches(order, order')
    requires forall b | b in order :: b in tests && b in values
    requires KeysDistinct(Pairs(order, tests, values))
    ensures Aggregated(order', tests, values, executable) == Aggregated(order, tests, values, executable)
  {
    SameMerge(order, order', tests, values);
    assert Errors(order, values) == Errors(order', values);
    SumsOrderIndependent(order, order', tests);
  }

  /** The same branches with one of them visited last. */
  ghost function VisitLast(order: seq<string>, b: string): (r: seq<string>)
    requires b in order
  {
    var at :| 0 <= at < |order| && order[at] == b;
    order[..at] + order[at + 1..] + [b]
  }

  lemma LastDecides(order: seq<string>, tests: map<string, Expected>, values: map<string, BranchResult>, p: Pair)
    requires SameBranches(order, order)
    requires forall b | b in order :: b in tests && b in values
    requires p in Pairs(order, tests, values)
    ensures SameBranches(order, VisitLast(order, p.0))
    ensures Decides(VisitLast(order, p.0), tests, values, p)
  {
    var last := VisitLast(order, p.0);
    var at :| 0 <= at < |order| && order[at] == p.0 && last == order[..at] + order[at + 1..] + [p.0];
    forall b ensures b in last <==> b in order { WithoutOne(order, at, b); }
    assert last[|order| - 1] == p.0;
  }

  /**
   * The published details, and so their digest, do not depend on the order of the branches exactly when
   * no two scored pairs share a full test name: of two that do, the branch visited last decides.
   */
  lemma OrderIndependentIff(order: seq<string>, tests: map<string, Expected>, values: map<string, BranchResult>,
                            executable: string)
    requires SameBranches(order, order)
    requires forall b | b in order :: b in tests && b in values
    ensures
      (forall order' | SameBranches(order, order') ::
         Aggregated(order', tests, values, executable) == Aggregated(order, tests, values, executable))
      <==> KeysDistinct(Pairs(order, tests, values))
  {
    if KeysDistinct(Pairs(order, tests, values)) {
      forall order' | SameBranches(order, order')
        ensures Aggregated(order', tests, values, executable) == Aggregated(order, tests, values, executable)
      {
        OrderIndependent(order, order', tests, values, executable);
      }
    } else {
      var p, q :| p in Pairs(order, tests, values) && q in Pairs(order, tests, values)
                  && Key(p.0, p.1) == Key(q.0, q.1) && p != q;
      LastDecides(order, tests, values, p);
      LastDecides(order, tests, values, q);
      var d := Aggregated(VisitLast(order, p.0), tests, values, executable);
      var d' := Aggregated(VisitLast(order, q.0), tests, values, executable);
      if d == d' {
        SameListSameDecider(VisitLast(order, p.0), VisitLast(order, q.0), tests, values, executable, p, q);
      }
    }
  }

  lemma SameListSameDecider(order: seq<string>, order': seq<string>, tests: map<string, Expected>,
                            values: map<string, BranchResult>, executable: string, p: Pair, q: Pair)
    requires SameBranches(order, order') && forall b | b in order :: b in tests && b in values
    requires Aggregated(order, tests, values, executable) == Aggregated(order', tests, values, executable)
    requires Decides(order, tests, values, p) && Decides(order', tests, values, q)
    requires Key(p.0, p.1) == Key(q.0, q.1)
    ensures p == q
  {
    assert Pairs(order, tests, values) == Pairs(order', tests, values);
    ListedIff(order, tests, values, executable, p);
    ListedIff(order', tests, values, executable, p);
    MergeDecided(order', tests, values, p);
    MergeDecided(order', tests, values, q);
  }

  lemma {:induction false} SumsOrderIndependent(order: seq<string>, order': seq<string>, tests: map<string, Expected>)
    requires SameBranches(order, order')
    requires forall b | b in order :: b in tests
    ensures |order| == |order'|
    ensures SumActive(order, tests) == SumActive(order', tests)
    ensures SumIgnored(order, tests) == SumIgnored(order', tests)
    decreases |order|
  {
    if |order| == 0 {
      if |order'| > 0 { HasElement(order'); }
    } else {
      var last := order[|order| - 1];
      var before := order[..|order| - 1];
      assert last in order;
      var at :| 0 <= at < |order'| && order'[at] == last;
      var before' := order'[..at] + order'[at + 1..];
      forall b ensures b in before <==> b in before' {
        assert b in before <==> b in order && b != last by { InPrefix(order, b); }
        assert b in before' <==> b in order' && b != last by { WithoutOne(order', at, b); }
      }
      SumsOrderIndependent(before, before', tests);
      SumWithout(order', at, tests);
    }
  }

  lemma HasElement(order: seq<string>)
    requires |order| > 0
    ensures exists b :: b in order
  {
    assert order[0] in order;
  }

  lemma InPrefix(order: seq<string>, b: string)
    requires |order| > 0 && forall i, j | 0 <= i < j < |order| :: order[i] != order[j]
    ensures b in order[..|order| - 1] <==> b in order && b != order[|order| - 1]
  {
    assert order == order[..|order| - 1] + [order[|order| - 1]];
  }

  lemma WithoutOne(order: seq<string>, at: nat, b: string)
    requires at < |order| && forall i, j | 0 <= i < j < |order| :: order[i] != order[j]
    ensures b in order[..at] + order[at + 1..] <==> b in order && b != order[at]
  {
    assert order == order[..at] + [order[at]] + order[at + 1..];
  }

  lemma {:induction false} SumWithout(order: seq<string>, at: nat, tests: map<string, Expected>)
    requires at < |order| && forall b | b in order :: b in tests
    ensures forall b | b in order[..at] + order[at + 1..] :: b in tests
    ensures SumActive(order, tests) == SumActive(order[..at] + order[at + 1..], tests) + |tests[order[at]].active|
    ensures SumIgnored(order, tests) == SumIgnored(order[..at] + order[at + 1..], tests) + |tests[order[at]].ignored|
    decreases |order|
  {
    var rest := order[..at] + order[at + 1..];
    if at < |order| - 1 {
      SumWithout(order[..|order| - 1], at, tests);
      assert order[..|order| - 1][..at] + order[..|order| - 1][at + 1..] == rest[..|rest| - 1];
    } else {
      assert rest == order[..|order| - 1];
    }
  }

  /**
   * Two names can only collide if one branch name extends the other with a slash: branch "a" with test "b/c"
   * and branch "a/b" with test "c" share one full name, so one scored pair is lost and the later branch
   * decides. No locked case has such branches, and the loader accepts no others.
   */
  lemma SlashLosesAnEntry(tests: map<string, Expected>, values: map<string, BranchResult>)
    requires tests == map["a" := Expected(["b/c"], {}), "a/b" := Expected(["c"], {})]
    requires values == map["a" := BranchResult("a", BranchError, "crashed", []),
                           "a/b" := BranchResult("a/b", Finished, "", [Observation("c", Passed)])]
    ensures ("a", "b/c") in Pairs(["a", "a/b"], tests, values) && ("a/b", "c") in Pairs(["a", "a/b"], tests, values)
    ensures Merge(["a", "a/b"], tests, values) == map["a/b/c" := Entry("a/b", "c", Passed)]
    ensures Merge(["a/b", "a"], tests, values) == map["a/b/c" := Entry("a", "b/c", NotRun)]
  {
    var k := "a/b/c";
    assert Key("a", "b/c") == k && Key("a/b", "c") == k;
    assert "b/c" in tests["a"].active && "c" in tests["a/b"].active;
    assert ["a", "a/b"][..1] == ["a"] && ["a"][..0] == [] && ["a/b", "a"][..1] == ["a/b"] && ["a/b"][..0] == [];
    forall m: Table ensures AddBranch(m, "a", tests["a"], values["a"]) == m[k := Entry("a", "b/c", NotRun)] {
      assert tests["a"].active[..0] == [];
    }
    forall m: Table ensures AddBranch(m, "a/b", tests["a/b"], values["a/b"]) == m[k := Entry("a/b", "c", Passed)] {
      var got := Got(values["a/b"].tests, {});
      assert values["a/b"].tests[0] in values["a/b"].tests;
      assert "c" in got;
      assert values["a/b"].tests[..0] == [] && tests["a/b"].active[..0] == [];
    }
    assert Merge(["a"], tests, values) == map[][k := Entry("a", "b/c", NotRun)];
    assert Merge(["a/b"], tests, values) == map[][k := Entry("a/b", "c", Passed)];
  }

  /** Only the results of the visited branches matter. */
  lemma SameReports(order: seq<string>, tests: map<string, Expected>, values: map<string, BranchResult>,
                    values': map<string, BranchResult>, executable: string)
    requires forall b | b in order :: b in tests && b in values && b in values' && values[b] == values'[b]
    ensures Aggregated(order, tests, values, executable) == Aggregated(order, tests, values', executable)
  {
    SameTable(order, tests, values, values');
    assert Errors(order, values) == Errors(order, values');
  }

  lemma {:induction false} SameTable(order: seq<string>, tests: map<string, Expected>,
                                     values: map<string, BranchResult>, values': map<string, BranchResult>)
    requires forall b | b in order :: b in tests && b in values && b in values' && values[b] == values'[b]
    ensures Merge(order, tests, values) == Merge(order, tests, values')
  {
    if |order| > 0 {
      SameTable(order[..|order| - 1], tests, values, values');
    }
  }
}
