/** The other fields of the published details: the score, the denominators and the branch errors. */
module ScorerDetails {
  import opened Strings
  import opened Scorer
  import opened ScorerLaws

  /** On every input the score is the share of the deciding pairs that passed, and 0 if nothing is scored. */
  lemma ScoreIs(order: seq<string>, tests: map<string, Expected>, values: map<string, BranchResult>, executable: string)
    requires forall b | b in order :: b in tests && b in values
    ensures
      var d := Aggregated(order, tests, values, executable);
      && d.score * |Deciding(order, tests, values)| as real == |DecidedAs(order, tests, values, Passed)| as real
      && (Pairs(order, tests, values) == {} ==> d.score == 0.0)
  {
    hide Aggregated, Pairs, Deciding, DecidedAs;
    CountersCount(order, tests, values, executable);
    SomethingDecides(order, tests, values);
    ShareOfListed(order, tests, values, executable);
  }

  lemma ShareOfListed(order: seq<string>, tests: map<string, Expected>, values: map<string, BranchResult>,
                      executable: string)
    requires forall b | b in order :: b in tests && b in values
    ensures
      var d := Aggregated(order, tests, values, executable);
      && d.score * |d.tests| as real == d.passed as real
      && (d.tests == [] ==> d.score == 0.0)
  {
    hide Merge, Sorted, Count, Errors, SumActive, SumIgnored;
    CountBound(Aggregated(order, tests, values, executable).tests);
  }

  /** The fields that do not depend on single tests. */
  lemma BranchFields(order: seq<string>, tests: map<string, Expected>, values: map<string, BranchResult>,
                     executable: string)
    requires forall b | b in order :: b in tests && b in values
    ensures
      var d := Aggregated(order, tests, values, executable);
      && d.compileError == "" && d.executable == executable && d.activeBranches == |order|
      && (forall b :: b in d.branchErrors <==> b in order && values[b].status.BranchError?)
      && (forall b | b in d.branchErrors :: d.branchErrors[b] == values[b].reason)
  {
    hide Merge, Sorted, Count, SumActive, SumIgnored;
  }

  // ------------------------------------------------------------------ denominators

  ghost predicate NoRepeats(order: seq<string>) {
    forall i, j | 0 <= i < j < |order| :: order[i] != order[j]
  }

  /** Every position in a list of active tests. */
  function ActiveSlots(order: seq<string>, tests: map<string, Expected>): set<(string, int)>
    requires forall b | b in order :: b in tests
  {
    set b, i | b in order && 0 <= i < |tests[b].active| :: (b, i)
  }

  function IgnoredPairs(order: seq<string>, tests: map<string, Expected>): set<(string, string)>
    requires forall b | b in order :: b in tests
  {
    set b, n | b in order && n in tests[b].ignored :: (b, n)
  }

  lemma {:induction false} SlotsOf(b: string, n: nat)
    ensures |set i | 0 <= i < n :: (b, i)| == n
  {
    var slots := set i | 0 <= i < n :: (b, i);
    if n > 0 {
      SlotsOf(b, n - 1);
      assert slots == (set i | 0 <= i < n - 1 :: (b, i)) + {(b, n - 1)};
    }
  }

  lemma {:induction false} PairsOf(b: string, names: set<string>)
    ensures |set n | n in names :: (b, n)| == |names|
    decreases names
  {
    if x :| x in names {
      PairsOf(b, names - {x});
      assert (set n | n in names :: (b, n)) == (set n | n in names - {x} :: (b, n)) + {(b, x)};
    }
  }

  lemma LastIsNew(order: seq<string>)
    requires NoRepeats(order) && |order| > 0
    ensures order[|order| - 1] !in order[..|order| - 1] && NoRepeats(order[..|order| - 1])
    ensures forall b :: b in order <==> b in order[..|order| - 1] || b == order[|order| - 1]
  {
    assert order == order[..|order| - 1] + [order[|order| - 1]];
  }

  /** The published denominators count every active and every ignored test of every branch once. */
  lemma {:induction false} SumsCount(order: seq<string>, tests: map<string, Expected>)
    requires NoRepeats(order) && forall b | b in order :: b in tests
    ensures SumActive(order, tests) == |ActiveSlots(order, tests)|
    ensures SumIgnored(order, tests) == |IgnoredPairs(order, tests)|
    decreases |order|
  {
    if |order| > 0 {
      var last, front := order[|order| - 1], order[..|order| - 1];
      LastIsNew(order);
      SumsCount(front, tests);
      var slots := set i | 0 <= i < |tests[last].active| :: (last, i);
      var pairs := set n | n in tests[last].ignored :: (last, n);
      SlotsOf(last, |tests[last].active|);
      PairsOf(last, tests[last].ignored);
      assert ActiveSlots(order, tests) == ActiveSlots(front, tests) + slots;
      assert IgnoredPairs(order, tests) == IgnoredPairs(front, tests) + pairs;
      assert ActiveSlots(front, tests) !! slots && IgnoredPairs(front, tests) !! pairs;
    }
  }

  lemma DenominatorsCount(order: seq<string>, tests: map<string, Expected>, values: map<string, BranchResult>,
                          executable: string)
    requires NoRepeats(order) && forall b | b in order :: b in tests && b in values
    ensures
      var d := Aggregated(order, tests, values, executable);
      d.activeTests == |ActiveSlots(order, tests)| && d.ignoredTests == |IgnoredPairs(order, tests)|
  {
    SumsCount(order, tests);
    hide Merge, Sorted, Count, Errors, SumActive, SumIgnored;
  }
}
