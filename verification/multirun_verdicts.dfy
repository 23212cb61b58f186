/** What a completed multi-Run verification publishes, field by field. */
module MultiRunVerdicts {
  import opened Models
  import opened Scorer
  import opened MultiRunStore
  import opened MultiRunProtocol
  import Details = ScorerDetails
  import Laws = ScorerLaws
  import Safety = MultiRunSafety

  /** The reason that is published for an exit status of the compile Run. */
  predicate ReasonOf(exit: int, reason: string) {
    match exit
    case 21 => reason == "seed_git_failed"
    case 22 => reason == "compile_script_missing"
    case 23 => reason == "compile_failed"
    case 24 => reason == "executable_missing"
    case 25 => reason == "executable_not_executable"
    case _ => false
  }

  lemma {:induction false} NotRunListed(order: seq<string>, tests: map<string, Expected>)
    requires forall b | b in order :: b in tests
    ensures |NotRunEntries(order, tests)| == SumActive(order, tests)
    ensures forall entry :: entry in NotRunEntries(order, tests)
              <==> entry.status.NotRun? && entry.branch in order && entry.name in tests[entry.branch].active
    decreases |order|
  {
    if |order| > 0 {
      var last, front := order[|order| - 1], order[..|order| - 1];
      var active := tests[last].active;
      NotRunListed(front, tests);
      var added := seq(|active|, i requires 0 <= i < |active| => Entry(last, active[i], NotRun));
      forall entry ensures entry in added <==> entry.status.NotRun? && entry.branch == last && entry.name in active {
        if entry.status.NotRun? && entry.branch == last && entry.name in active {
          var i :| 0 <= i < |active| && active[i] == entry.name;
          assert added[i] == entry;
        }
      }
      assert forall b :: b in order <==> b in front || b == last;
    }
  }

  /** Every expected test is listed once as not run, and nothing else is said. */
  ghost predicate FailsAll(p: Plan, d: Scorer.Details) {
    && ReasonOf(p.compile.exit, d.compileError) && d.executable == ""
    && d.passed == 0 && d.failed == 0 && d.notRun == |d.tests| == d.activeTests
    && d.score == 0.0 && !d.resolved && d.branchErrors == map[] && d.activeBranches == |p.listed|
    && (forall entry :: entry in d.tests
          <==> entry.status.NotRun? && entry.branch in p.tests && entry.name in p.tests[entry.branch].active)
  }

  lemma FailureIs(p: Plan)
    requires ValidPlan(p) && 21 <= p.compile.exit <= 25
    ensures ExpectedDetails(p).Sha? && FailsAll(p, ExpectedDetails(p).content)
    ensures ExpectedDetails(p).content.activeTests == SumActive(p.listed, p.tests)
    ensures ExpectedDetails(p).content.ignoredTests == SumIgnored(p.listed, p.tests)
  {
    hide SumActive, SumIgnored, NotRunEntries, Aggregated, Reports;
    NotRunListed(p.listed, p.tests);
    assert forall b :: b in p.listed <==> b in p.tests;
  }

  /** A submission that does not compile fails with its reason, and every expected test was not run. */
  lemma FailurePublished(p: Plan, s: State)
    requires ValidPlan(p) && Safety.Reachable(p, s) && s.disk.Some? && s.disk.value.phase.Completed?
    requires 21 <= p.compile.exit <= 25
    ensures s.disk.value.details.Sha? && FailsAll(p, s.disk.value.details.content)
    ensures
      var d := s.disk.value.details.content;
      Details.NoRepeats(p.listed) ==>
        && d.activeTests == |Details.ActiveSlots(p.listed, p.tests)|
        && d.ignoredTests == |Details.IgnoredPairs(p.listed, p.tests)|
  {
    hide Safety.Reachable, ExpectedDetails, FailsAll, Details.NoRepeats, Details.ActiveSlots, Details.IgnoredPairs;
    Safety.CompletedPublishesExpected(p, s);
    FailureIs(p);
    if Details.NoRepeats(p.listed) {
      Details.SumsCount(p.listed, p.tests);
    }
  }

  /** What the sealed reports are worth. */
  ghost predicate ScoresReports(p: Plan, d: Scorer.Details)
    requires forall b | b in p.listed :: b in p.tests && b in Reports(p)
  {
    var values := Reports(p);
    var deciding := Laws.Deciding(p.listed, p.tests, values);
    var passed := Laws.DecidedAs(p.listed, p.tests, values, Passed);
    && d.compileError == "" && p.compile.report == Some(d.executable)
    && |d.tests| == |deciding| && d.passed == |passed|
    && d.score * |deciding| as real == |passed| as real
    && (d.resolved <==> |deciding| > 0 && |passed| == |deciding|)
    && (forall b :: b in d.branchErrors <==> b in p.listed && values[b].status.BranchError?)
  }

  lemma ScoreOf(p: Plan)
    requires ValidPlan(p) && !(21 <= p.compile.exit <= 25) && ExpectedDetails(p).Sha?
    ensures forall b | b in p.listed :: b in p.tests && b in Reports(p)
    ensures ScoresReports(p, ExpectedDetails(p).content)
  {
    hide Aggregated, Laws.Deciding, Laws.DecidedAs;
    assert p.compile.exit !in COMPILE_REASONS;
    var values, executable := Reports(p), p.compile.report.value;
    Laws.CountersCount(p.listed, p.tests, values, executable);
    Laws.ResolvedCounts(p.listed, p.tests, values, executable);
    Details.ScoreIs(p.listed, p.tests, values, executable);
    Details.BranchFields(p.listed, p.tests, values, executable);
  }

  /** Any other completed verification publishes the score of the sealed reports. */
  lemma ScorePublished(p: Plan, s: State)
    requires ValidPlan(p) && Safety.Reachable(p, s) && s.disk.Some? && s.disk.value.phase.Completed?
    requires !(21 <= p.compile.exit <= 25)
    ensures forall b | b in p.listed :: b in p.tests && b in Reports(p)
    ensures s.disk.value.details.Sha? && ScoresReports(p, s.disk.value.details.content)
  {
    hide Safety.Reachable, ExpectedDetails, ScoresReports;
    Safety.CompletedPublishesExpected(p, s);
    ScoreOf(p);
  }

  /** A recorded branch holds the digest and the reason of what its own Run sealed. */
  lemma SealedIsRecorded(p: Plan, s: State, b: string)
    requires ValidPlan(p) && Safety.Reachable(p, s) && s.disk.Some?
    requires b in s.disk.value.branches && s.disk.value.branches[b].state.Done?
    ensures b in p.branches && p.branches[b].exit == 0 && p.branches[b].report.Some?
    ensures
      var step, report := s.disk.value.branches[b], p.branches[b].report.value;
      && step.result == Sha(report) && step.reason == report.reason && report.branch == b
      && step.execution.Some? && step.execution.value.run in s.world.runs
      && s.world.runs[step.execution.value.run].key == Branch(b)
      && s.world.runs[step.execution.value.run].environment == step.execution.value.environment
  {
    Safety.ReachableInv(p, s);
    assert Safety.StepInv(p, s.world, Branch(b), StepOf(s.disk.value, Branch(b)));
    hide Safety.Reachable, ExpectedDetails, Trace;
  }
}
