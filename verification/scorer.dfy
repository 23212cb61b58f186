/**
 * The caller-side scorer of a multi-Run verification: branch results are merged into a mapping
 * keyed by the full test name, then listed in key order and counted.
 */
module Scorer {
  import opened Models
  import opened Strings

  datatype Status = Passed | Skipped | Failure | Error | SystemError | NotRun

  datatype Observation = Observation(name: string, status: Status)

  datatype BranchStatus = Finished | BranchError | InfrastructureError

  /** One sealed branch result. */
  datatype BranchResult = BranchResult(branch: string, status: BranchStatus, reason: string, tests: seq<Observation>)

  /** The expected tests of one branch, after ignored tests were taken out of the active ones. */
  datatype Expected = Expected(active: seq<string>, ignored: set<string>)

  datatype Entry = Entry(branch: string, name: string, status: Status)

  datatype Details = Details(
    compileError: string,
    executable: string,
    activeBranches: nat,
    activeTests: nat,
    ignoredTests: nat,
    passed: nat,
    failed: nat,
    notRun: nat,
    branchErrors: map<string, string>,
    score: real,
    resolved: bool,
    tests: seq<Entry>)

  /** f"{branch}/{name}" */
  function Key(branch: string, name: string): string {
    branch + "/" + name
  }

  // ------------------------------------------------------------------ the mapping, loop by loop

  type Table = map<string, Entry>

  function AddObserved(m: Table, branch: string, tests: seq<Observation>, ignored: set<string>): Table
    decreases |tests|
  {
    if |tests| == 0 then m
    else
      var last := tests[|tests| - 1];
      var before := AddObserved(m, branch, tests[..|tests| - 1], ignored);
      if last.name in ignored then before
      else before[Key(branch, last.name) := Entry(branch, last.name, last.status)]
  }

  function Got(tests: seq<Observation>, ignored: set<string>): set<string> {
    set item | item in tests && item.name !in ignored :: item.name
  }

  function AddMissing(m: Table, branch: string, active: seq<string>, got: set<string>): Table
    decreases |active|
  {
    if |active| == 0 then m
    else
      var name := active[|active| - 1];
      var before := AddMissing(m, branch, active[..|active| - 1], got);
      if name in got then before else before[Key(branch, name) := Entry(branch, name, NotRun)]
  }

  function AddBranch(m: Table, branch: string, expected: Expected, value: BranchResult): Table {
    if value.status.BranchError? then AddMissing(m, branch, expected.active, {})
    else
      AddMissing(AddObserved(m, branch, value.tests, expected.ignored), branch, expected.active,
                 Got(value.tests, expected.ignored))
  }

  function Merge(order: seq<string>, tests: map<string, Expected>, values: map<string, BranchResult>): Table
    requires forall b | b in order :: b in tests && b in values
    decreases |order|
  {
    if |order| == 0 then map[]
    else
      var b := order[|order| - 1];
      AddBranch(Merge(order[..|order| - 1], tests, values), b, tests[b], values[b])
  }

  function Errors(order: seq<string>, values: map<string, BranchResult>): map<string, string>
    requires forall b | b in order :: b in values
  {
    map b | b in order && values[b].status.BranchError? :: values[b].reason
  }

  function Listing(m: Table): seq<Entry> {
    var keys := Sorted(m.Keys);
    seq(|keys|, i requires 0 <= i < |keys| => m[keys[i]])
  }

  function Count(entries: seq<Entry>, status: Status): nat {
    if |entries| == 0 then 0
    else Count(entries[..|entries| - 1], status) + if entries[|entries| - 1].status == status then 1 else 0
  }

  lemma {:induction false} CountBound(entries: seq<Entry>)
    ensures Count(entries, Passed) + Count(entries, NotRun) <= |entries|
    decreases |entries|
  {
    if |entries| > 0 { CountBound(entries[..|entries| - 1]); }
  }

  function SumActive(order: seq<string>, tests: map<string, Expected>): nat
    requires forall b | b in order :: b in tests
  {
    if |order| == 0 then 0
    else SumActive(order[..|order| - 1], tests) + |tests[order[|order| - 1]].active|
  }

  function SumIgnored(order: seq<string>, tests: map<string, Expected>): nat
    requires forall b | b in order :: b in tests
  {
    if |order| == 0 then 0
    else SumIgnored(order[..|order| - 1], tests) + |tests[order[|order| - 1]].ignored|
  }

  /** The published details when branches are visited in the given order. */
  function Aggregated(order: seq<string>, tests: map<string, Expected>, values: map<string, BranchResult>,
                      executable: string): Details
    requires forall b | b in order :: b in tests && b in values
  {
    Publish(order, Merge(order, tests, values), Errors(order, values), SumActive(order, tests),
            SumIgnored(order, tests), executable)
  }

  /** How one branch is represented in the verification record. */
  datatype Recorded = Recorded(completed: bool, digest: Digest<BranchResult>)

  predicate ValidBranchResult(value: BranchResult, branch: string) {
    value.branch == branch && forall item | item in value.tests :: !item.status.NotRun?
  }

  predicate Accepted(order: seq<string>, steps: map<string, Recorded>, files: map<string, BranchResult>)
    requires forall b | b in order :: b in steps && b in files
  {
    forall b | b in order :: steps[b].completed && steps[b].digest == Sha(files[b]) && ValidBranchResult(files[b], b)
  }

  /** Why a branch is refused: it is not done, its file was replaced, or the file is not a result of it. */
  function Refusal(b: string, step: Recorded, file: BranchResult): Option<Models.Failure> {
    if !step.completed then Some(RecoveryRequired)
    else if step.digest != Sha(file) then Some(Infrastructure)
    else if file.branch != b || exists item :: item in file.tests && item.status == NotRun then Some(Contract)
    else None
  }

  /** What visiting one more branch adds to each accumulator. */
  lemma NextBranch(order: seq<string>, i: nat, tests: map<string, Expected>, values: map<string, BranchResult>)
    requires i < |order|
    requires forall b | b in order :: b in tests && b in values
    ensures
      var b := order[i];
      var next := order[..i + 1];
      && Merge(next, tests, values) == AddBranch(Merge(order[..i], tests, values), b, tests[b], values[b])
      && SumActive(next, tests) == SumActive(order[..i], tests) + |tests[b].active|
      && SumIgnored(next, tests) == SumIgnored(order[..i], tests) + |tests[b].ignored|
  {
    assert order[..i + 1][..i] == order[..i];
  }

  lemma NextError(order: seq<string>, i: nat, values: map<string, BranchResult>)
    requires i < |order|
    requires forall b | b in order :: b in values
    ensures
      var b := order[i];
      Errors(order[..i + 1], values)
      == if values[b].status.BranchError? then Errors(order[..i], values)[b := values[b].reason]
         else Errors(order[..i], values)
  {
    assert forall x :: x in order[..i + 1] <==> x in order[..i] || x == order[i];
  }

  /**
   * The aggregation loop. files holds what is now stored at each result path, which the recorded
   * digest is checked against.
   */
  method Aggregate(order: seq<string>, tests: map<string, Expected>, steps: map<string, Recorded>,
                   files: map<string, BranchResult>, executable: string)
    returns (r: Result<Details, Models.Failure>)
    requires forall b | b in order :: b in tests && b in steps && b in files
    ensures r.Ok? <==> Accepted(order, steps, files)
    ensures r.Ok? <==> forall b | b in order :: Refusal(b, steps[b], files[b]).None?
    ensures r.Err? ==>
              exists i :: 0 <= i < |order| && Refusal(order[i], steps[order[i]], files[order[i]]) == Some(r.error)
                          && forall j | 0 <= j < i :: Refusal(order[j], steps[order[j]], files[order[j]]).None?
    ensures r.Ok? ==> r.value == Aggregated(order, tests, files, executable)
  {
    var resultMap: Table := map[];
    var branchErrors: map<string, string> := map[];
    var activeTests: nat := 0;
    var ignoredTests: nat := 0;
    assert order[..0] == [] && Merge([], tests, files) == map[] && Errors([], files) == map[];
    assert SumActive([], tests) == 0 == SumIgnored([], tests);
    hide Merge, Errors, SumActive, SumIgnored, AddBranch, Publish;
    for i := 0 to |order|
      invariant Accepted(order[..i], steps, files)
      invariant resultMap == Merge(order[..i], tests, files)
      invariant branchErrors == Errors(order[..i], files)
      invariant activeTests == SumActive(order[..i], tests)
      invariant ignoredTests == SumIgnored(order[..i], tests)
    {
      var branch := order[i];
      NextBranch(order, i, tests, files);
      NextError(order, i, files);
      var step := steps[branch];
      if !step.completed {
        return Err(RecoveryRequired);
      }
      var value := files[branch];
      if step.digest != Sha(value) {
        return Err(Infrastructure);
      }
      if !ValidBranchResult(value, branch) {
        return Err(Contract);
      }
      activeTests := activeTests + |tests[branch].active|;
      ignoredTests := ignoredTests + |tests[branch].ignored|;
      if value.status.BranchError? {
        branchErrors := branchErrors[branch := value.reason];
      }
      resultMap := FillBranch(resultMap, branch, tests[branch], value);
    }
    assert order[..|order|] == order;
    r := Ok(Publish(order, resultMap, branchErrors, activeTests, ignoredTests, executable));
  }

  /** The counters, the score and the listing, computed from the finished mapping. */
  function Publish(order: seq<string>, m: Table, errors: map<string, string>, activeTests: nat, ignoredTests: nat,
                   executable: string): Details
  {
    var results := Listing(m);
    CountBound(results);
    var passed := Count(results, Passed);
    var notRun := Count(results, NotRun);
    var score := if |results| == 0 then 0.0 else passed as real / |results| as real;
    Details("", executable, |order|, activeTests, ignoredTests,
            passed, |results| - passed - notRun, notRun, errors, score, score == 1.0, results)
  }

  method FillBranch(m: Table, branch: string, expected: Expected, value: BranchResult) returns (r: Table)
    ensures r == AddBranch(m, branch, expected, value)
  {
    if value.status.BranchError? {
      r := FillMissing(m, branch, expected.active, {});
    } else {
      var got: set<string>;
      r, got := FillObserved(m, branch, value.tests, expected.ignored);
      r := FillMissing(r, branch, expected.active, got);
    }
  }

  method FillObserved(m: Table, branch: string, tests: seq<Observation>, ignored: set<string>)
    returns (r: Table, got: set<string>)
    ensures r == AddObserved(m, branch, tests, ignored)
    ensures got == Got(tests, ignored)
  {
    r, got := m, {};
    for i := 0 to |tests|
      invariant r == AddObserved(m, branch, tests[..i], ignored)
      invariant got == Got(tests[..i], ignored)
    {
      assert tests[..i + 1][..i] == tests[..i];
      var item := tests[i];
      if item.name !in ignored {
        got := got + {item.name};
        r := r[Key(branch, item.name) := Entry(branch, item.name, item.status)];
      }
    }
    assert tests[..|tests|] == tests;
  }

  method FillMissing(m: Table, branch: string, active: seq<string>, got: set<string>) returns (r: Table)
    ensures r == AddMissing(m, branch, active, got)
  {
    r := m;
    for i := 0 to |active|
      invariant r == AddMissing(m, branch, active[..i], got)
    {
      assert active[..i + 1][..i] == active[..i];
      if active[i] !in got {
        r := r[Key(branch, active[i]) := Entry(branch, active[i], NotRun)];
      }
    }
    assert active[..|active|] == active;
  }
}
