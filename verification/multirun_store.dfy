/** The persisted record of one multi-Run verification, and its critical sections. */
module MultiRunStore {
  import opened Models
  import opened Scorer

  datatype StepState = Pending | Running | Done | BusinessFailed | StepBroken

  /** One compile or branch Run. A non-empty result is the digest of the sealed branch result. */
  datatype Step = Step(
    state: StepState,
    execution: Option<ExecutionRef>,
    result: Digest<BranchResult>,
    reason: string)

  const PENDING := Step(Pending, None, NoDigest, "")

  datatype Progress =
    | Fresh
    | CompileRunning
    | BranchesRunning
    | Aggregating
    | Completed
    | Broken
    | Cancelling
    | Cancelled

  datatype Cleanup = NotStarted | InProgress | Cleaned | NotCreated

  datatype Execution = Execution(
    phase: Progress,
    compile: Step,
    derived: string,
    executable: string,
    branches: map<string, Step>,
    details: Digest<Details>,
    cleanup: Cleanup)

  datatype Key = Compile | Branch(name: string)

  predicate Has(m: Execution, key: Key) {
    key.Branch? ==> key.name in m.branches
  }

  function StepOf(m: Execution, key: Key): Step
    requires Has(m, key)
  {
    match key
    case Compile => m.compile
    case Branch(b) => m.branches[b]
  }

  function WithStep(m: Execution, key: Key, step: Step): Execution {
    match key
    case Compile => m.(compile := step)
    case Branch(b) => m.(branches := m.branches[b := step])
  }

  /** Cancellation has not been accepted. */
  predicate Live(disk: Option<Execution>, marker: bool) {
    disk.Some? && !marker && !disk.value.phase.Cancelling? && !disk.value.phase.Cancelled?
  }

  function FreshExecution(branches: set<string>): Execution {
    Execution(Fresh, PENDING, "", "", map b | b in branches :: PENDING, NoDigest, NotStarted)
  }

  /** What initialize returns; the returned record is then the one on disk. */
  function Opened(disk: Option<Execution>, marker: bool, branches: set<string>): Result<Execution, Failure> {
    if marker then Err(RecoveryRequired)
    else if disk.Some? then if disk.value.branches.Keys == branches then Ok(disk.value) else Err(RecoveryRequired)
    else Ok(FreshExecution(branches))
  }

  /** The claim of a step: what is saved, unless a Run may already exist unrecorded. */
  function Claim(disk: Option<Execution>, marker: bool, key: Key): Result<Execution, Failure> {
    if marker || disk.None? || !Live(disk, marker) || !Has(disk.value, key) then Err(RecoveryRequired)
    else
      var m := disk.value;
      var step := StepOf(m, key);
      if step.state.Running? && step.execution.None? then Err(RecoveryRequired)
      else if step.state.Done? || (key.Compile? && step.state.BusinessFailed?) then Ok(m)
      else
        var claimed := WithStep(m, key, step.(state := Running));
        Ok(if key.Compile? then claimed.(phase := CompileRunning) else claimed)
  }

  /** The Runs that a cancel has to stop. */
  function RunningRuns(m: Execution): set<string> {
    (if m.compile.state.Running? && m.compile.execution.Some? then {m.compile.execution.value.run} else {})
    + set b | b in m.branches && m.branches[b].state.Running? && m.branches[b].execution.Some?
        :: m.branches[b].execution.value.run
  }

  /** The same in the order of the record: the compile step, then the branches as they are listed. */
  function RunningExecutions(m: Execution, listed: seq<string>): seq<ExecutionRef>
    requires forall b | b in listed :: b in m.branches
  {
    RunningOf(m.compile) + RunningBranches(m, listed)
  }

  function RunningOf(step: Step): seq<ExecutionRef> {
    if step.state.Running? && step.execution.Some? then [step.execution.value] else []
  }

  function RunningBranches(m: Execution, listed: seq<string>): seq<ExecutionRef>
    requires forall b | b in listed :: b in m.branches
  {
    if |listed| == 0 then []
    else RunningBranches(m, listed[..|listed| - 1]) + RunningOf(m.branches[listed[|listed| - 1]])
  }

  lemma {:induction false} RunningBranchesAre(m: Execution, listed: seq<string>)
    requires forall b | b in listed :: b in m.branches
    ensures (set x | x in RunningBranches(m, listed) :: x.run)
            == (set b | b in listed && m.branches[b].state.Running? && m.branches[b].execution.Some?
                  :: m.branches[b].execution.value.run)
    decreases |listed|
  {
    if |listed| > 0 {
      var last := listed[|listed| - 1];
      var front := listed[..|listed| - 1];
      RunningBranchesAre(m, front);
      forall b ensures b in listed <==> b in front || b == last {}
      var all := RunningBranches(m, listed);
      forall x ensures x in all <==> x in RunningBranches(m, front) || x in RunningOf(m.branches[last]) {}
      RunsJoin(RunningBranches(m, front), RunningOf(m.branches[last]));
    }
  }

  lemma RunsJoin(xs: seq<ExecutionRef>, ys: seq<ExecutionRef>)
    ensures (set x | x in xs + ys :: x.run) == (set x | x in xs :: x.run) + (set x | x in ys :: x.run)
  {
    forall x ensures x in xs + ys <==> x in xs || x in ys {}
  }

  lemma RunningExecutionsAre(m: Execution, listed: seq<string>)
    requires forall b :: b in listed <==> b in m.branches
    ensures (set x | x in RunningExecutions(m, listed) :: x.run) == RunningRuns(m)
  {
    RunningBranchesAre(m, listed);
    RunsJoin(RunningOf(m.compile), RunningBranches(m, listed));
  }

  /** What a cancel leaves: failed if some Run could not be cancelled, deletes if the Environment can be deleted. */
  function CancelOutcome(disk: Option<Execution>, marker: bool, failed: bool, deletes: bool)
    : (Option<Execution>, bool, Option<Failure>)
  {
    if disk.None? then (disk, true, None)
    else if disk.value.phase.Cancelled? then (disk, marker, None)
    else
      var m := disk.value.(phase := Cancelling);
      if failed then (Some(m), marker, Some(Infrastructure))
      else if m.derived != "" && !m.cleanup.Cleaned? then
        if deletes then (Some(m.(cleanup := Cleaned, phase := Progress.Cancelled)), marker, None)
        else (Some(m.(cleanup := InProgress)), marker, Some(Infrastructure))
      else (Some(m.(phase := Progress.Cancelled)), marker, None)
  }

  /** Best-effort cancellation: every distinct Run is asked once, and failures are reported at the end. */
  method CancelRuns(executions: seq<ExecutionRef>, cancels: string -> bool)
    returns (asked: seq<string>, failed: bool)
    ensures (set r | r in asked) == set x | x in executions :: x.run
    ensures forall i, j | 0 <= i < j < |asked| :: asked[i] != asked[j]
    ensures failed <==> exists r :: r in asked && !cancels(r)
  {
    asked, failed := [], false;
    var seen: set<string> := {};
    for i := 0 to |executions|
      invariant seen == (set r | r in asked) == set x | x in executions[..i] :: x.run
      invariant forall i, j | 0 <= i < j < |asked| :: asked[i] != asked[j]
      invariant failed <==> exists r :: r in asked && !cancels(r)
    {
      var run := executions[i].run;
      RunsJoin(executions[..i], [executions[i]]);
      assert executions[..i + 1] == executions[..i] + [executions[i]];
      if run !in seen {
        forall r ensures r in asked + [run] <==> r in asked || r == run {}
        seen := seen + {run};
        asked := asked + [run];
        if !cancels(run) {
          failed := true;
        }
      }
    }
    assert executions[..|executions|] == executions;
  }

  /** No cancel has been accepted, before or after the record was made. */
  predicate Undisturbed(m: Execution, marker: bool) {
    !marker && m.phase != Cancelling && m.phase != Progress.Cancelled
  }

  /** The step is running, and this is its Run. */
  predicate RunsFor(step: Step, run: string) {
    step.state.Running? && step.execution.Some? && step.execution.value.run == run
  }

  predicate Runs(m: Execution, run: string) {
    RunsFor(m.compile, run) || exists b :: b in m.branches && RunsFor(m.branches[b], run)
  }

  lemma RunningRunsAre(m: Execution)
    ensures forall r :: r in RunningRuns(m) <==> Runs(m, r)
  {
    forall r ensures r in RunningRuns(m) <==> Runs(m, r) {
      if b :| b in m.branches && RunsFor(m.branches[b], r) {
        assert m.branches[b].state.Running? && m.branches[b].execution.Some?;
      }
    }
  }

  /** The sections as the store executes them on its file. */
  class ExecutionStore {
    var disk: Option<Execution>
    var marker: bool

    method Initialize(branches: set<string>) returns (r: Result<Execution, Failure>)
      modifies this`disk
      ensures r == Opened(old(disk), marker, branches)
      ensures disk == if r.Ok? then Some(r.value) else old(disk)
      ensures r.Ok? ==> !marker && r.value.branches.Keys == branches
      ensures r.Ok? <==> !marker && (old(disk).Some? ==> old(disk).value.branches.Keys == branches)
      ensures r.Ok? && old(disk).None? ==>
                && r.value.phase.Fresh? && r.value.compile == Step(Pending, None, NoDigest, "")
                && (forall b | b in branches :: r.value.branches[b] == Step(Pending, None, NoDigest, ""))
                && r.value.derived == "" && r.value.executable == "" && r.value.details.NoDigest?
                && r.value.cleanup.NotStarted?
      ensures old(disk).Some? ==> disk == old(disk)
    {
      if marker {
        return Err(RecoveryRequired);
      }
      if disk.Some? {
        if disk.value.branches.Keys != branches {
          return Err(RecoveryRequired);
        }
        return Ok(disk.value);
      }
      var record := FreshExecution(branches);
      disk := Some(record);
      return Ok(record);
    }

    method SaveLive(record: Execution) returns (raised: Option<Failure>)
      modifies this`disk
      ensures raised.None? <==> Live(old(disk), marker)
      ensures raised.None? <==> old(disk).Some? && Undisturbed(old(disk).value, marker)
      ensures disk == if raised.None? then Some(record) else old(disk)
    {
      if disk.None? || marker || disk.value.phase.Cancelling? || disk.value.phase.Cancelled? {
        return Some(RecoveryRequired);
      }
      disk := Some(record);
      return None;
    }

    method ClaimCompile() returns (r: Result<Execution, Failure>)
      modifies this`disk
      ensures r == Claim(old(disk), marker, Compile)
      ensures disk == if r.Ok? then Some(r.value) else old(disk)
      ensures r.Ok? ==> Live(old(disk), marker) && !r.value.compile.state.Pending?
      ensures r.Ok? <==>
                && old(disk).Some? && Undisturbed(old(disk).value, marker)
                && !(old(disk).value.compile.state.Running? && old(disk).value.compile.execution.None?)
      ensures r.Ok? ==>
                var before := old(disk).value;
                r.value == if before.compile.state.Done? || before.compile.state.BusinessFailed? then before
                           else before.(phase := CompileRunning, compile := before.compile.(state := Running))
      ensures disk != old(disk) ==> r.Ok? && r.value.compile == old(disk).value.compile.(state := Running)
                                    && r.value.branches == old(disk).value.branches
      ensures r.Ok? && old(disk).value.compile.state.Running? ==> r.value.compile.execution.Some?
    {
      if marker || (disk.Some? && (disk.value.phase.Cancelling? || disk.value.phase.Cancelled?)) {
        return Err(RecoveryRequired);
      }
      if disk.None? {
        return Err(RecoveryRequired);
      }
      var record := disk.value;
      if record.compile.state.Running? && record.compile.execution.None? {
        return Err(RecoveryRequired);
      }
      if !record.compile.state.Done? && !record.compile.state.BusinessFailed? {
        record := record.(phase := CompileRunning);
        record := record.(compile := record.compile.(state := Running));
        disk := Some(record);
      }
      return Ok(record);
    }

    method ClaimBranch(branch: string) returns (r: Result<Execution, Failure>)
      modifies this`disk
      ensures r == Claim(old(disk), marker, Branch(branch))
      ensures disk == if r.Ok? then Some(r.value) else old(disk)
      ensures r.Ok? <==>
                && old(disk).Some? && Undisturbed(old(disk).value, marker) && branch in old(disk).value.branches
                && !(old(disk).value.branches[branch].state.Running?
                     && old(disk).value.branches[branch].execution.None?)
      ensures r.Ok? ==>
                var before := old(disk).value;
                var step := before.branches[branch];
                r.value == if step.state.Done? then before
                           else before.(branches := before.branches[branch := step.(state := Running)])
      ensures r.Ok? ==> Live(old(disk), marker) && branch in old(disk).value.branches && branch in r.value.branches
                        && (r.value.branches[branch].state.Running? || r.value.branches[branch].state.Done?)
      ensures disk != old(disk) ==> r.Ok? && r.value.compile == old(disk).value.compile
                                    && forall b | b in old(disk).value.branches && b != branch ::
                                         b in r.value.branches && r.value.branches[b] == old(disk).value.branches[b]
      ensures r.Ok? && old(disk).value.branches[branch].state.Running? ==> r.value.branches[branch].execution.Some?
    {
      if marker || (disk.Some? && (disk.value.phase.Cancelling? || disk.value.phase.Cancelled?)) {
        return Err(RecoveryRequired);
      }
      if disk.None? || branch !in disk.value.branches {
        return Err(RecoveryRequired);
      }
      var record := disk.value;
      var step := record.branches[branch];
      if step.state.Running? && step.execution.None? {
        return Err(RecoveryRequired);
      }
      if !step.state.Done? {
        step := step.(state := Running);
        record := record.(branches := record.branches[branch := step]);
        disk := Some(record);
      }
      return Ok(record);
    }

    /** cancel, which holds the lock to its end; listed is the order of the branches in the file. */
    method Cancel(listed: seq<string>, cancels: string -> bool, deletes: bool)
      returns (raised: Option<Failure>, asked: seq<string>)
      requires disk.Some? ==> forall b :: b in listed <==> b in disk.value.branches
      modifies this
      ensures (disk, marker, raised)
              == CancelOutcome(old(disk), old(marker), exists r :: r in asked && !cancels(r), deletes)
      ensures (set r | r in asked)
              == if old(disk).None? || old(disk).value.phase.Cancelled? then {} else RunningRuns(old(disk).value)
      ensures old(disk).Some? && !old(disk).value.phase.Cancelled? ==>
                forall r :: r in asked <==> Runs(old(disk).value, r)
      ensures old(disk).None? ==> disk.None? && marker && raised.None?
      ensures old(disk).Some? ==> disk.Some? && marker == old(marker)
      ensures old(disk).Some? && old(disk).value.phase.Cancelled? ==> disk == old(disk) && raised.None?
      ensures old(disk).Some? && !old(disk).value.phase.Cancelled? ==>
                var before := old(disk).value;
                var stopped := forall r | r in asked :: cancels(r);
                var kept := before.derived != "" && !before.cleanup.Cleaned?;
                && disk.value == before.(phase := disk.value.phase, cleanup := disk.value.cleanup)
                && disk.value.phase == (if raised.None? then Progress.Cancelled else Cancelling)
                && (raised.None? <==> stopped && (kept ==> deletes))
                && disk.value.cleanup == (if !stopped || !kept then before.cleanup
                                          else if deletes then Cleaned else InProgress)
      ensures forall i, j | 0 <= i < j < |asked| :: asked[i] != asked[j]
    {
      asked := [];
      raised := None;
      if disk.None? {
        marker := true;
        return;
      }
      var record := disk.value;
      if record.phase.Cancelled? {
        return;
      }
      var executions := RunningExecutions(record, listed);
      RunningExecutionsAre(record, listed);
      record := record.(phase := Cancelling);
      disk := Some(record);
      var failed;
      asked, failed := CancelRuns(executions, cancels);
      RunningRunsAre(record);
      forall r ensures r in asked <==> Runs(record, r) {
        assert r in asked <==> r in set x | x in asked;
        assert record.compile == old(disk).value.compile && record.branches == old(disk).value.branches;
      }
      if failed {
        raised := Some(Infrastructure);
        return;
      }
      if record.derived != "" && !record.cleanup.Cleaned? {
        record := record.(cleanup := InProgress);
        disk := Some(record);
        if !deletes {
          raised := Some(Infrastructure);
          return;
        }
        record := record.(cleanup := Cleaned);
      }
      record := record.(phase := Progress.Cancelled);
      disk := Some(record);
    }
  }
}
