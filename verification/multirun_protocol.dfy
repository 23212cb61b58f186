/**
 * One multi-Run verification: a verifier process that may die anywhere and be started again,
 * any number of cancels, Axern, and the locked record between them. One step is one critical
 * section of the verification lock, or one remote call.
 */
module MultiRunProtocol {
  import opened Models
  import opened Scorer
  import opened MultiRunStore

  /** What the compile Run seals; a report is the executable digest of a well-formed result. */
  datatype CompileOutput = CompileOutput(exit: int, derived: string, report: Option<string>)

  /** What a branch Run seals; None is an output that is missing or not a JSON object. */
  datatype BranchOutput = BranchOutput(exit: int, report: Option<BranchResult>)

  /** The locked inputs of the verification, and what each Run seals when it runs to its end. */
  datatype Plan = Plan(
    visited: seq<string>,
    listed: seq<string>,
    tests: map<string, Expected>,
    environment: string,
    compile: CompileOutput,
    branches: map<string, BranchOutput>)

  ghost predicate ValidPlan(p: Plan) {
    && p.tests.Keys == p.branches.Keys
    && (forall b :: b in p.visited <==> b in p.branches)
    && (forall b :: b in p.listed <==> b in p.branches)
  }

  const COMPILE_REASONS: map<int, string> := map[
    21 := "seed_git_failed",
    22 := "compile_script_missing",
    23 := "compile_failed",
    24 := "executable_missing",
    25 := "executable_not_executable"]

  function ExitOf(p: Plan, key: Key): int
    requires key.Branch? ==> key.name in p.branches
  {
    match key
    case Compile => p.compile.exit
    case Branch(b) => p.branches[b].exit
  }

  function EnvironmentOf(p: Plan, key: Key): string {
    match key
    case Compile => p.environment
    case Branch(_) => p.compile.derived
  }

  // ------------------------------------------------------------------ the published details

  function NotRunEntries(order: seq<string>, tests: map<string, Expected>): seq<Entry>
    requires forall b | b in order :: b in tests
  {
    if |order| == 0 then []
    else
      var b := order[|order| - 1];
      var active := tests[b].active;
      NotRunEntries(order[..|order| - 1], tests)
      + seq(|active|, i requires 0 <= i < |active| => Entry(b, active[i], NotRun))
  }

  /** A submission that does not compile fails every expected test without running any. */
  function CompileFailure(order: seq<string>, tests: map<string, Expected>, reason: string): Details
    requires forall b | b in order :: b in tests
  {
    Details(reason, "", |order|, SumActive(order, tests), SumIgnored(order, tests),
            0, 0, SumActive(order, tests), map[], 0.0, false, NotRunEntries(order, tests))
  }

  function Reports(p: Plan): map<string, BranchResult> {
    map b | b in p.branches && p.branches[b].report.Some? :: p.branches[b].report.value
  }

  /** The details that the sealed outputs determine, with no reference to how they were collected. */
  function ExpectedDetails(p: Plan): Digest<Details>
    requires ValidPlan(p)
  {
    if p.compile.exit in COMPILE_REASONS then
      Sha(CompileFailure(p.listed, p.tests, COMPILE_REASONS[p.compile.exit]))
    else if p.compile.report.Some? && forall b | b in p.branches :: p.branches[b].report.Some? then
      Sha(Aggregated(p.listed, p.tests, Reports(p), p.compile.report.value))
    else NoDigest
  }

  // ------------------------------------------------------------------ the system

  datatype Run = Run(
    key: Key,
    environment: string,
    allocation: string,
    exit: Option<int>,
    released: bool,
    cancelRequested: bool)

  predicate Stopped(run: Run) {
    run.exit.Some? || run.cancelRequested
  }

  /** What exists outside the record: Runs, create_run calls, and deleted Environments. */
  datatype World = World(runs: map<string, Run>, calls: multiset<Key>, deleted: set<string>)

  /** What a cleanup leads to once the derived Environment is gone. */
  datatype Purpose = Succeeded | ExitFailed | AsBroken

  /** Where the live verifier is; every activity but Out has the record in memory. */
  datatype Activity =
    | Out
    | Deciding
    | Claimed(key: Key)
    // backend.execute
    | Creating(key: Key)
    | Created(key: Key, x: ExecutionRef)
    | Waiting(key: Key, x: ExecutionRef)
    | Allocated(key: Key, x: ExecutionRef)
    | Preparing(key: Key, x: ExecutionRef)
    | Unwinding(x: ExecutionRef)
    // the Run is released, or recovered
    | Following(key: Key, x: ExecutionRef)
    | Held(key: Key, x: ExecutionRef)
    // compile results
    | Dropping
    | Checking
    | Failing
    // details and cleanup
    | Summing
    | Deleting(purpose: Purpose)
    | Saving(purpose: Purpose)

  /** The lock of the record belongs to a cancel unless it is Free. */
  datatype Canceller = Free | Asking(todo: set<string>, failed: bool) | Cleaning

  datatype State = State(
    disk: Option<Execution>,
    marker: bool,
    canceller: Canceller,
    verifier: Activity,
    m: Execution,
    world: World,
    received: set<string>,
    lost: set<string>)

  datatype Step =
    // the verifier
    | Open
    | Decide
    | RequireLive
    | CreateRun(run: string, made: bool, answered: bool)
    | Bind(accepted: bool)
    | WaitRunning
    | WriteMarker(landed: bool, answered: bool)
    | WaitRun
    | CancelUnreleased(landed: bool)
    | Settle
    | Drop(landed: bool, answered: bool)
    | CheckCompiled
    | FinishFailure
    | Sum(files: map<string, BranchResult>)
    | Delete(landed: bool, answered: bool)
    | SaveDeleted
    | Throw
    | Crash
    // cancel
    | BeginCancel
    | AskCancel(run: string, landed: bool, answered: bool)
    | EndAsking
    | Clean(landed: bool, answered: bool)
    | CrashCancel
    // Axern
    | Allocate(run: string, allocation: string)
    | Exit(run: string)
    | Kill(run: string, status: int)

  function Init(): State {
    State(None, false, Free, Out, FreshExecution({}), World(map[], multiset{}, {}), {}, {})
  }

  // ------------------------------------------------------------------ sections of the lock

  function At(s: State, a: Activity): State {
    s.(verifier := a)
  }

  /** save_live: it waits for the lock, and is refused once cancellation has won. */
  function Save(s: State, m': Execution, next: Activity, refused: Activity): State {
    if !s.canceller.Free? then s
    else if Live(s.disk, s.marker) then s.(disk := Some(m'), m := m', verifier := next)
    else At(s, refused)
  }

  function DoClaim(s: State, key: Key): State {
    if !s.canceller.Free? then s
    else
      var r := Claim(s.disk, s.marker, key);
      if r.Err? then At(s, Out) else s.(disk := Some(r.value), m := r.value, verifier := Claimed(key))
  }

  function DoOpen(p: Plan, s: State): State {
    if !s.verifier.Out? || !s.canceller.Free? then s
    else
      var r := Opened(s.disk, s.marker, p.branches.Keys);
      if r.Err? then s else s.(disk := Some(r.value), m := r.value, verifier := Deciding)
  }

  function DoRequireLive(s: State): State {
    var a := s.verifier;
    if !a.Claimed? || !s.canceller.Free? then s
    else if !Live(s.disk, s.marker) || !Has(s.m, a.key) then At(s, Out)
    else
      var execution := StepOf(s.m, a.key).execution;
      At(s, if execution.None? then Creating(a.key) else Following(a.key, execution.value))
  }

  /** The first visited branch that is not yet done. */
  function FirstPending(visited: seq<string>, m: Execution): Option<string> {
    if |visited| == 0 then None
    else if visited[0] in m.branches && !m.branches[visited[0]].state.Done? then Some(visited[0])
    else FirstPending(visited[1..], m)
  }

  function DoDecide(p: Plan, s: State): State {
    if !s.verifier.Deciding? then s
    else if s.m.phase.Broken? then
      At(s, if !s.m.cleanup.Cleaned? && s.m.derived != "" then Deleting(AsBroken) else Out)
    else if !s.m.compile.state.Done? then DoClaim(s, Compile)
    else if s.m.derived == "" || s.m.executable == "" then At(s, Out)
    else
      match FirstPending(p.visited, s.m)
      case Some(b) => DoClaim(s, Branch(b))
      case None => Save(s, s.m.(phase := Aggregating), Summing, Out)
  }

  // ------------------------------------------------------------------ backend.execute

  function WithRun(s: State, run: string, facts: Run): State {
    s.(world := s.world.(runs := s.world.runs[run := facts]))
  }

  function DoCreateRun(p: Plan, s: State, run: string, made: bool, answered: bool): State {
    var a := s.verifier;
    if !a.Creating? || run in s.world.runs || (answered && !made) then s
    else
      var environment := if a.key.Compile? then p.environment else s.m.derived;
      var called := s.(world := s.world.(calls := s.world.calls + multiset{a.key}));
      var s' := if made then WithRun(called, run, Run(a.key, environment, "", None, false, false)) else called;
      At(s', if answered then Created(a.key, ExecutionRef(environment, run, "")) else Out)
  }

  /** bind_compile also publishes the Run in the episode record, which may refuse it. */
  function DoBind(s: State, accepted: bool): State {
    var a := s.verifier;
    if !(a.Created? || a.Allocated?) || !Has(s.m, a.key) then s
    else
      var m' := WithStep(s.m, a.key, StepOf(s.m, a.key).(execution := Some(a.x)));
      Save(s, m',
           if a.key.Compile? && !accepted then Unwinding(a.x)
           else if a.Created? then Waiting(a.key, a.x)
           else Preparing(a.key, a.x),
           Unwinding(a.x))
  }

  function DoWaitRunning(s: State): State {
    var a := s.verifier;
    if !a.Waiting? || a.x.run !in s.world.runs || s.world.runs[a.x.run].allocation == "" then s
    else At(s, Allocated(a.key, a.x.(allocation := s.world.runs[a.x.run].allocation)))
  }

  function DoWriteMarker(s: State, landed: bool, answered: bool): State {
    var a := s.verifier;
    if !a.Preparing? || a.x.run !in s.world.runs || (answered && !landed) then s
    else
      var s' := if landed then WithRun(s, a.x.run, s.world.runs[a.x.run].(released := true)) else s;
      At(s', if answered then Following(a.key, a.x) else Unwinding(a.x))
  }

  function RequestCancel(s: State, run: string, landed: bool): State {
    if landed && run in s.world.runs then WithRun(s, run, s.world.runs[run].(cancelRequested := true)) else s
  }

  function DoCancelUnreleased(s: State, landed: bool): State {
    var a := s.verifier;
    if !a.Unwinding? then s else At(RequestCancel(s, a.x.run, landed), Out)
  }

  /** The end of the released Run, or of a recovered one whose identity matches the saved one. */
  function DoWaitRun(p: Plan, s: State): State {
    var a := s.verifier;
    if !a.Following? || a.x.run !in s.world.runs || s.world.runs[a.x.run].exit.None? then s
    else
      var run := s.world.runs[a.x.run];
      if run.environment != a.x.environment || (a.x.allocation != "" && run.allocation != a.x.allocation) then
        At(s, Out)
      else
        var held := At(s, Held(a.key, ExecutionRef(run.environment, a.x.run, run.allocation)));
        if a.key.Compile? && run.exit == Some(0) && p.compile.derived != "" then
          held.(received := s.received + {p.compile.derived})
        else held
  }

  // ------------------------------------------------------------------ results

  function SettleCompile(p: Plan, s: State, x: ExecutionRef, exit: int): State {
    if exit in COMPILE_REASONS then
      var step := s.m.compile.(state := BusinessFailed, reason := COMPILE_REASONS[exit]);
      Save(s, s.m.(compile := step, phase := Aggregating), Failing, Out)
    else if exit != 0 || p.compile.derived == "" then At(s, Out)
    else
      Save(s, s.m.(compile := s.m.compile.(execution := Some(x)), derived := p.compile.derived), Checking, Dropping)
  }

  function MarkBroken(m: Execution): Execution {
    m.(phase := Broken, cleanup := InProgress)
  }

  function SettleBranch(p: Plan, s: State, b: string, x: ExecutionRef, exit: int): State
    requires b in p.branches && b in s.m.branches
  {
    var step := s.m.branches[b];
    var report := p.branches[b].report;
    if exit != 0 then Save(s, s.m.(cleanup := InProgress), Deleting(ExitFailed), Out)
    else if report.None? || !ValidBranchResult(report.value, b) then Save(s, MarkBroken(s.m), Deleting(AsBroken), Out)
    else
      var sealed := Step(Done, Some(x), Sha(report.value), report.value.reason);
      if report.value.status.InfrastructureError? then
        Save(s, MarkBroken(s.m.(branches := s.m.branches[b := sealed.(state := StepBroken)])), Deleting(AsBroken), Out)
      else
        Save(s, s.m.(branches := s.m.branches[b := sealed]), Deciding, Out)
  }

  function DoSettle(p: Plan, s: State): State {
    match s.verifier
    case Held(Compile, x) =>
      if x.run !in s.world.runs || s.world.runs[x.run].exit.None? then s
      else SettleCompile(p, s, x, s.world.runs[x.run].exit.value)
    case Held(Branch(b), x) =>
      if b !in p.branches || b !in s.m.branches || x.run !in s.world.runs || s.world.runs[x.run].exit.None? then s
      else SettleBranch(p, s, b, x, s.world.runs[x.run].exit.value)
    case _ => s
  }

  /** The derived Environment of a compile result that cancellation kept off the record. */
  function DoDrop(p: Plan, s: State, landed: bool, answered: bool): State {
    if !s.verifier.Dropping? || (answered && !landed) then s
    else
      var s' := if landed then s.(world := s.world.(deleted := s.world.deleted + {p.compile.derived})) else s;
      At(if answered then s' else s'.(lost := s'.lost + {p.compile.derived}), Out)
  }

  function DoCheckCompiled(p: Plan, s: State): State {
    if !s.verifier.Checking? then s
    else
      match p.compile.report
      case None => Save(s, MarkBroken(s.m), Deleting(AsBroken), Out)
      case Some(executable) =>
        Save(s, s.m.(compile := s.m.compile.(state := Done), executable := executable, phase := BranchesRunning),
             Deciding, Out)
  }

  function DoFinishFailure(p: Plan, s: State): State
    requires ValidPlan(p)
  {
    if !s.verifier.Failing? then s
    else
      var details := Sha(CompileFailure(p.listed, p.tests, s.m.compile.reason));
      Save(s, s.m.(details := details, cleanup := NotCreated, phase := Progress.Completed), Out, Out)
  }

  function RecordedSteps(m: Execution): map<string, Recorded> {
    map b | b in m.branches :: Recorded(m.branches[b].state.Done?, m.branches[b].result)
  }

  /** files holds what is now stored at each recorded result path. */
  function DoSum(p: Plan, s: State, files: map<string, BranchResult>): State
    requires ValidPlan(p)
  {
    if !s.verifier.Summing? || !(forall b | b in p.listed :: b in files && b in s.m.branches) then s
    else if !Accepted(p.listed, RecordedSteps(s.m), files) then At(s, Out)
    else
      var details := Aggregated(p.listed, p.tests, files, s.m.executable);
      Save(s, s.m.(details := Sha(details), cleanup := InProgress), Deleting(Succeeded), Out)
  }

  /** A missing Environment counts as deleted; a failed deletion raises. */
  function DoDelete(s: State, landed: bool, answered: bool): State {
    var a := s.verifier;
    if !a.Deleting? || (answered && !landed) then s
    else
      var s' := if landed && s.m.derived != ""
                then s.(world := s.world.(deleted := s.world.deleted + {s.m.derived})) else s;
      At(s', if answered then Saving(a.purpose) else Out)
  }

  function DoSaveDeleted(s: State): State {
    match s.verifier
    case Saving(purpose) =>
      var cleaned := s.m.(cleanup := Cleaned);
      Save(s, match purpose
              case Succeeded => cleaned.(phase := Progress.Completed)
              case ExitFailed => cleaned.(phase := Broken)
              case AsBroken => cleaned, Out, Out)
    case _ => s
  }

  // ------------------------------------------------------------------ exceptions and crashes

  /** An exception outside the modelled answers; a Run that is not released is cancelled first. */
  function DoThrow(p: Plan, s: State): State {
    match s.verifier
    case Created(_, x) => At(s, Unwinding(x))
    case Waiting(_, x) => At(s, Unwinding(x))
    case Allocated(_, x) => At(s, Unwinding(x))
    case Preparing(_, x) => At(s, Unwinding(x))
    case Unwinding(_) => s
    case _ => if InHand(p, s) == {} then DoCrash(p, s) else s
  }

  /** The derived Environment that only this process knows of. */
  function InHand(p: Plan, s: State): set<string> {
    match s.verifier
    case Held(Compile, x) =>
      if x.run in s.world.runs && s.world.runs[x.run].exit == Some(0) then {p.compile.derived} - {""} else {}
    case Dropping => {p.compile.derived}
    case _ => {}
  }

  function DoCrash(p: Plan, s: State): State {
    At(s.(lost := s.lost + InHand(p, s)), Out)
  }

  // ------------------------------------------------------------------ cancel

  function DoBeginCancel(s: State): State {
    if !s.canceller.Free? then s
    else if s.disk.None? then s.(marker := true)
    else if s.disk.value.phase.Cancelled? then s
    else s.(disk := Some(s.disk.value.(phase := Cancelling)), canceller := Asking(RunningRuns(s.disk.value), false))
  }

  /** Best effort: a failure is remembered, and the other Runs are still asked. */
  function DoAskCancel(s: State, run: string, landed: bool, answered: bool): State {
    match s.canceller
    case Asking(todo, failed) =>
      if run !in todo || run !in s.world.runs
         || (answered && !landed && s.world.runs[run].exit.None?) then s
      else RequestCancel(s, run, landed).(canceller := Asking(todo - {run}, failed || !answered))
    case _ => s
  }

  function DoEndAsking(s: State): State {
    match s.canceller
    case Asking(todo, failed) =>
      if todo != {} || s.disk.None? then s
      else if failed then s.(canceller := Free)
      else if s.disk.value.derived != "" && !s.disk.value.cleanup.Cleaned? then
        s.(disk := Some(s.disk.value.(cleanup := InProgress)), canceller := Cleaning)
      else s.(disk := Some(s.disk.value.(phase := Progress.Cancelled)), canceller := Free)
    case _ => s
  }

  function DoClean(s: State, landed: bool, answered: bool): State {
    if !s.canceller.Cleaning? || s.disk.None? || (answered && !landed) then s
    else
      var s' := if landed then s.(world := s.world.(deleted := s.world.deleted + {s.disk.value.derived})) else s;
      if !answered then s'.(canceller := Free)
      else s'.(disk := Some(s.disk.value.(cleanup := Cleaned, phase := Progress.Cancelled)), canceller := Free)
  }

  // ------------------------------------------------------------------ Axern

  function DoAllocate(s: State, run: string, allocation: string): State {
    if run !in s.world.runs || s.world.runs[run].allocation != "" || s.world.runs[run].exit.Some? then s
    else WithRun(s, run, s.world.runs[run].(allocation := allocation))
  }

  /** A Run that runs to its end seals what the plan says. */
  function DoExit(p: Plan, s: State, run: string): State {
    if run !in s.world.runs || s.world.runs[run].exit.Some? || !s.world.runs[run].released
       || (s.world.runs[run].key.Branch? && s.world.runs[run].key.name !in p.branches) then s
    else WithRun(s, run, s.world.runs[run].(exit := Some(ExitOf(p, s.world.runs[run].key))))
  }

  /** A Run that is cancelled or lost seals nothing and never reports a compile verdict. */
  function DoKill(s: State, run: string, status: int): State {
    if run !in s.world.runs || s.world.runs[run].exit.Some? || status == 0 || status in COMPILE_REASONS then s
    else WithRun(s, run, s.world.runs[run].(exit := Some(status)))
  }

  function Apply(p: Plan, s: State, step: Step): State
    requires ValidPlan(p)
  {
    match step
    case Open => DoOpen(p, s)
    case Decide => DoDecide(p, s)
    case RequireLive => DoRequireLive(s)
    case CreateRun(run, made, answered) => DoCreateRun(p, s, run, made, answered)
    case Bind(accepted) => DoBind(s, accepted)
    case WaitRunning => DoWaitRunning(s)
    case WriteMarker(landed, answered) => DoWriteMarker(s, landed, answered)
    case WaitRun => DoWaitRun(p, s)
    case CancelUnreleased(landed) => DoCancelUnreleased(s, landed)
    case Settle => DoSettle(p, s)
    case Drop(landed, answered) => DoDrop(p, s, landed, answered)
    case CheckCompiled => DoCheckCompiled(p, s)
    case FinishFailure => DoFinishFailure(p, s)
    case Sum(files) => DoSum(p, s, files)
    case Delete(landed, answered) => DoDelete(s, landed, answered)
    case SaveDeleted => DoSaveDeleted(s)
    case Throw => DoThrow(p, s)
    case Crash => DoCrash(p, s)
    case BeginCancel => DoBeginCancel(s)
    case AskCancel(run, landed, answered) => DoAskCancel(s, run, landed, answered)
    case EndAsking => DoEndAsking(s)
    case Clean(landed, answered) => DoClean(s, landed, answered)
    case CrashCancel => s.(canceller := Free)
    case Allocate(run, allocation) => DoAllocate(s, run, allocation)
    case Exit(run) => DoExit(p, s, run)
    case Kill(run, status) => DoKill(s, run, status)
  }

  /** A run of the system; disabled steps do nothing. */
  function Trace(p: Plan, s: State, steps: seq<Step>): State
    requires ValidPlan(p)
    decreases |steps|
  {
    if |steps| == 0 then s else Trace(p, Apply(p, s, steps[0]), steps[1..])
  }
}
