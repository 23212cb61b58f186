/**
 * Qualification of both Environments before an episode starts: any number of qualifiers, which may
 * crash and be started again, share two slots of the locked record and one evidence file.
 */
module Qualification {
  import opened Models
  import Records = EpisodeRecords

  type Caller = nat

  /** The resolved episode, and which sealed checks satisfy its requirements for a role. */
  datatype Context = Context(episode: Episode, accepts: (Stage, string) -> bool)

  function RoleOf(index: nat): Stage {
    if index == 0 then Inference else Verification
  }

  function BindingOf(e: Episode, index: nat): Binding {
    if index == 0 then e.inferenceEnvironment else e.verificationEnvironment
  }

  /** Axern's facts about a qualification Run; checks is what a terminal one sealed. */
  datatype Run = Run(
    index: nat,
    environment: string,
    allocation: string,
    exit: Option<int>,
    released: bool,
    checks: string)

  /** done holds the executions of the slots that this qualifier has accepted. */
  datatype Activity =
    | Out
    | Checking(done: seq<ExecutionRef>)
    | Creating(done: seq<ExecutionRef>)
    | Created(done: seq<ExecutionRef>, x: ExecutionRef)
    | Waiting(done: seq<ExecutionRef>, x: ExecutionRef)
    | Allocated(done: seq<ExecutionRef>, x: ExecutionRef)
    | Preparing(done: seq<ExecutionRef>, x: ExecutionRef)
    | Following(done: seq<ExecutionRef>, x: ExecutionRef)
    | Unwinding(x: ExecutionRef)
    | Recovering(done: seq<ExecutionRef>, x: ExecutionRef)
    | Rebinding(done: seq<ExecutionRef>, x: ExecutionRef)
    | Judging(done: seq<ExecutionRef>, x: ExecutionRef)
    | Persisting(done: seq<ExecutionRef>)
    | Committing(done: seq<ExecutionRef>)

  datatype State = State(
    disk: EpisodeRecord,
    runs: map<string, Run>,
    callers: map<Caller, Activity>,
    file: Option<QualificationResult>)

  datatype Step =
    | Begin(c: Caller)
    | Check(c: Caller)
    | CreateRun(c: Caller, run: string, made: bool, answered: bool)
    | Bind(c: Caller)
    | WaitRunning(c: Caller)
    | WriteMarker(c: Caller, landed: bool, answered: bool)
    | WaitRun(c: Caller)
    | Recover(c: Caller)
    | Rebind(c: Caller)
    | Judge(c: Caller)
    | Persist(c: Caller)
    | Commit(c: Caller)
    | Throw(c: Caller)
    | Unwind(c: Caller)
    | Crash(c: Caller)
    | OtherWriter(w: Records.Write)
    | Allocate(run: string, allocation: string)
    | Exit(run: string, status: int, checks: string)

  const RESULT_PATH := "result.json"

  function Init(now: string): State {
    State(NewRecord(now), map[], map[], None)
  }

  function At(s: State, c: Caller): Activity {
    if c in s.callers then s.callers[c] else Out
  }

  function Move(s: State, c: Caller, a: Activity): State {
    s.(callers := s.callers[c := a])
  }

  function TargetOf(e: Episode, runs: map<string, Run>, index: nat, x: ExecutionRef): QualificationTarget {
    var b := BindingOf(e, index);
    QualificationTarget(RoleOf(index), b.environment, b.image, b.platform, b.workingDirectory, x.run, x.allocation,
                        if x.run in runs then runs[x.run].checks else "")
  }

  function ResultOf(e: Episode, runs: map<string, Run>, done: seq<ExecutionRef>): QualificationResult {
    QualificationResult(e.id, Sha(e), seq(|done|, i requires 0 <= i < |done| => TargetOf(e, runs, i, done[i])))
  }

  function DoBegin(s: State, c: Caller): State {
    if !At(s, c).Out? || s.disk.qualificationResult != "" || !s.disk.phase.New? then s else Move(s, c, Checking([]))
  }

  function DoCheck(s: State, c: Caller): State {
    var a := At(s, c);
    if !a.Checking? then s
    else if |s.disk.qualifications| > |a.done| then Move(s, c, Recovering(a.done, s.disk.qualifications[|a.done|]))
    else Move(s, c, Creating(a.done))
  }

  function DoCreateRun(k: Context, s: State, c: Caller, run: string, made: bool, answered: bool): State {
    var a := At(s, c);
    if !a.Creating? || run == "" || run in s.runs || (answered && !made) then s
    else
      var environment := BindingOf(k.episode, |a.done|).environment;
      var s' := if made then s.(runs := s.runs[run := Run(|a.done|, environment, "", None, false, "")]) else s;
      Move(s', c, if answered then Created(a.done, ExecutionRef(environment, run, "")) else Out)
  }

  /** The callback of the backend; a rejected Run is cancelled and never released. */
  function DoBind(k: Context, s: State, c: Caller): State {
    var a := At(s, c);
    if !a.Created? && !a.Allocated? then s
    else
      var o := Records.BindQualification(k.episode, s.disk, |a.done|, BindingOf(k.episode, |a.done|).environment, a.x);
      if o.raised.Some? then Move(s, c, Unwinding(a.x))
      else Move(s.(disk := o.record), c, if a.Created? then Waiting(a.done, a.x) else Preparing(a.done, a.x))
  }

  function DoWaitRunning(s: State, c: Caller): State {
    var a := At(s, c);
    if !a.Waiting? || a.x.run !in s.runs || s.runs[a.x.run].allocation == "" then s
    else Move(s, c, Allocated(a.done, a.x.(allocation := s.runs[a.x.run].allocation)))
  }

  function DoWriteMarker(s: State, c: Caller, landed: bool, answered: bool): State {
    var a := At(s, c);
    if !a.Preparing? || a.x.run !in s.runs || (answered && !landed) then s
    else
      var s' := if landed then s.(runs := s.runs[a.x.run := s.runs[a.x.run].(released := true)]) else s;
      Move(s', c, if answered then Following(a.done, a.x) else Unwinding(a.x))
  }

  function DoWaitRun(s: State, c: Caller): State {
    var a := At(s, c);
    if !a.Following? || a.x.run !in s.runs || s.runs[a.x.run].exit.None? then s
    else Move(s, c, Judging(a.done, a.x))
  }

  function DoRecover(s: State, c: Caller): State {
    var a := At(s, c);
    if !a.Recovering? || a.x.run !in s.runs then s
    else
      var run := s.runs[a.x.run];
      if run.exit.None? || run.environment != a.x.environment
         || (a.x.allocation != "" && run.allocation != a.x.allocation) then Move(s, c, Out)
      else Move(s, c, Rebinding(a.done, ExecutionRef(run.environment, a.x.run, run.allocation)))
  }

  function DoRebind(k: Context, s: State, c: Caller): State {
    var a := At(s, c);
    if !a.Rebinding? then s
    else
      var o := Records.BindQualification(k.episode, s.disk, |a.done|, BindingOf(k.episode, |a.done|).environment, a.x);
      if o.raised.Some? then Move(s, c, Out) else Move(s.(disk := o.record), c, Judging(a.done, a.x))
  }

  function DoJudge(k: Context, s: State, c: Caller): State {
    var a := At(s, c);
    if !a.Judging? || a.x.run !in s.runs then s
    else if s.runs[a.x.run].exit != Some(0) || !k.accepts(RoleOf(|a.done|), s.runs[a.x.run].checks) then Move(s, c, Out)
    else Move(s, c, if |a.done| == 0 then Checking([a.x]) else Persisting(a.done + [a.x]))
  }

  /** The evidence file is written once; different evidence is refused. */
  function DoPersist(k: Context, s: State, c: Caller): State {
    var a := At(s, c);
    if !a.Persisting? then s
    else
      var result := ResultOf(k.episode, s.runs, a.done);
      if s.file.Some? && s.file.value != result then Move(s, c, Out)
      else Move(s.(file := Some(result)), c, Committing(a.done))
  }

  function DoCommit(k: Context, s: State, c: Caller): State {
    var a := At(s, c);
    if !a.Committing? then s
    else
      var digest := Sha(ResultOf(k.episode, s.runs, a.done));
      Move(s.(disk := Records.CommitQualification(s.disk, a.done, RESULT_PATH, digest).record), c, Out)
  }

  function DoThrow(s: State, c: Caller): State {
    match At(s, c)
    case Created(_, x) => Move(s, c, Unwinding(x))
    case Waiting(_, x) => Move(s, c, Unwinding(x))
    case Allocated(_, x) => Move(s, c, Unwinding(x))
    case Preparing(_, x) => Move(s, c, Unwinding(x))
    case Unwinding(_) => s
    case _ => Move(s, c, Out)
  }

  predicate IsOtherWriter(w: Records.Write) {
    !w.BindingQualification? && !w.CommittingQualification?
  }

  function DoOtherWriter(k: Context, s: State, w: Records.Write): State {
    if !IsOtherWriter(w) then s else s.(disk := Records.Section(k.episode, s.disk, w).record)
  }

  function DoAllocate(s: State, run: string, allocation: string): State {
    if run !in s.runs || s.runs[run].allocation != "" || s.runs[run].exit.Some? then s
    else s.(runs := s.runs[run := s.runs[run].(allocation := allocation)])
  }

  function DoExit(s: State, run: string, status: int, checks: string): State {
    if run !in s.runs || s.runs[run].exit.Some? || (status == 0 && !s.runs[run].released) then s
    else s.(runs := s.runs[run := s.runs[run].(exit := Some(status), checks := checks)])
  }

  function Apply(k: Context, s: State, step: Step): State {
    match step
    case Begin(c) => DoBegin(s, c)
    case Check(c) => DoCheck(s, c)
    case CreateRun(c, run, made, answered) => DoCreateRun(k, s, c, run, made, answered)
    case Bind(c) => DoBind(k, s, c)
    case WaitRunning(c) => DoWaitRunning(s, c)
    case WriteMarker(c, landed, answered) => DoWriteMarker(s, c, landed, answered)
    case WaitRun(c) => DoWaitRun(s, c)
    case Recover(c) => DoRecover(s, c)
    case Rebind(c) => DoRebind(k, s, c)
    case Judge(c) => DoJudge(k, s, c)
    case Persist(c) => DoPersist(k, s, c)
    case Commit(c) => DoCommit(k, s, c)
    case Throw(c) => DoThrow(s, c)
    case Unwind(c) => if At(s, c).Unwinding? then Move(s, c, Out) else s
    case Crash(c) => Move(s, c, Out)
    case OtherWriter(w) => DoOtherWriter(k, s, w)
    case Allocate(run, allocation) => DoAllocate(s, run, allocation)
    case Exit(run, status, checks) => DoExit(s, run, status, checks)
  }

  function Trace(k: Context, s: State, steps: seq<Step>): State
    decreases |steps|
  {
    if |steps| == 0 then s else Trace(k, Apply(k, s, steps[0]), steps[1..])
  }

  // ------------------------------------------------------------------ loading the evidence

  predicate TargetMatches(k: Context, target: QualificationTarget, x: ExecutionRef, index: nat) {
    var b := BindingOf(k.episode, index);
    && target.role == RoleOf(index)
    && target.run != "" && target.allocation != ""
    && target.environment == b.environment
    && x.environment == b.environment
    && target.image == b.image
    && target.platform == b.platform
    && target.workingDirectory == b.workingDirectory
    && target.run == x.run
    && target.allocation == x.allocation
    && k.accepts(RoleOf(index), target.checks)
  }

  /** load_qualification_result; None is a file that cannot be read. */
  function Load(k: Context, r: EpisodeRecord, file: Option<QualificationResult>): Result<QualificationResult, Failure> {
    if |r.qualifications| != 2 || file.None? then Err(Contract)
    else
      var result := file.value;
      if Sha(result) != r.qualificationResultDigest then Err(Contract)
      else if |result.targets| != 2 || result.targets[0].role != Inference
              || result.targets[1].role != Verification then
        Err(Contract)
      else if result.episodeId != k.episode.id || result.spec != Sha(k.episode) then Err(Contract)
      else if TargetMatches(k, result.targets[0], r.qualifications[0], 0)
              && TargetMatches(k, result.targets[1], r.qualifications[1], 1) then Ok(result)
      else Err(Contract)
  }
}
