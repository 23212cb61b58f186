/**
 * Any number of caller processes drive one episode: they share the locked record, start and
 * recover Runs that outlive them, cancel, and may crash between any two steps. One step is one
 * critical section of the episode lock or one remote call.
 */
module EpisodeProtocol {
  import opened Models
  import Records = EpisodeRecords

  type Caller = nat

  /** Axern's facts about a Run. Only released and cancelRequested are bookkeeping of the model. */
  datatype Run = Run(
    stage: Stage,
    environment: string,
    allocation: string,
    exit: Option<int>,
    released: bool,
    cancelRequested: bool)

  /**
   * Where a caller is. guards counts the enclosing handlers that will record an exception:
   * run() has one around everything, starting verification adds one of its own.
   */
  datatype Activity =
    | Idle
    // backend.execute
    | Planning(stage: Stage, guards: nat)
    | Created(stage: Stage, x: ExecutionRef, guards: nat)
    | Waiting(stage: Stage, x: ExecutionRef, guards: nat)
    | Allocated(stage: Stage, x: ExecutionRef, guards: nat)
    | Preparing(stage: Stage, x: ExecutionRef, guards: nat)
    | Observing(stage: Stage, x: ExecutionRef, guards: nat)
    | Rejected(stage: Stage, x: ExecutionRef, guards: nat)
    | Unwinding(stage: Stage, x: ExecutionRef, guards: nat, error: Failure)
    // committing a stage result
    | Holding(stage: Stage, x: ExecutionRef, exit: int, guards: nat)
    | Delivering(guards: nat)
    | Raising(error: Failure, guards: nat)
    // recover
    | Loading(stage: Stage, x: ExecutionRef)
    | Reloading
    | Reading(stage: Stage, x: ExecutionRef)
    // cancel, with the lock held
    | Querying(target: Option<ExecutionRef>)
    | Asking(x: ExecutionRef)
    | Ending(target: Option<ExecutionRef>)

  /** Who may call backend.execute for a stage, and how often it has been called. */
  datatype Permit = Permit(owner: Option<Caller>, calls: nat)

  datatype State = State(
    disk: EpisodeRecord,
    lock: Option<Caller>,
    runs: map<string, Run>,
    callers: map<Caller, Activity>,
    inference: Permit,
    verification: Permit,
    persisted: set<ExecutionRef>)
  {
    function PermitOf(stage: Stage): Permit {
      match stage
      case Inference => inference
      case Verification => verification
    }
  }

  datatype Step =
    | StartRun(c: Caller)
    | CreateRun(c: Caller, run: string, made: bool, answered: bool)
    | Bind(c: Caller)
    | CancelRejected(c: Caller, landed: bool)
    | WaitRunning(c: Caller)
    | WriteMarker(c: Caller, landed: bool, answered: bool)
    | WaitRun(c: Caller)
    | Throw(c: Caller, error: Failure)
    | CancelUnreleased(c: Caller, closed: bool, landed: bool, answered: bool)
    | HandleFailure(c: Caller, now: string)
    | RejectStage(c: Caller, code: string, message: string, now: string, error: Failure)
    | CommitCandidate(c: Caller, candidate: Digest<CandidateManifest>, trajectory: Option<(string, string, string)>)
    | BeginVerification(c: Caller)
    | Finish(c: Caller, verdict: VerificationResult, now: string)
    | StartRecovery(c: Caller)
    | LoadCandidate(c: Caller, ok: bool)
    | ReadRun(c: Caller)
    | BeginCancel(c: Caller)
    | QueryRun(c: Caller)
    | AskCancel(c: Caller, landed: bool, answered: bool)
    | EndCancel(c: Caller, now: string)
    | Crash(c: Caller)
    // other writers of the record, and Axern itself
    | OtherWriter(w: Records.Write)
    | Allocate(run: string, allocation: string)
    | Exit(run: string, status: int)

  function Init(now: string): State {
    State(NewRecord(now), None, map[], map[], Permit(None, 0), Permit(None, 0), {})
  }

  function At(s: State, c: Caller): Activity {
    if c in s.callers then s.callers[c] else Idle
  }

  function Move(s: State, c: Caller, a: Activity): State {
    s.(callers := s.callers[c := a])
  }

  function Raise(error: Failure, guards: nat): Activity {
    if guards == 0 then Idle else Raising(error, guards)
  }

  function WithPermit(s: State, stage: Stage, permit: Permit): State {
    match stage
    case Inference => s.(inference := permit)
    case Verification => s.(verification := permit)
  }

  predicate Stopped(run: Run) {
    run.exit.Some? || run.cancelRequested
  }

  function RequestCancel(s: State, run: string, landed: bool): State {
    if landed && run in s.runs then s.(runs := s.runs[run := s.runs[run].(cancelRequested := true)]) else s
  }

  // ------------------------------------------------------------------ run and backend.execute

  function DoStartRun(s: State, c: Caller): State {
    if s.lock.Some? || !At(s, c).Idle? then s
    else
      var o := Records.StartRun(s.disk);
      if o.raised.Some? || s.disk.phase.Completed? then s
      else WithPermit(Move(s.(disk := o.record), c, Planning(Inference, 1)), Inference, s.inference.(owner := Some(c)))
  }

  /** create_run stands outside the try block: if its answer is lost, nobody knows the Run. */
  function DoCreateRun(e: Episode, s: State, c: Caller, run: string, made: bool, answered: bool): State {
    var a := At(s, c);
    if !a.Planning? || run in s.runs || (answered && !made) then s
    else
      var permit := s.PermitOf(a.stage);
      var s' := WithPermit(s, a.stage, permit.(calls := permit.calls + 1));
      var created := if made
                     then s'.(runs := s'.runs[run := Run(a.stage, e.EnvironmentOf(a.stage), "", None, false, false)])
                     else s';
      Move(created, c, if answered then Created(a.stage, ExecutionRef(e.EnvironmentOf(a.stage), run, ""), a.guards)
                       else Raise(Infrastructure, a.guards))
  }

  function DoBind(e: Episode, s: State, c: Caller): State {
    var a := At(s, c);
    if s.lock.Some? || !(a.Created? || a.Allocated?) then s
    else
      var o := Records.Bind(e, s.disk, a.stage, a.x);
      if o.raised.Some? then
        Move(s, c, if s.disk.phase.Cancelled? then Rejected(a.stage, a.x, a.guards)
                   else Unwinding(a.stage, a.x, a.guards, o.raised.value))
      else
        Move(s.(disk := o.record, persisted := s.persisted + {a.x}), c,
             if a.Created? then Waiting(a.stage, a.x, a.guards) else Preparing(a.stage, a.x, a.guards))
  }

  function DoCancelRejected(s: State, c: Caller, landed: bool): State {
    var a := At(s, c);
    if !a.Rejected? then s
    else Move(RequestCancel(s, a.x.run, landed), c, Unwinding(a.stage, a.x, a.guards, RecoveryRequired))
  }

  function DoWaitRunning(s: State, c: Caller): State {
    var a := At(s, c);
    if !a.Waiting? || a.x.run !in s.runs || s.runs[a.x.run].allocation == "" then s
    else Move(s, c, Allocated(a.stage, a.x.(allocation := s.runs[a.x.run].allocation), a.guards))
  }

  /** The write may take effect although its answer is lost. */
  function DoWriteMarker(s: State, c: Caller, landed: bool, answered: bool): State {
    var a := At(s, c);
    if !a.Preparing? || a.x.run !in s.runs || (answered && !landed) then s
    else
      var s' := if landed then s.(runs := s.runs[a.x.run := s.runs[a.x.run].(released := true)]) else s;
      Move(s', c, if answered then Observing(a.stage, a.x, a.guards)
                  else Unwinding(a.stage, a.x, a.guards, Infrastructure))
  }

  function DoWaitRun(s: State, c: Caller): State {
    var a := At(s, c);
    if !a.Observing? || a.x.run !in s.runs || s.runs[a.x.run].exit.None? then s
    else Move(s, c, Holding(a.stage, a.x, s.runs[a.x.run].exit.value, a.guards))
  }

  /** An exception at any point: before release the Run is cancelled first, after it never. */
  function AfterThrow(a: Activity, error: Failure): Activity {
    match a
    case Planning(stage, guards) => Raise(error, guards)
    case Created(stage, x, guards) => Unwinding(stage, x, guards, error)
    case Waiting(stage, x, guards) => Unwinding(stage, x, guards, error)
    case Allocated(stage, x, guards) => Unwinding(stage, x, guards, error)
    case Preparing(stage, x, guards) => Unwinding(stage, x, guards, error)
    case Rejected(stage, x, guards) => Unwinding(stage, x, guards, error)
    case Observing(stage, x, guards) => Raise(error, guards)
    case Holding(stage, x, exit, guards) => Raise(error, guards)
    case Delivering(guards) => Raise(error, guards)
    case Reading(stage, x) => Idle
    case _ => a
  }

  predicate InCancel(a: Activity) {
    a.Querying? || a.Asking? || a.Ending?
  }

  function DoThrow(s: State, c: Caller, error: Failure): State {
    if InCancel(At(s, c)) then DoCrash(s, c) else Move(s, c, AfterThrow(At(s, c), error))
  }

  function DoCancelUnreleased(s: State, c: Caller, closed: bool, landed: bool, answered: bool): State {
    var a := At(s, c);
    if !a.Unwinding? || (answered && !landed) then s
    else
      var error := if !answered then Diagnosed("prestart_cleanup_failed", "unreleased_run_cancel_failed")
                   else if !closed then Diagnosed("lifecycle_cleanup_failed", "component_cleanup_failed")
                   else a.error;
      Move(RequestCancel(s, a.x.run, landed), c, Raise(error, a.guards))
  }

  function DoHandleFailure(s: State, c: Caller, now: string): State {
    var a := At(s, c);
    if s.lock.Some? || !a.Raising? || a.guards == 0 then s
    else Move(s.(disk := Records.RecordFailure(s.disk, a.error, now).record), c, Raise(a.error, a.guards - 1))
  }

  // ------------------------------------------------------------------ committing stage results

  /** A non-zero inference exit, or a verifier output that does not parse. */
  function DoRejectStage(e: Episode, s: State, c: Caller, code: string, message: string, now: string,
                         error: Failure): State
  {
    var a := At(s, c);
    if s.lock.Some? || !a.Holding? || (a.stage.Inference? && a.exit == 0) then s
    else
      var o := Records.FailStage(e, s.disk, a.stage, a.x, code, message, now);
      Move(s.(disk := o.record), c, Raise(if o.raised.Some? then o.raised.value else error, a.guards))
  }

  function DoCommitCandidate(e: Episode, s: State, c: Caller, candidate: Digest<CandidateManifest>,
                             trajectory: Option<(string, string, string)>): State
  {
    var a := At(s, c);
    if s.lock.Some? || !a.Holding? || a.stage.Verification? || a.exit != 0 then s
    else
      var o := Records.CommitCandidate(e, s.disk, a.x, candidate, trajectory);
      Move(s.(disk := o.record), c,
           if o.raised.Some? then Raise(o.raised.value, a.guards) else Delivering(a.guards))
  }

  function DoBeginVerification(s: State, c: Caller): State {
    var a := At(s, c);
    if s.lock.Some? || !a.Delivering? then s
    else
      var o := Records.StartVerification(s.disk);
      if o.raised.Some? then Move(s, c, Raise(o.raised.value, a.guards))
      else WithPermit(Move(s.(disk := o.record), c, Planning(Verification, a.guards + 1)), Verification,
                      s.verification.(owner := Some(c)))
  }

  function DoFinish(e: Episode, s: State, c: Caller, verdict: VerificationResult, now: string): State {
    var a := At(s, c);
    if s.lock.Some? || !a.Holding? || a.stage.Inference? then s
    else
      var o := Records.Finish(e, s.disk, a.x, verdict, false, now);
      Move(s.(disk := o.record), c, if o.raised.Some? then Raise(o.raised.value, a.guards) else Idle)
  }

  // ------------------------------------------------------------------ recover and wait

  function DoStartRecovery(s: State, c: Caller): State {
    if s.lock.Some? || !At(s, c).Idle? then s
    else
      match s.disk.phase
      case CandidateReady => Move(s, c, Reloading)
      case InferenceRunning =>
        if s.disk.inference.None? then s else Move(s, c, Reading(Inference, s.disk.inference.value))
      case VerificationRunning =>
        if s.disk.verification.None? then s else Move(s, c, Loading(Verification, s.disk.verification.value))
      case _ => s
  }

  function DoLoadCandidate(s: State, c: Caller, ok: bool): State {
    match At(s, c)
    case Reloading => Move(s, c, if ok then Delivering(0) else Raising(Contract, 1))
    case Loading(stage, x) => Move(s, c, if ok then Reading(stage, x) else Raising(Contract, 1))
    case _ => s
  }

  /** backend.recover: a live Run answers nothing, a terminal one is committed like any other. */
  function DoReadRun(s: State, c: Caller): State {
    var a := At(s, c);
    if !a.Reading? || a.x.run !in s.runs then s
    else
      var run := s.runs[a.x.run];
      if run.exit.None? || run.environment != a.x.environment
         || (a.x.allocation != "" && run.allocation != a.x.allocation) then Move(s, c, Idle)
      else Move(s, c, Holding(a.stage, ExecutionRef(run.environment, a.x.run, run.allocation), run.exit.value, 0))
  }

  // ------------------------------------------------------------------ cancel

  function LiveExecution(r: EpisodeRecord): Option<ExecutionRef> {
    match r.phase
    case VerificationRunning => r.verification
    case InferenceRunning => r.inference
    case _ => None
  }

  function DoBeginCancel(s: State, c: Caller): State {
    if s.lock.Some? || !At(s, c).Idle? || Terminal(s.disk.phase) then s
    else Move(s.(lock := Some(c)), c, Querying(LiveExecution(s.disk)))
  }

  function DoQueryRun(s: State, c: Caller): State {
    match At(s, c)
    case Querying(None) => Move(s, c, Ending(None))
    case Querying(Some(x)) =>
      if x.run !in s.runs then s
      else Move(s, c, if s.runs[x.run].exit.Some? then Ending(Some(x)) else Asking(x))
    case _ => s
  }

  function DoAskCancel(s: State, c: Caller, landed: bool, answered: bool): State {
    var a := At(s, c);
    if !a.Asking? || (answered && !landed) then s
    else
      var s' := RequestCancel(s, a.x.run, landed);
      if answered then Move(s', c, Ending(Some(a.x))) else DoCrash(s', c)
  }

  function DoEndCancel(s: State, c: Caller, now: string): State {
    if s.lock != Some(c) || !At(s, c).Ending? then s
    else Move(s.(disk := Records.Cancel(s.disk, now).record, lock := None), c, Idle)
  }

  /** The process dies, or an exception leaves every handler: the lock file is unlocked. */
  function DoCrash(s: State, c: Caller): State {
    Move(if s.lock == Some(c) then s.(lock := None) else s, c, Idle)
  }

  // ------------------------------------------------------------------ other writers, and Axern

  predicate IsOtherWriter(w: Records.Write) {
    w.PublishingProgress? || w.BindingQualification? || w.CommittingQualification?
  }

  function DoOtherWriter(e: Episode, s: State, w: Records.Write): State {
    if s.lock.Some? || !IsOtherWriter(w) then s else s.(disk := Records.Section(e, s.disk, w).record)
  }

  function DoAllocate(s: State, run: string, allocation: string): State {
    if run !in s.runs || s.runs[run].allocation != "" then s
    else s.(runs := s.runs[run := s.runs[run].(allocation := allocation)])
  }

  /** The wrapper loops until it sees the marker, so an unreleased Run cannot succeed. */
  function DoExit(s: State, run: string, status: int): State {
    if run !in s.runs || s.runs[run].exit.Some? || (status == 0 && !s.runs[run].released) then s
    else s.(runs := s.runs[run := s.runs[run].(exit := Some(status))])
  }

  function Apply(e: Episode, s: State, step: Step): State {
    match step
    case StartRun(c) => DoStartRun(s, c)
    case CreateRun(c, run, made, answered) => DoCreateRun(e, s, c, run, made, answered)
    case Bind(c) => DoBind(e, s, c)
    case CancelRejected(c, landed) => DoCancelRejected(s, c, landed)
    case WaitRunning(c) => DoWaitRunning(s, c)
    case WriteMarker(c, landed, answered) => DoWriteMarker(s, c, landed, answered)
    case WaitRun(c) => DoWaitRun(s, c)
    case Throw(c, error) => DoThrow(s, c, error)
    case CancelUnreleased(c, closed, landed, answered) => DoCancelUnreleased(s, c, closed, landed, answered)
    case HandleFailure(c, now) => DoHandleFailure(s, c, now)
    case RejectStage(c, code, message, now, error) => DoRejectStage(e, s, c, code, message, now, error)
    case CommitCandidate(c, candidate, trajectory) => DoCommitCandidate(e, s, c, candidate, trajectory)
    case BeginVerification(c) => DoBeginVerification(s, c)
    case Finish(c, verdict, now) => DoFinish(e, s, c, verdict, now)
    case StartRecovery(c) => DoStartRecovery(s, c)
    case LoadCandidate(c, ok) => DoLoadCandidate(s, c, ok)
    case ReadRun(c) => DoReadRun(s, c)
    case BeginCancel(c) => DoBeginCancel(s, c)
    case QueryRun(c) => DoQueryRun(s, c)
    case AskCancel(c, landed, answered) => DoAskCancel(s, c, landed, answered)
    case EndCancel(c, now) => DoEndCancel(s, c, now)
    case Crash(c) => DoCrash(s, c)
    case OtherWriter(w) => DoOtherWriter(e, s, w)
    case Allocate(run, allocation) => DoAllocate(s, run, allocation)
    case Exit(run, status) => DoExit(s, run, status)
  }

  /** A run of the system: any steps, by any callers, in any order. Disabled steps do nothing. */
  function Trace(e: Episode, s: State, steps: seq<Step>): State
    decreases |steps|
  {
    if |steps| == 0 then s else Trace(e, Apply(e, s, steps[0]), steps[1..])
  }
}
