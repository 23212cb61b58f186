/** Axern stage execution: setup with cleanup, and bounded output capture. */
module Backend {
  import opened Models

  // ------------------------------------------------------------------ execution

  /** What each call answers when it is reached; false and None stand for an exception. */
  datatype Answers = Answers(
    run: Option<string>,
    firstBind: bool,
    allocation: Option<string>,
    secondBind: bool,
    attached: bool,
    started: bool,
    uploads: seq<bool>,
    marker: bool,
    closed: bool,
    cancelled: bool,
    captured: bool,
    exit: Option<int>,
    downloaded: bool)

  datatype Event =
    | CreateRun
    | Bind(x: ExecutionRef)
    | StartLifecycle
    | Upload(index: nat)
    | WriteMarker
    | CloseLifecycle
    | CancelRun
    | Observe

  function Times(log: seq<Event>, event: Event): nat {
    if |log| == 0 then 0
    else Times(log[..|log| - 1], event) + if log[|log| - 1] == event then 1 else 0
  }

  const PRESTART_CLEANUP := Diagnosed("prestart_cleanup_failed", "unreleased_run_cancel_failed")
  const LIFECYCLE_CLEANUP := Diagnosed("lifecycle_cleanup_failed", "component_cleanup_failed")

  predicate AllUploaded(a: Answers) {
    forall i | 0 <= i < |a.uploads| :: a.uploads[i]
  }

  /** Everything before and with the ready marker went well. */
  predicate Released(lifecycle: bool, a: Answers) {
    && a.run.Some? && a.firstBind && a.allocation.Some? && a.secondBind && a.attached
    && (lifecycle ==> a.started) && AllUploaded(a) && a.marker
  }

  /** Both identities of the Run were bound before anything was sent to it. */
  predicate BoundFirst(log: seq<Event>, environment: string, run: string, allocation: string) {
    && |log| >= 3
    && log[0] == CreateRun
    && log[1] == Bind(ExecutionRef(environment, run, ""))
    && log[2] == Bind(ExecutionRef(environment, run, allocation))
  }

  /** The call at each place of an execution that nothing stops. */
  function CallAt(environment: string, lifecycle: bool, a: Answers, i: nat): Event
    requires a.run.Some?
  {
    var first := if lifecycle then 4 else 3;
    if i == 0 then CreateRun
    else if i == 1 then Bind(ExecutionRef(environment, a.run.value, ""))
    else if i == 2 then
      var allocation := if a.allocation.Some? then a.allocation.value else "";
      Bind(ExecutionRef(environment, a.run.value, allocation))
    else if i < first then StartLifecycle
    else if i < first + |a.uploads| then Upload(i - first)
    else if i == first + |a.uploads| then WriteMarker
    else Observe
  }

  ghost predicate InOrder(log: seq<Event>, environment: string, lifecycle: bool, a: Answers)
    requires a.run.Some?
  {
    forall i | 0 <= i < |log| :: log[i] == CallAt(environment, lifecycle, a, i)
  }

  ghost predicate FirstFailing(a: Answers, i: int) {
    0 <= i < |a.uploads| && !a.uploads[i] && forall j | 0 <= j < i :: a.uploads[j]
  }

  /** n calls are made up to and with the first that fails, or with the ready marker. */
  ghost predicate StopsAfter(lifecycle: bool, a: Answers, n: nat) {
    var first := if lifecycle then 4 else 3;
    if !a.firstBind || a.allocation.None? then n == 2
    else if !a.secondBind || !a.attached then n == 3
    else if lifecycle && !a.started then n == 4
    else
      && (AllUploaded(a) ==> n == first + |a.uploads| + 1)
      && forall i | FirstFailing(a, i) :: n == first + i + 1
  }

  /** How often the two cleanup calls occur. */
  ghost predicate Cleaned(log: seq<Event>, closes: nat, cancels: nat) {
    Times(log, CloseLifecycle) == closes && Times(log, CancelRun) == cancels
  }

  lemma Append(log: seq<Event>, event: Event, closes: nat, cancels: nat)
    requires Cleaned(log, closes, cancels)
    ensures Cleaned(log + [event], closes + (if event.CloseLifecycle? then 1 else 0),
                    cancels + (if event.CancelRun? then 1 else 0))
  {
    assert (log + [event])[..|log|] == log;
  }

  /** One more call at its place. */
  lemma Continue(log: seq<Event>, event: Event, environment: string, lifecycle: bool, a: Answers)
    requires a.run.Some? && Cleaned(log, 0, 0) && InOrder(log, environment, lifecycle, a)
    requires event == CallAt(environment, lifecycle, a, |log|)
    ensures Cleaned(log + [event], 0, 0) && InOrder(log + [event], environment, lifecycle, a)
  {
    Append(log, event, 0, 0);
  }

  /** The ready marker comes exactly if everything before it went well, and after both binds. */
  lemma MarkerLast(log: seq<Event>, environment: string, lifecycle: bool, a: Answers)
    requires a.run.Some? && InOrder(log, environment, lifecycle, a) && StopsAfter(lifecycle, a, |log|)
    ensures WriteMarker in log ==>
              a.firstBind && a.allocation.Some? && a.secondBind
              && BoundFirst(log, environment, a.run.value, a.allocation.value)
    ensures Released(lifecycle, a) ==> WriteMarker in log
  {
    if WriteMarker in log {
      var i :| 0 <= i < |log| && log[i] == WriteMarker;
      assert log[i] == CallAt(environment, lifecycle, a, i) && i >= 3;
      hide FirstFailing, AllUploaded;
    }
    if Released(lifecycle, a) {
      assert log[|log| - 1] == CallAt(environment, lifecycle, a, |log| - 1);
    }
  }

  /** The exception handler: close the lifecycle, then cancel the Run that was not released. */
  method Unwind(lifecycle: bool, a: Answers, before: seq<Event>) returns (error: Failure, log: seq<Event>)
    requires Cleaned(before, 0, 0)
    ensures Cleaned(log, if lifecycle then 1 else 0, 1)
    ensures log == before + (if lifecycle then [CloseLifecycle] else []) + [CancelRun]
    ensures error == if !a.cancelled then PRESTART_CLEANUP
                     else if lifecycle && !a.closed then LIFECYCLE_CLEANUP else Infrastructure
  {
    error := Infrastructure;
    log := before;
    if lifecycle {
      Append(log, CloseLifecycle, 0, 0);
      log := log + [CloseLifecycle];
      if !a.closed {
        error := LIFECYCLE_CLEANUP;
      }
    }
    Append(log, CancelRun, if lifecycle then 1 else 0, 0);
    log := log + [CancelRun];
    if !a.cancelled {
      error := PRESTART_CLEANUP;
    }
  }

  /** After release: a lost connection is an exception, and never a cancellation. */
  method Complete(execution: ExecutionRef, lifecycle: bool, a: Answers, before: seq<Event>)
    returns (result: Result<(ExecutionRef, int), Failure>, log: seq<Event>)
    requires Cleaned(before, 0, 0)
    ensures Cleaned(log, if lifecycle then 1 else 0, 0)
    ensures log == before + [Observe] + if lifecycle then [CloseLifecycle] else []
    ensures result.Ok? <==>
              a.captured && a.exit.Some? && (a.exit.value == 0 ==> a.downloaded) && (lifecycle ==> a.closed)
    ensures result.Ok? ==> result.value == (execution, a.exit.value)
    ensures result.Err? ==> result.error == if lifecycle && !a.closed then LIFECYCLE_CLEANUP else Infrastructure
  {
    Append(before, Observe, 0, 0);
    log := before + [Observe];
    if !a.captured || a.exit.None? || (a.exit.value == 0 && !a.downloaded) {
      result := Err(Infrastructure);
    } else {
      result := Ok((execution, a.exit.value));
    }
    if lifecycle {
      Append(log, CloseLifecycle, 0, 0);
      log := log + [CloseLifecycle];
      if !a.closed {
        result := Err(LIFECYCLE_CLEANUP);
      }
    }
  }

  /**
   * Once the Run exists, it is cancelled exactly once if it was not released and never otherwise,
   * and a supplied lifecycle is closed exactly once, whatever else fails. The ready marker comes
   * after both binds, and the diagnostics of a failed cleanup take precedence. The calls come in order
   * up to the first that fails; then the lifecycle is closed before the Run is cancelled.
   */
  method Execute(environment: string, lifecycle: bool, a: Answers)
    returns (result: Result<(ExecutionRef, int), Failure>, log: seq<Event>)
    ensures a.run.None? ==> log == [CreateRun] && result.Err?
    ensures a.run.Some? ==> Cleaned(log, if lifecycle then 1 else 0, if Released(lifecycle, a) then 0 else 1)
    ensures WriteMarker in log ==>
              a.run.Some? && a.allocation.Some? && BoundFirst(log, environment, a.run.value, a.allocation.value)
    ensures a.run.Some? ==>
              exists n: nat, cleanup: seq<Event> ::
                && n <= |log|
                && log == log[..n] + cleanup
                && InOrder(log[..n], environment, lifecycle, a)
                && (Released(lifecycle, a) ==>
                      && n == |a.uploads| + (if lifecycle then 6 else 5)
                      && cleanup == if lifecycle then [CloseLifecycle] else [])
                && (!Released(lifecycle, a) ==>
                      && StopsAfter(lifecycle, a, n)
                      && cleanup == if lifecycle then [CloseLifecycle, CancelRun] else [CancelRun])
    ensures a.run.Some? && !Released(lifecycle, a) ==>
              result == Err(if !a.cancelled then PRESTART_CLEANUP
                            else if lifecycle && !a.closed then LIFECYCLE_CLEANUP else Infrastructure)
    ensures Released(lifecycle, a) ==>
              && WriteMarker in log
              && (result.Ok? <==> a.captured && a.exit.Some? && (a.exit.value == 0 ==> a.downloaded)
                                  && (lifecycle ==> a.closed))
              && (result.Ok? ==>
                    result.value == (ExecutionRef(environment, a.run.value, a.allocation.value), a.exit.value))
  {
    log := [CreateRun];
    if a.run.None? {
      return Err(Infrastructure), log;
    }
    var raised, execution, setup := Setup(environment, lifecycle, a, log);
    MarkerLast(setup, environment, lifecycle, a);
    if raised.Some? {
      var error;
      error, log := Unwind(lifecycle, a, setup);
      result := Err(error);
      ghost var cleanup := if lifecycle then [CloseLifecycle, CancelRun] else [CancelRun];
      assert log[..|setup|] == setup && log == log[..|setup|] + cleanup;
    } else {
      result, log := Complete(execution, lifecycle, a, setup);
      ghost var cleanup := if lifecycle then [CloseLifecycle] else [];
      assert log[..|setup| + 1] == setup + [Observe] && log == log[..|setup| + 1] + cleanup;
    }
  }

  /** The guarded part: it ends with the ready marker, or with the first exception. */
  method Setup(environment: string, lifecycle: bool, a: Answers, before: seq<Event>)
    returns (raised: Option<Failure>, execution: ExecutionRef, log: seq<Event>)
    requires a.run.Some? && before == [CreateRun]
    ensures raised.None? <==> Released(lifecycle, a)
    ensures raised.Some? ==> raised.value == Infrastructure
    ensures Cleaned(log, 0, 0) && InOrder(log, environment, lifecycle, a) && StopsAfter(lifecycle, a, |log|)
    ensures raised.None? ==> execution == ExecutionRef(environment, a.run.value, a.allocation.value)
  {
    Continue([], CreateRun, environment, lifecycle, a);
    assert [] + [CreateRun] == before;
    hide Cleaned, InOrder;
    execution := ExecutionRef(environment, a.run.value, "");
    Continue(before, Bind(execution), environment, lifecycle, a);
    log := before + [Bind(execution)];
    if !a.firstBind || a.allocation.None? {
      return Some(Infrastructure), execution, log;
    }
    execution := ExecutionRef(environment, a.run.value, a.allocation.value);
    Continue(log, Bind(execution), environment, lifecycle, a);
    log := log + [Bind(execution)];
    if !a.secondBind || !a.attached {
      return Some(Infrastructure), execution, log;
    }
    if lifecycle {
      Continue(log, StartLifecycle, environment, lifecycle, a);
      log := log + [StartLifecycle];
      if !a.started {
        return Some(Infrastructure), execution, log;
      }
    }
    for i := 0 to |a.uploads|
      invariant Cleaned(log, 0, 0) && InOrder(log, environment, lifecycle, a)
      invariant |log| == i + if lifecycle then 4 else 3
      invariant forall j | 0 <= j < i :: a.uploads[j]
    {
      Continue(log, Upload(i), environment, lifecycle, a);
      log := log + [Upload(i)];
      if !a.uploads[i] {
        return Some(Infrastructure), execution, log;
      }
    }
    Continue(log, WriteMarker, environment, lifecycle, a);
    log := log + [WriteMarker];
    raised := if a.marker then None else Some(Infrastructure);
  }

  // ------------------------------------------------------------------ output capture

  /** One output event of a Run; only streams 1 and 2 are kept. */
  datatype Output = Output(stream: int, data: seq<bv8>)

  const CAPTURE_LIMIT := 16_777_216

  /** All that a stream ever said. */
  function Spoken(events: seq<Output>, stream: int): seq<bv8> {
    if |events| == 0 then []
    else
      var last := events[|events| - 1];
      Spoken(events[..|events| - 1], stream) + if last.stream == stream then last.data else []
  }

  function Bounded(data: seq<bv8>): seq<bv8> {
    if |data| <= CAPTURE_LIMIT then data else data[..CAPTURE_LIMIT]
  }

  /** One event is added to a bounded file. */
  lemma BoundedAppend(whole: seq<bv8>, data: seq<bv8>)
    ensures
      var file := Bounded(whole);
      var remaining := CAPTURE_LIMIT - |file|;
      remaining >= 0 && Bounded(whole + data) == file + (if |data| <= remaining then data else data[..remaining])
  {
  }

  class LogFiles {
    var stdout: seq<bv8>
    var stderr: seq<bv8>

    constructor ()
      ensures stdout == [] && stderr == []
    {
      stdout := [];
      stderr := [];
    }

    /** Each file ends up with the first 16 MiB of its own stream, whatever the other one does. */
    method Capture(events: seq<Output>)
      modifies this
      ensures stdout == Bounded(Spoken(events, 1)) && stdout <= Spoken(events, 1)
      ensures stderr == Bounded(Spoken(events, 2)) && stderr <= Spoken(events, 2)
      ensures |stdout| == if |Spoken(events, 1)| < 16 * 1024 * 1024 then |Spoken(events, 1)| else 16 * 1024 * 1024
      ensures |stderr| == if |Spoken(events, 2)| < 16 * 1024 * 1024 then |Spoken(events, 2)| else 16 * 1024 * 1024
    {
      stdout := [];
      stderr := [];
      var stdoutSize := 0;
      var stderrSize := 0;
      for i := 0 to |events|
        invariant stdout == Bounded(Spoken(events[..i], 1)) && stdoutSize == |stdout|
        invariant stderr == Bounded(Spoken(events[..i], 2)) && stderrSize == |stderr|
      {
        var event := events[i];
        assert events[..i + 1][..i] == events[..i];
        BoundedAppend(Spoken(events[..i], 1), event.data);
        BoundedAppend(Spoken(events[..i], 2), event.data);
        if event.stream == 1 && event.data != [] {
          var remaining := CAPTURE_LIMIT - stdoutSize;
          if remaining > 0 {
            var chunk := if |event.data| <= remaining then event.data else event.data[..remaining];
            stdout := stdout + chunk;
            stdoutSize := stdoutSize + if |event.data| <= remaining then |event.data| else remaining;
          }
        } else if event.stream == 2 && event.data != [] {
          var remaining := CAPTURE_LIMIT - stderrSize;
          if remaining > 0 {
            var chunk := if |event.data| <= remaining then event.data else event.data[..remaining];
            stderr := stderr + chunk;
            stderrSize := stderrSize + if |event.data| <= remaining then |event.data| else remaining;
          }
        }
      }
      assert events[..|events|] == events;
    }
  }

  function Only(events: seq<Output>, stream: int): seq<Output> {
    if |events| == 0 then []
    else
      var last := events[|events| - 1];
      Only(events[..|events| - 1], stream) + if last.stream == stream then [last] else []
  }

  /** Interleaving with other streams does not matter. */
  lemma {:induction false} InterleavingIgnored(events: seq<Output>, stream: int)
    ensures Spoken(Only(events, stream), stream) == Spoken(events, stream)
    decreases |events|
  {
    if |events| > 0 {
      var front := events[..|events| - 1];
      InterleavingIgnored(front, stream);
      if events[|events| - 1].stream == stream {
        assert Only(events, stream)[..|Only(events, stream)| - 1] == Only(front, stream);
      } else {
        assert Only(events, stream) == Only(front, stream);
      }
    }
  }

  /** What a stream said is the data of its events, one after the other. */
  lemma {:induction false} SpokenInOrder(before: seq<Output>, event: Output, after: seq<Output>, stream: int)
    ensures Spoken(before + [event] + after, stream)
            == Spoken(before, stream) + (if event.stream == stream then event.data else []) + Spoken(after, stream)
    ensures Spoken([], stream) == []
    decreases |after|
  {
    var all := before + [event] + after;
    if |after| == 0 {
      assert all == before + [event] && (before + [event])[..|before|] == before;
    } else {
      var front := after[..|after| - 1];
      assert all[..|all| - 1] == before + [event] + front && all[|all| - 1] == after[|after| - 1];
      SpokenInOrder(before, event, front, stream);
    }
  }
}
