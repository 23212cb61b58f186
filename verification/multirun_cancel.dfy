/** The imperative cancel is what the protocol's cancel steps amount to when nothing comes between them. */
module MultiRunCancel {
  import opened Models
  import opened MultiRunStore
  import opened MultiRunProtocol
  import Safety = MultiRunSafety

  function Asks(asked: seq<string>, cancels: string -> bool): seq<MultiRunProtocol.Step> {
    if |asked| == 0 then [] else [AskCancel(asked[0], true, cancels(asked[0]))] + Asks(asked[1..], cancels)
  }

  function CancelSteps(asked: seq<string>, cancels: string -> bool, deletes: bool): seq<MultiRunProtocol.Step> {
    [BeginCancel] + (Asks(asked, cancels) + [EndAsking, Clean(deletes, deletes)])
  }

  lemma {:induction false} TraceJoins(p: Plan, s: State, xs: seq<MultiRunProtocol.Step>, ys: seq<MultiRunProtocol.Step>)
    requires ValidPlan(p)
    ensures Trace(p, s, xs + ys) == Trace(p, Trace(p, s, xs), ys)
    decreases |xs|
  {
    if |xs| == 0 {
      assert xs + ys == ys;
    } else {
      assert (xs + ys)[1..] == xs[1..] + ys;
      TraceJoins(p, Apply(p, s, xs[0]), xs[1..], ys);
    }
  }

  /** Every Run is asked, and one failure is enough to remember. */
  lemma {:induction false} AsksAll(p: Plan, s: State, asked: seq<string>, cancels: string -> bool, failed: bool)
    requires ValidPlan(p) && s.canceller == Asking((set r | r in asked), failed)
    requires forall i, j | 0 <= i < j < |asked| :: asked[i] != asked[j]
    requires forall r | r in asked :: r in s.world.runs
    ensures
      var s' := Trace(p, s, Asks(asked, cancels));
      && s'.disk == s.disk && s'.marker == s.marker
      && s'.canceller == Asking({}, failed || exists r :: r in asked && !cancels(r))
    decreases |asked|
  {
    hide DoOpen, DoDecide, DoRequireLive, DoCreateRun, DoBind, DoSettle, DoSum, DoThrow, DoFinishFailure, DoDelete;
    if |asked| > 0 {
      var step := AskCancel(asked[0], true, cancels(asked[0]));
      var s1 := Apply(p, s, step);
      var rest := asked[1..];
      assert asked == [asked[0]] + rest;
      assert (set r | r in asked) - {asked[0]} == set r | r in rest;
      assert s1 == DoAskCancel(s, asked[0], true, cancels(asked[0]));
      TraceJoins(p, s, [step], Asks(rest, cancels));
      assert [step][1..] == [];
      AsksAll(p, s1, rest, cancels, failed || !cancels(asked[0]));
    }
  }

  lemma Ends(p: Plan, s: State, deletes: bool)
    requires ValidPlan(p) && s.canceller.Asking? && s.canceller.todo == {} && s.disk.Some?
    ensures Trace(p, s, [EndAsking, Clean(deletes, deletes)])
            == DoClean(DoEndAsking(s), deletes, deletes)
  {
    var steps := [EndAsking, Clean(deletes, deletes)];
    assert steps[1..] == [Clean(deletes, deletes)] && steps[1..][1..] == [];
    assert Trace(p, Apply(p, s, EndAsking), [Clean(deletes, deletes)])
        == Trace(p, Apply(p, Apply(p, s, EndAsking), Clean(deletes, deletes)), []);
  }

  /** In any reachable state whose lock is free. */
  lemma CancelIsItsSteps(p: Plan, s: State, asked: seq<string>, cancels: string -> bool, deletes: bool)
    requires ValidPlan(p) && Safety.Reachable(p, s) && s.canceller.Free?
    requires s.disk.Some? && !s.disk.value.phase.Cancelled?
    requires (set r | r in asked) == RunningRuns(s.disk.value)
    requires forall i, j | 0 <= i < j < |asked| :: asked[i] != asked[j]
    ensures
      var s' := Trace(p, s, CancelSteps(asked, cancels, deletes));
      var o := CancelOutcome(s.disk, s.marker, exists r :: r in asked && !cancels(r), deletes);
      && s'.disk == o.0 && s'.marker == o.1 && s'.canceller.Free?
  {
    RunsKnown(p, s);
    hide Safety.Inv, Safety.Reachable, RunningRuns;
    var begun := DoBeginCancel(s);
    var last := [EndAsking, Clean(deletes, deletes)];
    Begins(p, s);
    hide Apply, Trace, Asks;
    TraceJoins(p, s, [BeginCancel], Asks(asked, cancels) + last);
    TraceJoins(p, begun, Asks(asked, cancels), last);
    forall r | r in asked ensures r in s.world.runs { assert r in RunningRuns(s.disk.value); }
    AsksAll(p, begun, asked, cancels, false);
    Ends(p, Trace(p, begun, Asks(asked, cancels)), deletes);
  }

  lemma RunsKnown(p: Plan, s: State)
    requires ValidPlan(p) && Safety.Reachable(p, s) && s.disk.Some?
    ensures RunningRuns(s.disk.value) <= s.world.runs.Keys
    ensures s.canceller.Free? ==> !s.marker
  {
    Safety.ReachableInv(p, s);
    Safety.RunningRunsNamed(s.world, p, s.disk.value);
  }

  lemma Begins(p: Plan, s: State)
    requires ValidPlan(p)
    ensures Trace(p, s, [BeginCancel]) == DoBeginCancel(s)
  {
    hide DoOpen, DoDecide, DoRequireLive, DoCreateRun, DoBind, DoSettle, DoSum, DoThrow, DoFinishFailure, DoDelete,
      DoBeginCancel;
    assert [BeginCancel][1..] == [];
  }
}
