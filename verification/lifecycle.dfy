/** Ephemeral stage resources: what stays reachable for cleanup after partial failures. */
module Lifecycles {
  import opened Models

  // ------------------------------------------------------------------ the composite

  /** Whether each child's start or close succeeds in one call of the composite. */
  type Answers = nat -> bool

  datatype Event = Attempted(child: nat) | Released(child: nat) | Refused(child: nat)

  /** Children are numbered in the order in which they are started. */
  datatype Composite = Composite(started: seq<nat>, log: seq<Event>)

  function Reversed(s: seq<nat>): seq<nat> {
    if |s| == 0 then [] else Reversed(s[1..]) + [s[0]]
  }

  /** The children that refused to close, in the order of s. */
  function Unclosed(s: seq<nat>, closes: Answers): seq<nat> {
    if |s| == 0 then []
    else
      var before := Unclosed(s[..|s| - 1], closes);
      if closes(s[|s| - 1]) then before else before + [s[|s| - 1]]
  }

  function CloseEvent(child: nat, closes: Answers): Event {
    if closes(child) then Released(child) else Refused(child)
  }

  /** Each child of s is closed once, the last first. */
  function Closing(s: seq<nat>, closes: Answers): seq<Event> {
    if |s| == 0 then []
    else [CloseEvent(s[|s| - 1], closes)] + Closing(s[..|s| - 1], closes)
  }

  function Closed(c: Composite, closes: Answers): Composite {
    Composite(Unclosed(c.started, closes), c.log + Closing(c.started, closes))
  }

  function FirstChildren(n: nat): seq<nat> {
    seq(n, i => i)
  }

  function Attempting(n: nat): seq<Event> {
    seq(n, i requires 0 <= i => Attempted(i))
  }

  /** How many children are attempted: all, or up to and with the first that fails. */
  function Reach(from: nat, count: nat, starts: Answers): nat
    requires from <= count
    decreases count - from
  {
    if from == count then count else if starts(from) then Reach(from + 1, count, starts) else from + 1
  }

  predicate AllStart(count: nat, starts: Answers) {
    forall i | 0 <= i < count :: starts(i)
  }

  function Begun(c: Composite, count: nat, starts: Answers, closes: Answers): Composite {
    if c.started != [] then c
    else
      var n := Reach(0, count, starts);
      var attempted := Composite(FirstChildren(n), c.log + Attempting(n));
      if AllStart(count, starts) then attempted else Closed(attempted, closes)
  }

  class CompositeLifecycle {
    const count: nat
    var started: seq<nat>
    ghost var log: seq<Event>

    ghost function State(): Composite
      reads this
    {
      Composite(started, log)
    }

    constructor (count: nat)
      ensures this.count == count && State() == Composite([], []) && HoldsOutstanding(State())
    {
      this.count := count;
      started := [];
      log := [];
    }

    method Close(closes: Answers) returns (error: Option<nat>)
      modifies this
      ensures State() == Closed(old(State()), closes)
      ensures error.None? <==> started == []
      ensures error.Some? ==> error.value == started[|started| - 1]
    {
      var pending: seq<nat> := [];
      error := None;
      ghost var before := log;
      var i := |started|;
      assert started[..i] == started && Reversed([]) == [];
      hide Reversed, Closing, Unclosed;
      assert Closing([], closes) == [] && Unclosed([], closes) == [] by { NoneClose(closes); }
      while i > 0
        invariant 0 <= i <= |started| && started == old(started)
        invariant log + Closing(started[..i], closes) == before + Closing(started, closes)
        invariant Unclosed(started[..i], closes) + Reversed(pending) == Unclosed(started, closes)
        invariant error.None? <==> pending == []
        invariant error.Some? ==> error.value == pending[0]
      {
        i := i - 1;
        var child := started[i];
        OneCloses(started[..i + 1], closes);
        assert started[..i + 1][..i] == started[..i];
        Shift(log, CloseEvent(child, closes), Closing(started[..i], closes));
        Shift(Unclosed(started[..i], closes), child, Reversed(pending));
        log := log + [CloseEvent(child, closes)];
        if !closes(child) {
          ReversedSnoc(pending, child);
          pending := pending + [child];
          if error.None? {
            error := Some(child);
          }
        }
      }
      ReversedEnds(pending);
      started := Reversed(pending);
    }

    method Start(starts: Answers, closes: Answers) returns (ok: bool)
      modifies this
      ensures State() == Begun(old(State()), count, starts, closes)
      ensures ok <==> old(started) == [] && AllStart(count, starts)
    {
      if started != [] {
        return false;
      }
      ghost var before := log;
      for i := 0 to count
        invariant started == FirstChildren(i) && log == before + Attempting(i)
        invariant forall j | 0 <= j < i :: starts(j)
        invariant Reach(0, count, starts) == Reach(i, count, starts)
      {
        started := started + [i];
        log := log + [Attempted(i)];
        assert FirstChildren(i) + [i] == FirstChildren(i + 1);
        assert Attempting(i) + [Attempted(i)] == Attempting(i + 1);
        if !starts(i) {
          var error := Close(closes);
          return false;
        }
      }
      ok := true;
    }
  }

  lemma Shift<T>(a: seq<T>, x: T, b: seq<T>)
    ensures (a + [x]) + b == a + ([x] + b)
  {
  }

  lemma NoneClose(closes: Answers)
    ensures Closing([], closes) == [] && Unclosed([], closes) == []
  {
  }

  /** The last child of a list is closed first. */
  lemma OneCloses(children: seq<nat>, closes: Answers)
    requires |children| > 0
    ensures
      var child, before := children[|children| - 1], children[..|children| - 1];
      && Closing(children, closes)
         == [CloseEvent(child, closes)] + Closing(before, closes)
      && Unclosed(children, closes) == Unclosed(before, closes) + if closes(child) then [] else [child]
  {
  }

  lemma {:induction false} ReversedSnoc(s: seq<nat>, x: nat)
    ensures Reversed(s + [x]) == [x] + Reversed(s)
    decreases |s|
  {
    if |s| > 0 {
      assert (s + [x])[1..] == s[1..] + [x];
      ReversedSnoc(s[1..], x);
    }
  }

  lemma {:induction false} ReversedEnds(s: seq<nat>)
    ensures |Reversed(s)| == |s| && (|s| > 0 ==> Reversed(s)[|s| - 1] == s[0])
    decreases |s|
  {
    if |s| > 0 { ReversedEnds(s[1..]); }
  }

  /** The i-th close is that of the i-th child from the end. */
  lemma {:induction false} ClosesInReverse(s: seq<nat>, closes: Answers)
    ensures |Closing(s, closes)| == |s|
    ensures forall i | 0 <= i < |s| ::
              var child := s[|s| - 1 - i];
              Closing(s, closes)[i] == if closes(child) then Released(child) else Refused(child)
    decreases |s|
  {
    if |s| > 0 { ClosesInReverse(s[..|s| - 1], closes); }
  }

  /** How many children a start attempts: all of them, or those up to and with the first that fails. */
  ghost predicate Attempts(n: nat, count: nat, starts: Answers) {
    && n <= count
    && (forall i | 0 <= i < n - 1 :: starts(i))
    && (if n == 0 then count == 0 else starts(n - 1) ==> n == count)
  }

  lemma {:induction false} ReachAttempts(from: nat, count: nat, starts: Answers)
    requires from <= count && forall i | 0 <= i < from :: starts(i)
    ensures Attempts(Reach(from, count, starts), count, starts)
    decreases count - from
  {
    if from < count && starts(from) { ReachAttempts(from + 1, count, starts); }
  }

  ghost predicate AttemptedFrom(log: seq<Event>) {
    forall i | 0 <= i < |log| :: log[i] == Attempted(i)
  }

  /** The children 0 to |log| - 1 are closed, the last first. */
  ghost predicate ClosedBackwards(log: seq<Event>, closes: Answers) {
    forall i | 0 <= i < |log| ::
      log[i] == if closes(|log| - 1 - i) then Released(|log| - 1 - i) else Refused(|log| - 1 - i)
  }

  /**
   * A start attempts the children in order, each once, up to the first that fails. Only if one fails are the
   * attempted ones closed, and those whose close is refused stay held.
   */
  lemma StartsInOrder(log: seq<Event>, count: nat, starts: Answers, closes: Answers) returns (n: nat)
    ensures Attempts(n, count, starts)
    ensures
      var c := Begun(Composite([], log), count, starts, closes);
      && |log| + n <= |c.log| && c.log[..|log|] == log
      && AttemptedFrom(c.log[|log|..|log| + n])
      && (if n == 0 || starts(n - 1) then
            |c.log| == |log| + n && |c.started| == n && forall i | 0 <= i < n :: c.started[i] == i
          else
            && |c.log| == |log| + n + n
            && ClosedBackwards(c.log[|log| + n..], closes)
            && forall child: nat :: child in c.started <==> child < n && !closes(child))
  {
    n := Reach(0, count, starts);
    ReachAttempts(0, count, starts);
    var c, children := Begun(Composite([], log), count, starts, closes), FirstChildren(n);
    ClosesInReverse(children, closes);
    UnclosedMembers(children, closes);
    assert forall i | 0 <= i < n :: children[i] == i;
    hide Closing, Unclosed, Reach;
    assert c.log[|log|..|log| + n] == Attempting(n);
    if !AllStart(count, starts) {
      assert !starts(n - 1);
      assert c.log[|log| + n..] == Closing(children, closes);
      forall child: nat ensures child in children <==> child < n { if child < n { assert children[child] == child; } }
    }
  }

  // ------------------------------------------------------------------ any sequence of calls

  datatype Call = StartAll(starts: Answers, closes: Answers) | CloseAll(closes: Answers)

  function After(c: Composite, count: nat, call: Call): Composite {
    match call
    case StartAll(starts, closes) => Begun(c, count, starts, closes)
    case CloseAll(closes) => Closed(c, closes)
  }

  function Calls(c: Composite, count: nat, calls: seq<Call>): Composite
    decreases |calls|
  {
    if |calls| == 0 then c else Calls(After(c, count, calls[0]), count, calls[1..])
  }

  /** The start of the child was attempted, and its close has not succeeded since. */
  predicate Outstanding(log: seq<Event>, child: nat) {
    if |log| == 0 then false
    else
      var last := log[|log| - 1];
      if last == Attempted(child) then true
      else if last == Released(child) then false
      else Outstanding(log[..|log| - 1], child)
  }

  ghost predicate Increasing(s: seq<nat>) {
    forall i, j | 0 <= i < j < |s| :: s[i] < s[j]
  }

  /** The composite holds exactly the outstanding children, in start order. */
  ghost predicate HoldsOutstanding(c: Composite) {
    Increasing(c.started) && forall child: nat :: child in c.started <==> Outstanding(c.log, child)
  }

  lemma {:induction false} UnclosedMembers(s: seq<nat>, closes: Answers)
    requires Increasing(s)
    ensures Increasing(Unclosed(s, closes))
    ensures forall child :: child in Unclosed(s, closes) <==> child in s && !closes(child)
    decreases |s|
  {
    if |s| > 0 {
      var front := s[..|s| - 1];
      UnclosedMembers(front, closes);
      forall child ensures child in s <==> child in front || child == s[|s| - 1] {}
      forall child | child in front ensures child < s[|s| - 1] {}
      var before, all := Unclosed(front, closes), Unclosed(s, closes);
      forall i, j | 0 <= i < j < |all| ensures all[i] < all[j] {
        if j == |before| { assert before[i] in before; }
      }
    }
  }

  lemma OutstandingSnoc(log: seq<Event>, event: Event, child: nat)
    ensures Outstanding(log + [event], child)
            == (event == Attempted(child) || (event != Released(child) && Outstanding(log, child)))
  {
    assert (log + [event])[..|log|] == log;
  }

  /** Closing s settles exactly the children of s that agree to close. */
  lemma {:induction false} ClosingSettles(log: seq<Event>, s: seq<nat>, closes: Answers, child: nat)
    ensures Outstanding(log + Closing(s, closes), child) == (Outstanding(log, child) && !(child in s && closes(child)))
    decreases |s|
  {
    if |s| == 0 {
      assert log + Closing(s, closes) == log;
    } else {
      var last := s[|s| - 1];
      var event := CloseEvent(last, closes);
      var front := s[..|s| - 1];
      assert log + Closing(s, closes) == (log + [event]) + Closing(front, closes);
      ClosingSettles(log + [event], front, closes, child);
      OutstandingSnoc(log, event, child);
      assert child in s <==> child in front || child == last;
    }
  }

  lemma {:induction false} AttemptingMarks(log: seq<Event>, n: nat, child: nat)
    ensures Outstanding(log + Attempting(n), child) == (child < n || Outstanding(log, child))
    decreases n
  {
    if n == 0 {
      assert log + Attempting(0) == log;
    } else {
      AttemptingMarks(log, n - 1, child);
      assert log + Attempting(n) == (log + Attempting(n - 1)) + [Attempted(n - 1)];
      OutstandingSnoc(log + Attempting(n - 1), Attempted(n - 1), child);
    }
  }

  lemma ClosedHolds(c: Composite, closes: Answers)
    requires HoldsOutstanding(c)
    ensures HoldsOutstanding(Closed(c, closes))
  {
    UnclosedMembers(c.started, closes);
    forall child: nat ensures child in Closed(c, closes).started <==> Outstanding(Closed(c, closes).log, child) {
      ClosingSettles(c.log, c.started, closes, child);
    }
  }

  lemma BegunHolds(c: Composite, count: nat, starts: Answers, closes: Answers)
    requires HoldsOutstanding(c)
    ensures HoldsOutstanding(Begun(c, count, starts, closes))
  {
    if c.started == [] {
      var n := Reach(0, count, starts);
      var attempted := Composite(FirstChildren(n), c.log + Attempting(n));
      forall child: nat ensures child in attempted.started <==> Outstanding(attempted.log, child) {
        AttemptingMarks(c.log, n, child);
        if child < n { assert FirstChildren(n)[child] == child; }
      }
      ClosedHolds(attempted, closes);
    }
  }

  /** Over any starts and closes with any failures of the children. */
  lemma {:induction false} CompositeHoldsOutstanding(c: Composite, count: nat, calls: seq<Call>)
    requires HoldsOutstanding(c)
    ensures HoldsOutstanding(Calls(c, count, calls))
    decreases |calls|
  {
    if |calls| > 0 {
      match calls[0] {
        case StartAll(starts, closes) => BegunHolds(c, count, starts, closes);
        case CloseAll(closes) => ClosedHolds(c, closes);
      }
      CompositeHoldsOutstanding(After(c, count, calls[0]), count, calls[1..]);
    }
  }

  // ------------------------------------------------------------------ the model tunnel

  /**
   * session and connector are what the lifecycle holds; sessions and connectors are what exists because
   * of it. orphans are the sessions whose creation was never answered, and gone those that were revoked
   * by a call that was never answered.
   */
  datatype Tunnel = Tunnel(
    session: string,
    connector: Option<nat>,
    sessions: set<string>,
    connectors: set<nat>,
    orphans: set<string>,
    gone: set<string>)

  /** How far a start comes before something fails. */
  datatype Progress =
    | ProxyFails
    | SessionFails
    | SessionLost(session: string)
    | ConnectorFails(session: string)
    | PreflightFails(session: string, connector: nat)
    | Healthy(session: string, connector: nat)

  /** How a revocation fares: a call that is not answered may have taken effect. */
  datatype Revocation = Revoked | Denied | Unanswered

  datatype Cleanup = Cleanup(revocation: Revocation, stops: bool, proxyStops: bool)

  function TunnelClosed(t: Tunnel, c: Cleanup): Tunnel {
    var t' :=
      if t.session == "" then t
      else
        match c.revocation
        case Revoked => t.(session := "", sessions := t.sessions - {t.session})
        case Denied => t
        case Unanswered => t.(sessions := t.sessions - {t.session}, gone := t.gone + {t.session});
    if t.connector.None? || !c.stops then t'
    else t'.(connector := None, connectors := t'.connectors - {t.connector.value})
  }

  function WithSession(t: Tunnel, session: string): Tunnel {
    t.(session := session, sessions := t.sessions + {session})
  }

  function Orphaned(t: Tunnel, session: string): Tunnel {
    t.(sessions := t.sessions + {session}, orphans := t.orphans + {session})
  }

  function WithConnector(t: Tunnel, connector: nat): Tunnel {
    t.(connector := Some(connector), connectors := t.connectors + {connector})
  }

  function TunnelStarted(t: Tunnel, allocation: string, p: Progress, c: Cleanup): Tunnel {
    if allocation == "" || t.connector.Some? || t.session != "" then t
    else
      match p
      case ProxyFails => t
      case SessionFails => TunnelClosed(t, c)
      case SessionLost(session) => TunnelClosed(Orphaned(t, session), c)
      case ConnectorFails(session) => TunnelClosed(WithSession(t, session), c)
      case PreflightFails(session, connector) => TunnelClosed(WithConnector(WithSession(t, session), connector), c)
      case Healthy(session, connector) => WithConnector(WithSession(t, session), connector)
  }

  class ModelTunnelLifecycle {
    var session: string
    var connector: Option<nat>
    ghost var sessions: set<string>
    ghost var connectors: set<nat>
    ghost var orphans: set<string>
    ghost var gone: set<string>

    ghost function State(): Tunnel
      reads this
    {
      Tunnel(session, connector, sessions, connectors, orphans, gone)
    }

    constructor ()
      ensures State() == Tunnel("", None, {}, {}, {}, {}) && HoldsTunnel(State())
    {
      session := "";
      connector := None;
      sessions := {};
      connectors := {};
      orphans := {};
      gone := {};
    }

    method Close(c: Cleanup) returns (failure: string)
      modifies this
      ensures State() == TunnelClosed(old(State()), c)
      ensures session == if c.revocation.Revoked? then "" else old(session)
      ensures connector == if c.stops then None else old(connector)
      ensures sessions == if old(session) == "" || c.revocation.Denied? then old(sessions)
                          else old(sessions) - {old(session)}
      ensures connectors == if old(connector).None? || !c.stops then old(connectors)
                            else old(connectors) - {old(connector).value}
      ensures failure == if session != "" then "tunnel_revoke_failed"
                         else if connector.Some? then "connector_stop_failed"
                         else if !c.proxyStops then "model_proxy_stop_failed" else ""
    {
      failure := "";
      if session != "" {
        if !c.revocation.Denied? {
          sessions := sessions - {session};
        }
        if !c.revocation.Revoked? {
          failure := "tunnel_revoke_failed";
          if c.revocation.Unanswered? {
            gone := gone + {session};
          }
        } else {
          session := "";
        }
      }
      if connector.Some? {
        if !c.stops {
          if failure == "" { failure := "connector_stop_failed"; }
        } else {
          connectors := connectors - {connector.value};
          connector := None;
        }
      }
      if !c.proxyStops && failure == "" {
        failure := "model_proxy_stop_failed";
      }
    }

    method Start(allocation: string, p: Progress, c: Cleanup) returns (ok: bool)
      modifies this
      ensures State() == TunnelStarted(old(State()), allocation, p, c)
      ensures ok <==> old(session) == "" && old(connector).None? && allocation != "" && p.Healthy?
      ensures ok ==> session == p.session && connector == Some(p.connector)
      ensures ok ==> sessions == old(sessions) + {p.session} && connectors == old(connectors) + {p.connector}
    {
      if allocation == "" || connector.Some? || session != "" || p.ProxyFails? {
        return false;
      }
      if p.SessionFails? || p.SessionLost? {
        if p.SessionLost? {
          sessions, orphans := sessions + {p.session}, orphans + {p.session};
        }
        var failure := Close(c);
        return false;
      }
      session := p.session;
      sessions := sessions + {p.session};
      if p.ConnectorFails? {
        var failure := Close(c);
        return false;
      }
      connector := Some(p.connector);
      connectors := connectors + {p.connector};
      if p.PreflightFails? {
        var failure := Close(c);
        return false;
      }
      ok := true;
    }
  }

  datatype TunnelCall =
    | StartTunnel(allocation: string, progress: Progress, cleanup: Cleanup)
    | CloseTunnel(cleanup: Cleanup)

  function TunnelCalls(t: Tunnel, calls: seq<TunnelCall>): Tunnel
    decreases |calls|
  {
    if |calls| == 0 then t
    else
      var t' := match calls[0]
        case StartTunnel(allocation, progress, cleanup) => TunnelStarted(t, allocation, progress, cleanup)
        case CloseTunnel(cleanup) => TunnelClosed(t, cleanup);
      TunnelCalls(t', calls[1..])
  }

  /** Axern names its sessions. */
  predicate NamedSession(call: TunnelCall) {
    call.StartTunnel? && !call.progress.ProxyFails? && !call.progress.SessionFails? ==> call.progress.session != ""
  }

  function Held(t: Tunnel): set<string> {
    if t.session == "" then {} else {t.session}
  }

  /** What exists is what is held, besides sessions that nobody was told of, or whose end nobody was told of. */
  ghost predicate HoldsTunnel(t: Tunnel) {
    && t.sessions <= Held(t) + t.orphans
    && Held(t) <= t.sessions + t.gone
    && t.connectors == (if t.connector.None? then {} else {t.connector.value})
  }

  /**
   * The unrevoked session and the unstopped connector are kept, whatever failed before. Only a session
   * whose creation was never answered exists without being held, and only one whose revocation was never
   * answered is held without existing.
   */
  lemma {:induction false} TunnelKeepsUnfinished(t: Tunnel, calls: seq<TunnelCall>)
    requires HoldsTunnel(t) && forall call | call in calls :: NamedSession(call)
    ensures HoldsTunnel(TunnelCalls(t, calls))
    ensures (forall call | call in calls && call.StartTunnel? :: !call.progress.SessionLost?) ==>
              TunnelCalls(t, calls).orphans == t.orphans
    ensures (forall call | call in calls :: !call.cleanup.revocation.Unanswered?) ==>
              TunnelCalls(t, calls).gone == t.gone
    decreases |calls|
  {
    if |calls| > 0 {
      assert NamedSession(calls[0]);
      var t' := match calls[0]
        case StartTunnel(allocation, progress, cleanup) => TunnelStarted(t, allocation, progress, cleanup)
        case CloseTunnel(cleanup) => TunnelClosed(t, cleanup);
      assert HoldsTunnel(t');
      TunnelKeepsUnfinished(t', calls[1..]);
    }
  }
}
