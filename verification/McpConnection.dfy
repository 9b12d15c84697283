/**
 * Recovery of an expired MCP session (mcp/connection.py; MCP specification 2025-11-25, Basic / Transports,
 * Session Management). Callers, the reconnecting caller and the transport owner interleave at their awaits.
 */
module McpConnection {
  import opened Messages

  datatype Status = Connecting | Ready | Degraded | Reconnecting | Stopping | Stopped | Failed

  /** A tool call is never repeated; a read-only operation is repeated once. */
  datatype Kind = Tool | Read

  datatype Outcome = Answered | Refused | OutcomeUnknown | Broken | Abandoned

  /** Where a caller is suspended. `observed` is the generation it read before it sent its request. */
  datatype Stage =
    | Sent(observed: nat)
    | WantLock(observed: nat)
    | Closing(observed: nat)
    | Opening(observed: nat, initialized: bool)
    | Resent(observed: nat, on: nat)
    | Over(outcome: Outcome)

  datatype Caller = Caller(kind: Kind, stage: Stage, sends: nat)

  /** A transport that a caller took down: which generation, whether it was usable, and what the caller had observed. */
  datatype Teardown = Teardown(generation: nat, usable: bool, observed: nat)

  datatype State = State(
    status: Status,
    session: bool,
    snapshot: bool,
    generation: nat,
    lock: Option<nat>,
    callers: map<nat, Caller>,
    torn: seq<Teardown>)

  predicate Usable(s: State) { s.session && s.snapshot && s.status in {Ready, Degraded} }

  /** A request may be sent: there is a session and the server is not stopped or failed. */
  predicate CanSend(s: State) { s.session && s.status in {Connecting, Reconnecting, Ready, Degraded} }

  datatype Event =
    | Call(c: nat, kind: Kind)
    | Answer(c: nat)
    | SessionNotFound(c: nat)
    | TakeLock(c: nat)
    | TransportClosed(c: nat)
    | SessionOpened(c: nat)
    | Initialized(c: nat)
    | CatalogLoaded(c: nat)
    | ConnectFailed(c: nat)
    | Abandon(c: nat)
    | TransportLost

  function SetStage(s: State, c: nat, stage: Stage): State
    requires c in s.callers
  {
    s.(callers := s.callers[c := s.callers[c].(stage := stage)])
  }

  /** The caller leaves the reconnect: a tool call reports an unknown outcome, a read is sent once more. */
  function Recovered(s: State, c: nat, observed: nat): State
    requires c in s.callers
  {
    var caller := s.callers[c];
    if caller.kind.Tool? then SetStage(s, c, Over(OutcomeUnknown))
    else if CanSend(s) then s.(callers := s.callers[c := caller.(stage := Resent(observed, s.generation), sends := caller.sends + 1)])
    else SetStage(s, c, Over(Refused))
  }

  /** Under the lock: reuse a newer usable session, or take the transport down. */
  function Reinitialize(s: State, c: nat): State
    requires c in s.callers && s.callers[c].stage.WantLock?
  {
    var observed := s.callers[c].stage.observed;
    if s.generation != observed && Usable(s) then Recovered(s, c, observed)
    else SetStage(s, c, Closing(observed)).(status := Stopping, lock := Some(c), torn := s.torn + [Teardown(s.generation, Usable(s), observed)])
  }

  function Step(s: State, e: Event): State {
    match e
    case Call(c, kind) =>
      if c in s.callers then s
      else if CanSend(s) then s.(callers := s.callers[c := Caller(kind, Sent(s.generation), 1)])
      else s.(callers := s.callers[c := Caller(kind, Over(Refused), 0)])
    case Answer(c) =>
      if c in s.callers && (s.callers[c].stage.Sent? || s.callers[c].stage.Resent?) then SetStage(s, c, Over(Answered)) else s
    case SessionNotFound(c) =>
      if c in s.callers && s.callers[c].stage.Sent? then SetStage(s, c, WantLock(s.callers[c].stage.observed))
      else if c in s.callers && s.callers[c].stage.Resent? then SetStage(s, c, Over(Broken)) else s
    case TakeLock(c) =>
      if c in s.callers && s.callers[c].stage.WantLock? && s.lock == None then Reinitialize(s, c) else s
    case TransportClosed(c) =>
      if c in s.callers && s.callers[c].stage.Closing?
      then SetStage(s, c, Opening(s.callers[c].stage.observed, false)).(status := Connecting, session := false) else s
    case SessionOpened(c) =>
      if c in s.callers && s.callers[c].stage.Opening? && !s.callers[c].stage.initialized then s.(session := true) else s
    case Initialized(c) =>
      if c in s.callers && s.callers[c].stage.Opening? && !s.callers[c].stage.initialized
      then SetStage(s, c, Opening(s.callers[c].stage.observed, true)).(generation := s.generation + 1) else s
    case CatalogLoaded(c) =>
      if c in s.callers && s.callers[c].stage.Opening? && s.callers[c].stage.initialized
      then Recovered(s.(status := Ready, snapshot := true, lock := None), c, s.callers[c].stage.observed) else s
    case ConnectFailed(c) =>
      if c in s.callers && s.callers[c].stage.Opening?
      then SetStage(s, c, Over(Broken)).(status := Failed, session := false, lock := None) else s
    case Abandon(c) =>
      if c !in s.callers || s.callers[c].stage.Over? then s
      else if s.callers[c].stage.Closing? then SetStage(s, c, Over(Abandoned)).(status := Stopped, session := false, lock := None)
      else if s.callers[c].stage.Opening? then SetStage(s, c, Over(Abandoned)).(status := Stopping, session := false, lock := None)
      else SetStage(s, c, Over(Abandoned))
    case TransportLost => s.(session := false)
  }

  function Run(s: State, events: seq<Event>): State {
    if events == [] then s else Step(Run(s, events[..|events| - 1]), events[|events| - 1])
  }

  /** A server that has just been connected for the first time. */
  const FIRST := State(Ready, true, true, 1, None, map[], [])

  // ----- The invariant -----

  predicate InReconnect(stage: Stage) { stage.Closing? || stage.Opening? }

  predicate CallerOk(s: State, c: nat)
    requires c in s.callers
  {
    var k := s.callers[c];
    && (InReconnect(k.stage) <==> s.lock == Some(c))
    && (k.kind.Tool? ==> k.sends <= 1 && !k.stage.Resent?)
    && k.sends <= 2
    && ((k.stage.Sent? || k.stage.WantLock? || InReconnect(k.stage)) ==> k.sends == 1 && k.stage.observed <= s.generation)
    && (k.stage.Opening? && k.stage.initialized ==> k.stage.observed < s.generation && TornBefore(s.torn, s.generation))
    && (k.stage.Resent? ==> k.stage.observed < k.stage.on <= s.generation)
  }

  predicate TornBefore(torn: seq<Teardown>, generation: nat) {
    forall k :: 0 <= k < |torn| ==> torn[k].generation < generation
  }

  predicate TornOk(torn: seq<Teardown>) {
    && (forall k :: 0 <= k < |torn| && torn[k].usable ==> torn[k].observed == torn[k].generation)
    && (forall j, k :: 0 <= j < k < |torn| && torn[j].usable && torn[k].usable ==> torn[j].generation < torn[k].generation)
  }

  predicate Valid(s: State) {
    && (forall c :: c in s.callers ==> CallerOk(s, c))
    && (s.lock.Some? ==> s.lock.value in s.callers && s.status in {Stopping, Connecting})
    && TornOk(s.torn)
    && (forall k :: 0 <= k < |s.torn| ==> s.torn[k].generation <= s.generation)
    && (s.status in {Ready, Degraded} ==> TornBefore(s.torn, s.generation))
  }

  /** A step that changes one caller's stage and nothing the others depend on. */
  lemma OneCaller(s: State, n: State, c: nat, k: Caller)
    requires Valid(s) && n == s.(callers := s.callers[c := k])
    requires c in s.callers ==> (InReconnect(k.stage) <==> InReconnect(s.callers[c].stage))
    requires CallerOk(n, c)
    ensures Valid(n)
  {
    forall d | d in n.callers
      ensures CallerOk(n, d)
    {
      if d != c {
        assert CallerOk(s, d);
      }
    }
  }

  lemma RecoveredOk(s: State, n: State, c: nat, observed: nat)
    requires Valid(s) && c in s.callers && s.lock == None && observed < s.generation
    requires !InReconnect(s.callers[c].stage) && s.callers[c].sends <= 1 && n == Recovered(s, c, observed)
    ensures Valid(n)
  {
    OneCaller(s, n, c, n.callers[c]);
  }

  lemma CallOk(s: State, e: Event)
    requires Valid(s) && (e.Call? || e.Answer? || e.SessionNotFound?)
    ensures Valid(Step(s, e))
  {
    var n := Step(s, e);
    if n != s {
      if e.c in s.callers {
        assert CallerOk(s, e.c);
      }
      OneCaller(s, n, e.c, n.callers[e.c]);
    }
  }

  lemma LockOk(s: State, c: nat)
    requires Valid(s)
    ensures Valid(Step(s, TakeLock(c)))
  {
    var n := Step(s, TakeLock(c));
    if n != s {
      assert CallerOk(s, c);
      if s.generation != s.callers[c].stage.observed && Usable(s) {
        RecoveredOk(s, n, c, s.callers[c].stage.observed);
      } else {
        forall d | d in n.callers
          ensures CallerOk(n, d)
        {
          assert CallerOk(s, d);
        }
      }
    }
  }

  /** The steps of the one caller that holds the lock. */
  lemma HolderOk(s: State, e: Event)
    requires Valid(s) && (e.TransportClosed? || e.SessionOpened? || e.Initialized?)
    ensures Valid(Step(s, e))
  {
    var n := Step(s, e);
    if n != s {
      assert CallerOk(s, e.c);
      forall d | d in n.callers
        ensures CallerOk(n, d)
      {
        assert CallerOk(s, d);
      }
    }
  }

  /** A caller that gives up, or fails to reconnect, leaves nothing half done. */
  lemma EndOk(s: State, e: Event)
    requires Valid(s) && (e.ConnectFailed? || e.Abandon?)
    ensures Valid(Step(s, e))
  {
    var n := Step(s, e);
    if n != s {
      assert CallerOk(s, e.c);
      forall d | d in n.callers
        ensures CallerOk(n, d)
      {
        assert CallerOk(s, d);
      }
    }
  }

  lemma LoadedOk(s: State, c: nat)
    requires Valid(s)
    ensures Valid(Step(s, CatalogLoaded(c)))
  {
    var n := Step(s, CatalogLoaded(c));
    if n != s {
      assert CallerOk(s, c);
      forall d | d in n.callers
        ensures CallerOk(n, d)
      {
        assert CallerOk(s, d);
      }
    }
  }

  lemma StepOk(s: State, e: Event)
    requires Valid(s)
    ensures Valid(Step(s, e))
    ensures s.generation <= Step(s, e).generation <= s.generation + 1
  {
    match e
    case Call(_, _) => CallOk(s, e);
    case Answer(_) => CallOk(s, e);
    case SessionNotFound(_) => CallOk(s, e);
    case TakeLock(c) => LockOk(s, c);
    case CatalogLoaded(c) => LoadedOk(s, c);
    case ConnectFailed(_) => EndOk(s, e);
    case Abandon(_) => EndOk(s, e);
    case TransportLost =>
      forall d | d in s.callers
        ensures CallerOk(Step(s, e), d)
      {
        assert CallerOk(s, d);
      }
    case _ => HolderOk(s, e);
  }

  lemma {:induction false} RunOk(events: seq<Event>)
    ensures Valid(Run(FIRST, events))
  {
    if events != [] {
      RunOk(events[..|events| - 1]);
      StepOk(Run(FIRST, events[..|events| - 1]), events[|events| - 1]);
    }
  }

  /**
   * Single-flight recovery, over every interleaving of callers, losses and cancellations: a usable
   * generation is taken down only by a caller that observed exactly that generation, and at most once; a
   * tool call sends its request at most once and a read at most twice, the second time on a newer
   * generation than the one that failed; and at most one caller is reconnecting.
   */
  lemma SingleFlight(events: seq<Event>)
    ensures var s := Run(FIRST, events);
            && (forall k :: 0 <= k < |s.torn| && s.torn[k].usable ==> s.torn[k].observed == s.torn[k].generation)
            && (forall j, k :: 0 <= j < k < |s.torn| && s.torn[j].usable && s.torn[k].usable ==> s.torn[j].generation != s.torn[k].generation)
            && (forall c :: c in s.callers ==> s.callers[c].sends <= if s.callers[c].kind.Tool? then 1 else 2)
            && (forall c :: c in s.callers && s.callers[c].stage.Resent? ==> s.callers[c].stage.observed < s.callers[c].stage.on)
            && (forall c, d :: c in s.callers && d in s.callers && InReconnect(s.callers[c].stage) && InReconnect(s.callers[d].stage) ==> c == d)
  {
    RunOk(events);
    var s := Run(FIRST, events);
    assert forall c :: c in s.callers ==> CallerOk(s, c);
  }

  /** Generations only grow. */
  lemma {:induction false} GenerationGrows(s: State, events: seq<Event>)
    requires Valid(s)
    ensures Valid(Run(s, events)) && s.generation <= Run(s, events).generation
  {
    if events != [] {
      GenerationGrows(s, events[..|events| - 1]);
      StepOk(Run(s, events[..|events| - 1]), events[|events| - 1]);
    }
  }

  /** The connection object: one method for each stretch between two awaits. */
  class MCPServerConnection {
    var status: Status
    var session: bool
    var snapshot: bool
    var generation: nat
    var reconnectLock: Option<nat>
    var callers: map<nat, Caller>
    ghost var torn: seq<Teardown>

    ghost function View(): State
      reads this
    {
      State(status, session, snapshot, generation, reconnectLock, callers, torn)
    }

    constructor ()
      ensures View() == FIRST
    {
      status, session, snapshot, generation := Ready, true, true, 1;
      reconnectLock, callers, torn := None, map[], [];
    }

    predicate IsUsable()
      reads this
      ensures IsUsable() <==> Usable(View())
    {
      session && snapshot && status in {Ready, Degraded}
    }

    predicate CanRequire()
      reads this
      ensures CanRequire() <==> CanSend(View())
    {
      session && status in {Connecting, Reconnecting, Ready, Degraded}
    }

    /** Reads the generation and sends in one stretch; false when there is no session to send on. */
    method Begin(c: nat, kind: Kind) returns (sent: bool)
      requires c !in callers
      modifies this`callers
      ensures View() == Step(old(View()), Call(c, kind)) && sent == CanSend(old(View()))
    {
      sent := CanRequire();
      var observed := generation;
      callers := callers[c := if sent then Caller(kind, Sent(observed), 1) else Caller(kind, Over(Refused), 0)];
    }

    /** A session-not-found answer sends a first attempt to the reconnect lock; a repeated one fails. */
    method SessionExpired(c: nat)
      requires c in callers && (callers[c].stage.Sent? || callers[c].stage.Resent?)
      modifies this`callers
      ensures View() == Step(old(View()), SessionNotFound(c))
    {
      var k := callers[c];
      callers := callers[c := k.(stage := if k.stage.Sent? then WantLock(k.stage.observed) else Over(Broken))];
    }

    /** What follows a recovered session. */
    method AfterRecovery(c: nat, observed: nat)
      requires c in callers
      modifies this`callers
      ensures View() == Recovered(old(View()), c, observed)
    {
      var k := callers[c];
      if k.kind.Tool? {
        callers := callers[c := k.(stage := Over(OutcomeUnknown))];
        return;
      }
      var ready := CanRequire();
      if ready {
        callers := callers[c := k.(stage := Resent(observed, generation), sends := k.sends + 1)];
      } else {
        callers := callers[c := k.(stage := Over(Refused))];
      }
    }

    /** With the lock: reuse a newer usable session, otherwise start taking this one down. */
    method EnterReinitialize(c: nat)
      requires c in callers && callers[c].stage.WantLock? && reconnectLock == None
      modifies this
      ensures View() == Step(old(View()), TakeLock(c))
    {
      var observed := callers[c].stage.observed;
      var usable := IsUsable();
      if generation != observed && usable {
        AfterRecovery(c, observed);
        return;
      }
      torn := torn + [Teardown(generation, usable, observed)];
      status, reconnectLock := Stopping, Some(c);
      callers := callers[c := callers[c].(stage := Closing(observed))];
    }

    method FinishClose(c: nat)
      requires c in callers && callers[c].stage.Closing?
      modifies this
      ensures View() == Step(old(View()), TransportClosed(c))
    {
      status, session := Connecting, false;
      callers := callers[c := callers[c].(stage := Opening(callers[c].stage.observed, false))];
    }

    /** The transport owner's bump after the initialize handshake, whatever has become of the session meanwhile. */
    method FinishInitialize(c: nat)
      requires c in callers && callers[c].stage.Opening? && !callers[c].stage.initialized
      modifies this
      ensures View() == Step(old(View()), Initialized(c))
    {
      generation := generation + 1;
      callers := callers[c := callers[c].(stage := Opening(callers[c].stage.observed, true))];
    }

    method FinishConnect(c: nat)
      requires c in callers && callers[c].stage.Opening? && callers[c].stage.initialized
      modifies this
      ensures View() == Step(old(View()), CatalogLoaded(c))
    {
      status, snapshot, reconnectLock := Ready, true, None;
      AfterRecovery(c, callers[c].stage.observed);
    }

    method FailConnect(c: nat)
      requires c in callers && callers[c].stage.Opening?
      modifies this
      ensures View() == Step(old(View()), ConnectFailed(c))
    {
      status, session, reconnectLock := Failed, false, None;
      callers := callers[c := callers[c].(stage := Over(Broken))];
    }
  }
}
