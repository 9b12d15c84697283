/**
 * What becomes of a request whose session has expired: from any reachable state a reconnect that meets no fault
 * serves its caller and every other one that waits, and an outcome says how often the request left the client.
 */
module McpRecovery {
  import opened McpConnection
  import opened Messages

  lemma LastOf(before: seq<Event>, after: seq<Event>)
    requires after != []
    ensures var all, n := before + after, |after| - 1;
            all != [] && all[..|all| - 1] == before + after[..n] && all[|all| - 1] == after[n]
  {
  }

  lemma {:induction false} RunAppend(s: State, before: seq<Event>, after: seq<Event>)
    ensures Run(s, before + after) == Run(Run(s, before), after)
  {
    if after == [] {
      assert before + after == before;
    } else {
      LastOf(before, after);
      RunAppend(s, before, after[..|after| - 1]);
    }
  }

  lemma RunThen(s: State, events: seq<Event>, e: Event)
    ensures Run(s, events + [e]) == Step(Run(s, events), e)
  {
    assert (events + [e])[..|events|] == events;
  }

  // ----- Outcomes -----

  /** How often the request of a finished caller left the client. */
  predicate Honest(k: Caller) {
    && (k.stage == Over(OutcomeUnknown) ==> k.kind == Tool && k.sends == 1)
    && (k.stage == Over(Answered) ==> k.sends == 1 || (k.kind == Read && k.sends == 2))
    && (k.stage == Over(Refused) ==> k.sends == 0 || (k.kind == Read && k.sends == 1))
    && (k.stage == Over(Broken) ==> k.sends == 1 || (k.kind == Read && k.sends == 2))
    && (k.stage.Resent? ==> k.kind == Read && k.sends == 2)
    && (k.stage.Sent? || k.stage.WantLock? || InReconnect(k.stage) ==> k.sends == 1)
  }

  lemma HonestStep(s: State, e: Event, c: nat)
    requires c in Step(s, e).callers && (c in s.callers ==> Honest(s.callers[c]))
    ensures Honest(Step(s, e).callers[c])
  {
    match e
    case Call(_, _) => assert c in s.callers ==> Step(s, e).callers[c] == s.callers[c];
    case TakeLock(_) => LockHonest(s, e, c);
    case CatalogLoaded(_) => LockHonest(s, e, c);
    case TransportLost => assert Step(s, e).callers == s.callers;
    case _ =>
  }

  lemma LockHonest(s: State, e: Event, c: nat)
    requires e.TakeLock? || e.CatalogLoaded?
    requires c in Step(s, e).callers && (c in s.callers ==> Honest(s.callers[c]))
    ensures Honest(Step(s, e).callers[c])
  {
  }

  /**
   * Outcomes are honest, over every interleaving: an answered call was sent once, or was a read sent twice; an
   * unknown outcome is a tool call that was sent exactly once; a refused one never left, or was a read whose only
   * attempt had met an expired session; and whoever waits for a new session has sent exactly once.
   */
  lemma {:induction false} OutcomesAreHonest(events: seq<Event>)
    ensures forall c :: c in Run(FIRST, events).callers ==> Honest(Run(FIRST, events).callers[c])
  {
    if events != [] {
      var n := |events| - 1;
      OutcomesAreHonest(events[..n]);
      forall c | c in Run(FIRST, events).callers
        ensures Honest(Run(FIRST, events).callers[c])
      {
        HonestStep(Run(FIRST, events[..n]), events[n], c);
      }
    }
  }

  // ----- A reconnect without faults -----

  function Reconnect(c: nat): seq<Event> {
    [TakeLock(c), TransportClosed(c), SessionOpened(c), Initialized(c), CatalogLoaded(c)]
  }

  /** What a caller that had waited for the new session has become of. */
  predicate Served(k: Caller, generation: nat) {
    match k.kind
    case Tool => k.stage == Over(OutcomeUnknown) && k.sends == 1
    case Read => k.stage.Resent? && k.stage.on == generation && k.sends == 2
  }

  /** The session is gone, or it is the one that the caller saw expire. */
  predicate Expired(s: State, c: nat)
    requires c in s.callers && s.callers[c].stage.WantLock?
  {
    s.generation == s.callers[c].stage.observed || !s.session || !s.snapshot || s.status !in {Ready, Degraded}
  }

  lemma FiveSteps(s: State, c: nat)
    ensures Run(s, Reconnect(c))
            == Step(Step(Step(Step(Step(s, TakeLock(c)), TransportClosed(c)), SessionOpened(c)), Initialized(c)), CatalogLoaded(c))
  {
    var es := Reconnect(c);
    assert es[..4][..3] == es[..3] && es[..3][..2] == es[..2] && es[..2][..1] == es[..1] && es[..1][..0] == [];
    assert Run(s, es[..1]) == Step(s, TakeLock(c));
    assert Run(s, es[..2]) == Step(Run(s, es[..1]), TransportClosed(c));
    assert Run(s, es[..3]) == Step(Run(s, es[..2]), SessionOpened(c));
    assert Run(s, es[..4]) == Step(Run(s, es[..3]), Initialized(c));
  }

  /** The caller holds the lock and stands here; nobody else has moved. */
  predicate Holds(s: State, t: State, c: nat, stage: Stage) {
    && c in s.callers && t.lock == Some(c) && t.callers == s.callers[c := s.callers[c].(stage := stage)]
  }

  lemma TakesDown(s: State, c: nat)
    requires c in s.callers && s.callers[c].stage.WantLock? && s.lock == None && Expired(s, c)
    ensures var t := Step(Step(s, TakeLock(c)), TransportClosed(c));
            Holds(s, t, c, Opening(s.callers[c].stage.observed, false)) && t.generation == s.generation
  {
    var o := s.callers[c].stage.observed;
    var t := Step(s, TakeLock(c));
    assert t.callers[c].stage == Closing(o);
    assert t.callers[c := t.callers[c].(stage := Opening(o, false))] == s.callers[c := s.callers[c].(stage := Opening(o, false))];
  }

  lemma Opens(s: State, t: State, c: nat, observed: nat)
    requires Holds(s, t, c, Opening(observed, false))
    ensures var u := Step(Step(t, SessionOpened(c)), Initialized(c));
            Holds(s, u, c, Opening(observed, true)) && u.session && u.generation == t.generation + 1
  {
    var u := Step(t, SessionOpened(c));
    assert u.callers[c := u.callers[c].(stage := Opening(observed, true))] == s.callers[c := s.callers[c].(stage := Opening(observed, true))];
  }

  lemma Loads(s: State, t: State, c: nat, observed: nat)
    requires Holds(s, t, c, Opening(observed, true)) && t.session && s.callers[c].sends == 1
    ensures var u := Step(t, CatalogLoaded(c));
            && u.status == Ready && u.session && u.snapshot && u.generation == t.generation && u.lock == None
            && u.callers.Keys == s.callers.Keys && Served(u.callers[c], t.generation) && u.callers[c].kind == s.callers[c].kind
            && (forall d :: d in s.callers && d != c ==> u.callers[d] == s.callers[d])
  {
  }

  lemma ReconnectFrom(s: State, c: nat)
    requires c in s.callers && s.callers[c].stage.WantLock? && s.lock == None && Expired(s, c) && s.callers[c].sends == 1
    ensures var t := Run(s, Reconnect(c));
            && t.status == Ready && t.session && t.snapshot && t.generation == s.generation + 1 && t.lock == None
            && t.callers.Keys == s.callers.Keys && Served(t.callers[c], s.generation + 1) && t.callers[c].kind == s.callers[c].kind
            && (forall d :: d in s.callers && d != c ==> t.callers[d] == s.callers[d])
  {
    FiveSteps(s, c);
    var o := s.callers[c].stage.observed;
    TakesDown(s, c);
    var down := Step(Step(s, TakeLock(c)), TransportClosed(c));
    Opens(s, down, c, o);
    Loads(s, Step(Step(down, SessionOpened(c)), Initialized(c)), c, o);
  }

  /**
   * Whoever waits for the lock first, in any reachable state whose session has expired, gets a new session when
   * nothing fails: the server is ready one generation later, with the lock free again; a read has been sent once
   * more, on that generation, and a tool call has not, and reports an unknown outcome. Nobody else is touched.
   */
  lemma ReconnectServes(events: seq<Event>, c: nat)
    requires var s := Run(FIRST, events); c in s.callers && s.callers[c].stage.WantLock? && s.lock == None && Expired(s, c)
    ensures var s, t := Run(FIRST, events), Run(FIRST, events + Reconnect(c));
            && t.status == Ready && t.session && t.snapshot && t.generation == s.generation + 1 && t.lock == None
            && t.callers.Keys == s.callers.Keys && Served(t.callers[c], s.generation + 1) && t.callers[c].kind == s.callers[c].kind
            && (forall d :: d in s.callers && d != c ==> t.callers[d] == s.callers[d])
  {
    OutcomesAreHonest(events);
    assert Honest(Run(FIRST, events).callers[c]);
    RunAppend(FIRST, events, Reconnect(c));
    ReconnectFrom(Run(FIRST, events), c);
  }

  /**
   * Everybody else who had met the expired session is then served by the same one: taking the lock, they find it
   * newer than the one they saw, take nothing down, and a read is sent once more.
   */
  lemma WaitersAreServed(events: seq<Event>, c: nat, d: nat)
    requires var s := Run(FIRST, events); c in s.callers && s.callers[c].stage.WantLock? && s.lock == None && Expired(s, c)
    requires d != c && d in Run(FIRST, events).callers && Run(FIRST, events).callers[d].stage.WantLock?
    ensures var s, t := Run(FIRST, events + Reconnect(c)), Run(FIRST, events + Reconnect(c) + [TakeLock(d)]);
            && t.generation == s.generation && t.torn == s.torn && t.status == Ready && t.session && t.lock == None
            && t.callers.Keys == s.callers.Keys && d in t.callers && Served(t.callers[d], s.generation)
  {
    ReconnectServes(events, c);
    OutcomesAreHonest(events);
    RunOk(events);
    assert CallerOk(Run(FIRST, events), d) && Honest(Run(FIRST, events).callers[d]);
    RunThen(FIRST, events + Reconnect(c), TakeLock(d));
  }

  /** A request in a state with a session leaves at once. */
  lemma CallLeaves(s: State, c: nat, kind: Kind)
    requires c !in s.callers && s.session && s.status in {Connecting, Reconnecting, Ready, Degraded}
    ensures Step(s, Call(c, kind)) == s.(callers := s.callers[c := Caller(kind, Sent(s.generation), 1)])
  {
  }

  lemma ExpiredCall(events: seq<Event>, c: nat, kind: Kind) returns (all: seq<Event>)
    requires var s := Run(FIRST, events); c !in s.callers && s.session && s.status in {Ready, Degraded}
    ensures all == events + [Call(c, kind)] + [SessionNotFound(c)]
    ensures var s, t := Run(FIRST, events), Run(FIRST, all);
            && t == s.(callers := s.callers[c := Caller(kind, WantLock(s.generation), 1)]) && t.lock == None
  {
    var s := Run(FIRST, events);
    RunOk(events);
    CallLeaves(s, c, kind);
    RunThen(FIRST, events, Call(c, kind));
    all := events + [Call(c, kind)] + [SessionNotFound(c)];
    RunThen(FIRST, events + [Call(c, kind)], SessionNotFound(c));
    var called := s.callers[c := Caller(kind, Sent(s.generation), 1)];
    assert called[c := Caller(kind, WantLock(s.generation), 1)] == s.callers[c := Caller(kind, WantLock(s.generation), 1)];
  }

  /**
   * The whole story of one request, from any reachable state with a session: it meets an expired session and
   * reconnects. A read is then answered, having been sent twice; a tool call is over, with an unknown outcome,
   * having been sent once.
   */
  lemma ExpiredRequestIsServed(events: seq<Event>, c: nat, kind: Kind) returns (all: seq<Event>)
    requires var s := Run(FIRST, events); c !in s.callers && s.session && s.status in {Ready, Degraded}
    ensures events <= all
    ensures var s, t := Run(FIRST, events), Run(FIRST, all);
            && t.status == Ready && t.session && t.generation == s.generation + 1 && c in t.callers
            && t.callers[c] == if kind == Read then Caller(Read, Over(Answered), 2) else Caller(Tool, Over(OutcomeUnknown), 1)
  {
    var met := ExpiredCall(events, c, kind);
    ReconnectServes(met, c);
    var back := met + Reconnect(c);
    if kind == Read {
      all := back + [Answer(c)];
      RunThen(FIRST, back, Answer(c));
    } else {
      all := back;
    }
  }
}
