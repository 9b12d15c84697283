/** Write-ahead: what leaves the process has been announced by the checkpoint before it, and every row says what it is for. */
module TurnAnnouncements {
  import opened Messages
  import opened RunStates
  import opened Recovery
  import opened TurnMachine

  predicate NewestIs(m: Machine, point: ResumePoint, actions: seq<ActionId>) {
    m.log != [] && Latest(m.log).point == point && Latest(m.log).actions == actions
  }

  function ActionOf(m: Machine, call: ToolCall): ActionId { ActionId(m.core.st.runId, m.core.st.turnId, call.id) }

  /** What the newest row says while the loop stands at a point from which something is about to leave. */
  predicate Announced(m: Machine) {
    match m.core.pc
    case CallProvider => NewestIs(m, ModelInFlight, [])
    case Prepare(call, _) => NewestIs(m, BeforeTool, [ActionOf(m, call)])
    case Execute(call, _) => NewestIs(m, ToolInFlight, [ActionOf(m, call)])
    case AwaitApproval(_, _) => NewestIs(m, WaitingApproval, [])
    case Decided(call, _, d) => NewestIs(m, WaitingApproval, []) && OnRecord(m, call, d)
    case Approved(call, _, d) => OnRecord(m, call, d) && (NewestIs(m, ToolInFlight, [ActionOf(m, call)]) || NewestIs(m, BeforeTool, []))
    case _ => true
  }

  predicate OnRecord(m: Machine, call: ToolCall, d: Decision) {
    var key := ApprovalKey(call.id, call.arguments);
    key in m.core.approvals && m.core.approvals[key] == d
  }

  lemma StepAnnounced(cfg: Config, m: Machine, i: Input)
    requires Announced(m)
    ensures Announced(Step(cfg, m, i))
  {
    match m.core.pc
    case Dispatch => ResponseAnnounced(m, i);
    case LoopTop => PassAnnounced(cfg, m, i);
    case Execute(_, _) => ToolAnnounced(cfg, m, i);
    case AwaitApproval(_, _) => ToolAnnounced(cfg, m, i);
    case Approved(_, _, _) => ToolAnnounced(cfg, m, i);
    case NextCall(_) => CallAnnounced(cfg, m, i);
    case Prepare(_, _) => CallAnnounced(cfg, m, i);
    case Decided(_, _, _) => CallAnnounced(cfg, m, i);
    case Settle(_, _, _) => AfterAnnounced(cfg, m, i);
    case Settled(_, _, _, _) => AfterAnnounced(cfg, m, i);
    case _ => ModelAnnounced(cfg, m, i);
  }

  lemma CallAnnounced(cfg: Config, m: Machine, i: Input)
    requires Announced(m) && (m.core.pc.NextCall? || m.core.pc.Prepare? || m.core.pc.Decided?)
    ensures Announced(Step(cfg, m, i))
  {
  }

  lemma AfterAnnounced(cfg: Config, m: Machine, i: Input)
    requires m.core.pc.Settle? || m.core.pc.Settled?
    ensures Announced(Step(cfg, m, i))
  {
    var pc := Next(cfg, m.core, i).core.pc;
    assert pc.Settled? || pc.Stopped? || pc.NextCall? || pc.Finishing?;
  }

  lemma ModelAnnounced(cfg: Config, m: Machine, i: Input)
    requires m.core.pc in {Entry, Build, CallProvider, AwaitProvider, Finishing} || m.core.pc.Raising? || m.core.pc.Stopped?
    ensures Announced(Step(cfg, m, i))
  {
  }

  lemma ResponseAnnounced(m: Machine, i: Input)
    ensures NextResponse(m.core, i).core.pc.Raising? || NextResponse(m.core, i).core.pc.NextCall?
            || NextResponse(m.core, i).core.pc.LoopTop? || NextResponse(m.core, i).core.pc.Finishing?
  {
  }

  lemma PassAnnounced(cfg: Config, m: Machine, i: Input)
    ensures NextPass(cfg, m.core, i).core.pc.Raising? || NextPass(cfg, m.core, i).core.pc.Dispatch? || NextPass(cfg, m.core, i).core.pc.Build?
  {
  }

  lemma ToolAnnounced(cfg: Config, m: Machine, i: Input)
    requires Announced(m) && (m.core.pc.Execute? || m.core.pc.AwaitApproval? || m.core.pc.Approved?)
    ensures Announced(Step(cfg, m, i))
  {
  }

  lemma {:induction false} RunAnnounced(cfg: Config, m: Machine, events: seq<Event>)
    requires Fresh(m)
    ensures Announced(Run(cfg, m, events))
  {
    if events != [] {
      var n := |events| - 1;
      var p := Run(cfg, m, events[..n]);
      RunAnnounced(cfg, m, events[..n]);
      match events[n]
      case Tick(i) => StepAnnounced(cfg, p, i);
      case Restart => assert Crash(p).core.pc.Entry? || Crash(p).core.pc.Stopped?;
    }
  }

  lemma ElsewhereQuiet(cfg: Config, c: Core, i: Input)
    requires !c.pc.CallProvider? && !c.pc.Execute? && !c.pc.Approved?
    ensures !Next(cfg, c, i).effect.ProviderCalled? && !Next(cfg, c, i).effect.ToolStarted?
  {
  }

  lemma ToolEffect(cfg: Config, c: Core, i: Input)
    requires c.pc.Execute? || c.pc.Approved?
    ensures var e := Next(cfg, c, i).effect;
            e == NoEffect || (e == ToolStarted(c.pc.call.id) && (c.pc.Approved? ==> c.pc.decision == Allowed))
  {
  }

  /** What one step sends out. */
  lemma Leaves(cfg: Config, p: Machine, i: Input)
    ensures var n := Step(cfg, p, i);
            && (n.providerCalls != p.providerCalls ==> p.core.pc == CallProvider && n.providerCalls == p.providerCalls + 1)
            && (n.starts != p.starts ==>
                  && (p.core.pc.Execute? || (p.core.pc.Approved? && p.core.pc.decision == Allowed))
                  && n.starts == p.starts + multiset{p.core.pc.call.id})
  {
    if p.core.pc.Execute? || p.core.pc.Approved? {
      ToolEffect(cfg, p.core, i);
    } else if p.core.pc != CallProvider {
      ElsewhereQuiet(cfg, p.core, i);
    }
  }

  /** The call starts behind a row that names it, or behind its approval. */
  predicate StartsAs(p: Machine, n: Machine, call: ToolCall) {
    && n.starts == p.starts + multiset{call.id}
    && (|| NewestIs(p, ToolInFlight, [ActionId(p.core.st.runId, p.core.st.turnId, call.id)])
        || (NewestIs(p, BeforeTool, []) && OnRecord(p, call, Allowed)))
  }

  /**
   * Every effect is announced, over any run with crashes: the provider is asked only when the newest checkpoint is
   * MODEL_IN_FLIGHT. A tool starts only when the newest checkpoint is TOOL_IN_FLIGHT and names this very call, or when it is
   * the BEFORE_TOOL that follows a durable decision allowing the call.
   */
  lemma EffectsAreAnnounced(cfg: Config, m: Machine, events: seq<Event>, i: Input)
    requires Fresh(m)
    ensures var p, n := Run(cfg, m, events), Run(cfg, m, events + [Tick(i)]);
            && (n.providerCalls != p.providerCalls ==> n.providerCalls == p.providerCalls + 1 && NewestIs(p, ModelInFlight, []))
            && (n.starts != p.starts ==>
                  exists call: ToolCall :: StartsAs(p, n, call))
  {
    var p := Run(cfg, m, events);
    RunAnnounced(cfg, m, events);
    RunThen(cfg, m, events, Tick(i));
    Leaves(cfg, p, i);
    if Step(cfg, p, i).starts != p.starts {
      var call := p.core.pc.call;
      assert StartsAs(p, Step(cfg, p, i), call);
    }
  }

  // ----- What every row says -----

  /** A row is running until the terminal one, and names a call exactly at the two boundaries that belong to one. */
  predicate Labelled(k: Checkpoint) {
    && (k.status == DurableRunning <==> k.point != Terminal)
    && (k.point == ToolInFlight ==> |k.actions| == 1)
    && (k.actions != [] ==> k.point in {BeforeTool, ToolInFlight} && |k.actions| == 1 && NamesState(k.actions[0], k.state))
  }

  predicate NamesState(a: ActionId, s: RunState) { a.runId == s.runId && a.turnId == s.turnId }

  lemma StepLabelled(cfg: Config, m: Machine, i: Input)
    ensures var log := Step(cfg, m, i).log;
            log == m.log || (|log| == |m.log| + 1 && log[..|m.log|] == m.log && Labelled(Latest(log)))
  {
    var o := Next(cfg, m.core, i);
    match m.core.pc
    case NextCall(_) => assert o.commit.Some? ==> o.commit.value.point == BeforeTool && o.core.st.runId == m.core.st.runId && o.core.st.turnId == m.core.st.turnId;
    case Prepare(_, _) => assert o.commit.value.point == ToolInFlight && o.core.st == m.core.st;
    case Entry => assert o.commit.Some? ==> o.commit.value.point == Terminal && o.commit.value.status != DurableRunning && o.commit.value.actions == [];
    case Finishing => assert o.commit.value.point == Terminal && o.commit.value.actions == [];
    case Raising(_) => assert o.commit.value.point == Terminal && o.commit.value.status != DurableRunning && o.commit.value.actions == [];
    case _ => PlainCommit(cfg, m.core, i);
  }

  lemma PlainCommit(cfg: Config, c: Core, i: Input)
    requires !c.pc.NextCall? && !c.pc.Prepare? && !c.pc.Entry? && !c.pc.Finishing? && !c.pc.Raising?
    ensures var k := Next(cfg, c, i).commit;
            k.Some? ==> k.value.point != Terminal && k.value.point != ToolInFlight && k.value.status == DurableRunning && k.value.actions == []
  {
  }

  /** Over any run with crashes, every durable row is labelled so. */
  lemma {:induction false} RowsSayWhatTheyAreFor(cfg: Config, m: Machine, events: seq<Event>)
    requires Fresh(m)
    ensures forall k :: 0 <= k < |Run(cfg, m, events).log| ==> Labelled(Run(cfg, m, events).log[k])
  {
    if events != [] {
      var n := |events| - 1;
      var p := Run(cfg, m, events[..n]);
      RowsSayWhatTheyAreFor(cfg, m, events[..n]);
      if events[n].Tick? {
        StepLabelled(cfg, p, events[n].input);
      }
    }
  }

  // ----- What the counters count -----

  /** How many rows of the log stand for this boundary. */
  function RowsAt(log: seq<Checkpoint>, point: ResumePoint): nat {
    if log == [] then 0 else RowsAt(log[..|log| - 1], point) + if log[|log| - 1].point == point then 1 else 0
  }

  predicate Counts(log: seq<Checkpoint>, s: RunState) {
    s.iteration == RowsAt(log, BeforeModel) && s.modelCallCount == RowsAt(log, ModelInFlight) && s.toolCallCount == RowsAt(log, AfterTool)
  }

  predicate Counted(m: Machine) { Counts(m.log, m.core.st) && (m.log != [] ==> Counts(m.log, Latest(m.log).state)) }

  /** By how much a step raises each counter: by the row it commits. */
  lemma StepCounts(cfg: Config, c: Core, i: Input)
    ensures var o := Next(cfg, c, i);
            && o.core.st.iteration == c.st.iteration + (if o.commit.Some? && o.commit.value.point == BeforeModel then 1 else 0)
            && o.core.st.modelCallCount == c.st.modelCallCount + (if o.commit.Some? && o.commit.value.point == ModelInFlight then 1 else 0)
            && o.core.st.toolCallCount == c.st.toolCallCount + (if o.commit.Some? && o.commit.value.point == AfterTool then 1 else 0)
  {
    match c.pc
    case LoopTop => PassCounts(cfg, c, i);
    case Dispatch => ResponseCounts(c, i);
    case Build => assert Next(cfg, c, i) == NextRequest(cfg, c, i);
    case Settle(call, rest, started) => assert Next(cfg, c, i) == NextResult(c, call, rest, started, i);
    case _ => OtherCounts(cfg, c, i);
  }

  lemma OtherCounts(cfg: Config, c: Core, i: Input)
    requires !c.pc.LoopTop? && !c.pc.Dispatch? && !c.pc.Build? && !c.pc.Settle?
    ensures var o := Next(cfg, c, i);
            && o.core.st.iteration == c.st.iteration && o.core.st.modelCallCount == c.st.modelCallCount
            && o.core.st.toolCallCount == c.st.toolCallCount
            && (o.commit.Some? ==> o.commit.value.point !in {BeforeModel, ModelInFlight, AfterTool})
  {
  }

  lemma PassCounts(cfg: Config, c: Core, i: Input)
    ensures var o := NextPass(cfg, c, i);
            && o.core.st.iteration == c.st.iteration + (if o.commit.Some? then 1 else 0)
            && o.core.st.modelCallCount == c.st.modelCallCount && o.core.st.toolCallCount == c.st.toolCallCount
            && (o.commit.Some? ==> o.commit.value.point == BeforeModel)
  {
  }

  lemma ResponseCounts(c: Core, i: Input)
    ensures var o := NextResponse(c, i);
            && o.core.st.iteration == c.st.iteration && o.core.st.modelCallCount == c.st.modelCallCount
            && o.core.st.toolCallCount == c.st.toolCallCount && (o.commit.Some? ==> o.commit.value.point == BeforeFinalize)
  {
  }

  lemma StepCounted(cfg: Config, m: Machine, i: Input)
    requires Counted(m)
    ensures Counted(Step(cfg, m, i))
  {
    StepCounts(cfg, m.core, i);
    var o, n := Next(cfg, m.core, i), Step(cfg, m, i);
    if o.commit.Some? {
      assert n.log[..|n.log| - 1] == m.log && Latest(n.log).state == n.core.st && Latest(n.log).point == o.commit.value.point;
    } else {
      assert n.log == m.log;
    }
  }

  lemma RestoredCounters(s: RunState)
    requires Restore(Serialize(s)).Some?
    ensures var r := Restore(Serialize(s)).value;
            r.iteration == s.iteration && r.modelCallCount == s.modelCallCount && r.toolCallCount == s.toolCallCount
  {
    RestoredKeeps(s);
    assert Restore(Serialize(s)).value.(messages := []).iteration == s.(messages := []).iteration;
  }

  lemma CrashState(m: Machine)
    ensures Crash(m).log == m.log
    ensures Crash(m).core.st == m.core.st || (m.log != [] && Restore(Serialize(Latest(m.log).state)) == Some(Crash(m).core.st))
  {
  }

  lemma CrashCounted(m: Machine)
    requires Counted(m)
    ensures Counted(Crash(m))
  {
    CrashState(m);
    if Crash(m).core.st != m.core.st {
      RestoredCounters(Latest(m.log).state);
    }
  }

  /**
   * The three counters of a turn are exact in every reachable state, crashes included: an iteration for every BEFORE_MODEL
   * row, a model call for every MODEL_IN_FLIGHT row, a tool call for every AFTER_TOOL row, no more and no fewer.
   */
  lemma {:induction false} CountersAreRows(cfg: Config, m: Machine, events: seq<Event>)
    requires Fresh(m)
    ensures var n := Run(cfg, m, events);
            && n.core.st.iteration == RowsAt(n.log, BeforeModel)
            && n.core.st.modelCallCount == RowsAt(n.log, ModelInFlight)
            && n.core.st.toolCallCount == RowsAt(n.log, AfterTool)
            && Counted(n)
  {
    if events != [] {
      var n := |events| - 1;
      var p := Run(cfg, m, events[..n]);
      CountersAreRows(cfg, m, events[..n]);
      match events[n]
      case Tick(i) => StepCounted(cfg, p, i);
      case Restart => CrashCounted(p);
    }
  }
}
