/** Where the guarantees of a turn end: concrete runs that need each of their conditions. */
module TurnGuards {
  import opened Messages
  import opened RunStates
  import opened Recovery
  import opened TurnMachine
  import opened TurnSafety
  import opened TurnApprovals

  function Ticks(i: Input, n: nat): seq<Event> { seq(n, _ => Tick(i)) }

  function Repeat(cfg: Config, m: Machine, i: Input, n: nat): Machine {
    if n == 0 then m else Step(cfg, Repeat(cfg, m, i, n - 1), i)
  }

  lemma {:induction false} RunTicks(cfg: Config, m: Machine, i: Input, n: nat)
    ensures Run(cfg, m, Ticks(i, n)) == Repeat(cfg, m, i, n)
  {
    if n > 0 {
      RunTicks(cfg, m, i, n - 1);
      assert Ticks(i, n)[..n - 1] == Ticks(i, n - 1);
    }
  }

  /** An input under which nothing goes wrong. */
  predicate Calm(i: Input) {
    && !i.taskCancelled && !i.cancelRequested && !i.overWallTime && i.mail == [] && i.contextError == None
    && i.provider.Answered? && i.guard == None
  }

  const FIRST := RunState("r", "t", 1, "", Created, [], 0, 0, 0, None, None, false)

  function FirstMachine(): Machine { Machine(Core(Entry, FIRST, None, map[]), [], 0, multiset{}, multiset{}) }

  function Answered(i: Input): RunState
    requires i.provider.Answered?
  {
    FIRST.(status := Running, iteration := 1, modelCallCount := 1, messages := [AssistantMessage(i.provider, i.newId)])
  }

  lemma NoMail(st: RunState, i: Input)
    requires i.mail == []
    ensures Drain(st, i) == st
  {
    assert st.messages + MailMessages(i.mail, i.newId) == st.messages;
  }

  lemma FirstPass(cfg: Config, i: Input)
    requires Calm(i) && cfg.limits.maxIterations >= 1 && cfg.limits.maxModelCalls >= 1
    ensures var n := Repeat(cfg, FirstMachine(), i, 3);
            && n.core == Core(CallProvider, FIRST.(status := Running, iteration := 1, modelCallCount := 1), None, map[])
            && n.starts == multiset{} && n.boundaries == multiset{}
            && n.log != [] && Latest(n.log).point == ModelInFlight && Latest(n.log).state == n.core.st
  {
    var m := FirstMachine();
    var m1 := Step(cfg, m, i);
    assert Repeat(cfg, m, i, 1) == m1;
    assert m1.core == Core(LoopTop, FIRST.(status := Running), None, map[]);
    NoMail(FIRST.(status := Running, iteration := 1), i);
    var m2 := Step(cfg, m1, i);
    assert Repeat(cfg, m, i, 2) == m2;
    assert m2.core == Core(Build, FIRST.(status := Running, iteration := 1), None, map[]);
    assert Repeat(cfg, m, i, 3) == Step(cfg, m2, i);
  }

  lemma FirstResponse(cfg: Config, i: Input)
    requires Calm(i) && cfg.limits.maxIterations >= 1 && cfg.limits.maxModelCalls >= 1
    ensures var n := Repeat(cfg, FirstMachine(), i, 5);
            && n.core == Core(Dispatch, Answered(i), None, map[])
            && n.starts == multiset{} && n.boundaries == multiset{}
  {
    FirstPass(cfg, i);
    var m3 := Repeat(cfg, FirstMachine(), i, 3);
    var m4 := Step(cfg, m3, i);
    assert Repeat(cfg, FirstMachine(), i, 4) == m4;
    assert m4.core == m3.core.(pc := AwaitProvider);
  }

  lemma {:induction false} AllPending(calls: seq<ToolCall>)
    ensures Pending(calls, {}) == calls
  {
    if calls != [] {
      AllPending(calls[1..]);
    }
  }

  lemma FirstCalls(cfg: Config, i: Input)
    requires Calm(i) && cfg.limits.maxIterations >= 1 && cfg.limits.maxModelCalls >= 1 && i.provider.calls != []
    ensures var n := Repeat(cfg, FirstMachine(), i, 6);
            && n.core == Core(NextCall(i.provider.calls), Answered(i), None, map[])
            && n.starts == multiset{} && n.boundaries == multiset{}
  {
    FirstResponse(cfg, i);
    var m := Repeat(cfg, FirstMachine(), i, 5);
    var reply := AssistantMessage(i.provider, i.newId);
    assert m.core.st.messages == [] + [reply];
    CompletedAppend([], reply);
    assert Done(m.core.st) == {};
    LastAssistantAppend([], reply);
    AllPending(i.provider.calls);
    assert NextResponse(m.core, i) == Quiet(m.core.(pc := NextCall(i.provider.calls)));
    assert Repeat(cfg, FirstMachine(), i, 6) == Step(cfg, m, i);
  }

  /** The next pending call reaches its executor with a TOOL_IN_FLIGHT checkpoint. */
  lemma ReachExecutor(cfg: Config, m: Machine, i: Input)
    requires Calm(i) && m.core.pc.NextCall? && m.core.pc.pending != []
    requires !m.core.st.cancellationRequested && m.core.st.toolCallCount < cfg.limits.maxToolCalls
    ensures var n := Repeat(cfg, m, i, 2);
            && n.core == m.core.(pc := Execute(m.core.pc.pending[0], m.core.pc.pending[1..]))
            && n.starts == m.starts && n.boundaries == m.boundaries
  {
    var m1 := Step(cfg, m, i);
    assert Repeat(cfg, m, i, 0) == m;
    assert Repeat(cfg, m, i, 1) == m1;
    assert m1.core == m.core.(pc := Prepare(m.core.pc.pending[0], m.core.pc.pending[1..]));
  }

  /** An allowed call runs, and the loop turns to the rest. */
  lemma RunTool(cfg: Config, m: Machine, i: Input)
    requires Calm(i) && i.permission == Allow && m.core.pc.Execute? && m.core.pc.call.arguments.Dict?
    requires m.core.pc.call.name !in cfg.terminalTools
    ensures var n := Repeat(cfg, m, i, 3);
            && n.core.pc == NextCall(m.core.pc.rest) && n.core.st.toolCallCount == m.core.st.toolCallCount + 1
            && !n.core.st.cancellationRequested == !m.core.st.cancellationRequested
            && n.starts == m.starts + multiset{m.core.pc.call.id} && n.boundaries == m.boundaries
  {
    var m1, m2 := Step(cfg, m, i), Step(cfg, Step(cfg, m, i), i);
    assert Repeat(cfg, m, i, 0) == m;
    assert Repeat(cfg, m, i, 1) == m1;
    assert m1.core == m.core.(pc := Settle(m.core.pc.call, m.core.pc.rest, true));
    assert Repeat(cfg, m, i, 2) == m2;
    assert m2.core.pc.Settled? && m2.core.pc.rest == m.core.pc.rest && m2.core.pc.call == m.core.pc.call;
    NoMail(m2.core.st, i);
  }

  /** Runs are composed at the level of machines, so that no step is looked into. */
  lemma Then(cfg: Config, m: Machine, before: seq<Event>, n: Machine, i: Input, k: nat) returns (events: seq<Event>)
    requires Run(cfg, m, before) == n
    ensures events == before + Ticks(i, k)
    ensures Run(cfg, m, events) == Repeat(cfg, n, i, k)
  {
    events := before + Ticks(i, k);
    RunAppend(cfg, m, before, Ticks(i, k));
    RunTicks(cfg, n, i, k);
  }

  lemma ReachFirstTool(cfg: Config, i: Input) returns (events: seq<Event>, n: Machine)
    requires Calm(i) && i.provider.calls != []
    requires cfg.limits.maxIterations >= 1 && cfg.limits.maxModelCalls >= 1 && cfg.limits.maxToolCalls >= 1
    ensures events == Ticks(i, 6) + Ticks(i, 2) && n == Run(cfg, FirstMachine(), events)
    ensures n.core == Core(Execute(i.provider.calls[0], i.provider.calls[1..]), Answered(i), None, map[])
    ensures n.starts == multiset{} && n.boundaries == multiset{}
  {
    var m := FirstMachine();
    RunTicks(cfg, m, i, 6);
    FirstCalls(cfg, i);
    var m6 := Repeat(cfg, m, i, 6);
    events := Then(cfg, m, Ticks(i, 6), m6, i, 2);
    ReachExecutor(cfg, m6, i);
    n := Repeat(cfg, m6, i, 2);
  }

  lemma SecondTool(cfg: Config, m: Machine, i: Input) returns (n: Machine)
    requires Calm(i) && i.permission == Allow
    requires m.core.pc.Execute? && m.core.pc.call.arguments.Dict? && m.core.pc.rest == [m.core.pc.call]
    requires m.core.pc.call.name !in cfg.terminalTools
    requires !m.core.st.cancellationRequested && m.core.st.toolCallCount + 1 < cfg.limits.maxToolCalls
    requires m.starts == multiset{} && m.boundaries == multiset{}
    ensures n == Run(cfg, m, Ticks(i, 3) + Ticks(i, 2) + Ticks(i, 3))
    ensures n.starts == multiset{m.core.pc.call.id, m.core.pc.call.id} && n.boundaries == multiset{}
  {
    RunTicks(cfg, m, i, 3);
    RunTool(cfg, m, i);
    var m3 := Repeat(cfg, m, i, 3);
    var e5 := Then(cfg, m, Ticks(i, 3), m3, i, 2);
    ReachExecutor(cfg, m3, i);
    var m5 := Repeat(cfg, m3, i, 2);
    var e8 := Then(cfg, m, e5, m5, i, 3);
    RunTool(cfg, m5, i);
    n := Repeat(cfg, m5, i, 3);
  }

  /**
   * Without distinct ids the claim fails without any crash: a response that names one id twice starts
   * that id twice.
   */
  lemma RepeatedIdStartsTwice(cfg: Config, call: ToolCall, i: Input) returns (events: seq<Event>)
    requires Calm(i) && i.permission == Allow && i.provider.calls == [call, call]
    requires call.arguments.Dict? && call.name !in cfg.terminalTools
    requires cfg.limits.maxIterations >= 1 && cfg.limits.maxModelCalls >= 1 && cfg.limits.maxToolCalls >= 2
    ensures Fresh(FirstMachine()) && Restart !in events
    ensures var n := Run(cfg, FirstMachine(), events); n.starts[call.id] == 2 && n.boundaries[call.id] == 0
  {
    var before, m := ReachFirstTool(cfg, i);
    var n := SecondTool(cfg, m, i);
    var after := Ticks(i, 3) + Ticks(i, 2) + Ticks(i, 3);
    RunAppend(cfg, FirstMachine(), before, after);
    events := before + after;
  }

  /** A call that asks, is allowed, and starts: its approval has put a BEFORE_TOOL behind TOOL_IN_FLIGHT. */
  lemma AskAndRun(cfg: Config, m: Machine, i: Input)
    requires Calm(i) && i.permission == Ask && i.decision == Allowed
    requires m.core.pc.Execute? && m.core.pc.call.arguments.Dict? && Key(m.core.pc.call) !in m.core.approvals
    ensures var n := Repeat(cfg, m, i, 4);
            && n.core.approvals == m.core.approvals[Key(m.core.pc.call) := Allowed]
            && n.starts == m.starts + multiset{m.core.pc.call.id} && n.boundaries == m.boundaries + multiset{m.core.pc.call.id}
            && n.log != [] && Latest(n.log).point == BeforeTool && Latest(n.log).state == m.core.st
  {
    var call, rest := m.core.pc.call, m.core.pc.rest;
    var approvals := m.core.approvals[Key(call) := Allowed];
    var m1 := Step(cfg, m, i);
    assert Repeat(cfg, m, i, 0) == m;
    assert Repeat(cfg, m, i, 1) == m1;
    assert m1.core == m.core.(pc := AwaitApproval(call, rest));
    var m2 := Step(cfg, m1, i);
    assert Repeat(cfg, m, i, 2) == m2;
    assert m2.core == m.core.(pc := Decided(call, rest, Allowed), approvals := approvals);
    Interpose(cfg, m2, i);
    assert Repeat(cfg, m, i, 3) == Step(cfg, m2, i);
  }

  lemma Interpose(cfg: Config, m: Machine, i: Input)
    requires m.core.pc.Decided? && m.core.pc.decision == Allowed
    ensures var n := Step(cfg, Step(cfg, m, i), i);
            && n.core.approvals == m.core.approvals
            && n.starts == m.starts + multiset{m.core.pc.call.id} && n.boundaries == m.boundaries + multiset{m.core.pc.call.id}
            && n.log != [] && Latest(n.log).point == BeforeTool && Latest(n.log).state == m.core.st
  {
    var m1 := Step(cfg, m, i);
    assert m1.core == m.core.(pc := Approved(m.core.pc.call, m.core.pc.rest, Allowed));
  }

  /** A restart at a continuing point rereads the newest response. */
  lemma Resume(cfg: Config, m: Machine, i: Input)
    requires Calm(i) && m.core.pc == Entry && Continuing(m.core.resume)
    requires m.core.st.status == Running && !m.core.st.cancellationRequested && Response(m.core.st) != []
    ensures var st, n := m.core.st, Repeat(cfg, m, i, 3);
            && n.core == Core(NextCall(Pending(Response(st), Done(st))), st, None, m.core.approvals)
            && n.starts == m.starts && n.boundaries == m.boundaries && n.log == m.log
  {
    var st := m.core.st;
    var m1 := Step(cfg, m, i);
    assert Repeat(cfg, m, i, 0) == m;
    assert Repeat(cfg, m, i, 1) == m1;
    assert m1 == m.(core := m.core.(pc := LoopTop));
    NoMail(st, i);
    var m2 := Step(cfg, m1, i);
    assert Repeat(cfg, m, i, 2) == m2;
    assert m2 == m.(core := Core(Dispatch, st, None, m.core.approvals));
    Reread(cfg, m2, i);
  }

  lemma Reread(cfg: Config, m: Machine, i: Input)
    requires m.core.pc == Dispatch && Response(m.core.st) != []
    ensures Step(cfg, m, i) == m.(core := m.core.(pc := NextCall(Pending(Response(m.core.st), Done(m.core.st)))))
  {
  }

  /** A call with a recorded approval starts without another checkpoint in between. */
  lemma RunRecorded(cfg: Config, m: Machine, i: Input)
    requires Calm(i) && i.permission == Ask
    requires m.core.pc.Execute? && m.core.pc.call.arguments.Dict?
    requires Key(m.core.pc.call) in m.core.approvals && m.core.approvals[Key(m.core.pc.call)] == Allowed
    ensures var n := Repeat(cfg, m, i, 2);
            n.starts == m.starts + multiset{m.core.pc.call.id} && n.boundaries == m.boundaries
  {
    var m1 := Step(cfg, m, i);
    assert Repeat(cfg, m, i, 0) == m;
    assert Repeat(cfg, m, i, 1) == m1;
    assert m1.core == m.core.(pc := Approved(m.core.pc.call, m.core.pc.rest, Allowed));
  }

  function Reopened(i: Input): RunState
    requires i.provider.Answered?
  {
    StripState(Answered(i))
  }

  lemma ReopenedHistory(i: Input, call: ToolCall)
    requires Calm(i) && i.provider.calls == [call] && call.arguments.Dict?
    ensures Restore(Serialize(Answered(i))) == Some(Reopened(i))
    ensures Response(Reopened(i)) == [StripCall(call)]
    ensures Pending(Response(Reopened(i)), Done(Reopened(i))) == [StripCall(call)]
  {
    RoundTrip(Answered(i));
    var reply := StripMessage(AssistantMessage(i.provider, i.newId));
    assert Reopened(i).messages == [] + [reply];
    assert reply.toolCalls == [StripCall(call)];
    CompletedAppend([], reply);
    assert Done(Reopened(i)) == {};
    LastAssistantAppend([], reply);
    AllPending([StripCall(call)]);
  }

  lemma ReachAgain(cfg: Config, m: Machine, call: ToolCall, i: Input) returns (events: seq<Event>, n: Machine)
    requires Calm(i) && i.provider.calls == [call] && call.arguments.Dict? && cfg.limits.maxToolCalls >= 1
    requires m.core == Core(Entry, Reopened(i), Some(BeforeTool), m.core.approvals)
    ensures events == Ticks(i, 3) + Ticks(i, 2) && n == Run(cfg, m, events)
    ensures n.core == Core(Execute(StripCall(call), []), Reopened(i), None, m.core.approvals)
    ensures n.starts == m.starts && n.boundaries == m.boundaries
  {
    ReopenedHistory(i, call);
    Resume(cfg, m, i);
    RunTicks(cfg, m, i, 3);
    var m3 := Repeat(cfg, m, i, 3);
    events := Then(cfg, m, Ticks(i, 3), m3, i, 2);
    ReachExecutor(cfg, m3, i);
    n := Repeat(cfg, m3, i, 2);
  }

  lemma StartAgain(cfg: Config, m: Machine, call: ToolCall, i: Input) returns (events: seq<Event>)
    requires Calm(i) && i.permission == Ask && i.provider.calls == [call] && call.arguments.Dict?
    requires cfg.limits.maxToolCalls >= 1
    requires m.core == Core(Entry, Reopened(i), Some(BeforeTool), map[Key(call) := Allowed])
    ensures DistinctResponses(events)
    ensures var n := Run(cfg, m, events);
            n.starts == m.starts + multiset{call.id} && n.boundaries == m.boundaries
  {
    var before, m5 := ReachAgain(cfg, m, call, i);
    assert Key(StripCall(call)) == Key(call);
    events := Then(cfg, m, before, m5, i, 2);
    RunRecorded(cfg, m5, i);
  }

  lemma CrashBeforeTool(m: Machine, call: ToolCall, i: Input)
    requires Calm(i) && i.provider.calls == [call] && call.arguments.Dict?
    requires m.log != [] && Latest(m.log).point == BeforeTool && Latest(m.log).state == Answered(i)
    ensures Crash(m) == m.(core := Core(Entry, Reopened(i), Some(BeforeTool), m.core.approvals))
  {
    ReopenedHistory(i, call);
  }

  lemma StartWithApproval(cfg: Config, call: ToolCall, i: Input) returns (events: seq<Event>, n: Machine)
    requires Calm(i) && i.permission == Ask && i.decision == Allowed && i.provider.calls == [call] && call.arguments.Dict?
    requires cfg.limits.maxIterations >= 1 && cfg.limits.maxModelCalls >= 1 && cfg.limits.maxToolCalls >= 1
    ensures n == Run(cfg, FirstMachine(), events) && DistinctResponses(events)
    ensures n.starts == multiset{call.id} && n.boundaries == multiset{call.id}
    ensures n.log != [] && Latest(n.log).point == BeforeTool && Latest(n.log).state == Answered(i)
    ensures n.core.approvals == map[Key(call) := Allowed]
  {
    var before, m := ReachFirstTool(cfg, i);
    events := Then(cfg, FirstMachine(), before, m, i, 4);
    AskAndRun(cfg, m, i);
    n := Repeat(cfg, m, i, 4);
  }

  /**
   * The bound with approvals is reached: the checkpoint written after the decision is not
   * TOOL_IN_FLIGHT, so a crash while the approved tool runs is resumed and the tool starts again.
   */
  lemma ApprovedCallStartsTwice(cfg: Config, call: ToolCall, i: Input) returns (events: seq<Event>)
    requires Calm(i) && i.permission == Ask && i.decision == Allowed && i.provider.calls == [call] && call.arguments.Dict?
    requires cfg.limits.maxIterations >= 1 && cfg.limits.maxModelCalls >= 1 && cfg.limits.maxToolCalls >= 1
    ensures Fresh(FirstMachine()) && DistinctResponses(events)
    ensures var n := Run(cfg, FirstMachine(), events); n.starts[call.id] == 2 && n.boundaries[call.id] == 1
  {
    var before, m := StartWithApproval(cfg, call, i);
    CrashBeforeTool(m, call, i);
    var after := StartAgain(cfg, m.(core := Core(Entry, Reopened(i), Some(BeforeTool), m.core.approvals)), call, i);
    RunThen(cfg, FirstMachine(), before, Restart);
    RunAppend(cfg, FirstMachine(), before + [Restart], after);
    events := before + [Restart] + after;
  }

  lemma SettledTerminal(cfg: Config, m: Machine, i: Input)
    requires Calm(i) && m.core.pc.Settled? && m.core.pc.success && m.core.pc.call.name in cfg.terminalTools
    ensures var n := Step(cfg, m, i);
            && n.core.pc == Finishing && n.log != [] && Latest(n.log).point == BeforeFinalize
            && Latest(n.log).state.finalOutput == Some(m.core.pc.content)
  {
  }

  lemma ReopenedAfterTool(m: Machine)
    requires m.log != [] && Latest(m.log).point == AfterTool && AllDictionaries(Latest(m.log).state.messages)
    ensures var st := StripState(Latest(m.log).state);
            && Crash(m) == m.(core := Core(Entry, st, Some(AfterTool), m.core.approvals))
            && StripCalls(Response(Latest(m.log).state)) == Response(st) && Done(st) == Done(Latest(m.log).state)
  {
    var k := Latest(m.log);
    RoundTrip(k.state);
    LastAssistantStrip(k.state.messages);
    CompletedStrip(k.state.messages);
  }

  /** What a process that goes on commits, and what a resumed one does instead. */
  lemma TerminalSuccessLost(cfg: Config, m: Machine, i: Input)
    requires Calm(i) && m.core.pc.Settled? && m.core.pc.success && m.core.pc.call.name in cfg.terminalTools
    requires m.log != [] && Latest(m.log).point == AfterTool && Latest(m.log).state == m.core.st
    requires AllDictionaries(m.core.st.messages) && m.core.st.status == Running && !m.core.st.cancellationRequested
    requires Response(m.core.st) != [] && Pending(Response(m.core.st), Done(m.core.st)) == []
    ensures var n := Step(cfg, m, i); LatestIs(n.log, BeforeFinalize) && Latest(n.log).state.finalOutput == Some(m.core.pc.content)
    ensures var n := Repeat(cfg, Crash(m), i, 4); n.core.pc == LoopTop && n.core.st == StripState(m.core.st) && n.log == m.log
  {
    SettledTerminal(cfg, m, i);
    ReopenedAfterTool(m);
    var st := StripState(m.core.st);
    PendingStrip(Response(m.core.st), Done(m.core.st));
    assert Pending(Response(st), Done(st)) == [];
    var back := m.(core := Core(Entry, st, Some(AfterTool), m.core.approvals));
    NothingPending(cfg, back, i);
  }

  /** The result of the only call of a turn's first response, a successful terminal tool. */
  lemma TerminalResult(cfg: Config, m: Machine, call: ToolCall, i: Input)
    requires Calm(i) && i.permission == Allow && i.tool.success && i.provider.calls == [call] && call.arguments.Dict?
    requires m.core == Core(Execute(call, []), Answered(i), None, map[])
    ensures var n := Repeat(cfg, m, i, 2);
            && n.core.pc == Settled(call, [], true, i.tool.content)
            && n.core.st == Append(Answered(i), ToolMessage(call, true, i.tool, i.newId)).(toolCallCount := 1)
            && n.log != [] && Latest(n.log).point == AfterTool && Latest(n.log).state == n.core.st
  {
    var m1 := Step(cfg, m, i);
    assert Repeat(cfg, m, i, 0) == m;
    assert Repeat(cfg, m, i, 1) == m1;
    assert m1.core == m.core.(pc := Settle(call, [], true));
    assert Repeat(cfg, m, i, 2) == Step(cfg, m1, i);
  }

  lemma ResultHistory(call: ToolCall, i: Input)
    requires Calm(i) && i.provider.calls == [call] && call.arguments.Dict?
    ensures var st := Append(Answered(i), ToolMessage(call, true, i.tool, i.newId)).(toolCallCount := 1);
            AllDictionaries(st.messages) && Response(st) == [call] && Pending(Response(st), Done(st)) == []
  {
    var reply, result := AssistantMessage(i.provider, i.newId), ToolMessage(call, true, i.tool, i.newId);
    CompletedAppend([], reply);
    CompletedAppend([reply], result);
    LastAssistantAppend([], reply);
    LastAssistantAppend([reply], result);
    assert [] + [reply] == [reply];
  }

  /**
   * Why the refinement leaves out one window: the result of a successful terminal tool decides the turn, but
   * only in memory. From the same moment of one run, a process that goes on commits the decided output, while
   * one that is lost is resumed into another pass of the loop, with nothing committed in between.
   */
  lemma TerminalSuccessIsLost(cfg: Config, call: ToolCall, i: Input) returns (events: seq<Event>)
    requires Calm(i) && i.permission == Allow && i.tool.success && i.provider.calls == [call] && call.arguments.Dict?
    requires call.name in cfg.terminalTools
    requires cfg.limits.maxIterations >= 1 && cfg.limits.maxModelCalls >= 1 && cfg.limits.maxToolCalls >= 1
    ensures Fresh(FirstMachine()) && Restart !in events
    ensures var n := Run(cfg, FirstMachine(), events + [Tick(i)]);
            LatestIs(n.log, BeforeFinalize) && Latest(n.log).state.finalOutput == Some(i.tool.content)
    ensures var n := Run(cfg, FirstMachine(), events + [Restart] + Ticks(i, 4));
            n.core.pc == LoopTop && n.core.st.finalOutput == None && n.log == Run(cfg, FirstMachine(), events).log
  {
    var s;
    events, s := ReachTerminalResult(cfg, call, i);
    TerminalSuccessLost(cfg, s, i);
    TwoFutures(cfg, FirstMachine(), events, s, i, 4);
  }

  lemma ReachTerminalResult(cfg: Config, call: ToolCall, i: Input) returns (events: seq<Event>, s: Machine)
    requires Calm(i) && i.permission == Allow && i.tool.success && i.provider.calls == [call] && call.arguments.Dict?
    requires cfg.limits.maxIterations >= 1 && cfg.limits.maxModelCalls >= 1 && cfg.limits.maxToolCalls >= 1
    ensures Restart !in events && s == Run(cfg, FirstMachine(), events)
    ensures s.core.pc == Settled(call, [], true, i.tool.content)
    ensures LatestIs(s.log, AfterTool) && Latest(s.log).state == s.core.st
    ensures AnsweredCall(s.core.st, call)
  {
    var before, m := ReachFirstTool(cfg, i);
    assert [call][1..] == [];
    s := SettleTerminal(cfg, m, call, i);
    events := Then(cfg, FirstMachine(), before, m, i, 2);
    NoRestart(i, 6);
    NoRestart(i, 2);
  }

  lemma NoRestart(i: Input, n: nat)
    ensures Restart !in Ticks(i, n)
  {
  }

  predicate AnsweredCall(st: RunState, call: ToolCall) {
    && AllDictionaries(st.messages) && st.status == Running && !st.cancellationRequested && st.finalOutput == None
    && Response(st) == [call] && Pending(Response(st), Done(st)) == []
  }

  lemma SettleTerminal(cfg: Config, m: Machine, call: ToolCall, i: Input) returns (n: Machine)
    requires Calm(i) && i.permission == Allow && i.tool.success && i.provider.calls == [call] && call.arguments.Dict?
    requires m.core == Core(Execute(call, []), Answered(i), None, map[])
    ensures n == Repeat(cfg, m, i, 2) && n.core.pc == Settled(call, [], true, i.tool.content)
    ensures LatestIs(n.log, AfterTool) && Latest(n.log).state == n.core.st
    ensures AnsweredCall(n.core.st, call)
  {
    TerminalResult(cfg, m, call, i);
    ResultHistory(call, i);
    n := Repeat(cfg, m, i, 2);
  }

  lemma TwoFutures(cfg: Config, m: Machine, events: seq<Event>, s: Machine, i: Input, k: nat)
    requires s == Run(cfg, m, events)
    ensures Run(cfg, m, events + [Tick(i)]) == Step(cfg, s, i)
    ensures Run(cfg, m, events + [Restart] + Ticks(i, k)) == Repeat(cfg, Crash(s), i, k)
  {
    RunThen(cfg, m, events, Tick(i));
    RunThen(cfg, m, events, Restart);
    RunAppend(cfg, m, events + [Restart], Ticks(i, k));
    RunTicks(cfg, Crash(s), i, k);
  }

  lemma NothingPending(cfg: Config, m: Machine, i: Input)
    requires Calm(i) && m.core.pc == Entry && Continuing(m.core.resume)
    requires m.core.st.status == Running && !m.core.st.cancellationRequested
    requires Response(m.core.st) != [] && Pending(Response(m.core.st), Done(m.core.st)) == []
    ensures var n := Repeat(cfg, m, i, 4); n.core.pc == LoopTop && n.core.st == m.core.st && n.log == m.log
  {
    Resume(cfg, m, i);
    var m3 := Repeat(cfg, m, i, 3);
    assert Repeat(cfg, m, i, 4) == Step(cfg, m3, i);
  }

  /** Why it leaves out BEFORE_MODEL and MODEL_IN_FLIGHT: resuming there starts the pass over and pays for it again. */
  lemma RetriedPassCostsAnIteration(cfg: Config, m: Machine, i: Input)
    requires Calm(i) && m.log != [] && Latest(m.log).point in {BeforeModel, ModelInFlight}
    requires Restorable(Latest(m.log).state.messages) && !Latest(m.log).state.cancellationRequested
    ensures var n := Repeat(cfg, Crash(m), i, 2);
            if Latest(m.log).state.iteration < cfg.limits.maxIterations
            then n.log != [] && Latest(n.log).point == BeforeModel
                 && Latest(n.log).state.iteration == Latest(m.log).state.iteration + 1
            else n.core.pc == Raising(OverIterations) && n.log == m.log
  {
    var k := Latest(m.log);
    RoundTrip(k.state);
    RestoredFields(k.state);
    var st := Restore(Serialize(k.state)).value;
    RestartPass(cfg, m.(core := Core(Entry, st, Some(k.point), m.core.approvals)), i);
  }

  lemma RestartPass(cfg: Config, m: Machine, i: Input)
    requires Calm(i) && m.core.pc == Entry && !m.core.st.cancellationRequested
    requires m.core.resume.Some? && m.core.resume.value in {BeforeModel, ModelInFlight}
    ensures var n := Repeat(cfg, m, i, 2);
            if m.core.st.iteration < cfg.limits.maxIterations
            then n.log != [] && Latest(n.log).point == BeforeModel && Latest(n.log).state.iteration == m.core.st.iteration + 1
            else n.core.pc == Raising(OverIterations) && n.log == m.log
  {
    var m1 := Step(cfg, m, i);
    assert Repeat(cfg, m, i, 0) == m;
    assert Repeat(cfg, m, i, 1) == m1;
    assert m1 == m.(core := m.core.(pc := LoopTop, st := m.core.st.(status := Running)));
  }
}
