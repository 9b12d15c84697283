/**
 * How a process leaves a turn: closed by a TERMINAL checkpoint, or cancelled without one. A turn cancelled by
 * its first process can be taken up again, and is then closed in the rollout a second time.
 */
module TurnEndings {
  import opened Messages
  import opened RunStates
  import opened Recovery
  import opened TurnMachine
  import opened TurnFinality
  import opened TurnGuards
  import opened TurnSafety
  import opened RolloutRows
  import opened RolloutFile
  import opened RolloutRecovery
  import F = TurnFinalization

  // ----- What stops a process -----

  /** The process's asyncio task is cancelled at one of the awaits, or an approval has been answered with CANCEL_TURN. */
  predicate Cancels(c: Core, i: Input) {
    || (i.taskCancelled && (c.pc.AwaitProvider? || c.pc.Execute? || c.pc.AwaitApproval? || c.pc.Settle?))
    || (c.pc.Approved? && c.pc.decision == CancelTurn)
  }

  predicate InTools(pc: Pc) {
    pc.Execute? || pc.AwaitApproval? || pc.Decided? || pc.Approved? || pc.Settle? || pc.Settled?
  }

  /** A live process stops in one of two ways, and one of them is the cancellation. */
  predicate StopsOnly(c: Core, i: Input, d: Core) {
    && (d.pc == Stopped(TaskCancelled) <==> Cancels(c, i))
    && (d.pc.Stopped? ==> d.pc.reason in {Returned, TaskCancelled})
  }

  lemma ToolStops(cfg: Config, c: Core, i: Input)
    requires InTools(c.pc)
    ensures StopsOnly(c, i, Next(cfg, c, i).core)
  {
  }

  lemma LoopStops(cfg: Config, c: Core, i: Input)
    requires !InTools(c.pc) && !c.pc.Stopped?
    ensures StopsOnly(c, i, Next(cfg, c, i).core)
  {
  }

  /** A process that started in the loop, with or without a cancellation so far. */
  predicate Ended(c: Core, cancelled: bool) {
    && (c.pc == Stopped(TaskCancelled) <==> cancelled)
    && (c.pc.Stopped? ==> c.pc.reason in {Returned, TaskCancelled})
  }

  lemma StepEnds(cfg: Config, p: Machine, i: Input, cancelled: bool)
    requires Ended(p.core, cancelled)
    ensures Ended(Step(cfg, p, i).core, cancelled || Cancels(p.core, i))
  {
    if InTools(p.core.pc) {
      ToolStops(cfg, p.core, i);
    } else if !p.core.pc.Stopped? {
      LoopStops(cfg, p.core, i);
    }
  }

  /** The boundary a live process has committed last, as far as its position fixes it. */
  predicate Behind(m: Machine) {
    match m.core.pc
    case Entry => !LatestIs(m.log, Terminal)
    case CallProvider => LatestIs(m.log, ModelInFlight)
    case AwaitProvider => LatestIs(m.log, ModelInFlight)
    case Execute(_, _) => LatestIs(m.log, ToolInFlight)
    case AwaitApproval(_, _) => LatestIs(m.log, WaitingApproval)
    case Decided(_, _, _) => LatestIs(m.log, WaitingApproval)
    case Approved(_, _, _) => LatestIs(m.log, BeforeTool) || LatestIs(m.log, ToolInFlight)
    case Settle(_, _, _) => LatestIs(m.log, BeforeTool) || LatestIs(m.log, ToolInFlight)
    case Stopped(Returned) => LatestIs(m.log, Terminal)
    case Stopped(TaskCancelled) => m.log != [] && Latest(m.log).point in {ModelInFlight, WaitingApproval, BeforeTool, ToolInFlight}
    case Stopped(_) => true
    case _ => !LatestIs(m.log, Terminal)
  }

  lemma EarlyBehind(cfg: Config, m: Machine, i: Input)
    requires Behind(m) && (m.core.pc.Entry? || m.core.pc.LoopTop? || m.core.pc.Build? || m.core.pc.CallProvider?)
    ensures Behind(Step(cfg, m, i))
  {
  }

  lemma LateBehind(cfg: Config, m: Machine, i: Input)
    requires Behind(m) && (m.core.pc.AwaitProvider? || m.core.pc.Dispatch? || m.core.pc.Finishing? || m.core.pc.Raising?)
    ensures Behind(Step(cfg, m, i))
  {
  }

  lemma CallBehind(cfg: Config, m: Machine, i: Input)
    requires Behind(m) && (m.core.pc.NextCall? || m.core.pc.Prepare? || m.core.pc.Execute? || m.core.pc.AwaitApproval?)
    ensures Behind(Step(cfg, m, i))
  {
  }

  lemma ResultBehind(cfg: Config, m: Machine, i: Input)
    requires Behind(m) && (m.core.pc.Decided? || m.core.pc.Approved? || m.core.pc.Settle? || m.core.pc.Settled?)
    ensures Behind(Step(cfg, m, i))
  {
  }

  lemma StepBehind(cfg: Config, m: Machine, i: Input)
    requires Behind(m)
    ensures Behind(Step(cfg, m, i))
  {
    if m.core.pc.Entry? || m.core.pc.LoopTop? || m.core.pc.Build? || m.core.pc.CallProvider? {
      EarlyBehind(cfg, m, i);
    } else if m.core.pc.AwaitProvider? || m.core.pc.Dispatch? || m.core.pc.Finishing? || m.core.pc.Raising? {
      LateBehind(cfg, m, i);
    } else if m.core.pc.NextCall? || m.core.pc.Prepare? || m.core.pc.Execute? || m.core.pc.AwaitApproval? {
      CallBehind(cfg, m, i);
    } else if !m.core.pc.Stopped? {
      ResultBehind(cfg, m, i);
    }
  }

  lemma CrashBehind(m: Machine)
    ensures Behind(Crash(m))
  {
  }

  lemma {:induction false} RunBehind(cfg: Config, m: Machine, events: seq<Event>)
    requires Fresh(m)
    ensures Behind(Run(cfg, m, events))
  {
    if events != [] {
      var n := |events| - 1;
      RunBehind(cfg, m, events[..n]);
      match events[n]
      case Restart => CrashBehind(Run(cfg, m, events[..n]));
      case Tick(i) => StepBehind(cfg, Run(cfg, m, events[..n]), i);
    }
  }

  /** Some step of this process was cancelled. */
  ghost predicate CancelledIn(cfg: Config, p: Machine, events: seq<Event>) {
    exists k :: CancelledAt(cfg, p, events, k)
  }

  predicate CancelledAt(cfg: Config, p: Machine, events: seq<Event>, k: nat) {
    k < |events| && events[k].Tick? && Cancels(Run(cfg, p, events[..k]).core, events[k].input)
  }

  lemma {:induction false} ProcessStops(cfg: Config, p: Machine, events: seq<Event>)
    requires !p.core.pc.Stopped? && Restart !in events
    ensures Ended(Run(cfg, p, events).core, CancelledIn(cfg, p, events))
  {
    if events != [] {
      var n := |events| - 1;
      var now := LastTick(cfg, p, events, CancelledIn(cfg, p, events[..n]));
      ProcessStops(cfg, p, events[..n]);
    }
  }

  lemma LastTick(cfg: Config, p: Machine, events: seq<Event>, cancelled: bool) returns (now: bool)
    requires events != [] && events[|events| - 1].Tick?
    ensures var n := |events| - 1;
            && (CancelledIn(cfg, p, events) <==> CancelledIn(cfg, p, events[..n]) || now)
            && (Ended(Run(cfg, p, events[..n]).core, cancelled) ==> Ended(Run(cfg, p, events).core, cancelled || now))
  {
    var n := |events| - 1;
    var q, i := Run(cfg, p, events[..n]), events[n].input;
    now := Cancels(q.core, i);
    CancelledGrows(cfg, p, events);
    if Ended(q.core, cancelled) {
      StepEnds(cfg, q, i, cancelled);
    }
  }

  lemma CancelledGrows(cfg: Config, p: Machine, events: seq<Event>)
    requires events != []
    ensures var n := |events| - 1;
            CancelledIn(cfg, p, events) <==> CancelledIn(cfg, p, events[..n]) || CancelledAt(cfg, p, events, n)
  {
    var n := |events| - 1;
    forall k: nat | k < n
      ensures CancelledAt(cfg, p, events, k) <==> CancelledAt(cfg, p, events[..n], k)
    {
      CancelledBefore(cfg, p, events, n, k);
    }
  }

  lemma CancelledBefore(cfg: Config, p: Machine, events: seq<Event>, n: nat, k: nat)
    requires k < n <= |events|
    ensures CancelledAt(cfg, p, events, k) <==> CancelledAt(cfg, p, events[..n], k)
  {
    assert events[..n][..k] == events[..k];
  }

  /**
   * Take any process that enters the loop, the first of its turn or a resumed one. When it stops, it has
   * returned, with a TERMINAL checkpoint, or it was cancelled, without one; and it was cancelled exactly when
   * its task was cancelled at an await or an approval was answered with CANCEL_TURN.
   */
  lemma ReturnsOrIsCancelled(cfg: Config, m: Machine, before: seq<Event>, after: seq<Event>)
    requires Fresh(m) && Restart !in after && Run(cfg, m, before).core.pc == Entry
    ensures var n := Run(cfg, m, before + after);
            && (n.core.pc == Stopped(TaskCancelled) <==> CancelledIn(cfg, Run(cfg, m, before), after))
            && (n.core.pc.Stopped? ==>
                  && n.core.pc in {Stopped(Returned), Stopped(TaskCancelled)}
                  && (n.core.pc == Stopped(Returned) <==> LatestIs(n.log, Terminal)))
            && (n.core.pc == Stopped(TaskCancelled) ==>
                  n.log != [] && Latest(n.log).point in {ModelInFlight, WaitingApproval, BeforeTool, ToolInFlight})
  {
    RunAppend(cfg, m, before, after);
    RunBehind(cfg, m, before + after);
    ProcessStops(cfg, Run(cfg, m, before), after);
  }

  // ----- In terms of the inputs alone -----

  predicate Uncancelled(events: seq<Event>) {
    forall e :: e in events && e.Tick? ==> !e.input.taskCancelled && e.input.decision != CancelTurn
  }

  predicate NoneCancelling(c: Core) {
    && c.pc != Stopped(TaskCancelled)
    && (forall k :: k in c.approvals ==> c.approvals[k] != CancelTurn)
    && (c.pc.Decided? || c.pc.Approved? ==> c.pc.decision != CancelTurn)
  }

  lemma ToolUncancelled(cfg: Config, c: Core, i: Input)
    requires InTools(c.pc) && NoneCancelling(c) && !i.taskCancelled && i.decision != CancelTurn
    ensures NoneCancelling(Next(cfg, c, i).core)
  {
  }

  lemma LoopUncancelled(cfg: Config, c: Core, i: Input)
    requires !InTools(c.pc) && NoneCancelling(c) && !i.taskCancelled
    ensures NoneCancelling(Next(cfg, c, i).core)
  {
  }

  lemma HappenUncancelled(cfg: Config, m: Machine, e: Event)
    requires NoneCancelling(m.core) && (e.Tick? ==> !e.input.taskCancelled && e.input.decision != CancelTurn)
    ensures NoneCancelling(Happen(cfg, m, e).core)
  {
    if e.Tick? {
      if InTools(m.core.pc) {
        ToolUncancelled(cfg, m.core, e.input);
      } else {
        LoopUncancelled(cfg, m.core, e.input);
      }
    }
  }

  /** A turn in which nobody cancels a task or answers CANCEL_TURN is never left without its TERMINAL checkpoint. */
  lemma {:induction false} UncancelledTurnCloses(cfg: Config, m: Machine, events: seq<Event>)
    requires Fresh(m) && Uncancelled(events)
    ensures NoneCancelling(Run(cfg, m, events).core)
    ensures var n := Run(cfg, m, events);
            n.core.pc.Stopped? && n.core.pc.reason in {Returned, TaskCancelled} ==> LatestIs(n.log, Terminal)
  {
    RunBehind(cfg, m, events);
    if events != [] {
      var n := |events| - 1;
      UncancelledTurnCloses(cfg, m, events[..n]);
      assert events[n] in events;
      HappenUncancelled(cfg, Run(cfg, m, events[..n]), events[n]);
    }
  }

  // ----- A cancelled turn goes on -----

  /** A calm answer with a final text. */
  predicate AnswersText(i: Input) {
    Calm(i) && i.provider.calls == [] && Trim(i.provider.content) != ""
  }

  function Busy(): RunState { FIRST.(status := Running, iteration := 1, modelCallCount := 1) }

  /** The first process of a turn, cancelled while it waits for the provider. */
  lemma CancelledWaiting(cfg: Config, i: Input) returns (events: seq<Event>, n: Machine)
    requires AnswersText(i) && cfg.limits.maxIterations >= 1 && cfg.limits.maxModelCalls >= 1
    ensures Restart !in events && n == Run(cfg, FirstMachine(), events)
    ensures n.core == Core(Stopped(TaskCancelled), Busy().(status := Cancelled, error := Some(TaskCancellation())), None, map[])
    ensures n.log != [] && Latest(n.log).point == ModelInFlight && Latest(n.log).state == Busy()
  {
    FirstPass(cfg, i);
    RunTicks(cfg, FirstMachine(), i, 4);
    var m3 := Repeat(cfg, FirstMachine(), i, 3);
    var m4 := Step(cfg, m3, i);
    assert Repeat(cfg, FirstMachine(), i, 4) == m4;
    assert m4 == m3.(core := m3.core.(pc := AwaitProvider), providerCalls := m3.providerCalls + 1);
    var stop := i.(taskCancelled := true);
    RunThen(cfg, FirstMachine(), Ticks(i, 4), Tick(stop));
    events := Ticks(i, 4) + [Tick(stop)];
    n := Step(cfg, m4, stop);
  }

  lemma ReopenBusy(n: Machine)
    requires n.log != [] && Latest(n.log).point == ModelInFlight && Latest(n.log).state == Busy()
    requires n.core.approvals == map[]
    ensures Crash(n) == n.(core := Core(Entry, Busy(), Some(ModelInFlight), map[]))
  {
    RoundTrip(Busy());
    assert StripMessages(Busy().messages) == [];
  }

  /** From the entry to the request for the second response. */
  lemma AskAgain(cfg: Config, m: Machine, i: Input)
    requires AnswersText(i) && cfg.limits.maxIterations >= 2 && cfg.limits.maxModelCalls >= 2
    requires m.core == Core(Entry, Busy(), Some(ModelInFlight), map[])
    ensures var n := Repeat(cfg, m, i, 4);
            n.core == Core(AwaitProvider, Busy().(iteration := 2, modelCallCount := 2), Some(ModelInFlight), map[])
  {
    var m1 := Step(cfg, m, i);
    assert Repeat(cfg, m, i, 0) == m;
    assert Repeat(cfg, m, i, 1) == m1;
    assert m1.core == m.core.(pc := LoopTop);
    NoMail(Busy().(iteration := 2), i);
    var m2 := Step(cfg, m1, i);
    assert Repeat(cfg, m, i, 2) == m2;
    assert m2.core == m.core.(pc := Build, st := Busy().(iteration := 2));
    var m3 := Step(cfg, m2, i);
    assert Repeat(cfg, m, i, 3) == m3;
    assert m3.core == m.core.(pc := CallProvider, st := Busy().(iteration := 2, modelCallCount := 2));
    assert Repeat(cfg, m, i, 4) == Step(cfg, m3, i);
  }

  /** The answer arrives and closes the turn. */
  lemma AnswerCloses(cfg: Config, m: Machine, i: Input)
    requires AnswersText(i) && m.core.pc == AwaitProvider && m.core.st.messages == []
    ensures var n := Repeat(cfg, m, i, 3);
            n.core.pc == Stopped(Returned) && n.core.st.status == Completed && LatestIs(n.log, Terminal)
  {
    var reply := AssistantMessage(i.provider, i.newId);
    var m1 := Step(cfg, m, i);
    assert Repeat(cfg, m, i, 0) == m;
    assert Repeat(cfg, m, i, 1) == m1;
    assert m1.core == m.core.(pc := Dispatch, st := Append(m.core.st, reply));
    assert m1.core.st.messages == [] + [reply];
    LastAssistantAppend([], reply);
    assert Repeat(cfg, m, i, 2) == Step(cfg, m1, i);
    TextCloses(cfg, m1, i, reply);
    assert Repeat(cfg, m, i, 3) == Step(cfg, Step(cfg, m1, i), i);
  }

  lemma TextCloses(cfg: Config, m: Machine, i: Input, reply: Message)
    requires Calm(i) && m.core.pc == Dispatch && LastAssistant(m.core.st.messages) == Some(reply)
    requires reply.toolCalls == [] && Trim(reply.content) != ""
    ensures var n := Step(cfg, Step(cfg, m, i), i);
            n.core.pc == Stopped(Returned) && n.core.st.status == Completed && LatestIs(n.log, Terminal)
  {
    TextDecides(m.core, i, reply);
    assert Step(cfg, m, i).core.pc == Finishing;
  }

  lemma TextDecides(c: Core, i: Input, reply: Message)
    requires Calm(i) && c.pc == Dispatch && LastAssistant(c.st.messages) == Some(reply)
    requires reply.toolCalls == [] && Trim(reply.content) != ""
    ensures NextResponse(c, i).core.pc == Finishing
  {
  }

  /**
   * A turn cancelled by its first process: no TERMINAL checkpoint, a run state that says cancelled, and a
   * newest checkpoint from which a restart goes on and completes the turn.
   */
  lemma CancelledTurnGoesOn(cfg: Config, i: Input) returns (before: seq<Event>, after: seq<Event>)
    requires AnswersText(i) && cfg.limits.maxIterations >= 2 && cfg.limits.maxModelCalls >= 2
    ensures Fresh(FirstMachine()) && Restart !in before && Restart !in after
    ensures var n := Run(cfg, FirstMachine(), before);
            n.core.pc == Stopped(TaskCancelled) && n.core.st.status == Cancelled && !LatestIs(n.log, Terminal)
    ensures var n := Run(cfg, FirstMachine(), before + [Restart] + after);
            n.core.pc == Stopped(Returned) && n.core.st.status == Completed && LatestIs(n.log, Terminal)
  {
    var n;
    before, n := CancelledWaiting(cfg, i);
    ReopenBusy(n);
    var c := n.(core := Core(Entry, Busy(), Some(ModelInFlight), map[]));
    after := ResumedCompletes(cfg, c, i);
    RestartThen(cfg, FirstMachine(), before, n, c, after);
  }

  lemma RestartThen(cfg: Config, m: Machine, before: seq<Event>, n: Machine, c: Machine, after: seq<Event>)
    requires n == Run(cfg, m, before) && Crash(n) == c
    ensures Run(cfg, m, before + [Restart] + after) == Run(cfg, c, after)
  {
    RunThen(cfg, m, before, Restart);
    RunAppend(cfg, m, before + [Restart], after);
  }

  lemma ResumedCompletes(cfg: Config, c: Machine, i: Input) returns (after: seq<Event>)
    requires AnswersText(i) && cfg.limits.maxIterations >= 2 && cfg.limits.maxModelCalls >= 2
    requires c.core == Core(Entry, Busy(), Some(ModelInFlight), map[])
    ensures Restart !in after
    ensures var n := Run(cfg, c, after);
            n.core.pc == Stopped(Returned) && n.core.st.status == Completed && LatestIs(n.log, Terminal)
  {
    AskAgain(cfg, c, i);
    RunTicks(cfg, c, i, 4);
    var m4 := Repeat(cfg, c, i, 4);
    after := Then(cfg, c, Ticks(i, 4), m4, i, 3);
    AnswerCloses(cfg, m4, i);
  }

  /**
   * Both sides together: the cancelled process closes the turn in the rollout, the resumed one completes the
   * turn and closes it again. The file ends with two terminal items for one turn, and loads.
   */
  lemma CancelledTurnClosesTwice(cfg: Config, i: Input, d: F.Disk, items: seq<Item>, turn: string, first: F.Attempt, last: F.Attempt)
      returns (before: seq<Event>, after: seq<Event>)
    requires AnswersText(i) && cfg.limits.maxIterations >= 2 && cfg.limits.maxModelCalls >= 2
    requires Extend(START, items).Some? && PlainLegacy(items) && d.bytes == Rows(items) && F.Terminals(items, turn) == []
    requires F.Terminals(first.others, turn) == [] && first.end.Done? && F.Terminals(last.others, turn) == [] && last.end.Done?
    ensures Fresh(FirstMachine()) && Restart !in before && Restart !in after
    ensures var cancelled, returned := Run(cfg, FirstMachine(), before), Run(cfg, FirstMachine(), before + [Restart] + after);
            && cancelled.core.pc == Stopped(TaskCancelled) && returned.core.pc == Stopped(Returned)
            && var e := F.Conclude(F.Conclude(d, turn, cancelled.core.st.status, first), turn, returned.core.st.status, last);
               Clean(Load(e.bytes)) && F.Types(F.Items(e), turn) == ["turn.cancelled", "turn.completed"]
  {
    before, after := CancelledTurnGoesOn(cfg, i);
    ClosesTwice(d, items, turn, first, last);
  }

  lemma ClosesTwice(d: F.Disk, items: seq<Item>, turn: string, first: F.Attempt, last: F.Attempt)
    requires Extend(START, items).Some? && PlainLegacy(items) && d.bytes == Rows(items) && F.Terminals(items, turn) == []
    requires F.Terminals(first.others, turn) == [] && first.end.Done? && F.Terminals(last.others, turn) == [] && last.end.Done?
    ensures var e := F.Conclude(F.Conclude(d, turn, Cancelled, first), turn, Completed, last);
            Clean(Load(e.bytes)) && F.Types(F.Items(e), turn) == ["turn.cancelled", "turn.completed"]
  {
    F.ClosedOnceExactlyWhen(d, items, turn, Some(first), Completed, last, false);
  }

  // ----- The terminal item and the terminal checkpoint -----

  /** The durable status of a terminal row is that of its state. */
  predicate RowFits(status: DurableStatus, state: RunStatus) {
    || (status == DurableCompleted && state == Completed)
    || (status == DurableCancelled && state == Cancelled)
    || (status == DurableFailed && state == Failed)
  }

  predicate TerminalFits(log: seq<Checkpoint>) {
    LatestIs(log, Terminal) ==> RowFits(Latest(log).status, Latest(log).state.status)
  }

  lemma CommitFits(cfg: Config, c: Core, i: Input)
    ensures var o := Next(cfg, c, i);
            o.commit.Some? && o.commit.value.point == Terminal ==> RowFits(o.commit.value.status, o.core.st.status)
  {
    if c.pc.LoopTop? || c.pc.Dispatch? || c.pc.NextCall? || c.pc.Settled? || c.pc.Execute? {
      PassCommits(cfg, c, i);
    }
  }

  lemma PassCommits(cfg: Config, c: Core, i: Input)
    requires c.pc.LoopTop? || c.pc.Dispatch? || c.pc.NextCall? || c.pc.Settled? || c.pc.Execute?
    ensures var o := Next(cfg, c, i); o.commit.Some? ==> o.commit.value.point != Terminal
  {
  }

  lemma HappenFits(cfg: Config, m: Machine, e: Event)
    requires TerminalFits(m.log)
    ensures TerminalFits(Happen(cfg, m, e).log)
  {
    if e.Tick? {
      CommitFits(cfg, m.core, e.input);
      StepRow(cfg, m, e.input);
    }
  }

  lemma StepRow(cfg: Config, m: Machine, i: Input)
    ensures var o, log := Next(cfg, m.core, i), Step(cfg, m, i).log;
            if o.commit == None then log == m.log
            else log != [] && Latest(log).state == o.core.st && Latest(log).point == o.commit.value.point && Latest(log).status == o.commit.value.status
  {
  }

  lemma {:induction false} RunFits(cfg: Config, m: Machine, events: seq<Event>)
    requires Fresh(m)
    ensures TerminalFits(Run(cfg, m, events).log)
  {
    if events != [] {
      var n := |events| - 1;
      RunFits(cfg, m, events[..n]);
      HappenFits(cfg, Run(cfg, m, events[..n]), events[n]);
    }
  }

  /**
   * Log and rollout agree: when the newest checkpoint of a run is TERMINAL and a repair has closed the turn with
   * the restored status, the one terminal item says turn.completed, turn.cancelled or turn.failed exactly as
   * that checkpoint's durable status does.
   */
  lemma TerminalItemFollowsCheckpoint(cfg: Config, m: Machine, events: seq<Event>,
                                      d: F.Disk, items: seq<Item>, turn: string, attempts: seq<F.Attempt>)
    requires Fresh(m) && LatestIs(Run(cfg, m, events).log, Terminal)
    requires Restorable(Latest(Run(cfg, m, events).log).state.messages)
    requires Extend(START, items).Some? && PlainLegacy(items) && d.bytes == Rows(items) && F.Terminals(items, turn) == []
    requires F.FairAttempts(d, turn, Crash(Run(cfg, m, events)).core.st.status, attempts)
    requires attempts != [] && attempts[|attempts| - 1].end.Done?
    ensures var n := Run(cfg, m, events);
            var types := F.Types(F.Items(F.CloseAll(d, turn, Crash(n).core.st.status, attempts)), turn);
            && (types == ["turn.completed"] <==> Latest(n.log).status == DurableCompleted)
            && (types == ["turn.cancelled"] <==> Latest(n.log).status == DurableCancelled)
            && (types == ["turn.failed"] <==> Latest(n.log).status == DurableFailed)
  {
    var n := Run(cfg, m, events);
    RunFits(cfg, m, events);
    RestoredStatus(n);
    F.TerminalItemSaysStatus(d, items, turn, Crash(n).core.st.status, attempts);
  }

  lemma RestoredStatus(n: Machine)
    requires LatestIs(n.log, Terminal) && Restorable(Latest(n.log).state.messages)
    ensures Crash(n).core.pc == Stopped(AlreadyTerminal) && Crash(n).core.st.status == Latest(n.log).state.status
  {
    RoundTrip(Latest(n.log).state);
    RestoredFields(Latest(n.log).state);
  }
}
