/**
 * How a turn ends: which terminal checkpoint a process leaves, with which status and error, and where the
 * final output of a completed turn comes from.
 */
module TurnFailures {
  import opened Messages
  import opened RunStates
  import opened Recovery
  import opened TurnMachine

  // ----- What goes wrong at a step -----

  /** A terminal checkpoint's durable status, and the status and error of its state. */
  datatype Ending = Ending(durable: DurableStatus, status: RunStatus, error: RunError)

  const REQUESTED := Ending(DurableCancelled, Cancelled, RunError("CANCELLED", "Run cancellation requested", "cancellation"))

  function Limit(message: string): Ending { Ending(DurableFailed, Failed, RunError("LIMIT_REACHED", message, "budget")) }

  function Protocol(message: string): Ending { Ending(DurableFailed, Failed, RunError("PROVIDER_PROTOCOL_ERROR", message, "provider")) }

  function Raised(e: RunError): Ending {
    if e.category == "cancellation" then Ending(DurableCancelled, Cancelled, e) else Ending(DurableFailed, Failed, e)
  }

  predicate Blank(s: string) { forall c :: c in s ==> c in {' ', '\t', '\n', '\r'} }

  predicate NoAssistant(ms: seq<Message>) { forall x :: x in ms ==> x.role != "assistant" }

  predicate ReusesResponse(c: Core) {
    c.resume in {Some(AfterModel), Some(WaitingApproval), Some(BeforeTool), Some(AfterTool)}
  }

  predicate CancelSeen(c: Core, i: Input) { c.st.cancellationRequested || i.cancelRequested }

  /** The exception that a step of the loop meets, in the order of the checks, as the ending it must lead to. */
  function Fails(cfg: Config, c: Core, i: Input): Option<Ending> {
    match c.pc
    case LoopTop =>
      if CancelSeen(c, i) then Some(REQUESTED)
      else if i.overWallTime then Some(Limit("Max wall time exceeded"))
      else if ReusesResponse(c) then
        if NoAssistant(c.st.messages) then Some(Protocol("AFTER_MODEL checkpoint has no durable assistant message")) else None
      else if c.st.iteration >= cfg.limits.maxIterations then Some(Limit("Max iterations exceeded"))
      else None
    case Build =>
      if i.contextError.Some? then Some(Raised(i.contextError.value))
      else if c.st.modelCallCount >= cfg.limits.maxModelCalls then Some(Limit("Max model calls exceeded"))
      else None
    case AwaitProvider =>
      if !i.taskCancelled && i.provider.ProviderFailed? then Some(Raised(i.provider.error)) else None
    case Dispatch =>
      if NoAssistant(c.st.messages) then Some(Protocol("AFTER_MODEL checkpoint has no durable assistant message"))
      else if Silent(c.st.messages) then Some(Protocol("Model returned neither tool calls nor final text"))
      else None
    case NextCall(pending) =>
      if pending == [] then None
      else if CancelSeen(c, i) then Some(REQUESTED)
      else if c.st.toolCallCount >= cfg.limits.maxToolCalls then Some(Limit("Max tool calls exceeded"))
      else None
    case _ => None
  }

  /** The newest response asks for nothing and says nothing. */
  predicate Silent(ms: seq<Message>) {
    var r := LastAssistant(ms); r.Some? && r.value.toolCalls == [] && Blank(r.value.content)
  }

  // ----- Trimming -----

  ghost predicate TrimmedTo(s: string, t: string) {
    && (t != "" ==> !IsSpace(t[0]) && !IsSpace(t[|t| - 1]))
    && exists a: nat :: a + |t| <= |s| && Blank(s[..a]) && s[a..a + |t|] == t && Blank(s[a + |t|..])
  }

  lemma {:induction false} TrimLeftSplits(s: string) returns (a: nat)
    ensures a <= |s| && Blank(s[..a]) && s[a..] == TrimLeft(s)
    ensures TrimLeft(s) != "" ==> !IsSpace(TrimLeft(s)[0])
  {
    if s != "" && IsSpace(s[0]) {
      var b := TrimLeftSplits(s[1..]);
      a := b + 1;
      OneMore(s, b);
    } else {
      a := 0;
    }
  }

  lemma OneMore(s: string, b: nat)
    requires b + 1 <= |s| && IsSpace(s[0]) && Blank(s[1..][..b])
    ensures Blank(s[..b + 1]) && s[b + 1..] == s[1..][b..]
  {
    assert s[..b + 1] == [s[0]] + s[1..][..b];
  }

  lemma OneMoreAtTheEnd(s: string, b: nat)
    requires b < |s| && IsSpace(s[|s| - 1]) && Blank(s[..|s| - 1][b..])
    ensures Blank(s[b..]) && s[..|s| - 1][..b] == s[..b]
  {
    assert s[b..] == s[..|s| - 1][b..] + [s[|s| - 1]];
  }

  lemma {:induction false} TrimRightSplits(s: string) returns (b: nat)
    ensures b <= |s| && Blank(s[b..]) && s[..b] == TrimRight(s)
    ensures TrimRight(s) != "" ==> !IsSpace(TrimRight(s)[|TrimRight(s)| - 1])
  {
    if s != "" && IsSpace(s[|s| - 1]) {
      var n := |s| - 1;
      b := TrimRightSplits(s[..n]);
      OneMoreAtTheEnd(s, b);
    } else {
      b := |s|;
    }
  }

  lemma TrimSplits(s: string)
    ensures TrimmedTo(s, Trim(s))
  {
    var a := TrimLeftSplits(s);
    var left := TrimLeft(s);
    var b := TrimRightSplits(left);
    var t := Trim(s);
    assert t == left[..b];
    assert s[a..a + |t|] == t;
    assert s[a + |t|..] == left[b..];
    assert a + |t| + (|left| - b) == |s|;
    if t != "" {
      assert t[0] == left[0];
    }
  }

  lemma TrimBlank(s: string)
    ensures Trim(s) == "" <==> Blank(s)
  {
    TrimSplits(s);
    var t := Trim(s);
    var a: nat :| a + |t| <= |s| && Blank(s[..a]) && s[a..a + |t|] == t && Blank(s[a + |t|..]);
    if t == "" {
      assert s == s[..a] + s[a..];
    } else {
      assert t[0] in s;
    }
  }

  // ----- A process without a failure so far, and with one -----

  /** The row that closes the turn with this ending. */
  predicate ClosedWith(m: Machine, e: Ending) {
    && LatestIs(m.log, Terminal) && Latest(m.log).status == e.durable && Latest(m.log).state == m.core.st
    && m.core.st.status == e.status && m.core.st.error == Some(e.error)
  }

  predicate ClosedCompleted(m: Machine) {
    && LatestIs(m.log, Terminal) && Latest(m.log).status == DurableCompleted && Latest(m.log).state == m.core.st
    && m.core.st.status == Completed && m.core.st.error == None && m.core.st.finalOutput.Some?
  }

  predicate LeadsTo(f: Failure, e: Ending) {
    ToRunError(f) == e.error && FailureStatus(e.error) == e.status && Durable(e.status) == e.durable
  }

  predicate Deciding(c: Core) { c.pc.Finishing? || (c.pc.Entry? && c.resume == Some(BeforeFinalize)) }

  /** Where a process stands, given the failure it has met. */
  predicate Stands(m: Machine, failure: Option<Ending>) {
    match failure
    case Some(e) =>
      || (m.core.pc.Raising? && LeadsTo(m.core.pc.failure, e))
      || (m.core.pc == Stopped(Returned) && ClosedWith(m, e))
    case None =>
      && !m.core.pc.Raising?
      && (!m.core.pc.Stopped? ==> m.core.st.error == None && (Deciding(m.core) ==> m.core.st.finalOutput.Some?))
      && (m.core.pc == Stopped(Returned) ==> ClosedCompleted(m))
  }

  /** The failure one step meets is the one it raises; without one it goes on. */
  predicate Meets(cfg: Config, c: Core, i: Input) {
    var d := Next(cfg, c, i).core;
    match Fails(cfg, c, i)
    case Some(e) => d.pc.Raising? && LeadsTo(d.pc.failure, e)
    case None => !d.pc.Raising?
  }

  lemma PassMeets(cfg: Config, c: Core, i: Input)
    requires c.pc.LoopTop?
    ensures Meets(cfg, c, i)
  {
    if !CancelSeen(c, i) && !i.overWallTime && ReusesResponse(c) {
      LastAssistantIsNewest(c.st.messages);
      DrainAssistant(Observe(c.st, i), i);
      ReuseMeets(cfg, c, i);
    } else {
      CheckMeets(cfg, c, i);
    }
  }

  lemma ReuseMeets(cfg: Config, c: Core, i: Input)
    requires c.pc.LoopTop? && !CancelSeen(c, i) && !i.overWallTime && ReusesResponse(c)
    requires NoAssistant(c.st.messages) <==> LastAssistant(Drain(Observe(c.st, i), i).messages) == None
    ensures Meets(cfg, c, i)
  {
    var st := Drain(Observe(c.st, i), i);
    ReusePass(cfg, c, i);
    if LastAssistant(st.messages) == None {
      assert LeadsTo(NoCommittedResponse, Protocol("AFTER_MODEL checkpoint has no durable assistant message"));
    }
  }

  lemma ReusePass(cfg: Config, c: Core, i: Input)
    requires c.pc.LoopTop? && !CancelSeen(c, i) && !i.overWallTime && ReusesResponse(c)
    ensures var st := Drain(Observe(c.st, i), i);
            Next(cfg, c, i) == if LastAssistant(st.messages).None? then Raise(c, st, NoCommittedResponse)
                               else Quiet(c.(pc := Dispatch, st := st, resume := None))
  {
  }

  lemma CheckMeets(cfg: Config, c: Core, i: Input)
    requires c.pc.LoopTop? && (CancelSeen(c, i) || i.overWallTime || !ReusesResponse(c))
    ensures Meets(cfg, c, i)
  {
  }

  lemma {:induction false} MailAssistant(ms: seq<Message>, mail: seq<Message>)
    requires forall x :: x in mail ==> x.role != "assistant"
    ensures LastAssistant(ms + mail) == LastAssistant(ms)
  {
    if mail == [] {
      assert ms + mail == ms;
    } else {
      var n := |mail| - 1;
      MailAssistant(ms, mail[..n]);
      assert (ms + mail)[..|ms + mail| - 1] == ms + mail[..n];
    }
  }

  lemma DrainAssistant(st: RunState, i: Input)
    ensures LastAssistant(Drain(st, i).messages) == LastAssistant(st.messages)
  {
    MailAssistant(st.messages, MailMessages(i.mail, i.newId));
  }

  lemma RequestMeets(cfg: Config, c: Core, i: Input)
    requires c.pc.Build? || c.pc.AwaitProvider?
    ensures Meets(cfg, c, i)
  {
  }

  lemma ResponseMeets(cfg: Config, c: Core, i: Input)
    requires c.pc.Dispatch?
    ensures Meets(cfg, c, i)
  {
    LastAssistantIsNewest(c.st.messages);
    if LastAssistant(c.st.messages).Some? {
      TrimBlank(LastAssistant(c.st.messages).value.content);
      TextMeets(cfg, c, i, LastAssistant(c.st.messages).value);
    }
  }

  lemma TextMeets(cfg: Config, c: Core, i: Input, r: Message)
    requires c.pc.Dispatch? && LastAssistant(c.st.messages) == Some(r) && !NoAssistant(c.st.messages)
    requires Trim(r.content) == "" <==> Blank(r.content)
    ensures Meets(cfg, c, i)
  {
  }

  lemma CallMeets(cfg: Config, c: Core, i: Input)
    requires c.pc.NextCall?
    ensures Meets(cfg, c, i)
  {
  }

  lemma OtherMeets(cfg: Config, c: Core, i: Input)
    requires !c.pc.LoopTop? && !c.pc.Build? && !c.pc.AwaitProvider? && !c.pc.Dispatch? && !c.pc.NextCall? && !c.pc.Raising?
    ensures Meets(cfg, c, i)
  {
  }

  lemma StepMeets(cfg: Config, c: Core, i: Input)
    requires !c.pc.Raising?
    ensures Meets(cfg, c, i)
  {
    match c.pc
    case LoopTop => PassMeets(cfg, c, i);
    case Build => RequestMeets(cfg, c, i);
    case AwaitProvider => RequestMeets(cfg, c, i);
    case Dispatch => ResponseMeets(cfg, c, i);
    case NextCall(_) => CallMeets(cfg, c, i);
    case _ => OtherMeets(cfg, c, i);
  }

  lemma RaisingCloses(cfg: Config, m: Machine, i: Input, e: Ending)
    requires m.core.pc.Raising? && LeadsTo(m.core.pc.failure, e)
    ensures var n := Step(cfg, m, i); n.core.pc == Stopped(Returned) && ClosedWith(n, e)
  {
  }

  /** Where steps lead that raise nothing. */
  predicate GoesOn(cfg: Config, m: Machine, i: Input) {
    var n := Step(cfg, m, i);
    && (!n.core.pc.Stopped? && !n.core.pc.Raising? ==> n.core.st.error == None && (Deciding(n.core) ==> n.core.st.finalOutput.Some?))
    && (n.core.pc == Stopped(Returned) ==> ClosedCompleted(n))
  }

  lemma LoopGoesOn(cfg: Config, m: Machine, i: Input)
    requires m.core.pc in {Entry, LoopTop, Build, CallProvider, AwaitProvider, Finishing}
    requires m.core.st.error == None && (Deciding(m.core) ==> m.core.st.finalOutput.Some?)
    ensures GoesOn(cfg, m, i)
  {
  }

  lemma ResponseGoesOn(cfg: Config, m: Machine, i: Input)
    requires (m.core.pc.Dispatch? || m.core.pc.NextCall? || m.core.pc.Settled?) && m.core.st.error == None
    ensures GoesOn(cfg, m, i)
  {
  }

  lemma ToolGoesOn(cfg: Config, m: Machine, i: Input)
    requires m.core.pc.Prepare? || m.core.pc.Execute? || m.core.pc.AwaitApproval? || m.core.pc.Decided? || m.core.pc.Approved? || m.core.pc.Settle?
    requires m.core.st.error == None
    ensures GoesOn(cfg, m, i)
  {
  }

  lemma StepStands(cfg: Config, m: Machine, i: Input, failure: Option<Ending>)
    requires Stands(m, failure)
    ensures Stands(Step(cfg, m, i), if failure.Some? then failure else Fails(cfg, m.core, i))
  {
    if m.core.pc.Stopped? {
      assert Step(cfg, m, i) == m;
    } else if failure.Some? {
      RaisingCloses(cfg, m, i, failure.value);
    } else {
      StepMeets(cfg, m.core, i);
      if m.core.pc.Dispatch? || m.core.pc.NextCall? || m.core.pc.Settled? {
        ResponseGoesOn(cfg, m, i);
      } else if m.core.pc in {Entry, LoopTop, Build, CallProvider, AwaitProvider, Finishing} {
        LoopGoesOn(cfg, m, i);
      } else {
        ToolGoesOn(cfg, m, i);
      }
    }
  }

  // ----- One process -----

  /** The failure that a process meets in these steps. */
  function FailureIn(cfg: Config, p: Machine, events: seq<Event>): Option<Ending> {
    if events == [] then None
    else
      var n := |events| - 1;
      FailureNow(cfg, Run(cfg, p, events[..n]), events[n], FailureIn(cfg, p, events[..n]))
  }

  function FailureNow(cfg: Config, m: Machine, e: Event, before: Option<Ending>): Option<Ending> {
    if before.Some? || e.Restart? then before else Fails(cfg, m.core, e.input)
  }

  lemma HappenStands(cfg: Config, m: Machine, e: Event, before: Option<Ending>)
    requires Stands(m, before) && e.Tick?
    ensures Stands(Happen(cfg, m, e), FailureNow(cfg, m, e, before))
  {
    StepStands(cfg, m, e.input, before);
  }

  lemma {:induction false} ProcessStands(cfg: Config, p: Machine, events: seq<Event>)
    requires Stands(p, None) && Restart !in events
    ensures Stands(Run(cfg, p, events), FailureIn(cfg, p, events))
  {
    if events != [] {
      var n := |events| - 1;
      OnlyTicks(events, n);
      ProcessStands(cfg, p, events[..n]);
      LastStands(cfg, p, events);
    }
  }

  lemma OnlyTicks(events: seq<Event>, n: nat)
    requires n < |events| && Restart !in events
    ensures Restart !in events[..n] && events[n].Tick?
  {
    assert events[n] in events;
  }

  lemma LastStands(cfg: Config, p: Machine, events: seq<Event>)
    requires events != [] && events[|events| - 1].Tick?
    requires var n := |events| - 1; Stands(Run(cfg, p, events[..n]), FailureIn(cfg, p, events[..n]))
    ensures Stands(Run(cfg, p, events), FailureIn(cfg, p, events))
  {
    var n := |events| - 1;
    HappenStands(cfg, Run(cfg, p, events[..n]), events[n], FailureIn(cfg, p, events[..n]));
  }

  // ----- All processes of a turn -----

  /** What the newest checkpoint says of a turn that is not closed. */
  predicate Unfailed(log: seq<Checkpoint>) {
    log != [] && Latest(log).point != Terminal ==>
      Latest(log).state.error == None && (Latest(log).point == BeforeFinalize ==> Latest(log).state.finalOutput.Some?)
  }

  predicate Live(m: Machine) {
    && Unfailed(m.log)
    && (!m.core.pc.Stopped? && !m.core.pc.Raising? ==> m.core.st.error == None && (Deciding(m.core) ==> m.core.st.finalOutput.Some?))
  }

  lemma StepLog(cfg: Config, m: Machine, i: Input)
    ensures var n := Step(cfg, m, i); var o := Next(cfg, m.core, i);
            && n.core == o.core
            && (o.commit == None ==> n.log == m.log)
            && (o.commit.Some? ==> n.log != [] && Latest(n.log).state == o.core.st && Latest(n.log).point == o.commit.value.point)
  {
  }

  lemma CommitPoint(cfg: Config, c: Core, i: Input)
    ensures var o := Next(cfg, c, i);
            o.commit.Some? ==>
              && (o.commit.value.point == Terminal <==> o.core.pc.Stopped?)
              && (o.commit.value.point == BeforeFinalize ==> o.core.pc.Finishing?)
              && !o.core.pc.Raising?
  {
    if c.pc.LoopTop? || c.pc.Dispatch? || c.pc.NextCall? || c.pc.Settled? || c.pc.Execute? {
      PassCommit(cfg, c, i);
    }
  }

  lemma PassCommit(cfg: Config, c: Core, i: Input)
    requires c.pc.LoopTop? || c.pc.Dispatch? || c.pc.NextCall? || c.pc.Settled? || c.pc.Execute?
    ensures var o := Next(cfg, c, i);
            o.commit.Some? ==>
              && o.commit.value.point != Terminal && !o.core.pc.Stopped? && !o.core.pc.Raising?
              && (o.commit.value.point == BeforeFinalize ==> o.core.pc.Finishing?)
  {
  }

  lemma TickLive(cfg: Config, m: Machine, i: Input)
    requires Live(m)
    ensures Live(Step(cfg, m, i))
  {
    StepLog(cfg, m, i);
    CommitPoint(cfg, m.core, i);
    if m.core.pc.Stopped? {
      assert Step(cfg, m, i) == m;
    } else if m.core.pc.Raising? {
      RaisingStops(cfg, m.core, i);
    } else if m.core.pc.Dispatch? || m.core.pc.NextCall? || m.core.pc.Settled? {
      ResponseGoesOn(cfg, m, i);
    } else if m.core.pc in {Entry, LoopTop, Build, CallProvider, AwaitProvider, Finishing} {
      LoopGoesOn(cfg, m, i);
    } else {
      ToolGoesOn(cfg, m, i);
    }
  }

  lemma RaisingStops(cfg: Config, c: Core, i: Input)
    requires c.pc.Raising?
    ensures Next(cfg, c, i).core.pc == Stopped(Returned)
  {
  }

  lemma CrashLive(m: Machine)
    requires Unfailed(m.log)
    ensures Live(Crash(m))
  {
    if m.log != [] {
      RestoredFields(Latest(m.log).state);
    }
  }

  lemma {:induction false} RunLive(cfg: Config, m: Machine, events: seq<Event>)
    requires Fresh(m)
    ensures Live(Run(cfg, m, events))
  {
    if events != [] {
      var n := |events| - 1;
      RunLive(cfg, m, events[..n]);
      match events[n]
      case Tick(i) => TickLive(cfg, Run(cfg, m, events[..n]), i);
      case Restart => CrashLive(Run(cfg, m, events[..n]));
    }
  }

  /**
   * A process that returns reports what happened. Take any process of a turn, the first or a resumed one. If a
   * step of it met a failure, the turn is closed with exactly that ending: cancelled after a cancellation
   * request, failed with LIMIT_REACHED after one of the four limits, failed or cancelled with the error that the
   * provider or the context raised, failed after a response without content. If none did, it is completed,
   * without an error and with a final output.
   */
  lemma ReturnReportsFailure(cfg: Config, m: Machine, before: seq<Event>, after: seq<Event>)
    requires Fresh(m) && Restart !in after
    requires Run(cfg, m, before).core.pc == Entry && Run(cfg, m, before + after).core.pc == Stopped(Returned)
    ensures var n := Run(cfg, m, before + after);
            match FailureIn(cfg, Run(cfg, m, before), after)
            case Some(e) => ClosedWith(n, e)
            case None => ClosedCompleted(n)
  {
    RunLive(cfg, m, before);
    RunAppend(cfg, m, before, after);
    ProcessStands(cfg, Run(cfg, m, before), after);
  }

  // ----- Where a final output comes from -----

  /** The newest message is the result of this call, and says so. */
  predicate ResultShown(ms: seq<Message>, call: ToolCall, success: bool, content: string) {
    ms != [] &&
      var x := ms[|ms| - 1];
      && x.role == "tool" && x.toolCallId == Some(call.id) && x.content == content
      && "status" in x.metadata && x.metadata["status"] == JStr(if success then "success" else "error")
  }

  predicate SettledShown(c: Core) {
    c.pc.Settled? ==> ResultShown(c.st.messages, c.pc.call, c.pc.success, c.pc.content)
  }

  /** This step decides the output: a text response without calls that the guard lets pass, or a terminal tool's success. */
  ghost predicate Decides(cfg: Config, c: Core, i: Input, text: string) {
    || (c.pc.Dispatch? && i.guard == None && Answers(c.st.messages, text))
    || (c.pc.Settled? && c.pc.call.name in cfg.terminalTools && ResultShown(c.st.messages, c.pc.call, true, text))
  }

  ghost predicate Answers(ms: seq<Message>, text: string) {
    var r := LastAssistant(ms); r.Some? && r.value.toolCalls == [] && text != "" && TrimmedTo(r.value.content, text)
  }

  lemma NotSettled(cfg: Config, c: Core, i: Input)
    requires !c.pc.Settle?
    ensures !Next(cfg, c, i).core.pc.Settled?
  {
    if c.pc.LoopTop? || c.pc.Dispatch? || c.pc.NextCall? || c.pc.Settled? || c.pc.Execute? {
      PassNotSettled(cfg, c, i);
    }
  }

  lemma PassNotSettled(cfg: Config, c: Core, i: Input)
    requires c.pc.LoopTop? || c.pc.Dispatch? || c.pc.NextCall? || c.pc.Settled? || c.pc.Execute?
    ensures !Next(cfg, c, i).core.pc.Settled?
  {
  }

  lemma ResultSettles(cfg: Config, c: Core, i: Input)
    requires c.pc.Settle?
    ensures SettledShown(Next(cfg, c, i).core)
  {
  }

  lemma {:induction false} RunShown(cfg: Config, m: Machine, events: seq<Event>)
    requires Fresh(m)
    ensures SettledShown(Run(cfg, m, events).core)
  {
    if events != [] {
      var n := |events| - 1;
      RunShown(cfg, m, events[..n]);
      HappenShown(cfg, Run(cfg, m, events[..n]), events[n]);
    }
  }

  lemma HappenShown(cfg: Config, m: Machine, e: Event)
    requires SettledShown(m.core)
    ensures SettledShown(Happen(cfg, m, e).core)
  {
    if e.Tick? {
      if m.core.pc.Settle? {
        ResultSettles(cfg, m.core, e.input);
      } else {
        NotSettled(cfg, m.core, e.input);
      }
    }
  }

  /** Some step of the run decides this output. */
  ghost predicate DecidedIn(cfg: Config, m: Machine, events: seq<Event>, text: string) {
    events != [] &&
      var n := |events| - 1;
      || DecidedIn(cfg, m, events[..n], text)
      || (events[n].Tick? && Decides(cfg, Run(cfg, m, events[..n]).core, events[n].input, text))
  }

  lemma ResponseOutputs(cfg: Config, c: Core, i: Input, text: string)
    requires c.pc.Dispatch? && Next(cfg, c, i).core.st.finalOutput == Some(text) && c.st.finalOutput != Some(text)
    ensures Decides(cfg, c, i, text)
  {
    if LastAssistant(c.st.messages).Some? {
      TrimSplits(LastAssistant(c.st.messages).value.content);
    }
  }

  lemma SettledOutputs(cfg: Config, c: Core, i: Input, text: string)
    requires c.pc.Settled? && SettledShown(c) && Next(cfg, c, i).core.st.finalOutput == Some(text) && c.st.finalOutput != Some(text)
    ensures Decides(cfg, c, i, text)
  {
  }

  lemma OtherOutputs(cfg: Config, c: Core, i: Input)
    requires !c.pc.Dispatch? && !c.pc.Settled?
    ensures Next(cfg, c, i).core.st.finalOutput == c.st.finalOutput
  {
    if c.pc.LoopTop? || c.pc.NextCall? || c.pc.Execute? {
      PassOutputs(cfg, c, i);
    }
  }

  lemma PassOutputs(cfg: Config, c: Core, i: Input)
    requires c.pc.LoopTop? || c.pc.NextCall? || c.pc.Execute?
    ensures Next(cfg, c, i).core.st.finalOutput == c.st.finalOutput
  {
  }

  lemma StepOutputs(cfg: Config, c: Core, i: Input, text: string)
    requires SettledShown(c) && Next(cfg, c, i).core.st.finalOutput == Some(text) && c.st.finalOutput != Some(text)
    ensures Decides(cfg, c, i, text)
  {
    if c.pc.Dispatch? {
      ResponseOutputs(cfg, c, i, text);
    } else if c.pc.Settled? {
      SettledOutputs(cfg, c, i, text);
    } else {
      OtherOutputs(cfg, c, i);
    }
  }

  predicate Output(m: Machine, text: string) {
    m.core.st.finalOutput == Some(text) || (m.log != [] && Latest(m.log).state.finalOutput == Some(text))
  }

  lemma HappenOutputs(cfg: Config, m: Machine, e: Event, text: string)
    requires SettledShown(m.core) && Output(Happen(cfg, m, e), text)
    ensures Output(m, text) || (e.Tick? && Decides(cfg, m.core, e.input, text))
  {
    match e
    case Tick(i) =>
      StepLog(cfg, m, i);
      if !Output(m, text) {
        StepOutputs(cfg, m.core, i, text);
      }
    case Restart =>
      if m.log != [] {
        RestoredFields(Latest(m.log).state);
      }
  }

  /**
   * A final output is never made up: whenever a turn has one, in memory or in its newest checkpoint, some step
   * decided it, and it is the trimmed text of the newest response of that moment, which asked for no tool, or
   * what a successful terminal tool had returned.
   */
  lemma {:induction false} OutputWasDecided(cfg: Config, m: Machine, events: seq<Event>, text: string)
    requires Fresh(m) && Output(Run(cfg, m, events), text)
    ensures DecidedIn(cfg, m, events, text)
  {
    if events != [] {
      var n := |events| - 1;
      RunShown(cfg, m, events[..n]);
      HappenOutputs(cfg, Run(cfg, m, events[..n]), events[n], text);
      if Output(Run(cfg, m, events[..n]), text) {
        OutputWasDecided(cfg, m, events[..n], text);
      }
    }
  }
}
