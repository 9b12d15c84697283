/**
 * What a turn's history holds: every message was there before or came from outside at a step of the run, word
 * for word, and every answer and result that came is still there, through crashes and resumes.
 */
module TurnTranscript {
  import opened Messages
  import opened RunStates
  import opened Recovery
  import opened TurnMachine
  import opened TurnPermissions

  // ----- Messages up to what a checkpoint keeps -----

  /** A call as it was issued, or as it comes back from a checkpoint. */
  predicate SameCall(a: ToolCall, b: ToolCall) {
    a.id == b.id && a.name == b.name && (a.arguments == b.arguments || (a.arguments == Dict(map[]) && b.arguments == Text("")))
  }

  predicate SameCalls(xs: seq<ToolCall>, ys: seq<ToolCall>) {
    |xs| == |ys| && forall k :: 0 <= k < |xs| ==> SameCall(xs[k], ys[k])
  }

  /** The same message, now or as it was before a restart. */
  predicate CameFrom(x: Message, y: Message) {
    x.(toolCalls := []) == y.(toolCalls := []) && SameCalls(x.toolCalls, y.toolCalls)
  }

  predicate InBase(base: seq<Message>, x: Message) { exists y :: y in base && CameFrom(x, y) }

  // ----- What a step receives -----

  predicate AnswerAt(c: Core, i: Input) { c.pc.AwaitProvider? && !i.taskCancelled && i.provider.Answered? }

  predicate ResultAt(c: Core, i: Input) { c.pc.Settle? && !i.taskCancelled }

  predicate IsAnswer(x: Message, a: ProviderOutcome)
    requires a.Answered?
  {
    && x.role == "assistant" && x.content == a.content && x.reasoning == a.reasoning && SameCalls(x.toolCalls, a.calls)
    && x.toolCallId == None && x.toolName == None && x.metadata == map[]
  }

  /** The result says success only if the executor started and succeeded. */
  predicate IsResult(x: Message, call: ToolCall, started: bool, t: ToolOutcome) {
    && x.role == "tool" && x.content == t.content && x.toolCallId == Some(call.id) && x.toolName == Some(call.name)
    && x.toolCalls == [] && "status" in x.metadata
    && x.metadata["status"] == JStr(if started && t.success then "success" else "error")
  }

  predicate IsNote(x: Message, text: string) { x.role == "user" && x.content == text && x.toolCalls == [] && x.toolCallId == None }

  /** The message is what this step got from the provider, a tool, the guard or the mailbox. */
  predicate Brings(c: Core, i: Input, x: Message) {
    || (AnswerAt(c, i) && IsAnswer(x, i.provider))
    || (ResultAt(c, i) && IsResult(x, c.pc.call, c.pc.started, i.tool))
    || (c.pc.Dispatch? && i.guard.Some? && IsNote(x, i.guard.value))
    || ((c.pc.LoopTop? || c.pc.Settled?) && exists k :: 0 <= k < |i.mail| && IsNote(x, "父 Agent 追加指令：\n" + i.mail[k]))
  }

  /** The message was in the history when the turn began, or some step of the run brought it. */
  predicate Origin(cfg: Config, m: Machine, events: seq<Event>, x: Message) {
    if events == [] then InBase(m.core.st.messages, x)
    else
      var n := |events| - 1;
      || Origin(cfg, m, events[..n], x)
      || (events[n].Tick? && Brings(Run(cfg, m, events[..n]).core, events[n].input, x))
  }

  predicate AllOrigin(cfg: Config, m: Machine, events: seq<Event>, ms: seq<Message>) {
    forall x :: x in ms ==> Origin(cfg, m, events, x)
  }

  // ----- Steps only add what they bring -----

  predicate OnlyBrings(cfg: Config, c: Core, i: Input) {
    forall x :: x in Next(cfg, c, i).core.st.messages ==> x in c.st.messages || Brings(c, i, x)
  }

  lemma SameCallsSelf(cs: seq<ToolCall>)
    ensures SameCalls(cs, cs)
  {
  }

  lemma MailBrings(c: Core, i: Input, st: RunState)
    requires (c.pc.LoopTop? || c.pc.Settled?) && st.messages == c.st.messages
    ensures forall x :: x in Drain(st, i).messages ==> x in c.st.messages || Brings(c, i, x)
  {
    var mail := MailMessages(i.mail, i.newId);
    forall x | x in Drain(st, i).messages && x !in c.st.messages
      ensures Brings(c, i, x)
    {
      var k :| 0 <= k < |mail| && mail[k] == x;
      assert IsNote(x, "父 Agent 追加指令：\n" + i.mail[k]);
    }
  }

  lemma PassBrings(cfg: Config, c: Core, i: Input)
    requires c.pc.LoopTop? || c.pc.Settled?
    ensures OnlyBrings(cfg, c, i)
  {
    if c.pc.LoopTop? {
      MailBrings(c, i, Observe(c.st, i));
    } else {
      MailBrings(c, i, c.st);
    }
    PassMessages(cfg, c, i);
  }

  lemma PassMessages(cfg: Config, c: Core, i: Input)
    requires c.pc.LoopTop? || c.pc.Settled?
    ensures var ms := Next(cfg, c, i).core.st.messages; ms == c.st.messages || ms == Drain(c.st, i).messages
  {
  }

  lemma AnswerBrings(cfg: Config, c: Core, i: Input)
    requires c.pc.AwaitProvider?
    ensures OnlyBrings(cfg, c, i)
    ensures AnswerAt(c, i) ==> exists x :: x in Next(cfg, c, i).core.st.messages && Brings(c, i, x)
  {
    if AnswerAt(c, i) {
      var x := AssistantMessage(i.provider, i.newId);
      SameCallsSelf(i.provider.calls);
      assert Next(cfg, c, i).core.st.messages == c.st.messages + [x];
      assert Brings(c, i, x);
    }
  }

  lemma ResultBrings(cfg: Config, c: Core, i: Input)
    requires c.pc.Settle?
    ensures OnlyBrings(cfg, c, i)
    ensures ResultAt(c, i) ==> exists x :: x in Next(cfg, c, i).core.st.messages && Brings(c, i, x)
  {
    if ResultAt(c, i) {
      var x := ToolMessage(c.pc.call, c.pc.started, i.tool, i.newId);
      assert Next(cfg, c, i).core.st.messages == c.st.messages + [x];
      assert Brings(c, i, x);
    }
  }

  lemma ResponseBrings(cfg: Config, c: Core, i: Input)
    requires c.pc.Dispatch?
    ensures OnlyBrings(cfg, c, i)
  {
    if i.guard.Some? {
      assert Brings(c, i, UserMessage(i.guard.value, i.newId));
    }
    ResponseMessages(c, i);
  }

  lemma ResponseMessages(c: Core, i: Input)
    requires c.pc.Dispatch?
    ensures var ms := NextResponse(c, i).core.st.messages;
            ms == c.st.messages || (i.guard.Some? && ms == c.st.messages + [UserMessage(i.guard.value, i.newId)])
  {
  }

  lemma QuietBrings(cfg: Config, c: Core, i: Input)
    requires !c.pc.LoopTop? && !c.pc.Settled? && !c.pc.AwaitProvider? && !c.pc.Settle? && !c.pc.Dispatch?
    ensures Next(cfg, c, i).core.st.messages == c.st.messages
  {
    if c.pc.Execute? || c.pc.NextCall? {
      ToolMessages(cfg, c, i);
    }
  }

  lemma ToolMessages(cfg: Config, c: Core, i: Input)
    requires c.pc.Execute? || c.pc.NextCall?
    ensures Next(cfg, c, i).core.st.messages == c.st.messages
  {
  }

  lemma StepBrings(cfg: Config, c: Core, i: Input)
    ensures OnlyBrings(cfg, c, i)
    ensures AnswerAt(c, i) || ResultAt(c, i) ==> exists x :: x in Next(cfg, c, i).core.st.messages && Brings(c, i, x)
  {
    match c.pc
    case LoopTop => PassBrings(cfg, c, i);
    case Settled(_, _, _, _) => PassBrings(cfg, c, i);
    case AwaitProvider => AnswerBrings(cfg, c, i);
    case Settle(_, _, _) => ResultBrings(cfg, c, i);
    case Dispatch => ResponseBrings(cfg, c, i);
    case _ => QuietBrings(cfg, c, i);
  }

  // ----- Restoring keeps origins -----

  lemma SameCallsBack(xs: seq<ToolCall>, ys: seq<ToolCall>, zs: seq<ToolCall>)
    requires SameCalls(ys, zs) && |xs| == |ys| && forall k :: 0 <= k < |xs| ==> RestorableCall(ys[k]) && xs[k] == CallBack(ys[k])
    ensures SameCalls(xs, zs)
  {
    forall k | 0 <= k < |xs|
      ensures SameCall(xs[k], zs[k])
    {
      assert SameCall(ys[k], zs[k]);
    }
  }

  /** What comes back of a message. */
  predicate Back(x: Message, y: Message) {
    && x.(toolCalls := []) == y.(toolCalls := []) && |x.toolCalls| == |y.toolCalls|
    && forall k :: 0 <= k < |x.toolCalls| ==> RestorableCall(y.toolCalls[k]) && x.toolCalls[k] == CallBack(y.toolCalls[k])
  }

  lemma BringsBack(c: Core, i: Input, x: Message, y: Message)
    requires Brings(c, i, y) && Back(x, y)
    ensures Brings(c, i, x)
  {
    if AnswerAt(c, i) {
      SameCallsBack(x.toolCalls, y.toolCalls, i.provider.calls);
    } else if y.toolCalls == [] {
      assert x.(toolCalls := []) == x;
      assert y.(toolCalls := []) == y;
    }
  }

  lemma BaseBack(base: seq<Message>, x: Message, y: Message)
    requires InBase(base, y) && Back(x, y)
    ensures InBase(base, x)
  {
    var z :| z in base && CameFrom(y, z);
    SameCallsBack(x.toolCalls, y.toolCalls, z.toolCalls);
    assert CameFrom(x, z);
  }

  lemma {:induction false} OriginBack(cfg: Config, m: Machine, events: seq<Event>, x: Message, y: Message)
    requires Origin(cfg, m, events, y) && Back(x, y)
    ensures Origin(cfg, m, events, x)
  {
    if events == [] {
      BaseBack(m.core.st.messages, x, y);
    } else {
      var n := |events| - 1;
      if Origin(cfg, m, events[..n], y) {
        OriginBack(cfg, m, events[..n], x, y);
      } else {
        BringsBack(Run(cfg, m, events[..n]).core, events[n].input, x, y);
      }
    }
  }

  /** A restored history is the checkpointed one, message by message. */
  lemma HistoryBack(st: RunState)
    requires Restore(Serialize(st)).Some?
    ensures var back := Restore(Serialize(st)).value.messages;
            |back| == |st.messages| && forall k :: 0 <= k < |back| ==> Back(back[k], st.messages[k])
  {
    StateRoundTrip(st);
    MessagesRoundTrip(st.messages);
    var back := Restore(Serialize(st)).value.messages;
    forall k | 0 <= k < |back|
      ensures Back(back[k], st.messages[k])
    {
      assert st.messages[k] in st.messages;
      MessageBack(st.messages[k], back[k]);
    }
  }

  lemma MessageBack(y: Message, x: Message)
    requires RestoreMessage(SerializeMessage(y)) == Some(x)
    ensures Back(x, y)
  {
    MessageRoundTrip(y);
    forall k | 0 <= k < |y.toolCalls|
      ensures RestorableCall(y.toolCalls[k])
    {
      assert y.toolCalls[k] in y.toolCalls;
    }
  }

  lemma AllOriginBack(cfg: Config, m: Machine, events: seq<Event>, st: RunState)
    requires AllOrigin(cfg, m, events, st.messages) && Restore(Serialize(st)).Some?
    ensures AllOrigin(cfg, m, events, Restore(Serialize(st)).value.messages)
  {
    HistoryBack(st);
    var back := Restore(Serialize(st)).value.messages;
    forall x | x in back
      ensures Origin(cfg, m, events, x)
    {
      var k :| 0 <= k < |back| && back[k] == x;
      OriginBack(cfg, m, events, x, st.messages[k]);
    }
  }

  // ----- Nothing is invented -----

  lemma Before(cfg: Config, m: Machine, events: seq<Event>, ms: seq<Message>)
    requires events != [] && AllOrigin(cfg, m, events[..|events| - 1], ms)
    ensures AllOrigin(cfg, m, events, ms)
  {
  }

  lemma CrashMessages(p: Machine)
    ensures var n := Crash(p);
            && n.log == p.log
            && (n.core.st.messages == p.core.st.messages
                || (p.log != [] && Restore(Serialize(Latest(p.log).state)).Some?
                    && n.core.st.messages == Restore(Serialize(Latest(p.log).state)).value.messages))
  {
  }

  lemma StepLog(cfg: Config, p: Machine, i: Input)
    ensures var n := Step(cfg, p, i);
            && n.core == Next(cfg, p.core, i).core
            && (n.log == p.log || (n.log != [] && Latest(n.log).state == n.core.st))
            && (Next(cfg, p.core, i).commit.Some? ==> n.log != [] && Latest(n.log).state == n.core.st)
  {
  }

  ghost predicate Accounted(cfg: Config, m: Machine, events: seq<Event>, p: Machine) {
    AllOrigin(cfg, m, events, p.core.st.messages) && (p.log != [] ==> AllOrigin(cfg, m, events, Latest(p.log).state.messages))
  }

  lemma TickAccounted(cfg: Config, m: Machine, events: seq<Event>, p: Machine)
    requires events != [] && events[|events| - 1].Tick? && p == Run(cfg, m, events[..|events| - 1])
    requires Accounted(cfg, m, events[..|events| - 1], p)
    ensures Accounted(cfg, m, events, Step(cfg, p, events[|events| - 1].input))
  {
    var i := events[|events| - 1].input;
    StepBrings(cfg, p.core, i);
    StepLog(cfg, p, i);
    Before(cfg, m, events, p.core.st.messages);
    if p.log != [] {
      Before(cfg, m, events, Latest(p.log).state.messages);
    }
    forall x | x in Next(cfg, p.core, i).core.st.messages
      ensures Origin(cfg, m, events, x)
    {
    }
  }

  lemma CrashAccounted(cfg: Config, m: Machine, events: seq<Event>, p: Machine)
    requires events != [] && Accounted(cfg, m, events[..|events| - 1], p)
    ensures Accounted(cfg, m, events, Crash(p))
  {
    CrashMessages(p);
    Before(cfg, m, events, p.core.st.messages);
    if p.log != [] {
      Before(cfg, m, events, Latest(p.log).state.messages);
      if Restore(Serialize(Latest(p.log).state)).Some? {
        AllOriginBack(cfg, m, events, Latest(p.log).state);
      }
    }
  }

  lemma BaseAccounted(cfg: Config, m: Machine)
    requires m.log == []
    ensures Accounted(cfg, m, [], m)
  {
    forall x | x in m.core.st.messages
      ensures Origin(cfg, m, [], x)
    {
      SameCallsSelf(x.toolCalls);
      assert CameFrom(x, x);
    }
  }

  /**
   * Nothing in a turn's history is invented: in every reachable state each message was there when the turn
   * began, or is word for word what the provider answered, what a tool returned (marked as a success only if
   * its executor started and succeeded), the guard's repair message, or a message of the mailbox.
   */
  lemma {:induction false} HistoryIsAccounted(cfg: Config, m: Machine, events: seq<Event>)
    requires Fresh(m)
    ensures Accounted(cfg, m, events, Run(cfg, m, events))
  {
    if events == [] {
      BaseAccounted(cfg, m);
    } else {
      var n := |events| - 1;
      HistoryIsAccounted(cfg, m, events[..n]);
      var p := Run(cfg, m, events[..n]);
      match events[n]
      case Tick(i) => TickAccounted(cfg, m, events, p);
      case Restart => CrashAccounted(cfg, m, events, p);
    }
  }

  // ----- Nothing is lost -----

  /** Every answer and every result of the run is among the messages. */
  ghost predicate AllReceived(cfg: Config, m: Machine, events: seq<Event>, ms: seq<Message>) {
    events == [] ||
      var n := |events| - 1;
      && AllReceived(cfg, m, events[..n], ms)
      && (events[n].Tick? ==> HasReceived(Run(cfg, m, events[..n]).core, events[n].input, ms))
  }

  ghost predicate HasReceived(c: Core, i: Input, ms: seq<Message>) {
    AnswerAt(c, i) || ResultAt(c, i) ==> exists x :: x in ms && Brings(c, i, x)
  }

  /** Each message of the first history is in the second, as it is or as it comes back. */
  ghost predicate Carried(ms: seq<Message>, ns: seq<Message>) {
    forall y :: y in ms ==> exists x :: x in ns && (x == y || Back(x, y))
  }

  lemma ReceivedCarried(c: Core, i: Input, ms: seq<Message>, ns: seq<Message>)
    requires HasReceived(c, i, ms) && Carried(ms, ns)
    ensures HasReceived(c, i, ns)
  {
    if AnswerAt(c, i) || ResultAt(c, i) {
      var y :| y in ms && Brings(c, i, y);
      var x :| x in ns && (x == y || Back(x, y));
      if x != y {
        BringsBack(c, i, x, y);
      }
    }
  }

  lemma {:induction false} AllCarried(cfg: Config, m: Machine, events: seq<Event>, ms: seq<Message>, ns: seq<Message>)
    requires AllReceived(cfg, m, events, ms) && Carried(ms, ns)
    ensures AllReceived(cfg, m, events, ns)
  {
    if events != [] {
      var n := |events| - 1;
      AllCarried(cfg, m, events[..n], ms, ns);
      if events[n].Tick? {
        ReceivedCarried(Run(cfg, m, events[..n]).core, events[n].input, ms, ns);
      }
    }
  }

  function Saved(p: Machine): seq<Message> { if p.log == [] then [] else Latest(p.log).state.messages }

  ghost predicate Complete(cfg: Config, m: Machine, events: seq<Event>, p: Machine) {
    AllReceived(cfg, m, events, p.core.st.messages) && AllReceived(cfg, m, events, Saved(p))
  }

  lemma StepKeeps(cfg: Config, c: Core, i: Input)
    ensures Carried(c.st.messages, Next(cfg, c, i).core.st.messages)
  {
    if c.pc.LoopTop? || c.pc.Settled? {
      PassMessages(cfg, c, i);
    } else if c.pc.AwaitProvider? || c.pc.Settle? {
      ReceiptMessages(cfg, c, i);
    } else if c.pc.Dispatch? {
      ResponseMessages(c, i);
    } else {
      QuietBrings(cfg, c, i);
    }
    CarriedPrefix(c.st.messages, Next(cfg, c, i).core.st.messages);
  }

  lemma CarriedPrefix(ms: seq<Message>, ns: seq<Message>)
    requires ms <= ns
    ensures Carried(ms, ns)
  {
    assert forall y :: y in ms ==> y in ns;
  }

  lemma ReceiptMessages(cfg: Config, c: Core, i: Input)
    requires c.pc.AwaitProvider? || c.pc.Settle?
    ensures c.st.messages <= Next(cfg, c, i).core.st.messages
    ensures AnswerAt(c, i) || ResultAt(c, i) ==> Next(cfg, c, i).commit.Some?
  {
  }

  lemma TickComplete(cfg: Config, m: Machine, events: seq<Event>, p: Machine)
    requires events != [] && events[|events| - 1].Tick? && p == Run(cfg, m, events[..|events| - 1])
    requires Complete(cfg, m, events[..|events| - 1], p)
    ensures Complete(cfg, m, events, Step(cfg, p, events[|events| - 1].input))
  {
    var n, i := |events| - 1, events[|events| - 1].input;
    var next := Next(cfg, p.core, i).core;
    StepBrings(cfg, p.core, i);
    StepLog(cfg, p, i);
    StepKeeps(cfg, p.core, i);
    AllCarried(cfg, m, events[..n], p.core.st.messages, next.st.messages);
    if AnswerAt(p.core, i) || ResultAt(p.core, i) {
      ReceiptMessages(cfg, p.core, i);
    }
  }

  lemma CrashComplete(cfg: Config, m: Machine, events: seq<Event>, p: Machine)
    requires events != [] && events[|events| - 1].Restart? && Complete(cfg, m, events[..|events| - 1], p)
    ensures Complete(cfg, m, events, Crash(p))
  {
    CrashMessages(p);
    if p.log != [] && Restore(Serialize(Latest(p.log).state)).Some? {
      var st := Latest(p.log).state;
      HistoryBack(st);
      CarriedBack(st.messages, Restore(Serialize(st)).value.messages);
      AllCarried(cfg, m, events[..|events| - 1], st.messages, Restore(Serialize(st)).value.messages);
    }
  }

  lemma CarriedBack(ms: seq<Message>, back: seq<Message>)
    requires |back| == |ms| && forall k :: 0 <= k < |back| ==> Back(back[k], ms[k])
    ensures Carried(ms, back)
  {
    forall y | y in ms
      ensures exists x :: x in back && (x == y || Back(x, y))
    {
      var k :| 0 <= k < |ms| && ms[k] == y;
      assert back[k] in back;
    }
  }

  /**
   * Nothing the turn has received is lost: after any crashes and resumes every answer of the provider and every
   * result of a tool is in the history, and in the newest checkpoint.
   */
  lemma {:induction false} NothingReceivedIsLost(cfg: Config, m: Machine, events: seq<Event>)
    requires Fresh(m)
    ensures Complete(cfg, m, events, Run(cfg, m, events))
  {
    if events != [] {
      var n := |events| - 1;
      NothingReceivedIsLost(cfg, m, events[..n]);
      var p := Run(cfg, m, events[..n]);
      match events[n]
      case Tick(i) => TickComplete(cfg, m, events, p);
      case Restart => CrashComplete(cfg, m, events, p);
    }
  }

  // ----- Results of calls that never started -----

  /** An executor that is being waited for has started. */
  predicate Waited(p: Machine) { p.core.pc.Settle? && p.core.pc.started ==> p.starts[p.core.pc.call.id] > 0 }

  lemma HappenWaited(cfg: Config, p: Machine, e: Event)
    ensures Waited(Happen(cfg, p, e)) || p.core.pc.Stopped?
    ensures p.core.pc.Stopped? && Waited(p) ==> Waited(Happen(cfg, p, e))
    ensures p.starts <= Happen(cfg, p, e).starts
  {
    if e.Tick? {
      if p.core.pc.LoopTop? || p.core.pc.Dispatch? || p.core.pc.NextCall? || p.core.pc.Settled? {
        PassStarts(cfg, p.core, e.input);
        PassWaits(cfg, p.core, e.input);
      } else if !p.core.pc.Execute? && !p.core.pc.Approved? {
        ElsewhereStarts(cfg, p, e.input);
        ElsewhereWaits(cfg, p.core, e.input);
      }
    }
  }

  lemma ElsewhereWaits(cfg: Config, c: Core, i: Input)
    requires !c.pc.Execute? && !c.pc.Approved? && !c.pc.LoopTop? && !c.pc.Dispatch? && !c.pc.NextCall? && !c.pc.Settled?
    ensures !Next(cfg, c, i).core.pc.Settle?
  {
  }

  lemma PassWaits(cfg: Config, c: Core, i: Input)
    requires c.pc.LoopTop? || c.pc.Dispatch? || c.pc.NextCall? || c.pc.Settled?
    ensures !Next(cfg, c, i).core.pc.Settle?
  {
  }

  lemma {:induction false} RunWaited(cfg: Config, m: Machine, events: seq<Event>)
    requires Fresh(m)
    ensures Waited(Run(cfg, m, events))
  {
    if events != [] {
      var n := |events| - 1;
      RunWaited(cfg, m, events[..n]);
      HappenWaited(cfg, Run(cfg, m, events[..n]), events[n]);
    }
  }

  predicate Says(x: Message, id: string, status: string) {
    x.toolCallId == Some(id) && "status" in x.metadata && x.metadata["status"] == JStr(status)
  }

  /** A result that some step of the run brought says error, or says success of a call that has started. */
  lemma {:induction false} ResultsAreHonest(cfg: Config, m: Machine, events: seq<Event>, x: Message, id: string)
    requires Fresh(m) && Origin(cfg, m, events, x) && x.role == "tool" && x.toolCallId == Some(id)
    ensures || InBase(m.core.st.messages, x) || Says(x, id, "error")
            || (Says(x, id, "success") && Run(cfg, m, events).starts[id] > 0)
  {
    if events != [] {
      var n := |events| - 1;
      var p := Run(cfg, m, events[..n]);
      HappenWaited(cfg, p, events[n]);
      if Origin(cfg, m, events[..n], x) {
        ResultsAreHonest(cfg, m, events[..n], x, id);
      } else {
        RunWaited(cfg, m, events[..n]);
        BroughtIsHonest(p, events[n].input, x, id);
      }
    }
  }

  lemma BroughtIsHonest(p: Machine, i: Input, x: Message, id: string)
    requires Waited(p) && Brings(p.core, i, x) && x.role == "tool" && x.toolCallId == Some(id)
    ensures Says(x, id, "error") || (Says(x, id, "success") && p.starts[id] > 0)
  {
  }

  /**
   * The model is told about a denial: a call that the permission check never allows, and whose only recorded
   * answers are denials, never starts, and whatever result the turn has recorded for it says error.
   */
  lemma DeniedCallReportsError(cfg: Config, m: Machine, events: seq<Event>, id: string)
    requires Fresh(m) && !AllowedIn(cfg, m, events, id)
    requires var approvals := Run(cfg, m, events).core.approvals;
             forall key: ApprovalKey :: key in approvals && key.id == id ==> approvals[key] != Allowed
    ensures var n := Run(cfg, m, events);
            && n.starts[id] == 0
            && forall x :: x in n.core.st.messages && x.role == "tool" && x.toolCallId == Some(id) ==>
                 InBase(m.core.st.messages, x) || Says(x, id, "error")
  {
    DeniedCallNeverStarts(cfg, m, events, id);
    HistoryIsAccounted(cfg, m, events);
    var n := Run(cfg, m, events);
    forall x | x in n.core.st.messages && x.role == "tool" && x.toolCallId == Some(id)
      ensures InBase(m.core.st.messages, x) || Says(x, id, "error")
    {
      ResultsAreHonest(cfg, m, events, x, id);
    }
  }
}
