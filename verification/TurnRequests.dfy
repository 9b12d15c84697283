/**
 * What the provider is asked with: a history in which every tool call has its result, to which everything that
 * arrived has been added.
 */
module TurnRequests {
  import opened Messages
  import opened RunStates
  import opened Recovery
  import opened TurnMachine
  import opened TurnSafety
  import opened TurnTranscript
  import opened TurnFailures

  // ----- Calls without a result -----

  function Ids(calls: seq<ToolCall>): set<string> { set c | c in calls :: c.id }

  function NewestIds(ms: seq<Message>): set<string> {
    if LastAssistant(ms).Some? then Ids(LastAssistant(ms).value.toolCalls) else {}
  }

  /** Every call of every response has its result, or is among these. */
  predicate Owed(ms: seq<Message>, open: set<string>) {
    forall x :: x in ms && x.role == "assistant" ==> CallsMet(x, CompletedIds(ms), open)
  }

  predicate CallsMet(x: Message, done: set<Option<string>>, open: set<string>) {
    forall c :: c in x.toolCalls ==> Some(c.id) in done || c.id in open
  }

  lemma OwedMore(ms: seq<Message>, open: set<string>, more: set<string>)
    requires Owed(ms, open) && open <= more
    ensures Owed(ms, more)
  {
    forall x | x in ms && x.role == "assistant"
      ensures CallsMet(x, CompletedIds(ms), more)
    {
      assert CallsMet(x, CompletedIds(ms), open);
    }
  }

  lemma OwedTail(ms: seq<Message>, tail: seq<Message>, open: set<string>)
    requires Owed(ms, open) && forall k :: 0 <= k < |tail| ==> tail[k].role == "user"
    ensures Owed(ms + tail, open) && NewestIds(ms + tail) == NewestIds(ms)
  {
    UserTailKeeps(ms, tail);
    forall x | x in ms + tail && x.role == "assistant"
      ensures CallsMet(x, CompletedIds(ms), open)
    {
      assert x in ms;
    }
  }

  lemma OwedAnswer(ms: seq<Message>, x: Message)
    requires Owed(ms, {}) && x.role == "assistant"
    ensures NewestIds(ms + [x]) == Ids(x.toolCalls) && Owed(ms + [x], Ids(x.toolCalls))
  {
    CompletedAppend(ms, x);
    LastAssistantAppend(ms, x);
    forall y | y in ms + [x] && y.role == "assistant"
      ensures CallsMet(y, CompletedIds(ms + [x]), Ids(x.toolCalls))
    {
      if y in ms {
        assert CallsMet(y, CompletedIds(ms), {});
      }
    }
  }

  lemma OwedResult(ms: seq<Message>, x: Message, id: string, rest: set<string>)
    requires Owed(ms, {id} + rest) && x.role == "tool" && x.toolCallId == Some(id)
    ensures NewestIds(ms + [x]) == NewestIds(ms) && Owed(ms + [x], rest)
  {
    CompletedAppend(ms, x);
    LastAssistantAppend(ms, x);
    forall y | y in ms + [x] && y.role == "assistant"
      ensures CallsMet(y, CompletedIds(ms + [x]), rest)
    {
      assert y in ms;
      assert CallsMet(y, CompletedIds(ms), {id} + rest);
    }
  }

  lemma {:induction false} PendingHas(calls: seq<ToolCall>, done: set<Option<string>>, c: ToolCall)
    requires c in calls && Some(c.id) !in done
    ensures c in Pending(calls, done)
  {
    if calls[0] != c {
      PendingHas(calls[1..], done, c);
    }
  }

  lemma OwedPending(ms: seq<Message>)
    requires LastAssistant(ms).Some? && Owed(ms, NewestIds(ms))
    ensures var open := Ids(Pending(LastAssistant(ms).value.toolCalls, CompletedIds(ms)));
            Owed(ms, open) && open <= NewestIds(ms)
  {
    var calls, done := LastAssistant(ms).value.toolCalls, CompletedIds(ms);
    var open := Ids(Pending(calls, done));
    forall id | id in NewestIds(ms) && Some(id) !in done
      ensures id in open
    {
      var c :| c in calls && c.id == id;
      PendingHas(calls, done, c);
    }
    forall x | x in ms && x.role == "assistant"
      ensures CallsMet(x, done, open)
    {
      assert CallsMet(x, done, NewestIds(ms));
    }
  }

  lemma BackIds(xs: seq<ToolCall>, ys: seq<ToolCall>)
    requires |xs| == |ys| && forall k :: 0 <= k < |xs| ==> xs[k].id == ys[k].id
    ensures Ids(xs) == Ids(ys)
  {
    forall id
      ensures id in Ids(xs) <==> id in Ids(ys)
    {
      if id in Ids(xs) {
        var k :| 0 <= k < |xs| && xs[k].id == id;
        assert ys[k] in ys;
      }
      if id in Ids(ys) {
        var k :| 0 <= k < |ys| && ys[k].id == id;
        assert xs[k] in xs;
      }
    }
  }

  lemma OwedBack(st: RunState, open: set<string>)
    requires Restore(Serialize(st)).Some? && Owed(st.messages, open)
    ensures var back := Restore(Serialize(st)).value.messages;
            Owed(back, open) && NewestIds(back) == NewestIds(st.messages)
  {
    HistoryBack(st);
    RestoredKeeps(st);
    var ms, back := st.messages, Restore(Serialize(st)).value.messages;
    forall x | x in back && x.role == "assistant"
      ensures CallsMet(x, CompletedIds(back), open)
    {
      var k :| 0 <= k < |back| && back[k] == x;
      assert Back(back[k], ms[k]);
      SameRole(back[k], ms[k]);
      assert CallsMet(ms[k], CompletedIds(ms), open);
      BackMet(back[k], ms[k], CompletedIds(ms), open);
    }
    if LastAssistant(ms).Some? {
      BackIds(LastAssistant(back).value.toolCalls, LastAssistant(ms).value.toolCalls);
    }
  }

  lemma SameRole(x: Message, y: Message)
    requires Back(x, y)
    ensures x.role == y.role
  {
    assert x.(toolCalls := []).role == y.(toolCalls := []).role;
  }

  lemma BackMet(x: Message, y: Message, done: set<Option<string>>, open: set<string>)
    requires Back(x, y) && CallsMet(y, done, open)
    ensures CallsMet(x, done, open)
  {
    forall c | c in x.toolCalls
      ensures Some(c.id) in done || c.id in open
    {
      var k :| 0 <= k < |x.toolCalls| && x.toolCalls[k] == c;
      assert y.toolCalls[k] in y.toolCalls && y.toolCalls[k].id == c.id;
    }
  }

  // ----- The loop pays what it owes before it asks again -----

  predicate Stands(c: Core, open: set<string>) {
    !Continuing(c.resume) && Owed(c.st.messages, open) && open <= NewestIds(c.st.messages)
  }

  predicate Sound(c: Core) {
    match c.pc
    case Entry => c.resume == Some(BeforeFinalize) || Owed(c.st.messages, if Continuing(c.resume) then NewestIds(c.st.messages) else {})
    case LoopTop => Owed(c.st.messages, if Continuing(c.resume) then NewestIds(c.st.messages) else {})
    case Build => Stands(c, {})
    case CallProvider => Stands(c, {})
    case AwaitProvider => Stands(c, {})
    case Dispatch => Stands(c, NewestIds(c.st.messages))
    case NextCall(pending) => Stands(c, Ids(pending))
    case Settled(_, rest, _, _) => Stands(c, Ids(rest))
    case _ => InCall(c.pc) ==> Stands(c, {c.pc.call.id} + Ids(c.pc.rest))
  }

  predicate InCall(pc: Pc) {
    pc.Prepare? || pc.Execute? || pc.AwaitApproval? || pc.Decided? || pc.Approved? || pc.Settle?
  }

  /** What a row promises to the process that resumes from it. */
  predicate RowSound(point: ResumePoint, ms: seq<Message>) {
    && (point == BeforeModel || point == ModelInFlight ==> Owed(ms, {}))
    && (point == AfterModel || point == WaitingApproval || point == BeforeTool || point == AfterTool ==> Owed(ms, NewestIds(ms)))
  }

  predicate Fits(o: Output) { Sound(o.core) && (o.commit.Some? ==> RowSound(o.commit.value.point, o.core.st.messages)) }

  lemma PassFits(cfg: Config, c: Core, i: Input)
    requires Sound(c) && c.pc.LoopTop?
    ensures Fits(NextPass(cfg, c, i))
  {
    var mail := MailMessages(i.mail, i.newId);
    OwedTail(c.st.messages, mail, if Continuing(c.resume) then NewestIds(c.st.messages) else {});
    PassParts(cfg, c, i);
  }

  lemma PassParts(cfg: Config, c: Core, i: Input)
    requires c.pc.LoopTop?
    ensures var o := NextPass(cfg, c, i);
            || (o.core.pc.Raising? && o.commit.None?)
            || (o.core.st.messages == c.st.messages + MailMessages(i.mail, i.newId)
                && if Continuing(c.resume) then o.core.pc.Dispatch? && o.core.resume == None && o.commit.None?
                   else o.core.pc.Build? && o.core.resume == c.resume && o.commit.Some? && o.commit.value.point == BeforeModel)
  {
  }

  lemma ModelFits(cfg: Config, c: Core, i: Input)
    requires Sound(c) && c.pc in {Entry, Build, CallProvider, AwaitProvider}
    ensures Fits(Next(cfg, c, i))
  {
    if AnswerAt(c, i) {
      OwedAnswer(c.st.messages, AssistantMessage(i.provider, i.newId));
    }
  }

  lemma ResponseFits(c: Core, i: Input)
    requires Sound(c) && c.pc.Dispatch?
    ensures Fits(NextResponse(c, i))
  {
    var ms := c.st.messages;
    if LastAssistant(ms).Some? {
      if LastAssistant(ms).value.toolCalls != [] {
        OwedPending(ms);
      } else if i.guard.Some? {
        assert NewestIds(ms) == {};
        OwedTail(ms, [UserMessage(i.guard.value, i.newId)], {});
      }
    }
  }

  lemma FirstIds(pending: seq<ToolCall>)
    requires pending != []
    ensures Ids(pending) == {pending[0].id} + Ids(pending[1..])
  {
    assert forall c :: c in pending <==> c == pending[0] || c in pending[1..];
  }

  lemma NextCallFits(cfg: Config, c: Core, i: Input)
    requires Sound(c) && c.pc.NextCall?
    ensures Fits(Next(cfg, c, i))
  {
    if c.pc.pending != [] {
      FirstIds(c.pc.pending);
      OwedMore(c.st.messages, Ids(c.pc.pending), NewestIds(c.st.messages));
    } else {
      assert Ids(c.pc.pending) == {};
    }
  }

  lemma CallParts(cfg: Config, c: Core, i: Input)
    requires InCall(c.pc) && !c.pc.Settle?
    ensures var o := Next(cfg, c, i);
            && o.core.st.messages == c.st.messages
            && (o.core.pc.Stopped? || (InCall(o.core.pc) && o.core.resume == c.resume && o.core.pc.call == c.pc.call && o.core.pc.rest == c.pc.rest))
            && (o.commit.Some? ==> o.commit.value.point in {ToolInFlight, WaitingApproval, BeforeTool})
  {
  }

  lemma CallFits(cfg: Config, c: Core, i: Input)
    requires Sound(c) && InCall(c.pc) && !c.pc.Settle?
    ensures Fits(Next(cfg, c, i))
  {
    CallParts(cfg, c, i);
    OwedMore(c.st.messages, {c.pc.call.id} + Ids(c.pc.rest), NewestIds(c.st.messages));
  }

  lemma ResultFits(cfg: Config, c: Core, i: Input)
    requires Sound(c) && c.pc.Settle?
    ensures Fits(Next(cfg, c, i))
  {
    if !i.taskCancelled {
      var x := ToolMessage(c.pc.call, c.pc.started, i.tool, i.newId);
      OwedResult(c.st.messages, x, c.pc.call.id, Ids(c.pc.rest));
      OwedMore(c.st.messages + [x], Ids(c.pc.rest), NewestIds(c.st.messages));
    }
  }

  lemma SettledFits(cfg: Config, c: Core, i: Input)
    requires Sound(c) && c.pc.Settled?
    ensures Fits(Next(cfg, c, i))
  {
    OwedTail(c.st.messages, MailMessages(i.mail, i.newId), Ids(c.pc.rest));
  }

  lemma StepFits(cfg: Config, c: Core, i: Input)
    requires Sound(c)
    ensures Fits(Next(cfg, c, i))
  {
    match c.pc
    case LoopTop => PassFits(cfg, c, i);
    case Dispatch => ResponseFits(c, i);
    case NextCall(_) => NextCallFits(cfg, c, i);
    case Settle(_, _, _) => ResultFits(cfg, c, i);
    case Settled(_, _, _, _) => SettledFits(cfg, c, i);
    case Finishing =>
    case Raising(_) =>
    case Stopped(_) =>
    case _ =>
      if InCall(c.pc) {
        CallFits(cfg, c, i);
      } else {
        ModelFits(cfg, c, i);
      }
  }

  predicate Safe(m: Machine) {
    Sound(m.core) && (m.log != [] ==> RowSound(Latest(m.log).point, Latest(m.log).state.messages))
  }

  lemma ReopenParts(m: Machine)
    ensures var c := Crash(m).core;
            || c.pc.Stopped?
            || (c.pc == Entry && m.log != [] && c.resume == Some(Latest(m.log).point) && Resumable(Latest(m.log).point)
                && Restore(Serialize(Latest(m.log).state)) == Some(c.st))
  {
  }

  lemma ResumablePoints(point: ResumePoint)
    requires Resumable(point)
    ensures ContinuesPass(point) || point == BeforeModel || point == ModelInFlight || point == BeforeFinalize
  {
  }

  lemma EntryFits(c: Core, k: Checkpoint)
    requires c.pc == Entry && c.resume == Some(k.point) && Resumable(k.point) && Restore(Serialize(k.state)) == Some(c.st)
    requires RowSound(k.point, k.state.messages)
    ensures Sound(c)
  {
    ResumablePoints(k.point);
    if ContinuesPass(k.point) {
      OwedBack(k.state, NewestIds(k.state.messages));
    } else if k.point != BeforeFinalize {
      OwedBack(k.state, {});
    }
  }

  lemma CrashFits(m: Machine)
    requires Safe(m)
    ensures Safe(Crash(m))
  {
    ReopenParts(m);
    if Crash(m).core.pc == Entry {
      EntryFits(Crash(m).core, Latest(m.log));
    }
  }

  lemma StepRow(cfg: Config, m: Machine, i: Input)
    ensures var n, o := Step(cfg, m, i), Next(cfg, m.core, i);
            && n.core == o.core
            && (if o.commit.Some? then n.log != [] && Latest(n.log).point == o.commit.value.point && Latest(n.log).state == n.core.st
                else n.log == m.log)
  {
  }

  lemma {:induction false} RunFits(cfg: Config, m: Machine, events: seq<Event>)
    requires Fresh(m) && Owed(m.core.st.messages, {})
    ensures Safe(Run(cfg, m, events))
  {
    if events != [] {
      var n := |events| - 1;
      var p := Run(cfg, m, events[..n]);
      RunFits(cfg, m, events[..n]);
      match events[n]
      case Tick(i) =>
        StepFits(cfg, p.core, i);
        StepRow(cfg, p, i);
      case Restart => CrashFits(p);
    }
  }

  /** Every call of every response in the history has a result in it. */
  ghost predicate WellFormed(ms: seq<Message>) {
    forall x, c :: x in ms && x.role == "assistant" && c in x.toolCalls ==>
      exists y :: y in ms && y.role == "tool" && y.toolCallId == Some(c.id)
  }

  lemma {:induction false} ResultThere(ms: seq<Message>, id: Option<string>)
    ensures id in CompletedIds(ms) <==> exists y :: y in ms && y.role == "tool" && y.toolCallId == id
  {
    if ms != [] {
      var n := |ms| - 1;
      ResultThere(ms[..n], id);
      assert ms == ms[..n] + [ms[n]];
    }
  }

  lemma OwedNothing(ms: seq<Message>)
    ensures Owed(ms, {}) <==> WellFormed(ms)
  {
    forall x, c | x in ms && x.role == "assistant" && c in x.toolCalls
      ensures Some(c.id) in CompletedIds(ms) <==> exists y :: y in ms && y.role == "tool" && y.toolCallId == Some(c.id)
    {
      ResultThere(ms, Some(c.id));
    }
    if WellFormed(ms) {
      forall x | x in ms && x.role == "assistant"
        ensures CallsMet(x, CompletedIds(ms), {})
      {
      }
    }
  }

  /**
   * The provider is never asked with a call left open: over any run with crashes and resumes, whenever a request
   * leaves, every tool call in the history has its result in the history.
   */
  lemma RequestsAreWellFormed(cfg: Config, m: Machine, events: seq<Event>, i: Input)
    requires Fresh(m) && WellFormed(m.core.st.messages)
    ensures Run(cfg, m, events + [Tick(i)]).providerCalls != Run(cfg, m, events).providerCalls ==>
              WellFormed(Run(cfg, m, events).core.st.messages)
  {
    var p := Run(cfg, m, events);
    OwedNothing(m.core.st.messages);
    RunFits(cfg, m, events);
    RunThen(cfg, m, events, Tick(i));
    OwedNothing(p.core.st.messages);
    if p.core.pc != CallProvider {
      AsksOnly(cfg, p.core, i);
    }
  }

  lemma AsksOnly(cfg: Config, c: Core, i: Input)
    requires c.pc != CallProvider
    ensures !Next(cfg, c, i).effect.ProviderCalled?
  {
  }

  // ----- What arrives is added -----

  lemma StepAppends(cfg: Config, c: Core, i: Input)
    ensures c.st.messages <= Next(cfg, c, i).core.st.messages
  {
    if c.pc.LoopTop? || c.pc.Settled? {
      PassMessages(cfg, c, i);
    } else if c.pc.AwaitProvider? || c.pc.Settle? {
      ReceiptMessages(cfg, c, i);
    } else if c.pc.Dispatch? {
      ResponseMessages(c, i);
    } else {
      QuietBrings(cfg, c, i);
    }
  }

  /** Within one process the history is only appended to. */
  lemma {:induction false} HistoryGrows(cfg: Config, m: Machine, events: seq<Event>)
    requires Restart !in events
    ensures m.core.st.messages <= Run(cfg, m, events).core.st.messages
  {
    if events != [] {
      var n := |events| - 1;
      assert events[n] in events && forall e :: e in events[..n] ==> e in events;
      HistoryGrows(cfg, m, events[..n]);
      StepAppends(cfg, Run(cfg, m, events[..n]).core, events[n].input);
    }
  }

  /** The steps that read the mailbox: the head of a pass that is not stopped there, and the end of every tool call. */
  predicate ReadsMail(cfg: Config, c: Core, i: Input) {
    || c.pc.Settled?
    || (c.pc.LoopTop? && !c.st.cancellationRequested && !i.cancelRequested && !i.overWallTime
        && (c.st.iteration < cfg.limits.maxIterations
            || (c.resume.Some? && c.resume.value in {AfterModel, WaitingApproval, BeforeTool, AfterTool})))
  }

  /** The step that holds a final text back and asks for a repair. */
  predicate HoldsBack(c: Core, i: Input) {
    && c.pc.Dispatch? && i.guard.Some? && LastAssistant(c.st.messages).Some?
    && LastAssistant(c.st.messages).value.toolCalls == [] && !Blank(LastAssistant(c.st.messages).value.content)
  }

  lemma MailArrives(cfg: Config, c: Core, i: Input)
    requires ReadsMail(cfg, c, i)
    ensures Next(cfg, c, i).core.st.messages == c.st.messages + MailMessages(i.mail, i.newId)
  {
  }

  lemma RepairArrives(cfg: Config, c: Core, i: Input)
    requires HoldsBack(c, i)
    ensures Next(cfg, c, i).core.st.messages == c.st.messages + [UserMessage(i.guard.value, i.newId)]
    ensures Next(cfg, c, i).core.pc == LoopTop
  {
    TrimBlank(LastAssistant(c.st.messages).value.content);
  }

  /**
   * What arrives is added behind the history and stays there as long as the process lives: the mailbox, message by
   * message and in order, at every step that reads it, and the repair message whenever a final text is held back.
   */
  lemma NotesAreDelivered(cfg: Config, m: Machine, i: Input, after: seq<Event>)
    requires Restart !in after
    ensures var before, now := m.core.st.messages, Run(cfg, Step(cfg, m, i), after).core.st.messages;
            && before <= now
            && (ReadsMail(cfg, m.core, i) ==>
                  |now| >= |before| + |i.mail| && forall k :: 0 <= k < |i.mail| ==> IsNote(now[|before| + k], "父 Agent 追加指令：\n" + i.mail[k]))
            && (HoldsBack(m.core, i) ==> |now| > |before| && IsNote(now[|before|], i.guard.value))
  {
    var s := Step(cfg, m, i);
    var next := Next(cfg, m.core, i).core.st.messages;
    StepRow(cfg, m, i);
    StepAppends(cfg, m.core, i);
    HistoryGrows(cfg, s, after);
    if ReadsMail(cfg, m.core, i) {
      MailArrives(cfg, m.core, i);
      MailStays(m.core.st.messages, i, next, Run(cfg, s, after).core.st.messages);
    }
    if HoldsBack(m.core, i) {
      RepairArrives(cfg, m.core, i);
      RepairStays(m.core.st.messages, UserMessage(i.guard.value, i.newId), next, Run(cfg, s, after).core.st.messages);
    }
  }

  lemma MailStays(before: seq<Message>, i: Input, next: seq<Message>, now: seq<Message>)
    requires next == before + MailMessages(i.mail, i.newId) && next <= now
    ensures |now| >= |before| + |i.mail| && forall k :: 0 <= k < |i.mail| ==> IsNote(now[|before| + k], "父 Agent 追加指令：\n" + i.mail[k])
  {
    forall k | 0 <= k < |i.mail|
      ensures now[|before| + k] == MailMessages(i.mail, i.newId)[k]
    {
      assert now[|before| + k] == next[|before| + k];
    }
  }

  lemma RepairStays(before: seq<Message>, x: Message, next: seq<Message>, now: seq<Message>)
    requires next == before + [x] && next <= now
    ensures |now| > |before| && now[|before|] == x
  {
    assert now[|before|] == next[|before|];
  }
}
