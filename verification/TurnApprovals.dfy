/** An approval interposes at most once per call, so no executor starts more than twice. */
module TurnApprovals {
  import opened Messages
  import opened RunStates
  import opened Recovery
  import opened TurnMachine
  import opened TurnSafety

  /** The calls of the newest response. */
  function Response(st: RunState): seq<ToolCall> {
    match LastAssistant(st.messages) { case None => [] case Some(m) => m.toolCalls }
  }

  ghost predicate Opened(calls: seq<ToolCall>, approvals: map<ApprovalKey, Decision>, id: string) {
    exists c :: c in calls && c.id == id && Key(c) in approvals
  }

  ghost predicate AtMostOne(boundaries: multiset<string>) { forall id :: boundaries[id] <= 1 }

  /** An approval that interposed belongs to a finished call, or to a call of the newest response with a recorded decision. */
  ghost predicate Tracked(boundaries: multiset<string>, approvals: map<ApprovalKey, Decision>, st: RunState) {
    forall id :: boundaries[id] > 0 && Some(id) !in Done(st) ==> Opened(Response(st), approvals, id)
  }

  /** Every approval that interposed belongs to a finished call. */
  ghost predicate AllFinished(boundaries: multiset<string>, st: RunState) {
    forall id :: boundaries[id] > 0 ==> Some(id) in Done(st)
  }

  ghost predicate OnRecord(log: seq<Checkpoint>, boundaries: multiset<string>, approvals: map<ApprovalKey, Decision>) {
    && AtMostOne(boundaries)
    && (forall k :: k in approvals ==> k.arguments != Text(""))
    && (log == [] ==> boundaries == multiset{})
    && (log != [] && ContinuesPass(Latest(log).point) ==> Tracked(boundaries, approvals, Latest(log).state))
    && (log != [] && Latest(log).point in {BeforeModel, ModelInFlight} ==> AllFinished(boundaries, Latest(log).state))
  }

  /** Points from which no approval can interpose before the turn ends. */
  predicate Ending(c: Core) {
    c.pc.Finishing? || c.pc.Raising? || c.pc.Stopped? || (c.pc.Entry? && c.resume == Some(BeforeFinalize))
  }

  predicate Covers(st: RunState, owed: seq<ToolCall>) {
    && (forall c :: c in owed ==> c in Response(st))
    && (forall c :: c in Response(st) ==> Some(c.id) in Done(st) || c in owed)
  }

  predicate InCalls(pc: Pc) { Owed(pc) != [] || pc.NextCall? || pc.Settled? }

  ghost predicate Ongoing(m: Machine) {
    && (NeedsResponse(m.core) ==> Tracked(m.boundaries, m.core.approvals, m.core.st))
    && (InCalls(m.core.pc) ==> Covers(m.core.st, Owed(m.core.pc)))
    && (!NeedsResponse(m.core) && !Ending(m.core) ==> AllFinished(m.boundaries, m.core.st))
    && (m.core.pc.AwaitApproval? || m.core.pc.Decided? ==>
          m.boundaries[m.core.pc.call.id] == 0 && m.core.pc.call.arguments != Text(""))
    && (m.core.pc.Decided? ==> Key(m.core.pc.call) in m.core.approvals)
  }

  ghost predicate Once(m: Machine) { OnRecord(m.log, m.boundaries, m.core.approvals) && Ongoing(m) }

  /** A step that keeps decisions and results and interposes nothing. */
  lemma SameTracking(m: Machine, o: Output)
    requires Once(m) && !o.effect.FreshApproval? && o.core.approvals == m.core.approvals
    requires Done(o.core.st) == Done(m.core.st) && Response(o.core.st) == Response(m.core.st)
    requires NeedsResponse(o.core) ==> NeedsResponse(m.core)
    requires !NeedsResponse(o.core) && !Ending(o.core) ==>
               (!NeedsResponse(m.core) && !Ending(m.core)) || AllFinished(m.boundaries, m.core.st)
    requires InCalls(o.core.pc) ==> Covers(m.core.st, Owed(o.core.pc))
    requires !o.core.pc.Decided?
    requires o.core.pc.AwaitApproval? ==> m.boundaries[o.core.pc.call.id] == 0 && o.core.pc.call.arguments != Text("")
    requires o.commit.Some? && ContinuesPass(o.commit.value.point) ==> NeedsResponse(m.core)
    requires o.commit.Some? && o.commit.value.point in {BeforeModel, ModelInFlight} ==> !NeedsResponse(o.core) && !Ending(o.core)
    ensures Once(Apply(m, o))
  {
  }

  lemma AllDone(m: Machine)
    requires NeedsResponse(m.core) && Tracked(m.boundaries, m.core.approvals, m.core.st)
    requires forall c :: c in Response(m.core.st) ==> Some(c.id) in Done(m.core.st)
    ensures AllFinished(m.boundaries, m.core.st)
  {
  }

  lemma EntryOnce(cfg: Config, m: Machine, i: Input)
    requires m.core.pc.Entry? || m.core.pc.Finishing? || m.core.pc.Raising?
    requires Once(m)
    ensures Once(Step(cfg, m, i))
  {
    SameTracking(m, Next(cfg, m.core, i));
  }

  lemma RequestOnce(cfg: Config, m: Machine, i: Input)
    requires m.core.pc.Build? || m.core.pc.CallProvider?
    requires Once(m)
    ensures Once(Step(cfg, m, i))
  {
    SameTracking(m, Next(cfg, m.core, i));
  }

  lemma PassOnce(cfg: Config, m: Machine, i: Input)
    requires m.core.pc.LoopTop?
    requires Once(m)
    ensures Once(Step(cfg, m, i))
  {
    PassKeeps(cfg, m.core, i);
    var o := NextPass(cfg, m.core, i);
    assert Next(cfg, m.core, i) == o;
    SameTracking(m, o);
  }

  lemma NewResponse(m: Machine, o: Output)
    requires Once(m) && !NeedsResponse(m.core) && !Ending(m.core) && o.effect == NoEffect
    requires o.core.pc.Dispatch? && o.core.approvals == m.core.approvals && Done(o.core.st) == Done(m.core.st)
    requires o.commit.Some? && o.commit.value.point == AfterModel
    ensures Once(Apply(m, o))
  {
  }

  lemma AnswerOnce(cfg: Config, m: Machine, i: Input)
    requires m.core.pc.AwaitProvider?
    requires Once(m)
    ensures Once(Step(cfg, m, i))
  {
    var o := NextAnswer(m.core, i);
    assert Next(cfg, m.core, i) == o;
    if !i.taskCancelled && i.provider.Answered? {
      CompletedAppend(m.core.st.messages, AssistantMessage(i.provider, i.newId));
      NewResponse(m, o);
    } else {
      EndsPass(m, o);
    }
  }

  /** A step that only raises or stops. */
  lemma EndsPass(m: Machine, o: Output)
    requires Once(m) && o.effect == NoEffect && o.commit.None? && o.core.approvals == m.core.approvals
    requires o.core.pc.Raising? || o.core.pc.Stopped?
    ensures Once(Apply(m, o))
  {
  }

  lemma PendingCovers(st: RunState)
    ensures Covers(st, Pending(Response(st), Done(st)))
  {
    PendingComplete(Response(st), Done(st));
  }

  lemma {:induction false} PendingComplete(calls: seq<ToolCall>, completed: set<Option<string>>)
    ensures forall c :: c in calls ==> Some(c.id) in completed || c in Pending(calls, completed)
  {
    if calls != [] {
      PendingComplete(calls[1..], completed);
      assert forall c :: c in calls <==> c == calls[0] || c in calls[1..];
    }
  }

  lemma ResponseOnce(cfg: Config, m: Machine, i: Input)
    requires m.core.pc.Dispatch? && DistinctResponse(m.core.st)
    requires Once(m)
    ensures Once(Step(cfg, m, i))
  {
    var o := NextResponse(m.core, i);
    assert Next(cfg, m.core, i) == o;
    ResponseKeeps(m.core, i);
    PendingCovers(m.core.st);
    if Response(m.core.st) == [] {
      AllDone(m);
    }
    SameTracking(m, o);
  }

  lemma NextCallOnce(cfg: Config, m: Machine, i: Input)
    requires m.core.pc.NextCall?
    requires Once(m)
    ensures Once(Step(cfg, m, i))
  {
    var pending := m.core.pc.pending;
    var o := NextTool(cfg, m.core, pending, i);
    if pending == [] {
      AllDone(m);
    } else {
      assert [pending[0]] + pending[1..] == pending;
    }
    SameTracking(m, o);
  }

  lemma PrepareOnce(cfg: Config, m: Machine, i: Input)
    requires m.core.pc.Prepare?
    requires Once(m)
    ensures Once(Step(cfg, m, i))
  {
    SameTracking(m, Next(cfg, m.core, i));
  }

  /** A call without a recorded decision has had no approval interposed yet. */
  lemma NotInterposed(m: Machine, call: ToolCall, rest: seq<ToolCall>)
    requires Safe(m) && Once(m) && m.core.pc == Execute(call, rest) && Key(call) !in m.core.approvals
    ensures m.boundaries[call.id] == 0
  {
    FirstUnfinished(Done(m.core.st), call, rest);
    assert call in [call] + rest;
    forall c | c in Response(m.core.st) && c.id == call.id
      ensures Key(c) !in m.core.approvals
    {
      assert c == call;
    }
    assert !Opened(Response(m.core.st), m.core.approvals, call.id);
  }

  lemma ExecutionShape(c: Core, call: ToolCall, rest: seq<ToolCall>, i: Input)
    ensures var o := NextExecution(c, call, rest, i);
            && !o.effect.FreshApproval? && o.core.approvals == c.approvals && o.core.st.messages == c.st.messages
            && (|| o.core.pc.Stopped?
                || (o.core.pc.Settle? && o.core.pc.call == call && o.core.pc.rest == rest && o.commit.None?)
                || (o.core.pc.Approved? && o.core.pc.call == call && o.core.pc.rest == rest && o.commit.None?)
                || (o.core.pc == AwaitApproval(call, rest) && Key(call) !in c.approvals && call.arguments != Text("")))
            && (o.commit.Some? ==> o.commit.value.point == WaitingApproval)
  {
  }

  lemma ExecuteOnce(cfg: Config, m: Machine, i: Input)
    requires m.core.pc.Execute?
    requires Safe(m) && Once(m)
    ensures Once(Step(cfg, m, i))
  {
    var o := NextExecution(m.core, m.core.pc.call, m.core.pc.rest, i);
    assert Next(cfg, m.core, i) == o;
    ExecutionShape(m.core, m.core.pc.call, m.core.pc.rest, i);
    if o.core.pc.AwaitApproval? {
      NotInterposed(m, m.core.pc.call, m.core.pc.rest);
    }
    SameTracking(m, o);
  }

  /** One more decision on record keeps what is tracked. */
  lemma MoreDecisions(boundaries: multiset<string>, approvals: map<ApprovalKey, Decision>, st: RunState, k: ApprovalKey, d: Decision)
    requires Tracked(boundaries, approvals, st)
    ensures Tracked(boundaries, approvals[k := d], st)
  {
    forall id | boundaries[id] > 0 && Some(id) !in Done(st)
      ensures Opened(Response(st), approvals[k := d], id)
    {
      var c :| c in Response(st) && c.id == id && Key(c) in approvals;
      assert Key(c) in approvals[k := d];
    }
  }

  lemma DecidedOnce(m: Machine, n: Machine, call: ToolCall, rest: seq<ToolCall>, d: Decision)
    requires Once(m) && m.core.pc == AwaitApproval(call, rest)
    requires n == m.(core := m.core.(pc := Decided(call, rest, d), approvals := m.core.approvals[Key(call) := d]))
    ensures Once(n)
  {
    MoreDecisions(m.boundaries, m.core.approvals, m.core.st, Key(call), d);
    if m.log != [] && ContinuesPass(Latest(m.log).point) {
      MoreDecisions(m.boundaries, m.core.approvals, Latest(m.log).state, Key(call), d);
    }
  }

  lemma DecisionOnce(cfg: Config, m: Machine, i: Input)
    requires m.core.pc.AwaitApproval?
    requires Once(m)
    ensures Once(Step(cfg, m, i))
  {
    var o := NextDecision(m.core, m.core.pc.call, m.core.pc.rest, i);
    assert Next(cfg, m.core, i) == o;
    if i.taskCancelled {
      SameTracking(m, o);
    } else {
      DecidedOnce(m, Apply(m, o), m.core.pc.call, m.core.pc.rest, i.decision);
    }
  }

  lemma BoundaryOnce(cfg: Config, m: Machine, i: Input)
    requires m.core.pc.Decided?
    requires Once(m)
    ensures Once(Step(cfg, m, i))
  {
    var call := m.core.pc.call;
    assert call in Owed(m.core.pc);
    assert Opened(Response(m.core.st), m.core.approvals, call.id);
  }

  lemma ApprovedOnce(cfg: Config, m: Machine, i: Input)
    requires m.core.pc.Approved?
    requires Once(m)
    ensures Once(Step(cfg, m, i))
  {
    SameTracking(m, NextApproved(m.core, m.core.pc.call, m.core.pc.rest, m.core.pc.decision));
  }

  lemma FinishedOnce(m: Machine, o: Output, call: ToolCall, rest: seq<ToolCall>)
    requires Once(m) && NeedsResponse(m.core) && Owed(m.core.pc) == [call] + rest && o.effect == NoEffect
    requires o.core.pc.Settled? && o.core.pc.rest == rest && o.core.approvals == m.core.approvals
    requires Done(o.core.st) == Done(m.core.st) + {Some(call.id)} && Response(o.core.st) == Response(m.core.st)
    requires o.commit.Some? && o.commit.value.point == AfterTool
    ensures Once(Apply(m, o))
  {
    assert forall c :: c in [call] + rest <==> c == call || c in rest;
  }

  lemma ResultOnce(cfg: Config, m: Machine, i: Input)
    requires m.core.pc.Settle?
    requires Safe(m) && Once(m)
    ensures Once(Step(cfg, m, i))
  {
    var call, rest := m.core.pc.call, m.core.pc.rest;
    var o := NextResult(m.core, call, rest, m.core.pc.started, i);
    assert Next(cfg, m.core, i) == o;
    if i.taskCancelled {
      SameTracking(m, o);
    } else {
      ResultKeeps(m.core, call, rest, m.core.pc.started, i);
      FinishedOnce(m, o, call, rest);
    }
  }

  lemma SettledOnce(cfg: Config, m: Machine, i: Input)
    requires m.core.pc.Settled?
    requires Once(m)
    ensures Once(Step(cfg, m, i))
  {
    DrainKeeps(m.core.st, i);
    SameTracking(m, Next(cfg, m.core, i));
  }

  lemma StepOnce(cfg: Config, m: Machine, i: Input)
    requires Safe(m) && Once(m)
    ensures Once(Step(cfg, m, i))
  {
    match m.core.pc
    case LoopTop => PassOnce(cfg, m, i);
    case Build => RequestOnce(cfg, m, i);
    case CallProvider => RequestOnce(cfg, m, i);
    case AwaitProvider => AnswerOnce(cfg, m, i);
    case Dispatch => ResponseOnce(cfg, m, i);
    case NextCall(_) => NextCallOnce(cfg, m, i);
    case Prepare(_, _) => PrepareOnce(cfg, m, i);
    case Execute(_, _) => ExecuteOnce(cfg, m, i);
    case AwaitApproval(_, _) => DecisionOnce(cfg, m, i);
    case Decided(_, _, _) => BoundaryOnce(cfg, m, i);
    case Approved(_, _, _) => ApprovedOnce(cfg, m, i);
    case Settle(_, _, _) => ResultOnce(cfg, m, i);
    case Settled(_, _, _, _) => SettledOnce(cfg, m, i);
    case Stopped(_) =>
    case _ => EntryOnce(cfg, m, i);
  }

  lemma CrashOnce(m: Machine)
    requires OnRecord(m.log, m.boundaries, m.core.approvals)
    ensures Once(Crash(m))
  {
    var n := m.(core := Reopen(m.log, m.core));
    assert Crash(m) == n;
    if n.core.pc.Stopped? {
      StoppedOnce(n);
    } else {
      var st := Latest(m.log).state;
      RestoredKeeps(st);
      ResumedOnce(n, st, n.core.st);
    }
  }

  lemma StoppedOnce(m: Machine)
    requires OnRecord(m.log, m.boundaries, m.core.approvals) && m.core.pc.Stopped?
    ensures Once(m)
  {
  }

  lemma ResumedOnce(m: Machine, st: RunState, back: RunState)
    requires m.log != [] && Latest(m.log).state == st && Resumable(Latest(m.log).point)
    requires m.core == Core(Entry, back, Some(Latest(m.log).point), m.core.approvals)
    requires OnRecord(m.log, m.boundaries, m.core.approvals)
    requires Done(back) == Done(st)
    requires LastAssistant(back.messages).Some? <==> LastAssistant(st.messages).Some?
    requires LastAssistant(st.messages).Some? ==>
               SameShape(LastAssistant(back.messages).value, LastAssistant(st.messages).value)
    ensures Once(m)
  {
    if ContinuesPass(Latest(m.log).point) {
      RestoredTracking(m, st, back);
    }
  }

  lemma RestoredTracking(m: Machine, st: RunState, back: RunState)
    requires OnRecord(m.log, m.boundaries, m.core.approvals) && Tracked(m.boundaries, m.core.approvals, st)
    requires Done(back) == Done(st)
    requires LastAssistant(back.messages).Some? <==> LastAssistant(st.messages).Some?
    requires LastAssistant(st.messages).Some? ==>
               SameShape(LastAssistant(back.messages).value, LastAssistant(st.messages).value)
    ensures Tracked(m.boundaries, m.core.approvals, back)
  {
    forall id | m.boundaries[id] > 0 && Some(id) !in Done(back)
      ensures Opened(Response(back), m.core.approvals, id)
    {
      var c :| c in Response(st) && c.id == id && Key(c) in m.core.approvals;
      var k :| 0 <= k < |Response(st)| && Response(st)[k] == c;
      assert Response(back)[k] == CallBack(c);
      assert Key(CallBack(c)) == Key(c);
    }
  }

  lemma {:induction false} RunOnce(cfg: Config, m: Machine, events: seq<Event>)
    requires Fresh(m) && DistinctResponses(events)
    ensures Safe(Run(cfg, m, events)) && Once(Run(cfg, m, events))
  {
    if events != [] {
      var n := |events| - 1;
      RunOnce(cfg, m, events[..n]);
      RunSafe(cfg, m, events);
      match events[n]
      case Tick(i) => StepOnce(cfg, Run(cfg, m, events[..n]), i);
      case Restart => CrashOnce(Run(cfg, m, events[..n]));
    }
  }

  /**
   * Over every interleaving of steps, crashes and resumes of one turn whose responses have distinct
   * call ids, the executor of a call starts at most once, unless an approval interposed a BEFORE_TOOL
   * checkpoint between the decision and the start; that happens at most once per call and allows one
   * further start.
   */
  lemma AtMostOnceEffects(cfg: Config, m: Machine, events: seq<Event>, id: string)
    requires Fresh(m) && DistinctResponses(events)
    ensures var n := Run(cfg, m, events);
            && n.starts[id] <= 1 + n.boundaries[id]
            && n.boundaries[id] <= 1
  {
    RunOnce(cfg, m, events);
  }

  /** When the permission check reaches this call, it is not told to ask. */
  ghost predicate NeverAsked(cfg: Config, m: Machine, events: seq<Event>, id: string) {
    forall k :: 0 <= k < |events| && events[k].Tick? ==> !Asks(Run(cfg, m, events[..k]).core, events[k].input, id)
  }

  predicate Asks(c: Core, i: Input, id: string) { c.pc.Execute? && c.pc.call.id == id && i.permission == Ask }

  /** No approval for this call is under way, and none has interposed. */
  predicate Unasked(m: Machine, id: string) {
    m.boundaries[id] == 0 && (m.core.pc.AwaitApproval? || m.core.pc.Decided? ==> m.core.pc.call.id != id)
  }

  lemma StepUnasked(cfg: Config, m: Machine, i: Input, id: string)
    requires Unasked(m, id) && !Asks(m.core, i, id)
    ensures Unasked(Step(cfg, m, i), id)
  {
    if m.core.pc.Execute? {
      UnaskedExecution(cfg, m, i, id);
    } else if m.core.pc.AwaitApproval? || m.core.pc.Decided? || m.core.pc.Approved? {
      UnaskedApproval(cfg, m, i, id);
    } else {
      UnaskedElsewhere(cfg, m, i);
    }
  }

  lemma UnaskedExecution(cfg: Config, m: Machine, i: Input, id: string)
    requires m.core.pc.Execute? && Unasked(m, id) && !Asks(m.core, i, id)
    ensures Unasked(Step(cfg, m, i), id)
  {
  }

  lemma UnaskedApproval(cfg: Config, m: Machine, i: Input, id: string)
    requires (m.core.pc.AwaitApproval? || m.core.pc.Decided? || m.core.pc.Approved?) && Unasked(m, id)
    ensures Unasked(Step(cfg, m, i), id)
  {
  }

  lemma UnaskedElsewhere(cfg: Config, m: Machine, i: Input)
    requires !m.core.pc.Execute? && !m.core.pc.AwaitApproval? && !m.core.pc.Decided?
    ensures var n := Step(cfg, m, i); n.boundaries == m.boundaries && !n.core.pc.AwaitApproval? && !n.core.pc.Decided?
  {
    if m.core.pc.LoopTop? || m.core.pc.Dispatch? || m.core.pc.NextCall? || m.core.pc.Settled? {
      UnaskedPass(cfg, m.core, i);
    }
  }

  lemma UnaskedPass(cfg: Config, c: Core, i: Input)
    requires c.pc.LoopTop? || c.pc.Dispatch? || c.pc.NextCall? || c.pc.Settled?
    ensures var o := Next(cfg, c, i); o.effect.NoEffect? && !o.core.pc.AwaitApproval? && !o.core.pc.Decided?
  {
  }

  lemma {:induction false} RunUnasked(cfg: Config, m: Machine, events: seq<Event>, id: string)
    requires Unasked(m, id) && NeverAsked(cfg, m, events, id)
    ensures Unasked(Run(cfg, m, events), id)
  {
    if events != [] {
      var n := |events| - 1;
      NeverAskedBefore(cfg, m, events, n, id);
      RunUnasked(cfg, m, events[..n], id);
      HappenUnasked(cfg, Run(cfg, m, events[..n]), events[n], id);
    }
  }

  lemma NeverAskedBefore(cfg: Config, m: Machine, events: seq<Event>, n: nat, id: string)
    requires n < |events| && NeverAsked(cfg, m, events, id)
    ensures NeverAsked(cfg, m, events[..n], id)
    ensures events[n].Tick? ==> !Asks(Run(cfg, m, events[..n]).core, events[n].input, id)
  {
    forall k | 0 <= k < n && events[..n][k].Tick?
      ensures !Asks(Run(cfg, m, events[..n][..k]).core, events[..n][k].input, id)
    {
      assert events[..n][..k] == events[..k];
    }
  }

  lemma HappenUnasked(cfg: Config, m: Machine, e: Event, id: string)
    requires Unasked(m, id) && (e.Tick? ==> !Asks(m.core, e.input, id))
    ensures Unasked(Happen(cfg, m, e), id)
  {
    if e.Tick? {
      StepUnasked(cfg, m, e.input, id);
    }
  }

  /** A call for which the permission check never asks starts at most once, through any number of crashes. */
  lemma UnaskedCallStartsOnce(cfg: Config, m: Machine, events: seq<Event>, id: string)
    requires Fresh(m) && DistinctResponses(events) && NeverAsked(cfg, m, events, id)
    ensures Run(cfg, m, events).starts[id] <= 1
  {
    RunUnasked(cfg, m, events, id);
    AtMostOnceEffects(cfg, m, events, id);
  }
}
