/**
 * Resuming refines never crashing: against a deterministic environment a turn ends in the same run
 * state however often its process is lost at a recoverable checkpoint.
 */
module TurnRefinement {
  import opened Messages
  import opened RunStates
  import opened Recovery
  import opened TurnMachine
  import opened TurnSafety
  import opened TurnApprovals

  /**
   * A deterministic environment. It sees of a state and of a call what a checkpoint keeps, gives the
   * same answer to the same question, and neither cancels, nor sends mail, nor runs out of time.
   */
  datatype Env = Env(
    context: RunState -> Option<RunError>,
    provider: RunState -> ProviderOutcome,
    permission: (RunState, ToolCall) -> Permission,
    decision: ApprovalKey -> Decision,
    tool: (RunState, ToolCall) -> ToolOutcome,
    guard: RunState -> Option<string>,
    newId: RunState -> string)

  const NO_CALL := ToolCall("", "", Dict(map[]), "")

  /** The call a tool step is about. */
  function Current(pc: Pc): ToolCall {
    match pc
    case Execute(call, _) => call
    case AwaitApproval(call, _) => call
    case Settle(call, _, _) => call
    case _ => NO_CALL
  }

  function Answer(env: Env, c: Core): Input {
    var st, call := StripState(c.st), StripCall(Current(c.pc));
    Input(false, false, false, [], env.context(st), env.provider(st), env.permission(st, call),
          env.decision(Key(call)), env.tool(st, call), env.guard(st), env.newId(st))
  }

  function Forward(cfg: Config, env: Env, c: Core): Core { Next(cfg, c, Answer(env, c)).core }

  /** The run state in which one process ends when it is left alone. */
  function Outcome(cfg: Config, env: Env, c: Core): RunState
    requires ResumeArmed(c)
    decreases Passes(cfg, c), Stage(c.pc), ToolWork(c.pc)
  {
    if c.pc.Stopped? then c.st
    else
      StepTerminates(cfg, c, Answer(env, c));
      Outcome(cfg, env, Forward(cfg, env, c))
  }

  lemma OutcomeStep(cfg: Config, env: Env, c: Core)
    requires ResumeArmed(c) && !c.pc.Stopped?
    ensures ResumeArmed(Forward(cfg, env, c)) && Smaller(cfg, Forward(cfg, env, c), c)
    ensures Outcome(cfg, env, c) == Outcome(cfg, env, Forward(cfg, env, c))
  {
    StepTerminates(cfg, c, Answer(env, c));
  }

  /** Equal in everything a checkpoint keeps. */
  predicate Same(s: RunState, t: RunState) { StripState(s) == StripState(t) }

  // ----- What the environment sees decides the outcome -----

  function StripPc(pc: Pc): Pc {
    match pc
    case NextCall(pending) => NextCall(StripCalls(pending))
    case Prepare(call, rest) => Prepare(StripCall(call), StripCalls(rest))
    case Execute(call, rest) => Execute(StripCall(call), StripCalls(rest))
    case AwaitApproval(call, rest) => AwaitApproval(StripCall(call), StripCalls(rest))
    case Decided(call, rest, d) => Decided(StripCall(call), StripCalls(rest), d)
    case Approved(call, rest, d) => Approved(StripCall(call), StripCalls(rest), d)
    case Settle(call, rest, started) => Settle(StripCall(call), StripCalls(rest), started)
    case Settled(call, rest, success, content) => Settled(StripCall(call), StripCalls(rest), success, content)
    case _ => pc
  }

  predicate Like(c: Core, d: Core) {
    StripPc(c.pc) == StripPc(d.pc) && Same(c.st, d.st) && c.resume == d.resume && c.approvals == d.approvals
  }

  lemma LikeAnswer(env: Env, c: Core, d: Core)
    requires Like(c, d)
    ensures Answer(env, c) == Answer(env, d)
  {
  }

  lemma LikeHistory(s: RunState, t: RunState)
    requires Same(s, t)
    ensures Done(s) == Done(t)
    ensures LastAssistant(s.messages).Some? <==> LastAssistant(t.messages).Some?
    ensures LastAssistant(s.messages).Some? ==>
              StripMessage(LastAssistant(s.messages).value) == StripMessage(LastAssistant(t.messages).value)
    ensures StripCalls(Response(s)) == StripCalls(Response(t))
  {
    CompletedStrip(s.messages);
    CompletedStrip(t.messages);
    LastAssistantStrip(s.messages);
    LastAssistantStrip(t.messages);
  }

  lemma SameAppend(s: RunState, t: RunState, ms: seq<Message>)
    requires Same(s, t)
    ensures Same(s.(messages := s.messages + ms), t.(messages := t.messages + ms))
  {
    StripAppend(s.messages, ms);
    StripAppend(t.messages, ms);
  }

  lemma EarlyLike(cfg: Config, c: Core, d: Core, i: Input)
    requires Like(c, d)
    requires c.pc.Entry? || c.pc.Build? || c.pc.CallProvider? || c.pc.Finishing? || c.pc.Raising?
    ensures Like(Next(cfg, c, i).core, Next(cfg, d, i).core)
  {
    if c.pc.Entry? {
      EntryLike(c, d);
    } else if c.pc.Raising? {
      FailureLike(c, d, c.pc.failure);
    }
  }

  lemma FailureLike(c: Core, d: Core, f: Failure)
    requires Like(c, d)
    ensures Like(NextFailure(c, f).core, NextFailure(d, f).core)
  {
  }

  lemma EntryLike(c: Core, d: Core)
    requires Like(c, d)
    ensures Like(NextEntry(c).core, NextEntry(d).core)
  {
  }

  lemma PassLike(cfg: Config, c: Core, d: Core, i: Input)
    requires Like(c, d) && c.pc.LoopTop?
    ensures Like(NextPass(cfg, c, i).core, NextPass(cfg, d, i).core)
  {
    var s, t := Observe(c.st, i), Observe(d.st, i);
    if Continuing(c.resume) {
      DrainLike(s, t, i);
    } else {
      DrainLike(s.(iteration := s.iteration + 1), t.(iteration := t.iteration + 1), i);
    }
  }

  lemma DrainLike(s: RunState, t: RunState, i: Input)
    requires Same(s, t)
    ensures Same(Drain(s, i), Drain(t, i))
    ensures LastAssistant(Drain(s, i).messages).Some? <==> LastAssistant(Drain(t, i).messages).Some?
  {
    SameAppend(s, t, MailMessages(i.mail, i.newId));
    LikeHistory(Drain(s, i), Drain(t, i));
  }

  lemma AnswerLike(c: Core, d: Core, i: Input)
    requires Like(c, d) && c.pc.AwaitProvider?
    ensures Like(NextAnswer(c, i).core, NextAnswer(d, i).core)
  {
    if i.provider.Answered? {
      SameAppend(c.st, d.st, [AssistantMessage(i.provider, i.newId)]);
    }
  }

  lemma PendingLike(s: RunState, t: RunState)
    requires Same(s, t)
    ensures StripCalls(Pending(Response(s), Done(s))) == StripCalls(Pending(Response(t), Done(t)))
    ensures Response(s) == [] <==> Response(t) == []
  {
    LikeHistory(s, t);
    assert |StripCalls(Response(s))| == |StripCalls(Response(t))|;
    PendingStrip(Response(s), Done(s));
    PendingStrip(Response(t), Done(t));
  }

  lemma AtNextCall(c: Core, d: Core, p: seq<ToolCall>, q: seq<ToolCall>)
    requires Like(c, d) && StripCalls(p) == StripCalls(q)
    ensures Like(c.(pc := NextCall(p)), d.(pc := NextCall(q)))
  {
  }

  lemma CallsLike(c: Core, d: Core, i: Input)
    requires Like(c, d) && c.pc.Dispatch? && Response(c.st) != []
    ensures Like(NextResponse(c, i).core, NextResponse(d, i).core)
  {
    PendingLike(c.st, d.st);
    CallsStep(c, i);
    CallsStep(d, i);
    AtNextCall(c, d, Pending(Response(c.st), Done(c.st)), Pending(Response(d.st), Done(d.st)));
  }

  lemma CallsStep(c: Core, i: Input)
    requires c.pc.Dispatch? && Response(c.st) != []
    ensures NextResponse(c, i).core == c.(pc := NextCall(Pending(Response(c.st), Done(c.st))))
  {
  }

  lemma TextLike(c: Core, d: Core, i: Input)
    requires Like(c, d) && c.pc.Dispatch? && Response(c.st) == []
    ensures Like(NextResponse(c, i).core, NextResponse(d, i).core)
  {
    LikeHistory(c.st, d.st);
    assert |StripCalls(Response(c.st))| == |StripCalls(Response(d.st))|;
    if LastAssistant(c.st.messages).None? {
      assert NextResponse(c, i).core == c.(pc := Raising(NoCommittedResponse));
      assert NextResponse(d, i).core == d.(pc := Raising(NoCommittedResponse));
    } else {
      var text := Trim(LastAssistant(c.st.messages).value.content);
      assert LastAssistant(d.st.messages).value.content == LastAssistant(c.st.messages).value.content;
      TextStep(c, i, text);
      TextStep(d, i, text);
      AfterTextLike(c, d, i, text);
    }
  }

  lemma AfterTextLike(c: Core, d: Core, i: Input, text: string)
    requires Like(c, d)
    ensures Like(AfterText(c, i, text), AfterText(d, i, text))
  {
    if i.guard.Some? {
      SameAppend(c.st, d.st, [UserMessage(i.guard.value, i.newId)]);
    }
  }

  function AfterText(c: Core, i: Input, text: string): Core {
    if text == "" then c.(pc := Raising(NoAnswer))
    else if i.guard.Some? then c.(pc := LoopTop, st := Append(c.st, UserMessage(i.guard.value, i.newId)))
    else c.(pc := Finishing, st := c.st.(finalOutput := Some(text)))
  }

  lemma TextStep(c: Core, i: Input, text: string)
    requires c.pc.Dispatch? && LastAssistant(c.st.messages).Some? && Response(c.st) == []
    requires text == Trim(LastAssistant(c.st.messages).value.content)
    ensures NextResponse(c, i).core == AfterText(c, i, text)
  {
  }

  lemma ResponseLike(c: Core, d: Core, i: Input)
    requires Like(c, d) && c.pc.Dispatch?
    ensures Like(NextResponse(c, i).core, NextResponse(d, i).core)
  {
    if Response(c.st) != [] {
      CallsLike(c, d, i);
    } else {
      TextLike(c, d, i);
    }
  }

  lemma StripTail(p: seq<ToolCall>, q: seq<ToolCall>)
    requires StripCalls(p) == StripCalls(q) && p != []
    ensures |p| == |q| && StripCall(p[0]) == StripCall(q[0]) && StripCalls(p[1..]) == StripCalls(q[1..])
  {
    assert |StripCalls(p)| == |p| && |StripCalls(q)| == |q|;
    assert forall k :: 0 <= k < |p| ==> StripCalls(p)[k] == StripCall(p[k]) && StripCalls(q)[k] == StripCall(q[k]);
    assert forall k :: 0 <= k < |p| - 1 ==> StripCalls(p[1..])[k] == StripCalls(q[1..])[k];
  }

  lemma ToolLike(cfg: Config, c: Core, d: Core, i: Input)
    requires Like(c, d) && c.pc.NextCall?
    ensures Like(NextTool(cfg, c, c.pc.pending, i).core, NextTool(cfg, d, d.pc.pending, i).core)
  {
    if c.pc.pending != [] {
      StripTail(c.pc.pending, d.pc.pending);
    } else {
      assert |StripCalls(d.pc.pending)| == 0;
    }
  }

  lemma CallLike(cfg: Config, c: Core, d: Core, i: Input)
    requires Like(c, d) && (c.pc.Prepare? || c.pc.AwaitApproval? || c.pc.Decided?)
    ensures Like(Next(cfg, c, i).core, Next(cfg, d, i).core)
  {
  }

  lemma CancelLike(c: Core, d: Core)
    requires Like(c, d)
    ensures Like(CancelOut(c).core, CancelOut(d).core)
  {
  }

  lemma ExecutionLike(c: Core, d: Core, i: Input)
    requires Like(c, d) && c.pc.Execute?
    ensures Like(c.(pc := AfterExecution(c, i)), d.(pc := AfterExecution(d, i)))
  {
    assert c.pc.call.arguments == d.pc.call.arguments && Key(c.pc.call) == Key(d.pc.call);
  }

  function AfterExecution(c: Core, i: Input): Pc
    requires c.pc.Execute?
  {
    var call, rest := c.pc.call, c.pc.rest;
    if call.arguments == Text("") || i.permission == Deny then Settle(call, rest, false)
    else if i.permission == Allow then Settle(call, rest, true)
    else if Key(call) in c.approvals then Approved(call, rest, c.approvals[Key(call)])
    else AwaitApproval(call, rest)
  }

  lemma ApprovedLike(c: Core, d: Core)
    requires Like(c, d) && c.pc.Approved?
    ensures Like(NextApproved(c, c.pc.call, c.pc.rest, c.pc.decision).core, NextApproved(d, d.pc.call, d.pc.rest, d.pc.decision).core)
  {
    CancelLike(c, d);
  }

  lemma ResultLike(c: Core, d: Core, i: Input)
    requires Like(c, d) && c.pc.Settle?
    ensures Like(NextResult(c, c.pc.call, c.pc.rest, c.pc.started, i).core, NextResult(d, d.pc.call, d.pc.rest, d.pc.started, i).core)
  {
    SameAppend(c.st, d.st, [ToolMessage(c.pc.call, c.pc.started, i.tool, i.newId)]);
  }

  lemma SettledLike(cfg: Config, c: Core, d: Core, i: Input)
    requires Like(c, d) && c.pc.Settled?
    ensures Like(Next(cfg, c, i).core, Next(cfg, d, i).core)
  {
    SameAppend(c.st, d.st, MailMessages(i.mail, i.newId));
  }

  predicate InLoop(pc: Pc) {
    pc in {Entry, LoopTop, Build, CallProvider, AwaitProvider, Dispatch, Finishing} || pc.Raising?
  }

  lemma LoopLike(cfg: Config, c: Core, d: Core, i: Input)
    requires Like(c, d) && InLoop(c.pc)
    ensures Like(Next(cfg, c, i).core, Next(cfg, d, i).core)
  {
    match c.pc
    case LoopTop => PassLike(cfg, c, d, i);
    case AwaitProvider => AnswerLike(c, d, i);
    case Dispatch => ResponseLike(c, d, i);
    case _ => EarlyLike(cfg, c, d, i);
  }

  lemma NextCallLike(cfg: Config, c: Core, d: Core, i: Input)
    requires Like(c, d) && c.pc.NextCall?
    ensures Like(Next(cfg, c, i).core, Next(cfg, d, i).core)
  {
    ToolLike(cfg, c, d, i);
  }

  lemma ExecuteLike(cfg: Config, c: Core, d: Core, i: Input)
    requires Like(c, d) && c.pc.Execute?
    ensures Like(Next(cfg, c, i).core, Next(cfg, d, i).core)
  {
    ExecutionLike(c, d, i);
    CancelLike(c, d);
    ExecuteStep(cfg, c, i);
    ExecuteStep(cfg, d, i);
  }

  lemma ExecuteStep(cfg: Config, c: Core, i: Input)
    requires c.pc.Execute?
    ensures Next(cfg, c, i).core == if i.taskCancelled then CancelOut(c).core else c.(pc := AfterExecution(c, i))
  {
  }

  lemma FollowLike(cfg: Config, c: Core, d: Core, i: Input)
    requires Like(c, d) && c.pc.Approved?
    ensures Like(Next(cfg, c, i).core, Next(cfg, d, i).core)
  {
    ApprovedLike(c, d);
    FollowStep(cfg, c, i);
    FollowStep(cfg, d, i);
  }

  lemma FollowStep(cfg: Config, c: Core, i: Input)
    requires c.pc.Approved?
    ensures Next(cfg, c, i) == NextApproved(c, c.pc.call, c.pc.rest, c.pc.decision)
  {
  }

  lemma ResultsLike(cfg: Config, c: Core, d: Core, i: Input)
    requires Like(c, d) && (c.pc.Settle? || c.pc.Settled?)
    ensures Like(Next(cfg, c, i).core, Next(cfg, d, i).core)
  {
    if c.pc.Settle? {
      ResultLike(c, d, i);
    } else {
      SettledLike(cfg, c, d, i);
    }
  }

  lemma StepLike(cfg: Config, c: Core, d: Core, i: Input)
    requires Like(c, d) && !c.pc.Stopped?
    ensures Like(Next(cfg, c, i).core, Next(cfg, d, i).core)
  {
    if InLoop(c.pc) {
      LoopLike(cfg, c, d, i);
    } else if c.pc.Settle? || c.pc.Settled? {
      ResultsLike(cfg, c, d, i);
    } else if c.pc.NextCall? {
      NextCallLike(cfg, c, d, i);
    } else if c.pc.Execute? {
      ExecuteLike(cfg, c, d, i);
    } else if c.pc.Approved? {
      FollowLike(cfg, c, d, i);
    } else {
      CallLike(cfg, c, d, i);
    }
  }

  lemma LikeForward(cfg: Config, env: Env, c: Core, d: Core)
    requires Like(c, d) && !c.pc.Stopped?
    ensures !d.pc.Stopped? && Like(Forward(cfg, env, c), Forward(cfg, env, d))
  {
    LikeAnswer(env, c, d);
    StepLike(cfg, c, d, Answer(env, c));
  }

  /** Losing the transport fields of tool calls does not change how a turn ends. */
  lemma {:induction false} OutcomeLike(cfg: Config, env: Env, c: Core, d: Core)
    requires Like(c, d) && ResumeArmed(c) && ResumeArmed(d)
    ensures Same(Outcome(cfg, env, c), Outcome(cfg, env, d))
    decreases Passes(cfg, c), Stage(c.pc), ToolWork(c.pc)
  {
    if !c.pc.Stopped? {
      LikeForward(cfg, env, c, d);
      OutcomeStep(cfg, env, c);
      OutcomeStep(cfg, env, d);
      OutcomeLike(cfg, env, Forward(cfg, env, c), Forward(cfg, env, d));
    }
  }

  // ----- Recorded decisions -----

  /** Every committed decision is the one the environment would give again. */
  ghost predicate Honest(env: Env, approvals: map<ApprovalKey, Decision>) {
    forall k :: k in approvals ==> approvals[k] == env.decision(k)
  }

  predicate Asking(env: Env, c: Core) {
    c.pc.Execute? && c.pc.call.arguments != Text("") && Answer(env, c).permission == Ask
  }

  function AfterAsking(env: Env, c: Core): Core
    requires c.pc.Execute?
  {
    var d := env.decision(Key(c.pc.call));
    c.(pc := Approved(c.pc.call, c.pc.rest, d), approvals := c.approvals[Key(c.pc.call) := d])
  }

  lemma AskAgain(cfg: Config, env: Env, c: Core)
    requires Asking(env, c) && Key(c.pc.call) !in c.approvals
    ensures Forward(cfg, env, c) == c.(pc := AwaitApproval(c.pc.call, c.pc.rest))
  {
  }

  lemma AskOnce(cfg: Config, env: Env, c: Core)
    requires Asking(env, c) && Key(c.pc.call) in c.approvals && Honest(env, c.approvals)
    ensures Forward(cfg, env, c) == AfterAsking(env, c)
  {
    assert c.approvals[Key(c.pc.call) := env.decision(Key(c.pc.call))] == c.approvals;
  }

  lemma Decide(cfg: Config, env: Env, c: Core)
    requires c.pc.AwaitApproval?
    ensures var d := env.decision(Key(c.pc.call));
            Forward(cfg, env, c) == c.(pc := Decided(c.pc.call, c.pc.rest, d), approvals := c.approvals[Key(c.pc.call) := d])
  {
    assert Key(StripCall(c.pc.call)) == Key(c.pc.call);
  }

  lemma Enter(cfg: Config, env: Env, c: Core)
    requires c.pc.Decided?
    ensures Forward(cfg, env, c) == c.(pc := Approved(c.pc.call, c.pc.rest, c.pc.decision))
  {
  }

  /** A call that needs approval reaches the same point whether its decision was recorded or is asked for. */
  lemma AskOutcome(cfg: Config, env: Env, c: Core)
    requires ResumeArmed(c) && Asking(env, c) && Honest(env, c.approvals)
    ensures Outcome(cfg, env, c) == Outcome(cfg, env, AfterAsking(env, c))
  {
    OutcomeStep(cfg, env, c);
    if Key(c.pc.call) in c.approvals {
      AskOnce(cfg, env, c);
    } else {
      AskAgain(cfg, env, c);
      var waiting := c.(pc := AwaitApproval(c.pc.call, c.pc.rest));
      OutcomeStep(cfg, env, waiting);
      Decide(cfg, env, waiting);
      var decided := Forward(cfg, env, waiting);
      OutcomeStep(cfg, env, decided);
      Enter(cfg, env, decided);
    }
  }

  /** The record after the same step from another record. */
  function Extended(env: Env, c: Core, b: map<ApprovalKey, Decision>): map<ApprovalKey, Decision> {
    if c.pc.AwaitApproval? then b[Key(c.pc.call) := env.decision(Key(c.pc.call))] else b
  }

  predicate Ignores(cfg: Config, env: Env, c: Core, b: map<ApprovalKey, Decision>) {
    && Forward(cfg, env, c).approvals == Extended(env, c, c.approvals)
    && Forward(cfg, env, c.(approvals := b)) == Forward(cfg, env, c).(approvals := Extended(env, c, b))
  }

  lemma LoopIgnores(cfg: Config, env: Env, c: Core, b: map<ApprovalKey, Decision>)
    requires InLoop(c.pc)
    ensures Ignores(cfg, env, c, b)
  {
    assert Answer(env, c.(approvals := b)) == Answer(env, c);
  }

  lemma CallIgnores(cfg: Config, env: Env, c: Core, b: map<ApprovalKey, Decision>)
    requires c.pc.NextCall? || c.pc.Prepare? || c.pc.Decided? || c.pc.Approved?
    ensures Ignores(cfg, env, c, b)
  {
    assert Answer(env, c.(approvals := b)) == Answer(env, c);
  }

  lemma ExecutionIgnores(cfg: Config, env: Env, c: Core, b: map<ApprovalKey, Decision>)
    requires c.pc.Execute? && !Asking(env, c)
    ensures Ignores(cfg, env, c, b)
  {
    assert Answer(env, c.(approvals := b)) == Answer(env, c);
  }

  lemma DecisionIgnores(cfg: Config, env: Env, c: Core, b: map<ApprovalKey, Decision>)
    requires c.pc.AwaitApproval?
    ensures Ignores(cfg, env, c, b)
  {
    Decide(cfg, env, c);
    Decide(cfg, env, c.(approvals := b));
  }

  lemma ResultIgnores(cfg: Config, env: Env, c: Core, b: map<ApprovalKey, Decision>)
    requires c.pc.Settle? || c.pc.Settled?
    ensures Ignores(cfg, env, c, b)
  {
    assert Answer(env, c.(approvals := b)) == Answer(env, c);
  }

  lemma StepIgnores(cfg: Config, env: Env, c: Core, b: map<ApprovalKey, Decision>)
    requires !c.pc.Stopped? && !Asking(env, c)
    ensures Ignores(cfg, env, c, b)
  {
    match c.pc
    case NextCall(_) => CallIgnores(cfg, env, c, b);
    case Prepare(_, _) => CallIgnores(cfg, env, c, b);
    case Decided(_, _, _) => CallIgnores(cfg, env, c, b);
    case Approved(_, _, _) => CallIgnores(cfg, env, c, b);
    case Execute(_, _) => ExecutionIgnores(cfg, env, c, b);
    case AwaitApproval(_, _) => DecisionIgnores(cfg, env, c, b);
    case Settle(_, _, _) => ResultIgnores(cfg, env, c, b);
    case Settled(_, _, _, _) => ResultIgnores(cfg, env, c, b);
    case _ => LoopIgnores(cfg, env, c, b);
  }

  lemma ExtendedHonest(env: Env, c: Core, b: map<ApprovalKey, Decision>)
    requires Honest(env, b)
    ensures Honest(env, Extended(env, c, b))
  {
  }

  /** A stretch after which the process is closer to its end, from either record. */
  lemma Stretch(cfg: Config, env: Env, c: Core, b: map<ApprovalKey, Decision>)
    returns (c1: Core, b1: map<ApprovalKey, Decision>)
    requires ResumeArmed(c) && !c.pc.Stopped? && Honest(env, c.approvals) && Honest(env, b)
    ensures ResumeArmed(c1) && Smaller(cfg, c1, c) && Honest(env, c1.approvals) && Honest(env, b1)
    ensures Outcome(cfg, env, c) == Outcome(cfg, env, c1)
    ensures Outcome(cfg, env, c.(approvals := b)) == Outcome(cfg, env, c1.(approvals := b1))
  {
    var d := c.(approvals := b);
    if Asking(env, c) {
      AskOutcome(cfg, env, c);
      AskOutcome(cfg, env, d);
      c1, b1 := AfterAsking(env, c), AfterAsking(env, d).approvals;
    } else {
      OutcomeStep(cfg, env, c);
      OutcomeStep(cfg, env, d);
      StepIgnores(cfg, env, c, b);
      ExtendedHonest(env, c, b);
      ExtendedHonest(env, c, c.approvals);
      c1, b1 := Forward(cfg, env, c), Extended(env, c, b);
    }
  }

  /** Which decisions are already on record does not change how a turn ends. */
  lemma {:induction false} ApprovalsIrrelevant(cfg: Config, env: Env, c: Core, b: map<ApprovalKey, Decision>)
    requires ResumeArmed(c) && Honest(env, c.approvals) && Honest(env, b)
    ensures Outcome(cfg, env, c) == Outcome(cfg, env, c.(approvals := b))
    decreases Passes(cfg, c), Stage(c.pc), ToolWork(c.pc)
  {
    if !c.pc.Stopped? {
      var c1, b1 := Stretch(cfg, env, c, b);
      ApprovalsIrrelevant(cfg, env, c1, b1);
    }
  }

  // ----- Where a resumed process joins the run -----

  /** Answers carry dictionaries and distinct call ids. */
  ghost predicate WellBehaved(env: Env) {
    forall st: RunState :: env.provider(st).Answered? ==>
      DistinctIds(env.provider(st).calls) && forall c :: c in env.provider(st).calls ==> c.arguments.Dict?
  }

  /** The loop about to read the newest response of `st`. */
  function AtDispatch(st: RunState, approvals: map<ApprovalKey, Decision>): Core {
    Core(Dispatch, st, None, approvals)
  }

  predicate Clean(st: RunState) {
    !st.cancellationRequested && st.error == None && AllDictionaries(st.messages)
  }

  predicate Resuming(c: Core) {
    || c.resume == None
    || (c.pc.Entry? && (Continuing(c.resume) || c.resume == Some(BeforeFinalize)))
    || (c.pc.LoopTop? && Continuing(c.resume))
    || c.pc.Raising? || c.pc.Stopped?
  }

  /** A process that runs as one that was never lost. */
  ghost predicate OnCourse(env: Env, c: Core) {
    && ResumeArmed(c) && Honest(env, c.approvals) && Resuming(c)
    && AllDictionaries(c.st.messages)
    && (!c.pc.Stopped? ==> Clean(c.st))
    && (c.pc.Dispatch? || InCalls(c.pc) ==> c.st.status == Running && DistinctResponse(c.st))
    && (c.pc in {LoopTop, Build, CallProvider, AwaitProvider} ==> c.st.status == Running)
    && (Continuing(c.resume) && (c.pc.Entry? || c.pc.LoopTop?) ==> DistinctResponse(c.st))
    && (InCalls(c.pc) ==> Response(c.st) != [] && Owed(c.pc) == Pending(Response(c.st), Done(c.st)))
  }

  lemma DictionariesAppend(ms: seq<Message>, m: Message)
    requires AllDictionaries(ms) && forall c :: c in m.toolCalls ==> c.arguments.Dict?
    ensures AllDictionaries(ms + [m])
  {
  }

  lemma NoMail(st: RunState, i: Input)
    requires i.mail == []
    ensures Drain(st, i) == st
  {
    assert st.messages + MailMessages(i.mail, i.newId) == st.messages;
  }

  /** A step that keeps the history and the record. */
  lemma SameCourse(env: Env, c: Core, d: Core)
    requires OnCourse(env, c) && !c.pc.Stopped?
    requires d.approvals == c.approvals && d.st.messages == c.st.messages
    requires d.pc.Stopped? || (!d.st.cancellationRequested && d.st.error == None)
    requires ResumeArmed(d) && Resuming(d)
    requires d.pc.Dispatch? || d.pc in {LoopTop, Build, CallProvider, AwaitProvider} || InCalls(d.pc) ==> d.st.status == Running
    requires d.pc.Dispatch? ==> Continuing(c.resume) && c.pc.LoopTop?
    requires Continuing(d.resume) && (d.pc.Entry? || d.pc.LoopTop?) ==> Continuing(c.resume) && (c.pc.Entry? || c.pc.LoopTop?)
    requires InCalls(d.pc) ==>
               || (InCalls(c.pc) && Owed(d.pc) == Owed(c.pc))
               || (c.pc.Dispatch? && Response(c.st) != [] && Owed(d.pc) == Pending(Response(c.st), Done(c.st)))
    ensures OnCourse(env, d)
  {
  }

  lemma EarlyCourse(cfg: Config, env: Env, c: Core)
    requires OnCourse(env, c) && (c.pc.Entry? || c.pc.Finishing? || c.pc.Raising?)
    ensures OnCourse(env, Forward(cfg, env, c))
  {
    SameCourse(env, c, Forward(cfg, env, c));
  }

  lemma RequestCourse(cfg: Config, env: Env, c: Core)
    requires OnCourse(env, c) && (c.pc.Build? || c.pc.CallProvider?)
    ensures OnCourse(env, Forward(cfg, env, c))
  {
    SameCourse(env, c, Forward(cfg, env, c));
  }

  lemma PassCourse(cfg: Config, env: Env, c: Core)
    requires OnCourse(env, c) && c.pc.LoopTop?
    ensures OnCourse(env, Forward(cfg, env, c))
  {
    var i := Answer(env, c);
    NoMail(Observe(c.st, i), i);
    NoMail(c.st.(iteration := c.st.iteration + 1), i);
    SameCourse(env, c, NextPass(cfg, c, i).core);
  }

  lemma AnswerCourse(cfg: Config, env: Env, c: Core)
    requires OnCourse(env, c) && c.pc.AwaitProvider? && WellBehaved(env)
    ensures OnCourse(env, Forward(cfg, env, c))
  {
    var i := Answer(env, c);
    assert i.provider == env.provider(StripState(c.st));
    if i.provider.Answered? {
      var reply := AssistantMessage(i.provider, i.newId);
      DictionariesAppend(c.st.messages, reply);
      LastAssistantAppend(c.st.messages, reply);
    }
  }

  lemma ResponseCourse(cfg: Config, env: Env, c: Core)
    requires OnCourse(env, c) && c.pc.Dispatch?
    ensures OnCourse(env, Forward(cfg, env, c))
  {
    var i := Answer(env, c);
    var d := NextResponse(c, i).core;
    if d.st.messages != c.st.messages {
      DictionariesAppend(c.st.messages, UserMessage(i.guard.value, i.newId));
    } else {
      SameCourse(env, c, d);
    }
  }

  lemma CallCourse(cfg: Config, env: Env, c: Core)
    requires OnCourse(env, c) && (c.pc.NextCall? || c.pc.Prepare? || c.pc.Decided?)
    ensures OnCourse(env, Forward(cfg, env, c))
  {
    if c.pc.NextCall? {
      NextCallStep(cfg, c, Answer(env, c));
      NextCallCourse(cfg, env, c);
    } else {
      SameCourse(env, c, Forward(cfg, env, c));
    }
  }

  lemma NextCallStep(cfg: Config, c: Core, i: Input)
    requires c.pc.NextCall?
    ensures Next(cfg, c, i) == NextTool(cfg, c, c.pc.pending, i)
  {
  }

  lemma NextCallCourse(cfg: Config, env: Env, c: Core)
    requires OnCourse(env, c) && c.pc.NextCall?
    ensures OnCourse(env, NextTool(cfg, c, c.pc.pending, Answer(env, c)).core)
  {
    if c.pc.pending != [] {
      assert [c.pc.pending[0]] + c.pc.pending[1..] == c.pc.pending;
    }
    SameCourse(env, c, NextTool(cfg, c, c.pc.pending, Answer(env, c)).core);
  }

  lemma ApprovedCourse(cfg: Config, env: Env, c: Core)
    requires OnCourse(env, c) && c.pc.Approved?
    ensures OnCourse(env, Forward(cfg, env, c))
  {
    SameCourse(env, c, NextApproved(c, c.pc.call, c.pc.rest, c.pc.decision).core);
  }

  lemma ExecutionCourse(cfg: Config, env: Env, c: Core)
    requires OnCourse(env, c) && c.pc.Execute?
    ensures OnCourse(env, Forward(cfg, env, c))
  {
    ExecutionShape(c, c.pc.call, c.pc.rest, Answer(env, c));
    SameCourse(env, c, NextExecution(c, c.pc.call, c.pc.rest, Answer(env, c)).core);
  }

  lemma DecisionCourse(cfg: Config, env: Env, c: Core)
    requires OnCourse(env, c) && c.pc.AwaitApproval?
    ensures OnCourse(env, Forward(cfg, env, c))
  {
    Decide(cfg, env, c);
    ExtendedHonest(env, c, c.approvals);
  }

  /** After one more result exactly the remaining calls are pending. */
  lemma OneMoreCourse(env: Env, c: Core, d: Core, call: ToolCall, rest: seq<ToolCall>)
    requires OnCourse(env, c) && InCalls(c.pc) && Owed(c.pc) == [call] + rest
    requires d.pc.Settled? && d.pc.rest == rest && d.approvals == c.approvals && d.resume == c.resume
    requires Clean(d.st) && d.st.status == c.st.status
    requires LastAssistant(d.st.messages) == LastAssistant(c.st.messages) && Done(d.st) == Done(c.st) + {Some(call.id)}
    ensures OnCourse(env, d)
  {
    PendingAdvances(Response(c.st), Done(c.st));
    assert ([call] + rest)[0] == call && ([call] + rest)[1..] == rest;
  }

  lemma ResultCourse(cfg: Config, env: Env, c: Core)
    requires OnCourse(env, c) && c.pc.Settle?
    ensures OnCourse(env, Forward(cfg, env, c)) && Forward(cfg, env, c).pc.Settled?
  {
    var i := Answer(env, c);
    var result := ToolMessage(c.pc.call, c.pc.started, i.tool, i.newId);
    DictionariesAppend(c.st.messages, result);
    LastAssistantAppend(c.st.messages, result);
    CompletedAppend(c.st.messages, result);
    OneMoreCourse(env, c, NextResult(c, c.pc.call, c.pc.rest, c.pc.started, i).core, c.pc.call, c.pc.rest);
  }

  lemma SettledCourse(cfg: Config, env: Env, c: Core)
    requires OnCourse(env, c) && c.pc.Settled?
    ensures OnCourse(env, Forward(cfg, env, c))
  {
    NoMail(c.st, Answer(env, c));
    var d := Forward(cfg, env, c);
    assert d == c.(pc := NextCall(c.pc.rest))
        || d == c.(pc := Finishing, st := c.st.(finalOutput := Some(c.pc.content), status := Completed));
    SameCourse(env, c, d);
  }

  lemma StepCourse(cfg: Config, env: Env, c: Core)
    requires OnCourse(env, c) && !c.pc.Stopped? && WellBehaved(env)
    ensures OnCourse(env, Forward(cfg, env, c))
  {
    match c.pc
    case LoopTop => PassCourse(cfg, env, c);
    case AwaitProvider => AnswerCourse(cfg, env, c);
    case Dispatch => ResponseCourse(cfg, env, c);
    case Execute(_, _) => ExecutionCourse(cfg, env, c);
    case AwaitApproval(_, _) => DecisionCourse(cfg, env, c);
    case Settle(_, _, _) => ResultCourse(cfg, env, c);
    case Settled(_, _, _, _) => SettledCourse(cfg, env, c);
    case NextCall(_) => CallCourse(cfg, env, c);
    case Prepare(_, _) => CallCourse(cfg, env, c);
    case Decided(_, _, _) => CallCourse(cfg, env, c);
    case Approved(_, _, _) => ApprovedCourse(cfg, env, c);
    case Build => RequestCourse(cfg, env, c);
    case CallProvider => RequestCourse(cfg, env, c);
    case _ => EarlyCourse(cfg, env, c);
  }

  /** The one window in which a resumed loop would decide differently. */
  predicate TerminalSuccess(cfg: Config, pc: Pc) {
    pc.Settled? && pc.success && pc.call.name in cfg.terminalTools
  }

  predicate InPass(pc: Pc) { pc.Dispatch? || InCalls(pc) }

  /** From inside a pass, reading the newest response again leads to the same end. */
  ghost predicate Joins(cfg: Config, env: Env, c: Core)
    requires ResumeArmed(c)
  {
    InPass(c.pc) && !TerminalSuccess(cfg, c.pc) ==>
      Same(Outcome(cfg, env, c), Outcome(cfg, env, AtDispatch(c.st, c.approvals)))
  }

  lemma ResponseShape(cfg: Config, env: Env, c: Core)
    requires OnCourse(env, c) && c.pc.Dispatch? && InCalls(Forward(cfg, env, c).pc)
    ensures Forward(cfg, env, c) == c.(pc := NextCall(Pending(Response(c.st), Done(c.st))))
  {
  }

  lemma CallShape(cfg: Config, env: Env, c: Core)
    requires OnCourse(env, c) && (c.pc.Prepare? || c.pc.Decided? || c.pc.Approved?)
    requires InCalls(Forward(cfg, env, c).pc)
    ensures Forward(cfg, env, c).st == c.st && Forward(cfg, env, c).approvals == c.approvals
  {
  }

  lemma NextCallShape(cfg: Config, env: Env, c: Core)
    requires OnCourse(env, c) && c.pc.NextCall? && InCalls(Forward(cfg, env, c).pc)
    ensures Forward(cfg, env, c).st == c.st && Forward(cfg, env, c).approvals == c.approvals
  {
  }

  lemma ExecutionKeeps(cfg: Config, env: Env, c: Core)
    requires OnCourse(env, c) && c.pc.Execute? && InCalls(Forward(cfg, env, c).pc)
    ensures Forward(cfg, env, c).st == c.st && Forward(cfg, env, c).approvals == c.approvals
  {
  }

  lemma SettledShape(cfg: Config, env: Env, c: Core)
    requires OnCourse(env, c) && c.pc.Settled?
    ensures if TerminalSuccess(cfg, c.pc) then Forward(cfg, env, c).pc.Finishing?
            else Forward(cfg, env, c) == c.(pc := NextCall(c.pc.rest))
  {
    NoMail(c.st, Answer(env, c));
  }

  lemma SameStateJoins(cfg: Config, env: Env, c: Core)
    requires OnCourse(env, c) && InPass(c.pc) && !TerminalSuccess(cfg, c.pc) && Joins(cfg, env, c)
    requires Forward(cfg, env, c).st == c.st && Forward(cfg, env, c).approvals == c.approvals
    ensures ResumeArmed(Forward(cfg, env, c)) && Joins(cfg, env, Forward(cfg, env, c))
  {
    OutcomeStep(cfg, env, c);
  }

  lemma DecisionJoins(cfg: Config, env: Env, c: Core)
    requires OnCourse(env, c) && c.pc.AwaitApproval? && Joins(cfg, env, c)
    ensures ResumeArmed(Forward(cfg, env, c)) && Joins(cfg, env, Forward(cfg, env, c))
  {
    Decide(cfg, env, c);
    OutcomeStep(cfg, env, c);
    ExtendedHonest(env, c, c.approvals);
    ApprovalsIrrelevant(cfg, env, AtDispatch(c.st, c.approvals), Forward(cfg, env, c).approvals);
  }

  lemma Reread(cfg: Config, env: Env, st: RunState, approvals: map<ApprovalKey, Decision>)
    requires Response(st) != []
    ensures var c := AtDispatch(st, approvals);
            Forward(cfg, env, c) == c.(pc := NextCall(Pending(Response(st), Done(st))))
  {
  }

  lemma SettledJoins(cfg: Config, env: Env, d: Core)
    requires OnCourse(env, d) && d.pc.Settled? && !TerminalSuccess(cfg, d.pc)
    ensures Joins(cfg, env, d)
  {
    var again := AtDispatch(d.st, d.approvals);
    SettledShape(cfg, env, d);
    Reread(cfg, env, d.st, d.approvals);
    SameForward(cfg, env, d, again);
  }

  lemma SameForward(cfg: Config, env: Env, c: Core, d: Core)
    requires ResumeArmed(c) && !c.pc.Stopped? && ResumeArmed(d) && !d.pc.Stopped?
    requires Forward(cfg, env, c) == Forward(cfg, env, d)
    ensures Outcome(cfg, env, c) == Outcome(cfg, env, d)
  {
    OutcomeStep(cfg, env, c);
    OutcomeStep(cfg, env, d);
  }

  lemma StepJoins(cfg: Config, env: Env, c: Core)
    requires OnCourse(env, c) && !c.pc.Stopped? && WellBehaved(env) && Joins(cfg, env, c)
    ensures OnCourse(env, Forward(cfg, env, c)) && Joins(cfg, env, Forward(cfg, env, c))
  {
    StepCourse(cfg, env, c);
    var d := Forward(cfg, env, c);
    if InPass(d.pc) && !d.pc.Dispatch? {
      PassShape(cfg, env, c);
      if c.pc.Settle? {
        ResultCourse(cfg, env, c);
        if !TerminalSuccess(cfg, d.pc) {
          SettledJoins(cfg, env, d);
        }
      } else if c.pc.AwaitApproval? {
        DecisionJoins(cfg, env, c);
      } else {
        PassKeepsState(cfg, env, c);
        SameStateJoins(cfg, env, c);
      }
    }
  }

  /** Inside a pass only results and decisions change what a resume would read. */
  lemma PassKeepsState(cfg: Config, env: Env, c: Core)
    requires OnCourse(env, c) && InPass(c.pc) && !c.pc.Settle? && !c.pc.AwaitApproval? && !TerminalSuccess(cfg, c.pc)
    requires InCalls(Forward(cfg, env, c).pc)
    ensures Forward(cfg, env, c).st == c.st && Forward(cfg, env, c).approvals == c.approvals
  {
    match c.pc
    case Dispatch => ResponseShape(cfg, env, c);
    case Execute(_, _) => ExecutionKeeps(cfg, env, c);
    case NextCall(_) => NextCallShape(cfg, env, c);
    case Settled(_, _, _, _) => SettledShape(cfg, env, c);
    case _ => CallShape(cfg, env, c);
  }

  /** Tool steps are reached from inside the pass only. */
  lemma PassShape(cfg: Config, env: Env, c: Core)
    requires InCalls(Forward(cfg, env, c).pc)
    ensures InPass(c.pc)
  {
  }

  // ----- The run -----

  /** What the newest checkpoint promises about the process that would resume from it. */
  ghost predicate Anchored(cfg: Config, env: Env, m: Machine)
    requires ResumeArmed(m.core)
  {
    m.log != [] ==>
      var k := Latest(m.log);
      if k.point == Terminal then AllDictionaries(k.state.messages) && m.core.pc.Stopped? && Same(m.core.st, k.state)
      else if k.point == BeforeFinalize then Clean(k.state) && Same(Outcome(cfg, env, m.core), k.state.(status := Completed))
      else if ContinuesPass(k.point) then
        && Clean(k.state) && k.state.status == Running && DistinctResponse(k.state)
        && (!TerminalSuccess(cfg, m.core.pc) ==>
              Same(Outcome(cfg, env, m.core), Outcome(cfg, env, AtDispatch(k.state, m.core.approvals))))
      else true
  }

  /** The points from which resuming repeats nothing: all but BEFORE_MODEL, MODEL_IN_FLIGHT and the manual ones. */
  predicate Recoverable(cfg: Config, m: Machine) {
    && m.log != []
    && (ContinuesPass(Latest(m.log).point) || Latest(m.log).point in {BeforeFinalize, Terminal})
    && !TerminalSuccess(cfg, m.core.pc)
  }

  predicate GoodCommit(o: Output) {
    o.commit.Some? ==>
      && (ContinuesPass(o.commit.value.point) ==> InPass(o.core.pc))
      && (o.commit.value.point == BeforeFinalize ==> o.core.pc.Finishing?)
      && (o.commit.value.point == Terminal ==> o.core.pc.Stopped?)
  }

  lemma LoopCommit(cfg: Config, c: Core, i: Input)
    requires InLoop(c.pc)
    ensures GoodCommit(Next(cfg, c, i))
  {
  }

  lemma ToolCommit(cfg: Config, c: Core, i: Input)
    requires !InLoop(c.pc)
    ensures GoodCommit(Next(cfg, c, i))
  {
  }

  ghost predicate Invariant(cfg: Config, env: Env, m: Machine) {
    OnCourse(env, m.core) && Joins(cfg, env, m.core) && Anchored(cfg, env, m)
  }

  lemma QuietStep(cfg: Config, env: Env, m: Machine, n: Machine)
    requires Invariant(cfg, env, m) && OnCourse(env, n.core) && Joins(cfg, env, n.core)
    requires n.log == m.log && !m.core.pc.Stopped? && !TerminalSuccess(cfg, m.core.pc)
    requires Outcome(cfg, env, n.core) == Outcome(cfg, env, m.core)
    ensures Invariant(cfg, env, n)
  {
    if m.log != [] {
      ApprovalsIrrelevant(cfg, env, AtDispatch(Latest(m.log).state, m.core.approvals), n.core.approvals);
    }
  }

  lemma FinishingOutcome(cfg: Config, env: Env, c: Core)
    requires ResumeArmed(c) && c.pc.Finishing?
    ensures Outcome(cfg, env, c) == c.st.(status := Completed)
  {
    FinishingStep(cfg, c, Answer(env, c));
    OutcomeStep(cfg, env, c);
    StoppedOutcome(cfg, env, Forward(cfg, env, c));
  }

  lemma FinishingStep(cfg: Config, c: Core, i: Input)
    requires c.pc.Finishing?
    ensures Next(cfg, c, i).core == c.(pc := Stopped(Returned), st := c.st.(status := Completed), resume := None)
  {
  }

  lemma StoppedOutcome(cfg: Config, env: Env, c: Core)
    requires ResumeArmed(c) && c.pc.Stopped?
    ensures Outcome(cfg, env, c) == c.st
  {
  }

  lemma CommittingStep(cfg: Config, env: Env, n: Machine, o: Output, log: seq<Checkpoint>)
    requires o.commit.Some? && GoodCommit(o) && n.core == o.core && n.log == Commits(log, o.commit, o.core.st)
    requires OnCourse(env, n.core) && Joins(cfg, env, n.core)
    ensures Invariant(cfg, env, n)
  {
    assert Latest(n.log) == Checkpoint(NextSequence(log), o.commit.value.point, o.commit.value.status, n.core.st, o.commit.value.actions);
    AnchoredHere(cfg, env, n);
  }

  /** A process that has just committed its own state is anchored in it. */
  lemma AnchoredHere(cfg: Config, env: Env, n: Machine)
    requires OnCourse(env, n.core) && Joins(cfg, env, n.core) && n.log != [] && Latest(n.log).state == n.core.st
    requires ContinuesPass(Latest(n.log).point) ==> InPass(n.core.pc)
    requires Latest(n.log).point == BeforeFinalize ==> n.core.pc.Finishing?
    requires Latest(n.log).point == Terminal ==> n.core.pc.Stopped?
    ensures Anchored(cfg, env, n)
  {
    if n.core.pc.Finishing? {
      FinishingOutcome(cfg, env, n.core);
    }
  }

  lemma TerminalSuccessCommits(cfg: Config, env: Env, c: Core)
    requires TerminalSuccess(cfg, c.pc)
    ensures Next(cfg, c, Answer(env, c)).commit.Some?
  {
  }

  lemma TickKeeps(cfg: Config, env: Env, m: Machine)
    requires Invariant(cfg, env, m) && WellBehaved(env) && !m.core.pc.Stopped?
    ensures Invariant(cfg, env, Step(cfg, m, Answer(env, m.core)))
    ensures Outcome(cfg, env, Step(cfg, m, Answer(env, m.core)).core) == Outcome(cfg, env, m.core)
  {
    var o := Next(cfg, m.core, Answer(env, m.core));
    StepJoins(cfg, env, m.core);
    OutcomeStep(cfg, env, m.core);
    var n := Apply(m, o);
    if o.commit.Some? {
      if InLoop(m.core.pc) {
        LoopCommit(cfg, m.core, Answer(env, m.core));
      } else {
        ToolCommit(cfg, m.core, Answer(env, m.core));
      }
      CommittingStep(cfg, env, n, o, m.log);
    } else {
      if TerminalSuccess(cfg, m.core.pc) {
        TerminalSuccessCommits(cfg, env, m.core);
      }
      QuietStep(cfg, env, m, n);
    }
  }

  /** What resume builds from a recoverable checkpoint. */
  lemma ReopenShape(cfg: Config, m: Machine)
    requires Recoverable(cfg, m) && AllDictionaries(Latest(m.log).state.messages)
    ensures var k, c := Latest(m.log), Reopen(m.log, m.core);
            c == if k.point == Terminal then Core(Stopped(AlreadyTerminal), StripState(k.state), None, m.core.approvals)
                 else Core(Entry, StripState(k.state), Some(k.point), m.core.approvals)
  {
    DictionariesRestore(Latest(m.log).state);
  }

  lemma StripClean(st: RunState)
    ensures Same(StripState(st), st)
    ensures AllDictionaries(st.messages) ==> AllDictionaries(StripState(st).messages)
    ensures DistinctResponse(st) ==> DistinctResponse(StripState(st))
  {
    StripTwice(st.messages);
    LastAssistantStrip(st.messages);
  }

  /** A resumed loop goes straight to the newest response. */
  lemma ResumedPass(cfg: Config, env: Env, c: Core)
    requires c.pc.Entry? && Continuing(c.resume) && Clean(c.st) && c.st.status == Running && LastAssistant(c.st.messages).Some?
    ensures Outcome(cfg, env, c) == Outcome(cfg, env, AtDispatch(c.st, c.approvals))
  {
    OutcomeStep(cfg, env, c);
    var top := c.(pc := LoopTop);
    assert Forward(cfg, env, c) == top;
    OutcomeStep(cfg, env, top);
    NoMail(c.st, Answer(env, top));
    TopToDispatch(cfg, env, top);
  }

  lemma TopToDispatch(cfg: Config, env: Env, top: Core)
    requires top.pc.LoopTop? && Continuing(top.resume) && !top.st.cancellationRequested && LastAssistant(top.st.messages).Some?
    ensures Forward(cfg, env, top) == AtDispatch(top.st, top.approvals)
  {
    NoMail(top.st, Answer(env, top));
    assert Observe(top.st, Answer(env, top)) == top.st;
  }

  lemma ClosedOutcome(cfg: Config, env: Env, c: Core)
    requires c.pc.Entry? && c.resume == Some(BeforeFinalize) && c.st.error == None
    ensures Outcome(cfg, env, c) == c.st.(status := Completed)
  {
    OutcomeStep(cfg, env, c);
  }

  lemma ContinuedCrash(cfg: Config, env: Env, m: Machine)
    requires Invariant(cfg, env, m) && Recoverable(cfg, m) && ContinuesPass(Latest(m.log).point)
    ensures Invariant(cfg, env, Crash(m))
    ensures Same(Outcome(cfg, env, Crash(m).core), Outcome(cfg, env, m.core))
  {
    var k := Latest(m.log);
    ReopenShape(cfg, m);
    var n := m.(core := Core(Entry, StripState(k.state), Some(k.point), m.core.approvals));
    assert Crash(m) == n;
    ResumedInvariant(cfg, env, n);
  }

  /** A process resumed at a continuing point is on course for what its checkpoint promises. */
  lemma ResumedInvariant(cfg: Config, env: Env, n: Machine)
    requires n.log != [] && ContinuesPass(Latest(n.log).point) && Honest(env, n.core.approvals)
    requires var k := Latest(n.log);
             && Clean(k.state) && k.state.status == Running && DistinctResponse(k.state)
             && n.core == Core(Entry, StripState(k.state), Some(k.point), n.core.approvals)
    ensures Invariant(cfg, env, n)
    ensures Same(Outcome(cfg, env, n.core), Outcome(cfg, env, AtDispatch(Latest(n.log).state, n.core.approvals)))
  {
    var k := Latest(n.log);
    StripClean(k.state);
    ResumedPass(cfg, env, n.core);
    OutcomeLike(cfg, env, AtDispatch(n.core.st, n.core.approvals), AtDispatch(k.state, n.core.approvals));
    ResumedCourse(env, n.core, k.state);
  }

  lemma ResumedCourse(env: Env, c: Core, st: RunState)
    requires c.pc.Entry? && Continuing(c.resume) && Honest(env, c.approvals) && c.st == StripState(st)
    requires Clean(st) && st.status == Running && DistinctResponse(st)
    ensures OnCourse(env, c)
  {
    StripClean(st);
  }

  lemma DecidedCrash(cfg: Config, env: Env, m: Machine)
    requires Invariant(cfg, env, m) && Recoverable(cfg, m) && Latest(m.log).point == BeforeFinalize
    ensures Invariant(cfg, env, Crash(m))
    ensures Same(Outcome(cfg, env, Crash(m).core), Outcome(cfg, env, m.core))
  {
    var k := Latest(m.log);
    ReopenShape(cfg, m);
    StripClean(k.state);
    var c := Core(Entry, StripState(k.state), Some(BeforeFinalize), m.core.approvals);
    ClosedOutcome(cfg, env, c);
    assert Crash(m) == m.(core := c);
    ClosingInvariant(cfg, env, m.(core := c));
  }

  lemma ClosingInvariant(cfg: Config, env: Env, n: Machine)
    requires n.core.pc == Entry && n.core.resume == Some(BeforeFinalize) && Honest(env, n.core.approvals) && Clean(n.core.st)
    requires n.log != [] && Latest(n.log).point == BeforeFinalize && Clean(Latest(n.log).state)
    requires Same(n.core.st, Latest(n.log).state)
    ensures Invariant(cfg, env, n)
  {
    assert OnCourse(env, n.core);
    ClosedOutcome(cfg, env, n.core);
    assert Same(n.core.st.(status := Completed), Latest(n.log).state.(status := Completed));
  }

  lemma ClosedCrash(cfg: Config, env: Env, m: Machine)
    requires Invariant(cfg, env, m) && Recoverable(cfg, m) && Latest(m.log).point == Terminal
    ensures Invariant(cfg, env, Crash(m))
    ensures Same(Outcome(cfg, env, Crash(m).core), Outcome(cfg, env, m.core))
  {
    var k := Latest(m.log);
    ReopenShape(cfg, m);
    StripClean(k.state);
    var n := m.(core := Core(Stopped(AlreadyTerminal), StripState(k.state), None, m.core.approvals));
    assert Crash(m) == n;
    StoppedInvariant(cfg, env, n);
    assert Outcome(cfg, env, m.core) == m.core.st;
  }

  lemma StoppedInvariant(cfg: Config, env: Env, n: Machine)
    requires n.core.pc.Stopped? && n.core.resume == None && Honest(env, n.core.approvals)
    requires n.log != [] && Latest(n.log).point == Terminal && Same(n.core.st, Latest(n.log).state)
    requires AllDictionaries(n.core.st.messages) && AllDictionaries(Latest(n.log).state.messages)
    ensures OnCourse(env, n.core) && Joins(cfg, env, n.core) && Anchored(cfg, env, n)
    ensures Outcome(cfg, env, n.core) == n.core.st
  {
    StoppedCourse(env, n.core);
    StoppedOutcome(cfg, env, n.core);
    StoppedAnchored(cfg, env, n);
  }

  lemma StoppedAnchored(cfg: Config, env: Env, n: Machine)
    requires ResumeArmed(n.core) && n.core.pc.Stopped?
    requires n.log != [] && Latest(n.log).point == Terminal && Same(n.core.st, Latest(n.log).state)
    requires AllDictionaries(Latest(n.log).state.messages)
    ensures Anchored(cfg, env, n)
  {
  }

  lemma StoppedCourse(env: Env, c: Core)
    requires c.pc.Stopped? && c.resume == None && Honest(env, c.approvals) && AllDictionaries(c.st.messages)
    ensures OnCourse(env, c)
  {
  }

  /** The environment answers every step, and processes are lost at recoverable checkpoints only. */
  ghost predicate Follows(cfg: Config, env: Env, m: Machine, events: seq<Event>) {
    events == [] ||
      var before := events[..|events| - 1];
      && Follows(cfg, env, m, before)
      && match events[|events| - 1] {
        case Tick(i) => i == Answer(env, Run(cfg, m, before).core)
        case Restart => Recoverable(cfg, Run(cfg, m, before))
      }
  }

  lemma {:induction false} RunKeeps(cfg: Config, env: Env, m: Machine, events: seq<Event>)
    requires Invariant(cfg, env, m) && WellBehaved(env) && Follows(cfg, env, m, events)
    ensures Invariant(cfg, env, Run(cfg, m, events))
    ensures Same(Outcome(cfg, env, Run(cfg, m, events).core), Outcome(cfg, env, m.core))
  {
    if events != [] {
      var n := |events| - 1;
      RunKeeps(cfg, env, m, events[..n]);
      var before := Run(cfg, m, events[..n]);
      match events[n]
      case Tick(i) =>
        if before.core.pc.Stopped? {
          StoppedStays(cfg, before, i);
        } else {
          TickKeeps(cfg, env, before);
        }
      case Restart =>
        if ContinuesPass(Latest(before.log).point) {
          ContinuedCrash(cfg, env, before);
        } else if Latest(before.log).point == Terminal {
          ClosedCrash(cfg, env, before);
        } else {
          DecidedCrash(cfg, env, before);
        }
    }
  }

  lemma StoppedStays(cfg: Config, m: Machine, i: Input)
    requires m.core.pc.Stopped?
    ensures Step(cfg, m, i) == m
  {
  }

  /**
   * Refinement. Take a deterministic environment whose answers carry dictionaries and distinct call
   * ids, and lose the process any number of times at AFTER_MODEL, WAITING_APPROVAL, BEFORE_TOOL,
   * AFTER_TOOL, BEFORE_FINALIZE or TERMINAL (but not between the result of a successful terminal tool
   * and its BEFORE_FINALIZE). Then at every moment the turn is heading for the state in which a
   * process that is never lost ends, and when it stops it is in that state: same messages, final
   * output, error, iteration and call counts.
   */
  lemma ResumeRefines(cfg: Config, env: Env, m: Machine, events: seq<Event>)
    requires Fresh(m) && Clean(m.core.st) && WellBehaved(env) && Follows(cfg, env, m, events)
    ensures ResumeArmed(Run(cfg, m, events).core)
    ensures Same(Outcome(cfg, env, Run(cfg, m, events).core), Outcome(cfg, env, m.core))
    ensures Run(cfg, m, events).core.pc.Stopped? ==> Same(Run(cfg, m, events).core.st, Outcome(cfg, env, m.core))
  {
    RunKeeps(cfg, env, m, events);
  }

  lemma {:induction false} FollowsFrom(cfg: Config, env: Env, m: Machine, first: seq<Event>, rest: seq<Event>)
    requires Follows(cfg, env, m, first) && Follows(cfg, env, Run(cfg, m, first), rest)
    ensures Follows(cfg, env, m, first + rest)
  {
    if rest == [] {
      assert first + rest == first;
    } else {
      var n := |rest| - 1;
      FollowsFrom(cfg, env, m, first, rest[..n]);
      RunAppend(cfg, m, first, rest[..n]);
      assert (first + rest)[..|first + rest| - 1] == first + rest[..n];
    }
  }

  lemma OneTick(cfg: Config, env: Env, m: Machine)
    ensures var e := [Tick(Answer(env, m.core))];
            Follows(cfg, env, m, e) && Run(cfg, m, e) == Step(cfg, m, Answer(env, m.core))
  {
    var e := [Tick(Answer(env, m.core))];
    assert e[..0] == [];
    assert Run(cfg, m, e[..0]) == m;
  }

  /** A process that is left alone stops after finitely many steps, in the state `Outcome` names. */
  lemma {:induction false} StopsAlone(cfg: Config, env: Env, m: Machine) returns (events: seq<Event>)
    requires ResumeArmed(m.core)
    ensures Follows(cfg, env, m, events) && Restart !in events
    ensures Run(cfg, m, events).core.pc.Stopped? && Run(cfg, m, events).core.st == Outcome(cfg, env, m.core)
    decreases Passes(cfg, m.core), Stage(m.core.pc), ToolWork(m.core.pc)
  {
    if m.core.pc.Stopped? {
      events := [];
    } else {
      OutcomeStep(cfg, env, m.core);
      OneTick(cfg, env, m);
      var first := [Tick(Answer(env, m.core))];
      var rest := StopsAlone(cfg, env, Step(cfg, m, Answer(env, m.core)));
      events := first + rest;
      FollowsFrom(cfg, env, m, first, rest);
      RunAppend(cfg, m, first, rest);
    }
  }

  /**
   * The two runs side by side: after any recoverable crashes the turn can be driven to its end, and
   * every such end agrees with the end of the run without crashes.
   */
  lemma CrashesLeaveNoTrace(cfg: Config, env: Env, m: Machine, events: seq<Event>)
    returns (alone: seq<Event>, rest: seq<Event>)
    requires Fresh(m) && Clean(m.core.st) && WellBehaved(env) && Follows(cfg, env, m, events)
    ensures Restart !in alone && Follows(cfg, env, m, alone) && Run(cfg, m, alone).core.pc.Stopped?
    ensures Restart !in rest && Follows(cfg, env, m, events + rest) && Run(cfg, m, events + rest).core.pc.Stopped?
    ensures Same(Run(cfg, m, events + rest).core.st, Run(cfg, m, alone).core.st)
  {
    ResumeRefines(cfg, env, m, events);
    alone := StopsAlone(cfg, env, m);
    rest := StopsAlone(cfg, env, Run(cfg, m, events));
    FollowsFrom(cfg, env, m, events, rest);
    RunAppend(cfg, m, events, rest);
  }

  // ----- A loop without terminal tools -----

  /** The environment answers every step, and processes are lost only where resuming repeats nothing. */
  ghost predicate FollowsPlain(cfg: Config, env: Env, m: Machine, events: seq<Event>) {
    events == [] ||
      var before := events[..|events| - 1];
      && FollowsPlain(cfg, env, m, before)
      && match events[|events| - 1] {
        case Tick(i) => i == Answer(env, Run(cfg, m, before).core)
        case Restart => LostWhereCommitted(Run(cfg, m, before).log)
      }
  }

  predicate LostWhereCommitted(log: seq<Checkpoint>) {
    log != [] && (ContinuesPass(Latest(log).point) || Latest(log).point in {BeforeFinalize, Terminal})
  }

  lemma {:induction false} PlainFollows(cfg: Config, env: Env, m: Machine, events: seq<Event>)
    requires cfg.terminalTools == {} && FollowsPlain(cfg, env, m, events)
    ensures Follows(cfg, env, m, events)
  {
    if events != [] {
      PlainFollows(cfg, env, m, events[..|events| - 1]);
    }
  }

  /**
   * The refinement for the one loop that has checkpoints, the root agent's, which has no terminal tools: the
   * newest checkpoint alone decides whether a loss leaves no trace.
   */
  lemma RootResumeRefines(cfg: Config, env: Env, m: Machine, events: seq<Event>)
    requires cfg.terminalTools == {}
    requires Fresh(m) && Clean(m.core.st) && WellBehaved(env) && FollowsPlain(cfg, env, m, events)
    ensures ResumeArmed(Run(cfg, m, events).core)
    ensures Same(Outcome(cfg, env, Run(cfg, m, events).core), Outcome(cfg, env, m.core))
    ensures Run(cfg, m, events).core.pc.Stopped? ==> Same(Run(cfg, m, events).core.st, Outcome(cfg, env, m.core))
  {
    PlainFollows(cfg, env, m, events);
    ResumeRefines(cfg, env, m, events);
  }
}
