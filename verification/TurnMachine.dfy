/**
 * One durable turn as a step machine (runtime/agent_loop.py, runtime/session.py).
 *
 * A step is a stretch of the loop that contains at most one checkpoint commit and at most one
 * externally visible effect, so a crash can fall between any two commits or effects. Everything the
 * loop learns from outside (provider, tools, approvals, clock, mailbox, cancellation) is in `Input`.
 */
module TurnMachine {
  import opened Messages
  import opened RunStates
  import opened Recovery

  datatype Limits = Limits(maxIterations: nat, maxModelCalls: nat, maxToolCalls: nat)

  datatype Config = Config(limits: Limits, terminalTools: set<string>)

  datatype ProviderOutcome =
    | Answered(content: string, reasoning: Option<string>, calls: seq<ToolCall>)
    | ProviderFailed(error: RunError)

  /** The verdict before a tool starts; Deny also covers unknown tools and arguments that fail validation. */
  datatype Permission = Allow | Deny | Ask

  datatype Decision = Allowed | Denied | CancelTurn

  datatype ToolOutcome = ToolOutcome(success: bool, content: string, metadata: map<string, Json>)

  datatype Input = Input(
    taskCancelled: bool,
    cancelRequested: bool,
    overWallTime: bool,
    mail: seq<string>,
    contextError: Option<RunError>,
    provider: ProviderOutcome,
    permission: Permission,
    decision: Decision,
    tool: ToolOutcome,
    guard: Option<string>,
    newId: string)

  /** The exceptions the loop converts into a terminal state. */
  datatype Failure =
    | CancellationRequested
    | OverWallTime | OverIterations | OverModelCalls | OverToolCalls
    | NoAnswer | NoCommittedResponse
    | Reported(error: RunError)

  datatype StopReason = Returned | TaskCancelled | NothingToResume | AlreadyTerminal | NeedsRecovery | RestoreFailed

  datatype Pc =
    | Entry
    | LoopTop
    | Build
    | CallProvider
    | AwaitProvider
    | Dispatch
    | NextCall(pending: seq<ToolCall>)
    | Prepare(call: ToolCall, rest: seq<ToolCall>)
    | Execute(call: ToolCall, rest: seq<ToolCall>)
    | AwaitApproval(call: ToolCall, rest: seq<ToolCall>)
    | Decided(call: ToolCall, rest: seq<ToolCall>, decision: Decision)
    | Approved(call: ToolCall, rest: seq<ToolCall>, decision: Decision)
    | Settle(call: ToolCall, rest: seq<ToolCall>, started: bool)
    | Settled(call: ToolCall, rest: seq<ToolCall>, success: bool, content: string)
    | Finishing
    | Raising(failure: Failure)
    | Stopped(reason: StopReason)

  /** Identity of one approval inside a turn: the call id and its arguments. */
  datatype ApprovalKey = ApprovalKey(id: string, arguments: Arguments)

  /** Logical action identity, stable across restarts. */
  datatype ActionId = ActionId(runId: string, turnId: string, callId: string)

  /** The loop itself. All of it is lost in a crash except `approvals`, which are committed rows. */
  datatype Core = Core(pc: Pc, st: RunState, resume: Option<ResumePoint>, approvals: map<ApprovalKey, Decision>)

  datatype Commit = Commit(point: ResumePoint, status: DurableStatus, actions: seq<ActionId>)

  datatype Effect = NoEffect | ProviderCalled | ToolStarted(id: string) | FreshApproval(id: string)

  datatype Output = Output(core: Core, commit: Option<Commit>, effect: Effect)

  // ----- Pieces of one step -----

  predicate IsSpace(c: char) { c in {' ', '\t', '\n', '\r'} }

  function TrimLeft(s: string): string {
    if s != "" && IsSpace(s[0]) then TrimLeft(s[1..]) else s
  }

  function TrimRight(s: string): string {
    if s != "" && IsSpace(s[|s| - 1]) then TrimRight(s[..|s| - 1]) else s
  }

  function Trim(s: string): string { TrimRight(TrimLeft(s)) }

  function ToRunError(f: Failure): RunError {
    match f
    case CancellationRequested => RunError("CANCELLED", "Run cancellation requested", "cancellation")
    case OverWallTime => RunError("LIMIT_REACHED", "Max wall time exceeded", "budget")
    case OverIterations => RunError("LIMIT_REACHED", "Max iterations exceeded", "budget")
    case OverModelCalls => RunError("LIMIT_REACHED", "Max model calls exceeded", "budget")
    case OverToolCalls => RunError("LIMIT_REACHED", "Max tool calls exceeded", "budget")
    case NoAnswer => RunError("PROVIDER_PROTOCOL_ERROR", "Model returned neither tool calls nor final text", "provider")
    case NoCommittedResponse =>
      RunError("PROVIDER_PROTOCOL_ERROR", "AFTER_MODEL checkpoint has no durable assistant message", "provider")
    case Reported(e) => e
  }

  function TaskCancellation(): RunError { RunError("CANCELLED", "Run task was cancelled", "cancellation") }

  function FailureStatus(e: RunError): RunStatus {
    if e.category == "cancellation" then Cancelled else Failed
  }

  function Durable(s: RunStatus): DurableStatus {
    match s
    case Completed => DurableCompleted
    case Cancelled => DurableCancelled
    case _ => DurableFailed
  }

  function Key(c: ToolCall): ApprovalKey { ApprovalKey(c.id, c.arguments) }

  function Action(st: RunState, c: ToolCall): ActionId { ActionId(st.runId, st.turnId, c.id) }

  function Continuing(resume: Option<ResumePoint>): bool { resume.Some? && ContinuesPass(resume.value) }

  /** A cancellation request made while the loop was away becomes visible at the next check. */
  function Observe(st: RunState, i: Input): RunState {
    if i.cancelRequested then st.(cancellationRequested := true) else st
  }

  function MailMessages(mail: seq<string>, id: string): (ms: seq<Message>)
    ensures |ms| == |mail| && forall k :: 0 <= k < |ms| ==> ms[k].role == "user" && ms[k].toolCalls == []
  {
    seq(|mail|, k requires 0 <= k < |mail| => UserMessage("父 Agent 追加指令：\n" + mail[k], id))
  }

  function Drain(st: RunState, i: Input): RunState {
    st.(messages := st.messages + MailMessages(i.mail, i.newId))
  }

  function Append(st: RunState, m: Message): RunState { st.(messages := st.messages + [m]) }

  function AssistantMessage(a: ProviderOutcome, id: string): Message
    requires a.Answered?
  {
    Message("assistant", a.content, a.reasoning, id, a.calls, None, None, map[])
  }

  function ToolMessage(call: ToolCall, started: bool, t: ToolOutcome, id: string): Message {
    Message("tool", t.content, None, id, [], Some(call.id), Some(call.name),
            t.metadata["status" := JStr(if started && t.success then "success" else "error")])
  }

  function Quiet(c: Core): Output { Output(c, None, NoEffect) }

  function Raise(c: Core, st: RunState, f: Failure): Output { Quiet(c.(pc := Raising(f), st := st)) }

  function Save(c: Core, point: ResumePoint): Output { Output(c, Some(Commit(point, DurableRunning, [])), NoEffect) }

  /** Asyncio cancellation leaves the loop without a terminal checkpoint. */
  function CancelOut(c: Core): Output {
    Quiet(c.(pc := Stopped(TaskCancelled), st := c.st.(status := Cancelled, error := Some(TaskCancellation()))))
  }

  function Close(c: Core, st: RunState): Output {
    Output(c.(pc := Stopped(Returned), st := st, resume := None), Some(Commit(Terminal, Durable(st.status), [])), NoEffect)
  }

  // ----- One step of AgentLoop.run -----

  function Next(cfg: Config, c: Core, i: Input): Output {
    match c.pc
    case Entry => NextEntry(c)
    case LoopTop => NextPass(cfg, c, i)
    case Build => NextRequest(cfg, c, i)
    case CallProvider => Output(c.(pc := AwaitProvider), None, ProviderCalled)
    case AwaitProvider => NextAnswer(c, i)
    case Dispatch => NextResponse(c, i)
    case NextCall(pending) => NextTool(cfg, c, pending, i)
    case Prepare(call, rest) =>
      Output(c.(pc := Execute(call, rest)), Some(Commit(ToolInFlight, DurableRunning, [Action(c.st, call)])), NoEffect)
    case Execute(call, rest) => NextExecution(c, call, rest, i)
    case AwaitApproval(call, rest) => NextDecision(c, call, rest, i)
    case Decided(call, rest, d) =>
      Output(c.(pc := Approved(call, rest, d)), Some(Commit(BeforeTool, DurableRunning, [])), FreshApproval(call.id))
    case Approved(call, rest, d) => NextApproved(c, call, rest, d)
    case Settle(call, rest, started) => NextResult(c, call, rest, started, i)
    case Settled(call, rest, success, content) => NextSettled(cfg, c, call, rest, success, content, i)
    case Finishing => Close(c, c.st.(status := Completed))
    case Raising(f) => NextFailure(c, f)
    case Stopped(_) => Quiet(c)
  }

  /** A turn whose outcome was already decided is only closed; any other enters the loop. */
  function NextEntry(c: Core): Output {
    var st := c.st.(status := Running);
    if c.resume == Some(BeforeFinalize)
      then Close(c, st.(status := if st.error.Some? then FailureStatus(st.error.value) else Completed))
      else Quiet(c.(pc := LoopTop, st := st))
  }

  /** The head of the while loop: checks, budget of iterations, mailbox, and the reused response. */
  function NextPass(cfg: Config, c: Core, i: Input): Output {
    var seen := Observe(c.st, i);
    if seen.cancellationRequested then Raise(c, seen, CancellationRequested)
    else if i.overWallTime then Raise(c, seen, OverWallTime)
    else if Continuing(c.resume) then
      var st := Drain(seen, i);
      if LastAssistant(st.messages).None? then Raise(c, st, NoCommittedResponse)
      else Quiet(c.(pc := Dispatch, st := st, resume := None))
    else if seen.iteration >= cfg.limits.maxIterations then Raise(c, seen, OverIterations)
    else Save(c.(pc := Build, st := Drain(seen.(iteration := seen.iteration + 1), i)), BeforeModel)
  }

  function NextRequest(cfg: Config, c: Core, i: Input): Output {
    if i.contextError.Some? then Raise(c, c.st, Reported(i.contextError.value))
    else if c.st.modelCallCount >= cfg.limits.maxModelCalls then Raise(c, c.st, OverModelCalls)
    else Save(c.(pc := CallProvider, st := c.st.(modelCallCount := c.st.modelCallCount + 1)), ModelInFlight)
  }

  function NextAnswer(c: Core, i: Input): Output {
    if i.taskCancelled then CancelOut(c)
    else if i.provider.ProviderFailed? then Raise(c, c.st, Reported(i.provider.error))
    else Save(c.(pc := Dispatch, st := Append(c.st, AssistantMessage(i.provider, i.newId))), AfterModel)
  }

  /** What the newest model response asks for. */
  function NextResponse(c: Core, i: Input): Output {
    match LastAssistant(c.st.messages)
    case None => Raise(c, c.st, NoCommittedResponse)
    case Some(response) =>
      if response.toolCalls != [] then
        Quiet(c.(pc := NextCall(Pending(response.toolCalls, CompletedIds(c.st.messages)))))
      else
        var text := Trim(response.content);
        if text == "" then Raise(c, c.st, NoAnswer)
        else if i.guard.Some? then Quiet(c.(pc := LoopTop, st := Append(c.st, UserMessage(i.guard.value, i.newId))))
        else Save(c.(pc := Finishing, st := c.st.(finalOutput := Some(text))), BeforeFinalize)
  }

  function NextTool(cfg: Config, c: Core, pending: seq<ToolCall>, i: Input): Output {
    var seen := Observe(c.st, i);
    if pending == [] then Quiet(c.(pc := LoopTop))
    else if seen.cancellationRequested then Raise(c, seen, CancellationRequested)
    else if seen.toolCallCount >= cfg.limits.maxToolCalls then Raise(c, seen, OverToolCalls)
    else Output(c.(pc := Prepare(pending[0], pending[1..]), st := seen),
                Some(Commit(BeforeTool, DurableRunning, [Action(seen, pending[0])])), NoEffect)
  }

  function NextExecution(c: Core, call: ToolCall, rest: seq<ToolCall>, i: Input): Output {
    if i.taskCancelled then CancelOut(c)
    else if call.arguments == Text("") then Quiet(c.(pc := Settle(call, rest, false)))
    else match i.permission {
      case Deny => Quiet(c.(pc := Settle(call, rest, false)))
      case Allow => Output(c.(pc := Settle(call, rest, true)), None, ToolStarted(call.id))
      case Ask =>
        if Key(call) in c.approvals
          then Quiet(c.(pc := Approved(call, rest, c.approvals[Key(call)])))
          else Save(c.(pc := AwaitApproval(call, rest)), WaitingApproval)
    }
  }

  /** The decision row is committed first, the checkpoint that follows it in the next step. */
  function NextDecision(c: Core, call: ToolCall, rest: seq<ToolCall>, i: Input): Output {
    if i.taskCancelled then CancelOut(c)
    else Quiet(c.(pc := Decided(call, rest, i.decision), approvals := c.approvals[Key(call) := i.decision]))
  }

  function NextApproved(c: Core, call: ToolCall, rest: seq<ToolCall>, d: Decision): Output {
    match d
    case CancelTurn => CancelOut(c)
    case Denied => Quiet(c.(pc := Settle(call, rest, false)))
    case Allowed => Output(c.(pc := Settle(call, rest, true)), None, ToolStarted(call.id))
  }

  function NextResult(c: Core, call: ToolCall, rest: seq<ToolCall>, started: bool, i: Input): Output {
    if i.taskCancelled then CancelOut(c)
    else
      var st := Append(c.st, ToolMessage(call, started, i.tool, i.newId)).(toolCallCount := c.st.toolCallCount + 1);
      Save(c.(pc := Settled(call, rest, started && i.tool.success, i.tool.content), st := st), AfterTool)
  }

  /** A successful terminal tool decides the turn; otherwise the next pending call follows. */
  function NextSettled(cfg: Config, c: Core, call: ToolCall, rest: seq<ToolCall>, success: bool, content: string, i: Input): Output {
    var st := Drain(c.st, i);
    if success && call.name in cfg.terminalTools
      then Save(c.(pc := Finishing, st := st.(finalOutput := Some(content), status := Completed)), BeforeFinalize)
      else Quiet(c.(pc := NextCall(rest), st := st))
  }

  function NextFailure(c: Core, f: Failure): Output {
    var e := ToRunError(f);
    Close(c, c.st.(status := FailureStatus(e), error := Some(e)))
  }

  // ----- The durable machine -----

  datatype Checkpoint = Checkpoint(
    sequence: nat, point: ResumePoint, status: DurableStatus, state: RunState, actions: seq<ActionId>)

  /** `providerCalls`, `starts` and `boundaries` count what the outside world saw, across all processes. */
  datatype Machine = Machine(
    core: Core, log: seq<Checkpoint>, providerCalls: nat, starts: multiset<string>, boundaries: multiset<string>)

  function Latest(log: seq<Checkpoint>): Checkpoint
    requires log != []
  {
    log[|log| - 1]
  }

  predicate LatestIs(log: seq<Checkpoint>, point: ResumePoint) { log != [] && Latest(log).point == point }

  function NextSequence(log: seq<Checkpoint>): nat {
    if log == [] then 1 else Latest(log).sequence + 1
  }

  function Commits(log: seq<Checkpoint>, commit: Option<Commit>, st: RunState): seq<Checkpoint> {
    match commit
    case None => log
    case Some(k) => log + [Checkpoint(NextSequence(log), k.point, k.status, st, k.actions)]
  }

  function Apply(m: Machine, o: Output): Machine {
    Machine(o.core, Commits(m.log, o.commit, o.core.st),
            m.providerCalls + (if o.effect.ProviderCalled? then 1 else 0),
            m.starts + (if o.effect.ToolStarted? then multiset{o.effect.id} else multiset{}),
            m.boundaries + (if o.effect.FreshApproval? then multiset{o.effect.id} else multiset{}))
  }

  function Step(cfg: Config, m: Machine, i: Input): Machine { Apply(m, Next(cfg, m.core, i)) }

  /** A new process: the volatile loop is gone, `resume` reads the newest checkpoint and follows the plan. */
  function Reopen(log: seq<Checkpoint>, c: Core): Core {
    if log == [] then c.(pc := Stopped(NothingToResume), resume := None)
    else
      var k := Latest(log);
      var back := Restore(Serialize(k.state));
      if k.point == Terminal then
        if back.None? then c.(pc := Stopped(RestoreFailed), resume := None)
        else Core(Stopped(AlreadyTerminal), back.value, None, c.approvals)
      else if !Resumable(k.point) then c.(pc := Stopped(NeedsRecovery), resume := None)
      else if back.None? then c.(pc := Stopped(RestoreFailed), resume := None)
      else Core(Entry, back.value, Some(k.point), c.approvals)
  }

  function Crash(m: Machine): Machine { m.(core := Reopen(m.log, m.core)) }

  datatype Event = Tick(input: Input) | Restart

  function Happen(cfg: Config, m: Machine, e: Event): Machine {
    match e
    case Tick(i) => Step(cfg, m, i)
    case Restart => Crash(m)
  }

  function Run(cfg: Config, m: Machine, events: seq<Event>): Machine {
    if events == [] then m else Happen(cfg, Run(cfg, m, events[..|events| - 1]), events[|events| - 1])
  }

  /** A turn that has just been submitted: nothing durable, nothing counted. */
  predicate Fresh(m: Machine) {
    && m.core.pc == Entry && m.core.resume == None && m.core.approvals == map[]
    && m.core.st.error == None && m.core.st.finalOutput == None
    && m.core.st.iteration == 0 && m.core.st.modelCallCount == 0 && m.core.st.toolCallCount == 0
    && m.log == [] && m.providerCalls == 0 && m.starts == multiset{} && m.boundaries == multiset{}
  }

  lemma {:induction false} RunAppend(cfg: Config, m: Machine, before: seq<Event>, after: seq<Event>)
    ensures Run(cfg, m, before + after) == Run(cfg, Run(cfg, m, before), after)
  {
    if after == [] {
      assert before + after == before;
    } else {
      var n := |after| - 1;
      RunAppend(cfg, m, before, after[..n]);
      assert (before + after)[..|before + after| - 1] == before + after[..n];
    }
  }

  lemma RunThen(cfg: Config, m: Machine, events: seq<Event>, e: Event)
    ensures Run(cfg, m, events + [e]) == Happen(cfg, Run(cfg, m, events), e)
  {
    assert (events + [e])[..|events|] == events;
  }

  // ----- Every process stops -----

  /** Passes of the while loop that can still begin: remaining iterations plus the resumed pass. */
  function Passes(cfg: Config, c: Core): nat {
    (if c.st.iteration < cfg.limits.maxIterations then cfg.limits.maxIterations - c.st.iteration else 0)
    + (if c.pc in {Entry, LoopTop} && Continuing(c.resume) then 1 else 0)
  }

  /** How far a pass still is from its end, disregarding tool calls. */
  function Stage(pc: Pc): nat {
    match pc
    case Entry => 8
    case Build => 7
    case CallProvider => 6
    case AwaitProvider => 5
    case Dispatch => 4
    case LoopTop => 2
    case Finishing => 1
    case Raising(_) => 1
    case Stopped(_) => 0
    case _ => 3
  }

  function ToolWork(pc: Pc): nat {
    match pc
    case NextCall(pending) => 8 * |pending| + 1
    case Prepare(_, rest) => 8 * |rest| + 8
    case Execute(_, rest) => 8 * |rest| + 7
    case AwaitApproval(_, rest) => 8 * |rest| + 6
    case Decided(_, rest, _) => 8 * |rest| + 5
    case Approved(_, rest, _) => 8 * |rest| + 4
    case Settle(_, rest, _) => 8 * |rest| + 3
    case Settled(_, rest, _, _) => 8 * |rest| + 2
    case _ => 0
  }

  /** The resumed pass is only ever armed at the entry or at the loop head. */
  predicate ResumeArmed(c: Core) {
    Continuing(c.resume) ==> c.pc.Entry? || c.pc.LoopTop? || c.pc.Raising? || c.pc.Stopped?
  }

  predicate Smaller(cfg: Config, d: Core, c: Core) {
    || Passes(cfg, d) < Passes(cfg, c)
    || (Passes(cfg, d) == Passes(cfg, c) && Stage(d.pc) < Stage(c.pc))
    || (Passes(cfg, d) == Passes(cfg, c) && Stage(d.pc) == Stage(c.pc) && ToolWork(d.pc) < ToolWork(c.pc))
  }

  predicate Closer(cfg: Config, c: Core, i: Input) {
    var d := Next(cfg, c, i).core; ResumeArmed(d) && Smaller(cfg, d, c)
  }

  lemma PassTerminates(cfg: Config, c: Core, i: Input)
    requires ResumeArmed(c) && (c.pc.Entry? || c.pc.LoopTop?)
    ensures Closer(cfg, c, i)
  {
  }

  lemma ModelTerminates(cfg: Config, c: Core, i: Input)
    requires ResumeArmed(c) && (c.pc.Build? || c.pc.CallProvider? || c.pc.AwaitProvider?)
    ensures Closer(cfg, c, i)
  {
  }

  lemma ResponseTerminates(cfg: Config, c: Core, i: Input)
    requires ResumeArmed(c) && (c.pc.Dispatch? || c.pc.Finishing? || c.pc.Raising?)
    ensures Closer(cfg, c, i)
  {
  }

  lemma ToolTerminates(cfg: Config, c: Core, i: Input)
    requires ResumeArmed(c) && (c.pc.NextCall? || c.pc.Prepare? || c.pc.Execute? || c.pc.AwaitApproval?)
    ensures Closer(cfg, c, i)
  {
  }

  lemma ResultTerminates(cfg: Config, c: Core, i: Input)
    requires ResumeArmed(c) && (c.pc.Decided? || c.pc.Approved? || c.pc.Settle? || c.pc.Settled?)
    ensures Closer(cfg, c, i)
  {
  }

  /** Whatever the environment answers, a process that has not stopped gets strictly closer to stopping. */
  lemma StepTerminates(cfg: Config, c: Core, i: Input)
    requires ResumeArmed(c) && !c.pc.Stopped?
    ensures var d := Next(cfg, c, i).core; ResumeArmed(d) && Smaller(cfg, d, c)
  {
    match c.pc
    case Entry => PassTerminates(cfg, c, i);
    case LoopTop => PassTerminates(cfg, c, i);
    case Build => ModelTerminates(cfg, c, i);
    case CallProvider => ModelTerminates(cfg, c, i);
    case AwaitProvider => ModelTerminates(cfg, c, i);
    case Dispatch => ResponseTerminates(cfg, c, i);
    case Finishing => ResponseTerminates(cfg, c, i);
    case Raising(_) => ResponseTerminates(cfg, c, i);
    case NextCall(_) => ToolTerminates(cfg, c, i);
    case Prepare(_, _) => ToolTerminates(cfg, c, i);
    case Execute(_, _) => ToolTerminates(cfg, c, i);
    case AwaitApproval(_, _) => ToolTerminates(cfg, c, i);
    case Decided(_, _, _) => ResultTerminates(cfg, c, i);
    case Approved(_, _, _) => ResultTerminates(cfg, c, i);
    case Settle(_, _, _) => ResultTerminates(cfg, c, i);
    case Settled(_, _, _, _) => ResultTerminates(cfg, c, i);
  }
}
