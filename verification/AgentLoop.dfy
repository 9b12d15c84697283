/**
 * The loop in its own imperative form (runtime/agent_loop.py, checkpoints/manager.py,
 * checkpoints/store.py), proved to follow the step machine tick by tick.
 */
module AgentLoop {
  import opened Messages
  import opened RunStates
  import opened Recovery
  import opened TurnMachine

  /** The run state the loop mutates. */
  class RunRecord {
    const runId: string
    var turnId: string
    var turnCount: nat
    var summary: string
    var status: RunStatus
    var messages: seq<Message>
    var iteration: nat
    var modelCallCount: nat
    var toolCallCount: nat
    var finalOutput: Option<string>
    var error: Option<RunError>
    var cancellationRequested: bool

    function Value(): RunState
      reads this
    {
      RunState(runId, turnId, turnCount, summary, status, messages, iteration, modelCallCount, toolCallCount,
               finalOutput, error, cancellationRequested)
    }

    constructor (st: RunState)
      ensures Value() == st
    {
      runId, turnId, turnCount, summary := st.runId, st.turnId, st.turnCount, st.summary;
      status, messages, iteration := st.status, st.messages, st.iteration;
      modelCallCount, toolCallCount := st.modelCallCount, st.toolCallCount;
      finalOutput, error, cancellationRequested := st.finalOutput, st.error, st.cancellationRequested;
    }
  }

  /** The checkpoint rows of one turn, and the committed approval decisions beside them. */
  class CheckpointStore {
    var rows: seq<Checkpoint>
    var decisions: map<ApprovalKey, Decision>

    constructor ()
      ensures rows == [] && decisions == map[]
    {
      rows, decisions := [], map[];
    }

    method Save(row: Checkpoint)
      modifies this`rows
      ensures rows == old(rows) + [row]
    {
      rows := rows + [row];
    }

    method Latest() returns (row: Option<Checkpoint>)
      ensures rows == [] ==> row == None
      ensures rows != [] ==> row == Some(rows[|rows| - 1])
    {
      row := if rows == [] then None else Some(rows[|rows| - 1]);
    }

    method SaveApproval(key: ApprovalKey, decision: Decision)
      modifies this`decisions
      ensures decisions == old(decisions)[key := decision]
    {
      decisions := decisions[key := decision];
    }
  }

  class CheckpointManager {
    const store: CheckpointStore
    var sequence: nat

    ghost predicate Valid()
      reads this, store
    {
      sequence + 1 == NextSequence(store.rows)
    }

    /** Continues the numbering of an existing turn. */
    constructor (store: CheckpointStore)
      ensures this.store == store && Valid()
    {
      this.store := store;
      new;
      var latest := store.Latest();
      sequence := if latest.Some? then latest.value.sequence else 0;
    }

    method Save(state: RunRecord, point: ResumePoint, status: DurableStatus, actions: seq<ActionId>)
      requires Valid()
      modifies this, store`rows
      ensures Valid()
      ensures store.rows == Commits(old(store.rows), Some(Commit(point, status, actions)), state.Value())
    {
      sequence := sequence + 1;
      store.Save(Checkpoint(sequence, point, status, state.Value(), actions));
    }
  }

  // ----- Reading the history -----

  /** The newest assistant message, searched from the end. */
  method CommittedResponse(messages: seq<Message>) returns (r: Option<Message>)
    ensures r == LastAssistant(messages)
  {
    var k := |messages|;
    assert messages[..k] == messages;
    while k > 0
      invariant 0 <= k <= |messages|
      invariant LastAssistant(messages) == LastAssistant(messages[..k])
    {
      if messages[k - 1].role == "assistant" {
        return Some(messages[k - 1]);
      }
      assert messages[..k][..k - 1] == messages[..k - 1];
      k := k - 1;
    }
    return None;
  }

  method CompletedCallIds(messages: seq<Message>) returns (completed: set<Option<string>>)
    ensures completed == CompletedIds(messages)
  {
    completed := {};
    for k := 0 to |messages|
      invariant completed == CompletedIds(messages[..k])
    {
      assert messages[..k + 1][..k] == messages[..k];
      if messages[k].role == "tool" {
        completed := completed + {messages[k].toolCallId};
      }
    }
    assert messages[..|messages|] == messages;
  }

  lemma PendingFirst(before: seq<ToolCall>, calls: seq<ToolCall>, completed: set<Option<string>>)
    requires calls != []
    ensures var first := if Some(calls[0].id) in completed then [] else [calls[0]];
            (before + first) + Pending(calls[1..], completed) == before + Pending(calls, completed)
  {
    var first := if Some(calls[0].id) in completed then [] else [calls[0]];
    assert Pending(calls, completed) == first + Pending(calls[1..], completed);
    Join(before, first, Pending(calls[1..], completed));
  }

  lemma Join(a: seq<ToolCall>, b: seq<ToolCall>, c: seq<ToolCall>)
    ensures (a + b) + c == a + (b + c)
  {
  }

  /** The calls of a response without a result, in response order. */
  method PendingCalls(calls: seq<ToolCall>, completed: set<Option<string>>) returns (pending: seq<ToolCall>)
    ensures pending == Pending(calls, completed)
  {
    pending := [];
    var rest := calls;
    assert [] + Pending(calls, completed) == Pending(calls, completed);
    while rest != []
      invariant pending + Pending(rest, completed) == Pending(calls, completed)
      decreases |rest|
    {
      PendingFirst(pending, rest, completed);
      pending := pending + if Some(rest[0].id) in completed then [] else [rest[0]];
      rest := rest[1..];
    }
    assert pending + [] == pending;
  }

  // ----- The run of the step machine that the loop follows -----

  /** Marks the positions at which the path is looked into. */
  ghost predicate At(k: nat) { true }

  ghost predicate IsPath(cfg: Config, inputs: nat -> Input, path: nat -> Machine) {
    forall k: nat {:trigger At(k)} :: At(k) ==> path(k + 1) == Step(cfg, path(k), inputs(k))
  }

  function Inputs(inputs: nat -> Input, n: nat): seq<Event> { seq(n, k requires 0 <= k => Tick(inputs(k))) }

  /** Following a path is running the turn machine on the inputs, so every theorem about runs applies. */
  lemma {:induction false} PathIsRun(cfg: Config, inputs: nat -> Input, path: nat -> Machine, n: nat)
    requires IsPath(cfg, inputs, path)
    ensures path(n) == Run(cfg, path(0), Inputs(inputs, n))
  {
    if n > 0 {
      PathIsRun(cfg, inputs, path, n - 1);
      assert Inputs(inputs, n)[..n - 1] == Inputs(inputs, n - 1);
      assert At(n - 1);
    }
  }

  function Walk(cfg: Config, m: Machine, inputs: nat -> Input, n: nat): Machine {
    if n == 0 then m else Step(cfg, Walk(cfg, m, inputs, n - 1), inputs(n - 1))
  }

  /** The positions whose step may reach the provider or an executor. */
  predicate Reaches(pc: Pc) { pc.CallProvider? || pc.Execute? || pc.Approved? }

  lemma WithoutEffect(cfg: Config, c: Core, i: Input)
    requires !Reaches(c.pc)
    ensures Next(cfg, c, i).effect.NoEffect? || Next(cfg, c, i).effect.FreshApproval?
  {
  }

  lemma ResultStep(cfg: Config, c: Core, i: Input)
    requires c.pc.Settle? && !i.taskCancelled
    ensures Next(cfg, c, i) ==
            Save(c.(pc := Settled(c.pc.call, c.pc.rest, c.pc.started && i.tool.success, i.tool.content),
                    st := Append(c.st, ToolMessage(c.pc.call, c.pc.started, i.tool, i.newId)).(toolCallCount := c.st.toolCallCount + 1)), AfterTool)
  {
  }

  lemma SettledStep(cfg: Config, c: Core, i: Input)
    requires c.pc.Settled?
    ensures var st := Drain(c.st, i);
            Next(cfg, c, i) ==
            if c.pc.success && c.pc.call.name in cfg.terminalTools
            then Save(c.(pc := Finishing, st := st.(finalOutput := Some(c.pc.content), status := Completed)), BeforeFinalize)
            else Quiet(c.(pc := NextCall(c.pc.rest), st := st))
  {
  }

  lemma DecisionStep(cfg: Config, c: Core, i: Input)
    requires c.pc.AwaitApproval?
    ensures Next(cfg, c, i) ==
            if i.taskCancelled then CancelOut(c)
            else Quiet(c.(pc := Decided(c.pc.call, c.pc.rest, i.decision), approvals := c.approvals[Key(c.pc.call) := i.decision]))
  {
  }

  lemma AnswerStep(cfg: Config, c: Core, i: Input)
    requires c.pc.AwaitProvider? && !i.taskCancelled && i.provider.Answered?
    ensures Next(cfg, c, i) == Save(c.(pc := Dispatch, st := Append(c.st, AssistantMessage(i.provider, i.newId))), AfterModel)
  {
  }

  lemma TextStep(c: Core, i: Input, response: Message)
    requires LastAssistant(c.st.messages) == Some(response) && response.toolCalls == []
    ensures var text := Trim(response.content);
            NextResponse(c, i) ==
            if text == "" then Raise(c, c.st, NoAnswer)
            else if i.guard.Some? then Quiet(c.(pc := LoopTop, st := Append(c.st, UserMessage(i.guard.value, i.newId))))
            else Save(c.(pc := Finishing, st := c.st.(finalOutput := Some(text))), BeforeFinalize)
  {
  }

  lemma FailureStep(cfg: Config, c: Core, i: Input)
    requires c.pc.Raising?
    ensures var e := ToRunError(c.pc.failure);
            Next(cfg, c, i) == Close(c, c.st.(status := FailureStatus(e), error := Some(e)))
  {
  }

  class AgentLoop {
    const cfg: Config
    const inputs: nat -> Input
    const state: RunRecord
    const manager: CheckpointManager
    const store: CheckpointStore
    var resumePoint: Option<ResumePoint>
    var tick: nat
    var requests: nat
    var started: multiset<string>

    ghost const path: nat -> Machine
    ghost var machine: Machine

    ghost predicate Valid()
      reads this, state, manager, store
    {
      && manager.store == store && manager.Valid()
      && IsPath(cfg, inputs, path) && machine == path(tick)
      && machine.core.st == state.Value()
      && machine.core.approvals == store.decisions
      && (!machine.core.pc.Stopped? ==> machine.core.resume == resumePoint)
      && machine.log == store.rows && Counted()
    }

    /** `requests` and `started` are what this process has asked of the provider and of the executors. */
    ghost predicate Counted()
      reads this
    {
      machine.providerCalls == path(0).providerCalls + requests && machine.starts == path(0).starts + started
    }

    constructor (cfg: Config, inputs: nat -> Input, state: RunRecord, manager: CheckpointManager,
                 resumePoint: Option<ResumePoint>, ghost m: Machine)
      requires manager.Valid()
      requires m.core == Core(Entry, state.Value(), resumePoint, manager.store.decisions) && m.log == manager.store.rows
      ensures Valid() && machine == m && path(0) == m && tick == 0 && requests == 0 && started == multiset{}
      ensures this.cfg == cfg && this.inputs == inputs && this.state == state && this.manager == manager
      ensures this.resumePoint == resumePoint
    {
      this.cfg, this.inputs, this.state, this.manager, this.store := cfg, inputs, state, manager, manager.store;
      this.resumePoint, this.tick, this.requests, this.started := resumePoint, 0, 0, multiset{};
      this.path := (k: nat) => Walk(cfg, m, inputs, k);
      this.machine := m;
    }

    /** The path moves one step; the tick is the loop's own count of what it has asked. */
    method Advance()
      requires IsPath(cfg, inputs, path) && machine == path(tick)
      modifies this`machine, this`tick
      ensures machine == path(tick) && tick == old(tick) + 1
      ensures machine == Step(cfg, old(machine), inputs(old(tick)))
      ensures !Reaches(old(machine.core.pc)) ==> machine.providerCalls == old(machine.providerCalls) && machine.starts == old(machine.starts)
    {
      assert At(tick);
      if !Reaches(machine.core.pc) {
        WithoutEffect(cfg, machine.core, inputs(tick));
      }
      machine := path(tick + 1);
      tick := tick + 1;
    }

    method Checkpoint(point: ResumePoint, status: DurableStatus, actions: seq<ActionId>)
      requires manager.store == store && manager.Valid()
      modifies manager, store`rows
      ensures manager.Valid()
      ensures store.rows == Commits(old(store.rows), Some(Commit(point, status, actions)), state.Value())
    {
      manager.Save(state, point, status, actions);
    }

    /** The part of `Valid` that concerns the store and the path. */
    ghost predicate Stored()
      reads this, manager, store
    {
      && manager.store == store && manager.Valid()
      && IsPath(cfg, inputs, path) && machine == path(tick)
      && machine.core.approvals == store.decisions && machine.log == store.rows && Counted()
    }

    /** All of `Valid` that does not depend on the state the current step is building. */
    ghost predicate Linked()
      reads this, manager, store
    {
      Stored() && machine.core.resume == resumePoint
    }

    /** Cancellation and budget errors, and every other harness error, end in a terminal checkpoint. */
    method Fail(failure: Failure)
      requires Valid() && machine.core.pc == Raising(failure)
      modifies this`machine, this`tick, state, manager, store`rows
      ensures Valid() && machine.core.pc == Stopped(Returned)
    {
      var e := ToRunError(failure);
      state.status := FailureStatus(e);
      state.error := Some(e);
      FailureStep(cfg, machine.core, inputs(tick));
      CloseTurn();
    }

    /** The terminal checkpoint of a step that closes the turn. */
    method CloseTurn()
      requires Stored() && Next(cfg, machine.core, inputs(tick)) == Close(machine.core, state.Value())
      modifies this`machine, this`tick, manager, store`rows
      ensures Valid() && machine.core.pc == Stopped(Returned)
    {
      Checkpoint(Terminal, Durable(state.status), []);
      Advance();
    }

    /** A step that commits nothing and reaches nobody. */
    method QuietStep(ghost c: Core)
      requires Linked() && !Reaches(machine.core.pc) && Next(cfg, machine.core, inputs(tick)) == Quiet(c)
      requires c.st == state.Value() && c.approvals == store.decisions && (!c.pc.Stopped? ==> c.resume == resumePoint)
      modifies this`machine, this`tick
      ensures Valid() && machine.core == c
    {
      Advance();
    }

    /** A step that commits one checkpoint and goes on. */
    method CommitStep(point: ResumePoint)
      requires Linked() && Next(cfg, machine.core, inputs(tick)).commit == Some(Commit(point, DurableRunning, []))
      requires !Reaches(machine.core.pc)
      requires var d := Next(cfg, machine.core, inputs(tick)).core;
               d.st == state.Value() && d.approvals == store.decisions && d.resume == resumePoint
      modifies this`machine, this`tick, manager, store`rows
      ensures Valid() && machine.core == Next(cfg, old(machine.core), inputs(old(tick))).core
    {
      Checkpoint(point, DurableRunning, []);
      Advance();
    }

    /** Raises a failure in the current step and ends the turn with it. */
    method EndWith(failure: Failure)
      requires Linked()
      requires Next(cfg, machine.core, inputs(tick)) == Raise(machine.core, state.Value(), failure)
      modifies this`machine, this`tick, state, manager, store`rows
      ensures Valid() && machine.core.pc == Stopped(Returned)
    {
      Advance();
      Fail(failure);
    }

    method ResumeFinalization()
      requires Valid() && machine.core.pc == Entry && resumePoint == Some(BeforeFinalize)
      modifies this, state, manager, store`rows
      ensures Valid() && machine.core.pc == Stopped(Returned)
    {
      resumePoint := None;
      if state.error.Some? {
        state.status := FailureStatus(state.error.value);
      } else {
        state.status := Completed;
      }
      CloseTurn();
    }

    method DrainMailbox(mail: seq<string>, id: string)
      modifies state`messages
      ensures state.messages == old(state.messages) + MailMessages(mail, id)
    {
      for k := 0 to |mail|
        invariant state.messages == old(state.messages) + MailMessages(mail, id)[..k]
      {
        state.messages := state.messages + [UserMessage("父 Agent 追加指令：\n" + mail[k], id)];
      }
    }

    /** The checks that open every pass; the raised failure, if any. */
    method CheckPass(i: Input, continuing: bool) returns (raised: Option<Failure>)
      modifies state`cancellationRequested, state`iteration
      ensures raised == (if state.cancellationRequested then Some(CancellationRequested)
                         else if i.overWallTime then Some(OverWallTime)
                         else if !continuing && old(state.iteration) >= cfg.limits.maxIterations then Some(OverIterations)
                         else None)
      ensures state.cancellationRequested == (old(state.cancellationRequested) || i.cancelRequested)
      ensures state.iteration == old(state.iteration) + if raised.None? && !continuing then 1 else 0
    {
      if i.cancelRequested {
        state.cancellationRequested := true;
      }
      if state.cancellationRequested {
        return Some(CancellationRequested);
      }
      if i.overWallTime {
        return Some(OverWallTime);
      }
      if !continuing {
        if state.iteration >= cfg.limits.maxIterations {
          return Some(OverIterations);
        }
        state.iteration := state.iteration + 1;
      }
      return None;
    }

    /** The head of the while loop: whether the pass goes on, and whether it needs a new model response. */
    method BeginPass() returns (more: bool, ask: bool)
      requires Valid() && machine.core.pc == LoopTop && ResumeArmed(machine.core)
      modifies this, state, manager, store`rows
      ensures Valid()
      ensures more ==> machine.core.pc == (if ask then Build else Dispatch) && !Continuing(resumePoint)
      ensures more ==> Passes(cfg, machine.core) < old(Passes(cfg, machine.core))
      ensures !more ==> machine.core.pc.Stopped?
    {
      var i := inputs(tick);
      var continuing := Continuing(resumePoint);
      var raised := CheckPass(i, continuing);
      if raised.Some? {
        EndWith(raised.value);
        return false, false;
      }
      more, ask := EnterPass(continuing);
    }

    /** Behind the checks: the mailbox, and the response that is there or that will be asked for. */
    method EnterPass(continuing: bool) returns (more: bool, ask: bool)
      requires Linked() && machine.core.pc == LoopTop && continuing == Continuing(resumePoint)
      requires var i := inputs(tick); var seen := Observe(machine.core.st, i);
               && !seen.cancellationRequested && !i.overWallTime && (!continuing ==> seen.iteration < cfg.limits.maxIterations)
               && state.Value() == if continuing then seen else seen.(iteration := seen.iteration + 1)
      modifies this, state, manager, store`rows
      ensures Valid()
      ensures more ==> machine.core.pc == (if ask then Build else Dispatch) && !Continuing(resumePoint)
      ensures more ==> Passes(cfg, machine.core) < old(Passes(cfg, machine.core))
      ensures !more ==> machine.core.pc.Stopped?
    {
      DrainMailbox(inputs(tick).mail, inputs(tick).newId);
      if continuing {
        more := ReuseResponse();
        return more, false;
      }
      StartIteration();
      return true, true;
    }

    method StartIteration()
      requires Linked() && machine.core.pc == LoopTop && !Continuing(resumePoint)
      requires var i := inputs(tick); var seen := Observe(machine.core.st, i);
               && !seen.cancellationRequested && !i.overWallTime && seen.iteration < cfg.limits.maxIterations
               && state.Value() == Drain(seen.(iteration := seen.iteration + 1), i)
      modifies this`machine, this`tick, manager, store`rows
      ensures Valid() && machine.core.pc == Build
    {
      Checkpoint(BeforeModel, DurableRunning, []);
      Advance();
    }

    /** The resumed pass takes the committed response instead of asking again. */
    method ReuseResponse() returns (more: bool)
      requires Linked() && machine.core.pc == LoopTop && Continuing(resumePoint)
      requires var i := inputs(tick); var seen := Observe(machine.core.st, i);
               !seen.cancellationRequested && !i.overWallTime && state.Value() == Drain(seen, i)
      modifies this, state, manager, store`rows
      ensures Valid()
      ensures more ==> machine.core.pc == Dispatch && resumePoint == None && state.iteration == old(state.iteration)
      ensures !more ==> machine.core.pc.Stopped?
    {
      var response := CommittedResponse(state.messages);
      if response.None? {
        EndWith(NoCommittedResponse);
        return false;
      }
      resumePoint := None;
      Advance();
      return true;
    }

    /** One provider request between its two checkpoints; false when the turn has ended. */
    method CallModel() returns (more: bool)
      requires Valid() && machine.core.pc == Build
      modifies this, state, manager, store`rows
      ensures Valid()
      ensures more ==> machine.core.pc == Dispatch && resumePoint == old(resumePoint) && state.iteration == old(state.iteration)
      ensures !more ==> machine.core.pc.Stopped?
    {
      var i := inputs(tick);
      if i.contextError.Some? {
        EndWith(Reported(i.contextError.value));
        return false;
      }
      if state.modelCallCount >= cfg.limits.maxModelCalls {
        EndWith(OverModelCalls);
        return false;
      }
      SendRequest();
      more := ReceiveAnswer();
    }

    /** Counts the call and commits MODEL_IN_FLIGHT before the provider is asked. */
    method SendRequest()
      requires Valid() && machine.core.pc == Build && state.modelCallCount < cfg.limits.maxModelCalls
      requires inputs(tick).contextError == None
      modifies this`machine, this`tick, this`requests, state`modelCallCount, manager, store`rows
      ensures Valid() && machine.core.pc == AwaitProvider && requests == old(requests) + 1
    {
      state.modelCallCount := state.modelCallCount + 1;
      Checkpoint(ModelInFlight, DurableRunning, []);
      Advance();
      assert machine.core.pc == CallProvider;
      AskProvider();
    }

    /** The request leaves the process. */
    method AskProvider()
      requires Valid() && machine.core.pc == CallProvider
      modifies this`machine, this`tick, this`requests
      ensures Valid() && machine.core.pc == AwaitProvider && requests == old(requests) + 1
    {
      requests := requests + 1;
      Advance();
    }

    /** The executor starts. */
    method StartExecutor(call: ToolCall, rest: seq<ToolCall>)
      requires Valid() && Next(cfg, machine.core, inputs(tick)) == Output(machine.core.(pc := Settle(call, rest, true)), None, ToolStarted(call.id))
      modifies this`machine, this`tick, this`started
      ensures Valid() && machine.core.pc == Settle(call, rest, true) && started == old(started) + multiset{call.id}
    {
      started := started + multiset{call.id};
      Advance();
    }

    method MarkCancelled()
      modifies state`status, state`error
      ensures state.status == Cancelled && state.error == Some(TaskCancellation())
    {
      state.status := Cancelled;
      state.error := Some(TaskCancellation());
    }

    /** Asyncio cancellation ends the process without a checkpoint. */
    method CancelTask()
      requires Valid() && Next(cfg, machine.core, inputs(tick)) == CancelOut(machine.core)
      modifies this`machine, this`tick, state`status, state`error
      ensures Valid() && machine.core.pc == Stopped(TaskCancelled)
    {
      MarkCancelled();
      Advance();
    }

    method ReceiveAnswer() returns (more: bool)
      requires Valid() && machine.core.pc == AwaitProvider
      modifies this, state, manager, store`rows
      ensures Valid()
      ensures more ==> machine.core.pc == Dispatch && resumePoint == old(resumePoint) && state.iteration == old(state.iteration)
      ensures !more ==> machine.core.pc.Stopped?
    {
      var i := inputs(tick);
      if i.taskCancelled {
        CancelTask();
        return false;
      }
      if i.provider.ProviderFailed? {
        EndWith(Reported(i.provider.error));
        return false;
      }
      state.messages := state.messages + [AssistantMessage(i.provider, i.newId)];
      AnswerStep(cfg, machine.core, i);
      CommitStep(AfterModel);
      return true;
    }

    /** What a completed step of the pass leaves alone. */
    twostate predicate SamePass()
      reads this, state
    {
      resumePoint == old(resumePoint) && state.iteration == old(state.iteration)
    }

    method FinishCompleted()
      requires Valid() && machine.core.pc == Finishing
      modifies this, state, manager, store`rows
      ensures Valid() && machine.core.pc == Stopped(Returned)
    {
      state.status := Completed;
      CloseTurn();
    }

    /** The checks before one tool call and its two checkpoints; false when the turn has ended. */
    method BeginTool(call: ToolCall, rest: seq<ToolCall>) returns (more: bool)
      requires Valid() && machine.core.pc == NextCall([call] + rest)
      modifies this, state, manager, store`rows
      ensures Valid()
      ensures more ==> machine.core.pc == Execute(call, rest) && SamePass()
      ensures !more ==> machine.core.pc.Stopped?
    {
      var i := inputs(tick);
      if i.cancelRequested {
        state.cancellationRequested := true;
      }
      if state.cancellationRequested {
        EndWith(CancellationRequested);
        return false;
      }
      if state.toolCallCount >= cfg.limits.maxToolCalls {
        EndWith(OverToolCalls);
        return false;
      }
      CommitTool(call, rest);
      return true;
    }

    /** BEFORE_TOOL and TOOL_IN_FLIGHT, both naming the action. */
    method CommitTool(call: ToolCall, rest: seq<ToolCall>)
      requires Linked()
      requires var o := Next(cfg, machine.core, inputs(tick));
               && o.core == machine.core.(pc := Prepare(call, rest), st := state.Value()) && o.effect == NoEffect
               && o.commit == Some(Commit(BeforeTool, DurableRunning, [Action(state.Value(), call)]))
      modifies this`machine, this`tick, manager, store`rows
      ensures Valid() && machine.core.pc == Execute(call, rest)
    {
      var action := ActionId(state.runId, state.turnId, call.id);
      Checkpoint(BeforeTool, DurableRunning, [action]);
      Advance();
      Checkpoint(ToolInFlight, DurableRunning, [action]);
      Advance();
    }

    /** Asks for approval: the request, the committed decision, and the checkpoint that follows it. */
    method AskApproval(call: ToolCall, rest: seq<ToolCall>) returns (decision: Option<Decision>)
      requires Valid() && machine.core.pc == AwaitApproval(call, rest)
      modifies this, state, manager, store
      ensures Valid()
      ensures decision.Some? ==> machine.core.pc == Approved(call, rest, decision.value) && SamePass()
      ensures decision.None? ==> machine.core.pc.Stopped?
    {
      var i := inputs(tick);
      DecisionStep(cfg, machine.core, i);
      if i.taskCancelled {
        CancelTask();
        return None;
      }
      store.SaveApproval(Key(call), i.decision);
      Advance();
      CommitDecision(call, rest, i.decision);
      return Some(i.decision);
    }

    method CommitDecision(call: ToolCall, rest: seq<ToolCall>, decision: Decision)
      requires Valid() && machine.core.pc == Decided(call, rest, decision)
      modifies this`machine, this`tick, manager, store`rows
      ensures Valid() && machine.core.pc == Approved(call, rest, decision)
    {
      Checkpoint(BeforeTool, DurableRunning, []);
      Advance();
    }

    method FollowDecision(call: ToolCall, rest: seq<ToolCall>, decision: Decision) returns (started: Option<bool>)
      requires Valid() && machine.core.pc == Approved(call, rest, decision)
      modifies this, state
      ensures Valid()
      ensures started.Some? ==> machine.core.pc == Settle(call, rest, started.value) && SamePass()
      ensures started.None? ==> machine.core.pc.Stopped?
    {
      match decision
      case CancelTurn =>
        CancelTask();
        return None;
      case Denied =>
        Advance();
        return Some(false);
      case Allowed =>
        StartExecutor(call, rest);
        return Some(true);
    }

    /** Whether the executor started; none when the turn was cancelled. */
    method ExecuteTool(call: ToolCall, rest: seq<ToolCall>) returns (started: Option<bool>)
      requires Valid() && machine.core.pc == Execute(call, rest)
      modifies this, state, manager, store
      ensures Valid()
      ensures started.Some? ==> machine.core.pc == Settle(call, rest, started.value) && SamePass()
      ensures started.None? ==> machine.core.pc.Stopped?
    {
      var i := inputs(tick);
      if i.taskCancelled {
        CancelTask();
        return None;
      }
      if call.arguments == Text("") || i.permission == Deny {
        Advance();
        return Some(false);
      }
      if i.permission == Allow {
        StartExecutor(call, rest);
        return Some(true);
      }
      started := SeekApproval(call, rest);
    }

    /** An ASK verdict: the recorded decision, or a new one. */
    method SeekApproval(call: ToolCall, rest: seq<ToolCall>) returns (started: Option<bool>)
      requires Valid() && machine.core.pc == Execute(call, rest) && call.arguments != Text("")
      requires !inputs(tick).taskCancelled && inputs(tick).permission == Ask
      modifies this, state, manager, store
      ensures Valid()
      ensures started.Some? ==> machine.core.pc == Settle(call, rest, started.value) && SamePass()
      ensures started.None? ==> machine.core.pc.Stopped?
    {
      var decision: Option<Decision>;
      if Key(call) in store.decisions {
        decision := Some(store.decisions[Key(call)]);
        Advance();
      } else {
        Checkpoint(WaitingApproval, DurableRunning, []);
        Advance();
        decision := AskApproval(call, rest);
      }
      if decision.None? {
        return None;
      }
      started := FollowDecision(call, rest, decision.value);
    }

    /** The result of one call, and the turn's end when it was a successful terminal tool. */
    method SettleTool(call: ToolCall, rest: seq<ToolCall>, started: bool) returns (more: bool)
      requires Valid() && machine.core.pc == Settle(call, rest, started)
      modifies this, state, manager, store`rows
      ensures Valid()
      ensures more ==> machine.core.pc == NextCall(rest) && SamePass()
      ensures !more ==> machine.core.pc.Stopped?
    {
      var i := inputs(tick);
      if i.taskCancelled {
        CancelTask();
        return false;
      }
      AppendResult(call, rest, started);
      more := AfterResult(call, rest, started && i.tool.success, i.tool.content);
    }

    method AppendResult(call: ToolCall, rest: seq<ToolCall>, started: bool)
      requires Valid() && machine.core.pc == Settle(call, rest, started) && !inputs(tick).taskCancelled
      modifies this`machine, this`tick, state`toolCallCount, state`messages, manager, store`rows
      ensures Valid()
      ensures var i := inputs(old(tick)).tool; machine.core.pc == Settled(call, rest, started && i.success, i.content)
    {
      var i := inputs(tick);
      state.toolCallCount := state.toolCallCount + 1;
      state.messages := state.messages + [ToolMessage(call, started, i.tool, i.newId)];
      ResultStep(cfg, machine.core, i);
      CommitStep(AfterTool);
    }

    method AfterResult(call: ToolCall, rest: seq<ToolCall>, success: bool, content: string) returns (more: bool)
      requires Valid() && machine.core.pc == Settled(call, rest, success, content)
      modifies this, state, manager, store`rows
      ensures Valid()
      ensures more ==> machine.core.pc == NextCall(rest) && SamePass()
      ensures !more ==> machine.core.pc.Stopped?
    {
      DrainMailbox(inputs(tick).mail, inputs(tick).newId);
      SettledStep(cfg, machine.core, inputs(tick));
      if success && call.name in cfg.terminalTools {
        state.finalOutput := Some(content);
        state.status := Completed;
        CommitOutput();
        return false;
      }
      QuietStep(machine.core.(pc := NextCall(rest), st := state.Value()));
      return true;
    }

    /** Commits the decided output and completes the turn. */
    method CommitOutput()
      requires Linked()
      requires Next(cfg, machine.core, inputs(tick)) == Save(machine.core.(pc := Finishing, st := state.Value()), BeforeFinalize)
      modifies this, state, manager, store`rows
      ensures Valid() && machine.core.pc == Stopped(Returned)
    {
      Checkpoint(BeforeFinalize, DurableRunning, []);
      Advance();
      FinishCompleted();
    }

    /** The pending calls, one after the other; false when the turn has ended. */
    method RunTools(pending: seq<ToolCall>) returns (more: bool)
      requires Valid() && machine.core.pc == NextCall(pending)
      modifies this, state, manager, store
      ensures Valid()
      ensures more ==> machine.core.pc == LoopTop && SamePass()
      ensures !more ==> machine.core.pc.Stopped?
    {
      for k := 0 to |pending|
        invariant Valid() && machine.core.pc == NextCall(pending[k..]) && SamePass()
      {
        assert [pending[k]] + pending[k + 1..] == pending[k..];
        more := BeginTool(pending[k], pending[k + 1..]);
        if !more {
          return;
        }
        var started := ExecuteTool(pending[k], pending[k + 1..]);
        if started.None? {
          return false;
        }
        more := SettleTool(pending[k], pending[k + 1..], started.value);
        if !more {
          return;
        }
      }
      Advance();
      return true;
    }

    /** What follows a model response: its tool calls, a repair request, or the final text. */
    method Respond() returns (more: bool)
      requires Valid() && machine.core.pc == Dispatch
      modifies this, state, manager, store
      ensures Valid()
      ensures more ==> machine.core.pc == LoopTop && SamePass()
      ensures !more ==> machine.core.pc.Stopped?
    {
      var response := CommittedResponse(state.messages);
      if response.None? {
        EndWith(NoCommittedResponse);
        return false;
      }
      if response.value.toolCalls != [] {
        var completed := CompletedCallIds(state.messages);
        var pending := PendingCalls(response.value.toolCalls, completed);
        Advance();
        more := RunTools(pending);
      } else {
        more := AcceptText(response.value);
      }
    }

    method AcceptText(response: Message) returns (more: bool)
      requires Valid() && machine.core.pc == Dispatch
      requires LastAssistant(state.messages) == Some(response) && response.toolCalls == []
      modifies this, state, manager, store`rows
      ensures Valid()
      ensures more ==> machine.core.pc == LoopTop && SamePass()
      ensures !more ==> machine.core.pc.Stopped?
    {
      var i := inputs(tick);
      var text := Trim(response.content);
      TextStep(machine.core, i, response);
      if text == "" {
        EndWith(NoAnswer);
        return false;
      }
      if i.guard.Some? {
        state.messages := state.messages + [UserMessage(i.guard.value, i.newId)];
        QuietStep(machine.core.(pc := LoopTop, st := state.Value()));
        return true;
      }
      state.finalOutput := Some(text);
      CommitOutput();
      return false;
    }

    /** One pass of the while loop; false when the turn has ended. */
    method Pass() returns (more: bool)
      requires Valid() && machine.core.pc == LoopTop && ResumeArmed(machine.core)
      modifies this, state, manager, store
      ensures Valid()
      ensures more ==> machine.core.pc == LoopTop && ResumeArmed(machine.core)
      ensures more ==> Passes(cfg, machine.core) < old(Passes(cfg, machine.core))
      ensures !more ==> machine.core.pc.Stopped?
    {
      var ask: bool;
      more, ask := BeginPass();
      if more && ask {
        more := CallModel();
      }
      if more {
        more := Respond();
      }
    }

    method Loop()
      requires Valid() && machine.core.pc == LoopTop && ResumeArmed(machine.core)
      modifies this, state, manager, store
      ensures Valid() && machine.core.pc.Stopped?
    {
      var more := true;
      while more
        invariant Valid()
        invariant if more then machine.core.pc == LoopTop && ResumeArmed(machine.core) else machine.core.pc.Stopped?
        decreases more, Passes(cfg, machine.core)
      {
        more := Pass();
      }
    }

    /**
     * Drives the turn until it ends. The record and the rows it leaves behind are those of the step
     * machine run on the answers it consumed.
     */
    method Run()
      requires Valid() && machine.core.pc == Entry
      modifies this, state, manager, store
      ensures Valid() && machine.core.pc.Stopped?
      ensures machine == TurnMachine.Run(cfg, path(0), Inputs(inputs, tick))
      ensures state.Value() == machine.core.st && store.rows == machine.log && store.decisions == machine.core.approvals
      ensures machine.providerCalls == path(0).providerCalls + requests && machine.starts == path(0).starts + started
    {
      if resumePoint == Some(BeforeFinalize) {
        ResumeFinalization();
      } else {
        state.status := Running;
        Advance();
        Loop();
      }
      PathIsRun(cfg, inputs, path, tick);
    }
  }

  /** The session that reopens a thread: it reads the newest checkpoint and follows the restart plan. */
  class Session {
    const store: CheckpointStore
    var state: RunRecord?
    var resumePoint: Option<ResumePoint>
    var incompleteTurn: bool
    var recoveryRequired: bool

    constructor (store: CheckpointStore)
      ensures this.store == store && !incompleteTurn && !recoveryRequired
    {
      this.store, state, resumePoint, incompleteTurn, recoveryRequired := store, null, None, false, false;
    }

    /** The session shows what the machine's restart gives. */
    ghost predicate Shows(c: Core, ok: bool)
      reads this, state, store
    {
      match c.pc
      case Entry =>
        && ok && incompleteTurn && !recoveryRequired && state != null
        && c == Core(Entry, state.Value(), resumePoint, store.decisions)
      case Stopped(AlreadyTerminal) => ok && !incompleteTurn && !recoveryRequired && state != null && state.Value() == c.st
      case Stopped(NeedsRecovery) => ok && !incompleteTurn && recoveryRequired
      case Stopped(RestoreFailed) => !ok && !incompleteTurn && !recoveryRequired
      case _ => ok && !incompleteTurn && !recoveryRequired
    }

    /** False stands for the exception that restoring may raise. */
    method Resume(ghost lost: Core) returns (ok: bool)
      requires lost.approvals == store.decisions && !incompleteTurn && !recoveryRequired
      modifies this
      ensures Shows(Reopen(store.rows, lost), ok)
      ensures incompleteTurn ==> fresh(state)
    {
      var checkpoint := store.Latest();
      if checkpoint.None? {
        return true;
      }
      var plan := Plan(checkpoint.value.point, None);
      if checkpoint.value.point != Terminal && plan.disposition !in {Continue, Retry} {
        recoveryRequired := true;
        return true;
      }
      ok := RestoreState(checkpoint.value);
      if ok && checkpoint.value.point != Terminal {
        resumePoint := Some(checkpoint.value.point);
        incompleteTurn := true;
      }
    }

    method RestoreState(checkpoint: Checkpoint) returns (ok: bool)
      modifies this`state
      ensures ok <==> Restore(Serialize(checkpoint.state)).Some?
      ensures state != old(state) ==> fresh(state)
      ensures ok ==> state != null && fresh(state) && Some(state.Value()) == Restore(Serialize(checkpoint.state))
    {
      var back := Restore(Serialize(checkpoint.state));
      if back.None? {
        return false;
      }
      state := new RunRecord(back.value);
      return true;
    }

    /** Whatever the new process does, the durable rows are those of a run of the machine after the crash. */
    method ContinueIncompleteTurn(cfg: Config, inputs: nat -> Input, ghost m: Machine) returns (ticks: nat)
      requires incompleteTurn && state != null && m.log == store.rows && m.core.approvals == store.decisions
      requires Crash(m).core == Core(Entry, state.Value(), resumePoint, store.decisions)
      modifies this, state, store
      ensures !incompleteTurn
      ensures var n := Run(cfg, Crash(m), Inputs(inputs, ticks));
              && n.core.pc.Stopped? && store.rows == n.log && store.decisions == n.core.approvals
              && state == old(state) && state.Value() == n.core.st
    {
      incompleteTurn := false;
      var manager := new CheckpointManager(store);
      var loop := new AgentLoop(cfg, inputs, state, manager, resumePoint, Crash(m));
      loop.Run();
      ticks := loop.tick;
    }
  }
}
