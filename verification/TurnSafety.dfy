/** Effects and budgets of one turn over every interleaving of steps, crashes and resumes. */
module TurnSafety {
  import opened Messages
  import opened RunStates
  import opened Recovery
  import opened TurnMachine

  // ----- History facts the steps rely on -----

  lemma {:induction false} DrainKeeps(st: RunState, i: Input)
    ensures CompletedIds(Drain(st, i).messages) == CompletedIds(st.messages)
    ensures LastAssistant(Drain(st, i).messages) == LastAssistant(st.messages)
  {
    UserTailKeeps(st.messages, MailMessages(i.mail, i.newId));
  }

  lemma {:induction false} UserTailKeeps(ms: seq<Message>, tail: seq<Message>)
    requires forall k :: 0 <= k < |tail| ==> tail[k].role == "user"
    ensures CompletedIds(ms + tail) == CompletedIds(ms)
    ensures LastAssistant(ms + tail) == LastAssistant(ms)
  {
    if tail == [] {
      assert ms + tail == ms;
    } else {
      var n := |tail| - 1;
      UserTailKeeps(ms, tail[..n]);
      assert ms + tail == (ms + tail[..n]) + [tail[n]];
      CompletedAppend(ms + tail[..n], tail[n]);
      LastAssistantAppend(ms + tail[..n], tail[n]);
    }
  }

  function Done(st: RunState): set<Option<string>> { CompletedIds(st.messages) }

  /** The newest response exists and its call ids are pairwise distinct. */
  predicate DistinctResponse(st: RunState) {
    LastAssistant(st.messages).Some? && DistinctIds(LastAssistant(st.messages).value.toolCalls)
  }

  /** Every model response that the environment delivers has pairwise distinct call ids. */
  predicate DistinctResponses(events: seq<Event>) {
    forall k :: 0 <= k < |events| && events[k].Tick? && events[k].input.provider.Answered?
                ==> DistinctIds(events[k].input.provider.calls)
  }

  // ----- At-most-once effects -----

  /** A call without a result started only as often as approvals interposed; with a result, once more. */
  ghost predicate AtMost(starts: multiset<string>, boundaries: multiset<string>, done: set<Option<string>>) {
    forall id :: starts[id] <= boundaries[id] + (if Some(id) in done then 1 else 0)
  }

  ghost predicate AtMostOnceMore(starts: multiset<string>, boundaries: multiset<string>) {
    forall id :: starts[id] <= boundaries[id] + 1
  }

  predicate Unfinished(done: set<Option<string>>, calls: seq<ToolCall>) {
    DistinctIds(calls) && forall k :: 0 <= k < |calls| ==> Some(calls[k].id) !in done
  }

  /** What the checkpoints guarantee to whichever process reads them. */
  ghost predicate Recorded(log: seq<Checkpoint>, starts: multiset<string>, boundaries: multiset<string>) {
    && AtMostOnceMore(starts, boundaries)
    && (log == [] ==> starts == multiset{})
    && (log != [] && Resumable(Latest(log).point) ==> AtMost(starts, boundaries, Done(Latest(log).state)))
    && (log != [] && ContinuesPass(Latest(log).point) ==> DistinctResponse(Latest(log).state))
  }

  /** The calls the current pass has still to finish. */
  function Owed(pc: Pc): seq<ToolCall> {
    match pc
    case NextCall(pending) => pending
    case Prepare(call, rest) => [call] + rest
    case Execute(call, rest) => [call] + rest
    case AwaitApproval(call, rest) => [call] + rest
    case Decided(call, rest, _) => [call] + rest
    case Approved(call, rest, _) => [call] + rest
    case Settle(call, rest, _) => [call] + rest
    case Settled(_, rest, _, _) => rest
    case _ => []
  }

  /** The call whose executor may be running. */
  function Doing(pc: Pc): set<Option<string>> {
    if pc.Settle? then {Some(pc.call.id)} else {}
  }

  predicate NeedsResponse(c: Core) {
    c.pc.Dispatch? || c.pc.NextCall? || c.pc.Settled? || Owed(c.pc) != [] || ((c.pc.Entry? || c.pc.LoopTop?) && Continuing(c.resume))
  }

  /** What the running loop adds to that. */
  ghost predicate Controlled(m: Machine) {
    !m.core.pc.Stopped? ==>
      && AtMost(m.starts, m.boundaries, Done(m.core.st) + Doing(m.core.pc))
      && (NeedsResponse(m.core) ==> DistinctResponse(m.core.st))
      && Unfinished(Done(m.core.st), Owed(m.core.pc))
      && (m.core.pc.Execute? ==> LatestIs(m.log, ToolInFlight))
      && (m.core.pc.Approved? ==>
            m.log != [] && (LatestIs(m.log, ToolInFlight) || m.starts[m.core.pc.call.id] < m.boundaries[m.core.pc.call.id]))
  }

  ghost predicate Safe(m: Machine) { Recorded(m.log, m.starts, m.boundaries) && Controlled(m) }

  lemma Committed(log: seq<Checkpoint>, k: Commit, st: RunState, starts: multiset<string>, boundaries: multiset<string>)
    requires AtMostOnceMore(starts, boundaries)
    requires AtMost(starts, boundaries, Done(st))
    requires ContinuesPass(k.point) ==> DistinctResponse(st)
    ensures Recorded(Commits(log, Some(k), st), starts, boundaries)
  {
  }

  /** A step without an effect, after which the same calls have results as before. */
  lemma SameHistory(m: Machine, o: Output)
    requires Safe(m) && !m.core.pc.Stopped? && o.effect == NoEffect
    requires Done(o.core.st) == Done(m.core.st)
    requires LastAssistant(o.core.st.messages) == LastAssistant(m.core.st.messages)
    requires Doing(m.core.pc) <= Doing(o.core.pc) || o.core.pc.Stopped?
    requires Unfinished(Done(m.core.st), Owed(o.core.pc))
    requires NeedsResponse(o.core) ==> DistinctResponse(m.core.st)
    requires o.commit.Some? ==> Doing(m.core.pc) == {}
    requires o.commit.Some? && ContinuesPass(o.commit.value.point) ==> DistinctResponse(m.core.st)
    requires o.core.pc.Execute? ==> o.commit.Some? && o.commit.value.point == ToolInFlight
    requires o.core.pc.Approved? ==> o.commit.None? && LatestIs(m.log, ToolInFlight)
    ensures Safe(Apply(m, o))
  {
    if o.commit.Some? {
      Committed(m.log, o.commit.value, o.core.st, m.starts, m.boundaries);
    }
  }

  /** A step without an effect that commits a longer history. */
  lemma LongerHistory(m: Machine, o: Output)
    requires Safe(m) && o.effect == NoEffect && o.commit.Some?
    requires o.core.pc.Dispatch? || o.core.pc.Settled?
    requires AtMost(m.starts, m.boundaries, Done(o.core.st))
    requires DistinctResponse(o.core.st)
    requires Unfinished(Done(o.core.st), Owed(o.core.pc))
    ensures Safe(Apply(m, o))
  {
    Committed(m.log, o.commit.value, o.core.st, m.starts, m.boundaries);
  }

  lemma FirstUnfinished(done: set<Option<string>>, call: ToolCall, rest: seq<ToolCall>)
    requires Unfinished(done, [call] + rest)
    ensures Some(call.id) !in done && Unfinished(done + {Some(call.id)}, rest)
  {
    var all := [call] + rest;
    assert all[0] == call;
    assert forall k :: 0 <= k < |rest| ==> rest[k] == all[k + 1];
    forall k | 0 <= k < |rest|
      ensures Some(rest[k].id) !in done + {Some(call.id)}
    {
      assert all[0].id != all[k + 1].id;
    }
  }

  lemma SimpleSafe(cfg: Config, m: Machine, i: Input)
    requires m.core.pc.Entry? || m.core.pc.Finishing? || m.core.pc.Raising?
    requires Safe(m)
    ensures Safe(Step(cfg, m, i))
  {
    SameHistory(m, Next(cfg, m.core, i));
  }

  lemma BuildSafe(cfg: Config, m: Machine, i: Input)
    requires m.core.pc.Build?
    requires Safe(m)
    ensures Safe(Step(cfg, m, i))
  {
    SameHistory(m, Next(cfg, m.core, i));
  }

  lemma RequestSafe(cfg: Config, m: Machine, i: Input)
    requires m.core.pc.CallProvider?
    requires Safe(m)
    ensures Safe(Step(cfg, m, i))
  {
  }

  lemma PassSafe(cfg: Config, m: Machine, i: Input)
    requires m.core.pc == LoopTop
    requires Safe(m)
    ensures Safe(Step(cfg, m, i))
  {
    var o := NextPass(cfg, m.core, i);
    assert Next(cfg, m.core, i) == o;
    PassKeeps(cfg, m.core, i);
    SameHistory(m, o);
  }

  lemma PassKeeps(cfg: Config, c: Core, i: Input)
    ensures var o := NextPass(cfg, c, i);
            && Done(o.core.st) == Done(c.st) && LastAssistant(o.core.st.messages) == LastAssistant(c.st.messages)
            && o.effect == NoEffect && (o.commit.Some? ==> o.commit.value.point == BeforeModel)
            && (o.core.pc.Raising? || o.core.pc.Build? || (o.core.pc.Dispatch? && Continuing(c.resume)))
  {
    var seen := Observe(c.st, i);
    DrainKeeps(seen, i);
    DrainKeeps(seen.(iteration := seen.iteration + 1), i);
  }

  lemma ModelSafe(cfg: Config, m: Machine, i: Input)
    requires m.core.pc == AwaitProvider
    requires i.provider.Answered? ==> DistinctIds(i.provider.calls)
    requires Safe(m)
    ensures Safe(Step(cfg, m, i))
  {
    var st := m.core.st;
    var o := NextAnswer(m.core, i);
    if !i.taskCancelled && i.provider.Answered? {
      var reply := AssistantMessage(i.provider, i.newId);
      CompletedAppend(st.messages, reply);
      LastAssistantAppend(st.messages, reply);
      LongerHistory(m, o);
    } else {
      SameHistory(m, o);
    }
  }

  lemma ResponseSafe(cfg: Config, m: Machine, i: Input)
    requires m.core.pc == Dispatch
    requires Safe(m)
    ensures Safe(Step(cfg, m, i))
  {
    var o := NextResponse(m.core, i);
    assert Next(cfg, m.core, i) == o;
    ResponseKeeps(m.core, i);
    SameHistory(m, o);
  }

  lemma ResponseKeeps(c: Core, i: Input)
    requires c.pc.Dispatch? && DistinctResponse(c.st)
    ensures var o := NextResponse(c, i);
            && Done(o.core.st) == Done(c.st) && LastAssistant(o.core.st.messages) == LastAssistant(c.st.messages)
            && o.effect == NoEffect && (o.commit.Some? ==> o.commit.value.point == BeforeFinalize)
            && (o.core.pc.Raising? || o.core.pc.LoopTop? || o.core.pc.Finishing? || o.core.pc.NextCall?)
            && Unfinished(Done(c.st), Owed(o.core.pc))
  {
    var calls := LastAssistant(c.st.messages).value.toolCalls;
    if calls != [] {
      PendingDistinct(calls, Done(c.st));
      var pending := Pending(calls, Done(c.st));
      assert forall k :: 0 <= k < |pending| ==> pending[k] in pending;
    } else if i.guard.Some? {
      UserTailKeeps(c.st.messages, [UserMessage(i.guard.value, i.newId)]);
    }
  }

  lemma NextCallSafe(cfg: Config, m: Machine, i: Input)
    requires m.core.pc.NextCall?
    requires Safe(m)
    ensures Safe(Step(cfg, m, i))
  {
    var pending := m.core.pc.pending;
    if pending != [] {
      assert [pending[0]] + pending[1..] == pending;
    }
    SameHistory(m, NextTool(cfg, m.core, pending, i));
  }

  lemma PrepareSafe(cfg: Config, m: Machine, i: Input)
    requires m.core.pc.Prepare?
    requires Safe(m)
    ensures Safe(Step(cfg, m, i))
  {
    SameHistory(m, Next(cfg, m.core, i));
  }

  lemma DecisionSafe(cfg: Config, m: Machine, i: Input)
    requires m.core.pc.AwaitApproval?
    requires Safe(m)
    ensures Safe(Step(cfg, m, i))
  {
    SameHistory(m, Next(cfg, m.core, i));
  }

  lemma BoundarySafe(cfg: Config, m: Machine, i: Input)
    requires m.core.pc.Decided?
    requires Safe(m)
    ensures Safe(Step(cfg, m, i))
  {
    var after := Step(cfg, m, i);
    FirstUnfinished(Done(m.core.st), m.core.pc.call, m.core.pc.rest);
    Committed(m.log, Commit(BeforeTool, DurableRunning, []), m.core.st, after.starts, after.boundaries);
  }

  /** Starting a tool is safe when the newest checkpoint blocks recovery or an approval has been counted. */
  lemma Started(m: Machine, o: Output, call: ToolCall, rest: seq<ToolCall>)
    requires Safe(m) && NeedsResponse(m.core) && !m.core.pc.Stopped? && Owed(m.core.pc) == [call] + rest && Doing(m.core.pc) == {}
    requires LatestIs(m.log, ToolInFlight) || (m.log != [] && m.starts[call.id] < m.boundaries[call.id])
    requires o == Output(m.core.(pc := Settle(call, rest, true)), None, ToolStarted(call.id))
    ensures Safe(Apply(m, o))
  {
    FirstUnfinished(Done(m.core.st), call, rest);
  }

  lemma ExecuteSafe(cfg: Config, m: Machine, i: Input)
    requires m.core.pc.Execute?
    requires Safe(m)
    ensures Safe(Step(cfg, m, i))
  {
    var o := NextExecution(m.core, m.core.pc.call, m.core.pc.rest, i);
    ExecutionSafe(m, i);
    assert Step(cfg, m, i) == Apply(m, o);
  }

  lemma ExecutionSafe(m: Machine, i: Input)
    requires m.core.pc.Execute? && Safe(m)
    ensures Safe(Apply(m, NextExecution(m.core, m.core.pc.call, m.core.pc.rest, i)))
  {
    var o := NextExecution(m.core, m.core.pc.call, m.core.pc.rest, i);
    ExecutionEffect(m.core, m.core.pc.call, m.core.pc.rest, i);
    if o.effect.ToolStarted? {
      Started(m, o, m.core.pc.call, m.core.pc.rest);
    } else {
      SameHistory(m, o);
    }
  }

  lemma ExecutionEffect(c: Core, call: ToolCall, rest: seq<ToolCall>, i: Input)
    ensures var o := NextExecution(c, call, rest, i);
            if o.effect.ToolStarted? then o == Output(c.(pc := Settle(call, rest, true)), None, ToolStarted(call.id))
            else o.effect == NoEffect && o.core.st.messages == c.st.messages
  {
  }

  lemma ApprovedSafe(cfg: Config, m: Machine, i: Input)
    requires m.core.pc.Approved?
    requires Safe(m)
    ensures Safe(Step(cfg, m, i))
  {
    var o := NextApproved(m.core, m.core.pc.call, m.core.pc.rest, m.core.pc.decision);
    if o.effect.ToolStarted? {
      Started(m, o, m.core.pc.call, m.core.pc.rest);
    } else {
      SameHistory(m, o);
    }
  }

  lemma ResultSafe(cfg: Config, m: Machine, i: Input)
    requires m.core.pc.Settle?
    requires Safe(m)
    ensures Safe(Step(cfg, m, i))
  {
    var o := NextResult(m.core, m.core.pc.call, m.core.pc.rest, m.core.pc.started, i);
    assert Next(cfg, m.core, i) == o;
    if i.taskCancelled {
      SameHistory(m, o);
    } else {
      ResultKeeps(m.core, m.core.pc.call, m.core.pc.rest, m.core.pc.started, i);
      OneMoreResult(m, o, m.core.pc.call, m.core.pc.rest);
    }
  }

  lemma ResultKeeps(c: Core, call: ToolCall, rest: seq<ToolCall>, started: bool, i: Input)
    requires !i.taskCancelled
    ensures var o := NextResult(c, call, rest, started, i);
            && Done(o.core.st) == Done(c.st) + {Some(call.id)} && LastAssistant(o.core.st.messages) == LastAssistant(c.st.messages)
            && o.effect == NoEffect && o.commit == Some(Commit(AfterTool, DurableRunning, []))
            && o.core.pc.Settled? && o.core.pc.rest == rest
  {
    var result := ToolMessage(call, started, i.tool, i.newId);
    CompletedAppend(c.st.messages, result);
    LastAssistantAppend(c.st.messages, result);
  }

  lemma OneMoreResult(m: Machine, o: Output, call: ToolCall, rest: seq<ToolCall>)
    requires Safe(m) && m.core.pc.Settle? && m.core.pc.call == call && m.core.pc.rest == rest
    requires o.effect == NoEffect && o.commit == Some(Commit(AfterTool, DurableRunning, []))
    requires o.core.pc.Settled? && o.core.pc.rest == rest
    requires Done(o.core.st) == Done(m.core.st) + {Some(call.id)}
    requires LastAssistant(o.core.st.messages) == LastAssistant(m.core.st.messages)
    ensures Safe(Apply(m, o))
  {
    FirstUnfinished(Done(m.core.st), call, rest);
    LongerHistory(m, o);
  }

  lemma SettledSafe(cfg: Config, m: Machine, i: Input)
    requires m.core.pc.Settled?
    requires Safe(m)
    ensures Safe(Step(cfg, m, i))
  {
    DrainKeeps(m.core.st, i);
    SameHistory(m, Next(cfg, m.core, i));
  }

  lemma StepSafe(cfg: Config, m: Machine, i: Input)
    requires i.provider.Answered? ==> DistinctIds(i.provider.calls)
    requires Safe(m)
    ensures Safe(Step(cfg, m, i))
  {
    match m.core.pc
    case LoopTop => PassSafe(cfg, m, i);
    case Build => BuildSafe(cfg, m, i);
    case CallProvider => RequestSafe(cfg, m, i);
    case AwaitProvider => ModelSafe(cfg, m, i);
    case Dispatch => ResponseSafe(cfg, m, i);
    case NextCall(_) => NextCallSafe(cfg, m, i);
    case Prepare(_, _) => PrepareSafe(cfg, m, i);
    case AwaitApproval(_, _) => DecisionSafe(cfg, m, i);
    case Execute(_, _) => ExecuteSafe(cfg, m, i);
    case Decided(_, _, _) => BoundarySafe(cfg, m, i);
    case Approved(_, _, _) => ApprovedSafe(cfg, m, i);
    case Settle(_, _, _) => ResultSafe(cfg, m, i);
    case Settled(_, _, _, _) => SettledSafe(cfg, m, i);
    case Stopped(_) =>
    case _ => SimpleSafe(cfg, m, i);
  }

  lemma CrashSafe(m: Machine)
    requires Recorded(m.log, m.starts, m.boundaries)
    ensures Safe(Crash(m))
  {
    if m.log != [] {
      RestoredKeeps(Latest(m.log).state);
    }
  }

  lemma {:induction false} RunSafe(cfg: Config, m: Machine, events: seq<Event>)
    requires Fresh(m) && DistinctResponses(events)
    ensures Safe(Run(cfg, m, events))
  {
    if events != [] {
      var n := |events| - 1;
      RunSafe(cfg, m, events[..n]);
      var before := Run(cfg, m, events[..n]);
      match events[n]
      case Tick(i) => StepSafe(cfg, before, i);
      case Restart => CrashSafe(before);
    }
  }
}
