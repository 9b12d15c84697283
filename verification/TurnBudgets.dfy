/** Budgets and the finality of a decided output, over every run of one turn. */
module TurnBudgets {
  import opened Messages
  import opened RunStates
  import opened Recovery
  import opened TurnMachine

  // ----- Budgets -----

  predicate WithinLimits(cfg: Config, st: RunState) {
    && st.iteration <= cfg.limits.maxIterations
    && st.modelCallCount <= cfg.limits.maxModelCalls
    && st.toolCallCount <= cfg.limits.maxToolCalls
  }

  predicate SameCounts(s: RunState, t: RunState) {
    s.iteration == t.iteration && s.modelCallCount == t.modelCallCount && s.toolCallCount == t.toolCallCount
  }

  /** What the newest checkpoint accounts for; one start may be unaccounted while a tool is in flight. */
  predicate Accounted(cfg: Config, m: Machine) {
    if m.log == [] then m.providerCalls == 0 && |m.starts| == 0
    else
      var st := Latest(m.log).state;
      && WithinLimits(cfg, st)
      && m.providerCalls <= st.modelCallCount
      && (LatestIs(m.log, ToolInFlight) ==> st.toolCallCount < cfg.limits.maxToolCalls)
      && |m.starts| <= st.toolCallCount + |m.boundaries| + (if LatestIs(m.log, ToolInFlight) then 1 else 0)
  }

  predicate InTool(pc: Pc) {
    pc.Prepare? || pc.Execute? || pc.AwaitApproval? || pc.Decided? || pc.Approved? || pc.Settle?
  }

  /** The running loop agrees with the newest checkpoint and has room for what it is about to do. */
  predicate InBudget(cfg: Config, m: Machine) {
    !m.core.pc.Stopped? ==>
      var st := m.core.st;
      && WithinLimits(cfg, st)
      && (if m.log == [] then SameCounts(st, st.(iteration := 0, modelCallCount := 0, toolCallCount := 0))
          else SameCounts(st, Latest(m.log).state))
      && (m.log == [] ==> (m.core.pc.Entry? || m.core.pc.LoopTop? || m.core.pc.Raising?) && m.core.resume == None)
      && m.providerCalls + (if m.core.pc.CallProvider? then 1 else 0) <= st.modelCallCount
      && (InTool(m.core.pc) ==> st.toolCallCount < cfg.limits.maxToolCalls)
      && (m.core.pc.Execute? ==> LatestIs(m.log, ToolInFlight))
      && (m.core.pc.Approved? ==> LatestIs(m.log, ToolInFlight) || |m.starts| < st.toolCallCount + |m.boundaries|)
      && |m.starts| <= st.toolCallCount + |m.boundaries| + (if m.core.pc.Settle? then 1 else 0)
  }

  predicate Budgeted(cfg: Config, m: Machine) { Accounted(cfg, m) && InBudget(cfg, m) }

  /** A step without an effect that keeps the counters. */
  lemma SteadyStep(cfg: Config, m: Machine, o: Output)
    requires Budgeted(cfg, m) && !m.core.pc.Stopped? && o.effect == NoEffect
    requires SameCounts(o.core.st, m.core.st)
    requires m.core.pc.Settle? ==> o.core.pc.Stopped?
    requires o.commit.Some? ==> !m.core.pc.Settle?
    requires o.commit.None? && m.log == [] ==> o.core.resume == None && (o.core.pc.LoopTop? || o.core.pc.Raising? || o.core.pc.Stopped?)
    requires !o.core.pc.CallProvider?
    requires o.commit.Some? && o.commit.value.point == ToolInFlight ==> InTool(o.core.pc)
    requires InTool(o.core.pc) ==> m.core.st.toolCallCount < cfg.limits.maxToolCalls
    requires o.core.pc.Execute? ==> o.commit.Some? && o.commit.value.point == ToolInFlight
    requires o.core.pc.Approved? ==> o.commit.None? && LatestIs(m.log, ToolInFlight)
    ensures Budgeted(cfg, Apply(m, o))
  {
  }

  lemma EntryBudget(cfg: Config, m: Machine, i: Input)
    requires m.core.pc.Entry? || m.core.pc.Finishing? || m.core.pc.Raising?
    requires Budgeted(cfg, m)
    ensures Budgeted(cfg, Step(cfg, m, i))
  {
    SteadyStep(cfg, m, Next(cfg, m.core, i));
  }

  lemma PassBudget(cfg: Config, m: Machine, i: Input)
    requires m.core.pc.LoopTop?
    requires Budgeted(cfg, m)
    ensures Budgeted(cfg, Step(cfg, m, i))
  {
    var o := NextPass(cfg, m.core, i);
    if o.commit.None? {
      SteadyStep(cfg, m, o);
    }
  }

  lemma RequestBudget(cfg: Config, m: Machine, i: Input)
    requires m.core.pc.Build? || m.core.pc.CallProvider?
    requires Budgeted(cfg, m)
    ensures Budgeted(cfg, Step(cfg, m, i))
  {
    var o := Next(cfg, m.core, i);
    if o.core.pc.Raising? {
      SteadyStep(cfg, m, o);
    }
  }

  lemma AnswerBudget(cfg: Config, m: Machine, i: Input)
    requires m.core.pc.AwaitProvider? || m.core.pc.Dispatch?
    requires Budgeted(cfg, m)
    ensures Budgeted(cfg, Step(cfg, m, i))
  {
    SteadyStep(cfg, m, Next(cfg, m.core, i));
  }

  lemma CallBudget(cfg: Config, m: Machine, i: Input)
    requires m.core.pc.NextCall? || m.core.pc.Prepare? || m.core.pc.AwaitApproval?
    requires Budgeted(cfg, m)
    ensures Budgeted(cfg, Step(cfg, m, i))
  {
    SteadyStep(cfg, m, Next(cfg, m.core, i));
  }

  lemma StartBudget(cfg: Config, m: Machine, i: Input)
    requires m.core.pc.Execute? || m.core.pc.Approved?
    requires Budgeted(cfg, m)
    ensures Budgeted(cfg, Step(cfg, m, i))
  {
    var o := Next(cfg, m.core, i);
    if o.effect == NoEffect {
      SteadyStep(cfg, m, o);
    } else {
      assert |m.starts + multiset{o.effect.id}| == |m.starts| + 1;
    }
  }

  lemma BoundaryBudget(cfg: Config, m: Machine, i: Input)
    requires m.core.pc.Decided?
    requires Budgeted(cfg, m)
    ensures Budgeted(cfg, Step(cfg, m, i))
  {
    assert |m.boundaries + multiset{m.core.pc.call.id}| == |m.boundaries| + 1;
  }

  lemma ResultBudget(cfg: Config, m: Machine, i: Input)
    requires m.core.pc.Settle? || m.core.pc.Settled?
    requires Budgeted(cfg, m)
    ensures Budgeted(cfg, Step(cfg, m, i))
  {
    var o := Next(cfg, m.core, i);
    if m.core.pc.Settled? || o.commit.None? {
      SteadyStep(cfg, m, o);
    }
  }

  lemma StepBudget(cfg: Config, m: Machine, i: Input)
    requires Budgeted(cfg, m)
    ensures Budgeted(cfg, Step(cfg, m, i))
  {
    match m.core.pc
    case LoopTop => PassBudget(cfg, m, i);
    case Build => RequestBudget(cfg, m, i);
    case CallProvider => RequestBudget(cfg, m, i);
    case AwaitProvider => AnswerBudget(cfg, m, i);
    case Dispatch => AnswerBudget(cfg, m, i);
    case NextCall(_) => CallBudget(cfg, m, i);
    case Prepare(_, _) => CallBudget(cfg, m, i);
    case AwaitApproval(_, _) => CallBudget(cfg, m, i);
    case Execute(_, _) => StartBudget(cfg, m, i);
    case Approved(_, _, _) => StartBudget(cfg, m, i);
    case Decided(_, _, _) => BoundaryBudget(cfg, m, i);
    case Settle(_, _, _) => ResultBudget(cfg, m, i);
    case Settled(_, _, _, _) => ResultBudget(cfg, m, i);
    case Stopped(_) =>
    case _ => EntryBudget(cfg, m, i);
  }

  lemma CrashBudget(cfg: Config, m: Machine)
    requires Accounted(cfg, m)
    ensures Budgeted(cfg, Crash(m))
  {
    var n := m.(core := Reopen(m.log, m.core));
    assert Crash(m) == n;
    if n.core.pc.Stopped? {
      StoppedBudget(cfg, n);
    } else {
      RestoredFields(Latest(m.log).state);
      ResumedBudget(cfg, n);
    }
  }

  lemma StoppedBudget(cfg: Config, m: Machine)
    requires Accounted(cfg, m) && m.core.pc.Stopped?
    ensures Budgeted(cfg, m)
  {
  }

  lemma ResumedBudget(cfg: Config, m: Machine)
    requires Accounted(cfg, m) && m.core.pc.Entry? && m.log != [] && !LatestIs(m.log, ToolInFlight)
    requires m.core.st.(messages := []) == Latest(m.log).state.(messages := [])
    ensures Budgeted(cfg, m)
  {
    var st := Latest(m.log).state;
    assert m.core.st.(messages := []).iteration == st.iteration;
    assert SameCounts(m.core.st, st);
  }

  lemma {:induction false} RunBudget(cfg: Config, m: Machine, events: seq<Event>)
    requires Fresh(m)
    ensures Budgeted(cfg, Run(cfg, m, events))
  {
    if events != [] {
      var n := |events| - 1;
      RunBudget(cfg, m, events[..n]);
      var before := Run(cfg, m, events[..n]);
      match events[n]
      case Tick(i) => StepBudget(cfg, before, i);
      case Restart => CrashBudget(cfg, before);
    }
  }

  /** What the durable log says has been spent. */
  function Spent(log: seq<Checkpoint>): (nat, nat, nat) {
    if log == [] then (0, 0, 0)
    else (Latest(log).state.iteration, Latest(log).state.modelCallCount, Latest(log).state.toolCallCount)
  }

  /**
   * Over any number of crashes and resumes: every provider call is on durable record and within its
   * limit, iterations stay within theirs, and tools start at most as often as their limit allows,
   * plus once for every approval that interposed a checkpoint.
   */
  lemma BudgetsSurviveCrashes(cfg: Config, m: Machine, events: seq<Event>)
    requires Fresh(m)
    ensures var n := Run(cfg, m, events); var (iterations, models, tools) := Spent(n.log);
            && n.providerCalls <= models <= cfg.limits.maxModelCalls
            && iterations <= cfg.limits.maxIterations
            && tools <= cfg.limits.maxToolCalls
            && |n.starts| <= cfg.limits.maxToolCalls + |n.boundaries|
  {
    RunBudget(cfg, m, events);
  }

  // ----- The sequence numbers -----

  ghost predicate Numbered(log: seq<Checkpoint>) {
    forall k :: 0 <= k < |log| ==> log[k].sequence == k + 1
  }

  /** Checkpoints are numbered without gaps across processes, so the newest row is the one with the highest number. */
  lemma {:induction false} RunNumbered(cfg: Config, m: Machine, events: seq<Event>)
    requires Fresh(m)
    ensures Numbered(Run(cfg, m, events).log)
  {
    if events != [] {
      RunNumbered(cfg, m, events[..|events| - 1]);
    }
  }

  /** The log only grows, whatever happens. */
  lemma {:induction false} LogGrows(cfg: Config, m: Machine, events: seq<Event>)
    ensures m.log <= Run(cfg, m, events).log
  {
    if events != [] {
      LogGrows(cfg, m, events[..|events| - 1]);
    }
  }
}
