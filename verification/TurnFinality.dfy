/** Once an output is decided, nothing that follows can change it or act again. */
module TurnFinality {
  import opened Messages
  import opened RunStates
  import opened Recovery
  import opened TurnMachine

  /** The newest checkpoint fixes the outcome and the process can only close the turn. */
  predicate Closing(m: Machine, output: Option<string>) {
    && (LatestIs(m.log, BeforeFinalize) || LatestIs(m.log, Terminal))
    && Latest(m.log).state.finalOutput == output
    && Latest(m.log).state.error == None
    && (LatestIs(m.log, Terminal) ==> Latest(m.log).status == DurableCompleted && Latest(m.log).state.status == Completed)
    && (m.core.pc.Stopped?
        || (LatestIs(m.log, BeforeFinalize) && m.core.st.finalOutput == output && m.core.st.error == None
            && (m.core.pc.Finishing? || (m.core.pc.Entry? && m.core.resume == Some(BeforeFinalize)))))
  }

  lemma ClosingTick(cfg: Config, m: Machine, i: Input, output: Option<string>)
    requires Closing(m, output)
    ensures var n := Step(cfg, m, i);
            Closing(n, output) && n.providerCalls == m.providerCalls && n.starts == m.starts && n.boundaries == m.boundaries
    ensures !m.core.pc.Stopped? ==> LatestIs(Step(cfg, m, i).log, Terminal)
  {
    if m.core.pc.Stopped? {
      assert Step(cfg, m, i) == m;
    } else {
      var o := if m.core.pc.Entry? then NextEntry(m.core) else Close(m.core, m.core.st.(status := Completed));
      assert Next(cfg, m.core, i) == o;
    }
  }

  lemma ClosingCrash(m: Machine, output: Option<string>)
    requires Closing(m, output)
    ensures Closing(Crash(m), output)
    ensures LatestIs(m.log, BeforeFinalize) && Restore(Serialize(Latest(m.log).state)).Some? ==> Crash(m).core.pc == Entry
  {
    var n := m.(core := Reopen(m.log, m.core));
    assert Crash(m) == n;
    if n.core.pc.Stopped? {
      StoppedCloses(m, n, output);
    } else {
      RestoredFields(Latest(m.log).state);
      ResumedCloses(m, n, output);
    }
  }

  lemma StoppedCloses(m: Machine, n: Machine, output: Option<string>)
    requires Closing(m, output) && n.log == m.log && n.core.pc.Stopped?
    ensures Closing(n, output)
  {
  }

  lemma ResumedCloses(m: Machine, n: Machine, output: Option<string>)
    requires Closing(m, output) && n.log == m.log && LatestIs(m.log, BeforeFinalize)
    requires n.core.pc.Entry? && n.core.resume == Some(BeforeFinalize)
    requires n.core.st.(messages := []) == Latest(m.log).state.(messages := [])
    ensures Closing(n, output)
  {
    assert n.core.st.(messages := []).error == Latest(m.log).state.error;
    assert n.core.st.(messages := []).finalOutput == Latest(m.log).state.finalOutput;
  }

  /** While the loop runs it carries no error, and a decided checkpoint means it is closing. */
  predicate Decides(m: Machine) {
    && (m.log != [] && !LatestIs(m.log, Terminal) ==> Latest(m.log).state.error == None)
    && (!m.core.pc.Stopped? ==> m.core.st.error == None)
    && (LatestIs(m.log, BeforeFinalize) ==> Closing(m, Latest(m.log).state.finalOutput))
    && (LatestIs(m.log, Terminal) ==> m.core.pc.Stopped?)
    && (!m.core.pc.Stopped? && m.core.resume == Some(BeforeFinalize) ==> LatestIs(m.log, BeforeFinalize))
    && (m.core.pc.Finishing? ==> LatestIs(m.log, BeforeFinalize))
  }

  /** Steps away from closing: the new checkpoint, if any, is of the new state and not terminal. */
  lemma OpenStep(m: Machine, o: Output)
    requires Decides(m) && !m.core.pc.Stopped? && !LatestIs(m.log, BeforeFinalize)
    requires o.core.pc.Stopped? || o.core.st.error == None
    requires o.core.pc.Stopped? || o.core.resume == m.core.resume || o.core.resume == None
    requires o.commit.Some? && o.commit.value.point == BeforeFinalize ==> o.core.pc.Finishing?
    requires o.commit.Some? && o.commit.value.point == Terminal ==> o.core.pc.Stopped?
    requires o.commit.Some? && o.commit.value.point != Terminal ==> o.core.st.error == None
    requires o.core.pc.Finishing? ==> o.commit.Some? && o.commit.value.point == BeforeFinalize
    ensures Decides(Apply(m, o))
  {
  }

  lemma StepDecides(cfg: Config, m: Machine, i: Input)
    requires Decides(m)
    ensures Decides(Step(cfg, m, i))
  {
    if LatestIs(m.log, BeforeFinalize) {
      ClosingTick(cfg, m, i, Latest(m.log).state.finalOutput);
      ClosedByStep(cfg, m, i);
    } else if !m.core.pc.Stopped? {
      NextIsOpen(cfg, m.core, i);
      OpenStep(m, Next(cfg, m.core, i));
    }
  }

  /** Closing ends in a terminal checkpoint and a stopped process. */
  lemma ClosedByStep(cfg: Config, m: Machine, i: Input)
    requires Decides(m) && LatestIs(m.log, BeforeFinalize)
    ensures Decides(Step(cfg, m, i))
  {
  }

  predicate StaysOpen(c: Core, o: Output) {
    && (o.core.pc.Stopped? || o.core.st.error == None)
    && (o.core.pc.Stopped? || o.core.resume == c.resume || o.core.resume == None)
    && (o.commit.Some? && o.commit.value.point == BeforeFinalize ==> o.core.pc.Finishing?)
    && (o.commit.Some? && o.commit.value.point == Terminal ==> o.core.pc.Stopped?)
    && (o.commit.Some? && o.commit.value.point != Terminal ==> o.core.st.error == None)
    && (o.core.pc.Finishing? ==> o.commit.Some? && o.commit.value.point == BeforeFinalize)
  }

  lemma LoopIsOpen(cfg: Config, c: Core, i: Input)
    requires c.st.error == None && c.resume != Some(BeforeFinalize)
    requires c.pc in {Entry, LoopTop, Build, CallProvider, AwaitProvider, Dispatch} || c.pc.Raising?
    ensures StaysOpen(c, Next(cfg, c, i))
  {
  }

  lemma ToolIsOpen(cfg: Config, c: Core, i: Input)
    requires c.st.error == None && c.resume != Some(BeforeFinalize)
    requires c.pc.NextCall? || c.pc.Prepare? || c.pc.Execute? || c.pc.AwaitApproval? || c.pc.Decided? || c.pc.Approved? || c.pc.Settle? || c.pc.Settled?
    ensures StaysOpen(c, Next(cfg, c, i))
  {
  }

  lemma NextIsOpen(cfg: Config, c: Core, i: Input)
    requires c.st.error == None && !c.pc.Stopped? && !c.pc.Finishing? && c.resume != Some(BeforeFinalize)
    ensures StaysOpen(c, Next(cfg, c, i))
  {
    if c.pc in {Entry, LoopTop, Build, CallProvider, AwaitProvider, Dispatch} || c.pc.Raising? {
      LoopIsOpen(cfg, c, i);
    } else {
      ToolIsOpen(cfg, c, i);
    }
  }

  lemma CrashDecides(m: Machine)
    requires Decides(m)
    ensures Decides(Crash(m))
  {
    if m.log != [] {
      RestoredFields(Latest(m.log).state);
    }
  }

  lemma {:induction false} RunDecides(cfg: Config, m: Machine, events: seq<Event>)
    requires Fresh(m)
    ensures Decides(Run(cfg, m, events))
  {
    if events != [] {
      var n := |events| - 1;
      RunDecides(cfg, m, events[..n]);
      match events[n]
      case Tick(i) => StepDecides(cfg, Run(cfg, m, events[..n]), i);
      case Restart => CrashDecides(Run(cfg, m, events[..n]));
    }
  }

  lemma {:induction false} ClosingLasts(cfg: Config, m: Machine, events: seq<Event>, output: Option<string>)
    requires Closing(m, output)
    ensures var n := Run(cfg, m, events);
            Closing(n, output) && n.providerCalls == m.providerCalls && n.starts == m.starts && n.boundaries == m.boundaries
  {
    if events != [] {
      var k := |events| - 1;
      ClosingLasts(cfg, m, events[..k], output);
      match events[k]
      case Tick(i) => ClosingTick(cfg, Run(cfg, m, events[..k]), i, output);
      case Restart => ClosingCrash(Run(cfg, m, events[..k]), output);
    }
  }

  /**
   * A committed BEFORE_FINALIZE is the last decision of the turn: whatever happens afterwards, crashes
   * included, no provider or tool runs again, and the only checkpoint that can follow is a terminal
   * one, completed, with the same final output.
   */
  lemma DecidedOutputIsFinal(cfg: Config, m: Machine, before: seq<Event>, after: seq<Event>)
    requires Fresh(m)
    requires LatestIs(Run(cfg, m, before).log, BeforeFinalize)
    ensures var decided := Run(cfg, m, before);
            var later := Run(cfg, m, before + after);
            && later.providerCalls == decided.providerCalls && later.starts == decided.starts
            && later.log != []
            && Latest(later.log).point in {BeforeFinalize, Terminal}
            && Latest(later.log).state.finalOutput == Latest(decided.log).state.finalOutput
            && (Latest(later.log).point == Terminal ==> Latest(later.log).status == DurableCompleted)
  {
    RunDecides(cfg, m, before);
    RunAppend(cfg, m, before, after);
    ClosingLasts(cfg, Run(cfg, m, before), after, Latest(Run(cfg, m, before).log).state.finalOutput);
  }

  /** One restart and one step close a decided turn, provided its checkpoint can be restored. */
  lemma DecidedTurnCloses(cfg: Config, m: Machine, before: seq<Event>, i: Input)
    requires Fresh(m)
    requires LatestIs(Run(cfg, m, before).log, BeforeFinalize)
    requires Restorable(Latest(Run(cfg, m, before).log).state.messages)
    ensures LatestIs(Run(cfg, m, before + [Restart] + [Tick(i)]).log, Terminal)
  {
    var decided := Run(cfg, m, before);
    var output := Latest(decided.log).state.finalOutput;
    RunDecides(cfg, m, before);
    RunThen(cfg, m, before, Restart);
    RunThen(cfg, m, before + [Restart], Tick(i));
    Reopened(decided, output);
    ClosingTick(cfg, Crash(decided), i, output);
  }

  lemma Reopened(decided: Machine, output: Option<string>)
    requires Closing(decided, output) && LatestIs(decided.log, BeforeFinalize)
    requires Restorable(Latest(decided.log).state.messages)
    ensures Closing(Crash(decided), output) && Crash(decided).core.pc == Entry
  {
    RoundTrip(Latest(decided.log).state);
    ClosingCrash(decided, output);
  }

  // ----- The restart decision -----

  predicate GoesOn(point: ResumePoint) {
    point in {BeforeModel, ModelInFlight, AfterModel, WaitingApproval, BeforeTool, AfterTool, BeforeFinalize}
  }

  lemma RestoresExactlyWhen(st: RunState)
    ensures Restore(Serialize(st)).Some? <==> Restorable(st.messages)
  {
    RoundTrip(st);
  }

  /** A restart lets the loop go on exactly from these boundaries, and only if the checkpoint can be restored. */
  lemma RestartContinuesFrom(m: Machine)
    requires m.log != []
    ensures Crash(m).core.pc == Entry <==>
            GoesOn(Latest(m.log).point) && Restorable(Latest(m.log).state.messages)
    ensures Crash(m).core.pc == Entry ==> Crash(m).core.resume == Some(Latest(m.log).point)
    ensures Crash(m).core.pc != Entry ==> Crash(m).core.pc.Stopped?
  {
    var k := Latest(m.log);
    RestoresExactlyWhen(k.state);
    match k.point
    case Terminal =>
    case _ => assert Resumable(k.point) <==> GoesOn(k.point);
  }

  lemma PointCases(point: ResumePoint)
    ensures point != Terminal ==> (Resumable(point) <==> GoesOn(point))
    ensures !GoesOn(point) && point != Terminal <==> point in {ToolInFlight, WaitingSubagent, Paused, RecoveryRequired}
  {
  }

  lemma ReopenCases(m: Machine)
    requires m.log != []
    ensures var k, c := Latest(m.log), Crash(m).core;
            var back := Restore(Serialize(k.state));
            && c.pc == (if k.point == Terminal then Stopped(if back.None? then RestoreFailed else AlreadyTerminal)
                        else if !Resumable(k.point) then Stopped(NeedsRecovery)
                        else if back.None? then Stopped(RestoreFailed)
                        else Entry)
            && (c.pc == Entry || c.pc == Stopped(AlreadyTerminal) ==> back == Some(c.st))
  {
  }

  /**
   * What every restart finds, by the newest checkpoint alone: nothing when there is none; a closed turn at TERMINAL; a turn that
   * needs recovery at TOOL_IN_FLIGHT and wherever the loop cannot go on; an error when the state does not restore.
   * Where it goes on, and at TERMINAL, it holds the restored state.
   */
  lemma RestartFinds(m: Machine)
    ensures var pc := Crash(m).core.pc;
            if m.log == [] then pc == Stopped(NothingToResume)
            else
              var k := Latest(m.log);
              && (pc == Stopped(AlreadyTerminal) <==> k.point == Terminal && Restorable(k.state.messages))
              && (pc == Stopped(NeedsRecovery) <==> k.point in {ToolInFlight, WaitingSubagent, Paused, RecoveryRequired})
              && (pc == Stopped(RestoreFailed) <==> (k.point == Terminal || GoesOn(k.point)) && !Restorable(k.state.messages))
              && (pc == Entry || pc == Stopped(AlreadyTerminal) ==> Restore(Serialize(k.state)) == Some(Crash(m).core.st))
  {
    if m.log != [] {
      RestoresExactlyWhen(Latest(m.log).state);
      ReopenCases(m);
      PointCases(Latest(m.log).point);
    }
  }

  /**
   * From every other boundary nothing happens by itself any more. In particular a turn lost with a tool
   * in flight stays where it is, through any number of restarts: the tool is never started again.
   */
  lemma {:induction false} OtherBoundariesStay(cfg: Config, m: Machine, events: seq<Event>)
    requires m.log != [] && Crash(m).core.pc != Entry
    ensures var n := Run(cfg, Crash(m), events);
            && n == Crash(m) && n.log == m.log
            && n.providerCalls == m.providerCalls && n.starts == m.starts && n.boundaries == m.boundaries
  {
    if events != [] {
      var k := |events| - 1;
      OtherBoundariesStay(cfg, m, events[..k]);
      RestartContinuesFrom(m);
      assert Happen(cfg, Crash(m), events[k]) == Crash(m);
    }
  }
}
