/**
 * Who may start a tool: over all runs, executor starts are exactly the steps at which the permission check
 * allowed the call, or at which the decision on record for it says allowed.
 */
module TurnPermissions {
  import opened Messages
  import opened RunStates
  import opened Recovery
  import opened TurnMachine

  // ----- What an approval leaves on record -----

  /** The decision a step follows is the one on record, and nobody is asked about a call that has one. */
  predicate Recorded(c: Core) {
    && (c.pc.AwaitApproval? ==> Key(c.pc.call) !in c.approvals)
    && (c.pc.Decided? || c.pc.Approved? ==> Key(c.pc.call) in c.approvals && c.approvals[Key(c.pc.call)] == c.pc.decision)
  }

  /** This step takes a decision for this key. */
  predicate Decides(c: Core, i: Input, key: ApprovalKey, d: Decision) {
    c.pc.AwaitApproval? && Key(c.pc.call) == key && !i.taskCancelled && i.decision == d
  }

  predicate InApproval(pc: Pc) { pc.Execute? || pc.AwaitApproval? || pc.Decided? || pc.Approved? }

  lemma ElsewhereRecorded(cfg: Config, c: Core, i: Input)
    requires !InApproval(c.pc)
    ensures var d := Next(cfg, c, i).core;
            d.approvals == c.approvals && !d.pc.AwaitApproval? && !d.pc.Decided? && !d.pc.Approved?
  {
    if c.pc.LoopTop? || c.pc.Dispatch? || c.pc.NextCall? || c.pc.Settled? {
      PassRecorded(cfg, c, i);
    }
  }

  lemma PassRecorded(cfg: Config, c: Core, i: Input)
    requires c.pc.LoopTop? || c.pc.Dispatch? || c.pc.NextCall? || c.pc.Settled?
    ensures var d := Next(cfg, c, i).core;
            d.approvals == c.approvals && !d.pc.AwaitApproval? && !d.pc.Decided? && !d.pc.Approved?
  {
  }

  lemma ExecutionRecorded(cfg: Config, c: Core, i: Input)
    requires c.pc.Execute?
    ensures var d := Next(cfg, c, i).core; d.approvals == c.approvals && Recorded(d)
  {
  }

  lemma ApprovalRecorded(cfg: Config, c: Core, i: Input)
    requires (c.pc.AwaitApproval? || c.pc.Decided? || c.pc.Approved?) && Recorded(c)
    ensures var d := Next(cfg, c, i).core;
            && Recorded(d)
            && d.approvals == if c.pc.AwaitApproval? && !i.taskCancelled then c.approvals[Key(c.pc.call) := i.decision] else c.approvals
  {
  }

  lemma StepRecorded(cfg: Config, c: Core, i: Input)
    requires Recorded(c)
    ensures var d := Next(cfg, c, i).core;
            && Recorded(d)
            && d.approvals == if c.pc.AwaitApproval? && !i.taskCancelled then c.approvals[Key(c.pc.call) := i.decision] else c.approvals
  {
    if c.pc.Execute? {
      ExecutionRecorded(cfg, c, i);
    } else if InApproval(c.pc) {
      ApprovalRecorded(cfg, c, i);
    } else {
      ElsewhereRecorded(cfg, c, i);
    }
  }

  lemma CrashRecorded(m: Machine)
    ensures Recorded(Crash(m).core) && Crash(m).core.approvals == m.core.approvals
    ensures !Crash(m).core.pc.AwaitApproval?
  {
  }

  lemma {:induction false} RunRecorded(cfg: Config, m: Machine, events: seq<Event>)
    requires Fresh(m)
    ensures Recorded(Run(cfg, m, events).core)
  {
    if events != [] {
      var n := |events| - 1;
      RunRecorded(cfg, m, events[..n]);
      HappenRecorded(cfg, Run(cfg, m, events[..n]), events[n]);
    }
  }

  lemma HappenRecorded(cfg: Config, m: Machine, e: Event)
    requires Recorded(m.core)
    ensures Recorded(Happen(cfg, m, e).core)
  {
    match e
    case Tick(i) => StepRecorded(cfg, m.core, i);
    case Restart => CrashRecorded(m);
  }

  /** Some step of the run takes a decision for this key. */
  predicate DecidedIn(cfg: Config, m: Machine, events: seq<Event>, key: ApprovalKey, d: Decision) {
    events != [] &&
      var n := |events| - 1;
      || DecidedIn(cfg, m, events[..n], key, d)
      || (events[n].Tick? && Decides(Run(cfg, m, events[..n]).core, events[n].input, key, d))
  }

  predicate OnRecord(approvals: map<ApprovalKey, Decision>, key: ApprovalKey, d: Decision) {
    key in approvals && approvals[key] == d
  }

  lemma HappenDecides(cfg: Config, m: Machine, e: Event, key: ApprovalKey, d: Decision)
    requires Recorded(m.core)
    ensures OnRecord(Happen(cfg, m, e).core.approvals, key, d) <==>
            OnRecord(m.core.approvals, key, d) || (e.Tick? && Decides(m.core, e.input, key, d))
  {
    match e
    case Tick(i) => StepRecorded(cfg, m.core, i);
    case Restart => CrashRecorded(m);
  }

  /**
   * The record of a turn's approvals, across processes: it says exactly what was answered when a process asked.
   * A call is asked about once, and the answer stands.
   */
  lemma {:induction false} RecordSaysWhatWasAnswered(cfg: Config, m: Machine, events: seq<Event>, key: ApprovalKey, d: Decision)
    requires Fresh(m)
    ensures OnRecord(Run(cfg, m, events).core.approvals, key, d) <==> DecidedIn(cfg, m, events, key, d)
  {
    if events != [] {
      var n := |events| - 1;
      RecordSaysWhatWasAnswered(cfg, m, events[..n], key, d);
      RunRecorded(cfg, m, events[..n]);
      HappenDecides(cfg, Run(cfg, m, events[..n]), events[n], key, d);
    }
  }

  // ----- Starts -----

  /** The permission check allows this call, or the record does. */
  predicate MayStart(c: Core, i: Input, id: string) {
    || (c.pc.Execute? && c.pc.call.id == id && !i.taskCancelled && c.pc.call.arguments != Text("") && i.permission == Allow)
    || (c.pc.Approved? && c.pc.call.id == id && OnRecord(c.approvals, Key(c.pc.call), Allowed))
  }

  /** How many steps of a run those are. */
  function Permitted(cfg: Config, m: Machine, events: seq<Event>, id: string): nat {
    if events == [] then 0
    else
      var n := |events| - 1;
      Permitted(cfg, m, events[..n], id)
      + if events[n].Tick? && MayStart(Run(cfg, m, events[..n]).core, events[n].input, id) then 1 else 0
  }

  lemma ExecutionStarts(cfg: Config, m: Machine, i: Input, id: string)
    requires m.core.pc.Execute?
    ensures Step(cfg, m, i).starts[id] == m.starts[id] + if MayStart(m.core, i, id) then 1 else 0
  {
  }

  lemma ApprovedStarts(cfg: Config, m: Machine, i: Input, id: string)
    requires m.core.pc.Approved? && Recorded(m.core)
    ensures Step(cfg, m, i).starts[id] == m.starts[id] + if MayStart(m.core, i, id) then 1 else 0
  {
  }

  lemma ElsewhereStarts(cfg: Config, m: Machine, i: Input)
    requires !m.core.pc.Execute? && !m.core.pc.Approved?
    ensures Step(cfg, m, i).starts == m.starts
  {
    if m.core.pc.LoopTop? || m.core.pc.Dispatch? || m.core.pc.NextCall? || m.core.pc.Settled? {
      PassStarts(cfg, m.core, i);
    }
  }

  lemma PassStarts(cfg: Config, c: Core, i: Input)
    requires c.pc.LoopTop? || c.pc.Dispatch? || c.pc.NextCall? || c.pc.Settled?
    ensures Next(cfg, c, i).effect == NoEffect
  {
  }

  lemma HappenStarts(cfg: Config, m: Machine, e: Event, id: string)
    requires Recorded(m.core)
    ensures Happen(cfg, m, e).starts[id] == m.starts[id] + if e.Tick? && MayStart(m.core, e.input, id) then 1 else 0
  {
    if e.Tick? {
      if m.core.pc.Execute? {
        ExecutionStarts(cfg, m, e.input, id);
      } else if m.core.pc.Approved? {
        ApprovedStarts(cfg, m, e.input, id);
      } else {
        ElsewhereStarts(cfg, m, e.input);
      }
    }
  }

  /** Executor starts are counted exactly: one for every step at which the check or the record allows the call. */
  lemma {:induction false} StartsArePermitted(cfg: Config, m: Machine, events: seq<Event>, id: string)
    requires Fresh(m)
    ensures Run(cfg, m, events).starts[id] == Permitted(cfg, m, events, id)
  {
    if events != [] {
      var n := |events| - 1;
      StartsArePermitted(cfg, m, events[..n], id);
      RunRecorded(cfg, m, events[..n]);
      HappenStarts(cfg, Run(cfg, m, events[..n]), events[n], id);
    }
  }

  /** The permission check is reached for this call, and allows it. */
  predicate Allows(c: Core, i: Input, id: string) { c.pc.Execute? && c.pc.call.id == id && i.permission == Allow }

  predicate AllowedIn(cfg: Config, m: Machine, events: seq<Event>, id: string) {
    events != [] &&
      var n := |events| - 1;
      || AllowedIn(cfg, m, events[..n], id)
      || (events[n].Tick? && Allows(Run(cfg, m, events[..n]).core, events[n].input, id))
  }

  /** Some approval of this call that is on record says allowed. */
  ghost predicate ApprovedOnRecord(approvals: map<ApprovalKey, Decision>, id: string) {
    exists key: ApprovalKey :: key.id == id && OnRecord(approvals, key, Allowed)
  }

  lemma AnswerStands(cfg: Config, m: Machine, e: Event, id: string)
    requires Recorded(m.core) && ApprovedOnRecord(m.core.approvals, id)
    ensures ApprovedOnRecord(Happen(cfg, m, e).core.approvals, id)
  {
    var key: ApprovalKey :| key.id == id && OnRecord(m.core.approvals, key, Allowed);
    HappenDecides(cfg, m, e, key, Allowed);
  }

  lemma MayStartAllowed(c: Core, i: Input, id: string)
    requires MayStart(c, i, id)
    ensures Allows(c, i, id) || ApprovedOnRecord(c.approvals, id)
  {
    if c.pc.Approved? {
      assert Key(c.pc.call).id == id;
    }
  }

  /**
   * A tool that has started was allowed: the permission check said so when it was reached, or an approval of
   * the call with that answer is on record. No crash, resume or other call changes this.
   */
  lemma {:induction false} StartNeedsPermission(cfg: Config, m: Machine, events: seq<Event>, id: string)
    requires Fresh(m)
    ensures Run(cfg, m, events).starts[id] > 0 ==>
              AllowedIn(cfg, m, events, id) || ApprovedOnRecord(Run(cfg, m, events).core.approvals, id)
  {
    if events != [] {
      var n := |events| - 1;
      StartNeedsPermission(cfg, m, events[..n], id);
      RunRecorded(cfg, m, events[..n]);
      HappenNeedsPermission(cfg, Run(cfg, m, events[..n]), events[n], id, AllowedIn(cfg, m, events[..n], id));
    }
  }

  lemma HappenNeedsPermission(cfg: Config, m: Machine, e: Event, id: string, allowed: bool)
    requires Recorded(m.core) && (m.starts[id] > 0 ==> allowed || ApprovedOnRecord(m.core.approvals, id))
    ensures var n := Happen(cfg, m, e);
            n.starts[id] > 0 ==>
              allowed || (e.Tick? && Allows(m.core, e.input, id)) || ApprovedOnRecord(n.core.approvals, id)
  {
    HappenStarts(cfg, m, e, id);
    if e.Tick? && MayStart(m.core, e.input, id) {
      MayStartAllowed(m.core, e.input, id);
    }
    if ApprovedOnRecord(m.core.approvals, id) {
      AnswerStands(cfg, m, e, id);
    }
  }

  /** A call that the permission check never allows, and whose only recorded answers are denials, never starts. */
  lemma DeniedCallNeverStarts(cfg: Config, m: Machine, events: seq<Event>, id: string)
    requires Fresh(m) && !AllowedIn(cfg, m, events, id)
    requires var approvals := Run(cfg, m, events).core.approvals;
             forall key: ApprovalKey :: key in approvals && key.id == id ==> approvals[key] != Allowed
    ensures Run(cfg, m, events).starts[id] == 0
  {
    StartNeedsPermission(cfg, m, events, id);
  }
}
