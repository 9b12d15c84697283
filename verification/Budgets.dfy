/** Leases of child budgets against the limits of one run (runtime/budgets.py). */
module Budgets {
  import opened Messages

  datatype Limits = Limits(modelCalls: nat, toolCalls: nat)

  datatype Lease = Lease(modelCalls: nat, toolCalls: nat, released: bool)

  datatype State = State(
    limits: Limits,
    reservedModel: int,
    reservedTools: int,
    usedModel: nat,
    usedTools: nat,
    leases: map<nat, Lease>)

  datatype Exceeded = ModelCalls | ToolCalls

  /** The budget that a reservation would break; model calls are checked first. */
  function Breaks(s: State, local: Limits): Option<Exceeded> {
    if s.reservedModel + local.modelCalls > s.limits.modelCalls then Some(ModelCalls)
    else if s.reservedTools + local.toolCalls > s.limits.toolCalls then Some(ToolCalls)
    else None
  }

  function Reserve(s: State, agent: nat, local: Limits): State {
    if Breaks(s, local).Some? then s
    else s.(reservedModel := s.reservedModel + local.modelCalls, reservedTools := s.reservedTools + local.toolCalls,
            leases := s.leases[agent := Lease(local.modelCalls, local.toolCalls, false)])
  }

  /** Only the first release of a lease counts. */
  function Release(s: State, agent: nat, usedModel: nat, usedTools: nat): State {
    if agent !in s.leases || s.leases[agent].released then s
    else
      var l := s.leases[agent];
      s.(reservedModel := s.reservedModel - l.modelCalls, reservedTools := s.reservedTools - l.toolCalls,
         usedModel := s.usedModel + usedModel, usedTools := s.usedTools + usedTools,
         leases := s.leases[agent := l.(released := true)])
  }

  function Initial(limits: Limits): State { State(limits, 0, 0, 0, 0, map[]) }

  class RunBudgetManager {
    const limits: Limits
    var reservedModelCalls: int
    var reservedToolCalls: int
    var usedModelCalls: nat
    var usedToolCalls: nat
    var leases: map<nat, Lease>

    function View(): State
      reads this
    {
      State(limits, reservedModelCalls, reservedToolCalls, usedModelCalls, usedToolCalls, leases)
    }

    constructor (limits: Limits)
      ensures View() == Initial(limits)
    {
      this.limits := limits;
      reservedModelCalls, reservedToolCalls, usedModelCalls, usedToolCalls := 0, 0, 0, 0;
      leases := map[];
    }

    method ReserveChild(agent: nat, local: Limits) returns (exceeded: Option<Exceeded>)
      modifies this
      ensures View() == Reserve(old(View()), agent, local) && exceeded == Breaks(old(View()), local)
    {
      var nextModel, nextTools := reservedModelCalls + local.modelCalls, reservedToolCalls + local.toolCalls;
      if nextModel > limits.modelCalls {
        return Some(ModelCalls);
      }
      if nextTools > limits.toolCalls {
        return Some(ToolCalls);
      }
      leases := leases[agent := Lease(local.modelCalls, local.toolCalls, false)];
      reservedModelCalls, reservedToolCalls := nextModel, nextTools;
      return None;
    }

    method ReleaseChild(agent: nat, usedModel: nat, usedTools: nat)
      modifies this
      ensures View() == Release(old(View()), agent, usedModel, usedTools)
    {
      if agent !in leases || leases[agent].released {
        return;
      }
      var l := leases[agent];
      leases := leases[agent := l.(released := true)];
      reservedModelCalls, reservedToolCalls := reservedModelCalls - l.modelCalls, reservedToolCalls - l.toolCalls;
      usedModelCalls, usedToolCalls := usedModelCalls + usedModel, usedToolCalls + usedTools;
    }
  }

  // ----- Conservation -----

  function HeldModel(l: Lease): nat { if l.released then 0 else l.modelCalls }

  function HeldTools(l: Lease): nat { if l.released then 0 else l.toolCalls }

  /** A total over all entries. */
  ghost function Total<V>(entries: map<nat, V>, value: V -> nat): nat
    decreases |entries|
  {
    if entries == map[] then 0
    else
      var a :| a in entries;
      value(entries[a]) + Total(entries - {a}, value)
  }

  lemma {:induction false} TotalRemove<V>(entries: map<nat, V>, value: V -> nat, k: nat)
    requires k in entries
    ensures Total(entries, value) == value(entries[k]) + Total(entries - {k}, value)
    decreases |entries|
  {
    var a :| a in entries && Total(entries, value) == value(entries[a]) + Total(entries - {a}, value);
    if a != k {
      TotalRemove(entries - {a}, value, k);
      TotalRemove(entries - {k}, value, a);
      assert entries - {a} - {k} == entries - {k} - {a};
    }
  }

  lemma TotalUpdate<V>(entries: map<nat, V>, value: V -> nat, k: nat, v: V)
    ensures Total(entries[k := v], value) == value(v) + Total(entries - {k}, value)
    ensures k in entries ==> Total(entries, value) == value(entries[k]) + Total(entries - {k}, value)
    ensures k !in entries ==> Total(entries, value) == Total(entries - {k}, value)
  {
    TotalRemove(entries[k := v], value, k);
    assert entries[k := v] - {k} == entries - {k};
    if k in entries {
      TotalRemove(entries, value, k);
    } else {
      assert entries - {k} == entries;
    }
  }

  /** What is reserved is exactly what the unreleased leases hold, and it fits the run's limits. */
  ghost predicate Conserved(s: State) {
    && s.reservedModel == Total(s.leases, HeldModel) <= s.limits.modelCalls
    && s.reservedTools == Total(s.leases, HeldTools) <= s.limits.toolCalls
  }

  lemma ReserveConserves(s: State, agent: nat, local: Limits)
    requires Conserved(s) && agent !in s.leases
    ensures Conserved(Reserve(s, agent, local))
  {
    TotalUpdate(s.leases, HeldModel, agent, Lease(local.modelCalls, local.toolCalls, false));
    TotalUpdate(s.leases, HeldTools, agent, Lease(local.modelCalls, local.toolCalls, false));
  }

  lemma ReleaseConserves(s: State, agent: nat, usedModel: nat, usedTools: nat)
    requires Conserved(s)
    ensures Conserved(Release(s, agent, usedModel, usedTools))
  {
    if agent in s.leases {
      TotalUpdate(s.leases, HeldModel, agent, s.leases[agent].(released := true));
      TotalUpdate(s.leases, HeldTools, agent, s.leases[agent].(released := true));
    }
  }

  datatype Event = Grant(agent: nat, local: Limits) | Return(agent: nat, usedModel: nat, usedTools: nat)

  function Step(s: State, e: Event): State {
    match e
    case Grant(agent, local) => Reserve(s, agent, local)
    case Return(agent, m, t) => Release(s, agent, m, t)
  }

  function Run(s: State, events: seq<Event>): State {
    if events == [] then s else Step(Run(s, events[..|events| - 1]), events[|events| - 1])
  }

  /** No agent id is granted a lease twice. */
  ghost predicate FreshIds(s: State, events: seq<Event>) {
    forall k :: 0 <= k < |events| && events[k].Grant? ==> events[k].agent !in Run(s, events[..k]).leases
  }

  lemma FreshPrefix(limits: Limits, events: seq<Event>, n: nat)
    requires FreshIds(Initial(limits), events) && n <= |events|
    ensures FreshIds(Initial(limits), events[..n])
  {
    forall k | 0 <= k < n && events[..n][k].Grant?
      ensures events[..n][k].agent !in Run(Initial(limits), events[..n][..k]).leases
    {
      assert events[..n][..k] == events[..k];
    }
  }

  /** Over any sequence with fresh ids reservations are conserved. */
  lemma {:induction false} RunConserves(limits: Limits, events: seq<Event>)
    requires FreshIds(Initial(limits), events)
    ensures Conserved(Run(Initial(limits), events))
  {
    if events != [] {
      var n := |events| - 1;
      FreshPrefix(limits, events, n);
      RunConserves(limits, events[..n]);
      var s := Run(Initial(limits), events[..n]);
      match events[n]
      case Grant(agent, local) => ReserveConserves(s, agent, local);
      case Return(agent, m, t) => ReleaseConserves(s, agent, m, t);
    }
  }

  /**
   * When a reservation is granted, after any run with fresh ids: exactly when, with what the leases not yet released
   * hold, both limits still suffice. A granted one takes just what it asked for, and a refused one nothing.
   */
  lemma GrantedExactlyWhen(limits: Limits, events: seq<Event>, agent: nat, local: Limits)
    requires FreshIds(Initial(limits), events) && agent !in Run(Initial(limits), events).leases
    ensures var s := Run(Initial(limits), events);
            var t := Reserve(s, agent, local);
            && (agent in t.leases <==>
                  && Total(s.leases, HeldModel) + local.modelCalls <= limits.modelCalls
                  && Total(s.leases, HeldTools) + local.toolCalls <= limits.toolCalls)
            && (agent in t.leases ==>
                  && t.leases == s.leases[agent := Lease(local.modelCalls, local.toolCalls, false)]
                  && Total(t.leases, HeldModel) == Total(s.leases, HeldModel) + local.modelCalls
                  && Total(t.leases, HeldTools) == Total(s.leases, HeldTools) + local.toolCalls)
            && (agent !in t.leases ==> t == s)
  {
    RunConserves(limits, events);
    RunLimits(limits, events);
    var s := Run(Initial(limits), events);
    TotalUpdate(s.leases, HeldModel, agent, Lease(local.modelCalls, local.toolCalls, false));
    TotalUpdate(s.leases, HeldTools, agent, Lease(local.modelCalls, local.toolCalls, false));
  }

  lemma {:induction false} RunLimits(limits: Limits, events: seq<Event>)
    ensures Run(Initial(limits), events).limits == limits
  {
    if events != [] {
      RunLimits(limits, events[..|events| - 1]);
    }
  }

  // ----- Usage -----

  datatype Usage = Usage(modelCalls: nat, toolCalls: nat)

  function ReportedModel(u: Usage): nat { u.modelCalls }

  function ReportedTools(u: Usage): nat { u.toolCalls }

  /** The k-th event is a release of an existing lease of this agent. */
  ghost predicate ReturnsAt(limits: Limits, events: seq<Event>, agent: nat, k: nat)
    requires k < |events|
  {
    events[k].Return? && events[k].agent == agent && agent in Run(Initial(limits), events[..k]).leases
  }

  /** ... and the first one. */
  ghost predicate FirstReturn(limits: Limits, events: seq<Event>, agent: nat, k: nat, u: Usage) {
    && k < |events| && ReturnsAt(limits, events, agent, k)
    && u == Usage(events[k].usedModel, events[k].usedTools)
    && forall j :: 0 <= j < k ==> !ReturnsAt(limits, events, agent, j)
  }

  ghost predicate NeverReturned(limits: Limits, events: seq<Event>, agent: nat) {
    forall k :: 0 <= k < |events| ==> !ReturnsAt(limits, events, agent, k)
  }

  /** `reports` says for every released lease what was reported at its first release. */
  ghost predicate Reports(limits: Limits, events: seq<Event>, reports: map<nat, Usage>) {
    var s := Run(Initial(limits), events);
    && (forall a :: a in reports <==> a in s.leases && s.leases[a].released)
    && (forall a :: a in reports ==> exists k :: FirstReturn(limits, events, a, k, reports[a]))
    && (forall a :: a in s.leases && !s.leases[a].released ==> NeverReturned(limits, events, a))
  }

  lemma ReturnsBefore(limits: Limits, events: seq<Event>, n: nat, agent: nat, k: nat)
    requires k < n <= |events|
    ensures ReturnsAt(limits, events, agent, k) <==> ReturnsAt(limits, events[..n], agent, k)
  {
    assert events[..n][..k] == events[..k];
  }

  lemma FirstReturnLater(limits: Limits, events: seq<Event>, n: nat, agent: nat, u: Usage)
    requires n <= |events| && exists k :: FirstReturn(limits, events[..n], agent, k, u)
    ensures exists k :: FirstReturn(limits, events, agent, k, u)
  {
    var k :| FirstReturn(limits, events[..n], agent, k, u);
    forall j | 0 <= j <= k
      ensures ReturnsAt(limits, events, agent, j) <==> ReturnsAt(limits, events[..n], agent, j)
    {
      ReturnsBefore(limits, events, n, agent, j);
    }
    assert FirstReturn(limits, events, agent, k, u);
  }

  /** Without a first release among the events before, the last event is it. */
  lemma FirstReturnNow(limits: Limits, events: seq<Event>, agent: nat, u: Usage)
    requires events != [] && events[|events| - 1] == Return(agent, u.modelCalls, u.toolCalls)
    requires agent in Run(Initial(limits), events[..|events| - 1]).leases
    requires NeverReturned(limits, events[..|events| - 1], agent)
    ensures FirstReturn(limits, events, agent, |events| - 1, u)
  {
    forall j | 0 <= j < |events| - 1
      ensures !ReturnsAt(limits, events, agent, j)
    {
      ReturnsBefore(limits, events, |events| - 1, agent, j);
    }
  }

  lemma NoReturnLater(limits: Limits, events: seq<Event>, agent: nat)
    requires events != [] && NeverReturned(limits, events[..|events| - 1], agent)
    requires !ReturnsAt(limits, events, agent, |events| - 1)
    ensures NeverReturned(limits, events, agent)
  {
    forall k | 0 <= k < |events|
      ensures !ReturnsAt(limits, events, agent, k)
    {
      if k < |events| - 1 {
        ReturnsBefore(limits, events, |events| - 1, agent, k);
      }
    }
  }

  /** An agent without a lease has never returned one. */
  lemma {:induction false} NoLeaseNoReturn(limits: Limits, events: seq<Event>, agent: nat)
    requires agent !in Run(Initial(limits), events).leases
    ensures NeverReturned(limits, events, agent)
  {
    if events != [] {
      NoLeaseNoReturn(limits, events[..|events| - 1], agent);
      NoReturnLater(limits, events, agent);
    }
  }

  /** The step of the induction for one agent. */
  lemma ReportsStep(limits: Limits, events: seq<Event>, before: map<nat, Usage>, reports: map<nat, Usage>)
    requires events != [] && FreshIds(Initial(limits), events) && Reports(limits, events[..|events| - 1], before)
    requires var s, e := Run(Initial(limits), events[..|events| - 1]), events[|events| - 1];
             reports == if e.Return? && e.agent in s.leases && !s.leases[e.agent].released
                        then before[e.agent := Usage(e.usedModel, e.usedTools)] else before
    ensures Reports(limits, events, reports)
  {
    var n := |events| - 1;
    var s, e, t := Run(Initial(limits), events[..n]), events[n], Run(Initial(limits), events);
    forall a | a in reports
      ensures exists k :: FirstReturn(limits, events, a, k, reports[a])
    {
      if a in before {
        FirstReturnLater(limits, events, n, a, before[a]);
      } else {
        FirstReturnNow(limits, events, a, reports[a]);
      }
    }
    forall a | a in t.leases && !t.leases[a].released
      ensures NeverReturned(limits, events, a)
    {
      if a !in s.leases {
        NoLeaseNoReturn(limits, events[..n], a);
      }
      NoReturnLater(limits, events, a);
    }
  }

  /**
   * Over any run with fresh ids both used totals are the sums, over the released leases, of what was
   * reported at the first release of each; later releases count for nothing.
   */
  lemma {:induction false} UsageIsReported(limits: Limits, events: seq<Event>) returns (reports: map<nat, Usage>)
    requires FreshIds(Initial(limits), events)
    ensures Reports(limits, events, reports)
    ensures Run(Initial(limits), events).usedModel == Total(reports, ReportedModel)
    ensures Run(Initial(limits), events).usedTools == Total(reports, ReportedTools)
  {
    if events == [] {
      reports := map[];
    } else {
      var n := |events| - 1;
      FreshPrefix(limits, events, n);
      var before := UsageIsReported(limits, events[..n]);
      var s, e := Run(Initial(limits), events[..n]), events[n];
      reports := before;
      if e.Return? && e.agent in s.leases && !s.leases[e.agent].released {
        var u := Usage(e.usedModel, e.usedTools);
        reports := before[e.agent := u];
        TotalUpdate(before, ReportedModel, e.agent, u);
        TotalUpdate(before, ReportedTools, e.agent, u);
      }
      ReportsStep(limits, events, before, reports);
    }
  }

  /** One release: a first one adds its usage and gives back exactly its lease, any other changes nothing. */
  lemma ReleaseOnce(s: State, agent: nat, m: nat, t: nat)
    ensures var r := Release(s, agent, m, t);
            if agent in s.leases && !s.leases[agent].released
            then && r.usedModel == s.usedModel + m && r.reservedModel == s.reservedModel - s.leases[agent].modelCalls
                 && r.usedTools == s.usedTools + t && r.reservedTools == s.reservedTools - s.leases[agent].toolCalls
                 && (forall m2: nat, t2: nat :: Release(r, agent, m2, t2) == r)
            else r == s
  {
  }

  /** The guard is needed: an id granted twice keeps the first reservation forever, though no lease holds it. */
  lemma ReusedIdLeaks(limits: Limits, local: Limits, agent: nat)
    requires 2 * local.modelCalls <= limits.modelCalls && 2 * local.toolCalls <= limits.toolCalls
    ensures var s := Release(Reserve(Reserve(Initial(limits), agent, local), agent, local), agent, 0, 0);
            && s.reservedModel == local.modelCalls && s.leases == map[agent := Lease(local.modelCalls, local.toolCalls, true)]
            && forall m: nat, t: nat :: Release(s, agent, m, t) == s
  {
  }
}
