/** What the callers of the scheduler may rely on: one child per key, and no cancelled or closed child that nobody asked for. */
module SchedulerOutcomes {
  import opened Messages
  import opened Scheduler
  import B = Budgets

  // ----- One child per key -----

  lemma KeyStep(s: State, e: Event, key: string)
    requires key in s.keys && s.keys[key] < |s.threads|
    ensures var t := Step(s, e); key in t.keys && t.keys[key] == s.keys[key] && t.keys[key] < |t.threads|
  {
  }

  lemma {:induction false} KeyStays(s: State, events: seq<Event>, key: string)
    requires key in s.keys && s.keys[key] < |s.threads|
    ensures var t := Run(s, events); key in t.keys && t.keys[key] == s.keys[key] && t.keys[key] < |t.threads|
  {
    if events != [] {
      KeyStays(s, events[..|events| - 1], key);
      KeyStep(Run(s, events[..|events| - 1]), events[|events| - 1], key);
    }
  }

  /** The spawn of a new key that is let in, within the total and within the budget. */
  predicate Accepts(s: State, key: string, local: B.Limits) {
    key !in s.keys && |s.threads| < s.cfg.maxTotal && B.Breaks(s.budget, local) == None
  }

  /**
   * Spawning is idempotent in the key: an accepted spawn makes one child, queued with a task of its own, and whatever
   * happens then, a later spawn under the same key changes nothing, and the key still stands for that child.
   */
  lemma SpawnIsIdempotent(cfg: Config, limits: B.Limits, before: seq<Event>, key: string, local: B.Limits, after: seq<Event>,
                          allowed: bool, again: B.Limits)
    requires Accepts(Run(Initial(cfg, limits), before), key, local)
    ensures var s := Run(Initial(cfg, limits), before);
            var n := Step(s, Spawn(Some(key), true, local));
            var t := Run(Initial(cfg, limits), before + [Spawn(Some(key), true, local)] + after);
            && n.threads == s.threads + [Thread(Queued, 0, 0, Some(|s.tasks|), false)] && n.tasks == s.tasks + [Task(|s.threads|, Fresh, false)]
            && key in t.keys && t.keys[key] == |s.threads| < |t.threads|
            && Step(t, Spawn(Some(key), allowed, again)) == t
  {
    var s := Run(Initial(cfg, limits), before);
    var e := Spawn(Some(key), true, local);
    RunSnoc(Initial(cfg, limits), before, e);
    RunFrom(Initial(cfg, limits), before + [e], after);
    assert Step(s, e).threads == s.threads + [Thread(Queued, 0, 0, Some(|s.tasks|), false)];
    KeyStays(Step(s, e), after, key);
  }

  // ----- No end that nobody asked for -----

  predicate CancelAsked(events: seq<Event>, a: nat) { exists e :: e in events && (e.CallCancel? || e.CallClose?) && e.agent == a }

  predicate CloseAsked(events: seq<Event>, a: nat) { exists e :: e in events && e.CallClose? && e.agent == a }

  predicate StatusAsked(events: seq<Event>, a: nat, status: Status) {
    && (status in {Cancelling, Cancelled} ==> CancelAsked(events, a))
    && (status == Closed ==> CloseAsked(events, a))
  }

  predicate CallerAsked(events: seq<Event>, c: Caller) {
    && CancelAsked(events, c.agent)
    && (c.Locking? || c.closing ==> CloseAsked(events, c.agent))
  }

  ghost predicate AllAsked(s: State, events: seq<Event>) {
    && (forall a :: 0 <= a < |s.threads| ==> StatusAsked(events, a, s.threads[a].status))
    && (forall k :: 0 <= k < |s.tasks| && s.tasks[k].cancelled ==> CancelAsked(events, s.tasks[k].agent))
    && (forall c :: c in s.callers ==> CallerAsked(events, s.callers[c]))
  }

  lemma StillAsked(s: State, events: seq<Event>, e: Event)
    requires AllAsked(s, events)
    ensures AllAsked(s, events + [e])
  {
    AskedMore(events, e);
  }

  lemma AskedMore(events: seq<Event>, e: Event)
    ensures forall a :: CancelAsked(events, a) ==> CancelAsked(events + [e], a)
    ensures forall a :: CloseAsked(events, a) ==> CloseAsked(events + [e], a)
    ensures (e.CallCancel? || e.CallClose?) ==> CancelAsked(events + [e], e.agent)
    ensures e.CallClose? ==> CloseAsked(events + [e], e.agent)
  {
    var all := events + [e];
    assert e in all;
    forall a | CancelAsked(events, a)
      ensures CancelAsked(all, a)
    {
      var d :| d in events && (d.CallCancel? || d.CallClose?) && d.agent == a;
      assert d in all;
    }
    forall a | CloseAsked(events, a)
      ensures CloseAsked(all, a)
    {
      var d :| d in events && d.CallClose? && d.agent == a;
      assert d in all;
    }
  }

  lemma TaskAsked(s: State, events: seq<Event>, e: Event)
    requires AllAsked(s, events) && Consistent(s) && (e.Begin? || e.Wake? || e.Cleaned?)
    ensures AllAsked(Step(s, e), events)
  {
    if e.task < |s.tasks| {
      assert TaskFits(s, e.task);
    }
  }

  lemma EndAsked(s: State, events: seq<Event>, e: Event)
    requires AllAsked(s, events) && Consistent(s) && (e.Finish? || e.Deliver?)
    ensures AllAsked(Step(s, e), events)
  {
    if e.task < |s.tasks| {
      assert TaskFits(s, e.task);
    }
  }

  lemma AddAsked(s: State, events: seq<Event>, e: Event)
    requires AllAsked(s, events) && (e.Spawn? || e.Send?)
    ensures AllAsked(Step(s, e), events)
  {
  }

  lemma CallAsked(s: State, events: seq<Event>, e: Event)
    requires AllAsked(s, events) && Consistent(s) && (e.CallCancel? || e.CallClose?)
    requires CancelAsked(events, e.agent) && (e.CallClose? ==> CloseAsked(events, e.agent))
    ensures AllAsked(Step(s, e), events)
  {
    if e.agent < |s.threads| {
      assert ThreadFits(s, e.agent);
    }
  }

  lemma ReturnAsked(s: State, events: seq<Event>, e: Event)
    requires AllAsked(s, events) && Consistent(s) && (e.Resume? || e.Interrupt?)
    ensures AllAsked(Step(s, e), events)
  {
    if e.caller in s.callers {
      assert CallerFits(s, e.caller) && CallerAsked(events, s.callers[e.caller]);
      assert ThreadFits(s, s.callers[e.caller].agent);
    }
  }

  /** Over every interleaving, a child is cancelled, or being cancelled, only if somebody asked to cancel or close it, and closed only if somebody asked to close it. */
  lemma {:induction false} EndsAreAskedFor(cfg: Config, limits: B.Limits, events: seq<Event>)
    ensures AllAsked(Run(Initial(cfg, limits), events), events)
  {
    if events != [] {
      var n := |events| - 1;
      var s, e := Run(Initial(cfg, limits), events[..n]), events[n];
      EndsAreAskedFor(cfg, limits, events[..n]);
      RunFits(cfg, limits, events[..n]);
      StillAsked(s, events[..n], e);
      AskedMore(events[..n], e);
      assert events == events[..n] + [e];
      if e.Begin? || e.Wake? || e.Cleaned? {
        TaskAsked(s, events, e);
      } else if e.Finish? || e.Deliver? {
        EndAsked(s, events, e);
      } else if e.Spawn? || e.Send? {
        AddAsked(s, events, e);
      } else if e.CallCancel? || e.CallClose? {
        CallAsked(s, events, e);
      } else {
        ReturnAsked(s, events, e);
      }
    }
  }

  /**
   * A cancel or a close that returns means what it says: when the caller's wait is over, the child is CANCELLED or
   * CLOSED, and CLOSED when it was a close.
   */
  lemma ReturnMeansEnded(cfg: Config, limits: B.Limits, events: seq<Event>, c: nat)
    requires c in Run(Initial(cfg, limits), events).callers && c !in Run(Initial(cfg, limits), events + [Resume(c)]).callers
    ensures var caller := Run(Initial(cfg, limits), events).callers[c];
            var t := Run(Initial(cfg, limits), events + [Resume(c)]);
            && caller.agent < |t.threads| && t.threads[caller.agent].status in {Cancelled, Closed}
            && (caller.Locking? ==> t.threads[caller.agent].status == Closed)
  {
    var s := Run(Initial(cfg, limits), events);
    RunFits(cfg, limits, events);
    RunSnoc(Initial(cfg, limits), events, Resume(c));
    assert CallerFits(s, c);
  }
}
