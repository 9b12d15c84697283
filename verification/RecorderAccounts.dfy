/** The recorder seen by its callers: what was accepted, what of it reached the file, and until when it accepts. */
module RecorderAccounts {
  import opened Messages
  import opened RolloutRows
  import opened Recorder

  /** The items handed over while the recorder was open, in order. */
  ghost function Accepted(s: State, events: seq<Event>): seq<Item> {
    if events == [] then []
    else
      var n := |events| - 1;
      Accepted(s, events[..n]) + if events[n].Record? && Run(s, events[..n]).lifecycle == Open then events[n].items else []
  }

  lemma RecordedStep(s: State, e: Event)
    ensures Step(s, e).recorded == s.recorded + if e.Record? && s.lifecycle == Open then e.items else []
  {
    assert s.recorded + [] == s.recorded;
  }

  /**
   * Over any run, everything accepted is accounted for: until a failure it is in the file, in the writer's hands
   * or queued, in the order it was accepted; and whatever is in the file was there at the start or was accepted.
   */
  lemma {:induction false} AcceptedIsAccountedFor(s: State, events: seq<Event>)
    requires Initial(s)
    ensures var t := Run(s, events);
            && t.recorded == s.written + Accepted(s, events)
            && t.written <= s.written + Accepted(s, events)
            && (t.lifecycle != Failed ==> t.written + InHand(t.writer) + Batches(t.queue) == s.written + Accepted(s, events))
  {
    RunValid(s, events);
    if events == [] {
      assert s.written + [] == s.written;
    } else {
      var n := |events| - 1;
      AcceptedIsAccountedFor(s, events[..n]);
      RecordedStep(Run(s, events[..n]), events[n]);
      var more := if events[n].Record? && Run(s, events[..n]).lifecycle == Open then events[n].items else [];
      assert (s.written + Accepted(s, events[..n])) + more == s.written + (Accepted(s, events[..n]) + more);
    }
  }

  // ----- Until when it accepts -----

  /** A call of shutdown that is not refused. */
  predicate Shuts(s: State, e: Event) { e.CallShutdown? && s.lifecycle == Open && e.ack !in s.acks }

  predicate ShutsAt(s: State, events: seq<Event>, k: nat) { k < |events| && Shuts(Run(s, events[..k]), events[k]) }

  lemma OpenStep(s: State, e: Event)
    requires Valid(s)
    ensures Step(s, e).lifecycle == Open <==> s.lifecycle == Open && !Fails(s, e) && !Shuts(s, e)
  {
    if s.lifecycle == Failed {
      FailedStep(s, e);
    } else {
      FailureCause(s, e);
    }
  }

  lemma ShutsBefore(s: State, events: seq<Event>, n: nat, k: nat)
    requires k < n <= |events|
    ensures ShutsAt(s, events, k) <==> ShutsAt(s, events[..n], k)
  {
    assert events[..n][..k] == events[..k];
  }

  /** No failure and no shutdown among the events. */
  ghost predicate Untouched(s: State, events: seq<Event>) { forall k: nat :: !FailsAt(s, events, k) && !ShutsAt(s, events, k) }

  lemma UntouchedStep(s: State, events: seq<Event>)
    requires events != []
    ensures var n := |events| - 1;
            var p := Run(s, events[..n]);
            Untouched(s, events) <==> Untouched(s, events[..n]) && !Fails(p, events[n]) && !Shuts(p, events[n])
  {
    var n := |events| - 1;
    forall k: nat | k < n
      ensures FailsAt(s, events, k) <==> FailsAt(s, events[..n], k)
      ensures ShutsAt(s, events, k) <==> ShutsAt(s, events[..n], k)
    {
      FailsBefore(s, events, n, k);
      ShutsBefore(s, events, n, k);
    }
    assert FailsAt(s, events, n) <==> Fails(Run(s, events[..n]), events[n]);
    assert ShutsAt(s, events, n) <==> Shuts(Run(s, events[..n]), events[n]);
    assert forall k: nat :: k >= n ==> !FailsAt(s, events[..n], k) && !ShutsAt(s, events[..n], k);
    assert forall k: nat :: k > n ==> !FailsAt(s, events, k) && !ShutsAt(s, events, k);
  }

  /** The recorder accepts items exactly until it fails or is shut down. */
  lemma {:induction false} OpenExactlyUntil(s: State, events: seq<Event>)
    requires Initial(s)
    ensures Run(s, events).lifecycle == Open <==> Untouched(s, events)
  {
    if events == [] {
      assert forall k: nat :: !FailsAt(s, events, k) && !ShutsAt(s, events, k);
    } else {
      var n := |events| - 1;
      OpenExactlyUntil(s, events[..n]);
      RunValid(s, events[..n]);
      OpenStep(Run(s, events[..n]), events[n]);
      UntouchedStep(s, events);
    }
  }

  // ----- From a record to the file -----

  lemma {:induction false} RecordedGrows(s: State, events: seq<Event>)
    ensures s.recorded <= Run(s, events).recorded
  {
    if events != [] {
      RecordedGrows(s, events[..|events| - 1]);
      RecordedStep(Run(s, events[..|events| - 1]), events[|events| - 1]);
    }
  }

  lemma RunThen(s: State, events: seq<Event>, e: Event)
    ensures Run(s, events + [e]) == Step(Run(s, events), e)
  {
    assert (events + [e])[..|events|] == events;
  }

  /**
   * End to end: items accepted at some point, and a flush called later that returns without an error. Then those
   * items stand in the file, one behind the other and behind everything accepted before them, whatever else happens.
   */
  lemma FlushedItemsAreWritten(s: State, before: seq<Event>, items: seq<Item>, between: seq<Event>, ack: nat, after: seq<Event>)
    requires Initial(s) && Run(s, before).lifecycle == Open
    requires var m := Run(s, before + [Record(items)] + between); m.lifecycle == Open && ack !in m.acks
    ensures var t := Run(s, before + [Record(items)] + between + [CallFlush(ack)] + after);
            ack in t.acks && (t.acks[ack] == Granted ==> s.written + Accepted(s, before) + items <= t.written)
  {
    var given := before + [Record(items)];
    var called := given + between;
    RunThen(s, before, Record(items));
    RecordedStep(Run(s, before), Record(items));
    AcceptedIsAccountedFor(s, before);
    RunFrom(s, given, between);
    RecordedGrows(Run(s, given), between);
    FlushMeansWritten(s, called, ack, after);
  }
}
