/**
 * What queued external context carries, over whole runs: every item is what the user chose, within the item limit
 * word for word; a turn takes no more bytes of it than its budget; and nothing chosen is lost or taken in twice.
 */
module ExternalContents {
  import opened Messages
  import opened ExternalContext

  /** The item is this choice: its payload, or, when that is too large, the notice with the artifact it is stored under. */
  predicate Carries(i: Item, c: Choice, limits: Limits) {
    && i.kind == c.kind && i.server == c.server && i.source == c.source && i.mime == c.mime
    && i.hash == "sha256:" + c.serialized && i.size == Utf8Length(c.serialized)
    && (if Utf8Length(c.serialized) <= limits.maxItem then i.content == c.serialized && i.artifact == None
        else i.content == c.notice && i.artifact == Some(c.artifact))
  }

  predicate ChosenAs(e: Event, i: Item, active: bool, limits: Limits) {
    e.Choose? && e.active == active && Carries(i, e.choice, limits)
  }

  /** Some event of the run chose this item, in this way. */
  predicate WasChosen(events: seq<Event>, i: Item, active: bool, limits: Limits) {
    exists e :: e in events && ChosenAs(e, i, active, limits)
  }

  predicate AllChosen(events: seq<Event>, items: seq<Item>, active: bool, limits: Limits) {
    forall i :: i in items ==> WasChosen(events, i, active, limits)
  }

  lemma StillChosen(events: seq<Event>, e: Event, items: seq<Item>, active: bool, limits: Limits)
    requires AllChosen(events, items, active, limits)
    ensures AllChosen(events + [e], items, active, limits)
  {
    forall i | i in items
      ensures WasChosen(events + [e], i, active, limits)
    {
      var d :| d in events && ChosenAs(d, i, active, limits);
      assert d in events + [e];
    }
  }

  lemma NowChosen(events: seq<Event>, c: Choice, active: bool, limits: Limits)
    ensures WasChosen(events + [Choose(c, active)], ItemOf(c, limits), active, limits)
  {
    var e := Choose(c, active);
    assert e in events + [e] && ChosenAs(e, ItemOf(c, limits), active, limits);
  }

  lemma RemainingWas(s: State, limits: Limits)
    ensures forall i :: i in Remaining(s, limits) ==> i in s.pending
    ensures forall i :: i in Injection(s, limits) ==> i in s.pending
  {
    PickMembers(s.pending, Chosen(s.pending, 0, limits.maxTurn), false);
    PickMembers(s.pending, Chosen(s.pending, 0, limits.maxTurn), true);
  }

  /** Everything pending was chosen while idle, everything steered during a turn, and it says what was chosen. */
  lemma {:induction false} ItemsAreChosen(events: seq<Event>, limits: Limits)
    ensures AllChosen(events, Run(EMPTY, events, limits).pending, false, limits)
    ensures AllChosen(events, Run(EMPTY, events, limits).steered, true, limits)
  {
    if events != [] {
      var n := |events| - 1;
      ItemsAreChosen(events[..n], limits);
      var s, e := Run(EMPTY, events[..n], limits), events[n];
      assert events == events[..n] + [e];
      StillChosen(events[..n], e, s.pending, false, limits);
      StillChosen(events[..n], e, s.steered, true, limits);
      match e
      case Choose(c, active) => NowChosen(events[..n], c, active, limits);
      case Turn => RemainingWas(s, limits);
    }
  }

  function Bytes(items: seq<Item>): nat {
    if items == [] then 0 else Utf8Length(items[0].content) + Bytes(items[1..])
  }

  /** What the budget counts for an item is the text that the model will read. */
  lemma CostIsContent(events: seq<Event>, limits: Limits, i: Item)
    requires i in Run(EMPTY, events, limits).pending
    ensures Cost(i) == Utf8Length(i.content)
  {
    ItemsAreChosen(events, limits);
    var e :| e in events && ChosenAs(e, i, false, limits);
  }

  lemma {:induction false} BytesAreCost(items: seq<Item>)
    requires forall i :: i in items ==> Cost(i) == Utf8Length(i.content)
    ensures Bytes(items) == TotalCost(items)
  {
    if items != [] {
      assert items[0] in items && forall i :: i in items[1..] ==> i in items;
      BytesAreCost(items[1..]);
    }
  }

  /** After any run, the texts that the next turn takes in are together no longer than the turn budget. */
  lemma InjectedBytesAreBounded(events: seq<Event>, limits: Limits)
    ensures Bytes(Injection(Run(EMPTY, events, limits), limits)) <= limits.maxTurn
  {
    var s := Run(EMPTY, events, limits);
    RemainingWas(s, limits);
    forall i | i in Injection(s, limits)
      ensures Cost(i) == Utf8Length(i.content)
    {
      CostIsContent(events, limits, i);
    }
    BytesAreCost(Injection(s, limits));
    InjectionIsBounded(s, limits);
  }

  // ----- Nothing is lost -----

  /** The payload is pending, was steered into a turn, or was injected into one. */
  predicate Served(s: State, hash: string) {
    || (exists i :: i in s.pending && i.hash == hash)
    || (exists i :: i in s.steered && i.hash == hash)
    || Injected(hash) in s.history
  }

  predicate AllServed(s: State) { forall hash :: hash in s.hashes ==> Served(s, hash) }

  lemma {:induction false} PickEither(items: seq<Item>, mask: seq<bool>, i: Item)
    requires |items| == |mask| && i in items
    ensures i in Pick(items, mask, true) || i in Pick(items, mask, false)
  {
    if items[0] != i {
      PickEither(items[1..], mask[1..], i);
    }
  }

  lemma InjectServes(s: State, limits: Limits, hash: string)
    requires Served(s, hash)
    ensures Served(Inject(s, limits), hash)
  {
    var t := Inject(s, limits);
    if exists i :: i in s.pending && i.hash == hash {
      var i :| i in s.pending && i.hash == hash;
      PickEither(s.pending, Chosen(s.pending, 0, limits.maxTurn), i);
      var taken := Injection(s, limits);
      if i in taken {
        var k :| 0 <= k < |taken| && taken[k] == i;
        assert t.history[|s.history| + k] == Injected(hash);
      } else {
        assert i in t.pending;
      }
    }
  }

  lemma SelectServes(s: State, c: Choice, active: bool, limits: Limits)
    requires AllServed(s)
    ensures AllServed(Select(s, c, active, limits))
  {
    var i, t := ItemOf(c, limits), Select(s, c, active, limits);
    if i.hash !in s.hashes {
      forall hash | hash in t.hashes
        ensures Served(t, hash)
      {
        if hash == i.hash {
          assert (if active then t.steered else t.pending)[if active then |s.steered| else |s.pending|] == i;
        } else {
          assert Served(s, hash);
        }
      }
    }
  }

  lemma {:induction false} RunServes(events: seq<Event>, limits: Limits)
    ensures AllServed(Run(EMPTY, events, limits))
    ensures forall e :: e in events && e.Choose? ==> "sha256:" + e.choice.serialized in Run(EMPTY, events, limits).hashes
  {
    if events != [] {
      var n := |events| - 1;
      RunServes(events[..n], limits);
      var s := Run(EMPTY, events[..n], limits);
      match events[n]
      case Choose(c, active) => SelectServes(s, c, active, limits);
      case Turn =>
        forall hash | hash in s.hashes
          ensures Served(Inject(s, limits), hash)
        {
          InjectServes(s, limits, hash);
        }
    }
  }

  /**
   * Nothing chosen is lost and nothing is taken in twice: after any run every payload that was ever chosen is pending,
   * steered, or on record as injected, and no two queued items carry the same payload.
   */
  lemma NothingIsLost(events: seq<Event>, limits: Limits, e: Event)
    requires e in events && e.Choose?
    ensures var s := Run(EMPTY, events, limits);
            && Served(s, "sha256:" + e.choice.serialized)
            && DistinctHashes(s.pending) && DistinctHashes(s.steered)
            && (forall i, j :: i in s.pending && j in s.steered ==> i.hash != j.hash)
            && (forall i :: i in s.pending || i in s.steered ==> Injected(i.hash) !in s.history)
  {
    var s := Run(EMPTY, events, limits);
    RunServes(events, limits);
    RunTold(events, limits);
    var injected := InjectedHashes(s.history);
    UnusedDistinct(s.history, injected, false);
    UnusedDistinct(s.history, injected, true);
    forall i, j | i in s.pending && j in s.steered
      ensures i.hash != j.hash
    {
      var k := UnusedMember(s.history, injected, false, i);
      var l := UnusedMember(s.history, injected, true, j);
    }
    forall i | i in s.pending || i in s.steered
      ensures Injected(i.hash) !in s.history
    {
      var k := UnusedMember(s.history, injected, if i in s.pending then false else true, i);
      if Injected(i.hash) in s.history {
        InjectedMember(s.history, i.hash);
      }
    }
  }

  lemma {:induction false} InjectedMember(history: seq<Record>, hash: string)
    requires Injected(hash) in history
    ensures hash in InjectedHashes(history)
  {
    var n := |history| - 1;
    assert history == history[..n] + [history[n]];
    if history[n] != Injected(hash) {
      InjectedMember(history[..n], hash);
    }
  }
}
