/**
 * User-selected external content: queued with provenance in the rollout, injected at the next turn within
 * a byte budget, and rebuilt from the rollout when the thread is reopened (runtime/session.py).
 */
module ExternalContext {
  import opened Messages

  datatype Item = Item(
    kind: string,
    server: string,
    source: string,
    mime: Option<string>,
    hash: string,
    size: nat,
    content: string,
    artifact: Option<string>)

  /** The rollout items this component writes and reads; everything else is `Other`. */
  datatype Record = Selected(item: Item, active: bool) | Injected(hash: string) | Other

  /** The digest of the serialized payload; distinct payloads have distinct digests. */
  function Digest(serialized: string): string { "sha256:" + serialized }

  function Cost(i: Item): nat { if i.artifact.Some? then Utf8Length(i.content) else i.size }

  datatype Limits = Limits(maxItem: nat, maxTurn: nat)

  /** What the session keeps in memory, everything it handed to running turns, and the rollout behind it. */
  datatype State = State(pending: seq<Item>, hashes: set<string>, steered: seq<Item>, history: seq<Record>)

  /** What the user chose, with the artifact an oversized payload is stored under. */
  datatype Choice = Choice(kind: string, server: string, source: string, serialized: string, mime: Option<string>, artifact: string, notice: string)

  function ItemOf(c: Choice, limits: Limits): Item {
    var size := Utf8Length(c.serialized);
    if size > limits.maxItem
      then Item(c.kind, c.server, c.source, c.mime, Digest(c.serialized), size, c.notice, Some(c.artifact))
      else Item(c.kind, c.server, c.source, c.mime, Digest(c.serialized), size, c.serialized, None)
  }

  function Select(s: State, c: Choice, active: bool, limits: Limits): State {
    var i := ItemOf(c, limits);
    if i.hash in s.hashes then s
    else State(if active then s.pending else s.pending + [i], s.hashes + {i.hash},
               if active then s.steered + [i] else s.steered, s.history + [Selected(i, active)])
  }

  // ----- Injection -----

  /** Which pending items fit, in order, when `total` bytes are already taken. */
  function Chosen(pending: seq<Item>, total: nat, limit: nat): (mask: seq<bool>)
    ensures |mask| == |pending|
  {
    if pending == [] then []
    else if total + Cost(pending[0]) > limit then [false] + Chosen(pending[1..], total, limit)
    else [true] + Chosen(pending[1..], total + Cost(pending[0]), limit)
  }

  /** The items at the marked positions, in order. */
  function Pick(items: seq<Item>, mask: seq<bool>, marked: bool): seq<Item>
    requires |items| == |mask|
  {
    if items == [] then []
    else (if mask[0] == marked then [items[0]] else []) + Pick(items[1..], mask[1..], marked)
  }

  function Injection(s: State, limits: Limits): seq<Item> { Pick(s.pending, Chosen(s.pending, 0, limits.maxTurn), true) }

  function Remaining(s: State, limits: Limits): seq<Item> { Pick(s.pending, Chosen(s.pending, 0, limits.maxTurn), false) }

  function Notes(items: seq<Item>): (r: seq<Record>)
    ensures |r| == |items| && forall k :: 0 <= k < |items| ==> r[k] == Injected(items[k].hash)
  {
    seq(|items|, k requires 0 <= k < |items| => Injected(items[k].hash))
  }

  function Inject(s: State, limits: Limits): State {
    s.(pending := Remaining(s, limits), history := s.history + Notes(Injection(s, limits)))
  }

  function TotalCost(items: seq<Item>): nat {
    if items == [] then 0 else Cost(items[0]) + TotalCost(items[1..])
  }

  // ----- Rebuilding -----

  predicate KnownKind(kind: string) { kind in {"mcp_resource", "mcp_prompt"} }

  /** What comes back of an item: an empty media type reads as none. */
  function Restored(i: Item): Item { i.(mime := if i.mime == Some("") then None else i.mime) }

  function InjectedHashes(history: seq<Record>): set<string> {
    if history == [] then {}
    else InjectedHashes(history[..|history| - 1])
         + if history[|history| - 1].Injected? then {history[|history| - 1].hash} else {}
  }

  function SelectedHashes(history: seq<Record>): set<string> {
    if history == [] then {}
    else SelectedHashes(history[..|history| - 1])
         + if history[|history| - 1].Selected? && history[|history| - 1].item.hash != "" then {history[|history| - 1].item.hash} else {}
  }

  /** The pending list that a reopened session builds. */
  function Rebuilt(history: seq<Record>, injected: set<string>): seq<Item> {
    if history == [] then []
    else
      var last := history[|history| - 1];
      Rebuilt(history[..|history| - 1], injected)
      + if last.Selected? && last.item.hash != "" && last.item.hash !in injected && KnownKind(last.item.kind)
        then [Restored(last.item)] else []
  }

  function Reopen(history: seq<Record>): State {
    State(Rebuilt(history, InjectedHashes(history)), SelectedHashes(history), [], history)
  }

  // ----- The session's own form -----

  /** The items injected, or left, from some point of the pending list on. */
  function Part(pending: seq<Item>, total: nat, limit: nat, marked: bool): seq<Item> {
    Pick(pending, Chosen(pending, total, limit), marked)
  }

  lemma PartFirst(pending: seq<Item>, total: nat, limit: nat, marked: bool, before: seq<Item>)
    requires pending != []
    ensures var fits := total + Cost(pending[0]) <= limit;
            var rest := Part(pending[1..], if fits then total + Cost(pending[0]) else total, limit, marked);
            before + Part(pending, total, limit, marked) == (if fits == marked then before + [pending[0]] else before) + rest
  {
    var fits := total + Cost(pending[0]) <= limit;
    var mask := Chosen(pending[1..], if fits then total + Cost(pending[0]) else total, limit);
    assert ([fits] + mask)[1..] == mask;
    Join(before, if fits == marked then [pending[0]] else [], Pick(pending[1..], mask, marked));
    assert before + [] == before;
  }

  lemma Join(a: seq<Item>, b: seq<Item>, c: seq<Item>)
    ensures (a + b) + c == a + (b + c)
  {
  }

  class Session {
    const limits: Limits
    var pending: seq<Item>
    var hashes: set<string>
    var steered: seq<Item>
    var history: seq<Record>

    function View(): State
      reads this
    {
      State(pending, hashes, steered, history)
    }

    constructor (limits: Limits)
      ensures this.limits == limits && View() == State([], {}, [], [])
    {
      this.limits := limits;
      pending, hashes, steered, history := [], {}, [], [];
    }

    /** None when the same payload was selected before. */
    method QueueExternalContext(c: Choice, active: bool) returns (item: Option<Item>)
      modifies this
      ensures View() == Select(old(View()), c, active, limits)
      ensures item == if Digest(c.serialized) in old(hashes) then None else Some(ItemOf(c, limits))
    {
      var digest := Digest(c.serialized);
      if digest in hashes {
        return None;
      }
      var i := ItemOf(c, limits);
      hashes := hashes + {digest};
      if active {
        steered := steered + [i];
      } else {
        pending := pending + [i];
      }
      history := history + [Selected(i, active)];
      return Some(i);
    }

    /** The injected items become user messages of the new turn, in order. */
    method InjectPending() returns (injected: seq<Item>)
      modifies this`pending, this`history
      ensures View() == Inject(old(View()), limits)
      ensures injected == Injection(old(View()), limits)
    {
      var total: nat, remaining, rest: seq<Item> := 0, [], pending;
      injected := [];
      ghost var taken, left := Injection(View(), limits), Remaining(View(), limits);
      assert [] + taken == taken && [] + left == left;
      while rest != []
        invariant pending == old(pending) && history == old(history)
        invariant injected + Part(rest, total, limits.maxTurn, true) == taken
        invariant remaining + Part(rest, total, limits.maxTurn, false) == left
        decreases |rest|
      {
        PartFirst(rest, total, limits.maxTurn, true, injected);
        PartFirst(rest, total, limits.maxTurn, false, remaining);
        var cost := Cost(rest[0]);
        if total + cost > limits.maxTurn {
          remaining := remaining + [rest[0]];
        } else {
          total := total + cost;
          injected := injected + [rest[0]];
        }
        rest := rest[1..];
      }
      assert Part(rest, total, limits.maxTurn, true) == [] && Part(rest, total, limits.maxTurn, false) == [];
      assert injected + [] == injected && remaining + [] == remaining;
      pending := remaining;
      history := history + Notes(injected);
    }

    /** Rebuilds a fresh session from the rollout. */
    method Restore(rollout: seq<Record>)
      requires pending == [] && hashes == {} && steered == []
      modifies this
      ensures View() == Reopen(rollout)
    {
      var injected: set<string> := {};
      for k := 0 to |rollout|
        invariant injected == InjectedHashes(rollout[..k])
      {
        assert rollout[..k + 1][..k] == rollout[..k];
        if rollout[k].Injected? {
          injected := injected + {rollout[k].hash};
        }
      }
      assert rollout[..|rollout|] == rollout;
      for k := 0 to |rollout|
        invariant pending == Rebuilt(rollout[..k], injected) && hashes == SelectedHashes(rollout[..k]) && steered == []
      {
        assert rollout[..k + 1][..k] == rollout[..k];
        var r := rollout[k];
        if r.Selected? && r.item.hash != "" {
          hashes := hashes + {r.item.hash};
          if r.item.hash !in injected && KnownKind(r.item.kind) {
            pending := pending + [Restored(r.item)];
          }
        }
      }
      history := rollout;
    }
  }

  // ----- Injection: a bounded, order-preserving split -----

  lemma CostFirst(i: Item, rest: seq<Item>)
    ensures TotalCost([i] + rest) == Cost(i) + TotalCost(rest)
  {
    assert ([i] + rest)[1..] == rest;
  }

  lemma {:induction false} ChosenCost(pending: seq<Item>, total: nat, limit: nat)
    requires total <= limit
    ensures total + TotalCost(Part(pending, total, limit, true)) <= limit
  {
    if pending != [] {
      PartStep(pending, total, limit);
      if total + Cost(pending[0]) > limit {
        ChosenCost(pending[1..], total, limit);
      } else {
        ChosenCost(pending[1..], total + Cost(pending[0]), limit);
        CostFirst(pending[0], Part(pending[1..], total + Cost(pending[0]), limit, true));
      }
    }
  }

  lemma PartStep(pending: seq<Item>, total: nat, limit: nat)
    requires pending != []
    ensures Part(pending, total, limit, true)
            == if total + Cost(pending[0]) > limit then Part(pending[1..], total, limit, true)
               else [pending[0]] + Part(pending[1..], total + Cost(pending[0]), limit, true)
  {
    PartFirst(pending, total, limit, true, []);
    assert [] + Part(pending, total, limit, true) == Part(pending, total, limit, true);
    assert [] + Part(pending[1..], total, limit, true) == Part(pending[1..], total, limit, true);
    assert [] + [pending[0]] == [pending[0]];
  }

  /** An item is taken exactly when it still fits behind the items taken before it. */
  lemma {:induction false} ChosenExactly(pending: seq<Item>, total: nat, limit: nat, k: nat)
    requires k < |pending|
    ensures Chosen(pending, total, limit)[k] <==> total + TotalCost(Part(pending[..k], total, limit, true)) + Cost(pending[k]) <= limit
  {
    if k > 0 {
      var more := if total + Cost(pending[0]) > limit then total else total + Cost(pending[0]);
      ChosenExactly(pending[1..], more, limit, k - 1);
      assert pending[..k][1..] == pending[1..][..k - 1];
      assert pending[..k][0] == pending[0];
      PartStep(pending[..k], total, limit);
      var before := Part(pending[1..][..k - 1], more, limit, true);
      CostFirst(pending[0], before);
      assert Chosen(pending, total, limit)[k] == Chosen(pending[1..], more, limit)[k - 1];
    }
  }

  /** `whole` is `a` and `b` merged, each in its own order: the order-preserving splits of `whole`. */
  predicate Interleaves(a: seq<Item>, b: seq<Item>, whole: seq<Item>) {
    if whole == [] then a == [] && b == []
    else
      || (a != [] && a[0] == whole[0] && Interleaves(a[1..], b, whole[1..]))
      || (b != [] && b[0] == whole[0] && Interleaves(a, b[1..], whole[1..]))
  }

  lemma {:induction false} PickSplits(items: seq<Item>, mask: seq<bool>)
    requires |items| == |mask|
    ensures Interleaves(Pick(items, mask, true), Pick(items, mask, false), items)
  {
    if items != [] {
      PickSplits(items[1..], mask[1..]);
      var taken, left := Pick(items[1..], mask[1..], true), Pick(items[1..], mask[1..], false);
      assert ([items[0]] + taken)[1..] == taken && ([items[0]] + left)[1..] == left;
      assert [] + taken == taken && [] + left == left;
    }
  }

  /** What one turn injects stays within the budget, and with what remains it splits what was pending, in order. */
  lemma InjectionIsBounded(s: State, limits: Limits)
    ensures TotalCost(Injection(s, limits)) <= limits.maxTurn
    ensures Interleaves(Injection(s, limits), Remaining(s, limits), s.pending)
  {
    ChosenCost(s.pending, 0, limits.maxTurn);
    PickSplits(s.pending, Chosen(s.pending, 0, limits.maxTurn));
  }

  /** An item larger than the turn budget is never injected: it stays pending, turn after turn. */
  lemma {:induction false} TooLargeStays(pending: seq<Item>, total: nat, limit: nat, i: Item)
    requires i in pending && Cost(i) > limit
    ensures i in Pick(pending, Chosen(pending, total, limit), false)
  {
    if pending[0] != i {
      var more := if total + Cost(pending[0]) > limit then total else total + Cost(pending[0]);
      TooLargeStays(pending[1..], more, limit, i);
    }
  }

  // ----- Rebuilding from the rollout -----

  datatype Event = Choose(choice: Choice, active: bool) | Turn

  function Step(s: State, e: Event, limits: Limits): State {
    match e
    case Choose(c, active) => Select(s, c, active, limits)
    case Turn => Inject(s, limits)
  }

  function Run(s: State, events: seq<Event>, limits: Limits): State {
    if events == [] then s else Step(Run(s, events[..|events| - 1], limits), events[|events| - 1], limits)
  }

  const EMPTY := State([], {}, [], [])

  /** The items chosen in one way and not injected, in rollout order. */
  function Unused(history: seq<Record>, injected: set<string>, active: bool): seq<Item> {
    if history == [] then []
    else
      var last := history[|history| - 1];
      Unused(history[..|history| - 1], injected, active)
      + if last.Selected? && last.active == active && last.item.hash !in injected then [last.item] else []
  }

  predicate DistinctHistory(history: seq<Record>) {
    forall i, j :: 0 <= i < j < |history| && history[i].Selected? && history[j].Selected? ==> history[i].item.hash != history[j].item.hash
  }

  /** The rollout tells the live state, and who was steered into a running turn. */
  predicate Told(s: State) {
    && s.hashes == SelectedHashes(s.history)
    && DistinctHistory(s.history)
    && (forall k :: 0 <= k < |s.history| && s.history[k].Selected? ==> s.history[k].item.hash != "")
    && s.pending == Unused(s.history, InjectedHashes(s.history), false)
    && s.steered == Unused(s.history, InjectedHashes(s.history), true)
    && InjectedHashes(s.history) <= SelectedHashes(s.history)
  }

  lemma {:induction false} HashSelected(history: seq<Record>, k: nat)
    requires k < |history| && history[k].Selected? && history[k].item.hash != ""
    ensures history[k].item.hash in SelectedHashes(history)
  {
    if k < |history| - 1 {
      HashSelected(history[..|history| - 1], k);
    }
  }

  lemma {:induction false} UnusedMember(history: seq<Record>, injected: set<string>, active: bool, i: Item) returns (k: nat)
    requires i in Unused(history, injected, active)
    ensures k < |history| && history[k] == Selected(i, active) && i.hash !in injected
  {
    var n := |history| - 1;
    if history[n] == Selected(i, active) && i.hash !in injected {
      k := n;
    } else {
      k := UnusedMember(history[..n], injected, active, i);
    }
  }

  lemma SelectTold(s: State, c: Choice, active: bool, limits: Limits)
    requires Told(s)
    ensures Told(Select(s, c, active, limits))
  {
    var i := ItemOf(c, limits);
    if i.hash !in s.hashes {
      var h := s.history + [Selected(i, active)];
      assert h[..|h| - 1] == s.history;
      assert InjectedHashes(h) == InjectedHashes(s.history);
      forall k | 0 <= k < |s.history| && s.history[k].Selected?
        ensures s.history[k].item.hash != i.hash
      {
        HashSelected(s.history, k);
      }
    }
  }

  function HashSet(items: seq<Item>): set<string> {
    if items == [] then {} else {items[0].hash} + HashSet(items[1..])
  }

  lemma {:induction false} HashSetMember(items: seq<Item>, i: Item)
    requires i in items
    ensures i.hash in HashSet(items)
  {
    if items[0] != i {
      HashSetMember(items[1..], i);
    }
  }

  lemma {:induction false} HashSetAppend(items: seq<Item>, i: Item)
    ensures HashSet(items + [i]) == HashSet(items) + {i.hash}
  {
    if items == [] {
      assert items + [i] == [i];
    } else {
      assert (items + [i])[1..] == items[1..] + [i];
      HashSetAppend(items[1..], i);
    }
  }

  lemma NotesLast(history: seq<Record>, items: seq<Item>)
    requires items != []
    ensures var all, n := history + Notes(items), |items| - 1;
            all[..|all| - 1] == history + Notes(items[..n]) && all[|all| - 1] == Injected(items[n].hash)
  {
  }

  lemma {:induction false} NotesHashes(history: seq<Record>, items: seq<Item>)
    ensures InjectedHashes(history + Notes(items)) == InjectedHashes(history) + HashSet(items)
    ensures SelectedHashes(history + Notes(items)) == SelectedHashes(history)
  {
    if items == [] {
      assert history + Notes(items) == history;
    } else {
      var n := |items| - 1;
      NotesHashes(history, items[..n]);
      NotesLast(history, items);
      HashSetAppend(items[..n], items[n]);
      assert items == items[..n] + [items[n]];
    }
  }

  lemma {:induction false} NotesUnused(history: seq<Record>, items: seq<Item>, active: bool, injected: set<string>)
    ensures Unused(history + Notes(items), injected, active) == Unused(history, injected, active)
  {
    if items == [] {
      assert history + Notes(items) == history;
    } else {
      NotesUnused(history, items[..|items| - 1], active, injected);
      NotesLast(history, items);
    }
  }

  /** The items whose hash is not in the set. */
  function Without(items: seq<Item>, hashes: set<string>): seq<Item> {
    if items == [] then []
    else Without(items[..|items| - 1], hashes) + if items[|items| - 1].hash in hashes then [] else [items[|items| - 1]]
  }

  lemma {:induction false} UnusedWithout(history: seq<Record>, injected: set<string>, more: set<string>, active: bool)
    ensures Unused(history, injected + more, active) == Without(Unused(history, injected, active), more)
  {
    if history != [] {
      var n := |history| - 1;
      UnusedWithout(history[..n], injected, more, active);
      var before, now := Unused(history[..n], injected, active), Unused(history, injected, active);
      if now != before {
        assert now[..|now| - 1] == before;
      }
    }
  }

  predicate DistinctHashes(items: seq<Item>) {
    forall i, j :: 0 <= i < j < |items| ==> items[i].hash != items[j].hash
  }

  lemma {:induction false} WithoutFront(items: seq<Item>, hashes: set<string>)
    requires items != []
    ensures Without(items, hashes) == (if items[0].hash in hashes then [] else [items[0]]) + Without(items[1..], hashes)
  {
    if |items| > 1 {
      var n := |items| - 1;
      WithoutFront(items[..n], hashes);
      assert items[..n][1..] == items[1..][..n - 1];
    } else {
      assert items[..0] == [] && items[1..] == [];
    }
  }

  lemma {:induction false} WithoutOther(items: seq<Item>, hashes: set<string>, h: string)
    requires forall i :: i in items ==> i.hash != h
    ensures Without(items, hashes + {h}) == Without(items, hashes)
  {
    if items != [] {
      assert items[|items| - 1] in items;
      WithoutOther(items[..|items| - 1], hashes, h);
    }
  }

  lemma {:induction false} PickWithout(items: seq<Item>, mask: seq<bool>)
    requires |items| == |mask| && DistinctHashes(items)
    ensures Without(items, HashSet(Pick(items, mask, true))) == Pick(items, mask, false)
  {
    if items != [] {
      var rest, taken := items[1..], Pick(items[1..], mask[1..], true);
      PickWithout(rest, mask[1..]);
      forall i | i in rest
        ensures i.hash != items[0].hash
      {
      }
      WithoutFront(items, HashSet(Pick(items, mask, true)));
      PickMembers(rest, mask[1..], true);
      HashesFromItems(taken, items[0].hash);
      if !mask[0] {
        assert Pick(items, mask, true) == taken;
      } else {
        assert ([items[0]] + taken)[1..] == taken;
        WithoutOther(rest, HashSet(taken), items[0].hash);
        assert {items[0].hash} + HashSet(taken) == HashSet(taken) + {items[0].hash};
      }
    }
  }

  lemma {:induction false} PickMembers(items: seq<Item>, mask: seq<bool>, marked: bool)
    requires |items| == |mask|
    ensures forall i :: i in Pick(items, mask, marked) ==> i in items
  {
    if items != [] {
      PickMembers(items[1..], mask[1..], marked);
    }
  }

  lemma {:induction false} HashesFromItems(items: seq<Item>, h: string)
    requires forall i :: i in items ==> i.hash != h
    ensures h !in HashSet(items)
  {
    if items != [] {
      HashesFromItems(items[1..], h);
    }
  }

  lemma {:induction false} UnusedDistinct(history: seq<Record>, injected: set<string>, active: bool)
    requires DistinctHistory(history)
    ensures DistinctHashes(Unused(history, injected, active))
  {
    if history != [] {
      var n := |history| - 1;
      UnusedDistinct(history[..n], injected, active);
      forall i | i in Unused(history[..n], injected, active)
        ensures history[n].Selected? ==> i.hash != history[n].item.hash
      {
        var k := UnusedMember(history[..n], injected, active, i);
        assert history[k] == history[..n][k];
      }
    }
  }

  /** Steered and idle selections never share a hash, so injecting idle ones leaves the steered as they are. */
  lemma {:induction false} OthersUnused(history: seq<Record>, injected: set<string>, items: seq<Item>)
    requires DistinctHistory(history) && forall i :: i in items ==> i in Unused(history, injected, false)
    ensures Without(Unused(history, injected, true), HashSet(items)) == Unused(history, injected, true)
  {
    forall i | i in Unused(history, injected, true)
      ensures i.hash !in HashSet(items)
    {
      var k := UnusedMember(history, injected, true, i);
      forall j | j in items
        ensures j.hash != i.hash
      {
        var l := UnusedMember(history, injected, false, j);
      }
      HashesFromItems(items, i.hash);
    }
    WithoutNone(Unused(history, injected, true), HashSet(items));
  }

  lemma {:induction false} WithoutNone(items: seq<Item>, hashes: set<string>)
    requires forall i :: i in items ==> i.hash !in hashes
    ensures Without(items, hashes) == items
  {
    if items != [] {
      var n := |items| - 1;
      assert items[n] in items && forall i :: i in items[..n] ==> i in items;
      WithoutNone(items[..n], hashes);
      assert items[..n] + [items[n]] == items;
    }
  }

  lemma {:induction false} HashSetSelected(history: seq<Record>, items: seq<Item>)
    requires forall i :: i in items ==> i.hash in SelectedHashes(history)
    ensures HashSet(items) <= SelectedHashes(history)
  {
    if items != [] {
      assert items[0] in items;
      HashSetSelected(history, items[1..]);
    }
  }

  lemma InjectTold(s: State, limits: Limits)
    requires Told(s)
    ensures Told(Inject(s, limits))
  {
    var h, injected := s.history, InjectedHashes(s.history);
    var mask := Chosen(s.pending, 0, limits.maxTurn);
    var taken := Injection(s, limits);
    PickMembers(s.pending, mask, true);
    UnusedDistinct(h, injected, false);
    PickWithout(s.pending, mask);
    UnusedWithout(h, injected, HashSet(taken), false);
    UnusedWithout(h, injected, HashSet(taken), true);
    OthersUnused(h, injected, taken);
    NotesHashes(h, taken);
    NotesUnused(h, taken, false, injected + HashSet(taken));
    NotesUnused(h, taken, true, injected + HashSet(taken));
    forall i | i in taken
      ensures i.hash in SelectedHashes(h)
    {
      var k := UnusedMember(h, injected, false, i);
      HashSelected(h, k);
    }
    HashSetSelected(h, taken);
    InjectKeeps(s, limits);
  }

  lemma InjectKeeps(s: State, limits: Limits)
    requires DistinctHistory(s.history) && forall k :: 0 <= k < |s.history| && s.history[k].Selected? ==> s.history[k].item.hash != ""
    ensures var h := Inject(s, limits).history;
            DistinctHistory(h) && forall k :: 0 <= k < |h| && h[k].Selected? ==> h[k].item.hash != ""
  {
    var notes := Notes(Injection(s, limits));
    var h := s.history + notes;
    assert forall k :: |s.history| <= k < |h| ==> h[k] == notes[k - |s.history|];
  }

  lemma {:induction false} RunTold(events: seq<Event>, limits: Limits)
    ensures Told(Run(EMPTY, events, limits))
  {
    if events != [] {
      var n := |events| - 1;
      RunTold(events[..n], limits);
      match events[n]
      case Choose(c, active) => SelectTold(Run(EMPTY, events[..n], limits), c, active, limits);
      case Turn => InjectTold(Run(EMPTY, events[..n], limits), limits);
    }
  }

  // ----- What a reopened session shares with the lost one -----

  predicate ComesBack(i: Item) { KnownKind(i.kind) && i.mime != Some("") }

  /** The condition a caller can check: nothing of a known kind was steered into a running turn, and what is pending is of a known kind. */
  predicate Replayable(s: State) {
    && (forall i :: i in s.steered ==> !KnownKind(i.kind))
    && (forall i :: i in s.pending ==> ComesBack(i))
  }

  lemma {:induction false} RebuiltIsPending(history: seq<Record>, injected: set<string>)
    requires forall k :: 0 <= k < |history| && history[k].Selected? ==> history[k].item.hash != ""
    requires forall i :: i in Unused(history, injected, true) ==> !KnownKind(i.kind)
    requires forall i :: i in Unused(history, injected, false) ==> ComesBack(i)
    ensures Rebuilt(history, injected) == Unused(history, injected, false)
  {
    if history != [] {
      var n := |history| - 1;
      var last := history[n];
      assert forall a :: Unused(history[..n], injected, a) <= Unused(history, injected, a);
      RebuiltIsPending(history[..n], injected);
      if last.Selected? && last.item.hash !in injected {
        assert last.item in Unused(history, injected, last.active);
      }
    }
  }

  lemma {:induction false} RebuiltComesBack(history: seq<Record>, injected: set<string>, i: Item)
    requires i in Rebuilt(history, injected)
    ensures ComesBack(i)
  {
    var n := |history| - 1;
    if i in Rebuilt(history[..n], injected) {
      RebuiltComesBack(history[..n], injected, i);
    }
  }

  lemma {:induction false} RebuiltContains(history: seq<Record>, injected: set<string>, k: nat)
    requires k < |history| && history[k].Selected? && history[k].item.hash != ""
    requires history[k].item.hash !in injected && KnownKind(history[k].item.kind)
    ensures Restored(history[k].item) in Rebuilt(history, injected)
  {
    if k < |history| - 1 {
      RebuiltContains(history[..|history| - 1], injected, k);
    }
  }

  /**
   * External context is event-sourced. Over any run of selections and turns, reopening rebuilds the same
   * set of seen payloads, and it rebuilds the same pending list, content and order, exactly when the
   * pending items are of a known kind with no empty media type, and no item of a known kind was selected
   * while a turn was running (such an item comes back as pending although the running turn has had it).
   */
  lemma ReopenRebuilds(events: seq<Event>, limits: Limits)
    ensures var s := Run(EMPTY, events, limits); var r := Reopen(s.history);
            && r.hashes == s.hashes
            && (r.pending == s.pending <==> Replayable(s))
  {
    RunTold(events, limits);
    var s := Run(EMPTY, events, limits);
    var injected := InjectedHashes(s.history);
    if Replayable(s) {
      RebuiltIsPending(s.history, injected);
    } else if exists i :: i in s.pending && !ComesBack(i) {
      var i :| i in s.pending && !ComesBack(i);
      if i in Rebuilt(s.history, injected) {
        RebuiltComesBack(s.history, injected, i);
      }
    } else {
      var i :| i in s.steered && KnownKind(i.kind);
      SteeredReappears(s, i);
    }
  }

  lemma SteeredReappears(s: State, i: Item)
    requires Told(s) && i in s.steered && KnownKind(i.kind)
    ensures Restored(i) in Reopen(s.history).pending && Restored(i) !in s.pending
  {
    var injected := InjectedHashes(s.history);
    var k := UnusedMember(s.history, injected, true, i);
    RebuiltContains(s.history, injected, k);
    if Restored(i) in s.pending {
      var l := UnusedMember(s.history, injected, false, Restored(i));
    }
  }
}
