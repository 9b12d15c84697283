/**
 * What a compaction says and what it leaves, without the functions that compute it: which messages go, what the
 * summary reads, when there is anything to do, and what a reapplied record may change.
 */
module CompactionContents {
  import opened Messages
  import opened RunStates
  import opened Compaction

  /** A user message of the conversation itself; external context is none. */
  predicate OpensTurn(m: Message) {
    m.role == "user" && !("external_context" in m.metadata && Truthy(m.metadata["external_context"]))
  }

  predicate ToolTraffic(m: Message) { m.toolCalls != [] || m.role == "tool" }

  /** The positions from `b` on at which a turn opens. */
  function TurnsFrom(ms: seq<Message>, b: nat): set<nat> { set k: nat | b <= k < |ms| && OpensTurn(ms[k]) }

  /** Tool traffic and the rest, each in its own order. */
  predicate Divided(past: seq<Message>, kept: seq<Message>, dropped: seq<Message>) {
    if past == [] then kept == [] && dropped == []
    else if ToolTraffic(past[0]) then kept != [] && kept[0] == past[0] && Divided(past[1..], kept[1..], dropped)
    else dropped != [] && dropped[0] == past[0] && Divided(past[1..], kept, dropped[1..])
  }

  /** The transcript of some messages: one line for each, its role in front. */
  predicate Says(ms: seq<Message>, text: string) {
    if ms == [] then text == ""
    else if |ms| == 1 then text == ms[0].role + ": " + ms[0].content
    else
      var line := ms[0].role + ": " + ms[0].content + "\n";
      line <= text && Says(ms[1..], text[|line|..])
  }

  /** Where the retained turns begin: at the last so many of them, or at the first of all when none is to be retained. */
  predicate Retains(ms: seq<Message>, b: nat, retain: nat) {
    && b < |ms| && OpensTurn(ms[b]) && |TurnsFrom(ms, 0)| > retain
    && |TurnsFrom(ms, b)| == if retain == 0 then |TurnsFrom(ms, 0)| else retain
  }

  predicate NamesOf(ids: seq<string>, ms: seq<Message>) {
    |ids| == |ms| && forall k :: 0 <= k < |ms| ==> ids[k] == ms[k].messageId
  }

  // ----- Turns -----

  lemma TurnsMore(ms: seq<Message>, n: nat)
    requires |ms| == n + 1
    ensures |TurnsFrom(ms, 0)| == |TurnsFrom(ms[..n], 0)| + if OpensTurn(ms[n]) then 1 else 0
  {
    var before, after := TurnsFrom(ms[..n], 0), TurnsFrom(ms, 0);
    assert n !in before;
    if OpensTurn(ms[n]) {
      assert after == before + {n};
    } else {
      assert after == before;
    }
  }

  lemma {:induction false} StartsAreTurns(ms: seq<Message>)
    ensures |TurnStarts(ms)| == |TurnsFrom(ms, 0)|
  {
    if ms == [] {
      assert TurnsFrom(ms, 0) == {};
    } else {
      StartsAreTurns(ms[..|ms| - 1]);
      TurnsMore(ms, |ms| - 1);
    }
  }

  lemma {:induction false} TurnsFromLater(ms: seq<Message>, b: nat)
    requires b <= |ms|
    ensures |TurnsFrom(ms, b)| == |TurnStarts(ms[b..])|
    decreases |ms| - b
  {
    if b == |ms| {
      assert TurnsFrom(ms, b) == {};
    } else {
      TurnsFromLater(ms, b + 1);
      var rest := TurnsFrom(ms, b + 1);
      assert b !in rest;
      assert TurnsFrom(ms, b) == rest + if OpensTurn(ms[b]) then {b} else {};
      TurnStartsAppend(ms[b..], 1);
      assert ms[b..][..1] == [ms[b]] && ms[b..][1..] == ms[b + 1..];
      assert TurnStarts([ms[b]][..0]) == [];
    }
  }

  lemma BoundaryRetains(ms: seq<Message>, retain: nat)
    ensures Boundary(ms, retain).None? <==> |TurnsFrom(ms, 0)| <= retain
    ensures Boundary(ms, retain).Some? ==> Retains(ms, Boundary(ms, retain).value, retain)
  {
    StartsAreTurns(ms);
    if Boundary(ms, retain).Some? {
      RetainedTurns(ms, retain);
      TurnsFromLater(ms, Boundary(ms, retain).value);
    }
  }

  /** There is one such place at most. */
  lemma RetainsOnce(ms: seq<Message>, b: nat, c: nat, retain: nat)
    requires Retains(ms, b, retain) && Retains(ms, c, retain)
    ensures b == c
  {
    if b < c {
      assert TurnsFrom(ms, c) <= TurnsFrom(ms, b) - {b};
      Fewer(TurnsFrom(ms, c), TurnsFrom(ms, b) - {b});
    } else if c < b {
      assert TurnsFrom(ms, b) <= TurnsFrom(ms, c) - {c};
      Fewer(TurnsFrom(ms, b), TurnsFrom(ms, c) - {c});
    }
  }

  lemma Fewer(a: set<nat>, b: set<nat>)
    requires a <= b
    ensures |a| <= |b|
  {
    assert b == a + (b - a);
  }

  // ----- What goes and what stays -----

  lemma DividedFirst(m: Message, past: seq<Message>, kept: seq<Message>, dropped: seq<Message>)
    requires Divided(past, kept, dropped)
    ensures ToolTraffic(m) ==> Divided([m] + past, [m] + kept, dropped)
    ensures !ToolTraffic(m) ==> Divided([m] + past, kept, [m] + dropped)
  {
    assert ([m] + past)[1..] == past && ([m] + kept)[1..] == kept && ([m] + dropped)[1..] == dropped;
  }

  lemma Between(m: Message, ms: seq<Message>, last: Message)
    ensures ([m] + ms) + [last] == [m] + (ms + [last])
    ensures ms + [] == ms && ([m] + ms) + [] == [m] + ms
  {
  }

  lemma {:induction false} ProtectedFirst(m: Message, ms: seq<Message>)
    ensures Protected([m] + ms) == if ToolTraffic(m) then [m] + Protected(ms) else Protected(ms)
    ensures Compactable([m] + ms) == if ToolTraffic(m) then Compactable(ms) else [m] + Compactable(ms)
  {
    if ms == [] {
      assert [m] + ms == [m] && [m][..0] == [];
    } else {
      var front, last := ms[..|ms| - 1], ms[|ms| - 1];
      assert ([m] + ms)[..|ms|] == [m] + front && ([m] + ms)[|ms|] == last;
      ProtectedFirst(m, front);
      Between(m, Protected(front), last);
      Between(m, Compactable(front), last);
    }
  }

  lemma {:induction false} DividesIn(past: seq<Message>)
    ensures Divided(past, Protected(past), Compactable(past))
  {
    if past != [] {
      DividesIn(past[1..]);
      assert past == [past[0]] + past[1..];
      ProtectedFirst(past[0], past[1..]);
      DividedFirst(past[0], past[1..], Protected(past[1..]), Compactable(past[1..]));
    }
  }

  lemma {:induction false} DividedSome(past: seq<Message>, kept: seq<Message>, dropped: seq<Message>)
    requires Divided(past, kept, dropped)
    ensures dropped == [] <==> forall k :: 0 <= k < |past| ==> ToolTraffic(past[k])
  {
    if past != [] && ToolTraffic(past[0]) {
      DividedSome(past[1..], kept[1..], dropped);
      assert forall k :: 1 <= k < |past| ==> past[k] == past[1..][k - 1];
    }
  }

  lemma Regroup(a: string, b: string, c: string)
    ensures a + (b + c) == (a + b) + c
  {
  }

  function LineFirst(m: Message): string { m.role + ": " + m.content + "\n" }

  function LineLast(m: Message): string { "\n" + Line(m) }

  lemma SourceLast(ms: seq<Message>, m: Message)
    requires ms != []
    ensures Source(ms + [m]) == Source(ms) + LineLast(m)
  {
    assert (ms + [m])[..|ms|] == ms;
    Regroup(Source(ms), "\n", Line(m));
  }

  lemma {:induction false} SourceFirst(m: Message, ms: seq<Message>)
    requires ms != []
    ensures Source([m] + ms) == LineFirst(m) + Source(ms)
  {
    var n := |ms| - 1;
    var front, last := ms[..n], ms[n];
    assert [m] + ms == ([m] + front) + [last];
    SourceLast([m] + front, last);
    if n == 0 {
      assert [m] + front == [m];
      Regroup(Line(m), "\n", Line(last));
    } else {
      SourceFirst(m, front);
      assert ms == front + [last];
      SourceLast(front, last);
      Regroup(LineFirst(m), Source(front), LineLast(last));
    }
  }

  lemma {:induction false} SourceSays(ms: seq<Message>)
    ensures Says(ms, Source(ms))
  {
    if |ms| > 1 {
      SourceSays(ms[1..]);
      SourceFirst(ms[0], ms[1..]);
      assert ms == [ms[0]] + ms[1..];
      var line := LineFirst(ms[0]);
      assert Source(ms)[|line|..] == Source(ms[1..]);
    }
  }

  // ----- The main results -----

  /**
   * What a compaction does, for every state: the tool traffic of the old turns stays, in order, in front of the
   * retained turns; everything else of them becomes a transcript, of which the summary is the longest beginning
   * within the limit; nothing else of the state changes, and the record says the same.
   */
  lemma CompactionIs(s: RunState, retain: nat, limit: nat)
      returns (b: nat, kept: seq<Message>, dropped: seq<Message>, text: string, summary: string)
    requires CompactState(s, retain, limit).Some?
    ensures Retains(s.messages, b, retain) && Divided(s.messages[..b], kept, dropped) && Says(dropped, text)
    ensures summary <= text && |summary| == if |text| < limit then |text| else limit
    ensures var c := CompactState(s, retain, limit).value;
            && c.state == s.(summary := summary, messages := kept + s.messages[b..])
            && c.record.runId == s.runId && c.record.turnId == s.turnId && c.record.source == text
            && c.record.summary == c.record.digest == summary && NamesOf(c.record.protectedIds, kept)
  {
    b := CompactedSelection(s, retain, limit);
    var past := s.messages[..b];
    kept, dropped, text := Protected(past), Compactable(past), Source(Compactable(past));
    summary := Cut(text, limit);
    BoundaryRetains(s.messages, retain);
    DividesIn(past);
    SourceSays(dropped);
  }

  /** Something is compacted exactly when the turn is completed and an ordinary message lies before the retained turns. */
  lemma CompactsExactlyWhen(s: RunState, retain: nat, limit: nat)
    ensures CompactState(s, retain, limit).Some? <==>
            && s.status == Completed && s.turnId != ""
            && exists b, k :: Retains(s.messages, b, retain) && 0 <= k < b && !ToolTraffic(s.messages[k])
  {
    var ms := s.messages;
    BoundaryRetains(ms, retain);
    if Boundary(ms, retain).Some? {
      var b := Boundary(ms, retain).value;
      DividesIn(ms[..b]);
      DividedSome(ms[..b], Protected(ms[..b]), Compactable(ms[..b]));
      if Compactable(ms[..b]) != [] {
        var k :| 0 <= k < b && !ToolTraffic(ms[..b][k]);
        assert Retains(ms, b, retain) && !ToolTraffic(ms[k]);
      }
      if exists c, k :: Retains(ms, c, retain) && 0 <= k < c && !ToolTraffic(ms[k]) {
        var c, k :| Retains(ms, c, retain) && 0 <= k < c && !ToolTraffic(ms[k]);
        RetainsOnce(ms, b, c, retain);
        assert !ToolTraffic(ms[..b][k]);
      }
    }
  }

  /** The last record of the run, and no later one. */
  predicate NewestAt(records: seq<Record>, runId: string, k: nat) {
    k < |records| && records[k].runId == runId && forall j :: k < j < |records| ==> records[j].runId != runId
  }

  lemma {:induction false} NewestIs(records: seq<Record>, runId: string)
    ensures Newest(records, runId) == None <==> forall k :: 0 <= k < |records| ==> records[k].runId != runId
    ensures forall k: nat :: NewestAt(records, runId, k) ==> Newest(records, runId) == Some(records[k])
  {
    if records != [] {
      var n := |records| - 1;
      NewestIs(records[..n], runId);
      forall k: nat | NewestAt(records, runId, k)
        ensures Newest(records, runId) == Some(records[k])
      {
        if k < n {
          assert records[n].runId != runId;
          assert NewestAt(records[..n], runId, k);
        }
      }
    }
  }

  /** The record is intact and was made from the very messages of this state that it replaces. */
  predicate Belongs(s: RunState, r: Record, retain: nat, b: nat, kept: seq<Message>, dropped: seq<Message>) {
    && r.summary == r.digest
    && Retains(s.messages, b, retain) && Divided(s.messages[..b], kept, dropped)
    && Says(dropped, r.source) && NamesOf(r.protectedIds, kept)
  }

  lemma {:induction false} DividedOnce(past: seq<Message>, a: seq<Message>, b: seq<Message>, c: seq<Message>, d: seq<Message>)
    requires Divided(past, a, b) && Divided(past, c, d)
    ensures a == c && b == d
  {
    if past != [] {
      if ToolTraffic(past[0]) {
        DividedOnce(past[1..], a[1..], b, c[1..], d);
        assert a == [a[0]] + a[1..] && c == [c[0]] + c[1..];
      } else {
        DividedOnce(past[1..], a, b[1..], c, d[1..]);
        assert b == [b[0]] + b[1..] && d == [d[0]] + d[1..];
      }
    }
  }

  lemma {:induction false} SaysOnce(ms: seq<Message>, a: string, b: string)
    requires Says(ms, a) && Says(ms, b)
    ensures a == b
  {
    if |ms| > 1 {
      var line := ms[0].role + ": " + ms[0].content + "\n";
      SaysOnce(ms[1..], a[|line|..], b[|line|..]);
      assert a == line + a[|line|..] && b == line + b[|line|..];
    }
  }

  /** A record that belongs to the state is taken. */
  lemma BelongsTaken(s: RunState, r: Record, retain: nat, b: nat, kept: seq<Message>, dropped: seq<Message>)
    requires Belongs(s, r, retain, b, kept, dropped)
    ensures Boundary(s.messages, retain) == Some(b) && kept == Protected(s.messages[..b])
    ensures Source(Compactable(s.messages[..b])) == r.source && Ids(Protected(s.messages[..b])) == r.protectedIds
  {
    var past := s.messages[..b];
    BoundaryRetains(s.messages, retain);
    RetainsOnce(s.messages, b, Boundary(s.messages, retain).value, retain);
    DividesIn(past);
    DividedOnce(past, kept, dropped, Protected(past), Compactable(past));
    SourceSays(dropped);
    SaysOnce(dropped, r.source, Source(dropped));
    assert Ids(kept) == r.protectedIds;
  }

  /** A record that is taken belongs to the state. */
  lemma TakenBelongs(s: RunState, r: Record, retain: nat) returns (b: nat, kept: seq<Message>, dropped: seq<Message>)
    requires r.summary == r.digest && Boundary(s.messages, retain).Some?
    requires var past := s.messages[..Boundary(s.messages, retain).value];
             Source(Compactable(past)) == r.source && Ids(Protected(past)) == r.protectedIds
    ensures Belongs(s, r, retain, b, kept, dropped) && b == Boundary(s.messages, retain).value && kept == Protected(s.messages[..b])
  {
    BoundaryRetains(s.messages, retain);
    b := Boundary(s.messages, retain).value;
    kept, dropped := Protected(s.messages[..b]), Compactable(s.messages[..b]);
    DividesIn(s.messages[..b]);
    SourceSays(dropped);
  }

  predicate Carries(s: RunState, r: Record) { s.summary != "" && s.summary == r.summary }

  /**
   * Reapplying, for every store of records: without a record of the run it does nothing; otherwise it succeeds exactly
   * when the newest record is intact and either the state carries its summary already, which then stays as it is, or
   * the record was made from the very messages it replaces, and then it compacts them.
   */
  lemma ReapplyIs(s: RunState, records: seq<Record>, retain: nat, k: nat)
    requires NewestAt(records, s.runId, k)
    ensures Reapply(s, records, retain).Applied? <==>
            && records[k].summary == records[k].digest
            && (Carries(s, records[k]) || exists b: nat, kept, dropped :: Belongs(s, records[k], retain, b, kept, dropped))
    ensures Reapply(s, records, retain).Applied? && Carries(s, records[k]) ==> Reapply(s, records, retain).state == s
    ensures forall b: nat, kept: seq<Message>, dropped: seq<Message> :: Belongs(s, records[k], retain, b, kept, dropped) && !Carries(s, records[k]) ==>
              Reapply(s, records, retain) == Applied(s.(summary := records[k].summary, messages := kept + s.messages[b..]))
  {
    NewestIs(records, s.runId);
    var r := records[k];
    assert Newest(records, s.runId) == Some(r);
    forall b: nat, kept: seq<Message>, dropped: seq<Message> | Belongs(s, r, retain, b, kept, dropped) && !Carries(s, r)
      ensures Reapply(s, records, retain) == Applied(s.(summary := r.summary, messages := kept + s.messages[b..]))
    {
      BelongsTaken(s, r, retain, b, kept, dropped);
    }
    if Reapply(s, records, retain).Applied? && !Carries(s, r) {
      var b, kept, dropped := TakenBelongs(s, r, retain);
    }
  }

  /** Without a record of the run nothing is reapplied. */
  lemma NothingToReapply(s: RunState, records: seq<Record>, retain: nat)
    requires forall k :: 0 <= k < |records| ==> records[k].runId != s.runId
    ensures Reapply(s, records, retain) == Applied(s)
  {
    NewestIs(records, s.runId);
  }
}
