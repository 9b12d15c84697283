/**
 * Idle-time compaction and its reapplication after a restart (compaction/service.py). Text stands for
 * its own hash: two texts have equal hashes exactly when they are equal.
 */
module Compaction {
  import opened Messages
  import opened RunStates
  import opened AgentLoop

  /** `source` and `digest` stand for the hashes of the compacted text and of the summary. */
  datatype Record = Record(runId: string, turnId: string, source: string, summary: string, digest: string, protectedIds: seq<string>)

  // ----- Selecting -----

  predicate IsTurn(m: Message) { m.role == "user" && !IsExternal(m) }

  predicate IsProtected(m: Message) { m.toolCalls != [] || m.role == "tool" }

  /** Positions of the user messages that open a turn. */
  function TurnStarts(ms: seq<Message>): (r: seq<nat>)
    ensures forall k :: 0 <= k < |r| ==> r[k] < |ms| && IsTurn(ms[r[k]])
  {
    if ms == [] then []
    else TurnStarts(ms[..|ms| - 1]) + if IsTurn(ms[|ms| - 1]) then [|ms| - 1] else []
  }

  /** Where the retained turns begin. Retaining none starts at the first turn, since -0 is 0. */
  function Boundary(ms: seq<Message>, retain: nat): (b: Option<nat>)
    ensures b.Some? ==> b.value < |ms|
  {
    var starts := TurnStarts(ms);
    if |starts| <= retain then None else Some(starts[if retain == 0 then 0 else |starts| - retain])
  }

  function Protected(ms: seq<Message>): seq<Message> {
    if ms == [] then []
    else Protected(ms[..|ms| - 1]) + if IsProtected(ms[|ms| - 1]) then [ms[|ms| - 1]] else []
  }

  function Compactable(ms: seq<Message>): seq<Message> {
    if ms == [] then []
    else Compactable(ms[..|ms| - 1]) + if IsProtected(ms[|ms| - 1]) then [] else [ms[|ms| - 1]]
  }

  function Line(m: Message): string { m.role + ": " + m.content }

  function Source(ms: seq<Message>): string {
    if ms == [] then ""
    else if |ms| == 1 then Line(ms[0])
    else Source(ms[..|ms| - 1]) + "\n" + Line(ms[|ms| - 1])
  }

  function Ids(ms: seq<Message>): seq<string> {
    seq(|ms|, k requires 0 <= k < |ms| => ms[k].messageId)
  }

  function Cut(s: string, n: nat): string { if n <= |s| then s[..n] else s }

  /** What compaction leaves of a history. */
  function Kept(ms: seq<Message>, boundary: nat): seq<Message>
    requires boundary <= |ms|
  {
    Protected(ms[..boundary]) + ms[boundary..]
  }

  datatype Compacted = Compacted(state: RunState, record: Record)

  function CompactState(s: RunState, retain: nat, limit: nat): Option<Compacted> {
    if s.status != Completed || s.turnId == "" then None
    else match Boundary(s.messages, retain) {
      case None => None
      case Some(b) =>
        var past := s.messages[..b];
        if Compactable(past) == [] then None
        else
          var source := Source(Compactable(past));
          Some(Compacted(s.(summary := Cut(source, limit), messages := Kept(s.messages, b)),
                         Record(s.runId, s.turnId, source, Cut(source, limit), Cut(source, limit), Ids(Protected(past)))))
    }
  }

  /** The newest record of a run. */
  function Newest(records: seq<Record>, runId: string): Option<Record> {
    if records == [] then None
    else if records[|records| - 1].runId == runId then Some(records[|records| - 1])
    else Newest(records[..|records| - 1], runId)
  }

  datatype Applied = Applied(state: RunState) | SummaryChanged | Unavailable | SourceChanged | ProtectedChanged

  function Reapply(s: RunState, records: seq<Record>, retain: nat): Applied {
    match Newest(records, s.runId)
    case None => Applied(s)
    case Some(r) =>
      if r.summary != r.digest then SummaryChanged
      else if s.summary != "" && s.summary == r.digest then Applied(s)
      else match Boundary(s.messages, retain) {
        case None => Unavailable
        case Some(b) =>
          var past := s.messages[..b];
          if Source(Compactable(past)) != r.source then SourceChanged
          else if Ids(Protected(past)) != r.protectedIds then ProtectedChanged
          else Applied(s.(summary := r.summary, messages := Kept(s.messages, b)))
      }
  }

  // ----- The service -----

  class CompactionService {
    const retain: nat
    const limit: nat
    var records: seq<Record>

    constructor (retain: nat, limit: nat, records: seq<Record>)
      ensures this.retain == retain && this.limit == limit && this.records == records
    {
      this.retain, this.limit, this.records := retain, limit, records;
    }

    static method FindBoundary(messages: seq<Message>, retain: nat) returns (b: Option<nat>)
      ensures b == Boundary(messages, retain)
    {
      var starts: seq<nat> := [];
      for k := 0 to |messages|
        invariant starts == TurnStarts(messages[..k])
      {
        assert messages[..k + 1][..k] == messages[..k];
        if IsTurn(messages[k]) {
          starts := starts + [k];
        }
      }
      assert messages[..|messages|] == messages;
      if |starts| <= retain {
        return None;
      }
      return Some(starts[if retain == 0 then 0 else |starts| - retain]);
    }

    /** Splits the old messages and joins the text of the compactable ones. */
    static method Divide(past: seq<Message>) returns (kept: seq<Message>, compactable: seq<Message>, source: string)
      ensures kept == Protected(past) && compactable == Compactable(past) && source == Source(compactable)
    {
      kept, compactable, source := [], [], "";
      for k := 0 to |past|
        invariant kept == Protected(past[..k]) && compactable == Compactable(past[..k]) && source == Source(compactable)
      {
        assert past[..k + 1][..k] == past[..k];
        if IsProtected(past[k]) {
          kept := kept + [past[k]];
        } else {
          assert (compactable + [past[k]])[..|compactable|] == compactable;
          source := if compactable == [] then Line(past[k]) else source + "\n" + Line(past[k]);
          compactable := compactable + [past[k]];
        }
      }
      assert past[..|past|] == past;
    }

    method Compact(state: RunRecord) returns (record: Option<Record>)
      modifies this`records, state`summary, state`messages
      ensures match CompactState(old(state.Value()), retain, limit) {
                case None => record == None && state.Value() == old(state.Value()) && records == old(records)
                case Some(c) => record == Some(c.record) && state.Value() == c.state && records == old(records) + [c.record]
              }
    {
      if state.status != Completed || state.turnId == "" {
        return None;
      }
      var boundary := FindBoundary(state.messages, retain);
      if boundary.None? {
        return None;
      }
      var kept, compactable, source := Divide(state.messages[..boundary.value]);
      if compactable == [] {
        return None;
      }
      var summary := Cut(source, limit);
      var r := Record(state.runId, state.turnId, source, summary, summary, Ids(kept));
      records := records + [r];
      state.summary := summary;
      state.messages := kept + state.messages[boundary.value..];
      return Some(r);
    }

    method ApplyLatest(state: RunRecord) returns (ok: bool)
      modifies state`summary, state`messages
      ensures match Reapply(old(state.Value()), records, retain) {
                case Applied(s) => ok && state.Value() == s
                case _ => !ok && state.Value() == old(state.Value())
              }
    {
      var record := Newest(records, state.runId);
      if record.None? {
        return true;
      }
      if record.value.summary != record.value.digest {
        return false;
      }
      if state.summary != "" && state.summary == record.value.digest {
        return true;
      }
      var boundary := FindBoundary(state.messages, retain);
      if boundary.None? {
        return false;
      }
      var kept, compactable, source := Divide(state.messages[..boundary.value]);
      if source != record.value.source || Ids(kept) != record.value.protectedIds {
        return false;
      }
      state.summary := record.value.summary;
      state.messages := kept + state.messages[boundary.value..];
      return true;
    }
  }

  // ----- What compaction keeps -----

  lemma {:induction false} ProtectedAppend(a: seq<Message>, b: seq<Message>)
    ensures Protected(a + b) == Protected(a) + Protected(b)
  {
    if b == [] {
      assert a + b == a;
    } else {
      assert (a + b)[..|a + b| - 1] == a + b[..|b| - 1];
      ProtectedAppend(a, b[..|b| - 1]);
    }
  }

  lemma {:induction false} ProtectedTwice(ms: seq<Message>)
    ensures Protected(Protected(ms)) == Protected(ms)
  {
    if ms != [] {
      var rest := ms[..|ms| - 1];
      ProtectedTwice(rest);
      if IsProtected(ms[|ms| - 1]) {
        assert Protected(ms)[..|Protected(ms)| - 1] == Protected(rest);
      } else {
        assert Protected(ms) == Protected(rest);
      }
    }
  }

  /** Every tool call and every tool result survives, in the original order; so does which calls have results. */
  lemma ToolTrafficKept(ms: seq<Message>, boundary: nat)
    requires boundary <= |ms|
    ensures Protected(Kept(ms, boundary)) == Protected(ms)
    ensures CompletedIds(Kept(ms, boundary)) == CompletedIds(ms)
  {
    var past := ms[..boundary];
    assert ms == past + ms[boundary..];
    ProtectedAppend(past, ms[boundary..]);
    ProtectedAppend(Protected(past), ms[boundary..]);
    ProtectedTwice(past);
    CompletedProtected(ms);
    CompletedProtected(Kept(ms, boundary));
  }

  lemma {:induction false} CompletedProtected(ms: seq<Message>)
    ensures CompletedIds(Protected(ms)) == CompletedIds(ms)
  {
    if ms != [] {
      var rest, last := ms[..|ms| - 1], ms[|ms| - 1];
      CompletedProtected(rest);
      CompletedAppend(rest, last);
      assert ms == rest + [last];
      if IsProtected(last) {
        CompletedAppend(Protected(rest), last);
      } else {
        assert Protected(ms) == Protected(rest);
      }
    }
  }

  lemma {:induction false} TurnStartsAppend(ms: seq<Message>, b: nat)
    requires b <= |ms|
    ensures TurnStarts(ms[..b]) <= TurnStarts(ms)
    ensures |TurnStarts(ms)| == |TurnStarts(ms[..b])| + |TurnStarts(ms[b..])|
  {
    if b == |ms| {
      assert ms[..b] == ms;
    } else {
      var n := |ms| - 1;
      TurnStartsAppend(ms[..n], b);
      assert ms[..n][..b] == ms[..b] && ms[b..][..|ms[b..]| - 1] == ms[..n][b..];
    }
  }

  lemma {:induction false} TurnStartsOrder(ms: seq<Message>, k: nat)
    requires k < |TurnStarts(ms)|
    ensures |TurnStarts(ms[..TurnStarts(ms)[k]])| == k
  {
    var n := |ms| - 1;
    if k == |TurnStarts(ms)| - 1 && IsTurn(ms[n]) {
    } else {
      TurnStartsOrder(ms[..n], k);
      assert ms[..n][..TurnStarts(ms)[k]] == ms[..TurnStarts(ms)[k]];
    }
  }

  /** The retained part holds exactly the configured number of turns (all of them when that number is 0). */
  lemma RetainedTurns(ms: seq<Message>, retain: nat)
    requires Boundary(ms, retain).Some?
    ensures var b := Boundary(ms, retain).value;
            && IsTurn(ms[b])
            && |TurnStarts(ms[b..])| == if retain == 0 then |TurnStarts(ms)| else retain
  {
    var starts := TurnStarts(ms);
    var k := if retain == 0 then 0 else |starts| - retain;
    TurnStartsOrder(ms, k);
    TurnStartsAppend(ms, starts[k]);
  }

  // ----- What a checkpoint gives back is compacted alike -----

  lemma StripPrefix(ms: seq<Message>, n: nat)
    requires n <= |ms|
    ensures StripMessages(ms)[..n] == StripMessages(ms[..n]) && StripMessages(ms)[n..] == StripMessages(ms[n..])
  {
  }

  lemma {:induction false} StripSelects(ms: seq<Message>)
    ensures TurnStarts(StripMessages(ms)) == TurnStarts(ms)
    ensures Protected(StripMessages(ms)) == StripMessages(Protected(ms))
    ensures Compactable(StripMessages(ms)) == Compactable(ms)
    ensures Ids(StripMessages(ms)) == Ids(ms)
  {
    if ms != [] {
      var n := |ms| - 1;
      StripPrefix(ms, n);
      StripSelects(ms[..n]);
      StripLast(ms[n]);
      StripAppend(Protected(ms[..n]), [ms[n]]);
      assert StripMessages([ms[n]]) == [StripMessage(ms[n])];
    }
  }

  lemma StripLast(m: Message)
    ensures IsTurn(StripMessage(m)) == IsTurn(m) && IsProtected(StripMessage(m)) == IsProtected(m)
    ensures !IsProtected(m) ==> StripMessage(m) == m
  {
    assert StripCalls([]) == [];
  }

  /** What reapplying needs to know of a compaction. */
  lemma CompactedSelection(s: RunState, retain: nat, limit: nat) returns (b: nat)
    requires CompactState(s, retain, limit).Some?
    ensures Boundary(s.messages, retain) == Some(b)
    ensures var c := CompactState(s, retain, limit).value; var past := s.messages[..b];
            && c.record == Record(s.runId, s.turnId, Source(Compactable(past)), c.state.summary, c.state.summary, Ids(Protected(past)))
            && c.state == s.(summary := c.record.summary, messages := Kept(s.messages, b))
            && Compactable(past) != []
  {
    b := Boundary(s.messages, retain).value;
  }

  lemma StripKept(ms: seq<Message>, b: nat)
    requires b <= |ms|
    ensures Kept(StripMessages(ms), b) == StripMessages(Kept(ms, b))
  {
    StripPrefix(ms, b);
    StripSelects(ms[..b]);
    StripAppend(Protected(ms[..b]), ms[b..]);
  }

  lemma {:induction false} FewerKept(ms: seq<Message>)
    ensures |Protected(ms)| + |Compactable(ms)| == |ms|
  {
    if ms != [] {
      FewerKept(ms[..|ms| - 1]);
    }
  }

  lemma Reselects(ms: seq<Message>, retain: nat, b: nat)
    requires Boundary(ms, retain) == Some(b)
    ensures var back := StripMessages(ms);
            && Boundary(back, retain) == Some(b)
            && Compactable(back[..b]) == Compactable(ms[..b])
            && Ids(Protected(back[..b])) == Ids(Protected(ms[..b]))
  {
    StripSelects(ms);
    StripPrefix(ms, b);
    ReselectsPast(ms[..b]);
  }

  lemma ReselectsPast(past: seq<Message>)
    ensures Compactable(StripMessages(past)) == Compactable(past)
    ensures Ids(Protected(StripMessages(past))) == Ids(Protected(past))
  {
    StripSelects(past);
    StripSelects(Protected(past));
  }

  lemma ReappliesTo(s: RunState, records: seq<Record>, r: Record, retain: nat, b: nat)
    requires Newest(records, s.runId) == Some(r) && Boundary(s.messages, retain) == Some(b)
    requires Source(Compactable(s.messages[..b])) == r.source && Ids(Protected(s.messages[..b])) == r.protectedIds
    requires r.digest == r.summary
    ensures Reapply(s, records, retain)
            == Applied(if s.summary != "" && s.summary == r.summary then s
                       else s.(summary := r.summary, messages := Kept(s.messages, b)))
  {
  }

  lemma Replayed(s: RunState, records: seq<Record>, retain: nat, limit: nat, c: Compacted)
    requires CompactState(s, retain, limit) == Some(c)
    ensures Reapply(StripState(s), records + [c.record], retain)
            == Applied(if s.summary != "" && s.summary == c.state.summary then StripState(s) else StripState(c.state))
    ensures c.state.runId == s.runId && Newest(records + [c.record], s.runId) == Some(c.record)
    ensures c.record.summary == c.state.summary && |c.state.messages| < |s.messages|
    ensures limit > 0 ==> c.state.summary != ""
  {
    var b := CompactedSelection(s, retain, limit);
    Reselects(s.messages, retain, b);
    ReappliesTo(StripState(s), records + [c.record], c.record, retain, b);
    StripKept(s.messages, b);
    FewerKept(s.messages[..b]);
    SourceNotEmpty(Compactable(s.messages[..b]));
  }

  lemma SourceNotEmpty(ms: seq<Message>)
    requires ms != []
    ensures Source(ms) != ""
  {
  }

  /**
   * One compaction and one restart: the checkpoint was taken just before the compaction, so its state is
   * the uncompacted one. Reapplying the newest record never fails, and gives the summary and messages of
   * the process that was not lost exactly when that summary was not already in the state.
   */
  lemma CompactionReplays(s: RunState, records: seq<Record>, retain: nat, limit: nat)
    requires CompactState(s, retain, limit).Some?
    ensures var c := CompactState(s, retain, limit).value;
            var r := Reapply(StripState(s), records + [c.record], retain);
            && r.Applied?
            && (r.state == StripState(c.state) <==> s.summary == "" || s.summary != c.state.summary)
  {
    var c := CompactState(s, retain, limit).value;
    Replayed(s, records, retain, limit, c);
    assert |StripState(s).messages| != |StripState(c.state).messages|;
  }

  /** The guard is needed: two turns with one text, compacted to the summary that is already there, come back whole. */
  lemma RepeatedSummaryIsSkipped(id: string) returns (s: RunState)
    ensures var c := CompactState(s, 1, 100);
            && c.Some? && |c.value.state.messages| == 1
            && Reapply(StripState(s), [c.value.record], 1) == Applied(StripState(s)) && |StripState(s).messages| == 2
  {
    var m, n := UserMessage("a", id), UserMessage("b", id);
    var ms := [m, n];
    s := RunState("r", "t", 1, "user: a", Completed, ms, 0, 0, 0, None, None, false);
    assert ms[..1] == [m] && [m][..0] == [];
    assert TurnStarts([m]) == [0] && TurnStarts(ms) == [0, 1];
    assert Compactable([m]) == [m] && Source([m]) == "user: a";
    assert Cut("user: a", 100) == "user: a";
    var c := CompactState(s, 1, 100).value;
    assert [] + [c.record] == [c.record];
    Replayed(s, [], 1, 100, c);
    assert Protected([m]) == [];
  }

  // ----- Any run of turns, compactions and restarts -----

  /** The process, its newest checkpoint, and the durable records; `saved` right after a checkpoint. */
  datatype Thread = Thread(live: RunState, checkpoint: RunState, records: seq<Record>, saved: bool)

  datatype Event =
    | Save(added: seq<Message>, status: RunStatus, turnId: string)
    | CompactIdle
    | Reopen

  function Step(t: Thread, e: Event, retain: nat, limit: nat): Thread {
    match e
    case Save(added, status, turnId) =>
      var s := t.live.(messages := t.live.messages + added, status := status, turnId := turnId);
      Thread(s, s, t.records, true)
    case CompactIdle =>
      if !t.saved then t
      else match CompactState(t.live, retain, limit) {
        case None => t.(saved := false)
        case Some(c) => Thread(c.state, t.checkpoint, t.records + [c.record], false)
      }
    case Reopen =>
      match Reapply(StripState(t.checkpoint), t.records, retain)
      case Applied(s) => t.(live := s, saved := false)
      case _ => t
  }

  /** The guard: no compaction produces the summary that the state already carries. */
  predicate Changes(t: Thread, e: Event, retain: nat, limit: nat) {
    e.CompactIdle? && t.saved && CompactState(t.live, retain, limit).Some? ==>
      var c := CompactState(t.live, retain, limit).value; t.live.summary == "" || t.live.summary != c.state.summary
  }

  function Run(t: Thread, events: seq<Event>, retain: nat, limit: nat): Thread {
    if events == [] then t else Step(Run(t, events[..|events| - 1], retain, limit), events[|events| - 1], retain, limit)
  }

  ghost predicate AllChange(t: Thread, events: seq<Event>, retain: nat, limit: nat) {
    forall k :: 0 <= k < |events| ==> Changes(Run(t, events[..k], retain, limit), events[k], retain, limit)
  }

  predicate SameView(s: RunState, t: RunState) {
    s.runId == t.runId && s.summary == t.summary && StripMessages(s.messages) == StripMessages(t.messages)
  }

  /** The checkpoint and the records together stand for the live process. */
  predicate Stands(t: Thread, retain: nat) {
    && t.checkpoint.runId == t.live.runId
    && (t.saved ==> t.checkpoint == t.live)
    && (Newest(t.records, t.live.runId).Some? ==>
          t.live.summary == Newest(t.records, t.live.runId).value.summary && t.live.summary != "")
    && Reapply(StripState(t.checkpoint), t.records, retain).Applied?
    && SameView(Reapply(StripState(t.checkpoint), t.records, retain).state, t.live)
  }

  lemma SaveStands(t: Thread, e: Event, retain: nat, limit: nat)
    requires Stands(t, retain) && e.Save?
    ensures Stands(Step(t, e, retain, limit), retain)
  {
    StripTwice(Step(t, e, retain, limit).live.messages);
  }

  lemma CompactStands(t: Thread, retain: nat, limit: nat)
    requires Stands(t, retain) && Changes(t, CompactIdle, retain, limit) && limit > 0
    ensures Stands(Step(t, CompactIdle, retain, limit), retain)
  {
    if t.saved && CompactState(t.live, retain, limit).Some? {
      var c := CompactState(t.live, retain, limit).value;
      Replayed(t.live, t.records, retain, limit, c);
      StripTwice(c.state.messages);
    }
  }

  lemma ReopenStands(t: Thread, retain: nat, limit: nat)
    requires Stands(t, retain)
    ensures var n := Step(t, Reopen, retain, limit); Stands(n, retain) && SameView(n.live, t.live)
  {
  }

  /**
   * Over any run of turns, compactions and restarts in which no compaction repeats the summary already
   * in the state, reopening the thread gives the summary and messages of the process that was lost.
   */
  lemma {:induction false} RunStands(t: Thread, events: seq<Event>, retain: nat, limit: nat)
    requires t.records == [] && t.checkpoint == t.live && limit > 0
    requires AllChange(t, events, retain, limit)
    ensures Stands(Run(t, events, retain, limit), retain)
    ensures SameView(Run(t, events + [Reopen], retain, limit).live, Run(t, events, retain, limit).live)
  {
    if events == [] {
      StripTwice(t.live.messages);
    } else {
      var n := |events| - 1;
      forall k | 0 <= k < n
        ensures Changes(Run(t, events[..n][..k], retain, limit), events[..n][k], retain, limit)
      {
        assert events[..n][..k] == events[..k];
      }
      RunStands(t, events[..n], retain, limit);
      var before := Run(t, events[..n], retain, limit);
      assert Changes(before, events[n], retain, limit);
      match events[n]
      case Save(_, _, _) => SaveStands(before, events[n], retain, limit);
      case CompactIdle => CompactStands(before, retain, limit);
      case Reopen => ReopenStands(before, retain, limit);
    }
    ReopenStands(Run(t, events, retain, limit), retain, limit);
    assert (events + [Reopen])[..|events|] == events;
  }
}
