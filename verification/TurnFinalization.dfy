/**
 * Closing a turn in the rollout (turns/controller.py, the terminal repair in runtime/session.py): the
 * process may be lost at any byte of what it appends, again and again, before one attempt completes.
 */
module TurnFinalization {
  import opened Messages
  import opened RunStates
  import opened RolloutRows
  import opened RolloutFile
  import opened RolloutRecovery

  predicate TerminalType(itemType: string) {
    itemType in {"turn.completed", "turn.failed", "turn.cancelled", "turn.interrupted"}
  }

  function TypeFor(status: RunStatus): (t: string)
    ensures TerminalType(t)
  {
    match status
    case Completed => "turn.completed"
    case Cancelled => "turn.cancelled"
    case _ => "turn.failed"
  }

  predicate Ends(i: Item, turn: string) { i.turnId == turn && TerminalType(i.itemType) }

  /** The terminal items of a turn, in file order. */
  function Terminals(items: seq<Item>, turn: string): seq<Item> {
    if items == [] then []
    else
      var last := items[|items| - 1];
      Terminals(items[..|items| - 1], turn) + if Ends(last, turn) then [last] else []
  }

  /** The two items every finalization appends; the payloads are what the summary and state say. */
  function Closing(turn: string, status: RunStatus, message: string, outcome: string, ids: (string, string)): seq<Item> {
    [Item(ids.0, "agent_message", turn, message, 2, 0, "", ""), Item(ids.1, TypeFor(status), turn, outcome, 2, 0, "", "")]
  }

  /** The durable side of a thread: its rollout bytes, and whether its metadata says idle with no active turn. */
  datatype Disk = Disk(bytes: string, idle: bool)

  /** How an attempt ends: completed, or lost with so many appended bytes on disk and the metadata written or not. */
  datatype End = Done | Lost(bytes: nat, metadata: bool)

  /** One process closing the turn; `others` are items it records for other reasons before the closing pair. */
  datatype Attempt = Attempt(others: seq<Item>, message: string, outcome: string, ids: (string, string), end: End)

  function Stamped(items: seq<Item>, turn: string, status: RunStatus, a: Attempt): seq<Item> {
    Stamp(MaxSequence(items), LastHash(items), a.others + Closing(turn, status, a.message, a.outcome, a.ids))
  }

  function Appended(items: seq<Item>, turn: string, status: RunStatus, a: Attempt): string {
    Rows(Stamped(items, turn, status, a))
  }

  /** Load and repair, then close the turn, as a process does that has run it: it does not look for a terminal item. */
  function Conclude(d: Disk, turn: string, status: RunStatus, a: Attempt): Disk {
    match Load(d.bytes)
    case Corrupt => d
    case Loaded(c, kept, _) =>
      var clean := if kept <= |d.bytes| then d.bytes[..kept] else d.bytes;
      var rows := Appended(c.items, turn, status, a);
      match a.end
      case Done => Disk(clean + rows, true)
      case Lost(n, metadata) => Disk(clean + (if n <= |rows| then rows[..n] else rows), d.idle || metadata)
  }

  /** The repair on resume: close the turn unless its terminal item is already there. */
  function Close(d: Disk, turn: string, status: RunStatus, a: Attempt): Disk {
    match Load(d.bytes)
    case Corrupt => d
    case Loaded(c, kept, _) =>
      if Terminals(c.items, turn) == [] then Conclude(d, turn, status, a)
      else Disk(if kept <= |d.bytes| then d.bytes[..kept] else d.bytes, d.idle || a.end.Done? || a.end.metadata)
  }

  function CloseAll(d: Disk, turn: string, status: RunStatus, attempts: seq<Attempt>): Disk {
    if attempts == [] then d
    else Close(CloseAll(d, turn, status, attempts[..|attempts| - 1]), turn, status, attempts[|attempts| - 1])
  }

  // ----- Files with a cut last row -----

  /** The bytes are recorded items and a proper part of one more row. */
  ghost predicate CutFile(raw: string, items: seq<Item>, partial: string) {
    && Extend(START, items).Some? && PlainLegacy(items)
    && Split(raw, Rows(items), partial)
    && exists i: Item :: |partial| < |Encode(i)| && partial == Encode(i)[..|partial|]
  }

  lemma CutFileLoads(raw: string, items: seq<Item>, partial: string)
    requires CutFile(raw, items, partial)
    ensures Load(raw).Loaded? && Load(raw).chain.items == items && Load(raw).kept == |Rows(items)|
    ensures raw[..|Rows(items)|] == Rows(items)
  {
    var i: Item :| |partial| < |Encode(i)| && partial == Encode(i)[..|partial|];
    var d := Extend(START, items).value;
    ScanRows(START, d, 0, |Rows(items)|, items, raw, Rows(items), partial);
    PartialRow(d, |Rows(items)|, i, partial);
    ExtendAppend(START, items, []);
  }

  lemma {:induction false} TerminalsAppend(a: seq<Item>, b: seq<Item>, turn: string)
    ensures Terminals(a + b, turn) == Terminals(a, turn) + Terminals(b, turn)
  {
    if b == [] {
      assert a + b == a;
    } else {
      assert (a + b)[..|a + b| - 1] == a + b[..|b| - 1];
      TerminalsAppend(a, b[..|b| - 1], turn);
    }
  }

  /** Stamping changes numbers and hashes only. */
  lemma {:induction false} StampTerminals(sequence: nat, previousHash: string, items: seq<Item>, turn: string)
    ensures |Stamp(sequence, previousHash, items)| == |items|
    ensures |Terminals(Stamp(sequence, previousHash, items), turn)| == |Terminals(items, turn)|
    ensures forall k :: 0 <= k < |Terminals(items, turn)| ==>
              Terminals(Stamp(sequence, previousHash, items), turn)[k].itemType == Terminals(items, turn)[k].itemType
    decreases |items|
  {
    if items != [] {
      var first := Seal(items[0], sequence + 1, previousHash);
      var rest := Stamp(sequence + 1, first.itemHash, items[1..]);
      StampTerminals(sequence + 1, first.itemHash, items[1..], turn);
      TerminalsAppend([first], rest, turn);
      TerminalsAppend([items[0]], items[1..], turn);
      assert [items[0]] + items[1..] == items;
      assert [first][..0] == [] && [items[0]][..0] == [];
    }
  }

  lemma ClosingTerminals(others: seq<Item>, turn: string, status: RunStatus, message: string, outcome: string, ids: (string, string))
    requires Terminals(others, turn) == []
    ensures var t := Terminals(others + Closing(turn, status, message, outcome, ids), turn);
            |t| == 1 && t[0].itemType == TypeFor(status)
  {
    var pair := Closing(turn, status, message, outcome, ids);
    TerminalsAppend(others, pair, turn);
    TerminalsAppend([pair[0]], [pair[1]], turn);
    assert pair == [pair[0]] + [pair[1]];
    assert [pair[0]][..0] == [] && [pair[1]][..0] == [];
    assert !TerminalType("agent_message");
  }

  // ----- One attempt -----

  /** No terminal item yet, or exactly one of the checkpointed kind. */
  predicate OneAtMost(items: seq<Item>, turn: string, status: RunStatus) {
    var t := Terminals(items, turn);
    t == [] || (|t| == 1 && t[0].itemType == TypeFor(status))
  }

  predicate ExactlyOne(items: seq<Item>, turn: string, status: RunStatus) {
    var t := Terminals(items, turn);
    |t| == 1 && t[0].itemType == TypeFor(status)
  }

  /** A crash does not cut the file just before a line break. */
  predicate GoodEnd(items: seq<Item>, turn: string, status: RunStatus, a: Attempt) {
    a.end.Lost? ==>
      var rows := Appended(items, turn, status, a);
      a.end.bytes < |rows| ==> rows[a.end.bytes] != '\n'
  }

  /** What an attempt appends continues the chain. */
  lemma AppendedExtends(items: seq<Item>, stamped: seq<Item>, more: seq<Item>)
    requires Extend(START, items).Some? && PlainLegacy(items)
    requires stamped == Stamp(MaxSequence(items), LastHash(items), more)
    ensures Extend(START, items + stamped).Some? && PlainLegacy(items + stamped)
  {
    WholeLoads(items, Rows(items));
    PlainLegacyInStep(Rows(items));
    StampExtends(Extend(START, items).value, MaxSequence(items), LastHash(items), more);
    ExtendAppend(START, items, stamped);
    StampVersions(MaxSequence(items), LastHash(items), more);
  }

  lemma {:induction false} StampVersions(sequence: nat, previousHash: string, items: seq<Item>)
    ensures forall i :: i in Stamp(sequence, previousHash, items) ==> i.version == 2
    decreases |items|
  {
    if items != [] {
      StampVersions(sequence + 1, Seal(items[0], sequence + 1, previousHash).itemHash, items[1..]);
    }
  }

  lemma WholeIsCut(items: seq<Item>)
    requires Extend(START, items).Some? && PlainLegacy(items)
    ensures CutFile(Rows(items), items, "")
  {
    var i := Item("", "", "", "", 0, 0, "", "");
    assert "" == Encode(i)[..0];
  }

  /** The bytes after a lost attempt are again recorded items and a cut row. */
  lemma LostIsCut(items: seq<Item>, stamped: seq<Item>, n: nat) returns (j: nat, partial: string)
    requires Extend(START, items + stamped).Some? && PlainLegacy(items + stamped)
    requires n <= |Rows(stamped)| && (n < |Rows(stamped)| ==> Rows(stamped)[n] != '\n')
    ensures |items| <= j <= |items + stamped|
    ensures CutFile(Rows(items) + Rows(stamped)[..n], (items + stamped)[..j], partial)
  {
    var all, file := items + stamped, Rows(items) + Rows(stamped);
    RowsJoin(items, stamped);
    var at := |Rows(items)| + n;
    var rows;
    j, rows, partial := Cut(all, file, at);
    if j < |items| {
      RowsBound(items, stamped, j);
    }
    assert file[..at] == Rows(items) + Rows(stamped)[..n];
    ExtendPrefix(START, all, j);
    if j == |all| {
      assert all[..j] == all;
      WholeIsCut(all);
    }
  }

  lemma RowsBound(items: seq<Item>, stamped: seq<Item>, j: nat)
    requires j < |items|
    ensures |Rows((items + stamped)[..j])| + |Line((items + stamped)[j])| <= |Rows(items)|
  {
    assert (items + stamped)[..j] == items[..j];
    RowsAppend(items, j);
    RowsSplit(items, j + 1);
  }

  lemma CloseShape(d: Disk, items: seq<Item>, partial: string, turn: string, status: RunStatus, a: Attempt)
    requires CutFile(d.bytes, items, partial)
    ensures var e := Close(d, turn, status, a);
            && (Terminals(items, turn) != [] ==> e.bytes == Rows(items))
            && (Terminals(items, turn) == [] ==> e.bytes == Rows(items) + OnDisk(Appended(items, turn, status, a), a.end))
            && (a.end.Done? ==> e.idle)
  {
    CutFileLoads(d.bytes, items, partial);
  }

  lemma AttemptCloses(items: seq<Item>, stamped: seq<Item>, turn: string, status: RunStatus, a: Attempt)
    requires Extend(START, items).Some? && PlainLegacy(items) && Terminals(items, turn) == [] && Terminals(a.others, turn) == []
    requires stamped == Stamped(items, turn, status, a)
    ensures Extend(START, items + stamped).Some? && PlainLegacy(items + stamped)
    ensures ExactlyOne(items + stamped, turn, status)
  {
    var added := a.others + Closing(turn, status, a.message, a.outcome, a.ids);
    AppendedExtends(items, stamped, added);
    ClosingTerminals(a.others, turn, status, a.message, a.outcome, a.ids);
    StampTerminals(MaxSequence(items), LastHash(items), added, turn);
    TerminalsAppend(items, stamped, turn);
  }

  lemma CloseKeeps(d: Disk, items: seq<Item>, partial: string, turn: string, status: RunStatus, a: Attempt)
      returns (more: seq<Item>, rest: string)
    requires CutFile(d.bytes, items, partial) && OneAtMost(items, turn, status)
    requires Terminals(a.others, turn) == [] && GoodEnd(items, turn, status, a)
    ensures var e := Close(d, turn, status, a);
            && CutFile(e.bytes, more, rest) && OneAtMost(more, turn, status) && items <= more
            && (a.end.Done? ==> e.idle && e.bytes == Rows(more) && ExactlyOne(more, turn, status))
  {
    CloseShape(d, items, partial, turn, status, a);
    if Terminals(items, turn) != [] {
      more, rest := items, "";
      WholeIsCut(items);
    } else {
      var stamped := Stamped(items, turn, status, a);
      AttemptCloses(items, stamped, turn, status, a);
      more, rest := AppendKeeps(items, stamped, turn, status, a.end);
    }
  }

  function OnDisk(rows: string, end: End): string {
    if end.Done? || end.bytes > |rows| then rows else rows[..end.bytes]
  }

  lemma AppendKeeps(items: seq<Item>, stamped: seq<Item>, turn: string, status: RunStatus, end: End)
      returns (more: seq<Item>, rest: string)
    requires Extend(START, items + stamped).Some? && PlainLegacy(items + stamped)
    requires ExactlyOne(items + stamped, turn, status)
    requires end.Lost? && end.bytes < |Rows(stamped)| ==> Rows(stamped)[end.bytes] != '\n'
    ensures CutFile(Rows(items) + OnDisk(Rows(stamped), end), more, rest) && OneAtMost(more, turn, status) && items <= more
    ensures end.Done? ==> more == items + stamped && Rows(items) + Rows(stamped) == Rows(more)
  {
    var all := items + stamped;
    if end.Done? || end.bytes > |Rows(stamped)| {
      more, rest := all, "";
      RowsJoin(items, stamped);
      WholeIsCut(all);
    } else {
      var j;
      j, rest := LostIsCut(items, stamped, end.bytes);
      more := all[..j];
      PrefixKeeps(all, j, turn, status);
    }
  }

  lemma PrefixKeeps(all: seq<Item>, j: nat, turn: string, status: RunStatus)
    requires ExactlyOne(all, turn, status) && j <= |all|
    ensures OneAtMost(all[..j], turn, status)
  {
    assert all == all[..j] + all[j..];
    TerminalsAppend(all[..j], all[j..], turn);
  }

  // ----- Any number of attempts -----

  /** What the loader finds now. */
  function Items(d: Disk): seq<Item> { if Load(d.bytes).Loaded? then Load(d.bytes).chain.items else [] }

  /** Attempts record no terminal item of their own, and no crash cuts just before a line break. */
  ghost predicate FairAttempts(d: Disk, turn: string, status: RunStatus, attempts: seq<Attempt>) {
    attempts == [] ||
      var n := |attempts| - 1;
      && FairAttempts(d, turn, status, attempts[..n])
      && Terminals(attempts[n].others, turn) == []
      && GoodEnd(Items(CloseAll(d, turn, status, attempts[..n])), turn, status, attempts[n])
  }

  lemma {:induction false} CloseAllKeeps(d: Disk, items: seq<Item>, turn: string, status: RunStatus, attempts: seq<Attempt>)
      returns (more: seq<Item>, rest: string)
    requires CutFile(d.bytes, items, "") && Terminals(items, turn) == []
    requires FairAttempts(d, turn, status, attempts)
    ensures var e := CloseAll(d, turn, status, attempts);
            && CutFile(e.bytes, more, rest) && OneAtMost(more, turn, status) && items <= more
            && (attempts != [] && attempts[|attempts| - 1].end.Done? ==>
                  e.idle && e.bytes == Rows(more) && ExactlyOne(more, turn, status))
  {
    if attempts == [] {
      more, rest := items, "";
    } else {
      var n := |attempts| - 1;
      var before := CloseAll(d, turn, status, attempts[..n]);
      var mid, partial := CloseAllKeeps(d, items, turn, status, attempts[..n]);
      CutFileLoads(before.bytes, mid, partial);
      more, rest := CloseKeeps(before, mid, partial, turn, status, attempts[n]);
    }
  }

  /**
   * A turn whose TERMINAL checkpoint is committed is closed exactly once. Take any recorded history
   * without a terminal item for the turn, and any number of attempts, each lost at any byte of what it
   * appends. At every moment the file loads with at most one terminal item. Once an attempt completes
   * there is exactly one, of the type the checkpointed status fixes; the thread is idle, the file needs
   * no repair, and nothing recorded before is lost.
   */
  lemma ExactlyOneTerminalItem(d: Disk, items: seq<Item>, turn: string, status: RunStatus, attempts: seq<Attempt>)
    requires Extend(START, items).Some? && PlainLegacy(items) && d.bytes == Rows(items) && Terminals(items, turn) == []
    requires FairAttempts(d, turn, status, attempts)
    ensures var e := CloseAll(d, turn, status, attempts);
            && Load(e.bytes).Loaded? && OneAtMost(Items(e), turn, status) && items <= Items(e)
            && (attempts != [] && attempts[|attempts| - 1].end.Done? ==>
                  e.idle && Clean(Load(e.bytes)) && ExactlyOne(Items(e), turn, status))
  {
    WholeIsCut(items);
    var more, rest := CloseAllKeeps(d, items, turn, status, attempts);
    var e := CloseAll(d, turn, status, attempts);
    CutFileLoads(e.bytes, more, rest);
    if attempts != [] && attempts[|attempts| - 1].end.Done? {
      WholeLoads(more, Rows(more));
    }
  }

  // ----- A turn that was closed before -----

  /** The types of a turn's terminal items, in file order. */
  function Types(items: seq<Item>, turn: string): (r: seq<string>)
    ensures |r| == |Terminals(items, turn)|
  {
    seq(|Terminals(items, turn)|, k requires 0 <= k < |Terminals(items, turn)| => Terminals(items, turn)[k].itemType)
  }

  lemma StampedTypes(items: seq<Item>, stamped: seq<Item>, turn: string, status: RunStatus, a: Attempt)
    requires Terminals(a.others, turn) == [] && stamped == Stamped(items, turn, status, a)
    ensures Types(items + stamped, turn) == Types(items, turn) + [TypeFor(status)]
  {
    var added := a.others + Closing(turn, status, a.message, a.outcome, a.ids);
    ClosingTerminals(a.others, turn, status, a.message, a.outcome, a.ids);
    StampTerminals(MaxSequence(items), LastHash(items), added, turn);
    TerminalsAppend(items, stamped, turn);
  }

  /** A completed closing by a process that has run the turn adds one terminal item, whatever is there. */
  lemma ConcludeAdds(d: Disk, items: seq<Item>, turn: string, status: RunStatus, a: Attempt) returns (more: seq<Item>)
    requires Extend(START, items).Some? && PlainLegacy(items) && d.bytes == Rows(items)
    requires Terminals(a.others, turn) == [] && a.end.Done?
    ensures Conclude(d, turn, status, a) == Disk(Rows(more), true)
    ensures Extend(START, more).Some? && PlainLegacy(more) && items <= more
    ensures Types(more, turn) == Types(items, turn) + [TypeFor(status)]
  {
    var stamped := Stamped(items, turn, status, a);
    more := items + stamped;
    WholeIsCut(items);
    CutFileLoads(d.bytes, items, "");
    assert d.bytes[..|d.bytes|] == d.bytes;
    RowsJoin(items, stamped);
    AppendedExtends(items, stamped, a.others + Closing(turn, status, a.message, a.outcome, a.ids));
    StampedTypes(items, stamped, turn, status, a);
  }

  lemma CloseOnce(d: Disk, items: seq<Item>, turn: string, status: RunStatus, a: Attempt) returns (more: seq<Item>)
    requires Extend(START, items).Some? && PlainLegacy(items) && d.bytes == Rows(items)
    requires Terminals(a.others, turn) == [] && a.end.Done?
    ensures Close(d, turn, status, a) == Disk(Rows(more), true)
    ensures Extend(START, more).Some? && PlainLegacy(more) && items <= more
    ensures Types(more, turn) == if Types(items, turn) == [] then [TypeFor(status)] else Types(items, turn)
  {
    WholeIsCut(items);
    CutFileLoads(d.bytes, items, "");
    if Terminals(items, turn) == [] {
      more := ConcludeAdds(d, items, turn, status, a);
    } else {
      more := items;
      assert d.bytes[..|d.bytes|] == d.bytes;
    }
  }

  /** What a turn's first process leaves when it was cancelled, and otherwise (lost, or not closing) nothing. */
  function AfterCancel(d: Disk, turn: string, cancelled: Option<Attempt>): Disk {
    match cancelled
    case None => d
    case Some(a) => Conclude(d, turn, Cancelled, a)
  }

  /** The last process returned and closes the turn itself, or is lost at its end and the next resume repairs. */
  function AfterReturn(d: Disk, turn: string, status: RunStatus, a: Attempt, repaired: bool): Disk {
    if repaired then Close(d, turn, status, a) else Conclude(d, turn, status, a)
  }

  /**
   * When the turn's first process was cancelled, it has closed the turn in the rollout although the turn goes
   * on. The file then ends with two terminal items, or, after a repair, with one that says cancelled. So there
   * is exactly one of the type the last checkpoint fixes if and only if the first process was not cancelled (or
   * the repair finds the turn cancelled in the end, too).
   */
  lemma ClosedOnceExactlyWhen(d: Disk, items: seq<Item>, turn: string, cancelled: Option<Attempt>, status: RunStatus, a: Attempt, repaired: bool)
    requires Extend(START, items).Some? && PlainLegacy(items) && d.bytes == Rows(items) && Terminals(items, turn) == []
    requires cancelled.Some? ==> Terminals(cancelled.value.others, turn) == [] && cancelled.value.end.Done?
    requires Terminals(a.others, turn) == [] && a.end.Done?
    ensures var e := AfterReturn(AfterCancel(d, turn, cancelled), turn, status, a, repaired);
            && e.idle && Clean(Load(e.bytes)) && items <= Items(e)
            && Types(Items(e), turn) == (if cancelled.None? then [TypeFor(status)]
                                         else if repaired then ["turn.cancelled"] else ["turn.cancelled", TypeFor(status)])
            && (ExactlyOne(Items(e), turn, status) <==> cancelled.None? || (repaired && status == Cancelled))
  {
    var first := FirstItems(d, items, turn, cancelled);
    var e := AfterCancel(d, turn, cancelled);
    var last := LastItems(e, first, turn, status, a, repaired);
    HoldsItems(AfterReturn(e, turn, status, a, repaired), last);
    CancelledType(Cancelled);
    TypesCombine(Types(first, turn), Types(last, turn), status, cancelled.Some?, repaired);
    OneType(last, turn, status, cancelled.Some?, repaired);
  }

  lemma TypesCombine(first: seq<string>, last: seq<string>, status: RunStatus, cancelled: bool, repaired: bool)
    requires first == if cancelled then ["turn.cancelled"] else []
    requires last == if repaired && first != [] then first else first + [TypeFor(status)]
    ensures last == (if !cancelled then [TypeFor(status)]
                     else if repaired then ["turn.cancelled"] else ["turn.cancelled", TypeFor(status)])
  {
  }

  lemma FirstItems(d: Disk, items: seq<Item>, turn: string, cancelled: Option<Attempt>) returns (first: seq<Item>)
    requires Extend(START, items).Some? && PlainLegacy(items) && d.bytes == Rows(items) && Terminals(items, turn) == []
    requires cancelled.Some? ==> Terminals(cancelled.value.others, turn) == [] && cancelled.value.end.Done?
    ensures AfterCancel(d, turn, cancelled).bytes == Rows(first)
    ensures Extend(START, first).Some? && PlainLegacy(first) && items <= first
    ensures Types(first, turn) == if cancelled.Some? then ["turn.cancelled"] else []
  {
    first := items;
    if cancelled.Some? {
      first := ConcludeAdds(d, items, turn, Cancelled, cancelled.value);
      CancelledType(Cancelled);
      assert Types(items, turn) == [] && [] + ["turn.cancelled"] == ["turn.cancelled"];
    }
  }

  lemma LastItems(e: Disk, first: seq<Item>, turn: string, status: RunStatus, a: Attempt, repaired: bool) returns (last: seq<Item>)
    requires Extend(START, first).Some? && PlainLegacy(first) && e.bytes == Rows(first)
    requires Terminals(a.others, turn) == [] && a.end.Done?
    ensures AfterReturn(e, turn, status, a, repaired) == Disk(Rows(last), true)
    ensures Extend(START, last).Some? && PlainLegacy(last) && first <= last
    ensures Types(last, turn) == if repaired && Types(first, turn) != [] then Types(first, turn) else Types(first, turn) + [TypeFor(status)]
  {
    if repaired {
      last := CloseOnce(e, first, turn, status, a);
    } else {
      last := ConcludeAdds(e, first, turn, status, a);
    }
  }

  lemma OneType(last: seq<Item>, turn: string, status: RunStatus, cancelled: bool, repaired: bool)
    requires Types(last, turn) == (if !cancelled then [TypeFor(status)]
                                   else if repaired then ["turn.cancelled"] else ["turn.cancelled", TypeFor(status)])
    ensures ExactlyOne(last, turn, status) <==> !cancelled || (repaired && status == Cancelled)
  {
    TypesDecide(last, turn, status);
    CancelledType(status);
  }

  lemma HoldsItems(e: Disk, items: seq<Item>)
    requires Extend(START, items).Some? && PlainLegacy(items) && e.bytes == Rows(items)
    ensures Clean(Load(e.bytes)) && Items(e) == items
  {
    WholeIsCut(items);
    CutFileLoads(e.bytes, items, "");
    WholeLoads(items, e.bytes);
  }

  lemma TypesDecide(items: seq<Item>, turn: string, status: RunStatus)
    ensures ExactlyOne(items, turn, status) <==> Types(items, turn) == [TypeFor(status)]
  {
    if |Terminals(items, turn)| == 1 {
      assert Types(items, turn)[0] == Terminals(items, turn)[0].itemType;
    }
  }

  /** What the terminal item of a turn closed with this status says. */
  predicate SaysStatus(types: seq<string>, status: RunStatus) {
    && (types == ["turn.completed"] <==> status == Completed)
    && (types == ["turn.cancelled"] <==> status == Cancelled)
    && (types == ["turn.failed"] <==> status != Completed && status != Cancelled)
  }

  lemma OneTypeSays(status: RunStatus)
    ensures SaysStatus([TypeFor(status)], status)
  {
    assert "turn.completed"[6] != "turn.cancelled"[6];
    assert |"turn.failed"| != |"turn.completed"| && |"turn.failed"| != |"turn.cancelled"|;
    assert ["turn.completed"][0] == "turn.completed" && ["turn.cancelled"][0] == "turn.cancelled" && ["turn.failed"][0] == "turn.failed";
    assert [TypeFor(status)][0] == TypeFor(status);
  }

  /** After a completed attempt the file says what became of the turn: completed, cancelled, or in every other case failed. */
  lemma TerminalItemSaysStatus(d: Disk, items: seq<Item>, turn: string, status: RunStatus, attempts: seq<Attempt>)
    requires Extend(START, items).Some? && PlainLegacy(items) && d.bytes == Rows(items) && Terminals(items, turn) == []
    requires FairAttempts(d, turn, status, attempts) && attempts != [] && attempts[|attempts| - 1].end.Done?
    ensures SaysStatus(Types(Items(CloseAll(d, turn, status, attempts)), turn), status)
  {
    ExactlyOneTerminalItem(d, items, turn, status, attempts);
    TypesDecide(Items(CloseAll(d, turn, status, attempts)), turn, status);
    OneTypeSays(status);
  }

  lemma CancelledType(status: RunStatus)
    ensures TypeFor(status) == "turn.cancelled" <==> status == Cancelled
  {
    assert "turn.completed"[6] != "turn.cancelled"[6];
  }

  // ----- The objects -----

  /** A loaded thread: its rollout, and whether its metadata says idle with no active turn. */
  class LiveThread {
    const file: RolloutFile
    var idle: bool

    constructor (file: RolloutFile, idle: bool)
      ensures this.file == file && this.idle == idle
    {
      this.file, this.idle := file, idle;
    }

    ghost function Durable(): Disk
      reads this, file
    {
      Disk(file.bytes, idle)
    }
  }

  class TurnController {
    const live: LiveThread
    const turn: string
    var finalized: bool

    constructor (live: LiveThread, turn: string)
      ensures this.live == live && this.turn == turn && !finalized
    {
      this.live, this.turn, finalized := live, turn, false;
    }

    /** Appends the closing pair and marks the thread idle; a second call does nothing. */
    method Finalize(status: RunStatus, message: string, outcome: string, ids: (string, string))
      modifies this`finalized, live, live.file
      ensures finalized
      ensures old(finalized) ==> live.Durable() == old(live.Durable())
      ensures !old(finalized) ==>
                live.Durable() == Disk(old(live.file.bytes)
                  + Rows(Stamp(old(live.file.sequence), old(live.file.previousHash), Closing(turn, status, message, outcome, ids))), true)
    {
      if finalized {
        return;
      }
      live.file.AppendItems(Closing(turn, status, message, outcome, ids));
      live.idle := true;
      finalized := true;
    }
  }

  method TerminalExists(history: seq<Item>, turn: string) returns (found: bool)
    ensures found <==> Terminals(history, turn) != []
  {
    found := false;
    for k := 0 to |history|
      invariant found <==> Terminals(history[..k], turn) != []
    {
      assert history[..k + 1][..k] == history[..k];
      if history[k].turnId == turn && TerminalType(history[k].itemType) {
        found := true;
      }
    }
    assert history[..|history|] == history;
  }

  /** Closing a file that needs no repair. */
  lemma CloseClean(d: Disk, history: seq<Item>, turn: string, status: RunStatus, a: Attempt)
    requires Clean(Load(d.bytes)) && Load(d.bytes).kept == |d.bytes| && Load(d.bytes).chain.items == history && a.end.Done?
    ensures Close(d, turn, status, a)
            == Disk(if Terminals(history, turn) != [] then d.bytes else d.bytes + Appended(history, turn, status, a), true)
  {
    assert d.bytes[..|d.bytes|] == d.bytes;
  }

  /** The repair a resume makes when the newest checkpoint is TERMINAL: a completed attempt. */
  method RepairTerminalCheckpoint(live: LiveThread, history: seq<Item>, turn: string, status: RunStatus,
                                  message: string, outcome: string, ids: (string, string))
    requires Clean(Load(live.file.bytes)) && Load(live.file.bytes).chain.items == history
    requires live.file.sequence == MaxSequence(history) && live.file.previousHash == LastHash(history)
    modifies live, live.file
    ensures live.Durable() == Close(old(live.Durable()), turn, status, Attempt([], message, outcome, ids, Done))
  {
    AllAccepted(live.file.bytes);
    ghost var attempt := Attempt([], message, outcome, ids, Done);
    CloseClean(live.Durable(), history, turn, status, attempt);
    assert Stamped(history, turn, status, attempt) == Stamp(MaxSequence(history), LastHash(history), Closing(turn, status, message, outcome, ids)) by {
      assert [] + Closing(turn, status, message, outcome, ids) == Closing(turn, status, message, outcome, ids);
    }
    var found := TerminalExists(history, turn);
    if found {
      live.idle := true;
    } else {
      var controller := new TurnController(live, turn);
      controller.Finalize(status, message, outcome, ids);
    }
  }

  /** What a process does that has run the turn, or was cancelled in it: a new controller, and no look at the history. */
  method CloseAfterRun(live: LiveThread, ghost history: seq<Item>, turn: string, status: RunStatus,
                       message: string, outcome: string, ids: (string, string))
    requires Clean(Load(live.file.bytes)) && Load(live.file.bytes).chain.items == history
    requires live.file.sequence == MaxSequence(history) && live.file.previousHash == LastHash(history)
    modifies live, live.file
    ensures live.Durable() == Conclude(old(live.Durable()), turn, status, Attempt([], message, outcome, ids, Done))
  {
    AllAccepted(live.file.bytes);
    assert live.file.bytes[..|live.file.bytes|] == live.file.bytes;
    assert [] + Closing(turn, status, message, outcome, ids) == Closing(turn, status, message, outcome, ids);
    var controller := new TurnController(live, turn);
    controller.Finalize(status, message, outcome, ids);
  }
}
