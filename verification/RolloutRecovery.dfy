/** What survives a crash of the rollout file, and what a verified chain pins down. */
module RolloutRecovery {
  import opened Messages
  import opened RolloutRows
  import opened RolloutFile

  // ----- From lines to items -----

  /** The loader's step on an item that a row has already been read into. */
  function Link(c: Chain, i: Item): Verdict<Chain> {
    if i.version == 1 then (if c.v2 then Refused else Accepted(c.(items := c.items + [i])))
    else if i.sequence != c.next || i.previousHash != c.previousHash || Hash(i) != i.itemHash then Refused
    else Accepted(Chain(c.items + [i], i.itemHash, c.next + 1, true))
  }

  function Extend(c: Chain, items: seq<Item>): Option<Chain>
    decreases |items|
  {
    if items == [] then Some(c)
    else match Link(c, items[0]) {
      case Accepted(d) => Extend(d, items[1..])
      case _ => None
    }
  }

  lemma RowEnd(i: Item)
    ensures Encode(i)[|Encode(i)| - 1] == '}'
  {
  }

  lemma CheckRow(c: Chain, i: Item)
    ensures Check(c, Line(i)) == Link(c, i) && Check(c, Encode(i)) == Link(c, i)
  {
    ItemRoundTrip(i);
    RowEnd(i);
    assert Line(i)[..|Line(i)| - 1] == Encode(i);
  }

  lemma {:induction false} ExtendAppend(c: Chain, items: seq<Item>, more: seq<Item>)
    requires Extend(c, items).Some?
    ensures Extend(c, items + more) == Extend(Extend(c, items).value, more)
    ensures Extend(c, items).value.items == c.items + items
    decreases |items|
  {
    if items == [] {
      assert items + more == more;
    } else {
      assert (items + more)[1..] == items[1..] + more;
      ExtendAppend(Link(c, items[0]).chain, items[1..], more);
    }
  }

  lemma {:induction false} ExtendPrefix(c: Chain, items: seq<Item>, j: nat)
    requires Extend(c, items).Some? && j <= |items|
    ensures Extend(c, items[..j]).Some? && Extend(c, items[..j]).value.items == c.items + items[..j]
    ensures Extend(Extend(c, items[..j]).value, items[j..]) == Extend(c, items)
  {
    ExtendSome(c, items, j);
    ExtendAppend(c, items[..j], items[j..]);
    assert items[..j] + items[j..] == items;
  }

  lemma {:induction false} ExtendSome(c: Chain, items: seq<Item>, j: nat)
    requires Extend(c, items).Some? && j <= |items|
    ensures Extend(c, items[..j]).Some?
    decreases |items|
  {
    if j > 0 {
      assert items[..j][1..] == items[1..][..j - 1];
      ExtendSome(Link(c, items[0]).chain, items[1..], j - 1);
    }
  }

  lemma RowHead(i: Item, tail: string)
    ensures SplitLines(Line(i) + tail) == [Line(i)] + SplitLines(tail)
  {
    EncodePlain(i);
    LineEndPlain(Encode(i), tail);
    SplitHead(Line(i), tail);
  }

  lemma LinesFirst(items: seq<Item>, more: seq<string>)
    requires items != []
    ensures Lines(items) + more == [Line(items[0])] + (Lines(items[1..]) + more)
  {
  }

  lemma {:induction false} SplitRows(items: seq<Item>, rest: string)
    ensures SplitLines(Rows(items) + rest) == Lines(items) + SplitLines(rest)
  {
    if items == [] {
      assert Rows(items) + rest == rest;
    } else {
      RowsFirst(items);
      Regroup(Line(items[0]), Rows(items[1..]), rest);
      RowHead(items[0], Rows(items[1..]) + rest);
      SplitRows(items[1..], rest);
      LinesFirst(items, SplitLines(rest));
    }
  }

  /** The chain after lines that are all accepted. */
  function Accepts<C>(check: (C, string) -> Verdict<C>, c: C, lines: seq<string>): Option<C>
    decreases |lines|
  {
    if lines == [] then Some(c)
    else match check(c, lines[0]) {
      case Accepted(d) => Accepts(check, d, lines[1..])
      case _ => None
    }
  }

  lemma {:induction false} ScanAccepts<C>(check: (C, string) -> Verdict<C>, c: C, d: C, kept: nat, end: nat,
      all: seq<string>, lines: seq<string>, more: seq<string>)
    requires Accepts(check, c, lines) == Some(d) && all == lines + more && end == kept + |Concat(lines)|
    ensures Scan(check, c, kept, all) == Scan(check, d, end, more)
    decreases |lines|
  {
    if lines == [] {
      assert all == more;
    } else {
      assert all[1..] == lines[1..] + more;
      ScanAccepts(check, check(c, lines[0]).chain, d, kept + |lines[0]|, end, all[1..], lines[1..], more);
    }
  }

  lemma {:induction false} AcceptsRows(c: Chain, items: seq<Item>)
    ensures Accepts(Check, c, Lines(items)) == Extend(c, items)
    decreases |items|
  {
    if items != [] {
      CheckRow(c, items[0]);
      assert Lines(items)[1..] == Lines(items[1..]);
      if Link(c, items[0]).Accepted? {
        AcceptsRows(Link(c, items[0]).chain, items[1..]);
      }
    }
  }

  predicate Split(raw: string, head: string, tail: string) {
    |raw| == |head| + |tail| && head <= raw && raw[|head|..] == tail
  }

  lemma RowLines(c: Chain, items: seq<Item>, raw: string, rows: string, rest: string) returns (lines: seq<string>)
    requires Extend(c, items).Some? && rows == Rows(items) && Split(raw, rows, rest)
    ensures SplitLines(raw) == lines + SplitLines(rest)
    ensures Accepts(Check, c, lines) == Extend(c, items) && |Concat(lines)| == |rows|
  {
    lines := Lines(items);
    assert raw == rows + rest;
    SplitRows(items, rest);
    AcceptsRows(c, items);
  }

  /** Scanning a file that begins with accepted rows goes on with what follows them. */
  lemma ScanRows(c: Chain, d: Chain, kept: nat, end: nat, items: seq<Item>, raw: string, rows: string, rest: string)
    requires Extend(c, items) == Some(d) && rows == Rows(items) && Split(raw, rows, rest) && end == kept + |rows|
    ensures Scan(Check, c, kept, SplitLines(raw)) == Scan(Check, d, end, SplitLines(rest))
  {
    var lines := RowLines(c, items, raw, rows, rest);
    ScanAccepts(Check, c, d, kept, end, SplitLines(raw), lines, SplitLines(rest));
  }

  // ----- Crash prefixes -----

  lemma RowsAppend(items: seq<Item>, j: nat)
    requires j < |items|
    ensures Rows(items[..j + 1]) == Rows(items[..j]) + Line(items[j])
  {
    RowsJoin(items[..j], [items[j]]);
    assert items[..j + 1] == items[..j] + [items[j]];
    RowsFirst([items[j]]);
    assert Line(items[j]) + "" == Line(items[j]);
  }

  lemma {:induction false} ConcatAppend(a: seq<string>, b: seq<string>)
    ensures Concat(a + b) == Concat(a) + Concat(b)
  {
    if a == [] {
      assert a + b == b;
    } else {
      assert (a + b)[1..] == a[1..] + b;
      ConcatAppend(a[1..], b);
    }
  }

  lemma LinesJoin(a: seq<Item>, b: seq<Item>)
    ensures Lines(a + b) == Lines(a) + Lines(b)
  {
    forall k | 0 <= k < |a + b|
      ensures Lines(a + b)[k] == (Lines(a) + Lines(b))[k]
    {
      if k < |a| {
        assert (a + b)[k] == a[k];
      } else {
        assert (a + b)[k] == b[k - |a|];
      }
    }
  }

  lemma RowsJoin(a: seq<Item>, b: seq<Item>)
    ensures Rows(a + b) == Rows(a) + Rows(b)
  {
    LinesJoin(a, b);
    ConcatAppend(Lines(a), Lines(b));
  }

  lemma RowsSplit(items: seq<Item>, j: nat)
    requires j <= |items|
    ensures Rows(items) == Rows(items[..j]) + Rows(items[j..])
  {
    RowsJoin(items[..j], items[j..]);
    assert items[..j] + items[j..] == items;
  }

  /** A byte position falls into exactly one row. */
  lemma {:induction false} FindRow(items: seq<Item>, n: nat, j: nat) returns (row: nat)
    requires j <= |items| && |Rows(items[..j])| <= n <= |Rows(items)|
    ensures row <= |items| && |Rows(items[..row])| <= n
    ensures row < |items| ==> n < |Rows(items[..row + 1])|
    decreases |items| - j
  {
    if j == |items| || n < |Rows(items[..j + 1])| {
      row := j;
    } else {
      row := FindRow(items, n, j + 1);
    }
  }

  /** The file cut inside row `j`, after `r` of its characters. */
  lemma CutRow(items: seq<Item>, j: nat, r: nat)
    requires j < |items| && r < |Line(items[j])|
    ensures |Rows(items[..j])| + r < |Rows(items)|
    ensures Rows(items)[..|Rows(items[..j])| + r] == Rows(items[..j]) + Line(items[j])[..r]
    ensures Rows(items)[|Rows(items[..j])| + r] == Line(items[j])[r]
  {
    RowsAppend(items, j);
    RowsSplit(items, j + 1);
  }

  lemma PartialRow(c: Chain, kept: nat, i: Item, partial: string)
    requires |partial| < |Encode(i)| && partial == Encode(i)[..|partial|]
    ensures Scan(Check, c, kept, SplitLines(partial)) == Loaded(c, kept, partial)
  {
    if partial != "" {
      EncodePlain(i);
      LineEndPlain(partial, "");
      assert partial[..|partial|] == partial && partial[|partial|..] == "";
      ParsePrefix(ItemFields(i), |partial|);
      assert SplitLines(partial) == [partial];
    }
  }

  lemma PrefixLoads(items: seq<Item>, j: nat, raw: string, rows: string, partial: string)
    requires Extend(START, items).Some? && j < |items| && rows == Rows(items[..j])
    requires |partial| < |Encode(items[j])| && partial == Encode(items[j])[..|partial|] && Split(raw, rows, partial)
    ensures Extend(START, items[..j]).Some? && Extend(START, items[..j]).value.items == items[..j]
    ensures Load(raw) == Loaded(Extend(START, items[..j]).value, |rows|, partial)
  {
    ExtendPrefix(START, items, j);
    var d := Extend(START, items[..j]).value;
    ScanRows(START, d, 0, |rows|, items[..j], raw, rows, partial);
    PartialRow(d, |rows|, items[j], partial);
  }

  lemma WholeLoads(items: seq<Item>, rows: string)
    requires Extend(START, items).Some? && rows == Rows(items)
    ensures Load(rows) == Loaded(Extend(START, items).value, |rows|, "")
    ensures Extend(START, items).value.items == items
  {
    ScanRows(START, Extend(START, items).value, 0, |rows|, items, rows, rows, "");
    ExtendPrefix(START, items, |items|);
    assert items[..|items|] == items;
  }

  /** The complete rows before a byte position, and the part of the cut row. */
  lemma Cut(items: seq<Item>, file: string, n: nat) returns (j: nat, rows: string, partial: string)
    requires file == Rows(items) && n <= |file| && (n < |file| ==> file[n] != '\n')
    ensures j <= |items| && rows == Rows(items[..j]) && Split(file[..n], rows, partial)
    ensures j < |items| ==> |partial| < |Encode(items[j])| && partial == Encode(items[j])[..|partial|]
    ensures j == |items| ==> partial == "" && file[..n] == rows
  {
    j := FindRow(items, n, 0);
    rows := Rows(items[..j]);
    if j == |items| {
      assert items[..j] == items;
      partial := "";
    } else {
      RowsAppend(items, j);
      CutRow(items, j, n - |rows|);
      partial := Line(items[j])[..n - |rows|];
    }
  }

  /**
   * A recorded file cut at any byte, but not just before a line break: exactly the items whose rows
   * are complete come back, the rest of the cut row is the tail to set aside.
   */
  lemma CrashPrefix(items: seq<Item>, file: string, n: nat) returns (j: nat, rows: string, tail: string)
    requires Extend(START, items).Some? && file == Rows(items)
    requires n <= |file| && (n < |file| ==> file[n] != '\n')
    ensures j <= |items| && rows == Rows(items[..j]) && Split(file[..n], rows, tail)
    ensures j < |items| ==> |tail| < |Encode(items[j])| && tail == Encode(items[j])[..|tail|]
    ensures j == |items| ==> tail == ""
    ensures Extend(START, items[..j]).Some? && Extend(START, items[..j]).value.items == items[..j]
    ensures Load(file[..n]) == Loaded(Extend(START, items[..j]).value, |rows|, tail)
  {
    j, rows, tail := Cut(items, file, n);
    if j == |items| {
      assert items[..j] == items;
      WholeLoads(items, rows);
    } else {
      PrefixLoads(items, j, file[..n], rows, tail);
    }
  }

  // ----- Loading twice -----

  /** The lines a scan accepts before it ends. */
  lemma {:induction false} AcceptedLines<C>(check: (C, string) -> Verdict<C>, c: C, kept: nat, lines: seq<string>) returns (j: nat)
    requires Scan(check, c, kept, lines).Loaded?
    ensures j <= |lines| && Accepts(check, c, lines[..j]) == Some(Scan(check, c, kept, lines).chain)
    ensures Scan(check, c, kept, lines).kept == kept + |Concat(lines[..j])|
    ensures j == |lines| ==> Scan(check, c, kept, lines).tail == ""
    ensures j < |lines| ==> j == |lines| - 1 && Scan(check, c, kept, lines).tail == lines[j] && check(Scan(check, c, kept, lines).chain, lines[j]).NotARow?
    decreases |lines|
  {
    j := 0;
    if lines != [] && check(c, lines[0]).Accepted? {
      var k := AcceptedLines(check, check(c, lines[0]).chain, kept + |lines[0]|, lines[1..]);
      j := k + 1;
      assert lines[..j][1..] == lines[1..][..k];
    }
  }

  /** Loading a file that was just repaired finds the same items and nothing more to repair; this holds of any bytes. */
  lemma SecondLoad(raw: string)
    requires Load(raw).Loaded?
    ensures var first := Load(raw);
            first.kept <= |raw| && raw[first.kept..] == first.tail && Load(raw[..first.kept]) == Loaded(first.chain, first.kept, "")
  {
    var lines := SplitLines(raw);
    var j := AcceptedLines(Check, START, 0, lines);
    TailOf(raw, j);
    if j < |lines| {
      assert lines[j..] == [lines[j]];
      assert Concat(lines[j..]) == lines[j];
    }
    LoadHead(raw, Load(raw).chain, j, Concat(lines[..j]));
  }

  lemma LoadHead(raw: string, c: Chain, j: nat, head: string)
    requires j <= |SplitLines(raw)| && head == Concat(SplitLines(raw)[..j])
    requires Accepts(Check, START, SplitLines(raw)[..j]) == Some(c)
    ensures |head| <= |raw| && raw[..|head|] == head && Load(head) == Loaded(c, |head|, "")
  {
    var lines := SplitLines(raw)[..j];
    SplitPrefix(raw, j);
    ScanAccepts(Check, START, c, 0, |head|, lines, lines, []);
  }

  lemma TailOf(raw: string, j: nat)
    requires j <= |SplitLines(raw)|
    ensures |Concat(SplitLines(raw)[..j])| <= |raw|
    ensures raw[|Concat(SplitLines(raw)[..j])|..] == Concat(SplitLines(raw)[j..])
  {
    var lines := SplitLines(raw);
    SplitConcat(raw);
    ConcatAppend(lines[..j], lines[j..]);
    assert lines == lines[..j] + lines[j..];
  }

  // ----- What an accepted chain looks like -----

  /** `n` legacy items, then items numbered 1, 2, ... each naming its predecessor's hash and carrying its own. */
  predicate Linked(items: seq<Item>, n: nat) {
    && n <= |items|
    && (forall k :: 0 <= k < n ==> items[k].version == 1)
    && (forall k :: n <= k < |items| ==> LinkedAt(items, n, k))
  }

  predicate LinkedAt(items: seq<Item>, n: nat, k: nat)
    requires n <= k < |items|
  {
    && items[k].version != 1
    && items[k].sequence == k - n + 1
    && items[k].previousHash == (if k == n then "" else items[k - 1].itemHash)
    && items[k].itemHash == Hash(items[k])
  }

  predicate ChainAt(c: Chain, n: nat) {
    && Linked(c.items, n)
    && c.next == |c.items| - n + 1
    && c.v2 == (n < |c.items|)
    && c.previousHash == (if n < |c.items| then c.items[|c.items| - 1].itemHash else "")
  }

  lemma LinkKeeps(c: Chain, n: nat, i: Item) returns (m: nat)
    requires ChainAt(c, n) && Link(c, i).Accepted?
    ensures ChainAt(Link(c, i).chain, m)
  {
    m := if i.version == 1 then n + 1 else n;
    var d := Link(c, i).chain;
    assert forall k :: n <= k < |c.items| ==> LinkedAt(c.items, n, k);
    forall k | m <= k < |d.items|
      ensures LinkedAt(d.items, m, k)
    {
      if k < |c.items| {
        assert LinkedAt(c.items, n, k);
      }
    }
  }

  lemma CheckIsLink(c: Chain, line: string) returns (i: Item)
    requires Check(c, line).Accepted?
    ensures Check(c, line) == Link(c, i)
  {
    i := ItemFrom(Parse(Content(line)).value).value;
  }

  lemma {:induction false} AcceptsLinked(c: Chain, n: nat, lines: seq<string>) returns (m: nat)
    requires ChainAt(c, n) && Accepts(Check, c, lines).Some?
    ensures ChainAt(Accepts(Check, c, lines).value, m)
    decreases |lines|
  {
    if lines == [] {
      m := n;
    } else {
      var i := CheckIsLink(c, lines[0]);
      m := LinkKeeps(c, n, i);
      m := AcceptsLinked(Check(c, lines[0]).chain, m, lines[1..]);
    }
  }

  /** Every file that loads holds legacy rows, then one chain numbered without gaps; this holds of any bytes. */
  lemma LoadLinked(raw: string) returns (n: nat)
    requires Load(raw).Loaded?
    ensures ChainAt(Load(raw).chain, n)
  {
    var j := AcceptedLines(Check, START, 0, SplitLines(raw));
    n := AcceptsLinked(START, 0, SplitLines(raw)[..j]);
  }

  /** Two chains of the same length with the same last hash are the same list of items. */
  lemma {:induction false} ChainUnique(a: seq<Item>, n: nat, b: seq<Item>, m: nat)
    requires Linked(a, n) && Linked(b, m) && |a| - n == |b| - m
    requires n < |a| ==> a[|a| - 1].itemHash == b[|b| - 1].itemHash
    ensures a[n..] == b[m..]
    decreases |a|
  {
    if n < |a| {
      var x, y := |a| - 1, |b| - 1;
      assert LinkedAt(a, n, x) && LinkedAt(b, m, y);
      HashInjective(a[x], b[y]);
      assert a[x] == b[y];
      LinkedPrefix(a, n);
      LinkedPrefix(b, m);
      ChainUnique(a[..x], n, b[..y], m);
      assert a[n..] == a[..x][n..] + [a[x]] && b[m..] == b[..y][m..] + [b[y]];
    }
  }

  lemma LinkedPrefix(a: seq<Item>, n: nat)
    requires Linked(a, n) && n < |a|
    ensures Linked(a[..|a| - 1], n)
  {
    var b := a[..|a| - 1];
    forall k | n <= k < |b|
      ensures LinkedAt(b, n, k)
    {
      assert LinkedAt(a, n, k);
    }
  }

  /** Two files whose chains have equal length and equal last hash hold the same chain. */
  lemma LoadedChainUnique(a: string, b: string) returns (n: nat, m: nat)
    requires Load(a).Loaded? && Load(b).Loaded?
    requires Load(a).chain.next == Load(b).chain.next && Load(a).chain.previousHash == Load(b).chain.previousHash
    ensures n <= |Load(a).chain.items| && m <= |Load(b).chain.items|
    ensures forall k :: 0 <= k < n ==> Load(a).chain.items[k].version == 1
    ensures forall k :: 0 <= k < m ==> Load(b).chain.items[k].version == 1
    ensures Load(a).chain.items[n..] == Load(b).chain.items[m..]
  {
    n := LoadLinked(a);
    m := LoadLinked(b);
    ChainUnique(Load(a).chain.items, n, Load(b).chain.items, m);
  }

  // ----- Appending after a restart -----

  /** Rows of the older format carry neither a number nor a hash. */
  predicate PlainLegacy(items: seq<Item>) {
    forall k :: 0 <= k < |items| && items[k].version == 1 ==> items[k].sequence == 0 && items[k].itemHash == ""
  }

  /** A reopened recorder continues the chain where the loader left it. */
  lemma {:induction false} Continues(items: seq<Item>, n: nat)
    requires Linked(items, n) && PlainLegacy(items)
    ensures MaxSequence(items) == |items| - n
    ensures LastHash(items) == if n < |items| then items[|items| - 1].itemHash else ""
    decreases |items|
  {
    if items != [] {
      var x := |items| - 1;
      if n <= x {
        assert LinkedAt(items, n, x);
        LinkedPrefix(items, n);
        Continues(items[..x], n);
      } else {
        Continues(items[..x], x);
      }
    }
  }

  /** What a reopened recorder would go on with is what the loader expects next. */
  predicate InStep(c: Chain) { MaxSequence(c.items) + 1 == c.next && LastHash(c.items) == c.previousHash }

  lemma PlainLegacyInStep(raw: string)
    requires Load(raw).Loaded? && PlainLegacy(Load(raw).chain.items)
    ensures InStep(Load(raw).chain)
  {
    var n := LoadLinked(raw);
    Continues(Load(raw).chain.items, n);
  }

  lemma {:induction false} StampExtends(c: Chain, sequence: nat, previousHash: string, items: seq<Item>)
    requires c.next == sequence + 1 && c.previousHash == previousHash
    ensures Extend(c, Stamp(sequence, previousHash, items)).Some?
    decreases |items|
  {
    if items != [] {
      var first := Seal(items[0], sequence + 1, previousHash);
      SealHash(items[0], sequence + 1, previousHash);
      StampExtends(Chain(c.items + [first], first.itemHash, c.next + 1, true), sequence + 1, first.itemHash, items[1..]);
    }
  }

  lemma SealHash(i: Item, sequence: nat, previousHash: string)
    ensures var s := Seal(i, sequence, previousHash); Hash(s) == s.itemHash && s.version == 2
  {
    var s := Seal(i, sequence, previousHash);
    assert s.(itemHash := "") == i.(version := 2, sequence := sequence, previousHash := previousHash, itemHash := "");
  }

  predicate Ended(raw: string) { raw == "" || IsBreak(raw[|raw| - 1]) }

  lemma {:induction false} LineEndAppend(raw: string, x: string)
    requires raw != "" && (LineEnd(raw) < |raw| || (Ended(raw) && (x == "" || x[0] != '\n')))
    ensures LineEnd(raw + x) == LineEnd(raw)
  {
    if !IsBreak(raw[0]) {
      assert (raw + x)[1..] == raw[1..] + x;
      LineEndAppend(raw[1..], x);
    }
  }

  lemma {:induction false} EndedSplit(raw: string, x: string)
    requires Ended(raw) && (x == "" || x[0] != '\n')
    ensures SplitLines(raw + x) == SplitLines(raw) + SplitLines(x)
  {
    if raw == "" {
      assert raw + x == x;
    } else {
      var n := LineEnd(raw);
      LineEndAppend(raw, x);
      assert (raw + x)[..n] == raw[..n] && (raw + x)[n..] == raw[n..] + x;
      EndedSplit(raw[n..], x);
    }
  }

  lemma {:induction false} OpenLine(raw: string)
    requires raw != "" && !Ended(raw) && LineEnd(raw) == |raw|
    ensures forall k :: 0 <= k < |raw| ==> !IsBreak(raw[k])
  {
    if |raw| > 1 && !IsBreak(raw[0]) {
      OpenLine(raw[1..]);
      assert forall k :: 1 <= k < |raw| ==> raw[k] == raw[1..][k - 1];
    }
  }

  /** Bytes appended to an open last line join it. */
  lemma {:induction false} OpenSplit(raw: string, x: string) returns (init: seq<string>, last: string)
    requires !Ended(raw)
    ensures SplitLines(raw) == init + [last] && SplitLines(raw + x) == init + SplitLines(last + x)
    ensures last != "" && forall k :: 0 <= k < |last| ==> !IsBreak(last[k])
  {
    var n := LineEnd(raw);
    if n == |raw| {
      OpenLine(raw);
      init, last := [], raw;
      assert raw[..n] == raw;
    } else {
      var line, rest := raw[..n], raw[n..];
      var inner: seq<string>;
      inner, last := OpenSplit(rest, x);
      LineEndAppend(raw, x);
      assert raw == line + rest;
      Regroup(line, rest, x);
      SplitHead(line, rest);
      SplitHead(line, rest + x);
      init := [line] + inner;
      Reassociate(line, inner, [last]);
      Reassociate(line, inner, SplitLines(last + x));
    }
  }

  lemma Reassociate(line: string, inner: seq<string>, tail: seq<string>)
    ensures [line] + (inner + tail) == ([line] + inner) + tail
  {
  }

  lemma AllAccepted(raw: string)
    requires Load(raw).Loaded? && Load(raw).tail == ""
    ensures Accepts(Check, START, SplitLines(raw)) == Some(Load(raw).chain) && Load(raw).kept == |raw|
  {
    var lines := SplitLines(raw);
    var j := AcceptedLines(Check, START, 0, lines);
    SplitConcat(raw);
    if j < |lines| {
      NoEmptyLine(raw, j);
    }
    assert lines[..|lines|] == lines;
  }

  lemma {:induction false} NoEmptyLine(raw: string, j: nat)
    requires j < |SplitLines(raw)|
    ensures SplitLines(raw)[j] != ""
  {
    if j > 0 {
      NoEmptyLine(raw[LineEnd(raw)..], j - 1);
    }
  }

  /** A row glued to an open line is read as neither. */
  lemma GluedRow(c: Chain, last: string, i: Item)
    requires Parse(Content(last)).Some? && forall k :: 0 <= k < |last| ==> !IsBreak(last[k])
    ensures Check(c, last + Line(i)).NotARow?
  {
    assert Content(last) == last;
    EncodePlain(i);
    RowEnd(i);
    var line := last + Line(i);
    assert line[|line| - 2] == '}';
    assert line[..|line| - 1] == last + Encode(i);
    ParseGlued(last, Encode(i));
  }

  lemma GluedLine(last: string, i: Item, rest: string)
    requires forall k :: 0 <= k < |last| ==> !IsBreak(last[k])
    ensures SplitLines(last + (Line(i) + rest)) == [last + Line(i)] + SplitLines(rest)
  {
    EncodePlain(i);
    var text := last + Encode(i);
    LineEndPlain(text, rest);
    assert last + (Line(i) + rest) == text + "\n" + rest;
    assert last + Line(i) == text + "\n";
    SplitHead(last + Line(i), rest);
  }

  predicate Clean<C>(l: Loaded<C>) { l.Loaded? && l.tail == "" }

  lemma OpenAppend(raw: string, i: Item, rest: string)
    requires Clean(Load(raw)) && !Ended(raw)
    ensures !Clean(Load(raw + (Line(i) + rest)))
  {
    var x := Line(i) + rest;
    var init, last := OpenSplit(raw, x);
    AllAccepted(raw);
    var c := InitAccepted(init, last);
    GluedLine(last, i, rest);
    GluedRow(c, last, i);
    ScanAccepts(Check, START, c, 0, |Concat(init)|, SplitLines(raw + x), init, SplitLines(last + x));
    assert SplitLines(last + x)[0] == last + Line(i);
  }

  lemma InitAccepted(init: seq<string>, last: string) returns (c: Chain)
    requires Accepts(Check, START, init + [last]).Some?
    ensures Accepts(Check, START, init) == Some(c) && Parse(Content(last)).Some?
  {
    c := SplitAccepts(Check, START, init, last);
  }

  lemma {:induction false} SplitAccepts<C>(check: (C, string) -> Verdict<C>, a: C, init: seq<string>, last: string) returns (c: C)
    requires Accepts(check, a, init + [last]).Some?
    ensures Accepts(check, a, init) == Some(c) && check(c, last).Accepted?
    decreases |init|
  {
    if init == [] {
      assert init + [last] == [last];
      c := a;
    } else {
      assert (init + [last])[1..] == init[1..] + [last];
      c := SplitAccepts(check, check(a, init[0]).chain, init[1..], last);
    }
  }

  lemma EndedAppend(raw: string, items: seq<Item>, rows: string)
    requires Clean(Load(raw)) && Ended(raw) && items != []
    requires rows == Rows(Stamp(MaxSequence(Load(raw).chain.items), LastHash(Load(raw).chain.items), items))
    ensures Load(raw + rows) == Scan(Check, Load(raw).chain, |raw|, SplitLines(rows))
  {
    var c := Load(raw).chain;
    AllAccepted(raw);
    SplitConcat(raw);
    RowsStart(Stamp(MaxSequence(c.items), LastHash(c.items), items), rows);
    EndedSplit(raw, rows);
    ScanAccepts(Check, START, c, 0, |raw|, SplitLines(raw + rows), SplitLines(raw), SplitLines(rows));
  }

  lemma RowsStart(items: seq<Item>, rows: string)
    requires items != [] && rows == Rows(items)
    ensures rows != "" && rows[0] == '{'
  {
    RowsFirst(items);
    EncodePlain(items[0]);
  }

  /** Rows from a chain in step with the loader are all accepted. */
  lemma InStepScan(c: Chain, kept: nat, end: nat, stamped: seq<Item>, items: seq<Item>, rows: string)
    requires InStep(c) && stamped == Stamp(MaxSequence(c.items), LastHash(c.items), items) && rows == Rows(stamped)
    requires end == kept + |rows|
    ensures Extend(c, stamped).Some? && Extend(c, stamped).value.items == c.items + stamped
    ensures Scan(Check, c, kept, SplitLines(rows)) == Loaded(Extend(c, stamped).value, end, "")
  {
    StampExtends(c, MaxSequence(c.items), LastHash(c.items), items);
    ExtendAppend(c, stamped, []);
    ScanRows(c, Extend(c, stamped).value, kept, end, stamped, rows, rows, "");
  }

  /** A first row out of step is refused. */
  lemma OutOfStepScan(c: Chain, kept: nat, items: seq<Item>, rows: string)
    requires !InStep(c) && items != []
    requires rows == Rows(Stamp(MaxSequence(c.items), LastHash(c.items), items))
    ensures Scan(Check, c, kept, SplitLines(rows)) == Corrupt
  {
    var stamped := Stamp(MaxSequence(c.items), LastHash(c.items), items);
    RowsFirst(stamped);
    RowHead(stamped[0], Rows(stamped[1..]));
    SealRefused(c, items[0]);
    ScanRefused(Check, c, kept, Line(stamped[0]), SplitLines(Rows(stamped[1..])));
  }

  lemma SealRefused(c: Chain, i: Item)
    requires !InStep(c)
    ensures Check(c, Line(Seal(i, MaxSequence(c.items) + 1, LastHash(c.items)))).Refused?
  {
    CheckRow(c, Seal(i, MaxSequence(c.items) + 1, LastHash(c.items)));
  }

  lemma ScanRefused<C>(check: (C, string) -> Verdict<C>, c: C, kept: nat, line: string, more: seq<string>)
    requires check(c, line).Refused?
    ensures Scan(check, c, kept, [line] + more) == Corrupt
  {
  }

  /**
   * After any load that needed no repair, a reopened recorder's rows load, behind the old items, exactly
   * when the file ends with a line break (or is empty) and the numbers and hashes the recorder goes on
   * with are the ones the loader expects. A file cut just before a line break fails the first condition.
   */
  lemma AppendLoads(raw: string, items: seq<Item>, stamped: seq<Item>, rows: string)
    requires Clean(Load(raw)) && items != []
    requires stamped == Stamp(MaxSequence(Load(raw).chain.items), LastHash(Load(raw).chain.items), items) && rows == Rows(stamped)
    ensures Ended(raw) && InStep(Load(raw).chain) <==> Clean(Load(raw + rows))
    ensures Clean(Load(raw + rows)) ==> Load(raw + rows).chain.items == Load(raw).chain.items + stamped
  {
    var c := Load(raw).chain;
    if !Ended(raw) {
      RowsFirst(stamped);
      OpenAppend(raw, stamped[0], Rows(stamped[1..]));
    } else {
      EndedAppend(raw, items, rows);
      if InStep(c) {
        InStepScan(c, |raw|, |raw| + |rows|, stamped, items, rows);
      } else {
        OutOfStepScan(c, |raw|, items, rows);
      }
    }
  }

  lemma RowsEnded(items: seq<Item>, rows: string)
    requires rows == Rows(items)
    ensures Ended(rows)
  {
    if items != [] {
      var x := |items| - 1;
      RowsAppend(items, x);
      assert items[..x + 1] == items;
    }
  }

  /**
   * The whole life of a file: recorded, cut by a crash, repaired, and written on. What loads in the end
   * is what was complete before the crash, followed by everything recorded after it.
   */
  lemma RecoverThenAppend(items: seq<Item>, file: string, n: nat, more: seq<Item>)
      returns (j: nat, stamped: seq<Item>)
    requires Extend(START, items).Some? && PlainLegacy(items) && file == Rows(items) && more != []
    requires n <= |file| && (n < |file| ==> file[n] != '\n')
    ensures j <= |items| && Load(file[..n]).Loaded? && Load(file[..n]).kept <= n && Load(file[..n]).chain.items == items[..j]
    ensures var kept := file[..Load(file[..n]).kept];
            && stamped == Stamp(MaxSequence(items[..j]), LastHash(items[..j]), more)
            && StandFor(stamped, more, MaxSequence(items[..j]), LastHash(items[..j]))
            && Clean(Load(kept + Rows(stamped)))
            && Load(kept + Rows(stamped)).chain.items == items[..j] + stamped
  {
    var rows, tail;
    j, rows, tail := CrashPrefix(items, file, n);
    stamped := Stamp(MaxSequence(items[..j]), LastHash(items[..j]), more);
    assert file[..n][..|rows|] == file[..|rows|] == rows;
    SecondLoad(file[..n]);
    RowsEnded(items[..j], rows);
    PlainLegacyInStep(rows);
    StampStandsFor(MaxSequence(items[..j]), LastHash(items[..j]), more);
    AppendLoads(rows, more, stamped, Rows(stamped));
  }

  /** The cut the recovery does not cover: the row is read, but its line stays open, and the next append glues to it. */
  lemma CutBeforeBreak(items: seq<Item>, j: nat, more: seq<Item>)
    requires Extend(START, items).Some? && j < |items| && more != []
    ensures var raw := Rows(items[..j]) + Encode(items[j]);
            && Clean(Load(raw)) && Load(raw).chain.items == items[..j + 1]
            && !Clean(Load(raw + Rows(Stamp(MaxSequence(items[..j + 1]), LastHash(items[..j + 1]), more))))
  {
    var rows, row := Rows(items[..j]), Encode(items[j]);
    ExtendPrefix(START, items, j);
    ExtendPrefix(START, items, j + 1);
    var c := Extend(START, items[..j]).value;
    OneMore(items, j);
    ScanRows(START, c, 0, |rows|, items[..j], rows + row, rows, row);
    OpenRow(c, |rows|, items[j]);
    var stamped := Stamp(MaxSequence(items[..j + 1]), LastHash(items[..j + 1]), more);
    RowEnd(items[j]);
    AppendLoads(rows + row, more, stamped, Rows(stamped));
  }

  lemma OneMore(items: seq<Item>, j: nat)
    requires Extend(START, items).Some? && j < |items|
    ensures Extend(START, items[..j]).Some? && Link(Extend(START, items[..j]).value, items[j]).Accepted?
    ensures Extend(START, items[..j]).value.items == items[..j]
    ensures Link(Extend(START, items[..j]).value, items[j]).chain.items == items[..j + 1]
  {
    ExtendPrefix(START, items, j);
    assert items[j..][0] == items[j];
    assert items[..j] + [items[j]] == items[..j + 1];
  }

  lemma OpenRow(c: Chain, kept: nat, i: Item)
    requires Link(c, i).Accepted?
    ensures Scan(Check, c, kept, SplitLines(Encode(i))) == Loaded(Link(c, i).chain, kept + |Encode(i)|, "")
  {
    var row := Encode(i);
    EncodePlain(i);
    LineEndPlain(row, "");
    assert row[..|row|] == row && row[|row|..] == "";
    CheckRow(c, i);
    assert SplitLines(row) == [row];
  }
}
