/** The append-only rollout file: chain writing, verified loading and tail repair (rollout/integrity.py, threads/recorder.py). */
module RolloutFile {
  import opened Messages
  import opened RolloutRows

  // ----- Loading -----

  /** What the loader carries from row to row. */
  datatype Chain = Chain(items: seq<Item>, previousHash: string, next: nat, v2: bool)

  const START := Chain([], "", 1, false)

  datatype Verdict<C> = Accepted(chain: C) | NotARow | Refused

  function Check(c: Chain, line: string): Verdict<Chain> {
    match Parse(Content(line))
    case None => NotARow
    case Some(fields) =>
      match ItemFrom(fields)
      case None => Refused
      case Some(i) =>
        if i.version == 1 then (if c.v2 then Refused else Accepted(c.(items := c.items + [i])))
        else if i.sequence != c.next || i.previousHash != c.previousHash || Hash(i) != i.itemHash then Refused
        else Accepted(Chain(c.items + [i], i.itemHash, c.next + 1, true))
  }

  /** `kept` bytes are good; `tail` is an unreadable last line. */
  datatype Loaded<C> = Loaded(chain: C, kept: nat, tail: string) | Corrupt

  /** Goes through the lines with any row check; only an unreadable last line is forgiven. */
  function Scan<C>(check: (C, string) -> Verdict<C>, c: C, kept: nat, lines: seq<string>): Loaded<C>
    decreases |lines|
  {
    if lines == [] then Loaded(c, kept, "")
    else match check(c, lines[0]) {
      case Accepted(d) => Scan(check, d, kept + |lines[0]|, lines[1..])
      case NotARow => if |lines| == 1 then Loaded(c, kept, lines[0]) else Corrupt
      case Refused => Corrupt
    }
  }

  function Load(raw: string): Loaded<Chain> { Scan(Check, START, 0, SplitLines(raw)) }

  // ----- Writing -----

  function Seal(i: Item, sequence: nat, previousHash: string): Item {
    var open := i.(version := 2, sequence := sequence, previousHash := previousHash, itemHash := "");
    open.(itemHash := Hash(open))
  }

  function Stamp(sequence: nat, previousHash: string, items: seq<Item>): seq<Item>
    decreases |items|
  {
    if items == [] then []
    else
      var first := Seal(items[0], sequence + 1, previousHash);
      [first] + Stamp(sequence + 1, first.itemHash, items[1..])
  }

  /** The hash a stamped batch ends with. */
  function EndHash(sequence: nat, previousHash: string, items: seq<Item>): string
    decreases |items|
  {
    if items == [] then previousHash
    else EndHash(sequence + 1, Seal(items[0], sequence + 1, previousHash).itemHash, items[1..])
  }

  /** The item as it was handed over; only the four chain fields are the recorder's. */
  predicate SameContent(durable: Item, given: Item) {
    durable.itemId == given.itemId && durable.itemType == given.itemType && durable.turnId == given.turnId && durable.payload == given.payload
  }

  /** Durable rows of these items, one for each and in their order, numbered and linked behind a row with this number and hash. */
  predicate StandFor(durable: seq<Item>, given: seq<Item>, sequence: nat, previousHash: string) {
    |durable| == |given| && forall k :: 0 <= k < |given| ==> RowFor(durable, given, k, sequence, previousHash)
  }

  predicate RowFor(durable: seq<Item>, given: seq<Item>, k: nat, sequence: nat, previousHash: string)
    requires k < |durable| == |given|
  {
    && SameContent(durable[k], given[k]) && durable[k].version == 2 && durable[k].sequence == sequence + 1 + k
    && durable[k].previousHash == if k == 0 then previousHash else durable[k - 1].itemHash
  }

  lemma {:induction false} StampStandsFor(sequence: nat, previousHash: string, items: seq<Item>)
    ensures StandFor(Stamp(sequence, previousHash, items), items, sequence, previousHash)
    decreases |items|
  {
    if items != [] {
      var first := Seal(items[0], sequence + 1, previousHash);
      StampStandsFor(sequence + 1, first.itemHash, items[1..]);
      var rest := Stamp(sequence + 1, first.itemHash, items[1..]);
      StandForFirst(first, items[0], rest, items[1..], sequence, previousHash);
      assert items == [items[0]] + items[1..];
    }
  }

  lemma StandForFirst(first: Item, given: Item, rest: seq<Item>, more: seq<Item>, sequence: nat, previousHash: string)
    requires SameContent(first, given) && first.version == 2 && first.sequence == sequence + 1 && first.previousHash == previousHash
    requires StandFor(rest, more, sequence + 1, first.itemHash)
    ensures StandFor([first] + rest, [given] + more, sequence, previousHash)
  {
    var durable, all := [first] + rest, [given] + more;
    forall k | 0 <= k < |all|
      ensures RowFor(durable, all, k, sequence, previousHash)
    {
      if k > 0 {
        assert RowFor(rest, more, k - 1, sequence + 1, first.itemHash);
        assert durable[k] == rest[k - 1] && all[k] == more[k - 1];
        assert durable[k - 1] == if k == 1 then first else rest[k - 2];
      }
    }
  }

  function Line(i: Item): string { Encode(i) + "\n" }

  function Lines(items: seq<Item>): (r: seq<string>)
    ensures |r| == |items|
    ensures forall k :: 0 <= k < |items| ==> r[k] == Line(items[k])
  {
    seq(|items|, k requires 0 <= k < |items| => Line(items[k]))
  }

  function Rows(items: seq<Item>): string { Concat(Lines(items)) }

  function MaxSequence(items: seq<Item>): nat {
    if items == [] then 0
    else
      var rest := MaxSequence(items[..|items| - 1]);
      if items[|items| - 1].sequence > rest then items[|items| - 1].sequence else rest
  }

  function LastHash(items: seq<Item>): string {
    if items == [] then ""
    else if items[|items| - 1].itemHash != "" then items[|items| - 1].itemHash
    else LastHash(items[..|items| - 1])
  }

  lemma Remaining(raw: string, valid: nat, lines: seq<string>)
    requires valid <= |raw| && lines != [] && raw[valid..] == Concat(lines)
    ensures valid + |lines[0]| <= |raw| && raw[valid + |lines[0]|..] == Concat(lines[1..])
    ensures |lines| == 1 ==> raw[valid..] == lines[0]
  {
    assert raw[valid..] == lines[0] + Concat(lines[1..]);
    DropFirst(raw, valid, lines[0], Concat(lines[1..]));
  }

  lemma DropFirst(raw: string, valid: nat, line: string, rest: string)
    requires valid <= |raw| && raw[valid..] == line + rest
    ensures valid + |line| <= |raw| && raw[valid + |line|..] == rest
    ensures rest == "" ==> raw[valid..] == line
  {
    assert raw[valid..][|line|..] == rest;
    assert line + "" == line;
  }

  class RolloutFile {
    var bytes: string
    var quarantine: seq<string>
    var sequence: nat
    var previousHash: string

    constructor (bytes: string)
      ensures this.bytes == bytes && quarantine == []
    {
      this.bytes, quarantine, sequence, previousHash := bytes, [], 0, "";
    }

    /** None is the integrity error. A repaired tail is cut off and set aside. */
    method LoadVerified() returns (items: Option<seq<Item>>)
      modifies this`bytes, this`quarantine
      ensures match Load(old(bytes)) {
                case Corrupt => items == None && bytes == old(bytes) && quarantine == old(quarantine)
                case Loaded(c, kept, tail) =>
                  && items == Some(c.items) && kept <= |old(bytes)| && bytes == old(bytes)[..kept]
                  && old(bytes)[kept..] == tail && quarantine == old(quarantine) + if tail == "" then [] else [tail]
              }
    {
      var chain := LoadRows(Check, START);
      return if chain.Some? then Some(chain.value.items) else None;
    }

    /** The loop over the rows, for any row check. */
    method LoadRows<C>(check: (C, string) -> Verdict<C>, start: C) returns (result: Option<C>)
      modifies this`bytes, this`quarantine
      ensures match Scan(check, start, 0, SplitLines(old(bytes))) {
                case Corrupt => result == None && bytes == old(bytes) && quarantine == old(quarantine)
                case Loaded(c, kept, tail) =>
                  && result == Some(c) && kept <= |old(bytes)| && bytes == old(bytes)[..kept]
                  && old(bytes)[kept..] == tail && quarantine == old(quarantine) + if tail == "" then [] else [tail]
              }
    {
      var raw := bytes;
      var lines := SplitLines(raw);
      SplitConcat(raw);
      var chain, valid: nat := start, 0;
      while lines != []
        invariant bytes == raw && quarantine == old(quarantine)
        invariant valid <= |raw| && raw[valid..] == Concat(lines)
        invariant Scan(check, chain, valid, lines) == Scan(check, start, 0, SplitLines(raw))
        decreases |lines|
      {
        Remaining(raw, valid, lines);
        var verdict := check(chain, lines[0]);
        if verdict.Refused? || (verdict.NotARow? && |lines| > 1) {
          return None;
        }
        if verdict.NotARow? {
          Repair(valid);
          return Some(chain);
        }
        chain, valid, lines := verdict.chain, valid + |lines[0]|, lines[1..];
      }
      return Some(chain);
    }

    /** Sets the unreadable tail aside and cuts it off. */
    method Repair(valid: nat)
      requires valid <= |bytes|
      modifies this`bytes, this`quarantine
      ensures bytes == old(bytes)[..valid]
      ensures quarantine == old(quarantine) + if old(bytes)[valid..] == "" then [] else [old(bytes)[valid..]]
    {
      Quarantine(bytes[valid..]);
      bytes := bytes[..valid];
    }

    method Quarantine(tail: string)
      modifies this`quarantine
      ensures quarantine == old(quarantine) + if tail == "" then [] else [tail]
    {
      if tail != "" {
        quarantine := quarantine + [tail];
      }
    }

    /** What a new recorder does first: load, then continue the numbering and the chain. */
    method Open() returns (ok: bool)
      modifies this
      ensures match Load(old(bytes)) {
                case Corrupt => !ok && bytes == old(bytes)
                case Loaded(c, kept, tail) =>
                  && ok && kept <= |old(bytes)| && bytes == old(bytes)[..kept]
                  && sequence == MaxSequence(c.items) && previousHash == LastHash(c.items)
              }
    {
      var existing := LoadVerified();
      if existing.None? {
        return false;
      }
      sequence := HighestSequence(existing.value);
      previousHash := LastNonEmptyHash(existing.value);
      return true;
    }

    static method HighestSequence(items: seq<Item>) returns (sequence: nat)
      ensures sequence == MaxSequence(items)
    {
      sequence := 0;
      for k := 0 to |items|
        invariant sequence == MaxSequence(items[..k])
      {
        assert items[..k + 1][..k] == items[..k];
        if items[k].sequence > sequence {
          sequence := items[k].sequence;
        }
      }
      assert items[..|items|] == items;
    }

    static method LastNonEmptyHash(items: seq<Item>) returns (hash: string)
      ensures hash == LastHash(items)
    {
      var k := |items|;
      assert items[..k] == items;
      while k > 0
        invariant 0 <= k <= |items|
        invariant LastHash(items) == LastHash(items[..k])
      {
        if items[k - 1].itemHash != "" {
          return items[k - 1].itemHash;
        }
        assert items[..k][..k - 1] == items[..k - 1];
        k := k - 1;
      }
      return "";
    }

    /** Appends one batch: each item gets the next number and the hash of its predecessor. */
    method AppendItems(items: seq<Item>)
      modifies this`bytes, this`sequence, this`previousHash
      ensures bytes == old(bytes) + Rows(Stamp(old(sequence), old(previousHash), items))
      ensures sequence == old(sequence) + |items|
      ensures previousHash == EndHash(old(sequence), old(previousHash), items)
    {
      ghost var target := bytes + Rows(Stamp(sequence, previousHash, items));
      var rest := items;
      while rest != []
        invariant sequence + |rest| == old(sequence) + |items|
        invariant EndHash(sequence, previousHash, rest) == EndHash(old(sequence), old(previousHash), items)
        invariant bytes + Rows(Stamp(sequence, previousHash, rest)) == target
        decreases |rest|
      {
        AppendFirst(rest);
        rest := rest[1..];
      }
      assert bytes + "" == bytes;
    }

    /** The first item of what is left; the others will continue from it. */
    method AppendFirst(rest: seq<Item>)
      requires rest != []
      modifies this`bytes, this`sequence, this`previousHash
      ensures sequence == old(sequence) + 1
      ensures EndHash(sequence, previousHash, rest[1..]) == EndHash(old(sequence), old(previousHash), rest)
      ensures bytes + Rows(Stamp(sequence, previousHash, rest[1..])) == old(bytes) + Rows(Stamp(old(sequence), old(previousHash), rest))
    {
      StampFirst(sequence, previousHash, rest);
      ghost var first := Seal(rest[0], sequence + 1, previousHash);
      Regroup(bytes, Line(first), Rows(Stamp(sequence + 1, first.itemHash, rest[1..])));
      AppendItem(rest[0]);
    }

    method AppendItem(item: Item)
      modifies this`bytes, this`sequence, this`previousHash
      ensures sequence == old(sequence) + 1
      ensures bytes == old(bytes) + Line(Seal(item, sequence, old(previousHash)))
      ensures previousHash == Seal(item, sequence, old(previousHash)).itemHash
    {
      sequence := sequence + 1;
      var durable := Seal(item, sequence, previousHash);
      bytes := bytes + (Encode(durable) + "\n");
      previousHash := durable.itemHash;
    }
  }

  lemma StampFirst(sequence: nat, previousHash: string, items: seq<Item>)
    requires items != []
    ensures var first := Seal(items[0], sequence + 1, previousHash);
            Rows(Stamp(sequence, previousHash, items)) == Line(first) + Rows(Stamp(sequence + 1, first.itemHash, items[1..]))
  {
    RowsFirst(Stamp(sequence, previousHash, items));
  }

  lemma RowsFirst(items: seq<Item>)
    requires items != []
    ensures Rows(items) == Line(items[0]) + Rows(items[1..])
  {
    assert Lines(items)[1..] == Lines(items[1..]);
  }
}
