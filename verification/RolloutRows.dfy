/**
 * Rows of a rollout file: a text encoding without line breaks, in which no row is a proper prefix of
 * another, and a hash that is injective on items. JSON and SHA-256 stand behind these in the program.
 */
module RolloutRows {
  import opened Messages

  /** `payload` is the JSON text of everything the chain does not look at. */
  datatype Item = Item(
    itemId: string,
    itemType: string,
    turnId: string,
    payload: string,
    version: nat,
    sequence: nat,
    previousHash: string,
    itemHash: string)

  // ----- Escaping -----

  function EscapeChar(c: char): string {
    match c
    case '\\' => "\\s"
    case '\n' => "\\n"
    case '\r' => "\\r"
    case ',' => "\\c"
    case '}' => "\\b"
    case _ => [c]
  }

  function UnescapeChar(c: char): Option<char> {
    match c
    case 's' => Some('\\')
    case 'n' => Some('\n')
    case 'r' => Some('\r')
    case 'c' => Some(',')
    case 'b' => Some('}')
    case _ => None
  }

  function Escape(s: string): string {
    if s == "" then "" else EscapeChar(s[0]) + Escape(s[1..])
  }

  function Join(fields: seq<string>): string
    requires fields != []
  {
    if |fields| == 1 then Escape(fields[0]) else Escape(fields[0]) + "," + Join(fields[1..])
  }

  function Row(fields: seq<string>): string
    requires fields != []
  {
    "{" + Join(fields) + "}"
  }

  /** The fields of a row body, `current` being the field already begun. */
  function Fields(s: string, current: string): Option<seq<string>> {
    if s == "" then None
    else match s[0] {
      case '}' => if |s| == 1 then Some([current]) else None
      case ',' =>
        (match Fields(s[1..], "")
         case None => None
         case Some(rest) => Some([current] + rest))
      case '\\' =>
        if |s| < 2 || UnescapeChar(s[1]).None? then None
        else Fields(s[2..], current + [UnescapeChar(s[1]).value])
      case c => if c == '\n' || c == '\r' then None else Fields(s[1..], current + [c])
    }
  }

  function Parse(text: string): Option<seq<string>> {
    if text == "" || text[0] != '{' then None else Fields(text[1..], "")
  }

  lemma FieldsChar(c: char, tail: string, current: string)
    ensures Fields(EscapeChar(c) + tail, current) == Fields(tail, current + [c])
  {
    assert (EscapeChar(c) + tail)[|EscapeChar(c)|..] == tail;
  }

  lemma Regroup(a: string, b: string, c: string)
    ensures (a + b) + c == a + (b + c)
  {
  }

  lemma FirstAndRest(s: string)
    requires s != ""
    ensures [s[0]] + s[1..] == s
  {
  }

  lemma {:induction false} FieldsEscape(field: string, rest: string, current: string)
    ensures Fields(Escape(field) + rest, current) == Fields(rest, current + field)
  {
    if field == "" {
      assert Escape(field) + rest == rest;
      assert current + field == current;
    } else {
      var c, more := field[0], field[1..];
      Regroup(EscapeChar(c), Escape(more), rest);
      FieldsChar(c, Escape(more) + rest, current);
      FieldsEscape(more, rest, current + [c]);
      Regroup(current, [c], more);
      FirstAndRest(field);
    }
  }

  lemma FieldsComma(rest: string, current: string, more: seq<string>)
    requires Fields(rest, "") == Some(more)
    ensures Fields("," + rest, current) == Some([current] + more)
  {
    assert ("," + rest)[1..] == rest;
  }

  /** One field and what closes it. */
  lemma FieldsOne(field: string, rest: string)
    ensures Fields(Escape(field) + rest, "") == Fields(rest, field)
  {
    FieldsEscape(field, rest, "");
    assert "" + field == field;
  }

  lemma {:induction false} FieldsJoin(fields: seq<string>)
    requires fields != []
    ensures Fields(Join(fields) + "}", "") == Some(fields)
  {
    if |fields| == 1 {
      FieldsOne(fields[0], "}");
      assert [fields[0]] == fields;
    } else {
      FieldsJoin(fields[1..]);
      FieldsMore(fields[0], Join(fields[1..]), fields[1..]);
      assert Join(fields) == Escape(fields[0]) + "," + Join(fields[1..]);
      assert [fields[0]] + fields[1..] == fields;
    }
  }

  lemma FieldsMore(field: string, joined: string, more: seq<string>)
    requires Fields(joined + "}", "") == Some(more)
    ensures Fields((Escape(field) + "," + joined) + "}", "") == Some([field] + more)
  {
    var rest := joined + "}";
    Regroup(Escape(field) + ",", joined, "}");
    Regroup(Escape(field), ",", rest);
    FieldsOne(field, "," + rest);
    FieldsComma(rest, field, more);
  }

  lemma ParseRow(fields: seq<string>)
    requires fields != []
    ensures Parse(Row(fields)) == Some(fields)
  {
    assert Row(fields)[1..] == Join(fields) + "}";
    FieldsJoin(fields);
  }

  /** Characters a row never contains before its end. */
  predicate Plain(s: string) { forall k :: 0 <= k < |s| ==> s[k] !in {'\n', '\r', '}'} }

  lemma {:induction false} EscapePlain(s: string)
    ensures Plain(Escape(s))
  {
    if s != "" {
      EscapePlain(s[1..]);
    }
  }

  lemma {:induction false} JoinPlain(fields: seq<string>)
    requires fields != []
    ensures Plain(Join(fields))
  {
    EscapePlain(fields[0]);
    if |fields| > 1 {
      JoinPlain(fields[1..]);
    }
  }

  lemma {:induction false} FieldsEnd(s: string, current: string)
    requires Fields(s, current).Some?
    ensures s != "" && s[|s| - 1] == '}'
  {
    if s[0] == '}' {
    } else if s[0] == ',' {
      FieldsEnd(s[1..], "");
    } else if s[0] == '\\' {
      FieldsEnd(s[2..], current + [UnescapeChar(s[1]).value]);
    } else {
      FieldsEnd(s[1..], current + [s[0]]);
    }
  }

  /** Nothing can follow a complete row. */
  lemma {:induction false} FieldsGlued(s: string, extra: string, current: string)
    requires Fields(s, current).Some? && extra != ""
    ensures Fields(s + extra, current).None?
  {
    if s[0] == '}' {
    } else if s[0] == ',' {
      assert (s + extra)[1..] == s[1..] + extra;
      FieldsGlued(s[1..], extra, "");
    } else if s[0] == '\\' {
      assert (s + extra)[2..] == s[2..] + extra;
      FieldsGlued(s[2..], extra, current + [UnescapeChar(s[1]).value]);
    } else {
      assert (s + extra)[1..] == s[1..] + extra;
      FieldsGlued(s[1..], extra, current + [s[0]]);
    }
  }

  lemma ParseGlued(text: string, extra: string)
    requires Parse(text).Some? && extra != ""
    ensures Parse(text + extra).None?
  {
    FieldsGlued(text[1..], extra, "");
    assert (text + extra)[1..] == text[1..] + extra;
  }

  /** No proper prefix of a row is a row. */
  lemma ParsePrefix(fields: seq<string>, n: nat)
    requires fields != [] && n < |Row(fields)|
    ensures Parse(Row(fields)[..n]).None?
  {
    var prefix := Row(fields)[..n];
    JoinPlain(fields);
    assert forall k :: 1 <= k < n ==> prefix[k] == Join(fields)[k - 1];
    if Parse(prefix).Some? {
      FieldsEnd(prefix[1..], "");
    }
  }

  // ----- Items -----

  function Number(n: nat): string { seq(n, _ => '1') }

  function ParseNumber(s: string): Option<nat> {
    if forall k :: 0 <= k < |s| ==> s[k] == '1' then Some(|s|) else None
  }

  function ItemFields(i: Item): (r: seq<string>)
    ensures r != []
  {
    [i.itemId, i.itemType, i.turnId, i.payload, Number(i.version), Number(i.sequence), i.previousHash, i.itemHash]
  }

  function ItemFrom(f: seq<string>): Option<Item> {
    if |f| != 8 then None
    else match (ParseNumber(f[4]), ParseNumber(f[5])) {
      case (Some(version), Some(sequence)) => Some(Item(f[0], f[1], f[2], f[3], version, sequence, f[6], f[7]))
      case _ => None
    }
  }

  function Encode(i: Item): string { Row(ItemFields(i)) }

  lemma ItemRoundTrip(i: Item)
    ensures Parse(Encode(i)) == Some(ItemFields(i)) && ItemFrom(ItemFields(i)) == Some(i)
  {
    ParseRow(ItemFields(i));
  }

  lemma EncodeInjective(a: Item, b: Item)
    requires Encode(a) == Encode(b)
    ensures a == b
  {
    ItemRoundTrip(a);
    ItemRoundTrip(b);
  }

  lemma EncodePlain(i: Item)
    ensures Encode(i) != "" && Encode(i)[0] == '{'
    ensures forall k :: 0 <= k < |Encode(i)| ==> Encode(i)[k] !in {'\n', '\r'}
  {
    JoinPlain(ItemFields(i));
  }

  /** A collision-free hash of everything in the item but its own hash. */
  function Hash(i: Item): (h: string)
    ensures h != ""
  {
    "#" + Encode(i.(itemHash := ""))
  }

  lemma HashInjective(a: Item, b: Item)
    requires Hash(a) == Hash(b)
    ensures a.(itemHash := "") == b.(itemHash := "")
  {
    assert Hash(a)[1..] == Encode(a.(itemHash := ""));
    assert Hash(b)[1..] == Encode(b.(itemHash := ""));
    EncodeInjective(a.(itemHash := ""), b.(itemHash := ""));
  }

  // ----- Lines -----

  predicate IsBreak(c: char) { c == '\n' || c == '\r' }

  /** Where the first line ends, its break included; a carriage return keeps a newline that follows it. */
  function LineEnd(raw: string): (n: nat)
    requires raw != ""
    ensures 0 < n <= |raw|
    ensures forall k :: 0 <= k < n - 2 ==> !IsBreak(raw[k])
  {
    if raw[0] == '\n' then 1
    else if raw[0] == '\r' then (if |raw| > 1 && raw[1] == '\n' then 2 else 1)
    else if |raw| == 1 then 1
    else 1 + LineEnd(raw[1..])
  }

  function SplitLines(raw: string): seq<string> {
    if raw == "" then [] else [raw[..LineEnd(raw)]] + SplitLines(raw[LineEnd(raw)..])
  }

  /** A line without its break. */
  function Content(line: string): string {
    if line == "" || !IsBreak(line[|line| - 1]) then line
    else if |line| > 1 && line[|line| - 1] == '\n' && line[|line| - 2] == '\r' then line[..|line| - 2]
    else line[..|line| - 1]
  }

  lemma {:induction false} LineEndPlain(text: string, rest: string)
    requires forall k :: 0 <= k < |text| ==> !IsBreak(text[k])
    ensures LineEnd(text + "\n" + rest) == |text| + 1
    ensures text != "" ==> LineEnd(text) == |text|
  {
    if text != "" {
      assert (text + "\n" + rest)[1..] == text[1..] + "\n" + rest;
      LineEndPlain(text[1..], rest);
    }
  }

  /** The end of a line does not depend on what follows it, once the line is complete. */
  lemma {:induction false} LineEndPrefix(raw: string, n: nat)
    requires raw != "" && LineEnd(raw) <= n <= |raw|
    ensures LineEnd(raw[..n]) == LineEnd(raw)
  {
    if !IsBreak(raw[0]) && |raw| > 1 {
      assert raw[..n][1..] == raw[1..][..n - 1];
      LineEndPrefix(raw[1..], n - 1);
    }
  }

  function Concat(lines: seq<string>): string {
    if lines == [] then "" else lines[0] + Concat(lines[1..])
  }

  lemma ConcatFirst(line: string, lines: seq<string>)
    ensures Concat([line] + lines) == line + Concat(lines)
  {
    assert ([line] + lines)[1..] == lines;
  }

  lemma {:induction false} SplitConcat(raw: string)
    ensures Concat(SplitLines(raw)) == raw
  {
    if raw != "" {
      var n := LineEnd(raw);
      SplitConcat(raw[n..]);
      ConcatFirst(raw[..n], SplitLines(raw[n..]));
      assert raw == raw[..n] + raw[n..];
    }
  }

  lemma SplitHead(line: string, tail: string)
    requires line != "" && LineEnd(line + tail) == |line|
    ensures SplitLines(line + tail) == [line] + SplitLines(tail)
  {
    assert (line + tail)[..|line|] == line && (line + tail)[|line|..] == tail;
  }

  /** Cutting a file at the end of one of its lines leaves exactly the lines before. */
  lemma {:induction false} SplitPrefix(raw: string, j: nat)
    requires j <= |SplitLines(raw)|
    ensures var head := Concat(SplitLines(raw)[..j]);
            head <= raw && SplitLines(head) == SplitLines(raw)[..j]
  {
    if j > 0 {
      var n := LineEnd(raw);
      var line, rest := raw[..n], raw[n..];
      var lines := SplitLines(rest)[..j - 1];
      SplitPrefix(rest, j - 1);
      assert SplitLines(raw)[..j] == [line] + lines;
      ConcatFirst(line, lines);
      PrefixJoins(raw, n, Concat(lines));
      PrefixHead(raw, |Concat(lines)|);
      SplitHead(line, Concat(lines));
    }
  }

  lemma PrefixJoins(raw: string, n: nat, tail: string)
    requires n <= |raw| && tail <= raw[n..]
    ensures raw[..n] + tail <= raw && raw[..n + |tail|] == raw[..n] + tail
  {
    assert raw == raw[..n] + raw[n..];
  }

  lemma PrefixHead(raw: string, m: nat)
    requires raw != "" && LineEnd(raw) + m <= |raw|
    ensures LineEnd(raw[..LineEnd(raw) + m]) == LineEnd(raw)
  {
    LineEndPrefix(raw, LineEnd(raw) + m);
  }
}
