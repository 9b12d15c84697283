/**
 * What an import expansion says: the text is that of a tree of the files taken in, each file's lines in order
 * with every live directive replaced by the text below it.
 */
module GuidanceText {
  import opened Messages
  import opened GuidanceImports

  // ----- Lines and directives, said without the functions that find them -----

  predicate IsLineBreak(b: string) {
    (|b| == 1 && IsBreak(b[0])) || b == "\r\n"
  }

  /** The lines, with the breaks between them, are the text; a last line may lack its break. */
  ghost predicate SplitsInto(raw: string, lines: seq<string>)
    decreases |lines|
  {
    if lines == [] then raw == ""
    else
      && (forall i :: 0 <= i < |lines[0]| ==> !IsBreak(lines[0][i]))
      && ((raw == lines[0] && raw != "" && |lines| == 1) || (exists b, rest :: Heads(raw, lines[0], b, rest) && SplitsInto(rest, lines[1..])))
  }

  /** A carriage return before a line feed belongs to it. */
  predicate Heads(raw: string, line: string, b: string, rest: string) {
    raw == line + b + rest && IsLineBreak(b) && !(b == "\r" && rest != "" && rest[0] == '\n')
  }

  lemma {:induction false} LineUnbroken(raw: string)
    ensures forall i :: 0 <= i < |Line(raw)| ==> !IsBreak(Line(raw)[i])
    ensures Line(raw) <= raw && (|Line(raw)| < |raw| ==> IsBreak(raw[|Line(raw)|]))
  {
    if raw != "" && !IsBreak(raw[0]) {
      LineUnbroken(raw[1..]);
    }
  }

  lemma BreakHeads(raw: string) returns (b: string, rest: string)
    requires |Line(raw)| < |raw|
    ensures Heads(raw, Line(raw), b, rest) && SplitLines(raw) == [Line(raw)] + SplitLines(rest) && |rest| < |raw|
  {
    LineUnbroken(raw);
    var tail := raw[|Line(raw)|..];
    var n := BreakLength(tail);
    b, rest := tail[..n], tail[n..];
    assert raw == Line(raw) + b + rest;
  }

  /** Splitting a text into its lines loses nothing. */
  lemma {:induction false} LinesAreTheText(raw: string)
    ensures SplitsInto(raw, SplitLines(raw))
    decreases |raw|
  {
    LineUnbroken(raw);
    if |Line(raw)| < |raw| {
      var b, rest := BreakHeads(raw);
      LinesAreTheText(rest);
      assert ([Line(raw)] + SplitLines(rest))[1..] == SplitLines(rest);
    } else if raw != "" {
      assert Line(raw) == raw;
    }
  }

  predicate Spaces(s: string) { forall i :: 0 <= i < |s| ==> IsSpace(s[i]) }

  predicate Solid(s: string) { s != "" && forall i :: 0 <= i < |s| ==> !IsSpace(s[i]) }

  /** Nothing but the directive and one path, with white space around them. */
  ghost predicate Directs(line: string, path: string) {
    exists a, b, c :: DirectsWith(line, a, b, path, c)
  }

  predicate DirectsWith(line: string, a: string, b: string, path: string, c: string) {
    line == a + "@import" + b + path + c && Spaces(a) && Spaces(b) && b != "" && Solid(path) && Spaces(c)
  }

  lemma {:induction false} TrimLeftSplits(s: string) returns (a: string)
    ensures Spaces(a) && s == a + TrimLeft(s) && (TrimLeft(s) != "" ==> !IsSpace(TrimLeft(s)[0]))
  {
    if s != "" && IsSpace(s[0]) {
      var b := TrimLeftSplits(s[1..]);
      a := [s[0]] + b;
      assert s == [s[0]] + s[1..];
    } else {
      a := "";
    }
  }

  lemma {:induction false} WordSplits(s: string)
    ensures Word(s) <= s && (forall i :: 0 <= i < |Word(s)| ==> !IsSpace(Word(s)[i]))
    ensures |Word(s)| < |s| ==> IsSpace(s[|Word(s)|])
  {
    if s != "" && !IsSpace(s[0]) {
      WordSplits(s[1..]);
    }
  }

  lemma {:induction false} TrimLeftSpaces(a: string, t: string)
    requires Spaces(a) && (t != "" ==> !IsSpace(t[0]))
    ensures TrimLeft(a + t) == t
  {
    if a == "" {
      assert a + t == t;
    } else {
      TrimLeftSpaces(a[1..], t);
      assert (a + t)[1..] == a[1..] + t;
    }
  }

  lemma {:induction false} WordOf(path: string, c: string)
    requires (forall i :: 0 <= i < |path| ==> !IsSpace(path[i])) && Spaces(c)
    ensures Word(path + c) == path
  {
    if path == "" {
      assert path + c == c;
    } else {
      WordOf(path[1..], c);
      assert (path + c)[1..] == path[1..] + c;
    }
  }

  lemma Parts(a: string, b: string, path: string, c: string)
    ensures a + ("@import" + (b + (path + c))) == a + "@import" + b + path + c
  {
  }

  lemma SpaceBefore(w: string, b: string, t: string)
    requires w == b + t && w != "" && IsSpace(w[0]) && (t != "" ==> !IsSpace(t[0]))
    ensures b != ""
  {
    assert b == "" ==> b + t == t;
  }

  /** What follows the directive. */
  lemma AfterDirective(line: string, path: string) returns (w: string)
    requires Directive(line) == Some(path)
    ensures TrimLeft(line) == "@import" + w && w != "" && IsSpace(w[0])
    ensures path == Word(TrimLeft(w)) && path != "" && TrimLeft(TrimLeft(w)[|path|..]) == ""
  {
    var s := TrimLeft(line);
    w := s[7..];
    assert s == s[..7] + w;
  }

  lemma PathFound(w: string, path: string) returns (b: string, c: string)
    requires w != "" && IsSpace(w[0])
    requires path == Word(TrimLeft(w)) && path != "" && TrimLeft(TrimLeft(w)[|path|..]) == ""
    ensures w == b + (path + c) && Spaces(b) && b != "" && Solid(path) && Spaces(c)
  {
    b := TrimLeftSplits(w);
    var t := TrimLeft(w);
    SpaceBefore(w, b, t);
    WordSplits(t);
    c := t[|path|..];
    assert t == t[..|path|] + c;
    var left := TrimLeftSplits(c);
    assert left + "" == left;
  }

  lemma DirectiveFound(line: string, path: string)
    requires Directive(line) == Some(path)
    ensures Directs(line, path)
  {
    var a := TrimLeftSplits(line);
    var w := AfterDirective(line, path);
    var b, c := PathFound(w, path);
    Parts(a, b, path, c);
    assert DirectsWith(line, a, b, path, c);
  }

  lemma DirectiveKnown(line: string, a: string, b: string, path: string, c: string)
    requires DirectsWith(line, a, b, path, c)
    ensures Directive(line) == Some(path)
  {
    var s := "@import" + b + path + c;
    assert line == a + s;
    TrimLeftSpaces(a, s);
    assert s[..7] == "@import" && s[7] == b[0];
    var t := path + c;
    assert s[7..] == b + t;
    assert t[0] == path[0];
    TrimLeftSpaces(b, t);
    WordOf(path, c);
    assert t[|path|..] == c && c + "" == c;
    TrimLeftSpaces(c, "");
  }

  /** A line is taken as an import of a path exactly when it consists of the directive and that path. */
  lemma DirectiveExactly(line: string, path: string)
    ensures Directive(line) == Some(path) <==> Directs(line, path)
  {
    if Directive(line) == Some(path) {
      DirectiveFound(line, path);
    } else if Directs(line, path) {
      var a, b, c :| DirectsWith(line, a, b, path, c);
      DirectiveKnown(line, a, b, path, c);
    }
  }

  ghost predicate Fences(line: string) { exists a, rest :: FencesWith(line, a, rest) }

  predicate FencesWith(line: string, a: string, rest: string) { line == a + "```" + rest && Spaces(a) }

  lemma FenceFound(line: string)
    requires IsFence(line)
    ensures Fences(line)
  {
    var a := TrimLeftSplits(line);
    var s := TrimLeft(line);
    assert s == s[..3] + s[3..];
    assert a + (s[..3] + s[3..]) == a + s[..3] + s[3..];
    assert FencesWith(line, a, s[3..]);
  }

  lemma FenceKnown(line: string, a: string, rest: string)
    requires FencesWith(line, a, rest)
    ensures IsFence(line)
  {
    var s := "```" + rest;
    assert line == a + s && s[0] == '`';
    TrimLeftSpaces(a, s);
  }

  lemma FenceExactly(line: string)
    ensures IsFence(line) <==> Fences(line)
  {
    if IsFence(line) {
      FenceFound(line);
    } else if Fences(line) {
      var a, rest :| FencesWith(line, a, rest);
      FenceKnown(line, a, rest);
    }
  }

  ghost function FenceLines(lines: seq<string>, k: nat): set<nat>
    requires k <= |lines|
  {
    set i: nat | i < k && Fences(lines[i])
  }

  lemma FenceMore(lines: seq<string>, k: nat)
    requires k < |lines|
    ensures |FenceLines(lines, k + 1)| == |FenceLines(lines, k)| + if Fences(lines[k]) then 1 else 0
  {
    var before := FenceLines(lines, k);
    var after := FenceLines(lines, k + 1);
    assert k !in before;
    if Fences(lines[k]) {
      assert after == before + {k};
    } else {
      assert after == before;
    }
  }

  lemma {:induction false} FenceParity(lines: seq<string>, k: nat)
    requires k <= |lines|
    ensures FenceAt(lines, false, k) <==> |FenceLines(lines, k)| % 2 == 1
  {
    if k == 0 {
      assert FenceLines(lines, 0) == {};
    } else {
      FenceParity(lines, k - 1);
      FenceMore(lines, k - 1);
      FenceNext(lines, false, k - 1);
      FenceExactly(lines[k - 1]);
    }
  }

  /** A line imports a path exactly when it directs to it and an even number of fences has gone before. */
  lemma LiveExactly(lines: seq<string>, k: nat, path: string)
    requires k < |lines|
    ensures LiveImport(lines, false, k) == Some(path) <==> Directs(lines[k], path) && |FenceLines(lines, k + 1)| % 2 == 0
  {
    DirectiveExactly(lines[k], path);
    FenceParity(lines, k + 1);
  }

  // ----- The tree of the files taken in -----

  /** One subtree for every line of the file; a line that takes in nothing has none. */
  datatype Tree = Omitted | Taken(file: File, kids: seq<Tree>)

  function LinesOf(fs: FileSystem, f: File): seq<string> { if fs.content(f).Some? then SplitLines(fs.content(f).value) else [] }

  function Import(fs: FileSystem, f: File, k: nat): Option<string> {
    if k < |LinesOf(fs, f)| then LiveImport(LinesOf(fs, f), false, k) else None
  }

  /** A line of a file, or what stands in its place. */
  function Piece(fs: FileSystem, f: File, k: nat, below: string): seq<string> {
    match Import(fs, f, k)
    case None => if k < |LinesOf(fs, f)| then [LinesOf(fs, f)[k]] else []
    case Some(path) => if "/" <= path then [] else [below]
  }

  function Strip(s: string): string { TrimRight(TrimLeft(s)) }

  function TreeText(fs: FileSystem, t: Tree): string
    decreases t, 1, 0
  {
    match t
    case Omitted => ""
    case Taken(f, kids) => Strip(JoinLines(Pieces(fs, t, 0)))
  }

  function Pieces(fs: FileSystem, t: Tree, k: nat): seq<string>
    requires t.Taken? && k <= |t.kids|
    decreases t, 0, |t.kids| - k
  {
    if k == |t.kids| then [] else Piece(fs, t.file, k, TreeText(fs, t.kids[k])) + Pieces(fs, t, k + 1)
  }

  function Files(t: Tree): seq<File>
    decreases t, 1, 0
  {
    match t
    case Omitted => []
    case Taken(f, kids) => [f] + FilesBelow(t, 0)
  }

  function FilesBelow(t: Tree, k: nat): seq<File>
    requires t.Taken? && k <= |t.kids|
    decreases t, 0, |t.kids| - k
  {
    if k == |t.kids| then [] else Files(t.kids[k]) + FilesBelow(t, k + 1)
  }

  /** Subtrees stand where the file they belong to is imported, and nowhere else. */
  predicate Follows(fs: FileSystem, t: Tree) {
    t.Taken? ==>
      && fs.content(t.file).Some? && |t.kids| == |LinesOf(fs, t.file)|
      && forall k :: 0 <= k < |t.kids| ==> Stands(fs, t.file, k, t.kids[k]) && Follows(fs, t.kids[k])
  }

  predicate Stands(fs: FileSystem, f: File, k: nat, kid: Tree) {
    kid.Taken? ==> Import(fs, f, k).Some? && !("/" <= Import(fs, f, k).value) && fs.resolve(f, Import(fs, f, k).value) == Some(kid.file)
  }

  // ----- The expansion is such a tree -----

  /** A tree of exactly the files that a load has added. */
  ghost predicate Adds(fs: FileSystem, t: Tree, before: set<File>, after: set<File>) {
    && Follows(fs, t) && |Files(t)| + |before| == |after|
    && forall g :: g in Files(t) <==> g in after && g !in before
  }

  /** The subtrees of some lines of a file, and what those lines have added. */
  ghost predicate AddsFrom(fs: FileSystem, f: File, j: nat, kids: seq<Tree>, before: set<File>, after: set<File>) {
    && AllStand(fs, f, j, kids)
    && |FilesIn(kids)| + |before| == |after|
    && forall g :: g in FilesIn(kids) <==> g in after && g !in before
  }

  function FilesIn(kids: seq<Tree>): seq<File> {
    if kids == [] then [] else Files(kids[0]) + FilesIn(kids[1..])
  }

  function PiecesIn(fs: FileSystem, f: File, j: nat, kids: seq<Tree>): seq<string>
    decreases |kids|
  {
    if kids == [] then [] else Piece(fs, f, j, TreeText(fs, kids[0])) + PiecesIn(fs, f, j + 1, kids[1..])
  }

  lemma {:induction false} FilesInBelow(t: Tree, k: nat)
    requires t.Taken? && k <= |t.kids|
    ensures FilesBelow(t, k) == FilesIn(t.kids[k..])
    decreases |t.kids| - k
  {
    if k < |t.kids| {
      FilesInBelow(t, k + 1);
      assert t.kids[k..][1..] == t.kids[k + 1..];
    }
  }

  lemma {:induction false} PiecesInTree(fs: FileSystem, t: Tree, k: nat)
    requires t.Taken? && k <= |t.kids|
    ensures Pieces(fs, t, k) == PiecesIn(fs, t.file, k, t.kids[k..])
    decreases |t.kids| - k
  {
    if k < |t.kids| {
      PiecesInTree(fs, t, k + 1);
      assert t.kids[k..][1..] == t.kids[k + 1..];
    }
  }

  /** The subtrees of the lines from the given one on stand where they should. */
  predicate AllStand(fs: FileSystem, f: File, j: nat, kids: seq<Tree>) {
    forall k :: 0 <= k < |kids| ==> Stands(fs, f, j + k, kids[k]) && Follows(fs, kids[k])
  }

  lemma KidsStand(fs: FileSystem, f: File, j: nat, kid: Tree, kids: seq<Tree>)
    requires Stands(fs, f, j, kid) && Follows(fs, kid) && AllStand(fs, f, j + 1, kids)
    ensures AllStand(fs, f, j, [kid] + kids)
  {
    var all := [kid] + kids;
    forall k | 0 <= k < |all|
      ensures Stands(fs, f, j + k, all[k]) && Follows(fs, all[k])
    {
      if k > 0 {
        assert all[k] == kids[k - 1] && j + k == (j + 1) + (k - 1);
      }
    }
  }

  lemma NoKid(fs: FileSystem, f: File, j: nat, kids: seq<Tree>, before: set<File>, after: set<File>)
    requires AddsFrom(fs, f, j + 1, kids, before, after)
    ensures AddsFrom(fs, f, j, [Omitted] + kids, before, after)
    ensures PiecesIn(fs, f, j, [Omitted] + kids) == Piece(fs, f, j, "") + PiecesIn(fs, f, j + 1, kids)
  {
    var all := [Omitted] + kids;
    assert all[1..] == kids;
    assert [] + FilesIn(kids) == FilesIn(kids);
    KidsStand(fs, f, j, Omitted, kids);
  }

  lemma OneKid(fs: FileSystem, f: File, j: nat, kid: Tree, kids: seq<Tree>, before: set<File>, middle: set<File>, after: set<File>)
    requires Adds(fs, kid, before, middle) && Stands(fs, f, j, kid) && AddsFrom(fs, f, j + 1, kids, middle, after)
    requires before <= middle <= after
    ensures AddsFrom(fs, f, j, [kid] + kids, before, after)
    ensures PiecesIn(fs, f, j, [kid] + kids) == Piece(fs, f, j, TreeText(fs, kid)) + PiecesIn(fs, f, j + 1, kids)
  {
    var all := [kid] + kids;
    assert all[1..] == kids;
    KidsStand(fs, f, j, kid, kids);
    forall g
      ensures g in FilesIn(all) <==> g in after && g !in before
    {
      assert g in FilesIn(all) <==> g in Files(kid) || g in FilesIn(kids);
    }
  }

  lemma Wrap(fs: FileSystem, f: File, kids: seq<Tree>, before: set<File>, after: set<File>) returns (t: Tree)
    requires fs.content(f).Some? && |kids| == |LinesOf(fs, f)| && f !in before
    requires AddsFrom(fs, f, 0, kids, before + {f}, after) && before + {f} <= after
    ensures t == Taken(f, kids) && Adds(fs, t, before, after)
    ensures TreeText(fs, t) == Strip(JoinLines(PiecesIn(fs, f, 0, kids)))
  {
    t := Taken(f, kids);
    assert kids[0..] == kids;
    FilesInBelow(t, 0);
    PiecesInTree(fs, t, 0);
    forall k | 0 <= k < |kids|
      ensures Stands(fs, f, k, kids[k]) && Follows(fs, kids[k])
    {
      assert 0 + k == k;
    }
    forall g
      ensures g in Files(t) <==> g in after && g !in before
    {
      assert g in Files(t) <==> g == f || g in FilesIn(kids);
    }
  }

  /** The expansion of a file from some line on. */
  function ExpandFrom(fs: FileSystem, lim: Limits, s: State, f: File, j: nat, depth: nat, stack: seq<File>): Expanded
    requires |s.seen| <= lim.maxFiles && OnStack(s, stack) && j <= |LinesOf(fs, f)|
  {
    Expand(fs, lim, s, f, LinesOf(fs, f)[j..], FenceAt(LinesOf(fs, f), false, j), depth, stack)
  }

  function Noted(s: State, path: string): State { s.(diagnostics := s.diagnostics + [Absolute(path)]) }

  lemma ExpandNext(fs: FileSystem, lim: Limits, s: State, f: File, j: nat, depth: nat, stack: seq<File>)
    requires |s.seen| <= lim.maxFiles && OnStack(s, stack) && j < |LinesOf(fs, f)|
    ensures var r, directive := ExpandFrom(fs, lim, s, f, j, depth, stack), Import(fs, f, j);
            match directive
            case None =>
              var rest := ExpandFrom(fs, lim, s, f, j + 1, depth, stack);
              r.state == rest.state && r.output == [LinesOf(fs, f)[j]] + rest.output
            case Some(path) =>
              if IsAbsolute(path) then r == ExpandFrom(fs, lim, Noted(s, path), f, j + 1, depth, stack)
              else
                var sub := Load(fs, lim, s, fs.resolve(f, path), path, depth + 1, stack);
                var rest := ExpandFrom(fs, lim, sub.state, f, j + 1, depth, stack);
                r.state == rest.state && r.output == [sub.text] + rest.output
  {
    assert LinesOf(fs, f)[j..][1..] == LinesOf(fs, f)[j + 1..];
    FenceNext(LinesOf(fs, f), false, j);
  }

  lemma {:induction false} LoadTree(fs: FileSystem, lim: Limits, s: State, target: Option<File>, name: string, depth: nat, stack: seq<File>)
      returns (t: Tree)
    requires |s.seen| <= lim.maxFiles && OnStack(s, stack)
    ensures var r := Load(fs, lim, s, target, name, depth, stack);
            && r.text == TreeText(fs, t) && Adds(fs, t, s.seen, r.state.seen)
            && (t.Taken? ==> target == Some(t.file))
    decreases lim.maxFiles - |s.seen|, 0, 0
  {
    if target.Some? && Refuse(fs, lim, s, target.value, depth, stack).None? {
      var f := target.value;
      assert LinesOf(fs, f)[0..] == LinesOf(fs, f);
      var kids := LinesTree(fs, lim, Accept(fs, s, f), f, 0, depth, stack + [f]);
      t := Wrap(fs, f, kids, s.seen, Load(fs, lim, s, target, name, depth, stack).state.seen);
    } else {
      LoadCases(fs, lim, s, target, name, depth, stack);
      t := Omitted;
    }
  }

  lemma {:induction false} LinesTree(fs: FileSystem, lim: Limits, s: State, f: File, j: nat, depth: nat, stack: seq<File>)
      returns (kids: seq<Tree>)
    requires |s.seen| <= lim.maxFiles && OnStack(s, stack) && j <= |LinesOf(fs, f)|
    ensures var r := ExpandFrom(fs, lim, s, f, j, depth, stack);
            && |kids| == |LinesOf(fs, f)| - j && r.output == PiecesIn(fs, f, j, kids)
            && AddsFrom(fs, f, j, kids, s.seen, r.state.seen)
    decreases lim.maxFiles - |s.seen|, 1, |LinesOf(fs, f)| - j
  {
    if j == |LinesOf(fs, f)| {
      kids := [];
    } else {
      ExpandNext(fs, lim, s, f, j, depth, stack);
      var after := ExpandFrom(fs, lim, s, f, j, depth, stack).state.seen;
      var directive := Import(fs, f, j);
      if directive.None? || IsAbsolute(directive.value) {
        var next := if directive.None? then s else Noted(s, directive.value);
        var rest := LinesTree(fs, lim, next, f, j + 1, depth, stack);
        kids := [Omitted] + rest;
        NoKid(fs, f, j, rest, s.seen, after);
        assert [] + PiecesIn(fs, f, j + 1, rest) == PiecesIn(fs, f, j + 1, rest);
      } else {
        kids := ImportTree(fs, lim, s, f, j, depth, stack, directive.value);
      }
    }
  }

  lemma {:induction false} ImportTree(fs: FileSystem, lim: Limits, s: State, f: File, j: nat, depth: nat, stack: seq<File>, path: string)
      returns (kids: seq<Tree>)
    requires |s.seen| <= lim.maxFiles && OnStack(s, stack) && j < |LinesOf(fs, f)|
    requires Import(fs, f, j) == Some(path) && !IsAbsolute(path)
    ensures var r := ExpandFrom(fs, lim, s, f, j, depth, stack);
            && |kids| == |LinesOf(fs, f)| - j && r.output == PiecesIn(fs, f, j, kids)
            && AddsFrom(fs, f, j, kids, s.seen, r.state.seen)
    decreases lim.maxFiles - |s.seen|, 1, |LinesOf(fs, f)| - j, 0
  {
    ExpandNext(fs, lim, s, f, j, depth, stack);
    var target := fs.resolve(f, path);
    var sub := Load(fs, lim, s, target, path, depth + 1, stack);
    var kid := LoadTree(fs, lim, s, target, path, depth + 1, stack);
    Smaller(s.seen, sub.state.seen);
    var rest := LinesTree(fs, lim, sub.state, f, j + 1, depth, stack);
    kids := [kid] + rest;
    OneKid(fs, f, j, kid, rest, s.seen, sub.state.seen, ExpandFrom(fs, lim, sub.state, f, j + 1, depth, stack).state.seen);
  }

  /**
   * The text of an expansion, for every file graph: it is the text of a tree in which every file taken in stands
   * exactly once, below a line that imports it. Each file gives its lines in order, with the text below in place
   * of every live directive (nothing for a file that was refused or had been taken in before) and without
   * absolute directives, joined by line breaks and stripped.
   */
  lemma ExpansionIsATree(fs: FileSystem, lim: Limits, root: Option<File>, name: string) returns (t: Tree)
    ensures var r := ExpandImports(fs, lim, root, name);
            && r.text == TreeText(fs, t) && Follows(fs, t) && (t.Taken? ==> root == Some(t.file))
            && |Files(t)| == |r.state.seen| && forall g :: g in Files(t) <==> g in r.state.seen
  {
    t := LoadTree(fs, lim, NOTHING, root, name, 0, []);
  }

  // ----- A file without imports -----

  predicate NoImports(fs: FileSystem, f: File) { forall k :: 0 <= k < |LinesOf(fs, f)| ==> Import(fs, f, k) == None }

  lemma {:induction false} PlainPieces(fs: FileSystem, t: Tree, k: nat)
    requires t.Taken? && Follows(fs, t) && NoImports(fs, t.file) && k <= |t.kids|
    ensures Pieces(fs, t, k) == LinesOf(fs, t.file)[k..]
    decreases |t.kids| - k
  {
    if k < |t.kids| {
      PlainPieces(fs, t, k + 1);
      assert LinesOf(fs, t.file)[k..] == [LinesOf(fs, t.file)[k]] + LinesOf(fs, t.file)[k + 1..];
    }
  }

  /** A file without live imports, within the limits, expands to its own lines, joined and stripped. */
  lemma PlainFileIsKept(fs: FileSystem, lim: Limits, f: File, name: string)
    requires fs.content(f).Some? && NoImports(fs, f)
    requires lim.maxFiles > 0 && Utf8Length(fs.content(f).value) <= lim.maxBytes
    ensures ExpandImports(fs, lim, Some(f), name).text == Strip(JoinLines(SplitLines(fs.content(f).value)))
    ensures ExpandImports(fs, lim, Some(f), name).state.seen == {f}
  {
    assert Refuse(fs, lim, NOTHING, f, 0, []).None?;
    var t := ExpansionIsATree(fs, lim, Some(f), name);
    RootTaken(fs, lim, f, name);
    assert t.Taken?;
    PlainPieces(fs, t, 0);
    assert LinesOf(fs, f)[0..] == LinesOf(fs, f);
    PlainFiles(fs, t, 0);
    forall g
      ensures g in ExpandImports(fs, lim, Some(f), name).state.seen <==> g in {f}
    {
      assert g in Files(t) <==> g == f;
    }
  }

  lemma RootTaken(fs: FileSystem, lim: Limits, f: File, name: string)
    requires Refuse(fs, lim, NOTHING, f, 0, []).None?
    ensures f in ExpandImports(fs, lim, Some(f), name).state.seen
  {
  }

  lemma {:induction false} PlainFiles(fs: FileSystem, t: Tree, k: nat)
    requires t.Taken? && Follows(fs, t) && NoImports(fs, t.file) && k <= |t.kids|
    ensures FilesBelow(t, k) == []
    decreases |t.kids| - k
  {
    if k < |t.kids| {
      PlainFiles(fs, t, k + 1);
      assert Stands(fs, t.file, k, t.kids[k]);
    }
  }

  // ----- No line is lost -----

  predicate Contains(s: string, part: string) { exists i :: 0 <= i <= |s| - |part| && At(s, part, i) }

  predicate At(s: string, part: string, i: nat)
    requires i <= |s| - |part|
  {
    s[i..i + |part|] == part
  }

  lemma ContainsPart(s: string, a: string, part: string, b: string)
    requires s == a + part + b
    ensures Contains(s, part)
  {
    assert At(s, part, |a|);
  }

  lemma ContainsSplit(s: string, part: string) returns (a: string, b: string)
    requires Contains(s, part)
    ensures s == a + part + b
  {
    var i :| 0 <= i <= |s| - |part| && At(s, part, i);
    a, b := s[..i], s[i + |part|..];
  }

  lemma ContainsTrans(s: string, t: string, u: string)
    requires Contains(s, t) && Contains(t, u)
    ensures Contains(s, u)
  {
    var a, b := ContainsSplit(s, t);
    var c, d := ContainsSplit(t, u);
    assert s == (a + c) + u + (d + b);
    ContainsPart(s, a + c, u, d + b);
  }

  predicate Core(s: string) { s != "" && !IsSpace(s[0]) && !IsSpace(s[|s| - 1]) }

  lemma {:induction false} TrimLeftKeeps(a: string, core: string, b: string)
    requires Core(core)
    ensures Contains(TrimLeft(a + core + b), core)
  {
    var s := a + core + b;
    if a != "" && IsSpace(a[0]) {
      assert s[1..] == a[1..] + core + b;
      TrimLeftKeeps(a[1..], core, b);
    } else {
      assert s[0] == if a == "" then core[0] else a[0];
      ContainsPart(s, a, core, b);
    }
  }

  lemma {:induction false} TrimRightKeeps(a: string, core: string, b: string)
    requires Core(core)
    ensures Contains(TrimRight(a + core + b), core)
  {
    var s := a + core + b;
    if b != "" && IsSpace(b[|b| - 1]) {
      assert s[..|s| - 1] == a + core + b[..|b| - 1];
      TrimRightKeeps(a, core, b[..|b| - 1]);
    } else {
      assert s[|s| - 1] == if b == "" then core[|core| - 1] else b[|b| - 1];
      ContainsPart(s, a, core, b);
    }
  }

  lemma StripKeeps(s: string, core: string)
    requires Contains(s, core) && Core(core)
    ensures Contains(Strip(s), core)
  {
    var a, b := ContainsSplit(s, core);
    TrimLeftKeeps(a, core, b);
    var c, d := ContainsSplit(TrimLeft(s), core);
    TrimRightKeeps(c, core, d);
  }

  lemma {:induction false} TrimRightSplits(s: string) returns (b: string)
    ensures Spaces(b) && s == TrimRight(s) + b && (TrimRight(s) != "" ==> !IsSpace(TrimRight(s)[|TrimRight(s)| - 1]))
  {
    if s != "" && IsSpace(s[|s| - 1]) {
      var c := TrimRightSplits(s[..|s| - 1]);
      b := c + [s[|s| - 1]];
      assert s == s[..|s| - 1] + [s[|s| - 1]];
    } else {
      b := "";
    }
  }

  /** Stripping takes white space off both ends, and no more. */
  lemma StripIsCore(s: string)
    ensures Strip(s) == "" || Core(Strip(s))
    ensures Contains(s, Strip(s))
  {
    var a := TrimLeftSplits(s);
    var b := TrimRightSplits(TrimLeft(s));
    assert s == a + Strip(s) + b;
    ContainsPart(s, a, Strip(s), b);
    if Strip(s) != "" {
      assert Strip(s)[0] == TrimLeft(s)[0];
    }
  }

  lemma {:induction false} JoinContains(lines: seq<string>, k: nat)
    requires k < |lines|
    ensures Contains(JoinLines(lines), lines[k])
  {
    if |lines| == 1 {
      ContainsPart(lines[0], "", lines[0], "");
    } else if k == 0 {
      ContainsPart(JoinLines(lines), "", lines[0], "\n" + JoinLines(lines[1..]));
    } else {
      JoinContains(lines[1..], k - 1);
      var rest := JoinLines(lines[1..]);
      assert JoinLines(lines) == (lines[0] + "\n") + rest + "";
      ContainsPart(JoinLines(lines), lines[0] + "\n", rest, "");
      ContainsTrans(JoinLines(lines), rest, lines[k]);
    }
  }

  /** Joining puts one line break between two lines. */
  lemma {:induction false} JoinAppends(a: seq<string>, b: seq<string>)
    requires a != [] && b != []
    ensures JoinLines(a + b) == JoinLines(a) + "\n" + JoinLines(b)
    ensures |a| == 1 ==> JoinLines(a) == a[0]
  {
    if |a| == 1 {
      assert (a + b)[1..] == b;
    } else {
      JoinAppends(a[1..], b);
      assert (a + b)[1..] == a[1..] + b;
    }
  }

  lemma {:induction false} PieceThere(fs: FileSystem, t: Tree, j: nat, k: nat, piece: string)
    requires t.Taken? && j <= k < |t.kids| && piece in Piece(fs, t.file, k, TreeText(fs, t.kids[k]))
    ensures piece in Pieces(fs, t, j)
    decreases k - j
  {
    if j < k {
      PieceThere(fs, t, j + 1, k, piece);
    }
  }

  lemma PieceInText(fs: FileSystem, t: Tree, k: nat, piece: string, core: string)
    requires t.Taken? && k < |t.kids| && piece in Piece(fs, t.file, k, TreeText(fs, t.kids[k]))
    requires Contains(piece, core) && Core(core)
    ensures Contains(TreeText(fs, t), core)
  {
    PieceThere(fs, t, 0, k, piece);
    var pieces := Pieces(fs, t, 0);
    var i :| 0 <= i < |pieces| && pieces[i] == piece;
    JoinContains(pieces, i);
    ContainsTrans(JoinLines(pieces), piece, core);
    StripKeeps(JoinLines(pieces), core);
  }

  lemma {:induction false} BelowWhich(t: Tree, j: nat, g: File) returns (k: nat)
    requires t.Taken? && j <= |t.kids| && g in FilesBelow(t, j)
    ensures j <= k < |t.kids| && g in Files(t.kids[k])
    decreases |t.kids| - j
  {
    if g in Files(t.kids[j]) {
      k := j;
    } else {
      k := BelowWhich(t, j + 1, g);
    }
  }

  lemma {:induction false} LineInTree(fs: FileSystem, t: Tree, g: File, k: nat)
    requires Follows(fs, t) && g in Files(t) && k < |LinesOf(fs, g)| && Import(fs, g, k) == None
    requires Strip(LinesOf(fs, g)[k]) != ""
    ensures Contains(TreeText(fs, t), Strip(LinesOf(fs, g)[k]))
    decreases t
  {
    var line := LinesOf(fs, g)[k];
    StripIsCore(line);
    if g == t.file {
      PieceInText(fs, t, k, line, Strip(line));
    } else {
      var j := BelowWhich(t, 0, g);
      var kid := t.kids[j];
      LineInTree(fs, kid, g, k);
      assert Stands(fs, t.file, j, kid);
      PieceInText(fs, t, j, TreeText(fs, kid), Strip(line));
    }
  }

  /** Every ordinary line of every file taken in is in the text, up to white space at its ends. */
  lemma OrdinaryLinesAreKept(fs: FileSystem, lim: Limits, root: Option<File>, name: string, g: File, k: nat)
    requires g in ExpandImports(fs, lim, root, name).state.seen
    requires k < |LinesOf(fs, g)| && Import(fs, g, k) == None
    ensures Contains(ExpandImports(fs, lim, root, name).text, Strip(LinesOf(fs, g)[k]))
  {
    var t := ExpansionIsATree(fs, lim, root, name);
    var text := ExpandImports(fs, lim, root, name).text;
    if Strip(LinesOf(fs, g)[k]) == "" {
      ContainsPart(text, "", "", text);
    } else {
      LineInTree(fs, t, g, k);
    }
  }
}
