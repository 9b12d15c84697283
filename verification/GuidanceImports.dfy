/**
 * Recursive expansion of guidance imports under shared limits (guidance/imports.py). Path resolution and
 * decoding belong to the file system parameter; everything else is followed line by line.
 */
module GuidanceImports {
  import opened Messages

  type File = string

  /** What a path names inside the boundary, and what a file holds when it is valid UTF-8. */
  datatype FileSystem = FileSystem(resolve: (File, string) -> Option<File>, content: File -> Option<string>)

  datatype Limits = Limits(maxDepth: nat, maxFiles: nat, maxBytes: nat)

  datatype Diagnostic = Boundary(path: string) | Cycle(file: File) | Depth(file: File) | Count(file: File) | InvalidUtf8(file: File) | Bytes(file: File) | Absolute(path: string)

  datatype State = State(seen: set<File>, total: nat, diagnostics: seq<Diagnostic>)

  datatype Loaded = Loaded(state: State, text: string)

  datatype Expanded = Expanded(state: State, output: seq<string>)

  // ----- Lines -----

  predicate IsBreak(c: char) { c in {'\n', '\r', '\U{0B}', '\U{0C}', '\U{1C}', '\U{1D}', '\U{1E}', '\U{85}', '\U{2028}', '\U{2029}'} }

  predicate IsSpace(c: char) { IsBreak(c) || c in {' ', '\t', '\U{1F}', '\U{A0}'} }

  function Line(raw: string): (r: string)
    ensures |r| <= |raw|
  {
    if raw == "" || IsBreak(raw[0]) then "" else [raw[0]] + Line(raw[1..])
  }

  /** How long the break at the start of the text is. */
  function BreakLength(raw: string): nat {
    if |raw| > 1 && raw[0] == '\r' && raw[1] == '\n' then 2 else 1
  }

  function SplitLines(raw: string): seq<string>
    decreases |raw|
  {
    if raw == "" then []
    else
      var line := Line(raw);
      if |line| == |raw| then [line]
      else
        var rest := raw[|line|..];
        [line] + SplitLines(if BreakLength(rest) <= |rest| then rest[BreakLength(rest)..] else "")
  }

  function TrimLeft(s: string): (r: string)
    ensures |r| <= |s|
  {
    if s != "" && IsSpace(s[0]) then TrimLeft(s[1..]) else s
  }

  function TrimRight(s: string): (r: string)
    ensures |r| <= |s|
  {
    if s != "" && IsSpace(s[|s| - 1]) then TrimRight(s[..|s| - 1]) else s
  }

  function Word(s: string): (r: string)
    ensures |r| <= |s|
  {
    if s == "" || IsSpace(s[0]) then "" else [s[0]] + Word(s[1..])
  }

  /** The path of a standalone import directive. */
  function Directive(line: string): Option<string> {
    var s := TrimLeft(line);
    if |s| < 8 || s[..7] != "@import" || !IsSpace(s[7]) then None
    else
      var t := TrimLeft(s[7..]);
      var path := Word(t);
      if path == "" || TrimLeft(t[|path|..]) != "" then None else Some(path)
  }

  predicate IsFence(line: string) { var s := TrimLeft(line); |s| >= 3 && s[..3] == "```" }

  predicate IsAbsolute(path: string) { path != "" && path[0] == '/' }

  function JoinLines(lines: seq<string>): string {
    if lines == [] then "" else if |lines| == 1 then lines[0] else lines[0] + "\n" + JoinLines(lines[1..])
  }

  // ----- Expansion -----

  function Note(s: State, d: Diagnostic): Loaded { Loaded(s.(diagnostics := s.diagnostics + [d]), "") }

  /** The verdict on a resolved file before it is accepted; None lets it in. */
  function Refuse(fs: FileSystem, lim: Limits, s: State, f: File, depth: nat, stack: seq<File>): Option<Loaded> {
    if f in stack then Some(Note(s, Cycle(f)))
    else if f in s.seen then Some(Loaded(s, ""))
    else if depth > lim.maxDepth then Some(Note(s, Depth(f)))
    else if |s.seen| >= lim.maxFiles then Some(Note(s, Count(f)))
    else match fs.content(f) {
      case None => Some(Note(s, InvalidUtf8(f)))
      case Some(raw) => if s.total + Utf8Length(raw) > lim.maxBytes then Some(Note(s, Bytes(f))) else None
    }
  }

  function Accept(fs: FileSystem, s: State, f: File): State
    requires fs.content(f).Some?
  {
    s.(seen := s.seen + {f}, total := s.total + Utf8Length(fs.content(f).value))
  }

  /** Every file whose expansion is under way has been counted. */
  predicate OnStack(s: State, stack: seq<File>) { forall f :: f in stack ==> f in s.seen }

  function Load(fs: FileSystem, lim: Limits, s: State, target: Option<File>, name: string, depth: nat, stack: seq<File>): (r: Loaded)
    requires |s.seen| <= lim.maxFiles && OnStack(s, stack)
    ensures s.seen <= r.state.seen && |r.state.seen| <= lim.maxFiles
    decreases lim.maxFiles - |s.seen|, 0
  {
    match target
    case None => Note(s, Boundary(name))
    case Some(f) =>
      match Refuse(fs, lim, s, f, depth, stack)
      case Some(refused) => refused
      case None =>
        var r := Expand(fs, lim, Accept(fs, s, f), f, SplitLines(fs.content(f).value), false, depth, stack + [f]);
        Loaded(r.state, TrimRight(TrimLeft(JoinLines(r.output))))
  }

  /** The lines of one file from some point on; a fence switches directives off until the next one. */
  function Expand(fs: FileSystem, lim: Limits, s: State, f: File, lines: seq<string>, inFence: bool, depth: nat, stack: seq<File>): (r: Expanded)
    requires |s.seen| <= lim.maxFiles && OnStack(s, stack)
    ensures s.seen <= r.state.seen && |r.state.seen| <= lim.maxFiles
    decreases lim.maxFiles - |s.seen|, |lines|
  {
    if lines == [] then Expanded(s, [])
    else
      var fence := if IsFence(lines[0]) then !inFence else inFence;
      var directive := if fence then None else Directive(lines[0]);
      match directive
      case None =>
        var rest := Expand(fs, lim, s, f, lines[1..], fence, depth, stack);
        Expanded(rest.state, [lines[0]] + rest.output)
      case Some(path) =>
        if IsAbsolute(path) then
          Expand(fs, lim, s.(diagnostics := s.diagnostics + [Absolute(path)]), f, lines[1..], fence, depth, stack)
        else
          var sub := Load(fs, lim, s, fs.resolve(f, path), path, depth + 1, stack);
          Smaller(s.seen, sub.state.seen);
          var rest := Expand(fs, lim, sub.state, f, lines[1..], fence, depth, stack);
          Expanded(rest.state, [sub.text] + rest.output)
  }

  lemma Smaller(a: set<File>, b: set<File>)
    requires a <= b
    ensures |a| <= |b|
  {
    if a != b {
      assert b == a + (b - a);
    }
  }

  const NOTHING := State({}, 0, [])

  function ExpandImports(fs: FileSystem, lim: Limits, root: Option<File>, name: string): Loaded {
    Load(fs, lim, NOTHING, root, name, 0, [])
  }

  // ----- The same with shared fields and a loop -----

  class Expander {
    const fs: FileSystem
    const limits: Limits
    var seen: set<File>
    var total: nat
    var diagnostics: seq<Diagnostic>

    function View(): State
      reads this
    {
      State(seen, total, diagnostics)
    }

    constructor (fs: FileSystem, limits: Limits)
      ensures this.fs == fs && this.limits == limits && View() == NOTHING
    {
      this.fs, this.limits := fs, limits;
      seen, total, diagnostics := {}, 0, [];
    }

    method Report(d: Diagnostic)
      modifies this`diagnostics
      ensures diagnostics == old(diagnostics) + [d]
    {
      diagnostics := diagnostics + [d];
    }

    method LoadFile(target: Option<File>, name: string, depth: nat, stack: seq<File>) returns (text: string)
      requires |seen| <= limits.maxFiles && OnStack(View(), stack)
      modifies this
      ensures Loaded(View(), text) == Load(fs, limits, old(View()), target, name, depth, stack)
      decreases limits.maxFiles - |seen|, 2
    {
      if target.None? {
        Report(Boundary(name));
        return "";
      }
      var f := target.value;
      if f in stack {
        Report(Cycle(f));
        return "";
      }
      if f in seen {
        return "";
      }
      if depth > limits.maxDepth {
        Report(Depth(f));
        return "";
      }
      if |seen| >= limits.maxFiles {
        Report(Count(f));
        return "";
      }
      var raw := fs.content(f);
      if raw.None? {
        Report(InvalidUtf8(f));
        return "";
      }
      if total + Utf8Length(raw.value) > limits.maxBytes {
        Report(Bytes(f));
        return "";
      }
      text := LoadLines(f, raw.value, depth, stack);
    }

    method LoadLines(f: File, raw: string, depth: nat, stack: seq<File>) returns (text: string)
      requires |seen| < limits.maxFiles && f !in seen && OnStack(View(), stack) && fs.content(f) == Some(raw)
      requires Refuse(fs, limits, View(), f, depth, stack).None?
      modifies this
      ensures Loaded(View(), text) == Load(fs, limits, old(View()), Some(f), "", depth, stack)
      decreases limits.maxFiles - |seen|, 1
    {
      seen := seen + {f};
      total := total + Utf8Length(raw);
      var output: seq<string>, inFence, lines := [], false, SplitLines(raw);
      var inner := stack + [f];
      assert View() == Accept(fs, old(View()), f);
      ghost var all := Expand(fs, limits, View(), f, lines, false, depth, inner);
      ghost var accepted := |seen|;
      assert lines[0..] == lines;
      for k := 0 to |lines|
        invariant accepted <= |seen| <= limits.maxFiles && OnStack(View(), inner)
        invariant var rest := Expand(fs, limits, View(), f, lines[k..], inFence, depth, inner);
                  Expanded(rest.state, output + rest.output) == all
      {
        assert lines[k..] == [lines[k]] + lines[k + 1..];
        var more: seq<string>;
        more, inFence := LoadLine(f, lines[k], lines[k + 1..], inFence, depth, inner);
        Prepend(output, more, Expand(fs, limits, View(), f, lines[k + 1..], inFence, depth, inner).output);
        output := output + more;
      }
      assert lines[|lines|..] == [] && output + [] == output;
      text := TrimRight(TrimLeft(JoinLines(output)));
    }

    /** One line: kept, replaced by what it imports, or dropped with a report. */
    method LoadLine(f: File, line: string, ghost rest: seq<string>, inFence: bool, depth: nat, stack: seq<File>)
        returns (output: seq<string>, fence: bool)
      requires |seen| <= limits.maxFiles && OnStack(View(), stack)
      modifies this
      ensures old(|seen|) <= |seen| <= limits.maxFiles && OnStack(View(), stack)
      ensures var r := Expand(fs, limits, View(), f, rest, fence, depth, stack);
              Expanded(r.state, output + r.output) == old(Expand(fs, limits, View(), f, [line] + rest, inFence, depth, stack))
      decreases limits.maxFiles - |seen|, 3
    {
      assert ([line] + rest)[1..] == rest;
      fence := if IsFence(line) then !inFence else inFence;
      var directive := if fence then None else Directive(line);
      if directive.None? {
        return [line], fence;
      }
      if IsAbsolute(directive.value) {
        Report(Absolute(directive.value));
        return [], fence;
      }
      ghost var before := seen;
      var sub := LoadFile(fs.resolve(f, directive.value), directive.value, depth + 1, stack);
      Smaller(before, seen);
      return [sub], fence;
    }
  }

  lemma Prepend(a: seq<string>, b: seq<string>, c: seq<string>)
    ensures (a + b) + c == a + (b + c)
  {
  }

  // ----- Shared budgets -----

  function Size(fs: FileSystem, f: File): nat { if fs.content(f).Some? then Utf8Length(fs.content(f).value) else 0 }

  ghost function TotalSize(fs: FileSystem, files: set<File>): nat
    decreases |files|
  {
    if files == {} then 0
    else
      var f :| f in files;
      Size(fs, f) + TotalSize(fs, files - {f})
  }

  lemma {:induction false} TotalRemove(fs: FileSystem, files: set<File>, k: File)
    requires k in files
    ensures TotalSize(fs, files) == Size(fs, k) + TotalSize(fs, files - {k})
    decreases |files|
  {
    var f :| f in files && TotalSize(fs, files) == Size(fs, f) + TotalSize(fs, files - {f});
    if f != k {
      TotalRemove(fs, files - {f}, k);
      TotalRemove(fs, files - {k}, f);
      assert files - {f} - {k} == files - {k} - {f};
    }
  }

  /** The byte count is that of the files taken in, and within the limit. */
  ghost predicate Sized(fs: FileSystem, lim: Limits, s: State) {
    s.total == TotalSize(fs, s.seen) <= lim.maxBytes
  }

  lemma AcceptSized(fs: FileSystem, lim: Limits, s: State, f: File, depth: nat, stack: seq<File>)
    requires Sized(fs, lim, s) && Refuse(fs, lim, s, f, depth, stack).None?
    ensures Sized(fs, lim, Accept(fs, s, f))
  {
    TotalRemove(fs, s.seen + {f}, f);
    assert s.seen + {f} - {f} == s.seen;
  }

  lemma {:induction false} LoadSized(fs: FileSystem, lim: Limits, s: State, target: Option<File>, name: string, depth: nat, stack: seq<File>)
    requires |s.seen| <= lim.maxFiles && OnStack(s, stack) && Sized(fs, lim, s)
    ensures var r := Load(fs, lim, s, target, name, depth, stack);
            Sized(fs, lim, r.state) && s.diagnostics <= r.state.diagnostics
    decreases lim.maxFiles - |s.seen|, 0
  {
    LoadCases(fs, lim, s, target, name, depth, stack);
    if target.Some? && Refuse(fs, lim, s, target.value, depth, stack).None? {
      var f := target.value;
      AcceptSized(fs, lim, s, f, depth, stack);
      ExpandSized(fs, lim, Accept(fs, s, f), f, SplitLines(fs.content(f).value), false, depth, stack + [f]);
    }
  }

  /** A file is taken in and expanded, or nothing changes but what is reported. */
  lemma LoadCases(fs: FileSystem, lim: Limits, s: State, target: Option<File>, name: string, depth: nat, stack: seq<File>)
    requires |s.seen| <= lim.maxFiles && OnStack(s, stack)
    ensures var r := Load(fs, lim, s, target, name, depth, stack);
            if target.Some? && Refuse(fs, lim, s, target.value, depth, stack).None?
            then r.state == Expand(fs, lim, Accept(fs, s, target.value), target.value,
                                   SplitLines(fs.content(target.value).value), false, depth, stack + [target.value]).state
            else r.state.seen == s.seen && r.state.total == s.total && s.diagnostics <= r.state.diagnostics && r.text == ""
  {
  }

  lemma {:induction false} ExpandSized(fs: FileSystem, lim: Limits, s: State, f: File, lines: seq<string>, inFence: bool, depth: nat, stack: seq<File>)
    requires |s.seen| <= lim.maxFiles && OnStack(s, stack) && Sized(fs, lim, s)
    ensures var r := Expand(fs, lim, s, f, lines, inFence, depth, stack);
            Sized(fs, lim, r.state) && s.diagnostics <= r.state.diagnostics
    decreases lim.maxFiles - |s.seen|, |lines|
  {
    if lines != [] {
      var fence := if IsFence(lines[0]) then !inFence else inFence;
      var directive := if fence then None else Directive(lines[0]);
      if directive.None? {
        ExpandSized(fs, lim, s, f, lines[1..], fence, depth, stack);
      } else if IsAbsolute(directive.value) {
        ExpandSized(fs, lim, s.(diagnostics := s.diagnostics + [Absolute(directive.value)]), f, lines[1..], fence, depth, stack);
      } else {
        var sub := Load(fs, lim, s, fs.resolve(f, directive.value), directive.value, depth + 1, stack);
        LoadSized(fs, lim, s, fs.resolve(f, directive.value), directive.value, depth + 1, stack);
        Smaller(s.seen, sub.state.seen);
        ExpandSized(fs, lim, sub.state, f, lines[1..], fence, depth, stack);
      }
    }
  }

  // ----- The output is no longer than what was read -----

  function Joined(lines: seq<string>): nat {
    if lines == [] then 0 else |lines[0]| + if |lines| == 1 then 0 else 1 + Joined(lines[1..])
  }

  lemma {:induction false} JoinedLength(lines: seq<string>)
    ensures |JoinLines(lines)| == Joined(lines)
  {
    if |lines| > 1 {
      JoinedLength(lines[1..]);
    }
  }

  lemma JoinedFirst(line: string, rest: seq<string>)
    ensures Joined([line] + rest) == |line| + if rest == [] then 0 else 1 + Joined(rest)
  {
    assert ([line] + rest)[1..] == rest;
  }

  lemma {:induction false} SplitLength(raw: string)
    ensures Joined(SplitLines(raw)) <= |raw|
    decreases |raw|
  {
    if raw != "" {
      var line := Line(raw);
      if |line| < |raw| {
        var rest := raw[|line|..];
        var tail := if BreakLength(rest) <= |rest| then rest[BreakLength(rest)..] else "";
        SplitLength(tail);
        JoinedFirst(line, SplitLines(tail));
      }
    }
  }

  lemma {:induction false} Utf8AtLeast(s: string)
    ensures |s| <= Utf8Length(s)
  {
    if s != "" {
      Utf8AtLeast(s[1..]);
    }
  }

  lemma {:induction false} LoadLength(fs: FileSystem, lim: Limits, s: State, target: Option<File>, name: string, depth: nat, stack: seq<File>)
    requires |s.seen| <= lim.maxFiles && OnStack(s, stack)
    ensures var r := Load(fs, lim, s, target, name, depth, stack); s.total + |r.text| <= r.state.total
    decreases lim.maxFiles - |s.seen|, 0
  {
    if target.Some? && Refuse(fs, lim, s, target.value, depth, stack).None? {
      var f := target.value;
      var raw := fs.content(f).value;
      ExpandLength(fs, lim, Accept(fs, s, f), f, SplitLines(raw), false, depth, stack + [f]);
      SplitLength(raw);
      Utf8AtLeast(raw);
      JoinedLength(Expand(fs, lim, Accept(fs, s, f), f, SplitLines(raw), false, depth, stack + [f]).output);
    }
  }

  lemma {:induction false} ExpandLength(fs: FileSystem, lim: Limits, s: State, f: File, lines: seq<string>, inFence: bool, depth: nat, stack: seq<File>)
    requires |s.seen| <= lim.maxFiles && OnStack(s, stack)
    ensures var r := Expand(fs, lim, s, f, lines, inFence, depth, stack);
            && s.total <= r.state.total
            && |r.output| <= |lines|
            && Joined(r.output) <= Joined(lines) + r.state.total - s.total
    decreases lim.maxFiles - |s.seen|, |lines|
  {
    if lines != [] {
      assert [lines[0]] + lines[1..] == lines;
      JoinedFirst(lines[0], lines[1..]);
      var fence := if IsFence(lines[0]) then !inFence else inFence;
      var directive := if fence then None else Directive(lines[0]);
      if directive.None? {
        ExpandLength(fs, lim, s, f, lines[1..], fence, depth, stack);
        JoinedFirst(lines[0], Expand(fs, lim, s, f, lines[1..], fence, depth, stack).output);
      } else if IsAbsolute(directive.value) {
        ExpandLength(fs, lim, s.(diagnostics := s.diagnostics + [Absolute(directive.value)]), f, lines[1..], fence, depth, stack);
      } else {
        var sub := Load(fs, lim, s, fs.resolve(f, directive.value), directive.value, depth + 1, stack);
        LoadLength(fs, lim, s, fs.resolve(f, directive.value), directive.value, depth + 1, stack);
        Smaller(s.seen, sub.state.seen);
        ExpandLength(fs, lim, sub.state, f, lines[1..], fence, depth, stack);
        JoinedFirst(sub.text, Expand(fs, lim, sub.state, f, lines[1..], fence, depth, stack).output);
      }
    }
  }

  /**
   * For every file graph, cyclic ones included: no more than `maxFiles` files are taken in, each once; their
   * sizes add up to the byte count, which stays within the limit; and the text is no longer than that.
   */
  lemma ExpansionIsBounded(fs: FileSystem, lim: Limits, root: Option<File>, name: string)
    ensures var r := ExpandImports(fs, lim, root, name);
            && |r.state.seen| <= lim.maxFiles
            && r.state.total == TotalSize(fs, r.state.seen) <= lim.maxBytes
            && |r.text| <= r.state.total
  {
    LoadSized(fs, lim, NOTHING, root, name, 0, []);
    LoadLength(fs, lim, NOTHING, root, name, 0, []);
  }

  // ----- Nothing reported means nothing left out -----

  function FenceAt(lines: seq<string>, inFence: bool, k: nat): bool
    requires k <= |lines|
  {
    if k == 0 then inFence else FenceAt(lines[1..], if IsFence(lines[0]) then !inFence else inFence, k - 1)
  }

  /** The directive at a line that is outside fences. */
  function LiveImport(lines: seq<string>, inFence: bool, k: nat): Option<string>
    requires k < |lines|
  {
    if FenceAt(lines, inFence, k + 1) then None else Directive(lines[k])
  }

  predicate Met(fs: FileSystem, f: File, lines: seq<string>, inFence: bool, k: nat, seen: set<File>)
    requires k < |lines|
  {
    var path := LiveImport(lines, inFence, k);
    path.Some? ==> !IsAbsolute(path.value) && fs.resolve(f, path.value).Some? && fs.resolve(f, path.value).value in seen
  }

  /** Every live import of the file leads to a file that was taken in. */
  predicate Closed(fs: FileSystem, f: File, seen: set<File>) {
    fs.content(f).Some? && forall k :: 0 <= k < |SplitLines(fs.content(f).value)| ==> Met(fs, f, SplitLines(fs.content(f).value), false, k, seen)
  }

  lemma ClosedGrows(fs: FileSystem, f: File, seen: set<File>, more: set<File>)
    requires Closed(fs, f, seen) && seen <= more
    ensures Closed(fs, f, more)
  {
    var lines := SplitLines(fs.content(f).value);
    forall k | 0 <= k < |lines|
      ensures Met(fs, f, lines, false, k, more)
    {
      assert Met(fs, f, lines, false, k, seen);
    }
  }

  lemma MetLater(fs: FileSystem, f: File, lines: seq<string>, inFence: bool, k: nat, seen: set<File>)
    requires 0 < k < |lines|
    ensures var fence := if IsFence(lines[0]) then !inFence else inFence;
            Met(fs, f, lines, inFence, k, seen) == Met(fs, f, lines[1..], fence, k - 1, seen)
  {
  }

  lemma {:induction false} LoadCloses(fs: FileSystem, lim: Limits, s: State, target: Option<File>, name: string, depth: nat, stack: seq<File>)
    requires |s.seen| <= lim.maxFiles && OnStack(s, stack)
    ensures var r := Load(fs, lim, s, target, name, depth, stack);
            && s.diagnostics <= r.state.diagnostics
            && (r.state.diagnostics == s.diagnostics ==>
                  && target.Some? && target.value in r.state.seen
                  && forall g :: g in r.state.seen && g !in s.seen ==> Closed(fs, g, r.state.seen))
    decreases lim.maxFiles - |s.seen|, 0
  {
    if target.Some? && Refuse(fs, lim, s, target.value, depth, stack).None? {
      var f := target.value;
      ExpandCloses(fs, lim, Accept(fs, s, f), f, SplitLines(fs.content(f).value), false, depth, stack + [f]);
    }
  }

  lemma {:induction false} ExpandCloses(fs: FileSystem, lim: Limits, s: State, f: File, lines: seq<string>, inFence: bool, depth: nat, stack: seq<File>)
    requires |s.seen| <= lim.maxFiles && OnStack(s, stack)
    ensures var r := Expand(fs, lim, s, f, lines, inFence, depth, stack);
            && s.diagnostics <= r.state.diagnostics
            && (r.state.diagnostics == s.diagnostics ==>
                  && (forall k :: 0 <= k < |lines| ==> Met(fs, f, lines, inFence, k, r.state.seen))
                  && forall g :: g in r.state.seen && g !in s.seen ==> Closed(fs, g, r.state.seen))
    decreases lim.maxFiles - |s.seen|, |lines|
  {
    if lines != [] {
      var fence := if IsFence(lines[0]) then !inFence else inFence;
      var directive := if fence then None else Directive(lines[0]);
      var r := Expand(fs, lim, s, f, lines, inFence, depth, stack);
      assert FenceAt(lines, inFence, 1) == FenceAt(lines[1..], fence, 0) == fence;
      assert LiveImport(lines, inFence, 0) == directive;
      forall k | 0 < k < |lines|
        ensures Met(fs, f, lines, inFence, k, r.state.seen) == Met(fs, f, lines[1..], fence, k - 1, r.state.seen)
      {
        MetLater(fs, f, lines, inFence, k, r.state.seen);
      }
      if directive.None? {
        ExpandCloses(fs, lim, s, f, lines[1..], fence, depth, stack);
      } else if IsAbsolute(directive.value) {
        ExpandCloses(fs, lim, s.(diagnostics := s.diagnostics + [Absolute(directive.value)]), f, lines[1..], fence, depth, stack);
      } else {
        var sub := Load(fs, lim, s, fs.resolve(f, directive.value), directive.value, depth + 1, stack);
        LoadCloses(fs, lim, s, fs.resolve(f, directive.value), directive.value, depth + 1, stack);
        Smaller(s.seen, sub.state.seen);
        ExpandCloses(fs, lim, sub.state, f, lines[1..], fence, depth, stack);
        if r.state.diagnostics == s.diagnostics {
          forall g | g in r.state.seen && g !in s.seen
            ensures Closed(fs, g, r.state.seen)
          {
            if g in sub.state.seen {
              ClosedGrows(fs, g, sub.state.seen, r.state.seen);
            }
          }
        }
      }
    }
  }

  /** An expansion that reports nothing has taken in its root and, with every file, everything that file imports. */
  lemma SilentMeansComplete(fs: FileSystem, lim: Limits, root: Option<File>, name: string)
    requires ExpandImports(fs, lim, root, name).state.diagnostics == []
    ensures root.Some? && root.value in ExpandImports(fs, lim, root, name).state.seen
    ensures forall g :: g in ExpandImports(fs, lim, root, name).state.seen ==>
              Closed(fs, g, ExpandImports(fs, lim, root, name).state.seen)
  {
    LoadCloses(fs, lim, NOTHING, root, name, 0, []);
  }

  // ----- Nothing is taken in that is not imported -----

  ghost predicate Imports(fs: FileSystem, f: File, g: File) {
    && fs.content(f).Some?
    && exists k :: 0 <= k < |SplitLines(fs.content(f).value)| && ImportsAt(fs, f, g, k)
  }

  predicate ImportsAt(fs: FileSystem, f: File, g: File, k: nat)
    requires fs.content(f).Some? && k < |SplitLines(fs.content(f).value)|
  {
    var path := LiveImport(SplitLines(fs.content(f).value), false, k);
    path.Some? && !IsAbsolute(path.value) && fs.resolve(f, path.value) == Some(g)
  }

  ghost predicate ImportPath(fs: FileSystem, path: seq<File>) {
    path != [] && forall k :: 0 < k < |path| ==> Imports(fs, path[k - 1], path[k])
  }

  /** Reached by at most `n` files in a row, each importing the next. */
  ghost predicate Reached(fs: FileSystem, root: File, g: File, n: nat) {
    exists path :: ImportPath(fs, path) && |path| <= n && path[0] == root && path[|path| - 1] == g
  }

  lemma {:induction false} FenceNext(lines: seq<string>, inFence: bool, k: nat)
    requires k < |lines|
    ensures FenceAt(lines, inFence, k + 1) == if IsFence(lines[k]) then !FenceAt(lines, inFence, k) else FenceAt(lines, inFence, k)
  {
    var fence := if IsFence(lines[0]) then !inFence else inFence;
    if k > 0 {
      FenceNext(lines[1..], fence, k - 1);
    } else {
      assert FenceAt(lines, inFence, 1) == FenceAt(lines[1..], fence, 0);
    }
  }

  lemma {:induction false} LoadReaches(fs: FileSystem, lim: Limits, s: State, target: Option<File>, name: string, depth: nat, stack: seq<File>, root: File)
    requires |s.seen| <= lim.maxFiles && OnStack(s, stack) && |stack| == depth
    requires target.Some? ==> ImportPath(fs, stack + [target.value]) && (stack + [target.value])[0] == root
    ensures var r := Load(fs, lim, s, target, name, depth, stack);
            forall g :: g in r.state.seen && g !in s.seen ==> Reached(fs, root, g, lim.maxDepth + 1)
    decreases lim.maxFiles - |s.seen|, 0, 0
  {
    if target.Some? && Refuse(fs, lim, s, target.value, depth, stack).None? {
      var f := target.value;
      var path := stack + [f];
      assert path[|path| - 1] == f;
      assert Reached(fs, root, f, lim.maxDepth + 1);
      ExpandReaches(fs, lim, Accept(fs, s, f), f, 0, depth, path, root);
    }
  }

  lemma {:induction false} ExpandReaches(fs: FileSystem, lim: Limits, s: State, f: File, j: nat, depth: nat, stack: seq<File>, root: File)
    requires |s.seen| <= lim.maxFiles && OnStack(s, stack) && |stack| == depth + 1
    requires ImportPath(fs, stack) && stack[0] == root && stack[|stack| - 1] == f
    requires fs.content(f).Some? && j <= |SplitLines(fs.content(f).value)|
    ensures var lines := SplitLines(fs.content(f).value);
            var r := Expand(fs, lim, s, f, lines[j..], FenceAt(lines, false, j), depth, stack);
            forall g :: g in r.state.seen && g !in s.seen ==> Reached(fs, root, g, lim.maxDepth + 1)
    decreases lim.maxFiles - |s.seen|, 1, |SplitLines(fs.content(f).value)| - j
  {
    var lines := SplitLines(fs.content(f).value);
    if j < |lines| {
      assert lines[j..][1..] == lines[j + 1..];
      FenceNext(lines, false, j);
      var directive := LiveImport(lines, false, j);
      if directive.None? {
        ExpandReaches(fs, lim, s, f, j + 1, depth, stack, root);
      } else if IsAbsolute(directive.value) {
        ExpandReaches(fs, lim, s.(diagnostics := s.diagnostics + [Absolute(directive.value)]), f, j + 1, depth, stack, root);
      } else {
        var target := fs.resolve(f, directive.value);
        var sub := Load(fs, lim, s, target, directive.value, depth + 1, stack);
        if target.Some? {
          assert ImportsAt(fs, f, target.value, j);
          Extended(fs, stack, target.value);
        }
        LoadReaches(fs, lim, s, target, directive.value, depth + 1, stack, root);
        Smaller(s.seen, sub.state.seen);
        ExpandReaches(fs, lim, sub.state, f, j + 1, depth, stack, root);
      }
    }
  }

  lemma Extended(fs: FileSystem, path: seq<File>, g: File)
    requires ImportPath(fs, path) && Imports(fs, path[|path| - 1], g)
    ensures ImportPath(fs, path + [g])
  {
    var longer := path + [g];
    forall k | 0 < k < |longer|
      ensures Imports(fs, longer[k - 1], longer[k])
    {
      assert longer[k - 1] == path[k - 1];
      if k < |path| {
        assert Imports(fs, path[k - 1], path[k]);
      }
    }
  }

  /** Every file taken in is reached from the root by live imports, through no more levels than the depth limit. */
  lemma OnlyImportedFiles(fs: FileSystem, lim: Limits, root: File, name: string)
    ensures forall g :: g in ExpandImports(fs, lim, Some(root), name).state.seen ==> Reached(fs, root, g, lim.maxDepth + 1)
  {
    assert ImportPath(fs, [root]);
    assert [] + [root] == [root];
    LoadReaches(fs, lim, NOTHING, Some(root), name, 0, [], root);
    forall g | g in ExpandImports(fs, lim, Some(root), name).state.seen
      ensures Reached(fs, root, g, lim.maxDepth + 1)
    {
      assert g !in NOTHING.seen;
    }
  }
}
