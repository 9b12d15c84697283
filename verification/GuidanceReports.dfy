/** What an import expansion reports is so: every diagnostic has its cause in the files, the limits or the result. */
module GuidanceReports {
  import opened Messages
  import opened GuidanceImports
  import opened GuidanceText

  /** Some line of the file imports this path. */
  ghost predicate Asks(fs: FileSystem, f: File, path: string) { exists k :: Import(fs, f, k) == Some(path) }

  /** A chain of `n` files, each importing the next. */
  ghost predicate Chain(fs: FileSystem, from: File, to: File, n: nat) {
    exists path :: ImportPath(fs, path) && |path| == n && path[0] == from && path[n - 1] == to
  }

  ghost predicate Warranted(fs: FileSystem, lim: Limits, root: Option<File>, name: string, seen: set<File>, d: Diagnostic) {
    match d
    case Boundary(path) => (root == None && path == name) || exists f :: f in seen && Asks(fs, f, path) && fs.resolve(f, path) == None
    case Absolute(path) => "/" <= path && exists f :: f in seen && Asks(fs, f, path)
    case Cycle(f) => exists n: nat :: n > 1 && Chain(fs, f, f, n)
    case Depth(f) => root.Some? && Chain(fs, root.value, f, lim.maxDepth + 2)
    case Count(f) => |seen| == lim.maxFiles
    case InvalidUtf8(f) => fs.content(f) == None
    case Bytes(f) => fs.content(f).Some? && TotalSize(fs, seen) + Utf8Length(fs.content(f).value) > lim.maxBytes
  }

  ghost predicate AllWarranted(fs: FileSystem, lim: Limits, root: Option<File>, name: string, s: State) {
    forall d :: d in s.diagnostics ==> Warranted(fs, lim, root, name, s.seen, d)
  }

  lemma {:induction false} TotalGrows(fs: FileSystem, a: set<File>, b: set<File>)
    requires a <= b
    ensures TotalSize(fs, a) <= TotalSize(fs, b)
    decreases |b - a|
  {
    if a != b {
      var f :| f in b && f !in a;
      TotalRemove(fs, a + {f}, f);
      assert a + {f} - {f} == a && b - (a + {f}) < b - a;
      Smaller(b - (a + {f}), b - a - {f});
      TotalGrows(fs, a + {f}, b);
    }
  }

  lemma Grows(fs: FileSystem, lim: Limits, root: Option<File>, name: string, a: set<File>, b: set<File>, d: Diagnostic)
    requires Warranted(fs, lim, root, name, a, d) && a <= b && |b| <= lim.maxFiles
    ensures Warranted(fs, lim, root, name, b, d)
  {
    TotalGrows(fs, a, b);
    Smaller(a, b);
  }

  /** The files under expansion: a chain from the root whose last member is the file at hand. */
  ghost predicate Under(fs: FileSystem, root: Option<File>, stack: seq<File>, f: File) {
    root.Some? && ImportPath(fs, stack + [f]) && (stack + [f])[0] == root.value
  }

  lemma CycleChain(fs: FileSystem, stack: seq<File>, f: File) returns (n: nat)
    requires ImportPath(fs, stack + [f]) && f in stack
    ensures n > 1 && Chain(fs, f, f, n)
  {
    var all := stack + [f];
    var i :| 0 <= i < |stack| && stack[i] == f;
    var path := all[i..];
    n := |path|;
    forall k | 0 < k < |path|
      ensures Imports(fs, path[k - 1], path[k])
    {
      assert path[k] == all[i + k] && path[k - 1] == all[i + k - 1];
    }
    assert ImportPath(fs, path);
  }

  lemma RefusedWarranted(fs: FileSystem, lim: Limits, s: State, f: File, depth: nat, stack: seq<File>, root: Option<File>, name: string)
    requires Refuse(fs, lim, s, f, depth, stack).Some?
    requires |s.seen| <= lim.maxFiles && Sized(fs, lim, s) && Under(fs, root, stack, f) && |stack| == depth <= lim.maxDepth + 1
    requires AllWarranted(fs, lim, root, name, s)
    ensures AllWarranted(fs, lim, root, name, Refuse(fs, lim, s, f, depth, stack).value.state)
  {
    if f in stack {
      var n := CycleChain(fs, stack, f);
      assert Warranted(fs, lim, root, name, s.seen, Cycle(f));
    } else if depth > lim.maxDepth {
      assert |stack + [f]| == lim.maxDepth + 2;
      assert Chain(fs, root.value, f, lim.maxDepth + 2);
    }
  }

  lemma AcceptWarranted(fs: FileSystem, lim: Limits, s: State, f: File, root: Option<File>, name: string)
    requires fs.content(f).Some? && |s.seen| < lim.maxFiles && AllWarranted(fs, lim, root, name, s)
    ensures AllWarranted(fs, lim, root, name, Accept(fs, s, f))
  {
    forall d | d in s.diagnostics
      ensures Warranted(fs, lim, root, name, s.seen + {f}, d)
    {
      Grows(fs, lim, root, name, s.seen, s.seen + {f}, d);
    }
  }

  lemma {:induction false} LoadWarranted(fs: FileSystem, lim: Limits, s: State, f: File, name: string, depth: nat, stack: seq<File>, root: Option<File>, top: string)
    requires |s.seen| <= lim.maxFiles && OnStack(s, stack) && Sized(fs, lim, s)
    requires Under(fs, root, stack, f) && |stack| == depth <= lim.maxDepth + 1
    requires AllWarranted(fs, lim, root, top, s)
    ensures AllWarranted(fs, lim, root, top, Load(fs, lim, s, Some(f), name, depth, stack).state)
    decreases lim.maxFiles - |s.seen|, 0, 0
  {
    if Refuse(fs, lim, s, f, depth, stack).Some? {
      RefusedWarranted(fs, lim, s, f, depth, stack, root, top);
    } else {
      AcceptSized(fs, lim, s, f, depth, stack);
      AcceptWarranted(fs, lim, s, f, root, top);
      assert LinesOf(fs, f)[0..] == LinesOf(fs, f);
      LinesWarranted(fs, lim, Accept(fs, s, f), f, 0, depth, stack + [f], root, top);
    }
  }

  lemma {:induction false} LinesWarranted(fs: FileSystem, lim: Limits, s: State, f: File, j: nat, depth: nat, stack: seq<File>, root: Option<File>, top: string)
    requires |s.seen| <= lim.maxFiles && OnStack(s, stack) && Sized(fs, lim, s) && j <= |LinesOf(fs, f)|
    requires stack != [] && stack[|stack| - 1] == f && |stack| == depth + 1 <= lim.maxDepth + 1
    requires root.Some? && ImportPath(fs, stack) && stack[0] == root.value
    requires AllWarranted(fs, lim, root, top, s)
    ensures AllWarranted(fs, lim, root, top, ExpandFrom(fs, lim, s, f, j, depth, stack).state)
    decreases lim.maxFiles - |s.seen|, 1, |LinesOf(fs, f)| - j
  {
    if j < |LinesOf(fs, f)| {
      ExpandNext(fs, lim, s, f, j, depth, stack);
      var directive := Import(fs, f, j);
      if directive.None? {
        LinesWarranted(fs, lim, s, f, j + 1, depth, stack, root, top);
      } else {
        assert Asks(fs, f, directive.value);
        if IsAbsolute(directive.value) {
          assert Warranted(fs, lim, root, top, s.seen, Absolute(directive.value));
          LinesWarranted(fs, lim, Noted(s, directive.value), f, j + 1, depth, stack, root, top);
        } else {
          ImportWarranted(fs, lim, s, f, j, depth, stack, root, top);
          var sub := Load(fs, lim, s, fs.resolve(f, directive.value), directive.value, depth + 1, stack);
          LoadSized(fs, lim, s, fs.resolve(f, directive.value), directive.value, depth + 1, stack);
          Smaller(s.seen, sub.state.seen);
          LinesWarranted(fs, lim, sub.state, f, j + 1, depth, stack, root, top);
        }
      }
    }
  }

  lemma {:induction false} ImportWarranted(fs: FileSystem, lim: Limits, s: State, f: File, j: nat, depth: nat, stack: seq<File>, root: Option<File>, top: string)
    requires |s.seen| <= lim.maxFiles && OnStack(s, stack) && Sized(fs, lim, s)
    requires stack != [] && stack[|stack| - 1] == f && |stack| == depth + 1 <= lim.maxDepth + 1
    requires root.Some? && ImportPath(fs, stack) && stack[0] == root.value
    requires AllWarranted(fs, lim, root, top, s)
    requires Import(fs, f, j).Some? && !IsAbsolute(Import(fs, f, j).value)
    ensures var path := Import(fs, f, j).value;
            AllWarranted(fs, lim, root, top, Load(fs, lim, s, fs.resolve(f, path), path, depth + 1, stack).state)
    decreases lim.maxFiles - |s.seen|, 0, 1
  {
    var path := Import(fs, f, j).value;
    var target := fs.resolve(f, path);
    if target.None? {
      assert Asks(fs, f, path) && f in s.seen;
      assert Warranted(fs, lim, root, top, s.seen, Boundary(path));
    } else {
      assert ImportsAt(fs, f, target.value, j);
      Extended(fs, stack, target.value);
      LoadWarranted(fs, lim, s, target.value, path, depth + 1, stack, root, top);
    }
  }

  /**
   * No false report: an expansion names a boundary or an absolute path only when a file taken in asks for it, a
   * cycle only when the file imports itself through a chain, the depth limit only for a file that many levels
   * below the root, and the count or byte limit only when the files taken in leave no room.
   */
  lemma ReportsAreWarranted(fs: FileSystem, lim: Limits, root: Option<File>, name: string, d: Diagnostic)
    requires d in ExpandImports(fs, lim, root, name).state.diagnostics
    ensures Warranted(fs, lim, root, name, ExpandImports(fs, lim, root, name).state.seen, d)
  {
    if root.Some? {
      assert [] + [root.value] == [root.value];
      assert TotalSize(fs, {}) == 0;
      LoadWarranted(fs, lim, NOTHING, root.value, name, 0, [], root, name);
    }
  }
}
