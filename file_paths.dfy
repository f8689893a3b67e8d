/**
 * Lexical path handling on `/`-separated names: `path/filepath.Clean` (the
 * "Lexical File Names in Plan 9" rules), `filepath.IsAbs`, `filepath.Join(".", f)`
 * and the bot's output-name guard `isSafeFilename`.
 *
 * `Clean` is stated on path elements: split at every `/`, drop empty and `.`
 * elements, let `..` remove the element before it (dropped at the root of a
 * rooted path, kept at the head of a relative one), and join what is left with
 * single `/`s; a rooted path keeps its leading `/` and an empty result is `.`.
 */
module FilePaths {

  /** `strings.HasPrefix`. */
  predicate HasPrefix(s: string, prefix: string) {
    |prefix| <= |s| && forall i :: 0 <= i < |prefix| ==> s[i] == prefix[i]
  }

  /** `filepath.IsAbs` with `/` as the only separator. */
  predicate IsAbs(p: string) {
    |p| > 0 && p[0] == '/'
  }

  /** `strings.Split(s, "/")`: the text between consecutive separators. */
  function Split(s: string): (parts: seq<string>)
    ensures |parts| >= 1
    ensures forall i :: 0 <= i < |parts| ==> '/' !in parts[i]
    ensures JoinPath(parts) == s
    decreases |s|
  {
    if s == [] then [""]
    else if s[0] == '/' then
      var rest := Split(s[1..]);
      assert ([""] + rest)[1..] == rest;
      [""] + rest
    else
      var rest := Split(s[1..]);
      var parts := [[s[0]] + rest[0]] + rest[1..];
      assert parts[1..] == rest[1..];
      assert s == [s[0]] + s[1..];
      parts
  }

  /** `strings.Join(elements, "/")`. */
  function JoinPath(elements: seq<string>): string
    decreases |elements|
  {
    if elements == [] then ""
    else if |elements| == 1 then elements[0]
    else elements[0] + "/" + JoinPath(elements[1..])
  }

  /** What a cleaned path may be made of: a non-empty name other than `.` without a separator. */
  predicate IsElement(e: string) {
    e != "" && e != "." && '/' !in e
  }

  predicate AllElements(stack: seq<string>) {
    forall i :: 0 <= i < |stack| ==> IsElement(stack[i])
  }

  /** One element of the input applied to the elements kept so far. */
  function Push(stack: seq<string>, element: string, rooted: bool): seq<string> {
    if element == "" || element == "." then stack
    else if element == ".." then
      if |stack| > 0 && stack[|stack| - 1] != ".." then stack[..|stack| - 1]
      else if rooted then stack
      else stack + [".."]
    else stack + [element]
  }

  /** The elements kept after applying `elements`, left to right, to `stack`. */
  function Resolve(stack: seq<string>, elements: seq<string>, rooted: bool): seq<string>
    decreases |elements|
  {
    if elements == [] then stack
    else Resolve(Push(stack, elements[0], rooted), elements[1..], rooted)
  }

  /** The elements that the cleaned form of `p` names, in order. */
  function Entries(p: string): seq<string> {
    Resolve([], Split(p), IsAbs(p))
  }

  /** `filepath.Clean` on `/`-separated paths. */
  function Clean(p: string): (c: string)
    ensures c != ""
    ensures IsAbs(c) <==> IsAbs(p)
  {
    var body := JoinPath(Entries(p));
    EntriesAreElements(p);
    JoinPathHead(Entries(p));
    if IsAbs(p) then "/" + body
    else if body == "" then "."
    else body
  }

  /** `filepath.Join(".", f)`: the non-empty arguments joined with `/`, then cleaned (`Clean(".")` is `.`). */
  function JoinDot(f: string): string {
    if f == "" then "." else Clean("./" + f)
  }

  /**
   * `isSafeFilename` (cmd/adan-bot/profiling.go): the cleaned name contains no
   * separator, does not start with `..`, is not absolute, and is neither empty nor `.`.
   */
  predicate IsSafeFilename(f: string) {
    var c := Clean(f);
    '/' !in c && !HasPrefix(c, "..") && !IsAbs(c) && c != "" && c != "."
  }

  // ---------------------------------------------------------------------------
  // Facts about splitting, joining and resolving

  /** A name without a separator splits into itself. */
  lemma {:induction false} SplitElement(s: string)
    requires '/' !in s
    ensures Split(s) == [s]
    decreases |s|
  {
    if s != [] {
      SplitElement(s[1..]);
      assert [s[0]] + s[1..] == s;
    }
  }

  /** Splitting `a + "/" + b` yields `a` followed by the elements of `b`. */
  lemma {:induction false} SplitAtSeparator(a: string, b: string)
    requires '/' !in a
    ensures Split(a + "/" + b) == [a] + Split(b)
    decreases |a|
  {
    if a == [] {
      assert a + "/" + b == ['/'] + b;
      assert (['/'] + b)[1..] == b;
    } else {
      SplitAtSeparator(a[1..], b);
      assert (a + "/" + b)[1..] == a[1..] + "/" + b;
      assert [a[0]] + a[1..] == a;
    }
  }

  /** Every element that `Resolve` keeps is a proper name, given proper inputs. */
  lemma {:induction false} ResolveKeepsElements(stack: seq<string>, elements: seq<string>, rooted: bool)
    requires AllElements(stack)
    requires forall i :: 0 <= i < |elements| ==> '/' !in elements[i]
    ensures AllElements(Resolve(stack, elements, rooted))
    decreases |elements|
  {
    if elements != [] {
      var next := Push(stack, elements[0], rooted);
      assert AllElements(next);
      ResolveKeepsElements(next, elements[1..], rooted);
    }
  }

  /** The entries of any path are proper names. */
  lemma EntriesAreElements(p: string)
    ensures AllElements(Entries(p))
  {
    ResolveKeepsElements([], Split(p), IsAbs(p));
  }

  /** Joining proper names: empty only for no names, never starting with `/`, and separator-free only for one name. */
  lemma {:induction false} JoinPathHead(elements: seq<string>)
    requires AllElements(elements)
    ensures JoinPath(elements) == "" <==> elements == []
    ensures JoinPath(elements) != "" ==> JoinPath(elements)[0] != '/'
    ensures '/' in JoinPath(elements) <==> |elements| >= 2
    decreases |elements|
  {
    if |elements| >= 2 {
      JoinPathHead(elements[1..]);
      var j := JoinPath(elements);
      assert j[|elements[0]|] == '/';
      assert j[0] == elements[0][0];
    }
  }

  /** Resolving starts by pushing the first element. */
  lemma ResolveHead(stack: seq<string>, e: string, rest: seq<string>, rooted: bool)
    ensures Resolve(stack, [e] + rest, rooted) == Resolve(Push(stack, e, rooted), rest, rooted)
  {
    assert ([e] + rest)[1..] == rest;
  }

  /** The position of the first separator in a name that has one. */
  function FirstSeparator(s: string): (k: nat)
    requires '/' in s
    ensures k < |s| && s[k] == '/' && '/' !in s[..k]
    decreases |s|
  {
    if s[0] == '/' then 0
    else
      var k := FirstSeparator(s[1..]);
      assert s[..k + 1] == [s[0]] + s[1..][..k];
      k + 1
  }

  /** Resolving the elements of `a//b` and of `a/b` from any stack gives the same result. */
  lemma {:induction false} CollapseResolve(stack: seq<string>, a: string, b: string, rooted: bool)
    ensures Resolve(stack, Split(a + "//" + b), rooted) == Resolve(stack, Split(a + "/" + b), rooted)
    decreases |a|
  {
    if '/' !in a {
      assert a + "//" + b == a + "/" + ("/" + b);
      SplitAtSeparator(a, "/" + b);
      assert ("/" + b)[1..] == b;
      assert Split("/" + b) == [""] + Split(b);
      SplitAtSeparator(a, b);
      ResolveHead(stack, a, [""] + Split(b), rooted);
      ResolveHead(Push(stack, a, rooted), "", Split(b), rooted);
      ResolveHead(stack, a, Split(b), rooted);
    } else {
      var k := FirstSeparator(a);
      var head, tail := a[..k], a[k + 1..];
      assert a == head + "/" + tail;
      assert a + "//" + b == head + "/" + (tail + "//" + b);
      assert a + "/" + b == head + "/" + (tail + "/" + b);
      SplitAtSeparator(head, tail + "//" + b);
      SplitAtSeparator(head, tail + "/" + b);
      ResolveHead(stack, head, Split(tail + "//" + b), rooted);
      ResolveHead(stack, head, Split(tail + "/" + b), rooted);
      CollapseResolve(Push(stack, head, rooted), tail, b, rooted);
    }
  }

  /** A doubled separator, wherever it stands, cleans like a single one: the empty element between them is dropped. */
  lemma SeparatorsCollapse(a: string, b: string)
    ensures Clean(a + "//" + b) == Clean(a + "/" + b)
  {
    var rooted := IsAbs(a + "/" + b);
    if a == [] {
      assert (a + "//" + b)[0] == '/' && (a + "/" + b)[0] == '/';
    } else {
      assert (a + "//" + b)[0] == a[0] == (a + "/" + b)[0];
    }
    assert IsAbs(a + "//" + b) == rooted;
    CollapseResolve([], a, b, rooted);
    assert Entries(a + "//" + b) == Entries(a + "/" + b);
  }

  // ---------------------------------------------------------------------------
  // What the guard accepts

  /**
   * A name is safe exactly when it is relative and cleans to one single entry
   * of the current directory that does not start with `..`; the cleaned form is
   * then that entry.
   */
  lemma SafeIffSingleEntry(f: string)
    ensures IsSafeFilename(f) <==> !IsAbs(f) && |Entries(f)| == 1 && !HasPrefix(Entries(f)[0], "..")
    ensures IsSafeFilename(f) ==> Clean(f) == Entries(f)[0]
  {
    var e := Entries(f);
    EntriesAreElements(f);
    JoinPathHead(e);
    if !IsAbs(f) && |e| == 1 {
      assert Clean(f) == e[0];
    }
  }

  /** A single proper name other than `..` is already clean. */
  lemma CleanElement(s: string)
    requires IsElement(s) && s != ".."
    ensures Clean(s) == s
    ensures IsSafeFilename(s) <==> !HasPrefix(s, "..")
  {
    SplitElement(s);
    assert Push([], s, IsAbs(s)) == [s];
    assert [s][1..] == [];
    assert Entries(s) == Resolve([s], [], IsAbs(s)) == [s];
  }

  /** For a safe name, `filepath.Join(".", f)` is its cleaned form: the same file. */
  lemma JoinDotIsClean(f: string)
    requires IsSafeFilename(f)
    ensures JoinDot(f) == Clean(f)
  {
    assert f != "" by {
      SplitElement("");
      assert Entries("") == [];
      SafeIffSingleEntry(f);
    }
    SplitAtSeparator(".", f);
    assert "./" + f == "." + "/" + f;
    assert Entries("./" + f) == Entries(f);
  }

  /** The default output names pass the guard. */
  lemma DefaultNamesAreSafe()
    ensures IsSafeFilename("trace.out") && IsSafeFilename("cpu.pprof") && IsSafeFilename("heap.pprof")
  {
    CleanElement("trace.out");
    CleanElement("cpu.pprof");
    CleanElement("heap.pprof");
  }

  /** Resolving two or three elements, one `Push` at a time. */
  lemma ResolveShort(stack: seq<string>, e1: string, e2: string, e3: string, rooted: bool)
    ensures Resolve(stack, [e1, e2], rooted) == Push(Push(stack, e1, rooted), e2, rooted)
    ensures Resolve(stack, [e1, e2, e3], rooted) == Push(Push(Push(stack, e1, rooted), e2, rooted), e3, rooted)
  {
    var s1 := Push(stack, e1, rooted);
    assert [e1, e2][1..] == [e2] && [e2][1..] == [];
    assert Resolve(s1, [e2], rooted) == Resolve(Push(s1, e2, rooted), [], rooted);
    assert [e1, e2, e3][1..] == [e2, e3];
    var s2 := Push(s1, e2, rooted);
    assert Resolve(s1, [e2, e3], rooted) == Resolve(s2, [e3], rooted);
    assert [e3][1..] == [];
    assert Resolve(s2, [e3], rooted) == Resolve(Push(s2, e3, rooted), [], rooted);
  }

  /** `./x` names the same entry as `x`: the `.` element is dropped. */
  lemma DotElementDropped(x: string)
    requires IsElement(x) && x != ".."
    ensures Clean("./" + x) == x
    ensures IsSafeFilename("./" + x) <==> !HasPrefix(x, "..")
  {
    assert "./" + x == "." + "/" + x;
    SplitAtSeparator(".", x);
    SplitElement(x);
    ResolveShort([], ".", x, "", false);
    assert Entries("./" + x) == [x];
    assert x[0] != '/';
  }

  /** `a/../x` names the entry `x`: `..` removes the element before it. */
  lemma ParentElementCancels(a: string, x: string)
    requires IsElement(a) && a != ".." && IsElement(x) && x != ".."
    ensures Clean(a + "/../" + x) == x
    ensures IsSafeFilename(a + "/../" + x) <==> !HasPrefix(x, "..")
  {
    assert a + "/../" + x == a + "/" + (".." + "/" + x);
    SplitAtSeparator(a, ".." + "/" + x);
    SplitAtSeparator("..", x);
    SplitElement(x);
    assert Split(a + "/../" + x) == [a, "..", x];
    assert a[0] != '/';
    ResolveShort([], a, "..", x, false);
    assert Entries(a + "/../" + x) == [x];
    assert x[0] != '/';
  }

  /** `../x` names an entry of the parent directory; it is already clean. */
  lemma ParentDirectoryKept(x: string)
    requires IsElement(x) && x != ".."
    ensures Clean("../" + x) == "../" + x
    ensures !IsSafeFilename("../" + x)
  {
    assert "../" + x == ".." + "/" + x;
    SplitAtSeparator("..", x);
    SplitElement(x);
    ResolveShort([], "..", x, "", false);
    assert Entries("../" + x) == ["..", x];
    assert JoinPath(["..", x]) == ".." + "/" + x;
  }

  /** `a/x` names an entry of a subdirectory; it is already clean. */
  lemma NestedNameKept(a: string, x: string)
    requires IsElement(a) && a != ".." && IsElement(x) && x != ".."
    ensures Clean(a + "/" + x) == a + "/" + x
    ensures !IsSafeFilename(a + "/" + x)
  {
    SplitAtSeparator(a, x);
    SplitElement(x);
    assert a[0] != '/';
    ResolveShort([], a, x, "", false);
    assert Entries(a + "/" + x) == [a, x];
    assert JoinPath([a, x]) == a + "/" + x;
    assert (a + "/" + x)[|a|] == '/';
  }

  /** `x/..` cleans to `.`, the current directory. */
  lemma ParentOfElementIsCurrent(x: string)
    requires IsElement(x) && x != ".."
    ensures Clean(x + "/..") == "."
    ensures !IsSafeFilename(x + "/..")
  {
    assert x + "/.." == x + "/" + "..";
    SplitAtSeparator(x, "..");
    SplitElement("..");
    assert x[0] != '/';
    ResolveShort([], x, "..", "", false);
    assert Entries(x + "/..") == [];
  }

  /** The empty name cleans to `.`. */
  lemma EmptyIsCurrent()
    ensures Clean("") == "."
    ensures !IsSafeFilename("")
  {
    SplitElement("");
    assert Resolve([], [""], false) == Resolve([], [], false);
  }

  // Concrete names, one lemma each.

  lemma LeadingDotAccepted()
    ensures IsSafeFilename("./trace.out")
  {
    var t := "trace.out";
    assert "./trace.out" == "./" + t;
    DotElementDropped(t);
    assert t[0] == 't';
  }

  lemma CancelledParentAccepted()
    ensures IsSafeFilename("a/../x.pprof")
  {
    var a, x := "a", "x.pprof";
    assert "a/../x.pprof" == a + "/../" + x;
    ParentElementCancels(a, x);
    assert x[0] == 'x';
  }

  lemma ParentDirectoryRefused()
    ensures !IsSafeFilename("../evil.pprof")
  {
    var e := "evil.pprof";
    assert "../evil.pprof" == "../" + e;
    ParentDirectoryKept(e);
  }

  lemma NestedNameRefused()
    ensures !IsSafeFilename("a/b")
  {
    var a, b := "a", "b";
    assert "a/b" == a + "/" + b;
    NestedNameKept(a, b);
  }

  lemma DotDotPrefixRefused()
    ensures !IsSafeFilename("..x")
  {
    CleanElement("..x");
  }

  lemma AbsoluteRefused()
    ensures !IsSafeFilename("/tmp/x")
  {
  }

  lemma CurrentDirectoryRefused()
    ensures !IsSafeFilename("x/..") && !IsSafeFilename("")
  {
    var x := "x";
    assert "x/.." == x + "/..";
    ParentOfElementIsCurrent(x);
    EmptyIsCurrent();
  }
}
