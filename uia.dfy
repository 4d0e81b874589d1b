/** The UI Automation helpers (telegram_agent/app/tools/uia.py) that walk
    the element tree: `dump`, the capped preorder listing of the active
    window's tree with index paths; `click_path`, which follows such a path
    back down; and `focus_window`, the first window whose title matches.
    The desktop is given as a value: the active window's element tree, or
    the list of window titles. */
module Uia {
  import opened Wrappers
  import opened Text

  /** `MAX_DUMP_NODES`. */
  const MaxDumpNodes: nat := 200

  datatype Rect = Rect(left: int, top: int, right: int, bottom: int)

  /** What `_node_payload` reads of an element besides its path. */
  datatype Element = Element(name: string, controlType: string, automationId: string,
                             rect: Rect, enabled: bool, visible: bool)

  /** An element and its `children()`, in order. */
  datatype Node = Node(elem: Element, children: seq<Node>)

  /** One entry of `dump`'s result: an element and its path. */
  datatype Entry = Entry(elem: Element, path: string)

  /** `f"{path}/{index}"`. */
  function ChildPath(path: string, index: nat): string {
    path + "/" + IntToString(index)
  }

  // ---------------------------------------------------------------- dump

  /** The whole tree below `n` in preorder: the node first, then each
      child's subtree, children in index order. */
  function Preorder(n: Node, path: string): (r: seq<Entry>)
    ensures |r| >= 1 && r[0] == Entry(n.elem, path)
    decreases n, 1, 0
  {
    [Entry(n.elem, path)] + Forest(n, path, |n.children|)
  }

  /** The subtrees of the first `k` children of `n`, in order. */
  function Forest(n: Node, path: string, k: nat): seq<Entry>
    requires k <= |n.children|
    decreases n, 0, k
  {
    if k == 0 then [] else Forest(n, path, k - 1) + Preorder(n.children[k - 1], ChildPath(path, k - 1))
  }

  /** The first `m` elements of `s`, or all of it when it is shorter. */
  function Take<T>(s: seq<T>, m: nat): (r: seq<T>)
    ensures |r| <= m && r <= s
    ensures |s| <= m ==> r == s
    ensures |s| > m ==> |r| == m
  {
    if |s| <= m then s else s[..m]
  }

  /** Capping, appending and capping again is capping once. */
  lemma TakeTake<T>(a: seq<T>, b: seq<T>, m: nat)
    ensures Take(Take(a, m) + b, m) == Take(a + b, m)
  {
    if |a| > m {
      assert (a[..m] + b)[..m] == a[..m] == (a + b)[..m];
    }
  }

  /** Once the cap is reached, whatever follows is cut off. */
  lemma TakeFull<T>(a: seq<T>, b: seq<T>, m: nat)
    requires a <= b && |Take(a, m)| == m
    ensures Take(b, m) == Take(a, m)
  {
    assert b[..|a|] == a;
    if |a| > m {
      assert b[..m] == a[..m];
    }
  }

  /** The subtrees of the first `k` children come before those of the rest. */
  lemma {:induction false} ForestPrefix(n: Node, path: string, k: nat, j: nat)
    requires k <= j <= |n.children|
    ensures Forest(n, path, k) <= Forest(n, path, j)
    decreases j
  {
    if k < j {
      ForestPrefix(n, path, k, j - 1);
    }
  }

  /** The nested `walk(wrapper, path)` of `dump`: `acc` is `results` on
      entry, and the result is `results` when the call returns. */
  method Walk(n: Node, path: string, acc: seq<Entry>) returns (r: seq<Entry>)
    requires |acc| <= MaxDumpNodes
    ensures r == Take(acc + Preorder(n, path), MaxDumpNodes)
    decreases n
  {
    if |acc| >= MaxDumpNodes {
      TakeFull(acc, acc + Preorder(n, path), MaxDumpNodes);
      return acc;
    }
    var head := acc + [Entry(n.elem, path)];
    assert acc + Preorder(n, path) == head + Forest(n, path, |n.children|);
    r := head;
    var k := 0;
    while k < |n.children|
      invariant 0 <= k <= |n.children|
      invariant r == Take(head + Forest(n, path, k), MaxDumpNodes)
    {
      ghost var before := head + Forest(n, path, k);
      r := Walk(n.children[k], ChildPath(path, k), r);
      TakeTake(before, Preorder(n.children[k], ChildPath(path, k)), MaxDumpNodes);
      assert before + Preorder(n.children[k], ChildPath(path, k)) == head + Forest(n, path, k + 1);
      k := k + 1;
      if |r| >= MaxDumpNodes {
        ForestPrefix(n, path, k, |n.children|);
        TakeFull(head + Forest(n, path, k), head + Forest(n, path, |n.children|), MaxDumpNodes);
        return;
      }
    }
  }

  /** `dump`: the active window's tree in preorder from path "root", cut
      off after `MAX_DUMP_NODES` entries. */
  method Dump(window: Node) returns (r: seq<Entry>)
    ensures r == Take(Preorder(window, "root"), MaxDumpNodes)
    ensures |r| <= MaxDumpNodes
  {
    r := Walk(window, "root", []);
    assert [] + Preorder(window, "root") == Preorder(window, "root");
  }

  // ---------------------------------------------------------------- click_path

  /** `[part for part in parts if part and part.lower() != "root"]`. */
  function KeepSegments(parts: seq<string>): (r: seq<string>)
    ensures |r| <= |parts|
    ensures forall i :: 0 <= i < |r| ==> r[i] != "" && Lower(r[i]) != "root" && r[i] in parts
  {
    if parts == [] then []
    else (if parts[0] != "" && Lower(parts[0]) != "root" then [parts[0]] else []) + KeepSegments(parts[1..])
  }

  /** The index segments of a path. */
  function Segments(path: string): seq<string> {
    KeepSegments(Split(path, '/'))
  }

  /** Where following some segments from a node ends: at a node, or at the
      segment that is not an integer, or at the index that is out of range. */
  datatype Walked = Found(node: Node) | BadSegment(part: string) | OutOfRange(part: string)

  /** The `for part in parts` loop of `click_path`, as a function. */
  function Descend(n: Node, parts: seq<string>): Walked
    decreases |parts|
  {
    if parts == [] then Found(n)
    else
      var index := PyInt(parts[0]);
      if index.None? then BadSegment(parts[0])
      else if index.value < 0 || index.value >= |n.children| then OutOfRange(parts[0])
      else Descend(n.children[index.value], parts[1..])
  }

  /** The first segment decides whether the walk stops at it or moves on. */
  lemma DescendStep(n: Node, parts: seq<string>)
    requires parts != []
    ensures PyInt(parts[0]).None? ==> Descend(n, parts) == BadSegment(parts[0])
    ensures PyInt(parts[0]).Some? && !(0 <= PyInt(parts[0]).value < |n.children|) ==>
      Descend(n, parts) == OutOfRange(parts[0])
    ensures PyInt(parts[0]).Some? && 0 <= PyInt(parts[0]).value < |n.children| ==>
      Descend(n, parts) == Descend(n.children[PyInt(parts[0]).value], parts[1..])
  {
  }

  /** The value or the error `click_path` ends with once the walk is over. */
  function Report(path: string, walked: Walked): Result<Element> {
    if walked.Found? then Ok(walked.node.elem)
    else if walked.BadSegment? then Err("Invalid UIA path segment '" + walked.part + "'")
    else Err("UIA path '" + path + "' is out of range at segment '" + walked.part + "'")
  }

  /** What `click_path(path)` clicks, or the error it raises. */
  function Resolve(window: Node, path: string): Result<Element> {
    Report(path, Descend(window, Segments(path)))
  }

  /** `click_path`: `Ok` holds the element whose `click_input` is called. */
  method ClickPath(window: Node, path: string) returns (r: Result<Element>)
    ensures r == Resolve(window, path)
  {
    var parts := Segments(path);
    var node := window;
    var rest := parts;
    while rest != []
      invariant Descend(window, parts) == Descend(node, rest)
      decreases |rest|
    {
      var part := rest[0];
      var index := PyInt(part);
      DescendStep(node, rest);
      if index.None? {
        return Report(path, BadSegment(part));
      }
      if index.value < 0 || index.value >= |node.children| {
        return Report(path, OutOfRange(part));
      }
      node := node.children[index.value];
      rest := rest[1..];
    }
    r := Report(path, Found(node));
  }

  // ---------------------------------------------------------------- dump paths lead back

  /** Filtering the segments of two runs of parts filters each. */
  lemma {:induction false} KeepConcat(a: seq<string>, b: seq<string>)
    ensures KeepSegments(a + b) == KeepSegments(a) + KeepSegments(b)
  {
    if a != [] {
      assert (a + b)[0] == a[0] && (a + b)[1..] == a[1..] + b;
      KeepConcat(a[1..], b);
    } else {
      assert a + b == b;
    }
  }

  /** An index written by `str` is a kept segment that spells the index. */
  lemma IndexSegment(k: int)
    ensures '/' !in IntToString(k)
    ensures KeepSegments([IntToString(k)]) == [IntToString(k)]
  {
    var s := IntToString(k);
    IntToStringShape(k);
    assert Lower(s)[0] == s[0];
    assert Lower(s) != "root" by {
      assert "root"[0] == 'r';
    }
    var single: seq<string> := [s];
    assert single[1..] == [];
  }

  /** A child's path has the parent's segments and then the child's index. */
  lemma SegmentsOfChildPath(path: string, k: nat)
    ensures Segments(ChildPath(path, k)) == Segments(path) + [IntToString(k)]
  {
    var s := IntToString(k);
    IndexSegment(k);
    assert ChildPath(path, k) == path + ['/'] + s;
    SplitConcat(path, s, '/');
    SplitWithoutSep(s, '/');
    KeepConcat(Split(path, '/'), [s]);
  }

  /** "root" names the window itself. */
  lemma RootSegments()
    ensures Segments("root") == []
  {
    SplitWithoutSep("root", '/');
    assert Lower("root") == "root";
    var single: seq<string> := ["root"];
    assert single[1..] == [];
  }

  /** Following one more segment goes on from where the others ended. */
  lemma {:induction false} DescendSnoc(n: Node, parts: seq<string>, part: string, m: Node)
    requires Descend(n, parts) == Found(m)
    ensures Descend(n, parts + [part]) == Descend(m, [part])
    decreases |parts|
  {
    if parts != [] {
      assert (parts + [part])[1..] == parts[1..] + [part];
      var index := PyInt(parts[0]);
      DescendSnoc(n.children[index.value], parts[1..], part, m);
    } else {
      assert parts + [part] == [part];
    }
  }

  /** The index a child's path ends with leads to that child. */
  lemma DescendChild(m: Node, k: nat)
    requires k < |m.children|
    ensures Descend(m, [IntToString(k)]) == Found(m.children[k])
  {
    PyIntOfIntToString(k);
    var single: seq<string> := [IntToString(k)];
    assert single[1..] == [];
  }

  /** An entry of the first `k - 1` subtrees keeps its place among the first `k`. */
  lemma ForestLeft(n: Node, path: string, k: nat, j: nat)
    requires 0 < k <= |n.children| && j < |Forest(n, path, k - 1)|
    ensures j < |Forest(n, path, k)| && Forest(n, path, k)[j] == Forest(n, path, k - 1)[j]
  {
  }

  /** The later entries of the first `k` subtrees are those of the `k`-th child. */
  lemma ForestRight(n: Node, path: string, k: nat, j: nat)
    requires 0 < k <= |n.children| && |Forest(n, path, k - 1)| <= j < |Forest(n, path, k)|
    ensures var i := j - |Forest(n, path, k - 1)|;
      && i < |Preorder(n.children[k - 1], ChildPath(path, k - 1))|
      && Forest(n, path, k)[j] == Preorder(n.children[k - 1], ChildPath(path, k - 1))[i]
  {
  }

  /** Where each path leads, as `click_path` would walk it from a window. */
  function Target(window: Node): string -> Walked {
    path => Descend(window, Segments(path))
  }

  /** `leads` follows the child paths `dump` writes: the path of the `k`-th
      child of the node a path leads to leads to that child. */
  ghost predicate FollowsChildren(leads: string -> Walked) {
    forall path, k: nat :: leads(path).Found? && k < |leads(path).node.children| ==>
      leads(ChildPath(path, k)) == Found(leads(path).node.children[k])
  }

  /** If `path` leads to `n`, the path of its `k`-th child leads to that child. */
  lemma ChildResolves(window: Node, n: Node, path: string, k: nat)
    requires Descend(window, Segments(path)) == Found(n)
    requires k < |n.children|
    ensures Descend(window, Segments(ChildPath(path, k))) == Found(n.children[k])
  {
    SegmentsOfChildPath(path, k);
    DescendSnoc(window, Segments(path), IntToString(k), n);
    DescendChild(n, k);
  }

  /** `click_path`'s walk follows the child paths. */
  lemma TargetFollowsChildren(window: Node)
    ensures FollowsChildren(Target(window))
  {
    forall path, k: nat | Target(window)(path).Found? && k < |Target(window)(path).node.children|
      ensures Target(window)(ChildPath(path, k)) == Found(Target(window)(path).node.children[k])
    {
      ChildResolves(window, Target(window)(path).node, path, k);
    }
  }

  /** Every entry of the walk below `n`, which `path` leads to, has a path
      that leads to its element. */
  lemma {:induction false} PreorderResolves(leads: string -> Walked, n: Node, path: string, j: nat)
    requires FollowsChildren(leads) && leads(path) == Found(n)
    requires j < |Preorder(n, path)|
    ensures leads(Preorder(n, path)[j].path).Found?
    ensures leads(Preorder(n, path)[j].path).node.elem == Preorder(n, path)[j].elem
    decreases n, 1, 0
  {
    if j > 0 {
      assert Preorder(n, path)[j] == Forest(n, path, |n.children|)[j - 1];
      ForestResolves(leads, n, path, |n.children|, j - 1);
    }
  }

  lemma {:induction false} ForestResolves(leads: string -> Walked, n: Node, path: string, k: nat, j: nat)
    requires FollowsChildren(leads) && leads(path) == Found(n)
    requires k <= |n.children| && j < |Forest(n, path, k)|
    ensures leads(Forest(n, path, k)[j].path).Found?
    ensures leads(Forest(n, path, k)[j].path).node.elem == Forest(n, path, k)[j].elem
    decreases n, 0, k
  {
    var left := Forest(n, path, k - 1);
    if j < |left| {
      ForestLeft(n, path, k, j);
      ForestResolves(leads, n, path, k - 1, j);
    } else {
      ForestRight(n, path, k, j);
      PreorderResolves(leads, n.children[k - 1], ChildPath(path, k - 1), j - |left|);
    }
  }

  /** Every path `dump` reports leads `click_path` back to that entry's element. */
  lemma DumpedPathsResolve(window: Node, j: nat)
    requires j < |Take(Preorder(window, "root"), MaxDumpNodes)|
    ensures Resolve(window, Take(Preorder(window, "root"), MaxDumpNodes)[j].path)
         == Ok(Take(Preorder(window, "root"), MaxDumpNodes)[j].elem)
  {
    RootSegments();
    TargetFollowsChildren(window);
    PreorderResolves(Target(window), window, "root", j);
  }

  /** A path without index segments targets the window itself. */
  lemma RootPathTargetsWindow(window: Node)
    ensures Resolve(window, "root") == Ok(window.elem)
  {
    RootSegments();
  }

  /** A negative index is out of range, not an invalid segment. */
  lemma NegativeIndexOutOfRange(window: Node, k: int)
    requires k < 0
    ensures Resolve(window, IntToString(k))
         == Err("UIA path '" + IntToString(k) + "' is out of range at segment '" + IntToString(k) + "'")
  {
    IndexSegment(k);
    SplitWithoutSep(IntToString(k), '/');
    PyIntOfIntToString(k);
  }

  // ---------------------------------------------------------------- focus_window

  /** `focus_window` over the desktop's window titles, in order: the index
      of the window that gets the focus, the first whose title contains the
      substring ignoring case. The source returns whether there was one. */
  method FocusWindow(titles: seq<string>, titleSubstring: string) returns (focused: Option<nat>)
    ensures focused.Some? ==>
      && focused.value < |titles|
      && Contains(Lower(titles[focused.value]), Lower(titleSubstring))
      && forall i :: 0 <= i < focused.value ==> !Contains(Lower(titles[i]), Lower(titleSubstring))
    ensures focused.None? ==> forall i :: 0 <= i < |titles| ==> !Contains(Lower(titles[i]), Lower(titleSubstring))
  {
    var needle := Lower(titleSubstring);
    var i := 0;
    while i < |titles|
      invariant 0 <= i <= |titles|
      invariant forall k :: 0 <= k < i ==> !Contains(Lower(titles[k]), needle)
    {
      if Contains(Lower(titles[i]), needle) {
        return Some(i);
      }
      i := i + 1;
    }
    return None;
  }
}
