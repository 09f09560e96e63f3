/** deep_references.ts: rendering a property path, and recording the path at
    which every object of a (possibly cyclic, possibly shared) object graph is
    first reached. */
module DeepReferences {
  import opened Common

  type Path = seq<string>

  /** A character of the regular-expression class `\w`. */
  predicate IsWordChar(c: char)
  {
    'a' <= c <= 'z' || 'A' <= c <= 'Z' || '0' <= c <= '9' || c == '_'
  }

  /** `/^\w+$/`: a non-empty run of word characters. */
  predicate IsWord(s: string)
  {
    |s| > 0 && forall i :: 0 <= i < |s| ==> IsWordChar(s[i])
  }

  /** How one segment is written: `.seg` for a word, `["seg"]` otherwise. */
  function RenderSegment(seg: string): (r: string)
    ensures |r| > 0
  {
    if IsWord(seg) then "." + seg else "[\"" + seg + "\"]"
  }

  /** The segments rendered and joined, before the leading dot is removed. */
  function Joined(path: Path): string
  {
    if path == [] then "" else RenderSegment(path[0]) + Joined(path[1..])
  }

  /** `pathToString`: the joined rendering with one leading `.` removed. */
  function PathToString(path: Path): string
  {
    var j := Joined(path);
    if |j| > 0 && j[0] == '.' then j[1..] else j
  }

  lemma {:induction false} JoinedAppend(p: Path, q: Path)
    ensures Joined(p + q) == Joined(p) + Joined(q)
  {
    if p == [] {
      assert p + q == q;
    } else {
      assert (p + q)[0] == p[0];
      assert (p + q)[1..] == p[1..] + q;
      JoinedAppend(p[1..], q);
    }
  }

  lemma PathToStringEmpty()
    ensures PathToString([]) == ""
  {
  }

  /** The rendering is empty exactly for the empty path, and never starts with a dot. */
  lemma PathToStringShape(path: Path)
    ensures PathToString(path) == "" <==> path == []
    ensures |PathToString(path)| > 0 ==> PathToString(path)[0] != '.'
  {
    if path != [] {
      var seg := path[0];
      var j := Joined(path);
      assert j == RenderSegment(seg) + Joined(path[1..]);
      if IsWord(seg) {
        assert j[0] == '.' && j[1] == seg[0];
        assert IsWordChar(seg[0]);
      } else {
        assert j[0] == '[';
      }
    }
  }

  /** Extending a non-empty path appends exactly the new segment's rendering;
      the first segment of a path loses its dot. */
  lemma PathToStringExtend(path: Path, seg: string)
    ensures path != [] ==> PathToString(path + [seg]) == PathToString(path) + RenderSegment(seg)
    ensures path == [] ==> PathToString([seg]) == if IsWord(seg) then seg else RenderSegment(seg)
  {
    JoinedOne(seg);
    if path != [] {
      var r := RenderSegment(seg);
      JoinedAppend(path, [seg]);
      var j := Joined(path);
      assert j == RenderSegment(path[0]) + Joined(path[1..]);
      DropDotAppend(j, r);
    }
  }

  lemma JoinedOne(seg: string)
    ensures Joined([seg]) == RenderSegment(seg)
  {
    assert [seg][1..] == [];
  }

  /** Dropping a leading dot commutes with appending, for a non-empty prefix. */
  lemma DropDotAppend(j: string, r: string)
    requires |j| > 0
    ensures var jr := j + r;
      (if |jr| > 0 && jr[0] == '.' then jr[1..] else jr) == (if j[0] == '.' then j[1..] else j) + r
  {
    assert (j + r)[0] == j[0];
    if j[0] == '.' {
      assert (j + r)[1..] == j[1..] + r;
    }
  }

  /** `a.b["x y"]`: words join with dots, any other segment is bracketed and quoted. */
  lemma PathToStringExample()
    ensures PathToString(["a", "b", "x y"]) == "a.b[\"x y\"]"
  {
    WordExamples();
    PathToStringExtend([], "a");
    PathToStringExtend(["a"], "b");
    assert ["a"] + ["b"] == ["a", "b"];
    PathToStringExtend(["a", "b"], "x y");
    assert ["a", "b"] + ["x y"] == ["a", "b", "x y"];
    calc {
      PathToString(["a", "b", "x y"]);
      PathToString(["a"]) + RenderSegment("b") + RenderSegment("x y");
      "a" + ".b" + "[\"x y\"]";
      { assert "a" + ".b" + "[\"x y\"]" == "a.b[\"x y\"]"; }
      "a.b[\"x y\"]";
    }
  }

  lemma WordExamples()
    ensures IsWord("a") && IsWord("b") && !IsWord("x y")
    ensures RenderSegment("b") == ".b" && RenderSegment("x y") == "[\"x y\"]"
  {
    assert !IsWordChar("x y"[1]);
  }

  /** An empty segment and a segment with a space are bracketed, with no dot. */
  lemma NonWordSegments()
    ensures PathToString([""]) == "[\"\"]"
    ensures PathToString(["a b"]) == "[\"a b\"]"
  {
    assert !IsWord("a b") by { assert !IsWordChar("a b"[1]); }
  }

  // ---------------------------------------------------------------------------
  // collectDeepReferences over an object graph with identity

  /** A slot of an object graph: a primitive, `null`, `undefined` or a function
      (nothing of which `typeof` calls "object"), or a reference to a graph object. */
  datatype Slot = Leaf | Ref(addr: nat)

  /** An array and its elements, or a plain object and its `Object.entries`. */
  datatype GraphObject = ArrayObject(elems: seq<Slot>) | PlainObject(entries: seq<(string, Slot)>)

  type Graph = seq<GraphObject>

  predicate SlotIn(g: Graph, s: Slot)
  {
    s.Ref? ==> s.addr < |g|
  }

  /** Every reference in the graph points at one of its objects. */
  predicate Closed(g: Graph)
  {
    forall a :: 0 <= a < |g| ==> ObjectIn(g, g[a])
  }

  predicate ObjectIn(g: Graph, o: GraphObject)
  {
    match o
    case ArrayObject(es) => forall i :: 0 <= i < |es| ==> SlotIn(g, es[i])
    case PlainObject(es) => forall i :: 0 <= i < |es| ==> SlotIn(g, es[i].1)
  }

  /** Object `c` is the child of object `p` under path segment `segment`. */
  predicate ChildEdge(g: Graph, p: nat, segment: string, c: nat)
  {
    p < |g| &&
    match g[p]
    case ArrayObject(es) => exists i :: 0 <= i < |es| && es[i] == Ref(c) && segment == NatToString(i)
    case PlainObject(es) => exists i :: 0 <= i < |es| && es[i] == (segment, Ref(c))
  }

  /** `c` is among the first `k` object children of `p`. */
  predicate ChildBefore(g: Graph, p: nat, k: nat, c: nat)
  {
    p < |g| &&
    match g[p]
    case ArrayObject(es) => exists j :: 0 <= j < k && j < |es| && es[j] == Ref(c)
    case PlainObject(es) => exists j :: 0 <= j < k && j < |es| && es[j].1 == Ref(c)
  }

  /** `c` is an object child of `p`. */
  predicate IsChild(g: Graph, p: nat, c: nat)
  {
    p < |g| && ChildBefore(g, p, ChildCount(g[p]), c)
  }

  function ChildCount(o: GraphObject): nat
  {
    match o
    case ArrayObject(es) => |es|
    case PlainObject(es) => |es|
  }

  /** How many of the objects below `k` the map has not recorded. */
  function Unseen(refs: map<nat, Path>, k: nat): nat
  {
    if k == 0 then 0 else Unseen(refs, k - 1) + if k - 1 in refs then 0 else 1
  }

  /** Recording more objects never increases the count, and recording a new one
      below `k` decreases it. */
  lemma {:induction false} UnseenShrinks(refs: map<nat, Path>, refs': map<nat, Path>, k: nat, x: nat)
    requires refs.Keys <= refs'.Keys
    ensures Unseen(refs', k) <= Unseen(refs, k)
    ensures x < k && x !in refs && x in refs' ==> Unseen(refs', k) < Unseen(refs, k)
  {
    if k > 0 {
      UnseenShrinks(refs, refs', k - 1, x);
    }
  }

  /** The measure of the recursion: unvisited objects, plus one when the root is
      already recorded (only a caller's own map can hold it). */
  function Measure(g: Graph, refs: map<nat, Path>, obj: Slot): nat
  {
    Unseen(refs, |g|) + if obj.Ref? && obj.addr in refs then 1 else 0
  }

  predicate Within(g: Graph, m: map<nat, Path>)
  {
    forall a :: a in m ==> a < |g|
  }

  predicate IsRoot(obj: Slot, a: nat)
  {
    obj.Ref? && a == obj.addr
  }

  /** `after` holds every entry of `before`, unchanged unless it is `except`'s. */
  predicate Keeps(before: map<nat, Path>, after: map<nat, Path>, except: Slot)
  {
    forall a :: a in before ==> a in after && (IsRoot(except, a) || after[a] == before[a])
  }

  /** The entries a call is responsible for: the root and everything new. */
  predicate Fresh(refs: map<nat, Path>, out: map<nat, Path>, obj: Slot, a: nat)
  {
    a in out && (a !in refs || IsRoot(obj, a))
  }

  /** Each entry of `parent` names a recorded parent whose path, extended by the
      edge's segment, is the entry's path. */
  predicate Parents(g: Graph, out: map<nat, Path>, parent: map<nat, (nat, string)>)
  {
    forall a :: a in parent ==>
      a in out && parent[a].0 in out && ChildEdge(g, parent[a].0, parent[a].1, a) &&
      out[a] == out[parent[a].0] + [parent[a].1]
  }

  lemma ParentsKept(g: Graph, before: map<nat, Path>, after: map<nat, Path>, parent: map<nat, (nat, string)>)
    requires Parents(g, before, parent) && Keeps(before, after, Leaf)
    ensures Parents(g, after, parent)
  {
  }

  /** `collectDeepReferences(obj, refs, path)`. It records the root under `path`,
      then visits every child not yet in the map, extending the path with the
      decimal index or the key. `parent` names, for each new entry other than
      the root, the edge it was reached by. */
  method CollectDeepReferences(g: Graph, obj: Slot, refs: map<nat, Path>, path: Path)
    returns (out: map<nat, Path>, ghost parent: map<nat, (nat, string)>)
    requires Closed(g) && SlotIn(g, obj) && Within(g, refs)
    ensures Within(g, out)
    // the map only grows, and keeps every earlier entry except the root's
    ensures Keeps(refs, out, obj)
    // primitives are never recorded; the root is recorded under `path`
    ensures obj.Leaf? ==> out == refs
    ensures obj.Ref? ==> obj.addr in out && out[obj.addr] == path
    // every child of the root and of every new entry is recorded
    ensures forall a, c :: Fresh(refs, out, obj, a) && IsChild(g, a, c) ==> c in out
    // every new entry other than the root extends the path of a recorded parent
    ensures forall a :: Fresh(refs, out, obj, a) && !IsRoot(obj, a) ==> a in parent
    ensures Parents(g, out, parent)
    decreases Measure(g, refs, obj), 0
  {
    if obj.Leaf? {
      return refs, map[];
    }
    var root := obj.addr;
    out := refs[root := path];
    UnseenShrinks(refs, out, |g|, root);
    LoopInit(g, refs, root, path);
    out, parent := VisitChildren(g, refs, root, path, out);
    LoopExit(g, refs, root, path, out, parent);
  }

  /** The `forEach` over the root's elements or entries: each child not yet in
      the map is visited under the root's path extended by its index or key. */
  method VisitChildren(g: Graph, refs: map<nat, Path>, root: nat, path: Path, start: map<nat, Path>)
    returns (out: map<nat, Path>, ghost parent: map<nat, (nat, string)>)
    requires Closed(g) && root < |g|
    requires LoopInv(g, refs, root, path, 0, start, map[])
    ensures LoopInv(g, refs, root, path, ChildCount(g[root]), out, parent)
    decreases Unseen(start, |g|), 1
  {
    out, parent := start, map[];
    var n := ChildCount(g[root]);
    var i := 0;
    while i < n
      invariant 0 <= i <= n
      invariant LoopInv(g, refs, root, path, i, out, parent)
      invariant Unseen(out, |g|) <= Unseen(start, |g|)
    {
      var entry := ChildAt(g, root, i);
      var segment, child := entry.0, entry.1;
      // A primitive child's visit records nothing, so only unrecorded objects are visited.
      if child.Ref? && child.addr !in out {
        var before := out;
        ghost var sub;
        out, sub := CollectDeepReferences(g, child, out, path + [segment]);
        UnseenShrinks(before, out, |g|, root);
        VisitStep(g, refs, root, path, i, before, parent, segment, child.addr, out, sub);
        parent := parent + sub + map[child.addr := (root, segment)];
      } else {
        VisitSkip(g, refs, root, path, i, out, parent, child);
      }
      i := i + 1;
    }
  }

  lemma LoopInit(g: Graph, refs: map<nat, Path>, root: nat, path: Path)
    requires Within(g, refs) && root < |g|
    ensures LoopInv(g, refs, root, path, 0, refs[root := path], map[])
  {
  }

  lemma LoopExit(g: Graph, refs: map<nat, Path>, root: nat, path: Path,
                 out: map<nat, Path>, parent: map<nat, (nat, string)>)
    requires root < |g| && LoopInv(g, refs, root, path, ChildCount(g[root]), out, parent)
    ensures Within(g, out) && Keeps(refs, out, Ref(root))
    ensures root in out && out[root] == path
    ensures forall a, c :: Fresh(refs, out, Ref(root), a) && IsChild(g, a, c) ==> c in out
    ensures forall a :: Fresh(refs, out, Ref(root), a) && !IsRoot(Ref(root), a) ==> a in parent
    ensures Parents(g, out, parent)
  {
  }

  /** The loop invariant of `CollectDeepReferences` after `i` children of `root`. */
  ghost predicate LoopInv(g: Graph, refs: map<nat, Path>, root: nat, path: Path, i: nat,
                    out: map<nat, Path>, parent: map<nat, (nat, string)>)
  {
    Within(g, out) && Keeps(refs, out, Ref(root)) &&
    root in out && out[root] == path &&
    (forall c :: ChildBefore(g, root, i, c) ==> c in out) &&
    (forall a, c :: Fresh(refs, out, Ref(root), a) && a != root && IsChild(g, a, c) ==> c in out) &&
    (forall a :: Fresh(refs, out, Ref(root), a) && a != root ==> a in parent) &&
    Parents(g, out, parent)
  }

  /** A child that needs no visit leaves the invariant in place. */
  lemma VisitSkip(g: Graph, refs: map<nat, Path>, root: nat, path: Path, i: nat,
                  out: map<nat, Path>, parent: map<nat, (nat, string)>, child: Slot)
    requires Closed(g) && root < |g| && i < ChildCount(g[root]) && ChildAt(g, root, i).1 == child
    requires LoopInv(g, refs, root, path, i, out, parent)
    requires child.Ref? ==> child.addr in out
    ensures LoopInv(g, refs, root, path, i + 1, out, parent)
  {
    ChildBeforeNext(g, root, i, child);
  }

  /** Visiting child `c` under `segment` keeps the invariant: the entries it adds
      come with their parents, and `c`'s own parent is the root. */
  lemma VisitStep(g: Graph, refs: map<nat, Path>, root: nat, path: Path, i: nat,
                  before: map<nat, Path>, parent: map<nat, (nat, string)>,
                  segment: string, c: nat, after: map<nat, Path>, sub: map<nat, (nat, string)>)
    requires Closed(g) && root < |g| && i < ChildCount(g[root]) && ChildAt(g, root, i) == (segment, Ref(c))
    requires LoopInv(g, refs, root, path, i, before, parent)
    requires c !in before
    // what the recursive call promises
    requires Within(g, after) && Keeps(before, after, Ref(c))
    requires c in after && after[c] == path + [segment]
    requires forall a, d :: Fresh(before, after, Ref(c), a) && IsChild(g, a, d) ==> d in after
    requires forall a :: Fresh(before, after, Ref(c), a) && !IsRoot(Ref(c), a) ==> a in sub
    requires Parents(g, after, sub)
    ensures LoopInv(g, refs, root, path, i + 1, after, parent + sub + map[c := (root, segment)])
  {
    ChildBeforeNext(g, root, i, Ref(c));
    assert Keeps(before, after, Leaf);
    ParentsKept(g, before, after, parent);
    var parent' := parent + sub + map[c := (root, segment)];
    assert ChildEdge(g, root, segment, c);
    forall a | a in parent'
      ensures a in after && parent'[a].0 in after && ChildEdge(g, parent'[a].0, parent'[a].1, a)
      ensures after[a] == after[parent'[a].0] + [parent'[a].1]
    {
      if a == c {
      } else if a in sub {
      } else {
        assert a in parent;
      }
    }
    forall a, d | Fresh(refs, after, Ref(root), a) && a != root && IsChild(g, a, d)
      ensures d in after
    {
      if a in before {
        assert Fresh(refs, before, Ref(root), a);
      } else {
        assert Fresh(before, after, Ref(c), a);
      }
    }
    forall a | Fresh(refs, after, Ref(root), a) && a != root
      ensures a in parent'
    {
      if a in before {
        assert Fresh(refs, before, Ref(root), a);
      } else if a != c {
        assert Fresh(before, after, Ref(c), a);
      }
    }
  }

  /** The `i`-th entry of an object: its path segment and its value. */
  function ChildAt(g: Graph, p: nat, i: nat): (r: (string, Slot))
    requires Closed(g) && p < |g| && i < ChildCount(g[p])
    ensures SlotIn(g, r.1)
    ensures r.1.Ref? ==> ChildEdge(g, p, r.0, r.1.addr)
  {
    assert ObjectIn(g, g[p]);
    match g[p]
    case ArrayObject(es) => (NatToString(i), es[i])
    case PlainObject(es) => es[i]
  }

  lemma ChildBeforeNext(g: Graph, p: nat, i: nat, child: Slot)
    requires Closed(g) && p < |g| && i < ChildCount(g[p]) && ChildAt(g, p, i).1 == child
    ensures forall c :: ChildBefore(g, p, i + 1, c) ==> ChildBefore(g, p, i, c) || child == Ref(c)
  {
  }

  /** `[[[]]]`: the outer, middle and inner arrays are all recorded, and nothing else. */
  method NestedArraysExample() returns (size: nat)
    ensures size == 3
  {
    var g: Graph := [ArrayObject([]), ArrayObject([Ref(0)]), ArrayObject([Ref(1)])];
    assert Closed(g) by {
      assert ObjectIn(g, g[0]) && ObjectIn(g, g[1]) && ObjectIn(g, g[2]);
    }
    var out, _ := CollectDeepReferences(g, Ref(2), map[], []);
    assert g[2].elems[0] == Ref(1) && g[1].elems[0] == Ref(0);
    assert ChildBefore(g, 2, 1, 1) && ChildBefore(g, 1, 1, 0);
    assert Fresh(map[], out, Ref(2), 2) && IsChild(g, 2, 1);
    assert Fresh(map[], out, Ref(2), 1) && IsChild(g, 1, 0);
    assert out.Keys == {0, 1, 2};
    size := |out|;
  }
}
