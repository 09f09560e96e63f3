/** `setPossibleReferences` (set_possible_references.ts): the weak write for an
    assignment `a.b.c = v`. The left side is decomposed into its root identifier
    and its path; the root's possibilities are followed along every segment but
    the last, and each possibility reached gets the last key written weakly: its
    old value is kept beside the new one. */
module SetPossibleReferences {
  import opened Common
  import opened Syntax
  import opened Values
  import opened Resolver

  /** `propertyToPathSegment`: an identifier or private name by its name (also
      when computed, so `a[x]` gives `x`), a literal by its value, any other
      expression as `ANY_STRING`. */
  function PathSegment(property: Node): Key
  {
    match property
    case Identifier(_, name) => Name(name)
    case PrivateIdentifier(_, name) => Name(name)
    case Literal(_, lit, _) => LitKey(lit)
    case _ => AnyString
  }

  /** A member chain the decomposition accepts: it bottoms out in an identifier. */
  predicate RootedChain(ex: Node)
  {
    ex.Member? && (ex.target.Identifier? || RootedChain(ex.target))
  }

  /** The root identifier of a rooted chain. */
  function Root(ex: Node): (r: Node)
    requires RootedChain(ex)
    ensures r.Identifier?
  {
    if ex.target.Identifier? then ex.target else Root(ex.target)
  }

  /** The segments of a rooted chain in source order, read off the tree directly. */
  function Segments(ex: Node): (r: seq<Key>)
    requires RootedChain(ex)
    ensures |r| >= 1
  {
    (if ex.target.Identifier? then [] else Segments(ex.target)) + [PathSegment(ex.property)]
  }

  /** The result of a decomposition: the root identifier and the path. */
  datatype Decomposed = Decomposed(root: Node, path: seq<Key>)

  /** `decomposeMemberExpression(ex, path)`: walks down the object side, putting
      each property's segment in front of `path`; anything but a member or an
      identifier at the bottom throws. */
  function Decompose(ex: Node, path: seq<Key>): Outcome<Decomposed>
    requires ex.Member?
  {
    match ex.target
    case Identifier(_, _) => Ok(Decomposed(ex.target, [PathSegment(ex.property)] + path))
    case Member(_, _, _, _) => Decompose(ex.target, [PathSegment(ex.property)] + path)
    case _ => Throw("")
  }

  /** The decomposition succeeds exactly on rooted chains; it then gives the root
      identifier and the chain's segments in source order in front of `path`, so
      at least one segment. */
  lemma {:induction false} DecomposeSpec(ex: Node, path: seq<Key>)
    requires ex.Member?
    ensures Decompose(ex, path).Ok? <==> RootedChain(ex)
    ensures RootedChain(ex) ==>
      Decompose(ex, path) == Ok(Decomposed(Root(ex), Segments(ex) + path)) &&
      |Decompose(ex, path).value.path| >= |path| + 1
  {
    if ex.target.Member? {
      DecomposeSpec(ex.target, [PathSegment(ex.property)] + path);
      if RootedChain(ex) {
        assert Segments(ex) + path == Segments(ex.target) + ([PathSegment(ex.property)] + path);
      }
    } else if ex.target.Identifier? {
      assert Segments(ex) == [PathSegment(ex.property)];
    }
  }

  /** `a.b.c.d` decomposes into `a` and `b`, `c`, `d`. */
  lemma DeepPathExample()
    ensures var ex := Member(NoLoc, Member(NoLoc, Member(NoLoc, Id("a"), Id("b"), false), Id("c"), false), Id("d"), false);
      Decompose(ex, []) == Ok(Decomposed(Id("a"), [Name("b"), Name("c"), Name("d")]))
  {
    var ab := Member(NoLoc, Id("a"), Id("b"), false);
    var abc := Member(NoLoc, ab, Id("c"), false);
    assert [Name("d")] + [] == [Name("d")];
    assert [Name("c")] + [Name("d")] == [Name("c"), Name("d")];
    assert [Name("b")] + [Name("c"), Name("d")] == [Name("b"), Name("c"), Name("d")];
    assert Decompose(abc, [Name("d")]) == Decompose(ab, [Name("c"), Name("d")]);
  }

  /** `a['b'[0]].c[String.fromCharCode(100)]` decomposes into `a` and
      `ANY_STRING`, `c`, `ANY_STRING`. */
  lemma ComplexPathExample()
    ensures var inner := Member(NoLoc, Literal(NoLoc, LStr("b"), "'b'"), Literal(NoLoc, LNum(0), "0"), true);
      var call := Call(Loc(0, 1), Member(NoLoc, Id("String"), Id("fromCharCode"), false), [Literal(NoLoc, LNum(100), "100")]);
      var ex := Member(NoLoc, Member(NoLoc, Member(NoLoc, Id("a"), inner, true), Id("c"), false), call, true);
      Decompose(ex, []) == Ok(Decomposed(Id("a"), [AnyString, Name("c"), AnyString]))
  {
    var inner := Member(NoLoc, Literal(NoLoc, LStr("b"), "'b'"), Literal(NoLoc, LNum(0), "0"), true);
    var first := Member(NoLoc, Id("a"), inner, true);
    var second := Member(NoLoc, first, Id("c"), false);
    assert [AnyString] + [] == [AnyString];
    assert [Name("c")] + [AnyString] == [Name("c"), AnyString];
    assert [AnyString] + [Name("c"), AnyString] == [AnyString, Name("c"), AnyString];
    assert Decompose(second, [AnyString]) == Decompose(first, [Name("c"), AnyString]);
  }

  /** `(f()).x` cannot be decomposed. */
  lemma CallRootThrows(loc: Loc, f: Node, args: seq<Node>, property: Node, computed: bool)
    ensures Decompose(Member(NoLoc, Call(loc, f, args), property, computed), []).Throw?
  {
  }

  // ---------------------------------------------------------------------------
  // the write, with every level read by `getKey`

  /** The possibilities reached from `ps` along `path`: each level is `getKey`
      of the segment on the previous one. */
  function Walk(heap: Heap, ps: seq<Value>, path: seq<Key>): seq<Value>
  {
    if path == [] then ps
    else GetKey(heap, Walk(heap, ps, path[..|path| - 1]), path[|path| - 1])
  }

  /** What an assignment to a member chain leaves: the error it threw, if any,
      and the state. */
  datatype Effect = Effect(error: Option<string>, state: State)

  /** `setPossibleReferences(left, right, state)`: resolve the right side, then
      decompose the left (which may throw), follow the root's possibilities along
      every segment but the last and weakly write the last key of each one
      reached. */
  function SetSpec(host: Host, left: Node, right: Node, st: State): Effect
    requires left.Member?
  {
    var value := ResolveNode(host, right, st);
    if value.result.Throw? then Effect(Some(value.result.message), value.state)
    else match Decompose(left, [])
      case Throw(m) => Effect(Some(m), value.state)
      case Ok(d) =>
        if d.path == [] then Effect(Some(""), value.state)
        else WriteFrom(host, d, value.result.value, value.state)
  }

  /** The write once the right side's possibilities `v` are known and the path
      is not empty: resolve the root, follow it along every segment but the
      last and weakly write the last key of each possibility reached. */
  function WriteFrom(host: Host, d: Decomposed, v: seq<Value>, st: State): Effect
    requires d.path != []
  {
    var rootRef := ResolveNode(host, d.root, st);
    if rootRef.result.Throw? then Effect(Some(rootRef.result.message), rootRef.state)
    else
      var reached := Walk(rootRef.state.heap, rootRef.result.value, d.path[..|d.path| - 1]);
      var heap := SetKey(rootRef.state.heap, reached, d.path[|d.path| - 1], v);
      Effect(None, rootRef.state.(heap := heap))
  }

  /** With an identifier root the write resolves the root without changing the
      state and writes the last key of every possibility reached. */
  lemma WriteFromShape(host: Host, d: Decomposed, v: seq<Value>, st: State)
    requires d.path != [] && d.root.Identifier?
    ensures var rootRef := ResolveNode(host, d.root, st);
      rootRef.state == st && rootRef.result.Ok? &&
      WriteFrom(host, d, v, st) ==
        Effect(None, st.(heap := SetKey(st.heap, Walk(st.heap, rootRef.result.value, d.path[..|d.path| - 1]),
                                       d.path[|d.path| - 1], v)))
  {
    IdentifierKeepsState(host, d.root, st);
  }

  /** The loops of `setPossibleReferences`: one pass per inner segment gathering
      the next level, then one weak write per possibility reached. */
  method SetPossibleReferences(host: Host, left: Node, right: Node, st: State) returns (r: Effect)
    requires left.Member?
    ensures r == SetSpec(host, left, right, st)
  {
    var value := ResolveNode(host, right, st);
    if value.result.Throw? {
      return Effect(Some(value.result.message), value.state);
    }
    var d := Decompose(left, []);
    if d.Throw? {
      return Effect(Some(d.message), value.state);
    }
    if |d.value.path| == 0 {
      return Effect(Some(""), value.state);
    }
    r := WriteAlongPath(host, d.value, value.result.value, value.state);
  }

  /** From `path.pop()` on: resolve the root, walk the inner segments, write the last. */
  method WriteAlongPath(host: Host, d: Decomposed, v: seq<Value>, st: State) returns (r: Effect)
    requires d.path != []
    ensures r == WriteFrom(host, d, v, st)
  {
    var finalSegment := d.path[|d.path| - 1];
    var path := d.path[..|d.path| - 1];
    var rootRef := ResolveNode(host, d.root, st);
    if rootRef.result.Throw? {
      return Effect(Some(rootRef.result.message), rootRef.state);
    }
    var reached := FollowPath(rootRef.state.heap, rootRef.result.value, path);
    var written := WriteReached(rootRef.state.heap, reached, finalSegment, v);
    r := Effect(None, rootRef.state.(heap := written));
  }

  /** The `for (const segment of path)` loop: one level per inner segment. */
  method FollowPath(heap: Heap, root: seq<Value>, path: seq<Key>) returns (possibilities: seq<Value>)
    ensures possibilities == Walk(heap, root, path)
  {
    possibilities := root;
    for i := 0 to |path|
      invariant possibilities == Walk(heap, root, path[..i])
    {
      assert path[..i + 1][..i] == path[..i];
      possibilities := NextLevel(heap, possibilities, path[i]);
    }
    assert path[..|path|] == path;
  }

  /** The inner `for (const poss of possibilities)` loop gathering the next level. */
  method NextLevel(heap: Heap, possibilities: seq<Value>, segment: Key) returns (next: seq<Value>)
    ensures next == GetKey(heap, possibilities, segment)
  {
    next := [];
    for j := 0 to |possibilities|
      invariant next == GetKey(heap, possibilities[..j], segment)
    {
      GetKeyAppend(heap, possibilities[..j], [possibilities[j]], segment);
      GetKeyOne(heap, possibilities[j], segment);
      assert possibilities[..j + 1] == possibilities[..j] + [possibilities[j]];
      next := next + KeyOf(heap, possibilities[j], segment);
    }
    assert possibilities[..|possibilities|] == possibilities;
  }

  /** The final `forEach`: one weak write of the last segment per possibility. */
  method WriteReached(heap: Heap, possibilities: seq<Value>, finalSegment: Key, value: seq<Value>) returns (written: Heap)
    ensures written == SetKey(heap, possibilities, finalSegment, value)
  {
    written := heap;
    for j := 0 to |possibilities|
      invariant written == SetKey(heap, possibilities[..j], finalSegment, value)
    {
      SetKeySnoc(heap, possibilities[..j], possibilities[j], finalSegment, value);
      assert possibilities[..j + 1] == possibilities[..j] + [possibilities[j]];
      written := WriteOne(written, possibilities[j], finalSegment, value);
    }
    assert possibilities[..|possibilities|] == possibilities;
  }

  /** The assignment throws exactly when the right side throws or the left side
      is not a chain rooted in an identifier. */
  lemma SetThrows(host: Host, left: Node, right: Node, st: State)
    requires left.Member?
    ensures SetSpec(host, left, right, st).error.Some? <==>
      ResolveNode(host, right, st).result.Throw? || !RootedChain(left)
  {
    DecomposeSpec(left, []);
  }

  /** The write keeps what every analyser step keeps, and on success it never
      loses a possibility: every element and property value stays in place with
      the new possibilities after it; the errors are those of the right side. */
  lemma SetPreserves(host: Host, left: Node, right: Node, st: State)
    requires left.Member? && HostPreserves(host)
    ensures Preserves(st, SetSpec(host, left, right, st).state)
    ensures var value := ResolveNode(host, right, st);
      SetSpec(host, left, right, st).error.None? ==>
        value.result.Ok? && HeapExtends(value.state.heap, SetSpec(host, left, right, st).state.heap) &&
        SetSpec(host, left, right, st).state.errors == value.state.errors
  {
    ResolvePreserves(host, right, st);
    var value := ResolveNode(host, right, st);
    DecomposeSpec(left, []);
    if value.result.Ok? && RootedChain(left) {
      var d := Decompose(left, []).value;
      WriteFromShape(host, d, value.result.value, value.state);
      var rootRef := ResolveNode(host, d.root, value.state);
      var reached := Walk(value.state.heap, rootRef.result.value, d.path[..|d.path| - 1]);
      SetKeyExtends(value.state.heap, reached, d.path[|d.path| - 1], value.result.value);
    }
  }

  /** Only the possibilities reached are written: any other cell is unchanged. */
  lemma SetFrame(host: Host, left: Node, right: Node, st: State, b: nat)
    requires left.Member?
    ensures var value := ResolveNode(host, right, st);
      var d := Decompose(left, []);
      value.result.Ok? && d.Ok? && d.value.path != [] && b < |value.state.heap| &&
      b < |SetSpec(host, left, right, st).state.heap| &&
      ResolveNode(host, d.value.root, value.state).result.Ok? &&
      Ref(b) !in Walk(value.state.heap, ResolveNode(host, d.value.root, value.state).result.value,
                      d.value.path[..|d.value.path| - 1]) ==>
        SetSpec(host, left, right, st).state.heap[b] == value.state.heap[b]
  {
    var value := ResolveNode(host, right, st);
    var d := Decompose(left, []);
    if value.result.Ok? && d.Ok? && d.value.path != [] && b < |value.state.heap| {
      DecomposeSpec(left, []);
      assert SetSpec(host, left, right, st) == WriteFrom(host, d.value, value.result.value, value.state);
      WriteFromFrame(host, d.value, value.result.value, value.state, b);
    }
  }

  lemma WriteFromFrame(host: Host, d: Decomposed, v: seq<Value>, st: State, b: nat)
    requires d.path != [] && d.root.Identifier? && b < |st.heap|
    ensures var rootRef := ResolveNode(host, d.root, st);
      rootRef.result.Ok? && Ref(b) !in Walk(st.heap, rootRef.result.value, d.path[..|d.path| - 1]) ==>
        WriteFrom(host, d, v, st).state.heap[b] == st.heap[b]
  {
    WriteFromShape(host, d, v, st);
    var rootRef := ResolveNode(host, d.root, st);
    var reached := Walk(st.heap, rootRef.result.value, d.path[..|d.path| - 1]);
    if Ref(b) !in reached {
      SetKeyFrame(st.heap, reached, d.path[|d.path| - 1], v, b);
    }
  }

  // ---------------------------------------------------------------------------
  // the loop as written

  /** An entry of the list the inner loop iterates over. `Boxed` is a Reference
      object read out of a record property: the loop pushes it and later visits
      it, but it is not an array, and what its own members would push is not
      modelled. */
  datatype Item = Val(v: Value) | Boxed(vs: seq<Value>)

  function Vals(ps: seq<Value>): (r: seq<Item>)
    ensures |r| == |ps| && forall i :: 0 <= i < |ps| ==> r[i] == Val(ps[i])
  {
    seq(|ps|, i requires 0 <= i < |ps| => Val(ps[i]))
  }

  /** `poss[key]` as the entry the loop pushes. */
  function ReadItem(heap: Heap, v: Value, key: Key): Item
  {
    if v.Ref? && !IsArray(heap, v) then
      match LookupField(CellOf(heap, v).fields, key)
      case Some(vs) => Boxed(vs)
      case None => Val(Undefined)
    else Val(Read(heap, v, key)[0])
  }

  /** One boxed entry per named record property. */
  function FieldBoxes(fields: seq<Field>): seq<Item>
  {
    if fields == [] then []
    else (if fields[0].key.Name? then [Boxed(fields[0].values)] else []) + FieldBoxes(fields[1..])
  }

  /** What visiting an object-like possibility pushes onto the list being
      iterated when it is not an array read at an integer segment. */
  function Pushed(heap: Heap, v: Value, seg: Key): seq<Item>
  {
    if seg == AnyString then
      if IsArray(heap, v) || v == Builtin(ObjectCtor) then Vals(AllPropertyValues(heap, v))
      else if v.Ref? then FieldBoxes(CellOf(heap, v).fields)
      else []
    else [ReadItem(heap, v, seg)] + (if HasAnyString(heap, v) then [ReadItem(heap, v, AnyString)] else [])
  }

  predicate IntegerSegment(seg: Key)
  {
    seg.Name? && IsInteger(seg.name)
  }

  /** The inner loop as written: the list grows while it is iterated, and only an
      array read at an integer segment adds to `next`. `fuel` bounds the number
      of entries visited (an array holding itself makes the source loop forever
      on `ANY_STRING`); `None` means it ran out. */
  function VisitAsWritten(heap: Heap, work: seq<Item>, seg: Key, next: seq<Value>, fuel: nat): Option<seq<Value>>
    decreases fuel
  {
    if work == [] then Some(next)
    else if fuel == 0 then None
    else if work[0].Val? && IsObjectLike(work[0].v) then
      var v := work[0].v;
      if IsArray(heap, v) && IntegerSegment(seg) then
        VisitAsWritten(heap, work[1..], seg, next + heap[v.addr].elems, fuel - 1)
      else VisitAsWritten(heap, work[1..] + Pushed(heap, v, seg), seg, next, fuel - 1)
    else VisitAsWritten(heap, work[1..], seg, next, fuel - 1)
  }

  /** The elements of the array entries of a list. */
  function ArrayEntries(heap: Heap, work: seq<Item>): seq<Value>
  {
    if work == [] then []
    else (if work[0].Val? && IsArray(heap, work[0].v) then heap[work[0].v.addr].elems else []) +
         ArrayEntries(heap, work[1..])
  }

  lemma {:induction false} ArrayEntriesAppend(heap: Heap, a: seq<Item>, b: seq<Item>)
    ensures ArrayEntries(heap, a + b) == ArrayEntries(heap, a) + ArrayEntries(heap, b)
  {
    if a == [] {
      assert a + b == b;
    } else {
      var h := if a[0].Val? && IsArray(heap, a[0].v) then heap[a[0].v.addr].elems else [];
      assert (a + b)[0] == a[0] && (a + b)[1..] == a[1..] + b;
      ArrayEntriesAppend(heap, a[1..], b);
      AppendAssoc(h, ArrayEntries(heap, a[1..]), ArrayEntries(heap, b));
    }
  }

  /** A named segment never pushes an array entry. */
  lemma PushedNamedHasNoArrays(heap: Heap, v: Value, seg: Key)
    requires seg.Name?
    ensures ArrayEntries(heap, Pushed(heap, v, seg)) == []
  {
    var x := ReadItem(heap, v, seg);
    assert !(x.Val? && x.v.Ref?);
    var tail := if HasAnyString(heap, v) then [ReadItem(heap, v, AnyString)] else [];
    assert ArrayEntries(heap, tail) == [] by {
      if tail != [] {
        assert tail[1..] == [];
      }
    }
    ArrayEntriesAppend(heap, [x], tail);
    assert [x][1..] == [];
  }

  /** What the loop as written hands to the next level: the elements of the
      array entries when the segment is an integer, and nothing at all otherwise;
      the properties of records and the `ANY_STRING` reads it pushes are lost. */
  lemma {:induction false} VisitAsWrittenResult(heap: Heap, work: seq<Item>, seg: Key, next: seq<Value>, fuel: nat)
    ensures VisitAsWritten(heap, work, seg, next, fuel).Some? ==>
      VisitAsWritten(heap, work, seg, next, fuel).value ==
        next + (if IntegerSegment(seg) then ArrayEntries(heap, work) else [])
    decreases fuel, 1
  {
    if work != [] && fuel > 0 {
      var w := work[0];
      if w.Val? && IsObjectLike(w.v) {
        if IsArray(heap, w.v) && IntegerSegment(seg) {
          VisitArrayResult(heap, work, seg, next, fuel);
        } else {
          VisitPushedResult(heap, work, seg, next, fuel);
        }
      } else {
        VisitSkipStep(heap, work, seg, next, fuel);
        VisitAsWrittenResult(heap, work[1..], seg, next, fuel - 1);
      }
    } else if work == [] {
      assert ArrayEntries(heap, work) == [];
    }
  }

  /** An entry that is not an object is skipped and reads no array elements. */
  lemma VisitSkipStep(heap: Heap, work: seq<Item>, seg: Key, next: seq<Value>, fuel: nat)
    requires work != [] && fuel > 0 && !(work[0].Val? && IsObjectLike(work[0].v))
    ensures VisitAsWritten(heap, work, seg, next, fuel) == VisitAsWritten(heap, work[1..], seg, next, fuel - 1)
    ensures ArrayEntries(heap, work) == ArrayEntries(heap, work[1..])
  {
  }

  /** The case of `VisitAsWrittenResult` where an array's elements are read at an integer segment. */
  lemma {:induction false} VisitArrayResult(heap: Heap, work: seq<Item>, seg: Key, next: seq<Value>, fuel: nat)
    requires work != [] && fuel > 0 && work[0].Val? && IsObjectLike(work[0].v)
    requires IsArray(heap, work[0].v) && IntegerSegment(seg)
    ensures VisitAsWritten(heap, work, seg, next, fuel).Some? ==>
      VisitAsWritten(heap, work, seg, next, fuel).value == next + ArrayEntries(heap, work)
    decreases fuel, 0
  {
    var elems := heap[work[0].v.addr].elems;
    VisitArrayStep(heap, work, seg, next, fuel);
    VisitAsWrittenResult(heap, work[1..], seg, next + elems, fuel - 1);
    AppendAssoc(next, elems, ArrayEntries(heap, work[1..]));
  }

  /** Visiting an array at an integer segment reads its elements and goes on with the rest. */
  lemma VisitArrayStep(heap: Heap, work: seq<Item>, seg: Key, next: seq<Value>, fuel: nat)
    requires work != [] && fuel > 0 && work[0].Val? && IsObjectLike(work[0].v)
    requires IsArray(heap, work[0].v) && IntegerSegment(seg)
    ensures VisitAsWritten(heap, work, seg, next, fuel) ==
      VisitAsWritten(heap, work[1..], seg, next + heap[work[0].v.addr].elems, fuel - 1)
    ensures ArrayEntries(heap, work) == heap[work[0].v.addr].elems + ArrayEntries(heap, work[1..])
  {
  }

  /** The case of `VisitAsWrittenResult` where the entry's reads are pushed. */
  lemma {:induction false} VisitPushedResult(heap: Heap, work: seq<Item>, seg: Key, next: seq<Value>, fuel: nat)
    requires work != [] && fuel > 0 && work[0].Val? && IsObjectLike(work[0].v)
    requires !(IsArray(heap, work[0].v) && IntegerSegment(seg))
    ensures VisitAsWritten(heap, work, seg, next, fuel).Some? ==>
      VisitAsWritten(heap, work, seg, next, fuel).value ==
        next + (if IntegerSegment(seg) then ArrayEntries(heap, work) else [])
    decreases fuel, 0
  {
    var pushed := Pushed(heap, work[0].v, seg);
    VisitPushedStep(heap, work, seg, next, fuel);
    VisitAsWrittenResult(heap, work[1..] + pushed, seg, next, fuel - 1);
    if IntegerSegment(seg) {
      PushedEntries(heap, work, seg);
    }
  }

  /** Visiting an entry whose reads are pushed goes on with them at the end. */
  lemma VisitPushedStep(heap: Heap, work: seq<Item>, seg: Key, next: seq<Value>, fuel: nat)
    requires work != [] && fuel > 0 && work[0].Val? && IsObjectLike(work[0].v)
    requires !(IsArray(heap, work[0].v) && IntegerSegment(seg))
    ensures VisitAsWritten(heap, work, seg, next, fuel) ==
      VisitAsWritten(heap, work[1..] + Pushed(heap, work[0].v, seg), seg, next, fuel - 1)
  {
  }

  /** At an integer segment, a non-array entry's pushed reads add no array entry. */
  lemma PushedEntries(heap: Heap, work: seq<Item>, seg: Key)
    requires work != [] && work[0].Val? && IntegerSegment(seg) && !IsArray(heap, work[0].v)
    ensures ArrayEntries(heap, work[1..] + Pushed(heap, work[0].v, seg)) == ArrayEntries(heap, work)
  {
    ArrayEntriesAppend(heap, work[1..], Pushed(heap, work[0].v, seg));
    PushedNamedHasNoArrays(heap, work[0].v, seg);
  }

  /** Every inner segment as written. */
  function WalkAsWritten(heap: Heap, ps: seq<Value>, path: seq<Key>, fuel: nat): Option<seq<Value>>
    decreases |path|
  {
    if path == [] then Some(ps)
    else match VisitAsWritten(heap, Vals(ps), path[0], [], fuel)
      case None => None
      case Some(next) => WalkAsWritten(heap, next, path[1..], fuel)
  }

  /** `setPossibleReferences` as written, within `fuel` visits per level. */
  function SetAsWritten(host: Host, left: Node, right: Node, st: State, fuel: nat): Option<Effect>
    requires left.Member?
  {
    var value := ResolveNode(host, right, st);
    if value.result.Throw? then Some(Effect(Some(value.result.message), value.state))
    else match Decompose(left, [])
      case Throw(m) => Some(Effect(Some(m), value.state))
      case Ok(d) =>
        if d.path == [] then Some(Effect(Some(""), value.state))
        else
          var rootRef := ResolveNode(host, d.root, value.state);
          if rootRef.result.Throw? then Some(Effect(Some(rootRef.result.message), rootRef.state))
          else match WalkAsWritten(rootRef.state.heap, rootRef.result.value, d.path[..|d.path| - 1], fuel)
            case None => None
            case Some(reached) =>
              var heap := SetKey(rootRef.state.heap, reached, d.path[|d.path| - 1], value.result.value);
              Some(Effect(None, rootRef.state.(heap := heap)))
  }

  /** As written, a level reached through a non-integer segment is empty: a
      write through any such inner segment reaches nothing. */
  lemma {:induction false} WalkAsWrittenNamed(heap: Heap, ps: seq<Value>, path: seq<Key>, fuel: nat, k: nat)
    requires k < |path| && !IntegerSegment(path[k])
    ensures WalkAsWritten(heap, ps, path, fuel).Some? ==> WalkAsWritten(heap, ps, path, fuel).value == []
    decreases k
  {
    var first := VisitAsWritten(heap, Vals(ps), path[0], [], fuel);
    VisitAsWrittenResult(heap, Vals(ps), path[0], [], fuel);
    if first.Some? {
      if k == 0 {
        assert first.value == [];
        WalkEmpty(heap, path[1..], fuel);
      } else {
        WalkAsWrittenNamed(heap, first.value, path[1..], fuel, k - 1);
      }
    }
  }

  lemma {:induction false} WalkEmpty(heap: Heap, path: seq<Key>, fuel: nat)
    ensures WalkAsWritten(heap, [], path, fuel) == Some([])
  {
    if path != [] {
      assert Vals([]) == [];
      WalkEmpty(heap, path[1..], fuel);
    }
  }

  /** The state of the finding below: `a` is `{b: {}}`. */
  function NestedState(): State
  {
    State([RecCell([Field(Name("b"), [Ref(1)])]), RecCell([])], [], [Frame(None, map["a" := [Ref(0)]])], map[], map[])
  }

  function NestedAssignment(): Node
  {
    Member(NoLoc, Member(NoLoc, Id("a"), Id("b"), false), Id("c"), false)
  }

  /** As written, `a.b.c = 1` with `a` being `{b: {}}` writes nothing. */
  lemma AsWrittenMissesNestedWrite(host: Host, fuel: nat)
    ensures var r := SetAsWritten(host, NestedAssignment(), Literal(NoLoc, LNum(1), "1"), NestedState(), fuel);
      r.Some? ==> r.value == Effect(None, NestedState())
  {
    var st := NestedState();
    var path := [Name("b"), Name("c")];
    assert [Name("c")] + [] == [Name("c")] && [Name("b")] + [Name("c")] == path;
    assert Decompose(NestedAssignment(), []) == Decompose(Member(NoLoc, Id("a"), Id("b"), false), [Name("c")]);
    assert Decompose(NestedAssignment(), []) == Ok(Decomposed(Id("a"), path));
    InnermostWins(host, NoLoc, "a", st, [Ref(0)]);
    assert path[..1] == [Name("b")];
    assert !IntegerSegment(Name("b")) by {
      assert !IsDigit("b"[0]);
    }
    WalkAsWrittenNamed(st.heap, [Ref(0)], path[..1], fuel, 0);
  }

  /** With each level read by `getKey`, `a.b.c = 1` gives the inner record a `c`
      of `undefined` or `1`, and leaves `a` as it is. */
  lemma NestedWrite(host: Host)
    ensures var r := SetSpec(host, NestedAssignment(), Literal(NoLoc, LNum(1), "1"), NestedState());
      r.error.None? &&
      r.state.heap == [RecCell([Field(Name("b"), [Ref(1)])]), RecCell([Field(Name("c"), [Undefined, Num(1)])])]
  {
    var st := NestedState();
    var path := [Name("b"), Name("c")];
    assert [Name("c")] + [] == [Name("c")] && [Name("b")] + [Name("c")] == path;
    assert Decompose(NestedAssignment(), []) == Decompose(Member(NoLoc, Id("a"), Id("b"), false), [Name("c")]);
    assert Decompose(NestedAssignment(), []) == Ok(Decomposed(Id("a"), path));
    InnermostWins(host, NoLoc, "a", st, [Ref(0)]);
    assert path[..1] == [Name("b")];
    assert Walk(st.heap, [Ref(0)], []) == [Ref(0)];
    GetKeyRule(st.heap, Ref(0), Name("b"));
    assert Walk(st.heap, [Ref(0)], [Name("b")]) == [Ref(1)];
    assert [Ref(1)][1..] == [];
    assert SetKey(st.heap, [Ref(1)], Name("c"), [Num(1)]) == WriteOne(st.heap, Ref(1), Name("c"), [Num(1)]);
    assert [Undefined] + [Num(1)] == [Undefined, Num(1)];
    assert WriteOne(st.heap, Ref(1), Name("c"), [Num(1)]) ==
      [RecCell([Field(Name("b"), [Ref(1)])]), RecCell([Field(Name("c"), [Undefined, Num(1)])])];
    assert ResolveNode(host, Literal(NoLoc, LNum(1), "1"), st) == Step(Ok([Num(1)]), st);
  }
}
