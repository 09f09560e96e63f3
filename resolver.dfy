/** `getPossibleReferences` of the current analyser (get_possible_references.ts):
    the list of values an expression may evaluate to, by a case analysis on the
    node kind. Synthesized array and object literals are allocated on the heap;
    calls are handed to `evaluateCallExpression`. */
module Resolver {
  import opened Common
  import opened Syntax
  import opened Values

  /** The value a literal evaluates to. */
  function LitValue(lit: Lit): Value
  {
    match lit
    case LStr(s) => Str(s)
    case LNum(n) => Num(n)
    case LBool(b) => Bool(b)
    case LNull => Null
  }

  /** The property name a literal's value converts to when it indexes an object. */
  function LitKey(lit: Lit): Key
  {
    match lit
    case LStr(s) => Name(s)
    case LNum(n) => Name(NatToString(n))
    case LBool(b) => Name(if b then "true" else "false")
    case LNull => Name("null")
  }

  /** The bindings of `name` in the first frame, innermost first, that has it. */
  function LookupName(frames: seq<Frame>, name: string): (r: Option<seq<Value>>)
    ensures r.None? <==> forall i :: 0 <= i < |frames| ==> name !in frames[i].refs
    ensures r.Some? ==>
      (exists i :: 0 <= i < |frames| && name in frames[i].refs && frames[i].refs[name] == r.value &&
         (forall j :: 0 <= j < i ==> name !in frames[j].refs))
  {
    if frames == [] then None
    else if name in frames[0].refs then Some(frames[0].refs[name])
    else
      var r := LookupName(frames[1..], name);
      assert forall i :: 0 < i < |frames| ==> frames[i] == frames[1..][i - 1];
      if r.Some? then
        ghost var i :| 0 <= i < |frames[1..]| && name in frames[1..][i].refs &&
              frames[1..][i].refs[name] == r.value && forall j :: 0 <= j < i ==> name !in frames[1..][j].refs;
        assert forall j :: 0 <= j < i + 1 ==> name !in frames[j].refs by {
          forall j | 0 <= j < i + 1 ensures name !in frames[j].refs {
            if j > 0 { assert frames[j] == frames[1..][j - 1]; }
          }
        }
        r
      else r
  }

  /** What an identifier no frame binds resolves to: the `Object` and `Array`
      constructors by name, nothing otherwise. */
  function Unbound(name: string): seq<Value>
  {
    if name == "Object" then [Builtin(ObjectCtor)]
    else if name == "Array" then [Builtin(ArrayCtor)]
    else []
  }

  /** The elements of the array-shaped possibilities, in order: what a spread
      contributes to an array literal. */
  function ArrayItems(heap: Heap, ps: seq<Value>): seq<Value>
  {
    if ps == [] then []
    else (if IsArray(heap, ps[0]) then heap[ps[0].addr].elems else []) + ArrayItems(heap, ps[1..])
  }

  /** The key of a member expression: the name of a non-computed identifier, the
      value of a literal, `ANY_STRING` for everything else (including `a[x]`). */
  function MemberKey(property: Node, computed: bool): Key
  {
    if property.Identifier? && !computed then Name(property.name)
    else if property.Literal? then LitKey(property.lit)
    else AnyString
  }

  /** The key an object-literal property is stored under: an identifier by its
      name (also when computed), a literal by its raw source text, anything else
      under `ANY_STRING`. */
  function PropertyKey(key: Node): Key
  {
    if key.Identifier? then Name(key.name)
    else if key.Literal? then Name(key.raw)
    else AnyString
  }

  predicate IsPattern(n: Node)
  {
    n.ObjectPattern? || n.ArrayPattern? || n.RestElement? || n.AssignmentPattern?
  }

  /** The message of the error a spread property raises. */
  const SpreadMessage := "TODO: Spread"

  /** The host's error when an object literal holds something that is neither a
      property nor a spread (a parser never produces one). */
  const NotAProperty := "Cannot read properties of undefined (reading 'type')"

  /** The record built so far by an object literal, or the error it raised. */
  datatype FieldsStep = FieldsStep(result: Outcome<seq<Field>>, state: State)

  /** `getPossibleReferences` on a possibly missing node. */
  function Resolve(host: Host, n: Option<Node>, st: State): Step
  {
    match n
    case None => Step(Ok([Undefined]), st)
    case Some(e) => ResolveNode(host, e, st)
  }

  /** `getPossibleReferences` on a node. Sub-expressions are resolved left to
      right and the state each leaves is passed on; a throw ends the resolution. */
  function ResolveNode(host: Host, e: Node, st: State): Step
    decreases Size(e), 1
  {
    match e
    case Literal(_, lit, _) => Step(Ok([LitValue(lit)]), st)
    case Identifier(_, name) =>
      (match LookupName(st.currentRefs, name)
       case Some(vs) => Step(Ok(vs), st)
       case None => Step(Ok(Unbound(name)), st))
    case Binary(_, _, _) => Step(Ok([Bool(true), Bool(false)]), st)
    case Unary(_, _) => Step(Ok([]), st)
    case Update(_, _) => Step(Ok([]), st)
    case FunctionExpr(_, _, _) => Step(Ok([Fn(e)]), st)
    case ArrowFunction(_, _, _) => Step(Ok([Fn(e)]), st)
    case Call(loc, _, _) =>
      if loc.NoLoc? then Step(Throw(""), st) else host.evaluateCallExpression(e, st)
    case _ => ResolveCompound(host, e, st)
  }

  /** The cases of `ResolveNode` with sub-expressions to resolve. */
  function ResolveCompound(host: Host, e: Node, st: State): Step
    decreases Size(e), 0
  {
    OperandSizes(e);
    ListSizes(e);
    match e
    case Logical(_, l, r) => ResolveBoth(host, l, r, st)
    case Conditional(_, _, c, alt) => ResolveBoth(host, c, alt, st)
    case Assignment(_, _, r) => ResolveNode(host, r, st)
    case ArrayExpr(_, elems) => NewArray(ResolveElements(host, Present(elems), st, []))
    case ObjectExpr(_, props) => NewRecord(ResolveProperties(host, props, st, []))
    case Member(_, obj, property, computed) =>
      if obj.Super? then Step(Ok([]), st) else ResolveRead(host, obj, MemberKey(property, computed), st)
    case Chain(_, x) => ResolveNode(host, x, st)
    case Sequence(_, xs) =>
      if xs == [] then Step(Ok([Undefined]), st) else ResolveNode(host, xs[|xs| - 1], st)
    case _ => Step(Ok([]), st)
  }

  /** The compound cases of `ResolveNode` are those of `ResolveCompound`. */
  lemma CompoundRule(host: Host, e: Node, st: State)
    requires e.Logical? || e.Conditional? || e.Assignment? || e.ArrayExpr? || e.ObjectExpr? ||
             e.Member? || e.Chain? || e.Sequence?
    ensures ResolveNode(host, e, st) == ResolveCompound(host, e, st)
  {
  }

  /** `x || y`, `x && y`, `x ?? y` and `c ? x : y`: `x`'s possibilities, then `y`'s. */
  function ResolveBoth(host: Host, x: Node, y: Node, st: State): Step
    decreases Size(x) + Size(y), 2
  {
    var a := ResolveNode(host, x, st);
    match a.result
    case Throw(_) => a
    case Ok(av) =>
      var b := ResolveNode(host, y, a.state);
      match b.result
      case Throw(_) => b
      case Ok(bv) => Step(Ok(av + bv), b.state)
  }

  /** `obj.key`: the key read from every possibility of `obj`. */
  function ResolveRead(host: Host, obj: Node, key: Key, st: State): Step
    decreases Size(obj), 2
  {
    var s := ResolveNode(host, obj, st);
    match s.result
    case Throw(_) => s
    case Ok(sv) => Step(Ok(GetKey(s.state.heap, sv, key)), s.state)
  }

  /** `new Reference([elements])`: one new array holding the collected elements. */
  function NewArray(s: Step): (r: Step)
    ensures s.result.Throw? ==> r == s
    ensures s.result.Ok? ==>
      (r.result == Ok([Ref(|s.state.heap|)]) &&
       r.state == s.state.(heap := s.state.heap + [ArrCell(s.result.value)]))
  {
    if s.result.Throw? then s
    else
      var (st', v) := Alloc(s.state, ArrCell(s.result.value));
      Step(Ok([v]), st')
  }

  /** `new Reference([object])`: one new record holding the collected properties. */
  function NewRecord(s: FieldsStep): (r: Step)
    ensures s.result.Throw? ==> r == Step(Throw(s.result.message), s.state)
    ensures s.result.Ok? ==>
      (r.result == Ok([Ref(|s.state.heap|)]) &&
       r.state == s.state.(heap := s.state.heap + [RecCell(s.result.value)]))
  {
    if s.result.Throw? then Step(Throw(s.result.message), s.state)
    else
      var (st', v) := Alloc(s.state, RecCell(s.result.value));
      Step(Ok([v]), st')
  }

  /** The elements of an array literal from `es` on, appended to `acc`: a spread
      adds the elements of its array-shaped possibilities, any other element all
      of its possibilities. */
  function ResolveElements(host: Host, es: seq<Node>, st: State, acc: seq<Value>): Step
    decreases SizeSeq(es), 2
  {
    if es == [] then Step(Ok(acc), st)
    else
    SizeSeqSplit(es);
    if es[0].Spread? then
      var s := ResolveNode(host, es[0].argument, st);
      if s.result.Throw? then s
      else ResolveElements(host, es[1..], s.state, acc + ArrayItems(s.state.heap, s.result.value))
    else
      var s := ResolveNode(host, es[0], st);
      if s.result.Throw? then s
      else ResolveElements(host, es[1..], s.state, acc + s.result.value)
  }

  /** The properties of an object literal from `ps` on, written into `fields`. */
  function ResolveProperties(host: Host, ps: seq<Node>, st: State, fields: seq<Field>): FieldsStep
    decreases SizeSeq(ps), 2
  {
    if ps == [] then FieldsStep(Ok(fields), st)
    else
    SizeSeqSplit(ps);
    match ps[0]
      case Spread(_, _) => FieldsStep(Throw(SpreadMessage), st)
      case Property(_, key, value, _) =>
        if IsPattern(value) then ResolveProperties(host, ps[1..], st, fields)
        else
          var s := ResolveNode(host, value, st);
          if s.result.Throw? then FieldsStep(Throw(s.result.message), s.state)
          else ResolveProperties(host, ps[1..], s.state, PutField(fields, PropertyKey(key), s.result.value))
      case _ => FieldsStep(Throw(NotAProperty), st)
  }

  // ---------------------------------------------------------------------------
  // the accumulating loops of the array and object cases

  /** The `ArrayExpression` case: a loop over the present elements that pushes
      into `elements`, then one new array. */
  method ArrayLiteral(host: Host, e: Node, st: State) returns (r: Step)
    requires e.ArrayExpr?
    ensures r == ResolveNode(host, e, st)
  {
    ResolveArrayExpr(host, e.loc, e.elements, st);
    var es := Present(e.elements);
    var elements: seq<Value> := [];
    var s := st;
    var i := 0;
    while i < |es|
      invariant 0 <= i <= |es|
      invariant ResolveElements(host, es[i..], s, elements) == ResolveElements(host, es, st, [])
    {
      assert es[i..][0] == es[i] && es[i..][1..] == es[i + 1..];
      ElementsHead(host, es[i..], s, elements);
      var elem := es[i];
      if elem.Spread? {
        var sub := ResolveNode(host, elem.argument, s);
        if sub.result.Throw? {
          return sub;
        }
        var items := ArrayItems(sub.state.heap, sub.result.value);
        elements := elements + items;
        s := sub.state;
      } else {
        var sub := ResolveNode(host, elem, s);
        if sub.result.Throw? {
          return sub;
        }
        elements := elements + sub.result.value;
        s := sub.state;
      }
      i := i + 1;
    }
    var created := Alloc(s, ArrCell(elements));
    r := Step(Ok([created.1]), created.0);
  }

  /** The `ArrayExpr` case of `ResolveNode`, unfolded. */
  lemma ResolveArrayExpr(host: Host, loc: Loc, elems: seq<Option<Node>>, st: State)
    ensures ResolveNode(host, ArrayExpr(loc, elems), st) == NewArray(ResolveElements(host, Present(elems), st, []))
  {
  }

  /** One step of `ResolveElements`, unfolded. */
  lemma ElementsHead(host: Host, es: seq<Node>, st: State, acc: seq<Value>)
    requires es != []
    ensures ResolveElements(host, es, st, acc) ==
      if es[0].Spread? then
        var s := ResolveNode(host, es[0].argument, st);
        if s.result.Throw? then s
        else ResolveElements(host, es[1..], s.state, acc + ArrayItems(s.state.heap, s.result.value))
      else
        var s := ResolveNode(host, es[0], st);
        if s.result.Throw? then s
        else ResolveElements(host, es[1..], s.state, acc + s.result.value)
  {
  }

  /** The `ObjectExpression` case: a loop over the properties that assigns into
      `object`, then one new record. */
  method ObjectLiteral(host: Host, e: Node, st: State) returns (r: Step)
    requires e.ObjectExpr?
    ensures r == ResolveNode(host, e, st)
  {
    var ps := e.properties;
    var fields: seq<Field> := [];
    var s := st;
    var i := 0;
    while i < |ps|
      invariant 0 <= i <= |ps|
      invariant ResolveProperties(host, ps[i..], s, fields) == ResolveProperties(host, ps, st, [])
    {
      assert ps[i..][0] == ps[i] && ps[i..][1..] == ps[i + 1..];
      var property := ps[i];
      if property.Spread? {
        return Step(Throw(SpreadMessage), s);
      } else if !property.Property? {
        return Step(Throw(NotAProperty), s);
      }
      if !IsPattern(property.value) {
        var sub := ResolveNode(host, property.value, s);
        if sub.result.Throw? {
          return Step(Throw(sub.result.message), sub.state);
        }
        fields := PutField(fields, PropertyKey(property.key), sub.result.value);
        s := sub.state;
      }
      i := i + 1;
    }
    var created := Alloc(s, RecCell(fields));
    r := Step(Ok([created.1]), created.0);
  }

  // ---------------------------------------------------------------------------
  // properties

  /** An identifier takes the bindings of the first frame, innermost first, that
      has its name; with none, `Object` and `Array` give the constructors and any
      other name gives nothing. The state is untouched. */
  lemma IdentifierRule(host: Host, loc: Loc, name: string, st: State)
    ensures var r := ResolveNode(host, Identifier(loc, name), st);
      r.state == st && r.result.Ok? &&
      ((exists i :: 0 <= i < |st.currentRefs| && name in st.currentRefs[i].refs &&
          r.result.value == st.currentRefs[i].refs[name] &&
          forall j :: 0 <= j < i ==> name !in st.currentRefs[j].refs) ||
       ((forall i :: 0 <= i < |st.currentRefs| ==> name !in st.currentRefs[i].refs) &&
          r.result.value == Unbound(name)))
  {
  }

  /** Resolving an identifier succeeds and changes nothing. */
  lemma IdentifierKeepsState(host: Host, e: Node, st: State)
    requires e.Identifier?
    ensures ResolveNode(host, e, st).state == st && ResolveNode(host, e, st).result.Ok?
  {
  }

  /** A frame binding the name hides every frame after it. */
  lemma InnermostWins(host: Host, loc: Loc, name: string, st: State, vs: seq<Value>)
    requires |st.currentRefs| > 0 && name in st.currentRefs[0].refs && st.currentRefs[0].refs[name] == vs
    ensures ResolveNode(host, Identifier(loc, name), st) == Step(Ok(vs), st)
  {
  }

  /** Resolution keeps what every analyser step keeps, provided the collaborators do. */
  lemma {:induction false} ResolvePreserves(host: Host, e: Node, st: State)
    requires HostPreserves(host)
    ensures Preserves(st, ResolveNode(host, e, st).state)
    decreases Size(e), 1
  {
    if e.Logical? || e.Conditional? {
      BranchesPreserve(host, e, st);
    } else if e.ArrayExpr? {
      PresentSize(e.elements);
      ResolveArrayExpr(host, e.loc, e.elements, st);
      ElementsPreserve(host, Present(e.elements), st, []);
    } else if e.ObjectExpr? {
      CompoundRule(host, e, st);
      PropertiesPreserve(host, e.properties, st, []);
    } else if e.Assignment? || e.Member? || e.Chain? || e.Sequence? {
      ForwardPreserves(host, e, st);
    } else {
      LeafPreserves(host, e, st);
    }
  }

  /** The cases without sub-expressions keep `Preserves`, a call by the
      collaborator's own guarantee. */
  lemma LeafPreserves(host: Host, e: Node, st: State)
    requires HostPreserves(host)
    requires !(e.Logical? || e.Conditional? || e.Assignment? || e.ArrayExpr? || e.ObjectExpr? ||
               e.Member? || e.Chain? || e.Sequence?)
    ensures Preserves(st, ResolveNode(host, e, st).state)
  {
  }

  lemma {:induction false} BranchesPreserve(host: Host, e: Node, st: State)
    requires HostPreserves(host) && (e.Logical? || e.Conditional?)
    ensures Preserves(st, ResolveNode(host, e, st).state)
    decreases Size(e), 0
  {
    var (x, y) := if e.Logical? then (e.left, e.right) else (e.consequent, e.alternate);
    CompoundRule(host, e, st);
    ResolvePreserves(host, x, st);
    var a := ResolveNode(host, x, st);
    if a.result.Ok? {
      ResolvePreserves(host, y, a.state);
      PreservesTrans(st, a.state, ResolveNode(host, y, a.state).state);
    }
  }

  /** The cases that resolve one sub-expression and pass its state on. */
  lemma {:induction false} ForwardPreserves(host: Host, e: Node, st: State)
    requires HostPreserves(host) && (e.Assignment? || e.Member? || e.Chain? || e.Sequence?)
    ensures Preserves(st, ResolveNode(host, e, st).state)
    decreases Size(e), 0
  {
    CompoundRule(host, e, st);
    OperandSizes(e);
    ListSizes(e);
    if e.Member? {
      if !e.target.Super? {
        ResolvePreserves(host, e.target, st);
      }
    } else if e.Sequence? {
      if e.expressions != [] {
        ResolvePreserves(host, e.expressions[|e.expressions| - 1], st);
      }
    } else {
      ResolvePreserves(host, if e.Assignment? then e.right else e.expression, st);
    }
  }

  lemma {:induction false} ElementsPreserve(host: Host, es: seq<Node>, st: State, acc: seq<Value>)
    requires HostPreserves(host)
    ensures Preserves(st, ResolveElements(host, es, st, acc).state)
    decreases SizeSeq(es), 2
  {
    if es != [] {
      SizeSeqSplit(es);
      var x := if es[0].Spread? then es[0].argument else es[0];
      ResolvePreserves(host, x, st);
      var s := ResolveNode(host, x, st);
      if s.result.Ok? {
        var acc' := if es[0].Spread? then acc + ArrayItems(s.state.heap, s.result.value) else acc + s.result.value;
        ElementsPreserve(host, es[1..], s.state, acc');
        PreservesTrans(st, s.state, ResolveElements(host, es[1..], s.state, acc').state);
      }
    }
  }

  lemma {:induction false} PropertiesPreserve(host: Host, ps: seq<Node>, st: State, fields: seq<Field>)
    requires HostPreserves(host)
    ensures Preserves(st, ResolveProperties(host, ps, st, fields).state)
    decreases SizeSeq(ps), 2
  {
    if ps != [] && ps[0].Property? {
      SizeSeqSplit(ps);
      var value := ps[0].value;
      if IsPattern(value) {
        PropertiesPreserve(host, ps[1..], st, fields);
      } else {
        ResolvePreserves(host, value, st);
        var s := ResolveNode(host, value, st);
        if s.result.Ok? {
          var fields' := PutField(fields, PropertyKey(ps[0].key), s.result.value);
          PropertiesPreserve(host, ps[1..], s.state, fields');
          PreservesTrans(st, s.state, ResolveProperties(host, ps[1..], s.state, fields').state);
        }
      }
    }
  }

  /** An array literal that resolves gives exactly one possibility: the array it
      has just allocated, on top of the heap. */
  lemma ArrayLiteralIsOneArray(host: Host, loc: Loc, elems: seq<Option<Node>>, st: State)
    ensures var r := ResolveNode(host, ArrayExpr(loc, elems), st);
      r.result.Ok? ==>
        |r.result.value| == 1 && IsArray(r.state.heap, r.result.value[0]) &&
        r.result.value[0].addr == |r.state.heap| - 1
  {
  }

  /** Holes do not matter: an array literal resolves as the literal of its present elements. */
  lemma HolesDropped(host: Host, loc: Loc, elems: seq<Option<Node>>, st: State)
    ensures ResolveNode(host, ArrayExpr(loc, elems), st) ==
            ResolveNode(host, ArrayExpr(loc, Filled(Present(elems))), st)
  {
    var es := Present(elems);
    PresentFilled(es);
    assert ResolveNode(host, ArrayExpr(loc, elems), st) == NewArray(ResolveElements(host, es, st, []));
    assert ResolveNode(host, ArrayExpr(loc, Filled(es)), st) == NewArray(ResolveElements(host, Present(Filled(es)), st, []));
  }

  function Filled(es: seq<Node>): (r: seq<Option<Node>>)
    ensures |r| == |es| && forall i :: 0 <= i < |es| ==> r[i] == Some(es[i])
  {
    if es == [] then [] else [Some(es[0])] + Filled(es[1..])
  }

  lemma {:induction false} PresentFilled(es: seq<Node>)
    ensures Present(Filled(es)) == es
  {
    if es != [] {
      var f := Filled(es);
      assert f[0] == Some(es[0]);
      assert f[1..] == Filled(es[1..]);
      PresentFilled(es[1..]);
    }
  }

  /** A spread adds the elements of array-shaped possibilities only: primitives,
      records and functions add nothing, and an array adds all its elements. */
  lemma {:induction false} ArrayItemsRule(heap: Heap, ps: seq<Value>, qs: seq<Value>)
    ensures ArrayItems(heap, ps + qs) == ArrayItems(heap, ps) + ArrayItems(heap, qs)
    ensures (forall i :: 0 <= i < |ps| ==> !IsArray(heap, ps[i])) ==> ArrayItems(heap, ps) == []
  {
    if ps == [] {
      assert ps + qs == qs;
    } else {
      var h := if IsArray(heap, ps[0]) then heap[ps[0].addr].elems else [];
      assert (ps + qs)[0] == ps[0] && (ps + qs)[1..] == ps[1..] + qs;
      ArrayItemsRule(heap, ps[1..], qs);
      AppendAssoc(h, ArrayItems(heap, ps[1..]), ArrayItems(heap, qs));
    }
  }

  /** A spread anywhere in an object literal makes it throw: either with
      "TODO: Spread", or earlier with the error of a property before it. */
  lemma {:induction false} ObjectSpreadThrows(host: Host, ps: seq<Node>, st: State, fields: seq<Field>, k: nat)
    requires k < |ps| && ps[k].Spread?
    ensures ResolveProperties(host, ps, st, fields).result.Throw?
    ensures (forall i :: 0 <= i < k ==> ps[i].Property? && IsPattern(ps[i].value)) ==>
              ResolveProperties(host, ps, st, fields) == FieldsStep(Throw(SpreadMessage), st)
    decreases k
  {
    if k > 0 && ps[0].Property? {
      var value := ps[0].value;
      if IsPattern(value) {
        ObjectSpreadThrows(host, ps[1..], st, fields, k - 1);
      } else {
        var s := ResolveNode(host, value, st);
        if s.result.Ok? {
          ObjectSpreadThrows(host, ps[1..], s.state, PutField(fields, PropertyKey(ps[0].key), s.result.value), k - 1);
        }
      }
    }
  }

  /** An object literal that resolves gives exactly one possibility: the record it
      has just allocated, on top of the heap. */
  lemma ObjectLiteralIsOneRecord(host: Host, loc: Loc, props: seq<Node>, st: State)
    ensures var r := ResolveNode(host, ObjectExpr(loc, props), st);
      r.result.Ok? ==>
        |r.state.heap| >= 1 && |r.result.value| == 1 && r.result.value[0] == Ref(|r.state.heap| - 1) &&
        r.state.heap[|r.state.heap| - 1].RecCell?
  {
    CompoundRule(host, ObjectExpr(loc, props), st);
  }

  /** Member access reads the key from every possibility of the object with
      `getKey`; the key of `a.b` is `b`, of `a[x]` any string, of `a[0]` and
      `a['b']` the literal's value. `super.x` gives nothing. */
  lemma MemberRule(host: Host, loc: Loc, obj: Node, property: Node, computed: bool, st: State)
    ensures obj.Super? ==> ResolveNode(host, Member(loc, obj, property, computed), st) == Step(Ok([]), st)
    ensures !obj.Super? && ResolveNode(host, obj, st).result.Ok? ==>
      var s := ResolveNode(host, obj, st);
      ResolveNode(host, Member(loc, obj, property, computed), st) ==
        Step(Ok(GetKey(s.state.heap, s.result.value, MemberKey(property, computed))), s.state)
    ensures property.Identifier? ==> MemberKey(property, computed) == (if computed then AnyString else Name(property.name))
    ensures property.Literal? ==> MemberKey(property, computed) == LitKey(property.lit)
  {
    ResolveMember(host, loc, obj, property, computed, st);
  }

  /** The `Member` case of `ResolveNode`, unfolded. */
  lemma ResolveMember(host: Host, loc: Loc, obj: Node, property: Node, computed: bool, st: State)
    ensures ResolveNode(host, Member(loc, obj, property, computed), st) ==
      if obj.Super? then Step(Ok([]), st)
      else
        var s := ResolveNode(host, obj, st);
        if s.result.Throw? then s
        else Step(Ok(GetKey(s.state.heap, s.result.value, MemberKey(property, computed))), s.state)
  {
    CompoundRule(host, Member(loc, obj, property, computed), st);
  }

  /** A comma sequence gives its last expression's possibilities. */
  lemma SequenceRule(host: Host, loc: Loc, xs: seq<Node>, st: State)
    ensures xs == [] ==> ResolveNode(host, Sequence(loc, xs), st) == Step(Ok([Undefined]), st)
    ensures xs != [] ==> ResolveNode(host, Sequence(loc, xs), st) == ResolveNode(host, xs[|xs| - 1], st)
  {
  }

  // ---------------------------------------------------------------------------
  // the documented behaviour on small programs

  function Id(name: string): Node
  {
    Identifier(NoLoc, name)
  }

  function Bound(frames: map<string, seq<Value>>): State
  {
    State([], [], [Frame(None, frames)], map[], map[])
  }

  /** `a || b`, `a && b`, `a ?? b` and `c ? a : b` give the possibilities of `a`
      followed by those of `b`. */
  lemma LogicalExample(host: Host, x: Value, y: Value)
    ensures var st := Bound(map["a" := [x], "b" := [y]]);
      ResolveNode(host, Logical(NoLoc, Id("a"), Id("b")), st) == Step(Ok([x, y]), st) &&
      ResolveNode(host, Conditional(NoLoc, Binary(NoLoc, Id("c"), Id("d")), Id("a"), Id("b")), st) ==
        Step(Ok([x, y]), st)
  {
    var st := Bound(map["a" := [x], "b" := [y]]);
    InnermostWins(host, NoLoc, "a", st, [x]);
    InnermostWins(host, NoLoc, "b", st, [y]);
    assert [x] + [y] == [x, y];
  }

  /** `[a]`: one array, whose index 0 gives `a`'s value. */
  lemma ArrayExample(host: Host, x: Value)
    ensures var st := Bound(map["a" := [x]]);
      var r := ResolveNode(host, ArrayExpr(NoLoc, [Some(Id("a"))]), st);
      r.result == Ok([Ref(0)]) && GetKey(r.state.heap, r.result.value, Name("0")) == [x]
  {
    var st := Bound(map["a" := [x]]);
    InnermostWins(host, NoLoc, "a", st, [x]);
    var es := [Id("a")];
    assert Present([Some(Id("a"))]) == es by {
      assert [Some(Id("a"))][1..] == [];
    }
    assert es[1..] == [] && [] + [x] == [x];
    assert ResolveElements(host, es[1..], st, [x]) == Step(Ok([x]), st);
    assert ResolveElements(host, es, st, []) == Step(Ok([x]), st);
    var r := ResolveNode(host, ArrayExpr(NoLoc, [Some(Id("a"))]), st);
    assert r == NewArray(Step(Ok([x]), st));
    assert r.state.heap == [ArrCell([x])];
    assert IsInteger("0") by { assert IsDigit("0"[0]); }
    GetKeyOne(r.state.heap, Ref(0), Name("0"));
  }

  /** `[...a, ...b]` with `a` and `b` arrays: one array holding their elements in order. */
  lemma ArraySpreadExample(host: Host, x: Value, y: Value)
    ensures var st := State([ArrCell([x]), ArrCell([y])], [], [Frame(None, map["a" := [Ref(0)], "b" := [Ref(1)]])], map[], map[]);
      var r := ResolveNode(host, ArrayExpr(NoLoc, [Some(Spread(NoLoc, Id("a"))), Some(Spread(NoLoc, Id("b")))]), st);
      r.result == Ok([Ref(2)]) && r.state.heap[2] == ArrCell([x, y])
  {
    var st := State([ArrCell([x]), ArrCell([y])], [], [Frame(None, map["a" := [Ref(0)], "b" := [Ref(1)]])], map[], map[]);
    var es := [Spread(NoLoc, Id("a")), Spread(NoLoc, Id("b"))];
    PresentTwo(es[0], es[1]);
    ResolveArrayExpr(host, NoLoc, [Some(es[0]), Some(es[1])], st);
    SpreadElements(host, st, x, y);
  }

  lemma SpreadElements(host: Host, st: State, x: Value, y: Value)
    requires st == State([ArrCell([x]), ArrCell([y])], [], [Frame(None, map["a" := [Ref(0)], "b" := [Ref(1)]])], map[], map[])
    ensures ResolveElements(host, [Spread(NoLoc, Id("a")), Spread(NoLoc, Id("b"))], st, []) == Step(Ok([x, y]), st)
  {
    InnermostWins(host, NoLoc, "a", st, [Ref(0)]);
    InnermostWins(host, NoLoc, "b", st, [Ref(1)]);
    var es := [Spread(NoLoc, Id("a")), Spread(NoLoc, Id("b"))];
    assert es[1..] == [es[1]] && es[1..][1..] == [];
    assert ArrayItems(st.heap, [Ref(0)]) == [x] by { assert [Ref(0)][1..] == []; }
    assert ArrayItems(st.heap, [Ref(1)]) == [y] by { assert [Ref(1)][1..] == []; }
    assert [] + [x] == [x] && [x] + [y] == [x, y];
    assert ResolveElements(host, es[1..][1..], st, [x, y]) == Step(Ok([x, y]), st);
    assert ResolveElements(host, es[1..], st, [x]) == Step(Ok([x, y]), st);
  }

  /** `({key: a})`: one record, whose `key` gives `a`'s value. */
  lemma ObjectExample(host: Host, x: Value)
    ensures var st := Bound(map["a" := [x]]);
      var r := ResolveNode(host, ObjectExpr(NoLoc, [Property(NoLoc, Id("key"), Id("a"), false)]), st);
      r.result == Ok([Ref(0)]) && GetKey(r.state.heap, r.result.value, Name("key")) == [x]
  {
    var st := Bound(map["a" := [x]]);
    InnermostWins(host, NoLoc, "a", st, [x]);
    var ps := [Property(NoLoc, Id("key"), Id("a"), false)];
    assert ps[1..] == [];
    assert ResolveProperties(host, ps, st, []) == FieldsStep(Ok([Field(Name("key"), [x])]), st);
    var r := ResolveNode(host, ObjectExpr(NoLoc, ps), st);
    assert r.state.heap == [RecCell([Field(Name("key"), [x])])];
    GetKeyRule(r.state.heap, Ref(0), Name("key"));
  }

  /** `({['k' + 'e' + 'y']: a})`: the computed key is stored as any string, so
      reading `key` or `random-string` gives `undefined` and `a`'s value. */
  lemma ComputedKeyExample(host: Host, x: Value)
    ensures var st := Bound(map["a" := [x]]);
      var key := Binary(NoLoc, Literal(NoLoc, LStr("k"), "'k'"), Literal(NoLoc, LStr("ey"), "'ey'"));
      var r := ResolveNode(host, ObjectExpr(NoLoc, [Property(NoLoc, key, Id("a"), true)]), st);
      r.result == Ok([Ref(0)]) &&
      GetKey(r.state.heap, r.result.value, Name("key")) == [Undefined, x] &&
      GetKey(r.state.heap, r.result.value, Name("random-string")) == [Undefined, x]
  {
    var st := Bound(map["a" := [x]]);
    InnermostWins(host, NoLoc, "a", st, [x]);
    var key := Binary(NoLoc, Literal(NoLoc, LStr("k"), "'k'"), Literal(NoLoc, LStr("ey"), "'ey'"));
    var ps := [Property(NoLoc, key, Id("a"), true)];
    assert ps[1..] == [];
    assert ResolveProperties(host, ps, st, []) == FieldsStep(Ok([Field(AnyString, [x])]), st);
    CompoundRule(host, ObjectExpr(NoLoc, ps), st);
    var r := ResolveNode(host, ObjectExpr(NoLoc, ps), st);
    assert r.state.heap == [RecCell([Field(AnyString, [x])])];
    GetKeyComputedExample(x);
  }

  /** `Object.assign` is the `assign` static. */
  lemma ObjectMemberExample(host: Host)
    ensures var st := State([], [], [], map[], map[]);
      ResolveNode(host, Member(NoLoc, Id("Object"), Id("assign"), false), st) ==
        Step(Ok([Builtin(ObjectStatic(Assign))]), st)
  {
    var st := State([], [], [], map[], map[]);
    ResolveMember(host, NoLoc, Id("Object"), Id("assign"), false, st);
    assert ResolveNode(host, Id("Object"), st) == Step(Ok([Builtin(ObjectCtor)]), st);
    ObjectAssignKey();
  }

  /** Reading `assign` off the `Object` constructor gives the `assign` static. */
  lemma ObjectAssignKey()
    ensures GetKey([], [Builtin(ObjectCtor)], Name("assign")) == [Builtin(ObjectStatic(Assign))]
  {
    assert ObjectMethodNamed("assign") == Some(Assign);
    GetKeyOne([], Builtin(ObjectCtor), Name("assign"));
    assert KeyOf([], Builtin(ObjectCtor), Name("assign")) == [Builtin(ObjectStatic(Assign))];
  }

  /** Any computed key on `Object` reads every static of the table. */
  lemma ObjectStatics(heap: Heap) returns (vs: seq<Value>)
    ensures GetKey(heap, [Builtin(ObjectCtor)], AnyString) == vs
    ensures vs == ObjectMethodValues(AllObjectMethods) && |vs| == |AllObjectMethods|
  {
    GetKeyOne(heap, Builtin(ObjectCtor), AnyString);
    vs := ObjectMethodValues(AllObjectMethods);
  }

  /** `Object['as' + 'sign']` gives every static of `Object`, `assign` among them. */
  lemma ObjectComputedMemberExample(host: Host)
    ensures var st := State([], [], [], map[], map[]);
      var key := Binary(NoLoc, Literal(NoLoc, LStr("as"), "'as'"), Literal(NoLoc, LStr("sign"), "'sign'"));
      var r := ResolveNode(host, Member(NoLoc, Id("Object"), key, true), st);
      r.result.Ok? && |r.result.value| == |AllObjectMethods| && Builtin(ObjectStatic(Assign)) in r.result.value
  {
    var st := State([], [], [], map[], map[]);
    assert ResolveNode(host, Id("Object"), st) == Step(Ok([Builtin(ObjectCtor)]), st);
    var key := Binary(NoLoc, Literal(NoLoc, LStr("as"), "'as'"), Literal(NoLoc, LStr("sign"), "'sign'"));
    MemberRule(host, NoLoc, Id("Object"), key, true, st);
    var vs := ObjectStatics(st.heap);
    assert vs[0] == Builtin(ObjectStatic(Assign));
  }
}
