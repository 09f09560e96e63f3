/** no_mutation.ts: the earlier draft of the analyser. Its resolver maps an
    expression to what it may hold, looking names up in a stack of records of
    binding records; `noMutation` sets up the global and hoisted bindings and
    walks the program, entering and leaving block scopes and resolving every
    variable initialiser. */
module NoMutation {
  import opened Common
  import opened Syntax
  import opened JsValues
  import Scopes

  /** A binding record `{start, end, references}`. A hoisted name carries the
      position of its declaring identifier; a schema global has `NaN` for both,
      modelled as no position. Nothing in the draft adds to `references`. */
  datatype Binding = Binding(pos: Option<Scopes.Pos>, references: seq<JsValue>)

  /** One record of the stack: each own key's binding record. */
  type Refs = map<string, Binding>

  /** The values `getPossibleReferences` returns and collects. */
  datatype Ref =
    | Bound(binding: Binding)         // a binding record, returned as it is for a bound name
    | Inherited(name: string)         // a member of `Object.prototype`, which `name in references` also finds
    | List(items: seq<Ref>)           // an array
    | Object(props: map<string, Ref>) // the record an object literal builds

  /** The members every record created as `{}` inherits from `Object.prototype`. */
  const ObjectPrototypeMembers: set<string> :=
    {"constructor", "hasOwnProperty", "isPrototypeOf", "propertyIsEnumerable", "toLocaleString",
     "toString", "valueOf", "__defineGetter__", "__defineSetter__", "__lookupGetter__",
     "__lookupSetter__", "__proto__"}

  /** The message of the `AssertionError` both `assertIsNodePos` and `assert` throw. */
  const AssertionErr := ""
  /** The `TypeError` `Object.entries` throws on `null` or `undefined`. */
  const ToObjectErr := "Cannot convert undefined or null to object"
  /** The `TypeError` of spreading a value that is not iterable into an array literal. */
  const NotIterableErr := "getPossibleReferences(...) is not iterable"
  /** The `TypeError` of calling `.filter` on a value that has no such method. */
  const NoFilterErr := "getPossibleReferences(...).filter is not a function"

  /** `name in references`: an own key, or a member inherited from `Object.prototype`. */
  predicate Has(refs: Refs, name: string)
  {
    name in refs || name in ObjectPrototypeMembers
  }

  /** `references[name]` where `name in references`. */
  function Get(refs: Refs, name: string): Ref
    requires Has(refs, name)
  {
    if name in refs then Bound(refs[name]) else Inherited(name)
  }

  /** The `for ... of referencesStack` loop: what the first record, in stack
      order, that has the name gives. */
  function Lookup(stack: seq<Refs>, name: string): (r: Option<Ref>)
    ensures r.None? <==> forall i :: 0 <= i < |stack| ==> !Has(stack[i], name)
    ensures r.Some? ==> exists i :: (0 <= i < |stack| && Has(stack[i], name) && r.value == Get(stack[i], name) &&
                                     forall j :: 0 <= j < i ==> !Has(stack[j], name))
  {
    if stack == [] then None
    else if Has(stack[0], name) then Some(Get(stack[0], name))
    else
      var r := Lookup(stack[1..], name);
      assert forall i :: 1 <= i < |stack| ==> stack[i] == stack[1..][i - 1];
      if r.Some? then
        var i :| 0 <= i < |stack[1..]| && Has(stack[1..][i], name) && r.value == Get(stack[1..][i], name) &&
          forall j :: 0 <= j < i ==> !Has(stack[1..][j], name);
        assert forall j :: 0 <= j < i + 1 ==> !Has(stack[j], name) by {
          forall j | 0 <= j < i + 1 ensures !Has(stack[j], name) {
            if j > 0 {
              assert stack[j] == stack[1..][j - 1];
            }
          }
        }
        r
      else r
  }

  /** `...x` inside an array literal: an array gives its items; anything else
      is not iterable. */
  function SpreadOf(x: Outcome<Ref>): Outcome<seq<Ref>>
  {
    match x
    case Throw(m) => Throw(m)
    case Ok(v) => if v.List? then Ok(v.items) else Throw(NotIterableErr)
  }

  /** `[...a, ...b]`, `a` spread first. */
  function Join(a: Outcome<Ref>, b: Outcome<Ref>): Outcome<Ref>
  {
    match SpreadOf(a)
    case Throw(m) => Throw(m)
    case Ok(xs) =>
      match SpreadOf(b)
      case Throw(m) => Throw(m)
      case Ok(ys) => Ok(List(xs + ys))
  }

  /** The items of the array-shaped values (`.filter(Array.isArray).flatMap(arr => arr)`). */
  function ArrayMembers(ps: seq<Ref>): seq<Ref>
  {
    if ps == [] then [] else (if ps[0].List? then ps[0].items else []) + ArrayMembers(ps[1..])
  }

  /** `flatMap`'s flattening of one callback result: an array gives its items,
      any other value itself. */
  function Flat(v: Ref): seq<Ref>
  {
    if v.List? then v.items else [v]
  }

  predicate IsPatternNode(n: Node)
  {
    n.ObjectPattern? || n.ArrayPattern? || n.RestElement? || n.AssignmentPattern?
  }

  /** The key a property of an object literal is stored under: an identifier's
      name (computed or not) or a literal's raw source text; no other key is stored. */
  function StoredKey(p: Node): Option<string>
  {
    if !p.Property? || IsPatternNode(p.value) then None
    else if p.key.Identifier? then Some(p.key.name)
    else if p.key.Literal? then Some(p.key.raw)
    else None
  }

  /** `getPossibleReferences(ex, referencesStack)`. Node kinds outside the
      ESTree `Expression` type, which the signature excludes, give nothing. */
  function Possible(e: Node, stack: seq<Refs>): Outcome<Ref>
    decreases Size(e), 0
  {
    match e
    case Identifier(_, name) =>
      (match Lookup(stack, name)
       case Some(v) => Ok(v)
       case None => Ok(List([])))
    case Logical(_, l, r) => Join(Possible(l, stack), Possible(r, stack))
    case Conditional(_, _, c, a) => Join(Possible(c, stack), Possible(a, stack))
    case ArrayExpr(_, es) =>
      PresentSize(es);
      (match Elements(Present(es), stack)
       case Throw(m) => Throw(m)
       case Ok(xs) => Ok(List([List(xs)])))
    case ObjectExpr(_, ps) =>
      (match Props(ps, stack, map[])
       case Throw(m) => Throw(m)
       case Ok(o) => Ok(List([Object(o)])))
    case _ => Ok(List([]))
  }

  /** What one present element of an array literal contributes to the
      `flatMap`: a spread the items of its operand's arrays (and a value that
      is not an array has no `filter`), anything else its flattened value. */
  function Contribution(e: Node, stack: seq<Refs>): Outcome<seq<Ref>>
    decreases Size(e), 1
  {
    if e.Spread? then
      SizeIsChildren(e);
      SizeSeqOne(e.argument);
      match Possible(e.argument, stack)
      case Throw(m) => Throw(m)
      case Ok(v) => if v.List? then Ok(ArrayMembers(v.items)) else Throw(NoFilterErr)
    else
      match Possible(e, stack)
      case Throw(m) => Throw(m)
      case Ok(v) => Ok(Flat(v))
  }

  /** The array literal's `flatMap` over its present elements, in order. */
  function Elements(es: seq<Node>, stack: seq<Refs>): Outcome<seq<Ref>>
    decreases SizeSeq(es), 2
  {
    if es == [] then Ok([])
    else
      SizeSeqSplit(es);
      match Contribution(es[0], stack)
      case Throw(m) => Throw(m)
      case Ok(xs) =>
        match Elements(es[1..], stack)
        case Throw(m) => Throw(m)
        case Ok(ys) => Ok(xs + ys)
  }

  /** The object literal's `forEach` from `ps` on, writing into `acc`. */
  function Props(ps: seq<Node>, stack: seq<Refs>, acc: map<string, Ref>): Outcome<map<string, Ref>>
    decreases SizeSeq(ps), 2
  {
    if ps == [] then Ok(acc)
    else
      SizeSeqSplit(ps);
      match StoredKey(ps[0])
      case None => Props(ps[1..], stack, acc)
      case Some(k) =>
        match Possible(ps[0].value, stack)
        case Throw(m) => Throw(m)
        case Ok(v) => Props(ps[1..], stack, acc[k := v])
  }

  /** The object literal's `forEach`, as it runs. */
  method ObjectLiteral(ps: seq<Node>, stack: seq<Refs>) returns (r: Outcome<map<string, Ref>>)
    ensures Possible(ObjectExpr(NoLoc, ps), stack) ==
      match r
      case Ok(o) => Ok(List([Object(o)]))
      case Throw(m) => Throw(m)
  {
    var built := map[];
    var i := 0;
    while i < |ps|
      invariant 0 <= i <= |ps|
      invariant Props(ps[i..], stack, built) == Props(ps, stack, map[])
    {
      assert ps[i..][0] == ps[i] && ps[i..][1..] == ps[i + 1..];
      var k := StoredKey(ps[i]);
      if k.Some? {
        var v := Possible(ps[i].value, stack);
        if v.Throw? {
          PossibleObject(NoLoc, ps, stack);
          return Throw(v.message);
        }
        built := built[k.value := v.value];
      }
      i := i + 1;
    }
    r := Ok(built);
    PossibleObject(NoLoc, ps, stack);
  }

  lemma PossibleObject(loc: Loc, ps: seq<Node>, stack: seq<Refs>)
    ensures Possible(ObjectExpr(loc, ps), stack) ==
      match Props(ps, stack, map[])
      case Ok(o) => Ok(List([Object(o)]))
      case Throw(m) => Throw(m)
  {
  }

  // ---------------------------------------------------------------------------
  // noMutation's setup

  /** A hoisted scope as a record: every declared name bound to a record with
      its position and no references yet. */
  function EmptyRefs(scope: Scopes.Scope): (r: Refs)
    ensures r.Keys == scope.Keys
    ensures forall name :: name in r ==> r[name] == Binding(Some(scope[name]), [])
  {
    map name | name in scope :: Binding(Some(scope[name]), [])
  }

  /** `hoistedRefs`: every registered stack of scopes as a stack of such records. */
  function HoistedRefs(scopes: map<int, seq<Scopes.Scope>>): (r: map<int, seq<Refs>>)
    ensures r.Keys == scopes.Keys
    ensures forall k :: k in r ==> (|r[k]| == |scopes[k]| &&
                                    forall i :: 0 <= i < |r[k]| ==> r[k][i] == EmptyRefs(scopes[k][i]))
  {
    map k | k in scopes :: seq(|scopes[k]|, i requires 0 <= i < |scopes[k]| => EmptyRefs(scopes[k][i]))
  }

  /** `Object.entries(schemaObj)`: an object's string-keyed properties, an
      array's or string's indices; `null` and `undefined` throw. */
  function SchemaEntries(schema: JsValue): Outcome<seq<Prop>>
  {
    match schema
    case Undefined => Throw(ToObjectErr)
    case Null => Throw(ToObjectErr)
    case Obj(props, _) => Ok(props)
    case Arr(elems) => Ok(seq(|elems|, i requires 0 <= i < |elems| => Prop(NatToString(i), elems[i])))
    case Str(s) => Ok(seq(|s|, i requires 0 <= i < |s| => Prop(NatToString(i), Str([s[i]]))))
    case _ => Ok([])
  }

  /** `globalRefs` after the `forEach` over the entries: each key bound to a
      record without position whose one reference is its value. */
  function Globals(entries: seq<Prop>): Refs
    decreases |entries|
  {
    if entries == [] then map[]
    else
      var n := |entries| - 1;
      Globals(entries[..n])[entries[n].key := Binding(None, [entries[n].value])]
  }

  method BuildGlobals(entries: seq<Prop>) returns (globalRefs: Refs)
    ensures globalRefs == Globals(entries)
  {
    globalRefs := map[];
    var i := 0;
    while i < |entries|
      invariant 0 <= i <= |entries|
      invariant globalRefs == Globals(entries[..i])
    {
      assert entries[..i + 1][..i] == entries[..i];
      globalRefs := globalRefs[entries[i].key := Binding(None, [entries[i].value])];
      i := i + 1;
    }
    assert entries[..i] == entries;
  }

  // ---------------------------------------------------------------------------
  // the traversal

  /** `BlockStatement.enter`: the block's own hoisted record goes in front;
      a block without a position, or without a hoisted stack, fails an assertion. */
  function Enter(hoisted: map<int, seq<Refs>>, stack: seq<Refs>, block: Node): Outcome<seq<Refs>>
    requires block.Block?
  {
    match block.loc
    case NoLoc => Throw(AssertionErr)
    case Loc(start, _) =>
      if start in hoisted && |hoisted[start]| > 0 then Ok([hoisted[start][0]] + stack)
      else Throw(AssertionErr)
  }

  /** `BlockStatement.leave`: `currentRefs.slice(1)`. */
  function Leave(stack: seq<Refs>): seq<Refs>
  {
    if stack == [] then [] else stack[1..]
  }

  /** The `VariableDeclaration` visitor's `forEach`: every initialiser present
      is resolved on the current stack and its result dropped; the first
      resolution that throws ends it. */
  function Initialisers(ds: seq<Node>, stack: seq<Refs>): Outcome<()>
  {
    if ds == [] then Ok(())
    else if ds[0].Declarator? && ds[0].init.Some? && Possible(ds[0].init.value, stack).Throw? then
      Throw(Possible(ds[0].init.value, stack).message)
    else Initialisers(ds[1..], stack)
  }

  /** The walk from `n`. A variable declaration without a position fails an
      assertion, and otherwise resolves its initialisers before its children
      are walked. A walk that returns leaves the stack as it found it. */
  function Walk(hoisted: map<int, seq<Refs>>, stack: seq<Refs>, n: Node): (r: Outcome<seq<Refs>>)
    ensures r.Ok? ==> r.value == stack
    decreases Size(n), 0
  {
    ChildrenSmaller(n);
    if n.Block? then
      match Enter(hoisted, stack, n)
      case Throw(m) => Throw(m)
      case Ok(inner) =>
        match WalkAll(hoisted, inner, n.statements)
        case Throw(m) => Throw(m)
        case Ok(s) => Ok(Leave(s))
    else if n.VarDecl? && n.loc.NoLoc? then Throw(AssertionErr)
    else if n.VarDecl? && Initialisers(n.declarations, stack).Throw? then
      Throw(Initialisers(n.declarations, stack).message)
    else WalkAll(hoisted, stack, Children(n))
  }

  function WalkAll(hoisted: map<int, seq<Refs>>, stack: seq<Refs>, ns: seq<Node>): (r: Outcome<seq<Refs>>)
    ensures r.Ok? ==> r.value == stack
    decreases SizeSeq(ns), 1
  {
    if ns == [] then Ok(stack)
    else
      SizeSeqSplit(ns);
      match Walk(hoisted, stack, ns[0])
      case Throw(m) => Throw(m)
      case Ok(s) => WalkAll(hoisted, s, ns[1..])
  }

  /** `noMutation(program, schemaObj)`: the hoisted scopes, the global bindings,
      then the walk starting from the program-level record and the globals. */
  function Analyse(program: Node, schema: JsValue): Outcome<()>
  {
    match Scopes.ConstructScopes(program)
    case Throw(m) => Throw(m)
    case Ok(scopes) =>
      match SchemaEntries(schema)
      case Throw(m) => Throw(m)
      case Ok(entries) =>
        Scopes.ConstructScopesRegisters(program);
        var current := [EmptyRefs(scopes[Scopes.ProgramKey][0]), Globals(entries)];
        match Walk(HoistedRefs(scopes), current, program)
        case Throw(m) => Throw(m)
        case Ok(_) => Ok(())
  }

  // ---------------------------------------------------------------------------
  // the analysis as it runs

  class Analysis {
    const hoistedRefs: map<int, seq<Refs>>
    var currentRefs: seq<Refs>

    constructor(hoisted: map<int, seq<Refs>>, current: seq<Refs>)
      ensures hoistedRefs == hoisted && currentRefs == current
    {
      hoistedRefs := hoisted;
      currentRefs := current;
    }

    method EnterBlock(block: Node) returns (r: Outcome<()>)
      requires block.Block?
      modifies this
      ensures var e := Enter(hoistedRefs, old(currentRefs), block);
        (e.Ok? ==> r.Ok? && currentRefs == e.value) && (e.Throw? ==> r == Throw(e.message))
    {
      if block.loc.NoLoc? {
        return Throw(AssertionErr);
      }
      var start := block.loc.start;
      if !(start in hoistedRefs && |hoistedRefs[start]| > 0) {
        return Throw(AssertionErr);
      }
      currentRefs := [hoistedRefs[start][0]] + currentRefs;
      r := Ok(());
    }

    method LeaveBlock()
      modifies this
      ensures currentRefs == Leave(old(currentRefs))
    {
      if |currentRefs| > 0 {
        currentRefs := currentRefs[1..];
      }
    }

    /** The `VariableDeclaration` visitor: the position assertion, then each
        initialiser resolved on the current stack. */
    method VariableDeclaration(n: Node) returns (r: Outcome<()>)
      requires n.VarDecl?
      ensures n.loc.NoLoc? ==> r == Throw(AssertionErr)
      ensures n.loc.Loc? ==> r == Initialisers(n.declarations, currentRefs)
    {
      if n.loc.NoLoc? {
        return Throw(AssertionErr);
      }
      var ds := n.declarations;
      var i := 0;
      while i < |ds|
        invariant 0 <= i <= |ds|
        invariant Initialisers(ds, currentRefs) == Initialisers(ds[i..], currentRefs)
      {
        assert ds[i..][0] == ds[i] && ds[i..][1..] == ds[i + 1..];
        var declaration := ds[i];
        if declaration.Declarator? && declaration.init.Some? {
          var possibleReferences := Possible(declaration.init.value, currentRefs);
          if possibleReferences.Throw? {
            return Throw(possibleReferences.message);
          }
        }
        i := i + 1;
      }
      r := Ok(());
    }

    method Traverse(n: Node) returns (r: Outcome<()>)
      modifies this
      ensures var w := Walk(hoistedRefs, old(currentRefs), n);
        (w.Ok? ==> r.Ok? && currentRefs == w.value) && (w.Throw? ==> r == Throw(w.message))
      decreases Size(n), 0
    {
      ChildrenSmaller(n);
      if n.Block? {
        r := EnterBlock(n);
        if r.Throw? {
          return;
        }
        r := TraverseAll(n.statements);
        if r.Throw? {
          return;
        }
        LeaveBlock();
        return;
      }
      if n.VarDecl? {
        r := VariableDeclaration(n);
        if r.Throw? {
          return;
        }
      }
      r := TraverseAll(Children(n));
    }

    method TraverseAll(ns: seq<Node>) returns (r: Outcome<()>)
      modifies this
      ensures var w := WalkAll(hoistedRefs, old(currentRefs), ns);
        (w.Ok? ==> r.Ok? && currentRefs == w.value) && (w.Throw? ==> r == Throw(w.message))
      decreases SizeSeq(ns), 1
    {
      var i := 0;
      while i < |ns|
        invariant 0 <= i <= |ns|
        invariant WalkAll(hoistedRefs, old(currentRefs), ns) == WalkAll(hoistedRefs, currentRefs, ns[i..])
      {
        assert ns[i..][0] == ns[i] && ns[i..][1..] == ns[i + 1..];
        SizeSeqMember(ns, ns[i]);
        r := Traverse(ns[i]);
        if r.Throw? {
          return;
        }
        i := i + 1;
      }
      r := Ok(());
    }
  }

  method Run(program: Node, schema: JsValue) returns (r: Outcome<()>)
    ensures r == Analyse(program, schema)
  {
    var hoistedScopes := Scopes.Construct(program);
    if hoistedScopes.Throw? {
      return Throw(hoistedScopes.message);
    }
    var scopes := hoistedScopes.value;
    var entries := SchemaEntries(schema);
    if entries.Throw? {
      return Throw(entries.message);
    }
    var globalRefs := BuildGlobals(entries.value);
    Scopes.ConstructScopesRegisters(program);
    var currentHoistedRefs := EmptyRefs(scopes[Scopes.ProgramKey][0]);
    AnalyseWalks(program, schema);
    var analysis := new Analysis(HoistedRefs(scopes), [currentHoistedRefs, globalRefs]);
    r := analysis.Traverse(program);
    assert r.Ok? ==> r.value == ();
  }

  /** Once both passes before it succeed, `Analyse` is the walk from the
      program scope's record above the globals. */
  lemma AnalyseWalks(program: Node, schema: JsValue)
    requires Scopes.ConstructScopes(program).Ok? && SchemaEntries(schema).Ok?
    ensures var scopes := Scopes.ConstructScopes(program).value;
      Scopes.ProgramKey in scopes && |scopes[Scopes.ProgramKey]| > 0 &&
      var current := [EmptyRefs(scopes[Scopes.ProgramKey][0]), Globals(SchemaEntries(schema).value)];
      var w := Walk(HoistedRefs(scopes), current, program);
      Analyse(program, schema) == if w.Ok? then Ok(()) else Throw(w.message)
  {
    Scopes.ConstructScopesRegisters(program);
  }

  // ---------------------------------------------------------------------------
  // properties of the resolver

  /** An identifier gives, as it is, what the first record that has it holds
      under it: a binding record, or an `Object.prototype` member when the
      record has no own key of that name; nothing when no record has it. */
  lemma IdentifierRule(loc: Loc, name: string, stack: seq<Refs>)
    ensures (forall i :: 0 <= i < |stack| ==> !Has(stack[i], name)) ==>
      Possible(Identifier(loc, name), stack) == Ok(List([]))
    ensures forall i :: 0 <= i < |stack| && Has(stack[i], name) && (forall j :: 0 <= j < i ==> !Has(stack[j], name)) ==>
      Possible(Identifier(loc, name), stack) == Ok(Get(stack[i], name))
    ensures stack != [] && name in stack[0] ==> Possible(Identifier(loc, name), stack) == Ok(Bound(stack[0][name]))
    ensures stack != [] && name !in stack[0] && name in ObjectPrototypeMembers ==>
      Possible(Identifier(loc, name), stack) == Ok(Inherited(name))
  {
  }

  /** Literals, binary and all the other listed kinds give an empty array.
      Logical and conditional expressions spread both sides, left (consequent)
      first, and never look at the test: they return exactly when both sides
      give arrays, and a side that gives anything else is not iterable. */
  lemma OperatorRules(loc: Loc, lit: Lit, raw: string, a: Node, b: Node, c: Node, stack: seq<Refs>)
    ensures Possible(Literal(loc, lit, raw), stack) == Ok(List([]))
    ensures Possible(Binary(loc, a, b), stack) == Ok(List([]))
    ensures Possible(Member(loc, a, b, false), stack) == Ok(List([])) && Possible(Call(loc, a, [b]), stack) == Ok(List([]))
    ensures var pa, pb, r := Possible(a, stack), Possible(b, stack), Possible(Logical(loc, a, b), stack);
      (r.Ok? <==> pa.Ok? && pa.value.List? && pb.Ok? && pb.value.List?) &&
      (r.Ok? ==> r.value == List(pa.value.items + pb.value.items)) &&
      (pa.Ok? && !pa.value.List? ==> r == Throw(NotIterableErr))
    ensures var pb, pc, r := Possible(b, stack), Possible(c, stack), Possible(Conditional(loc, a, b, c), stack);
      (r.Ok? <==> pb.Ok? && pb.value.List? && pc.Ok? && pc.value.List?) &&
      (r.Ok? ==> r.value == List(pb.value.items + pc.value.items)) &&
      (pb.Ok? && !pb.value.List? ==> r == Throw(NotIterableErr))
  {
  }

  /** A name bound in some record resolves to a binding record or an
      inherited member, never to an array. */
  lemma BoundNameResolves(n: Node, stack: seq<Refs>)
    requires n.Identifier? && exists i :: 0 <= i < |stack| && n.name in stack[i]
    ensures Possible(n, stack).Ok? && !Possible(n, stack).value.List?
  {
    var i :| 0 <= i < |stack| && n.name in stack[i];
    assert Has(stack[i], n.name);
  }

  /** Such a name cannot be spread: `n || x` and `c ? n : x` throw that it is
      not iterable, and `[...n]` that it has no `filter`. */
  lemma BoundNameThrows(loc: Loc, n: Node, x: Node, c: Node, stack: seq<Refs>)
    requires n.Identifier? && exists i :: 0 <= i < |stack| && n.name in stack[i]
    ensures Possible(Logical(loc, n, x), stack) == Throw(NotIterableErr)
    ensures Possible(Conditional(loc, c, n, x), stack) == Throw(NotIterableErr)
    ensures Contribution(Spread(loc, n), stack) == Throw(NoFilterErr)
    ensures Possible(ArrayExpr(loc, [Some(Spread(loc, n))]), stack) == Throw(NoFilterErr)
  {
    BoundNameResolves(n, stack);
    var s := Spread(loc, n);
    SpreadContributionThrows(s, stack);
    assert Present([Some(s)]) == [s] by {
      assert [Some(s)][1..] == [];
    }
    PresentSize([Some(s)]);
  }

  lemma SpreadContributionThrows(s: Node, stack: seq<Refs>)
    requires s.Spread? && Possible(s.argument, stack).Ok? && !Possible(s.argument, stack).value.List?
    ensures Contribution(s, stack) == Throw(NoFilterErr)
    ensures Elements([s], stack) == Throw(NoFilterErr)
  {
  }

  /** A spread contributes exactly the items of the array-shaped values. */
  lemma {:induction false} ArrayMembersSpec(ps: seq<Ref>, x: Ref)
    ensures x in ArrayMembers(ps) <==> exists i :: 0 <= i < |ps| && ps[i].List? && x in ps[i].items
  {
    if ps != [] {
      ArrayMembersSpec(ps[1..], x);
      assert forall i :: 1 <= i < |ps| ==> ps[i] == ps[1..][i - 1];
      if exists i :: 0 <= i < |ps| && ps[i].List? && x in ps[i].items {
        var i :| 0 <= i < |ps| && ps[i].List? && x in ps[i].items;
        if i > 0 {
          assert ps[1..][i - 1] == ps[i];
        }
      }
    }
  }

  /** The `flatMap` returns exactly when every present element's callback
      does, and then holds, in order, what each contributes. */
  lemma {:induction false} ElementsMembers(es: seq<Node>, stack: seq<Refs>, x: Ref)
    ensures Elements(es, stack).Ok? <==> forall i :: 0 <= i < |es| ==> Contribution(es[i], stack).Ok?
    ensures Elements(es, stack).Ok? ==>
      (x in Elements(es, stack).value <==> exists i :: 0 <= i < |es| && x in Contribution(es[i], stack).value)
  {
    if es != [] {
      ElementsMembers(es[1..], stack, x);
      assert forall i :: 1 <= i < |es| ==> es[i] == es[1..][i - 1];
      if exists i :: 0 <= i < |es| && Contribution(es[i], stack).Ok? && x in Contribution(es[i], stack).value {
        var i :| 0 <= i < |es| && Contribution(es[i], stack).Ok? && x in Contribution(es[i], stack).value;
        if i > 0 {
          assert es[1..][i - 1] == es[i];
        }
      }
    }
  }

  /** An array literal gives an array holding one array, whose items are
      exactly what the present elements contribute; holes give nothing. It
      throws exactly when some element's contribution does. */
  lemma ArrayLiteralRule(loc: Loc, es: seq<Option<Node>>, stack: seq<Refs>, x: Ref)
    ensures var r := Possible(ArrayExpr(loc, es), stack);
      (r.Ok? <==> forall i :: 0 <= i < |Present(es)| ==> Contribution(Present(es)[i], stack).Ok?) &&
      (r.Ok? ==> (|r.value.items| == 1 && r.value.items[0].List? &&
                  (x in r.value.items[0].items <==>
                   exists i :: 0 <= i < |Present(es)| && x in Contribution(Present(es)[i], stack).value)))
  {
    PresentSize(es);
    ElementsMembers(Present(es), stack, x);
  }

  /** Each element's contribution: a spread gives the items of its operand's
      arrays or throws when the operand is not an array; any other element
      gives the items of an array it resolves to, and any other value itself. */
  lemma ContributionRule(e: Node, stack: seq<Refs>)
    ensures e.Spread? && Possible(e.argument, stack).Ok? ==>
      var v := Possible(e.argument, stack).value;
      Contribution(e, stack) == if v.List? then Ok(ArrayMembers(v.items)) else Throw(NoFilterErr)
    ensures !e.Spread? && Possible(e, stack).Ok? ==>
      var v := Possible(e, stack).value;
      Contribution(e, stack).Ok? && (v.List? ==> Contribution(e, stack).value == v.items) &&
      (!v.List? ==> Contribution(e, stack).value == [v])
  {
  }

  /** An object literal returns exactly when every property it stores resolves. */
  lemma {:induction false} PropsDefined(ps: seq<Node>, stack: seq<Refs>, acc: map<string, Ref>)
    ensures Props(ps, stack, acc).Ok? <==>
      forall i :: 0 <= i < |ps| && StoredKey(ps[i]).Some? ==> Possible(ps[i].value, stack).Ok?
    decreases |ps|
  {
    if ps != [] {
      assert forall i :: 1 <= i < |ps| ==> ps[i] == ps[1..][i - 1];
      match StoredKey(ps[0]) {
        case None => PropsDefined(ps[1..], stack, acc);
        case Some(k0) =>
          if Possible(ps[0].value, stack).Ok? {
            PropsDefined(ps[1..], stack, acc[k0 := Possible(ps[0].value, stack).value]);
          }
      }
    }
  }

  /** An object literal stores a key exactly when some property names it. */
  lemma {:induction false} PropsKeys(ps: seq<Node>, stack: seq<Refs>, acc: map<string, Ref>, k: string)
    ensures Props(ps, stack, acc).Ok? ==>
      (k in Props(ps, stack, acc).value <==> k in acc || exists i :: 0 <= i < |ps| && StoredKey(ps[i]) == Some(k))
    decreases |ps|
  {
    if ps != [] {
      assert forall i :: 1 <= i < |ps| ==> ps[i] == ps[1..][i - 1];
      match StoredKey(ps[0]) {
        case None => PropsKeys(ps[1..], stack, acc, k);
        case Some(k0) =>
          if Possible(ps[0].value, stack).Ok? {
            PropsKeys(ps[1..], stack, acc[k0 := Possible(ps[0].value, stack).value], k);
          }
      }
      if exists i :: 0 <= i < |ps| && StoredKey(ps[i]) == Some(k) {
        var i :| 0 <= i < |ps| && StoredKey(ps[i]) == Some(k);
        if i > 0 {
          assert ps[1..][i - 1] == ps[i];
        }
      }
    }
  }

  /** The last property that names a key decides what it holds. */
  lemma {:induction false} PropsLastWins(ps: seq<Node>, stack: seq<Refs>, acc: map<string, Ref>, i: nat)
    requires i < |ps| && StoredKey(ps[i]).Some?
    requires forall j :: i < j < |ps| ==> StoredKey(ps[j]) != StoredKey(ps[i])
    ensures Props(ps, stack, acc).Ok? ==>
      var k := StoredKey(ps[i]).value;
      k in Props(ps, stack, acc).value && Possible(ps[i].value, stack).Ok? &&
      Props(ps, stack, acc).value[k] == Possible(ps[i].value, stack).value
    decreases |ps|
  {
    var k := StoredKey(ps[i]).value;
    assert forall j :: 1 <= j < |ps| ==> ps[j] == ps[1..][j - 1];
    match StoredKey(ps[0]) {
      case None =>
        PropsLastWins(ps[1..], stack, acc, i - 1);
      case Some(k0) =>
        if Possible(ps[0].value, stack).Ok? {
          var acc' := acc[k0 := Possible(ps[0].value, stack).value];
          if i == 0 {
            PropsUntouched(ps[1..], stack, acc', k);
          } else {
            PropsLastWins(ps[1..], stack, acc', i - 1);
          }
        }
    }
  }

  /** A key no property names keeps what it had. */
  lemma {:induction false} PropsUntouched(ps: seq<Node>, stack: seq<Refs>, acc: map<string, Ref>, k: string)
    requires forall j :: 0 <= j < |ps| ==> StoredKey(ps[j]) != Some(k)
    ensures Props(ps, stack, acc).Ok? ==>
      (k in Props(ps, stack, acc).value <==> k in acc) &&
      (k in acc ==> Props(ps, stack, acc).value[k] == acc[k])
    decreases |ps|
  {
    if ps != [] {
      assert forall j :: 1 <= j < |ps| ==> ps[j] == ps[1..][j - 1];
      match StoredKey(ps[0]) {
        case None => PropsUntouched(ps[1..], stack, acc, k);
        case Some(k0) =>
          if Possible(ps[0].value, stack).Ok? {
            PropsUntouched(ps[1..], stack, acc[k0 := Possible(ps[0].value, stack).value], k);
          }
      }
    }
  }

  /** The only errors resolution raises are the two `TypeError`s. */
  lemma {:induction false} PossibleErrors(e: Node, stack: seq<Refs>)
    ensures Possible(e, stack).Throw? ==> Possible(e, stack).message in {NotIterableErr, NoFilterErr}
    decreases Size(e), 0
  {
    match e
    case Logical(_, l, r) =>
      PossibleErrors(l, stack);
      PossibleErrors(r, stack);
    case Conditional(_, _, c, a) =>
      PossibleErrors(c, stack);
      PossibleErrors(a, stack);
    case ArrayExpr(_, es) =>
      PresentSize(es);
      ElementsErrors(Present(es), stack);
    case ObjectExpr(_, ps) =>
      PropsErrors(ps, stack, map[]);
    case _ =>
  }

  lemma {:induction false} ContributionErrors(e: Node, stack: seq<Refs>)
    ensures Contribution(e, stack).Throw? ==> Contribution(e, stack).message in {NotIterableErr, NoFilterErr}
    decreases Size(e), 1
  {
    if e.Spread? {
      SizeIsChildren(e);
      SizeSeqOne(e.argument);
      PossibleErrors(e.argument, stack);
    } else {
      PossibleErrors(e, stack);
    }
  }

  lemma {:induction false} ElementsErrors(es: seq<Node>, stack: seq<Refs>)
    ensures Elements(es, stack).Throw? ==> Elements(es, stack).message in {NotIterableErr, NoFilterErr}
    decreases SizeSeq(es), 2
  {
    if es != [] {
      SizeSeqSplit(es);
      ContributionErrors(es[0], stack);
      ElementsErrors(es[1..], stack);
    }
  }

  lemma {:induction false} PropsErrors(ps: seq<Node>, stack: seq<Refs>, acc: map<string, Ref>)
    ensures Props(ps, stack, acc).Throw? ==> Props(ps, stack, acc).message in {NotIterableErr, NoFilterErr}
    decreases SizeSeq(ps), 2
  {
    if ps != [] {
      SizeSeqSplit(ps);
      match StoredKey(ps[0]) {
        case None => PropsErrors(ps[1..], stack, acc);
        case Some(k) =>
          PossibleErrors(ps[0].value, stack);
          if Possible(ps[0].value, stack).Ok? {
            PropsErrors(ps[1..], stack, acc[k := Possible(ps[0].value, stack).value]);
          }
      }
    }
  }

  // ---------------------------------------------------------------------------
  // expressions that cannot throw

  /** No logical or conditional expression, and no spread element of an array
      literal, is reached by resolution: nothing is ever spread or filtered. */
  predicate Spreadless(e: Node)
    decreases Size(e), 0
  {
    match e
    case Logical(_, _, _) => false
    case Conditional(_, _, _, _) => false
    case ArrayExpr(_, es) => PresentSize(es); SpreadlessElements(Present(es))
    case ObjectExpr(_, ps) => SpreadlessProps(ps)
    case _ => true
  }

  predicate SpreadlessElements(es: seq<Node>)
    decreases SizeSeq(es), 2
  {
    es == [] || (SizeSeqSplit(es); !es[0].Spread? && Spreadless(es[0]) && SpreadlessElements(es[1..]))
  }

  predicate SpreadlessProps(ps: seq<Node>)
    decreases SizeSeq(ps), 2
  {
    ps == [] || (SizeSeqSplit(ps); (StoredKey(ps[0]).Some? ==> Spreadless(ps[0].value)) && SpreadlessProps(ps[1..]))
  }

  /** Such an expression resolves on every stack. */
  lemma {:induction false} SpreadlessResolves(e: Node, stack: seq<Refs>)
    requires Spreadless(e)
    ensures Possible(e, stack).Ok?
    decreases Size(e), 0
  {
    match e
    case ArrayExpr(_, es) =>
      PresentSize(es);
      SpreadlessElementsResolve(Present(es), stack);
    case ObjectExpr(_, ps) =>
      SpreadlessPropsResolve(ps, stack, map[]);
    case _ =>
  }

  lemma {:induction false} SpreadlessElementsResolve(es: seq<Node>, stack: seq<Refs>)
    requires SpreadlessElements(es)
    ensures Elements(es, stack).Ok?
    decreases SizeSeq(es), 2
  {
    if es != [] {
      SizeSeqSplit(es);
      SpreadlessResolves(es[0], stack);
      SpreadlessElementsResolve(es[1..], stack);
    }
  }

  lemma {:induction false} SpreadlessPropsResolve(ps: seq<Node>, stack: seq<Refs>, acc: map<string, Ref>)
    requires SpreadlessProps(ps)
    ensures Props(ps, stack, acc).Ok?
    decreases SizeSeq(ps), 2
  {
    if ps != [] {
      SizeSeqSplit(ps);
      match StoredKey(ps[0]) {
        case None => SpreadlessPropsResolve(ps[1..], stack, acc);
        case Some(k) =>
          SpreadlessResolves(ps[0].value, stack);
          SpreadlessPropsResolve(ps[1..], stack, acc[k := Possible(ps[0].value, stack).value]);
      }
    }
  }

  // ---------------------------------------------------------------------------
  // properties of the setup and the walk

  /** Every schema key is a global binding, whose record has no position and
      holds the one value of the last entry with that key. */
  lemma {:induction false} GlobalsBinding(entries: seq<Prop>, k: string)
    ensures k in Globals(entries) <==> exists i :: 0 <= i < |entries| && entries[i].key == k
    ensures forall i :: (0 <= i < |entries| && entries[i].key == k &&
                         (forall j :: i < j < |entries| ==> entries[j].key != k)) ==>
      Globals(entries)[k] == Binding(None, [entries[i].value])
    decreases |entries|
  {
    if entries != [] {
      var n := |entries| - 1;
      var prefix := entries[..n];
      assert forall i :: 0 <= i < n ==> prefix[i] == entries[i];
      GlobalsBinding(prefix, k);
    }
  }

  /** Inside a block its own hoisted record is in front: the names it has
      hide the outer bindings, every other name resolves as outside. */
  lemma EnterShadows(hoisted: map<int, seq<Refs>>, stack: seq<Refs>, block: Node, name: string)
    requires block.Block?
    ensures Enter(hoisted, stack, block).Ok? <==>
      block.loc.Loc? && block.loc.start in hoisted && |hoisted[block.loc.start]| > 0
    ensures Enter(hoisted, stack, block).Ok? ==>
      var front := hoisted[block.loc.start][0];
      Lookup(Enter(hoisted, stack, block).value, name) ==
        if Has(front, name) then Some(Get(front, name)) else Lookup(stack, name)
  {
    if Enter(hoisted, stack, block).Ok? {
      assert Enter(hoisted, stack, block).value[1..] == stack;
    }
  }

  /** The walk fails only by an assertion or by a resolution's `TypeError`. */
  lemma {:induction false} WalkErrors(hoisted: map<int, seq<Refs>>, stack: seq<Refs>, n: Node)
    ensures Walk(hoisted, stack, n).Throw? ==>
      Walk(hoisted, stack, n).message in {AssertionErr, NotIterableErr, NoFilterErr}
    decreases Size(n), 0
  {
    ChildrenSmaller(n);
    if n.Block? {
      if Enter(hoisted, stack, n).Ok? {
        WalkAllErrors(hoisted, Enter(hoisted, stack, n).value, n.statements);
      }
    } else if n.VarDecl? && n.loc.Loc? {
      InitialisersErrors(n.declarations, stack);
      WalkAllErrors(hoisted, stack, Children(n));
    } else if !n.VarDecl? {
      WalkAllErrors(hoisted, stack, Children(n));
    }
  }

  lemma {:induction false} WalkAllErrors(hoisted: map<int, seq<Refs>>, stack: seq<Refs>, ns: seq<Node>)
    ensures WalkAll(hoisted, stack, ns).Throw? ==>
      WalkAll(hoisted, stack, ns).message in {AssertionErr, NotIterableErr, NoFilterErr}
    decreases SizeSeq(ns), 1
  {
    if ns != [] {
      SizeSeqSplit(ns);
      WalkErrors(hoisted, stack, ns[0]);
      WalkAllErrors(hoisted, stack, ns[1..]);
    }
  }

  lemma {:induction false} InitialisersErrors(ds: seq<Node>, stack: seq<Refs>)
    ensures Initialisers(ds, stack).Throw? ==> Initialisers(ds, stack).message in {NotIterableErr, NoFilterErr}
    decreases |ds|
  {
    if ds != [] {
      if ds[0].Declarator? && ds[0].init.Some? {
        PossibleErrors(ds[0].init.value, stack);
      }
      InitialisersErrors(ds[1..], stack);
    }
  }

  /** Every block and variable declaration in the tree has a position, and
      every variable initialiser is spread-free. */
  predicate Safe(n: Node)
    decreases Size(n), 0
  {
    ChildrenSmaller(n);
    ((n.Block? || n.VarDecl?) ==> n.loc.Loc?) &&
    (n.VarDecl? ==> SafeInitialisers(n.declarations)) &&
    SafeAll(Children(n))
  }

  predicate SafeAll(ns: seq<Node>)
    decreases SizeSeq(ns), 1
  {
    ns == [] || (SizeSeqSplit(ns); Safe(ns[0]) && SafeAll(ns[1..]))
  }

  predicate SafeInitialisers(ds: seq<Node>)
  {
    forall i :: 0 <= i < |ds| && ds[i].Declarator? && ds[i].init.Some? ==> Spreadless(ds[i].init.value)
  }

  /** Spread-free initialisers resolve on every stack. */
  lemma {:induction false} SafeInitialisersResolve(ds: seq<Node>, stack: seq<Refs>)
    requires SafeInitialisers(ds)
    ensures Initialisers(ds, stack).Ok?
  {
    if ds != [] {
      if ds[0].Declarator? && ds[0].init.Some? {
        SpreadlessResolves(ds[0].init.value, stack);
      }
      assert forall i :: 1 <= i < |ds| ==> ds[1..][i - 1] == ds[i];
      SafeInitialisersResolve(ds[1..], stack);
    }
  }

  /** The walk runs to the end wherever every block has a hoisted stack, every
      block and declaration a position, and every initialiser is spread-free. */
  lemma {:induction false} WalkSucceeds(hoisted: map<int, seq<Refs>>, stack: seq<Refs>, n: Node)
    requires Safe(n) && Scopes.BlockStarts(n) <= hoisted.Keys
    requires forall k :: k in hoisted ==> |hoisted[k]| > 0
    ensures Walk(hoisted, stack, n).Ok?
    decreases Size(n), 0
  {
    ChildrenSmaller(n);
    if n.Block? {
      WalkAllSucceeds(hoisted, [hoisted[n.loc.start][0]] + stack, n.statements);
    } else {
      if n.VarDecl? {
        SafeInitialisersResolve(n.declarations, stack);
      }
      WalkAllSucceeds(hoisted, stack, Children(n));
    }
  }

  lemma {:induction false} WalkAllSucceeds(hoisted: map<int, seq<Refs>>, stack: seq<Refs>, ns: seq<Node>)
    requires SafeAll(ns) && Scopes.BlockStartsAll(ns) <= hoisted.Keys
    requires forall k :: k in hoisted ==> |hoisted[k]| > 0
    ensures WalkAll(hoisted, stack, ns).Ok?
    decreases SizeSeq(ns), 1
  {
    if ns != [] {
      SizeSeqSplit(ns);
      WalkSucceeds(hoisted, stack, ns[0]);
      WalkAllSucceeds(hoisted, stack, ns[1..]);
    }
  }

  /** The analysis runs to the end whenever the hoisted-scope pass succeeds,
      the schema is neither `null` nor `undefined`, every block and variable
      declaration has a position and no initialiser spreads: the block-entry
      assertion cannot fail, because the pre-pass registered every block. */
  lemma AnalyseSucceeds(program: Node, schema: JsValue)
    requires Scopes.ConstructScopes(program).Ok? && !schema.Undefined? && !schema.Null?
    requires Safe(program)
    ensures Analyse(program, schema) == Ok(())
  {
    var scopes := Scopes.ConstructScopes(program).value;
    Scopes.ConstructScopesRegisters(program);
    assert SchemaEntries(schema).Ok?;
    AnalyseWalks(program, schema);
    var current := [EmptyRefs(scopes[Scopes.ProgramKey][0]), Globals(SchemaEntries(schema).value)];
    var hoisted := HoistedRefs(scopes);
    assert forall k :: k in hoisted ==> |hoisted[k]| > 0;
    WalkSucceeds(hoisted, current, program);
  }

  // ---------------------------------------------------------------------------
  // examples

  /** `[n]` with `n` bound: an array holding an array that holds `n`'s binding
      record itself. */
  lemma ArrayExample(b: Binding)
    ensures Possible(ArrayExpr(Loc(0, 3), [Some(Identifier(Loc(1, 2), "n"))]), [map["n" := b]]) ==
      Ok(List([List([Bound(b)])]))
  {
    var n := Identifier(Loc(1, 2), "n");
    var stack := [map["n" := b]];
    assert Present([Some(n)]) == [n] by {
      assert [Some(n)][1..] == [];
    }
    assert Has(stack[0], "n");
    assert Possible(n, stack) == Ok(Bound(b));
    assert Contribution(n, stack) == Ok([Bound(b)]);
    assert [n][1..] == [];
    assert Elements([n][1..], stack) == Ok([]);
    assert [Bound(b)] + [] == [Bound(b)];
    assert Elements([n], stack) == Ok([Bound(b)]);
    PresentSize([Some(n)]);
  }

  lemma ObjectExampleSteps(b: Binding, pa: Node, pb: Node)
    requires pa == Property(NoLoc, Identifier(NoLoc, "a"), Identifier(NoLoc, "n"), false)
    requires pb == Property(NoLoc, Literal(NoLoc, LStr("b"), "'b'"), Literal(NoLoc, LNum(1), "1"), false)
    ensures Props([pa, pb], [map["n" := b]], map[]) == Ok(map["a" := Bound(b), "'b'" := List([])])
  {
    var stack := [map["n" := b]];
    assert StoredKey(pa) == Some("a");
    assert StoredKey(pb) == Some("'b'");
    assert Has(stack[0], "n");
    assert Possible(pa.value, stack) == Ok(Bound(b));
    assert Possible(pb.value, stack) == Ok(List([]));
    var one := map["a" := Bound(b)];
    assert [pa, pb][1..] == [pb];
    assert Props([pa, pb], stack, map[]) == Props([pb], stack, one);
    assert Props([pb], stack, one) == Props([], stack, one["'b'" := List([])]);
  }

  /** `({a: n, 'b': 1})`: the identifier key by name, the literal key by its raw
      text, quotes included; `a` holds `n`'s binding record itself. */
  lemma ObjectExample(b: Binding)
    ensures
      var pa := Property(NoLoc, Identifier(NoLoc, "a"), Identifier(NoLoc, "n"), false);
      var pb := Property(NoLoc, Literal(NoLoc, LStr("b"), "'b'"), Literal(NoLoc, LNum(1), "1"), false);
      Possible(ObjectExpr(NoLoc, [pa, pb]), [map["n" := b]]) == Ok(List([Object(map["a" := Bound(b), "'b'" := List([])])]))
  {
    var stack := [map["n" := b]];
    var pa := Property(NoLoc, Identifier(NoLoc, "a"), Identifier(NoLoc, "n"), false);
    var pb := Property(NoLoc, Literal(NoLoc, LStr("b"), "'b'"), Literal(NoLoc, LNum(1), "1"), false);
    ObjectExampleSteps(b, pa, pb);
    PossibleObject(NoLoc, [pa, pb], stack);
  }

  /** `toString` names no variable, yet every record has it: it resolves to
      `Object.prototype.toString`, not to nothing. */
  lemma InheritedExample(stack: seq<Refs>)
    requires stack != [] && "toString" !in stack[0]
    ensures Possible(Identifier(NoLoc, "toString"), stack) == Ok(Inherited("toString"))
  {
  }

  /** `var x = state || 1;` with the schema `{state: 1}`: `state` resolves to
      its global binding record, which the logical expression cannot spread,
      so the declaration visitor throws. */
  lemma ShortCircuitThrows(hoisted: map<int, seq<Refs>>)
    ensures
      var init := Logical(Loc(8, 18), Identifier(Loc(8, 13), "state"), Literal(Loc(17, 18), LNum(1), "1"));
      var decl := VarDecl(Loc(0, 19), Var, [Declarator(Loc(4, 18), Identifier(Loc(4, 5), "x"), Some(init))]);
      var stack := [EmptyRefs(map["x" := Scopes.Pos(4, 5)]), Globals([Prop("state", Num(1))])];
      Walk(hoisted, stack, decl) == Throw(NotIterableErr)
  {
    var state := Identifier(Loc(8, 13), "state");
    var init := Logical(Loc(8, 18), state, Literal(Loc(17, 18), LNum(1), "1"));
    var d := Declarator(Loc(4, 18), Identifier(Loc(4, 5), "x"), Some(init));
    var stack := [EmptyRefs(map["x" := Scopes.Pos(4, 5)]), Globals([Prop("state", Num(1))])];
    var globals := Globals([Prop("state", Num(1))]);
    assert [Prop("state", Num(1))][..0] == [];
    assert globals == map["state" := Binding(None, [Num(1)])];
    assert !Has(stack[0], "state") && Has(stack[1], "state");
    assert Lookup(stack, "state") == Some(Bound(Binding(None, [Num(1)])));
    assert Possible(init, stack) == Throw(NotIterableErr);
    assert Initialisers([d], stack) == Throw(NotIterableErr);
  }
}
