/** `getPossibleBindings` (bindings.ts): the names a destructuring pattern binds
    and the possibilities each one gets from the initialiser's possibilities. */
module Bindings {
  import opened Common
  import opened Syntax
  import opened Values
  import opened Resolver

  const RestBindingErr := "Unknown rest format, expected Identifier"
  const AssignBindingErr := "Unknown assignment format, expected Identifier"
  const UnknownPatternErr := "Unknown destructuring pattern"

  /** Names to possibility lists; a later binding of a name replaces an earlier one. */
  type Bindings = map<string, seq<Value>>

  /** The bindings a pattern produced, or the error it raised, and the state after it. */
  datatype BindStep = BindStep(result: Outcome<Bindings>, state: State)

  /** `getPossibleBindings({...state, node: pattern}, init)`. An array pattern
      reads index 0 of the initialiser once and gives it to every element; an
      object pattern reads each property's key when it reaches it. */
  function Bind(host: Host, pattern: Node, init: seq<Value>, st: State): BindStep
    decreases Size(pattern), 1
  {
    match pattern
    case Identifier(_, name) => BindStep(Ok(map[name := init]), st)
    case ArrayPattern(_, elems) =>
      PresentSize(elems);
      BindElements(host, Present(elems), GetKey(st.heap, init, Name("0")), st, map[])
    case ObjectPattern(_, props) => BindProperties(host, props, init, st, map[])
    case Member(_, _, _, _) => BindStep(Throw(UnknownPatternErr), st)
    case AssignmentPattern(_, _, _) => BindStep(Throw(UnknownPatternErr), st)
    case _ => BindStep(Ok(map[]), st)
  }

  /** The `ArrayPattern` case of `Bind`, unfolded. */
  lemma BindArrayPattern(host: Host, loc: Loc, elems: seq<Option<Node>>, init: seq<Value>, st: State)
    ensures Bind(host, ArrayPattern(loc, elems), init, st) ==
      BindElements(host, Present(elems), GetKey(st.heap, init, Name("0")), st, map[])
  {
  }

  /** The present elements of an array pattern from `es` on, given the
      possibilities `pv` of index 0, added to `acc`. */
  function BindElements(host: Host, es: seq<Node>, pv: seq<Value>, st: State, acc: Bindings): BindStep
    decreases SizeSeq(es), 3
  {
    if es == [] then BindStep(Ok(acc), st)
    else
      SizeSeqSplit(es);
      var b := BindElement(host, es[0], pv, st, acc);
      if b.result.Throw? then b else BindElements(host, es[1..], pv, b.state, b.result.value)
  }

  /** One element of an array pattern: `[...r]` binds `r` to a new array of
      `pv`, `[a = d]` binds `a` to `pv` and the default's possibilities, any
      other element is a pattern bound against `pv`. */
  function BindElement(host: Host, e: Node, pv: seq<Value>, st: State, acc: Bindings): BindStep
    decreases Size(e), 2
  {
    match e
    case RestElement(_, arg) =>
      if !arg.Identifier? then BindStep(Throw(RestBindingErr), st)
      else
        var (st', v) := Alloc(st, ArrCell(pv));
        BindStep(Ok(acc[arg.name := [v]]), st')
    case AssignmentPattern(_, left, right) =>
      if !left.Identifier? then BindStep(Throw(AssignBindingErr), st)
      else
        var s := ResolveNode(host, right, st);
        if s.result.Throw? then BindStep(Throw(s.result.message), s.state)
        else BindStep(Ok(acc[left.name := pv + s.result.value]), s.state)
    case _ =>
      var b := Bind(host, e, pv, st);
      if b.result.Throw? then b else BindStep(Ok(acc + b.result.value), b.state)
  }

  /** The properties of an object pattern from `ps` on, against `init`, added to `acc`. */
  function BindProperties(host: Host, ps: seq<Node>, init: seq<Value>, st: State, acc: Bindings): BindStep
    decreases SizeSeq(ps), 0
  {
    if ps == [] then BindStep(Ok(acc), st)
    else
      SizeSeqSplit(ps);
      match ps[0]
      case RestElement(_, arg) =>
        var possValues := GetKey(st.heap, init, AnyString);
        if !arg.Identifier? then BindStep(Throw(RestBindingErr), st)
        else
          var (st', v) := Alloc(st, RecCell([Field(AnyString, possValues)]));
          BindProperties(host, ps[1..], init, st', acc[arg.name := [v]])
      case Property(_, key, value, computed) =>
        if !key.Identifier? then BindStep(Throw(AssignBindingErr), st)
        else if value.RestElement? then BindStep(Throw(RestBindingErr), st)
        else
          var keyName := if computed then AnyString else Name(key.name);
          var b := Bind(host, value, GetKey(st.heap, init, keyName), st);
          if b.result.Throw? then b
          else BindProperties(host, ps[1..], init, b.state, acc + b.result.value)
      case _ => BindStep(Throw(NotAProperty), st)
  }

  /** The pattern walk with its two `forEach` loops, each adding to the local
      `bindings` record. */
  method GetPossibleBindings(host: Host, pattern: Node, init: seq<Value>, st: State) returns (r: BindStep)
    ensures r == Bind(host, pattern, init, st)
    decreases Size(pattern), 1
  {
    if pattern.ArrayPattern? {
      r := ArrayPatternBindings(host, pattern, init, st);
    } else if pattern.ObjectPattern? {
      r := ObjectPatternBindings(host, pattern, init, st);
    } else {
      r := Bind(host, pattern, init, st);
    }
  }

  /** The `ArrayPattern` case: index 0 is read once, then the `forEach` over
      the present elements. */
  method ArrayPatternBindings(host: Host, pattern: Node, init: seq<Value>, st: State) returns (r: BindStep)
    requires pattern.ArrayPattern?
    ensures r == Bind(host, pattern, init, st)
    decreases Size(pattern), 0
  {
    var possValues := GetKey(st.heap, init, Name("0"));
    var es := Present(pattern.elements);
    SizeIsChildrenElements(pattern);
    BindArrayPattern(host, pattern.loc, pattern.elements, init, st);
    assert es[0..] == es;
    var bindings: Bindings := map[];
    var s := st;
    var i := 0;
    while i < |es|
      invariant 0 <= i <= |es|
      invariant BindElements(host, es[i..], possValues, s, bindings) == Bind(host, pattern, init, st)
    {
      assert es[i..][0] == es[i] && es[i..][1..] == es[i + 1..];
      SizeSeqMember(es, es[i]);
      var b := ElementBindings(host, es[i], possValues, s, bindings);
      if b.result.Throw? {
        return b;
      }
      bindings := b.result.value;
      s := b.state;
      i := i + 1;
    }
    r := BindStep(Ok(bindings), s);
  }

  /** The `forEach` callback of the array case, adding to `bindings`. */
  method ElementBindings(host: Host, elem: Node, possValues: seq<Value>, st: State, bindings: Bindings) returns (r: BindStep)
    ensures r == BindElement(host, elem, possValues, st, bindings)
    decreases Size(elem), 2
  {
    if elem.RestElement? {
      if !elem.argument.Identifier? {
        return BindStep(Throw(RestBindingErr), st);
      }
      var created := Alloc(st, ArrCell(possValues));
      r := BindStep(Ok(bindings[elem.argument.name := [created.1]]), created.0);
    } else if elem.AssignmentPattern? {
      if !elem.left.Identifier? {
        return BindStep(Throw(AssignBindingErr), st);
      }
      var defaultValue := ResolveNode(host, elem.right, st);
      if defaultValue.result.Throw? {
        return BindStep(Throw(defaultValue.result.message), defaultValue.state);
      }
      r := BindStep(Ok(bindings[elem.left.name := possValues + defaultValue.result.value]), defaultValue.state);
    } else {
      var sub := GetPossibleBindings(host, elem, possValues, st);
      if sub.result.Throw? {
        return sub;
      }
      r := BindStep(Ok(bindings + sub.result.value), sub.state);
    }
  }

  /** The `ObjectPattern` case: one step per property, each reading its own key. */
  method ObjectPatternBindings(host: Host, pattern: Node, init: seq<Value>, st: State) returns (r: BindStep)
    requires pattern.ObjectPattern?
    ensures r == Bind(host, pattern, init, st)
    decreases Size(pattern), 0
  {
    var props := pattern.properties;
    var bindings: Bindings := map[];
    var s := st;
    var i := 0;
    while i < |props|
      invariant 0 <= i <= |props|
      invariant BindProperties(host, props[i..], init, s, bindings) == Bind(host, pattern, init, st)
    {
      assert props[i..][0] == props[i] && props[i..][1..] == props[i + 1..];
      var prop := props[i];
      if prop.RestElement? {
        var possValues := GetKey(s.heap, init, AnyString);
        if !prop.argument.Identifier? {
          return BindStep(Throw(RestBindingErr), s);
        }
        var created := Alloc(s, RecCell([Field(AnyString, possValues)]));
        bindings := bindings[prop.argument.name := [created.1]];
        s := created.0;
      } else if prop.Property? {
        if !prop.key.Identifier? {
          return BindStep(Throw(AssignBindingErr), s);
        }
        if prop.value.RestElement? {
          return BindStep(Throw(RestBindingErr), s);
        }
        var keyName := if prop.computed then AnyString else Name(prop.key.name);
        SizeSeqMember(props, prop);
        var sub := GetPossibleBindings(host, prop.value, GetKey(s.heap, init, keyName), s);
        if sub.result.Throw? {
          return sub;
        }
        bindings := bindings + sub.result.value;
        s := sub.state;
      } else {
        return BindStep(Throw(NotAProperty), s);
      }
      i := i + 1;
    }
    r := BindStep(Ok(bindings), s);
  }

  // ---------------------------------------------------------------------------
  // properties

  /** An identifier binds its name to the initialiser's possibilities themselves. */
  lemma IdentifierBinds(host: Host, loc: Loc, name: string, init: seq<Value>, st: State)
    ensures Bind(host, Identifier(loc, name), init, st) == BindStep(Ok(map[name := init]), st)
  {
  }

  /** A member expression or a defaulted pattern where a pattern is expected is
      not a destructuring the binder knows. */
  lemma UnknownPatternThrows(host: Host, pattern: Node, init: seq<Value>, st: State)
    requires pattern.Member? || pattern.AssignmentPattern?
    ensures Bind(host, pattern, init, st) == BindStep(Throw(UnknownPatternErr), st)
  {
  }

  /** The names of the identifiers in a list of nodes. */
  function NamesOf(es: seq<Node>): set<string>
  {
    if es == [] then {} else (if es[0].Identifier? then {es[0].name} else {}) + NamesOf(es[1..])
  }

  /** An array pattern of identifiers and holes binds exactly the names present,
      each to the union of every element's possibilities (`getKey(0)`); holes
      bind nothing and the state is untouched. */
  lemma PlainArrayPattern(host: Host, loc: Loc, elems: seq<Option<Node>>, init: seq<Value>, st: State)
    requires forall i :: 0 <= i < |elems| && elems[i].Some? ==> elems[i].value.Identifier?
    ensures var r := Bind(host, ArrayPattern(loc, elems), init, st);
      r.state == st && r.result.Ok? && r.result.value.Keys == NamesOf(Present(elems)) &&
      forall name :: name in r.result.value ==> r.result.value[name] == GetKey(st.heap, init, Name("0"))
  {
    BindArrayPattern(host, loc, elems, init, st);
    PresentIdentifiers(elems);
    PlainElements(host, Present(elems), GetKey(st.heap, init, Name("0")), st, map[]);
  }

  /** Dropping the holes of a pattern of identifiers leaves identifiers. */
  lemma PresentIdentifiers(elems: seq<Option<Node>>)
    requires forall i :: 0 <= i < |elems| && elems[i].Some? ==> elems[i].value.Identifier?
    ensures forall i :: 0 <= i < |Present(elems)| ==> Present(elems)[i].Identifier?
  {
    var es := Present(elems);
    forall i | 0 <= i < |es| ensures es[i].Identifier? {
      assert Some(es[i]) in elems;
    }
  }

  lemma {:induction false} PlainElements(host: Host, es: seq<Node>, pv: seq<Value>, st: State, acc: Bindings)
    requires forall i :: 0 <= i < |es| ==> es[i].Identifier?
    ensures var r := BindElements(host, es, pv, st, acc);
      r.state == st && r.result.Ok? && r.result.value.Keys == acc.Keys + NamesOf(es) &&
      forall name :: name in r.result.value ==>
        r.result.value[name] == if name in NamesOf(es) then pv else acc[name]
    decreases |es|
  {
    if es != [] {
      SizeSeqSplit(es);
      var acc' := acc + map[es[0].name := pv];
      assert Bind(host, es[0], pv, st) == BindStep(Ok(map[es[0].name := pv]), st);
      PlainElements(host, es[1..], pv, st, acc');
    }
  }

  /** `[a = d]` binds `a` to every element's possibilities followed by the
      default's; `[...r]` binds `r` to one new array of every element's
      possibilities; a rest or default target that is not an identifier throws. */
  lemma ElementRules(host: Host, elem: Node, pv: seq<Value>, st: State)
    ensures elem.AssignmentPattern? && elem.left.Identifier? && ResolveNode(host, elem.right, st).result.Ok? ==>
      var s := ResolveNode(host, elem.right, st);
      BindElements(host, [elem], pv, st, map[]) ==
        BindStep(Ok(map[elem.left.name := pv + s.result.value]), s.state)
    ensures elem.AssignmentPattern? && !elem.left.Identifier? ==>
      BindElements(host, [elem], pv, st, map[]) == BindStep(Throw(AssignBindingErr), st)
    ensures elem.RestElement? && elem.argument.Identifier? ==>
      BindElements(host, [elem], pv, st, map[]) ==
        BindStep(Ok(map[elem.argument.name := [Ref(|st.heap|)]]), st.(heap := st.heap + [ArrCell(pv)]))
    ensures elem.RestElement? && !elem.argument.Identifier? ==>
      BindElements(host, [elem], pv, st, map[]) == BindStep(Throw(RestBindingErr), st)
  {
    assert [elem][1..] == [];
  }

  /** `{k: p}` binds `p` against `getKey(k)` (any string when computed); `{...r}`
      binds `r` to one new record whose `ANY_STRING` holds `getKey(ANY_STRING)`;
      a key that is not an identifier, or a rest as a property's value, throws. */
  lemma PropertyRules(host: Host, prop: Node, init: seq<Value>, st: State)
    ensures prop.Property? && prop.key.Identifier? && !prop.value.RestElement? &&
            Bind(host, prop.value, GetKey(st.heap, init, if prop.computed then AnyString else Name(prop.key.name)), st).result.Ok? ==>
      BindProperties(host, [prop], init, st, map[]) ==
        Bind(host, prop.value, GetKey(st.heap, init, if prop.computed then AnyString else Name(prop.key.name)), st)
    ensures prop.Property? && !prop.key.Identifier? ==>
      BindProperties(host, [prop], init, st, map[]) == BindStep(Throw(AssignBindingErr), st)
    ensures prop.Property? && prop.key.Identifier? && prop.value.RestElement? ==>
      BindProperties(host, [prop], init, st, map[]) == BindStep(Throw(RestBindingErr), st)
    ensures prop.RestElement? && prop.argument.Identifier? ==>
      BindProperties(host, [prop], init, st, map[]) ==
        BindStep(Ok(map[prop.argument.name := [Ref(|st.heap|)]]),
                 st.(heap := st.heap + [RecCell([Field(AnyString, GetKey(st.heap, init, AnyString))])]))
  {
    assert [prop][1..] == [];
    if prop.Property? && prop.key.Identifier? && !prop.value.RestElement? {
      var b := Bind(host, prop.value, GetKey(st.heap, init, if prop.computed then AnyString else Name(prop.key.name)), st);
      if b.result.Ok? {
        assert map[] + b.result.value == b.result.value;
      }
    }
  }

  /** Binding keeps what every analyser step keeps, provided the collaborators do. */
  lemma {:induction false} BindPreserves(host: Host, pattern: Node, init: seq<Value>, st: State)
    requires HostPreserves(host)
    ensures Preserves(st, Bind(host, pattern, init, st).state)
    decreases Size(pattern), 1
  {
    if pattern.ArrayPattern? {
      SizeIsChildrenElements(pattern);
      BindArrayPattern(host, pattern.loc, pattern.elements, init, st);
      ElementsPreserve(host, Present(pattern.elements), GetKey(st.heap, init, Name("0")), st, map[]);
    } else if pattern.ObjectPattern? {
      SizeObjectPattern(pattern.loc, pattern.properties);
      BindObjectPattern(host, pattern.loc, pattern.properties, init, st);
      PropertiesPreserve(host, pattern.properties, init, st, map[]);
    } else {
      BindOtherState(host, pattern, init, st);
    }
  }

  /** Every pattern but an array or object one leaves the state as it was. */
  lemma BindOtherState(host: Host, pattern: Node, init: seq<Value>, st: State)
    requires !pattern.ArrayPattern? && !pattern.ObjectPattern?
    ensures Bind(host, pattern, init, st).state == st
  {
  }

  lemma {:induction false} ElementsPreserve(host: Host, es: seq<Node>, pv: seq<Value>, st: State, acc: Bindings)
    requires HostPreserves(host)
    ensures Preserves(st, BindElements(host, es, pv, st, acc).state)
    decreases SizeSeq(es), 3
  {
    if es != [] {
      SizeSeqSplit(es);
      ElementPreserves(host, es[0], pv, st, acc);
      var b := BindElement(host, es[0], pv, st, acc);
      if b.result.Ok? {
        ElementsPreserve(host, es[1..], pv, b.state, b.result.value);
        PreservesTrans(st, b.state, BindElements(host, es[1..], pv, b.state, b.result.value).state);
      }
    }
  }

  lemma {:induction false} ElementPreserves(host: Host, e: Node, pv: seq<Value>, st: State, acc: Bindings)
    requires HostPreserves(host)
    ensures Preserves(st, BindElement(host, e, pv, st, acc).state)
    decreases Size(e), 2
  {
    if e.RestElement? {
      ElementRestState(host, e.loc, e.argument, pv, st, acc);
    } else if e.AssignmentPattern? {
      ElementDefaultState(host, e.loc, e.left, e.right, pv, st, acc);
      if e.left.Identifier? {
        ResolvePreserves(host, e.right, st);
      }
    } else {
      ElementOtherState(host, e, pv, st, acc);
      BindPreserves(host, e, pv, st);
    }
  }

  /** The state after a rest element: one new array when it binds. */
  lemma ElementRestState(host: Host, loc: Loc, arg: Node, pv: seq<Value>, st: State, acc: Bindings)
    ensures BindElement(host, RestElement(loc, arg), pv, st, acc).state ==
      if arg.Identifier? then st.(heap := st.heap + [ArrCell(pv)]) else st
  {
  }

  /** The state after a defaulted element: the default's, when it is evaluated. */
  lemma ElementDefaultState(host: Host, loc: Loc, left: Node, right: Node, pv: seq<Value>, st: State, acc: Bindings)
    ensures BindElement(host, AssignmentPattern(loc, left, right), pv, st, acc).state ==
      if left.Identifier? then ResolveNode(host, right, st).state else st
  {
  }

  /** The state after any other element: the nested pattern's. */
  lemma ElementOtherState(host: Host, e: Node, pv: seq<Value>, st: State, acc: Bindings)
    requires !e.RestElement? && !e.AssignmentPattern?
    ensures BindElement(host, e, pv, st, acc).state == Bind(host, e, pv, st).state
  {
  }

  lemma {:induction false} PropertiesPreserve(host: Host, ps: seq<Node>, init: seq<Value>, st: State, acc: Bindings)
    requires HostPreserves(host)
    ensures Preserves(st, BindProperties(host, ps, init, st, acc).state)
    decreases SizeSeq(ps), 0
  {
    if ps != [] {
      SizeSeqSplit(ps);
      var p := ps[0];
      if p.RestElement? && p.argument.Identifier? {
        var st' := st.(heap := st.heap + [RecCell([Field(AnyString, GetKey(st.heap, init, AnyString))])]);
        var acc' := acc[p.argument.name := [Ref(|st.heap|)]];
        PropertiesRestStep(host, ps, init, st, acc);
        PropertiesPreserve(host, ps[1..], init, st', acc');
        PreservesTrans(st, st', BindProperties(host, ps[1..], init, st', acc').state);
      } else if p.Property? && p.key.Identifier? && !p.value.RestElement? {
        var keyName := if p.computed then AnyString else Name(p.key.name);
        PropertyKeyStep(host, ps, init, st, acc);
        BindPreserves(host, p.value, GetKey(st.heap, init, keyName), st);
        var b := Bind(host, p.value, GetKey(st.heap, init, keyName), st);
        if b.result.Ok? {
          PropertiesPreserve(host, ps[1..], init, b.state, acc + b.result.value);
          PreservesTrans(st, b.state, BindProperties(host, ps[1..], init, b.state, acc + b.result.value).state);
        }
      } else {
        PropertiesHeadStops(host, ps, init, st, acc);
      }
    }
  }

  /** A rest property with an identifier target allocates its record and goes on. */
  lemma PropertiesRestStep(host: Host, ps: seq<Node>, init: seq<Value>, st: State, acc: Bindings)
    requires ps != [] && ps[0].RestElement? && ps[0].argument.Identifier?
    ensures BindProperties(host, ps, init, st, acc) ==
      BindProperties(host, ps[1..], init, st.(heap := st.heap + [RecCell([Field(AnyString, GetKey(st.heap, init, AnyString))])]),
                     acc[ps[0].argument.name := [Ref(|st.heap|)]])
  {
  }

  /** A property with an identifier key binds its value pattern, then goes on
      unless that throws. */
  lemma PropertyKeyStep(host: Host, ps: seq<Node>, init: seq<Value>, st: State, acc: Bindings)
    requires ps != [] && ps[0].Property? && ps[0].key.Identifier? && !ps[0].value.RestElement?
    ensures var b := Bind(host, ps[0].value, GetKey(st.heap, init, if ps[0].computed then AnyString else Name(ps[0].key.name)), st);
      BindProperties(host, ps, init, st, acc) ==
        if b.result.Throw? then b else BindProperties(host, ps[1..], init, b.state, acc + b.result.value)
  {
  }

  /** Any other head of the property list throws without touching the state. */
  lemma PropertiesHeadStops(host: Host, ps: seq<Node>, init: seq<Value>, st: State, acc: Bindings)
    requires ps != []
    requires !(ps[0].RestElement? && ps[0].argument.Identifier?)
    requires !(ps[0].Property? && ps[0].key.Identifier? && !ps[0].value.RestElement?)
    ensures BindProperties(host, ps, init, st, acc).state == st
  {
  }

  // ---------------------------------------------------------------------------
  // the documented behaviour on small programs

  /** A map with exactly two keys is the display of those two entries. */
  lemma TwoEntries(m: Bindings, a: string, b: string, va: seq<Value>, vb: seq<Value>)
    requires m.Keys == {a, b} && a in m && b in m && m[a] == va && m[b] == vb
    ensures m == map[a := va, b := vb]
  {
  }

  /** One step of the array-pattern walk when the first element binds. */
  lemma ElementsStep(host: Host, es: seq<Node>, pv: seq<Value>, st: State, acc: Bindings)
    requires es != [] && BindElement(host, es[0], pv, st, acc).result.Ok?
    ensures var b := BindElement(host, es[0], pv, st, acc);
      BindElements(host, es, pv, st, acc) == BindElements(host, es[1..], pv, b.state, b.result.value)
  {
  }

  /** `const [a, b] = [1, 2]`: both names get `1` and `2`. */
  lemma ArrayDestructureExample(host: Host)
    ensures var st := State([ArrCell([Num(1), Num(2)])], [], [], map[], map[]);
      Bind(host, ArrayPattern(NoLoc, [Some(Id("a")), Some(Id("b"))]), [Ref(0)], st) ==
        BindStep(Ok(map["a" := [Num(1), Num(2)], "b" := [Num(1), Num(2)]]), st)
  {
    var st := State([ArrCell([Num(1), Num(2)])], [], [], map[], map[]);
    var elems := [Some(Id("a")), Some(Id("b"))];
    ArrayExampleNames(elems);
    GetKeyArrayExample();
    PlainArrayPattern(host, NoLoc, elems, [Ref(0)], st);
    var r := Bind(host, ArrayPattern(NoLoc, elems), [Ref(0)], st);
    TwoEntries(r.result.value, "a", "b", [Num(1), Num(2)], [Num(1), Num(2)]);
  }

  /** The pattern `[a, b]` has two identifier elements named `a` and `b`. */
  lemma ArrayExampleNames(elems: seq<Option<Node>>)
    requires elems == [Some(Id("a")), Some(Id("b"))]
    ensures forall i :: 0 <= i < |elems| && elems[i].Some? ==> elems[i].value.Identifier?
    ensures NamesOf(Present(elems)) == {"a", "b"}
  {
    assert Present(elems) == [Id("a"), Id("b")] by {
      assert elems[1..] == [Some(Id("b"))] && elems[1..][1..] == [];
    }
    assert [Id("a"), Id("b")][1..] == [Id("b")] && [Id("b")][1..] == [];
  }

  /** `const [a = 5, b] = [1, 2]`: `a` gets `1`, `2` and `5`, `b` gets `1` and `2`
      (for any state whose `[1, 2]` array sits at `Ref(0)`). */
  lemma ArrayDefaultExample(host: Host, st: State)
    requires GetKey(st.heap, [Ref(0)], Name("0")) == [Num(1), Num(2)]
    ensures var five := Literal(NoLoc, LNum(5), "5");
      Bind(host, ArrayPattern(NoLoc, [Some(AssignmentPattern(NoLoc, Id("a"), five)), Some(Id("b"))]), [Ref(0)], st) ==
        BindStep(Ok(map["a" := [Num(1), Num(2), Num(5)], "b" := [Num(1), Num(2)]]), st)
  {
    var five := Literal(NoLoc, LNum(5), "5");
    var es := [AssignmentPattern(NoLoc, Id("a"), five), Id("b")];
    var elems := [Some(es[0]), Some(es[1])];
    assert Present(elems) == es by {
      assert elems[1..] == [Some(es[1])] && elems[1..][1..] == [];
    }
    DefaultElements(host, st);
  }

  /** The element walk of the defaulted example. */
  lemma DefaultElements(host: Host, st: State)
    ensures var pv := [Num(1), Num(2)];
      BindElements(host, [AssignmentPattern(NoLoc, Id("a"), Literal(NoLoc, LNum(5), "5")), Id("b")], pv, st, map[]) ==
        BindStep(Ok(map["a" := [Num(1), Num(2), Num(5)], "b" := pv]), st)
  {
    var five := Literal(NoLoc, LNum(5), "5");
    var es := [AssignmentPattern(NoLoc, Id("a"), five), Id("b")];
    var pv := [Num(1), Num(2)];
    var acc := map[]["a" := pv + [Num(5)]];
    assert ResolveNode(host, five, st) == Step(Ok([Num(5)]), st);
    DefaultElementRule(host, NoLoc, "a", five, pv, st, map[]);
    ElementsStep(host, es, pv, st, map[]);
    assert es[1..] == [Id("b")] && es[1..][1..] == [];
    IdentifierElementRule(host, NoLoc, "b", pv, st, acc);
    ElementsStep(host, es[1..], pv, st, acc);
    var m := acc + map["b" := pv];
    assert BindElements(host, es[1..][1..], pv, st, m) == BindStep(Ok(m), st);
    assert pv + [Num(5)] == [Num(1), Num(2), Num(5)];
    TwoEntries(m, "a", "b", [Num(1), Num(2), Num(5)], pv);
  }

  /** An identifier element adds its name bound to the element possibilities. */
  lemma IdentifierElementRule(host: Host, loc: Loc, name: string, pv: seq<Value>, st: State, acc: Bindings)
    ensures BindElement(host, Identifier(loc, name), pv, st, acc) == BindStep(Ok(acc + map[name := pv]), st)
  {
  }

  /** A defaulted identifier element adds its name bound to the element
      possibilities followed by the default's. */
  lemma DefaultElementRule(host: Host, loc: Loc, name: string, right: Node, pv: seq<Value>, st: State, acc: Bindings)
    requires ResolveNode(host, right, st).result.Ok?
    ensures var s := ResolveNode(host, right, st);
      BindElement(host, AssignmentPattern(loc, Identifier(loc, name), right), pv, st, acc) ==
        BindStep(Ok(acc[name := pv + s.result.value]), s.state)
  {
  }

  /** One step of the object-pattern walk over a plain property that binds. */
  lemma PropertiesStep(host: Host, ps: seq<Node>, init: seq<Value>, st: State, acc: Bindings)
    requires ps != [] && ps[0].Property? && ps[0].key.Identifier? && !ps[0].value.RestElement? && !ps[0].computed
    requires Bind(host, ps[0].value, GetKey(st.heap, init, Name(ps[0].key.name)), st).result.Ok?
    ensures var b := Bind(host, ps[0].value, GetKey(st.heap, init, Name(ps[0].key.name)), st);
      BindProperties(host, ps, init, st, acc) == BindProperties(host, ps[1..], init, b.state, acc + b.result.value)
  {
  }

  /** The `ObjectPattern` case of `Bind`, unfolded. */
  lemma BindObjectPattern(host: Host, loc: Loc, props: seq<Node>, init: seq<Value>, st: State)
    ensures Bind(host, ObjectPattern(loc, props), init, st) == BindProperties(host, props, init, st, map[])
  {
  }

  /** A plain `{k: v}` property binds `v` to the possibilities of key `k`. */
  lemma PlainPropertyStep(host: Host, ps: seq<Node>, k: string, v: string, val: seq<Value>, init: seq<Value>, st: State, acc: Bindings)
    requires ps != [] && ps[0] == Property(NoLoc, Id(k), Id(v), false)
    requires GetKey(st.heap, init, Name(k)) == val
    ensures BindProperties(host, ps, init, st, acc) == BindProperties(host, ps[1..], init, st, acc + map[v := val])
  {
    IdentifierBinds(host, NoLoc, v, val, st);
    PropertiesStep(host, ps, init, st, acc);
  }

  /** `const {a: a1, b: b1} = {a: 'a', b: 'b'}`: `a1` gets `'a'` and `b1` gets `'b'`
      (for any state whose `{a: 'a', b: 'b'}` record sits at `Ref(0)`). */
  lemma ObjectDestructureExample(host: Host, st: State)
    requires GetKey(st.heap, [Ref(0)], Name("a")) == [Str("a")]
    requires GetKey(st.heap, [Ref(0)], Name("b")) == [Str("b")]
    ensures var ps := [Property(NoLoc, Id("a"), Id("a1"), false), Property(NoLoc, Id("b"), Id("b1"), false)];
      Bind(host, ObjectPattern(NoLoc, ps), [Ref(0)], st) ==
        BindStep(Ok(map["a1" := [Str("a")], "b1" := [Str("b")]]), st)
  {
    var ps := [Property(NoLoc, Id("a"), Id("a1"), false), Property(NoLoc, Id("b"), Id("b1"), false)];
    BindObjectPattern(host, NoLoc, ps, [Ref(0)], st);
    ObjectExampleWalk(host, ps, st);
  }

  /** The property walk of the object example. */
  lemma ObjectExampleWalk(host: Host, ps: seq<Node>, st: State)
    requires ps == [Property(NoLoc, Id("a"), Id("a1"), false), Property(NoLoc, Id("b"), Id("b1"), false)]
    requires GetKey(st.heap, [Ref(0)], Name("a")) == [Str("a")]
    requires GetKey(st.heap, [Ref(0)], Name("b")) == [Str("b")]
    ensures BindProperties(host, ps, [Ref(0)], st, map[]) ==
      BindStep(Ok(map["a1" := [Str("a")], "b1" := [Str("b")]]), st)
  {
    var acc := map[] + map["a1" := [Str("a")]];
    PlainPropertyStep(host, ps, "a", "a1", [Str("a")], [Ref(0)], st, map[]);
    LastPlainProperty(host, ps[1..], "b", "b1", [Str("b")], [Ref(0)], st, acc);
    MapAddOne(map[], "a1", [Str("a")]);
    MapAddOne(acc, "b1", [Str("b")]);
  }

  /** Adding a one-entry map is updating that key. */
  lemma MapAddOne(m: Bindings, k: string, v: seq<Value>)
    ensures m + map[k := v] == m[k := v]
  {
  }

  /** A last plain `{k: v}` property ends the walk with `v` bound. */
  lemma LastPlainProperty(host: Host, ps: seq<Node>, k: string, v: string, val: seq<Value>, init: seq<Value>, st: State, acc: Bindings)
    requires ps == [Property(NoLoc, Id(k), Id(v), false)]
    requires GetKey(st.heap, init, Name(k)) == val
    ensures BindProperties(host, ps, init, st, acc) == BindStep(Ok(acc + map[v := val]), st)
  {
    PlainPropertyStep(host, ps, k, v, val, init, st, acc);
    assert ps[1..] == [];
  }

  /** The record `{a: 'a', b: 'b'}` at `Ref(0)` meets the object example's requirement. */
  lemma ObjectDestructureHeap()
    ensures var heap := [RecCell([Field(Name("a"), [Str("a")]), Field(Name("b"), [Str("b")])])];
      GetKey(heap, [Ref(0)], Name("a")) == [Str("a")] && GetKey(heap, [Ref(0)], Name("b")) == [Str("b")]
  {
    var heap := [RecCell([Field(Name("a"), [Str("a")]), Field(Name("b"), [Str("b")])])];
    GetKeyRule(heap, Ref(0), Name("a"));
    GetKeyRule(heap, Ref(0), Name("b"));
  }
}
