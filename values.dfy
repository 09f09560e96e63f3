/** The abstract values of the current analyser: possibility lists over a heap
    of synthesized arrays and records, the two closed tables of built-in
    methods, property reads (`getKey`) and weak property writes (`setKey`). */
module Values {
  import opened Common
  import opened Syntax

  /** The Array.prototype methods the array table handles. */
  datatype ArrayMethod =
    | CopyWithin | Every | Fill | Filter | Find | FindIndex | FindLast | FindLastIndex
    | FlatMap | ForEach | MapMethod | Pop | Push | Reduce | ReduceRight | Reverse
    | Shift | SomeMethod | Sort | Splice | Unshift

  function ArrayMethodName(m: ArrayMethod): string
  {
    match m
    case CopyWithin => "copyWithin"  case Every => "every"  case Fill => "fill"
    case Filter => "filter"  case Find => "find"  case FindIndex => "findIndex"
    case FindLast => "findLast"  case FindLastIndex => "findLastIndex"
    case FlatMap => "flatMap"  case ForEach => "forEach"  case MapMethod => "map"
    case Pop => "pop"  case Push => "push"  case Reduce => "reduce"
    case ReduceRight => "reduceRight"  case Reverse => "reverse"  case Shift => "shift"
    case SomeMethod => "some"  case Sort => "sort"  case Splice => "splice"  case Unshift => "unshift"
  }

  const AllArrayMethods: seq<ArrayMethod> :=
    [CopyWithin, Every, Fill, Filter, Find, FindIndex, FindLast, FindLastIndex,
     FlatMap, ForEach, MapMethod, Pop, Push, Reduce, ReduceRight, Reverse,
     Shift, SomeMethod, Sort, Splice, Unshift]

  /** The static Object methods the object table handles. */
  datatype ObjectMethod =
    | Assign | Create | DefineProperties | DefineProperty | Entries | Freeze
    | FromEntries | GetOwnPropertyDescriptor | GetOwnPropertyDescriptors
    | GetOwnPropertyNames | GetOwnPropertySymbols | GetPrototypeOf | GroupBy
    | HasOwn | Is | IsExtensible | IsFrozen | IsSealed | Keys
    | PreventExtensions | Seal | SetPrototypeOf | ValuesMethod

  function ObjectMethodName(m: ObjectMethod): string
  {
    match m
    case Assign => "assign"  case Create => "create"
    case DefineProperties => "defineProperties"  case DefineProperty => "defineProperty"
    case Entries => "entries"  case Freeze => "freeze"  case FromEntries => "fromEntries"
    case GetOwnPropertyDescriptor => "getOwnPropertyDescriptor"
    case GetOwnPropertyDescriptors => "getOwnPropertyDescriptors"
    case GetOwnPropertyNames => "getOwnPropertyNames"
    case GetOwnPropertySymbols => "getOwnPropertySymbols"
    case GetPrototypeOf => "getPrototypeOf"  case GroupBy => "groupBy"  case HasOwn => "hasOwn"
    case Is => "is"  case IsExtensible => "isExtensible"  case IsFrozen => "isFrozen"
    case IsSealed => "isSealed"  case Keys => "keys"  case PreventExtensions => "preventExtensions"
    case Seal => "seal"  case SetPrototypeOf => "setPrototypeOf"  case ValuesMethod => "values"
  }

  const AllObjectMethods: seq<ObjectMethod> :=
    [Assign, Create, DefineProperties, DefineProperty, Entries, Freeze,
     FromEntries, GetOwnPropertyDescriptor, GetOwnPropertyDescriptors,
     GetOwnPropertyNames, GetOwnPropertySymbols, GetPrototypeOf, GroupBy,
     HasOwn, Is, IsExtensible, IsFrozen, IsSealed, Keys,
     PreventExtensions, Seal, SetPrototypeOf, ValuesMethod]

  /** Host objects the analyser refers to by identity: the `Object` and `Array`
      constructors and the methods of the two tables. */
  datatype Intrinsic = ObjectCtor | ArrayCtor | ArrayProto(am: ArrayMethod) | ObjectStatic(om: ObjectMethod)

  /** One possible value. `AnyStr` is the `ANY_STRING` symbol; `Ref` points at a
      synthesized array or record; `Fn` is a function node (the analyser stores
      the node itself); `Builtin` is a host object of the tables. */
  datatype Value =
    | Undefined | Null | Bool(b: bool) | Num(n: int) | Str(s: string) | AnyStr
    | Ref(addr: nat) | Fn(node: Node) | Builtin(intrinsic: Intrinsic)

  /** A record property and the possibilities of its Reference. */
  datatype Field = Field(key: Key, values: seq<Value>)

  /** A synthesized array holds the possibilities of its elements; a record its
      properties in insertion order (`AnyString` for the `ANY_STRING` symbol). */
  datatype Cell = ArrCell(elems: seq<Value>) | RecCell(fields: seq<Field>)

  type Heap = seq<Cell>

  /** `x instanceof Object`: synthesized objects, function nodes and host functions. */
  predicate IsObjectLike(v: Value)
  {
    v.Ref? || v.Fn? || v.Builtin?
  }

  /** The cell a value points at; an address outside the heap reads as an empty record. */
  function CellOf(heap: Heap, v: Value): Cell
  {
    if v.Ref? && v.addr < |heap| then heap[v.addr] else RecCell([])
  }

  /** `Array.isArray`. */
  predicate IsArray(heap: Heap, v: Value)
  {
    v.Ref? && v.addr < |heap| && heap[v.addr].ArrCell?
  }

  function LookupField(fields: seq<Field>, key: Key): (r: Option<seq<Value>>)
    ensures r.Some? ==> exists i :: 0 <= i < |fields| && fields[i] == Field(key, r.value)
    ensures r.None? ==> forall i :: 0 <= i < |fields| ==> fields[i].key != key
  {
    if fields == [] then None
    else if fields[0].key == key then Some(fields[0].values)
    else
      var r := LookupField(fields[1..], key);
      assert forall i :: 0 < i < |fields| ==> fields[i] == fields[1..][i - 1];
      r
  }

  /** `object[key] = reference`: replaces the property in place, or appends it. */
  function PutField(fields: seq<Field>, key: Key, values: seq<Value>): (r: seq<Field>)
    ensures LookupField(r, key) == Some(values)
    ensures forall k :: k != key ==> LookupField(r, k) == LookupField(fields, k)
  {
    if fields == [] then [Field(key, values)]
    else if fields[0].key == key then [Field(key, values)] + fields[1..]
    else [fields[0]] + PutField(fields[1..], key, values)
  }

  function ArrayMethodNamed(name: string): Option<ArrayMethod>
  {
    FindArrayMethod(AllArrayMethods, name)
  }

  function FindArrayMethod(ms: seq<ArrayMethod>, name: string): (r: Option<ArrayMethod>)
    ensures r.Some? ==> r.value in ms && ArrayMethodName(r.value) == name
    ensures r.None? ==> forall m :: m in ms ==> ArrayMethodName(m) != name
  {
    if ms == [] then None
    else if ArrayMethodName(ms[0]) == name then Option.Some(ms[0])
    else FindArrayMethod(ms[1..], name)
  }

  function ObjectMethodNamed(name: string): Option<ObjectMethod>
  {
    FindObjectMethod(AllObjectMethods, name)
  }

  function FindObjectMethod(ms: seq<ObjectMethod>, name: string): (r: Option<ObjectMethod>)
    ensures r.Some? ==> r.value in ms && ObjectMethodName(r.value) == name
    ensures r.None? ==> forall m :: m in ms ==> ObjectMethodName(m) != name
  {
    if ms == [] then None
    else if ObjectMethodName(ms[0]) == name then Option.Some(ms[0])
    else FindObjectMethod(ms[1..], name)
  }

  /** `poss[key]` for one object-like possibility, as a possibility list (a
      Reference stored in a record reads as its possibilities). */
  function Read(heap: Heap, v: Value, key: Key): seq<Value>
  {
    if IsArray(heap, v) then
      var elems := heap[v.addr].elems;
      match key
      case Name(k) =>
        if k == "length" then [Num(|elems|)]
        else (match ArrayMethodNamed(k)
              case Some(m) => [Builtin(ArrayProto(m))]
              case None => [Undefined])
      case AnyString => [Undefined]
    else if v.Ref? then
      match LookupField(CellOf(heap, v).fields, key)
      case Some(vs) => vs
      case None => [Undefined]
    else if v == Builtin(ObjectCtor) && key.Name? then
      match ObjectMethodNamed(key.name)
      case Some(m) => [Builtin(ObjectStatic(m))]
      case None => [Undefined]
    else [Undefined]
  }

  /** `ANY_STRING in poss`. */
  predicate HasAnyString(heap: Heap, v: Value)
  {
    v.Ref? && !IsArray(heap, v) && LookupField(CellOf(heap, v).fields, AnyString).Some?
  }

  /** `getAllProperties(poss).map(p => poss[p])`: the values of every string-named
      property: an array's elements, `length` and table methods; a record's named
      fields; the `Object` constructor's table methods. */
  function AllPropertyValues(heap: Heap, v: Value): seq<Value>
  {
    if IsArray(heap, v) then
      var elems := heap[v.addr].elems;
      elems + [Num(|elems|)] + ArrayMethodValues(AllArrayMethods)
    else if v.Ref? then NamedFieldValues(CellOf(heap, v).fields)
    else if v == Builtin(ObjectCtor) then ObjectMethodValues(AllObjectMethods)
    else []
  }

  function ArrayMethodValues(ms: seq<ArrayMethod>): (r: seq<Value>)
    ensures |r| == |ms| && forall i :: 0 <= i < |ms| ==> r[i] == Builtin(ArrayProto(ms[i]))
  {
    seq(|ms|, i requires 0 <= i < |ms| => Builtin(ArrayProto(ms[i])))
  }

  function ObjectMethodValues(ms: seq<ObjectMethod>): (r: seq<Value>)
    ensures |r| == |ms| && forall i :: 0 <= i < |ms| ==> r[i] == Builtin(ObjectStatic(ms[i]))
  {
    seq(|ms|, i requires 0 <= i < |ms| => Builtin(ObjectStatic(ms[i])))
  }

  function NamedFieldValues(fields: seq<Field>): seq<Value>
  {
    if fields == [] then []
    else (if fields[0].key.Name? then fields[0].values else []) + NamedFieldValues(fields[1..])
  }

  /** What one possibility contributes to `getKey(key)`. */
  function KeyOf(heap: Heap, v: Value, key: Key): seq<Value>
  {
    if !IsObjectLike(v) then []
    else if IsArray(heap, v) && key.Name? && IsInteger(key.name) then heap[v.addr].elems
    else if key == AnyString then AllPropertyValues(heap, v)
    else Read(heap, v, key) + (if HasAnyString(heap, v) then Read(heap, v, AnyString) else [])
  }

  /** `reference.getKey(key)`: the union over the possibilities, in order. */
  function GetKey(heap: Heap, ps: seq<Value>, key: Key): seq<Value>
  {
    if ps == [] then [] else KeyOf(heap, ps[0], key) + GetKey(heap, ps[1..], key)
  }

  lemma {:induction false} GetKeyAppend(heap: Heap, ps: seq<Value>, qs: seq<Value>, key: Key)
    ensures GetKey(heap, ps + qs, key) == GetKey(heap, ps, key) + GetKey(heap, qs, key)
  {
    if ps == [] {
      assert ps + qs == qs;
    } else {
      assert (ps + qs)[0] == ps[0];
      assert (ps + qs)[1..] == ps[1..] + qs;
      GetKeyAppend(heap, ps[1..], qs, key);
    }
  }

  lemma GetKeyOne(heap: Heap, v: Value, key: Key)
    ensures GetKey(heap, [v], key) == KeyOf(heap, v, key)
  {
    assert [v][1..] == [];
  }

  /** The three branches of the rule: an integer key on an array gives every
      element; `ANY_STRING` gives every named property's value; any other key
      gives the property, plus the record's `ANY_STRING` property when it has
      one. Primitives give nothing. */
  lemma GetKeyRule(heap: Heap, v: Value, key: Key)
    ensures !IsObjectLike(v) ==> GetKey(heap, [v], key) == []
    ensures IsArray(heap, v) && key.Name? && IsInteger(key.name) ==>
              GetKey(heap, [v], key) == heap[v.addr].elems
    ensures IsObjectLike(v) && key == AnyString ==> GetKey(heap, [v], key) == AllPropertyValues(heap, v)
    ensures v.Ref? && !IsArray(heap, v) && key.Name? ==>
              GetKey(heap, [v], key) ==
                (match LookupField(CellOf(heap, v).fields, key)
                 case Some(vs) => vs
                 case None => [Undefined]) +
                (match LookupField(CellOf(heap, v).fields, AnyString)
                 case Some(ws) => ws
                 case None => [])
  {
    GetKeyOne(heap, v, key);
  }

  /** `const [a, b] = [1, 2]`: index 0 of a one-array Reference is every element. */
  lemma GetKeyArrayExample()
    ensures GetKey([ArrCell([Num(1), Num(2)])], [Ref(0)], Name("0")) == [Num(1), Num(2)]
  {
    GetKeyOne([ArrCell([Num(1), Num(2)])], Ref(0), Name("0"));
    assert IsInteger("0") by { assert IsDigit("0"[0]); }
  }

  /** `({['k' + 'e' + 'y']: a})`: any key reads the missing property as
      `undefined` plus the `ANY_STRING` property. */
  lemma GetKeyComputedExample(a: Value)
    ensures GetKey([RecCell([Field(AnyString, [a])])], [Ref(0)], Name("key")) == [Undefined, a]
    ensures GetKey([RecCell([Field(AnyString, [a])])], [Ref(0)], Name("random-string")) == [Undefined, a]
  {
    GetKeyRule([RecCell([Field(AnyString, [a])])], Ref(0), Name("key"));
    GetKeyRule([RecCell([Field(AnyString, [a])])], Ref(0), Name("random-string"));
  }

  // ---------------------------------------------------------------------------
  // weak writes

  /** `poss[key] = new Reference([poss[key], value])` for one possibility: a
      record keeps the old value (or `undefined`) beside the new one; an array
      written at an integer index or at `ANY_STRING` gains the new possibilities
      as elements; anything else is left as it is. */
  function WriteOne(heap: Heap, v: Value, key: Key, value: seq<Value>): (h: Heap)
    ensures |h| == |heap|
  {
    if !(v.Ref? && v.addr < |heap|) then heap
    else match heap[v.addr]
      case ArrCell(elems) =>
        if key == AnyString || IsInteger(key.name) then heap[v.addr := ArrCell(elems + value)]
        else heap
      case RecCell(fields) =>
        var prior := match LookupField(fields, key) case Some(vs) => vs case None => [Undefined];
        heap[v.addr := RecCell(PutField(fields, key, prior + value))]
  }

  /** `reference.setKey(key, value)`: the weak write on every possibility, in order. */
  function SetKey(heap: Heap, ps: seq<Value>, key: Key, value: seq<Value>): (h: Heap)
    ensures |h| == |heap|
    decreases ps
  {
    if ps == [] then heap else SetKey(WriteOne(heap, ps[0], key, value), ps[1..], key, value)
  }

  /** A weak write never loses a possibility: after it, reading the key of a
      written record gives the old possibilities followed by the new ones. */
  lemma WriteOneKeepsOld(heap: Heap, a: nat, key: Key, value: seq<Value>)
    requires a < |heap| && heap[a].RecCell?
    ensures var h := WriteOne(heap, Ref(a), key, value);
      h[a].RecCell? &&
      LookupField(h[a].fields, key) ==
        Some((match LookupField(heap[a].fields, key) case Some(vs) => vs case None => [Undefined]) + value)
  {
  }

  /** Writing one possibility leaves every other cell unchanged. */
  lemma WriteOneFrame(heap: Heap, v: Value, key: Key, value: seq<Value>, b: nat)
    requires b < |heap| && !(v.Ref? && v.addr == b)
    ensures WriteOne(heap, v, key, value)[b] == heap[b]
  {
  }

  /** Writing one more possibility is one more weak write on the result. */
  lemma {:induction false} SetKeySnoc(heap: Heap, ps: seq<Value>, v: Value, key: Key, value: seq<Value>)
    ensures SetKey(heap, ps + [v], key, value) == WriteOne(SetKey(heap, ps, key, value), v, key, value)
    decreases ps
  {
    if ps == [] {
      assert ps + [v] == [v] && [v][1..] == [];
    } else {
      assert (ps + [v])[0] == ps[0] && (ps + [v])[1..] == ps[1..] + [v];
      SetKeySnoc(WriteOne(heap, ps[0], key, value), ps[1..], v, key, value);
    }
  }

  /** A cell no possibility points at is left as it is. */
  lemma {:induction false} SetKeyFrame(heap: Heap, ps: seq<Value>, key: Key, value: seq<Value>, b: nat)
    requires b < |heap| && Ref(b) !in ps
    ensures SetKey(heap, ps, key, value)[b] == heap[b]
    decreases ps
  {
    if ps != [] {
      WriteOneFrame(heap, ps[0], key, value, b);
      assert Ref(b) !in ps[1..];
      SetKeyFrame(WriteOne(heap, ps[0], key, value), ps[1..], key, value, b);
    }
  }

  /** `c'` holds every possibility `c` holds, in the same place: an array's
      elements are a prefix of the new ones, and every property of a record is
      still there with its old possibilities in front. */
  ghost predicate CellExtends(c: Cell, c': Cell)
  {
    (c.ArrCell? ==> c'.ArrCell? && c.elems <= c'.elems) &&
    (c.RecCell? ==>
       c'.RecCell? &&
       forall k :: LookupField(c.fields, k).Some? ==>
         LookupField(c'.fields, k).Some? && LookupField(c.fields, k).value <= LookupField(c'.fields, k).value)
  }

  ghost predicate HeapExtends(heap: Heap, heap': Heap)
  {
    |heap| == |heap'| && forall a :: 0 <= a < |heap| ==> CellExtends(heap[a], heap'[a])
  }

  lemma HeapExtendsTrans(h0: Heap, h1: Heap, h2: Heap)
    requires HeapExtends(h0, h1) && HeapExtends(h1, h2)
    ensures HeapExtends(h0, h2)
  {
    forall a | 0 <= a < |h0|
      ensures CellExtends(h0[a], h2[a])
    {
      var c0, c1, c2 := h0[a], h1[a], h2[a];
      if c0.RecCell? {
        forall k | LookupField(c0.fields, k).Some?
          ensures LookupField(c2.fields, k).Some? && LookupField(c0.fields, k).value <= LookupField(c2.fields, k).value
        {
          var x, y, z := LookupField(c0.fields, k).value, LookupField(c1.fields, k).value, LookupField(c2.fields, k).value;
          assert x == y[..|x|] && y == z[..|y|];
          assert z[..|y|][..|x|] == z[..|x|];
        }
      } else {
        assert c0.elems == c1.elems[..|c0.elems|] && c1.elems == c2.elems[..|c1.elems|];
        assert c2.elems[..|c1.elems|][..|c0.elems|] == c2.elems[..|c0.elems|];
      }
    }
  }

  /** A weak write never loses a possibility. */
  lemma WriteOneExtends(heap: Heap, v: Value, key: Key, value: seq<Value>)
    ensures HeapExtends(heap, WriteOne(heap, v, key, value))
  {
    var h := WriteOne(heap, v, key, value);
    forall a | 0 <= a < |heap|
      ensures CellExtends(heap[a], h[a])
    {
      if v.Ref? && v.addr == a && heap[a].RecCell? {
        var fields := heap[a].fields;
        var prior := match LookupField(fields, key) case Some(vs) => vs case None => [Undefined];
        assert h[a] == RecCell(PutField(fields, key, prior + value));
      }
    }
  }

  /** Nor does a sequence of them. */
  lemma {:induction false} SetKeyExtends(heap: Heap, ps: seq<Value>, key: Key, value: seq<Value>)
    ensures HeapExtends(heap, SetKey(heap, ps, key, value))
    decreases ps
  {
    if ps == [] {
      assert HeapExtends(heap, heap) by {
        forall a | 0 <= a < |heap| ensures CellExtends(heap[a], heap[a]) {
        }
      }
    } else {
      var h := WriteOne(heap, ps[0], key, value);
      WriteOneExtends(heap, ps[0], key, value);
      SetKeyExtends(h, ps[1..], key, value);
      HeapExtendsTrans(heap, h, SetKey(h, ps[1..], key, value));
    }
  }

  // ---------------------------------------------------------------------------
  // analyser state

  /** One entry of the Reference stack: the function whose call pushed it (none
      for block and global frames) and its bindings. */
  datatype Frame = Frame(owner: Option<Node>, refs: map<string, seq<Value>>)

  /** `State`: the heap of synthesized objects, the errors found so far, the
      Reference stack (innermost first), the hoisted stacks by block start, and
      `allGlobalRefs`, the path of every global object by address. */
  datatype State = State(
    heap: Heap,
    errors: seq<LintingError>,
    currentRefs: seq<Frame>,
    hoisted: map<int, seq<Frame>>,
    globals: map<nat, seq<string>>)

  /** The outcome of an operation that may throw, with the state it leaves. */
  datatype Step = Step(result: Outcome<seq<Value>>, state: State)

  /** The collaborators the analyser calls but that are not part of this model:
      `evaluateCallExpression`, `evaluateFnNode` (a call node or function node,
      the argument References, the state) and `noMutationRecursive` (a function
      node's body walk, giving its return Reference). */
  datatype Host = Host(
    evaluateCallExpression: (Node, State) -> Step,
    evaluateFnNode: (Node, seq<seq<Value>>, State) -> Step,
    noMutationRecursive: (Node, State) -> Step)

  /** What every analyser step keeps: the errors found so far stay in front of
      any new ones, the heap only gains objects, and the Reference stack, the
      hoisted stacks and the global paths are as they were. */
  predicate Preserves(st: State, st': State)
  {
    st.errors <= st'.errors && |st.heap| <= |st'.heap| &&
    st'.currentRefs == st.currentRefs && st'.hoisted == st.hoisted && st'.globals == st.globals
  }

  lemma PreservesTrans(a: State, b: State, c: State)
    requires Preserves(a, b) && Preserves(b, c)
    ensures Preserves(a, c)
  {
    assert a.errors == b.errors[..|a.errors|] && b.errors == c.errors[..|b.errors|];
    assert c.errors[..|b.errors|][..|a.errors|] == c.errors[..|a.errors|];
  }

  /** The collaborators keep `Preserves` too. */
  ghost predicate HostPreserves(host: Host)
  {
    (forall n, st :: Preserves(st, host.evaluateCallExpression(n, st).state)) &&
    (forall n, args, st :: Preserves(st, host.evaluateFnNode(n, args, st).state)) &&
    (forall n, st :: Preserves(st, host.noMutationRecursive(n, st).state))
  }

  /** Allocates a synthesized object and returns its address. */
  function Alloc(st: State, c: Cell): (r: (State, Value))
    ensures r.0.heap == st.heap + [c] && r.1 == Ref(|st.heap|)
    ensures r.0 == st.(heap := st.heap + [c])
  {
    (st.(heap := st.heap + [c]), Ref(|st.heap|))
  }
}
