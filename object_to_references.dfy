/** `objectToPossibleReferences` (object_to_references.ts): turns a schema value
    into its possibility-shaped mirror. Every array becomes one synthesized array
    of the converted elements, every object one record whose properties each hold
    a one-element possibility list; every synthesized object is remembered in the
    back-map together with the schema value it mirrors. */
module ObjectToReferences {
  import opened Common
  import J = JsValues
  import opened Values

  /** The `ReferenceMap`: synthesized object (by heap address) to schema value. */
  type BackMap = map<nat, J.JsValue>

  /** The possibility list built for a value, and the heap and map after building it. */
  datatype Converted = Converted(values: seq<Value>, heap: Heap, back: BackMap)

  /** The properties built for an object so far, and the heap and map after them. */
  datatype ConvertedFields = ConvertedFields(fields: seq<Field>, heap: Heap, back: BackMap)

  function Primitive(x: J.JsValue): Value
    requires J.IsPrimitive(x)
  {
    match x
    case Bool(b) => Bool(b)
    case Num(n) => Num(n)
    case Str(s) => Str(s)
  }

  /** `objectToPossibleReferences(x, map)`. Children are built before their parent,
      so a child's address is below its parent's. `null`, `undefined` and functions
      throw. The keys of a JavaScript object are distinct, so properties are appended. */
  function Convert(x: J.JsValue, heap: Heap, back: BackMap): Outcome<Converted>
    decreases x, 1
  {
    if J.IsPrimitive(x) then Ok(Converted([Primitive(x)], heap, back))
    else match x
      case Arr(_) =>
        var c :- ConvertElems(x, 0, heap, back);
        Ok(Converted([Ref(|c.heap|)], c.heap + [ArrCell(c.values)], c.back[|c.heap| := x]))
      case Obj(_, any) =>
        var c :- ConvertProps(x, 0, heap, back);
        if any.None? then
          Ok(Converted([Ref(|c.heap|)], c.heap + [RecCell(c.fields)], c.back[|c.heap| := x]))
        else
          var d :- Convert(any.value, c.heap, c.back);
          var fields := c.fields + [Field(AnyString, d.values)];
          Ok(Converted([Ref(|d.heap|)], d.heap + [RecCell(fields)], d.back[|d.heap| := x]))
      case _ => Throw("")
  }

  /** `x.flatMap(elem => objectToPossibleReferences(elem, map)[0])` from index `i` on. */
  function ConvertElems(x: J.JsValue, i: nat, heap: Heap, back: BackMap): Outcome<Converted>
    requires x.Arr? && i <= |x.elems|
    decreases x, 0, |x.elems| - i
  {
    if i == |x.elems| then Ok(Converted([], heap, back))
    else
      var c :- Convert(x.elems[i], heap, back);
      var d :- ConvertElems(x, i + 1, c.heap, c.back);
      Ok(Converted(c.values + d.values, d.heap, d.back))
  }

  /** The entries of `Object.fromEntries(Object.entries(x).map(...))` from index `i` on. */
  function ConvertProps(x: J.JsValue, i: nat, heap: Heap, back: BackMap): Outcome<ConvertedFields>
    requires x.Obj? && i <= |x.props|
    decreases x, 0, |x.props| - i
  {
    if i == |x.props| then Ok(ConvertedFields([], heap, back))
    else
      var c :- Convert(x.props[i].value, heap, back);
      var d :- ConvertProps(x, i + 1, c.heap, c.back);
      Ok(ConvertedFields([Field(Name(x.props[i].key), c.values)] + d.fields, d.heap, d.back))
  }

  /** The values the conversion accepts: primitives, and arrays and objects built from them. */
  predicate Convertible(x: J.JsValue)
    decreases x
  {
    match x
    case Bool(_) => true
    case Num(_) => true
    case Str(_) => true
    case Arr(xs) => forall i :: 0 <= i < |xs| ==> Convertible(xs[i])
    case Obj(props, any) =>
      (forall i :: 0 <= i < |props| ==> Convertible(props[i].value)) &&
      (any.Some? ==> Convertible(any.value))
    case _ => false
  }

  /** `v` mirrors the schema value `x`: a primitive is itself; an array or object
      is a synthesized object that maps back to `x`, of the same length or with
      the same keys in order (plus `ANY_STRING` last), whose entries are one-element
      lists mirroring the corresponding parts of `x`. */
  predicate Mirrors(heap: Heap, back: BackMap, v: Value, x: J.JsValue)
    decreases x
  {
    match x
    case Bool(b) => v == Bool(b)
    case Num(n) => v == Num(n)
    case Str(s) => v == Str(s)
    case Arr(xs) =>
      v.Ref? && v.addr < |heap| && v.addr in back && back[v.addr] == x &&
      heap[v.addr].ArrCell? && |heap[v.addr].elems| == |xs| &&
      forall i :: 0 <= i < |xs| ==> Mirrors(heap, back, heap[v.addr].elems[i], xs[i])
    case Obj(props, any) =>
      v.Ref? && v.addr < |heap| && v.addr in back && back[v.addr] == x &&
      heap[v.addr].RecCell? && MirrorsFields(heap, back, heap[v.addr].fields, x)
    case _ => false
  }

  predicate MirrorsFields(heap: Heap, back: BackMap, fields: seq<Field>, x: J.JsValue)
    requires x.Obj?
    decreases x, 0
  {
    |fields| == |x.props| + (if x.anyString.Some? then 1 else 0) &&
    (forall i :: 0 <= i < |x.props| ==>
       fields[i].key == Name(x.props[i].key) && |fields[i].values| == 1 &&
       Mirrors(heap, back, fields[i].values[0], x.props[i].value)) &&
    (x.anyString.Some? ==>
       fields[|x.props|].key == AnyString && |fields[|x.props|].values| == 1 &&
       Mirrors(heap, back, fields[|x.props|].values[0], x.anyString.value))
  }

  /** The heap and the map only grow: existing cells and entries are kept. */
  predicate Grows(heap: Heap, back: BackMap, heap': Heap, back': BackMap)
  {
    |heap| <= |heap'| &&
    (forall a :: 0 <= a < |heap| ==> heap'[a] == heap[a]) &&
    (forall a :: a in back ==> a in back' && back'[a] == back[a])
  }

  /** The map only holds synthesized objects. */
  predicate Bounded(heap: Heap, back: BackMap)
  {
    forall a :: a in back ==> a < |heap|
  }

  /** Every object synthesized between the two heaps has a map entry. */
  predicate AllMapped(heap: Heap, heap': Heap, back': BackMap)
  {
    forall a :: |heap| <= a < |heap'| ==> a in back'
  }

  lemma {:induction false} MirrorsGrow(heap: Heap, back: BackMap, heap': Heap, back': BackMap, v: Value, x: J.JsValue)
    requires Mirrors(heap, back, v, x) && Grows(heap, back, heap', back')
    ensures Mirrors(heap', back', v, x)
    decreases x
  {
    match x
    case Arr(xs) =>
      forall i | 0 <= i < |xs|
        ensures Mirrors(heap', back', heap'[v.addr].elems[i], xs[i])
      {
        MirrorsGrow(heap, back, heap', back', heap[v.addr].elems[i], xs[i]);
      }
    case Obj(props, any) =>
      var fields := heap[v.addr].fields;
      forall i | 0 <= i < |props|
        ensures Mirrors(heap', back', fields[i].values[0], props[i].value)
      {
        MirrorsGrow(heap, back, heap', back', fields[i].values[0], props[i].value);
      }
      if any.Some? {
        MirrorsGrow(heap, back, heap', back', fields[|props|].values[0], any.value);
      }
    case _ =>
  }

  /** The conversion succeeds exactly on convertible values; it then gives a
      one-element list mirroring the input, only grows the heap and the map, and
      maps every object it synthesized. A primitive leaves heap and map untouched. */
  lemma {:induction false} ConvertSpec(x: J.JsValue, heap: Heap, back: BackMap)
    requires Bounded(heap, back)
    ensures Convert(x, heap, back).Ok? <==> Convertible(x)
    ensures Convert(x, heap, back).Ok? ==> Built(heap, back, x, Convert(x, heap, back).value)
    ensures J.IsPrimitive(x) ==> Convert(x, heap, back) == Ok(Converted([Primitive(x)], heap, back))
    decreases x, 3
  {
    if x.Arr? {
      ConvertArrSpec(x, heap, back);
    } else if x.Obj? {
      ConvertObjSpec(x, heap, back);
    }
  }

  /** What a successful conversion of `x` from `heap` and `back` built. */
  predicate Built(heap: Heap, back: BackMap, x: J.JsValue, c: Converted)
  {
    |c.values| == 1 && Mirrors(c.heap, c.back, c.values[0], x) &&
    Grows(heap, back, c.heap, c.back) && AllMapped(heap, c.heap, c.back) && Bounded(c.heap, c.back)
  }

  lemma {:induction false} ConvertArrSpec(x: J.JsValue, heap: Heap, back: BackMap)
    requires x.Arr? && Bounded(heap, back)
    ensures Convert(x, heap, back).Ok? <==> Convertible(x)
    ensures Convert(x, heap, back).Ok? ==> Built(heap, back, x, Convert(x, heap, back).value)
    decreases x, 1
  {
    var xs := x.elems;
    ConvertElemsSpec(x, 0, heap, back);
    var r := ConvertElems(x, 0, heap, back);
    if r.Ok? {
      var c := r.value;
      var h', b' := c.heap + [ArrCell(c.values)], c.back[|c.heap| := x];
      assert Grows(c.heap, c.back, h', b');
      forall i | 0 <= i < |xs|
        ensures Mirrors(h', b', c.values[i], xs[i])
      {
        MirrorsGrow(c.heap, c.back, h', b', c.values[i], xs[i]);
      }
      assert Convert(x, heap, back) == Ok(Converted([Ref(|c.heap|)], h', b'));
    }
  }

  lemma {:induction false} ConvertObjSpec(x: J.JsValue, heap: Heap, back: BackMap)
    requires x.Obj? && Bounded(heap, back)
    ensures Convert(x, heap, back).Ok? <==> Convertible(x)
    ensures Convert(x, heap, back).Ok? ==> Built(heap, back, x, Convert(x, heap, back).value)
    decreases x, 2
  {
    ConvertPropsSpec(x, 0, heap, back);
    var r := ConvertProps(x, 0, heap, back);
    if r.Ok? {
      if x.anyString.None? {
        ConvertRecord(x, heap, back, r.value);
      } else {
        ConvertRecordAny(x, heap, back, r.value);
      }
    }
  }

  /** The fields built by `ConvertProps` mirror the object's properties. */
  predicate FieldsBuilt(heap: Heap, back: BackMap, x: J.JsValue, c: ConvertedFields)
    requires x.Obj?
  {
    |c.fields| == |x.props| &&
    (forall j :: 0 <= j < |c.fields| ==>
       c.fields[j].key == Name(x.props[j].key) && |c.fields[j].values| == 1 &&
       Mirrors(c.heap, c.back, c.fields[j].values[0], x.props[j].value)) &&
    Grows(heap, back, c.heap, c.back) && AllMapped(heap, c.heap, c.back) && Bounded(c.heap, c.back)
  }

  lemma ConvertRecord(x: J.JsValue, heap: Heap, back: BackMap, c: ConvertedFields)
    requires x.Obj? && x.anyString.None? && Bounded(heap, back)
    requires ConvertProps(x, 0, heap, back) == Ok(c) && FieldsBuilt(heap, back, x, c)
    ensures Convert(x, heap, back).Ok? && Built(heap, back, x, Convert(x, heap, back).value)
  {
    var h', b' := c.heap + [RecCell(c.fields)], c.back[|c.heap| := x];
    assert Grows(c.heap, c.back, h', b');
    FieldsGrow(c.heap, c.back, h', b', c.fields, x, |x.props|);
    assert Convert(x, heap, back) == Ok(Converted([Ref(|c.heap|)], h', b'));
  }

  lemma {:induction false} ConvertRecordAny(x: J.JsValue, heap: Heap, back: BackMap, c: ConvertedFields)
    requires x.Obj? && x.anyString.Some? && Bounded(heap, back)
    requires ConvertProps(x, 0, heap, back) == Ok(c) && FieldsBuilt(heap, back, x, c)
    ensures Convert(x, heap, back).Ok? <==> Convertible(x.anyString.value)
    ensures Convert(x, heap, back).Ok? ==> Built(heap, back, x, Convert(x, heap, back).value)
    decreases x, 1
  {
    var any := x.anyString.value;
    ConvertSpec(any, c.heap, c.back);
    var s := Convert(any, c.heap, c.back);
    ConvertAnyUnfold(x, heap, back, c);
    if s.Ok? {
      var d := s.value;
      var fields := c.fields + [Field(AnyString, d.values)];
      var h', b' := d.heap + [RecCell(fields)], d.back[|d.heap| := x];
      AnyRecordMirrors(x, c, d);
      GrowsTrans(heap, back, c.heap, c.back, d.heap, d.back);
      assert Grows(d.heap, d.back, h', b');
      GrowsTrans(heap, back, d.heap, d.back, h', b');
    }
  }

  /** `Convert` on an object with an `ANY_STRING` entry, once its properties are built. */
  lemma ConvertAnyUnfold(x: J.JsValue, heap: Heap, back: BackMap, c: ConvertedFields)
    requires x.Obj? && x.anyString.Some? && ConvertProps(x, 0, heap, back) == Ok(c)
    ensures var s := Convert(x.anyString.value, c.heap, c.back);
      (s.Throw? ==> Convert(x, heap, back) == Throw(s.message)) &&
      (s.Ok? ==>
        var d := s.value;
        Convert(x, heap, back) ==
          Ok(Converted([Ref(|d.heap|)], d.heap + [RecCell(c.fields + [Field(AnyString, d.values)])], d.back[|d.heap| := x])))
  {
  }

  lemma GrowsTrans(h0: Heap, b0: BackMap, h1: Heap, b1: BackMap, h2: Heap, b2: BackMap)
    requires Grows(h0, b0, h1, b1) && Grows(h1, b1, h2, b2)
    ensures Grows(h0, b0, h2, b2)
  {
  }

  /** The record built for an object with an `ANY_STRING` entry mirrors it. */
  lemma AnyRecordMirrors(x: J.JsValue, c: ConvertedFields, d: Converted)
    requires x.Obj? && x.anyString.Some? && |c.fields| == |x.props|
    requires forall j :: 0 <= j < |c.fields| ==>
       c.fields[j].key == Name(x.props[j].key) && |c.fields[j].values| == 1 &&
       Mirrors(c.heap, c.back, c.fields[j].values[0], x.props[j].value)
    requires Grows(c.heap, c.back, d.heap, d.back) && Bounded(d.heap, d.back)
    requires |d.values| == 1 && Mirrors(d.heap, d.back, d.values[0], x.anyString.value)
    ensures var fields := c.fields + [Field(AnyString, d.values)];
      Mirrors(d.heap + [RecCell(fields)], d.back[|d.heap| := x], Ref(|d.heap|), x)
  {
    var fields := c.fields + [Field(AnyString, d.values)];
    var h', b' := d.heap + [RecCell(fields)], d.back[|d.heap| := x];
    assert Grows(d.heap, d.back, h', b');
    GrowsTrans(c.heap, c.back, d.heap, d.back, h', b');
    FieldsGrow(c.heap, c.back, h', b', c.fields, x, |x.props|);
    MirrorsGrow(d.heap, d.back, h', b', d.values[0], x.anyString.value);
    assert forall j :: 0 <= j < |x.props| ==> fields[j] == c.fields[j];
    assert fields[|x.props|] == Field(AnyString, d.values);
    assert MirrorsFields(h', b', fields, x);
  }

  /** The properties built so far keep mirroring their sources as the heap grows. */
  lemma FieldsGrow(heap: Heap, back: BackMap, heap': Heap, back': BackMap,
                   fields: seq<Field>, x: J.JsValue, n: nat)
    requires x.Obj? && n <= |x.props| && |fields| == n && Grows(heap, back, heap', back')
    requires forall i :: 0 <= i < n ==>
       fields[i].key == Name(x.props[i].key) && |fields[i].values| == 1 &&
       Mirrors(heap, back, fields[i].values[0], x.props[i].value)
    ensures forall i :: 0 <= i < n ==> Mirrors(heap', back', fields[i].values[0], x.props[i].value)
  {
    forall i | 0 <= i < n
      ensures Mirrors(heap', back', fields[i].values[0], x.props[i].value)
    {
      MirrorsGrow(heap, back, heap', back', fields[i].values[0], x.props[i].value);
    }
  }

  lemma {:induction false} ConvertElemsSpec(x: J.JsValue, i: nat, heap: Heap, back: BackMap)
    requires x.Arr? && i <= |x.elems| && Bounded(heap, back)
    ensures ConvertElems(x, i, heap, back).Ok? <==> forall j :: i <= j < |x.elems| ==> Convertible(x.elems[j])
    ensures ConvertElems(x, i, heap, back).Ok? ==>
      var c := ConvertElems(x, i, heap, back).value;
      |c.values| == |x.elems| - i &&
      (forall j :: 0 <= j < |c.values| ==> Mirrors(c.heap, c.back, c.values[j], x.elems[i + j])) &&
      Grows(heap, back, c.heap, c.back) && AllMapped(heap, c.heap, c.back) && Bounded(c.heap, c.back)
    decreases x, 0, |x.elems| - i
  {
    if i < |x.elems| {
      ConvertSpec(x.elems[i], heap, back);
      var r := Convert(x.elems[i], heap, back);
      if r.Ok? {
        var c := r.value;
        ConvertElemsSpec(x, i + 1, c.heap, c.back);
        var s := ConvertElems(x, i + 1, c.heap, c.back);
        if s.Ok? {
          var d := s.value;
          MirrorsGrow(c.heap, c.back, d.heap, d.back, c.values[0], x.elems[i]);
          assert c.values + d.values == [c.values[0]] + d.values;
          ElemsMirror(d.heap, d.back, c.values[0], d.values, x, i);
          GrowsTrans(heap, back, c.heap, c.back, d.heap, d.back);
        }
      }
    }
  }

  lemma {:induction false} ConvertPropsSpec(x: J.JsValue, i: nat, heap: Heap, back: BackMap)
    requires x.Obj? && i <= |x.props| && Bounded(heap, back)
    ensures ConvertProps(x, i, heap, back).Ok? <==> forall j :: i <= j < |x.props| ==> Convertible(x.props[j].value)
    ensures ConvertProps(x, i, heap, back).Ok? ==>
      var c := ConvertProps(x, i, heap, back).value;
      |c.fields| == |x.props| - i &&
      (forall j :: 0 <= j < |c.fields| ==>
         c.fields[j].key == Name(x.props[i + j].key) && |c.fields[j].values| == 1 &&
         Mirrors(c.heap, c.back, c.fields[j].values[0], x.props[i + j].value)) &&
      Grows(heap, back, c.heap, c.back) && AllMapped(heap, c.heap, c.back) && Bounded(c.heap, c.back)
    decreases x, 0, |x.props| - i
  {
    if i < |x.props| {
      ConvertSpec(x.props[i].value, heap, back);
      var r := Convert(x.props[i].value, heap, back);
      if r.Ok? {
        var c := r.value;
        ConvertPropsSpec(x, i + 1, c.heap, c.back);
        var s := ConvertProps(x, i + 1, c.heap, c.back);
        if s.Ok? {
          PropsStep(x, i, heap, back, c, s.value);
        } else {
          assert ConvertProps(x, i, heap, back).Throw?;
        }
      } else {
        assert ConvertProps(x, i, heap, back).Throw?;
      }
    }
  }

  /** The property at `i` converted to `c` and the rest to `d`: the fields from `i` on are built. */
  lemma PropsStep(x: J.JsValue, i: nat, heap: Heap, back: BackMap, c: Converted, d: ConvertedFields)
    requires x.Obj? && i < |x.props|
    requires Convert(x.props[i].value, heap, back) == Ok(c) && Built(heap, back, x.props[i].value, c)
    requires ConvertProps(x, i + 1, c.heap, c.back) == Ok(d)
    requires |d.fields| == |x.props| - (i + 1) &&
      (forall j :: 0 <= j < |d.fields| ==>
         d.fields[j].key == Name(x.props[i + 1 + j].key) && |d.fields[j].values| == 1 &&
         Mirrors(d.heap, d.back, d.fields[j].values[0], x.props[i + 1 + j].value)) &&
      Grows(c.heap, c.back, d.heap, d.back) && AllMapped(c.heap, d.heap, d.back) && Bounded(d.heap, d.back)
    ensures ConvertProps(x, i, heap, back) == Ok(ConvertedFields([Field(Name(x.props[i].key), c.values)] + d.fields, d.heap, d.back))
    ensures var fs := [Field(Name(x.props[i].key), c.values)] + d.fields;
      |fs| == |x.props| - i &&
      (forall j :: 0 <= j < |fs| ==>
         fs[j].key == Name(x.props[i + j].key) && |fs[j].values| == 1 &&
         Mirrors(d.heap, d.back, fs[j].values[0], x.props[i + j].value)) &&
      Grows(heap, back, d.heap, d.back) && AllMapped(heap, d.heap, d.back) && Bounded(d.heap, d.back)
  {
    MirrorsGrow(c.heap, c.back, d.heap, d.back, c.values[0], x.props[i].value);
    PropsMirror(d.heap, d.back, Field(Name(x.props[i].key), c.values), d.fields, x, i);
    GrowsTrans(heap, back, c.heap, c.back, d.heap, d.back);
  }

  /** The element converted at `i`, put in front of the rest, mirrors the elements from `i` on. */
  lemma ElemsMirror(heap: Heap, back: BackMap, v: Value, vs: seq<Value>, x: J.JsValue, i: nat)
    requires x.Arr? && i < |x.elems| && |vs| == |x.elems| - (i + 1)
    requires Mirrors(heap, back, v, x.elems[i])
    requires forall j :: 0 <= j < |vs| ==> Mirrors(heap, back, vs[j], x.elems[i + 1 + j])
    ensures forall j :: 0 <= j < |vs| + 1 ==> Mirrors(heap, back, ([v] + vs)[j], x.elems[i + j])
  {
    forall j | 0 <= j < |vs| + 1
      ensures Mirrors(heap, back, ([v] + vs)[j], x.elems[i + j])
    {
      if j > 0 {
        assert ([v] + vs)[j] == vs[j - 1] && i + j == i + 1 + (j - 1);
      }
    }
  }

  /** The property converted at `i`, put in front of the rest, mirrors the properties from `i` on. */
  lemma PropsMirror(heap: Heap, back: BackMap, f: Field, fs: seq<Field>, x: J.JsValue, i: nat)
    requires x.Obj? && i < |x.props| && |fs| == |x.props| - (i + 1)
    requires f.key == Name(x.props[i].key) && |f.values| == 1 && Mirrors(heap, back, f.values[0], x.props[i].value)
    requires forall j :: 0 <= j < |fs| ==>
      fs[j].key == Name(x.props[i + 1 + j].key) && |fs[j].values| == 1 &&
      Mirrors(heap, back, fs[j].values[0], x.props[i + 1 + j].value)
    ensures forall j :: 0 <= j < |fs| + 1 ==>
      ([f] + fs)[j].key == Name(x.props[i + j].key) && |([f] + fs)[j].values| == 1 &&
      Mirrors(heap, back, ([f] + fs)[j].values[0], x.props[i + j].value)
  {
    forall j | 0 <= j < |fs| + 1
      ensures ([f] + fs)[j].key == Name(x.props[i + j].key) && |([f] + fs)[j].values| == 1 &&
              Mirrors(heap, back, ([f] + fs)[j].values[0], x.props[i + j].value)
    {
      if j > 0 {
        assert ([f] + fs)[j] == fs[j - 1] && i + j == i + 1 + (j - 1);
      }
    }
  }

  /** `objectToPossibleReferences([1, 2, 3])` is one array `[1, 2, 3]`, and the map
      sends it back to the input. */
  lemma ArrayExample()
    ensures var x := J.Arr([J.Num(1), J.Num(2), J.Num(3)]);
      Convert(x, [], map[]) == Ok(Converted([Ref(0)], [ArrCell([Num(1), Num(2), Num(3)])], map[0 := x]))
  {
    var x := J.Arr([J.Num(1), J.Num(2), J.Num(3)]);
    assert Convert(J.Num(1), [], map[]) == Ok(Converted([Num(1)], [], map[]));
    assert Convert(J.Num(2), [], map[]) == Ok(Converted([Num(2)], [], map[]));
    assert Convert(J.Num(3), [], map[]) == Ok(Converted([Num(3)], [], map[]));
    assert ConvertElems(x, 3, [], map[]) == Ok(Converted([], [], map[]));
    var r3 := ConvertElems(x, 2, [], map[]);
    assert r3.Ok? && r3.value.values == [Num(3)] && r3.value.heap == [] && r3.value.back == map[];
    var r2 := ConvertElems(x, 1, [], map[]);
    assert r2.Ok? && r2.value.values == [Num(2), Num(3)] && r2.value.heap == [] && r2.value.back == map[];
    var r1 := ConvertElems(x, 0, [], map[]);
    assert r1.Ok? && r1.value.values == [Num(1), Num(2), Num(3)] && r1.value.heap == [] && r1.value.back == map[];
    var c := Convert(x, [], map[]);
    assert c.Ok? && c.value.values == [Ref(0)] && c.value.heap == [ArrCell([Num(1), Num(2), Num(3)])];
    assert c.value.back == map[0 := x];
  }

  /** `objectToPossibleReferences({[ANY_STRING]: true})` is one record `{[ANY_STRING]: [true]}`. */
  lemma AnyStringExample()
    ensures var x := J.Obj([], Some(J.Bool(true)));
      Convert(x, [], map[]) == Ok(Converted([Ref(0)], [RecCell([Field(AnyString, [Bool(true)])])], map[0 := x]))
  {
    var x := J.Obj([], Some(J.Bool(true)));
    assert ConvertProps(x, 0, [], map[]) == Ok(ConvertedFields([], [], map[]));
    assert Convert(J.Bool(true), [], map[]) == Ok(Converted([Bool(true)], [], map[]));
    var fields: seq<Field> := [];
    assert fields + [Field(AnyString, [Bool(true)])] == [Field(AnyString, [Bool(true)])];
    var c := Convert(x, [], map[]);
    assert c.Ok? && c.value.values == [Ref(0)] && c.value.heap == [RecCell([Field(AnyString, [Bool(true)])])];
    assert c.value.back == map[0 := x];
  }

  /** `null` throws, also when nested. */
  lemma NullThrows()
    ensures Convert(J.Null, [], map[]).Throw?
    ensures Convert(J.Arr([J.Num(0), J.Null]), [], map[]).Throw?
  {
    ConvertSpec(J.Arr([J.Num(0), J.Null]), [], map[]);
    assert !Convertible(J.Arr([J.Num(0), J.Null])) by {
      assert !Convertible(J.Arr([J.Num(0), J.Null]).elems[1]);
    }
  }
}
