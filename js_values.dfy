/** Plain JavaScript values as the schema of globals and `Reference` hold them:
    trees of arrays and objects over primitives. */
module JsValues {
  import opened Common

  /** A JavaScript value. Numbers are integers; an object lists its enumerable
      string-keyed own properties in enumeration order, and separately the value
      of its `ANY_STRING` symbol property when it has one. A function is opaque. */
  datatype JsValue =
    | Undefined
    | Null
    | Bool(b: bool)
    | Num(n: int)
    | Str(s: string)
    | Arr(elems: seq<JsValue>)
    | Obj(props: seq<Prop>, anyString: Option<JsValue>)
    | Func(id: nat)

  datatype Prop = Prop(key: string, value: JsValue)

  /** `x instanceof Object && x !== null`: the values a property can be read from. */
  predicate IsObjectLike(x: JsValue)
  {
    x.Arr? || x.Obj? || x.Func?
  }

  /** `isPrimitive`: `typeof x` is boolean, number or string. */
  predicate IsPrimitive(x: JsValue)
  {
    x.Bool? || x.Num? || x.Str?
  }

  /** The value of the first own property named `k`, if any. */
  function LookupProp(props: seq<Prop>, k: string): (r: Option<JsValue>)
    ensures r.Some? <==> exists i :: 0 <= i < |props| && props[i].key == k
    ensures r.Some? ==> exists i :: 0 <= i < |props| && props[i] == Prop(k, r.value)
  {
    if props == [] then None
    else if props[0].key == k then Some(props[0].value)
    else
      var r := LookupProp(props[1..], k);
      assert forall i :: 0 < i < |props| ==> props[i] == props[1..][i - 1];
      r
  }

  /** The index `i < n` whose decimal text is `k`, if any: the array-index keys. */
  function ArrayIndex(k: string, n: nat): (r: Option<nat>)
    ensures r.Some? ==> r.value < n && NatToString(r.value) == k
    ensures r.None? ==> forall i :: 0 <= i < n ==> NatToString(i) != k
  {
    if n == 0 then None
    else if NatToString(n - 1) == k then Some(n - 1)
    else ArrayIndex(k, n - 1)
  }

  /** `x[key]` on an object-like value, own properties only: an array answers its
      elements and `length`, an object its properties, anything else `undefined`. */
  function Index(x: JsValue, key: Key): JsValue
  {
    match x
    case Arr(elems) =>
      (match key
       case Name(k) =>
         if k == "length" then Num(|elems|)
         else
           (match ArrayIndex(k, |elems|)
            case Some(i) => elems[i]
            case None => Undefined)
       case AnyString => Undefined)
    case Obj(props, any) =>
      (match key
       case Name(k) =>
         (match LookupProp(props, k)
          case Some(v) => v
          case None => Undefined)
       case AnyString =>
         (match any
          case Some(v) => v
          case None => Undefined))
    case _ => Undefined
  }
}
