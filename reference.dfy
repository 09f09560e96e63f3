/** `Reference` (reference.ts): a list of possible values and the projection
    that reads one property from each of them. */
module References {
  import opened Common
  import opened JsValues

  /** What `get(key)` collects: `x[key]` for every object-like possibility, in
      order; primitives, `null` and `undefined` contribute nothing. */
  function Project(ps: seq<JsValue>, key: Key): seq<JsValue>
  {
    if ps == [] then []
    else (if IsObjectLike(ps[0]) then [Index(ps[0], key)] else []) + Project(ps[1..], key)
  }

  /** The number of object-like possibilities. */
  function CountObjectLike(ps: seq<JsValue>): nat
  {
    if ps == [] then 0 else (if IsObjectLike(ps[0]) then 1 else 0) + CountObjectLike(ps[1..])
  }

  /** Projection distributes over concatenation: the result keeps possibility order. */
  lemma {:induction false} ProjectAppend(ps: seq<JsValue>, qs: seq<JsValue>, key: Key)
    ensures Project(ps + qs, key) == Project(ps, key) + Project(qs, key)
  {
    if ps == [] {
      assert ps + qs == qs;
    } else {
      var h := if IsObjectLike(ps[0]) then [Index(ps[0], key)] else [];
      assert (ps + qs)[0] == ps[0];
      assert (ps + qs)[1..] == ps[1..] + qs;
      assert Project(ps + qs, key) == h + Project(ps[1..] + qs, key);
      ProjectAppend(ps[1..], qs, key);
      AppendAssoc(h, Project(ps[1..], key), Project(qs, key));
    }
  }

  /** One entry per object-like possibility and none per primitive. */
  lemma {:induction false} ProjectLength(ps: seq<JsValue>, key: Key)
    ensures |Project(ps, key)| == CountObjectLike(ps)
    ensures |Project(ps, key)| <= |ps|
  {
    if ps != [] {
      ProjectLength(ps[1..], key);
    }
  }

  /** A single possibility yields `x[key]` exactly when it is object-like. */
  lemma ProjectOne(x: JsValue, key: Key)
    ensures IsObjectLike(x) ==> Project([x], key) == [Index(x, key)]
    ensures !IsObjectLike(x) ==> Project([x], key) == []
  {
    assert [x][1..] == [];
  }

  /** A list of primitives projects to nothing. */
  lemma {:induction false} ProjectPrimitives(ps: seq<JsValue>, key: Key)
    requires forall i :: 0 <= i < |ps| ==> IsPrimitive(ps[i])
    ensures Project(ps, key) == []
  {
    if ps != [] {
      ProjectPrimitives(ps[1..], key);
    }
  }

  /** `new Reference([{key: "value"}]).get("key")` holds `["value"]`. */
  lemma GetOnObjectExample()
    ensures Project([Obj([Prop("key", Str("value"))], None)], Name("key")) == [Str("value")]
  {
    ProjectOne(Obj([Prop("key", Str("value"))], None), Name("key"));
  }

  function Nest(leaf: string): JsValue
  {
    Obj([Prop("outer", Obj([Prop("middle", Obj([Prop("inner",
      Obj([Prop("value", Str(leaf))], None))], None))], None))], None)
  }

  /** Chained `get` over two objects collects the leaves in possibility order. */
  lemma ChainedGetExample()
    ensures Project(Project(Project(Project([Nest("a"), Nest("b")], Name("outer")),
              Name("middle")), Name("inner")), Name("value")) == [Str("a"), Str("b")]
  {
    var a, b := Nest("a"), Nest("b");
    ProjectAppend([a], [b], Name("outer"));
    ProjectOne(a, Name("outer"));
    ProjectOne(b, Name("outer"));
    var o := [Index(a, Name("outer")), Index(b, Name("outer"))];
    ProjectAppend([o[0]], [o[1]], Name("middle"));
    ProjectOne(o[0], Name("middle"));
    ProjectOne(o[1], Name("middle"));
    var m := [Index(o[0], Name("middle")), Index(o[1], Name("middle"))];
    ProjectAppend([m[0]], [m[1]], Name("inner"));
    ProjectOne(m[0], Name("inner"));
    ProjectOne(m[1], Name("inner"));
    var n := [Index(m[0], Name("inner")), Index(m[1], Name("inner"))];
    ProjectAppend([n[0]], [n[1]], Name("value"));
    ProjectOne(n[0], Name("value"));
    ProjectOne(n[1], Name("value"));
  }

  /** A set of possible values. The list is private: the only ways to read it are
      `get` and the copying `possibilities` getter. */
  class Reference {
    var possibilities: seq<JsValue>

    /** Pushes every input possibility in iteration order, duplicates included. */
    constructor (input: seq<JsValue>)
      ensures possibilities == input
    {
      possibilities := [];
      new;
      var i := 0;
      while i < |input|
        invariant 0 <= i <= |input|
        invariant possibilities == input[..i]
      {
        possibilities := possibilities + [input[i]];
        i := i + 1;
      }
      assert input[..|input|] == input;
    }

    /** `get(key)`: a fresh Reference of `poss[key]` for each object-like possibility. */
    method Get(key: Key) returns (r: Reference)
      ensures fresh(r)
      ensures r.possibilities == Project(possibilities, key)
      ensures possibilities == old(possibilities)
    {
      var collected: seq<JsValue> := [];
      var i := 0;
      while i < |possibilities|
        invariant 0 <= i <= |possibilities|
        invariant collected == Project(possibilities[..i], key)
      {
        var poss := possibilities[i];
        ProjectAppend(possibilities[..i], [poss], key);
        ProjectOne(poss, key);
        assert possibilities[..i + 1] == possibilities[..i] + [poss];
        if IsObjectLike(poss) {
          collected := collected + [Index(poss, key)];
        }
        i := i + 1;
      }
      assert possibilities[..|possibilities|] == possibilities;
      r := new Reference(collected);
    }

    /** The `possibilities` getter: a new array holding a copy of the list. */
    method Possibilities() returns (a: array<JsValue>)
      ensures fresh(a)
      ensures a[..] == possibilities
    {
      a := new JsValue[|possibilities|](_ => Undefined);
      var i := 0;
      while i < a.Length
        invariant 0 <= i <= a.Length == |possibilities|
        invariant forall j :: 0 <= j < i ==> a[j] == possibilities[j]
      {
        a[i] := possibilities[i];
        i := i + 1;
      }
    }
  }

  /** Writing into the array `possibilities` returned leaves the Reference as it was. */
  method PossibilitiesAreACopy(ref: Reference, x: JsValue)
    requires |ref.possibilities| > 0
    ensures ref.possibilities == old(ref.possibilities)
  {
    var copy := ref.Possibilities();
    copy[0] := x;
  }
}
