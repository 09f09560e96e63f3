/** object.ts: what a call of a static `Object` method does to the analysis —
    the mutating ones report a global target, `getPrototypeOf` is always
    reported, and each method gives its own return shape. */
module ObjectStaticMethods {
  import opened Common
  import opened Syntax
  import opened Values
  import opened Resolver

  const PrototypeErr := "Don't touch prototypes"

  /** `${path}` for a path array: its segments joined with commas
      (`Array.prototype.toString`). */
  function CommaJoined(path: seq<string>): (s: string)
    ensures path == [] ==> s == ""
    ensures |path| == 1 ==> s == path[0]
  {
    if path == [] then ""
    else if |path| == 1 then path[0]
    else CommaJoined(path[..|path| - 1]) + "," + path[|path| - 1]
  }

  const MutationPrefix: string := "Cannot call mutating Object prototype method on "

  function MutationMessage(path: seq<string>): string
  {
    MutationPrefix + CommaJoined(path)
  }

  /** `getTarget`: nothing without arguments; the `ANY_STRING` possibilities of
      a spread first argument's operand; otherwise the first argument's
      possibilities. */
  function Target(host: Host, call: Node, st: State): Step
    requires call.Call?
  {
    if |call.arguments| < 1 then Step(Ok([]), st)
    else
      var first := call.arguments[0];
      if first.Spread? then
        var s := ResolveNode(host, first.argument, st);
        if s.result.Throw? then s else Step(Ok(GetKey(s.state.heap, s.result.value, AnyString)), s.state)
      else ResolveNode(host, first, st)
  }

  /** The paths of the target possibilities that are global objects, in order
      (`.map(allGlobalRefs.get).filter(Boolean)`: every path array is truthy). */
  function TargetPaths(globals: map<nat, seq<string>>, ps: seq<Value>): (r: seq<seq<string>>)
    ensures |r| <= |ps|
    ensures r == [] <==> forall i :: 0 <= i < |ps| ==> !(ps[i].Ref? && ps[i].addr in globals)
  {
    if ps == [] then []
    else
      var rest := TargetPaths(globals, ps[1..]);
      assert forall i :: 1 <= i < |ps| ==> ps[i] == ps[1..][i - 1];
      (if ps[0].Ref? && ps[0].addr in globals then [globals[ps[0].addr]] else []) + rest
  }

  lemma {:induction false} TargetPathsAppend(globals: map<nat, seq<string>>, ps: seq<Value>, qs: seq<Value>)
    ensures TargetPaths(globals, ps + qs) == TargetPaths(globals, ps) + TargetPaths(globals, qs)
    decreases |ps|
  {
    if ps == [] {
      assert ps + qs == qs;
    } else {
      var h := if ps[0].Ref? && ps[0].addr in globals then [globals[ps[0].addr]] else [];
      assert (ps + qs)[0] == ps[0] && (ps + qs)[1..] == ps[1..] + qs;
      TargetPathsAppend(globals, ps[1..], qs);
      AppendAssoc(h, TargetPaths(globals, ps[1..]), TargetPaths(globals, qs));
    }
  }

  function MutationErrors(call: Node, paths: seq<seq<string>>): (r: seq<LintingError>)
    ensures |r| == |paths|
    ensures forall i :: 0 <= i < |paths| ==> r[i] == FromNode(MutationMessage(paths[i]), call)
  {
    seq(|paths|, i requires 0 <= i < |paths| => FromNode(MutationMessage(paths[i]), call))
  }

  lemma MutationErrorsAppend(call: Node, ps: seq<seq<string>>, qs: seq<seq<string>>)
    ensures MutationErrors(call, ps + qs) == MutationErrors(call, ps) + MutationErrors(call, qs)
  {
    var l, r := MutationErrors(call, ps + qs), MutationErrors(call, ps) + MutationErrors(call, qs);
    assert |l| == |r|;
    forall i | 0 <= i < |l| ensures l[i] == r[i] {
      assert l[i] == FromNode(MutationMessage((ps + qs)[i]), call);
      if i < |ps| {
        assert (ps + qs)[i] == ps[i];
        assert r[i] == MutationErrors(call, ps)[i];
      } else {
        assert (ps + qs)[i] == qs[i - |ps|];
        assert r[i] == MutationErrors(call, qs)[i - |ps|];
      }
    }
  }

  /** `mutatesTarget`: one error per target possibility that is a global object. */
  method MutatesTarget(target: seq<Value>, call: Node, st: State) returns (st': State)
    ensures st' == st.(errors := st.errors + MutationErrors(call, TargetPaths(st.globals, target)))
  {
    var errors := st.errors;
    var i := 0;
    while i < |target|
      invariant 0 <= i <= |target|
      invariant errors == st.errors + MutationErrors(call, TargetPaths(st.globals, target[..i]))
    {
      var p := target[i];
      MutationErrorsSnoc(st.globals, call, target[..i], p);
      assert target[..i + 1] == target[..i] + [p];
      if p.Ref? && p.addr in st.globals {
        errors := errors + [FromNode(MutationMessage(st.globals[p.addr]), call)];
      }
      i := i + 1;
    }
    assert target[..i] == target;
    st' := st.(errors := errors);
  }

  /** One more target possibility adds its error, when it is a global object. */
  lemma MutationErrorsSnoc(globals: map<nat, seq<string>>, call: Node, ps: seq<Value>, p: Value)
    ensures MutationErrors(call, TargetPaths(globals, ps + [p])) ==
      MutationErrors(call, TargetPaths(globals, ps)) +
        (if p.Ref? && p.addr in globals then [FromNode(MutationMessage(globals[p.addr]), call)] else [])
  {
    var one := TargetPaths(globals, [p]);
    TargetPathsAppend(globals, ps, [p]);
    MutationErrorsAppend(call, TargetPaths(globals, ps), one);
    assert [p][1..] == [];
    if p.Ref? && p.addr in globals {
      assert one == [globals[p.addr]];
    } else {
      assert one == [];
    }
  }

  /** The methods that call `mutatesTarget`. */
  predicate Mutates(m: ObjectMethod)
  {
    m in {Assign, DefineProperties, DefineProperty, Freeze, PreventExtensions, Seal, SetPrototypeOf}
  }

  /** The methods that answer `{true, false}` without looking at their arguments. */
  predicate Tests(m: ObjectMethod)
  {
    m in {HasOwn, Is, IsExtensible, IsFrozen, IsSealed}
  }

  /** The methods that answer one new `[ANY_STRING]` array without looking at their arguments. */
  predicate ListsKeys(m: ObjectMethod)
  {
    m in {GetOwnPropertyNames, GetOwnPropertySymbols, Keys}
  }

  /** The methods that wrap the target's `ANY_STRING` possibilities in one new object. */
  predicate Wraps(m: ObjectMethod)
  {
    m in {Entries, FromEntries, GetOwnPropertyDescriptor, GetOwnPropertyDescriptors, GroupBy, ValuesMethod}
  }

  /** The handler `OBJECT_PROTOTYPE_METHODS` keeps for `m`, applied to the call. */
  function Handle(host: Host, m: ObjectMethod, call: Node, st: State): Step
    requires call.Call?
  {
    match m
    case Assign | DefineProperties | DefineProperty | Freeze | PreventExtensions | Seal | SetPrototypeOf =>
      var t := Target(host, call, st);
      if t.result.Throw? then t
      else Step(t.result, t.state.(errors := t.state.errors + MutationErrors(call, TargetPaths(t.state.globals, t.result.value))))
    case HasOwn | Is | IsExtensible | IsFrozen | IsSealed => Step(Ok([Bool(true), Bool(false)]), st)
    case GetOwnPropertyNames | GetOwnPropertySymbols | Keys =>
      var (st', v) := Alloc(st, ArrCell([AnyStr]));
      Step(Ok([v]), st')
    case GetPrototypeOf => Step(Ok([]), st.(errors := st.errors + [FromNode(PrototypeErr, call)]))
    case Create => Step(Ok([]), st)
    case Entries | FromEntries | GetOwnPropertyDescriptor | GetOwnPropertyDescriptors | GroupBy | ValuesMethod =>
      var t := Target(host, call, st);
      if t.result.Throw? then t else Wrap(m, GetKey(t.state.heap, t.result.value, AnyString), t.state)
  }

  /** The new object a wrapping method returns around the target's `ANY_STRING`
      possibilities `vs`: `entries` the pair `[ANY_STRING, vs]`, `fromEntries`
      and `groupBy` the record `{[ANY_STRING]: vs}`, `values` the array `[vs]`,
      `getOwnPropertyDescriptor` `undefined` or the descriptor `{value: vs}`,
      `getOwnPropertyDescriptors` `{[ANY_STRING]: {value: vs}}`. */
  function Wrap(m: ObjectMethod, vs: seq<Value>, st: State): Step
    requires Wraps(m)
  {
    match m
    case Entries =>
      var (st', v) := Alloc(st, ArrCell([AnyStr] + vs));
      Step(Ok([v]), st')
    case FromEntries =>
      var (st', v) := Alloc(st, RecCell([Field(AnyString, vs)]));
      Step(Ok([v]), st')
    case GroupBy =>
      var (st', v) := Alloc(st, RecCell([Field(AnyString, vs)]));
      Step(Ok([v]), st')
    case ValuesMethod =>
      var (st', v) := Alloc(st, ArrCell(vs));
      Step(Ok([v]), st')
    case GetOwnPropertyDescriptor =>
      var (st', d) := Alloc(st, RecCell([Field(Name("value"), vs)]));
      Step(Ok([Undefined, d]), st')
    case GetOwnPropertyDescriptors =>
      var (st', d) := Alloc(st, RecCell([Field(Name("value"), vs)]));
      var (st'', v) := Alloc(st', RecCell([Field(AnyString, [d])]));
      Step(Ok([v]), st'')
  }

  /** The `forEach` of `objectCallbackMethod` from `ps` on: every possibility
      that is a static `Object` method runs its handler, the results added after `acc`. */
  function Dispatch(host: Host, call: Node, ps: seq<Value>, st: State, acc: seq<Value>): Step
    requires call.Call?
    decreases |ps|
  {
    if ps == [] then Step(Ok(acc), st)
    else if ps[0].Builtin? && ps[0].intrinsic.ObjectStatic? then
      var h := Handle(host, ps[0].intrinsic.om, call, st);
      if h.result.Throw? then h else Dispatch(host, call, ps[1..], h.state, acc + h.result.value)
    else Dispatch(host, call, ps[1..], st, acc)
  }

  /** `objectCallbackMethod`: the callee's possibilities are resolved and each
      static `Object` method among them is handled. */
  function ObjectCallback(host: Host, call: Node, st: State): Step
    requires call.Call?
  {
    var c := ResolveNode(host, call.callee, st);
    if c.result.Throw? then c else Dispatch(host, call, c.result.value, c.state, [])
  }

  // ---------------------------------------------------------------------------
  // the handlers as they run

  method GetTarget(host: Host, call: Node, st: State) returns (r: Step)
    requires call.Call?
    ensures r == Target(host, call, st)
  {
    var args := call.arguments;
    if |args| < 1 {
      return Step(Ok([]), st);
    }
    var firstArg := args[0];
    if firstArg.Spread? {
      var s := ResolveNode(host, firstArg.argument, st);
      if s.result.Throw? {
        return s;
      }
      r := Step(Ok(GetKey(s.state.heap, s.result.value, AnyString)), s.state);
    } else {
      r := ResolveNode(host, firstArg, st);
    }
  }

  method HandleCall(host: Host, m: ObjectMethod, call: Node, st: State) returns (r: Step)
    requires call.Call?
    ensures r == Handle(host, m, call, st)
  {
    match m {
      case Assign | DefineProperties | DefineProperty | Freeze | PreventExtensions | Seal | SetPrototypeOf =>
        var target := GetTarget(host, call, st);
        if target.result.Throw? {
          return target;
        }
        var s := MutatesTarget(target.result.value, call, target.state);
        r := Step(target.result, s);
      case HasOwn | Is | IsExtensible | IsFrozen | IsSealed =>
        r := Step(Ok([Bool(true), Bool(false)]), st);
      case GetOwnPropertyNames | GetOwnPropertySymbols | Keys =>
        var created := Alloc(st, ArrCell([AnyStr]));
        r := Step(Ok([created.1]), created.0);
      case GetPrototypeOf =>
        r := Step(Ok([]), st.(errors := st.errors + [FromNode(PrototypeErr, call)]));
      case Create =>
        r := Step(Ok([]), st);
      case Entries | FromEntries | GetOwnPropertyDescriptor | GetOwnPropertyDescriptors | GroupBy | ValuesMethod =>
        var target := GetTarget(host, call, st);
        if target.result.Throw? {
          return target;
        }
        r := Wrap(m, GetKey(target.state.heap, target.result.value, AnyString), target.state);
    }
  }

  method ObjectCallbackMethod(host: Host, call: Node, st: State) returns (r: Step)
    requires call.Call?
    ensures r == ObjectCallback(host, call, st)
  {
    var callee := ResolveNode(host, call.callee, st);
    if callee.result.Throw? {
      return callee;
    }
    var ps := callee.result.value;
    var returnValue: seq<Value> := [];
    var s := callee.state;
    var i := 0;
    while i < |ps|
      invariant 0 <= i <= |ps|
      invariant Dispatch(host, call, ps[i..], s, returnValue) == ObjectCallback(host, call, st)
    {
      assert ps[i..][0] == ps[i] && ps[i..][1..] == ps[i + 1..];
      var p := ps[i];
      if p.Builtin? && p.intrinsic.ObjectStatic? {
        var h := HandleCall(host, p.intrinsic.om, call, s);
        if h.result.Throw? {
          return h;
        }
        returnValue := returnValue + h.result.value;
        s := h.state;
      }
      i := i + 1;
    }
    r := Step(Ok(returnValue), s);
  }

  // ---------------------------------------------------------------------------
  // properties

  /** A path is reported exactly when some target possibility is the global
      object at that path. */
  lemma {:induction false} TargetPathsMembers(globals: map<nat, seq<string>>, ps: seq<Value>, path: seq<string>)
    ensures path in TargetPaths(globals, ps) <==>
      exists i :: 0 <= i < |ps| && ps[i].Ref? && ps[i].addr in globals && globals[ps[i].addr] == path
    decreases |ps|
  {
    if ps != [] {
      TargetPathsMembers(globals, ps[1..], path);
      assert forall i :: 1 <= i < |ps| ==> ps[i] == ps[1..][i - 1];
      if exists i :: 0 <= i < |ps| && ps[i].Ref? && ps[i].addr in globals && globals[ps[i].addr] == path {
        var i :| 0 <= i < |ps| && ps[i].Ref? && ps[i].addr in globals && globals[ps[i].addr] == path;
        if i > 0 {
          assert ps[1..][i - 1] == ps[i];
        }
      }
    }
  }

  /** The mutating methods give their target back and add, after the errors
      found while resolving it, exactly one error per target possibility that
      is a global object, naming its comma-joined path; nothing else changes. */
  lemma MutatorsReport(host: Host, m: ObjectMethod, call: Node, st: State, e: LintingError)
    requires call.Call? && Mutates(m)
    ensures var t := Target(host, call, st);
      var r := Handle(host, m, call, st);
      (t.result.Throw? ==> r == t) &&
      (t.result.Ok? ==>
        r.result == t.result &&
        r.state == t.state.(errors := r.state.errors) &&
        |r.state.errors| - |t.state.errors| == |TargetPaths(t.state.globals, t.result.value)| &&
        r.state.errors[..|t.state.errors|] == t.state.errors &&
        (e in r.state.errors[|t.state.errors|..] <==>
          exists i :: 0 <= i < |t.result.value| && t.result.value[i].Ref? && t.result.value[i].addr in t.state.globals &&
            e == FromNode(MutationMessage(t.state.globals[t.result.value[i].addr]), call)))
  {
    var t := Target(host, call, st);
    HandleMutating(host, m, call, st);
    if t.result.Ok? {
      var errs := MutationErrors(call, TargetPaths(t.state.globals, t.result.value));
      var r := Handle(host, m, call, st);
      assert r.state.errors[|t.state.errors|..] == errs;
      MutationErrorsMembers(call, t.state.globals, t.result.value, e);
    }
  }

  /** The `Handle` of a mutating method, unfolded. */
  lemma HandleMutating(host: Host, m: ObjectMethod, call: Node, st: State)
    requires call.Call? && Mutates(m)
    ensures var t := Target(host, call, st);
      Handle(host, m, call, st) ==
        if t.result.Throw? then t
        else Step(t.result, t.state.(errors := t.state.errors + MutationErrors(call, TargetPaths(t.state.globals, t.result.value))))
  {
  }

  /** The `Handle` of a wrapping method, unfolded. */
  lemma HandleWrapping(host: Host, m: ObjectMethod, call: Node, st: State)
    requires call.Call? && Wraps(m)
    ensures var t := Target(host, call, st);
      Handle(host, m, call, st) ==
        if t.result.Throw? then t else Wrap(m, GetKey(t.state.heap, t.result.value, AnyString), t.state)
  {
  }

  /** An error is among those of the target paths exactly when it names the
      path of some possibility that is a global object. */
  lemma MutationErrorsMembers(call: Node, globals: map<nat, seq<string>>, vs: seq<Value>, e: LintingError)
    ensures e in MutationErrors(call, TargetPaths(globals, vs)) <==>
      exists i :: 0 <= i < |vs| && vs[i].Ref? && vs[i].addr in globals &&
        e == FromNode(MutationMessage(globals[vs[i].addr]), call)
  {
    var paths := TargetPaths(globals, vs);
    var errs := MutationErrors(call, paths);
    if e in errs {
      var k :| 0 <= k < |errs| && errs[k] == e;
      TargetPathsMembers(globals, vs, paths[k]);
    }
    if exists i :: 0 <= i < |vs| && vs[i].Ref? && vs[i].addr in globals &&
          e == FromNode(MutationMessage(globals[vs[i].addr]), call) {
      var i :| 0 <= i < |vs| && vs[i].Ref? && vs[i].addr in globals &&
          e == FromNode(MutationMessage(globals[vs[i].addr]), call);
      var path := globals[vs[i].addr];
      TargetPathsMembers(globals, vs, path);
      var k :| 0 <= k < |paths| && paths[k] == path;
      assert errs[k] == e;
    }
  }

  /** No method but the mutating ones and `getPrototypeOf` reports anything:
      the errors are those left by resolving the target, or the caller's. */
  lemma OthersNeverReport(host: Host, m: ObjectMethod, call: Node, st: State)
    requires call.Call? && !Mutates(m) && m != GetPrototypeOf
    ensures Handle(host, m, call, st).state.errors ==
      if Wraps(m) then Target(host, call, st).state.errors else st.errors
  {
  }

  /** `getPrototypeOf` is reported on every call, whatever its arguments. */
  lemma PrototypeAlwaysReported(host: Host, call: Node, st: State)
    requires call.Call?
    ensures var r := Handle(host, GetPrototypeOf, call, st);
      r.result == Ok([]) && r.state.errors == st.errors + [LintingError(PrototypeErr, r.state.errors[|st.errors|].start, r.state.errors[|st.errors|].end)] &&
      (call.loc.Loc? ==> r.state.errors[|st.errors|] == LintingError(PrototypeErr, Some(call.loc.start), Some(call.loc.end)))
  {
  }

  /** The methods that do not look for a target ignore their arguments: two
      calls at the same place with any arguments give the same answer. */
  lemma ArgumentsIgnored(host: Host, m: ObjectMethod, call: Node, call': Node, st: State)
    requires call.Call? && call'.Call? && call.loc == call'.loc
    requires !Mutates(m) && !Wraps(m)
    ensures Handle(host, m, call, st) == Handle(host, m, call', st)
  {
  }

  /** The shapes of the answers that need no target: the tests give
      `{true, false}`, the key listings one new `[ANY_STRING]` array, `create`
      nothing; none of them touches anything else. */
  lemma TargetlessShapes(host: Host, m: ObjectMethod, call: Node, st: State)
    requires call.Call?
    ensures var r := Handle(host, m, call, st);
      (Tests(m) ==> r == Step(Ok([Bool(true), Bool(false)]), st)) &&
      (ListsKeys(m) ==> r.result == Ok([Ref(|st.heap|)]) && r.state == st.(heap := st.heap + [ArrCell([AnyStr])])) &&
      (m == Create ==> r == Step(Ok([]), st))
  {
  }

  /** What the wrapping methods build gives the target's `ANY_STRING`
      possibilities back at the documented place: element 0 of `values`,
      element 1 of the `entries` pair (after its `ANY_STRING` key), any key of
      `fromEntries`/`groupBy` (beside the missing-key `undefined`), `value` of
      the descriptor, `value` of any key of the descriptors. Only the heap grows. */
  lemma WrapReadsBack(m: ObjectMethod, vs: seq<Value>, st: State, k: string)
    requires Wraps(m)
    ensures var w := Wrap(m, vs, st);
      var h := w.state.heap;
      w.result.Ok? && w.state == st.(heap := h) && |st.heap| < |h| && h[..|st.heap|] == st.heap &&
      (m == ValuesMethod ==> GetKey(h, w.result.value, Name("0")) == vs) &&
      (m == Entries ==> GetKey(h, w.result.value, Name("1")) == [AnyStr] + vs) &&
      (m in {FromEntries, GroupBy} ==> GetKey(h, w.result.value, Name(k)) == [Undefined] + vs) &&
      (m == GetOwnPropertyDescriptor ==> GetKey(h, w.result.value, Name("value")) == vs) &&
      (m == GetOwnPropertyDescriptors ==> GetKey(h, GetKey(h, w.result.value, Name(k)), Name("value")) == vs)
  {
    match m {
      case ValuesMethod => ValuesReadsBack(vs, st);
      case Entries => EntriesReadsBack(vs, st);
      case FromEntries => RecordReadsBack(m, vs, st, k);
      case GroupBy => RecordReadsBack(m, vs, st, k);
      case GetOwnPropertyDescriptor => DescriptorReadsBack(vs, st);
      case GetOwnPropertyDescriptors => DescriptorsReadsBack(vs, st, k);
    }
  }

  lemma ValuesReadsBack(vs: seq<Value>, st: State)
    ensures var w := Wrap(ValuesMethod, vs, st);
      GetKey(w.state.heap, w.result.value, Name("0")) == vs
  {
    var h := Wrap(ValuesMethod, vs, st).state.heap;
    assert IsInteger("0") by { assert IsDigit("0"[0]); }
    GetKeyRule(h, Ref(|st.heap|), Name("0"));
  }

  lemma EntriesReadsBack(vs: seq<Value>, st: State)
    ensures var w := Wrap(Entries, vs, st);
      GetKey(w.state.heap, w.result.value, Name("1")) == [AnyStr] + vs
  {
    var h := Wrap(Entries, vs, st).state.heap;
    assert IsInteger("1") by { assert IsDigit("1"[0]); }
    GetKeyRule(h, Ref(|st.heap|), Name("1"));
  }

  lemma RecordReadsBack(m: ObjectMethod, vs: seq<Value>, st: State, k: string)
    requires m == FromEntries || m == GroupBy
    ensures var w := Wrap(m, vs, st);
      GetKey(w.state.heap, w.result.value, Name(k)) == [Undefined] + vs
  {
    var h := Wrap(m, vs, st).state.heap;
    GetKeyRule(h, Ref(|st.heap|), Name(k));
  }

  lemma DescriptorReadsBack(vs: seq<Value>, st: State)
    ensures var w := Wrap(GetOwnPropertyDescriptor, vs, st);
      GetKey(w.state.heap, w.result.value, Name("value")) == vs
  {
    var w := Wrap(GetOwnPropertyDescriptor, vs, st);
    var h := w.state.heap;
    var n := |st.heap|;
    assert h == st.heap + [RecCell([Field(Name("value"), vs)])];
    assert w.result.value == [Undefined] + [Ref(n)];
    assert h[n] == RecCell([Field(Name("value"), vs)]);
    GetKeyAppend(h, [Undefined], [Ref(n)], Name("value"));
    GetKeyRule(h, Undefined, Name("value"));
    GetKeyRule(h, Ref(n), Name("value"));
  }

  lemma DescriptorsReadsBack(vs: seq<Value>, st: State, k: string)
    ensures var w := Wrap(GetOwnPropertyDescriptors, vs, st);
      GetKey(w.state.heap, GetKey(w.state.heap, w.result.value, Name(k)), Name("value")) == vs
  {
    var w := Wrap(GetOwnPropertyDescriptors, vs, st);
    var h := w.state.heap;
    var n := |st.heap|;
    assert h == st.heap + [RecCell([Field(Name("value"), vs)]), RecCell([Field(AnyString, [Ref(n)])])];
    assert w.result.value == [Ref(n + 1)];
    assert h[n + 1] == RecCell([Field(AnyString, [Ref(n)])]);
    assert h[n] == RecCell([Field(Name("value"), vs)]);
    GetKeyRule(h, Ref(n + 1), Name(k));
    assert GetKey(h, [Ref(n + 1)], Name(k)) == [Undefined] + [Ref(n)];
    GetKeyAppend(h, [Undefined], [Ref(n)], Name("value"));
    GetKeyRule(h, Undefined, Name("value"));
    GetKeyRule(h, Ref(n), Name("value"));
  }

  /** `getTarget`: no arguments give nothing and touch nothing; a spread first
      argument gives the `ANY_STRING` possibilities of its operand. */
  lemma TargetRules(host: Host, call: Node, st: State)
    requires call.Call?
    ensures |call.arguments| == 0 ==> Target(host, call, st) == Step(Ok([]), st)
    ensures |call.arguments| > 0 && call.arguments[0].Spread? ==>
      var s := ResolveNode(host, call.arguments[0].argument, st);
      s.result.Ok? ==> Target(host, call, st) == Step(Ok(GetKey(s.state.heap, s.result.value, AnyString)), s.state)
  {
  }

  lemma TargetPreserves(host: Host, call: Node, st: State)
    requires HostPreserves(host) && call.Call?
    ensures Preserves(st, Target(host, call, st).state)
  {
    if |call.arguments| > 0 {
      var first := call.arguments[0];
      if first.Spread? {
        ResolvePreserves(host, first.argument, st);
      } else {
        ResolvePreserves(host, first, st);
      }
    }
  }

  /** Every handler keeps what every analyser step keeps. */
  lemma HandlePreserves(host: Host, m: ObjectMethod, call: Node, st: State)
    requires HostPreserves(host) && call.Call?
    ensures Preserves(st, Handle(host, m, call, st).state)
  {
    var t := Target(host, call, st);
    if Wraps(m) {
      TargetPreserves(host, call, st);
      HandleWrapping(host, m, call, st);
      if t.result.Ok? {
        WrapReadsBack(m, GetKey(t.state.heap, t.result.value, AnyString), t.state, "");
        PreservesTrans(st, t.state, Handle(host, m, call, st).state);
      }
    } else if Mutates(m) {
      TargetPreserves(host, call, st);
      HandleMutating(host, m, call, st);
      if t.result.Ok? {
        PreservesTrans(st, t.state, Handle(host, m, call, st).state);
      }
    } else {
      HandleSimplePreserves(host, m, call, st);
    }
  }

  /** The handlers that do not read a target keep `Preserves`. */
  lemma HandleSimplePreserves(host: Host, m: ObjectMethod, call: Node, st: State)
    requires call.Call? && !Wraps(m) && !Mutates(m)
    ensures Preserves(st, Handle(host, m, call, st).state)
  {
  }

  /** Possibilities that are not static `Object` methods contribute nothing. */
  lemma {:induction false} DispatchSkipsOthers(host: Host, call: Node, ps: seq<Value>, st: State, acc: seq<Value>)
    requires call.Call?
    requires forall i :: 0 <= i < |ps| ==> !(ps[i].Builtin? && ps[i].intrinsic.ObjectStatic?)
    ensures Dispatch(host, call, ps, st, acc) == Step(Ok(acc), st)
    decreases |ps|
  {
    if ps != [] {
      assert forall i :: 0 <= i < |ps| - 1 ==> ps[1..][i] == ps[i + 1];
      DispatchSkipsOthers(host, call, ps[1..], st, acc);
    }
  }

  /** The handler results are a union: dispatching over `ps + qs` is
      dispatching over `ps` and then over `qs` from where it left off. */
  lemma {:induction false} DispatchAppend(host: Host, call: Node, ps: seq<Value>, qs: seq<Value>, st: State, acc: seq<Value>)
    requires call.Call?
    ensures var d := Dispatch(host, call, ps, st, acc);
      Dispatch(host, call, ps + qs, st, acc) ==
        if d.result.Throw? then d else Dispatch(host, call, qs, d.state, d.result.value)
    decreases |ps|
  {
    if ps == [] {
      assert ps + qs == qs;
    } else {
      assert (ps + qs)[0] == ps[0] && (ps + qs)[1..] == ps[1..] + qs;
      if ps[0].Builtin? && ps[0].intrinsic.ObjectStatic? {
        var h := Handle(host, ps[0].intrinsic.om, call, st);
        if h.result.Ok? {
          DispatchAppend(host, call, ps[1..], qs, h.state, acc + h.result.value);
        }
      } else {
        DispatchAppend(host, call, ps[1..], qs, st, acc);
      }
    }
  }

  lemma {:induction false} DispatchPreserves(host: Host, call: Node, ps: seq<Value>, st: State, acc: seq<Value>)
    requires HostPreserves(host) && call.Call?
    ensures Preserves(st, Dispatch(host, call, ps, st, acc).state)
    ensures Dispatch(host, call, ps, st, acc).result.Ok? ==> acc <= Dispatch(host, call, ps, st, acc).result.value
    decreases |ps|
  {
    if ps != [] {
      if ps[0].Builtin? && ps[0].intrinsic.ObjectStatic? {
        var h := Handle(host, ps[0].intrinsic.om, call, st);
        HandlePreserves(host, ps[0].intrinsic.om, call, st);
        if h.result.Ok? {
          DispatchPreserves(host, call, ps[1..], h.state, acc + h.result.value);
          PreservesTrans(st, h.state, Dispatch(host, call, ps[1..], h.state, acc + h.result.value).state);
        }
      } else {
        DispatchPreserves(host, call, ps[1..], st, acc);
      }
    }
  }

  /** `objectCallbackMethod` keeps the analyser's state invariant, and a callee
      that may be no static `Object` method answers nothing. */
  lemma ObjectCallbackRules(host: Host, call: Node, st: State)
    requires call.Call?
    ensures HostPreserves(host) ==> Preserves(st, ObjectCallback(host, call, st).state)
    ensures var c := ResolveNode(host, call.callee, st);
      c.result.Ok? && (forall i :: 0 <= i < |c.result.value| ==> !(c.result.value[i].Builtin? && c.result.value[i].intrinsic.ObjectStatic?)) ==>
        ObjectCallback(host, call, st) == Step(Ok([]), c.state)
  {
    var c := ResolveNode(host, call.callee, st);
    if c.result.Ok? {
      if forall i :: 0 <= i < |c.result.value| ==> !(c.result.value[i].Builtin? && c.result.value[i].intrinsic.ObjectStatic?) {
        DispatchSkipsOthers(host, call, c.result.value, c.state, []);
      }
      if HostPreserves(host) {
        ResolvePreserves(host, call.callee, st);
        DispatchPreserves(host, call, c.result.value, c.state, []);
        PreservesTrans(st, c.state, Dispatch(host, call, c.result.value, c.state, []).state);
      }
    } else if HostPreserves(host) {
      ResolvePreserves(host, call.callee, st);
    }
  }

  /** `${["a", "b"]}` is `a,b`: the message joins a nested path with commas. */
  lemma CommaJoinedExample()
    ensures MutationMessage(["a", "b"]) == "Cannot call mutating Object prototype method on a,b"
  {
    assert ["a", "b"][..1] == ["a"];
  }
}
