/** array.ts: what a call of an `Array.prototype` method does to the analysis —
    the mutating methods report a global receiver, the callback methods call
    every function the first argument may be, and each method gives its own
    return shape. */
module ArrayInstanceMethods {
  import opened Common
  import opened Syntax
  import opened Values
  import opened Resolver
  import DeepReferences

  /** The error a spread argument of `push`, `shift`, `unshift` or `splice` raises. */
  const SpreadArgErr := "TODO"

  /** The error `assertIsFnNode` raises when `reduceRight`'s first argument is
      not a function node (its text is not part of this model). */
  const NotAFunctionErr := ""

  /** The index Reference every callback receives. */
  const Index: seq<Value> := [AnyStr]

  /** A call whose callee is a member expression (`x.m(...)`). */
  predicate IsMemberCall(call: Node)
  {
    call.Call? && call.callee.Member?
  }

  /** `state.node.arguments[0]`, missing when there are no arguments. */
  function FirstArg(call: Node): Option<Node>
    requires call.Call?
  {
    if |call.arguments| > 0 then Some(call.arguments[0]) else None
  }

  // ---------------------------------------------------------------------------
  // mutatingMethod

  const MutationPrefix: string := "Can't call mutating array instance method on "

  function MutationMessage(path: DeepReferences.Path): string
  {
    MutationPrefix + DeepReferences.PathToString(path)
  }

  /** `array.get().map(p => allGlobalRefs.get(p)).filter(p => p != undefined)`:
      the path of every possibility that is a global object, in order. */
  function GlobalPaths(globals: map<nat, seq<string>>, ps: seq<Value>): (r: seq<seq<string>>)
    ensures |r| <= |ps|
    ensures r == [] <==> forall i :: 0 <= i < |ps| ==> !(ps[i].Ref? && ps[i].addr in globals)
  {
    if ps == [] then []
    else
      var rest := GlobalPaths(globals, ps[1..]);
      assert forall i :: 1 <= i < |ps| ==> ps[i] == ps[1..][i - 1];
      (if ps[0].Ref? && ps[0].addr in globals then [globals[ps[0].addr]] else []) + rest
  }

  /** Each global path is the path recorded for some possibility. */
  lemma {:induction false} GlobalPathsFrom(globals: map<nat, seq<string>>, ps: seq<Value>)
    ensures forall path :: path in GlobalPaths(globals, ps) ==>
      exists i :: 0 <= i < |ps| && ps[i].Ref? && ps[i].addr in globals && globals[ps[i].addr] == path
    decreases |ps|
  {
    if ps != [] {
      GlobalPathsFrom(globals, ps[1..]);
      forall path | path in GlobalPaths(globals, ps)
        ensures exists i :: 0 <= i < |ps| && ps[i].Ref? && ps[i].addr in globals && globals[ps[i].addr] == path
      {
        if !(ps[0].Ref? && ps[0].addr in globals && globals[ps[0].addr] == path) {
          assert path in GlobalPaths(globals, ps[1..]);
          var j :| 0 <= j < |ps[1..]| && ps[1..][j].Ref? && ps[1..][j].addr in globals && globals[ps[1..][j].addr] == path;
          assert ps[j + 1] == ps[1..][j];
        }
      }
    }
  }

  lemma {:induction false} GlobalPathsAppend(globals: map<nat, seq<string>>, ps: seq<Value>, qs: seq<Value>)
    ensures GlobalPaths(globals, ps + qs) == GlobalPaths(globals, ps) + GlobalPaths(globals, qs)
    decreases |ps|
  {
    if ps == [] {
      assert ps + qs == qs;
    } else {
      var h := if ps[0].Ref? && ps[0].addr in globals then [globals[ps[0].addr]] else [];
      assert (ps + qs)[0] == ps[0] && (ps + qs)[1..] == ps[1..] + qs;
      GlobalPathsAppend(globals, ps[1..], qs);
      AppendAssoc(h, GlobalPaths(globals, ps[1..]), GlobalPaths(globals, qs));
    }
  }

  /** One error per path, anchored at the call. */
  function MutationErrors(call: Node, paths: seq<seq<string>>): (r: seq<LintingError>)
    ensures |r| == |paths|
    ensures forall i :: 0 <= i < |paths| ==> r[i] == FromNode(MutationMessage(paths[i]), call)
  {
    seq(|paths|, i requires 0 <= i < |paths| => FromNode(MutationMessage(paths[i]), call))
  }

  lemma MutationErrorsAppend(call: Node, ps: seq<seq<string>>, qs: seq<seq<string>>)
    ensures MutationErrors(call, ps + qs) == MutationErrors(call, ps) + MutationErrors(call, qs)
  {
    var l, r := MutationErrors(call, ps + qs), MutationErrors(call, ps) + MutationErrors(call, qs);
    assert |l| == |r|;
    forall i | 0 <= i < |l| ensures l[i] == r[i] {
      assert l[i] == FromNode(MutationMessage((ps + qs)[i]), call);
      if i < |ps| {
        assert (ps + qs)[i] == ps[i];
        assert r[i] == MutationErrors(call, ps)[i];
      } else {
        assert (ps + qs)[i] == qs[i - |ps|];
        assert r[i] == MutationErrors(call, qs)[i - |ps|];
      }
    }
  }

  /** `mutatingMethod`: resolve the receiver, report every global it may be,
      and give the receiver back. */
  function MutatingMethod(host: Host, call: Node, st: State): Step
    requires IsMemberCall(call)
  {
    var a := ResolveNode(host, call.callee.target, st);
    if a.result.Throw? then a
    else
      var paths := GlobalPaths(a.state.globals, a.result.value);
      Step(a.result, a.state.(errors := a.state.errors + MutationErrors(call, paths)))
  }

  /** One more receiver possibility adds its error, when it is a global object. */
  lemma MutationErrorsSnoc(globals: map<nat, seq<string>>, call: Node, ps: seq<Value>, p: Value)
    ensures MutationErrors(call, GlobalPaths(globals, ps + [p])) ==
      MutationErrors(call, GlobalPaths(globals, ps)) +
        (if p.Ref? && p.addr in globals then [FromNode(MutationMessage(globals[p.addr]), call)] else [])
  {
    var one := GlobalPaths(globals, [p]);
    GlobalPathsAppend(globals, ps, [p]);
    MutationErrorsAppend(call, GlobalPaths(globals, ps), one);
    assert [p][1..] == [];
    if p.Ref? && p.addr in globals {
      assert one == [globals[p.addr]];
    } else {
      assert one == [];
    }
  }

  /** The `forEach` that pushes the errors of `mutatingMethod`. */
  method ReportMutations(call: Node, receiver: seq<Value>, st: State) returns (st': State)
    ensures st' == st.(errors := st.errors + MutationErrors(call, GlobalPaths(st.globals, receiver)))
  {
    var errors := st.errors;
    var i := 0;
    while i < |receiver|
      invariant 0 <= i <= |receiver|
      invariant errors == st.errors + MutationErrors(call, GlobalPaths(st.globals, receiver[..i]))
    {
      var p := receiver[i];
      MutationErrorsSnoc(st.globals, call, receiver[..i], p);
      assert receiver[..i + 1] == receiver[..i] + [p];
      if p.Ref? && p.addr in st.globals {
        errors := errors + [FromNode(MutationMessage(st.globals[p.addr]), call)];
      }
      i := i + 1;
    }
    assert receiver[..i] == receiver;
    st' := st.(errors := errors);
  }

  // ---------------------------------------------------------------------------
  // calling the callbacks

  /** `callbacks.get().filter(isFnNode)`. */
  function FnCallbacks(ps: seq<Value>): (r: seq<Node>)
    ensures |r| <= |ps|
    ensures forall n :: n in r <==> Fn(n) in ps && IsFnNode(n)
  {
    if ps == [] then []
    else
      var rest := FnCallbacks(ps[1..]);
      assert forall v :: v in ps <==> v == ps[0] || v in ps[1..];
      (if ps[0].Fn? && IsFnNode(ps[0].node) then [ps[0].node] else []) + rest
  }

  /** `evaluateFnNode` on every callback in order with the same arguments, the
      return References collected after `acc`. */
  function CallAll(host: Host, fns: seq<Node>, args: seq<seq<Value>>, st: State, acc: seq<Value>): Step
    decreases |fns|
  {
    if fns == [] then Step(Ok(acc), st)
    else
      var s := host.evaluateFnNode(fns[0], args, st);
      if s.result.Throw? then s else CallAll(host, fns[1..], args, s.state, acc + s.result.value)
  }

  /** The `forEach` over the callbacks. */
  method CallCallbacks(host: Host, fns: seq<Node>, args: seq<seq<Value>>, st: State) returns (r: Step)
    ensures r == CallAll(host, fns, args, st, [])
  {
    var returnValues: seq<Value> := [];
    var s := st;
    var i := 0;
    while i < |fns|
      invariant 0 <= i <= |fns|
      invariant CallAll(host, fns[i..], args, s, returnValues) == CallAll(host, fns, args, st, [])
    {
      assert fns[i..][0] == fns[i] && fns[i..][1..] == fns[i + 1..];
      var returned := host.evaluateFnNode(fns[i], args, s);
      if returned.result.Throw? {
        return returned;
      }
      returnValues := returnValues + returned.result.value;
      s := returned.state;
      i := i + 1;
    }
    r := Step(Ok(returnValues), s);
  }

  /** What `elemIndexArrCallback` (and the `map`/`flatMap` handlers) computed:
      the element Reference, the receiver, and the callbacks' return values. */
  datatype Operands = Operands(element: seq<Value>, receiver: seq<Value>, returned: seq<Value>)

  datatype Run = Run(result: Outcome<Operands>, state: State)

  /** Resolve the receiver, read its `ANY_STRING` as the element, resolve the
      first argument and call each function it may be with `(element, index, receiver)`. */
  function CallbackRun(host: Host, call: Node, st: State): Run
    requires IsMemberCall(call)
  {
    var a := ResolveNode(host, call.callee.target, st);
    if a.result.Throw? then Run(Throw(a.result.message), a.state)
    else
      var receiver := a.result.value;
      var element := GetKey(a.state.heap, receiver, AnyString);
      var c := Resolve(host, FirstArg(call), a.state);
      if c.result.Throw? then Run(Throw(c.result.message), c.state)
      else
        var calls := CallAll(host, FnCallbacks(c.result.value), [element, Index, receiver], c.state, []);
        if calls.result.Throw? then Run(Throw(calls.result.message), calls.state)
        else Run(Ok(Operands(element, receiver, calls.result.value)), calls.state)
  }

  /** The receiver and the accumulator `element ∪ initialValue` of `reduce` and
      `reduceRight`; the initial value is `arguments[1]` when given, else the element. */
  datatype Reduction = Reduction(receiver: seq<Value>, accumulator: seq<Value>)

  datatype ReductionStep = ReductionStep(result: Outcome<Reduction>, state: State)

  function ReductionOf(host: Host, call: Node, st: State): ReductionStep
    requires IsMemberCall(call)
  {
    var a := ResolveNode(host, call.callee.target, st);
    if a.result.Throw? then ReductionStep(Throw(a.result.message), a.state)
    else
      var receiver := a.result.value;
      var element := GetKey(a.state.heap, receiver, AnyString);
      var init := if |call.arguments| > 1 then ResolveNode(host, call.arguments[1], a.state) else Step(Ok(element), a.state);
      if init.result.Throw? then ReductionStep(Throw(init.result.message), init.state)
      else ReductionStep(Ok(Reduction(receiver, element + init.result.value)), init.state)
  }

  /** `reduce`: every function the first argument may be is called with
      `(accumulator, accumulator, index, receiver)`; the result is the union of
      what they return. */
  function ReduceHandler(host: Host, call: Node, st: State): Step
    requires IsMemberCall(call)
  {
    var red := ReductionOf(host, call, st);
    if red.result.Throw? then Step(Throw(red.result.message), red.state)
    else
      var acc := red.result.value.accumulator;
      var c := Resolve(host, FirstArg(call), red.state);
      if c.result.Throw? then c
      else CallAll(host, FnCallbacks(c.result.value), [acc, acc, Index, red.result.value.receiver], c.state, [])
  }

  /** `reduceRight`: the first argument itself must be a function node, which is
      called once; its return Reference is the result. */
  function ReduceRightHandler(host: Host, call: Node, st: State): Step
    requires IsMemberCall(call)
  {
    var red := ReductionOf(host, call, st);
    if red.result.Throw? then Step(Throw(red.result.message), red.state)
    else if |call.arguments| == 0 || !IsFnNode(call.arguments[0]) then Step(Throw(NotAFunctionErr), red.state)
    else
      var acc := red.result.value.accumulator;
      host.evaluateFnNode(call.arguments[0], [acc, acc, Index, red.result.value.receiver], red.state)
  }

  // ---------------------------------------------------------------------------
  // folding arguments into the receiver

  /** The `forEach` over `arguments` of `push`, `shift`, `unshift` (`skip` 0) and
      `splice` (`skip` 2) from position `index` on: every argument not skipped
      is resolved and weakly written into the receiver under `ANY_STRING`; a
      spread throws. The result is the receiver. */
  function FoldArgs(host: Host, args: seq<Node>, index: nat, skip: nat, arr: seq<Value>, st: State): Step
    decreases |args|
  {
    if args == [] then Step(Ok(arr), st)
    else if index < skip then FoldArgs(host, args[1..], index + 1, skip, arr, st)
    else if args[0].Spread? then Step(Throw(SpreadArgErr), st)
    else
      var v := ResolveNode(host, args[0], st);
      if v.result.Throw? then v
      else FoldArgs(host, args[1..], index + 1, skip, arr, v.state.(heap := SetKey(v.state.heap, arr, AnyString, v.result.value)))
  }

  method FoldArguments(host: Host, args: seq<Node>, skip: nat, arr: seq<Value>, st: State) returns (r: Step)
    ensures r == FoldArgs(host, args, 0, skip, arr, st)
  {
    var s := st;
    var index := 0;
    while index < |args|
      invariant 0 <= index <= |args|
      invariant FoldArgs(host, args[index..], index, skip, arr, s) == FoldArgs(host, args, 0, skip, arr, st)
    {
      assert args[index..][0] == args[index] && args[index..][1..] == args[index + 1..];
      var arg := args[index];
      if index >= skip {
        if arg.Spread? {
          return Step(Throw(SpreadArgErr), s);
        }
        var val := ResolveNode(host, arg, s);
        if val.result.Throw? {
          return val;
        }
        s := val.state.(heap := SetKey(val.state.heap, arr, AnyString, val.result.value));
      }
      index := index + 1;
    }
    r := Step(Ok(arr), s);
  }

  // ---------------------------------------------------------------------------
  // the method table

  /** The methods that go through `mutatingMethod`. */
  predicate Mutates(m: ArrayMethod)
  {
    m in {CopyWithin, Fill, Pop, Push, Reverse, Shift, Sort, Splice, Unshift}
  }

  /** The handler `ARRAY_INSTANCE_METHODS` keeps for `m`, applied to the call. */
  function Handle(host: Host, m: ArrayMethod, call: Node, st: State): Step
    requires IsMemberCall(call)
  {
    match m
    case CopyWithin => MutatingMethod(host, call, st)
    case Reverse => MutatingMethod(host, call, st)
    case Sort => MutatingMethod(host, call, st)
    case Fill =>
      var a := MutatingMethod(host, call, st);
      if a.result.Throw? then a
      else
        var v := Resolve(host, FirstArg(call), a.state);
        if v.result.Throw? then v
        else Step(a.result, v.state.(heap := SetKey(v.state.heap, a.result.value, AnyString, v.result.value)))
    case Pop =>
      var a := MutatingMethod(host, call, st);
      if a.result.Throw? then a else Step(Ok(GetKey(a.state.heap, a.result.value, AnyString)), a.state)
    case Push => Append(host, call, st)
    case Shift => Append(host, call, st)
    case Unshift => Append(host, call, st)
    case Splice =>
      var a := MutatingMethod(host, call, st);
      if a.result.Throw? then a else FoldArgs(host, call.arguments, 0, 2, a.result.value, a.state)
    case Every => Answer(CallbackRun(host, call, st), [Bool(true), Bool(false)])
    case SomeMethod => Answer(CallbackRun(host, call, st), [Bool(true), Bool(false)])
    case FindIndex => Answer(CallbackRun(host, call, st), [Undefined, AnyStr])
    case FindLastIndex => Answer(CallbackRun(host, call, st), [Undefined, AnyStr])
    case ForEach => Answer(CallbackRun(host, call, st), [])
    case Filter =>
      var r := CallbackRun(host, call, st);
      if r.result.Throw? then Step(Throw(r.result.message), r.state) else Step(Ok(r.result.value.receiver), r.state)
    case Find => Element(CallbackRun(host, call, st))
    case FindLast => Element(CallbackRun(host, call, st))
    case FlatMap =>
      var r := CallbackRun(host, call, st);
      if r.result.Throw? then Step(Throw(r.result.message), r.state) else Step(Ok(r.result.value.returned), r.state)
    case MapMethod =>
      var r := CallbackRun(host, call, st);
      if r.result.Throw? then Step(Throw(r.result.message), r.state)
      else
        var (st', v) := Alloc(r.state, ArrCell(r.result.value.returned));
        Step(Ok([v]), st')
    case Reduce => ReduceHandler(host, call, st)
    case ReduceRight => ReduceRightHandler(host, call, st)
  }

  /** `push`, `shift` and `unshift`: fold every argument into the receiver and
      give `[ANY_STRING]`. */
  function Append(host: Host, call: Node, st: State): Step
    requires IsMemberCall(call)
  {
    var a := MutatingMethod(host, call, st);
    if a.result.Throw? then a
    else
      var f := FoldArgs(host, call.arguments, 0, 0, a.result.value, a.state);
      if f.result.Throw? then f else Step(Ok(Index), f.state)
  }

  /** A callback method that gives a fixed Reference once its callbacks ran. */
  function Answer(r: Run, vs: seq<Value>): Step
  {
    if r.result.Throw? then Step(Throw(r.result.message), r.state) else Step(Ok(vs), r.state)
  }

  /** `find` and `findLast`: the element Reference. */
  function Element(r: Run): Step
  {
    if r.result.Throw? then Step(Throw(r.result.message), r.state) else Step(Ok(r.result.value.element), r.state)
  }

  /** The `forEach` of `arrayCallbackMethod` from `ps` on: every possibility that
      is an array method runs its handler, the results added after `acc`. */
  function Dispatch(host: Host, call: Node, ps: seq<Value>, st: State, acc: seq<Value>): Step
    requires IsMemberCall(call)
    decreases |ps|
  {
    if ps == [] then Step(Ok(acc), st)
    else if ps[0].Builtin? && ps[0].intrinsic.ArrayProto? then
      var h := Handle(host, ps[0].intrinsic.am, call, st);
      if h.result.Throw? then h else Dispatch(host, call, ps[1..], h.state, acc + h.result.value)
    else Dispatch(host, call, ps[1..], st, acc)
  }

  /** `arrayCallbackMethod`: only a member callee is looked at; its
      possibilities are resolved and each array method among them is handled. */
  function ArrayCallback(host: Host, call: Node, st: State): Step
    requires call.Call?
  {
    if !call.callee.Member? then Step(Ok([]), st)
    else
      var c := ResolveNode(host, call.callee, st);
      if c.result.Throw? then c else Dispatch(host, call, c.result.value, c.state, [])
  }

  // ---------------------------------------------------------------------------
  // the handlers as they run

  method MutatingMethodCall(host: Host, call: Node, st: State) returns (r: Step)
    requires IsMemberCall(call)
    ensures r == MutatingMethod(host, call, st)
  {
    var a := ResolveNode(host, call.callee.target, st);
    if a.result.Throw? {
      return a;
    }
    var reported := ReportMutations(call, a.result.value, a.state);
    r := Step(a.result, reported);
  }

  /** `elemIndexArrCallback`, also the common part of `map` and `flatMap`. */
  method RunCallbacks(host: Host, call: Node, st: State) returns (r: Run)
    requires IsMemberCall(call)
    ensures r == CallbackRun(host, call, st)
  {
    var a := ResolveNode(host, call.callee.target, st);
    if a.result.Throw? {
      return Run(Throw(a.result.message), a.state);
    }
    var receiver := a.result.value;
    var element := GetKey(a.state.heap, receiver, AnyString);
    var callbacks := Resolve(host, FirstArg(call), a.state);
    if callbacks.result.Throw? {
      return Run(Throw(callbacks.result.message), callbacks.state);
    }
    var calls := CallCallbacks(host, FnCallbacks(callbacks.result.value), [element, Index, receiver], callbacks.state);
    if calls.result.Throw? {
      return Run(Throw(calls.result.message), calls.state);
    }
    r := Run(Ok(Operands(element, receiver, calls.result.value)), calls.state);
  }

  method ReduceCall(host: Host, call: Node, st: State) returns (r: Step)
    requires IsMemberCall(call)
    ensures r == ReduceHandler(host, call, st)
  {
    var red := ReductionOf(host, call, st);
    if red.result.Throw? {
      return Step(Throw(red.result.message), red.state);
    }
    var accumulator := red.result.value.accumulator;
    var callbacks := Resolve(host, FirstArg(call), red.state);
    if callbacks.result.Throw? {
      return callbacks;
    }
    r := CallCallbacks(host, FnCallbacks(callbacks.result.value), [accumulator, accumulator, Index, red.result.value.receiver], callbacks.state);
  }

  /** One entry of `ARRAY_INSTANCE_METHODS` applied to the call. */
  method HandleCall(host: Host, m: ArrayMethod, call: Node, st: State) returns (r: Step)
    requires IsMemberCall(call)
    ensures r == Handle(host, m, call, st)
  {
    if m in {CopyWithin, Reverse, Sort, Fill, Pop, Push, Shift, Unshift, Splice} {
      var arr := MutatingMethodCall(host, call, st);
      if arr.result.Throw? || m in {CopyWithin, Reverse, Sort} {
        return arr;
      }
      if m == Fill {
        var arg := Resolve(host, FirstArg(call), arr.state);
        if arg.result.Throw? {
          return arg;
        }
        return Step(arr.result, arg.state.(heap := SetKey(arg.state.heap, arr.result.value, AnyString, arg.result.value)));
      }
      if m == Pop {
        return Step(Ok(GetKey(arr.state.heap, arr.result.value, AnyString)), arr.state);
      }
      var folded := FoldArguments(host, call.arguments, if m == Splice then 2 else 0, arr.result.value, arr.state);
      if folded.result.Throw? || m == Splice {
        return folded;
      }
      r := Step(Ok(Index), folded.state);
    } else if m == Reduce {
      r := ReduceCall(host, call, st);
    } else if m == ReduceRight {
      r := ReduceRightHandler(host, call, st);
    } else {
      var run := RunCallbacks(host, call, st);
      if run.result.Throw? {
        return Step(Throw(run.result.message), run.state);
      }
      var ops := run.result.value;
      match m {
        case Every => r := Step(Ok([Bool(true), Bool(false)]), run.state);
        case SomeMethod => r := Step(Ok([Bool(true), Bool(false)]), run.state);
        case FindIndex => r := Step(Ok([Undefined, AnyStr]), run.state);
        case FindLastIndex => r := Step(Ok([Undefined, AnyStr]), run.state);
        case ForEach => r := Step(Ok([]), run.state);
        case Filter => r := Step(Ok(ops.receiver), run.state);
        case Find => r := Step(Ok(ops.element), run.state);
        case FindLast => r := Step(Ok(ops.element), run.state);
        case FlatMap => r := Step(Ok(ops.returned), run.state);
        case MapMethod =>
          var created := Alloc(run.state, ArrCell(ops.returned));
          r := Step(Ok([created.1]), created.0);
      }
    }
  }

  /** `arrayCallbackMethod`, with its `forEach` over the callee's possibilities. */
  method ArrayCallbackMethod(host: Host, call: Node, st: State) returns (r: Step)
    requires call.Call?
    ensures r == ArrayCallback(host, call, st)
  {
    if !call.callee.Member? {
      return Step(Ok([]), st);
    }
    var callee := ResolveNode(host, call.callee, st);
    if callee.result.Throw? {
      return callee;
    }
    var ps := callee.result.value;
    var returnValue: seq<Value> := [];
    var s := callee.state;
    var i := 0;
    while i < |ps|
      invariant 0 <= i <= |ps|
      invariant Dispatch(host, call, ps[i..], s, returnValue) == ArrayCallback(host, call, st)
    {
      assert ps[i..][0] == ps[i] && ps[i..][1..] == ps[i + 1..];
      var p := ps[i];
      if p.Builtin? && p.intrinsic.ArrayProto? {
        var h := HandleCall(host, p.intrinsic.am, call, s);
        if h.result.Throw? {
          return h;
        }
        returnValue := returnValue + h.result.value;
        s := h.state;
      }
      i := i + 1;
    }
    r := Step(Ok(returnValue), s);
  }

  // ---------------------------------------------------------------------------
  // properties

  /** `mutatingMethod` gives the receiver back, leaves the heap alone and adds,
      after the errors of resolving the receiver, exactly one error per
      receiver possibility that is a global object, naming its path and
      anchored at the call; a receiver that is no global adds nothing. */
  lemma MutatingMethodReports(host: Host, call: Node, st: State)
    requires IsMemberCall(call)
    ensures var a := ResolveNode(host, call.callee.target, st);
      var r := MutatingMethod(host, call, st);
      var paths := if a.result.Ok? then GlobalPaths(a.state.globals, a.result.value) else [];
      (a.result.Throw? ==> r == a) &&
      (a.result.Ok? ==>
        r.result == a.result && r.state.heap == a.state.heap &&
        |r.state.errors| == |a.state.errors| + |paths| &&
        r.state.errors[..|a.state.errors|] == a.state.errors &&
        (forall i :: 0 <= i < |paths| ==>
           r.state.errors[|a.state.errors| + i] == FromNode(MutationMessage(paths[i]), call)) &&
        ((forall i :: 0 <= i < |a.result.value| ==> !(a.result.value[i].Ref? && a.result.value[i].addr in a.state.globals)) ==>
           r == a))
  {
    var a := ResolveNode(host, call.callee.target, st);
    match a.result
    case Throw(_) =>
    case Ok(v) =>
      var paths := GlobalPaths(a.state.globals, v);
      var errs := a.state.errors + MutationErrors(call, paths);
      assert MutatingMethod(host, call, st) == Step(a.result, a.state.(errors := errs));
      ReportedErrors(a.state.errors, call, paths);
      if paths == [] {
        assert errs == a.state.errors;
      }
  }

  lemma ReportedErrors(base: seq<LintingError>, call: Node, paths: seq<seq<string>>)
    ensures var e := base + MutationErrors(call, paths);
      |e| == |base| + |paths| && e[..|base|] == base &&
      forall i :: 0 <= i < |paths| ==> e[|base| + i] == FromNode(MutationMessage(paths[i]), call)
  {
    var e := base + MutationErrors(call, paths);
    assert e[..|base|] == base;
  }

  lemma {:induction false} CallAllPreserves(host: Host, fns: seq<Node>, args: seq<seq<Value>>, st: State, acc: seq<Value>)
    requires HostPreserves(host)
    ensures Preserves(st, CallAll(host, fns, args, st, acc).state)
    decreases |fns|
  {
    if fns != [] {
      var s := host.evaluateFnNode(fns[0], args, st);
      if s.result.Ok? {
        CallAllPreserves(host, fns[1..], args, s.state, acc + s.result.value);
        PreservesTrans(st, s.state, CallAll(host, fns[1..], args, s.state, acc + s.result.value).state);
      }
    }
  }

  /** Each callback's return values land after the ones before it: the run
      does not depend on what was accumulated, which only comes in front. */
  lemma {:induction false} CallAllCollects(host: Host, fns: seq<Node>, args: seq<seq<Value>>, st: State, acc: seq<Value>)
    ensures var r := CallAll(host, fns, args, st, acc);
      r.result.Ok? ==> acc <= r.result.value
    ensures fns == [] ==> CallAll(host, fns, args, st, acc) == Step(Ok(acc), st)
    ensures var r, empty := CallAll(host, fns, args, st, acc), CallAll(host, fns, args, st, []);
      r.state == empty.state && r.result.Ok? == empty.result.Ok? &&
      (r.result.Ok? ==> r.result.value == acc + empty.result.value) &&
      (r.result.Throw? ==> r.result == empty.result)
    decreases |fns|
  {
    if fns != [] {
      var s := host.evaluateFnNode(fns[0], args, st);
      if s.result.Ok? {
        var v := s.result.value;
        CallAllCollects(host, fns[1..], args, s.state, acc + v);
        CallAllCollects(host, fns[1..], args, s.state, [] + v);
        var rest := CallAll(host, fns[1..], args, s.state, []);
        if rest.result.Ok? {
          assert acc + (v + rest.result.value) == (acc + v) + rest.result.value;
        }
      }
    }
  }

  lemma ResolveOptionPreserves(host: Host, n: Option<Node>, st: State)
    requires HostPreserves(host)
    ensures Preserves(st, Resolve(host, n, st).state)
  {
    if n.Some? {
      ResolvePreserves(host, n.value, st);
    }
  }

  lemma {:induction false} FoldArgsPreserves(host: Host, args: seq<Node>, index: nat, skip: nat, arr: seq<Value>, st: State)
    requires HostPreserves(host)
    ensures Preserves(st, FoldArgs(host, args, index, skip, arr, st).state)
    decreases |args|
  {
    if args != [] {
      if index < skip {
        FoldArgsPreserves(host, args[1..], index + 1, skip, arr, st);
      } else if !args[0].Spread? {
        var v := ResolveNode(host, args[0], st);
        ResolvePreserves(host, args[0], st);
        if v.result.Ok? {
          var s := v.state.(heap := SetKey(v.state.heap, arr, AnyString, v.result.value));
          FoldArgsPreserves(host, args[1..], index + 1, skip, arr, s);
          PreservesTrans(st, s, FoldArgs(host, args[1..], index + 1, skip, arr, s).state);
        }
      }
    }
  }

  /** A successful fold gives the receiver back. */
  lemma {:induction false} FoldArgsGivesReceiver(host: Host, args: seq<Node>, index: nat, skip: nat, arr: seq<Value>, st: State)
    ensures var r := FoldArgs(host, args, index, skip, arr, st);
      r.result.Ok? ==> r.result.value == arr
    decreases |args|
  {
    if args != [] {
      if index < skip {
        FoldArgsGivesReceiver(host, args[1..], index + 1, skip, arr, st);
      } else if !args[0].Spread? {
        var v := ResolveNode(host, args[0], st);
        if v.result.Ok? {
          FoldArgsGivesReceiver(host, args[1..], index + 1, skip, arr, v.state.(heap := SetKey(v.state.heap, arr, AnyString, v.result.value)));
        }
      }
    }
  }

  /** Past the skipped positions, where the fold starts counting does not matter. */
  lemma {:induction false} FoldArgsPastSkip(host: Host, args: seq<Node>, i: nat, skip: nat, j: nat, skip': nat, arr: seq<Value>, st: State)
    requires skip <= i && skip' <= j
    ensures FoldArgs(host, args, i, skip, arr, st) == FoldArgs(host, args, j, skip', arr, st)
    decreases |args|
  {
    if args != [] && !args[0].Spread? {
      var v := ResolveNode(host, args[0], st);
      if v.result.Ok? {
        FoldArgsPastSkip(host, args[1..], i + 1, skip, j + 1, skip', arr, v.state.(heap := SetKey(v.state.heap, arr, AnyString, v.result.value)));
      }
    }
  }

  /** `splice` folds its arguments after the first two exactly as `push` would
      fold those alone: the start and delete count are never resolved, and may
      even be spreads. */
  lemma SpliceSkipsTwo(host: Host, args: seq<Node>, arr: seq<Value>, st: State)
    ensures |args| >= 2 ==> FoldArgs(host, args, 0, 2, arr, st) == FoldArgs(host, args[2..], 0, 0, arr, st)
    ensures |args| < 2 ==> FoldArgs(host, args, 0, 2, arr, st) == Step(Ok(arr), st)
  {
    if |args| >= 2 {
      assert args[1..][1..] == args[2..];
      FoldArgsPastSkip(host, args[2..], 2, 2, 0, 0, arr, st);
    } else if |args| == 1 {
      assert args[1..] == [];
    }
  }

  /** A spread argument that is not skipped throws `TODO`, whatever follows it. */
  lemma SpreadArgThrows(host: Host, args: seq<Node>, index: nat, skip: nat, arr: seq<Value>, st: State)
    requires args != [] && args[0].Spread? && skip <= index
    ensures FoldArgs(host, args, index, skip, arr, st) == Step(Throw(SpreadArgErr), st)
  {
  }

  lemma MutatingMethodPreserves(host: Host, call: Node, st: State)
    requires HostPreserves(host) && IsMemberCall(call)
    ensures Preserves(st, MutatingMethod(host, call, st).state)
  {
    ResolvePreserves(host, call.callee.target, st);
  }

  lemma CallbackRunPreserves(host: Host, call: Node, st: State)
    requires HostPreserves(host) && IsMemberCall(call)
    ensures Preserves(st, CallbackRun(host, call, st).state)
  {
    var a := ResolveNode(host, call.callee.target, st);
    ResolvePreserves(host, call.callee.target, st);
    if a.result.Ok? {
      var receiver := a.result.value;
      var element := GetKey(a.state.heap, receiver, AnyString);
      var c := Resolve(host, FirstArg(call), a.state);
      ResolveOptionPreserves(host, FirstArg(call), a.state);
      PreservesTrans(st, a.state, c.state);
      if c.result.Ok? {
        var args := [element, Index, receiver];
        CallAllPreserves(host, FnCallbacks(c.result.value), args, c.state, []);
        PreservesTrans(st, c.state, CallAll(host, FnCallbacks(c.result.value), args, c.state, []).state);
      }
    }
  }

  lemma ReductionPreserves(host: Host, call: Node, st: State)
    requires HostPreserves(host) && IsMemberCall(call)
    ensures Preserves(st, ReductionOf(host, call, st).state)
  {
    var a := ResolveNode(host, call.callee.target, st);
    ResolvePreserves(host, call.callee.target, st);
    if a.result.Ok? && |call.arguments| > 1 {
      ResolvePreserves(host, call.arguments[1], a.state);
      PreservesTrans(st, a.state, ResolveNode(host, call.arguments[1], a.state).state);
    }
  }

  lemma ReducePreserves(host: Host, call: Node, st: State)
    requires HostPreserves(host) && IsMemberCall(call)
    ensures Preserves(st, ReduceHandler(host, call, st).state)
    ensures Preserves(st, ReduceRightHandler(host, call, st).state)
  {
    var red := ReductionOf(host, call, st);
    ReductionPreserves(host, call, st);
    if red.result.Ok? {
      var acc := red.result.value.accumulator;
      var c := Resolve(host, FirstArg(call), red.state);
      ResolveOptionPreserves(host, FirstArg(call), red.state);
      PreservesTrans(st, red.state, c.state);
      if c.result.Ok? {
        var args := [acc, acc, Index, red.result.value.receiver];
        CallAllPreserves(host, FnCallbacks(c.result.value), args, c.state, []);
        PreservesTrans(st, c.state, CallAll(host, FnCallbacks(c.result.value), args, c.state, []).state);
      }
      if |call.arguments| > 0 && IsFnNode(call.arguments[0]) {
        var args := [acc, acc, Index, red.result.value.receiver];
        PreservesTrans(st, red.state, host.evaluateFnNode(call.arguments[0], args, red.state).state);
      }
    }
  }

  /** Every handler keeps the analyser's state invariant, provided the collaborators do. */
  lemma HandlePreserves(host: Host, m: ArrayMethod, call: Node, st: State)
    requires HostPreserves(host) && IsMemberCall(call)
    ensures Preserves(st, Handle(host, m, call, st).state)
  {
    if Mutates(m) {
      MutatorPreserves(host, m, call, st);
    } else if m == Reduce || m == ReduceRight {
      ReducePreserves(host, call, st);
    } else {
      CallbackRunPreserves(host, call, st);
      var r := CallbackRun(host, call, st);
      if m == MapMethod && r.result.Ok? {
        assert Preserves(r.state, Alloc(r.state, ArrCell(r.result.value.returned)).0);
        PreservesTrans(st, r.state, Alloc(r.state, ArrCell(r.result.value.returned)).0);
      }
    }
  }

  lemma MutatorPreserves(host: Host, m: ArrayMethod, call: Node, st: State)
    requires HostPreserves(host) && IsMemberCall(call) && Mutates(m)
    ensures Preserves(st, Handle(host, m, call, st).state)
  {
    MutatorsReport(host, m, call, st);
  }

  /** Every method that goes through `mutatingMethod` keeps its report: the
      errors after the call start with the errors `mutatingMethod` left. */
  lemma MutatorsReport(host: Host, m: ArrayMethod, call: Node, st: State)
    requires HostPreserves(host) && IsMemberCall(call) && Mutates(m)
    ensures var a := MutatingMethod(host, call, st);
      var r := Handle(host, m, call, st);
      a.state.errors <= r.state.errors && Preserves(st, r.state)
  {
    var a := MutatingMethod(host, call, st);
    MutatingMethodPreserves(host, call, st);
    var r := Handle(host, m, call, st);
    if a.result.Ok? {
      match m
      case Fill =>
        ResolveOptionPreserves(host, FirstArg(call), a.state);
        PreservesTrans(st, a.state, Resolve(host, FirstArg(call), a.state).state);
      case Push | Shift | Unshift | Splice =>
        var skip := if m == Splice then 2 else 0;
        FoldArgsPreserves(host, call.arguments, 0, skip, a.result.value, a.state);
        PreservesTrans(st, a.state, FoldArgs(host, call.arguments, 0, skip, a.result.value, a.state).state);
      case _ =>
    }
  }

  /** The return shapes of the callback methods: `every`/`some` give
      `{true, false}`, `findIndex`/`findLastIndex` give `{undefined, ANY_STRING}`,
      `forEach` gives nothing, `find`/`findLast` the receiver's `ANY_STRING`
      possibilities, `filter` the receiver, `flatMap` the union of what the
      callbacks return. */
  lemma CallbackShapes(host: Host, m: ArrayMethod, call: Node, st: State)
    requires IsMemberCall(call) && !Mutates(m) && m != Reduce && m != ReduceRight && m != MapMethod
    ensures var a := ResolveNode(host, call.callee.target, st);
      var r := Handle(host, m, call, st);
      r.result.Ok? ==>
        a.result.Ok? &&
        (m in {Every, SomeMethod} ==> r.result.value == [Bool(true), Bool(false)]) &&
        (m in {FindIndex, FindLastIndex} ==> r.result.value == [Undefined, AnyStr]) &&
        (m == ForEach ==> r.result.value == []) &&
        (m in {Find, FindLast} ==> r.result.value == GetKey(a.state.heap, a.result.value, AnyString)) &&
        (m == Filter ==> r.result.value == a.result.value) &&
        (m == FlatMap ==> CallbackRun(host, call, st).result.Ok? && r.result.value == CallbackRun(host, call, st).result.value.returned)
  {
  }

  /** The return shapes of the mutating methods: `push`, `shift` and `unshift`
      give `[ANY_STRING]`, `pop` the receiver's `ANY_STRING` possibilities, and
      `copyWithin`, `fill`, `reverse`, `sort` and `splice` the receiver itself. */
  lemma MutatorShapes(host: Host, m: ArrayMethod, call: Node, st: State)
    requires IsMemberCall(call) && Mutates(m)
    ensures var a := ResolveNode(host, call.callee.target, st);
      var r := Handle(host, m, call, st);
      r.result.Ok? ==>
        a.result.Ok? &&
        (m in {Push, Shift, Unshift} ==> r.result.value == [AnyStr]) &&
        (m == Pop ==> r.result.value == GetKey(a.state.heap, a.result.value, AnyString)) &&
        (m in {CopyWithin, Fill, Reverse, Sort, Splice} ==> r.result.value == a.result.value)
  {
    var mm := MutatingMethod(host, call, st);
    if m == Splice && mm.result.Ok? {
      FoldArgsGivesReceiver(host, call.arguments, 0, 2, mm.result.value, mm.state);
    }
  }

  /** `map` gives one new array holding everything the callbacks return. */
  lemma MapShape(host: Host, call: Node, st: State)
    requires IsMemberCall(call)
    ensures var r := Handle(host, MapMethod, call, st);
      var run := CallbackRun(host, call, st);
      r.result.Ok? ==>
        run.result.Ok? && r.result.value == [Ref(|run.state.heap|)] &&
        r.state.heap == run.state.heap + [ArrCell(run.result.value.returned)]
  {
  }

  /** A callback method whose first argument may be no function calls nothing:
      its state is the state after resolving the receiver and that argument. */
  lemma NoCallbackCallsNothing(host: Host, call: Node, st: State)
    requires IsMemberCall(call)
    ensures var a := ResolveNode(host, call.callee.target, st);
      var run := CallbackRun(host, call, st);
      a.result.Ok? && Resolve(host, FirstArg(call), a.state).result.Ok? &&
      FnCallbacks(Resolve(host, FirstArg(call), a.state).result.value) == [] ==>
        run.result.Ok? && run.result.value.returned == [] &&
        run.state == Resolve(host, FirstArg(call), a.state).state
  {
  }

  /** `reduceRight` calls its first argument as written and throws when that is
      not a function node. */
  lemma ReduceRightNeedsFunction(host: Host, call: Node, st: State)
    requires IsMemberCall(call)
    ensures var red := ReductionOf(host, call, st);
      red.result.Ok? && (|call.arguments| == 0 || !IsFnNode(call.arguments[0])) ==>
        ReduceRightHandler(host, call, st) == Step(Throw(NotAFunctionErr), red.state)
  {
  }

  /** Possibilities that are not array methods contribute nothing. */
  lemma {:induction false} DispatchSkipsOthers(host: Host, call: Node, ps: seq<Value>, st: State, acc: seq<Value>)
    requires IsMemberCall(call)
    requires forall i :: 0 <= i < |ps| ==> !(ps[i].Builtin? && ps[i].intrinsic.ArrayProto?)
    ensures Dispatch(host, call, ps, st, acc) == Step(Ok(acc), st)
    decreases |ps|
  {
    if ps != [] {
      assert forall i :: 0 <= i < |ps| - 1 ==> ps[1..][i] == ps[i + 1];
      DispatchSkipsOthers(host, call, ps[1..], st, acc);
    }
  }

  /** The handler results are a union: dispatching over `ps + qs` is
      dispatching over `ps` and then over `qs` from where it left off. */
  lemma {:induction false} DispatchAppend(host: Host, call: Node, ps: seq<Value>, qs: seq<Value>, st: State, acc: seq<Value>)
    requires IsMemberCall(call)
    ensures var d := Dispatch(host, call, ps, st, acc);
      Dispatch(host, call, ps + qs, st, acc) ==
        if d.result.Throw? then d else Dispatch(host, call, qs, d.state, d.result.value)
    decreases |ps|
  {
    if ps == [] {
      assert ps + qs == qs;
    } else {
      assert (ps + qs)[0] == ps[0] && (ps + qs)[1..] == ps[1..] + qs;
      if ps[0].Builtin? && ps[0].intrinsic.ArrayProto? {
        var h := Handle(host, ps[0].intrinsic.am, call, st);
        if h.result.Ok? {
          DispatchAppend(host, call, ps[1..], qs, h.state, acc + h.result.value);
        }
      } else {
        DispatchAppend(host, call, ps[1..], qs, st, acc);
      }
    }
  }

  lemma {:induction false} DispatchPreserves(host: Host, call: Node, ps: seq<Value>, st: State, acc: seq<Value>)
    requires HostPreserves(host) && IsMemberCall(call)
    ensures Preserves(st, Dispatch(host, call, ps, st, acc).state)
    decreases |ps|
  {
    if ps != [] {
      if ps[0].Builtin? && ps[0].intrinsic.ArrayProto? {
        var h := Handle(host, ps[0].intrinsic.am, call, st);
        HandlePreserves(host, ps[0].intrinsic.am, call, st);
        if h.result.Ok? {
          DispatchPreserves(host, call, ps[1..], h.state, acc + h.result.value);
          PreservesTrans(st, h.state, Dispatch(host, call, ps[1..], h.state, acc + h.result.value).state);
        }
      } else {
        DispatchPreserves(host, call, ps[1..], st, acc);
      }
    }
  }

  /** `arrayCallbackMethod` ignores a callee that is no member expression, and
      keeps the analyser's state invariant. */
  lemma ArrayCallbackRules(host: Host, call: Node, st: State)
    requires call.Call?
    ensures !call.callee.Member? ==> ArrayCallback(host, call, st) == Step(Ok([]), st)
    ensures HostPreserves(host) ==> Preserves(st, ArrayCallback(host, call, st).state)
  {
    if HostPreserves(host) && call.callee.Member? {
      var c := ResolveNode(host, call.callee, st);
      ResolvePreserves(host, call.callee, st);
      if c.result.Ok? {
        DispatchPreserves(host, call, c.result.value, c.state, []);
        PreservesTrans(st, c.state, Dispatch(host, call, c.result.value, c.state, []).state);
      }
    }
  }

  /** `a.push(2)` where `a` is the global array at address 0: one error naming
      `a`, anchored at the call, the `2` joins the array's element
      possibilities, and the call gives `[ANY_STRING]`. */
  lemma PushExample(host: Host, st: State, xs: seq<Value>)
    requires |st.currentRefs| > 0 && "a" in st.currentRefs[0].refs && st.currentRefs[0].refs["a"] == [Ref(0)]
    requires 0 in st.globals && st.globals[0] == ["a"]
    requires |st.heap| > 0 && st.heap[0] == ArrCell(xs)
    ensures var call := Call(Loc(0, 9), Member(NoLoc, Id("a"), Id("push"), false), [Literal(NoLoc, LNum(2), "2")]);
      var r := Handle(host, Push, call, st);
      r.result == Ok([AnyStr]) &&
      r.state == st.(heap := st.heap[0 := ArrCell(xs + [Num(2)])],
                     errors := st.errors + [LintingError("Can't call mutating array instance method on a", Some(0), Some(9))])
  {
    var two := Literal(NoLoc, LNum(2), "2");
    var call := Call(Loc(0, 9), Member(NoLoc, Id("a"), Id("push"), false), [two]);
    InnermostWins(host, NoLoc, "a", st, [Ref(0)]);
    var err := LintingError("Can't call mutating array instance method on a", Some(0), Some(9));
    OneGlobalReport(call, st.globals, ["a"]);
    MessageForA();
    var st1 := st.(errors := st.errors + [err]);
    assert MutatingMethod(host, call, st) == Step(Ok([Ref(0)]), st1);
    PushFold(host, st1, xs);
    assert Handle(host, Push, call, st) == Append(host, call, st);
  }

  /** The pushed literal is written as element of the one array the receiver may be. */
  lemma PushFold(host: Host, st: State, xs: seq<Value>)
    requires |st.heap| > 0 && st.heap[0] == ArrCell(xs)
    ensures FoldArgs(host, [Literal(NoLoc, LNum(2), "2")], 0, 0, [Ref(0)], st) ==
      Step(Ok([Ref(0)]), st.(heap := st.heap[0 := ArrCell(xs + [Num(2)])]))
  {
    var two := Literal(NoLoc, LNum(2), "2");
    assert ResolveNode(host, two, st) == Step(Ok([Num(2)]), st);
    assert SetKey(st.heap, [Ref(0)], AnyString, [Num(2)]) == st.heap[0 := ArrCell(xs + [Num(2)])] by {
      assert [Ref(0)][1..] == [];
    }
    assert [two][1..] == [];
  }

  lemma OneGlobalReport(call: Node, globals: map<nat, seq<string>>, path: seq<string>)
    requires 0 in globals && globals[0] == path
    ensures MutationErrors(call, GlobalPaths(globals, [Ref(0)])) == [FromNode(MutationMessage(path), call)]
  {
    assert [Ref(0)][1..] == [];
    assert GlobalPaths(globals, [Ref(0)]) == [path];
  }

  lemma MessageForA()
    ensures MutationMessage(["a"]) == "Can't call mutating array instance method on a"
  {
    DeepReferences.WordExamples();
    DeepReferences.PathToStringExtend([], "a");
  }
}
