/** `evaluateFunction` (functions.ts): binding a call's argument References to
    the callee's parameters, pushing that frame, walking the body and popping it. */
module Functions {
  import opened Common
  import opened Syntax
  import opened Values
  import opened Resolver

  const DestructuringErr := "TODO: destructuring"

  const MissingArgumentPrefix: string := "Missing argument at index "

  function MissingArgumentErr(i: nat): string
  {
    MissingArgumentPrefix + NatToString(i)
  }

  /** Whether parameter `i` stops the binding loop: it is a pattern, or no
      argument sits at its index. */
  predicate Fails(params: seq<Node>, args: seq<seq<Value>>, i: nat)
    requires i < |params|
  {
    !params[i].Identifier? || i >= |args|
  }

  /** The error the binding loop throws at parameter `i`. */
  function ErrorAt(params: seq<Node>, i: nat): string
    requires i < |params|
  {
    if !params[i].Identifier? then DestructuringErr else MissingArgumentErr(i)
  }

  /** `argumentStack` after the `forEach` over `params`: each identifier parameter
      bound to the argument at its index, a later parameter of the same name
      replacing an earlier one. */
  function ArgumentStack(params: seq<Node>, args: seq<seq<Value>>): Outcome<map<string, seq<Value>>>
    decreases |params|
  {
    if params == [] then Ok(map[])
    else
      var n := |params| - 1;
      match ArgumentStack(params[..n], args)
      case Throw(m) => Throw(m)
      case Ok(stack) =>
        if Fails(params, args, n) then Throw(ErrorAt(params, n))
        else Ok(stack[params[n].name := args[n]])
  }

  /** The `forEach` over the parameters. */
  method BuildArgumentStack(params: seq<Node>, args: seq<seq<Value>>) returns (r: Outcome<map<string, seq<Value>>>)
    ensures r == ArgumentStack(params, args)
  {
    var argumentStack: map<string, seq<Value>> := map[];
    var index := 0;
    while index < |params|
      invariant 0 <= index <= |params|
      invariant ArgumentStack(params[..index], args) == Ok(argumentStack)
    {
      var param := params[index];
      assert params[..index + 1][..index] == params[..index];
      if !param.Identifier? || index >= |args| {
        ArgumentStackOk(params[..index], args);
        assert forall j :: 0 <= j < index ==> Fails(params[..index], args, j) == Fails(params, args, j);
        FirstFailureThrown(params, args, index);
        if !param.Identifier? {
          return Throw(DestructuringErr);
        }
        return Throw(MissingArgumentErr(index));
      }
      argumentStack := argumentStack[param.name := args[index]];
      index := index + 1;
    }
    assert params[..index] == params;
    r := Ok(argumentStack);
  }

  /** The state the body walk starts in: the call's frame in front of the stack. */
  function Entered(st: State, fn: Node, stack: map<string, seq<Value>>): State
  {
    st.(currentRefs := [Frame(Some(fn), stack)] + st.currentRefs)
  }

  /** `currentRefs.shift()`. */
  function Shift(frames: seq<Frame>): seq<Frame>
  {
    if frames == [] then [] else frames[1..]
  }

  /** `evaluateFunction(state, args)`: a parameter error throws before anything
      changes; a body that throws leaves the frame on the stack (there is no
      `finally`); otherwise the frame is shifted off and the body's return
      Reference is the result. */
  function Call(host: Host, fn: Node, args: seq<seq<Value>>, st: State): Step
    requires IsFnNode(fn)
  {
    match ArgumentStack(fn.params, args)
    case Throw(m) => Step(Throw(m), st)
    case Ok(stack) =>
      var s := host.noMutationRecursive(fn, Entered(st, fn, stack));
      if s.result.Throw? then s
      else Step(s.result, s.state.(currentRefs := Shift(s.state.currentRefs)))
  }

  method EvaluateFunction(host: Host, fn: Node, args: seq<seq<Value>>, st: State) returns (r: Step)
    requires IsFnNode(fn)
    ensures r == Call(host, fn, args, st)
  {
    var argumentStack := BuildArgumentStack(fn.params, args);
    if argumentStack.Throw? {
      return Step(Throw(argumentStack.message), st);
    }
    var s := st.(currentRefs := [Frame(Some(fn), argumentStack.value)] + st.currentRefs);
    var returned := host.noMutationRecursive(fn, s);
    if returned.result.Throw? {
      return returned;
    }
    var frames := returned.state.currentRefs;
    if |frames| > 0 {
      frames := frames[1..];
    }
    r := Step(returned.result, returned.state.(currentRefs := frames));
  }

  // ---------------------------------------------------------------------------
  // properties

  /** The loop succeeds exactly when every parameter is an identifier with an argument at its index. */
  lemma {:induction false} ArgumentStackOk(params: seq<Node>, args: seq<seq<Value>>)
    ensures ArgumentStack(params, args).Ok? <==> forall i :: 0 <= i < |params| ==> !Fails(params, args, i)
    decreases |params|
  {
    if params != [] {
      var n := |params| - 1;
      ArgumentStackOk(params[..n], args);
      assert forall i :: 0 <= i < n ==> Fails(params[..n], args, i) == Fails(params, args, i);
    }
  }

  /** It throws the error of the first parameter that stops it. */
  lemma {:induction false} FirstFailureThrown(params: seq<Node>, args: seq<seq<Value>>, k: nat)
    requires k < |params| && Fails(params, args, k)
    requires forall j :: 0 <= j < k ==> !Fails(params, args, j)
    ensures ArgumentStack(params, args) == Throw(ErrorAt(params, k))
    decreases |params|
  {
    var n := |params| - 1;
    assert forall i :: 0 <= i < n ==> Fails(params[..n], args, i) == Fails(params, args, i);
    if k < n {
      FirstFailureThrown(params[..n], args, k);
    } else {
      ArgumentStackOk(params[..n], args);
    }
  }

  /** On success the frame binds exactly the parameter names, each to the
      argument at the last index that names it. */
  lemma {:induction false} ArgumentStackBinds(params: seq<Node>, args: seq<seq<Value>>)
    requires ArgumentStack(params, args).Ok?
    ensures var stack := ArgumentStack(params, args).value;
      (forall name :: name in stack <==> exists i :: 0 <= i < |params| && params[i].Identifier? && params[i].name == name) &&
      forall i :: (0 <= i < |params| && params[i].Identifier? &&
                   (forall j :: i < j < |params| ==> !(params[j].Identifier? && params[j].name == params[i].name))) ==>
        params[i].name in stack && stack[params[i].name] == args[i]
    decreases |params|
  {
    if params != [] {
      var n := |params| - 1;
      var prefix := params[..n];
      assert forall i :: 0 <= i < n ==> prefix[i] == params[i];
      ArgumentStackBinds(prefix, args);
      var stack := ArgumentStack(params, args).value;
      var prior := ArgumentStack(prefix, args).value;
      assert stack == prior[params[n].name := args[n]];
      forall i | 0 <= i < |params| && params[i].Identifier? &&
                 (forall j :: i < j < |params| ==> !(params[j].Identifier? && params[j].name == params[i].name))
        ensures params[i].name in stack && stack[params[i].name] == args[i]
      {
        if i < n {
          assert forall j :: i < j < n ==> prefix[j] == params[j];
        }
      }
    }
  }

  /** Arguments past the last parameter are ignored. */
  lemma {:induction false} ExtraArgumentsIgnored(params: seq<Node>, args: seq<seq<Value>>, extra: seq<seq<Value>>)
    requires |params| <= |args|
    ensures ArgumentStack(params, args + extra) == ArgumentStack(params, args)
    decreases |params|
  {
    if params != [] {
      var n := |params| - 1;
      ExtraArgumentsIgnored(params[..n], args, extra);
      assert (args + extra)[n] == args[n];
    }
  }

  /** Inside the body a parameter hides every outer binding of its name, and
      every other name resolves as it did at the call site. */
  lemma ParametersShadow(st: State, fn: Node, stack: map<string, seq<Value>>, name: string)
    ensures LookupName(Entered(st, fn, stack).currentRefs, name) ==
      if name in stack then Some(stack[name]) else LookupName(st.currentRefs, name)
  {
    var frames := Entered(st, fn, stack).currentRefs;
    assert frames[1..] == st.currentRefs;
  }

  /** A parameter error throws before the stack is touched. */
  lemma ParameterErrorThrows(host: Host, fn: Node, args: seq<seq<Value>>, st: State)
    requires IsFnNode(fn) && ArgumentStack(fn.params, args).Throw?
    ensures Call(host, fn, args, st) == Step(Throw(ArgumentStack(fn.params, args).message), st)
  {
  }

  /** With collaborators that keep the stack, a call that returns gives the
      body's return Reference and leaves the stack as it found it; a body that
      throws leaves the call's frame in front. */
  lemma CallRestoresStack(host: Host, fn: Node, args: seq<seq<Value>>, st: State)
    requires HostPreserves(host) && IsFnNode(fn) && ArgumentStack(fn.params, args).Ok?
    ensures var stack := ArgumentStack(fn.params, args).value;
      var body := host.noMutationRecursive(fn, Entered(st, fn, stack));
      var r := Call(host, fn, args, st);
      r.result == body.result &&
      (r.result.Ok? ==> r.state.currentRefs == st.currentRefs && Preserves(st, r.state)) &&
      (r.result.Throw? ==> r.state.currentRefs == [Frame(Some(fn), stack)] + st.currentRefs)
  {
    var stack := ArgumentStack(fn.params, args).value;
    var e := Entered(st, fn, stack);
    assert Preserves(e, host.noMutationRecursive(fn, e).state);
  }
}
