/** The flag-based linter: every name in scope has a record of three flags (does
    it reach global state, is it a mutating function, is it the `Object`
    constructor). A stack of block scopes holds those records while the program
    is walked, and assignments, updates and calls on flagged names are reported.

    A record is an index into an arena of records, so that two names can share
    one record, as they do in the source when a declaration stores the very
    record its initialiser found. */
module FlagLinter {
  import opened Common
  import opened Syntax

  /** `NON_MUTATING_OBJECT_PROTOTYPE_METHODS`. */
  const NonMutatingObjectMethods: set<string> := {
    "create", "entries", "fromEntries", "getOwnPropertyDescriptor", "getOwnPropertyDescriptors",
    "getOwnPropertyNames", "getOwnPropertySymbols", "getPrototypeOf", "groupBy", "hasOwn", "is",
    "isExtensible", "isFrozen", "isSealed", "keys", "values"
  }

  /** `NON_MUTATING_ARRAY_INSTANCE_METHODS`. */
  const NonMutatingArrayMethods: set<string> := {
    "at", "concat", "entries", "every", "filter", "find", "findIndex", "findLast", "findLastIndex",
    "flat", "flatMap", "forEach", "includes", "indexOf", "join", "keys", "lastIndexOf", "map",
    "reduce", "reduceRight", "slice", "some", "toLocaleString", "toReversed", "toSorted",
    "toSpliced", "toString", "values", "with"
  }

  const MutationErr := "Invalid mutation"
  const UnhandledErr := "Unhandled case"

  // ---------------------------------------------------------------------------
  // flags

  /** `IdentFlags`. */
  datatype Flags = Flags(globallyDependent: bool, mutationFunction: bool, objectPrototype: bool)

  /** `NO_FLAGS`, copied afresh wherever the source spreads it. */
  const NoFlags := Flags(false, false, false)

  /** `{ isGloballyDependent: true }`, the only record the walk writes back. */
  const GlobalFlag := Flags(true, false, false)

  /** The flags a name bound nowhere gets: global, and the `Object` prototype
      exactly when the name is `Object`. */
  function UnboundFlags(name: string): Flags
  {
    Flags(true, false, name == "Object")
  }

  /** `a` is below `b`: every flag set in `a` is set in `b`. */
  predicate Below(a: Flags, b: Flags)
  {
    (a.globallyDependent ==> b.globallyDependent) &&
    (a.mutationFunction ==> b.mutationFunction) &&
    (a.objectPrototype ==> b.objectPrototype)
  }

  /** `mergeFlags(base, override)`: every field `override` sets to true is set
      in the result; a false (or absent) field of `override` is skipped. */
  function Merge(base: Flags, override: Flags): (r: Flags)
    ensures Below(base, r) && Below(override, r)
    ensures forall c :: Below(base, c) && Below(override, c) ==> Below(r, c)
  {
    Flags(base.globallyDependent || override.globallyDependent,
          base.mutationFunction || override.mutationFunction,
          base.objectPrototype || override.objectPrototype)
  }

  // ---------------------------------------------------------------------------
  // scopes

  /** `Scope`: names to records of the arena. */
  type Scope = map<string, nat>

  /** Every record a scope names exists. */
  predicate ScopesIn(scopes: seq<Scope>, n: nat)
  {
    forall i, name :: 0 <= i < |scopes| && name in scopes[i] ==> scopes[i][name] < n
  }

  lemma ScopesInPrefix(scopes: seq<Scope>, n: nat, k: nat)
    requires ScopesIn(scopes, n) && k <= |scopes|
    ensures ScopesIn(scopes[..k], n)
  {
    forall i, name | 0 <= i < k && name in scopes[..k][i]
      ensures scopes[..k][i][name] < n
    {
      assert scopes[..k][i] == scopes[i];
    }
  }

  /** `getLocalIdentifier`: the record of the innermost (last) scope that binds
      `name`, and nothing when no scope does. */
  function LocalIdentifier(name: string, scopes: seq<Scope>): (r: Option<nat>)
    ensures r.None? <==> forall i :: 0 <= i < |scopes| ==> name !in scopes[i]
    ensures r.Some? ==> exists i :: (0 <= i < |scopes| && name in scopes[i] && scopes[i][name] == r.value &&
                                     forall j :: i < j < |scopes| ==> name !in scopes[j])
  {
    if scopes == [] then None
    else if name in scopes[|scopes| - 1] then Some(scopes[|scopes| - 1][name])
    else
      var outer := scopes[..|scopes| - 1];
      var r := LocalIdentifier(name, outer);
      assert forall i :: 0 <= i < |outer| ==> outer[i] == scopes[i];
      r
  }

  /** The flags `name` resolves to: its innermost binding's record, or the
      flags of a name bound nowhere. */
  function Bound(name: string, scopes: seq<Scope>, records: seq<Flags>): Flags
    requires ScopesIn(scopes, |records|)
  {
    match LocalIdentifier(name, scopes)
    case Some(id) => records[id]
    case None => UnboundFlags(name)
  }

  // ---------------------------------------------------------------------------
  // getDeepFlags

  /** What `getDeepFlags` returns: a record of the arena itself, or a fresh one. */
  datatype Got = Stored(id: nat) | Fresh(flags: Flags)

  function Value(g: Got, records: seq<Flags>): Flags
    requires g.Stored? ==> g.id < |records|
  {
    if g.Stored? then records[g.id] else g.flags
  }

  /** The `Identifier` case of `getDeepFlags`: the innermost scope's own record
      when it binds the name; otherwise a fresh copy of what the outer scopes
      give, and for a name no scope binds the global flags. */
  function IdentFlags(name: string, scopes: seq<Scope>, records: seq<Flags>): (r: Got)
    requires ScopesIn(scopes, |records|)
    ensures r.Stored? ==> r.id < |records|
  {
    if scopes == [] then Fresh(Merge(NoFlags, UnboundFlags(name)))
    else
      var last := scopes[|scopes| - 1];
      if name in last then Stored(last[name])
      else
        ScopesInPrefix(scopes, |records|, |scopes| - 1);
        Fresh(Merge(NoFlags, Value(IdentFlags(name, scopes[..|scopes| - 1], records), records)))
  }

  /** The node kinds `getDeepFlags` has a case for. */
  predicate Handled(ex: Node)
  {
    ex.Literal? || ex.Identifier? || ex.ArrayExpr? || ex.ObjectExpr? || ex.Spread? ||
    ex.Property? || ex.Member? || ex.Call?
  }

  /** `getDeepFlags(ex, scopes)`: literals give no flags; arrays, objects and
      calls merge their parts' flags; a spread or property gives its operand's;
      a member expression gives its object's, and also marks a prototype
      mutation when the object is `Object` (or an alias of it) and the property
      is not a listed non-mutating method. Patterns and every other kind throw
      "Unhandled case". */
  function DeepFlags(ex: Node, scopes: seq<Scope>, records: seq<Flags>): (r: Outcome<Got>)
    requires ScopesIn(scopes, |records|)
    ensures r.Ok? && r.value.Stored? ==> r.value.id < |records|
    decreases Size(ex), 0
  {
    match ex
    case Literal(_, _, _) => Ok(Fresh(NoFlags))
    case Identifier(_, name) => Ok(IdentFlags(name, scopes, records))
    case ArrayExpr(_, es) =>
      PresentSize(es);
      (match MergeAll(Present(es), scopes, records, NoFlags)
       case Throw(m) => Throw(m)
       case Ok(f) => Ok(Fresh(f)))
    case ObjectExpr(_, ps) =>
      (match MergeAll(ps, scopes, records, NoFlags)
       case Throw(m) => Throw(m)
       case Ok(f) => Ok(Fresh(f)))
    case Spread(_, a) => DeepFlags(a, scopes, records)
    case Property(_, _, v, _) => DeepFlags(v, scopes, records)
    case Member(_, o, p, _) =>
      if o.Identifier? then
        var ident := Value(IdentFlags(o.name, scopes, records), records);
        if !ident.globallyDependent then Ok(Fresh(Merge(NoFlags, ident)))
        else
          var prototypeMutation := (ident.objectPrototype || o.name == "Object") &&
                                   !(p.Identifier? && p.name in NonMutatingObjectMethods);
          var flags := if prototypeMutation then Merge(NoFlags, Flags(false, true, true)) else NoFlags;
          Ok(Fresh(Merge(flags, ident)))
      else
        (match DeepFlags(o, scopes, records)
         case Throw(m) => Throw(m)
         case Ok(g) => Ok(Fresh(Merge(NoFlags, Value(g, records)))))
    case Call(_, c, args) =>
      var callee :=
        if c.Super? then Ok(NoFlags)
        else
          (match DeepFlags(c, scopes, records)
           case Throw(m) => Throw(m)
           case Ok(g) => Ok(Merge(NoFlags, Value(g, records))));
      (match callee
       case Throw(m) => Throw(m)
       case Ok(f) =>
         match MergeAll(args, scopes, records, f)
         case Throw(m) => Throw(m)
         case Ok(f') => Ok(Fresh(f')))
    case _ => Throw(UnhandledErr)
  }

  /** The `forEach` of `getDeepFlags` over an array's elements, an object's
      properties or a call's arguments: merges each part's flags into `acc`,
      the first part that throws ending it. */
  function MergeAll(ns: seq<Node>, scopes: seq<Scope>, records: seq<Flags>, acc: Flags): Outcome<Flags>
    requires ScopesIn(scopes, |records|)
    decreases SizeSeq(ns), 1
  {
    if ns == [] then Ok(acc)
    else
      SizeSeqSplit(ns);
      match DeepFlags(ns[0], scopes, records)
      case Throw(m) => Throw(m)
      case Ok(g) => MergeAll(ns[1..], scopes, records, Merge(acc, Value(g, records)))
  }

  /** `getDeepFlags` of an optional node: no node gives no flags. */
  function DeepFlagsOpt(ex: Option<Node>, scopes: seq<Scope>, records: seq<Flags>): (r: Outcome<Got>)
    requires ScopesIn(scopes, |records|)
    ensures r.Ok? && r.value.Stored? ==> r.value.id < |records|
  {
    match ex
    case None => Ok(Fresh(NoFlags))
    case Some(e) => DeepFlags(e, scopes, records)
  }

  // ---------------------------------------------------------------------------
  // setDeepFlags

  /** `setDeepFlags(ex, scopes, flags)`: merges `flags` into the record of the
      identifier at the root of a member chain, and into those of array
      pattern elements and rest elements. A name bound nowhere, and every other
      kind (an object pattern's properties included), changes nothing. */
  function SetFlags(ex: Node, scopes: seq<Scope>, records: seq<Flags>, f: Flags): (r: seq<Flags>)
    requires ScopesIn(scopes, |records|)
    ensures |r| == |records|
    decreases Size(ex), 0
  {
    match ex
    case Identifier(_, name) =>
      (match LocalIdentifier(name, scopes)
       case Some(id) => records[id := Merge(records[id], f)]
       case None => records)
    case Member(_, o, _, _) => SetFlags(o, scopes, records, f)
    case ObjectPattern(_, ps) => SetAll(ps, scopes, records, f)
    case ArrayPattern(_, es) =>
      PresentSize(es);
      SetAll(Present(es), scopes, records, f)
    case RestElement(_, a) => SetFlags(a, scopes, records, f)
    case _ => records
  }

  function SetAll(ns: seq<Node>, scopes: seq<Scope>, records: seq<Flags>, f: Flags): (r: seq<Flags>)
    requires ScopesIn(scopes, |records|)
    ensures |r| == |records|
    decreases SizeSeq(ns), 1
  {
    if ns == [] then records
    else
      SizeSeqSplit(ns);
      SetAll(ns[1..], scopes, SetFlags(ns[0], scopes, records, f), f)
  }

  // ---------------------------------------------------------------------------
  // the hooks

  /** The linter's state: the arena of records, the scope stack (innermost
      last) and the errors so far. */
  datatype LintState = LintState(records: seq<Flags>, scopes: seq<Scope>, errors: seq<LintingError>)

  predicate WellFormed(st: LintState)
  {
    ScopesIn(st.scopes, |st.records|)
  }

  /** `b` comes after `a`: no record is dropped and no error is taken back. */
  predicate Extends(a: LintState, b: LintState)
  {
    |a.records| <= |b.records| && a.errors <= b.errors
  }

  /** One program-level scope, no records, no errors. */
  const Start := LintState([], [map[]], [])

  /** `currentScope[name] = record`: the innermost scope binds `name` to `id`. */
  function Rebind(scopes: seq<Scope>, name: string, id: nat): (r: seq<Scope>)
    requires scopes != []
    ensures |r| == |scopes| && r[..|scopes| - 1] == scopes[..|scopes| - 1]
    ensures r[|scopes| - 1] == scopes[|scopes| - 1][name := id]
  {
    var scope: Scope := scopes[|scopes| - 1][name := id];
    scopes[|scopes| - 1 := scope]
  }

  /** `VariableDeclarator`: an identifier declarator binds its name, in the
      innermost scope, to what `getDeepFlags` gives for its initialiser: the
      record found itself, or a new record. Other declarators change nothing. */
  function Declare(st: LintState, n: Node): (r: Outcome<LintState>)
    requires WellFormed(st) && n.Declarator?
  {
    if !n.id.Identifier? || st.scopes == [] then Ok(st)
    else
      match DeepFlagsOpt(n.init, st.scopes, st.records)
      case Throw(m) => Throw(m)
      case Ok(g) =>
        match g
        case Stored(id) => Ok(st.(scopes := Rebind(st.scopes, n.id.name, id)))
        case Fresh(f) => Ok(st.(records := st.records + [f], scopes := Rebind(st.scopes, n.id.name, |st.records|)))
  }

  /** `AssignmentExpression`: an error spanning the assignment when the left
      side is globally dependent; then, when the right side is, the left side's
      bindings are marked globally dependent. */
  function Assign(st: LintState, n: Node): (r: Outcome<LintState>)
    requires WellFormed(st) && n.Assignment?
  {
    match DeepFlags(n.left, st.scopes, st.records)
    case Throw(m) => Throw(m)
    case Ok(l) =>
      var errors := if Value(l, st.records).globallyDependent then st.errors + [FromNode(MutationErr, n)]
                    else st.errors;
      match DeepFlags(n.right, st.scopes, st.records)
      case Throw(m) => Throw(m)
      case Ok(g) =>
        var records := if Value(g, st.records).globallyDependent then SetFlags(n.left, st.scopes, st.records, GlobalFlag)
                       else st.records;
        Ok(LintState(records, st.scopes, errors))
  }

  /** `UpdateExpression`: an error spanning the update when its argument is
      globally dependent. */
  function UpdateCheck(st: LintState, n: Node): (r: Outcome<LintState>)
    requires WellFormed(st) && n.Update?
  {
    match DeepFlags(n.argument, st.scopes, st.records)
    case Throw(m) => Throw(m)
    case Ok(g) =>
      Ok(st.(errors := if Value(g, st.records).globallyDependent then st.errors + [FromNode(MutationErr, n)]
                       else st.errors))
  }

  /** `CallExpression`: an error when the callee is a mutating function, and
      another when it is a method, not a listed non-mutating array method, of
      a globally dependent object. A `super` call is skipped. */
  function CallCheck(st: LintState, n: Node): (r: Outcome<LintState>)
    requires WellFormed(st) && n.Call?
  {
    var c := n.callee;
    if c.Super? then Ok(st)
    else
      match DeepFlags(c, st.scopes, st.records)
      case Throw(m) => Throw(m)
      case Ok(g) =>
        var errors := if Value(g, st.records).mutationFunction then st.errors + [FromNode(MutationErr, n)]
                      else st.errors;
        if !c.Member? then Ok(st.(errors := errors))
        else
          match DeepFlags(c.target, st.scopes, st.records)
          case Throw(m) => Throw(m)
          case Ok(o) =>
            if Value(o, st.records).globallyDependent &&
               !(c.property.Identifier? && c.property.name in NonMutatingArrayMethods)
            then Ok(st.(errors := errors + [FromNode(MutationErr, n)]))
            else Ok(st.(errors := errors))
  }

  /** `BlockStatement.enter`: push an empty scope. */
  function EnterBlock(st: LintState): LintState
  {
    st.(scopes := st.scopes + [map[]])
  }

  /** `BlockStatement.leave`: pop the innermost scope (nothing when none is left). */
  function LeaveBlock(st: LintState): LintState
  {
    if st.scopes == [] then st else st.(scopes := st.scopes[..|st.scopes| - 1])
  }

  /** The hooks that fire when the walk enters `n`. */
  function Visit(st: LintState, n: Node): Outcome<LintState>
    requires WellFormed(st)
  {
    match n
    case Declarator(_, _, _) => Declare(st, n)
    case Assignment(_, _, _) => Assign(st, n)
    case Block(_, _) => Ok(EnterBlock(st))
    case Update(_, _) => UpdateCheck(st, n)
    case Call(_, _, _) => CallCheck(st, n)
    case _ => Ok(st)
  }

  /** Declaring a name only touches the innermost scope; the other hooks leave
      the stack alone, except a block's entry. */
  lemma VisitShape(st: LintState, n: Node)
    requires WellFormed(st)
    ensures var r := Visit(st, n);
      r.Ok? ==> (WellFormed(r.value) && Extends(st, r.value) &&
                 (if n.Block? then r.value.scopes == st.scopes + [map[]]
                  else |r.value.scopes| == |st.scopes| &&
                       forall i :: 0 <= i < |st.scopes| - 1 ==> r.value.scopes[i] == st.scopes[i]))
  {
    var r := Visit(st, n);
    if r.Ok? {
      match n
      case Declarator(_, _, _) =>
        DeclareShape(st, n);
      case Assignment(_, _, _) =>
        assert st.errors <= r.value.errors;
      case Update(_, _) =>
      case Call(_, _, _) =>
        assert st.errors <= r.value.errors;
      case _ =>
    }
  }

  lemma DeclareShape(st: LintState, n: Node)
    requires WellFormed(st) && n.Declarator?
    ensures var r := Declare(st, n);
      r.Ok? ==> (WellFormed(r.value) && Extends(st, r.value) && r.value.errors == st.errors &&
                 |r.value.scopes| == |st.scopes| &&
                 forall i :: 0 <= i < |st.scopes| - 1 ==> r.value.scopes[i] == st.scopes[i])
  {
    var r := Declare(st, n);
    if r.Ok? && n.id.Identifier? && st.scopes != [] {
      var s := r.value;
      forall i, name | 0 <= i < |s.scopes| && name in s.scopes[i]
        ensures s.scopes[i][name] < |s.records|
      {
      }
    }
  }

  /** The walk from `n`, pre-order: the hooks of `n`, then its children, then a
      block's exit. A walk that returns keeps every scope but the innermost
      and the depth of the stack; a block's walk gives back the stack it found. */
  function Walk(st: LintState, n: Node): (r: Outcome<LintState>)
    requires WellFormed(st)
    ensures r.Ok? ==> (WellFormed(r.value) && Extends(st, r.value) && |r.value.scopes| == |st.scopes| &&
                       forall i :: 0 <= i < |st.scopes| - 1 ==> r.value.scopes[i] == st.scopes[i])
    ensures r.Ok? && n.Block? ==> r.value.scopes == st.scopes
    decreases Size(n), 0
  {
    ChildrenSmaller(n);
    VisitShape(st, n);
    match Visit(st, n)
    case Throw(m) => Throw(m)
    case Ok(s1) =>
      match WalkAll(s1, Children(n))
      case Throw(m) => Throw(m)
      case Ok(s2) =>
        if n.Block? then
          assert s2.scopes == st.scopes + [s2.scopes[|st.scopes|]];
          Ok(LeaveBlock(s2))
        else Ok(s2)
  }

  /** One step of `Walk`: a throwing hook ends it; otherwise the children are
      walked from the hooks' state and a block's exit follows. */
  lemma WalkSteps(st: LintState, n: Node)
    requires WellFormed(st)
    ensures Visit(st, n).Throw? ==> Walk(st, n) == Throw(Visit(st, n).message)
    ensures Visit(st, n).Ok? ==> WellFormed(Visit(st, n).value)
    ensures Visit(st, n).Ok? && WalkAll(Visit(st, n).value, Children(n)).Throw? ==>
      Walk(st, n) == WalkAll(Visit(st, n).value, Children(n))
    ensures Visit(st, n).Ok? && WalkAll(Visit(st, n).value, Children(n)).Ok? ==>
      var s2 := WalkAll(Visit(st, n).value, Children(n)).value;
      Walk(st, n) == Ok(if n.Block? then LeaveBlock(s2) else s2)
  {
    VisitShape(st, n);
  }

  function WalkAll(st: LintState, ns: seq<Node>): (r: Outcome<LintState>)
    requires WellFormed(st)
    ensures r.Ok? ==> (WellFormed(r.value) && Extends(st, r.value) && |r.value.scopes| == |st.scopes| &&
                       forall i :: 0 <= i < |st.scopes| - 1 ==> r.value.scopes[i] == st.scopes[i])
    decreases SizeSeq(ns), 1
  {
    if ns == [] then Ok(st)
    else
      SizeSeqSplit(ns);
      match Walk(st, ns[0])
      case Throw(m) => Throw(m)
      case Ok(s) => WalkAll(s, ns[1..])
  }

  /** `stopGlobalMutationLinter(program)`: the errors of the walk from one
      empty program-level scope; a throw anywhere ends it. */
  function Lint(program: Node): Outcome<seq<LintingError>>
  {
    match Walk(Start, program)
    case Throw(m) => Throw(m)
    case Ok(s) => Ok(s.errors)
  }

  /** `r` is what the method returned when the hooks gave `spec`, and `now` is
      the state it left. */
  predicate Follows(r: Outcome<()>, spec: Outcome<LintState>, now: LintState)
  {
    (spec.Ok? ==> r.Ok? && now == spec.value) && (spec.Throw? ==> r == Throw(spec.message))
  }

  // ---------------------------------------------------------------------------
  // the linter as it runs

  class GlobalMutationLinter {
    var records: seq<Flags>
    var scopes: seq<Scope>
    var errors: seq<LintingError>

    function State(): LintState
      reads this
    {
      LintState(records, scopes, errors)
    }

    predicate Valid()
      reads this
    {
      WellFormed(State())
    }

    constructor()
      ensures State() == Start && Valid()
    {
      records := [];
      scopes := [map[]];
      errors := [];
    }

    /** `mergeFlags` on a record of the arena, in place: every name bound to it sees the change. */
    method MergeFlags(id: nat, override: Flags)
      requires id < |records|
      modifies this
      ensures records == old(records)[id := Merge(old(records)[id], override)]
      ensures scopes == old(scopes) && errors == old(errors)
    {
      var base := records[id];
      if override.globallyDependent {
        base := base.(globallyDependent := true);
      }
      if override.mutationFunction {
        base := base.(mutationFunction := true);
      }
      if override.objectPrototype {
        base := base.(objectPrototype := true);
      }
      records := records[id := base];
    }

    method GetDeepFlags(ex: Node) returns (r: Outcome<Got>)
      requires Valid()
      ensures r == DeepFlags(ex, scopes, records)
      decreases Size(ex), 1
    {
      if !Handled(ex) {
        return Throw(UnhandledErr);
      }
      match ex
      case Literal(_, _, _) => r := Ok(Fresh(NoFlags));
      case Identifier(_, name) => r := Ok(IdentFlags(name, scopes, records));
      case ArrayExpr(_, _) => r := LiteralFlags(ex);
      case ObjectExpr(_, _) => r := LiteralFlags(ex);
      case Spread(_, a) => r := GetDeepFlags(a);
      case Property(_, _, v, _) => r := GetDeepFlags(v);
      case Member(_, _, _, _) => r := MemberFlags(ex);
      case Call(_, _, _) => r := CallFlags(ex);
      case _ => assert false;
    }

    /** The `ArrayExpression` and `ObjectExpression` cases of `getDeepFlags`:
        a fresh record merging the flags of every part. */
    method LiteralFlags(ex: Node) returns (r: Outcome<Got>)
      requires Valid() && (ex.ArrayExpr? || ex.ObjectExpr?)
      ensures r == DeepFlags(ex, scopes, records)
      decreases Size(ex), 0
    {
      var parts;
      if ex.ArrayExpr? {
        PresentSize(ex.elements);
        parts := Present(ex.elements);
      } else {
        parts := ex.properties;
      }
      var f := MergeEach(parts, NoFlags);
      r := if f.Ok? then Ok(Fresh(f.value)) else Throw(f.message);
    }

    /** The `MemberExpression` case of `getDeepFlags`. */
    method MemberFlags(ex: Node) returns (r: Outcome<Got>)
      requires Valid() && ex.Member?
      ensures r == DeepFlags(ex, scopes, records)
      decreases Size(ex), 0
    {
      var o, p := ex.target, ex.property;
      if o.Identifier? {
        var ident := Value(IdentFlags(o.name, scopes, records), records);
        if !ident.globallyDependent {
          return Ok(Fresh(Merge(NoFlags, ident)));
        }
        var flags := NoFlags;
        if (ident.objectPrototype || o.name == "Object") &&
           !(p.Identifier? && p.name in NonMutatingObjectMethods) {
          flags := Merge(flags, Flags(false, true, true));
        }
        r := Ok(Fresh(Merge(flags, ident)));
      } else {
        var g := GetDeepFlags(o);
        r := if g.Ok? then Ok(Fresh(Merge(NoFlags, Value(g.value, records)))) else Throw(g.message);
      }
    }

    /** The `CallExpression` case of `getDeepFlags`. */
    method CallFlags(ex: Node) returns (r: Outcome<Got>)
      requires Valid() && ex.Call?
      ensures r == DeepFlags(ex, scopes, records)
      decreases Size(ex), 0
    {
      var flags := NoFlags;
      if !ex.callee.Super? {
        var g := GetDeepFlags(ex.callee);
        if g.Throw? {
          return Throw(g.message);
        }
        flags := Merge(flags, Value(g.value, records));
      }
      var f := MergeEach(ex.arguments, flags);
      r := if f.Ok? then Ok(Fresh(f.value)) else Throw(f.message);
    }

    /** The `forEach` loops of `getDeepFlags`. */
    method MergeEach(ns: seq<Node>, acc: Flags) returns (r: Outcome<Flags>)
      requires Valid()
      ensures r == MergeAll(ns, scopes, records, acc)
      decreases SizeSeq(ns), 2
    {
      var flags := acc;
      var i := 0;
      while i < |ns|
        invariant 0 <= i <= |ns|
        invariant MergeAll(ns, scopes, records, acc) == MergeAll(ns[i..], scopes, records, flags)
      {
        assert ns[i..][0] == ns[i] && ns[i..][1..] == ns[i + 1..];
        SizeSeqMember(ns, ns[i]);
        var g := GetDeepFlags(ns[i]);
        if g.Throw? {
          return Throw(g.message);
        }
        flags := Merge(flags, Value(g.value, records));
        i := i + 1;
      }
      r := Ok(flags);
    }

    method SetDeepFlags(ex: Node, f: Flags)
      requires Valid()
      modifies this
      ensures records == SetFlags(ex, old(scopes), old(records), f)
      ensures scopes == old(scopes) && errors == old(errors)
      decreases Size(ex), 1
    {
      match ex
      case Identifier(_, name) =>
        var id := LocalIdentifier(name, scopes);
        if id.Some? {
          MergeFlags(id.value, f);
        }
      case Member(_, o, _, _) => SetDeepFlags(o, f);
      case ObjectPattern(_, _) => SetPattern(ex, f);
      case ArrayPattern(_, _) => SetPattern(ex, f);
      case RestElement(_, a) => SetDeepFlags(a, f);
      case _ =>
    }

    /** `setDeepFlags` on a destructuring pattern: every property, or every
        element present, in order. */
    method SetPattern(ex: Node, f: Flags)
      requires Valid() && (ex.ObjectPattern? || ex.ArrayPattern?)
      modifies this
      ensures records == SetFlags(ex, old(scopes), old(records), f)
      ensures scopes == old(scopes) && errors == old(errors)
      decreases Size(ex), 0
    {
      if ex.ObjectPattern? {
        SetEach(ex.properties, f);
      } else {
        PresentSize(ex.elements);
        SetEach(Present(ex.elements), f);
      }
    }

    /** The `forEach` loops of `setDeepFlags`. */
    method SetEach(ns: seq<Node>, f: Flags)
      requires Valid()
      modifies this
      ensures records == SetAll(ns, old(scopes), old(records), f)
      ensures scopes == old(scopes) && errors == old(errors)
      decreases SizeSeq(ns), 2
    {
      var i := 0;
      while i < |ns|
        invariant 0 <= i <= |ns|
        invariant scopes == old(scopes) && errors == old(errors) && |records| == |old(records)|
        invariant SetAll(ns, scopes, old(records), f) == SetAll(ns[i..], scopes, records, f)
      {
        assert ns[i..][0] == ns[i] && ns[i..][1..] == ns[i + 1..];
        SizeSeqMember(ns, ns[i]);
        SetDeepFlags(ns[i], f);
        i := i + 1;
      }
    }

    method VariableDeclarator(n: Node) returns (r: Outcome<()>)
      requires Valid() && n.Declarator?
      modifies this
      ensures Follows(r, Declare(old(State()), n), State())
    {
      if !n.id.Identifier? || scopes == [] {
        return Ok(());
      }
      var g := Ok(Fresh(NoFlags));
      if n.init.Some? {
        g := GetDeepFlags(n.init.value);
      }
      if g.Throw? {
        return Throw(g.message);
      }
      var k := |scopes| - 1;
      var currentScope := scopes[k];
      match g.value {
        case Stored(id) =>
          currentScope := currentScope[n.id.name := id];
        case Fresh(flags) =>
          currentScope := currentScope[n.id.name := |records|];
          records := records + [flags];
      }
      scopes := scopes[k := currentScope];
      r := Ok(());
    }

    method AssignmentExpression(n: Node) returns (r: Outcome<()>)
      requires Valid() && n.Assignment?
      modifies this
      ensures Follows(r, Assign(old(State()), n), State())
    {
      var left := GetDeepFlags(n.left);
      if left.Throw? {
        return Throw(left.message);
      }
      if Value(left.value, records).globallyDependent {
        errors := errors + [FromNode(MutationErr, n)];
      }
      var right := GetDeepFlags(n.right);
      if right.Throw? {
        return Throw(right.message);
      }
      if Value(right.value, records).globallyDependent {
        SetDeepFlags(n.left, GlobalFlag);
      }
      r := Ok(());
    }

    method UpdateExpression(n: Node) returns (r: Outcome<()>)
      requires Valid() && n.Update?
      modifies this
      ensures Follows(r, UpdateCheck(old(State()), n), State())
    {
      var g := GetDeepFlags(n.argument);
      if g.Throw? {
        return Throw(g.message);
      }
      if Value(g.value, records).globallyDependent {
        errors := errors + [FromNode(MutationErr, n)];
      }
      r := Ok(());
    }

    method CallExpression(n: Node) returns (r: Outcome<()>)
      requires Valid() && n.Call?
      modifies this
      ensures Follows(r, CallCheck(old(State()), n), State())
    {
      var callee := n.callee;
      if callee.Super? {
        return Ok(());
      }
      var flags := GetDeepFlags(callee);
      if flags.Throw? {
        return Throw(flags.message);
      }
      if Value(flags.value, records).mutationFunction {
        errors := errors + [FromNode(MutationErr, n)];
      }
      if callee.Member? {
        var target := GetDeepFlags(callee.target);
        if target.Throw? {
          return Throw(target.message);
        }
        if Value(target.value, records).globallyDependent &&
           !(callee.property.Identifier? && callee.property.name in NonMutatingArrayMethods) {
          errors := errors + [FromNode(MutationErr, n)];
        }
      }
      r := Ok(());
    }

    method BlockEnter()
      modifies this
      ensures State() == EnterBlock(old(State()))
    {
      scopes := scopes + [map[]];
    }

    method BlockLeave()
      modifies this
      ensures State() == LeaveBlock(old(State()))
    {
      if |scopes| > 0 {
        scopes := scopes[..|scopes| - 1];
      }
    }

    method Traverse(n: Node) returns (r: Outcome<()>)
      requires Valid()
      modifies this
      ensures Follows(r, Walk(old(State()), n), State())
      decreases Size(n), 0
    {
      ChildrenSmaller(n);
      ghost var s0 := State();
      WalkSteps(s0, n);
      r := Enter(n);
      if r.Throw? {
        return;
      }
      r := TraverseAll(Children(n));
      if r.Throw? {
        return;
      }
      if n.Block? {
        BlockLeave();
      }
    }

    /** The hooks that fire when the walk enters `n`. */
    method Enter(n: Node) returns (r: Outcome<()>)
      requires Valid()
      modifies this
      ensures Follows(r, Visit(old(State()), n), State())
    {
      ghost var s0 := State();
      match n {
        case Declarator(_, _, _) =>
          assert Visit(s0, n) == Declare(s0, n);
          r := VariableDeclarator(n);
        case Assignment(_, _, _) =>
          assert Visit(s0, n) == Assign(s0, n);
          r := AssignmentExpression(n);
        case Block(_, _) =>
          BlockEnter();
          r := Ok(());
        case Update(_, _) =>
          assert Visit(s0, n) == UpdateCheck(s0, n);
          r := UpdateExpression(n);
        case Call(_, _, _) =>
          assert Visit(s0, n) == CallCheck(s0, n);
          r := CallExpression(n);
        case _ => r := Ok(());
      }
    }

    method TraverseAll(ns: seq<Node>) returns (r: Outcome<()>)
      requires Valid()
      modifies this
      ensures Follows(r, WalkAll(old(State()), ns), State())
      decreases SizeSeq(ns), 1
    {
      var i := 0;
      while i < |ns|
        invariant 0 <= i <= |ns|
        invariant Valid()
        invariant WalkAll(old(State()), ns) == WalkAll(State(), ns[i..])
      {
        assert ns[i..][0] == ns[i] && ns[i..][1..] == ns[i + 1..];
        SizeSeqMember(ns, ns[i]);
        r := Traverse(ns[i]);
        if r.Throw? {
          return;
        }
        i := i + 1;
      }
      r := Ok(());
    }
  }

  /** `stopGlobalMutationLinter`, as it runs. */
  method StopGlobalMutationLinter(program: Node) returns (r: Outcome<seq<LintingError>>)
    ensures r == Lint(program)
  {
    var linter := new GlobalMutationLinter();
    var walked := linter.Traverse(program);
    if walked.Throw? {
      return Throw(walked.message);
    }
    r := Ok(linter.errors);
  }

  // ---------------------------------------------------------------------------
  // properties

  /** `mergeFlags` never clears a field, and merging is idempotent, order-free
      and has no flags as its unit. */
  lemma MergeLaws(a: Flags, b: Flags, c: Flags)
    ensures Merge(NoFlags, a) == a && Merge(a, a) == a
    ensures Merge(a, b) == Merge(b, a) && Merge(Merge(a, b), c) == Merge(a, Merge(b, c))
  {
  }

  /** An identifier's flags are those of the innermost binding of its name, or
      the global flags when no scope binds it; the record itself is returned
      only when the innermost scope binds the name. */
  lemma {:induction false} IdentifierResolves(name: string, scopes: seq<Scope>, records: seq<Flags>)
    requires ScopesIn(scopes, |records|)
    ensures Value(IdentFlags(name, scopes, records), records) == Bound(name, scopes, records)
    ensures IdentFlags(name, scopes, records).Stored? <==> scopes != [] && name in scopes[|scopes| - 1]
  {
    if scopes != [] && name !in scopes[|scopes| - 1] {
      var outer := scopes[..|scopes| - 1];
      ScopesInPrefix(scopes, |records|, |scopes| - 1);
      IdentifierResolves(name, outer, records);
      assert LocalIdentifier(name, scopes) == LocalIdentifier(name, outer);
    }
  }

  /** The kinds `getDeepFlags` handles, all the way down. */
  predicate Defined(ex: Node)
    decreases Size(ex), 0
  {
    match ex
    case Literal(_, _, _) => true
    case Identifier(_, _) => true
    case ArrayExpr(_, es) =>
      PresentSize(es);
      AllDefined(Present(es))
    case ObjectExpr(_, ps) => AllDefined(ps)
    case Spread(_, a) => Defined(a)
    case Property(_, _, v, _) => Defined(v)
    case Member(_, o, _, _) => o.Identifier? || Defined(o)
    case Call(_, c, args) => (c.Super? || Defined(c)) && AllDefined(args)
    case _ => false
  }

  predicate AllDefined(ns: seq<Node>)
    decreases SizeSeq(ns), 1
  {
    ns == [] || (SizeSeqSplit(ns); Defined(ns[0]) && AllDefined(ns[1..]))
  }

  /** `getDeepFlags` throws exactly when a pattern or another unhandled kind is
      reached, and then with "Unhandled case". */
  lemma {:induction false} DeepFlagsDefined(ex: Node, scopes: seq<Scope>, records: seq<Flags>)
    requires ScopesIn(scopes, |records|)
    ensures DeepFlags(ex, scopes, records).Ok? <==> Defined(ex)
    ensures DeepFlags(ex, scopes, records).Throw? ==> DeepFlags(ex, scopes, records).message == UnhandledErr
    decreases Size(ex), 1
  {
    if ex.ArrayExpr? || ex.ObjectExpr? || ex.Spread? || ex.Property? {
      CompoundDefined(ex, scopes, records);
    } else if ex.Member? || ex.Call? {
      AccessDefined(ex, scopes, records);
    } else if !ex.Literal? && !ex.Identifier? {
      assert DeepFlags(ex, scopes, records) == Throw(UnhandledErr);
      assert !Defined(ex);
    }
  }

  lemma {:induction false} CompoundDefined(ex: Node, scopes: seq<Scope>, records: seq<Flags>)
    requires ScopesIn(scopes, |records|)
    requires ex.ArrayExpr? || ex.ObjectExpr? || ex.Spread? || ex.Property?
    ensures DeepFlags(ex, scopes, records).Ok? <==> Defined(ex)
    ensures DeepFlags(ex, scopes, records).Throw? ==> DeepFlags(ex, scopes, records).message == UnhandledErr
    decreases Size(ex), 0
  {
    match ex
    case ArrayExpr(_, es) =>
      PresentSize(es);
      MergeAllDefined(Present(es), scopes, records, NoFlags);
    case ObjectExpr(_, ps) =>
      MergeAllDefined(ps, scopes, records, NoFlags);
    case Spread(_, a) => DeepFlagsDefined(a, scopes, records);
    case Property(_, _, v, _) => DeepFlagsDefined(v, scopes, records);
  }

  lemma {:induction false} AccessDefined(ex: Node, scopes: seq<Scope>, records: seq<Flags>)
    requires ScopesIn(scopes, |records|)
    requires ex.Member? || ex.Call?
    ensures DeepFlags(ex, scopes, records).Ok? <==> Defined(ex)
    ensures DeepFlags(ex, scopes, records).Throw? ==> DeepFlags(ex, scopes, records).message == UnhandledErr
    decreases Size(ex), 0
  {
    match ex
    case Member(_, o, _, _) =>
      if !o.Identifier? {
        DeepFlagsDefined(o, scopes, records);
      }
    case Call(_, c, args) =>
      if !c.Super? {
        DeepFlagsDefined(c, scopes, records);
      }
      forall acc: Flags
        ensures MergeAll(args, scopes, records, acc).Ok? <==> AllDefined(args)
        ensures MergeAll(args, scopes, records, acc).Throw? ==> MergeAll(args, scopes, records, acc).message == UnhandledErr
      {
        MergeAllDefined(args, scopes, records, acc);
      }
  }

  lemma {:induction false} MergeAllDefined(ns: seq<Node>, scopes: seq<Scope>, records: seq<Flags>, acc: Flags)
    requires ScopesIn(scopes, |records|)
    ensures MergeAll(ns, scopes, records, acc).Ok? <==> AllDefined(ns)
    ensures MergeAll(ns, scopes, records, acc).Throw? ==> MergeAll(ns, scopes, records, acc).message == UnhandledErr
    decreases SizeSeq(ns), 2
  {
    if ns != [] {
      SizeSeqSplit(ns);
      DeepFlagsDefined(ns[0], scopes, records);
      var g := DeepFlags(ns[0], scopes, records);
      if g.Ok? {
        MergeAllDefined(ns[1..], scopes, records, Merge(acc, Value(g.value, records)));
      }
    }
  }

  /** The three flags, by name. */
  datatype Kind = GloballyDependent | MutationFunction | ObjectPrototype

  function Has(f: Flags, k: Kind): bool
  {
    match k
    case GloballyDependent => f.globallyDependent
    case MutationFunction => f.mutationFunction
    case ObjectPrototype => f.objectPrototype
  }

  /** Merging parts: a flag is set in the result exactly when it was set
      before or in one of the parts. */
  lemma {:induction false} MergeAllJoin(ns: seq<Node>, scopes: seq<Scope>, records: seq<Flags>, acc: Flags, k: Kind)
    requires ScopesIn(scopes, |records|)
    requires MergeAll(ns, scopes, records, acc).Ok?
    ensures Has(MergeAll(ns, scopes, records, acc).value, k) <==>
      Has(acc, k) ||
      exists i :: 0 <= i < |ns| && DeepFlags(ns[i], scopes, records).Ok? &&
                  Has(Value(DeepFlags(ns[i], scopes, records).value, records), k)
    decreases |ns|
  {
    if ns != [] {
      SizeSeqSplit(ns);
      var g := DeepFlags(ns[0], scopes, records);
      var acc' := Merge(acc, Value(g.value, records));
      MergeAllJoin(ns[1..], scopes, records, acc', k);
      assert forall i :: 1 <= i < |ns| ==> ns[i] == ns[1..][i - 1];
      if exists i :: 0 <= i < |ns| && DeepFlags(ns[i], scopes, records).Ok? &&
                     Has(Value(DeepFlags(ns[i], scopes, records).value, records), k) {
        var i :| 0 <= i < |ns| && DeepFlags(ns[i], scopes, records).Ok? &&
                 Has(Value(DeepFlags(ns[i], scopes, records).value, records), k);
        if i > 0 {
          assert ns[1..][i - 1] == ns[i];
        }
      }
    }
  }

  /** An array literal is globally dependent (or any other flag) exactly when
      one of its present elements is; holes contribute nothing. */
  lemma ArrayFlags(loc: Loc, es: seq<Option<Node>>, scopes: seq<Scope>, records: seq<Flags>, k: Kind)
    requires ScopesIn(scopes, |records|)
    requires DeepFlags(ArrayExpr(loc, es), scopes, records).Ok?
    ensures var r := DeepFlags(ArrayExpr(loc, es), scopes, records).value;
      var ps := Present(es);
      r.Fresh? &&
      (Has(r.flags, k) <==>
         exists i :: 0 <= i < |ps| && DeepFlags(ps[i], scopes, records).Ok? &&
                     Has(Value(DeepFlags(ps[i], scopes, records).value, records), k))
  {
    PresentSize(es);
    MergeAllJoin(Present(es), scopes, records, NoFlags, k);
  }

  /** A member of an identifier: a local object passes its flags on unchanged;
      for a globally dependent one the member is also a mutating function, and
      the `Object` prototype, exactly when the object is `Object` (or flagged
      as it) and the property is not a listed non-mutating method. Whether the
      member is computed plays no part. */
  lemma MemberOfIdentifier(loc: Loc, oloc: Loc, name: string, p: Node, computed: bool,
                           scopes: seq<Scope>, records: seq<Flags>)
    requires ScopesIn(scopes, |records|)
    ensures var r := DeepFlags(Member(loc, Identifier(oloc, name), p, computed), scopes, records);
      var v := Bound(name, scopes, records);
      var listed := p.Identifier? && p.name in NonMutatingObjectMethods;
      r.Ok? && r.value.Fresh? &&
      (!v.globallyDependent ==> r.value.flags == v) &&
      (v.globallyDependent ==>
         r.value.flags.globallyDependent &&
         (r.value.flags.mutationFunction <==>
            v.mutationFunction || ((v.objectPrototype || name == "Object") && !listed)) &&
         (r.value.flags.objectPrototype <==> v.objectPrototype || (name == "Object" && !listed)))
  {
    IdentifierResolves(name, scopes, records);
  }

  /** An identifier followed by any number of non-computed or computed member accesses. */
  predicate IsChain(ex: Node)
  {
    ex.Identifier? || (ex.Member? && IsChain(ex.target))
  }

  /** The identifier at the root of a member chain. */
  function Root(ex: Node): string
    requires IsChain(ex)
  {
    if ex.Identifier? then ex.name else Root(ex.target)
  }

  /** A member chain is globally dependent exactly when its root name is. */
  lemma {:induction false} ChainFlags(ex: Node, scopes: seq<Scope>, records: seq<Flags>)
    requires ScopesIn(scopes, |records|) && IsChain(ex)
    ensures DeepFlags(ex, scopes, records).Ok?
    ensures Value(DeepFlags(ex, scopes, records).value, records).globallyDependent ==
            Bound(Root(ex), scopes, records).globallyDependent
  {
    if ex.Identifier? {
      IdentifierResolves(ex.name, scopes, records);
    } else if ex.target.Identifier? {
      IdentifierResolves(ex.target.name, scopes, records);
    } else {
      ChainFlags(ex.target, scopes, records);
    }
  }

  /** Marking a member chain marks the record its root name is bound to, and
      nothing when the root is bound nowhere. */
  lemma {:induction false} SetFlagsChain(ex: Node, scopes: seq<Scope>, records: seq<Flags>, f: Flags)
    requires ScopesIn(scopes, |records|) && IsChain(ex)
    ensures SetFlags(ex, scopes, records, f) ==
      match LocalIdentifier(Root(ex), scopes)
      case Some(id) => records[id := Merge(records[id], f)]
      case None => records
  {
    if ex.Member? {
      SetFlagsChain(ex.target, scopes, records, f);
    }
  }

  /** Each record of `after` is the one in `before`, or that one with `f` merged in. */
  predicate MergedOnly(before: seq<Flags>, after: seq<Flags>, f: Flags)
  {
    |after| == |before| &&
    forall i :: 0 <= i < |before| ==> after[i] == before[i] || after[i] == Merge(before[i], f)
  }

  /** `setDeepFlags` only ever merges its flags into records: each record is
      left alone or has `f` merged in. */
  lemma {:induction false} SetFlagsOnlyMerges(ex: Node, scopes: seq<Scope>, records: seq<Flags>, f: Flags)
    requires ScopesIn(scopes, |records|)
    ensures MergedOnly(records, SetFlags(ex, scopes, records, f), f)
    decreases Size(ex), 1
  {
    match ex
    case Identifier(_, name) =>
      match LocalIdentifier(name, scopes) {
        case Some(id) => MergedOnlyUpdate(records, id, f);
        case None => MergedOnlyRefl(records, f);
      }
    case Member(_, o, _, _) => SetFlagsOnlyMerges(o, scopes, records, f);
    case ObjectPattern(_, _) => SetPatternOnlyMerges(ex, scopes, records, f);
    case ArrayPattern(_, _) => SetPatternOnlyMerges(ex, scopes, records, f);
    case RestElement(_, a) => SetFlagsOnlyMerges(a, scopes, records, f);
    case _ =>
      assert SetFlags(ex, scopes, records, f) == records;
      MergedOnlyRefl(records, f);
  }

  /** The pattern cases of `SetFlagsOnlyMerges`. */
  lemma {:induction false} SetPatternOnlyMerges(ex: Node, scopes: seq<Scope>, records: seq<Flags>, f: Flags)
    requires ScopesIn(scopes, |records|) && (ex.ObjectPattern? || ex.ArrayPattern?)
    ensures MergedOnly(records, SetFlags(ex, scopes, records, f), f)
    decreases Size(ex), 0
  {
    if ex.ObjectPattern? {
      assert SetFlags(ex, scopes, records, f) == SetAll(ex.properties, scopes, records, f);
      SetAllOnlyMerges(ex.properties, scopes, records, f);
    } else {
      PresentSize(ex.elements);
      assert SetFlags(ex, scopes, records, f) == SetAll(Present(ex.elements), scopes, records, f);
      SetAllOnlyMerges(Present(ex.elements), scopes, records, f);
    }
  }

  lemma MergedOnlyRefl(records: seq<Flags>, f: Flags)
    ensures MergedOnly(records, records, f)
  {
  }

  lemma MergedOnlyUpdate(records: seq<Flags>, id: nat, f: Flags)
    requires id < |records|
    ensures MergedOnly(records, records[id := Merge(records[id], f)], f)
  {
  }

  lemma {:induction false} SetAllOnlyMerges(ns: seq<Node>, scopes: seq<Scope>, records: seq<Flags>, f: Flags)
    requires ScopesIn(scopes, |records|)
    ensures MergedOnly(records, SetAll(ns, scopes, records, f), f)
    decreases SizeSeq(ns), 2
  {
    if ns == [] {
      MergedOnlyRefl(records, f);
    } else {
      SizeSeqSplit(ns);
      var mid := SetFlags(ns[0], scopes, records, f);
      SetFlagsOnlyMerges(ns[0], scopes, records, f);
      SetAllOnlyMerges(ns[1..], scopes, mid, f);
      MergedOnlyTrans(records, mid, SetAll(ns[1..], scopes, mid, f), f);
    }
  }

  /** Merging `f` twice is merging it once, so two rounds of `MergedOnly` make one. */
  lemma MergedOnlyTrans(a: seq<Flags>, b: seq<Flags>, c: seq<Flags>, f: Flags)
    requires MergedOnly(a, b, f) && MergedOnly(b, c, f)
    ensures MergedOnly(a, c, f)
  {
    forall i | 0 <= i < |a|
      ensures c[i] == a[i] || c[i] == Merge(a[i], f)
    {
      MergeLaws(a[i], f, f);
    }
  }

  /** Rebinding one name in the innermost scope leaves every other name's
      resolution alone. */
  lemma RebindOthers(scopes: seq<Scope>, name: string, id: nat, other: string)
    requires scopes != [] && other != name
    ensures LocalIdentifier(other, Rebind(scopes, name, id)) == LocalIdentifier(other, scopes)
  {
    var s := Rebind(scopes, name, id);
    assert s[..|scopes| - 1] == scopes[..|scopes| - 1];
  }

  /** A declarator binds its name, in the innermost scope, to a record holding
      its initialiser's flags; no other name changes its binding, no record
      changes and no error is added. It throws exactly when the initialiser's
      flags do. */
  lemma DeclareBinds(st: LintState, n: Node)
    requires WellFormed(st) && n.Declarator? && n.id.Identifier? && st.scopes != []
    ensures Declare(st, n).Ok? <==> DeepFlagsOpt(n.init, st.scopes, st.records).Ok?
    ensures Declare(st, n).Ok? ==>
      var s := Declare(st, n).value;
      var id := LocalIdentifier(n.id.name, s.scopes);
      id.Some? && id.value < |s.records| &&
      s.records[id.value] == Value(DeepFlagsOpt(n.init, st.scopes, st.records).value, st.records) &&
      s.records[..|st.records|] == st.records && s.errors == st.errors &&
      forall other :: other != n.id.name ==> LocalIdentifier(other, s.scopes) == LocalIdentifier(other, st.scopes)
  {
    if Declare(st, n).Ok? {
      var s := Declare(st, n).value;
      var g := DeepFlagsOpt(n.init, st.scopes, st.records).value;
      var id := if g.Stored? then g.id else |st.records|;
      assert s.scopes == Rebind(st.scopes, n.id.name, id);
      forall other | other != n.id.name
        ensures LocalIdentifier(other, s.scopes) == LocalIdentifier(other, st.scopes)
      {
        RebindOthers(st.scopes, n.id.name, id, other);
      }
    }
  }

  /** `let b = a` with `a` bound in the innermost scope makes `b` share `a`'s
      record: a later mark through either name is seen through both. */
  lemma DeclareAliases(st: LintState, n: Node)
    requires WellFormed(st) && n.Declarator? && n.id.Identifier? && st.scopes != []
    requires n.init.Some? && n.init.value.Identifier? && n.init.value.name in st.scopes[|st.scopes| - 1]
    ensures Declare(st, n).Ok?
    ensures Declare(st, n).value.records == st.records
    ensures LocalIdentifier(n.id.name, Declare(st, n).value.scopes) == LocalIdentifier(n.init.value.name, st.scopes)
  {
  }

  /** An assignment to a member chain: one error spanning the assignment when
      the chain's root is globally dependent (a name bound nowhere always is);
      a globally dependent right side marks the root's binding, and a root
      bound nowhere leaves every record alone. */
  lemma AssignToChain(st: LintState, n: Node)
    requires WellFormed(st) && n.Assignment? && IsChain(n.left)
    requires DeepFlags(n.right, st.scopes, st.records).Ok?
    ensures Assign(st, n).Ok?
    ensures var s := Assign(st, n).value;
      var root := Root(n.left);
      var right := Value(DeepFlags(n.right, st.scopes, st.records).value, st.records);
      s.scopes == st.scopes &&
      s.errors == st.errors + (if Bound(root, st.scopes, st.records).globallyDependent then [FromNode(MutationErr, n)] else []) &&
      (right.globallyDependent ==> Bound(root, s.scopes, s.records).globallyDependent) &&
      (!right.globallyDependent || LocalIdentifier(root, st.scopes).None? ==> s.records == st.records)
  {
    ChainFlags(n.left, st.scopes, st.records);
    SetFlagsChain(n.left, st.scopes, st.records, GlobalFlag);
  }

  /** An update of a member chain: one error spanning the update exactly when
      the chain's root is globally dependent. */
  lemma UpdateOfChain(st: LintState, n: Node)
    requires WellFormed(st) && n.Update? && IsChain(n.argument)
    ensures UpdateCheck(st, n).Ok?
    ensures UpdateCheck(st, n).value ==
      st.(errors := st.errors + (if Bound(Root(n.argument), st.scopes, st.records).globallyDependent
                                 then [FromNode(MutationErr, n)] else []))
  {
    ChainFlags(n.argument, st.scopes, st.records);
  }

  /** A call of a method of a member chain: one error when the callee is a
      mutating function, another when the chain's root is globally dependent
      and the method is not a listed non-mutating array method. */
  lemma CallOnChain(st: LintState, n: Node)
    requires WellFormed(st) && n.Call? && n.callee.Member? && IsChain(n.callee.target)
    ensures CallCheck(st, n).Ok?
    ensures var c := n.callee;
      var callee := Value(DeepFlags(c, st.scopes, st.records).value, st.records);
      var listed := c.property.Identifier? && c.property.name in NonMutatingArrayMethods;
      var e := FromNode(MutationErr, n);
      CallCheck(st, n).value ==
        st.(errors := st.errors + (if callee.mutationFunction then [e] else []) +
                      (if Bound(Root(c.target), st.scopes, st.records).globallyDependent && !listed then [e] else []))
  {
    ChainFlags(n.callee, st.scopes, st.records);
    ChainFlags(n.callee.target, st.scopes, st.records);
  }

  // ---------------------------------------------------------------------------
  // examples

  /** `Object.assign(state, {key: "value"})` with `Object` bound nowhere: reported
      twice, once as a prototype mutation and once as a method of a global. */
  lemma ObjectAssignExample(st: LintState)
    requires WellFormed(st)
    requires forall i :: 0 <= i < |st.scopes| ==> "Object" !in st.scopes[i]
    ensures
      var callee := Member(Loc(0, 13), Identifier(Loc(0, 6), "Object"), Identifier(Loc(7, 13), "assign"), false);
      var obj := ObjectExpr(Loc(21, 37), [Property(Loc(22, 36), Identifier(Loc(22, 25), "key"),
                                                   Literal(Loc(27, 34), LStr("value"), "\"value\""), false)]);
      var call := Call(Loc(0, 38), callee, [Identifier(Loc(14, 19), "state"), obj]);
      CallCheck(st, call) == Ok(st.(errors := st.errors + [FromNode(MutationErr, call), FromNode(MutationErr, call)]))
  {
    var callee := Member(Loc(0, 13), Identifier(Loc(0, 6), "Object"), Identifier(Loc(7, 13), "assign"), false);
    var obj := ObjectExpr(Loc(21, 37), [Property(Loc(22, 36), Identifier(Loc(22, 25), "key"),
                                                 Literal(Loc(27, 34), LStr("value"), "\"value\""), false)]);
    var call := Call(Loc(0, 38), callee, [Identifier(Loc(14, 19), "state"), obj]);
    assert "assign" !in NonMutatingObjectMethods && "assign" !in NonMutatingArrayMethods;
    assert Bound("Object", st.scopes, st.records) == UnboundFlags("Object");
    MemberOfIdentifier(Loc(0, 13), Loc(0, 6), "Object", Identifier(Loc(7, 13), "assign"), false, st.scopes, st.records);
    CallOnChain(st, call);
    assert Value(DeepFlags(callee, st.scopes, st.records).value, st.records).mutationFunction;
    var e := FromNode(MutationErr, call);
    assert st.errors + [e] + [e] == st.errors + [e, e];
  }

  /** `Object.keys(state.values)`: `keys` is a listed method of both kinds, so nothing is reported. */
  lemma ObjectKeysExample(st: LintState)
    requires WellFormed(st)
    requires forall i :: 0 <= i < |st.scopes| ==> "Object" !in st.scopes[i]
    ensures
      var callee := Member(Loc(0, 11), Identifier(Loc(0, 6), "Object"), Identifier(Loc(7, 11), "keys"), false);
      var arg := Member(Loc(12, 24), Identifier(Loc(12, 17), "state"), Identifier(Loc(18, 24), "values"), false);
      CallCheck(st, Call(Loc(0, 25), callee, [arg])) == Ok(st)
  {
    var callee := Member(Loc(0, 11), Identifier(Loc(0, 6), "Object"), Identifier(Loc(7, 11), "keys"), false);
    var arg := Member(Loc(12, 24), Identifier(Loc(12, 17), "state"), Identifier(Loc(18, 24), "values"), false);
    assert "keys" in NonMutatingObjectMethods && "keys" in NonMutatingArrayMethods;
    assert Bound("Object", st.scopes, st.records) == UnboundFlags("Object");
    MemberOfIdentifier(Loc(0, 11), Loc(0, 6), "Object", Identifier(Loc(7, 11), "keys"), false, st.scopes, st.records);
    CallOnChain(st, Call(Loc(0, 25), callee, [arg]));
  }

  /** `scenes.pop()` on a global: one error spanning the call. */
  lemma GlobalPopExample(st: LintState)
    requires WellFormed(st)
    requires forall i :: 0 <= i < |st.scopes| ==> "scenes" !in st.scopes[i]
    ensures
      var call := Call(Loc(0, 12), Member(Loc(0, 10), Identifier(Loc(0, 6), "scenes"), Identifier(Loc(7, 10), "pop"), false), []);
      CallCheck(st, call) == Ok(st.(errors := st.errors + [LintingError(MutationErr, Some(0), Some(12))]))
  {
    var callee := Member(Loc(0, 10), Identifier(Loc(0, 6), "scenes"), Identifier(Loc(7, 10), "pop"), false);
    assert "pop" !in NonMutatingArrayMethods;
    assert Bound("scenes", st.scopes, st.records) == UnboundFlags("scenes");
    MemberOfIdentifier(Loc(0, 10), Loc(0, 6), "scenes", Identifier(Loc(7, 10), "pop"), false, st.scopes, st.records);
    CallOnChain(st, Call(Loc(0, 12), callee, []));
  }

  /** A node without children and without hooks: the walk passes it by. */
  lemma WalkLeaf(st: LintState, n: Node)
    requires WellFormed(st) && Children(n) == []
    requires !n.Declarator? && !n.Assignment? && !n.Block? && !n.Update? && !n.Call?
    ensures Walk(st, n) == Ok(st)
  {
  }

  /** A statement list walks its statements in order. */
  lemma WalkAllCons(st: LintState, ns: seq<Node>)
    requires WellFormed(st) && ns != []
    ensures WalkAll(st, ns) ==
      match Walk(st, ns[0])
      case Throw(m) => Throw(m)
      case Ok(s) => WalkAll(s, ns[1..])
  {
  }

  /** `state++` on a name bound nowhere is reported, spanning the update. */
  lemma GlobalUpdateStep(st: LintState, loc: Loc, id: Node)
    requires WellFormed(st) && id.Identifier? && LocalIdentifier(id.name, st.scopes).None?
    ensures Walk(st, Update(loc, id)) == Ok(st.(errors := st.errors + [FromNode(MutationErr, Update(loc, id))]))
  {
    var u := Update(loc, id);
    UpdateOfChain(st, u);
    var s1 := UpdateCheck(st, u).value;
    assert Children(u) == [id];
    WalkLeaf(s1, id);
    WalkAllCons(s1, [id]);
  }

  /** `state++;` as a statement on a name bound nowhere is reported. */
  lemma GlobalUpdateStatement(st: LintState, sl: Loc, loc: Loc, id: Node)
    requires WellFormed(st) && id.Identifier? && LocalIdentifier(id.name, st.scopes).None?
    ensures Walk(st, ExprStmt(sl, Update(loc, id))) ==
      Ok(st.(errors := st.errors + [FromNode(MutationErr, Update(loc, id))]))
  {
    var u := Update(loc, id);
    var stmt := ExprStmt(sl, u);
    GlobalUpdateStep(st, loc, id);
    var s1 := st.(errors := st.errors + [FromNode(MutationErr, u)]);
    WalkAllCons(st, [u]);
    assert [u][1..] == [];
    assert WalkAll(s1, []) == Ok(s1);
    assert Visit(st, stmt) == Ok(st) && Children(stmt) == [u];
    WalkSteps(st, stmt);
  }

  /** A program is walked as its statement list. */
  lemma ProgramWalk(st: LintState, l: Loc, ns: seq<Node>)
    requires WellFormed(st)
    ensures Walk(st, Program(l, ns)) == WalkAll(st, ns)
  {
    assert Visit(st, Program(l, ns)) == Ok(st) && Children(Program(l, ns)) == ns;
    WalkSteps(st, Program(l, ns));
  }

  /** `state++;` is reported. */
  lemma GlobalUpdateExample()
    ensures
      var u := Update(Loc(0, 7), Identifier(Loc(0, 5), "state"));
      Lint(Program(Loc(0, 8), [ExprStmt(Loc(0, 8), u)])) == Ok([LintingError(MutationErr, Some(0), Some(7))])
  {
    var u := Update(Loc(0, 7), Identifier(Loc(0, 5), "state"));
    var stmt := ExprStmt(Loc(0, 8), u);
    assert LocalIdentifier("state", Start.scopes).None?;
    GlobalUpdateStatement(Start, Loc(0, 8), Loc(0, 7), Identifier(Loc(0, 5), "state"));
    var s1 := Start.(errors := [FromNode(MutationErr, u)]);
    assert Start.errors + [FromNode(MutationErr, u)] == s1.errors;
    WalkAllCons(Start, [stmt]);
    assert [stmt][1..] == [];
    assert WalkAll(s1, []) == Ok(s1);
    ProgramWalk(Start, Loc(0, 8), [stmt]);
  }

  /** `let state = 1` in the innermost scope: the name is bound to a new,
      unflagged record. */
  lemma DeclareLiteralStep(st: LintState, decl: Node)
    requires WellFormed(st) && st.scopes != []
    requires decl.VarDecl? && |decl.declarations| == 1
    requires var d := decl.declarations[0];
      d.Declarator? && d.id.Identifier? && d.init.Some? && d.init.value.Literal?
    ensures var d := decl.declarations[0];
      Walk(st, decl) ==
        Ok(st.(records := st.records + [NoFlags], scopes := Rebind(st.scopes, d.id.name, |st.records|)))
  {
    var d := decl.declarations[0];
    var s1 := Declare(st, d).value;
    assert s1 == st.(records := st.records + [NoFlags], scopes := Rebind(st.scopes, d.id.name, |st.records|));
    assert Children(d) == [d.id, d.init.value];
    WalkLeaf(s1, d.id);
    WalkLeaf(s1, d.init.value);
    WalkAllCons(s1, [d.id, d.init.value]);
    assert [d.id, d.init.value][1..] == [d.init.value];
    WalkAllCons(s1, [d.init.value]);
    assert Walk(st, d) == Ok(s1);
    assert decl.declarations == [d] && [d][1..] == [];
    WalkAllCons(st, [d]);
    assert WalkAll(st, Children(decl)) == Ok(s1);
  }

  /** `{ let state = 1; }` from the start: a record is made, and dropped
      from sight with the block. */
  lemma BlockStep(block: Node, decl: Node)
    requires block.Block? && block.statements == [decl]
    requires decl.VarDecl? && |decl.declarations| == 1
    requires var d := decl.declarations[0];
      d.Declarator? && d.id.Identifier? && d.init.Some? && d.init.value.Literal?
    ensures Walk(Start, block) == Ok(Start.(records := [NoFlags]))
  {
    var inner := EnterBlock(Start);
    DeclareLiteralStep(inner, decl);
    var s2 := Walk(inner, decl).value;
    assert [decl][1..] == [];
    WalkAllCons(inner, [decl]);
    assert WalkAll(inner, Children(block)) == Ok(s2);
    assert LeaveBlock(s2) == Start.(records := [NoFlags]);
  }

  /** `{ let state = 1; } state++;`: the declaration dies with its block, so
      the update outside it is on a global and is reported. */
  lemma BlockScopeExample()
    ensures
      var d := Declarator(Loc(6, 15), Identifier(Loc(6, 11), "state"), Some(Literal(Loc(14, 15), LNum(1), "1")));
      var block := Block(Loc(0, 18), [VarDecl(Loc(2, 16), Let, [d])]);
      var u := Update(Loc(19, 26), Identifier(Loc(19, 24), "state"));
      Lint(Program(Loc(0, 27), [block, ExprStmt(Loc(19, 27), u)])) == Ok([LintingError(MutationErr, Some(19), Some(26))])
  {
    var d := Declarator(Loc(6, 15), Identifier(Loc(6, 11), "state"), Some(Literal(Loc(14, 15), LNum(1), "1")));
    var decl := VarDecl(Loc(2, 16), Let, [d]);
    var block := Block(Loc(0, 18), [decl]);
    var u := Update(Loc(19, 26), Identifier(Loc(19, 24), "state"));
    var stmt := ExprStmt(Loc(19, 27), u);
    BlockStep(block, decl);
    var s1 := Start.(records := [NoFlags]);
    var s2 := s1.(errors := [FromNode(MutationErr, u)]);
    OutsideUpdateStep(s1, u, stmt);
    assert [stmt][1..] == [] && [block, stmt][1..] == [stmt];
    WalkAllCons(s1, [stmt]);
    WalkAllCons(Start, [block, stmt]);
    assert WalkAll(Start, [block, stmt]) == Ok(s2);
    ProgramWalk(Start, Loc(0, 27), [block, stmt]);
  }

  /** `state++` after the block: the name is no longer bound, so the update is reported. */
  lemma OutsideUpdateStep(s1: LintState, u: Node, stmt: Node)
    requires s1 == Start.(records := [NoFlags])
    requires u == Update(Loc(19, 26), Identifier(Loc(19, 24), "state"))
    requires stmt == ExprStmt(Loc(19, 27), u)
    ensures Walk(s1, stmt) == Ok(s1.(errors := [FromNode(MutationErr, u)]))
  {
    assert LocalIdentifier("state", s1.scopes).None?;
    GlobalUpdateStatement(s1, Loc(19, 27), Loc(19, 26), Identifier(Loc(19, 24), "state"));
    assert s1.errors + [FromNode(MutationErr, u)] == [FromNode(MutationErr, u)];
  }


  /** `let a = {}` at the start: `a` gets a new, unflagged record. */
  lemma AliasFirstStep(d1: Node)
    requires d1 == Declarator(Loc(4, 10), Identifier(Loc(4, 5), "a"), Some(ObjectExpr(Loc(8, 10), [])))
    ensures Declare(Start, d1) == Ok(LintState([NoFlags], [map["a" := 0]], []))
  {
    assert DeepFlags(ObjectExpr(Loc(8, 10), []), Start.scopes, []) == Ok(Fresh(NoFlags));
    assert DeepFlagsOpt(d1.init, Start.scopes, Start.records) == Ok(Fresh(NoFlags));
    var r1 := Rebind(Start.scopes, "a", 0);
    assert r1 == [map["a" := 0]];
    assert Start.records + [NoFlags] == [NoFlags];
  }

  /** `let b = a`: `b` is bound to `a`'s record. */
  lemma AliasSecondStep(d2: Node)
    requires d2 == Declarator(Loc(16, 21), Identifier(Loc(16, 17), "b"), Some(Identifier(Loc(20, 21), "a")))
    ensures Declare(LintState([NoFlags], [map["a" := 0]], []), d2) ==
            Ok(LintState([NoFlags], [map["a" := 0, "b" := 0]], []))
  {
    var s1 := LintState([NoFlags], [map["a" := 0]], []);
    DeclareAliases(s1, d2);
    var r2 := Rebind(s1.scopes, "b", 0);
    assert r2 == [map["a" := 0, "b" := 0]];
  }

  /** `b = state`: the shared record is marked global, and nothing is reported. */
  lemma AliasThirdStep(a1: Node)
    requires a1 == Assignment(Loc(23, 32), Identifier(Loc(23, 24), "b"), Identifier(Loc(27, 32), "state"))
    ensures Assign(LintState([NoFlags], [map["a" := 0, "b" := 0]], []), a1) ==
            Ok(LintState([GlobalFlag], [map["a" := 0, "b" := 0]], []))
  {
    var s2 := LintState([NoFlags], [map["a" := 0, "b" := 0]], []);
    assert LocalIdentifier("state", s2.scopes).None?;
    assert s2.scopes[..0] == [];
    assert IdentFlags("state", s2.scopes, s2.records) == Fresh(UnboundFlags("state"));
    assert DeepFlags(a1.right, s2.scopes, s2.records) == Ok(Fresh(UnboundFlags("state")));
    assert LocalIdentifier("b", s2.scopes) == Some(0);
    AssignToChain(s2, a1);
    SetFlagsChain(a1.left, s2.scopes, s2.records, GlobalFlag);
    assert SetFlags(a1.left, s2.scopes, s2.records, GlobalFlag) == [GlobalFlag];
  }

  /** `let a = {}; let b = a; b = state; a.x = 1;`: `b` shares `a`'s record, so
      marking `b` global marks `a`, and the write through `a` is reported. */
  lemma AliasExample()
    ensures
      var d1 := Declarator(Loc(4, 10), Identifier(Loc(4, 5), "a"), Some(ObjectExpr(Loc(8, 10), [])));
      var d2 := Declarator(Loc(16, 21), Identifier(Loc(16, 17), "b"), Some(Identifier(Loc(20, 21), "a")));
      var a1 := Assignment(Loc(23, 32), Identifier(Loc(23, 24), "b"), Identifier(Loc(27, 32), "state"));
      var a2 := Assignment(Loc(34, 41), Member(Loc(34, 37), Identifier(Loc(34, 35), "a"), Identifier(Loc(36, 37), "x"), false),
                           Literal(Loc(40, 41), LNum(1), "1"));
      var s1 := LintState([NoFlags], [map["a" := 0]], []);
      var s2 := LintState([NoFlags], [map["a" := 0, "b" := 0]], []);
      var s3 := LintState([GlobalFlag], [map["a" := 0, "b" := 0]], []);
      Declare(Start, d1) == Ok(s1) && Declare(s1, d2) == Ok(s2) && Assign(s2, a1) == Ok(s3) &&
      Assign(s3, a2) == Ok(s3.(errors := [LintingError(MutationErr, Some(34), Some(41))]))
  {
    var d1 := Declarator(Loc(4, 10), Identifier(Loc(4, 5), "a"), Some(ObjectExpr(Loc(8, 10), [])));
    var d2 := Declarator(Loc(16, 21), Identifier(Loc(16, 17), "b"), Some(Identifier(Loc(20, 21), "a")));
    var a1 := Assignment(Loc(23, 32), Identifier(Loc(23, 24), "b"), Identifier(Loc(27, 32), "state"));
    var x := Member(Loc(34, 37), Identifier(Loc(34, 35), "a"), Identifier(Loc(36, 37), "x"), false);
    var a2 := Assignment(Loc(34, 41), x, Literal(Loc(40, 41), LNum(1), "1"));
    AliasFirstStep(d1);
    AliasSecondStep(d2);
    AliasThirdStep(a1);
    var s3 := LintState([GlobalFlag], [map["a" := 0, "b" := 0]], []);
    AliasLastStep(s3, a2);
  }

  /** `a.x = 1` once `a`'s record is global: reported, nothing else changes. */
  lemma AliasLastStep(s3: LintState, a2: Node)
    requires s3 == LintState([GlobalFlag], [map["a" := 0, "b" := 0]], [])
    requires a2 == Assignment(Loc(34, 41), Member(Loc(34, 37), Identifier(Loc(34, 35), "a"), Identifier(Loc(36, 37), "x"), false),
                              Literal(Loc(40, 41), LNum(1), "1"))
    ensures Assign(s3, a2) == Ok(s3.(errors := [LintingError(MutationErr, Some(34), Some(41))]))
  {
    assert LocalIdentifier("a", s3.scopes) == Some(0);
    assert Bound("a", s3.scopes, s3.records).globallyDependent;
    assert DeepFlags(a2.right, s3.scopes, s3.records) == Ok(Fresh(NoFlags));
    AssignToChain(s3, a2);
    var r := Assign(s3, a2).value;
    assert r.errors == [FromNode(MutationErr, a2)];
    assert r.records == s3.records && r.scopes == s3.scopes;
  }
}
