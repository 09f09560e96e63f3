/** scopes.ts: `constructScopes`, the pre-pass that records, for every block, the
    stack of hoisted scopes (the `var` and function-declaration names) visible
    at its start. Scope objects are shared between stacks, so they live in an
    arena and a stack is a list of arena indices. */
module Scopes {
  import opened Common
  import opened Syntax

  const NoPositionErr := "Node does not have position"
  /** The message of the error a duplicate declaration throws. */
  const DuplicateErr := ""
  /** The key of the program-level stack. */
  const ProgramKey := -1

  /** The `{start, end}` of a declared identifier. */
  datatype Pos = Pos(start: int, end: int)

  type Scope = map<string, Pos>

  /** The builder's state: the scopes, the current stack (innermost first, as
      indices into `frames`) and the stack registered for each block start. */
  datatype Builder = Builder(frames: seq<Scope>, stack: seq<nat>, stacks: map<int, seq<nat>>)

  predicate Indexes(n: nat, s: seq<nat>)
  {
    forall i :: 0 <= i < |s| ==> s[i] < n
  }

  /** Every stack names existing scopes and none is empty. */
  predicate Valid(b: Builder)
  {
    |b.stack| > 0 && Indexes(|b.frames|, b.stack) &&
    forall k :: k in b.stacks ==> |b.stacks[k]| > 0 && Indexes(|b.frames|, b.stacks[k])
  }

  /** What a later state keeps of an earlier one: no scope disappears or loses
      a name, and every registered block start stays registered. */
  predicate Extends(b: Builder, b': Builder)
  {
    |b.frames| <= |b'.frames| &&
    (forall j, x :: 0 <= j < |b.frames| && x in b.frames[j] ==> x in b'.frames[j] && b'.frames[j][x] == b.frames[j][x]) &&
    (forall k :: k in b.stacks ==> k in b'.stacks)
  }

  lemma ExtendsTrans(b0: Builder, b1: Builder, b2: Builder)
    requires Extends(b0, b1) && Extends(b1, b2)
    ensures Extends(b0, b2)
  {
  }

  /** The scopes a stack of indices stands for. */
  function Frames(frames: seq<Scope>, s: seq<nat>): (r: seq<Scope>)
    requires Indexes(|frames|, s)
    ensures |r| == |s| && forall i :: 0 <= i < |s| ==> r[i] == frames[s[i]]
  {
    seq(|s|, i requires 0 <= i < |s| => frames[s[i]])
  }

  /** `currentScopeStack = [{}]` registered under `"-1"`. */
  function Initial(): (b: Builder)
    ensures Valid(b)
  {
    Builder([map[]], [0], map[ProgramKey := [0]])
  }

  /** `BlockStatement.enter`: a new empty scope in front of the current stack,
      registered under the block's start. */
  function Enter(b: Builder, block: Node): (r: Outcome<Builder>)
    requires Valid(b) && block.Block?
    ensures r.Ok? ==> Valid(r.value) && Extends(b, r.value)
  {
    match block.loc
    case NoLoc => Throw(NoPositionErr)
    case Loc(start, _) =>
      var stack := [|b.frames|] + b.stack;
      Ok(Builder(b.frames + [map[]], stack, b.stacks[start := stack]))
  }

  /** `BlockStatement.leave`: `currentScopeStack.slice(1)`. */
  function Leave(b: Builder): Builder
  {
    b.(stack := if b.stack == [] then [] else b.stack[1..])
  }

  /** Records `name` in the innermost scope, or throws when it is already there. */
  function Declare(b: Builder, id: Node): (r: Outcome<Builder>)
    requires Valid(b) && id.Identifier?
    ensures r.Ok? ==> (Valid(r.value) && Extends(b, r.value) && r.value.stack == b.stack &&
                       |r.value.frames| == |b.frames| && r.value.stacks == b.stacks)
  {
    match id.loc
    case NoLoc => Throw(NoPositionErr)
    case Loc(start, end) =>
      var top := b.stack[0];
      if id.name in b.frames[top] then Throw(DuplicateErr)
      else Ok(b.(frames := b.frames[top := b.frames[top][id.name := Pos(start, end)]]))
  }

  /** The `forEach` over a `var` declaration's declarators: only identifier
      targets are recorded. (The parser puts only declarators here.) */
  function Declarators(b: Builder, ds: seq<Node>): (r: Outcome<Builder>)
    requires Valid(b)
    ensures r.Ok? ==> (Valid(r.value) && Extends(b, r.value) && r.value.stack == b.stack &&
                       |r.value.frames| == |b.frames| && r.value.stacks == b.stacks)
    decreases |ds|
  {
    if ds == [] then Ok(b)
    else if ds[0].loc.NoLoc? then Throw(NoPositionErr)
    else if ds[0].Declarator? && ds[0].id.Identifier? then
      match Declare(b, ds[0].id)
      case Throw(m) => Throw(m)
      case Ok(b') =>
        var r := Declarators(b', ds[1..]);
        if r.Ok? then ExtendsTrans(b, b', r.value); r else r
    else Declarators(b, ds[1..])
  }

  /** The `VariableDeclaration` and `FunctionDeclaration` visitors. (A declared
      function's name is always an identifier.) */
  function Hook(b: Builder, n: Node): (r: Outcome<Builder>)
    requires Valid(b)
    ensures r.Ok? ==> (Valid(r.value) && Extends(b, r.value) && r.value.stack == b.stack &&
                       |r.value.frames| == |b.frames| && r.value.stacks == b.stacks)
  {
    match n
    case VarDecl(_, kind, ds) => if kind == Var then Declarators(b, ds) else Ok(b)
    case FunctionDecl(_, fnId, _, _) =>
      (match fnId
       case None => Throw(NoPositionErr)
       case Some(id) => if id.Identifier? then Declare(b, id) else Ok(b))
    case _ => Ok(b)
  }

  /** The traversal from `n`: a block is entered, its statements walked and
      left; any other node runs its visitor and then its children are walked.
      A walk that returns leaves the current stack as it found it. */
  function Walk(b: Builder, n: Node): (r: Outcome<Builder>)
    requires Valid(b)
    ensures r.Ok? ==> Valid(r.value) && Extends(b, r.value) && r.value.stack == b.stack
    decreases Size(n), 0
  {
    ChildrenSmaller(n);
    if n.Block? then
      match Enter(b, n)
      case Throw(m) => Throw(m)
      case Ok(b1) =>
        match WalkAll(b1, n.statements)
        case Throw(m) => Throw(m)
        case Ok(b2) =>
          ExtendsTrans(b, b1, b2);
          Ok(Leave(b2))
    else
      match Hook(b, n)
      case Throw(m) => Throw(m)
      case Ok(b1) =>
        var r := WalkAll(b1, Children(n));
        if r.Ok? then ExtendsTrans(b, b1, r.value); r else r
  }

  function WalkAll(b: Builder, ns: seq<Node>): (r: Outcome<Builder>)
    requires Valid(b)
    ensures r.Ok? ==> Valid(r.value) && Extends(b, r.value) && r.value.stack == b.stack
    decreases SizeSeq(ns), 1
  {
    if ns == [] then Ok(b)
    else
      SizeSeqSplit(ns);
      match Walk(b, ns[0])
      case Throw(m) => Throw(m)
      case Ok(b1) =>
        var r := WalkAll(b1, ns[1..]);
        if r.Ok? then ExtendsTrans(b, b1, r.value); r else r
  }

  /** What `constructScopes` returns: every registered stack with its scopes. */
  function Registered(b: Builder): map<int, seq<Scope>>
    requires Valid(b)
  {
    map k | k in b.stacks :: Frames(b.frames, b.stacks[k])
  }

  /** `constructScopes(program)`. */
  function ConstructScopes(program: Node): Outcome<map<int, seq<Scope>>>
  {
    match Walk(Initial(), program)
    case Throw(m) => Throw(m)
    case Ok(b) => Ok(Registered(b))
  }

  /** `Outcome<()>` of a step that matches the specified outcome `e`, with `b` the state it left. */
  predicate Follows(r: Outcome<()>, e: Outcome<Builder>, b: Builder)
  {
    (e.Ok? ==> r.Ok? && b == e.value) && (e.Throw? ==> r == Throw(e.message))
  }

  // ---------------------------------------------------------------------------
  // the builder as it runs

  class ScopeBuilder {
    var frames: seq<Scope>
    var currentScopeStack: seq<nat>
    var allScopeStacks: map<int, seq<nat>>

    function Model(): Builder
      reads this
    {
      Builder(frames, currentScopeStack, allScopeStacks)
    }

    constructor()
      ensures Model() == Initial()
    {
      frames := [map[]];
      currentScopeStack := [0];
      allScopeStacks := map[ProgramKey := [0]];
    }

    method EnterBlock(block: Node) returns (r: Outcome<()>)
      requires Valid(Model()) && block.Block?
      modifies this
      ensures Follows(r, Enter(old(Model()), block), Model())
    {
      if block.loc.NoLoc? {
        return Throw(NoPositionErr);
      }
      frames := frames + [map[]];
      currentScopeStack := [|frames| - 1] + currentScopeStack;
      allScopeStacks := allScopeStacks[block.loc.start := currentScopeStack];
      r := Ok(());
    }

    method LeaveBlock()
      modifies this
      ensures Model() == Leave(old(Model()))
    {
      if |currentScopeStack| > 0 {
        currentScopeStack := currentScopeStack[1..];
      }
    }

    method DeclareName(id: Node) returns (r: Outcome<()>)
      requires Valid(Model()) && id.Identifier?
      modifies this
      ensures Follows(r, Declare(old(Model()), id), Model())
    {
      if id.loc.NoLoc? {
        return Throw(NoPositionErr);
      }
      var top := currentScopeStack[0];
      if id.name in frames[top] {
        return Throw(DuplicateErr);
      }
      frames := frames[top := frames[top][id.name := Pos(id.loc.start, id.loc.end)]];
      r := Ok(());
    }

    method VariableDeclaration(decl: Node) returns (r: Outcome<()>)
      requires Valid(Model()) && decl.VarDecl?
      modifies this
      ensures Follows(r, Hook(old(Model()), decl), Model())
    {
      if decl.kind != Var {
        return Ok(());
      }
      var ds := decl.declarations;
      var i := 0;
      while i < |ds|
        invariant 0 <= i <= |ds|
        invariant Valid(Model())
        invariant Declarators(old(Model()), ds) == Declarators(Model(), ds[i..])
      {
        var d := ds[i];
        assert ds[i..][0] == d && ds[i..][1..] == ds[i + 1..];
        if d.loc.NoLoc? {
          return Throw(NoPositionErr);
        }
        if d.Declarator? && d.id.Identifier? {
          var step := DeclareName(d.id);
          if step.Throw? {
            return step;
          }
        }
        i := i + 1;
      }
      r := Ok(());
    }

    method FunctionDeclaration(decl: Node) returns (r: Outcome<()>)
      requires Valid(Model()) && decl.FunctionDecl?
      modifies this
      ensures Follows(r, Hook(old(Model()), decl), Model())
    {
      if decl.fnId.None? {
        return Throw(NoPositionErr);
      }
      if decl.fnId.value.Identifier? {
        r := DeclareName(decl.fnId.value);
      } else {
        r := Ok(());
      }
    }

    /** The traversal from `n`, calling the visitors on the way. */
    method Traverse(n: Node) returns (r: Outcome<()>)
      requires Valid(Model())
      modifies this
      ensures Follows(r, Walk(old(Model()), n), Model())
      decreases Size(n), 0
    {
      ChildrenSmaller(n);
      if n.Block? {
        r := EnterBlock(n);
        if r.Throw? {
          return;
        }
        r := TraverseAll(n.statements);
        if r.Throw? {
          return;
        }
        LeaveBlock();
        return;
      }
      if n.VarDecl? {
        r := VariableDeclaration(n);
      } else if n.FunctionDecl? {
        r := FunctionDeclaration(n);
      } else {
        r := Ok(());
      }
      if r.Throw? {
        return;
      }
      r := TraverseAll(Children(n));
    }

    method TraverseAll(ns: seq<Node>) returns (r: Outcome<()>)
      requires Valid(Model())
      modifies this
      ensures Follows(r, WalkAll(old(Model()), ns), Model())
      decreases SizeSeq(ns), 1
    {
      var i := 0;
      while i < |ns|
        invariant 0 <= i <= |ns|
        invariant Valid(Model())
        invariant WalkAll(old(Model()), ns) == WalkAll(Model(), ns[i..])
      {
        assert ns[i..][0] == ns[i] && ns[i..][1..] == ns[i + 1..];
        SizeSeqMember(ns, ns[i]);
        r := Traverse(ns[i]);
        if r.Throw? {
          return;
        }
        i := i + 1;
      }
      r := Ok(());
    }

    /** The stacks as the caller sees them. */
    method Result() returns (stacks: map<int, seq<Scope>>)
      requires Valid(Model())
      ensures stacks == Registered(Model())
    {
      stacks := map k | k in allScopeStacks :: Frames(frames, allScopeStacks[k]);
    }
  }

  method Construct(program: Node) returns (r: Outcome<map<int, seq<Scope>>>)
    ensures r == ConstructScopes(program)
  {
    var builder := new ScopeBuilder();
    var walked := builder.Traverse(program);
    if walked.Throw? {
      return Throw(walked.message);
    }
    var stacks := builder.Result();
    r := Ok(stacks);
  }

  // ---------------------------------------------------------------------------
  // properties

  /** Entering a block registers, under its start, the enclosing stack with a
      new empty scope in front; leaving it gives the enclosing stack back. A
      block without a position throws. */
  lemma EnterLeave(b: Builder, block: Node)
    requires Valid(b) && block.Block?
    ensures block.loc.NoLoc? <==> Enter(b, block) == Throw(NoPositionErr)
    ensures block.loc.Loc? ==>
      var e := Enter(b, block).value;
      block.loc.start in Registered(e) &&
      Registered(e)[block.loc.start] == Frames(e.frames, e.stack) == [map[]] + Frames(b.frames, b.stack) &&
      Leave(e).stack == b.stack
  {
    if block.loc.Loc? {
      var e := Enter(b, block).value;
      assert Frames(e.frames, e.stack) == [map[]] + Frames(b.frames, b.stack);
    }
  }

  /** A name goes into the innermost scope with its identifier's range, and
      only there; a name already in that scope throws. */
  lemma DeclareRules(b: Builder, id: Node)
    requires Valid(b) && id.Identifier? && id.loc.Loc?
    ensures var top := b.stack[0];
      (id.name in b.frames[top] <==> Declare(b, id) == Throw(DuplicateErr)) &&
      (id.name !in b.frames[top] ==>
        var r := Declare(b, id).value;
        r.frames[top] == b.frames[top][id.name := Pos(id.loc.start, id.loc.end)] &&
        forall j :: 0 <= j < |b.frames| && j != top ==> r.frames[j] == b.frames[j])
  {
  }

  /** `let` and `const` declarations record nothing. */
  lemma OnlyVarRecorded(b: Builder, loc: Loc, kind: DeclKind, ds: seq<Node>)
    requires Valid(b) && kind != Var
    ensures Hook(b, VarDecl(loc, kind, ds)) == Ok(b)
  {
  }

  /** Pattern targets record nothing. */
  lemma {:induction false} PatternsIgnored(b: Builder, ds: seq<Node>)
    requires Valid(b)
    requires forall i :: 0 <= i < |ds| ==> ds[i].loc.Loc? && ds[i].Declarator? && !ds[i].id.Identifier?
    ensures Declarators(b, ds) == Ok(b)
    decreases |ds|
  {
    if ds != [] {
      assert forall i :: 0 <= i < |ds| - 1 ==> ds[1..][i] == ds[i + 1];
      PatternsIgnored(b, ds[1..]);
    }
  }

  /** Declarators and declared functions without a position throw. */
  lemma MissingPositionThrows(b: Builder, loc: Loc, ds: seq<Node>, params: seq<Node>, body: Node)
    requires Valid(b) && |ds| > 0 && ds[0].loc.NoLoc?
    ensures Hook(b, VarDecl(loc, Var, ds)) == Throw(NoPositionErr)
    ensures Hook(b, FunctionDecl(loc, None, params, body)) == Throw(NoPositionErr)
    ensures forall name :: Hook(b, FunctionDecl(loc, Some(Identifier(NoLoc, name)), params, body)) == Throw(NoPositionErr)
  {
  }

  /** `{} var a = 1`: the block at 0 registers a new scope in front of the
      program scope, and `a`, declared after the block, is in the program
      scope that both stacks share. */
  lemma SharedScopeExample()
    ensures
      var a := Identifier(Loc(7, 8), "a");
      var decl := VarDecl(Loc(3, 12), Var, [Declarator(Loc(7, 12), a, Some(Literal(Loc(11, 12), LNum(1), "1")))]);
      ConstructScopes(Program(Loc(0, 12), [Block(Loc(0, 2), []), decl])) ==
        Ok(map[ProgramKey := [map["a" := Pos(7, 8)]], 0 := [map[], map["a" := Pos(7, 8)]]])
  {
    var a := Identifier(Loc(7, 8), "a");
    var decl := VarDecl(Loc(3, 12), Var, [Declarator(Loc(7, 12), a, Some(Literal(Loc(11, 12), LNum(1), "1")))]);
    var block := Block(Loc(0, 2), []);
    var p := Program(Loc(0, 12), [block, decl]);
    var b0 := Initial();
    var b1 := Builder([map[], map[]], [0], map[ProgramKey := [0], 0 := [1, 0]]);
    var b2 := Builder([map["a" := Pos(7, 8)], map[]], [0], map[ProgramKey := [0], 0 := [1, 0]]);
    EmptyBlockStep();
    DeclarationStep();
    assert WalkAll(b1, [decl]) == Ok(b2) by {
      assert [decl][1..] == [];
    }
    assert WalkAll(b0, [block, decl]) == Ok(b2) by {
      assert [block, decl][1..] == [decl];
    }
    assert Children(p) == [block, decl];
    assert Walk(b0, p) == Ok(b2);
    SharedScopeRegistered(b2);
  }

  lemma SharedScopeRegistered(b2: Builder)
    requires b2 == Builder([map["a" := Pos(7, 8)], map[]], [0], map[ProgramKey := [0], 0 := [1, 0]])
    ensures Registered(b2) == map[ProgramKey := [map["a" := Pos(7, 8)]], 0 := [map[], map["a" := Pos(7, 8)]]]
  {
    var scope := map["a" := Pos(7, 8)];
    assert Frames(b2.frames, [0]) == [scope];
    assert Frames(b2.frames, [1, 0]) == [map[], scope];
    assert Registered(b2).Keys == {ProgramKey, 0};
  }

  lemma EmptyBlockStep()
    ensures Walk(Initial(), Block(Loc(0, 2), [])) ==
      Ok(Builder([map[], map[]], [0], map[ProgramKey := [0], 0 := [1, 0]]))
  {
    var e := Enter(Initial(), Block(Loc(0, 2), []));
    assert e.Ok? && e.value.stack == [1, 0] && e.value.frames == [map[], map[]];
    assert e.value.stacks == map[ProgramKey := [0], 0 := [1, 0]];
  }

  lemma DeclarationStep()
    ensures
      var a := Identifier(Loc(7, 8), "a");
      var decl := VarDecl(Loc(3, 12), Var, [Declarator(Loc(7, 12), a, Some(Literal(Loc(11, 12), LNum(1), "1")))]);
      Walk(Builder([map[], map[]], [0], map[ProgramKey := [0], 0 := [1, 0]]), decl) ==
        Ok(Builder([map["a" := Pos(7, 8)], map[]], [0], map[ProgramKey := [0], 0 := [1, 0]]))
  {
    var a := Identifier(Loc(7, 8), "a");
    var lit := Literal(Loc(11, 12), LNum(1), "1");
    var d := Declarator(Loc(7, 12), a, Some(lit));
    var decl := VarDecl(Loc(3, 12), Var, [d]);
    var b1 := Builder([map[], map[]], [0], map[ProgramKey := [0], 0 := [1, 0]]);
    var b2 := Builder([map["a" := Pos(7, 8)], map[]], [0], map[ProgramKey := [0], 0 := [1, 0]]);
    VarHookStep(b1, b2, decl, d, a);
    assert Hook(b2, a) == Ok(b2) && Children(a) == [];
    WalkPlain(b2, a);
    assert Hook(b2, lit) == Ok(b2) && Children(lit) == [];
    WalkPlain(b2, lit);
    WalkAllHead(b2, [a, lit]);
    assert [a, lit][1..] == [lit];
    WalkAllHead(b2, [lit]);
    assert [lit][1..] == [];
    assert Hook(b2, d) == Ok(b2) && Children(d) == [a, lit];
    WalkPlain(b2, d);
    WalkAllHead(b2, [d]);
    assert [d][1..] == [];
    assert Children(decl) == [d];
    WalkPlain(b1, decl);
  }

  /** A `var` declaration of one fresh name records it in the innermost scope. */
  lemma VarHookStep(b1: Builder, b2: Builder, decl: Node, d: Node, a: Node)
    requires Valid(b1) && a.Identifier? && a.loc.Loc? && a.name !in b1.frames[b1.stack[0]]
    requires d.Declarator? && d.loc.Loc? && d.id == a
    requires decl == VarDecl(decl.loc, Var, [d])
    requires b2 == b1.(frames := b1.frames[b1.stack[0] := b1.frames[b1.stack[0]][a.name := Pos(a.loc.start, a.loc.end)]])
    ensures Hook(b1, decl) == Ok(b2)
  {
    assert [d][1..] == [];
    assert Declare(b1, a) == Ok(b2);
    assert Declarators(b2, [d][1..]) == Ok(b2);
    assert Declarators(b1, [d]) == Ok(b2);
  }

  /** `var a; var a;` throws: the second declaration finds `a` in the program scope. */
  lemma DuplicateExample()
    ensures
      var d1 := Declarator(Loc(4, 5), Identifier(Loc(4, 5), "a"), None);
      var d2 := Declarator(Loc(11, 12), Identifier(Loc(11, 12), "a"), None);
      ConstructScopes(Program(Loc(0, 13), [VarDecl(Loc(0, 6), Var, [d1]), VarDecl(Loc(7, 13), Var, [d2])])) ==
        Throw(DuplicateErr)
  {
    var a1 := Identifier(Loc(4, 5), "a");
    var a2 := Identifier(Loc(11, 12), "a");
    var d1 := Declarator(Loc(4, 5), a1, None);
    var d2 := Declarator(Loc(11, 12), a2, None);
    var v1 := VarDecl(Loc(0, 6), Var, [d1]);
    var v2 := VarDecl(Loc(7, 13), Var, [d2]);
    var p := Program(Loc(0, 13), [v1, v2]);
    var b0 := Initial();
    var b1 := Builder([map["a" := Pos(4, 5)]], [0], map[ProgramKey := [0]]);
    FirstVarStep(b0, b1, v1, d1, a1);
    SecondVarThrows(b1, v2, d2, a2);
    WalkAllHead(b0, [v1, v2]);
    assert [v1, v2][1..] == [v2];
    WalkAllHead(b1, [v2]);
    assert Hook(b0, p) == Ok(b0);
    assert Children(p) == [v1, v2];
    WalkPlain(b0, p);
  }

  /** Outside a block, the walk of `n` is its hook and then its children's walk. */
  lemma WalkPlain(b: Builder, n: Node)
    requires Valid(b) && !n.Block? && Hook(b, n).Ok?
    ensures Walk(b, n) == WalkAll(Hook(b, n).value, Children(n))
  {
  }

  /** The walk of a list is its first node's walk, then the rest's. */
  lemma WalkAllHead(b: Builder, ns: seq<Node>)
    requires Valid(b) && ns != []
    ensures Walk(b, ns[0]).Throw? ==> WalkAll(b, ns) == Walk(b, ns[0])
    ensures Walk(b, ns[0]).Ok? ==> WalkAll(b, ns) == WalkAll(Walk(b, ns[0]).value, ns[1..])
  {
  }

  /** `var a;` from the start: `a` goes into the program scope. */
  lemma FirstVarStep(b0: Builder, b1: Builder, v1: Node, d1: Node, a1: Node)
    requires b0 == Initial() && b1 == Builder([map["a" := Pos(4, 5)]], [0], map[ProgramKey := [0]])
    requires a1 == Identifier(Loc(4, 5), "a") && d1 == Declarator(Loc(4, 5), a1, None)
    requires v1 == VarDecl(Loc(0, 6), Var, [d1])
    ensures Walk(b0, v1) == Ok(b1)
  {
    assert b0.frames[0 := map["a" := Pos(4, 5)]] == b1.frames;
    VarHookStep(b0, b1, v1, d1, a1);
    assert WalkAll(b1, [a1]) == Ok(b1) by {
      assert [a1][1..] == [];
    }
    assert Walk(b1, d1) == Ok(b1);
    assert WalkAll(b1, [d1]) == Ok(b1) by {
      assert [d1][1..] == [];
    }
  }

  /** `var a;` again: `a` is already in the program scope. */
  lemma SecondVarThrows(b1: Builder, v2: Node, d2: Node, a2: Node)
    requires b1 == Builder([map["a" := Pos(4, 5)]], [0], map[ProgramKey := [0]])
    requires a2 == Identifier(Loc(11, 12), "a") && d2 == Declarator(Loc(11, 12), a2, None)
    requires v2 == VarDecl(Loc(7, 13), Var, [d2])
    ensures Walk(b1, v2) == Throw(DuplicateErr)
  {
    assert Declare(b1, a2) == Throw(DuplicateErr);
    assert Declarators(b1, [d2]) == Throw(DuplicateErr);
    assert Hook(b1, v2) == Throw(DuplicateErr);
  }

  /** The starts of the blocks in a tree (those that have a position). */
  function BlockStarts(n: Node): set<int>
    decreases Size(n), 0
  {
    ChildrenSmaller(n);
    (if n.Block? && n.loc.Loc? then {n.loc.start} else {}) + BlockStartsAll(Children(n))
  }

  function BlockStartsAll(ns: seq<Node>): set<int>
    decreases SizeSeq(ns), 1
  {
    if ns == [] then {}
    else
      SizeSeqSplit(ns);
      BlockStarts(ns[0]) + BlockStartsAll(ns[1..])
  }

  /** Every block the walk passes registers a stack under its start. */
  lemma {:induction false} WalkRegistersBlocks(b: Builder, n: Node)
    requires Valid(b) && Walk(b, n).Ok?
    ensures BlockStarts(n) <= Walk(b, n).value.stacks.Keys
    decreases Size(n), 0
  {
    ChildrenSmaller(n);
    if n.Block? {
      var b1 := Enter(b, n).value;
      WalkAllRegistersBlocks(b1, n.statements);
    } else {
      var b1 := Hook(b, n).value;
      WalkAllRegistersBlocks(b1, Children(n));
    }
  }

  lemma {:induction false} WalkAllRegistersBlocks(b: Builder, ns: seq<Node>)
    requires Valid(b) && WalkAll(b, ns).Ok?
    ensures BlockStartsAll(ns) <= WalkAll(b, ns).value.stacks.Keys
    decreases SizeSeq(ns), 1
  {
    if ns != [] {
      SizeSeqSplit(ns);
      var b1 := Walk(b, ns[0]).value;
      WalkRegistersBlocks(b, ns[0]);
      WalkAllRegistersBlocks(b1, ns[1..]);
      assert WalkAll(b, ns) == WalkAll(b1, ns[1..]);
      var b2 := WalkAll(b1, ns[1..]).value;
      assert Extends(b1, b2);
      forall k | k in b1.stacks
        ensures k in b2.stacks
      {
      }
    }
  }

  /** What `constructScopes` returns holds a non-empty program-level stack and
      a non-empty stack for every block of the program. */
  lemma ConstructScopesRegisters(program: Node)
    requires ConstructScopes(program).Ok?
    ensures var r := ConstructScopes(program).value;
      ProgramKey in r && BlockStarts(program) <= r.Keys &&
      forall k :: k in r ==> |r[k]| > 0
  {
    WalkRegistersBlocks(Initial(), program);
  }
}
