/** The syntax trees the analyser consumes: the subset of ESTree the core
    distinguishes, every node with the byte range the parser attached to it. */
module Syntax {
  import opened Common

  /** `start`/`end` of a node; `NoLoc` for a node whose position fields are missing. */
  datatype Loc = Loc(start: int, end: int) | NoLoc

  /** Literal values. Numbers are non-negative integers: a minus sign parses as a unary operator. */
  datatype Lit = LStr(s: string) | LNum(n: nat) | LBool(b: bool) | LNull

  datatype DeclKind = Var | Let | Const

  /** Expression kinds that every draft of the analyser treats alike (they are only
      traversed): `this`, template literals, `await`, `yield`, classes, `import()`,
      meta properties, tagged templates and JSX. */
  datatype OtherKind =
    | ThisKind | TemplateKind | TaggedTemplateKind | AwaitKind | YieldKind
    | ClassKind | ImportKind | MetaPropertyKind | JsxKind

  datatype Node =
    // statements
    | Program(loc: Loc, statements: seq<Node>)
    | Block(loc: Loc, statements: seq<Node>)
    | ExprStmt(loc: Loc, expression: Node)
    | VarDecl(loc: Loc, kind: DeclKind, declarations: seq<Node>)
    | Declarator(loc: Loc, id: Node, init: Option<Node>)
    | FunctionDecl(loc: Loc, fnId: Option<Node>, params: seq<Node>, body: Node)
    | Return(loc: Loc, returned: Option<Node>)
    | OtherStatement(loc: Loc, children: seq<Node>)
    // expressions
    | Literal(loc: Loc, lit: Lit, raw: string)
    | Identifier(loc: Loc, name: string)
    | PrivateIdentifier(loc: Loc, name: string)
    | Super(loc: Loc)
    | Binary(loc: Loc, left: Node, right: Node)
    | Logical(loc: Loc, left: Node, right: Node)
    | Conditional(loc: Loc, test: Node, consequent: Node, alternate: Node)
    | Assignment(loc: Loc, left: Node, right: Node)
    | Unary(loc: Loc, argument: Node)
    | Update(loc: Loc, argument: Node)
    | ArrayExpr(loc: Loc, elements: seq<Option<Node>>)
    | ObjectExpr(loc: Loc, properties: seq<Node>)
    | Property(loc: Loc, key: Node, value: Node, computed: bool)
    | Spread(loc: Loc, argument: Node)
    | Member(loc: Loc, target: Node, property: Node, computed: bool)
    | Chain(loc: Loc, expression: Node)
    | Sequence(loc: Loc, expressions: seq<Node>)
    | FunctionExpr(loc: Loc, params: seq<Node>, body: Node)
    | ArrowFunction(loc: Loc, params: seq<Node>, body: Node)
    | Call(loc: Loc, callee: Node, arguments: seq<Node>)
    | New(loc: Loc, callee: Node, arguments: seq<Node>)
    | OtherExpression(loc: Loc, other: OtherKind, children: seq<Node>)
    // patterns
    | ArrayPattern(loc: Loc, elements: seq<Option<Node>>)
    | ObjectPattern(loc: Loc, properties: seq<Node>)
    | RestElement(loc: Loc, argument: Node)
    | AssignmentPattern(loc: Loc, left: Node, right: Node)

  /** `isFnNode`: the node kinds the analyser can call. */
  predicate IsFnNode(n: Node)
  {
    n.FunctionExpr? || n.ArrowFunction? || n.FunctionDecl?
  }

  /** A diagnostic: a message and the range of the node it is anchored at, where known. */
  datatype LintingError = LintingError(message: string, start: Option<int>, end: Option<int>)

  /** `LintingError.fromNode` / `node2LintingError`: copy the node's range when it has one. */
  function FromNode(message: string, n: Node): (e: LintingError)
    ensures e.message == message
    ensures n.loc.Loc? <==> e.start.Some? && e.end.Some?
    ensures n.loc.Loc? ==> e.start == Some(n.loc.start) && e.end == Some(n.loc.end)
  {
    match n.loc
    case Loc(s, e) => LintingError(message, Some(s), Some(e))
    case NoLoc => LintingError(message, None, None)
  }

  function Present(s: seq<Option<Node>>): (r: seq<Node>)
    ensures |r| <= |s|
    ensures forall x :: x in r ==> Some(x) in s
  {
    if s == [] then []
    else (if s[0].Some? then [s[0].value] else []) + Present(s[1..])
  }

  lemma PresentTwo(a: Node, b: Node)
    ensures Present([Some(a), Some(b)]) == [a, b]
  {
    var s := [Some(a), Some(b)];
    assert s[1..] == [Some(b)] && s[1..][1..] == [];
  }

  function OptionList(o: Option<Node>): seq<Node>
  {
    if o.Some? then [o.value] else []
  }

  /** The children of a node in the order a pre-order traversal visits them. */
  function Children(n: Node): seq<Node>
  {
    match n
    case Program(_, body) => body
    case Block(_, body) => body
    case ExprStmt(_, e) => [e]
    case VarDecl(_, _, ds) => ds
    case Declarator(_, id, init) => [id] + OptionList(init)
    case FunctionDecl(_, id, ps, b) => OptionList(id) + ps + [b]
    case Return(_, a) => OptionList(a)
    case OtherStatement(_, cs) => cs
    case Literal(_, _, _) => []
    case Identifier(_, _) => []
    case PrivateIdentifier(_, _) => []
    case Super(_) => []
    case Binary(_, l, r) => [l, r]
    case Logical(_, l, r) => [l, r]
    case Conditional(_, t, c, a) => [t, c, a]
    case Assignment(_, l, r) => [l, r]
    case Unary(_, a) => [a]
    case Update(_, a) => [a]
    case ArrayExpr(_, es) => Present(es)
    case ObjectExpr(_, ps) => ps
    case Property(_, k, v, _) => [k, v]
    case Spread(_, a) => [a]
    case Member(_, o, p, _) => [o, p]
    case Chain(_, e) => [e]
    case Sequence(_, es) => es
    case FunctionExpr(_, ps, b) => ps + [b]
    case ArrowFunction(_, ps, b) => ps + [b]
    case Call(_, c, args) => [c] + args
    case New(_, c, args) => [c] + args
    case OtherExpression(_, _, cs) => cs
    case ArrayPattern(_, es) => Present(es)
    case ObjectPattern(_, ps) => ps
    case RestElement(_, a) => [a]
    case AssignmentPattern(_, l, r) => [l, r]
  }

  /** Number of nodes in a tree: the measure the traversals decrease. */
  function Size(n: Node): nat
  {
    1 + match n
    case Program(_, body) => SizeSeq(body)
    case Block(_, body) => SizeSeq(body)
    case ExprStmt(_, e) => Size(e)
    case VarDecl(_, _, ds) => SizeSeq(ds)
    case Declarator(_, id, init) => Size(id) + SizeOpt(init)
    case FunctionDecl(_, id, ps, b) => SizeOpt(id) + SizeSeq(ps) + Size(b)
    case Return(_, a) => SizeOpt(a)
    case OtherStatement(_, cs) => SizeSeq(cs)
    case Literal(_, _, _) => 0
    case Identifier(_, _) => 0
    case PrivateIdentifier(_, _) => 0
    case Super(_) => 0
    case Binary(_, l, r) => Size(l) + Size(r)
    case Logical(_, l, r) => Size(l) + Size(r)
    case Conditional(_, t, c, a) => Size(t) + Size(c) + Size(a)
    case Assignment(_, l, r) => Size(l) + Size(r)
    case Unary(_, a) => Size(a)
    case Update(_, a) => Size(a)
    case ArrayExpr(_, es) => SizeOpts(es)
    case ObjectExpr(_, ps) => SizeSeq(ps)
    case Property(_, k, v, _) => Size(k) + Size(v)
    case Spread(_, a) => Size(a)
    case Member(_, o, p, _) => Size(o) + Size(p)
    case Chain(_, e) => Size(e)
    case Sequence(_, es) => SizeSeq(es)
    case FunctionExpr(_, ps, b) => SizeSeq(ps) + Size(b)
    case ArrowFunction(_, ps, b) => SizeSeq(ps) + Size(b)
    case Call(_, c, args) => Size(c) + SizeSeq(args)
    case New(_, c, args) => Size(c) + SizeSeq(args)
    case OtherExpression(_, _, cs) => SizeSeq(cs)
    case ArrayPattern(_, es) => SizeOpts(es)
    case ObjectPattern(_, ps) => SizeSeq(ps)
    case RestElement(_, a) => Size(a)
    case AssignmentPattern(_, l, r) => Size(l) + Size(r)
  }

  function SizeSeq(s: seq<Node>): nat
  {
    if s == [] then 0 else Size(s[0]) + SizeSeq(s[1..])
  }

  function SizeOpt(o: Option<Node>): nat
  {
    if o.Some? then Size(o.value) else 0
  }

  function SizeOpts(s: seq<Option<Node>>): nat
  {
    if s == [] then 0 else SizeOpt(s[0]) + SizeOpts(s[1..])
  }

  lemma SizeSeqAppend(a: seq<Node>, b: seq<Node>)
    ensures SizeSeq(a + b) == SizeSeq(a) + SizeSeq(b)
  {
    if a == [] {
      assert a + b == b;
    } else {
      assert (a + b)[0] == a[0];
      assert (a + b)[1..] == a[1..] + b;
      SizeSeqAppend(a[1..], b);
    }
  }

  /** The first node of a non-empty list, and the rest, are both smaller than the list. */
  lemma SizeSeqSplit(s: seq<Node>)
    requires s != []
    ensures SizeSeq(s) == Size(s[0]) + SizeSeq(s[1..])
    ensures Size(s[0]) >= 1 && SizeSeq(s[1..]) < SizeSeq(s)
    ensures s[0].Spread? ==> Size(s[0].argument) < Size(s[0])
    ensures s[0].Property? ==> Size(s[0].value) < Size(s[0]) && Size(s[0].key) < Size(s[0])
  {
  }

  lemma SizeSeqMember(s: seq<Node>, x: Node)
    requires x in s
    ensures Size(x) <= SizeSeq(s)
  {
    if s[0] != x {
      SizeSeqMember(s[1..], x);
    }
  }

  lemma PresentSize(s: seq<Option<Node>>)
    ensures SizeSeq(Present(s)) == SizeOpts(s)
  {
    if s != [] {
      PresentSize(s[1..]);
      SizeSeqAppend(if s[0].Some? then [s[0].value] else [], Present(s[1..]));
    }
  }

  lemma SizeSeqOne(x: Node)
    ensures SizeSeq([x]) == Size(x)
  {
    assert [x][1..] == [];
  }

  lemma SizeSeqTwo(x: Node, y: Node)
    ensures SizeSeq([x, y]) == Size(x) + Size(y)
  {
    assert [x, y][1..] == [y];
    SizeSeqOne(y);
  }

  lemma SizeSeqThree(x: Node, y: Node, z: Node)
    ensures SizeSeq([x, y, z]) == Size(x) + Size(y) + Size(z)
  {
    assert [x, y, z][1..] == [y, z];
    SizeSeqTwo(y, z);
  }

  lemma SizeIsChildrenStatement(n: Node)
    requires n.Program? || n.Block? || n.ExprStmt? || n.VarDecl? || n.Declarator?
          || n.FunctionDecl? || n.Return? || n.OtherStatement?
    ensures Size(n) == 1 + SizeSeq(Children(n))
  {
    match n {
    case ExprStmt(_, e) => SizeSeqOne(e);
    case Declarator(_, id, init) =>
      SizeSeqOne(id);
      if init.Some? { SizeSeqOne(init.value); }
      SizeSeqAppend([id], OptionList(init));
    case FunctionDecl(_, id, ps, b) =>
      SizeSeqOne(b);
      if id.Some? { SizeSeqOne(id.value); }
      SizeSeqAppend(OptionList(id), ps);
      SizeSeqAppend(OptionList(id) + ps, [b]);
    case Return(_, a) =>
      if a.Some? { SizeSeqOne(a.value); }
    case _ =>
    }
  }

  lemma SizeIsChildrenOne(n: Node)
    requires n.Unary? || n.Update? || n.Spread? || n.RestElement?
    ensures Size(n) == 1 + SizeSeq(Children(n))
  {
    assert Children(n) == [n.argument] && Size(n) == 1 + Size(n.argument);
    SizeSeqOne(n.argument);
  }

  lemma SizeIsChildrenTwo(n: Node)
    requires n.Binary? || n.Logical? || n.Assignment? || n.AssignmentPattern?
    ensures Size(n) == 1 + SizeSeq(Children(n))
  {
    assert Children(n) == [n.left, n.right] && Size(n) == 1 + Size(n.left) + Size(n.right);
    SizeSeqTwo(n.left, n.right);
  }

  lemma SizeIsChildrenElements(n: Node)
    requires n.ArrayExpr? || n.ArrayPattern?
    ensures Size(n) == 1 + SizeSeq(Children(n))
    ensures Size(n) == 1 + SizeOpts(n.elements) == 1 + SizeSeq(Present(n.elements))
  {
    assert Children(n) == Present(n.elements) && Size(n) == 1 + SizeOpts(n.elements);
    PresentSize(n.elements);
  }

  lemma SizeIsChildrenOther(n: Node)
    requires n.Conditional? || n.Chain?
    ensures Size(n) == 1 + SizeSeq(Children(n))
  {
    if n.Conditional? {
      assert Children(n) == [n.test, n.consequent, n.alternate];
      SizeSeqThree(n.test, n.consequent, n.alternate);
    } else {
      assert Children(n) == [n.expression];
      SizeSeqOne(n.expression);
    }
  }

  lemma SizeIsChildrenProperty(n: Node)
    requires n.Property? || n.Member?
    ensures Size(n) == 1 + SizeSeq(Children(n))
  {
    if n.Property? {
      assert Children(n) == [n.key, n.value] && Size(n) == 1 + Size(n.key) + Size(n.value);
      SizeSeqTwo(n.key, n.value);
    } else {
      assert Children(n) == [n.target, n.property] && Size(n) == 1 + Size(n.target) + Size(n.property);
      SizeSeqTwo(n.target, n.property);
    }
  }

  lemma SizeIsChildrenFunction(n: Node)
    requires n.FunctionExpr? || n.ArrowFunction?
    ensures Size(n) == 1 + SizeSeq(Children(n))
  {
    assert Children(n) == n.params + [n.body];
    SizeSeqOne(n.body);
    SizeSeqAppend(n.params, [n.body]);
  }

  lemma SizeIsChildrenCall(n: Node)
    requires n.Call? || n.New?
    ensures Size(n) == 1 + SizeSeq(Children(n))
  {
    assert Children(n) == [n.callee] + n.arguments;
    SizeSeqOne(n.callee);
    SizeSeqAppend([n.callee], n.arguments);
  }

  /** The single sub-expressions the resolver visits are smaller than their expression. */
  lemma OperandSizes(e: Node)
    ensures e.Logical? ==> Size(e.left) + Size(e.right) < Size(e)
    ensures e.Conditional? ==> Size(e.consequent) + Size(e.alternate) < Size(e)
    ensures e.Assignment? ==> Size(e.right) < Size(e)
    ensures e.Member? ==> Size(e.target) < Size(e)
    ensures e.Chain? ==> Size(e.expression) < Size(e)
  {
  }

  /** The lists of sub-expressions the resolver visits are smaller than their expression. */
  lemma ListSizes(e: Node)
    ensures e.ArrayExpr? ==> SizeSeq(Present(e.elements)) < Size(e)
    ensures e.ObjectExpr? ==> SizeSeq(e.properties) < Size(e)
    ensures e.Sequence? && e.expressions != [] ==> Size(e.expressions[|e.expressions| - 1]) < Size(e)
  {
    if e.ArrayExpr? {
      PresentSize(e.elements);
    } else if e.Sequence? && e.expressions != [] {
      SizeSeqMember(e.expressions, e.expressions[|e.expressions| - 1]);
    }
  }

  lemma SizeObjectPattern(loc: Loc, ps: seq<Node>)
    ensures Size(ObjectPattern(loc, ps)) == 1 + SizeSeq(ps)
  {
  }

  lemma SizeIsChildren(n: Node)
    ensures Size(n) == 1 + SizeSeq(Children(n))
  {
    if n.Program? || n.Block? || n.ExprStmt? || n.VarDecl? || n.Declarator?
       || n.FunctionDecl? || n.Return? || n.OtherStatement? {
      SizeIsChildrenStatement(n);
    } else if n.Unary? || n.Update? || n.Spread? || n.RestElement? {
      SizeIsChildrenOne(n);
    } else if n.Binary? || n.Logical? || n.Assignment? || n.AssignmentPattern? {
      SizeIsChildrenTwo(n);
    } else if n.ArrayExpr? || n.ArrayPattern? {
      SizeIsChildrenElements(n);
    } else if n.Conditional? || n.Chain? {
      SizeIsChildrenOther(n);
    } else if n.Property? || n.Member? {
      SizeIsChildrenProperty(n);
    } else if n.FunctionExpr? || n.ArrowFunction? {
      SizeIsChildrenFunction(n);
    } else if n.Call? || n.New? {
      SizeIsChildrenCall(n);
    }
  }

  /** Every child is strictly smaller than its parent, so traversals terminate. */
  lemma ChildrenSmaller(n: Node)
    ensures SizeSeq(Children(n)) < Size(n)
    ensures forall c :: c in Children(n) ==> Size(c) < Size(n)
  {
    SizeIsChildren(n);
    forall c | c in Children(n)
      ensures Size(c) < Size(n)
    {
      SizeSeqMember(Children(n), c);
    }
  }
}
