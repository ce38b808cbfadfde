/** The stand-alone expression-tree demo of `gsp_extra`'s examples:
  * `Value`, `Var`, and the four arithmetic `BinOp`s (the power operator and
  * the `Func` wrappers are not part of this model). Unlike the library
  * tree, a missing context or variable is a ValueError, and only addition
  * has a reflected form. */
module ExprTreeDemo {
  import opened Wrappers
  import ExprTrees

  datatype Op = Add | Sub | Mul | Div

  datatype Node =
    | Value(value: real)
    | Var(name: string)
    | BinOp(op: Op, left: Node, right: Node)

  datatype Operand = NodeArg(node: Node) | NumArg(x: real)

  function Vars(n: Node): set<string>
  {
    match n
    case Value(_) => {}
    case Var(name) => {name}
    case BinOp(_, l, r) => Vars(l) + Vars(r)
  }

  function Apply(op: Op, x: real, y: real): (r: Result<real>)
    ensures r.Err? <==> op == Div && y == 0.0
    ensures r.Err? ==> r.error == ZeroDivisionError
  {
    match op
    case Add => Ok(x + y)
    case Sub => Ok(x - y)
    case Mul => Ok(x * y)
    case Div => if y == 0.0 then Err(ZeroDivisionError) else Ok(x / y)
  }

  /** `evaluate(context=None)`: a variable needs a non-empty context that
    * holds its name, and fails with ValueError otherwise; the context may
    * be absent only for a tree without variables. */
  function Evaluate(n: Node, context: Option<map<string, real>>): (r: Result<real>)
    ensures r.Ok? && Vars(n) != {} ==> context.Some? && Vars(n) <= context.value.Keys
    ensures r.Err? ==> r.error == ValueError || r.error == ZeroDivisionError
  {
    match n
    case Value(v) => Ok(v)
    case Var(name) =>
      if context.Some? && context.value != map[] && name in context.value then Ok(context.value[name])
      else Err(ValueError)
    case BinOp(op, l, r) =>
      var x :- Evaluate(l, context);
      var y :- Evaluate(r, context);
      Apply(op, x, y)
  }

  /** `_to_node`, which `BinOp.__init__` applies to both children. */
  function ToNode(a: Operand): (n: Node)
    ensures a.NodeArg? ==> n == a.node
    ensures a.NumArg? ==> forall c :: Evaluate(n, c) == Ok(a.x)
  {
    match a
    case NodeArg(m) => m
    case NumArg(x) => Value(x)
  }

  /** `BinOp(left, right)` with raw children wrapped. */
  function MakeBinOp(op: Op, left: Operand, right: Operand): (n: Node)
    ensures n == BinOp(op, ToNode(left), ToNode(right))
    ensures Vars(n) == Vars(ToNode(left)) + Vars(ToNode(right))
  {
    BinOp(op, ToNode(left), ToNode(right))
  }

  /** Python's dispatch of `a op b` with at least one node: the forward
    * method when the left side is a node; otherwise only `__radd__`
    * exists, and subtraction, multiplication or division of a number by a
    * node is a TypeError. */
  function Operate(op: Op, a: Operand, b: Operand): (r: Result<Node>)
    requires a.NodeArg? || b.NodeArg?
    ensures r.Ok? <==> a.NodeArg? || op == Add
    ensures r.Err? ==> r.error == TypeError
    ensures r.Ok? ==> r.value == MakeBinOp(op, a, b)
  {
    if a.NodeArg? then Ok(MakeBinOp(op, a, b))
    else if op == Add then Ok(MakeBinOp(Add, a, b))
    else Err(TypeError)
  }

  /** The tree of the library's expression DSL with the same shape. */
  function ToLibrary(n: Node): ExprTrees.Node
  {
    match n
    case Value(v) => ExprTrees.Value(v)
    case Var(name) => ExprTrees.Variable(name)
    case BinOp(op, l, r) =>
      var o := match op
        case Add => ExprTrees.Add
        case Sub => ExprTrees.Sub
        case Mul => ExprTrees.Mul
        case Div => ExprTrees.Div;
      ExprTrees.BinaryOp(o, ToLibrary(l), ToLibrary(r))
  }

  lemma {:induction false} ToLibraryVars(n: Node)
    ensures ExprTrees.Vars(ToLibrary(n)) == Vars(n)
  {
    match n
    case Value(_) =>
    case Var(_) =>
    case BinOp(_, l, r) =>
      ToLibraryVars(l);
      ToLibraryVars(r);
  }

  /** With a context given, the demo computes what the library tree
    * computes; the library's KeyError for a missing variable is a
    * ValueError here. */
  lemma {:induction false} AgreesWithLibrary(n: Node, context: map<string, real>)
    ensures Evaluate(n, Some(context)) ==
      (match ExprTrees.Eval(ToLibrary(n), context)
       case Ok(v) => Ok(v)
       case Err(e) => Err(if e == KeyError then ValueError else e))
  {
    match n
    case Value(_) =>
    case Var(name) =>
      if context == map[] {
        assert name !in context;
      }
    case BinOp(op, l, r) =>
      AgreesWithLibrary(l, context);
      AgreesWithLibrary(r, context);
  }

  /** Without a context only variable-free trees evaluate, and they give
    * the value they have in any context. */
  lemma {:induction false} NoContext(n: Node, context: map<string, real>)
    ensures Vars(n) != {} ==> Evaluate(n, None).Err?
    ensures Vars(n) == {} ==> Evaluate(n, None) == Evaluate(n, Some(context))
  {
    match n
    case Value(_) =>
    case Var(_) =>
    case BinOp(op, l, r) =>
      NoContext(l, context);
      NoContext(r, context);
  }
}
