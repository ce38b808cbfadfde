/** The expression-tree DSL of `gsp_extra`: constants, variables looked up
  * in a context, and the four arithmetic operators, built with Python's
  * operator overloads and evaluated recursively. Floats are modelled as
  * reals. */
module ExprTrees {
  import opened Wrappers

  datatype Op = Add | Sub | Mul | Div

  /** `Value(v)`, `Variable(name)`, and the four `BinaryOp` subclasses. */
  datatype Node =
    | Value(value: real)
    | Variable(name: string)
    | BinaryOp(op: Op, left: Node, right: Node)

  /** An operand of an overloaded operator: a node or a raw number. */
  datatype Operand = NodeArg(node: Node) | NumArg(x: real)

  /** The `symbol` property of each operator class. */
  function Symbol(op: Op): (s: string)
    ensures |s| == 1
  {
    match op
    case Add => "+"
    case Sub => "-"
    case Mul => "*"
    case Div => "/"
  }

  /** The variables a tree mentions. */
  function Vars(n: Node): set<string>
  {
    match n
    case Value(_) => {}
    case Variable(name) => {name}
    case BinaryOp(_, l, r) => Vars(l) + Vars(r)
  }

  /** Python float arithmetic on two evaluated operands; dividing by zero
    * raises ZeroDivisionError. */
  function Apply(op: Op, x: real, y: real): (r: Result<real>)
    ensures r.Err? <==> op == Div && y == 0.0
    ensures r.Err? ==> r.error == ZeroDivisionError
    ensures r.Ok? && op == Div ==> r.value * y == x
  {
    match op
    case Add => Ok(x + y)
    case Sub => Ok(x - y)
    case Mul => Ok(x * y)
    case Div => if y == 0.0 then Err(ZeroDivisionError) else Ok(x / y)
  }

  /** `Node.eval`: a constant ignores the context, a variable is looked up
    * (KeyError when absent), an operator evaluates its left child, then its
    * right child, then combines them. A success means every variable of the
    * tree was found. */
  function Eval(n: Node, context: map<string, real>): (r: Result<real>)
    ensures r.Ok? ==> Vars(n) <= context.Keys
    ensures r.Err? ==> r.error == KeyError || r.error == ZeroDivisionError
  {
    match n
    case Value(v) => Ok(v)
    case Variable(name) => if name in context then Ok(context[name]) else Err(KeyError)
    case BinaryOp(op, l, r) =>
      var x :- Eval(l, context);
      var y :- Eval(r, context);
      Apply(op, x, y)
  }

  /** A KeyError is raised only when some variable of the tree is missing. */
  lemma {:induction false} KeyErrorOnlyWhenMissing(n: Node, context: map<string, real>)
    requires Eval(n, context) == Err(KeyError)
    ensures !(Vars(n) <= context.Keys)
  {
    match n
    case Value(_) =>
    case Variable(_) =>
    case BinaryOp(op, l, r) =>
      if Eval(l, context).Err? {
        KeyErrorOnlyWhenMissing(l, context);
      } else {
        assert Eval(r, context).Err?;
        KeyErrorOnlyWhenMissing(r, context);
      }
  }

  /** Evaluation depends only on the context's entries for the tree's own
    * variables. */
  lemma {:induction false} EvalLocal(n: Node, c1: map<string, real>, c2: map<string, real>)
    requires forall v :: v in Vars(n) ==> (v in c1 <==> v in c2)
    requires forall v :: v in Vars(n) && v in c1 && v in c2 ==> c1[v] == c2[v]
    ensures Eval(n, c1) == Eval(n, c2)
  {
    match n
    case Value(_) =>
    case Variable(_) =>
    case BinaryOp(_, l, r) =>
      EvalLocal(l, c1, c2);
      EvalLocal(r, c1, c2);
  }

  /** A tree without variables has one value, whatever the context. */
  lemma ClosedEvalIgnoresContext(n: Node, context: map<string, real>)
    requires Vars(n) == {}
    ensures Eval(n, context) == Eval(n, map[])
  {
    EvalLocal(n, context, map[]);
  }

  /** `_to_node`: a node is kept, a number becomes `Value(float(x))`. */
  function ToNode(a: Operand): (n: Node)
    ensures a.NodeArg? ==> n == a.node
    ensures a.NumArg? ==> forall c :: Eval(n, c) == Ok(a.x)
  {
    match a
    case NodeArg(m) => m
    case NumArg(x) => Value(x)
  }

  /** What an operand evaluates to: a raw number is its own value. */
  function EvalOperand(a: Operand, context: map<string, real>): Result<real>
  {
    Eval(ToNode(a), context)
  }

  /** `node.__add__(other)` and its siblings: the node is the left child. */
  function Forward(op: Op, self: Node, other: Operand): (n: Node)
    ensures n.BinaryOp? && n.op == op && n.left == self
  {
    BinaryOp(op, self, ToNode(other))
  }

  /** `node.__radd__(other)` and its siblings, reached for `number op node`:
    * the number is the left child. */
  function Reflected(op: Op, self: Node, other: real): (n: Node)
    ensures n.BinaryOp? && n.op == op && n.right == self
  {
    BinaryOp(op, ToNode(NumArg(other)), self)
  }

  /** Python's dispatch of `a op b` when at least one side is a node: the
    * left operand's forward method when it is a node, else the right
    * operand's reflected method. */
  function Operate(op: Op, a: Operand, b: Operand): Node
    requires a.NodeArg? || b.NodeArg?
  {
    if a.NodeArg? then Forward(op, a.node, b) else Reflected(op, b.node, a.x)
  }

  /** Both dispatch routes keep the written operand order: `a op b`
    * evaluates to the operator applied to a's value and b's value, in that
    * order. */
  lemma OperateKeepsOrder(op: Op, a: Operand, b: Operand, context: map<string, real>)
    requires a.NodeArg? || b.NodeArg?
    ensures Operate(op, a, b) == BinaryOp(op, ToNode(a), ToNode(b))
    ensures Eval(Operate(op, a, b), context) ==
      (match EvalOperand(a, context)
       case Err(e) => Err(e)
       case Ok(x) =>
         match EvalOperand(b, context)
         case Err(e) => Err(e)
         case Ok(y) => Apply(op, x, y))
  {
  }

  /** The module's demonstration: `(5 + x) * (y - 1)` with x = 3 and y = 2
    * is 8. `5 + x` goes through `__radd__`. */
  lemma ExampleEvaluatesToEight()
    ensures Operate(Mul, NodeArg(Operate(Add, NumArg(5.0), NodeArg(Variable("x")))),
                         NodeArg(Operate(Sub, NodeArg(Variable("y")), NumArg(1.0))))
            == BinaryOp(Mul, BinaryOp(Add, Value(5.0), Variable("x")), BinaryOp(Sub, Variable("y"), Value(1.0)))
    ensures Eval(BinaryOp(Mul, BinaryOp(Add, Value(5.0), Variable("x")), BinaryOp(Sub, Variable("y"), Value(1.0))),
                 map["x" := 3.0, "y" := 2.0]) == Ok(8.0)
  {
  }

  /** `__repr__`: a constant through Python's float formatting (`fmt`, a
    * parameter), a variable as its name, an operator as
    * "(left symbol right)". */
  function Repr(n: Node, fmt: real -> string): string
  {
    match n
    case Value(v) => fmt(v)
    case Variable(name) => name
    case BinaryOp(op, l, r) => "(" + Repr(l, fmt) + " " + Symbol(op) + " " + Repr(r, fmt) + ")"
  }

  /** The number of occurrences of c in s. */
  function Count(s: string, c: char): nat
  {
    if s == [] then 0 else (if s[0] == c then 1 else 0) + Count(s[1..], c)
  }

  lemma {:induction false} CountAppend(s: string, t: string, c: char)
    ensures Count(s + t, c) == Count(s, c) + Count(t, c)
    decreases |s|
  {
    if s != [] {
      assert (s + t)[1..] == s[1..] + t;
      CountAppend(s[1..], t, c);
    } else {
      assert s + t == t;
    }
  }

  function Operators(n: Node): nat
  {
    match n
    case BinaryOp(_, l, r) => 1 + Operators(l) + Operators(r)
    case _ => 0
  }

  /** The count over the pieces of an operator's representation. */
  lemma CountWrapped(sl: string, sym: string, sr: string, c: char)
    ensures Count("(" + sl + " " + sym + " " + sr + ")", c)
      == Count("(", c) + Count(sl, c) + Count(" ", c) + Count(sym, c) + Count(" ", c) + Count(sr, c) + Count(")", c)
  {
    assert "(" + sl + " " + sym + " " + sr + ")" == "(" + (sl + (" " + (sym + (" " + (sr + ")")))));
    CountAppend(sr, ")", c);
    CountAppend(" ", sr + ")", c);
    CountAppend(sym, " " + (sr + ")"), c);
    CountAppend(" ", sym + (" " + (sr + ")")), c);
    CountAppend(sl, " " + (sym + (" " + (sr + ")"))), c);
    CountAppend("(", sl + (" " + (sym + (" " + (sr + ")")))), c);
  }

  /** A one-character string that is not a parenthesis holds none. */
  lemma CountSingle(x: char, c: char)
    ensures Count([x], c) == if x == c then 1 else 0
  {
    assert [x][1..] == [];
  }

  /** Every operator contributes exactly one pair of parentheses, so when
    * no name and no formatted constant contains one, the representation
    * holds one "(" and one ")" per operator. */
  lemma {:induction false} ReprParenthesized(n: Node, fmt: real -> string)
    requires forall v :: v in Vars(n) ==> Count(v, '(') == 0 && Count(v, ')') == 0
    requires forall x: real :: Count(fmt(x), '(') == 0 && Count(fmt(x), ')') == 0
    ensures Count(Repr(n, fmt), '(') == Operators(n)
    ensures Count(Repr(n, fmt), ')') == Operators(n)
  {
    match n
    case Value(v) =>
    case Variable(name) =>
    case BinaryOp(op, l, r) =>
      ReprParenthesized(l, fmt);
      ReprParenthesized(r, fmt);
      var sl, sr := Repr(l, fmt), Repr(r, fmt);
      var sym := Symbol(op);
      assert sym == [sym[0]] && sym[0] != '(' && sym[0] != ')';
      CountWrapped(sl, sym, sr, '(');
      CountWrapped(sl, sym, sr, ')');
      CountSingle(sym[0], '(');
      CountSingle(sym[0], ')');
      CountSingle('(', '(');
      CountSingle('(', ')');
      CountSingle(')', '(');
      CountSingle(')', ')');
      CountSingle(' ', '(');
      CountSingle(' ', ')');
  }

  const Last := "\U{2514}\U{2500}\U{2500} "
  const Tee := "\U{251C}\U{2500}\U{2500} "
  const Blank := "    "
  const Bar := "\U{2502}   "

  /** `pretty_print(node, indent, last)`: the node's line, then for an
    * operator the left subtree (not last) and the right subtree (last),
    * one level deeper. */
  function PrettyPrint(n: Node, indent: string, last: bool, fmt: real -> string): string
  {
    var line := indent + (if last then Last else Tee) + Repr(n, fmt) + "\n";
    match n
    case BinaryOp(_, l, r) =>
      var deeper := indent + (if last then Blank else Bar);
      line + PrettyPrint(l, deeper, false, fmt) + PrettyPrint(r, deeper, true, fmt)
    case _ => line
  }

  /** The nodes of a tree in pre-order, left subtree before right. */
  function PreOrder(n: Node): (r: seq<Node>)
    ensures |r| >= 1 && r[0] == n
  {
    match n
    case BinaryOp(_, l, r) => [n] + PreOrder(l) + PreOrder(r)
    case _ => [n]
  }

  /** One printed line: its tree-drawing prefix and the node it shows. */
  datatype Line = Line(prefix: string, node: Node)

  function Text(lines: seq<Line>, fmt: real -> string): string
  {
    if lines == [] then "" else lines[0].prefix + Repr(lines[0].node, fmt) + "\n" + Text(lines[1..], fmt)
  }

  lemma {:induction false} TextAppend(a: seq<Line>, b: seq<Line>, fmt: real -> string)
    ensures Text(a + b, fmt) == Text(a, fmt) + Text(b, fmt)
    decreases |a|
  {
    if a != [] {
      assert (a + b)[1..] == a[1..] + b;
      TextAppend(a[1..], b, fmt);
    } else {
      assert a + b == b;
    }
  }

  function Nodes(lines: seq<Line>): (r: seq<Node>)
    ensures |r| == |lines|
    ensures forall i :: 0 <= i < |lines| ==> r[i] == lines[i].node
  {
    if lines == [] then [] else [lines[0].node] + Nodes(lines[1..])
  }

  lemma {:induction false} NodesAppend(a: seq<Line>, b: seq<Line>)
    ensures Nodes(a + b) == Nodes(a) + Nodes(b)
    decreases |a|
  {
    if a == [] {
      assert a + b == b;
    } else {
      assert (a + b)[1..] == a[1..] + b;
      NodesAppend(a[1..], b);
    }
  }

  function IsBranch(s: string, indent: string): bool
  {
    |s| >= |indent| + 4 && s[..|indent|] == indent && (s[|s| - 4..] == Last || s[|s| - 4..] == Tee)
  }

  /** A branch under a longer indent is a branch under its prefix. */
  lemma BranchUnder(s: string, indent: string, deeper: string)
    requires |indent| <= |deeper| && deeper[..|indent|] == indent && IsBranch(s, deeper)
    ensures IsBranch(s, indent)
  {
    assert s[..|indent|] == s[..|deeper|][..|indent|];
  }

  /** `pretty_print` prints one line per node, in pre-order with the left
    * subtree before the right one; each line starts with the caller's
    * indent and ends its prefix with a branch glyph; the first line shows
    * the node itself with the glyph chosen by `last`. */
  lemma {:induction false} PrettyPrintLines(n: Node, indent: string, last: bool, fmt: real -> string)
    returns (lines: seq<Line>)
    ensures PrettyPrint(n, indent, last, fmt) == Text(lines, fmt)
    ensures Nodes(lines) == PreOrder(n)
    ensures forall i :: 0 <= i < |lines| ==> IsBranch(lines[i].prefix, indent)
    ensures lines[0].prefix == indent + (if last then Last else Tee)
  {
    var first := Line(indent + (if last then Last else Tee), n);
    assert Text([first], fmt) == first.prefix + Repr(n, fmt) + "\n" + Text([], fmt);
    match n
    case BinaryOp(_, l, r) =>
      var deeper := indent + (if last then Blank else Bar);
      assert deeper[..|indent|] == indent;
      var left := PrettyPrintLines(l, deeper, false, fmt);
      var right := PrettyPrintLines(r, deeper, true, fmt);
      lines := [first] + left + right;
      TextAppend([first], left, fmt);
      TextAppend([first] + left, right, fmt);
      NodesAppend([first] + left, right);
      NodesAppend([first], left);
      forall i | 0 <= i < |lines|
        ensures IsBranch(lines[i].prefix, indent)
      {
        if 0 < i <= |left| {
          assert lines[i] == left[i - 1];
          BranchUnder(lines[i].prefix, indent, deeper);
        } else if i > |left| {
          assert lines[i] == right[i - 1 - |left|];
          BranchUnder(lines[i].prefix, indent, deeper);
        }
      }
    case Value(_) =>
      lines := [first];
    case Variable(_) =>
      lines := [first];
  }
}
