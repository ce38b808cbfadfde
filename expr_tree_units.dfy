/** The unit-aware expression-tree demo of `gsp_extra`'s examples. A node
  * evaluates to a (value, unit) pair, where the unit is an optional name.
  * Addition and subtraction need equal units; multiplication keeps the
  * unit of the side that has one. The DSL builds trees with Python's
  * operator overloads, and evaluation combines values with the same
  * overloads, so a value is a number, a `Unit` object or a node. */
module UnitExprTrees {
  import opened Wrappers

  type UnitName = Option<string>

  /** A Python object the tree can hold or produce as a value. */
  datatype Val =
    | Num(x: real)
    | UnitObj(unitName: string)
    | NodeVal(node: Node)

  /** `NumberNode(value, unit)`, `VariableNode(name)` and
    * `OperatorNode(operator, left, right)`; the operator is any string. */
  datatype Node =
    | NumberNode(value: Val, unit: UnitName)
    | VariableNode(name: string)
    | OperatorNode(operator: string, left: Node, right: Node)

  /** A context entry: a (value, unit) tuple or a raw number. */
  datatype Entry = Pair(v: real, u: UnitName) | Raw(r: real)

  /** Why evaluation fails; the exception class is `ErrorClass`. */
  datatype EvalError =
    | UnitMismatch(op: string, leftUnit: UnitName, rightUnit: UnitName)
    | UnknownOperator(op: string)
    | MissingVariable(name: string)
    | UnsupportedOperands

  function ErrorClass(e: EvalError): (r: Error)
    ensures r == ValueError || r == KeyError || r == TypeError
  {
    match e
    case UnitMismatch(_, _, _) => ValueError
    case UnknownOperator(_) => ValueError
    case MissingVariable(_) => KeyError
    case UnsupportedOperands => TypeError
  }

  datatype Outcome<T> = Success(value: T) | Failure(error: EvalError)
  {
    predicate IsFailure() { Failure? }
    function PropagateFailure<U>(): Outcome<U>
      requires Failure?
    {
      Failure(error)
    }
    function Extract(): T
      requires Success?
    {
      value
    }
  }

  predicate IsArith(op: string)
  {
    op == "+" || op == "-" || op == "*"
  }

  /** `other if isinstance(other, Node) else NumberNode(other)`. */
  function AsNode(v: Val): (n: Node)
    ensures v.NodeVal? ==> n == v.node
    ensures !v.NodeVal? ==> n == NumberNode(v, None)
  {
    if v.NodeVal? then v.node else NumberNode(v, None)
  }

  /** Python's `a op b` for op in +, -, * over numbers, `Unit` objects and
    * nodes. Two numbers combine arithmetically. A node on the left builds
    * an operator node through `ExpressionNode`'s forward method, whatever
    * the right side is. A node on the right of a number or a unit is
    * reached through `__radd__`/`__rmul__`, which call the forward method
    * and so put the node on the left; there is no `__rsub__`. A number
    * times a unit is `Unit.__rmul__`'s `NumberNode(number, unit)`. Every
    * other combination has no handler: TypeError. */
  function PyOp(op: string, a: Val, b: Val): (r: Outcome<Val>)
    requires IsArith(op)
    ensures a.NodeVal? ==> r == Success(NodeVal(OperatorNode(op, a.node, AsNode(b))))
    ensures !a.NodeVal? && b.NodeVal? && op != "-" ==> r == Success(NodeVal(OperatorNode(op, b.node, AsNode(a))))
    ensures !a.NodeVal? && b.NodeVal? && op == "-" ==> r == Failure(UnsupportedOperands)
    ensures a.Num? && b.UnitObj? ==> (r.Success? <==> op == "*")
    ensures a.UnitObj? && !b.NodeVal? ==> r == Failure(UnsupportedOperands)
  {
    match (a, b)
    case (Num(x), Num(y)) => Success(Num(if op == "+" then x + y else if op == "-" then x - y else x * y))
    case (NodeVal(n), _) => Success(NodeVal(OperatorNode(op, n, AsNode(b))))
    case (_, NodeVal(n)) => if op == "-" then Failure(UnsupportedOperands) else Success(NodeVal(OperatorNode(op, n, AsNode(a))))
    case (Num(x), UnitObj(u)) => if op == "*" then Success(NodeVal(NumberNode(a, Some(u)))) else Failure(UnsupportedOperands)
    case (UnitObj(_), _) => Failure(UnsupportedOperands)
  }

  /** The unit rule of `*`: the other side's unit when one side has none,
    * no unit when both have one. */
  function MulUnit(l: UnitName, r: UnitName): (u: UnitName)
    ensures l.None? ==> u == r
    ensures r.None? ==> u == l
    ensures l.Some? && r.Some? ==> u.None?
  {
    if r.None? then l else if l.None? then r else None
  }

  /** `evaluate`: left child, then right child, then the unit check and the
    * arithmetic of the operator. */
  function Evaluate(n: Node, context: map<string, Entry>): (r: Outcome<(Val, UnitName)>)
  {
    match n
    case NumberNode(v, u) => Success((v, u))
    case VariableNode(name) =>
      if name !in context then Failure(MissingVariable(name))
      else (match context[name]
            case Pair(v, u) => Success((Num(v), u))
            case Raw(v) => Success((Num(v), None)))
    case OperatorNode(op, l, r) =>
      var (lv, lu) :- Evaluate(l, context);
      var (rv, ru) :- Evaluate(r, context);
      if op == "+" || op == "-" then
        if lu != ru then Failure(UnitMismatch(op, lu, ru))
        else
          var v :- PyOp(op, lv, rv);
          Success((v, lu))
      else if op == "*" then
        var v :- PyOp(op, lv, rv);
        Success((v, MulUnit(lu, ru)))
      else Failure(UnknownOperator(op))
  }

  /** The unit of a tree worked out without its values: the reference the
    * evaluator's unit bookkeeping must agree with. */
  function UnitOf(n: Node, context: map<string, Entry>): Outcome<UnitName>
  {
    match n
    case NumberNode(_, u) => Success(u)
    case VariableNode(name) =>
      if name !in context then Failure(MissingVariable(name))
      else (match context[name] case Pair(_, u) => Success(u) case Raw(_) => Success(None))
    case OperatorNode(op, l, r) =>
      var lu :- UnitOf(l, context);
      var ru :- UnitOf(r, context);
      if op == "+" || op == "-" then
        if lu != ru then Failure(UnitMismatch(op, lu, ru)) else Success(lu)
      else if op == "*" then Success(MulUnit(lu, ru))
      else Failure(UnknownOperator(op))
  }

  /** Whatever a tree evaluates to carries the unit `UnitOf` predicts; so a
    * tree whose units clash never evaluates. */
  lemma {:induction false} EvaluateUnitIsUnitOf(n: Node, context: map<string, Entry>)
    ensures Evaluate(n, context).Success? ==> UnitOf(n, context) == Success(Evaluate(n, context).value.1)
  {
    match n
    case NumberNode(_, _) =>
    case VariableNode(_) =>
    case OperatorNode(op, l, r) =>
      EvaluateUnitIsUnitOf(l, context);
      EvaluateUnitIsUnitOf(r, context);
  }

  /** A tree of plain numbers, variables and the three operators. */
  predicate Numeric(n: Node)
  {
    match n
    case NumberNode(v, _) => v.Num?
    case VariableNode(_) => true
    case OperatorNode(op, l, r) => IsArith(op) && Numeric(l) && Numeric(r)
  }

  /** For such a tree the converse holds too: it evaluates, to a number,
    * exactly when its units are consistent and its variables are bound. */
  lemma {:induction false} NumericEvaluates(n: Node, context: map<string, Entry>)
    requires Numeric(n)
    ensures Evaluate(n, context).Success? <==> UnitOf(n, context).Success?
    ensures Evaluate(n, context).Success? ==> Evaluate(n, context).value.0.Num?
    ensures Evaluate(n, context).Failure? ==> Evaluate(n, context).error == UnitOf(n, context).error
  {
    match n
    case NumberNode(_, _) =>
    case VariableNode(_) =>
    case OperatorNode(op, l, r) =>
      NumericEvaluates(l, context);
      NumericEvaluates(r, context);
      EvaluateUnitIsUnitOf(l, context);
      EvaluateUnitIsUnitOf(r, context);
  }

  /** `value * unit` for a number: `Unit.__rmul__` case 1. */
  function Times(x: real, unitName: string): (r: Val)
    ensures PyOp("*", Num(x), UnitObj(unitName)) == Success(r)
    ensures r == NodeVal(NumberNode(Num(x), Some(unitName)))
  {
    NodeVal(NumberNode(Num(x), Some(unitName)))
  }

  /** Test 1: `(5 * cm) + (10 * cm)` in an empty context is (15, "cm"). */
  lemma SumOfCentimetres()
    ensures PyOp("+", Times(5.0, "cm"), Times(10.0, "cm")).Success?
    ensures Evaluate(PyOp("+", Times(5.0, "cm"), Times(10.0, "cm")).value.node, map[])
            == Success((Num(15.0), Some("cm")))
  {
  }

  /** Test 2: `(length * 2) + 10` with length = 20 is (50, no unit). */
  lemma VariableTimesTwoPlusTen()
    ensures PyOp("*", NodeVal(VariableNode("length")), Num(2.0)).Success?
    ensures PyOp("+", PyOp("*", NodeVal(VariableNode("length")), Num(2.0)).value, Num(10.0)).Success?
    ensures Evaluate(PyOp("+", PyOp("*", NodeVal(VariableNode("length")), Num(2.0)).value, Num(10.0)).value.node,
                     map["length" := Raw(20.0)])
            == Success((Num(50.0), None))
  {
  }

  /** `length * inch` as written: `ExpressionNode.__mul__` wraps the `Unit`
    * object itself in a unit-less `NumberNode`, so `Unit.__rmul__` never
    * sees the node. Evaluating it multiplies the number by the `Unit`
    * object, which yields a new node, and the pair's unit is None. */
  function NodeTimesUnit(n: Node, unitName: string): (r: Val)
    ensures PyOp("*", NodeVal(n), UnitObj(unitName)) == Success(r)
  {
    NodeVal(OperatorNode("*", n, NumberNode(UnitObj(unitName), None)))
  }

  /** Test 3 as written: `(length * inch) + (10 * cm)` with length = 5 fails
    * on the units None and "cm", not on "inch" and "cm". */
  lemma InchPlusCentimetresAsWritten()
    ensures Evaluate(NodeTimesUnit(VariableNode("length"), "inch").node, map["length" := Raw(5.0)])
            == Success((Times(5.0, "inch"), None))
    ensures PyOp("+", NodeTimesUnit(VariableNode("length"), "inch"), Times(10.0, "cm")).Success?
    ensures Evaluate(PyOp("+", NodeTimesUnit(VariableNode("length"), "inch"), Times(10.0, "cm")).value.node,
                     map["length" := Raw(5.0)])
            == Failure(UnitMismatch("+", None, Some("cm")))
  {
  }

  /** Test 4 as written: `(length * inch * count) + 50` with length = 10 and
    * count = 5 raises nothing: every unit along the way is None and the
    * result's value is a node. */
  lemma InchTimesCountPlusFiftyAsWritten()
    ensures PyOp("*", NodeTimesUnit(VariableNode("length"), "inch"), NodeVal(VariableNode("count"))).Success?
    ensures PyOp("+", PyOp("*", NodeTimesUnit(VariableNode("length"), "inch"), NodeVal(VariableNode("count"))).value,
                 Num(50.0)).Success?
    ensures
      var e := PyOp("+", PyOp("*", NodeTimesUnit(VariableNode("length"), "inch"), NodeVal(VariableNode("count"))).value,
                    Num(50.0)).value.node;
      var r := Evaluate(e, map["length" := Raw(10.0), "count" := Raw(5.0)]);
      r.Success? && r.value.0.NodeVal? && r.value.1 == None
  {
  }

  /** `node * unit` as `Unit.__rmul__`'s second case means it: the node
    * times `NumberNode(1, unit)`. Its value is the node's value and its
    * unit the given one, for any unit-less numeric node. */
  function NodeTimesUnitCorrected(n: Node, unitName: string): (r: Val)
    ensures r == NodeVal(OperatorNode("*", n, NumberNode(Num(1.0), Some(unitName))))
  {
    NodeVal(OperatorNode("*", n, NumberNode(Num(1.0), Some(unitName))))
  }

  lemma NodeTimesUnitCorrectedCarriesUnit(n: Node, unitName: string, context: map<string, Entry>)
    requires Evaluate(n, context).Success?
    requires Evaluate(n, context).value.0.Num? && Evaluate(n, context).value.1 == None
    ensures Evaluate(NodeTimesUnitCorrected(n, unitName).node, context)
            == Success((Evaluate(n, context).value.0, Some(unitName)))
  {
    var x := Evaluate(n, context).value.0.x;
    assert x * 1.0 == x;
  }

  /** Test 3 corrected: the mismatch is reported between "inch" and "cm". */
  lemma InchPlusCentimetresCorrected()
    ensures PyOp("+", NodeTimesUnitCorrected(VariableNode("length"), "inch"), Times(10.0, "cm")).Success?
    ensures Evaluate(PyOp("+", NodeTimesUnitCorrected(VariableNode("length"), "inch"), Times(10.0, "cm")).value.node,
                     map["length" := Raw(5.0)])
            == Failure(UnitMismatch("+", Some("inch"), Some("cm")))
  {
  }

  /** Test 4 corrected: the expected mismatch between "inch" and no unit. */
  lemma InchTimesCountPlusFiftyCorrected()
    ensures PyOp("*", NodeTimesUnitCorrected(VariableNode("length"), "inch"), NodeVal(VariableNode("count"))).Success?
    ensures PyOp("+", PyOp("*", NodeTimesUnitCorrected(VariableNode("length"), "inch"), NodeVal(VariableNode("count"))).value,
                 Num(50.0)).Success?
    ensures
      var e := PyOp("+", PyOp("*", NodeTimesUnitCorrected(VariableNode("length"), "inch"), NodeVal(VariableNode("count"))).value,
                    Num(50.0)).value.node;
      Evaluate(e, map["length" := Raw(10.0), "count" := Raw(5.0)]) == Failure(UnitMismatch("+", Some("inch"), None))
  {
  }
}
