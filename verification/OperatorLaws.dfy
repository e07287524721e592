/** What operator names and aggregate names compute, said on values. */
module OperatorLaws {
  import opened Values
  import opened Expressions
  import opened Plans
  import opened BoundExpressions
  import opened AggregatePlanning
  import opened Ordering

  // ----- Comparison of values -----

  /** Lexicographic order by character code: the first difference decides, a proper prefix comes first. */
  ghost predicate LexLess(a: string, b: string) {
    exists k :: 0 <= k <= |a| && k <= |b| && a[..k] == b[..k] && LessFrom(a, b, k)
  }

  predicate LessFrom(a: string, b: string, k: nat)
    requires k <= |a| && k <= |b|
  {
    k < |b| && (k == |a| || a[k] < b[k])
  }

  lemma {:induction false} StringLeqIsLex(a: string, b: string)
    ensures StringLeq(a, b) <==> !LexLess(b, a)
  {
    if a == [] {
      assert forall k :: 0 <= k <= |b| && k <= |a| ==> !LessFrom(b, a, k);
    } else if b == [] {
      assert b[..0] == a[..0] && LessFrom(b, a, 0);
    } else {
      StringLeqIsLex(a[1..], b[1..]);
      if a[0] == b[0] {
        LexLessTail(b, a);
      } else if b[0] < a[0] {
        assert b[..0] == a[..0] && LessFrom(b, a, 0);
      } else if k :| 0 <= k <= |b| && k <= |a| && b[..k] == a[..k] && LessFrom(b, a, k) {
        assert k == 0 || b[..k][0] == a[..k][0];
      }
    }
  }

  lemma LexLessTail(a: string, b: string)
    requires a != [] && b != [] && a[0] == b[0]
    ensures LexLess(a, b) <==> LexLess(a[1..], b[1..])
  {
    var a', b' := a[1..], b[1..];
    if k :| 0 <= k <= |a| && k <= |b| && a[..k] == b[..k] && LessFrom(a, b, k) {
      assert k > 0;
      assert a'[..k - 1] == a[..k][1..] && b'[..k - 1] == b[..k][1..] && LessFrom(a', b', k - 1);
    }
    if k :| 0 <= k <= |a'| && k <= |b'| && a'[..k] == b'[..k] && LessFrom(a', b', k) {
      assert a[..k + 1] == [a[0]] + a'[..k] && b[..k + 1] == [b[0]] + b'[..k] && LessFrom(a, b, k + 1);
    }
  }

  predicate SameKind(a: Value, b: Value) {
    || (a.IntV? && b.IntV?) || (a.DecimalV? && b.DecimalV?) || (a.BoolV? && b.BoolV?) || (a.VarcharV? && b.VarcharV?)
  }

  ghost predicate Less(a: Value, b: Value) {
    || (a.IntV? && b.IntV? && a.i < b.i)
    || (a.DecimalV? && b.DecimalV? && a.d < b.d)
    || (a.BoolV? && b.BoolV? && !a.b && b.b)
    || (a.VarcharV? && b.VarcharV? && LexLess(a.s, b.s))
  }

  lemma LeqIsNotLess(a: Value, b: Value)
    requires SameKind(a, b)
    ensures Leq(a, b) <==> !Less(b, a)
  {
    if a.VarcharV? {
      StringLeqIsLex(a.s, b.s);
    }
  }

  // ----- Binary operators -----

  /** A comparison is null unless both values are of one kind and neither is null or a vector. */
  predicate ComparesTo(v: Value, a: Value, b: Value, truth: bool) {
    v == if SameKind(a, b) then BoolV(truth) else Null(BOOLEAN)
  }

  /** The 32-bit two's complement of `n`. */
  predicate IsWrapOf(v: Value, n: int) {
    v.IntV? && -0x8000_0000 <= v.i < 0x8000_0000 && (v.i - n) % 0x1_0000_0000 == 0
  }

  /** The wrapped sum or difference of two integers; of anything else it is null. */
  predicate IsSum(v: Value, a: Value, b: Value, plus: bool) {
    if a.IntV? && b.IntV? then IsWrapOf(v, if plus then a.i + b.i else a.i - b.i) else v == Null(INTEGER)
  }

  const OPERATORS: set<string> := {"=", "==", "!=", "<>", "<", "<=", ">", ">=", "+", "-", "and", "or"}

  /** What each operator name makes of two values. */
  ghost predicate Computes(op: string, a: Value, b: Value, v: Value) {
    && (op == "=" || op == "==" ==> ComparesTo(v, a, b, a == b))
    && (op == "!=" || op == "<>" ==> ComparesTo(v, a, b, a != b))
    && (op == "<" ==> ComparesTo(v, a, b, Less(a, b)))
    && (op == "<=" ==> ComparesTo(v, a, b, !Less(b, a)))
    && (op == ">" ==> ComparesTo(v, a, b, Less(b, a)))
    && (op == ">=" ==> ComparesTo(v, a, b, !Less(a, b)))
    && (op == "+" ==> IsSum(v, a, b, true))
    && (op == "-" ==> IsSum(v, a, b, false))
    && (op == "and" ==>
          v == if a == BoolV(false) || b == BoolV(false) then BoolV(false)
               else if a == BoolV(true) && b == BoolV(true) then BoolV(true) else Null(BOOLEAN))
    && (op == "or" ==>
          v == if a == BoolV(true) || b == BoolV(true) then BoolV(true)
               else if a == BoolV(false) && b == BoolV(false) then BoolV(false) else Null(BOOLEAN))
  }

  lemma WrapIsWrap(n: int)
    ensures IsWrapOf(IntV(Wrap32(n)), n)
  {
  }

  lemma OperatorNamed(op: string)
    ensures OperatorOf(op).Some? <==> op in OPERATORS
  {
  }

  lemma ComparisonComputes(op: string, a: Value, b: Value)
    requires OperatorOf(op).Some? && OperatorOf(op).value.Comparison?
    ensures Computes(op, a, b, ApplyBinary(op, a, b))
  {
    assert [a, b][0] == a && [a, b][1] == b;
    if SameKind(a, b) {
      LeqIsNotLess(a, b);
      LeqIsNotLess(b, a);
    }
  }

  lemma ArithmeticIsSum(t: ArithmeticType, a: Value, b: Value)
    ensures IsSum(ArithmeticResult(t, a, b), a, b, t == Plus)
  {
    if a.IntV? && b.IntV? {
      var n := if t == Plus then a.i + b.i else a.i - b.i;
      assert ArithmeticResult(t, a, b) == IntV(Wrap32(n));
      WrapIsWrap(n);
    }
  }

  lemma ArithmeticComputes(op: string, a: Value, b: Value)
    requires OperatorOf(op).Some? && OperatorOf(op).value.Arithmetic?
    ensures Computes(op, a, b, ApplyBinary(op, a, b))
  {
    var t := OperatorOf(op).value.arith;
    ArithmeticIsSum(t, a, b);
    assert ApplyBinary(op, a, b) == ArithmeticResult(t, a, b);
  }

  lemma LogicComputes(op: string, a: Value, b: Value)
    requires OperatorOf(op).Some? && OperatorOf(op).value.Logic?
    ensures Computes(op, a, b, ApplyBinary(op, a, b))
  {
    assert [a, b][0] == a && [a, b][1] == b;
  }

  /** The statement's meaning of an operator name is what it computes; other names mean nothing. */
  lemma OperatorComputes(op: string, a: Value, b: Value)
    ensures OperatorOf(op).Some? <==> op in OPERATORS
    ensures op in OPERATORS ==> Computes(op, a, b, ApplyBinary(op, a, b))
  {
    OperatorNamed(op);
    match OperatorOf(op)
    case Some(Comparison(_)) => ComparisonComputes(op, a, b);
    case Some(Arithmetic(_)) => ArithmeticComputes(op, a, b);
    case Some(Logic(_)) => LogicComputes(op, a, b);
    case _ =>
  }

  predicate Arithmetical(op: string) {
    op == "+" || op == "-"
  }

  predicate Logical(op: string) {
    op == "and" || op == "or"
  }

  /** A binary operation over planned operands is planned exactly when its name is known and its operands have the types
      it asks for. */
  lemma BinaryPlannedIff(op: string, x: Expr, y: Expr)
    ensures BinaryExpression(op, x, y).Ok? <==>
              && op in OPERATORS
              && (Arithmetical(op) ==> ReturnType(x) == INTEGER && ReturnType(y) == INTEGER)
              && (Logical(op) ==> ReturnType(x) == BOOLEAN && ReturnType(y) == BOOLEAN)
  {
    OperatorComputes(op, Null(INTEGER), Null(INTEGER));
  }

  /** The planned expression of a binary operation computes, on a row and on a pair of rows, what the operator's name
      says of the values of the planned operands. */
  lemma BinaryPlannedComputes(op: string, l: BoundExpr, r: BoundExpr, kids: seq<Schema>, aggs: seq<Expr>, k: nat)
    requires PlanExpr(BinaryOp(op, l, r), kids, aggs, k).Ok?
    ensures var x := PlanExpr(l, kids, aggs, k);
            && x.Ok?
            && var y := PlanExpr(r, kids, aggs, x.value.next);
               var p := PlanExpr(BinaryOp(op, l, r), kids, aggs, k).value;
               && y.Ok?
               && op in OPERATORS
               && (forall row: Row ::
                     Computes(op, Eval(x.value.expr, row), Eval(y.value.expr, row), Eval(p.expr, row)))
               && (forall a: Row, b: Row ::
                     Computes(op, EvalJoin(x.value.expr, a, b), EvalJoin(y.value.expr, a, b), EvalJoin(p.expr, a, b)))
  {
    var x := PlanExpr(l, kids, aggs, k).value;
    var y := PlanExpr(r, kids, aggs, x.next).value;
    BinaryPlannedIff(op, x.expr, y.expr);
    forall row: Row
      ensures Computes(op, Eval(x.expr, row), Eval(y.expr, row), Eval(BinaryExpression(op, x.expr, y.expr).value, row))
    {
      BinaryOnRow(op, x.expr, y.expr, row);
    }
    forall a: Row, b: Row
      ensures Computes(op, EvalJoin(x.expr, a, b), EvalJoin(y.expr, a, b),
                       EvalJoin(BinaryExpression(op, x.expr, y.expr).value, a, b))
    {
      BinaryOnPair(op, x.expr, y.expr, a, b);
    }
  }

  lemma BinaryOnRow(op: string, x: Expr, y: Expr, row: Row)
    requires BinaryExpression(op, x, y).Ok?
    ensures Computes(op, Eval(x, row), Eval(y, row), Eval(BinaryExpression(op, x, y).value, row))
  {
    OperatorComputes(op, Eval(x, row), Eval(y, row));
    assert EvalAll([x, y], row) == [Eval(x, row), Eval(y, row)];
  }

  lemma BinaryOnPair(op: string, x: Expr, y: Expr, a: Row, b: Row)
    requires BinaryExpression(op, x, y).Ok?
    ensures Computes(op, EvalJoin(x, a, b), EvalJoin(y, a, b), EvalJoin(BinaryExpression(op, x, y).value, a, b))
  {
    OperatorComputes(op, EvalJoin(x, a, b), EvalJoin(y, a, b));
    assert [x, y][1..] == [y] && [y][1..] == [];
    assert EvalJoinAll([x, y], a, b) == [EvalJoin(x, a, b), EvalJoin(y, a, b)];
  }

  // ----- Aggregate names -----

  /** The aggregation that an aggregate's name and number of arguments stand for. */
  predicate Names(func: string, args: nat, t: AggregationType) {
    || (func == "count_star" && args == 0 && t == CountStar)
    || (func == "count" && args == 1 && t == Count)
    || (func == "sum" && args == 1 && t == Sum)
    || (func == "min" && args == 1 && t == Min)
    || (func == "max" && args == 1 && t == Max)
  }

  /** A call is planned to the aggregation its name stands for, over its argument, or over the constant 1; and its
      meaning on a group is that aggregation of the argument's values. */
  lemma CallPlanned(db: Database, call: BoundExpr, s: Schema, group: seq<Row>)
    requires call.AggCall? && PlanCall(call, [s]).Ok?
    ensures var (t, input) := PlanCall(call, [s]).value;
            && Names(call.func, |call.args|, t)
            && (call.args == [] ==> input == Constant(IntV(1)))
            && (call.args != [] ==> PlanExpr(call.args[0], [s], [], 0).Ok?
                                    && input == PlanExpr(call.args[0], [s], [], 0).value.expr)
            && CallValue(db, call, s, group) ==
               db.aggregate(t, seq(|group|, i requires 0 <= i < |group| =>
                                     if call.args == [] then IntV(1) else BoundValue(call.args[0], s, group[i])))
  {
    var t := PlanCall(call, [s]).value.0;
    var vals := seq(|group|, i requires 0 <= i < |group| =>
                      if call.args == [] then IntV(1) else BoundValue(call.args[0], s, group[i]));
    if call.args == [] {
      assert seq(|group|, i => IntV(1)) == vals;
    } else {
      assert seq(|group|, i requires 0 <= i < |group| => BoundValue(call.args[0], s, group[i])) == vals;
    }
  }

  // ----- ORDER BY -----

  /** Under one sort key, ascending rows never fall and descending rows never rise, and null values come at the end that
      the null order names; by default first when ascending and last when descending. */
  lemma SortedByOneKey(o: OrderBy, rows: seq<Row>, i: nat, j: nat)
    requires SortedBy([o], rows) && i < j < |rows|
    ensures var a, b := Eval(o.expr, rows[i]), Eval(o.expr, rows[j]);
            && (SameKind(a, b) && o.dir != DESC ==> !Less(b, a))
            && (SameKind(a, b) && o.dir == DESC ==> !Less(a, b))
            && (o.nulls == NullsFirst && b.Null? ==> a.Null?)
            && (o.nulls == NullsLast && a.Null? ==> b.Null?)
            && (o.nulls == NullsDefault && o.dir != DESC && b.Null? ==> a.Null?)
            && (o.nulls == NullsDefault && o.dir == DESC && a.Null? ==> b.Null?)
  {
    var a, b := Eval(o.expr, rows[i]), Eval(o.expr, rows[j]);
    assert RowLeq([o], rows[i], rows[j]);
    if SameKind(a, b) {
      LeqIsNotLess(a, b);
      LeqIsNotLess(b, a);
    }
  }

  /** Neither value may stand strictly before the other under the key. */
  predicate Ties(o: OrderBy, x: Row, y: Row) {
    KeyLeq(o, Eval(o.expr, x), Eval(o.expr, y)) && KeyLeq(o, Eval(o.expr, y), Eval(o.expr, x))
  }

  /** Under several keys rows are sorted by the first, and rows that tie under it by the others. */
  lemma SortedByKeys(orders: seq<OrderBy>, rows: seq<Row>)
    requires orders != []
    ensures SortedBy(orders, rows) <==>
              && SortedBy([orders[0]], rows)
              && forall i, j :: 0 <= i < j < |rows| && Ties(orders[0], rows[i], rows[j]) ==>
                   RowLeq(orders[1..], rows[i], rows[j])
  {
    forall i, j | 0 <= i < j < |rows|
      ensures RowLeq(orders, rows[i], rows[j]) <==>
                && RowLeq([orders[0]], rows[i], rows[j])
                && (Ties(orders[0], rows[i], rows[j]) ==> RowLeq(orders[1..], rows[i], rows[j]))
    {
      assert [orders[0]][1..] == [];
    }
  }
}
