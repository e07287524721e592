/** Bound expressions of the binder, and what they mean on a row and on a group of rows. */
module BoundExpressions {
  import opened Wrappers
  import opened Values
  import opened Expressions
  import opened Plans
  import opened Naming

  datatype BoundExpr =
    | ColumnRef(path: seq<string>)
    | BoundConstant(val: Value)
    | AggCall(func: string, distinct: bool, args: seq<BoundExpr>)
    | BinaryOp(op: string, larg: BoundExpr, rarg: BoundExpr)
    | FuncCall(func: string, args: seq<BoundExpr>)
    | Alias(alias: string, child: BoundExpr)
    | Refused  // stars, unary operators, window calls: not planned here

  const UNNAMED: string := "<unnamed>"

  /** The operator a binary operator name stands for. */
  function OperatorOf(op: string): Option<Operator> {
    if op == "=" || op == "==" then Some(Comparison(Equal))
    else if op == "!=" || op == "<>" then Some(Comparison(NotEqual))
    else if op == "<" then Some(Comparison(LessThan))
    else if op == "<=" then Some(Comparison(LessThanOrEqual))
    else if op == ">" then Some(Comparison(GreaterThan))
    else if op == ">=" then Some(Comparison(GreaterThanOrEqual))
    else if op == "+" then Some(Arithmetic(Plus))
    else if op == "-" then Some(Arithmetic(Minus))
    else if op == "and" then Some(Logic(And))
    else if op == "or" then Some(Logic(Or))
    else None
  }

  function AggregateOf(func: string): Option<AggregationType> {
    if func == "min" then Some(Min)
    else if func == "max" then Some(Max)
    else if func == "sum" then Some(Sum)
    else if func == "count" then Some(Count)
    else None
  }

  function ApplyBinary(op: string, l: Value, r: Value): Value {
    match OperatorOf(op)
    case None => Null(INTEGER)
    case Some(o) => Apply(o, [l, r])
  }

  function ApplyFunction(func: string, vals: seq<Value>): Value {
    if func == "construct_array" then Apply(ArrayOf, vals) else Null(INTEGER)
  }

  /** The value of an expression without aggregate calls on one row of a relation with the given schema. */
  function BoundValue(e: BoundExpr, s: Schema, row: Row): Value
    decreases e, 1
  {
    match e
    case ColumnRef(path) =>
      (match TryGetColIdx(s, JoinPath(path))
       case None => Null(INTEGER)
       case Some(i) => ColumnOf(row, i, s[i].t))
    case BoundConstant(v) => v
    case BinaryOp(op, l, r) => ApplyBinary(op, BoundValue(l, s, row), BoundValue(r, s, row))
    case FuncCall(func, args) => ApplyFunction(func, BoundValues(args, s, row))
    case Alias(_, child) => BoundValue(child, s, row)
    case _ => Null(INTEGER)
  }

  function BoundValues(es: seq<BoundExpr>, s: Schema, row: Row): (vs: seq<Value>)
    ensures |vs| == |es|
    ensures forall i :: 0 <= i < |es| ==> vs[i] == BoundValue(es[i], s, row)
    decreases es, 0
  {
    if es == [] then [] else [BoundValue(es[0], s, row)] + BoundValues(es[1..], s, row)
  }

  /** The value of an aggregate call on a group: the aggregate of its argument over the rows of the group;
      count_star counts the constant 1. */
  function CallValue(db: Database, call: BoundExpr, s: Schema, group: seq<Row>): Value
    requires call.AggCall?
  {
    if call.args == [] then db.aggregate(CountStar, seq(|group|, i => IntV(1)))
    else match AggregateOf(call.func)
      case None => Null(INTEGER)
      case Some(t) =>
        db.aggregate(t, seq(|group|, i requires 0 <= i < |group| => BoundValue(call.args[0], s, group[i])))
  }

  /** The value of an expression on a group: columns are read from a row of the group, aggregate calls range over
      the whole group. */
  function GroupValue(db: Database, e: BoundExpr, s: Schema, group: seq<Row>): Value
    decreases e, 1
  {
    match e
    case ColumnRef(_) => if group == [] then Null(INTEGER) else BoundValue(e, s, group[0])
    case BoundConstant(v) => v
    case AggCall(_, _, _) => CallValue(db, e, s, group)
    case BinaryOp(op, l, r) => ApplyBinary(op, GroupValue(db, l, s, group), GroupValue(db, r, s, group))
    case FuncCall(func, args) => ApplyFunction(func, GroupValues(db, args, s, group))
    case Alias(_, child) => GroupValue(db, child, s, group)
    case Refused => Null(INTEGER)
  }

  function GroupValues(db: Database, es: seq<BoundExpr>, s: Schema, group: seq<Row>): (vs: seq<Value>)
    ensures |vs| == |es|
    decreases es, 0
  {
    if es == [] then [] else [GroupValue(db, es[0], s, group)] + GroupValues(db, es[1..], s, group)
  }

  // ----- Aggregate calls inside an expression -----

  /** The aggregate calls of an expression, left to right. */
  function Calls(e: BoundExpr): (cs: seq<BoundExpr>)
    ensures forall c :: c in cs ==> c.AggCall?
    decreases e, 1
  {
    match e
    case AggCall(_, _, _) => [e]
    case BinaryOp(_, l, r) => Calls(l) + Calls(r)
    case FuncCall(_, args) => CallsAll(args)
    case Alias(_, child) => Calls(child)
    case _ => []
  }

  function CallsAll(es: seq<BoundExpr>): (cs: seq<BoundExpr>)
    ensures forall c :: c in cs ==> c.AggCall?
    decreases es, 0
  {
    if es == [] then [] else Calls(es[0]) + CallsAll(es[1..])
  }

  /** The expression with its aggregate calls replaced by numbered placeholders, counting from `n`. */
  function Pseudo(e: BoundExpr, n: nat): BoundExpr
    decreases e, 1
  {
    match e
    case AggCall(_, distinct, _) => AggCall("__pseudo_agg#" + Decimal(n), distinct, [])
    case BinaryOp(op, l, r) => BinaryOp(op, Pseudo(l, n), Pseudo(r, n + |Calls(l)|))
    case FuncCall(func, args) => FuncCall(func, PseudoAll(args, n))
    case Alias(alias, child) => Alias(alias, Pseudo(child, n))
    case _ => e
  }

  function PseudoAll(es: seq<BoundExpr>, n: nat): (r: seq<BoundExpr>)
    ensures |r| == |es|
    decreases es, 0
  {
    if es == [] then [] else [Pseudo(es[0], n)] + PseudoAll(es[1..], n + |Calls(es[0])|)
  }

  /** The collecting walk meets nothing it refuses. */
  predicate Collectable(e: BoundExpr)
    decreases e, 1
  {
    match e
    case BinaryOp(_, l, r) => Collectable(l) && Collectable(r)
    case FuncCall(_, args) => CollectableAll(args)
    case Alias(_, child) => Collectable(child)
    case Refused => false
    case _ => true
  }

  predicate CollectableAll(es: seq<BoundExpr>)
    decreases es, 0
  {
    es == [] || (Collectable(es[0]) && CollectableAll(es[1..]))
  }

  /** Every column the binder resolved carries the name of its table. */
  predicate Qualified(e: BoundExpr)
    decreases e, 1
  {
    match e
    case ColumnRef(path) => |path| >= 2
    case AggCall(_, _, _) => true
    case BinaryOp(_, l, r) => Qualified(l) && Qualified(r)
    case FuncCall(_, args) => QualifiedAll(args)
    case Alias(_, child) => Qualified(child)
    case _ => true
  }

  predicate QualifiedAll(es: seq<BoundExpr>)
    decreases es, 0
  {
    es == [] || (Qualified(es[0]) && QualifiedAll(es[1..]))
  }
}

/** Two-phase planning of a select with aggregates: what the planner computes. */
module AggregatePlanning {
  import opened Wrappers
  import opened Values
  import opened Expressions
  import opened Plans
  import opened Naming
  import opened BoundExpressions

  datatype Planned = Planned(name: string, expr: Expr, next: nat)
  datatype PlannedList = PlannedList(names: seq<string>, exprs: seq<Expr>, next: nat)
  datatype PlannedCalls = PlannedCalls(types: seq<AggregationType>, inputs: seq<Expr>)

  function BinaryExpression(op: string, l: Expr, r: Expr): Result<Expr, PlanError> {
    match OperatorOf(op)
    case None => Err(UnsupportedOperator)
    case Some(Arithmetic(a)) =>
      if ReturnType(l) != INTEGER || ReturnType(r) != INTEGER then Err(NotInteger) else Ok(Op(Arithmetic(a), [l, r]))
    case Some(Logic(x)) =>
      if ReturnType(l) != BOOLEAN || ReturnType(r) != BOOLEAN then Err(NotBoolean) else Ok(Op(Logic(x), [l, r]))
    case Some(o) => Ok(Op(o, [l, r]))
  }

  /** The consuming walk: an aggregate call takes the next of the prepared expressions, whatever it says itself. */
  ghost function PlanExpr(e: BoundExpr, kids: seq<Schema>, aggs: seq<Expr>, k: nat): Result<Planned, PlanError>
    decreases e, 1
  {
    match e
    case AggCall(_, _, _) =>
      if k >= |aggs| then Err(UnexpectedAggCall) else Ok(Planned(UNNAMED, aggs[k], k + 1))
    case ColumnRef(path) =>
      (match PlanColumn(path, kids)
       case Err(x) => Err(x)
       case Ok(c) => Ok(Planned(JoinPath(path), c, k)))
    case BoundConstant(v) => Ok(Planned(UNNAMED, Constant(v), k))
    case BinaryOp(op, l, r) =>
      (match PlanExpr(l, kids, aggs, k)
       case Err(x) => Err(x)
       case Ok(pl) =>
         match PlanExpr(r, kids, aggs, pl.next)
         case Err(x) => Err(x)
         case Ok(pr) =>
           match BinaryExpression(op, pl.expr, pr.expr)
           case Err(x) => Err(x)
           case Ok(b) => Ok(Planned(UNNAMED, b, pr.next)))
    case FuncCall(func, args) =>
      (match PlanList(args, kids, aggs, k)
       case Err(x) => Err(x)
       case Ok(ps) =>
         if func == "construct_array" then Ok(Planned(UNNAMED, Op(ArrayOf, ps.exprs), ps.next))
         else Err(UnsupportedFunction))
    case Alias(alias, child) =>
      (match PlanExpr(child, kids, aggs, k)
       case Err(x) => Err(x)
       case Ok(p) => Ok(Planned(alias, p.expr, p.next)))
    case Refused => Err(UnsupportedExpression)
  }

  ghost function PlanList(es: seq<BoundExpr>, kids: seq<Schema>, aggs: seq<Expr>, k: nat)
    : (r: Result<PlannedList, PlanError>)
    ensures r.Ok? ==> |r.value.names| == |r.value.exprs| == |es|
    decreases es, 0
  {
    if es == [] then Ok(PlannedList([], [], k))
    else
      match PlanExpr(es[0], kids, aggs, k)
      case Err(x) => Err(x)
      case Ok(p) =>
        match PlanList(es[1..], kids, aggs, p.next)
        case Err(x) => Err(x)
        case Ok(ps) => Ok(PlannedList([p.name] + ps.names, [p.expr] + ps.exprs, ps.next))
  }

  /** One collected call over the rows below the aggregation; its arguments may hold no further call. */
  ghost function PlanCall(call: BoundExpr, kids: seq<Schema>): Result<(AggregationType, Expr), PlanError>
    requires call.AggCall?
  {
    if call.distinct then Err(DistinctAggregate)
    else match PlanList(call.args, kids, [], 0)
      case Err(x) => Err(x)
      case Ok(ps) =>
        if |ps.exprs| == 0 && call.func == "count_star" then Ok((CountStar, Constant(IntV(1))))
        else if |ps.exprs| == 1 && AggregateOf(call.func).Some? then Ok((AggregateOf(call.func).value, ps.exprs[0]))
        else Err(UnsupportedFunction)
  }

  ghost function PlanCalls(calls: seq<BoundExpr>, kids: seq<Schema>): (r: Result<PlannedCalls, PlanError>)
    requires forall c :: c in calls ==> c.AggCall?
    ensures r.Ok? ==> |r.value.types| == |r.value.inputs| == |calls|
  {
    if calls == [] then Ok(PlannedCalls([], []))
    else
      match PlanCall(calls[0], kids)
      case Err(x) => Err(x)
      case Ok(p) =>
        match PlanCalls(calls[1..], kids)
        case Err(x) => Err(x)
        case Ok(ps) => Ok(PlannedCalls([p.0] + ps.types, [p.1] + ps.inputs))
  }

  /** The output columns of the aggregation: the group-by items under their names, then agg#0, agg#1, ... */
  function AggSchema(names: seq<string>, exprs: seq<Expr>, n: nat): (s: Schema)
    requires |names| == |exprs|
    ensures |s| == |names| + n
  {
    seq(|names|, i requires 0 <= i < |names| => Column(names[i], ReturnType(exprs[i])))
    + seq(n, i requires 0 <= i < n => Column("agg#" + Decimal(i), INTEGER))
  }

  /** What the calls become above the aggregation: its output columns after the group-by columns. */
  function AggColumns(from: nat, n: nat): (es: seq<Expr>)
    ensures |es| == n
  {
    seq(n, i requires 0 <= i < n => ColumnValue(0, from + i, INTEGER))
  }

  function NamedSchema(names: seq<string>, exprs: seq<Expr>): (s: Schema)
    requires |names| == |exprs|
    ensures |s| == |names|
  {
    seq(|names|, i requires 0 <= i < |names| => Column(names[i], ReturnType(exprs[i])))
  }

  function OptionalCalls(having: Option<BoundExpr>): (cs: seq<BoundExpr>)
    ensures forall c :: c in cs ==> c.AggCall?
  {
    match having
    case None => []
    case Some(h) => Calls(h)
  }

  /** HAVING first, then the select list. */
  function AllCalls(having: Option<BoundExpr>, select: seq<BoundExpr>): (cs: seq<BoundExpr>)
    ensures forall c :: c in cs ==> c.AggCall?
  {
    OptionalCalls(having) + CallsAll(select)
  }

  ghost function PlanHaving(having: Option<BoundExpr>, agg: Plan, aggs: seq<Expr>): Result<(Plan, nat), PlanError> {
    match having
    case None => Ok((agg, 0))
    case Some(h) =>
      match PlanExpr(Pseudo(h, 0), [agg.schema], aggs, 0)
      case Err(x) => Err(x)
      case Ok(p) => Ok((Node(Filter(p.expr), agg.schema, [agg]), p.next))
  }

  ghost function PlanTargets(select: seq<BoundExpr>, first: nat, plan: Plan, aggs: seq<Expr>, k: nat)
    : Result<Plan, PlanError>
  {
    match PlanList(PseudoAll(select, first), [plan.schema], aggs, k)
    case Err(x) => Err(x)
    case Ok(ps) => Ok(Node(Projection(ps.exprs), NamedSchema(ps.names, ps.exprs), [plan]))
  }

  /** The whole plan of a select with aggregates over `child`. */
  ghost function PlanSelectAgg(groupBy: seq<BoundExpr>, having: Option<BoundExpr>, select: seq<BoundExpr>, child: Plan)
    : Result<Plan, PlanError>
  {
    match PlanList(groupBy, [child.schema], [], 0)
    case Err(x) => Err(x)
    case Ok(g) =>
      if having.Some? && !Collectable(having.value) then Err(UnsupportedExpression)
      else if !CollectableAll(select) then Err(UnsupportedExpression)
      else
        var calls := AllCalls(having, select);
        match PlanCalls(calls, [child.schema])
        case Err(x) => Err(x)
        case Ok(c) =>
          var agg := Node(Aggregation(g.exprs, c.inputs, c.types), AggSchema(g.names, g.exprs, |calls|), [child]);
          var aggs := AggColumns(|groupBy|, |calls|);
          match PlanHaving(having, agg, aggs)
          case Err(x) => Err(x)
          case Ok(h) => PlanTargets(select, |OptionalCalls(having)|, h.0, aggs, h.1)
  }
}
