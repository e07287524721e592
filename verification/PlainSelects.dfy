/** The plain select: WHERE and a select list over the plan of the FROM clause. */
module PlainSelects {
  import opened Wrappers
  import opened Values
  import opened Expressions
  import opened Plans
  import opened Naming
  import opened BoundExpressions
  import opened AggregatePlanning
  import opened AggregateMeaning
  import opened AggregateSelect
  import opened WellFormed

  /** Columns without a name are numbered, from `id` on. */
  function Numbered(names: seq<string>, id: nat): (r: seq<string>)
    ensures |r| == |names|
  {
    if names == [] then []
    else if names[0] == UNNAMED then ["__unnamed#" + Decimal(id)] + Numbered(names[1..], id + 1)
    else [names[0]] + Numbered(names[1..], id)
  }

  ghost function PlanWhere(where: Option<BoundExpr>, p: Plan): Result<Plan, PlanError> {
    match where
    case None => Ok(p)
    case Some(e) =>
      match PlanExpr(e, [p.schema], [], 0)
      case Err(x) => Err(x)
      case Ok(f) => Ok(Node(Filter(f.expr), p.schema, [p]))
  }

  ghost function PlanItems(items: seq<BoundExpr>, p: Plan, id: nat): Result<Plan, PlanError> {
    match PlanList(items, [p.schema], [], 0)
    case Err(x) => Err(x)
    case Ok(ps) => Ok(Node(Projection(ps.exprs), NamedSchema(Numbered(ps.names, id), ps.exprs), [p]))
  }

  ghost function PlanSelect(where: Option<BoundExpr>, items: seq<BoundExpr>, p: Plan, id: nat)
    : Result<Plan, PlanError>
  {
    match PlanWhere(where, p)
    case Err(x) => Err(x)
    case Ok(q) => PlanItems(items, q, id)
  }

  // ----- The names of the output columns -----

  /** How many of the names are missing. */
  function Missing(names: seq<string>): nat {
    multiset(names)[UNNAMED]
  }

  lemma MissingCons(names: seq<string>, i: nat)
    requires 0 < i <= |names|
    ensures Missing(names[..i]) == (if names[0] == UNNAMED then 1 else 0) + Missing(names[1..][..i - 1])
  {
    assert names[..i] == [names[0]] + names[1..][..i - 1];
  }

  lemma {:induction false} NumberedAt(names: seq<string>, id: nat, i: nat)
    requires i < |names|
    ensures Numbered(names, id)[i] ==
              if names[i] == UNNAMED then "__unnamed#" + Decimal(id + Missing(names[..i])) else names[i]
  {
    if i > 0 {
      var next := if names[0] == UNNAMED then id + 1 else id;
      NumberedAt(names[1..], next, i - 1);
      MissingCons(names, i);
      assert Numbered(names, id)[1..] == Numbered(names[1..], next);
      assert next + Missing(names[1..][..i - 1]) == id + Missing(names[..i]);
    }
  }

  /** The output columns of a select go by the names of its items, and those without one are numbered from left to
      right. */
  lemma SelectNames(where: Option<BoundExpr>, items: seq<BoundExpr>, p: Plan, id: nat, i: nat)
    requires PlanSelect(where, items, p, id).Ok? && i < |items|
    ensures var s, names := PlanSelect(where, items, p, id).value.schema, NamesOf(items);
            && |s| == |items|
            && s[i].name == if names[i] == UNNAMED then "__unnamed#" + Decimal(id + Missing(names[..i])) else names[i]
  {
    ListNames(items, [PlanWhere(where, p).value.schema], [], 0);
    NumberedAt(NamesOf(items), id, i);
  }

  // ----- The meaning of the statement -----

  /** The rows on which WHERE is true, in order. */
  function WhereRows(where: BoundExpr, s: Schema, xs: seq<Row>): seq<Row> {
    if xs == [] then []
    else (if BoundValue(where, s, xs[0]) == BoolV(true) then [xs[0]] else []) + WhereRows(where, s, xs[1..])
  }

  /** One row of item values for each of them. */
  function SelectAnswer(where: Option<BoundExpr>, items: seq<BoundExpr>, s: Schema, xs: seq<Row>): seq<Row> {
    var kept := if where.Some? then WhereRows(where.value, s, xs) else xs;
    seq(|kept|, i requires 0 <= i < |kept| => BoundValues(items, s, kept[i]))
  }

  lemma {:induction false} FilterIsWhere(e: Expr, where: BoundExpr, s: Schema, xs: seq<Row>)
    requires forall row: Row :: Eval(e, row) == BoundValue(where, s, row)
    ensures FilterRows(e, xs) == WhereRows(where, s, xs)
  {
    if xs != [] {
      FilterIsWhere(e, where, s, xs[1..]);
    }
  }

  lemma ProjectedAnswer(filter: Option<Expr>, targets: seq<Expr>, where: Option<BoundExpr>, items: seq<BoundExpr>,
                        s: Schema, xs: seq<Row>)
    requires filter.Some? == where.Some?
    requires filter.Some? ==> forall row: Row :: Eval(filter.value, row) == BoundValue(where.value, s, row)
    requires forall row: Row :: EvalAll(targets, row) == BoundValues(items, s, row)
    ensures ProjectRows(targets, FilterOptional(filter, xs)) == SelectAnswer(where, items, s, xs)
  {
    if filter.Some? {
      FilterIsWhere(filter.value, where.value, s, xs);
    }
  }

  /** Planning a plain select is correct: whenever it succeeds, the plan produces exactly the answers of the statement
      over the rows its FROM clause may produce. */
  lemma PlanSelectAnswers(db: Database, where: Option<BoundExpr>, items: seq<BoundExpr>, p: Plan, id: nat,
                          rows: seq<Row>)
    requires PlanSelect(where, items, p, id).Ok?
    ensures Produces(PlanSelect(where, items, p, id).value, db, rows) <==>
              exists xs: seq<Row> :: Produces(p, db, xs) && rows == SelectAnswer(where, items, p.schema, xs)
  {
    var s, ps := p.schema, PlanList(items, [p.schema], [], 0).value;
    var filter := if where.Some? then Some(PlanExpr(where.value, [s], [], 0).value.expr) else None;
    if where.Some? {
      PlannedOnRow(where.value, s);
    }
    PlannedListOnRow(items, s);
    TopProduces(db, p, filter, ps.exprs, NamedSchema(Numbered(ps.names, id), ps.exprs), rows);
    forall xs: seq<Row> ensures ProjectRows(ps.exprs, FilterOptional(filter, xs)) == SelectAnswer(where, items, s, xs) {
      ProjectedAnswer(filter, ps.exprs, where, items, s, xs);
    }
  }

  // ----- What the optimizer may rely on -----

  lemma SelectKeepsScansPlain(where: Option<BoundExpr>, items: seq<BoundExpr>, p: Plan, id: nat)
    requires PlanSelect(where, items, p, id).Ok? && NoScanFilters(p)
    ensures NoScanFilters(PlanSelect(where, items, p, id).value)
  {
    assert NoScanFilters(PlanWhere(where, p).value);
  }
}
