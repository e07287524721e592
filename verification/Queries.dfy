/** Queries with aggregates from the planner through the optimizer to their answers. */
module Queries {
  import opened Wrappers
  import opened Values
  import opened Expressions
  import opened Plans
  import opened BoundExpressions
  import opened AggregatePlanning
  import opened AggregateMeaning
  import opened AggregateSelect
  import opened Rules
  import opened WellFormed
  import opened Pipeline
  import opened PlainSelects
  import opened Scopes
  import opened TablePlans
  import opened FromRows
  import opened SelectStar

  lemma TwoReadSchema(x: Expr, y: Expr, w: nat)
    requires ColumnsBelow(x, w) && ColumnsBelow(y, w)
    ensures AllColumnsBelow([x, y], w)
  {
    assert [x, y][1..] == [y] && [y][1..] == [];
  }

  /** A planned expression reads only columns of the schema it was planned over. */
  lemma {:induction false} PlannedReadsSchema(e: BoundExpr, s: Schema, aggs: seq<Expr>, k: nat)
    requires PlanExpr(e, [s], aggs, k).Ok? && forall i :: 0 <= i < |aggs| ==> ColumnsBelow(aggs[i], |s|)
    ensures ColumnsBelow(PlanExpr(e, [s], aggs, k).value.expr, |s|)
    decreases e, 1
  {
    match e
    case BinaryOp(op, l, r) =>
      PlannedReadsSchema(l, s, aggs, k);
      var x := PlanExpr(l, [s], aggs, k).value;
      PlannedReadsSchema(r, s, aggs, x.next);
      TwoReadSchema(x.expr, PlanExpr(r, [s], aggs, x.next).value.expr, |s|);
    case FuncCall(_, args) => PlannedListReadsSchema(args, s, aggs, k);
    case Alias(_, child) => PlannedReadsSchema(child, s, aggs, k);
    case _ =>
  }

  lemma {:induction false} PlannedListReadsSchema(es: seq<BoundExpr>, s: Schema, aggs: seq<Expr>, k: nat)
    requires PlanList(es, [s], aggs, k).Ok? && forall i :: 0 <= i < |aggs| ==> ColumnsBelow(aggs[i], |s|)
    ensures AllColumnsBelow(PlanList(es, [s], aggs, k).value.exprs, |s|)
    decreases es, 0
  {
    if es != [] {
      PlannedReadsSchema(es[0], s, aggs, k);
      PlannedListReadsSchema(es[1..], s, aggs, PlanExpr(es[0], [s], aggs, k).value.next);
      var exprs := PlanList(es, [s], aggs, k).value.exprs;
      assert exprs[1..] == PlanList(es[1..], [s], aggs, PlanExpr(es[0], [s], aggs, k).value.next).value.exprs;
    }
  }

  /** The planned HAVING, if there is one, is a boolean expression. */
  ghost predicate BooleanHaving(plan: Plan) {
    |plan.children| == 1 && (plan.children[0].kind.Filter? ==> BooleanPredicate(plan.children[0].kind.predicate_))
  }

  lemma OverOk(cat: Catalog, k: Kind, s: Schema, child: Plan)
    requires PlanOk(cat, child) && NodeOk(cat, k, s, [Types(child.schema)]) && !k.Sort?
    ensures PlanOk(cat, Node(k, s, [child]))
  {
    assert KidTypes([child]) == [Types(child.schema)];
  }

  lemma HavingPlanOk(cat: Catalog, having: Option<BoundExpr>, agg: Plan, aggs: seq<Expr>)
    requires PlanOk(cat, agg) && PlanHaving(having, agg, aggs).Ok?
    requires forall i :: 0 <= i < |aggs| ==> ColumnsBelow(aggs[i], |agg.schema|)
    requires having.Some? ==> BooleanPredicate(PlanHaving(having, agg, aggs).value.0.kind.predicate_)
    ensures PlanOk(cat, PlanHaving(having, agg, aggs).value.0)
  {
    if having.Some? {
      PlannedReadsSchema(Pseudo(having.value, 0), agg.schema, aggs, 0);
      OverOk(cat, PlanHaving(having, agg, aggs).value.0.kind, agg.schema, agg);
    }
  }

  lemma AggregatePlanOk(cat: Catalog, groupBy: seq<BoundExpr>, having: Option<BoundExpr>, select: seq<BoundExpr>,
                        child: Plan)
    requires PlanSelectAgg(groupBy, having, select, child).Ok? && PlanOk(cat, child)
    requires having.Some? ==> BooleanHaving(PlanSelectAgg(groupBy, having, select, child).value)
    ensures PlanOk(cat, PlanSelectAgg(groupBy, having, select, child).value)
  {
    var calls, plan := AllCalls(having, select), PlanSelectAgg(groupBy, having, select, child).value;
    var g, c := PlanList(groupBy, [child.schema], [], 0).value, PlanCalls(calls, [child.schema]).value;
    var agg := Node(Aggregation(g.exprs, c.inputs, c.types), AggSchema(g.names, g.exprs, |calls|), [child]);
    OverOk(cat, agg.kind, agg.schema, child);
    HavingPlanOk(cat, having, agg, AggColumns(|groupBy|, |calls|));
    OverOk(cat, plan.kind, plan.schema, plan.children[0]);
  }

  /** A query with aggregates, planned and optimized with either pipeline: whatever the optimized plan gives answers the
      statement over rows that its input gives. */
  lemma OptimizedAggregateAnswers(force: bool, cat: Catalog, db: Database, groupBy: seq<BoundExpr>,
                                  having: Option<BoundExpr>, select: seq<BoundExpr>, child: Plan, rows: seq<Row>)
    requires PlanSelectAgg(groupBy, having, select, child).Ok?
    requires PlainGroupBy(groupBy) && QualifiedAll(select) && (having.Some? ==> Qualified(having.value))
    requires having.Some? ==> BooleanHaving(PlanSelectAgg(groupBy, having, select, child).value)
    requires PlanOk(cat, child) && NoScanFilters(child) && Agrees(cat, db)
    ensures var q := Optimize(force, cat, PlanSelectAgg(groupBy, having, select, child).value);
            && q.Some?
            && (Produces(q.value, db, rows) ==>
                  exists xs: seq<Row> :: Produces(child, db, xs)
                                         && IsAnswer(db, groupBy, having, select, child.schema, xs, rows))
  {
    var plan := PlanSelectAgg(groupBy, having, select, child).value;
    AggregatePlanOk(cat, groupBy, having, select, child);
    AggregatesKeepScansPlain(groupBy, having, select, child);
    OptimizeSound(force, cat, db, plan);
    PlanAnswersStatement(db, groupBy, having, select, child, rows);
  }

  // ----- Plain selects -----

  /** The planned WHERE, if there is one, is a boolean expression. */
  ghost predicate BooleanWhere(where: Option<BoundExpr>, s: Schema) {
    where.Some? && PlanExpr(where.value, [s], [], 0).Ok? ==>
      BooleanPredicate(PlanExpr(where.value, [s], [], 0).value.expr)
  }

  lemma SelectPlanOk(cat: Catalog, where: Option<BoundExpr>, items: seq<BoundExpr>, p: Plan, id: nat)
    requires PlanSelect(where, items, p, id).Ok? && PlanOk(cat, p) && BooleanWhere(where, p.schema)
    ensures PlanOk(cat, PlanSelect(where, items, p, id).value)
  {
    var q, plan := PlanWhere(where, p).value, PlanSelect(where, items, p, id).value;
    if where.Some? {
      PlannedReadsSchema(where.value, p.schema, [], 0);
      OverOk(cat, q.kind, q.schema, p);
    }
    OverOk(cat, plan.kind, plan.schema, q);
  }

  /** A plain select, planned and optimized with either pipeline: whatever the optimized plan gives answers the
      statement over rows that its FROM clause gives. */
  lemma OptimizedSelectAnswers(force: bool, cat: Catalog, db: Database, where: Option<BoundExpr>, items: seq<BoundExpr>,
                               p: Plan, id: nat, rows: seq<Row>)
    requires PlanSelect(where, items, p, id).Ok? && BooleanWhere(where, p.schema)
    requires PlanOk(cat, p) && NoScanFilters(p) && Agrees(cat, db)
    ensures var q := Optimize(force, cat, PlanSelect(where, items, p, id).value);
            && q.Some?
            && (Produces(q.value, db, rows) ==>
                  exists xs: seq<Row> :: Produces(p, db, xs) && rows == SelectAnswer(where, items, p.schema, xs))
  {
    SelectPlanOk(cat, where, items, p, id);
    SelectKeepsScansPlain(where, items, p, id);
    OptimizeSound(force, cat, db, PlanSelect(where, items, p, id).value);
    PlanSelectAnswers(db, where, items, p, id, rows);
  }

  // ----- Whole statements -----

  /** A plain select over a FROM clause, planned and optimized: whatever the optimized plan gives answers the
      statement on rows of the clause. */
  lemma OptimizedSelectFrom(force: bool, cat: Catalog, db: Database, where: Option<BoundExpr>, items: seq<BoundExpr>,
                            ref: TableRef, ctes: CTEList, id: nat, rows: seq<Row>)
    requires ScopeOk(ref, ctes) && PlanTableRef(ref, ctes).Ok? && RefOk(cat, ref, ctes) && Agrees(cat, db)
    requires PlanSelect(where, items, PlanTableRef(ref, ctes).value, id).Ok?
    requires BooleanWhere(where, ScopeSchema(ref, ctes))
    ensures var q := Optimize(force, cat, PlanSelect(where, items, PlanTableRef(ref, ctes).value, id).value);
            && q.Some?
            && (Produces(q.value, db, rows) ==>
                  exists xs: seq<Row> ::
                    Gives(ref, ctes, db, xs) && rows == SelectAnswer(where, items, ScopeSchema(ref, ctes), xs))
  {
    var p := PlanTableRef(ref, ctes).value;
    PlannedTableOk(cat, ref, ctes);
    PlanSchema(ref, ctes);
    RefOkStored(cat, ref, ctes);
    TableRefAnswers(cat, db, ref, ctes);
    OptimizedSelectAnswers(force, cat, db, where, items, p, id, rows);
  }

  /** The same for a select with aggregates. */
  lemma OptimizedAggregateFrom(force: bool, cat: Catalog, db: Database, groupBy: seq<BoundExpr>,
                               having: Option<BoundExpr>, select: seq<BoundExpr>, ref: TableRef, ctes: CTEList,
                               rows: seq<Row>)
    requires ScopeOk(ref, ctes) && PlanTableRef(ref, ctes).Ok? && RefOk(cat, ref, ctes) && Agrees(cat, db)
    requires PlanSelectAgg(groupBy, having, select, PlanTableRef(ref, ctes).value).Ok?
    requires PlainGroupBy(groupBy) && QualifiedAll(select) && (having.Some? ==> Qualified(having.value))
    requires having.Some? ==> BooleanHaving(PlanSelectAgg(groupBy, having, select, PlanTableRef(ref, ctes).value).value)
    ensures var q := Optimize(force, cat, PlanSelectAgg(groupBy, having, select, PlanTableRef(ref, ctes).value).value);
            && q.Some?
            && (Produces(q.value, db, rows) ==>
                  exists xs: seq<Row> ::
                    Gives(ref, ctes, db, xs) && IsAnswer(db, groupBy, having, select, ScopeSchema(ref, ctes), xs, rows))
  {
    var p := PlanTableRef(ref, ctes).value;
    PlannedTableOk(cat, ref, ctes);
    PlanSchema(ref, ctes);
    RefOkStored(cat, ref, ctes);
    TableRefAnswers(cat, db, ref, ctes);
    OptimizedAggregateAnswers(force, cat, db, groupBy, having, select, p, rows);
  }
}
