/** The rows of a FROM clause, said without plans, and the proof that its plan gives exactly those. */
module FromRows {
  import opened Wrappers
  import opened Values
  import opened Expressions
  import opened Plans
  import opened Naming
  import opened BoundExpressions
  import opened AggregatePlanning
  import opened AggregateMeaning
  import opened AggregateSelect
  import opened PlainSelects
  import opened Scopes
  import opened TablePlans
  import opened WellFormed
  import opened RowLemmas
  import opened Soundness

  // ----- The columns of a scope -----

  function ScopeTypes(ref: TableRef, ctes: CTEList): (ts: seq<TypeId>)
    requires ScopeOk(ref, ctes)
    ensures |ts| == |Leaves(ref, ctes)|
  {
    match ref
    case BaseTable(_, _, _, columns) => seq(|columns|, i requires 0 <= i < |columns| => columns[i].t)
    case CrossProduct(l, r) => ScopeTypes(l, ctes) + ScopeTypes(r, ctes)
    case Join(_, l, r, _) => ScopeTypes(l, ctes) + ScopeTypes(r, ctes)
    case Subquery(sub) => Types(sub.body.schema)
    case CTE(name, _) => Types(FindCTE(name, ctes).body.schema)
  }

  /** Every column in scope, under its name behind its alias. */
  function ScopeSchema(ref: TableRef, ctes: CTEList): (s: Schema)
    requires ScopeOk(ref, ctes)
    ensures |s| == |Leaves(ref, ctes)|
  {
    var ls, ts := Leaves(ref, ctes), ScopeTypes(ref, ctes);
    seq(|ls|, i requires 0 <= i < |ls| => Column(JoinPath(AliasPath(ls[i])), ts[i]))
  }

  // ----- The rows of a FROM clause -----

  /** A left row with every right row. */
  function WithAll(l: Row, ys: seq<Row>): (rows: seq<Row>)
    ensures |rows| == |ys|
  {
    seq(|ys|, j requires 0 <= j < |ys| => l + ys[j])
  }

  function AllPairs(xs: seq<Row>, ys: seq<Row>): seq<Row> {
    if xs == [] then [] else WithAll(xs[0], ys) + AllPairs(xs[1..], ys)
  }

  /** Left row by left row, the pairs that satisfy the condition; a LEFT join pads a left row that has none. */
  function JoinedPairs(jt: JoinType, cond: BoundExpr, s: Schema, xs: seq<Row>, ys: seq<Row>, nulls: Row): seq<Row> {
    if xs == [] then []
    else
      var matched := WhereRows(cond, s, WithAll(xs[0], ys));
      (if matched == [] && jt == LEFT then [xs[0] + nulls] else matched)
      + JoinedPairs(jt, cond, s, xs[1..], ys, nulls)
  }

  function Nulls(ts: seq<TypeId>): (row: Row)
    ensures |row| == |ts|
  {
    seq(|ts|, i requires 0 <= i < |ts| => Null(ts[i]))
  }

  /** `rows` is what the FROM clause may give on the stored data. */
  ghost predicate Gives(ref: TableRef, ctes: CTEList, db: Database, rows: seq<Row>)
    requires ScopeOk(ref, ctes)
  {
    match ref
    case BaseTable(table, oid, _, columns) =>
      if StartsWith(table, "__") then AllWidth(rows, |columns|) && db.other(oid, [], rows)
      else oid in db.tables && rows == db.tables[oid]
    case Subquery(sub) => Produces(sub.body, db, rows)
    case CTE(name, _) => Produces(FindCTE(name, ctes).body, db, rows)
    case CrossProduct(l, r) =>
      exists xs: seq<Row>, ys: seq<Row> :: Gives(l, ctes, db, xs) && Gives(r, ctes, db, ys) && rows == AllPairs(xs, ys)
    case Join(jt, l, r, cond) =>
      && (jt == INNER || jt == LEFT)
      && exists xs: seq<Row>, ys: seq<Row> ::
           && Gives(l, ctes, db, xs) && Gives(r, ctes, db, ys)
           && rows == JoinedPairs(jt, cond, ScopeSchema(ref, ctes), xs, ys, Nulls(ScopeTypes(r, ctes)))
  }

  /** Stored tables are those of the catalog, and the plans of subqueries are well-formed. */
  ghost predicate RefStored(cat: Catalog, ref: TableRef, ctes: CTEList)
    requires ScopeOk(ref, ctes)
  {
    match ref
    case BaseTable(table, oid, _, columns) =>
      StartsWith(table, "__") || (oid in cat.tables && cat.tables[oid] == TableInfo(table, Types(columns)))
    case Subquery(sub) => PlanOk(cat, sub.body)
    case CTE(name, _) => PlanOk(cat, FindCTE(name, ctes).body)
    case CrossProduct(l, r) => RefStored(cat, l, ctes) && RefStored(cat, r, ctes)
    case Join(_, l, r, _) => RefStored(cat, l, ctes) && RefStored(cat, r, ctes)
  }

  // ----- The plan's columns are the scope's -----

  lemma LeafTypes(ref: TableRef, ctes: CTEList)
    requires ScopeOk(ref, ctes) && PlanTableRef(ref, ctes).Ok? && !ref.CrossProduct? && !ref.Join?
    ensures Types(PlanTableRef(ref, ctes).value.schema) == ScopeTypes(ref, ctes)
  {
  }

  lemma TypesConcat(s: Schema, s': Schema)
    ensures Types(s + s') == Types(s) + Types(s')
  {
  }

  lemma {:induction false} PlanTypes(ref: TableRef, ctes: CTEList)
    requires ScopeOk(ref, ctes) && PlanTableRef(ref, ctes).Ok?
    ensures Types(PlanTableRef(ref, ctes).value.schema) == ScopeTypes(ref, ctes)
    decreases ref
  {
    if ref.CrossProduct? || ref.Join? {
      PlanTypes(ref.left, ctes);
      PlanTypes(ref.right, ctes);
      TypesConcat(PlanTableRef(ref.left, ctes).value.schema, PlanTableRef(ref.right, ctes).value.schema);
    } else {
      LeafTypes(ref, ctes);
    }
  }

  lemma PlanSchema(ref: TableRef, ctes: CTEList)
    requires ScopeOk(ref, ctes) && PlanTableRef(ref, ctes).Ok?
    ensures PlanTableRef(ref, ctes).value.schema == ScopeSchema(ref, ctes)
  {
    PlanTypes(ref, ctes);
    PlanNamesLeaves(ref, ctes);
    var s := PlanTableRef(ref, ctes).value.schema;
    assert forall i :: 0 <= i < |s| ==> s[i].t == Types(s)[i];
  }

  // ----- Conditions on pairs of rows -----

  lemma {:induction false} TryConcat(s: Schema, s': Schema, name: string)
    ensures TryGetColIdx(s + s', name) ==
              if TryGetColIdx(s, name).Some? then TryGetColIdx(s, name)
              else if TryGetColIdx(s', name).Some? then Some(|s| + TryGetColIdx(s', name).value) else None
  {
    if s == [] {
      assert s + s' == s';
    } else {
      assert (s + s')[1..] == s[1..] + s';
      TryConcat(s[1..], s', name);
    }
  }

  lemma ColumnOnPair(path: seq<string>, s: Schema, s': Schema, l: Row, r: Row)
    requires PlanColumn(path, [s, s']).Ok? && |l| == |s|
    ensures EvalJoin(PlanColumn(path, [s, s']).value, l, r) == BoundValue(ColumnRef(path), s + s', l + r)
  {
    TryConcat(s, s', JoinPath(path));
  }

  /** A planned condition has on a pair of rows the value of the bound condition on their concatenation, up to the
      length of vectors. */
  lemma {:induction false} PlannedOnPair(e: BoundExpr, s: Schema, s': Schema, l: Row, r: Row)
    requires PlanExpr(e, [s, s'], [], 0).Ok? && |l| == |s|
    ensures PlanExpr(e, [s, s'], [], 0).value.next == 0
    ensures Alike(EvalJoin(PlanExpr(e, [s, s'], [], 0).value.expr, l, r), BoundValue(e, s + s', l + r))
    decreases e, 1
  {
    match e
    case ColumnRef(path) => ColumnOnPair(path, s, s', l, r);
    case BinaryOp(op, x, y) => BinaryPlannedOnPair(e, s, s', l, r);
    case FuncCall(_, args) =>
      PlannedListOnPair(args, s, s', l, r);
      var xs := PlanList(args, [s, s'], [], 0).value.exprs;
      ArrayAlike(EvalJoinAll(xs, l, r), BoundValues(args, s + s', l + r));
    case Alias(_, child) => PlannedOnPair(child, s, s', l, r);
    case _ =>
  }

  lemma ArrayAlike(vs: seq<Value>, ws: seq<Value>)
    requires AllAlike(vs, ws)
    ensures Alike(ApplyJoin(ArrayOf, vs), Apply(ArrayOf, ws))
  {
    assert forall i :: 0 <= i < |vs| ==> Alike(vs[i], ws[i]);
  }

  lemma {:induction false} BinaryPlannedOnPair(e: BoundExpr, s: Schema, s': Schema, l: Row, r: Row)
    requires e.BinaryOp? && PlanExpr(e, [s, s'], [], 0).Ok? && |l| == |s|
    ensures PlanExpr(e, [s, s'], [], 0).value.next == 0
    ensures Alike(EvalJoin(PlanExpr(e, [s, s'], [], 0).value.expr, l, r), BoundValue(e, s + s', l + r))
    decreases e, 0
  {
    PlannedOnPair(e.larg, s, s', l, r);
    PlannedOnPair(e.rarg, s, s', l, r);
    var x, y := PlanExpr(e.larg, [s, s'], [], 0).value.expr, PlanExpr(e.rarg, [s, s'], [], 0).value.expr;
    var vs := [EvalJoin(x, l, r), EvalJoin(y, l, r)];
    var ws := [BoundValue(e.larg, s + s', l + r), BoundValue(e.rarg, s + s', l + r)];
    assert [x, y][1..] == [y] && [y][1..] == [];
    assert EvalJoinAll([x, y], l, r) == vs;
    ApplyAlike(OperatorOf(e.op).value, vs, ws);
  }

  lemma {:induction false} PlannedListOnPair(es: seq<BoundExpr>, s: Schema, s': Schema, l: Row, r: Row)
    requires PlanList(es, [s, s'], [], 0).Ok? && |l| == |s|
    ensures PlanList(es, [s, s'], [], 0).value.next == 0
    ensures AllAlike(EvalJoinAll(PlanList(es, [s, s'], [], 0).value.exprs, l, r), BoundValues(es, s + s', l + r))
    decreases es, 0
  {
    if es != [] {
      PlannedOnPair(es[0], s, s', l, r);
      PlannedListOnPair(es[1..], s, s', l, r);
      var xs := PlanList(es, [s, s'], [], 0).value.exprs;
      assert xs[1..] == PlanList(es[1..], [s, s'], [], 0).value.exprs;
    }
  }

  // ----- Joins of rows -----

  /** The planned condition is true of just the pairs with this left row of which the bound one is. */
  ghost predicate SameOn(e: Expr, cond: BoundExpr, s: Schema, l: Row) {
    forall r: Row :: Passes(EvalJoin(e, l, r)) <==> BoundValue(cond, s, l + r) == BoolV(true)
  }

  ghost predicate SamePairs(e: Expr, cond: BoundExpr, s: Schema, xs: seq<Row>) {
    forall i :: 0 <= i < |xs| ==> SameOn(e, cond, s, xs[i])
  }

  lemma {:induction false} MatchIsWhere(e: Expr, cond: BoundExpr, s: Schema, l: Row, ys: seq<Row>)
    requires SameOn(e, cond, s, l)
    ensures MatchRows(e, l, ys) == WhereRows(cond, s, WithAll(l, ys))
  {
    if ys != [] {
      assert WithAll(l, ys)[1..] == WithAll(l, ys[1..]);
      MatchIsWhere(e, cond, s, l, ys[1..]);
    }
  }

  lemma {:induction false} JoinIsPairs(e: Expr, jt: JoinType, cond: BoundExpr, s: Schema, xs: seq<Row>, ys: seq<Row>,
                                       nulls: Row)
    requires SamePairs(e, cond, s, xs)
    ensures JoinRows(e, jt, xs, ys, nulls) == JoinedPairs(jt, cond, s, xs, ys, nulls)
  {
    if xs != [] {
      MatchIsWhere(e, cond, s, xs[0], ys);
      assert SamePairs(e, cond, s, xs[1..]);
      JoinIsPairs(e, jt, cond, s, xs[1..], ys, nulls);
    }
  }

  lemma {:induction false} MatchesAll(l: Row, ys: seq<Row>)
    ensures MatchRows(TRUE_EXPR, l, ys) == WithAll(l, ys)
  {
    if ys != [] {
      assert WithAll(l, ys)[1..] == WithAll(l, ys[1..]);
      MatchesAll(l, ys[1..]);
    }
  }

  lemma {:induction false} CrossIsAllPairs(xs: seq<Row>, ys: seq<Row>, nulls: Row)
    ensures JoinRows(TRUE_EXPR, INNER, xs, ys, nulls) == AllPairs(xs, ys)
  {
    if xs != [] {
      MatchesAll(xs[0], ys);
      CrossIsAllPairs(xs[1..], ys, nulls);
    }
  }

  /** A join condition that is planned over rows of the left width is true of the same pairs. */
  lemma ConditionSamePairs(cond: BoundExpr, s: Schema, s': Schema, xs: seq<Row>)
    requires PlanExpr(cond, [s, s'], [], 0).Ok? && AllWidth(xs, |s|)
    ensures SamePairs(PlanExpr(cond, [s, s'], [], 0).value.expr, cond, s + s', xs)
  {
    var e := PlanExpr(cond, [s, s'], [], 0).value.expr;
    forall i | 0 <= i < |xs| ensures SameOn(e, cond, s + s', xs[i]) {
      forall r: Row ensures Passes(EvalJoin(e, xs[i], r)) <==> BoundValue(cond, s + s', xs[i] + r) == BoolV(true) {
        PlannedOnPair(cond, s, s', xs[i], r);
      }
    }
  }

  // ----- The width of the rows -----

  lemma {:induction false} PairsWidth(xs: seq<Row>, ys: seq<Row>, w: nat, w': nat)
    requires AllWidth(xs, w) && AllWidth(ys, w')
    ensures AllWidth(AllPairs(xs, ys), w + w')
  {
    if xs != [] {
      PairsWidth(xs[1..], ys, w, w');
    }
  }

  lemma {:induction false} WhereWidth(cond: BoundExpr, s: Schema, rows: seq<Row>, w: nat)
    requires AllWidth(rows, w)
    ensures AllWidth(WhereRows(cond, s, rows), w)
  {
    if rows != [] {
      WhereWidth(cond, s, rows[1..], w);
    }
  }

  lemma {:induction false} JoinedWidth(jt: JoinType, cond: BoundExpr, s: Schema, xs: seq<Row>, ys: seq<Row>,
                                       nulls: Row, w: nat)
    requires AllWidth(xs, w) && AllWidth(ys, |nulls|)
    ensures AllWidth(JoinedPairs(jt, cond, s, xs, ys, nulls), w + |nulls|)
  {
    if xs != [] {
      WhereWidth(cond, s, WithAll(xs[0], ys), w + |nulls|);
      JoinedWidth(jt, cond, s, xs[1..], ys, nulls, w);
    }
  }

  /** Every row has one value for each column in scope. */
  lemma {:induction false} GivenWidth(cat: Catalog, db: Database, ref: TableRef, ctes: CTEList, rows: seq<Row>)
    requires ScopeOk(ref, ctes) && RefStored(cat, ref, ctes) && Agrees(cat, db) && Gives(ref, ctes, db, rows)
    ensures AllWidth(rows, |ScopeTypes(ref, ctes)|)
    decreases ref
  {
    match ref
    case BaseTable(table, oid, _, _) =>
      if !StartsWith(table, "__") {
        assert TableAgrees(cat, db, oid);
      }
    case Subquery(sub) => ProducedWidth(cat, db, sub.body, rows);
    case CTE(name, _) => ProducedWidth(cat, db, FindCTE(name, ctes).body, rows);
    case CrossProduct(l, r) =>
      var xs, ys :| Gives(l, ctes, db, xs) && Gives(r, ctes, db, ys) && rows == AllPairs(xs, ys);
      GivenWidth(cat, db, l, ctes, xs);
      GivenWidth(cat, db, r, ctes, ys);
      PairsWidth(xs, ys, |ScopeTypes(l, ctes)|, |ScopeTypes(r, ctes)|);
    case Join(jt, l, r, cond) =>
      var nulls := Nulls(ScopeTypes(r, ctes));
      var xs, ys :| Gives(l, ctes, db, xs) && Gives(r, ctes, db, ys)
                    && rows == JoinedPairs(jt, cond, ScopeSchema(ref, ctes), xs, ys, nulls);
      GivenWidth(cat, db, l, ctes, xs);
      GivenWidth(cat, db, r, ctes, ys);
      JoinedWidth(jt, cond, ScopeSchema(ref, ctes), xs, ys, nulls, |ScopeTypes(l, ctes)|);
  }

  // ----- The plan gives the rows of the clause -----

  /** A projection of every column onto itself gives the rows below it. */
  lemma IdentityAnswers(p: Plan, top: Schema, db: Database, rows: seq<Row>)
    requires forall xs: seq<Row> :: Produces(p, db, xs) ==> AllWidth(xs, |p.schema|)
    ensures Produces(Node(Projection(Columns(p.schema)), top, [p]), db, rows) <==> Produces(p, db, rows)
  {
    var es := Columns(p.schema);
    ProducesOne(Projection(es), top, p, db, rows);
    forall xs: seq<Row> | Produces(p, db, xs) ensures ProjectRows(es, xs) == xs {
      IdentityProjection(es, xs);
    }
    if Produces(p, db, rows) {
      assert Denotes(Projection(es), top, [Types(p.schema)], db, [rows], rows);
    }
  }

  lemma SubqueryAnswers(cat: Catalog, db: Database, sub: BoundSubquery, alias: string, rows: seq<Row>)
    requires Named(sub) && PlanOk(cat, sub.body) && Agrees(cat, db)
    ensures Produces(PlanSubquery(sub, alias), db, rows) <==> Produces(sub.body, db, rows)
  {
    forall xs: seq<Row> | Produces(sub.body, db, xs) ensures AllWidth(xs, |sub.body.schema|) {
      ProducedWidth(cat, db, sub.body, xs);
    }
    IdentityAnswers(sub.body, PlanSubquery(sub, alias).schema, db, rows);
  }

  lemma TableAnswers(ref: TableRef, db: Database, rows: seq<Row>)
    requires ref.BaseTable? && PlanBaseTable(ref).Ok?
    ensures Produces(PlanBaseTable(ref).value, db, rows) <==> Gives(ref, [], db, rows)
  {
    var plan := PlanBaseTable(ref).value;
    ProducesLeaf(plan.kind, plan.schema, db, rows);
  }

  /** The plan has the results of the clause. */
  ghost predicate SameResults(p: Plan, ref: TableRef, ctes: CTEList, db: Database)
    requires ScopeOk(ref, ctes)
  {
    forall rows: seq<Row> :: Produces(p, db, rows) <==> Gives(ref, ctes, db, rows)
  }

  lemma CrossAnswers(db: Database, ref: TableRef, ctes: CTEList, l: Plan, r: Plan, rows: seq<Row>)
    requires ScopeOk(ref, ctes) && ref.CrossProduct?
    requires SameResults(l, ref.left, ctes, db) && SameResults(r, ref.right, ctes, db)
    ensures Produces(JoinPlan(l, r, TRUE_EXPR, INNER), db, rows) <==> Gives(ref, ctes, db, rows)
  {
    var plan := JoinPlan(l, r, TRUE_EXPR, INNER);
    ProducesTwo(plan.kind, plan.schema, l, r, db, rows);
    forall xs: seq<Row>, ys: seq<Row>
      ensures Denotes(plan.kind, plan.schema, [Types(l.schema), Types(r.schema)], db, [xs, ys], rows)
         <==> rows == AllPairs(xs, ys)
    {
      CrossIsAllPairs(xs, ys, NullRow(Types(r.schema)));
    }
  }

  /** A join node over rows of the left width denotes the joined pairs. */
  lemma JoinDenotes(jt: JoinType, cond: BoundExpr, l: Plan, r: Plan, db: Database, xs: seq<Row>, ys: seq<Row>,
                    rows: seq<Row>)
    requires PlanExpr(cond, [l.schema, r.schema], [], 0).Ok? && AllWidth(xs, |l.schema|)
    ensures var plan := JoinPlan(l, r, PlanExpr(cond, [l.schema, r.schema], [], 0).value.expr, jt);
            Denotes(plan.kind, plan.schema, [Types(l.schema), Types(r.schema)], db, [xs, ys], rows) <==>
              && (jt == INNER || jt == LEFT)
              && rows == JoinedPairs(jt, cond, l.schema + r.schema, xs, ys, Nulls(Types(r.schema)))
  {
    var e := PlanExpr(cond, [l.schema, r.schema], [], 0).value.expr;
    ConditionSamePairs(cond, l.schema, r.schema, xs);
    JoinIsPairs(e, jt, cond, l.schema + r.schema, xs, ys, Nulls(Types(r.schema)));
    assert Nulls(Types(r.schema)) == NullRow(Types(r.schema));
  }

  lemma JoinAnswers(db: Database, ref: TableRef, ctes: CTEList, l: Plan, r: Plan, rows: seq<Row>)
    requires ScopeOk(ref, ctes) && ref.Join? && PlanExpr(ref.condition, [l.schema, r.schema], [], 0).Ok?
    requires SameResults(l, ref.left, ctes, db) && SameResults(r, ref.right, ctes, db)
    requires ScopeSchema(ref, ctes) == l.schema + r.schema && ScopeTypes(ref.right, ctes) == Types(r.schema)
    requires forall xs: seq<Row> :: Gives(ref.left, ctes, db, xs) ==> AllWidth(xs, |l.schema|)
    ensures var e := PlanExpr(ref.condition, [l.schema, r.schema], [], 0).value.expr;
            Produces(JoinPlan(l, r, e, ref.joinType), db, rows) <==> Gives(ref, ctes, db, rows)
  {
    var e := PlanExpr(ref.condition, [l.schema, r.schema], [], 0).value.expr;
    var plan := JoinPlan(l, r, e, ref.joinType);
    ProducesTwo(plan.kind, plan.schema, l, r, db, rows);
    forall xs: seq<Row>, ys: seq<Row> | Gives(ref.left, ctes, db, xs)
      ensures Denotes(plan.kind, plan.schema, [Types(l.schema), Types(r.schema)], db, [xs, ys], rows) <==>
                && (ref.joinType == INNER || ref.joinType == LEFT)
                && rows == JoinedPairs(ref.joinType, ref.condition, l.schema + r.schema, xs, ys, Nulls(Types(r.schema)))
    {
      JoinDenotes(ref.joinType, ref.condition, l, r, db, xs, ys, rows);
    }
  }

  lemma JoinRefAnswers(cat: Catalog, db: Database, ref: TableRef, ctes: CTEList, rows: seq<Row>)
    requires ScopeOk(ref, ctes) && ref.Join? && PlanTableRef(ref, ctes).Ok?
    requires RefStored(cat, ref, ctes) && Agrees(cat, db)
    requires SameResults(PlanTableRef(ref.left, ctes).value, ref.left, ctes, db)
    requires SameResults(PlanTableRef(ref.right, ctes).value, ref.right, ctes, db)
    ensures Produces(PlanTableRef(ref, ctes).value, db, rows) <==> Gives(ref, ctes, db, rows)
  {
    var l, r := PlanTableRef(ref.left, ctes).value, PlanTableRef(ref.right, ctes).value;
    PlanSchema(ref, ctes);
    PlanTypes(ref.left, ctes);
    PlanTypes(ref.right, ctes);
    forall xs: seq<Row> | Gives(ref.left, ctes, db, xs) ensures AllWidth(xs, |l.schema|) {
      GivenWidth(cat, db, ref.left, ctes, xs);
    }
    JoinAnswers(db, ref, ctes, l, r, rows);
  }

  /** The plan of a FROM clause gives exactly the rows of the clause. */
  lemma {:induction false} TableRefAnswers(cat: Catalog, db: Database, ref: TableRef, ctes: CTEList)
    requires ScopeOk(ref, ctes) && PlanTableRef(ref, ctes).Ok? && RefStored(cat, ref, ctes) && Agrees(cat, db)
    ensures SameResults(PlanTableRef(ref, ctes).value, ref, ctes, db)
    decreases ref
  {
    if ref.CrossProduct? || ref.Join? {
      TableRefAnswers(cat, db, ref.left, ctes);
      TableRefAnswers(cat, db, ref.right, ctes);
    }
    forall rows: seq<Row> ensures Produces(PlanTableRef(ref, ctes).value, db, rows) <==> Gives(ref, ctes, db, rows) {
      match ref
      case BaseTable(_, _, _, _) => TableAnswers(ref, db, rows);
      case Subquery(sub) => SubqueryAnswers(cat, db, sub, sub.alias, rows);
      case CTE(name, alias) => SubqueryAnswers(cat, db, FindCTE(name, ctes), alias, rows);
      case CrossProduct(l, r) =>
        CrossAnswers(db, ref, ctes, PlanTableRef(l, ctes).value, PlanTableRef(r, ctes).value, rows);
      case Join(_, _, _, _) => JoinRefAnswers(cat, db, ref, ctes, rows);
    }
  }

  // ----- Selects over the clause -----

  /** A plain select over a FROM clause answers the statement on the rows of the clause. */
  lemma SelectFromAnswers(cat: Catalog, db: Database, where: Option<BoundExpr>, items: seq<BoundExpr>, ref: TableRef,
                          ctes: CTEList, id: nat, rows: seq<Row>)
    requires ScopeOk(ref, ctes) && PlanTableRef(ref, ctes).Ok? && RefStored(cat, ref, ctes) && Agrees(cat, db)
    requires PlanSelect(where, items, PlanTableRef(ref, ctes).value, id).Ok?
    ensures Produces(PlanSelect(where, items, PlanTableRef(ref, ctes).value, id).value, db, rows) <==>
              exists xs: seq<Row> ::
                Gives(ref, ctes, db, xs) && rows == SelectAnswer(where, items, ScopeSchema(ref, ctes), xs)
  {
    TableRefAnswers(cat, db, ref, ctes);
    PlanSchema(ref, ctes);
    PlanSelectAnswers(db, where, items, PlanTableRef(ref, ctes).value, id, rows);
  }

  /** A select with aggregates over a FROM clause answers the statement on the rows of the clause. */
  lemma AggregateFromAnswers(cat: Catalog, db: Database, groupBy: seq<BoundExpr>, having: Option<BoundExpr>,
                             select: seq<BoundExpr>, ref: TableRef, ctes: CTEList, rows: seq<Row>)
    requires ScopeOk(ref, ctes) && PlanTableRef(ref, ctes).Ok? && RefStored(cat, ref, ctes) && Agrees(cat, db)
    requires PlanSelectAgg(groupBy, having, select, PlanTableRef(ref, ctes).value).Ok?
    requires PlainGroupBy(groupBy) && QualifiedAll(select) && (having.Some? ==> Qualified(having.value))
    ensures Produces(PlanSelectAgg(groupBy, having, select, PlanTableRef(ref, ctes).value).value, db, rows) <==>
              exists xs: seq<Row> ::
                Gives(ref, ctes, db, xs) && IsAnswer(db, groupBy, having, select, ScopeSchema(ref, ctes), xs, rows)
  {
    TableRefAnswers(cat, db, ref, ctes);
    PlanSchema(ref, ctes);
    PlanAnswersStatement(db, groupBy, having, select, PlanTableRef(ref, ctes).value, rows);
  }
}
