/** SELECT * from the binder's expansion to the plan without its projection, and the planner's guarantees to the
    optimizer. */
module SelectStar {
  import opened Wrappers
  import opened Values
  import opened Expressions
  import opened Plans
  import opened Naming
  import opened BoundExpressions
  import opened AggregatePlanning
  import opened AggregateMeaning
  import opened PlainSelects
  import opened FromRows
  import opened Scopes
  import opened TablePlans
  import opened Rules
  import opened WellFormed
  import opened Pipeline
  import opened Binder

  function StarItems(ls: seq<Leaf>): (es: seq<BoundExpr>)
    ensures |es| == |ls|
  {
    seq(|ls|, i requires 0 <= i < |ls| => ColumnRef(StarPaths(ls)[i]))
  }

  ghost predicate DistinctNames(s: Schema) {
    forall i, j :: 0 <= i < j < |s| ==> s[i].name != s[j].name
  }

  function Names(s: Schema): (ns: seq<string>)
    ensures |ns| == |s|
  {
    seq(|s|, i requires 0 <= i < |s| => s[i].name)
  }

  lemma StarItemPlanned(s: Schema, ls: seq<Leaf>, k: nat)
    requires NamesLeaves(s, ls) && k < |s|
    ensures PlanExpr(StarItems(ls)[k], [s], [], 0) ==
              if NameRepeats(s, s[k].name) then Err(DuplicatedColumn)
              else Ok(Planned(s[k].name, Columns(s)[k], 0))
  {
    assert JoinPath(StarPaths(ls)[k]) == s[k].name;
  }

  lemma PlanListFrom(items: seq<BoundExpr>, s: Schema, k: nat)
    requires k < |items|
    ensures PlanList(items[k..], [s], [], 0) ==
              match PlanExpr(items[k], [s], [], 0)
              case Err(x) => Err(x)
              case Ok(p) =>
                match PlanList(items[k + 1..], [s], [], p.next)
                case Err(x) => Err(x)
                case Ok(ps) => Ok(PlannedList([p.name] + ps.names, [p.expr] + ps.exprs, ps.next))
  {
    assert items[k..][0] == items[k] && items[k..][1..] == items[k + 1..];
  }

  lemma SuffixCons<T>(xs: seq<T>, k: nat)
    requires k < |xs|
    ensures xs[k..] == [xs[k]] + xs[k + 1..]
  {
  }

  ghost predicate UniqueFrom(s: Schema, k: nat) {
    forall j :: k <= j < |s| ==> !NameRepeats(s, s[j].name)
  }

  /** The items from the k-th on: planned to themselves, or refused for the first name that is not unique. */
  lemma {:induction false} StarListPlanned(s: Schema, ls: seq<Leaf>, k: nat)
    requires NamesLeaves(s, ls) && k <= |s|
    ensures PlanList(StarItems(ls)[k..], [s], [], 0) ==
              if UniqueFrom(s, k) then Ok(PlannedList(Names(s)[k..], Columns(s)[k..], 0)) else Err(DuplicatedColumn)
    decreases |s| - k
  {
    if k < |s| {
      StarItemPlanned(s, ls, k);
      StarListPlanned(s, ls, k + 1);
      PlanListFrom(StarItems(ls), s, k);
      assert UniqueFrom(s, k) <==> !NameRepeats(s, s[k].name) && UniqueFrom(s, k + 1);
      SuffixCons(Names(s), k);
      SuffixCons(Columns(s), k);
    } else {
      assert StarItems(ls)[k..] == [] && Names(s)[k..] == [] && Columns(s)[k..] == [];
    }
  }

  lemma DistinctMeansNoRepeats(s: Schema)
    ensures DistinctNames(s) <==> UniqueFrom(s, 0)
  {
    if !DistinctNames(s) {
      var i, j :| 0 <= i < j < |s| && s[i].name == s[j].name;
      assert NameRepeats(s, s[i].name);
    }
  }

  /** A qualified name has a dot, so a star has no column without a name. */
  lemma {:induction false} QualifiedNotNumbered(names: seq<string>, id: nat)
    requires forall i :: 0 <= i < |names| ==> '.' in names[i]
    ensures Numbered(names, id) == names
  {
    if names != [] {
      UnnamedHasNoDot();
      QualifiedNotNumbered(names[1..], id);
    }
  }

  lemma NamesHaveDots(s: Schema, ls: seq<Leaf>)
    requires NamesLeaves(s, ls) && forall l :: l in ls ==> l.item != []
    ensures forall i :: 0 <= i < |s| ==> '.' in Names(s)[i]
  {
    forall i | 0 <= i < |s| ensures '.' in Names(s)[i] {
      QualifiedHasDot(AliasPath(ls[i]));
    }
  }

  /** SELECT * plans if and only if the qualified names are distinct, and then to the identity projection. */
  lemma StarPlansToIdentity(p: Plan, ls: seq<Leaf>, id: nat)
    requires NamesLeaves(p.schema, ls) && forall l :: l in ls ==> l.item != []
    ensures PlanItems(StarItems(ls), p, id) ==
              if DistinctNames(p.schema) then Ok(Node(Projection(Columns(p.schema)), p.schema, [p]))
              else Err(DuplicatedColumn)
  {
    var s, items := p.schema, StarItems(ls);
    StarListPlanned(s, ls, 0);
    DistinctMeansNoRepeats(s);
    NamesHaveDots(s, ls);
    QualifiedNotNumbered(Names(s), id);
    assert items[0..] == items && Names(s)[0..] == Names(s) && Columns(s)[0..] == Columns(s);
    assert NamedSchema(Names(s), Columns(s)) == s;
  }

  ghost function PlanStar(ref: TableRef, ctes: CTEList, id: nat): Result<Plan, PlanError>
    requires ScopeOk(ref, ctes)
  {
    match PlanTableRef(ref, ctes)
    case Err(x) => Err(x)
    case Ok(p) => PlanSelect(None, StarItems(Leaves(ref, ctes)), p, id)
  }

  /** Merging projections keeps the schema of every plan. */
  lemma MergeKeepsSchema(cat: Catalog, p: Plan)
    requires BottomUp(MergeProjection, cat, p).Some?
    ensures BottomUp(MergeProjection, cat, p).value.schema == p.schema
  {
  }

  /** The pass over an identity projection is the pass over the plan below it. */
  lemma IdentityMergedAway(cat: Catalog, p: Plan)
    requires BottomUp(MergeProjection, cat, p).Some?
    ensures BottomUp(MergeProjection, cat, Node(Projection(Columns(p.schema)), p.schema, [p]))
            == BottomUp(MergeProjection, cat, p)
  {
    var q := BottomUp(MergeProjection, cat, p).value;
    MergeKeepsSchema(cat, p);
    assert [p][1..] == [] && [q] + [] == [q];
    assert BottomUpAll(MergeProjection, cat, [p]) == Some([q]);
    assert q.(schema := p.schema) == q;
  }

  /** Over every scope, with subqueries and renamed common table expressions: SELECT * expands to the names of the
      FROM clause's plan, plans exactly when those are distinct, and the pass that merges projections leaves of it just
      what it leaves of the FROM clause's plan. */
  lemma StarIsTheTable(cat: Catalog, ref: TableRef, ctes: CTEList, id: nat)
    requires ScopeOk(ref, ctes) && PlanTableRef(ref, ctes).Ok?
    ensures var p, star := PlanTableRef(ref, ctes).value, PlanStar(ref, ctes, id);
            && NamesLeaves(p.schema, Leaves(ref, ctes))
            && (star.Ok? <==> DistinctNames(p.schema))
            && (star.Ok? ==> star.value.schema == p.schema)
            && (star.Ok? && BottomUp(MergeProjection, cat, p).Some? ==>
                  BottomUp(MergeProjection, cat, star.value) == BottomUp(MergeProjection, cat, p))
  {
    var p := PlanTableRef(ref, ctes).value;
    PlanNamesLeaves(ref, ctes);
    LeavesNamed(ref, ctes);
    StarPlansToIdentity(p, Leaves(ref, ctes), id);
    if BottomUp(MergeProjection, cat, p).Some? {
      IdentityMergedAway(cat, p);
    }
  }

  /** SELECT * as a subquery gives every column a name, so it may stand in a FROM clause again. */
  lemma StarSubqueryNamed(ref: TableRef, ctes: CTEList, id: nat, alias: string)
    requires ScopeOk(ref, ctes) && PlanStar(ref, ctes, id).Ok?
    ensures ScopeOk(Subquery(BoundSubquery(PlanStar(ref, ctes, id).value, StarPaths(Leaves(ref, ctes)), alias)), [])
  {
    PlanNamesLeaves(ref, ctes);
    LeavesNamed(ref, ctes);
    StarPlansToIdentity(PlanTableRef(ref, ctes).value, Leaves(ref, ctes), id);
  }

  // ----- What the optimizer may rely on -----

  /** The references agree with the catalog, join conditions are boolean and the constant true stands in inner joins
      only, and the plans of subqueries are in order themselves. */
  ghost predicate RefOk(cat: Catalog, ref: TableRef, ctes: CTEList)
    requires ScopeOk(ref, ctes)
  {
    match ref
    case BaseTable(table, oid, _, columns) => oid in cat.tables && cat.tables[oid] == TableInfo(table, Types(columns))
    case Subquery(sub) => PlanOk(cat, sub.body) && NoScanFilters(sub.body)
    case CTE(name, _) => PlanOk(cat, FindCTE(name, ctes).body) && NoScanFilters(FindCTE(name, ctes).body)
    case CrossProduct(l, r) => RefOk(cat, l, ctes) && RefOk(cat, r, ctes)
    case Join(jt, l, r, _) =>
      && RefOk(cat, l, ctes) && RefOk(cat, r, ctes) && (jt == INNER || jt == LEFT)
      && (PlanTableRef(ref, ctes).Ok? ==>
            var e := PlanTableRef(ref, ctes).value.kind.joinPredicate;
            BooleanPredicate(e) && (e == TRUE_EXPR ==> jt == INNER))
  }

  lemma JoinPlanOk(cat: Catalog, l: Plan, r: Plan, e: Expr, jt: JoinType)
    requires PlanOk(cat, l) && PlanOk(cat, r) && NoScanFilters(l) && NoScanFilters(r)
    requires BooleanPredicate(e) && (jt == INNER || jt == LEFT) && (e == TRUE_EXPR ==> jt == INNER)
    ensures PlanOk(cat, JoinPlan(l, r, e, jt)) && NoScanFilters(JoinPlan(l, r, e, jt))
  {
    assert KidTypes([l, r]) == [Types(l.schema), Types(r.schema)];
    assert Types(l.schema + r.schema) == Types(l.schema) + Types(r.schema);
  }

  lemma SubqueryPlanOk(cat: Catalog, sub: BoundSubquery, alias: string)
    requires Named(sub) && PlanOk(cat, sub.body) && NoScanFilters(sub.body)
    ensures PlanOk(cat, PlanSubquery(sub, alias)) && NoScanFilters(PlanSubquery(sub, alias))
  {
  }

  /** The planner never puts a filter into a scan, and its plans are well-formed. */
  lemma {:induction false} PlannedTableOk(cat: Catalog, ref: TableRef, ctes: CTEList)
    requires ScopeOk(ref, ctes) && RefOk(cat, ref, ctes) && PlanTableRef(ref, ctes).Ok?
    ensures PlanOk(cat, PlanTableRef(ref, ctes).value) && NoScanFilters(PlanTableRef(ref, ctes).value)
    decreases ref
  {
    match ref
    case BaseTable(_, _, _, _) =>
      var p := PlanTableRef(ref, ctes).value;
      assert Types(p.schema) == Types(ref.columns) && KidTypes(p.children) == [];
    case Subquery(sub) => SubqueryPlanOk(cat, sub, sub.alias);
    case CTE(name, alias) => SubqueryPlanOk(cat, FindCTE(name, ctes), alias);
    case CrossProduct(l, r) =>
      PlannedTableOk(cat, l, ctes);
      PlannedTableOk(cat, r, ctes);
      JoinPlanOk(cat, PlanTableRef(l, ctes).value, PlanTableRef(r, ctes).value, TRUE_EXPR, INNER);
    case Join(jt, l, r, _) =>
      PlannedTableOk(cat, l, ctes);
      PlannedTableOk(cat, r, ctes);
      JoinPlanOk(cat, PlanTableRef(l, ctes).value, PlanTableRef(r, ctes).value,
                 PlanTableRef(ref, ctes).value.kind.joinPredicate, jt);
  }

  /** Nor does planning aggregates over a table's plan. */
  lemma AggregatesKeepScansPlain(groupBy: seq<BoundExpr>, having: Option<BoundExpr>, select: seq<BoundExpr>,
                                 child: Plan)
    requires NoScanFilters(child) && PlanSelectAgg(groupBy, having, select, child).Ok?
    ensures NoScanFilters(PlanSelectAgg(groupBy, having, select, child).value)
  {
    var plan := PlanSelectAgg(groupBy, having, select, child).value;
    var below := plan.children[0];
    var agg := if having.Some? then below.children[0] else below;
    assert agg.children == [child];
    assert NoScanFilters(agg);
  }

  lemma {:induction false} RefOkStored(cat: Catalog, ref: TableRef, ctes: CTEList)
    requires ScopeOk(ref, ctes) && RefOk(cat, ref, ctes)
    ensures RefStored(cat, ref, ctes)
    decreases ref
  {
    if ref.CrossProduct? || ref.Join? {
      RefOkStored(cat, ref.left, ctes);
      RefOkStored(cat, ref.right, ctes);
    }
  }

  /** SELECT * gives exactly the rows of its FROM clause. */
  lemma StarAnswers(cat: Catalog, db: Database, ref: TableRef, ctes: CTEList, id: nat, rows: seq<Row>)
    requires ScopeOk(ref, ctes) && RefStored(cat, ref, ctes) && Agrees(cat, db) && PlanStar(ref, ctes, id).Ok?
    ensures Produces(PlanStar(ref, ctes, id).value, db, rows) <==> Gives(ref, ctes, db, rows)
  {
    var p := PlanTableRef(ref, ctes).value;
    TableRefAnswers(cat, db, ref, ctes);
    PlanNamesLeaves(ref, ctes);
    LeavesNamed(ref, ctes);
    StarPlansToIdentity(p, Leaves(ref, ctes), id);
    forall xs: seq<Row> | Produces(p, db, xs) ensures AllWidth(xs, |p.schema|) {
      GivenWidth(cat, db, ref, ctes, xs);
    }
    IdentityAnswers(p, p.schema, db, rows);
  }

  /** Both pipelines begin with the pass that merges projections. */
  lemma SameAfterMerging(force: bool, cat: Catalog, p: Plan, q: Plan)
    requires BottomUp(MergeProjection, cat, p).Some?
    requires BottomUp(MergeProjection, cat, p) == BottomUp(MergeProjection, cat, q)
    ensures Optimize(force, cat, p) == Optimize(force, cat, q)
  {
    assert STARTER_RULES[0] == MergeProjection && CUSTOM_RULES[0] == MergeProjection;
  }

  /** SELECT * through planner and optimizer: the optimized plan is that of the FROM clause, so whatever it gives are
      rows of the FROM clause, under the same names. */
  lemma StarOptimized(force: bool, cat: Catalog, db: Database, ref: TableRef, ctes: CTEList, id: nat)
    requires ScopeOk(ref, ctes) && RefOk(cat, ref, ctes) && PlanStar(ref, ctes, id).Ok? && Agrees(cat, db)
    ensures Optimize(force, cat, PlanStar(ref, ctes, id).value).Some?
    ensures Optimize(force, cat, PlanStar(ref, ctes, id).value) == Optimize(force, cat, PlanTableRef(ref, ctes).value)
    ensures var q := Optimize(force, cat, PlanStar(ref, ctes, id).value).value;
            && NamesLeaves(q.schema, Leaves(ref, ctes))
            && forall rows: seq<Row> :: Produces(q, db, rows) ==> Gives(ref, ctes, db, rows)
  {
    var p := PlanTableRef(ref, ctes).value;
    PlannedTableOk(cat, ref, ctes);
    PassSound(MergeProjection, cat, db, p);
    StarIsTheTable(cat, ref, ctes, id);
    SameAfterMerging(force, cat, PlanStar(ref, ctes, id).value, p);
    OptimizeSound(force, cat, db, p);
    RefOkStored(cat, ref, ctes);
    TableRefAnswers(cat, db, ref, ctes);
  }
}
