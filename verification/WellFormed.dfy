/** What the planner and the catalog guarantee about the plans the optimizer is given. */
module WellFormed {
  import opened Wrappers
  import opened Values
  import opened Expressions
  import opened Ordering
  import opened Plans
  import opened Rules

  /** A boolean expression that is not the null constant. */
  predicate BooleanPredicate(e: Expr) {
    ReturnType(e) == BOOLEAN && e != Constant(Null(BOOLEAN))
  }

  const TRUE_EXPR: Expr := Constant(BoolV(true))

  lemma BooleanPredicateTest(e: Expr)
    requires BooleanPredicate(e)
    ensures IsPredicateTrue(e).Some?
    ensures IsPredicateTrue(e).value <==> e == TRUE_EXPR
  {
  }

  /** The default order on plain columns: what an ordered index keeps. */
  function KeyOrders(cols: seq<nat>): (os: seq<OrderBy>)
    ensures |os| == |cols|
  {
    seq(|cols|, i requires 0 <= i < |cols| => OrderBy(DEFAULT, NullsDefault, ColumnValue(0, cols[i], BOOLEAN)))
  }

  /** No NULLS LAST decides between two rows: where it is asked for, the same column was compared before. */
  predicate NullOrderHarmless(orders: seq<OrderBy>, seen: set<nat>) {
    orders == [] ||
    (orders[0].expr.ColumnValue? &&
     (orders[0].nulls == NullsLast ==> orders[0].expr.colIdx in seen) &&
     NullOrderHarmless(orders[1..], seen + {orders[0].expr.colIdx}))
  }

  /** The table whose plain scan the rules may make of the plan, by removing identity projections and true filters. */
  function Spine(p: Plan): Option<nat> {
    match p.kind
    case SeqScan(oid, _, f) => if f.None? then Some(oid) else None
    case Filter(e) =>
      if |p.children| == 1 && IsPredicateTrue(e) == Some(true) then Spine(p.children[0]) else None
    case Projection(es) =>
      if |p.children| == 1 && Types(p.children[0].schema) == Types(p.schema) && IdentityFrom(es, 0)
      then Spine(p.children[0]) else None
    case _ => None
  }

  /** The index that would replace a sort of the table. */
  function ServingIndex(cat: Catalog, oid: nat, orders: seq<OrderBy>): Option<IndexInfo> {
    if oid in cat.tables && SortColumns(orders).Some?
    then FirstIndexOn(TableIndexes(cat, cat.tables[oid].name), SortColumns(orders).value) else None
  }

  /** Where an index would replace this sort, the index is ordered and no null order decides. */
  predicate SortServable(cat: Catalog, orders: seq<OrderBy>, source: Option<nat>) {
    orders != [] && source.Some? && ServingIndex(cat, source.value, orders).Some? ==>
      ServingIndex(cat, source.value, orders).value.ordered && NullOrderHarmless(orders, {})
  }

  predicate SortServed(cat: Catalog, p: Plan) {
    p.kind.Sort? && |p.children| == 1 ==> SortServable(cat, p.kind.orderBys, Spine(p.children[0]))
  }

  /** The rules may lose the way to the plain scan, but lead to no other. */
  predicate SpineKept(q: Plan, p: Plan) {
    Spine(q) == Spine(p) || Spine(q).None?
  }

  /** The conditions on one node, given the column types of its children. */
  ghost predicate NodeOk(cat: Catalog, k: Kind, s: Schema, kids: seq<seq<TypeId>>) {
    match k
    case SeqScan(oid, name, _) =>
      kids == [] && oid in cat.tables && cat.tables[oid] == TableInfo(name, Types(s))
    case IndexScan(oid, index) =>
      && kids == [] && oid in cat.tables && cat.tables[oid].types == Types(s)
      && exists x :: x in TableIndexes(cat, cat.tables[oid].name) && x.oid == index
    case Filter(e) =>
      kids == [Types(s)] && ColumnsBelow(e, |s|) && BooleanPredicate(e)
    case NestedLoopJoin(e, jt) =>
      && |kids| == 2 && Types(s) == kids[0] + kids[1]
      && BooleanPredicate(e) && (jt == INNER || jt == LEFT) && (e == TRUE_EXPR ==> jt == INNER)
    case NestedIndexJoin(_, oid, index, _, _, inner, jt) =>
      && |kids| == 1 && Types(s) == kids[0] + Types(inner) && (jt == INNER || jt == LEFT)
      && oid in cat.tables && cat.tables[oid].types == Types(inner)
      && exists x :: x in TableIndexes(cat, cat.tables[oid].name) && x.oid == index && |x.keyAttrs| == 1
    case Projection(es) => |kids| == 1 && |es| == |s|
    case Sort(_) => kids == [Types(s)]
    case Limit(_) => kids == [Types(s)]
    case ValuesList(cells) => kids == [] && forall i :: 0 <= i < |cells| ==> |cells[i]| == |s|
    case Aggregation(groupBys, inputs, types) => |kids| == 1 && |inputs| == |types| && |s| == |groupBys| + |inputs|
    case Other(_) => true
  }

  ghost predicate PlanOk(cat: Catalog, p: Plan) {
    && NodeOk(cat, p.kind, p.schema, KidTypes(p.children)) && SortServed(cat, p)
    && forall i :: 0 <= i < |p.children| ==> PlanOk(cat, p.children[i])
  }

  /** No sequential scan carries a filter of its own: true of every plan the planner builds. */
  predicate NoScanFilters(p: Plan) {
    && (p.kind.SeqScan? ==> p.kind.scanFilter.None?)
    && forall i :: 0 <= i < |p.children| ==> NoScanFilters(p.children[i])
  }

  // ----- Stored data that agrees with the catalog -----

  function Positions(n: nat): (ps: seq<nat>)
    ensures |ps| == n
  {
    seq(n, i => i)
  }

  predicate SameKey(cols: seq<nat>, x: Row, y: Row) {
    forall i :: 0 <= i < |cols| ==> ColumnOf(x, cols[i], BOOLEAN) == ColumnOf(y, cols[i], BOOLEAN)
  }

  /** The index lists every row once; rows of equal key in table order; all rows by key if it is ordered. */
  ghost predicate IndexAgrees(x: IndexInfo, rows: seq<Row>, stored: StoredIndex) {
    && stored.keyAttrs == x.keyAttrs
    && multiset(stored.entries) == multiset(Positions(|rows|))
    && (forall i :: 0 <= i < |stored.entries| ==> stored.entries[i] < |rows|)
    && (forall i, j :: 0 <= i < j < |stored.entries| ==>
          SameKey(x.keyAttrs, rows[stored.entries[i]], rows[stored.entries[j]]) ==>
          stored.entries[i] < stored.entries[j])
    && (x.ordered ==> SortedBy(KeyOrders(x.keyAttrs), PickRows(rows, stored.entries)))
  }

  ghost predicate TableAgrees(cat: Catalog, db: Database, oid: nat)
    requires oid in cat.tables
  {
    && oid in db.tables
    && AllWidth(db.tables[oid], |cat.tables[oid].types|)
    && forall x :: x in TableIndexes(cat, cat.tables[oid].name) ==>
         x.oid in db.indexes && IndexAgrees(x, db.tables[oid], db.indexes[x.oid])
  }

  ghost predicate Agrees(cat: Catalog, db: Database) {
    forall oid :: oid in cat.tables ==> TableAgrees(cat, db, oid)
  }

  // ----- Rules keep the conditions -----

  /** A rule never changes the number or the types of the output columns; all rules but the elimination of
      true filters keep the whole schema, names included. */
  lemma RewriteKeepsSchema(rule: Rule, cat: Catalog, p: Plan)
    requires PlanOk(cat, p) && Rewrite(rule, cat, p).Some?
    ensures Types(Rewrite(rule, cat, p).value.schema) == Types(p.schema)
    ensures rule != EliminateTrueFilter ==> Rewrite(rule, cat, p).value.schema == p.schema
  {
    if rule == EliminateTrueFilter && p.kind.Filter? {
      assert KidTypes(p.children)[0] == Types(p.schema);
    }
  }

  lemma RewriteSucceeds(rule: Rule, cat: Catalog, p: Plan)
    requires PlanOk(cat, p)
    ensures Rewrite(rule, cat, p).Some?
  {
    if p.kind.Filter? {
      var child := p.children[0];
      assert KidTypes(p.children)[0] == Types(p.schema);
      BooleanPredicateTest(p.kind.predicate_);
      if child.kind.NestedLoopJoin? {
        BooleanPredicateTest(child.kind.joinPredicate);
        assert KidTypes(child.children)[0] + KidTypes(child.children)[1] == Types(p.schema);
        JoinRewriteMeaning(p.kind.predicate_, |child.children[0].schema|, |child.children[1].schema|);
      }
    }
  }

  lemma RewriteKeepsSpine(rule: Rule, cat: Catalog, p: Plan)
    requires PlanOk(cat, p) && Rewrite(rule, cat, p).Some?
    ensures SpineKept(Rewrite(rule, cat, p).value, p)
  {
    if rule == MergeProjection && p.kind.Projection? && Types(p.children[0].schema) == Types(p.schema) {
      SpineOfRenamed(p.children[0], p.schema);
    }
  }

  /** Renaming columns does not change what the plan may become. */
  lemma SpineOfRenamed(p: Plan, s: Schema)
    requires Types(s) == Types(p.schema)
    ensures Spine(p.(schema := s)) == Spine(p)
  {
  }

  lemma RewriteKeepsOk(rule: Rule, cat: Catalog, p: Plan)
    requires PlanOk(cat, p) && Rewrite(rule, cat, p).Some?
    ensures PlanOk(cat, Rewrite(rule, cat, p).value)
  {
    var q := Rewrite(rule, cat, p).value;
    if q != p {
      RewriteKeepsSchema(rule, cat, p);
      match rule
      case MergeProjection => ChildWithSchemaOk(cat, p.children[0], p.schema);
      case MergeFilterNLJ =>
        var join := p.children[0];
        assert KidTypes(p.children)[0] == Types(p.schema);
        BooleanPredicateTest(join.kind.joinPredicate);
        JoinRewriteMeaning(p.kind.predicate_, |join.children[0].schema|, |join.children[1].schema|);
      case NLJAsIndexJoin =>
        assert KidTypes(q.children) == [KidTypes(p.children)[0]];
        assert KidTypes(p.children)[1] == Types(p.children[1].schema);
        assert PlanOk(cat, p.children[1]);
      case OrderByAsIndexScan =>
        assert KidTypes(p.children)[0] == Types(p.children[0].schema);
        assert KidTypes(q.children) == [];
      case MergeFilterScan =>
        assert KidTypes(p.children)[0] == Types(p.children[0].schema);
        assert KidTypes(q.children) == [];
      case EliminateTrueFilter =>
    }
  }

  /** Only the types of a schema matter to a node's conditions. */
  lemma ChildWithSchemaOk(cat: Catalog, p: Plan, s: Schema)
    requires PlanOk(cat, p) && Types(s) == Types(p.schema)
    ensures PlanOk(cat, p.(schema := s))
  {
  }
}
