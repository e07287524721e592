/** Every rule, applied to one node or in a whole pass, only removes results: what the new plan may produce,
    the old plan may produce. */
module Soundness {
  import opened Values
  import opened Expressions
  import opened Ordering
  import opened Plans
  import opened Rules
  import opened WellFormed
  import opened RowLemmas

  // ----- Widths -----

  /** Every row a well-formed plan produces has one value per output column. */
  lemma {:induction false} ProducedWidth(cat: Catalog, db: Database, p: Plan, rows: seq<Row>)
    requires PlanOk(cat, p) && Agrees(cat, db) && Produces(p, db, rows)
    ensures AllWidth(rows, |p.schema|)
    decreases p
  {
    var ins :| ProducesAll(p.children, db, ins) && Denotes(p.kind, p.schema, KidTypes(p.children), db, ins, rows);
    ProducesAllAt(p.children, db, ins);
    forall i | 0 <= i < |p.children| ensures AllWidth(ins[i], |p.children[i].schema|) {
      ProducedWidth(cat, db, p.children[i], ins[i]);
    }
    DenotedWidth(cat, db, p, ins, rows);
  }

  lemma DenotedWidth(cat: Catalog, db: Database, p: Plan, ins: seq<seq<Row>>, rows: seq<Row>)
    requires PlanOk(cat, p) && Agrees(cat, db) && |ins| == |p.children|
    requires Denotes(p.kind, p.schema, KidTypes(p.children), db, ins, rows)
    requires forall i :: 0 <= i < |ins| ==> AllWidth(ins[i], |p.children[i].schema|)
    ensures AllWidth(rows, |p.schema|)
  {
    var kids := KidTypes(p.children);
    match p.kind
    case SeqScan(oid, _, f) =>
      assert TableAgrees(cat, db, oid);
      if f.Some? {
        FilterWidth(f.value, db.tables[oid], |p.schema|);
      }
    case IndexScan(oid, index) =>
      assert TableAgrees(cat, db, oid);
    case Filter(e) =>
      assert kids[0] == Types(p.schema);
      FilterWidth(e, ins[0], |p.schema|);
    case NestedLoopJoin(e, jt) =>
      assert |Types(p.schema)| == |kids[0]| + |kids[1]|;
      JoinWidth(e, jt, ins[0], ins[1], NullRow(kids[1]), |kids[0]|);
    case NestedIndexJoin(key, oid, index, _, _, inner, jt) =>
      assert TableAgrees(cat, db, oid);
      assert |Types(p.schema)| == |kids[0]| + |inner|;
      IndexJoinWidth(key, jt, ins[0], db.tables[oid], db.indexes[index].keyAttrs[0], db.indexes[index].entries,
                     NullRow(Types(inner)), |kids[0]|);
    case Sort(_) =>
      assert kids[0] == Types(p.schema);
      PermutedWidth(ins[0], rows, |p.schema|);
    case Limit(_) =>
      assert kids[0] == Types(p.schema);
    case Aggregation(groupBys, inputs, types) =>
      AggregateWidth(db, groupBys, inputs, types, ins[0], rows);
    case _ =>
  }

  lemma PermutedWidth(a: seq<Row>, b: seq<Row>, w: nat)
    requires multiset(a) == multiset(b) && AllWidth(a, w)
    ensures AllWidth(b, w)
  {
    forall i | 0 <= i < |b| ensures |b[i]| == w {
      assert b[i] in multiset(a);
    }
  }

  lemma AggregateWidth(db: Database, groupBys: seq<Expr>, inputs: seq<Expr>, types: seq<AggregationType>,
                       input: seq<Row>, rows: seq<Row>)
    requires |inputs| == |types|
    requires exists keys: seq<Row> :: ListsKeys(keys, GroupKeys(groupBys, input))
                                      && rows == AggregateRows(db, groupBys, inputs, types, input, keys)
    ensures AllWidth(rows, |groupBys| + |inputs|)
  {
    var keys :| ListsKeys(keys, GroupKeys(groupBys, input))
                && rows == AggregateRows(db, groupBys, inputs, types, input, keys);
    forall i | 0 <= i < |keys| ensures |keys[i]| == |groupBys| {
      assert keys[i] in keys;
    }
  }

  lemma {:induction false} IndexJoinWidth(key: Expr, jt: JoinType, ls: seq<Row>, rows: seq<Row>, col: nat,
                                          entries: seq<nat>,
                       pad: Row, lw: nat)
    requires forall i :: 0 <= i < |entries| ==> entries[i] < |rows|
    requires AllWidth(ls, lw) && AllWidth(rows, |pad|)
    ensures AllWidth(IndexJoinRows(key, jt, ls, rows, col, entries, pad), lw + |pad|)
  {
    if ls != [] {
      IndexJoinWidth(key, jt, ls[1..], rows, col, entries, pad, lw);
    }
  }

  // ----- One node, rule by rule -----

  lemma RefinesTransitive(a: Plan, b: Plan, c: Plan, db: Database)
    requires Refines(a, b, db) && Refines(b, c, db)
    ensures Refines(a, c, db)
  {
  }

  lemma ProjectionRefines(cat: Catalog, db: Database, p: Plan)
    requires PlanOk(cat, p) && Agrees(cat, db) && RewriteProjection(p).Some?
    ensures Refines(RewriteProjection(p).value, p, db)
  {
    var q := RewriteProjection(p).value;
    if q != p {
      var child := p.children[0];
      assert p == Node(p.kind, p.schema, [child]);
      forall rows | Produces(q, db, rows) ensures Produces(p, db, rows) {
        assert |Types(child.schema)| == |Types(p.schema)|;
        var ins :| ProducesAll(child.children, db, ins)
                   && Denotes(child.kind, p.schema, KidTypes(child.children), db, ins, rows);
        assert Denotes(child.kind, child.schema, KidTypes(child.children), db, ins, rows);
        assert Produces(child, db, rows);
        ProducedWidth(cat, db, child, rows);
        IdentityProjection(p.kind.exprs, rows);
        ProducesOne(p.kind, p.schema, child, db, rows);
        assert Denotes(p.kind, p.schema, [Types(child.schema)], db, [rows], rows);
      }
    }
  }

  lemma FilterNLJRefines(cat: Catalog, db: Database, p: Plan)
    requires PlanOk(cat, p) && Agrees(cat, db) && RewriteFilterNLJ(p).Some?
    ensures Refines(RewriteFilterNLJ(p).value, p, db)
  {
    var q := RewriteFilterNLJ(p).value;
    if q != p {
      var join := p.children[0];
      var l, r := join.children[0], join.children[1];
      assert p == Node(p.kind, p.schema, [join]);
      assert join == Node(join.kind, join.schema, [l, r]);
      BooleanPredicateTest(join.kind.joinPredicate);
      var pad := NullRow(Types(r.schema));
      forall rows | Produces(q, db, rows) ensures Produces(p, db, rows) {
        ProducesTwo(q.kind, q.schema, l, r, db, rows);
        var xs, ys :| Produces(l, db, xs) && Produces(r, db, ys)
                      && Denotes(q.kind, q.schema, [Types(l.schema), Types(r.schema)], db, [xs, ys], rows);
        ProducedWidth(cat, db, l, xs);
        ProducedWidth(cat, db, r, ys);
        FilterOverCrossJoin(p.kind.predicate_, q.kind.joinPredicate, xs, ys, pad, |l.schema|, |r.schema|);
        CrossJoinProduces(p, join, l, r, db, xs, ys, JoinRows(TRUE_EXPR, INNER, xs, ys, pad), rows);
      }
    }
  }

  lemma CrossJoinProduces(p: Plan, join: Plan, l: Plan, r: Plan, db: Database, xs: seq<Row>, ys: seq<Row>,
                          pairs: seq<Row>, rows: seq<Row>)
    requires p == Node(p.kind, p.schema, [join]) && p.kind.Filter?
    requires join == Node(NestedLoopJoin(TRUE_EXPR, INNER), join.schema, [l, r])
    requires Produces(l, db, xs) && Produces(r, db, ys)
    requires pairs == JoinRows(TRUE_EXPR, INNER, xs, ys, NullRow(Types(r.schema)))
    requires rows == FilterRows(p.kind.predicate_, pairs)
    ensures Produces(p, db, rows)
  {
    ProducesTwo(join.kind, join.schema, l, r, db, pairs);
    assert Denotes(join.kind, join.schema, [Types(l.schema), Types(r.schema)], db, [xs, ys], pairs);
    ProducesOne(p.kind, p.schema, join, db, rows);
    assert Denotes(p.kind, p.schema, [Types(join.schema)], db, [pairs], rows);
  }

  lemma EquiJoinJoins(e: Expr)
    requires EquiJoinColumns(e).Some?
    ensures var (l, r) := EquiJoinColumns(e).value;
            JoinsOn(e, ColumnValue(0, l.colIdx, l.ret), r.colIdx)
  {
    var (a, b) := EquiJoinColumns(e).value;
    forall l: Row, r: Row
      ensures Passes(EvalJoin(e, l, r)) <==>
              Compare(Equal, ColumnOf(r, b.colIdx, BOOLEAN), Eval(ColumnValue(0, a.colIdx, a.ret), l)) == CmpTrue
    {
      var vs := EvalJoinAll(e.children, l, r);
      assert EvalJoinAll(e.children[1..], l, r) == [EvalJoin(e.children[1], l, r)];
      assert vs == [EvalJoin(e.children[0], l, r), EvalJoin(e.children[1], l, r)];
    }
  }

  lemma ScanProduces(cat: Catalog, db: Database, scan: Plan)
    requires PlanOk(cat, scan) && Agrees(cat, db) && scan.kind.SeqScan? && scan.kind.scanFilter.None?
    ensures TableAgrees(cat, db, scan.kind.tableOid)
    ensures Produces(scan, db, db.tables[scan.kind.tableOid])
  {
    assert scan == Node(scan.kind, scan.schema, []);
    assert TableAgrees(cat, db, scan.kind.tableOid);
    ProducesLeaf(scan.kind, scan.schema, db, db.tables[scan.kind.tableOid]);
  }

  lemma NLJRefines(cat: Catalog, db: Database, p: Plan)
    requires PlanOk(cat, p) && Agrees(cat, db) && NoScanFilters(p) && RewriteNLJ(cat, p).Some?
    ensures Refines(RewriteNLJ(cat, p).value, p, db)
  {
    var q := RewriteNLJ(cat, p).value;
    if q != p {
      var left, scan := p.children[0], p.children[1];
      assert p == Node(p.kind, p.schema, [left, scan]);
      assert PlanOk(cat, scan) && NoScanFilters(scan);
      ScanProduces(cat, db, scan);
      var table := db.tables[scan.kind.tableOid];
      forall rows | Produces(q, db, rows) ensures Produces(p, db, rows) {
        ProducesOne(q.kind, q.schema, left, db, rows);
        var xs :| Produces(left, db, xs) && Denotes(q.kind, q.schema, [Types(left.schema)], db, [xs], rows);
        IndexJoinDenotes(cat, db, p, xs, rows);
        ProducesTwo(p.kind, p.schema, left, scan, db, rows);
      }
    }
  }

  lemma IndexJoinDenotes(cat: Catalog, db: Database, p: Plan, xs: seq<Row>, rows: seq<Row>)
    requires PlanOk(cat, p) && Agrees(cat, db) && RewriteNLJ(cat, p).Some? && RewriteNLJ(cat, p).value != p
    requires p.children[1].kind.tableOid in cat.tables && TableAgrees(cat, db, p.children[1].kind.tableOid)
    requires var q := RewriteNLJ(cat, p).value;
             Denotes(q.kind, q.schema, [Types(p.children[0].schema)], db, [xs], rows)
    ensures Denotes(p.kind, p.schema, [Types(p.children[0].schema), Types(p.children[1].schema)], db,
                    [xs, db.tables[p.children[1].kind.tableOid]], rows)
  {
    var e, scan := p.kind.joinPredicate, p.children[1];
    var (l, r) := EquiJoinColumns(e).value;
    assert PlanOk(cat, scan);
    var x := FirstIndexOn(TableIndexes(cat, scan.kind.tableName), [r.colIdx]).value;
    EquiJoinJoins(e);
    IndexJoinIsLoopJoin(e, ColumnValue(0, l.colIdx, l.ret), p.kind.joinType, xs, x,
                        db.tables[scan.kind.tableOid], db.indexes[x.oid], NullRow(Types(scan.schema)));
  }

  /** Two rows that agree on which of the seen columns are null compare alike under the sort keys and under
      the key order of an index on the same columns. */
  lemma {:induction false} SortOrderIsKeyOrder(orders: seq<OrderBy>, seen: set<nat>, x: Row, y: Row)
    requires SortColumns(orders).Some? && NullOrderHarmless(orders, seen)
    requires forall c :: c in seen ==> ColumnOf(x, c, BOOLEAN).Null? == ColumnOf(y, c, BOOLEAN).Null?
    ensures RowLeq(orders, x, y) <==> RowLeq(KeyOrders(SortColumns(orders).value), x, y)
  {
    if orders != [] {
      var cols := SortColumns(orders).value;
      var o, k := orders[0], KeyOrders(cols)[0];
      assert KeyOrders(cols)[1..] == KeyOrders(cols[1..]);
      assert cols[1..] == SortColumns(orders[1..]).value;
      var c := o.expr.colIdx;
      var a, b := Eval(o.expr, x), Eval(o.expr, y);
      var a', b' := Eval(k.expr, x), Eval(k.expr, y);
      assert (a == a' || (a.Null? && a'.Null?)) && (b == b' || (b.Null? && b'.Null?));
      assert KeyLeq(o, a, b) == KeyLeq(k, a', b');
      assert KeyLeq(o, b, a) == KeyLeq(k, b', a');
      if KeyLeq(o, a, b) && KeyLeq(o, b, a) {
        assert a.Null? == b.Null?;
        SortOrderIsKeyOrder(orders[1..], seen + {c}, x, y);
      }
    }
  }

  lemma SortRefines(cat: Catalog, db: Database, p: Plan)
    requires PlanOk(cat, p) && Agrees(cat, db) && NoScanFilters(p) && RewriteSort(cat, p).Some?
    ensures Refines(RewriteSort(cat, p).value, p, db)
  {
    var q := RewriteSort(cat, p).value;
    if q != p {
      var orders, scan := p.kind.orderBys, p.children[0];
      assert p == Node(p.kind, p.schema, [scan]);
      assert PlanOk(cat, scan) && NoScanFilters(scan);
      ScanProduces(cat, db, scan);
      var oid := scan.kind.tableOid;
      var table := db.tables[oid];
      var name := cat.tables[oid].name;
      var x := FirstIndexOn(TableIndexes(cat, name), SortColumns(orders).value).value;
      assert ServingIndex(cat, oid, orders).value == x && SortServable(cat, orders, Spine(scan));
      forall rows | Produces(q, db, rows) ensures Produces(p, db, rows) {
        ProducesLeaf(q.kind, q.schema, db, rows);
        IndexScanPermutes(x, table, db.indexes[x.oid]);
        forall i, j | 0 <= i < j < |rows| ensures RowLeq(orders, rows[i], rows[j]) {
          if orders != [] {
            SortOrderIsKeyOrder(orders, {}, rows[i], rows[j]);
          }
        }
        ProducesOne(p.kind, p.schema, scan, db, rows);
        assert Denotes(p.kind, p.schema, [Types(scan.schema)], db, [table], rows);
      }
    }
  }

  lemma FilterScanRefines(cat: Catalog, db: Database, p: Plan)
    requires PlanOk(cat, p) && Agrees(cat, db) && RewriteFilterScan(p).Some?
    ensures Refines(RewriteFilterScan(p).value, p, db)
  {
    var q := RewriteFilterScan(p).value;
    if q != p {
      var scan := p.children[0];
      assert p == Node(p.kind, p.schema, [scan]);
      assert PlanOk(cat, scan);
      ScanProduces(cat, db, scan);
      var table := db.tables[scan.kind.tableOid];
      forall rows | Produces(q, db, rows) ensures Produces(p, db, rows) {
        ProducesLeaf(q.kind, q.schema, db, rows);
        ProducesOne(p.kind, p.schema, scan, db, rows);
        assert Denotes(p.kind, p.schema, [Types(scan.schema)], db, [table], rows);
      }
    }
  }

  lemma TrueFilterRefines(cat: Catalog, db: Database, p: Plan)
    requires PlanOk(cat, p) && RewriteTrueFilter(p).Some?
    ensures Refines(RewriteTrueFilter(p).value, p, db)
  {
    var q := RewriteTrueFilter(p).value;
    if q != p {
      assert p == Node(p.kind, p.schema, [q]);
      BooleanPredicateTest(p.kind.predicate_);
      forall rows | Produces(q, db, rows) ensures Produces(p, db, rows) {
        FilterTrue(rows);
        ProducesOne(p.kind, p.schema, q, db, rows);
        assert Denotes(p.kind, p.schema, [Types(q.schema)], db, [rows], rows);
      }
    }
  }

  /** The rules that rebuild a scan from its table alone, dropping any filter it carries. */
  predicate DropsScanFilter(rule: Rule) {
    rule == NLJAsIndexJoin || rule == OrderByAsIndexScan
  }

  lemma RewriteRefines(rule: Rule, cat: Catalog, db: Database, p: Plan)
    requires PlanOk(cat, p) && Agrees(cat, db) && Rewrite(rule, cat, p).Some?
    requires DropsScanFilter(rule) ==> NoScanFilters(p)
    ensures Refines(Rewrite(rule, cat, p).value, p, db)
  {
    match rule
    case MergeProjection => ProjectionRefines(cat, db, p);
    case MergeFilterNLJ => FilterNLJRefines(cat, db, p);
    case NLJAsIndexJoin => NLJRefines(cat, db, p);
    case OrderByAsIndexScan => SortRefines(cat, db, p);
    case MergeFilterScan => FilterScanRefines(cat, db, p);
    case EliminateTrueFilter => TrueFilterRefines(cat, db, p);
    case _ =>
  }
}
