/** The rules do not check the conditions under which they are sound. Here are the exact conditions. */
module SideConditions {
  import opened Wrappers
  import opened Values
  import opened Expressions
  import opened Ordering
  import opened Plans
  import opened Rules
  import opened WellFormed
  import opened RowLemmas
  import opened Soundness
  import opened Pipeline

  // ----- Filter into an always-true LEFT join -----

  /** The filter keeps some row of the left row `l`: a padded one if the right side is empty. */
  ghost predicate FilterKeepsLeftRow(e: Expr, l: Row, rs: seq<Row>, pad: Row) {
    if rs == [] then Passes(Eval(e, l + pad)) else exists i :: 0 <= i < |rs| && Passes(Eval(e, l + rs[i]))
  }

  lemma {:induction false} MatchIffKept(e: Expr, f: Expr, l: Row, rs: seq<Row>, rw: nat)
    requires AllWidth(rs, rw) && RewriteForJoin(e, |l|, rw) == Some(f) && !IsArray(e)
    ensures MatchRows(f, l, rs) != [] <==> exists i :: 0 <= i < |rs| && Passes(Eval(e, l + rs[i]))
  {
    if rs != [] {
      JoinRewriteMeaning(e, |l|, rw);
      assert JoinValueOf(e, EvalJoin(f, l, rs[0]), Eval(e, l + rs[0]));
      MatchIffKept(e, f, l, rs[1..], rw);
      if exists i :: 0 <= i < |rs| && Passes(Eval(e, l + rs[i])) {
        var i :| 0 <= i < |rs| && Passes(Eval(e, l + rs[i]));
        assert i > 0 ==> rs[1..][i - 1] == rs[i];
      }
      if exists i :: 0 <= i < |rs[1..]| && Passes(Eval(e, l + rs[1..][i])) {
        var i :| 0 <= i < |rs[1..]| && Passes(Eval(e, l + rs[1..][i]));
        assert rs[i + 1] == rs[1..][i];
      }
    }
  }

  lemma {:induction false} AllPairs(l: Row, rs: seq<Row>)
    ensures |MatchRows(TRUE_EXPR, l, rs)| == |rs|
  {
    if rs != [] {
      AllPairs(l, rs[1..]);
    }
  }

  lemma FilterOne(e: Expr, row: Row)
    ensures FilterRows(e, [row]) == if Passes(Eval(e, row)) then [row] else []
  {
    assert [row][1..] == [];
  }

  /** One left row: merging adds the padded row exactly when the filter keeps nothing of it. */
  lemma LeftBlock(e: Expr, f: Expr, l: Row, rs: seq<Row>, pad: Row)
    requires AllWidth(rs, |pad|) && RewriteForJoin(e, |l|, |pad|) == Some(f) && !IsArray(e)
    ensures var filtered := FilterRows(e, PadUnmatched(LEFT, l, MatchRows(TRUE_EXPR, l, rs), pad));
            var merged := PadUnmatched(LEFT, l, MatchRows(f, l, rs), pad);
            if FilterKeepsLeftRow(e, l, rs, pad) then filtered == merged else |filtered| < |merged|
  {
    if rs == [] {
      FilterOne(e, l + pad);
    } else {
      AllPairs(l, rs);
      FilterMatches(e, f, l, rs, |pad|);
      MatchIffKept(e, f, l, rs, |pad|);
    }
  }

  lemma {:induction false} LeftRows(e: Expr, f: Expr, ls: seq<Row>, rs: seq<Row>, pad: Row, lw: nat)
    requires AllWidth(ls, lw) && AllWidth(rs, |pad|) && RewriteForJoin(e, lw, |pad|) == Some(f) && !IsArray(e)
    ensures var filtered := FilterRows(e, JoinRows(TRUE_EXPR, LEFT, ls, rs, pad));
            var merged := JoinRows(f, LEFT, ls, rs, pad);
            if forall i :: 0 <= i < |ls| ==> FilterKeepsLeftRow(e, ls[i], rs, pad)
            then filtered == merged else |filtered| < |merged|
  {
    if ls != [] {
      var block := PadUnmatched(LEFT, ls[0], MatchRows(TRUE_EXPR, ls[0], rs), pad);
      FilterConcat(e, block, JoinRows(TRUE_EXPR, LEFT, ls[1..], rs, pad));
      LeftBlock(e, f, ls[0], rs, pad);
      LeftRows(e, f, ls[1..], rs, pad, lw);
      if forall i :: 0 <= i < |ls[1..]| ==> FilterKeepsLeftRow(e, ls[1..][i], rs, pad) {
        forall i | 0 < i < |ls| ensures FilterKeepsLeftRow(e, ls[i], rs, pad) {
          assert ls[i] == ls[1..][i - 1];
        }
      } else {
        var i :| 0 <= i < |ls[1..]| && !FilterKeepsLeftRow(e, ls[1..][i], rs, pad);
        assert ls[i + 1] == ls[1..][i];
      }
    }
  }

  /** Merging a filter into an always-true LEFT join keeps the rows exactly when the filter keeps a row of every
      left row; into an INNER join it always does. */
  lemma MergeIntoJoinIff(e: Expr, f: Expr, jt: JoinType, ls: seq<Row>, rs: seq<Row>, pad: Row, lw: nat)
    requires jt == INNER || jt == LEFT
    requires AllWidth(ls, lw) && AllWidth(rs, |pad|) && RewriteForJoin(e, lw, |pad|) == Some(f) && !IsArray(e)
    ensures FilterRows(e, JoinRows(TRUE_EXPR, jt, ls, rs, pad)) == JoinRows(f, jt, ls, rs, pad)
       <==> jt == INNER || forall i :: 0 <= i < |ls| ==> FilterKeepsLeftRow(e, ls[i], rs, pad)
  {
    if jt == INNER {
      FilterOverCrossJoin(e, f, ls, rs, pad, lw, |pad|);
    } else {
      LeftRows(e, f, ls, rs, pad, lw);
    }
  }

  /** The rule fires on a LEFT join all the same: a filter that keeps nothing turns into a join that keeps every
      left row. */
  lemma LeftMergeExample(l: Plan, r: Plan, cols: Schema, row: Row, pad: Row)
    ensures var never := Constant(BoolV(false));
            && RewriteFilterNLJ(Node(Filter(never), cols, [Node(NestedLoopJoin(TRUE_EXPR, LEFT), cols, [l, r])]))
               == Some(Node(NestedLoopJoin(never, LEFT), cols, [l, r]))
            && FilterRows(never, JoinRows(TRUE_EXPR, LEFT, [row], [], pad)) == []
            && JoinRows(never, LEFT, [row], [], pad) == [row + pad]
  {
    var never := Constant(BoolV(false));
    assert [row][1..] == [];
    FilterOne(never, row + pad);
    assert JoinRows(TRUE_EXPR, LEFT, [row], [], pad) == [row + pad];
  }

  /** A join on the boolean null counts as always true: the cast keeps the null and its byte reads as true. The filter
      over the join keeps nothing, the merged join every pair. */
  lemma NullJoinMergeExample(l: Plan, r: Plan, cols: Schema, a: Row, b: Row, pad: Row)
    ensures var unknown := Constant(Null(BOOLEAN));
            && RewriteFilterNLJ(Node(Filter(TRUE_EXPR), cols, [Node(NestedLoopJoin(unknown, INNER), cols, [l, r])]))
               == Some(Node(NestedLoopJoin(TRUE_EXPR, INNER), cols, [l, r]))
            && FilterRows(TRUE_EXPR, JoinRows(unknown, INNER, [a], [b], pad)) == []
            && JoinRows(TRUE_EXPR, INNER, [a], [b], pad) == [a + b]
  {
    var unknown := Constant(Null(BOOLEAN));
    assert [a][1..] == [] && [b][1..] == [];
    assert Passes(EvalJoin(TRUE_EXPR, a, b)) && !Passes(EvalJoin(unknown, a, b));
    assert MatchRows(unknown, a, [b]) == [];
    assert MatchRows(TRUE_EXPR, a, [b]) == [a + b] + MatchRows(TRUE_EXPR, a, []);
  }

  lemma {:induction false} ConstantNeverMatches(c: Expr, l: Row, rs: seq<Row>)
    requires c.Constant? && c != TRUE_EXPR
    ensures MatchRows(c, l, rs) == []
  {
    if rs != [] {
      ConstantNeverMatches(c, l, rs[1..]);
    }
  }

  /** No pair of rows passes the filter. */
  ghost predicate NoPairPasses(e: Expr, ls: seq<Row>, rs: seq<Row>) {
    forall i, j :: 0 <= i < |ls| && 0 <= j < |rs| ==> !Passes(Eval(e, ls[i] + rs[j]))
  }

  lemma NoPairPassesTail(e: Expr, ls: seq<Row>, rs: seq<Row>)
    requires ls != []
    ensures NoPairPasses(e, ls, rs)
       <==> NoPairPasses(e, ls[1..], rs) && forall j :: 0 <= j < |rs| ==> !Passes(Eval(e, ls[0] + rs[j]))
  {
    assert forall i :: 0 < i < |ls| ==> ls[i] == ls[1..][i - 1];
    assert forall i :: 0 <= i < |ls[1..]| ==> ls[1..][i] == ls[i + 1];
  }

  /** A constant other than true that the rule takes for true: the join has no rows, so merging the filter keeps the
      rows of an INNER join exactly when no pair passes the filter. */
  lemma {:induction false} ConstantJoinMergeIff(c: Expr, e: Expr, f: Expr, ls: seq<Row>, rs: seq<Row>, pad: Row,
                                                lw: nat)
    requires c.Constant? && c != TRUE_EXPR
    requires AllWidth(ls, lw) && AllWidth(rs, |pad|) && RewriteForJoin(e, lw, |pad|) == Some(f) && !IsArray(e)
    ensures JoinRows(c, INNER, ls, rs, pad) == []
    ensures FilterRows(e, JoinRows(c, INNER, ls, rs, pad)) == JoinRows(f, INNER, ls, rs, pad)
       <==> NoPairPasses(e, ls, rs)
  {
    if ls != [] {
      ConstantNeverMatches(c, ls[0], rs);
      MatchIffKept(e, f, ls[0], rs, |pad|);
      NoPairPassesTail(e, ls, rs);
      ConstantJoinMergeIff(c, e, f, ls[1..], rs, pad, lw);
    }
  }

  // ----- Removing true filters -----

  lemma {:induction false} ConstantKeepsNothing(c: Expr, rows: seq<Row>)
    requires c.Constant? && c != TRUE_EXPR
    ensures FilterRows(c, rows) == []
  {
    if rows != [] {
      ConstantKeepsNothing(c, rows[1..]);
    }
  }

  /** The rule removes every filter on a constant that is taken for true, the boolean null included; that keeps the rows
      exactly when the constant is true or there are none. */
  lemma TrueFilterIff(c: Expr, child: Plan, s: Schema, rows: seq<Row>)
    requires c.Constant?
    ensures IsPredicateTrue(c) == Some(true) ==> RewriteTrueFilter(Node(Filter(c), s, [child])) == Some(child)
    ensures IsPredicateTrue(Constant(Null(BOOLEAN))) == Some(true)
    ensures FilterRows(c, rows) == rows <==> c == TRUE_EXPR || rows == []
  {
    if c == TRUE_EXPR {
      FilterTrue(rows);
    } else {
      ConstantKeepsNothing(c, rows);
    }
  }

  // ----- Sort as index scan -----

  /** Every table and index that agree under this index definition come out of the index scan sorted. */
  ghost predicate IndexServes(x: IndexInfo, orders: seq<OrderBy>) {
    forall w: nat, rows: seq<Row>, stored: StoredIndex :: AllWidth(rows, w) && IndexAgrees(x, rows, stored) ==>
      SortedBy(orders, PickRows(rows, stored.entries))
  }

  function RowWith(w: nat, c: nat, v: Value): (r: Row)
    ensures |r| == w
  {
    seq(w, i => if i == c then v else IntV(0))
  }

  function WidthFor(cols: seq<nat>): (w: nat)
    ensures forall i :: 0 <= i < |cols| ==> cols[i] < w
  {
    if cols == [] then 0
    else var w := WidthFor(cols[1..]); if cols[0] < w then w else cols[0] + 1
  }

  /** The column of the first NULLS LAST that decides between rows. */
  function Offender(orders: seq<OrderBy>, seen: set<nat>): (c: nat)
    requires SortColumns(orders).Some? && !NullOrderHarmless(orders, seen)
    ensures c !in seen && c in SortColumns(orders).value
  {
    if orders[0].nulls == NullsLast && orders[0].expr.colIdx !in seen then orders[0].expr.colIdx
    else Offender(orders[1..], seen + {orders[0].expr.colIdx})
  }

  lemma {:induction false} NullRowMustComeLast(orders: seq<OrderBy>, seen: set<nat>, w: nat)
    requires SortColumns(orders).Some? && !NullOrderHarmless(orders, seen)
    requires forall i :: 0 <= i < |orders| ==> SortColumns(orders).value[i] < w
    ensures var c := Offender(orders, seen);
            !RowLeq(orders, RowWith(w, c, Null(INTEGER)), RowWith(w, w, IntV(0)))
  {
    var c := Offender(orders, seen);
    var d := orders[0].expr.colIdx;
    assert SortColumns(orders).value[0] == d;
    if !(orders[0].nulls == NullsLast && d !in seen) {
      assert SortColumns(orders[1..]).value == SortColumns(orders).value[1..];
      NullRowMustComeLast(orders[1..], seen + {d}, w);
    }
  }

  lemma {:induction false} NullRowLeastByKey(cols: seq<nat>, c: nat, w: nat)
    requires forall i :: 0 <= i < |cols| ==> cols[i] < w
    ensures RowLeq(KeyOrders(cols), RowWith(w, c, Null(INTEGER)), RowWith(w, w, IntV(0)))
  {
    if cols != [] {
      assert KeyOrders(cols)[1..] == KeyOrders(cols[1..]);
      NullRowLeastByKey(cols[1..], c, w);
    }
  }

  /** Two rows of different keys form an agreeing index in table order, if that order is admissible. */
  lemma TwoRowIndex(x: IndexInfo, a: Row, b: Row)
    requires !SameKey(x.keyAttrs, a, b)
    requires RowLeq(KeyOrders(x.keyAttrs), a, b)
    ensures IndexAgrees(x, [a, b], StoredIndex(x.keyAttrs, [0, 1]))
    ensures PickRows([a, b], [0, 1]) == [a, b]
  {
    assert Positions(2) == [0, 1];
    assert PickRows([a, b], [0, 1]) == [a, b];
  }

  /** In an unordered index they may stand the other way round. */
  lemma SwappedRowIndex(x: IndexInfo, a: Row, b: Row)
    requires !SameKey(x.keyAttrs, b, a) && !x.ordered
    ensures IndexAgrees(x, [a, b], StoredIndex(x.keyAttrs, [1, 0]))
    ensures PickRows([a, b], [1, 0]) == [b, a]
  {
    assert Positions(2) == [0, 1];
    assert multiset([1, 0]) == multiset([0, 1]);
    assert PickRows([a, b], [1, 0]) == [b, a];
  }

  lemma UnservedNulls(x: IndexInfo, orders: seq<OrderBy>)
    requires SortColumns(orders) == Some(x.keyAttrs) && x.ordered && !NullOrderHarmless(orders, {})
    ensures !IndexServes(x, orders)
  {
    var w, c := WidthFor(x.keyAttrs), Offender(orders, {});
    var a, b := RowWith(w, c, Null(INTEGER)), RowWith(w, w, IntV(0));
    NullRowMustComeLast(orders, {}, w);
    NullRowLeastByKey(x.keyAttrs, c, w);
    var i :| 0 <= i < |x.keyAttrs| && x.keyAttrs[i] == c;
    assert ColumnOf(a, x.keyAttrs[i], BOOLEAN) != ColumnOf(b, x.keyAttrs[i], BOOLEAN);
    TwoRowIndex(x, a, b);
    assert [a, b][0] == a && [a, b][1] == b;
    assert AllWidth([a, b], w) && !SortedBy(orders, [a, b]);
  }

  lemma UnservedUnordered(x: IndexInfo, orders: seq<OrderBy>)
    requires SortColumns(orders) == Some(x.keyAttrs) && !x.ordered && orders != []
    ensures !IndexServes(x, orders)
  {
    var w, c := WidthFor(x.keyAttrs), x.keyAttrs[0];
    var a, b := RowWith(w, w, IntV(0)), RowWith(w, c, IntV(1));
    assert ColumnOf(b, x.keyAttrs[0], BOOLEAN) != ColumnOf(a, x.keyAttrs[0], BOOLEAN);
    SwappedRowIndex(x, a, b);
    assert Eval(orders[0].expr, a) == IntV(0) && Eval(orders[0].expr, b) == IntV(1);
    assert [b, a][0] == b && [b, a][1] == a;
    assert AllWidth([a, b], w) && !SortedBy(orders, [b, a]);
  }

  /** An index with just the sort's columns serves the sort on all data if and only if it is ordered and no
      NULLS LAST of the sort decides between rows. The rule checks neither. */
  lemma IndexServesIff(x: IndexInfo, orders: seq<OrderBy>)
    requires SortColumns(orders) == Some(x.keyAttrs)
    ensures IndexServes(x, orders) <==> orders == [] || (x.ordered && NullOrderHarmless(orders, {}))
  {
    if orders == [] || (x.ordered && NullOrderHarmless(orders, {})) {
      forall w: nat, rows: seq<Row>, stored: StoredIndex | AllWidth(rows, w) && IndexAgrees(x, rows, stored)
        ensures SortedBy(orders, PickRows(rows, stored.entries))
      {
        var out := PickRows(rows, stored.entries);
        forall i, j | 0 <= i < j < |out| ensures RowLeq(orders, out[i], out[j]) {
          if orders != [] {
            SortOrderIsKeyOrder(orders, {}, out[i], out[j]);
          }
        }
      }
    } else if x.ordered {
      UnservedNulls(x, orders);
    } else {
      UnservedUnordered(x, orders);
    }
  }

  // ----- The same for plans -----

  /** Table 0, of `w` columns, with the one index. */
  function OneIndex(x: IndexInfo, w: nat): Catalog {
    Catalog(map[0 := TableInfo("t", seq(w, _ => INTEGER))], map["t" := [x]])
  }

  function OneTable(x: IndexInfo, rows: seq<Row>, stored: StoredIndex): Database {
    Database(map[0 := rows], map[x.oid := stored], (_, _) => Null(INTEGER), (_, _, _) => true)
  }

  function Wide(w: nat): (s: Schema)
    ensures |s| == w
  {
    seq(w, _ => Column("c", INTEGER))
  }

  function SortOfScan(orders: seq<OrderBy>, w: nat): Plan {
    Node(Sort(orders), Wide(w), [Node(SeqScan(0, "t", None), Wide(w), [])])
  }

  function ScanOfIndex(x: IndexInfo, w: nat): Plan {
    Node(IndexScan(0, x.oid), Wide(w), [])
  }

  /** The rule takes the index whatever its order. */
  lemma SortRuleFires(x: IndexInfo, orders: seq<OrderBy>, w: nat)
    requires SortColumns(orders) == Some(x.keyAttrs)
    ensures RewriteSort(OneIndex(x, w), SortOfScan(orders, w)) == Some(ScanOfIndex(x, w))
  {
    assert FirstIndexOn([x], x.keyAttrs) == Some(x);
  }

  lemma OneTableAgrees(x: IndexInfo, w: nat, rows: seq<Row>, stored: StoredIndex)
    requires AllWidth(rows, w) && IndexAgrees(x, rows, stored)
    ensures Agrees(OneIndex(x, w), OneTable(x, rows, stored))
  {
    var cat, db := OneIndex(x, w), OneTable(x, rows, stored);
    assert TableIndexes(cat, "t") == [x];
    assert TableAgrees(cat, db, 0);
  }

  /** The index scan gives a result of the sort exactly when it comes out sorted. */
  lemma IndexScanRefinesIff(x: IndexInfo, orders: seq<OrderBy>, w: nat, rows: seq<Row>, stored: StoredIndex)
    requires IndexAgrees(x, rows, stored)
    ensures Refines(ScanOfIndex(x, w), SortOfScan(orders, w), OneTable(x, rows, stored))
       <==> SortedBy(orders, PickRows(rows, stored.entries))
  {
    var db, scan, sort := OneTable(x, rows, stored), ScanOfIndex(x, w), SortOfScan(orders, w);
    var out, child := PickRows(rows, stored.entries), sort.children[0];
    IndexScanPermutes(x, rows, stored);
    forall ys: seq<Row> ensures Produces(scan, db, ys) <==> ys == out {
      ProducesLeaf(scan.kind, scan.schema, db, ys);
    }
    forall ys: seq<Row> ensures Produces(child, db, ys) <==> ys == rows {
      ProducesLeaf(child.kind, child.schema, db, ys);
    }
    ProducesOne(sort.kind, sort.schema, child, db, out);
    assert Produces(sort, db, out) <==> Denotes(sort.kind, sort.schema, [Types(child.schema)], db, [rows], out);
    assert Produces(scan, db, out);
  }

  /** On every table with this one index, the rule's plan gives only results of the sort. */
  ghost predicate SortRuleSound(x: IndexInfo, orders: seq<OrderBy>) {
    forall w: nat, rows: seq<Row>, stored: StoredIndex :: AllWidth(rows, w) && IndexAgrees(x, rows, stored) ==>
      Refines(ScanOfIndex(x, w), SortOfScan(orders, w), OneTable(x, rows, stored))
  }

  lemma SoundIsServed(x: IndexInfo, orders: seq<OrderBy>)
    ensures SortRuleSound(x, orders) <==> IndexServes(x, orders)
  {
    forall w: nat, rows: seq<Row>, stored: StoredIndex | AllWidth(rows, w) && IndexAgrees(x, rows, stored)
      ensures Refines(ScanOfIndex(x, w), SortOfScan(orders, w), OneTable(x, rows, stored))
         <==> SortedBy(orders, PickRows(rows, stored.entries))
    {
      IndexScanRefinesIff(x, orders, w, rows, stored);
    }
  }

  /** The rule is sound for a sort and an index if and only if the index is ordered and no NULLS LAST decides: it fires
      on data that agrees with the catalog in any case. */
  lemma SortRuleSoundIff(x: IndexInfo, orders: seq<OrderBy>)
    requires SortColumns(orders) == Some(x.keyAttrs)
    ensures forall w: nat :: RewriteSort(OneIndex(x, w), SortOfScan(orders, w)) == Some(ScanOfIndex(x, w))
    ensures forall w: nat, rows: seq<Row>, stored: StoredIndex :: AllWidth(rows, w) && IndexAgrees(x, rows, stored) ==>
              Agrees(OneIndex(x, w), OneTable(x, rows, stored))
    ensures SortRuleSound(x, orders) <==> orders == [] || (x.ordered && NullOrderHarmless(orders, {}))
  {
    IndexServesIff(x, orders);
    forall w: nat ensures RewriteSort(OneIndex(x, w), SortOfScan(orders, w)) == Some(ScanOfIndex(x, w)) {
      SortRuleFires(x, orders, w);
    }
    SoundIsServed(x, orders);
    forall w: nat, rows: seq<Row>, stored: StoredIndex | AllWidth(rows, w) && IndexAgrees(x, rows, stored)
      ensures Agrees(OneIndex(x, w), OneTable(x, rows, stored))
    {
      OneTableAgrees(x, w, rows, stored);
    }
  }

  // ----- Plans with one result -----

  /** No node of the plan leaves the order or the content of its result open. */
  predicate OneResult(p: Plan) {
    && !p.kind.Sort? && !p.kind.Aggregation? && !p.kind.Other?
    && forall i :: 0 <= i < |p.children| ==> OneResult(p.children[i])
  }

  lemma OneResultHasNoOthers(p: Plan)
    requires OneResult(p)
    ensures NoOthers(p)
  {
  }

  lemma {:induction false} ResultUnique(p: Plan, db: Database, xs: seq<Row>, ys: seq<Row>)
    requires OneResult(p) && Produces(p, db, xs) && Produces(p, db, ys)
    ensures xs == ys
    decreases p
  {
    var ins :| ProducesAll(p.children, db, ins) && Denotes(p.kind, p.schema, KidTypes(p.children), db, ins, xs);
    var outs :| ProducesAll(p.children, db, outs) && Denotes(p.kind, p.schema, KidTypes(p.children), db, outs, ys);
    ProducesAllAt(p.children, db, ins);
    ProducesAllAt(p.children, db, outs);
    forall i | 0 <= i < |ins| ensures ins[i] == outs[i] {
      ResultUnique(p.children[i], db, ins[i], outs[i]);
    }
    assert ins == outs;
  }

  /** Without sorts, aggregations and opaque operators, the optimized plan gives exactly the same row sequence. */
  lemma OptimizedRowsEqual(forceStarterRule: bool, cat: Catalog, db: Database, p: Plan, rows: seq<Row>)
    requires PlanOk(cat, p) && Agrees(cat, db) && NoScanFilters(p) && OneResult(p)
    ensures Optimize(forceStarterRule, cat, p).Some?
    ensures Produces(Optimize(forceStarterRule, cat, p).value, db, rows) <==> Produces(p, db, rows)
  {
    OneResultHasNoOthers(p);
    var out := OptimizedPlanAnswers(forceStarterRule, cat, db, p);
    OptimizeSound(forceStarterRule, cat, db, p);
    if Produces(p, db, rows) {
      ResultUnique(p, db, rows, out);
    }
  }
}
