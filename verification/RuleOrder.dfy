/** The order of the rules carries the soundness of the pipeline: a rule sequence keeps the meaning of every
    well-formed plan exactly when no rule that drops scan filters runs after the rule that creates them. */
module RuleOrder {
  import opened Wrappers
  import opened Values
  import opened Expressions
  import opened Ordering
  import opened Plans
  import opened Rules
  import opened WellFormed
  import opened Soundness
  import opened Pipeline

  ghost predicate KeepsMeaning(rules: seq<Rule>) {
    forall cat: Catalog, db: Database, p: Plan :: PlanOk(cat, p) && Agrees(cat, db) && NoScanFilters(p) ==>
      KeepsMeaningOf(rules, cat, db, p)
  }

  ghost predicate KeepsMeaningOf(rules: seq<Rule>, cat: Catalog, db: Database, p: Plan) {
    RunRules(rules, cat, p).Some? && Refines(RunRules(rules, cat, p).value, p, db)
  }

  // ----- A table with two rows, an index, and a filter that keeps one row -----

  const INT_COLUMN: Schema := [Column("t.v", INTEGER)]
  const COL: Expr := ColumnValue(0, 0, INTEGER)
  const IS_ONE: Expr := Op(Comparison(Equal), [COL, Constant(IntV(1))])

  const CATALOG: Catalog :=
    Catalog(map[0 := TableInfo("t", [INTEGER])], map["t" := [IndexInfo(0, "i", [0], true)]])

  const DATA: Database :=
    Database(map[0 := [[IntV(1)], [IntV(2)]]], map[0 := StoredIndex([0], [0, 1])],
             (t, vs) => Null(INTEGER), (tag, ins, rows) => false)

  const SCAN: Plan := Node(SeqScan(0, "t", None), INT_COLUMN, [])
  const FILTERED_SCAN: Plan := Node(SeqScan(0, "t", Some(IS_ONE)), INT_COLUMN, [])
  const FILTER: Plan := Node(Filter(IS_ONE), INT_COLUMN, [SCAN])

  // The sort of the filtered rows, the same after the filter moved into the scan, and after the index scan.
  const BY_COL: Kind := Sort([OrderBy(DEFAULT, NullsDefault, COL)])
  const SORT0: Plan := Node(BY_COL, INT_COLUMN, [FILTER])
  const SORT1: Plan := Node(BY_COL, INT_COLUMN, [FILTERED_SCAN])
  const SORT2: Plan := Node(IndexScan(0, 0), INT_COLUMN, [])

  // The join of one row with the filtered rows, likewise.
  const TWO: Plan := Node(ValuesList([[Constant(IntV(2))]]), INT_COLUMN, [])
  const EQUI: Kind := NestedLoopJoin(Op(Comparison(Equal), [COL, ColumnValue(1, 0, INTEGER)]), INNER)
  const JOIN0: Plan := Node(EQUI, INT_COLUMN + INT_COLUMN, [TWO, FILTER])
  const JOIN1: Plan := Node(EQUI, INT_COLUMN + INT_COLUMN, [TWO, FILTERED_SCAN])
  const JOIN2: Plan := Node(NestedIndexJoin(COL, 0, 0, "i", "t", INT_COLUMN, INNER), INT_COLUMN + INT_COLUMN, [TWO])

  lemma PassList(rule: Rule, cat: Catalog, c: Plan)
    requires BottomUp(rule, cat, c).Some?
    ensures BottomUpAll(rule, cat, [c]) == Some([BottomUp(rule, cat, c).value])
  {
    var q := BottomUp(rule, cat, c).value;
    assert [c][1..] == [] && [q] + [] == [q];
    assert BottomUpAll(rule, cat, []) == Some([]);
  }

  lemma PassOne(rule: Rule, cat: Catalog, p: Plan, c: Plan)
    requires p.children == [c] && BottomUp(rule, cat, c).Some?
    ensures BottomUp(rule, cat, p) == Rewrite(rule, cat, p.(children := [BottomUp(rule, cat, c).value]))
  {
    PassList(rule, cat, c);
  }

  lemma PassTwo(rule: Rule, cat: Catalog, p: Plan, c: Plan, d: Plan)
    requires p.children == [c, d] && BottomUp(rule, cat, c).Some? && BottomUp(rule, cat, d).Some?
    ensures BottomUp(rule, cat, p) ==
            Rewrite(rule, cat, p.(children := [BottomUp(rule, cat, c).value, BottomUp(rule, cat, d).value]))
  {
    PassList(rule, cat, d);
    var q, s := BottomUp(rule, cat, c).value, BottomUp(rule, cat, d).value;
    assert p.children[1..] == [d] && [q] + [s] == [q, s];
  }

  lemma FilterStep(rule: Rule)
    ensures BottomUp(rule, CATALOG, FILTER) == Some(if rule == MergeFilterScan then FILTERED_SCAN else FILTER)
    ensures BottomUp(rule, CATALOG, SCAN) == Some(SCAN)
    ensures BottomUp(rule, CATALOG, FILTERED_SCAN) == Some(FILTERED_SCAN)
    ensures BottomUp(rule, CATALOG, TWO) == Some(TWO)
  {
    PassOne(rule, CATALOG, FILTER, SCAN);
  }

  lemma IndexFound(col: seq<nat>)
    requires col == [0]
    ensures FirstIndexOn(TableIndexes(CATALOG, "t"), col) == Some(IndexInfo(0, "i", [0], true))
  {
  }

  lemma SortStep(rule: Rule)
    ensures RunRule(rule, CATALOG, SORT0) == Some(if rule == MergeFilterScan then SORT1 else SORT0)
    ensures RunRule(rule, CATALOG, SORT1) == Some(if rule == OrderByAsIndexScan then SORT2 else SORT1)
    ensures RunRule(rule, CATALOG, SORT2) == Some(SORT2)
  {
    FilterStep(rule);
    PassOne(rule, CATALOG, SORT0, FILTER);
    PassOne(rule, CATALOG, SORT1, FILTERED_SCAN);
    assert BY_COL.orderBys[1..] == [] && SortColumns([]) == Some([]) && [0] + [] == [0];
    assert SortColumns(BY_COL.orderBys) == Some([0]);
    IndexFound([0]);
  }

  lemma JoinStep(rule: Rule)
    ensures RunRule(rule, CATALOG, JOIN0) == Some(if rule == MergeFilterScan then JOIN1 else JOIN0)
    ensures RunRule(rule, CATALOG, JOIN1) == Some(if rule == NLJAsIndexJoin then JOIN2 else JOIN1)
    ensures RunRule(rule, CATALOG, JOIN2) == Some(JOIN2)
  {
    FilterStep(rule);
    PassTwo(rule, CATALOG, JOIN0, TWO, FILTER);
    PassTwo(rule, CATALOG, JOIN1, TWO, FILTERED_SCAN);
    PassOne(rule, CATALOG, JOIN2, TWO);
    IndexFound([0]);
  }

  /** Three plans through which every rule sequence moves one way: `create` leads from the first to the second,
      `drop` from the second to the third. */
  ghost predicate Moves(create: Rule, drop: Rule, a: Plan, b: Plan, c: Plan) {
    forall rule: Rule ::
      && RunRule(rule, CATALOG, a) == Some(if rule == create then b else a)
      && RunRule(rule, CATALOG, b) == Some(if rule == drop then c else b)
      && RunRule(rule, CATALOG, c) == Some(c)
  }

  lemma {:induction false} RunStays(rules: seq<Rule>, create: Rule, drop: Rule, a: Plan, b: Plan, c: Plan)
    requires Moves(create, drop, a, b, c)
    ensures RunRules(rules, CATALOG, c) == Some(c)
    ensures drop in rules ==> RunRules(rules, CATALOG, b) == Some(c)
  {
    if rules != [] {
      RunStays(rules[1..], create, drop, a, b, c);
    }
  }

  lemma {:induction false} RunReaches(rules: seq<Rule>, i: nat, j: nat, create: Rule, drop: Rule, a: Plan, b: Plan,
                                      c: Plan)
    requires Moves(create, drop, a, b, c)
    requires i < j < |rules| && rules[i] == create && rules[j] == drop
    ensures RunRules(rules, CATALOG, a) == Some(c)
  {
    if rules[0] == create {
      assert rules[1..][j - 1] == drop;
      RunStays(rules[1..], create, drop, a, b, c);
    } else {
      RunReaches(rules[1..], i - 1, j - 1, create, drop, a, b, c);
    }
  }

  // ----- The witnesses are well-formed, and their last form has a result their first form does not have -----

  lemma DataAgrees()
    ensures Agrees(CATALOG, DATA)
  {
    var rows := DATA.tables[0];
    var x := IndexInfo(0, "i", [0], true);
    assert TableIndexes(CATALOG, "t") == [x];
    assert Positions(2) == [0, 1];
    assert PickRows(rows, [0, 1]) == rows;
    var os := KeyOrders([0]);
    assert os[1..] == [];
    assert Eval(os[0].expr, rows[0]) == IntV(1) && Eval(os[0].expr, rows[1]) == IntV(2);
    assert RowLeq(os, rows[0], rows[1]);
    assert IndexAgrees(x, rows, DATA.indexes[0]);
    assert TableAgrees(CATALOG, DATA, 0);
  }

  lemma FilterOk()
    ensures PlanOk(CATALOG, FILTER) && NoScanFilters(FILTER)
    ensures Types(INT_COLUMN) == [INTEGER]
  {
    assert Types(INT_COLUMN) == [INTEGER];
    assert KidTypes([]) == [] && KidTypes([SCAN]) == [[INTEGER]];
    assert AllColumnsBelow([Constant(IntV(1))], 1);
    assert ColumnsBelow(IS_ONE, 1);
    assert PlanOk(CATALOG, SCAN);
  }

  lemma SortOk()
    ensures PlanOk(CATALOG, SORT0) && NoScanFilters(SORT0)
  {
    FilterOk();
    assert KidTypes([FILTER]) == [[INTEGER]];
    assert Spine(FILTER).None?;
  }

  lemma JoinOk()
    ensures PlanOk(CATALOG, JOIN0) && NoScanFilters(JOIN0)
  {
    FilterOk();
    assert KidTypes([TWO, FILTER]) == [[INTEGER], [INTEGER]];
    assert Types(INT_COLUMN + INT_COLUMN) == [INTEGER] + [INTEGER];
    assert PlanOk(CATALOG, TWO);
  }

  const ONE_ROW: seq<Row> := [[IntV(1)]]
  const TWO_ROW: seq<Row> := [[IntV(2)]]

  lemma IsOneKeepsOne()
    ensures FilterRows(IS_ONE, DATA.tables[0]) == ONE_ROW
  {
    var table := DATA.tables[0];
    assert EvalAll(IS_ONE.children, [IntV(1)]) == [IntV(1), IntV(1)];
    assert EvalAll(IS_ONE.children, [IntV(2)]) == [IntV(2), IntV(1)];
    assert Eval(IS_ONE, [IntV(1)]) == BoolV(true) && Eval(IS_ONE, [IntV(2)]) == BoolV(false);
    assert table[1..] == TWO_ROW && TWO_ROW[1..] == [];
    assert FilterRows(IS_ONE, TWO_ROW) == [];
  }

  lemma FilterKeepsOne(rows: seq<Row>)
    ensures Produces(FILTER, DATA, rows) <==> rows == ONE_ROW
  {
    IsOneKeepsOne();
    var table := DATA.tables[0];
    ProducesOne(FILTER.kind, FILTER.schema, SCAN, DATA, rows);
    forall xs: seq<Row> ensures Produces(SCAN, DATA, xs) <==> xs == table {
      ProducesLeaf(SCAN.kind, SCAN.schema, DATA, xs);
    }
    assert Denotes(FILTER.kind, FILTER.schema, [Types(SCAN.schema)], DATA, [table], rows) <==> rows == ONE_ROW;
  }

  lemma SortLosesFilter()
    ensures !Refines(SORT2, SORT0, DATA)
  {
    var all := DATA.tables[0];
    assert PickRows(all, [0, 1]) == all;
    ProducesLeaf(SORT2.kind, SORT2.schema, DATA, all);
    assert Produces(SORT2, DATA, all);
    forall xs { FilterKeepsOne(xs); }
    ProducesOne(SORT0.kind, SORT0.schema, FILTER, DATA, all);
    assert |multiset(all)| == 2 && |multiset(ONE_ROW)| == 1;
    assert !Produces(SORT0, DATA, all);
  }

  lemma TwoProduces(xs: seq<Row>)
    ensures Produces(TWO, DATA, xs) <==> xs == TWO_ROW
  {
    ProducesLeaf(TWO.kind, TWO.schema, DATA, xs);
    assert EvalAll([Constant(IntV(2))], []) == [IntV(2)];
    assert xs == TWO_ROW <==> |xs| == 1 && xs[0] == [IntV(2)];
  }

  lemma IndexJoinRowsOfTwo(pad: Row)
    ensures IndexJoinRows(COL, INNER, TWO_ROW, DATA.tables[0], 0, [0, 1], pad) == [[IntV(2), IntV(2)]]
  {
    var table := DATA.tables[0];
    assert [0, 1][1..] == [1] && [1][1..] == [];
    assert ProbeEntries(table, 0, IntV(2), [1]) == [1];
    assert ProbeEntries(table, 0, IntV(2), [0, 1]) == [1];
    assert PickRows(table, [1]) == TWO_ROW && [IntV(2)] + [IntV(2)] == [IntV(2), IntV(2)];
    assert Prefixed(TWO_ROW[0], TWO_ROW) == [[IntV(2), IntV(2)]];
    assert TWO_ROW[1..] == [] && Eval(COL, TWO_ROW[0]) == IntV(2);
  }

  lemma IndexJoinFindsTwo(out: seq<Row>)
    requires out == [[IntV(2), IntV(2)]]
    ensures Produces(JOIN2, DATA, out)
  {
    IndexJoinRowsOfTwo(NullRow(Types(INT_COLUMN)));
    TwoProduces(TWO_ROW);
    ProducesOne(JOIN2.kind, JOIN2.schema, TWO, DATA, out);
    assert Denotes(JOIN2.kind, JOIN2.schema, [Types(TWO.schema)], DATA, [TWO_ROW], out);
  }

  lemma LoopJoinRowsOfTwo(pad: Row)
    ensures JoinRows(EQUI.joinPredicate, INNER, TWO_ROW, ONE_ROW, pad) == []
  {
    var e := EQUI.joinPredicate;
    assert EvalJoinAll(e.children[1..], TWO_ROW[0], ONE_ROW[0]) == [IntV(1)];
    assert EvalJoinAll(e.children, TWO_ROW[0], ONE_ROW[0]) == [IntV(2), IntV(1)];
    assert ONE_ROW[1..] == [] && TWO_ROW[1..] == [];
    assert MatchRows(e, TWO_ROW[0], ONE_ROW) == [];
  }

  lemma LoopJoinDenotesNothing(rows: seq<Row>)
    requires Denotes(JOIN0.kind, JOIN0.schema, [Types(TWO.schema), Types(FILTER.schema)], DATA,
                     [TWO_ROW, ONE_ROW], rows)
    ensures rows == []
  {
    LoopJoinRowsOfTwo(NullRow(Types(FILTER.schema)));
  }

  lemma LoopJoinFindsNothing(rows: seq<Row>)
    requires Produces(JOIN0, DATA, rows)
    ensures rows == []
  {
    ProducesTwo(JOIN0.kind, JOIN0.schema, TWO, FILTER, DATA, rows);
    var xs: seq<Row>, ys: seq<Row> :|
      Produces(TWO, DATA, xs) && Produces(FILTER, DATA, ys)
      && Denotes(JOIN0.kind, JOIN0.schema, [Types(TWO.schema), Types(FILTER.schema)], DATA, [xs, ys], rows);
    TwoProduces(xs);
    FilterKeepsOne(ys);
    LoopJoinDenotesNothing(rows);
  }

  lemma JoinLosesFilter()
    ensures !Refines(JOIN2, JOIN0, DATA)
  {
    var out: seq<Row> := [[IntV(2), IntV(2)]];
    IndexJoinFindsTwo(out);
    forall rows | Produces(JOIN0, DATA, rows) ensures rows == [] {
      LoopJoinFindsNothing(rows);
    }
    assert !Produces(JOIN0, DATA, out);
  }

  /** A rule sequence keeps the meaning of every well-formed plan if and only if its order is safe. */
  lemma KeepsMeaningIffOrderSafe(rules: seq<Rule>)
    ensures KeepsMeaning(rules) <==> OrderSafe(rules)
  {
    if OrderSafe(rules) {
      forall cat: Catalog, db: Database, p: Plan | PlanOk(cat, p) && Agrees(cat, db) && NoScanFilters(p)
        ensures KeepsMeaningOf(rules, cat, db, p)
      {
        PipelineSound(rules, cat, db, p);
      }
    } else {
      var i, j :| 0 <= i < j < |rules| && rules[i] == MergeFilterScan && DropsScanFilter(rules[j]);
      DataAgrees();
      if rules[j] == OrderByAsIndexScan {
        forall rule: Rule { SortStep(rule); }
        RunReaches(rules, i, j, MergeFilterScan, OrderByAsIndexScan, SORT0, SORT1, SORT2);
        SortOk();
        SortLosesFilter();
        assert !KeepsMeaningOf(rules, CATALOG, DATA, SORT0);
      } else {
        forall rule: Rule { JoinStep(rule); }
        RunReaches(rules, i, j, MergeFilterScan, NLJAsIndexJoin, JOIN0, JOIN1, JOIN2);
        JoinOk();
        JoinLosesFilter();
        assert !KeepsMeaningOf(rules, CATALOG, DATA, JOIN0);
      }
    }
  }
}
