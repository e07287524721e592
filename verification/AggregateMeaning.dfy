/** The plan of a select with aggregates means what the statement means: group the rows, keep the groups that
    satisfy HAVING, evaluate the select list on each. */
module AggregateMeaning {
  import opened Wrappers
  import opened Values
  import opened Expressions
  import opened Plans
  import opened Naming
  import opened BoundExpressions
  import opened AggregatePlanning

  // ----- Names -----

  lemma {:induction false} DecimalHasNoDot(n: nat)
    ensures '.' !in Decimal(n)
  {
    if n >= 10 {
      DecimalHasNoDot(n / 10);
    }
  }

  lemma AggNameHasNoDot(n: nat)
    ensures '.' !in "agg#" + Decimal(n)
  {
    DecimalHasNoDot(n);
  }

  lemma QualifiedHasDot(path: seq<string>)
    requires |path| >= 2
    ensures '.' in JoinPath(path)
  {
    assert JoinPath(path)[|path[0]|] == '.';
  }

  // ----- One row -----

  /** Below the aggregation, planning without prepared calls gives the expression's value on every row. */
  lemma {:induction false} PlannedOnRow(e: BoundExpr, s: Schema)
    requires PlanExpr(e, [s], [], 0).Ok?
    ensures PlanExpr(e, [s], [], 0).value.next == 0
    ensures forall row: Row :: Eval(PlanExpr(e, [s], [], 0).value.expr, row) == BoundValue(e, s, row)
    decreases e, 1
  {
    match e
    case BinaryOp(op, l, r) =>
      PlannedOnRow(l, s);
      PlannedOnRow(r, s);
      var x := PlanExpr(e, [s], [], 0).value.expr;
      forall row: Row ensures Eval(x, row) == BoundValue(e, s, row) {
        assert EvalAll(x.children, row) == [BoundValue(l, s, row), BoundValue(r, s, row)];
      }
    case FuncCall(_, args) =>
      PlannedListOnRow(args, s);
    case Alias(_, child) =>
      PlannedOnRow(child, s);
    case _ =>
  }

  lemma {:induction false} PlannedListOnRow(es: seq<BoundExpr>, s: Schema)
    requires PlanList(es, [s], [], 0).Ok?
    ensures PlanList(es, [s], [], 0).value.next == 0
    ensures forall row: Row :: EvalAll(PlanList(es, [s], [], 0).value.exprs, row) == BoundValues(es, s, row)
    decreases es, 0
  {
    if es != [] {
      PlannedOnRow(es[0], s);
      PlannedListOnRow(es[1..], s);
      var xs := PlanList(es, [s], [], 0).value.exprs;
      assert xs[1..] == PlanList(es[1..], [s], [], 0).value.exprs;
    }
  }

  /** The aggregation node computes, for each collected call, the value of the call on the group. */
  lemma PlannedCall(db: Database, call: BoundExpr, s: Schema, group: seq<Row>)
    requires call.AggCall? && PlanCall(call, [s]).Ok?
    ensures var (t, x) := PlanCall(call, [s]).value;
            db.aggregate(t, ColumnValues(x, group)) == CallValue(db, call, s, group)
  {
    PlannedListOnRow(call.args, s);
    var (t, x) := PlanCall(call, [s]).value;
    if call.args == [] {
      assert ColumnValues(x, group) == seq(|group|, i => IntV(1));
    } else {
      var ps := PlanList(call.args, [s], [], 0).value;
      forall i | 0 <= i < |group| ensures Eval(x, group[i]) == BoundValue(call.args[0], s, group[i]) {
        assert EvalAll(ps.exprs, group[i])[0] == BoundValues(call.args, s, group[i])[0];
      }
      assert ColumnValues(x, group) ==
             seq(|group|, i requires 0 <= i < |group| => BoundValue(call.args[0], s, group[i]));
    }
  }

  lemma {:induction false} PlannedCallValues(db: Database, calls: seq<BoundExpr>, s: Schema, group: seq<Row>)
    requires forall c :: c in calls ==> c.AggCall?
    requires PlanCalls(calls, [s]).Ok?
    ensures var c := PlanCalls(calls, [s]).value;
            forall i :: 0 <= i < |calls| ==>
              AggregateValues(db, c.types, c.inputs, group)[i] == CallValue(db, calls[i], s, group)
  {
    if calls != [] {
      PlannedCall(db, calls[0], s, group);
      PlannedCallValues(db, calls[1..], s, group);
      var c, d := PlanCalls(calls, [s]).value, PlanCalls(calls[1..], [s]).value;
      forall i | 0 < i < |calls|
        ensures AggregateValues(db, c.types, c.inputs, group)[i] == CallValue(db, calls[i], s, group)
      {
        assert calls[i] == calls[1..][i - 1] && c.types[i] == d.types[i - 1] && c.inputs[i] == d.inputs[i - 1];
        assert AggregateValues(db, d.types, d.inputs, group)[i - 1] == CallValue(db, calls[1..][i - 1], s, group);
      }
    }
  }

  // ----- One group -----

  /** A group-by list as the binder makes it: expressions, not select targets. */
  predicate PlainGroupBy(groupBy: seq<BoundExpr>) {
    forall i :: 0 <= i < |groupBy| ==> !groupBy[i].Alias?
  }

  /** `out` is the aggregation's row for the group: the group-by values, then the value of every call. */
  ghost predicate IsGroupRow(db: Database, s: Schema, groupBy: seq<BoundExpr>, calls: seq<BoundExpr>, group: seq<Row>,
                             out: Row)
  {
    && (forall c :: c in calls ==> c.AggCall?)
    && |out| == |groupBy| + |calls|
    && (groupBy != [] ==> group != [])
    && (forall i :: 0 <= i < |groupBy| ==> out[i] == BoundValue(groupBy[i], s, group[0]))
    && (forall i :: 0 <= i < |calls| ==> out[|groupBy| + i] == CallValue(db, calls[i], s, group))
  }

  /** A column goes by its joined path and an alias by itself; anything else has no name. */
  function NamesOf(items: seq<BoundExpr>): (names: seq<string>)
    ensures |names| == |items|
  {
    seq(|items|, i requires 0 <= i < |items| =>
          match items[i]
          case ColumnRef(path) => JoinPath(path)
          case Alias(alias, _) => alias
          case _ => UNNAMED)
  }

  lemma {:induction false} ListNames(items: seq<BoundExpr>, kids: seq<Schema>, aggs: seq<Expr>, k: nat)
    requires PlanList(items, kids, aggs, k).Ok?
    ensures PlanList(items, kids, aggs, k).value.names == NamesOf(items)
  {
    if items != [] {
      ListNames(items[1..], kids, aggs, PlanExpr(items[0], kids, aggs, k).value.next);
      assert NamesOf(items)[1..] == NamesOf(items[1..]);
    }
  }

  lemma UnnamedHasNoDot()
    ensures '.' !in UNNAMED
  {
  }

  /** Only group-by columns have a dot in their name. */
  ghost predicate DottedAreGroupColumns(groupBy: seq<BoundExpr>, out: Schema) {
    forall i :: 0 <= i < |out| && '.' in out[i].name ==>
      i < |groupBy| && groupBy[i].ColumnRef? && out[i].name == JoinPath(groupBy[i].path)
  }

  lemma AggSchemaDots(s: Schema, groupBy: seq<BoundExpr>, n: nat)
    requires PlanList(groupBy, [s], [], 0).Ok? && PlainGroupBy(groupBy)
    ensures var g := PlanList(groupBy, [s], [], 0).value;
            DottedAreGroupColumns(groupBy, AggSchema(g.names, g.exprs, n))
  {
    var g := PlanList(groupBy, [s], [], 0).value;
    var out := AggSchema(g.names, g.exprs, n);
    forall i | 0 <= i < |out| && '.' in out[i].name
      ensures i < |groupBy| && groupBy[i].ColumnRef? && out[i].name == JoinPath(groupBy[i].path)
    {
      if i >= |groupBy| {
        AggNameHasNoDot(i - |groupBy|);
      } else {
        ListNames(groupBy, [s], [], 0);
        UnnamedHasNoDot();
      }
    }
  }

  /** A qualified column planned over the aggregation's output is a group-by column of that name. */
  lemma ColumnOnGroup(db: Database, s: Schema, groupBy: seq<BoundExpr>, calls: seq<BoundExpr>, out: Schema,
                      path: seq<string>, group: seq<Row>, row: Row)
    requires DottedAreGroupColumns(groupBy, out) && |path| >= 2 && PlanColumn(path, [out]).Ok?
    requires IsGroupRow(db, s, groupBy, calls, group, row)
    ensures Eval(PlanColumn(path, [out]).value, row) == GroupValue(db, ColumnRef(path), s, group)
  {
    QualifiedHasDot(path);
    var i := PlanColumn(path, [out]).value.colIdx;
    assert out[i].name == JoinPath(path);
  }

  lemma BinaryOnValues(op: string, x: Expr, y: Expr, row: Row)
    requires BinaryExpression(op, x, y).Ok?
    ensures Eval(BinaryExpression(op, x, y).value, row) == ApplyBinary(op, Eval(x, row), Eval(y, row))
  {
    var b := BinaryExpression(op, x, y).value;
    assert EvalAll(b.children, row) == [Eval(x, row), Eval(y, row)];
  }

  /** The expression with call number k, counted from `k` on, replaced by the k-th prepared expression. */
  ghost function Substitute(e: BoundExpr, out: Schema, aggs: seq<Expr>, k: nat): Option<Expr>
    decreases e, 1
  {
    match e
    case AggCall(_, _, _) => if k < |aggs| then Some(aggs[k]) else None
    case ColumnRef(path) => if PlanColumn(path, [out]).Ok? then Some(PlanColumn(path, [out]).value) else None
    case BoundConstant(v) => Some(Constant(v))
    case BinaryOp(op, l, r) =>
      var x, y := Substitute(l, out, aggs, k), Substitute(r, out, aggs, k + |Calls(l)|);
      if x.Some? && y.Some? && BinaryExpression(op, x.value, y.value).Ok?
      then Some(BinaryExpression(op, x.value, y.value).value) else None
    case FuncCall(func, args) =>
      var xs := SubstituteAll(args, out, aggs, k);
      if func == "construct_array" && xs.Some? then Some(Op(ArrayOf, xs.value)) else None
    case Alias(_, child) => Substitute(child, out, aggs, k)
    case Refused => None
  }

  ghost function SubstituteAll(es: seq<BoundExpr>, out: Schema, aggs: seq<Expr>, k: nat): (r: Option<seq<Expr>>)
    ensures r.Some? ==> |r.value| == |es|
    decreases es, 0
  {
    if es == [] then Some([])
    else
      var x, xs := Substitute(es[0], out, aggs, k), SubstituteAll(es[1..], out, aggs, k + |Calls(es[0])|);
      if x.Some? && xs.Some? then Some([x.value] + xs.value) else None
  }

  /** The consuming walk over the placeholders takes exactly the calls the collecting walk found, in that order. */
  lemma {:induction false} WalksAgree(e: BoundExpr, m: nat, out: Schema, aggs: seq<Expr>, k: nat)
    requires PlanExpr(Pseudo(e, m), [out], aggs, k).Ok?
    ensures var p := PlanExpr(Pseudo(e, m), [out], aggs, k).value;
            p.next == k + |Calls(e)| && Substitute(e, out, aggs, k) == Some(p.expr)
    decreases e, 1
  {
    match e
    case BinaryOp(_, _, _) => WalksAgreeBinary(e, m, out, aggs, k);
    case FuncCall(_, args) => WalksAgreeAll(args, m, out, aggs, k);
    case Alias(_, child) => WalksAgree(child, m, out, aggs, k);
    case _ =>
  }

  lemma {:induction false} WalksAgreeBinary(e: BoundExpr, m: nat, out: Schema, aggs: seq<Expr>, k: nat)
    requires e.BinaryOp? && PlanExpr(Pseudo(e, m), [out], aggs, k).Ok?
    ensures var p := PlanExpr(Pseudo(e, m), [out], aggs, k).value;
            p.next == k + |Calls(e)| && Substitute(e, out, aggs, k) == Some(p.expr)
    decreases e, 0
  {
    var n := |Calls(e.larg)|;
    assert Pseudo(e, m) == BinaryOp(e.op, Pseudo(e.larg, m), Pseudo(e.rarg, m + n));
    WalksAgree(e.larg, m, out, aggs, k);
    WalksAgree(e.rarg, m + n, out, aggs, k + n);
  }

  lemma {:induction false} WalksAgreeAll(es: seq<BoundExpr>, m: nat, out: Schema, aggs: seq<Expr>, k: nat)
    requires PlanList(PseudoAll(es, m), [out], aggs, k).Ok?
    ensures var p := PlanList(PseudoAll(es, m), [out], aggs, k).value;
            p.next == k + |CallsAll(es)| && SubstituteAll(es, out, aggs, k) == Some(p.exprs)
    decreases es, 0
  {
    if es != [] {
      var ps := PseudoAll(es, m);
      assert ps[0] == Pseudo(es[0], m) && ps[1..] == PseudoAll(es[1..], m + |Calls(es[0])|);
      WalksAgree(es[0], m, out, aggs, k);
      WalksAgreeAll(es[1..], m + |Calls(es[0])|, out, aggs, k + |Calls(es[0])|);
    }
  }

  lemma SplitCalls(calls: seq<BoundExpr>, k: nat, a: seq<BoundExpr>, b: seq<BoundExpr>)
    requires k + |a + b| <= |calls| && calls[k..k + |a + b|] == a + b
    ensures calls[k..k + |a|] == a && calls[k + |a|..k + |a| + |b|] == b
  {
    var part := calls[k..k + |a + b|];
    assert calls[k..k + |a|] == part[..|a|];
    assert calls[k + |a|..k + |a| + |b|] == part[|a|..];
  }

  lemma CallOnGroup(db: Database, s: Schema, groupBy: seq<BoundExpr>, calls: seq<BoundExpr>, out: Schema,
                    group: seq<Row>, row: Row, call: BoundExpr, k: nat)
    requires IsGroupRow(db, s, groupBy, calls, group, row) && call.AggCall? && k < |calls| && calls[k..k + 1] == [call]
    ensures var e := Substitute(call, out, AggColumns(|groupBy|, |calls|), k);
            e.Some? && Eval(e.value, row) == GroupValue(db, call, s, group)
  {
    assert calls[k] == calls[k..k + 1][0];
    assert row[|groupBy| + k] == CallValue(db, calls[k], s, group);
  }

  /** With the calls of `e` at place `k` of all calls, the substituted expression has on the row of a group the value
      of `e` on the group. */
  lemma {:induction false} SubstitutedOnGroup(db: Database, s: Schema, groupBy: seq<BoundExpr>, calls: seq<BoundExpr>,
                                              out: Schema, group: seq<Row>, row: Row, e: BoundExpr, k: nat)
    requires DottedAreGroupColumns(groupBy, out) && IsGroupRow(db, s, groupBy, calls, group, row)
    requires Qualified(e) && k + |Calls(e)| <= |calls| && calls[k..k + |Calls(e)|] == Calls(e)
    requires Substitute(e, out, AggColumns(|groupBy|, |calls|), k).Some?
    ensures Eval(Substitute(e, out, AggColumns(|groupBy|, |calls|), k).value, row) == GroupValue(db, e, s, group)
    decreases e, 1
  {
    match e
    case ColumnRef(path) =>
      ColumnOnGroup(db, s, groupBy, calls, out, path, group, row);
    case AggCall(_, _, _) =>
      CallOnGroup(db, s, groupBy, calls, out, group, row, e, k);
    case BinaryOp(_, _, _) =>
      BinaryOnGroup(db, s, groupBy, calls, out, group, row, e, k);
    case FuncCall(_, args) =>
      SubstitutedAllOnGroup(db, s, groupBy, calls, out, group, row, args, k);
    case Alias(_, child) =>
      SubstitutedOnGroup(db, s, groupBy, calls, out, group, row, child, k);
    case _ =>
  }

  lemma {:induction false} BinaryOnGroup(db: Database, s: Schema, groupBy: seq<BoundExpr>, calls: seq<BoundExpr>,
                                         out: Schema, group: seq<Row>, row: Row, e: BoundExpr, k: nat)
    requires DottedAreGroupColumns(groupBy, out) && IsGroupRow(db, s, groupBy, calls, group, row)
    requires e.BinaryOp? && Qualified(e) && k + |Calls(e)| <= |calls| && calls[k..k + |Calls(e)|] == Calls(e)
    requires Substitute(e, out, AggColumns(|groupBy|, |calls|), k).Some?
    ensures Eval(Substitute(e, out, AggColumns(|groupBy|, |calls|), k).value, row) == GroupValue(db, e, s, group)
    decreases e, 0
  {
    var n, aggs := |Calls(e.larg)|, AggColumns(|groupBy|, |calls|);
    SplitCalls(calls, k, Calls(e.larg), Calls(e.rarg));
    SubstitutedOnGroup(db, s, groupBy, calls, out, group, row, e.larg, k);
    SubstitutedOnGroup(db, s, groupBy, calls, out, group, row, e.rarg, k + n);
    BinaryOnValues(e.op, Substitute(e.larg, out, aggs, k).value, Substitute(e.rarg, out, aggs, k + n).value, row);
  }

  lemma {:induction false} SubstitutedAllOnGroup(db: Database, s: Schema, groupBy: seq<BoundExpr>,
                                                 calls: seq<BoundExpr>, out: Schema, group: seq<Row>, row: Row,
                                                 es: seq<BoundExpr>, k: nat)
    requires DottedAreGroupColumns(groupBy, out) && IsGroupRow(db, s, groupBy, calls, group, row)
    requires QualifiedAll(es) && k + |CallsAll(es)| <= |calls| && calls[k..k + |CallsAll(es)|] == CallsAll(es)
    requires SubstituteAll(es, out, AggColumns(|groupBy|, |calls|), k).Some?
    ensures EvalAll(SubstituteAll(es, out, AggColumns(|groupBy|, |calls|), k).value, row) ==
            GroupValues(db, es, s, group)
    decreases es, 0
  {
    if es != [] {
      var n, aggs := |Calls(es[0])|, AggColumns(|groupBy|, |calls|);
      SplitCalls(calls, k, Calls(es[0]), CallsAll(es[1..]));
      SubstitutedOnGroup(db, s, groupBy, calls, out, group, row, es[0], k);
      SubstitutedAllOnGroup(db, s, groupBy, calls, out, group, row, es[1..], k + n);
      var xs := SubstituteAll(es, out, aggs, k).value;
      assert xs[1..] == SubstituteAll(es[1..], out, aggs, k + n).value;
    }
  }
}
