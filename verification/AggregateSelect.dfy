/** The whole select with aggregates: the plan's results are the statement's answers. */
module AggregateSelect {
  import opened Wrappers
  import opened Values
  import opened Expressions
  import opened Plans
  import opened BoundExpressions
  import opened AggregatePlanning
  import opened AggregateMeaning

  // ----- What the statement asks for -----

  ghost function StatementKeys(groupBy: seq<BoundExpr>, s: Schema, xs: seq<Row>): set<Row> {
    if groupBy == [] then {[]} else set r | r in xs :: BoundValues(groupBy, s, r)
  }

  function GroupOf(groupBy: seq<BoundExpr>, s: Schema, key: Row, xs: seq<Row>): seq<Row> {
    if xs == [] then []
    else (if BoundValues(groupBy, s, xs[0]) == key then [xs[0]] else []) + GroupOf(groupBy, s, key, xs[1..])
  }

  predicate Keeps(db: Database, having: Option<BoundExpr>, s: Schema, group: seq<Row>) {
    having.Some? ==> GroupValue(db, having.value, s, group) == BoolV(true)
  }

  /** One output row per group that HAVING keeps, in the order of the keys. */
  function Answer(db: Database, groupBy: seq<BoundExpr>, having: Option<BoundExpr>, select: seq<BoundExpr>, s: Schema,
                  xs: seq<Row>, keys: seq<Row>): seq<Row>
  {
    if keys == [] then []
    else
      var group := GroupOf(groupBy, s, keys[0], xs);
      (if Keeps(db, having, s, group) then [GroupValues(db, select, s, group)] else [])
      + Answer(db, groupBy, having, select, s, xs, keys[1..])
  }

  ghost predicate IsAnswer(db: Database, groupBy: seq<BoundExpr>, having: Option<BoundExpr>, select: seq<BoundExpr>,
                           s: Schema, xs: seq<Row>, rows: seq<Row>)
  {
    exists keys: seq<Row> :: ListsKeys(keys, StatementKeys(groupBy, s, xs))
                             && rows == Answer(db, groupBy, having, select, s, xs, keys)
  }

  // ----- Groups -----

  lemma {:induction false} SameGroups(groupBy: seq<BoundExpr>, exprs: seq<Expr>, s: Schema, key: Row, xs: seq<Row>)
    requires forall row: Row :: EvalAll(exprs, row) == BoundValues(groupBy, s, row)
    ensures GroupRows(exprs, key, xs) == GroupOf(groupBy, s, key, xs)
  {
    if xs != [] {
      SameGroups(groupBy, exprs, s, key, xs[1..]);
    }
  }

  lemma SameKeys(groupBy: seq<BoundExpr>, exprs: seq<Expr>, s: Schema, xs: seq<Row>)
    requires |exprs| == |groupBy|
    requires forall row: Row :: EvalAll(exprs, row) == BoundValues(groupBy, s, row)
    ensures GroupKeys(exprs, xs) == StatementKeys(groupBy, s, xs)
  {
    if exprs != [] {
      assert forall k :: k in GroupKeys(exprs, xs) <==> k in StatementKeys(groupBy, s, xs);
    }
  }

  lemma {:induction false} GroupHasKey(groupBy: seq<BoundExpr>, s: Schema, key: Row, xs: seq<Row>, i: nat)
    requires i < |xs| && BoundValues(groupBy, s, xs[i]) == key
    ensures GroupOf(groupBy, s, key, xs) != []
    ensures BoundValues(groupBy, s, GroupOf(groupBy, s, key, xs)[0]) == key
  {
    if BoundValues(groupBy, s, xs[0]) != key {
      GroupHasKey(groupBy, s, key, xs[1..], i - 1);
    }
  }

  /** The aggregation's row of a key is the group row of the statement. */
  lemma AggregateRowIsGroupRow(db: Database, s: Schema, groupBy: seq<BoundExpr>, calls: seq<BoundExpr>, xs: seq<Row>,
                               key: Row)
    requires forall c :: c in calls ==> c.AggCall?
    requires PlanCalls(calls, [s]).Ok? && key in StatementKeys(groupBy, s, xs)
    ensures var c := PlanCalls(calls, [s]).value;
            var group := GroupOf(groupBy, s, key, xs);
            IsGroupRow(db, s, groupBy, calls, group, key + AggregateValues(db, c.types, c.inputs, group))
  {
    var group := GroupOf(groupBy, s, key, xs);
    PlannedCallValues(db, calls, s, group);
    if groupBy != [] {
      var i :| 0 <= i < |xs| && BoundValues(groupBy, s, xs[i]) == key;
      GroupHasKey(groupBy, s, key, xs, i);
    }
  }

  // ----- From the aggregation's rows to the answer -----

  /** The planned HAVING and select list, if they mean on group rows what the statement says, turn the aggregation's
      rows into the answer. */
  ghost predicate TargetsMean(db: Database, s: Schema, groupBy: seq<BoundExpr>, calls: seq<BoundExpr>,
                              having: Option<BoundExpr>, select: seq<BoundExpr>, filter: Option<Expr>,
                              targets: seq<Expr>)
  {
    && filter.Some? == having.Some?
    && forall group: seq<Row>, row: Row :: IsGroupRow(db, s, groupBy, calls, group, row) ==>
         && (filter.Some? ==> Eval(filter.value, row) == GroupValue(db, having.value, s, group))
         && EvalAll(targets, row) == GroupValues(db, select, s, group)
  }

  ghost predicate AllGroupRows(db: Database, s: Schema, groupBy: seq<BoundExpr>, calls: seq<BoundExpr>, xs: seq<Row>,
                               keys: seq<Row>, out: seq<Row>)
  {
    |out| == |keys| &&
    forall i :: 0 <= i < |keys| ==> IsGroupRow(db, s, groupBy, calls, GroupOf(groupBy, s, keys[i], xs), out[i])
  }

  lemma ProjectCons(targets: seq<Expr>, row: Row, rest: seq<Row>)
    ensures ProjectRows(targets, [row] + rest) == [EvalAll(targets, row)] + ProjectRows(targets, rest)
  {
  }

  lemma KeptCons(filter: Option<Expr>, out: seq<Row>)
    requires out != []
    ensures var rest := FilterOptional(filter, out[1..]);
            FilterOptional(filter, out) ==
              if filter.None? || Passes(Eval(filter.value, out[0])) then [out[0]] + rest else rest
  {
    assert out == [out[0]] + out[1..];
  }

  lemma ProjectKept(targets: seq<Expr>, filter: Option<Expr>, out: seq<Row>)
    requires out != []
    ensures var rest := ProjectRows(targets, FilterOptional(filter, out[1..]));
            ProjectRows(targets, FilterOptional(filter, out)) ==
              if filter.None? || Passes(Eval(filter.value, out[0])) then [EvalAll(targets, out[0])] + rest else rest
  {
    KeptCons(filter, out);
    ProjectCons(targets, out[0], FilterOptional(filter, out[1..]));
  }

  lemma TailGroupRows(db: Database, s: Schema, groupBy: seq<BoundExpr>, calls: seq<BoundExpr>, xs: seq<Row>,
                      keys: seq<Row>, out: seq<Row>)
    requires AllGroupRows(db, s, groupBy, calls, xs, keys, out) && keys != []
    ensures AllGroupRows(db, s, groupBy, calls, xs, keys[1..], out[1..])
  {
    forall i | 0 <= i < |keys[1..]|
      ensures IsGroupRow(db, s, groupBy, calls, GroupOf(groupBy, s, keys[1..][i], xs), out[1..][i])
    {
      assert keys[1..][i] == keys[i + 1] && out[1..][i] == out[i + 1];
    }
  }

  lemma {:induction false} TargetsAnswer(db: Database, s: Schema, groupBy: seq<BoundExpr>, calls: seq<BoundExpr>,
                                         having: Option<BoundExpr>, select: seq<BoundExpr>, filter: Option<Expr>,
                                         targets: seq<Expr>, xs: seq<Row>, keys: seq<Row>, out: seq<Row>)
    requires TargetsMean(db, s, groupBy, calls, having, select, filter, targets)
    requires AllGroupRows(db, s, groupBy, calls, xs, keys, out)
    ensures ProjectRows(targets, FilterOptional(filter, out)) == Answer(db, groupBy, having, select, s, xs, keys)
  {
    if keys != [] {
      TailGroupRows(db, s, groupBy, calls, xs, keys, out);
      TargetsAnswer(db, s, groupBy, calls, having, select, filter, targets, xs, keys[1..], out[1..]);
      var group := GroupOf(groupBy, s, keys[0], xs);
      assert IsGroupRow(db, s, groupBy, calls, group, out[0]);
      ProjectKept(targets, filter, out);
      assert EvalAll(targets, out[0]) == GroupValues(db, select, s, group);
    }
  }

  // ----- The plan -----

  /** The planned parts mean what the statement says, and the two walks use every collected call exactly once. */
  lemma PlannedTargets(db: Database, s: Schema, groupBy: seq<BoundExpr>, having: Option<BoundExpr>,
                       select: seq<BoundExpr>, agg: Plan)
    requires PlanList(groupBy, [s], [], 0).Ok? && PlainGroupBy(groupBy)
    requires QualifiedAll(select) && (having.Some? ==> Qualified(having.value))
    requires var g := PlanList(groupBy, [s], [], 0).value;
             agg.schema == AggSchema(g.names, g.exprs, |AllCalls(having, select)|)
    requires var aggs := AggColumns(|groupBy|, |AllCalls(having, select)|);
             && PlanHaving(having, agg, aggs).Ok?
             && PlanTargets(select, |OptionalCalls(having)|, PlanHaving(having, agg, aggs).value.0, aggs,
                            PlanHaving(having, agg, aggs).value.1).Ok?
    ensures var calls := AllCalls(having, select);
            var aggs := AggColumns(|groupBy|, |calls|);
            var (plan, k) := PlanHaving(having, agg, aggs).value;
            var ps := PlanList(PseudoAll(select, |OptionalCalls(having)|), [plan.schema], aggs, k).value;
            && ps.next == |calls|
            && TargetsMean(db, s, groupBy, calls, having, select,
                           if having.Some? then Some(plan.kind.predicate_) else None, ps.exprs)
  {
    var calls := AllCalls(having, select);
    var aggs := AggColumns(|groupBy|, |calls|);
    var out := agg.schema;
    var (plan, k) := PlanHaving(having, agg, aggs).value;
    AggSchemaDots(s, groupBy, |calls|);
    if having.Some? {
      WalksAgree(having.value, 0, out, aggs, 0);
    }
    assert k == |OptionalCalls(having)|;
    WalksAgreeAll(select, k, out, aggs, k);
    forall group: seq<Row>, row: Row | IsGroupRow(db, s, groupBy, calls, group, row)
      ensures having.Some? ==> Eval(plan.kind.predicate_, row) == GroupValue(db, having.value, s, group)
      ensures EvalAll(SubstituteAll(select, out, aggs, k).value, row) == GroupValues(db, select, s, group)
    {
      TargetsOnGroup(db, s, groupBy, having, select, out, group, row);
    }
  }

  lemma CallSlices(having: Option<BoundExpr>, select: seq<BoundExpr>)
    ensures var calls, k, n := AllCalls(having, select), |OptionalCalls(having)|, |CallsAll(select)|;
            && k + n == |calls|
            && (having.Some? ==> k == |Calls(having.value)| && calls[0..k] == Calls(having.value))
            && calls[k..k + n] == CallsAll(select)
  {
  }

  lemma TargetsOnGroup(db: Database, s: Schema, groupBy: seq<BoundExpr>, having: Option<BoundExpr>,
                       select: seq<BoundExpr>, out: Schema, group: seq<Row>, row: Row)
    requires DottedAreGroupColumns(groupBy, out) && IsGroupRow(db, s, groupBy, AllCalls(having, select), group, row)
    requires QualifiedAll(select) && (having.Some? ==> Qualified(having.value))
    requires var aggs := AggColumns(|groupBy|, |AllCalls(having, select)|);
             && (having.Some? ==> Substitute(having.value, out, aggs, 0).Some?)
             && SubstituteAll(select, out, aggs, |OptionalCalls(having)|).Some?
    ensures var aggs := AggColumns(|groupBy|, |AllCalls(having, select)|);
            && (having.Some? ==>
                  Eval(Substitute(having.value, out, aggs, 0).value, row) == GroupValue(db, having.value, s, group))
            && EvalAll(SubstituteAll(select, out, aggs, |OptionalCalls(having)|).value, row) ==
               GroupValues(db, select, s, group)
  {
    var calls, k := AllCalls(having, select), |OptionalCalls(having)|;
    CallSlices(having, select);
    if having.Some? {
      SubstitutedOnGroup(db, s, groupBy, calls, out, group, row, having.value, 0);
    }
    SubstitutedAllOnGroup(db, s, groupBy, calls, out, group, row, select, k);
  }

  lemma AggregationProduces(agg: Plan, child: Plan, db: Database, out: seq<Row>)
    requires agg.kind.Aggregation? && agg.children == [child] && |agg.kind.aggregates| == |agg.kind.aggTypes|
    ensures Produces(agg, db, out) <==>
              exists xs: seq<Row>, keys: seq<Row> ::
                && Produces(child, db, xs) && ListsKeys(keys, GroupKeys(agg.kind.groupBys, xs))
                && out == AggregateRows(db, agg.kind.groupBys, agg.kind.aggregates, agg.kind.aggTypes, xs, keys)
  {
    var k := agg.kind;
    assert agg == Node(k, agg.schema, [child]);
    ProducesOne(k, agg.schema, child, db, out);
    if Produces(agg, db, out) {
      var xs :| Produces(child, db, xs) && Denotes(k, agg.schema, [Types(child.schema)], db, [xs], out);
      var keys :| ListsKeys(keys, GroupKeys(k.groupBys, xs))
                  && out == AggregateRows(db, k.groupBys, k.aggregates, k.aggTypes, xs, keys);
    }
    forall xs: seq<Row>, keys: seq<Row> | Produces(child, db, xs) && ListsKeys(keys, GroupKeys(k.groupBys, xs))
        && out == AggregateRows(db, k.groupBys, k.aggregates, k.aggTypes, xs, keys)
      ensures Produces(agg, db, out)
    {
      var ins := [xs];
      assert ListsKeys(keys, GroupKeys(k.groupBys, ins[0]))
             && out == AggregateRows(db, k.groupBys, k.aggregates, k.aggTypes, ins[0], keys);
      assert Denotes(k, agg.schema, [Types(child.schema)], db, ins, out);
    }
  }

  lemma TopProduces(db: Database, agg: Plan, filter: Option<Expr>, targets: seq<Expr>, top: Schema, rows: seq<Row>)
    ensures var plan := if filter.Some? then Node(Filter(filter.value), agg.schema, [agg]) else agg;
            Produces(Node(Projection(targets), top, [plan]), db, rows) <==>
              exists out: seq<Row> ::
                Produces(agg, db, out) && rows == ProjectRows(targets, FilterOptional(filter, out))
  {
    var plan := if filter.Some? then Node(Filter(filter.value), agg.schema, [agg]) else agg;
    ProducesOne(Projection(targets), top, plan, db, rows);
    if Produces(Node(Projection(targets), top, [plan]), db, rows) {
      var mid :| Produces(plan, db, mid)
                 && Denotes(Projection(targets), top, [Types(plan.schema)], db, [mid], rows);
      if filter.Some? {
        ProducesOne(Filter(filter.value), agg.schema, agg, db, mid);
      }
    }
    forall out: seq<Row> | Produces(agg, db, out) && rows == ProjectRows(targets, FilterOptional(filter, out))
      ensures Produces(Node(Projection(targets), top, [plan]), db, rows)
    {
      var mid := FilterOptional(filter, out);
      if filter.Some? {
        ProducesOne(Filter(filter.value), agg.schema, agg, db, mid);
        assert Denotes(Filter(filter.value), agg.schema, [Types(agg.schema)], db, [out], mid);
      }
      assert Denotes(Projection(targets), top, [Types(plan.schema)], db, [mid], rows);
    }
  }

  /** Over the aggregation of `calls`, the planned targets give exactly the answers of the statement. */
  lemma AggregationAnswers(db: Database, s: Schema, groupBy: seq<BoundExpr>, calls: seq<BoundExpr>,
                           having: Option<BoundExpr>, select: seq<BoundExpr>, filter: Option<Expr>, targets: seq<Expr>,
                           xs: seq<Row>, keys: seq<Row>)
    requires PlanList(groupBy, [s], [], 0).Ok? && (forall c :: c in calls ==> c.AggCall?)
    requires PlanCalls(calls, [s]).Ok? && ListsKeys(keys, StatementKeys(groupBy, s, xs))
    requires TargetsMean(db, s, groupBy, calls, having, select, filter, targets)
    ensures var c, g := PlanCalls(calls, [s]).value, PlanList(groupBy, [s], [], 0).value;
            ProjectRows(targets, FilterOptional(filter, AggregateRows(db, g.exprs, c.inputs, c.types, xs, keys)))
            == Answer(db, groupBy, having, select, s, xs, keys)
  {
    var c, g := PlanCalls(calls, [s]).value, PlanList(groupBy, [s], [], 0).value;
    var out := AggregateRows(db, g.exprs, c.inputs, c.types, xs, keys);
    PlannedListOnRow(groupBy, s);
    forall i | 0 <= i < |keys|
      ensures IsGroupRow(db, s, groupBy, calls, GroupOf(groupBy, s, keys[i], xs), out[i])
    {
      assert keys[i] in keys;
      SameGroups(groupBy, g.exprs, s, keys[i], xs);
      AggregateRowIsGroupRow(db, s, groupBy, calls, xs, keys[i]);
    }
    TargetsAnswer(db, s, groupBy, calls, having, select, filter, targets, xs, keys, out);
  }

  /** Planning a select with aggregates is correct: whenever it succeeds, the plan produces exactly the answers of the
      statement, over the rows its input may produce. */
  lemma PlanAnswersStatement(db: Database, groupBy: seq<BoundExpr>, having: Option<BoundExpr>, select: seq<BoundExpr>,
                             child: Plan, rows: seq<Row>)
    requires PlanSelectAgg(groupBy, having, select, child).Ok?
    requires PlainGroupBy(groupBy) && QualifiedAll(select) && (having.Some? ==> Qualified(having.value))
    ensures Produces(PlanSelectAgg(groupBy, having, select, child).value, db, rows) <==>
              exists xs: seq<Row> :: Produces(child, db, xs)
                                     && IsAnswer(db, groupBy, having, select, child.schema, xs, rows)
  {
    var s, calls := child.schema, AllCalls(having, select);
    var g, c := PlanList(groupBy, [s], [], 0).value, PlanCalls(calls, [s]).value;
    var agg := Node(Aggregation(g.exprs, c.inputs, c.types), AggSchema(g.names, g.exprs, |calls|), [child]);
    var aggs := AggColumns(|groupBy|, |calls|);
    PlannedTargets(db, s, groupBy, having, select, agg);
    var (plan, k) := PlanHaving(having, agg, aggs).value;
    var ps := PlanList(PseudoAll(select, |OptionalCalls(having)|), [plan.schema], aggs, k).value;
    var filter := if having.Some? then Some(plan.kind.predicate_) else None;
    TopProduces(db, agg, filter, ps.exprs, NamedSchema(ps.names, ps.exprs), rows);
    if out :| Produces(agg, db, out) && rows == ProjectRows(ps.exprs, FilterOptional(filter, out)) {
      AggregationToAnswer(db, groupBy, having, select, child, agg, filter, ps.exprs, rows, out);
    }
    if xs :| Produces(child, db, xs) && IsAnswer(db, groupBy, having, select, s, xs, rows) {
      AnswerToAggregation(db, groupBy, having, select, child, agg, filter, ps.exprs, rows, xs);
    }
  }

  /** The aggregation computes the planned group-by items and calls over its child. */
  ghost predicate Aggregates(agg: Plan, groupBy: seq<BoundExpr>, calls: seq<BoundExpr>, child: Plan)
    requires forall c :: c in calls ==> c.AggCall?
  {
    var g, c := PlanList(groupBy, [child.schema], [], 0), PlanCalls(calls, [child.schema]);
    g.Ok? && c.Ok? && agg.kind == Aggregation(g.value.exprs, c.value.inputs, c.value.types) && agg.children == [child]
  }

  lemma AggregationToAnswer(db: Database, groupBy: seq<BoundExpr>, having: Option<BoundExpr>, select: seq<BoundExpr>,
                            child: Plan, agg: Plan, filter: Option<Expr>, targets: seq<Expr>, rows: seq<Row>,
                            out: seq<Row>)
    requires Aggregates(agg, groupBy, AllCalls(having, select), child)
    requires TargetsMean(db, child.schema, groupBy, AllCalls(having, select), having, select, filter, targets)
    requires Produces(agg, db, out) && rows == ProjectRows(targets, FilterOptional(filter, out))
    ensures exists xs: seq<Row> :: Produces(child, db, xs)
                                   && IsAnswer(db, groupBy, having, select, child.schema, xs, rows)
  {
    var s, calls, k := child.schema, AllCalls(having, select), agg.kind;
    PlannedListOnRow(groupBy, s);
    AggregationProduces(agg, child, db, out);
    var xs, keys :| Produces(child, db, xs) && ListsKeys(keys, GroupKeys(k.groupBys, xs))
                    && out == AggregateRows(db, k.groupBys, k.aggregates, k.aggTypes, xs, keys);
    SameKeys(groupBy, k.groupBys, s, xs);
    AggregationAnswers(db, s, groupBy, calls, having, select, filter, targets, xs, keys);
    assert IsAnswer(db, groupBy, having, select, s, xs, rows);
  }

  lemma AnswerToAggregation(db: Database, groupBy: seq<BoundExpr>, having: Option<BoundExpr>, select: seq<BoundExpr>,
                            child: Plan, agg: Plan, filter: Option<Expr>, targets: seq<Expr>, rows: seq<Row>,
                            xs: seq<Row>)
    requires Aggregates(agg, groupBy, AllCalls(having, select), child)
    requires TargetsMean(db, child.schema, groupBy, AllCalls(having, select), having, select, filter, targets)
    requires Produces(child, db, xs) && IsAnswer(db, groupBy, having, select, child.schema, xs, rows)
    ensures exists out: seq<Row> :: Produces(agg, db, out) && rows == ProjectRows(targets, FilterOptional(filter, out))
  {
    var s, calls, k := child.schema, AllCalls(having, select), agg.kind;
    PlannedListOnRow(groupBy, s);
    var keys :| ListsKeys(keys, StatementKeys(groupBy, s, xs))
                && rows == Answer(db, groupBy, having, select, s, xs, keys);
    SameKeys(groupBy, k.groupBys, s, xs);
    AggregationAnswers(db, s, groupBy, calls, having, select, filter, targets, xs, keys);
    var out := AggregateRows(db, k.groupBys, k.aggregates, k.aggTypes, xs, keys);
    AggregationProduces(agg, child, db, out);
    assert Produces(agg, db, out);
  }

  // ----- The names of the output columns -----

  lemma NamesCons(e: BoundExpr, es: seq<BoundExpr>)
    ensures NamesOf([e] + es) == NamesOf([e]) + NamesOf(es)
  {
  }

  lemma {:induction false} PlaceholderNames(select: seq<BoundExpr>, n: nat)
    ensures NamesOf(PseudoAll(select, n)) == NamesOf(select)
  {
    if select != [] {
      var next := n + |Calls(select[0])|;
      PlaceholderNames(select[1..], next);
      NamesCons(select[0], select[1..]);
      NamesCons(Pseudo(select[0], n), PseudoAll(select[1..], next));
      assert select == [select[0]] + select[1..];
    }
  }

  /** The output columns go by the names of the items of the statement. */
  lemma AggregateNames(groupBy: seq<BoundExpr>, having: Option<BoundExpr>, select: seq<BoundExpr>, child: Plan, i: nat)
    requires PlanSelectAgg(groupBy, having, select, child).Ok? && i < |select|
    ensures var s := PlanSelectAgg(groupBy, having, select, child).value.schema;
            |s| == |select| && s[i].name == NamesOf(select)[i]
  {
    var calls, first := AllCalls(having, select), |OptionalCalls(having)|;
    var g, c := PlanList(groupBy, [child.schema], [], 0).value, PlanCalls(calls, [child.schema]).value;
    var agg := Node(Aggregation(g.exprs, c.inputs, c.types), AggSchema(g.names, g.exprs, |calls|), [child]);
    var aggs := AggColumns(|groupBy|, |calls|);
    var h := PlanHaving(having, agg, aggs).value;
    ListNames(PseudoAll(select, first), [h.0.schema], aggs, h.1);
    PlaceholderNames(select, first);
  }
}
