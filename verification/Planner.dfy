/** The planner as an object: the context that the two phases share, and the methods that change it. */
module PlannerObject {
  import opened Wrappers
  import opened Sequences
  import opened Values
  import opened Expressions
  import opened Plans
  import opened Naming
  import opened BoundExpressions
  import opened AggregateMeaning
  import P = AggregatePlanning

  /** Items planned so far, put before the rest of a list. */
  ghost function Prepend(names: seq<string>, exprs: seq<Expr>, rest: Result<P.PlannedList, PlanError>)
    : Result<P.PlannedList, PlanError>
  {
    match rest
    case Err(x) => Err(x)
    case Ok(r) => Ok(P.PlannedList(names + r.names, exprs + r.exprs, r.next))
  }

  ghost function PrependCalls(types: seq<AggregationType>, inputs: seq<Expr>, rest: Result<P.PlannedCalls, PlanError>)
    : Result<P.PlannedCalls, PlanError>
  {
    match rest
    case Err(x) => Err(x)
    case Ok(r) => Ok(P.PlannedCalls(types + r.types, inputs + r.inputs))
  }

  lemma PrependNothing(r: Result<P.PlannedList, PlanError>)
    ensures Prepend([], [], r) == r
  {
    if r.Ok? {
      assert [] + r.value.names == r.value.names && [] + r.value.exprs == r.value.exprs;
    }
  }

  lemma PrependNext(names: seq<string>, exprs: seq<Expr>, a: string, x: Expr, r: Result<P.PlannedList, PlanError>)
    ensures Prepend(names, exprs, Prepend([a], [x], r)) == Prepend(names + [a], exprs + [x], r)
  {
    if r.Ok? {
      assert names + ([a] + r.value.names) == names + [a] + r.value.names;
      assert exprs + ([x] + r.value.exprs) == exprs + [x] + r.value.exprs;
    }
  }

  lemma PrependNoCalls(r: Result<P.PlannedCalls, PlanError>)
    ensures PrependCalls([], [], r) == r
  {
    if r.Ok? {
      assert [] + r.value.types == r.value.types && [] + r.value.inputs == r.value.inputs;
    }
  }

  lemma PrependNextCall(types: seq<AggregationType>, inputs: seq<Expr>, t: AggregationType, x: Expr,
                        r: Result<P.PlannedCalls, PlanError>)
    ensures PrependCalls(types, inputs, PrependCalls([t], [x], r)) == PrependCalls(types + [t], inputs + [x], r)
  {
    if r.Ok? {
      assert types + ([t] + r.value.types) == types + [t] + r.value.types;
      assert inputs + ([x] + r.value.inputs) == inputs + [x] + r.value.inputs;
    }
  }

  /** The collecting walk is `i` items into the list: calls and rewritten items so far, with those of the rest, make
      up the calls and items of the whole list. */
  ghost predicate Walked(es: seq<BoundExpr>, i: nat, before: seq<BoundExpr>, now: seq<BoundExpr>,
                         done: seq<BoundExpr>) {
    && i <= |es| && now + CallsAll(es[i..]) == before + CallsAll(es)
    && done + PseudoAll(es[i..], |now|) == PseudoAll(es, |before|)
    && (CollectableAll(es) <==> CollectableAll(es[i..]))
  }

  lemma WalkedNext(es: seq<BoundExpr>, i: nat, before: seq<BoundExpr>, now: seq<BoundExpr>, done: seq<BoundExpr>)
    requires Walked(es, i, before, now, done) && i < |es|
    ensures Collectable(es[i]) ==> Walked(es, i + 1, before, now + Calls(es[i]), done + [Pseudo(es[i], |now|)])
    ensures CollectableAll(es) ==> Collectable(es[i])
    ensures now == before ==> |Calls(es[i])| <= |CallsAll(es)|
  {
    assert es[i..][0] == es[i] && es[i..][1..] == es[i + 1..];
    Assoc(now, Calls(es[i]), CallsAll(es[i + 1..]));
    Assoc(done, [Pseudo(es[i], |now|)], PseudoAll(es[i + 1..], |now + Calls(es[i])|));
  }

  lemma WalkedAll(es: seq<BoundExpr>, before: seq<BoundExpr>, now: seq<BoundExpr>, done: seq<BoundExpr>)
    ensures Walked(es, 0, before, before, [])
    ensures Walked(es, |es|, before, now, done) ==>
              now == before + CallsAll(es) && done == PseudoAll(es, |before|) && CollectableAll(es)
  {
    assert es[0..] == es && es[|es|..] == [];
    assert now + [] == now && done + [] == done;
  }

  class Planner {
    var allowAggregation: bool
    var nextAggregation: nat
    var aggregations: seq<BoundExpr>
    var exprInAgg: seq<Expr>

    constructor ()
      ensures !allowAggregation && nextAggregation == 0 && aggregations == [] && exprInAgg == []
    {
      allowAggregation, nextAggregation, aggregations, exprInAgg := false, 0, [], [];
    }

    method AddAggregation(call: BoundExpr) returns (ok: bool)
      modifies this`aggregations
      ensures ok == allowAggregation
      ensures aggregations == if ok then old(aggregations) + [call] else old(aggregations)
    {
      if !allowAggregation {
        return false;
      }
      aggregations := aggregations + [call];
      return true;
    }

    /** The collecting walk: replaces every aggregate call by a numbered placeholder and keeps the call. */
    method AddAggCallToContext(e: BoundExpr) returns (r: Result<BoundExpr, PlanError>)
      modifies this`aggregations
      ensures r.Ok? <==> Collectable(e) && (allowAggregation || Calls(e) == [])
      ensures r.Ok? ==> r.value == Pseudo(e, |old(aggregations)|)
      ensures r.Ok? ==> aggregations == old(aggregations) + Calls(e)
      ensures allowAggregation && r.Err? ==> r.error == UnsupportedExpression
      decreases e, 1
    {
      match e {
        case AggCall(_, distinct, _) =>
          var placeholder := AggCall("__pseudo_agg#" + Decimal(|aggregations|), distinct, []);
          var ok := AddAggregation(e);
          if !ok {
            return Err(AggregationNotAllowed);
          }
          return Ok(placeholder);
        case BinaryOp(op, l, r0) =>
          var a := AddAggCallToContext(l);
          if a.Err? {
            return a;
          }
          var b := AddAggCallToContext(r0);
          if b.Err? {
            return b;
          }
          Assoc(old(aggregations), Calls(l), Calls(r0));
          return Ok(BinaryOp(op, a.value, b.value));
        case FuncCall(func, args) =>
          var rs := AddAllToContext(args);
          if rs.Err? {
            return Err(rs.error);
          }
          return Ok(FuncCall(func, rs.value));
        case Alias(alias, child) =>
          var c := AddAggCallToContext(child);
          if c.Err? {
            return c;
          }
          return Ok(Alias(alias, c.value));
        case Refused =>
          return Err(UnsupportedExpression);
        case _ =>
          return Ok(e);
      }
    }

    /** The same over a list: the arguments of a function call, or the select list. */
    method AddAllToContext(es: seq<BoundExpr>) returns (r: Result<seq<BoundExpr>, PlanError>)
      modifies this`aggregations
      ensures r.Ok? <==> CollectableAll(es) && (allowAggregation || CallsAll(es) == [])
      ensures r.Ok? ==> r.value == PseudoAll(es, |old(aggregations)|)
      ensures r.Ok? ==> aggregations == old(aggregations) + CallsAll(es)
      ensures allowAggregation && r.Err? ==> r.error == UnsupportedExpression
      decreases es, 0
    {
      var done: seq<BoundExpr> := [];
      ghost var before := aggregations;
      WalkedAll(es, before, before, []);
      for i := 0 to |es|
        invariant Walked(es, i, before, aggregations, done) && (allowAggregation || aggregations == before)
      {
        WalkedNext(es, i, before, aggregations, done);
        var item := AddAggCallToContext(es[i]);
        if item.Err? {
          return Err(item.error);
        }
        done := done + [item.value];
      }
      WalkedAll(es, before, aggregations, done);
      return Ok(done);
    }

    /** The consuming walk. */
    method PlanExpression(e: BoundExpr, kids: seq<Schema>) returns (r: Result<(string, Expr), PlanError>)
      requires |kids| <= 2
      modifies this`nextAggregation
      ensures var spec := P.PlanExpr(e, kids, exprInAgg, old(nextAggregation));
              if spec.Ok? then r == Ok((spec.value.name, spec.value.expr)) && nextAggregation == spec.value.next
              else r == Err(spec.error)
      decreases e, 1
    {
      match e {
        case AggCall(_, _, _) =>
          if nextAggregation >= |exprInAgg| {
            return Err(UnexpectedAggCall);
          }
          nextAggregation := nextAggregation + 1;
          return Ok((UNNAMED, exprInAgg[nextAggregation - 1]));
        case ColumnRef(path) =>
          var c := PlanColumnRef(path, kids);
          if c.Err? {
            return Err(c.error);
          }
          return Ok((JoinPath(path), c.value));
        case BoundConstant(v) =>
          return Ok((UNNAMED, Constant(v)));
        case BinaryOp(op, l, r0) =>
          var a := PlanExpression(l, kids);
          if a.Err? {
            return a;
          }
          var b := PlanExpression(r0, kids);
          if b.Err? {
            return b;
          }
          var x := P.BinaryExpression(op, a.value.1, b.value.1);
          if x.Err? {
            return Err(x.error);
          }
          return Ok((UNNAMED, x.value));
        case FuncCall(func, args) =>
          var xs := PlanExpressions(args, kids);
          if xs.Err? {
            return Err(xs.error);
          }
          if func == "construct_array" {
            return Ok((UNNAMED, Op(ArrayOf, xs.value.1)));
          }
          return Err(UnsupportedFunction);
        case Alias(alias, child) =>
          var c := PlanExpression(child, kids);
          if c.Err? {
            return c;
          }
          return Ok((alias, c.value.1));
        case Refused =>
          return Err(UnsupportedExpression);
      }
    }

    /** The loop over a list of expressions, with its name and expression vectors. */
    method PlanExpressions(es: seq<BoundExpr>, kids: seq<Schema>)
      returns (r: Result<(seq<string>, seq<Expr>), PlanError>)
      requires |kids| <= 2
      modifies this`nextAggregation
      ensures var spec := P.PlanList(es, kids, exprInAgg, old(nextAggregation));
              if spec.Ok? then r == Ok((spec.value.names, spec.value.exprs)) && nextAggregation == spec.value.next
              else r == Err(spec.error)
      decreases es, 0
    {
      var names: seq<string>, exprs: seq<Expr> := [], [];
      var i := 0;
      assert es[i..] == es;
      PrependNothing(P.PlanList(es, kids, exprInAgg, nextAggregation));
      while i < |es|
        invariant 0 <= i <= |es|
        invariant P.PlanList(es, kids, exprInAgg, old(nextAggregation)) ==
                  Prepend(names, exprs, P.PlanList(es[i..], kids, exprInAgg, nextAggregation))
      {
        ghost var before := nextAggregation;
        assert es[i..][0] == es[i] && es[i..][1..] == es[i + 1..];
        var p := PlanExpression(es[i], kids);
        if p.Err? {
          return Err(p.error);
        }
        PrependNext(names, exprs, p.value.0, p.value.1, P.PlanList(es[i + 1..], kids, exprInAgg, nextAggregation));
        names, exprs := names + [p.value.0], exprs + [p.value.1];
        i := i + 1;
      }
      assert es[i..] == [] && names + [] == names && exprs + [] == exprs;
      return Ok((names, exprs));
    }

    /** Plans one collected call in a context of its own, then puts the context back. */
    method PlanAggCall(call: BoundExpr, kids: seq<Schema>) returns (r: Result<(AggregationType, Expr), PlanError>)
      requires call.AggCall? && |kids| <= 2
      modifies this
      ensures r == P.PlanCall(call, kids)
      ensures allowAggregation == old(allowAggregation) && nextAggregation == old(nextAggregation)
      ensures aggregations == old(aggregations) && exprInAgg == old(exprInAgg)
    {
      if call.distinct {
        return Err(DistinctAggregate);
      }
      var saved := (allowAggregation, nextAggregation, aggregations, exprInAgg);
      allowAggregation, nextAggregation, aggregations, exprInAgg := false, 0, [], [];
      var args := PlanExpressions(call.args, kids);
      allowAggregation, nextAggregation, aggregations, exprInAgg := saved.0, saved.1, saved.2, saved.3;
      if args.Err? {
        return Err(args.error);
      }
      if |args.value.1| == 0 && call.func == "count_star" {
        return Ok((CountStar, Constant(IntV(1))));
      }
      if |args.value.1| == 1 && AggregateOf(call.func).Some? {
        return Ok((AggregateOf(call.func).value, args.value.1[0]));
      }
      return Err(UnsupportedFunction);
    }

    /** The loop over the collected calls: fills the vectors of the aggregation node and the column expressions that
        the consuming walk will take, with a running term index. */
    method PlanCollectedCalls(from: nat, kids: seq<Schema>) returns (r: Result<P.PlannedCalls, PlanError>)
      requires |kids| <= 2 && exprInAgg == [] && forall c :: c in aggregations ==> c.AggCall?
      modifies this
      ensures allowAggregation == old(allowAggregation) && nextAggregation == old(nextAggregation)
      ensures aggregations == old(aggregations)
      ensures r == P.PlanCalls(aggregations, kids)
      ensures r.Ok? ==> exprInAgg == P.AggColumns(from, |aggregations|)
    {
      var types: seq<AggregationType>, inputs: seq<Expr> := [], [];
      var termIdx := 0;
      ghost var calls := aggregations;
      assert calls[termIdx..] == calls;
      PrependNoCalls(P.PlanCalls(calls, kids));
      while termIdx < |aggregations|
        invariant 0 <= termIdx <= |aggregations|
        invariant allowAggregation == old(allowAggregation) && nextAggregation == old(nextAggregation)
        invariant aggregations == calls
        invariant exprInAgg == P.AggColumns(from, termIdx)
        invariant P.PlanCalls(calls, kids) == PrependCalls(types, inputs, P.PlanCalls(calls[termIdx..], kids))
      {
        var item := aggregations[termIdx];
        assert calls[termIdx..][0] == item && calls[termIdx..][1..] == calls[termIdx + 1..];
        var p := PlanAggCall(item, kids);
        if p.Err? {
          return Err(p.error);
        }
        PrependNextCall(types, inputs, p.value.0, p.value.1, P.PlanCalls(calls[termIdx + 1..], kids));
        types, inputs := types + [p.value.0], inputs + [p.value.1];
        exprInAgg := exprInAgg + [ColumnValue(0, from + termIdx, INTEGER)];
        termIdx := termIdx + 1;
      }
      assert calls[termIdx..] == [] && types + [] == types && inputs + [] == inputs;
      return Ok(P.PlannedCalls(types, inputs));
    }

    /** Both phases, inside a context that allows aggregation. */
    method PlanSelectAggInContext(groupBy: seq<BoundExpr>, having: Option<BoundExpr>, select: seq<BoundExpr>,
                                  child: Plan)
      returns (r: Result<Plan, PlanError>)
      requires allowAggregation && nextAggregation == 0 && aggregations == [] && exprInAgg == []
      modifies this
      ensures r == P.PlanSelectAgg(groupBy, having, select, child)
      ensures r.Ok? ==> aggregations == P.AllCalls(having, select)
    {
      var kids := [child.schema];
      var g := PlanExpressions(groupBy, kids);
      if g.Err? {
        return Err(g.error);
      }
      PlannedListOnRow(groupBy, child.schema);

      var pseudoHaving := having;
      if having.Some? {
        var h := AddAggCallToContext(having.value);
        if h.Err? {
          return Err(h.error);
        }
        pseudoHaving := Some(h.value);
      }
      var targets := AddAllToContext(select);
      if targets.Err? {
        return Err(targets.error);
      }
      assert aggregations == P.AllCalls(having, select);

      var c := PlanCollectedCalls(|groupBy|, kids);
      if c.Err? {
        return Err(c.error);
      }
      var agg := Node(Aggregation(g.value.1, c.value.inputs, c.value.types),
                      P.AggSchema(g.value.0, g.value.1, |aggregations|), [child]);
      r := PlanPhaseTwo(having, pseudoHaving, select, targets.value, agg);
    }

    /** The second phase: HAVING and the select list, with placeholders for the calls, over the aggregation. */
    method PlanPhaseTwo(ghost having: Option<BoundExpr>, pseudoHaving: Option<BoundExpr>, ghost select: seq<BoundExpr>,
                        targets: seq<BoundExpr>, agg: Plan) returns (r: Result<Plan, PlanError>)
      requires nextAggregation == 0 && pseudoHaving.Some? == having.Some?
      requires having.Some? ==> pseudoHaving.value == Pseudo(having.value, 0)
      requires targets == PseudoAll(select, |P.OptionalCalls(having)|)
      modifies this`nextAggregation
      ensures r == match P.PlanHaving(having, agg, exprInAgg)
                   case Err(x) => Err(x)
                   case Ok(h) => P.PlanTargets(select, |P.OptionalCalls(having)|, h.0, exprInAgg, h.1)
    {
      var plan := agg;
      if pseudoHaving.Some? {
        var e := PlanExpression(pseudoHaving.value, [agg.schema]);
        if e.Err? {
          return Err(e.error);
        }
        plan := Node(Filter(e.value.1), agg.schema, [agg]);
      }
      var ps := PlanExpressions(targets, [plan.schema]);
      if ps.Err? {
        return Err(ps.error);
      }
      return Ok(Node(Projection(ps.value.1), P.NamedSchema(ps.value.0, ps.value.1), [plan]));
    }

    /** The context of the caller is put back whether planning succeeds or not. */
    method PlanSelectAgg(groupBy: seq<BoundExpr>, having: Option<BoundExpr>, select: seq<BoundExpr>, child: Plan)
      returns (r: Result<Plan, PlanError>)
      modifies this
      ensures r == P.PlanSelectAgg(groupBy, having, select, child)
      ensures allowAggregation == old(allowAggregation) && nextAggregation == old(nextAggregation)
      ensures aggregations == old(aggregations) && exprInAgg == old(exprInAgg)
    {
      var saved := (allowAggregation, nextAggregation, aggregations, exprInAgg);
      allowAggregation, nextAggregation, aggregations, exprInAgg := true, 0, [], [];
      r := PlanSelectAggInContext(groupBy, having, select, child);
      allowAggregation, nextAggregation, aggregations, exprInAgg := saved.0, saved.1, saved.2, saved.3;
    }
  }
}
