/** What the optimizer leaves of a plan: the patterns of the rules that its pipeline runs are gone from the plan it
    returns. */
module Settled {
  import opened Wrappers
  import opened Values
  import opened Expressions
  import opened Ordering
  import opened Plans
  import opened Rules
  import opened NormalForms

  datatype Pattern = IdentityProjection | FilterOverTrueJoin | IndexedJoin | IndexedSort | FilterOverScan

  predicate PlainScan(p: Plan) {
    p.kind.SeqScan? && p.kind.scanFilter.None?
  }

  /** An equality of a left column and a column of the given number on the right, either way round. */
  predicate EqualsRightColumn(e: Expr, col: nat) {
    && e.Op? && e.operator == Comparison(Equal) && |e.children| == 2
    && e.children[0].ColumnValue? && e.children[1].ColumnValue?
    && var (a, b) := (e.children[0], e.children[1]);
       || (a.tupleIdx == 0 && b.tupleIdx == 1 && b.colIdx == col)
       || (a.tupleIdx == 1 && b.tupleIdx == 0 && a.colIdx == col)
  }

  /** The sort keys are, in ascending order, just these columns. */
  predicate AscendingBy(orders: seq<OrderBy>, cols: seq<nat>) {
    |orders| == |cols| &&
    forall i :: 0 <= i < |orders| ==>
      && (orders[i].dir == ASC || orders[i].dir == DEFAULT)
      && orders[i].expr.ColumnValue? && orders[i].expr.colIdx == cols[i]
  }

  /** The node shows the pattern. */
  ghost predicate Shows(pat: Pattern, cat: Catalog, p: Plan) {
    match pat
    case IdentityProjection =>
      && p.kind.Projection? && |p.children| == 1 && Types(p.children[0].schema) == Types(p.schema)
      && forall i :: 0 <= i < |p.kind.exprs| ==>
           var e := p.kind.exprs[i]; e.ColumnValue? && e.tupleIdx == 0 && e.colIdx == i
    case FilterOverTrueJoin =>
      && p.kind.Filter? && |p.children| == 1 && p.children[0].kind.NestedLoopJoin?
      && p.children[0].kind.joinPredicate == Constant(BoolV(true))
    case IndexedJoin =>
      && p.kind.NestedLoopJoin? && |p.children| == 2 && PlainScan(p.children[1])
      && exists x :: x in TableIndexes(cat, p.children[1].kind.tableName)
                     && |x.keyAttrs| == 1 && EqualsRightColumn(p.kind.joinPredicate, x.keyAttrs[0])
    case IndexedSort =>
      && p.kind.Sort? && |p.children| == 1 && PlainScan(p.children[0]) && p.children[0].kind.tableOid in cat.tables
      && exists x :: x in TableIndexes(cat, cat.tables[p.children[0].kind.tableOid].name)
                     && AscendingBy(p.kind.orderBys, x.keyAttrs)
    case FilterOverScan =>
      p.kind.Filter? && |p.children| == 1 && PlainScan(p.children[0])
  }

  /** No node of the plan shows the pattern. */
  ghost predicate Free(pat: Pattern, cat: Catalog, p: Plan) {
    !Shows(pat, cat, p) && forall i :: 0 <= i < |p.children| ==> Free(pat, cat, p.children[i])
  }

  // ----- A pass removes its rule's pattern -----

  predicate Removes(rule: Rule, pat: Pattern) {
    match rule
    case MergeProjection => pat.IdentityProjection?
    case MergeFilterNLJ => pat.FilterOverTrueJoin?
    case NLJAsIndexJoin => pat.IndexedJoin?
    case OrderByAsIndexScan => pat.IndexedSort?
    case MergeFilterScan => pat.FilterOverScan?
    case _ => false
  }

  lemma {:induction false} AscendingColumns(orders: seq<OrderBy>, cols: seq<nat>)
    requires AscendingBy(orders, cols)
    ensures SortColumns(orders) == Some(cols)
  {
    if orders != [] {
      AscendingColumns(orders[1..], cols[1..]);
      assert [cols[0]] + cols[1..] == cols;
    }
  }

  lemma ShownIsRedex(rule: Rule, pat: Pattern, cat: Catalog, p: Plan)
    requires Removes(rule, pat) && Shows(pat, cat, p)
    ensures IsRedex(rule, cat, p)
  {
    if pat.IndexedSort? {
      var x :| x in TableIndexes(cat, cat.tables[p.children[0].kind.tableOid].name)
               && AscendingBy(p.kind.orderBys, x.keyAttrs);
      AscendingColumns(p.kind.orderBys, x.keyAttrs);
    } else if pat.IndexedJoin? {
      var x :| x in TableIndexes(cat, p.children[1].kind.tableName)
               && |x.keyAttrs| == 1 && EqualsRightColumn(p.kind.joinPredicate, x.keyAttrs[0]);
      assert x.keyAttrs == [EquiJoinColumns(p.kind.joinPredicate).value.1.colIdx];
    }
  }

  lemma {:induction false} NormalIsFree(rule: Rule, pat: Pattern, cat: Catalog, p: Plan)
    requires Removes(rule, pat) && NormalForm(rule, cat, p)
    ensures Free(pat, cat, p)
  {
    if Shows(pat, cat, p) {
      ShownIsRedex(rule, pat, cat, p);
    }
    forall i | 0 <= i < |p.children| ensures Free(pat, cat, p.children[i]) {
      NormalIsFree(rule, pat, cat, p.children[i]);
    }
  }

  // ----- Later passes do not bring it back -----

  /** Passes of the rule leave a plan free of the pattern so. */
  predicate Keeps(rule: Rule, pat: Pattern) {
    match pat
    case IdentityProjection => rule != MergeProjection && rule != EliminateTrueFilter
    case FilterOverScan => false
    case _ => rule.NLJAsIndexJoin? || rule.OrderByAsIndexScan? || rule.MergeFilterScan?
  }

  /** What a pass makes of a child: the same columns, and a loop join or a plain scan only where there was one. */
  ghost predicate Carried(rule: Rule, c: Plan, c': Plan) {
    && c'.schema == c.schema
    && (rule != MergeFilterNLJ ==>
          (c'.kind.NestedLoopJoin? || PlainScan(c') ==> c'.kind == c.kind))
  }

  lemma PassCarries(rule: Rule, cat: Catalog, c: Plan)
    requires Keeps(rule, IdentityProjection) && BottomUp(rule, cat, c).Some?
    ensures Carried(rule, c, BottomUp(rule, cat, c).value)
  {
  }

  lemma {:induction false} PassCarriesAll(rule: Rule, cat: Catalog, ps: seq<Plan>)
    requires Keeps(rule, IdentityProjection) && BottomUpAll(rule, cat, ps).Some?
    ensures forall i :: 0 <= i < |ps| ==> Carried(rule, ps[i], BottomUpAll(rule, cat, ps).value[i])
  {
    if ps != [] {
      PassCarries(rule, cat, ps[0]);
      PassCarriesAll(rule, cat, ps[1..]);
    }
  }

  lemma NodeStaysFree(rule: Rule, pat: Pattern, cat: Catalog, p: Plan, kids: seq<Plan>)
    requires Keeps(rule, pat) && !Shows(pat, cat, p) && |kids| == |p.children|
    requires forall i :: 0 <= i < |kids| ==> Carried(rule, p.children[i], kids[i])
    ensures !Shows(pat, cat, p.(children := kids))
  {
  }

  lemma RewriteStaysFree(rule: Rule, pat: Pattern, cat: Catalog, p: Plan)
    requires Keeps(rule, pat) && Free(pat, cat, p) && Rewrite(rule, cat, p).Some?
    ensures Free(pat, cat, Rewrite(rule, cat, p).value)
  {
    if |p.children| > 0 {
      assert Free(pat, cat, p.children[0]);
    }
  }

  lemma {:induction false} PassStaysFree(rule: Rule, pat: Pattern, cat: Catalog, p: Plan)
    requires Keeps(rule, pat) && Free(pat, cat, p) && BottomUp(rule, cat, p).Some?
    ensures Free(pat, cat, BottomUp(rule, cat, p).value)
    decreases p, 1
  {
    var kids := BottomUpAll(rule, cat, p.children).value;
    PassStaysFreeAll(rule, pat, cat, p.children);
    PassCarriesAll(rule, cat, p.children);
    NodeStaysFree(rule, pat, cat, p, kids);
    RewriteStaysFree(rule, pat, cat, p.(children := kids));
  }

  lemma {:induction false} PassStaysFreeAll(rule: Rule, pat: Pattern, cat: Catalog, ps: seq<Plan>)
    requires Keeps(rule, pat) && BottomUpAll(rule, cat, ps).Some?
    requires forall i :: 0 <= i < |ps| ==> Free(pat, cat, ps[i])
    ensures forall i :: 0 <= i < |ps| ==> Free(pat, cat, BottomUpAll(rule, cat, ps).value[i])
    decreases ps, 0
  {
    if ps != [] {
      PassStaysFree(rule, pat, cat, ps[0]);
      PassStaysFreeAll(rule, pat, cat, ps[1..]);
    }
  }

  // ----- Pipelines -----

  predicate Harmless(rule: Rule, pat: Pattern) {
    IsStub(rule) || Keeps(rule, pat)
  }

  lemma {:induction false} RulesStayFree(rules: seq<Rule>, pat: Pattern, cat: Catalog, p: Plan)
    requires RunRules(rules, cat, p).Some? && Free(pat, cat, p)
    requires forall i :: 0 <= i < |rules| ==> Harmless(rules[i], pat)
    ensures Free(pat, cat, RunRules(rules, cat, p).value)
  {
    if rules != [] {
      if !IsStub(rules[0]) {
        PassStaysFree(rules[0], pat, cat, p);
      }
      RulesStayFree(rules[1..], pat, cat, RunRule(rules[0], cat, p).value);
    }
  }

  /** A rule sequence with the pattern's rule, and only harmless rules after it, removes the pattern. */
  lemma {:induction false} RulesFree(rules: seq<Rule>, k: nat, pat: Pattern, cat: Catalog, p: Plan)
    requires RunRules(rules, cat, p).Some? && k < |rules| && Removes(rules[k], pat)
    requires forall i :: k < i < |rules| ==> Harmless(rules[i], pat)
    ensures Free(pat, cat, RunRules(rules, cat, p).value)
  {
    var q := RunRule(rules[0], cat, p).value;
    if k == 0 {
      PassReachesNormalForm(rules[0], cat, p);
      NormalIsFree(rules[0], pat, cat, q);
      RulesStayFree(rules[1..], pat, cat, q);
    } else {
      RulesFree(rules[1..], k - 1, pat, cat, q);
    }
  }

  predicate NoIndexJoins(p: Plan) {
    !p.kind.NestedIndexJoin? && forall i :: 0 <= i < |p.children| ==> NoIndexJoins(p.children[i])
  }

  lemma RewriteAddsNoIndexJoin(rule: Rule, cat: Catalog, p: Plan)
    requires rule != NLJAsIndexJoin && NoIndexJoins(p) && Rewrite(rule, cat, p).Some?
    ensures NoIndexJoins(Rewrite(rule, cat, p).value)
  {
    if |p.children| > 0 {
      assert NoIndexJoins(p.children[0]);
    }
  }

  lemma {:induction false} PassAddsNoIndexJoin(rule: Rule, cat: Catalog, p: Plan)
    requires rule != NLJAsIndexJoin && NoIndexJoins(p) && BottomUp(rule, cat, p).Some?
    ensures NoIndexJoins(BottomUp(rule, cat, p).value)
    decreases p, 1
  {
    PassAddsNoIndexJoinAll(rule, cat, p.children);
    RewriteAddsNoIndexJoin(rule, cat, p.(children := BottomUpAll(rule, cat, p.children).value));
  }

  lemma {:induction false} PassAddsNoIndexJoinAll(rule: Rule, cat: Catalog, ps: seq<Plan>)
    requires rule != NLJAsIndexJoin && BottomUpAll(rule, cat, ps).Some?
    requires forall i :: 0 <= i < |ps| ==> NoIndexJoins(ps[i])
    ensures forall i :: 0 <= i < |ps| ==> NoIndexJoins(BottomUpAll(rule, cat, ps).value[i])
    decreases ps, 0
  {
    if ps != [] {
      PassAddsNoIndexJoin(rule, cat, ps[0]);
      PassAddsNoIndexJoinAll(rule, cat, ps[1..]);
    }
  }

  lemma {:induction false} RulesAddNoIndexJoin(rules: seq<Rule>, cat: Catalog, p: Plan)
    requires NLJAsIndexJoin !in rules && NoIndexJoins(p) && RunRules(rules, cat, p).Some?
    ensures NoIndexJoins(RunRules(rules, cat, p).value)
  {
    if rules != [] {
      if !IsStub(rules[0]) {
        PassAddsNoIndexJoin(rules[0], cat, p);
      }
      RulesAddNoIndexJoin(rules[1..], cat, RunRule(rules[0], cat, p).value);
    }
  }

  /** What Optimize returns. With either setting no identity projection, no filter over an always-true join, no filter
      over a plain scan, and no ascending column sort over a plain scan with a matching index is left. With the
      starter rules no loop join on an indexed column of a plain scan is left either; without them no index join is
      made. */
  lemma OptimizedIsSettled(forceStarterRule: bool, cat: Catalog, p: Plan)
    requires Optimize(forceStarterRule, cat, p).Some?
    ensures var q := Optimize(forceStarterRule, cat, p).value;
            && Free(IdentityProjection, cat, q) && Free(FilterOverTrueJoin, cat, q)
            && Free(FilterOverScan, cat, q) && Free(IndexedSort, cat, q)
            && (forceStarterRule ==> Free(IndexedJoin, cat, q))
            && (!forceStarterRule && NoIndexJoins(p) ==> NoIndexJoins(q))
  {
    if forceStarterRule {
      RulesFree(STARTER_RULES, 0, IdentityProjection, cat, p);
      RulesFree(STARTER_RULES, 1, FilterOverTrueJoin, cat, p);
      RulesFree(STARTER_RULES, 2, IndexedJoin, cat, p);
      RulesFree(STARTER_RULES, 3, IndexedSort, cat, p);
      RulesFree(STARTER_RULES, 4, FilterOverScan, cat, p);
    } else {
      RulesFree(CUSTOM_RULES, 0, IdentityProjection, cat, p);
      RulesFree(CUSTOM_RULES, 1, FilterOverTrueJoin, cat, p);
      RulesFree(CUSTOM_RULES, 3, IndexedSort, cat, p);
      RulesFree(CUSTOM_RULES, 5, FilterOverScan, cat, p);
      if NoIndexJoins(p) {
        RulesAddNoIndexJoin(CUSTOM_RULES, cat, p);
      }
    }
  }
}
