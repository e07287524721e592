/** The optimizer's rules. Each rule rewrites one node whose children are already optimized; a bottom-up pass
    applies it everywhere. `None` stands for an exception or an aborted assertion of the original. */
module Rules {
  import opened Wrappers
  import opened Values
  import opened Expressions
  import opened Ordering
  import opened Plans
  import opened Strings

  datatype Rule =
    | MergeProjection
    | MergeFilterNLJ
    | NLJAsIndexJoin
    | OrderByAsIndexScan
    | MergeFilterScan
    | EliminateTrueFilter
    | NLJAsHashJoin
    | SortLimitAsTopN
    | SeqScanAsIndexScan

  /** Rules whose body returns the plan it was given. */
  predicate IsStub(rule: Rule) {
    rule.NLJAsHashJoin? || rule.SortLimitAsTopN? || rule.SeqScanAsIndexScan?
  }

  // ----- Helpers of the rules -----

  /** The cast of a constant to BOOLEAN and the byte it leaves, read as a truth value. The boolean null is stored as
      -128; to read that byte as a C++ bool is undefined, and taken here as true, like any byte that is not zero. A
      value that the cast refuses gives None. */
  function CastToBoolean(v: Value): Option<bool> {
    match v
    case BoolV(b) => Some(b)
    case Null(BOOLEAN) => Some(true)
    case VarcharV(s) =>
      var t := Lower(s);
      if t == "true" || t == "1" || t == "t" then Some(true)
      else if t == "false" || t == "0" || t == "f" then Some(false)
      else None
    case _ => None
  }

  function IsPredicateTrue(e: Expr): Option<bool> {
    match e
    case Constant(v) => CastToBoolean(v)
    case _ => Some(false)
  }

  /** The first index, in catalog order, with exactly these key columns. */
  function FirstIndexOn(indexes: seq<IndexInfo>, cols: seq<nat>): (r: Option<IndexInfo>)
    ensures r.Some? ==> r.value in indexes && r.value.keyAttrs == cols
    ensures r.Some? ==> exists k :: 0 <= k < |indexes| && indexes[k] == r.value
                                    && forall j :: 0 <= j < k ==> indexes[j].keyAttrs != cols
    ensures r.None? ==> forall x :: x in indexes ==> x.keyAttrs != cols
  {
    if indexes == [] then None
    else if indexes[0].keyAttrs == cols then Some(indexes[0])
    else
      assert forall k :: 0 < k < |indexes| ==> indexes[k] == indexes[1..][k - 1];
      FirstIndexOn(indexes[1..], cols)
  }

  /** Expression `i` of the list is column `i` of tuple 0, for every i from `from` on. */
  predicate IdentityFrom(es: seq<Expr>, from: nat) {
    forall i :: from <= i < |es| ==> es[i].ColumnValue? && es[i].tupleIdx == 0 && es[i].colIdx == i
  }

  /** The columns of an ascending sort over plain columns; None when some key is not of that form. */
  function SortColumns(orders: seq<OrderBy>): (r: Option<seq<nat>>)
    ensures r.Some? ==> |r.value| == |orders|
  {
    if orders == [] then Some([])
    else if orders[0].dir != ASC && orders[0].dir != DEFAULT then None
    else if !orders[0].expr.ColumnValue? then None
    else
      var rest := SortColumns(orders[1..]);
      if rest.None? then None else Some([orders[0].expr.colIdx] + rest.value)
  }

  /** The left column and the right column of a join condition `column = column` across the two sides. */
  function EquiJoinColumns(e: Expr): Option<(Expr, Expr)> {
    if e.Op? && e.operator == Comparison(Equal) && |e.children| == 2
       && e.children[0].ColumnValue? && e.children[1].ColumnValue?
    then
      var a, b := e.children[0], e.children[1];
      if a.tupleIdx == 0 && b.tupleIdx == 1 then Some((a, b))
      else if a.tupleIdx == 1 && b.tupleIdx == 0 then Some((b, a))
      else None
    else None
  }

  // ----- One node -----

  function RewriteProjection(p: Plan): Option<Plan> {
    if !p.kind.Projection? then Some(p)
    else if |p.children| != 1 then None
    else
      var child := p.children[0];
      if Types(child.schema) == Types(p.schema) && IdentityFrom(p.kind.exprs, 0)
      then Some(child.(schema := p.schema))
      else Some(p)
  }

  function RewriteFilterNLJ(p: Plan): Option<Plan> {
    if !p.kind.Filter? then Some(p)
    else if |p.children| != 1 then None
    else
      var join := p.children[0];
      if !join.kind.NestedLoopJoin? then Some(p)
      else if |join.children| != 2 then None
      else
        var always := IsPredicateTrue(join.kind.joinPredicate);
        if always.None? then None
        else if !always.value then Some(p)
        else
          var e := RewriteForJoin(p.kind.predicate_, |join.children[0].schema|, |join.children[1].schema|);
          if e.None? then None
          else Some(Node(NestedLoopJoin(e.value, join.kind.joinType), p.schema, join.children))
  }

  function RewriteNLJ(cat: Catalog, p: Plan): Option<Plan> {
    if !p.kind.NestedLoopJoin? then Some(p)
    else if |p.children| != 2 then None
    else
      var cols := EquiJoinColumns(p.kind.joinPredicate);
      var right := p.children[1];
      if cols.None? || !right.kind.SeqScan? then Some(p)
      else
        var (l, r) := cols.value;
        var index := FirstIndexOn(TableIndexes(cat, right.kind.tableName), [r.colIdx]);
        if index.None? then Some(p)
        else Some(Node(NestedIndexJoin(ColumnValue(0, l.colIdx, l.ret), right.kind.tableOid, index.value.oid,
                                       index.value.name, right.kind.tableName, right.schema, p.kind.joinType),
                       p.schema, [p.children[0]]))
  }

  function RewriteSort(cat: Catalog, p: Plan): Option<Plan> {
    if !p.kind.Sort? then Some(p)
    else
      var cols := SortColumns(p.kind.orderBys);
      if cols.None? then Some(p)
      else if |p.children| != 1 then None
      else
        var child := p.children[0];
        if !child.kind.SeqScan? then Some(p)
        else if child.kind.tableOid !in cat.tables then None
        else
          var index := FirstIndexOn(TableIndexes(cat, cat.tables[child.kind.tableOid].name), cols.value);
          if index.None? then Some(p)
          else Some(Node(IndexScan(child.kind.tableOid, index.value.oid), p.schema, []))
  }

  function RewriteFilterScan(p: Plan): Option<Plan> {
    if !p.kind.Filter? then Some(p)
    else if |p.children| != 1 then None
    else
      var scan := p.children[0].kind;
      if scan.SeqScan? && scan.scanFilter.None?
      then Some(Node(SeqScan(scan.tableOid, scan.tableName, Some(p.kind.predicate_)), p.schema, []))
      else Some(p)
  }

  function RewriteTrueFilter(p: Plan): Option<Plan> {
    if !p.kind.Filter? then Some(p)
    else
      var always := IsPredicateTrue(p.kind.predicate_);
      if always.None? then None
      else if !always.value then Some(p)
      else if |p.children| != 1 then None
      else Some(p.children[0])
  }

  function Rewrite(rule: Rule, cat: Catalog, p: Plan): Option<Plan> {
    match rule
    case MergeProjection => RewriteProjection(p)
    case MergeFilterNLJ => RewriteFilterNLJ(p)
    case NLJAsIndexJoin => RewriteNLJ(cat, p)
    case OrderByAsIndexScan => RewriteSort(cat, p)
    case MergeFilterScan => RewriteFilterScan(p)
    case EliminateTrueFilter => RewriteTrueFilter(p)
    case _ => Some(p)
  }

  // ----- Passes and pipelines -----

  function BottomUp(rule: Rule, cat: Catalog, p: Plan): Option<Plan>
    decreases p, 1
  {
    var kids := BottomUpAll(rule, cat, p.children);
    if kids.None? then None else Rewrite(rule, cat, p.(children := kids.value))
  }

  function BottomUpAll(rule: Rule, cat: Catalog, ps: seq<Plan>): (r: Option<seq<Plan>>)
    ensures r.Some? ==> |r.value| == |ps|
    decreases ps, 0
  {
    if ps == [] then Some([])
    else
      var head := BottomUp(rule, cat, ps[0]);
      var tail := BottomUpAll(rule, cat, ps[1..]);
      if head.None? || tail.None? then None else Some([head.value] + tail.value)
  }

  function RunRule(rule: Rule, cat: Catalog, p: Plan): Option<Plan> {
    if IsStub(rule) then Some(p) else BottomUp(rule, cat, p)
  }

  function RunRules(rules: seq<Rule>, cat: Catalog, p: Plan): Option<Plan> {
    if rules == [] then Some(p)
    else
      var q := RunRule(rules[0], cat, p);
      if q.None? then None else RunRules(rules[1..], cat, q.value)
  }

  const STARTER_RULES: seq<Rule> :=
    [MergeProjection, MergeFilterNLJ, NLJAsIndexJoin, OrderByAsIndexScan, MergeFilterScan, SeqScanAsIndexScan]

  const CUSTOM_RULES: seq<Rule> :=
    [MergeProjection, MergeFilterNLJ, NLJAsHashJoin, OrderByAsIndexScan, SortLimitAsTopN, MergeFilterScan,
     SeqScanAsIndexScan]

  function Optimize(forceStarterRule: bool, cat: Catalog, p: Plan): Option<Plan> {
    RunRules(if forceStarterRule then STARTER_RULES else CUSTOM_RULES, cat, p)
  }

  // ----- The search loops inside the rules -----

  /** The loop over the indexes of a table, with early return. */
  method MatchIndex(cat: Catalog, table: string, col: nat) returns (r: Option<(nat, string)>)
    ensures r.Some? <==> exists x :: x in TableIndexes(cat, table) && x.keyAttrs == [col]
    ensures r.Some? ==>
              var f := FirstIndexOn(TableIndexes(cat, table), [col]);
              f.Some? && r.value == (f.value.oid, f.value.name)
  {
    var indexes := TableIndexes(cat, table);
    var i := 0;
    while i < |indexes|
      invariant 0 <= i <= |indexes|
      invariant forall j :: 0 <= j < i ==> indexes[j].keyAttrs != [col]
      invariant FirstIndexOn(indexes, [col]) == FirstIndexOn(indexes[i..], [col])
    {
      if indexes[i].keyAttrs == [col] {
        assert indexes[i] in indexes;
        return Some((indexes[i].oid, indexes[i].name));
      }
      assert indexes[i..][1..] == indexes[i + 1..];
      i := i + 1;
    }
    return None;
  }

  /** The loop that looks for a projection expression out of place. */
  method IsIdenticalProjection(es: seq<Expr>) returns (identical: bool)
    ensures identical <==> IdentityFrom(es, 0)
  {
    identical := true;
    var i := 0;
    while i < |es|
      invariant 0 <= i <= |es|
      invariant IdentityFrom(es[..i], 0)
    {
      if !(es[i].ColumnValue? && es[i].tupleIdx == 0 && es[i].colIdx == i) {
        return false;
      }
      i := i + 1;
    }
    assert es[..i] == es;
  }

  /** The loop that gathers the sort columns and gives up on the first key that is not an ascending column. */
  method CollectSortColumns(orders: seq<OrderBy>) returns (r: Option<seq<nat>>)
    ensures r == SortColumns(orders)
  {
    var cols: seq<nat> := [];
    var i := 0;
    assert orders[i..] == orders;
    while i < |orders|
      invariant 0 <= i <= |orders|
      invariant SortColumns(orders).None? <==> SortColumns(orders[i..]).None?
      invariant SortColumns(orders).Some? ==> SortColumns(orders).value == cols + SortColumns(orders[i..]).value
    {
      assert orders[i..][1..] == orders[i + 1..];
      if orders[i].dir != ASC && orders[i].dir != DEFAULT {
        return None;
      }
      if !orders[i].expr.ColumnValue? {
        return None;
      }
      cols := cols + [orders[i].expr.colIdx];
      i := i + 1;
    }
    assert orders[i..] == [] && cols + [] == cols;
    return Some(cols);
  }
}
