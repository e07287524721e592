/** Table references as the binder leaves them, and the columns they bring into scope. */
module Scopes {
  import opened Wrappers
  import opened Plans
  import opened BoundExpressions
  import opened Strings

  /** A subquery is known by the plan of its statement and by one name for each column of it. */
  datatype BoundSubquery = BoundSubquery(body: Plan, names: seq<seq<string>>, alias: string)

  datatype TableRef =
    | BaseTable(table: string, oid: nat, alias: Option<string>, columns: Schema)
    | CrossProduct(left: TableRef, right: TableRef)
    | Join(joinType: JoinType, left: TableRef, right: TableRef, condition: BoundExpr)
    | Subquery(sub: BoundSubquery)
    | CTE(cteName: string, refAlias: string)

  type CTEList = seq<BoundSubquery>

  function BoundTableName(ref: TableRef): string
    requires ref.BaseTable?
  {
    match ref.alias
    case Some(a) => a
    case None => ref.table
  }

  predicate Defined(name: string, ctes: CTEList) {
    exists i :: 0 <= i < |ctes| && ctes[i].alias == name
  }

  /** The first common table expression of that name. */
  function FindCTE(name: string, ctes: CTEList): (sub: BoundSubquery)
    requires Defined(name, ctes)
    ensures exists i :: 0 <= i < |ctes| && sub == ctes[i] && sub.alias == name
                        && forall j :: 0 <= j < i ==> ctes[j].alias != name
  {
    if ctes[0].alias == name then ctes[0]
    else
      assert forall i :: 0 < i < |ctes| ==> ctes[i] == ctes[1..][i - 1];
      FindCTE(name, ctes[1..])
  }

  predicate Named(sub: BoundSubquery) {
    |sub.names| == |sub.body.schema| && forall i :: 0 <= i < |sub.names| ==> sub.names[i] != []
  }

  /** References to common table expressions are in scope, and the columns of subqueries have names. */
  predicate ScopeOk(ref: TableRef, ctes: CTEList) {
    match ref
    case BaseTable(_, _, _, _) => true
    case CrossProduct(l, r) => ScopeOk(l, ctes) && ScopeOk(r, ctes)
    case Join(_, l, r, _) => ScopeOk(l, ctes) && ScopeOk(r, ctes)
    case Subquery(sub) => Named(sub)
    case CTE(name, _) => Defined(name, ctes) && Named(FindCTE(name, ctes))
  }

  /** A column in scope: the name the binder puts before it, the alias it goes by, and its own name. */
  datatype Leaf = Leaf(prefix: string, alias: string, item: seq<string>)

  function BoundPath(l: Leaf): seq<string> {
    [l.prefix] + l.item
  }

  function AliasPath(l: Leaf): seq<string> {
    [l.alias] + l.item
  }

  function ItemLeaves(prefix: string, alias: string, names: seq<seq<string>>): (ls: seq<Leaf>)
    ensures |ls| == |names|
  {
    seq(|names|, i requires 0 <= i < |names| => Leaf(prefix, alias, names[i]))
  }

  function ColumnNames(columns: Schema): (names: seq<seq<string>>)
    ensures |names| == |columns|
  {
    seq(|columns|, i requires 0 <= i < |columns| => [columns[i].name])
  }

  /** The columns in scope, left to right. */
  function Leaves(ref: TableRef, ctes: CTEList): seq<Leaf>
    requires ScopeOk(ref, ctes)
  {
    match ref
    case BaseTable(_, _, _, columns) => ItemLeaves(BoundTableName(ref), BoundTableName(ref), ColumnNames(columns))
    case CrossProduct(l, r) => Leaves(l, ctes) + Leaves(r, ctes)
    case Join(_, l, r, _) => Leaves(l, ctes) + Leaves(r, ctes)
    case Subquery(sub) => ItemLeaves(sub.alias, sub.alias, sub.names)
    case CTE(name, alias) => ItemLeaves(FindCTE(name, ctes).alias, alias, FindCTE(name, ctes).names)
  }

  // ----- Which columns a name means -----

  function LowerAll(names: seq<string>): (r: seq<string>)
    ensures |r| == |names|
  {
    seq(|names|, i requires 0 <= i < |names| => Lower(names[i]))
  }

  predicate IsSuffix(suffix: seq<string>, full: seq<string>) {
    |suffix| <= |full| && suffix == full[|full| - |suffix|..]
  }

  /** The name as it stands is the end of the column's own name. */
  predicate MatchesItem(item: seq<string>, name: seq<string>) {
    IsSuffix(name, LowerAll(item))
  }

  predicate MatchesQualified(l: Leaf, name: seq<string>) {
    |name| > 1 && name[0] == l.alias && MatchesItem(l.item, name[1..])
  }

  /** In how many ways the name means this column. */
  function Ways(l: Leaf, name: seq<string>): nat {
    (if MatchesItem(l.item, name) then 1 else 0) + (if MatchesQualified(l, name) then 1 else 0)
  }

  function WayCount(ls: seq<Leaf>, name: seq<string>): nat {
    if ls == [] then 0 else WayCount(ls[..|ls| - 1], name) + Ways(ls[|ls| - 1], name)
  }

  datatype Resolution = Found(path: seq<string>) | NotFound | Ambiguous

  /** The one right answer: the column if the name means exactly one, in exactly one way. */
  ghost predicate Resolves(r: Resolution, ls: seq<Leaf>, name: seq<string>) {
    match r
    case Found(path) =>
      WayCount(ls, name) == 1 && exists i :: 0 <= i < |ls| && Ways(ls[i], name) == 1 && path == BoundPath(ls[i])
    case NotFound => WayCount(ls, name) == 0
    case Ambiguous => WayCount(ls, name) >= 2
  }

  lemma {:induction false} CountConcat(a: seq<Leaf>, b: seq<Leaf>, name: seq<string>)
    ensures WayCount(a + b, name) == WayCount(a, name) + WayCount(b, name)
  {
    if b == [] {
      assert a + b == a;
    } else {
      assert (a + b)[..|a| + |b| - 1] == a + b[..|b| - 1];
      CountConcat(a, b[..|b| - 1], name);
    }
  }

  /** Each column in scope adds its ways to the count. */
  lemma {:induction false} CountAtLeast(ls: seq<Leaf>, name: seq<string>, i: nat)
    requires i < |ls|
    ensures Ways(ls[i], name) <= WayCount(ls, name)
  {
    var last := |ls| - 1;
    if i < last {
      CountAtLeast(ls[..last], name, i);
    }
  }

  lemma {:induction false} CountTwo(ls: seq<Leaf>, name: seq<string>, i: nat, j: nat)
    requires i < j < |ls|
    ensures Ways(ls[i], name) + Ways(ls[j], name) <= WayCount(ls, name)
  {
    var last := |ls| - 1;
    if j < last {
      CountTwo(ls[..last], name, i, j);
    } else {
      CountAtLeast(ls[..last], name, i);
    }
  }
}

/** Column resolution. An exception of the original is `Ambiguous`. */
module Binder {
  import opened Wrappers
  import opened Plans
  import opened Strings
  import opened Scopes

  function Matching(names: seq<seq<string>>, name: seq<string>): nat {
    if names == [] then 0
    else Matching(names[..|names| - 1], name) + if MatchesItem(names[|names| - 1], name) then 1 else 0
  }

  /** The right answer within one list of names. */
  ghost predicate PicksFrom(r: Resolution, names: seq<seq<string>>, name: seq<string>) {
    match r
    case Found(item) =>
      Matching(names, name) == 1 && exists i :: 0 <= i < |names| && MatchesItem(names[i], name) && item == names[i]
    case NotFound => Matching(names, name) == 0
    case Ambiguous => Matching(names, name) >= 2
  }

  lemma MatchingSnoc(names: seq<seq<string>>, k: nat, name: seq<string>)
    requires k < |names|
    ensures Matching(names[..k + 1], name) == Matching(names[..k], name) + if MatchesItem(names[k], name) then 1 else 0
  {
    assert names[..k + 1][..k] == names[..k];
  }

  lemma {:induction false} MatchingPrefix(names: seq<seq<string>>, k: nat, name: seq<string>)
    requires k <= |names|
    ensures Matching(names[..k], name) <= Matching(names, name)
  {
    if k < |names| {
      MatchingPrefix(names[..|names| - 1], k, name);
      assert names[..|names| - 1][..k] == names[..k];
    } else {
      assert names[..k] == names;
    }
  }

  /** A name of several parts means no column of a stored table. */
  lemma {:induction false} NoMatchingColumn(columns: Schema, name: seq<string>)
    requires |name| > 1
    ensures Matching(ColumnNames(columns), name) == 0
  {
    if columns != [] {
      assert ColumnNames(columns)[..|columns| - 1] == ColumnNames(columns[..|columns| - 1]);
      NoMatchingColumn(columns[..|columns| - 1], name);
    }
  }

  /** The first match in a list so far without one. */
  lemma PicksNew(names: seq<seq<string>>, k: nat, name: seq<string>)
    requires k < |names| && Matching(names[..k], name) == 0 && MatchesItem(names[k], name)
    ensures PicksFrom(Found(names[k]), names[..k + 1], name)
  {
    MatchingSnoc(names, k, name);
    assert names[..k + 1][k] == names[k];
  }

  /** The second match makes the name ambiguous. */
  lemma PicksSecond(r: Resolution, names: seq<seq<string>>, k: nat, name: seq<string>)
    requires k < |names| && r.Found? && PicksFrom(r, names[..k], name) && MatchesItem(names[k], name)
    ensures PicksFrom(Ambiguous, names, name)
  {
    MatchingSnoc(names, k, name);
    MatchingPrefix(names, k + 1, name);
  }

  /** No match: the answer stays. */
  lemma PicksSame(r: Resolution, names: seq<seq<string>>, k: nat, name: seq<string>)
    requires k < |names| && !r.Ambiguous? && PicksFrom(r, names[..k], name) && !MatchesItem(names[k], name)
    ensures PicksFrom(r, names[..k + 1], name)
  {
    MatchingSnoc(names, k, name);
    if r.Found? {
      PicksLater(r, names, k, name);
    }
  }

  lemma OnePartMatches(column: string, name: seq<string>)
    requires |name| == 1
    ensures MatchesItem([column], name) <==> Lower(column) == name[0]
  {
    assert LowerAll([column]) == [Lower(column)];
  }

  method ResolveInSchema(columns: Schema, name: seq<string>) returns (r: Resolution)
    requires name != []
    ensures PicksFrom(r, ColumnNames(columns), name)
  {
    r := NotFound;
    ghost var names := ColumnNames(columns);
    if |name| != 1 {
      NoMatchingColumn(columns, name);
      return;
    }
    for k := 0 to |columns|
      invariant !r.Ambiguous? && PicksFrom(r, names[..k], name)
    {
      OnePartMatches(columns[k].name, name);
      if Lower(columns[k].name) == name[0] {
        if r.Found? {
          PicksSecond(r, names, k, name);
          return Ambiguous;
        }
        PicksNew(names, k, name);
        r := Found([columns[k].name]);
      } else {
        PicksSame(r, names, k, name);
      }
    }
    assert names[..|names|] == names;
  }

  lemma PicksLater(r: Resolution, names: seq<seq<string>>, k: nat, name: seq<string>)
    requires k < |names| && r.Found? && PicksFrom(r, names[..k], name) && !MatchesItem(names[k], name)
    ensures PicksFrom(r, names[..k + 1], name)
  {
    MatchingSnoc(names, k, name);
    var i :| 0 <= i < k && MatchesItem(names[..k][i], name) && r.path == names[..k][i];
    assert names[..k + 1][i] == names[..k][i];
  }

  method ResolveInSelectList(names: seq<seq<string>>, name: seq<string>) returns (r: Resolution)
    ensures PicksFrom(r, names, name)
  {
    r := NotFound;
    for k := 0 to |names|
      invariant !r.Ambiguous? && PicksFrom(r, names[..k], name)
    {
      if MatchesItem(names[k], name) {
        if r.Found? {
          PicksSecond(r, names, k, name);
          return Ambiguous;
        }
        PicksNew(names, k, name);
        r := Found(names[k]);
      } else {
        PicksSame(r, names, k, name);
      }
    }
    assert names[..|names|] == names;
  }

  /** Two searches of which at most one may find something. */
  function OneOf(a: Resolution, b: Resolution): Resolution {
    if a.Ambiguous? || b.Ambiguous? || (a.Found? && b.Found?) then Ambiguous
    else if a.Found? then a
    else b
  }

  function Prepended(r: Resolution, prefix: string): Resolution {
    match r
    case Found(path) => Found([prefix] + path)
    case _ => r
  }

  /** The ways of a list of names: as they stand, or behind the alias. */
  lemma {:induction false} CountItems(prefix: string, alias: string, names: seq<seq<string>>, name: seq<string>)
    ensures WayCount(ItemLeaves(prefix, alias, names), name) ==
              Matching(names, name) + if |name| > 1 && name[0] == alias then Matching(names, name[1..]) else 0
  {
    if names != [] {
      var last := |names| - 1;
      assert ItemLeaves(prefix, alias, names)[..last] == ItemLeaves(prefix, alias, names[..last]);
      CountItems(prefix, alias, names[..last], name);
    }
  }

  lemma PickedItem(r: Resolution, names: seq<seq<string>>, short: seq<string>, prefix: string, alias: string,
                   name: seq<string>)
    requires PicksFrom(r, names, short) && r.Found? && WayCount(ItemLeaves(prefix, alias, names), name) == 1
    requires short == name || (|name| > 1 && name[0] == alias && short == name[1..])
    ensures Resolves(Prepended(r, prefix), ItemLeaves(prefix, alias, names), name)
  {
    var i :| 0 <= i < |names| && MatchesItem(names[i], short) && r.path == names[i];
    var ls := ItemLeaves(prefix, alias, names);
    CountAtLeast(ls, name, i);
    assert Ways(ls[i], name) == 1 && Prepended(r, prefix).path == BoundPath(ls[i]);
  }

  lemma ItemsResolved(direct: Resolution, strip: Resolution, prefix: string, alias: string, names: seq<seq<string>>,
                      name: seq<string>)
    requires PicksFrom(direct, names, name)
    requires if |name| > 1 && name[0] == alias then PicksFrom(strip, names, name[1..]) else strip == NotFound
    ensures Resolves(Prepended(OneOf(strip, direct), prefix), ItemLeaves(prefix, alias, names), name)
  {
    CountItems(prefix, alias, names, name);
    var r := OneOf(strip, direct);
    if r.Found? {
      PickedItem(r, names, if strip.Found? then name[1..] else name, prefix, alias, name);
    }
  }

  method ResolveInBaseTable(ref: TableRef, name: seq<string>) returns (r: Resolution)
    requires ref.BaseTable? && name != []
    ensures Resolves(r, Leaves(ref, []), name)
  {
    var table := BoundTableName(ref);
    var direct := ResolveInSchema(ref.columns, name);
    var strip := NotFound;
    if |name| > 1 && name[0] == table {
      strip := ResolveInSchema(ref.columns, name[1..]);
    }
    r := Prepended(OneOf(strip, direct), table);
    ItemsResolved(direct, strip, table, table, ColumnNames(ref.columns), name);
  }

  /** A renamed common table expression keeps its own name as the prefix, but answers to the alias. */
  method ResolveInSubquery(sub: BoundSubquery, alias: string, name: seq<string>) returns (r: Resolution)
    ensures Resolves(r, ItemLeaves(sub.alias, alias, sub.names), name)
  {
    var direct := ResolveInSelectList(sub.names, name);
    var strip := NotFound;
    if |name| > 1 && name[0] == alias {
      strip := ResolveInSelectList(sub.names, name[1..]);
    }
    r := Prepended(OneOf(strip, direct), sub.alias);
    ItemsResolved(direct, strip, sub.alias, alias, sub.names, name);
  }

  lemma SidesResolved(a: Resolution, b: Resolution, ls: seq<Leaf>, rs: seq<Leaf>, name: seq<string>)
    requires Resolves(a, ls, name) && Resolves(b, rs, name)
    ensures Resolves(OneOf(a, b), ls + rs, name)
  {
    CountConcat(ls, rs, name);
    if OneOf(a, b).Found? {
      if a.Found? {
        var i :| 0 <= i < |ls| && Ways(ls[i], name) == 1 && a.path == BoundPath(ls[i]);
        assert (ls + rs)[i] == ls[i];
      } else {
        var i :| 0 <= i < |rs| && Ways(rs[i], name) == 1 && b.path == BoundPath(rs[i]);
        assert (ls + rs)[|ls| + i] == rs[i];
      }
    }
  }

  /** Resolution succeeds exactly when the name means one column in one way, finds nothing exactly when it means none,
      and reports ambiguity exactly when there are two ways or more. */
  method ResolveColumn(ref: TableRef, ctes: CTEList, name: seq<string>) returns (r: Resolution)
    requires ScopeOk(ref, ctes) && name != []
    ensures Resolves(r, Leaves(ref, ctes), name)
    decreases ref
  {
    match ref
    case BaseTable(_, _, _, _) =>
      r := ResolveInBaseTable(ref, name);
    case CrossProduct(left, right) =>
      var a := ResolveColumn(left, ctes, name);
      var b := ResolveColumn(right, ctes, name);
      SidesResolved(a, b, Leaves(left, ctes), Leaves(right, ctes), name);
      r := OneOf(a, b);
    case Join(_, left, right, _) =>
      var a := ResolveColumn(left, ctes, name);
      var b := ResolveColumn(right, ctes, name);
      SidesResolved(a, b, Leaves(left, ctes), Leaves(right, ctes), name);
      r := OneOf(a, b);
    case Subquery(sub) =>
      r := ResolveInSubquery(sub, sub.alias, name);
    case CTE(cteName, alias) =>
      r := ResolveInSubquery(FindCTE(cteName, ctes), alias, name);
  }

  // ----- When ways are columns -----

  predicate Means(l: Leaf, name: seq<string>) {
    MatchesItem(l.item, name) || MatchesQualified(l, name)
  }

  /** How many columns in scope the name means. */
  function ColumnsMeant(ls: seq<Leaf>, name: seq<string>): nat {
    if ls == [] then 0 else ColumnsMeant(ls[..|ls| - 1], name) + if Means(ls[|ls| - 1], name) then 1 else 0
  }

  /** No column matches in both ways. */
  ghost predicate MeansOnce(ls: seq<Leaf>, name: seq<string>) {
    forall i :: 0 <= i < |ls| ==> !(MatchesItem(ls[i].item, name) && MatchesQualified(ls[i], name))
  }

  /** So counted ways are counted columns exactly when no column matches both as it stands and behind its alias. */
  lemma {:induction false} WaysAreColumns(ls: seq<Leaf>, name: seq<string>)
    ensures ColumnsMeant(ls, name) <= WayCount(ls, name)
    ensures ColumnsMeant(ls, name) == WayCount(ls, name) <==> MeansOnce(ls, name)
  {
    if ls != [] {
      var init := ls[..|ls| - 1];
      WaysAreColumns(init, name);
      assert MeansOnce(ls, name) <==> MeansOnce(init, name) && Ways(ls[|ls| - 1], name) <= 1 by {
        assert forall i :: 0 <= i < |init| ==> ls[i] == init[i];
      }
    }
  }

  lemma {:induction false} AtMostTwoWays(ls: seq<Leaf>, name: seq<string>)
    ensures WayCount(ls, name) <= 2 * ColumnsMeant(ls, name)
  {
    if ls != [] {
      AtMostTwoWays(ls[..|ls| - 1], name);
    }
  }

  /** The answer is the one the number of columns meant calls for. */
  ghost predicate RightAnswer(r: Resolution, ls: seq<Leaf>, name: seq<string>) {
    var meant := ColumnsMeant(ls, name);
    (r.NotFound? <==> meant == 0) && (r.Found? <==> meant == 1) && (r.Ambiguous? <==> meant >= 2)
  }

  /** Resolution gives the right answer exactly when a column that is alone meant does not match in both ways. */
  lemma RightAnswerIff(r: Resolution, ls: seq<Leaf>, name: seq<string>)
    requires Resolves(r, ls, name)
    ensures RightAnswer(r, ls, name) <==> (ColumnsMeant(ls, name) == 1 ==> MeansOnce(ls, name))
  {
    WaysAreColumns(ls, name);
    AtMostTwoWays(ls, name);
  }

  predicate NoSubqueries(ref: TableRef) {
    match ref
    case BaseTable(_, _, _, _) => true
    case CrossProduct(l, r) => NoSubqueries(l) && NoSubqueries(r)
    case Join(_, l, r, _) => NoSubqueries(l) && NoSubqueries(r)
    case _ => false
  }

  /** Over stored tables, ways are columns: resolution succeeds if and only if exactly one column matches. */
  lemma StoredColumnsMeanOnce(ref: TableRef, ctes: CTEList, name: seq<string>)
    requires ScopeOk(ref, ctes) && NoSubqueries(ref) && name != []
    ensures WayCount(Leaves(ref, ctes), name) == ColumnsMeant(Leaves(ref, ctes), name)
    ensures forall r :: Resolves(r, Leaves(ref, ctes), name) ==> RightAnswer(r, Leaves(ref, ctes), name)
  {
    StoredItems(ref, ctes);
    WaysAreColumns(Leaves(ref, ctes), name);
  }

  lemma {:induction false} StoredItems(ref: TableRef, ctes: CTEList)
    requires ScopeOk(ref, ctes) && NoSubqueries(ref)
    ensures forall l :: l in Leaves(ref, ctes) ==> |l.item| == 1
  {
    match ref
    case BaseTable(_, _, _, _) =>
    case CrossProduct(left, right) =>
      StoredItems(left, ctes);
      StoredItems(right, ctes);
    case Join(_, left, right, _) =>
      StoredItems(left, ctes);
      StoredItems(right, ctes);
  }

  /** Over a subquery the two differ: in `(SELECT t.x FROM t) AS t` the name t.x means one column in two ways, and is
      refused as ambiguous. */
  lemma OneColumnTwoWays(body: Plan)
    requires |body.schema| == 1
    ensures var ref, name := Subquery(BoundSubquery(body, [["t", "x"]], "t")), ["t", "x"];
            && ScopeOk(ref, []) && ColumnsMeant(Leaves(ref, []), name) == 1
            && forall r :: Resolves(r, Leaves(ref, []), name) ==> r == Ambiguous
  {
    var ls, name := ItemLeaves("t", "t", [["t", "x"]]), ["t", "x"];
    assert Lower("t") == "t" && Lower("x") == "x";
    assert LowerAll(["t", "x"]) == ["t", "x"];
    assert name[1..] == ["x"];
    assert Ways(ls[0], name) == 2;
    assert WayCount(ls[..0], name) == 0 && ColumnsMeant(ls[..0], name) == 0;
  }

  // ----- What names find -----

  /** Names of one part each, different when written in lower case. */
  ghost predicate PlainNames(names: seq<seq<string>>) {
    && (forall i :: 0 <= i < |names| ==> |names[i]| == 1)
    && forall i, j :: 0 <= i < j < |names| ==> Lower(names[i][0]) != Lower(names[j][0])
  }

  function CountTrue(bs: seq<bool>): nat {
    if bs == [] then 0 else CountTrue(bs[..|bs| - 1]) + if bs[|bs| - 1] then 1 else 0
  }

  lemma {:induction false} CountTrueOne(bs: seq<bool>, k: nat)
    requires forall i :: 0 <= i < |bs| ==> bs[i] == (i == k)
    ensures CountTrue(bs) == if k < |bs| then 1 else 0
  {
    if bs != [] {
      CountTrueOne(bs[..|bs| - 1], k);
    }
  }

  lemma {:induction false} MatchingIsCount(names: seq<seq<string>>, name: seq<string>, bs: seq<bool>)
    requires |bs| == |names| && forall i :: 0 <= i < |names| ==> bs[i] == MatchesItem(names[i], name)
    ensures Matching(names, name) == CountTrue(bs)
  {
    if names != [] {
      MatchingIsCount(names[..|names| - 1], name, bs[..|names| - 1]);
    }
  }

  /** The lower-case name of column `i` is that of column `k` only if they are one. */
  lemma PlainNameMatches(names: seq<seq<string>>, i: nat, k: nat)
    requires PlainNames(names) && i < |names| && k < |names|
    ensures MatchesItem(names[i], [Lower(names[k][0])]) <==> i == k
  {
    var part := Lower(names[k][0]);
    assert names[i] == [names[i][0]];
    OnePartMatches(names[i][0], [part]);
    assert Lower(names[i][0]) == part <==> i == k;
  }

  /** The name matches item `k` and no other. */
  ghost predicate MatchesOnly(names: seq<seq<string>>, name: seq<string>, k: nat) {
    forall i :: 0 <= i < |names| ==> (MatchesItem(names[i], name) <==> i == k)
  }

  lemma PlainMatchesOnly(names: seq<seq<string>>, k: nat)
    requires PlainNames(names) && k < |names|
    ensures MatchesOnly(names, [Lower(names[k][0])], k)
  {
    forall i | 0 <= i < |names| ensures MatchesItem(names[i], [Lower(names[k][0])]) <==> i == k {
      PlainNameMatches(names, i, k);
    }
  }

  lemma OneMatch(names: seq<seq<string>>, name: seq<string>, k: nat)
    requires MatchesOnly(names, name, k) && k < |names|
    ensures Matching(names, name) == 1
  {
    var bs := seq(|names|, i => i == k);
    MatchingIsCount(names, name, bs);
    CountTrueOne(bs, k);
  }

  lemma MatchingDistinct(names: seq<seq<string>>, k: nat)
    requires PlainNames(names) && k < |names|
    ensures Matching(names, [Lower(names[k][0])]) == 1
  {
    PlainMatchesOnly(names, k);
    OneMatch(names, [Lower(names[k][0])], k);
  }

  lemma TooLong(item: seq<string>, name: seq<string>)
    requires |item| < |name|
    ensures !MatchesItem(item, name)
  {
  }

  lemma {:induction false} NoneOfTwoParts(names: seq<seq<string>>, name: seq<string>)
    requires |name| == 2 && forall i :: 0 <= i < |names| ==> |names[i]| == 1
    ensures Matching(names, name) == 0
  {
    if names != [] {
      TooLong(names[|names| - 1], name);
      NoneOfTwoParts(names[..|names| - 1], name);
    }
  }

  /** Over a list of plain names a name alone, or behind the alias, finds its column, under the prefix of the list. */
  lemma PlainNameFound(prefix: string, alias: string, names: seq<seq<string>>, k: nat, name: seq<string>, r: Resolution)
    requires PlainNames(names) && k < |names| && Resolves(r, ItemLeaves(prefix, alias, names), name)
    requires name == [Lower(names[k][0])] || name == [alias, Lower(names[k][0])]
    ensures r == Found([prefix, names[k][0]])
  {
    var part := Lower(names[k][0]);
    CountItems(prefix, alias, names, name);
    MatchingDistinct(names, k);
    if |name| == 2 {
      assert name[1..] == [part];
      NoneOfTwoParts(names, name);
    }
    assert WayCount(ItemLeaves(prefix, alias, names), name) == 1;
    OnlyThatColumn(prefix, alias, names, k, name, r);
  }

  /** Behind anything but the alias it finds nothing. */
  lemma PlainNameNotFound(prefix: string, alias: string, names: seq<seq<string>>, other: string, part: string,
                          r: Resolution)
    requires PlainNames(names) && other != alias && Resolves(r, ItemLeaves(prefix, alias, names), [other, part])
    ensures r == NotFound
  {
    CountItems(prefix, alias, names, [other, part]);
    NoneOfTwoParts(names, [other, part]);
  }

  lemma NoWayToOthers(prefix: string, alias: string, names: seq<seq<string>>, i: nat, k: nat, name: seq<string>)
    requires PlainNames(names) && i < |names| && k < |names| && i != k
    requires name == [Lower(names[k][0])] || name == [alias, Lower(names[k][0])]
    ensures Ways(ItemLeaves(prefix, alias, names)[i], name) == 0
  {
    PlainNameMatches(names, i, k);
    if |name| == 2 {
      assert name[1..] == [Lower(names[k][0])];
      TooLong(names[i], name);
    }
  }

  lemma OnlyThatColumn(prefix: string, alias: string, names: seq<seq<string>>, k: nat, name: seq<string>, r: Resolution)
    requires PlainNames(names) && k < |names|
    requires name == [Lower(names[k][0])] || name == [alias, Lower(names[k][0])]
    requires r.Found? && Resolves(r, ItemLeaves(prefix, alias, names), name)
    ensures r == Found([prefix, names[k][0]])
  {
    var ls := ItemLeaves(prefix, alias, names);
    var i :| 0 <= i < |ls| && Ways(ls[i], name) == 1 && r.path == BoundPath(ls[i]);
    assert i == k by {
      if i != k {
        NoWayToOthers(prefix, alias, names, i, k, name);
      }
    }
    assert r.path == [prefix] + names[k] && names[k] == [names[k][0]];
  }

  /** The columns of a stored table have different names in lower case. */
  ghost predicate PlainColumns(columns: Schema) {
    forall i, j :: 0 <= i < j < |columns| ==> Lower(columns[i].name) != Lower(columns[j].name)
  }

  /** A table with an alias answers to the alias: alone or behind it, a column's name finds the column under the
      alias. */
  lemma AliasFound(table: string, oid: nat, columns: Schema, alias: string, k: nat, name: seq<string>, r: Resolution)
    requires PlainColumns(columns) && k < |columns|
    requires name == [Lower(columns[k].name)] || name == [alias, Lower(columns[k].name)]
    requires Resolves(r, Leaves(BaseTable(table, oid, Some(alias), columns), []), name)
    ensures r == Found([alias, columns[k].name])
  {
    PlainNameFound(alias, alias, ColumnNames(columns), k, name, r);
  }

  /** ... and not to its own name. */
  lemma HiddenNameNotFound(table: string, oid: nat, columns: Schema, alias: string, part: string, r: Resolution)
    requires PlainColumns(columns) && table != alias
    requires Resolves(r, Leaves(BaseTable(table, oid, Some(alias), columns), []), [table, part])
    ensures r == NotFound
  {
    PlainNameNotFound(alias, alias, ColumnNames(columns), table, part, r);
  }

  /** Without an alias it answers to its own name ... */
  lemma OwnNameFound(table: string, oid: nat, columns: Schema, k: nat, name: seq<string>, r: Resolution)
    requires PlainColumns(columns) && k < |columns|
    requires name == [Lower(columns[k].name)] || name == [table, Lower(columns[k].name)]
    requires Resolves(r, Leaves(BaseTable(table, oid, None, columns), []), name)
    ensures r == Found([table, columns[k].name])
  {
    PlainNameFound(table, table, ColumnNames(columns), k, name, r);
  }

  /** ... and to no other. */
  lemma OtherNameNotFound(table: string, oid: nat, columns: Schema, other: string, part: string, r: Resolution)
    requires PlainColumns(columns) && other != table
    requires Resolves(r, Leaves(BaseTable(table, oid, None, columns), []), [other, part])
    ensures r == NotFound
  {
    PlainNameNotFound(table, table, ColumnNames(columns), other, part, r);
  }

  lemma OneCTE(sub: BoundSubquery, alias: string)
    requires Named(sub)
    ensures ScopeOk(CTE(sub.alias, alias), [sub])
    ensures Leaves(CTE(sub.alias, alias), [sub]) == ItemLeaves(sub.alias, alias, sub.names)
  {
    var ctes := [sub];
    assert ctes[0].alias == sub.alias;
    assert Defined(sub.alias, ctes) && FindCTE(sub.alias, ctes) == sub;
  }

  /** A reference to a common table expression answers to its alias, but the column it finds carries the expression's
      own name; to that name it does not answer. */
  lemma ReferenceAnswersTo(sub: BoundSubquery, alias: string, k: nat, r: Resolution)
    requires Named(sub) && PlainNames(sub.names) && k < |sub.names|
    ensures ScopeOk(CTE(sub.alias, alias), [sub])
    ensures Resolves(r, Leaves(CTE(sub.alias, alias), [sub]), [alias, Lower(sub.names[k][0])]) ==>
              r == Found([sub.alias, sub.names[k][0]])
    ensures var hidden := [sub.alias, Lower(sub.names[k][0])];
            sub.alias != alias && Resolves(r, Leaves(CTE(sub.alias, alias), [sub]), hidden) ==> r == NotFound
  {
    OneCTE(sub, alias);
    var ls, part := ItemLeaves(sub.alias, alias, sub.names), Lower(sub.names[k][0]);
    if Resolves(r, ls, [alias, part]) {
      PlainNameFound(sub.alias, alias, sub.names, k, [alias, part], r);
    }
    if sub.alias != alias && Resolves(r, ls, [sub.alias, part]) {
      PlainNameNotFound(sub.alias, alias, sub.names, sub.alias, part, r);
    }
  }

  /** A star lists the columns of a stored table behind its alias, or behind its name if it has none. */
  lemma StarOfStoredTable(table: string, oid: nat, columns: Schema, alias: string, k: nat)
    requires k < |columns|
    ensures StarPaths(Leaves(BaseTable(table, oid, Some(alias), columns), []))[k] == [alias, columns[k].name]
    ensures StarPaths(Leaves(BaseTable(table, oid, None, columns), []))[k] == [table, columns[k].name]
  {
    assert [alias] + [columns[k].name] == [alias, columns[k].name];
    assert [table] + [columns[k].name] == [table, columns[k].name];
  }

  // ----- FROM lists and stars -----

  /** A list of tables becomes a left-deep tree of cross products; its columns are those of the tables in order. */
  method BindFrom(tables: seq<TableRef>, ghost ctes: CTEList) returns (scope: TableRef)
    requires tables != [] && forall i :: 0 <= i < |tables| ==> ScopeOk(tables[i], ctes)
    ensures ScopeOk(scope, ctes) && Leaves(scope, ctes) == AllLeaves(tables, ctes)
  {
    scope := tables[0];
    assert tables[..1] == [tables[0]];
    for k := 1 to |tables|
      invariant ScopeOk(scope, ctes) && Leaves(scope, ctes) == AllLeaves(tables[..k], ctes)
    {
      assert tables[..k + 1][..k] == tables[..k];
      scope := CrossProduct(scope, tables[k]);
    }
    assert tables[..|tables|] == tables;
  }

  ghost function AllLeaves(tables: seq<TableRef>, ctes: CTEList): seq<Leaf>
    requires forall i :: 0 <= i < |tables| ==> ScopeOk(tables[i], ctes)
  {
    if tables == [] then [] else AllLeaves(tables[..|tables| - 1], ctes) + Leaves(tables[|tables| - 1], ctes)
  }

  /** What a star stands for: every column in scope, behind the alias it goes by. */
  function StarPaths(ls: seq<Leaf>): (ps: seq<seq<string>>)
    ensures |ps| == |ls|
  {
    seq(|ls|, i requires 0 <= i < |ls| => AliasPath(ls[i]))
  }

  /** For a common table expression the columns are listed under its own name and then moved behind the alias. */
  method GetAllColumns(ref: TableRef, ctes: CTEList) returns (paths: seq<seq<string>>)
    requires ScopeOk(ref, ctes)
    ensures paths == StarPaths(Leaves(ref, ctes))
    decreases ref
  {
    match ref
    case BaseTable(_, _, _, columns) =>
      paths := TableColumns(BoundTableName(ref), columns);
    case CrossProduct(left, right) =>
      paths := GetAllColumns(left, ctes);
      var more := GetAllColumns(right, ctes);
      paths := paths + more;
    case Join(_, left, right, _) =>
      paths := GetAllColumns(left, ctes);
      var more := GetAllColumns(right, ctes);
      paths := paths + more;
    case Subquery(sub) =>
      paths := SubqueryColumns(sub);
    case CTE(name, alias) =>
      var sub := FindCTE(name, ctes);
      paths := SubqueryColumns(sub);
      for k := 0 to |paths|
        invariant |paths| == |sub.names|
        invariant forall i :: 0 <= i < |paths| ==> paths[i] == [if i < k then alias else sub.alias] + sub.names[i]
      {
        paths := paths[k := paths[k][0 := alias]];
      }
  }

  method TableColumns(table: string, columns: Schema) returns (paths: seq<seq<string>>)
    ensures |paths| == |columns|
    ensures forall i :: 0 <= i < |paths| ==> paths[i] == AliasPath(Leaf(table, table, [columns[i].name]))
  {
    paths := [];
    for k := 0 to |columns|
      invariant |paths| == k && forall i :: 0 <= i < k ==> paths[i] == AliasPath(Leaf(table, table, [columns[i].name]))
    {
      assert [table, columns[k].name] == [table] + [columns[k].name];
      paths := paths + [[table, columns[k].name]];
    }
  }

  method SubqueryColumns(sub: BoundSubquery) returns (paths: seq<seq<string>>)
    ensures |paths| == |sub.names| && forall i :: 0 <= i < |paths| ==> paths[i] == [sub.alias] + sub.names[i]
  {
    paths := [];
    for k := 0 to |sub.names|
      invariant |paths| == k && forall i :: 0 <= i < k ==> paths[i] == [sub.alias] + sub.names[i]
    {
      paths := paths + [[sub.alias] + sub.names[k]];
    }
  }
}
