/** Planning of table references: the columns of the plan are the columns in scope, and a resolved name is planned to
    the very column it was resolved to. */
module TablePlans {
  import opened Wrappers
  import opened Values
  import opened Expressions
  import opened Plans
  import opened Naming
  import opened AggregatePlanning
  import opened Scopes
  import opened Strings
  import opened WellFormed

  function ScanSchema(table: string, columns: Schema): (s: Schema)
    ensures |s| == |columns|
  {
    seq(|columns|, i requires 0 <= i < |columns| => Column(table + "." + columns[i].name, columns[i].t))
  }

  predicate StartsWith(s: string, prefix: string) {
    |prefix| <= |s| && s[..|prefix|] == prefix
  }

  /** A mock table becomes an opaque scan of its own. */
  function PlanBaseTable(ref: TableRef): Result<Plan, PlanError>
    requires ref.BaseTable?
  {
    var s := ScanSchema(BoundTableName(ref), ref.columns);
    if StartsWith(ref.table, "__") then
      if StartsWith(ref.table, "__mock") then Ok(Node(Other(ref.oid), s, [])) else Err(UnsupportedTable)
    else Ok(Node(SeqScan(ref.oid, ref.table, None), s, []))
  }

  function Columns(s: Schema): (es: seq<Expr>)
    ensures |es| == |s|
  {
    seq(|s|, i requires 0 <= i < |s| => ColumnValue(0, i, s[i].t))
  }

  /** A projection that only renames the columns of the subquery. */
  function PlanSubquery(sub: BoundSubquery, alias: string): Plan
    requires Named(sub)
  {
    var es := Columns(sub.body.schema);
    var names := seq(|es|, i requires 0 <= i < |es| => alias + "." + JoinPath(sub.names[i]));
    Node(Projection(es), NamedSchema(names, es), [sub.body])
  }

  function JoinPlan(l: Plan, r: Plan, condition: Expr, jt: JoinType): Plan {
    Node(NestedLoopJoin(condition, jt), l.schema + r.schema, [l, r])
  }

  ghost function PlanTableRef(ref: TableRef, ctes: CTEList): Result<Plan, PlanError>
    requires ScopeOk(ref, ctes)
  {
    match ref
    case BaseTable(_, _, _, _) => PlanBaseTable(ref)
    case Subquery(sub) => Ok(PlanSubquery(sub, sub.alias))
    case CTE(name, alias) => Ok(PlanSubquery(FindCTE(name, ctes), alias))
    case CrossProduct(left, right) =>
      (match PlanTableRef(left, ctes)
       case Err(x) => Err(x)
       case Ok(l) =>
         match PlanTableRef(right, ctes)
         case Err(x) => Err(x)
         case Ok(r) => Ok(JoinPlan(l, r, TRUE_EXPR, INNER)))
    case Join(jt, left, right, condition) =>
      (match PlanTableRef(left, ctes)
       case Err(x) => Err(x)
       case Ok(l) =>
         match PlanTableRef(right, ctes)
         case Err(x) => Err(x)
         case Ok(r) =>
           match PlanExpr(condition, [l.schema, r.schema], [], 0)
           case Err(x) => Err(x)
           case Ok(c) => Ok(JoinPlan(l, r, c.expr, jt)))
  }

  // ----- The columns of the plan -----

  /** Column `i` of the schema carries the joined name of column `i` in scope, behind its alias. */
  ghost predicate NamesLeaves(s: Schema, ls: seq<Leaf>) {
    |s| == |ls| && forall i :: 0 <= i < |s| ==> s[i].name == JoinPath(AliasPath(ls[i]))
  }

  lemma JoinCons(a: string, path: seq<string>)
    requires path != []
    ensures JoinPath([a] + path) == a + "." + JoinPath(path)
  {
    assert ([a] + path)[1..] == path;
  }

  lemma BaseTableNames(ref: TableRef, ctes: CTEList)
    requires ref.BaseTable? && PlanBaseTable(ref).Ok?
    ensures NamesLeaves(PlanBaseTable(ref).value.schema, Leaves(ref, ctes))
  {
    var s, ls := PlanBaseTable(ref).value.schema, Leaves(ref, ctes);
    forall i | 0 <= i < |s| ensures s[i].name == JoinPath(AliasPath(ls[i])) {
      JoinCons(BoundTableName(ref), ls[i].item);
    }
  }

  lemma SubqueryNames(sub: BoundSubquery, prefix: string, alias: string)
    requires Named(sub)
    ensures NamesLeaves(PlanSubquery(sub, alias).schema, ItemLeaves(prefix, alias, sub.names))
  {
    var s, ls := PlanSubquery(sub, alias).schema, ItemLeaves(prefix, alias, sub.names);
    forall i | 0 <= i < |s| ensures s[i].name == JoinPath(AliasPath(ls[i])) {
      JoinCons(alias, ls[i].item);
    }
  }

  lemma NamesConcat(s: Schema, ls: seq<Leaf>, s': Schema, ls': seq<Leaf>)
    requires NamesLeaves(s, ls) && NamesLeaves(s', ls')
    ensures NamesLeaves(s + s', ls + ls')
  {
  }

  lemma {:induction false} PlanNamesLeaves(ref: TableRef, ctes: CTEList)
    requires ScopeOk(ref, ctes) && PlanTableRef(ref, ctes).Ok?
    ensures NamesLeaves(PlanTableRef(ref, ctes).value.schema, Leaves(ref, ctes))
    decreases ref
  {
    match ref
    case BaseTable(_, _, _, _) => BaseTableNames(ref, ctes);
    case Subquery(sub) => SubqueryNames(sub, sub.alias, sub.alias);
    case CTE(name, alias) => SubqueryNames(FindCTE(name, ctes), FindCTE(name, ctes).alias, alias);
    case CrossProduct(left, right) => SidesNamed(ref, left, right, ctes);
    case Join(_, left, right, _) => SidesNamed(ref, left, right, ctes);
  }

  lemma {:induction false} SidesNamed(ref: TableRef, left: TableRef, right: TableRef, ctes: CTEList)
    requires ScopeOk(ref, ctes) && PlanTableRef(ref, ctes).Ok?
    requires (ref.CrossProduct? || ref.Join?) && left == ref.left && right == ref.right
    ensures NamesLeaves(PlanTableRef(ref, ctes).value.schema, Leaves(ref, ctes))
    decreases ref, 0
  {
    var ls, rs := Leaves(left, ctes), Leaves(right, ctes);
    PlanNamesLeaves(left, ctes);
    PlanNamesLeaves(right, ctes);
    NamesConcat(PlanTableRef(left, ctes).value.schema, ls, PlanTableRef(right, ctes).value.schema, rs);
  }

  // ----- Joined names tell columns apart -----

  predicate DotFree(path: seq<string>) {
    path != [] && forall i :: 0 <= i < |path| ==> '.' !in path[i]
  }

  lemma {:induction false} JoinPathInjective(p: seq<string>, q: seq<string>)
    requires DotFree(p) && DotFree(q) && JoinPath(p) == JoinPath(q)
    ensures p == q
  {
    var s := JoinPath(p);
    if |p| > 1 {
      assert s[|p[0]|] == '.';
    }
    if |q| > 1 {
      assert s[|q[0]|] == '.';
    }
    assert p[0] <= s && q[0] <= s;
    if |p| == 1 || |q| == 1 {
      assert |p| == |q| by {
        assert |p| > 1 ==> '.' in s;
        assert |q| > 1 ==> '.' in s;
      }
    } else {
      assert |p[0]| == |q[0]|;
      assert p[0] == s[..|p[0]|] == q[0];
      assert s[|p[0]| + 1..] == JoinPath(p[1..]) && s[|q[0]| + 1..] == JoinPath(q[1..]);
      JoinPathInjective(p[1..], q[1..]);
      assert p == [p[0]] + p[1..] && q == [q[0]] + q[1..];
    }
  }

  /** The parts between the dots. */
  function Split(s: string): (parts: seq<string>)
    ensures parts != []
  {
    if s == "" then [""]
    else
      var rest := Split(s[1..]);
      if s[0] == '.' then [""] + rest else [[s[0]] + rest[0]] + rest[1..]
  }

  lemma {:induction false} SplitPart(a: string, s: string)
    requires '.' !in a
    ensures Split(a + s) == [a + Split(s)[0]] + Split(s)[1..]
  {
    if a == "" {
      assert a + s == s && a + Split(s)[0] == Split(s)[0];
      assert Split(s) == [Split(s)[0]] + Split(s)[1..];
    } else {
      assert (a + s)[1..] == a[1..] + s;
      SplitPart(a[1..], s);
      assert a == [a[0]] + a[1..];
      assert [a[0]] + (a[1..] + Split(s)[0]) == a + Split(s)[0];
    }
  }

  /** A joined name falls apart at its dots into the parts it was joined from. */
  lemma {:induction false} JoinedNameSplits(path: seq<string>)
    requires DotFree(path)
    ensures Split(JoinPath(path)) == path
  {
    if |path| == 1 {
      SplitPart(path[0], "");
      assert path[0] + "" == path[0];
    } else {
      var rest := "." + JoinPath(path[1..]);
      assert rest[1..] == JoinPath(path[1..]);
      JoinedNameSplits(path[1..]);
      SplitPart(path[0], rest);
      assert Split(rest) == [""] + path[1..];
      assert JoinPath(path) == path[0] + rest;
      assert path[0] + "" == path[0];
    }
  }

  // ----- Resolved names and planned columns -----

  ghost predicate DotFreeScope(ls: seq<Leaf>) {
    forall i :: 0 <= i < |ls| ==> DotFree(BoundPath(ls[i])) && DotFree(AliasPath(ls[i]))
  }

  /** Column `i` is the one that was found. */
  ghost predicate FoundAt(ls: seq<Leaf>, name: seq<string>, path: seq<string>, i: nat) {
    i < |ls| && WayCount(ls, name) == 1 && Ways(ls[i], name) == 1 && path == BoundPath(ls[i])
  }

  /** Behind one item, joined names tell the names before it apart, dots or not. */
  lemma PrefixTold(a: string, b: string, item: seq<string>)
    requires item != []
    ensures JoinPath([a] + item) == JoinPath([b] + item) <==> a == b
  {
    JoinCons(a, item);
    JoinCons(b, item);
    var x, y, rest := JoinPath([a] + item), JoinPath([b] + item), "." + JoinPath(item);
    assert x == a + rest && y == b + rest;
    assert x[..|x| - |rest|] == a && y[..|y| - |rest|] == b;
  }

  /** The planner maps the path of a column in scope to that very column, whatever the identifiers, if and only if the
      column goes by the name the binder put before it and no other column has its joined name. */
  lemma ResolvedIsPlanned(s: Schema, ls: seq<Leaf>, path: seq<string>, i: nat)
    requires NamesLeaves(s, ls) && i < |ls| && path == BoundPath(ls[i]) && ls[i].item != []
    ensures PlanColumn(path, [s]) == Ok(ColumnValue(0, i, s[i].t))
       <==> ls[i].prefix == ls[i].alias && !NameRepeats(s, s[i].name)
  {
    PrefixTold(ls[i].prefix, ls[i].alias, ls[i].item);
    assert s[i].name == JoinPath(path) <==> ls[i].prefix == ls[i].alias;
  }

  /** The side and the place on it of a column of a join. */
  function SideColumn(s: Schema, s': Schema, i: nat): Expr
    requires i < |s| + |s'|
  {
    if i < |s| then ColumnValue(0, i, s[i].t) else ColumnValue(1, i - |s|, s'[i - |s|].t)
  }

  /** The name of column `i` stands before it, or on the other side of the join. */
  ghost predicate Shadowed(s: Schema, s': Schema, i: nat)
    requires i < |s| + |s'|
  {
    exists j :: 0 <= j < |s| + |s'| && (s + s')[j].name == (s + s')[i].name && (j < i || i < |s| <= j)
  }

  /** On each side the first column of a name is taken, and a name on both sides is refused. */
  lemma PlannedInJoinIff(s: Schema, s': Schema, path: seq<string>, i: nat)
    requires i < |s| + |s'|
    ensures PlanColumn(path, [s, s']) == Ok(SideColumn(s, s', i))
       <==> (s + s')[i].name == JoinPath(path) && !Shadowed(s, s', i)
  {
    var all, name := s + s', JoinPath(path);
    assert forall j :: 0 <= j < |s| ==> all[j] == s[j];
    assert forall j :: 0 <= j < |s'| ==> all[|s| + j] == s'[j];
    if all[i].name == name {
      if l :| TryGetColIdx(s, name) == Some(l) {
        assert all[l].name == name;
      }
      if r :| TryGetColIdx(s', name) == Some(r) {
        assert all[|s| + r].name == name;
      }
      if j :| 0 <= j < |all| && all[j].name == name && (j < i || i < |s| <= j) {
        assert Shadowed(s, s', i);
      }
    }
  }

  /** The same over the two sides of a join: the condition reads the very column that was resolved, if and only if it
      goes by the name it was bound under and its joined name is not shadowed. */
  lemma ResolvedIsPlannedInJoin(s: Schema, ls: seq<Leaf>, s': Schema, ls': seq<Leaf>, path: seq<string>, i: nat)
    requires NamesLeaves(s, ls) && NamesLeaves(s', ls') && i < |ls + ls'|
    requires path == BoundPath((ls + ls')[i]) && (ls + ls')[i].item != []
    ensures PlanColumn(path, [s, s']) == Ok(SideColumn(s, s', i))
       <==> (ls + ls')[i].prefix == (ls + ls')[i].alias && !Shadowed(s, s', i)
  {
    var leaf := (ls + ls')[i];
    NamesConcat(s, ls, s', ls');
    PrefixTold(leaf.prefix, leaf.alias, leaf.item);
    PlannedInJoinIff(s, s', path, i);
  }

  // ----- Without dots in identifiers -----

  /** A column of the joined name of the found column would have been meant as well. */
  lemma OnlyOneOfThatName(s: Schema, ls: seq<Leaf>, name: seq<string>, path: seq<string>, i: nat, j: nat)
    requires NamesLeaves(s, ls) && DotFreeScope(ls) && FoundAt(ls, name, path, i) && j < |ls|
    requires ls[i].prefix == ls[i].alias && s[j].name == s[i].name
    ensures j == i
  {
    JoinPathInjective(AliasPath(ls[j]), AliasPath(ls[i]));
    assert ls[j].item == AliasPath(ls[j])[1..] == AliasPath(ls[i])[1..] == ls[i].item;
    assert ls[j].alias == AliasPath(ls[j])[0] == ls[i].alias;
    assert Ways(ls[j], name) == Ways(ls[i], name);
    if i < j {
      CountTwo(ls, name, i, j);
    } else if j < i {
      CountTwo(ls, name, j, i);
    }
  }

  /** So a name that was resolved over dot-free identifiers neither repeats nor is shadowed. */
  lemma DotFreeUnique(s: Schema, ls: seq<Leaf>, name: seq<string>, path: seq<string>, i: nat)
    requires NamesLeaves(s, ls) && DotFreeScope(ls) && FoundAt(ls, name, path, i) && ls[i].prefix == ls[i].alias
    ensures !NameRepeats(s, s[i].name)
    ensures forall left, right :: s == left + right ==> !Shadowed(left, right, i)
  {
    forall j | 0 <= j < |s| && s[j].name == s[i].name ensures j == i {
      OnlyOneOfThatName(s, ls, name, path, i, j);
    }
  }

  /** No common table expression is given another name. */
  predicate Unrenamed(ref: TableRef) {
    match ref
    case CrossProduct(l, r) => Unrenamed(l) && Unrenamed(r)
    case Join(_, l, r, _) => Unrenamed(l) && Unrenamed(r)
    case CTE(name, alias) => name == alias
    case _ => true
  }

  lemma {:induction false} UnrenamedLeaves(ref: TableRef, ctes: CTEList)
    requires ScopeOk(ref, ctes) && Unrenamed(ref)
    ensures forall l :: l in Leaves(ref, ctes) ==> l.prefix == l.alias
    decreases ref
  {
    if ref.CrossProduct? || ref.Join? {
      UnrenamedLeaves(ref.left, ctes);
      UnrenamedLeaves(ref.right, ctes);
    }
  }

  lemma {:induction false} LeavesNamed(ref: TableRef, ctes: CTEList)
    requires ScopeOk(ref, ctes)
    ensures forall l :: l in Leaves(ref, ctes) ==> l.item != []
    decreases ref
  {
    if ref.CrossProduct? || ref.Join? {
      LeavesNamed(ref.left, ctes);
      LeavesNamed(ref.right, ctes);
    }
  }

  /** Over every scope: the planner finds for a resolved name the very column it was resolved to, if and only if that
      column goes by the name it was bound under and its joined name is unique. Without renamed common table expressions
      and without dots in identifiers it always does. */
  lemma ResolvedColumnFound(ref: TableRef, ctes: CTEList, name: seq<string>, path: seq<string>) returns (i: nat)
    requires ScopeOk(ref, ctes) && PlanTableRef(ref, ctes).Ok? && Resolves(Found(path), Leaves(ref, ctes), name)
    ensures FoundAt(Leaves(ref, ctes), name, path, i)
    ensures var s, ls := PlanTableRef(ref, ctes).value.schema, Leaves(ref, ctes);
            && |s| == |ls|
            && (PlanColumn(path, [s]) == Ok(ColumnValue(0, i, s[i].t))
                <==> ls[i].prefix == ls[i].alias && !NameRepeats(s, s[i].name))
            && (Unrenamed(ref) && DotFreeScope(ls) ==> PlanColumn(path, [s]) == Ok(ColumnValue(0, i, s[i].t)))
  {
    var s, ls := PlanTableRef(ref, ctes).value.schema, Leaves(ref, ctes);
    i :| 0 <= i < |ls| && Ways(ls[i], name) == 1 && path == BoundPath(ls[i]);
    PlanNamesLeaves(ref, ctes);
    LeavesNamed(ref, ctes);
    ResolvedIsPlanned(s, ls, path, i);
    if Unrenamed(ref) && DotFreeScope(ls) {
      UnrenamedLeaves(ref, ctes);
      DotFreeUnique(s, ls, name, path, i);
    }
  }

  /** The table "a.b" with column "c" beside the table "a" with column "b.c". */
  function DottedScope(t: TypeId): TableRef {
    CrossProduct(BaseTable("a.b", 0, None, [Column("c", t)]), BaseTable("a", 1, None, [Column("b.c", t)]))
  }

  lemma TwoTables(l: TableRef, r: TableRef)
    requires l.BaseTable? && r.BaseTable? && |l.columns| == |r.columns| == 1
    requires !StartsWith(l.table, "__") && !StartsWith(r.table, "__")
    ensures ScopeOk(CrossProduct(l, r), []) && PlanTableRef(CrossProduct(l, r), []).Ok?
    ensures Leaves(CrossProduct(l, r), []) ==
              [Leaf(BoundTableName(l), BoundTableName(l), [l.columns[0].name]),
               Leaf(BoundTableName(r), BoundTableName(r), [r.columns[0].name])]
  {
    assert ScopeOk(l, []) && ScopeOk(r, []);
    assert PlanTableRef(l, []).Ok? && PlanTableRef(r, []).Ok?;
  }

  lemma DottedScopePlans(t: TypeId)
    ensures var ref := DottedScope(t);
            && ScopeOk(ref, []) && PlanTableRef(ref, []).Ok?
            && Leaves(ref, []) == [Leaf("a.b", "a.b", ["c"]), Leaf("a", "a", ["b.c"])]
  {
    assert "a.b"[..2][0] == 'a' && "__"[0] == '_' && |"a"| < |"__"|;
    TwoTables(DottedScope(t).left, DottedScope(t).right);
  }

  /** Dots in identifiers: there the name a.b, c means column 0 only, but both columns have the joined name a.b.c, and
      the planner refuses it as duplicated. */
  lemma DottedNamesCollide(t: TypeId)
    ensures var ref, name := DottedScope(t), ["a.b", "c"];
            && ScopeOk(ref, []) && FoundAt(Leaves(ref, []), name, name, 0) && PlanTableRef(ref, []).Ok?
            && PlanColumn(name, [PlanTableRef(ref, []).value.schema]) == Err(DuplicatedColumn)
  {
    var ref, name := DottedScope(t), ["a.b", "c"];
    DottedScopePlans(t);
    DottedMeansOne(Leaves(ref, []), name);
    PlanNamesLeaves(ref, []);
    DottedNamesEqual();
    var s := PlanTableRef(ref, []).value.schema;
    assert s[0].name == s[1].name == JoinPath(name);
    assert NameRepeats(s, JoinPath(name));
  }

  lemma DottedNamesEqual()
    ensures JoinPath(["a.b"] + ["c"]) == JoinPath(["a"] + ["b.c"])
    ensures ["a.b"] + ["c"] == ["a.b", "c"]
  {
    assert JoinPath(["c"]) == "c" && JoinPath(["b.c"]) == "b.c";
    JoinCons("a.b", ["c"]);
    JoinCons("a", ["b.c"]);
  }

  lemma DottedMeansOne(ls: seq<Leaf>, name: seq<string>)
    requires ls == [Leaf("a.b", "a.b", ["c"]), Leaf("a", "a", ["b.c"])] && name == ["a.b", "c"]
    ensures FoundAt(ls, name, name, 0)
  {
    assert Lower("c") == "c" && LowerAll(["c"]) == ["c"] && |Lower("b.c")| == 3;
    assert name[1..] == ["c"] && BoundPath(ls[0]) == name;
    assert Ways(ls[0], name) == 1 && Ways(ls[1], name) == 0;
    assert ls[..1] == [ls[0]] && ls[..1][..0] == [];
    assert WayCount(ls[..1], name) == 1;
  }

  /** The common table expression c, of one column x, under the alias d and under its own name. */
  function RenamedScope(): TableRef {
    CrossProduct(CTE("c", "d"), CTE("c", "c"))
  }

  lemma RenamedScopePlans(sub: BoundSubquery)
    requires Named(sub) && sub.alias == "c" && sub.names == [["x"]]
    ensures var ref := RenamedScope();
            && ScopeOk(ref, [sub]) && Leaves(ref, [sub]) == [Leaf("c", "d", ["x"]), Leaf("c", "c", ["x"])]
            && PlanTableRef(ref, [sub]) == Ok(RenamedPlan(sub))
  {
    var ref, ctes := RenamedScope(), [sub];
    assert ctes[0].alias == "c";
    assert Defined("c", ctes) && FindCTE("c", ctes) == sub;
    assert ScopeOk(ref.left, ctes) && ScopeOk(ref.right, ctes);
  }

  lemma RenamedMeansOne(ls: seq<Leaf>)
    requires ls == [Leaf("c", "d", ["x"]), Leaf("c", "c", ["x"])]
    ensures FoundAt(ls, ["d", "x"], ["c", "x"], 0)
  {
    var name := ["d", "x"];
    assert Lower("x") == "x" && LowerAll(["x"]) == ["x"] && name[1..] == ["x"];
    assert Ways(ls[0], name) == 1 && Ways(ls[1], name) == 0;
    assert ls[..1] == [ls[0]] && ls[..1][..0] == [];
    assert WayCount(ls[..1], name) == 1;
  }

  lemma SecondOfTwo(s: Schema, path: seq<string>)
    requires |s| == 2 && s[0].name != JoinPath(path) && s[1].name == JoinPath(path)
    ensures PlanColumn(path, [s]) == Ok(ColumnValue(0, 1, s[1].t))
  {
  }

  function RenamedPlan(sub: BoundSubquery): Plan
    requires Named(sub)
  {
    JoinPlan(PlanSubquery(sub, "d"), PlanSubquery(sub, "c"), TRUE_EXPR, INNER)
  }

  lemma RenamedPlanned(sub: BoundSubquery)
    requires Named(sub) && sub.names == [["x"]]
    ensures PlanColumn(["c", "x"], [RenamedPlan(sub).schema]) == Ok(ColumnValue(0, 1, sub.body.schema[0].t))
  {
    var s := RenamedPlan(sub).schema;
    SubqueryNames(sub, "c", "d");
    SubqueryNames(sub, "c", "c");
    PrefixTold("d", "c", ["x"]);
    assert ["c"] + ["x"] == ["c", "x"];
    SecondOfTwo(s, ["c", "x"]);
  }

  /** In `FROM c AS d, c` the name d.x means column 0, but is planned to column 1. */
  lemma RenamedReadsOtherColumn(sub: BoundSubquery)
    requires Named(sub) && sub.alias == "c" && sub.names == [["x"]]
    ensures var ref, ctes := RenamedScope(), [sub];
            && ScopeOk(ref, ctes) && FoundAt(Leaves(ref, ctes), ["d", "x"], ["c", "x"], 0)
            && PlanTableRef(ref, ctes).Ok?
            && PlanColumn(["c", "x"], [PlanTableRef(ref, ctes).value.schema])
               == Ok(ColumnValue(0, 1, sub.body.schema[0].t))
  {
    RenamedScopePlans(sub);
    RenamedMeansOne(Leaves(RenamedScope(), [sub]));
    RenamedPlanned(sub);
  }

}
