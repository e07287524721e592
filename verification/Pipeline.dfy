/** Whole passes and whole pipelines: meaning, order of the rules, existence of results. */
module Pipeline {
  import opened Values
  import opened Expressions
  import opened Ordering
  import opened Plans
  import opened Rules
  import opened WellFormed
  import opened Soundness

  // ----- One pass -----

  /** What one pass of `rule` guarantees about its result `q` for the plan `p`. */
  ghost predicate PassResult(rule: Rule, cat: Catalog, db: Database, p: Plan, q: Plan) {
    && PlanOk(cat, q)
    && Refines(q, p, db) && SpineKept(q, p)
    && Types(q.schema) == Types(p.schema)
    && (rule != EliminateTrueFilter ==> q.schema == p.schema)
    && (rule != MergeFilterScan && NoScanFilters(p) ==> NoScanFilters(q))
  }

  lemma RewriteKeepsNoScanFilters(rule: Rule, cat: Catalog, p: Plan)
    requires NoScanFilters(p) && rule != MergeFilterScan && Rewrite(rule, cat, p).Some?
    ensures NoScanFilters(Rewrite(rule, cat, p).value)
  {
    var q := Rewrite(rule, cat, p).value;
    if q != p && p.children != [] {
      assert NoScanFilters(p.children[0]);
    }
  }

  /** One node over children that went through the pass. */
  lemma NodePass(rule: Rule, cat: Catalog, db: Database, p: Plan, kids: seq<Plan>)
    requires PlanOk(cat, p) && Agrees(cat, db) && |kids| == |p.children|
    requires DropsScanFilter(rule) ==> NoScanFilters(p)
    requires forall i :: 0 <= i < |kids| ==> PassResult(rule, cat, db, p.children[i], kids[i])
    ensures var p' := p.(children := kids);
            && PlanOk(cat, p') && Refines(p', p, db) && SpineKept(p', p)
            && (rule != MergeFilterScan && NoScanFilters(p) ==> NoScanFilters(p'))
  {
    assert KidTypes(kids) == KidTypes(p.children);
    CloneRefines(p.kind, p.schema, kids, p.children, db);
    if |kids| == 1 {
      assert PassResult(rule, cat, db, p.children[0], kids[0]);
    }
  }

  lemma {:induction false} PassSound(rule: Rule, cat: Catalog, db: Database, p: Plan)
    requires PlanOk(cat, p) && Agrees(cat, db)
    requires DropsScanFilter(rule) ==> NoScanFilters(p)
    ensures BottomUp(rule, cat, p).Some?
    ensures PassResult(rule, cat, db, p, BottomUp(rule, cat, p).value)
    decreases p, 1
  {
    PassSoundAll(rule, cat, db, p.children);
    var kids := BottomUpAll(rule, cat, p.children).value;
    NodePass(rule, cat, db, p, kids);
    RewriteSound(rule, cat, db, p.(children := kids));
    RefinesTransitive(BottomUp(rule, cat, p).value, p.(children := kids), p, db);
  }

  lemma RewriteSound(rule: Rule, cat: Catalog, db: Database, p: Plan)
    requires PlanOk(cat, p) && Agrees(cat, db)
    requires DropsScanFilter(rule) ==> NoScanFilters(p)
    ensures Rewrite(rule, cat, p).Some?
    ensures PassResult(rule, cat, db, p, Rewrite(rule, cat, p).value)
  {
    RewriteSucceeds(rule, cat, p);
    RewriteKeepsOk(rule, cat, p);
    RewriteKeepsSpine(rule, cat, p);
    RewriteKeepsSchema(rule, cat, p);
    RewriteRefines(rule, cat, db, p);
    if rule != MergeFilterScan && NoScanFilters(p) {
      RewriteKeepsNoScanFilters(rule, cat, p);
    }
  }

  lemma PassedCons(rule: Rule, cat: Catalog, db: Database, ps: seq<Plan>, q: Plan, qs: seq<Plan>)
    requires |ps| == |qs| + 1 && PassResult(rule, cat, db, ps[0], q)
    requires forall i :: 0 <= i < |qs| ==> PassResult(rule, cat, db, ps[1..][i], qs[i])
    ensures forall i :: 0 <= i < |ps| ==> PassResult(rule, cat, db, ps[i], ([q] + qs)[i])
  {
    forall i | 0 < i < |ps| ensures PassResult(rule, cat, db, ps[i], ([q] + qs)[i]) {
      assert PassResult(rule, cat, db, ps[1..][i - 1], qs[i - 1]);
    }
  }

  lemma {:induction false} PassSoundAll(rule: Rule, cat: Catalog, db: Database, ps: seq<Plan>)
    requires Agrees(cat, db)
    requires forall i :: 0 <= i < |ps| ==> PlanOk(cat, ps[i]) && (DropsScanFilter(rule) ==> NoScanFilters(ps[i]))
    ensures BottomUpAll(rule, cat, ps).Some?
    ensures forall i :: 0 <= i < |ps| ==> PassResult(rule, cat, db, ps[i], BottomUpAll(rule, cat, ps).value[i])
    decreases ps, 0
  {
    if ps != [] {
      PassSound(rule, cat, db, ps[0]);
      PassSoundAll(rule, cat, db, ps[1..]);
      PassedCons(rule, cat, db, ps, BottomUp(rule, cat, ps[0]).value, BottomUpAll(rule, cat, ps[1..]).value);
    }
  }

  // ----- Pipelines -----

  /** No rule that drops scan filters runs after the rule that creates them. */
  predicate OrderSafe(rules: seq<Rule>) {
    forall i, j :: 0 <= i < j < |rules| ==> !(rules[i] == MergeFilterScan && DropsScanFilter(rules[j]))
  }

  lemma {:induction false} PipelineSound(rules: seq<Rule>, cat: Catalog, db: Database, p: Plan)
    requires PlanOk(cat, p) && Agrees(cat, db) && OrderSafe(rules)
    requires NoScanFilters(p) || forall r :: r in rules ==> !DropsScanFilter(r)
    ensures RunRules(rules, cat, p).Some?
    ensures var q := RunRules(rules, cat, p).value;
            && PlanOk(cat, q) && Refines(q, p, db) && Types(q.schema) == Types(p.schema)
            && (EliminateTrueFilter !in rules ==> q.schema == p.schema)
  {
    if rules != [] {
      var rule := rules[0];
      if !IsStub(rule) {
        assert DropsScanFilter(rule) ==> rule in rules;
        PassSound(rule, cat, db, p);
      }
      var p' := RunRule(rule, cat, p).value;
      if rule == MergeFilterScan {
        forall r | r in rules[1..] ensures !DropsScanFilter(r) {
          var k :| 0 <= k < |rules[1..]| && rules[1..][k] == r;
          assert rules[k + 1] == r;
        }
      }
      PipelineSound(rules[1..], cat, db, p');
      RefinesTransitive(RunRules(rules, cat, p).value, p', p, db);
    }
  }

  /** The optimizer, with either pipeline, accepts every well-formed planner output, and returns a plan with the
      same output schema whose every result is a result of the plan it was given. */
  lemma OptimizeSound(forceStarterRule: bool, cat: Catalog, db: Database, p: Plan)
    requires PlanOk(cat, p) && Agrees(cat, db) && NoScanFilters(p)
    ensures Optimize(forceStarterRule, cat, p).Some?
    ensures var q := Optimize(forceStarterRule, cat, p).value;
            q.schema == p.schema && PlanOk(cat, q) && Refines(q, p, db)
  {
    assert OrderSafe(STARTER_RULES) && EliminateTrueFilter !in STARTER_RULES;
    assert OrderSafe(CUSTOM_RULES) && EliminateTrueFilter !in CUSTOM_RULES;
    PipelineSound(if forceStarterRule then STARTER_RULES else CUSTOM_RULES, cat, db, p);
  }

  /** A sorted query stays sorted, and keeps its rows, through the whole pipeline. */
  lemma OptimizedSortStaysSorted(forceStarterRule: bool, cat: Catalog, db: Database, p: Plan, rows: seq<Row>)
    requires PlanOk(cat, p) && Agrees(cat, db) && NoScanFilters(p) && p.kind.Sort?
    requires Optimize(forceStarterRule, cat, p).Some? && Produces(Optimize(forceStarterRule, cat, p).value, db, rows)
    ensures SortedBy(p.kind.orderBys, rows)
    ensures exists xs: seq<Row> :: Produces(p.children[0], db, xs) && multiset(rows) == multiset(xs)
  {
    OptimizeSound(forceStarterRule, cat, db, p);
    assert KidTypes(p.children) == [Types(p.schema)];
    assert p == Node(p.kind, p.schema, [p.children[0]]);
    ProducesOne(p.kind, p.schema, p.children[0], db, rows);
  }

  // ----- Results exist -----

  ghost predicate OtherAnswers(db: Database, tag: nat, ins: seq<seq<Row>>, w: nat) {
    exists rows: seq<Row> :: AllWidth(rows, w) && db.other(tag, ins, rows)
  }

  ghost predicate OthersAnswer(db: Database) {
    forall tag: nat, ins: seq<seq<Row>>, w: nat :: OtherAnswers(db, tag, ins, w)
  }

  ghost function SomeListing(s: set<Row>): (keys: seq<Row>)
    ensures ListsKeys(keys, s)
  {
    if s == {} then []
    else
      var k :| k in s;
      var rest := SomeListing(s - {k});
      assert forall i :: 0 <= i < |rest| ==> rest[i] in rest;
      [k] + rest
  }

  /** No node of the plan is opaque. */
  predicate NoOthers(p: Plan) {
    !p.kind.Other? && forall i :: 0 <= i < |p.children| ==> NoOthers(p.children[i])
  }

  /** Every well-formed plan has a result, so refinement is never empty. */
  lemma {:induction false} Answers(cat: Catalog, db: Database, p: Plan) returns (rows: seq<Row>)
    requires PlanOk(cat, p) && Agrees(cat, db) && (OthersAnswer(db) || NoOthers(p))
    ensures Produces(p, db, rows)
    decreases p, 1
  {
    var ins := AnswersAll(cat, db, p.children);
    ProducesAllAt(p.children, db, ins);
    match p.kind
    case SeqScan(oid, _, f) =>
      assert TableAgrees(cat, db, oid);
      rows := FilterOptional(f, db.tables[oid]);
    case IndexScan(oid, index) =>
      assert TableAgrees(cat, db, oid);
      rows := PickRows(db.tables[oid], db.indexes[index].entries);
    case Filter(e) => rows := FilterRows(e, ins[0]);
    case NestedLoopJoin(e, jt) => rows := JoinRows(e, jt, ins[0], ins[1], NullRow(KidTypes(p.children)[1]));
    case NestedIndexJoin(key, oid, index, _, _, inner, jt) =>
      assert TableAgrees(cat, db, oid);
      rows := IndexJoinRows(key, jt, ins[0], db.tables[oid], db.indexes[index].keyAttrs[0],
                            db.indexes[index].entries, NullRow(Types(inner)));
    case Projection(es) => rows := ProjectRows(es, ins[0]);
    case Sort(orders) => rows := SortRows(orders, ins[0]);
    case Limit(n) => rows := if n < |ins[0]| then ins[0][..n] else ins[0];
    case ValuesList(cells) => rows := seq(|cells|, i requires 0 <= i < |cells| => EvalAll(cells[i], []));
    case Aggregation(groupBys, inputs, types) =>
      var keys := SomeListing(GroupKeys(groupBys, ins[0]));
      rows := AggregateRows(db, groupBys, inputs, types, ins[0], keys);
    case Other(tag) =>
      assert OtherAnswers(db, tag, ins, |p.schema|);
      rows :| AllWidth(rows, |p.schema|) && db.other(tag, ins, rows);
    assert Denotes(p.kind, p.schema, KidTypes(p.children), db, ins, rows);
  }

  lemma {:induction false} AnswersAll(cat: Catalog, db: Database, ps: seq<Plan>) returns (ins: seq<seq<Row>>)
    requires Agrees(cat, db)
    requires forall i :: 0 <= i < |ps| ==> PlanOk(cat, ps[i]) && (OthersAnswer(db) || NoOthers(ps[i]))
    ensures ProducesAll(ps, db, ins)
    decreases ps, 0
  {
    if ps == [] {
      ins := [];
    } else {
      var head := Answers(cat, db, ps[0]);
      var tail := AnswersAll(cat, db, ps[1..]);
      ins := [head] + tail;
      assert ins[1..] == tail;
    }
  }

  // ----- Rules bring in no opaque nodes -----

  lemma RewriteKeepsNoOthers(rule: Rule, cat: Catalog, p: Plan)
    requires NoOthers(p) && Rewrite(rule, cat, p).Some?
    ensures NoOthers(Rewrite(rule, cat, p).value)
  {
    if |p.children| > 0 {
      assert NoOthers(p.children[0]);
    }
  }

  lemma {:induction false} PassKeepsNoOthers(rule: Rule, cat: Catalog, p: Plan)
    requires NoOthers(p) && BottomUp(rule, cat, p).Some?
    ensures NoOthers(BottomUp(rule, cat, p).value)
    decreases p, 1
  {
    PassKeepsNoOthersAll(rule, cat, p.children);
    RewriteKeepsNoOthers(rule, cat, p.(children := BottomUpAll(rule, cat, p.children).value));
  }

  lemma {:induction false} PassKeepsNoOthersAll(rule: Rule, cat: Catalog, ps: seq<Plan>)
    requires (forall i :: 0 <= i < |ps| ==> NoOthers(ps[i])) && BottomUpAll(rule, cat, ps).Some?
    ensures forall i :: 0 <= i < |ps| ==> NoOthers(BottomUpAll(rule, cat, ps).value[i])
    decreases ps, 0
  {
    if ps != [] {
      PassKeepsNoOthers(rule, cat, ps[0]);
      PassKeepsNoOthersAll(rule, cat, ps[1..]);
    }
  }

  lemma {:induction false} RulesKeepNoOthers(rules: seq<Rule>, cat: Catalog, p: Plan)
    requires NoOthers(p) && RunRules(rules, cat, p).Some?
    ensures NoOthers(RunRules(rules, cat, p).value)
  {
    if rules != [] {
      if !IsStub(rules[0]) {
        PassKeepsNoOthers(rules[0], cat, p);
      }
      RulesKeepNoOthers(rules[1..], cat, RunRule(rules[0], cat, p).value);
    }
  }

  /** The optimized plan has some result, and that result answers the original plan. */
  lemma OptimizedPlanAnswers(forceStarterRule: bool, cat: Catalog, db: Database, p: Plan) returns (rows: seq<Row>)
    requires PlanOk(cat, p) && Agrees(cat, db) && NoScanFilters(p) && (OthersAnswer(db) || NoOthers(p))
    ensures Optimize(forceStarterRule, cat, p).Some?
    ensures Produces(Optimize(forceStarterRule, cat, p).value, db, rows) && Produces(p, db, rows)
  {
    OptimizeSound(forceStarterRule, cat, db, p);
    if NoOthers(p) {
      RulesKeepNoOthers(if forceStarterRule then STARTER_RULES else CUSTOM_RULES, cat, p);
    }
    rows := Answers(cat, db, Optimize(forceStarterRule, cat, p).value);
  }
}
