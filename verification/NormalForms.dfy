/** One bottom-up pass leaves nothing for the rule to do, so a second pass changes nothing. */
module NormalForms {
  import opened Wrappers
  import opened Plans
  import opened Rules

  /** The pattern a rule looks for, as the rule's documentation describes it. */
  ghost predicate IsRedex(rule: Rule, cat: Catalog, p: Plan) {
    match rule
    case MergeProjection =>
      // a projection of each column of the child onto itself, types unchanged
      && p.kind.Projection? && |p.children| == 1
      && Types(p.children[0].schema) == Types(p.schema)
      && IdentityFrom(p.kind.exprs, 0)
    case MergeFilterNLJ =>
      // a filter directly over an always-true join
      && p.kind.Filter? && |p.children| == 1
      && p.children[0].kind.NestedLoopJoin?
      && IsPredicateTrue(p.children[0].kind.joinPredicate) == Some(true)
    case NLJAsIndexJoin =>
      // a join on one column of each side, the right side a scan of a table indexed on its column
      && p.kind.NestedLoopJoin? && |p.children| == 2
      && EquiJoinColumns(p.kind.joinPredicate).Some?
      && p.children[1].kind.SeqScan?
      && exists x :: x in TableIndexes(cat, p.children[1].kind.tableName)
                     && x.keyAttrs == [EquiJoinColumns(p.kind.joinPredicate).value.1.colIdx]
    case OrderByAsIndexScan =>
      // an ascending sort by columns over a scan of a table with an index on just these columns
      && p.kind.Sort? && |p.children| == 1
      && SortColumns(p.kind.orderBys).Some?
      && p.children[0].kind.SeqScan?
      && p.children[0].kind.tableOid in cat.tables
      && exists x :: x in TableIndexes(cat, cat.tables[p.children[0].kind.tableOid].name)
                     && x.keyAttrs == SortColumns(p.kind.orderBys).value
    case MergeFilterScan =>
      // a filter directly over a scan without a filter
      && p.kind.Filter? && |p.children| == 1
      && p.children[0].kind.SeqScan? && p.children[0].kind.scanFilter.None?
    case EliminateTrueFilter =>
      // a constant-true filter
      p.kind.Filter? && IsPredicateTrue(p.kind.predicate_) == Some(true)
    case _ => false
  }

  ghost predicate NormalForm(rule: Rule, cat: Catalog, p: Plan) {
    !IsRedex(rule, cat, p) && forall i :: 0 <= i < |p.children| ==> NormalForm(rule, cat, p.children[i])
  }

  /** The rule changes no node of the plan. */
  ghost predicate Stable(rule: Rule, cat: Catalog, p: Plan) {
    Rewrite(rule, cat, p) == Some(p) && forall i :: 0 <= i < |p.children| ==> Stable(rule, cat, p.children[i])
  }

  lemma RewriteIsStable(rule: Rule, cat: Catalog, p: Plan)
    requires forall i :: 0 <= i < |p.children| ==> Stable(rule, cat, p.children[i])
    requires Rewrite(rule, cat, p).Some?
    ensures Stable(rule, cat, Rewrite(rule, cat, p).value)
  {
    var q := Rewrite(rule, cat, p).value;
    if q != p && p.children != [] {
      var child := p.children[0];
      assert Stable(rule, cat, child);
      if rule == MergeFilterNLJ {
        forall i | 0 <= i < |child.children| ensures Stable(rule, cat, child.children[i]) {
        }
      }
    }
  }

  lemma {:induction false} PassIsStable(rule: Rule, cat: Catalog, p: Plan)
    requires BottomUp(rule, cat, p).Some?
    ensures Stable(rule, cat, BottomUp(rule, cat, p).value)
    decreases p, 1
  {
    PassIsStableAll(rule, cat, p.children);
    RewriteIsStable(rule, cat, p.(children := BottomUpAll(rule, cat, p.children).value));
  }

  lemma {:induction false} PassIsStableAll(rule: Rule, cat: Catalog, ps: seq<Plan>)
    requires BottomUpAll(rule, cat, ps).Some?
    ensures forall i :: 0 <= i < |ps| ==> Stable(rule, cat, BottomUpAll(rule, cat, ps).value[i])
    decreases ps, 0
  {
    if ps != [] {
      PassIsStable(rule, cat, ps[0]);
      PassIsStableAll(rule, cat, ps[1..]);
    }
  }

  lemma {:induction false} StableUnchanged(rule: Rule, cat: Catalog, p: Plan)
    requires Stable(rule, cat, p)
    ensures BottomUp(rule, cat, p) == Some(p)
    decreases p, 1
  {
    StableUnchangedAll(rule, cat, p.children);
  }

  lemma {:induction false} StableUnchangedAll(rule: Rule, cat: Catalog, ps: seq<Plan>)
    requires forall i :: 0 <= i < |ps| ==> Stable(rule, cat, ps[i])
    ensures BottomUpAll(rule, cat, ps) == Some(ps)
    decreases ps, 0
  {
    if ps != [] {
      StableUnchanged(rule, cat, ps[0]);
      StableUnchangedAll(rule, cat, ps[1..]);
      assert ps == [ps[0]] + ps[1..];
    }
  }

  /** A node the rule leaves alone does not have the rule's pattern: the rewrite of a pattern is another plan. */
  lemma StableNotRedex(rule: Rule, cat: Catalog, p: Plan)
    requires Rewrite(rule, cat, p) == Some(p)
    ensures !IsRedex(rule, cat, p)
  {
  }

  lemma {:induction false} StableIsNormal(rule: Rule, cat: Catalog, p: Plan)
    requires Stable(rule, cat, p)
    ensures NormalForm(rule, cat, p)
    decreases p
  {
    StableNotRedex(rule, cat, p);
    forall i | 0 <= i < |p.children| ensures NormalForm(rule, cat, p.children[i]) {
      StableIsNormal(rule, cat, p.children[i]);
    }
  }

  /** One pass reaches the rule's normal form, and the next pass is the identity. */
  lemma PassReachesNormalForm(rule: Rule, cat: Catalog, p: Plan)
    requires BottomUp(rule, cat, p).Some?
    ensures var q := BottomUp(rule, cat, p).value;
            NormalForm(rule, cat, q) && BottomUp(rule, cat, q) == Some(q)
  {
    PassIsStable(rule, cat, p);
    var q := BottomUp(rule, cat, p).value;
    StableIsNormal(rule, cat, q);
    StableUnchanged(rule, cat, q);
  }
}
