/** Laws of the row operators that the rules rely on. */
module RowLemmas {
  import opened Wrappers
  import opened Values
  import opened Expressions
  import opened Plans
  import opened WellFormed
  import opened Sequences

  // ----- Filter and projection -----

  lemma {:induction false} FilterConcat(e: Expr, a: seq<Row>, b: seq<Row>)
    ensures FilterRows(e, a + b) == FilterRows(e, a) + FilterRows(e, b)
  {
    if a == [] {
      assert a + b == b;
    } else {
      assert (a + b)[1..] == a[1..] + b;
      FilterConcat(e, a[1..], b);
      Assoc(if Passes(Eval(e, a[0])) then [a[0]] else [], FilterRows(e, a[1..]), FilterRows(e, b));
    }
  }

  lemma {:induction false} FilterTrue(rows: seq<Row>)
    ensures FilterRows(TRUE_EXPR, rows) == rows
  {
    if rows != [] {
      FilterTrue(rows[1..]);
    }
  }

  lemma {:induction false} FilterWidth(e: Expr, rows: seq<Row>, w: nat)
    requires AllWidth(rows, w)
    ensures AllWidth(FilterRows(e, rows), w)
  {
    if rows != [] {
      FilterWidth(e, rows[1..], w);
    }
  }

  /** Projecting every column onto itself changes nothing. */
  lemma IdentityProjection(es: seq<Expr>, rows: seq<Row>)
    requires AllWidth(rows, |es|)
    requires forall i :: 0 <= i < |es| ==> es[i].ColumnValue? && es[i].colIdx == i
    ensures ProjectRows(es, rows) == rows
  {
    forall i | 0 <= i < |rows| ensures EvalAll(es, rows[i]) == rows[i] {
    }
  }

  // ----- Joins -----

  lemma {:induction false} MatchWidth(e: Expr, l: Row, rs: seq<Row>, w: nat)
    requires AllWidth(rs, w)
    ensures AllWidth(MatchRows(e, l, rs), |l| + w)
  {
    if rs != [] {
      MatchWidth(e, l, rs[1..], w);
    }
  }

  lemma {:induction false} JoinWidth(e: Expr, jt: JoinType, ls: seq<Row>, rs: seq<Row>, pad: Row, lw: nat)
    requires AllWidth(ls, lw) && AllWidth(rs, |pad|)
    ensures AllWidth(JoinRows(e, jt, ls, rs, pad), lw + |pad|)
  {
    if ls != [] {
      MatchWidth(e, ls[0], rs, |pad|);
      JoinWidth(e, jt, ls[1..], rs, pad, lw);
    }
  }

  /** Filtering all pairs of a left row is matching with the rewritten predicate. */
  lemma {:induction false} FilterMatches(e: Expr, f: Expr, l: Row, rs: seq<Row>, rw: nat)
    requires AllWidth(rs, rw)
    requires RewriteForJoin(e, |l|, rw) == Some(f) && !IsArray(e)
    ensures FilterRows(e, MatchRows(TRUE_EXPR, l, rs)) == MatchRows(f, l, rs)
  {
    if rs != [] {
      JoinRewriteMeaning(e, |l|, rw);
      assert JoinValueOf(e, EvalJoin(f, l, rs[0]), Eval(e, l + rs[0]));
      FilterConcat(e, [l + rs[0]], MatchRows(TRUE_EXPR, l, rs[1..]));
      FilterMatches(e, f, l, rs[1..], rw);
    }
  }

  /** A filter over an INNER join that is always true is the INNER join with the rewritten predicate. */
  lemma {:induction false} FilterOverCrossJoin(e: Expr, f: Expr, ls: seq<Row>, rs: seq<Row>, pad: Row, lw: nat, rw: nat)
    requires AllWidth(ls, lw) && AllWidth(rs, rw)
    requires RewriteForJoin(e, lw, rw) == Some(f) && !IsArray(e)
    ensures FilterRows(e, JoinRows(TRUE_EXPR, INNER, ls, rs, pad)) == JoinRows(f, INNER, ls, rs, pad)
  {
    if ls != [] {
      FilterConcat(e, MatchRows(TRUE_EXPR, ls[0], rs), JoinRows(TRUE_EXPR, INNER, ls[1..], rs, pad));
      FilterMatches(e, f, ls[0], rs, rw);
      FilterOverCrossJoin(e, f, ls[1..], rs, pad, lw, rw);
    }
  }

  // ----- Index probes -----

  ghost predicate Ascending(s: seq<nat>) {
    forall i, j :: 0 <= i < j < |s| ==> s[i] < s[j]
  }

  lemma TailContents<T>(a: seq<T>)
    requires a != []
    ensures multiset(a[1..]) == multiset(a) - multiset{a[0]}
  {
    assert a == [a[0]] + a[1..];
  }

  lemma SameFirst(a: seq<nat>, b: seq<nat>)
    requires Ascending(a) && Ascending(b) && multiset(a) == multiset(b) && a != [] && b != []
    ensures a[0] == b[0]
  {
    assert a[0] in multiset(b) && b[0] in multiset(a);
    var i :| 0 <= i < |b| && b[i] == a[0];
    var j :| 0 <= j < |a| && a[j] == b[0];
  }

  lemma {:induction false} AscendingUnique(a: seq<nat>, b: seq<nat>)
    requires Ascending(a) && Ascending(b) && multiset(a) == multiset(b)
    ensures a == b
  {
    assert |multiset(a)| == |a| && |multiset(b)| == |b|;
    if a != [] {
      SameFirst(a, b);
      TailContents(a);
      TailContents(b);
      AscendingUnique(a[1..], b[1..]);
      assert a == [a[0]] + a[1..] && b == [b[0]] + b[1..];
    }
  }

  predicate Hits(rows: seq<Row>, col: nat, key: Value, p: nat)
    requires p < |rows|
  {
    Compare(Equal, ColumnOf(rows[p], col, BOOLEAN), key) == CmpTrue
  }

  /** Which entries a probe returns does not depend on the order of the index. */
  lemma {:induction false} ProbeCounts(rows: seq<Row>, col: nat, key: Value, entries: seq<nat>, p: nat)
    requires forall i :: 0 <= i < |entries| ==> entries[i] < |rows|
    requires p < |rows|
    ensures multiset(ProbeEntries(rows, col, key, entries))[p] ==
            if Hits(rows, col, key, p) then multiset(entries)[p] else 0
  {
    if entries != [] {
      assert entries == [entries[0]] + entries[1..];
      ProbeCounts(rows, col, key, entries[1..], p);
    }
  }

  /** A probe keeps the order in which the index lists the rows of one key. */
  lemma {:induction false} ProbeAscending(rows: seq<Row>, col: nat, key: Value, entries: seq<nat>)
    requires forall i :: 0 <= i < |entries| ==> entries[i] < |rows|
    requires forall i, j :: 0 <= i < j < |entries|
                            && Hits(rows, col, key, entries[i]) && Hits(rows, col, key, entries[j])
               ==> entries[i] < entries[j]
    ensures Ascending(ProbeEntries(rows, col, key, entries))
    ensures forall i :: 0 <= i < |ProbeEntries(rows, col, key, entries)| ==>
              ProbeEntries(rows, col, key, entries)[i] in entries &&
              Hits(rows, col, key, ProbeEntries(rows, col, key, entries)[i])
  {
    if entries != [] {
      ProbeAscending(rows, col, key, entries[1..]);
      var rest := ProbeEntries(rows, col, key, entries[1..]);
      if Hits(rows, col, key, entries[0]) {
        forall i | 0 <= i < |rest| ensures entries[0] < rest[i] {
          var j :| 0 <= j < |entries[1..]| && entries[1..][j] == rest[i];
          assert entries[j + 1] == rest[i];
        }
      }
    }
  }

  lemma ProbePermuted(rows: seq<Row>, col: nat, key: Value, a: seq<nat>, b: seq<nat>)
    requires multiset(a) == multiset(b)
    requires forall i :: 0 <= i < |a| ==> a[i] < |rows|
    requires forall i :: 0 <= i < |b| ==> b[i] < |rows|
    ensures multiset(ProbeEntries(rows, col, key, a)) == multiset(ProbeEntries(rows, col, key, b))
  {
    var ma: multiset<nat> := multiset(ProbeEntries(rows, col, key, a));
    var mb: multiset<nat> := multiset(ProbeEntries(rows, col, key, b));
    forall p: nat ensures ma[p] == mb[p] {
      if p < |rows| {
        ProbeCounts(rows, col, key, a, p);
        ProbeCounts(rows, col, key, b, p);
      } else {
        assert p !in ProbeEntries(rows, col, key, a) && p !in ProbeEntries(rows, col, key, b);
      }
    }
  }

  lemma ProbeOfIndexAscending(x: IndexInfo, rows: seq<Row>, stored: StoredIndex, key: Value)
    requires IndexAgrees(x, rows, stored) && |x.keyAttrs| == 1
    ensures Ascending(ProbeEntries(rows, x.keyAttrs[0], key, stored.entries))
  {
    var col, entries := x.keyAttrs[0], stored.entries;
    forall i, j | 0 <= i < j < |entries| && Hits(rows, col, key, entries[i]) && Hits(rows, col, key, entries[j])
      ensures entries[i] < entries[j]
    {
      assert SameKey(x.keyAttrs, rows[entries[i]], rows[entries[j]]);
    }
    ProbeAscending(rows, col, key, entries);
  }

  /** A probe of an index that agrees with its table returns the matching rows in table order. */
  lemma ProbeIsTableOrder(x: IndexInfo, rows: seq<Row>, stored: StoredIndex, key: Value)
    requires IndexAgrees(x, rows, stored) && |x.keyAttrs| == 1
    ensures ProbeEntries(rows, x.keyAttrs[0], key, stored.entries) ==
            ProbeEntries(rows, x.keyAttrs[0], key, Positions(|rows|))
  {
    var col := x.keyAttrs[0];
    ProbeOfIndexAscending(x, rows, stored, key);
    ProbeAscending(rows, col, key, Positions(|rows|));
    ProbePermuted(rows, col, key, stored.entries, Positions(|rows|));
    AscendingUnique(ProbeEntries(rows, col, key, stored.entries), ProbeEntries(rows, col, key, Positions(|rows|)));
  }

  function PositionsFrom(k: nat, n: nat): (ps: seq<nat>)
    requires k <= n
    ensures |ps| == n - k
  {
    seq(n - k, i requires 0 <= i < n - k => k + i)
  }

  ghost predicate JoinsOn(e: Expr, key: Expr, col: nat) {
    forall l: Row, r: Row ::
      Passes(EvalJoin(e, l, r)) <==> Compare(Equal, ColumnOf(r, col, BOOLEAN), Eval(key, l)) == CmpTrue
  }

  lemma PrefixedPick(l: Row, rows: seq<Row>, p: nat, rest: seq<nat>)
    requires p < |rows| && forall i :: 0 <= i < |rest| ==> rest[i] < |rows|
    ensures Prefixed(l, PickRows(rows, [p] + rest)) == [l + rows[p]] + Prefixed(l, PickRows(rows, rest))
  {
  }

  lemma ProbeFrom(rows: seq<Row>, col: nat, key: Value, k: nat)
    requires k < |rows|
    ensures var rest := ProbeEntries(rows, col, key, PositionsFrom(k + 1, |rows|));
            ProbeEntries(rows, col, key, PositionsFrom(k, |rows|)) ==
              if Compare(Equal, ColumnOf(rows[k], col, BOOLEAN), key) == CmpTrue then [k] + rest else rest
  {
    var all := PositionsFrom(k, |rows|);
    assert all[0] == k && all[1..] == PositionsFrom(k + 1, |rows|);
  }

  lemma MatchFrom(e: Expr, l: Row, rows: seq<Row>, k: nat)
    requires k < |rows|
    ensures var rest := MatchRows(e, l, rows[k + 1..]);
            MatchRows(e, l, rows[k..]) == if Passes(EvalJoin(e, l, rows[k])) then [l + rows[k]] + rest else rest
  {
    assert rows[k..][0] == rows[k] && rows[k..][1..] == rows[k + 1..];
  }

  /** Probing the rows from position k on in table order is matching them against the join condition. */
  lemma {:induction false} ProbeMatches(e: Expr, key: Expr, l: Row, rows: seq<Row>, col: nat, k: nat)
    requires k <= |rows| && JoinsOn(e, key, col)
    ensures Prefixed(l, PickRows(rows, ProbeEntries(rows, col, Eval(key, l), PositionsFrom(k, |rows|)))) ==
            MatchRows(e, l, rows[k..])
    decreases |rows| - k
  {
    if k < |rows| {
      ProbeFrom(rows, col, Eval(key, l), k);
      MatchFrom(e, l, rows, k);
      ProbeMatches(e, key, l, rows, col, k + 1);
      PrefixedPick(l, rows, k, ProbeEntries(rows, col, Eval(key, l), PositionsFrom(k + 1, |rows|)));
      assert Passes(EvalJoin(e, l, rows[k]))
        <==> Compare(Equal, ColumnOf(rows[k], col, BOOLEAN), Eval(key, l)) == CmpTrue;
    }
  }

  /** An index join over an index that agrees with its table is the loop join it replaces. */
  lemma {:induction false} IndexJoinIsLoopJoin(e: Expr, key: Expr, jt: JoinType, ls: seq<Row>, x: IndexInfo,
                                               rows: seq<Row>,
                            stored: StoredIndex, pad: Row)
    requires IndexAgrees(x, rows, stored) && |x.keyAttrs| == 1 && JoinsOn(e, key, x.keyAttrs[0])
    ensures IndexJoinRows(key, jt, ls, rows, x.keyAttrs[0], stored.entries, pad) == JoinRows(e, jt, ls, rows, pad)
  {
    if ls != [] {
      ProbeIsTableOrder(x, rows, stored, Eval(key, ls[0]));
      assert Positions(|rows|) == PositionsFrom(0, |rows|);
      ProbeMatches(e, key, ls[0], rows, x.keyAttrs[0], 0);
      assert rows[0..] == rows;
      IndexJoinIsLoopJoin(e, key, jt, ls[1..], x, rows, stored, pad);
    }
  }

  // ----- Index scans -----

  function Without<T>(s: seq<T>, k: nat): seq<T>
    requires k < |s|
  {
    s[..k] + s[k + 1..]
  }

  lemma WithoutCounts<T>(s: seq<T>, k: nat)
    requires k < |s|
    ensures multiset(s) == multiset{s[k]} + multiset(Without(s, k))
  {
    assert s == s[..k] + [s[k]] + s[k + 1..];
  }

  lemma SameWithout<T>(a: seq<T>, j: nat, b: seq<T>, k: nat)
    requires j < |a| && k < |b| && a[j] == b[k] && multiset(a) == multiset(b)
    ensures multiset(Without(a, j)) == multiset(Without(b, k))
  {
    WithoutCounts(a, j);
    WithoutCounts(b, k);
    assert multiset(Without(a, j)) == multiset(a) - multiset{a[j]};
    assert multiset(Without(b, k)) == multiset(b) - multiset{b[k]};
  }

  lemma PickWithout(rows: seq<Row>, a: seq<nat>, k: nat)
    requires (forall i :: 0 <= i < |a| ==> a[i] < |rows|) && k < |a|
    ensures Without(PickRows(rows, a), k) == PickRows(rows, Without(a, k))
  {
  }

  lemma PickAllBut(rows: seq<Row>, a: seq<nat>, k: nat)
    requires (forall i :: 0 <= i < |a| ==> a[i] < |rows|) && k < |a|
    ensures forall i :: 0 <= i < |Without(a, k)| ==> Without(a, k)[i] < |rows|
    ensures multiset(PickRows(rows, a)) == multiset{rows[a[k]]} + multiset(PickRows(rows, Without(a, k)))
  {
    PickWithout(rows, a, k);
    WithoutCounts(PickRows(rows, a), k);
  }

  /** Permuted entries pick the same rows. */
  lemma {:induction false} PickPermuted(rows: seq<Row>, a: seq<nat>, b: seq<nat>)
    requires multiset(a) == multiset(b)
    requires forall i :: 0 <= i < |a| ==> a[i] < |rows|
    requires forall i :: 0 <= i < |b| ==> b[i] < |rows|
    ensures multiset(PickRows(rows, a)) == multiset(PickRows(rows, b))
  {
    if a == [] {
      assert |multiset(b)| == 0;
    } else {
      assert a[0] in multiset(b);
      var k :| 0 <= k < |b| && b[k] == a[0];
      SameWithout(a, 0, b, k);
      PickAllBut(rows, a, 0);
      PickAllBut(rows, b, k);
      PickPermuted(rows, Without(a, 0), Without(b, k));
    }
  }

  lemma IndexScanPermutes(x: IndexInfo, rows: seq<Row>, stored: StoredIndex)
    requires IndexAgrees(x, rows, stored)
    ensures multiset(PickRows(rows, stored.entries)) == multiset(rows)
  {
    PickPermuted(rows, stored.entries, Positions(|rows|));
    assert PickRows(rows, Positions(|rows|)) == rows;
  }
}
