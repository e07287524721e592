/** ORDER BY: the comparison of rows under a list of sort keys, and the existence of sorted permutations. */
module Ordering {
  import opened Values
  import opened Expressions

  datatype OrderByType = INVALID | DEFAULT | ASC | DESC
  datatype NullOrder = NullsDefault | NullsFirst | NullsLast
  datatype OrderBy = OrderBy(dir: OrderByType, nulls: NullOrder, expr: Expr)

  /** By default nulls come first in ascending and last in descending order. */
  predicate PutsNullsFirst(o: OrderBy) {
    o.nulls == NullsFirst || (o.nulls == NullsDefault && o.dir != DESC)
  }

  /** `a` may stand before `b` under one sort key. */
  predicate KeyLeq(o: OrderBy, a: Value, b: Value) {
    if a.Null? && b.Null? then true
    else if a.Null? then PutsNullsFirst(o)
    else if b.Null? then !PutsNullsFirst(o)
    else if o.dir == DESC then Leq(b, a)
    else Leq(a, b)
  }

  /** `x` may stand before `y` under the sort keys, the first key deciding. */
  predicate RowLeq(orders: seq<OrderBy>, x: Row, y: Row) {
    orders == [] ||
    var a, b := Eval(orders[0].expr, x), Eval(orders[0].expr, y);
    KeyLeq(orders[0], a, b) && (KeyLeq(orders[0], b, a) ==> RowLeq(orders[1..], x, y))
  }

  ghost predicate SortedBy(orders: seq<OrderBy>, rows: seq<Row>) {
    forall i, j :: 0 <= i < j < |rows| ==> RowLeq(orders, rows[i], rows[j])
  }

  lemma KeyLeqTotal(o: OrderBy, a: Value, b: Value)
    ensures KeyLeq(o, a, b) || KeyLeq(o, b, a)
  {
    LeqTotal(a, b);
  }

  lemma KeyLeqTransitive(o: OrderBy, a: Value, b: Value, c: Value)
    requires KeyLeq(o, a, b) && KeyLeq(o, b, c)
    ensures KeyLeq(o, a, c)
  {
    if !a.Null? && !b.Null? && !c.Null? {
      if o.dir == DESC {
        LeqTransitive(c, b, a);
      } else {
        LeqTransitive(a, b, c);
      }
    }
  }

  lemma {:induction false} RowLeqTotal(orders: seq<OrderBy>, x: Row, y: Row)
    ensures RowLeq(orders, x, y) || RowLeq(orders, y, x)
  {
    if orders != [] {
      KeyLeqTotal(orders[0], Eval(orders[0].expr, x), Eval(orders[0].expr, y));
      RowLeqTotal(orders[1..], x, y);
    }
  }

  lemma {:induction false} RowLeqTransitive(orders: seq<OrderBy>, x: Row, y: Row, z: Row)
    requires RowLeq(orders, x, y) && RowLeq(orders, y, z)
    ensures RowLeq(orders, x, z)
  {
    if orders != [] {
      var o := orders[0];
      var a, b, c := Eval(o.expr, x), Eval(o.expr, y), Eval(o.expr, z);
      KeyLeqTransitive(o, a, b, c);
      if KeyLeq(o, c, a) {
        KeyLeqTransitive(o, c, a, b);
        KeyLeqTransitive(o, b, c, a);
        RowLeqTransitive(orders[1..], x, y, z);
      }
    }
  }

  ghost function InsertRow(orders: seq<OrderBy>, row: Row, rows: seq<Row>): (s: seq<Row>)
    requires SortedBy(orders, rows)
    ensures multiset(s) == multiset([row]) + multiset(rows)
    ensures SortedBy(orders, s)
  {
    if rows == [] then [row]
    else
      assert rows == [rows[0]] + rows[1..];
      if RowLeq(orders, row, rows[0]) then
        InsertFront(orders, row, rows);
        [row] + rows
      else
        RowLeqTotal(orders, row, rows[0]);
        var rest := InsertRow(orders, row, rows[1..]);
        PrependLeast(orders, rows[0], row, rows[1..], rest);
        [rows[0]] + rest
  }

  lemma InsertFront(orders: seq<OrderBy>, row: Row, rows: seq<Row>)
    requires SortedBy(orders, rows) && rows != [] && RowLeq(orders, row, rows[0])
    ensures SortedBy(orders, [row] + rows)
  {
    forall j | 0 <= j < |rows| ensures RowLeq(orders, row, rows[j]) {
      if j > 0 {
        RowLeqTransitive(orders, row, rows[0], rows[j]);
      }
    }
  }

  lemma PrependLeast(orders: seq<OrderBy>, head: Row, row: Row, tail: seq<Row>, s: seq<Row>)
    requires SortedBy(orders, [head] + tail) && SortedBy(orders, s) && RowLeq(orders, head, row)
    requires multiset(s) == multiset([row]) + multiset(tail)
    ensures SortedBy(orders, [head] + s)
  {
    forall j | 0 <= j < |s| ensures RowLeq(orders, head, s[j]) {
      assert s[j] in multiset(s);
      if s[j] != row {
        assert s[j] in multiset(tail);
        var k :| 0 <= k < |tail| && tail[k] == s[j];
        assert ([head] + tail)[0] == head && ([head] + tail)[k + 1] == s[j];
      }
    }
  }

  /** Every list of rows has a sorted permutation, whatever the sort keys. */
  ghost function SortRows(orders: seq<OrderBy>, rows: seq<Row>): (s: seq<Row>)
    ensures multiset(s) == multiset(rows)
    ensures SortedBy(orders, s)
  {
    if rows == [] then []
    else
      assert rows == [rows[0]] + rows[1..];
      InsertRow(orders, rows[0], SortRows(orders, rows[1..]))
  }
}
