/** The rows of a plan of filters and projections over a list of values, each with its record id. */
module BatchedPlans {
  import opened Values
  import opened Expressions
  import opened Plans
  import opened RowLemmas
  import opened Sequences

  datatype RecordId = RecordId(page: int, slot: nat)
  const NO_RECORD: RecordId := RecordId(-1, 0)

  datatype Item = Item(row: Row, rid: RecordId)

  predicate Batched(p: Plan) {
    match p.kind
    case ValuesList(_) => p.children == []
    case Filter(_) => |p.children| == 1 && Batched(p.children[0])
    case Projection(_) => |p.children| == 1 && Batched(p.children[0])
    case _ => false
  }

  function Zip(rows: seq<Row>, rids: seq<RecordId>): (items: seq<Item>)
    requires |rows| == |rids|
    ensures |items| == |rows|
  {
    seq(|rows|, i requires 0 <= i < |rows| => Item(rows[i], rids[i]))
  }

  /** What a filter or a projection makes of one row; the record id stays. */
  function Emit(k: Kind, x: Item): seq<Item>
    requires k.Filter? || k.Projection?
  {
    match k
    case Filter(e) => if Passes(Eval(e, x.row)) then [x] else []
    case Projection(es) => [Item(EvalAll(es, x.row), x.rid)]
  }

  function Transform(k: Kind, xs: seq<Item>): seq<Item>
    requires k.Filter? || k.Projection?
  {
    if xs == [] then [] else Transform(k, xs[..|xs| - 1]) + Emit(k, xs[|xs| - 1])
  }

  function ValueItems(cells: seq<seq<Expr>>): (xs: seq<Item>)
    ensures |xs| == |cells|
  {
    seq(|cells|, i requires 0 <= i < |cells| => Item(EvalAll(cells[i], []), NO_RECORD))
  }

  /** The whole result, in order. */
  function AllItems(p: Plan): seq<Item>
    requires Batched(p)
  {
    if p.kind.ValuesList? then ValueItems(p.kind.cells) else Transform(p.kind, AllItems(p.children[0]))
  }

  function RowsOf(xs: seq<Item>): (rows: seq<Row>)
    ensures |rows| == |xs|
  {
    seq(|xs|, i requires 0 <= i < |xs| => xs[i].row)
  }

  lemma TransformSnoc(k: Kind, xs: seq<Item>, x: Item)
    requires k.Filter? || k.Projection?
    ensures Transform(k, xs + [x]) == Transform(k, xs) + Emit(k, x)
  {
    assert (xs + [x])[..|xs|] == xs;
  }

  lemma {:induction false} TransformConcat(k: Kind, xs: seq<Item>, ys: seq<Item>)
    requires k.Filter? || k.Projection?
    ensures Transform(k, xs + ys) == Transform(k, xs) + Transform(k, ys)
  {
    if ys == [] {
      assert xs + ys == xs;
    } else {
      var init, y := ys[..|ys| - 1], ys[|ys| - 1];
      calc {
        Transform(k, xs + ys);
        { assert xs + ys == (xs + init) + [y]; TransformSnoc(k, xs + init, y); }
        Transform(k, xs + init) + Emit(k, y);
        { TransformConcat(k, xs, init); }
        (Transform(k, xs) + Transform(k, init)) + Emit(k, y);
        { Assoc(Transform(k, xs), Transform(k, init), Emit(k, y)); }
        Transform(k, xs) + Transform(k, ys);
      }
    }
  }

  lemma TransformPrefix(k: Kind, xs: seq<Item>, ys: seq<Item>)
    requires (k.Filter? || k.Projection?) && xs <= ys
    ensures Transform(k, xs) <= Transform(k, ys)
  {
    assert ys == xs + ys[|xs|..];
    TransformConcat(k, xs, ys[|xs|..]);
  }

  lemma ReadNext(k: Kind, out: seq<Item>, xs: seq<Item>, n: nat)
    requires (k.Filter? || k.Projection?) && n < |xs|
    ensures out + Transform(k, xs[..n]) + Emit(k, xs[n]) == out + Transform(k, xs[..n + 1])
  {
    assert xs[..n + 1] == xs[..n] + [xs[n]];
    TransformSnoc(k, xs[..n], xs[n]);
    Assoc(out, Transform(k, xs[..n]), Emit(k, xs[n]));
  }

  lemma ReadRest(k: Kind, out: seq<Item>, xs: seq<Item>, n: nat)
    requires (k.Filter? || k.Projection?) && n <= |xs|
    ensures out + Transform(k, xs[..n]) + Transform(k, xs[n..]) == out + Transform(k, xs)
  {
    assert xs == xs[..n] + xs[n..];
    TransformConcat(k, xs[..n], xs[n..]);
    Assoc(out, Transform(k, xs[..n]), Transform(k, xs[n..]));
  }

  lemma {:induction false} TransformLength(k: Kind, xs: seq<Item>)
    requires k.Filter? || k.Projection?
    ensures |Transform(k, xs)| <= |xs|
    ensures k.Projection? ==> |Transform(k, xs)| == |xs|
  {
    if xs != [] {
      TransformLength(k, xs[..|xs| - 1]);
    }
  }

  lemma RowsOfBoth(xs: seq<Item>, ys: seq<Item>)
    ensures RowsOf(xs + ys) == RowsOf(xs) + RowsOf(ys)
  {
  }

  /** What a filter or a projection makes of plain rows. */
  function RowsMade(k: Kind, rows: seq<Row>): seq<Row>
    requires k.Filter? || k.Projection?
  {
    if k.Filter? then FilterRows(k.predicate_, rows) else ProjectRows(k.exprs, rows)
  }

  lemma EmitRows(k: Kind, x: Item)
    requires k.Filter? || k.Projection?
    ensures RowsOf(Emit(k, x)) == RowsMade(k, [x.row])
  {
    if k.Filter? {
      assert [x.row][1..] == [] && FilterRows(k.predicate_, []) == [];
      assert RowsOf(Emit(k, x)) == if Passes(Eval(k.predicate_, x.row)) then [x.row] else [];
    } else {
      assert RowsOf(Emit(k, x)) == [EvalAll(k.exprs, x.row)];
    }
  }

  lemma MadeConcat(k: Kind, a: seq<Row>, b: seq<Row>)
    requires k.Filter? || k.Projection?
    ensures RowsMade(k, a + b) == RowsMade(k, a) + RowsMade(k, b)
  {
    if k.Filter? {
      FilterConcat(k.predicate_, a, b);
    }
  }

  lemma {:induction false} TransformRows(k: Kind, xs: seq<Item>)
    requires k.Filter? || k.Projection?
    ensures RowsOf(Transform(k, xs)) == RowsMade(k, RowsOf(xs))
  {
    if xs != [] {
      var init, x := xs[..|xs| - 1], xs[|xs| - 1];
      assert xs == init + [x] && RowsOf([x]) == [x.row];
      TransformRows(k, init);
      TransformSnoc(k, init, x);
      RowsOfBoth(Transform(k, init), Emit(k, x));
      RowsOfBoth(init, [x]);
      EmitRows(k, x);
      MadeConcat(k, RowsOf(init), [x.row]);
    }
  }

  /** The items' rows are the one result of the plan. */
  lemma {:induction false} ItemsAreTheResult(p: Plan, db: Database, rows: seq<Row>)
    requires Batched(p)
    ensures Produces(p, db, rows) <==> rows == RowsOf(AllItems(p))
    decreases p
  {
    if p.kind.ValuesList? {
      assert p == Node(p.kind, p.schema, []);
      ProducesLeaf(p.kind, p.schema, db, rows);
    } else {
      var c := p.children[0];
      assert p == Node(p.kind, p.schema, [c]);
      ProducesOne(p.kind, p.schema, c, db, rows);
      ItemsAreTheResult(c, db, RowsOf(AllItems(c)));
      TransformRows(p.kind, AllItems(c));
      forall xs: seq<Row> | Produces(c, db, xs) ensures xs == RowsOf(AllItems(c)) {
        ItemsAreTheResult(c, db, xs);
      }
    }
  }

  // ----- The state of a tree of executors -----

  /** A leaf's position in its list; above it, a child's last batch, where its unread part starts (0 if there is
      none), and the child. */
  datatype State = Leaf(cursor: nat) | Over(batch: seq<Item>, offset: nat, below: State)

  predicate StateOk(p: Plan, st: State) {
    && Batched(p)
    && if p.kind.ValuesList? then st.Leaf? && st.cursor <= |p.kind.cells|
       else st.Over? && (st.offset != 0 ==> st.offset < |st.batch|) && StateOk(p.children[0], st.below)
  }

  function Leftover(batch: seq<Item>, offset: nat): seq<Item>
    requires offset != 0 ==> offset < |batch|
  {
    if offset == 0 then [] else batch[offset..]
  }

  /** What is still to come. */
  function Remaining(p: Plan, st: State): seq<Item>
    requires StateOk(p, st)
  {
    if p.kind.ValuesList? then ValueItems(p.kind.cells)[st.cursor..]
    else Transform(p.kind, Leftover(st.batch, st.offset) + Remaining(p.children[0], st.below))
  }

  /** What of it comes from batches fetched before. */
  function Held(p: Plan, st: State): seq<Item>
    requires StateOk(p, st)
  {
    if p.kind.ValuesList? then []
    else Transform(p.kind, Leftover(st.batch, st.offset) + Held(p.children[0], st.below))
  }

  predicate Multiple(n: nat, b: nat) {
    n == 0 || (n >= b > 0 && Multiple(n - b, b))
  }

  /** The state is such as calls with batch size `b` leave. */
  predicate Driven(p: Plan, st: State, b: nat)
    requires StateOk(p, st)
  {
    if p.kind.ValuesList? then st.cursor == |p.kind.cells| || Multiple(st.cursor, b)
    else |Leftover(st.batch, st.offset)| < b && Driven(p.children[0], st.below, b)
  }

  function Fresh(p: Plan): (st: State)
    requires Batched(p)
    ensures StateOk(p, st)
  {
    if p.kind.ValuesList? then Leaf(0) else Over([], 0, Fresh(p.children[0]))
  }

  /** A restart moves the leaf back and leaves everything above it. */
  function Restarted(p: Plan, st: State): (st': State)
    requires StateOk(p, st)
    ensures StateOk(p, st')
  {
    if p.kind.ValuesList? then Leaf(0) else st.(below := Restarted(p.children[0], st.below))
  }

  lemma {:induction false} FreshState(p: Plan, b: nat)
    requires Batched(p) && b > 0
    ensures Remaining(p, Fresh(p)) == AllItems(p) && Held(p, Fresh(p)) == [] && Driven(p, Fresh(p), b)
  {
    if !p.kind.ValuesList? {
      var c := p.children[0];
      FreshState(c, b);
      assert [] + Remaining(c, Fresh(c)) == AllItems(c);
    }
  }

  /** After a restart the rows held from earlier batches come once more, then the whole result: a restart gives the
      result exactly when nothing was held. */
  lemma {:induction false} RestartedRemaining(p: Plan, st: State)
    requires StateOk(p, st)
    ensures Remaining(p, Restarted(p, st)) == Held(p, st) + AllItems(p)
    ensures Remaining(p, Restarted(p, st)) == AllItems(p) <==> Held(p, st) == []
  {
    if !p.kind.ValuesList? {
      var c, left := p.children[0], Leftover(st.batch, st.offset);
      RestartedRemaining(c, st.below);
      Assoc(left, Held(c, st.below), AllItems(c));
      TransformConcat(p.kind, left + Held(c, st.below), AllItems(c));
    }
  }

  lemma {:induction false} FreshRestarted(p: Plan)
    requires Batched(p)
    ensures Restarted(p, Fresh(p)) == Fresh(p)
  {
    if !p.kind.ValuesList? {
      FreshRestarted(p.children[0]);
    }
  }

  /** What was held is what comes first, so nothing is held once nothing is to come. */
  lemma {:induction false} HeldComesFirst(p: Plan, st: State)
    requires StateOk(p, st)
    ensures Held(p, st) <= Remaining(p, st)
  {
    if !p.kind.ValuesList? {
      var c, left := p.children[0], Leftover(st.batch, st.offset);
      HeldComesFirst(c, st.below);
      TransformPrefix(p.kind, left + Held(c, st.below), left + Remaining(c, st.below));
    }
  }

  /** What one call promises: the batch is the first part of what was to come; a batch that is not full is the last;
      and under calls of one batch size no batch is larger. */
  ghost predicate Yields(p: Plan, st: State, st': State, out: seq<Item>, b: nat)
    requires StateOk(p, st) && StateOk(p, st')
  {
    && Remaining(p, st) == out + Remaining(p, st')
    && (|out| < b ==> Remaining(p, st') == [])
    && (Driven(p, st, b) ==> Driven(p, st', b) && |out| <= b)
  }

  lemma ValuesYield(p: Plan, start: nat, end: nat, out: seq<Item>, b: nat)
    requires Batched(p) && p.kind.ValuesList? && start <= end <= |p.kind.cells|
    requires out == ValueItems(p.kind.cells)[start..end]
    requires end - start == b || (end - start < b && end == |p.kind.cells|)
    ensures Yields(p, Leaf(start), Leaf(end), out, b)
  {
  }

  /** With `n` rows in the output already, the leftover does not fill it. */
  ghost predicate Spaced(p: Plan, st: State, n: nat, b: nat)
    requires StateOk(p, st) && !p.kind.ValuesList?
  {
    n + |Leftover(st.batch, st.offset)| < b && Driven(p.children[0], st.below, b)
  }

  ghost predicate Conserved(p: Plan, st: State, st': State, out: seq<Item>, out': seq<Item>)
    requires StateOk(p, st) && StateOk(p, st')
  {
    out' + Remaining(p, st') == out + Remaining(p, st)
  }

  /** Reading the leftover of the last batch into an output of `n` rows, fetching the next batch, and reading that one
      until the output is full. */
  ghost predicate Refilled(p: Plan, st: State, st': State, n: nat, n': nat, b: nat, full: bool)
    requires StateOk(p, st) && StateOk(p, st') && !p.kind.ValuesList?
  {
    && (Spaced(p, st, n, b) ==> Driven(p, st', b) && n' <= b && (!full ==> Spaced(p, st', n', b)))
    && (full ==> n' != 0 && n' >= b)
    && (st'.batch != [] ==> |Remaining(p.children[0], st'.below)| < |Remaining(p.children[0], st.below)|)
    && (!full && (st'.batch == [] || p.kind.Projection?) && n' < b ==> Remaining(p, st') == [])
  }

  lemma NothingLost(k: Kind, out: seq<Item>, left: seq<Item>, rest: seq<Item>,
                    out': seq<Item>, batch: seq<Item>, left': seq<Item>, rest': seq<Item>)
    requires k.Filter? || k.Projection?
    requires rest == batch + rest'
    requires out' + Transform(k, left') == out + Transform(k, left) + Transform(k, batch)
    ensures out' + Transform(k, left' + rest') == out + Transform(k, left + rest)
  {
    TransformConcat(k, left, rest);
    TransformConcat(k, batch, rest');
    TransformConcat(k, left', rest');
    Assoc(out', Transform(k, left'), Transform(k, rest'));
    Assoc(out + Transform(k, left), Transform(k, batch), Transform(k, rest'));
    Assoc(out, Transform(k, left), Transform(k, rest));
  }

  lemma RefillConserves(p: Plan, st: State, st': State, out: seq<Item>, mid: seq<Item>, out': seq<Item>)
    requires StateOk(p, st) && StateOk(p, st') && !p.kind.ValuesList?
    requires Remaining(p.children[0], st.below) == st'.batch + Remaining(p.children[0], st'.below)
    requires mid == out + Transform(p.kind, Leftover(st.batch, st.offset))
    requires out' + Transform(p.kind, Leftover(st'.batch, st'.offset)) == mid + Transform(p.kind, st'.batch)
    ensures Conserved(p, st, st', out, out')
  {
    NothingLost(p.kind, out, Leftover(st.batch, st.offset), Remaining(p.children[0], st.below),
                out', st'.batch, Leftover(st'.batch, st'.offset), Remaining(p.children[0], st'.below));
  }

  lemma RefillBounded(p: Plan, st: State, st': State, n: nat, mid: nat, n': nat, b: nat, full: bool)
    requires StateOk(p, st) && StateOk(p, st') && !p.kind.ValuesList?
    requires Yields(p.children[0], st.below, st'.below, st'.batch, b)
    requires mid <= n + |Leftover(st.batch, st.offset)|
    requires n' + |Transform(p.kind, Leftover(st'.batch, st'.offset))| == mid + |Transform(p.kind, st'.batch)|
    requires full ==> n' != 0 && n' >= b && |Leftover(st'.batch, st'.offset)| < |st'.batch|
    requires mid < b ==> n' <= b && (full <==> n' == b)
    requires !full ==> st'.offset == 0
    ensures Refilled(p, st, st', n, n', b, full)
  {
    TransformLength(p.kind, st'.batch);
    if Remaining(p.children[0], st'.below) == [] && !full {
      AllRead(p, st');
    }
  }

  lemma ConservedFromEmpty(p: Plan, st: State, st': State, out: seq<Item>)
    requires StateOk(p, st) && StateOk(p, st') && Conserved(p, st, st', [], out)
    ensures Remaining(p, st) == out + Remaining(p, st')
  {
    assert [] + Remaining(p, st) == Remaining(p, st);
  }

  /** A refill of an empty output that is full, or final, is a batch. */
  lemma RefillYields(p: Plan, st: State, st': State, out: seq<Item>, b: nat, full: bool)
    requires StateOk(p, st) && StateOk(p, st') && !p.kind.ValuesList?
    requires Conserved(p, st, st', [], out) && Refilled(p, st, st', 0, |out|, b, full)
    requires full || st'.batch == [] || p.kind.Projection?
    ensures Yields(p, st, st', out, b)
  {
    ConservedFromEmpty(p, st, st', out);
    assert Driven(p, st, b) ==> Spaced(p, st, 0, b);
  }

  lemma AllRead(p: Plan, st: State)
    requires StateOk(p, st) && !p.kind.ValuesList? && st.offset == 0
    requires Remaining(p.children[0], st.below) == []
    ensures Remaining(p, st) == []
  {
  }

  ghost function Flat(batches: seq<seq<Item>>): seq<Item> {
    if batches == [] then [] else Flat(batches[..|batches| - 1]) + batches[|batches| - 1]
  }

  /** The batches delivered on the way from one state to another: what was to come is split into them and what is
      still to come; none is empty; only the last of all may be short; and none is larger than the one batch size. */
  ghost predicate Delivered(p: Plan, st: State, st': State, batches: seq<seq<Item>>, b: nat)
    requires StateOk(p, st) && StateOk(p, st')
  {
    && Remaining(p, st) == Flat(batches) + Remaining(p, st')
    && (forall i :: 0 <= i < |batches| ==>
          batches[i] != [] && (|batches[i]| >= b || (i == |batches| - 1 && Remaining(p, st') == [])))
    && (Driven(p, st, b) ==> Driven(p, st', b) && forall i :: 0 <= i < |batches| ==> |batches[i]| <= b)
  }

  lemma RowsOfConcat(xs: seq<Item>, rows: seq<Row>, rids: seq<RecordId>)
    requires |rows| == |rids|
    ensures RowsOf(xs + Zip(rows, rids)) == RowsOf(xs) + rows
  {
  }

  lemma FlatSnoc(batches: seq<seq<Item>>, out: seq<Item>)
    ensures Flat(batches + [out]) == Flat(batches) + out
  {
    assert (batches + [out])[..|batches|] == batches;
  }

  lemma DeliversBatch(p: Plan, st: State, st': State, st'': State, batches: seq<seq<Item>>, out: seq<Item>, b: nat)
    requires StateOk(p, st) && StateOk(p, st') && StateOk(p, st'') && out != []
    requires Delivered(p, st, st', batches, b) && Yields(p, st', st'', out, b)
    ensures Delivered(p, st, st'', batches + [out], b)
  {
    FlatSnoc(batches, out);
    Assoc(Flat(batches), out, Remaining(p, st''));
    assert Remaining(p, st') != [];
  }

  lemma DeliversNext(p: Plan, st: State, st': State, st'': State, batches: seq<seq<Item>>, out: seq<Item>, b: nat)
    requires StateOk(p, st) && StateOk(p, st') && StateOk(p, st'') && b > 0
    requires Delivered(p, st, st', batches, b) && Yields(p, st', st'', out, b)
    ensures out != [] ==> Delivered(p, st, st'', batches + [out], b) && Flat(batches + [out]) == Flat(batches) + out
    ensures out == [] ==> Delivered(p, st, st'', batches, b) && Flat(batches) == Remaining(p, st)
  {
    if out == [] {
      assert Remaining(p, st'') == [] && Remaining(p, st') == [];
    } else {
      FlatSnoc(batches, out);
      DeliversBatch(p, st, st', st'', batches, out, b);
    }
  }
}

/** Filter, projection and values executors: iterators that yield batches and keep the rest of a child's batch for the
    next call. */
module Executors {
  import opened Values
  import opened Expressions
  import opened Plans
  import opened BatchedPlans

  class Executor {
    const plan: Plan
    const child: Executor?
    ghost const Repr: set<Executor>

    var cursor: nat                  // values: the next row of the list
    var childTuples: seq<Row>        // filter, projection: the last batch of the child
    var childRids: seq<RecordId>
    var childOffset: nat             // where its unread part starts; 0 if all of it was read

    /** The tree has the plan's shape, and no executor stands in it twice. */
    ghost predicate Shaped()
      decreases Repr
    {
      && this in Repr && Batched(plan)
      && (!plan.kind.ValuesList? ==>
            && child != null && Repr == {this} + child.Repr && this !in child.Repr
            && child.plan == plan.children[0] && child.Shaped())
    }

    ghost predicate Aligned()
      requires Shaped()
      reads Repr
      decreases Repr
    {
      |childTuples| == |childRids| && (!plan.kind.ValuesList? ==> child.Aligned())
    }

    ghost function St(): State
      requires Shaped() && Aligned()
      reads Repr
      decreases Repr
    {
      if plan.kind.ValuesList? then Leaf(cursor) else Over(Zip(childTuples, childRids), childOffset, child.St())
    }

    ghost predicate Valid()
      reads Repr
    {
      Shaped() && Aligned() && StateOk(plan, St())
    }

    constructor (p: Plan)
      requires Batched(p)
      ensures Valid() && fresh(Repr) && plan == p && St() == Fresh(p)
      decreases p
    {
      plan := p;
      cursor, childTuples, childRids, childOffset := 0, [], [], 0;
      if p.kind.ValuesList? {
        child := null;
        Repr := {this};
      } else {
        var c := new Executor(p.children[0]);
        child := c;
        Repr := {this} + c.Repr;
      }
    }

    method Init()
      requires Valid()
      modifies Repr
      ensures Valid() && St() == Restarted(plan, old(St()))
      decreases Repr
    {
      if plan.kind.ValuesList? {
        cursor := 0;
      } else {
        child.Init();
      }
    }

    method Next(batchSize: nat) returns (ok: bool, tuples: seq<Row>, rids: seq<RecordId>)
      requires Valid()
      modifies Repr
      ensures Valid() && |tuples| == |rids| && (ok <==> tuples != [])
      ensures Yields(plan, old(St()), St(), Zip(tuples, rids), batchSize)
      decreases Repr, 3
    {
      match plan.kind
      case ValuesList(_) => ok, tuples, rids := NextValues(batchSize);
      case Filter(_) => ok, tuples, rids := NextFiltered(batchSize);
      case Projection(_) => ok, tuples, rids := NextProjected(batchSize);
    }

    method NextValues(batchSize: nat) returns (ok: bool, tuples: seq<Row>, rids: seq<RecordId>)
      requires Valid() && plan.kind.ValuesList?
      modifies this`cursor
      ensures Valid() && |tuples| == |rids| && (ok <==> tuples != [])
      ensures Yields(plan, old(St()), St(), Zip(tuples, rids), batchSize)
    {
      var cells := plan.kind.cells;
      ghost var start := cursor;
      tuples, rids := [], [];
      while |tuples| < batchSize && cursor < |cells|
        invariant |tuples| == |rids| == cursor - start <= batchSize && start <= cursor <= |cells|
        invariant forall i :: 0 <= i < |tuples| ==> tuples[i] == EvalAll(cells[start + i], []) && rids[i] == NO_RECORD
      {
        tuples := tuples + [EvalAll(cells[cursor], [])];
        rids := rids + [NO_RECORD];
        cursor := cursor + 1;
      }
      ok := tuples != [];
      ValuesYield(plan, start, cursor, Zip(tuples, rids), batchSize);
    }

    /** Adds what the node makes of one row of the child. */
    static method Append(k: Kind, row: Row, rid: RecordId, tuples: seq<Row>, rids: seq<RecordId>)
      returns (pushed: bool, tuples': seq<Row>, rids': seq<RecordId>)
      requires (k.Filter? || k.Projection?) && |tuples| == |rids|
      ensures |tuples'| == |rids'| == |tuples| + if pushed then 1 else 0
      ensures Zip(tuples', rids') == Zip(tuples, rids) + Emit(k, Item(row, rid))
    {
      pushed, tuples', rids' := false, tuples, rids;
      match k
      case Filter(e) =>
        var value := Eval(e, row);
        if !value.Null? && value == BoolV(true) {
          pushed, tuples', rids' := true, tuples + [row], rids + [rid];
        }
      case Projection(es) =>
        pushed, tuples', rids' := true, tuples + [EvalAll(es, row)], rids + [rid];
    }

    /** Reads all of some rows. */
    static method ReadAll(k: Kind, newTuples: seq<Row>, newRids: seq<RecordId>, tuples0: seq<Row>, rids0: seq<RecordId>)
      returns (tuples: seq<Row>, rids: seq<RecordId>)
      requires (k.Filter? || k.Projection?) && |tuples0| == |rids0| && |newTuples| == |newRids|
      ensures |tuples| == |rids| <= |tuples0| + |newTuples|
      ensures Zip(tuples, rids) == Zip(tuples0, rids0) + Transform(k, Zip(newTuples, newRids))
    {
      tuples, rids := tuples0, rids0;
      ghost var out, xs := Zip(tuples, rids), Zip(newTuples, newRids);
      for i := 0 to |newTuples|
        invariant |tuples| == |rids| <= |tuples0| + i
        invariant Zip(tuples, rids) == out + Transform(k, xs[..i])
      {
        ReadNext(k, out, xs, i);
        var _, ts, rs := Append(k, newTuples[i], newRids[i], tuples, rids);
        tuples, rids := ts, rs;
      }
      assert xs[..|xs|] == xs;
    }

    /** Reads rows until the output is full. */
    static method ReadUntilFull(k: Kind, newTuples: seq<Row>, newRids: seq<RecordId>, tuples0: seq<Row>,
                                rids0: seq<RecordId>,
                                batchSize: nat)
      returns (full: bool, taken: nat, tuples: seq<Row>, rids: seq<RecordId>)
      requires (k.Filter? || k.Projection?) && |tuples0| == |rids0| && |newTuples| == |newRids|
      ensures |tuples| == |rids| && taken <= |newTuples|
      ensures Zip(tuples, rids) == Zip(tuples0, rids0) + Transform(k, Zip(newTuples, newRids)[..taken])
      ensures if full then taken > 0 && tuples != [] && |tuples| >= batchSize else taken == |newTuples|
      ensures |tuples0| < batchSize ==> |tuples| <= batchSize && (full <==> |tuples| == batchSize)
    {
      full, taken, tuples, rids := false, 0, tuples0, rids0;
      ghost var out, xs := Zip(tuples, rids), Zip(newTuples, newRids);
      while taken < |newTuples|
        invariant taken <= |newTuples| && |tuples| == |rids|
        invariant Zip(tuples, rids) == out + Transform(k, xs[..taken])
        invariant |tuples0| < batchSize ==> |tuples| < batchSize
      {
        ReadNext(k, out, xs, taken);
        var pushed, ts, rs := Append(k, newTuples[taken], newRids[taken], tuples, rids);
        tuples, rids, taken := ts, rs, taken + 1;
        if pushed && |tuples| >= batchSize {
          full := true;
          return;
        }
      }
    }

    /** Reads what is left of the child's last batch. */
    method ReadLeftover(tuples0: seq<Row>, rids0: seq<RecordId>) returns (tuples: seq<Row>, rids: seq<RecordId>)
      requires plan.kind.Filter? || plan.kind.Projection?
      requires |tuples0| == |rids0| && |childTuples| == |childRids|
      requires childOffset != 0 ==> childOffset < |childTuples|
      ensures var left := Leftover(Zip(childTuples, childRids), childOffset);
              && |tuples| == |rids| <= |tuples0| + |left|
              && Zip(tuples, rids) == Zip(tuples0, rids0) + Transform(plan.kind, left)
    {
      tuples, rids := tuples0, rids0;
      if childOffset != 0 {
        tuples, rids := ReadAll(plan.kind, childTuples[childOffset..], childRids[childOffset..], tuples0, rids0);
        assert Zip(childTuples[childOffset..], childRids[childOffset..]) == Zip(childTuples, childRids)[childOffset..];
      }
    }

    /** Reads a new batch of the child until the output is full, and notes where the rest of it starts. */
    method ReadBatch(tuples0: seq<Row>, rids0: seq<RecordId>, batchSize: nat)
      returns (full: bool, tuples: seq<Row>, rids: seq<RecordId>)
      requires Valid() && !plan.kind.ValuesList? && |tuples0| == |rids0| && childOffset == 0
      modifies this`childOffset
      ensures Valid() && |tuples| == |rids| && St() == old(St()).(offset := childOffset)
      ensures Zip(tuples, rids) + Transform(plan.kind, Leftover(St().batch, childOffset)) ==
                Zip(tuples0, rids0) + Transform(plan.kind, St().batch)
      ensures full ==> tuples != [] && |tuples| >= batchSize && |Leftover(St().batch, childOffset)| < |St().batch|
      ensures |tuples0| < batchSize ==> (|tuples| <= batchSize && (full <==> |tuples| == batchSize))
      ensures !full ==> childOffset == 0
    {
      var taken;
      full, taken, tuples, rids := ReadUntilFull(plan.kind, childTuples, childRids, tuples0, rids0, batchSize);
      ReadRest(plan.kind, Zip(tuples0, rids0), Zip(childTuples, childRids), taken);
      SetOffset(if full && taken < |childTuples| then taken else 0);
    }

    method SetOffset(offset: nat)
      requires Valid() && !plan.kind.ValuesList? && (offset != 0 ==> offset < |childTuples|)
      modifies this`childOffset
      ensures Valid() && childOffset == offset && St() == old(St()).(offset := offset)
    {
      childOffset := offset;
    }

    /** Replaces the batch by the child's next one. */
    method Fetch(batchSize: nat) returns (status: bool)
      requires Valid() && !plan.kind.ValuesList?
      modifies Repr
      ensures Valid() && childOffset == 0 && (status <==> St().batch != [])
      ensures Yields(plan.children[0], old(St()).below, St().below, St().batch, batchSize)
      decreases Repr, 0
    {
      var tuples, rids;
      status, tuples, rids := child.Next(batchSize);
      Keep(tuples, rids);
    }

    method Keep(tuples: seq<Row>, rids: seq<RecordId>)
      requires Valid() && !plan.kind.ValuesList? && |tuples| == |rids|
      modifies this
      ensures Valid() && childOffset == 0 && St() == Over(Zip(tuples, rids), 0, old(St()).below)
    {
      childTuples, childRids, childOffset := tuples, rids, 0;
    }

    /** Reads the leftover, fetches the child's next batch, and reads it until the output is full. */
    method Refill(tuples0: seq<Row>, rids0: seq<RecordId>, batchSize: nat)
      returns (status: bool, full: bool, tuples: seq<Row>, rids: seq<RecordId>)
      requires Valid() && !plan.kind.ValuesList? && |tuples0| == |rids0|
      modifies Repr
      ensures Valid() && |tuples| == |rids|
      ensures Conserved(plan, old(St()), St(), Zip(tuples0, rids0), Zip(tuples, rids))
      ensures Refilled(plan, old(St()), St(), |tuples0|, |tuples|, batchSize, full) && (status <==> St().batch != [])
      ensures !status ==> !full
      decreases Repr, 1
    {
      ghost var st := St();
      tuples, rids := ReadLeftover(tuples0, rids0);
      ghost var mid := Zip(tuples, rids);
      status := Fetch(batchSize);
      full := false;
      if status {
        full, tuples, rids := ReadBatch(tuples, rids, batchSize);
      }
      RefillConserves(plan, st, St(), Zip(tuples0, rids0), mid, Zip(tuples, rids));
      RefillBounded(plan, st, St(), |tuples0|, |mid|, |tuples|, batchSize, full);
    }

    method NextFiltered(batchSize: nat) returns (ok: bool, tuples: seq<Row>, rids: seq<RecordId>)
      requires Valid() && plan.kind.Filter?
      modifies Repr
      ensures Valid() && |tuples| == |rids| && (ok <==> tuples != [])
      ensures Yields(plan, old(St()), St(), Zip(tuples, rids), batchSize)
      decreases Repr, 2
    {
      tuples, rids := [], [];
      while true
        invariant Valid() && |tuples| == |rids|
        invariant Zip(tuples, rids) + Remaining(plan, St()) == Remaining(plan, old(St()))
        invariant Driven(plan, old(St()), batchSize) ==> Spaced(plan, St(), |tuples|, batchSize)
        decreases |Remaining(child.plan, child.St())|
      {
        var status, full;
        status, full, tuples, rids := Refill(tuples, rids, batchSize);
        if !status || full {
          ok := tuples != [];
          return;
        }
      }
    }

    method NextProjected(batchSize: nat) returns (ok: bool, tuples: seq<Row>, rids: seq<RecordId>)
      requires Valid() && plan.kind.Projection?
      modifies Repr
      ensures Valid() && |tuples| == |rids| && (ok <==> tuples != [])
      ensures Yields(plan, old(St()), St(), Zip(tuples, rids), batchSize)
      decreases Repr, 2
    {
      var status, full;
      status, full, tuples, rids := Refill([], [], batchSize);
      RefillYields(plan, old(St()), St(), Zip(tuples, rids), batchSize, full);
      ok := tuples != [];
    }
  }

  // ----- Polling -----

  /** Calls `Next` until it returns false: the batches make up exactly what was to come. */
  method Poll(e: Executor, batchSize: nat) returns (rows: seq<Row>, ghost batches: seq<seq<Item>>)
    requires e.Valid() && batchSize > 0
    modifies e.Repr
    ensures e.Valid() && Remaining(e.plan, e.St()) == [] && Held(e.plan, e.St()) == []
    ensures rows == RowsOf(Remaining(e.plan, old(e.St()))) && rows == RowsOf(Flat(batches))
    ensures Delivered(e.plan, old(e.St()), e.St(), batches, batchSize)
  {
    rows, batches := [], [];
    while true
      invariant e.Valid() && rows == RowsOf(Flat(batches))
      invariant Delivered(e.plan, old(e.St()), e.St(), batches, batchSize)
      decreases |Remaining(e.plan, e.St())|
    {
      ghost var st := e.St();
      var ok, tuples, rids := e.Next(batchSize);
      ghost var out := Zip(tuples, rids);
      DeliversNext(e.plan, old(e.St()), st, e.St(), batches, out, batchSize);
      if !ok {
        HeldComesFirst(e.plan, e.St());
        return;
      }
      RowsOfConcat(Flat(batches), tuples, rids);
      rows := rows + tuples;
      batches := batches + [out];
    }
  }

  /** Building the executors of a plan, starting and polling them gives the plan's one result, in batches of which none
      is empty or larger than the batch size and only the last may be short. */
  method Execute(plan: Plan, batchSize: nat) returns (rows: seq<Row>, ghost batches: seq<seq<Item>>)
    requires Batched(plan) && batchSize > 0
    ensures forall db, other :: Produces(plan, db, other) <==> other == rows
    ensures Flat(batches) == AllItems(plan) && rows == RowsOf(Flat(batches))
    ensures forall i :: 0 <= i < |batches| ==> 0 < |batches[i]| <= batchSize
    ensures forall i :: 0 <= i < |batches| - 1 ==> |batches[i]| == batchSize
  {
    var e := new Executor(plan);
    FreshState(plan, batchSize);
    FreshRestarted(plan);
    e.Init();
    rows, batches := Poll(e, batchSize);
    forall db, other ensures Produces(plan, db, other) <==> other == rows {
      ItemsAreTheResult(plan, db, other);
    }
  }

  // ----- A restart in the middle -----

  const NO: seq<Expr> := [Constant(BoolV(false))]
  const YES: seq<Expr> := [Constant(BoolV(true))]
  const FLAGS: Plan := Node(ValuesList([NO, YES, YES, YES]), [Column("x", BOOLEAN)], [])
  const RAISED: Plan := Node(Filter(ColumnValue(0, 0, BOOLEAN)), [Column("x", BOOLEAN)], [FLAGS])
  const YES_ROW: Item := Item([BoolV(true)], NO_RECORD)

  lemma FlagItems()
    ensures Batched(RAISED)
    ensures AllItems(FLAGS) == [Item([BoolV(false)], NO_RECORD), YES_ROW, YES_ROW, YES_ROW]
  {
    assert EvalAll(NO, []) == [Eval(NO[0], [])] && EvalAll(YES, []) == [Eval(YES[0], [])];
  }

  lemma {:induction false} KeptWhole(k: Kind, xs: seq<Item>)
    requires k.Filter? && forall i :: 0 <= i < |xs| ==> Emit(k, xs[i]) == [xs[i]]
    ensures Transform(k, xs) == xs
  {
    if xs != [] {
      KeptWhole(k, xs[..|xs| - 1]);
      assert xs == xs[..|xs| - 1] + [xs[|xs| - 1]];
    }
  }

  lemma FilteredFlags(k: Kind, no: Item, yes: Item)
    requires k.Filter? && Emit(k, no) == [] && Emit(k, yes) == [yes]
    ensures Transform(k, [yes, yes]) == [yes, yes] && Transform(k, [no, yes, yes, yes]) == [yes, yes, yes]
  {
    KeptWhole(k, [yes, yes]);
    KeptWhole(k, [yes, yes, yes]);
    TransformSnoc(k, [], no);
    TransformConcat(k, [no], [yes, yes, yes]);
    assert [no] + [yes, yes, yes] == [no, yes, yes, yes];
  }

  lemma FlagsFiltered()
    ensures Transform(RAISED.kind, [YES_ROW, YES_ROW]) == [YES_ROW, YES_ROW]
    ensures Batched(RAISED) && AllItems(RAISED) == [YES_ROW, YES_ROW, YES_ROW]
  {
    FlagItems();
    FilteredFlags(RAISED.kind, Item([BoolV(false)], NO_RECORD), YES_ROW);
  }

  /** With one row to come and batches of two, the filter holds that row. */
  lemma OneLeft(p: Plan, st: State)
    requires StateOk(p, st) && p.kind.Filter? && p.children[0].kind.ValuesList? && Driven(p, st, 2)
    requires |AllItems(p.children[0])| == 4 && |Transform(p.kind, AllItems(p.children[0]))| > 1
    requires |Transform(p.kind, AllItems(p.children[0])[2..])| > 1
    requires |Remaining(p, st)| == 1
    ensures Held(p, st) == Remaining(p, st)
  {
    var all, cursor := AllItems(p.children[0]), st.below.cursor;
    TransformConcat(p.kind, Leftover(st.batch, st.offset), all[cursor..]);
    assert !Multiple(1, 2) && !Multiple(3, 2);
    assert cursor == 0 || cursor == 2 || cursor == 4;
    assert all[0..] == all;
  }

  lemma OneBatchOfTwo(p: Plan, st: State, out: seq<Item>, yes: Item)
    requires StateOk(p, st) && p.kind.Filter? && p.children[0].kind.ValuesList?
    requires |AllItems(p.children[0])| == 4 && |Transform(p.kind, AllItems(p.children[0])[2..])| > 1
    requires AllItems(p) == [yes, yes, yes] && Yields(p, Fresh(p), st, out, 2)
    ensures Held(p, st) == [yes]
  {
    FreshState(p, 2);
    assert |out| + |Remaining(p, st)| == 3;
    OneLeft(p, st);
    assert Remaining(p, st) == AllItems(p)[2..];
  }

  /** One batch, a restart, and then all batches. */
  method RestartAfterOneBatch(plan: Plan, batchSize: nat)
    returns (rows: seq<Row>, ghost st: State, ghost out: seq<Item>)
    requires Batched(plan) && batchSize > 0
    ensures StateOk(plan, st) && Yields(plan, Fresh(plan), st, out, batchSize)
    ensures rows == RowsOf(Held(plan, st) + AllItems(plan))
  {
    var e := new Executor(plan);
    var ok, tuples, rids := e.Next(batchSize);
    st, out := e.St(), Zip(tuples, rids);
    RestartedRemaining(plan, st);
    e.Init();
    ghost var batches;
    rows, batches := Poll(e, batchSize);
  }

  lemma RaisedOnce(st: State, out: seq<Item>)
    requires StateOk(RAISED, st) && Yields(RAISED, Fresh(RAISED), st, out, 2)
    ensures Held(RAISED, st) == [YES_ROW]
  {
    FlagItems();
    FlagsFiltered();
    OneBatchOfTwo(RAISED, st, out, YES_ROW);
  }

  lemma RaisedAgain(held: seq<Item>, all: seq<Item>)
    requires held == [YES_ROW] && all == [YES_ROW, YES_ROW, YES_ROW]
    ensures RowsOf(held + all) == [YES_ROW.row, YES_ROW.row, YES_ROW.row, YES_ROW.row]
  {
  }

  /** A restart in the middle is not a fresh start: the fourth row, held from the child's second batch, comes first,
      and the three rows of the result come after it. */
  method RestartInTheMiddle() returns (rows: seq<Row>)
    ensures rows == [YES_ROW.row, YES_ROW.row, YES_ROW.row, YES_ROW.row]
    ensures AllItems(RAISED) == [YES_ROW, YES_ROW, YES_ROW]
  {
    FlagsFiltered();
    ghost var st, out;
    rows, st, out := RestartAfterOneBatch(RAISED, 2);
    RaisedOnce(st, out);
    RaisedAgain(Held(RAISED, st), AllItems(RAISED));
  }
}
