/** Count-min sketches: what the matrix of a stream holds, and what can be read from it. */
module Sketches {

  const WRAP: nat := 0x1_0000_0000

  /** Arithmetic of 32-bit unsigned cells. */
  function Wrapped(n: nat): (w: nat)
    ensures w < WRAP && (n < WRAP ==> w == n) && w <= n
  {
    n % WRAP
  }

  lemma WrappedSum(a: nat, b: nat)
    ensures Wrapped(Wrapped(a) + Wrapped(b)) == Wrapped(a + b)
  {
  }

  /** The hash family and the size of the matrix. */
  datatype Shape<!K> = Shape(hash: (K, nat) -> nat, width: nat, depth: nat)

  predicate Proper<K>(sh: Shape<K>) {
    sh.width > 0 && sh.depth > 0
  }

  /** The bucket of an item in a row. */
  function Bucket<K>(sh: Shape<K>, x: K, row: nat): (b: nat)
    requires Proper(sh)
    ensures b < sh.width
  {
    sh.hash(x, row) % sh.width
  }

  function Hit<K>(sh: Shape<K>, x: K, bucket: nat, row: nat): nat
    requires Proper(sh)
  {
    if Bucket(sh, x, row) == bucket then 1 else 0
  }

  /** How many items of the stream fall into the bucket. */
  function Hits<K>(sh: Shape<K>, stream: seq<K>, bucket: nat, row: nat): nat
    requires Proper(sh)
  {
    if stream == [] then 0
    else Hits(sh, stream[..|stream| - 1], bucket, row) + Hit(sh, stream[|stream| - 1], bucket, row)
  }

  function Occurrences<K(==)>(stream: seq<K>, x: K): nat {
    if stream == [] then 0
    else Occurrences(stream[..|stream| - 1], x) + if stream[|stream| - 1] == x then 1 else 0
  }

  function Min(a: nat, b: nat): nat {
    if a < b then a else b
  }

  /** The least of the item's cells in the first `rows` rows, as the search for it finds it. */
  function LeastCell<K>(sh: Shape<K>, stream: seq<K>, x: K, rows: nat): nat
    requires Proper(sh)
  {
    if rows == 0 then WRAP - 1
    else Min(Wrapped(Hits(sh, stream, Bucket(sh, x, rows - 1), rows - 1)), LeastCell(sh, stream, x, rows - 1))
  }

  function Estimate<K>(sh: Shape<K>, stream: seq<K>, x: K): nat
    requires Proper(sh)
  {
    LeastCell(sh, stream, x, sh.depth)
  }

  lemma {:induction false} HitsConcat<K>(sh: Shape<K>, s: seq<K>, t: seq<K>, bucket: nat, row: nat)
    requires Proper(sh)
    ensures Hits(sh, s + t, bucket, row) == Hits(sh, s, bucket, row) + Hits(sh, t, bucket, row)
  {
    if t == [] {
      assert s + t == s;
    } else {
      var init := t[..|t| - 1];
      assert (s + t)[..|s + t| - 1] == s + init;
      HitsConcat(sh, s, init, bucket, row);
    }
  }

  /** A cell counts every occurrence of the items in it, and no more than the whole stream. */
  lemma {:induction false} HitsBounds<K>(sh: Shape<K>, stream: seq<K>, x: K, row: nat)
    requires Proper(sh)
    ensures Occurrences(stream, x) <= Hits(sh, stream, Bucket(sh, x, row), row) <= |stream|
  {
    if stream != [] {
      HitsBounds(sh, stream[..|stream| - 1], x, row);
    }
  }

  lemma {:induction false} OccurrencesAre<K>(stream: seq<K>, x: K)
    ensures Occurrences(stream, x) == multiset(stream)[x]
  {
    if stream != [] {
      OccurrencesAre(stream[..|stream| - 1], x);
      assert stream == stream[..|stream| - 1] + [stream[|stream| - 1]];
    }
  }

  /** Another item of the stream has the hash of `x` in that row, up to the width of the matrix. */
  ghost predicate Collides<K>(sh: Shape<K>, stream: seq<K>, x: K, row: nat)
    requires Proper(sh)
  {
    exists i :: 0 <= i < |stream| && stream[i] != x
                && sh.hash(stream[i], row) % sh.width == sh.hash(x, row) % sh.width
  }

  /** A cell of the item counts the item alone exactly when no other item of the stream falls into it. */
  lemma {:induction false} CellExactIff<K>(sh: Shape<K>, stream: seq<K>, x: K, row: nat)
    requires Proper(sh)
    ensures Hits(sh, stream, Bucket(sh, x, row), row) == Occurrences(stream, x) <==> !Collides(sh, stream, x, row)
  {
    if stream != [] {
      var init := stream[..|stream| - 1];
      CellExactIff(sh, init, x, row);
      HitsBounds(sh, init, x, row);
      assert Collides(sh, stream, x, row) <==>
               || Collides(sh, init, x, row)
               || (stream[|init|] != x && Bucket(sh, stream[|init|], row) == Bucket(sh, x, row))
      by {
        assert forall i :: 0 <= i < |init| ==> init[i] == stream[i];
      }
    }
  }

  /** The estimate is one of the item's cells and none of them is less. */
  lemma {:induction false} LeastCellIsLeast<K>(sh: Shape<K>, stream: seq<K>, x: K, rows: nat)
    requires Proper(sh)
    ensures forall j :: 0 <= j < rows ==>
              LeastCell(sh, stream, x, rows) <= Wrapped(Hits(sh, stream, Bucket(sh, x, j), j))
    ensures rows > 0 ==> exists j :: 0 <= j < rows
                                     && LeastCell(sh, stream, x, rows) == Wrapped(Hits(sh, stream, Bucket(sh, x, j), j))
  {
    if rows > 0 {
      LeastCellIsLeast(sh, stream, x, rows - 1);
    }
  }

  /** With fewer than 2^32 items the estimate lies between the item's occurrences and the length of the stream. */
  lemma EstimateBounds<K>(sh: Shape<K>, stream: seq<K>, x: K)
    requires Proper(sh) && |stream| < WRAP
    ensures Occurrences(stream, x) <= Estimate(sh, stream, x) <= |stream|
  {
    LeastCellIsLeast(sh, stream, x, sh.depth);
    forall j | 0 <= j < sh.depth
      ensures Occurrences(stream, x) <= Wrapped(Hits(sh, stream, Bucket(sh, x, j), j)) <= |stream|
    {
      HitsBounds(sh, stream, x, j);
    }
  }

  /** The estimate is exact if and only if in some row nothing collides with the item. */
  lemma EstimateExactIff<K>(sh: Shape<K>, stream: seq<K>, x: K)
    requires Proper(sh) && |stream| < WRAP
    ensures Estimate(sh, stream, x) == multiset(stream)[x]
       <==> exists j :: 0 <= j < sh.depth && !Collides(sh, stream, x, j)
  {
    OccurrencesAre(stream, x);
    LeastCellIsLeast(sh, stream, x, sh.depth);
    forall j | 0 <= j < sh.depth
      ensures Occurrences(stream, x) <= Hits(sh, stream, Bucket(sh, x, j), j) < WRAP
      ensures Hits(sh, stream, Bucket(sh, x, j), j) == Occurrences(stream, x) <==> !Collides(sh, stream, x, j)
    {
      HitsBounds(sh, stream, x, j);
      CellExactIff(sh, stream, x, j);
    }
  }

  /** No cell of the item wraps. */
  ghost predicate Unwrapped<K>(sh: Shape<K>, stream: seq<K>, x: K)
    requires Proper(sh)
  {
    forall j :: 0 <= j < sh.depth ==> Hits(sh, stream, Bucket(sh, x, j), j) < WRAP
  }

  /** Merged sketches estimate at least the sum of the two estimates, as long as no cell of the item wraps. */
  lemma MergedEstimate<K>(sh: Shape<K>, s: seq<K>, t: seq<K>, x: K)
    requires Proper(sh) && Unwrapped(sh, s + t, x)
    ensures Estimate(sh, s, x) + Estimate(sh, t, x) <= Estimate(sh, s + t, x)
  {
    LeastCellIsLeast(sh, s, x, sh.depth);
    LeastCellIsLeast(sh, t, x, sh.depth);
    LeastCellIsLeast(sh, s + t, x, sh.depth);
    var j :| 0 <= j < sh.depth && Estimate(sh, s + t, x) == Wrapped(Hits(sh, s + t, Bucket(sh, x, j), j));
    HitsConcat(sh, s, t, Bucket(sh, x, j), j);
  }

  lemma {:induction false} AllTheSame<K>(sh: Shape<K>, x: K, n: nat, row: nat)
    requires Proper(sh)
    ensures Hits(sh, seq(n, _ => x), Bucket(sh, x, row), row) == n && Occurrences(seq(n, _ => x), x) == n
  {
    var stream := seq(n, _ => x);
    if n > 0 {
      assert stream[..n - 1] == seq(n - 1, _ => x);
      AllTheSame(sh, x, n - 1, row);
    }
  }

  /** With 2^32 items the bound is lost: an item seen 2^32 times is estimated at zero. */
  lemma WrapForgets<K>(sh: Shape<K>, x: K)
    requires Proper(sh)
    ensures Estimate(sh, seq(WRAP, _ => x), x) == 0 && Occurrences(seq(WRAP, _ => x), x) == WRAP
  {
    AllTheSame(sh, x, WRAP, 0);
    LeastCellIsLeast(sh, seq(WRAP, _ => x), x, sh.depth);
  }

  /** No estimate of `x` falls below its occurrences on streams of up to `n` items. */
  ghost predicate NeverUnderestimates<K(!new)>(sh: Shape<K>, x: K, n: nat)
    requires Proper(sh)
  {
    forall stream: seq<K> :: |stream| <= n ==> Occurrences(stream, x) <= Estimate(sh, stream, x)
  }

  /** The estimate is never too low exactly as long as fewer than 2^32 items are inserted, whatever the hashes. */
  lemma NeverUnderestimatesIff<K(!new)>(sh: Shape<K>, x: K, n: nat)
    requires Proper(sh)
    ensures NeverUnderestimates(sh, x, n) <==> n < WRAP
  {
    if n < WRAP {
      forall stream: seq<K> | |stream| <= n ensures Occurrences(stream, x) <= Estimate(sh, stream, x) {
        EstimateBounds(sh, stream, x);
      }
    } else {
      WrapForgets(sh, x);
      assert |seq(WRAP, _ => x)| <= n;
    }
  }

  /** Merging never lowers the estimate of `x` below the sum of the two, on streams of up to `n` items together. */
  ghost predicate MergeAddsUp<K(!new)>(sh: Shape<K>, x: K, n: nat)
    requires Proper(sh)
  {
    forall s: seq<K>, t: seq<K> :: |s| + |t| <= n ==> Estimate(sh, s, x) + Estimate(sh, t, x) <= Estimate(sh, s + t, x)
  }

  lemma MergeAddsUpIff<K(!new)>(sh: Shape<K>, x: K, n: nat)
    requires Proper(sh)
    ensures MergeAddsUp(sh, x, n) <==> n < WRAP
  {
    if n < WRAP {
      forall s: seq<K>, t: seq<K> | |s| + |t| <= n
        ensures Estimate(sh, s, x) + Estimate(sh, t, x) <= Estimate(sh, s + t, x)
      {
        forall j | 0 <= j < sh.depth ensures Hits(sh, s + t, Bucket(sh, x, j), j) < WRAP {
          HitsBounds(sh, s + t, x, j);
        }
        MergedEstimate(sh, s, t, x);
      }
    } else {
      var s, t := seq(WRAP - 1, _ => x), seq(1, _ => x);
      WrapForgets(sh, x);
      assert s + t == seq(WRAP, _ => x);
      AllTheSame(sh, x, 1, 0);
      EstimateBounds(sh, t, x);
      assert |s| + |t| <= n && Estimate(sh, s, x) + Estimate(sh, t, x) > Estimate(sh, s + t, x);
    }
  }
}

/** The sketch as an object: a matrix of cells, updated in place. */
module SketchObject {
  import opened Sketches

  class CountMinSketch<K(==)> {
    const shape: Shape<K>
    const matrix: array2<nat>

    ghost predicate Valid() {
      Proper(shape) && matrix.Length0 == shape.width && matrix.Length1 == shape.depth
    }

    /** The matrix is the sketch of the stream. */
    ghost predicate SketchOf(stream: seq<K>)
      requires Valid()
      reads matrix
    {
      forall i, j :: 0 <= i < shape.width && 0 <= j < shape.depth ==>
        matrix[i, j] == Wrapped(Hits(shape, stream, i, j))
    }

    constructor (sh: Shape<K>)
      requires Proper(sh)
      ensures Valid() && fresh(matrix) && shape == sh && SketchOf([])
    {
      shape := sh;
      matrix := new nat[sh.width, sh.depth]((_, _) => 0);
    }

    method Insert(item: K, ghost stream: seq<K>)
      requires Valid() && SketchOf(stream)
      modifies matrix
      ensures SketchOf(stream + [item])
    {
      ghost var after := stream + [item];
      assert after[..|stream|] == stream;
      for r := 0 to shape.depth
        invariant forall i, j :: 0 <= i < shape.width && 0 <= j < shape.depth ==>
                    matrix[i, j] == Wrapped(Hits(shape, if j < r then after else stream, i, j))
      {
        var b := Bucket(shape, item, r);
        WrappedSum(Hits(shape, stream, b, r), 1);
        matrix[b, r] := Wrapped(matrix[b, r] + 1);
      }
    }

    /** Refused when the sizes differ; otherwise the sketch of both streams, one after the other. */
    method Merge(other: CountMinSketch<K>, ghost stream: seq<K>, ghost more: seq<K>) returns (ok: bool)
      requires Valid() && other.Valid() && SketchOf(stream) && other.SketchOf(more) && shape.hash == other.shape.hash
      requires other == this || other.matrix != matrix
      modifies matrix
      ensures ok <==> shape.width == other.shape.width && shape.depth == other.shape.depth
      ensures SketchOf(if ok then stream + more else stream)
    {
      if shape.width != other.shape.width || shape.depth != other.shape.depth {
        return false;
      }
      ok := true;
      for i := 0 to shape.width
        invariant forall a, b :: 0 <= a < shape.width && 0 <= b < shape.depth ==>
                    matrix[a, b] == if a < i then Wrapped(Hits(shape, stream + more, a, b)) else old(matrix[a, b])
        invariant other != this ==> other.SketchOf(more)
      {
        MergeBucket(other, i);
        forall b | 0 <= b < shape.depth ensures matrix[i, b] == Wrapped(Hits(shape, stream + more, i, b)) {
          HitsConcat(shape, stream, more, i, b);
          WrappedSum(Hits(shape, stream, i, b), Hits(shape, more, i, b));
        }
      }
    }

    method MergeBucket(other: CountMinSketch<K>, i: nat)
      requires Valid() && other.Valid() && shape.width == other.shape.width && shape.depth == other.shape.depth
      requires i < shape.width && (other == this || other.matrix != matrix)
      modifies matrix
      ensures forall b :: 0 <= b < shape.depth ==> matrix[i, b] == Wrapped(old(matrix[i, b]) + old(other.matrix[i, b]))
      ensures forall a, b :: 0 <= a < shape.width && a != i && 0 <= b < shape.depth ==>
                matrix[a, b] == old(matrix[a, b])
    {
      for j := 0 to shape.depth
        invariant forall a, b :: 0 <= a < shape.width && 0 <= b < shape.depth ==>
                    matrix[a, b] == if a == i && b < j then Wrapped(old(matrix[a, b]) + old(other.matrix[a, b]))
                                    else old(matrix[a, b])
      {
        matrix[i, j] := Wrapped(matrix[i, j] + other.matrix[i, j]);
      }
    }

    /** A sketch without buckets or rows is refused. */
    static method Create(sh: Shape<K>) returns (s: CountMinSketch?<K>)
      ensures s == null <==> !Proper(sh)
      ensures s != null ==> s.Valid() && fresh(s.matrix) && s.shape == sh && s.SketchOf([])
    {
      if sh.width == 0 || sh.depth == 0 {
        return null;
      }
      s := new CountMinSketch(sh);
    }

    method Clear()
      requires Valid()
      modifies matrix
      ensures SketchOf([])
    {
      for i := 0 to shape.width
        invariant forall a, b :: 0 <= a < i && 0 <= b < shape.depth ==> matrix[a, b] == 0
      {
        for j := 0 to shape.depth
          invariant forall a, b :: 0 <= a < i && 0 <= b < shape.depth ==> matrix[a, b] == 0
          invariant forall b :: 0 <= b < j ==> matrix[i, b] == 0
        {
          matrix[i, j] := 0;
        }
      }
    }

    method Count(item: K, ghost stream: seq<K>) returns (count: nat)
      requires Valid() && SketchOf(stream)
      ensures count == Estimate(shape, stream, item)
    {
      count := WRAP - 1;
      for r := 0 to shape.depth
        invariant count == LeastCell(shape, stream, item, r)
      {
        var b := Bucket(shape, item, r);
        if matrix[b, r] < count {
          count := matrix[b, r];
        }
      }
    }

    /** The candidates with the largest estimates, in descending order; what is left out does not outrank what is
        kept. */
    method TopK(k: nat, candidates: seq<K>, ghost stream: seq<K>)
      returns (result: seq<(K, nat)>, ghost dropped: seq<(K, nat)>)
      requires Valid() && SketchOf(stream)
      ensures |result| == Min(k, |candidates|)
      ensures multiset(result + dropped) == multiset(Estimates(shape, stream, candidates))
      ensures Descending(result + dropped)
    {
      var counted := [];
      for i := 0 to |candidates|
        invariant |counted| == i
        invariant forall a :: 0 <= a < i ==> counted[a] == (candidates[a], Estimate(shape, stream, candidates[a]))
      {
        var count := Count(candidates[i], stream);
        counted := counted + [(candidates[i], count)];
      }
      assert counted == Estimates(shape, stream, candidates);
      var sorted := SortDescending(counted);
      SameSize(sorted, counted);
      result, dropped := sorted, [];
      if |sorted| > k {
        result, dropped := sorted[..k], sorted[k..];
      }
      assert result + dropped == sorted;
    }
  }

  function Estimates<K>(sh: Shape<K>, stream: seq<K>, xs: seq<K>): (r: seq<(K, nat)>)
    requires Proper(sh)
    ensures |r| == |xs|
  {
    seq(|xs|, i requires 0 <= i < |xs| => (xs[i], Estimate(sh, stream, xs[i])))
  }

  ghost predicate Descending<K>(xs: seq<(K, nat)>) {
    forall i, j :: 0 <= i < j < |xs| ==> xs[i].1 >= xs[j].1
  }

  lemma SameSize<T>(a: seq<T>, b: seq<T>)
    requires multiset(a) == multiset(b)
    ensures |a| == |b|
  {
    assert |multiset(a)| == |a| && |multiset(b)| == |b|;
  }

  /** Puts a pair before the first one that it outranks. */
  method InsertDescending<K>(xs: seq<(K, nat)>, x: (K, nat)) returns (r: seq<(K, nat)>)
    requires Descending(xs)
    ensures Descending(r) && multiset(r) == multiset(xs) + multiset{x}
  {
    var k := 0;
    while k < |xs| && xs[k].1 >= x.1
      invariant k <= |xs| && forall i :: 0 <= i < k ==> xs[i].1 >= x.1
    {
      k := k + 1;
    }
    r := xs[..k] + [x] + xs[k..];
    InsertedDescending(xs, x, k, r);
    InsertedContents(xs, x, k);
  }

  lemma InsertedDescending<K>(xs: seq<(K, nat)>, x: (K, nat), k: nat, r: seq<(K, nat)>)
    requires Descending(xs) && k <= |xs| && r == xs[..k] + [x] + xs[k..]
    requires (forall i :: 0 <= i < k ==> xs[i].1 >= x.1) && (k < |xs| ==> x.1 >= xs[k].1)
    ensures Descending(r)
  {
    forall i, j | 0 <= i < j < |r| ensures r[i].1 >= r[j].1 {
      assert r[i] == if i < k then xs[i] else if i == k then x else xs[i - 1];
      assert r[j] == if j < k then xs[j] else if j == k then x else xs[j - 1];
      assert j - 1 > k ==> xs[k].1 >= xs[j - 1].1;
    }
  }

  lemma InsertedContents<T>(xs: seq<T>, x: T, k: nat)
    requires k <= |xs|
    ensures multiset(xs[..k] + [x] + xs[k..]) == multiset(xs) + multiset{x}
  {
    assert xs == xs[..k] + xs[k..];
  }

  method SortDescending<K>(xs: seq<(K, nat)>) returns (r: seq<(K, nat)>)
    ensures Descending(r) && multiset(r) == multiset(xs)
  {
    r := [];
    for k := 0 to |xs|
      invariant Descending(r) && multiset(r) == multiset(xs[..k])
    {
      assert xs[..k + 1] == xs[..k] + [xs[k]];
      r := InsertDescending(r, xs[k]);
    }
    assert xs[..|xs|] == xs;
  }
}

/** Inserts and counts of several threads at once: an insert locks for one cell at a time, a count reads cell by cell.
    */
module SketchConcurrency {
  import opened Wrappers
  import opened Sketches

  /** Where a thread stands: the next row of its insert or of its count. A count also carries the least cell so far,
      and how many inserts of the item had been completed when it began. */
  datatype Pc<K> =
    | Idle
    | Inserting(item: K, row: nat)
    | Counting(item: K, row: nat, least: nat, floor: nat)

  /** A count that returned: its value, the inserts of the item completed before it began, and all inserts begun
      before it returned. */
  datatype Answer<K> = Answer(item: K, count: nat, floor: nat, begun: nat)

  datatype World<K> =
    World(threads: seq<Pc<K>>, cells: seq<seq<nat>>, begun: nat, done: seq<K>, answers: seq<Answer<K>>)

  datatype Step<K> =
    | BeginInsert(t: nat, item: K) | Bump(t: nat) | EndInsert(t: nat)
    | BeginCount(t: nat, item: K) | Read(t: nat) | EndCount(t: nat)

  /** `cells` holds one list of buckets per row. */
  predicate Sized<K>(sh: Shape<K>, cells: seq<seq<nat>>) {
    |cells| == sh.depth && forall r :: 0 <= r < |cells| ==> |cells[r]| == sh.width
  }

  predicate Enabled<K>(sh: Shape<K>, w: World<K>, step: Step<K>) {
    step.t < |w.threads| &&
    var pc := w.threads[step.t];
    match step
    case BeginInsert(_, _) => pc.Idle?
    case Bump(_) => pc.Inserting? && pc.row < sh.depth
    case EndInsert(_) => pc.Inserting? && pc.row == sh.depth
    case BeginCount(_, _) => pc.Idle?
    case Read(_) => pc.Counting? && pc.row < sh.depth
    case EndCount(_) => pc.Counting? && pc.row == sh.depth
  }

  function Do<K(==)>(sh: Shape<K>, w: World<K>, step: Step<K>): World<K>
    requires Proper(sh) && Sized(sh, w.cells) && Enabled(sh, w, step)
  {
    var t := step.t;
    var pc := w.threads[t];
    match step
    case BeginInsert(_, x) => w.(threads := w.threads[t := Inserting(x, 0)], begun := w.begun + 1)
    case Bump(_) =>
      var b := Bucket(sh, pc.item, pc.row);
      var buckets: seq<nat> := w.cells[pc.row][b := Wrapped(w.cells[pc.row][b] + 1)];
      w.(threads := w.threads[t := Inserting(pc.item, pc.row + 1)], cells := w.cells[pc.row := buckets])
    case EndInsert(_) => w.(threads := w.threads[t := Idle], done := w.done + [pc.item])
    case BeginCount(_, x) => w.(threads := w.threads[t := Counting(x, 0, WRAP - 1, Occurrences(w.done, x))])
    case Read(_) =>
      var cell := w.cells[pc.row][Bucket(sh, pc.item, pc.row)];
      w.(threads := w.threads[t := Counting(pc.item, pc.row + 1, Min(cell, pc.least), pc.floor)])
    case EndCount(_) =>
      w.(threads := w.threads[t := Idle], answers := w.answers + [Answer(pc.item, pc.least, pc.floor, w.begun)])
  }

  function Init<K>(sh: Shape<K>, n: nat): World<K> {
    World(seq(n, _ => Idle), seq(sh.depth, _ => seq(sh.width, _ => 0)), 0, [], [])
  }

  ghost function Exec<K>(sh: Shape<K>, n: nat, steps: seq<Step<K>>): (r: Option<World<K>>)
    requires Proper(sh)
    ensures r.Some? ==> Sized(sh, r.value.cells) && |r.value.threads| == n
  {
    if steps == [] then Some(Init(sh, n))
    else
      var r := Exec(sh, n, steps[..|steps| - 1]);
      if r.Some? && Enabled(sh, r.value, steps[|steps| - 1]) then Some(Do(sh, r.value, steps[|steps| - 1])) else None
  }

  // ----- What every step keeps -----

  /** Whether an unfinished insert has already counted in that cell. */
  function Counted<K>(sh: Shape<K>, pc: Pc<K>, bucket: nat, row: nat): nat
    requires Proper(sh)
  {
    if pc.Inserting? && pc.row > row then Hit(sh, pc.item, bucket, row) else 0
  }

  function InFlight<K>(sh: Shape<K>, threads: seq<Pc<K>>, bucket: nat, row: nat): nat
    requires Proper(sh)
  {
    if threads == [] then 0 else Counted(sh, threads[0], bucket, row) + InFlight(sh, threads[1..], bucket, row)
  }

  function Unfinished<K>(threads: seq<Pc<K>>): nat {
    if threads == [] then 0 else (if threads[0].Inserting? then 1 else 0) + Unfinished(threads[1..])
  }

  lemma {:induction false} InFlightUpdate<K>(sh: Shape<K>, threads: seq<Pc<K>>, t: nat, pc: Pc<K>, bucket: nat,
                                             row: nat)
    requires Proper(sh) && t < |threads|
    ensures InFlight(sh, threads[t := pc], bucket, row) ==
              InFlight(sh, threads, bucket, row) - Counted(sh, threads[t], bucket, row) + Counted(sh, pc, bucket, row)
  {
    if t > 0 {
      assert threads[t := pc][1..] == threads[1..][t - 1 := pc];
      InFlightUpdate(sh, threads[1..], t - 1, pc, bucket, row);
    } else {
      assert threads[t := pc][1..] == threads[1..];
    }
  }

  lemma {:induction false} UnfinishedUpdate<K>(threads: seq<Pc<K>>, t: nat, pc: Pc<K>)
    requires t < |threads|
    ensures Unfinished(threads[t := pc]) ==
              Unfinished(threads) - (if threads[t].Inserting? then 1 else 0) + if pc.Inserting? then 1 else 0
  {
    if t > 0 {
      assert threads[t := pc][1..] == threads[1..][t - 1 := pc];
      UnfinishedUpdate(threads[1..], t - 1, pc);
    } else {
      assert threads[t := pc][1..] == threads[1..];
    }
  }

  lemma {:induction false} InFlightBound<K>(sh: Shape<K>, threads: seq<Pc<K>>, bucket: nat, row: nat)
    requires Proper(sh)
    ensures InFlight(sh, threads, bucket, row) <= Unfinished(threads)
  {
    if threads != [] {
      InFlightBound(sh, threads[1..], bucket, row);
    }
  }

  /** Completed inserts and the part of the others that got that far. */
  function TrueCount<K>(sh: Shape<K>, w: World<K>, bucket: nat, row: nat): nat
    requires Proper(sh)
  {
    Hits(sh, w.done, bucket, row) + InFlight(sh, w.threads, bucket, row)
  }

  ghost predicate CellsCount<K>(sh: Shape<K>, w: World<K>)
    requires Proper(sh) && Sized(sh, w.cells)
  {
    forall r, b :: 0 <= r < sh.depth && 0 <= b < sh.width ==> w.cells[r][b] == Wrapped(TrueCount(sh, w, b, r))
  }

  lemma HitsAppend<K>(sh: Shape<K>, stream: seq<K>, x: K, bucket: nat, row: nat)
    requires Proper(sh)
    ensures Hits(sh, stream + [x], bucket, row) == Hits(sh, stream, bucket, row) + Hit(sh, x, bucket, row)
    ensures Occurrences(stream + [x], x) == Occurrences(stream, x) + 1
    ensures forall y: K :: Occurrences(stream, y) <= Occurrences(stream + [x], y)
  {
    assert (stream + [x])[..|stream|] == stream;
  }

  lemma CellStep<K>(sh: Shape<K>, w: World<K>, step: Step<K>, b: nat, r: nat)
    requires Proper(sh) && Sized(sh, w.cells) && CellsCount(sh, w) && Enabled(sh, w, step)
    requires r < sh.depth && b < sh.width
    ensures Do(sh, w, step).cells[r][b] == Wrapped(TrueCount(sh, Do(sh, w, step), b, r))
  {
    var pc, w' := w.threads[step.t], Do(sh, w, step);
    assert w.cells[r][b] == Wrapped(TrueCount(sh, w, b, r));
    InFlightUpdate(sh, w.threads, step.t, w'.threads[step.t], b, r);
    if step.Bump? {
      if pc.row == r && Bucket(sh, pc.item, r) == b {
        WrappedSum(TrueCount(sh, w, b, r), 1);
      } else {
        assert w'.cells[r][b] == w.cells[r][b];
      }
    } else if step.EndInsert? {
      HitsAppend(sh, w.done, pc.item, b, r);
    }
  }

  /** A count in progress: at least the completed inserts it must report, at most the inserts begun. */
  ghost predicate CountBounded<K>(pc: Pc<K>, begun: nat, done: seq<K>) {
    pc.Counting? ==>
      pc.floor <= Occurrences(done, pc.item) && pc.floor <= pc.least && (pc.row > 0 ==> pc.least <= begun)
  }

  ghost predicate Answered<K>(a: Answer<K>) {
    a.floor <= a.count <= a.begun
  }

  ghost predicate Safe<K>(sh: Shape<K>, w: World<K>)
    requires Proper(sh) && Sized(sh, w.cells)
  {
    && CellsCount(sh, w)
    && w.begun == |w.done| + Unfinished(w.threads)
    && (w.begun < WRAP ==>
          && (forall t :: 0 <= t < |w.threads| ==> CountBounded(w.threads[t], w.begun, w.done))
          && AllAnswered(w))
  }

  /** While fewer than 2^32 inserts have begun, a cell of the item lies between the two bounds. */
  lemma CellBounds<K>(sh: Shape<K>, w: World<K>, x: K, r: nat)
    requires Proper(sh) && Sized(sh, w.cells) && Safe(sh, w) && w.begun < WRAP && r < sh.depth
    ensures Occurrences(w.done, x) <= w.cells[r][Bucket(sh, x, r)] <= w.begun
  {
    var b := Bucket(sh, x, r);
    assert w.cells[r][b] == Wrapped(TrueCount(sh, w, b, r));
    HitsBounds(sh, w.done, x, r);
    InFlightBound(sh, w.threads, b, r);
  }

  lemma {:induction false} OccurrencesBound<K>(stream: seq<K>, x: K)
    ensures Occurrences(stream, x) <= |stream|
  {
    if stream != [] {
      OccurrencesBound(stream[..|stream| - 1], x);
    }
  }

  lemma CountStep<K>(sh: Shape<K>, w: World<K>, step: Step<K>, u: nat)
    requires Proper(sh) && Sized(sh, w.cells) && Safe(sh, w) && Enabled(sh, w, step) && u < |w.threads|
    requires Do(sh, w, step).begun < WRAP
    ensures CountBounded(Do(sh, w, step).threads[u], Do(sh, w, step).begun, Do(sh, w, step).done)
  {
    var pc, w' := w.threads[step.t], Do(sh, w, step);
    assert CountBounded(w.threads[u], w.begun, w.done) && CountBounded(pc, w.begun, w.done);
    match step
    case EndInsert(_) => HitsAppend(sh, w.done, pc.item, 0, 0);
    case BeginCount(_, x) => OccurrencesBound(w.done, x);
    case Read(_) => CellBounds(sh, w, pc.item, pc.row);
    case _ =>
  }

  lemma SafeStep<K>(sh: Shape<K>, w: World<K>, step: Step<K>)
    requires Proper(sh) && Sized(sh, w.cells) && Safe(sh, w) && Enabled(sh, w, step)
    ensures Sized(sh, Do(sh, w, step).cells) && Safe(sh, Do(sh, w, step))
  {
    var w' := Do(sh, w, step);
    forall r, b | 0 <= r < sh.depth && 0 <= b < sh.width
      ensures w'.cells[r][b] == Wrapped(TrueCount(sh, w', b, r))
    {
      CellStep(sh, w, step, b, r);
    }
    UnfinishedUpdate(w.threads, step.t, w'.threads[step.t]);
    if w'.begun < WRAP {
      assert CountBounded(w.threads[step.t], w.begun, w.done);
      forall u | 0 <= u < |w'.threads| ensures CountBounded(w'.threads[u], w'.begun, w'.done) {
        CountStep(sh, w, step, u);
      }
    }
  }

  lemma {:induction false} AllIdle<K>(sh: Shape<K>, threads: seq<Pc<K>>, bucket: nat, row: nat)
    requires Proper(sh) && forall t :: 0 <= t < |threads| ==> !threads[t].Inserting?
    ensures InFlight(sh, threads, bucket, row) == 0 && Unfinished(threads) == 0
  {
    if threads != [] {
      AllIdle(sh, threads[1..], bucket, row);
    }
  }

  lemma {:induction false} ReachableSafe<K>(sh: Shape<K>, n: nat, steps: seq<Step<K>>)
    requires Proper(sh) && Exec(sh, n, steps).Some?
    ensures Safe(sh, Exec(sh, n, steps).value)
  {
    if steps == [] {
      var w := Init(sh, n);
      AllIdle(sh, w.threads, 0, 0);
      forall r, b | 0 <= r < sh.depth && 0 <= b < sh.width ensures w.cells[r][b] == Wrapped(TrueCount(sh, w, b, r)) {
        AllIdle(sh, w.threads, b, r);
      }
    } else {
      var last := |steps| - 1;
      ReachableSafe(sh, n, steps[..last]);
      SafeStep(sh, Exec(sh, n, steps[..last]).value, steps[last]);
    }
  }

  // ----- Which inserts were made -----

  /** How many inserts of the item the schedule begins. */
  function Begins<K(==)>(steps: seq<Step<K>>, x: K): nat {
    if steps == [] then 0
    else
      var step := steps[|steps| - 1];
      Begins(steps[..|steps| - 1], x) + if step.BeginInsert? && step.item == x then 1 else 0
  }

  function InFlightOf<K(==)>(threads: seq<Pc<K>>, x: K): nat {
    if threads == [] then 0
    else (if threads[0].Inserting? && threads[0].item == x then 1 else 0) + InFlightOf(threads[1..], x)
  }

  lemma {:induction false} InFlightOfUpdate<K>(threads: seq<Pc<K>>, t: nat, pc: Pc<K>, x: K)
    requires t < |threads|
    ensures InFlightOf(threads[t := pc], x) ==
              InFlightOf(threads, x) - (if threads[t].Inserting? && threads[t].item == x then 1 else 0)
              + if pc.Inserting? && pc.item == x then 1 else 0
  {
    if t > 0 {
      assert threads[t := pc][1..] == threads[1..][t - 1 := pc];
      InFlightOfUpdate(threads[1..], t - 1, pc, x);
    } else {
      assert threads[t := pc][1..] == threads[1..];
    }
  }

  lemma {:induction false} NoneInFlight<K>(threads: seq<Pc<K>>, x: K)
    requires forall t :: 0 <= t < |threads| ==> !threads[t].Inserting?
    ensures InFlightOf(threads, x) == 0
  {
    if threads != [] {
      NoneInFlight(threads[1..], x);
    }
  }

  /** Every insert that was begun is completed or under way, item by item. */
  lemma {:induction false} InsertsAccounted<K>(sh: Shape<K>, n: nat, steps: seq<Step<K>>, x: K)
    requires Proper(sh) && Exec(sh, n, steps).Some?
    ensures var w := Exec(sh, n, steps).value; Begins(steps, x) == Occurrences(w.done, x) + InFlightOf(w.threads, x)
  {
    if steps == [] {
      NoneInFlight(Init<K>(sh, n).threads, x);
    } else {
      var last := |steps| - 1;
      InsertsAccounted(sh, n, steps[..last], x);
      var w, step := Exec(sh, n, steps[..last]).value, steps[last];
      var w' := Do(sh, w, step);
      InFlightOfUpdate(w.threads, step.t, w'.threads[step.t], x);
      if step.EndInsert? {
        assert w'.done[..|w.done|] == w.done;
      }
    }
  }

  /** Every interleaving of inserts ends in the matrix of the same inserts made one after the other: the completed ones
      are, item by item, those that the schedule began. */
  lemma InsertsCommute<K>(sh: Shape<K>, n: nat, steps: seq<Step<K>>)
    requires Proper(sh) && Exec(sh, n, steps).Some?
    requires forall t :: 0 <= t < n ==> !Exec(sh, n, steps).value.threads[t].Inserting?
    ensures var w := Exec(sh, n, steps).value;
            && (forall x: K :: Occurrences(w.done, x) == Begins(steps, x))
            && |w.done| == w.begun
            && forall r, b :: 0 <= r < sh.depth && 0 <= b < sh.width ==>
                 w.cells[r][b] == Wrapped(Hits(sh, w.done, b, r))
  {
    ReachableSafe(sh, n, steps);
    var w := Exec(sh, n, steps).value;
    AllIdle(sh, w.threads, 0, 0);
    forall x: K ensures Occurrences(w.done, x) == Begins(steps, x) {
      InsertsAccounted(sh, n, steps, x);
      NoneInFlight(w.threads, x);
    }
    forall r, b | 0 <= r < sh.depth && 0 <= b < sh.width ensures w.cells[r][b] == Wrapped(Hits(sh, w.done, b, r)) {
      AllIdle(sh, w.threads, b, r);
    }
  }

  // ----- Counts among inserts -----

  /** Every count that returned, however its reads fell between the increments of other threads, lies between the
      inserts of the item completed before it began and all inserts begun before it returned. */
  lemma CountsBetween<K>(sh: Shape<K>, n: nat, steps: seq<Step<K>>)
    requires Proper(sh) && Exec(sh, n, steps).Some? && Exec(sh, n, steps).value.begun < WRAP
    ensures AllAnswered(Exec(sh, n, steps).value)
  {
    ReachableSafe(sh, n, steps);
  }

  ghost predicate AllAnswered<K>(w: World<K>) {
    forall k :: 0 <= k < |w.answers| ==> Answered(w.answers[k])
  }

  lemma ExecNext<K>(sh: Shape<K>, n: nat, steps: seq<Step<K>>, step: Step<K>)
    requires Proper(sh) && Exec(sh, n, steps).Some? && Enabled(sh, Exec(sh, n, steps).value, step)
    ensures Exec(sh, n, steps + [step]) == Some(Do(sh, Exec(sh, n, steps).value, step))
  {
    assert (steps + [step])[..|steps|] == steps;
  }

  /** The one thread of the world stands at `pc`, after these inserts. */
  ghost predicate Alone<K>(w: World<K>, pc: Pc<K>, done: seq<K>, begun: nat) {
    w.threads == [pc] && w.done == done && w.begun == begun
  }

  /** One thread makes one more insert. */
  lemma InsertAlone<K>(sh: Shape<K>, steps: seq<Step<K>>, done: seq<K>, begun: nat, x: K) returns (steps': seq<Step<K>>)
    requires Proper(sh) && Exec(sh, 1, steps).Some? && Alone(Exec(sh, 1, steps).value, Idle, done, begun)
    ensures Exec(sh, 1, steps').Some? && Alone(Exec(sh, 1, steps').value, Idle, done + [x], begun + 1)
  {
    ExecNext(sh, 1, steps, BeginInsert(0, x));
    steps' := steps + [BeginInsert(0, x)];
    for r := 0 to sh.depth
      invariant Exec(sh, 1, steps').Some? && Alone(Exec(sh, 1, steps').value, Inserting(x, r), done, begun + 1)
    {
      ExecNext(sh, 1, steps', Bump(0));
      steps' := steps' + [Bump(0)];
    }
    ExecNext(sh, 1, steps', EndInsert(0));
    steps' := steps' + [EndInsert(0)];
  }

  lemma {:induction false} InsertOften<K>(sh: Shape<K>, x: K, k: nat) returns (steps: seq<Step<K>>)
    requires Proper(sh)
    ensures Exec(sh, 1, steps).Some? && Alone(Exec(sh, 1, steps).value, Idle, seq(k, _ => x), k)
  {
    steps := [];
    if k > 0 {
      var before := InsertOften(sh, x, k - 1);
      steps := InsertAlone(sh, before, seq(k - 1, _ => x), k - 1, x);
      assert seq(k - 1, _ => x) + [x] == seq(k, _ => x);
    }
  }

  /** After 2^32 inserts of the item by one thread, all its cells are zero. */
  lemma CellsWrapped<K>(sh: Shape<K>, steps: seq<Step<K>>, pc: Pc<K>, x: K, r: nat)
    requires Proper(sh) && Exec(sh, 1, steps).Some? && !pc.Inserting? && r < sh.depth
    requires Alone(Exec(sh, 1, steps).value, pc, seq(WRAP, _ => x), WRAP)
    ensures Exec(sh, 1, steps).value.cells[r][Bucket(sh, x, r)] == 0
  {
    ReachableSafe(sh, 1, steps);
    var w, b := Exec(sh, 1, steps).value, Bucket(sh, x, r);
    AllIdle(sh, w.threads, b, r);
    AllTheSame(sh, x, WRAP, r);
    assert w.cells[r][b] == Wrapped(TrueCount(sh, w, b, r));
  }

  /** The count reads zero from every row. */
  lemma ReadsZeros<K>(sh: Shape<K>, x: K, before: seq<Step<K>>) returns (steps: seq<Step<K>>)
    requires Proper(sh) && Exec(sh, 1, before).Some?
    requires Alone(Exec(sh, 1, before).value, Counting(x, 0, WRAP - 1, WRAP), seq(WRAP, _ => x), WRAP)
    ensures Exec(sh, 1, steps).Some?
    ensures Alone(Exec(sh, 1, steps).value, Counting(x, sh.depth, 0, WRAP), seq(WRAP, _ => x), WRAP)
  {
    var done := seq(WRAP, _ => x);
    steps := before;
    for r := 0 to sh.depth
      invariant Exec(sh, 1, steps).Some?
      invariant Alone(Exec(sh, 1, steps).value, Counting(x, r, if r == 0 then WRAP - 1 else 0, WRAP), done, WRAP)
    {
      CellsWrapped(sh, steps, Exec(sh, 1, steps).value.threads[0], x, r);
      ExecNext(sh, 1, steps, Read(0));
      steps := steps + [Read(0)];
    }
  }

  /** A count after 2^32 inserts of the item answers zero. */
  lemma CountForgets<K>(sh: Shape<K>, x: K) returns (steps: seq<Step<K>>)
    requires Proper(sh)
    ensures Exec(sh, 1, steps).Some? && Exec(sh, 1, steps).value.begun == WRAP
    ensures !AllAnswered(Exec(sh, 1, steps).value)
  {
    steps := InsertOften(sh, x, WRAP);
    AllTheSame(sh, x, WRAP, 0);
    ExecNext(sh, 1, steps, BeginCount(0, x));
    steps := ReadsZeros(sh, x, steps + [BeginCount(0, x)]);
    ExecNext(sh, 1, steps, EndCount(0));
    var k := |Exec(sh, 1, steps).value.answers|;
    steps := steps + [EndCount(0)];
    assert !Answered(Exec(sh, 1, steps).value.answers[k]);
  }

  /** Every count of every schedule with at most `bound` inserts is answered within its bounds. */
  ghost predicate CountsSafe<K(!new)>(sh: Shape<K>, bound: nat)
    requires Proper(sh)
  {
    forall n: nat, steps: seq<Step<K>> :: Exec(sh, n, steps).Some? && Exec(sh, n, steps).value.begun <= bound ==>
      AllAnswered(Exec(sh, n, steps).value)
  }

  /** Counts keep their bounds exactly as long as fewer than 2^32 inserts begin. */
  lemma CountsSafeIff<K(!new)>(sh: Shape<K>, x: K, bound: nat)
    requires Proper(sh)
    ensures CountsSafe(sh, bound) <==> bound < WRAP
  {
    if bound < WRAP {
      forall n: nat, steps: seq<Step<K>> | Exec(sh, n, steps).Some? && Exec(sh, n, steps).value.begun <= bound
        ensures AllAnswered(Exec(sh, n, steps).value)
      {
        CountsBetween(sh, n, steps);
      }
    } else {
      var steps := CountForgets(sh, x);
    }
  }
}
