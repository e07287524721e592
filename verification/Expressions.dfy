/** Plan expressions: evaluation on one row and on a pair of rows, and the join rewrite. */
module Expressions {
  import opened Wrappers
  import opened Values

  datatype ArithmeticType = Plus | Minus
  datatype LogicType = And | Or

  /** The inner nodes of an expression tree; each has a list of children that a clone may replace. */
  datatype Operator =
    | Comparison(comp: ComparisonType)
    | Arithmetic(arith: ArithmeticType)
    | Logic(logic: LogicType)
    | ArrayOf

  datatype Expr =
    | ColumnValue(tupleIdx: nat, colIdx: nat, ret: TypeId)
    | Constant(val: Value)
    | Op(operator: Operator, children: seq<Expr>)

  function ReturnType(e: Expr): TypeId {
    match e
    case ColumnValue(_, _, ret) => ret
    case Constant(v) => TypeOf(v)
    case Op(Comparison(_), _) => BOOLEAN
    case Op(Logic(_), _) => BOOLEAN
    case Op(Arithmetic(_), _) => INTEGER
    case Op(ArrayOf, _) => VECTOR
  }

  /** 32-bit two's complement wrap-around of an integer result. */
  function Wrap32(i: int): int {
    (i + 0x8000_0000) % 0x1_0000_0000 - 0x8000_0000
  }

  function AsCmp(v: Value): CmpBool {
    match v
    case BoolV(b) => ToCmp(b)
    case _ => CmpNull
  }

  function LogicResult(op: LogicType, l: CmpBool, r: CmpBool): CmpBool {
    match op
    case And =>
      if l == CmpFalse || r == CmpFalse then CmpFalse
      else if l == CmpTrue && r == CmpTrue then CmpTrue
      else CmpNull
    case Or =>
      if l == CmpFalse && r == CmpFalse then CmpFalse
      else if l == CmpTrue || r == CmpTrue then CmpTrue
      else CmpNull
  }

  function ArithmeticResult(op: ArithmeticType, l: Value, r: Value): Value {
    if l.IntV? && r.IntV? then
      IntV(Wrap32(if op == Plus then l.i + r.i else l.i - r.i))
    else Null(INTEGER)
  }

  function Apply(op: Operator, vals: seq<Value>): Value {
    match op
    case Comparison(c) =>
      if |vals| == 2 then CmpValue(Compare(c, vals[0], vals[1])) else Null(BOOLEAN)
    case Arithmetic(a) =>
      if |vals| == 2 then ArithmeticResult(a, vals[0], vals[1]) else Null(INTEGER)
    case Logic(l) =>
      if |vals| == 2 then CmpValue(LogicResult(l, AsCmp(vals[0]), AsCmp(vals[1]))) else Null(BOOLEAN)
    case ArrayOf =>
      if AllDecimal(vals) then VectorV(Decimals(vals)) else Null(VECTOR)
  }

  predicate AllDecimal(vals: seq<Value>) {
    forall i :: 0 <= i < |vals| ==> vals[i].DecimalV?
  }

  function Decimals(vals: seq<Value>): (ds: seq<real>)
    requires AllDecimal(vals)
    ensures |ds| == |vals|
  {
    seq(|vals|, i requires 0 <= i < |vals| => vals[i].d)
  }

  function Zeros(n: nat): (zs: seq<real>)
    ensures |zs| == n
  {
    seq(n, _ => 0.0)
  }

  /** On a pair of rows an array comes out with one leading zero per element: the original resizes the
      buffer to the number of children before it appends their values. */
  function ApplyJoin(op: Operator, vals: seq<Value>): Value {
    if op == ArrayOf && AllDecimal(vals) then VectorV(Zeros(|vals|) + Decimals(vals))
    else Apply(op, vals)
  }

  function ColumnOf(row: Row, col: nat, ret: TypeId): Value {
    if col < |row| then row[col] else Null(ret)
  }

  /** Evaluation on a single row: the tuple index of a column is not looked at. */
  function Eval(e: Expr, row: Row): Value
    decreases e, 1
  {
    match e
    case ColumnValue(_, c, ret) => ColumnOf(row, c, ret)
    case Constant(v) => v
    case Op(op, es) => Apply(op, EvalAll(es, row))
  }

  function EvalAll(es: seq<Expr>, row: Row): (vs: seq<Value>)
    ensures |vs| == |es|
    ensures forall i :: 0 <= i < |es| ==> vs[i] == Eval(es[i], row)
    decreases es, 0
  {
    if es == [] then [] else [Eval(es[0], row)] + EvalAll(es[1..], row)
  }

  /** Evaluation on a pair of rows: tuple index 0 reads the left row, any other index the right row. */
  function EvalJoin(e: Expr, l: Row, r: Row): Value
    decreases e, 1
  {
    match e
    case ColumnValue(t, c, ret) => if t == 0 then ColumnOf(l, c, ret) else ColumnOf(r, c, ret)
    case Constant(v) => v
    case Op(op, es) => ApplyJoin(op, EvalJoinAll(es, l, r))
  }

  function EvalJoinAll(es: seq<Expr>, l: Row, r: Row): (vs: seq<Value>)
    ensures |vs| == |es|
    decreases es, 0
  {
    if es == [] then [] else [EvalJoin(es[0], l, r)] + EvalJoinAll(es[1..], l, r)
  }

  /** Every column of the expression belongs to tuple 0 and lies below `width`. */
  predicate ColumnsBelow(e: Expr, width: nat)
    decreases e, 1
  {
    match e
    case ColumnValue(t, c, _) => t == 0 && c < width
    case Constant(_) => true
    case Op(_, es) => AllColumnsBelow(es, width)
  }

  predicate AllColumnsBelow(es: seq<Expr>, width: nat)
    decreases es, 0
  {
    es == [] || (ColumnsBelow(es[0], width) && AllColumnsBelow(es[1..], width))
  }

  /** Every column belongs to tuple 0 and lies below `lw`, or to tuple 1 and lies below `rw`. */
  predicate JoinColumnsBelow(e: Expr, lw: nat, rw: nat)
    decreases e, 1
  {
    match e
    case ColumnValue(t, c, _) => (t == 0 && c < lw) || (t == 1 && c < rw)
    case Constant(_) => true
    case Op(_, es) => AllJoinColumnsBelow(es, lw, rw)
  }

  predicate AllJoinColumnsBelow(es: seq<Expr>, lw: nat, rw: nat)
    decreases es, 0
  {
    es == [] || (JoinColumnsBelow(es[0], lw, rw) && AllJoinColumnsBelow(es[1..], lw, rw))
  }

  /** Splits the columns of a filter over a join between the two sides; None where the original throws. */
  function RewriteForJoin(e: Expr, lw: nat, rw: nat): Option<Expr>
    decreases e, 1
  {
    match e
    case ColumnValue(t, c, ret) =>
      if t != 0 then None
      else if c < lw then Some(ColumnValue(0, c, ret))
      else if c < lw + rw then Some(ColumnValue(1, c - lw, ret))
      else None
    case Constant(_) => Some(e)
    case Op(op, es) =>
      var kids := RewriteAllForJoin(es, lw, rw);
      if kids.None? then None else Some(Op(op, kids.value))
  }

  function RewriteAllForJoin(es: seq<Expr>, lw: nat, rw: nat): (r: Option<seq<Expr>>)
    ensures r.Some? ==> |r.value| == |es|
    decreases es, 0
  {
    if es == [] then Some([])
    else
      var head := RewriteForJoin(es[0], lw, rw);
      var tail := RewriteAllForJoin(es[1..], lw, rw);
      if head.None? || tail.None? then None else Some([head.value] + tail.value)
  }

  predicate IsArray(e: Expr) {
    e.Op? && e.operator == ArrayOf
  }

  /** Equal, except that two vectors are not told apart. */
  predicate Alike(v: Value, w: Value) {
    v == w || (v.VectorV? && w.VectorV?)
  }

  ghost predicate AllAlike(vs: seq<Value>, ws: seq<Value>) {
    |vs| == |ws| && forall i :: 0 <= i < |vs| ==> Alike(vs[i], ws[i])
  }

  /** No operator looks inside a vector, so alike operands give equal results. */
  lemma ApplyAlike(op: Operator, vs: seq<Value>, ws: seq<Value>)
    requires AllAlike(vs, ws)
    ensures Apply(op, vs) == Apply(op, ws)
  {
    if op == ArrayOf {
      if AllDecimal(vs) || AllDecimal(ws) {
        assert forall i :: 0 <= i < |vs| ==> vs[i] == ws[i];
        assert vs == ws;
      }
    } else if |vs| == 2 {
      assert Alike(vs[0], ws[0]) && Alike(vs[1], ws[1]);
    }
  }

  /** The value the join form of `e` has on two rows, in terms of the value of `e` on their concatenation. */
  ghost predicate JoinValueOf(e: Expr, joined: Value, plain: Value) {
    if IsArray(e) && plain.VectorV? then joined == VectorV(Zeros(|e.children|) + plain.elems)
    else joined == plain
  }

  /** The rewrite is defined exactly on expressions whose columns lie in the concatenated row. There it keeps
      the value of every expression, except that an array gains one leading zero per element. */
  lemma {:induction false} JoinRewriteMeaning(e: Expr, lw: nat, rw: nat)
    ensures RewriteForJoin(e, lw, rw).Some? <==> ColumnsBelow(e, lw + rw)
    ensures RewriteForJoin(e, lw, rw).Some? ==>
              var f := RewriteForJoin(e, lw, rw).value;
              && JoinColumnsBelow(f, lw, rw)
              && ReturnType(f) == ReturnType(e)
              && (f.Constant? ==> f == e)
              && forall l: Row, r: Row :: |l| == lw && |r| == rw ==>
                   JoinValueOf(e, EvalJoin(f, l, r), Eval(e, l + r))
    decreases e, 1
  {
    match e
    case ColumnValue(_, _, _) =>
    case Constant(_) =>
    case Op(op, es) =>
      JoinRewriteMeaningAll(es, lw, rw);
      if RewriteForJoin(e, lw, rw).Some? {
        var f := RewriteForJoin(e, lw, rw).value;
        forall l: Row, r: Row | |l| == lw && |r| == rw
          ensures JoinValueOf(e, EvalJoin(f, l, r), Eval(e, l + r))
        {
          var vs, ws := EvalJoinAll(f.children, l, r), EvalAll(es, l + r);
          ApplyAlike(op, vs, ws);
          if op == ArrayOf && (AllDecimal(vs) || AllDecimal(ws)) {
            assert forall i :: 0 <= i < |vs| ==> vs[i] == ws[i];
            assert vs == ws;
          }
        }
      }
  }

  lemma {:induction false} JoinRewriteMeaningAll(es: seq<Expr>, lw: nat, rw: nat)
    ensures RewriteAllForJoin(es, lw, rw).Some? <==> AllColumnsBelow(es, lw + rw)
    ensures RewriteAllForJoin(es, lw, rw).Some? ==>
              var fs := RewriteAllForJoin(es, lw, rw).value;
              && AllJoinColumnsBelow(fs, lw, rw)
              && forall l: Row, r: Row :: |l| == lw && |r| == rw ==>
                   AllAlike(EvalJoinAll(fs, l, r), EvalAll(es, l + r))
    decreases es, 0
  {
    if es != [] {
      JoinRewriteMeaning(es[0], lw, rw);
      JoinRewriteMeaningAll(es[1..], lw, rw);
    }
  }

  /** An operand that is a decimal on some row; no operator gives a decimal. */
  predicate MayBeDecimal(e: Expr) {
    e.ColumnValue? || (e.Constant? && e.val.DecimalV?)
  }

  /** A non-empty array of columns and decimal constants: the arrays that come out longer over a join. */
  predicate GainsZeros(e: Expr) {
    IsArray(e) && e.children != [] && forall i :: 0 <= i < |e.children| ==> MayBeDecimal(e.children[i])
  }

  lemma NeverDecimal(e: Expr, row: Row)
    requires !MayBeDecimal(e)
    ensures !Eval(e, row).DecimalV?
  {
  }

  function DecimalRow(n: nat): (row: Row)
    ensures |row| == n
  {
    seq(n, _ => DecimalV(0.0))
  }

  lemma {:induction false} ColumnsAreBelow(es: seq<Expr>, w: nat, i: nat)
    requires AllColumnsBelow(es, w) && i < |es|
    ensures ColumnsBelow(es[i], w)
  {
    if i > 0 {
      ColumnsAreBelow(es[1..], w, i - 1);
    }
  }

  /** On a row of decimals, columns and decimal constants are decimals. */
  lemma DecimalOnDecimals(e: Expr, lw: nat, rw: nat)
    requires ColumnsBelow(e, lw + rw) && MayBeDecimal(e)
    ensures Eval(e, DecimalRow(lw) + DecimalRow(rw)).DecimalV?
  {
  }

  /** An array of columns in range evaluates to a vector on some pair of rows exactly when its elements allow it. */
  lemma VectorSomewhere(e: Expr, lw: nat, rw: nat)
    requires ColumnsBelow(e, lw + rw) && IsArray(e) && e.children != []
    ensures (exists l: Row, r: Row :: |l| == lw && |r| == rw && Eval(e, l + r).VectorV?) <==> GainsZeros(e)
  {
    var es := e.children;
    if GainsZeros(e) {
      var l, r := DecimalRow(lw), DecimalRow(rw);
      forall i | 0 <= i < |es| ensures Eval(es[i], l + r).DecimalV? {
        ColumnsAreBelow(es, lw + rw, i);
        DecimalOnDecimals(es[i], lw, rw);
      }
      assert AllDecimal(EvalAll(es, l + r));
      assert Eval(e, l + r).VectorV?;
    } else {
      var i :| 0 <= i < |es| && !MayBeDecimal(es[i]);
      forall l: Row, r: Row ensures !Eval(e, l + r).VectorV? {
        NeverDecimal(es[i], l + r);
        assert !EvalAll(es, l + r)[i].DecimalV?;
      }
    }
  }

  /** The rewrite keeps the value of `e` on every pair of rows exactly when `e` is not a non-empty array of columns and
      decimal constants. */
  lemma JoinRewriteKeepsValue(e: Expr, lw: nat, rw: nat)
    requires ColumnsBelow(e, lw + rw)
    ensures RewriteForJoin(e, lw, rw).Some?
    ensures (forall l: Row, r: Row :: |l| == lw && |r| == rw ==>
               EvalJoin(RewriteForJoin(e, lw, rw).value, l, r) == Eval(e, l + r))
       <==> !GainsZeros(e)
  {
    JoinRewriteMeaning(e, lw, rw);
    var f := RewriteForJoin(e, lw, rw).value;
    if IsArray(e) && e.children != [] {
      VectorSomewhere(e, lw, rw);
      forall l: Row, r: Row | |l| == lw && |r| == rw && Eval(e, l + r).VectorV?
        ensures EvalJoin(f, l, r) != Eval(e, l + r)
      {
        assert JoinValueOf(e, EvalJoin(f, l, r), Eval(e, l + r));
        assert |EvalJoin(f, l, r).elems| > |Eval(e, l + r).elems|;
      }
    } else if IsArray(e) {
      assert Zeros(0) + [] == [];
    }
  }

  lemma ConstantAlone(c: Expr, l: Row, r: Row)
    requires c.Constant?
    ensures EvalAll([c], l + r) == [c.val] && EvalJoinAll([c], l, r) == [c.val]
  {
  }

  lemma ConstantRewritten(cs: seq<Expr>, lw: nat, rw: nat)
    requires |cs| == 1 && cs[0].Constant?
    ensures RewriteAllForJoin(cs, lw, rw) == Some(cs)
  {
    assert cs[1..] == [] && RewriteForJoin(cs[0], lw, rw) == Some(cs[0]);
    assert RewriteAllForJoin([], lw, rw) == Some([]);
    assert [cs[0]] + [] == cs;
  }

  /** The array of one decimal constant d is [d] on one row, and [0, d] on two. */
  lemma ArrayGainsZero(d: real, l: Row, r: Row)
    ensures var e := Op(ArrayOf, [Constant(DecimalV(d))]);
            && RewriteForJoin(e, |l|, |r|) == Some(e)
            && Eval(e, l + r) == VectorV([d])
            && EvalJoin(e, l, r) == VectorV([0.0, d])
  {
    ConstantAlone(Constant(DecimalV(d)), l, r);
    ConstantRewritten([Constant(DecimalV(d))], |l|, |r|);
    assert Decimals([DecimalV(d)]) == [d] && Zeros(1) + [d] == [0.0, d];
  }
}
