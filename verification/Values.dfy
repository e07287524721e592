/** Results of operations that the original may refuse with an exception. */
module Wrappers {
  datatype Option<+T> = None | Some(value: T)
  datatype Result<+T, +E> = Ok(value: T) | Err(error: E)
}

module Sequences {
  lemma Assoc<T>(a: seq<T>, b: seq<T>, c: seq<T>)
    ensures a + (b + c) == a + b + c
  {
  }
}

/** Typed SQL values, three-valued comparison, and the order used by ORDER BY and by ordered indexes. */
module Values {

  datatype TypeId = BOOLEAN | INTEGER | DECIMAL | VARCHAR | VECTOR

  datatype Value =
    | Null(t: TypeId)
    | BoolV(b: bool)
    | IntV(i: int)
    | DecimalV(d: real)
    | VarcharV(s: string)
    | VectorV(elems: seq<real>)

  type Row = seq<Value>

  datatype CmpBool = CmpFalse | CmpTrue | CmpNull

  datatype ComparisonType =
    Equal | NotEqual | LessThan | LessThanOrEqual | GreaterThan | GreaterThanOrEqual

  function TypeOf(v: Value): TypeId {
    match v
    case Null(t) => t
    case BoolV(_) => BOOLEAN
    case IntV(_) => INTEGER
    case DecimalV(_) => DECIMAL
    case VarcharV(_) => VARCHAR
    case VectorV(_) => VECTOR
  }

  function CmpValue(c: CmpBool): Value {
    match c
    case CmpFalse => BoolV(false)
    case CmpTrue => BoolV(true)
    case CmpNull => Null(BOOLEAN)
  }

  function ToCmp(b: bool): CmpBool {
    if b then CmpTrue else CmpFalse
  }

  /** A row passes a predicate when the predicate's value is neither null nor false. */
  predicate Passes(v: Value) {
    v == BoolV(true)
  }

  predicate StringLeq(a: string, b: string) {
    a == [] || (b != [] && (a[0] < b[0] || (a[0] == b[0] && StringLeq(a[1..], b[1..]))))
  }

  function Rank(v: Value): nat {
    match v
    case Null(_) => 0
    case BoolV(_) => 1
    case IntV(_) => 2
    case DecimalV(_) => 3
    case VarcharV(_) => 4
    case VectorV(_) => 5
  }

  /** Total preorder on values; null is the least value, vectors are not told apart. */
  predicate Leq(a: Value, b: Value) {
    if Rank(a) != Rank(b) then Rank(a) < Rank(b)
    else match a
      case Null(_) => true
      case BoolV(x) => !x || b.b
      case IntV(x) => x <= b.i
      case DecimalV(x) => x <= b.d
      case VarcharV(x) => StringLeq(x, b.s)
      case VectorV(_) => true
  }

  predicate Comparable(a: Value, b: Value) {
    !a.Null? && !b.Null? && !a.VectorV? && Rank(a) == Rank(b)
  }

  function Compare(op: ComparisonType, a: Value, b: Value): CmpBool {
    if !Comparable(a, b) then CmpNull
    else match op
      case Equal => ToCmp(a == b)
      case NotEqual => ToCmp(a != b)
      case LessThan => ToCmp(!Leq(b, a))
      case LessThanOrEqual => ToCmp(Leq(a, b))
      case GreaterThan => ToCmp(!Leq(a, b))
      case GreaterThanOrEqual => ToCmp(Leq(b, a))
  }

  lemma {:induction false} StringLeqTotal(a: string, b: string)
    ensures StringLeq(a, b) || StringLeq(b, a)
  {
    if a != [] && b != [] {
      StringLeqTotal(a[1..], b[1..]);
    }
  }

  lemma {:induction false} StringLeqTransitive(a: string, b: string, c: string)
    requires StringLeq(a, b) && StringLeq(b, c)
    ensures StringLeq(a, c)
  {
    if a != [] && a[0] == b[0] && b[0] == c[0] {
      StringLeqTransitive(a[1..], b[1..], c[1..]);
    }
  }

  lemma LeqTotal(a: Value, b: Value)
    ensures Leq(a, b) || Leq(b, a)
  {
    if a.VarcharV? && b.VarcharV? {
      StringLeqTotal(a.s, b.s);
    }
  }

  lemma LeqTransitive(a: Value, b: Value, c: Value)
    requires Leq(a, b) && Leq(b, c)
    ensures Leq(a, c)
  {
    if a.VarcharV? && b.VarcharV? && c.VarcharV? {
      StringLeqTransitive(a.s, b.s, c.s);
    }
  }
}
