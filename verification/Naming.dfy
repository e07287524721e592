/** Column names: how the planner finds a bound column again in the schemas of the plans below. */
module Naming {
  import opened Wrappers
  import opened Expressions
  import opened Plans

  datatype PlanError =
    | AggregationNotAllowed
    | UnexpectedAggCall
    | UnsupportedExpression
    | UnsupportedFunction
    | UnsupportedOperator
    | DistinctAggregate
    | NotInteger
    | NotBoolean
    | NoChildForColumn
    | ColumnNotFound
    | DuplicatedColumn
    | AmbiguousColumn
    | UnsupportedTable

  /** The parts of a name joined with dots. */
  function JoinPath(path: seq<string>): string {
    if path == [] then ""
    else if |path| == 1 then path[0]
    else path[0] + "." + JoinPath(path[1..])
  }

  function Digit(d: nat): char
    requires d < 10
  {
    ['0', '1', '2', '3', '4', '5', '6', '7', '8', '9'][d]
  }

  function Decimal(n: nat): string {
    if n < 10 then [Digit(n)] else Decimal(n / 10) + [Digit(n % 10)]
  }

  /** The number that decimal digits stand for. */
  function ReadDecimal(s: string): int {
    if s == "" then 0 else 10 * ReadDecimal(s[..|s| - 1]) + (s[|s| - 1] as int - '0' as int)
  }

  /** A number is written in digits, without a leading zero, and reads back. */
  lemma {:induction false} DecimalReadsBack(n: nat)
    ensures var s := Decimal(n);
            ReadDecimal(s) == n && s != "" && (s[0] == '0' ==> n == 0) && forall c :: c in s ==> '0' <= c <= '9'
  {
    if n >= 10 {
      DecimalReadsBack(n / 10);
      assert Decimal(n)[..|Decimal(n)| - 1] == Decimal(n / 10);
    } else {
      assert ReadDecimal("") == 0;
    }
  }

  /** The first column of that name. */
  function TryGetColIdx(s: Schema, name: string): (r: Option<nat>)
    ensures r.Some? ==> r.value < |s| && s[r.value].name == name
                        && forall i :: 0 <= i < r.value ==> s[i].name != name
    ensures r.None? ==> forall i :: 0 <= i < |s| ==> s[i].name != name
  {
    if s == [] then None
    else if s[0].name == name then Some(0)
    else
      var rest := TryGetColIdx(s[1..], name);
      assert forall i :: 0 < i < |s| ==> s[i] == s[1..][i - 1];
      if rest.None? then None else Some(rest.value + 1)
  }

  ghost predicate NameRepeats(s: Schema, name: string) {
    exists i, j :: 0 <= i < j < |s| && s[i].name == name && s[j].name == name
  }

  /** What a column reference is planned to, over no, one or two child schemas. */
  ghost function PlanColumn(path: seq<string>, kids: seq<Schema>): Result<Expr, PlanError> {
    var name := JoinPath(path);
    if |kids| == 0 then Err(NoChildForColumn)
    else if |kids| == 1 then
      if NameRepeats(kids[0], name) then Err(DuplicatedColumn)
      else match TryGetColIdx(kids[0], name)
        case None => Err(ColumnNotFound)
        case Some(i) => Ok(ColumnValue(0, i, kids[0][i].t))
    else
      match (TryGetColIdx(kids[0], name), TryGetColIdx(kids[1], name))
      case (Some(_), Some(_)) => Err(AmbiguousColumn)
      case (Some(i), None) => Ok(ColumnValue(0, i, kids[0][i].t))
      case (None, Some(i)) => Ok(ColumnValue(1, i, kids[1][i].t))
      case (None, None) => Err(ColumnNotFound)
  }

  /** The scan for a duplicated name before the lookup over one child. */
  method PlanColumnRef(path: seq<string>, kids: seq<Schema>) returns (r: Result<Expr, PlanError>)
    requires |kids| <= 2
    ensures r == PlanColumn(path, kids)
  {
    if |kids| == 0 {
      return Err(NoChildForColumn);
    }
    var name := JoinPath(path);
    if |kids| == 1 {
      var s := kids[0];
      var found := false;
      for k := 0 to |s|
        invariant found <==> exists i :: 0 <= i < k && s[i].name == name
        invariant forall i, j :: 0 <= i < j < k ==> !(s[i].name == name && s[j].name == name)
      {
        if s[k].name == name {
          if found {
            assert NameRepeats(s, name);
            return Err(DuplicatedColumn);
          }
          found := true;
        }
      }
      var idx := TryGetColIdx(s, name);
      if idx.None? {
        return Err(ColumnNotFound);
      }
      return Ok(ColumnValue(0, idx.value, s[idx.value].t));
    }
    var left := TryGetColIdx(kids[0], name);
    var right := TryGetColIdx(kids[1], name);
    if left.Some? && right.Some? {
      return Err(AmbiguousColumn);
    }
    if left.Some? {
      return Ok(ColumnValue(0, left.value, kids[0][left.value].t));
    }
    if right.Some? {
      return Ok(ColumnValue(1, right.value, kids[1][right.value].t));
    }
    return Err(ColumnNotFound);
  }
}
