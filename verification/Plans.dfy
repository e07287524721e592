/** Plan trees, the catalog, the stored data, and the rows a plan may produce. */
module Plans {
  import opened Wrappers
  import opened Values
  import opened Expressions
  import opened Ordering

  datatype Column = Column(name: string, t: TypeId)
  type Schema = seq<Column>

  datatype JoinType = LEFT | RIGHT | INNER | OUTER
  datatype AggregationType = CountStar | Count | Sum | Min | Max

  datatype Kind =
    | SeqScan(tableOid: nat, tableName: string, scanFilter: Option<Expr>)
    | IndexScan(tableOid: nat, indexOid: nat)
    | Filter(predicate_: Expr)
    | NestedLoopJoin(joinPredicate: Expr, joinType: JoinType)
    | NestedIndexJoin(keyPredicate: Expr, innerOid: nat, indexOid: nat, indexName: string, indexTable: string,
                      innerSchema: Schema, joinType: JoinType)
    | Projection(exprs: seq<Expr>)
    | Sort(orderBys: seq<OrderBy>)
    | Limit(n: nat)
    | ValuesList(cells: seq<seq<Expr>>)
    | Aggregation(groupBys: seq<Expr>, aggregates: seq<Expr>, aggTypes: seq<AggregationType>)
    | Other(tag: nat)

  /** A plan node: its own fields, its output schema, its children. */
  datatype Plan = Node(kind: Kind, schema: Schema, children: seq<Plan>)

  datatype TableInfo = TableInfo(name: string, types: seq<TypeId>)
  datatype IndexInfo = IndexInfo(oid: nat, name: string, keyAttrs: seq<nat>, ordered: bool)
  datatype Catalog = Catalog(tables: map<nat, TableInfo>, indexes: map<string, seq<IndexInfo>>)

  function TableIndexes(cat: Catalog, table: string): seq<IndexInfo> {
    if table in cat.indexes then cat.indexes[table] else []
  }

  /** An index: its key columns, and the positions of the table rows in index order. */
  datatype StoredIndex = StoredIndex(keyAttrs: seq<nat>, entries: seq<nat>)

  /** Table rows by table oid, indexes by index oid, and the meaning of the operators
      that no rule looks at: aggregate functions, and the plan nodes gathered under `Other`. */
  datatype Database = Database(tables: map<nat, seq<Row>>, indexes: map<nat, StoredIndex>,
                               aggregate: (AggregationType, seq<Value>) -> Value,
                               other: (nat, seq<seq<Row>>, seq<Row>) -> bool)

  function Types(s: Schema): (ts: seq<TypeId>)
    ensures |ts| == |s|
  {
    seq(|s|, i requires 0 <= i < |s| => s[i].t)
  }

  function KidTypes(ps: seq<Plan>): (ts: seq<seq<TypeId>>)
    ensures |ts| == |ps|
  {
    seq(|ps|, i requires 0 <= i < |ps| => Types(ps[i].schema))
  }

  function NullRow(ts: seq<TypeId>): (row: Row)
    ensures |row| == |ts|
  {
    seq(|ts|, i requires 0 <= i < |ts| => Null(ts[i]))
  }

  ghost predicate AllWidth(rows: seq<Row>, w: nat) {
    forall i :: 0 <= i < |rows| ==> |rows[i]| == w
  }

  // ----- Row operators -----

  function FilterRows(e: Expr, rows: seq<Row>): seq<Row> {
    if rows == [] then []
    else (if Passes(Eval(e, rows[0])) then [rows[0]] else []) + FilterRows(e, rows[1..])
  }

  function FilterOptional(e: Option<Expr>, rows: seq<Row>): seq<Row> {
    match e
    case None => rows
    case Some(f) => FilterRows(f, rows)
  }

  function ProjectRows(es: seq<Expr>, rows: seq<Row>): (out: seq<Row>)
    ensures |out| == |rows|
  {
    seq(|rows|, i requires 0 <= i < |rows| => EvalAll(es, rows[i]))
  }

  /** The rows `l + r` with the given left row and a right row that satisfies the join predicate. */
  function MatchRows(e: Expr, l: Row, rs: seq<Row>): seq<Row> {
    if rs == [] then []
    else (if Passes(EvalJoin(e, l, rs[0])) then [l + rs[0]] else []) + MatchRows(e, l, rs[1..])
  }

  /** A left join pads a left row that has no match. */
  function PadUnmatched(jt: JoinType, l: Row, matched: seq<Row>, pad: Row): seq<Row> {
    if matched == [] && jt == LEFT then [l + pad] else matched
  }

  function JoinRows(e: Expr, jt: JoinType, ls: seq<Row>, rs: seq<Row>, pad: Row): seq<Row> {
    if ls == [] then []
    else PadUnmatched(jt, ls[0], MatchRows(e, ls[0], rs), pad) + JoinRows(e, jt, ls[1..], rs, pad)
  }

  function PickRows(rows: seq<Row>, entries: seq<nat>): (out: seq<Row>)
    requires forall i :: 0 <= i < |entries| ==> entries[i] < |rows|
    ensures |out| == |entries|
  {
    seq(|entries|, i requires 0 <= i < |entries| => rows[entries[i]])
  }

  /** The index entries whose key column equals `key`, in index order. */
  function ProbeEntries(rows: seq<Row>, col: nat, key: Value, entries: seq<nat>): (hits: seq<nat>)
    requires forall i :: 0 <= i < |entries| ==> entries[i] < |rows|
    ensures forall i :: 0 <= i < |hits| ==> hits[i] < |rows|
  {
    if entries == [] then []
    else
      (if Compare(Equal, ColumnOf(rows[entries[0]], col, BOOLEAN), key) == CmpTrue then [entries[0]] else [])
      + ProbeEntries(rows, col, key, entries[1..])
  }

  function Prefixed(l: Row, rs: seq<Row>): (out: seq<Row>)
    ensures |out| == |rs|
  {
    seq(|rs|, i requires 0 <= i < |rs| => l + rs[i])
  }

  function IndexJoinRows(key: Expr, jt: JoinType, ls: seq<Row>, rows: seq<Row>, col: nat, entries: seq<nat>, pad: Row)
    : seq<Row>
    requires forall i :: 0 <= i < |entries| ==> entries[i] < |rows|
  {
    if ls == [] then []
    else
      var hits := ProbeEntries(rows, col, Eval(key, ls[0]), entries);
      PadUnmatched(jt, ls[0], Prefixed(ls[0], PickRows(rows, hits)), pad)
      + IndexJoinRows(key, jt, ls[1..], rows, col, entries, pad)
  }

  ghost function GroupKeys(groupBys: seq<Expr>, rows: seq<Row>): set<Row> {
    if groupBys == [] then {[]} else set r | r in rows :: EvalAll(groupBys, r)
  }

  function GroupRows(groupBys: seq<Expr>, key: Row, rows: seq<Row>): seq<Row> {
    if rows == [] then []
    else (if EvalAll(groupBys, rows[0]) == key then [rows[0]] else []) + GroupRows(groupBys, key, rows[1..])
  }

  function ColumnValues(e: Expr, rows: seq<Row>): (vs: seq<Value>)
    ensures |vs| == |rows|
  {
    seq(|rows|, i requires 0 <= i < |rows| => Eval(e, rows[i]))
  }

  function AggregateValues(db: Database, types: seq<AggregationType>, inputs: seq<Expr>, group: seq<Row>): (vs: Row)
    requires |types| == |inputs|
    ensures |vs| == |types|
  {
    seq(|types|, i requires 0 <= i < |types| => db.aggregate(types[i], ColumnValues(inputs[i], group)))
  }

  /** The groups come out in no fixed order, one row per group. */
  ghost predicate ListsKeys(keys: seq<Row>, all: set<Row>) {
    && (forall i, j :: 0 <= i < j < |keys| ==> keys[i] != keys[j])
    && (forall k :: k in keys <==> k in all)
  }

  function AggregateRows(db: Database, groupBys: seq<Expr>, inputs: seq<Expr>, types: seq<AggregationType>,
                         rows: seq<Row>, keys: seq<Row>): (out: seq<Row>)
    requires |inputs| == |types|
    ensures |out| == |keys|
  {
    seq(|keys|, i requires 0 <= i < |keys| =>
          keys[i] + AggregateValues(db, types, inputs, GroupRows(groupBys, keys[i], rows)))
  }

  // ----- Meaning of a node on the rows of its children -----

  ghost predicate IndexOver(db: Database, oid: nat, index: nat) {
    && oid in db.tables && index in db.indexes
    && forall i :: 0 <= i < |db.indexes[index].entries| ==> db.indexes[index].entries[i] < |db.tables[oid]|
  }

  ghost predicate Denotes(k: Kind, s: Schema, kids: seq<seq<TypeId>>, db: Database, ins: seq<seq<Row>>,
                          rows: seq<Row>) {
    match k
    case SeqScan(oid, _, f) =>
      oid in db.tables && rows == FilterOptional(f, db.tables[oid])
    case IndexScan(oid, index) =>
      IndexOver(db, oid, index) && rows == PickRows(db.tables[oid], db.indexes[index].entries)
    case Filter(e) =>
      |ins| == 1 && rows == FilterRows(e, ins[0])
    case NestedLoopJoin(e, jt) =>
      && |ins| == |kids| == 2 && (jt == INNER || jt == LEFT)
      && rows == JoinRows(e, jt, ins[0], ins[1], NullRow(kids[1]))
    case NestedIndexJoin(key, oid, index, _, _, inner, jt) =>
      && |ins| == 1 && (jt == INNER || jt == LEFT)
      && IndexOver(db, oid, index)
      && |db.indexes[index].keyAttrs| == 1
      && rows == IndexJoinRows(key, jt, ins[0], db.tables[oid], db.indexes[index].keyAttrs[0],
                               db.indexes[index].entries, NullRow(Types(inner)))
    case Projection(es) =>
      |ins| == 1 && rows == ProjectRows(es, ins[0])
    case Sort(orders) =>
      |ins| == 1 && multiset(rows) == multiset(ins[0]) && SortedBy(orders, rows)
    case Limit(n) =>
      |ins| == 1 && rows == if n < |ins[0]| then ins[0][..n] else ins[0]
    case ValuesList(cells) =>
      && |rows| == |cells|
      && forall i :: 0 <= i < |cells| ==> rows[i] == EvalAll(cells[i], [])
    case Aggregation(groupBys, inputs, types) =>
      && |ins| == 1 && |inputs| == |types|
      && exists keys: seq<Row> ::
           && ListsKeys(keys, GroupKeys(groupBys, ins[0]))
           && rows == AggregateRows(db, groupBys, inputs, types, ins[0], keys)
    case Other(tag) =>
      AllWidth(rows, |s|) && db.other(tag, ins, rows)
  }

  /** `rows` is one of the results the plan may give on the stored data. */
  ghost predicate Produces(p: Plan, db: Database, rows: seq<Row>)
    decreases p, 1
  {
    exists ins: seq<seq<Row>> ::
      ProducesAll(p.children, db, ins) && Denotes(p.kind, p.schema, KidTypes(p.children), db, ins, rows)
  }

  ghost predicate ProducesAll(ps: seq<Plan>, db: Database, ins: seq<seq<Row>>)
    decreases ps, 0
  {
    |ins| == |ps| && (ps == [] || (Produces(ps[0], db, ins[0]) && ProducesAll(ps[1..], db, ins[1..])))
  }

  /** Every result of `q` is a result of `p`. */
  ghost predicate Refines(q: Plan, p: Plan, db: Database) {
    forall rows :: Produces(q, db, rows) ==> Produces(p, db, rows)
  }

  ghost predicate RefinesAll(qs: seq<Plan>, ps: seq<Plan>, db: Database) {
    |qs| == |ps| && forall i :: 0 <= i < |ps| ==> Refines(qs[i], ps[i], db)
  }

  lemma {:induction false} ProducesAllAt(ps: seq<Plan>, db: Database, ins: seq<seq<Row>>)
    ensures ProducesAll(ps, db, ins) <==>
              |ins| == |ps| && forall i :: 0 <= i < |ps| ==> Produces(ps[i], db, ins[i])
  {
    if |ins| == |ps| && ps != [] {
      ProducesAllAt(ps[1..], db, ins[1..]);
      if forall i :: 0 <= i < |ps| ==> Produces(ps[i], db, ins[i]) {
        forall i | 0 <= i < |ps[1..]| ensures Produces(ps[1..][i], db, ins[1..][i]) {
          assert Produces(ps[i + 1], db, ins[i + 1]);
        }
      }
      if ProducesAll(ps, db, ins) {
        forall i | 0 <= i < |ps| ensures Produces(ps[i], db, ins[i]) {
          if i > 0 {
            assert Produces(ps[1..][i - 1], db, ins[1..][i - 1]);
          }
        }
      }
    }
  }

  /** Putting refined children of the same column types under a node refines the node. */
  lemma CloneRefines(k: Kind, s: Schema, qs: seq<Plan>, ps: seq<Plan>, db: Database)
    requires RefinesAll(qs, ps, db) && KidTypes(qs) == KidTypes(ps)
    ensures Refines(Node(k, s, qs), Node(k, s, ps), db)
  {
    forall rows | Produces(Node(k, s, qs), db, rows) ensures Produces(Node(k, s, ps), db, rows) {
      var ins :| ProducesAll(qs, db, ins) && Denotes(k, s, KidTypes(qs), db, ins, rows);
      ProducesAllAt(qs, db, ins);
      ProducesAllAt(ps, db, ins);
    }
  }

  lemma ProducesOne(k: Kind, s: Schema, c: Plan, db: Database, rows: seq<Row>)
    ensures Produces(Node(k, s, [c]), db, rows) <==>
              exists xs: seq<Row> :: Produces(c, db, xs) && Denotes(k, s, [Types(c.schema)], db, [xs], rows)
  {
    assert KidTypes([c]) == [Types(c.schema)];
    if Produces(Node(k, s, [c]), db, rows) {
      var ins :| ProducesAll([c], db, ins) && Denotes(k, s, KidTypes([c]), db, ins, rows);
      assert ins == [ins[0]];
    }
    forall xs: seq<Row> | Produces(c, db, xs) ensures ProducesAll([c], db, [xs]) {
    }
  }

  lemma ProducesTwo(k: Kind, s: Schema, c: Plan, d: Plan, db: Database, rows: seq<Row>)
    ensures Produces(Node(k, s, [c, d]), db, rows) <==>
              exists xs: seq<Row>, ys: seq<Row> ::
                Produces(c, db, xs) && Produces(d, db, ys)
                && Denotes(k, s, [Types(c.schema), Types(d.schema)], db, [xs, ys], rows)
  {
    assert KidTypes([c, d]) == [Types(c.schema), Types(d.schema)];
    forall ins ensures ProducesAll([c, d], db, ins) <==>
                         |ins| == 2 && Produces(c, db, ins[0]) && Produces(d, db, ins[1]) {
      ProducesAllAt([c, d], db, ins);
    }
    if Produces(Node(k, s, [c, d]), db, rows) {
      var ins :| ProducesAll([c, d], db, ins) && Denotes(k, s, KidTypes([c, d]), db, ins, rows);
      assert ins == [ins[0], ins[1]];
    }
  }

  lemma ProducesLeaf(k: Kind, s: Schema, db: Database, rows: seq<Row>)
    ensures Produces(Node(k, s, []), db, rows) <==> Denotes(k, s, [], db, [], rows)
  {
    assert KidTypes([]) == [];
    assert ProducesAll([], db, []);
  }
}
