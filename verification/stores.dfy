/**
  The two downstream stores and the statements the handler sends them.

  The warehouse table `documentdb.roles` is a sequence of rows: nothing in the
  handler keeps its `id` column unique, so the same id may occur on several
  rows.  The configuration table `CFG_ROLE` is keyed by `ROLEID`, so it is a
  map.  Each store is reached through one open transaction for the whole
  batch; `Tx` is the pending state of both transactions together with the
  statements executed in them so far.
 */
module Stores {
  import opened Values

  /** `json.dumps(doc)`, kept opaque: a token carrying the document it encodes. */
  datatype Json = Dumps(doc: Document)

  function Serialize(doc: Document): Json {
    Dumps(doc)
  }

  /** One row of `documentdb.roles`. */
  datatype Row = Row(id: Value, data: Json, lastUpdate: Value)

  type Warehouse = seq<Row>

  /** The columns of a `CFG_ROLE` row the handler writes, apart from the key `ROLEID`. */
  datatype RoleRow = RoleRow(
    name: Value,
    description: Value,
    status: Value,
    tag: Value,
    category: Value,
    tooltip: Value,
    modifiedBy: string,
    modifiedAt: Value)

  type ConfigTable = map<Value, RoleRow>

  /** The bind parameters of the `MERGE INTO CFG_ROLE` statement. */
  datatype MergeParams = MergeParams(
    roleId: Value,
    roleName: Value,
    roleDescription: Value,
    roleStatus: Value,
    tag: Value,
    category: Value,
    tooltip: Value,
    creatorId: string,
    createDate: Value,
    lastUpdaterId: string,
    lastUpdateDate: Value)

  /** The four parameterised statements the handler executes. */
  datatype Statement =
    | WarehouseInsert(id: Value, data: Json, lastUpdate: Value)
    | WarehouseUpdate(data: Json, lastUpdate: Value, id: Value)
    | ConfigMerge(params: MergeParams)
    | ConfigDelete(roleId: Value)

  predicate IsWarehouseStatement(s: Statement) {
    s.WarehouseInsert? || s.WarehouseUpdate?
  }

  /** Every statement is addressed to the warehouse. */
  predicate AllWarehouse(ss: seq<Statement>) {
    forall i :: 0 <= i < |ss| ==> IsWarehouseStatement(ss[i])
  }

  /** Every statement is addressed to the configuration store. */
  predicate AllConfig(ss: seq<Statement>) {
    forall i :: 0 <= i < |ss| ==> !IsWarehouseStatement(ss[i])
  }

  /** Committed contents of both stores. */
  datatype StoreState = StoreState(warehouse: Warehouse, config: ConfigTable)

  /** The pending state of both open transactions, and the statements executed in them. */
  datatype Tx = Tx(warehouse: Warehouse, config: ConfigTable, executed: seq<Statement>)

  /** Opening both transactions: the pending state starts as the committed state. */
  function Begin(s: StoreState): Tx {
    Tx(s.warehouse, s.config, [])
  }

  /**
    What the stores do that the handler cannot see: which statements they
    refuse (a constraint, a bind type, a lost connection) and whether each
    commit fails.  A refused statement or commit raises in the handler.
   */
  datatype Database = Database(
    rejects: (Tx, Statement) -> bool,
    warehouseCommitFails: bool,
    configCommitFails: bool)

  /** `after` continues the statement history of `before`. */
  predicate Extends(before: Tx, after: Tx) {
    |before.executed| <= |after.executed| && after.executed[..|before.executed|] == before.executed
  }

  /** The statements `after` executed beyond `before`. */
  function Issued(before: Tx, after: Tx): seq<Statement>
    requires Extends(before, after)
  {
    after.executed[|before.executed|..]
  }

  /** Extension is transitive, and the statements issued along the way concatenate. */
  lemma ExtendsTrans(a: Tx, b: Tx, c: Tx)
    requires Extends(a, b) && Extends(b, c)
    ensures Extends(a, c)
    ensures Issued(a, c) == Issued(a, b) + Issued(b, c)
  {
    assert c.executed[..|a.executed|] == c.executed[..|b.executed|][..|a.executed|];
    assert c.executed[|a.executed|..] == c.executed[|a.executed|..|b.executed|] + c.executed[|b.executed|..];
    assert c.executed[|a.executed|..|b.executed|] == c.executed[..|b.executed|][|a.executed|..];
  }

  /** A store that accepts every statement. */
  ghost predicate AcceptsAll(db: Database) {
    forall tx, s :: !db.rejects(tx, s)
  }

  /** The pending state after a statement, and the cursor's `rowcount`. */
  datatype Executed = Executed(tx: Tx, rowcount: nat)

  /** How many warehouse rows carry `id`. */
  function CountId(rows: Warehouse, id: Value): nat {
    if rows == [] then 0 else (if rows[0].id == id then 1 else 0) + CountId(rows[1..], id)
  }

  /** No row carries `id` exactly when the count of such rows is zero. */
  lemma {:induction false} CountIdZero(rows: Warehouse, id: Value)
    ensures CountId(rows, id) == 0 <==> forall i :: 0 <= i < |rows| ==> rows[i].id != id
  {
    if rows != [] {
      CountIdZero(rows[1..], id);
      assert forall i :: 1 <= i < |rows| ==> rows[i] == rows[1..][i - 1];
    }
  }

  /** Counting over a concatenation adds up. */
  lemma {:induction false} CountIdAppend(rows: Warehouse, extra: Warehouse, id: Value)
    ensures CountId(rows + extra, id) == CountId(rows, id) + CountId(extra, id)
  {
    if rows != [] {
      assert (rows + extra)[0] == rows[0];
      assert (rows + extra)[1..] == rows[1..] + extra;
      CountIdAppend(rows[1..], extra, id);
    } else {
      assert rows + extra == extra;
    }
  }

  /**
    `UPDATE documentdb.roles SET data, last_update_date WHERE id`: every row
    carrying `id` gets the new data and date, every other row stays, and the
    row count reported is the number of rows that matched.
   */
  function UpdateMatching(rows: Warehouse, id: Value, data: Json, date: Value): (r: (Warehouse, nat))
    ensures |r.0| == |rows|
    ensures forall i :: 0 <= i < |rows| ==>
              r.0[i] == if rows[i].id == id then rows[i].(data := data, lastUpdate := date) else rows[i]
    ensures r.1 == CountId(rows, id)
  {
    if rows == [] then ([], 0)
    else
      var (rest, n) := UpdateMatching(rows[1..], id, data, date);
      if rows[0].id == id then ([rows[0].(data := data, lastUpdate := date)] + rest, n + 1)
      else ([rows[0]] + rest, n)
  }

  /** Does `row` carry the role columns bound in `p`? */
  predicate CarriesParams(row: RoleRow, p: MergeParams) {
    && row.name == p.roleName
    && row.description == p.roleDescription
    && row.status == p.roleStatus
    && row.tag == p.tag
    && row.category == p.category
    && row.tooltip == p.tooltip
  }

  /**
    `MERGE INTO CFG_ROLE ... ON (ROLEID = :role_id)`: a matched row gets the
    role columns and the updater and update date; an unmatched key gets a new
    row with the creator and creation date.  No other key is touched.
   */
  function MergeRow(c: ConfigTable, p: MergeParams): (r: ConfigTable)
    ensures r.Keys == c.Keys + {p.roleId}
    ensures forall k :: k in c && k != p.roleId ==> r[k] == c[k]
    ensures CarriesParams(r[p.roleId], p)
    ensures p.roleId in c ==> r[p.roleId].modifiedBy == p.lastUpdaterId && r[p.roleId].modifiedAt == p.lastUpdateDate
    ensures p.roleId !in c ==> r[p.roleId].modifiedBy == p.creatorId && r[p.roleId].modifiedAt == p.createDate
  {
    var row := RoleRow(p.roleName, p.roleDescription, p.roleStatus, p.tag, p.category, p.tooltip, "", Null);
    if p.roleId in c then c[p.roleId := row.(modifiedBy := p.lastUpdaterId, modifiedAt := p.lastUpdateDate)]
    else c[p.roleId := row.(modifiedBy := p.creatorId, modifiedAt := p.createDate)]
  }

  /** The effect of one accepted statement on the pending state, with its row count. */
  function Effect(tx: Tx, s: Statement): (e: Executed)
    ensures e.tx.executed == tx.executed + [s]
    ensures IsWarehouseStatement(s) ==> e.tx.config == tx.config
    ensures !IsWarehouseStatement(s) ==> e.tx.warehouse == tx.warehouse
    ensures s.WarehouseInsert? ==> e.tx.warehouse == tx.warehouse + [Row(s.id, s.data, s.lastUpdate)]
    ensures s.WarehouseUpdate? ==> e.rowcount == CountId(tx.warehouse, s.id) && |e.tx.warehouse| == |tx.warehouse|
    ensures s.ConfigDelete? ==> e.tx.config == tx.config - {s.roleId}
  {
    match s
    case WarehouseInsert(id, data, date) =>
      Executed(tx.(warehouse := tx.warehouse + [Row(id, data, date)], executed := tx.executed + [s]), 1)
    case WarehouseUpdate(data, date, id) =>
      var (rows, n) := UpdateMatching(tx.warehouse, id, data, date);
      Executed(tx.(warehouse := rows, executed := tx.executed + [s]), n)
    case ConfigMerge(p) =>
      Executed(tx.(config := MergeRow(tx.config, p), executed := tx.executed + [s]), 1)
    case ConfigDelete(roleId) =>
      Executed(tx.(config := tx.config - {roleId}, executed := tx.executed + [s]), if roleId in tx.config then 1 else 0)
  }

  /** `cursor.execute(...)`: raises when the store refuses the statement. */
  function Execute(tx: Tx, s: Statement, db: Database): Result<Executed> {
    if db.rejects(tx, s) then Raised(DatabaseError) else Ok(Effect(tx, s))
  }
}
