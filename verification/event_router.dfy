/**
  Routing one change record (`process_event`).  The record is a dict whose
  `event` entry carries the operation tag, the full document and the document
  key; each of the three defaults when absent.  Upsert operations go to the
  warehouse first and then to the configuration store; `delete` goes to the
  configuration store only, with the document key; any other tag does nothing.
 */
module EventRouter {
  import opened Values
  import opened Identifiers
  import opened Stores
  import opened WarehouseSink
  import opened ConfigSink

  /** The parts of a change record the router reads. */
  datatype Change = Change(op: Value, fullDocument: Value, documentKey: Value)

  /**
    `record.get('event', {})` followed by the three reads on the event.  Both
    the record and its event must be dicts, or the `.get` raises.
   */
  function ReadRecord(record: Value): (r: Result<Change>)
    ensures r.Ok? <==> record.Obj? && GetOr(record.fields, "event", Obj(map[])).Obj?
    ensures r.Raised? ==> r.fault == AttributeError
    ensures r.Ok? ==>
              var ev := GetOr(record.fields, "event", Obj(map[])).fields;
              && r.value.op == Get(ev, "operationType")
              && r.value.fullDocument == GetOr(ev, "fullDocument", Obj(map[]))
              && r.value.documentKey == GetOr(ev, "documentKey", Obj(map[]))
  {
    var rec :- AsDict(record);
    var ev :- AsDict(GetOr(rec, "event", Obj(map[])));
    Ok(Change(Get(ev, "operationType"), GetOr(ev, "fullDocument", Obj(map[])), GetOr(ev, "documentKey", Obj(map[]))))
  }

  /** The operation tags the router recognises. */
  predicate IsKnownOp(op: Value) {
    IsUpsertOp(op) || op == Str("delete")
  }

  /** `process_event(record, redshift_cursor, oracle_cursor)` */
  function ProcessEvent(tx: Tx, record: Value, db: Database): (r: Result<Tx>)
    ensures ReadRecord(record).Raised? ==> r == Raised(AttributeError)
    ensures ReadRecord(record).Ok? && !IsKnownOp(ReadRecord(record).value.op) ==> r == Ok(tx)
    ensures r.Ok? ==> Extends(tx, r.value)
    ensures r.Ok? && ReadRecord(record).value.op == Str("delete") ==>
              r.value.warehouse == tx.warehouse && AllConfig(Issued(tx, r.value))
  {
    var ch :- ReadRecord(record);
    if ch.op == Str("insert") then
      var t :- InsertRole(tx, ch.fullDocument, db);
      ApplyRole(t, ch.fullDocument, ch.op, db)
    else if ch.op == Str("update") || ch.op == Str("replace") then
      var t :- UpdateRole(tx, ch.fullDocument, db);
      ApplyRole(t, ch.fullDocument, ch.op, db)
    else if ch.op == Str("delete") then
      ApplyRole(tx, ch.documentKey, ch.op, db)
    else
      Ok(tx)
  }

  /**
    For `insert`, `update` and `replace`, every warehouse statement of the
    event is executed before every configuration statement.
   */
  lemma WarehouseBeforeConfig(tx: Tx, record: Value, db: Database)
    requires ReadRecord(record).Ok? && IsUpsertOp(ReadRecord(record).value.op)
    requires ProcessEvent(tx, record, db).Ok?
    ensures var after := ProcessEvent(tx, record, db).value;
            exists w, c :: Issued(tx, after) == w + c && AllWarehouse(w) && AllConfig(c)
  {
    var ch := ReadRecord(record).value;
    var after := ProcessEvent(tx, record, db).value;
    var t := if ch.op == Str("insert") then InsertRole(tx, ch.fullDocument, db).value
             else UpdateRole(tx, ch.fullDocument, db).value;
    assert after == ApplyRole(t, ch.fullDocument, ch.op, db).value;
    ExtendsTrans(tx, t, after);
    var w, c := Issued(tx, t), Issued(t, after);
    assert Issued(tx, after) == w + c;
  }

  /**
    A `delete` event applies the configuration sink to the document key: the
    key's `role_id` is removed and the warehouse is untouched.
   */
  lemma DeleteEventRemovesKey(tx: Tx, record: Value, db: Database)
    requires ReadRecord(record).Ok? && ReadRecord(record).value.op == Str("delete")
    requires ReadRecord(record).value.documentKey.Obj?
    requires ProcessEvent(tx, record, db).Ok?
    ensures var after := ProcessEvent(tx, record, db).value;
            var key := ReadRecord(record).value.documentKey.fields;
            && after.warehouse == tx.warehouse
            && (Truthy(RoleId(key)) ==> after.config == tx.config - {RoleId(key)})
            && (!Truthy(RoleId(key)) ==> after == tx)
  {
    var ch := ReadRecord(record).value;
    if Truthy(RoleId(ch.documentKey.fields)) {
      DeleteRemoves(tx, ch.documentKey, ch.op, db);
    }
  }

  /**
    An `insert` event always appends the document's row to the warehouse, even
    when a row with the same identifier exists: the router uses the plain
    insert, not the update with fallback.
   */
  lemma InsertEventAppends(tx: Tx, record: Value, db: Database)
    requires ReadRecord(record).Ok? && ReadRecord(record).value.op == Str("insert")
    requires ReadRecord(record).value.fullDocument.Obj?
    requires HasId(ReadRecord(record).value.fullDocument.fields)
    requires ProcessEvent(tx, record, db).Ok?
    ensures var doc := ReadRecord(record).value.fullDocument.fields;
            ProcessEvent(tx, record, db).value.warehouse == tx.warehouse + [NewRow(doc)]
  {
  }

  /**
    An upsert event whose full document has neither a usable `_id` nor a
    truthy `role_id` changes nothing and executes nothing.
   */
  lemma EventWithoutIdsIsNoOp(tx: Tx, record: Value, db: Database)
    requires ReadRecord(record).Ok? && IsUpsertOp(ReadRecord(record).value.op)
    requires ReadRecord(record).value.fullDocument.Obj?
    requires !HasId(ReadRecord(record).value.fullDocument.fields)
    requires !Truthy(RoleId(ReadRecord(record).value.fullDocument.fields))
    ensures ProcessEvent(tx, record, db) == Ok(tx)
  {
  }

  /**
    A `delete` event whose document key has no truthy `role_id` changes
    nothing and executes nothing.
   */
  lemma DeleteWithoutRoleIdIsNoOp(tx: Tx, record: Value, db: Database)
    requires ReadRecord(record).Ok? && ReadRecord(record).value.op == Str("delete")
    requires ReadRecord(record).value.documentKey.Obj?
    requires !Truthy(RoleId(ReadRecord(record).value.documentKey.fields))
    ensures ProcessEvent(tx, record, db) == Ok(tx)
  {
  }

  /** An `unknown` operation, as in the unit tests, touches neither store and does not raise. */
  lemma UnknownOperationIsIgnored(tx: Tx, doc: Value, key: Value, db: Database)
    ensures var ev := Obj(map["operationType" := Str("unknown"), "fullDocument" := doc, "documentKey" := key]);
            ProcessEvent(tx, Obj(map["event" := ev]), db) == Ok(tx)
  {
    var ev := Obj(map["operationType" := Str("unknown"), "fullDocument" := doc, "documentKey" := key]);
    assert ReadRecord(Obj(map["event" := ev])).value.op == Str("unknown");
  }
}
