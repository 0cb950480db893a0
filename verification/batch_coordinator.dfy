/**
  The batch loop of `lambda_handler`.  Both stores are reached through one
  transaction each for the whole batch.  The records of the batch are routed in
  arrival order against the pending state; then the warehouse is committed,
  then the configuration store.  Any exception on the way rolls back whatever
  is still uncommitted, and the handler returns `'OK'` in every case.

  Fetching credentials and opening the connections happen before the loop and
  are not modelled: the batch starts from the committed state of two open
  stores.  Closing the cursors and connections has no effect on either store.
 */
module BatchCoordinator {
  import opened Values
  import opened Identifiers
  import opened Stores
  import opened WarehouseSink
  import opened ConfigSink
  import opened EventRouter

  /**
    `event.get('events', [])`, iterated by the `for` loop.  A list yields its
    elements and a string its one-character strings; iterating a non-empty
    dict yields its keys, which are strings too, so the first `record.get`
    raises, and that is where the model raises; `None`, booleans and integers
    are not iterable.
   */
  function Records(event: Value): (r: Result<seq<Value>>)
    ensures !event.Obj? ==> r == Raised(AttributeError)
    ensures event.Obj? && "events" !in event.fields ==> r == Ok([])
    ensures event.Obj? && GetOr(event.fields, "events", Arr([])).Arr? ==> r == Ok(GetOr(event.fields, "events", Arr([])).items)
    ensures r.Ok? && event.Obj? && GetOr(event.fields, "events", Arr([])).Str? ==>
              forall i :: 0 <= i < |r.value| ==> ReadRecord(r.value[i]).Raised?
  {
    var e :- AsDict(event);
    match GetOr(e, "events", Arr([]))
    case Arr(rs) => Ok(rs)
    case Str(s) => Ok(seq(|s|, i requires 0 <= i < |s| => Str([s[i]])))
    case Obj(m) => if m == map[] then Ok([]) else Raised(AttributeError)
    case _ => Raised(TypeError)
  }

  /** Routing the records one after the other against the pending state; the first exception stops the loop. */
  function ProcessAll(tx: Tx, records: seq<Value>, db: Database): (r: Result<Tx>)
    ensures r.Ok? ==> Extends(tx, r.value)
    decreases |records|
  {
    if records == [] then Ok(tx)
    else
      var t :- ProcessEvent(tx, records[0], db);
      var rest := ProcessAll(t, records[1..], db);
      if rest.Ok? then ExtendsTrans(tx, t, rest.value); rest else rest
  }

  /** Everything inside the `try` before the commits. */
  function RunBatch(event: Value, tx: Tx, db: Database): Result<Tx> {
    var records :- Records(event);
    ProcessAll(tx, records, db)
  }

  /** What the handler returns, and the committed contents of both stores afterwards. */
  datatype Reply = Reply(status: string, stores: StoreState)

  /**
    `lambda_handler(event, context)` from already-open stores.  The committed
    state changes only when every record was processed; the warehouse commit
    comes first, so a failing configuration commit leaves the warehouse
    committed and the configuration store as it was.  The reply is `'OK'`
    whatever happened.
   */
  function LambdaHandler(event: Value, committed: StoreState, db: Database): (reply: Reply)
    ensures reply.status == "OK"
    ensures RunBatch(event, Begin(committed), db).Raised? ==> reply.stores == committed
    ensures RunBatch(event, Begin(committed), db).Ok? ==>
              var p := RunBatch(event, Begin(committed), db).value;
              && (db.warehouseCommitFails ==> reply.stores == committed)
              && (!db.warehouseCommitFails && db.configCommitFails ==> reply.stores == StoreState(p.warehouse, committed.config))
              && (!db.warehouseCommitFails && !db.configCommitFails ==> reply.stores == StoreState(p.warehouse, p.config))
  {
    match RunBatch(event, Begin(committed), db)
    case Raised(_) => Reply("OK", committed)
    case Ok(p) =>
      if db.warehouseCommitFails then Reply("OK", committed)
      else if db.configCommitFails then Reply("OK", StoreState(p.warehouse, committed.config))
      else Reply("OK", StoreState(p.warehouse, p.config))
  }

  /**
    The handler's loop as written: the records are routed one at a time, the
    first exception abandons the rest, and then the commits or the rollback
    follow.  It computes exactly the reply of the fold above.
   */
  method Handle(event: Value, committed: StoreState, db: Database) returns (reply: Reply)
    ensures reply == LambdaHandler(event, committed, db)
  {
    var start := Begin(committed);
    var pending := start;
    var records := Records(event);
    var failed := records.Raised?;
    if !failed {
      var rs := records.value;
      var i := 0;
      while i < |rs| && !failed
        invariant 0 <= i <= |rs|
        invariant failed ==> ProcessAll(start, rs, db).Raised?
        invariant !failed ==> ProcessAll(start, rs, db) == ProcessAll(pending, rs[i..], db)
        decreases |rs| - i, !failed
      {
        assert rs[i..][1..] == rs[i + 1..];
        var step := ProcessEvent(pending, rs[i], db);
        if step.Raised? {
          failed := true;
        } else {
          pending := step.value;
          i := i + 1;
        }
      }
      if !failed {
        assert rs[i..] == [];
      }
    }
    if failed {
      reply := Reply("OK", committed);
    } else if db.warehouseCommitFails {
      reply := Reply("OK", committed);
    } else if db.configCommitFails {
      reply := Reply("OK", StoreState(pending.warehouse, committed.config));
    } else {
      reply := Reply("OK", StoreState(pending.warehouse, pending.config));
    }
  }

  /** Processing a batch in two parts is processing the first part, then the second from where it left off. */
  lemma {:induction false} ProcessAllAppend(tx: Tx, a: seq<Value>, b: seq<Value>, db: Database)
    ensures ProcessAll(tx, a + b, db) ==
              match ProcessAll(tx, a, db)
              case Ok(t) => ProcessAll(t, b, db)
              case Raised(f) => Raised(f)
    decreases |a|
  {
    if a == [] {
      assert a + b == b;
    } else {
      assert (a + b)[0] == a[0];
      assert (a + b)[1..] == a[1..] + b;
      match ProcessEvent(tx, a[0], db)
      case Ok(t) => ProcessAllAppend(t, a[1..], b, db);
      case Raised(_) =>
    }
  }

  /**
    A record the router can take without raising, given a store that accepts
    every statement: a dict whose event is a dict, with a dict where the
    operation reads one.
   */
  predicate WellFormedRecord(record: Value) {
    && ReadRecord(record).Ok?
    && (IsUpsertOp(ReadRecord(record).value.op) ==> ReadRecord(record).value.fullDocument.Obj?)
    && (ReadRecord(record).value.op == Str("delete") ==> ReadRecord(record).value.documentKey.Obj?)
  }

  /** Over a store that accepts every statement, a well-formed record never raises. */
  lemma WellFormedRecordSucceeds(tx: Tx, record: Value, db: Database)
    requires AcceptsAll(db) && WellFormedRecord(record)
    ensures ProcessEvent(tx, record, db).Ok?
  {
    var ch := ReadRecord(record).value;
    if ch.op == Str("insert") {
      SinksSucceedOnDicts(tx, ch.fullDocument, db);
      ApplyRoleSucceedsOnDicts(InsertRole(tx, ch.fullDocument, db).value, ch.fullDocument, ch.op, db);
    } else if ch.op == Str("update") || ch.op == Str("replace") {
      SinksSucceedOnDicts(tx, ch.fullDocument, db);
      ApplyRoleSucceedsOnDicts(UpdateRole(tx, ch.fullDocument, db).value, ch.fullDocument, ch.op, db);
    } else if ch.op == Str("delete") {
      ApplyRoleSucceedsOnDicts(tx, ch.documentKey, ch.op, db);
    }
  }

  /**
    A batch of well-formed records over stores that accept every statement and
    every commit is committed in full: both stores end as the in-order fold of
    the records, and a record with missing identifiers or an unknown operation
    does not stop the others.
   */
  lemma {:induction false} WellFormedBatchCommits(committed: StoreState, records: seq<Value>, db: Database)
    requires AcceptsAll(db) && !db.warehouseCommitFails && !db.configCommitFails
    requires forall i :: 0 <= i < |records| ==> WellFormedRecord(records[i])
    ensures ProcessAll(Begin(committed), records, db).Ok?
    ensures var p := ProcessAll(Begin(committed), records, db).value;
            LambdaHandler(Obj(map["events" := Arr(records)]), committed, db) == Reply("OK", StoreState(p.warehouse, p.config))
  {
    AllWellFormedSucceed(Begin(committed), records, db);
  }

  lemma {:induction false} AllWellFormedSucceed(tx: Tx, records: seq<Value>, db: Database)
    requires AcceptsAll(db)
    requires forall i :: 0 <= i < |records| ==> WellFormedRecord(records[i])
    ensures ProcessAll(tx, records, db).Ok?
    decreases |records|
  {
    if records != [] {
      WellFormedRecordSucceeds(tx, records[0], db);
      AllWellFormedSucceed(ProcessEvent(tx, records[0], db).value, records[1..], db);
    }
  }

  /**
    A record that changes nothing: an upsert whose document has neither a
    usable `_id` nor a truthy `role_id`, a `delete` whose document key has no
    truthy `role_id`, or an unrecognised operation.
   */
  predicate IsNoOpRecord(record: Value) {
    && ReadRecord(record).Ok?
    && var ch := ReadRecord(record).value;
       || !IsKnownOp(ch.op)
       || (IsUpsertOp(ch.op) && ch.fullDocument.Obj? && !HasId(ch.fullDocument.fields) && !Truthy(RoleId(ch.fullDocument.fields)))
       || (ch.op == Str("delete") && ch.documentKey.Obj? && !Truthy(RoleId(ch.documentKey.fields)))
  }

  /** Dropping a record that changes nothing from anywhere in a batch does not change the batch's outcome. */
  lemma NoOpRecordIsSkipped(tx: Tx, before: seq<Value>, record: Value, after: seq<Value>, db: Database)
    requires IsNoOpRecord(record)
    ensures ProcessAll(tx, before + [record] + after, db) == ProcessAll(tx, before + after, db)
  {
    ProcessAllAppend(tx, before + [record], after, db);
    ProcessAllAppend(tx, before, [record], db);
    ProcessAllAppend(tx, before, after, db);
    if ProcessAll(tx, before, db).Ok? {
      var t := ProcessAll(tx, before, db).value;
      var ch := ReadRecord(record).value;
      if IsUpsertOp(ch.op) {
        EventWithoutIdsIsNoOp(t, record, db);
      } else if ch.op == Str("delete") {
        DeleteWithoutRoleIdIsNoOp(t, record, db);
      }
      assert ProcessAll(t, [record], db) == Ok(t) by {
        assert [record][1..] == [];
      }
    }
  }

  /** If some record raises, the handler still answers `'OK'` and neither store changes. */
  lemma RaisingRecordRollsBack(committed: StoreState, before: seq<Value>, record: Value, after: seq<Value>, db: Database)
    requires ProcessAll(Begin(committed), before, db).Ok?
    requires ProcessEvent(ProcessAll(Begin(committed), before, db).value, record, db).Raised?
    ensures LambdaHandler(Obj(map["events" := Arr(before + [record] + after)]), committed, db) == Reply("OK", committed)
  {
    var tx := Begin(committed);
    ProcessAllAppend(tx, before + [record], after, db);
    ProcessAllAppend(tx, before, [record], db);
  }

  /** The role document the unit tests replicate. */
  function SampleRole(): Document {
    map[
      "_id" := Obj(map["$oid" := Str("64a7f8e2c9e77b0012345678")]),
      "role_id" := Str("admin"),
      "role_name" := Str("Administrator"),
      "role_description" := Str("Full access"),
      "role_status" := Str("active"),
      "tag" := Str("core"),
      "category" := Str("system"),
      "tooltip" := Str("Admin role"),
      "create_date" := Str("2023-07-01T12:00:00Z"),
      "last_update_date" := Str("2023-07-01T12:00:00Z")]
  }

  /** The change record for one operation on a document. */
  function ChangeRecord(op: string, doc: Document, key: Document): Value {
    Obj(map["event" := Obj(map["operationType" := Str(op), "fullDocument" := Obj(doc), "documentKey" := Obj(key)])])
  }

  /** A batch holding one change record. */
  function SingleEvent(op: string, doc: Document, key: Document): Value {
    Obj(map["events" := Arr([ChangeRecord(op, doc, key)])])
  }

  /** A one-record batch over accepting stores commits what routing that record gives. */
  lemma SingleEventCommits(op: string, doc: Document, key: Document, committed: StoreState, db: Database)
    requires AcceptsAll(db) && !db.warehouseCommitFails && !db.configCommitFails
    ensures ProcessEvent(Begin(committed), ChangeRecord(op, doc, key), db).Ok?
    ensures var p := ProcessEvent(Begin(committed), ChangeRecord(op, doc, key), db).value;
            LambdaHandler(SingleEvent(op, doc, key), committed, db).stores == StoreState(p.warehouse, p.config)
  {
    var rec := ChangeRecord(op, doc, key);
    assert ReadRecord(rec).value == Change(Str(op), Obj(doc), Obj(key));
    WellFormedBatchCommits(committed, [rec], db);
    assert [rec][1..] == [];
  }

  /** The row the sample role occupies in the warehouse. */
  function SampleRow(): Row {
    Row(Str("64a7f8e2c9e77b0012345678"), Serialize(SampleRole()), Str("2023-07-01T12:00:00Z"))
  }

  /** The fields of the sample role the handler reads. */
  lemma SampleRoleFields()
    ensures HasId(SampleRole()) && ExtractId(SampleRole()) == Str("64a7f8e2c9e77b0012345678")
    ensures NewRow(SampleRole()) == SampleRow()
    ensures RoleId(SampleRole()) == Str("admin")
    ensures !Truthy(IsDeleted(SampleRole()))
    ensures Get(SampleRole(), "create_date") == Str("2023-07-01T12:00:00Z")
  {
  }

  /**
    An upsert of a document with a usable identifier and a truthy `role_id`
    that is not flagged deleted, routed as the only record of a batch over
    accepting stores.  An `insert` appends the document's row; an `update` or
    `replace` of an identifier already present rewrites every row carrying it
    and keeps the others.  Either way the configuration store gets the merged
    row: the document's role columns, attributed to the integration, dated by
    `create_date` for a new key and by `last_update_date` for an existing one.
   */
  lemma UpsertEventCommits(op: string, doc: Document, key: Document, committed: StoreState, db: Database)
    requires AcceptsAll(db) && !db.warehouseCommitFails && !db.configCommitFails
    requires op == "insert" || op == "update" || op == "replace"
    requires HasId(doc) && Truthy(RoleId(doc)) && !Truthy(IsDeleted(doc))
    requires op != "insert" ==> CountId(committed.warehouse, ExtractId(doc)) > 0
    ensures var s := LambdaHandler(SingleEvent(op, doc, key), committed, db).stores;
            && (op == "insert" ==> s.warehouse == committed.warehouse + [NewRow(doc)])
            && (op != "insert" ==>
                  && |s.warehouse| == |committed.warehouse|
                  && forall i :: 0 <= i < |s.warehouse| ==>
                       s.warehouse[i] == if committed.warehouse[i].id == ExtractId(doc) then NewRow(doc) else committed.warehouse[i])
            && s.config.Keys == committed.config.Keys + {RoleId(doc)}
            && RoleId(doc) in s.config && HoldsDocument(s.config[RoleId(doc)], doc)
            && s.config[RoleId(doc)].modifiedBy == Integration
            && (RoleId(doc) !in committed.config ==> s.config[RoleId(doc)].modifiedAt == Get(doc, "create_date"))
            && (RoleId(doc) in committed.config ==> s.config[RoleId(doc)].modifiedAt == Get(doc, "last_update_date"))
  {
    var tx := Begin(committed);
    var rec := ChangeRecord(op, doc, key);
    assert ReadRecord(rec).value == Change(Str(op), Obj(doc), Obj(key));
    SingleEventCommits(op, doc, key, committed, db);
    SinksSucceedOnDicts(tx, Obj(doc), db);
    if op == "insert" {
      var t := InsertRole(tx, Obj(doc), db).value;
      MergeUpserts(t, Obj(doc), Str(op), db);
    } else {
      UpdateRewritesMatchingRows(tx, Obj(doc), db);
      var t := UpdateRole(tx, Obj(doc), db).value;
      MergeUpserts(t, Obj(doc), Str(op), db);
    }
  }

  /**
    Inserting the sample role into empty stores gives one warehouse row under
    the unwrapped object id and one configuration row under `admin`,
    attributed to the integration and dated by the creation date; updating
    with the same document then rewrites that row instead of adding one.
   */
  lemma SampleInsertThenUpdate(db: Database)
    requires AcceptsAll(db) && !db.warehouseCommitFails && !db.configCommitFails
    ensures var key := map["role_id" := Str("admin")];
            var s1 := LambdaHandler(SingleEvent("insert", SampleRole(), key), StoreState([], map[]), db).stores;
            var s2 := LambdaHandler(SingleEvent("update", SampleRole(), key), s1, db).stores;
            && s1.warehouse == [SampleRow()]
            && s1.config.Keys == {Str("admin")}
            && s1.config[Str("admin")].modifiedBy == Integration
            && s1.config[Str("admin")].modifiedAt == Str("2023-07-01T12:00:00Z")
            && s2.warehouse == [SampleRow()]
            && s2.config.Keys == {Str("admin")}
  {
    var key := map["role_id" := Str("admin")];
    SampleRoleFields();
    UpsertEventCommits("insert", SampleRole(), key, StoreState([], map[]), db);
    var s1 := LambdaHandler(SingleEvent("insert", SampleRole(), key), StoreState([], map[]), db).stores;
    assert s1.warehouse == [SampleRow()];
    assert CountId(s1.warehouse, ExtractId(SampleRole())) == 1 by {
      assert s1.warehouse[1..] == [];
    }
    UpsertEventCommits("update", SampleRole(), key, s1, db);
  }

  /** Deleting by the document key removes the `admin` row and leaves the warehouse as it was. */
  lemma SampleDelete(committed: StoreState, db: Database)
    requires AcceptsAll(db) && !db.warehouseCommitFails && !db.configCommitFails
    ensures var s := LambdaHandler(SingleEvent("delete", map[], map["role_id" := Str("admin")]), committed, db).stores;
            && s.warehouse == committed.warehouse
            && s.config == committed.config - {Str("admin")}
  {
    var key := map["role_id" := Str("admin")];
    assert RoleId(key) == Str("admin");
    SingleEventCommits("delete", map[], key, committed, db);
    DeleteRemoves(Begin(committed), Obj(key), Str("delete"), db);
  }
}
