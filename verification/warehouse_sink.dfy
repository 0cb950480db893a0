/**
  The warehouse side of the replication (`insert_redshift_role` and
  `update_redshift_role`).  A document without a usable identifier is skipped
  with a warning; otherwise the document is written under its identifier,
  serialized, with its `last_update_date` (or `None`).
 */
module WarehouseSink {
  import opened Values
  import opened Identifiers
  import opened Stores

  /** The `last_update_date` a document carries, `None` when it has none. */
  function LastUpdate(doc: Document): Value {
    GetOr(doc, "last_update_date", Null)
  }

  /** The row an insert of `doc` adds. */
  function NewRow(doc: Document): Row {
    Row(ExtractId(doc), Serialize(doc), LastUpdate(doc))
  }

  function InsertStatement(doc: Document): Statement {
    WarehouseInsert(ExtractId(doc), Serialize(doc), LastUpdate(doc))
  }

  function UpdateStatement(doc: Document): Statement {
    WarehouseUpdate(Serialize(doc), LastUpdate(doc), ExtractId(doc))
  }

  /**
    `insert_redshift_role`: appends one row, without looking for an existing
    row with the same identifier.
   */
  function InsertRole(tx: Tx, role: Value, db: Database): (r: Result<Tx>)
    ensures !role.Obj? ==> r == Raised(AttributeError)
    ensures role.Obj? && !HasId(role.fields) ==> r == Ok(tx)
    ensures role.Obj? && HasId(role.fields) ==> (r.Ok? <==> !db.rejects(tx, InsertStatement(role.fields)))
    ensures r.Ok? && HasId(role.fields) ==>
              && r.value.warehouse == tx.warehouse + [NewRow(role.fields)]
              && r.value.executed == tx.executed + [InsertStatement(role.fields)]
    ensures r.Ok? ==> r.value.config == tx.config && Extends(tx, r.value) && AllWarehouse(Issued(tx, r.value))
  {
    var doc :- AsDict(role);
    if !Truthy(ExtractId(doc)) then Ok(tx)
    else
      var e :- Execute(tx, InsertStatement(doc), db);
      Ok(e.tx)
  }

  /**
    `update_redshift_role`: an UPDATE by identifier, and an insert when the
    UPDATE reports that no row matched.
   */
  function UpdateRole(tx: Tx, role: Value, db: Database): (r: Result<Tx>)
    ensures !role.Obj? ==> r == Raised(AttributeError)
    ensures role.Obj? && !HasId(role.fields) ==> r == Ok(tx)
    ensures r.Ok? ==> r.value.config == tx.config && Extends(tx, r.value) && AllWarehouse(Issued(tx, r.value))
  {
    var doc :- AsDict(role);
    if !Truthy(ExtractId(doc)) then Ok(tx)
    else
      var e :- Execute(tx, UpdateStatement(doc), db);
      if e.rowcount == 0 then InsertRole(e.tx, role, db) else Ok(e.tx)
  }

  /** Over a store that accepts every statement, both sinks succeed on any dict. */
  lemma SinksSucceedOnDicts(tx: Tx, role: Value, db: Database)
    requires AcceptsAll(db) && role.Obj?
    ensures InsertRole(tx, role, db).Ok?
    ensures UpdateRole(tx, role, db).Ok?
  {
    assert !db.rejects(tx, InsertStatement(role.fields));
    assert !db.rejects(tx, UpdateStatement(role.fields));
    if HasId(role.fields) {
      var e := Effect(tx, UpdateStatement(role.fields));
      assert !db.rejects(e.tx, InsertStatement(role.fields));
    }
  }

  /**
    When some row carries the identifier, the update rewrites every such row
    with the new data and date, keeps all other rows, and appends nothing.
   */
  lemma UpdateRewritesMatchingRows(tx: Tx, role: Value, db: Database)
    requires role.Obj? && HasId(role.fields)
    requires CountId(tx.warehouse, ExtractId(role.fields)) > 0
    requires UpdateRole(tx, role, db).Ok?
    ensures var w := UpdateRole(tx, role, db).value.warehouse;
            var id := ExtractId(role.fields);
            && |w| == |tx.warehouse|
            && forall i :: 0 <= i < |w| ==>
                 w[i] == if tx.warehouse[i].id == id
                         then Row(id, Serialize(role.fields), LastUpdate(role.fields))
                         else tx.warehouse[i]
    ensures UpdateRole(tx, role, db).value.executed == tx.executed + [UpdateStatement(role.fields)]
  {
    var doc := role.fields;
    var e := Effect(tx, UpdateStatement(doc));
    assert e.rowcount > 0;
  }

  /** When no row carries the identifier, exactly one new row is appended. */
  lemma UpdateFallsBackToInsert(tx: Tx, role: Value, db: Database)
    requires role.Obj? && HasId(role.fields)
    requires CountId(tx.warehouse, ExtractId(role.fields)) == 0
    requires UpdateRole(tx, role, db).Ok?
    ensures UpdateRole(tx, role, db).value.warehouse == tx.warehouse + [NewRow(role.fields)]
    ensures UpdateRole(tx, role, db).value.executed ==
              tx.executed + [UpdateStatement(role.fields), InsertStatement(role.fields)]
  {
    var doc := role.fields;
    var e := Effect(tx, UpdateStatement(doc));
    CountIdZero(tx.warehouse, ExtractId(doc));
    assert e.tx.warehouse == tx.warehouse;
  }

  /**
    Inserting the same document twice leaves two more rows with its
    identifier: the insert path never checks for an existing row.
   */
  lemma InsertTwiceDuplicates(tx: Tx, role: Value, db: Database)
    requires role.Obj? && HasId(role.fields)
    requires InsertRole(tx, role, db).Ok?
    requires InsertRole(InsertRole(tx, role, db).value, role, db).Ok?
    ensures var w := InsertRole(InsertRole(tx, role, db).value, role, db).value.warehouse;
            && |w| == |tx.warehouse| + 2
            && CountId(w, ExtractId(role.fields)) == CountId(tx.warehouse, ExtractId(role.fields)) + 2
  {
    var row := NewRow(role.fields);
    var id := ExtractId(role.fields);
    assert InsertRole(InsertRole(tx, role, db).value, role, db).value.warehouse == tx.warehouse + [row, row];
    CountIdAppend(tx.warehouse, [row, row], id);
    assert [row, row][1..] == [row];
    assert [row][1..] == [];
    assert CountId([row], id) == 1;
    assert CountId([row, row], id) == 2;
  }

  /**
    Replaying an update is harmless: applying the same document a second time
    leaves the warehouse as the first application left it.
   */
  lemma UpdateRoleIdempotent(tx: Tx, role: Value, db: Database)
    requires UpdateRole(tx, role, db).Ok?
    requires UpdateRole(UpdateRole(tx, role, db).value, role, db).Ok?
    ensures UpdateRole(UpdateRole(tx, role, db).value, role, db).value.warehouse ==
              UpdateRole(tx, role, db).value.warehouse
  {
    var once := UpdateRole(tx, role, db).value;
    if role.Obj? && HasId(role.fields) {
      var doc := role.fields;
      var id := ExtractId(doc);
      var row := Row(id, Serialize(doc), LastUpdate(doc));
      if CountId(tx.warehouse, id) > 0 {
        UpdateRewritesMatchingRows(tx, role, db);
      } else {
        UpdateFallsBackToInsert(tx, role, db);
        CountIdAppend(tx.warehouse, [row], id);
      }
      assert CountId(once.warehouse, id) > 0 by {
        CountIdZero(once.warehouse, id);
        if CountId(tx.warehouse, id) > 0 {
          CountIdZero(tx.warehouse, id);
          var k :| 0 <= k < |tx.warehouse| && tx.warehouse[k].id == id;
          assert once.warehouse[k].id == id;
        } else {
          assert once.warehouse[|tx.warehouse|].id == id;
        }
      }
      UpdateRewritesMatchingRows(once, role, db);
      var twice := UpdateRole(once, role, db).value;
      forall i | 0 <= i < |once.warehouse|
        ensures twice.warehouse[i] == once.warehouse[i]
      {
        if once.warehouse[i].id == id {
          if CountId(tx.warehouse, id) > 0 {
            assert tx.warehouse[i].id == id;
          }
        }
      }
    }
  }
}
