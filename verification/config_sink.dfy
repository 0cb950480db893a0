/**
  The configuration-store side of the replication (`update_oracle_role`).
  The store is keyed by the document's `role_id` field, read directly (no
  object-id unwrapping).  The decision between merging, deleting and doing
  nothing depends on the operation and on the document's `is_deleted` flag,
  both tested by Python truthiness.
 */
module ConfigSink {
  import opened Values
  import opened Stores

  /** The identity every configuration row written by this integration is attributed to. */
  const Integration: string := "americold_compass"

  /** What a document does to the configuration store. */
  datatype Action = Merge | Delete | Skip

  /** The operations that upsert: `insert`, `update` and `replace`. */
  predicate IsUpsertOp(op: Value) {
    op == Str("insert") || op == Str("update") || op == Str("replace")
  }

  /**
    The decision table: upsert operations on a document that is not flagged
    deleted merge; a `delete` operation or a flagged document deletes; anything
    else is left alone.
   */
  function Decide(op: Value, isDeleted: Value): (a: Action)
    ensures a == Merge <==> IsUpsertOp(op) && !Truthy(isDeleted)
    ensures a == Delete <==> op == Str("delete") || Truthy(isDeleted)
    ensures a == Skip <==> !IsUpsertOp(op) && op != Str("delete") && !Truthy(isDeleted)
  {
    if IsUpsertOp(op) && !Truthy(isDeleted) then Merge
    else if op == Str("delete") || Truthy(isDeleted) then Delete
    else Skip
  }

  /** `role.get('role_id')` */
  function RoleId(doc: Document): Value {
    Get(doc, "role_id")
  }

  /** `role.get('is_deleted', False)` */
  function IsDeleted(doc: Document): Value {
    GetOr(doc, "is_deleted", Bool(false))
  }

  /** The bind parameters the handler builds for the merge. */
  function MergeParamsOf(doc: Document): MergeParams {
    MergeParams(
      RoleId(doc),
      Get(doc, "role_name"),
      Get(doc, "role_description"),
      Get(doc, "role_status"),
      Get(doc, "tag"),
      Get(doc, "category"),
      Get(doc, "tooltip"),
      Integration,
      Get(doc, "create_date"),
      Integration,
      Get(doc, "last_update_date"))
  }

  /** Does `row` hold the role columns of `doc`? */
  predicate HoldsDocument(row: RoleRow, doc: Document) {
    CarriesParams(row, MergeParamsOf(doc))
  }

  /** `update_oracle_role(cursor, role, operation_type)` */
  function ApplyRole(tx: Tx, role: Value, op: Value, db: Database): (r: Result<Tx>)
    ensures !role.Obj? ==> r == Raised(AttributeError)
    ensures role.Obj? && !Truthy(RoleId(role.fields)) ==> r == Ok(tx)
    ensures role.Obj? && Decide(op, IsDeleted(role.fields)) == Skip ==> r == Ok(tx)
    ensures r.Ok? ==> r.value.warehouse == tx.warehouse && Extends(tx, r.value) && AllConfig(Issued(tx, r.value))
  {
    var doc :- AsDict(role);
    var roleId := RoleId(doc);
    if !Truthy(roleId) then Ok(tx)
    else
      match Decide(op, IsDeleted(doc))
      case Merge =>
        var e :- Execute(tx, ConfigMerge(MergeParamsOf(doc)), db);
        Ok(e.tx)
      case Delete =>
        var e :- Execute(tx, ConfigDelete(roleId), db);
        Ok(e.tx)
      case Skip => Ok(tx)
  }

  /**
    An upsert operation on a document that is not flagged deleted leaves the
    key present with the document's role columns, attributed to the
    integration, dated by `create_date` when the key is new and by
    `last_update_date` when it already existed; every other key is unchanged.
   */
  lemma MergeUpserts(tx: Tx, role: Value, op: Value, db: Database)
    requires role.Obj? && Truthy(RoleId(role.fields))
    requires IsUpsertOp(op) && !Truthy(IsDeleted(role.fields))
    requires ApplyRole(tx, role, op, db).Ok?
    ensures var c := ApplyRole(tx, role, op, db).value.config;
            var doc, key := role.fields, RoleId(role.fields);
            && c.Keys == tx.config.Keys + {key}
            && HoldsDocument(c[key], doc)
            && c[key].modifiedBy == Integration
            && c[key].modifiedAt == (if key in tx.config then Get(doc, "last_update_date") else Get(doc, "create_date"))
            && forall k :: k in tx.config && k != key ==> c[k] == tx.config[k]
  {
    assert Decide(op, IsDeleted(role.fields)) == Merge;
  }

  /**
    A `delete` operation, or any operation on a document flagged deleted,
    removes the key and nothing else; it never adds a key.
   */
  lemma DeleteRemoves(tx: Tx, role: Value, op: Value, db: Database)
    requires role.Obj? && Truthy(RoleId(role.fields))
    requires op == Str("delete") || Truthy(IsDeleted(role.fields))
    requires ApplyRole(tx, role, op, db).Ok?
    ensures ApplyRole(tx, role, op, db).value.config == tx.config - {RoleId(role.fields)}
    ensures ApplyRole(tx, role, op, db).value.config.Keys <= tx.config.Keys
  {
    assert Decide(op, IsDeleted(role.fields)) == Delete;
  }

  /** A document flagged deleted under `update` is deleted, as the unit tests expect. */
  lemma FlaggedUpdateDeletes(tx: Tx, db: Database)
    requires AcceptsAll(db)
    ensures var role := Obj(map["role_id" := Str("admin"), "is_deleted" := Bool(true)]);
            var r := ApplyRole(tx, role, Str("update"), db);
            r.Ok? && Str("admin") !in r.value.config && r.value.executed == tx.executed + [ConfigDelete(Str("admin"))]
  {
    var role := Obj(map["role_id" := Str("admin"), "is_deleted" := Bool(true)]);
    assert RoleId(role.fields) == Str("admin");
    assert !db.rejects(tx, ConfigDelete(Str("admin")));
  }

  /** Over a store that accepts every statement, the sink succeeds on any dict. */
  lemma ApplyRoleSucceedsOnDicts(tx: Tx, role: Value, op: Value, db: Database)
    requires AcceptsAll(db) && role.Obj?
    ensures ApplyRole(tx, role, op, db).Ok?
  {
    assert !db.rejects(tx, ConfigMerge(MergeParamsOf(role.fields)));
    assert !db.rejects(tx, ConfigDelete(RoleId(role.fields)));
  }
}
