# Role change-event replication, modelled in Dafny

This project models the replication handler in `roles_lambda_function.py`.
The handler receives a batch of document-store change events
(`insert`, `update`, `replace`, `delete`) describing role documents.
It writes each one to two stores:

- an analytical warehouse table, `documentdb.roles`, written with INSERT, or with UPDATE and an INSERT fallback;
- a relational configuration table, `CFG_ROLE`, written with MERGE or DELETE keyed by `role_id`.

Both stores sit in one transaction each for the whole batch.
The model turns the cursor calls into pure transitions over two abstract stores:

- the warehouse is a sequence of rows `(id, data, last_update_date)`, with no uniqueness of `id`;
- the configuration table is a map from role id to row.

Exceptions are values of a `Result` type.

Modules, leaves first:

- `Values` (`values.dfy`): decoded JSON values, Python truthiness, `dict.get`, `str()` (with an exact decimal rendering of integers), and the exceptions the handler can raise.
- `Identifiers` (`identifiers.dfy`): `extract_id`.
- `Stores` (`stores.dfy`): rows, the four statements, the pending transaction state with its executed-statement history, and the effect of each statement. A `Database` value stands for what the stores decide on their own: which statements they refuse, and whether each commit fails.
- `WarehouseSink` (`warehouse_sink.dfy`): `insert_redshift_role` and `update_redshift_role`.
- `ConfigSink` (`config_sink.dfy`): `update_oracle_role` and its decision table.
- `EventRouter` (`event_router.dfy`): `process_event`.
- `BatchCoordinator` (`batch_coordinator.dfy`): the try/commit/rollback loop of `lambda_handler`, as a fold (`LambdaHandler`) and as the loop itself (`Handle`).

Behaviours of the handler the model keeps as written:

- An `insert` event uses the plain insert, not the update-with-fallback. Replaying it duplicates the warehouse row.
- The handler answers `'OK'` even after a rollback.
- For a `{"$oid": v}` identifier, the wrapped value `v` is returned as it is, without conversion to text.
- `is_deleted`, `_id` and `role_id` are tested by truthiness, not by presence or by being boolean.
- The merge writes its attribution to `MODIFIEDBY` and its date to `MODIFIEDDATETIME`. Both `creator_id` and `last_updater_id` are bound to `MODIFIEDBY`, and the handler writes no other attribution column.
  - A new row gets the creation date.
  - A matched row gets the last update date.

## Model

| member | source | states |
|---|---|---|
| `Values.PyStr` | roles_lambda_function.py:21 | `str()` of a string is the string itself, and `str()` of any truthy value is non-empty text |
| `Values.DecimalRoundTrip` | roles_lambda_function.py:21 | the decimal text `str()` gives a non-negative integer reads back as that integer |
| `Values.IntToDecimalInjective` | roles_lambda_function.py:21 | two different integers never have the same `str()` text |
| `Identifiers.ExtractId` | roles_lambda_function.py:17-21 | a `$oid` wrapper yields the wrapped value unchanged; any other truthy `_id` yields its truthy `str()` text; a missing or falsy `_id` yields `None` |
| `Identifiers.HasIdIff` | roles_lambda_function.py:17-21 | the result is truthy exactly when `_id` wraps a truthy value or is itself truthy and not a wrapper, in both directions |
| `Identifiers.StringIdIsKept` | roles_lambda_function.py:21 | a non-empty string `_id` is its own identifier |
| `Identifiers.IntIdIsDecimal` | roles_lambda_function.py:21 | a non-zero integer `_id` becomes its decimal text; `0` yields `None` |
| `Identifiers.IntIdsStayDistinct` | roles_lambda_function.py:21 | documents with different non-zero integer `_id`s get different warehouse keys |
| `Identifiers.ExtractIdExamples` | test_roles_lambda_function.py:90-100 | the wrapped, bare-string and missing `_id` examples give `'12345'`, `'67890'` and `None` |
| `Stores.CountIdZero` | roles_lambda_function.py:42 | an UPDATE row count of zero means exactly that no warehouse row carries the id |
| `Stores.UpdateMatching` | roles_lambda_function.py:41 | UPDATE keeps the row count, rewrites data and date on every row with the id, keeps every other row, and reports the number of matches |
| `Stores.MergeRow` | roles_lambda_function.py:70-90 | MERGE adds only the role key and keeps every other row. The row carries the bound role columns. A matched row gets the updater and `last_update_date`. A new row gets the creator and `create_date` |
| `Stores.Effect` | roles_lambda_function.py:31-93 | each statement is appended to the history. Warehouse statements leave the configuration table alone, and the other statements leave the warehouse alone. INSERT appends its row, UPDATE reports the match count, and DELETE removes exactly the key |
| `WarehouseSink.InsertRole` | roles_lambda_function.py:24-32 | a non-dict raises. A document without a usable id changes nothing and executes nothing. Otherwise exactly one row `(id, json.dumps(doc), last_update_date)` is appended with no existence check, unless the store refuses it |
| `WarehouseSink.UpdateRole` | roles_lambda_function.py:34-45 | a non-dict raises. A document without a usable id changes nothing. Only warehouse statements are issued, and the configuration table is untouched |
| `WarehouseSink.UpdateRewritesMatchingRows` | roles_lambda_function.py:41-45 | when some row has the id, every matching row gets the new data and date, the row count is unchanged, and only the UPDATE is executed |
| `WarehouseSink.UpdateFallsBackToInsert` | roles_lambda_function.py:41-43 | when no row has the id, exactly one new row is appended, after an UPDATE and then an INSERT |
| `WarehouseSink.InsertTwiceDuplicates` | roles_lambda_function.py:24-31 | inserting the same document twice adds two rows carrying its id |
| `WarehouseSink.UpdateRoleIdempotent` | roles_lambda_function.py:34-45 | applying the same update a second time leaves the warehouse as the first application left it |
| `WarehouseSink.SinksSucceedOnDicts` | roles_lambda_function.py:24-45 | over stores that accept every statement, both warehouse writes succeed on any dict |
| `ConfigSink.Decide` | roles_lambda_function.py:54-92 | merge exactly for insert/update/replace with a falsy `is_deleted`; delete exactly for `delete` or a truthy `is_deleted`; nothing otherwise |
| `ConfigSink.ApplyRole` | roles_lambda_function.py:48-94 | a non-dict raises. A falsy `role_id` or a no-op decision changes nothing. Only configuration statements are issued, and the warehouse is untouched |
| `ConfigSink.MergeUpserts` | roles_lambda_function.py:56-91 | a merge leaves the key present with the document's name, description, status, tag, category and tooltip, attributed to `americold_compass`. It is dated by `create_date` if new and by `last_update_date` if it existed, and other keys are unchanged |
| `ConfigSink.DeleteRemoves` | roles_lambda_function.py:92-94 | a `delete` operation or a truthy `is_deleted` removes exactly the role key and never adds one |
| `ConfigSink.FlaggedUpdateDeletes` | test_roles_lambda_function.py:121-126 | an `update` of `{"role_id": "admin", "is_deleted": True}` executes a DELETE of `admin` |
| `ConfigSink.ApplyRoleSucceedsOnDicts` | roles_lambda_function.py:48-94 | over stores that accept every statement, the configuration write succeeds on any dict |
| `EventRouter.ReadRecord` | roles_lambda_function.py:98-101 | reading a record raises exactly when the record or its event is not a dict. Otherwise it yields `operationType`, and `fullDocument` and `documentKey` with `{}` defaults |
| `EventRouter.ProcessEvent` | roles_lambda_function.py:97-113 | an unreadable record raises. An unknown operation changes nothing and does not raise. A `delete` leaves the warehouse untouched and issues only configuration statements |
| `EventRouter.WarehouseBeforeConfig` | roles_lambda_function.py:103-108 | for insert, update and replace, the event's statements are all warehouse statements followed by all configuration statements |
| `EventRouter.DeleteEventRemovesKey` | roles_lambda_function.py:109-111 | a `delete` event removes the document key's `role_id` from the configuration table and leaves the warehouse as it was |
| `EventRouter.InsertEventAppends` | roles_lambda_function.py:103-104 | an `insert` event appends the document's row even when its id is already present |
| `EventRouter.EventWithoutIdsIsNoOp` | roles_lambda_function.py:103-108 | an upsert whose document has no usable `_id` and no truthy `role_id` changes nothing and executes nothing |
| `EventRouter.DeleteWithoutRoleIdIsNoOp` | roles_lambda_function.py:49-52 | a `delete` whose document key has no truthy `role_id` changes nothing and executes nothing |
| `EventRouter.UnknownOperationIsIgnored` | test_roles_lambda_function.py:165-174 | an `unknown` operation touches neither store and does not raise |
| `BatchCoordinator.Records` | roles_lambda_function.py:144 | a missing `events` key gives an empty batch. A list gives its elements. A string's one-character records all fail to read. A non-dict event raises |
| `BatchCoordinator.ProcessAll` | roles_lambda_function.py:144-147 | routing the records in order only appends to the executed-statement history |
| `BatchCoordinator.ProcessAllAppend` | roles_lambda_function.py:144-147 | processing a batch in two parts is processing the first part and then the second from where it stopped, and an exception stops everything after it |
| `BatchCoordinator.LambdaHandler` | roles_lambda_function.py:141-161 | the reply is always `'OK'`. An exception leaves both stores as they were. A failing warehouse commit also leaves both stores as they were. A failing configuration commit leaves the warehouse committed. Otherwise both stores hold the in-order fold |
| `BatchCoordinator.Handle` | roles_lambda_function.py:141-161 | the loop that routes one record at a time and stops at the first exception, followed by the commits or the rollback, gives exactly the reply of the fold |
| `BatchCoordinator.WellFormedRecordSucceeds` | roles_lambda_function.py:97-113 | over stores that accept every statement, a record with dicts where the router reads them never raises |
| `BatchCoordinator.AllWellFormedSucceed` | roles_lambda_function.py:144-147 | over accepting stores, a batch of such records is processed without an exception |
| `BatchCoordinator.WellFormedBatchCommits` | roles_lambda_function.py:144-149 | such a batch over accepting stores and commits is committed in full, as the fold of its records |
| `BatchCoordinator.NoOpRecordIsSkipped` | roles_lambda_function.py:144-147 | dropping from anywhere in a batch a record that changes nothing gives the same outcome. Such a record is an upsert whose document has no usable `_id` and no truthy `role_id`, a `delete` whose document key has no truthy `role_id`, or an unknown operation |
| `BatchCoordinator.RaisingRecordRollsBack` | roles_lambda_function.py:150-161 | if any record raises, both stores keep their pre-batch contents and the reply is still `'OK'` |
| `BatchCoordinator.SingleEventCommits` | roles_lambda_function.py:144-149 | a one-record batch over accepting stores commits what routing that record gives |
| `BatchCoordinator.UpsertEventCommits` | roles_lambda_function.py:103-108 | an `insert` appends the document's row. An `update` or `replace` of an identifier already present rewrites every row carrying it with the new data and date and keeps the others. Either way the configuration row holds the document's role columns, attributed to `americold_compass`, dated by `create_date` if new and by `last_update_date` if it existed |
| `BatchCoordinator.SampleRoleFields` | test_roles_lambda_function.py:13-24 | the sample role's identifier is the unwrapped object id, its role id is `admin`, and it is not flagged deleted |
| `BatchCoordinator.SampleInsertThenUpdate` | test_roles_lambda_function.py:129-145 | inserting the sample role into empty stores gives one warehouse row and an `admin` row dated by the creation date. Updating it with the same document then leaves one warehouse row, not two |
| `BatchCoordinator.SampleDelete` | test_roles_lambda_function.py:156-163 | a `delete` batch with key `admin` removes that row and leaves the warehouse |

## Left out

- Secret retrieval (`get_secret`, roles_lambda_function.py:7-14) and opening the two connections (:116-139) are external I/O. The batch starts from two already-open stores.
- Closing the cursors and connections (:154-159) changes neither store. Exceptions raised by `rollback` or `close` are not modelled.
- `print` diagnostics are log text only. The model states store effects instead of messages.
- The SQL text and the `json.dumps` encoding are not modelled. Serialization is an opaque token carrying the document.
- Which statements or commits a store refuses is a parameter of the model. The model does not derive it from constraints, bind types or the network.
- `WHERE id = %s` and `ROLEID = :role_id` compare model values for equality. Database type coercion, such as an integer against text, is not modelled.
- Only the `CFG_ROLE` columns the handler writes are modelled.
- Warehouse delete (`delete_redshift_role`, :110) is commented out in the source, so the warehouse has no delete.
- Floating-point values are not part of the value model.
- Values.PyStr: the text `str()` gives a list or dict is a fixed placeholder, because the model's dicts have no key order. Two such identifiers therefore share a warehouse key in the model.
- BatchCoordinator.Records: when `events` is a non-empty dict, the model raises at once. Python raises on the first key, which is the same outcome.
- The status the handler returns does not reflect failures. The model keeps this as written: `'OK'` on every path, including after a rollback.
