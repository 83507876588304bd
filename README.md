# idbwrapper in Dafny

This project models the core of idbwrapper, a promise-based wrapper around the W3C
Indexed Database API, and proves properties of that model. The model covers:

- **Query builder and executor** (`QueryWrapper`). One builder call records a query type
  and derives the transaction mode. Executing the query dispatches to the handler for
  that type. `QueryWrapper.Query` is a class over the builder's fields. The handlers
  are methods that take the engine's answers to their requests and return the
  settlement of the promise they hand out.
- **Where-conditions** (`WhereCondition`, `WhereComparators`, `KeyRanges`). A condition
  holds a name, a kind and a comparison. Index and key-path conditions store an
  `IDBKeyRange` descriptor. Field conditions store the raw value or pair for the
  seven comparators. Membership in a key range follows section 2.9 (Key range) of the
  Indexed Database API.
- **Transaction coordinator** (`StoreDetection`, `TransactionCoordinator`).
  - Constructor checks.
  - Auto-detection of the stores a callback uses, from three textual access patterns.
  - One accessor per store.
  - The settlement rule of `performTransaction`.
- **Facade** (`IdbWrapperFacade`).
  - `open` and its cached connection promise.
  - The store list built by `_defineStoreAccessors`.
  - Argument resolution of `transaction`.
  - The `insert`/`upsert`/`findByKey` shortcuts.
  - The lazily made schema.
- **Schema migration runner** (`SchemaVersions`, `Schemas`, `SchemaProperties`).
  - `registerVersion` fills a fresh version wrapper through its generated
    `createTable`/`alterTable`/`dropTable` appenders.
  - `runDDLStatements` replays the registered versions above the old version. In each
    version it runs the creates, then the alters, then the drops.

The storage engine is not modelled as a store. Each handler receives the outcomes of
its requests as a parameter: `Outcome = Success(result) | Failure(message)`. A
deferred promise is a `Settlement`: pending, resolved or rejected, and the first
settlement wins. `IdbEngine.OpenTransaction` states the checks
`IDBDatabase.transaction` makes on its scope.

`_insert`/`_upsert` push each item when its request succeeds, so the pushed items are
in completion order. The Indexed Database API completes the requests of one
transaction in the order they were issued. The model therefore takes the write
outcomes in issue order, and a batch resolves with its items in their given order.

The schema runner reads each entry's `storeName` property
(`src/schema/schema.js:55,74`). The version wrapper records the name under
`tableName` (`src/schema/schemaversion.js:18-22`). The runner functions take the
property they read as a parameter:

- `StoreNameField` is the code as written. Every name is the string "undefined".
- `TableNameField` is the evident intent.

The `Schema` class runs the code as written. The ordering and provenance lemmas
(`SchemaProperties.DdlRunOrder` and those below it) hold for both readings. See
"## Findings".

A store query's transaction promise is represented only by its identity
(`QueryWrapper.ContextPromise`). The connection itself is represented by the
`Responses` a query receives.

## Model

| member | source | states |
|---|---|---|
| KeyRanges.Only | src/whereconditionwrapper.js:101 | `IDBKeyRange.only(v)` contains exactly the key `v` |
| KeyRanges.Bound | src/whereconditionwrapper.js:129-155 | `IDBKeyRange.bound` throws DataError exactly when lower > upper, or when lower = upper with an open end; otherwise it contains exactly the keys between the bounds, with each end open or closed as asked |
| KeyRanges.LowerBound | src/whereconditionwrapper.js:162-187 | `lowerBound(v, open)` contains exactly the keys above `v` (strictly when open) |
| KeyRanges.UpperBound | src/whereconditionwrapper.js:194-219 | `upperBound(v, open)` contains exactly the keys below `v` (strictly when open) |
| WhereComparators.EqualsIsIdentity | src/wherecomparators.js:5-7 | EQUALS holds iff the value is strictly equal to the comparison value; it never holds against a pair |
| WhereComparators.BoundaryBehaviour | src/wherecomparators.js:8-13 | BETWEEN is false at both ends; RANGE is true at both ends |
| WhereComparators.RangeIsBetweenOrBound | src/wherecomparators.js:8-13 | RANGE(v) ⇔ BETWEEN(v) ∨ v = lo ∨ v = hi for the same pair |
| WhereComparators.StrictAndInclusive | src/wherecomparators.js:14-25 | GREATERTHAN and LESSTHAN are false at the comparison value; their -EQUAL forms are true there |
| WhereComparators.TotalOrderRelations | src/wherecomparators.js:14-25 | GREATERTHANEQUAL ⇔ GREATERTHAN ∨ EQUALS; LESSTHANEQUAL ⇔ ¬GREATERTHAN; LESSTHAN ⇔ ¬GREATERTHANEQUAL |
| WhereCondition.WhereConditionWrapper.constructor | src/whereconditionwrapper.js:9-19 | a new condition uses a field iff its kind is FIELD; range, comparison value and comparison type are all empty; the object invariant holds |
| WhereCondition.WhereConditionWrapper.SetComparisonTypeAndReturnParent | src/whereconditionwrapper.js:41-44 | records the comparison type and returns the owning query |
| WhereCondition.WhereConditionWrapper.GetCondition | src/whereconditionwrapper.js:50-52 | returns the stored comparison value unchanged |
| WhereCondition.WhereConditionWrapper.GetName | src/whereconditionwrapper.js:58-60 | returns the condition's name |
| WhereCondition.WhereConditionWrapper.GetComparator | src/whereconditionwrapper.js:67-81 | the kind test is `isType(FIELD)`, a strict comparison of the stored kind; getComparator throws "only field where conditions can generate comparators" unless the kind is FIELD; for a field condition with a comparison type, yields the comparator named by that type |
| WhereCondition.WhereConditionWrapper.SetComparisonValue | src/whereconditionwrapper.js:88-90 | stores the raw value for a field condition and the key range otherwise |
| WhereCondition.WhereConditionWrapper.Equals | src/whereconditionwrapper.js:100-113 | records EQUALS with `only(v)` (index kinds) or `v` (FIELD), returns the parent, keeps the invariant; the condition then selects exactly the keys the EQUALS comparator accepts |
| WhereCondition.WhereConditionWrapper.Only | src/whereconditionwrapper.js:115-120 | the same handler as `equals`, with the same effect and the same selected keys |
| WhereCondition.WhereConditionWrapper.Between | src/whereconditionwrapper.js:129-138 | throws DataError for every kind when value1 ≥ value2 and changes nothing; otherwise stores a range open at both ends (or the pair) with BETWEEN, and selects exactly the keys BETWEEN accepts |
| WhereCondition.WhereConditionWrapper.Range | src/whereconditionwrapper.js:146-155 | throws DataError when value1 > value2; otherwise stores a range closed at both ends (or the pair) with RANGE, and selects exactly the keys RANGE accepts |
| WhereCondition.WhereConditionWrapper.GreaterThan | src/whereconditionwrapper.js:162-171 | stores an open lower bound (or the value) with GREATERTHAN; range membership agrees with the comparator |
| WhereCondition.WhereConditionWrapper.GreaterThanEqual | src/whereconditionwrapper.js:178-187 | stores a closed lower bound (or the value) with GREATERTHANEQUAL; range membership agrees with the comparator |
| WhereCondition.WhereConditionWrapper.LessThan | src/whereconditionwrapper.js:194-203 | stores an open upper bound (or the value) with LESSTHAN; range membership agrees with the comparator |
| WhereCondition.WhereConditionWrapper.LessThanEqual | src/whereconditionwrapper.js:210-219 | stores a closed upper bound (or the value) with LESSTHANEQUAL; range membership agrees with the comparator |
| QueryWrapper.ModeFor | src/querywrapper.js:88-97 | the derived mode is READWRITE exactly for INSERT, UPSERT and REMOVE, READONLY otherwise |
| QueryWrapper.HandlerType | src/querywrapper.js:37-56 | every handler serves one of the six query types |
| QueryWrapper.HandlerFor | src/querywrapper.js:37-56 | a handler is bound exactly for the six table names, and it is the handler of that type |
| QueryWrapper.FindSettlement | src/querywrapper.js:118-129 | a key that is neither a valid key (a number, a string, or an array of valid keys) nor a key range makes `store.get` throw DataError, which rejects; for a valid key `_find` rejects iff the get fails (with the engine's message) or a required lookup yields undefined (with "No item found for key …"); otherwise it resolves with the lookup result, undefined included |
| QueryWrapper.InQueryTypeTable | src/querywrapper.js:80 | the table lookup accepts the six query types; the only other names it accepts are the members the table inherits from Object.prototype, and none of them has a handler |
| QueryWrapper.FindAllSettlement | src/querywrapper.js:149-164 | `_findAll` is pending exactly while every event is a record; it resolves only after the end, with the records before it in cursor order; it rejects exactly when a cursor error comes before the end |
| QueryWrapper.FirstTerminal | src/querywrapper.js:152-160 | the cursor's records run up to the first event that is not a record |
| QueryWrapper.FirstFailure | src/querywrapper.js:199-215 | all requests before the first failed one succeeded, and that one failed |
| QueryWrapper.FirstFailureSnoc | src/querywrapper.js:199-215 | a later outcome keeps an earlier failure, otherwise it is the new first failure or extends the run of successes |
| QueryWrapper.RemoveSettlement | src/querywrapper.js:279-285 | `_remove` resolves with true iff the delete succeeds, else rejects with the engine's message |
| QueryWrapper.CountSettlement | src/querywrapper.js:302-318 | a truthy index the store does not have rejects with the NotFoundError `store.index` throws; otherwise the query resolves with the count when counting succeeds and rejects with the engine's message when it fails |
| QueryWrapper.BatchSettlement | src/querywrapper.js:196-215 | the first failed request rejects the batch with its message, even while other requests are outstanding; the batch resolves with all the items exactly when as many requests as items succeeded; a batch that is neither is pending, with requests outstanding or no items |
| QueryWrapper.SettleBatch | src/querywrapper.js:196-215 | the push-and-count loop of the batch handlers settles exactly as `BatchSettlement`: the first failure rejects, and the items resolve once the counter reaches their number |
| QueryWrapper.Query.constructor | src/querywrapper.js:9-17 | a fresh query has no type, a null find key and READONLY mode, on the given store and promise |
| QueryWrapper.Query.SetQueryTypeAndTransactionMode | src/querywrapper.js:78-100 | a name the table lookup rejects throws "trying to set invalid query type: …" and changes nothing; otherwise the type and its mode are recorded, with a warning exactly when a type was already set |
| QueryWrapper.Query.FindAll | src/querywrapper.js:327-330 | sets FINDALL, READONLY, returns the same query |
| QueryWrapper.Query.Find | src/querywrapper.js:338-352 | keeps a string, number, key-range or array key and replaces any other by ''; stores `required`; sets FIND, READONLY |
| QueryWrapper.Query.Insert | src/querywrapper.js:359-366 | a non-array throws "insert expects an array of values" and changes nothing; an array is stored unchanged with INSERT, READWRITE |
| QueryWrapper.Query.Upsert | src/querywrapper.js:373-380 | a non-array throws "upsert exepcts an array of values" and changes nothing; an array is stored unchanged with UPSERT, READWRITE |
| QueryWrapper.Query.Count | src/querywrapper.js:387-391 | stores the index as given; sets COUNT, READONLY |
| QueryWrapper.Query.Remove | src/querywrapper.js:398-408 | a key that is not a string, number or key range (arrays included) throws and changes nothing; otherwise stores it with REMOVE, READWRITE |
| QueryWrapper.Query.Execute | src/querywrapper.js:33-66 | throws "No valid method has been selected…" exactly when the type is not one of the six; otherwise plans a transaction over this store alone, in the query's mode, on its promise, with the handler of its type |
| QueryWrapper.Query.RunFind | src/querywrapper.js:107-133 | settles as `FindSettlement` on the stored key and flag |
| QueryWrapper.Query.RunFindAll | src/querywrapper.js:140-167 | the cursor loop settles as `FindAllSettlement` |
| QueryWrapper.Query.RunInsert | src/querywrapper.js:174-218 | settles as `BatchSettlement` over the stored values |
| QueryWrapper.Query.RunUpsert | src/querywrapper.js:225-267 | settles as `BatchSettlement` over the stored values |
| QueryWrapper.Query.RunRemove | src/querywrapper.js:274-288 | settles as `RemoveSettlement` |
| QueryWrapper.Query.RunCount | src/querywrapper.js:295-321 | settles as `CountSettlement` on the stored index |
| QueryWrapper.Query.Then | src/querywrapper.js:71-76 | `then` throws iff no valid type is set; a failed transaction open rejects; otherwise each type settles by its own handler's rule |
| QueryProperties.FindAllKeepsCursorOrder | src/querywrapper.js:149-160 | `_findAll` resolves with exactly the records pushed by the cursor callback, their values in cursor order |
| QueryProperties.FindAllFirstErrorRejects | src/querywrapper.js:152-164 | a cursor error before the end rejects `_findAll` with its message, whatever follows |
| QueryProperties.BatchResolvesIffAllSucceed | src/querywrapper.js:197-214 | once all requests answered, a batch resolves with all its items iff it is non-empty and every request succeeded; it rejects iff one failed; an empty batch never settles |
| QueryProperties.BatchPendingUntilCounterReachesTotal | src/querywrapper.js:205-209 | with fewer successes than items and no failure, the batch is still pending |
| QueryProperties.BatchSettlementIsFinal | src/querywrapper.js:199-214 | a batch that has settled keeps that settlement whatever the remaining requests answer |
| IdbEngine.OpenTransaction | src/transactionwrapper.js:94 | a transaction opens iff its scope is non-empty and names only existing stores; NotFoundError or InvalidAccessError otherwise |
| StoreDetection.AccessFrom | src/transactionwrapper.js:51-60 | the left-to-right scan finds an access iff one occurs at or after the start position |
| StoreDetection.DetectUsedStores | src/transactionwrapper.js:49-61 | the detected stores are an order-preserving subsequence of the candidates, and a store is kept iff the text accesses it |
| StoreDetection.AutodetectStores | src/transactionwrapper.js:45-62 | text without a parameter name throws a TypeError; otherwise the result is the detected subsequence |
| StoreDetection.PrefixNameIsNotDotAccess | src/transactionwrapper.js:51 | a store named like a proper prefix of the accessed name is not matched by dot access there |
| StoreDetection.DotAccessExample | src/transactionwrapper.js:51-60 | `t.ab;` over stores a, ab detects only ab |
| StoreDetection.AccessContainsStoreName | src/transactionwrapper.js:51-53 | every access spells the store name right after the parameter and `.`, `['` or `["` |
| StoreDetection.AbsentNameNeverDetected | src/transactionwrapper.js:49-61 | a store whose first letter does not occur in the text is never detected |
| StoreDetection.BracketAccessExample | src/transactionwrapper.js:52-53 | both bracket forms are detected, and an unused store is not |
| TransactionCoordinator.AutoDetectOption | src/transactionwrapper.js:15-26 | auto-detection is on iff the options object has a truthy `autoDetectUsedStores` |
| TransactionCoordinator.FirstRedefinition | src/transactionwrapper.js:67-78 | the first store whose accessor is already defined, earlier in the same pass included |
| TransactionCoordinator.DistinctStoresAllDefined | src/transactionwrapper.js:67-78 | distinct store names all get an accessor |
| TransactionCoordinator.SubsequenceOfDistinct | src/transactionwrapper.js:49 | filtering distinct names leaves them distinct |
| TransactionCoordinator.ScopeFor | src/transactionwrapper.js:32-34 | the given stores without auto-detection; with it, exactly the list `DetectUsedStores` finds in the callback's source, or the TypeError when the callback has no parameter |
| TransactionCoordinator.OpenOn | src/transactionwrapper.js:94 | with no database handle, opening throws a TypeError; otherwise as `OpenTransaction` |
| TransactionCoordinator.TxSettlement | src/transactionwrapper.js:96-107 | the first transaction event decides: complete resolves with the callback result, abort rejects with the recorded error, an error event rejects with the event; nothing settles before an event |
| TransactionCoordinator.TxSettlementIsFinal | src/transactionwrapper.js:96-107 | once a transaction event has settled the promise, later events change nothing |
| TransactionCoordinator.DistinctScopeSetsUp | src/transactionwrapper.js:32-36 | with distinct stores, and a callback with a parameter when detection is on, the scope is computed and every name of it gets its accessor |
| TransactionCoordinator.TransactionWrapper.constructor | src/transactionwrapper.js:14-26 | the fields set before the checks: stores, database, callback, null callback result, coerced auto-detect flag |
| TransactionCoordinator.TransactionWrapper.Create | src/transactionwrapper.js:14-37 | a non-function callback throws "You need to pass in a callback…"; detection errors propagate; otherwise the store list (given or detected) gets one accessor per store, and the constructor succeeds iff no name repeats, which holds for distinct stores |
| TransactionCoordinator.TransactionWrapper.SetupStores | src/transactionwrapper.js:67-78 | defines accessors in order; the first repeated name throws "Cannot redefine property: …" and the names after it get none |
| TransactionCoordinator.TransactionWrapper.Store | src/transactionwrapper.js:69-75 | an accessor mints a fresh query for that store on the transaction promise; other names have none |
| TransactionCoordinator.TransactionWrapper.PerformTransaction | src/transactionwrapper.js:83-135 | opens one READWRITE transaction over the stores (its error propagates); a throwing callback throws; a fulfilled callback sets the result; a rejecting one aborts exactly once; the promise then settles by `TxSettlement` |
| IdbWrapperFacade.KnownStores | src/idbwrapper.js:75-77 | the filter keeps exactly the string elements that name a known store; a one-element array keeps its element iff it names a known store |
| IdbWrapperFacade.KnownStoresConcat | src/idbwrapper.js:75-77 | the filter works element by element: filtering two arrays joined is filtering each and joining, so order is kept |
| IdbWrapperFacade.KnownStoresCounts | src/idbwrapper.js:75-77 | a known store name is kept as many times as the array holds it; other names never |
| IdbWrapperFacade.ResolveTransactionArgs | src/idbwrapper.js:67-88 | a non-function, non-array argument throws "Expecting an array of stores…"; an array's scope is the filtered array itself (`KnownStores` of its elements: order and repetitions kept), and it throws "No valid stores specified" iff none is known; a function turns on auto-detection over all known stores and becomes the callback |
| IdbWrapperFacade.IDBWrapper.constructor | src/idbwrapper.js:14-28 | a new instance knows no store, has no schema, and has issued one open request whose promise is pending |
| IdbWrapperFacade.IDBWrapper.Open | src/idbwrapper.js:35-60 | returns the cached promise unless a reopen is asked for; a reopen closes the held connection, issues a new request and replaces the promise with a pending one |
| IdbWrapperFacade.IDBWrapper.OnOpenSuccess | src/idbwrapper.js:48-52 | keeps the connection, appends its store names, resolves the pending promise with the wrapper itself |
| IdbWrapperFacade.IDBWrapper.OnOpenError | src/idbwrapper.js:54-56 | rejects the pending promise with an Error carrying the engine's message |
| IdbWrapperFacade.IDBWrapper.DefineStoreAccessors | src/idbwrapper.js:98-114 | appends every store name of the connection, in order, without clearing the list first |
| IdbWrapperFacade.IDBWrapper.Store | src/idbwrapper.js:104-112 | a known store's accessor mints a fresh query on the connection promise |
| IdbWrapperFacade.IDBWrapper.GetSchema | src/idbwrapper.js:18-25 | the schema getter returns the same schema on every read and makes an empty one on the first |
| IdbWrapperFacade.IDBWrapper.OnUpgradeNeeded | src/idbwrapper.js:120-126 | runs the schema's registered statements for the version interval against the upgrading connection's store names |
| IdbWrapperFacade.IDBWrapper.Transaction | src/idbwrapper.js:67-92 | argument errors, the callback check, detection errors, accessor redefinitions and open errors surface in that order; otherwise the result settles by `TxSettlement` |
| IdbWrapperFacade.IDBWrapper.Insert | src/idbwrapper.js:134-137 | a fresh query for the collection on the connection promise with `insert` applied |
| IdbWrapperFacade.IDBWrapper.Upsert | src/idbwrapper.js:145-148 | a fresh query for the collection on the connection promise with `upsert` applied |
| IdbWrapperFacade.IDBWrapper.FindByKey | src/idbwrapper.js:157-160 | a fresh query for the collection on the connection promise with `find(key, required)` applied |
| IdbWrapperFacade.AsWrittenReopenBreaksAutodetect | src/idbwrapper.js:98-102 | after a second open the known stores repeat, and an auto-detected transaction using one of them hits a repeated accessor |
| IdbWrapperFacade.IntendedReopenKeepsAutodetect | src/idbwrapper.js:98-102 | with the list replaced on each open, every detected accessor is defined once |
| SchemaVersions.MethodName | src/schema/schemaversion.js:15-17 | each command's method is named `cmd + 'Table'`, for `cmd` in `['create', 'alter', 'drop']` |
| SchemaVersions.CommandOf | src/schema/schemaversion.js:15-17 | exactly the three generated method names denote a command, and each denotes its own |
| SchemaVersions.EffectOf | src/schema/schemaversion.js:8-25 | the three generated names append to their list; `constructor` runs the constructor again on the wrapper; the other methods inherited from Object.prototype leave the lists alone; `__proto__` and every other name are not functions |
| SchemaVersions.SchemaVersion.Reinitialize | src/schema/schemaversion.js:8-12 | calling `constructor` on a wrapper empties its three lists |
| SchemaVersions.SchemaVersion.constructor | src/schema/schemaversion.js:8-12 | a new version wrapper has empty create, alter and drop lists |
| SchemaVersions.SchemaVersion.Append | src/schema/schemaversion.js:17-24 | appends one entry, recorded exactly as passed, to the command's list, leaves the other two alone, and returns the same wrapper |
| Schemas.StatementName | src/schema/schema.js:55-74 | as written, every entry's store name is "undefined" |
| Schemas.MaybeCallback | src/schema/schema.js:40-45 | a statement callback runs, once, exactly when it is a function |
| Schemas.FirstUnknownCall | src/schema/schema.js:24 | the first call of the registration callback to a name that is not a function on the version wrapper; every earlier call is to a function |
| Schemas.Step | src/schema/schema.js:54-82 | one entry throws exactly when it is a create of a name not found before the loop but already made in this run, and then with ConstraintError |
| Schemas.RunList | src/schema/schema.js:54-82 | an exception from an earlier pass is the outcome of this one; a pass succeeds only from a successful state |
| Schemas.RunVersion | src/schema/schema.js:49-82 | a version with nothing registered, or a run that already threw, is left unchanged |
| Schemas.RunVersions | src/schema/schema.js:48-83 | an empty interval leaves the initial state: the store names read before the loop, nothing made, no event |
| Schemas.RunDDL | src/schema/schema.js:34-48 | nothing runs when oldVersion ≥ newVersion |
| Schemas.ListsAfter | src/schema/schema.js:23-24 | no list of a filled wrapper has more entries than the callback made calls |
| Schemas.Recorded | src/schema/schemaversion.js:17-24 | an appender call adds its own entry at the end of its own list only; `constructor` empties the lists; any other call keeps them |
| Schemas.ListsAfterEntriesComeFromCalls | src/schema/schemaversion.js:17-24 | every entry of a filled list was recorded, exactly as passed, by a call to that list's appender |
| Schemas.ListsAfterConcat | src/schema/schema.js:23-24 | calls that do not reinitialize append their entries to each list, in call order |
| Schemas.Schema.constructor | src/schema/schema.js:12-14 | a new schema has no registered version |
| Schemas.Schema.FillVersion | src/schema/schema.js:23-24 | the callback's calls fill a fresh wrapper in call order (`constructor` empties it again, other inherited methods leave it alone); the first name that is not a function throws a TypeError |
| Schemas.Schema.RegisterVersion | src/schema/schema.js:22-27 | stores the filled wrapper under its number, replacing any earlier one, leaves the other versions alone and returns the schema; a throwing callback registers nothing |
| Schemas.Schema.ProcessList | src/schema/schema.js:54-82 | one `forEach` pass over a list: reuse, create (ConstraintError on a repeated name) or callback, as `RunList` |
| Schemas.Schema.ProcessVersion | src/schema/schema.js:53-82 | one version runs its creates, then its alters, then its drops; the first exception ends it |
| Schemas.Schema.RunDDLStatements | src/schema/schema.js:34-84 | the version loop equals `RunDDL` over the registered lists, as written |
| SchemaProperties.StepEvents | src/schema/schema.js:54-82 | one entry adds only events of its own pass and index |
| SchemaProperties.ListEvents | src/schema/schema.js:54-82 | a pass only appends events of that pass, for entries whose callback is a function |
| SchemaProperties.UpgradeKeepsStores | src/schema/schema.js:47-83 | a successful run keeps every store name read before the loop, in place, and makes no name twice when there was no duplicate before |
| SchemaProperties.RunListExtends | src/schema/schema.js:54-82 | a pass never takes back a store name or an event |
| SchemaProperties.VersionEvents | src/schema/schema.js:53-82 | one registered version appends, in pass order, only events of its own lists |
| SchemaProperties.RunEvents | src/schema/schema.js:48-83 | a run over an interval replays only registered versions in it, in ascending order and create → alter → drop within each |
| SchemaProperties.StepReplays | src/schema/schema.js:54-82 | one entry adds its store event for a create (a reuse when the name was found before the loop) and, exactly when its callback runs, that callback, last |
| SchemaProperties.ListReplays | src/schema/schema.js:54-82 | a pass replays every entry of its list: each create's store event, each callback that runs, callbacks in index order |
| SchemaProperties.VersionReplays | src/schema/schema.js:53-82 | one version replays every entry of its three lists |
| SchemaProperties.RunReplays | src/schema/schema.js:48-83 | a run replays every entry of every registered version in the interval |
| SchemaProperties.DdlRunOrder | src/schema/schema.js:37-83 | `runDDLStatements` visits oldVersion+1 .. newVersion ascending, creates before alters before drops, creates only stores missing from the names read before the loop, and runs only function callbacks; conversely every create of every registered version in range leaves its `Created` event with the entry's config, `{}` when that is falsy (or a reuse of a store found before the loop), and every function callback runs exactly once, in index order within its list; for the callback of a create whose store was found before the loop no claim is made |
| SchemaProperties.AsWrittenCreatesNameUndefined | src/schema/schema.js:55-65 | as written, a create pass that succeeds leaves a store named "undefined" |
| SchemaProperties.AsWrittenSecondCreateFails | src/schema/schema.js:54-65 | as written, two creates in one pass throw ConstraintError unless "undefined" already existed |
| SchemaProperties.AsWrittenUpgradeFails | src/schema/schema.js:48-70 | as written, any upgrade through a version with two creates fails |
| SchemaProperties.IntendedCreatesAll | src/schema/schema.js:54-70 | reading `tableName`, a create pass over new distinct names creates exactly those stores, in order |
| SchemaProperties.IntendedUpgradeCreatesTables | src/schema/schema.js:48-70 | reading `tableName`, an upgrade to a version creating new distinct stores succeeds and adds exactly them |

## Left out

- Real I/O with the Indexed Database API is not modelled. This covers `indexedDB.open`, the request and cursor objects, and the `onsuccess`/`onerror`/`onupgradeneeded` wiring. The engine's answers are parameters (`Responses`, outcome sequences, transaction events).
- Promise scheduling and laziness are not modelled. Execution is a direct call. The event-loop order between `oncomplete` and the callback's promise chain is not modelled either: the callback settles before the first transaction event.
- The open handlers act on the current request. The success or error of a request superseded by a reopen is not modelled.
- The `where` query path, `clear` and `_isInsideTransaction` are not modelled: the query wrapper source has none of them. The third constructor argument a coordinator passes to its queries is ignored, as in the source.
- The general regular-expression engine is not modelled.
  - The callback's first parameter name is an input of the function value.
  - The three access patterns are substring checks.
  - Store names containing metacharacters are not modelled.
- Floating-point keys, NaN and comparisons across types are not modelled. Keys and comparison values are integers.
- Console output is not modelled.
- The `!store` guards of `_find`/`_findAll` are unreachable, because `objectStore` throws instead of returning nothing. That exception is the rejection of the transaction open in `Responses.open`.
- In `_upsert`, a synchronous throw from `put` aborts the transaction. Synchronous throws from `add` and `put` (for example DataError for a value without a key) are not modelled.
- The DDL statement wrappers (`CreateStatementWrapper`, `UpdateStatementWrapper`, `DropStatementWrapper`) and what a statement callback does through them are not modelled. A callback is recorded only as having run, with its target store.
- Errors `createObjectStore` raises for a bad config are not modelled.
- A registration callback that is not a function is not modelled. Only an exception from calling a missing method is modelled.
- Store names that collide with the instance's own properties are not modelled. Accessors are a lookup by name.
- A transaction callback that returns something other than a promise is not modelled.
- `close()` is recorded, not performed.
- Of the methods a version wrapper inherits from Object.prototype, only `constructor` changes the lists. Whatever else the others do is not modelled: the accessor `__defineGetter__`/`__defineSetter__` would define, and what `hasOwnProperty` and the rest return.
- Dates and binary keys are not values of the model. `IsKey` covers numbers, strings and arrays of valid keys.
- `IDBWrapper.initialize` is not modelled. It only calls the constructor.
- `src/helpers/removelisteners.js` is not part of this model.
- Auto-detection reads the callback's source text and parameter name from the function value. `Function.prototype.toString` itself is not modelled.

## Findings

| source | as written | input that shows it | evidently intended | confidence | as-written member | corrected member |
|---|---|---|---|---|---|---|
| src/schema/schema.js:55 | `runDDLStatements` names each store by `store.storeName`, but entries are recorded as `{tableName, config, cb}` (src/schema/schemaversion.js:18-22), so every created store is named "undefined" | upgrade from 0 to 1 of an empty database where version 1 registered `createTable('a')` and `createTable('b')`: the second create throws ConstraintError | read `store.tableName`, creating stores a and b | not executed; high | SchemaProperties.AsWrittenUpgradeFails | SchemaProperties.IntendedUpgradeCreatesTables |
| src/idbwrapper.js:98-102 | `_defineStoreAccessors` pushes the store names without clearing `_availableStores`, so after `open(true)` succeeds again every name is listed twice | a database with store `a`; `open(true)`; then `transaction(function (t) { t.a; ... })`: auto-detection keeps `a` twice and `_setupStores` (src/transactionwrapper.js:69) throws "Cannot redefine property: a" | replace the list on each open | not executed; medium | IdbWrapperFacade.AsWrittenReopenBreaksAutodetect | IdbWrapperFacade.IntendedReopenKeepsAutodetect |
