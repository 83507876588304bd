/**
 * The public entry point: one instance per database name and version. It opens the
 * connection, keeps the names of the object stores it found, hands out queries on
 * the connection promise, builds transactions and runs the schema when the engine
 * asks for an upgrade.
 */
module IdbWrapperFacade {
  import opened Wrappers
  import opened Js
  import opened IdbEngine
  import opened QueryWrapper
  import opened StoreDetection
  import opened TransactionCoordinator
  import opened Schemas

  /** A call `indexedDB.open(name, version)` the instance issued. */
  datatype OpenRequest = OpenRequest(name: string, version: Value)

  /** What `transaction` hands to `new TransactionWrapper(stores, callback, db, options)`. */
  datatype TransactionArgs = TransactionArgs(stores: seq<string>, callback: Value, options: Value)

  /** The options object `transaction(callback)` builds: `{autoDetectUsedStores: true}`. */
  const AutodetectOptions: Value := Obj(map["autoDetectUsedStores" := Bool(true)])

  /**
   * `stores.filter(store => available.indexOf(store) !== -1)`: the elements that are
   * strings naming a known store, in their given order and with their repetitions.
   */
  function KnownStores(available: seq<string>, elems: seq<Value>): (names: seq<string>)
    ensures |names| <= |elems|
    ensures forall n :: n in names <==> Str(n) in elems && n in available
    ensures |elems| == 1 ==> names == if elems[0].Str? && elems[0].s in available then [elems[0].s] else []
  {
    if elems == [] then []
    else
      var rest := KnownStores(available, elems[1..]);
      SplitFirst(elems);
      if elems[0].Str? && elems[0].s in available then [elems[0].s] + rest else rest
  }

  /** Each known store name is kept as many times as the array holds it; unknown names never. */
  lemma {:induction false} KnownStoresCounts(available: seq<string>, elems: seq<Value>)
    ensures forall n :: multiset(KnownStores(available, elems))[n] == if n in available then multiset(elems)[Str(n)] else 0
    decreases |elems|
  {
    if elems != [] {
      SplitFirst(elems);
      KnownStoresCounts(available, elems[1..]);
    }
  }

  /** The filter works element by element: it keeps the order of the elements it keeps. */
  lemma {:induction false} KnownStoresConcat(available: seq<string>, e1: seq<Value>, e2: seq<Value>)
    ensures KnownStores(available, e1 + e2) == KnownStores(available, e1) + KnownStores(available, e2)
    decreases |e1|
  {
    if e1 != [] {
      DropFirstOfConcat(e1, e2);
      KnownStoresConcat(available, e1[1..], e2);
      ConcatAssociates(if e1[0].Str? && e1[0].s in available then [e1[0].s] else [], KnownStores(available, e1[1..]), KnownStores(available, e2));
    } else {
      assert e1 + e2 == e2;
    }
  }

  /**
   * The argument handling of `transaction(stores, callback)`: a function in place of
   * the stores turns on auto-detection over every known store and becomes the
   * callback; anything else must be an array naming at least one known store.
   */
  function ResolveTransactionArgs(available: seq<string>, stores: Value, callback: Value): (r: Result<TransactionArgs, Exception>)
    ensures IsFunction(stores) ==> r == Ok(TransactionArgs(available, stores, AutodetectOptions))
    ensures !IsFunction(stores) && !IsArray(stores) ==> r == Err(Error("Expecting an array of stores for the transaction"))
    ensures IsArray(stores) ==> (r.Ok? <==> exists n :: n in available && Str(n) in stores.elems)
    ensures IsArray(stores) && r.Err? ==> r == Err(Error("No valid stores specified"))
    ensures IsArray(stores) && r.Ok? ==>
      && r.value.callback == callback && !AutoDetectOption(r.value.options)
      && r.value.stores == KnownStores(available, stores.elems)
  {
    if IsFunction(stores) then Ok(TransactionArgs(available, stores, AutodetectOptions))
    else if !IsArray(stores) then Err(Error("Expecting an array of stores for the transaction"))
    else
      var known := KnownStores(available, stores.elems);
      if known == [] then
        assert forall n :: n in available && Str(n) in stores.elems ==> n in known;
        Err(Error("No valid stores specified"))
      else
        assert known[0] in available && Str(known[0]) in stores.elems;
        Ok(TransactionArgs(known, callback, EmptyObject))
  }

  class IDBWrapper {
    const databaseName: string
    const version: Value
    /** The store names pushed by every successful open, in order. */
    var availableStores: seq<string>
    /** The promise of the current connection; queries wait on it. */
    var connectionPromise: ContextPromise
    /** The state of that promise: resolved once the open request succeeds. */
    var connection: Settlement<IDBWrapper, Exception>
    /** The handle of the last successful open; closing it does not clear it. */
    var database: Option<Database>
    /** The schema, made on first use. */
    var schema: Option<Schema>
    /** The open requests issued so far, in order. */
    var requests: seq<OpenRequest>
    /** The connections closed so far, in order. */
    var closed: seq<Database>

    /**
     * `new IDBWrapper(database, version)`: no known store, no schema yet, and one open
     * request whose promise is pending.
     */
    constructor(name: string, v: Value)
      ensures databaseName == name && version == v
      ensures availableStores == [] && database.None? && schema.None?
      ensures connection.Pending? && requests == [OpenRequest(name, v)] && closed == []
    {
      databaseName := name;
      version := v;
      availableStores := [];
      database := None;
      schema := None;
      connectionPromise := new ContextPromise();
      connection := Pending;
      requests := [OpenRequest(name, v)];
      closed := [];
    }

    /**
     * `open(closeAndReopen)`: the current promise unless a reopen is asked for; a
     * reopen closes the connection held, if any, and issues a new open request with
     * a new pending promise.
     */
    method Open(closeAndReopen: Value) returns (p: ContextPromise)
      modifies this`connectionPromise, this`connection, this`requests, this`closed
      ensures !Truthy(closeAndReopen) ==> p == connectionPromise && unchanged(this)
      ensures Truthy(closeAndReopen) ==>
        && fresh(p) && p == connectionPromise && connection.Pending?
        && requests == old(requests) + [OpenRequest(databaseName, version)]
        && closed == old(closed) + (if database.Some? then [database.value] else [])
    {
      if !Truthy(closeAndReopen) {
        return connectionPromise;
      }
      if database.Some? {
        closed := closed + [database.value];
      }
      p := new ContextPromise();
      connectionPromise := p;
      connection := Pending;
      requests := requests + [OpenRequest(databaseName, version)];
    }

    /**
     * The success handler of the open request: keeps the handle, defines the store
     * accessors and resolves the connection promise with the wrapper itself.
     */
    method OnOpenSuccess(db: Database)
      modifies this`database, this`availableStores, this`connection
      ensures database == Some(db)
      ensures availableStores == old(availableStores) + db.objectStoreNames
      ensures connection == old(connection).Resolve(this)
    {
      database := Some(db);
      DefineStoreAccessors(db);
      connection := connection.Resolve(this);
    }

    /** The error handler of the open request: rejects with an Error carrying the engine's message. */
    method OnOpenError(message: string)
      modifies this`connection
      ensures connection == old(connection).Reject(Error(message))
    {
      connection := connection.Reject(Error(message));
    }

    /**
     * `_defineStoreAccessors(db)`: pushes every store name of the connection onto the
     * known stores, without removing the ones an earlier open pushed.
     */
    method DefineStoreAccessors(db: Database)
      modifies this`availableStores
      ensures availableStores == old(availableStores) + db.objectStoreNames
    {
      var existingStores := db.objectStoreNames;
      for i := 0 to |existingStores|
        invariant availableStores == old(availableStores) + existingStores[..i]
      {
        availableStores := availableStores + [existingStores[i]];
        assert existingStores[..i + 1] == existingStores[..i] + [existingStores[i]];
      }
      assert existingStores[..|existingStores|] == existingStores;
    }

    /** Reading a store accessor: a fresh query on the connection promise, for known stores only. */
    method Store(name: string) returns (q: Option<Query>)
      ensures q.Some? <==> name in availableStores
      ensures q.Some? ==> fresh(q.value) && q.value.Valid()
      ensures q.Some? ==> q.value.storeName == name && q.value.connectionPromise == connectionPromise
      ensures q.Some? ==> q.value.queryType.None? && q.value.transactionMode == READONLY
    {
      if name !in availableStores {
        return None;
      }
      var query := new Query(name, connectionPromise);
      q := Some(query);
    }

    /** The `schema` getter: the same schema on every read, made empty on the first. */
    method GetSchema() returns (s: Schema)
      modifies this`schema
      ensures old(schema).Some? ==> s == old(schema).value && unchanged(this)
      ensures old(schema).None? ==> fresh(s) && s.versions == map[]
      ensures schema == Some(s)
    {
      if schema.Some? {
        return schema.value;
      }
      s := new Schema();
      schema := Some(s);
    }

    /**
     * `_onUpgradeNeeded(e)`: runs the registered DDL statements of the versions above
     * the old one up to the new one against the upgrading connection.
     */
    method OnUpgradeNeeded(db: Database, oldVersion: int, newVersion: int) returns (r: Result<RunState, Exception>)
      modifies this`schema
      ensures schema.Some? && (old(schema).Some? ==> schema == old(schema))
      ensures r == RunDDL(StoreNameField, schema.value.Lists(), db.objectStoreNames, oldVersion, newVersion)
    {
      var s := GetSchema();
      r := s.RunDDLStatements(db.objectStoreNames, oldVersion, newVersion);
    }

    /**
     * `transaction(stores, callback)`, followed through the transaction wrapper's
     * constructor and `performTransaction`, given how the callback's promise settles
     * and the events the engine then fires on the transaction.
     */
    method Transaction(stores: Value, callback: Value, outcome: CallbackOutcome, events: seq<TxEvent>)
      returns (r: Result<Settlement<Value, Value>, Exception>)
      ensures var args := ResolveTransactionArgs(availableStores, stores, callback);
        args.Err? ==> r == Err(args.error)
      ensures var args := ResolveTransactionArgs(availableStores, stores, callback);
        args.Ok? && !IsFunction(args.value.callback) ==>
          r == Err(Error("You need to pass in a callback for the transaction"))
      ensures var args := ResolveTransactionArgs(availableStores, stores, callback);
        args.Ok? && IsFunction(args.value.callback) ==>
          var scope := ScopeFor(args.value.callback, args.value.options, args.value.stores);
          && (scope.Err? ==> r == Err(scope.error))
          && (scope.Ok? && FirstRedefinition([], scope.value) < |scope.value| ==>
                r == Err(TypeError("Cannot redefine property: " + scope.value[FirstRedefinition([], scope.value)])))
          && (scope.Ok? && FirstRedefinition([], scope.value) == |scope.value| ==>
                var opening := OpenOn(database, scope.value);
                && (opening.Err? ==> r == Err(opening.error))
                && (opening.Ok? && outcome.Throws? ==> r == Err(outcome.exception))
                && (opening.Ok? && !outcome.Throws? ==>
                      r == Ok(TxSettlement(events,
                                           if outcome.Fulfills? then outcome.result else Null,
                                           if outcome.RejectsWith? then outcome.error else Undefined))))
    {
      var args := ResolveTransactionArgs(availableStores, stores, callback);
      if args.Err? {
        return Err(args.error);
      }
      var created := TransactionWrapper.Create(args.value.stores, args.value.callback, database, args.value.options);
      if created.Err? {
        return Err(created.error);
      }
      var wrapper := created.value;
      var settled, _, _ := wrapper.PerformTransaction(outcome, events);
      r := settled;
    }

    /** `insert(collection, values)`: a fresh insert query on the connection promise. */
    method Insert(collection: string, values: Value) returns (r: Result<Query, Exception>)
      ensures !IsArray(values) ==> r == Err(Error("insert expects an array of values"))
      ensures IsArray(values) ==> r.Ok? && fresh(r.value) && r.value.Valid()
      ensures r.Ok? ==> r.value.storeName == collection && r.value.connectionPromise == connectionPromise
      ensures r.Ok? ==> r.value.values == values && r.value.queryType == Some(INSERT) && r.value.transactionMode == READWRITE
    {
      var q := new Query(collection, connectionPromise);
      r := q.Insert(values);
    }

    /** `upsert(collection, values)`: a fresh upsert query on the connection promise. */
    method Upsert(collection: string, values: Value) returns (r: Result<Query, Exception>)
      ensures !IsArray(values) ==> r == Err(Error("upsert exepcts an array of values"))
      ensures IsArray(values) ==> r.Ok? && fresh(r.value) && r.value.Valid()
      ensures r.Ok? ==> r.value.storeName == collection && r.value.connectionPromise == connectionPromise
      ensures r.Ok? ==> r.value.values == values && r.value.queryType == Some(UPSERT) && r.value.transactionMode == READWRITE
    {
      var q := new Query(collection, connectionPromise);
      r := q.Upsert(values);
    }

    /** `findByKey(collection, key, required)`: a fresh find query on the connection promise. */
    method FindByKey(collection: string, key: Value, required: Value) returns (q: Query)
      ensures fresh(q) && q.Valid()
      ensures q.storeName == collection && q.connectionPromise == connectionPromise
      ensures q.findKey == (if ValidFindKey(key) then key else Str("")) && q.findRequired == required
      ensures q.queryType == Some(FIND) && q.transactionMode == READONLY
    {
      q := new Query(collection, connectionPromise);
      q := q.Find(key, required);
    }
  }

  /** Auto-detection filters a concatenation piecewise. */
  lemma {:induction false} DetectConcat(text: string, param: string, a: seq<string>, b: seq<string>)
    ensures DetectUsedStores(text, param, a + b) == DetectUsedStores(text, param, a) + DetectUsedStores(text, param, b)
    decreases |a|
  {
    if a == [] {
      assert a + b == b;
    } else {
      assert (a + b)[0] == a[0] && (a + b)[1..] == a[1..] + b;
      DetectConcat(text, param, a[1..], b);
    }
  }

  /**
   * As written, a second successful open of the same database leaves every store
   * name twice in the known stores; a transaction whose callback is auto-detected
   * to use one of them then defines its accessor twice, which throws.
   */
  lemma AsWrittenReopenBreaksAutodetect(names: seq<string>, cb: Value, x: string)
    requires cb.Func? && cb.param.Some? && x in names && Accesses(cb.source, cb.param.value, x)
    ensures var scope := ScopeFor(cb, AutodetectOptions, names + names);
      scope.Ok? && FirstRedefinition([], scope.value) < |scope.value|
  {
    var text, param := cb.source, cb.param.value;
    var d := DetectUsedStores(text, param, names);
    DetectConcat(text, param, names, names);
    var scope := d + d;
    assert ScopeFor(cb, AutodetectOptions, names + names) == Ok(scope);
    var j :| 0 <= j < |d| && d[j] == x;
    assert scope[|d| + j] == x;
    assert x in scope[..|d| + j] by {
      assert scope[..|d| + j][j] == x;
    }
  }

  /**
   * With the known stores replaced rather than extended on every open, the same
   * transaction defines each detected accessor once: an open database's store names
   * are distinct.
   */
  lemma IntendedReopenKeepsAutodetect(names: seq<string>, cb: Value)
    requires cb.Func? && cb.param.Some? && Distinct(names)
    ensures var scope := ScopeFor(cb, AutodetectOptions, names);
      scope.Ok? && FirstRedefinition([], scope.value) == |scope.value|
  {
    var scope := DetectUsedStores(cb.source, cb.param.value, names);
    SubsequenceOfDistinct(scope, names);
    DistinctStoresAllDefined(scope);
  }
}
