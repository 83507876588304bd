/**
 * The query builder and executor. A query is built by exactly one builder call
 * (find, findAll, insert, upsert, remove, count), which records the query type and
 * derives the transaction mode; executing it opens a transaction over the one store
 * and runs the handler for that type against the storage engine.
 *
 * The engine is outside the model: a handler receives the outcomes of the requests it
 * issues (in the order the engine completes them, which for requests of one
 * transaction is the order they were made) and its result is the settlement of the
 * deferred promise it returns.
 */
module QueryWrapper {
  import opened Wrappers
  import opened Js

  // The query-type table `QueryWrapper.queryTypes`: each name maps to itself.
  const FIND: string := "FIND"
  const FINDALL: string := "FINDALL"
  const INSERT: string := "INSERT"
  const UPSERT: string := "UPSERT"
  const REMOVE: string := "REMOVE"
  const COUNT: string := "COUNT"

  const QueryTypes: set<string> := {FIND, FINDALL, INSERT, UPSERT, REMOVE, COUNT}

  /**
   * `QueryWrapper.queryTypes[type]` is truthy: the table's own names, and the
   * properties the table inherits from Object.prototype, which the lookup finds too.
   */
  predicate InQueryTypeTable(t: string): (found: bool)
    ensures t in QueryTypes ==> found
    ensures found && t !in QueryTypes ==> t in InheritedNames && HandlerFor(t).None?
  {
    t in QueryTypes || t in InheritedNames
  }

  /** `QueryWrapper.transactionMode`: 'readonly' and 'readwrite'. */
  datatype TransactionMode = READONLY | READWRITE

  /** The mode `_setQueryTypeAndTransactionMode` derives from a query type. */
  function ModeFor(t: string): (m: TransactionMode)
    ensures m == READWRITE <==> t in {INSERT, UPSERT, REMOVE}
  {
    if t == INSERT || t == UPSERT || t == REMOVE then READWRITE else READONLY
  }

  /**
   * A promise of a handle that opens transactions: the connection's promise, or a
   * transaction coordinator's promise of its one shared transaction. Only its
   * identity matters here.
   */
  class ContextPromise {
    constructor() {}
  }

  /** The handler `_execute` binds for a query type. */
  datatype Handler = FindHandler | FindAllHandler | InsertHandler | UpsertHandler | RemoveHandler | CountHandler

  /** The query type a handler serves. */
  function HandlerType(h: Handler): (t: string)
    ensures t in QueryTypes
  {
    match h
    case FindHandler => FIND
    case FindAllHandler => FINDALL
    case InsertHandler => INSERT
    case UpsertHandler => UPSERT
    case RemoveHandler => REMOVE
    case CountHandler => COUNT
  }

  /** The `switch` of `_execute`: the handler bound for each of the table's own names. */
  function HandlerFor(t: string): (h: Option<Handler>)
    ensures h.Some? <==> t in QueryTypes
    ensures h.Some? ==> HandlerType(h.value) == t
  {
    match t
    case "FIND" => Some(FindHandler)
    case "FINDALL" => Some(FindAllHandler)
    case "INSERT" => Some(InsertHandler)
    case "UPSERT" => Some(UpsertHandler)
    case "REMOVE" => Some(RemoveHandler)
    case "COUNT" => Some(CountHandler)
    case _ => None
  }

  /** What `_execute` sets in motion: the transaction it asks for and the handler. */
  datatype ExecutionPlan = ExecutionPlan(context: ContextPromise, scope: seq<string>, mode: TransactionMode, handler: Handler)

  /** Why a query's promise rejects: a bare message string, or an exception object. */
  datatype Rejection = Message(text: string) | Thrown(exception: Exception)

  type QuerySettlement = Settlement<Value, Rejection>

  /** One success callback of a cursor request: a record, or the end of the range; or its error callback. */
  datatype CursorEvent = Row(value: Value) | Exhausted | CursorFailure(message: string)

  /**
   * The engine's answers to the requests a query may issue: opening the transaction
   * (resolving the context promise included), `get`, the cursor's callbacks, one
   * outcome per `add`/`put` in completion order, `delete`, the store's index names
   * and `count`. A handler reads only the answers to its own requests.
   */
  datatype Responses = Responses(
    open: Result<(), Exception>,
    get: Outcome<Value>,
    cursor: seq<CursorEvent>,
    writes: seq<Outcome<Value>>,
    delete: Outcome<()>,
    indexNames: set<string>,
    count: Outcome<nat>)

  /** The keys `find` accepts: a string, a number, a key range or an array. */
  predicate ValidFindKey(key: Value) {
    key.Str? || key.Num? || key.KeyRangeObj? || key.Arr?
  }

  /** The keys `remove` accepts: a string, a number or a key range (no array). */
  predicate ValidRemoveKey(key: Value) {
    key.Str? || key.Num? || key.KeyRangeObj?
  }

  /**
   * A key of the Indexed Database API that this model's values can express: a
   * number, a string, or an array of keys.
   */
  predicate IsKey(v: Value) {
    match v
    case Num(_) => true
    case Str(_) => true
    case Arr(elems) => forall e :: e in elems ==> IsKey(e)
    case _ => false
  }

  /** The message of the DataError `IDBObjectStore.get` throws for an argument that is neither a key nor a key range. */
  const InvalidKeyMessage: string := "The parameter is not a valid key."

  /**
   * `_find`: `store.get(key)` throws a DataError for an array holding a non-key, and
   * the query rejects with it; otherwise a failed get rejects with its message, and
   * a required find that yields `undefined` rejects.
   */
  function FindSettlement(key: Value, required: Value, get: Outcome<Value>): (s: QuerySettlement)
    ensures !IsKey(key) && !key.KeyRangeObj? ==> s == Rejected(Thrown(DataError(InvalidKeyMessage)))
    ensures IsKey(key) || key.KeyRangeObj? ==>
      && (s.Rejected? <==> get.Failure? || (get.result == Undefined && Truthy(required)))
      && (s.Resolved? ==> get.Success? && s.value == get.result)
      && (get.Success? && get.result == Undefined && Truthy(required) ==>
            s == Rejected(Thrown(Error("No item found for key \"" + ToJsString(key) + "\""))))
    ensures (IsKey(key) || key.KeyRangeObj?) && get.Success? && !(get.result == Undefined && Truthy(required)) ==>
      s == Resolved(get.result)
    ensures (IsKey(key) || key.KeyRangeObj?) && get.Failure? ==> s == Rejected(Message(get.message))
  {
    if !IsKey(key) && !key.KeyRangeObj? then Rejected(Thrown(DataError(InvalidKeyMessage)))
    else match get
    case Failure(m) => Rejected(Message(m))
    case Success(result) =>
      if Truthy(required) && result == Undefined then
        Rejected(Thrown(Error("No item found for key \"" + ToJsString(key) + "\"")))
      else
        Resolved(result)
  }

  /** The index of the first cursor event that is not a record, or the length when there is none. */
  function FirstTerminal(events: seq<CursorEvent>): (k: nat)
    ensures k <= |events|
    ensures forall j :: 0 <= j < k ==> events[j].Row?
    ensures k < |events| ==> !events[k].Row?
  {
    if events == [] || !events[0].Row? then 0 else 1 + FirstTerminal(events[1..])
  }

  /** The values of the first n cursor events, all of them records. */
  function RowValues(events: seq<CursorEvent>, n: nat): (vs: seq<Value>)
    requires n <= |events| && forall j :: 0 <= j < n ==> events[j].Row?
    ensures |vs| == n && forall j :: 0 <= j < n ==> vs[j] == events[j].value
  {
    seq(n, j requires 0 <= j < n => events[j].value)
  }

  /**
   * `_findAll`: the records the cursor visits, in visiting order, once the cursor
   * reports the end; the first error rejects; nothing settles while the cursor is
   * still running.
   */
  function FindAllSettlement(events: seq<CursorEvent>): (s: QuerySettlement)
    ensures s.Pending? <==> forall j :: 0 <= j < |events| ==> events[j].Row?
    ensures s.Resolved? ==>
      && s.value.Arr? && |s.value.elems| < |events| && events[|s.value.elems|] == Exhausted
      && forall j :: 0 <= j < |s.value.elems| ==> events[j] == Row(s.value.elems[j])
    ensures s.Rejected? <==> exists k :: 0 <= k < |events| && events[k].CursorFailure? && forall j :: 0 <= j < k ==> events[j].Row?
  {
    var k := FirstTerminal(events);
    if k == |events| then Pending
    else if events[k].CursorFailure? then Rejected(Thrown(Error(events[k].message)))
    else Resolved(Arr(RowValues(events, k)))
  }

  /** The index of the first failed outcome, or the length when all succeeded. */
  function FirstFailure<T>(outcomes: seq<Outcome<T>>): (k: nat)
    ensures k <= |outcomes|
    ensures forall j :: 0 <= j < k ==> outcomes[j].Success?
    ensures k < |outcomes| ==> outcomes[k].Failure?
  {
    if outcomes == [] || outcomes[0].Failure? then 0 else 1 + FirstFailure(outcomes[1..])
  }

  /** Extending a sequence of outcomes keeps an earlier failure, or else finds the new one. */
  lemma {:induction false} FirstFailureSnoc<T>(outcomes: seq<Outcome<T>>, o: Outcome<T>)
    ensures FirstFailure(outcomes) < |outcomes| ==> FirstFailure(outcomes + [o]) == FirstFailure(outcomes)
    ensures FirstFailure(outcomes) == |outcomes| ==>
      FirstFailure(outcomes + [o]) == if o.Failure? then |outcomes| else |outcomes| + 1
  {
    if outcomes != [] && outcomes[0].Success? {
      assert (outcomes + [o])[1..] == outcomes[1..] + [o];
      FirstFailureSnoc(outcomes[1..], o);
    }
  }

  /**
   * `_insert`/`_upsert` after the first |outcomes| requests completed: the first
   * failure rejects; the batch resolves with all items once as many successes as
   * there are items were counted; otherwise it is still pending.
   */
  function BatchSettlement(items: seq<Value>, outcomes: seq<Outcome<Value>>): (s: QuerySettlement)
    requires |outcomes| <= |items|
    ensures s.Rejected? ==> exists j :: 0 <= j < |outcomes| && outcomes[j].Failure? && s == Rejected(Thrown(Error(outcomes[j].message)))
    ensures s.Resolved? ==> s == Resolved(Arr(items)) && |outcomes| == |items| > 0
    ensures s.Pending? ==> |outcomes| < |items| || items == []
    ensures FirstFailure(outcomes) < |outcomes| ==> s == Rejected(Thrown(Error(outcomes[FirstFailure(outcomes)].message)))
    ensures FirstFailure(outcomes) == |outcomes| == |items| > 0 ==> s == Resolved(Arr(items))
  {
    var k := FirstFailure(outcomes);
    if k < |outcomes| then Rejected(Thrown(Error(outcomes[k].message)))
    else if |outcomes| == |items| && |items| > 0 then Resolved(Arr(items))
    else Pending
  }

  /** `_remove`: true on success, whether or not a record was there. */
  function RemoveSettlement(delete: Outcome<()>): (s: QuerySettlement)
    ensures s.Resolved? <==> delete.Success?
    ensures s.Resolved? ==> s.value == Bool(true)
    ensures delete.Failure? ==> s == Rejected(Message(delete.message))
  {
    match delete
    case Success(_) => Resolved(Bool(true))
    case Failure(m) => Rejected(Message(m))
  }

  /**
   * `_count`. A truthy index name that the store does not have: the handler rejects
   * its own promise, but then calls `store.index(index)`, which throws a
   * NotFoundError; that exception is what the query rejects with.
   */
  function CountSettlement(index: Value, indexNames: set<string>, count: Outcome<nat>): (s: QuerySettlement)
    ensures Truthy(index) && ToJsString(index) !in indexNames ==>
      s == Rejected(Thrown(NotFoundError("The specified index was not found")))
    ensures !(Truthy(index) && ToJsString(index) !in indexNames) && count.Failure? ==> s == Rejected(Message(count.message))
    ensures !(Truthy(index) && ToJsString(index) !in indexNames) ==>
      (s.Resolved? <==> count.Success?) && (s.Resolved? ==> s.value == Num(count.result))
  {
    if Truthy(index) && ToJsString(index) !in indexNames then
      Rejected(Thrown(NotFoundError("The specified index was not found")))
    else match count
      case Success(n) => Resolved(Num(n))
      case Failure(m) => Rejected(Message(m))
  }

  /** The batch handlers' loop: push each item on its success, resolve when the counter reaches the total. */
  method SettleBatch(items: seq<Value>, outcomes: seq<Outcome<Value>>) returns (s: QuerySettlement)
    requires |outcomes| <= |items|
    ensures s == BatchSettlement(items, outcomes)
  {
    var insertedData: seq<Value> := [];
    var totalItemCount := |items|;
    var insertedItemCount := 0;
    s := Pending;
    for i := 0 to |outcomes|
      invariant insertedItemCount <= i
      invariant FirstFailure(outcomes[..i]) == i ==> insertedData == items[..i] && insertedItemCount == i
      invariant s == BatchSettlement(items, outcomes[..i])
    {
      assert outcomes[..i + 1] == outcomes[..i] + [outcomes[i]];
      FirstFailureSnoc(outcomes[..i], outcomes[i]);
      match outcomes[i]
      case Success(_) =>
        insertedData := insertedData + [items[i]];
        insertedItemCount := insertedItemCount + 1;
        if insertedItemCount == totalItemCount {
          assert i + 1 == |items| && items[..i + 1] == items;
          s := s.Resolve(Arr(insertedData));
        }
      case Failure(m) =>
        s := s.Reject(Thrown(Error(m)));
    }
    assert outcomes[..|outcomes|] == outcomes;
  }

  class Query {
    const storeName: string
    const connectionPromise: ContextPromise
    var findKey: Value
    var findRequired: Value
    var queryType: Option<string>
    var transactionMode: TransactionMode
    var values: Value
    var deleteKey: Value
    var countIndex: Value

    /** The mode always follows the type, and a batch query always holds an array. */
    ghost predicate Valid()
      reads this
    {
      && (queryType.None? ==> transactionMode == READONLY)
      && (queryType.Some? ==> InQueryTypeTable(queryType.value) && transactionMode == ModeFor(queryType.value))
      && (queryType == Some(INSERT) || queryType == Some(UPSERT) ==> values.Arr?)
    }

    /** A fresh query: no type, a null find key, read-only. */
    constructor(store: string, owningInstanceConnectionPromise: ContextPromise)
      ensures Valid()
      ensures storeName == store && connectionPromise == owningInstanceConnectionPromise
      ensures findKey == Null && queryType.None? && transactionMode == READONLY
      ensures findRequired == Undefined && values == Undefined && deleteKey == Undefined && countIndex == Undefined
    {
      storeName := store;
      connectionPromise := owningInstanceConnectionPromise;
      findKey := Null;
      findRequired := Undefined;
      queryType := None;
      transactionMode := READONLY;
      values := Undefined;
      deleteKey := Undefined;
      countIndex := Undefined;
    }

    /**
     * `_setQueryTypeAndTransactionMode`: a name outside the table throws and changes
     * nothing; otherwise the type and its mode are recorded, with a warning when a
     * type was already set.
     */
    method SetQueryTypeAndTransactionMode(t: string) returns (r: Result<(), Exception>, warned: bool)
      modifies this`queryType, this`transactionMode
      ensures !InQueryTypeTable(t) ==> r == Err(Error("trying to set invalid query type: " + t)) && unchanged(this) && !warned
      ensures InQueryTypeTable(t) ==> r.Ok? && queryType == Some(t) && transactionMode == ModeFor(t)
      ensures InQueryTypeTable(t) ==> (warned <==> old(queryType).Some?)
    {
      if !InQueryTypeTable(t) {
        return Err(Error("trying to set invalid query type: " + t)), false;
      }
      warned := queryType.Some?;
      var mode := READONLY;
      if t == INSERT || t == UPSERT || t == REMOVE {
        mode := READWRITE;
      }
      transactionMode := mode;
      queryType := Some(t);
      r := Ok(());
    }

    /** `findAll` */
    method FindAll() returns (self: Query)
      requires Valid()
      modifies this`queryType, this`transactionMode
      ensures Valid() && self == this
      ensures queryType == Some(FINDALL) && transactionMode == READONLY
    {
      var _, _ := SetQueryTypeAndTransactionMode(FINDALL);
      self := this;
    }

    /** `find`: an invalid key is replaced by the empty string; `required` is kept as given. */
    method Find(key: Value, required: Value) returns (self: Query)
      requires Valid()
      modifies this`findKey, this`findRequired, this`queryType, this`transactionMode
      ensures Valid() && self == this
      ensures findKey == (if ValidFindKey(key) then key else Str(""))
      ensures findRequired == required
      ensures queryType == Some(FIND) && transactionMode == READONLY
    {
      var keyIsValid := key.Str? || key.Num? || key.KeyRangeObj? || key.Arr?;
      findKey := if keyIsValid then key else Str("");
      findRequired := required;
      var _, _ := SetQueryTypeAndTransactionMode(FIND);
      self := this;
    }

    /** `insert`: anything but an array throws; an array is stored as given. */
    method Insert(vals: Value) returns (r: Result<Query, Exception>)
      requires Valid()
      modifies this`values, this`queryType, this`transactionMode
      ensures Valid()
      ensures !IsArray(vals) ==> r == Err(Error("insert expects an array of values")) && unchanged(this)
      ensures IsArray(vals) ==> r == Ok(this) && values == vals && queryType == Some(INSERT) && transactionMode == READWRITE
    {
      if !IsArray(vals) {
        return Err(Error("insert expects an array of values"));
      }
      values := vals;
      var _, _ := SetQueryTypeAndTransactionMode(INSERT);
      r := Ok(this);
    }

    /** `upsert`: anything but an array throws; an array is stored as given. */
    method Upsert(vals: Value) returns (r: Result<Query, Exception>)
      requires Valid()
      modifies this`values, this`queryType, this`transactionMode
      ensures Valid()
      ensures !IsArray(vals) ==> r == Err(Error("upsert exepcts an array of values")) && unchanged(this)
      ensures IsArray(vals) ==> r == Ok(this) && values == vals && queryType == Some(UPSERT) && transactionMode == READWRITE
    {
      if !IsArray(vals) {
        return Err(Error("upsert exepcts an array of values"));
      }
      values := vals;
      var _, _ := SetQueryTypeAndTransactionMode(UPSERT);
      r := Ok(this);
    }

    /** `count`: the index name is stored as given, whatever it is. */
    method Count(index: Value) returns (self: Query)
      requires Valid()
      modifies this`countIndex, this`queryType, this`transactionMode
      ensures Valid() && self == this
      ensures countIndex == index && queryType == Some(COUNT) && transactionMode == READONLY
    {
      countIndex := index;
      var _, _ := SetQueryTypeAndTransactionMode(COUNT);
      self := this;
    }

    /** `remove`: a key that is not a string, number or key range throws. */
    method Remove(key: Value) returns (r: Result<Query, Exception>)
      requires Valid()
      modifies this`deleteKey, this`queryType, this`transactionMode
      ensures Valid()
      ensures !ValidRemoveKey(key) ==>
        r == Err(Error("The key \"" + ToJsString(key) + "\" is not valid for a remove query")) && unchanged(this)
      ensures ValidRemoveKey(key) ==> r == Ok(this) && deleteKey == key && queryType == Some(REMOVE) && transactionMode == READWRITE
    {
      var keyIsValid := key.Str? || key.Num? || key.KeyRangeObj?;
      if !keyIsValid {
        return Err(Error("The key \"" + ToJsString(key) + "\" is not valid for a remove query"));
      }
      deleteKey := key;
      var _, _ := SetQueryTypeAndTransactionMode(REMOVE);
      r := Ok(this);
    }

    /**
     * `_execute`: without a type from the table's own names it throws; otherwise it
     * asks for a transaction over this store alone, in the query's mode, and binds
     * the handler of its type.
     */
    method Execute() returns (r: Result<ExecutionPlan, Exception>)
      ensures r.Ok? <==> queryType.Some? && queryType.value in QueryTypes
      ensures r.Err? ==> r.error == Error("No valid method has been selected, this query will not produce anything")
      ensures r.Ok? ==> HandlerType(r.value.handler) == queryType.value
      ensures r.Ok? ==> r.value.scope == [storeName] && r.value.mode == transactionMode && r.value.context == connectionPromise
    {
      var method_ := if queryType.Some? then HandlerFor(queryType.value) else None;
      if method_.Some? {
        return Ok(ExecutionPlan(connectionPromise, [storeName], transactionMode, method_.value));
      }
      r := Err(Error("No valid method has been selected, this query will not produce anything"));
    }

    /** `_find` */
    method RunFind(get: Outcome<Value>) returns (s: QuerySettlement)
      ensures s == FindSettlement(findKey, findRequired, get)
    {
      var key := findKey;
      var required := findRequired;
      if !IsKey(key) && !key.KeyRangeObj? {
        // `store.get(key)` throws before any request is made.
        return Rejected(Thrown(DataError(InvalidKeyMessage)));
      }
      s := Pending;
      match get {
        case Success(result) =>
          if Truthy(required) && result == Undefined {
            s := s.Reject(Thrown(Error("No item found for key \"" + ToJsString(key) + "\"")));
            return;
          }
          s := s.Resolve(result);
        case Failure(m) =>
          s := s.Reject(Message(m));
      }
    }

    /** `_findAll`: one record pushed per cursor step, until the cursor reports its end. */
    method RunFindAll(cursor: seq<CursorEvent>) returns (s: QuerySettlement)
      ensures s == FindAllSettlement(cursor)
    {
      var results: seq<Value> := [];
      var i := 0;
      while i < |cursor|
        invariant i <= |cursor|
        invariant forall j :: 0 <= j < i ==> cursor[j].Row?
        invariant results == RowValues(cursor, i)
      {
        match cursor[i] {
          case Row(v) =>
            results := results + [v];
            i := i + 1;
          case Exhausted =>
            return Resolved(Arr(results));
          case CursorFailure(m) =>
            return Rejected(Thrown(Error(m)));
        }
      }
      s := Pending;
    }

    /** `_insert`: one `add` per item. */
    method RunInsert(outcomes: seq<Outcome<Value>>) returns (s: QuerySettlement)
      requires values.Arr? && |outcomes| <= |values.elems|
      ensures s == BatchSettlement(values.elems, outcomes)
    {
      s := SettleBatch(values.elems, outcomes);
    }

    /** `_upsert`: one `put` per item. */
    method RunUpsert(outcomes: seq<Outcome<Value>>) returns (s: QuerySettlement)
      requires values.Arr? && |outcomes| <= |values.elems|
      ensures s == BatchSettlement(values.elems, outcomes)
    {
      s := SettleBatch(values.elems, outcomes);
    }

    /** `_remove` */
    method RunRemove(delete: Outcome<()>) returns (s: QuerySettlement)
      ensures s == RemoveSettlement(delete)
    {
      s := Pending;
      match delete {
        case Failure(m) => s := s.Reject(Message(m));
        case Success(_) => s := s.Resolve(Bool(true));
      }
    }

    /** `_count` */
    method RunCount(indexNames: set<string>, count: Outcome<nat>) returns (s: QuerySettlement)
      ensures s == CountSettlement(countIndex, indexNames, count)
    {
      var index := countIndex;
      s := Pending;
      if Truthy(index) && ToJsString(index) !in indexNames {
        // `store.index(index)` throws next; the query rejects with that exception.
        return Rejected(Thrown(NotFoundError("The specified index was not found")));
      }
      match count {
        case Success(n) => s := s.Resolve(Num(n));
        case Failure(m) => s := s.Reject(Message(m));
      }
    }

    /**
     * `then`/`catch`: execute the query. No valid type throws at once; a failure to
     * open the transaction rejects; otherwise the handler of the type settles the
     * query from the engine's answers. Write outcomes beyond the batch size belong to
     * no request and are ignored.
     */
    method Then(responses: Responses) returns (r: Result<QuerySettlement, Exception>)
      requires Valid()
      ensures r.Err? <==> !(queryType.Some? && queryType.value in QueryTypes)
      ensures r.Err? ==> r.error == Error("No valid method has been selected, this query will not produce anything")
      ensures r.Ok? && responses.open.Err? ==> r.value == Rejected(Thrown(responses.open.error))
      ensures r.Ok? && responses.open.Ok? && queryType == Some(FIND) ==>
        r.value == FindSettlement(findKey, findRequired, responses.get)
      ensures r.Ok? && responses.open.Ok? && queryType == Some(FINDALL) ==>
        r.value == FindAllSettlement(responses.cursor)
      ensures r.Ok? && responses.open.Ok? && (queryType == Some(INSERT) || queryType == Some(UPSERT)) ==>
        r.value == BatchSettlement(values.elems, Take(responses.writes, |values.elems|))
      ensures r.Ok? && responses.open.Ok? && queryType == Some(REMOVE) ==>
        r.value == RemoveSettlement(responses.delete)
      ensures r.Ok? && responses.open.Ok? && queryType == Some(COUNT) ==>
        r.value == CountSettlement(countIndex, responses.indexNames, responses.count)
    {
      var plan :- Execute();
      if responses.open.Err? {
        return Ok(Rejected(Thrown(responses.open.error)));
      }
      var s: QuerySettlement;
      match plan.handler {
        case FindHandler => s := RunFind(responses.get);
        case FindAllHandler => s := RunFindAll(responses.cursor);
        case InsertHandler => s := RunInsert(Take(responses.writes, |values.elems|));
        case UpsertHandler => s := RunUpsert(Take(responses.writes, |values.elems|));
        case RemoveHandler => s := RunRemove(responses.delete);
        case CountHandler => s := RunCount(responses.indexNames, responses.count);
      }
      r := Ok(s);
    }
  }

  /** The first n elements of a sequence, or all of it when it is shorter. */
  function Take<T>(s: seq<T>, n: nat): (t: seq<T>)
    ensures |t| <= n && |t| <= |s| && t == s[..|t|]
    ensures |s| >= n ==> |t| == n
  {
    if |s| <= n then s else s[..n]
  }
}

/** Properties of the query handlers' settlement rules, across all engine answers. */
module QueryProperties {
  import opened Wrappers
  import opened Js
  import opened QueryWrapper

  /** A cursor that visits the given records in order and then reports its end. */
  function CursorOver(records: seq<Value>): (events: seq<CursorEvent>)
    ensures |events| == |records| + 1 && events[|records|] == Exhausted
    ensures forall j :: 0 <= j < |records| ==> events[j] == Row(records[j])
  {
    seq(|records|, j requires 0 <= j < |records| => Row(records[j])) + [Exhausted]
  }

  /** `_findAll` resolves with exactly the records the cursor visits, in the cursor's order. */
  lemma FindAllKeepsCursorOrder(records: seq<Value>, later: seq<CursorEvent>)
    ensures FindAllSettlement(CursorOver(records) + later) == Resolved(Arr(records))
  {
    var events := CursorOver(records) + later;
    var k := FirstTerminal(events);
    assert events[|records|] == Exhausted;
    assert k == |records|;
    assert RowValues(events, k) == records;
  }

  /** The first cursor error before the end rejects `_findAll`, whatever follows it. */
  lemma FindAllFirstErrorRejects(records: seq<Value>, message: string, later: seq<CursorEvent>)
    ensures FindAllSettlement(CursorOver(records)[..|records|] + [CursorFailure(message)] + later)
      == Rejected(Thrown(Error(message)))
  {
    var events := CursorOver(records)[..|records|] + [CursorFailure(message)] + later;
    var k := FirstTerminal(events);
    assert events[|records|] == CursorFailure(message);
    assert k == |records|;
  }

  /**
   * Once every request of a batch has answered, the batch resolves with all its items
   * exactly when the batch is not empty and every request succeeded; otherwise the
   * first failure rejects it, or it never settles when it is empty.
   */
  lemma BatchResolvesIffAllSucceed(items: seq<Value>, outcomes: seq<Outcome<Value>>)
    requires |outcomes| == |items|
    ensures BatchSettlement(items, outcomes).Resolved? <==>
      |items| > 0 && forall j :: 0 <= j < |outcomes| ==> outcomes[j].Success?
    ensures BatchSettlement(items, outcomes).Resolved? ==> BatchSettlement(items, outcomes).value == Arr(items)
    ensures BatchSettlement(items, outcomes).Rejected? <==> exists j :: 0 <= j < |outcomes| && outcomes[j].Failure?
    ensures items == [] ==> BatchSettlement(items, outcomes) == Pending
  {
    var k := FirstFailure(outcomes);
    if k < |outcomes| {
      assert outcomes[k].Failure?;
    }
  }

  /** While some requests have not answered and none failed, the batch stays pending. */
  lemma BatchPendingUntilCounterReachesTotal(items: seq<Value>, outcomes: seq<Outcome<Value>>)
    requires |outcomes| < |items|
    requires forall j :: 0 <= j < |outcomes| ==> outcomes[j].Success?
    ensures BatchSettlement(items, outcomes) == Pending
  {
  }

  lemma {:induction false} FirstFailureOfPrefix<T>(outcomes: seq<Outcome<T>>, n: nat)
    requires n <= |outcomes|
    ensures FirstFailure(outcomes[..n]) < n ==> FirstFailure(outcomes) == FirstFailure(outcomes[..n])
    ensures FirstFailure(outcomes[..n]) == n ==> FirstFailure(outcomes) >= n
  {
    if n > 0 && outcomes[0].Success? {
      assert outcomes[..n][1..] == outcomes[1..][..n - 1];
      FirstFailureOfPrefix(outcomes[1..], n - 1);
    }
  }

  /** A batch that has settled keeps its settlement whatever the remaining requests answer. */
  lemma BatchSettlementIsFinal(items: seq<Value>, outcomes: seq<Outcome<Value>>, n: nat)
    requires n <= |outcomes| <= |items|
    requires BatchSettlement(items, outcomes[..n]) != Pending
    ensures BatchSettlement(items, outcomes) == BatchSettlement(items, outcomes[..n])
  {
    FirstFailureOfPrefix(outcomes, n);
    if FirstFailure(outcomes[..n]) == n {
      assert n == |items| && outcomes[..n] == outcomes;
    } else {
      assert outcomes[..n][FirstFailure(outcomes[..n])] == outcomes[FirstFailure(outcomes)];
    }
  }
}
