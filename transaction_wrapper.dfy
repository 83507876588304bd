/**
 * Store detection for the transaction coordinator: which of the candidate stores a
 * transaction callback reads, judged from the callback's source text.
 *
 * The callback's first parameter name is taken from its text by the pattern
 * `function[\s]*\([\s]?(\w+).*?\)`; the model receives that name as part of the
 * function value. A store is used when the text contains one of three accesses on
 * that parameter: `p.store` not followed by a word character, `p['store']` or
 * `p["store"]`.
 */
module StoreDetection {
  import opened Wrappers
  import opened Js

  /** A character of the class `\w`: an ASCII letter, a digit or the underscore. */
  predicate IsWordChar(c: char) {
    ('a' <= c <= 'z') || ('A' <= c <= 'Z') || ('0' <= c <= '9') || c == '_'
  }

  /** The text holds `pattern` at position i. */
  predicate StartsAt(text: string, i: nat, pattern: string) {
    i + |pattern| <= |text| && text[i..i + |pattern|] == pattern
  }

  /** `p.store` at position i, not followed by a word character (`(?!\w)`). */
  predicate DotAccessAt(text: string, i: nat, param: string, store: string) {
    var access := param + "." + store;
    StartsAt(text, i, access) && (i + |access| == |text| || !IsWordChar(text[i + |access|]))
  }

  /** One of the three accesses to the store through the parameter, at position i. */
  predicate AccessAt(text: string, i: nat, param: string, store: string) {
    || DotAccessAt(text, i, param, store)
    || StartsAt(text, i, param + "['" + store + "']")
    || StartsAt(text, i, param + "[\"" + store + "\"]")
  }

  /** `storeRegExp.test(cbStr)`: the text accesses the store somewhere. */
  predicate Accesses(text: string, param: string, store: string) {
    exists i: nat :: i <= |text| && AccessAt(text, i, param, store)
  }

  /** Searches the text for an access from position i on, the way the regular expression scans it. */
  function AccessFrom(text: string, i: nat, param: string, store: string): (found: bool)
    requires i <= |text|
    ensures found <==> exists j: nat :: i <= j <= |text| && AccessAt(text, j, param, store)
    decreases |text| - i
  {
    if AccessAt(text, i, param, store) then true
    else if i == |text| then false
    else AccessFrom(text, i + 1, param, store)
  }

  /** `xs` is `ys` with some elements dropped, the rest kept in order. */
  predicate IsSubsequence<T(==)>(xs: seq<T>, ys: seq<T>)
    decreases |ys|
  {
    if xs == [] then true
    else if ys == [] then false
    else (xs[0] == ys[0] && IsSubsequence(xs[1..], ys[1..])) || IsSubsequence(xs, ys[1..])
  }

  /** Every list is a subsequence of itself. */
  lemma {:induction false} SubsequenceOfItself(ys: seq<string>)
    ensures IsSubsequence(ys, ys)
    decreases |ys|
  {
    if ys != [] {
      SubsequenceOfItself(ys[1..]);
    }
  }

  /** `stores.filter(...)`: the stores the callback text accesses, in their given order. */
  function DetectUsedStores(text: string, param: string, stores: seq<string>): (used: seq<string>)
    ensures IsSubsequence(used, stores)
    ensures forall s :: s in used <==> s in stores && Accesses(text, param, s)
  {
    if stores == [] then []
    else
      var rest := DetectUsedStores(text, param, stores[1..]);
      if AccessFrom(text, 0, param, stores[0]) then
        assert ([stores[0]] + rest)[1..] == rest;
        [stores[0]] + rest
      else rest
  }

  /**
   * `_autodetectStores(callback, stores)`: a callback text the parameter pattern does
   * not match makes `match(...)[1]` throw a TypeError.
   */
  function AutodetectStores(callback: Value, stores: seq<string>): (r: Result<seq<string>, Exception>)
    requires callback.Func?
    ensures callback.param.None? ==> r == Err(TypeError("Cannot read property '1' of null"))
    ensures callback.param.Some? ==> r.Ok? && IsSubsequence(r.value, stores)
    ensures callback.param.Some? ==>
      forall s :: s in r.value <==> s in stores && Accesses(callback.source, callback.param.value, s)
  {
    match callback.param
    case None => Err(TypeError("Cannot read property '1' of null"))
    case Some(p) => Ok(DetectUsedStores(callback.source, p, stores))
  }

  /** A store named like a proper prefix of an accessed store is not matched by dot access. */
  lemma PrefixNameIsNotDotAccess(text: string, i: nat, param: string, store: string, suffix: string)
    requires StartsAt(text, i, param + "." + store + suffix)
    requires suffix != [] && IsWordChar(suffix[0])
    ensures !DotAccessAt(text, i, param, store)
  {
    var access := param + "." + store;
    assert text[i..i + |access + suffix|][..|access|] == text[i..i + |access|];
    assert text[i + |access|] == (access + suffix)[|access|];
  }

  /** Dot access to `ab` is not access to `a`. */
  lemma DotAccessExample()
    ensures DetectUsedStores("t.ab;", "t", ["a", "ab"]) == ["ab"]
  {
    var text := "t.ab;";
    assert AccessAt(text, 0, "t", "ab");
    forall j: nat | j <= |text|
      ensures !AccessAt(text, j, "t", "a")
    {
      if j == 0 {
        assert text[3] == 'b';
      } else {
        assert text[j..] != [] ==> text[j] != 't';
      }
    }
  }

  /** Every access contains the store name itself, so a name absent from the text is never detected. */
  lemma AccessContainsStoreName(text: string, i: nat, param: string, store: string)
    requires AccessAt(text, i, param, store)
    ensures StartsAt(text, i + |param| + 1, store) || StartsAt(text, i + |param| + 2, store)
  {
    if DotAccessAt(text, i, param, store) {
      var access := param + "." + store;
      assert text[i + |param| + 1..i + |param| + 1 + |store|] == text[i..i + |access|][|param| + 1..];
    } else if StartsAt(text, i, param + "['" + store + "']") {
      var access := param + "['" + store + "']";
      assert text[i + |param| + 2..i + |param| + 2 + |store|] == text[i..i + |access|][|param| + 2..|param| + 2 + |store|];
    } else {
      var access := param + "[\"" + store + "\"]";
      assert text[i + |param| + 2..i + |param| + 2 + |store|] == text[i..i + |access|][|param| + 2..|param| + 2 + |store|];
    }
  }

  /** A store whose name does not occur in the callback text is never detected. */
  lemma AbsentNameNeverDetected(text: string, param: string, store: string)
    requires store != [] && store[0] !in text
    ensures !Accesses(text, param, store)
  {
    forall j: nat | j <= |text|
      ensures !AccessAt(text, j, param, store)
    {
      if AccessAt(text, j, param, store) {
        AccessContainsStoreName(text, j, param, store);
        assert false;
      }
    }
  }

  /** Bracket access with either quote is detected; a store the text never names is not. */
  lemma BracketAccessExample()
    ensures DetectUsedStores("t['a'];t[\"b\"]", "t", ["a", "b", "c"]) == ["a", "b"]
  {
    var text := "t['a'];t[\"b\"]";
    assert AccessAt(text, 0, "t", "a");
    assert AccessAt(text, 7, "t", "b");
    assert 'c' !in text;
    AbsentNameNeverDetected(text, "t", "c");
  }
}

/**
 * The transaction coordinator: it selects the stores of one transaction, exposes one
 * query accessor per store, and settles the transaction's promise from the callback's
 * result and the transaction's own completion events.
 */
module TransactionCoordinator {
  import opened Wrappers
  import opened Js
  import opened IdbEngine
  import opened QueryWrapper
  import opened StoreDetection

  /** `!!(options || {}).autoDetectUsedStores` */
  function AutoDetectOption(options: Value): (on: bool)
    ensures on <==> options.Obj? && "autoDetectUsedStores" in options.props && Truthy(options.props["autoDetectUsedStores"])
  {
    if !Truthy(options) then false
    else match options
      case Obj(props) => "autoDetectUsedStores" in props && Truthy(props["autoDetectUsedStores"])
      case _ => false
  }

  /**
   * The position of the first store whose accessor is already defined, counting
   * those defined earlier in the same pass; |stores| when there is none.
   */
  function FirstRedefinition(defined: seq<string>, stores: seq<string>): (k: nat)
    ensures k <= |stores|
    ensures forall j :: 0 <= j < k ==> stores[j] !in defined && stores[j] !in stores[..j]
    ensures k < |stores| ==> stores[k] in defined || stores[k] in stores[..k]
    decreases |stores|
  {
    if stores == [] then 0
    else if stores[0] in defined then 0
    else
      var k := FirstRedefinition(defined + [stores[0]], stores[1..]);
      assert forall j :: 0 <= j < k ==> stores[1..][j] == stores[j + 1] && stores[..j + 1] == [stores[0]] + stores[1..][..j];
      assert k < |stores| - 1 ==> stores[..k + 1] == [stores[0]] + stores[1..][..k];
      1 + k
  }

  /** With no accessor defined yet, a list of distinct store names defines them all. */
  lemma DistinctStoresAllDefined(stores: seq<string>)
    requires Distinct(stores)
    ensures FirstRedefinition([], stores) == |stores|
  {
  }

  lemma {:induction false} SubsequenceMembers(xs: seq<string>, ys: seq<string>)
    requires IsSubsequence(xs, ys)
    ensures forall x :: x in xs ==> x in ys
    decreases |ys|
  {
    if xs != [] {
      if xs[0] == ys[0] && IsSubsequence(xs[1..], ys[1..]) {
        SubsequenceMembers(xs[1..], ys[1..]);
        assert forall x :: x in xs ==> x == xs[0] || x in xs[1..];
      } else {
        SubsequenceMembers(xs, ys[1..]);
      }
    }
  }

  /** Dropping names from a list of distinct names leaves them distinct. */
  lemma {:induction false} SubsequenceOfDistinct(xs: seq<string>, ys: seq<string>)
    requires IsSubsequence(xs, ys) && Distinct(ys)
    ensures Distinct(xs)
    decreases |ys|
  {
    if xs != [] {
      if xs[0] == ys[0] && IsSubsequence(xs[1..], ys[1..]) {
        SubsequenceOfDistinct(xs[1..], ys[1..]);
        SubsequenceMembers(xs[1..], ys[1..]);
        forall i, j | 0 <= i < j < |xs|
          ensures xs[i] != xs[j]
        {
          if i == 0 {
            assert xs[j] == xs[1..][j - 1];
            assert xs[j] in ys[1..];
          } else {
            assert xs[i] == xs[1..][i - 1] && xs[j] == xs[1..][j - 1];
          }
        }
      } else {
        SubsequenceOfDistinct(xs, ys[1..]);
      }
    }
  }

  /** With distinct store names every name of the scope gets its accessor. */
  lemma DistinctScopeSetsUp(cb: Value, options: Value, stores: seq<string>)
    requires IsFunction(cb) && !(AutoDetectOption(options) && cb.param.None?) && Distinct(stores)
    ensures ScopeFor(cb, options, stores).Ok?
    ensures FirstRedefinition([], ScopeFor(cb, options, stores).value) == |ScopeFor(cb, options, stores).value|
  {
    var scope := ScopeFor(cb, options, stores).value;
    SubsequenceOfDistinct(scope, stores);
    DistinctStoresAllDefined(scope);
  }

  /**
   * The store list the constructor hands to `_setupStores`: the given one, or with
   * auto-detection the detected one.
   */
  function ScopeFor(cb: Value, options: Value, stores: seq<string>): (r: Result<seq<string>, Exception>)
    requires IsFunction(cb)
    ensures !AutoDetectOption(options) ==> r == Ok(stores)
    ensures r.Ok? ==> IsSubsequence(r.value, stores)
    ensures r.Err? <==> AutoDetectOption(options) && cb.param.None?
    ensures AutoDetectOption(options) && cb.param.Some? ==> r == Ok(DetectUsedStores(cb.source, cb.param.value, stores))
  {
    if AutoDetectOption(options) then AutodetectStores(cb, stores)
    else SubsequenceOfItself(stores); Ok(stores)
  }

  /**
   * `this._database.transaction(scope, 'readwrite')` on the database handle the
   * wrapper was given: without a handle (the connection is not open yet) reading
   * `transaction` off undefined throws a TypeError.
   */
  function OpenOn(db: Option<Database>, scope: seq<string>): (r: Result<(), Exception>)
    ensures db.None? ==> r == Err(TypeError("Cannot read property 'transaction' of undefined"))
    ensures db.Some? ==> (r.Ok? <==> scope != [] && forall name :: name in scope ==> name in db.value.objectStoreNames)
  {
    match db
    case None => Err(TypeError("Cannot read property 'transaction' of undefined"))
    case Some(d) => OpenTransaction(d, scope)
  }

  /** The first callback step of the promise chain: it fulfils, rejects, or throws before returning. */
  datatype CallbackOutcome = Fulfills(result: Value) | RejectsWith(error: Value) | Throws(exception: Exception)

  /** A completion event of the transaction. */
  datatype TxEvent = Complete | Abort | TxError(event: Value)

  /** The settlement of `txPromise`: the first completion event decides. */
  function TxSettlement(events: seq<TxEvent>, callbackResult: Value, error: Value): (s: Settlement<Value, Value>)
    ensures events == [] <==> s.Pending?
    ensures s.Resolved? <==> events != [] && events[0].Complete?
    ensures events != [] && events[0].Complete? ==> s == Resolved(callbackResult)
    ensures events != [] && events[0].Abort? ==> s == Rejected(error)
    ensures events != [] && events[0].TxError? ==> s == Rejected(events[0].event)
  {
    if events == [] then Pending
    else match events[0]
      case Complete => Resolved(callbackResult)
      case Abort => Rejected(error)
      case TxError(e) => Rejected(e)
  }

  /** Once the promise is settled, later completion events leave it as it is. */
  lemma TxSettlementIsFinal(events: seq<TxEvent>, later: seq<TxEvent>, callbackResult: Value, error: Value)
    requires TxSettlement(events, callbackResult, error) != Pending
    ensures TxSettlement(events + later, callbackResult, error) == TxSettlement(events, callbackResult, error)
  {
    assert (events + later)[0] == events[0];
  }

  class TransactionWrapper {
    var availableStores: seq<string>
    const database: Option<Database>
    const callback: Value
    const transactionPromise: ContextPromise
    var txResolved: bool
    var callbackResult: Value
    const autoDetectUsedStores: bool
    /** The store accessors `_setupStores` defined on the instance, in definition order. */
    var accessors: seq<string>

    /** The assignments the constructor makes before its checks. */
    constructor(stores: seq<string>, cb: Value, db: Option<Database>, options: Value)
      ensures availableStores == stores && database == db && callback == cb
      ensures !txResolved && callbackResult == Null && accessors == []
      ensures autoDetectUsedStores == AutoDetectOption(options)
    {
      availableStores := stores;
      database := db;
      callback := cb;
      transactionPromise := new ContextPromise();
      txResolved := false;
      callbackResult := Null;
      autoDetectUsedStores := AutoDetectOption(options);
      accessors := [];
    }

    /**
     * `new TransactionWrapper(availableStores, callback, db, options)`: a callback that is
     * not a function throws; with auto-detection the store list is replaced by the
     * detected one; then one accessor is defined per store.
     */
    static method Create(stores: seq<string>, cb: Value, db: Option<Database>, options: Value)
      returns (r: Result<TransactionWrapper, Exception>)
      ensures !IsFunction(cb) ==> r == Err(Error("You need to pass in a callback for the transaction"))
      ensures IsFunction(cb) && ScopeFor(cb, options, stores).Err? ==> r == Err(ScopeFor(cb, options, stores).error)
      ensures IsFunction(cb) && ScopeFor(cb, options, stores).Ok? ==>
        var scope := ScopeFor(cb, options, stores).value;
        var k := FirstRedefinition([], scope);
        && (r.Ok? <==> k == |scope|)
        && (r.Err? ==> r.error == TypeError("Cannot redefine property: " + scope[k]))
        && (r.Ok? ==> r.value.availableStores == scope && r.value.accessors == scope)
      ensures r.Ok? ==> IsFunction(cb) && fresh(r.value)
      ensures r.Ok? ==> r.value.autoDetectUsedStores == AutoDetectOption(options)
      ensures r.Ok? ==> r.value.database == db && r.value.callback == cb
      ensures r.Ok? ==> !r.value.txResolved && r.value.callbackResult == Null
      ensures IsFunction(cb) && !(AutoDetectOption(options) && cb.param.None?) && Distinct(stores) ==> r.Ok?
    {
      var w := new TransactionWrapper(stores, cb, db, options);
      if !IsFunction(cb) {
        return Err(Error("You need to pass in a callback for the transaction"));
      }
      if w.autoDetectUsedStores {
        var detected := AutodetectStores(cb, stores);
        if detected.Err? {
          return Err(detected.error);
        }
        w.availableStores := detected.value;
      }
      assert w.availableStores == ScopeFor(cb, options, stores).value;
      if !(AutoDetectOption(options) && cb.param.None?) && Distinct(stores) {
        DistinctScopeSetsUp(cb, options, stores);
      }
      var setup := w.SetupStores();
      if setup.Err? {
        return Err(setup.error);
      }
      r := Ok(w);
    }

    /**
     * `_setupStores`: one accessor per store, in order. The accessors are defined as
     * non-configurable properties, so a name defined twice throws a TypeError and the
     * names after it get no accessor.
     */
    method SetupStores() returns (r: Result<(), Exception>)
      modifies this`accessors
      ensures var k := FirstRedefinition(old(accessors), availableStores);
        && (r.Ok? <==> k == |availableStores|)
        && (r.Ok? ==> accessors == old(accessors) + availableStores)
        && (r.Err? ==> r.error == TypeError("Cannot redefine property: " + availableStores[k])
                       && accessors == old(accessors) + availableStores[..k])
    {
      var stores := availableStores;
      for i := 0 to |stores|
        invariant FirstRedefinition(old(accessors), stores) >= i
        invariant accessors == old(accessors) + stores[..i]
      {
        if stores[i] in accessors {
          assert accessors == old(accessors) + stores[..i];
          return Err(TypeError("Cannot redefine property: " + stores[i]));
        }
        accessors := accessors + [stores[i]];
        TakeOneMore(stores, i);
      }
      assert stores[..|stores|] == stores;
      r := Ok(());
    }

    /** Reading the accessor of a store: a fresh query on the transaction promise; undefined for any other name. */
    method Store(name: string) returns (q: Option<Query>)
      ensures name in accessors <==> q.Some?
      ensures q.Some? ==> fresh(q.value) && q.value.Valid()
      ensures q.Some? ==> q.value.storeName == name && q.value.connectionPromise == transactionPromise
      ensures q.Some? ==> q.value.queryType.None? && q.value.findKey == Null && q.value.transactionMode == READONLY
    {
      if name !in accessors {
        return None;
      }
      var query := new Query(name, transactionPromise);
      q := Some(query);
    }

    /**
     * `performTransaction`: opens one read-write transaction over the available stores,
     * hands it to the queries waiting on the transaction promise, runs the callback,
     * and settles with the first completion event: complete resolves with the
     * callback's result, abort rejects with the callback's error (undefined when the
     * callback did not reject), an error event rejects with the event. A rejecting
     * callback aborts the transaction once.
     */
    method PerformTransaction(cb: CallbackOutcome, events: seq<TxEvent>)
      returns (r: Result<Settlement<Value, Value>, Exception>, mode: TransactionMode, abortCalls: nat)
      modifies this`txResolved, this`callbackResult
      ensures mode == READWRITE
      ensures OpenOn(database, availableStores).Err? ==>
        r == Err(OpenOn(database, availableStores).error) && unchanged(this) && abortCalls == 0
      ensures OpenOn(database, availableStores).Ok? ==> txResolved
      ensures OpenOn(database, availableStores).Ok? && cb.Throws? ==> r == Err(cb.exception)
      ensures OpenOn(database, availableStores).Ok? && !cb.Throws? ==> r.Ok?
      ensures callbackResult == (if OpenOn(database, availableStores).Ok? && cb.Fulfills? then cb.result else old(callbackResult))
      ensures abortCalls == (if OpenOn(database, availableStores).Ok? && cb.RejectsWith? then 1 else 0)
      ensures r.Ok? ==> r.value == TxSettlement(events, callbackResult, if cb.RejectsWith? then cb.error else Undefined)
    {
      mode := READWRITE;
      abortCalls := 0;
      var openResult := OpenOn(database, availableStores);
      if openResult.Err? {
        return Err(openResult.error), mode, abortCalls;
      }
      txResolved := true;
      var error := Undefined;
      match cb {
        case Throws(ex) =>
          return Err(ex), mode, abortCalls;
        case Fulfills(result) =>
          callbackResult := result;
        case RejectsWith(e) =>
          error := e;
          abortCalls := abortCalls + 1;
      }
      var s: Settlement<Value, Value> := Pending;
      for i := 0 to |events|
        invariant s == TxSettlement(events[..i], callbackResult, error)
      {
        match events[i] {
          case Complete => s := s.Resolve(callbackResult);
          case Abort => s := s.Reject(error);
          case TxError(e) => s := s.Reject(e);
        }
      }
      assert events[..|events|] == events;
      r := Ok(s);
    }
  }
}
