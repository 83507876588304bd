/**
 * The schema registry and the migration runner. Versions are registered with a
 * callback that fills a fresh `SchemaVersion`; on an upgrade the runner replays the
 * registered versions above the old version up to the new one, each version's
 * creates first, then its alters, then its drops.
 *
 * The runner names a statement's store by reading the entry's `storeName` property,
 * but entries are recorded with a `tableName` property, so every statement of the
 * runner as written names the store "undefined" (the string conversion of the
 * missing property). `StoreNameField` models that; `TableNameField` is the evidently
 * intended reading.
 */
module Schemas {
  import opened Wrappers
  import opened Js
  import opened SchemaVersions

  /** Which property of an entry the runner reads as the store name. */
  datatype NameField = StoreNameField | TableNameField

  /** The store name the runner uses for an entry. */
  function StatementName(field: NameField, stmt: Statement): (name: string)
    ensures field == StoreNameField ==> name == "undefined"
  {
    match field
    case StoreNameField => ToJsString(Undefined)
    case TableNameField => ToJsString(stmt.tableName)
  }

  /** The three statement lists of one registered version. */
  datatype DdlLists = DdlLists(create: seq<Statement>, alter: seq<Statement>, drop: seq<Statement>)
  {
    /** The lists with one entry appended to the command's list. */
    function Append(cmd: Command, entry: Statement): (a: DdlLists)
      ensures forall c: Command :: a.List(c) == List(c) + if c == cmd then [entry] else []
    {
      match cmd
      case Create => this.(create := create + [entry])
      case Alter => this.(alter := alter + [entry])
      case Drop => this.(drop := drop + [entry])
    }

    function List(cmd: Command): seq<Statement> {
      match cmd
      case Create => create
      case Alter => alter
      case Drop => drop
    }
  }

  /** What the runner does, as seen from outside: stores created or reused, callbacks invoked. */
  datatype DdlEvent =
    | Created(version: int, name: string, config: Value)
    | Reused(version: int, name: string)
    | CallbackRan(version: int, cmd: Command, index: nat, target: Option<string>)

  /**
   * The runner's state: the database's object-store names, the keys of its `stores`
   * dictionary, and the events so far.
   */
  datatype RunState = RunState(storeNames: seq<string>, stores: set<string>, trace: seq<DdlEvent>)

  function ConstraintError(): Exception {
    Exception("ConstraintError", "An object store with the specified name already exists.")
  }

  /** The callback of an entry runs, with the given wrapper target, only when it is a function. */
  function MaybeCallback(stmt: Statement, version: int, cmd: Command, index: nat, target: Option<string>): (events: seq<DdlEvent>)
    ensures |events| <= 1
    ensures events != [] <==> IsFunction(stmt.cb)
    ensures forall e :: e in events ==> e == CallbackRan(version, cmd, index, target)
  {
    if IsFunction(stmt.cb) then [CallbackRan(version, cmd, index, target)] else []
  }

  /**
   * One entry of one list. A create whose name was in the store-name list read before
   * the loop only records the existing store; any other create makes the store with
   * the entry's config (`{}` when it is falsy), which throws ConstraintError when a
   * store of that name was already made, then runs the callback. An alter runs its
   * callback on the store the dictionary holds under the name, if any; a drop runs
   * its callback on the database.
   */
  function Step(field: NameField, snapshot: seq<string>, st: RunState, version: int, cmd: Command, index: nat, stmt: Statement): (r: Result<RunState, Exception>)
    ensures var name := StatementName(field, stmt);
      r.Err? <==> cmd == Create && name !in snapshot && name in st.storeNames
    ensures r.Err? ==> r.error == ConstraintError()
  {
    var name := StatementName(field, stmt);
    match cmd
    case Create =>
      if name in snapshot then
        Ok(RunState(st.storeNames, st.stores + {name}, st.trace + [Reused(version, name)]))
      else if name in st.storeNames then
        Err(ConstraintError())
      else
        var config := if Truthy(stmt.config) then stmt.config else EmptyObject;
        Ok(RunState(st.storeNames + [name], st.stores + {name},
          st.trace + [Created(version, name, config)] + MaybeCallback(stmt, version, Create, index, Some(name))))
    case Alter =>
      Ok(st.(trace := st.trace + MaybeCallback(stmt, version, Alter, index, if name in st.stores then Some(name) else None)))
    case Drop =>
      Ok(st.(trace := st.trace + MaybeCallback(stmt, version, Drop, index, None)))
  }

  /** One `forEach` pass over a list: the first exception ends it. */
  function RunList(field: NameField, snapshot: seq<string>, start: Result<RunState, Exception>, version: int, cmd: Command, stmts: seq<Statement>): (r: Result<RunState, Exception>)
    ensures start.Err? ==> r == start
    ensures r.Ok? ==> start.Ok?
    ensures start.Ok? && r.Err? ==> r.error == ConstraintError()
    decreases |stmts|
  {
    if stmts == [] then start
    else
      var prev := RunList(field, snapshot, start, version, cmd, stmts[..|stmts| - 1]);
      if prev.Err? then prev
      else Step(field, snapshot, prev.value, version, cmd, |stmts| - 1, stmts[|stmts| - 1])
  }

  /** One version: skipped when nothing is registered for it, else creates, alters, drops. */
  function RunVersion(field: NameField, snapshot: seq<string>, lists: map<int, DdlLists>, st: Result<RunState, Exception>, version: int): (r: Result<RunState, Exception>)
    ensures st.Err? || version !in lists ==> r == st
    ensures r.Ok? ==> st.Ok?
  {
    if st.Err? || version !in lists then st
    else
      var l := lists[version];
      var created := RunList(field, snapshot, st, version, Create, l.create);
      var altered := RunList(field, snapshot, created, version, Alter, l.alter);
      RunList(field, snapshot, altered, version, Drop, l.drop)
  }

  /** The versions from `first` up to but excluding `end`, in ascending order. */
  function RunVersions(field: NameField, snapshot: seq<string>, lists: map<int, DdlLists>, first: int, end: int): (r: Result<RunState, Exception>)
    ensures end <= first ==> r == Ok(RunState(snapshot, {}, []))
    decreases end - first
  {
    if end <= first then Ok(RunState(snapshot, {}, []))
    else RunVersion(field, snapshot, lists, RunVersions(field, snapshot, lists, first, end - 1), end - 1)
  }

  /**
   * `runDDLStatements(db, transaction, oldVersion, newVersion)`: versions
   * oldVersion+1 .. newVersion; none when the old version is not below the new one.
   */
  function RunDDL(field: NameField, lists: map<int, DdlLists>, snapshot: seq<string>, oldVersion: int, newVersion: int): (r: Result<RunState, Exception>)
    ensures oldVersion >= newVersion ==> r == Ok(RunState(snapshot, {}, []))
  {
    RunVersions(field, snapshot, lists, oldVersion + 1, newVersion + 1)
  }

  /** One call the registration callback makes on the version wrapper: a method name and its arguments. */
  datatype DdlCall = DdlCall(methodName: string, tableName: Value, callback: Value, storeConfig: Value)

  /** The position of the first call to a method the version wrapper does not have. */
  function FirstUnknownCall(calls: seq<DdlCall>): (k: nat)
    ensures k <= |calls|
    ensures forall j :: 0 <= j < k ==> !EffectOf(calls[j].methodName).NotAFunction?
    ensures k < |calls| ==> EffectOf(calls[k].methodName).NotAFunction?
  {
    if calls == [] || EffectOf(calls[0].methodName).NotAFunction? then 0 else 1 + FirstUnknownCall(calls[1..])
  }

  /**
   * The lists a version wrapper holds after the given calls: an appender call adds
   * its entry to its command's list, `constructor` empties the lists, and the other
   * inherited methods change nothing.
   */
  function ListsAfter(calls: seq<DdlCall>): (l: DdlLists)
    ensures forall cmd: Command :: |l.List(cmd)| <= |calls|
    decreases |calls|
  {
    if calls == [] then DdlLists([], [], [])
    else Recorded(ListsAfter(calls[..|calls| - 1]), calls[|calls| - 1])
  }

  /**
   * What one call on the version wrapper leaves in its lists: an appender adds its
   * entry to its own list, `constructor` empties all three, anything else keeps them.
   */
  function Recorded(l: DdlLists, c: DdlCall): (r: DdlLists)
    ensures EffectOf(c.methodName).Reinitializes? ==> r == DdlLists([], [], [])
    ensures !EffectOf(c.methodName).Reinitializes? ==> forall cmd: Command :: r.List(cmd) == l.List(cmd) + AddedBy(c, cmd)
  {
    match EffectOf(c.methodName)
    case Appends(cmd) => l.Append(cmd, EntryOf(c))
    case Reinitializes => DdlLists([], [], [])
    case NoEffect => l
    case NotAFunction => l
  }

  /** The entry a call adds to the list of `cmd`: its own, when it calls that list's appender. */
  function AddedBy(c: DdlCall, cmd: Command): seq<Statement> {
    if EffectOf(c.methodName) == Appends(cmd) then [EntryOf(c)] else []
  }

  /** The list entry an appender call records: `{tableName, config, cb}`. */
  function EntryOf(c: DdlCall): Statement {
    Statement(c.tableName, c.storeConfig, c.callback)
  }

  /** Every entry of a filled wrapper was recorded by a call to its own list's appender. */
  lemma {:induction false} ListsAfterEntriesComeFromCalls(calls: seq<DdlCall>, cmd: Command, i: nat)
    requires i < |ListsAfter(calls).List(cmd)|
    ensures exists j :: 0 <= j < |calls| && EffectOf(calls[j].methodName) == Appends(cmd) && ListsAfter(calls).List(cmd)[i] == EntryOf(calls[j])
    decreases |calls|
  {
    var n := |calls| - 1;
    var init := calls[..n];
    var l := ListsAfter(init);
    var c := calls[n];
    assert ListsAfter(calls) == Recorded(l, c);
    if EffectOf(c.methodName).Reinitializes? {
      assert false;
    } else if i < |l.List(cmd)| {
      assert ListsAfter(calls).List(cmd)[i] == l.List(cmd)[i];
      ListsAfterEntriesComeFromCalls(init, cmd, i);
      var j :| 0 <= j < |init| && EffectOf(init[j].methodName) == Appends(cmd) && l.List(cmd)[i] == EntryOf(init[j]);
      assert init[j] == calls[j];
    } else {
      assert AddedBy(c, cmd) == [EntryOf(c)];
      assert ListsAfter(calls).List(cmd)[i] == EntryOf(calls[n]);
    }
  }

  /** One more call that does not reinitialize adds its own entry, if any, to the end of a list. */
  lemma ListsAfterSnoc(calls: seq<DdlCall>, c: DdlCall, cmd: Command)
    requires c.methodName != "constructor"
    ensures ListsAfter(calls + [c]).List(cmd) == ListsAfter(calls).List(cmd) + AddedBy(c, cmd)
  {
    assert (calls + [c])[..|calls|] == calls;
  }

  /**
   * Calls after the last `constructor` call add to what was there: when the later
   * calls do not reinitialize, each list is the earlier list followed by the
   * entries the later calls record, in call order.
   */
  lemma {:induction false} ListsAfterConcat(a: seq<DdlCall>, b: seq<DdlCall>, cmd: Command)
    requires forall c :: c in b ==> c.methodName != "constructor"
    ensures ListsAfter(a + b).List(cmd) == ListsAfter(a).List(cmd) + ListsAfter(b).List(cmd)
    decreases |b|
  {
    if b == [] {
      assert a + b == a;
    } else {
      var n := |b| - 1;
      ListsAfterConcat(a, b[..n], cmd);
      SplitLast(a, b);
      ConcatSnoc(ListsAfter(a).List(cmd), a + b[..n], b[..n], b[n], cmd);
    }
  }

  /** A call that does not reinitialize keeps a list made of a prefix and what later calls record. */
  lemma ConcatSnoc(front: seq<Statement>, whole: seq<DdlCall>, later: seq<DdlCall>, c: DdlCall, cmd: Command)
    requires ListsAfter(whole).List(cmd) == front + ListsAfter(later).List(cmd)
    requires c.methodName != "constructor"
    ensures ListsAfter(whole + [c]).List(cmd) == front + ListsAfter(later + [c]).List(cmd)
  {
    ListsAfterSnoc(whole, c, cmd);
    ListsAfterSnoc(later, c, cmd);
    ConcatAssociates(front, ListsAfter(later).List(cmd), AddedBy(c, cmd));
  }

  class Schema {
    var versions: map<int, SchemaVersion>

    /** The statement lists of every registered version. */
    function Lists(): map<int, DdlLists>
      reads this, versions.Values
    {
      map v | v in versions :: DdlLists(versions[v].create, versions[v].alter, versions[v].drop)
    }

    /** A new schema has no registered version. */
    constructor()
      ensures versions == map[]
    {
      versions := map[];
    }

    /**
     * The callback of `registerVersion` run on a fresh version wrapper: each call
     * appends to its command's list; a call to a method the wrapper does not have
     * throws a TypeError.
     */
    static method FillVersion(calls: seq<DdlCall>) returns (r: Result<SchemaVersion, Exception>)
      ensures var k := FirstUnknownCall(calls);
        k < |calls| ==> r == Err(TypeError("this." + calls[k].methodName + " is not a function"))
      ensures r.Ok? <==> FirstUnknownCall(calls) == |calls|
      ensures r.Ok? ==> fresh(r.value) && DdlLists(r.value.create, r.value.alter, r.value.drop) == ListsAfter(calls)
    {
      var versionWrapper := new SchemaVersion();
      for i := 0 to |calls|
        invariant FirstUnknownCall(calls) >= i
        invariant fresh(versionWrapper)
        invariant DdlLists(versionWrapper.create, versionWrapper.alter, versionWrapper.drop) == ListsAfter(calls[..i])
      {
        var c := calls[i];
        assert calls[..i + 1][..i] == calls[..i];
        match EffectOf(c.methodName) {
          case NotAFunction =>
            return Err(TypeError("this." + c.methodName + " is not a function"));
          case Appends(cmd) =>
            var _ := versionWrapper.Append(cmd, c.tableName, c.callback, c.storeConfig);
          case Reinitializes =>
            versionWrapper.Reinitialize();
          case NoEffect =>
        }
        assert FirstUnknownCall(calls) != i;
      }
      assert calls[..|calls|] == calls;
      r := Ok(versionWrapper);
    }

    /**
     * `registerVersion(version, callback)`: the callback's calls fill a fresh version
     * wrapper, which replaces whatever was registered under the number; the schema is
     * returned. When the callback throws, nothing is registered.
     */
    method RegisterVersion(version: int, calls: seq<DdlCall>) returns (r: Result<Schema, Exception>)
      modifies this`versions
      ensures var k := FirstUnknownCall(calls);
        k < |calls| ==> r == Err(TypeError("this." + calls[k].methodName + " is not a function")) && versions == old(versions)
      ensures r.Ok? <==> FirstUnknownCall(calls) == |calls|
      ensures r.Ok? ==> r.value == this && version in versions && fresh(versions[version])
      ensures r.Ok? ==> versions.Keys == old(versions).Keys + {version}
      ensures r.Ok? ==> forall v :: v in old(versions) && v != version ==> versions[v] == old(versions)[v]
      ensures r.Ok? ==> Lists() == old(Lists())[version := ListsAfter(calls)]
    {
      var filled := FillVersion(calls);
      if filled.Err? {
        return Err(filled.error);
      }
      versions := versions[version := filled.value];
      r := Ok(this);
    }

    /** One `forEach` pass of the runner over a statement list. */
    method ProcessList(snapshot: seq<string>, st: RunState, version: int, cmd: Command, stmts: seq<Statement>)
      returns (r: Result<RunState, Exception>)
      ensures r == RunList(StoreNameField, snapshot, Ok(st), version, cmd, stmts)
    {
      var storeNames := st.storeNames;
      var stores := st.stores;
      var trace := st.trace;
      for j := 0 to |stmts|
        invariant RunList(StoreNameField, snapshot, Ok(st), version, cmd, stmts[..j]) == Ok(RunState(storeNames, stores, trace))
      {
        assert stmts[..j + 1][..j] == stmts[..j];
        ghost var before := RunState(storeNames, stores, trace);
        var stmt := stmts[j];
        var storeName := StatementName(StoreNameField, stmt);
        match cmd {
          case Create =>
            if storeName in snapshot {
              stores := stores + {storeName};
              trace := trace + [Reused(version, storeName)];
              assert Step(StoreNameField, snapshot, before, version, cmd, j, stmt) == Ok(RunState(storeNames, stores, trace));
            } else {
              if storeName in storeNames {
                ErrorPersists(StoreNameField, snapshot, Ok(st), version, cmd, stmts, j + 1, ConstraintError());
                return Err(ConstraintError());
              }
              var config := if Truthy(stmt.config) then stmt.config else EmptyObject;
              storeNames := storeNames + [storeName];
              stores := stores + {storeName};
              trace := trace + [Created(version, storeName, config)];
              trace := trace + MaybeCallback(stmt, version, Create, j, Some(storeName));
              assert Step(StoreNameField, snapshot, before, version, cmd, j, stmt) == Ok(RunState(storeNames, stores, trace));
            }
          case Alter =>
            var target := if storeName in stores then Some(storeName) else None;
            trace := trace + MaybeCallback(stmt, version, Alter, j, target);
            assert Step(StoreNameField, snapshot, before, version, cmd, j, stmt) == Ok(RunState(storeNames, stores, trace));
          case Drop =>
            trace := trace + MaybeCallback(stmt, version, Drop, j, None);
            assert Step(StoreNameField, snapshot, before, version, cmd, j, stmt) == Ok(RunState(storeNames, stores, trace));
        }
      }
      assert stmts[..|stmts|] == stmts;
      r := Ok(RunState(storeNames, stores, trace));
    }

    /** The body of the runner's loop for one registered version: its creates, then its alters, then its drops. */
    method ProcessVersion(snapshot: seq<string>, st: RunState, version: int, l: DdlLists) returns (r: Result<RunState, Exception>)
      ensures r == RunList(StoreNameField, snapshot,
        RunList(StoreNameField, snapshot, RunList(StoreNameField, snapshot, Ok(st), version, Create, l.create), version, Alter, l.alter),
        version, Drop, l.drop)
    {
      var created := ProcessList(snapshot, st, version, Create, l.create);
      if created.Err? {
        return created;
      }
      var altered := ProcessList(snapshot, created.value, version, Alter, l.alter);
      if altered.Err? {
        return altered;
      }
      r := ProcessList(snapshot, altered.value, version, Drop, l.drop);
    }

    /**
     * `runDDLStatements(db, transaction, oldVersion, newVersion)` as written: it reads
     * the object-store names once, then runs every registered version above
     * `oldVersion` up to `newVersion`. An exception ends the run.
     */
    method RunDDLStatements(objectStoreNames: seq<string>, oldVersion: int, newVersion: int)
      returns (r: Result<RunState, Exception>)
      ensures r == RunDDL(StoreNameField, Lists(), objectStoreNames, oldVersion, newVersion)
    {
      var lists := Lists();
      var existingStores := objectStoreNames;
      var st := RunState(objectStoreNames, {}, []);
      var startingVersion := oldVersion + 1;
      var finalVersion := newVersion;
      var i := startingVersion;
      while i <= finalVersion
        invariant startingVersion <= i && (i <= finalVersion + 1 || i == startingVersion)
        invariant RunVersions(StoreNameField, existingStores, lists, startingVersion, i) == Ok(st)
        decreases finalVersion - i
      {
        VersionsSnoc(StoreNameField, existingStores, lists, startingVersion, i);
        if i !in versions {
          i := i + 1;
          continue;
        }
        var version := versions[i];
        var l := DdlLists(version.create, version.alter, version.drop);
        assert lists[i] == l;
        var ran := ProcessVersion(existingStores, st, i, l);
        if ran.Err? {
          VersionsErrorPersists(StoreNameField, existingStores, lists, startingVersion, i + 1, finalVersion + 1, ran.error);
          return ran;
        }
        st := ran.value;
        i := i + 1;
      }
      r := Ok(st);
    }
  }

  /** An exception after the first n entries of a pass is the outcome of the whole pass. */
  lemma {:induction false} ErrorPersists(field: NameField, snapshot: seq<string>, start: Result<RunState, Exception>, version: int, cmd: Command, stmts: seq<Statement>, n: nat, e: Exception)
    requires n <= |stmts|
    requires RunList(field, snapshot, start, version, cmd, stmts[..n]) == Err(e)
    ensures RunList(field, snapshot, start, version, cmd, stmts) == Err(e)
    decreases |stmts| - n
  {
    if n < |stmts| {
      assert stmts[..n + 1][..n] == stmts[..n];
      ErrorPersists(field, snapshot, start, version, cmd, stmts, n + 1, e);
    } else {
      assert stmts[..n] == stmts;
    }
  }

  /** A run one version longer is that version run on the shorter run's outcome. */
  lemma VersionsSnoc(field: NameField, snapshot: seq<string>, lists: map<int, DdlLists>, first: int, end: int)
    requires first <= end
    ensures RunVersions(field, snapshot, lists, first, end + 1) == RunVersion(field, snapshot, lists, RunVersions(field, snapshot, lists, first, end), end)
  {
  }

  /** An exception in one version is the outcome of every longer run. */
  lemma {:induction false} VersionsErrorPersists(field: NameField, snapshot: seq<string>, lists: map<int, DdlLists>, first: int, end: int, end': int, e: Exception)
    requires end <= end'
    requires first < end
    requires RunVersions(field, snapshot, lists, first, end) == Err(e)
    ensures RunVersions(field, snapshot, lists, first, end') == Err(e)
    decreases end' - end
  {
    if end < end' {
      VersionsErrorPersists(field, snapshot, lists, first, end, end' - 1, e);
    }
  }
}
