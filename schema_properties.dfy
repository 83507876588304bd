/**
 * What every migration run guarantees, whichever property it reads as the store
 * name: the versions it replays, the order of their statements, which stores it
 * creates, and which callbacks it invokes. Also the consequence of the name mismatch
 * between the runner and the version wrapper.
 */
module SchemaProperties {
  import opened Wrappers
  import opened Js
  import opened SchemaVersions
  import opened Schemas

  /** The position of a command in the runner's per-version order. */
  function Rank(cmd: Command): nat {
    match cmd
    case Create => 0
    case Alter => 1
    case Drop => 2
  }

  /** The pass an event comes from. */
  function PassOf(e: DdlEvent): Command {
    match e
    case CallbackRan(_, cmd, _, _) => cmd
    case _ => Create
  }

  /** The event belongs to a version and pass no later than (version, cmd). */
  predicate NotAfter(e: DdlEvent, version: int, cmd: Command) {
    e.version < version || (e.version == version && Rank(PassOf(e)) <= Rank(cmd))
  }

  /** Events are ordered by version, and within a version creates, then alters, then drops. */
  predicate Ordered(trace: seq<DdlEvent>) {
    forall i, j :: 0 <= i < j < |trace| ==> NotAfter(trace[i], trace[j].version, PassOf(trace[j]))
  }

  /** An event of the given pass over the given list. */
  predicate FromList(e: DdlEvent, snapshot: seq<string>, version: int, cmd: Command, stmts: seq<Statement>) {
    && e.version == version && PassOf(e) == cmd
    && (e.Created? ==> e.name !in snapshot)
    && (e.CallbackRan? ==> e.index < |stmts| && IsFunction(stmts[e.index].cb))
  }

  /** An event of a run over the registered lists, for a version in [first, end). */
  predicate FromRun(e: DdlEvent, snapshot: seq<string>, lists: map<int, DdlLists>, first: int, end: int) {
    && first <= e.version < end && e.version in lists
    && (e.Created? ==> e.name !in snapshot)
    && (e.CallbackRan? ==> e.index < |lists[e.version].List(e.cmd)| && IsFunction(lists[e.version].List(e.cmd)[e.index].cb))
  }

  /**
   * A later state of a run: no store name and no event is taken back, and a run
   * that started without duplicate store names still has none.
   */
  predicate Extends(st: RunState, st0: RunState) {
    && |st0.storeNames| <= |st.storeNames| && st.storeNames[..|st0.storeNames|] == st0.storeNames
    && |st0.trace| <= |st.trace| && st.trace[..|st0.trace|] == st0.trace
    && (Distinct(st0.storeNames) ==> Distinct(st.storeNames))
  }

  lemma ExtendsTransitive(st2: RunState, st1: RunState, st0: RunState)
    requires Extends(st2, st1) && Extends(st1, st0)
    ensures Extends(st2, st0)
  {
    assert st2.storeNames[..|st0.storeNames|] == st2.storeNames[..|st1.storeNames|][..|st0.storeNames|];
    assert st2.trace[..|st0.trace|] == st2.trace[..|st1.trace|][..|st0.trace|];
  }

  /** An entry only adds: a create appends its new store's name, which was not there yet. */
  lemma StepExtends(field: NameField, snapshot: seq<string>, st: RunState, version: int, cmd: Command, index: nat, stmt: Statement)
    requires Step(field, snapshot, st, version, cmd, index, stmt).Ok?
    ensures Extends(Step(field, snapshot, st, version, cmd, index, stmt).value, st)
  {
  }

  /** A pass only adds. */
  lemma {:induction false} RunListExtends(field: NameField, snapshot: seq<string>, st0: RunState, version: int, cmd: Command, stmts: seq<Statement>)
    requires RunList(field, snapshot, Ok(st0), version, cmd, stmts).Ok?
    ensures Extends(RunList(field, snapshot, Ok(st0), version, cmd, stmts).value, st0)
    decreases |stmts|
  {
    if stmts != [] {
      var n := |stmts| - 1;
      var mid := RunList(field, snapshot, Ok(st0), version, cmd, stmts[..n]).value;
      RunListExtends(field, snapshot, st0, version, cmd, stmts[..n]);
      StepExtends(field, snapshot, mid, version, cmd, n, stmts[n]);
      ExtendsTransitive(RunList(field, snapshot, Ok(st0), version, cmd, stmts).value, mid, st0);
    }
  }

  /** A run over versions only adds to the state it started from. */
  lemma {:induction false} RunVersionsExtends(field: NameField, snapshot: seq<string>, lists: map<int, DdlLists>, first: int, end: int)
    requires RunVersions(field, snapshot, lists, first, end).Ok?
    ensures Extends(RunVersions(field, snapshot, lists, first, end).value, RunState(snapshot, {}, []))
    decreases end - first
  {
    if end > first {
      var v := end - 1;
      var prev := RunVersions(field, snapshot, lists, first, v).value;
      RunVersionsExtends(field, snapshot, lists, first, v);
      if v in lists {
        var l := lists[v];
        var created := RunList(field, snapshot, Ok(prev), v, Create, l.create).value;
        var altered := RunList(field, snapshot, Ok(created), v, Alter, l.alter).value;
        var st := RunList(field, snapshot, Ok(altered), v, Drop, l.drop).value;
        RunListExtends(field, snapshot, prev, v, Create, l.create);
        RunListExtends(field, snapshot, created, v, Alter, l.alter);
        RunListExtends(field, snapshot, altered, v, Drop, l.drop);
        ExtendsTransitive(altered, created, prev);
        ExtendsTransitive(st, altered, prev);
        ExtendsTransitive(st, prev, RunState(snapshot, {}, []));
      }
    }
  }

  /**
   * A successful upgrade keeps every object store that was there, in place, and
   * makes no store name twice when there was no duplicate before.
   */
  lemma UpgradeKeepsStores(field: NameField, lists: map<int, DdlLists>, snapshot: seq<string>, oldVersion: int, newVersion: int)
    requires RunDDL(field, lists, snapshot, oldVersion, newVersion).Ok?
    ensures var names := RunDDL(field, lists, snapshot, oldVersion, newVersion).value.storeNames;
      && |snapshot| <= |names| && names[..|snapshot|] == snapshot
      && (Distinct(snapshot) ==> Distinct(names))
  {
    RunVersionsExtends(field, snapshot, lists, oldVersion + 1, newVersion + 1);
  }

  /** One entry adds only events of its own pass, naming its own index. */
  lemma StepEvents(field: NameField, snapshot: seq<string>, st: RunState, version: int, cmd: Command, stmts: seq<Statement>, index: nat)
    requires index < |stmts|
    requires Step(field, snapshot, st, version, cmd, index, stmts[index]).Ok?
    ensures var st' := Step(field, snapshot, st, version, cmd, index, stmts[index]).value;
      forall k :: |st.trace| <= k < |st'.trace| ==> FromList(st'.trace[k], snapshot, version, cmd, stmts)
  {
  }

  /** A pass adds only events of that pass, for callbacks that are functions. */
  lemma {:induction false} ListEvents(field: NameField, snapshot: seq<string>, st0: RunState, version: int, cmd: Command, stmts: seq<Statement>)
    requires RunList(field, snapshot, Ok(st0), version, cmd, stmts).Ok?
    ensures var st := RunList(field, snapshot, Ok(st0), version, cmd, stmts).value;
      && Extends(st, st0)
      && forall k :: |st0.trace| <= k < |st.trace| ==> FromList(st.trace[k], snapshot, version, cmd, stmts)
    decreases |stmts|
  {
    RunListExtends(field, snapshot, st0, version, cmd, stmts);
    if stmts != [] {
      var init := stmts[..|stmts| - 1];
      var mid := RunList(field, snapshot, Ok(st0), version, cmd, init);
      ListEvents(field, snapshot, st0, version, cmd, init);
      assert stmts[|stmts| - 1] == stmts[..][|stmts| - 1];
      StepEvents(field, snapshot, mid.value, version, cmd, stmts, |stmts| - 1);
      StepExtends(field, snapshot, mid.value, version, cmd, |stmts| - 1, stmts[|stmts| - 1]);
      var st := RunList(field, snapshot, Ok(st0), version, cmd, stmts).value;
      assert st.trace[..|mid.value.trace|] == mid.value.trace;
      forall k | |st0.trace| <= k < |st.trace|
        ensures FromList(st.trace[k], snapshot, version, cmd, stmts)
      {
        if k < |mid.value.trace| {
          assert st.trace[k] == mid.value.trace[k];
          assert FromList(mid.value.trace[k], snapshot, version, cmd, init);
        }
      }
    }
  }

  /** Appending events of one (version, pass) to an ordered trace that reaches no further keeps it ordered. */
  lemma AppendKeepsOrder(t0: seq<DdlEvent>, t: seq<DdlEvent>, version: int, cmd: Command)
    requires Ordered(t0) && forall k :: 0 <= k < |t0| ==> NotAfter(t0[k], version, cmd)
    requires |t0| <= |t| && t[..|t0|] == t0
    requires forall k :: |t0| <= k < |t| ==> t[k].version == version && PassOf(t[k]) == cmd
    ensures Ordered(t) && forall k :: 0 <= k < |t| ==> NotAfter(t[k], version, cmd)
  {
    assert forall k :: 0 <= k < |t0| ==> t[k] == t0[k];
  }

  /**
   * A run over versions [first, end) replays only registered versions in that
   * interval, in ascending order and by pass within each version; it creates only
   * stores that were not there before it started, and invokes only callbacks that
   * are functions. That every entry is replayed is `RunReplays`.
   */
  lemma {:induction false} RunEvents(field: NameField, snapshot: seq<string>, lists: map<int, DdlLists>, first: int, end: int)
    requires RunVersions(field, snapshot, lists, first, end).Ok?
    ensures var st := RunVersions(field, snapshot, lists, first, end).value;
      && Ordered(st.trace)
      && forall k :: 0 <= k < |st.trace| ==> FromRun(st.trace[k], snapshot, lists, first, end)
    decreases end - first
  {
    if end > first {
      var v := end - 1;
      var prev := RunVersions(field, snapshot, lists, first, v).value;
      RunEvents(field, snapshot, lists, first, v);
      if v in lists {
        forall k | 0 <= k < |prev.trace|
          ensures NotAfter(prev.trace[k], v, Create) && FromRun(prev.trace[k], snapshot, lists, first, end)
        {
          assert FromRun(prev.trace[k], snapshot, lists, first, v);
        }
        VersionEvents(field, snapshot, lists, prev, v, first, end);
      }
    }
  }

  /** One registered version appends, in pass order, only events of its own lists. */
  lemma VersionEvents(field: NameField, snapshot: seq<string>, lists: map<int, DdlLists>, st0: RunState, v: int, first: int, end: int)
    requires first <= v < end && v in lists
    requires RunVersion(field, snapshot, lists, Ok(st0), v).Ok?
    requires Ordered(st0.trace) && forall k :: 0 <= k < |st0.trace| ==> NotAfter(st0.trace[k], v, Create)
    requires forall k :: 0 <= k < |st0.trace| ==> FromRun(st0.trace[k], snapshot, lists, first, end)
    ensures var st := RunVersion(field, snapshot, lists, Ok(st0), v).value;
      && Ordered(st.trace)
      && forall k :: 0 <= k < |st.trace| ==> FromRun(st.trace[k], snapshot, lists, first, end)
  {
    var l := lists[v];
    var created := RunList(field, snapshot, Ok(st0), v, Create, l.create);
    var altered := RunList(field, snapshot, created, v, Alter, l.alter);
    var st := RunVersion(field, snapshot, lists, Ok(st0), v).value;
    ListEvents(field, snapshot, st0, v, Create, l.create);
    AppendKeepsOrder(st0.trace, created.value.trace, v, Create);
    ListEvents(field, snapshot, created.value, v, Alter, l.alter);
    AppendKeepsOrder(created.value.trace, altered.value.trace, v, Alter);
    ListEvents(field, snapshot, altered.value, v, Drop, l.drop);
    AppendKeepsOrder(altered.value.trace, st.trace, v, Drop);
    PassFromRun(created.value.trace, st0.trace, snapshot, lists, first, end, v, Create);
    PassFromRun(altered.value.trace, created.value.trace, snapshot, lists, first, end, v, Alter);
    PassFromRun(st.trace, altered.value.trace, snapshot, lists, first, end, v, Drop);
  }

  /** Events of one pass of a registered version in range, after events of the run, are events of the run. */
  lemma PassFromRun(t: seq<DdlEvent>, t0: seq<DdlEvent>, snapshot: seq<string>, lists: map<int, DdlLists>, first: int, end: int, v: int, cmd: Command)
    requires first <= v < end && v in lists
    requires |t0| <= |t| && t[..|t0|] == t0
    requires forall k :: 0 <= k < |t0| ==> FromRun(t0[k], snapshot, lists, first, end)
    requires forall k :: |t0| <= k < |t| ==> FromList(t[k], snapshot, v, cmd, lists[v].List(cmd))
    ensures forall k :: 0 <= k < |t| ==> FromRun(t[k], snapshot, lists, first, end)
  {
    forall k | 0 <= k < |t|
      ensures FromRun(t[k], snapshot, lists, first, end)
    {
      if k < |t0| {
        assert t[k] == t0[k];
      }
    }
  }

  /** The event is the callback of entry `index` of the `cmd` list of `version`, whichever wrapper it received. */
  predicate IsCallback(e: DdlEvent, version: int, cmd: Command, index: nat) {
    e.CallbackRan? && e.version == version && e.cmd == cmd && e.index == index
  }

  /** Some event of the trace is that callback. */
  predicate CallbackIn(trace: seq<DdlEvent>, version: int, cmd: Command, index: nat) {
    exists k :: 0 <= k < |trace| && IsCallback(trace[k], version, cmd, index)
  }

  /** Within each list of each version the callbacks run in index order, so none runs twice. */
  predicate CallbacksInIndexOrder(trace: seq<DdlEvent>) {
    forall k1, k2 ::
      && 0 <= k1 < k2 < |trace| && trace[k1].CallbackRan? && trace[k2].CallbackRan?
      && trace[k1].version == trace[k2].version && trace[k1].cmd == trace[k2].cmd
      ==> trace[k1].index < trace[k2].index
  }

  /** Every event belongs to the given version and pass. */
  predicate Block(trace: seq<DdlEvent>, version: int, cmd: Command) {
    forall k :: 0 <= k < |trace| ==> trace[k].version == version && PassOf(trace[k]) == cmd
  }

  /**
   * The entry's callback runs: it is a function, and the entry is not a create of a
   * store found before the upgrade (that one only reuses the store).
   */
  predicate RunsCallback(field: NameField, snapshot: seq<string>, cmd: Command, stmt: Statement) {
    IsFunction(stmt.cb) && !(cmd == Create && StatementName(field, stmt) in snapshot)
  }

  /**
   * What a create entry leaves in the trace: the store found before the upgrade,
   * reused, or else the store made with the entry's config, `{}` when that is falsy.
   */
  function CreateEvent(field: NameField, snapshot: seq<string>, version: int, stmt: Statement): DdlEvent {
    var name := StatementName(field, stmt);
    if name in snapshot then Reused(version, name)
    else Created(version, name, if Truthy(stmt.config) then stmt.config else EmptyObject)
  }

  /** The events of a pass replay every entry of its list: each store, and each callback that is a function, once and in order. */
  predicate ListReplayed(added: seq<DdlEvent>, field: NameField, snapshot: seq<string>, version: int, cmd: Command, stmts: seq<Statement>) {
    && (forall i :: 0 <= i < |stmts| && RunsCallback(field, snapshot, cmd, stmts[i]) ==> CallbackIn(added, version, cmd, i))
    && (cmd == Create ==> forall i :: 0 <= i < |stmts| ==> CreateEvent(field, snapshot, version, stmts[i]) in added)
    && CallbacksInIndexOrder(added)
  }

  /** The events of a run replay every entry of every registered version in [first, end). */
  predicate RunReplayed(trace: seq<DdlEvent>, field: NameField, snapshot: seq<string>, lists: map<int, DdlLists>, first: int, end: int) {
    && (forall v, cmd, i ::
          first <= v < end && v in lists && 0 <= i < |lists[v].List(cmd)| && RunsCallback(field, snapshot, cmd, lists[v].List(cmd)[i])
          ==> CallbackIn(trace, v, cmd, i))
    && (forall v, i ::
          first <= v < end && v in lists && 0 <= i < |lists[v].create|
          ==> CreateEvent(field, snapshot, v, lists[v].create[i]) in trace)
    && CallbacksInIndexOrder(trace)
  }

  lemma CallbackInConcat(a: seq<DdlEvent>, b: seq<DdlEvent>, version: int, cmd: Command, index: nat)
    ensures CallbackIn(a, version, cmd, index) || CallbackIn(b, version, cmd, index) ==> CallbackIn(a + b, version, cmd, index)
  {
    if CallbackIn(a, version, cmd, index) {
      var k :| 0 <= k < |a| && IsCallback(a[k], version, cmd, index);
      assert (a + b)[k] == a[k];
    } else if CallbackIn(b, version, cmd, index) {
      var k :| 0 <= k < |b| && IsCallback(b[k], version, cmd, index);
      assert (a + b)[|a| + k] == b[k];
    }
  }

  /** Two traces in index order whose events never share a version and a pass stay in index order when joined. */
  lemma OrderConcat(a: seq<DdlEvent>, b: seq<DdlEvent>)
    requires CallbacksInIndexOrder(a) && CallbacksInIndexOrder(b)
    requires forall k1, k2 :: 0 <= k1 < |a| && 0 <= k2 < |b| ==> a[k1].version != b[k2].version || PassOf(a[k1]) != PassOf(b[k2])
    ensures CallbacksInIndexOrder(a + b)
  {
    var t := a + b;
    forall k1, k2 |
      && 0 <= k1 < k2 < |t| && t[k1].CallbackRan? && t[k2].CallbackRan?
      && t[k1].version == t[k2].version && t[k1].cmd == t[k2].cmd
      ensures t[k1].index < t[k2].index
    {
      if k2 < |a| {
        assert t[k1] == a[k1] && t[k2] == a[k2];
      } else if k1 >= |a| {
        assert t[k1] == b[k1 - |a|] && t[k2] == b[k2 - |a|];
      } else {
        assert false;
      }
    }
  }

  /** Every callback of the trace is of an entry below n. */
  predicate IndexesBelow(trace: seq<DdlEvent>, n: nat) {
    forall k :: 0 <= k < |trace| && trace[k].CallbackRan? ==> trace[k].index < n
  }

  /** Appending the events of entry n, whose one callback comes last, keeps the index order. */
  lemma OrderSnoc(a: seq<DdlEvent>, b: seq<DdlEvent>, n: nat)
    requires CallbacksInIndexOrder(a) && IndexesBelow(a, n)
    requires forall k :: 0 <= k < |b| && b[k].CallbackRan? ==> k == |b| - 1 && b[k].index == n
    ensures CallbacksInIndexOrder(a + b) && IndexesBelow(a + b, n + 1)
  {
    var t := a + b;
    forall k1, k2 |
      && 0 <= k1 < k2 < |t| && t[k1].CallbackRan? && t[k2].CallbackRan?
      && t[k1].version == t[k2].version && t[k1].cmd == t[k2].cmd
      ensures t[k1].index < t[k2].index
    {
      if k2 < |a| {
        assert t[k1] == a[k1] && t[k2] == a[k2];
      } else if k1 < |a| {
        assert t[k1] == a[k1] && t[k2] == b[k2 - |a|];
      } else {
        assert false;
      }
    }
    forall k | 0 <= k < |t| && t[k].CallbackRan?
      ensures t[k].index < n + 1
    {
      if k < |a| {
        assert t[k] == a[k];
      } else {
        assert t[k] == b[k - |a|];
      }
    }
  }

  lemma BlockConcat(a: seq<DdlEvent>, b: seq<DdlEvent>, version: int, cmd: Command)
    requires Block(a, version, cmd) && Block(b, version, cmd)
    ensures Block(a + b, version, cmd)
  {
    forall k | 0 <= k < |a + b|
      ensures (a + b)[k].version == version && PassOf((a + b)[k]) == cmd
    {
      if k < |a| {
        assert (a + b)[k] == a[k];
      } else {
        assert (a + b)[k] == b[k - |a|];
      }
    }
  }

  /** The events one entry adds, when it does not throw. */
  function StepAdds(field: NameField, snapshot: seq<string>, st: RunState, version: int, cmd: Command, index: nat, stmt: Statement): seq<DdlEvent>
    requires Step(field, snapshot, st, version, cmd, index, stmt).Ok?
  {
    Step(field, snapshot, st, version, cmd, index, stmt).value.trace[|st.trace|..]
  }

  /**
   * One entry adds one store event for a create, and at most one callback: its own,
   * last, exactly when the callback is a function.
   */
  lemma StepReplays(field: NameField, snapshot: seq<string>, st: RunState, version: int, cmd: Command, index: nat, stmt: Statement)
    requires Step(field, snapshot, st, version, cmd, index, stmt).Ok?
    ensures var added := StepAdds(field, snapshot, st, version, cmd, index, stmt);
      && Step(field, snapshot, st, version, cmd, index, stmt).value.trace == st.trace + added
      && Block(added, version, cmd)
      && (forall k :: 0 <= k < |added| && added[k].CallbackRan? ==> k == |added| - 1 && added[k].index == index)
      && (RunsCallback(field, snapshot, cmd, stmt) ==> CallbackIn(added, version, cmd, index))
      && (cmd == Create ==> CreateEvent(field, snapshot, version, stmt) in added)
  {
    var st' := Step(field, snapshot, st, version, cmd, index, stmt).value;
    var name := StatementName(field, stmt);
    var extra: seq<DdlEvent>;
    match cmd {
      case Create =>
        if name in snapshot {
          extra := [Reused(version, name)];
        } else {
          var config := if Truthy(stmt.config) then stmt.config else EmptyObject;
          var cb := MaybeCallback(stmt, version, Create, index, Some(name));
          extra := [Created(version, name, config)] + cb;
          ConcatAssociates(st.trace, [Created(version, name, config)], cb);
          CallbackShape(stmt, version, Create, index, Some(name));
          StoreEventFirst(Created(version, name, config), cb, version, index);
        }
      case Alter =>
        extra := MaybeCallback(stmt, version, Alter, index, if name in st.stores then Some(name) else None);
        CallbackShape(stmt, version, Alter, index, if name in st.stores then Some(name) else None);
      case Drop =>
        extra := MaybeCallback(stmt, version, Drop, index, None);
        CallbackShape(stmt, version, Drop, index, None);
    }
    assert st'.trace == st.trace + extra;
    DropPrefix(st.trace, extra);
  }

  /** The callback events of one entry: at most one, its own, of its own version and pass. */
  lemma CallbackShape(stmt: Statement, version: int, cmd: Command, index: nat, target: Option<string>)
    ensures var cb := MaybeCallback(stmt, version, cmd, index, target);
      && Block(cb, version, cmd)
      && (forall k :: 0 <= k < |cb| && cb[k].CallbackRan? ==> k == |cb| - 1 && cb[k].index == index)
      && (IsFunction(stmt.cb) ==> CallbackIn(cb, version, cmd, index))
  {
    var cb := MaybeCallback(stmt, version, cmd, index, target);
    if IsFunction(stmt.cb) {
      assert IsCallback(cb[0], version, cmd, index);
    }
  }

  /** A store event put before the entry's callback events keeps their shape. */
  lemma StoreEventFirst(e: DdlEvent, cb: seq<DdlEvent>, version: int, index: nat)
    requires !e.CallbackRan? && e.version == version
    requires Block(cb, version, Create) && |cb| <= 1
    requires forall k :: 0 <= k < |cb| && cb[k].CallbackRan? ==> k == |cb| - 1 && cb[k].index == index
    ensures Block([e] + cb, version, Create)
    ensures forall k :: 0 <= k < |[e] + cb| && ([e] + cb)[k].CallbackRan? ==> k == |[e] + cb| - 1 && ([e] + cb)[k].index == index
    ensures forall n :: CallbackIn(cb, version, Create, n) ==> CallbackIn([e] + cb, version, Create, n)
    ensures e in [e] + cb
  {
    forall n | CallbackIn(cb, version, Create, n)
      ensures CallbackIn([e] + cb, version, Create, n)
    {
      var k :| 0 <= k < |cb| && IsCallback(cb[k], version, Create, n);
      assert ([e] + cb)[k + 1] == cb[k];
    }
  }

  /** Appending the events of the next entry extends a replay of the earlier entries to the whole list. */
  lemma ReplayedSnoc(a: seq<DdlEvent>, b: seq<DdlEvent>, field: NameField, snapshot: seq<string>, version: int, cmd: Command, stmts: seq<Statement>)
    requires stmts != []
    requires var n := |stmts| - 1;
      && Block(a, version, cmd) && IndexesBelow(a, n) && ListReplayed(a, field, snapshot, version, cmd, stmts[..n])
      && Block(b, version, cmd)
      && (forall k :: 0 <= k < |b| && b[k].CallbackRan? ==> k == |b| - 1 && b[k].index == n)
      && (RunsCallback(field, snapshot, cmd, stmts[n]) ==> CallbackIn(b, version, cmd, n))
      && (cmd == Create ==> CreateEvent(field, snapshot, version, stmts[n]) in b)
    ensures Block(a + b, version, cmd) && IndexesBelow(a + b, |stmts|)
    ensures ListReplayed(a + b, field, snapshot, version, cmd, stmts)
  {
    var n := |stmts| - 1;
    var init := stmts[..n];
    BlockConcat(a, b, version, cmd);
    OrderSnoc(a, b, n);
    forall i | 0 <= i < |stmts| && RunsCallback(field, snapshot, cmd, stmts[i])
      ensures CallbackIn(a + b, version, cmd, i)
    {
      CallbackInConcat(a, b, version, cmd, i);
      if i < n {
        assert init[i] == stmts[i];
      }
    }
    if cmd == Create {
      forall i | 0 <= i < |stmts|
        ensures CreateEvent(field, snapshot, version, stmts[i]) in a + b
      {
        if i < n {
          assert init[i] == stmts[i];
        }
      }
    }
  }

  /** A pass replays every entry of its list, in index order. */
  lemma {:induction false} ListReplays(field: NameField, snapshot: seq<string>, st0: RunState, version: int, cmd: Command, stmts: seq<Statement>)
    requires RunList(field, snapshot, Ok(st0), version, cmd, stmts).Ok?
    ensures var st := RunList(field, snapshot, Ok(st0), version, cmd, stmts).value;
      |st0.trace| <= |st.trace| &&
      (var added := st.trace[|st0.trace|..];
      && st.trace == st0.trace + added
      && Block(added, version, cmd) && IndexesBelow(added, |stmts|)
      && ListReplayed(added, field, snapshot, version, cmd, stmts))
    decreases |stmts|
  {
    var st := RunList(field, snapshot, Ok(st0), version, cmd, stmts).value;
    if stmts == [] {
      assert st.trace[|st0.trace|..] == [];
    } else {
      var n := |stmts| - 1;
      var init := stmts[..n];
      var mid := RunList(field, snapshot, Ok(st0), version, cmd, init).value;
      ListReplays(field, snapshot, st0, version, cmd, init);
      assert Step(field, snapshot, mid, version, cmd, n, stmts[n]) == Ok(st);
      StepReplays(field, snapshot, mid, version, cmd, n, stmts[n]);
      var a := mid.trace[|st0.trace|..];
      var b := StepAdds(field, snapshot, mid, version, cmd, n, stmts[n]);
      ConcatAssociates(st0.trace, a, b);
      DropPrefix(st0.trace, a + b);
      ReplayedSnoc(a, b, field, snapshot, version, cmd, stmts);
    }
  }

  /** A trace extended three times is the first one followed by the three additions. */
  lemma ThreeParts(t0: seq<DdlEvent>, t1: seq<DdlEvent>, t2: seq<DdlEvent>, t3: seq<DdlEvent>)
    requires |t0| <= |t1| <= |t2| <= |t3|
    requires t1 == t0 + t1[|t0|..] && t2 == t1 + t2[|t1|..] && t3 == t2 + t3[|t2|..]
    ensures t3 == t0 + (t1[|t0|..] + t2[|t1|..] + t3[|t2|..])
    ensures t3[|t0|..] == t1[|t0|..] + t2[|t1|..] + t3[|t2|..]
  {
  }

  /** One version replays every entry of its three lists, all under that version. */
  lemma VersionReplays(field: NameField, snapshot: seq<string>, lists: map<int, DdlLists>, st0: RunState, version: int)
    requires version in lists && RunVersion(field, snapshot, lists, Ok(st0), version).Ok?
    ensures var st := RunVersion(field, snapshot, lists, Ok(st0), version).value;
      |st0.trace| <= |st.trace| &&
      (var added := st.trace[|st0.trace|..];
      && st.trace == st0.trace + added
      && (forall k :: 0 <= k < |added| ==> added[k].version == version)
      && (forall cmd: Command, i ::
            0 <= i < |lists[version].List(cmd)| && RunsCallback(field, snapshot, cmd, lists[version].List(cmd)[i]) ==> CallbackIn(added, version, cmd, i))
      && (forall i :: 0 <= i < |lists[version].create| ==> CreateEvent(field, snapshot, version, lists[version].create[i]) in added)
      && CallbacksInIndexOrder(added))
  {
    var l := lists[version];
    var created := RunList(field, snapshot, Ok(st0), version, Create, l.create);
    var altered := RunList(field, snapshot, created, version, Alter, l.alter);
    var st := RunList(field, snapshot, altered, version, Drop, l.drop).value;
    ListReplays(field, snapshot, st0, version, Create, l.create);
    ListReplays(field, snapshot, created.value, version, Alter, l.alter);
    ListReplays(field, snapshot, altered.value, version, Drop, l.drop);
    var c := created.value.trace[|st0.trace|..];
    var a := altered.value.trace[|created.value.trace|..];
    var d := st.trace[|altered.value.trace|..];
    ThreeParts(st0.trace, created.value.trace, altered.value.trace, st.trace);
    JoinPasses(c, a, d, field, snapshot, version, l);
  }

  /** The replays of a version's three passes, joined, replay the version. */
  lemma JoinPasses(c: seq<DdlEvent>, a: seq<DdlEvent>, d: seq<DdlEvent>, field: NameField, snapshot: seq<string>, version: int, l: DdlLists)
    requires Block(c, version, Create) && ListReplayed(c, field, snapshot, version, Create, l.create)
    requires Block(a, version, Alter) && ListReplayed(a, field, snapshot, version, Alter, l.alter)
    requires Block(d, version, Drop) && ListReplayed(d, field, snapshot, version, Drop, l.drop)
    ensures forall k :: 0 <= k < |c + a + d| ==> (c + a + d)[k].version == version
    ensures forall cmd: Command, i ::
      0 <= i < |l.List(cmd)| && RunsCallback(field, snapshot, cmd, l.List(cmd)[i]) ==> CallbackIn(c + a + d, version, cmd, i)
    ensures forall i :: 0 <= i < |l.create| ==> CreateEvent(field, snapshot, version, l.create[i]) in c + a + d
    ensures CallbacksInIndexOrder(c + a + d)
  {
    OrderConcat(c, a);
    BlockVersions(c, a, version);
    assert forall k :: 0 <= k < |c + a| ==> PassOf((c + a)[k]) != Drop;
    OrderConcat(c + a, d);
    forall cmd: Command, i | 0 <= i < |l.List(cmd)| && RunsCallback(field, snapshot, cmd, l.List(cmd)[i])
      ensures CallbackIn(c + a + d, version, cmd, i)
    {
      CallbackInConcat(c, a, version, cmd, i);
      CallbackInConcat(c + a, d, version, cmd, i);
    }
    BlockVersions(c + a, d, version);
  }

  /** Events of two passes of one version all carry that version. */
  lemma BlockVersions(a: seq<DdlEvent>, b: seq<DdlEvent>, version: int)
    requires forall k :: 0 <= k < |a| ==> a[k].version == version
    requires forall k :: 0 <= k < |b| ==> b[k].version == version
    ensures forall k :: 0 <= k < |a + b| ==> (a + b)[k].version == version
  {
    forall k | 0 <= k < |a + b|
      ensures (a + b)[k].version == version
    {
      if k < |a| {
        assert (a + b)[k] == a[k];
      } else {
        assert (a + b)[k] == b[k - |a|];
      }
    }
  }

  /** A run replays every entry of every registered version in [first, end). */
  lemma {:induction false} RunReplays(field: NameField, snapshot: seq<string>, lists: map<int, DdlLists>, first: int, end: int)
    requires RunVersions(field, snapshot, lists, first, end).Ok?
    ensures RunReplayed(RunVersions(field, snapshot, lists, first, end).value.trace, field, snapshot, lists, first, end)
    decreases end - first
  {
    if end > first {
      var v := end - 1;
      var prev := RunVersions(field, snapshot, lists, first, v).value;
      RunReplays(field, snapshot, lists, first, v);
      if v !in lists {
        SkipVersion(prev.trace, field, snapshot, lists, first, v);
      } else {
        VersionsBelow(field, snapshot, lists, first, v);
        VersionReplays(field, snapshot, lists, prev, v);
        var st := RunVersions(field, snapshot, lists, first, end).value;
        JoinVersion(prev.trace, st.trace[|prev.trace|..], field, snapshot, lists, first, v);
      }
    }
  }

  /** Every event of a run over [first, end) belongs to a version below end. */
  lemma VersionsBelow(field: NameField, snapshot: seq<string>, lists: map<int, DdlLists>, first: int, end: int)
    requires RunVersions(field, snapshot, lists, first, end).Ok?
    ensures var t := RunVersions(field, snapshot, lists, first, end).value.trace;
      forall k :: 0 <= k < |t| ==> t[k].version < end
  {
    RunEvents(field, snapshot, lists, first, end);
    var t := RunVersions(field, snapshot, lists, first, end).value.trace;
    assert forall k :: 0 <= k < |t| ==> FromRun(t[k], snapshot, lists, first, end);
  }

  /** A version with nothing registered adds nothing to replay. */
  lemma SkipVersion(t: seq<DdlEvent>, field: NameField, snapshot: seq<string>, lists: map<int, DdlLists>, first: int, v: int)
    requires v !in lists && RunReplayed(t, field, snapshot, lists, first, v)
    ensures RunReplayed(t, field, snapshot, lists, first, v + 1)
  {
  }

  /** A replay of the versions below v followed by a replay of v replays the versions up to v. */
  lemma JoinVersion(t: seq<DdlEvent>, added: seq<DdlEvent>, field: NameField, snapshot: seq<string>, lists: map<int, DdlLists>, first: int, v: int)
    requires v in lists
    requires RunReplayed(t, field, snapshot, lists, first, v)
    requires forall k :: 0 <= k < |t| ==> t[k].version < v
    requires forall k :: 0 <= k < |added| ==> added[k].version == v
    requires forall cmd: Command, i ::
      0 <= i < |lists[v].List(cmd)| && RunsCallback(field, snapshot, cmd, lists[v].List(cmd)[i]) ==> CallbackIn(added, v, cmd, i)
    requires forall i :: 0 <= i < |lists[v].create| ==> CreateEvent(field, snapshot, v, lists[v].create[i]) in added
    requires CallbacksInIndexOrder(added)
    ensures RunReplayed(t + added, field, snapshot, lists, first, v + 1)
  {
    OrderConcat(t, added);
    forall w, cmd, i | first <= w < v + 1 && w in lists && 0 <= i < |lists[w].List(cmd)| && RunsCallback(field, snapshot, cmd, lists[w].List(cmd)[i])
      ensures CallbackIn(t + added, w, cmd, i)
    {
      CallbackInConcat(t, added, w, cmd, i);
    }
  }

  /**
   * `runDDLStatements` visits the registered versions oldVersion+1 .. newVersion in
   * ascending order, each version's creates before its alters and its alters before
   * its drops; it creates only stores missing from the names read before the loop,
   * and runs only callbacks that are functions. Conversely it replays every entry of
   * every version in range: each create leaves its store event, and each callback
   * that is a function runs, in index order within its list. For the callback of a
   * create whose store was found before the upgrade no claim is made either way.
   */
  lemma DdlRunOrder(field: NameField, lists: map<int, DdlLists>, snapshot: seq<string>, oldVersion: int, newVersion: int)
    requires RunDDL(field, lists, snapshot, oldVersion, newVersion).Ok?
    ensures var st := RunDDL(field, lists, snapshot, oldVersion, newVersion).value;
      && Ordered(st.trace)
      && (forall k :: 0 <= k < |st.trace| ==> FromRun(st.trace[k], snapshot, lists, oldVersion + 1, newVersion + 1))
      && RunReplayed(st.trace, field, snapshot, lists, oldVersion + 1, newVersion + 1)
  {
    RunEvents(field, snapshot, lists, oldVersion + 1, newVersion + 1);
    RunReplays(field, snapshot, lists, oldVersion + 1, newVersion + 1);
  }

  /** As written, a create pass that made or found "undefined" leaves it among the store names. */
  lemma {:induction false} AsWrittenCreatesNameUndefined(snapshot: seq<string>, st0: RunState, version: int, stmts: seq<Statement>)
    requires "undefined" !in snapshot && stmts != []
    requires RunList(StoreNameField, snapshot, Ok(st0), version, Create, stmts).Ok?
    ensures "undefined" in RunList(StoreNameField, snapshot, Ok(st0), version, Create, stmts).value.storeNames
    decreases |stmts|
  {
    var init := stmts[..|stmts| - 1];
    if init != [] {
      AsWrittenCreatesNameUndefined(snapshot, st0, version, init);
    }
  }

  /**
   * As written, a create pass with two or more entries throws ConstraintError unless a
   * store named "undefined" existed before the upgrade: every entry names that store.
   */
  lemma AsWrittenSecondCreateFails(snapshot: seq<string>, st0: RunState, version: int, stmts: seq<Statement>)
    requires "undefined" !in snapshot && |stmts| >= 2
    ensures RunList(StoreNameField, snapshot, Ok(st0), version, Create, stmts).Err?
    ensures RunList(StoreNameField, snapshot, Ok(st0), version, Create, stmts).error == ConstraintError()
  {
    var init := stmts[..|stmts| - 1];
    var mid := RunList(StoreNameField, snapshot, Ok(st0), version, Create, init);
    if mid.Ok? {
      AsWrittenCreatesNameUndefined(snapshot, st0, version, init);
    }
  }

  /**
   * As written, registering two creates for one version aborts the upgrade to it with
   * ConstraintError: both entries read the store name as "undefined".
   */
  lemma AsWrittenUpgradeFails(lists: map<int, DdlLists>, snapshot: seq<string>, oldVersion: int, newVersion: int, v: int)
    requires oldVersion < v <= newVersion && v in lists && |lists[v].create| >= 2
    requires "undefined" !in snapshot
    ensures RunDDL(StoreNameField, lists, snapshot, oldVersion, newVersion).Err?
  {
    var prev := RunVersions(StoreNameField, snapshot, lists, oldVersion + 1, v);
    var here := RunVersions(StoreNameField, snapshot, lists, oldVersion + 1, v + 1);
    if prev.Ok? {
      var l := lists[v];
      AsWrittenSecondCreateFails(snapshot, prev.value, v, l.create);
      var created := RunList(StoreNameField, snapshot, prev, v, Create, l.create);
    }
    VersionsErrorPersists(StoreNameField, snapshot, lists, oldVersion + 1, v + 1, newVersion + 1, here.error);
  }

  /** The names the intended runner gives to create entries: their `tableName`s. */
  function TableNames(stmts: seq<Statement>): (names: seq<string>)
    ensures |names| == |stmts|
    ensures forall i :: 0 <= i < |stmts| ==> names[i] == StatementName(TableNameField, stmts[i])
  {
    seq(|stmts|, i requires 0 <= i < |stmts| => StatementName(TableNameField, stmts[i]))
  }

  /**
   * Reading `tableName`, a create pass over new, distinct names creates exactly those
   * stores, in order.
   */
  lemma {:induction false} IntendedCreatesAll(snapshot: seq<string>, st0: RunState, version: int, stmts: seq<Statement>)
    requires Distinct(TableNames(stmts))
    requires forall i :: 0 <= i < |stmts| ==> TableNames(stmts)[i] !in snapshot && TableNames(stmts)[i] !in st0.storeNames
    ensures RunList(TableNameField, snapshot, Ok(st0), version, Create, stmts).Ok?
    ensures RunList(TableNameField, snapshot, Ok(st0), version, Create, stmts).value.storeNames == st0.storeNames + TableNames(stmts)
    decreases |stmts|
  {
    if stmts != [] {
      var n := |stmts| - 1;
      var init := stmts[..n];
      assert TableNames(init) == TableNames(stmts)[..n];
      IntendedCreatesAll(snapshot, st0, version, init);
      var mid := RunList(TableNameField, snapshot, Ok(st0), version, Create, init).value;
      var name := TableNames(stmts)[n];
      assert name !in TableNames(init);
      assert name !in mid.storeNames;
      assert TableNames(stmts) == TableNames(init) + [name];
    }
  }

  /**
   * Reading `tableName`, an upgrade to a version that creates new, distinct stores
   * creates exactly those stores.
   */
  lemma IntendedUpgradeCreatesTables(snapshot: seq<string>, v: int, creates: seq<Statement>)
    requires Distinct(TableNames(creates))
    requires forall i :: 0 <= i < |creates| ==> TableNames(creates)[i] !in snapshot
    ensures var r := RunDDL(TableNameField, map[v := DdlLists(creates, [], [])], snapshot, v - 1, v);
      r.Ok? && r.value.storeNames == snapshot + TableNames(creates)
  {
    var lists := map[v := DdlLists(creates, [], [])];
    var st0 := RunState(snapshot, {}, []);
    IntendedCreatesAll(snapshot, st0, v, creates);
    assert RunVersions(TableNameField, snapshot, lists, v, v) == Ok(st0);
  }
}
