/**
 * The DDL statements registered for one schema version: three lists, one per command
 * (create, alter, drop), filled by the generated `createTable`, `alterTable` and
 * `dropTable` methods in call order.
 */
module SchemaVersions {
  import opened Wrappers
  import opened Js

  /** The three DDL commands, in the order the migration runner processes them. */
  datatype Command = Create | Alter | Drop

  /** One list entry, recorded exactly as passed: `{tableName, config, cb}`. */
  datatype Statement = Statement(tableName: Value, config: Value, cb: Value)

  /** The key of each command in the generator's list `['create', 'alter', 'drop']`. */
  function CommandKey(cmd: Command): string {
    match cmd
    case Create => "create"
    case Alter => "alter"
    case Drop => "drop"
  }

  /** The method name generated for each command: `cmd + 'Table'`. */
  function MethodName(cmd: Command): (name: string)
    ensures name == CommandKey(cmd) + "Table"
    ensures |name| > 5 && name[|name| - 5..] == "Table"
  {
    match cmd
    case Create => "createTable"
    case Alter => "alterTable"
    case Drop => "dropTable"
  }

  /** The command a method name of a version wrapper denotes, if it is one of the generated ones. */
  function CommandOf(name: string): (cmd: Option<Command>)
    ensures cmd.Some? ==> MethodName(cmd.value) == name
    ensures forall c: Command :: MethodName(c) == name ==> cmd == Some(c)
  {
    match name
    case "createTable" => Some(Create)
    case "alterTable" => Some(Alter)
    case "dropTable" => Some(Drop)
    case _ => None
  }

  /** What calling a method of the version wrapper by name does. */
  datatype CallEffect = Appends(cmd: Command) | Reinitializes | NoEffect | NotAFunction

  /**
   * The generated appenders append to their list. `constructor` is `SchemaVersion`
   * itself, which, called on the wrapper, sets the three lists to new empty ones.
   * The other methods inherited from Object.prototype leave the lists alone. Any
   * other name, and `__proto__` (an object, not a function), throws a TypeError.
   */
  function EffectOf(name: string): (e: CallEffect)
    ensures e.Appends? <==> CommandOf(name).Some?
    ensures e.Appends? ==> e.cmd == CommandOf(name).value
    ensures e.NotAFunction? <==> CommandOf(name).None? && (name !in InheritedNames || name == "__proto__")
    ensures e.Reinitializes? <==> name == "constructor"
  {
    match CommandOf(name)
    case Some(cmd) => Appends(cmd)
    case None =>
      if name == "constructor" then Reinitializes
      else if name in InheritedNames && name != "__proto__" then NoEffect
      else NotAFunction
  }

  class SchemaVersion {
    var create: seq<Statement>
    var alter: seq<Statement>
    var drop: seq<Statement>

    /** A new version wrapper: all three lists are empty. */
    constructor()
      ensures create == [] && alter == [] && drop == []
    {
      create := [];
      alter := [];
      drop := [];
    }

    /** `this.constructor()`: the constructor run again on the wrapper empties all three lists. */
    method Reinitialize()
      modifies this
      ensures create == [] && alter == [] && drop == []
    {
      create := [];
      alter := [];
      drop := [];
    }

    /**
     * `createTable`/`alterTable`/`dropTable(tableName, callback, storeConfig)`: appends one
     * entry to the command's own list, leaves the other two lists alone and returns
     * the same wrapper, so chained calls keep their order.
     */
    method Append(cmd: Command, tableName: Value, callback: Value, storeConfig: Value) returns (self: SchemaVersion)
      modifies this
      ensures self == this
      ensures create == old(create) + (if cmd == Create then [Statement(tableName, storeConfig, callback)] else [])
      ensures alter == old(alter) + (if cmd == Alter then [Statement(tableName, storeConfig, callback)] else [])
      ensures drop == old(drop) + (if cmd == Drop then [Statement(tableName, storeConfig, callback)] else [])
    {
      var entry := Statement(tableName, storeConfig, callback);
      match cmd {
        case Create => create := create + [entry];
        case Alter => alter := alter + [entry];
        case Drop => drop := drop + [entry];
      }
      self := this;
    }
  }
}
