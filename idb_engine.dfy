/**
 * The parts of the Indexed Database API that the wrapper calls and that decide its
 * observable behaviour: a database connection and the checks
 * `IDBDatabase.transaction(storeNames, mode)` makes before a transaction is created.
 */
module IdbEngine {
  import opened Wrappers

  /** An open connection: its name, its version and the names of its object stores. */
  datatype Database = Database(name: string, version: nat, objectStoreNames: seq<string>)

  /**
   * `db.transaction(scope, mode)` with a valid mode, on an open connection outside an
   * upgrade: a name that is not an object store throws NotFoundError, and an empty
   * scope throws InvalidAccessError.
   */
  function OpenTransaction(db: Database, scope: seq<string>): (r: Result<(), Exception>)
    ensures r.Ok? <==> scope != [] && forall name :: name in scope ==> name in db.objectStoreNames
    ensures r.Err? && (exists name :: name in scope && name !in db.objectStoreNames) ==> r.error.name == "NotFoundError"
    ensures r.Err? && scope == [] ==> r.error.name == "InvalidAccessError"
  {
    if exists i :: 0 <= i < |scope| && scope[i] !in db.objectStoreNames then
      Err(Exception("NotFoundError", "One of the specified object stores was not found."))
    else if scope == [] then
      Err(Exception("InvalidAccessError", "The storeNames parameter was empty."))
    else
      Ok(())
  }
}
