/** Values shared by every part of the model: optional values, results,
    file paths and the errors the core produces or passes along. */
module Base {

  datatype Option<+T> = None | Some(value: T)

  /** A Go `(value, error)` pair where exactly one side is meaningful. */
  datatype Result<+T> = Success(value: T) | Failure(error: Error)

  /** The file `name` inside directory `dir`, as `path.Join(dir, name)` names it
      for a plain file name (no separator, no "." or ".."). */
  datatype Path = Path(dir: string, name: string)

  datatype Error =
    | Opaque(msg: string)                  // raised outside the core: driver, OS, random source, executor, validity check
    | NotExist(path: Path)                 // os.Remove of a path that holds no file
    | DatabaseExists(name: string)         // CREATE DATABASE of a name the server already has
    | NoSuchDatabase(name: string)         // DROP DATABASE of a name the server does not have
    | UnknownDatabase(name: string)        // USE of a name the server does not have
    | Busy                                 // the connection still holds unread results of a script
    | SchemaAlreadySet                     // errors.New("schema already set")
    | UnknownActionType(typeName: string)  // no executor is bound to an action's type
    | RollbackError(err: Error, triggeredBy: Error)

  /** The text `Error()` gives; a RollbackError prints "<rollback error> after <triggering error>". */
  function Message(e: Error): (r: string)
    ensures e.Opaque? ==> r == e.msg
    ensures e == SchemaAlreadySet ==> r == "schema already set"
    ensures e.RollbackError? ==> r == Message(e.err) + " after " + Message(e.triggeredBy)
  {
    match e
    case Opaque(msg) => msg
    case NotExist(p) => "remove " + p.dir + "/" + p.name + ": no such file or directory"
    case DatabaseExists(name) => "Can't create database '" + name + "'; database exists"
    case NoSuchDatabase(name) => "Can't drop database '" + name + "'; database doesn't exist"
    case UnknownDatabase(name) => "Unknown database '" + name + "'"
    case Busy => "reply is not completely read"
    case SchemaAlreadySet => "schema already set"
    case UnknownActionType(t) => "no executor for action type " + t
    case RollbackError(err, cause) => Message(err) + " after " + Message(cause)
  }

  /** A RollbackError's message carries both causes in full: the rollback's
      message as its prefix and the triggering error's as its suffix, so
      neither cause is ever collapsed into the other. */
  lemma RollbackMessageKeepsBoth(rollbackErr: Error, triggeredBy: Error)
    ensures var m := Message(RollbackError(rollbackErr, triggeredBy));
            && |m| == |Message(rollbackErr)| + 7 + |Message(triggeredBy)|
            && m[..|Message(rollbackErr)|] == Message(rollbackErr)
            && m[|m| - |Message(triggeredBy)|..] == Message(triggeredBy)
  {
  }
}
