/** The database front end: it owns the provisioned MySQL database and the
    directory files are saved into, opens transactions over them, and runs
    actions by handing each valid action to the executor bound to its type. */
module Db {
  import opened Base
  import opened Files
  import opened Driver
  import Mysql
  import Tx

  /** The value an executor returns (an `interface{}`). */
  datatype Reply = Reply(data: string)

  /** An action: the name of its type, its content, and what its own
      IsValid check returns. */
  datatype Action = Action(typeName: string, payload: string, validity: Option<Error>)

  function IsValid(a: Action): Option<Error> {
    a.validity
  }

  /** ExecuteWith of the executor for one action type. */
  type Executor = Action -> Result<Reply>

  /** A Database. `executors` stands for the struct's fields that are named
      after action types and hold their executors. */
  datatype Database = Database(mysqlDb: Mysql.MysqlDatabase, filepath: string, executors: map<string, Executor>)

  /** PrepareActions binds nothing and never fails. */
  function PrepareActions(db: Database): (r: Option<Error>)
    ensures r == None
  {
    None
  }

  /** NewDatabase: the struct declares no executor fields, so the registry is empty. */
  function NewDatabase(mysqlDb: Mysql.MysqlDatabase, filepath: string): (r: Result<Database>)
    ensures r.Success?
    ensures r.value.mysqlDb == mysqlDb && r.value.filepath == filepath && r.value.executors == map[]
  {
    var db := Database(mysqlDb, filepath, map[]);
    match PrepareActions(db)
    case None => Success(db)
    case Some(e) => Failure(e)
  }

  /** The directory files are saved into. */
  function Filepath(db: Database): (r: string)
    ensures r == db.filepath
  {
    db.filepath
  }

  /** Filepath returns the directory the database was made with. */
  lemma FilepathOfNewDatabase(mysqlDb: Mysql.MysqlDatabase, filepath: string)
    ensures NewDatabase(mysqlDb, filepath).Success?
    ensures Filepath(NewDatabase(mysqlDb, filepath).value) == filepath
  {
  }

  /** Execute: validation first, then the executor bound to the action's
      type. An action whose type has no executor fails with
      UnknownActionType. */
  function Execute(db: Database, a: Action): (r: Result<Reply>)
    ensures IsValid(a) != None ==> r == Failure(IsValid(a).value)
    ensures IsValid(a) == None && a.typeName !in db.executors ==> r == Failure(UnknownActionType(a.typeName))
  {
    match IsValid(a)
    case Some(e) => Failure(e)
    case None =>
      if a.typeName in db.executors then db.executors[a.typeName](a)
      else Failure(UnknownActionType(a.typeName))
  }

  /** An invalid action reaches no executor: its result is the same whatever
      the registry holds. */
  lemma InvalidActionReachesNoExecutor(db1: Database, db2: Database, a: Action)
    requires IsValid(a) != None
    ensures Execute(db1, a) == Execute(db2, a) == Failure(IsValid(a).value)
  {
  }

  /** A valid action's result is the answer of the executor bound to its
      type and depends on no other executor. */
  lemma ValidActionDispatchesByType(db1: Database, db2: Database, a: Action)
    requires IsValid(a) == None
    requires a.typeName in db1.executors
    requires a.typeName in db2.executors ==> db2.executors[a.typeName](a) == db1.executors[a.typeName](a)
    ensures Execute(db1, a) == db1.executors[a.typeName](a)
    ensures a.typeName in db2.executors ==> Execute(db2, a) == Execute(db1, a)
    ensures a.typeName !in db2.executors ==> Execute(db2, a) == Failure(UnknownActionType(a.typeName))
  {
  }

  /** A database made by NewDatabase has no executor, so every valid action
      fails with UnknownActionType and every invalid one with its own error. */
  lemma NewDatabaseDispatchesNothing(mysqlDb: Mysql.MysqlDatabase, filepath: string, a: Action)
    ensures Execute(NewDatabase(mysqlDb, filepath).value, a)
            == if IsValid(a) == None then Failure(UnknownActionType(a.typeName)) else Failure(IsValid(a).value)
  {
  }

  /** Begin: `begun` is what the connection's Begin returned. */
  method Begin(db: Database, fs: FileSystem, begun: Result<MysqlTx>) returns (r: Result<Tx.Transaction>)
    ensures begun.Failure? ==> r == Failure(begun.error)
    ensures begun.Success? ==>
              && r.Success? && fresh(r.value)
              && r.value.tx == begun.value
              && r.value.fs == fs
              && r.value.filepath == db.filepath
              && r.value.savedFiles == []
  {
    if begun.Failure? {
      return Failure(begun.error);
    }
    var t := new Tx.Transaction(begun.value, fs, db.filepath);
    r := Success(t);
  }
}
