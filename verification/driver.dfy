/** The MySQL driver as the core sees it: a transaction handle with Commit
    and Rollback, and a connection to a server that holds a set of databases,
    a current database and the unread results of a multi-statement script.
    Whether a call fails is decided by the handle's recorded faults or by the
    server's state; what a statement or script returns is handed in. */
module Driver {
  import opened Base

  datatype TxState = Open | Committed | RolledBack

  /** A call the core made on a transaction handle. */
  datatype TxCall = CommitCall | RollbackCall

  /** A prepared statement. */
  datatype Stmt = Stmt(sql: string)

  /** What a successful statement reports. */
  datatype SqlResult = SqlResult(affectedRows: nat, insertId: nat)

  /** The driver's transaction handle (mysql.Transaction). */
  class MysqlTx {
    var state: TxState
    /** Every Commit and Rollback made on this handle, in order. */
    var calls: seq<TxCall>
    /** What Commit and Rollback fail with, if they fail. */
    const commitFault: Option<Error>
    const rollbackFault: Option<Error>

    constructor (commitFault: Option<Error>, rollbackFault: Option<Error>)
      ensures state == Open && calls == []
      ensures this.commitFault == commitFault && this.rollbackFault == rollbackFault
    {
      state := Open;
      calls := [];
      this.commitFault := commitFault;
      this.rollbackFault := rollbackFault;
    }

    method Commit() returns (err: Option<Error>)
      modifies this
      ensures err == commitFault
      ensures calls == old(calls) + [CommitCall]
      ensures state == if commitFault == None then Committed else old(state)
    {
      calls := calls + [CommitCall];
      if commitFault == None {
        state := Committed;
      }
      err := commitFault;
    }

    method Rollback() returns (err: Option<Error>)
      modifies this
      ensures err == rollbackFault
      ensures calls == old(calls) + [RollbackCall]
      ensures state == if rollbackFault == None then RolledBack else old(state)
    {
      calls := calls + [RollbackCall];
      if rollbackFault == None {
        state := RolledBack;
      }
      err := rollbackFault;
    }
  }

  /** A connection (mysql.Conn) together with the server behind it. */
  class Conn {
    /** Names of the databases the server holds. */
    var databases: set<string>
    /** The connection's current database, `select DATABASE()`. */
    var current: Option<string>
    /** Outcomes of the results of a started script not read yet; while any
        remain, the connection refuses other queries. */
    var pending: seq<Option<Error>>
    /** What CREATE DATABASE, USE and DROP DATABASE of an acceptable name fail
        with (privileges, disk, lost connection), if they fail. */
    const createFault: Option<Error>
    const useFault: Option<Error>
    const dropFault: Option<Error>

    constructor (databases: set<string>, createFault: Option<Error>, useFault: Option<Error>, dropFault: Option<Error>)
      ensures this.databases == databases && current == None && pending == []
      ensures this.createFault == createFault && this.useFault == useFault && this.dropFault == dropFault
    {
      this.databases := databases;
      current := None;
      pending := [];
      this.createFault := createFault;
      this.useFault := useFault;
      this.dropFault := dropFault;
    }

    /** CREATE DATABASE `name` */
    method CreateDatabase(name: string) returns (err: Option<Error>)
      modifies this
      ensures pending == old(pending) && current == old(current)
      ensures old(pending) != [] ==> err == Some(Busy) && databases == old(databases)
      ensures old(pending) == [] && name in old(databases) ==>
                err == Some(DatabaseExists(name)) && databases == old(databases)
      ensures old(pending) == [] && name !in old(databases) && createFault != None ==>
                err == createFault && databases == old(databases)
      ensures old(pending) == [] && name !in old(databases) && createFault == None ==>
                err == None && databases == old(databases) + {name}
    {
      if pending != [] {
        err := Some(Busy);
      } else if name in databases {
        err := Some(DatabaseExists(name));
      } else if createFault != None {
        err := createFault;
      } else {
        databases := databases + {name};
        err := None;
      }
    }

    /** DROP DATABASE `name`; dropping the current database leaves the
        connection without one. */
    method DropDatabase(name: string) returns (err: Option<Error>)
      modifies this
      ensures pending == old(pending)
      ensures old(pending) != [] ==> err == Some(Busy) && unchanged(this)
      ensures old(pending) == [] && name !in old(databases) ==>
                err == Some(NoSuchDatabase(name)) && unchanged(this)
      ensures old(pending) == [] && name in old(databases) && dropFault != None ==>
                err == dropFault && unchanged(this)
      ensures old(pending) == [] && name in old(databases) && dropFault == None ==>
                && err == None
                && databases == old(databases) - {name}
                && current == if old(current) == Some(name) then None else old(current)
    {
      if pending != [] {
        err := Some(Busy);
      } else if name !in databases {
        err := Some(NoSuchDatabase(name));
      } else if dropFault != None {
        err := dropFault;
      } else {
        databases := databases - {name};
        if current == Some(name) {
          current := None;
        }
        err := None;
      }
    }

    /** USE `name` */
    method Use(name: string) returns (err: Option<Error>)
      modifies this
      ensures pending == old(pending) && databases == old(databases)
      ensures old(pending) != [] ==> err == Some(Busy) && current == old(current)
      ensures old(pending) == [] && name !in databases ==>
                err == Some(UnknownDatabase(name)) && current == old(current)
      ensures old(pending) == [] && name in databases && useFault != None ==>
                err == useFault && current == old(current)
      ensures old(pending) == [] && name in databases && useFault == None ==>
                err == None && current == Some(name)
    {
      if pending != [] {
        err := Some(Busy);
      } else if name !in databases {
        err := Some(UnknownDatabase(name));
      } else if useFault != None {
        err := useFault;
      } else {
        current := Some(name);
        err := None;
      }
    }

    /** Sends a multi-statement script. `reply` is the server's answer: the
        failure of the first statement, or the outcomes of the results that
        follow the first one. */
    method Start(script: string, reply: Result<seq<Option<Error>>>) returns (err: Option<Error>)
      modifies this
      ensures databases == old(databases) && current == old(current)
      ensures old(pending) != [] ==> err == Some(Busy) && pending == old(pending)
      ensures old(pending) == [] && reply.Failure? ==> err == Some(reply.error) && pending == []
      ensures old(pending) == [] && reply.Success? ==> err == None && pending == reply.value
    {
      if pending != [] {
        err := Some(Busy);
      } else if reply.Failure? {
        err := Some(reply.error);
      } else {
        pending := reply.value;
        err := None;
      }
    }

    /** res.MoreResults() */
    predicate MoreResults()
      reads this
    {
      pending != []
    }

    /** res.NextResult(): reads one more result and reports its outcome. A
        failing statement ends the script, so the server sends nothing after it. */
    method NextResult() returns (err: Option<Error>)
      modifies this
      ensures databases == old(databases) && current == old(current)
      ensures old(pending) == [] ==> err == None && pending == []
      ensures old(pending) != [] ==> err == old(pending)[0]
      ensures old(pending) != [] ==> pending == if err == None then old(pending)[1..] else []
    {
      if pending == [] {
        err := None;
      } else {
        err := pending[0];
        pending := if err == None then pending[1..] else [];
      }
    }
  }
}
