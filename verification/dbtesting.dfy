/** The test-database helper. Its type is a field-for-field copy of
    MysqlDatabase (the name field merely starts lower-case) with the same
    Create, Drop, SetSchema and suffix generator, so the model names
    MysqlDatabase for it and keeps only its own constructors. */
module DbTesting {
  import opened Base
  import opened Driver
  import opened Mysql

  type TestDatabase = MysqlDatabase

  /** newTestDatabase: `gen` is what the injected suffix generator returned. */
  method NewTestDatabaseWith(basename: string, conn: Conn, gen: Suffix) returns (r: Result<TestDatabase>)
    ensures gen.err != None ==> r == Failure(gen.err.value)
    ensures gen.err == None ==>
              && r.Success? && fresh(r.value)
              && r.value.conn == conn
              && r.value.name == DatabaseName(basename, gen.value)
              && r.value.schema == ""
  {
    r := NewMysqlDatabaseWith(basename, conn, gen);
  }

  /** NewTestDatabase: newTestDatabase with genSuffix, given what the random
      source did with the suffix buffer. */
  method NewTestDatabase(basename: string, conn: Conn, buf: seq<byte>, n: nat, readErr: Option<Error>)
    returns (r: Result<TestDatabase>)
    requires |buf| == SuffixBytes
    ensures readErr != None ==> r == Failure(readErr.value)
    ensures readErr == None ==> r.Success? && fresh(r.value) && r.value.conn == conn && r.value.schema == ""
    ensures readErr == None && n == SuffixBytes ==> r.Success? && r.value.name == DatabaseName(basename, HexEncode(buf))
    ensures readErr == None && n != SuffixBytes ==> r.Success? && r.value.name == DatabaseName(basename, "")
  {
    r := NewTestDatabaseWith(basename, conn, GenSuffix(buf, n, readErr));
  }

  /** A schema whose results all succeed is recorded, and a later SetSchema
      fails even with an empty script. */
  method SchemaCanOnlyBeSetOnce(basename: string, conn: Conn, gen: Suffix, script: string, results: seq<Option<Error>>)
    returns (first: Option<Error>, second: Option<Error>)
    requires gen.err == None && conn.pending == [] && script != ""
    requires forall i :: 0 <= i < |results| ==> results[i] == None
    modifies conn
    ensures first == None && second == Some(SchemaAlreadySet)
  {
    var r := NewTestDatabaseWith(basename, conn, gen);
    var db := r.value;
    DrainSucceedsIff(results);
    first := db.SetSchema(script, Success(results));
    second := db.SetSchema("", Success([]));
  }

  /** A created database exists and is current; once dropped it no longer
      exists. */
  method CreateThenDrop(basename: string, conn: Conn, gen: Suffix) returns (created: Option<Error>, existed: bool, dropped: Option<Error>)
    requires gen.err == None && conn.pending == [] && DatabaseName(basename, gen.value) !in conn.databases
    requires conn.createFault == None && conn.useFault == None && conn.dropFault == None
    modifies conn
    ensures created == None && existed && dropped == None
    ensures DatabaseName(basename, gen.value) !in conn.databases && conn.current == None
  {
    var r := NewTestDatabaseWith(basename, conn, gen);
    var db := r.value;
    created := db.Create();
    existed := db.name in conn.databases && conn.current == Some(db.name);
    dropped := db.Drop();
  }
}
