/** Uniquely named databases: a name built from a basename and a random
    hex suffix, created and dropped on a connection's server, and a schema
    script that may be applied once. */
module Mysql {
  import opened Base
  import opened Driver

  type byte = x: int | 0 <= x < 256

  /** Number of random bytes behind a suffix. */
  const SuffixBytes: nat := 16

  predicate IsHexChar(c: char) {
    '0' <= c <= '9' || 'a' <= c <= 'f'
  }

  predicate IsLowerHex(s: string) {
    forall i :: 0 <= i < |s| ==> IsHexChar(s[i])
  }

  function HexDigit(d: nat): (c: char)
    requires d < 16
    ensures IsHexChar(c)
  {
    if d < 10 then ('0' as int + d) as char else ('a' as int + d - 10) as char
  }

  function HexValue(c: char): (v: Option<nat>)
    ensures v.Some? <==> IsHexChar(c)
    ensures v.Some? ==> v.value < 16 && HexDigit(v.value) == c
  {
    if '0' <= c <= '9' then Some(c as int - '0' as int)
    else if 'a' <= c <= 'f' then Some(c as int - 'a' as int + 10)
    else None
  }

  /** hex.EncodeToString: two lower-case hex digits per byte, high nibble first. */
  function HexEncode(bs: seq<byte>): (s: string)
    ensures |s| == 2 * |bs|
    ensures IsLowerHex(s)
  {
    if bs == [] then ""
    else [HexDigit(bs[0] / 16), HexDigit(bs[0] % 16)] + HexEncode(bs[1..])
  }

  /** The inverse of HexEncode: None for odd length or a non-hex character. */
  function HexDecode(s: string): Option<seq<byte>>
    decreases |s|
  {
    if |s| == 0 then Some([])
    else if |s| == 1 then None
    else
      match (HexValue(s[0]), HexValue(s[1]), HexDecode(s[2..]))
      case (Some(hi), Some(lo), Some(rest)) => Some([hi * 16 + lo] + rest)
      case _ => None
  }

  /** Decoding an encoding gives the bytes back. */
  lemma {:induction false} HexRoundTrip(bs: seq<byte>)
    ensures HexDecode(HexEncode(bs)) == Some(bs)
  {
    if bs != [] {
      var b := bs[0];
      var s := HexEncode(bs);
      HexRoundTrip(bs[1..]);
      assert s[0] == HexDigit(b / 16) && s[1] == HexDigit(b % 16);
      assert s[2..] == HexEncode(bs[1..]);
      assert HexValue(s[0]) == Some(b / 16);
      assert HexValue(s[1]) == Some(b % 16);
      assert [b] + bs[1..] == bs;
    }
  }

  /** Distinct byte strings have distinct encodings. */
  lemma HexEncodeInjective(a: seq<byte>, b: seq<byte>)
    requires HexEncode(a) == HexEncode(b)
    ensures a == b
  {
    HexRoundTrip(a);
    HexRoundTrip(b);
  }

  /** What genSuffix returns: a suffix and an error, either of which may be empty. */
  datatype Suffix = Suffix(value: string, err: Option<Error>)

  /** genSuffix, given what the random source did with the 16-byte buffer:
      filled `buf`, reported `n` bytes read, and returned `readErr`. */
  function GenSuffix(buf: seq<byte>, n: nat, readErr: Option<Error>): (r: Suffix)
    requires |buf| == SuffixBytes
    ensures n == SuffixBytes && readErr == None ==>
              && r.err == None
              && |r.value| == 2 * SuffixBytes
              && IsLowerHex(r.value)
              && HexDecode(r.value) == Some(buf)
    ensures !(n == SuffixBytes && readErr == None) ==> r.value == "" && r.err == readErr
  {
    if n != |buf| || readErr != None then Suffix("", readErr)
    else HexRoundTrip(buf); Suffix(HexEncode(buf), None)
  }

  /** The name of a provisioned database: the basename, an underscore, the suffix. */
  function DatabaseName(basename: string, suffix: string): (r: string)
    ensures |r| == |basename| + 1 + |suffix|
    ensures r[..|basename|] == basename && r[|basename|] == '_' && r[|basename| + 1..] == suffix
  {
    basename + "_" + suffix
  }

  /** With suffixes of one length, two names are equal exactly when their
      basenames and their suffixes are. */
  lemma NamesEqualIff(b1: string, s1: string, b2: string, s2: string)
    requires |s1| == |s2|
    ensures DatabaseName(b1, s1) == DatabaseName(b2, s2) <==> b1 == b2 && s1 == s2
  {
    var n1, n2 := DatabaseName(b1, s1), DatabaseName(b2, s2);
    if n1 == n2 {
      assert |b1| == |b2|;
      assert b1 == n1[..|b1|] == n2[..|b2|] == b2;
      assert s1 == n1[|b1| + 1..] == n2[|b2| + 1..] == s2;
    }
  }

  /** Two full random reads that differ give two different database names
      for the same basename. */
  lemma DistinctReadsGiveDistinctNames(basename: string, buf1: seq<byte>, buf2: seq<byte>)
    requires |buf1| == SuffixBytes && |buf2| == SuffixBytes && buf1 != buf2
    ensures DatabaseName(basename, GenSuffix(buf1, SuffixBytes, None).value)
            != DatabaseName(basename, GenSuffix(buf2, SuffixBytes, None).value)
  {
    var s1, s2 := GenSuffix(buf1, SuffixBytes, None).value, GenSuffix(buf2, SuffixBytes, None).value;
    NamesEqualIff(basename, s1, basename, s2);
    if s1 == s2 {
      HexEncodeInjective(buf1, buf2);
    }
  }

  /** Reads results until none is left or one fails: the first failure, if
      any. A failure ends the script, so either way nothing is left unread. */
  function Drain(rs: seq<Option<Error>>): (r: Option<Error>)
    ensures r != None ==> r in rs
    ensures rs == [] ==> r == None
    decreases |rs|
  {
    if rs == [] then None
    else if rs[0] != None then rs[0]
    else Drain(rs[1..])
  }

  /** Draining succeeds exactly when every result succeeds. */
  lemma {:induction false} DrainSucceedsIff(rs: seq<Option<Error>>)
    ensures Drain(rs) == None <==> forall i :: 0 <= i < |rs| ==> rs[i] == None
    decreases |rs|
  {
    if rs != [] && rs[0] == None {
      DrainSucceedsIff(rs[1..]);
      assert forall i :: 1 <= i < |rs| ==> rs[i] == rs[1..][i - 1];
    }
  }

  /** A failed drain reports the first failing result, after results that
      all succeeded. */
  lemma {:induction false} DrainStopsAtFirstError(rs: seq<Option<Error>>)
    requires Drain(rs) != None
    ensures exists k :: 0 <= k < |rs|
              && rs[k] == Drain(rs)
              && (forall j :: 0 <= j < k ==> rs[j] == None)
    decreases |rs|
  {
    if rs[0] != None {
      assert rs[0] == Drain(rs);
    } else {
      var rest := rs[1..];
      DrainStopsAtFirstError(rest);
      var k :| 0 <= k < |rest| && rest[k] == Drain(rest)
               && (forall j :: 0 <= j < k ==> rest[j] == None);
      assert rs[k + 1] == rest[k];
      assert forall j :: 1 <= j < k + 1 ==> rs[j] == rest[j - 1];
    }
  }

  class MysqlDatabase {
    const conn: Conn
    const name: string
    /** The applied schema script; non-empty once a script has been applied. */
    var schema: string

    constructor (conn: Conn, name: string)
      ensures this.conn == conn && this.name == name && schema == ""
    {
      this.conn := conn;
      this.name := name;
      schema := "";
    }

    /** Creates the database and makes it the connection's current one. A
        failing USE leaves the database created but not current. */
    method Create() returns (err: Option<Error>)
      modifies conn
      ensures conn.pending == old(conn.pending)
      ensures old(conn.pending) != [] ==>
                err == Some(Busy) && conn.databases == old(conn.databases) && conn.current == old(conn.current)
      ensures old(conn.pending) == [] && name in old(conn.databases) ==>
                && err == Some(DatabaseExists(name))
                && conn.databases == old(conn.databases) && conn.current == old(conn.current)
      ensures old(conn.pending) == [] && name !in old(conn.databases) && conn.createFault != None ==>
                err == conn.createFault && conn.databases == old(conn.databases) && conn.current == old(conn.current)
      ensures old(conn.pending) == [] && name !in old(conn.databases) && conn.createFault == None ==>
                && conn.databases == old(conn.databases) + {name}
                && err == conn.useFault
                && conn.current == if conn.useFault == None then Some(name) else old(conn.current)
    {
      err := conn.CreateDatabase(name);
      if err != None {
        return;
      }
      err := conn.Use(name);
    }

    method Drop() returns (err: Option<Error>)
      modifies conn
      ensures conn.pending == old(conn.pending)
      ensures old(conn.pending) != [] ==> err == Some(Busy) && unchanged(conn)
      ensures old(conn.pending) == [] && name !in old(conn.databases) ==>
                err == Some(NoSuchDatabase(name)) && unchanged(conn)
      ensures old(conn.pending) == [] && name in old(conn.databases) && conn.dropFault != None ==>
                err == conn.dropFault && unchanged(conn)
      ensures old(conn.pending) == [] && name in old(conn.databases) && conn.dropFault == None ==>
                && err == None
                && conn.databases == old(conn.databases) - {name}
                && conn.current == if old(conn.current) == Some(name) then None else old(conn.current)
    {
      err := conn.DropDatabase(name);
    }

    /** Runs a schema script unless a non-empty one was applied before; every
        result of the script is read before the script is recorded. `reply`
        is the server's answer to the script. A script that started leaves
        no result unread, whether it succeeds or fails. */
    method SetSchema(script: string, reply: Result<seq<Option<Error>>>) returns (err: Option<Error>)
      modifies this, conn
      ensures conn.databases == old(conn.databases) && conn.current == old(conn.current)
      ensures schema == if err == None then script else old(schema)
      ensures old(schema) != "" ==> err == Some(SchemaAlreadySet) && conn.pending == old(conn.pending)
      ensures old(schema) == "" && old(conn.pending) != [] ==> err == Some(Busy) && conn.pending == old(conn.pending)
      ensures old(schema) == "" && old(conn.pending) == [] && reply.Failure? ==>
                err == Some(reply.error) && conn.pending == []
      ensures old(schema) == "" && old(conn.pending) == [] && reply.Success? ==>
                err == Drain(reply.value) && conn.pending == []
    {
      if schema != "" {
        return Some(SchemaAlreadySet);
      }
      err := conn.Start(script, reply);
      if err != None {
        return;
      }
      while conn.MoreResults()
        invariant conn.databases == old(conn.databases) && conn.current == old(conn.current)
        invariant schema == old(schema) == "" && err == None
        invariant old(conn.pending) == [] && reply.Success? && Drain(reply.value) == Drain(conn.pending)
        decreases |conn.pending|
      {
        err := conn.NextResult();
        if err != None {
          return;
        }
      }
      schema := script;
    }
  }

  /** newMysqlDatabase: `gen` is what the injected suffix generator returned. */
  method NewMysqlDatabaseWith(basename: string, conn: Conn, gen: Suffix) returns (r: Result<MysqlDatabase>)
    ensures gen.err != None ==> r == Failure(gen.err.value)
    ensures gen.err == None ==>
              && r.Success? && fresh(r.value)
              && r.value.conn == conn
              && r.value.name == DatabaseName(basename, gen.value)
              && r.value.schema == ""
  {
    if gen.err != None {
      return Failure(gen.err.value);
    }
    var db := new MysqlDatabase(conn, DatabaseName(basename, gen.value));
    r := Success(db);
  }

  /** NewMysqlDatabase: newMysqlDatabase with genSuffix, given what the
      random source did with the suffix buffer. */
  method NewMysqlDatabase(basename: string, conn: Conn, buf: seq<byte>, n: nat, readErr: Option<Error>)
    returns (r: Result<MysqlDatabase>)
    requires |buf| == SuffixBytes
    ensures readErr != None ==> r == Failure(readErr.value)
    ensures readErr == None ==> r.Success? && fresh(r.value) && r.value.conn == conn && r.value.schema == ""
    ensures readErr == None && n == SuffixBytes ==> r.Success? && r.value.name == DatabaseName(basename, HexEncode(buf))
    ensures readErr == None && n != SuffixBytes ==> r.Success? && r.value.name == DatabaseName(basename, "")
  {
    r := NewMysqlDatabaseWith(basename, conn, GenSuffix(buf, n, readErr));
  }

  /** Two databases built over one connection with the same fixed suffix get
      the same name, so the second Create fails while the first one's
      database stays current. */
  method FixedSuffixSecondCreateFails(basename: string, conn: Conn) returns (first: Option<Error>, second: Option<Error>)
    requires conn.pending == [] && DatabaseName(basename, "non-unique") !in conn.databases
    requires conn.createFault == None && conn.useFault == None
    modifies conn
    ensures first == None
    ensures second == Some(DatabaseExists(DatabaseName(basename, "non-unique")))
    ensures conn.current == Some(DatabaseName(basename, "non-unique"))
  {
    var db1 := NewMysqlDatabaseWith(basename, conn, Suffix("non-unique", None));
    var db2 := NewMysqlDatabaseWith(basename, conn, Suffix("non-unique", None));
    first := db1.value.Create();
    second := db2.value.Create();
  }
}
