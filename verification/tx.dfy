/** The transaction coordinator: a driver transaction, the directory files
    are saved into, and the ledger of files saved so far, which Rollback
    deletes before rolling back the driver transaction. */
module Tx {
  import opened Base
  import opened Files
  import opened Driver

  /** The files left after a compensation and the removal failure that stopped it, if any. */
  datatype Removal = Removal(files: set<Path>, failure: Option<Error>)

  /** The ledger's files inside `dir`. */
  function LedgerPaths(dir: string, names: seq<string>): set<Path> {
    set n | n in names :: Path(dir, n)
  }

  /** Removes the files of `names` from `dir` one after the other, in ledger
      order, and stops at the first removal that fails. Only ledger files
      are ever removed, and an empty ledger cannot fail. */
  function Compensate(files: set<Path>, faulty: map<Path, Error>, dir: string, names: seq<string>): (r: Removal)
    ensures r.files <= files && files - r.files <= LedgerPaths(dir, names)
    ensures r.failure != None ==> names != []
    decreases |names|
  {
    if names == [] then Removal(files, None)
    else
      assert LedgerPaths(dir, names) == {Path(dir, names[0])} + LedgerPaths(dir, names[1..]);
      match RemoveOne(files, faulty, Path(dir, names[0]))
      case Failure(e) => Removal(files, Some(e))
      case Success(rest) => Compensate(rest, faulty, dir, names[1..])
  }

  /** What Rollback returns: the first removal failure, or else what the
      driver's rollback returns. */
  function RollbackOutcome(files: set<Path>, faulty: map<Path, Error>, dir: string, names: seq<string>,
                           handleFault: Option<Error>): (r: Option<Error>)
    ensures r == None <==> Compensate(files, faulty, dir, names).failure == None && handleFault == None
    ensures Compensate(files, faulty, dir, names).failure != None ==> r == Compensate(files, faulty, dir, names).failure
  {
    var c := Compensate(files, faulty, dir, names);
    if c.failure.Some? then c.failure else handleFault
  }

  /** The error a failed Run or save reports once its rollback is done. */
  function Compound(rollbackErr: Option<Error>, triggeredBy: Error): (r: Error)
    ensures rollbackErr == None ==> r == triggeredBy
    ensures rollbackErr != None ==> r.RollbackError? && r.err == rollbackErr.value && r.triggeredBy == triggeredBy
  {
    match rollbackErr
    case None => triggeredBy
    case Some(e) => RollbackError(e, triggeredBy)
  }

  /** Compensation succeeds exactly when every ledger file exists, can be
      removed, and appears in the ledger only once. */
  lemma {:induction false} CompensateSucceedsIff(files: set<Path>, faulty: map<Path, Error>, dir: string, names: seq<string>)
    ensures Compensate(files, faulty, dir, names).failure == None <==>
            && (forall i :: 0 <= i < |names| ==> Path(dir, names[i]) in files && Path(dir, names[i]) !in faulty)
            && (forall i, j :: 0 <= i < j < |names| ==> names[i] != names[j])
    decreases |names|
  {
    if names != [] {
      var p := Path(dir, names[0]);
      var rest := names[1..];
      if p in files && p !in faulty {
        CompensateSucceedsIff(files - {p}, faulty, dir, rest);
        var allOk := (forall i :: 0 <= i < |names| ==> Path(dir, names[i]) in files && Path(dir, names[i]) !in faulty)
                     && (forall i, j :: 0 <= i < j < |names| ==> names[i] != names[j]);
        var restOk := (forall i :: 0 <= i < |rest| ==> Path(dir, rest[i]) in files - {p} && Path(dir, rest[i]) !in faulty)
                      && (forall i, j :: 0 <= i < j < |rest| ==> rest[i] != rest[j]);
        if allOk {
          forall i | 0 <= i < |rest|
            ensures Path(dir, rest[i]) in files - {p}
          {
            assert names[i + 1] == rest[i];
            assert names[0] != names[i + 1];
          }
          forall i, j | 0 <= i < j < |rest|
            ensures rest[i] != rest[j]
          {
            assert names[i + 1] == rest[i] && names[j + 1] == rest[j];
          }
        }
        if restOk {
          forall i, j | 0 <= i < j < |names|
            ensures names[i] != names[j]
          {
            if i == 0 {
              assert names[j] == rest[j - 1];
              assert Path(dir, rest[j - 1]) != p;
            } else {
              assert names[i] == rest[i - 1] && names[j] == rest[j - 1];
            }
          }
          forall i | 0 <= i < |names|
            ensures Path(dir, names[i]) in files && Path(dir, names[i]) !in faulty
          {
            if i > 0 {
              assert names[i] == rest[i - 1];
            }
          }
        }
      } else {
        assert !(Path(dir, names[0]) in files && Path(dir, names[0]) !in faulty);
      }
    }
  }

  /** A compensation that succeeds deletes exactly the ledger's files. */
  lemma {:induction false} CompensateSuccessClearsLedger(files: set<Path>, faulty: map<Path, Error>, dir: string, names: seq<string>)
    requires Compensate(files, faulty, dir, names).failure == None
    ensures Compensate(files, faulty, dir, names).files == files - LedgerPaths(dir, names)
    ensures forall i :: 0 <= i < |names| ==> Path(dir, names[i]) !in Compensate(files, faulty, dir, names).files
    decreases |names|
  {
    if names != [] {
      var p := Path(dir, names[0]);
      var rest := names[1..];
      assert RemoveOne(files, faulty, p) == Success(files - {p});
      CompensateSuccessClearsLedger(files - {p}, faulty, dir, rest);
      assert names == [names[0]] + rest;
      assert LedgerPaths(dir, names) == {p} + LedgerPaths(dir, rest);
      forall i | 0 <= i < |names|
        ensures Path(dir, names[i]) in LedgerPaths(dir, names)
      {
        assert names[i] in names;
      }
    }
  }

  /** A compensation that fails stops at some ledger position k: the files
      before k are removed, removing file k fails with the reported error,
      and no later file is touched. */
  lemma {:induction false} CompensateFailureStopsAtFirst(files: set<Path>, faulty: map<Path, Error>, dir: string, names: seq<string>)
    requires Compensate(files, faulty, dir, names).failure != None
    ensures exists k :: 0 <= k < |names|
              && Compensate(files, faulty, dir, names).files == files - LedgerPaths(dir, names[..k])
              && RemoveOne(Compensate(files, faulty, dir, names).files, faulty, Path(dir, names[k]))
                 == Failure(Compensate(files, faulty, dir, names).failure.value)
    decreases |names|
  {
    var c := Compensate(files, faulty, dir, names);
    var p := Path(dir, names[0]);
    var rest := names[1..];
    match RemoveOne(files, faulty, p)
    case Failure(e) =>
      assert names[..0] == [];
      assert LedgerPaths(dir, names[..0]) == {};
      assert c.files == files - LedgerPaths(dir, names[..0]);
    case Success(after) =>
      CompensateFailureStopsAtFirst(after, faulty, dir, rest);
      var k :| 0 <= k < |rest|
               && Compensate(after, faulty, dir, rest).files == after - LedgerPaths(dir, rest[..k])
               && RemoveOne(Compensate(after, faulty, dir, rest).files, faulty, Path(dir, rest[k]))
                  == Failure(Compensate(after, faulty, dir, rest).failure.value);
      assert names[..k + 1] == [names[0]] + rest[..k];
      assert LedgerPaths(dir, names[..k + 1]) == {p} + LedgerPaths(dir, rest[..k]);
      assert names[k + 1] == rest[k];
      assert c.files == files - LedgerPaths(dir, names[..k + 1]);
  }

  /** A ledger entry whose removal must fail (its file is missing, or an
      earlier entry already removed it) makes the compensation fail, and
      every file named only later in the ledger is left in place. */
  lemma {:induction false} FailingEntryStrandsLaterFiles(files: set<Path>, faulty: map<Path, Error>, dir: string,
                                                         names: seq<string>, j: nat, k: nat)
    requires j < k < |names|
    requires Path(dir, names[j]) !in files || exists i :: 0 <= i < j && names[i] == names[j]
    requires Path(dir, names[k]) in files && names[k] !in names[..k]
    ensures Compensate(files, faulty, dir, names).failure != None
    ensures Path(dir, names[k]) in Compensate(files, faulty, dir, names).files
    decreases |names|
  {
    var p := Path(dir, names[0]);
    assert names[0] in names[..k];
    match RemoveOne(files, faulty, p)
    case Failure(e) =>
    case Success(rest) =>
      var tail := names[1..];
      assert rest == files - {p};
      if j == 0 {
        assert false;
      }
      if exists i :: 0 <= i < j && names[i] == names[j] {
        var i :| 0 <= i < j && names[i] == names[j];
        if i == 0 {
          assert Path(dir, tail[j - 1]) !in rest;
        } else {
          assert tail[i - 1] == tail[j - 1];
        }
      } else {
        assert Path(dir, tail[j - 1]) !in rest;
      }
      assert tail[k - 1] == names[k];
      assert tail[..k - 1] == names[1..k];
      FailingEntryStrandsLaterFiles(rest, faulty, dir, tail, j - 1, k - 1);
  }

  /** Saving the same content twice puts its name twice in the ledger, and
      then Rollback cannot succeed: the second removal of that name finds no
      file, so the driver transaction is never rolled back. */
  lemma DuplicateLedgerEntryBlocksRollback(files: set<Path>, faulty: map<Path, Error>, dir: string, names: seq<string>,
                                          i: nat, j: nat, handleFault: Option<Error>)
    requires i < j < |names| && names[i] == names[j]
    ensures Compensate(files, faulty, dir, names).failure != None
    ensures RollbackOutcome(files, faulty, dir, names, handleFault) == Compensate(files, faulty, dir, names).failure
  {
    CompensateSucceedsIff(files, faulty, dir, names);
  }

  /** Rollback of a ledger whose files all exist, are removable and are
      distinct removes every one of them and returns the driver's rollback
      result. */
  lemma RollbackOfCleanLedger(files: set<Path>, faulty: map<Path, Error>, dir: string, names: seq<string>,
                              handleFault: Option<Error>)
    requires forall i :: 0 <= i < |names| ==> Path(dir, names[i]) in files && Path(dir, names[i]) !in faulty
    requires forall i, j :: 0 <= i < j < |names| ==> names[i] != names[j]
    ensures Compensate(files, faulty, dir, names) == Removal(files - LedgerPaths(dir, names), None)
    ensures RollbackOutcome(files, faulty, dir, names, handleFault) == handleFault
  {
    CompensateSucceedsIff(files, faulty, dir, names);
    CompensateSuccessClearsLedger(files, faulty, dir, names);
  }

  /** A failure that is not itself a RollbackError stays recognisable: the
      reported error is that failure unchanged when the rollback succeeded,
      and a RollbackError holding both causes when it did not. */
  lemma CompoundKeepsBothCauses(rollbackErr: Option<Error>, triggeredBy: Error)
    requires !triggeredBy.RollbackError?
    ensures Compound(rollbackErr, triggeredBy) == triggeredBy <==> rollbackErr == None
    ensures Compound(rollbackErr, triggeredBy).RollbackError? <==> rollbackErr != None
    ensures rollbackErr != None ==>
              Compound(rollbackErr, triggeredBy).err == rollbackErr.value
              && Compound(rollbackErr, triggeredBy).triggeredBy == triggeredBy
  {
  }

  class Transaction {
    const tx: MysqlTx
    const fs: FileSystem
    const filepath: string
    /** The ledger: names of the files saved so far, oldest first. */
    var savedFiles: seq<string>

    /** newTransaction */
    constructor (tx: MysqlTx, fs: FileSystem, filepath: string)
      ensures this.tx == tx && this.fs == fs && this.filepath == filepath
      ensures savedFiles == []
    {
      this.tx := tx;
      this.fs := fs;
      this.filepath := filepath;
      savedFiles := [];
    }

    /** The effect of one Rollback on the directory and the driver
        transaction, from the state before it to the state after it. */
    twostate predicate RolledBackFrom()
      reads this, tx, fs
    {
      var c := Compensate(old(fs.files), fs.faulty, filepath, savedFiles);
      && fs.files == c.files
      && tx.calls == old(tx.calls) + (if c.failure == None then [RollbackCall] else [])
      && tx.state == (if c.failure == None && tx.rollbackFault == None then RolledBack else old(tx.state))
    }

    method Commit() returns (err: Option<Error>)
      modifies tx
      ensures err == tx.commitFault
      ensures tx.calls == old(tx.calls) + [CommitCall]
      ensures tx.state == if tx.commitFault == None then Committed else old(tx.state)
      ensures savedFiles == old(savedFiles) && fs.files == old(fs.files)
    {
      err := tx.Commit();
    }

    method Rollback() returns (err: Option<Error>)
      modifies tx, fs
      ensures RolledBackFrom()
      ensures err == RollbackOutcome(old(fs.files), fs.faulty, filepath, savedFiles, tx.rollbackFault)
      ensures savedFiles == old(savedFiles)
    {
      var i := 0;
      while i < |savedFiles|
        invariant 0 <= i <= |savedFiles|
        invariant Compensate(old(fs.files), fs.faulty, filepath, savedFiles)
                  == Compensate(fs.files, fs.faulty, filepath, savedFiles[i..])
        invariant tx.calls == old(tx.calls) && tx.state == old(tx.state)
      {
        assert savedFiles[i..][0] == savedFiles[i] && savedFiles[i..][1..] == savedFiles[i + 1..];
        err := fs.Remove(Path(filepath, savedFiles[i]));
        if err != None {
          return;
        }
        i := i + 1;
      }
      err := tx.Rollback();
    }

    /** Runs a statement inside the transaction; `answer` is what the driver
        returns for it. A failure triggers one Rollback. */
    method Run(s: Stmt, params: seq<string>, answer: Result<SqlResult>) returns (r: Result<SqlResult>)
      modifies tx, fs
      ensures savedFiles == old(savedFiles)
      ensures answer.Success? ==> r == answer && unchanged(tx) && fs.files == old(fs.files)
      ensures answer.Failure? ==>
                && RolledBackFrom()
                && r == Failure(Compound(RollbackOutcome(old(fs.files), fs.faulty, filepath, savedFiles, tx.rollbackFault),
                                         answer.error))
    {
      if answer.Failure? {
        var rollbackErr := Rollback();
        return Failure(Compound(rollbackErr, answer.error));
      }
      r := answer;
    }

    /** Saves a file into the transaction's directory; `saved` is what the
        file saver returns (on success it has written the file). The name
        enters the ledger only on success; a failure triggers one Rollback. */
    method SaveFile(saved: Result<string>) returns (r: Result<string>)
      modifies this, tx, fs
      ensures saved.Success? ==>
                && r == saved
                && savedFiles == old(savedFiles) + [saved.value]
                && fs.files == old(fs.files) + {Path(filepath, saved.value)}
                && unchanged(tx)
      ensures saved.Failure? ==>
                && savedFiles == old(savedFiles)
                && RolledBackFrom()
                && r == Failure(Compound(RollbackOutcome(old(fs.files), fs.faulty, filepath, savedFiles, tx.rollbackFault),
                                         saved.error))
    {
      if saved.Failure? {
        var rollbackErr := Rollback();
        return Failure(Compound(rollbackErr, saved.error));
      }
      fs.Write(Path(filepath, saved.value));
      savedFiles := savedFiles + [saved.value];
      r := saved;
    }
  }

  /** A file saved, then a statement that fails: the error comes back as it
      was, the saved file is gone and the driver transaction is rolled back. */
  method SaveThenFailedRunRollsBack(dir: string, name: string, runErr: Error) returns (r: Result<SqlResult>, gone: bool, state: TxState)
    ensures r == Failure(runErr) && gone && state == RolledBack
  {
    var handle := new MysqlTx(None, None);
    var fs := new FileSystem({}, map[]);
    var t := new Transaction(handle, fs, dir);
    var saved := t.SaveFile(Success(name));
    assert t.savedFiles == [name];
    RollbackOfCleanLedger(fs.files, fs.faulty, dir, t.savedFiles, None);
    r := t.Run(Stmt("insert"), [], Failure(runErr));
    gone := Path(dir, name) !in fs.files;
    state := handle.state;
  }

  /** A file saved, then a save that fails: the save error comes back as it
      was, nothing is added to the ledger, the first file is gone and the
      driver transaction is rolled back. */
  method SaveThenFailedSaveRollsBack(dir: string, name: string, saveErr: Error)
    returns (r: Result<string>, ledger: seq<string>, gone: bool, state: TxState)
    ensures r == Failure(saveErr) && ledger == [name] && gone && state == RolledBack
  {
    var handle := new MysqlTx(None, None);
    var fs := new FileSystem({}, map[]);
    var t := new Transaction(handle, fs, dir);
    var saved := t.SaveFile(Success(name));
    RollbackOfCleanLedger(fs.files, fs.faulty, dir, t.savedFiles, None);
    r := t.SaveFile(Failure(saveErr));
    ledger := t.savedFiles;
    gone := Path(dir, name) !in fs.files;
    state := handle.state;
  }
}
