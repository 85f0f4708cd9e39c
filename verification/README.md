# Dual-resource transactions and throw-away MySQL databases, modelled in Dafny

This project models the core of a Go library (`github.com/ghthor/database`):

- **The transaction coordinator** (`tx.go`). A transaction wraps a MySQL
  transaction handle, a directory and a ledger of the files saved so far.
  A failed statement or a failed save triggers one rollback. The rollback
  deletes the ledger's files in order, then rolls back the MySQL
  transaction. A rollback that fails as well is reported as a
  `RollbackError` that carries both causes.
- **Uniquely named databases** (`mysql.go`, copied as `dbtesting/database.go`).
  A database is named `basename + "_" + hex(16 random bytes)`. It is created
  and made current, or dropped, on a connection. A schema script can be
  applied once; all of the script's results are read before the schema is
  recorded.
- **Action dispatch** (`database.go`). An action is validated first. A valid
  action then goes to the executor bound to its type name. `Begin` wraps a
  driver transaction in a fresh coordinator over the database's directory.

## Layout

| file | module | models |
|---|---|---|
| `base.dfy` | `Base` | `Option`, `Result`, `Path`, the errors, `RollbackError.Error()` |
| `files.dfy` | `Files` | the filesystem: which files exist, and which removals fail (`os.Remove`) |
| `driver.dfy` | `Driver` | the MySQL transaction handle and a connection to its server |
| `tx.dfy` | `Tx` | `tx.go` |
| `mysql.dfy` | `Mysql` | `mysql.go` |
| `dbtesting.dfy` | `DbTesting` | `dbtesting/database.go` |
| `database.dfy` | `Db` | `database.go` |

The outside world is modelled like this:

- **Filesystem.** A `FileSystem` object holds the set of existing files and a
  map of files whose removal fails, with the error each one fails with.
  Removing a missing file fails with `NotExist`, as `os.Remove` does.
- **Transaction handle.** A `MysqlTx` object records every `Commit` and
  `Rollback` made on it and its resulting state (`Open`, `Committed`,
  `RolledBack`). It also holds the error each of those two calls fails with,
  if any.
- **Connection.** A `Conn` object holds the server's database names, the
  current database and the unread results of a started script. It also holds
  the error that `CREATE DATABASE`, `USE` and `DROP DATABASE` each fail with
  for a reason other than the name, if any. A failing result ends a script:
  the server sends nothing after it.
- **Answers from outside the core** are parameters:
  - what a statement returns;
  - what the file saver returns (on success it has written the file);
  - what the random source put into the suffix buffer;
  - the server's reply to a schema script;
  - what the connection's `Begin` returns.

`dbtesting/database.go` is a field-for-field copy of `mysql.go`; only the
name field starts lower-case. The model therefore defines the database type
and its `Create`, `Drop`, `SetSchema` and `genSuffix` once, in `Mysql`.
`DbTesting.TestDatabase` is a synonym of `Mysql.MysqlDatabase`. The rows for
`Mysql.MysqlDatabase.Create`, `Drop`, `SetSchema` and `Mysql.GenSuffix` stand
equally for `dbtesting/database.go:17-23`, `:25-28`, `:30-49` and `:51-59`.

## Where the code departs from its evident intent

- **Terminal states.** A transaction is meant to accept no call after
  commit or rollback. The code checks nothing, so the model's `Run`,
  `SaveFile`, `Commit` and `Rollback` accept every call in every state.
  `Rollback` never clears the ledger.
- **Missing executor.** An action type with no executor is meant to be
  reported as an unknown action type. The code looks up a struct field by reflection and
  panics when there is none. The model returns the explicit
  `UnknownActionType` error. The `Database` struct declares no executor
  fields and `PrepareActions` binds none, so a database made by
  `NewDatabase` answers every valid action with that error
  (`Db.NewDatabaseDispatchesNothing`).
- **Short random read.** A short read of the random source is meant to be
  an error. With `crypto/rand` it cannot happen, because `rand.Read` reads in
  full and returns no error exactly when it filled the buffer. Against a
  reader without that promise the code returns `("", nil)` when fewer than 16 bytes are read
  but no error is reported. The database is then named `basename + "_"`.
  The model keeps this.
- **Empty schema script.** A second `SetSchema` is meant to always fail.
  The code only refuses once a non-empty script has been recorded, so
  an empty script does not lock the schema. The model keeps this.
- **Provisioning.** Naming a database and creating it are two steps,
  `newMysqlDatabase` and `Create`, and the model keeps them apart.

## Behaviour worth knowing

A saved file is named after the SHA-1 hex of its content plus its original
extension. Saving identical content with the same extension twice in one
transaction therefore puts the same file name in the ledger twice. `Rollback`
then removes that file once. The second removal finds no file and fails, and
`Rollback` returns that failure without ever rolling back the MySQL
transaction. `Tx.DuplicateLedgerEntryBlocksRollback` proves this for every
ledger that holds a name twice. Files saved after the repeated name are not
removed either: `Tx.FailingEntryStrandsLaterFiles` proves that every file
named only after such an entry stays on disk. With the ledger `a, a, b`,
`Rollback` returns the failure to remove `a`, `b` stays, and the MySQL
transaction is never rolled back.
`Tx.CompensateSucceedsIff` is the exact condition under which the file
deletions all succeed: every ledger file exists, none of them is
unremovable, and no name appears twice.

## Model

| member | source | states |
|---|---|---|
| `Base.Message` | tx.go:16-18 | a RollbackError's message is the rollback error's message, " after ", then the triggering error's message; a plain driver error keeps its own text, and the schema guard's error reads "schema already set" |
| `Base.RollbackMessageKeepsBoth` | tx.go:16-18 | a RollbackError's message holds the rollback error's message as its prefix and the triggering error's message as its suffix, in full |
| `Tx.Transaction.constructor` | tx.go:41-43 | a new transaction has an empty ledger and keeps exactly the given handle, filesystem and directory |
| `Tx.Transaction.Commit` | tx.go:45 | only the handle's Commit is called and its error returned; ledger and files are unchanged |
| `Tx.Transaction.Rollback` | tx.go:46-54 | the ledger's files are removed in order up to the first failing removal, which is returned without calling the handle's Rollback; if all removals succeed, the handle's Rollback is called once and its error returned; the ledger is never cleared |
| `Tx.Transaction.Run` | tx.go:56-68 | success returns the driver's result with handle and files untouched; failure does one Rollback and returns the original error, or RollbackError(rollback error, original) when the rollback failed |
| `Tx.Transaction.SaveFile` | tx.go:74-88 | success appends the name to the end of the ledger, adds the file and leaves the handle untouched; failure leaves the ledger alone, does one Rollback and returns the save error, or RollbackError carrying both |
| `Tx.Compensate` | tx.go:47-52 | the ledger-ordered deletion run removes only ledger files, never adds one, and cannot fail on an empty ledger |
| `Tx.RollbackOutcome` | tx.go:46-53 | Rollback reports no error exactly when every removal succeeds and the handle's rollback succeeds; a removal failure takes precedence over the handle |
| `Tx.Compound` | tx.go:60-65 | with no rollback error the original error is returned as is; otherwise a RollbackError carrying the rollback error and the original error |
| `Tx.CompensateSucceedsIff` | tx.go:46-53 | all deletions succeed if and only if every ledger file exists, is removable, and no name occurs twice |
| `Tx.CompensateSuccessClearsLedger` | tx.go:46-53 | when all deletions succeed, exactly the ledger's files are gone and every other file remains |
| `Tx.CompensateFailureStopsAtFirst` | tx.go:47-51 | a failing deletion run stops at a position k: files before k are removed, removing file k fails with the reported error, later files are untouched |
| `Tx.FailingEntryStrandsLaterFiles` | tx.go:47-52 | a ledger entry whose file is missing or was already removed by an earlier entry makes the deletions fail, and every file named only later in the ledger stays |
| `Tx.DuplicateLedgerEntryBlocksRollback` | tx.go:47-52 | a ledger holding a name twice always makes Rollback return a deletion error, so the handle's Rollback is skipped |
| `Tx.RollbackOfCleanLedger` | tx.go:46-53 | with distinct, existing, removable ledger files, Rollback removes exactly them and returns the handle's rollback result |
| `Tx.CompoundKeepsBothCauses` | tx.go:59-65 | the error reported after a rollback equals the original error exactly when the rollback succeeded, and otherwise is a RollbackError holding both causes |
| `Tx.SaveThenFailedRunRollsBack` | tx_test.go:82-105 | a saved file followed by a failing statement: the statement's error is returned, the file is gone, the handle is rolled back |
| `Tx.SaveThenFailedSaveRollsBack` | tx_test.go:108-123 | a saved file followed by a failing save: the save error is returned, the ledger keeps only the first name, that file is gone, the handle is rolled back |
| `Mysql.HexEncode` | mysql.go:58 | the encoding has two characters per byte, all lower-case hex digits |
| `Mysql.HexRoundTrip` | mysql.go:58 | decoding an encoding gives back the bytes |
| `Mysql.HexEncodeInjective` | mysql.go:58 | different byte strings encode differently |
| `Mysql.GenSuffix` | mysql.go:51-59 | a full read without error gives 32 lower-case hex characters that decode to the 16 bytes read; otherwise the suffix is empty and the read error (possibly none) is returned |
| `Mysql.DatabaseName` | mysql.go:67 | the name is the basename, then one underscore, then the suffix, each recoverable by position |
| `Mysql.NamesEqualIff` | mysql.go:67 | with equally long suffixes, two names are equal exactly when basename and suffix are |
| `Mysql.DistinctReadsGiveDistinctNames` | mysql_test.go:107-116 | different 16-byte reads give different names for one basename |
| `Mysql.Drain` | mysql.go:41-45 | the error of a script's results, if any, is one of the results, and a script with no results cannot fail |
| `Mysql.DrainSucceedsIff` | mysql.go:40-48 | reading a script's results succeeds exactly when every result succeeds |
| `Mysql.DrainStopsAtFirstError` | mysql.go:41-46 | a failed drain returns the error of a result that every earlier result preceded successfully, i.e. the first failing one |
| `Mysql.MysqlDatabase.Create` | mysql.go:17-23 | a busy connection, an existing name or a failing CREATE changes nothing and returns that error; otherwise the name is added, and it becomes current unless USE fails, whose error is then returned with the database left in place |
| `Mysql.MysqlDatabase.Drop` | mysql.go:25-28 | exactly this name leaves the server (no longer current if it was), or the driver's error comes back with nothing changed |
| `Mysql.MysqlDatabase.SetSchema` | mysql.go:30-49 | with a recorded non-empty schema it fails with SchemaAlreadySet and runs nothing; otherwise a start error or the first failing result is returned with the schema unrecorded; a started script leaves no result unread; the schema is recorded only when every result succeeded |
| `Mysql.NewMysqlDatabaseWith` | mysql.go:61-68 | a generator error is returned and no database made; otherwise a fresh database named basename + "_" + suffix with an empty schema |
| `Mysql.NewMysqlDatabase` | mysql.go:70-72 | a read error is returned; a full read names the database after the hex encoding of the bytes read |
| `Mysql.FixedSuffixSecondCreateFails` | mysql_test.go:118-134 | two databases with the same fixed suffix get one name; the first Create succeeds and the second fails with DatabaseExists |
| `DbTesting.NewTestDatabaseWith` | dbtesting/database.go:61-68 | a generator error is returned and no database made; otherwise a fresh database named basename + "_" + suffix with an empty schema |
| `DbTesting.NewTestDatabase` | dbtesting/database.go:70-72 | a read error is returned; a full read names the database after the hex encoding of the bytes read |
| `DbTesting.SchemaCanOnlyBeSetOnce` | dbtesting/database_integration_test.go:69-89 | after a non-empty schema whose results all succeed, SetSchema with an empty script fails with SchemaAlreadySet |
| `DbTesting.CreateThenDrop` | dbtesting/database_integration_test.go:42-67 | a created database exists and is current; after Drop it no longer exists |
| `Db.NewDatabase` | database.go:60-69 | never fails; keeps the MySQL database and the directory, and binds no executor |
| `Db.PrepareActions` | database.go:83-85 | binding the executors never fails |
| `Db.Filepath` | database.go:72 | the directory files are saved into is the one the database holds |
| `Db.FilepathOfNewDatabase` | database.go:72 | Filepath returns the directory NewDatabase was given |
| `Db.Execute` | database.go:87-95 | an invalid action returns its validation error; a valid action of an unbound type returns UnknownActionType |
| `Db.InvalidActionReachesNoExecutor` | database.go:87-91 | an invalid action's result is the same whatever executors are bound |
| `Db.ValidActionDispatchesByType` | database.go:93-94 | a valid action returns exactly what the executor bound to its type returns, whatever other executors exist |
| `Db.NewDatabaseDispatchesNothing` | database.go:83-94 | a database made by NewDatabase answers every valid action with UnknownActionType |
| `Db.Begin` | database.go:73-79 | a Begin error is returned with no transaction; otherwise a fresh transaction over the database's directory with an empty ledger |

## Left out

- `New` (database.go:19-37): the TCP connection to the server and the wiring from configuration are not modelled.
- `http.FileServer` in `NewDatabase`: it only serves files over HTTP.
- `MysqlConn()` and `MysqlDatabase()`: field getters with no logic.
- The package-level file saver (SHA-1 content naming, writing the bytes): it is not part of this model. Its answer is a parameter of `SaveFile`, and a success adds the named file. That the same content always gets the same name is therefore not modelled.
- `SaveFile` and `saveFile`: they are one method. The saver's answer stands for both the injected `savefn` and the package saver.
- Statement execution: the statement, its parameters and the rows it touches are not interpreted. The driver's answer is a parameter of `Run`, and the handle does not record the `Do` call. `UpdateResult.MatchedRows` is not part of this model.
- Schema scripts: their effect on tables is not modelled. Only the success or failure of each result is.
- Driver behaviour after a commit or rollback: a second call on the handle is accepted like the first.
- Randomness: the probability that two random suffixes collide is not modelled. Only the injectivity of the hex encoding is proved.
- Concurrency and the thread-safe driver: every call runs on its own. Where the thread-safe driver would make a query wait for an unread reply, the model's connection answers `Busy` instead.
- `Mysql.MysqlDatabase.Create`: the driver's failures for reasons other than the name (`createFault`, `useFault`, `dropFault` on `Conn`) are fixed per connection, so a connection fails the same way on every call; what makes a server fail is not modelled.
- Path normalisation: a file is identified by its directory and its name as given, which is exact for plain file names such as the saver's hex hash plus extension. `path.Join`'s cleaning of `.`, `..` and separators is not modelled.
- `checkIfDatabaseExists`: it is a test helper. The model reads the server's database set directly.
- Configuration loading, the command-line tool and the test harness in `dbtesting/executors.go` are not part of this model.
