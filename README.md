# tarc — a Dafny model of the store, the client registry and the scan gate

tarc ("Torrent Archiver") keeps track of datasets held by BitTorrent clients.
It stores them in an SQLite file.
This project models three parts of it:

- **The entity store** (`tarc/models.py`, modelled in `models.dfy`).
  There are eight tables: schema versions, clients, torrents, trackers, files,
  and the three association tables between them.
  The model keeps one sequence of rows per table.
  It refuses an insert that leaves a required column empty, repeats a UNIQUE key,
  or names a parent row that does not exist.
  The store invariant `Models.Valid` is proved to be preserved by every insert.
  An insert is proved to commit exactly when the store with the row added would still be valid.
- **The client registry and the `scan` command** (`tarc/main.py`, modelled in `registry.dfy`, `version.dfy`, `scan.dfy`).
  `add_client` is a method on a `Session` class.
  The store assigns the new client the next id.
  `find_client` returns every client whose endpoint matches; endpoints are not unique.
  `list_clients` returns every stored client.
  `scan` is a pure function.
  Its input is the parsed options, the database state, and what the daemon reports.
  Its output is an exit code plus at most one effect: one client added, or the first two torrents reported.
  The check on the daemon's version string, `^v?\d+(\.\d+)*$`, is a recursive recogniser.
  It is proved equal to an independent, non-recursive description.
- **The earlier script** (`main.py`, modelled in `legacy.dfy`).
  It opens an SQLite file.
  It creates three tables when the file has none.
  It then requires `PRAGMA user_version` to equal 202410040.
  With `--endpoint`, it reports at most ten torrents.

`wrappers.dfy` holds `Option`/`Result`.
`snapshot.dfy` holds the daemon's torrent entries and Python's `s[:n]` slice (`FirstN`).

Conventions:

- Row ids are implicit. SQLite numbers rows 1, 2, 3, … in a table nothing is deleted from, so the row at position `i` has id `i + 1`.
- Every column of a row is an `Option`, because Python may hand the store `None`.
  A UNIQUE key containing a NULL never clashes, as in SQL.
- The clock (`datetime.now`), `uuid.uuid4()` and the daemon's answers are parameters.

What the code does:

- Clients are looked up by endpoint, never by name. `find_client` matches on the endpoint, which is not unique, so it may return any number of clients.
- The version gate of `tarc/main.py` compares `PRAGMA user_version` for exact equality with `SCHEMA = 202410060`.
  The `schema_version` table is declared but never read or written by the shown code.
- `tarc/main.py`'s `list_tables` returns the declared table names, not the database's tables.
  That list is never empty, so `init_db` is never called from `main` (`Scan.NeverInitialises`).
  As a result, a fresh database always fails the gate with `user_version` 0 (`Scan.FreshStoreRejected`).
- `torrents.completed_on` is declared `nullable=False`, so the model requires it.
- `add_client` does not catch the error the commit raises when a name or uuid is taken.
  `scan --confirm-add` then ends with exit code 1 (`Failure.InsertRefused`).
  A query on a database without a `clients` table ends the same way (`Failure.ClientsTableMissing`).
- Python's `$` also matches just before a final newline, so `"1.2.3\n"` is accepted (`Version.Examples`).

## Model

| member | source | states |
|---|---|---|
| `Models.MissingColumn` | tarc/models.py:21-103 | a column is returned exactly when the row is incomplete; the returned column is a `nullable=False` column of the row's table, it is NULL in the row, and every required column declared before it is set |
| `Models.CompleteIff` | tarc/models.py:21-103 | a row is complete exactly when none of its table's `nullable=False` columns is NULL in it |
| `Models.DuplicateKey` | tarc/models.py:30-106 | a UNIQUE key is reported exactly when adding the row would repeat a non-NULL name, uuid, info hash, url, oshash, hash or association key |
| `Models.DanglingReference` | tarc/models.py:53-99 | a column is reported exactly when an association row names a torrent, client, tracker or file id that has no row |
| `Models.Insert` | tarc/main.py:59-60 | an insert commits iff the row is admissible (complete, no repeated key, parents present) and then appends exactly that row to its table, leaving all other rows unchanged; NOT NULL failures are reported before UNIQUE ones |
| `Models.UniqueOnAppend` | tarc/models.py:31-32 | adding a row keeps a UNIQUE column unique iff no stored row has the new row's non-NULL value |
| `Models.KeysUniqueAppended` | tarc/models.py:30-106 | all UNIQUE constraints hold after the append iff the row repeats none of its table's keys |
| `Models.ColumnsCompleteAppended` | tarc/models.py:21-103 | all required columns stay filled after the append iff the new row fills its own |
| `Models.ParentsPresentAppended` | tarc/models.py:53-99 | appending a row with resolvable references keeps every stored reference resolvable |
| `Models.Valid` | tarc/models.py:17-106 | the store invariant: required columns set, UNIQUE keys unrepeated, references resolvable; in a valid store no two clients share a name or a uuid, and no two torrents, trackers or files share a v1 info hash, url or oshash |
| `Models.Appended` | tarc/main.py:59-60 | a committed row is added at the end of its own table and every other table is unchanged; every stored row keeps its place (and so its id) and the store holds exactly one row more |
| `Models.InsertPreservesValid` | tarc/models.py:17-106 | a committed insert keeps the store invariant |
| `Models.InsertRefusesExactlyInvalid` | tarc/models.py:17-106 | on a valid store, an insert commits iff the store with the row appended is valid: the store refuses exactly the rows that would break its invariant |
| `Models.EmptyDbValid` | tarc/models.py:17-106 | the empty store satisfies the invariant |
| `Registry.ListTables` | tarc/main.py:42-46 | the listing is the eight declared table names, whatever the database holds |
| `Registry.ListTablesIgnoresDatabase` | tarc/main.py:42-46 | two databases always get the same, non-empty listing |
| `Registry.InitDb` | tarc/main.py:27-39 | every declared table exists afterwards, existing tables are kept, no other table appears, and the SCHEMA-stamping connect hook is registered |
| `Registry.VersionOnConnect` | tarc/main.py:35-39 | a new connection reads SCHEMA once the stamping hook is registered, and otherwise exactly the stored `user_version` |
| `Registry.InitDbStampsSchema` | tarc/main.py:27-39 | after `init_db`, every new connection reads SCHEMA, whatever the file held |
| `Registry.InitDbIdempotent` | tarc/main.py:27-32 | initialising twice equals initialising once |
| `Registry.MatchesAmong` | tarc/main.py:63-68 | among the first n clients, every result is a stored client with that endpoint and its own name and uuid; ids strictly increase; a client is reported iff its endpoint matches |
| `Registry.FindClient` | tarc/main.py:63-68 | exactly the clients whose endpoint equals the argument, each once, with their id, name and uuid; there may be 0, 1 or many; the model returns them in id order |
| `Registry.MatchesAmongAppend` | tarc/main.py:63-68 | a new client does not change the matches among the clients stored before it |
| `Registry.FindClientAfterAdd` | tarc/main.py:49-68 | after a client is added, `find_client` returns the earlier matches plus the new client (with the next id) iff its endpoint is the one asked for |
| `Registry.SharedEndpointFindsBoth` | tarc/main.py:63-68 | any two stored clients sharing an endpoint are both reported by `find_client`, the earlier one first |
| `Registry.FreshClientAdmissible` | tarc/models.py:30-34 | a complete client row whose name and uuid are new is accepted whatever its endpoint, since `endpoint` carries no UNIQUE constraint |
| `Registry.ListClients` | tarc/main.py:71-75 | every stored client, with its id, in id order; nothing is left out or changed |
| `Registry.ListClientsAfterAdd` | tarc/main.py:49-75 | after a client is added, the listing is the old listing with the new client last |
| `Registry.NewClient` | tarc/main.py:53-58 | the row carries the given name, endpoint and last-seen time and the fresh uuid; it lacks a required column exactly when one of the three arguments is None |
| `Registry.Session.AddClient` | tarc/main.py:49-60 | commits iff the client row (given name, endpoint, last-seen and the fresh uuid) is admissible; on success the store gains exactly that row, otherwise it is unchanged and the store's error is returned; the store invariant is kept |
| `Version.DigitGroups` | tarc/main.py:148 | the recogniser of `\d+(\.\d+)*`; an accepted string starts and ends with a digit and holds only digits and dots |
| `Version.Accepted` | tarc/main.py:148 | the whole pattern with `re.match`; an accepted string starts with a digit or `v` and ends with a digit or a newline |
| `Version.DigitGroupsIff` | tarc/main.py:148 | the recursive recogniser of `\d+(\.\d+)*` accepts exactly the non-empty strings of digits and dots that start and end with a digit and never hold two dots in a row |
| `Version.AcceptedIff` | tarc/main.py:148 | the whole check is an optional leading `v`, then such a string, optionally followed by one final newline |
| `Version.Examples` | tarc/main.py:145-152 | `1.2.3`, `v1.2.3`, `4.6.7` followed by a newline, and `10` pass; the empty string, `v`, `1.`, `1..2`, `qbt-1.2`, `.1` and `vv1` fail |
| `Snapshot.FirstN` | main.py:118 | the result is a prefix of the list with min(n, length) elements |
| `Scan.Scan` | tarc/main.py:103-205 | the scan dispatch; only a run with storage open and `user_version` equal to SCHEMA ends without a failure, and the directory stub answers exactly such runs given `--directory` |
| `Scan.ScanEndpoint` | tarc/main.py:141-202 | the `--endpoint` branch; an added client or a report needs an accepted daemon version and a `clients` table, only `--confirm-add` adds, only its absence reports, and every reported entry carries the keys the loop reads |
| `Scan.NeverInitialises` | tarc/main.py:110-118 | the start-up step never runs `init_db`, because the table listing is never empty |
| `Scan.StorageFailureExits` | tarc/main.py:104-115 | a storage open failure exits 1 |
| `Scan.SchemaGate` | tarc/main.py:120-137 | once storage opens, the run stops with a schema mismatch iff the stored `user_version` is not exactly 202410060 |
| `Scan.FreshStoreRejected` | tarc/main.py:116-137 | a database with no tables and `user_version` 0 is not initialised and fails the gate |
| `Scan.DirectoryTakesPrecedence` | tarc/main.py:138-140 | after the gate, `--directory` exits 0 with no effect, whatever `--endpoint` says |
| `Scan.TargetRequired` | tarc/main.py:203-205 | after the gate, neither `--directory` nor `--endpoint` exits 1 |
| `Scan.RemoteVersionChecked` | tarc/main.py:141-156 | a missing daemon version and one the pattern rejects both exit 1; every effect implies an accepted version |
| `Scan.ClientAddedIff` | tarc/main.py:157-163 | a client is added iff the lookup is reached, `--confirm-add` is set, no client has the endpoint, `--name` is given and the store accepts the row; the store then gains exactly that client |
| `Scan.ClientAddedKeepsStoreValid` | tarc/main.py:157-163 | adding a client through `scan` keeps the store invariant |
| `Scan.ConfirmAddFailures` | tarc/main.py:158-174 | with `--confirm-add`: zero matches and no name exits 1; one match exits 1 naming that client; several matches exit 1; a refused insert exits 1 |
| `Scan.ConfirmAddNeverReports` | tarc/main.py:158-174 | `--confirm-add` never reports torrents |
| `Scan.TorrentsReportedIff` | tarc/main.py:175-197 | torrents are reported iff the lookup is reached, `--confirm-add` is not set, exactly one client matches and the first two entries carry every key the loop reads; the report is the total count and exactly `torrents[:2]` |
| `Scan.LookupFailures` | tarc/main.py:175-202 | without `--confirm-add`, zero matches, several matches, and a single match whose first two entries lack a key the loop reads each exit 1 |
| `Scan.ClientAddedChangesOnlyClients` | tarc/main.py:157-163 | an added client is the only change: one more client row, every other table as it was |
| `Legacy.FilesConstraints` | main.py:46-56 | `files` allows one row per (torrent_id, file_index), requires both, and refers to `torrents(id)` |
| `Legacy.FileIndexAloneNotUnique` | main.py:46-56 | `file_index` alone is not a key |
| `Legacy.TorrentsConstraints` | main.py:30-39 | `torrents.info_hash_v1` is required and unique; `info_hash_v2` is unique |
| `Legacy.TrackersConstraints` | main.py:41-44 | `trackers.url` is required and unique |
| `Legacy.CreateIfAbsent` | main.py:30-56 | the three tables exist afterwards; an absent one is created as declared; an existing one keeps its definition; no other table appears |
| `Legacy.CreateIfAbsentIdempotent` | main.py:30-56 | re-running the creation changes nothing |
| `Legacy.Store.ListTables` | main.py:63-71 | the listing is exactly the tables the file holds |
| `Legacy.Store.InitDb` | main.py:21-60 | `user_version` becomes 202410040, the tables are created if absent, and the listing is no longer empty |
| `Legacy.Store.Scan` | main.py:90-127 | open failure exits 1 with nothing changed; initialisation runs iff the file has no tables; exit 1 iff `user_version` is then not 202410040, or the run reaches the `--endpoint` loop and one of the first ten entries lacks a key it reads; after the gate, `--directory` exits 0 with no report; otherwise `--endpoint` reports the total and exactly `torrents[:10]`, and with neither option the script ends with 0 and no report |

## Left out

- Argument parsing (`argparse`) is left out. The parsed options are a record of optional fields.
  `--debug` only adds output and `--type` is never read, so neither appears.
- The qBittorrent HTTP client is left out: `qbittorrent.Client(...)`, `login`, `qbittorrent_version`, `torrents`, `get_torrent_files` and `get_torrent_trackers` are network I/O.
  Their answers are inputs.
  Connection and authentication errors are not modelled; in the code they are uncaught exceptions.
  The per-torrent file and tracker fetches in the report loops only feed printed output, so the model keeps just which torrents are reported.
- `Scan.Scan`, `Legacy.Store.Scan`: a daemon entry that lacks a key the report loop reads ends the run with exit code 1, as the uncaught `KeyError` does; only the presence of each key is modelled, not the type of its value, and the output printed before the failing entry is left out.
- All printed messages, debug dumps and magnet-URI truncation are left out, because they are output only.
- SQLAlchemy and sqlite3 mechanics are abstracted: engines, sessions, cursors, pooling, `PRAGMA` execution and `event.listens_for` hooks.
  The database is a value (tables, `user_version`, rows).
  A failure to open storage is one boolean input. It covers creating the engine and session and the first `engine.connect()`; the code catches only the former, and both end with exit code 1.
- `Scan.Scan`: in the unreachable initialisation arm, the model assumes the stamping hook runs on the gate's connection.
  Connection pooling could make that connection a reused one; this is not modelled because the arm is never taken.
- `Models.Insert` refuses a reference to a missing parent row.
  SQLite enforces foreign keys only when they are switched on, and no shown code switches them on.
  The model treats the declared references as a store invariant, which is stronger than what the code guarantees.
- `Registry.FindClient`: the query at tarc/main.py:67 has no `ORDER BY`, so SQL promises no order; the model returns the matches in id order, the order SQLite's table scan gives. `main` uses only the number of matches and, for a single match, that match, so nothing depends on the order.
- Explicit primary-key values and rowid reuse after deletion are not modelled; no shown code sets an id or deletes a row.
- Column types, `DEFAULT` values (`CURRENT_TIMESTAMP`, `0`) and the `sqlite_sequence` table that SQLite adds for `AUTOINCREMENT` are left out of the `main.py` table declarations, because no shown code depends on them.
- Python's `\d` also matches non-ASCII Unicode digits. The version recogniser accepts ASCII digits only.
- No shown file writes torrents, files or trackers into the store, or scans directories (`--directory` is a stub), so no merge of a daemon snapshot into the store is modelled.
