/**
 * The earlier top-level script main.py: it opens an SQLite file, creates
 * three tables when the file has none, gates on `PRAGMA user_version`, and
 * with `--endpoint` reports at most ten of the daemon's torrents.
 */
module Legacy {
  import opened Wrappers
  import opened Snapshot

  /** The schema stamp this script expects. */
  const SCHEMA: int := 202410040

  /** A column as `CREATE TABLE` declares it (the integer primary key is kept apart). */
  datatype ColumnDecl = ColumnDecl(name: string, notNull: bool, unique: bool)

  /** A `FOREIGN KEY (column) REFERENCES parent(parentColumn)` clause. */
  datatype ReferenceDecl = ReferenceDecl(column: string, parent: string, parentColumn: string)

  /** A table as `CREATE TABLE` declares it. */
  datatype TableDecl = TableDecl(
    primaryKey: string,
    columns: seq<ColumnDecl>,
    uniqueGroups: seq<seq<string>>,
    references: seq<ReferenceDecl>)

  const TorrentsTable: TableDecl := TableDecl(
    "id",
    [ColumnDecl("info_hash_v1", true, true),
     ColumnDecl("info_hash_v2", false, true),
     ColumnDecl("name", true, false),
     ColumnDecl("file_count", true, false),
     ColumnDecl("content_path", true, false),
     ColumnDecl("completed_on", false, false),
     ColumnDecl("tracker_ids", false, false)],
    [], [])

  const TrackersTable: TableDecl := TableDecl("id", [ColumnDecl("url", true, true)], [], [])

  const FilesTable: TableDecl := TableDecl(
    "id",
    [ColumnDecl("torrent_id", true, false),
     ColumnDecl("file_index", true, false),
     ColumnDecl("file_path", true, false),
     ColumnDecl("size", true, false),
     ColumnDecl("is_downloaded", true, false),
     ColumnDecl("last_checked", false, false)],
    [["torrent_id", "file_index"]],
    [ReferenceDecl("torrent_id", "torrents", "id")])

  /** The tables `init_db` creates, by name. */
  const InitTables: map<string, TableDecl> :=
    map["torrents" := TorrentsTable, "trackers" := TrackersTable, "files" := FilesTable]

  /** The table allows at most one row per value of `cols`. */
  predicate IsUniqueKey(t: TableDecl, cols: seq<string>)
  {
    cols == [t.primaryKey]
    || cols in t.uniqueGroups
    || (|cols| == 1 && exists c :: c in t.columns && c.name == cols[0] && c.unique)
  }

  /** The table refuses a NULL in `col`. */
  predicate IsRequired(t: TableDecl, col: string)
  {
    exists c :: c in t.columns && c.name == col && c.notNull
  }

  /** `files` allows one row per (torrent_id, file_index) and refers to `torrents`. */
  lemma FilesConstraints()
    ensures IsUniqueKey(FilesTable, ["torrent_id", "file_index"])
    ensures IsRequired(FilesTable, "file_index") && IsRequired(FilesTable, "torrent_id")
    ensures ReferenceDecl("torrent_id", "torrents", "id") in FilesTable.references
  {
    assert FilesTable.columns[0].name == "torrent_id";
    assert FilesTable.columns[1].name == "file_index";
  }

  /** `files.file_index` alone is no key: the same index may recur in other torrents. */
  lemma FileIndexAloneNotUnique()
    ensures !IsUniqueKey(FilesTable, ["file_index"])
  {
    forall c | c in FilesTable.columns ensures !c.unique {
    }
  }

  /** `torrents.info_hash_v1` is required and unique; `info_hash_v2` is unique but optional. */
  lemma TorrentsConstraints()
    ensures IsUniqueKey(TorrentsTable, ["info_hash_v1"]) && IsRequired(TorrentsTable, "info_hash_v1")
    ensures IsUniqueKey(TorrentsTable, ["info_hash_v2"])
  {
    assert TorrentsTable.columns[0].name == "info_hash_v1";
    assert TorrentsTable.columns[1].name == "info_hash_v2";
  }

  /** `trackers.url` is required and unique. */
  lemma TrackersConstraints()
    ensures IsUniqueKey(TrackersTable, ["url"]) && IsRequired(TrackersTable, "url")
  {
    assert TrackersTable.columns[0].name == "url";
  }

  /**
   * `CREATE TABLE IF NOT EXISTS` for each of the three tables: an absent
   * table is created as declared, an existing one is left as it is.
   */
  function CreateIfAbsent(tables: map<string, TableDecl>): (r: map<string, TableDecl>)
    ensures r.Keys == tables.Keys + InitTables.Keys
    ensures forall n :: n in tables ==> r[n] == tables[n]
    ensures forall n :: n in InitTables && n !in tables ==> r[n] == InitTables[n]
  {
    InitTables + tables
  }

  /** Creating the tables a second time changes nothing. */
  lemma CreateIfAbsentIdempotent(tables: map<string, TableDecl>)
    ensures CreateIfAbsent(CreateIfAbsent(tables)) == CreateIfAbsent(tables)
  {
    var once := CreateIfAbsent(tables);
    var twice := CreateIfAbsent(once);
    assert twice.Keys == once.Keys;
    forall n | n in twice ensures twice[n] == once[n] {
    }
  }

  /** The SQLite file: its `user_version` and the tables `sqlite_master` lists. */
  class Store {
    var userVersion: int
    var tables: map<string, TableDecl>

    constructor (userVersion: int, tables: map<string, TableDecl>)
      ensures this.userVersion == userVersion && this.tables == tables
    {
      this.userVersion := userVersion;
      this.tables := tables;
    }

    /** `list_tables`: the names of the tables the file really holds. */
    function ListTables(): (r: set<string>)
      reads this
      ensures forall n :: n in r <==> n in tables
    {
      tables.Keys
    }

    /** `init_db`: stamp SCHEMA into `user_version` and create the missing tables. */
    method InitDb()
      modifies this
      ensures userVersion == SCHEMA
      ensures tables == CreateIfAbsent(old(tables))
      ensures ListTables() != {}
    {
      userVersion := SCHEMA;
      tables := CreateIfAbsent(tables);
      assert "files" in tables;
    }

    /**
     * The `scan` command. `opens` says whether connecting and listing the
     * tables succeeded; `torrents` is what the daemon reports. The report loop
     * stops with exit code 1 at the first of the ten entries that lacks a key
     * it reads.
     */
    method Scan(opens: bool, directory: Option<string>, endpoint: Option<string>, torrents: seq<RemoteTorrent>)
      returns (code: int, report: Option<Listing>)
      modifies this
      ensures !opens ==> code == 1 && report.None? && userVersion == old(userVersion) && tables == old(tables)
      ensures opens && old(tables) == map[] ==> tables == CreateIfAbsent(map[]) && userVersion == SCHEMA
      ensures opens && old(tables) != map[] ==> tables == old(tables) && userVersion == old(userVersion)
      ensures code == 1 <==>
        || !opens || userVersion != SCHEMA
        || (directory.None? && endpoint.Some? && !AllReadable(FirstN(torrents, 10)))
      ensures code == 0 || code == 1
      ensures code == 0 ==> (report.Some? <==> directory.None? && endpoint.Some?)
      ensures code == 1 ==> report.None?
      ensures report.Some? ==> report.value == Listing(|torrents|, FirstN(torrents, 10))
    {
      report := None;
      if !opens {
        return 1, None;
      }
      if |ListTables()| == 0 {
        assert tables == map[];
        InitDb();
      } else {
        assert tables != map[] by {
          var n :| n in ListTables();
        }
      }
      var found := userVersion;
      if found != SCHEMA {
        return 1, None;
      }
      if directory.Some? {
        return 0, None;
      }
      if endpoint.Some? {
        var limit := if |torrents| < 10 then |torrents| else 10;
        var shown: seq<RemoteTorrent> := [];
        var i := 0;
        while i < limit
          invariant 0 <= i <= limit
          invariant shown == torrents[..i]
          invariant AllReadable(shown)
        {
          if !Readable(torrents[i]) {
            assert FirstN(torrents, 10)[i] == torrents[i];
            return 1, None;
          }
          shown := shown + [torrents[i]];
          i := i + 1;
        }
        report := Some(Listing(|torrents|, shown));
      }
      code := 0;
    }
  }
}
