/**
 * The relational store declared by tarc/models.py: eight tables, their
 * required (NOT NULL) columns, their UNIQUE keys and the parent tables their
 * foreign-key columns name.
 *
 * A row is what the program hands to the store, so every column is optional
 * (Python may pass `None`); the store refuses a row that leaves a required
 * column empty. The integer primary key is not a column of the row: the store
 * numbers rows 1, 2, 3, ... in insertion order, as SQLite assigns rowids to a
 * table nothing is deleted from, so the row at position i has id i + 1.
 */
module Models {
  import opened Wrappers

  /** DateTime columns hold opaque instants. */
  type Timestamp = int

  datatype SchemaVersion = SchemaVersion(version: Option<int>, appliedAt: Option<Timestamp>)

  datatype Client = Client(
    name: Option<string>,
    uuid: Option<string>,
    endpoint: Option<string>,
    lastSeen: Option<Timestamp>)

  datatype Torrent = Torrent(
    infoHashV1: Option<string>,
    infoHashV2: Option<string>,
    fileCount: Option<int>,
    completedOn: Option<Timestamp>)

  datatype TorrentClient = TorrentClient(
    torrentId: Option<int>,
    clientId: Option<int>,
    name: Option<string>,
    contentPath: Option<string>,
    lastSeen: Option<Timestamp>)

  datatype Tracker = Tracker(url: Option<string>, lastSeen: Option<Timestamp>)

  datatype TorrentTracker = TorrentTracker(
    clientId: Option<int>,
    torrentId: Option<int>,
    trackerId: Option<int>,
    lastSeen: Option<Timestamp>)

  datatype File = File(size: Option<int>, oshash: Option<string>, hash: Option<string>)

  datatype TorrentFile = TorrentFile(
    fileId: Option<int>,
    torrentId: Option<int>,
    clientId: Option<int>,
    fileIndex: Option<int>,
    filePath: Option<string>,
    isDownloaded: Option<bool>,
    lastChecked: Option<Timestamp>)

  /** A row together with the table it is inserted into. */
  datatype Row =
    | SchemaVersions(sv: SchemaVersion)
    | Clients(c: Client)
    | Torrents(t: Torrent)
    | TorrentClients(tc: TorrentClient)
    | Trackers(tr: Tracker)
    | TorrentTrackers(tt: TorrentTracker)
    | Files(f: File)
    | TorrentFiles(tf: TorrentFile)

  /** The whole store: one sequence of rows per table, in insertion order. */
  datatype Db = Db(
    schemaVersions: seq<SchemaVersion>,
    clients: seq<Client>,
    torrents: seq<Torrent>,
    torrentClients: seq<TorrentClient>,
    trackers: seq<Tracker>,
    torrentTrackers: seq<TorrentTracker>,
    files: seq<File>,
    torrentFiles: seq<TorrentFile>)

  /** The table names the metadata declares, in declaration order. */
  const TableNames: seq<string> :=
    ["schema_version", "clients", "torrents", "torrent_clients",
     "trackers", "torrent_trackers", "files", "torrent_files"]

  function EmptyDb(): Db
  {
    Db([], [], [], [], [], [], [], [])
  }

  /** The columns the schema constrains, named table first. */
  datatype Column =
    | SchemaVersionVersion | SchemaVersionAppliedAt
    | ClientsName | ClientsUuid | ClientsEndpoint | ClientsLastSeen
    | TorrentsInfoHashV1 | TorrentsInfoHashV2 | TorrentsFileCount | TorrentsCompletedOn
    | TorrentClientsTorrentId | TorrentClientsClientId | TorrentClientsName
    | TorrentClientsContentPath | TorrentClientsLastSeen
    | TrackersUrl | TrackersLastSeen
    | TorrentTrackersClientId | TorrentTrackersTorrentId | TorrentTrackersTrackerId
    | TorrentTrackersLastSeen
    | FilesSize | FilesOshash | FilesHash
    | TorrentFilesFileId | TorrentFilesTorrentId | TorrentFilesClientId | TorrentFilesFileIndex
    | TorrentFilesFilePath | TorrentFilesIsDownloaded | TorrentFilesLastChecked

  /** The reasons the store refuses an insert, with the offending column or UNIQUE key. */
  datatype DbError =
    | NotNull(column: Column)
    | Duplicate(key: seq<Column>)
    | MissingParent(column: Column)

  // ---------------------------------------------------------------------------
  // Required columns (nullable=False)
  // ---------------------------------------------------------------------------

  predicate Complete(row: Row)
  {
    match row
    case SchemaVersions(r) => r.version.Some? && r.appliedAt.Some?
    case Clients(r) => r.name.Some? && r.uuid.Some? && r.endpoint.Some? && r.lastSeen.Some?
    case Torrents(r) => r.infoHashV1.Some? && r.fileCount.Some? && r.completedOn.Some?
    case TorrentClients(r) =>
      r.torrentId.Some? && r.clientId.Some? && r.name.Some? && r.contentPath.Some? && r.lastSeen.Some?
    case Trackers(r) => r.url.Some? && r.lastSeen.Some?
    case TorrentTrackers(r) =>
      r.clientId.Some? && r.torrentId.Some? && r.trackerId.Some? && r.lastSeen.Some?
    case Files(r) => r.size.Some? && r.oshash.Some?
    case TorrentFiles(r) =>
      r.fileId.Some? && r.torrentId.Some? && r.clientId.Some? && r.fileIndex.Some?
      && r.filePath.Some? && r.isDownloaded.Some? && r.lastChecked.Some?
  }

  /** The row leaves column `col` of its own table NULL. */
  predicate IsNull(row: Row, col: Column)
  {
    match row
    case SchemaVersions(r) =>
      (col == SchemaVersionVersion && r.version.None?) || (col == SchemaVersionAppliedAt && r.appliedAt.None?)
    case Clients(r) =>
      || (col == ClientsName && r.name.None?) || (col == ClientsUuid && r.uuid.None?)
      || (col == ClientsEndpoint && r.endpoint.None?) || (col == ClientsLastSeen && r.lastSeen.None?)
    case Torrents(r) =>
      || (col == TorrentsInfoHashV1 && r.infoHashV1.None?) || (col == TorrentsInfoHashV2 && r.infoHashV2.None?)
      || (col == TorrentsFileCount && r.fileCount.None?) || (col == TorrentsCompletedOn && r.completedOn.None?)
    case TorrentClients(r) =>
      || (col == TorrentClientsTorrentId && r.torrentId.None?) || (col == TorrentClientsClientId && r.clientId.None?)
      || (col == TorrentClientsName && r.name.None?) || (col == TorrentClientsContentPath && r.contentPath.None?)
      || (col == TorrentClientsLastSeen && r.lastSeen.None?)
    case Trackers(r) =>
      (col == TrackersUrl && r.url.None?) || (col == TrackersLastSeen && r.lastSeen.None?)
    case TorrentTrackers(r) =>
      || (col == TorrentTrackersClientId && r.clientId.None?) || (col == TorrentTrackersTorrentId && r.torrentId.None?)
      || (col == TorrentTrackersTrackerId && r.trackerId.None?) || (col == TorrentTrackersLastSeen && r.lastSeen.None?)
    case Files(r) =>
      || (col == FilesSize && r.size.None?) || (col == FilesOshash && r.oshash.None?)
      || (col == FilesHash && r.hash.None?)
    case TorrentFiles(r) =>
      || (col == TorrentFilesFileId && r.fileId.None?) || (col == TorrentFilesTorrentId && r.torrentId.None?)
      || (col == TorrentFilesClientId && r.clientId.None?) || (col == TorrentFilesFileIndex && r.fileIndex.None?)
      || (col == TorrentFilesFilePath && r.filePath.None?) || (col == TorrentFilesIsDownloaded && r.isDownloaded.None?)
      || (col == TorrentFilesLastChecked && r.lastChecked.None?)
  }

  /** `col` is a `nullable=False` column of the row's table. */
  predicate Required(row: Row, col: Column)
  {
    match row
    case SchemaVersions(_) => col.SchemaVersionVersion? || col.SchemaVersionAppliedAt?
    case Clients(_) => col.ClientsName? || col.ClientsUuid? || col.ClientsEndpoint? || col.ClientsLastSeen?
    case Torrents(_) => col.TorrentsInfoHashV1? || col.TorrentsFileCount? || col.TorrentsCompletedOn?
    case TorrentClients(_) =>
      || col.TorrentClientsTorrentId? || col.TorrentClientsClientId? || col.TorrentClientsName?
      || col.TorrentClientsContentPath? || col.TorrentClientsLastSeen?
    case Trackers(_) => col.TrackersUrl? || col.TrackersLastSeen?
    case TorrentTrackers(_) =>
      || col.TorrentTrackersClientId? || col.TorrentTrackersTorrentId? || col.TorrentTrackersTrackerId?
      || col.TorrentTrackersLastSeen?
    case Files(_) => col.FilesSize? || col.FilesOshash?
    case TorrentFiles(_) =>
      || col.TorrentFilesFileId? || col.TorrentFilesTorrentId? || col.TorrentFilesClientId?
      || col.TorrentFilesFileIndex? || col.TorrentFilesFilePath? || col.TorrentFilesIsDownloaded?
      || col.TorrentFilesLastChecked?
  }

  /** Where the column is declared within its table, counting from 0. */
  function Position(col: Column): nat
  {
    match col
    case SchemaVersionVersion => 0
    case SchemaVersionAppliedAt => 1
    case ClientsName => 0
    case ClientsUuid => 1
    case ClientsEndpoint => 2
    case ClientsLastSeen => 3
    case TorrentsInfoHashV1 => 0
    case TorrentsInfoHashV2 => 1
    case TorrentsFileCount => 2
    case TorrentsCompletedOn => 3
    case TorrentClientsTorrentId => 0
    case TorrentClientsClientId => 1
    case TorrentClientsName => 2
    case TorrentClientsContentPath => 3
    case TorrentClientsLastSeen => 4
    case TrackersUrl => 0
    case TrackersLastSeen => 1
    case TorrentTrackersClientId => 0
    case TorrentTrackersTorrentId => 1
    case TorrentTrackersTrackerId => 2
    case TorrentTrackersLastSeen => 3
    case FilesSize => 0
    case FilesOshash => 1
    case FilesHash => 2
    case TorrentFilesFileId => 0
    case TorrentFilesTorrentId => 1
    case TorrentFilesClientId => 2
    case TorrentFilesFileIndex => 3
    case TorrentFilesFilePath => 4
    case TorrentFilesIsDownloaded => 5
    case TorrentFilesLastChecked => 6
  }

  /** The column declared at position `k` of the row's table (the last one for any `k` past the end). */
  function ColumnAt(row: Row, k: nat): Column
  {
    match row
    case SchemaVersions(_) => if k == 0 then SchemaVersionVersion else SchemaVersionAppliedAt
    case Clients(_) => if k == 0 then ClientsName else if k == 1 then ClientsUuid else if k == 2 then ClientsEndpoint else ClientsLastSeen
    case Torrents(_) => if k == 0 then TorrentsInfoHashV1 else if k == 1 then TorrentsInfoHashV2 else if k == 2 then TorrentsFileCount else TorrentsCompletedOn
    case TorrentClients(_) => if k == 0 then TorrentClientsTorrentId else if k == 1 then TorrentClientsClientId else if k == 2 then TorrentClientsName else if k == 3 then TorrentClientsContentPath else TorrentClientsLastSeen
    case Trackers(_) => if k == 0 then TrackersUrl else TrackersLastSeen
    case TorrentTrackers(_) => if k == 0 then TorrentTrackersClientId else if k == 1 then TorrentTrackersTorrentId else if k == 2 then TorrentTrackersTrackerId else TorrentTrackersLastSeen
    case Files(_) => if k == 0 then FilesSize else if k == 1 then FilesOshash else FilesHash
    case TorrentFiles(_) => if k == 0 then TorrentFilesFileId else if k == 1 then TorrentFilesTorrentId else if k == 2 then TorrentFilesClientId else if k == 3 then TorrentFilesFileIndex else if k == 4 then TorrentFilesFilePath else if k == 5 then TorrentFilesIsDownloaded else TorrentFilesLastChecked
  }

  /** A row is complete exactly when it leaves no required column of its table NULL. */
  lemma CompleteIff(row: Row)
    ensures Complete(row) <==> forall col :: Required(row, col) ==> !IsNull(row, col)
  {
    if !Complete(row) {
      var c := MissingColumn(row);
      assert Required(row, c.value) && IsNull(row, c.value);
    }
  }

  /**
   * The first required column, in declaration order, that the row leaves
   * empty: it is required, it is NULL in the row, and every required column
   * declared before it is set.
   */
  function MissingColumn(row: Row): (c: Option<Column>)
    ensures c.None? <==> Complete(row)
    ensures c.Some? ==> Required(row, c.value) && IsNull(row, c.value)
    ensures c.Some? ==> forall k :: 0 <= k < Position(c.value) && Required(row, ColumnAt(row, k)) ==>
              !IsNull(row, ColumnAt(row, k))
  {
    match row
    case SchemaVersions(r) => MissingSchemaVersionColumn(r)
    case Clients(r) => MissingClientColumn(r)
    case Torrents(r) => MissingTorrentColumn(r)
    case TorrentClients(r) => MissingTorrentClientColumn(r)
    case Trackers(r) => MissingTrackerColumn(r)
    case TorrentTrackers(r) => MissingTorrentTrackerColumn(r)
    case Files(r) => MissingFileColumn(r)
    case TorrentFiles(r) => MissingTorrentFileColumn(r)
  }

  function MissingSchemaVersionColumn(r: SchemaVersion): (c: Option<Column>)
    ensures c.None? <==> Complete(SchemaVersions(r))
    ensures c.Some? ==> Required(SchemaVersions(r), c.value) && IsNull(SchemaVersions(r), c.value)
    ensures c.Some? ==> forall k :: 0 <= k < Position(c.value) && Required(SchemaVersions(r), ColumnAt(SchemaVersions(r), k)) ==>
              !IsNull(SchemaVersions(r), ColumnAt(SchemaVersions(r), k))
  {
    if r.version.None? then Some(SchemaVersionVersion)
    else if r.appliedAt.None? then Some(SchemaVersionAppliedAt)
    else None
  }

  function MissingClientColumn(r: Client): (c: Option<Column>)
    ensures c.None? <==> Complete(Clients(r))
    ensures c.Some? ==> Required(Clients(r), c.value) && IsNull(Clients(r), c.value)
    ensures c.Some? ==> forall k :: 0 <= k < Position(c.value) && Required(Clients(r), ColumnAt(Clients(r), k)) ==>
              !IsNull(Clients(r), ColumnAt(Clients(r), k))
  {
    if r.name.None? then Some(ClientsName)
    else if r.uuid.None? then Some(ClientsUuid)
    else if r.endpoint.None? then Some(ClientsEndpoint)
    else if r.lastSeen.None? then Some(ClientsLastSeen)
    else None
  }

  function MissingTorrentColumn(r: Torrent): (c: Option<Column>)
    ensures c.None? <==> Complete(Torrents(r))
    ensures c.Some? ==> Required(Torrents(r), c.value) && IsNull(Torrents(r), c.value)
    ensures c.Some? ==> forall k :: 0 <= k < Position(c.value) && Required(Torrents(r), ColumnAt(Torrents(r), k)) ==>
              !IsNull(Torrents(r), ColumnAt(Torrents(r), k))
  {
    if r.infoHashV1.None? then Some(TorrentsInfoHashV1)
    else if r.fileCount.None? then Some(TorrentsFileCount)
    else if r.completedOn.None? then Some(TorrentsCompletedOn)
    else None
  }

  function MissingTorrentClientColumn(r: TorrentClient): (c: Option<Column>)
    ensures c.None? <==> Complete(TorrentClients(r))
    ensures c.Some? ==> Required(TorrentClients(r), c.value) && IsNull(TorrentClients(r), c.value)
    ensures c.Some? ==> forall k :: 0 <= k < Position(c.value) && Required(TorrentClients(r), ColumnAt(TorrentClients(r), k)) ==>
              !IsNull(TorrentClients(r), ColumnAt(TorrentClients(r), k))
  {
    if r.torrentId.None? then Some(TorrentClientsTorrentId)
    else if r.clientId.None? then Some(TorrentClientsClientId)
    else if r.name.None? then Some(TorrentClientsName)
    else if r.contentPath.None? then Some(TorrentClientsContentPath)
    else if r.lastSeen.None? then Some(TorrentClientsLastSeen)
    else None
  }

  function MissingTrackerColumn(r: Tracker): (c: Option<Column>)
    ensures c.None? <==> Complete(Trackers(r))
    ensures c.Some? ==> Required(Trackers(r), c.value) && IsNull(Trackers(r), c.value)
    ensures c.Some? ==> forall k :: 0 <= k < Position(c.value) && Required(Trackers(r), ColumnAt(Trackers(r), k)) ==>
              !IsNull(Trackers(r), ColumnAt(Trackers(r), k))
  {
    if r.url.None? then Some(TrackersUrl)
    else if r.lastSeen.None? then Some(TrackersLastSeen)
    else None
  }

  function MissingTorrentTrackerColumn(r: TorrentTracker): (c: Option<Column>)
    ensures c.None? <==> Complete(TorrentTrackers(r))
    ensures c.Some? ==> Required(TorrentTrackers(r), c.value) && IsNull(TorrentTrackers(r), c.value)
    ensures c.Some? ==> forall k :: 0 <= k < Position(c.value) && Required(TorrentTrackers(r), ColumnAt(TorrentTrackers(r), k)) ==>
              !IsNull(TorrentTrackers(r), ColumnAt(TorrentTrackers(r), k))
  {
    if r.clientId.None? then Some(TorrentTrackersClientId)
    else if r.torrentId.None? then Some(TorrentTrackersTorrentId)
    else if r.trackerId.None? then Some(TorrentTrackersTrackerId)
    else if r.lastSeen.None? then Some(TorrentTrackersLastSeen)
    else None
  }

  function MissingFileColumn(r: File): (c: Option<Column>)
    ensures c.None? <==> Complete(Files(r))
    ensures c.Some? ==> Required(Files(r), c.value) && IsNull(Files(r), c.value)
    ensures c.Some? ==> forall k :: 0 <= k < Position(c.value) && Required(Files(r), ColumnAt(Files(r), k)) ==>
              !IsNull(Files(r), ColumnAt(Files(r), k))
  {
    if r.size.None? then Some(FilesSize)
    else if r.oshash.None? then Some(FilesOshash)
    else None
  }

  function MissingTorrentFileColumn(r: TorrentFile): (c: Option<Column>)
    ensures c.None? <==> Complete(TorrentFiles(r))
    ensures c.Some? ==> Required(TorrentFiles(r), c.value) && IsNull(TorrentFiles(r), c.value)
    ensures c.Some? ==> forall k :: 0 <= k < Position(c.value) && Required(TorrentFiles(r), ColumnAt(TorrentFiles(r), k)) ==>
              !IsNull(TorrentFiles(r), ColumnAt(TorrentFiles(r), k))
  {
    if r.fileId.None? then Some(TorrentFilesFileId)
    else if r.torrentId.None? then Some(TorrentFilesTorrentId)
    else if r.clientId.None? then Some(TorrentFilesClientId)
    else if r.fileIndex.None? then Some(TorrentFilesFileIndex)
    else if r.filePath.None? then Some(TorrentFilesFilePath)
    else if r.isDownloaded.None? then Some(TorrentFilesIsDownloaded)
    else if r.lastChecked.None? then Some(TorrentFilesLastChecked)
    else None
  }

  // ---------------------------------------------------------------------------
  // Unique keys. A key is None when one of its columns is NULL; as in SQL,
  // such a row never clashes with another.
  // ---------------------------------------------------------------------------

  function ClientName(r: Client): Option<string> { r.name }
  function ClientUuid(r: Client): Option<string> { r.uuid }
  function TorrentHashV1(r: Torrent): Option<string> { r.infoHashV1 }
  function TorrentHashV2(r: Torrent): Option<string> { r.infoHashV2 }
  function TrackerUrl(r: Tracker): Option<string> { r.url }
  function FileOshash(r: File): Option<string> { r.oshash }
  function FileHash(r: File): Option<string> { r.hash }

  function TorrentClientKey(r: TorrentClient): Option<(int, int)>
  {
    if r.torrentId.Some? && r.clientId.Some? then Some((r.torrentId.value, r.clientId.value))
    else None
  }

  function TorrentTrackerKey(r: TorrentTracker): Option<(int, int, int)>
  {
    if r.clientId.Some? && r.torrentId.Some? && r.trackerId.Some?
    then Some((r.clientId.value, r.torrentId.value, r.trackerId.value))
    else None
  }

  function TorrentFileKey(r: TorrentFile): Option<(int, int, int, int)>
  {
    if r.fileId.Some? && r.torrentId.Some? && r.clientId.Some? && r.fileIndex.Some?
    then Some((r.fileId.value, r.torrentId.value, r.clientId.value, r.fileIndex.value))
    else None
  }

  /** No two rows share a non-NULL value of `key`. */
  predicate UniqueOn<R, K(==)>(rows: seq<R>, key: R -> Option<K>)
  {
    forall i, j :: 0 <= i < j < |rows| && key(rows[i]).Some? ==> key(rows[i]) != key(rows[j])
  }

  /** Adding `r` to `rows` would not repeat a non-NULL value of `key`. */
  predicate KeyFree<R, K(==)>(rows: seq<R>, key: R -> Option<K>, r: R)
  {
    key(r).None? || forall i :: 0 <= i < |rows| ==> key(rows[i]) != key(r)
  }

  lemma UniqueOnAppend<R, K>(rows: seq<R>, key: R -> Option<K>, r: R)
    requires UniqueOn(rows, key)
    ensures UniqueOn(rows + [r], key) <==> KeyFree(rows, key, r)
  {
    var s := rows + [r];
    assert forall i :: 0 <= i < |rows| ==> s[i] == rows[i];
    assert s[|rows|] == r;
    if !KeyFree(rows, key, r) {
      var i :| 0 <= i < |rows| && key(rows[i]) == key(r);
      assert key(s[i]).Some? && key(s[i]) == key(s[|rows|]);
    }
  }

  /** Every UNIQUE constraint of the table the row goes to still holds with it added. */
  predicate KeysFree(db: Db, row: Row)
  {
    match row
    case SchemaVersions(_) => true
    case Clients(r) => KeyFree(db.clients, ClientName, r) && KeyFree(db.clients, ClientUuid, r)
    case Torrents(r) => KeyFree(db.torrents, TorrentHashV1, r) && KeyFree(db.torrents, TorrentHashV2, r)
    case TorrentClients(r) => KeyFree(db.torrentClients, TorrentClientKey, r)
    case Trackers(r) => KeyFree(db.trackers, TrackerUrl, r)
    case TorrentTrackers(r) => KeyFree(db.torrentTrackers, TorrentTrackerKey, r)
    case Files(r) => KeyFree(db.files, FileOshash, r) && KeyFree(db.files, FileHash, r)
    case TorrentFiles(r) => KeyFree(db.torrentFiles, TorrentFileKey, r)
  }

  /** The first of up to two UNIQUE constraints that does not hold, by name. */
  function FirstClash(free1: bool, key1: seq<Column>, free2: bool, key2: seq<Column>): (c: Option<seq<Column>>)
    ensures c.None? <==> free1 && free2
    ensures !free1 ==> c == Some(key1)
    ensures free1 && !free2 ==> c == Some(key2)
  {
    if !free1 then Some(key1) else if !free2 then Some(key2) else None
  }

  /**
   * A UNIQUE constraint the row would break, named by its columns; the
   * constraints are tried in declaration order, and `None` means none clashes.
   */
  function DuplicateKey(db: Db, row: Row): (c: Option<seq<Column>>)
    ensures c.None? <==> KeysFree(db, row)
  {
    match row
    case SchemaVersions(_) => None
    case Clients(r) =>
      FirstClash(KeyFree(db.clients, ClientName, r), [ClientsName],
                 KeyFree(db.clients, ClientUuid, r), [ClientsUuid])
    case Torrents(r) =>
      FirstClash(KeyFree(db.torrents, TorrentHashV1, r), [TorrentsInfoHashV1],
                 KeyFree(db.torrents, TorrentHashV2, r), [TorrentsInfoHashV2])
    case TorrentClients(r) =>
      FirstClash(KeyFree(db.torrentClients, TorrentClientKey, r),
                 [TorrentClientsTorrentId, TorrentClientsClientId], true, [])
    case Trackers(r) =>
      FirstClash(KeyFree(db.trackers, TrackerUrl, r), [TrackersUrl], true, [])
    case TorrentTrackers(r) =>
      FirstClash(KeyFree(db.torrentTrackers, TorrentTrackerKey, r),
                 [TorrentTrackersClientId, TorrentTrackersTorrentId, TorrentTrackersTrackerId],
                 true, [])
    case Files(r) =>
      FirstClash(KeyFree(db.files, FileOshash, r), [FilesOshash],
                 KeyFree(db.files, FileHash, r), [FilesHash])
    case TorrentFiles(r) =>
      FirstClash(KeyFree(db.torrentFiles, TorrentFileKey, r),
                 [TorrentFilesFileId, TorrentFilesTorrentId, TorrentFilesClientId, TorrentFilesFileIndex],
                 true, [])
  }

  // ---------------------------------------------------------------------------
  // Declared parent references (ForeignKey columns)
  // ---------------------------------------------------------------------------

  /** A reference is NULL or the id of one of the `count` rows of its parent table. */
  predicate Refers(count: nat, ref: Option<int>)
  {
    ref.None? || 1 <= ref.value <= count
  }

  predicate ParentsExist(db: Db, row: Row)
  {
    match row
    case TorrentClients(r) => Refers(|db.torrents|, r.torrentId) && Refers(|db.clients|, r.clientId)
    case TorrentTrackers(r) =>
      Refers(|db.clients|, r.clientId) && Refers(|db.torrents|, r.torrentId)
      && Refers(|db.trackers|, r.trackerId)
    case TorrentFiles(r) =>
      Refers(|db.files|, r.fileId) && Refers(|db.torrents|, r.torrentId)
      && Refers(|db.clients|, r.clientId)
    case _ => true
  }

  /**
   * A reference column whose parent row is missing; the columns are tried in
   * declaration order, and `None` means every reference resolves.
   */
  function DanglingReference(db: Db, row: Row): (c: Option<Column>)
    ensures c.None? <==> ParentsExist(db, row)
  {
    match row
    case TorrentClients(r) =>
      if !Refers(|db.torrents|, r.torrentId) then Some(TorrentClientsTorrentId)
      else if !Refers(|db.clients|, r.clientId) then Some(TorrentClientsClientId)
      else None
    case TorrentTrackers(r) =>
      if !Refers(|db.clients|, r.clientId) then Some(TorrentTrackersClientId)
      else if !Refers(|db.torrents|, r.torrentId) then Some(TorrentTrackersTorrentId)
      else if !Refers(|db.trackers|, r.trackerId) then Some(TorrentTrackersTrackerId)
      else None
    case TorrentFiles(r) =>
      if !Refers(|db.files|, r.fileId) then Some(TorrentFilesFileId)
      else if !Refers(|db.torrents|, r.torrentId) then Some(TorrentFilesTorrentId)
      else if !Refers(|db.clients|, r.clientId) then Some(TorrentFilesClientId)
      else None
    case _ => None
  }

  // ---------------------------------------------------------------------------
  // The store invariant
  // ---------------------------------------------------------------------------

  predicate ColumnsComplete(db: Db)
  {
    && (forall i :: 0 <= i < |db.schemaVersions| ==> Complete(SchemaVersions(db.schemaVersions[i])))
    && (forall i :: 0 <= i < |db.clients| ==> Complete(Clients(db.clients[i])))
    && (forall i :: 0 <= i < |db.torrents| ==> Complete(Torrents(db.torrents[i])))
    && (forall i :: 0 <= i < |db.torrentClients| ==> Complete(TorrentClients(db.torrentClients[i])))
    && (forall i :: 0 <= i < |db.trackers| ==> Complete(Trackers(db.trackers[i])))
    && (forall i :: 0 <= i < |db.torrentTrackers| ==> Complete(TorrentTrackers(db.torrentTrackers[i])))
    && (forall i :: 0 <= i < |db.files| ==> Complete(Files(db.files[i])))
    && (forall i :: 0 <= i < |db.torrentFiles| ==> Complete(TorrentFiles(db.torrentFiles[i])))
  }

  predicate KeysUnique(db: Db)
  {
    && UniqueOn(db.clients, ClientName) && UniqueOn(db.clients, ClientUuid)
    && UniqueOn(db.torrents, TorrentHashV1) && UniqueOn(db.torrents, TorrentHashV2)
    && UniqueOn(db.torrentClients, TorrentClientKey)
    && UniqueOn(db.trackers, TrackerUrl)
    && UniqueOn(db.torrentTrackers, TorrentTrackerKey)
    && UniqueOn(db.files, FileOshash) && UniqueOn(db.files, FileHash)
    && UniqueOn(db.torrentFiles, TorrentFileKey)
  }

  predicate ParentsPresent(db: Db)
  {
    && (forall i :: 0 <= i < |db.torrentClients| ==> ParentsExist(db, TorrentClients(db.torrentClients[i])))
    && (forall i :: 0 <= i < |db.torrentTrackers| ==> ParentsExist(db, TorrentTrackers(db.torrentTrackers[i])))
    && (forall i :: 0 <= i < |db.torrentFiles| ==> ParentsExist(db, TorrentFiles(db.torrentFiles[i])))
  }

  /**
   * Every stored row has its required columns, no UNIQUE key repeats and
   * every reference resolves. In a valid store a client is identified by its
   * name and by its uuid, a torrent by its v1 info hash, a tracker by its url
   * and a file by its oshash.
   */
  predicate Valid(db: Db): (b: bool)
    ensures b ==> forall i, j :: 0 <= i < j < |db.clients| ==>
              db.clients[i].name != db.clients[j].name && db.clients[i].uuid != db.clients[j].uuid
    ensures b ==> forall i, j :: 0 <= i < j < |db.torrents| ==> db.torrents[i].infoHashV1 != db.torrents[j].infoHashV1
    ensures b ==> forall i, j :: 0 <= i < j < |db.trackers| ==> db.trackers[i].url != db.trackers[j].url
    ensures b ==> forall i, j :: 0 <= i < j < |db.files| ==> db.files[i].oshash != db.files[j].oshash
  {
    ColumnsComplete(db) && KeysUnique(db) && ParentsPresent(db)
  }

  // ---------------------------------------------------------------------------
  // Insertion (session.add followed by commit)
  // ---------------------------------------------------------------------------

  /** Every table of `db` is a prefix of the same table of `db'`: no stored row changes or moves. */
  predicate Extends(db: Db, db': Db)
  {
    && db.schemaVersions <= db'.schemaVersions && db.clients <= db'.clients
    && db.torrents <= db'.torrents && db.torrentClients <= db'.torrentClients
    && db.trackers <= db'.trackers && db.torrentTrackers <= db'.torrentTrackers
    && db.files <= db'.files && db.torrentFiles <= db'.torrentFiles
  }

  /** The number of rows in the whole store. */
  function RowCount(db: Db): nat
  {
    |db.schemaVersions| + |db.clients| + |db.torrents| + |db.torrentClients|
    + |db.trackers| + |db.torrentTrackers| + |db.files| + |db.torrentFiles|
  }

  /**
   * The store with `row` appended to its table and every other table as it
   * was: the stored rows keep their ids and exactly one row is added.
   */
  function Appended(db: Db, row: Row): (r: Db)
    ensures Extends(db, r) && RowCount(r) == RowCount(db) + 1
    ensures row.SchemaVersions? ==> r == db.(schemaVersions := db.schemaVersions + [row.sv])
    ensures row.Clients? ==> r == db.(clients := db.clients + [row.c])
    ensures row.Torrents? ==> r == db.(torrents := db.torrents + [row.t])
    ensures row.TorrentClients? ==> r == db.(torrentClients := db.torrentClients + [row.tc])
    ensures row.Trackers? ==> r == db.(trackers := db.trackers + [row.tr])
    ensures row.TorrentTrackers? ==> r == db.(torrentTrackers := db.torrentTrackers + [row.tt])
    ensures row.Files? ==> r == db.(files := db.files + [row.f])
    ensures row.TorrentFiles? ==> r == db.(torrentFiles := db.torrentFiles + [row.tf])
  {
    match row
    case SchemaVersions(r) => db.(schemaVersions := db.schemaVersions + [r])
    case Clients(r) => db.(clients := db.clients + [r])
    case Torrents(r) => db.(torrents := db.torrents + [r])
    case TorrentClients(r) => db.(torrentClients := db.torrentClients + [r])
    case Trackers(r) => db.(trackers := db.trackers + [r])
    case TorrentTrackers(r) => db.(torrentTrackers := db.torrentTrackers + [r])
    case Files(r) => db.(files := db.files + [r])
    case TorrentFiles(r) => db.(torrentFiles := db.torrentFiles + [r])
  }

  /** The store accepts `row`: its required columns are set, it repeats no key and its parents exist. */
  predicate Admissible(db: Db, row: Row)
  {
    Complete(row) && KeysFree(db, row) && ParentsExist(db, row)
  }

  /**
   * Insert one row and commit. NOT NULL is checked first, then UNIQUE, then
   * the declared references; a refused insert leaves the store as it was.
   */
  function Insert(db: Db, row: Row): (res: Result<Db, DbError>)
    ensures res.Success? <==> Admissible(db, row)
    ensures res.Success? ==> res.value == Appended(db, row)
    ensures res.Failure? && !Complete(row) ==> res.error.NotNull?
    ensures res.Failure? && Complete(row) && !KeysFree(db, row) ==> res.error.Duplicate?
  {
    match MissingColumn(row)
    case Some(c) => Failure(NotNull(c))
    case None =>
      match DuplicateKey(db, row)
      case Some(k) => Failure(Duplicate(k))
      case None =>
        match DanglingReference(db, row)
        case Some(p) => Failure(MissingParent(p))
        case None => Success(Appended(db, row))
  }

  lemma EmptyDbValid()
    ensures Valid(EmptyDb())
  {
  }

  /** Appending a row never breaks a reference already stored: parent tables only grow. */
  lemma ParentsPresentAppended(db: Db, row: Row)
    requires ParentsPresent(db)
    requires ParentsExist(db, row)
    ensures ParentsPresent(Appended(db, row))
  {
    var db' := Appended(db, row);
    assert |db.torrents| <= |db'.torrents| && |db.clients| <= |db'.clients|;
    assert |db.trackers| <= |db'.trackers| && |db.files| <= |db'.files|;
    forall i | 0 <= i < |db'.torrentClients|
      ensures ParentsExist(db', TorrentClients(db'.torrentClients[i]))
    {
      if i < |db.torrentClients| {
        assert db'.torrentClients[i] == db.torrentClients[i];
        assert ParentsExist(db, TorrentClients(db.torrentClients[i]));
      }
    }
    forall i | 0 <= i < |db'.torrentTrackers|
      ensures ParentsExist(db', TorrentTrackers(db'.torrentTrackers[i]))
    {
      if i < |db.torrentTrackers| {
        assert db'.torrentTrackers[i] == db.torrentTrackers[i];
        assert ParentsExist(db, TorrentTrackers(db.torrentTrackers[i]));
      }
    }
    forall i | 0 <= i < |db'.torrentFiles|
      ensures ParentsExist(db', TorrentFiles(db'.torrentFiles[i]))
    {
      if i < |db.torrentFiles| {
        assert db'.torrentFiles[i] == db.torrentFiles[i];
        assert ParentsExist(db, TorrentFiles(db.torrentFiles[i]));
      }
    }
  }

  /** On a valid store the UNIQUE keys survive the append exactly when the row repeats none. */
  lemma KeysUniqueAppended(db: Db, row: Row)
    requires KeysUnique(db)
    ensures KeysUnique(Appended(db, row)) <==> KeysFree(db, row)
  {
    match row
    case SchemaVersions(r) =>
    case Clients(r) =>
      UniqueOnAppend(db.clients, ClientName, r);
      UniqueOnAppend(db.clients, ClientUuid, r);
    case Torrents(r) =>
      UniqueOnAppend(db.torrents, TorrentHashV1, r);
      UniqueOnAppend(db.torrents, TorrentHashV2, r);
    case TorrentClients(r) => UniqueOnAppend(db.torrentClients, TorrentClientKey, r);
    case Trackers(r) => UniqueOnAppend(db.trackers, TrackerUrl, r);
    case TorrentTrackers(r) => UniqueOnAppend(db.torrentTrackers, TorrentTrackerKey, r);
    case Files(r) =>
      UniqueOnAppend(db.files, FileOshash, r);
      UniqueOnAppend(db.files, FileHash, r);
    case TorrentFiles(r) => UniqueOnAppend(db.torrentFiles, TorrentFileKey, r);
  }

  /** Required columns survive the append exactly when the new row has them. */
  lemma ColumnsCompleteAppended(db: Db, row: Row)
    requires ColumnsComplete(db)
    ensures ColumnsComplete(Appended(db, row)) <==> Complete(row)
  {
    var db' := Appended(db, row);
    match row
    case SchemaVersions(r) => assert db'.schemaVersions[|db.schemaVersions|] == r;
    case Clients(r) => assert db'.clients[|db.clients|] == r;
    case Torrents(r) => assert db'.torrents[|db.torrents|] == r;
    case TorrentClients(r) => assert db'.torrentClients[|db.torrentClients|] == r;
    case Trackers(r) => assert db'.trackers[|db.trackers|] == r;
    case TorrentTrackers(r) => assert db'.torrentTrackers[|db.torrentTrackers|] == r;
    case Files(r) => assert db'.files[|db.files|] == r;
    case TorrentFiles(r) => assert db'.torrentFiles[|db.torrentFiles|] == r;
  }

  /** A committed insert keeps the store valid. */
  lemma InsertPreservesValid(db: Db, row: Row)
    requires Valid(db)
    requires Insert(db, row).Success?
    ensures Valid(Insert(db, row).value)
  {
    ColumnsCompleteAppended(db, row);
    KeysUniqueAppended(db, row);
    ParentsPresentAppended(db, row);
  }

  /**
   * The store refuses exactly the rows whose insertion would break its
   * invariant: on a valid store, an insert commits iff the store with the
   * row appended is valid.
   */
  lemma InsertRefusesExactlyInvalid(db: Db, row: Row)
    requires Valid(db)
    ensures Insert(db, row).Success? <==> Valid(Appended(db, row))
  {
    ColumnsCompleteAppended(db, row);
    KeysUniqueAppended(db, row);
    if Complete(row) && KeysFree(db, row) && !ParentsExist(db, row) {
      var db' := Appended(db, row);
      match row
      case TorrentClients(r) => assert db'.torrentClients[|db.torrentClients|] == r;
      case TorrentTrackers(r) => assert db'.torrentTrackers[|db.torrentTrackers|] == r;
      case TorrentFiles(r) => assert db'.torrentFiles[|db.torrentFiles|] == r;
    }
    if Admissible(db, row) {
      ParentsPresentAppended(db, row);
    }
  }
}
