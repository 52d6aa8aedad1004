/**
 * The `scan` command of tarc/main.py as a decision procedure: from the parsed
 * arguments, what the database and the daemon answer, and the fresh uuid and
 * clock reading the program would draw, to an exit code and at most one
 * effect (a client added, or the first two torrents reported).
 */
module Scan {
  import opened Wrappers
  import opened Models
  import opened Registry
  import opened Snapshot
  import Version

  /** The `scan` options that decide the outcome (parsed by argparse, not modelled). */
  datatype ScanArgs = ScanArgs(
    directory: Option<string>,
    endpoint: Option<string>,
    name: Option<string>,
    confirmAdd: bool)

  /** Everything the command reads from outside. */
  datatype ScanInput = ScanInput(
    args: ScanArgs,
    storageOpens: bool,                   // the engine is created and its first connect succeeds
    tables: set<string>,                  // the tables the database file holds
    userVersion: int,                     // its PRAGMA user_version
    db: Db,                               // the rows of the database
    remoteVersion: Option<string>,        // `qbittorrent_version` of the daemon
    torrents: seq<RemoteTorrent>,         // `torrents()` of the daemon
    now: Timestamp,                       // `datetime.now(timezone.utc)`
    freshUuid: string)                    // `str(uuid.uuid4())`

  /** Why a scan stops with exit code 1. */
  datatype Failure =
    | StorageUnavailable
    | SchemaMismatch(found: int)
    | TargetMissing                       // neither --directory nor --endpoint
    | VersionMissing
    | VersionRejected
    | ClientsTableMissing                 // the client query raises
    | NameRequired
    | ClientExists(existing: ClientMatch)
    | EndpointShared(count: nat)          // --confirm-add and several clients match
    | ClientNotFound
    | ClientsAmbiguous(count: nat)        // several clients match
    | InsertRefused(error: DbError)       // the commit of add_client raises
    | EntryIncomplete                     // a reported torrent lacks a key the loop reads

  datatype Outcome =
    | Failed(reason: Failure)
    | DirectoryNotImplemented
    | ClientAdded(db: Db)
    | TorrentsReported(listing: Listing)

  function ExitCode(o: Outcome): int
  {
    if o.Failed? then 1 else 0
  }

  /** The engine as the command finds it: no connect hook is registered yet. */
  function Engine(inp: ScanInput): EngineState
  {
    EngineState(inp.tables, inp.userVersion, false)
  }

  /** The engine after the start-up step: `init_db` runs only when `list_tables` is empty. */
  function StartUp(engine: EngineState): EngineState
  {
    if |ListTables(engine)| == 0 then InitDb(engine) else engine
  }

  /** The row `scan --confirm-add --name` asks the store to add. */
  function RequestedClient(inp: ScanInput): Client
    requires inp.args.endpoint.Some?
  {
    NewClient(inp.args.name, inp.args.endpoint, Some(inp.now), inp.freshUuid)
  }

  /**
   * The whole command. Nothing but a failure comes out of a run whose storage
   * did not open or whose `user_version` is not SCHEMA, and the directory
   * stub answers exactly the runs that pass the gate with `--directory`.
   */
  function Scan(inp: ScanInput): (o: Outcome)
    ensures !o.Failed? ==> inp.storageOpens && inp.userVersion == SCHEMA
    ensures o.DirectoryNotImplemented? <==> inp.storageOpens && inp.userVersion == SCHEMA && inp.args.directory.Some?
  {
    if !inp.storageOpens then Failed(StorageUnavailable)
    else
      var found := VersionOnConnect(StartUp(Engine(inp)));
      if found != SCHEMA then Failed(SchemaMismatch(found))
      else if inp.args.directory.Some? then DirectoryNotImplemented
      else if inp.args.endpoint.None? then Failed(TargetMissing)
      else ScanEndpoint(inp, StartUp(Engine(inp)))
  }

  /**
   * The `--endpoint` branch, once the schema gate has passed. An effect needs
   * an accepted daemon version and a `clients` table; `--confirm-add` can only
   * add a client, its absence can only report torrents, and a report shows
   * only entries that carry every key it reads.
   */
  function ScanEndpoint(inp: ScanInput, engine: EngineState): (o: Outcome)
    requires inp.args.endpoint.Some?
    ensures o.ClientAdded? || o.TorrentsReported? ==>
              inp.remoteVersion.Some? && Version.Accepted(inp.remoteVersion.value) && "clients" in engine.tables
    ensures !o.DirectoryNotImplemented?
    ensures o.ClientAdded? ==> inp.args.confirmAdd
    ensures o.TorrentsReported? ==> !inp.args.confirmAdd && AllReadable(o.listing.shown)
  {
    if inp.remoteVersion.None? then Failed(VersionMissing)
    else if !Version.Accepted(inp.remoteVersion.value) then Failed(VersionRejected)
    else if "clients" !in engine.tables then Failed(ClientsTableMissing)
    else
      var clients := FindClient(inp.db, inp.args.endpoint.value);
      if inp.args.confirmAdd then
        if |clients| == 0 then
          if inp.args.name.None? then Failed(NameRequired)
          else
            match Insert(inp.db, Clients(RequestedClient(inp)))
            case Success(db') => ClientAdded(db')
            case Failure(e) => Failed(InsertRefused(e))
        else if |clients| == 1 then Failed(ClientExists(clients[0]))
        else Failed(EndpointShared(|clients|))
      else if |clients| == 0 then Failed(ClientNotFound)
      else if |clients| == 1 then
        var shown := FirstN(inp.torrents, 2);
        if AllReadable(shown) then TorrentsReported(Listing(|inp.torrents|, shown))
        else Failed(EntryIncomplete)
      else Failed(ClientsAmbiguous(|clients|))
  }

  /** The run reaches the client lookup: storage, schema, target and daemon version all pass. */
  predicate ReachesLookup(inp: ScanInput)
  {
    && inp.storageOpens
    && inp.userVersion == SCHEMA
    && inp.args.directory.None?
    && inp.args.endpoint.Some?
    && inp.remoteVersion.Some? && Version.Accepted(inp.remoteVersion.value)
    && "clients" in inp.tables
  }

  // ---------------------------------------------------------------------------
  // Properties of the dispatch
  // ---------------------------------------------------------------------------

  /** `list_tables` never comes back empty, so `init_db` is never reached. */
  lemma NeverInitialises(engine: EngineState)
    ensures StartUp(engine) == engine
  {
  }

  /** A store that cannot be opened stops the run with exit code 1. */
  lemma StorageFailureExits(inp: ScanInput)
    requires !inp.storageOpens
    ensures Scan(inp) == Failed(StorageUnavailable) && ExitCode(Scan(inp)) == 1
  {
  }

  /**
   * The schema gate: once storage opens, a stored `user_version` other than
   * SCHEMA (compared for equality only) stops the run before anything else
   * is considered, and only SCHEMA lets it through.
   */
  lemma SchemaGate(inp: ScanInput)
    requires inp.storageOpens
    ensures inp.userVersion != SCHEMA <==> Scan(inp) == Failed(SchemaMismatch(inp.userVersion))
  {
    NeverInitialises(Engine(inp));
  }

  /**
   * A fresh database file (no tables, `user_version` 0) is not initialised:
   * the run fails the schema gate.
   */
  lemma FreshStoreRejected(inp: ScanInput)
    requires inp.storageOpens
    requires inp.tables == {} && inp.userVersion == 0
    ensures Scan(inp) == Failed(SchemaMismatch(0))
  {
    NeverInitialises(Engine(inp));
  }

  /** After the gate, `--directory` ends the run with exit code 0 whatever else is given. */
  lemma DirectoryTakesPrecedence(inp: ScanInput)
    requires inp.storageOpens && inp.userVersion == SCHEMA
    requires inp.args.directory.Some?
    ensures Scan(inp) == DirectoryNotImplemented && ExitCode(Scan(inp)) == 0
  {
    NeverInitialises(Engine(inp));
  }

  /** After the gate, having neither `--directory` nor `--endpoint` exits 1. */
  lemma TargetRequired(inp: ScanInput)
    requires inp.storageOpens && inp.userVersion == SCHEMA
    requires inp.args.directory.None? && inp.args.endpoint.None?
    ensures Scan(inp) == Failed(TargetMissing)
  {
    NeverInitialises(Engine(inp));
  }

  /**
   * The daemon's version is checked before any client lookup: a missing
   * version and a version the pattern rejects both exit 1, and every effect
   * implies the version was accepted.
   */
  lemma RemoteVersionChecked(inp: ScanInput)
    requires inp.storageOpens && inp.userVersion == SCHEMA
    requires inp.args.directory.None? && inp.args.endpoint.Some?
    ensures inp.remoteVersion.None? ==> Scan(inp) == Failed(VersionMissing)
    ensures inp.remoteVersion.Some? && !Version.Accepted(inp.remoteVersion.value) ==>
              Scan(inp) == Failed(VersionRejected)
    ensures Scan(inp).ClientAdded? || Scan(inp).TorrentsReported? ==>
              inp.remoteVersion.Some? && Version.Accepted(inp.remoteVersion.value)
  {
    NeverInitialises(Engine(inp));
  }

  /**
   * `--confirm-add` adds a client exactly when the lookup is reached, no
   * client uses the endpoint, `--name` is given and the store accepts the
   * row; the store then holds exactly one new row, the requested client.
   */
  lemma ClientAddedIff(inp: ScanInput)
    ensures Scan(inp).ClientAdded? <==>
      && ReachesLookup(inp)
      && inp.args.confirmAdd
      && |FindClient(inp.db, inp.args.endpoint.value)| == 0
      && inp.args.name.Some?
      && Admissible(inp.db, Clients(RequestedClient(inp)))
    ensures Scan(inp).ClientAdded? ==>
      Scan(inp).db == Appended(inp.db, Clients(RequestedClient(inp)))
      && Scan(inp).db.clients[|inp.db.clients|] ==
         Client(inp.args.name, Some(inp.freshUuid), inp.args.endpoint, Some(inp.now))
  {
    NeverInitialises(Engine(inp));
  }

  /** With a valid store, an added client leaves the store valid. */
  lemma ClientAddedKeepsStoreValid(inp: ScanInput)
    requires Models.Valid(inp.db)
    requires Scan(inp).ClientAdded?
    ensures Models.Valid(Scan(inp).db)
  {
    NeverInitialises(Engine(inp));
    InsertPreservesValid(inp.db, Clients(RequestedClient(inp)));
  }

  /** The failures of `--confirm-add` once the lookup is reached. */
  lemma ConfirmAddFailures(inp: ScanInput)
    requires ReachesLookup(inp) && inp.args.confirmAdd
    ensures var n := |FindClient(inp.db, inp.args.endpoint.value)|;
      && (n == 0 && inp.args.name.None? ==> Scan(inp) == Failed(NameRequired))
      && (n == 1 ==> Scan(inp) == Failed(ClientExists(FindClient(inp.db, inp.args.endpoint.value)[0])))
      && (n > 1 ==> Scan(inp) == Failed(EndpointShared(n)))
      && (n == 0 && inp.args.name.Some? && !Admissible(inp.db, Clients(RequestedClient(inp))) ==>
            Scan(inp).Failed? && Scan(inp).reason.InsertRefused?)
  {
    NeverInitialises(Engine(inp));
  }

  /** `--confirm-add` never reports torrents. */
  lemma ConfirmAddNeverReports(inp: ScanInput)
    requires inp.args.confirmAdd
    ensures !Scan(inp).TorrentsReported?
  {
  }

  /**
   * Without `--confirm-add`, torrents are reported exactly when the lookup is
   * reached, exactly one client uses the endpoint and the first two entries
   * carry every key the loop reads; the report gives the total and the first
   * two torrents (all of them when there are fewer), in the daemon's order.
   */
  lemma TorrentsReportedIff(inp: ScanInput)
    ensures Scan(inp).TorrentsReported? <==>
      && ReachesLookup(inp) && !inp.args.confirmAdd && |FindClient(inp.db, inp.args.endpoint.value)| == 1
      && AllReadable(FirstN(inp.torrents, 2))
    ensures Scan(inp).TorrentsReported? ==>
      Scan(inp).listing == Listing(|inp.torrents|, FirstN(inp.torrents, 2))
  {
    NeverInitialises(Engine(inp));
  }

  /**
   * Without `--confirm-add`, no matching client, several matching clients, and
   * an entry among the first two that lacks a key the loop reads all exit 1.
   */
  lemma LookupFailures(inp: ScanInput)
    requires ReachesLookup(inp) && !inp.args.confirmAdd
    ensures var n := |FindClient(inp.db, inp.args.endpoint.value)|;
      && (n == 0 ==> Scan(inp) == Failed(ClientNotFound))
      && (n > 1 ==> Scan(inp) == Failed(ClientsAmbiguous(n)))
      && (n == 1 && !AllReadable(FirstN(inp.torrents, 2)) ==> Scan(inp) == Failed(EntryIncomplete))
  {
    NeverInitialises(Engine(inp));
  }

  /** A run that adds a client changes nothing but the client table, which gains exactly the requested row. */
  lemma ClientAddedChangesOnlyClients(inp: ScanInput)
    requires Scan(inp).ClientAdded?
    ensures Scan(inp).db == inp.db.(clients := inp.db.clients + [RequestedClient(inp)])
    ensures |Scan(inp).db.clients| == |inp.db.clients| + 1
  {
    ClientAddedIff(inp);
  }
}
