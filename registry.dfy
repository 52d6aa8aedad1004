/**
 * The storage helpers of tarc/main.py: the schema constant, the table
 * listing, database initialisation and the client registry (add, find by
 * endpoint, list).
 */
module Registry {
  import opened Wrappers
  import opened Models

  /** The schema stamp the build expects, YYYYMMDD followed by a sequence digit. */
  const SCHEMA: int := 202410060

  /**
   * What the program sees of the SQLite engine: the tables the file holds,
   * its `PRAGMA user_version`, and whether a connect hook that stamps
   * SCHEMA into `user_version` has been registered.
   */
  datatype EngineState = EngineState(tables: set<string>, userVersion: int, stampsOnConnect: bool)

  /**
   * `list_tables`: the table names declared by the model metadata. The
   * engine is not consulted, so the answer is the same for every database,
   * empty or not.
   */
  function ListTables(engine: EngineState): (r: seq<string>)
    ensures |r| == 8
    ensures forall n :: n in r <==> n in TableNames
  {
    TableNames
  }

  /** Whatever the database holds, the listing is the same and never empty. */
  lemma ListTablesIgnoresDatabase(a: EngineState, b: EngineState)
    ensures ListTables(a) == ListTables(b)
    ensures |ListTables(a)| != 0
  {
  }

  /**
   * `init_db`: create every declared table that is absent (existing tables
   * are left as they are) and register the hook that stamps SCHEMA into
   * `user_version` on every new connection.
   */
  function InitDb(engine: EngineState): (r: EngineState)
    ensures engine.tables <= r.tables
    ensures forall n :: n in TableNames ==> n in r.tables
    ensures forall n :: n in r.tables ==> n in engine.tables || n in TableNames
    ensures r.stampsOnConnect && r.userVersion == engine.userVersion
  {
    EngineState(engine.tables + (set n | n in TableNames), engine.userVersion, true)
  }

  /** Initialising twice is the same as initialising once. */
  lemma InitDbIdempotent(engine: EngineState)
    ensures InitDb(InitDb(engine)) == InitDb(engine)
  {
    assert InitDb(InitDb(engine)).tables == InitDb(engine).tables;
  }

  /**
   * The `user_version` a new connection reads: the stamping hook, if
   * registered, runs first and overwrites the stored value with SCHEMA.
   */
  function VersionOnConnect(engine: EngineState): (v: int)
    ensures !engine.stampsOnConnect ==> v == engine.userVersion
    ensures engine.stampsOnConnect ==> v == SCHEMA
  {
    if engine.stampsOnConnect then SCHEMA else engine.userVersion
  }

  /** After `init_db`, every new connection reads SCHEMA, whatever `user_version` the file held. */
  lemma InitDbStampsSchema(engine: EngineState)
    ensures VersionOnConnect(InitDb(engine)) == SCHEMA
  {
  }

  // ---------------------------------------------------------------------------
  // Client registry
  // ---------------------------------------------------------------------------

  /** One result of `find_client`: the `(id, name, uuid)` columns of a matching client. */
  datatype ClientMatch = ClientMatch(id: int, name: Option<string>, uuid: Option<string>)

  /** `m` reports the stored client with id `m.id`, whose endpoint is `endpoint`. */
  predicate IsMatch(clients: seq<Client>, endpoint: string, m: ClientMatch)
  {
    1 <= m.id <= |clients|
    && clients[m.id - 1].endpoint == Some(endpoint)
    && m.name == clients[m.id - 1].name
    && m.uuid == clients[m.id - 1].uuid
  }

  /** The `(id, name, uuid)` of the client stored at position `i`. */
  function MatchOf(clients: seq<Client>, i: nat): ClientMatch
    requires i < |clients|
  {
    ClientMatch(i + 1, clients[i].name, clients[i].uuid)
  }

  /** The matches among the first `n` clients, in id order. */
  function MatchesAmong(clients: seq<Client>, endpoint: string, n: nat): (r: seq<ClientMatch>)
    requires n <= |clients|
    ensures forall k :: 0 <= k < |r| ==> IsMatch(clients, endpoint, r[k]) && r[k].id <= n
    ensures forall k, l :: 0 <= k < l < |r| ==> r[k].id < r[l].id
    ensures forall i :: 0 <= i < n ==>
              (clients[i].endpoint == Some(endpoint) <==> MatchOf(clients, i) in r)
    ensures |r| <= n
    decreases n
  {
    if n == 0 then []
    else
      var earlier := MatchesAmong(clients, endpoint, n - 1);
      if clients[n - 1].endpoint == Some(endpoint)
      then earlier + [MatchOf(clients, n - 1)]
      else earlier
  }

  /**
   * `find_client`: every client whose endpoint equals `endpoint`, each once,
   * in id order. Endpoints are not unique, so there may be any number.
   */
  function FindClient(db: Db, endpoint: string): (r: seq<ClientMatch>)
    ensures forall k :: 0 <= k < |r| ==> IsMatch(db.clients, endpoint, r[k])
    ensures forall k, l :: 0 <= k < l < |r| ==> r[k].id < r[l].id
    ensures forall i :: 0 <= i < |db.clients| ==>
              (db.clients[i].endpoint == Some(endpoint) <==> MatchOf(db.clients, i) in r)
    ensures |r| <= |db.clients|
  {
    MatchesAmong(db.clients, endpoint, |db.clients|)
  }

  /** Appending a client leaves the matches among the clients already stored as they were. */
  lemma {:induction false} MatchesAmongAppend(clients: seq<Client>, c: Client, endpoint: string, n: nat)
    requires n <= |clients|
    ensures MatchesAmong(clients + [c], endpoint, n) == MatchesAmong(clients, endpoint, n)
    decreases n
  {
    if n > 0 {
      MatchesAmongAppend(clients, c, endpoint, n - 1);
      assert (clients + [c])[n - 1] == clients[n - 1];
    }
  }

  /**
   * After a client is added, `find_client` answers as before, plus the new
   * client (with the next id) when its endpoint is the one asked for.
   */
  lemma FindClientAfterAdd(db: Db, c: Client, endpoint: string)
    ensures FindClient(Appended(db, Clients(c)), endpoint) ==
            FindClient(db, endpoint) +
            (if c.endpoint == Some(endpoint) then [ClientMatch(|db.clients| + 1, c.name, c.uuid)] else [])
  {
    MatchesAmongAppend(db.clients, c, endpoint, |db.clients|);
    assert (db.clients + [c])[|db.clients|] == c;
  }

  /**
   * Any two stored clients that share an endpoint are both reported by
   * `find_client`, the earlier one first.
   */
  lemma SharedEndpointFindsBoth(db: Db, i: nat, j: nat)
    requires i < j < |db.clients|
    requires db.clients[i].endpoint.Some? && db.clients[j].endpoint == db.clients[i].endpoint
    ensures var r := FindClient(db, db.clients[i].endpoint.value);
      && MatchOf(db.clients, i) in r && MatchOf(db.clients, j) in r
      && forall k, l :: 0 <= k < |r| && 0 <= l < |r| && r[k] == MatchOf(db.clients, i) && r[l] == MatchOf(db.clients, j) ==> k < l
  {
  }

  /**
   * The store accepts a client whose name and uuid are new, whatever its
   * endpoint: only `name` and `uuid` are UNIQUE, so an endpoint already in
   * use is no obstacle.
   */
  lemma FreshClientAdmissible(db: Db, c: Client, endpoint: string)
    requires Complete(Clients(c))
    requires forall i :: 0 <= i < |db.clients| ==> db.clients[i].name != c.name && db.clients[i].uuid != c.uuid
    ensures Admissible(db, Clients(c.(endpoint := Some(endpoint))))
  {
  }

  /** One row of `list_clients`: a stored client with its id. */
  datatype StoredClient = StoredClient(id: int, client: Client)

  /** `list_clients`: every stored client, with its id, in id order. */
  function ListClients(db: Db): (r: seq<StoredClient>)
    ensures |r| == |db.clients|
    ensures forall i :: 0 <= i < |r| ==> r[i] == StoredClient(i + 1, db.clients[i])
  {
    seq(|db.clients|, i requires 0 <= i < |db.clients| => StoredClient(i + 1, db.clients[i]))
  }

  /** After a client is added, `list_clients` answers as before with the new client last. */
  lemma ListClientsAfterAdd(db: Db, c: Client)
    ensures ListClients(Appended(db, Clients(c))) == ListClients(db) + [StoredClient(|db.clients| + 1, c)]
  {
    var after := ListClients(Appended(db, Clients(c)));
    var expected := ListClients(db) + [StoredClient(|db.clients| + 1, c)];
    assert |after| == |expected|;
    forall i | 0 <= i < |after| ensures after[i] == expected[i] {
      if i < |db.clients| {
        assert (db.clients + [c])[i] == db.clients[i];
      }
    }
  }

  /**
   * The client row `add_client` hands to the store: the given name, endpoint
   * and last-seen time and the fresh uuid. It lacks a required column exactly
   * when one of the three arguments is None.
   */
  function NewClient(name: Option<string>, endpoint: Option<string>, lastSeen: Option<Timestamp>, uuid: string): (c: Client)
    ensures c.name == name && c.endpoint == endpoint && c.lastSeen == lastSeen && c.uuid == Some(uuid)
    ensures Complete(Clients(c)) <==> name.Some? && endpoint.Some? && lastSeen.Some?
  {
    Client(name, Some(uuid), endpoint, lastSeen)
  }

  /** A database session: the stored rows that queries read and commits change. */
  class Session {
    var db: Db

    ghost predicate Valid()
      reads this
    {
      Models.Valid(db)
    }

    constructor (initial: Db)
      requires Models.Valid(initial)
      ensures Valid() && db == initial
    {
      db := initial;
    }

    /**
     * `add_client`: add a client with the given name, endpoint and last-seen
     * time and a fresh uuid (supplied by the caller), then commit. The store
     * refuses it when a column is missing or the name or uuid is taken; the
     * session is then left as it was.
     */
    method AddClient(name: Option<string>, endpoint: Option<string>, lastSeen: Option<Timestamp>, freshUuid: string)
      returns (refused: Option<DbError>)
      requires Valid()
      modifies this
      ensures Valid()
      ensures refused.None? <==> Admissible(old(db), Clients(NewClient(name, endpoint, lastSeen, freshUuid)))
      ensures refused.None? ==> db == Appended(old(db), Clients(NewClient(name, endpoint, lastSeen, freshUuid)))
      ensures refused.Some? ==> db == old(db) && refused == Some(Insert(db, Clients(NewClient(name, endpoint, lastSeen, freshUuid))).error)
    {
      var row := Clients(NewClient(name, endpoint, lastSeen, freshUuid));
      var result := Insert(db, row);
      match result {
        case Success(next) =>
          InsertPreservesValid(db, row);
          db := next;
          refused := None;
        case Failure(e) =>
          refused := Some(e);
      }
    }
  }
}
