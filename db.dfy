/**
 * The database adapters: the checks each adapter makes on its connection
 * settings, the database source it builds for the engine (with the default
 * port of each server), how it reports failures, and the adapter factory.
 * Handing the source to the engine is a parameter.
 */
module DbAdapters {
  import opened Outcomes
  import opened Types
  import opened Errors
  import Engine

  /** `SQLiteConfig`; fields are optional because callers outside the type system can leave them out. */
  datatype SqliteConfig = SqliteConfig(path: Option<string>, table: Option<string>, query: Option<string>)

  /** `RemoteDbConfig`, shared by MySQL and PostgreSQL. */
  datatype RemoteDbConfig = RemoteDbConfig(
    host: Option<string>,
    port: Option<int>,
    database: Option<string>,
    username: Option<string>,
    password: Option<string>,
    table: Option<string>,
    query: Option<string>)

  /** The two server kinds a remote configuration can address. */
  datatype Vendor = MySqlServer | PostgresServer {
    /** The name used in messages. */
    function Label(): string {
      match this
      case MySqlServer => "MySQL"
      case PostgresServer => "PostgreSQL"
    }

    function DefaultPort(): int {
      match this
      case MySqlServer => 3306
      case PostgresServer => 5432
    }

    function Format(): DataFormat {
      match this
      case MySqlServer => MySql
      case PostgresServer => Postgres
    }
  }

  function Invalid(message: string): AuddError {
    CreateInvalidInput(message, None)
  }

  /** A text field as a detail value: `undefined` when absent. */
  function Detail(v: Option<string>): DetailValue {
    if v.Some? then Str(v.value) else Undefined
  }

  /** The adapters' `catch`: coded errors pass through; anything else becomes DB_CONNECTION_FAILED. */
  function CatchDb(server: string, details: Details, t: Thrown): Thrown {
    if HasCode(t) then t
    else Raised(CreateDbConnectionFailed("Failed to connect to " + server + ": " + t.message, Some(details)))
  }

  // SQLite

  /** The checks of `SQLiteAdapter.buildIR`. */
  function ValidateSqlite(config: SqliteConfig): Outcome<AuddError> {
    if !Truthy(config.path) then Fail(Invalid("SQLite path is required"))
    else if !Truthy(config.table) && !Truthy(config.query) then Fail(Invalid("Either table or query is required"))
    else Pass
  }

  /** The database source the SQLite adapter builds. */
  function SqliteSource(config: SqliteConfig): DbSourceConfig {
    DbSourceConfig(Sqlite, config.path, None, None, None, None, None, config.table, config.query)
  }

  /** `SQLiteAdapter.buildIR`; `engine` is handing the source to the engine. */
  function SqliteBuildIr(config: SqliteConfig, engine: DbSourceConfig -> Result<string, Thrown>): Result<string, Thrown> {
    var details := map["path" := Detail(config.path)];
    match ValidateSqlite(config)
    case Fail(e) => Failure(CatchDb("SQLite", details, Raised(e)))
    case Pass =>
      match engine(SqliteSource(config))
      case Success(ir) => Success(ir)
      case Failure(t) => Failure(CatchDb("SQLite", details, t))
  }

  /**
   * A missing path is reported before the table-or-query check, and either
   * a table or a query is enough.
   */
  lemma ValidateSqliteSpec(config: SqliteConfig)
    ensures ValidateSqlite(config).Pass? <==> Truthy(config.path) && (Truthy(config.table) || Truthy(config.query))
    ensures !Truthy(config.path) ==> ValidateSqlite(config) == Fail(Invalid("SQLite path is required"))
    ensures Truthy(config.path) && !Truthy(config.table) && !Truthy(config.query) ==>
      ValidateSqlite(config) == Fail(Invalid("Either table or query is required"))
  {
  }

  /**
   * The SQLite adapter hands the engine a `db`/`sqlite` source carrying its
   * path, table and query unchanged; its own rejections are rethrown as they
   * are, and an engine failure without a code becomes DB_CONNECTION_FAILED
   * naming the path.
   */
  lemma SqliteBuildIrOutcome(config: SqliteConfig, engine: DbSourceConfig -> Result<string, Thrown>)
    ensures var r := SqliteBuildIr(config, engine);
      var s := SqliteSource(config);
      Fields(DbSource(s)).sourceType == Some("db") && s.format == Sqlite
      && s.path == config.path && s.table == config.table && s.query == config.query && s.host.None?
      && (ValidateSqlite(config).Fail? ==> r == Failure(Raised(ValidateSqlite(config).error)))
      && (ValidateSqlite(config).Pass? && engine(s).Success? ==> r == engine(s))
      && (ValidateSqlite(config).Pass? && engine(s).Failure? && HasCode(engine(s).error) ==> r == engine(s))
      && (ValidateSqlite(config).Pass? && engine(s).Failure? && !HasCode(engine(s).error) ==>
            r == Failure(Raised(AuddError(DbConnectionFailed, "Failed to connect to SQLite: " + engine(s).error.message,
                                          Some(map["path" := Detail(config.path)]), None))))
  {
    var s := SqliteSource(config);
    if ValidateSqlite(config).Pass? && engine(s).Failure? && !HasCode(engine(s).error) {
      var m := engine(s).error.message;
      assert "Failed to connect to " + "SQLite" + ": " + m == "Failed to connect to SQLite: " + m;
    }
  }

  /**
   * A SQLite configuration with a query but no table passes the adapter's own
   * check, yet the source it builds is refused by the engine's option check.
   */
  lemma QueryOnlySqliteRefusedByEngine(path: string, query: string)
    requires path != "" && query != ""
    ensures ValidateSqlite(SqliteConfig(Some(path), None, Some(query))) == Pass
    ensures Engine.ValidateBuildOptions(BuildIrOptions(Some(Fields(DbSource(SqliteSource(SqliteConfig(Some(path), None, Some(query)))))), None))
         == Fail(Invalid("Database source requires table"))
  {
  }

  // MySQL and PostgreSQL

  /** `validateRemoteConfig` of the MySQL and PostgreSQL adapters. */
  function ValidateRemote(vendor: Vendor, config: RemoteDbConfig): Outcome<AuddError> {
    if !Truthy(config.host) then Fail(Invalid(vendor.Label() + " host is required"))
    else if !Truthy(config.database) then Fail(Invalid(vendor.Label() + " database is required"))
    else if !Truthy(config.username) then Fail(Invalid(vendor.Label() + " username is required"))
    else if !Truthy(config.password) then Fail(Invalid(vendor.Label() + " password is required"))
    else if !Truthy(config.table) && !Truthy(config.query) then Fail(Invalid("Either table or query is required"))
    else Pass
  }

  /** `config.port ?? <default>`. */
  function Port(vendor: Vendor, config: RemoteDbConfig): int {
    config.port.GetOr(vendor.DefaultPort())
  }

  /** The database source a remote adapter builds. */
  function RemoteSource(vendor: Vendor, config: RemoteDbConfig): DbSourceConfig {
    DbSourceConfig(vendor.Format(), None, config.host, Some(Port(vendor, config)), config.database,
                   config.username, config.password, config.table, config.query)
  }

  /** `MySQLAdapter.buildIR` and `PostgreSQLAdapter.buildIR`. */
  function RemoteBuildIr(vendor: Vendor, config: RemoteDbConfig, engine: DbSourceConfig -> Result<string, Thrown>): Result<string, Thrown> {
    var details := map["host" := Detail(config.host), "database" := Detail(config.database)];
    match ValidateRemote(vendor, config)
    case Fail(e) => Failure(CatchDb(vendor.Label(), details, Raised(e)))
    case Pass =>
      match engine(RemoteSource(vendor, config))
      case Success(ir) => Success(ir)
      case Failure(t) => Failure(CatchDb(vendor.Label(), details, t))
  }

  /**
   * The remote check passes exactly when host, database, username and
   * password are all given and a table or a query is; otherwise the first
   * missing one, in that order, is reported under the server's name.
   */
  lemma ValidateRemoteSpec(vendor: Vendor, config: RemoteDbConfig)
    ensures ValidateRemote(vendor, config).Pass? <==>
      Truthy(config.host) && Truthy(config.database) && Truthy(config.username) && Truthy(config.password)
      && (Truthy(config.table) || Truthy(config.query))
    ensures !Truthy(config.host) ==> ValidateRemote(vendor, config) == Fail(Invalid(vendor.Label() + " host is required"))
    ensures Truthy(config.host) && !Truthy(config.database) ==>
      ValidateRemote(vendor, config) == Fail(Invalid(vendor.Label() + " database is required"))
    ensures Truthy(config.host) && Truthy(config.database) && !Truthy(config.username) ==>
      ValidateRemote(vendor, config) == Fail(Invalid(vendor.Label() + " username is required"))
    ensures Truthy(config.host) && Truthy(config.database) && Truthy(config.username) && !Truthy(config.password) ==>
      ValidateRemote(vendor, config) == Fail(Invalid(vendor.Label() + " password is required"))
    ensures Truthy(config.host) && Truthy(config.database) && Truthy(config.username) && Truthy(config.password)
            && !Truthy(config.table) && !Truthy(config.query) ==>
      ValidateRemote(vendor, config) == Fail(Invalid("Either table or query is required"))
    ensures ValidateRemote(vendor, config).Fail? ==> ValidateRemote(vendor, config).error.code == InvalidInput
  {
  }

  /** MySQL defaults to port 3306 and PostgreSQL to 5432, only when no port is given; a given port, 0 included, is kept. */
  lemma DefaultPorts(config: RemoteDbConfig)
    ensures config.port.None? ==> Port(MySqlServer, config) == 3306 && Port(PostgresServer, config) == 5432
    ensures config.port.Some? ==> Port(MySqlServer, config) == config.port.value && Port(PostgresServer, config) == config.port.value
    ensures Port(MySqlServer, config.(port := Some(0))) == 0
  {
  }

  /**
   * A remote adapter hands the engine a `db` source of its own format that
   * copies every connection field unchanged, the port defaulted; its own
   * rejections are rethrown as they are, and an engine failure without a
   * code becomes DB_CONNECTION_FAILED naming host and database.
   */
  lemma RemoteBuildIrOutcome(vendor: Vendor, config: RemoteDbConfig, engine: DbSourceConfig -> Result<string, Thrown>)
    ensures var r := RemoteBuildIr(vendor, config, engine);
      var s := RemoteSource(vendor, config);
      s.format == (if vendor.MySqlServer? then MySql else Postgres)
      && s.host == config.host && s.database == config.database && s.username == config.username
      && s.password == config.password && s.table == config.table && s.query == config.query
      && s.port == Some(Port(vendor, config)) && s.path.None?
      && (ValidateRemote(vendor, config).Fail? ==> r == Failure(Raised(ValidateRemote(vendor, config).error)))
      && (ValidateRemote(vendor, config).Pass? && (engine(s).Success? || HasCode(engine(s).error)) ==> r == engine(s))
      && (ValidateRemote(vendor, config).Pass? && engine(s).Failure? && !HasCode(engine(s).error) ==>
            r.Failure? && r.error.Raised? && r.error.error.code == DbConnectionFailed
            && r.error.error.message == "Failed to connect to " + vendor.Label() + ": " + engine(s).error.message
            && r.error.error.details == Some(map["host" := Detail(config.host), "database" := Detail(config.database)]))
  {
  }

  // DbAdapterFactory

  datatype DbAdapter = SqliteAdapter | RemoteAdapter(vendor: Vendor)

  /** `DbAdapterFactory.create`. */
  function CreateDbAdapter(format: string): Result<DbAdapter, AuddError> {
    if format == "sqlite" then Success(SqliteAdapter)
    else if format == "mysql" then Success(RemoteAdapter(MySqlServer))
    else if format == "postgres" then Success(RemoteAdapter(PostgresServer))
    else Failure(CreateUnsupportedFormat(format))
  }

  /** Each database format selects its adapter, whose format name is the one asked for; anything else is UNSUPPORTED_FORMAT. */
  lemma CreateDbAdapterCases(format: string)
    ensures var r := CreateDbAdapter(format);
      (r.Success? <==> format == "sqlite" || format == "mysql" || format == "postgres")
      && (r == Success(SqliteAdapter) <==> format == "sqlite")
      && (r.Success? && r.value.RemoteAdapter? ==> r.value.vendor.Format().Name() == format)
      && (r.Failure? ==> r.error.code == UnsupportedFormat && r.error.message == "Unsupported format: " + format
                         && r.error.details == Some(map["format" := Str(format)]))
  {
  }
}
