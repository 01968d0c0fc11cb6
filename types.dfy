/**
 * The public types of the SDK: stable error codes, source configurations,
 * the option records of each engine call and the validation result.
 */
module Types {
  import opened Outcomes

  /** The stable error codes; each value is the enum member's string. */
  datatype ErrorCode =
    | InvalidInput
    | UnsupportedSource
    | UnsupportedFormat
    | DbConnectionFailed
    | IoError
    | InternalError
    | Cancelled
    | Timeout
    | JsonError
  {
    function Name(): string {
      match this
      case InvalidInput => "INVALID_INPUT"
      case UnsupportedSource => "UNSUPPORTED_SOURCE"
      case UnsupportedFormat => "UNSUPPORTED_FORMAT"
      case DbConnectionFailed => "DB_CONNECTION_FAILED"
      case IoError => "IO_ERROR"
      case InternalError => "INTERNAL_ERROR"
      case Cancelled => "CANCELLED"
      case Timeout => "TIMEOUT"
      case JsonError => "JSON_ERROR"
    }
  }

  /** The members of the `ErrorCode` enum, in declaration order. */
  const AllErrorCodes: seq<ErrorCode> := [
    InvalidInput, UnsupportedSource, UnsupportedFormat, DbConnectionFailed,
    IoError, InternalError, Cancelled, Timeout, JsonError
  ]

  /** The enum's string values are pairwise distinct, so a code's string identifies it. */
  lemma NameInjective(a: ErrorCode, b: ErrorCode)
    ensures a.Name() == b.Name() ==> a == b
  {
    if a.Name() == b.Name() {
      assert a.Name()[..2] == b.Name()[..2];
      if a.Name()[..2] == "IN" {
        assert a.Name()[2] == b.Name()[2];
      } else if a.Name()[..2] == "UN" {
        assert a.Name()[12] == b.Name()[12];
      }
    }
  }

  /** The data formats a source may declare. */
  datatype DataFormat = Json | Csv | Sqlite | MySql | Postgres {
    function Name(): string {
      match this
      case Json => "json"
      case Csv => "csv"
      case Sqlite => "sqlite"
      case MySql => "mysql"
      case Postgres => "postgres"
    }
  }

  /** A file source (`type: 'file'`); `format` is JSON or CSV. */
  datatype FileSourceConfig = FileSourceConfig(
    format: DataFormat,
    path: string,
    encoding: Option<string>,
    delimiter: Option<string>,
    hasHeader: Option<bool>)

  /** A database source (`type: 'db'`); `format` is SQLite, MySQL or PostgreSQL. */
  datatype DbSourceConfig = DbSourceConfig(
    format: DataFormat,
    path: Option<string>,
    host: Option<string>,
    port: Option<int>,
    database: Option<string>,
    username: Option<string>,
    password: Option<string>,
    table: Option<string>,
    query: Option<string>)

  /** The three source variants; an in-memory source (`type: 'memory'`, `format: 'json'`) carries only its data. */
  datatype SourceConfig =
    | FileSource(file: FileSourceConfig)
    | DbSource(db: DbSourceConfig)
    | MemorySource

  /**
   * A source object as the engine's validator reads it: any field may be
   * missing (`None`), and `type` and `format` are free text, since callers
   * outside the type system can pass anything.
   */
  datatype SourceFields = SourceFields(
    sourceType: Option<string>,
    format: Option<string>,
    path: Option<string>,
    table: Option<string>,
    host: Option<string>)

  /**
   * The fields of a typed source configuration, as the validator sees them:
   * the type names the variant, the format is the configuration's format
   * name, and path, table and host are those the variant has.
   */
  function Fields(source: SourceConfig): (f: SourceFields)
    ensures f.sourceType == Some("file") <==> source.FileSource?
    ensures f.sourceType == Some("db") <==> source.DbSource?
    ensures f.sourceType == Some("memory") <==> source.MemorySource?
    ensures source.FileSource? ==> f.format == Some(source.file.format.Name()) && f.path == Some(source.file.path)
    ensures source.DbSource? ==>
      f.format == Some(source.db.format.Name()) && f.path == source.db.path && f.table == source.db.table && f.host == source.db.host
    ensures source.MemorySource? ==> f.format == Some("json") && f.path.None?
    ensures !source.DbSource? ==> f.table.None? && f.host.None?
  {
    match source
    case FileSource(c) => SourceFields(Some("file"), Some(c.format.Name()), Some(c.path), None, None)
    case DbSource(c) => SourceFields(Some("db"), Some(c.format.Name()), c.path, c.table, c.host)
    case MemorySource => SourceFields(Some("memory"), Some("json"), None, None, None)
  }

  /** A free-form configuration record; values are kept as text. */
  type ConfigObject = map<string, string>

  /** `BuildIROptions`; `source` is `None` when the caller left it out. */
  datatype BuildIrOptions = BuildIrOptions(source: Option<SourceFields>, config: Option<ConfigObject>)

  /** `CompareOptions`; the threshold is a JavaScript number, modelled as a real. */
  datatype CompareOptions = CompareOptions(
    threshold: Option<real>,
    strategy: Option<string>,
    ignoreFields: Option<seq<string>>,
    config: Option<ConfigObject>)

  /** `ResolveOptions`. */
  datatype ResolveOptions = ResolveOptions(
    strategy: Option<string>,
    preferSource: Option<string>,
    config: Option<ConfigObject>)

  /** `ApplyOptions`. */
  datatype ApplyOptions = ApplyOptions(
    dryRun: Option<bool>,
    backup: Option<bool>,
    config: Option<ConfigObject>)

  /** `ValidationResult`. */
  datatype ValidationResult = ValidationResult(ok: bool, errors: seq<string>)
}
