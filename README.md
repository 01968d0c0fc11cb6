# audd-node SDK boundary, modelled in Dafny

audd-node is a TypeScript SDK over a native Rust addon that builds an
intermediate representation (IR) of a data source, compares two IRs and
proposes and applies resolutions. The comparison and IR construction live in
crates outside this repository, and resolution is a stub, so this model covers
the deterministic logic at the boundary between caller, SDK and addon:

- `Outcomes` — `Option`, `Result`, pass/fail outcomes, and JavaScript truthiness of an optional string.
- `Text` — the JavaScript string primitives the SDK relies on: `trim` (full ECMAScript whitespace set), `includes` and `split` with a string separator; a `join` and a left-to-right occurrence count serve to state what `split` returns.
- `Types` — the `ErrorCode` enum, source configurations and the option records (`types.ts`).
- `Errors` — `AuddError`, its `toJSON` shape, the `createError` builders and the `fromNativeError` message classifier (`errors.ts`).
- `NativeErrors` — the addon's `AuddNativeError` enum, its display texts and `code()` (`errors.rs`).
- `Files` — `CsvFileAdapter.parseCSV`, the checks and defaults of both file adapters' `buildIR`, and `FileAdapterFactory.create` (`adapters/files.ts`).
- `DbAdapters` — the SQLite/MySQL/PostgreSQL setting checks, default ports, built sources, error wrapping and `DbAdapterFactory.create` (`adapters/db.ts`).
- `Engine` — `AuddEngine`'s input validators, call order, option translation and native-failure mapping (`index.ts`).
- `NativeApi` — the addon's `build_ir` dispatch, `compare` option handling, the `propose_resolution`/`apply_resolution` stubs, and `validate_ir` as an imperative loop proved against a functional specification (`api.rs`).

Reading files, databases, `JSON.parse`, `JSON.stringify`, `serde_json`, the
schema/adapter/compare crates and the engine call inside the adapters are
parameters of the functions that use them. A JavaScript `undefined` (or a
missing key) is `None`. An error the addon raises reaches JavaScript as its
reason text, modelled as `Errors.NativeFailure`.

Two consequences of the code as written are stated as lemmas rather than
hidden: a native error's payload can override its variant when the SDK
classifies its text (`NativeErrors.PayloadCanOverrideCode`), and a SQLite
configuration with a query but no table passes the SQLite adapter's own check
while the engine's option check refuses the source it builds
(`DbAdapters.QueryOnlySqliteRefusedByEngine`).

## Model

| member | source | states |
|---|---|---|
| Text.TrimIsInfix | packages/audd-node/src/adapters/files.ts:73 | `trim` returns the infix left after removing all leading and all trailing whitespace; the removed ends are whitespace and the result starts and ends with a non-space |
| Text.TrimEmptyIff | packages/audd-node/src/adapters/files.ts:73 | the trim of a text is empty exactly when the text is all whitespace |
| Text.TrimPadded | packages/audd-node/src/adapters/files.ts:114 | trimming a text padded with whitespace gives back the text, when its own ends are not whitespace |
| Text.SplitOnCount | packages/audd-node/src/adapters/files.ts:114 | `split` on a non-empty separator yields one piece more than the separator's left-to-right, non-overlapping occurrences |
| Text.JoinSplit | packages/audd-node/src/adapters/files.ts:114 | joining the pieces of a split with the separator gives back the text, for every separator including the empty one |
| Text.SplitOnPiecesFree | packages/audd-node/src/adapters/files.ts:114 | no piece of a split contains the separator |
| Types.NameInjective | packages/audd-node/src/types.ts:8-18 | the string values of the `ErrorCode` enum are pairwise distinct |
| Types.Fields | packages/audd-node/src/types.ts:33-70 | a file source has type `file`, a database source `db` and a memory source `memory`; the format is the configuration's format name (`json` for memory); path, table and host are those of the variant, absent where it has none |
| Errors.ToJsonInjective | packages/audd-node/src/errors.ts:41-49 | `toJSON` has name `AuddError` and keeps code, message and details: errors with equal JSON agree on all three |
| Errors.CreateErrorShapes | packages/audd-node/src/errors.ts:92-122 | each `createError` builder sets its own code; the parameterised ones put their argument after a fixed prefix and record it as the only detail |
| Errors.TimeoutJsonNamesOperation | packages/audd-node/src/errors.ts:117-118 | a serialised timeout error is an `AuddError` with code TIMEOUT whose message contains the operation |
| Errors.ClassifyFirstMatchWins | packages/audd-node/src/errors.ts:59-82 | the code is that of the first rule, in the fixed priority order, with a matching keyword, whatever later rules match |
| Errors.ClassifyDefault | packages/audd-node/src/errors.ts:84-85 | a message matching no rule is INTERNAL_ERROR |
| Errors.InvalidOutranksJson | packages/audd-node/src/errors.ts:59-61 | a message containing both `Invalid` and `JSON` is INVALID_INPUT, not JSON_ERROR; message kept, cause stored, no details |
| Errors.ClassifyIgnoresNeutralTail | packages/audd-node/src/errors.ts:59-85 | text after a `": "` that names no keyword cannot change the classification |
| Errors.ClassifyShoutedIsInternal | packages/audd-node/src/errors.ts:59 | matching is case-sensitive: `INVALID` is not an invalid-input keyword |
| Errors.ClassifyJsonUpperCase | packages/audd-node/src/errors.ts:80-81 | `bad JSON` is JSON_ERROR |
| Errors.ClassifyJsonLowerCase | packages/audd-node/src/errors.ts:80-85 | `bad json` is INTERNAL_ERROR: only the listed spelling counts |
| Errors.UnsupportedSourceClassifiesBack | packages/audd-node/src/errors.ts:62-63 | the message of `createError.unsupportedSource(t)` classifies back to UNSUPPORTED_SOURCE when `t` names no keyword |
| Errors.UnsupportedFormatClassifiesBack | packages/audd-node/src/errors.ts:65-66 | the message of `createError.unsupportedFormat(f)` classifies back to UNSUPPORTED_FORMAT when `f` names no keyword |
| Errors.TimeoutClassifiesBack | packages/audd-node/src/errors.ts:74-75 | the message of `createError.timeout(op)` classifies back to TIMEOUT when `op` names no keyword |
| Errors.CancelledClassifiesBack | packages/audd-node/src/errors.ts:77-78 | the message of `createError.cancelled(op)` classifies back to CANCELLED when `op` names no keyword |
| NativeErrors.Display | packages/audd-node/native/src/errors.rs:8-33 | each display text is the variant's fixed prefix followed by its payload; `Cancelled` and `Timeout` have none |
| NativeErrors.CodeIsEnumValue | packages/audd-node/native/src/errors.rs:38-50 | every native `code()` string is the value of a member of the SDK's `ErrorCode` enum |
| NativeErrors.EveryEnumValueIsACode | packages/audd-node/src/types.ts:8-18 | every member of the SDK's `ErrorCode` enum is the `code()` of some native variant |
| NativeErrors.CodeInjective | packages/audd-node/native/src/errors.rs:38-50 | two native errors share a code exactly when they are of the same variant |
| NativeErrors.PrefixClassifiesToCode | packages/audd-node/native/src/errors.rs:8-33 | the SDK classifies each variant's bare display prefix under that variant's code |
| NativeErrors.DisplayClassifiesToCode | packages/audd-node/src/errors.ts:54-86 | `fromNativeError` recovers the native `code()` from the display text of any variant whose payload names no keyword |
| NativeErrors.EmptyPayloadClassifiesToCode | packages/audd-node/native/src/errors.rs:8-50 | with an empty payload, every one of the nine variants classifies back to its own code |
| NativeErrors.PayloadCanOverrideCode | packages/audd-node/src/errors.ts:59-61 | an IO error whose payload says `Invalid path` is classified INVALID_INPUT, not IO_ERROR |
| Files.NonBlankAppend | packages/audd-node/src/adapters/files.ts:107 | the blank-line filter distributes over concatenation, so kept lines stay in source order |
| Files.NonBlankKeeps | packages/audd-node/src/adapters/files.ts:107 | a line is kept exactly when it is not all whitespace |
| Files.LinesEmptyIff | packages/audd-node/src/adapters/files.ts:107-111 | content has no non-blank line exactly when it is all whitespace |
| Files.ParseCsvEmptyIff | packages/audd-node/src/adapters/files.ts:107-111 | `parseCSV` returns `{rows: []}` with no headers exactly for all-whitespace content, whatever the options |
| Files.ParseCsvRowCount | packages/audd-node/src/adapters/files.ts:113-122 | one row per non-blank line; with a header the first becomes `headers` and the row count drops by one |
| Files.ParseCsvRowOrder | packages/audd-node/src/adapters/files.ts:113-122 | row `k` is the parse of the `k`-th (or, with a header, `k+1`-th) non-blank line |
| Files.HeaderReassembles | packages/audd-node/src/adapters/files.ts:117-122 | without a header no `headers` is returned; with one, headers followed by rows equal the headerless rows |
| Files.RowCells | packages/audd-node/src/adapters/files.ts:113-115 | a row has one cell more than its line has delimiters; cells are the delimiter-free pieces, in column order, each cleaned |
| Files.CleanCellShape | packages/audd-node/src/adapters/files.ts:114 | cleaning removes at most one quote at each end of the trimmed cell: a leading quote always, a distinct trailing quote always, so a cell of two or more characters quoted at both ends loses exactly both quotes |
| Files.CleanCellQuoted | packages/audd-node/src/adapters/files.ts:114 | a quoted cell with surrounding whitespace comes back as its inner text |
| Files.CleanCellPlain | packages/audd-node/src/adapters/files.ts:114 | an unquoted cell comes back as its trimmed text |
| Files.CleanCellLoneQuote | packages/audd-node/src/adapters/files.ts:114 | a lone quote and a pair of quotes both clean to the empty cell |
| Files.ParseCsvDefaultsOnlyWhenAbsent | packages/audd-node/src/adapters/files.ts:102-106 | `parseCSV` defaults the delimiter to `,` and the header flag to true, each on its own and only when that argument is not given; leaving one out equals passing its default |
| Files.CsvBuildIrContent | packages/audd-node/src/adapters/files.ts:70-87 | the CSV adapter rejects, as INVALID_INPUT `CSV file is empty`, exactly the content `parseCSV` finds empty; the file is read with the given encoding, else `utf-8`, yet the source passes the encoding on undefaulted; delimiter and header flag default only when absent |
| Files.CsvBuildIrReadFailure | packages/audd-node/src/adapters/files.ts:88-95 | a coded read failure is rethrown unchanged; any other becomes IO_ERROR `Failed to read CSV file: …` naming the file |
| Files.JsonBuildIrOutcome | packages/audd-node/src/adapters/files.ts:19-48 | the JSON adapter reads the file with the given encoding, else `utf-8`, and succeeds exactly on readable, parseable content, with a JSON source carrying that encoding; unparseable content is INVALID_INPUT `File is not valid JSON`; read failures are rethrown or wrapped |
| Files.CreateFileAdapterCases | packages/audd-node/src/adapters/files.ts:130-139 | `json` and `csv` select their adapters; any other format is UNSUPPORTED_FORMAT naming it |
| DbAdapters.ValidateSqliteSpec | packages/audd-node/src/adapters/db.ts:50-55 | the SQLite check passes exactly with a path and a table or a query; a missing path is reported first |
| DbAdapters.SqliteBuildIrOutcome | packages/audd-node/src/adapters/db.ts:47-76 | the SQLite adapter builds a `db`/`sqlite` source copying path, table and query; its own rejections are rethrown; an uncoded failure becomes DB_CONNECTION_FAILED `Failed to connect to SQLite: …` with the path |
| DbAdapters.QueryOnlySqliteRefusedByEngine | packages/audd-node/src/index.ts:189-192 | a query-only SQLite configuration passes the adapter's check but its source fails the engine's `Database source requires table` check |
| DbAdapters.ValidateRemoteSpec | packages/audd-node/src/adapters/db.ts:127-135 | the remote check passes exactly when host, database, username, password and a table or query are given; otherwise the first missing one, in that order, is reported under the server's name |
| DbAdapters.DefaultPorts | packages/audd-node/src/adapters/db.ts:107 | MySQL defaults to 3306 and PostgreSQL to 5432 only when no port is given; a given port, 0 included, is kept |
| DbAdapters.RemoteBuildIrOutcome | packages/audd-node/src/adapters/db.ts:99-125 | a remote adapter builds a `db` source of its format copying every field with the port defaulted; its rejections are rethrown; an uncoded failure becomes DB_CONNECTION_FAILED with host and database |
| DbAdapters.CreateDbAdapterCases | packages/audd-node/src/adapters/db.ts:188-202 | `sqlite`, `mysql` and `postgres` select their adapters; anything else is UNSUPPORTED_FORMAT naming it |
| Engine.ValidateBuildOptionsSpec | packages/audd-node/src/index.ts:167-204 | build options pass exactly when they meet one stated condition per source type; every rejection is INVALID_INPUT without details |
| Engine.ValidateBuildOptionsOrder | packages/audd-node/src/index.ts:168-192 | a missing source is reported before a missing type, which is reported before a missing format; a database source's missing table before anything format-specific |
| Engine.ValidateBuildOptionsByType | packages/audd-node/src/index.ts:183-203 | a file source needs a non-empty path; a database source needs a path for `sqlite` and a host for `mysql`/`postgres`, with the format in the message; other types pass |
| Engine.TypedSourcesValidate | packages/audd-node/src/index.ts:174-187 | a memory source always passes; a typed file source passes exactly when its path is not empty |
| Engine.ValidateJsonTextSpec | packages/audd-node/src/index.ts:206-228 | the JSON-string check passes exactly on strings that parse; a non-string is reported as `<name> must be a JSON string` before any parsing; an unparseable string as `<name> is not a valid JSON string` |
| Engine.FromNativeKeeps | packages/audd-node/src/index.ts:58-60 | a native failure reaches the caller with its message verbatim, itself as cause, no details and the classified code |
| Engine.BuildIrOutcome | packages/audd-node/src/index.ts:43-61 | rejected options never reach the addon; accepted ones reach it with type, format, the path only if present, and the config serialised only when given; a config `JSON.stringify` throws on is reported through `fromNativeError` and the addon is not called |
| Engine.CompareChecksIrAFirst | packages/audd-node/src/index.ts:71-92 | `irA` is checked before `irB`; the addon is reached only when both are parseable strings, and then the caller gets its diff, or its failure mapped by `fromNativeError`, called with the translated options; a throw while translating them is mapped the same way |
| Engine.CompareOptionsTranslated | packages/audd-node/src/index.ts:78-85 | compare's options reach the addon with threshold, strategy and ignored fields copied and the config serialised only when given; absent options stay absent; a throw of `JSON.stringify` is the failure |
| Engine.CompareBothBad | packages/audd-node/src/index.ts:73-74 | when neither IR is a string the error is INVALID_INPUT `irA must be a JSON string` |
| Engine.InvalidIrFailureIsInvalidInput | packages/audd-node/native/src/api.rs:121-125 | the addon's `Invalid IR A/B: …` failures reach the caller as INVALID_INPUT |
| Engine.ResolutionCallsCheckInput | packages/audd-node/src/index.ts:101-148 | both resolution calls reach the addon exactly when their input parses and their options translate, naming the input `diff` or `plan` when it does not; the caller gets the addon's result or its failure mapped by `fromNativeError`, and a throw while translating the options is mapped the same way |
| Engine.ResolutionOptionsTranslated | packages/audd-node/src/index.ts:107-141 | the resolve and apply options reach the addon copied field by field, the config serialised only when given; absent options stay absent; a throw of `JSON.stringify` is the failure |
| Engine.ValidateIrOutcome | packages/audd-node/src/index.ts:156-163 | `validateIR` succeeds exactly when the addon and the parse of its text succeed; a native failure keeps its message and cause |
| NativeApi.BuildIrDispatch | packages/audd-node/native/src/api.rs:81-108 | only `file` and `db` sources can succeed, and only with a path; every other type fails with `Unsupported source_type: …` |
| NativeApi.BuildIrFile | packages/audd-node/native/src/api.rs:83-89 | a file source yields the loader's schema serialised, or the loader's error under `File adapter error: `, or a printing failure under `Serialization error: ` |
| NativeApi.BuildIrDb | packages/audd-node/native/src/api.rs:91-100 | a db source yields the connector's schema serialised; a connector that cannot be created is `DB connector error: …`, a failed load `DB load error: …`, a printing failure `Serialization error: …` |
| NativeApi.UnsupportedSourceTypeClassified | packages/audd-node/native/src/api.rs:102-106 | the SDK reports a rejected source type as UNSUPPORTED_SOURCE when its text names no invalid input |
| NativeApi.MemorySourceRefused | packages/audd-node/native/src/api.rs:102-106 | a `memory` source is refused by the addon and reported as UNSUPPORTED_SOURCE |
| NativeApi.CompareOptionsIgnored | packages/audd-node/native/src/api.rs:127-137 | only a given threshold changes the default comparison settings; strategy, ignored fields and config have no effect |
| NativeApi.CompareParsesAFirst | packages/audd-node/native/src/api.rs:121-142 | IR A is parsed before IR B; success exactly when both parse and the comparison prints, with the printed comparison of the two schemas; a printing failure is `Serialization error: …` |
| NativeApi.ProposeResolutionStub | packages/audd-node/native/src/api.rs:147-166 | a parseable diff always gets a plan with no actions, version `1.0.0` and the given strategy or `balanced`; otherwise `Invalid diff: …` |
| NativeApi.ApplyResolutionShape | packages/audd-node/native/src/api.rs:170-214 | dry run defaults to false; a dry run reports `applied: false`, the actions, their count and nothing to apply; otherwise `applied: true` and the count; results are always empty |
| NativeApi.ActionsDefault | packages/audd-node/native/src/api.rs:179-183 | missing or non-array `actions` count as none |
| NativeApi.ValidateIr | packages/audd-node/native/src/api.rs:218-254 | never fails; unparseable text gives `ok: false` with the one error `Invalid SourceSchema JSON: …`; otherwise the collected errors are the schema's problems, `ok` is true exactly when there are none, and `entities_count` is the number of entities |
| NativeApi.SdkValidateIrOverAddon | packages/audd-node/src/index.ts:156-163 | the SDK's `validateIR` over this addon never fails when it reads back the printed `ok` and `errors`: the caller gets the addon's errors, `Invalid SourceSchema JSON: …` for unparseable text, and `ok` exactly for a schema with entities that all have fields |
| NativeApi.FieldlessErrorsAppend | packages/audd-node/native/src/api.rs:227-231 | entity messages are collected in entity order |
| NativeApi.FieldlessErrorsCount | packages/audd-node/native/src/api.rs:227-231 | there is exactly one message per field-less entity |
| NativeApi.FieldlessEntityReported | packages/audd-node/native/src/api.rs:228-229 | every field-less entity is reported by name |
| NativeApi.SchemaErrorsEmptyIff | packages/audd-node/native/src/api.rs:221-234 | a schema gets no error exactly when it has entities and each has a field |
| NativeApi.EmptySchemaErrors | packages/audd-node/native/src/api.rs:223-225 | a schema without entities gets exactly the one error `Schema has no entities` |

## Left out

- The reconciliation pipeline (schema inference, comparison, planning, applying) lives in crates outside this repository or is a stub; the model takes those crates as function parameters and states nothing about them.
- File and database access, `fs.access` in `checkConnection`, the database connectors and every Promise/`await` detail are out of scope. The result of reading a file and of handing a source to the engine are parameters. The adapters return the engine's promise without awaiting it, so its rejections bypass their `catch`; the model routes every engine failure through the `catch`. This makes no observable difference, since the engine only rejects with coded `AuddError`s, which the `catch` rethrows unchanged.
- `JSON.parse`, `JSON.stringify` and `serde_json` parsing and printing are parameters. `JSON.stringify` may fail, standing for its throw on a circular or BigInt value; the config object itself is a map of texts, so which objects make it throw is not modelled. The printed form of the addon's results is not modelled: the results are records whose fields are the JSON keys.
- The `Serialization error: …` failures of `propose_resolution` and `apply_resolution` are left out: they print `serde_json` values built in place from strings, numbers, booleans and arrays, and printing those does not fail. The printing of `build_ir`'s schema and of `compare`'s result is part of a parameter, and its failure is modelled.
- The `f64` threshold is a real number that is only forwarded to the comparison crate. The comparison settings are recorded as the builder calls applied to the default.
- The native `AuddNativeError` enum is not raised by any of the shown calls, which fail with plain reason texts. It is modelled on its own, with its links to the SDK's classifier.
- Stack traces (`Error.captureStackTrace` and the `stack` key of `toJSON`) are out of scope.
- Module loading in `binding.ts` and the addon's `version`, `ping` and `add` exports are packaging and demos, not SDK logic.
- Files.CsvBuildIrContent: an absent `options` object is modelled as one whose fields are all absent, which `options?.field` makes equivalent.
- Files.ParseRow: strings are sequences of Unicode scalar values, while JavaScript strings are UTF-16 code units. The two agree except for characters outside the Basic Multilingual Plane: there the empty delimiter splits such a character into two surrogate halves in JavaScript but keeps it whole in the model, and string lengths differ likewise. The cell count lemma `Files.RowCells` is stated for non-empty delimiters only.
- Files.CsvBuildIr, Files.JsonBuildIr: the file adapters are modelled up to the source they hand to the engine, while the database adapters take the engine call as a parameter. What the engine returns to a file adapter, and how the adapter passes it on, is therefore not part of the file adapters' model.
- Engine.ValidateJsonTextSpec: `validateIRString` and `validateJSONString` are the same check and are modelled once.
- Detail values are modelled as strings or `undefined` only, which is all the adapters put in them.
- NativeErrors.DisplayClassifiesToCode: stated only for payloads that name none of the classifier's keywords, because a payload can override the variant (see `NativeErrors.PayloadCanOverrideCode`).
- NativeApi.UnsupportedSourceTypeClassified: stated only for source types without the letters `I` and `v`, a simple sufficient condition for the text not to name an invalid input.
- Errors.UnsupportedSourceClassifiesBack, Errors.UnsupportedFormatClassifiesBack, Errors.TimeoutClassifiesBack, Errors.CancelledClassifiesBack: stated only for arguments that name no keyword, for the same reason.
- Errors.FromNativeError: the `'code' in error` test is modelled as whether a thrown value carries a code; thrown values that are not `Error` objects are not modelled.
