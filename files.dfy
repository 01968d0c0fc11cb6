/**
 * The file adapters: the simplified CSV parser `parseCSV`, the checks and
 * defaults `buildIR` applies before handing a file source to the engine, and
 * the adapter factory. Reading the file is a parameter: the text it produced,
 * or what it threw.
 */
module Files {
  import opened Outcomes
  import opened Text
  import opened Types
  import opened Errors

  // parseCSV

  /** `lines.filter((line) => line.trim())`: the lines whose trim is not empty, in order. */
  function NonBlank(lines: seq<string>): (r: seq<string>)
    ensures |r| <= |lines|
    ensures forall k :: 0 <= k < |r| ==> r[k] in lines && Trim(r[k]) != ""
  {
    if lines == [] then []
    else (if Trim(lines[0]) != "" then [lines[0]] else []) + NonBlank(lines[1..])
  }

  /** The non-blank lines of a text, split on line feeds. */
  function Lines(content: string): seq<string> {
    NonBlank(SplitOn(content, "\n"))
  }

  /** `replace(/^"|"$/g, '')`: one leading quote, then one trailing quote that is not the same character. */
  function StripQuotes(t: string): string {
    var i := if |t| > 0 && t[0] == '"' then 1 else 0;
    var j := if |t| > i && t[|t| - 1] == '"' then |t| - 1 else |t|;
    t[i..j]
  }

  /** One cell: trimmed, then unquoted. */
  function CleanCell(cell: string): string {
    StripQuotes(Trim(cell))
  }

  /** One line: split on the delimiter, each piece cleaned. */
  function ParseRow(line: string, delimiter: string): seq<string> {
    var pieces := Split(line, delimiter);
    seq(|pieces|, k requires 0 <= k < |pieces| => CleanCell(pieces[k]))
  }

  /** What `parseCSV` returns; `headers` is `None` when the key is absent. */
  datatype CsvTable = CsvTable(headers: Option<seq<string>>, rows: seq<seq<string>>)

  /** `CsvFileAdapter.parseCSV(content, delimiter, hasHeader)`. */
  function ParseCsv(content: string, delimiter: string, hasHeader: bool): CsvTable {
    var lines := Lines(content);
    if |lines| == 0 then
      CsvTable(None, [])
    else
      var rows := seq(|lines|, k requires 0 <= k < |lines| => ParseRow(lines[k], delimiter));
      if hasHeader then CsvTable(Some(rows[0]), rows[1..]) else CsvTable(None, rows)
  }

  /** `parseCSV` with its default parameters: `','` and `true` stand in for absent arguments. */
  function ParseCsvDefaults(content: string, delimiter: Option<string>, hasHeader: Option<bool>): CsvTable {
    ParseCsv(content, delimiter.GetOr(","), hasHeader.GetOr(true))
  }

  /** Filtering distributes over concatenation, so it keeps the order of the lines it keeps. */
  lemma {:induction false} NonBlankAppend(xs: seq<string>, ys: seq<string>)
    ensures NonBlank(xs + ys) == NonBlank(xs) + NonBlank(ys)
  {
    if xs != [] {
      var head := if Trim(xs[0]) != "" then [xs[0]] else [];
      assert (xs + ys)[0] == xs[0];
      assert (xs + ys)[1..] == xs[1..] + ys;
      NonBlankAppend(xs[1..], ys);
      assert NonBlank(xs + ys) == head + (NonBlank(xs[1..]) + NonBlank(ys));
    } else {
      assert xs + ys == ys;
    }
  }

  /** A line is kept exactly when its trim is not empty. */
  lemma {:induction false} NonBlankKeeps(xs: seq<string>, x: string)
    ensures x in NonBlank(xs) <==> x in xs && !AllSpace(x)
  {
    TrimEmptyIff(x);
    if xs != [] {
      NonBlankKeeps(xs[1..], x);
      assert xs == [xs[0]] + xs[1..];
    }
  }

  /** Nothing survives the filter exactly when every line is blank. */
  lemma {:induction false} NonBlankEmptyIff(xs: seq<string>)
    ensures NonBlank(xs) == [] <==> forall k :: 0 <= k < |xs| ==> AllSpace(xs[k])
  {
    if xs != [] {
      TrimEmptyIff(xs[0]);
      NonBlankEmptyIff(xs[1..]);
      assert forall k :: 1 <= k < |xs| ==> xs[k] == xs[1..][k - 1];
    }
  }

  /** A text has no non-blank line exactly when it is all whitespace (line feeds included). */
  lemma LinesEmptyIff(content: string)
    ensures Lines(content) == [] <==> AllSpace(content)
  {
    var pieces := SplitOn(content, "\n");
    JoinSplitOn(content, "\n");
    assert AllSpace("\n") by {
      assert "\n"[0] == '\n';
    }
    AllSpaceJoin(pieces, "\n");
    NonBlankEmptyIff(pieces);
  }

  /** Content with no non-blank line gives no rows and no headers, whatever the options, and only such content does. */
  lemma ParseCsvEmptyIff(content: string, delimiter: string, hasHeader: bool)
    ensures ParseCsv(content, delimiter, hasHeader) == CsvTable(None, []) <==> AllSpace(content)
  {
    LinesEmptyIff(content);
    var t := ParseCsv(content, delimiter, hasHeader);
    if |Lines(content)| > 0 && !hasHeader {
      assert |t.rows| == |Lines(content)|;
    }
  }

  /** One row per non-blank line; with a header the first such line becomes `headers` and is not counted among the rows. */
  lemma ParseCsvRowCount(content: string, delimiter: string, hasHeader: bool)
    ensures var lines, t := Lines(content), ParseCsv(content, delimiter, hasHeader);
      (t.headers.Some? <==> hasHeader && |lines| > 0)
      && |t.rows| == (if t.headers.Some? then |lines| - 1 else |lines|)
      && (t.headers.Some? ==> t.headers.value == ParseRow(lines[0], delimiter))
  {
  }

  /** Each row is the parse of its own non-blank line, in source order. */
  lemma ParseCsvRowOrder(content: string, delimiter: string, hasHeader: bool, k: nat)
    requires k < |ParseCsv(content, delimiter, hasHeader).rows|
    ensures var lines, t := Lines(content), ParseCsv(content, delimiter, hasHeader);
      t.rows[k] == ParseRow(lines[if t.headers.Some? then k + 1 else k], delimiter)
  {
  }

  /** Without a header nothing is peeled off; with one, headers followed by rows reassemble the headerless result. */
  lemma HeaderReassembles(content: string, delimiter: string)
    ensures var withHeader, without := ParseCsv(content, delimiter, true), ParseCsv(content, delimiter, false);
      without.headers.None?
      && (withHeader.headers.None? ==> withHeader.rows == [] && without.rows == [])
      && (withHeader.headers.Some? ==> [withHeader.headers.value] + withHeader.rows == without.rows)
  {
    var withHeader, without := ParseCsv(content, delimiter, true), ParseCsv(content, delimiter, false);
    if withHeader.headers.Some? {
      assert without.rows == [without.rows[0]] + without.rows[1..];
    }
  }

  /**
   * A row has one cell more than its line has delimiters, the cells are
   * the delimiter-free pieces of the line in column order, each cleaned.
   */
  lemma RowCells(line: string, delimiter: string)
    requires delimiter != ""
    ensures var pieces := Split(line, delimiter);
      |ParseRow(line, delimiter)| == Occurrences(line, delimiter) + 1
      && Join(pieces, delimiter) == line
      && (forall k :: 0 <= k < |pieces| ==> !Contains(pieces[k], delimiter))
      && (forall k :: 0 <= k < |pieces| ==> ParseRow(line, delimiter)[k] == CleanCell(pieces[k]))
  {
    SplitOnCount(line, delimiter);
    JoinSplitOn(line, delimiter);
    SplitOnPiecesFree(line, delimiter);
  }

  /**
   * Cleaning removes at most one quote at each end of the trimmed cell: a
   * leading quote always, a trailing one whenever it is a different character.
   */
  lemma CleanCellShape(cell: string)
    ensures var t, c := Trim(cell), CleanCell(cell);
      (t == c || t == "\"" + c || t == c + "\"" || t == "\"" + c + "\"")
      && (|t| > 0 && t[0] == '"' ==> t == "\"" + c || t == "\"" + c + "\"")
      && (|t| >= 2 && t[|t| - 1] == '"' ==> t == c + "\"" || t == "\"" + c + "\"")
      && (|t| >= 2 && t[0] == '"' && t[|t| - 1] == '"' ==> t == "\"" + c + "\"")
  {
    var t, c := Trim(cell), CleanCell(cell);
    var i := if |t| > 0 && t[0] == '"' then 1 else 0;
    var j := if |t| > i && t[|t| - 1] == '"' then |t| - 1 else |t|;
    assert c == t[i..j];
    assert t == t[..i] + c + t[j..];
  }

  /** A quoted, padded cell comes back as its inner text, whatever that text holds. */
  lemma CleanCellQuoted(before: string, x: string, after: string)
    requires AllSpace(before) && AllSpace(after)
    ensures CleanCell(before + "\"" + x + "\"" + after) == x
  {
    var q := "\"" + x + "\"";
    assert before + "\"" + x + "\"" + after == before + q + after;
    TrimPadded(before, q, after);
    assert q[1..|q| - 1] == x;
  }

  /** A padded cell without surrounding quotes comes back as its trimmed text. */
  lemma CleanCellPlain(before: string, x: string, after: string)
    requires AllSpace(before) && AllSpace(after)
    requires |x| > 0 ==> !IsJsSpace(x[0]) && !IsJsSpace(x[|x| - 1]) && x[0] != '"' && x[|x| - 1] != '"'
    ensures CleanCell(before + x + after) == x
  {
    TrimPadded(before, x, after);
  }

  /** A lone quote is both the leading and the trailing quote, and is removed once. */
  lemma CleanCellLoneQuote()
    ensures CleanCell("\"") == "" && CleanCell("\"\"") == ""
  {
    TrimPadded("", "\"", "");
    TrimPadded("", "\"\"", "");
  }

  /**
   * The default delimiter and header flag apply each on its own, only when
   * that argument is absent; leaving one out is the same as passing its
   * default.
   */
  lemma ParseCsvDefaultsOnlyWhenAbsent(content: string, delimiter: Option<string>, hasHeader: Option<bool>)
    ensures ParseCsvDefaults(content, delimiter, hasHeader)
         == ParseCsv(content, if delimiter.Some? then delimiter.value else ",", if hasHeader.Some? then hasHeader.value else true)
    ensures ParseCsvDefaults(content, None, hasHeader) == ParseCsvDefaults(content, Some(","), hasHeader)
    ensures ParseCsvDefaults(content, delimiter, None) == ParseCsvDefaults(content, delimiter, Some(true))
  {
  }

  // buildIR

  /** `{ filePath }`. */
  function FilePathDetails(filePath: string): Option<Details> {
    Some(map["filePath" := Str(filePath)])
  }

  /** The `catch` of both adapters: coded errors pass through; anything else becomes IO_ERROR under `prefix`. */
  function CatchRead(prefix: string, filePath: string, t: Thrown): Thrown {
    if HasCode(t) then t
    else Raised(CreateIoError(prefix + t.message, FilePathDetails(filePath)))
  }

  /** The `options` of `CsvFileAdapter.buildIR`; an absent options object is the one with every field absent. */
  datatype CsvOptions = CsvOptions(encoding: Option<string>, delimiter: Option<string>, hasHeader: Option<bool>)

  /** The encoding the CSV file is read with: the given one, else `'utf-8'`. */
  function CsvReadEncoding(options: CsvOptions): string {
    options.encoding.GetOr("utf-8")
  }

  /** The file source the CSV adapter hands to the engine. */
  function CsvSourceConfig(filePath: string, options: CsvOptions): FileSourceConfig {
    FileSourceConfig(Csv, filePath, options.encoding, Some(options.delimiter.GetOr(",")), Some(options.hasHeader.GetOr(true)))
  }

  /**
   * `CsvFileAdapter.buildIR` up to the engine call: the source it would
   * build from, or what it throws. `read` is reading the file with a given
   * encoding: the text it produced, or what it threw.
   */
  function CsvBuildIr(filePath: string, options: CsvOptions, read: string -> Result<string, Thrown>): Result<FileSourceConfig, Thrown> {
    match read(CsvReadEncoding(options))
    case Failure(t) => Failure(CatchRead("Failed to read CSV file: ", filePath, t))
    case Success(content) =>
      if Trim(content) == "" then
        Failure(CatchRead("Failed to read CSV file: ", filePath, Raised(CreateInvalidInput("CSV file is empty", FilePathDetails(filePath)))))
      else
        Success(CsvSourceConfig(filePath, options))
  }

  /**
   * The CSV adapter rejects exactly the content `parseCSV` would find empty,
   * with INVALID_INPUT `'CSV file is empty'`; otherwise it builds a CSV file
   * source whose delimiter and header flag default only when absent, and whose
   * encoding is passed on as given, not defaulted.
   */
  lemma CsvBuildIrContent(filePath: string, options: CsvOptions, read: string -> Result<string, Thrown>,
                          content: string, delimiter: string, hasHeader: bool)
    requires read(CsvReadEncoding(options)) == Success(content)
    ensures CsvReadEncoding(options) == if options.encoding.Some? then options.encoding.value else "utf-8"
    ensures var r := CsvBuildIr(filePath, options, read);
      (r.Failure? <==> ParseCsv(content, delimiter, hasHeader) == CsvTable(None, []))
      && (r.Failure? ==> r.error == Raised(AuddError(InvalidInput, "CSV file is empty", Some(map["filePath" := Str(filePath)]), None)))
      && (r.Success? ==>
            r.value.format == Csv && r.value.path == filePath
            && r.value.encoding == options.encoding
            && r.value.delimiter == Some(if options.delimiter.Some? then options.delimiter.value else ",")
            && r.value.hasHeader == Some(if options.hasHeader.Some? then options.hasHeader.value else true))
  {
    TrimEmptyIff(content);
    ParseCsvEmptyIff(content, delimiter, hasHeader);
  }

  /** A read failure that carries a code is rethrown unchanged; any other becomes IO_ERROR naming the file. */
  lemma CsvBuildIrReadFailure(filePath: string, options: CsvOptions, read: string -> Result<string, Thrown>, t: Thrown)
    requires read(CsvReadEncoding(options)) == Failure(t)
    ensures var r := CsvBuildIr(filePath, options, read);
      r.Failure?
      && (HasCode(t) ==> r.error == t)
      && (!HasCode(t) ==> r.error == Raised(AuddError(IoError, "Failed to read CSV file: " + t.message, Some(map["filePath" := Str(filePath)]), None)))
  {
  }

  /**
   * `JsonFileAdapter.buildIR` up to the engine call. `read` is reading the
   * file with a given encoding; `isJson` stands for `JSON.parse` succeeding;
   * `encoding` defaults to `'utf-8'`.
   */
  function JsonBuildIr(filePath: string, encoding: Option<string>, read: string -> Result<string, Thrown>, isJson: string -> bool): Result<FileSourceConfig, Thrown> {
    match read(encoding.GetOr("utf-8"))
    case Failure(t) => Failure(CatchRead("Failed to read JSON file: ", filePath, t))
    case Success(content) =>
      if !isJson(content) then
        Failure(CatchRead("Failed to read JSON file: ", filePath, Raised(CreateInvalidInput("File is not valid JSON", FilePathDetails(filePath)))))
      else
        Success(FileSourceConfig(Json, filePath, Some(encoding.GetOr("utf-8")), None, None))
  }

  /**
   * The JSON adapter reads the file with the given encoding, else
   * `'utf-8'`, and succeeds exactly on readable, parseable content, with a
   * JSON file source carrying that same encoding; unparseable content is
   * INVALID_INPUT `'File is not valid JSON'`, and read failures are
   * rethrown or wrapped as IO_ERROR.
   */
  lemma JsonBuildIrOutcome(filePath: string, encoding: Option<string>, read: string -> Result<string, Thrown>, isJson: string -> bool)
    ensures var r := JsonBuildIr(filePath, encoding, read, isJson);
      var enc := if encoding.Some? then encoding.value else "utf-8";
      var got := read(enc);
      (r.Success? <==> got.Success? && isJson(got.value))
      && (r.Success? ==> r.value == FileSourceConfig(Json, filePath, Some(enc), None, None))
      && (got.Success? && !isJson(got.value) ==>
            r.error == Raised(AuddError(InvalidInput, "File is not valid JSON", Some(map["filePath" := Str(filePath)]), None)))
      && (got.Failure? && HasCode(got.error) ==> r.error == got.error)
      && (got.Failure? && !HasCode(got.error) ==>
            r.error.Raised? && r.error.error.code == IoError && r.error.error.message == "Failed to read JSON file: " + got.error.message)
  {
  }

  // FileAdapterFactory

  datatype FileAdapter = JsonFileAdapter | CsvFileAdapter

  /** `FileAdapterFactory.create`. */
  function CreateFileAdapter(format: string): Result<FileAdapter, AuddError> {
    if format == "json" then Success(JsonFileAdapter)
    else if format == "csv" then Success(CsvFileAdapter)
    else Failure(CreateUnsupportedFormat(format))
  }

  /** `'json'` and `'csv'` select their adapters; every other format is UNSUPPORTED_FORMAT naming it. */
  lemma CreateFileAdapterCases(format: string)
    ensures var r := CreateFileAdapter(format);
      (r == Success(JsonFileAdapter) <==> format == "json")
      && (r == Success(CsvFileAdapter) <==> format == "csv")
      && (r.Failure? ==> r.error.code == UnsupportedFormat
                         && r.error.message == "Unsupported format: " + format
                         && r.error.details == Some(map["format" := Str(format)]))
  {
  }
}
