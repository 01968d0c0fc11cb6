/**
 * The SDK's normalised error: `AuddError`, its JSON shape, the `createError`
 * builders, and `fromNativeError`, which recovers an error code from the text
 * of an error raised by the native addon.
 */
module Errors {
  import opened Outcomes
  import opened Text
  import opened Types

  /** A detail value: a string, or JavaScript `undefined`. */
  datatype DetailValue = Str(text: string) | Undefined

  type Details = map<string, DetailValue>

  /** An error raised by the native addon, seen through its message. */
  datatype NativeFailure = NativeFailure(message: string)

  /** `AuddError`: its fields are read-only and set once, by the constructor. */
  datatype AuddError = AuddError(
    code: ErrorCode,
    message: string,
    details: Option<Details>,
    cause: Option<NativeFailure>)

  /** The `name` every `AuddError` carries. */
  const ErrorName := "AuddError"

  /** What `toJSON` returns, without the stack trace. */
  datatype ErrorJson = ErrorJson(name: string, code: string, message: string, details: Option<Details>)

  function ToJson(e: AuddError): ErrorJson {
    ErrorJson(ErrorName, e.code.Name(), e.message, e.details)
  }

  /** `toJSON` loses nothing but the cause: two errors with the same JSON agree on code, message and details. */
  lemma ToJsonInjective(a: AuddError, b: AuddError)
    requires ToJson(a) == ToJson(b)
    ensures ToJson(a).name == "AuddError"
    ensures a.code == b.code && a.message == b.message && a.details == b.details
  {
    NameInjective(a.code, b.code);
  }

  // The `createError` builders.

  function CreateInvalidInput(message: string, details: Option<Details>): AuddError {
    AuddError(InvalidInput, message, details, None)
  }

  function CreateUnsupportedSource(sourceType: string): AuddError {
    AuddError(UnsupportedSource, "Unsupported source type: " + sourceType, Some(map["sourceType" := Str(sourceType)]), None)
  }

  function CreateUnsupportedFormat(format: string): AuddError {
    AuddError(UnsupportedFormat, "Unsupported format: " + format, Some(map["format" := Str(format)]), None)
  }

  function CreateDbConnectionFailed(message: string, details: Option<Details>): AuddError {
    AuddError(DbConnectionFailed, message, details, None)
  }

  function CreateIoError(message: string, details: Option<Details>): AuddError {
    AuddError(IoError, message, details, None)
  }

  function CreateInternalError(message: string, details: Option<Details>): AuddError {
    AuddError(InternalError, message, details, None)
  }

  function CreateTimeout(operation: string): AuddError {
    AuddError(Timeout, "Operation timeout: " + operation, Some(map["operation" := Str(operation)]), None)
  }

  function CreateCancelled(operation: string): AuddError {
    AuddError(Cancelled, "Operation cancelled: " + operation, Some(map["operation" := Str(operation)]), None)
  }

  /**
   * Each builder sets its own code; the four that take a parameter embed it
   * after a fixed prefix and record it as the only detail.
   */
  lemma CreateErrorShapes(message: string, details: Option<Details>, sourceType: string, format: string, operation: string)
    ensures CreateInvalidInput(message, details) == AuddError(InvalidInput, message, details, None)
    ensures CreateDbConnectionFailed(message, details) == AuddError(DbConnectionFailed, message, details, None)
    ensures CreateIoError(message, details) == AuddError(IoError, message, details, None)
    ensures CreateInternalError(message, details) == AuddError(InternalError, message, details, None)
    ensures var e := CreateUnsupportedSource(sourceType);
      e.code == UnsupportedSource && e.message[..25] == "Unsupported source type: " && e.message[25..] == sourceType
      && e.details == Some(map["sourceType" := Str(sourceType)]) && e.cause.None?
    ensures var e := CreateUnsupportedFormat(format);
      e.code == UnsupportedFormat && e.message[..20] == "Unsupported format: " && e.message[20..] == format
      && e.details == Some(map["format" := Str(format)]) && e.cause.None?
    ensures var e := CreateTimeout(operation);
      e.code == Timeout && e.message[..19] == "Operation timeout: " && e.message[19..] == operation
      && e.details == Some(map["operation" := Str(operation)])
    ensures var e := CreateCancelled(operation);
      e.code == Cancelled && e.message[..21] == "Operation cancelled: " && e.message[21..] == operation
      && e.details == Some(map["operation" := Str(operation)])
  {
  }

  /** The serialised timeout error names the operation and carries the TIMEOUT code. */
  lemma TimeoutJsonNamesOperation(operation: string)
    ensures ToJson(CreateTimeout(operation)).name == "AuddError"
    ensures ToJson(CreateTimeout(operation)).code == "TIMEOUT"
    ensures Contains(ToJson(CreateTimeout(operation)).message, operation)
  {
    ContainsInfix("Operation timeout: ", operation, "");
    assert "Operation timeout: " + operation + "" == "Operation timeout: " + operation;
  }

  // Classification of native error messages.

  /** The message-to-code mapping of `fromNativeError`: case-sensitive substring tests, first match wins. */
  function Classify(message: string): ErrorCode {
    if Contains(message, "Invalid") || Contains(message, "invalid") then InvalidInput
    else if Contains(message, "Unsupported source") then UnsupportedSource
    else if Contains(message, "Unsupported format") then UnsupportedFormat
    else if Contains(message, "Database") || Contains(message, "connection") then DbConnectionFailed
    else if Contains(message, "IO") || Contains(message, "file") || Contains(message, "File") then IoError
    else if Contains(message, "timeout") || Contains(message, "Timeout") then Timeout
    else if Contains(message, "cancelled") || Contains(message, "Cancelled") then Cancelled
    else if Contains(message, "JSON") then JsonError
    else InternalError
  }

  /** `AuddError.fromNativeError`: the message is kept verbatim and the native error becomes the cause. */
  function FromNativeError(error: NativeFailure): AuddError {
    AuddError(Classify(error.message), error.message, None, Some(error))
  }

  /**
   * What a `catch` block receives: an `AuddError`, or another error that
   * may carry a `code` property of its own (Node's system errors do).
   */
  datatype Thrown = Raised(error: AuddError) | Foreign(message: string, code: Option<string>)

  /** `error instanceof Error && 'code' in error`: the adapters rethrow such errors unchanged. */
  predicate HasCode(t: Thrown) {
    t.Raised? || t.code.Some?
  }

  /** One line of the classification table: any of `patterns` selects `code`. */
  datatype Rule = Rule(patterns: seq<string>, code: ErrorCode)

  /** The classification table, in priority order. */
  const Rules: seq<Rule> := [
    Rule(["Invalid", "invalid"], InvalidInput),
    Rule(["Unsupported source"], UnsupportedSource),
    Rule(["Unsupported format"], UnsupportedFormat),
    Rule(["Database", "connection"], DbConnectionFailed),
    Rule(["IO", "file", "File"], IoError),
    Rule(["timeout", "Timeout"], Timeout),
    Rule(["cancelled", "Cancelled"], Cancelled),
    Rule(["JSON"], JsonError)
  ]

  /** Every keyword of the table. */
  const Keywords: seq<string> := [
    "Invalid", "invalid", "Unsupported source", "Unsupported format", "Database", "connection",
    "IO", "file", "File", "timeout", "Timeout", "cancelled", "Cancelled", "JSON"
  ]

  predicate RuleMatches(rule: Rule, message: string) {
    exists i :: 0 <= i < |rule.patterns| && Contains(message, rule.patterns[i])
  }

  /** A text that contains none of the keywords, so it cannot sway the classification. */
  predicate Neutral(s: string) {
    forall k :: 0 <= k < |Keywords| ==> !Contains(s, Keywords[k])
  }

  /** The code is that of the first rule with a matching keyword, whatever later rules also match. */
  lemma ClassifyFirstMatchWins(message: string, k: nat)
    requires k < |Rules| && RuleMatches(Rules[k], message)
    requires forall j :: 0 <= j < k ==> !RuleMatches(Rules[j], message)
    ensures Classify(message) == Rules[k].code
  {
    var r := Rules;
    assert r[0].patterns == ["Invalid", "invalid"] && r[1].patterns == ["Unsupported source"];
    assert r[2].patterns == ["Unsupported format"] && r[3].patterns == ["Database", "connection"];
    assert r[4].patterns == ["IO", "file", "File"] && r[5].patterns == ["timeout", "Timeout"];
    assert r[6].patterns == ["cancelled", "Cancelled"] && r[7].patterns == ["JSON"];
    var i :| 0 <= i < |r[k].patterns| && Contains(message, r[k].patterns[i]);
    if k == 0 {
      assert i == 0 || i == 1;
    } else {
      assert !Contains(message, r[0].patterns[0]) && !Contains(message, r[0].patterns[1]);
      assert !Contains(message, r[1].patterns[0]) || k == 1;
      assert !Contains(message, r[2].patterns[0]) || k <= 2;
      assert k <= 3 || (!Contains(message, r[3].patterns[0]) && !Contains(message, r[3].patterns[1]));
      assert k <= 4 || (!Contains(message, r[4].patterns[0]) && !Contains(message, r[4].patterns[1]) && !Contains(message, r[4].patterns[2]));
      assert k <= 5 || (!Contains(message, r[5].patterns[0]) && !Contains(message, r[5].patterns[1]));
      assert k <= 6 || (!Contains(message, r[6].patterns[0]) && !Contains(message, r[6].patterns[1]));
    }
  }

  /** With no matching rule the code is INTERNAL_ERROR. */
  lemma ClassifyDefault(message: string)
    requires forall j :: 0 <= j < |Rules| ==> !RuleMatches(Rules[j], message)
    ensures Classify(message) == InternalError
  {
    var r := Rules;
    assert r[0].patterns == ["Invalid", "invalid"] && r[1].patterns == ["Unsupported source"];
    assert r[2].patterns == ["Unsupported format"] && r[3].patterns == ["Database", "connection"];
    assert r[4].patterns == ["IO", "file", "File"] && r[5].patterns == ["timeout", "Timeout"];
    assert r[6].patterns == ["cancelled", "Cancelled"] && r[7].patterns == ["JSON"];
    assert !Contains(message, r[0].patterns[0]) && !Contains(message, r[0].patterns[1]);
    assert !Contains(message, r[1].patterns[0]) && !Contains(message, r[2].patterns[0]);
    assert !Contains(message, r[3].patterns[0]) && !Contains(message, r[3].patterns[1]);
    assert !Contains(message, r[4].patterns[0]) && !Contains(message, r[4].patterns[1]) && !Contains(message, r[4].patterns[2]);
    assert !Contains(message, r[5].patterns[0]) && !Contains(message, r[5].patterns[1]);
    assert !Contains(message, r[6].patterns[0]) && !Contains(message, r[6].patterns[1]);
    assert !Contains(message, r[7].patterns[0]);
  }

  /**
   * A message naming both an invalid input and JSON is INVALID_INPUT, not
   * JSON_ERROR; the message is kept, the native error is the cause, and
   * there are no details.
   */
  lemma InvalidOutranksJson(message: string)
    requires Contains(message, "Invalid") && Contains(message, "JSON")
    ensures FromNativeError(NativeFailure(message)) == AuddError(InvalidInput, message, None, Some(NativeFailure(message)))
  {
  }

  // Classification of texts by the letters they lack: a text without one of
  // a keyword's letters cannot contain that keyword. Each lemma below takes a
  // text made of a keyword between two free parts.

  /** A text without these letters holds no keyword of the first five rules except "connection". */
  lemma EarlyKeywordsAbsent(s: string)
    requires 'I' !in s && 'v' !in s && 'U' !in s && 'D' !in s && 'f' !in s && 'F' !in s
    ensures !Contains(s, "Invalid") && !Contains(s, "invalid")
    ensures !Contains(s, "Unsupported source") && !Contains(s, "Unsupported format")
    ensures !Contains(s, "Database") && !Contains(s, "IO") && !Contains(s, "file") && !Contains(s, "File")
  {
    MissingCharNotContained(s, "Invalid", 'I');
    MissingCharNotContained(s, "invalid", 'v');
    MissingCharNotContained(s, "Unsupported source", 'U');
    MissingCharNotContained(s, "Unsupported format", 'U');
    MissingCharNotContained(s, "Database", 'D');
    MissingCharNotContained(s, "IO", 'I');
    MissingCharNotContained(s, "file", 'f');
    MissingCharNotContained(s, "File", 'F');
  }

  lemma ClassifyNamingInvalid(b: string)
    ensures Classify("Invalid" + b) == InvalidInput
  {
    ContainsInfix("", "Invalid", b);
    assert "" + "Invalid" + b == "Invalid" + b;
  }

  lemma ClassifyNamingUnsupportedSource(b: string)
    requires 'I' !in b && 'v' !in b
    ensures Classify("Unsupported source" + b) == UnsupportedSource
  {
    var s := "Unsupported source" + b;
    MissingCharNotContained(s, "Invalid", 'I');
    MissingCharNotContained(s, "invalid", 'v');
    ContainsInfix("", "Unsupported source", b);
    assert "" + "Unsupported source" + b == s;
  }

  lemma ClassifyNamingUnsupportedFormat(b: string)
    requires 'I' !in b && 'v' !in b && 'c' !in b
    ensures Classify("Unsupported format" + b) == UnsupportedFormat
  {
    var s := "Unsupported format" + b;
    MissingCharNotContained(s, "Invalid", 'I');
    MissingCharNotContained(s, "invalid", 'v');
    MissingCharNotContained(s, "Unsupported source", 'c');
    ContainsInfix("", "Unsupported format", b);
    assert "" + "Unsupported format" + b == s;
  }

  lemma ClassifyNamingDatabase(b: string)
    requires 'I' !in b && 'v' !in b && 'U' !in b
    ensures Classify("Database" + b) == DbConnectionFailed
  {
    var s := "Database" + b;
    MissingCharNotContained(s, "Invalid", 'I');
    MissingCharNotContained(s, "invalid", 'v');
    MissingCharNotContained(s, "Unsupported source", 'U');
    MissingCharNotContained(s, "Unsupported format", 'U');
    ContainsInfix("", "Database", b);
    assert "" + "Database" + b == s;
  }

  lemma ClassifyNamingIo(b: string)
    requires 'v' !in b && 'U' !in b && 'D' !in b && 'c' !in b
    ensures Classify("IO" + b) == IoError
  {
    var s := "IO" + b;
    MissingCharNotContained(s, "Invalid", 'v');
    MissingCharNotContained(s, "invalid", 'v');
    MissingCharNotContained(s, "Unsupported source", 'U');
    MissingCharNotContained(s, "Unsupported format", 'U');
    MissingCharNotContained(s, "Database", 'D');
    MissingCharNotContained(s, "connection", 'c');
    ContainsInfix("", "IO", b);
    assert "" + "IO" + b == s;
  }

  lemma ClassifyNamingTimeout(a: string, b: string)
    requires 'I' !in a && 'v' !in a && 'U' !in a && 'D' !in a && 'f' !in a && 'F' !in a && 'c' !in a
    requires 'I' !in b && 'v' !in b && 'U' !in b && 'D' !in b && 'f' !in b && 'F' !in b && 'c' !in b
    ensures Classify(a + "timeout" + b) == Timeout
  {
    var s := a + "timeout" + b;
    EarlyKeywordsAbsent(s);
    MissingCharNotContained(s, "connection", 'c');
    ContainsInfix(a, "timeout", b);
  }

  /** "cancelled" after a space names no connection: none of its 'c's is followed by an 'o'. */
  lemma CancelledNamesNoConnection(a: string, b: string)
    requires |a| >= 1 && a[|a| - 1] == ' ' && 'c' !in a && 'o' !in b
    ensures !Contains(a + "cancelled" + b, "connection")
  {
    assert a + "cancelled" + b == a + ("cancelled" + b);
    ContainsAfterSeparator(a, "cancelled" + b, "connection");
    MissingCharNotContained(a, "connection", 'c');
    MissingCharNotContained("cancelled" + b, "connection", 'o');
  }

  lemma ClassifyNamingCancelled(a: string, b: string)
    requires |a| >= 1 && a[|a| - 1] == ' '
    requires 'I' !in a && 'v' !in a && 'U' !in a && 'D' !in a && 'f' !in a && 'F' !in a && 'm' !in a && 'T' !in a && 'c' !in a
    requires 'I' !in b && 'v' !in b && 'U' !in b && 'D' !in b && 'f' !in b && 'F' !in b && 'm' !in b && 'T' !in b && 'o' !in b
    ensures Classify(a + "cancelled" + b) == Cancelled
  {
    var s := a + "cancelled" + b;
    EarlyKeywordsAbsent(s);
    CancelledNamesNoConnection(a, b);
    MissingCharNotContained(s, "timeout", 'm');
    MissingCharNotContained(s, "Timeout", 'T');
    ContainsInfix(a, "cancelled", b);
  }

  lemma ClassifyNamingJson(a: string, b: string)
    requires 'I' !in a && 'v' !in a && 'U' !in a && 'D' !in a && 'f' !in a && 'F' !in a
    requires 'c' !in a && 't' !in a && 'T' !in a && 'C' !in a
    requires 'I' !in b && 'v' !in b && 'U' !in b && 'D' !in b && 'f' !in b && 'F' !in b
    requires 'c' !in b && 't' !in b && 'T' !in b && 'C' !in b
    ensures Classify(a + "JSON" + b) == JsonError
  {
    var s := a + "JSON" + b;
    EarlyKeywordsAbsent(s);
    MissingCharNotContained(s, "connection", 'c');
    MissingCharNotContained(s, "timeout", 't');
    MissingCharNotContained(s, "Timeout", 'T');
    MissingCharNotContained(s, "cancelled", 'c');
    MissingCharNotContained(s, "Cancelled", 'C');
    ContainsInfix(a, "JSON", b);
  }

  lemma NothingAvoidsEarly(s: string)
    requires Avoids(s, "vUDcOfFmTCJ")
    ensures 'v' !in s && 'U' !in s && 'D' !in s && 'c' !in s && 'O' !in s && 'f' !in s
  {
    var bad := "vUDcOfFmTCJ";
    assert bad[0] == 'v' && bad[1] == 'U' && bad[2] == 'D' && bad[3] == 'c' && bad[4] == 'O' && bad[5] == 'f';
    AvoidsChar(s, bad, 'v');
    AvoidsChar(s, bad, 'U');
    AvoidsChar(s, bad, 'D');
    AvoidsChar(s, bad, 'c');
    AvoidsChar(s, bad, 'O');
    AvoidsChar(s, bad, 'f');
  }

  lemma NothingAvoidsLate(s: string)
    requires Avoids(s, "vUDcOfFmTCJ")
    ensures 'F' !in s && 'm' !in s && 'T' !in s && 'C' !in s && 'J' !in s
  {
    var bad := "vUDcOfFmTCJ";
    assert bad[6] == 'F' && bad[7] == 'm' && bad[8] == 'T' && bad[9] == 'C' && bad[10] == 'J';
    AvoidsChar(s, bad, 'F');
    AvoidsChar(s, bad, 'm');
    AvoidsChar(s, bad, 'T');
    AvoidsChar(s, bad, 'C');
    AvoidsChar(s, bad, 'J');
  }

  /** A text without these letters holds no keyword, so it falls through to INTERNAL_ERROR. */
  lemma ClassifyNamingNothing(s: string)
    requires Avoids(s, "vUDcOfFmTCJ")
    ensures Classify(s) == InternalError
  {
    NothingAvoidsEarly(s);
    NothingAvoidsLate(s);
    MissingCharNotContained(s, "Invalid", 'v');
    MissingCharNotContained(s, "invalid", 'v');
    MissingCharNotContained(s, "Unsupported source", 'U');
    MissingCharNotContained(s, "Unsupported format", 'U');
    MissingCharNotContained(s, "Database", 'D');
    MissingCharNotContained(s, "connection", 'c');
    MissingCharNotContained(s, "IO", 'O');
    MissingCharNotContained(s, "file", 'f');
    MissingCharNotContained(s, "File", 'F');
    MissingCharNotContained(s, "timeout", 'm');
    MissingCharNotContained(s, "Timeout", 'T');
    MissingCharNotContained(s, "cancelled", 'c');
    MissingCharNotContained(s, "Cancelled", 'C');
    MissingCharNotContained(s, "JSON", 'J');
  }

  /** An upper-case text without 'a', 'n' or 'i' holds no keyword. */
  lemma ClassifyShouting(s: string)
    requires 'n' !in s && 'i' !in s && 'a' !in s && 'U' !in s && 'c' !in s && 'O' !in s && 'f' !in s
    requires 'F' !in s && 't' !in s && 'T' !in s && 'C' !in s && 'J' !in s
    ensures Classify(s) == InternalError
  {
    MissingCharNotContained(s, "Invalid", 'n');
    MissingCharNotContained(s, "invalid", 'i');
    MissingCharNotContained(s, "Unsupported source", 'U');
    MissingCharNotContained(s, "Unsupported format", 'U');
    MissingCharNotContained(s, "Database", 'a');
    MissingCharNotContained(s, "connection", 'c');
    MissingCharNotContained(s, "IO", 'O');
    MissingCharNotContained(s, "file", 'f');
    MissingCharNotContained(s, "File", 'F');
    MissingCharNotContained(s, "timeout", 't');
    MissingCharNotContained(s, "Timeout", 'T');
    MissingCharNotContained(s, "cancelled", 'c');
    MissingCharNotContained(s, "Cancelled", 'C');
    MissingCharNotContained(s, "JSON", 'J');
  }

  /** Matching is case-sensitive: an upper-case spelling of a keyword selects nothing. */
  lemma ClassifyShoutedIsInternal()
    ensures Classify("INVALID") == InternalError
  {
    ClassifyShouting("INVALID");
  }

  /** The upper-case spelling "JSON" selects JSON_ERROR ... */
  lemma ClassifyJsonUpperCase()
    ensures Classify("bad JSON") == JsonError
  {
    Spelling();
    ClassifyNamingJson("bad ", "");
  }

  /** ... and the lower-case "json" selects nothing. */
  lemma ClassifyJsonLowerCase()
    ensures Classify("bad json") == InternalError
  {
    ClassifyNamingNothing("bad json");
  }

  /** No keyword is empty, holds a ':' or starts with a space. */
  lemma KeywordsSeamFree()
    ensures forall k :: 0 <= k < |Keywords| ==> |Keywords[k]| > 0 && ':' !in Keywords[k] && Keywords[k][0] != ' '
  {
  }

  /** Appending a text free of the given words after a prefix ending in ": " makes none of them appear. */
  lemma NeutralTailKeeps(prefix: string, payload: string, words: seq<string>)
    requires |prefix| >= 2 && prefix[|prefix| - 2] == ':' && prefix[|prefix| - 1] == ' '
    requires forall k :: 0 <= k < |words| ==> |words[k]| > 0 && ':' !in words[k] && words[k][0] != ' '
    requires forall k :: 0 <= k < |words| ==> !Contains(payload, words[k])
    ensures forall k :: 0 <= k < |words| ==> (Contains(prefix + payload, words[k]) <==> Contains(prefix, words[k]))
  {
    forall k | 0 <= k < |words|
      ensures Contains(prefix + payload, words[k]) <==> Contains(prefix, words[k])
    {
      ContainsAppend(prefix, payload, words[k]);
    }
  }

  /**
   * A neutral payload after a prefix ending in ": " does not change the
   * classification: every keyword lacks ':' and none starts with a space,
   * so no keyword straddles the seam.
   */
  lemma ClassifyIgnoresNeutralTail(prefix: string, payload: string)
    requires |prefix| >= 2 && prefix[|prefix| - 2] == ':' && prefix[|prefix| - 1] == ' '
    requires Neutral(payload)
    ensures Classify(prefix + payload) == Classify(prefix)
  {
    KeywordsSeamFree();
    NeutralTailKeeps(prefix, payload, Keywords);
    var w, m := Keywords, prefix + payload;
    assert w == ["Invalid", "invalid", "Unsupported source", "Unsupported format", "Database", "connection",
                 "IO", "file", "File", "timeout", "Timeout", "cancelled", "Cancelled", "JSON"];
    assert (Contains(m, w[0]) <==> Contains(prefix, w[0])) && (Contains(m, w[1]) <==> Contains(prefix, w[1]));
    assert (Contains(m, w[2]) <==> Contains(prefix, w[2])) && (Contains(m, w[3]) <==> Contains(prefix, w[3]));
    assert (Contains(m, w[4]) <==> Contains(prefix, w[4])) && (Contains(m, w[5]) <==> Contains(prefix, w[5]));
    assert (Contains(m, w[6]) <==> Contains(prefix, w[6])) && (Contains(m, w[7]) <==> Contains(prefix, w[7]));
    assert (Contains(m, w[8]) <==> Contains(prefix, w[8])) && (Contains(m, w[9]) <==> Contains(prefix, w[9]));
    assert (Contains(m, w[10]) <==> Contains(prefix, w[10])) && (Contains(m, w[11]) <==> Contains(prefix, w[11]));
    assert (Contains(m, w[12]) <==> Contains(prefix, w[12])) && (Contains(m, w[13]) <==> Contains(prefix, w[13]));
  }

  // The fixed prefixes of the builders' messages.

  /** The fixed texts above, spelt as a keyword between two free parts. */
  lemma Spelling()
    ensures "bad JSON" == "bad " + "JSON" + ""
    ensures "Unsupported source type: " == "Unsupported source" + " type: "
    ensures "Unsupported format: " == "Unsupported format" + ": "
    ensures "Operation timeout: " == "Operation " + "timeout" + ": "
    ensures "Operation cancelled: " == "Operation " + "cancelled" + ": "
  {
  }

  lemma ClassifyUnsupportedSourcePrefix()
    ensures Classify("Unsupported source type: ") == UnsupportedSource
  {
    Spelling();
    ClassifyNamingUnsupportedSource(" type: ");
  }

  lemma ClassifyUnsupportedFormatPrefix()
    ensures Classify("Unsupported format: ") == UnsupportedFormat
  {
    Spelling();
    ClassifyNamingUnsupportedFormat(": ");
  }

  lemma ClassifyTimeoutPrefix()
    ensures Classify("Operation timeout: ") == Timeout
  {
    Spelling();
    ClassifyNamingTimeout("Operation ", ": ");
  }

  lemma ClassifyCancelledPrefix()
    ensures Classify("Operation cancelled: ") == Cancelled
  {
    Spelling();
    ClassifyNamingCancelled("Operation ", ": ");
  }

  // A builder's message, passed back through `fromNativeError`, is classified
  // under the builder's own code whenever its argument is neutral.

  lemma UnsupportedSourceClassifiesBack(sourceType: string)
    requires Neutral(sourceType)
    ensures FromNativeError(NativeFailure(CreateUnsupportedSource(sourceType).message)).code == UnsupportedSource
  {
    ClassifyUnsupportedSourcePrefix();
    ClassifyIgnoresNeutralTail("Unsupported source type: ", sourceType);
  }

  lemma UnsupportedFormatClassifiesBack(format: string)
    requires Neutral(format)
    ensures FromNativeError(NativeFailure(CreateUnsupportedFormat(format).message)).code == UnsupportedFormat
  {
    ClassifyUnsupportedFormatPrefix();
    ClassifyIgnoresNeutralTail("Unsupported format: ", format);
  }

  lemma TimeoutClassifiesBack(operation: string)
    requires Neutral(operation)
    ensures FromNativeError(NativeFailure(CreateTimeout(operation).message)).code == Timeout
  {
    ClassifyTimeoutPrefix();
    ClassifyIgnoresNeutralTail("Operation timeout: ", operation);
  }

  lemma CancelledClassifiesBack(operation: string)
    requires Neutral(operation)
    ensures FromNativeError(NativeFailure(CreateCancelled(operation).message)).code == Cancelled
  {
    ClassifyCancelledPrefix();
    ClassifyIgnoresNeutralTail("Operation cancelled: ", operation);
  }
}
