/**
 * The native addon's error enum `AuddNativeError`: its variants, the text
 * each one displays, and `code()`, the stable code string of each variant.
 */
module NativeErrors {
  import opened Text
  import Types
  import Errors

  datatype AuddNativeError =
    | InvalidInput(detail: string)
    | UnsupportedSource(detail: string)
    | UnsupportedFormat(detail: string)
    | DbConnectionFailed(detail: string)
    | IoError(detail: string)
    | InternalError(detail: string)
    | Cancelled
    | Timeout
    | JsonError(detail: string)

  /** The fixed text each variant displays before its payload. */
  function Prefix(e: AuddNativeError): string {
    match e
    case InvalidInput(_) => "Invalid input: "
    case UnsupportedSource(_) => "Unsupported source type: "
    case UnsupportedFormat(_) => "Unsupported format: "
    case DbConnectionFailed(_) => "Database connection failed: "
    case IoError(_) => "IO error: "
    case InternalError(_) => "Internal error: "
    case Cancelled => "Operation cancelled"
    case Timeout => "Operation timeout"
    case JsonError(_) => "JSON error: "
  }

  /** The payload a variant displays; `Cancelled` and `Timeout` carry none. */
  function Payload(e: AuddNativeError): string {
    if e.Cancelled? || e.Timeout? then "" else e.detail
  }

  /** The `Display` text of a variant. */
  function Display(e: AuddNativeError): (s: string)
    ensures |s| >= |Prefix(e)| && s[..|Prefix(e)|] == Prefix(e)
    ensures s[|Prefix(e)|..] == Payload(e)
  {
    match e
    case Cancelled => "Operation cancelled"
    case Timeout => "Operation timeout"
    case _ => Prefix(e) + e.detail
  }

  /** `code()`. */
  function Code(e: AuddNativeError): string {
    match e
    case InvalidInput(_) => "INVALID_INPUT"
    case UnsupportedSource(_) => "UNSUPPORTED_SOURCE"
    case UnsupportedFormat(_) => "UNSUPPORTED_FORMAT"
    case DbConnectionFailed(_) => "DB_CONNECTION_FAILED"
    case IoError(_) => "IO_ERROR"
    case InternalError(_) => "INTERNAL_ERROR"
    case Cancelled => "CANCELLED"
    case Timeout => "TIMEOUT"
    case JsonError(_) => "JSON_ERROR"
  }

  /** The member of the SDK's `ErrorCode` enum a variant corresponds to. */
  function Kind(e: AuddNativeError): Types.ErrorCode {
    match e
    case InvalidInput(_) => Types.InvalidInput
    case UnsupportedSource(_) => Types.UnsupportedSource
    case UnsupportedFormat(_) => Types.UnsupportedFormat
    case DbConnectionFailed(_) => Types.DbConnectionFailed
    case IoError(_) => Types.IoError
    case InternalError(_) => Types.InternalError
    case Cancelled => Types.Cancelled
    case Timeout => Types.Timeout
    case JsonError(_) => Types.JsonError
  }

  /** Two errors of the same variant. */
  predicate SameVariant(a: AuddNativeError, b: AuddNativeError) {
    Prefix(a) == Prefix(b)
  }

  /** The native code strings are exactly the string values of the SDK's enum. */
  lemma CodeIsEnumValue(e: AuddNativeError)
    ensures Code(e) == Kind(e).Name()
    ensures Kind(e) in Types.AllErrorCodes
  {
  }

  /** Every member of the SDK's enum is the code of some native variant. */
  lemma EveryEnumValueIsACode(k: Types.ErrorCode)
    ensures exists e :: Code(e) == k.Name()
  {
    var e := match k
      case InvalidInput => InvalidInput("")
      case UnsupportedSource => UnsupportedSource("")
      case UnsupportedFormat => UnsupportedFormat("")
      case DbConnectionFailed => DbConnectionFailed("")
      case IoError => IoError("")
      case InternalError => InternalError("")
      case Cancelled => Cancelled
      case Timeout => Timeout
      case JsonError => JsonError("");
    assert Kind(e) == k;
    CodeIsEnumValue(e);
  }

  /** `code()` is injective on variants: two errors share a code exactly when they are of the same variant. */
  lemma CodeInjective(a: AuddNativeError, b: AuddNativeError)
    ensures Code(a) == Code(b) <==> SameVariant(a, b)
  {
    CodeIsEnumValue(a);
    CodeIsEnumValue(b);
    Types.NameInjective(Kind(a), Kind(b));
    if Kind(a) == Kind(b) {
      assert Prefix(a) == Prefix(b);
    }
    if Prefix(a) == Prefix(b) {
      PrefixDeterminesKind(a, b);
    }
  }

  /** Distinct variants display distinct prefixes. */
  lemma PrefixDeterminesKind(a: AuddNativeError, b: AuddNativeError)
    requires Prefix(a) == Prefix(b)
    ensures Kind(a) == Kind(b)
  {
    var p, q := Prefix(a), Prefix(b);
    assert p[0] == q[0] && p[1] == q[1] && |p| == |q|;
  }

  /** The prefixes spelt as a keyword between two free parts. */
  lemma Spelling()
    ensures "Invalid input: " == "Invalid" + " input: "
    ensures "Unsupported source type: " == "Unsupported source" + " type: "
    ensures "Unsupported format: " == "Unsupported format" + ": "
    ensures "Database connection failed: " == "Database" + " connection failed: "
    ensures "IO error: " == "IO" + " error: "
    ensures "Operation cancelled" == "Operation " + "cancelled" + ""
    ensures "Operation timeout" == "Operation " + "timeout" + ""
    ensures "JSON error: " == "" + "JSON" + " error: "
  {
  }

  /** The SDK classifies each bare prefix under the code of the variant that displays it. */
  lemma PrefixClassifiesToCode(e: AuddNativeError)
    ensures Errors.Classify(Prefix(e)) == Kind(e)
    ensures Errors.Classify(Prefix(e)).Name() == Code(e)
  {
    match e
    case InvalidInput(_) => ClassifyInvalidInputPrefix();
    case UnsupportedSource(_) => ClassifyUnsupportedSourcePrefix();
    case UnsupportedFormat(_) => ClassifyUnsupportedFormatPrefix();
    case DbConnectionFailed(_) => ClassifyDbConnectionFailedPrefix();
    case IoError(_) => ClassifyIoErrorPrefix();
    case InternalError(_) => ClassifyInternalErrorPrefix();
    case Cancelled => ClassifyCancelledPrefix();
    case Timeout => ClassifyTimeoutPrefix();
    case JsonError(_) => ClassifyJsonErrorPrefix();
  }

  lemma ClassifyInvalidInputPrefix()
    ensures Errors.Classify("Invalid input: ") == Types.InvalidInput
  {
    Spelling();
    Errors.ClassifyNamingInvalid(" input: ");
  }

  lemma ClassifyUnsupportedSourcePrefix()
    ensures Errors.Classify("Unsupported source type: ") == Types.UnsupportedSource
  {
    Spelling();
    Errors.ClassifyNamingUnsupportedSource(" type: ");
  }

  lemma ClassifyUnsupportedFormatPrefix()
    ensures Errors.Classify("Unsupported format: ") == Types.UnsupportedFormat
  {
    Spelling();
    Errors.ClassifyNamingUnsupportedFormat(": ");
  }

  lemma ClassifyDbConnectionFailedPrefix()
    ensures Errors.Classify("Database connection failed: ") == Types.DbConnectionFailed
  {
    Spelling();
    Errors.ClassifyNamingDatabase(" connection failed: ");
  }

  lemma ClassifyIoErrorPrefix()
    ensures Errors.Classify("IO error: ") == Types.IoError
  {
    Spelling();
    Errors.ClassifyNamingIo(" error: ");
  }

  lemma ClassifyInternalErrorPrefix()
    ensures Errors.Classify("Internal error: ") == Types.InternalError
  {
    Errors.ClassifyNamingNothing("Internal error: ");
  }

  lemma ClassifyCancelledPrefix()
    ensures Errors.Classify("Operation cancelled") == Types.Cancelled
  {
    Spelling();
    Errors.ClassifyNamingCancelled("Operation ", "");
  }

  lemma ClassifyTimeoutPrefix()
    ensures Errors.Classify("Operation timeout") == Types.Timeout
  {
    Spelling();
    Errors.ClassifyNamingTimeout("Operation ", "");
  }

  lemma ClassifyJsonErrorPrefix()
    ensures Errors.Classify("JSON error: ") == Types.JsonError
  {
    Spelling();
    Errors.ClassifyNamingJson("", " error: ");
  }

  /**
   * The SDK's `fromNativeError` recovers the native `code()` from the
   * displayed text of any variant whose payload names no keyword (in
   * particular an empty one).
   */
  lemma DisplayClassifiesToCode(e: AuddNativeError)
    requires Errors.Neutral(Payload(e))
    ensures Errors.FromNativeError(Errors.NativeFailure(Display(e))).code.Name() == Code(e)
  {
    PrefixClassifiesToCode(e);
    if !e.Cancelled? && !e.Timeout? {
      var p := Prefix(e);
      assert p[|p| - 2] == ':' && p[|p| - 1] == ' ';
      Errors.ClassifyIgnoresNeutralTail(p, e.detail);
    }
  }

  /** The empty payload names no keyword. */
  lemma EmptyIsNeutral()
    ensures Errors.Neutral("")
  {
    forall k | 0 <= k < |Errors.Keywords| ensures !Contains("", Errors.Keywords[k]) {
      assert !OccursAt("", Errors.Keywords[k], 0);
    }
  }

  /** With an empty payload every variant's text classifies back to its own code. */
  lemma EmptyPayloadClassifiesToCode(e: AuddNativeError)
    requires Payload(e) == ""
    ensures Errors.FromNativeError(Errors.NativeFailure(Display(e))).code.Name() == Code(e)
  {
    EmptyIsNeutral();
    DisplayClassifiesToCode(e);
  }

  /** A payload can override the variant: an IO error about an invalid path is classified INVALID_INPUT. */
  lemma PayloadCanOverrideCode()
    ensures Code(IoError("Invalid path")) == "IO_ERROR"
    ensures Errors.Classify(Display(IoError("Invalid path"))) == Types.InvalidInput
  {
    ContainsInfix("IO error: ", "Invalid", " path");
    assert "IO error: " + "Invalid path" == "IO error: " + "Invalid" + " path";
  }
}
