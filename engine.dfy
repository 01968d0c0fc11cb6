/**
 * `AuddEngine`: the input checks each call makes before reaching the native
 * addon, the translation of its options into the addon's records, and the
 * mapping of the addon's failures onto `AuddError`. The addon itself, and
 * `JSON.parse`/`JSON.stringify`, are parameters.
 */
module Engine {
  import opened Outcomes
  import opened Text
  import opened Types
  import opened Errors

  function Invalid(message: string): AuddError {
    CreateInvalidInput(message, None)
  }

  // validateBuildOptions

  /** `validateBuildOptions`: guard checks, the first failing one throws. */
  function ValidateBuildOptions(options: BuildIrOptions): Outcome<AuddError> {
    if options.source.None? then Fail(Invalid("Missing source configuration"))
    else
      var source := options.source.value;
      if !Truthy(source.sourceType) then Fail(Invalid("Missing source type"))
      else if !Truthy(source.format) then Fail(Invalid("Missing source format"))
      else if source.sourceType.value == "file" && !Truthy(source.path) then Fail(Invalid("File source requires path"))
      else if source.sourceType.value == "db" then
        if !Truthy(source.table) then Fail(Invalid("Database source requires table"))
        else if source.format.value == "sqlite" then
          if !Truthy(source.path) then Fail(Invalid("SQLite source requires path")) else Pass
        else if source.format.value == "mysql" || source.format.value == "postgres" then
          if !Truthy(source.host) then Fail(Invalid(source.format.value + " source requires host")) else Pass
        else Pass
      else Pass
  }

  /** The build options the engine accepts, stated as one condition per source type. */
  predicate AcceptableBuildOptions(options: BuildIrOptions) {
    options.source.Some?
    && var source := options.source.value;
    Truthy(source.sourceType) && Truthy(source.format)
    && (source.sourceType.value == "file" ==> Truthy(source.path))
    && (source.sourceType.value == "db" ==>
          Truthy(source.table)
          && (source.format.value == "sqlite" ==> Truthy(source.path))
          && (source.format.value == "mysql" || source.format.value == "postgres" ==> Truthy(source.host)))
  }

  /** Validation passes exactly on acceptable options; every rejection is INVALID_INPUT without details. */
  lemma ValidateBuildOptionsSpec(options: BuildIrOptions)
    ensures ValidateBuildOptions(options).Pass? <==> AcceptableBuildOptions(options)
    ensures ValidateBuildOptions(options).Fail? ==>
      ValidateBuildOptions(options).error.code == InvalidInput && ValidateBuildOptions(options).error.details.None?
  {
  }

  /**
   * The checks run in order: a missing source, then a missing type, then a
   * missing format; a database source's table before anything specific to
   * its format.
   */
  lemma ValidateBuildOptionsOrder(options: BuildIrOptions)
    ensures options.source.None? ==> ValidateBuildOptions(options) == Fail(Invalid("Missing source configuration"))
    ensures options.source.Some? && !Truthy(options.source.value.sourceType) ==>
      ValidateBuildOptions(options) == Fail(Invalid("Missing source type"))
    ensures options.source.Some? && Truthy(options.source.value.sourceType) && !Truthy(options.source.value.format) ==>
      ValidateBuildOptions(options) == Fail(Invalid("Missing source format"))
    ensures options.source.Some? && options.source.value.sourceType == Some("db") && Truthy(options.source.value.format)
            && !Truthy(options.source.value.table) ==>
      ValidateBuildOptions(options) == Fail(Invalid("Database source requires table"))
  {
  }

  /** The format-specific checks of a database source, and the pass of every other source type. */
  lemma ValidateBuildOptionsByType(options: BuildIrOptions)
    requires options.source.Some?
    requires Truthy(options.source.value.sourceType) && Truthy(options.source.value.format)
    ensures var s := options.source.value;
      (s.sourceType.value == "file" ==> (ValidateBuildOptions(options) == Pass <==> Truthy(s.path)))
      && (s.sourceType.value == "file" && !Truthy(s.path) ==> ValidateBuildOptions(options) == Fail(Invalid("File source requires path")))
      && (s.sourceType.value == "db" && Truthy(s.table) && s.format.value == "sqlite" && !Truthy(s.path) ==>
            ValidateBuildOptions(options) == Fail(Invalid("SQLite source requires path")))
      && (s.sourceType.value == "db" && Truthy(s.table) && (s.format.value == "mysql" || s.format.value == "postgres") && !Truthy(s.host) ==>
            ValidateBuildOptions(options) == Fail(Invalid(s.format.value + " source requires host")))
      && (s.sourceType.value != "file" && s.sourceType.value != "db" ==> ValidateBuildOptions(options) == Pass)
  {
  }

  /** Typed sources: a memory source always passes, a file source exactly when its path is not empty. */
  lemma TypedSourcesValidate(source: SourceConfig, config: Option<ConfigObject>)
    ensures source.MemorySource? ==> ValidateBuildOptions(BuildIrOptions(Some(Fields(source)), config)) == Pass
    ensures source.FileSource? ==>
      (ValidateBuildOptions(BuildIrOptions(Some(Fields(source)), config)) == Pass <==> source.file.path != "")
  {
    var f := Fields(source);
    assert f.sourceType.value != "";
    if source.FileSource? {
      assert f.format.value == source.file.format.Name();
      assert f.format.value != "";
    }
  }

  // validateIRString / validateJSONString

  /** A value as JavaScript sees it at a `typeof` check: a string, or anything else. */
  datatype JsValue = JsString(text: string) | JsOther

  /**
   * `validateIRString` and `validateJSONString`, which are the same check:
   * the value must be a string, and `JSON.parse` (here `isJson`) must accept it.
   */
  function ValidateJsonText(value: JsValue, name: string, isJson: string -> bool): Outcome<AuddError> {
    if value.JsOther? then Fail(Invalid(name + " must be a JSON string"))
    else if !isJson(value.text) then Fail(Invalid(name + " is not a valid JSON string"))
    else Pass
  }

  /**
   * The check passes exactly on strings that parse; a non-string is reported
   * before any parsing, so its outcome does not depend on the parser.
   */
  lemma ValidateJsonTextSpec(value: JsValue, name: string, isJson: string -> bool, otherParser: string -> bool)
    ensures ValidateJsonText(value, name, isJson).Pass? <==> value.JsString? && isJson(value.text)
    ensures value.JsOther? ==>
      ValidateJsonText(value, name, isJson) == ValidateJsonText(value, name, otherParser)
      && ValidateJsonText(value, name, isJson).error.message == name + " must be a JSON string"
    ensures value.JsString? && !isJson(value.text) ==>
      ValidateJsonText(value, name, isJson).error.message == name + " is not a valid JSON string"
    ensures ValidateJsonText(value, name, isJson).Fail? ==> ValidateJsonText(value, name, isJson).error.code == InvalidInput
  {
  }

  // Calls into the addon

  /** The `catch` of every engine call: a native failure becomes an `AuddError` by `fromNativeError`. */
  function FromNative<T>(r: Result<T, NativeFailure>): Result<T, AuddError> {
    match r
    case Success(v) => Success(v)
    case Failure(f) => Failure(FromNativeError(f))
  }

  /** A mapped failure keeps the native message verbatim and the native error as its cause, with no details. */
  lemma FromNativeKeeps<T>(r: Result<T, NativeFailure>)
    ensures FromNative(r).Success? <==> r.Success?
    ensures r.Success? ==> FromNative(r).value == r.value
    ensures r.Failure? ==>
      FromNative(r).error.message == r.error.message
      && FromNative(r).error.cause == Some(r.error)
      && FromNative(r).error.details.None?
      && FromNative(r).error.code == Classify(r.error.message)
  {
  }

  /** What `JSON.stringify` does to a config object: its text, or what it threw (a circular or BigInt value). */
  type Stringify = ConfigObject -> Result<string, NativeFailure>

  /**
   * `config ? JSON.stringify(config) : undefined`; a present config object is
   * always truthy. A throw of `JSON.stringify` is the failure.
   */
  function SerialiseConfig(config: Option<ConfigObject>, stringify: Stringify): Result<Option<string>, NativeFailure> {
    if config.None? then Success(None)
    else match stringify(config.value)
      case Success(text) => Success(Some(text))
      case Failure(f) => Failure(f)
  }

  /** The config is absent or `JSON.stringify` does not throw on it. */
  predicate Serialises(config: Option<ConfigObject>, stringify: Stringify) {
    config.None? || stringify(config.value).Success?
  }

  /** The options record `buildIR` hands to the addon. */
  datatype NativeBuildOptions = NativeBuildOptions(sourceType: string, format: string, path: Option<string>, config: Option<string>)

  function ToNativeBuildOptions(options: BuildIrOptions, stringify: Stringify): Result<NativeBuildOptions, NativeFailure>
    requires ValidateBuildOptions(options).Pass?
  {
    var source := options.source.value;
    match SerialiseConfig(options.config, stringify)
    case Failure(f) => Failure(f)
    case Success(config) => Success(NativeBuildOptions(source.sourceType.value, source.format.value, source.path, config))
  }

  /**
   * `buildIR`: validate, then, inside the `try`, translate the options and
   * call the addon; a throw of either is mapped by `fromNativeError`.
   */
  function BuildIr(options: BuildIrOptions, stringify: Stringify, native: NativeBuildOptions -> Result<string, NativeFailure>): Result<string, AuddError> {
    match ValidateBuildOptions(options)
    case Fail(e) => Failure(e)
    case Pass =>
      match ToNativeBuildOptions(options, stringify)
      case Failure(f) => Failure(FromNativeError(f))
      case Success(n) => FromNative(native(n))
  }

  /**
   * Rejected options never reach the addon. Accepted ones reach it with the
   * source's type and format, its path only when the source has one, and the
   * config serialised only when it is given; a config `JSON.stringify`
   * throws on is reported through `fromNativeError` without calling the addon.
   */
  lemma BuildIrOutcome(options: BuildIrOptions, stringify: Stringify, native: NativeBuildOptions -> Result<string, NativeFailure>)
    ensures ValidateBuildOptions(options).Fail? ==> BuildIr(options, stringify, native) == Failure(ValidateBuildOptions(options).error)
    ensures ValidateBuildOptions(options).Pass? && !Serialises(options.config, stringify) ==>
      BuildIr(options, stringify, native) == Failure(FromNativeError(stringify(options.config.value).error))
    ensures ValidateBuildOptions(options).Pass? && Serialises(options.config, stringify) ==>
      ToNativeBuildOptions(options, stringify).Success? &&
      var n := ToNativeBuildOptions(options, stringify).value;
      var source := options.source.value;
      Some(n.sourceType) == source.sourceType && Some(n.format) == source.format
      && n.path == source.path
      && n.config == (if options.config.Some? then Some(stringify(options.config.value).value) else None)
      && BuildIr(options, stringify, native) == FromNative(native(n))
  {
  }

  /** The options record `compare` hands to the addon. */
  datatype NativeCompareOptions = NativeCompareOptions(
    threshold: Option<real>, strategy: Option<string>, ignoreFields: Option<seq<string>>, config: Option<string>)

  function ToNativeCompareOptions(options: Option<CompareOptions>, stringify: Stringify): Result<Option<NativeCompareOptions>, NativeFailure> {
    match options
    case None => Success(None)
    case Some(o) =>
      match SerialiseConfig(o.config, stringify)
      case Failure(f) => Failure(f)
      case Success(config) => Success(Some(NativeCompareOptions(o.threshold, o.strategy, o.ignoreFields, config)))
  }

  /** `compare`: both IRs are checked, `irA` first, before the options are translated and the addon is called. */
  function Compare(irA: JsValue, irB: JsValue, options: Option<CompareOptions>, isJson: string -> bool,
                   stringify: Stringify,
                   native: (string, string, Option<NativeCompareOptions>) -> Result<string, NativeFailure>): Result<string, AuddError> {
    match ValidateJsonText(irA, "irA", isJson)
    case Fail(e) => Failure(e)
    case Pass =>
      match ValidateJsonText(irB, "irB", isJson)
      case Fail(e) => Failure(e)
      case Pass =>
        match ToNativeCompareOptions(options, stringify)
        case Failure(f) => Failure(FromNativeError(f))
        case Success(n) => FromNative(native(irA.text, irB.text, n))
  }

  /**
   * A bad `irA` is reported whatever `irB` is; `irB` is checked only after
   * `irA` passes; the addon sees both texts only when both pass, and then
   * its result, or its failure mapped by `fromNativeError`, is what the
   * caller gets.
   */
  lemma CompareChecksIrAFirst(irA: JsValue, irB: JsValue, options: Option<CompareOptions>, isJson: string -> bool,
                              stringify: Stringify,
                              native: (string, string, Option<NativeCompareOptions>) -> Result<string, NativeFailure>)
    ensures var r := Compare(irA, irB, options, isJson, stringify, native);
      (ValidateJsonText(irA, "irA", isJson).Fail? ==> r == Failure(ValidateJsonText(irA, "irA", isJson).error))
      && (ValidateJsonText(irA, "irA", isJson).Pass? && ValidateJsonText(irB, "irB", isJson).Fail? ==>
            r == Failure(ValidateJsonText(irB, "irB", isJson).error))
      && (r.Success? ==> irA.JsString? && isJson(irA.text) && irB.JsString? && isJson(irB.text))
    ensures irA.JsString? && isJson(irA.text) && irB.JsString? && isJson(irB.text) && ToNativeCompareOptions(options, stringify).Success? ==>
      Compare(irA, irB, options, isJson, stringify, native)
        == FromNative(native(irA.text, irB.text, ToNativeCompareOptions(options, stringify).value))
    ensures irA.JsString? && isJson(irA.text) && irB.JsString? && isJson(irB.text) && ToNativeCompareOptions(options, stringify).Failure? ==>
      Compare(irA, irB, options, isJson, stringify, native) == Failure(FromNativeError(ToNativeCompareOptions(options, stringify).error))
  {
  }

  /**
   * `compare`'s options reach the addon with threshold, strategy and
   * ignored fields copied and the config serialised only when given; absent
   * options stay absent, and a config `JSON.stringify` throws on is the
   * failure.
   */
  lemma CompareOptionsTranslated(options: Option<CompareOptions>, stringify: Stringify)
    ensures options.None? ==> ToNativeCompareOptions(options, stringify) == Success(None)
    ensures options.Some? && !Serialises(options.value.config, stringify) ==>
      ToNativeCompareOptions(options, stringify) == Failure(stringify(options.value.config.value).error)
    ensures options.Some? && Serialises(options.value.config, stringify) ==>
      var o := options.value;
      ToNativeCompareOptions(options, stringify)
        == Success(Some(NativeCompareOptions(o.threshold, o.strategy, o.ignoreFields,
                                             if o.config.Some? then Some(stringify(o.config.value).value) else None)))
  {
  }

  /** When neither IR is a string the error names `irA`. */
  lemma CompareBothBad(options: Option<CompareOptions>, isJson: string -> bool, stringify: Stringify,
                       native: (string, string, Option<NativeCompareOptions>) -> Result<string, NativeFailure>)
    ensures Compare(JsOther, JsOther, options, isJson, stringify, native).Failure?
    ensures Compare(JsOther, JsOther, options, isJson, stringify, native).error.code == InvalidInput
    ensures Compare(JsOther, JsOther, options, isJson, stringify, native).error.message == "irA must be a JSON string"
  {
    IrAMessage();
  }

  lemma IrAMessage()
    ensures "irA" + " must be a JSON string" == "irA must be a JSON string"
  {
  }

  /** The addon's `Invalid IR A: …` failure reaches the caller as INVALID_INPUT, though it names JSON. */
  lemma InvalidIrFailureIsInvalidInput(detail: string)
    ensures FromNativeError(NativeFailure("Invalid IR A: " + detail)).code == InvalidInput
    ensures FromNativeError(NativeFailure("Invalid IR B: " + detail)).code == InvalidInput
  {
    ContainsInfix("", "Invalid", " IR A: " + detail);
    assert "" + "Invalid" + (" IR A: " + detail) == "Invalid IR A: " + detail;
    ContainsInfix("", "Invalid", " IR B: " + detail);
    assert "" + "Invalid" + (" IR B: " + detail) == "Invalid IR B: " + detail;
  }

  /** The options record `proposeResolution` hands to the addon. */
  datatype NativeResolveOptions = NativeResolveOptions(strategy: Option<string>, preferSource: Option<string>, config: Option<string>)

  function ToNativeResolveOptions(options: Option<ResolveOptions>, stringify: Stringify): Result<Option<NativeResolveOptions>, NativeFailure> {
    match options
    case None => Success(None)
    case Some(o) =>
      match SerialiseConfig(o.config, stringify)
      case Failure(f) => Failure(f)
      case Success(config) => Success(Some(NativeResolveOptions(o.strategy, o.preferSource, config)))
  }

  /** `proposeResolution`: the diff is checked, then the options are translated and the addon is called. */
  function ProposeResolution(diff: JsValue, options: Option<ResolveOptions>, isJson: string -> bool, stringify: Stringify,
                             native: (string, Option<NativeResolveOptions>) -> Result<string, NativeFailure>): Result<string, AuddError> {
    match ValidateJsonText(diff, "diff", isJson)
    case Fail(e) => Failure(e)
    case Pass =>
      match ToNativeResolveOptions(options, stringify)
      case Failure(f) => Failure(FromNativeError(f))
      case Success(n) => FromNative(native(diff.text, n))
  }

  /** The options record `applyResolution` hands to the addon. */
  datatype NativeApplyOptions = NativeApplyOptions(dryRun: Option<bool>, backup: Option<bool>, config: Option<string>)

  function ToNativeApplyOptions(options: Option<ApplyOptions>, stringify: Stringify): Result<Option<NativeApplyOptions>, NativeFailure> {
    match options
    case None => Success(None)
    case Some(o) =>
      match SerialiseConfig(o.config, stringify)
      case Failure(f) => Failure(f)
      case Success(config) => Success(Some(NativeApplyOptions(o.dryRun, o.backup, config)))
  }

  /** `applyResolution`: the plan is checked, then the options are translated and the addon is called. */
  function ApplyResolution(plan: JsValue, options: Option<ApplyOptions>, isJson: string -> bool, stringify: Stringify,
                           native: (string, Option<NativeApplyOptions>) -> Result<string, NativeFailure>): Result<string, AuddError> {
    match ValidateJsonText(plan, "plan", isJson)
    case Fail(e) => Failure(e)
    case Pass =>
      match ToNativeApplyOptions(options, stringify)
      case Failure(f) => Failure(FromNativeError(f))
      case Success(n) => FromNative(native(plan.text, n))
  }

  /**
   * Both resolution calls reach the addon exactly when their input is a
   * parseable string and their config, if any, serialises; a bad input is
   * named `diff` or `plan`, and a throw of `JSON.stringify` is mapped by
   * `fromNativeError`.
   */
  lemma ResolutionCallsCheckInput(text: JsValue, isJson: string -> bool, stringify: Stringify,
                                  resolve: Option<ResolveOptions>, apply: Option<ApplyOptions>,
                                  proposeNative: (string, Option<NativeResolveOptions>) -> Result<string, NativeFailure>,
                                  applyNative: (string, Option<NativeApplyOptions>) -> Result<string, NativeFailure>)
    ensures ValidateJsonText(text, "diff", isJson).Fail? ==>
      ProposeResolution(text, resolve, isJson, stringify, proposeNative) == Failure(ValidateJsonText(text, "diff", isJson).error)
    ensures ValidateJsonText(text, "plan", isJson).Fail? ==>
      ApplyResolution(text, apply, isJson, stringify, applyNative) == Failure(ValidateJsonText(text, "plan", isJson).error)
    ensures text.JsString? && isJson(text.text) && ToNativeResolveOptions(resolve, stringify).Success? ==>
      ProposeResolution(text, resolve, isJson, stringify, proposeNative)
        == FromNative(proposeNative(text.text, ToNativeResolveOptions(resolve, stringify).value))
    ensures text.JsString? && isJson(text.text) && ToNativeResolveOptions(resolve, stringify).Failure? ==>
      ProposeResolution(text, resolve, isJson, stringify, proposeNative)
        == Failure(FromNativeError(ToNativeResolveOptions(resolve, stringify).error))
    ensures text.JsString? && isJson(text.text) && ToNativeApplyOptions(apply, stringify).Success? ==>
      ApplyResolution(text, apply, isJson, stringify, applyNative)
        == FromNative(applyNative(text.text, ToNativeApplyOptions(apply, stringify).value))
    ensures text.JsString? && isJson(text.text) && ToNativeApplyOptions(apply, stringify).Failure? ==>
      ApplyResolution(text, apply, isJson, stringify, applyNative)
        == Failure(FromNativeError(ToNativeApplyOptions(apply, stringify).error))
  {
  }

  /**
   * The resolution options reach the addon copied field by field, the
   * config serialised only when given; absent options stay absent, and a
   * config `JSON.stringify` throws on is the failure.
   */
  lemma ResolutionOptionsTranslated(resolve: Option<ResolveOptions>, apply: Option<ApplyOptions>, stringify: Stringify)
    ensures resolve.None? ==> ToNativeResolveOptions(resolve, stringify) == Success(None)
    ensures resolve.Some? && !Serialises(resolve.value.config, stringify) ==>
      ToNativeResolveOptions(resolve, stringify) == Failure(stringify(resolve.value.config.value).error)
    ensures resolve.Some? && Serialises(resolve.value.config, stringify) ==>
      var o := resolve.value;
      ToNativeResolveOptions(resolve, stringify)
        == Success(Some(NativeResolveOptions(o.strategy, o.preferSource,
                                             if o.config.Some? then Some(stringify(o.config.value).value) else None)))
    ensures apply.None? ==> ToNativeApplyOptions(apply, stringify) == Success(None)
    ensures apply.Some? && !Serialises(apply.value.config, stringify) ==>
      ToNativeApplyOptions(apply, stringify) == Failure(stringify(apply.value.config.value).error)
    ensures apply.Some? && Serialises(apply.value.config, stringify) ==>
      var o := apply.value;
      ToNativeApplyOptions(apply, stringify)
        == Success(Some(NativeApplyOptions(o.dryRun, o.backup, if o.config.Some? then Some(stringify(o.config.value).value) else None)))
  {
  }

  /**
   * `validateIR`: no check of its own; the addon's text is parsed into a
   * `ValidationResult`, and a failure of either step becomes an `AuddError`.
   */
  function ValidateIr(ir: string, native: string -> Result<string, NativeFailure>,
                      parse: string -> Result<ValidationResult, NativeFailure>): Result<ValidationResult, AuddError> {
    match native(ir)
    case Failure(f) => Failure(FromNativeError(f))
    case Success(text) => FromNative(parse(text))
  }

  /** `validateIR` succeeds exactly when both the addon and the parse do; a failure keeps its message. */
  lemma ValidateIrOutcome(ir: string, native: string -> Result<string, NativeFailure>,
                          parse: string -> Result<ValidationResult, NativeFailure>)
    ensures var r := ValidateIr(ir, native, parse);
      (r.Success? <==> native(ir).Success? && parse(native(ir).value).Success?)
      && (r.Success? ==> r.value == parse(native(ir).value).value)
      && (native(ir).Failure? ==> r.error.message == native(ir).error.message && r.error.cause == Some(native(ir).error))
  {
  }
}
