/**
 * The native addon's exported calls: `build_ir` dispatch, the option handling
 * of `compare`, the stub results of `propose_resolution` and
 * `apply_resolution`, and `validate_ir`, which collects the problems of a
 * schema. The schema, file and database crates and `serde_json` are
 * parameters; a failure is the reason text the addon raises to JavaScript.
 */
module NativeApi {
  import opened Outcomes
  import opened Text
  import Types
  import Errors
  import Engine

  /** The part of `SourceSchema` the addon reads. */
  datatype Entity = Entity(entityName: string, fields: seq<string>)

  datatype SourceSchema = SourceSchema(sourceName: string, sourceType: string, entities: seq<Entity>, irVersion: string)

  /** A JSON value as `serde_json::Value` holds it; only arrays and objects are looked into. */
  datatype Json = JArray(items: seq<Json>) | JObject(members: map<string, Json>) | JScalar(text: string)

  // build_ir

  /** The schema loaders the addon calls; each fails with its own error text. */
  datatype Loaders = Loaders(
    loadFile: string -> Result<SourceSchema, string>,
    createConnector: string -> Result<string -> Result<SourceSchema, string>, string>,
    toJson: SourceSchema -> Result<string, string>)

  /** `build_ir`: dispatch on the source type; only `file` and `db` are known, and both need a path. */
  function BuildIr(options: Engine.NativeBuildOptions, loaders: Loaders): Result<string, string> {
    var schema: Result<SourceSchema, string> :=
      if options.sourceType == "file" then
        if options.path.None? then Failure("Missing 'path' for file source")
        else
          match loaders.loadFile(options.path.value)
          case Failure(e) => Failure("File adapter error: " + e)
          case Success(s) => Success(s)
      else if options.sourceType == "db" then
        if options.path.None? then Failure("Missing 'path' (connection string) for db source")
        else
          match loaders.createConnector(options.path.value)
          case Failure(e) => Failure("DB connector error: " + e)
          case Success(load) =>
            match load(options.path.value)
            case Failure(e) => Failure("DB load error: " + e)
            case Success(s) => Success(s)
      else
        Failure(UnsupportedSourceTypeMessage(options.sourceType));
    match schema
    case Failure(e) => Failure(e)
    case Success(s) =>
      match loaders.toJson(s)
      case Failure(e) => Failure("Serialization error: " + e)
      case Success(text) => Success(text)
  }

  function UnsupportedSourceTypeMessage(sourceType: string): string {
    "Unsupported source_type: " + sourceType + ". Use 'file' or 'db'"
  }

  /**
   * Only `file` and `db` sources can succeed, and only with a path; any
   * other type, `memory` included, fails naming it, whatever the loaders do.
   */
  lemma BuildIrDispatch(options: Engine.NativeBuildOptions, loaders: Loaders)
    ensures BuildIr(options, loaders).Success? ==>
      (options.sourceType == "file" || options.sourceType == "db") && options.path.Some?
    ensures options.sourceType != "file" && options.sourceType != "db" ==>
      BuildIr(options, loaders) == Failure(UnsupportedSourceTypeMessage(options.sourceType))
    ensures options.sourceType == "file" && options.path.None? ==>
      BuildIr(options, loaders) == Failure("Missing 'path' for file source")
    ensures options.sourceType == "db" && options.path.None? ==>
      BuildIr(options, loaders) == Failure("Missing 'path' (connection string) for db source")
  {
  }

  /** A file source is the file loader's schema, serialised; a loader failure is reported under its prefix. */
  lemma BuildIrFile(path: string, format: string, config: Option<string>, loaders: Loaders)
    ensures var r := BuildIr(Engine.NativeBuildOptions("file", format, Some(path), config), loaders);
      (loaders.loadFile(path).Failure? ==> r == Failure("File adapter error: " + loaders.loadFile(path).error))
      && (loaders.loadFile(path).Success? && loaders.toJson(loaders.loadFile(path).value).Success? ==>
            r == Success(loaders.toJson(loaders.loadFile(path).value).value))
      && (loaders.loadFile(path).Success? && loaders.toJson(loaders.loadFile(path).value).Failure? ==>
            r == Failure("Serialization error: " + loaders.toJson(loaders.loadFile(path).value).error))
  {
  }

  /**
   * A db source is the connector's schema, serialised; a connector that
   * cannot be created and a load that fails are reported under their own
   * prefixes.
   */
  lemma BuildIrDb(path: string, format: string, config: Option<string>, loaders: Loaders)
    ensures var r := BuildIr(Engine.NativeBuildOptions("db", format, Some(path), config), loaders);
      var connector := loaders.createConnector(path);
      (connector.Failure? ==> r == Failure("DB connector error: " + connector.error))
      && (connector.Success? && connector.value(path).Failure? ==> r == Failure("DB load error: " + connector.value(path).error))
      && (connector.Success? && connector.value(path).Success? && loaders.toJson(connector.value(path).value).Success? ==>
            r == Success(loaders.toJson(connector.value(path).value).value))
      && (connector.Success? && connector.value(path).Success? && loaders.toJson(connector.value(path).value).Failure? ==>
            r == Failure("Serialization error: " + loaders.toJson(connector.value(path).value).error))
  {
  }

  lemma UnsupportedSourceTypeSpelling(sourceType: string)
    ensures UnsupportedSourceTypeMessage(sourceType) == "Unsupported source" + ("_type: " + sourceType + ". Use 'file' or 'db'")
  {
  }

  lemma UnsupportedSourceTypeTailLetters(sourceType: string)
    requires 'I' !in sourceType && 'v' !in sourceType
    ensures var b := "_type: " + sourceType + ". Use 'file' or 'db'"; 'I' !in b && 'v' !in b
  {
    var p, q := "_type: ", ". Use 'file' or 'db'";
    assert 'I' !in p && 'v' !in p;
    assert 'I' !in q && 'v' !in q;
  }

  /** The SDK reports a rejected source type as UNSUPPORTED_SOURCE, unless the type's own text names an invalid input. */
  lemma UnsupportedSourceTypeClassified(sourceType: string)
    requires 'I' !in sourceType && 'v' !in sourceType
    ensures Errors.FromNativeError(Errors.NativeFailure(UnsupportedSourceTypeMessage(sourceType))).code == Types.UnsupportedSource
  {
    UnsupportedSourceTypeSpelling(sourceType);
    UnsupportedSourceTypeTailLetters(sourceType);
    Errors.ClassifyNamingUnsupportedSource("_type: " + sourceType + ". Use 'file' or 'db'");
  }

  /** A `memory` source reaches the addon but is refused there, and the SDK reports UNSUPPORTED_SOURCE. */
  lemma MemorySourceRefused(format: string, config: Option<string>, loaders: Loaders)
    ensures BuildIr(Engine.NativeBuildOptions("memory", format, None, config), loaders).Failure?
    ensures Errors.FromNativeError(Errors.NativeFailure(BuildIr(Engine.NativeBuildOptions("memory", format, None, config), loaders).error)).code
         == Types.UnsupportedSource
  {
    assert 'I' !in "memory" && 'v' !in "memory";
    UnsupportedSourceTypeClassified("memory");
  }

  // compare

  /** The comparison settings, as the builder calls applied to `CompareConfig::default()`. */
  datatype CompareConfig = DefaultConfig | WithThreshold(base: CompareConfig, threshold: real)

  /** The settings `compare` derives from its options: only a given threshold changes the default. */
  function EffectiveConfig(options: Option<Engine.NativeCompareOptions>): CompareConfig {
    if options.Some? && options.value.threshold.Some? then WithThreshold(DefaultConfig, options.value.threshold.value)
    else DefaultConfig
  }

  /**
   * `compare`: both IRs must parse, A before B; `diff` is the comparison
   * crate followed by printing its result, which may fail.
   */
  function Compare(irA: string, irB: string, options: Option<Engine.NativeCompareOptions>,
                   parse: string -> Result<SourceSchema, string>,
                   diff: (SourceSchema, SourceSchema, CompareConfig) -> Result<string, string>): Result<string, string> {
    match parse(irA)
    case Failure(e) => Failure("Invalid IR A: " + e)
    case Success(a) =>
      match parse(irB)
      case Failure(e) => Failure("Invalid IR B: " + e)
      case Success(b) =>
        match diff(a, b, EffectiveConfig(options))
        case Failure(e) => Failure("Serialization error: " + e)
        case Success(text) => Success(text)
  }

  /**
   * The strategy, the ignored fields and the config text have no effect;
   * the threshold is the only option that reaches the comparison.
   */
  lemma CompareOptionsIgnored(o: Engine.NativeCompareOptions, strategy: Option<string>, ignoreFields: Option<seq<string>>, config: Option<string>)
    ensures EffectiveConfig(Some(o)) == EffectiveConfig(Some(Engine.NativeCompareOptions(o.threshold, strategy, ignoreFields, config)))
    ensures EffectiveConfig(Some(o)) == DefaultConfig <==> o.threshold.None?
    ensures o.threshold.Some? ==> EffectiveConfig(Some(o)) == WithThreshold(DefaultConfig, o.threshold.value)
    ensures EffectiveConfig(None) == DefaultConfig
  {
  }

  /**
   * IR A is parsed first: when both fail the reason names A; the result is
   * the printed comparison of the two parsed schemas, and a printing failure
   * is reported as a serialization error.
   */
  lemma CompareParsesAFirst(irA: string, irB: string, options: Option<Engine.NativeCompareOptions>,
                            parse: string -> Result<SourceSchema, string>,
                            diff: (SourceSchema, SourceSchema, CompareConfig) -> Result<string, string>)
    ensures var r := Compare(irA, irB, options, parse, diff);
      (parse(irA).Failure? ==> r == Failure("Invalid IR A: " + parse(irA).error))
      && (parse(irA).Success? && parse(irB).Failure? ==> r == Failure("Invalid IR B: " + parse(irB).error))
      && (r.Success? <==> parse(irA).Success? && parse(irB).Success?
                          && diff(parse(irA).value, parse(irB).value, EffectiveConfig(options)).Success?)
      && (r.Success? ==> r.value == diff(parse(irA).value, parse(irB).value, EffectiveConfig(options)).value)
      && (parse(irA).Success? && parse(irB).Success? && diff(parse(irA).value, parse(irB).value, EffectiveConfig(options)).Failure? ==>
            r == Failure("Serialization error: " + diff(parse(irA).value, parse(irB).value, EffectiveConfig(options)).error))
  {
  }

  // propose_resolution

  /** The plan `propose_resolution` returns. */
  datatype ResolutionPlan = ResolutionPlan(version: string, actions: seq<Json>, note: string, strategy: string, comparisonReceived: bool)

  /** `propose_resolution`: the diff must parse; the plan is a fixed stub. */
  function ProposeResolution(diffJson: string, options: Option<Engine.NativeResolveOptions>, parse: string -> Result<Json, string>): Result<ResolutionPlan, string> {
    match parse(diffJson)
    case Failure(e) => Failure("Invalid diff: " + e)
    case Success(_) =>
      var strategy := if options.Some? && options.value.strategy.Some? then options.value.strategy.value else "balanced";
      Success(ResolutionPlan("1.0.0", [], "Resolution suggestions not fully implemented yet", strategy, true))
  }

  /** Every plan proposes no action; its strategy is the one asked for, or `balanced`. */
  lemma ProposeResolutionStub(diffJson: string, options: Option<Engine.NativeResolveOptions>, parse: string -> Result<Json, string>)
    ensures var r := ProposeResolution(diffJson, options, parse);
      (r.Success? <==> parse(diffJson).Success?)
      && (r.Failure? ==> r.error == "Invalid diff: " + parse(diffJson).error)
      && (r.Success? ==> r.value.actions == [] && r.value.version == "1.0.0" && r.value.comparisonReceived)
      && (r.Success? && (options.None? || options.value.strategy.None?) ==> r.value.strategy == "balanced")
      && (r.Success? && options.Some? && options.value.strategy.Some? ==> r.value.strategy == options.value.strategy.value)
  {
  }

  // apply_resolution

  /** `plan.get("actions").and_then(|v| v.as_array())`, or no actions. */
  function Actions(plan: Json): seq<Json> {
    if plan.JObject? && "actions" in plan.members && plan.members["actions"].JArray? then plan.members["actions"].items
    else []
  }

  /** The keys of the result object; an absent key is `None`. */
  datatype ApplyReport = ApplyReport(
    dryRun: bool,
    applied: bool,
    suggestionsCount: Option<nat>,
    suggestions: Option<seq<Json>>,
    results: seq<Json>,
    wouldApply: Option<nat>,
    highConfidenceDecisions: Option<nat>,
    totalSuggestions: Option<nat>)

  /** `apply_resolution`: the plan must parse; nothing is applied, the actions are only counted. */
  function ApplyResolution(planJson: string, options: Option<Engine.NativeApplyOptions>, parse: string -> Result<Json, string>): Result<ApplyReport, string> {
    match parse(planJson)
    case Failure(e) => Failure("Invalid plan JSON: " + e)
    case Success(plan) =>
      var suggestions := Actions(plan);
      var dryRun := if options.Some? then options.value.dryRun.GetOr(false) else false;
      if dryRun then
        Success(ApplyReport(true, false, Some(|suggestions|), Some(suggestions), [], Some(0), None, None))
      else
        Success(ApplyReport(false, true, None, None, [], None, Some(0), Some(|suggestions|)))
  }

  /**
   * Missing or non-array actions count as none and `dry_run` defaults to
   * false. A dry run reports `applied: false`, the actions and their number,
   * and nothing to apply; otherwise `applied: true` and the number of actions.
   * No result is ever produced.
   */
  lemma ApplyResolutionShape(planJson: string, options: Option<Engine.NativeApplyOptions>, parse: string -> Result<Json, string>)
    ensures var r := ApplyResolution(planJson, options, parse);
      (r.Success? <==> parse(planJson).Success?)
      && (r.Failure? ==> r.error == "Invalid plan JSON: " + parse(planJson).error)
      && (r.Success? ==>
            var n := |Actions(parse(planJson).value)|;
            r.value.results == []
            && r.value.applied == !r.value.dryRun
            && (r.value.dryRun <==> options.Some? && options.value.dryRun == Some(true))
            && (r.value.dryRun ==> r.value.suggestionsCount == Some(n) && r.value.wouldApply == Some(0)
                                   && r.value.suggestions == Some(Actions(parse(planJson).value)))
            && (!r.value.dryRun ==> r.value.totalSuggestions == Some(n) && r.value.highConfidenceDecisions == Some(0)))
  {
  }

  /** A plan whose `actions` is missing or not an array counts no actions. */
  lemma ActionsDefault(plan: Json)
    ensures !plan.JObject? ==> Actions(plan) == []
    ensures plan.JObject? && ("actions" !in plan.members || !plan.members["actions"].JArray?) ==> Actions(plan) == []
    ensures plan.JObject? && "actions" in plan.members && plan.members["actions"].JArray? ==>
      |Actions(plan)| == |plan.members["actions"].items|
  {
  }

  // validate_ir

  /** The `schema` object of a validation report. */
  datatype SchemaSummary = SchemaSummary(sourceName: string, sourceType: string, entitiesCount: nat, irVersion: string)

  /** The validation report; `schema` is absent when the text does not parse. */
  datatype IrReport = IrReport(ok: bool, errors: seq<string>, schema: Option<SchemaSummary>)

  function EntityError(entity: Entity): seq<string> {
    if |entity.fields| == 0 then ["Entity '" + entity.entityName + "' has no fields"] else []
  }

  /** One message per field-less entity, in entity order. */
  function FieldlessErrors(entities: seq<Entity>): seq<string> {
    if entities == [] then [] else FieldlessErrors(entities[..|entities| - 1]) + EntityError(entities[|entities| - 1])
  }

  /** The problems `validate_ir` reports for a parsed schema. */
  function SchemaErrors(schema: SourceSchema): seq<string> {
    (if |schema.entities| == 0 then ["Schema has no entities"] else []) + FieldlessErrors(schema.entities)
  }

  function Summary(schema: SourceSchema): SchemaSummary {
    SchemaSummary(schema.sourceName, schema.sourceType, |schema.entities|, schema.irVersion)
  }

  /** A schema is sound when it has entities and each has a field. */
  predicate SoundSchema(schema: SourceSchema) {
    |schema.entities| > 0 && forall k :: 0 <= k < |schema.entities| ==> |schema.entities[k].fields| > 0
  }

  /** The report `validate_ir` gives for a text. */
  function Report(irJson: string, parse: string -> Result<SourceSchema, string>): IrReport {
    match parse(irJson)
    case Failure(e) => IrReport(false, ["Invalid SourceSchema JSON: " + e], None)
    case Success(schema) => IrReport(SchemaErrors(schema) == [], SchemaErrors(schema), Some(Summary(schema)))
  }

  /**
   * `validate_ir`. It never fails: text that does not parse gives a report
   * with one error. Otherwise the errors are collected entity by entity.
   */
  method ValidateIr(irJson: string, parse: string -> Result<SourceSchema, string>) returns (report: IrReport)
    ensures report == Report(irJson, parse)
    ensures report.ok <==> report.errors == []
    ensures parse(irJson).Failure? ==>
      report == IrReport(false, ["Invalid SourceSchema JSON: " + parse(irJson).error], None)
    ensures parse(irJson).Success? ==>
      report.errors == SchemaErrors(parse(irJson).value)
      && report.schema == Some(SchemaSummary(parse(irJson).value.sourceName, parse(irJson).value.sourceType,
                                             |parse(irJson).value.entities|, parse(irJson).value.irVersion))
  {
    match parse(irJson)
    case Failure(e) =>
      report := IrReport(false, ["Invalid SourceSchema JSON: " + e], None);
    case Success(schema) =>
      var errors: seq<string> := [];
      if |schema.entities| == 0 {
        errors := errors + ["Schema has no entities"];
      }
      ghost var head := errors;
      for i := 0 to |schema.entities|
        invariant errors == head + FieldlessErrors(schema.entities[..i])
      {
        var entity := schema.entities[i];
        assert schema.entities[..i + 1][..i] == schema.entities[..i];
        if |entity.fields| == 0 {
          errors := errors + ["Entity '" + entity.entityName + "' has no fields"];
        }
      }
      assert schema.entities[..|schema.entities|] == schema.entities;
      report := IrReport(errors == [], errors, Some(Summary(schema)));
  }

  /** Filtering entity by entity distributes over concatenation, so the messages keep entity order. */
  lemma {:induction false} FieldlessErrorsAppend(xs: seq<Entity>, ys: seq<Entity>)
    ensures FieldlessErrors(xs + ys) == FieldlessErrors(xs) + FieldlessErrors(ys)
    decreases |ys|
  {
    if ys == [] {
      assert xs + ys == xs;
    } else {
      var init := ys[..|ys| - 1];
      assert (xs + ys)[..|xs + ys| - 1] == xs + init;
      assert (xs + ys)[|xs + ys| - 1] == ys[|ys| - 1];
      FieldlessErrorsAppend(xs, init);
    }
  }

  /** There is exactly one message per field-less entity. */
  lemma {:induction false} FieldlessErrorsCount(entities: seq<Entity>)
    ensures |FieldlessErrors(entities)| == |set k | 0 <= k < |entities| && |entities[k].fields| == 0|
  {
    if entities != [] {
      var n := |entities| - 1;
      var init := entities[..n];
      FieldlessErrorsCount(init);
      var before := set k | 0 <= k < n && |init[k].fields| == 0;
      var all := set k | 0 <= k < |entities| && |entities[k].fields| == 0;
      if |entities[n].fields| == 0 {
        assert all == before + {n};
      } else {
        assert all == before;
      }
    }
  }

  /** A field-less entity is reported by name. */
  lemma {:induction false} FieldlessEntityReported(entities: seq<Entity>, k: nat)
    requires k < |entities| && |entities[k].fields| == 0
    ensures "Entity '" + entities[k].entityName + "' has no fields" in FieldlessErrors(entities)
  {
    var n := |entities| - 1;
    if k < n {
      FieldlessEntityReported(entities[..n], k);
    }
  }

  /** The report is clean exactly for a sound schema. */
  lemma {:induction false} SchemaErrorsEmptyIff(schema: SourceSchema)
    ensures SchemaErrors(schema) == [] <==> SoundSchema(schema)
  {
    var es := schema.entities;
    if SoundSchema(schema) {
      FieldlessErrorsCount(es);
      assert (set k | 0 <= k < |es| && |es[k].fields| == 0) == {};
    } else if |es| > 0 {
      var k :| 0 <= k < |es| && |es[k].fields| == 0;
      FieldlessEntityReported(es, k);
    }
  }

  /** An empty schema gets exactly one error, and it comes first. */
  lemma EmptySchemaErrors(schema: SourceSchema)
    requires |schema.entities| == 0
    ensures SchemaErrors(schema) == ["Schema has no entities"]
  {
  }

  /**
   * The SDK's `validateIR` over this addon never fails, provided the SDK
   * reads back the `ok` and `errors` keys the addon prints: the caller gets
   * the addon's errors, and `ok` exactly when there are none. The printed
   * `schema` key has no field in `ValidationResult`, so the SDK's result
   * here drops it, although at run time `JSON.parse` keeps it on the object.
   */
  lemma SdkValidateIrOverAddon(ir: string, parse: string -> Result<SourceSchema, string>, render: IrReport -> string,
                               sdkParse: string -> Result<Types.ValidationResult, Errors.NativeFailure>)
    requires forall rep :: sdkParse(render(rep)) == Success(Types.ValidationResult(rep.ok, rep.errors))
    ensures var r := Engine.ValidateIr(ir, s => Success(render(Report(s, parse))), sdkParse);
      r.Success?
      && (r.value.ok <==> r.value.errors == [])
      && (parse(ir).Failure? ==> r.value == Types.ValidationResult(false, ["Invalid SourceSchema JSON: " + parse(ir).error]))
      && (parse(ir).Success? ==> r.value.errors == SchemaErrors(parse(ir).value)
                                 && (r.value.ok <==> SoundSchema(parse(ir).value)))
  {
    var rep := Report(ir, parse);
    var native := s => Success(render(Report(s, parse)));
    assert native(ir) == Success(render(rep));
    assert sdkParse(render(rep)) == Success(Types.ValidationResult(rep.ok, rep.errors));
    assert Engine.ValidateIr(ir, native, sdkParse) == Success(Types.ValidationResult(rep.ok, rep.errors));
    if parse(ir).Success? {
      SchemaErrorsEmptyIff(parse(ir).value);
    }
  }
}
