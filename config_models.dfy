/**
 * The converter's configuration records and `J2JConfig.from_dict`, which
 * builds them from a parsed JSON dict, filling every missing section or key
 * with its default and raising `ConfigurationError` when the baseline path
 * is missing or the trace-log verbosity is unknown. The filesystem probes
 * of the baseline, templates and schema-reference sections are not modelled.
 */
module ConfigModels {
  import opened Wrappers
  import opened Strings
  import opened JsonValues

  datatype ValidationConfig = ValidationConfig(
    enabled: Json,
    checkBaselineExists: Json,
    checkTemplatesExist: Json,
    checkSchemaReferencesExist: Json,
    strictMode: Json)

  datatype OutputConfig = OutputConfig(defaultPrefix: Json, includeTimestamp: Json)

  datatype TraceLogConfig = TraceLogConfig(enabled: Json, verbosity: string, outputDirectory: Json)

  datatype J2JConfig = J2JConfig(
    baselinePath: string,
    templatesDirectory: string,
    schemaReferencesDirectory: string,
    validation: ValidationConfig,
    output: OutputConfig,
    converterVersion: Json,
    traceLog: TraceLogConfig,
    version: Json)

  const ValidLevels: seq<string> := ["minimal", "normal", "detailed", "debug"]

  /** `TraceLogConfig.validate`: the verbosity must name a level, in any letter case. */
  function ValidateTraceLog(c: TraceLogConfig): (r: Result<TraceLogConfig>)
    ensures r.Ok? <==> Lower(c.verbosity) in ValidLevels
    ensures r.Ok? ==> r.value == c
  {
    if Lower(c.verbosity) in ValidLevels then Ok(c)
    else Err("Invalid verbosity level: " + c.verbosity)
  }

  /** A value passed to `Path(...)`, which accepts only strings. */
  function PathText(j: Json): Result<string> {
    if j.Str? then Ok(j.s) else Err("TypeError: expected a path string")
  }

  const NotADict := "AttributeError: section is not a dict"

  /** `config_dict.get(name, {})`. */
  function Section(d: Json, name: string): Json {
    GetOr(d, name, Obj(map[]))
  }

  /** `J2JConfig.from_dict`. */
  function FromDict(d: Json): (r: Result<J2JConfig>)
    requires d.Obj?
    ensures !Has(d, "baseline") ==> r.Err?
    ensures Has(d, "baseline") && d.fields["baseline"].Obj? && !Has(d.fields["baseline"], "path") ==> r.Err?
    ensures r.Ok? ==> Has(d, "baseline") && Get(d.fields["baseline"], "path") == Str(r.value.baselinePath)
    ensures r.Ok? ==> Lower(r.value.traceLog.verbosity) in ValidLevels
    ensures r.Ok? ==> r.value.version == GetOr(d, "version", Str("v327"))
    ensures r.Ok? ==> Str(r.value.templatesDirectory) == GetOr(Section(d, "templates"), "directory", Str("j2j_templates"))
    ensures r.Ok? ==> r.value.traceLog.enabled == GetOr(Section(d, "trace_log"), "enabled", Bool(false))
    ensures r.Ok? ==> Str(r.value.schemaReferencesDirectory) == GetOr(Section(d, "schema_references"), "directory", Str("schema_references"))
    ensures r.Ok? ==>
      var v := Section(d, "validation");
      r.value.validation == ValidationConfig(
        GetOr(v, "enabled", Bool(true)),
        GetOr(v, "check_baseline_exists", Bool(true)),
        GetOr(v, "check_templates_exist", Bool(true)),
        GetOr(v, "check_schema_references_exist", Bool(true)),
        GetOr(v, "strict_mode", Bool(true)))
    ensures r.Ok? ==>
      r.value.output == OutputConfig(
        GetOr(Section(d, "output"), "default_prefix", Str("output_v327_config_based")),
        GetOr(Section(d, "output"), "include_timestamp", Bool(false)))
    ensures r.Ok? ==> r.value.converterVersion == GetOr(Section(d, "converter"), "version", Str("327"))
    ensures r.Ok? ==> Str(r.value.traceLog.verbosity) == GetOr(Section(d, "trace_log"), "verbosity", Str("normal"))
    ensures r.Ok? ==> r.value.traceLog.outputDirectory == GetOr(Section(d, "trace_log"), "output_directory", Str("trace_logs"))
  {
    if "baseline" !in d.fields then Err("Configuration missing required 'baseline' section")
    else
      var baselineSection := d.fields["baseline"];
      if !baselineSection.Obj? then Err("TypeError: baseline section is not a dict")
      else if "path" !in baselineSection.fields then Err("Configuration missing required 'baseline.path'")
      else
        match PathText(baselineSection.fields["path"])
        case Err(e) => Err(e)
        case Ok(baselinePath) =>
        var templates := Section(d, "templates");
        if !templates.Obj? then Err(NotADict)
        else
        match PathText(GetOr(templates, "directory", Str("j2j_templates")))
        case Err(e) => Err(e)
        case Ok(templatesDir) =>
        var schemaRefs := Section(d, "schema_references");
        if !schemaRefs.Obj? then Err(NotADict)
        else
        match PathText(GetOr(schemaRefs, "directory", Str("schema_references")))
        case Err(e) => Err(e)
        case Ok(schemaRefsDir) =>
        var validation := Section(d, "validation");
        var output := Section(d, "output");
        var converter := Section(d, "converter");
        var traceLog := Section(d, "trace_log");
        if !(validation.Obj? && output.Obj? && converter.Obj? && traceLog.Obj?) then Err(NotADict)
        else
        var verbosity := GetOr(traceLog, "verbosity", Str("normal"));
        if !verbosity.Str? then Err("AttributeError: verbosity is not a string")
        else
        var trace := TraceLogConfig(
          GetOr(traceLog, "enabled", Bool(false)), verbosity.s, GetOr(traceLog, "output_directory", Str("trace_logs")));
        match ValidateTraceLog(trace)
        case Err(e) => Err(e)
        case Ok(t) =>
          Ok(J2JConfig(
            baselinePath,
            templatesDir,
            schemaRefsDir,
            ValidationConfig(
              GetOr(validation, "enabled", Bool(true)),
              GetOr(validation, "check_baseline_exists", Bool(true)),
              GetOr(validation, "check_templates_exist", Bool(true)),
              GetOr(validation, "check_schema_references_exist", Bool(true)),
              GetOr(validation, "strict_mode", Bool(true))),
            OutputConfig(
              GetOr(output, "default_prefix", Str("output_v327_config_based")),
              GetOr(output, "include_timestamp", Bool(false))),
            GetOr(converter, "version", Str("327")),
            t,
            GetOr(d, "version", Str("v327"))))
  }

  /** The defaults every missing section takes. */
  lemma MinimalConfigDefaults(path: string)
    ensures var d := Obj(map["baseline" := Obj(map["path" := Str(path)])]);
      FromDict(d) == Ok(J2JConfig(
        path, "j2j_templates", "schema_references",
        ValidationConfig(Bool(true), Bool(true), Bool(true), Bool(true), Bool(true)),
        OutputConfig(Str("output_v327_config_based"), Bool(false)),
        Str("327"),
        TraceLogConfig(Bool(false), "normal", Str("trace_logs")),
        Str("v327")))
  {
    var d := Obj(map["baseline" := Obj(map["path" := Str(path)])]);
    assert !Has(d, "trace_log") && !Has(d, "templates") && !Has(d, "version");
    assert Lower("normal") == "normal";
  }

  /** `from_dict` accepts a verbosity exactly when `validate` does. */
  lemma VerbosityChecked(path: string, level: string)
    ensures var d := Obj(map["baseline" := Obj(map["path" := Str(path)]), "trace_log" := Obj(map["verbosity" := Str(level)])]);
      FromDict(d).Ok? <==> Lower(level) in ValidLevels
  {
    var d := Obj(map["baseline" := Obj(map["path" := Str(path)]), "trace_log" := Obj(map["verbosity" := Str(level)])]);
    assert !Has(d, "templates") && !Has(d, "schema_references");
    assert GetOr(Section(d, "trace_log"), "verbosity", Str("normal")) == Str(level);
  }
}
