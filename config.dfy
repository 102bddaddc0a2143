/**
 * `seraph`'s configuration: the typed scoring section with its derived
 * properties, and the loader that builds every section from environment
 * variables, the TOML file and the dataclass defaults, in that priority.
 */
module Config {
  import opened Outcomes
  import opened Text
  import opened Enums

  /** The five dimension weights, keyed as in the dimension-weights dict. */
  datatype DimensionWeights = DimensionWeights(
    mutation: real, staticAnalysis: real, baseline: real, sentinelRisk: real, coChange: real)
  {
    function Total(): real
    {
      mutation + staticAnalysis + baseline + sentinelRisk + coChange
    }
  }

  /** Severity weights, keyed by severity. */
  datatype SeverityWeights = SeverityWeights(
    critical: real, high: real, medium: real, low: real, info: real)
  {
    function Of(s: Severity): real
    {
      match s
      case Critical => critical
      case High => high
      case Medium => medium
      case Low => low
      case Info => info
    }
  }

  datatype ScoringConfig = ScoringConfig(
    mutationWeight: real,
    staticWeight: real,
    baselineWeight: real,
    sentinelRiskWeight: real,
    coChangeWeight: real,
    gradeA: real,
    gradeB: real,
    gradeC: real,
    gradeD: real,
    baselineDeductionPerFlaky: real,
    riskDeductionPerPitfall: real,
    riskDeductionPerMissingCoChange: real,
    riskHotFileChurnDivisor: real,
    riskHotFileMaxDeduction: real,
    staticIssueThreshold: real,
    severityCritical: real,
    severityHigh: real,
    severityMedium: real,
    severityLow: real,
    severityInfo: real)
  {
    function Weights(): (w: DimensionWeights)
      ensures w.mutation == mutationWeight && w.staticAnalysis == staticWeight
      ensures w.baseline == baselineWeight && w.sentinelRisk == sentinelRiskWeight
      ensures w.coChange == coChangeWeight
    {
      DimensionWeights(mutationWeight, staticWeight, baselineWeight, sentinelRiskWeight, coChangeWeight)
    }

    function Severities(): (s: SeverityWeights)
      ensures s.Of(Critical) == severityCritical && s.Of(High) == severityHigh
      ensures s.Of(Medium) == severityMedium && s.Of(Low) == severityLow
      ensures s.Of(Info) == severityInfo
    {
      SeverityWeights(severityCritical, severityHigh, severityMedium, severityLow, severityInfo)
    }

    /** `grade_thresholds`: (grade_a, grade_b, grade_c, grade_d), in that order. */
    function GradeThresholds(): (t: Thresholds)
      ensures t.a == gradeA && t.b == gradeB && t.c == gradeC && t.d == gradeD
    {
      Thresholds(gradeA, gradeB, gradeC, gradeD)
    }
  }

  const DefaultScoring := ScoringConfig(
    0.30, 0.20, 0.15, 0.20, 0.15,
    90.0, 75.0, 60.0, 40.0,
    10.0, 5.0, 3.0, 5.0, 10.0, 10.0,
    10.0, 5.0, 2.0, 1.0, 0.0)

  /** The default weights sum to 1, and the default thresholds are the grade defaults. */
  lemma DefaultScoringConsistent()
    ensures DefaultScoring.Weights().Total() == 1.0
    ensures DefaultScoring.GradeThresholds() == DefaultThresholds
  {
  }

  // ----- loading -----

  /** A section value: what `_coerce` produces or what TOML holds. */
  datatype Value = IntV(i: int) | FloatV(r: real) | BoolV(b: bool) | StrV(s: string) | OtherV

  /** A dataclass field: its name, its annotation (a string) and its default. */
  datatype FieldSpec = FieldSpec(name: string, typeHint: string, default: Value)

  const TimeoutFields: seq<FieldSpec> := [
    FieldSpec("mutation_per_file", "int", IntV(120)),
    FieldSpec("static_analysis", "int", IntV(60)),
    FieldSpec("baseline_per_run", "int", IntV(120)),
    FieldSpec("diff", "int", IntV(30)),
    FieldSpec("mutmut_results", "int", IntV(30))]

  const ScoringFields: seq<FieldSpec> := [
    FieldSpec("mutation_weight", "float", FloatV(0.30)),
    FieldSpec("static_weight", "float", FloatV(0.20)),
    FieldSpec("baseline_weight", "float", FloatV(0.15)),
    FieldSpec("sentinel_risk_weight", "float", FloatV(0.20)),
    FieldSpec("co_change_weight", "float", FloatV(0.15)),
    FieldSpec("grade_a", "float", FloatV(90.0)),
    FieldSpec("grade_b", "float", FloatV(75.0)),
    FieldSpec("grade_c", "float", FloatV(60.0)),
    FieldSpec("grade_d", "float", FloatV(40.0)),
    FieldSpec("baseline_deduction_per_flaky", "float", FloatV(10.0)),
    FieldSpec("risk_deduction_per_pitfall", "float", FloatV(5.0)),
    FieldSpec("risk_deduction_per_missing_co_change", "float", FloatV(3.0)),
    FieldSpec("risk_hot_file_churn_divisor", "float", FloatV(5.0)),
    FieldSpec("risk_hot_file_max_deduction", "float", FloatV(10.0)),
    FieldSpec("static_issue_threshold", "float", FloatV(10.0)),
    FieldSpec("severity_critical", "int", IntV(10)),
    FieldSpec("severity_high", "int", IntV(5)),
    FieldSpec("severity_medium", "int", IntV(2)),
    FieldSpec("severity_low", "int", IntV(1)),
    FieldSpec("severity_info", "int", IntV(0))]

  const PipelineFields: seq<FieldSpec> := [
    FieldSpec("baseline_runs", "int", IntV(3)),
    FieldSpec("max_output_chars", "int", IntV(16000)),
    FieldSpec("db_dir", "str", StrV(".seraph")),
    FieldSpec("db_name", "str", StrV("seraph.db"))]

  const RetentionFields: seq<FieldSpec> := [
    FieldSpec("retention_days", "int", IntV(90)),
    FieldSpec("auto_prune", "bool", BoolV(false))]

  const LogFields: seq<FieldSpec> := [
    FieldSpec("level", "str", StrV("WARNING")),
    FieldSpec("format", "str", StrV("%(asctime)s [%(levelname)s] %(name)s: %(message)s")),
    FieldSpec("file", "str", StrV(""))]

  /**
   * `_coerce(value, type_hint)`: booleans from "true"/"1"/"yes" in any
   * case, integers and floats parsed (None where Python raises ValueError),
   * anything else unchanged.
   */
  function Coerce(value: string, typeHint: string): (r: Option<Value>)
    ensures typeHint == "bool" ==> r == Some(BoolV(Lower(value) in ["true", "1", "yes"]))
    ensures typeHint == "int" ==> (r.Some? <==> ParseInt(value).Some?)
    ensures typeHint == "int" && r.Some? ==> r.value == IntV(ParseInt(value).value)
    ensures typeHint == "float" ==> (r.Some? <==> ParseDecimal(value).Some?)
    ensures typeHint == "float" && r.Some? ==> r.value == FloatV(ParseDecimal(value).value)
    ensures typeHint !in ["bool", "int", "float"] ==> r == Some(StrV(value))
  {
    if typeHint == "bool" then Some(BoolV(Lower(value) in ["true", "1", "yes"]))
    else if typeHint == "int" then
      match ParseInt(value)
      case None => None
      case Some(i) => Some(IntV(i))
    else if typeHint == "float" then
      match ParseDecimal(value)
      case None => None
      case Some(x) => Some(FloatV(x))
    else Some(StrV(value))
  }

  /** An integer rendered in decimal coerces back to that integer. */
  lemma CoerceIntRoundTrip(i: int)
    ensures Coerce(IntToString(i), "int") == Some(IntV(i))
  {
    ParseIntToString(i);
  }

  /** Python's underscore grouping and exponents are accepted. */
  lemma CoercePythonNumerals()
    ensures Coerce("1_000", "int") == Some(IntV(1000))
    ensures Coerce("1e3", "float") == Some(FloatV(1000.0))
    ensures Coerce("1E-2", "float") == Some(FloatV(0.01))
    ensures Coerce("1_0.5", "float") == Some(FloatV(10.5))
  {
    ParseIntGrouped();
    ParseDecimalExponent();
    ParseDecimalNegativeExponent();
    ParseDecimalGrouped();
  }

  /** Only the three spellings are true; every other string, "false" included, is false. */
  lemma CoerceBoolSpellings()
    ensures Coerce("TRUE", "bool") == Some(BoolV(true))
    ensures Coerce("Yes", "bool") == Some(BoolV(true))
    ensures Coerce("1", "bool") == Some(BoolV(true))
    ensures Coerce("false", "bool") == Some(BoolV(false))
    ensures Coerce("on", "bool") == Some(BoolV(false))
  {
    assert Lower("TRUE") == "true";
    assert Lower("Yes") == "yes";
    assert Lower("1") == "1";
    assert Lower("false") == "false";
    assert Lower("on") == "on";
  }

  /** `f"{prefix}_{name}".upper()`. */
  function EnvKey(prefix: string, name: string): (k: string)
    ensures |k| == |prefix| + 1 + |name|
    ensures k[|prefix|] == '_'
    ensures forall i :: 0 <= i < |prefix| ==> k[i] == UpperChar(prefix[i])
    ensures forall i :: 0 <= i < |name| ==> k[|prefix| + 1 + i] == UpperChar(name[i])
  {
    var s := prefix + "_" + name;
    assert forall i :: 0 <= i < |name| ==> s[|prefix| + 1 + i] == name[i];
    Upper(s)
  }

  /**
   * One field's value: the coerced environment variable when it is set,
   * else the TOML value, else the default; None when coercion raises.
   */
  function FieldValue(f: FieldSpec, toml: map<string, Value>, prefix: string,
                      env: map<string, string>): (r: Option<Value>)
    ensures EnvKey(prefix, f.name) in env ==> r == Coerce(env[EnvKey(prefix, f.name)], f.typeHint)
    ensures EnvKey(prefix, f.name) !in env && f.name in toml ==> r == Some(toml[f.name])
    ensures EnvKey(prefix, f.name) !in env && f.name !in toml ==> r == Some(f.default)
  {
    var key := EnvKey(prefix, f.name);
    if key in env then Coerce(env[key], f.typeHint)
    else if f.name in toml then Some(toml[f.name])
    else Some(f.default)
  }

  /**
   * A built section: the value of each field, in the dataclass's field
   * order (the keyword arguments `cls(**kwargs)` receives).
   */
  type Section = seq<Value>

  /** The section with every field at its default. */
  function Defaults(fields: seq<FieldSpec>): (s: Section)
    ensures |s| == |fields|
    ensures forall i :: 0 <= i < |fields| ==> s[i] == fields[i].default
  {
    seq(|fields|, i requires 0 <= i < |fields| => fields[i].default)
  }

  predicate Built(s: Section, fields: seq<FieldSpec>, toml: map<string, Value>, prefix: string,
                  env: map<string, string>)
  {
    |s| == |fields| && forall i :: 0 <= i < |fields| ==> Some(s[i]) == FieldValue(fields[i], toml, prefix, env)
  }

  /** The section `_build_section` yields: None when some field's coercion raises. */
  function SectionOf(fields: seq<FieldSpec>, toml: map<string, Value>, prefix: string,
                     env: map<string, string>): (r: Option<Section>)
    ensures r.Some? <==> forall i :: 0 <= i < |fields| ==> FieldValue(fields[i], toml, prefix, env).Some?
    ensures r.Some? ==> Built(r.value, fields, toml, prefix, env)
  {
    if forall i :: 0 <= i < |fields| ==> FieldValue(fields[i], toml, prefix, env).Some? then
      Some(seq(|fields|, i requires 0 <= i < |fields| => FieldValue(fields[i], toml, prefix, env).value))
    else None
  }

  /** `_build_section(cls, toml_dict, env_prefix)`, field by field. */
  method BuildSection(fields: seq<FieldSpec>, toml: map<string, Value>, prefix: string,
                      env: map<string, string>) returns (r: Option<Section>)
    ensures r == SectionOf(fields, toml, prefix, env)
  {
    var kwargs: Section := [];
    var k := 0;
    while k < |fields|
      invariant 0 <= k <= |fields| && |kwargs| == k
      invariant forall i :: 0 <= i < k ==> Some(kwargs[i]) == FieldValue(fields[i], toml, prefix, env)
    {
      var f := fields[k];
      var key := EnvKey(prefix, f.name);
      if key in env {
        var v := Coerce(env[key], f.typeHint);
        if v.None? {
          assert FieldValue(fields[k], toml, prefix, env).None?;
          return None;
        }
        kwargs := kwargs + [v.value];
      } else if f.name in toml {
        kwargs := kwargs + [toml[f.name]];
      } else {
        kwargs := kwargs + [f.default];
      }
      k := k + 1;
    }
    assert kwargs == SectionOf(fields, toml, prefix, env).value;
    return Some(kwargs);
  }

  /** No environment variable overrides a field of the section. */
  predicate NoOverrides(fields: seq<FieldSpec>, prefix: string, env: map<string, string>)
  {
    forall i :: 0 <= i < |fields| ==> EnvKey(prefix, fields[i].name) !in env
  }

  /** With no TOML values and no environment overrides a section is all defaults. */
  lemma UntouchedSectionIsDefaults(fields: seq<FieldSpec>, prefix: string, env: map<string, string>)
    requires NoOverrides(fields, prefix, env)
    ensures SectionOf(fields, map[], prefix, env) == Some(Defaults(fields))
  {
    forall i | 0 <= i < |fields|
      ensures FieldValue(fields[i], map[], prefix, env) == Some(fields[i].default)
    {
      assert EnvKey(prefix, fields[i].name) !in env;
    }
    assert SectionOf(fields, map[], prefix, env).value == Defaults(fields);
  }

  /** The loaded configuration, one section per dataclass. */
  datatype SeraphConfig = SeraphConfig(
    timeouts: Section, scoring: Section, pipeline: Section, retention: Section, logging: Section)

  /** `SeraphConfig()`: every section at its defaults. */
  function DefaultConfig(): SeraphConfig
  {
    SeraphConfig(Defaults(TimeoutFields), Defaults(ScoringFields), Defaults(PipelineFields),
                 Defaults(RetentionFields), Defaults(LogFields))
  }

  /** `toml_data.get(name, {})`. */
  function TomlSection(toml: map<string, map<string, Value>>, name: string): map<string, Value>
  {
    if name in toml then toml[name] else map[]
  }

  /** The TOML document `load` reads: nothing when the file does not exist. */
  function TomlRead(fileExists: bool, tomlFile: map<string, map<string, Value>>): map<string, map<string, Value>>
  {
    if fileExists then tomlFile else map[]
  }

  /** What `load` yields: every section built from its TOML table and prefix, or None. */
  function LoadOf(toml: map<string, map<string, Value>>, env: map<string, string>): (r: Option<SeraphConfig>)
    ensures r.Some? ==> Built(r.value.scoring, ScoringFields, TomlSection(toml, "scoring"), "SERAPH_SCORING", env)
    ensures r.Some? ==> Built(r.value.timeouts, TimeoutFields, TomlSection(toml, "timeouts"), "SERAPH_TIMEOUT", env)
    ensures r.Some? ==> Built(r.value.pipeline, PipelineFields, TomlSection(toml, "pipeline"), "SERAPH_PIPELINE", env)
    ensures r.Some? ==> Built(r.value.retention, RetentionFields, TomlSection(toml, "retention"), "SERAPH_RETENTION", env)
    ensures r.Some? ==> Built(r.value.logging, LogFields, TomlSection(toml, "logging"), "SERAPH_LOG", env)
    ensures r.None? <==>
      || SectionOf(TimeoutFields, TomlSection(toml, "timeouts"), "SERAPH_TIMEOUT", env).None?
      || SectionOf(ScoringFields, TomlSection(toml, "scoring"), "SERAPH_SCORING", env).None?
      || SectionOf(PipelineFields, TomlSection(toml, "pipeline"), "SERAPH_PIPELINE", env).None?
      || SectionOf(RetentionFields, TomlSection(toml, "retention"), "SERAPH_RETENTION", env).None?
      || SectionOf(LogFields, TomlSection(toml, "logging"), "SERAPH_LOG", env).None?
  {
    var t := SectionOf(TimeoutFields, TomlSection(toml, "timeouts"), "SERAPH_TIMEOUT", env);
    var s := SectionOf(ScoringFields, TomlSection(toml, "scoring"), "SERAPH_SCORING", env);
    var p := SectionOf(PipelineFields, TomlSection(toml, "pipeline"), "SERAPH_PIPELINE", env);
    var re := SectionOf(RetentionFields, TomlSection(toml, "retention"), "SERAPH_RETENTION", env);
    var l := SectionOf(LogFields, TomlSection(toml, "logging"), "SERAPH_LOG", env);
    if t.None? || s.None? || p.None? || re.None? || l.None? then None
    else Some(SeraphConfig(t.value, s.value, p.value, re.value, l.value))
  }

  /** No environment variable overrides any field of any section. */
  predicate NoEnvOverrides(env: map<string, string>)
  {
    NoOverrides(TimeoutFields, "SERAPH_TIMEOUT", env)
    && NoOverrides(ScoringFields, "SERAPH_SCORING", env)
    && NoOverrides(PipelineFields, "SERAPH_PIPELINE", env)
    && NoOverrides(RetentionFields, "SERAPH_RETENTION", env)
    && NoOverrides(LogFields, "SERAPH_LOG", env)
  }

  /** Without a config file and without overrides, loading gives `SeraphConfig()`. */
  lemma MissingFileGivesDefaults(tomlFile: map<string, map<string, Value>>, env: map<string, string>)
    requires NoEnvOverrides(env)
    ensures LoadOf(TomlRead(false, tomlFile), env) == Some(DefaultConfig())
  {
    UntouchedSectionIsDefaults(TimeoutFields, "SERAPH_TIMEOUT", env);
    UntouchedSectionIsDefaults(ScoringFields, "SERAPH_SCORING", env);
    UntouchedSectionIsDefaults(PipelineFields, "SERAPH_PIPELINE", env);
    UntouchedSectionIsDefaults(RetentionFields, "SERAPH_RETENTION", env);
    UntouchedSectionIsDefaults(LogFields, "SERAPH_LOG", env);
  }

  /** `SeraphConfig.load`: the TOML document is read only when the file exists. */
  method Load(fileExists: bool, tomlFile: map<string, map<string, Value>>, env: map<string, string>)
    returns (r: Option<SeraphConfig>)
    ensures r == LoadOf(TomlRead(fileExists, tomlFile), env)
  {
    var toml := TomlRead(fileExists, tomlFile);
    var timeouts := BuildSection(TimeoutFields, TomlSection(toml, "timeouts"), "SERAPH_TIMEOUT", env);
    var scoring := BuildSection(ScoringFields, TomlSection(toml, "scoring"), "SERAPH_SCORING", env);
    var pipeline := BuildSection(PipelineFields, TomlSection(toml, "pipeline"), "SERAPH_PIPELINE", env);
    var retention := BuildSection(RetentionFields, TomlSection(toml, "retention"), "SERAPH_RETENTION", env);
    var logging := BuildSection(LogFields, TomlSection(toml, "logging"), "SERAPH_LOG", env);
    if timeouts.None? || scoring.None? || pipeline.None? || retention.None? || logging.None? {
      return None;
    }
    return Some(SeraphConfig(timeouts.value, scoring.value, pipeline.value, retention.value, logging.value));
  }

  /** A numeric section value as a real (TOML integers in float fields included). */
  function AsReal(v: Value): (r: Option<real>)
    ensures v.IntV? ==> r == Some(v.i as real)
    ensures v.FloatV? ==> r == Some(v.r)
    ensures !v.IntV? && !v.FloatV? ==> r.None?
  {
    match v
    case IntV(i) => Some(i as real)
    case FloatV(x) => Some(x)
    case _ => None
  }

  /** The typed scoring configuration a built scoring section stands for; None when a field is not numeric. */
  function ScoringOf(s: Section): (r: Option<ScoringConfig>)
    requires |s| == |ScoringFields|
    ensures r.Some? <==> forall i :: 0 <= i < |s| ==> AsReal(s[i]).Some?
  {
    if forall i :: 0 <= i < |s| ==> AsReal(s[i]).Some? then
      var x := (i: int) requires 0 <= i < |s| => AsReal(s[i]).value;
      Some(ScoringConfig(x(0), x(1), x(2), x(3), x(4), x(5), x(6), x(7), x(8), x(9),
                         x(10), x(11), x(12), x(13), x(14), x(15), x(16), x(17), x(18), x(19)))
    else None
  }

  /** The scoring field defaults are those of the typed `ScoringConfig()`. */
  lemma ScoringDefaultsAgree()
    ensures ScoringOf(Defaults(ScoringFields)) == Some(DefaultScoring)
  {
  }
}
