/** Application configuration (src/common/core/config.py, class AppConfig):
    the defaults, `from_env` over an explicit environment, `to_dict`, and the
    keyword construction `AppConfig(**data)` that `from_file` applies to the
    dictionary `save` writes. */
module Config {

  /** `custom_config` is a free-form dictionary; its values are kept as
      opaque strings. */
  datatype AppConfig = AppConfig(
    appName: string,
    appVersion: string,
    logLevel: string,
    localhostOnly: bool,
    spawnDaemon: bool,
    useSim: bool,
    connectionTimeout: real,
    mediaBackend: string,
    debugMode: bool,
    customConfig: map<string, string>)

  /** The dataclass defaults. */
  const Default: AppConfig := AppConfig(
    "reachy-mini-app", "0.1.0", "INFO", true, false, false, 5.0, "default", false, map[])

  /** A dictionary value, as `to_dict` produces it. */
  datatype Value = Str(s: string) | Flag(b: bool) | Number(r: real) | Dict(d: map<string, string>)

  datatype Field =
    | AppName | AppVersion | LogLevel | LocalhostOnly | SpawnDaemon | UseSim
    | ConnectionTimeout | MediaBackend | DebugMode | CustomConfig

  function FieldName(f: Field): string
  {
    match f
    case AppName => "app_name"
    case AppVersion => "app_version"
    case LogLevel => "log_level"
    case LocalhostOnly => "localhost_only"
    case SpawnDaemon => "spawn_daemon"
    case UseSim => "use_sim"
    case ConnectionTimeout => "connection_timeout"
    case MediaBackend => "media_backend"
    case DebugMode => "debug_mode"
    case CustomConfig => "custom_config"
  }

  const FieldNames: set<string> := {
    "app_name", "app_version", "log_level", "localhost_only", "spawn_daemon", "use_sim",
    "connection_timeout", "media_backend", "debug_mode", "custom_config"}

  function Get(c: AppConfig, f: Field): Value
  {
    match f
    case AppName => Str(c.appName)
    case AppVersion => Str(c.appVersion)
    case LogLevel => Str(c.logLevel)
    case LocalhostOnly => Flag(c.localhostOnly)
    case SpawnDaemon => Flag(c.spawnDaemon)
    case UseSim => Flag(c.useSim)
    case ConnectionTimeout => Number(c.connectionTimeout)
    case MediaBackend => Str(c.mediaBackend)
    case DebugMode => Flag(c.debugMode)
    case CustomConfig => Dict(c.customConfig)
  }

  predicate IsBoolField(f: Field)
  {
    f in {LocalhostOnly, SpawnDaemon, UseSim, DebugMode}
  }

  /** The environment variables `from_env` consults, as suffixes of the
      prefix, in the order of its mapping. */
  const EnvMapping: seq<(string, Field)> := [
    ("APP_NAME", AppName),
    ("LOG_LEVEL", LogLevel),
    ("LOCALHOST_ONLY", LocalhostOnly),
    ("SPAWN_DAEMON", SpawnDaemon),
    ("USE_SIM", UseSim),
    ("MEDIA_BACKEND", MediaBackend),
    ("DEBUG_MODE", DebugMode)]

  function EnvSuffix(f: Field): string
  {
    match f
    case AppName => "APP_NAME"
    case LogLevel => "LOG_LEVEL"
    case LocalhostOnly => "LOCALHOST_ONLY"
    case SpawnDaemon => "SPAWN_DAEMON"
    case UseSim => "USE_SIM"
    case MediaBackend => "MEDIA_BACKEND"
    case DebugMode => "DEBUG_MODE"
    case _ => ""
  }

  predicate FromEnvField(f: Field)
  {
    f in {AppName, LogLevel, LocalhostOnly, SpawnDaemon, UseSim, MediaBackend, DebugMode}
  }

  lemma EnvMappingCoversFields()
    ensures forall k :: 0 <= k < |EnvMapping| ==>
      FromEnvField(EnvMapping[k].1) && EnvMapping[k].0 == EnvSuffix(EnvMapping[k].1)
    ensures forall f :: FromEnvField(f) ==> exists k :: 0 <= k < |EnvMapping| && EnvMapping[k].1 == f
  {
    forall f | FromEnvField(f) ensures exists k :: 0 <= k < |EnvMapping| && EnvMapping[k].1 == f {
      match f
      case AppName => assert EnvMapping[0].1 == f;
      case LogLevel => assert EnvMapping[1].1 == f;
      case LocalhostOnly => assert EnvMapping[2].1 == f;
      case SpawnDaemon => assert EnvMapping[3].1 == f;
      case UseSim => assert EnvMapping[4].1 == f;
      case MediaBackend => assert EnvMapping[5].1 == f;
      case DebugMode => assert EnvMapping[6].1 == f;
    }
  }

  /** `str.lower()` on the ASCII letters. No other character lowers to one
      of the letters of "true" or "yes", so the boolean test below is exact. */
  function Lower(s: string): (r: string)
    ensures |r| == |s|
  {
    if |s| == 0 then []
    else [if 'A' <= s[0] <= 'Z' then (s[0] as int + 32) as char else s[0]] + Lower(s[1..])
  }

  /** A boolean variable is true iff its lowercased value is one of
      "true", "1", "yes"; any other present value means false. */
  predicate ParseBool(v: string)
  {
    Lower(v) in {"true", "1", "yes"}
  }

  function Convert(f: Field, v: string): Value
  {
    if IsBoolField(f) then Flag(ParseBool(v)) else Str(v)
  }

  /** `setattr(config, field_name, value)` for the fields `from_env` sets. */
  function Set(c: AppConfig, f: Field, v: Value): (r: AppConfig)
    requires FromEnvField(f)
    requires if IsBoolField(f) then v.Flag? else v.Str?
    ensures Get(r, f) == v
    ensures forall g :: g != f ==> Get(r, g) == Get(c, g)
  {
    match f
    case AppName => c.(appName := v.s)
    case LogLevel => c.(logLevel := v.s)
    case LocalhostOnly => c.(localhostOnly := v.b)
    case SpawnDaemon => c.(spawnDaemon := v.b)
    case UseSim => c.(useSim := v.b)
    case MediaBackend => c.(mediaBackend := v.s)
    case DebugMode => c.(debugMode := v.b)
  }

  /** What `from_env` leaves in a field: the converted variable when it is
      set, the default otherwise. */
  function ExpectedFromEnv(env: map<string, string>, prefix: string, f: Field): Value
  {
    var name := prefix + EnvSuffix(f);
    if FromEnvField(f) && name in env then Convert(f, env[name]) else Get(Default, f)
  }

  /** `from_env`: start from the defaults and, for each mapped variable that
      is set, store its converted value. */
  method FromEnv(env: map<string, string>, prefix: string) returns (c: AppConfig)
    ensures forall f :: Get(c, f) == ExpectedFromEnv(env, prefix, f)
    ensures c.appVersion == "0.1.0" && c.connectionTimeout == 5.0 && c.customConfig == map[]
  {
    c := Default;
    EnvMappingCoversFields();
    var i := 0;
    while i < |EnvMapping|
      invariant 0 <= i <= |EnvMapping|
      invariant forall f :: (exists k :: 0 <= k < i && EnvMapping[k].1 == f) ==>
        Get(c, f) == ExpectedFromEnv(env, prefix, f)
      invariant forall f :: (forall k :: 0 <= k < i ==> EnvMapping[k].1 != f) ==>
        Get(c, f) == Get(Default, f)
    {
      var (suffix, field) := EnvMapping[i];
      var name := prefix + suffix;
      if name in env {
        var value := env[name];
        c := Set(c, field, Convert(field, value));
      }
      i := i + 1;
    }
    forall f ensures Get(c, f) == ExpectedFromEnv(env, prefix, f) {
      if !FromEnvField(f) {
        assert forall k :: 0 <= k < |EnvMapping| ==> EnvMapping[k].1 != f;
      }
    }
    assert Get(c, AppVersion) == Str("0.1.0");
    assert Get(c, ConnectionTimeout) == Number(5.0);
    assert Get(c, CustomConfig) == Dict(map[]);
  }

  /** `to_dict`: one entry per field, under its name. */
  function ToDict(c: AppConfig): (d: map<string, Value>)
    ensures d.Keys == FieldNames
    ensures forall f :: FieldName(f) in d && d[FieldName(f)] == Get(c, f)
  {
    map[
      "app_name" := Str(c.appName),
      "app_version" := Str(c.appVersion),
      "log_level" := Str(c.logLevel),
      "localhost_only" := Flag(c.localhostOnly),
      "spawn_daemon" := Flag(c.spawnDaemon),
      "use_sim" := Flag(c.useSim),
      "connection_timeout" := Number(c.connectionTimeout),
      "media_backend" := Str(c.mediaBackend),
      "debug_mode" := Flag(c.debugMode),
      "custom_config" := Dict(c.customConfig)]
  }

  datatype Built = Built(config: AppConfig) | Rejected

  function StrOr(d: map<string, Value>, k: string, dflt: string): string
  {
    if k in d && d[k].Str? then d[k].s else dflt
  }

  function FlagOr(d: map<string, Value>, k: string, dflt: bool): bool
  {
    if k in d && d[k].Flag? then d[k].b else dflt
  }

  /** `AppConfig(**data)`: an unknown key is rejected (Python raises
      TypeError), a missing key keeps its default. Values of the wrong kind
      are rejected too. */
  function FromDict(d: map<string, Value>): (r: Built)
    ensures r.Rejected? <==> exists k :: k in d && (k !in FieldNames || !WellTyped(k, d[k]))
  {
    if exists k :: k in d && (k !in FieldNames || !WellTyped(k, d[k])) then
      Rejected
    else
      Built(AppConfig(
        StrOr(d, "app_name", Default.appName),
        StrOr(d, "app_version", Default.appVersion),
        StrOr(d, "log_level", Default.logLevel),
        FlagOr(d, "localhost_only", Default.localhostOnly),
        FlagOr(d, "spawn_daemon", Default.spawnDaemon),
        FlagOr(d, "use_sim", Default.useSim),
        if "connection_timeout" in d && d["connection_timeout"].Number?
        then d["connection_timeout"].r else Default.connectionTimeout,
        StrOr(d, "media_backend", Default.mediaBackend),
        FlagOr(d, "debug_mode", Default.debugMode),
        if "custom_config" in d && d["custom_config"].Dict? then d["custom_config"].d
        else Default.customConfig))
  }

  predicate WellTyped(k: string, v: Value)
  {
    if k in {"localhost_only", "spawn_daemon", "use_sim", "debug_mode"} then v.Flag?
    else if k == "connection_timeout" then v.Number?
    else if k == "custom_config" then v.Dict?
    else v.Str?
  }

  /** Saving a configuration and loading it back gives the same
      configuration: `AppConfig(**c.to_dict()) == c`. */
  lemma ToDictRoundTrip(c: AppConfig)
    ensures FromDict(ToDict(c)) == Built(c)
  {
    var d := ToDict(c);
    assert forall k :: k in d ==> k in FieldNames && WellTyped(k, d[k]);
  }

  /** With an empty environment `from_env` yields exactly the defaults. */
  lemma EmptyEnvGivesDefaults(prefix: string)
    ensures forall f :: ExpectedFromEnv(map[], prefix, f) == Get(Default, f)
  {
  }

  lemma DefaultValues()
    ensures Default.appName == "reachy-mini-app" && Default.logLevel == "INFO"
    ensures Default.localhostOnly && !Default.spawnDaemon && !Default.useSim && !Default.debugMode
    ensures ToDict(Default)["app_name"] == Str("reachy-mini-app")
  {
  }

  lemma ParseBoolExamples()
    ensures ParseBool("TRUE") && ParseBool("Yes") && ParseBool("1")
    ensures !ParseBool("0") && !ParseBool("false") && !ParseBool("on") && !ParseBool("")
  {
    assert Lower("TRUE") == "true";
    assert Lower("Yes") == "yes";
    assert Lower("1") == "1";
  }
}
