/**
 * The centralized worker's configuration (internal/worker/config): every
 * setting is read from the environment, falling back to a default when the
 * variable is unset or empty. The environment is a map from variable name to
 * value; an unset variable reads as "".
 */
module WorkerConfig {
  import opened GoTypes
  import opened Strings

  type Env = map<string, string>

  /** os.Getenv. */
  function Getenv(env: Env, key: string): string
  {
    if key in env then env[key] else ""
  }

  datatype Config = Config(
    temporalHost: string,
    temporalNamespace: string,
    maxConcurrentActivities: int,
    maxConcurrentWorkflows: int,
    enabledFeatures: seq<string>,
    logLevel: string,
    httpPort: int,
    httpHost: string,
    superscriptBasePath: string,
    jitTaskQueue: string,
    batchProcessingQueue: string,
    kilcronTaskQueue: string,
    atlasPublicKey: string,
    atlasPrivateKey: string,
    atlasProjectID: string)

  const DefaultFeatures := ["kilcron", "superscript", "jit", "batch", "data-enrichment"]

  /** getEnv: the variable when it is set to something, else the default. */
  function GetEnv(env: Env, key: string, defaultValue: string): (v: string)
    ensures key in env && env[key] != "" ==> v == env[key]
    ensures (key !in env || env[key] == "") ==> v == defaultValue
  {
    var value := Getenv(env, key);
    if value != "" then value else defaultValue
  }

  /** getEnvInt: the variable's value when it parses as an int, else the
      default. */
  function GetEnvInt(env: Env, key: string, defaultValue: int): (v: int)
    ensures key in env && Atoi(env[key]).Some? ==> v == Atoi(env[key]).value
    ensures (key !in env || Atoi(env[key]).None?) ==> v == defaultValue
  {
    var value := Getenv(env, key);
    if value != "" then
      match Atoi(value)
      case Some(n) => n
      case None => defaultValue
    else defaultValue
  }

  /** getEnvSlice: the variable split at every comma, no trimming, or the
      default when it is unset or empty. */
  function GetEnvSlice(env: Env, key: string, defaultValue: seq<string>): (v: seq<string>)
    ensures key in env && env[key] != "" ==> v == Split(env[key], ',') && Join(v, ',') == env[key]
    ensures (key !in env || env[key] == "") ==> v == defaultValue
  {
    var value := Getenv(env, key);
    if value != "" then
      JoinSplit(value, ',');
      Split(value, ',')
    else defaultValue
  }

  function LoadConfig(env: Env): (c: Config)
    ensures c.temporalHost == GetEnv(env, "TEMPORAL_HOST", "localhost:7233")
    ensures c.temporalNamespace == GetEnv(env, "TEMPORAL_NAMESPACE", "default")
    ensures c.maxConcurrentActivities == GetEnvInt(env, "MAX_CONCURRENT_ACTIVITIES", 10)
    ensures c.maxConcurrentWorkflows == GetEnvInt(env, "MAX_CONCURRENT_WORKFLOWS", 10)
    ensures c.enabledFeatures == GetEnvSlice(env, "ENABLED_FEATURES", DefaultFeatures)
    ensures c.logLevel == GetEnv(env, "LOG_LEVEL", "INFO")
    ensures c.httpPort == GetEnvInt(env, "HTTP_PORT", 8080)
    ensures c.httpHost == GetEnv(env, "HTTP_HOST", "localhost")
    ensures c.superscriptBasePath == GetEnv(env, "SUPERSCRIPT_BASE_PATH", "./internal/features/superscript/scripts/")
    ensures c.jitTaskQueue == GetEnv(env, "JIT_TASK_QUEUE", "jit_access_task_queue")
    ensures c.batchProcessingQueue == GetEnv(env, "BATCH_PROCESSING_QUEUE", "batch_processing_task_queue")
    ensures c.kilcronTaskQueue == GetEnv(env, "KILCRON_TASK_QUEUE", "kilcron_task_queue")
    ensures c.atlasPublicKey == Getenv(env, "ATLAS_PUBLIC_KEY")
    ensures c.atlasPrivateKey == Getenv(env, "ATLAS_PRIVATE_KEY")
    ensures c.atlasProjectID == Getenv(env, "ATLAS_PROJECT_ID")
  {
    Config(
      GetEnv(env, "TEMPORAL_HOST", "localhost:7233"),
      GetEnv(env, "TEMPORAL_NAMESPACE", "default"),
      GetEnvInt(env, "MAX_CONCURRENT_ACTIVITIES", 10),
      GetEnvInt(env, "MAX_CONCURRENT_WORKFLOWS", 10),
      GetEnvSlice(env, "ENABLED_FEATURES", DefaultFeatures),
      GetEnv(env, "LOG_LEVEL", "INFO"),
      GetEnvInt(env, "HTTP_PORT", 8080),
      GetEnv(env, "HTTP_HOST", "localhost"),
      GetEnv(env, "SUPERSCRIPT_BASE_PATH", "./internal/features/superscript/scripts/"),
      GetEnv(env, "JIT_TASK_QUEUE", "jit_access_task_queue"),
      GetEnv(env, "BATCH_PROCESSING_QUEUE", "batch_processing_task_queue"),
      GetEnv(env, "KILCRON_TASK_QUEUE", "kilcron_task_queue"),
      GetEnv(env, "ATLAS_PUBLIC_KEY", ""),
      GetEnv(env, "ATLAS_PRIVATE_KEY", ""),
      GetEnv(env, "ATLAS_PROJECT_ID", ""))
  }

  /** With nothing set, every setting takes its default and every feature is
      enabled. */
  lemma EmptyEnvironmentDefaults()
    ensures var c := LoadConfig(map[]);
      && c.temporalHost == "localhost:7233" && c.temporalNamespace == "default"
      && c.maxConcurrentActivities == 10 && c.maxConcurrentWorkflows == 10
      && c.httpPort == 8080 && c.logLevel == "INFO" && c.httpHost == "localhost"
      && c.enabledFeatures == DefaultFeatures
      && c.atlasPublicKey == "" && c.atlasPrivateKey == "" && c.atlasProjectID == ""
  {
  }

  /** An integer setting written out in decimal reads back as itself. */
  lemma IntSettingRoundTrip(env: Env, key: string, n: int, defaultValue: int)
    requires MinInt64 <= n <= MaxInt64
    ensures GetEnvInt(env[key := IntToDecimal(n)], key, defaultValue) == n
  {
    AtoiOfDecimal(n);
  }

  /** A malformed integer setting falls back to the default. */
  lemma MalformedIntSetting(env: Env, key: string, defaultValue: int)
    ensures GetEnvInt(env[key := " 1"], key, defaultValue) == defaultValue
    ensures GetEnvInt(env[key := "1O"], key, defaultValue) == defaultValue
  {
    AtoiRejects();
  }

  /** An empty item in the feature list survives: "a,,b" is three features. */
  lemma FeatureListKeepsEmptyItems(env: Env)
    ensures LoadConfig(env["ENABLED_FEATURES" := "a,,b"]).enabledFeatures == ["a", "", "b"]
  {
    SplitExample();
  }

  /** IsFeatureEnabled: a linear search for an exact match. */
  method IsFeatureEnabled(c: Config, feature: string) returns (enabled: bool)
    ensures enabled <==> feature in c.enabledFeatures
  {
    var i := 0;
    while i < |c.enabledFeatures|
      invariant 0 <= i <= |c.enabledFeatures|
      invariant feature !in c.enabledFeatures[..i]
    {
      if c.enabledFeatures[i] == feature {
        return true;
      }
      i := i + 1;
    }
    assert c.enabledFeatures[..i] == c.enabledFeatures;
    return false;
  }
}
