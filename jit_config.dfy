/**
 * The JIT demo back end's configuration (demo/jit/demo-be/internal/config):
 * six variables read verbatim, three of them patched with a default when
 * empty. The environment is a map from variable name to value.
 */
module JitConfig {
  import WorkerConfig

  datatype Config = Config(
    atlasPublicKey: string,
    atlasPrivateKey: string,
    atlasProjectID: string,
    temporalHost: string,
    temporalNamespace: string,
    port: string)

  function LoadConfig(env: map<string, string>): (c: Config)
    ensures c.atlasPublicKey == WorkerConfig.Getenv(env, "ATLAS_PUBLIC_KEY")
    ensures c.atlasPrivateKey == WorkerConfig.Getenv(env, "ATLAS_PRIVATE_KEY")
    ensures c.atlasProjectID == WorkerConfig.Getenv(env, "ATLAS_PROJECT_ID")
    ensures c.port == if WorkerConfig.Getenv(env, "PORT") == "" then "8080" else env["PORT"]
    ensures c.temporalHost == if WorkerConfig.Getenv(env, "TEMPORAL_HOST") == "" then "localhost:7233" else env["TEMPORAL_HOST"]
    ensures c.temporalNamespace == if WorkerConfig.Getenv(env, "TEMPORAL_NAMESPACE") == "" then "default" else env["TEMPORAL_NAMESPACE"]
    ensures c.port != "" && c.temporalHost != "" && c.temporalNamespace != ""
  {
    var cfg := Config(
      WorkerConfig.Getenv(env, "ATLAS_PUBLIC_KEY"),
      WorkerConfig.Getenv(env, "ATLAS_PRIVATE_KEY"),
      WorkerConfig.Getenv(env, "ATLAS_PROJECT_ID"),
      WorkerConfig.Getenv(env, "TEMPORAL_HOST"),
      WorkerConfig.Getenv(env, "TEMPORAL_NAMESPACE"),
      WorkerConfig.Getenv(env, "PORT"));
    var cfg := if cfg.port == "" then cfg.(port := "8080") else cfg;
    var cfg := if cfg.temporalHost == "" then cfg.(temporalHost := "localhost:7233") else cfg;
    if cfg.temporalNamespace == "" then cfg.(temporalNamespace := "default") else cfg
  }

  /** The patched fields follow the same rule as the worker's getEnv. */
  lemma DefaultsAgreeWithWorker(env: map<string, string>)
    ensures LoadConfig(env).port == WorkerConfig.GetEnv(env, "PORT", "8080")
    ensures LoadConfig(env).temporalHost == WorkerConfig.GetEnv(env, "TEMPORAL_HOST", "localhost:7233")
    ensures LoadConfig(env).temporalNamespace == WorkerConfig.GetEnv(env, "TEMPORAL_NAMESPACE", "default")
  {
  }
}
