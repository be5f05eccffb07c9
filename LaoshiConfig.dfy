/**
 * The laoshi.toml configuration (crates/ai-laoshi-core/src/laoshi/config.rs)
 * and its projection to the assistant's creation settings.
 */
module LaoshiConfig {
  import Assistant

  /** One [[file_bundles]] entry: which files to gather and how to name the bundle. */
  datatype FileBundle = FileBundle(bundleName: string, srcDir: string, srcGlobs: seq<string>, dstExt: string)

  /** The parsed laoshi.toml. */
  datatype Config = Config(name: string, model: string, instructionsFile: string, fileBundles: seq<FileBundle>)

  /** From<&Config> for CreateConfig: the assistant is created from the name and the model only. */
  function ToCreateConfig(config: Config): (r: Assistant.CreateConfig)
    ensures r.name == config.name && r.model == config.model
  {
    Assistant.CreateConfig(config.name, config.model)
  }

  /** Two configurations give the same assistant settings exactly when their names and models agree. */
  lemma SameAssistantSettings(c1: Config, c2: Config)
    ensures ToCreateConfig(c1) == ToCreateConfig(c2) <==> c1.name == c2.name && c1.model == c2.model
  {
  }
}
