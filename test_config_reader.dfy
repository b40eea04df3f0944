/**
 * ConfigReader.get of the test source tree: environment, system property, config.properties,
 * default; it has no .env tier.
 */
module TestConfigReader {
  import opened Wrappers
  import ConfigReader

  /** get(key, defaultValue) of the test copy. */
  function Get(env: map<string, string>, systemProperties: map<string, string>,
               properties: map<string, string>, key: string, default: Option<string>): (r: Option<string>)
    ensures ConfigReader.EnvKey(key) in env ==> r == Some(env[ConfigReader.EnvKey(key)])
    ensures ConfigReader.EnvKey(key) !in env && key in systemProperties ==> r == Some(systemProperties[key])
    ensures ConfigReader.EnvKey(key) !in env && key !in systemProperties ==>
              (key in properties ==> r == Some(properties[key]))
    ensures ConfigReader.EnvKey(key) !in env && key !in systemProperties ==>
              (key !in properties ==> r == default)
  {
    var envKey := ConfigReader.EnvKey(key);
    if envKey in env then Some(env[envKey])
    else if key in systemProperties then Some(systemProperties[key])
    else if key in properties then Some(properties[key])
    else default
  }

  /** The test copy is the main chain with an empty .env file. */
  lemma SameAsMainWithoutDotenv(env: map<string, string>, systemProperties: map<string, string>,
                                properties: map<string, string>, key: string, default: Option<string>)
    ensures Get(env, systemProperties, properties, key, default)
         == ConfigReader.Get(ConfigReader.Sources(env, systemProperties, map[], properties), key, default)
  {
  }
}
