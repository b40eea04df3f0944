/**
 * ConfigReader.get of the main source tree: a chain of lookups in which the first present
 * value wins. The environment, the system properties, the .env file and config.properties
 * are loaded elsewhere and appear here as maps.
 */
module ConfigReader {
  import opened Wrappers
  import Text

  datatype Sources = Sources(
    env: map<string, string>,
    systemProperties: map<string, string>,
    dotenv: map<string, string>,
    properties: map<string, string>)

  function Lookup(m: map<string, string>, key: string): Option<string> {
    if key in m then Some(m[key]) else None
  }

  /** key.toUpperCase().replace(".", "_"): the name used for the environment and the .env file. */
  function EnvKey(key: string): (r: string)
    ensures '.' !in r
    ensures forall i :: 0 <= i < |r| ==> !('a' <= r[i] <= 'z')
  {
    var upper := Text.ToUpper(key);
    assert forall d :: d in upper ==> !('a' <= d <= 'z');
    var r := Text.ReplaceChar(upper, '.', "_");
    assert forall i :: 0 <= i < |r| ==> r[i] in r;
    r
  }

  /** The first present value of the list, or the default when none is. */
  function FirstPresent(candidates: seq<Option<string>>, default: Option<string>): (r: Option<string>)
    ensures r == default || exists i :: 0 <= i < |candidates| && candidates[i].Some? && r == candidates[i]
  {
    if candidates == [] then default
    else if candidates[0].Some? then candidates[0]
    else FirstPresent(candidates[1..], default)
  }

  /** The four tiers in precedence order. */
  function Tiers(src: Sources, key: string): seq<Option<string>> {
    [Lookup(src.env, EnvKey(key)), Lookup(src.systemProperties, key),
     Lookup(src.dotenv, EnvKey(key)), Lookup(src.properties, key)]
  }

  /** get(key, defaultValue) */
  function Get(src: Sources, key: string, default: Option<string>): (r: Option<string>)
    ensures r == FirstPresent(Tiers(src, key), default)
  {
    var envKey := EnvKey(key);
    var t := Tiers(src, key);
    assert t[1..][1..][1..][1..] == [];
    assert envKey !in src.env && key !in src.systemProperties ==>
      FirstPresent(t, default) == FirstPresent(t[1..][1..], default);
    assert envKey !in src.env && key !in src.systemProperties && envKey !in src.dotenv ==>
      FirstPresent(t, default) == FirstPresent(t[1..][1..][1..], default);
    if envKey in src.env then Some(src.env[envKey])
    else if key in src.systemProperties then Some(src.systemProperties[key])
    else if envKey in src.dotenv then Some(src.dotenv[envKey])
    else if key in src.properties then Some(src.properties[key])
    else default
  }

  /** A system property wins over the .env file and config.properties. */
  lemma SystemPropertyOverridesFiles(src: Sources, key: string, default: Option<string>)
    requires EnvKey(key) !in src.env && key in src.systemProperties
    ensures Get(src, key, default) == Some(src.systemProperties[key])
  {
  }

  /** A key found in no source yields the caller's default, null included. */
  lemma AbsentKeyYieldsDefault(src: Sources, key: string, default: Option<string>)
    requires EnvKey(key) !in src.env && key !in src.systemProperties
    requires EnvKey(key) !in src.dotenv && key !in src.properties
    ensures Get(src, key, default) == default
  {
  }

  /** The result is the default or a value stored under the key (or its environment name) somewhere. */
  lemma GetComesFromASource(src: Sources, key: string, default: Option<string>)
    ensures var r := Get(src, key, default);
      || r == default
      || (EnvKey(key) in src.env && r == Some(src.env[EnvKey(key)]))
      || (key in src.systemProperties && r == Some(src.systemProperties[key]))
      || (EnvKey(key) in src.dotenv && r == Some(src.dotenv[EnvKey(key)]))
      || (key in src.properties && r == Some(src.properties[key]))
  {
    var r := Get(src, key, default);
    var t := Tiers(src, key);
    if r != default {
      var i :| 0 <= i < |t| && t[i].Some? && r == t[i];
    }
  }
}
