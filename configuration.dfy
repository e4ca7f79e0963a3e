/**
 * Where the clients find their settings: a system property, else an
 * environment variable, else the `snoop` section of the YAML file, else a
 * configuration error naming the key.
 */
module Configuration {
  import opened Wrappers

  /** The process's system properties and environment, as maps. */
  datatype Sources = Sources(systemProperties: map<string, string>, environment: map<string, string>)

  /**
   * The outcome of loading the YAML file: its `snoop` section, with every
   * value already in its `toString()` form, or the `YAMLException` the
   * loader raised.
   */
  datatype YamlLoad = Loaded(snoop: map<string, string>) | LoadFailed

  /** `SnoopConfigurationException`. */
  datatype ConfigurationError = ConfigurationError(message: string)

  /** The section the clients read from; a failed load leaves it the empty map. */
  function SnoopSection(yaml: YamlLoad): (r: map<string, string>)
    ensures yaml.Loaded? ==> r == yaml.snoop
    ensures yaml.LoadFailed? ==> r == map[]
  {
    match yaml
    case Loaded(snoop) => snoop
    case LoadFailed => map[]
  }

  function Lookup(m: map<string, string>, key: string): Option<string> {
    if key in m then Some(m[key]) else None
  }

  /** The first candidate that is present, if any. */
  function FirstPresent(candidates: seq<Option<string>>): (r: Option<string>)
    ensures r.None? <==> forall i :: 0 <= i < |candidates| ==> candidates[i].None?
    ensures r.Some? ==> exists i :: 0 <= i < |candidates| && candidates[i] == r
                                    && forall j :: 0 <= j < i ==> candidates[j].None?
    decreases |candidates|
  {
    if candidates == [] then None
    else if candidates[0].Some? then candidates[0]
    else
      var r := FirstPresent(candidates[1..]);
      assert forall i :: 1 <= i < |candidates| ==> candidates[i] == candidates[1..][i - 1];
      r
  }

  /**
   * The `Optional` fallback chain both `readProperty` variants use: the
   * system property `key`, the environment variable `envKey`, the YAML
   * entry `key`, and otherwise an error whose message starts with the key.
   */
  function Resolve(key: string, envKey: string, src: Sources, snoopConfig: map<string, string>, hint: string): (r: Result<string, ConfigurationError>)
    ensures key in src.systemProperties ==> r == Ok(src.systemProperties[key])
    ensures key !in src.systemProperties && envKey in src.environment ==> r == Ok(src.environment[envKey])
    ensures key !in src.systemProperties && envKey !in src.environment && key in snoopConfig ==> r == Ok(snoopConfig[key])
    ensures r.Err? <==> key !in src.systemProperties && envKey !in src.environment && key !in snoopConfig
    ensures r.Err? ==> r.error.message == key + hint
  {
    if key in src.systemProperties then Ok(src.systemProperties[key])
    else if envKey in src.environment then Ok(src.environment[envKey])
    else if key in snoopConfig then Ok(snoopConfig[key])
    else Err(ConfigurationError(key + hint))
  }

  const REGISTRATION_HINT := " must be configured either in application.yml or as env parameter"
  const PRODUCER_HINT := " must be configured either in application.yml or as env or system property"

  /**
   * `SnoopRegistrationClient.readProperty`: the environment variable is
   * named after the service, `<serviceName>.<key>`.
   */
  function RegistrationProperty(serviceName: string, key: string, src: Sources, snoopConfig: map<string, string>): (r: Result<string, ConfigurationError>)
    ensures key in src.systemProperties ==> r == Ok(src.systemProperties[key])
    ensures key !in src.systemProperties && serviceName + "." + key in src.environment ==>
              r == Ok(src.environment[serviceName + "." + key])
    ensures key !in src.systemProperties && serviceName + "." + key !in src.environment && key in snoopConfig ==>
              r == Ok(snoopConfig[key])
    ensures r.Err? <==> key !in src.systemProperties && serviceName + "." + key !in src.environment && key !in snoopConfig
    ensures r.Err? ==> r.error.message == key + REGISTRATION_HINT
  {
    Resolve(key, serviceName + "." + key, src, snoopConfig, REGISTRATION_HINT)
  }

  /** `SnoopProducer.readProperty`: the environment variable has the bare key as its name. */
  function ProducerProperty(key: string, src: Sources, snoopConfig: map<string, string>): (r: Result<string, ConfigurationError>)
    ensures key in src.systemProperties ==> r == Ok(src.systemProperties[key])
    ensures key !in src.systemProperties && key in src.environment ==> r == Ok(src.environment[key])
    ensures key !in src.systemProperties && key !in src.environment && key in snoopConfig ==> r == Ok(snoopConfig[key])
    ensures r.Err? <==> key !in src.systemProperties && key !in src.environment && key !in snoopConfig
    ensures r.Err? ==> r.error.message == key + PRODUCER_HINT
  {
    Resolve(key, key, src, snoopConfig, PRODUCER_HINT)
  }

  // ---------------------------------------------------------------------------
  // Properties of the chain
  // ---------------------------------------------------------------------------

  /** The chain yields the first source, in precedence order, that has the setting. */
  lemma ResolveIsFirstPresent(key: string, envKey: string, src: Sources, snoopConfig: map<string, string>, hint: string)
    ensures var first := FirstPresent([Lookup(src.systemProperties, key), Lookup(src.environment, envKey), Lookup(snoopConfig, key)]);
            match first
            case Some(v) => Resolve(key, envKey, src, snoopConfig, hint) == Ok(v)
            case None => Resolve(key, envKey, src, snoopConfig, hint) == Err(ConfigurationError(key + hint))
  {
    var cs := [Lookup(src.systemProperties, key), Lookup(src.environment, envKey), Lookup(snoopConfig, key)];
    assert cs[1..] == [cs[1], cs[2]];
    assert cs[1..][1..] == [cs[2]];
    assert cs[1..][1..][1..] == [];
  }

  /** A value set as a system property hides whatever the environment and the YAML file say. */
  lemma SystemPropertyWins(key: string, envKey: string, src: Sources, other: Sources, yaml1: map<string, string>, yaml2: map<string, string>, hint: string)
    requires key in src.systemProperties && other.systemProperties == src.systemProperties
    ensures Resolve(key, envKey, src, yaml1, hint) == Resolve(key, envKey, other, yaml2, hint)
  {
  }

  /** Every value the chain yields was set in one of the three sources. */
  lemma ResolvedValueHasSource(key: string, envKey: string, src: Sources, snoopConfig: map<string, string>, hint: string)
    requires Resolve(key, envKey, src, snoopConfig, hint).Ok?
    ensures var v := Resolve(key, envKey, src, snoopConfig, hint).value;
            (key in src.systemProperties && src.systemProperties[key] == v)
            || (envKey in src.environment && src.environment[envKey] == v)
            || (key in snoopConfig && snoopConfig[key] == v)
  {
  }
}
