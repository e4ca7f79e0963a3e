/**
 * `SnoopProducer`: builds the client an application injects to call
 * another registered service, addressed over HTTP at the registry.
 */
module Producer {
  import opened Wrappers
  import opened Configuration

  const SNOOP_SERVICE_KEY := "snoopService"

  /** `SnoopServiceClient` as the builder leaves it: the service it calls and the registry's address. */
  datatype ServiceClient = ServiceClient(applicationName: string, serviceUrl: string)

  class SnoopProducer {
    /** The `snoop` section of `snoop.yml`; empty until a load succeeds. */
    var snoopConfig: map<string, string>

    constructor ()
      ensures snoopConfig == map[]
    {
      snoopConfig := map[];
    }

    /** `init`: take the YAML section; a failed load keeps what was there, the empty map at start. */
    method Init(yaml: YamlLoad)
      modifies this
      ensures yaml.Loaded? ==> snoopConfig == yaml.snoop
      ensures yaml.LoadFailed? ==> snoopConfig == old(snoopConfig)
    {
      if yaml.Loaded? {
        snoopConfig := yaml.snoop;
      }
    }

    /**
     * `lookup`: a client named after the annotation's service, addressed at
     * "http://" followed by the `snoopService` setting; a missing setting is
     * the configuration error of `readProperty`.
     */
    function Lookup(serviceName: string, src: Sources): (r: Result<ServiceClient, ConfigurationError>)
      reads this
      ensures r.Ok? <==> ProducerProperty(SNOOP_SERVICE_KEY, src, snoopConfig).Ok?
      ensures r.Ok? ==> r.value.applicationName == serviceName
                        && r.value.serviceUrl == "http://" + ProducerProperty(SNOOP_SERVICE_KEY, src, snoopConfig).value
      ensures r.Err? ==> r.error.message == SNOOP_SERVICE_KEY + PRODUCER_HINT
    {
      var snoopService :- ProducerProperty(SNOOP_SERVICE_KEY, src, snoopConfig);
      Ok(ServiceClient(serviceName, "http://" + snoopService))
    }
  }

  /**
   * Without a YAML file the producer still works from the environment: the
   * variable is named by the bare key.
   */
  method LookupWithoutYaml(serviceName: string, address: string) returns (client: Result<ServiceClient, ConfigurationError>)
    ensures client == Ok(ServiceClient(serviceName, "http://" + address))
  {
    var producer := new SnoopProducer();
    producer.Init(LoadFailed);
    client := producer.Lookup(serviceName, Sources(map[], map[SNOOP_SERVICE_KEY := address]));
  }

  /** A system property beats the YAML file. */
  lemma SystemPropertyBeatsYaml(snoopConfig: map<string, string>, fromProperty: string)
    ensures ProducerProperty(SNOOP_SERVICE_KEY, Sources(map[SNOOP_SERVICE_KEY := fromProperty], map[]), snoopConfig) == Ok(fromProperty)
  {
  }
}
