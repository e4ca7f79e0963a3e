/**
 * `SnoopRegistrationClient`: the agent a service embeds. At start-up it
 * reads its configuration, sends its descriptor to the registry and arms a
 * ten-second timer; every tick and every message from the registry sends
 * the descriptor again to its status address; at shutdown it sends an
 * empty message there.
 */
module RegistrationClient {
  import opened Wrappers
  import opened JavaStrings
  import opened Codec
  import opened Configuration
  import opened Transport

  /** The four settings `readConfiguration` asks for, in the order it asks. */
  const HOST := "host"
  const PORT := "port"
  const SERVICE_ROOT_KEY := "serviceRoot"
  const SNOOP_SERVICE := "snoopService"

  /** What a successful `readConfiguration` settles: the descriptor and the registry's base address. */
  datatype Settings = Settings(descriptor: Descriptor, serviceUrl: string)

  /** `serviceHome`: `host:port/`, from the first two settings. */
  function ServiceHome(serviceName: string, snoopConfig: map<string, string>, src: Sources): (r: Result<string, ConfigurationError>)
    ensures r.Ok? <==> RegistrationProperty(serviceName, HOST, src, snoopConfig).Ok?
                       && RegistrationProperty(serviceName, PORT, src, snoopConfig).Ok?
    ensures r.Ok? ==> r.value == RegistrationProperty(serviceName, HOST, src, snoopConfig).value + ":"
                                 + RegistrationProperty(serviceName, PORT, src, snoopConfig).value + "/"
  {
    var host :- RegistrationProperty(serviceName, HOST, src, snoopConfig);
    var port :- RegistrationProperty(serviceName, PORT, src, snoopConfig);
    Ok(host + ":" + port + "/")
  }

  /** `readConfiguration` as a value: the settings, or the first setting that is missing. */
  function Configure(serviceName: string, yaml: YamlLoad, src: Sources): (r: Result<Settings, ConfigurationError>)
    ensures r.Ok? <==> RegistrationProperty(serviceName, HOST, src, SnoopSection(yaml)).Ok?
                       && RegistrationProperty(serviceName, PORT, src, SnoopSection(yaml)).Ok?
                       && RegistrationProperty(serviceName, SERVICE_ROOT_KEY, src, SnoopSection(yaml)).Ok?
                       && RegistrationProperty(serviceName, SNOOP_SERVICE, src, SnoopSection(yaml)).Ok?
    ensures RegistrationProperty(serviceName, HOST, src, SnoopSection(yaml)).Err? ==>
              r == Err(ConfigurationError(HOST + REGISTRATION_HINT))
    ensures RegistrationProperty(serviceName, HOST, src, SnoopSection(yaml)).Ok?
            && RegistrationProperty(serviceName, PORT, src, SnoopSection(yaml)).Err? ==>
              r == Err(ConfigurationError(PORT + REGISTRATION_HINT))
    ensures ServiceHome(serviceName, SnoopSection(yaml), src).Ok?
            && RegistrationProperty(serviceName, SERVICE_ROOT_KEY, src, SnoopSection(yaml)).Err? ==>
              r == Err(ConfigurationError(SERVICE_ROOT_KEY + REGISTRATION_HINT))
    ensures ServiceHome(serviceName, SnoopSection(yaml), src).Ok?
            && RegistrationProperty(serviceName, SERVICE_ROOT_KEY, src, SnoopSection(yaml)).Ok?
            && RegistrationProperty(serviceName, SNOOP_SERVICE, src, SnoopSection(yaml)).Err? ==>
              r == Err(ConfigurationError(SNOOP_SERVICE + REGISTRATION_HINT))
    ensures r.Ok? ==> r.value.descriptor.serviceName == serviceName
                      && r.value.serviceUrl == "ws://" + RegistrationProperty(serviceName, SNOOP_SERVICE, src, SnoopSection(yaml)).value
                      && r.value.descriptor.serviceRoot == RegistrationProperty(serviceName, SERVICE_ROOT_KEY, src, SnoopSection(yaml)).value
                      && Ok(r.value.descriptor.serviceHome) == ServiceHome(serviceName, SnoopSection(yaml), src)
  {
    var snoopConfig := SnoopSection(yaml);
    var home :- ServiceHome(serviceName, snoopConfig, src);
    var root :- RegistrationProperty(serviceName, SERVICE_ROOT_KEY, src, snoopConfig);
    var snoopService :- RegistrationProperty(serviceName, SNOOP_SERVICE, src, snoopConfig);
    Ok(Settings(Descriptor(serviceName, home, root), "ws://" + snoopService))
  }

  /** With no system properties or environment, every setting comes from the YAML file. */
  lemma ConfigureFromYaml(serviceName: string, snoop: map<string, string>)
    requires HOST in snoop && PORT in snoop && SERVICE_ROOT_KEY in snoop && SNOOP_SERVICE in snoop
    ensures Configure(serviceName, Loaded(snoop), Sources(map[], map[])) ==
            Ok(Settings(Descriptor(serviceName, snoop[HOST] + ":" + snoop[PORT] + "/", snoop[SERVICE_ROOT_KEY]),
                        "ws://" + snoop[SNOOP_SERVICE]))
  {
  }

  /** Without a YAML file, system properties or environment, the first setting asked for is the one reported. */
  lemma NothingConfigured(serviceName: string)
    ensures Configure(serviceName, LoadFailed, Sources(map[], map[])) == Err(ConfigurationError(HOST + REGISTRATION_HINT))
  {
  }

  class SnoopRegistrationClient {
    var serviceUrl: Option<string>
    const applicationConfig: SnoopConfig
    /** The calendar timers created so far. */
    var timers: seq<Timer>
    /** Every message this agent tried to send, oldest first. */
    var trace: seq<Attempt>

    constructor ()
      ensures serviceUrl == None && timers == [] && trace == []
      ensures fresh(applicationConfig)
      ensures applicationConfig.serviceName == None && applicationConfig.serviceHome == None && applicationConfig.serviceRoot == None
    {
      serviceUrl, timers, trace := None, [], [];
      applicationConfig := new SnoopConfig();
    }

    /** `STATUS_ENDPOINT + getServiceName()` appended to the base address; a null renders as "null". */
    function StatusAddress(): string
      reads this, applicationConfig
    {
      Show(serviceUrl) + (STATUS_ENDPOINT + Show(applicationConfig.serviceName))
    }

    /**
     * `sendMessage`: one attempt to `serviceUrl + endpoint`; a null message
     * goes out as the empty string. Failures are swallowed and give "-1".
     */
    method SendMessage(endpoint: string, msg: Option<string>, outcome: SendOutcome) returns (returnValue: string)
      modifies this
      ensures trace == old(trace) + [Attempt(Show(serviceUrl) + endpoint, if msg.Some? then msg.value else "", outcome.Delivered?)]
      ensures returnValue == ReturnValue(outcome)
      ensures serviceUrl == old(serviceUrl) && timers == old(timers)
    {
      returnValue := NO_SESSION;
      var uri := Show(serviceUrl) + endpoint;
      trace := trace + [Attempt(uri, if msg.Some? then msg.value else "", outcome.Delivered?)];
      if outcome.Delivered? {
        returnValue := outcome.sessionId;
      }
    }

    /** `register`: send the descriptor to the registration address, then arm one timer. */
    method Register(clientId: string, outcome: SendOutcome)
      requires applicationConfig.Complete()
      modifies this
      ensures trace == old(trace) + [Attempt(Show(serviceUrl) + REGISTER_ENDPOINT, Encode(applicationConfig.Value()), outcome.Delivered?)]
      ensures timers == old(timers) + [HEARTBEAT_TIMER]
      ensures serviceUrl == old(serviceUrl)
    {
      var _ := SendMessage(REGISTER_ENDPOINT, Some(applicationConfig.ToJson()), outcome);
      timers := timers + [HEARTBEAT_TIMER];
    }

    /** `health`: each timer tick sends the descriptor to the status address. */
    method Health(outcome: SendOutcome)
      requires applicationConfig.Complete()
      modifies this
      ensures trace == old(trace) + [Attempt(StatusAddress(), Encode(applicationConfig.Value()), outcome.Delivered?)]
      ensures serviceUrl == old(serviceUrl) && timers == old(timers)
    {
      var _ := SendMessage(STATUS_ENDPOINT + Show(applicationConfig.serviceName), Some(applicationConfig.ToJson()), outcome);
    }

    /** `onMessage`: a message from the registry is answered like a tick. */
    method OnMessage(message: string, outcome: SendOutcome)
      requires applicationConfig.Complete()
      modifies this
      ensures trace == old(trace) + [Attempt(StatusAddress(), Encode(applicationConfig.Value()), outcome.Delivered?)]
      ensures serviceUrl == old(serviceUrl) && timers == old(timers)
    {
      var _ := SendMessage(STATUS_ENDPOINT + Show(applicationConfig.serviceName), Some(applicationConfig.ToJson()), outcome);
    }

    /** `deregister`: one null message, sent as "", to the status address. */
    method Deregister(outcome: SendOutcome)
      modifies this
      ensures trace == old(trace) + [Attempt(StatusAddress(), "", outcome.Delivered?)]
      ensures serviceUrl == old(serviceUrl) && timers == old(timers)
    {
      var _ := SendMessage(STATUS_ENDPOINT + Show(applicationConfig.serviceName), None, outcome);
    }

    /**
     * `readConfiguration`. The name is set first; each setting then either
     * resolves or throws, so a failure leaves the fields set so far.
     */
    method ReadConfiguration(serviceName: string, yaml: YamlLoad, src: Sources) returns (thrown: Option<ConfigurationError>)
      modifies this, applicationConfig
      ensures applicationConfig.serviceName == Some(serviceName)
      ensures var home := ServiceHome(serviceName, SnoopSection(yaml), src);
              if home.Ok? then applicationConfig.serviceHome == Some(home.value)
              else applicationConfig.serviceHome == old(applicationConfig.serviceHome)
      ensures var home := ServiceHome(serviceName, SnoopSection(yaml), src);
              var root := RegistrationProperty(serviceName, SERVICE_ROOT_KEY, src, SnoopSection(yaml));
              if home.Ok? && root.Ok? then applicationConfig.serviceRoot == Some(root.value)
              else applicationConfig.serviceRoot == old(applicationConfig.serviceRoot)
      ensures match Configure(serviceName, yaml, src)
              case Ok(settings) => thrown == None && serviceUrl == Some(settings.serviceUrl)
                                   && applicationConfig.Complete() && applicationConfig.Value() == settings.descriptor
              case Err(e) => thrown == Some(e) && serviceUrl == old(serviceUrl)
      ensures trace == old(trace) && timers == old(timers)
    {
      var snoopConfig := SnoopSection(yaml);
      applicationConfig.SetServiceName(serviceName);
      var host := RegistrationProperty(serviceName, HOST, src, snoopConfig);
      if host.Err? {
        return Some(host.error);
      }
      var port := RegistrationProperty(serviceName, PORT, src, snoopConfig);
      if port.Err? {
        return Some(port.error);
      }
      applicationConfig.SetServiceHome(host.value + ":" + port.value + "/");
      var root := RegistrationProperty(serviceName, SERVICE_ROOT_KEY, src, snoopConfig);
      if root.Err? {
        return Some(root.error);
      }
      applicationConfig.SetServiceRoot(root.value);
      var snoopService := RegistrationProperty(serviceName, SNOOP_SERVICE, src, snoopConfig);
      if snoopService.Err? {
        return Some(snoopService.error);
      }
      serviceUrl := Some("ws://" + snoopService.value);
      thrown := None;
    }

    /**
     * `init`. When enabled and configured, exactly one registration goes out
     * and one timer is armed; a configuration error is caught and nothing is
     * sent; when disabled nothing happens at all.
     */
    method Init(enabled: bool, serviceName: string, yaml: YamlLoad, src: Sources, outcome: SendOutcome)
      modifies this, applicationConfig
      ensures !enabled ==> trace == old(trace) && timers == old(timers) && serviceUrl == old(serviceUrl)
                           && unchanged(applicationConfig)
      ensures enabled ==>
                match Configure(serviceName, yaml, src)
                case Ok(settings) =>
                  trace == old(trace) + [Attempt(settings.serviceUrl + REGISTER_ENDPOINT, Encode(settings.descriptor), outcome.Delivered?)]
                  && timers == old(timers) + [HEARTBEAT_TIMER]
                  && serviceUrl == Some(settings.serviceUrl)
                  && applicationConfig.Complete() && applicationConfig.Value() == settings.descriptor
                case Err(_) =>
                  trace == old(trace) && timers == old(timers) && serviceUrl == old(serviceUrl)
                  && applicationConfig.serviceName == Some(serviceName)
                  && (var home := ServiceHome(serviceName, SnoopSection(yaml), src);
                      var root := RegistrationProperty(serviceName, SERVICE_ROOT_KEY, src, SnoopSection(yaml));
                      (if home.Ok? then applicationConfig.serviceHome == Some(home.value)
                       else applicationConfig.serviceHome == old(applicationConfig.serviceHome))
                      && (if home.Ok? && root.Ok? then applicationConfig.serviceRoot == Some(root.value)
                          else applicationConfig.serviceRoot == old(applicationConfig.serviceRoot)))
    {
      if enabled {
        var thrown := ReadConfiguration(serviceName, yaml, src);
        if thrown.None? {
          Register(serviceName, outcome);
        }
      }
    }
  }

  /** One `health` call per timer tick; whatever each send comes to, the next tick still sends. */
  method Tick(client: SnoopRegistrationClient, ticks: seq<SendOutcome>)
    requires client.applicationConfig.Complete()
    modifies client
    ensures client.trace == old(client.trace) + Ticks(old(client.StatusAddress()), Encode(client.applicationConfig.Value()), ticks)
    ensures client.serviceUrl == old(client.serviceUrl) && client.timers == old(client.timers)
  {
    var status := client.StatusAddress();
    var json := Encode(client.applicationConfig.Value());
    var url := client.serviceUrl;
    var before := client.trace;
    for i := 0 to |ticks|
      invariant client.serviceUrl == url && client.timers == old(client.timers)
      invariant client.trace == before + Ticks(status, json, ticks[..i])
    {
      TicksStep(status, json, ticks, i);
      client.Health(ticks[i]);
    }
    assert ticks[..|ticks|] == ticks;
  }

  /**
   * The agent's whole life as its container drives it: `init`, one `health`
   * call per timer tick while a timer exists, and `deregister` at shutdown.
   * The outcome of every send is given; none of them stops the next.
   */
  method Lifetime(client: SnoopRegistrationClient, enabled: bool, serviceName: string, yaml: YamlLoad, src: Sources,
                  registration: SendOutcome, ticks: seq<SendOutcome>, farewell: SendOutcome)
    requires client.trace == [] && client.timers == [] && client.serviceUrl == None
    modifies client, client.applicationConfig
    ensures enabled && Configure(serviceName, yaml, src).Ok? ==>
              var settings := Configure(serviceName, yaml, src).value;
              var status := settings.serviceUrl + (STATUS_ENDPOINT + serviceName);
              var json := Encode(settings.descriptor);
              client.trace == [Attempt(settings.serviceUrl + REGISTER_ENDPOINT, json, registration.Delivered?)]
                              + Ticks(status, json, ticks)
                              + [Attempt(status, "", farewell.Delivered?)]
    ensures enabled && Configure(serviceName, yaml, src).Err? ==>
              client.timers == [] && client.serviceUrl == None
              && client.trace == [Attempt(Show(None) + (STATUS_ENDPOINT + serviceName), "", farewell.Delivered?)]
    ensures !enabled ==>
              client.timers == [] && client.serviceUrl == None
              && client.trace == [Attempt(Show(None) + (STATUS_ENDPOINT + Show(old(client.applicationConfig.serviceName))), "", farewell.Delivered?)]
  {
    ghost var configured := Configure(serviceName, yaml, src);
    client.Init(enabled, serviceName, yaml, src, registration);
    if |client.timers| > 0 {
      ghost var status := client.StatusAddress();
      assert enabled && configured.Ok?;
      assert status == configured.value.serviceUrl + (STATUS_ENDPOINT + serviceName);
      Tick(client, ticks);
      assert client.StatusAddress() == status;
    }
    client.Deregister(farewell);
  }

  /**
   * Over a whole life with `k` ticks, exactly one message goes to the
   * registration address and `k + 1` to the status address, the last of
   * them empty.
   */
  lemma LifetimeCounts(serviceUrl: string, serviceName: string, json: string,
                       registration: SendOutcome, ticks: seq<SendOutcome>, farewell: SendOutcome)
    ensures var status := serviceUrl + (STATUS_ENDPOINT + serviceName);
            var register := serviceUrl + REGISTER_ENDPOINT;
            var trace := [Attempt(register, json, registration.Delivered?)] + Ticks(status, json, ticks)
                         + [Attempt(status, "", farewell.Delivered?)];
            CountTo(trace, register) == 1 && CountTo(trace, status) == |ticks| + 1
            && trace[|trace| - 1].payload == ""
  {
    var status := serviceUrl + (STATUS_ENDPOINT + serviceName);
    var register := serviceUrl + REGISTER_ENDPOINT;
    assert |register| != |status|;
    var first := [Attempt(register, json, registration.Delivered?)];
    var last := [Attempt(status, "", farewell.Delivered?)];
    var middle := Ticks(status, json, ticks);
    CountToTicks(status, json, ticks, register);
    CountToAppend(first, middle, register);
    CountToAppend(first + middle, last, register);
    CountToAppend(first, middle, status);
    CountToAppend(first + middle, last, status);
    assert first[..0] == [] && last[..0] == [];
  }
}
