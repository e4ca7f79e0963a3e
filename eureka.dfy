/**
 * `EurekaClient`: the agent that registers with a Eureka server over REST
 * instead of with Snoop: one POST at start-up, a PUT every tick, a DELETE
 * at shutdown.
 */
module Eureka {
  import opened Wrappers
  import opened JavaStrings
  import opened Configuration
  import opened Transport

  const DEFAULT_SERVICE_URI := "http://localhost:8761/eureka/"

  /** The key `readProperties` tests, spelt as in the code, and the key it then reads. */
  const TESTED_ZONE_KEY := "deafaultZone"
  const DEFAULT_ZONE := "defaultZone"

  const APPLICATION_NAME := "applicationName"
  const APPLICATION_HOME := "applicationHome"

  /** The `EurekaConfig` bean; `dataCenterInfo` is never set and is not modelled. */
  datatype EurekaConfig = EurekaConfig(
    hostName: Option<string>, app: Option<string>, ipAddr: Option<string>,
    port: int, securePort: int,
    vipAddress: Option<string>, secureVipAddress: Option<string>,
    status: Option<string>, homePageUrl: Option<string>,
    statusPageUrl: Option<string>, healthCheckUrl: Option<string>)

  /** `new EurekaConfig()`: every reference null, every number zero. */
  const BLANK := EurekaConfig(None, None, None, 0, 0, None, None, None, None, None, None)

  datatype Verb = Post | Put | Delete

  /** One REST call: the verb, the target address and the instance record sent, if any. */
  datatype Request = Request(verb: Verb, target: string, entity: Option<EurekaConfig>)

  /** What a call came to: a response with its status, or a failure to reach the server. */
  datatype HttpOutcome = Responded(status: int) | Unreachable

  /**
   * The parts of `application.yml` `readProperties` reads: the `snoop`
   * section and the map `eureka.client.serviceUrl`. The map is `None` when
   * `eureka`, its `client` entry or that entry's `serviceUrl` is missing;
   * the code then dereferences null.
   */
  datatype EurekaYaml = EurekaYaml(snoop: map<string, string>, serviceUrls: Option<map<string, string>>)

  /**
   * The base address, as the code selects it from the `snoop` section and
   * the Eureka map: the default unless the Eureka map has the key
   * `deafaultZone`, and then the `snoop` section's `defaultZone`, which may
   * be absent.
   */
  function ServiceUrl(snoop: map<string, string>, serviceUrls: map<string, string>): (r: Option<string>)
    ensures TESTED_ZONE_KEY !in serviceUrls ==> r == Some(DEFAULT_SERVICE_URI)
    ensures TESTED_ZONE_KEY in serviceUrls ==> r == Lookup(snoop, DEFAULT_ZONE)
  {
    if TESTED_ZONE_KEY in serviceUrls then Lookup(snoop, DEFAULT_ZONE) else Some(DEFAULT_SERVICE_URI)
  }

  /** A `defaultZone` configured where Eureka clients normally put it is never used. */
  lemma ConfiguredZoneIgnored(snoop: map<string, string>, serviceUrls: map<string, string>)
    requires DEFAULT_ZONE in serviceUrls && TESTED_ZONE_KEY !in serviceUrls
    ensures ServiceUrl(snoop, serviceUrls) == Some(DEFAULT_SERVICE_URI)
  {
  }

  /** The instance record `init` posts. */
  function Registration(applicationName: Option<string>, applicationHome: Option<string>): (r: EurekaConfig)
    ensures r.hostName == applicationName && r.app == applicationName
    ensures r.ipAddr == Some("localhost") && r.port == 8080 && r.status == Some("UP")
    ensures r.homePageUrl == applicationHome
    ensures r.securePort == 0 && r.vipAddress == None && r.secureVipAddress == None
    ensures r.statusPageUrl == None && r.healthCheckUrl == None
  {
    BLANK.(hostName := applicationName, app := applicationName, ipAddr := Some("localhost"),
           port := 8080, status := Some("UP"), homePageUrl := applicationHome)
  }

  /** The record every heartbeat sends: only the status is set. */
  const HEARTBEAT := BLANK.(status := Some("UP"))

  class EurekaClient {
    var applicationName: Option<string>
    var serviceUrl: Option<string>
    var applicationHome: Option<string>
    /** The calendar timers created so far. */
    var timers: seq<Timer>
    /** Every call this agent made, oldest first. */
    var requests: seq<Request>

    constructor ()
      ensures applicationName == None && serviceUrl == None && applicationHome == None
      ensures timers == [] && requests == []
    {
      applicationName, serviceUrl, applicationHome := None, None, None;
      timers, requests := [], [];
    }

    /** `serviceUrl + "apps/" + applicationName`; a null renders as "null". */
    function AppAddress(): string
      reads this
    {
      Show(serviceUrl) + "apps/" + Show(applicationName)
    }

    /** The same address followed by `"/" + applicationName`, the instance's own. */
    function InstanceAddress(): string
      reads this
    {
      AppAddress() + "/" + Show(applicationName)
    }

    /**
     * `readProperties`. The name and home are read first; a missing Eureka
     * map then throws (`thrown`) and leaves the base address as it was.
     */
    method ReadProperties(yaml: EurekaYaml) returns (thrown: bool)
      modifies this
      ensures applicationName == Lookup(yaml.snoop, APPLICATION_NAME)
      ensures applicationHome == Lookup(yaml.snoop, APPLICATION_HOME)
      ensures thrown == yaml.serviceUrls.None?
      ensures yaml.serviceUrls.Some? ==> serviceUrl == ServiceUrl(yaml.snoop, yaml.serviceUrls.value)
      ensures yaml.serviceUrls.None? ==> serviceUrl == old(serviceUrl)
      ensures timers == old(timers) && requests == old(requests)
    {
      applicationName := Lookup(yaml.snoop, APPLICATION_NAME);
      applicationHome := Lookup(yaml.snoop, APPLICATION_HOME);
      if yaml.serviceUrls.None? {
        return true;
      }
      var serviceUrls := yaml.serviceUrls.value;
      serviceUrl := if TESTED_ZONE_KEY in serviceUrls then Lookup(yaml.snoop, DEFAULT_ZONE) else Some(DEFAULT_SERVICE_URI);
      thrown := false;
    }

    /**
     * `init`. When enabled and the Eureka map is there, one POST of the
     * instance record; then one timer, unless the call failed to reach the
     * server, in which case the exception escapes (`thrown`) before the
     * timer is created. Without the Eureka map `readProperties` throws
     * first: nothing is sent and no timer is created.
     */
    method Init(enabled: bool, yaml: EurekaYaml, outcome: HttpOutcome) returns (thrown: bool)
      modifies this
      ensures !enabled ==> !thrown && timers == old(timers) && requests == old(requests)
                           && applicationName == old(applicationName) && serviceUrl == old(serviceUrl)
      ensures enabled && yaml.serviceUrls.None? ==>
                thrown && timers == old(timers) && requests == old(requests)
                && applicationName == Lookup(yaml.snoop, APPLICATION_NAME) && serviceUrl == old(serviceUrl)
      ensures enabled && yaml.serviceUrls.Some? ==>
                var name := Lookup(yaml.snoop, APPLICATION_NAME);
                var home := Lookup(yaml.snoop, APPLICATION_HOME);
                var url := ServiceUrl(yaml.snoop, yaml.serviceUrls.value);
                requests == old(requests) + [Request(Post, Show(url) + "apps/" + Show(name), Some(Registration(name, home)))]
                && thrown == outcome.Unreachable?
                && timers == old(timers) + (if outcome.Unreachable? then [] else [HEARTBEAT_TIMER])
                && applicationName == name && serviceUrl == url
    {
      thrown := false;
      if enabled {
        thrown := ReadProperties(yaml);
        if thrown {
          return;
        }
        var eurekaConfig := Registration(applicationName, applicationHome);
        requests := requests + [Request(Post, Show(serviceUrl) + "apps/" + Show(applicationName), Some(eurekaConfig))];
        if outcome.Unreachable? {
          return true;
        }
        timers := timers + [HEARTBEAT_TIMER];
      }
    }

    /** `health`: one PUT of a record holding only the status, to the instance address. */
    method Health(outcome: HttpOutcome) returns (thrown: bool)
      modifies this
      ensures requests == old(requests) + [Request(Put, InstanceAddress(), Some(HEARTBEAT))]
      ensures thrown == outcome.Unreachable?
      ensures timers == old(timers) && applicationName == old(applicationName) && serviceUrl == old(serviceUrl)
    {
      requests := requests + [Request(Put, Show(serviceUrl) + "apps/" + Show(applicationName) + "/" + Show(applicationName), Some(HEARTBEAT))];
      thrown := outcome.Unreachable?;
    }

    /** `deregister`: one DELETE, with no body, to the instance address. */
    method Deregister(outcome: HttpOutcome) returns (thrown: bool)
      modifies this
      ensures requests == old(requests) + [Request(Delete, InstanceAddress(), None)]
      ensures thrown == outcome.Unreachable?
      ensures timers == old(timers) && applicationName == old(applicationName) && serviceUrl == old(serviceUrl)
    {
      requests := requests + [Request(Delete, Show(serviceUrl) + "apps/" + Show(applicationName) + "/" + Show(applicationName), None)];
      thrown := outcome.Unreachable?;
    }
  }

  /** The calls of a run of ticks: one identical PUT each. */
  function Puts(target: string, n: nat): (r: seq<Request>)
    ensures |r| == n
    ensures forall i :: 0 <= i < n ==> r[i] == Request(Put, target, Some(HEARTBEAT))
  {
    seq(n, _ => Request(Put, target, Some(HEARTBEAT)))
  }

  /** One `health` call per timer tick; a failed call does not stop the next. */
  method Tick(client: EurekaClient, ticks: seq<HttpOutcome>)
    modifies client
    ensures client.requests == old(client.requests) + Puts(old(client.InstanceAddress()), |ticks|)
    ensures client.timers == old(client.timers) && client.applicationName == old(client.applicationName)
    ensures client.serviceUrl == old(client.serviceUrl)
  {
    var target := client.InstanceAddress();
    var before := client.requests;
    for i := 0 to |ticks|
      invariant client.timers == old(client.timers) && client.applicationName == old(client.applicationName)
      invariant client.serviceUrl == old(client.serviceUrl)
      invariant client.requests == before + Puts(target, i)
    {
      var _ := client.Health(ticks[i]);
      assert Puts(target, i + 1) == Puts(target, i) + [Request(Put, target, Some(HEARTBEAT))];
    }
  }

  /**
   * The agent's whole life as its container drives it: `init`, then, if
   * `init` completed, one `health` call per timer tick and `deregister` at
   * shutdown. A missing Eureka map, or a POST that cannot reach the server,
   * makes `init` throw, so the bean never starts: no timer, no ticks and no
   * shutdown call.
   */
  method Lifetime(client: EurekaClient, enabled: bool, yaml: EurekaYaml, registration: HttpOutcome,
                  ticks: seq<HttpOutcome>, farewell: HttpOutcome)
    requires client.requests == [] && client.timers == []
    requires client.applicationName == None && client.serviceUrl == None
    modifies client
    ensures enabled && yaml.serviceUrls.None? ==> client.requests == [] && client.timers == []
    ensures enabled && yaml.serviceUrls.Some? ==>
              var name := Lookup(yaml.snoop, APPLICATION_NAME);
              var app := Show(ServiceUrl(yaml.snoop, yaml.serviceUrls.value)) + "apps/" + Show(name);
              var instance := app + "/" + Show(name);
              var post := Request(Post, app, Some(Registration(name, Lookup(yaml.snoop, APPLICATION_HOME))));
              if registration.Responded? then
                client.requests == [post] + Puts(instance, |ticks|) + [Request(Delete, instance, None)]
                && client.timers == [HEARTBEAT_TIMER]
              else
                client.requests == [post] && client.timers == []
    ensures !enabled ==> client.timers == []
                         && client.requests == [Request(Delete, Show(None) + "apps/" + Show(None) + "/" + Show(None), None)]
  {
    var thrown := client.Init(enabled, yaml, registration);
    if thrown {
      return;
    }
    if |client.timers| > 0 {
      Tick(client, ticks);
    }
    var _ := client.Deregister(farewell);
  }
}
