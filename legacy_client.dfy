/**
 * `SnoopClient`: the older agent. It registers with a bare name rather than
 * a descriptor, says "UP" on every tick and "OUT_OF_SERVICE" at shutdown.
 */
module LegacyClient {
  import opened Wrappers
  import opened JavaStrings
  import opened Configuration
  import opened Transport

  const DEFAULT_BASE_URI := "ws://localhost:8080/snoop-service/"
  const UP := "UP"
  const OUT_OF_SERVICE := "OUT_OF_SERVICE"

  /** The two entries `readProperties` takes from the `snoop` section of `application.yml`. */
  const APPLICATION_NAME := "applicationName"
  const SERVICE_URL := "serviceUrl"

  /** The base address: the configured `serviceUrl`, or the default when there is none. */
  function BaseUri(snoop: map<string, string>): (r: string)
    ensures SERVICE_URL in snoop ==> r == snoop[SERVICE_URL]
    ensures SERVICE_URL !in snoop ==> r == DEFAULT_BASE_URI
  {
    if SERVICE_URL in snoop then snoop[SERVICE_URL] else DEFAULT_BASE_URI
  }

  /** The name `init` registers: the configured one when present, else the annotation's. */
  function RegistrationName(snoop: map<string, string>, annotationName: string): (r: string)
    ensures APPLICATION_NAME in snoop ==> r == snoop[APPLICATION_NAME]
    ensures APPLICATION_NAME !in snoop ==> r == annotationName
  {
    if APPLICATION_NAME in snoop then snoop[APPLICATION_NAME] else annotationName
  }

  class SnoopClient {
    var serviceUrl: Option<string>
    var applicationName: Option<string>
    /** The calendar timers created so far. */
    var timers: seq<Timer>
    /** Every message this agent tried to send, oldest first. */
    var trace: seq<Attempt>

    constructor ()
      ensures serviceUrl == None && applicationName == None && timers == [] && trace == []
    {
      serviceUrl, applicationName, timers, trace := None, None, [], [];
    }

    /** `STATUS_ENDPOINT + applicationName` appended to the base address; a null renders as "null". */
    function StatusAddress(): string
      reads this
    {
      Show(serviceUrl) + (STATUS_ENDPOINT + Show(applicationName))
    }

    /** `sendMessage`: as in the registration client, one attempt, "-1" on failure. */
    method SendMessage(endpoint: string, msg: Option<string>, outcome: SendOutcome) returns (returnValue: string)
      modifies this
      ensures trace == old(trace) + [Attempt(Show(serviceUrl) + endpoint, if msg.Some? then msg.value else "", outcome.Delivered?)]
      ensures returnValue == ReturnValue(outcome)
      ensures serviceUrl == old(serviceUrl) && applicationName == old(applicationName) && timers == old(timers)
    {
      returnValue := NO_SESSION;
      var uri := Show(serviceUrl) + endpoint;
      trace := trace + [Attempt(uri, if msg.Some? then msg.value else "", outcome.Delivered?)];
      if outcome.Delivered? {
        returnValue := outcome.sessionId;
      }
    }

    /** `readProperties`: the name may stay null; the base address falls back to the default. */
    method ReadProperties(snoop: map<string, string>)
      modifies this
      ensures applicationName == Lookup(snoop, APPLICATION_NAME)
      ensures serviceUrl == Some(BaseUri(snoop))
      ensures trace == old(trace) && timers == old(timers)
    {
      applicationName := Lookup(snoop, APPLICATION_NAME);
      serviceUrl := Some(if SERVICE_URL in snoop then snoop[SERVICE_URL] else DEFAULT_BASE_URI);
    }

    /** `register`: send the bare client id to the registration address, then arm one timer. */
    method Register(clientId: string, outcome: SendOutcome)
      modifies this
      ensures trace == old(trace) + [Attempt(Show(serviceUrl) + REGISTER_ENDPOINT, clientId, outcome.Delivered?)]
      ensures timers == old(timers) + [HEARTBEAT_TIMER]
      ensures serviceUrl == old(serviceUrl) && applicationName == old(applicationName)
    {
      var _ := SendMessage(REGISTER_ENDPOINT, Some(clientId), outcome);
      timers := timers + [HEARTBEAT_TIMER];
    }

    /** `health`: each tick says "UP" at the status address. */
    method Health(outcome: SendOutcome)
      modifies this
      ensures trace == old(trace) + [Attempt(StatusAddress(), UP, outcome.Delivered?)]
      ensures serviceUrl == old(serviceUrl) && applicationName == old(applicationName) && timers == old(timers)
    {
      var _ := SendMessage(STATUS_ENDPOINT + Show(applicationName), Some(UP), outcome);
    }

    /** `onMessage`: a message from the registry is answered with "UP". */
    method OnMessage(message: string, outcome: SendOutcome)
      modifies this
      ensures trace == old(trace) + [Attempt(StatusAddress(), UP, outcome.Delivered?)]
      ensures serviceUrl == old(serviceUrl) && applicationName == old(applicationName) && timers == old(timers)
    {
      var _ := SendMessage(STATUS_ENDPOINT + Show(applicationName), Some(UP), outcome);
    }

    /** `deregister`: "OUT_OF_SERVICE", not an empty message, at the status address. */
    method Deregister(outcome: SendOutcome)
      modifies this
      ensures trace == old(trace) + [Attempt(StatusAddress(), OUT_OF_SERVICE, outcome.Delivered?)]
      ensures serviceUrl == old(serviceUrl) && applicationName == old(applicationName) && timers == old(timers)
    {
      var _ := SendMessage(STATUS_ENDPOINT + Show(applicationName), Some(OUT_OF_SERVICE), outcome);
    }

    /**
     * `init`. When enabled: read the settings and register under the
     * configured name, or under the annotation's name when none is
     * configured; the status address keeps using the field either way.
     */
    method Init(enabled: bool, snoop: map<string, string>, annotationName: string, outcome: SendOutcome)
      modifies this
      ensures !enabled ==> trace == old(trace) && timers == old(timers)
                           && serviceUrl == old(serviceUrl) && applicationName == old(applicationName)
      ensures enabled ==>
                trace == old(trace) + [Attempt(BaseUri(snoop) + REGISTER_ENDPOINT, RegistrationName(snoop, annotationName), outcome.Delivered?)]
                && timers == old(timers) + [HEARTBEAT_TIMER]
                && StatusAddress() == BaseUri(snoop) + (STATUS_ENDPOINT + Show(Lookup(snoop, APPLICATION_NAME)))
    {
      if enabled {
        ReadProperties(snoop);
        if applicationName.Some? {
          Register(applicationName.value, outcome);
        } else {
          Register(annotationName, outcome);
        }
      }
    }
  }

  /**
   * Without a configured name the client registers under the annotation's
   * name but sends its heartbeats to `snoopstatus/null`.
   */
  lemma UnnamedHeartbeatAddress(snoop: map<string, string>, annotationName: string)
    requires APPLICATION_NAME !in snoop
    ensures RegistrationName(snoop, annotationName) == annotationName
    ensures BaseUri(snoop) + (STATUS_ENDPOINT + Show(Lookup(snoop, APPLICATION_NAME))) == BaseUri(snoop) + "snoopstatus/null"
  {
  }

  /** One `health` call per timer tick; none of the outcomes stops the next tick. */
  method Tick(client: SnoopClient, ticks: seq<SendOutcome>)
    modifies client
    ensures client.trace == old(client.trace) + Ticks(old(client.StatusAddress()), UP, ticks)
    ensures client.serviceUrl == old(client.serviceUrl) && client.applicationName == old(client.applicationName)
    ensures client.timers == old(client.timers)
  {
    var status := client.StatusAddress();
    var before := client.trace;
    for i := 0 to |ticks|
      invariant client.serviceUrl == old(client.serviceUrl) && client.applicationName == old(client.applicationName)
      invariant client.timers == old(client.timers)
      invariant client.trace == before + Ticks(status, UP, ticks[..i])
    {
      TicksStep(status, UP, ticks, i);
      client.Health(ticks[i]);
    }
    assert ticks[..|ticks|] == ticks;
  }

  /** The agent's whole life as its container drives it: `init`, the ticks while a timer exists, `deregister`. */
  method Lifetime(client: SnoopClient, enabled: bool, snoop: map<string, string>, annotationName: string,
                  registration: SendOutcome, ticks: seq<SendOutcome>, farewell: SendOutcome)
    requires client.trace == [] && client.timers == []
    requires client.serviceUrl == None && client.applicationName == None
    modifies client
    ensures enabled ==>
              var status := BaseUri(snoop) + (STATUS_ENDPOINT + Show(Lookup(snoop, APPLICATION_NAME)));
              client.trace == [Attempt(BaseUri(snoop) + REGISTER_ENDPOINT, RegistrationName(snoop, annotationName), registration.Delivered?)]
                              + Ticks(status, UP, ticks)
                              + [Attempt(status, OUT_OF_SERVICE, farewell.Delivered?)]
              && client.timers == [HEARTBEAT_TIMER]
    ensures !enabled ==>
              client.timers == []
              && client.trace == [Attempt(Show(None) + (STATUS_ENDPOINT + Show(None)), OUT_OF_SERVICE, farewell.Delivered?)]
  {
    client.Init(enabled, snoop, annotationName, registration);
    if |client.timers| > 0 {
      Tick(client, ticks);
    }
    client.Deregister(farewell);
  }
}
