# Snoop service registry in Dafny

Snoop is a small service registry for Java EE microservices. Each service
embeds an agent. At start-up the agent reads its settings, sends its
descriptor (`serviceName`, `serviceHome`, `serviceRoot`) to the registry over
a WebSocket and arms a ten-second calendar timer. On every tick it sends the
descriptor again to its status address, and at shutdown it sends one last
message there. The registry server keeps two maps keyed by service name: the
time of the last heartbeat and the last descriptor. It derives liveness when
the maps are read (a heartbeat less than 60000 ms old), and it serves two REST
views: an unfiltered listing and a lookup that answers only for live names.

This project models that core and proves properties of it:

- `json.dfy`: JSON texts (RFC 8259). The reader accepts any JSON text. The
  writer covers the one shape the descriptor codec emits, a flat object of
  string members. The writer and reader round-trip.
- `codec.dfy`: the descriptor, `toJSON`/`fromJSON`, and the `SnoopConfig`
  bean with its setters.
- `registry.dfy`: the registry's two maps as a value (`Store`) with its
  queries. It also holds the `SnoopClientRegistry` class, whose `register`
  and `deRegister` change those maps in place.
- `endpoint.dfy`: the heartbeat endpoint, which registers a non-empty
  payload and deregisters on an empty or absent one.
- `services.dfy`: the REST resource `services` (`all` and `lookup`).
- `configuration.dfy`: the `readProperty` chain. It tries a system property,
  then an environment variable, then the YAML file's `snoop` section, and
  otherwise raises a configuration error.
- `transport.dfy`: send outcomes, the record of each attempted message, the
  heartbeat timer and the shapes of runs of ticks.
- `registration_client.dfy`: the agent `SnoopRegistrationClient`.
- `legacy_client.dfy`: the older agent `SnoopClient`, which sends a bare
  name, then "UP", then "OUT_OF_SERVICE".
- `eureka.dfy`: `EurekaClient`, which registers with a Eureka server by
  POST, PUT and DELETE.
- `producer.dfy`: `SnoopProducer`, which builds the client an application
  injects to call another service.
- `interop.dfy`: what the server does with each agent's messages.

The model has these conventions:

- The wall clock is an explicit `now` in milliseconds.
- System properties and the environment are maps.
- The YAML loader's result is a value: either the `snoop` section or a load
  failure.
- A send is given its outcome, either delivered with a session id or failed.
  The two WebSocket agents, `SnoopRegistrationClient` and `SnoopClient`,
  record every attempt (address, payload, delivered) in a `trace` field.
  `EurekaClient` records each REST call (verb, address, entity) in a
  `requests` field; the call's outcome shows only as a thrown exception.
  Every agent records each timer it creates in a `timers` field.
- Timer ticks are explicit calls. `Tick` and `Lifetime` drive an agent
  through the container's calls, init, the ticks and shutdown, and state the
  whole resulting trace.
- A Java `null` string is an `Option`. String concatenation renders `None`
  as "null".

The code behaves as follows where one might expect otherwise, and the model
keeps that behaviour:

- A configuration error in the registration agent is caught and logged at
  start-up (`SnoopRegistrationClient.java:87-89`). The agent then sends
  nothing and arms no timer, but start-up continues.
- Shutdown does not cancel the timer; it only sends the farewell message.
- The older agent's messages are not in the descriptor protocol. The server
  rejects its "UP" and "OUT_OF_SERVICE" as malformed JSON
  (`Interop.LegacyMessagesRejected`), so its farewell never deregisters it.
- `EurekaClient` throws before it sends anything when `application.yml`
  has no `eureka.client.serviceUrl` map, because it dereferences each level
  of it (`EurekaClient.java:146-150`).
- `EurekaClient` chooses its base address by testing the misspelt key
  `deafaultZone` in the Eureka section, and then reads `defaultZone` from
  the `snoop` section. The model keeps this as written
  (`Eureka.ConfiguredZoneIgnored`).

## Model

| member | source | states |
|---|---|---|
| Json.Get | snoop-service/src/main/java/eu/agilejava/snoop/SnoopConfig.java:89-93 | a member lookup is absent exactly when no member has the name; otherwise it is the value of the last member with that name |
| Json.StringRoundTrip | snoop-service/src/main/java/eu/agilejava/snoop/SnoopConfig.java:73-76 | the escaped form of any string, followed by its closing quotation mark, reads back as that string, and reading stops right after the mark |
| Json.ObjectRoundTrip | snoop-service/src/main/java/eu/agilejava/snoop/SnoopConfig.java:68-93 | any flat object of string members that the writer emits reads back as an object with the same members in the same order |
| Json.BadStartRejected | snoop-service/src/main/java/eu/agilejava/snoop/SnoopConfig.java:87-89 | text whose first character is neither whitespace nor the start of a JSON value is rejected by the reader |
| Codec.DecodeMembers | snoop-service/src/main/java/eu/agilejava/snoop/SnoopConfig.java:91-93 | reading succeeds exactly when all three members are present and hold strings, and then yields those strings; a missing `serviceName` is a missing-member error and a non-string one is a not-a-string error |
| Codec.Decode | snoop-service/src/main/java/eu/agilejava/snoop/SnoopConfig.java:83-97 | text that is not JSON is malformed; JSON that is not an object is rejected; otherwise the result is that of reading the three members |
| Codec.EncodeShape | snoop-service/src/main/java/eu/agilejava/snoop/SnoopConfig.java:73-77 | `toJSON` writes exactly one object holding `serviceName`, `serviceHome` and `serviceRoot`, in that order, as strings |
| Codec.RoundTrip | snoop-service/src/main/java/eu/agilejava/snoop/SnoopConfig.java:68-97 | `fromJSON(toJSON(d))` succeeds and gives back `d` for every descriptor |
| Codec.IgnoresOtherMembers | snoop-service/src/main/java/eu/agilejava/snoop/SnoopConfig.java:89-93 | `fromJSON` gives the same result once every member other than the three it reads is dropped |
| Codec.SnoopConfig.constructor | snoop-service/src/main/java/eu/agilejava/snoop/SnoopConfig.java:40-42 | a new bean has all three fields null |
| Codec.SnoopConfig.SetServiceName | snoop-service/src/main/java/eu/agilejava/snoop/SnoopConfig.java:48-50 | the name is set and the other two fields are unchanged |
| Codec.SnoopConfig.SetServiceHome | snoop-service/src/main/java/eu/agilejava/snoop/SnoopConfig.java:56-58 | the home is set and the other two fields are unchanged |
| Codec.SnoopConfig.SetServiceRoot | snoop-service/src/main/java/eu/agilejava/snoop/SnoopConfig.java:64-66 | the root is set and the other two fields are unchanged |
| Codec.SnoopConfig.ToJson | snoop-service/src/main/java/eu/agilejava/snoop/SnoopConfig.java:68-81 | with every field set, the text written is an object that reads back as the bean's three fields; writing reads the bean and changes nothing |
| Registry.Store.Register | snoop-service/src/main/java/eu/agilejava/snoop/SnoopClientRegistry.java:50-53 | the descriptor's name maps to `now` and to the descriptor; every other name is unchanged in both maps; the same-keys invariant is preserved |
| Registry.Store.DeRegister | snoop-service/src/main/java/eu/agilejava/snoop/SnoopClientRegistry.java:58-60 | the name is absent from both maps afterwards; every other name is unchanged; the invariant is preserved |
| Registry.Store.LiveClients | snoop-service/src/main/java/eu/agilejava/snoop/SnoopClientRegistry.java:65-69 | a name is listed if and only if it is stored and its last heartbeat is strictly less than 60000 ms before `now` |
| Registry.Store.ServiceConfigs | snoop-service/src/main/java/eu/agilejava/snoop/SnoopClientRegistry.java:72-74 | in a valid store, a descriptor is listed if and only if it is stored under its own name, whatever its age |
| Registry.Store.ClientConfig | snoop-service/src/main/java/eu/agilejava/snoop/SnoopClientRegistry.java:76-85 | a descriptor is returned only for a live name, and it is the stored one; in a valid store it is present exactly when the name is live |
| Registry.RegisterTwice | snoop-service/src/main/java/eu/agilejava/snoop/SnoopClientRegistry.java:52-53 | registering the same name twice equals registering only the second descriptor at the second time |
| Registry.DeRegisterAbsent | snoop-service/src/main/java/eu/agilejava/snoop/SnoopClientRegistry.java:58-60 | deregistering a name that is not stored changes nothing |
| Registry.RegisteredIsLive | snoop-service/src/main/java/eu/agilejava/snoop/SnoopClientRegistry.java:50-85 | a registration is live exactly while less than 60000 ms have passed, and its descriptor can be looked up meanwhile |
| Registry.TtlBoundary | snoop-service/src/main/java/eu/agilejava/snoop/SnoopClientRegistry.java:65-85 | an entry exactly 60000 ms old is not live and cannot be looked up, one millisecond earlier it was live, and it is still listed |
| Registry.DeRegisterThenNotFound | snoop-service/src/main/java/eu/agilejava/snoop/SnoopClientRegistry.java:58-85 | after deregistering a name its lookup is empty and no listed descriptor carries the name |
| Registry.ServiceConfigsCount | snoop-service/src/main/java/eu/agilejava/snoop/SnoopClientRegistry.java:72-74 | in a valid store the listing holds as many descriptors as there are names |
| Registry.RegisterAll | snoop-service/src/main/java/eu/agilejava/snoop/SnoopClientRegistry.java:50-53 | a run of registrations stores exactly the earlier names plus the registered ones, each registered name at `now`, and keeps the invariant |
| Registry.RegisterDistinct | snoop-service/src/main/java/eu/agilejava/snoop/SnoopClientRegistry.java:50-69 | registering N distinct names in an empty registry leaves exactly those N names live |
| Registry.ExpiryScenario | snoop-service/src/main/java/eu/agilejava/snoop/SnoopClientRegistry.java:50-85 | "svc-a" registered at time 0 is the only live name; at 61000 ms no name is live and its lookup is empty, but the listing still holds its descriptor unchanged |
| Registry.SnoopClientRegistry.constructor | snoop-service/src/main/java/eu/agilejava/snoop/SnoopClientRegistry.java:47-48 | both maps start empty, which satisfies the invariant |
| Registry.SnoopClientRegistry.Register | snoop-service/src/main/java/eu/agilejava/snoop/SnoopClientRegistry.java:50-56 | the maps become those of `Store.Register` applied to the old maps, and the invariant is kept |
| Registry.SnoopClientRegistry.DeRegister | snoop-service/src/main/java/eu/agilejava/snoop/SnoopClientRegistry.java:58-63 | the maps become those of `Store.DeRegister` applied to the old maps, and the invariant is kept |
| Endpoint.Dispatch | snoop-service/src/main/java/eu/agilejava/snoop/SnoopStatusEndpoint.java:61-65 | a null or empty payload deregisters the path's client id; any other payload is decoded and registered, or its decoding error leaves the store as it was; a valid store stays valid |
| Endpoint.RegisterIgnoresPath | snoop-service/src/main/java/eu/agilejava/snoop/SnoopStatusEndpoint.java:61-62 | with a payload, the path's client id makes no difference to the outcome |
| Endpoint.OneNameChanged | snoop-service/src/main/java/eu/agilejava/snoop/SnoopStatusEndpoint.java:61-65 | a message changes no name other than the decoded one (register) or the path's one (deregister) |
| Endpoint.HeartbeatRegisters | snoop-service/src/main/java/eu/agilejava/snoop/SnoopStatusEndpoint.java:61-62 | a heartbeat carrying `toJSON` of a descriptor registers exactly that descriptor |
| Endpoint.SnoopStatusEndpoint.constructor | snoop-service/src/main/java/eu/agilejava/snoop/SnoopStatusEndpoint.java:45-46 | the endpoint holds the registry it is given |
| Endpoint.SnoopStatusEndpoint.OnMessage | snoop-service/src/main/java/eu/agilejava/snoop/SnoopStatusEndpoint.java:56-66 | the registry changes exactly as `Dispatch` says, or stays unchanged while the decoding error is thrown; its invariant is kept |
| Services.All | snoop-service/src/main/java/eu/agilejava/snoop/api/ServicesResource.java:49-57 | status 200 with the `Access-Control-Allow-Origin: *` header and a listing of every stored descriptor, live or not |
| Services.Lookup | snoop-service/src/main/java/eu/agilejava/snoop/api/ServicesResource.java:59-66 | 200 with the descriptor exactly when the registry returns one, otherwise 404 with no entity; in a valid store, 200 exactly when the name is live |
| Services.StaleListedButNotFound | snoop-service/src/main/java/eu/agilejava/snoop/api/ServicesResource.java:49-66 | a name whose heartbeat is at least a minute old is still in the listing while its lookup is 404 |
| Services.LookupAfterRegister | snoop-service/src/main/java/eu/agilejava/snoop/api/ServicesResource.java:62-65 | a registered name is served with its descriptor until 60000 ms have passed |
| Services.LookupAfterDeRegister | snoop-service/src/main/java/eu/agilejava/snoop/api/ServicesResource.java:62-65 | after deregistering, the lookup is 404 and the listing holds nothing under the name |
| Configuration.SnoopSection | snoop/src/main/java/eu/agilejava/snoop/scan/SnoopRegistrationClient.java:165-174 | the YAML `snoop` section, or the empty map when loading failed |
| Configuration.FirstPresent | snoop/src/main/java/eu/agilejava/snoop/scan/SnoopRegistrationClient.java:189-201 | the first present candidate, absent exactly when every candidate is absent |
| Configuration.Resolve | snoop/src/main/java/eu/agilejava/snoop/scan/SnoopRegistrationClient.java:187-203 | the system property wins, then the environment variable, then the YAML entry; an error exactly when none is set, with the key followed by the hint as message |
| Configuration.RegistrationProperty | snoop/src/main/java/eu/agilejava/snoop/scan/SnoopRegistrationClient.java:187-203 | the same chain with the environment variable `<serviceName>.<key>` and the "env parameter" message |
| Configuration.ProducerProperty | snoop-client/src/main/java/eu/agilejava/snoop/client/SnoopProducer.java:75-92 | the same chain with the bare key as environment variable and the "env or system property" message |
| Configuration.ResolveIsFirstPresent | snoop/src/main/java/eu/agilejava/snoop/scan/SnoopRegistrationClient.java:189-201 | the chain's value is the first present of the three sources in precedence order, and its error is raised exactly when none is present |
| Configuration.SystemPropertyWins | snoop-client/src/main/java/eu/agilejava/snoop/client/SnoopProducer.java:77-89 | once a system property is set, neither the environment nor the YAML file can change the result |
| Configuration.ResolvedValueHasSource | snoop/src/main/java/eu/agilejava/snoop/scan/SnoopRegistrationClient.java:187-203 | every value the chain yields was set in one of the three sources |
| Transport.ReturnValue | snoop/src/main/java/eu/agilejava/snoop/scan/SnoopRegistrationClient.java:141-153 | the session id after a delivery and "-1" after a failure |
| Transport.Ticks | snoop/src/main/java/eu/agilejava/snoop/scan/SnoopRegistrationClient.java:123-128 | one attempt per tick, each to the same address with the same payload, delivered as that tick's outcome says |
| Transport.CountToTicks | snoop/src/main/java/eu/agilejava/snoop/scan/SnoopRegistrationClient.java:123-128 | a run of k ticks sends exactly k messages to its address and none to any other |
| RegistrationClient.ServiceHome | snoop/src/main/java/eu/agilejava/snoop/scan/SnoopRegistrationClient.java:177-179 | `host:port/` when both settings resolve, and an error otherwise |
| RegistrationClient.Configure | snoop/src/main/java/eu/agilejava/snoop/scan/SnoopRegistrationClient.java:163-185 | succeeds exactly when host, port, serviceRoot and snoopService all resolve; otherwise the error names the first missing one in that order; on success the descriptor is (name, `host:port/`, root) and the base address is "ws://" plus snoopService |
| RegistrationClient.ConfigureFromYaml | snoop/src/main/java/eu/agilejava/snoop/scan/SnoopRegistrationClient.java:176-184 | with no properties or environment, all settings come from the YAML section |
| RegistrationClient.NothingConfigured | snoop/src/main/java/eu/agilejava/snoop/scan/SnoopRegistrationClient.java:165-178 | with nothing configured the error names `host`, the first setting asked for |
| RegistrationClient.SnoopRegistrationClient.constructor | snoop/src/main/java/eu/agilejava/snoop/scan/SnoopRegistrationClient.java:69-70 | no base address, no timers, no messages, and a fresh bean with all fields null |
| RegistrationClient.SnoopRegistrationClient.SendMessage | snoop/src/main/java/eu/agilejava/snoop/scan/SnoopRegistrationClient.java:137-154 | exactly one attempt to base address plus endpoint, a null message sent as "", the session id or "-1" returned, nothing else changed |
| RegistrationClient.SnoopRegistrationClient.Register | snoop/src/main/java/eu/agilejava/snoop/scan/SnoopRegistrationClient.java:96-109 | one message with the descriptor's JSON to the registration address, then one ten-second non-persistent timer |
| RegistrationClient.SnoopRegistrationClient.Health | snoop/src/main/java/eu/agilejava/snoop/scan/SnoopRegistrationClient.java:123-128 | one message with the descriptor's JSON to the status address |
| RegistrationClient.SnoopRegistrationClient.OnMessage | snoop/src/main/java/eu/agilejava/snoop/scan/SnoopRegistrationClient.java:117-121 | an inbound message is answered by one message with the descriptor's JSON to the status address |
| RegistrationClient.SnoopRegistrationClient.Deregister | snoop/src/main/java/eu/agilejava/snoop/scan/SnoopRegistrationClient.java:156-161 | one empty message to the status address |
| RegistrationClient.SnoopRegistrationClient.ReadConfiguration | snoop/src/main/java/eu/agilejava/snoop/scan/SnoopRegistrationClient.java:163-185 | the name is always set; home, root and base address are set as far as the settings resolve; the error thrown is `Configure`'s; on success the bean holds `Configure`'s descriptor |
| RegistrationClient.SnoopRegistrationClient.Init | snoop/src/main/java/eu/agilejava/snoop/scan/SnoopRegistrationClient.java:75-94 | disabled: nothing changes; enabled and configured: one registration with the configured descriptor's JSON and one timer; enabled with a configuration error: no message and no timer, the bean holding the name and the home and root as far as they resolved before the error |
| RegistrationClient.Tick | snoop/src/main/java/eu/agilejava/snoop/scan/SnoopRegistrationClient.java:123-128 | k ticks append exactly the k heartbeats of `Ticks` to the trace, whatever their outcomes |
| RegistrationClient.Lifetime | snoop/src/main/java/eu/agilejava/snoop/scan/SnoopRegistrationClient.java:75-161 | a configured life is one registration, one heartbeat per tick and one empty farewell at the status address; otherwise no timer exists and the only message is the empty farewell, sent to `null` followed by `snoopstatus/` and a name, since no base address was set; the name is the agent's own after a configuration error, and the bean's earlier name (`null` for a new bean) when disabled |
| RegistrationClient.LifetimeCounts | snoop/src/main/java/eu/agilejava/snoop/scan/SnoopRegistrationClient.java:96-161 | over a life with k ticks, exactly one message goes to the registration address and k + 1 to the status address, the last of them empty |
| LegacyClient.BaseUri | snoop-client/src/main/java/eu/agilejava/snoop/scan/SnoopClient.java:167 | the configured `serviceUrl`, or `ws://localhost:8080/snoop-service/` when there is none |
| LegacyClient.RegistrationName | snoop-client/src/main/java/eu/agilejava/snoop/scan/SnoopClient.java:79-85 | the configured `applicationName` when present, otherwise the annotation's name |
| LegacyClient.SnoopClient.constructor | snoop-client/src/main/java/eu/agilejava/snoop/scan/SnoopClient.java:64-65 | both fields null, no timers, no messages |
| LegacyClient.SnoopClient.SendMessage | snoop-client/src/main/java/eu/agilejava/snoop/scan/SnoopClient.java:132-149 | exactly one attempt, a null message sent as "", the session id or "-1" returned, nothing else changed |
| LegacyClient.SnoopClient.ReadProperties | snoop-client/src/main/java/eu/agilejava/snoop/scan/SnoopClient.java:158-168 | the name is the configured one or null; the base address falls back to the default |
| LegacyClient.SnoopClient.Register | snoop-client/src/main/java/eu/agilejava/snoop/scan/SnoopClient.java:92-104 | the bare client id, not JSON, goes to the registration address, then one timer is armed |
| LegacyClient.SnoopClient.Health | snoop-client/src/main/java/eu/agilejava/snoop/scan/SnoopClient.java:118-123 | one "UP" to the status address built from the name field |
| LegacyClient.SnoopClient.OnMessage | snoop-client/src/main/java/eu/agilejava/snoop/scan/SnoopClient.java:112-116 | an inbound message is answered by one "UP" to the status address |
| LegacyClient.SnoopClient.Deregister | snoop-client/src/main/java/eu/agilejava/snoop/scan/SnoopClient.java:151-156 | one "OUT_OF_SERVICE" to the status address |
| LegacyClient.SnoopClient.Init | snoop-client/src/main/java/eu/agilejava/snoop/scan/SnoopClient.java:70-90 | disabled: nothing changes; enabled: one registration under the configured or annotation name and one timer, and the status address uses the name field |
| LegacyClient.UnnamedHeartbeatAddress | snoop-client/src/main/java/eu/agilejava/snoop/scan/SnoopClient.java:79-122 | without a configured name, the client registers under the annotation's name but sends its heartbeats to `snoopstatus/null` |
| LegacyClient.Tick | snoop-client/src/main/java/eu/agilejava/snoop/scan/SnoopClient.java:118-123 | k ticks append exactly k "UP" messages to the status address |
| LegacyClient.Lifetime | snoop-client/src/main/java/eu/agilejava/snoop/scan/SnoopClient.java:70-156 | an enabled life is the bare-name registration, one "UP" per tick and one "OUT_OF_SERVICE", with one timer; a disabled one arms no timer and sends only the "OUT_OF_SERVICE" farewell, to `null` followed by `snoopstatus/` and `null`, since neither the base address nor the name was read |
| Producer.SnoopProducer.constructor | snoop-client/src/main/java/eu/agilejava/snoop/client/SnoopProducer.java:50 | the settings start as the empty map |
| Producer.SnoopProducer.Init | snoop-client/src/main/java/eu/agilejava/snoop/client/SnoopProducer.java:97-109 | a loaded YAML file replaces the settings with its `snoop` section; a failed load keeps them |
| Producer.SnoopProducer.Lookup | snoop-client/src/main/java/eu/agilejava/snoop/client/SnoopProducer.java:61-73 | succeeds exactly when `snoopService` resolves, giving a client named after the annotation's service at "http://" plus that setting; otherwise the configuration error names the key |
| Producer.LookupWithoutYaml | snoop-client/src/main/java/eu/agilejava/snoop/client/SnoopProducer.java:61-109 | without a YAML file, an environment variable with the bare key still gives a working client |
| Producer.SystemPropertyBeatsYaml | snoop-client/src/main/java/eu/agilejava/snoop/client/SnoopProducer.java:75-92 | a system property is used whatever the YAML file says |
| Eureka.ServiceUrl | snoop-eureka-client/src/main/java/eu/agilejava/snoop/eureka/scan/EurekaClient.java:150 | given the `snoop` section and the `eureka.client.serviceUrl` map: the default `http://localhost:8761/eureka/` unless that map has `deafaultZone`, and then the `snoop` section's `defaultZone`, possibly absent |
| Eureka.ConfiguredZoneIgnored | snoop-eureka-client/src/main/java/eu/agilejava/snoop/eureka/scan/EurekaClient.java:146-150 | when `eureka.client.serviceUrl` holds `defaultZone` but not the misspelt key, the configured zone is ignored and the default address is used |
| Eureka.Registration | snoop-eureka-client/src/main/java/eu/agilejava/snoop/eureka/scan/EurekaClient.java:74-80 | host name and app are the application name, address "localhost", port 8080, status "UP", home page the application home, everything else unset |
| Eureka.EurekaClient.constructor | snoop-eureka-client/src/main/java/eu/agilejava/snoop/eureka/scan/EurekaClient.java:57-59 | all fields null, no timers, no requests |
| Eureka.EurekaClient.ReadProperties | snoop-eureka-client/src/main/java/eu/agilejava/snoop/eureka/scan/EurekaClient.java:135-151 | name and home from the `snoop` section; then, without the `eureka.client.serviceUrl` map, a thrown exception with the base address unchanged, and otherwise the base address `ServiceUrl` selects |
| Eureka.EurekaClient.Init | snoop-eureka-client/src/main/java/eu/agilejava/snoop/eureka/scan/EurekaClient.java:64-104 | disabled: nothing; enabled without the `eureka.client.serviceUrl` map: thrown before any request, no timer; enabled otherwise: one POST of the registration record to `serviceUrl + "apps/" + name`, then one timer unless the call could not reach the server |
| Eureka.EurekaClient.Health | snoop-eureka-client/src/main/java/eu/agilejava/snoop/eureka/scan/EurekaClient.java:106-122 | one PUT of a record holding only status "UP" to the instance address |
| Eureka.EurekaClient.Deregister | snoop-eureka-client/src/main/java/eu/agilejava/snoop/eureka/scan/EurekaClient.java:124-133 | one DELETE without a body to the same instance address |
| Eureka.Tick | snoop-eureka-client/src/main/java/eu/agilejava/snoop/eureka/scan/EurekaClient.java:106-122 | k ticks append exactly k identical PUTs, failed calls included |
| Eureka.Lifetime | snoop-eureka-client/src/main/java/eu/agilejava/snoop/eureka/scan/EurekaClient.java:64-133 | enabled with an answered POST: one POST, one PUT per tick and one DELETE, the last two at the same instance address, with one timer; enabled with an unreachable server: only the POST, no timer; enabled without the `eureka.client.serviceUrl` map: no request and no timer; disabled: only the DELETE |
| Interop.HeartbeatIsServed | snoop-service/src/main/java/eu/agilejava/snoop/SnoopStatusEndpoint.java:56-66 | a configured agent's heartbeat registers its own descriptor under its own name, and the lookup serves it for the next minute |
| Interop.FarewellRemoves | snoop/src/main/java/eu/agilejava/snoop/scan/SnoopRegistrationClient.java:156-161 | the agent's empty farewell deregisters it, and its lookup is then 404 |
| Interop.LegacyMessagesRejected | snoop-client/src/main/java/eu/agilejava/snoop/scan/SnoopClient.java:112-156 | the older agent's "UP" and "OUT_OF_SERVICE" are rejected by the endpoint as malformed JSON, leaving the registry unchanged |

## Left out

- Concurrency is not modelled. The registry's concurrent maps and the container's singleton locking become sequential operations. The race in which a name is removed while `getClients` scans it is not modelled.
- The WebSocket and JAX-RS transports are not modelled. Each send is given its outcome. A WebSocket send is recorded as an attempt in `trace`; a REST call of `EurekaClient` is recorded as a request in `requests`, and its outcome is reflected only in `thrown`. `URI.create` validation of an address is not modelled.
- Calendar timer semantics are not modelled. A timer is recorded by its schedule (`*/10`, `*`, `*`, non-persistent), and ticks are explicit calls. The schedule's start time is not kept.
- The wall clock is a parameter: `now` in milliseconds on the server.
- Loading YAML is not modelled. The loader's result is a parameter. For `SnoopRegistrationClient` and `SnoopProducer`, every value of the `snoop` section is taken in its `toString()` form, as their `readProperty` takes it.
- LegacyClient.SnoopClient.ReadProperties: `SnoopClient` reads the `snoop` section as a map of strings. A non-string value such as `applicationName: 42` makes it fail with a cast error, which a `map<string, string>` section cannot express.
- Eureka.EurekaClient.ReadProperties: `EurekaClient` reads the `snoop` section as a map of strings too. A non-string value makes it fail with a cast error, which is not modelled for the same reason.
- A YAML file without a `snoop` section makes the Java code dereference null. A missing file makes `yaml.load` throw; `SnoopClient` and `EurekaClient` do not catch that and fail at start-up. Neither path is modelled. Only a failure to load, in the two places that catch it, is modelled. The missing Eureka map of `EurekaClient` is modelled.
- The CDI scanning extensions and the annotation are not modelled. The enabled flag and the annotation's names are parameters.
- Logging is left out everywhere.
- The JSON reader rejects a `\u` escape that encodes a lone surrogate, which Java strings can hold.
- Numbers are kept as their lexemes, not converted.
- The JSON reader rejects any text other than whitespace after the top-level value, so `Codec.Decode` of a descriptor object followed by `x` is malformed. The javax.json reader behind `SnoopConfig.java:87-89` is not part of this model, and it may accept such trailing text.
- The descriptor bean in the registration agent's own package is not part of this model. The agent is modelled with the server's `SnoopConfig`, whose fields and setters carry the same names.
- Codec.SnoopConfig.ToJson: requires all three fields set. With a null field the JSON generator throws, and that exception is not modelled.
- RegistrationClient.SnoopRegistrationClient.Register: requires the bean's fields set, for the same reason. It is reached only after `readConfiguration` succeeds.
- RegistrationClient.SnoopRegistrationClient.Health: requires the bean's fields set, as `Register` does. A timer exists only after a registration.
- RegistrationClient.SnoopRegistrationClient.OnMessage: requires the bean's fields set, as `Register` does. A session exists only after a registration.
- Eureka.EurekaClient.Init: a call that cannot reach the server is modelled as an escaping exception (`thrown`) before the timer is armed. The exception's type and the response body are not modelled.
- `dataCenterInfo` in the Eureka instance record is never set by the code and is not modelled.
- `InstanceConfig` is not modelled; it only wraps the record for serialisation.
- The server's registration endpoint at `snoop` is not part of this model.
- `SnoopController`, `SnoopService`, `SnoopServiceClient` (except the client `lookup` builds), `SnoopApplicationClient` and the CDI extensions are not part of this model.
