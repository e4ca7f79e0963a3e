/**
 * Both ends together: what the server's heartbeat endpoint does with the
 * messages each Snoop agent sends to its status address.
 */
module Interop {
  import opened Wrappers
  import opened Json
  import opened Codec
  import Configuration
  import opened Registry
  import opened Endpoint
  import opened Services
  import RegistrationClient
  import LegacyClient

  /**
   * A heartbeat of a configured registration client registers its own
   * descriptor, under the name its status address carries, and the lookup
   * API then serves that descriptor for the next minute.
   */
  lemma HeartbeatIsServed(st: Store, serviceName: string, yaml: Configuration.YamlLoad, src: Configuration.Sources, now: nat, later: nat)
    requires st.Valid()
    requires RegistrationClient.Configure(serviceName, yaml, src).Ok?
    requires now <= later < now + TTL_MILLIS
    ensures var d := RegistrationClient.Configure(serviceName, yaml, src).value.descriptor;
            d.serviceName == serviceName
            && Dispatch(st, serviceName, Some(Encode(d)), now) == Ok(st.Register(d, now))
            && Lookup(st.Register(d, now), serviceName, later) == Response(OK, [], Single(d))
  {
    var d := RegistrationClient.Configure(serviceName, yaml, src).value.descriptor;
    HeartbeatRegisters(st, serviceName, d, now);
    LookupAfterRegister(st, d, now, later);
  }

  /** The registration client's farewell, an empty message, removes it from the registry. */
  lemma FarewellRemoves(st: Store, serviceName: string, now: nat)
    requires st.Valid()
    ensures Dispatch(st, serviceName, Some(""), now) == Ok(st.DeRegister(serviceName))
    ensures Lookup(st.DeRegister(serviceName), serviceName, now).status == NOT_FOUND
  {
    LookupAfterDeRegister(st, serviceName, now);
  }

  /**
   * The older agent does not speak the endpoint's protocol: its "UP"
   * heartbeat and its "OUT_OF_SERVICE" farewell are both non-empty, so the
   * endpoint tries to decode them as descriptors, fails, and leaves the
   * store unchanged; in particular the farewell does not deregister.
   */
  lemma LegacyMessagesRejected(st: Store, clientId: string, now: nat)
    ensures Dispatch(st, clientId, Some(LegacyClient.UP), now) == Err(Malformed)
    ensures Dispatch(st, clientId, Some(LegacyClient.OUT_OF_SERVICE), now) == Err(Malformed)
  {
    BadStartRejected(LegacyClient.UP);
    BadStartRejected(LegacyClient.OUT_OF_SERVICE);
  }
}
