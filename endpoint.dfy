/**
 * The heartbeat endpoint `snoopstatus/{clientId}`: a non-empty message is a
 * descriptor to register, an empty or absent one asks to deregister the
 * client named in the path.
 */
module Endpoint {
  import opened Wrappers
  import opened Json
  import opened Codec
  import opened Registry

  /** The payload carries something: it is neither null nor the empty string. */
  predicate HasPayload(applicationConfig: Option<string>) {
    applicationConfig.Some? && applicationConfig.value != []
  }

  /**
   * The effect of one message on the store. A payload is decoded before
   * anything is changed, so a decoding error leaves the store as it was and
   * is what the handler throws.
   */
  function Dispatch(st: Store, clientId: string, applicationConfig: Option<string>, now: nat): (r: Result<Store, DecodeError>)
    ensures !HasPayload(applicationConfig) ==> r == Ok(st.DeRegister(clientId))
    ensures HasPayload(applicationConfig) ==>
              match Decode(applicationConfig.value)
              case Ok(d) => r == Ok(st.Register(d, now))
              case Err(e) => r == Err(e)
    ensures st.Valid() && r.Ok? ==> r.value.Valid()
  {
    if HasPayload(applicationConfig) then
      var client :- Decode(applicationConfig.value);
      Ok(st.Register(client, now))
    else
      Ok(st.DeRegister(clientId))
  }

  /** On the register branch the path's client id plays no part: the key is the decoded name. */
  lemma RegisterIgnoresPath(st: Store, path1: string, path2: string, payload: string, now: nat)
    requires payload != []
    ensures Dispatch(st, path1, Some(payload), now) == Dispatch(st, path2, Some(payload), now)
  {
  }

  /** Each message changes at most one name: the decoded one, or the path's one. */
  lemma OneNameChanged(st: Store, clientId: string, applicationConfig: Option<string>, now: nat, id: string)
    requires Dispatch(st, clientId, applicationConfig, now).Ok?
    requires HasPayload(applicationConfig) ==> id != Decode(applicationConfig.value).value.serviceName
    requires !HasPayload(applicationConfig) ==> id != clientId
    ensures var after := Dispatch(st, clientId, applicationConfig, now).value;
            (id in after.clients <==> id in st.clients)
            && (id in st.clients ==> after.clients[id] == st.clients[id])
            && (id in after.clientConfigurations <==> id in st.clientConfigurations)
            && (id in st.clientConfigurations ==> after.clientConfigurations[id] == st.clientConfigurations[id])
  {
  }

  /** A heartbeat carrying `toJSON` of a descriptor registers exactly that descriptor. */
  lemma HeartbeatRegisters(st: Store, clientId: string, d: Descriptor, now: nat)
    ensures Dispatch(st, clientId, Some(Encode(d)), now) == Ok(st.Register(d, now))
  {
    RoundTrip(d);
    assert Encode(d)[0] == '{';
  }

  /** `SnoopStatusEndpoint`: holds the injected registry and changes it once per message. */
  class SnoopStatusEndpoint {
    const clients: SnoopClientRegistry

    constructor (registry: SnoopClientRegistry)
      ensures clients == registry
    {
      clients := registry;
    }

    /**
     * `onMessage`. Returns nothing to the peer; `thrown` is the decoding
     * failure `fromJSON` raises, in which case the registry is untouched.
     */
    method OnMessage(clientId: string, applicationConfig: Option<string>, now: nat) returns (thrown: Option<DecodeError>)
      modifies clients
      ensures match Dispatch(old(clients.State()), clientId, applicationConfig, now)
              case Ok(st) => clients.State() == st && thrown == None
              case Err(e) => clients.State() == old(clients.State()) && thrown == Some(e)
      ensures old(clients.Valid()) ==> clients.Valid()
    {
      if applicationConfig.Some? && applicationConfig.value != [] {
        var decoded := Decode(applicationConfig.value);
        if decoded.Err? {
          return Some(decoded.error);
        }
        clients.Register(decoded.value, now);
      } else {
        clients.DeRegister(clientId);
      }
      thrown := None;
    }
  }
}
