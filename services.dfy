/**
 * The REST resource `services`: an unfiltered listing of every stored
 * descriptor, and a lookup of one name that succeeds only while it is live.
 */
module Services {
  import opened Wrappers
  import opened Codec
  import opened Registry

  const OK: nat := 200
  const NOT_FOUND: nat := 404

  /** The header `all()` adds so browsers on other origins may read the listing. */
  const ALLOW_ORIGIN: (string, string) := ("Access-Control-Allow-Origin", "*")

  datatype Entity = Listing(configs: set<Descriptor>) | Single(config: Descriptor) | NoEntity

  datatype Response = Response(status: nat, headers: seq<(string, string)>, entity: Entity)

  /** `all()`: every stored descriptor, live or stale, with the cross-origin header. */
  function All(st: Store): (r: Response)
    ensures r.status == OK && ALLOW_ORIGIN in r.headers
    ensures r.entity.Listing?
    ensures st.Valid() ==> forall d :: d in r.entity.configs <==>
              d.serviceName in st.clientConfigurations && st.clientConfigurations[d.serviceName] == d
  {
    Response(OK, [ALLOW_ORIGIN], Listing(st.ServiceConfigs()))
  }

  /**
   * `lookup(serviceId)`: the descriptor of a live name; otherwise the
   * `NotFoundException`, which the container turns into a 404.
   */
  function Lookup(st: Store, serviceId: string, now: nat): (r: Response)
    ensures r.status == OK || r.status == NOT_FOUND
    ensures r.status == OK <==> st.ClientConfig(serviceId, now).Some?
    ensures r.status == OK ==> r.entity == Single(st.ClientConfig(serviceId, now).value)
    ensures r.status == NOT_FOUND ==> r.entity == NoEntity
    ensures st.Valid() ==> (r.status == OK <==> serviceId in st.LiveClients(now))
  {
    match st.ClientConfig(serviceId, now)
    case Some(config) => Response(OK, [], Single(config))
    case None => Response(NOT_FOUND, [], NoEntity)
  }

  /**
   * The asymmetry between the two views: a name whose last heartbeat is a
   * minute old is still listed by `all()` while `lookup` answers 404.
   */
  lemma StaleListedButNotFound(st: Store, id: string, now: nat)
    requires st.Valid() && id in st.clients && st.clients[id] + TTL_MILLIS <= now
    ensures st.clientConfigurations[id] in All(st).entity.configs
    ensures Lookup(st, id, now).status == NOT_FOUND
  {
  }

  /** A name registered at `at` can be looked up, with its descriptor, until the time to live runs out. */
  lemma LookupAfterRegister(st: Store, d: Descriptor, at: nat, now: nat)
    requires st.Valid() && at <= now < at + TTL_MILLIS
    ensures Lookup(st.Register(d, at), d.serviceName, now) == Response(OK, [], Single(d))
  {
    RegisteredIsLive(st, d, at, now);
  }

  /** After `deRegister(x)` the lookup of `x` is a 404 and the listing holds nothing named `x`. */
  lemma LookupAfterDeRegister(st: Store, id: string, now: nat)
    requires st.Valid()
    ensures Lookup(st.DeRegister(id), id, now).status == NOT_FOUND
    ensures forall d :: d in All(st.DeRegister(id)).entity.configs ==> d.serviceName != id
  {
    DeRegisterThenNotFound(st, id, now);
  }
}
