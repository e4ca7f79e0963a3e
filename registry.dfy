/**
 * The server-side registry: two maps keyed by service name, one holding the
 * time of the last heartbeat, the other the last descriptor received.
 * Liveness is derived when the maps are read; nothing is ever swept.
 */
module Registry {
  import opened Wrappers
  import opened Codec

  /** A client is live while its last heartbeat is less than a minute old. */
  const TTL_MILLIS: nat := 60000

  /** The contents of both maps at one moment; timestamps are milliseconds. */
  datatype Store = Store(clients: map<string, nat>, clientConfigurations: map<string, Descriptor>)
  {
    /**
     * The maps share their key set, and every descriptor is stored under its
     * own service name (`register` uses `getServiceName()` as the key of both).
     */
    predicate Valid() {
      clients.Keys == clientConfigurations.Keys
      && forall id :: id in clientConfigurations ==> clientConfigurations[id].serviceName == id
    }

    /** `register`: upsert the heartbeat time and the descriptor under the descriptor's name. */
    function Register(client: Descriptor, now: nat): (r: Store)
      ensures client.serviceName in r.clients && r.clients[client.serviceName] == now
      ensures client.serviceName in r.clientConfigurations && r.clientConfigurations[client.serviceName] == client
      ensures forall id :: id != client.serviceName ==>
                (id in r.clients <==> id in clients) && (id in clients ==> r.clients[id] == clients[id])
      ensures forall id :: id != client.serviceName ==>
                (id in r.clientConfigurations <==> id in clientConfigurations)
                && (id in clientConfigurations ==> r.clientConfigurations[id] == clientConfigurations[id])
      ensures Valid() ==> r.Valid()
    {
      Store(clients[client.serviceName := now], clientConfigurations[client.serviceName := client])
    }

    /** `deRegister`: drop the name from both maps, whether or not it is there. */
    function DeRegister(clientId: string): (r: Store)
      ensures clientId !in r.clients && clientId !in r.clientConfigurations
      ensures forall id :: id != clientId ==>
                (id in r.clients <==> id in clients) && (id in clients ==> r.clients[id] == clients[id])
      ensures forall id :: id != clientId ==>
                (id in r.clientConfigurations <==> id in clientConfigurations)
                && (id in clientConfigurations ==> r.clientConfigurations[id] == clientConfigurations[id])
      ensures Valid() ==> r.Valid()
    {
      Store(clients - {clientId}, clientConfigurations - {clientId})
    }

    /** The last heartbeat of `id` is later than `now` minus the time to live. */
    predicate IsLive(id: string, now: nat)
      requires id in clients
    {
      clients[id] > now - TTL_MILLIS
    }

    /** `getClients`: the names whose last heartbeat is less than a minute before `now`. */
    function LiveClients(now: nat): (r: set<string>)
      ensures r <= clients.Keys
      ensures forall id :: id in r <==> id in clients && now < clients[id] + TTL_MILLIS
    {
      set id | id in clients && IsLive(id, now)
    }

    /** `getServiceConfigs`: every stored descriptor, live or not. */
    function ServiceConfigs(): (r: set<Descriptor>)
      ensures Valid() ==> forall d :: d in r <==> d.serviceName in clientConfigurations && clientConfigurations[d.serviceName] == d
    {
      clientConfigurations.Values
    }

    /** `getClientConfig`: the stored descriptor of a live name, and nothing otherwise. */
    function ClientConfig(clientId: string, now: nat): (r: Option<Descriptor>)
      ensures r.Some? ==> clientId in LiveClients(now) && clientId in clientConfigurations
                          && r.value == clientConfigurations[clientId]
      ensures Valid() ==> (r.Some? <==> clientId in LiveClients(now))
      ensures clientId !in LiveClients(now) ==> r == None
    {
      if clientId in LiveClients(now) then
        if clientId in clientConfigurations then Some(clientConfigurations[clientId]) else None
      else None
    }
  }

  /** The registry as the server starts it: both maps empty. */
  const Empty := Store(map[], map[])

  // ---------------------------------------------------------------------------
  // Properties of the store
  // ---------------------------------------------------------------------------

  /** Registering the same name twice leaves one entry with the second call's time and descriptor. */
  lemma RegisterTwice(st: Store, first: Descriptor, second: Descriptor, t1: nat, t2: nat)
    requires first.serviceName == second.serviceName
    ensures st.Register(first, t1).Register(second, t2) == st.Register(second, t2)
  {
    var a := st.Register(first, t1).Register(second, t2);
    var b := st.Register(second, t2);
    assert a.clients == b.clients;
    assert a.clientConfigurations == b.clientConfigurations;
  }

  /** Deregistering a name that is not stored changes nothing. */
  lemma DeRegisterAbsent(st: Store, clientId: string)
    requires clientId !in st.clients && clientId !in st.clientConfigurations
    ensures st.DeRegister(clientId) == st
  {
    assert st.DeRegister(clientId).clients == st.clients;
    assert st.DeRegister(clientId).clientConfigurations == st.clientConfigurations;
  }

  /** A fresh registration stays live for exactly the time to live, and its descriptor can be looked up meanwhile. */
  lemma RegisteredIsLive(st: Store, client: Descriptor, at: nat, now: nat)
    requires st.Valid()
    requires at <= now
    ensures client.serviceName in st.Register(client, at).LiveClients(now) <==> now < at + TTL_MILLIS
    ensures now < at + TTL_MILLIS ==> st.Register(client, at).ClientConfig(client.serviceName, now) == Some(client)
  {
  }

  /**
   * The time-to-live boundary: an entry 59999 ms old is live, one 60000 ms
   * old is not, and either way it is still listed by `getServiceConfigs`.
   */
  lemma TtlBoundary(st: Store, id: string, now: nat)
    requires st.Valid() && id in st.clients && st.clients[id] + TTL_MILLIS == now
    ensures id !in st.LiveClients(now)
    ensures id in st.LiveClients(now - 1)
    ensures st.ClientConfig(id, now) == None
    ensures st.clientConfigurations[id] in st.ServiceConfigs()
  {
  }

  /** After `deRegister(x)`, looking `x` up fails and no listed descriptor is named `x`. */
  lemma DeRegisterThenNotFound(st: Store, clientId: string, now: nat)
    requires st.Valid()
    ensures st.DeRegister(clientId).ClientConfig(clientId, now) == None
    ensures forall d :: d in st.DeRegister(clientId).ServiceConfigs() ==> d.serviceName != clientId
  {
  }

  /** Removing one name from a map that files each descriptor under its own name removes exactly its descriptor. */
  lemma ValuesWithout(m: map<string, Descriptor>, id: string)
    requires id in m
    requires forall k :: k in m ==> m[k].serviceName == k
    ensures m.Values == (m - {id}).Values + {m[id]}
    ensures m[id] !in (m - {id}).Values
  {
    var rest := m - {id};
    forall d | d in m.Values ensures d in rest.Values + {m[id]} {
      var k :| k in m && m[k] == d;
      if k != id {
        assert rest[k] == d;
      }
    }
  }

  /**
   * In a valid store no two names share a descriptor, so the listing has as
   * many descriptors as there are names.
   */
  lemma {:induction false} ServiceConfigsCount(st: Store)
    requires st.Valid()
    ensures |st.ServiceConfigs()| == |st.clientConfigurations|
    decreases |st.clientConfigurations|
  {
    var m := st.clientConfigurations;
    if m != map[] {
      var id :| id in m;
      var rest := Store(st.clients - {id}, m - {id});
      ServiceConfigsCount(rest);
      ValuesWithout(m, id);
      assert m.Keys == rest.clientConfigurations.Keys + {id};
    }
  }

  /** The names of a sequence of descriptors. */
  function Names(ds: seq<Descriptor>): (r: set<string>)
    ensures forall id :: id in r <==> exists i :: 0 <= i < |ds| && ds[i].serviceName == id
    decreases |ds|
  {
    if ds == [] then {}
    else
      var init := ds[..|ds| - 1];
      assert forall i :: 0 <= i < |init| ==> init[i] == ds[i];
      Names(init) + {ds[|ds| - 1].serviceName}
  }

  predicate DistinctNames(ds: seq<Descriptor>) {
    forall i, j :: 0 <= i < j < |ds| ==> ds[i].serviceName != ds[j].serviceName
  }

  /** One `register` call per descriptor, in order, all at the same instant. */
  function RegisterAll(st: Store, ds: seq<Descriptor>, now: nat): (r: Store)
    ensures st.Valid() ==> r.Valid()
    ensures forall id :: id in r.clients <==> id in st.clients || id in Names(ds)
    ensures forall id :: id in Names(ds) ==> r.clients[id] == now
    decreases |ds|
  {
    if ds == [] then st
    else RegisterAll(st, ds[..|ds| - 1], now).Register(ds[|ds| - 1], now)
  }

  lemma {:induction false} NamesCount(ds: seq<Descriptor>)
    requires DistinctNames(ds)
    ensures |Names(ds)| == |ds|
    decreases |ds|
  {
    if ds != [] {
      var init := ds[..|ds| - 1];
      assert DistinctNames(init) by {
        forall i, j | 0 <= i < j < |init| ensures init[i].serviceName != init[j].serviceName {
          assert init[i] == ds[i] && init[j] == ds[j];
        }
      }
      NamesCount(init);
      assert ds[|ds| - 1].serviceName !in Names(init) by {
        forall i | 0 <= i < |init| ensures init[i].serviceName != ds[|ds| - 1].serviceName {
          assert init[i] == ds[i];
        }
      }
    }
  }

  /** Registering N distinct names into an empty registry leaves exactly N live names. */
  lemma RegisterDistinct(ds: seq<Descriptor>, now: nat)
    requires DistinctNames(ds)
    ensures RegisterAll(Empty, ds, now).LiveClients(now) == Names(ds)
    ensures |RegisterAll(Empty, ds, now).LiveClients(now)| == |ds|
  {
    NamesCount(ds);
  }

  /**
   * A service registered at time 0 is the only live name; 61 seconds later it
   * is no longer live and cannot be looked up, but is still listed unchanged.
   */
  lemma ExpiryScenario()
    ensures var svc := Descriptor("svc-a", "10.0.0.1:8080", "api/");
            var st := Empty.Register(svc, 0);
            st.LiveClients(0) == {"svc-a"}
            && st.LiveClients(61000) == {}
            && st.ClientConfig("svc-a", 61000) == None
            && st.ServiceConfigs() == {svc}
  {
    var svc := Descriptor("svc-a", "10.0.0.1:8080", "api/");
    var st := Empty.Register(svc, 0);
    assert st.clients == map["svc-a" := 0];
    assert st.clientConfigurations == map["svc-a" := svc];
  }

  // ---------------------------------------------------------------------------
  // The singleton bean
  // ---------------------------------------------------------------------------

  /** `SnoopClientRegistry`: the two maps, changed in place by `register` and `deRegister`. */
  class SnoopClientRegistry {
    var clients: map<string, nat>
    var clientConfigurations: map<string, Descriptor>

    function State(): Store
      reads this
    {
      Store(clients, clientConfigurations)
    }

    predicate Valid()
      reads this
    {
      State().Valid()
    }

    constructor ()
      ensures State() == Empty && Valid()
    {
      clients, clientConfigurations := map[], map[];
    }

    method Register(client: Descriptor, now: nat)
      modifies this
      ensures State() == old(State()).Register(client, now)
      ensures old(Valid()) ==> Valid()
    {
      clients := clients[client.serviceName := now];
      clientConfigurations := clientConfigurations[client.serviceName := client];
    }

    method DeRegister(clientId: string)
      modifies this
      ensures State() == old(State()).DeRegister(clientId)
      ensures old(Valid()) ==> Valid()
    {
      clients := clients - {clientId};
      clientConfigurations := clientConfigurations - {clientId};
    }
  }
}
