/** The two stores as mutable objects behind one unreliable network. */
module Stores {
  import opened Types
  import opened Manifests
  import opened World
  import opened Serial

  /** What the environment does to the calls, in the order they are made. */
  class Network {
    const o: Oracle
    var n: nat

    constructor (o: Oracle)
      ensures this.o == o && n == 0
    {
      this.o := o;
      n := 0;
    }

    /** The branch the environment lets go first. */
    function Branch(): nat
      reads this
    {
      o(n).branch
    }

    method Take() returns (ch: Choice)
      modifies this
      ensures ch == o(old(n)) && n == old(n) + 1
    {
      ch := o(n);
      n := n + 1;
    }
  }

  /** The tenants table behind PostgREST. */
  class TenantStore {
    const net: Network
    var rows: map<TenantId, Row>
    var byUser: map<UserId, TenantId>
    var issued: map<TenantId, Issue>
    var clock: nat

    constructor (net: Network)
      ensures this.net == net && State() == EMPTY.db
    {
      this.net := net;
      rows, byUser, issued, clock := map[], map[], map[], 0;
    }

    function State(): Db
      reads this
    {
      Db(rows, byUser, issued, clock)
    }

    method FindByUser(u: UserId) returns (r: Reply)
      modifies net
      ensures net.n == old(net.n) + 1
      ensures (State(), r) == StoreCall(old(State()), Call.FindByUser(u), net.o(old(net.n)))
    {
      var ch := net.Take();
      if ch.fate != Clean {
        r := Failed;
      } else if u in byUser && byUser[u] in rows {
        r := Found(Some(rows[byUser[u]].tenant));
      } else {
        r := Found(None);
      }
    }

    /** A new row for the user, with a generated tenant id and token. */
    method Create(u: UserId) returns (r: Reply)
      modifies this, net
      ensures net.n == old(net.n) + 1
      ensures (State(), r) == StoreCall(old(State()), Insert(u), net.o(old(net.n)))
    {
      var ch := net.Take();
      if ch.fate == Before || u in byUser || ch.tenantId in issued {
        return Failed;
      }
      var tenant := Tenant(u, ch.tenantId, ch.token, Provisioning);
      rows := rows[ch.tenantId := Row(tenant, clock)];
      byUser := byUser[u := ch.tenantId];
      issued := issued[ch.tenantId := Issue(u, ch.token)];
      r := if ch.fate == Clean then Inserted(tenant) else Failed;
    }

    method UpdateStatus(t: TenantId, status: Status) returns (r: Reply)
      modifies this, net
      ensures net.n == old(net.n) + 1
      ensures (State(), r) == StoreCall(old(State()), Call.UpdateStatus(t, status), net.o(old(net.n)))
    {
      var ch := net.Take();
      if ch.fate != Before && t in rows {
        var row := rows[t];
        rows := rows[t := row.(tenant := row.tenant.(status := status))];
      }
      r := Written(ch.fate);
    }

    method TouchLastActive(t: TenantId) returns (r: Reply)
      modifies this, net
      ensures net.n == old(net.n) + 1
      ensures (State(), r) == StoreCall(old(State()), Touch(t), net.o(old(net.n)))
    {
      var ch := net.Take();
      if ch.fate != Before && t in rows {
        rows := rows[t := rows[t].(lastActive := clock)];
      }
      r := Written(ch.fate);
    }

    method FindIdleTenants() returns (r: Reply)
      modifies net
      ensures net.n == old(net.n) + 1
      ensures (State(), r) == StoreCall(old(State()), FindIdle, net.o(old(net.n)))
    {
      var ch := net.Take();
      if ch.fate != Clean || !Lists(ch.order, IdleIds(State())) {
        return Failed;
      }
      r := Idle(Listing(State(), ch.order));
    }

    method Delete(t: TenantId) returns (r: Reply)
      modifies this, net
      ensures net.n == old(net.n) + 1
      ensures (State(), r) == StoreCall(old(State()), DeleteRow(t), net.o(old(net.n)))
    {
      var ch := net.Take();
      if ch.fate != Before && t in rows {
        byUser := byUser - {rows[t].tenant.userId};
        rows := rows - {t};
      }
      r := Written(ch.fate);
    }
  }

  /** The tenants namespace behind the Kubernetes API, and the engines in it. */
  class Cluster {
    const net: Network
    var objs: map<Key, Manifest>
    var inst: map<Key, nat>
    var next: nat

    constructor (net: Network)
      ensures this.net == net && State() == EMPTY.kube
    {
      this.net := net;
      objs, inst, next := map[], map[], 0;
    }

    function State(): Kube
      reads this
    {
      Kube(objs, inst, next)
    }

    method Init() returns (r: Reply)
      modifies net
      ensures net.n == old(net.n) + 1
      ensures (State(), r) == KubeCall(old(State()), ClientInit, net.o(old(net.n)))
    {
      var ch := net.Take();
      r := Written(ch.fate);
    }

    method Create(m: Manifest) returns (r: Reply)
      modifies this, net
      ensures net.n == old(net.n) + 1
      ensures (State(), r) == KubeCall(old(State()), Call.Create(m), net.o(old(net.n)))
    {
      var ch := net.Take();
      if KeyFor(m) in objs {
        return if ch.fate == Clean then AlreadyExists else Failed;
      }
      if ch.fate != Before {
        objs, inst, next := objs[KeyFor(m) := m], inst[KeyFor(m) := next], next + 1;
      }
      r := Written(ch.fate);
    }

    method Delete(key: Key) returns (r: Reply)
      modifies this, net
      ensures net.n == old(net.n) + 1
      ensures (State(), r) == KubeCall(old(State()), Call.Delete(key), net.o(old(net.n)))
    {
      var ch := net.Take();
      if key !in objs {
        return if ch.fate == Clean then NotFound else Failed;
      }
      if ch.fate != Before {
        objs, inst := objs - {key}, inst - {key};
      }
      r := Written(ch.fate);
    }

    method GetPod(t: TenantId) returns (r: Reply)
      modifies net
      ensures net.n == old(net.n) + 1
      ensures (State(), r) == KubeCall(old(State()), Call.GetPod(t), net.o(old(net.n)))
    {
      var ch := net.Take();
      r := if ch.fate == Clean then Answer(KeyOf(PodK, t) in objs) else Failed;
    }

    /** check_engine_health. */
    method CheckHealth(target: Target, token: Token) returns (r: Reply)
      modifies net
      ensures net.n == old(net.n) + 1
      ensures (State(), r) == KubeCall(old(State()), Probe(target, token), net.o(old(net.n)))
    {
      var ch := net.Take();
      r := Answer(ch.fate == Clean && ch.healthy && (target.TenantService?
          ==> Answers(State(), target.tenantId, token)));
    }
  }

  /** What every handler shares. */
  class AppState {
    const cfg: Config
    const store: TenantStore
    const cluster: Cluster
    const net: Network

    constructor (cfg: Config, o: Oracle)
      ensures Valid() && this.cfg == cfg && net.o == o && net.n == 0 && W() == EMPTY
      ensures fresh(store) && fresh(cluster) && fresh(net)
    {
      this.cfg := cfg;
      var network := new Network(o);
      net := network;
      store := new TenantStore(network);
      cluster := new Cluster(network);
    }

    /** Both stores are reached over the same network. */
    predicate Valid() {
      store.net == net && cluster.net == net
    }

    function W(): World
      reads store, cluster
    {
      World(store.State(), cluster.State())
    }
  }
}
