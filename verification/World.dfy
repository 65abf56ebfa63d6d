/** The two stores and the calls handlers make on them. */
module World {
  import opened Types
  import opened Manifests
  import Base64

  /** A tenants row; last_active_at is set by the insert and by every touch. */
  datatype Row = Row(tenant: Tenant, lastActive: nat)

  /** What a past insert handed out. */
  datatype Issue = Issue(userId: UserId, token: Token)

  /**
   * The database: rows by tenant_id, the UNIQUE(user_id) index over them, and,
   * as history, every pair of user and token an insert ever recorded.
   */
  datatype Db = Db(rows: map<TenantId, Row>, byUser: map<UserId, TenantId>, issued: map<TenantId, Issue>, clock: nat)

  /** The tenants namespace; inst tells one instance of an object from a later one of the same name. */
  datatype Kube = Kube(objs: map<Key, Manifest>, inst: map<Key, nat>, next: nat)

  datatype World = World(db: Db, kube: Kube)

  const EMPTY := World(Db(map[], map[], map[], 0), Kube(map[], map[], 0))

  /** Where a health check goes: the tenant's Service, or the configured template. */
  datatype Target = TenantService(tenantId: TenantId) | Template(tenantId: TenantId)

  /** One awaited call. */
  datatype Call =
    | FindByUser(userId: UserId)
    | Insert(userId: UserId)
    | UpdateStatus(tenantId: TenantId, status: Status)
    | Touch(tenantId: TenantId)
    | FindIdle
    | DeleteRow(tenantId: TenantId)
    | ClientInit
    | Create(manifest: Manifest)
    | Delete(key: Key)
    | GetPod(tenantId: TenantId)
    | Probe(target: Target, token: Token)
    | Timer(due: nat)
    | Await

  /** How a call goes: as intended, lost before taking effect, or lost after. */
  datatype Fate = Clean | Before | After

  /** Everything the environment decides about one step. */
  datatype Choice = Choice(branch: nat, fate: Fate, healthy: bool, tenantId: TenantId, token: Token,
      order: seq<TenantId>)

  datatype Reply =
    | Ok
    | Failed
    | AlreadyExists
    | NotFound
    | Found(tenant: Option<Tenant>)
    | Inserted(row: Tenant)
    | Idle(tenants: seq<Tenant>)
    | Answer(yes: bool)

  predicate Has(k: Kube, kind: Kind, t: TenantId) {
    KeyOf(kind, t) in k.objs
  }

  function Lookup(db: Db, u: UserId): Option<Tenant> {
    if u in db.byUser && db.byUser[u] in db.rows then Some(db.rows[db.byUser[u]].tenant) else None
  }

  /** Ready rows whose last activity is strictly older than the timeout. */
  function IdleIds(db: Db): set<TenantId> {
    set t | t in db.rows && db.rows[t].tenant.status == Ready && db.rows[t].lastActive + IDLE_TIMEOUT < db.clock
  }

  /** A listing of a set without repetition, in whatever order the database answers. */
  predicate Lists(order: seq<TenantId>, s: set<TenantId>) {
    && (set t | t in order) == s
    && (forall i, j :: 0 <= i < j < |order| ==> order[i] != order[j])
  }

  /** The rows find_idle_tenants returns, in the order the database lists them. */
  function Listing(db: Db, order: seq<TenantId>): (tenants: seq<Tenant>)
    requires Lists(order, IdleIds(db))
    ensures |tenants| == |order|
    ensures forall i :: 0 <= i < |order| ==> order[i] in db.rows && tenants[i] == db.rows[order[i]].tenant
  {
    assert forall i :: 0 <= i < |order| ==> order[i] in IdleIds(db);
    seq(|order|, i requires 0 <= i < |order| => db.rows[order[i]].tenant)
  }

  function SetStatus(db: Db, t: TenantId, status: Status): Db {
    if t in db.rows then
      var row := db.rows[t];
      db.(rows := db.rows[t := row.(tenant := row.tenant.(status := status))])
    else db
  }

  function SetActive(db: Db, t: TenantId): Db {
    if t in db.rows then db.(rows := db.rows[t := db.rows[t].(lastActive := db.clock)]) else db
  }

  function AddRow(db: Db, u: UserId, t: TenantId, token: Token): Db {
    db.(rows := db.rows[t := Row(Tenant(u, t, token, Provisioning), db.clock)],
        byUser := db.byUser[u := t],
        issued := db.issued[t := Issue(u, token)])
  }

  function RemoveRow(db: Db, t: TenantId): Db {
    if t in db.rows then
      db.(rows := db.rows - {t}, byUser := db.byUser - {db.rows[t].tenant.userId})
    else db
  }

  predicate IsStoreCall(c: Call) {
    c.FindByUser? || c.Insert? || c.UpdateStatus? || c.Touch? || c.FindIdle? || c.DeleteRow?
  }

  /** The reply of a write that has nothing to report. */
  function Written(fate: Fate): Reply {
    if fate == Clean then Ok else Failed
  }

  /**
   * A PostgREST request. A PATCH or DELETE that matches no row still succeeds.
   * A generated tenant id is never one issued before; an insert that would
   * break that, or either UNIQUE constraint, is refused.
   */
  function StoreCall(db: Db, c: Call, ch: Choice): (Db, Reply)
    requires IsStoreCall(c)
  {
    match c
    case FindByUser(u) =>
      (db, if ch.fate == Clean then Found(Lookup(db, u)) else Failed)
    case Insert(u) =>
      if ch.fate == Before || u in db.byUser || ch.tenantId in db.issued then (db, Failed)
      else
        (AddRow(db, u, ch.tenantId, ch.token),
         if ch.fate == Clean then Inserted(Tenant(u, ch.tenantId, ch.token, Provisioning)) else Failed)
    case UpdateStatus(t, status) =>
      (if ch.fate == Before then db else SetStatus(db, t, status), Written(ch.fate))
    case Touch(t) =>
      (if ch.fate == Before then db else SetActive(db, t), Written(ch.fate))
    case FindIdle =>
      (db,
       if ch.fate == Clean && Lists(ch.order, IdleIds(db)) then
         Idle(Listing(db, ch.order))
       else Failed)
    case DeleteRow(t) =>
      (if ch.fate == Before then db else RemoveRow(db, t), Written(ch.fate))
  }

  /** Health can only be answered through the tenant's own Service, Pod and token. */
  predicate Answers(k: Kube, t: TenantId, token: Token) {
    && Has(k, PodK, t) && Has(k, ServiceK, t) && Has(k, SecretK, t)
    && k.objs[KeyOf(SecretK, t)].Secret?
    && Base64.Decode(k.objs[KeyOf(SecretK, t)].data) == Some(token)
  }

  function AddObject(k: Kube, m: Manifest): Kube {
    Kube(k.objs[KeyFor(m) := m], k.inst[KeyFor(m) := k.next], k.next + 1)
  }

  function RemoveObject(k: Kube, key: Key): Kube {
    k.(objs := k.objs - {key}, inst := k.inst - {key})
  }

  predicate IsKubeCall(c: Call) {
    c.ClientInit? || c.Create? || c.Delete? || c.GetPod? || c.Probe?
  }

  /** A Kubernetes API request, or a health check. */
  function KubeCall(k: Kube, c: Call, ch: Choice): (Kube, Reply)
    requires IsKubeCall(c)
  {
    match c
    case ClientInit =>
      (k, Written(ch.fate))
    case Create(m) =>
      if KeyFor(m) in k.objs then (k, if ch.fate == Clean then AlreadyExists else Failed)
      else (if ch.fate == Before then k else AddObject(k, m), Written(ch.fate))
    case Delete(key) =>
      if key !in k.objs then (k, if ch.fate == Clean then NotFound else Failed)
      else (if ch.fate == Before then k else RemoveObject(k, key), Written(ch.fate))
    case GetPod(t) =>
      (k, if ch.fate == Clean then Answer(Has(k, PodK, t)) else Failed)
    case Probe(target, token) =>
      (k, Answer(ch.fate == Clean && ch.healthy && (target.TenantService? ==> Answers(k, target.tenantId, token))))
  }

  /** One call: its effect on the stores and its reply. */
  function Apply(w: World, c: Call, ch: Choice): (World, Reply) {
    if IsStoreCall(c) then
      var (db, r) := StoreCall(w.db, c, ch);
      (w.(db := db), r)
    else if IsKubeCall(c) then
      var (kube, r) := KubeCall(w.kube, c, ch);
      (w.(kube := kube), r)
    else if c.Timer? then
      (w, if w.db.clock >= c.due then Ok else Failed)
    else (w, Ok)
  }
}
