/**
 * What holds in every interleaved run, whatever fails and whatever is deleted:
 * one token per tenant everywhere, one live tenant per user, and no object
 * that is not the genuine manifest of an issued tenant.
 */
module Agreement {
  import opened Types
  import opened Manifests
  import opened World
  import opened Handlers
  import opened Protocol

  /** The pair of user and token recorded when the tenant was created. */
  predicate Known(db: Db, tn: Tenant) {
    tn.tenantId in db.issued && db.issued[tn.tenantId] == Issue(tn.userId, tn.token)
  }

  /** The manifest the builders give for its tenant's issued token. */
  predicate Genuine(cfg: Config, issued: map<TenantId, Issue>, m: Manifest) {
    var kind, t := KindOf(m), OwnerOf(KeyFor(m));
    && cfg.K8s()
    && t in issued
    && Needs(SpecOf(cfg, t, issued[t].token), kind)
    && m == Build(kind, SpecOf(cfg, t, issued[t].token))
  }

  ghost predicate RowsAgree(db: Db) {
    && (forall t :: t in db.rows ==> db.rows[t].tenant.tenantId == t && Known(db, db.rows[t].tenant))
    && (forall t :: t in db.rows ==> db.rows[t].lastActive <= db.clock)
    && (forall t :: t in db.rows ==>
          var u := db.rows[t].tenant.userId; u in db.byUser && db.byUser[u] == t)
    && (forall u :: u in db.byUser ==>
          db.byUser[u] in db.rows && db.rows[db.byUser[u]].tenant.userId == u)
  }

  ghost predicate ObjectsAgree(cfg: Config, db: Db, k: Kube) {
    && k.inst.Keys == k.objs.Keys
    && (forall key :: key in k.objs ==> KeyFor(k.objs[key]) == key && Genuine(cfg, db.issued, k.objs[key]))
  }

  ghost predicate WorldAgrees(cfg: Config, w: World) {
    RowsAgree(w.db) && ObjectsAgree(cfg, w.db, w.kube)
  }

  /** What a handler carries agrees with the record of creation. */
  ghost predicate ProcAgrees(db: Db, p: Proc) {
    && (Snapshot(p).Some? ==> Known(db, Snapshot(p).value))
    && (p.Sweeping? ==> forall tn :: tn in p.sweep.idle ==> Known(db, tn))
    && (p.AuthTouch? ==> AuthAgrees(db, p.response))
    && (p.Done? ==> AuthAgrees(db, p.response))
  }

  /** An ext-authz answer injects the token issued to the tenant it routes to. */
  predicate AuthAgrees(db: Db, r: Response) {
    r.AuthOk? ==>
      && r.tenantId in db.issued && r.bearer == db.issued[r.tenantId].token
      && r.backend == Internal(r.tenantId)
  }

  ghost predicate Agrees(cfg: Config, s: State) {
    WorldAgrees(cfg, s.w) && forall pid :: pid in s.procs ==> ProcAgrees(s.w.db, s.procs[pid])
  }

  /** The creation record only grows. */
  ghost predicate Remembers(db: Db, db': Db) {
    forall t :: t in db.issued ==> t in db'.issued && db'.issued[t] == db.issued[t]
  }

  ghost predicate ReplyAgrees(db: Db, r: Reply) {
    && (r.Found? && r.tenant.Some? ==> Known(db, r.tenant.value))
    && (r.Inserted? ==> Known(db, r.row))
    && (r.Idle? ==> forall tn :: tn in r.tenants ==> Known(db, tn))
  }

  lemma InsertAgrees(db: Db, u: UserId, t: TenantId, token: Token)
    requires RowsAgree(db) && u !in db.byUser && t !in db.issued
    ensures RowsAgree(AddRow(db, u, t, token)) && Remembers(db, AddRow(db, u, t, token))
    ensures Known(AddRow(db, u, t, token), Tenant(u, t, token, Provisioning))
  {
  }

  lemma RemoveAgrees(db: Db, t: TenantId)
    requires RowsAgree(db)
    ensures RowsAgree(RemoveRow(db, t)) && Remembers(db, RemoveRow(db, t))
  {
  }

  lemma UpdateAgrees(db: Db, t: TenantId, status: Status)
    requires RowsAgree(db)
    ensures RowsAgree(SetStatus(db, t, status)) && Remembers(db, SetStatus(db, t, status))
    ensures RowsAgree(SetActive(db, t)) && Remembers(db, SetActive(db, t))
  {
  }

  lemma AnswersAgree(db: Db, u: UserId, order: seq<TenantId>)
    requires RowsAgree(db)
    ensures Lookup(db, u).Some? ==> Known(db, Lookup(db, u).value)
    ensures Lists(order, IdleIds(db)) ==> forall tn :: tn in Listing(db, order) ==> Known(db, tn)
  {
    hide Known;
  }

  lemma StoreAgrees(db: Db, c: Call, ch: Choice)
    requires RowsAgree(db) && IsStoreCall(c)
    ensures var (db', r) := StoreCall(db, c, ch); RowsAgree(db') && Remembers(db, db') && ReplyAgrees(db', r)
  {
    match c
    case FindByUser(u) => AnswersAgree(db, u, ch.order);
    case Insert(u) =>
      if u !in db.byUser && ch.tenantId !in db.issued { InsertAgrees(db, u, ch.tenantId, ch.token); }
    case UpdateStatus(t, status) => UpdateAgrees(db, t, status);
    case Touch(t) => UpdateAgrees(db, t, Ready);
    case FindIdle => AnswersAgree(db, "", ch.order);
    case DeleteRow(t) => RemoveAgrees(db, t);
    hide RowsAgree, Known, AddRow, RemoveRow, SetStatus, SetActive, Lookup, IdleIds, Lists;
  }

  lemma GenuineRemembered(cfg: Config, db: Db, db': Db, k: Kube)
    requires ObjectsAgree(cfg, db, k) && Remembers(db, db')
    ensures ObjectsAgree(cfg, db', k)
  {
  }

  lemma KubeAgrees(cfg: Config, db: Db, k: Kube, c: Call, ch: Choice)
    requires ObjectsAgree(cfg, db, k) && IsKubeCall(c)
    requires c.Create? ==> Genuine(cfg, db.issued, c.manifest)
    ensures ObjectsAgree(cfg, db, KubeCall(k, c, ch).0)
  {
    hide KeyOf, OwnerOf, Build;
  }

  lemma BuildsGenuine(cfg: Config, db: Db, tn: Tenant, pv: Prov, i: nat)
    requires cfg.K8s() && Known(db, tn)
    ensures var spec := SpecOf(cfg, tn.tenantId, tn.token); var c := ProvCall(spec, pv, i);
      && Genuine(cfg, db.issued, BuildPod(spec))
      && (c.Some? && c.value.Create? ==> Genuine(cfg, db.issued, c.value.manifest))
  {
    hide KeyOf, OwnerOf, KeyFor, BuildPvc, BuildSecret, BuildPod, BuildService, BuildRoute;
  }

  /** Handlers whose snapshots agree with the record create nothing but genuine manifests. */
  lemma CreatesGenuine(cfg: Config, db: Db, p: Proc, i: nat)
    requires ProcAgrees(db, p)
    requires CallAt(cfg, p, i).Some? && CallAt(cfg, p, i).value.Create?
    ensures Genuine(cfg, db.issued, CallAt(cfg, p, i).value.manifest)
  {
    OnlyTheseCreate(cfg, p, i);
    if p.Creating? {
      BuildsGenuine(cfg, db, p.tn, p.prov, i);
    } else {
      BuildsGenuine(cfg, db, p.tn, Client, i);
    }
    hide KeyOf, OwnerOf, KeyFor, Genuine, ProvCall, BuildPod, Known, SpecOf;
  }

  lemma OnlyTheseCreate(cfg: Config, p: Proc, i: nat)
    requires CallAt(cfg, p, i).Some? && CallAt(cfg, p, i).value.Create?
    ensures (p.Creating? || p.Waking?) && cfg.K8s()
  {
    hide KeyOf, ProvCall, BuildPod;
  }

  lemma SessionAgrees(cfg: Config, db: Db, p: Proc, i: nat, r: Reply)
    requires ProcAgrees(db, p) && ReplyAgrees(db, r) && IsSession(p)
    ensures ProcAgrees(db, SessionResume(cfg, p, i, r))
  {
    hide ProvResume, Known;
  }

  lemma RequestAgrees(cfg: Config, db: Db, p: Proc, i: nat, r: Reply)
    requires ProcAgrees(db, p) && ReplyAgrees(db, r) && !IsSession(p) && !IsSweeper(p)
    ensures ProcAgrees(db, RequestResume(cfg, p, i, r))
  {
  }

  lemma SweeperAgrees(cfg: Config, db: Db, p: Proc, i: nat, r: Reply, now: nat)
    requires ProcAgrees(db, p) && ReplyAgrees(db, r) && IsSweeper(p)
    ensures ProcAgrees(db, SweeperResume(cfg, p, i, r, now))
  {
    hide TaskStep, AwaitStep, Known;
  }

  lemma ResumeAgrees(cfg: Config, db: Db, p: Proc, i: nat, r: Reply, now: nat)
    requires ProcAgrees(db, p) && ReplyAgrees(db, r)
    ensures ProcAgrees(db, Resume(cfg, p, i, r, now))
  {
    hide ProcAgrees, ReplyAgrees, SessionResume, SweeperResume, RequestResume;
    if IsSession(p) {
      SessionAgrees(cfg, db, p, i, r);
    } else if IsSweeper(p) {
      SweeperAgrees(cfg, db, p, i, r, now);
    } else {
      RequestAgrees(cfg, db, p, i, r);
    }
  }

  lemma ApplyAgrees(cfg: Config, w: World, c: Call, ch: Choice)
    requires WorldAgrees(cfg, w)
    requires c.Create? ==> Genuine(cfg, w.db.issued, c.manifest)
    ensures var (w', r) := Apply(w, c, ch);
            WorldAgrees(cfg, w') && Remembers(w.db, w'.db) && ReplyAgrees(w'.db, r)
  {
    hide RowsAgree, ObjectsAgree, StoreCall, Genuine;
    if IsStoreCall(c) {
      StoreAgrees(w.db, c, ch);
      GenuineRemembered(cfg, w.db, StoreCall(w.db, c, ch).0, w.kube);
    } else if IsKubeCall(c) {
      KubeAgrees(cfg, w.db, w.kube, c, ch);
    }
  }

  lemma ProcRemembered(db: Db, db': Db, p: Proc)
    requires ProcAgrees(db, p) && Remembers(db, db')
    ensures ProcAgrees(db', p)
  {
  }

  lemma ActAgrees(cfg: Config, s: State, pid: nat, ch: Choice)
    requires Agrees(cfg, s) && CallOf(cfg, s, pid, ch).Some?
    ensures Agrees(cfg, ActStep(cfg, s, pid, ch)) && Remembers(s.w.db, ActStep(cfg, s, pid, ch).w.db)
  {
    hide CallAt, Resume, Apply, Genuine, WorldAgrees, ProcAgrees;
    var p, c := s.procs[pid], CallOf(cfg, s, pid, ch).value;
    var (w, r) := Apply(s.w, c, ch);
    if c.Create? { CreatesGenuine(cfg, s.w.db, p, ch.branch); }
    ApplyAgrees(cfg, s.w, c, ch);
    ProcRemembered(s.w.db, w.db, p);
    ResumeAgrees(cfg, w.db, p, ch.branch, r, s.w.db.clock);
    forall q | q in s.procs
      ensures ProcAgrees(w.db, s.procs[q])
    {
      ProcRemembered(s.w.db, w.db, s.procs[q]);
    }
  }

  lemma StepAgrees(cfg: Config, s: State, e: Event)
    requires Agrees(cfg, s)
    ensures Agrees(cfg, Next(cfg, s, e)) && Remembers(s.w.db, Next(cfg, s, e).w.db)
  {
    hide ActStep, CallOf, KeyOf, Genuine;
    if e.Act? && CallOf(cfg, s, e.pid, e.choice).Some? {
      ActAgrees(cfg, s, e.pid, e.choice);
    }
  }

  lemma {:induction false} AlwaysAgrees(cfg: Config, es: Schedule, n: nat)
    ensures Agrees(cfg, At(cfg, es, n))
  {
    if n > 0 {
      AlwaysAgrees(cfg, es, n - 1);
      StepAgrees(cfg, At(cfg, es, n - 1), es(n - 1));
    }
  }
}
