/** Where tokens, hostnames and labels lead in any reachable cluster. */
module Routing {
  import opened Types
  import opened Manifests
  import opened World
  import opened Handlers
  import opened Protocol
  import opened Agreement
  import Base64

  /** The creation record of a tenant never changes. */
  lemma {:induction false} IssuedOnce(cfg: Config, es: Schedule, n: nat, m: nat)
    requires n <= m
    ensures Remembers(At(cfg, es, n).w.db, At(cfg, es, m).w.db)
  {
    hide Next, Agrees;
    if n < m {
      IssuedOnce(cfg, es, n, m - 1);
      AlwaysAgrees(cfg, es, m - 1);
      StepAgrees(cfg, At(cfg, es, m - 1), es(m - 1));
    }
  }

  /** A Secret that is filed under a tenant decodes to the token issued to it. */
  lemma SecretHoldsToken(cfg: Config, w: World, t: TenantId)
    requires WorldAgrees(cfg, w) && Has(w.kube, SecretK, t)
    ensures t in w.db.issued
    ensures var m := w.kube.objs[KeyOf(SecretK, t)];
            m.Secret? && Base64.Decode(m.data) == Some(w.db.issued[t].token)
  {
    hide KeyOf, OwnerOf, BuildPod, BuildPvc, BuildService, BuildRoute;
    var m := w.kube.objs[KeyOf(SecretK, t)];
    assert Genuine(cfg, w.db.issued, m);
  }

  /**
   * In every run, with deletes, stale handlers, conflicts and faults: the row,
   * every snapshot in flight and the decoded Secret of a tenant hold the one
   * token recorded when the tenant was created.
   */
  lemma TokenAgreement(cfg: Config, es: Schedule, n: nat)
    ensures var s := At(cfg, es, n);
      && (forall t :: t in s.w.db.rows ==>
            t in s.w.db.issued && s.w.db.rows[t].tenant.token == s.w.db.issued[t].token)
      && (forall pid :: pid in s.procs && Snapshot(s.procs[pid]).Some? ==>
            var tn := Snapshot(s.procs[pid]).value;
            tn.tenantId in s.w.db.issued && tn.token == s.w.db.issued[tn.tenantId].token)
      && (forall pid, tn | pid in s.procs && s.procs[pid].Sweeping? :: tn in s.procs[pid].sweep.idle ==>
            tn.tenantId in s.w.db.issued && tn.token == s.w.db.issued[tn.tenantId].token)
      && (forall t :: Has(s.w.kube, SecretK, t) ==>
            && t in s.w.db.issued
            && s.w.kube.objs[KeyOf(SecretK, t)].Secret?
            && Base64.Decode(s.w.kube.objs[KeyOf(SecretK, t)].data) == Some(s.w.db.issued[t].token))
  {
    hide KeyOf, Next, From, Genuine;
    AlwaysAgrees(cfg, es, n);
    var s := At(cfg, es, n);
    forall t | Has(s.w.kube, SecretK, t)
      ensures && t in s.w.db.issued
              && s.w.kube.objs[KeyOf(SecretK, t)].Secret?
              && Base64.Decode(s.w.kube.objs[KeyOf(SecretK, t)].data) == Some(s.w.db.issued[t].token)
    {
      SecretHoldsToken(cfg, s.w, t);
    }
  }

  /**
   * The bearer token ext-authz has injected by step n is what the tenant's Pod reads
   * through its secretKeyRef at any later step m at which both exist.
   */
  lemma InjectedTokenReachesPod(cfg: Config, es: Schedule, n: nat, m: nat, pid: nat)
    requires n <= m && pid in At(cfg, es, n).procs
    requires AnswerOf(At(cfg, es, n).procs[pid]).Some? && AnswerOf(At(cfg, es, n).procs[pid]).value.AuthOk?
    ensures var r, k := AnswerOf(At(cfg, es, n).procs[pid]).value, At(cfg, es, m).w.kube;
      && r.backend == Internal(r.tenantId)
      && (Has(k, PodK, r.tenantId) ==>
            var pod := k.objs[KeyOf(PodK, r.tenantId)];
            && pod.Pod? && pod.tokenRef.key == "token"
            && var secret := Key(SecretK, pod.tokenRef.name);
               secret in k.objs ==> k.objs[secret].Secret? && Base64.Decode(k.objs[secret].data) == Some(r.bearer))
  {
    hide KeyOf, OwnerOf, Next, From, BuildPvc, BuildSecret, BuildService, BuildRoute;
    AlwaysAgrees(cfg, es, n);
    AlwaysAgrees(cfg, es, m);
    IssuedOnce(cfg, es, n, m);
    assert ProcAgrees(At(cfg, es, n).w.db, At(cfg, es, n).procs[pid]);
    var r, w := AnswerOf(At(cfg, es, n).procs[pid]).value, At(cfg, es, m).w;
    if Has(w.kube, PodK, r.tenantId) {
      assert Genuine(cfg, w.db.issued, w.kube.objs[KeyOf(PodK, r.tenantId)]);
      if Has(w.kube, SecretK, r.tenantId) {
        SecretHoldsToken(cfg, w, r.tenantId);
      }
    }
  }

  /** Live rows have distinct users, and every object belongs to exactly one issued tenant. */
  lemma OneTenantPerUser(cfg: Config, es: Schedule, n: nat)
    ensures var s := At(cfg, es, n);
      && (forall t, t' | t in s.w.db.rows && t' in s.w.db.rows ::
            s.w.db.rows[t].tenant.userId == s.w.db.rows[t'].tenant.userId ==> t == t')
      && (forall t :: t in s.w.db.rows ==>
            t in s.w.db.issued && s.w.db.issued[t].userId == s.w.db.rows[t].tenant.userId)
      && (forall t :: t in s.w.db.rows ==>
            Lookup(s.w.db, s.w.db.rows[t].tenant.userId) == Some(s.w.db.rows[t].tenant))
      && (forall key :: key in s.w.kube.objs ==>
            && OwnerOf(key) in s.w.db.issued
            && key == KeyOf(key.kind, OwnerOf(key)))
      && (forall key, t :: key in s.w.kube.objs && key == KeyOf(key.kind, t) ==> t == OwnerOf(key))
  {
    hide KeyOf, OwnerOf, Next, From;
    AlwaysAgrees(cfg, es, n);
    var s := At(cfg, es, n);
    forall key | key in s.w.kube.objs
      ensures OwnerOf(key) in s.w.db.issued && key == KeyOf(key.kind, OwnerOf(key))
    {
      assert Genuine(cfg, s.w.db.issued, s.w.kube.objs[key]);
    }
  }

  lemma HostnameInjective(t: TenantId, t': TenantId, domain: string)
    requires Hostname(t, domain) == Hostname(t', domain)
    ensures t == t'
  {
    assert |t| == |t'|;
    assert Hostname(t, domain)[..|t|] == t && Hostname(t', domain)[..|t'|] == t';
  }

  /** Whether a request for a host can end up at a Pod: through a route, its backend, and the backend's selector. */
  ghost predicate Reaches(k: Kube, host: string, pod: Key) {
    exists route: Key ::
      && route in k.objs && k.objs[route].Route? && k.objs[route].hostname == host
      && var service := Key(ServiceK, k.objs[route].backend);
      && service in k.objs && k.objs[service].Service?
      && pod in k.objs && k.objs[pod].Pod? && Selects(k.objs[service].selector, k.objs[pod].labels)
  }

  lemma RouteLeadsHome(cfg: Config, w: World, t: TenantId, route: Key, pod: Key)
    requires WorldAgrees(cfg, w) && cfg.domain.Some?
    requires route in w.kube.objs && w.kube.objs[route].Route?
    requires w.kube.objs[route].hostname == Hostname(t, cfg.domain.value)
    requires var service := Key(ServiceK, w.kube.objs[route].backend);
      && service in w.kube.objs && w.kube.objs[service].Service?
      && pod in w.kube.objs && w.kube.objs[pod].Pod?
      && Selects(w.kube.objs[service].selector, w.kube.objs[pod].labels)
    ensures route == KeyOf(RouteK, t) && pod == KeyOf(PodK, t)
  {
    hide KeyOf, OwnerOf, Hostname;
    var r, p := w.kube.objs[route], w.kube.objs[pod];
    var service := Key(ServiceK, r.backend);
    assert Genuine(cfg, w.db.issued, r) && Genuine(cfg, w.db.issued, p)
        && Genuine(cfg, w.db.issued, w.kube.objs[service]);
    HostnameInjective(OwnerOf(route), t, cfg.domain.value);
    assert TENANT_LABEL in w.kube.objs[service].selector;
  }

  /**
   * In every reachable cluster a tenant's public host leads to the tenant's own
   * Pod and to no other, and it does so whenever route, Service and Pod exist.
   */
  lemma HostReachesOwnPodOnly(cfg: Config, es: Schedule, n: nat, t: TenantId, pod: Key)
    requires cfg.domain.Some?
    ensures var k := At(cfg, es, n).w.kube;
      Reaches(k, Hostname(t, cfg.domain.value), pod)
      <==> Has(k, RouteK, t) && Has(k, ServiceK, t) && Has(k, PodK, t) && pod == KeyOf(PodK, t)
  {
    hide At;
    AlwaysAgrees(cfg, es, n);
    ClusterReaches(cfg, At(cfg, es, n).w, t, pod);
  }

  lemma ReachedIsOwn(cfg: Config, w: World, t: TenantId, pod: Key)
    requires WorldAgrees(cfg, w) && cfg.domain.Some? && Reaches(w.kube, Hostname(t, cfg.domain.value), pod)
    ensures Has(w.kube, RouteK, t) && Has(w.kube, ServiceK, t) && Has(w.kube, PodK, t) && pod == KeyOf(PodK, t)
  {
    hide KeyOf, OwnerOf, Hostname;
    var route: Key :|
      && route in w.kube.objs && w.kube.objs[route].Route?
      && w.kube.objs[route].hostname == Hostname(t, cfg.domain.value)
      && var service := Key(ServiceK, w.kube.objs[route].backend);
      && service in w.kube.objs && w.kube.objs[service].Service?
      && pod in w.kube.objs && w.kube.objs[pod].Pod?
      && Selects(w.kube.objs[service].selector, w.kube.objs[pod].labels);
    RouteLeadsHome(cfg, w, t, route, pod);
    assert Genuine(cfg, w.db.issued, w.kube.objs[route]);
  }

  lemma OwnIsReached(cfg: Config, w: World, t: TenantId)
    requires WorldAgrees(cfg, w) && cfg.domain.Some?
    requires Has(w.kube, RouteK, t) && Has(w.kube, ServiceK, t) && Has(w.kube, PodK, t)
    ensures Reaches(w.kube, Hostname(t, cfg.domain.value), KeyOf(PodK, t))
  {
    hide KeyOf, OwnerOf, Hostname, RowsAgree;
    var route := KeyOf(RouteK, t);
    assert Genuine(cfg, w.db.issued, w.kube.objs[route]);
    assert Genuine(cfg, w.db.issued, w.kube.objs[KeyOf(ServiceK, t)]);
    assert Genuine(cfg, w.db.issued, w.kube.objs[KeyOf(PodK, t)]);
    assert Key(ServiceK, w.kube.objs[route].backend) == KeyOf(ServiceK, t);
  }

  lemma ClusterReaches(cfg: Config, w: World, t: TenantId, pod: Key)
    requires WorldAgrees(cfg, w) && cfg.domain.Some?
    ensures Reaches(w.kube, Hostname(t, cfg.domain.value), pod)
            <==> Has(w.kube, RouteK, t) && Has(w.kube, ServiceK, t) && Has(w.kube, PodK, t) && pod == KeyOf(PodK, t)
  {
    hide KeyOf, OwnerOf, Hostname, WorldAgrees, Reaches;
    if Reaches(w.kube, Hostname(t, cfg.domain.value), pod) { ReachedIsOwn(cfg, w, t, pod); }
    if Has(w.kube, RouteK, t) && Has(w.kube, ServiceK, t) && Has(w.kube, PodK, t) { OwnIsReached(cfg, w, t); }
  }
}
