/** What the finished answers of every run tell their callers, and what they do to the sweeper. */
module Answers {
  import opened Types
  import opened Manifests
  import opened World
  import opened Handlers
  import opened Protocol
  import opened Agreement
  import opened Backing
  import Routing
  import Base64
  import Sweeps
  import Activity

  /** Handler pid has ended with the answer r by step n. */
  predicate Ended(cfg: Config, es: Schedule, n: nat, pid: nat, r: Response) {
    pid in At(cfg, es, n).procs && At(cfg, es, n).procs[pid] == Done(r)
  }

  // --- Address and token ---

  lemma SessionHasBacking(cfg: Config, es: Schedule, n: nat, pid: nat, r: Response) returns (tn: Tenant, isNew: bool)
    requires Ended(cfg, es, n, pid, r) && r.SessionOk?
    ensures SessionBacked(cfg, Log(cfg, es, n, pid), r, tn, isNew)
    ensures Known(At(cfg, es, n).w.db, tn)
  {
    hide At, Log, SessionBacked;
    AlwaysBacked(cfg, es, n, pid);
    tn, isNew :| SessionBacked(cfg, Log(cfg, es, n, pid), r, tn, isNew);
    assert ReadRow(tn) in Log(cfg, es, n, pid) || OwnInsert(tn) in Log(cfg, es, n, pid) by {
      BackingRow(cfg, Log(cfg, es, n, pid), r, tn, isNew);
    }
    LogIsKnown(cfg, es, n, pid, tn);
  }

  lemma BackingRow(cfg: Config, log: set<Fact>, r: Response, tn: Tenant, isNew: bool)
    requires r.SessionOk? && SessionBacked(cfg, log, r, tn, isNew)
    ensures ReadRow(tn) in log || OwnInsert(tn) in log
  {
    hide AddressText, ShownToken, StatusBacked;
  }

  /**
   * The token a session answers, in every run: none behind a gateway; else the dev
   * token, if there is one; else the token issued at the tenant's creation.
   */
  lemma SessionShowsToken(cfg: Config, es: Schedule, n: nat, pid: nat, r: Response)
    requires Ended(cfg, es, n, pid, r) && r.SessionOk?
    ensures var issued := At(cfg, es, n).w.db.issued;
      && r.tenantId in issued
      && (cfg.domain.Some? ==> r.token == None)
      && (cfg.domain.None? && cfg.devToken.Some? ==> r.token == cfg.devToken)
      && (cfg.domain.None? && cfg.devToken.None? ==> r.token == Some(issued[r.tenantId].token))
  {
    hide At, Log, AddressText, Entered, StatusBacked;
    var tn, isNew := SessionHasBacking(cfg, es, n, pid, r);
  }

  /**
   * The address a session answers, in every run. Without a gateway it is the
   * template with the tenant's id. Behind a gateway, with Kubernetes, it is the
   * scheme and the host name written in the tenant's own route, whenever that
   * exists; and that host leads to no Pod but the tenant's own.
   */
  lemma SessionShowsAddress(cfg: Config, es: Schedule, n: nat, pid: nat, r: Response, m: nat, pod: Key)
    requires Ended(cfg, es, n, pid, r) && r.SessionOk?
    ensures cfg.domain.None? ==> r.url.Text() == Substitute(cfg.template, r.tenantId)
    ensures cfg.domain.Some? && cfg.K8s() ==>
      var k, host := At(cfg, es, m).w.kube, r.tenantId + "." + cfg.domain.value;
      && r.url.Text() == cfg.scheme + "://" + host
      && (Has(k, RouteK, r.tenantId) ==>
            k.objs[KeyOf(RouteK, r.tenantId)].Route? && k.objs[KeyOf(RouteK, r.tenantId)].hostname == host)
      && (Routing.Reaches(k, host, pod) <==>
            Has(k, RouteK, r.tenantId) && Has(k, ServiceK, r.tenantId) && Has(k, PodK, r.tenantId)
            && pod == KeyOf(PodK, r.tenantId))
  {
    var tn, isNew := SessionHasBacking(cfg, es, n, pid, r);
    assert r.tenantId == tn.tenantId && r.url.Text() == AddressText(cfg, tn.tenantId, !isNew || cfg.K8s());
    if cfg.domain.Some? && cfg.K8s() {
      var k, t := At(cfg, es, m).w.kube, r.tenantId;
      assert Hostname(t, cfg.domain.value) == t + "." + cfg.domain.value;
      hide At, Log, KeyOf, OwnerOf, Hostname, Substitute, SessionBacked;
      Routing.HostReachesOwnPodOnly(cfg, es, m, t, pod);
      if Has(k, RouteK, t) { RouteHasHost(cfg, es, m, t); }
    }
  }

  lemma RouteHasHost(cfg: Config, es: Schedule, m: nat, t: TenantId)
    requires cfg.domain.Some? && Has(At(cfg, es, m).w.kube, RouteK, t)
    ensures var route := At(cfg, es, m).w.kube.objs[KeyOf(RouteK, t)];
      route.Route? && route.hostname == Hostname(t, cfg.domain.value)
  {
    hide At, KeyOf, OwnerOf, Hostname;
    AlwaysAgrees(cfg, es, m);
    var w := At(cfg, es, m).w;
    assert Genuine(cfg, w.db.issued, w.kube.objs[KeyOf(RouteK, t)]);
  }

  /**
   * Behind a gateway but without Kubernetes, a session of an existing row shows the
   * gateway address, and a first session the template's.
   */
  lemma SessionShowsAddressWithoutCluster(cfg: Config, es: Schedule, n: nat, pid: nat, r: Response)
    requires Ended(cfg, es, n, pid, r) && r.SessionOk? && cfg.domain.Some? && !cfg.K8s()
    ensures var log, gateway := Log(cfg, es, n, pid), cfg.scheme + "://" + (r.tenantId + "." + cfg.domain.value);
      exists tn: Tenant ::
        && tn.tenantId == r.tenantId
        && (|| (ReadRow(tn) in log && r.url.Text() == gateway)
            || (OwnInsert(tn) in log && r.url.Text() == Substitute(cfg.template, r.tenantId)))
  {
    hide At, Log, Substitute;
    var tn, isNew := SessionHasBacking(cfg, es, n, pid, r);
  }

  // --- The template ---

  const PLACEHOLDER := "{tenant_id}"

  predicate OccursAt(text: string, i: nat) { i + 11 <= |text| && text[i..i + 11] == PLACEHOLDER }

  /** Whether the placeholder stands somewhere in the text. */
  ghost predicate Occurs(text: string) { exists i: nat :: OccursAt(text, i) }

  lemma OccursLater(text: string)
    requires text != [] && Occurs(text[1..])
    ensures Occurs(text)
  {
    var i: nat :| OccursAt(text[1..], i);
    assert text[i + 1..i + 12] == text[1..][i..i + 11];
    assert OccursAt(text, i + 1);
  }

  /** A template without the placeholder is the address of every tenant. */
  lemma {:induction false} NothingToReplace(text: string, t: TenantId)
    requires !Occurs(text)
    ensures Substitute(text, t) == text
  {
    if |text| >= 11 {
      assert text[..11] == text[0..0 + 11];
      assert !OccursAt(text, 0);
      if Occurs(text[1..]) { OccursLater(text); }
      NothingToReplace(text[1..], t);
    }
  }

  /** The first placeholder becomes the tenant's id, and the text after it is treated likewise. */
  lemma {:induction false} FirstIsReplaced(before: string, after: string, t: TenantId)
    requires !Occurs(before)
    ensures Substitute(before + PLACEHOLDER + after, t) == before + t + Substitute(after, t)
  {
    var text := before + PLACEHOLDER + after;
    if before == [] {
      assert text[..11] == PLACEHOLDER && text[11..] == after;
      assert before + t + Substitute(after, t) == t + Substitute(after, t);
    } else {
      NotHere(before, after);
      assert text[1..] == before[1..] + PLACEHOLDER + after;
      if Occurs(before[1..]) { OccursLater(before); }
      FirstIsReplaced(before[1..], after, t);
      var rest := Substitute(after, t);
      assert Substitute(text, t) == [text[0]] + Substitute(text[1..], t);
      hide Substitute, Occurs;
      Shifts(before, t, rest);
    }
  }

  lemma Shifts(before: string, t: string, rest: string)
    requires before != []
    ensures [before[0]] + (before[1..] + t + rest) == before + t + rest
  {
  }

  lemma OneBrace(k: nat)
    requires 0 < k < 11
    ensures PLACEHOLDER[k] != PLACEHOLDER[0]
  {
  }

  lemma NotHere(before: string, after: string)
    requires before != [] && !Occurs(before)
    ensures (before + PLACEHOLDER + after)[..11] != PLACEHOLDER
  {
    var text := before + PLACEHOLDER + after;
    if |before| >= 11 {
      assert before[0..0 + 11] == text[..11];
      assert !OccursAt(before, 0);
    } else {
      OneBrace(|before|);
      assert text[..11][|before|] == PLACEHOLDER[0];
    }
  }

  // --- Activity ---

  /** What is no longer in the table never comes back. */
  lemma {:induction false} GoneStaysGone(cfg: Config, es: Schedule, n: nat, m: nat, t: TenantId)
    requires n <= m && t in At(cfg, es, n).w.db.issued && t !in At(cfg, es, n).w.db.rows
    ensures t in At(cfg, es, m).w.db.issued && t !in At(cfg, es, m).w.db.rows
  {
    hide At, RowsAgree, Next;
    if n < m {
      GoneStaysGone(cfg, es, n, m - 1, t);
      AtStep(cfg, es, m - 1);
      AlwaysAgrees(cfg, es, m - 1);
      Sweeps.ActivityGrows(cfg, At(cfg, es, m - 1), es(m - 1), t);
    }
  }

  /** No query made within 3600 seconds of step j lists the tenant. */
  ghost predicate SparedSince(cfg: Config, es: Schedule, j: nat, t: TenantId) {
    forall m {:trigger At(cfg, es, m)} :: j < m && At(cfg, es, m).w.db.clock <= At(cfg, es, j).w.db.clock + 3600 ==>
      t !in IdleIds(At(cfg, es, m).w.db)
  }

  lemma TouchSpares(cfg: Config, es: Schedule, j: nat, pid: nat, t: TenantId)
    requires Calls(cfg, es, j, pid, Touch(t)) && es(j).choice.fate != Before
    ensures SparedSince(cfg, es, j, t)
  {
    TouchersKnow(cfg, es, j, pid, t);
    hide At, CallOf, IdleIds;
    forall m | j < m && At(cfg, es, m).w.db.clock <= At(cfg, es, j).w.db.clock + 3600
      ensures t !in IdleIds(At(cfg, es, m).w.db)
    {
      if t in At(cfg, es, j).w.db.rows {
        Sweeps.TouchedIsSpared(cfg, es, j, m, t);
      } else {
        GoneStaysGone(cfg, es, j, m, t);
        NoRowNotIdle(At(cfg, es, m).w.db, t);
      }
    }
  }

  lemma NoRowNotIdle(db: Db, t: TenantId)
    requires t !in db.rows
    ensures t !in IdleIds(db)
  {
  }

  lemma TouchersKnow(cfg: Config, es: Schedule, j: nat, pid: nat, t: TenantId)
    requires Calls(cfg, es, j, pid, Touch(t))
    ensures t in At(cfg, es, j).w.db.issued
  {
    hide At, KeyOf;
    AlwaysAgrees(cfg, es, j);
    var p := At(cfg, es, j).procs[pid];
    assert ProcAgrees(At(cfg, es, j).w.db, p);
    TouchersHold(cfg, p, es(j).choice.branch, t);
  }

  lemma TouchersHold(cfg: Config, p: Proc, i: nat, t: TenantId)
    requires CallAt(cfg, p, i) == Some(Touch(t))
    ensures Snapshot(p).Some? && Snapshot(p).value.tenantId == t
  {
    hide KeyOf;
  }

  lemma AckedIsClean(w: World, c: Call, ch: Choice)
    requires c.Touch? && Acked(c) in FactsOf(c, Apply(w, c, ch).1)
    ensures ch.fate == Clean
  {
  }

  lemma FactCall(c: Call, r: Reply, t: TenantId)
    ensures Acked(Touch(t)) in FactsOf(c, r) || Sent(Touch(t)) in FactsOf(c, r) ==> c == Touch(t)
    ensures forall tn {:trigger OwnInsert(tn)} :: OwnInsert(tn) in FactsOf(c, r) ==> r == Inserted(tn)
  {
  }

  /**
   * Every handler that ends with AuthOk has a step of its own at which it touched
   * that tenant; and unless that touch was lost before taking effect, the tenant is
   * in no answer of a query made within 3600 seconds of it.
   */
  lemma AuthRecordsActivity(cfg: Config, es: Schedule, n: nat, pid: nat, r: Response) returns (j: nat)
    requires Ended(cfg, es, n, pid, r) && r.AuthOk?
    ensures j < n && Calls(cfg, es, j, pid, Touch(r.tenantId))
    ensures es(j).choice.fate != Before ==> SparedSince(cfg, es, j, r.tenantId)
  {
    hide At, Log, CallOf, SparedSince, FactsOf, ReplyAt, AuthBacked;
    AlwaysBacked(cfg, es, n, pid);
    assert Sent(Touch(r.tenantId)) in Log(cfg, es, n, pid);
    var c;
    j, c := FactHasStep(cfg, es, n, pid, Sent(Touch(r.tenantId)));
    FactCall(c, ReplyAt(cfg, es, j, c), r.tenantId);
    if es(j).choice.fate != Before { TouchSpares(cfg, es, j, pid, r.tenantId); }
  }

  /** The insert that answered with this row. */
  predicate InsertsAt(cfg: Config, es: Schedule, j: nat, pid: nat, t: TenantId) {
    && t !in At(cfg, es, j).w.db.rows && t in At(cfg, es, j + 1).w.db.rows
    && es(j).Act? && es(j).pid == pid
    && CallOf(cfg, At(cfg, es, j), pid, es(j).choice).Some?
        && CallOf(cfg, At(cfg, es, j), pid, es(j).choice).value.Insert?
  }

  lemma InsertedNow(cfg: Config, es: Schedule, j: nat, pid: nat, c: Call, tn: Tenant)
    requires Calls(cfg, es, j, pid, c) && ReplyAt(cfg, es, j, c) == Inserted(tn)
    ensures InsertsAt(cfg, es, j, pid, tn.tenantId)
  {
    AlwaysAgrees(cfg, es, j);
    AtStep(cfg, es, j);
    InsertAdds(At(cfg, es, j).w, c, es(j).choice, tn);
    hide At, Apply, CallOf, Resume, KeyOf;
  }

  lemma InsertAdds(w: World, c: Call, ch: Choice, tn: Tenant)
    requires RowsAgree(w.db) && Apply(w, c, ch).1 == Inserted(tn)
    ensures c.Insert? && tn.tenantId !in w.db.rows && tn.tenantId in Apply(w, c, ch).0.db.rows
  {
    hide KeyOf, KeyFor, Lists, IdleIds, Answers, Lookup;
  }

  /**
   * Every handler that ends with SessionOk has a step of its own at which it touched
   * that tenant, with the touch acknowledged, or inserted it; and the tenant is in no
   * answer of a query made within 3600 seconds of that step.
   */
  lemma SessionRecordsActivity(cfg: Config, es: Schedule, n: nat, pid: nat, r: Response) returns (j: nat)
    requires Ended(cfg, es, n, pid, r) && r.SessionOk?
    ensures j < n && SparedSince(cfg, es, j, r.tenantId)
    ensures || (Calls(cfg, es, j, pid, Touch(r.tenantId)) && es(j).choice.fate == Clean)
            || InsertsAt(cfg, es, j, pid, r.tenantId)
  {
    var tn, isNew := SessionHasBacking(cfg, es, n, pid, r);
    var log, t := Log(cfg, es, n, pid), r.tenantId;
    assert tn.tenantId == t && Entered(log, tn, isNew);
    assert OwnInsert(tn) in log || Acked(Touch(t)) in log;
    hide At, Log, CallOf, SparedSince, FactsOf, SessionBacked, InsertsAt, Entered, IdleIds;
    var c;
    if OwnInsert(tn) in log {
      j, c := FactHasStep(cfg, es, n, pid, OwnInsert(tn));
      FactCall(c, ReplyAt(cfg, es, j, c), t);
      InsertedNow(cfg, es, j, pid, c, tn);
      InsertSpares(cfg, es, j, pid, t);
    } else {
      j, c := FactHasStep(cfg, es, n, pid, Acked(Touch(t)));
      FactCall(c, ReplyAt(cfg, es, j, c), t);
      AckedIsClean(At(cfg, es, j).w, c, es(j).choice);
      TouchSpares(cfg, es, j, pid, t);
    }
  }

  lemma InsertSpares(cfg: Config, es: Schedule, j: nat, pid: nat, t: TenantId)
    requires InsertsAt(cfg, es, j, pid, t)
    ensures SparedSince(cfg, es, j, t)
  {
    hide At, CallOf, IdleIds;
    forall m | j < m && At(cfg, es, m).w.db.clock <= At(cfg, es, j).w.db.clock + 3600
      ensures t !in IdleIds(At(cfg, es, m).w.db)
    {
      Activity.InsertedIsSpared(cfg, es, j, m, t);
    }
  }

  // --- Objects ---

  /** In every run the tenant's objects are named, labelled, linked and configured like this. */
  lemma ObjectsAreAsConfigured(cfg: Config, es: Schedule, n: nat, t: TenantId)
    ensures var k := At(cfg, es, n).w.kube; var name := "tenant-" + t;
      && (Has(k, PvcK, t) ==> k.objs[KeyOf(PvcK, t)] == Pvc(name + "-data", t, cfg.storageClass))
      && (Has(k, SecretK, t) ==>
            var m := k.objs[KeyOf(SecretK, t)]; m.Secret? && m.name == name + "-token" && m.tenant == t)
      && (Has(k, PodK, t) ==>
            && cfg.image.Some?
            && k.objs[KeyOf(PodK, t)]
               == Pod(name,
                      map["app" := "houston-engine", "houston.ai/role" := "tenant-engine", "houston.ai/tenant" := t],
                      cfg.image.value, SecretRef(name + "-token", "token"), name + "-data", cfg.gvisor))
      && (Has(k, ServiceK, t) ==>
            k.objs[KeyOf(ServiceK, t)] == Service(name, t, map["houston.ai/tenant" := t], 7777))
      && (Has(k, RouteK, t) ==>
            && cfg.domain.Some?
            && k.objs[KeyOf(RouteK, t)] == Route(name, t, t + "." + cfg.domain.value, name, 7777))
  {
    hide At, KeyOf, OwnerOf, Build;
    var w := At(cfg, es, n).w;
    forall kind: Kind | Has(w.kube, kind, t)
      ensures cfg.K8s() && t in w.db.issued && (kind == RouteK ==> cfg.domain.Some?)
      ensures w.kube.objs[KeyOf(kind, t)] == Build(kind, SpecOf(cfg, t, w.db.issued[t].token))
    {
      ObjectAt(cfg, es, n, kind, t);
    }
    if t in w.db.issued { AsWritten(SpecOf(cfg, t, w.db.issued[t].token)); }
  }

  lemma ObjectAt(cfg: Config, es: Schedule, n: nat, kind: Kind, t: TenantId)
    requires Has(At(cfg, es, n).w.kube, kind, t)
    ensures var w := At(cfg, es, n).w;
      && cfg.K8s() && t in w.db.issued && (kind == RouteK ==> cfg.domain.Some?)
      && w.kube.objs[KeyOf(kind, t)] == Build(kind, SpecOf(cfg, t, w.db.issued[t].token))
  {
    hide At, KeyOf, OwnerOf, Build;
    AlwaysAgrees(cfg, es, n);
    var w := At(cfg, es, n).w;
    assert Genuine(cfg, w.db.issued, w.kube.objs[KeyOf(kind, t)]);
  }

  /** What the builders write, field by field. */
  lemma AsWritten(spec: TenantSpec)
    ensures var t, name := spec.tenantId, "tenant-" + spec.tenantId;
      && Build(PvcK, spec) == Pvc(name + "-data", t, spec.storageClass)
      && (var m := Build(SecretK, spec); m.Secret? && m.name == name + "-token" && m.tenant == t)
      && Build(PodK, spec)
         == Pod(name,
                map["app" := "houston-engine", "houston.ai/role" := "tenant-engine", "houston.ai/tenant" := t],
                spec.image, SecretRef(name + "-token", "token"), name + "-data", spec.gvisor)
      && Build(ServiceK, spec) == Service(name, t, map["houston.ai/tenant" := t], 7777)
      && (spec.domain.Some? ==>
            Build(RouteK, spec) == Route(name, t, t + "." + spec.domain.value, name, 7777))
  {
    hide KeyOf, OwnerOf, Base64.Encode;
  }

  /**
   * The backend of an ext-authz answer, in every run, is the address of the
   * tenant's own Service, on the Service's port; and that Service selects no Pod
   * but the tenant's own.
   */
  lemma AuthLeadsHome(cfg: Config, es: Schedule, n: nat, pid: nat, r: Response, m: nat, pod: Key)
    requires Ended(cfg, es, n, pid, r) && r.AuthOk?
    ensures r.backend.Text() == "http://tenant-" + r.tenantId + ".houston-tenants.svc.cluster.local:7777"
    ensures var k := At(cfg, es, m).w.kube;
      Has(k, ServiceK, r.tenantId) ==>
        var service := k.objs[KeyOf(ServiceK, r.tenantId)];
        && service.Service? && service.port == 7777
        && r.backend.Text() == "http://" + service.name + ".houston-tenants.svc.cluster.local:7777"
        && (pod in k.objs && k.objs[pod].Pod? && Selects(service.selector, k.objs[pod].labels) ==>
              pod == KeyOf(PodK, r.tenantId))
  {
    hide At, KeyOf, OwnerOf, Selects;
    AuthBackendText(cfg, es, n, pid, r);
    var k, t := At(cfg, es, m).w.kube, r.tenantId;
    if Has(k, ServiceK, t) {
      ServiceAt(cfg, es, m, t);
      Prefixed(t);
      if pod in k.objs && k.objs[pod].Pod? && Selects(k.objs[KeyOf(ServiceK, t)].selector, k.objs[pod].labels) {
        SelectedIsOwn(cfg, es, m, t, pod);
      }
    }
  }

  lemma Prefixed(t: TenantId)
    ensures "http://" + ("tenant-" + t) + ".houston-tenants.svc.cluster.local:7777"
         == "http://tenant-" + t + ".houston-tenants.svc.cluster.local:7777"
  {
    assert "http://" + ("tenant-" + t) == "http://tenant-" + t;
  }

  lemma ServiceAt(cfg: Config, es: Schedule, m: nat, t: TenantId)
    requires Has(At(cfg, es, m).w.kube, ServiceK, t)
    ensures At(cfg, es, m).w.kube.objs[KeyOf(ServiceK, t)]
         == Service("tenant-" + t, t, map["houston.ai/tenant" := t], 7777)
  {
    hide At, KeyOf, OwnerOf;
    ObjectsAreAsConfigured(cfg, es, m, t);
  }

  lemma AuthBackendText(cfg: Config, es: Schedule, n: nat, pid: nat, r: Response)
    requires Ended(cfg, es, n, pid, r) && r.AuthOk?
    ensures r.backend.Text() == "http://tenant-" + r.tenantId + ".houston-tenants.svc.cluster.local:7777"
  {
    AlwaysAgrees(cfg, es, n);
    assert ProcAgrees(At(cfg, es, n).w.db, At(cfg, es, n).procs[pid]);
    NoSuffix(r.tenantId);
    assert "http://" + ("tenant-" + r.tenantId) == "http://tenant-" + r.tenantId;
    hide At, KeyOf, OwnerOf;
  }

  lemma SelectedIsOwn(cfg: Config, es: Schedule, m: nat, t: TenantId, pod: Key)
    requires var k := At(cfg, es, m).w.kube;
      pod in k.objs && k.objs[pod].Pod? && Selects(map["houston.ai/tenant" := t], k.objs[pod].labels)
    ensures pod == KeyOf(PodK, t)
  {
    AlwaysAgrees(cfg, es, m);
    var w := At(cfg, es, m).w;
    hide At, KeyOf, OwnerOf;
    assert Genuine(cfg, w.db.issued, w.kube.objs[pod]);
    assert "houston.ai/tenant" in map["houston.ai/tenant" := t];
  }
}
