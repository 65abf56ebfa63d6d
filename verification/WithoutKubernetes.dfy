/**
 * The handlers without Kubernetes: rows only, in closed form for whatever is
 * lost, and as a machine when nothing is.
 */
module WithoutKubernetes {
  import opened Types
  import opened Manifests
  import opened World
  import opened Handlers
  import opened Agreement
  import opened Serial
  import opened Views
  import opened Lockstep
  import Backing
  import Limits
  import Activity

  lemma ObjectsNeedKubernetes(cfg: Config, w: World, key: Key)
    requires WorldAgrees(cfg, w)
    ensures key in w.kube.objs ==> cfg.K8s()
  {
    hide KeyOf, OwnerOf, Build, RowsAgree;
  }

  /** Without Kubernetes no object ever exists. */
  lemma NoObjects(cfg: Config, w: World)
    requires !cfg.K8s() && WorldAgrees(cfg, w)
    ensures w.kube.objs == map[]
  {
    hide WorldAgrees;
    forall key: Key
      ensures key !in w.kube.objs
    {
      ObjectsNeedKubernetes(cfg, w, key);
    }
  }

  /** Only the status of tenant t has changed. */
  ghost predicate OnlyStatus(w: World, w': World, t: TenantId, status: Status) {
    && w'.kube == w.kube && w'.db.byUser == w.db.byUser && w'.db.issued == w.db.issued && w'.db.clock == w.db.clock
    && w'.db.rows.Keys == w.db.rows.Keys
    && (forall x :: x in w.db.rows && x != t ==> w'.db.rows[x] == w.db.rows[x])
    && t in w.db.rows && w'.db.rows[t] == w.db.rows[t].(tenant := w.db.rows[t].tenant.(status := status))
  }

  /** Only the row of tenant t has gone, with its place in the index. */
  ghost predicate OnlyRemoved(w: World, w': World, t: TenantId) {
    && t in w.db.rows
    && w'.kube == w.kube && w'.db.issued == w.db.issued && w'.db.clock == w.db.clock
    && w'.db.rows == w.db.rows - {t} && w'.db.byUser == w.db.byUser - {w.db.rows[t].tenant.userId}
  }

  lemma StatusOnly(w: World, t: TenantId, status: Status, ch: Choice)
    requires t in w.db.rows
    ensures var (db, r) := StoreCall(w.db, UpdateStatus(t, status), ch);
      && (if ch.fate == Before then db == w.db else OnlyStatus(w, w.(db := db), t, status))
      && (r.Ok? <==> ch.fate == Clean)
  {
  }

  lemma RemovedOnly(w: World, t: TenantId, ch: Choice)
    requires t in w.db.rows
    ensures var (db, r) := StoreCall(w.db, DeleteRow(t), ch);
      && (if ch.fate == Before then db == w.db else OnlyRemoved(w, w.(db := db), t))
      && (r.Ok? <==> ch.fate == Clean)
  {
  }

  lemma SameDb(w: World)
    ensures w.(db := w.db) == w && w.(kube := w.kube) == w
  {
  }

  /**
   * POST /api/tenant/suspend without Kubernetes, whatever is lost: 404 without a
   * row, 409 unless Ready, and neither changes anything; otherwise the row becomes
   * Suspended unless the update is lost before taking effect, nothing else changes,
   * and the answer is 204 exactly if the update was acknowledged.
   */
  lemma SuspendWithoutCluster(cfg: Config, w: World, u: UserId, o: Oracle, n: nat)
    requires !cfg.K8s() && RowsAgree(w.db)
    ensures var (w', p, _) := Drive(cfg, w, SuspendFind(u), o, n);
      if o(n).fate != Clean then w' == w && p == Done(Fault(500))
      else match Lookup(w.db, u)
           case None => w' == w && p == Done(Fault(404))
           case Some(tn) =>
             if tn.status != Ready then w' == w && p == Done(Fault(409))
             else
               && p == Done(if o(n + 1).fate == Clean then NoContent else Fault(500))
               && (if o(n + 1).fate == Before then w' == w else OnlyStatus(w, w', tn.tenantId, Suspended))
  {
    Activity.LookupInRows(w.db, u);
    hide Drive, Lookup, RowsAgree, StoreCall, OnlyStatus;
    Limits.Finds(cfg, w, SuspendFind(u), o, n);
    Activity.EndsAll(cfg, w, o, n + 1);
    if o(n).fate == Clean && Lookup(w.db, u).Some? && Lookup(w.db, u).value.status == Ready {
      MarkAlone(cfg, w, Lookup(w.db, u).value, o, n + 1);
    }
  }

  lemma MarkAlone(cfg: Config, w: World, tn: Tenant, o: Oracle, n: nat)
    requires tn.tenantId in w.db.rows
    ensures var (w', p, _) := Drive(cfg, w, SuspendMark(tn), o, n);
      && p == Done(if o(n).fate == Clean then NoContent else Fault(500))
      && (if o(n).fate == Before then w' == w else OnlyStatus(w, w', tn.tenantId, Suspended))
  {
    hide Drive, StoreCall, OnlyStatus;
    FollowsStore(cfg, w, SuspendMark(tn), o, n, UpdateStatus(tn.tenantId, Suspended));
    StatusOnly(w, tn.tenantId, Suspended, o(n));
    var w1 := w.(db := StoreCall(w.db, UpdateStatus(tn.tenantId, Suspended), o(n)).0);
    Ends(cfg, w1, Done(NoContent), o, n + 1);
    Ends(cfg, w1, Done(Fault(500)), o, n + 1);
    SameDb(w);
  }

  /** DELETE /api/tenant without Kubernetes, whatever is lost: 404, or the row goes and nothing else. */
  lemma DeleteWithoutCluster(cfg: Config, w: World, u: UserId, o: Oracle, n: nat)
    requires !cfg.K8s() && RowsAgree(w.db)
    ensures var (w', p, _) := Drive(cfg, w, DeleteFind(u), o, n);
      if o(n).fate != Clean then w' == w && p == Done(Fault(500))
      else match Lookup(w.db, u)
           case None => w' == w && p == Done(Fault(404))
           case Some(tn) =>
             && p == Done(if o(n + 1).fate == Clean then NoContent else Fault(500))
             && (if o(n + 1).fate == Before then w' == w else OnlyRemoved(w, w', tn.tenantId))
  {
    Activity.LookupInRows(w.db, u);
    hide Drive, Lookup, RowsAgree, StoreCall, OnlyRemoved;
    Limits.Finds(cfg, w, DeleteFind(u), o, n);
    Activity.EndsAll(cfg, w, o, n + 1);
    if o(n).fate == Clean && Lookup(w.db, u).Some? {
      RemoveAlone(cfg, w, Lookup(w.db, u).value, o, n + 1);
    }
  }

  lemma RemoveAlone(cfg: Config, w: World, tn: Tenant, o: Oracle, n: nat)
    requires tn.tenantId in w.db.rows
    ensures var (w', p, _) := Drive(cfg, w, DeleteLast(tn), o, n);
      && p == Done(if o(n).fate == Clean then NoContent else Fault(500))
      && (if o(n).fate == Before then w' == w else OnlyRemoved(w, w', tn.tenantId))
  {
    hide Drive, StoreCall, OnlyRemoved;
    FollowsStore(cfg, w, DeleteLast(tn), o, n, DeleteRow(tn.tenantId));
    RemovedOnly(w, tn.tenantId, o(n));
    var w1 := w.(db := StoreCall(w.db, DeleteRow(tn.tenantId), o(n)).0);
    Ends(cfg, w1, Done(NoContent), o, n + 1);
    Ends(cfg, w1, Done(Fault(500)), o, n + 1);
    SameDb(w);
  }

  /** An answer for this tenant with this status, with the address and the token its user is shown. */
  predicate Shows(cfg: Config, p: Proc, tn: Tenant, gateway: bool, status: Status) {
    && p.Done? && p.response.SessionOk? && p.response.tenantId == tn.tenantId && p.response.status == status
    && p.response.url.Text() == Backing.AddressText(cfg, tn.tenantId, gateway)
    && p.response.token == Backing.ShownToken(cfg, tn.token)
  }

  /**
   * POST /api/session of a user with a row, without Kubernetes, whatever is lost:
   * the tenant becomes active unless the touch is lost before taking effect, and
   * nothing else changes; a Suspended tenant is answered 500, a Provisioning or
   * Error one as Provisioning, since its Service does not exist, and any other as
   * it is.
   */
  lemma SessionWithoutCluster(cfg: Config, w: World, u: UserId, o: Oracle, n: nat)
    requires !cfg.K8s() && WorldAgrees(cfg, w) && Lookup(w.db, u).Some?
    ensures var tn := Lookup(w.db, u).value; var (w', p, _) := Drive(cfg, w, SessionFind(u), o, n);
      if o(n).fate != Clean then w' == w && p == Done(Fault(500))
      else
        && (if o(n + 1).fate == Before then w' == w else Activity.OnlyActive(w, w', tn.tenantId))
        && (if o(n + 1).fate != Clean || tn.status == Suspended then p == Done(Fault(500))
            else Shows(cfg, p, tn, true, if tn.status == Error then Provisioning else tn.status))
  {
    Activity.LookupInRows(w.db, u);
    NoObjects(cfg, w);
    hide Drive, Lookup, RowsAgree, ObjectsAgree, StoreCall, AfterTouch, Shows, Activity.OnlyActive;
    var tn := Lookup(w.db, u).value;
    Limits.Finds(cfg, w, SessionFind(u), o, n);
    Activity.EndsAll(cfg, w, o, n + 1);
    if o(n).fate == Clean {
      FollowsStore(cfg, w, Touching(tn), o, n + 1, Touch(tn.tenantId));
      Activity.TouchOnly(w, tn.tenantId, o(n + 1));
      Limits.Touches(w.db, tn.tenantId, o(n + 1));
      var w1 := w.(db := StoreCall(w.db, Touch(tn.tenantId), o(n + 1)).0);
      Activity.EndsAll(cfg, w1, o, n + 2);
      if o(n + 1).fate == Clean { TouchedAlone(cfg, w1, tn, o, n + 2); }
    }
  }

  lemma TouchedAlone(cfg: Config, w: World, tn: Tenant, o: Oracle, n: nat)
    requires !cfg.K8s() && w.kube.objs == map[]
    ensures var (w', p, _) := Drive(cfg, w, AfterTouch(cfg, tn), o, n);
      && w' == w
      && (if tn.status == Suspended then p == Done(Fault(500))
          else Shows(cfg, p, tn, true, if tn.status == Error then Provisioning else tn.status))
  {
    hide Drive, Substitute, Backing.AddressText, Backing.ShownToken;
    var status := if tn.status == Error then Provisioning else tn.status;
    var reply := SessionReply(cfg, tn, false, status);
    Backing.ReplyShows(cfg, tn, false, status);
    if Unsettled(tn.status) {
      var c := Probe(TenantService(tn.tenantId), if cfg.devToken.Some? then cfg.devToken.value else tn.token);
      FollowsKube(cfg, w, Probing(tn, false), o, n, c);
      NobodyAnswers(w.kube, c, o(n));
      SameDb(w);
      Ends(cfg, w, reply, o, n + 1);
    } else if tn.status == Suspended {
      Ends(cfg, w, Done(Fault(500)), o, n);
    } else {
      Ends(cfg, w, reply, o, n);
    }
  }

  lemma NobodyAnswers(k: Kube, c: Call, ch: Choice)
    requires k.objs == map[] && c.Probe? && c.target.TenantService?
    ensures KubeCall(k, c, ch) == (k, Answer(false))
  {
    hide KeyOf, OwnerOf;
  }

  /** A new Provisioning row for the user, and nothing else. */
  ghost predicate OnlyAdded(w: World, w': World, tn: Tenant) {
    && w'.kube == w.kube && w'.db.clock == w.db.clock
    && w'.db.rows == w.db.rows[tn.tenantId := Row(tn, w.db.clock)]
    && w'.db.byUser == w.db.byUser[tn.userId := tn.tenantId]
    && w'.db.issued == w.db.issued[tn.tenantId := Issue(tn.userId, tn.token)]
  }

  lemma AddedOnly(w: World, u: UserId, ch: Choice)
    requires u !in w.db.byUser
    ensures var (db, r) := StoreCall(w.db, Insert(u), ch); var tn := Tenant(u, ch.tenantId, ch.token, Provisioning);
      && (if ch.fate == Before || ch.tenantId in w.db.issued then db == w.db else OnlyAdded(w, w.(db := db), tn))
      && (if ch.fate == Clean && ch.tenantId !in w.db.issued then r == Inserted(tn) else r == Failed)
  {
  }

  /**
   * A first session without Kubernetes: once its row is in, with the insert
   * acknowledged, the engine at the template's address is asked; if it answers, the
   * row becomes Ready unless the update is lost before taking effect.
   */
  lemma FirstSessionWithoutCluster(cfg: Config, w: World, u: UserId, o: Oracle, n: nat)
    requires !cfg.K8s() && u !in w.db.byUser && o(n).fate == Clean
    requires o(n + 1).fate == Clean && o(n + 1).tenantId !in w.db.issued
    ensures var tn := Tenant(u, o(n + 1).tenantId, o(n + 1).token, Provisioning);
      var yes := o(n + 2).fate == Clean && o(n + 2).healthy;
      var (w', p, _) := Drive(cfg, w, SessionFind(u), o, n);
      && OnlyAdded(w, w', tn.(status := if yes && o(n + 3).fate != Before then Ready else Provisioning))
      && (if yes && o(n + 3).fate != Clean then p == Done(Fault(500))
          else Shows(cfg, p, tn, false, if yes then Ready else Provisioning))
  {
    assert Lookup(w.db, u) == None;
    hide Drive, Lookup, StoreCall, Shows, OnlyAdded;
    Limits.Finds(cfg, w, SessionFind(u), o, n);
    FollowsStore(cfg, w, SessionInsert(u), o, n + 1, Insert(u));
    AddedOnly(w, u, o(n + 1));
    var tn := Tenant(u, o(n + 1).tenantId, o(n + 1).token, Provisioning);
    FirstCheckAlone(cfg, w, w.(db := StoreCall(w.db, Insert(u), o(n + 1)).0), tn, o, n + 2);
  }

  lemma FirstCheckAlone(cfg: Config, w0: World, w: World, tn: Tenant, o: Oracle, n: nat)
    requires !cfg.K8s() && OnlyAdded(w0, w, tn) && tn.status == Provisioning
    ensures var yes := o(n).fate == Clean && o(n).healthy;
      var (w', p, _) := Drive(cfg, w, Probing(tn, true), o, n);
      && OnlyAdded(w0, w', tn.(status := if yes && o(n + 1).fate != Before then Ready else Provisioning))
      && (if yes && o(n + 1).fate != Clean then p == Done(Fault(500))
          else Shows(cfg, p, tn, false, if yes then Ready else Provisioning))
  {
    hide Drive, StoreCall, KubeCall, Substitute, Backing.AddressText, Backing.ShownToken;
    var yes := o(n).fate == Clean && o(n).healthy;
    var c := Probe(Template(tn.tenantId), if cfg.devToken.Some? then cfg.devToken.value else tn.token);
    FollowsKube(cfg, w, Probing(tn, true), o, n, c);
    TemplateAnswers(w.kube, c, o(n));
    SameDb(w);
    if yes {
      FollowsStore(cfg, w, ReadyMark(tn, true), o, n + 1, UpdateStatus(tn.tenantId, Ready));
      StatusOnly(w, tn.tenantId, Ready, o(n + 1));
      var w1 := w.(db := StoreCall(w.db, UpdateStatus(tn.tenantId, Ready), o(n + 1)).0);
      AddedThenReady(w0, w, w1, tn, o(n + 1).fate);
      Backing.ReplyShows(cfg, tn, true, Ready);
      Ends(cfg, w1, SessionReply(cfg, tn, true, Ready), o, n + 2);
      Ends(cfg, w1, Done(Fault(500)), o, n + 2);
    } else {
      Backing.ReplyShows(cfg, tn, true, Provisioning);
      Ends(cfg, w, SessionReply(cfg, tn, true, Provisioning), o, n + 1);
    }
  }

  lemma AddedThenReady(w0: World, w: World, w1: World, tn: Tenant, fate: Fate)
    requires OnlyAdded(w0, w, tn) && tn.status == Provisioning
    requires if fate == Before then w1 == w else OnlyStatus(w, w1, tn.tenantId, Ready)
    ensures OnlyAdded(w0, w1, tn.(status := if fate != Before then Ready else Provisioning))
  {
  }

  lemma TemplateAnswers(k: Kube, c: Call, ch: Choice)
    requires c.Probe? && c.target.Template?
    ensures KubeCall(k, c, ch) == (k, Answer(ch.fate == Clean && ch.healthy))
  {
  }
}
