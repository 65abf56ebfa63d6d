/** The REST handlers of one authenticated user. */
module Routes {
  import opened Types
  import opened Manifests
  import opened World
  import opened Handlers
  import opened Serial
  import opened Stores
  import opened Lockstep
  import opened Session
  import Agreement
  import Fidelity
  import K8s
  import RoundTrips

  /** find_by_user, for a handler that starts with it. */
  method Find(st: AppState, u: UserId, ghost p: Proc) returns (found: Reply)
    requires st.Valid()
    requires p in {SessionFind(u), SuspendFind(u), DeleteFind(u), AuthFind(u), StatusFind(u)}
    modifies st.net
    ensures found == Failed || found == Found(Lookup(st.store.State(), u))
    ensures st.net.n == old(st.net.n) + 1
    ensures found.Found? <==> st.net.o(old(st.net.n)).fate == Clean
    ensures Drive(st.cfg, old(st.W()), p, st.net.o, old(st.net.n))
         == Drive(st.cfg, st.W(), if found.Found? then AfterFind(st.cfg, p, found.tenant) else INTERNAL_ERROR,
             st.net.o, st.net.n)
  {
    hide Drive, AfterFind;
    FollowsStore(st.cfg, st.W(), p, st.net.o, st.net.n, FindByUser(u));
    found := st.store.FindByUser(u);
  }

  /**
   * POST /api/session. Alone, and if no store call fails, it answers with the
   * final status of the row, or Provisioning for a row still in Error.
   */
  method CreateSession(st: AppState, u: UserId) returns (r: Response)
    requires st.Valid()
    modifies st.store, st.cluster, st.net
    ensures Answered(st.cfg, old(st.W()), SessionFind(u), st.net.o, old(st.net.n), st.W(), r, st.net.n)
    ensures Agreement.RowsAgree(old(st.W()).db) && Smooth(st.cfg, old(st.W()), SessionFind(u), st.net.o,
        old(st.net.n), false) ==>
              Fidelity.Faithful(st.cfg, st.W(), r)
  {
    hide Drive, StoreCall, KubeCall, Lookup, Smooth, Fidelity.Faithful, Agreement.RowsAgree;
    ghost var cfg, o, w0, n0 := st.cfg, st.net.o, st.W(), st.net.n;
    if Agreement.RowsAgree(w0.db) && Smooth(cfg, w0, SessionFind(u), o, n0, false) {
      Fidelity.SessionIsFaithful(cfg, w0, u, o, n0);
    }
    var found := Find(st, u, SessionFind(u));
    if !found.Found? {
      r := Fault(500);
      AnswersNow(cfg, st.W(), r, o, st.net.n);
    } else if found.tenant.Some? {
      r := HandleExisting(st, found.tenant.value);
    } else {
      r := ProvisionNew(st, u);
    }
  }

  /** GET /api/tenant/status. It changes nothing. */
  method TenantStatus(st: AppState, u: UserId) returns (r: Response)
    requires st.Valid()
    modifies st.net
    ensures Answered(st.cfg, old(st.W()), StatusFind(u), st.net.o, old(st.net.n), st.W(), r, st.net.n)
    ensures r == if st.net.o(old(st.net.n)).fate != Clean then Fault(500)
                 else match Lookup(st.store.State(), u)
                      case None => Fault(404)
                      case Some(tn) => StatusOk(tn.tenantId, tn.status)
  {
    hide Drive, Lookup;
    var found := Find(st, u, StatusFind(u));
    if !found.Found? {
      r := Fault(500);
    } else if found.tenant.None? {
      r := Fault(404);
    } else {
      r := StatusOk(found.tenant.value.tenantId, found.tenant.value.status);
    }
    AnswersNow(st.cfg, st.W(), r, st.net.o, st.net.n);
  }

  /** POST /api/tenant/suspend: 204 means that the row was Ready and its Pod, with Kubernetes, is gone. */
  method SuspendTenant(st: AppState, u: UserId) returns (r: Response)
    requires st.Valid()
    modifies st.store, st.cluster, st.net
    ensures Answered(st.cfg, old(st.W()), SuspendFind(u), st.net.o, old(st.net.n), st.W(), r, st.net.n)
    ensures r == NoContent ==>
      && Lookup(old(st.store.State()), u).Some?
      && var tn := Lookup(old(st.store.State()), u).value;
      && tn.status == Ready && st.store.State() == SetStatus(old(st.store.State()), tn.tenantId, Suspended)
      && st.cluster.objs == if st.cfg.K8s() then RoundTrips.Stopped(tn.tenantId, old(st.cluster.objs))
          else old(st.cluster.objs)
    ensures r != NoContent ==> r in {Fault(404), Fault(409), Fault(500)}
    ensures r in {Fault(404), Fault(409)} ==> st.W() == old(st.W())
  {
    hide Drive, Lookup, KubeCall, KeyOf, SetStatus, RoundTrips.Stopped;
    var cfg := st.cfg;
    var found := Find(st, u, SuspendFind(u));
    if !found.Found? {
      r := Fault(500);
    } else if found.tenant.None? {
      r := Fault(404);
    } else if found.tenant.value.status != Ready {
      r := Fault(409);
    } else {
      var tn := found.tenant.value;
      if cfg.K8s() {
        FollowsKube(cfg, st.W(), SuspendKill(tn), st.net.o, st.net.n, Delete(KeyOf(PodK, tn.tenantId)));
        var ok := K8s.SuspendTenant(st, tn.tenantId);
        if !ok {
          r := Fault(500);
          AnswersNow(cfg, st.W(), r, st.net.o, st.net.n);
          return;
        }
      }
      r := MarkSuspended(st, tn);
      return;
    }
    AnswersNow(cfg, st.W(), r, st.net.o, st.net.n);
  }

  method MarkSuspended(st: AppState, tn: Tenant) returns (r: Response)
    requires st.Valid()
    modifies st.store, st.net
    ensures Answered(st.cfg, old(st.W()), SuspendMark(tn), st.net.o, old(st.net.n), st.W(), r, st.net.n)
    ensures r == NoContent ==> st.store.State() == SetStatus(old(st.store.State()), tn.tenantId, Suspended)
    ensures r == NoContent || r == Fault(500)
  {
    hide Drive, SetStatus;
    FollowsStore(st.cfg, st.W(), SuspendMark(tn), st.net.o, st.net.n, UpdateStatus(tn.tenantId, Suspended));
    var marked := st.store.UpdateStatus(tn.tenantId, Suspended);
    r := if marked.Ok? then NoContent else Fault(500);
    AnswersNow(st.cfg, st.W(), r, st.net.o, st.net.n);
  }

  /** DELETE /api/tenant: 204 means that the row is gone; the objects are too unless a delete went wrong. */
  method DeleteTenant(st: AppState, u: UserId) returns (r: Response)
    requires st.Valid()
    modifies st.store, st.cluster, st.net
    ensures Answered(st.cfg, old(st.W()), DeleteFind(u), st.net.o, old(st.net.n), st.W(), r, st.net.n)
    ensures r == NoContent ==>
      && Lookup(old(st.store.State()), u).Some?
      && var tn := Lookup(old(st.store.State()), u).value;
      && st.store.State() == RemoveRow(old(st.store.State()), tn.tenantId)
      && K8s.Trimmed(tn.tenantId, old(st.cluster.objs), st.cluster.objs)
      && (st.cfg.K8s() && K8s.AllClean(st.net.o, old(st.net.n), st.net.n) ==>
            st.cluster.objs == RoundTrips.Deprovisioned(tn.tenantId, old(st.cluster.objs)))
    ensures r != NoContent ==> r in {Fault(404), Fault(500)}
    ensures r == Fault(404) ==> st.W() == old(st.W())
  {
    hide Drive, Lookup, KubeCall, KeyOf, RemoveRow, K8s.Trimmed, RoundTrips.Deprovisioned;
    var cfg := st.cfg;
    ghost var start := st.cluster.objs;
    var found := Find(st, u, DeleteFind(u));
    if !found.Found? || found.tenant.None? {
      r := if found.Found? then Fault(404) else Fault(500);
      AnswersNow(cfg, st.W(), r, st.net.o, st.net.n);
      return;
    }
    var tn := found.tenant.value;
    K8s.Untrimmed(tn.tenantId, start);
    if cfg.K8s() {
      var ok := K8s.DeprovisionTenant(st, tn.tenantId, tn);
      if !ok {
        r := Fault(500);
        AnswersNow(cfg, st.W(), r, st.net.o, st.net.n);
        return;
      }
    }
    FollowsStore(cfg, st.W(), DeleteLast(tn), st.net.o, st.net.n, DeleteRow(tn.tenantId));
    var gone := st.store.Delete(tn.tenantId);
    r := if gone.Ok? then NoContent else Fault(500);
    AnswersNow(cfg, st.W(), r, st.net.o, st.net.n);
  }

  /** GET /ext-authz: a Ready tenant's own token and backend; a lost touch does not matter. */
  method ExtAuthz(st: AppState, u: UserId) returns (r: Response)
    requires st.Valid()
    modifies st.store, st.net
    ensures Answered(st.cfg, old(st.W()), AuthFind(u), st.net.o, old(st.net.n), st.W(), r, st.net.n)
    ensures r == if st.net.o(old(st.net.n)).fate != Clean then Fault(500)
                 else match Lookup(old(st.store.State()), u)
                      case None => Fault(401)
                      case Some(tn) =>
                        if tn.status == Ready then AuthOk(tn.tenantId, Internal(tn.tenantId), tn.token) else Fault(503)
    ensures !r.AuthOk? ==> st.W() == old(st.W())
  {
    hide Drive, Lookup;
    var cfg := st.cfg;
    var found := Find(st, u, AuthFind(u));
    if !found.Found? {
      r := Fault(500);
    } else if found.tenant.None? {
      r := Fault(401);
    } else if found.tenant.value.status != Ready {
      r := Fault(503);
    } else {
      var tn := found.tenant.value;
      r := AuthOk(tn.tenantId, Internal(tn.tenantId), tn.token);
      FollowsStore(cfg, st.W(), AuthTouch(tn, r), st.net.o, st.net.n, Touch(tn.tenantId));
      var _ := st.store.TouchLastActive(tn.tenantId);
    }
    AnswersNow(cfg, st.W(), r, st.net.o, st.net.n);
  }
}
