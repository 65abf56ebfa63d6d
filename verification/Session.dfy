/** POST /api/session: each method is the stretch of the handler that starts at its position. */
module Session {
  import opened Types
  import opened Manifests
  import opened World
  import opened Handlers
  import opened Serial
  import opened Stores
  import opened Lockstep
  import K8s
  import RoundTrips

  /** The handler at position p, run from the world w, ends in w' with the answer r after the call n'. */
  predicate Answered(cfg: Config, w: World, p: Proc, o: Oracle, n: nat, w': World, r: Response, n': nat) {
    Drive(cfg, w, p, o, n) == (w', Done(r), n')
  }

  lemma AnswersNow(cfg: Config, w: World, r: Response, o: Oracle, n: nat)
    ensures Answered(cfg, w, Done(r), o, n, w, r, n)
  {
    hide Drive;
    Ends(cfg, w, Done(r), o, n);
  }

  /** The status update that ends a session, and its answer. */
  method MarkAndAnswer(st: AppState, tn: Tenant, status: Status, answer: Response, ghost p: Proc) returns (r: Response)
    requires st.Valid() && HasOneCall(p)
    requires OnlyCall(st.cfg, p) == Some(UpdateStatus(tn.tenantId, status))
    requires forall reply: Reply, now: nat ::
               Resume(st.cfg, p, 0, reply, now) == if reply.Ok? then Done(answer) else INTERNAL_ERROR
    modifies st.store, st.net
    ensures Answered(st.cfg, old(st.W()), p, st.net.o, old(st.net.n), st.W(), r, st.net.n)
    ensures r == answer || r == Fault(500)
  {
    hide Drive, Resume, StoreCall, OnlyCall;
    FollowsStore(st.cfg, st.W(), p, st.net.o, st.net.n, UpdateStatus(tn.tenantId, status));
    var reply := st.store.UpdateStatus(tn.tenantId, status);
    r := if reply.Ok? then answer else Fault(500);
    AnswersNow(st.cfg, st.W(), r, st.net.o, st.net.n);
  }

  function Answer(cfg: Config, tn: Tenant, isNew: bool, status: Status): Response {
    SessionReply(cfg, tn, isNew, status).response
  }

  method WakeSuspended(st: AppState, tn: Tenant) returns (r: Response)
    requires st.Valid() && tn.status == Suspended
    modifies st.store, st.cluster, st.net
    ensures Answered(st.cfg, old(st.W()), AfterTouch(st.cfg, tn), st.net.o, old(st.net.n), st.W(), r, st.net.n)
  {
    hide Drive, StoreCall, KubeCall, BuildPod;
    if !st.cfg.K8s() {
      r := Fault(500);
      AnswersNow(st.cfg, st.W(), r, st.net.o, st.net.n);
      return;
    }
    var spec := SpecOf(st.cfg, tn.tenantId, tn.token);
    FollowsKube(st.cfg, st.W(), Waking(tn), st.net.o, st.net.n, Create(BuildPod(spec)));
    var ok := K8s.WakeTenant(st, spec);
    if !ok {
      r := Fault(500);
      AnswersNow(st.cfg, st.W(), r, st.net.o, st.net.n);
      return;
    }
    r := MarkAndAnswer(st, tn, Provisioning, Answer(st.cfg, tn, false, Provisioning), WakeMark(tn));
  }

  /** A missing Pod is provisioned again; None means the session may go on, and otherwise it has failed. */
  method ReprovisionIfMissing(st: AppState, tn: Tenant) returns (ok: bool)
    requires st.Valid() && st.cfg.K8s()
    modifies st.store, st.cluster, st.net
    ensures Answered(st.cfg, old(st.W()), Checking(tn), st.net.o, old(st.net.n), st.W(),
                     if ok then Answer(st.cfg, tn, false, Provisioning) else Fault(500), st.net.n)
  {
    hide Drive, StoreCall, KubeCall, KeyOf, K8s.AllClean, RoundTrips.Between, RoundTrips.Provisioned;
    var cfg := st.cfg;
    ghost var o := st.net.o;
    var done := Answer(cfg, tn, false, Provisioning);
    FollowsKube(cfg, st.W(), Checking(tn), o, st.net.n, GetPod(tn.tenantId));
    GetPodOnlyAsks(st.cluster.State(), tn.tenantId, o(st.net.n));
    var there := K8s.PodExists(st, tn.tenantId);
    if there != Some(false) {
      ok := there.Some?;
      AnswersNow(cfg, st.W(), if ok then done else Fault(500), o, st.net.n);
      return;
    }
    var provisioned, _ := K8s.ProvisionTenant(st, SpecOf(cfg, tn.tenantId, tn.token), tn, false);
    if !provisioned {
      var r := MarkAndAnswer(st, tn, Error, Fault(500), ErrorMark(tn));
      return false;
    }
    var r := MarkAndAnswer(st, tn, Provisioning, done, CreateMark(tn));
    ok := r.SessionOk?;
  }

  lemma GetPodOnlyAsks(k: Kube, t: TenantId, ch: Choice)
    ensures KubeCall(k, GetPod(t), ch) == (k, if ch.fate
        == Clean then Reply.Answer(KeyOf(PodK, t) in k.objs) else Failed)
  {
    hide KeyOf;
  }

  /**
   * The status of a row that is not Suspended: checked, and repaired, only for
   * Provisioning and Error. None is a failure.
   */
  method ResolveStatus(st: AppState, tn: Tenant) returns (status: Option<Status>)
    requires st.Valid() && tn.status != Suspended
    modifies st.store, st.cluster, st.net
    ensures Answered(st.cfg, old(st.W()), AfterTouch(st.cfg, tn), st.net.o, old(st.net.n), st.W(),
                     if status.Some? then Answer(st.cfg, tn, false, status.value) else Fault(500), st.net.n)
  {
    hide Drive, StoreCall, KubeCall;
    var cfg := st.cfg;
    if tn.status != Provisioning && tn.status != Error {
      AnswersNow(cfg, st.W(), Answer(cfg, tn, false, tn.status), st.net.o, st.net.n);
      return Some(tn.status);
    }
    var target, token := TenantService(tn.tenantId), DevOr(cfg, tn.token);
    FollowsKube(cfg, st.W(), Probing(tn, false), st.net.o, st.net.n, Probe(target, token));
    ProbeOnlyAsks(st.cluster.State(), target, token, st.net.o(st.net.n));
    var health := st.cluster.CheckHealth(target, token);
    if health.yes {
      var r := MarkAndAnswer(st, tn, Ready, Answer(cfg, tn, false, Ready), ReadyMark(tn, false));
      return if r.SessionOk? then Some(Ready) else None;
    }
    if cfg.K8s() {
      var ok := ReprovisionIfMissing(st, tn);
      if !ok { return None; }
    } else {
      AnswersNow(cfg, st.W(), Answer(cfg, tn, false, Provisioning), st.net.o, st.net.n);
    }
    status := Some(Provisioning);
  }

  lemma ProbeOnlyAsks(k: Kube, target: Target, token: Token, ch: Choice)
    ensures var (k', r) := KubeCall(k, Probe(target, token), ch); k' == k && r.Answer?
  {
  }

  method HandleExisting(st: AppState, tn: Tenant) returns (r: Response)
    requires st.Valid()
    modifies st.store, st.cluster, st.net
    ensures Answered(st.cfg, old(st.W()), Touching(tn), st.net.o, old(st.net.n), st.W(), r, st.net.n)
  {
    hide Drive, StoreCall, KubeCall, AfterTouch;
    var cfg := st.cfg;
    FollowsStore(cfg, st.W(), Touching(tn), st.net.o, st.net.n, Touch(tn.tenantId));
    var touched := st.store.TouchLastActive(tn.tenantId);
    if !touched.Ok? {
      r := Fault(500);
      AnswersNow(cfg, st.W(), r, st.net.o, st.net.n);
    } else if tn.status == Suspended {
      r := WakeSuspended(st, tn);
    } else {
      var status := ResolveStatus(st, tn);
      r := if status.Some? then Answer(cfg, tn, false, status.value) else Fault(500);
    }
  }

  method ProvisionNew(st: AppState, u: UserId) returns (r: Response)
    requires st.Valid()
    modifies st.store, st.cluster, st.net
    ensures Answered(st.cfg, old(st.W()), SessionInsert(u), st.net.o, old(st.net.n), st.W(), r, st.net.n)
  {
    hide Drive, StoreCall, KubeCall;
    var cfg := st.cfg;
    ghost var o, w0, n0 := st.net.o, st.W(), st.net.n;
    FollowsStore(cfg, w0, SessionInsert(u), o, n0, Insert(u));
    var inserted := st.store.Create(u);
    if !inserted.Inserted? {
      r := Fault(500);
      AnswersNow(cfg, st.W(), r, o, st.net.n);
      return;
    }
    var tn := inserted.row;
    if cfg.K8s() {
      var ok, _ := K8s.ProvisionTenant(st, SpecOf(cfg, tn.tenantId, tn.token), tn, true);
      if !ok {
        r := MarkAndAnswer(st, tn, Error, Fault(500), ErrorMark(tn));
        return;
      }
    }
    r := FirstCheck(st, tn);
  }

  /** The health check of a new tenant and the answer to its user. */
  method FirstCheck(st: AppState, tn: Tenant) returns (r: Response)
    requires st.Valid()
    modifies st.store, st.net
    ensures Answered(st.cfg, old(st.W()), Probing(tn, true), st.net.o, old(st.net.n), st.W(), r, st.net.n)
  {
    hide Drive, StoreCall, KubeCall;
    var cfg := st.cfg;
    var target := if cfg.K8s() then TenantService(tn.tenantId) else Template(tn.tenantId);
    var token := if cfg.K8s() then tn.token else DevOr(cfg, tn.token);
    FollowsKube(cfg, st.W(), Probing(tn, true), st.net.o, st.net.n, Probe(target, token));
    ProbeOnlyAsks(st.cluster.State(), target, token, st.net.o(st.net.n));
    var health := st.cluster.CheckHealth(target, token);
    if health.yes {
      r := MarkAndAnswer(st, tn, Ready, Answer(cfg, tn, true, Ready), ReadyMark(tn, true));
    } else {
      r := Answer(cfg, tn, true, Provisioning);
      AnswersNow(cfg, st.W(), r, st.net.o, st.net.n);
    }
  }
}
