/** What the code does not keep when a call is lost: from ordinary worlds, by ordinary requests. */
module Counterexamples {
  import opened Types
  import opened Manifests
  import opened World
  import opened Handlers
  import opened Agreement
  import opened Serial
  import opened Views
  import opened Lockstep
  import opened Refinement
  import opened Protocol
  import opened Limits
  import K8s

  /**
   * Ready does not imply a Pod: a suspend that has removed the Pod loses its
   * status update. In any exact world this happens to any Ready tenant.
   */
  lemma ReadyWithoutPod(cfg: Config, w: World, u: UserId, o: Oracle)
    requires cfg.K8s() && Exact(cfg, w) && u in w.db.byUser
    requires Lookup(w.db, u).Some? && Lookup(w.db, u).value.status == Ready
    requires o(0).fate == Clean && o(1).fate == Clean && o(2).fate == Before
    ensures var tn := Lookup(w.db, u).value;
      var (w', p, _) := Drive(cfg, w, SuspendFind(u), o, 0);
      p == Done(Fault(500)) && w'.db == w.db && RowIs(w', tn) && Present(w'.kube, tn.tenantId) == Full(cfg) - {PodK}
  {
    hide Drive, Lookup, Present, RowIs, KeyOf, OwnerOf, Full, Exact;
    ExactRow(cfg, w, u);
    SuspendedKinds(cfg);
    var tn := Lookup(w.db, u).value;
    Finds(cfg, w, SuspendFind(u), o, 0);
    var c := Delete(KeyOf(PodK, tn.tenantId));
    FollowsKube(cfg, w, SuspendKill(tn), o, 1, c);
    PresentHas(w.kube, tn.tenantId);
    PresentAfter(w.kube, c, o(1), tn.tenantId);
    var w' := w.(kube := KubeCall(w.kube, c, o(1)).0);
    FollowsStore(cfg, w', SuspendMark(tn), o, 2, UpdateStatus(tn.tenantId, Suspended));
    Ends(cfg, w', INTERNAL_ERROR, o, 3);
    assert w' == w'.(db := w'.db);
    assert RowIs(w', tn) by { SameRow(w, w', tn); }
  }

  lemma SameRow(w: World, w': World, tn: Tenant)
    requires RowIs(w, tn) && w'.db == w.db
    ensures RowIs(w', tn)
  {
  }

  /**
   * Suspended does not imply that there is no Pod: a wake loses its status update
   * after creating the Pod. Since a wake does not accept a Pod that exists, every
   * later fault-free session of that user fails, and changes nothing but the
   * last activity.
   */
  lemma SuspendedWithPod(cfg: Config, w: World, u: UserId, o: Oracle)
    requires cfg.K8s() && Exact(cfg, w) && u in w.db.byUser
    requires Lookup(w.db, u).Some? && Lookup(w.db, u).value.status == Suspended
    requires o(0).fate == Clean && o(1).fate == Clean && o(2).fate == Clean && o(3).fate == Before
    ensures var tn := Lookup(w.db, u).value;
      var (w', p, _) := Drive(cfg, w, SessionFind(u), o, 0);
      && p == Done(Fault(500)) && RowIs(w', tn) && Present(w'.kube, tn.tenantId) == Full(cfg)
      && w'.db == SetActive(w.db, tn.tenantId)
  {
    hide Drive, Lookup, Present, KeyOf, OwnerOf, Full, Exact, BuildPod, SetActive;
    ExactRow(cfg, w, u);
    SuspendedKinds(cfg);
    var tn := Lookup(w.db, u).value;
    Finds(cfg, w, SessionFind(u), o, 0);
    FollowsStore(cfg, w, Touching(tn), o, 1, Touch(tn.tenantId));
    var w1 := w.(db := SetActive(w.db, tn.tenantId));
    var c := Create(BuildPod(SpecOf(cfg, tn.tenantId, tn.token)));
    FollowsKube(cfg, w1, Waking(tn), o, 2, c);
    PresentHas(w.kube, tn.tenantId);
    PresentAfter(w.kube, c, o(2), tn.tenantId);
    var w2 := w1.(kube := KubeCall(w1.kube, c, o(2)).0);
    FollowsStore(cfg, w2, WakeMark(tn), o, 3, UpdateStatus(tn.tenantId, Provisioning));
    Ends(cfg, w2, INTERNAL_ERROR, o, 4);
    assert w2 == w2.(db := w2.db);
    TouchKeepsRow(w, tn);
    assert Full(cfg) - {PodK} + {PodK} == Full(cfg);
  }

  lemma TouchKeepsRow(w: World, tn: Tenant)
    requires RowIs(w, tn)
    ensures tn.tenantId in SetActive(w.db, tn.tenantId).rows
        && SetActive(w.db, tn.tenantId).rows[tn.tenantId].tenant == tn
  {
  }

  /** Such a tenant is lost to sessions: they all answer 500. */
  lemma WokenTooEarlyIsStuck(cfg: Config, w: World, u: UserId, o: Oracle, n: nat)
    requires cfg.K8s() && WorldAgrees(cfg, w) && u in w.db.byUser && Smooth(cfg, w, SessionFind(u), o, n, true)
    requires Lookup(w.db, u).Some? && Lookup(w.db, u).value.status == Suspended
    requires PodK in Present(w.kube, Lookup(w.db, u).value.tenantId)
    ensures var tn := Lookup(w.db, u).value;
      var (w', p, _) := Drive(cfg, w, SessionFind(u), o, n);
      p == Done(Fault(500)) && RowIs(w', tn) && Present(w'.kube, tn.tenantId) == Present(w.kube, tn.tenantId)
  {
    hide Drive, Smooth, WorldAgrees, Present, Lookup, Elsewhere;
    SessionOnRow(cfg, w, u, o, n);
    var tn := Lookup(w.db, u).value;
    assert Present(w.kube, tn.tenantId) + {PodK} == Present(w.kube, tn.tenantId);
  }

  // --- Orphans ---

  lemma LostDelete(k: Kube, key: Key, ch: Choice)
    requires ch.fate == Before
    ensures KubeCall(k, Delete(key), ch).0 == k
  {
  }

  lemma {:induction false} FrontLost(cfg: Config, w: World, tn: Tenant, route: bool, service: bool, pod: bool,
      o: Oracle, n: nat)
    requires forall m :: n <= m < n + Left(route, service, pod) ==> o(m).fate == Before
    ensures Drive(cfg, w, AfterFront(tn, route, service, pod), o, n)
         == Drive(cfg, w, DeleteBack(tn, true, true), o, n + Left(route, service, pod))
    decreases Left(route, service, pod)
  {
    hide Drive, KubeCall, KeyOf;
    if route || service || pod {
      var i := K8s.FrontTurn(o(n).branch, route, service, pod);
      K8s.FrontStep(cfg, w, tn, route, service, pod, o, n);
      LostDelete(w.kube, KeyOf(K8s.FrontKind(i), tn.tenantId), o(n));
      assert w == w.(kube := w.kube);
      FrontLost(cfg, w, tn, route && i != 0, service && i != 1, pod && i != 2, o, n + 1);
    }
  }

  lemma {:induction false} BackLost(cfg: Config, w: World, tn: Tenant, secret: bool, pvc: bool, o: Oracle, n: nat)
    requires forall m :: n <= m < n + Left(secret, pvc, false) ==> o(m).fate == Before
    ensures Drive(cfg, w, AfterBack(tn, secret, pvc), o, n)
        == Drive(cfg, w, DeleteLast(tn), o, n + Left(secret, pvc, false))
    decreases Left(secret, pvc, false)
  {
    hide Drive, KubeCall, KeyOf;
    if secret || pvc {
      var i := if secret && !(o(n).branch == 1 && pvc) then 0 else 1;
      K8s.BackStep(cfg, w, tn, secret, pvc, o, n);
      LostDelete(w.kube, KeyOf(K8s.BackKind(i), tn.tenantId), o(n));
      assert w == w.(kube := w.kube);
      BackLost(cfg, w, tn, secret && i != 0, pvc && i != 1, o, n + 1);
    }
  }

  /**
   * Objects can be left without a row: a delete whose cluster calls are all lost
   * removes the row, answers 204, and leaves every object of the tenant.
   */
  lemma DeleteLeavesOrphans(cfg: Config, w: World, u: UserId, o: Oracle)
    requires cfg.K8s() && Exact(cfg, w) && u in w.db.byUser
    requires o(0).fate == Clean && o(1).fate == Clean && o(7).fate == Clean
    requires forall m :: 2 <= m < 7 ==> o(m).fate == Before
    ensures Lookup(w.db, u).Some?
    ensures var t := Lookup(w.db, u).value.tenantId;
      var (w', p, _) := Drive(cfg, w, DeleteFind(u), o, 0);
      && p == Done(NoContent) && t !in w'.db.rows
      && w'.kube == w.kube && ServiceK in Present(w'.kube, t) && SecretK in Present(w'.kube, t)
  {
    hide Drive, Lookup, Present, KeyOf, OwnerOf, Exact, KubeCall;
    ExactRow(cfg, w, u);
    var tn := Lookup(w.db, u).value;
    Finds(cfg, w, DeleteFind(u), o, 0);
    K8s.DeleteClientStep(cfg, w, tn, o, 1);
    CleanClient(w.kube, o(1));
    AllLost(cfg, w, tn, o, 2);
    FollowsStore(cfg, w, DeleteLast(tn), o, 7, DeleteRow(tn.tenantId));
    var w' := w.(db := RemoveRow(w.db, tn.tenantId));
    Ends(cfg, w', Done(NoContent), o, 8);
  }

  lemma AllLost(cfg: Config, w: World, tn: Tenant, o: Oracle, n: nat)
    requires forall m :: n <= m < n + 5 ==> o(m).fate == Before
    ensures Drive(cfg, w, DeleteFront(tn, true, true, true), o, n) == Drive(cfg, w, DeleteLast(tn), o, n + 5)
  {
    hide Drive;
    K8s.FrontEnds(tn);
    FrontLost(cfg, w, tn, true, true, true, o, n);
    BackLost(cfg, w, tn, true, true, o, n + 3);
  }

  lemma CleanClient(k: Kube, ch: Choice)
    requires ch.fate == Clean
    ensures KubeCall(k, ClientInit, ch) == (k, Ok)
  {
  }

  // --- A route that is never made ---

  lemma CreatesKind(spec: TenantSpec, kind: Kind, k: Kube, ch: Choice)
    requires Needs(spec, kind)
    ensures var (k', r) := KubeCall(k, Create(Build(kind, spec)), ch);
      && (ch.fate == Clean ==> There(PartOf(r)) && Present(k', spec.tenantId) == Present(k, spec.tenantId) + {kind})
      && (ch.fate == Before ==> k' == k && PartOf(r) == Broken)
  {
    hide KeyOf, OwnerOf, Present;
    var c := Create(Build(kind, spec));
    assert KindOf(Build(kind, spec)) == kind && KeyFor(Build(kind, spec)) == KeyOf(kind, spec.tenantId);
    hide Build;
    if ch.fate == Clean { PresentAfter(k, c, ch, spec.tenantId); }
  }

  /** A run's first three calls, without faults. */
  lemma StorageIsMade(cfg: Config, w: World, tn: Tenant, o: Oracle, n: nat) returns (w': World, made: bool)
    requires cfg.K8s() && Present(w.kube, tn.tenantId) == {}
    requires forall m :: n <= m < n + 3 ==> o(m).branch == 0 && o(m).fate == Clean
    ensures Drive(cfg, w, Creating(tn, true, Client), o, n)
        == Drive(cfg, w', AfterProv(tn, true, Compute(made)), o, n + 3)
    ensures w'.db == w.db && Present(w'.kube, tn.tenantId) == {PvcK, SecretK}
  {
    hide Drive, KubeCall, KeyOf, Build, Present, AfterProv;
    var spec := SpecOf(cfg, tn.tenantId, tn.token);
    K8s.ClientStep(cfg, w, tn, true, o, n, false);
    CleanClient(w.kube, o(n));
    K8s.StorageStep(cfg, w, tn, true, Todo, Todo, o, n + 1);
    CreatesKind(spec, PvcK, w.kube, o(n + 1));
    var (k1, r1) := KubeCall(w.kube, Create(Build(PvcK, spec)), o(n + 1));
    var w1 := w.(kube := k1);
    K8s.StorageStep(cfg, w1, tn, true, PartOf(r1), Todo, o, n + 2);
    CreatesKind(spec, SecretK, k1, o(n + 2));
    var (k2, r2) := KubeCall(k1, Create(Build(SecretK, spec)), o(n + 2));
    w' := w1.(kube := k2);
    made := PartOf(r1) == Made || PartOf(r2) == Made;
  }

  /** A first provisioning run that loses only the creation of the route. */
  lemma RouteIsLost(cfg: Config, w: World, tn: Tenant, o: Oracle, n: nat) returns (w': World)
    requires cfg.K8s() && cfg.domain.Some? && Present(w.kube, tn.tenantId) == {}
    requires forall m :: n <= m < n + 6 ==> o(m).branch == 0 && o(m).fate == if m == n + 5 then Before else Clean
    ensures Drive(cfg, w, Creating(tn, true, Client), o, n) == Drive(cfg, w', ErrorMark(tn), o, n + 6)
    ensures w'.db == w.db && Present(w'.kube, tn.tenantId) == Full(cfg) - {RouteK}
  {
    hide Drive, KubeCall, KeyOf, Build, Present, AfterProv, JoinNetwork;
    var spec := SpecOf(cfg, tn.tenantId, tn.token);
    var w2, made := StorageIsMade(cfg, w, tn, o, n);
    K8s.PodStep(cfg, w2, tn, true, made, false, o, n + 3);
    CreatesKind(spec, PodK, w2.kube, o(n + 3));
    var (k3, r3) := KubeCall(w2.kube, Create(Build(PodK, spec)), o(n + 3));
    var w3 := w2.(kube := k3);
    var made' := made || PartOf(r3) == Made;
    K8s.NetworkStep(cfg, w3, tn, true, made', Todo, Todo, o, n + 4);
    CreatesKind(spec, ServiceK, k3, o(n + 4));
    var (k4, r4) := KubeCall(k3, Create(Build(ServiceK, spec)), o(n + 4));
    w' := w3.(kube := k4);
    K8s.NetworkStep(cfg, w', tn, true, made', PartOf(r4), Todo, o, n + 5);
    CreatesKind(spec, RouteK, k4, o(n + 5));
    assert w' == w'.(kube := k4);
    LostRoute(tn, made', PartOf(r4));
  }

  lemma LostRoute(tn: Tenant, made: bool, service: Part)
    requires There(service)
    ensures AfterProv(tn, true, JoinNetwork(made, service, Broken)) == ErrorMark(tn)
  {
  }

  /**
   * Ready does not imply a route: once everything but the route exists, one
   * answered health check makes the row Ready, and no session creates the route.
   */
  lemma ReadyWithoutRoute(cfg: Config, w: World, u: UserId, o: Oracle, n: nat)
    requires cfg.K8s() && cfg.domain.Some? && WorldAgrees(cfg, w) && u in w.db.byUser
    requires Smooth(cfg, w, SessionFind(u), o, n, true) && o(n + 2).healthy
    requires Lookup(w.db, u).Some? && Accepts(cfg, Lookup(w.db, u).value)
    requires Lookup(w.db, u).value.status in {Provisioning, Error, Ready}
    requires Present(w.kube, Lookup(w.db, u).value.tenantId) == Full(cfg) - {RouteK}
    ensures var tn := Lookup(w.db, u).value;
      var (w', p, _) := Drive(cfg, w, SessionFind(u), o, n);
      && RowIs(w', tn.(status := Ready)) && RouteK !in Present(w'.kube, tn.tenantId)
      && p == Done(SessionOk(PublicUrl(cfg, tn.tenantId), ResponseToken(cfg, tn.token), tn.tenantId, Ready))
  {
    hide Drive, Smooth, WorldAgrees, Present, Lookup, Elsewhere;
    SessionOnRow(cfg, w, u, o, n);
    assert FRONT <= Full(cfg) - {RouteK};
  }

  // --- With no call lost ---

  /** A Pod that vanishes leaves its tenant as it was, without a Pod. */
  lemma VanishedPod(cfg: Config, s: State, tn: Tenant)
    requires RowIs(s.w, tn) && tn.status == Ready
    ensures var s' := Next(cfg, s, LosePod(tn.tenantId)); RowIs(s'.w, tn) && PodK !in Present(s'.w.kube, tn.tenantId)
  {
    hide KeyOf;
  }

  /** A call that goes well. */
  const CLEAN := Choice(0, Clean, true, "", [], [])

  /** Two sessions a and b and a suspend c: which of them makes the k-th call. */
  function LateTurn(a: nat, b: nat, c: nat, k: nat): nat {
    if k < 3 || k == 10 then a else if k < 7 then b else c
  }

  function LateSchedule(a: nat, b: nat, c: nat): Schedule {
    (k: nat) => Act(LateTurn(a, b, c, k), CLEAN)
  }

  lemma ActsNow(cfg: Config, s: State, pid: nat, c: Call)
    requires pid in s.procs && HasOneCall(s.procs[pid]) && OnlyCall(cfg, s.procs[pid]) == Some(c)
    ensures var (w, r) := Apply(s.w, c, CLEAN); var next := Resume(cfg, s.procs[pid], 0, r, s.w.db.clock);
      Next(cfg, s, Act(pid, CLEAN)).w == w && Next(cfg, s, Act(pid, CLEAN)).procs == s.procs[pid := next]
  {
    hide OnlyCall, Resume, Apply, Doom;
  }

  /** A session reads, touches and checks a Provisioning row, and stands before its update to Ready. */
  lemma ReachesReadyMark(cfg: Config, s: State, es: Schedule, n: nat, pid: nat, u: UserId, tn: Tenant)
    requires cfg.K8s() && cfg.devToken.None?
    requires es(n) == Act(pid, CLEAN) && es(n + 1) == Act(pid, CLEAN) && es(n + 2) == Act(pid, CLEAN)
    requires var s0 := From(cfg, s, es, n);
      && pid in s0.procs && s0.procs[pid] == SessionFind(u) && WorldAgrees(cfg, s0.w)
      && Lookup(s0.w.db, u) == Some(tn) && RowIs(s0.w, tn) && Known(s0.w.db, tn)
      && tn.status == Provisioning && FRONT <= Present(s0.w.kube, tn.tenantId)
    ensures var s0, s3 := From(cfg, s, es, n), From(cfg, s, es, n + 3);
      && s3.w == s0.w.(db := SetActive(s0.w.db, tn.tenantId)) && WorldAgrees(cfg, s3.w)
      && s3.procs == s0.procs[pid := ReadyMark(tn, false)]
  {
    hide Next, From, WorldAgrees, Known, Present, Lookup, FRONT, RowIs, SetActive, KeyOf;
    var s0 := From(cfg, s, es, n);
    FromStep(cfg, s, es, n);
    FromStep(cfg, s, es, n + 1);
    FromStep(cfg, s, es, n + 2);
    ActsNow(cfg, s0, pid, FindByUser(u));
    var s1 := From(cfg, s, es, n + 1);
    assert s1.w == s0.w && s1.procs == s0.procs[pid := Touching(tn)];
    ActsNow(cfg, s1, pid, Touch(tn.tenantId));
    TouchAgrees(cfg, s1.w, tn, CLEAN);
    var s2 := From(cfg, s, es, n + 2);
    assert s2.w == s0.w.(db := SetActive(s0.w.db, tn.tenantId)) && s2.procs == s0.procs[pid := Probing(tn, false)];
    ActsNow(cfg, s2, pid, Probe(TenantService(tn.tenantId), tn.token));
    ProbeOf(cfg, s2.w, tn, CLEAN);
    var kinds := Present(s2.w.kube, tn.tenantId);
    assert Healthy(cfg, tn, kinds, CLEAN) by { Heals(cfg, tn, kinds); }
  }

  lemma Heals(cfg: Config, tn: Tenant, kinds: set<Kind>)
    requires cfg.devToken.None? && FRONT <= kinds
    ensures Healthy(cfg, tn, kinds, CLEAN)
  {
  }

  lemma FromStep(cfg: Config, s: State, es: Schedule, n: nat)
    ensures From(cfg, s, es, n + 1) == Next(cfg, From(cfg, s, es, n), es(n))
  {
  }

  /** A session's update to Ready, made however late. */
  lemma MarksReady(cfg: Config, s: State, es: Schedule, n: nat, pid: nat, tn: Tenant)
    requires es(n) == Act(pid, CLEAN)
    requires pid in From(cfg, s, es, n).procs && From(cfg, s, es, n).procs[pid] == ReadyMark(tn, false)
    ensures var s0, s1 := From(cfg, s, es, n), From(cfg, s, es, n + 1);
      && s1.w == s0.w.(db := SetStatus(s0.w.db, tn.tenantId, Ready))
      && s1.procs == s0.procs[pid := SessionReply(cfg, tn, false, Ready)]
  {
    hide Next, From, SetStatus;
    FromStep(cfg, s, es, n);
    ActsNow(cfg, From(cfg, s, es, n), pid, UpdateStatus(tn.tenantId, Ready));
  }

  /** A suspend of a Ready tenant with a Pod, from its lookup to the Pod's deletion. */
  lemma KillsPod(cfg: Config, s: State, es: Schedule, n: nat, pid: nat, u: UserId, tn: Tenant)
    requires cfg.K8s() && tn.status == Ready && es(n) == es(n + 1) == Act(pid, CLEAN)
    requires var s0 := From(cfg, s, es, n);
      && pid in s0.procs && s0.procs[pid] == SuspendFind(u) && Lookup(s0.w.db, u) == Some(tn)
      && PodK in Present(s0.w.kube, tn.tenantId)
    ensures var s0, s2 := From(cfg, s, es, n), From(cfg, s, es, n + 2);
      && s2.w.db == s0.w.db && PodK !in Present(s2.w.kube, tn.tenantId)
      && s2.procs == s0.procs[pid := SuspendMark(tn)]
  {
    hide Next, From, Present, Lookup, KeyOf, OwnerOf;
    var s0, s1, c := From(cfg, s, es, n), From(cfg, s, es, n + 1), Delete(KeyOf(PodK, tn.tenantId));
    FromStep(cfg, s, es, n);
    FromStep(cfg, s, es, n + 1);
    ActsNow(cfg, s0, pid, FindByUser(u));
    assert s1.w == s0.w && s1.procs == s0.procs[pid := SuspendKill(tn)];
    hide KubeCall;
    ActsNow(cfg, s1, pid, c);
    Limits.Deletes(s0.w.kube, tn.tenantId, PodK, CLEAN);
  }

  /** The whole suspend, to its 204. */
  lemma Suspends(cfg: Config, s: State, es: Schedule, n: nat, pid: nat, u: UserId, tn: Tenant)
    requires cfg.K8s() && tn.status == Ready && es(n) == es(n + 1) == es(n + 2) == Act(pid, CLEAN)
    requires var s0 := From(cfg, s, es, n);
      && pid in s0.procs && s0.procs[pid] == SuspendFind(u) && Lookup(s0.w.db, u) == Some(tn)
      && PodK in Present(s0.w.kube, tn.tenantId)
    ensures var s0, s3 := From(cfg, s, es, n), From(cfg, s, es, n + 3);
      && s3.w.db == SetStatus(s0.w.db, tn.tenantId, Suspended)
      && PodK !in Present(s3.w.kube, tn.tenantId)
      && s3.procs == s0.procs[pid := Done(NoContent)]
  {
    hide Next, From, Present, Lookup, SetStatus;
    KillsPod(cfg, s, es, n, pid, u, tn);
    FromStep(cfg, s, es, n + 2);
    ActsNow(cfg, From(cfg, s, es, n + 2), pid, UpdateStatus(tn.tenantId, Suspended));
  }

  /** The row of user u is tn. */
  predicate Holds(db: Db, u: UserId, tn: Tenant) {
    u in db.byUser && db.byUser[u] == tn.tenantId && tn.tenantId in db.rows && db.rows[tn.tenantId].tenant == tn
  }

  lemma HoldsOn(db: Db, u: UserId, tn: Tenant, status: Status)
    requires Holds(db, u, tn)
    ensures Lookup(db, u) == Some(tn)
    ensures Holds(SetActive(db, tn.tenantId), u, tn)
    ensures Holds(SetStatus(db, tn.tenantId, status), u, tn.(status := status))
  {
  }

  lemma HoldsRow(w: World, u: UserId, tn: Tenant)
    requires Holds(w.db, u, tn)
    ensures RowIs(w, tn)
  {
  }

  /** Two sessions have found the engine healthy, and one of them has made the row Ready. */
  lemma BothHealthy(cfg: Config, s: State, es: Schedule, a: nat, b: nat, u: UserId, tn: Tenant)
    requires cfg.K8s() && cfg.devToken.None? && WorldAgrees(cfg, s.w) && a != b && {a, b} <= s.procs.Keys
    requires s.procs[a] == SessionFind(u) && s.procs[b] == SessionFind(u)
    requires Holds(s.w.db, u, tn) && Known(s.w.db, tn) && tn.status == Provisioning
    requires FRONT <= Present(s.w.kube, tn.tenantId)
    requires es(0) == es(1) == es(2) == Act(a, CLEAN) && es(3) == es(4) == es(5) == es(6) == Act(b, CLEAN)
    ensures var s7 := From(cfg, s, es, 7);
      && s7.w.kube == s.w.kube && Holds(s7.w.db, u, tn.(status := Ready))
      && s7.procs == s.procs[a := ReadyMark(tn, false)][b := SessionReply(cfg, tn, false, Ready)]
  {
    hide From, WorldAgrees, Known, Present, Lookup, FRONT, SetActive, SetStatus, Holds, RowIs;
    assert From(cfg, s, es, 0) == s by { FromZero(cfg, s, es); }
    HoldsOn(s.w.db, u, tn, Ready);
    HoldsRow(s.w, u, tn);
    ReachesReadyMark(cfg, s, es, 0, a, u, tn);
    var s3 := From(cfg, s, es, 3);
    HoldsOn(s3.w.db, u, tn, Ready);
    HoldsRow(s3.w, u, tn);
    TouchedKnown(s.w.db, tn);
    ReachesReadyMark(cfg, s, es, 3, b, u, tn);
    var s6 := From(cfg, s, es, 6);
    HoldsOn(s6.w.db, u, tn, Ready);
    MarksReady(cfg, s, es, 6, b, tn);
  }

  /** The suspend in between, and the other session's late update. */
  lemma SuspendedThenReady(cfg: Config, s: State, es: Schedule, n: nat, a: nat, c: nat, u: UserId, tn: Tenant)
    requires cfg.K8s() && a != c && tn.status == Provisioning
    requires es(n) == es(n + 1) == es(n + 2) == Act(c, CLEAN) && es(n + 3) == Act(a, CLEAN)
    requires var s0 := From(cfg, s, es, n);
      && {a, c} <= s0.procs.Keys && s0.procs[a] == ReadyMark(tn, false) && s0.procs[c] == SuspendFind(u)
      && Holds(s0.w.db, u, tn.(status := Ready)) && PodK in Present(s0.w.kube, tn.tenantId)
    ensures var s0, s4 := From(cfg, s, es, n), From(cfg, s, es, n + 4);
      && Holds(s4.w.db, u, tn.(status := Ready)) && PodK !in Present(s4.w.kube, tn.tenantId)
      && s4.procs == s0.procs[c := Done(NoContent)][a := SessionReply(cfg, tn, false, Ready)]
  {
    hide From, Present, Lookup, SetStatus, Holds;
    var up, down := tn.(status := Ready), tn.(status := Suspended);
    var s0 := From(cfg, s, es, n);
    HoldsOn(s0.w.db, u, up, Suspended);
    Suspends(cfg, s, es, n, c, u, up);
    var s3 := From(cfg, s, es, n + 3);
    HoldsOn(s3.w.db, u, down, Ready);
    MarksReady(cfg, s, es, n + 3, a, tn);
  }

  lemma Shuffled(procs: map<nat, Proc>, a: nat, b: nat, c: nat, x: Proc, y: Proc, z: Proc)
    requires a != b && b != c && a != c && {a, b, c} <= procs.Keys
    ensures var m := procs[a := x][b := y];
      && {a, c} <= m.Keys && m[a] == x && m[c] == procs[c]
      && m[c := z][a := y] == procs[a := y][b := y][c := z]
  {
  }

  /**
   * Ready does not imply a Pod even if no call is lost: two sessions a and b of one
   * user have both found the engine healthy; b makes the row Ready, a suspend c
   * removes the Pod, marks the row Suspended and answers 204; then the update of a
   * makes the row Ready again. From any exact world with a Provisioning row.
   */
  lemma LateReadyWrite(cfg: Config, s: State, a: nat, b: nat, c: nat, u: UserId, tn: Tenant)
    requires cfg.K8s() && cfg.devToken.None? && Exact(cfg, s.w) && a != b && b != c && a != c
    requires {a, b, c} <= s.procs.Keys
    requires s.procs[a] == SessionFind(u) && s.procs[b] == SessionFind(u) && s.procs[c] == SuspendFind(u)
    requires u in s.w.db.byUser && Lookup(s.w.db, u) == Some(tn) && tn.status == Provisioning
    ensures var end := From(cfg, s, LateSchedule(a, b, c), 11); var ready := SessionReply(cfg, tn, false, Ready);
      && RowIs(end.w, tn.(status := Ready)) && PodK !in Present(end.w.kube, tn.tenantId)
      && end.procs == s.procs[a := ready][b := ready][c := Done(NoContent)]
  {
    var es := LateSchedule(a, b, c);
    LateTurns(a, b, c);
    LateStart(cfg, s.w, u, tn);
    hide From, WorldAgrees, Known, Present, Lookup, FRONT, Exact, LateTurn, LateSchedule, Holds, RowIs;
    hide SessionReply;
    BothHealthy(cfg, s, es, a, b, u, tn);
    var ready := SessionReply(cfg, tn, false, Ready);
    Shuffled(s.procs, a, b, c, ReadyMark(tn, false), ready, Done(NoContent));
    SuspendedThenReady(cfg, s, es, 7, a, c, u, tn);
    HoldsRow(From(cfg, s, es, 11).w, u, tn.(status := Ready));
  }

  lemma TouchedKnown(db: Db, tn: Tenant)
    requires Known(db, tn)
    ensures Known(SetActive(db, tn.tenantId), tn)
  {
  }

  lemma FromZero(cfg: Config, s: State, es: Schedule)
    ensures From(cfg, s, es, 0) == s
  {
  }

  lemma LateStart(cfg: Config, w: World, u: UserId, tn: Tenant)
    requires Exact(cfg, w) && u in w.db.byUser && Lookup(w.db, u) == Some(tn) && tn.status == Provisioning
    ensures WorldAgrees(cfg, w) && RowIs(w, tn) && Known(w.db, tn) && FRONT <= Present(w.kube, tn.tenantId)
    ensures PodK in Present(w.kube, tn.tenantId) && Holds(w.db, u, tn)
  {
    ExactRow(cfg, w, u);
    LookupRow(cfg, w, u);
    FrontIsFull(cfg);
    hide Present, Full, WorldAgrees, Known;
  }

  lemma LateTurns(a: nat, b: nat, c: nat)
    ensures var es := LateSchedule(a, b, c);
      && es(0) == es(1) == es(2) == es(10) == Act(a, CLEAN)
      && es(3) == es(4) == es(5) == es(6) == Act(b, CLEAN)
      && es(7) == es(8) == es(9) == Act(c, CLEAN)
  {
  }

  lemma CreatesPodNow(cfg: Config, s: State, pid: nat, tn: Tenant, isNew: bool, made: bool)
    requires cfg.K8s() && pid in s.procs && s.procs[pid] == Creating(tn, isNew, Compute(made))
    ensures var s' := Next(cfg, s, Act(pid, CLEAN));
      && s'.w.db == s.w.db && PodK in Present(s'.w.kube, tn.tenantId)
      && s'.procs.Keys == s.procs.Keys && (forall q | q in s.procs && q != pid :: s'.procs[q] == s.procs[q])
  {
    hide KeyOf, OwnerOf, BuildPod, Present, Resume, KubeCall;
    var m := BuildPod(SpecOf(cfg, tn.tenantId, tn.token));
    assert CallAt(cfg, s.procs[pid], 0) == Some(Create(m));
    Limits.Creates(s.w.kube, m, tn.tenantId, CLEAN);
  }

  /**
   * Nor does Suspended imply that there is no Pod, with no call lost: a suspend c
   * has removed the Pod, a provisioning run a creates it again, and then c marks
   * the row.
   */
  lemma SuspendRacesWithProvisioning(
      cfg: Config, s: State, a: nat, c: nat, tn: Tenant, isNew: bool, made: bool, ready: Tenant)
    requires cfg.K8s() && a != c && {a, c} <= s.procs.Keys && RowIs(s.w, ready) && ready.tenantId == tn.tenantId
    requires s.procs[a] == Creating(tn, isNew, Compute(made)) && s.procs[c] == SuspendMark(ready)
    ensures var end := Next(cfg, Next(cfg, s, Act(a, CLEAN)), Act(c, CLEAN));
      RowIs(end.w, ready.(status := Suspended)) && PodK in Present(end.w.kube, tn.tenantId)
  {
    hide Next, Present;
    CreatesPodNow(cfg, s, a, tn, isNew, made);
    ActsNow(cfg, Next(cfg, s, Act(a, CLEAN)), c, UpdateStatus(ready.tenantId, Suspended));
  }

  /**
   * And objects can be left without a row, with no call lost: a delete c has
   * removed the objects and now the row, and a provisioning run a creates the Pod.
   */
  lemma DeleteRacesWithProvisioning(
      cfg: Config, s: State, a: nat, c: nat, tn: Tenant, isNew: bool, made: bool, row: Tenant)
    requires cfg.K8s() && a != c && {a, c} <= s.procs.Keys && row.tenantId == tn.tenantId
    requires s.procs[a] == Creating(tn, isNew, Compute(made)) && s.procs[c] == DeleteLast(row)
    ensures var end := Next(cfg, Next(cfg, s, Act(c, CLEAN)), Act(a, CLEAN));
      tn.tenantId !in end.w.db.rows && PodK in Present(end.w.kube, tn.tenantId)
  {
    hide Next, Present;
    ActsNow(cfg, s, c, DeleteRow(row.tenantId));
    CreatesPodNow(cfg, Next(cfg, s, Act(c, CLEAN)), a, tn, isNew, made);
  }
}
