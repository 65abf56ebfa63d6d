/**
 * What past steps have proved about a tenant's objects, in every interleaved
 * and faulty run with Kubernetes enabled, up to the first DELETE that reads
 * the tenant's row.
 */
module Dependencies {
  import opened Types
  import opened Manifests
  import opened World
  import opened Handlers
  import opened Protocol
  import opened Agreement
  import opened Justification

  /** What a Pod refers to. */
  predicate Bound(k: Kube, t: TenantId) {
    Has(k, PvcK, t) && Has(k, SecretK, t)
  }

  /** What a tenant that has been Ready keeps. */
  predicate Backed(k: Kube, t: TenantId) {
    Bound(k, t) && Has(k, ServiceK, t)
  }

  predicate Served(status: Status) { status == Ready || status == Suspended }

  ghost predicate PodsBound(k: Kube, doomed: set<TenantId>) {
    forall t :: t !in doomed && Has(k, PodK, t) ==> Bound(k, t)
  }

  ghost predicate RowsBacked(w: World, doomed: set<TenantId>) {
    forall t :: t !in doomed && t in w.db.rows && Served(w.db.rows[t].tenant.status) ==> Backed(w.kube, t)
  }

  predicate ProvBound(k: Kube, t: TenantId, pv: Prov) {
    match pv
    case Storage(pvc, secret) =>
      && pvc != Skipped && secret != Skipped
      && (There(pvc) ==> Has(k, PvcK, t)) && (There(secret) ==> Has(k, SecretK, t))
    case Compute(_) => Bound(k, t)
    case Network(_, _, _) => Bound(k, t)
    case _ => true
  }

  /** What a handler relies on, although its snapshot may be stale. */
  predicate Relies(k: Kube, doomed: set<TenantId>, p: Proc) {
    && (Snapshot(p).Some? && Snapshot(p).value.tenantId !in doomed ==>
          var t := Snapshot(p).value.tenantId;
          && (Served(Snapshot(p).value.status) ==> Backed(k, t))
          && (p.ReadyMark? ==> Backed(k, t))
          && (p.Creating? ==> ProvBound(k, t, p.prov))
          && !p.DeleteClient? && !p.DeleteFront? && !p.DeleteBack? && !p.DeleteLast?)
  }

  ghost predicate SweepRelies(k: Kube, doomed: set<TenantId>, p: Proc) {
    p.Sweeping? ==>
      && (forall tn :: tn in p.sweep.idle && tn.tenantId !in doomed ==> Backed(k, tn.tenantId))
  }

  ghost predicate Sound(s: State) {
    && PodsBound(s.w.kube, s.doomed)
    && RowsBacked(s.w, s.doomed)
    && forall pid :: pid in s.procs ==>
         Relies(s.w.kube, s.doomed, s.procs[pid]) && SweepRelies(s.w.kube, s.doomed, s.procs[pid])
  }

  /** Everything but Pods survives, as the same instance, while no DELETE is at work. */
  ghost predicate Retains(k: Kube, k': Kube, doomed: set<TenantId>) {
    forall t, kind: Kind :: t !in doomed && kind != PodK && Has(k, kind, t) ==>
      && Has(k', kind, t)
      && (KeyOf(kind, t) in k.inst ==> KeyOf(kind, t) in k'.inst && k'.inst[KeyOf(kind, t)] == k.inst[KeyOf(kind, t)])
  }

  /** What must hold of a call before it is made. */
  predicate Allowed(k: Kube, doomed: set<TenantId>, c: Call) {
    && (c.Create? && KindOf(c.manifest) == PodK ==>
          var t := OwnerOf(KeyFor(c.manifest)); t !in doomed ==> Bound(k, t))
    && (c.Delete? ==> c.key.kind == PodK || OwnerOf(c.key) in doomed)
    && (c.UpdateStatus? && Served(c.status) && c.tenantId !in doomed ==> Backed(k, c.tenantId))
  }

  lemma CallsAllowed(cfg: Config, k: Kube, doomed: set<TenantId>, p: Proc, i: nat)
    requires Relies(k, doomed, p) && SweepRelies(k, doomed, p) && Justified(p)
    requires CallAt(cfg, p, i).Some?
    ensures Allowed(k, doomed, CallAt(cfg, p, i).value)
  {
    hide KeyOf, OwnerOf, KeyFor, BuildPvc, BuildSecret, BuildPod, BuildService, BuildRoute, Backed, Bound;
    assert p.Waking? || p.Creating? ==> Backed(k, p.tn.tenantId) ==> Bound(k, p.tn.tenantId) by { BackedIsBound(k); }
    if p.Sweeping? && i < |p.sweep.tasks| {
      assert p.sweep.tasks[i] in p.sweep.tasks;
    }
  }

  lemma BackedIsBound(k: Kube)
    ensures forall t {:trigger Backed(k, t)} :: Backed(k, t) ==> Bound(k, t)
  {
  }

  lemma KubeRetains(k: Kube, doomed: set<TenantId>, c: Call, ch: Choice)
    requires IsKubeCall(c) && Allowed(k, doomed, c) && PodsBound(k, doomed)
    ensures Retains(k, KubeCall(k, c, ch).0, doomed) && PodsBound(KubeCall(k, c, ch).0, doomed)
  {
    hide KeyOf, OwnerOf, Answers;
  }

  lemma RetainsBacked(k: Kube, k': Kube, doomed: set<TenantId>, t: TenantId)
    requires Retains(k, k', doomed) && t !in doomed
    ensures Bound(k, t) ==> Bound(k', t)
    ensures Backed(k, t) ==> Backed(k', t)
  {
    hide KeyOf;
  }

  lemma RowsStayBacked(w: World, doomed: set<TenantId>, c: Call, ch: Choice)
    requires RowsBacked(w, doomed) && Allowed(w.kube, doomed, c) && PodsBound(w.kube, doomed)
    ensures var w' := Apply(w, c, ch).0;
            RowsBacked(w', doomed) && Retains(w.kube, w'.kube, doomed) && PodsBound(w'.kube, doomed)
  {
    hide KeyOf, OwnerOf, KubeCall, StoreCall, Backed, Bound, Retains, PodsBound;
    var w' := Apply(w, c, ch).0;
    if IsKubeCall(c) {
      KubeRetains(w.kube, doomed, c, ch);
    } else {
      RetainsSame(w.kube, doomed);
    }
    forall t | t !in doomed && t in w'.db.rows && Served(w'.db.rows[t].tenant.status)
      ensures Backed(w'.kube, t)
    {
      StatusChange(w, c, ch, t);
      RetainsBacked(w.kube, w'.kube, doomed, t);
    }
  }

  lemma RetainsSame(k: Kube, doomed: set<TenantId>)
    ensures Retains(k, k, doomed)
  {
  }

  /** What a reply tells about the cluster it was given in. */
  predicate Telling(k: Kube, doomed: set<TenantId>, c: Call, r: Reply) {
    && (r.Found? && r.tenant.Some? && r.tenant.value.tenantId !in doomed && Served(r.tenant.value.status) ==>
          Backed(k, r.tenant.value.tenantId))
    && (r.Inserted? ==> r.row.status == Provisioning)
    && (c.Create? && There(PartOf(r)) ==> KeyFor(c.manifest) in k.objs)
    && (c.Probe? && c.target.TenantService? && r == Answer(true) && c.target.tenantId !in doomed ==>
          Backed(k, c.target.tenantId))
  }

  ghost predicate TellingIdle(k: Kube, doomed: set<TenantId>, r: Reply) {
    r.Idle? ==> forall tn :: tn in r.tenants && tn.tenantId !in doomed ==> Backed(k, tn.tenantId)
  }

  lemma RepliesTell(w: World, doomed: set<TenantId>, c: Call, ch: Choice)
    requires RowsAgree(w.db) && RowsBacked(w, doomed) && PodsBound(w.kube, doomed)
    ensures Telling(Apply(w, c, ch).0.kube, doomed, c, Apply(w, c, ch).1)
  {
    hide KeyOf, OwnerOf, RemoveRow, SetStatus, SetActive;
  }

  lemma ListingIsBacked(w: World, doomed: set<TenantId>, order: seq<TenantId>)
    requires RowsAgree(w.db) && RowsBacked(w, doomed) && Lists(order, IdleIds(w.db))
    ensures forall tn :: tn in Listing(w.db, order) && tn.tenantId !in doomed ==> Backed(w.kube, tn.tenantId)
  {
    hide Backed;
    forall tn | tn in Listing(w.db, order) && tn.tenantId !in doomed
      ensures Backed(w.kube, tn.tenantId)
    {
      var i :| 0 <= i < |order| && tn == Listing(w.db, order)[i];
      assert order[i] in IdleIds(w.db);
    }
  }

  lemma IdleRepliesTell(w: World, doomed: set<TenantId>, c: Call, ch: Choice)
    requires RowsAgree(w.db) && RowsBacked(w, doomed)
    ensures TellingIdle(Apply(w, c, ch).0.kube, doomed, Apply(w, c, ch).1)
  {
    hide KeyOf, RemoveRow, SetStatus, SetActive, AddRow, AddObject, RemoveObject, Backed, KeyFor;
    if c.FindIdle? && ch.fate == Clean && Lists(ch.order, IdleIds(w.db)) {
      ListingIsBacked(w, doomed, ch.order);
    }
  }

  lemma RunRelies(cfg: Config, k: Kube, doomed: set<TenantId>, tn: Tenant, isNew: bool, pv: Prov, i: nat, r: Reply)
    requires Relies(k, doomed, Creating(tn, isNew, pv))
    requires var spec := SpecOf(cfg, tn.tenantId, tn.token);
      tn.tenantId !in doomed ==> ProvBound(k, tn.tenantId, ProvResume(spec, pv, i, r))
    ensures Relies(k, doomed, SessionResume(cfg, Creating(tn, isNew, pv), i, r))
  {
    hide KeyOf, OwnerOf, Backed, ProvBound, ProvResume;
  }

  lemma NoRunRelies(cfg: Config, k: Kube, doomed: set<TenantId>, p: Proc, i: nat, r: Reply)
    requires cfg.K8s() && IsSession(p) && !p.Creating? && Relies(k, doomed, p)
    requires CallAt(cfg, p, i).Some? && Telling(k, doomed, CallAt(cfg, p, i).value, r)
    ensures Relies(k, doomed, SessionResume(cfg, p, i, r))
  {
    assert forall t {:trigger ProvBound(k, t, Client)} :: ProvBound(k, t, Client) by { ClientBound(k); }
    hide KeyOf, OwnerOf, KeyFor, Backed, ProvBound, BuildPod, PublicUrl, NewUrl, ResponseToken, ProvResume, ProvCall;
    if p.SessionFind? || p.SessionInsert? {
      hide ProbeCall;
    } else if p.Probing? {
      hide AfterTouch;
    } else {
      hide Telling, CallAt;
    }
  }

  /** The handler's next position relies on no more than the reply has shown. */
  lemma SessionRelies(cfg: Config, k: Kube, doomed: set<TenantId>, p: Proc, i: nat, r: Reply)
    requires cfg.K8s() && IsSession(p) && Relies(k, doomed, p)
    requires CallAt(cfg, p, i).Some? && Telling(k, doomed, CallAt(cfg, p, i).value, r)
    requires p.Creating? ==> !p.prov.Finished?
    ensures Relies(k, doomed, SessionResume(cfg, p, i, r))
  {
    hide KeyOf, OwnerOf, KeyFor, Backed, ProvBound, SessionResume, ProvCall, ProvResume;
    if p.Creating? {
      if p.tn.tenantId !in doomed { ProvRelies(k, SpecOf(cfg, p.tn.tenantId, p.tn.token), p.prov, i, r); }
      RunRelies(cfg, k, doomed, p.tn, p.isNew, p.prov, i, r);
    } else {
      hide Relies, Telling, CallAt;
      NoRunRelies(cfg, k, doomed, p, i, r);
    }
  }

  lemma ClientBound(k: Kube)
    ensures forall t {:trigger ProvBound(k, t, Client)} :: ProvBound(k, t, Client)
  {
  }

  lemma ProvRelies(k: Kube, spec: TenantSpec, pv: Prov, i: nat, r: Reply)
    requires ProvBound(k, spec.tenantId, pv) && ProvCall(spec, pv, i).Some?
    requires var c := ProvCall(spec, pv, i).value; c.Create? && There(PartOf(r)) ==> KeyFor(c.manifest) in k.objs
    ensures ProvBound(k, spec.tenantId, ProvResume(spec, pv, i, r))
  {
    hide KeyOf, OwnerOf;
  }

  lemma RequestRelies(cfg: Config, k: Kube, doomed: set<TenantId>, p: Proc, i: nat, c: Call, r: Reply)
    requires !IsSession(p) && !IsSweeper(p) && Relies(k, doomed, p)
    requires Telling(k, doomed, c, r)
    ensures var next := RequestResume(cfg, p, i, r); Relies(k, doomed + Doom(p, next), next)
  {
    hide KeyOf, OwnerOf, KeyFor, Backed, ProvBound;
  }

  lemma ResumeRelies(cfg: Config, k: Kube, doomed: set<TenantId>, p: Proc, i: nat, r: Reply, now: nat)
    requires cfg.K8s() && Relies(k, doomed, p) && Running(p)
    requires CallAt(cfg, p, i).Some? && Telling(k, doomed, CallAt(cfg, p, i).value, r)
    ensures var next := Resume(cfg, p, i, r, now); Relies(k, doomed + Doom(p, next), next)
  {
    hide CallAt, Telling, SessionResume, RequestResume, TaskStep, AwaitStep, Backed, ProvBound;
    if IsSession(p) {
      SessionRelies(cfg, k, doomed, p, i, r);
      assert doomed + Doom(p, SessionResume(cfg, p, i, r)) == doomed;
    } else if !IsSweeper(p) {
      RequestRelies(cfg, k, doomed, p, i, CallAt(cfg, p, i).value, r);
    }
  }

  lemma SweepReliesOn(cfg: Config, k: Kube, doomed: set<TenantId>, p: Proc, i: nat, r: Reply, now: nat)
    requires SweepRelies(k, doomed, p) && TellingIdle(k, doomed, r)
    ensures SweepRelies(k, doomed, Resume(cfg, p, i, r, now))
  {
    hide SessionResume, RequestResume, TaskStep, AwaitStep, Backed, KeyOf;
    assert IsSession(p) ==> !SessionResume(cfg, p, i, r).Sweeping? by { SessionIsNoSweep(cfg, p, i, r); }
    assert !IsSession(p) && !IsSweeper(p) ==> !RequestResume(cfg, p, i, r).Sweeping? by {
      RequestIsNoSweep(cfg, p, i, r);
    }
  }

  lemma SessionIsNoSweep(cfg: Config, p: Proc, i: nat, r: Reply)
    ensures IsSession(p) ==> !SessionResume(cfg, p, i, r).Sweeping?
  {
  }

  lemma RequestIsNoSweep(cfg: Config, p: Proc, i: nat, r: Reply)
    ensures !IsSession(p) && !IsSweeper(p) ==> !RequestResume(cfg, p, i, r).Sweeping?
  {
  }

  /** What a handler relies on survives the steps of all others. */
  lemma ReliesSurvives(k: Kube, k': Kube, doomed: set<TenantId>, doomed': set<TenantId>, p: Proc)
    requires Relies(k, doomed, p) && SweepRelies(k, doomed, p)
    requires Retains(k, k', doomed) && doomed <= doomed'
    ensures Relies(k', doomed', p) && SweepRelies(k', doomed', p)
  {
    hide KeyOf, Retains, Backed;
    if Snapshot(p).Some? && Snapshot(p).value.tenantId !in doomed {
      var t := Snapshot(p).value.tenantId;
      RetainsBacked(k, k', doomed, t);
      assert p.Creating? ==> ProvBound(k', t, p.prov) by { RetainsProv(k, k', doomed, t, p); }
    }
    if p.Sweeping? {
      forall tn | tn in p.sweep.idle && tn.tenantId !in doomed'
        ensures Backed(k', tn.tenantId)
      {
        RetainsBacked(k, k', doomed, tn.tenantId);
      }
    }
  }

  lemma RetainsProv(k: Kube, k': Kube, doomed: set<TenantId>, t: TenantId, p: Proc)
    requires Retains(k, k', doomed) && t !in doomed
    requires p.Creating? ==> ProvBound(k, t, p.prov)
    ensures p.Creating? ==> ProvBound(k', t, p.prov)
  {
    hide KeyOf;
  }

  ghost predicate AllRunning(s: State) {
    forall pid :: pid in s.procs ==> Running(s.procs[pid])
  }

  lemma ActSound(cfg: Config, s: State, pid: nat, ch: Choice)
    requires cfg.K8s() && Sound(s) && RowsAgree(s.w.db) && AllJustified(s) && AllRunning(s)
    requires CallOf(cfg, s, pid, ch).Some?
    ensures var s' := ActStep(cfg, s, pid, ch); Sound(s') && Retains(s.w.kube, s'.w.kube, s.doomed)
  {
    hide KeyOf, CallAt, Apply, Resume, Relies, SweepRelies, PodsBound, RowsBacked, Retains, Justified, RowsAgree,
      Running, Telling, Allowed, Doom;
    var p, c := s.procs[pid], CallOf(cfg, s, pid, ch).value;
    var (w, r) := Apply(s.w, c, ch);
    var next := Resume(cfg, p, ch.branch, r, s.w.db.clock);
    CallsAllowed(cfg, s.w.kube, s.doomed, p, ch.branch);
    RowsStayBacked(s.w, s.doomed, c, ch);
    RepliesTell(s.w, s.doomed, c, ch);
    IdleRepliesTell(s.w, s.doomed, c, ch);
    ReliesSurvives(s.w.kube, w.kube, s.doomed, s.doomed, p);
    ResumeRelies(cfg, w.kube, s.doomed, p, ch.branch, r, s.w.db.clock);
    SweepReliesOn(cfg, w.kube, s.doomed, p, ch.branch, r, s.w.db.clock);
    DoomedMore(w, s.doomed, s.doomed + Doom(p, next), next);
    forall q | q in s.procs
      ensures Relies(w.kube, s.doomed + Doom(p, next), s.procs[q])
          && SweepRelies(w.kube, s.doomed + Doom(p, next), s.procs[q])
    {
      ReliesSurvives(s.w.kube, w.kube, s.doomed, s.doomed + Doom(p, next), s.procs[q]);
    }
  }

  lemma DoomedMore(w: World, doomed: set<TenantId>, doomed': set<TenantId>, p: Proc)
    requires PodsBound(w.kube, doomed) && RowsBacked(w, doomed) && SweepRelies(w.kube, doomed, p) && doomed <= doomed'
    ensures PodsBound(w.kube, doomed') && RowsBacked(w, doomed') && SweepRelies(w.kube, doomed', p)
  {
  }

  lemma PodLossSound(s: State, t: TenantId)
    requires Sound(s)
    ensures var k' := RemoveObject(s.w.kube, KeyOf(PodK, t));
            Sound(s.(w := s.w.(kube := k'))) && Retains(s.w.kube, k', s.doomed)
  {
    hide KeyOf, OwnerOf, Relies, SweepRelies, Backed;
    var k' := RemoveObject(s.w.kube, KeyOf(PodK, t));
    forall pid | pid in s.procs
      ensures Relies(k', s.doomed, s.procs[pid]) && SweepRelies(k', s.doomed, s.procs[pid])
    {
      ReliesSurvives(s.w.kube, k', s.doomed, s.doomed, s.procs[pid]);
    }
    forall u | u !in s.doomed && u in s.w.db.rows && Served(s.w.db.rows[u].tenant.status)
      ensures Backed(k', u)
    {
      RetainsBacked(s.w.kube, k', s.doomed, u);
    }
  }

  lemma StepSound(cfg: Config, s: State, e: Event)
    requires cfg.K8s() && Sound(s) && RowsAgree(s.w.db) && AllJustified(s) && AllRunning(s)
    ensures var s' := Next(cfg, s, e); Sound(s') && Retains(s.w.kube, s'.w.kube, s.doomed) && s.doomed <= s'.doomed
  {
    hide KeyOf, CallOf, PodsBound, Backed, Retains, Running, Justified, RowsAgree, ProvBound, RemoveObject;
    RetainsSame(s.w.kube, s.doomed);
    if e.LosePod? {
      PodLossSound(s, e.tenantId);
    } else if e.Act? && CallOf(cfg, s, e.pid, e.choice).Some? {
      hide Sound, Resume, Apply;
      ActSound(cfg, s, e.pid, e.choice);
    }
  }

  lemma AllAreRunning(cfg: Config, es: Schedule, n: nat)
    ensures AllRunning(At(cfg, es, n))
  {
    forall pid | pid in At(cfg, es, n).procs
      ensures Running(At(cfg, es, n).procs[pid])
    {
      RunsAreRunning(cfg, es, n, pid);
    }
  }

  lemma AtAgrees(cfg: Config, es: Schedule, n: nat)
    ensures RowsAgree(At(cfg, es, n).w.db)
  {
    hide At, RowsAgree;
    AlwaysAgrees(cfg, es, n);
  }

  lemma StartIsSound()
    ensures Sound(INIT)
  {
    hide KeyOf, OwnerOf;
  }

  lemma {:induction false} AlwaysSound(cfg: Config, es: Schedule, n: nat)
    requires cfg.K8s()
    ensures Sound(At(cfg, es, n))
  {
    if n == 0 {
      StartIsSound();
    } else {
      hide *;
      AlwaysSound(cfg, es, n - 1);
      assert RowsAgree(At(cfg, es, n - 1).w.db) by { AtAgrees(cfg, es, n - 1); }
      AlwaysJustified(cfg, es, n - 1);
      AllAreRunning(cfg, es, n - 1);
      assert At(cfg, es, n) == Next(cfg, At(cfg, es, n - 1), es(n - 1)) by { AtStep(cfg, es, n - 1); }
      StepSound(cfg, At(cfg, es, n - 1), es(n - 1));
    }
  }

  /**
   * Main result: with no DELETE for t, at every step of every run, a Pod has its
   * claim and its Secret, and a tenant that is Ready or Suspended has claim,
   * Secret and Service; and so has every tenant that a handler in flight,
   * however stale, still believes to be Ready or Suspended.
   */
  lemma DependenciesHold(cfg: Config, es: Schedule, n: nat, t: TenantId)
    requires cfg.K8s() && t !in At(cfg, es, n).doomed
    ensures var s := At(cfg, es, n);
      && (Has(s.w.kube, PodK, t) ==> Has(s.w.kube, PvcK, t) && Has(s.w.kube, SecretK, t))
      && (t in s.w.db.rows && s.w.db.rows[t].tenant.status in {Ready, Suspended} ==>
            Has(s.w.kube, PvcK, t) && Has(s.w.kube, SecretK, t) && Has(s.w.kube, ServiceK, t))
      && (forall pid | pid in s.procs && Snapshot(s.procs[pid]).Some? ::
            Snapshot(s.procs[pid]).value.tenantId == t && Snapshot(s.procs[pid]).value.status in {Ready, Suspended} ==>
            Has(s.w.kube, PvcK, t) && Has(s.w.kube, SecretK, t) && Has(s.w.kube, ServiceK, t))
  {
    hide At, KeyOf;
    AlwaysSound(cfg, es, n);
  }

  /** A DELETE that has read a tenant's row stays on record. */
  lemma {:induction false} DoomedStays(cfg: Config, es: Schedule, n: nat, m: nat)
    requires n <= m
    ensures At(cfg, es, n).doomed <= At(cfg, es, m).doomed
  {
    if n < m {
      DoomedStays(cfg, es, n, m - 1);
      hide CallOf, KeyOf, Resume, Apply;
    }
  }

  /** With no DELETE for t, each object of t but the Pod stays for ever once it exists, as the same instance. */
  lemma {:induction false} InstancesSurvive(cfg: Config, es: Schedule, n: nat, m: nat, t: TenantId, kind: Kind)
    requires cfg.K8s() && n <= m && t !in At(cfg, es, m).doomed
    requires kind != PodK && Has(At(cfg, es, n).w.kube, kind, t)
    ensures Has(At(cfg, es, m).w.kube, kind, t)
    ensures KeyOf(kind, t) in At(cfg, es, n).w.kube.inst && KeyOf(kind, t) in At(cfg, es, m).w.kube.inst
    ensures At(cfg, es, m).w.kube.inst[KeyOf(kind, t)] == At(cfg, es, n).w.kube.inst[KeyOf(kind, t)]
  {
    hide Next, Sound, RowsAgree, AllJustified, AllRunning, KeyOf, Genuine;
    AlwaysAgrees(cfg, es, n);
    if n < m {
      DoomedStays(cfg, es, m - 1, m);
      InstancesSurvive(cfg, es, n, m - 1, t, kind);
      AlwaysSound(cfg, es, m - 1);
      AlwaysAgrees(cfg, es, m - 1);
      AlwaysJustified(cfg, es, m - 1);
      AllAreRunning(cfg, es, m - 1);
      StepSound(cfg, At(cfg, es, m - 1), es(m - 1));
    }
  }

  /**
   * Data survives: with no DELETE for t, every Pod of t at any step from n to m
   * mounts a claim that exists and is the very instance that existed at step n.
   */
  lemma DataSurvives(cfg: Config, es: Schedule, n: nat, m: nat, t: TenantId)
    requires cfg.K8s() && n <= m && t !in At(cfg, es, m).doomed
    requires Has(At(cfg, es, n).w.kube, PvcK, t) && Has(At(cfg, es, m).w.kube, PodK, t)
    ensures var k, k' := At(cfg, es, n).w.kube, At(cfg, es, m).w.kube;
      && k'.objs[KeyOf(PodK, t)].Pod?
      && var claim := Key(PvcK, k'.objs[KeyOf(PodK, t)].claim);
      && claim in k'.objs && claim in k'.inst && claim in k.inst && k'.inst[claim] == k.inst[claim]
  {
    hide At, KeyOf, OwnerOf;
    InstancesSurvive(cfg, es, n, m, t, PvcK);
    AlwaysAgrees(cfg, es, m);
    var w := At(cfg, es, m).w;
    assert Genuine(cfg, w.db.issued, w.kube.objs[KeyOf(PodK, t)]);
  }
}
