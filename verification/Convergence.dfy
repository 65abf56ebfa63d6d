/**
 * Provisioning under concurrency: whatever other runs, failures and handlers do
 * in between, one successful run leaves exactly the objects of the spec.
 */
module Convergence {
  import opened Types
  import opened Manifests
  import opened World
  import opened Handlers
  import opened Protocol
  import opened Agreement

  /** What a run has found or put in place so far. */
  predicate Progress(k: Kube, spec: TenantSpec, pv: Prov) {
    var t := spec.tenantId;
    match pv
    case Client => true
    case Storage(pvc, secret) =>
      && pvc != Skipped && secret != Skipped
      && (There(pvc) ==> Has(k, PvcK, t)) && (There(secret) ==> Has(k, SecretK, t))
    case Compute(_) => Has(k, PvcK, t) && Has(k, SecretK, t)
    case Network(_, service, route) =>
      && Has(k, PvcK, t) && Has(k, SecretK, t) && Has(k, PodK, t)
      && service != Skipped && (There(service) ==> Has(k, ServiceK, t))
      && (route == Skipped <==> spec.domain.None?) && (There(route) ==> Has(k, RouteK, t))
    case Finished(ok, _) => ok ==> forall kind :: Needs(spec, kind) ==> Has(k, kind, t)
  }

  lemma ProvProgress(k: Kube, spec: TenantSpec, pv: Prov, i: nat, ch: Choice)
    requires Progress(k, spec, pv) && ProvCall(spec, pv, i).Some?
    ensures var (k', r) := KubeCall(k, ProvCall(spec, pv, i).value, ch);
            Progress(k', spec, ProvResume(spec, pv, i, r))
  {
    hide KeyOf, OwnerOf;
  }

  ghost predicate Keeps(k: Kube, k': Kube, t: TenantId) {
    forall kind: Kind :: Has(k, kind, t) ==> Has(k', kind, t)
  }

  lemma ProgressKept(k: Kube, k': Kube, spec: TenantSpec, pv: Prov)
    requires Progress(k, spec, pv) && Keeps(k, k', spec.tenantId)
    ensures Progress(k', spec, pv)
  {
    hide KeyOf;
  }

  /** Where the handler stands right after its provisioning run succeeded. */
  predicate Succeeded(p: Proc, tn: Tenant, isNew: bool) {
    p == if isNew then Probing(tn, true) else CreateMark(tn)
  }

  ghost predicate OnTheWay(cfg: Config, k: Kube, p: Proc, tn: Tenant, isNew: bool) {
    var spec := SpecOf(cfg, tn.tenantId, tn.token);
    && (p.Creating? && p.tn == tn && p.isNew == isNew ==> Progress(k, spec, p.prov))
    && (Succeeded(p, tn, isNew) ==> forall kind :: Needs(spec, kind) ==> Has(k, kind, tn.tenantId))
    && ((p.Creating? && p.tn == tn && p.isNew == isNew) || Succeeded(p, tn, isNew)
        || p.ErrorMark? || p.ReadyMark? || p.Done? || p.Crashed?)
  }

  lemma OwnStep(cfg: Config, k: Kube, p: Proc, i: nat, ch: Choice, tn: Tenant, isNew: bool, now: nat)
    requires cfg.K8s() && OnTheWay(cfg, k, p, tn, isNew) && p.Creating? && CallAt(cfg, p, i).Some?
    ensures IsKubeCall(CallAt(cfg, p, i).value)
    ensures var (k', r) := KubeCall(k, CallAt(cfg, p, i).value, ch);
            OnTheWay(cfg, k', Resume(cfg, p, i, r, now), tn, isNew)
  {
    hide KeyOf, KeyFor, KubeCall, ProvResume, BuildPvc, BuildSecret, BuildPod, BuildService, BuildRoute;
    ProvProgress(k, SpecOf(cfg, tn.tenantId, tn.token), p.prov, i, ch);
  }

  lemma LaterStep(cfg: Config, k: Kube, p: Proc, i: nat, r: Reply, tn: Tenant, isNew: bool, now: nat)
    requires cfg.K8s() && OnTheWay(cfg, k, p, tn, isNew) && !p.Creating?
    ensures OnTheWay(cfg, k, Resume(cfg, p, i, r, now), tn, isNew)
  {
    hide KeyOf;
  }

  lemma OnTheWayKept(cfg: Config, k: Kube, k': Kube, p: Proc, tn: Tenant, isNew: bool)
    requires OnTheWay(cfg, k, p, tn, isNew) && Keeps(k, k', tn.tenantId)
    ensures OnTheWay(cfg, k', p, tn, isNew)
  {
    hide KeyOf;
    if p.Creating? && p.tn == tn && p.isNew == isNew {
      ProgressKept(k, k', SpecOf(cfg, tn.tenantId, tn.token), p.prov);
    }
  }

  lemma StepOnTheWay(cfg: Config, s: State, e: Event, pid: nat, tn: Tenant, isNew: bool)
    requires cfg.K8s() && pid in s.procs && OnTheWay(cfg, s.w.kube, s.procs[pid], tn, isNew)
    requires Keeps(s.w.kube, Next(cfg, s, e).w.kube, tn.tenantId)
    ensures pid in Next(cfg, s, e).procs && OnTheWay(cfg, Next(cfg, s, e).w.kube, Next(cfg, s, e).procs[pid], tn, isNew)
  {
    hide KeyOf, Resume, CallAt, OnTheWay, Keeps, KubeCall, StoreCall, RemoveObject;
    var k' := Next(cfg, s, e).w.kube;
    OnTheWayKept(cfg, s.w.kube, k', s.procs[pid], tn, isNew);
    if e.Act? && e.pid == pid && CallOf(cfg, s, pid, e.choice).Some? {
      var c := CallOf(cfg, s, pid, e.choice).value;
      if s.procs[pid].Creating? {
        OwnStep(cfg, s.w.kube, s.procs[pid], e.choice.branch, e.choice, tn, isNew, s.w.db.clock);
      } else {
        LaterStep(cfg, k', s.procs[pid], e.choice.branch, Apply(s.w, c, e.choice).1, tn, isNew, s.w.db.clock);
      }
    } else if e.Crash? && e.pid == pid {
      CrashedIsFine(cfg, k', tn, isNew);
    }
  }

  lemma CrashedIsFine(cfg: Config, k: Kube, tn: Tenant, isNew: bool)
    ensures OnTheWay(cfg, k, Crashed, tn, isNew)
  {
  }

  lemma {:induction false} StaysOnTheWay(cfg: Config, es: Schedule, n: nat, m: nat, pid: nat, tn: Tenant, isNew: bool)
    requires cfg.K8s() && n <= m
    requires pid in At(cfg, es, n).procs && At(cfg, es, n).procs[pid] == Creating(tn, isNew, Client)
    requires forall i {:trigger At(cfg, es, i)} :: n <= i < m ==>
               Keeps(At(cfg, es, i).w.kube, At(cfg, es, i + 1).w.kube, tn.tenantId)
    ensures pid in At(cfg, es, m).procs
    ensures OnTheWay(cfg, At(cfg, es, m).w.kube, At(cfg, es, m).procs[pid], tn, isNew)
  {
    if n < m {
      hide *;
      StaysOnTheWay(cfg, es, n, m - 1, pid, tn, isNew);
      assert Keeps(At(cfg, es, m - 1).w.kube, At(cfg, es, m - 1 + 1).w.kube, tn.tenantId);
      assert At(cfg, es, m) == Next(cfg, At(cfg, es, m - 1), es(m - 1)) by { AtStep(cfg, es, m - 1); }
      StepOnTheWay(cfg, At(cfg, es, m - 1), es(m - 1), pid, tn, isNew);
    } else {
      hide At, Keeps;
    }
  }

  /**
   * Provisioning converges. A run for tenant tn starts at step n and has
   * succeeded at step m. In between, any number of other runs for the tenant may
   * fail, crash or succeed, in any order, as long as none of its objects is
   * removed. Then the tenant's objects at step m are exactly those of its spec.
   */
  lemma ProvisioningConverges(cfg: Config, es: Schedule, n: nat, m: nat, pid: nat, tn: Tenant, isNew: bool, kind: Kind)
    requires cfg.K8s() && n <= m
    requires pid in At(cfg, es, n).procs && At(cfg, es, n).procs[pid] == Creating(tn, isNew, Client)
    requires forall i {:trigger At(cfg, es, i)} :: n <= i < m ==>
               Keeps(At(cfg, es, i).w.kube, At(cfg, es, i + 1).w.kube, tn.tenantId)
    requires pid in At(cfg, es, m).procs && Succeeded(At(cfg, es, m).procs[pid], tn, isNew)
    ensures var k, spec := At(cfg, es, m).w.kube, SpecOf(cfg, tn.tenantId, tn.token);
      && (Has(k, kind, tn.tenantId) <==> Needs(spec, kind))
      && (Has(k, kind, tn.tenantId) ==> k.objs[KeyOf(kind, tn.tenantId)] == Build(kind, spec))
  {
    hide At, Keeps, KeyOf, OwnerOf, Build;
    StaysOnTheWay(cfg, es, n, m, pid, tn, isNew);
    AlwaysAgrees(cfg, es, m);
    var s := At(cfg, es, m);
    assert ProcAgrees(s.w.db, s.procs[pid]);
    if Has(s.w.kube, kind, tn.tenantId) {
      assert Genuine(cfg, s.w.db.issued, s.w.kube.objs[KeyOf(kind, tn.tenantId)]);
    }
  }

  // --- The `created` flag ---

  predicate MadeSoFar(pv: Prov) {
    match pv
    case Client => false
    case Storage(pvc, secret) => pvc == Made || secret == Made
    case Compute(made) => made
    case Network(made, service, route) => made || service == Made || route == Made
    case Finished(_, made) => made
  }

  predicate HasFailed(pv: Prov) {
    match pv
    case Storage(pvc, secret) => pvc == Broken || secret == Broken
    case Network(_, service, route) => service == Broken || route == Broken
    case Finished(ok, _) => !ok
    case _ => false
  }

  lemma MadeStep(k: Kube, spec: TenantSpec, pv: Prov, i: nat, ch: Choice)
    requires ProvCall(spec, pv, i).Some?
    ensures var (k', r) := KubeCall(k, ProvCall(spec, pv, i).value, ch);
            var pv' := ProvResume(spec, pv, i, r);
            !HasFailed(pv') ==> !HasFailed(pv) && (MadeSoFar(pv') <==> MadeSoFar(pv) || k'.objs != k.objs)
  {
    hide KeyOf, OwnerOf;
    var c := ProvCall(spec, pv, i).value;
    var (k', r) := KubeCall(k, c, ch);
    assert c.Create? && r.Ok? ==> KeyFor(c.manifest) in k'.objs && KeyFor(c.manifest) !in k.objs;
  }

  /** One step of a run among others: which branch, in what cluster, with what choice. */
  datatype RunStep = RunStep(branch: nat, kube: Kube, choice: Choice)

  /** A run's own position after its steps; other handlers may change the cluster between them. */
  function RunFrom(spec: TenantSpec, pv: Prov, steps: seq<RunStep>): Prov {
    if steps == [] then pv
    else
      var last, before := steps[|steps| - 1], RunFrom(spec, pv, steps[..|steps| - 1]);
      if ProvCall(spec, before, last.branch).None? then before
      else
        var c := ProvCall(spec, before, last.branch).value;
        ProvResume(spec, before, last.branch, KubeCall(last.kube, c, last.choice).1)
  }

  /** Whether some step of the run added an object. */
  ghost predicate Added(spec: TenantSpec, steps: seq<RunStep>) {
    exists i :: 0 <= i < |steps| && AddedBy(spec, steps, i)
  }

  predicate AddedBy(spec: TenantSpec, steps: seq<RunStep>, i: nat)
    requires i < |steps|
  {
    var c := ProvCall(spec, RunFrom(spec, Client, steps[..i]), steps[i].branch);
    c.Some? && KubeCall(steps[i].kube, c.value, steps[i].choice).0.objs != steps[i].kube.objs
  }

  /** As long as nothing has failed, the flag says whether this run has added an object. */
  lemma {:induction false} FlagTellsAdded(spec: TenantSpec, steps: seq<RunStep>)
    ensures !HasFailed(RunFrom(spec, Client, steps)) ==>
              (MadeSoFar(RunFrom(spec, Client, steps)) <==> Added(spec, steps))
  {
    hide KubeCall, ProvCall, ProvResume, MadeSoFar, HasFailed;
    if steps == [] {
      assert !MadeSoFar(Client) by { FreshRun(); }
    } else {
      var n := |steps| - 1;
      var before, last := steps[..n], steps[n];
      FlagTellsAdded(spec, before);
      var pv := RunFrom(spec, Client, before);
      if ProvCall(spec, pv, last.branch).Some? {
        MadeStep(last.kube, spec, pv, last.branch, last.choice);
      }
      assert forall i | 0 <= i < n :: AddedBy(spec, before, i) == AddedBy(spec, steps, i) by {
        forall i | 0 <= i < n
          ensures AddedBy(spec, before, i) == AddedBy(spec, steps, i)
        {
          assert before[..i] == steps[..i];
        }
      }
      assert Added(spec, steps) <==> Added(spec, before) || AddedBy(spec, steps, n) by {
        if AddedBy(spec, steps, n) { assert Added(spec, steps); }
        if Added(spec, before) {
          var i :| 0 <= i < n && AddedBy(spec, before, i);
          assert AddedBy(spec, steps, i);
        }
      }
    }
  }

  /**
   * However other handlers change the cluster between its steps: a run that
   * succeeds reports `created` exactly when it added at least one object itself.
   */
  lemma CreatedMeansAdded(spec: TenantSpec, steps: seq<RunStep>, made: bool)
    requires RunFrom(spec, Client, steps) == Finished(true, made)
    ensures made <==> Added(spec, steps)
  {
    FlagTellsAdded(spec, steps);
    hide RunFrom;
  }

  lemma FreshRun()
    ensures !MadeSoFar(Client)
  {
  }
}
