/**
 * The cluster operations one after another, as the program runs them: what one
 * undoes of the other, and what a repeated run adds.
 */
module Cycles {
  import opened Types
  import opened Manifests
  import opened World
  import opened Handlers
  import opened Stores
  import opened RoundTrips
  import opened K8s
  import Serial

  /** No object of another tenant has been added, changed or removed. */
  ghost predicate Spared(t: TenantId, objs: Objects, objs': Objects) {
    forall key: Key | OwnerOf(key) != t ::
      (key in objs <==> key in objs') && (key in objs ==> objs'[key] == objs[key])
  }

  lemma BetweenSpares(spec: TenantSpec, objs: Objects, objs': Objects)
    requires Between(spec, objs, objs')
    ensures Spared(spec.tenantId, objs, objs')
  {
    hide OwnerOf, KeyOf, Desired;
    forall key: Key | OwnerOf(key) != spec.tenantId
      ensures key !in Desired(spec)
    {
      if key in Desired(spec) {
        DesiredIsOwn(spec, key);
        OwnKeys(spec.tenantId, key);
      }
    }
  }

  lemma TrimmedSpares(t: TenantId, objs: Objects, objs': Objects)
    requires Trimmed(t, objs, objs')
    ensures Spared(t, objs, objs')
  {
    hide OwnerOf, KeyOf, TenantKeys;
    forall key: Key | OwnerOf(key) != t
      ensures key !in TenantKeys(t)
    {
      OwnKeys(t, key);
    }
  }

  lemma SparedTwice(t: TenantId, objs: Objects, objs': Objects, objs'': Objects)
    requires Spared(t, objs, objs') && Spared(t, objs', objs'')
    ensures Spared(t, objs, objs'')
  {
    hide OwnerOf;
  }

  lemma PodSpares(spec: TenantSpec, objs: Objects)
    ensures Spared(spec.tenantId, objs, Stopped(spec.tenantId, objs))
    ensures Spared(spec.tenantId, objs, Woken(spec, objs))
  {
    hide KeyOf, OwnerOf, BuildPod, Stopped, Woken;
    forall key: Key | OwnerOf(key) != spec.tenantId
      ensures key in Stopped(spec.tenantId, objs) <==> key in objs
      ensures key in Woken(spec, objs) <==> key in objs
      ensures key in objs ==> Stopped(spec.tenantId, objs)[key] == objs[key] && Woken(spec, objs)[key] == objs[key]
    {
      OperationsSpareOthers(spec, objs, key);
    }
  }

  lemma SparedSame(t: TenantId, objs: Objects)
    ensures Spared(t, objs, objs)
  {
  }

  /**
   * provision_tenant, then deprovision_tenant, whether or not the first has
   * succeeded. Without faults this is deprovision_tenant alone, and nothing at
   * all when the tenant had no objects; with any faults nobody else is touched.
   */
  method ProvisionThenDeprovision(st: AppState, spec: TenantSpec, ghost tn: Tenant)
      returns (provisioned: bool, gone: bool)
    requires st.Valid() && st.cfg.K8s() && spec == SpecOf(st.cfg, tn.tenantId, tn.token)
    modifies st.cluster, st.net
    ensures AllClean(st.net.o, old(st.net.n), st.net.n) ==>
      && provisioned && gone
      && st.cluster.objs == Deprovisioned(spec.tenantId, old(st.cluster.objs))
      && ((forall kind: Kind :: KeyOf(kind, spec.tenantId) !in old(st.cluster.objs)) ==>
            st.cluster.objs == old(st.cluster.objs))
    ensures Spared(spec.tenantId, old(st.cluster.objs), st.cluster.objs)
  {
    hide KeyOf, OwnerOf, Between, Trimmed, Spared, Provisioned, Deprovisioned, Serial.Drive;
    ghost var start := st.cluster.objs;
    var created;
    provisioned, created := ProvisionTenant(st, spec, tn, true);
    BetweenSpares(spec, start, st.cluster.objs);
    ghost var middle := st.cluster.objs;
    gone := DeprovisionTenant(st, spec.tenantId, tn);
    TrimmedSpares(spec.tenantId, middle, st.cluster.objs);
    SparedTwice(spec.tenantId, start, middle, st.cluster.objs);
    DeprovisionUndoesProvision(spec, start);
  }

  /**
   * suspend_tenant, then, if that went well, wake_tenant. Whenever both go well,
   * the objects are as before with the Pod as built from the spec, and exactly
   * as before if the Pod was so built; without faults both go well if and only
   * if there was a Pod; and with any faults only the Pod can differ.
   */
  method SuspendThenWake(st: AppState, spec: TenantSpec) returns (ok: bool)
    requires st.Valid()
    modifies st.cluster, st.net
    ensures ok ==>
      && KeyOf(PodK, spec.tenantId) in old(st.cluster.objs)
      && st.cluster.objs == old(st.cluster.objs)[KeyOf(PodK, spec.tenantId) := BuildPod(spec)]
      && (old(st.cluster.objs)[KeyOf(PodK, spec.tenantId)] == BuildPod(spec) ==>
            st.cluster.objs == old(st.cluster.objs))
    ensures AllClean(st.net.o, old(st.net.n), st.net.n) ==> (ok <==> KeyOf(PodK, spec.tenantId) in old(st.cluster.objs))
    ensures forall key | key != KeyOf(PodK, spec.tenantId) ::
      (key in st.cluster.objs <==> key in old(st.cluster.objs))
      && (key in st.cluster.objs ==> st.cluster.objs[key] == old(st.cluster.objs)[key])
    ensures Spared(spec.tenantId, old(st.cluster.objs), st.cluster.objs)
  {
    hide KeyOf, OwnerOf, BuildPod, Spared, KubeCall;
    ghost var start := st.cluster.objs;
    SparedSame(spec.tenantId, start);
    PodSpares(spec, start);
    ok := SuspendTenant(st, spec.tenantId);
    ghost var middle := st.cluster.objs;
    if ok {
      PodSpares(spec, middle);
      SparedSame(spec.tenantId, middle);
      ok := WakeTenant(st, spec);
      SparedTwice(spec.tenantId, start, middle, st.cluster.objs);
      WakeUndoesSuspend(spec, start);
    }
  }

  /**
   * provision_tenant run again after a run that went well or was cut short
   * anywhere: it ends with the objects a single run from the start ends with, and
   * after a run that went well it creates nothing.
   */
  method ProvisionAgain(st: AppState, spec: TenantSpec, ghost tn: Tenant)
      returns (first: bool, again: bool, created: bool)
    requires st.Valid() && st.cfg.K8s() && spec == SpecOf(st.cfg, tn.tenantId, tn.token)
    modifies st.cluster, st.net
    ensures again ==> st.cluster.objs == Provisioned(spec, old(st.cluster.objs))
    ensures first && again ==> !created
    ensures Spared(spec.tenantId, old(st.cluster.objs), st.cluster.objs)
  {
    hide KeyOf, OwnerOf, Between, Spared, Provisioned, Serial.Drive, AllClean;
    ghost var start := st.cluster.objs;
    first, created := ProvisionTenant(st, spec, tn, false);
    ghost var partial := st.cluster.objs;
    BetweenSpares(spec, start, partial);
    again, created := ProvisionTenant(st, spec, tn, false);
    BetweenSpares(spec, partial, st.cluster.objs);
    SparedTwice(spec.tenantId, start, partial, st.cluster.objs);
    ProvisioningResumes(spec, start, partial);
    ProvisioningIsIdempotent(spec, start);
  }
}
