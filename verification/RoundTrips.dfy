/** What the cluster operations make of a set of objects, and how they undo each other. */
module RoundTrips {
  import opened Types
  import opened Manifests

  type Objects = map<Key, Manifest>

  /** The objects of a spec, by key. */
  function Desired(spec: TenantSpec): Objects {
    map key | key in TenantKeys(spec.tenantId) && Needs(spec, key.kind) :: Build(key.kind, spec)
  }

  function TenantKeys(t: TenantId): set<Key> {
    set kind: Kind :: KeyOf(kind, t)
  }

  /** After provisioning: objects that were there win. */
  function Provisioned(spec: TenantSpec, objs: Objects): Objects { Desired(spec) + objs }

  function Deprovisioned(t: TenantId, objs: Objects): Objects { objs - TenantKeys(t) }

  function Stopped(t: TenantId, objs: Objects): Objects { objs - {KeyOf(PodK, t)} }

  function Woken(spec: TenantSpec, objs: Objects): Objects { objs[KeyOf(PodK, spec.tenantId) := BuildPod(spec)] }

  /** From objs, some of the spec's objects have been added and nothing has been changed or removed. */
  ghost predicate Between(spec: TenantSpec, objs: Objects, objs': Objects) {
    && (forall key :: key in objs ==> key in objs' && objs'[key] == objs[key])
    && (forall key :: key in objs' && key !in objs ==> key in Desired(spec) && objs'[key] == Desired(spec)[key])
  }

  lemma DesiredHas(spec: TenantSpec, kind: Kind)
    ensures Needs(spec, kind) <==> KeyOf(kind, spec.tenantId) in Desired(spec)
    ensures Needs(spec, kind) ==> Desired(spec)[KeyOf(kind, spec.tenantId)] == Build(kind, spec)
  {
    hide OwnerOf;
    assert KeyOf(kind, spec.tenantId).kind == kind;
    hide KeyOf;
  }

  /** Whatever part of the objects failed or concurrent runs have left, a full run ends in the same place. */
  lemma ProvisioningResumes(spec: TenantSpec, objs: Objects, partial: Objects)
    requires Between(spec, objs, partial)
    ensures Provisioned(spec, partial) == Provisioned(spec, objs)
    ensures Between(spec, objs, Provisioned(spec, partial))
  {
    hide Desired;
  }

  lemma ProvisioningIsIdempotent(spec: TenantSpec, objs: Objects)
    ensures Provisioned(spec, Provisioned(spec, objs)) == Provisioned(spec, objs)
  {
    hide Desired;
  }

  /** Provisioning is complete once every object it needs is there. */
  lemma AllThere(spec: TenantSpec, objs: Objects, objs': Objects)
    requires Between(spec, objs, objs')
    requires forall kind :: Needs(spec, kind) ==> KeyOf(kind, spec.tenantId) in objs'
    ensures objs' == Provisioned(spec, objs)
  {
    hide KeyOf, OwnerOf, Build;
    forall key | key in Desired(spec)
      ensures key in objs'
    {
      var kind: Kind :| key == KeyOf(kind, spec.tenantId);
      assert KeyOf(kind, spec.tenantId).kind == kind;
    }
  }

  lemma DesiredIsOwn(spec: TenantSpec, key: Key)
    requires key in Desired(spec)
    ensures key in TenantKeys(spec.tenantId)
  {
    hide KeyOf, OwnerOf, Build;
  }

  /** Deprovisioning undoes provisioning, whatever was there before, and spares every other tenant. */
  lemma DeprovisionUndoesProvision(spec: TenantSpec, objs: Objects)
    ensures Deprovisioned(spec.tenantId, Provisioned(spec, objs)) == Deprovisioned(spec.tenantId, objs)
    ensures (forall kind: Kind :: KeyOf(kind, spec.tenantId) !in objs) ==>
              Deprovisioned(spec.tenantId, Provisioned(spec, objs)) == objs
    ensures forall key: Key ::
              (key in Deprovisioned(spec.tenantId, objs) <==> key in objs && key !in TenantKeys(spec.tenantId))
  {
    hide KeyOf, OwnerOf;
    forall key | key in Desired(spec)
      ensures key in TenantKeys(spec.tenantId)
    {
      DesiredIsOwn(spec, key);
    }
    hide Desired;
    if forall kind: Kind :: KeyOf(kind, spec.tenantId) !in objs {
      assert forall key :: key in TenantKeys(spec.tenantId) ==> key !in objs;
    }
  }

  /** Suspending and waking leaves every object but the Pod as it was, and a Pod as built from the spec. */
  lemma WakeUndoesSuspend(spec: TenantSpec, objs: Objects)
    ensures var objs' := Woken(spec, Stopped(spec.tenantId, objs));
      && objs' == objs[KeyOf(PodK, spec.tenantId) := BuildPod(spec)]
      && (KeyOf(PodK, spec.tenantId) in objs && objs[KeyOf(PodK, spec.tenantId)] == BuildPod(spec) ==> objs' == objs)
  {
    hide KeyOf, OwnerOf, BuildPod;
  }

  /** A tenant's own keys are exactly those whose names were built from its id. */
  lemma OwnKeys(t: TenantId, key: Key)
    ensures key in TenantKeys(t) <==> key == KeyOf(key.kind, t)
    ensures key in TenantKeys(t) ==> OwnerOf(key) == t
  {
    hide KeyOf, OwnerOf;
    if key in TenantKeys(t) {
      var kind: Kind :| key == KeyOf(kind, t);
    }
  }

  /** No cluster operation for one tenant changes an object of another. */
  lemma OperationsSpareOthers(spec: TenantSpec, objs: Objects, key: Key)
    requires OwnerOf(key) != spec.tenantId
    ensures key in Provisioned(spec, objs) <==> key in objs
    ensures key in Deprovisioned(spec.tenantId, objs) <==> key in objs
    ensures key in Woken(spec, objs) <==> key in objs
    ensures key in Stopped(spec.tenantId, objs) <==> key in objs
    ensures key in objs ==>
      && Provisioned(spec, objs)[key] == objs[key] && Deprovisioned(spec.tenantId, objs)[key] == objs[key]
      && Woken(spec, objs)[key] == objs[key] && Stopped(spec.tenantId, objs)[key] == objs[key]
  {
    hide KeyOf, OwnerOf, BuildPod;
    OwnKeys(spec.tenantId, key);
    if key in Desired(spec) { DesiredIsOwn(spec, key); }
  }
}
