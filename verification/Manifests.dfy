/** Names and manifests of the Kubernetes objects of one tenant. */
module Manifests {
  import opened Types
  import Base64

  datatype Kind = PvcK | SecretK | PodK | ServiceK | RouteK

  /** Objects in the tenants namespace are addressed by kind and name. */
  datatype Key = Key(kind: Kind, name: string)

  const PREFIX := "tenant-"
  const TENANT_LABEL := "houston.ai/tenant"

  function Suffix(kind: Kind): string {
    match kind
    case PvcK => "-data"
    case SecretK => "-token"
    case _ => ""
  }

  /** The tenant an object name was built from. */
  function OwnerOf(key: Key): TenantId {
    var cut := |PREFIX| + |Suffix(key.kind)|;
    if |key.name| < cut then "" else key.name[|PREFIX|..|key.name| - |Suffix(key.kind)|]
  }

  /** Every object name gives back its tenant, so names of different tenants never collide. */
  function KeyOf(kind: Kind, t: TenantId): (key: Key)
    ensures key.kind == kind && OwnerOf(key) == t
  {
    Key(kind, PREFIX + t + Suffix(kind))
  }

  /** The objects without a suffix share one name. */
  lemma NoSuffix(t: TenantId)
    ensures forall kind | kind in {PodK, ServiceK, RouteK} :: KeyOf(kind, t).name == "tenant-" + t
  {
    assert PREFIX + t + "" == "tenant-" + t;
  }

  datatype TenantSpec = TenantSpec(
    tenantId: TenantId,
    token: Token,
    image: string,
    domain: Option<string>,
    gvisor: bool,
    storageClass: string)

  /** A reference to one key of a Secret. */
  datatype SecretRef = SecretRef(name: string, key: string)

  /** A manifest with the fields other objects refer to. */
  datatype Manifest =
    | Pvc(name: string, tenant: TenantId, storageClass: string)
    | Secret(name: string, tenant: TenantId, data: string)
    | Pod(name: string, labels: map<string, string>, image: string, tokenRef: SecretRef, claim: string, gvisor: bool)
    | Service(name: string, tenant: TenantId, selector: map<string, string>, port: nat)
    | Route(name: string, tenant: TenantId, hostname: string, backend: string, port: nat)

  function KindOf(m: Manifest): Kind {
    match m
    case Pvc(_, _, _) => PvcK
    case Secret(_, _, _) => SecretK
    case Pod(_, _, _, _, _, _) => PodK
    case Service(_, _, _, _) => ServiceK
    case Route(_, _, _, _, _) => RouteK
  }

  /** Where the API server files a manifest. */
  function KeyFor(m: Manifest): Key {
    Key(KindOf(m), m.name)
  }

  function Hostname(t: TenantId, domain: string): string {
    t + "." + domain
  }

  function BuildPvc(spec: TenantSpec): (m: Manifest)
    ensures m.Pvc? && KeyFor(m) == KeyOf(PvcK, spec.tenantId)
  {
    Pvc("tenant-" + spec.tenantId + "-data", spec.tenantId, spec.storageClass)
  }

  function BuildSecret(spec: TenantSpec): (m: Manifest)
    ensures m.Secret? && KeyFor(m) == KeyOf(SecretK, spec.tenantId)
    ensures Base64.Decode(m.data) == Some(spec.token)
  {
    Base64.DecodeEncode(spec.token);
    Secret("tenant-" + spec.tenantId + "-token", spec.tenantId, Base64.Encode(spec.token))
  }

  /** The Pod names the tenant's own Secret and claim. */
  function BuildPod(spec: TenantSpec): (m: Manifest)
    ensures m.Pod? && KeyFor(m) == KeyOf(PodK, spec.tenantId)
    ensures Key(SecretK, m.tokenRef.name) == KeyOf(SecretK, spec.tenantId) && m.tokenRef.key == "token"
    ensures Key(PvcK, m.claim) == KeyOf(PvcK, spec.tenantId)
    ensures TENANT_LABEL in m.labels && m.labels[TENANT_LABEL] == spec.tenantId
  {
    NoSuffix(spec.tenantId);
    Pod("tenant-" + spec.tenantId,
        map["app" := "houston-engine", "houston.ai/role" := "tenant-engine"][TENANT_LABEL := spec.tenantId],
        spec.image,
        SecretRef("tenant-" + spec.tenantId + "-token", "token"),
        "tenant-" + spec.tenantId + "-data",
        spec.gvisor)
  }

  function BuildService(spec: TenantSpec): (m: Manifest)
    ensures m.Service? && KeyFor(m) == KeyOf(ServiceK, spec.tenantId)
  {
    NoSuffix(spec.tenantId);
    Service("tenant-" + spec.tenantId, spec.tenantId, map[TENANT_LABEL := spec.tenantId], 7777)
  }

  function BuildRoute(spec: TenantSpec): (m: Manifest)
    requires spec.domain.Some?
    ensures m.Route? && KeyFor(m) == KeyOf(RouteK, spec.tenantId)
    ensures Key(ServiceK, m.backend) == KeyOf(ServiceK, spec.tenantId)
    ensures m.hostname == Hostname(spec.tenantId, spec.domain.value)
  {
    NoSuffix(spec.tenantId);
    Route("tenant-" + spec.tenantId, spec.tenantId, spec.tenantId + "." + spec.domain.value,
          "tenant-" + spec.tenantId, 7777)
  }

  function Build(kind: Kind, spec: TenantSpec): (m: Manifest)
    requires kind == RouteK ==> spec.domain.Some?
    ensures KeyFor(m) == KeyOf(kind, spec.tenantId)
  {
    match kind
    case PvcK => BuildPvc(spec)
    case SecretK => BuildSecret(spec)
    case PodK => BuildPod(spec)
    case ServiceK => BuildService(spec)
    case RouteK => BuildRoute(spec)
  }

  /** Whether provisioning creates an object of this kind. */
  predicate Needs(spec: TenantSpec, kind: Kind) {
    kind == RouteK ==> spec.domain.Some?
  }

  /** Label selection, as a Service applies it to Pods. */
  predicate Selects(selector: map<string, string>, labels: map<string, string>) {
    forall k :: k in selector ==> k in labels && labels[k] == selector[k]
  }
}
