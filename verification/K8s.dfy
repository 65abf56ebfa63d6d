/**
 * The cluster operations of one tenant, call by call. Each method promises what
 * it makes of the objects, and that it follows the handler's position in step:
 * running on from where it ends gives what running on from where it began gives.
 */
module K8s {
  import opened Types
  import opened Manifests
  import opened World
  import opened Handlers
  import opened Serial
  import opened Stores
  import opened RoundTrips
  import opened Lockstep

  ghost predicate AllClean(o: Oracle, from: nat, to: nat) {
    forall m :: from <= m < to ==> o(m).fate == Clean
  }

  /** One create call of a provisioning run that began with the objects start. */
  lemma Creates(spec: TenantSpec, kind: Kind, start: Objects, k: Kube, ch: Choice)
    requires Needs(spec, kind) && Between(spec, start, k.objs)
    ensures var (k', r) := KubeCall(k, Create(Build(kind, spec)), ch);
      && Between(spec, start, k'.objs)
      && (forall key :: key in k.objs ==> key in k'.objs)
      && (There(PartOf(r)) ==> KeyOf(kind, spec.tenantId) in k'.objs)
      && (PartOf(r) == Made ==> k'.objs != start)
      && (PartOf(r) == Existed ==> k'.objs == k.objs)
      && (ch.fate == Clean ==> There(PartOf(r)))
      && PartOf(r) in {Made, Existed, Broken}
  {
    DesiredHas(spec, kind);
    hide KeyOf, OwnerOf, Desired, Build;
    var k' := KubeCall(k, Create(Build(kind, spec)), ch).0;
    assert k'.objs == k.objs || k'.objs == k.objs[KeyOf(kind, spec.tenantId) := Build(kind, spec)];
  }

  /** The run began with the objects start and has the given kinds in place; made says whether it has added any. */
  ghost predicate InPlace(spec: TenantSpec, start: Objects, objs: Objects, kinds: set<Kind>, made: bool) {
    && Between(spec, start, objs)
    && (forall kind :: kind in kinds ==> KeyOf(kind, spec.tenantId) in objs)
    && (made <==> objs != start)
  }

  lemma PlaceOne(spec: TenantSpec, kind: Kind, start: Objects, k: Kube, ch: Choice, kinds: set<Kind>, made: bool)
    requires Needs(spec, kind) && InPlace(spec, start, k.objs, kinds, made)
    ensures var (k', r) := KubeCall(k, Create(Build(kind, spec)), ch);
      && Between(spec, start, k'.objs)
      && (There(PartOf(r)) ==> InPlace(spec, start, k'.objs, kinds + {kind}, made || PartOf(r) == Made))
      && (ch.fate == Clean ==> There(PartOf(r)))
      && PartOf(r) in {Made, Existed, Broken}
  {
    Creates(spec, kind, start, k, ch);
    hide KeyOf, Build, Between, KubeCall;
  }

  /** Two calls in flight at once: what is in place if neither has failed. */
  ghost predicate SoFar(spec: TenantSpec, start: Objects, objs: Objects, kinds: set<Kind>, made: bool,
                        a: Part, kindA: Kind, b: Part, kindB: Kind) {
    && Between(spec, start, objs)
    && (a != Broken && b != Broken ==>
          InPlace(spec, start, objs, kinds + (if There(a) then {kindA} else {}) + (if There(b) then {kindB} else {}),
                  made || a == Made || b == Made))
  }

  lemma FirstOfTwo(spec: TenantSpec, start: Objects, k: Kube, ch: Choice, kinds: set<Kind>, made: bool,
                   kindA: Kind, b: Part, kindB: Kind)
    requires Needs(spec, kindA) && SoFar(spec, start, k.objs, kinds, made, Todo, kindA, b, kindB)
    ensures var (k', r) := KubeCall(k, Create(Build(kindA, spec)), ch);
      && SoFar(spec, start, k'.objs, kinds, made, PartOf(r), kindA, b, kindB)
      && (ch.fate == Clean ==> PartOf(r) != Broken)
      && PartOf(r) in {Made, Existed, Broken}
  {
    hide KeyOf, Build, Between, KubeCall, InPlace;
    Creates(spec, kindA, start, k, ch);
    var done := kinds + (if There(b) then {kindB} else {});
    assert kinds + {} + (if There(b) then {kindB} else {}) == done;
    assert kinds + {kindA} + (if There(b) then {kindB} else {}) == done + {kindA};
    if b != Broken { PlaceOne(spec, kindA, start, k, ch, done, made || b == Made); }
  }

  lemma SecondOfTwo(spec: TenantSpec, start: Objects, k: Kube, ch: Choice, kinds: set<Kind>, made: bool,
                    a: Part, kindA: Kind, kindB: Kind)
    requires Needs(spec, kindB) && SoFar(spec, start, k.objs, kinds, made, a, kindA, Todo, kindB)
    ensures var (k', r) := KubeCall(k, Create(Build(kindB, spec)), ch);
      && SoFar(spec, start, k'.objs, kinds, made, a, kindA, PartOf(r), kindB)
      && (ch.fate == Clean ==> PartOf(r) != Broken)
      && PartOf(r) in {Made, Existed, Broken}
  {
    hide KeyOf, Build, Between, KubeCall, InPlace;
    Creates(spec, kindB, start, k, ch);
    var done := kinds + (if There(a) then {kindA} else {});
    assert done + {} == done;
    if a != Broken { PlaceOne(spec, kindB, start, k, ch, done, made || a == Made); }
  }

  /** Which of two calls goes next. */
  function Turn(branch: nat, a: Part, b: Part): nat {
    if a == Todo && !(branch == 1 && b == Todo) then 0 else 1
  }

  lemma StorageStep(cfg: Config, w: World, tn: Tenant, isNew: bool, pvc: Part, secret: Part, o: Oracle, n: nat)
    requires cfg.K8s() && (pvc == Todo || secret == Todo)
    ensures var spec, i := SpecOf(cfg, tn.tenantId, tn.token), Turn(o(n).branch, pvc, secret);
      var (k, r) := KubeCall(w.kube, Create(Build(if i == 0 then PvcK else SecretK, spec)), o(n));
      Drive(cfg, w, AfterProv(tn, isNew, JoinStorage(pvc, secret)), o, n)
      == Drive(cfg, w.(kube := k),
               AfterProv(tn, isNew, if i == 0 then JoinStorage(PartOf(r), secret) else JoinStorage(pvc, PartOf(r))),
               o, n + 1)
  {
    var spec, i := SpecOf(cfg, tn.tenantId, tn.token), Turn(o(n).branch, pvc, secret);
    var kind := if i == 0 then PvcK else SecretK;
    assert ProvCall(spec, Storage(pvc, secret), i) == Some(Create(Build(kind, spec)));
    assert Pick(cfg, Creating(tn, isNew, Storage(pvc, secret)), o(n).branch) == i;
    hide KeyOf, Build, BuildPvc, BuildSecret, Pick, ProvCall, KubeCall, Drive;
    FollowsProv(cfg, w, tn, isNew, Storage(pvc, secret), o, n, i, Create(Build(kind, spec)));
  }

  lemma NetworkStep(cfg: Config, w: World, tn: Tenant, isNew: bool, made: bool, service: Part, route: Part,
      o: Oracle, n: nat)
    requires cfg.K8s() && (service == Todo || route == Todo) && (route == Todo ==> cfg.domain.Some?)
    ensures var spec, i := SpecOf(cfg, tn.tenantId, tn.token), Turn(o(n).branch, service, route);
      var (k, r) := KubeCall(w.kube, Create(Build(if i == 0 then ServiceK else RouteK, spec)), o(n));
      Drive(cfg, w, AfterProv(tn, isNew, JoinNetwork(made, service, route)), o, n)
      == Drive(cfg, w.(kube := k),
               AfterProv(tn, isNew,
                         if i == 0 then JoinNetwork(made, PartOf(r), route) else JoinNetwork(made, service, PartOf(r))),
               o, n + 1)
  {
    var spec, i := SpecOf(cfg, tn.tenantId, tn.token), Turn(o(n).branch, service, route);
    var kind := if i == 0 then ServiceK else RouteK;
    assert ProvCall(spec, Network(made, service, route), i) == Some(Create(Build(kind, spec)));
    assert Pick(cfg, Creating(tn, isNew, Network(made, service, route)), o(n).branch) == i;
    hide KeyOf, Build, BuildService, BuildRoute, Pick, ProvCall, KubeCall, Drive;
    FollowsProv(cfg, w, tn, isNew, Network(made, service, route), o, n, i, Create(Build(kind, spec)));
  }

  /** The claim and the Secret, in either order. */
  method CreateStorage(st: AppState, spec: TenantSpec, ghost tn: Tenant, ghost isNew: bool)
      returns (pvc: Part, secret: Part)
    requires st.Valid() && st.cfg.K8s() && spec == SpecOf(st.cfg, tn.tenantId, tn.token)
    modifies st.cluster, st.net
    ensures old(st.net.n) < st.net.n && {pvc, secret} <= {Made, Existed, Broken}
    ensures Drive(st.cfg, st.W(), AfterProv(tn, isNew, JoinStorage(pvc, secret)), st.net.o, st.net.n)
         == Drive(st.cfg, old(st.W()), Creating(tn, isNew, Storage(Todo, Todo)), st.net.o, old(st.net.n))
    ensures SoFar(spec, old(st.cluster.objs), st.cluster.objs, {}, false, pvc, PvcK, secret, SecretK)
    ensures AllClean(st.net.o, old(st.net.n), st.net.n) ==> pvc != Broken && secret != Broken
  {
    hide Drive, KubeCall, KeyOf, Build, SoFar, AfterProv;
    ghost var cfg, o, w0, n0 := st.cfg, st.net.o, st.W(), st.net.n;
    ghost var start := st.cluster.objs;
    pvc, secret := Todo, Todo;
    assert SoFar(spec, start, start, {}, false, pvc, PvcK, secret, SecretK) by { NothingYet(spec, start); }
    AtStart(tn, isNew);
    while pvc == Todo || secret == Todo
      invariant n0 <= st.net.n && (st.net.n == n0 ==> pvc == Todo)
      invariant {pvc, secret} <= {Todo, Made, Existed, Broken}
      invariant Drive(cfg, st.W(), AfterProv(tn, isNew, JoinStorage(pvc, secret)), o, st.net.n)
             == Drive(cfg, w0, AfterProv(tn, isNew, JoinStorage(Todo, Todo)), o, n0)
      invariant SoFar(spec, start, st.cluster.objs, {}, false, pvc, PvcK, secret, SecretK)
      invariant AllClean(o, n0, st.net.n) ==> pvc != Broken && secret != Broken
      decreases (if pvc == Todo then 1 else 0) + (if secret == Todo then 1 else 0)
    {
      ghost var w, n := st.W(), st.net.n;
      StorageStep(cfg, w, tn, isNew, pvc, secret, o, n);
      if Turn(st.net.Branch(), pvc, secret) == 0 {
        FirstOfTwo(spec, start, w.kube, o(n), {}, false, PvcK, secret, SecretK);
        var r := st.cluster.Create(Build(PvcK, spec));
        pvc := PartOf(r);
      } else {
        SecondOfTwo(spec, start, w.kube, o(n), {}, false, pvc, PvcK, SecretK);
        var r := st.cluster.Create(Build(SecretK, spec));
        secret := PartOf(r);
      }
    }
  }

  lemma NothingYet(spec: TenantSpec, start: Objects)
    ensures SoFar(spec, start, start, {}, false, Todo, PvcK, Todo, SecretK)
  {
  }

  lemma AtStart(tn: Tenant, isNew: bool)
    ensures AfterProv(tn, isNew, JoinStorage(Todo, Todo)) == Creating(tn, isNew, Storage(Todo, Todo))
    ensures AfterProv(tn, isNew, Storage(Todo, Todo)) == Creating(tn, isNew, Storage(Todo, Todo))
  {
  }

  /** The Service and, with a gateway, the route, in either order. */
  method CreateNetwork(st: AppState, spec: TenantSpec, ghost tn: Tenant, ghost isNew: bool, ghost start: Objects,
      ghost made: bool)
      returns (service: Part, route: Part)
    requires st.Valid() && st.cfg.K8s() && spec == SpecOf(st.cfg, tn.tenantId, tn.token)
    requires InPlace(spec, start, st.cluster.objs, {PvcK, SecretK, PodK}, made)
    modifies st.cluster, st.net
    ensures old(st.net.n) < st.net.n && service in {Made, Existed, Broken}
    ensures if spec.domain.Some? then route in {Made, Existed, Broken} else route == Skipped
    ensures Drive(st.cfg, st.W(), AfterProv(tn, isNew, JoinNetwork(made, service, route)), st.net.o, st.net.n)
         == Drive(st.cfg, old(st.W()),
                  AfterProv(tn, isNew, JoinNetwork(made, Todo, if spec.domain.Some? then Todo else Skipped)),
                  st.net.o, old(st.net.n))
    ensures SoFar(spec, start, st.cluster.objs, {PvcK, SecretK, PodK}, made, service, ServiceK, route, RouteK)
    ensures AllClean(st.net.o, old(st.net.n), st.net.n) ==> service != Broken && route != Broken
  {
    hide Drive, KubeCall, KeyOf, Build, SoFar, AfterProv, InPlace;
    ghost var cfg, o, w0, n0 := st.cfg, st.net.o, st.W(), st.net.n;
    ghost var kinds := {PvcK, SecretK, PodK};
    service, route := Todo, if spec.domain.Some? then Todo else Skipped;
    assert SoFar(spec, start, st.cluster.objs, kinds, made, service, ServiceK, route, RouteK) by {
      NoneYet(spec, start, st.cluster.objs, kinds, made, route);
    }
    ghost var from := AfterProv(tn, isNew, JoinNetwork(made, service, route));
    while service == Todo || route == Todo
      invariant n0 <= st.net.n && (st.net.n == n0 ==> service == Todo)
      invariant service in {Todo, Made, Existed, Broken}
      invariant if spec.domain.Some? then route in {Todo, Made, Existed, Broken} else route == Skipped
      invariant Drive(cfg, st.W(), AfterProv(tn, isNew, JoinNetwork(made, service, route)), o, st.net.n)
             == Drive(cfg, w0, from, o, n0)
      invariant SoFar(spec, start, st.cluster.objs, kinds, made, service, ServiceK, route, RouteK)
      invariant AllClean(o, n0, st.net.n) ==> service != Broken && route != Broken
      decreases (if service == Todo then 1 else 0) + (if route == Todo then 1 else 0)
    {
      ghost var w, n := st.W(), st.net.n;
      NetworkStep(cfg, w, tn, isNew, made, service, route, o, n);
      if Turn(st.net.Branch(), service, route) == 0 {
        FirstOfTwo(spec, start, w.kube, o(n), kinds, made, ServiceK, route, RouteK);
        var r := st.cluster.Create(Build(ServiceK, spec));
        service := PartOf(r);
      } else {
        SecondOfTwo(spec, start, w.kube, o(n), kinds, made, service, ServiceK, RouteK);
        var r := st.cluster.Create(Build(RouteK, spec));
        route := PartOf(r);
      }
    }
  }

  lemma NoneYet(spec: TenantSpec, start: Objects, objs: Objects, kinds: set<Kind>, made: bool, route: Part)
    requires InPlace(spec, start, objs, kinds, made) && (route == Todo || route == Skipped)
    ensures SoFar(spec, start, objs, kinds, made, Todo, ServiceK, route, RouteK)
  {
    assert kinds + {} + {} == kinds;
  }

  // --- What the groups leave ---

  lemma StoragePlaced(spec: TenantSpec, start: Objects, objs: Objects, pvc: Part, secret: Part)
    requires SoFar(spec, start, objs, {}, false, pvc, PvcK, secret, SecretK)
    requires {pvc, secret} <= {Made, Existed, Broken}
    ensures Between(spec, start, objs)
    ensures pvc != Broken && secret != Broken ==>
              InPlace(spec, start, objs, {PvcK, SecretK}, pvc == Made || secret == Made)
  {
    hide InPlace, Between;
    assert {} + {PvcK} + {SecretK} == {PvcK, SecretK};
    if pvc != Broken && secret != Broken {
      assert There(pvc) && There(secret);
    }
  }

  lemma NetworkPlaced(spec: TenantSpec, start: Objects, objs: Objects, made: bool, service: Part, route: Part)
    requires SoFar(spec, start, objs, {PvcK, SecretK, PodK}, made, service, ServiceK, route, RouteK)
    requires service in {Made, Existed, Broken}
    requires if spec.domain.Some? then route in {Made, Existed, Broken} else route == Skipped
    ensures Between(spec, start, objs)
    ensures service != Broken && route != Broken ==>
              objs == Provisioned(spec, start) && (made || service == Made || route == Made <==> objs != start)
  {
    if service != Broken && route != Broken {
      forall kind | Needs(spec, kind)
        ensures KeyOf(kind, spec.tenantId) in objs
      {
      }
      AllThere(spec, start, objs);
    }
    hide KeyOf, Between, Provisioned;
  }

  lemma ClientStep(cfg: Config, w: World, tn: Tenant, isNew: bool, o: Oracle, n: nat, created: bool)
    requires cfg.K8s()
    ensures var (k, r) := KubeCall(w.kube, ClientInit, o(n));
      && k == w.kube
      && Drive(cfg, w, Creating(tn, isNew, Client), o, n)
         == Drive(cfg, w, AfterProv(tn, isNew, if r.Ok? then Storage(Todo, Todo) else Finished(false, created)),
                  o, n + 1)
  {
    FollowsProv(cfg, w, tn, isNew, Client, o, n, 0, ClientInit);
    hide Drive;
    assert w == w.(kube := w.kube);
  }

  lemma PodStep(cfg: Config, w: World, tn: Tenant, isNew: bool, made: bool, created: bool, o: Oracle, n: nat)
    requires cfg.K8s()
    ensures var spec := SpecOf(cfg, tn.tenantId, tn.token);
      var (k, r) := KubeCall(w.kube, Create(Build(PodK, spec)), o(n));
      Drive(cfg, w, AfterProv(tn, isNew, Compute(made)), o, n)
      == Drive(cfg, w.(kube := k),
               AfterProv(tn, isNew,
                         if PartOf(r) == Broken then Finished(false, created)
                         else
                           JoinNetwork(made || PartOf(r) == Made, Todo, if spec.domain.Some? then Todo else Skipped)),
               o, n + 1)
  {
    var spec := SpecOf(cfg, tn.tenantId, tn.token);
    assert ProvCall(spec, Compute(made), 0) == Some(Create(Build(PodK, spec)));
    assert Pick(cfg, Creating(tn, isNew, Compute(made)), o(n).branch) == 0;
    hide KeyOf, Build, BuildPod, Pick, ProvCall, KubeCall, Drive;
    FollowsProv(cfg, w, tn, isNew, Compute(made), o, n, 0, Create(Build(PodK, spec)));
  }

  /** How a group that has come back goes on. */
  lemma GroupsEnd(tn: Tenant, isNew: bool, a: Part, b: Part, made: bool, created: bool)
    requires a in {Made, Existed, Broken} && b in {Made, Existed, Broken, Skipped}
    ensures AfterProv(tn, isNew, JoinStorage(a, b))
         == AfterProv(tn, isNew,
                      if a == Broken || b == Broken then Finished(false, created) else Compute(a == Made || b == Made))
    ensures var ok := a != Broken && b != Broken;
      AfterProv(tn, isNew, JoinNetwork(made, a, b)) == AfterProv(tn, isNew, Finished(ok, created))
  {
  }

  /** provision_tenant: the storage, then the Pod, then the network objects; objects that exist already are kept. */
  method ProvisionTenant(st: AppState, spec: TenantSpec, ghost tn: Tenant, ghost isNew: bool)
      returns (ok: bool, created: bool)
    requires st.Valid() && st.cfg.K8s() && spec == SpecOf(st.cfg, tn.tenantId, tn.token)
    modifies st.cluster, st.net
    ensures old(st.net.n) < st.net.n
    ensures Drive(st.cfg, st.W(), AfterProv(tn, isNew, Finished(ok, created)), st.net.o, st.net.n)
         == Drive(st.cfg, old(st.W()), Creating(tn, isNew, Client), st.net.o, old(st.net.n))
    ensures Between(spec, old(st.cluster.objs), st.cluster.objs)
    ensures ok ==> st.cluster.objs == Provisioned(spec, old(st.cluster.objs))
    ensures ok ==> (created <==> st.cluster.objs != old(st.cluster.objs))
    ensures AllClean(st.net.o, old(st.net.n), st.net.n) ==> ok
  {
    hide Drive, KubeCall, KeyOf, Build, SoFar, AfterProv, Between, Provisioned, JoinStorage, JoinNetwork, InPlace;
    ghost var cfg, o, w0, n0 := st.cfg, st.net.o, st.W(), st.net.n;
    ghost var start := st.cluster.objs;
    assert Between(spec, start, start) by { SameBetween(spec, start); }
    created := false;
    ClientStep(cfg, w0, tn, isNew, o, n0, created);
    var r := st.cluster.Init();
    if !r.Ok? {
      assert o(n0).fate != Clean by { InitFails(w0.kube, o(n0)); }
      return false, created;
    }
    AtStart(tn, isNew);

    var pvc, secret := CreateStorage(st, spec, tn, isNew);
    StoragePlaced(spec, start, st.cluster.objs, pvc, secret);
    GroupsEnd(tn, isNew, pvc, secret, false, created);
    if pvc == Broken || secret == Broken {
      return false, created;
    }
    created := pvc == Made || secret == Made;

    PodStep(cfg, st.W(), tn, isNew, created, created, o, st.net.n);
    PlaceOne(spec, PodK, start, st.cluster.State(), o(st.net.n), {PvcK, SecretK}, created);
    r := st.cluster.Create(Build(PodK, spec));
    if PartOf(r) == Broken {
      return false, created;
    }
    created := created || PartOf(r) == Made;

    assert {PvcK, SecretK} + {PodK} == {PvcK, SecretK, PodK};
    var service, route := CreateNetwork(st, spec, tn, isNew, start, created);
    NetworkPlaced(spec, start, st.cluster.objs, created, service, route);
    ok := service != Broken && route != Broken;
    GroupsEnd(tn, isNew, service, route, created, created || service == Made || route == Made);
    created := created || service == Made || route == Made;
  }

  lemma SameBetween(spec: TenantSpec, start: Objects)
    ensures Between(spec, start, start)
  {
  }

  lemma InitFails(k: Kube, ch: Choice)
    ensures !KubeCall(k, ClientInit, ch).1.Ok? ==> ch.fate != Clean
  {
  }

  // --- Deprovisioning ---

  /** From start, only objects of this tenant have been removed. */
  ghost predicate Trimmed(t: TenantId, start: Objects, objs: Objects) {
    && (forall key :: key in objs ==> key in start && objs[key] == start[key])
    && (forall key :: key in start && key !in objs ==> key in TenantKeys(t))
  }

  predicate Gone(t: TenantId, objs: Objects, kinds: set<Kind>) {
    forall kind :: kind in kinds ==> KeyOf(kind, t) !in objs
  }

  lemma Deletes(t: TenantId, kind: Kind, start: Objects, k: Kube, ch: Choice, kinds: set<Kind>)
    requires Trimmed(t, start, k.objs)
    ensures var (k', r) := KubeCall(k, Delete(KeyOf(kind, t)), ch);
      && Trimmed(t, start, k'.objs)
      && (Gone(t, k.objs, kinds) && ch.fate == Clean ==> Gone(t, k'.objs, kinds + {kind}))
  {
    hide KeyOf, OwnerOf;
  }

  lemma AllGone(t: TenantId, start: Objects, objs: Objects)
    requires Trimmed(t, start, objs) && Gone(t, objs, {RouteK, ServiceK, PodK, SecretK, PvcK})
    ensures objs == Deprovisioned(t, start)
  {
    hide KeyOf, OwnerOf;
    forall key | key in TenantKeys(t)
      ensures key !in objs
    {
      var kind: Kind :| key == KeyOf(kind, t);
    }
  }

  function FrontTurn(branch: nat, route: bool, service: bool, pod: bool): nat {
    if (branch == 0 && route) || (branch == 1 && service) || (branch == 2 && pod) then branch
    else if route then 0
    else if service then 1
    else 2
  }

  function FrontKind(i: nat): Kind { if i == 0 then RouteK else if i == 1 then ServiceK else PodK }

  function BackKind(i: nat): Kind { if i == 0 then SecretK else PvcK }

  lemma FrontStep(cfg: Config, w: World, tn: Tenant, route: bool, service: bool, pod: bool, o: Oracle, n: nat)
    requires route || service || pod
    ensures var i := FrontTurn(o(n).branch, route, service, pod);
      var (k, r) := KubeCall(w.kube, Delete(KeyOf(FrontKind(i), tn.tenantId)), o(n));
      Drive(cfg, w, AfterFront(tn, route, service, pod), o, n)
      == Drive(cfg, w.(kube := k), AfterFront(tn, route && i != 0, service && i != 1, pod && i != 2), o, n + 1)
  {
    var i := FrontTurn(o(n).branch, route, service, pod);
    var p, c := DeleteFront(tn, route, service, pod), Delete(KeyOf(FrontKind(i), tn.tenantId));
    assert CallAt(cfg, p, i) == Some(c);
    assert Pick(cfg, p, o(n).branch) == i;
    hide KeyOf, Pick, KubeCall, Drive, CallAt;
    Follows(cfg, w, p, o, n, i, c);
  }

  lemma BackStep(cfg: Config, w: World, tn: Tenant, secret: bool, pvc: bool, o: Oracle, n: nat)
    requires secret || pvc
    ensures var i := if secret && !(o(n).branch == 1 && pvc) then 0 else 1;
      var (k, r) := KubeCall(w.kube, Delete(KeyOf(BackKind(i), tn.tenantId)), o(n));
      Drive(cfg, w, AfterBack(tn, secret, pvc), o, n)
      == Drive(cfg, w.(kube := k), AfterBack(tn, secret && i != 0, pvc && i != 1), o, n + 1)
  {
    var i := if secret && !(o(n).branch == 1 && pvc) then 0 else 1;
    var p, c := DeleteBack(tn, secret, pvc), Delete(KeyOf(BackKind(i), tn.tenantId));
    assert CallAt(cfg, p, i) == Some(c);
    assert Pick(cfg, p, o(n).branch) == i;
    hide KeyOf, Pick, KubeCall, Drive, CallAt;
    Follows(cfg, w, p, o, n, i, c);
  }

  /** Route, Service and Pod, in any order; errors are ignored. */
  method DeleteFrontObjects(st: AppState, t: TenantId, ghost tn: Tenant)
    requires st.Valid() && t == tn.tenantId
    modifies st.cluster, st.net
    ensures old(st.net.n) <= st.net.n
    ensures Drive(st.cfg, st.W(), DeleteBack(tn, true, true), st.net.o, st.net.n)
         == Drive(st.cfg, old(st.W()), DeleteFront(tn, true, true, true), st.net.o, old(st.net.n))
    ensures Trimmed(t, old(st.cluster.objs), st.cluster.objs)
    ensures AllClean(st.net.o, old(st.net.n), st.net.n) ==> Gone(t, st.cluster.objs, {RouteK, ServiceK, PodK})
  {
    hide Drive, KubeCall, KeyOf, AfterFront, Trimmed, Gone;
    ghost var cfg, o, w0, n0 := st.cfg, st.net.o, st.W(), st.net.n;
    ghost var start := st.cluster.objs;
    ghost var gone: set<Kind> := {};
    var route, service, pod := true, true, true;
    assert Trimmed(t, start, start) && Gone(t, start, gone) by { Untrimmed(t, start); }
    while route || service || pod
      invariant n0 <= st.net.n
      invariant Drive(cfg, st.W(), AfterFront(tn, route, service, pod), o, st.net.n)
             == Drive(cfg, w0, AfterFront(tn, true, true, true), o, n0)
      invariant Trimmed(t, start, st.cluster.objs)
      invariant RouteK in gone <==> !route
      invariant ServiceK in gone <==> !service
      invariant PodK in gone <==> !pod
      invariant gone <= {RouteK, ServiceK, PodK}
      invariant AllClean(o, n0, st.net.n) ==> Gone(t, st.cluster.objs, gone)
      decreases (if route then 1 else 0) + (if service then 1 else 0) + (if pod then 1 else 0)
    {
      FrontStep(cfg, st.W(), tn, route, service, pod, o, st.net.n);
      var i := FrontTurn(st.net.Branch(), route, service, pod);
      Deletes(t, FrontKind(i), start, st.cluster.State(), o(st.net.n), gone);
      var _ := st.cluster.Delete(KeyOf(FrontKind(i), t));
      gone := gone + {FrontKind(i)};
      route, service, pod := route && i != 0, service && i != 1, pod && i != 2;
    }
    assert gone == {RouteK, ServiceK, PodK};
    FrontEnds(tn);
  }

  lemma Untrimmed(t: TenantId, start: Objects)
    ensures Trimmed(t, start, start) && Gone(t, start, {})
  {
  }

  lemma FrontEnds(tn: Tenant)
    ensures AfterFront(tn, true, true, true) == DeleteFront(tn, true, true, true)
    ensures AfterFront(tn, false, false, false) == DeleteBack(tn, true, true) == AfterBack(tn, true, true)
    ensures AfterBack(tn, false, false) == DeleteLast(tn)
  {
  }

  /** Secret and claim, in either order; errors are ignored. */
  method DeleteBackObjects(st: AppState, t: TenantId, ghost tn: Tenant, ghost start: Objects)
    requires st.Valid() && t == tn.tenantId && Trimmed(t, start, st.cluster.objs)
    modifies st.cluster, st.net
    ensures old(st.net.n) <= st.net.n
    ensures Drive(st.cfg, st.W(), DeleteLast(tn), st.net.o, st.net.n)
         == Drive(st.cfg, old(st.W()), DeleteBack(tn, true, true), st.net.o, old(st.net.n))
    ensures Trimmed(t, start, st.cluster.objs)
    ensures AllClean(st.net.o, old(st.net.n), st.net.n) && Gone(t, old(st.cluster.objs), {RouteK, ServiceK, PodK}) ==>
              Gone(t, st.cluster.objs, {RouteK, ServiceK, PodK, SecretK, PvcK})
  {
    hide Drive, KubeCall, KeyOf, AfterBack, Trimmed, Gone;
    ghost var cfg, o, w0, n0 := st.cfg, st.net.o, st.W(), st.net.n;
    ghost var front := st.cluster.objs;
    ghost var gone: set<Kind> := {RouteK, ServiceK, PodK};
    var secret, pvc := true, true;
    while secret || pvc
      invariant n0 <= st.net.n
      invariant Drive(cfg, st.W(), AfterBack(tn, secret, pvc), o, st.net.n)
             == Drive(cfg, w0, AfterBack(tn, true, true), o, n0)
      invariant Trimmed(t, start, st.cluster.objs)
      invariant gone == {RouteK, ServiceK, PodK} + (if secret then {} else {SecretK}) + (if pvc then {} else {PvcK})
      invariant AllClean(o, n0, st.net.n) && Gone(t, front, {RouteK, ServiceK, PodK}) ==> Gone(t, st.cluster.objs, gone)
      decreases (if secret then 1 else 0) + (if pvc then 1 else 0)
    {
      BackStep(cfg, st.W(), tn, secret, pvc, o, st.net.n);
      var i := if secret && !(st.net.Branch() == 1 && pvc) then 0 else 1;
      Deletes(t, BackKind(i), start, st.cluster.State(), o(st.net.n), gone);
      var _ := st.cluster.Delete(KeyOf(BackKind(i), t));
      gone := gone + {BackKind(i)};
      secret, pvc := secret && i != 0, pvc && i != 1;
    }
    assert gone == {RouteK, ServiceK, PodK, SecretK, PvcK};
    FrontEnds(tn);
  }

  lemma DeleteClientStep(cfg: Config, w: World, tn: Tenant, o: Oracle, n: nat)
    ensures var (k, r) := KubeCall(w.kube, ClientInit, o(n));
      && k == w.kube
      && Drive(cfg, w, DeleteClient(tn), o, n)
         == Drive(cfg, w, if r.Ok? then DeleteFront(tn, true, true, true) else INTERNAL_ERROR, o, n + 1)
  {
    FollowsOnly(cfg, w, DeleteClient(tn), o, n, ClientInit);
    hide Drive;
    assert w == w.(kube := w.kube);
  }

  /** deprovision_tenant: it fails only when the client does; errors of the deletes are ignored. */
  method DeprovisionTenant(st: AppState, t: TenantId, ghost tn: Tenant) returns (ok: bool)
    requires st.Valid() && t == tn.tenantId
    modifies st.cluster, st.net
    ensures Drive(st.cfg, st.W(), if ok then DeleteLast(tn) else INTERNAL_ERROR, st.net.o, st.net.n)
         == Drive(st.cfg, old(st.W()), DeleteClient(tn), st.net.o, old(st.net.n))
    ensures old(st.net.n) < st.net.n
    ensures ok <==> st.net.o(old(st.net.n)).fate == Clean
    ensures Trimmed(t, old(st.cluster.objs), st.cluster.objs)
    ensures AllClean(st.net.o, old(st.net.n), st.net.n) && ok ==>
              st.cluster.objs == Deprovisioned(t, old(st.cluster.objs))
  {
    hide Drive, KeyOf, Trimmed, Gone, Deprovisioned;
    ghost var start := st.cluster.objs;
    assert Trimmed(t, start, start) by { Untrimmed(t, start); }
    DeleteClientStep(st.cfg, st.W(), tn, st.net.o, st.net.n);
    var r := st.cluster.Init();
    ok := r.Ok?;
    if ok {
      hide KubeCall;
      DeleteFrontObjects(st, t, tn);
      DeleteBackObjects(st, t, tn, start);
      if Gone(t, st.cluster.objs, {RouteK, ServiceK, PodK, SecretK, PvcK}) {
        AllGone(t, start, st.cluster.objs);
      }
    }
  }

  // --- Pods ---

  /** suspend_tenant: delete only the Pod; an absent Pod is an error. */
  method SuspendTenant(st: AppState, t: TenantId) returns (ok: bool)
    requires st.Valid()
    modifies st.cluster, st.net
    ensures st.net.n == old(st.net.n) + 1
    ensures var (k, r) := KubeCall(old(st.cluster.State()), Delete(KeyOf(PodK, t)), st.net.o(old(st.net.n)));
      st.cluster.State() == k && (ok <==> r.Ok?)
    ensures ok ==> KeyOf(PodK, t) in old(st.cluster.objs)
    ensures st.cluster.objs == old(st.cluster.objs) || st.cluster.objs == Stopped(t, old(st.cluster.objs))
    ensures ok ==> st.cluster.objs == Stopped(t, old(st.cluster.objs))
    ensures st.net.o(old(st.net.n)).fate == Clean ==> (ok <==> KeyOf(PodK, t) in old(st.cluster.objs))
  {
    hide KeyOf;
    var r := st.cluster.Delete(KeyOf(PodK, t));
    ok := r.Ok?;
  }

  /** wake_tenant: create only the Pod; unlike provisioning, a Pod that exists is an error. */
  method WakeTenant(st: AppState, spec: TenantSpec) returns (ok: bool)
    requires st.Valid()
    modifies st.cluster, st.net
    ensures st.net.n == old(st.net.n) + 1
    ensures var (k, r) := KubeCall(old(st.cluster.State()), Create(BuildPod(spec)), st.net.o(old(st.net.n)));
      st.cluster.State() == k && (ok <==> r.Ok?)
    ensures ok ==> KeyOf(PodK, spec.tenantId) !in old(st.cluster.objs)
    ensures st.cluster.objs == old(st.cluster.objs) || st.cluster.objs == Woken(spec, old(st.cluster.objs))
    ensures ok ==> st.cluster.objs == Woken(spec, old(st.cluster.objs))
    ensures st.net.o(old(st.net.n)).fate == Clean ==> (ok <==> KeyOf(PodK, spec.tenantId) !in old(st.cluster.objs))
  {
    hide KeyOf, BuildPod;
    var r := st.cluster.Create(BuildPod(spec));
    ok := r.Ok?;
  }

  /** pod_exists: None stands for an error. */
  method PodExists(st: AppState, t: TenantId) returns (found: Option<bool>)
    requires st.Valid()
    modifies st.net
    ensures st.net.n == old(st.net.n) + 1
    ensures found == if st.net.o(old(st.net.n)).fate == Clean then Some(KeyOf(PodK, t) in st.cluster.objs) else None
  {
    hide KeyOf;
    var r := st.cluster.GetPod(t);
    found := if r.Answer? then Some(r.yes) else None;
  }
}
