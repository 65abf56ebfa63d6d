/**
 * The order of a provisioning run, whatever others do between its calls, and what a
 * session makes of a run that fails.
 */
module ProvisionOrder {
  import opened Types
  import opened Manifests
  import opened World
  import opened Handlers
  import opened Agreement
  import opened Serial
  import opened Views
  import opened Lockstep
  import opened Convergence
  import Limits

  /** The j-th step of the run has put an object of this kind in place, or found it. */
  predicate PlacedAt(spec: TenantSpec, steps: seq<RunStep>, j: nat, kind: Kind)
    requires j < |steps|
  {
    var c := ProvCall(spec, RunFrom(spec, Client, steps[..j]), steps[j].branch);
    && c.Some? && c.value.Create? && KindOf(c.value.manifest) == kind
    && There(PartOf(KubeCall(steps[j].kube, c.value, steps[j].choice).1))
  }

  ghost predicate PlacedBy(spec: TenantSpec, steps: seq<RunStep>, kind: Kind) {
    exists j :: 0 <= j < |steps| && PlacedAt(spec, steps, j, kind)
  }

  /** What a position of the run says about its steps so far. */
  ghost predicate Ordered(spec: TenantSpec, steps: seq<RunStep>, pv: Prov) {
    match pv
    case Client => true
    case Storage(pvc, secret) =>
      && pvc != Skipped && secret != Skipped
      && (There(pvc) ==> PlacedBy(spec, steps, PvcK)) && (There(secret) ==> PlacedBy(spec, steps, SecretK))
    case Compute(_) => PlacedBy(spec, steps, PvcK) && PlacedBy(spec, steps, SecretK)
    case Network(_, service, route) =>
      && PlacedBy(spec, steps, PvcK) && PlacedBy(spec, steps, SecretK) && PlacedBy(spec, steps, PodK)
      && service != Skipped && (route == Skipped <==> spec.domain.None?)
      && (There(service) ==> PlacedBy(spec, steps, ServiceK)) && (There(route) ==> PlacedBy(spec, steps, RouteK))
    case Finished(ok, _) => ok ==> forall kind: Kind :: Needs(spec, kind) ==> PlacedBy(spec, steps, kind)
  }

  lemma PlacedLater(spec: TenantSpec, steps: seq<RunStep>, n: nat, kind: Kind)
    requires n <= |steps| && PlacedBy(spec, steps[..n], kind)
    ensures PlacedBy(spec, steps, kind)
  {
    var j :| 0 <= j < n && PlacedAt(spec, steps[..n], j, kind);
    assert steps[..n][..j] == steps[..j];
    assert PlacedAt(spec, steps, j, kind);
  }

  lemma CreateKind(spec: TenantSpec, pv: Prov, i: nat)
    requires ProvCall(spec, pv, i).Some?
    ensures var c := ProvCall(spec, pv, i).value;
      if pv.Client? then c == ClientInit else c.Create? && KindOf(c.manifest) == StepKind(pv, i)
  {
    hide KeyOf;
  }

  lemma OrderedStep(spec: TenantSpec, before: seq<RunStep>, steps: seq<RunStep>, pv: Prov, i: nat, r: Reply)
    requires Ordered(spec, before, pv) && ProvCall(spec, pv, i).Some?
    requires forall kind: Kind :: PlacedBy(spec, before, kind) ==> PlacedBy(spec, steps, kind)
    requires !pv.Client? && There(PartOf(r)) ==> PlacedBy(spec, steps, StepKind(pv, i))
    ensures Ordered(spec, steps, ProvResume(spec, pv, i, r))
  {
    hide KeyOf, PlacedBy, BuildPvc, BuildSecret, BuildPod, BuildService, BuildRoute;
  }

  lemma {:induction false} RunIsOrdered(spec: TenantSpec, steps: seq<RunStep>)
    ensures Ordered(spec, steps, RunFrom(spec, Client, steps))
  {
    if steps != [] {
      var n := |steps| - 1;
      var before, last := steps[..n], steps[n];
      RunIsOrdered(spec, before);
      var pv := RunFrom(spec, Client, before);
      hide ProvCall, ProvResume, KubeCall, StepKind, Ordered;
      forall kind: Kind | PlacedBy(spec, before, kind)
        ensures PlacedBy(spec, steps, kind)
      {
        PlacedLater(spec, steps, n, kind);
      }
      if ProvCall(spec, pv, last.branch).Some? {
        var c := ProvCall(spec, pv, last.branch).value;
        CreateKind(spec, pv, last.branch);
        var r := KubeCall(last.kube, c, last.choice).1;
        if !pv.Client? && There(PartOf(r)) {
          assert PlacedAt(spec, steps, n, StepKind(pv, last.branch));
        }
        OrderedStep(spec, before, steps, pv, last.branch, r);
      } else {
        SameOrdered(spec, before, steps, pv);
      }
    }
  }

  lemma SameOrdered(spec: TenantSpec, before: seq<RunStep>, steps: seq<RunStep>, pv: Prov)
    requires Ordered(spec, before, pv)
    requires forall kind: Kind :: PlacedBy(spec, before, kind) ==> PlacedBy(spec, steps, kind)
    ensures Ordered(spec, steps, pv)
  {
    hide PlacedBy;
  }

  /**
   * Whatever others do in between: a run makes the Pod only after it has itself made
   * or found the claim and the Secret; the Service and the route only after the Pod
   * too; and it succeeds only after every object of the spec.
   */
  lemma ProvisioningIsOrdered(spec: TenantSpec, steps: seq<RunStep>, i: nat)
    ensures var pv := RunFrom(spec, Client, steps); var c := ProvCall(spec, pv, i);
      && (c.Some? && c.value.Create? && c.value.manifest.Pod? ==>
            PlacedBy(spec, steps, PvcK) && PlacedBy(spec, steps, SecretK))
      && (c.Some? && c.value.Create? && (c.value.manifest.Service? || c.value.manifest.Route?) ==>
            PlacedBy(spec, steps, PvcK) && PlacedBy(spec, steps, SecretK) && PlacedBy(spec, steps, PodK))
      && (pv.Finished? && pv.ok ==> forall kind: Kind :: Needs(spec, kind) ==> PlacedBy(spec, steps, kind))
  {
    RunIsOrdered(spec, steps);
    hide RunFrom, PlacedBy, KeyOf;
  }

  // --- A run that fails ---

  /** Some call of the run has failed, and the other of its group is still on its way. */
  predicate Failing(cfg: Config, pv: Prov) {
    match pv
    case Storage(pvc, secret) => (pvc == Broken && secret == Todo) || (pvc == Todo && secret == Broken)
    case Network(_, service, route) => (service == Broken && route == Todo && cfg.domain.Some?)
        || (service == Todo && route == Broken)
    case _ => false
  }

  predicate Fails(cfg: Config, p: Proc, tn: Tenant) {
    p == ErrorMark(tn) || (p.Creating? && p.tn == tn && Failing(cfg, p.prov))
  }

  /** How a failed run ends. */
  predicate MarkedError(w: World, p: Proc, n: nat, o: Oracle, tn: Tenant) {
    p == Done(Fault(500)) && n > 0 && RowIs(w, if o(n - 1).fate != Before then tn.(status := Error) else tn)
  }

  lemma FailingStep(cfg: Config, w: World, p: Proc, ch: Choice, tn: Tenant)
    requires cfg.K8s() && RowIs(w, tn) && p.Creating? && Fails(cfg, p, tn) && CallAt(cfg, p, ch.branch).Some?
    ensures var (w', next) := Advance(cfg, w, p, ch); next == ErrorMark(tn) && RowIs(w', tn)
  {
    OnlyKubeCalls(SpecOf(cfg, tn.tenantId, tn.token), p.prov, ch.branch);
    hide KeyOf, KubeCall, BuildPvc, BuildSecret, BuildPod, BuildService, BuildRoute;
  }

  lemma ErrorStep(cfg: Config, w: World, tn: Tenant, o: Oracle, n: nat)
    requires RowIs(w, tn)
    ensures var (w', p, n') := Drive(cfg, w, ErrorMark(tn), o, n); n' == n + 1 && MarkedError(w', p, n', o, tn)
  {
    hide Drive, StoreCall;
    FollowsStore(cfg, w, ErrorMark(tn), o, n, UpdateStatus(tn.tenantId, Error));
    Limits.Marks(w.db, tn.tenantId, Error, o(n));
    var w1 := w.(db := StoreCall(w.db, UpdateStatus(tn.tenantId, Error), o(n)).0);
    Ends(cfg, w1, INTERNAL_ERROR, o, n + 1);
  }

  lemma FailingRuns(cfg: Config, w: World, p: Proc, o: Oracle, n: nat, tn: Tenant)
    requires cfg.K8s() && RowIs(w, tn) && Fails(cfg, p, tn)
    ensures var (w', q, n') := Drive(cfg, w, p, o, n); n < n' && MarkedError(w', q, n', o, tn)
  {
    if p.Creating? {
      assert Active(cfg, p) && !Ended(p) by { FailingIsActive(cfg, p, tn); }
      hide Drive, Advance, CallAt, Active, Fails, MarkedError, SomeBranch, RowIs;
      ActiveHasCall(cfg, p);
      DriveStep(cfg, w, p, o, n);
      FailingStep(cfg, w, p, ChoiceFor(cfg, p, o, n), tn);
      ErrorStep(cfg, Advance(cfg, w, p, ChoiceFor(cfg, p, o, n)).0, tn, o, n + 1);
    } else {
      ErrorStep(cfg, w, tn, o, n);
    }
  }

  lemma FailingIsActive(cfg: Config, p: Proc, tn: Tenant)
    requires cfg.K8s() && p.Creating? && Fails(cfg, p, tn)
    ensures Active(cfg, p) && !Ended(p)
  {
  }

  lemma GoingBreaks(cfg: Config, spec: TenantSpec, pv: Prov, i: nat)
    requires Going(cfg, pv) && spec.domain == cfg.domain && ProvCall(spec, pv, i).Some?
    ensures var pv' := ProvResume(spec, pv, i, Failed); (pv'.Finished? && !pv'.ok) || Failing(cfg, pv')
  {
    hide KeyOf, BuildPvc, BuildSecret, BuildPod, BuildService, BuildRoute;
  }

  lemma LostFails(k: Kube, c: Call, ch: Choice)
    requires (c.ClientInit? || c.Create?) && ch.fate != Clean
    ensures KubeCall(k, c, ch).1 == Failed
  {
  }

  lemma CleanGoes(k: Kube, c: Call, ch: Choice)
    requires (c.ClientInit? || c.Create?) && ch.fate == Clean
    ensures var r := KubeCall(k, c, ch).1; r.Ok? || (c.Create? && r.AlreadyExists?)
  {
  }

  lemma GoingIsActive(cfg: Config, tn: Tenant, isNew: bool, pv: Prov)
    requires cfg.K8s() && Going(cfg, pv) && (pv.Storage? ==> pv.pvc == Todo || pv.secret == Todo)
    requires pv.Network? ==> pv.service == Todo || pv.route == Todo
    ensures Active(cfg, Creating(tn, isNew, pv)) && !Ended(Creating(tn, isNew, pv))
  {
  }

  /** Whether the run still has a call to make. */
  predicate Open(pv: Prov) {
    && (pv.Storage? ==> pv.pvc == Todo || pv.secret == Todo)
    && (pv.Network? ==> pv.service == Todo || pv.route == Todo)
  }

  lemma StaysOpen(cfg: Config, spec: TenantSpec, pv: Prov, i: nat, r: Reply)
    requires Going(cfg, pv) && spec.domain == cfg.domain && ProvCall(spec, pv, i).Some?
    ensures Open(ProvResume(spec, pv, i, r))
  {
    hide KeyOf, BuildPvc, BuildSecret, BuildPod, BuildService, BuildRoute;
  }

  ghost predicate SomeLost(o: Oracle, n: nat, m: nat) { exists k :: n <= k < m && o(k).fate != Clean }

  /** One call of a run that is going well. */
  lemma GoingStep(cfg: Config, w: World, tn: Tenant, isNew: bool, pv: Prov, ch: Choice)
    requires cfg.K8s() && RowIs(w, tn) && Going(cfg, pv) && CallAt(cfg, Creating(tn, isNew, pv), ch.branch).Some?
    ensures var (w', next) := Advance(cfg, w, Creating(tn, isNew, pv), ch);
      && RowIs(w', tn)
      && (if ch.fate != Clean then Fails(cfg, next, tn)
          else
            || Taken(pv) + 1 == RunLength(cfg)
            || (&& next.Creating? && next.tn == tn && next.isNew == isNew && Going(cfg, next.prov) && Open(next.prov)
                && Taken(next.prov) == Taken(pv) + 1))
  {
    var spec := SpecOf(cfg, tn.tenantId, tn.token);
    var c := ProvCall(spec, pv, ch.branch).value;
    OnlyKubeCalls(spec, pv, ch.branch);
    ProvCallKind(spec, pv, ch.branch);
    var r := KubeCall(w.kube, c, ch).1;
    StaysOpen(cfg, spec, pv, ch.branch, r);
    if ch.fate == Clean {
      CleanGoes(w.kube, c, ch);
      ProvNext(cfg, spec, pv, ch.branch, r);
    } else {
      LostFails(w.kube, c, ch);
      GoingBreaks(cfg, spec, pv, ch.branch);
    }
    hide KeyOf, KubeCall, ProvCall, ProvResume, Going, Taken, RunLength, Failing, Open, StepKind, Placed, Full;
  }

  lemma RunMoves(cfg: Config, w: World, p: Proc, o: Oracle, n: nat)
    requires Active(cfg, p) && !Ended(p)
    ensures var ch := ChoiceFor(cfg, p, o, n);
      && CallAt(cfg, p, ch.branch).Some? && ch.fate == o(n).fate
      && var (w', next) := Advance(cfg, w, p, ch); Drive(cfg, w, p, o, n) == Drive(cfg, w', next, o, n + 1)
  {
    hide Drive, Advance, CallAt, Active, SomeBranch;
    ActiveHasCall(cfg, p);
    DriveStep(cfg, w, p, o, n);
  }

  lemma LostLater(o: Oracle, n: nat, m: nat)
    requires SomeLost(o, n, m) && o(n).fate == Clean
    ensures n + 1 < m && SomeLost(o, n + 1, m)
  {
  }

  lemma {:induction false} GoingRuns(cfg: Config, w: World, tn: Tenant, isNew: bool, pv: Prov, o: Oracle, n: nat)
    requires cfg.K8s() && RowIs(w, tn) && Going(cfg, pv) && Open(pv) && Taken(pv) < RunLength(cfg)
    requires SomeLost(o, n, n + RunLength(cfg) - Taken(pv))
    ensures var (w', q, n') := Drive(cfg, w, Creating(tn, isNew, pv), o, n); n < n' && MarkedError(w', q, n', o, tn)
    decreases RunLength(cfg) - Taken(pv)
  {
    var p := Creating(tn, isNew, pv);
    GoingIsActive(cfg, tn, isNew, pv);
    hide Drive, Advance, CallAt, Active, Fails, MarkedError, SomeBranch, RowIs, Going, Open, Taken, RunLength, SomeLost;
    RunMoves(cfg, w, p, o, n);
    var ch := ChoiceFor(cfg, p, o, n);
    GoingStep(cfg, w, tn, isNew, pv, ch);
    var (w1, next) := Advance(cfg, w, p, ch);
    if o(n).fate != Clean {
      FailingRuns(cfg, w1, next, o, n + 1, tn);
    } else {
      LostLater(o, n, n + RunLength(cfg) - Taken(pv));
      GoingRuns(cfg, w1, tn, isNew, next.prov, o, n + 1);
    }
  }

  /**
   * A session whose provisioning run loses any of its calls answers 500, and its
   * last call marks the row Error, which it then is unless that call is lost before
   * taking effect. For first sessions and for reprovisioning alike.
   */
  lemma FailedProvisioningMarksError(cfg: Config, w: World, tn: Tenant, isNew: bool, o: Oracle, n: nat)
    requires cfg.K8s() && RowIs(w, tn) && SomeLost(o, n, n + (if cfg.domain.Some? then 6 else 5))
    ensures var (w', p, n') := Drive(cfg, w, Creating(tn, isNew, Client), o, n);
      && p == Done(Fault(500)) && n < n'
      && RowIs(w', if o(n' - 1).fate != Before then tn.(status := Error) else tn)
  {
    ClientFacts(cfg);
    hide Drive, Going, Open, Taken, RowIs;
    GoingRuns(cfg, w, tn, isNew, Client, o, n);
  }

  lemma ClientFacts(cfg: Config)
    ensures Going(cfg, Client) && Open(Client) && Taken(Client) == 0
  {
  }
}
