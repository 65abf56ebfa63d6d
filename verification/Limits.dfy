/**
 * Exactly when one call, with whatever is lost on the way, leaves what one would
 * not expect: a Ready tenant without a Pod or route, a Suspended one with a Pod,
 * or objects without a row.
 */
module Limits {
  import opened Types
  import opened Manifests
  import opened World
  import opened Handlers
  import opened Agreement
  import opened Serial
  import opened Views
  import opened Lockstep
  import Convergence
  import Isolation
  import K8s

  // --- What single calls leave, whatever their fate ---

  lemma Finds(cfg: Config, w: World, p: Proc, o: Oracle, n: nat)
    requires p.SessionFind? || p.SuspendFind? || p.DeleteFind?
    ensures Drive(cfg, w, p, o, n)
         == Drive(cfg, w, if o(n).fate == Clean then AfterFind(cfg, p, Lookup(w.db, p.userId)) else INTERNAL_ERROR,
             o, n + 1)
  {
    hide Drive, Lookup, AfterFind;
    FollowsStore(cfg, w, p, o, n, FindByUser(p.userId));
    assert w == w.(db := w.db);
  }

  lemma Deletes(k: Kube, t: TenantId, kind: Kind, ch: Choice)
    ensures var (k', r) := KubeCall(k, Delete(KeyOf(kind, t)), ch);
      && Present(k', t) == (if ch.fate == Before then Present(k, t) else Present(k, t) - {kind})
      && (r.Ok? <==> ch.fate == Clean && kind in Present(k, t))
  {
    hide KeyOf, OwnerOf;
    var k' := KubeCall(k, Delete(KeyOf(kind, t)), ch).0;
    assert forall x: Kind :: Has(k', x, t) <==> Has(k, x, t) && !(x == kind && ch.fate != Before);
  }

  lemma Creates(k: Kube, m: Manifest, t: TenantId, ch: Choice)
    requires KeyFor(m) == KeyOf(KindOf(m), t)
    ensures var (k', r) := KubeCall(k, Create(m), ch);
      && Present(k', t) == (if ch.fate == Before then Present(k, t) else Present(k, t) + {KindOf(m)})
      && (r.Ok? <==> ch.fate == Clean && KindOf(m) !in Present(k, t))
  {
    hide KeyOf, OwnerOf;
    var k' := KubeCall(k, Create(m), ch).0;
    assert forall x: Kind :: Has(k', x, t) <==> Has(k, x, t) || (x == KindOf(m) && ch.fate != Before);
  }

  lemma Marks(db: Db, t: TenantId, status: Status, ch: Choice)
    requires t in db.rows
    ensures var (db', r) := StoreCall(db, UpdateStatus(t, status), ch);
      && t in db'.rows
      && db'.rows[t].tenant == (if ch.fate == Before then db.rows[t].tenant else db.rows[t].tenant.(status := status))
      && (r.Ok? <==> ch.fate == Clean)
  {
  }

  lemma Touches(db: Db, t: TenantId, ch: Choice)
    requires t in db.rows
    ensures var (db', r) := StoreCall(db, Touch(t), ch);
      && t in db'.rows && db'.rows[t].tenant == db.rows[t].tenant && (r.Ok? <==> ch.fate == Clean)
  {
  }

  predicate IsReady(db: Db, t: TenantId) { t in db.rows && db.rows[t].tenant.status == Ready }

  // --- Suspend ---

  /**
   * What a suspend makes of its tenant, whatever is lost: the Pod goes if the row
   * was Ready, was read, and the deletion took effect; the row becomes Suspended
   * if moreover there was a Pod, its deletion was confirmed, and the update took
   * effect.
   */
  lemma SuspendUnderLosses(cfg: Config, w: World, u: UserId, o: Oracle, n: nat)
    requires cfg.K8s() && WorldAgrees(cfg, w) && u in w.db.byUser
    ensures Lookup(w.db, u).Some?
    ensures var tn := Lookup(w.db, u).value; var kinds := Present(w.kube, tn.tenantId);
      var w' := Drive(cfg, w, SuspendFind(u), o, n).0;
      var reached := tn.status == Ready && o(n).fate == Clean;
      var marked := reached && o(n + 1).fate == Clean && PodK in kinds && o(n + 2).fate != Before;
      && RowIs(w', if marked then tn.(status := Suspended) else tn)
      && Present(w'.kube, tn.tenantId) == if reached && o(n + 1).fate != Before then kinds - {PodK} else kinds
  {
    hide Drive, Lookup, Present, KeyOf, OwnerOf, WorldAgrees, KubeCall, StoreCall, Known;
    LookupRow(cfg, w, u);
    var tn := Lookup(w.db, u).value;
    Finds(cfg, w, SuspendFind(u), o, n);
    Ends(cfg, w, INTERNAL_ERROR, o, n + 1);
    Ends(cfg, w, Done(Fault(409)), o, n + 1);
    if o(n).fate == Clean && tn.status == Ready {
      var c := Delete(KeyOf(PodK, tn.tenantId));
      FollowsKube(cfg, w, SuspendKill(tn), o, n + 1, c);
      Deletes(w.kube, tn.tenantId, PodK, o(n + 1));
      var w1 := w.(kube := KubeCall(w.kube, c, o(n + 1)).0);
      Ends(cfg, w1, INTERNAL_ERROR, o, n + 2);
      FollowsStore(cfg, w1, SuspendMark(tn), o, n + 2, UpdateStatus(tn.tenantId, Suspended));
      Marks(w1.db, tn.tenantId, Suspended, o(n + 2));
      var w2 := w1.(db := StoreCall(w1.db, UpdateStatus(tn.tenantId, Suspended), o(n + 2)).0);
      Ends(cfg, w2, Done(NoContent), o, n + 3);
      Ends(cfg, w2, INTERNAL_ERROR, o, n + 3);
    }
  }

  /**
   * A suspend of a Ready tenant leaves it Ready without a Pod exactly if there
   * was none, or the Pod's deletion took effect and either its reply or the
   * status update was lost.
   */
  lemma SuspendLosesPodExactly(cfg: Config, w: World, u: UserId, o: Oracle, n: nat)
    requires cfg.K8s() && WorldAgrees(cfg, w) && u in w.db.byUser
    requires Lookup(w.db, u).Some? && Lookup(w.db, u).value.status == Ready
    ensures var tn := Lookup(w.db, u).value; var w' := Drive(cfg, w, SuspendFind(u), o, n).0;
      RowIs(w', tn) && PodK !in Present(w'.kube, tn.tenantId)
      <==> || PodK !in Present(w.kube, tn.tenantId)
           || (o(n).fate == Clean && (o(n + 1).fate == After || (o(n + 1).fate == Clean && o(n + 2).fate == Before)))
  {
    hide Drive, Lookup, Present, WorldAgrees;
    SuspendUnderLosses(cfg, w, u, o, n);
  }

  /**
   * A suspend leaves a Suspended tenant with a Pod, or a Ready one without some
   * other object, only if it was there before.
   */
  lemma SuspendLeavesTheRest(cfg: Config, w: World, u: UserId, o: Oracle, n: nat, kind: Kind)
    requires cfg.K8s() && WorldAgrees(cfg, w) && u in w.db.byUser && kind != PodK
    ensures Lookup(w.db, u).Some?
    ensures var tn := Lookup(w.db, u).value; var t := tn.tenantId;
      var w' := Drive(cfg, w, SuspendFind(u), o, n).0;
      && t in w'.db.rows
      && (w'.db.rows[t].tenant.status == Suspended && PodK in Present(w'.kube, t) ==>
            tn.status == Suspended && PodK in Present(w.kube, t))
      && (IsReady(w'.db, t) && kind !in Present(w'.kube, t) ==> tn.status == Ready && kind !in Present(w.kube, t))
  {
    hide Drive, Lookup, Present, WorldAgrees;
    SuspendUnderLosses(cfg, w, u, o, n);
  }

  // --- Wake ---

  /**
   * A session of a Suspended tenant leaves it Suspended with a Pod exactly if
   * there was one, or the Pod's creation took effect and either its reply or the
   * status update was lost.
   */
  lemma WakeLeavesPodExactly(cfg: Config, w: World, u: UserId, o: Oracle, n: nat)
    requires cfg.K8s() && WorldAgrees(cfg, w) && u in w.db.byUser
    requires Lookup(w.db, u).Some? && Lookup(w.db, u).value.status == Suspended
    ensures var tn := Lookup(w.db, u).value; var w' := Drive(cfg, w, SessionFind(u), o, n).0;
      RowIs(w', tn) && PodK in Present(w'.kube, tn.tenantId)
      <==> || PodK in Present(w.kube, tn.tenantId)
           || (o(n).fate == Clean && o(n + 1).fate == Clean
               && (o(n + 2).fate == After || (o(n + 2).fate == Clean && o(n + 3).fate == Before)))
  {
    hide Drive, Lookup, Present, KeyOf, OwnerOf, WorldAgrees, KubeCall, StoreCall, Known, BuildPod;
    LookupRow(cfg, w, u);
    var tn := Lookup(w.db, u).value;
    Finds(cfg, w, SessionFind(u), o, n);
    Ends(cfg, w, INTERNAL_ERROR, o, n + 1);
    if o(n).fate == Clean {
      FollowsStore(cfg, w, Touching(tn), o, n + 1, Touch(tn.tenantId));
      Touches(w.db, tn.tenantId, o(n + 1));
      var w1 := w.(db := StoreCall(w.db, Touch(tn.tenantId), o(n + 1)).0);
      Ends(cfg, w1, INTERNAL_ERROR, o, n + 2);
      if o(n + 1).fate == Clean { WakeFrom(cfg, w1, tn, o, n + 2); }
    }
  }

  lemma WakeFrom(cfg: Config, w: World, tn: Tenant, o: Oracle, n: nat)
    requires cfg.K8s() && RowIs(w, tn) && tn.status == Suspended
    ensures var w' := Drive(cfg, w, Waking(tn), o, n).0;
      RowIs(w', tn) && PodK in Present(w'.kube, tn.tenantId)
      <==> || PodK in Present(w.kube, tn.tenantId)
           || o(n).fate == After || (o(n).fate == Clean && o(n + 1).fate == Before)
  {
    hide Drive, Present, KeyOf, OwnerOf, KubeCall, StoreCall, BuildPod;
    var m := BuildPod(SpecOf(cfg, tn.tenantId, tn.token));
    FollowsKube(cfg, w, Waking(tn), o, n, Create(m));
    Creates(w.kube, m, tn.tenantId, o(n));
    var w1 := w.(kube := KubeCall(w.kube, Create(m), o(n)).0);
    Ends(cfg, w1, INTERNAL_ERROR, o, n + 1);
    FollowsStore(cfg, w1, WakeMark(tn), o, n + 1, UpdateStatus(tn.tenantId, Provisioning));
    Marks(w1.db, tn.tenantId, Provisioning, o(n + 1));
    var w2 := w1.(db := StoreCall(w1.db, UpdateStatus(tn.tenantId, Provisioning), o(n + 1)).0);
    Ends(cfg, w2, INTERNAL_ERROR, o, n + 2);
    Ends(cfg, w2, SessionReply(cfg, tn, false, Provisioning), o, n + 2);
  }

  // --- Delete ---

  function Left(a: bool, b: bool, c: bool): nat {
    (if a then 1 else 0) + (if b then 1 else 0) + (if c then 1 else 0)
  }

  /** Whether the deletion of a kind of the first group is still to come. */
  predicate InFront(kind: Kind, route: bool, service: bool, pod: bool) {
    (kind == RouteK && route) || (kind == ServiceK && service) || (kind == PodK && pod)
  }

  predicate InBack(kind: Kind, secret: bool, pvc: bool) {
    (kind == SecretK && secret) || (kind == PvcK && pvc)
  }

  /** The number of the call that deletes a kind, in the order the environment lets the calls go. */
  function FrontSlot(o: Oracle, n: nat, route: bool, service: bool, pod: bool, kind: Kind): nat
    decreases Left(route, service, pod)
  {
    if !(route || service || pod) then n
    else
      var i := K8s.FrontTurn(o(n).branch, route, service, pod);
      if K8s.FrontKind(i) == kind then n
      else FrontSlot(o, n + 1, route && i != 0, service && i != 1, pod && i != 2, kind)
  }

  function BackTurn(branch: nat, secret: bool, pvc: bool): nat {
    if secret && !(branch == 1 && pvc) then 0 else 1
  }

  function BackSlot(o: Oracle, n: nat, secret: bool, pvc: bool, kind: Kind): nat
    decreases Left(secret, pvc, false)
  {
    if !(secret || pvc) then n
    else
      var i := BackTurn(o(n).branch, secret, pvc);
      if K8s.BackKind(i) == kind then n else BackSlot(o, n + 1, secret && i != 0, pvc && i != 1, kind)
  }

  function SlotOf(o: Oracle, n: nat, kind: Kind): nat {
    if kind == SecretK || kind == PvcK then BackSlot(o, n + 3, true, true, kind)
    else FrontSlot(o, n, true, true, true, kind)
  }

  lemma {:induction false} FrontRuns(cfg: Config, w: World, tn: Tenant, route: bool, service: bool, pod: bool,
      o: Oracle, n: nat)
      returns (w': World)
    ensures Drive(cfg, w, AfterFront(tn, route, service, pod), o, n)
         == Drive(cfg, w', DeleteBack(tn, true, true), o, n + Left(route, service, pod))
    ensures w'.db == w.db
    ensures forall kind: Kind :: kind in Present(w'.kube, tn.tenantId) <==>
              && kind in Present(w.kube, tn.tenantId)
              && (InFront(kind, route, service, pod) ==> o(FrontSlot(o, n, route, service, pod, kind)).fate == Before)
    decreases Left(route, service, pod)
  {
    hide Drive, KubeCall, KeyOf, Present;
    if route || service || pod {
      var i := K8s.FrontTurn(o(n).branch, route, service, pod);
      K8s.FrontStep(cfg, w, tn, route, service, pod, o, n);
      Deletes(w.kube, tn.tenantId, K8s.FrontKind(i), o(n));
      var w1 := w.(kube := KubeCall(w.kube, Delete(KeyOf(K8s.FrontKind(i), tn.tenantId)), o(n)).0);
      w' := FrontRuns(cfg, w1, tn, route && i != 0, service && i != 1, pod && i != 2, o, n + 1);
    } else {
      w' := w;
    }
  }

  lemma {:induction false} BackRuns(cfg: Config, w: World, tn: Tenant, secret: bool, pvc: bool, o: Oracle, n: nat)
      returns (w': World)
    ensures Drive(cfg, w, AfterBack(tn, secret, pvc), o, n)
        == Drive(cfg, w', DeleteLast(tn), o, n + Left(secret, pvc, false))
    ensures w'.db == w.db
    ensures forall kind: Kind :: kind in Present(w'.kube, tn.tenantId) <==>
              && kind in Present(w.kube, tn.tenantId)
              && (InBack(kind, secret, pvc) ==> o(BackSlot(o, n, secret, pvc, kind)).fate == Before)
    decreases Left(secret, pvc, false)
  {
    hide Drive, KubeCall, KeyOf, Present;
    if secret || pvc {
      var i := BackTurn(o(n).branch, secret, pvc);
      K8s.BackStep(cfg, w, tn, secret, pvc, o, n);
      Deletes(w.kube, tn.tenantId, K8s.BackKind(i), o(n));
      var w1 := w.(kube := KubeCall(w.kube, Delete(KeyOf(K8s.BackKind(i), tn.tenantId)), o(n)).0);
      w' := BackRuns(cfg, w1, tn, secret && i != 0, pvc && i != 1, o, n + 1);
    } else {
      w' := w;
    }
  }

  lemma Removes(db: Db, t: TenantId, ch: Choice)
    requires t in db.rows
    ensures var (db', r) := StoreCall(db, DeleteRow(t), ch);
      (t in db'.rows <==> ch.fate == Before) && (ch.fate == Before ==> db' == db) && (r.Ok? <==> ch.fate == Clean)
  {
  }

  /** The two groups of deletes, in any order and whatever is lost. */
  lemma GroupsRun(cfg: Config, w: World, tn: Tenant, o: Oracle, n: nat) returns (w': World)
    ensures Drive(cfg, w, DeleteFront(tn, true, true, true), o, n) == Drive(cfg, w', DeleteLast(tn), o, n + 5)
    ensures w'.db == w.db
    ensures forall kind: Kind :: kind in Present(w'.kube, tn.tenantId) <==>
              kind in Present(w.kube, tn.tenantId) && o(SlotOf(o, n, kind)).fate == Before
  {
    hide Drive, Present, FrontSlot, BackSlot;
    K8s.FrontEnds(tn);
    var w1 := FrontRuns(cfg, w, tn, true, true, true, o, n);
    w' := BackRuns(cfg, w1, tn, true, true, o, n + 3);
    forall kind: Kind
      ensures kind in Present(w'.kube, tn.tenantId) <==>
                kind in Present(w.kube, tn.tenantId) && o(SlotOf(o, n, kind)).fate == Before
    {
      match kind case PvcK => case SecretK => case PodK => case ServiceK => case RouteK =>
    }
  }

  /**
   * What a delete makes of its tenant, whatever is lost and in any order: an
   * object goes if row and client were reached and its own deletion took effect;
   * the row goes if its removal took effect, and otherwise it stays as it was.
   */
  lemma DeleteUnderLosses(cfg: Config, w: World, u: UserId, o: Oracle, n: nat, kind: Kind)
    requires cfg.K8s() && WorldAgrees(cfg, w) && u in w.db.byUser
    ensures Lookup(w.db, u).Some?
    ensures var tn := Lookup(w.db, u).value; var (w', p, _) := Drive(cfg, w, DeleteFind(u), o, n);
      var reached := o(n).fate == Clean && o(n + 1).fate == Clean;
      && (p == Done(NoContent) <==> reached && o(n + 7).fate == Clean)
      && (if reached && o(n + 7).fate != Before then tn.tenantId !in w'.db.rows else RowIs(w', tn))
      && (kind in Present(w'.kube, tn.tenantId)
          <==> kind in Present(w.kube, tn.tenantId) && !(reached && o(SlotOf(o, n + 2, kind)).fate != Before))
  {
    hide Drive, Lookup, Present, WorldAgrees, StoreCall, Known, SlotOf;
    LookupRow(cfg, w, u);
    var tn := Lookup(w.db, u).value;
    Finds(cfg, w, DeleteFind(u), o, n);
    Ends(cfg, w, INTERNAL_ERROR, o, n + 1);
    if o(n).fate == Clean {
      K8s.DeleteClientStep(cfg, w, tn, o, n + 1);
      Ends(cfg, w, INTERNAL_ERROR, o, n + 2);
      if o(n + 1).fate == Clean {
        hide KubeCall;
        var w1 := GroupsRun(cfg, w, tn, o, n + 2);
        FollowsStore(cfg, w1, DeleteLast(tn), o, n + 7, DeleteRow(tn.tenantId));
        Removes(w1.db, tn.tenantId, o(n + 7));
        var w2 := w1.(db := StoreCall(w1.db, DeleteRow(tn.tenantId), o(n + 7)).0);
        Ends(cfg, w2, Done(NoContent), o, n + 8);
        Ends(cfg, w2, INTERNAL_ERROR, o, n + 8);
      }
    }
  }

  /**
   * A delete answers 204 exactly if its lookup, its client and its row removal
   * go well; and it leaves an object without a row exactly if that object
   * existed, its own deletion was lost before taking effect, and the row was
   * removed all the same.
   */
  lemma DeleteLeavesOrphanExactly(cfg: Config, w: World, u: UserId, o: Oracle, n: nat, kind: Kind)
    requires cfg.K8s() && WorldAgrees(cfg, w) && u in w.db.byUser
    ensures Lookup(w.db, u).Some?
    ensures var t := Lookup(w.db, u).value.tenantId; var (w', p, _) := Drive(cfg, w, DeleteFind(u), o, n);
      && (p == Done(NoContent) <==> o(n).fate == Clean && o(n + 1).fate == Clean && o(n + 7).fate == Clean)
      && (t !in w'.db.rows && kind in Present(w'.kube, t)
          <==> && o(n).fate == Clean && o(n + 1).fate == Clean && o(n + 7).fate != Before
               && kind in Present(w.kube, t) && o(SlotOf(o, n + 2, kind)).fate == Before)
  {
    hide Drive, Lookup, Present, WorldAgrees, SlotOf;
    DeleteUnderLosses(cfg, w, u, o, n, kind);
  }

  /**
   * A delete leaves the row as it was, without an object of some kind, exactly if
   * the row's removal did not take effect, and there was no such object or its
   * own deletion took effect. So a delete can leave a Ready tenant without a Pod
   * or route.
   */
  lemma DeleteLeavesRowWithoutExactly(cfg: Config, w: World, u: UserId, o: Oracle, n: nat, kind: Kind)
    requires cfg.K8s() && WorldAgrees(cfg, w) && u in w.db.byUser
    ensures Lookup(w.db, u).Some?
    ensures var tn := Lookup(w.db, u).value; var w' := Drive(cfg, w, DeleteFind(u), o, n).0;
      var reached := o(n).fate == Clean && o(n + 1).fate == Clean;
      RowIs(w', tn) && kind !in Present(w'.kube, tn.tenantId)
      <==> && !(reached && o(n + 7).fate != Before)
           && (kind !in Present(w.kube, tn.tenantId) || (reached && o(SlotOf(o, n + 2, kind)).fate != Before))
  {
    hide Drive, Lookup, Present, WorldAgrees, SlotOf;
    DeleteUnderLosses(cfg, w, u, o, n, kind);
  }

  // --- Session ---

  /** Whether provisioning creates objects of a kind. */
  predicate Provided(cfg: Config, kind: Kind) { kind == RouteK ==> cfg.domain.Some? }

  /** A session here will not write Ready before it has put every object in place. */
  predicate Behind(cfg: Config, k: Kube, p: Proc, tn: Tenant) {
    match p
    case Creating(_, isNew, pv) => isNew ==> Convergence.Progress(k, SpecOf(cfg, tn.tenantId, tn.token), pv)
    case _ => p.Waking? || p.WakeMark? || p.Checking? || p.CreateMark? || p.ErrorMark? || p.Done?
  }

  predicate Safe(cfg: Config, w: World, p: Proc, tn: Tenant, kind: Kind) {
    && (IsSession(p) || p.Done?) && Isolation.Holds(p, tn)
    && (Has(w.kube, kind, tn.tenantId) || (!IsReady(w.db, tn.tenantId) && Behind(cfg, w.kube, p, tn)))
  }

  lemma SessionsOnlyAdd(cfg: Config, p: Proc, i: nat, r: Reply)
    requires IsSession(p) && CallAt(cfg, p, i).Some?
    ensures !CallAt(cfg, p, i).value.Delete?
    ensures IsSession(SessionResume(cfg, p, i, r)) || SessionResume(cfg, p, i, r).Done?
  {
    hide KeyOf, OwnerOf, ProvResume, BuildPvc, BuildSecret, BuildPod, BuildService, BuildRoute;
  }

  lemma CallsKeepObjects(w: World, c: Call, ch: Choice, t: TenantId, kind: Kind)
    requires !c.Delete? && Has(w.kube, kind, t)
    ensures Has(Apply(w, c, ch).0.kube, kind, t)
  {
    hide KeyOf, OwnerOf, StoreCall;
  }

  lemma MarkStep(cfg: Config, w: World, p: Proc, ch: Choice, tn: Tenant)
    requires cfg.K8s() && !p.Creating? && IsSession(p) && CallAt(cfg, p, ch.branch).Some?
    requires !IsReady(w.db, tn.tenantId) && Behind(cfg, w.kube, p, tn)
    ensures var (w', next) := Advance(cfg, w, p, ch);
      !IsReady(w'.db, tn.tenantId) && Behind(cfg, w'.kube, next, tn)
  {
    hide KeyOf, OwnerOf, KubeCall, BuildPod, PublicUrl, NewUrl, ResponseToken;
  }

  lemma CreateStep(cfg: Config, w: World, p: Proc, ch: Choice, tn: Tenant, kind: Kind)
    requires cfg.K8s() && Provided(cfg, kind) && p.Creating? && p.tn == tn && CallAt(cfg, p, ch.branch).Some?
    requires !IsReady(w.db, tn.tenantId) && Behind(cfg, w.kube, p, tn)
    ensures var (w', next) := Advance(cfg, w, p, ch);
      && !IsReady(w'.db, tn.tenantId)
      && (Has(w'.kube, kind, tn.tenantId) || Behind(cfg, w'.kube, next, tn))
  {
    var spec := SpecOf(cfg, tn.tenantId, tn.token);
    OnlyKubeCalls(spec, p.prov, ch.branch);
    if p.isNew {
      Convergence.ProvProgress(w.kube, spec, p.prov, ch.branch, ch);
      EndsComplete(KubeCall(w.kube, ProvCall(spec, p.prov, ch.branch).value, ch).0, spec,
                   ProvResume(spec, p.prov, ch.branch,
                       KubeCall(w.kube, ProvCall(spec, p.prov, ch.branch).value, ch).1), kind);
    }
    hide KeyOf, OwnerOf, KubeCall, ProvCall, ProvResume, Convergence.Progress;
  }

  lemma EndsComplete(k: Kube, spec: TenantSpec, pv: Prov, kind: Kind)
    requires Convergence.Progress(k, spec, pv) && Needs(spec, kind)
    ensures pv.Finished? && pv.ok ==> Has(k, kind, spec.tenantId)
  {
  }

  lemma SafeStep(cfg: Config, w: World, p: Proc, ch: Choice, tn: Tenant, kind: Kind)
    requires cfg.K8s() && Provided(cfg, kind) && IsSession(p) && CallAt(cfg, p, ch.branch).Some?
        && Safe(cfg, w, p, tn, kind)
    ensures var (w', next) := Advance(cfg, w, p, ch); Safe(cfg, w', next, tn, kind)
  {
    hide KeyOf, OwnerOf, Apply, CallAt, SessionResume, Behind, IsReady;
    var c := CallAt(cfg, p, ch.branch).value;
    var r := Apply(w, c, ch).1;
    SessionsOnlyAdd(cfg, p, ch.branch, r);
    Isolation.HoldsOn(cfg, p, ch.branch, r, w.db.clock, tn);
    if Has(w.kube, kind, tn.tenantId) {
      CallsKeepObjects(w, c, ch, tn.tenantId, kind);
    } else if p.Creating? {
      CreateStep(cfg, w, p, ch, tn, kind);
    } else {
      MarkStep(cfg, w, p, ch, tn);
    }
  }

  lemma {:induction false} SafeRuns(cfg: Config, w: World, p: Proc, o: Oracle, n: nat, tn: Tenant, kind: Kind)
    requires cfg.K8s() && Provided(cfg, kind) && Safe(cfg, w, p, tn, kind)
    ensures var w' := Drive(cfg, w, p, o, n).0; IsReady(w'.db, tn.tenantId) ==> Has(w'.kube, kind, tn.tenantId)
    decreases p.Querying?, Rank(p)
  {
    hide CallAt, Resume, Apply, Pick, Rank, KeyOf, IsReady, Isolation.Holds;
    if !Halted(cfg, p, o(n).branch) {
      var ch := ChoiceFor(cfg, p, o, n);
      RankDrops(cfg, p, ch.branch, Apply(w, CallAt(cfg, p, ch.branch).value, ch).1, w.db.clock);
      DoneHasNoCall(cfg, p, ch.branch);
      SafeStep(cfg, w, p, ch, tn, kind);
      var (w', next) := Advance(cfg, w, p, ch);
      SafeRuns(cfg, w', next, o, n + 1, tn, kind);
      DriveStep(cfg, w, p, o, n);
    } else {
      HaltedIsSafe(cfg, w, p, o, n, tn, kind);
    }
  }

  lemma HaltedIsSafe(cfg: Config, w: World, p: Proc, o: Oracle, n: nat, tn: Tenant, kind: Kind)
    requires Halted(cfg, p, o(n).branch) && Safe(cfg, w, p, tn, kind)
    ensures Drive(cfg, w, p, o, n).0 == w
    ensures IsReady(w.db, tn.tenantId) ==> Has(w.kube, kind, tn.tenantId)
  {
    hide KeyOf, OwnerOf, CallAt, Pick, Behind, IsReady;
  }

  /** What a session finds before it decides on Ready. */
  predicate Healthy(cfg: Config, tn: Tenant, kinds: set<Kind>, ch: Choice) {
    ch.fate == Clean && ch.healthy && Accepts(cfg, tn) && FRONT <= kinds
  }

  lemma StaysAsIs(cfg: Config, w: World, p: Proc, o: Oracle, n: nat)
    requires Ended(p)
    ensures Drive(cfg, w, p, o, n).0 == w
  {
    hide Drive;
    Ends(cfg, w, p, o, n);
  }

  lemma ProbeOf(cfg: Config, w: World, tn: Tenant, ch: Choice)
    requires WorldAgrees(cfg, w) && Known(w.db, tn)
    ensures var c := Probe(TenantService(tn.tenantId), DevOr(cfg, tn.token));
      KubeCall(w.kube, c, ch) == (w.kube, Answer(Healthy(cfg, tn, Present(w.kube, tn.tenantId), ch)))
  {
    AnswersIff(cfg, w, tn, DevOr(cfg, tn.token));
    hide KeyOf, Answers, WorldAgrees, Present, FRONT;
  }

  lemma FromChecking(cfg: Config, w: World, tn: Tenant, kind: Kind, o: Oracle, n: nat)
    requires cfg.K8s() && Provided(cfg, kind) && RowIs(w, tn) && Unsettled(tn.status)
    ensures var w' := Drive(cfg, w, Checking(tn), o, n).0;
      IsReady(w'.db, tn.tenantId) ==> Has(w'.kube, kind, tn.tenantId)
  {
    assert Safe(cfg, w, Checking(tn), tn, kind);
    hide Drive, Safe;
    SafeRuns(cfg, w, Checking(tn), o, n, tn, kind);
  }

  /** From the health check on. */
  lemma FromProbe(cfg: Config, w: World, tn: Tenant, kind: Kind, o: Oracle, n: nat)
    requires cfg.K8s() && Provided(cfg, kind) && WorldAgrees(cfg, w) && Known(w.db, tn) && RowIs(w, tn)
    requires Unsettled(tn.status)
    requires !Has(w.kube, kind, tn.tenantId)
    ensures var w' := Drive(cfg, w, Probing(tn, false), o, n).0;
      IsReady(w'.db, tn.tenantId) && !Has(w'.kube, kind, tn.tenantId)
      <==> Healthy(cfg, tn, Present(w.kube, tn.tenantId), o(n)) && o(n + 1).fate != Before
  {
    hide Drive, KubeCall, StoreCall, KeyOf, WorldAgrees, Known, Healthy, Present;
    FollowsKube(cfg, w, Probing(tn, false), o, n, Probe(TenantService(tn.tenantId), DevOr(cfg, tn.token)));
    ProbeOf(cfg, w, tn, o(n));
    assert w == w.(kube := w.kube);
    if Healthy(cfg, tn, Present(w.kube, tn.tenantId), o(n)) {
      FollowsStore(cfg, w, ReadyMark(tn, false), o, n + 1, UpdateStatus(tn.tenantId, Ready));
      Marks(w.db, tn.tenantId, Ready, o(n + 1));
      var w1 := w.(db := StoreCall(w.db, UpdateStatus(tn.tenantId, Ready), o(n + 1)).0);
      StaysAsIs(cfg, w1, SessionReply(cfg, tn, false, Ready), o, n + 2);
      StaysAsIs(cfg, w1, INTERNAL_ERROR, o, n + 2);
    } else {
      FromChecking(cfg, w, tn, kind, o, n + 1);
    }
  }

  lemma FromWaking(cfg: Config, w: World, tn: Tenant, kind: Kind, o: Oracle, n: nat)
    requires cfg.K8s() && Provided(cfg, kind) && RowIs(w, tn) && tn.status == Suspended
    ensures var w' := Drive(cfg, w, Waking(tn), o, n).0; IsReady(w'.db, tn.tenantId) ==> Has(w'.kube, kind, tn.tenantId)
  {
    assert Safe(cfg, w, Waking(tn), tn, kind);
    hide Drive, Safe;
    SafeRuns(cfg, w, Waking(tn), o, n, tn, kind);
  }

  /** From the step after the touch on. */
  lemma FromTouched(cfg: Config, w: World, tn: Tenant, kind: Kind, o: Oracle, n: nat)
    requires cfg.K8s() && Provided(cfg, kind) && WorldAgrees(cfg, w) && Known(w.db, tn) && RowIs(w, tn)
    requires !Has(w.kube, kind, tn.tenantId)
    ensures var w' := Drive(cfg, w, AfterTouch(cfg, tn), o, n).0;
      IsReady(w'.db, tn.tenantId) && !Has(w'.kube, kind, tn.tenantId)
      <==> || tn.status == Ready
           || (Unsettled(tn.status) && Healthy(cfg, tn, Present(w.kube, tn.tenantId), o(n)) && o(n + 1).fate != Before)
  {
    hide Drive, KeyOf, WorldAgrees, Known, Healthy, Present;
    if tn.status == Suspended {
      FromWaking(cfg, w, tn, kind, o, n);
    } else if Unsettled(tn.status) {
      FromProbe(cfg, w, tn, kind, o, n);
    } else {
      StaysAsIs(cfg, w, SessionReply(cfg, tn, false, tn.status), o, n);
    }
  }

  lemma WithObject(cfg: Config, w: World, tn: Tenant, kind: Kind, o: Oracle, n: nat)
    requires cfg.K8s() && Provided(cfg, kind) && Has(w.kube, kind, tn.tenantId)
    ensures var w' := Drive(cfg, w, Touching(tn), o, n).0;
      IsReady(w'.db, tn.tenantId) ==> Has(w'.kube, kind, tn.tenantId)
  {
    assert Safe(cfg, w, Touching(tn), tn, kind);
    hide Drive, Safe;
    SafeRuns(cfg, w, Touching(tn), o, n, tn, kind);
  }

  lemma TouchAgrees(cfg: Config, w: World, tn: Tenant, ch: Choice)
    requires WorldAgrees(cfg, w) && Known(w.db, tn)
    ensures var w' := w.(db := StoreCall(w.db, Touch(tn.tenantId), ch).0); WorldAgrees(cfg, w') && Known(w'.db, tn)
  {
    ApplyAgrees(cfg, w, Touch(tn.tenantId), ch);
    hide WorldAgrees;
  }

  /** From the touch on. */
  lemma FromTouching(cfg: Config, w: World, tn: Tenant, kind: Kind, o: Oracle, n: nat)
    requires cfg.K8s() && Provided(cfg, kind) && WorldAgrees(cfg, w) && Known(w.db, tn) && RowIs(w, tn)
    ensures var w' := Drive(cfg, w, Touching(tn), o, n).0;
      IsReady(w'.db, tn.tenantId) && !Has(w'.kube, kind, tn.tenantId)
      <==> && !Has(w.kube, kind, tn.tenantId)
           && (|| tn.status == Ready
               || (&& o(n).fate == Clean && Unsettled(tn.status)
                   && Healthy(cfg, tn, Present(w.kube, tn.tenantId), o(n + 1)) && o(n + 2).fate != Before))
  {
    hide Drive, StoreCall, KeyOf, WorldAgrees, Known, Healthy, Present, AfterTouch;
    if Has(w.kube, kind, tn.tenantId) {
      WithObject(cfg, w, tn, kind, o, n);
    } else {
      FollowsStore(cfg, w, Touching(tn), o, n, Touch(tn.tenantId));
      Touches(w.db, tn.tenantId, o(n));
      TouchAgrees(cfg, w, tn, o(n));
      var w1 := w.(db := StoreCall(w.db, Touch(tn.tenantId), o(n)).0);
      StaysAsIs(cfg, w1, INTERNAL_ERROR, o, n + 1);
      if o(n).fate == Clean { FromTouched(cfg, w1, tn, kind, o, n + 1); }
    }
  }

  /**
   * A session of a user with a row, whatever is lost, leaves the tenant Ready
   * without an object of some kind exactly if it had none and was Ready already,
   * or was checked as healthy, with Pod, Service and Secret in place, and the
   * update to Ready took effect.
   */
  lemma SessionLeavesMissingExactly(cfg: Config, w: World, u: UserId, o: Oracle, n: nat, kind: Kind)
    requires cfg.K8s() && Provided(cfg, kind) && WorldAgrees(cfg, w) && u in w.db.byUser
    ensures Lookup(w.db, u).Some?
    ensures var tn := Lookup(w.db, u).value; var kinds := Present(w.kube, tn.tenantId);
      var w' := Drive(cfg, w, SessionFind(u), o, n).0;
      IsReady(w'.db, tn.tenantId) && kind !in Present(w'.kube, tn.tenantId)
      <==> && kind !in kinds
           && (|| tn.status == Ready
               || (&& o(n).fate == Clean && o(n + 1).fate == Clean && Unsettled(tn.status)
                   && Healthy(cfg, tn, kinds, o(n + 2)) && o(n + 3).fate != Before))
  {
    hide Drive, Lookup, KeyOf, WorldAgrees, Known, Healthy, Present;
    LookupRow(cfg, w, u);
    var tn := Lookup(w.db, u).value;
    PresentHas(w.kube, tn.tenantId);
    PresentHas(Drive(cfg, w, SessionFind(u), o, n).0.kube, tn.tenantId);
    Finds(cfg, w, SessionFind(u), o, n);
    StaysAsIs(cfg, w, INTERNAL_ERROR, o, n + 1);
    if o(n).fate == Clean { FromTouching(cfg, w, tn, kind, o, n + 1); }
  }

  /** So a session can leave a Ready tenant without a route. */
  lemma SessionLeavesNoRouteExactly(cfg: Config, w: World, u: UserId, o: Oracle, n: nat)
    requires cfg.K8s() && cfg.domain.Some? && WorldAgrees(cfg, w) && u in w.db.byUser
    ensures Lookup(w.db, u).Some?
    ensures var tn := Lookup(w.db, u).value; var kinds := Present(w.kube, tn.tenantId);
      var w' := Drive(cfg, w, SessionFind(u), o, n).0;
      IsReady(w'.db, tn.tenantId) && RouteK !in Present(w'.kube, tn.tenantId)
      <==> && RouteK !in kinds
           && (|| tn.status == Ready
               || (&& o(n).fate == Clean && o(n + 1).fate == Clean && Unsettled(tn.status)
                   && Healthy(cfg, tn, kinds, o(n + 2)) && o(n + 3).fate != Before))
  {
    hide Drive, Lookup, WorldAgrees, Healthy, Present;
    SessionLeavesMissingExactly(cfg, w, u, o, n, RouteK);
  }

  /** But without a Pod, Service or Secret only if it was Ready without it before. */
  lemma SessionNeverLosesFront(cfg: Config, w: World, u: UserId, o: Oracle, n: nat, kind: Kind)
    requires cfg.K8s() && WorldAgrees(cfg, w) && u in w.db.byUser && kind in FRONT
    ensures Lookup(w.db, u).Some?
    ensures var tn := Lookup(w.db, u).value; var w' := Drive(cfg, w, SessionFind(u), o, n).0;
      IsReady(w'.db, tn.tenantId) && kind !in Present(w'.kube, tn.tenantId)
      <==> tn.status == Ready && kind !in Present(w.kube, tn.tenantId)
  {
    hide Drive, Lookup, WorldAgrees, Present;
    SessionLeavesMissingExactly(cfg, w, u, o, n, kind);
  }

  lemma InsertSafe(cfg: Config, w: World, u: UserId, ch: Choice, kind: Kind)
    requires cfg.K8s() && u !in w.db.byUser && ch.tenantId !in w.db.rows
    ensures var (db, r) := StoreCall(w.db, Insert(u), ch); var w' := w.(db := db);
      && !IsReady(db, ch.tenantId)
      && (r.Inserted? ==> r.row.tenantId == ch.tenantId && Safe(cfg, w', Creating(r.row, true, Client), r.row, kind))
  {
    hide KeyOf;
  }

  /** A first session, whatever is lost, never makes its tenant Ready without every object that provisioning creates. */
  lemma FirstSessionMakesAll(cfg: Config, w: World, u: UserId, o: Oracle, n: nat, kind: Kind)
    requires cfg.K8s() && Provided(cfg, kind) && WorldAgrees(cfg, w) && u !in w.db.byUser
    requires o(n + 1).tenantId !in w.db.rows
    ensures var t := o(n + 1).tenantId; var w' := Drive(cfg, w, SessionFind(u), o, n).0;
      IsReady(w'.db, t) ==> kind in Present(w'.kube, t)
  {
    hide Drive, Lookup, KeyOf, WorldAgrees, Known, Present, StoreCall, IsReady, Safe;
    LookupRow(cfg, w, u);
    var t := o(n + 1).tenantId;
    PresentHas(Drive(cfg, w, SessionFind(u), o, n).0.kube, t);
    Finds(cfg, w, SessionFind(u), o, n);
    StaysAsIs(cfg, w, INTERNAL_ERROR, o, n + 1);
    NoRowIsNotReady(w.db, t);
    if o(n).fate == Clean {
      FollowsStore(cfg, w, SessionInsert(u), o, n + 1, Insert(u));
      InsertSafe(cfg, w, u, o(n + 1), kind);
      var (db, r) := StoreCall(w.db, Insert(u), o(n + 1));
      var w1 := w.(db := db);
      StaysAsIs(cfg, w1, INTERNAL_ERROR, o, n + 2);
      if r.Inserted? { SafeRuns(cfg, w1, Creating(r.row, true, Client), o, n + 2, r.row, kind); }
    }
  }

  lemma NoRowIsNotReady(db: Db, t: TenantId)
    requires t !in db.rows
    ensures !IsReady(db, t)
  {
  }

  // --- What sessions never do ---

  lemma SessionCalls(cfg: Config, p: Proc, i: nat)
    requires IsSession(p) && CallAt(cfg, p, i).Some?
    ensures var c := CallAt(cfg, p, i).value; !c.DeleteRow? && !c.Delete? && !(c.UpdateStatus? && c.status == Suspended)
  {
    hide KeyOf, OwnerOf, BuildPvc, BuildSecret, BuildPod, BuildService, BuildRoute;
  }

  lemma CallKeepsRow(w: World, c: Call, ch: Choice, t: TenantId)
    requires !c.DeleteRow? && !(c.UpdateStatus? && c.status == Suspended) && t in w.db.rows
    ensures var db := Apply(w, c, ch).0.db;
      t in db.rows && (db.rows[t].tenant.status == Suspended ==>
                         w.db.rows[t].tenant.status == Suspended || (c.Insert? && ch.tenantId == t))
  {
    hide KeyOf, KeyFor, KubeCall, IdleIds, Lists;
  }

  /** A session, whatever is lost, removes no row, and makes no tenant Suspended. */
  lemma {:induction false} SessionsKeepRows(cfg: Config, w: World, p: Proc, o: Oracle, n: nat, t: TenantId)
    requires (IsSession(p) || p.Done?) && t in w.db.rows && RowsAgree(w.db)
    ensures var db := Drive(cfg, w, p, o, n).0.db;
      t in db.rows && (db.rows[t].tenant.status == Suspended ==> w.db.rows[t].tenant.status == Suspended)
    decreases p.Querying?, Rank(p)
  {
    hide CallAt, Resume, Apply, Pick, Rank, RowsAgree;
    if !Halted(cfg, p, o(n).branch) {
      var ch := ChoiceFor(cfg, p, o, n);
      DoneHasNoCall(cfg, p, ch.branch);
      var c := CallAt(cfg, p, ch.branch).value;
      var r := Apply(w, c, ch).1;
      RankDrops(cfg, p, ch.branch, r, w.db.clock);
      SessionCalls(cfg, p, ch.branch);
      CallKeepsRow(w, c, ch, t);
      InsertSparesRow(w, c, ch, t);
      SessionStays(cfg, p, ch.branch, r, w.db.clock);
      var (w', next) := Advance(cfg, w, p, ch);
      SessionsKeepRows(cfg, w', next, o, n + 1, t);
      DriveStep(cfg, w, p, o, n);
    }
  }

  lemma SessionStays(cfg: Config, p: Proc, i: nat, r: Reply, now: nat)
    requires IsSession(p) && CallAt(cfg, p, i).Some?
    ensures IsSession(Resume(cfg, p, i, r, now)) || Resume(cfg, p, i, r, now).Done?
  {
    hide CallAt, SessionResume;
    SessionsOnlyAdd(cfg, p, i, r);
  }

  lemma InsertSparesRow(w: World, c: Call, ch: Choice, t: TenantId)
    requires RowsAgree(w.db) && t in w.db.rows
    ensures RowsAgree(Apply(w, c, ch).0.db)
    ensures c.Insert? && ch.tenantId == t ==> Apply(w, c, ch).0.db == w.db
  {
    assert t in w.db.issued;
    hide RowsAgree, KubeCall, StoreCall;
    if IsStoreCall(c) { StoreAgrees(w.db, c, ch); }
    if c.Insert? && ch.tenantId == t { RefusedInsert(w.db, c.userId, ch); }
  }

  lemma RefusedInsert(db: Db, u: UserId, ch: Choice)
    requires ch.tenantId in db.issued
    ensures StoreCall(db, Insert(u), ch).0 == db
  {
  }
}
