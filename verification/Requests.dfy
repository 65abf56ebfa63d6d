/** Fault-free suspend, delete and sweep in closed form. */
module Requests {
  import opened Types
  import opened Manifests
  import opened World
  import opened Handlers
  import opened Agreement
  import opened Serial
  import opened Views
  import opened Lockstep
  import Isolation

  // --- POST /api/tenant/suspend ---

  lemma NoRowAnswers404(cfg: Config, w: World, p: Proc, o: Oracle, n: nat)
    requires p.SuspendFind? || p.DeleteFind?
    requires WorldAgrees(cfg, w) && p.userId !in w.db.byUser && Smooth(cfg, w, p, o, n, true)
    ensures Drive(cfg, w, p, o, n) == (w, Done(Fault(404)), n + 1)
  {
    hide Smooth, WorldAgrees, Lookup, Known, Active, ProcAgrees, Drive;
    LookupRow(cfg, w, p.userId);
    FindStep(cfg, w, p, o, n);
    DoneDrive(cfg, w, 404, o, n + 1);
  }

  lemma KillStep(cfg: Config, w: World, tn: Tenant, o: Oracle, n: nat)
    requires Smooth(cfg, w, SuspendKill(tn), o, n, true)
    ensures PodK !in Present(w.kube, tn.tenantId) ==> Drive(cfg, w, SuspendKill(tn), o, n) == (w, INTERNAL_ERROR, n + 1)
    ensures PodK in Present(w.kube, tn.tenantId) ==>
      exists w': World ::
        && Drive(cfg, w, SuspendKill(tn), o, n) == Drive(cfg, w', SuspendMark(tn), o, n + 1)
        && Smooth(cfg, w', SuspendMark(tn), o, n + 1, true) && w'.db == w.db
        && w' == Apply(w, Delete(KeyOf(PodK, tn.tenantId)), ChoiceFor(cfg, SuspendKill(tn), o, n)).0
        && Present(w'.kube, tn.tenantId) == Present(w.kube, tn.tenantId) - {PodK}
  {
    hide KeyOf, Smooth, Present, OwnerOf, Drive, KubeCall;
    var p := SuspendKill(tn);
    FirstStep(cfg, w, p, o, n);
    var ch := ChoiceFor(cfg, p, o, n);
    PresentHas(w.kube, tn.tenantId);
    PresentAfter(w.kube, Delete(KeyOf(PodK, tn.tenantId)), ch, tn.tenantId);
    DeletesPod(w.kube, KeyOf(PodK, tn.tenantId), ch);
    var (w', next) := Advance(cfg, w, p, ch);
    assert w' == Apply(w, Delete(KeyOf(PodK, tn.tenantId)), ch).0;
    if PodK !in Present(w.kube, tn.tenantId) {
      assert w' == w && next == INTERNAL_ERROR;
      DoneDrive(cfg, w, 500, o, n + 1);
    }
  }

  lemma DeletesPod(k: Kube, key: Key, ch: Choice)
    requires ch.fate == Clean
    ensures key in k.objs ==> KubeCall(k, Delete(key), ch).1 == Ok
    ensures key !in k.objs ==> KubeCall(k, Delete(key), ch) == (k, NotFound)
  {
  }

  lemma MarkStep(cfg: Config, w: World, tn: Tenant, o: Oracle, n: nat)
    requires Smooth(cfg, w, SuspendMark(tn), o, n, true)
    ensures Drive(cfg, w, SuspendMark(tn), o, n)
         == (w.(db := SetStatus(w.db, tn.tenantId, Suspended)), Done(NoContent), n + 1)
  {
    hide Smooth, SetStatus;
    FirstStep(cfg, w, SuspendMark(tn), o, n);
  }

  /** A suspend of a Ready tenant removes its Pod and marks it; without a Pod it fails and changes nothing. */
  lemma SuspendOnRow(cfg: Config, w: World, u: UserId, o: Oracle, n: nat)
    requires cfg.K8s() && WorldAgrees(cfg, w) && u in w.db.byUser && Smooth(cfg, w, SuspendFind(u), o, n, true)
    ensures Lookup(w.db, u).Some?
    ensures var tn := Lookup(w.db, u).value; var kinds := Present(w.kube, tn.tenantId);
      var (w', p, _) := Drive(cfg, w, SuspendFind(u), o, n);
      if tn.status != Ready then w' == w && p == Done(Fault(409))
      else if PodK !in kinds then w' == w && p == Done(Fault(500))
      else
        && p == Done(NoContent) && RowIs(w', tn.(status := Suspended))
        && w'.db == SetStatus(w.db, tn.tenantId, Suspended)
        && Present(w'.kube, tn.tenantId) == kinds - {PodK} && Elsewhere(w, w', tn.tenantId)
  {
    hide KeyOf, Smooth, Present, WorldAgrees, Elsewhere, Active, ProcAgrees, Known, Drive, Apply, CallAt, Resume,
      Lookup, Isolation.CallTenant;
    LookupRow(cfg, w, u);
    var tn := Lookup(w.db, u).value;
    FindStep(cfg, w, SuspendFind(u), o, n);
    var next := AfterFind(cfg, SuspendFind(u), Some(tn));
    DoneDrive(cfg, w, 409, o, n + 1);
    if tn.status == Ready {
      KillStep(cfg, w, tn, o, n + 1);
      DriveElsewhere(cfg, w, SuspendKill(tn), o, n + 1, tn);
      if PodK in Present(w.kube, tn.tenantId) {
        var w1: World :|
          && Drive(cfg, w, SuspendKill(tn), o, n + 1) == Drive(cfg, w1, SuspendMark(tn), o, n + 2)
          && Smooth(cfg, w1, SuspendMark(tn), o, n + 2, true) && w1.db == w.db
          && w1 == Apply(w, Delete(KeyOf(PodK, tn.tenantId)), ChoiceFor(cfg, SuspendKill(tn), o, n + 1)).0
          && Present(w1.kube, tn.tenantId) == Present(w.kube, tn.tenantId) - {PodK};
        MarkStep(cfg, w1, tn, o, n + 2);
      }
    }
  }

  lemma DoneDrive(cfg: Config, w: World, code: nat, o: Oracle, n: nat)
    ensures Drive(cfg, w, Done(Fault(code)), o, n) == (w, Done(Fault(code)), n)
  {
  }

  // --- DELETE /api/tenant ---

  /** The kinds whose deletion has come back. */
  function GoneFront(route: bool, service: bool, pod: bool): set<Kind> {
    (if route then {} else {RouteK}) + (if service then {} else {ServiceK}) + (if pod then {} else {PodK})
  }

  lemma FrontGone(kinds: set<Kind>, route: bool, service: bool, pod: bool, i: nat)
    requires i < 3 && (if i == 0 then route else if i == 1 then service else pod)
    ensures kinds - GoneFront(route, service, pod) - {if i == 0 then RouteK else if i == 1 then ServiceK else PodK}
         == kinds - GoneFront(route && i != 0, service && i != 1, pod && i != 2)
    ensures GoneFront(true, true, true) == {} && GoneFront(false, false, false) == {RouteK, ServiceK, PodK}
  {
  }

  /** Where a fault-free delete of tn can be, and which kinds are left by then. */
  predicate OnDelete(w: World, p: Proc, tn: Tenant, kinds: set<Kind>) {
    var now := Present(w.kube, tn.tenantId);
    match p
    case DeleteClient(x) => x == tn && RowIs(w, tn) && now == kinds
    case DeleteFront(x, route, service, pod) =>
      && x == tn && RowIs(w, tn)
      && now == kinds - GoneFront(route, service, pod)
    case DeleteBack(x, secret, pvc) =>
      && x == tn && RowIs(w, tn)
      && now == kinds - ({RouteK, ServiceK, PodK} + (if secret then {} else {SecretK}) + (if pvc then {} else {PvcK}))
    case DeleteLast(x) => x == tn && RowIs(w, tn) && now == {}
    case Done(r) => r == NoContent && now == {} && tn.tenantId !in w.db.rows
    case _ => false
  }

  lemma DeleteClientStep(cfg: Config, w: World, p: Proc, tn: Tenant, kinds: set<Kind>, ch: Choice)
    requires OnDelete(w, p, tn, kinds) && p.DeleteClient? && CallAt(cfg, p, ch.branch).Some? && ch.fate == Clean
    ensures var (w', next) := Advance(cfg, w, p, ch); OnDelete(w', next, tn, kinds) && w'.db == w.db
  {
    hide KeyOf, Present;
  }

  lemma FrontOn(w: World, tn: Tenant, kinds: set<Kind>, route: bool, service: bool, pod: bool)
    requires RowIs(w, tn) && Present(w.kube, tn.tenantId) == kinds - GoneFront(route, service, pod)
    ensures OnDelete(w, AfterFront(tn, route, service, pod), tn, kinds)
  {
    hide Present, RowIs;
  }

  lemma FrontCallMade(cfg: Config, w: World, p: Proc, ch: Choice)
    requires p.DeleteFront? && CallAt(cfg, p, ch.branch).Some?
    ensures IsKubeCall(CallAt(cfg, p, ch.branch).value)
    ensures var i := ch.branch;
      Advance(cfg, w, p, ch)
      == (w.(kube := KubeCall(w.kube, CallAt(cfg, p, i).value, ch).0),
          AfterFront(p.tn, p.route && i != 0, p.service && i != 1, p.pod && i != 2))
  {
    FrontCall(cfg, p, ch.branch);
    hide CallAt, KeyOf, KubeCall, AfterFront;
  }

  lemma DeleteFrontStep(cfg: Config, w: World, p: Proc, tn: Tenant, kinds: set<Kind>, ch: Choice)
    requires OnDelete(w, p, tn, kinds) && p.DeleteFront?
    requires CallAt(cfg, p, ch.branch).Some? && ch.fate == Clean
    ensures var (w', next) := Advance(cfg, w, p, ch); OnDelete(w', next, tn, kinds) && w'.db == w.db
  {
    assert RowIs(w, tn) && p.tn == tn && Present(w.kube, tn.tenantId) == kinds - GoneFront(p.route, p.service, p.pod);
    hide KeyOf, Present, OwnerOf, KubeCall, CallAt, GoneFront, OnDelete, Advance, AfterFront;
    var i := ch.branch;
    FrontCall(cfg, p, i);
    FrontCallMade(cfg, w, p, ch);
    FrontGone(kinds, p.route, p.service, p.pod, i);
    PresentAfter(w.kube, CallAt(cfg, p, i).value, ch, tn.tenantId);
    FrontOn(Advance(cfg, w, p, ch).0, tn, kinds, p.route && i != 0, p.service && i != 1, p.pod && i != 2);
  }

  lemma FrontCall(cfg: Config, p: Proc, i: nat)
    requires p.DeleteFront? && CallAt(cfg, p, i).Some?
    ensures i < 3 && (if i == 0 then p.route else if i == 1 then p.service else p.pod)
    ensures CallAt(cfg, p, i).value
         == Delete(KeyOf(if i == 0 then RouteK else if i == 1 then ServiceK else PodK, p.tn.tenantId))
  {
    hide KeyOf;
  }

  lemma DeleteBackStep(cfg: Config, w: World, p: Proc, tn: Tenant, kinds: set<Kind>, ch: Choice)
    requires OnDelete(w, p, tn, kinds) && p.DeleteBack?
    requires CallAt(cfg, p, ch.branch).Some? && ch.fate == Clean
    ensures var (w', next) := Advance(cfg, w, p, ch); OnDelete(w', next, tn, kinds) && w'.db == w.db
  {
    PresentAfter(w.kube, CallAt(cfg, p, ch.branch).value, ch, tn.tenantId);
    AllKinds(kinds);
    hide KeyOf, Present, OwnerOf, KubeCall;
  }

  lemma AllKinds(kinds: set<Kind>)
    ensures kinds - ({RouteK, ServiceK, PodK} + {SecretK} + {PvcK}) == {}
  {
    forall kind | kind in kinds
      ensures kind in {RouteK, ServiceK, PodK} + {SecretK} + {PvcK}
    {
      match kind case PvcK => case SecretK => case PodK => case ServiceK => case RouteK =>
    }
  }

  lemma DeleteLastStep(cfg: Config, w: World, p: Proc, tn: Tenant, kinds: set<Kind>, ch: Choice)
    requires OnDelete(w, p, tn, kinds) && p.DeleteLast?
    requires CallAt(cfg, p, ch.branch).Some? && ch.fate == Clean
    ensures var (w', next) := Advance(cfg, w, p, ch);
      OnDelete(w', next, tn, kinds) && w'.db == RemoveRow(w.db, tn.tenantId)
  {
    hide KeyOf, Present;
  }

  lemma {:induction false} DeleteRuns(cfg: Config, w: World, p: Proc, o: Oracle, n: nat, tn: Tenant, kinds: set<Kind>)
    requires OnDelete(w, p, tn, kinds) && Active(cfg, p) && !p.Done? && Smooth(cfg, w, p, o, n, true)
    ensures var (w', p', _) := Drive(cfg, w, p, o, n);
            p'.Done? && OnDelete(w', p', tn, kinds) && w'.db == RemoveRow(w.db, tn.tenantId)
    decreases p.Querying?, Rank(p)
  {
    hide CallAt, Resume, Apply, Rank, SomeBranch, Active, OnDelete, RemoveRow, SmoothCall;
    DeleteIsNotEnded(w, p, tn, kinds);
    FirstStep(cfg, w, p, o, n);
    var ch := ChoiceFor(cfg, p, o, n);
    RankDrops(cfg, p, ch.branch, Apply(w, CallAt(cfg, p, ch.branch).value, ch).1, w.db.clock);
    var (w', next) := Advance(cfg, w, p, ch);
    assert ch.fate == Clean by { SmoothIsClean(w, CallAt(cfg, p, ch.branch).value, ch); }
    if p.DeleteLast? {
      DeleteLastStep(cfg, w, p, tn, kinds, ch);
      LastIsDone(cfg, p, ch, w);
      assert Drive(cfg, w', next, o, n + 1) == (w', next, n + 1) by { Ends(cfg, w', next, o, n + 1); }
    } else {
      if p.DeleteClient? {
        DeleteClientStep(cfg, w, p, tn, kinds, ch);
      } else if p.DeleteFront? {
        DeleteFrontStep(cfg, w, p, tn, kinds, ch);
      } else {
        DeleteBackStep(cfg, w, p, tn, kinds, ch);
      }
      StillDeleting(cfg, p, ch, w);
      DeleteRuns(cfg, w', next, o, n + 1, tn, kinds);
    }
  }

  lemma DeleteIsNotEnded(w: World, p: Proc, tn: Tenant, kinds: set<Kind>)
    requires OnDelete(w, p, tn, kinds) && !p.Done?
    ensures !Ended(p) && (p.DeleteClient? || p.DeleteFront? || p.DeleteBack? || p.DeleteLast?)
  {
  }

  lemma SmoothIsClean(w: World, c: Call, ch: Choice)
    requires SmoothCall(w, c, ch, true)
    ensures ch.fate == Clean
  {
  }

  lemma LastIsDone(cfg: Config, p: Proc, ch: Choice, w: World)
    requires p.DeleteLast? && CallAt(cfg, p, ch.branch).Some?
    ensures Advance(cfg, w, p, ch).1.Done?
  {
  }

  lemma StillDeleting(cfg: Config, p: Proc, ch: Choice, w: World)
    requires (p.DeleteClient? || p.DeleteFront? || p.DeleteBack?) && CallAt(cfg, p, ch.branch).Some? && ch.fate == Clean
    ensures !Advance(cfg, w, p, ch).1.Done?
  {
    hide KeyOf;
  }

  /** A fault-free delete removes the row and every object of the tenant, and nothing else. */
  lemma DeleteOnRow(cfg: Config, w: World, u: UserId, o: Oracle, n: nat)
    requires cfg.K8s() && WorldAgrees(cfg, w) && u in w.db.byUser && Smooth(cfg, w, DeleteFind(u), o, n, true)
    ensures Lookup(w.db, u).Some?
    ensures var tn := Lookup(w.db, u).value;
      var (w', p, _) := Drive(cfg, w, DeleteFind(u), o, n);
      && p == Done(NoContent) && w'.db == RemoveRow(w.db, tn.tenantId) && tn.tenantId !in w'.db.rows
      && Present(w'.kube, tn.tenantId) == {} && Elsewhere(w, w', tn.tenantId)
  {
    hide KeyOf, Smooth, Present, WorldAgrees, Elsewhere, Active, ProcAgrees, Known, Drive, Apply, CallAt, Resume,
      Lookup, OnDelete, RemoveRow;
    LookupRow(cfg, w, u);
    var tn := Lookup(w.db, u).value;
    FindStep(cfg, w, DeleteFind(u), o, n);
    var p := DeleteClient(tn);
    assert AfterFind(cfg, DeleteFind(u), Some(tn)) == p;
    var kinds := Present(w.kube, tn.tenantId);
    assert OnDelete(w, p, tn, kinds) by { DeleteStarts(w, tn); }
    DeleteRuns(cfg, w, p, o, n + 1, tn, kinds);
    DeleteEnds(Drive(cfg, w, p, o, n + 1).0, Drive(cfg, w, p, o, n + 1).1, tn, kinds);
    assert Isolation.Holds(p, tn);
    DriveElsewhere(cfg, w, p, o, n + 1, tn);
  }

  lemma DeleteStarts(w: World, tn: Tenant)
    requires RowIs(w, tn)
    ensures OnDelete(w, DeleteClient(tn), tn, Present(w.kube, tn.tenantId))
  {
    hide Present;
  }

  lemma DeleteEnds(w: World, p: Proc, tn: Tenant, kinds: set<Kind>)
    requires p.Done? && OnDelete(w, p, tn, kinds)
    ensures p == Done(NoContent) && Present(w.kube, tn.tenantId) == {} && tn.tenantId !in w.db.rows
  {
    hide Present;
  }
}
