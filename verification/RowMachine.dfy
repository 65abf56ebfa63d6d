/**
 * Without Kubernetes, serialized fault-free calls refine a machine that knows only
 * the status of each user, and no object is ever created.
 */
module RowMachine {
  import opened Types
  import opened Manifests
  import opened World
  import opened Handlers
  import opened Agreement
  import opened Serial
  import opened Views
  import opened Sweeps
  import opened SweepLimits
  import opened Refinement
  import opened WithoutKubernetes
  import SweepForm
  import IdleSweeper
  import Activity
  import Backing
  import Limits
  import Isolation
  import Lockstep

  /** As with Kubernetes, but a Provisioning tenant stays so, and a Suspended one cannot be woken. */
  function BareStep(m: Machine, move: Move): (Machine, Outcome) {
    match move
    case Visit(u, healthy) =>
      if u !in m then
        var status := if healthy then Ready else Provisioning;
        (m[u := status], Reported(status))
      else if m[u] == Suspended then (m, Refused(500))
      else (m, Reported(m[u]))
    case _ => Step(m, move)
  }

  ghost predicate Bare(cfg: Config, w: World) {
    WorldAgrees(cfg, w) && forall t :: t in w.db.rows ==> w.db.rows[t].tenant.status in {Provisioning, Ready, Suspended}
  }

  /** The machine's move for a call. */
  function BareMove(cfg: Config, w: World, op: Op, o: Oracle): Move {
    if op.Session? then Visit(op.userId, o(2).healthy) else MoveOf(cfg, w, op, o)
  }

  ghost predicate BareRefines(cfg: Config, w: World, op: Op, o: Oracle) {
    var (w', outcome) := Perform(cfg, w, op, o);
    && RowsAgree(w.db) && RowsAgree(w'.db)
    && Bare(cfg, w') && w'.kube == w.kube
    && (View(w'.db), outcome) == BareStep(View(w.db), BareMove(cfg, w, op, o))
  }

  // --- Clean calls ---

  lemma FirstIsClean(cfg: Config, w: World, p: Proc, o: Oracle, n: nat)
    requires p.SessionFind? || p.SuspendFind? || p.DeleteFind?
    requires Smooth(cfg, w, p, o, n, true)
    ensures o(n).fate == Clean
    ensures Smooth(cfg, w, AfterFind(cfg, p, Lookup(w.db, p.userId)), o, n + 1, true)
  {
    hide Lookup, AfterFind, Rank;
  }

  lemma OnlyIsClean(cfg: Config, w: World, p: Proc, o: Oracle, n: nat, c: Call)
    requires Lockstep.HasOneCall(p) && OnlyCall(cfg, p) == Some(c) && IsStoreCall(c) && Smooth(cfg, w, p, o, n, true)
    ensures o(n).fate == Clean && (c.Insert? ==> o(n).tenantId !in w.db.issued)
    ensures var (db, r) := StoreCall(w.db, c, o(n));
      Smooth(cfg, w.(db := db), Resume(cfg, p, 0, r, w.db.clock), o, n + 1, true)
  {
    Lockstep.AnyBranch(w, c, o(n), 0);
    hide OnlyCall, Resume, StoreCall, Rank;
  }

  // --- Rows and the view ---

  lemma ViewStatus(cfg: Config, w: World, w': World, tn: Tenant, status: Status)
    requires Bare(cfg, w) && RowIs(w, tn) && OnlyStatus(w, w', tn.tenantId, status) && WorldAgrees(cfg, w')
    requires status in {Provisioning, Ready, Suspended}
    ensures Bare(cfg, w') && View(w'.db) == View(w.db)[tn.userId := status]
  {
    hide ObjectsAgree, Known;
    assert View(w'.db).Keys == View(w.db).Keys && tn.userId in View(w.db);
    forall u | u in View(w.db)
      ensures View(w'.db)[u] == View(w.db)[tn.userId := status][u]
    {
      assert w'.db.byUser[u] == w.db.byUser[u];
    }
  }

  lemma ViewActive(cfg: Config, w: World, w': World, t: TenantId)
    requires Bare(cfg, w) && Activity.OnlyActive(w, w', t) && WorldAgrees(cfg, w')
    ensures Bare(cfg, w') && View(w'.db) == View(w.db)
  {
    hide ObjectsAgree;
  }

  lemma ViewAdded(cfg: Config, w: World, w': World, tn: Tenant)
    requires Bare(cfg, w) && OnlyAdded(w, w', tn) && WorldAgrees(cfg, w')
    requires tn.userId !in w.db.byUser && tn.tenantId !in w.db.issued && tn.status in {Provisioning, Ready}
    ensures Bare(cfg, w') && View(w'.db) == View(w.db)[tn.userId := tn.status]
  {
    hide ObjectsAgree;
  }

  lemma ViewGone(cfg: Config, w: World, w': World, tn: Tenant)
    requires Bare(cfg, w) && RowIs(w, tn) && OnlyRemoved(w, w', tn.tenantId) && WorldAgrees(cfg, w')
    ensures Bare(cfg, w') && View(w'.db) == View(w.db) - {tn.userId}
  {
    hide ObjectsAgree;
  }

  lemma BareRow(cfg: Config, w: World, u: UserId)
    requires Bare(cfg, w)
    ensures u in View(w.db) <==> Lookup(w.db, u).Some?
    ensures Lookup(w.db, u).Some? <==> u in w.db.byUser
    ensures Lookup(w.db, u).Some? ==>
      var tn := Lookup(w.db, u).value;
      RowIs(w, tn) && tn.userId == u && View(w.db)[u] == tn.status && tn.status in {Provisioning, Ready, Suspended}
  {
    hide ObjectsAgree;
  }

  lemma SuspendIsBare(cfg: Config, w: World, u: UserId, o: Oracle)
    requires !cfg.K8s() && Bare(cfg, w) && Smooth(cfg, w, SuspendFind(u), o, 0, true)
    ensures BareRefines(cfg, w, SuspendCall(u), o)
  {
    hide Drive, Smooth, RowsAgree, ObjectsAgree, Lookup, View, RowIs, OnlyStatus, OnlyRemoved, OnlyAdded,
      Activity.OnlyActive, Backing.AddressText, Backing.ShownToken;
    BareRow(cfg, w, u);
    FirstIsClean(cfg, w, SuspendFind(u), o, 0);
    DriveAgrees(cfg, w, SuspendFind(u), o, 0);
    SuspendWithoutCluster(cfg, w, u, o, 0);
    var w' := Drive(cfg, w, SuspendFind(u), o, 0).0;
    if Lookup(w.db, u).Some? && Lookup(w.db, u).value.status == Ready {
      var tn := Lookup(w.db, u).value;
      OnlyIsClean(cfg, w, SuspendMark(tn), o, 1, UpdateStatus(tn.tenantId, Suspended));
      KubeOfStatus(w, w', tn.tenantId, Suspended);
      ViewStatus(cfg, w, w', tn, Suspended);
    }
  }

  lemma KubeOfStatus(w: World, w': World, t: TenantId, status: Status)
    requires OnlyStatus(w, w', t, status)
    ensures w'.kube == w.kube
  {
  }

  lemma DeleteIsBare(cfg: Config, w: World, u: UserId, o: Oracle)
    requires !cfg.K8s() && Bare(cfg, w) && Smooth(cfg, w, DeleteFind(u), o, 0, true)
    ensures BareRefines(cfg, w, DeleteCall(u), o)
  {
    hide Drive, Smooth, RowsAgree, ObjectsAgree, Lookup, View, RowIs, OnlyStatus, OnlyRemoved, OnlyAdded,
      Activity.OnlyActive, Backing.AddressText, Backing.ShownToken;
    BareRow(cfg, w, u);
    FirstIsClean(cfg, w, DeleteFind(u), o, 0);
    DriveAgrees(cfg, w, DeleteFind(u), o, 0);
    DeleteWithoutCluster(cfg, w, u, o, 0);
    var w' := Drive(cfg, w, DeleteFind(u), o, 0).0;
    if Lookup(w.db, u).Some? {
      var tn := Lookup(w.db, u).value;
      OnlyIsClean(cfg, w, DeleteLast(tn), o, 1, DeleteRow(tn.tenantId));
      KubeOfRemoved(w, w', tn.tenantId);
      ViewGone(cfg, w, w', tn);
    }
  }

  lemma SessionIsBare(cfg: Config, w: World, u: UserId, o: Oracle)
    requires !cfg.K8s() && Bare(cfg, w) && Smooth(cfg, w, SessionFind(u), o, 0, true)
    ensures BareRefines(cfg, w, Session(u), o)
  {
    hide Drive, Smooth, RowsAgree, ObjectsAgree, Lookup, View, RowIs, OnlyStatus, OnlyRemoved, OnlyAdded,
      Activity.OnlyActive, Backing.AddressText, Backing.ShownToken;
    BareRow(cfg, w, u);
    FirstIsClean(cfg, w, SessionFind(u), o, 0);
    DriveAgrees(cfg, w, SessionFind(u), o, 0);
    if Lookup(w.db, u).Some? { VisitIsBare(cfg, w, u, o); } else { FirstVisitIsBare(cfg, w, u, o); }
  }

  lemma VisitIsBare(cfg: Config, w: World, u: UserId, o: Oracle)
    requires !cfg.K8s() && Bare(cfg, w) && Smooth(cfg, w, SessionFind(u), o, 0, true) && Lookup(w.db, u).Some?
    requires WorldAgrees(cfg, Drive(cfg, w, SessionFind(u), o, 0).0)
    ensures var (w', p, _) := Drive(cfg, w, SessionFind(u), o, 0);
      && Bare(cfg, w') && w'.kube == w.kube && u in View(w.db)
      && View(w'.db) == View(w.db)
      && OutcomeOf(p) == if View(w.db)[u] == Suspended then Refused(500) else Reported(View(w.db)[u])
  {
    hide Drive, Smooth, RowsAgree, ObjectsAgree, Lookup, View, RowIs, OnlyStatus, OnlyRemoved, OnlyAdded,
      Activity.OnlyActive, Backing.AddressText, Backing.ShownToken;
    BareRow(cfg, w, u);
    FirstIsClean(cfg, w, SessionFind(u), o, 0);
    SessionWithoutCluster(cfg, w, u, o, 0);
    var tn := Lookup(w.db, u).value;
    OnlyIsClean(cfg, w, Touching(tn), o, 1, Touch(tn.tenantId));
    KubeOfActive(w, Drive(cfg, w, SessionFind(u), o, 0).0, tn.tenantId);
    ViewActive(cfg, w, Drive(cfg, w, SessionFind(u), o, 0).0, tn.tenantId);
  }

  lemma FirstVisitIsBare(cfg: Config, w: World, u: UserId, o: Oracle)
    requires !cfg.K8s() && Bare(cfg, w) && Smooth(cfg, w, SessionFind(u), o, 0, true) && Lookup(w.db, u).None?
    requires WorldAgrees(cfg, Drive(cfg, w, SessionFind(u), o, 0).0)
    ensures var (w', p, _) := Drive(cfg, w, SessionFind(u), o, 0);
      var status := if o(2).healthy then Ready else Provisioning;
      && Bare(cfg, w') && w'.kube == w.kube && u !in View(w.db)
      && View(w'.db) == View(w.db)[u := status] && OutcomeOf(p) == Reported(status)
  {
    hide Drive, Smooth, RowsAgree, ObjectsAgree, Lookup, View, RowIs, OnlyStatus, OnlyRemoved, OnlyAdded,
      Activity.OnlyActive, Backing.AddressText, Backing.ShownToken;
    BareRow(cfg, w, u);
    FirstIsClean(cfg, w, SessionFind(u), o, 0);
    OnlyIsClean(cfg, w, SessionInsert(u), o, 1, Insert(u));
    var tn := Tenant(u, o(1).tenantId, o(1).token, Provisioning);
    var w1 := w.(db := StoreCall(w.db, Insert(u), o(1)).0);
    ProbeIsClean(cfg, w1, tn, o, 2);
    FirstSessionWithoutCluster(cfg, w, u, o, 0);
    var w' := Drive(cfg, w, SessionFind(u), o, 0).0;
    var status := if o(2).healthy then Ready else Provisioning;
    KubeOfAdded(w, w', tn.(status := status));
    ViewAdded(cfg, w, w', tn.(status := status));
  }

  lemma KubeOfRemoved(w: World, w': World, t: TenantId)
    requires OnlyRemoved(w, w', t)
    ensures w'.kube == w.kube
  {
  }

  lemma KubeOfActive(w: World, w': World, t: TenantId)
    requires Activity.OnlyActive(w, w', t)
    ensures w'.kube == w.kube
  {
  }

  lemma KubeOfAdded(w: World, w': World, tn: Tenant)
    requires OnlyAdded(w, w', tn)
    ensures w'.kube == w.kube
  {
  }

  /** The check of a first session, and the update that follows if it is answered. */
  lemma ProbeIsClean(cfg: Config, w: World, tn: Tenant, o: Oracle, n: nat)
    requires !cfg.K8s() && Smooth(cfg, w, Probing(tn, true), o, n, true)
    ensures o(n).fate == Clean && (o(n).healthy ==> o(n + 1).fate == Clean)
  {
    assert Smooth(cfg, w, Probing(tn, true), o, n, true);
    var p := Probing(tn, true);
    assert OnlyCall(cfg, p).Some? && OnlyCall(cfg, p).value.Probe? && OnlyCall(cfg, p).value.target.Template?;
    if o(n).healthy {
      assert Smooth(cfg, w, ReadyMark(tn, true), o, n + 1, true);
      OnlyIsClean(cfg, w, ReadyMark(tn, true), o, n + 1, UpdateStatus(tn.tenantId, Ready));
    }
    hide Rank, KeyOf;
  }

  // --- Sweeps ---

  /** A call that a fault-free run makes goes as intended. */
  lemma {:induction false} SlotIsClean(cfg: Config, w: World, p: Proc, o: Oracle, n: nat, c: Call)
    requires Smooth(cfg, w, p, o, n, true) && (IsStoreCall(c) || IsKubeCall(c))
    ensures var slot := CallSlot(cfg, w, p, o, n, c); slot.Some? ==> o(slot.value).fate == Clean
    decreases p.Querying?, Rank(p)
  {
    hide CallAt, Resume, Apply, Pick, Rank;
    if !Halted(cfg, p, o(n).branch) {
      var ch := ChoiceFor(cfg, p, o, n);
      RankDrops(cfg, p, ch.branch, Apply(w, CallAt(cfg, p, ch.branch).value, ch).1, w.db.clock);
      if CallAt(cfg, p, ch.branch) != Some(c) {
        var (w', next) := Advance(cfg, w, p, ch);
        SlotIsClean(cfg, w', next, o, n + 1, c);
      }
    }
  }

  /** So far every task that is over has gone well. */
  ghost predicate AllWell(s: Sweep) {
    s.failed == 0 && forall i :: 0 <= i < |s.tasks| && s.tasks[i].stage.Over? ==> s.tasks[i].stage.ok
  }

  lemma AwaitWell(cfg: Config, s: Sweep, now: nat)
    requires Orderly(cfg, s) && CanAwait(s) && AllWell(s)
    ensures var p := AwaitStep(cfg, s, now);
      if p.Sweeping? then Orderly(cfg, p.sweep) && AllWell(p.sweep) && p.sweep.idle == s.idle
      else p.Sleeping? && p.last.Some? && p.last.value.suspended == |s.idle| && p.last.value.failed == 0
  {
    AwaitStepInOrder(cfg, s, now);
    AwaitKeepsTurn(cfg, s, now, 0);
    SpawnedFresh(cfg, Batch(s.idle, s.chunk + 1));
    hide InOrder, Batch, Spawned;
  }

  lemma SpawnedFresh(cfg: Config, batch: seq<Tenant>)
    ensures forall i :: 0 <= i < |Spawned(cfg, batch)| ==> !Spawned(cfg, batch)[i].stage.Over?
  {
  }

  lemma TaskWell(cfg: Config, w: World, s: Sweep, i: nat, ch: Choice)
    requires !cfg.K8s() && Orderly(cfg, s) && AllWell(s)
    requires i < |s.tasks| && TaskCall(s.tasks[i]).Some? && ch.fate == Clean
    ensures var (w', r) := Apply(w, TaskCall(s.tasks[i]).value, ch); var t := TaskStep(cfg, s, i, r);
      && AllWell(t) && t.idle == s.idle
      && w'.kube == w.kube && w'.db.byUser == w.db.byUser && w'.db.issued == w.db.issued
  {
    OnlyMarks(cfg, s, i);
    hide KeyOf, InOrder, KubeCall;
  }

  lemma OnlyMarks(cfg: Config, s: Sweep, i: nat)
    requires !cfg.K8s() && InOrder(cfg, s) && i < |s.tasks|
    ensures s.tasks[i].stage != Kill
  {
  }

  /** A fault-free sweep suspends everybody it lists, and touches neither index nor objects. */
  lemma {:induction false} CleanSweep(cfg: Config, w: World, s: Sweep, o: Oracle, n: nat)
    requires !cfg.K8s() && Orderly(cfg, s) && AllWell(s) && Smooth(cfg, w, Sweeping(s), o, n, true)
    ensures var (w', p, _) := Drive(cfg, w, Sweeping(s), o, n);
      && p.Sleeping? && p.last.Some? && p.last.value.suspended == |s.idle| && p.last.value.failed == 0
      && w'.kube == w.kube && w'.db.byUser == w.db.byUser && w'.db.issued == w.db.issued
    decreases Rank(Sweeping(s))
  {
    hide CallAt, Resume, Apply, Rank, Orderly, AllWell, Drive, Pick, SomeBranch, TaskCall, TaskStep, AwaitStep, Advance,
      SmoothCall, Smooth;
    var p := Sweeping(s); var ch := ChoiceFor(cfg, p, o, n);
    SweepStep(cfg, w, s, o, n);
    SmoothNext(cfg, w, p, o, n);
    DriveStep(cfg, w, p, o, n);
    SweepRank(cfg, w, s, ch);
    var (w1, next) := Advance(cfg, w, p, ch);
    if ch.branch < |s.tasks| {
      var c := TaskCall(s.tasks[ch.branch]).value;
      assert ch.fate == Clean by { TaskIsClean(w, s.tasks[ch.branch], ch); }
      NotEmpty(cfg, s);
      TaskKeepsTurns(cfg, s, ch.branch, Apply(w, c, ch).1, 0);
      TaskWell(cfg, w, s, ch.branch, ch);
    } else {
      AwaitWell(cfg, s, w.db.clock);
    }
    if next.Sweeping? {
      CleanSweep(cfg, w1, next.sweep, o, n + 1);
    } else {
      Lockstep.Ends(cfg, w1, next, o, n + 1);
    }
  }

  lemma TaskIsClean(w: World, k: Task, ch: Choice)
    requires TaskCall(k).Some? && SmoothCall(w, TaskCall(k).value, ch, true)
    ensures ch.fate == Clean
  {
    hide KeyOf;
  }

  lemma SmoothNext(cfg: Config, w: World, p: Proc, o: Oracle, n: nat)
    requires !Halted(cfg, p, o(n).branch) && Smooth(cfg, w, p, o, n, true)
    ensures var ch := ChoiceFor(cfg, p, o, n); var (w', next) := Advance(cfg, w, p, ch);
      SmoothCall(w, CallAt(cfg, p, ch.branch).value, ch, true) && Smooth(cfg, w', next, o, n + 1, true)
  {
    hide CallAt, Resume, Apply, Pick, SmoothCall;
  }

  lemma QueryIsClean(cfg: Config, w: World, begin: nat, o: Oracle, n: nat)
    requires Smooth(cfg, w, Querying(begin), o, n, true)
    ensures SweepLimits.Answered(w, o(n))
    ensures Smooth(cfg, w, StartSweep(cfg, begin, Listing(w.db, o(n).order), w.db.clock), o, n + 1, true)
  {
    hide IdleIds, Lists, StartSweep, Rank;
    assert w.(db := w.db) == w;
  }

  /** What a fault-free sweep lists. */
  lemma ListsIdle(cfg: Config, w: World, o: Oracle)
    requires Bare(cfg, w) && SweepLimits.Answered(w, o(0))
    ensures var idle := Listing(w.db, o(0).order);
      && Distinct(idle) && |IdleUsers(w.db)| == |idle|
      && (forall g :: 0 <= g < |idle| ==> RowIs(w, idle[g]))
  {
    hide RowsAgree, ObjectsAgree, IdleIds, Lists, IdleUsers, Listed, RowIs, Known, Distinct;
    var idle := Listing(w.db, o(0).order);
    SweepForm.ListingForm(cfg, w, o(0).order);
    forall x: TenantId
      ensures Listed(idle, x) <==> x in IdleIds(w.db)
    {
      if Listed(idle, x) { ListedIsIdle(cfg, w, o(0).order, x); }
    }
    CountIdle(cfg, w, idle);
  }

  lemma SweepWorld(cfg: Config, w: World, o: Oracle)
    requires !cfg.K8s() && Bare(cfg, w) && Smooth(cfg, w, Querying(w.db.clock), o, 0, true)
    ensures RowsAgree(w.db)
    ensures var (w', p, _) := Drive(cfg, w, Querying(w.db.clock), o, 0);
      && w'.kube == w.kube && w'.db.byUser == w.db.byUser && w'.db.issued == w.db.issued
      && OutcomeOf(p) == Tidied(|IdleUsers(w.db)|, 0)
  {
    hide Drive, Smooth, RowsAgree, ObjectsAgree, StartSweep, IdleIds, Lists, IdleUsers, Orderly, AllWell, TurnOf,
      RowIs, Distinct, CallSlot;
    var begin := w.db.clock;
    QueryIsClean(cfg, w, begin, o, 0);
    QueryStep(cfg, w, begin, o, 0, Await);
    ListsIdle(cfg, w, o);
    var idle := Listing(w.db, o(0).order);
    if idle == [] {
      IdleSweeper.EmptySweep(cfg, begin, begin);
      Lockstep.Ends(cfg, w, Sleeping(begin, None), o, 1);
    } else {
      StartTurn(cfg, w, begin, idle, begin, 0);
      StartsWell(cfg, begin, idle, begin);
      CleanSweep(cfg, w, StartSweep(cfg, begin, idle, begin).sweep, o, 1);
    }
  }

  lemma StartsWell(cfg: Config, begin: nat, idle: seq<Tenant>, now: nat)
    requires idle != []
    ensures AllWell(StartSweep(cfg, begin, idle, now).sweep)
  {
    SpawnedFresh(cfg, Batch(idle, 0));
    hide Batch, Spawned;
  }

  lemma SweepRow(cfg: Config, w: World, o: Oracle, t: TenantId)
    requires !cfg.K8s() && Bare(cfg, w) && Smooth(cfg, w, Querying(w.db.clock), o, 0, true)
    ensures var w' := Drive(cfg, w, Querying(w.db.clock), o, 0).0;
      && (t in w.db.rows <==> t in w'.db.rows)
      && (t in w.db.rows ==>
            w'.db.rows[t].tenant.status == if t in IdleIds(w.db) then Suspended else w.db.rows[t].tenant.status)
  {
    assert t in IdleIds(w.db) ==> t in w.db.rows;
    hide Drive, Smooth, RowsAgree, ObjectsAgree, IdleIds, Lists, CallSlot;
    var begin := w.db.clock;
    QueryIsClean(cfg, w, begin, o, 0);
    if t in IdleIds(w.db) {
      SweepWithoutCluster(cfg, w, begin, o, 0, t);
      SlotIsClean(cfg, w, Querying(begin), o, 0, MarkCallOf(t));
    } else {
      SweepSparesTheRest(cfg, w, begin, o, 0, t);
    }
  }

  lemma SweepUser(cfg: Config, w: World, o: Oracle, u: UserId)
    requires !cfg.K8s() && Bare(cfg, w) && Smooth(cfg, w, Querying(w.db.clock), o, 0, true) && u in w.db.byUser
    requires var w' := Drive(cfg, w, Querying(w.db.clock), o, 0).0; RowsAgree(w'.db) && w'.db.byUser == w.db.byUser
    ensures var w' := Drive(cfg, w, Querying(w.db.clock), o, 0).0;
      && u in View(w.db) && u in View(w'.db)
      && View(w'.db)[u] == if u in IdleUsers(w.db) then Suspended else View(w.db)[u]
  {
    SweepRow(cfg, w, o, w.db.byUser[u]);
    IdleByUser(cfg, w, u);
    hide Drive, Smooth, ObjectsAgree, IdleIds, IdleUsers;
  }

  lemma SweepIsBare(cfg: Config, w: World, o: Oracle)
    requires !cfg.K8s() && Bare(cfg, w) && Smooth(cfg, w, Querying(w.db.clock), o, 0, true)
    ensures BareRefines(cfg, w, SweepCall, o)
  {
    hide Drive, Smooth, RowsAgree, ObjectsAgree, IdleIds, IdleUsers, View;
    var w' := Drive(cfg, w, Querying(w.db.clock), o, 0).0;
    DriveAgrees(cfg, w, Querying(w.db.clock), o, 0);
    SweepWorld(cfg, w, o);
    forall t | t in w'.db.rows
      ensures w'.db.rows[t].tenant.status in {Provisioning, Ready, Suspended}
    {
      SweepRow(cfg, w, o, t);
    }
    ViewUsers(w.db);
    ViewUsers(w'.db);
    forall u | u in w.db.byUser
      ensures View(w'.db)[u] == if u in IdleUsers(w.db) then Suspended else View(w.db)[u]
    {
      SweepUser(cfg, w, o, u);
    }
    var idle := IdleUsers(w.db);
    assert View(w'.db) == map u | u in View(w.db) :: if u in idle then Suspended else View(w.db)[u];
    assert BareStep(View(w.db), StopIdle(idle)) == (View(w'.db), Tidied(|idle|, 0));
    assert BareMove(cfg, w, SweepCall, o) == StopIdle(idle);
  }

  lemma ViewUsers(db: Db)
    requires RowsAgree(db)
    ensures View(db).Keys == db.byUser.Keys
  {
  }

  // --- Whole runs ---

  lemma LaterIsBare(cfg: Config, w: World, amount: nat)
    requires Bare(cfg, w)
    ensures var w' := w.(db := w.db.(clock := w.db.clock + amount));
      RowsAgree(w.db) && RowsAgree(w'.db) && Bare(cfg, w') && View(w'.db) == View(w.db)
  {
    hide Genuine;
    assert WorldAgrees(cfg, w.(db := w.db.(clock := w.db.clock + amount)));
  }

  lemma PauseIsBare(cfg: Config, w: World, amount: nat, o: Oracle)
    requires Bare(cfg, w)
    ensures BareRefines(cfg, w, Pause(amount), o)
  {
    hide Bare, View, RowsAgree, Drive, OutcomeOf;
    LaterIsBare(cfg, w, amount);
  }

  lemma OpIsBare(cfg: Config, w: World, op: Op, o: Oracle)
    requires !cfg.K8s() && Bare(cfg, w) && Faultless(cfg, w, op, o)
    ensures BareRefines(cfg, w, op, o)
  {
    hide Smooth, Bare, BareRefines;
    match op
    case Session(u) => SessionIsBare(cfg, w, u, o);
    case SuspendCall(u) => SuspendIsBare(cfg, w, u, o);
    case DeleteCall(u) => DeleteIsBare(cfg, w, u, o);
    case SweepCall => SweepIsBare(cfg, w, o);
    case Pause(amount) => PauseIsBare(cfg, w, amount, o);
  }

  function BareSteps(m: Machine, moves: seq<Move>): (Machine, seq<Outcome>)
    decreases |moves|
  {
    if moves == [] then (m, [])
    else
      var (m', outcome) := BareStep(m, moves[0]);
      var (end, outcomes) := BareSteps(m', moves[1..]);
      (end, [outcome] + outcomes)
  }

  function BareMoves(cfg: Config, w: World, requests: seq<Request>): seq<Move>
    decreases |requests|
  {
    if requests == [] then []
    else
      [BareMove(cfg, w, requests[0].op, requests[0].o)]
      + BareMoves(cfg, Perform(cfg, w, requests[0].op, requests[0].o).0, requests[1..])
  }

  lemma {:induction false} RunIsBare(cfg: Config, w: World, requests: seq<Request>)
    requires !cfg.K8s() && Bare(cfg, w) && FaultlessRun(cfg, w, requests)
    ensures RowsAgree(w.db)
    ensures var (w', outcomes) := Run(cfg, w, requests);
      && Bare(cfg, w') && w'.kube == w.kube
      && (View(w'.db), outcomes) == BareSteps(View(w.db), BareMoves(cfg, w, requests))
    decreases |requests|
  {
    hide Perform, Faultless, BareMove, BareStep, RowsAgree, ObjectsAgree, View;
    if requests != [] {
      OpIsBare(cfg, w, requests[0].op, requests[0].o);
      var w' := Perform(cfg, w, requests[0].op, requests[0].o).0;
      RunIsBare(cfg, w', requests[1..]);
      var moves := BareMoves(cfg, w, requests);
      assert moves[0] == BareMove(cfg, w, requests[0].op, requests[0].o);
      assert moves[1..] == BareMoves(cfg, w', requests[1..]);
    }
  }

  /**
   * Without Kubernetes, from an empty table, after any sequence of fault-free
   * session, suspend, delete and sweep calls by any users, with time passing in
   * between: every answer and the users' statuses are those of the machine, no row
   * is Error or Pending, and no object exists.
   */
  lemma SerialCallsRefineTheRowMachine(cfg: Config, requests: seq<Request>)
    requires !cfg.K8s() && FaultlessRun(cfg, EMPTY, requests)
    ensures var (w, outcomes) := Run(cfg, EMPTY, requests);
      && RowsAgree(w.db)
      && (View(w.db), outcomes) == BareSteps(map[], BareMoves(cfg, EMPTY, requests))
      && w.kube.objs == map[]
      && (forall t :: t in w.db.rows ==> w.db.rows[t].tenant.status in {Provisioning, Ready, Suspended})
  {
    EmptyIsExact(cfg);
    assert Bare(cfg, EMPTY);
    hide Run, FaultlessRun, BareMoves, BareSteps, RowsAgree, ObjectsAgree, View;
    RunIsBare(cfg, EMPTY, requests);
  }
}
