/**
 * Serialized, fault-free calls refine a machine that knows only the status of
 * each user, and keep the cluster an exact function of the rows.
 */
module Refinement {
  import opened Types
  import opened Manifests
  import opened World
  import opened Handlers
  import opened Agreement
  import opened Serial
  import opened Views
  import opened Sweeps
  import opened SweepForm
  import Requests
  import Isolation

  // --- The machine ---

  type Machine = map<UserId, Status>

  datatype Move =
    | Visit(userId: UserId, healthy: bool)
    | Stop(userId: UserId)
    | Remove(userId: UserId)
    | StopIdle(idle: set<UserId>)
    | Wait

  datatype Outcome =
    | Reported(status: Status)
    | Accepted
    | Refused(code: nat)
    | Tidied(suspended: nat, failed: nat)
    | Nothing

  /** A session creates, wakes or checks; suspend takes Ready only; delete removes; a sweep suspends the idle. */
  function Step(m: Machine, move: Move): (Machine, Outcome) {
    match move
    case Visit(u, healthy) =>
      var status :=
        if u in m && m[u] == Suspended then Provisioning
        else if (u in m && m[u] == Ready) || healthy then Ready
        else Provisioning;
      (m[u := status], Reported(status))
    case Stop(u) =>
      if u !in m then (m, Refused(404))
      else if m[u] != Ready then (m, Refused(409))
      else (m[u := Suspended], Accepted)
    case Remove(u) =>
      if u !in m then (m, Refused(404)) else (m - {u}, Accepted)
    case StopIdle(idle) =>
      (map u | u in m :: if u in idle then Suspended else m[u], Tidied(|idle|, 0))
    case Wait => (m, Nothing)
  }

  /** The machine's run over a list of moves. */
  function Steps(m: Machine, moves: seq<Move>): (Machine, seq<Outcome>)
    decreases |moves|
  {
    if moves == [] then (m, [])
    else
      var (m', outcome) := Step(m, moves[0]);
      var (end, outcomes) := Steps(m', moves[1..]);
      (end, [outcome] + outcomes)
  }

  // --- The cluster as a function of the rows ---

  function StatusOf(db: Db, t: TenantId): Option<Status> {
    if t in db.rows then Some(db.rows[t].tenant.status) else None
  }

  /** All objects for Provisioning and Ready, all but the Pod for Suspended, nothing without a row. */
  function KindsFor(cfg: Config, status: Option<Status>): set<Kind> {
    if status == None then {} else if status == Some(Suspended) then Full(cfg) - {PodK} else Full(cfg)
  }

  predicate ExactFor(cfg: Config, w: World, t: TenantId) {
    && StatusOf(w.db, t) in {None, Some(Provisioning), Some(Ready), Some(Suspended)}
    && Present(w.kube, t) == KindsFor(cfg, StatusOf(w.db, t))
  }

  ghost predicate Exact(cfg: Config, w: World) {
    WorldAgrees(cfg, w) && forall t: TenantId :: ExactFor(cfg, w, t)
  }

  /** Whether the rows call for an object of this name. */
  predicate Wanted(cfg: Config, db: Db, key: Key) {
    var t := OwnerOf(key);
    key == KeyOf(key.kind, t) && key.kind in KindsFor(cfg, StatusOf(db, t))
  }

  /** In an exact world the cluster holds the objects the rows call for, each as built from its row, and no other. */
  lemma ExactCluster(cfg: Config, w: World, key: Key)
    requires Exact(cfg, w)
    ensures key in w.kube.objs <==> Wanted(cfg, w.db, key)
    ensures key in w.kube.objs ==>
      var t := OwnerOf(key);
      && t in w.db.rows && Needs(SpecOf(cfg, t, w.db.rows[t].tenant.token), key.kind)
      && w.kube.objs[key] == Build(key.kind, SpecOf(cfg, t, w.db.rows[t].tenant.token))
  {
    hide KeyOf, OwnerOf, Build, Full;
    var t := OwnerOf(key);
    assert ExactFor(cfg, w, t);
    if key in w.kube.objs {
      var m := w.kube.objs[key];
      assert KeyFor(m) == key && Genuine(cfg, w.db.issued, m);
      assert Has(w.kube, key.kind, t);
      assert key.kind in Present(w.kube, t);
      assert t in w.db.rows && Known(w.db, w.db.rows[t].tenant);
    }
    if Wanted(cfg, w.db, key) {
      assert key.kind in Present(w.kube, t);
    }
  }

  /** Two exact worlds with the same tenants have the same objects. */
  lemma ClusterIsAFunctionOfTheRows(cfg: Config, w: World, w': World)
    requires Exact(cfg, w) && Exact(cfg, w') && w.db.rows.Keys == w'.db.rows.Keys
    requires forall t :: t in w.db.rows ==> w.db.rows[t].tenant == w'.db.rows[t].tenant
    ensures w.kube.objs == w'.kube.objs
  {
    hide KeyOf, OwnerOf, Build, Full, Exact;
    forall key: Key
      ensures key in w.kube.objs <==> key in w'.kube.objs
      ensures key in w.kube.objs ==> w.kube.objs[key] == w'.kube.objs[key]
    {
      ExactCluster(cfg, w, key);
      ExactCluster(cfg, w', key);
    }
  }

  /** What the machine sees of the table. */
  ghost function View(db: Db): Machine
    requires RowsAgree(db)
  {
    map u | u in db.byUser :: db.rows[db.byUser[u]].tenant.status
  }

  lemma EmptyIsExact(cfg: Config)
    ensures Exact(cfg, EMPTY) && View(EMPTY.db) == map[]
  {
    hide KeyOf;
  }

  // --- How exactness and the view follow a change to one tenant ---

  lemma ExactAfter(cfg: Config, w: World, w': World, t: TenantId)
    requires Exact(cfg, w) && WorldAgrees(cfg, w') && Elsewhere(w, w', t) && ExactFor(cfg, w', t)
    ensures Exact(cfg, w')
  {
    hide WorldAgrees, Present, Full;
    forall x: TenantId
      ensures ExactFor(cfg, w', x)
    {
      if x != t { ExactKept(cfg, w, w', x); }
    }
  }

  lemma ExactKept(cfg: Config, w: World, w': World, t: TenantId)
    requires ExactFor(cfg, w, t) && Isolation.Untouched(w, w', t)
    ensures ExactFor(cfg, w', t)
  {
    hide Present, Full, KeyOf;
    UntouchedPresent(w, w', t);
  }

  lemma ViewPut(cfg: Config, w: World, w': World, tn: Tenant)
    requires WorldAgrees(cfg, w) && WorldAgrees(cfg, w') && RowIs(w', tn) && Elsewhere(w, w', tn.tenantId)
    requires w'.db.byUser == w.db.byUser[tn.userId := tn.tenantId]
    requires if tn.userId in w.db.byUser then w.db.byUser[tn.userId] == tn.tenantId else tn.tenantId !in w.db.rows
    ensures View(w'.db) == View(w.db)[tn.userId := tn.status]
  {
    hide ObjectsAgree, RowsAgree, KeyOf, Isolation.Untouched, Isolation.UntouchedObject, Elsewhere;
    assert View(w'.db).Keys == View(w.db).Keys + {tn.userId};
    forall v | v in w.db.byUser && v != tn.userId
      ensures View(w'.db)[v] == View(w.db)[v]
    {
      OtherUser(cfg, w, w', tn, v);
    }
  }

  lemma OtherUser(cfg: Config, w: World, w': World, tn: Tenant, v: UserId)
    requires WorldAgrees(cfg, w) && WorldAgrees(cfg, w') && RowIs(w', tn) && Elsewhere(w, w', tn.tenantId)
    requires w'.db.byUser == w.db.byUser[tn.userId := tn.tenantId]
    requires v in w.db.byUser && v != tn.userId
    requires if tn.userId in w.db.byUser then w.db.byUser[tn.userId] == tn.tenantId else tn.tenantId !in w.db.rows
    ensures View(w'.db)[v] == View(w.db)[v]
  {
    hide ObjectsAgree, KeyOf, Isolation.UntouchedObject;
    assert w.db.byUser[v] != tn.tenantId;
    assert Isolation.Untouched(w, w', w.db.byUser[v]);
  }

  lemma ViewRemove(cfg: Config, w: World, w': World, tn: Tenant)
    requires WorldAgrees(cfg, w) && WorldAgrees(cfg, w') && RowIs(w, tn)
    requires w'.db == RemoveRow(w.db, tn.tenantId)
    ensures View(w'.db) == View(w.db) - {tn.userId}
  {
    hide ObjectsAgree, KeyOf;
  }

  /** Whatever a request does alone, the world stays consistent. */
  lemma {:induction false} DriveAgrees(cfg: Config, w: World, p: Proc, o: Oracle, n: nat)
    requires WorldAgrees(cfg, w) && ProcAgrees(w.db, p)
    ensures WorldAgrees(cfg, Drive(cfg, w, p, o, n).0)
    decreases p.Querying?, Rank(p)
  {
    hide CallAt, Resume, Apply, Rank, Pick, WorldAgrees, ProcAgrees;
    if !Halted(cfg, p, o(n).branch) {
      var ch := ChoiceFor(cfg, p, o, n);
      RankDrops(cfg, p, ch.branch, Apply(w, CallAt(cfg, p, ch.branch).value, ch).1, w.db.clock);
      AdvanceAgrees(cfg, w, p, ch);
      var (w', next) := Advance(cfg, w, p, ch);
      DriveAgrees(cfg, w', next, o, n + 1);
      DriveStep(cfg, w, p, o, n);
    }
  }

  // --- Calls ---

  datatype Op =
    | Session(userId: UserId)
    | SuspendCall(userId: UserId)
    | DeleteCall(userId: UserId)
    | SweepCall
    | Pause(amount: nat)

  function Start(op: Op, now: nat): Proc
    requires !op.Pause?
  {
    match op
    case Session(u) => SessionFind(u)
    case SuspendCall(u) => SuspendFind(u)
    case DeleteCall(u) => DeleteFind(u)
    case SweepCall => Querying(now)
  }

  /** One call run to its end, or time passing. */
  function Perform(cfg: Config, w: World, op: Op, o: Oracle): (World, Outcome) {
    if op.Pause? then (w.(db := w.db.(clock := w.db.clock + op.amount)), Nothing)
    else
      var (w', p, _) := Drive(cfg, w, Start(op, w.db.clock), o, 0);
      (w', OutcomeOf(p))
  }

  function OutcomeOf(p: Proc): Outcome {
    match p
    case Done(SessionOk(_, _, _, status)) => Reported(status)
    case Done(NoContent) => Accepted
    case Done(Fault(code)) => Refused(code)
    case Sleeping(_, None) => Tidied(0, 0)
    case Sleeping(_, Some(r)) => Tidied(r.suspended, r.failed)
    case _ => Nothing
  }

  predicate Faultless(cfg: Config, w: World, op: Op, o: Oracle) {
    op.Pause? || Smooth(cfg, w, Start(op, w.db.clock), o, 0, true)
  }

  /** The users of idle Ready tenants. */
  function IdleUsers(db: Db): set<UserId> {
    set t | t in IdleIds(db) && t in db.rows :: db.rows[t].tenant.userId
  }

  /** The machine's move for a call: the same user, and whether its health check would be answered. */
  function MoveOf(cfg: Config, w: World, op: Op, o: Oracle): Move {
    match op
    case Session(u) =>
      Visit(u, match Lookup(w.db, u)
               case Some(tn) => o(2).healthy && Accepts(cfg, tn)
               case None => o(2 + RunLength(cfg)).healthy)
    case SuspendCall(u) => Stop(u)
    case DeleteCall(u) => Remove(u)
    case SweepCall => StopIdle(IdleUsers(w.db))
    case Pause(_) => Wait
  }

  // --- Each call refines its move ---

  /** What is shown of every call. */
  ghost predicate Refines(cfg: Config, w: World, op: Op, o: Oracle) {
    var (w', outcome) := Perform(cfg, w, op, o);
    && RowsAgree(w.db) && RowsAgree(w'.db)
    && Exact(cfg, w')
    && (View(w'.db), outcome) == Step(View(w.db), MoveOf(cfg, w, op, o))
  }

  /** The machine's status after a visit to a user with a row. */
  function Visited(status: Status, yes: bool): Status {
    if status == Suspended then Provisioning else if status == Ready || yes then Ready else Provisioning
  }

  lemma SessionMoves(cfg: Config, status: Status, yes: bool)
    requires status in {Provisioning, Ready, Suspended}
    ensures var kinds := KindsFor(cfg, Some(status)); var status' := SessionStatus(status, kinds, yes);
      && status' in {Provisioning, Ready}
      && status' == Visited(status, yes)
      && SessionKinds(cfg, status, kinds, yes) == KindsFor(cfg, Some(status'))
      && !(status == Suspended && PodK in kinds)
  {
    FrontIsFull(cfg);
    assert PodK in Full(cfg);
    assert Full(cfg) - {PodK} + {PodK} == Full(cfg);
  }

  lemma ExactAt(cfg: Config, w: World, tn: Tenant, kinds: set<Kind>)
    requires RowIs(w, tn) && tn.status in {Provisioning, Ready, Suspended}
    requires Present(w.kube, tn.tenantId) == kinds == KindsFor(cfg, Some(tn.status))
    ensures ExactFor(cfg, w, tn.tenantId)
  {
  }

  lemma ExactRow(cfg: Config, w: World, u: UserId)
    requires Exact(cfg, w) && u in w.db.byUser
    ensures Lookup(w.db, u).Some?
    ensures var tn := Lookup(w.db, u).value;
      && tn.tenantId == w.db.byUser[u] && tn.userId == u && RowIs(w, tn)
      && tn.status in {Provisioning, Ready, Suspended}
      && Present(w.kube, tn.tenantId) == KindsFor(cfg, Some(tn.status))
      && u in View(w.db) && View(w.db)[u] == tn.status
  {
    hide ObjectsAgree, KeyOf, Present, Full;
    assert ExactFor(cfg, w, w.db.byUser[u]);
  }

  /** A user's row ends as tn with the kinds it calls for, and no other tenant is touched. */
  lemma PutRefines(cfg: Config, w: World, w': World, tn: Tenant)
    requires Exact(cfg, w) && WorldAgrees(cfg, w') && RowIs(w', tn) && Elsewhere(w, w', tn.tenantId)
    requires w'.db.byUser == w.db.byUser[tn.userId := tn.tenantId]
    requires if tn.userId in w.db.byUser then w.db.byUser[tn.userId] == tn.tenantId else tn.tenantId !in w.db.rows
    requires tn.status in {Provisioning, Ready, Suspended}
    requires Present(w'.kube, tn.tenantId) == KindsFor(cfg, Some(tn.status))
    ensures Exact(cfg, w') && View(w'.db) == View(w.db)[tn.userId := tn.status]
  {
    hide WorldAgrees, Present, Elsewhere, RowIs, KindsFor, ExactFor, View;
    ExactAt(cfg, w', tn, Present(w'.kube, tn.tenantId));
    ExactAfter(cfg, w, w', tn.tenantId);
    ViewPut(cfg, w, w', tn);
  }

  lemma SessionOnExactRow(cfg: Config, w: World, u: UserId, o: Oracle)
    requires cfg.K8s() && Exact(cfg, w) && Smooth(cfg, w, SessionFind(u), o, 0, true) && u in w.db.byUser
    ensures Lookup(w.db, u).Some?
    ensures var tn := Lookup(w.db, u).value; var yes := o(2).healthy && Accepts(cfg, tn);
      var status := Visited(tn.status, yes);
      var (w', p, _) := Drive(cfg, w, SessionFind(u), o, 0);
      && Exact(cfg, w') && View(w'.db) == View(w.db)[u := status] && OutcomeOf(p) == Reported(status)
      && u in View(w.db) && View(w.db)[u] == tn.status
  {
    hide Drive, Smooth, Present, SessionStatus, SessionKinds, Elsewhere, Accepts, Known, Lookup, RowIs, Full,
      WorldAgrees, KindsFor, ExactFor, View, SessionAnswer;
    ExactRow(cfg, w, u);
    SessionOnRow(cfg, w, u, o, 0);
    var (w', p, _) := Drive(cfg, w, SessionFind(u), o, 0);
    var tn := Lookup(w.db, u).value;
    var yes := o(2).healthy && Accepts(cfg, tn);
    var kinds := Present(w.kube, tn.tenantId);
    SessionMoves(cfg, tn.status, yes);
    assert w.db.byUser == w.db.byUser[u := tn.tenantId];
    PutRefines(cfg, w, w', tn.(status := SessionStatus(tn.status, kinds, yes)));
    AnswerOutcome(cfg, tn, kinds, yes);
  }

  lemma AnswerOutcome(cfg: Config, tn: Tenant, kinds: set<Kind>, yes: bool)
    requires !(tn.status == Suspended && PodK in kinds) && SessionStatus(tn.status, kinds, yes) != Error
    ensures OutcomeOf(Done(SessionAnswer(cfg, tn, kinds, yes))) == Reported(SessionStatus(tn.status, kinds, yes))
  {
  }

  lemma FirstSession(cfg: Config, w: World, u: UserId, o: Oracle)
    requires cfg.K8s() && Exact(cfg, w) && Smooth(cfg, w, SessionFind(u), o, 0, true) && u !in w.db.byUser
    ensures var status := if o(2 + RunLength(cfg)).healthy then Ready else Provisioning;
      var (w', p, _) := Drive(cfg, w, SessionFind(u), o, 0);
      && Exact(cfg, w') && View(w'.db) == View(w.db)[u := status] && OutcomeOf(p) == Reported(status)
      && Lookup(w.db, u) == None && u !in View(w.db)
  {
    hide Drive, Smooth, Present, Elsewhere, RowIs, Full, WorldAgrees, KindsFor, Exact, PublicUrl, ResponseToken,
      RunLength, Lookup, View;
    assert WorldAgrees(cfg, w) by { ExactAgrees(cfg, w); }
    SessionWithoutRow(cfg, w, u, o, 0);
    var (w', p, _) := Drive(cfg, w, SessionFind(u), o, 0);
    var tn := Tenant(u, o(1).tenantId, o(1).token, if o(2 + RunLength(cfg)).healthy then Ready else Provisioning);
    RunningKinds(cfg, tn.status);
    if tn.tenantId in w.db.rows { RowsAreIssued(cfg, w, tn.tenantId); }
    PutRefines(cfg, w, w', tn);
    Absent(cfg, w, u);
  }

  lemma ExactAgrees(cfg: Config, w: World)
    requires Exact(cfg, w)
    ensures WorldAgrees(cfg, w)
  {
  }

  lemma RunningKinds(cfg: Config, status: Status)
    ensures status != Suspended ==> KindsFor(cfg, Some(status)) == Full(cfg)
  {
  }

  lemma Absent(cfg: Config, w: World, u: UserId)
    requires WorldAgrees(cfg, w) && u !in w.db.byUser
    ensures Lookup(w.db, u) == None && u !in View(w.db)
  {
  }

  lemma RowsAreIssued(cfg: Config, w: World, t: TenantId)
    requires WorldAgrees(cfg, w) && t in w.db.rows
    ensures t in w.db.issued
  {
  }

  lemma SessionRefines(cfg: Config, w: World, u: UserId, o: Oracle)
    requires cfg.K8s() && Exact(cfg, w) && Smooth(cfg, w, SessionFind(u), o, 0, true)
    ensures Refines(cfg, w, Session(u), o)
  {
    hide Drive, Smooth, Accepts, Lookup, ExactFor, View, RunLength, RowsAgree, ObjectsAgree;
    if u in w.db.byUser {
      SessionOnExactRow(cfg, w, u, o);
    } else {
      FirstSession(cfg, w, u, o);
    }
  }

  lemma SuspendRefines(cfg: Config, w: World, u: UserId, o: Oracle)
    requires cfg.K8s() && Exact(cfg, w) && Smooth(cfg, w, SuspendFind(u), o, 0, true)
    ensures Refines(cfg, w, SuspendCall(u), o)
  {
    hide Drive, Smooth, Present, Elsewhere, RowIs, Full, KindsFor, ExactFor, View, Lookup, SetStatus, RowsAgree,
        ObjectsAgree;
    DriveAgrees(cfg, w, SuspendFind(u), o, 0);
    if u in w.db.byUser {
      ExactRow(cfg, w, u);
      Requests.SuspendOnRow(cfg, w, u, o, 0);
      var tn := Lookup(w.db, u).value;
      var w' := Drive(cfg, w, SuspendFind(u), o, 0).0;
      if tn.status == Ready {
        SuspendedKinds(cfg);
        SetStatusIndex(w.db, tn.tenantId, Suspended);
        assert w.db.byUser == w.db.byUser[u := tn.tenantId];
        PutRefines(cfg, w, w', tn.(status := Suspended));
      }
    } else {
      Requests.NoRowAnswers404(cfg, w, SuspendFind(u), o, 0);
      Absent(cfg, w, u);
    }
  }

  lemma SuspendedKinds(cfg: Config)
    ensures KindsFor(cfg, Some(Ready)) == Full(cfg) && PodK in Full(cfg)
    ensures KindsFor(cfg, Some(Suspended)) == Full(cfg) - {PodK}
  {
  }

  lemma SetStatusIndex(db: Db, t: TenantId, status: Status)
    ensures SetStatus(db, t, status).byUser == db.byUser
  {
  }

  lemma DeleteRefines(cfg: Config, w: World, u: UserId, o: Oracle)
    requires cfg.K8s() && Exact(cfg, w) && Smooth(cfg, w, DeleteFind(u), o, 0, true)
    ensures Refines(cfg, w, DeleteCall(u), o)
  {
    hide Drive, Smooth, Present, Elsewhere, RowIs, Full, View, Lookup, RowsAgree, ObjectsAgree, RemoveRow;
    DriveAgrees(cfg, w, DeleteFind(u), o, 0);
    if u in w.db.byUser {
      ExactRow(cfg, w, u);
      Requests.DeleteOnRow(cfg, w, u, o, 0);
      var tn := Lookup(w.db, u).value;
      var w' := Drive(cfg, w, DeleteFind(u), o, 0).0;
      assert ExactFor(cfg, w', tn.tenantId);
      ExactAfter(cfg, w, w', tn.tenantId);
      ViewRemove(cfg, w, w', tn);
    } else {
      Requests.NoRowAnswers404(cfg, w, DeleteFind(u), o, 0);
      Absent(cfg, w, u);
    }
  }

  // --- Sweeps ---

  /** In an exact world every idle tenant has a Pod, so every suspension goes through. */
  lemma IdleHadPod(cfg: Config, w: World, tn: Tenant)
    requires Exact(cfg, w) && RowIs(w, tn) && tn.tenantId in IdleIds(w.db)
    ensures tn.status == Ready && Present(w.kube, tn.tenantId) == Full(cfg) && HadPod(w, tn.tenantId)
  {
    hide WorldAgrees, Present;
    assert ExactFor(cfg, w, tn.tenantId);
  }

  lemma SweptIsExact(cfg: Config, w: World, w': World, idle: seq<Tenant>, report: Report, t: TenantId)
    requires Exact(cfg, w) && Swept(w, w', idle, report)
    requires forall x: TenantId :: Listed(idle, x) <==> x in IdleIds(w.db)
    requires forall g :: 0 <= g < |idle| ==> RowIs(w, idle[g])
    ensures ExactFor(cfg, w', t)
    ensures StatusOf(w'.db, t) == if t in IdleIds(w.db) then Some(Suspended) else StatusOf(w.db, t)
  {
    hide WorldAgrees, Present, Full, KeyOf, IdleIds, HadPod, Isolation.UntouchedObject;
    assert ExactFor(cfg, w, t);
    if Listed(idle, t) {
      var g :| 0 <= g < |idle| && idle[g].tenantId == t;
      IdleHadPod(cfg, w, idle[g]);
      assert TaskForm(w, w', idle[g], Over(true));
      SuspendedKinds(cfg);
    } else {
      assert Isolation.Untouched(w, w', t);
      ExactKept(cfg, w, w', t);
    }
  }

  lemma {:induction false} AllHadPods(w: World, idle: seq<Tenant>, m: nat)
    requires m <= |idle| && forall g :: 0 <= g < |idle| ==> HadPod(w, idle[g].tenantId)
    ensures Pods(w, idle, m) == m
  {
    if m > 0 { AllHadPods(w, idle, m - 1); }
  }

  lemma OneUserEach(db: Db, a: Tenant, b: Tenant)
    requires RowsAgree(db) && a.tenantId != b.tenantId
    requires a.tenantId in db.rows && db.rows[a.tenantId].tenant == a
    requires b.tenantId in db.rows && db.rows[b.tenantId].tenant == b
    ensures a.userId != b.userId
  {
  }

  predicate UserListed(idle: seq<Tenant>, u: UserId) {
    exists g :: 0 <= g < |idle| && idle[g].userId == u
  }

  lemma LastUserListed(idle: seq<Tenant>, u: UserId)
    requires idle != []
    ensures UserListed(idle, u) <==> UserListed(idle[..|idle| - 1], u) || u == idle[|idle| - 1].userId
  {
    var rest, last := idle[..|idle| - 1], idle[|idle| - 1];
    if UserListed(rest, u) {
      var g :| 0 <= g < |rest| && rest[g].userId == u;
      assert idle[g].userId == u;
    }
    if u == last.userId { assert idle[|idle| - 1].userId == u; }
    if UserListed(idle, u) && u != last.userId {
      var g :| 0 <= g < |idle| && idle[g].userId == u;
      assert rest[g].userId == u;
    }
  }

  /** One user for each listed tenant. */
  lemma {:induction false} UsersOfList(db: Db, idle: seq<Tenant>) returns (users: set<UserId>)
    requires RowsAgree(db) && Distinct(idle)
    requires forall g :: 0 <= g < |idle| ==> idle[g].tenantId in db.rows && db.rows[idle[g].tenantId].tenant == idle[g]
    ensures |users| == |idle|
    ensures forall u :: u in users <==> UserListed(idle, u)
  {
    hide RowsAgree;
    if idle == [] {
      users := {};
    } else {
      var rest, last := idle[..|idle| - 1], idle[|idle| - 1];
      var some := UsersOfList(db, rest);
      forall g | 0 <= g < |rest|
        ensures rest[g].userId != last.userId
      {
        assert idle[g] == rest[g] && idle[g].tenantId != last.tenantId;
        OneUserEach(db, idle[g], last);
      }
      users := some + {last.userId};
      hide UserListed, Distinct;
      forall u
        ensures u in users <==> UserListed(idle, u)
      {
        LastUserListed(idle, u);
      }
    }
  }

  lemma CountIdle(cfg: Config, w: World, idle: seq<Tenant>)
    requires WorldAgrees(cfg, w) && Distinct(idle)
    requires forall x: TenantId :: Listed(idle, x) <==> x in IdleIds(w.db)
    requires forall g :: 0 <= g < |idle| ==> RowIs(w, idle[g])
    ensures |IdleUsers(w.db)| == |idle|
  {
    hide ObjectsAgree, IdleIds, Distinct;
    var users := UsersOfList(w.db, idle);
    forall u
      ensures u in users <==> u in IdleUsers(w.db)
    {
      if u in users {
        var g :| 0 <= g < |idle| && idle[g].userId == u;
        assert Listed(idle, idle[g].tenantId);
      }
      if u in IdleUsers(w.db) {
        var t :| t in IdleIds(w.db) && t in w.db.rows && w.db.rows[t].tenant.userId == u;
        assert Listed(idle, t);
        var g :| 0 <= g < |idle| && idle[g].tenantId == t;
        assert idle[g].userId == u;
      }
    }
    assert users == IdleUsers(w.db);
  }

  lemma IdleByUser(cfg: Config, w: World, u: UserId)
    requires WorldAgrees(cfg, w) && u in w.db.byUser
    ensures u in IdleUsers(w.db) <==> w.db.byUser[u] in IdleIds(w.db)
  {
    hide ObjectsAgree, IdleIds;
  }

  lemma SweptUser(cfg: Config, w: World, w': World, idle: seq<Tenant>, report: Report, u: UserId)
    requires Exact(cfg, w) && WorldAgrees(cfg, w') && Swept(w, w', idle, report) && u in w.db.byUser
    requires forall x: TenantId :: Listed(idle, x) <==> x in IdleIds(w.db)
    requires forall g :: 0 <= g < |idle| ==> RowIs(w, idle[g])
    ensures u in View(w'.db) && u in View(w.db)
    ensures View(w'.db)[u] == if u in IdleUsers(w.db) then Suspended else View(w.db)[u]
  {
    SweptIsExact(cfg, w, w', idle, report, w.db.byUser[u]);
    IdleByUser(cfg, w, u);
    hide Present, Full, KeyOf, IdleIds, HadPod, IdleUsers, TaskForm, OthersUntouched, ObjectsAgree, RowIs, Listed,
        ExactFor;
  }

  lemma SweptView(cfg: Config, w: World, w': World, idle: seq<Tenant>, report: Report)
    requires Exact(cfg, w) && WorldAgrees(cfg, w') && Swept(w, w', idle, report)
    requires forall x: TenantId :: Listed(idle, x) <==> x in IdleIds(w.db)
    requires forall g :: 0 <= g < |idle| ==> RowIs(w, idle[g])
    ensures Exact(cfg, w')
    ensures View(w'.db) == map u | u in View(w.db) :: if u in IdleUsers(w.db) then Suspended else View(w.db)[u]
  {
    hide ExactFor, IdleIds, IdleUsers, TaskForm, OthersUntouched, ObjectsAgree, RowsAgree, RowIs, Listed, HadPod;
    assert SameIndex(w.db, w'.db);
    forall t: TenantId
      ensures ExactFor(cfg, w', t)
    {
      SweptIsExact(cfg, w, w', idle, report, t);
    }
    forall u | u in w.db.byUser
      ensures View(w'.db)[u] == if u in IdleUsers(w.db) then Suspended else View(w.db)[u]
    {
      SweptUser(cfg, w, w', idle, report, u);
    }
  }

  /** A fault-free sweep of an exact world suspends the idle tenants, all of them, and fails for none. */
  lemma SweepOnExact(cfg: Config, w: World, o: Oracle, n: nat)
    requires cfg.K8s() && Exact(cfg, w) && Smooth(cfg, w, Querying(w.db.clock), o, n, true)
    ensures RowsAgree(w.db)
    ensures var (w', p, _) := Drive(cfg, w, Querying(w.db.clock), o, n);
      && Exact(cfg, w') && RowsAgree(w'.db)
      && View(w'.db) == (map u | u in View(w.db) :: if u in IdleUsers(w.db) then Suspended else View(w.db)[u])
      && OutcomeOf(p) == Tidied(|IdleUsers(w.db)|, 0)
  {
    hide Drive, Smooth, Present, RowIs, Full, View, RowsAgree, ObjectsAgree, IdleIds, IdleUsers, Listed, ExactFor,
      Known, HadPod, Pods;
    var begin := w.db.clock;
    DriveAgrees(cfg, w, Querying(begin), o, n);
    var idle := SweepOnWorld(cfg, w, begin, o, n);
    var (w', p, _) := Drive(cfg, w, Querying(begin), o, n);
    CountIdle(cfg, w, idle);
    if idle == [] {
      assert IdleUsers(w.db) == {};
      assert View(w.db) == map u | u in View(w.db) :: if u in IdleUsers(w.db) then Suspended else View(w.db)[u];
    } else {
      forall g | 0 <= g < |idle|
        ensures HadPod(w, idle[g].tenantId)
      {
        assert Listed(idle, idle[g].tenantId) by { ListedAt(idle, g); }
        IdleHadPod(cfg, w, idle[g]);
      }
      AllHadPods(w, idle, |idle|);
      SweptView(cfg, w, w', idle, p.last.value);
    }
  }

  lemma SweepRefines(cfg: Config, w: World, o: Oracle)
    requires cfg.K8s() && Exact(cfg, w) && Smooth(cfg, w, Querying(w.db.clock), o, 0, true)
    ensures Refines(cfg, w, SweepCall, o)
  {
    hide Drive, Smooth, View, RowsAgree, ObjectsAgree, IdleUsers, ExactFor;
    SweepOnExact(cfg, w, o, 0);
  }

  lemma ListedAt(idle: seq<Tenant>, g: nat)
    requires g < |idle|
    ensures Listed(idle, idle[g].tenantId)
  {
  }

  // --- Whole runs ---

  lemma PauseRefines(cfg: Config, w: World, amount: nat, o: Oracle)
    requires Exact(cfg, w)
    ensures Refines(cfg, w, Pause(amount), o)
  {
    hide Present, Full, KeyOf, Drive, OutcomeOf, Exact;
    PauseIsExact(cfg, w, amount);
  }

  lemma PauseIsExact(cfg: Config, w: World, amount: nat)
    requires Exact(cfg, w)
    ensures RowsAgree(w.db)
    ensures var w' := w.(db := w.db.(clock := w.db.clock + amount));
      Exact(cfg, w') && RowsAgree(w'.db) && View(w'.db) == View(w.db)
  {
    hide Present, KindsFor, Genuine;
    var w' := w.(db := w.db.(clock := w.db.clock + amount));
    assert WorldAgrees(cfg, w');
    forall t: TenantId
      ensures ExactFor(cfg, w', t)
    {
      assert ExactFor(cfg, w, t);
    }
  }

  lemma OpRefines(cfg: Config, w: World, op: Op, o: Oracle)
    requires cfg.K8s() && Exact(cfg, w) && Faultless(cfg, w, op, o)
    ensures Refines(cfg, w, op, o)
  {
    hide Smooth, Exact, Refines;
    match op
    case Session(u) => SessionRefines(cfg, w, u, o);
    case SuspendCall(u) => SuspendRefines(cfg, w, u, o);
    case DeleteCall(u) => DeleteRefines(cfg, w, u, o);
    case SweepCall => SweepRefines(cfg, w, o);
    case Pause(amount) => PauseRefines(cfg, w, amount, o);
  }

  /** One call of a run, with the environment's choices for it. */
  datatype Request = Request(op: Op, o: Oracle)

  function Run(cfg: Config, w: World, requests: seq<Request>): (World, seq<Outcome>)
    decreases |requests|
  {
    if requests == [] then (w, [])
    else
      var (w', outcome) := Perform(cfg, w, requests[0].op, requests[0].o);
      var (end, outcomes) := Run(cfg, w', requests[1..]);
      (end, [outcome] + outcomes)
  }

  predicate FaultlessRun(cfg: Config, w: World, requests: seq<Request>)
    decreases |requests|
  {
    requests != [] ==>
      && Faultless(cfg, w, requests[0].op, requests[0].o)
      && FaultlessRun(cfg, Perform(cfg, w, requests[0].op, requests[0].o).0, requests[1..])
  }

  function MovesOf(cfg: Config, w: World, requests: seq<Request>): seq<Move>
    decreases |requests|
  {
    if requests == [] then []
    else
      [MoveOf(cfg, w, requests[0].op, requests[0].o)]
      + MovesOf(cfg, Perform(cfg, w, requests[0].op, requests[0].o).0, requests[1..])
  }

  lemma {:induction false} RunRefinesFrom(cfg: Config, w: World, requests: seq<Request>)
    requires cfg.K8s() && Exact(cfg, w) && FaultlessRun(cfg, w, requests)
    ensures RowsAgree(w.db)
    ensures var (w', outcomes) := Run(cfg, w, requests);
      && Exact(cfg, w')
      && (View(w'.db), outcomes) == Steps(View(w.db), MovesOf(cfg, w, requests))
    decreases |requests|
  {
    hide Perform, Faultless, MoveOf, Step, RowsAgree, ObjectsAgree, ExactFor, View;
    if requests != [] {
      OpRefines(cfg, w, requests[0].op, requests[0].o);
      var w' := Perform(cfg, w, requests[0].op, requests[0].o).0;
      RunRefinesFrom(cfg, w', requests[1..]);
      var moves := MovesOf(cfg, w, requests);
      assert moves[0] == MoveOf(cfg, w, requests[0].op, requests[0].o);
      assert moves[1..] == MovesOf(cfg, w', requests[1..]);
    }
  }

  /**
   * Refinement. From an empty table and cluster, after any sequence of fault-free
   * session, suspend, delete and sweep calls by any users, with time passing in
   * between: every answer and the users' statuses are those of the machine, and
   * the cluster holds exactly the objects the rows call for: all for Provisioning
   * and Ready, all but the Pod for Suspended, none without a row. No row is Error
   * or Pending.
   */
  lemma SerialCallsRefineTheMachine(cfg: Config, requests: seq<Request>)
    requires cfg.K8s() && FaultlessRun(cfg, EMPTY, requests)
    ensures var (w, outcomes) := Run(cfg, EMPTY, requests);
      && RowsAgree(w.db)
      && (View(w.db), outcomes) == Steps(map[], MovesOf(cfg, EMPTY, requests))
      && (forall key: Key :: key in w.kube.objs <==> Wanted(cfg, w.db, key))
      && (forall t :: t in w.db.rows ==> w.db.rows[t].tenant.status in {Provisioning, Ready, Suspended})
  {
    hide Run, FaultlessRun, MovesOf, Steps, RowsAgree, ObjectsAgree, View, Wanted, Present;
    EmptyIsExact(cfg);
    RunRefinesFrom(cfg, EMPTY, requests);
    var w := Run(cfg, EMPTY, requests).0;
    forall key: Key
      ensures key in w.kube.objs <==> Wanted(cfg, w.db, key)
    {
      ExactCluster(cfg, w, key);
    }
    forall t | t in w.db.rows
      ensures w.db.rows[t].tenant.status in {Provisioning, Ready, Suspended}
    {
      assert ExactFor(cfg, w, t);
    }
  }
}
