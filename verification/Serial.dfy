/** One handler at a time: running a handler to its end without interleaving. */
module Serial {
  import opened Types
  import opened Manifests
  import opened World
  import opened Handlers
  import opened Protocol

  /** The environment's choices, one for each call in turn. */
  type Oracle = nat -> Choice

  /** A branch that is in flight when the oracle names none. */
  function SomeBranch(p: Proc): nat {
    match p
    case Creating(_, _, Storage(pvc, _)) => if pvc == Todo then 0 else 1
    case Creating(_, _, Network(_, service, _)) => if service == Todo then 0 else 1
    case DeleteFront(_, route, service, _) => if route then 0 else if service then 1 else 2
    case DeleteBack(_, secret, _) => if secret then 0 else 1
    case Sweeping(s) => if CanAwait(s) then |s.tasks| else s.awaited
    case _ => 0
  }

  function Pick(cfg: Config, p: Proc, i: nat): nat {
    if CallAt(cfg, p, i).Some? then i else SomeBranch(p)
  }

  /** A handler that has answered, or a sweeper that has gone to sleep. */
  predicate Halted(cfg: Config, p: Proc, i: nat) {
    p.Sleeping? || CallAt(cfg, p, Pick(cfg, p, i)).None?
  }

  function ProvRank(pv: Prov): nat {
    match pv
    case Client => 7
    case Storage(pvc, secret) => 4 + (if pvc == Todo then 1 else 0) + (if secret == Todo then 1 else 0)
    case Compute(_) => 4
    case Network(_, service, route) => 1 + (if service == Todo then 1 else 0) + (if route == Todo then 1 else 0)
    case Finished(_, _) => 0
  }

  function TaskRank(k: Task): nat {
    match k.stage case Kill => 2 case Mark => 1 case Over(_) => 0
  }

  function TaskRanks(tasks: seq<Task>): nat {
    if tasks == [] then 0 else TaskRank(tasks[0]) + TaskRanks(tasks[1..])
  }

  function Remaining(s: Sweep): nat {
    var next := (s.chunk + 1) * MAX_CONCURRENT_SUSPENSIONS;
    if next < |s.idle| then |s.idle| - next else 0
  }

  /** A bound on the calls a handler still makes. */
  function Rank(p: Proc): nat {
    match p
    case SessionFind(_) => 20
    case SessionInsert(_) => 19
    case Touching(_) => 18
    case Waking(_) => 2
    case WakeMark(_) => 1
    case Probing(_, isNew) => if isNew then 2 else 16
    case ReadyMark(_, _) => 1
    case Checking(_) => 15
    case Creating(_, _, pv) => 4 + ProvRank(pv)
    case CreateMark(_) => 1
    case ErrorMark(_) => 1
    case SuspendFind(_) => 20
    case SuspendKill(_) => 2
    case SuspendMark(_) => 1
    case DeleteFind(_) => 20
    case DeleteClient(_) => 12
    case DeleteFront(_, route, service, pod) =>
      7 + (if route then 1 else 0) + (if service then 1 else 0) + (if pod then 1 else 0)
    case DeleteBack(_, secret, pvc) => 4 + (if secret then 1 else 0) + (if pvc then 1 else 0)
    case DeleteLast(_) => 1
    case AuthFind(_) => 20
    case AuthTouch(_, _) => 1
    case StatusFind(_) => 20
    case Sweeping(s) =>
      3 * Remaining(s) + TaskRanks(s.tasks) + (if s.awaited < |s.tasks| then |s.tasks| - s.awaited else 0)
    case _ => 0
  }

  lemma {:induction false} TaskRanksUpdate(tasks: seq<Task>, i: nat, k: Task)
    requires i < |tasks|
    ensures TaskRanks(tasks[i := k]) + TaskRank(tasks[i]) == TaskRanks(tasks) + TaskRank(k)
  {
    if i == 0 {
      assert tasks[0 := k][1..] == tasks[1..];
    } else {
      assert tasks[i := k][1..] == tasks[1..][i - 1 := k];
      TaskRanksUpdate(tasks[1..], i - 1, k);
    }
  }

  lemma {:induction false} TaskRanksBound(tasks: seq<Task>)
    ensures TaskRanks(tasks) <= 2 * |tasks|
  {
    if tasks != [] { TaskRanksBound(tasks[1..]); }
  }

  lemma AwaitRankDrops(cfg: Config, s: Sweep, now: nat)
    requires CanAwait(s)
    ensures Rank(AwaitStep(cfg, s, now)) < Rank(Sweeping(s))
  {
    hide TaskRanks, Spawned;
    if s.awaited + 1 == |s.tasks| {
      TaskRanksBound(Spawned(cfg, Batch(s.idle, s.chunk + 1)));
      NextBatchSize(cfg, s);
      hide Batch, Remaining;
    }
  }

  lemma NextBatchSize(cfg: Config, s: Sweep)
    ensures var rest := Batch(s.idle, s.chunk + 1);
      |Spawned(cfg, rest)| == |rest| && Remaining(s.(chunk := s.chunk + 1)) + |rest| == Remaining(s)
  {
  }

  lemma SweepRankDrops(cfg: Config, s: Sweep, i: nat, r: Reply, now: nat)
    requires CallAt(cfg, Sweeping(s), i).Some?
    ensures Rank(SweeperResume(cfg, Sweeping(s), i, r, now)) < Rank(Sweeping(s))
  {
    if i < |s.tasks| {
      TaskRanksUpdate(s.tasks, i, TaskResume(s.tasks[i], r));
      hide TaskRanks, KeyOf;
    } else {
      AwaitRankDrops(cfg, s, now);
      hide TaskRanks, AwaitStep, KeyOf;
    }
  }

  lemma ProvRankDrops(spec: TenantSpec, pv: Prov, i: nat, r: Reply)
    requires ProvCall(spec, pv, i).Some?
    ensures ProvRank(ProvResume(spec, pv, i, r)) < ProvRank(pv)
  {
    hide KeyOf, BuildPvc, BuildSecret, BuildPod, BuildService, BuildRoute;
  }

  lemma CreatingRankDrops(cfg: Config, tn: Tenant, isNew: bool, pv: Prov, i: nat, r: Reply)
    requires CallAt(cfg, Creating(tn, isNew, pv), i).Some?
    ensures Rank(SessionResume(cfg, Creating(tn, isNew, pv), i, r)) < Rank(Creating(tn, isNew, pv))
  {
    ProvRankDrops(SpecOf(cfg, tn.tenantId, tn.token), pv, i, r);
    hide KeyOf, ProvCall, ProvResume, ProvRank;
  }

  lemma SessionRankDrops(cfg: Config, p: Proc, i: nat, r: Reply)
    requires IsSession(p) && CallAt(cfg, p, i).Some?
    ensures Rank(SessionResume(cfg, p, i, r)) < Rank(p)
  {
    assert ProvRank(Client) == 7;
    if p.Creating? {
      hide CallAt, SessionResume, Rank;
      CreatingRankDrops(cfg, p.tn, p.isNew, p.prov, i, r);
    } else {
      hide CallAt, ProvCall, ProvResume, ProvRank, AfterProv, NewUrl, PublicUrl, ResponseToken;
    }
  }

  lemma RequestRankDrops(cfg: Config, p: Proc, i: nat, r: Reply)
    requires !IsSession(p) && !IsSweeper(p) && CallAt(cfg, p, i).Some?
    ensures Rank(RequestResume(cfg, p, i, r)) < Rank(p)
  {
    hide KeyOf, ProvCall, ProvRank, TaskRanks;
  }

  /** Every call brings a handler closer to its end; only a query starts a sweep of any length. */
  lemma RankDrops(cfg: Config, p: Proc, i: nat, r: Reply, now: nat)
    requires !p.Sleeping? && CallAt(cfg, p, i).Some?
    ensures var next := Resume(cfg, p, i, r, now);
            !next.Querying? && (!p.Querying? ==> Rank(next) < Rank(p))
  {
    hide KeyOf, CallAt, SessionResume, RequestResume, AwaitStep, TaskStep, Rank;
    if p.Sweeping? {
      SweepRankDrops(cfg, p.sweep, i, r, now);
    } else if !p.Querying? {
      if IsSession(p) { SessionRankDrops(cfg, p, i, r); } else { RequestRankDrops(cfg, p, i, r); }
      NeverQuerying(cfg, p, i, r);
    }
  }

  lemma NeverQuerying(cfg: Config, p: Proc, i: nat, r: Reply)
    requires !IsSweeper(p)
    ensures !(if IsSession(p) then SessionResume(cfg, p, i, r) else RequestResume(cfg, p, i, r)).Querying?
  {
  }

  /** The choice for the next call: the oracle's, with a branch that is in flight. */
  function ChoiceFor(cfg: Config, p: Proc, o: Oracle, n: nat): Choice {
    o(n).(branch := Pick(cfg, p, o(n).branch))
  }

  /** One call of a handler that has not halted. */
  function Advance(cfg: Config, w: World, p: Proc, ch: Choice): (World, Proc)
    requires CallAt(cfg, p, ch.branch).Some?
  {
    var (w', r) := Apply(w, CallAt(cfg, p, ch.branch).value, ch);
    (w', Resume(cfg, p, ch.branch, r, w.db.clock))
  }

  /** The handler alone, call after call, until it halts. */
  function Drive(cfg: Config, w: World, p: Proc, o: Oracle, n: nat): (World, Proc, nat)
    decreases p.Querying?, Rank(p)
  {
    if Halted(cfg, p, o(n).branch) then (w, p, n)
    else
      var ch := ChoiceFor(cfg, p, o, n);
      var r := Apply(w, CallAt(cfg, p, ch.branch).value, ch).1;
      RankDrops(cfg, p, ch.branch, r, w.db.clock);
      var (w', next) := Advance(cfg, w, p, ch);
      Drive(cfg, w', next, o, n + 1)
  }

  /** Nothing goes wrong: every store call, and if kube holds every cluster call, goes as intended. */
  predicate Smooth(cfg: Config, w: World, p: Proc, o: Oracle, n: nat, kube: bool)
    decreases p.Querying?, Rank(p)
  {
    Halted(cfg, p, o(n).branch) ||
    var ch := ChoiceFor(cfg, p, o, n);
    var c := CallAt(cfg, p, ch.branch).value;
    var r := Apply(w, c, ch).1;
    RankDrops(cfg, p, ch.branch, r, w.db.clock);
    var (w', next) := Advance(cfg, w, p, ch);
    && SmoothCall(w, c, ch, kube)
    && Smooth(cfg, w', next, o, n + 1, kube)
  }

  predicate SmoothCall(w: World, c: Call, ch: Choice, kube: bool) {
    && (IsStoreCall(c) || kube ==> ch.fate == Clean)
    && (c.Insert? ==> ch.tenantId !in w.db.issued)
    && (c.FindIdle? ==> Lists(ch.order, IdleIds(w.db)))
  }

  lemma DriveStep(cfg: Config, w: World, p: Proc, o: Oracle, n: nat)
    requires !Halted(cfg, p, o(n).branch)
    ensures var (w', next) := Advance(cfg, w, p, ChoiceFor(cfg, p, o, n));
            Drive(cfg, w, p, o, n) == Drive(cfg, w', next, o, n + 1)
  {
    hide CallAt, Resume, Apply, Pick;
  }

  // --- Handlers end with an answer ---

  predicate Ended(p: Proc) { p.Done? || p.Crashed? || p.Sleeping? }

  predicate ProvActive(cfg: Config, pv: Prov) {
    match pv
    case Storage(pvc, secret) => pvc == Todo || secret == Todo
    case Network(_, service, route) => (service == Todo || route == Todo) && (route == Todo ==> cfg.domain.Some?)
    case Finished(_, _) => false
    case _ => true
  }

  /** A position that handlers can be in: unless ended, some call is in flight. */
  predicate Active(cfg: Config, p: Proc) {
    match p
    case Waking(_) => cfg.K8s()
    case Checking(_) => cfg.K8s()
    case Creating(_, _, pv) => cfg.K8s() && ProvActive(cfg, pv)
    case DeleteFront(_, route, service, pod) => route || service || pod
    case DeleteBack(_, secret, pvc) => secret || pvc
    case Sweeping(s) => s.awaited < |s.tasks|
    case _ => true
  }

  lemma ActiveHasCall(cfg: Config, p: Proc)
    requires Active(cfg, p) && !Ended(p)
    ensures CallAt(cfg, p, SomeBranch(p)).Some?
  {
    hide KeyOf, BuildPvc, BuildSecret, BuildPod, BuildService, BuildRoute;
  }

  lemma ProvStaysActive(cfg: Config, spec: TenantSpec, pv: Prov, i: nat, r: Reply)
    requires ProvActive(cfg, pv) && spec.domain == cfg.domain && ProvCall(spec, pv, i).Some?
    ensures var next := ProvResume(spec, pv, i, r); next.Finished? || ProvActive(cfg, next)
  {
    hide KeyOf, BuildPvc, BuildSecret, BuildPod, BuildService, BuildRoute;
  }

  lemma SweeperStaysActive(cfg: Config, p: Proc, i: nat, r: Reply, now: nat)
    requires IsSweeper(p) && Active(cfg, p) && CallAt(cfg, p, i).Some?
    ensures Active(cfg, SweeperResume(cfg, p, i, r, now))
  {
    hide KeyOf, Batch, TaskResume;
    if p.Querying? && r.Idle? && r.tenants != [] {
      FirstBatch(r.tenants);
    }
  }

  lemma SessionStaysActive(cfg: Config, p: Proc, i: nat, r: Reply)
    requires IsSession(p) && Active(cfg, p) && CallAt(cfg, p, i).Some?
    ensures Active(cfg, SessionResume(cfg, p, i, r))
  {
    hide KeyOf, ProvResume, ProvCall, ProvActive;
    ClientIsActive(cfg);
    if p.Creating? {
      ProvStaysActive(cfg, SpecOf(cfg, p.tn.tenantId, p.tn.token), p.prov, i, r);
    }
  }

  lemma RequestStaysActive(cfg: Config, p: Proc, i: nat, r: Reply)
    requires !IsSession(p) && !IsSweeper(p) && Active(cfg, p)
    ensures Active(cfg, RequestResume(cfg, p, i, r))
  {
    hide ProvActive;
  }

  lemma StaysActive(cfg: Config, p: Proc, i: nat, r: Reply, now: nat)
    requires Active(cfg, p) && CallAt(cfg, p, i).Some?
    ensures Active(cfg, Resume(cfg, p, i, r, now))
  {
    hide CallAt, Active, SessionResume, RequestResume, SweeperResume;
    if IsSweeper(p) {
      SweeperStaysActive(cfg, p, i, r, now);
    } else if IsSession(p) {
      SessionStaysActive(cfg, p, i, r);
    } else {
      RequestStaysActive(cfg, p, i, r);
    }
  }

  lemma ClientIsActive(cfg: Config)
    ensures ProvActive(cfg, Client)
  {
  }

  lemma FirstBatch(idle: seq<Tenant>)
    requires idle != []
    ensures Batch(idle, 0) != []
  {
  }

  /** Run alone, whatever fails, a handler comes to an answer and a sweeper to its sleep. */
  lemma {:induction false} DriveEnds(cfg: Config, w: World, p: Proc, o: Oracle, n: nat)
    requires Active(cfg, p)
    ensures Ended(Drive(cfg, w, p, o, n).1)
    decreases p.Querying?, Rank(p)
  {
    hide CallAt, Resume, Apply, Rank, Active, SomeBranch;
    if Halted(cfg, p, o(n).branch) {
      if !Ended(p) { ActiveHasCall(cfg, p); }
    } else {
      var ch := ChoiceFor(cfg, p, o, n);
      var r := Apply(w, CallAt(cfg, p, ch.branch).value, ch).1;
      RankDrops(cfg, p, ch.branch, r, w.db.clock);
      StaysActive(cfg, p, ch.branch, r, w.db.clock);
      var (w', next) := Advance(cfg, w, p, ch);
      DriveEnds(cfg, w', next, o, n + 1);
      DriveStep(cfg, w, p, o, n);
    }
  }

  // --- Serial executions are schedules ---

  function Prepend(e: Event, es: Schedule): Schedule {
    (n: nat) => if n == 0 then e else es(n - 1)
  }

  lemma {:induction false} FromPrepend(cfg: Config, s: State, e: Event, es: Schedule, n: nat)
    ensures From(cfg, s, Prepend(e, es), n + 1) == From(cfg, Next(cfg, s, e), es, n)
  {
    hide Next;
    if n > 0 {
      FromPrepend(cfg, s, e, es, n - 1);
      assert Prepend(e, es)(n) == es(n - 1);
    }
  }

  /**
   * What a handler does alone is what some schedule lets it do in any state, so
   * everything proved of all schedules holds of serial executions.
   */
  lemma {:induction false} DriveIsASchedule(cfg: Config, s: State, pid: nat, o: Oracle, n: nat)
      returns (es: Schedule, len: nat)
    requires pid in s.procs
    ensures var (w, p, _) := Drive(cfg, s.w, s.procs[pid], o, n);
            From(cfg, s, es, len).w == w && From(cfg, s, es, len).procs == s.procs[pid := p]
    decreases s.procs[pid].Querying?, Rank(s.procs[pid])
  {
    hide CallAt, Resume, Apply, Rank, Pick;
    var p := s.procs[pid];
    if Halted(cfg, p, o(n).branch) {
      es, len := (k: nat) => Tick(0), 0;
      assert s.procs == s.procs[pid := p];
    } else {
      var ch := ChoiceFor(cfg, p, o, n);
      RankDrops(cfg, p, ch.branch, Apply(s.w, CallAt(cfg, p, ch.branch).value, ch).1, s.w.db.clock);
      DriveStep(cfg, s.w, p, o, n);
      var s' := Next(cfg, s, Act(pid, ch));
      var rest, k := DriveIsASchedule(cfg, s', pid, o, n + 1);
      es, len := Prepend(Act(pid, ch), rest), k + 1;
      FromPrepend(cfg, s, Act(pid, ch), rest, k);
      hide From, Drive;
      assert s'.procs == s.procs[pid := s'.procs[pid]];
    }
  }
}
