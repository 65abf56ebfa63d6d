/** The sweep loop: complete, bounded, and justified, in every interleaving. */
module Sweeps {
  import opened Types
  import opened Manifests
  import opened World
  import opened Handlers
  import opened Protocol
  import opened Agreement

  /** The number of batches for a list: its length over 20, rounded up. */
  function Batches(total: nat): nat {
    (total + MAX_CONCURRENT_SUSPENSIONS - 1) / MAX_CONCURRENT_SUSPENSIONS
  }

  ghost predicate Distinct(idle: seq<Tenant>) {
    forall i, j :: 0 <= i < j < |idle| ==> idle[i].tenantId != idle[j].tenantId
  }

  function First(s: Sweep): nat { s.chunk * MAX_CONCURRENT_SUSPENSIONS }

  /** How often the tenant at position g of the list has been attempted. */
  function Attempted(cfg: Config, s: Sweep, g: nat): nat {
    if g < First(s) then 1
    else if g < First(s) + |s.tasks| && s.tasks[g - First(s)].stage != FirstStage(cfg) then 1
    else 0
  }

  /** The loop invariant of a sweep. */
  ghost predicate InOrder(cfg: Config, s: Sweep) {
    && Distinct(s.idle)
    && First(s) < |s.idle|
    && |s.tasks| == Min(MAX_CONCURRENT_SUSPENSIONS, |s.idle| - First(s))
    && (forall i :: 0 <= i < |s.tasks| ==> s.tasks[i].tenantId == s.idle[First(s) + i].tenantId)
    && (forall i :: 0 <= i < |s.tasks| ==> s.tasks[i].stage == Kill ==> cfg.K8s())
    && s.awaited < |s.tasks|
    && s.suspended + s.failed == First(s) + s.awaited
    && |s.attempts| == |s.idle|
    && (forall g :: 0 <= g < |s.idle| ==> s.attempts[g] == Attempted(cfg, s, g))
  }

  /** What a finished sweep has done. */
  ghost predicate Accounted(r: Report) {
    && r.batches == Batches(r.total)
    && r.suspended + r.failed == r.total
    && |r.attempts| == r.total
    && (forall g :: 0 <= g < r.total ==> r.attempts[g] == 1)
  }

  ghost predicate SweeperInOrder(cfg: Config, p: Proc) {
    && (p.Sweeping? ==> InOrder(cfg, p.sweep))
    && (p.Sleeping? && p.last.Some? ==> Accounted(p.last.value))
  }

  lemma BatchShape(cfg: Config, idle: seq<Tenant>, chunk: nat)
    ensures var lo := chunk * MAX_CONCURRENT_SUSPENSIONS; var tasks := Spawned(cfg, Batch(idle, chunk));
      && (lo < |idle| ==> |tasks| == Min(MAX_CONCURRENT_SUSPENSIONS, |idle| - lo))
      && (lo >= |idle| ==> |tasks| == 0)
      && (forall i :: 0 <= i < |tasks| ==> lo + i < |idle| && tasks[i] == Task(idle[lo + i].tenantId, FirstStage(cfg)))
  {
  }

  lemma StartInOrder(cfg: Config, begin: nat, idle: seq<Tenant>, now: nat)
    requires Distinct(idle)
    ensures SweeperInOrder(cfg, StartSweep(cfg, begin, idle, now))
  {
    BatchShape(cfg, idle, 0);
    hide Batch, Spawned;
  }

  lemma TaskStepInOrder(cfg: Config, s: Sweep, i: nat, r: Reply)
    requires InOrder(cfg, s) && i < |s.tasks| && !s.tasks[i].stage.Over?
    ensures InOrder(cfg, TaskStep(cfg, s, i, r))
  {
    var t := TaskStep(cfg, s, i, r);
    assert t.tasks[i].stage != FirstStage(cfg);
    forall g | 0 <= g < |t.idle|
      ensures t.attempts[g] == Attempted(cfg, t, g)
    {
      assert s.attempts[g] == Attempted(cfg, s, g);
    }
  }

  /** After the last handle of a batch every tenant so far has been attempted once. */
  lemma BatchAttempted(cfg: Config, s: Sweep)
    requires InOrder(cfg, s) && s.awaited + 1 == |s.tasks| && CanAwait(s)
    requires forall i :: 0 <= i < s.awaited ==> s.tasks[i].stage.Over?
    ensures forall g :: 0 <= g < First(s) + |s.tasks| ==> s.attempts[g] == 1
  {
    forall g | 0 <= g < First(s) + |s.tasks|
      ensures s.attempts[g] == 1
    {
      assert s.attempts[g] == Attempted(cfg, s, g);
      if g >= First(s) {
        assert s.tasks[g - First(s)].stage.Over?;
      }
    }
  }

  lemma NextBatchInOrder(cfg: Config, s: Sweep, launch: nat, suspended: nat, failed: nat)
    requires InOrder(cfg, s) && First(s) + |s.tasks| < |s.idle|
    requires suspended + failed == First(s) + |s.tasks|
    requires forall g :: 0 <= g < First(s) + |s.tasks| ==> s.attempts[g] == 1
    ensures InOrder(cfg, s.(chunk := s.chunk + 1, launch := launch, tasks := Spawned(cfg, Batch(s.idle, s.chunk + 1)),
                            awaited := 0, suspended := suspended, failed := failed))
  {
    BatchShape(cfg, s.idle, s.chunk + 1);
    hide Batch, Spawned;
    var t := s.(chunk := s.chunk + 1, launch := launch, tasks := Spawned(cfg, Batch(s.idle, s.chunk + 1)),
                awaited := 0, suspended := suspended, failed := failed);
    assert First(t) == First(s) + |s.tasks|;
    forall g | 0 <= g < |t.idle|
      ensures t.attempts[g] == Attempted(cfg, t, g)
    {
      assert s.attempts[g] == Attempted(cfg, s, g);
    }
  }

  lemma HandleInOrder(cfg: Config, s: Sweep, now: nat)
    requires InOrder(cfg, s) && CanAwait(s) && s.awaited + 1 < |s.tasks|
    ensures SweeperInOrder(cfg, AwaitStep(cfg, s, now))
  {
    NextHandleInOrder(cfg, s);
    hide InOrder, Batch, Spawned, Accounted;
  }

  lemma AwaitStepInOrder(cfg: Config, s: Sweep, now: nat)
    requires InOrder(cfg, s) && CanAwait(s)
    requires forall i :: 0 <= i < s.awaited ==> s.tasks[i].stage.Over?
    ensures SweeperInOrder(cfg, AwaitStep(cfg, s, now))
  {
    hide AwaitStep, InOrder, SweeperInOrder;
    if s.awaited + 1 < |s.tasks| {
      HandleInOrder(cfg, s, now);
    } else {
      BatchEndInOrder(cfg, s, now);
    }
  }

  lemma BatchEndCounts(cfg: Config, s: Sweep)
    requires InOrder(cfg, s) && s.awaited + 1 == |s.tasks|
    ensures s.suspended + s.failed + 1 == First(s) + |s.tasks| <= |s.idle|
    ensures First(s) + |s.tasks| < |s.idle| <==> (s.chunk + 1) * MAX_CONCURRENT_SUSPENSIONS < |s.idle|
    ensures First(s) + |s.tasks| < |s.idle| ==> |s.tasks| == MAX_CONCURRENT_SUSPENSIONS
  {
  }

  lemma BatchEndInOrder(cfg: Config, s: Sweep, now: nat)
    requires InOrder(cfg, s) && CanAwait(s) && s.awaited + 1 == |s.tasks|
    requires forall i :: 0 <= i < s.awaited ==> s.tasks[i].stage.Over?
    ensures SweeperInOrder(cfg, AwaitStep(cfg, s, now))
  {
    hide InOrder, Batch, Spawned, Accounted;
    BatchAttempted(cfg, s);
    BatchEndCounts(cfg, s);
    NextBatch(s.idle, s.chunk + 1);
    var ok := s.tasks[s.awaited].stage.ok;
    var suspended, failed := if ok then s.suspended + 1 else s.suspended, if ok then s.failed else s.failed + 1;
    if First(s) + |s.tasks| < |s.idle| {
      NextBatchInOrder(cfg, s, now, suspended, failed);
    } else {
      ReportAccounted(cfg, s, suspended, failed);
    }
  }

  lemma ReportAccounted(cfg: Config, s: Sweep, suspended: nat, failed: nat)
    requires InOrder(cfg, s) && First(s) + |s.tasks| == |s.idle| && suspended + failed == |s.idle|
    requires forall g :: 0 <= g < |s.idle| ==> s.attempts[g] == 1
    ensures Accounted(Report(|s.idle|, s.chunk + 1, suspended, failed, s.attempts))
    ensures (s.chunk + 1) * MAX_CONCURRENT_SUSPENSIONS >= |s.idle|
  {
  }

  lemma NextBatch(idle: seq<Tenant>, chunk: nat)
    ensures chunk * MAX_CONCURRENT_SUSPENSIONS < |idle| <==> Batch(idle, chunk) != []
  {
  }

  lemma NextHandleInOrder(cfg: Config, s: Sweep)
    requires InOrder(cfg, s) && s.awaited + 1 < |s.tasks|
    ensures InOrder(cfg, s.(awaited := s.awaited + 1, suspended := s.suspended + 1))
    ensures InOrder(cfg, s.(awaited := s.awaited + 1, failed := s.failed + 1))
  {
    forall g | 0 <= g < |s.idle|
      ensures Attempted(cfg, s.(awaited := s.awaited + 1, suspended := s.suspended + 1), g) == Attempted(cfg, s, g)
      ensures Attempted(cfg, s.(awaited := s.awaited + 1, failed := s.failed + 1), g) == Attempted(cfg, s, g)
    {
    }
  }

  /** Handles before the awaited one are over. */
  ghost predicate AwaitedOver(p: Proc) {
    p.Sweeping? ==>
      && p.sweep.awaited <= |p.sweep.tasks|
      && (forall i :: 0 <= i < p.sweep.awaited ==> p.sweep.tasks[i].stage.Over?)
  }

  ghost predicate DistinctReply(r: Reply) {
    r.Idle? ==> Distinct(r.tenants)
  }

  lemma IdleIsDistinct(w: World, c: Call, ch: Choice)
    requires RowsAgree(w.db)
    ensures DistinctReply(Apply(w, c, ch).1)
  {
    hide KeyOf, KeyFor, RemoveRow, SetStatus, SetActive, AddRow, AddObject, RemoveObject;
    if c.FindIdle? && ch.fate == Clean && Lists(ch.order, IdleIds(w.db)) {
      var list := Listing(w.db, ch.order);
      assert forall i :: 0 <= i < |list| ==> list[i].tenantId == ch.order[i];
    }
  }

  lemma SweeperStepInOrder(cfg: Config, p: Proc, i: nat, r: Reply, now: nat)
    requires IsSweeper(p) && CallAt(cfg, p, i).Some?
    requires SweeperInOrder(cfg, p) && AwaitedOver(p) && DistinctReply(r)
    ensures SweeperInOrder(cfg, SweeperResume(cfg, p, i, r, now)) && AwaitedOver(SweeperResume(cfg, p, i, r, now))
  {
    hide InOrder, Accounted, Batch, Spawned, KeyOf;
    match p
    case Sleeping(_, _) =>
    case Querying(begin) =>
      if r.Idle? { StartInOrder(cfg, begin, r.tenants, now); }
    case Sweeping(s) =>
      if i < |s.tasks| { TaskStepInOrder(cfg, s, i, r); } else { AwaitStepInOrder(cfg, s, now); }
  }

  ghost predicate AllInOrder(cfg: Config, s: State) {
    forall pid :: pid in s.procs ==> SweeperInOrder(cfg, s.procs[pid]) && AwaitedOver(s.procs[pid])
  }

  lemma ResumeInOrder(cfg: Config, p: Proc, i: nat, r: Reply, now: nat)
    requires CallAt(cfg, p, i).Some?
    requires SweeperInOrder(cfg, p) && AwaitedOver(p) && DistinctReply(r)
    ensures SweeperInOrder(cfg, Resume(cfg, p, i, r, now)) && AwaitedOver(Resume(cfg, p, i, r, now))
  {
    hide SweeperResume, CallAt, InOrder, Accounted, ProvResume;
    if IsSweeper(p) {
      SweeperStepInOrder(cfg, p, i, r, now);
    }
  }

  lemma StepInOrder(cfg: Config, s: State, e: Event)
    requires AllInOrder(cfg, s) && RowsAgree(s.w.db)
    ensures AllInOrder(cfg, Next(cfg, s, e))
  {
    hide KeyOf, Resume, Apply, CallAt, InOrder, Accounted, RowsAgree;
    if e.Act? && CallOf(cfg, s, e.pid, e.choice).Some? {
      hide SweeperInOrder, AwaitedOver, DistinctReply;
      var c := CallOf(cfg, s, e.pid, e.choice).value;
      IdleIsDistinct(s.w, c, e.choice);
      ResumeInOrder(cfg, s.procs[e.pid], e.choice.branch, Apply(s.w, c, e.choice).1, s.w.db.clock);
    }
  }

  lemma {:induction false} SweepsInOrder(cfg: Config, es: Schedule, n: nat)
    ensures AllInOrder(cfg, At(cfg, es, n))
  {
    if n > 0 {
      hide Next, RowsAgree, ObjectsAgree, ProcAgrees;
      SweepsInOrder(cfg, es, n - 1);
      AlwaysAgrees(cfg, es, n - 1);
      StepInOrder(cfg, At(cfg, es, n - 1), es(n - 1));
    }
  }

  function Unfinished(tasks: seq<Task>): set<nat> {
    set i | 0 <= i < |tasks| && !tasks[i].stage.Over?
  }

  lemma SmallRange(s: set<nat>, n: nat)
    requires forall i :: i in s ==> i < n
    ensures |s| <= n
  {
    if n == 0 {
      assert s == {};
    } else {
      SmallRange(s - {n - 1}, n - 1);
      if n - 1 in s { assert |s| == |s - {n - 1}| + 1; } else { assert s == s - {n - 1}; }
    }
  }

  /**
   * For every list of idle tenants and every interleaving of task steps: a sweep
   * never has more than 20 suspend tasks unfinished, its current batch is the
   * next stretch of the list, no tenant is attempted twice; and when it ends, it
   * ran ceil(total / 20) batches, attempted every listed tenant exactly once,
   * and suspended + failed = total.
   */
  lemma SweepIsCompleteAndBounded(cfg: Config, es: Schedule, n: nat, pid: nat)
    requires pid in At(cfg, es, n).procs
    ensures var p := At(cfg, es, n).procs[pid];
      && (p.Sweeping? ==>
            && |Unfinished(p.sweep.tasks)| <= 20
            && (forall i :: 0 <= i < |p.sweep.tasks| ==>
                  20 * p.sweep.chunk + i < |p.sweep.idle|
                  && p.sweep.tasks[i].tenantId == p.sweep.idle[20 * p.sweep.chunk + i].tenantId)
            && p.sweep.suspended + p.sweep.failed == 20 * p.sweep.chunk + p.sweep.awaited
            && (forall i :: 0 <= i < p.sweep.awaited ==> i < |p.sweep.tasks| && p.sweep.tasks[i].stage.Over?)
            && Distinct(p.sweep.idle)
            && |p.sweep.attempts| == |p.sweep.idle|
            && (forall g :: 0 <= g < |p.sweep.idle| ==> p.sweep.attempts[g] <= 1))
      && (p.Sleeping? && p.last.Some? ==>
            var r := p.last.value;
            && 20 * (r.batches - 1) < r.total <= 20 * r.batches
            && r.suspended + r.failed == r.total == |r.attempts|
            && (forall g :: 0 <= g < r.total ==> r.attempts[g] == 1))
  {
    SweepsInOrder(cfg, es, n);
    hide At;
    var p := At(cfg, es, n).procs[pid];
    assert SweeperInOrder(cfg, p);
    if p.Sweeping? {
      SmallRange(Unfinished(p.sweep.tasks), |p.sweep.tasks|);
    }
  }

  // --- Why a tenant is in a sweep ---

  /** When the sweep queried, every listed tenant was Ready and idle for more than 3600 seconds. */
  predicate QueriedIn(s: State, sweep: Sweep) {
    && s.w.db.clock == sweep.queried
    && forall tn :: tn in sweep.idle ==>
         && tn.tenantId in s.w.db.rows
         && s.w.db.rows[tn.tenantId].tenant.status == Ready
         && s.w.db.rows[tn.tenantId].lastActive + 3600 < sweep.queried
  }

  ghost predicate Queried(cfg: Config, es: Schedule, n: nat, sweep: Sweep) {
    exists j :: 0 <= j <= n && QueriedIn(At(cfg, es, j), sweep)
  }

  lemma QueriedLater(cfg: Config, es: Schedule, n: nat, sweep: Sweep, sweep': Sweep)
    requires Queried(cfg, es, n, sweep) && sweep'.idle == sweep.idle && sweep'.queried == sweep.queried
    ensures Queried(cfg, es, n + 1, sweep')
  {
    hide At;
    var j :| 0 <= j <= n && QueriedIn(At(cfg, es, j), sweep);
    assert QueriedIn(At(cfg, es, j), sweep');
  }

  lemma ListingIsIdle(w: World, order: seq<TenantId>, tn: Tenant)
    requires RowsAgree(w.db) && Lists(order, IdleIds(w.db)) && tn in Listing(w.db, order)
    ensures tn.tenantId in IdleIds(w.db)
  {
    var i :| 0 <= i < |order| && tn == Listing(w.db, order)[i];
    assert order[i] in IdleIds(w.db);
  }

  /** Only the answer of a query starts a sweep. */
  lemma OnlyQueriesStart(cfg: Config, p: Proc, i: nat, r: Reply, now: nat, sweep: Sweep)
    requires !p.Sweeping? && Resume(cfg, p, i, r, now) == Sweeping(sweep)
    ensures p.Querying? && r.Idle? && sweep.idle == r.tenants && sweep.queried == now
  {
    hide ProvResume, Batch, Spawned, PublicUrl, NewUrl, ResponseToken;
  }

  lemma QueryAnswers(cfg: Config, w: World, begin: nat, i: nat, ch: Choice)
    requires CallAt(cfg, Querying(begin), i).Some?
    ensures var r := Apply(w, CallAt(cfg, Querying(begin), i).value, ch).1;
      r.Idle? ==> Lists(ch.order, IdleIds(w.db)) && r.tenants == Listing(w.db, ch.order)
  {
    hide IdleIds, Lists;
  }

  lemma StartsFromQuery(cfg: Config, s: State, p: Proc, i: nat, ch: Choice, sweep: Sweep)
    requires RowsAgree(s.w.db) && CallAt(cfg, p, i).Some? && !p.Sweeping?
    requires Resume(cfg, p, i, Apply(s.w, CallAt(cfg, p, i).value, ch).1, s.w.db.clock) == Sweeping(sweep)
    ensures QueriedIn(s, sweep)
  {
    hide CallAt, Resume, Apply, Lists, RowsAgree;
    OnlyQueriesStart(cfg, p, i, Apply(s.w, CallAt(cfg, p, i).value, ch).1, s.w.db.clock, sweep);
    QueryAnswers(cfg, s.w, p.begin, i, ch);
    forall tn | tn in sweep.idle
      ensures tn.tenantId in IdleIds(s.w.db)
    {
      ListingIsIdle(s.w, ch.order, tn);
    }
  }

  lemma SameList(cfg: Config, p: Proc, i: nat, r: Reply, now: nat, sweep: Sweep)
    requires p.Sweeping? && Resume(cfg, p, i, r, now) == Sweeping(sweep)
    ensures sweep.idle == p.sweep.idle && sweep.queried == p.sweep.queried && sweep.begin == p.sweep.begin
  {
  }

  /** Every sweep in progress, in every run, works on the answer of its own query. */
  lemma {:induction false} SweepsAreJustified(cfg: Config, es: Schedule, n: nat, pid: nat)
    requires pid in At(cfg, es, n).procs && At(cfg, es, n).procs[pid].Sweeping?
    ensures Queried(cfg, es, n, At(cfg, es, n).procs[pid].sweep)
  {
    hide KeyOf, Resume, Apply, CallAt, Queried, QueriedIn, RowsAgree, ObjectsAgree, ProcAgrees;
    if n > 0 {
      AlwaysAgrees(cfg, es, n - 1);
      var s, e := At(cfg, es, n - 1), es(n - 1);
      var sweep := At(cfg, es, n).procs[pid].sweep;
      if pid in s.procs && s.procs[pid].Sweeping? {
        SweepsAreJustified(cfg, es, n - 1, pid);
        if e.Act? && e.pid == pid && CallOf(cfg, s, pid, e.choice).Some? {
          SameList(cfg, s.procs[pid], e.choice.branch,
                   Apply(s.w, CallOf(cfg, s, pid, e.choice).value, e.choice).1, s.w.db.clock, sweep);
        }
        QueriedLater(cfg, es, n - 1, s.procs[pid].sweep, sweep);
      } else {
        StartsFromQuery(cfg, s, s.procs[pid], e.choice.branch, e.choice, sweep);
        QueriedNow(cfg, es, n - 1, sweep);
      }
    }
  }

  lemma QueriedNow(cfg: Config, es: Schedule, n: nat, sweep: Sweep)
    requires QueriedIn(At(cfg, es, n), sweep)
    ensures Queried(cfg, es, n + 1, sweep)
  {
    hide At;
  }

  /**
   * Every tenant a sweep is about to suspend, by Pod or by row, was Ready with
   * last activity strictly older than 3600 seconds when that sweep queried it.
   */
  lemma SweptTenantWasIdle(cfg: Config, es: Schedule, n: nat, pid: nat, i: nat)
    requires pid in At(cfg, es, n).procs && At(cfg, es, n).procs[pid].Sweeping?
    requires i < |At(cfg, es, n).procs[pid].sweep.tasks|
    ensures var sweep := At(cfg, es, n).procs[pid].sweep; var t := sweep.tasks[i].tenantId;
      exists j ::
        && 0 <= j <= n && At(cfg, es, j).w.db.clock == sweep.queried
        && t in At(cfg, es, j).w.db.rows
        && At(cfg, es, j).w.db.rows[t].tenant.status == Ready
        && At(cfg, es, j).w.db.rows[t].lastActive + 3600 < sweep.queried
  {
    SweepsInOrder(cfg, es, n);
    SweepsAreJustified(cfg, es, n, pid);
    hide At;
    var p := At(cfg, es, n).procs[pid];
    assert SweeperInOrder(cfg, p);
    assert p.sweep.idle[First(p.sweep) + i] in p.sweep.idle;
    var j :| 0 <= j <= n && QueriedIn(At(cfg, es, j), p.sweep);
    assert At(cfg, es, j).w.db.clock == p.sweep.queried;
  }

  /** A row that stays keeps or advances its last activity, and the clock never goes back. */
  lemma ActivityGrows(cfg: Config, s: State, e: Event, t: TenantId)
    requires RowsAgree(s.w.db)
    ensures var s' := Next(cfg, s, e);
      && s.w.db.clock <= s'.w.db.clock
      && (t in s.w.db.rows && t in s'.w.db.rows ==> s.w.db.rows[t].lastActive <= s'.w.db.rows[t].lastActive)
      && (t in s.w.db.issued && t !in s.w.db.rows ==> t !in s'.w.db.rows)
      && (t in s.w.db.issued ==> t in s'.w.db.issued)
  {
    hide KeyOf, KeyFor, CallAt, Resume, KubeCall, Doom;
  }

  lemma {:induction false} ActivityKept(cfg: Config, es: Schedule, n: nat, m: nat, t: TenantId)
    requires n <= m && t in At(cfg, es, n).w.db.rows
    ensures At(cfg, es, n).w.db.clock <= At(cfg, es, m).w.db.clock
    ensures t in At(cfg, es, m).w.db.issued
    ensures t in At(cfg, es, m).w.db.rows ==>
              At(cfg, es, n).w.db.rows[t].lastActive <= At(cfg, es, m).w.db.rows[t].lastActive
  {
    hide Next, RowsAgree, ObjectsAgree, ProcAgrees;
    if n == m {
      AlwaysAgrees(cfg, es, n);
      RowIsIssued(At(cfg, es, n).w.db, t);
    } else {
      ActivityKept(cfg, es, n, m - 1, t);
      AlwaysAgrees(cfg, es, m - 1);
      ActivityGrows(cfg, At(cfg, es, m - 1), es(m - 1), t);
    }
  }

  lemma RowIsIssued(db: Db, t: TenantId)
    requires RowsAgree(db) && t in db.rows
    ensures t in db.issued
  {
  }

  /** A tenant active at or after some time is in no answer of a query made up to 3600 seconds later. */
  lemma ActiveIsSpared(cfg: Config, es: Schedule, n: nat, m: nat, t: TenantId, time: nat)
    requires n <= m && t in At(cfg, es, n).w.db.rows && At(cfg, es, n).w.db.rows[t].lastActive >= time
    requires At(cfg, es, m).w.db.clock <= time + 3600
    ensures t !in IdleIds(At(cfg, es, m).w.db)
  {
    ActivityKept(cfg, es, n, m, t);
  }

  /** A touch sets the last activity to the current time. */
  lemma TouchIsNow(w: World, t: TenantId, ch: Choice)
    requires t in w.db.rows && ch.fate != Before
    ensures var w' := Apply(w, Touch(t), ch).0; t in w'.db.rows && w'.db.rows[t].lastActive == w.db.clock
  {
  }

  /**
   * A handler touches tenant t at step n, at time T. The touch takes effect, though
   * its reply may be lost. Then t is in no answer of a query made in [T, T + 3600].
   */
  lemma TouchedIsSpared(cfg: Config, es: Schedule, n: nat, m: nat, t: TenantId)
    requires n < m && t in At(cfg, es, n).w.db.rows && es(n).Act?
    requires CallOf(cfg, At(cfg, es, n), es(n).pid, es(n).choice) == Some(Touch(t)) && es(n).choice.fate != Before
    requires At(cfg, es, m).w.db.clock <= At(cfg, es, n).w.db.clock + 3600
    ensures t !in IdleIds(At(cfg, es, m).w.db)
  {
    hide At, CallOf, IdleIds, Apply, Resume;
    AtStep(cfg, es, n);
    TouchIsNow(At(cfg, es, n).w, t, es(n).choice);
    assert At(cfg, es, n + 1).w == Apply(At(cfg, es, n).w, Touch(t), es(n).choice).0;
    ActiveIsSpared(cfg, es, n + 1, m, t, At(cfg, es, n).w.db.clock);
  }
}
