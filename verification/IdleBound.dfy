/** How long an idle tenant can stay Ready. */
module IdleBound {
  import opened Types
  import opened Manifests
  import opened World
  import opened Handlers
  import opened Protocol
  import opened Agreement
  import opened Sweeps

  /**
   * Bounds on one sweep: on its query, on what follows the answer, and on the
   * whole. A bound of D on the whole alone is Timing(D, D, D).
   */
  datatype Timing = Timing(query: nat, rest: nat, whole: nat)

  /** The sweeper wakes up when its sleep is over, and keeps its bounds. */
  predicate OnTime(s: State, pid: nat, tm: Timing) {
    pid in s.procs ==>
      match s.procs[pid]
      case Sleeping(since, _) => s.w.db.clock <= since + SWEEP_INTERVAL
      case Querying(begin) => s.w.db.clock <= begin + tm.query
      case Sweeping(sweep) => s.w.db.clock <= sweep.queried + tm.rest && s.w.db.clock <= sweep.begin + tm.whole
      case _ => true
  }

  /** Every call the sweeper makes succeeds. */
  ghost predicate Succeeds(cfg: Config, s: State, e: Event, pid: nat) {
    e.Act? && e.pid == pid && CallOf(cfg, s, pid, e.choice).Some? ==>
      var c := CallOf(cfg, s, pid, e.choice).value;
      var r := Apply(s.w, c, e.choice).1;
      c.Timer? || r.Ok? || r.Idle?
  }

  /** The times a sweeper has recorded are in order. */
  predicate TimesInOrder(s: State, pid: nat) {
    pid in s.procs ==>
      match s.procs[pid]
      case Sleeping(since, _) => since <= s.w.db.clock
      case Querying(begin) => begin <= s.w.db.clock
      case Sweeping(sweep) =>
        sweep.begin <= sweep.queried <= s.w.db.clock && sweep.queried <= sweep.launch <= s.w.db.clock
      case _ => true
  }

  lemma SweeperTimes(cfg: Config, s: State, pid: nat, ch: Choice)
    requires pid in s.procs && TimesInOrder(s, pid)
    requires CallOf(cfg, s, pid, ch).Some? && IsSweeper(s.procs[pid])
    ensures TimesInOrder(Next(cfg, s, Act(pid, ch)), pid)
  {
    hide KeyOf, KeyFor, Batch, Spawned, TaskStep, StoreCall, KubeCall;
    var p, c := s.procs[pid], CallOf(cfg, s, pid, ch).value;
    assert Next(cfg, s, Act(pid, ch)).w.db.clock == s.w.db.clock by { ClockStill(s.w, c, ch); }
    if p.Sweeping? && ch.branch < |p.sweep.tasks| {
      SameTimes(cfg, p.sweep, ch.branch, Apply(s.w, c, ch).1);
    }
  }

  lemma SameTimes(cfg: Config, sweep: Sweep, i: nat, r: Reply)
    requires i < |sweep.tasks|
    ensures var t := TaskStep(cfg, sweep, i, r);
      t.begin == sweep.begin && t.queried == sweep.queried && t.launch == sweep.launch && t.chunk == sweep.chunk
  {
  }

  lemma ClockStill(w: World, c: Call, ch: Choice)
    ensures Apply(w, c, ch).0.db.clock == w.db.clock
  {
    hide KeyOf, KeyFor, KubeCall;
  }

  /** No handler becomes a sweeper. */
  lemma NotASweeper(cfg: Config, p: Proc, i: nat, r: Reply, now: nat)
    requires !IsSweeper(p)
    ensures !IsSweeper(Resume(cfg, p, i, r, now))
  {
  }

  lemma StepTimes(cfg: Config, s: State, e: Event, pid: nat)
    requires TimesInOrder(s, pid)
    ensures TimesInOrder(Next(cfg, s, e), pid)
  {
    hide KeyOf, Resume, Apply, CallAt;
    if e.Act? && CallOf(cfg, s, e.pid, e.choice).Some? {
      var c := CallOf(cfg, s, e.pid, e.choice).value;
      ClockStill(s.w, c, e.choice);
      if e.pid == pid {
        if IsSweeper(s.procs[pid]) {
          SweeperTimes(cfg, s, pid, e.choice);
        } else {
          NotASweeper(cfg, s.procs[pid], e.choice.branch, Apply(s.w, c, e.choice).1, s.w.db.clock);
        }
      }
    }
  }

  lemma {:induction false} AlwaysTimes(cfg: Config, es: Schedule, m: nat, pid: nat)
    ensures TimesInOrder(At(cfg, es, m), pid)
  {
    if m > 0 {
      hide Next, TimesInOrder;
      AlwaysTimes(cfg, es, m - 1, pid);
      StepTimes(cfg, At(cfg, es, m - 1), es(m - 1), pid);
    }
  }

  // --- One idle tenant ---

  /** Still Ready, with the same last activity. */
  predicate IdleSince(s: State, t: TenantId, last: nat) {
    t in s.w.db.rows && s.w.db.rows[t].tenant.status == Ready && s.w.db.rows[t].lastActive == last
  }

  ghost predicate Waits(sweep: Sweep, t: TenantId) {
    exists i :: 0 <= i < |sweep.tasks| && sweep.tasks[i].tenantId == t && !sweep.tasks[i].stage.Over?
  }

  ghost predicate Ahead(sweep: Sweep, t: TenantId) {
    exists g :: First(sweep) + |sweep.tasks| <= g < |sweep.idle| && sweep.idle[g].tenantId == t
  }

  /** The tenant is in the list, and its turn is not over. */
  ghost predicate Selected(sweep: Sweep, t: TenantId) {
    Waits(sweep, t) || Ahead(sweep, t)
  }

  /**
   * With deadline the last moment at which t does not yet count as idle, the
   * current sweep either has t still before it, or queried by the deadline; and a
   * sleep began no later than a sweep of the latter kind can end.
   */
  ghost predicate OnCourse(s: State, pid: nat, t: TenantId, deadline: nat, tm: Timing) {
    && pid in s.procs
    && match s.procs[pid]
       case Sleeping(since, _) => since <= deadline + tm.rest
       case Querying(begin) => begin <= deadline + tm.rest + SWEEP_INTERVAL
       case Sweeping(sweep) =>
         || sweep.queried <= deadline
         || (&& Selected(sweep, t) && sweep.begin <= deadline + tm.rest + SWEEP_INTERVAL
             && sweep.queried <= sweep.begin + tm.query)
       case _ => false
  }

  lemma QuerySelects(cfg: Config, w: World, begin: nat, order: seq<TenantId>, t: TenantId)
    requires RowsAgree(w.db) && Lists(order, IdleIds(w.db)) && t in IdleIds(w.db)
    ensures var p := StartSweep(cfg, begin, Listing(w.db, order), w.db.clock); p.Sweeping? && Selected(p.sweep, t)
  {
    var list := Listing(w.db, order);
    assert t in order;
    var g :| 0 <= g < |order| && order[g] == t;
    assert list[g].tenantId == t;
    BatchShape(cfg, list, 0);
    hide Batch, Spawned;
    var sweep := StartSweep(cfg, begin, list, w.db.clock).sweep;
    if g < |sweep.tasks| {
      assert sweep.tasks[g].tenantId == t && !sweep.tasks[g].stage.Over?;
    }
  }

  lemma TaskStepSelected(cfg: Config, sweep: Sweep, i: nat, r: Reply, t: TenantId)
    requires Selected(sweep, t) && i < |sweep.tasks| && !sweep.tasks[i].stage.Over?
    requires !(sweep.tasks[i].tenantId == t && TaskResume(sweep.tasks[i], r).stage.Over?)
    ensures Selected(TaskStep(cfg, sweep, i, r), t)
  {
    var next := TaskStep(cfg, sweep, i, r);
    if Waits(sweep, t) {
      var k :| 0 <= k < |sweep.tasks| && sweep.tasks[k].tenantId == t && !sweep.tasks[k].stage.Over?;
      assert next.tasks[k].tenantId == t && !next.tasks[k].stage.Over?;
    } else {
      var g :| First(sweep) + |sweep.tasks| <= g < |sweep.idle| && sweep.idle[g].tenantId == t;
      assert next.idle[g].tenantId == t;
    }
  }

  lemma AllOverMeansAhead(sweep: Sweep, t: TenantId)
    requires Selected(sweep, t) && CanAwait(sweep) && sweep.awaited + 1 == |sweep.tasks|
    requires forall i :: 0 <= i < sweep.awaited ==> sweep.tasks[i].stage.Over?
    ensures Ahead(sweep, t)
  {
  }

  lemma NextBatchSelected(cfg: Config, sweep: Sweep, g: nat, t: TenantId, launch: nat, suspended: nat, failed: nat)
    requires InOrder(cfg, sweep) && First(sweep) + |sweep.tasks| <= g < |sweep.idle| && sweep.idle[g].tenantId == t
    ensures var rest := Batch(sweep.idle, sweep.chunk + 1);
      && rest != []
      && Selected(sweep.(chunk := sweep.chunk + 1, launch := launch, tasks := Spawned(cfg, rest),
                         awaited := 0, suspended := suspended, failed := failed), t)
  {
    BatchShape(cfg, sweep.idle, sweep.chunk + 1);
    NextBatch(sweep.idle, sweep.chunk + 1);
    hide Batch, Spawned;
    var next := sweep.(chunk := sweep.chunk + 1, launch := launch,
                       tasks := Spawned(cfg, Batch(sweep.idle, sweep.chunk + 1)),
                       awaited := 0, suspended := suspended, failed := failed);
    if g < First(next) + |next.tasks| {
      assert next.tasks[g - First(next)].tenantId == t && !next.tasks[g - First(next)].stage.Over?;
    } else {
      assert next.idle[g].tenantId == t;
    }
  }

  lemma AwaitStepSelected(cfg: Config, sweep: Sweep, now: nat, t: TenantId)
    requires InOrder(cfg, sweep) && Selected(sweep, t) && CanAwait(sweep)
    requires forall i :: 0 <= i < sweep.awaited ==> sweep.tasks[i].stage.Over?
    ensures var p := AwaitStep(cfg, sweep, now);
      p.Sweeping? && Selected(p.sweep, t) && p.sweep.begin == sweep.begin && p.sweep.queried == sweep.queried
  {
    if sweep.awaited + 1 < |sweep.tasks| {
      SelectedCounts(sweep, t);
      hide Batch, Spawned, InOrder, Selected;
    } else {
      AllOverMeansAhead(sweep, t);
      var g :| First(sweep) + |sweep.tasks| <= g < |sweep.idle| && sweep.idle[g].tenantId == t;
      var ok := sweep.tasks[sweep.awaited].stage.ok;
      hide Batch, Spawned, InOrder, Selected;
      NextBatchSelected(cfg, sweep, g, t, now,
                        if ok then sweep.suspended + 1 else sweep.suspended,
                        if ok then sweep.failed else sweep.failed + 1);
    }
  }

  lemma SelectedCounts(sweep: Sweep, t: TenantId)
    requires Selected(sweep, t)
    ensures Selected(sweep.(awaited := sweep.awaited + 1, suspended := sweep.suspended + 1), t)
    ensures Selected(sweep.(awaited := sweep.awaited + 1, failed := sweep.failed + 1), t)
  {
    if Waits(sweep, t) {
      var k :| 0 <= k < |sweep.tasks| && sweep.tasks[k].tenantId == t && !sweep.tasks[k].stage.Over?;
      assert Waits(sweep.(awaited := sweep.awaited + 1, suspended := sweep.suspended + 1), t);
      assert Waits(sweep.(awaited := sweep.awaited + 1, failed := sweep.failed + 1), t);
    } else {
      assert Ahead(sweep.(awaited := sweep.awaited + 1, suspended := sweep.suspended + 1), t);
      assert Ahead(sweep.(awaited := sweep.awaited + 1, failed := sweep.failed + 1), t);
    }
  }

  /** When a task ends without an error, its row is no longer Ready. */
  lemma OverMeansSuspended(w: World, k: Task, ch: Choice)
    requires TaskCall(k).Some?
    requires var r := Apply(w, TaskCall(k).value, ch).1; (r.Ok? || r.Idle?) && TaskResume(k, r).stage.Over?
    ensures var w' := Apply(w, TaskCall(k).value, ch).0;
      k.tenantId in w'.db.rows ==> w'.db.rows[k.tenantId].tenant.status == Suspended
  {
    hide KeyOf;
  }

  lemma TaskKeepsCourse(cfg: Config, s: State, ch: Choice, pid: nat, t: TenantId, last: nat)
    requires pid in s.procs && s.procs[pid].Sweeping?
    requires CallOf(cfg, s, pid, ch).Some? && Succeeds(cfg, s, Act(pid, ch), pid)
    requires ch.branch < |s.procs[pid].sweep.tasks| && Selected(s.procs[pid].sweep, t)
    requires IdleSince(s, t, last) && IdleSince(Next(cfg, s, Act(pid, ch)), t, last)
    ensures var p := Next(cfg, s, Act(pid, ch)).procs[pid];
      && p.Sweeping? && Selected(p.sweep, t)
      && p.sweep.begin == s.procs[pid].sweep.begin && p.sweep.queried == s.procs[pid].sweep.queried
  {
    hide KeyOf, KeyFor, Selected, TaskStep, TaskResume, Apply, AwaitStep;
    var sweep, c := s.procs[pid].sweep, CallOf(cfg, s, pid, ch).value;
    var r := Apply(s.w, c, ch).1;
    assert TaskCall(sweep.tasks[ch.branch]) == Some(c);
    assert !c.Timer?;
    if sweep.tasks[ch.branch].tenantId == t && TaskResume(sweep.tasks[ch.branch], r).stage.Over? {
      OverMeansSuspended(s.w, sweep.tasks[ch.branch], ch);
    }
    TaskStepSelected(cfg, sweep, ch.branch, r, t);
    SameTimes(cfg, sweep, ch.branch, r);
  }

  lemma SweepKeepsCourse(cfg: Config, s: State, ch: Choice, pid: nat, t: TenantId, last: nat, tm: Timing)
    requires pid in s.procs && s.procs[pid].Sweeping?
    requires OnCourse(s, pid, t, last + 3600, tm) && OnTime(s, pid, tm)
    requires CallOf(cfg, s, pid, ch).Some? && Succeeds(cfg, s, Act(pid, ch), pid)
    requires SweeperInOrder(cfg, s.procs[pid]) && AwaitedOver(s.procs[pid])
    requires IdleSince(s, t, last) && IdleSince(Next(cfg, s, Act(pid, ch)), t, last)
    ensures OnCourse(Next(cfg, s, Act(pid, ch)), pid, t, last + 3600, tm)
  {
    hide KeyOf, KeyFor, Selected, InOrder, Accounted, KubeCall, StoreCall, Batch, Spawned, TaskStep;
    var sweep, c := s.procs[pid].sweep, CallOf(cfg, s, pid, ch).value;
    if ch.branch < |sweep.tasks| {
      SameTimes(cfg, sweep, ch.branch, Apply(s.w, c, ch).1);
      if Selected(sweep, t) {
        TaskKeepsCourse(cfg, s, ch, pid, t, last);
      }
    } else if Selected(sweep, t) {
      AwaitStepSelected(cfg, sweep, s.w.db.clock, t);
    }
  }

  lemma QueryKeepsCourse(cfg: Config, s: State, ch: Choice, pid: nat, t: TenantId, last: nat, tm: Timing)
    requires RowsAgree(s.w.db) && pid in s.procs && (s.procs[pid].Sleeping? || s.procs[pid].Querying?)
    requires OnCourse(s, pid, t, last + 3600, tm) && OnTime(s, pid, tm)
    requires CallOf(cfg, s, pid, ch).Some? && Succeeds(cfg, s, Act(pid, ch), pid)
    requires TimesInOrder(s, pid) && IdleSince(s, t, last)
    ensures OnCourse(Next(cfg, s, Act(pid, ch)), pid, t, last + 3600, tm)
  {
    hide KeyOf, KeyFor, Selected, Batch, Spawned, RowsAgree;
    if s.procs[pid].Querying? && Apply(s.w, FindIdle, ch).1.Idle? {
      assert s.w.db.clock > last + 3600 ==> t in IdleIds(s.w.db);
      if t in IdleIds(s.w.db) {
        QuerySelects(cfg, s.w, s.procs[pid].begin, ch.order, t);
      }
    }
  }

  lemma StepKeepsCourse(cfg: Config, s: State, e: Event, pid: nat, t: TenantId, last: nat, tm: Timing)
    requires Agrees(cfg, s) && AllInOrder(cfg, s)
    requires OnCourse(s, pid, t, last + 3600, tm) && Succeeds(cfg, s, e, pid)
    requires OnTime(s, pid, tm) && TimesInOrder(s, pid)
    requires IdleSince(s, t, last) && IdleSince(Next(cfg, s, e), t, last)
    requires pid in Next(cfg, s, e).procs && IsSweeper(Next(cfg, s, e).procs[pid])
    ensures OnCourse(Next(cfg, s, e), pid, t, last + 3600, tm)
  {
    hide KeyOf, Resume, Apply, CallAt, Selected, RowsAgree, ObjectsAgree, ProcAgrees, SweeperInOrder, AwaitedOver,
      TimesInOrder, OnTime, IdleSince;
    assert s.procs[pid].Sleeping? || s.procs[pid].Querying? || s.procs[pid].Sweeping?;
    if e.Act? && e.pid == pid && CallOf(cfg, s, pid, e.choice).Some? {
      hide Next, OnCourse, Succeeds;
      if s.procs[pid].Sweeping? {
        SweepKeepsCourse(cfg, s, e.choice, pid, t, last, tm);
      } else {
        QueryKeepsCourse(cfg, s, e.choice, pid, t, last, tm);
      }
    }
  }

  /** From step i to step j the sweeper runs and its calls succeed, and t stays Ready and untouched. */
  ghost predicate Undisturbed(cfg: Config, es: Schedule, i: nat, j: nat, pid: nat, t: TenantId, last: nat) {
    && (forall k {:trigger At(cfg, es, k)} :: i <= k <= j ==>
          && IdleSince(At(cfg, es, k), t, last)
          && pid in At(cfg, es, k).procs && IsSweeper(At(cfg, es, k).procs[pid]))
    && (forall k {:trigger At(cfg, es, k)} :: i <= k < j ==> Succeeds(cfg, At(cfg, es, k), es(k), pid))
  }

  ghost predicate AlwaysOnTime(cfg: Config, es: Schedule, i: nat, j: nat, pid: nat, tm: Timing) {
    forall k {:trigger At(cfg, es, k)} :: i <= k <= j ==> OnTime(At(cfg, es, k), pid, tm)
  }

  lemma {:induction false} StaysOnCourse(
      cfg: Config, es: Schedule, i: nat, j: nat, pid: nat, t: TenantId, last: nat, tm: Timing)
    requires i <= j && Undisturbed(cfg, es, i, j, pid, t, last) && AlwaysOnTime(cfg, es, i, j, pid, tm)
    requires At(cfg, es, i).w.db.clock <= last + 3600
    ensures OnCourse(At(cfg, es, j), pid, t, last + 3600, tm)
  {
    hide Next, Succeeds, OnTime, IdleSince, Agrees, AllInOrder, Selected;
    if i == j {
      AlwaysTimes(cfg, es, j, pid);
    } else {
      hide OnCourse, TimesInOrder;
      AlwaysTimes(cfg, es, j - 1, pid);
      StaysOnCourse(cfg, es, i, j - 1, pid, t, last, tm);
      AlwaysAgrees(cfg, es, j - 1);
      SweepsInOrder(cfg, es, j - 1);
      assert At(cfg, es, j) == Next(cfg, At(cfg, es, j - 1), es(j - 1)) by { AtStep(cfg, es, j - 1); }
      StepKeepsCourse(cfg, At(cfg, es, j - 1), es(j - 1), pid, t, last, tm);
    }
  }

  /**
   * For every bound on the parts of a sweep: a tenant last touched at time `last`
   * and still Ready is seen no later than last + 3600 + 300 + rest + whole; once
   * last + 3600 + 300 + rest has passed, a sweep begun by then is on its way; and
   * once the time of its query has passed too, its query has been answered by
   * then and lists the tenant.
   */
  lemma IdleTenantIsSelected(
      cfg: Config, es: Schedule, i: nat, j: nat, pid: nat, t: TenantId, last: nat, tm: Timing)
    requires i <= j && Undisturbed(cfg, es, i, j, pid, t, last) && AlwaysOnTime(cfg, es, i, j, pid, tm)
    requires At(cfg, es, i).w.db.clock <= last + 3600 && tm.query <= tm.whole
    ensures var s, p := At(cfg, es, j), At(cfg, es, j).procs[pid]; var begun := last + 3600 + 300 + tm.rest;
      && s.w.db.clock <= begun + tm.whole
      && (s.w.db.clock > begun ==>
            || (p.Querying? && p.begin <= begun)
            || (p.Sweeping? && p.sweep.begin <= begun && Listed(p.sweep.idle, t)))
      && (s.w.db.clock > begun + tm.query ==>
            p.Sweeping? && p.sweep.queried <= begun + tm.query && Listed(p.sweep.idle, t))
  {
    AlwaysTimes(cfg, es, j, pid);
    StaysOnCourse(cfg, es, i, j, pid, t, last, tm);
    SweepsInOrder(cfg, es, j);
    assert OnTime(At(cfg, es, j), pid, tm);
    hide At, IdleSince, Succeeds, InOrder, Selected, Listed;
    var s := At(cfg, es, j);
    assert SweeperInOrder(cfg, s.procs[pid]);
    if s.procs[pid].Sweeping? && Selected(s.procs[pid].sweep, t) {
      SelectedIsListed(cfg, s.procs[pid].sweep, t);
    }
  }

  /**
   * If each sweep takes at most d, a tenant last touched at time `last` is no
   * longer Ready after last + 3600 + 300 + 2 * d, and after last + 3600 + 300 + d
   * the sweep that suspends it has begun: it is querying, or has it in its list.
   */
  lemma IdleTenantIsSuspendedWithin(
      cfg: Config, es: Schedule, i: nat, j: nat, pid: nat, t: TenantId, last: nat, d: nat)
    requires i <= j && Undisturbed(cfg, es, i, j, pid, t, last) && AlwaysOnTime(cfg, es, i, j, pid, Timing(d, d, d))
    requires At(cfg, es, i).w.db.clock <= last + 3600
    ensures var s, p := At(cfg, es, j), At(cfg, es, j).procs[pid];
      && s.w.db.clock <= last + 3600 + 300 + 2 * d
      && (s.w.db.clock > last + 3600 + 300 + d ==>
            || (p.Querying? && p.begin <= last + 3600 + 300 + d)
            || (p.Sweeping? && p.sweep.begin <= last + 3600 + 300 + d && Listed(p.sweep.idle, t)))
  {
    hide At, Undisturbed, AlwaysOnTime, Listed;
    IdleTenantIsSelected(cfg, es, i, j, pid, t, last, Timing(d, d, d));
  }

  lemma SelectedIsListed(cfg: Config, sweep: Sweep, t: TenantId)
    requires InOrder(cfg, sweep) && Selected(sweep, t)
    ensures Listed(sweep.idle, t)
  {
    if Waits(sweep, t) {
      var k :| 0 <= k < |sweep.tasks| && sweep.tasks[k].tenantId == t && !sweep.tasks[k].stage.Over?;
      assert sweep.idle[First(sweep) + k].tenantId == t;
    }
  }

  // --- The pace of queries and batches ---

  /** Per-call speed: a query takes at most query seconds, the tasks of one batch at most task seconds. */
  datatype Pace = Pace(query: nat, task: nat)

  /** The time of all batches for at most n idle tenants. */
  function BatchTime(pace: Pace, n: nat): nat { Batches(n) * pace.task }

  function TimingOf(pace: Pace, n: nat): Timing {
    Timing(pace.query, BatchTime(pace, n), pace.query + BatchTime(pace, n))
  }

  /** The sweeper wakes up when its sleep is over, and keeps its pace. */
  predicate Paced(s: State, pid: nat, pace: Pace, n: nat) {
    pid in s.procs ==>
      match s.procs[pid]
      case Sleeping(since, _) => s.w.db.clock <= since + SWEEP_INTERVAL
      case Querying(begin) => s.w.db.clock <= begin + pace.query
      case Sweeping(sweep) => s.w.db.clock <= sweep.launch + pace.task && |sweep.idle| <= n
      case _ => true
  }

  /** How late a batch can have been launched. */
  predicate InBudget(s: State, pid: nat, pace: Pace) {
    pid in s.procs && s.procs[pid].Sweeping? ==>
      var sweep := s.procs[pid].sweep;
      sweep.queried <= sweep.begin + pace.query && sweep.launch <= sweep.queried + sweep.chunk * pace.task
  }

  lemma SweeperInBudget(cfg: Config, s: State, pid: nat, ch: Choice, pace: Pace, n: nat)
    requires pid in s.procs && InBudget(s, pid, pace) && Paced(s, pid, pace, n)
    requires CallOf(cfg, s, pid, ch).Some? && IsSweeper(s.procs[pid])
    ensures InBudget(Next(cfg, s, Act(pid, ch)), pid, pace)
  {
    hide KeyOf, KeyFor, Batch, Spawned, TaskStep, StoreCall, KubeCall;
    var p, c := s.procs[pid], CallOf(cfg, s, pid, ch).value;
    if p.Sweeping? && ch.branch < |p.sweep.tasks| {
      SameTimes(cfg, p.sweep, ch.branch, Apply(s.w, c, ch).1);
    } else if p.Sweeping? {
      assert (p.sweep.chunk + 1) * pace.task == p.sweep.chunk * pace.task + pace.task;
    }
  }

  lemma StepInBudget(cfg: Config, s: State, e: Event, pid: nat, pace: Pace, n: nat)
    requires InBudget(s, pid, pace) && Paced(s, pid, pace, n)
    ensures InBudget(Next(cfg, s, e), pid, pace)
  {
    hide KeyOf, Resume, Apply, CallAt;
    if e.Act? && CallOf(cfg, s, e.pid, e.choice).Some? && e.pid == pid {
      if IsSweeper(s.procs[pid]) {
        SweeperInBudget(cfg, s, pid, e.choice, pace, n);
      } else {
        NotASweeper(cfg, s.procs[pid], e.choice.branch,
                    Apply(s.w, CallOf(cfg, s, pid, e.choice).value, e.choice).1, s.w.db.clock);
      }
    }
  }

  lemma {:induction false} AlwaysInBudget(cfg: Config, es: Schedule, m: nat, pid: nat, pace: Pace, n: nat)
    requires forall k {:trigger At(cfg, es, k)} :: 0 <= k < m ==> Paced(At(cfg, es, k), pid, pace, n)
    ensures InBudget(At(cfg, es, m), pid, pace)
  {
    if m > 0 {
      hide Next, Paced, InBudget;
      AlwaysInBudget(cfg, es, m - 1, pid, pace, n);
      StepInBudget(cfg, At(cfg, es, m - 1), es(m - 1), pid, pace, n);
    }
  }

  /** A sweep over at most n tenants is over ceil(n / 20) batch times after its query was answered. */
  lemma SweepWithinDuration(cfg: Config, s: State, pid: nat, pace: Pace, n: nat)
    requires pid in s.procs && s.procs[pid].Sweeping? && InOrder(cfg, s.procs[pid].sweep)
    requires InBudget(s, pid, pace) && Paced(s, pid, pace, n)
    ensures s.w.db.clock <= s.procs[pid].sweep.queried + (n + 19) / 20 * pace.task
    ensures s.w.db.clock <= s.procs[pid].sweep.begin + pace.query + (n + 19) / 20 * pace.task
  {
    var sweep := s.procs[pid].sweep;
    assert sweep.chunk + 1 <= Batches(n);
    MulMono(sweep.chunk + 1, Batches(n), pace.task);
    assert (sweep.chunk + 1) * pace.task == sweep.chunk * pace.task + pace.task;
  }

  lemma MulMono(a: nat, b: nat, c: nat)
    requires a <= b
    ensures a * c <= b * c
  {
  }

  lemma PacedIsOnTime(cfg: Config, es: Schedule, i: nat, j: nat, pid: nat, pace: Pace, n: nat)
    requires forall k {:trigger At(cfg, es, k)} :: 0 <= k <= j ==> Paced(At(cfg, es, k), pid, pace, n)
    ensures AlwaysOnTime(cfg, es, i, j, pid, TimingOf(pace, n))
  {
    hide At, InBudget, InOrder;
    forall k | i <= k <= j
      ensures OnTime(At(cfg, es, k), pid, TimingOf(pace, n))
    {
      var s := At(cfg, es, k);
      AlwaysInBudget(cfg, es, k, pid, pace, n);
      SweepsInOrder(cfg, es, k);
      if pid in s.procs && s.procs[pid].Sweeping? {
        assert SweeperInOrder(cfg, s.procs[pid]);
        SweepWithinDuration(cfg, s, pid, pace, n);
      }
    }
  }

  /**
   * A sweeper runs, keeps its pace and has its calls succeed. With D the time of
   * one query and the batches of at most n tenants: a tenant with last activity
   * at time `last` that is never touched again is not Ready later than
   * last + 3600 + 300 + 2 * D, and later than last + 3600 + 300 + D it is in the
   * list of a sweep whose query was answered by then.
   */
  lemma IdleTenantIsSuspendedInTime(
      cfg: Config, es: Schedule, i: nat, j: nat, pid: nat, t: TenantId, last: nat, pace: Pace, n: nat)
    requires i <= j && Undisturbed(cfg, es, i, j, pid, t, last)
    requires forall k {:trigger At(cfg, es, k)} :: 0 <= k <= j ==> Paced(At(cfg, es, k), pid, pace, n)
    requires At(cfg, es, i).w.db.clock <= last + 3600
    ensures var s, p, d := At(cfg, es, j), At(cfg, es, j).procs[pid], pace.query + (n + 19) / 20 * pace.task;
      && s.w.db.clock <= last + 3600 + 300 + 2 * d
      && (s.w.db.clock > last + 3600 + 300 + d ==>
            p.Sweeping? && p.sweep.queried <= last + 3600 + 300 + d && Listed(p.sweep.idle, t))
  {
    hide At, Undisturbed, AlwaysOnTime, Paced, Listed;
    PacedIsOnTime(cfg, es, i, j, pid, pace, n);
    IdleTenantIsSelected(cfg, es, i, j, pid, t, last, TimingOf(pace, n));
    assert BatchTime(pace, n) == (n + 19) / 20 * pace.task;
  }
}
