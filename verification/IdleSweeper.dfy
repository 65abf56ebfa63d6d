/** The sweep as a loop over batches, with the tasks of a batch taking their calls in any order. */
module IdleSweeper {
  import opened Types
  import opened Manifests
  import opened World
  import opened Handlers
  import opened Serial
  import opened Stores
  import opened Lockstep
  import opened Sweeps
  import K8s
  import Agreement
  import SweepForm
  import IdleBound
  import Refinement

  lemma TaskFollows(cfg: Config, w: World, s: Sweep, o: Oracle, n: nat, i: nat)
    requires s.awaited < |s.tasks| && i < |s.tasks| && !s.tasks[i].stage.Over?
    requires i == o(n).branch || (i == s.awaited && !(o(n).branch < |s.tasks| && !s.tasks[o(n).branch].stage.Over?))
    ensures TaskCall(s.tasks[i]).Some?
    ensures var (w', r) := Apply(w, TaskCall(s.tasks[i]).value, o(n));
      Drive(cfg, w, Sweeping(s), o, n) == Drive(cfg, w', Sweeping(TaskStep(cfg, s, i, r)), o, n + 1)
  {
    hide KeyOf, Apply, Drive, TaskStep, AwaitStep;
    assert Pick(cfg, Sweeping(s), o(n).branch) == i;
    Follows(cfg, w, Sweeping(s), o, n, i, TaskCall(s.tasks[i]).value);
  }

  lemma AwaitFollows(cfg: Config, w: World, s: Sweep, o: Oracle, n: nat)
    requires CanAwait(s) && !(o(n).branch < |s.tasks| && !s.tasks[o(n).branch].stage.Over?)
    ensures Drive(cfg, w, Sweeping(s), o, n) == Drive(cfg, w, AwaitStep(cfg, s, w.db.clock), o, n + 1)
  {
    hide KeyOf, Drive, TaskStep, AwaitStep;
    assert Pick(cfg, Sweeping(s), o(n).branch) == |s.tasks|;
    Follows(cfg, w, Sweeping(s), o, n, |s.tasks|, Await);
  }

  /** The next call of one suspend_one: the Pod first, with Kubernetes, then the row. */
  method RunTask(st: AppState, k: Task) returns (k': Task)
    requires st.Valid() && !k.stage.Over?
    modifies st.store, st.cluster, st.net
    ensures st.net.n == old(st.net.n) + 1
    ensures TaskCall(k).Some?
    ensures var (w, r) := Apply(old(st.W()), TaskCall(k).value, st.net.o(old(st.net.n)));
      st.W() == w && k' == TaskResume(k, r)
  {
    hide KeyOf, StoreCall, KubeCall;
    if k.stage == Kill {
      var ok := K8s.SuspendTenant(st, k.tenantId);
      k' := k.(stage := if ok then Mark else Over(false));
    } else {
      var r := st.store.UpdateStatus(k.tenantId, Suspended);
      k' := k.(stage := Over(r.Ok?));
    }
  }

  method SpawnBatch(cfg: Config, batch: seq<Tenant>) returns (tasks: seq<Task>)
    ensures tasks == Spawned(cfg, batch)
  {
    tasks := [];
    for i := 0 to |batch|
      invariant |tasks| == i
      invariant forall j :: 0 <= j < i ==> tasks[j] == Task(batch[j].tenantId, FirstStage(cfg))
    {
      tasks := tasks + [Task(batch[i].tenantId, FirstStage(cfg))];
    }
  }

  /** Where the sweep stands once the last handle of a batch has been counted. */
  function AfterBatch(cfg: Config, s: Sweep, now: nat): Proc {
    var rest := Batch(s.idle, s.chunk + 1);
    if rest == [] then Sleeping(now, Some(Report(|s.idle|, s.chunk + 1, s.suspended, s.failed, s.attempts)))
    else Sweeping(s.(chunk := s.chunk + 1, launch := now, tasks := Spawned(cfg, rest), awaited := 0))
  }

  lemma AwaitCountsOne(cfg: Config, s: Sweep, now: nat)
    requires CanAwait(s)
    ensures var t := SweepForm.Counted(s, s.tasks[s.awaited].stage.ok);
      AwaitStep(cfg, s, now) == if t.awaited < |t.tasks| then Sweeping(t) else AfterBatch(cfg, t, now)
  {
    hide Batch, Spawned;
  }

  /** Where the sweep stands with s counted so far. */
  function Standing(cfg: Config, s: Sweep, now: nat): Proc {
    if s.awaited < |s.tasks| then Sweeping(s) else AfterBatch(cfg, s, now)
  }

  /** The tasks' own fields agree with the loop's variables. */
  predicate Tracks(s: Sweep, tasks: seq<Task>, awaited: nat, suspended: nat, failed: nat) {
    s.tasks == tasks && s.awaited == awaited && s.suspended == suspended && s.failed == failed
  }

  lemma OverCount(cfg: Config, s: Sweep, now: nat)
    requires InOrder(cfg, s) && CanAwait(s) && AwaitedOver(Sweeping(s))
    ensures var t := SweepForm.Counted(s, s.tasks[s.awaited].stage.ok);
      SweeperInOrder(cfg, Standing(cfg, t, now)) && AwaitedOver(Sweeping(t))
  {
    AwaitStepInOrder(cfg, s, now);
    AwaitCountsOne(cfg, s, now);
    hide InOrder, Accounted, AfterBatch, AwaitStep;
  }

  lemma TaskStepKeeps(cfg: Config, s: Sweep, i: nat, r: Reply)
    requires InOrder(cfg, s) && i < |s.tasks| && !s.tasks[i].stage.Over? && AwaitedOver(Sweeping(s))
    ensures var t := TaskStep(cfg, s, i, r);
      && InOrder(cfg, t) && AwaitedOver(Sweeping(t)) && t.tasks == s.tasks[i := TaskResume(s.tasks[i], r)]
      && t.awaited == s.awaited && t.suspended == s.suspended && t.failed == s.failed
      && t.idle == s.idle && t.chunk == s.chunk
  {
    TaskStepInOrder(cfg, s, i, r);
    hide InOrder, TaskResume;
  }

  /** One batch: its tasks run in any order while its handles are awaited one by one and counted. */
  method RunBatch(st: AppState, spawned: seq<Task>, suspended0: nat, failed0: nat, ghost s0: Sweep)
      returns (suspended: nat, failed: nat, ghost s: Sweep)
    requires st.Valid() && InOrder(st.cfg, s0) && Tracks(s0, spawned, 0, suspended0, failed0)
    modifies st.store, st.cluster, st.net
    ensures st.store.clock == old(st.store.clock)
    ensures |s.tasks| == |spawned| && Tracks(s, s.tasks, |spawned|, suspended, failed) && s.idle == s0.idle
        && s.chunk == s0.chunk
    ensures SweeperInOrder(st.cfg, AfterBatch(st.cfg, s, st.store.clock))
    ensures suspended + failed == suspended0 + failed0 + |spawned|
    ensures Drive(st.cfg, old(st.W()), Sweeping(s0), st.net.o, old(st.net.n))
         == Drive(st.cfg, st.W(), AfterBatch(st.cfg, s, st.store.clock), st.net.o, st.net.n)
  {
    hide Drive, Apply, InOrder, Accounted, AfterBatch, TaskStep, TaskResume, TaskCall, AwaitStep, TaskRanks, TaskRank,
      AwaitedOver;
    ghost var cfg, o, now := st.cfg, st.net.o, st.store.clock;
    var tasks, awaited := spawned, 0;
    suspended, failed, s := suspended0, failed0, s0;
    BatchIsFresh(cfg, s0);
    while awaited < |tasks|
      invariant |tasks| == |spawned| && 0 <= awaited <= |tasks|
      invariant st.store.clock == now
      invariant Tracks(s, tasks, awaited, suspended, failed) && s.idle == s0.idle && s.chunk == s0.chunk
      invariant SweeperInOrder(cfg, Standing(cfg, s, now)) && AwaitedOver(Sweeping(s))
      invariant suspended + failed == suspended0 + failed0 + awaited
      invariant Drive(cfg, old(st.W()), Sweeping(s0), o, old(st.net.n))
             == Drive(cfg, st.W(), Standing(cfg, s, now), o, st.net.n)
      decreases TaskRanks(tasks) + |tasks| - awaited
    {
      var i := st.net.Branch();
      if i >= |tasks| || tasks[i].stage.Over? { i := awaited; }
      if tasks[i].stage.Over? {
        AwaitFollows(cfg, st.W(), s, o, st.net.n);
        AwaitCountsOne(cfg, s, now);
        OverCount(cfg, s, now);
        s := SweepForm.Counted(s, tasks[awaited].stage.ok);
        if tasks[awaited].stage.ok { suspended := suspended + 1; } else { failed := failed + 1; }
        awaited := awaited + 1;
        var _ := st.net.Take();
      } else {
        ghost var w := st.W();
        TaskFollows(cfg, w, s, o, st.net.n, i);
        ghost var c := TaskCall(tasks[i]).value;
        ghost var r := Apply(w, c, o(st.net.n)).1;
        IdleBound.ClockStill(w, c, o(st.net.n));
        TaskStepKeeps(cfg, s, i, r);
        RankFalls(tasks, i, r);
        s := TaskStep(cfg, s, i, r);
        var k := RunTask(st, tasks[i]);
        tasks := tasks[i := k];
      }
    }
  }

  lemma BatchIsFresh(cfg: Config, s: Sweep)
    requires InOrder(cfg, s) && s.awaited == 0
    ensures s.tasks != [] && SweeperInOrder(cfg, Sweeping(s)) && AwaitedOver(Sweeping(s))
  {
    hide Attempted;
  }

  lemma RankFalls(tasks: seq<Task>, i: nat, r: Reply)
    requires i < |tasks| && !tasks[i].stage.Over?
    ensures TaskRanks(tasks[i := TaskResume(tasks[i], r)]) < TaskRanks(tasks)
  {
    TaskRanksUpdate(tasks, i, TaskResume(tasks[i], r));
    hide TaskRanks;
  }

  /** Where the sweep stands between two batches. */
  ghost predicate Between(cfg: Config, p: Proc, idle: seq<Tenant>, chunk: nat, suspended: nat, failed: nat, now: nat) {
    if chunk * MAX_CONCURRENT_SUSPENSIONS < |idle| then
      && p.Sweeping? && p.sweep.idle == idle && p.sweep.chunk == chunk && InOrder(cfg, p.sweep)
      && Tracks(p.sweep, Spawned(cfg, Batch(idle, chunk)), 0, suspended, failed)
    else
      && p.Sleeping? && p.since == now && p.last.Some? && Accounted(p.last.value)
      && p.last.value.total == |idle| && p.last.value.batches == chunk
      && p.last.value.suspended == suspended && p.last.value.failed == failed
  }

  lemma FirstBetween(cfg: Config, begin: nat, idle: seq<Tenant>, now: nat)
    requires idle != [] && Distinct(idle)
    ensures Between(cfg, StartSweep(cfg, begin, idle, now), idle, 0, 0, 0, now)
  {
    StartInOrder(cfg, begin, idle, now);
    hide InOrder, Batch, Spawned, Distinct;
  }

  lemma NextBetween(cfg: Config, s: Sweep, suspended: nat, failed: nat, now: nat)
    requires Tracks(s, s.tasks, |s.tasks|, suspended, failed) && SweeperInOrder(cfg, AfterBatch(cfg, s, now))
    ensures Between(cfg, AfterBatch(cfg, s, now), s.idle, s.chunk + 1, suspended, failed, now)
  {
    NextBatch(s.idle, s.chunk + 1);
    hide InOrder, Batch, Spawned, Accounted;
  }

  lemma QueryFollows(cfg: Config, w: World, begin: nat, o: Oracle, n: nat)
    requires Agreement.RowsAgree(w.db)
    ensures var (db, r) := StoreCall(w.db, FindIdle, o(n));
      && db == w.db && (r.Idle? ==> Distinct(r.tenants))
      && Drive(cfg, w, Querying(begin), o, n)
         == Drive(cfg, w,
                  if r.Idle? then StartSweep(cfg, begin, r.tenants, w.db.clock) else Sleeping(w.db.clock, None),
                  o, n + 1)
  {
    IdleIsDistinct(w, FindIdle, o(n));
    hide Drive, StartSweep, IdleIds, Lists, Distinct, Agreement.RowsAgree;
    FollowsStore(cfg, w, Querying(begin), o, n, FindIdle);
    assert w == w.(db := w.db);
  }

  /**
   * One sweep. Whatever fails, every listed tenant is counted once, in
   * ceil(total / 20) batches. Without faults, in a world where the objects are a
   * function of the rows, it suspends exactly the tenants idle at its start.
   */
  method Sweep(st: AppState) returns (total: nat, batches: nat, suspended: nat, failed: nat, ghost last: Option<Report>)
    requires st.Valid() && Agreement.RowsAgree(st.store.State())
    modifies st.store, st.cluster, st.net
    ensures st.store.clock == old(st.store.clock)
    ensures Drive(st.cfg, old(st.W()), Querying(st.store.clock), st.net.o, old(st.net.n))
         == (st.W(), Sleeping(st.store.clock, last), st.net.n)
    ensures suspended + failed == total && batches == Batches(total)
    ensures total == 0 <==> last == None
    ensures last.Some? ==>
      && Accounted(last.value) && last.value.total == total
      && last.value.suspended == suspended && last.value.failed == failed
    ensures st.cfg.K8s() && Refinement.Exact(st.cfg, old(st.W()))
            && Smooth(st.cfg, old(st.W()), Querying(old(st.store.clock)), st.net.o, old(st.net.n), true) ==>
      Refinement.Exact(st.cfg, st.W()) && failed == 0 && suspended == |Refinement.IdleUsers(old(st.store.State()))|
  {
    hide Drive, InOrder, Accounted, Agreement.RowsAgree, StartSweep, AfterBatch, StoreCall, Distinct, Smooth,
      Refinement.Exact, Refinement.IdleUsers;
    ghost var cfg, o, w0, n0, now := st.cfg, st.net.o, st.W(), st.net.n, st.store.clock;
    total, batches, suspended, failed, last := 0, 0, 0, 0, None;
    if cfg.K8s() && Refinement.Exact(cfg, w0) && Smooth(cfg, w0, Querying(now), o, n0, true) {
      Refinement.SweepOnExact(cfg, w0, o, n0);
    }
    QueryFollows(cfg, w0, now, o, n0);
    var reply := st.store.FindIdleTenants();
    if !reply.Idle? || reply.tenants == [] {
      EmptySweep(cfg, now, now);
      Ends(cfg, st.W(), Sleeping(now, None), o, st.net.n);
      return;
    }
    var idle := reply.tenants;
    total := |idle|;
    ghost var p := StartSweep(cfg, now, idle, now);
    FirstBetween(cfg, now, idle, now);
    while batches * MAX_CONCURRENT_SUSPENSIONS < |idle|
      invariant st.store.clock == now && batches * MAX_CONCURRENT_SUSPENSIONS < |idle| + MAX_CONCURRENT_SUSPENSIONS
      invariant Between(cfg, p, idle, batches, suspended, failed, now)
      invariant Drive(cfg, w0, Querying(now), o, n0) == Drive(cfg, st.W(), p, o, st.net.n)
    {
      var tasks := SpawnBatch(st.cfg, Batch(idle, batches));
      ghost var s;
      suspended, failed, s := RunBatch(st, tasks, suspended, failed, p.sweep);
      NextBetween(cfg, s, suspended, failed, now);
      p := AfterBatch(cfg, s, now);
      batches := batches + 1;
    }
    last := p.last;
    Counted(cfg, p, idle, batches, suspended, failed, now);
    Ends(cfg, st.W(), p, o, st.net.n);
  }

  lemma Counted(cfg: Config, p: Proc, idle: seq<Tenant>, chunk: nat, suspended: nat, failed: nat, now: nat)
    requires Between(cfg, p, idle, chunk, suspended, failed, now) && chunk * MAX_CONCURRENT_SUSPENSIONS >= |idle|
    ensures suspended + failed == |idle| && chunk == Batches(|idle|)
  {
  }

  lemma EmptySweep(cfg: Config, begin: nat, now: nat)
    ensures StartSweep(cfg, begin, [], now) == Sleeping(now, None)
  {
  }
}
