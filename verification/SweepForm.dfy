/** A fault-free sweep in closed form, for every interleaving of its tasks. */
module SweepForm {
  import opened Types
  import opened Manifests
  import opened World
  import opened Handlers
  import opened Agreement
  import opened Serial
  import opened Views
  import opened Sweeps
  import Lockstep
  import Isolation

  /** The Pod was there when the sweep began, so the suspension goes through. */
  predicate HadPod(w0: World, t: TenantId) { PodK in Present(w0.kube, t) }

  /** What a suspend task has made of its tenant, compared with the world w0 the sweep queried. */
  predicate TaskForm(w0: World, w: World, tn: Tenant, stage: Stage) {
    var before, now := Present(w0.kube, tn.tenantId), Present(w.kube, tn.tenantId);
    match stage
    case Kill => RowIs(w, tn) && now == before
    case Mark => RowIs(w, tn) && PodK in before && now == before - {PodK}
    case Over(ok) =>
      && ok == (PodK in before)
      && RowIs(w, if ok then tn.(status := Suspended) else tn)
      && now == if ok then before - {PodK} else before
  }

  function StageAt(w0: World, s: Sweep, g: nat): Stage
    requires g < |s.idle|
  {
    if g < First(s) then Over(HadPod(w0, s.idle[g].tenantId))
    else if g < First(s) + |s.tasks| then s.tasks[g - First(s)].stage
    else Kill
  }

  /** How many of the first m listed tenants had a Pod. */
  function Pods(w0: World, idle: seq<Tenant>, m: nat): nat
    requires m <= |idle|
  {
    if m == 0 then 0 else Pods(w0, idle, m - 1) + (if HadPod(w0, idle[m - 1].tenantId) then 1 else 0)
  }

  ghost predicate OthersUntouched(w0: World, w: World, idle: seq<Tenant>) {
    forall t: TenantId :: !Listed(idle, t) ==> Isolation.Untouched(w0, w, t)
  }

  /** The invariant of a sweep that runs alone without faults. */
  ghost predicate InForm(cfg: Config, w0: World, w: World, s: Sweep) {
    && InOrder(cfg, s)
    && (forall i :: 0 <= i < s.awaited ==> s.tasks[i].stage.Over?)
    && (forall g {:trigger s.idle[g]} :: 0 <= g < |s.idle| ==> TaskForm(w0, w, s.idle[g], StageAt(w0, s, g)))
    && s.suspended == Pods(w0, s.idle, First(s) + s.awaited)
    && OthersUntouched(w0, w, s.idle)
    && SameIndex(w0.db, w.db)
  }

  /** A finished sweep: every listed tenant that had a Pod is suspended, and nothing else has changed. */
  ghost predicate Swept(w0: World, w: World, idle: seq<Tenant>, report: Report) {
    && (forall g {:trigger idle[g]} :: 0 <= g < |idle| ==>
          TaskForm(w0, w, idle[g], Over(HadPod(w0, idle[g].tenantId))))
    && OthersUntouched(w0, w, idle)
    && SameIndex(w0.db, w.db)
    && report.total == |idle|
    && report.suspended == Pods(w0, idle, |idle|)
    && report.suspended + report.failed == report.total
  }

  lemma TaskFormKept(w0: World, w: World, w': World, tn: Tenant, stage: Stage)
    requires TaskForm(w0, w, tn, stage) && Isolation.Untouched(w, w', tn.tenantId)
    ensures TaskForm(w0, w', tn, stage)
  {
    UntouchedPresent(w, w', tn.tenantId);
    hide Present, KeyOf, Isolation.UntouchedObject;
  }

  lemma UntouchedPresent(w: World, w': World, t: TenantId)
    requires Isolation.Untouched(w, w', t)
    ensures Present(w'.kube, t) == Present(w.kube, t)
  {
    hide KeyOf;
    forall kind: Kind
      ensures kind in Present(w'.kube, t) <==> kind in Present(w.kube, t)
    {
      assert Isolation.UntouchedObject(w.kube, w'.kube, KeyOf(kind, t));
    }
  }

  /** One clean call of a task. */
  lemma TaskStepForm(w0: World, w: World, tn: Tenant, k: Task, ch: Choice)
    requires k.tenantId == tn.tenantId && TaskForm(w0, w, tn, k.stage) && TaskCall(k).Some? && ch.fate == Clean
    requires k.stage == Mark ==> HadPod(w0, tn.tenantId)
    ensures var (w', r) := Apply(w, TaskCall(k).value, ch);
      TaskForm(w0, w', tn, TaskResume(k, r).stage) && SameIndex(w.db, w'.db)
  {
    PresentHas(w.kube, tn.tenantId);
    if k.stage == Kill { PresentAfter(w.kube, TaskCall(k).value, ch, tn.tenantId); }
    hide KeyOf, Present, OwnerOf;
  }

  lemma OthersKept(w0: World, w: World, w': World, idle: seq<Tenant>, t: TenantId)
    requires OthersUntouched(w0, w, idle) && Listed(idle, t) && Elsewhere(w, w', t)
    ensures OthersUntouched(w0, w', idle)
  {
    hide Listed, Isolation.Untouched;
    forall x: TenantId | !Listed(idle, x)
      ensures Isolation.Untouched(w0, w', x)
    {
      UntouchedTrans(w0, w, w', x);
    }
  }

  lemma TaskCallElsewhere(w: World, k: Task, ch: Choice)
    requires TaskCall(k).Some?
    ensures Elsewhere(w, Apply(w, TaskCall(k).value, ch).0, k.tenantId)
  {
    hide Apply, KeyOf, Elsewhere, OwnerOf;
    CallElsewhere(w, TaskCall(k).value, ch, k.tenantId);
  }

  lemma TaskInForm(cfg: Config, w0: World, w: World, s: Sweep, ch: Choice)
    requires InForm(cfg, w0, w, s) && ch.branch < |s.tasks| && TaskCall(s.tasks[ch.branch]).Some? && ch.fate == Clean
    ensures var (w', r) := Apply(w, TaskCall(s.tasks[ch.branch]).value, ch);
      InForm(cfg, w0, w', TaskStep(cfg, s, ch.branch, r))
  {
    hide Apply, TaskForm, Elsewhere, OthersUntouched, InOrder, Listed, Attempted, Isolation.Untouched, TaskResume, Pods,
      HadPod, TaskCall;
    var i := ch.branch;
    var k, g := s.tasks[i], First(s) + i;
    var (w', r) := Apply(w, TaskCall(k).value, ch);
    TaskHasTurn(cfg, s, i);
    var tn := s.idle[g];
    var t := TaskStep(cfg, s, i, r);
    NotOver(k);
    TaskStepInOrder(cfg, s, i, r);
    assert TaskForm(w0, w, tn, StageAt(w0, s, g));
    MarkHadPod(w0, w, tn, k);
    TaskStepForm(w0, w, tn, k, ch);
    TaskCallElsewhere(w, k, ch);
    OthersKept(w0, w, w', s.idle, tn.tenantId);
    forall h | 0 <= h < |t.idle|
      ensures TaskForm(w0, w', t.idle[h], StageAt(w0, t, h))
    {
      assert TaskForm(w0, w, s.idle[h], StageAt(w0, s, h));
      if h != g {
        DistinctAt(cfg, s, g, h);
        ElsewhereAt(w, w', tn.tenantId, s.idle[h].tenantId);
        TaskFormKept(w0, w, w', s.idle[h], StageAt(w0, s, h));
      }
    }
  }

  lemma NotOver(k: Task)
    ensures TaskCall(k).Some? <==> !k.stage.Over?
  {
  }

  lemma MarkHadPod(w0: World, w: World, tn: Tenant, k: Task)
    requires TaskForm(w0, w, tn, k.stage)
    ensures k.stage == Mark ==> HadPod(w0, tn.tenantId)
  {
    hide Present;
  }

  lemma TaskHasTurn(cfg: Config, s: Sweep, i: nat)
    requires InOrder(cfg, s) && i < |s.tasks|
    ensures First(s) + i < |s.idle| && s.tasks[i].tenantId == s.idle[First(s) + i].tenantId
    ensures Listed(s.idle, s.tasks[i].tenantId)
  {
  }

  lemma DistinctAt(cfg: Config, s: Sweep, g: nat, h: nat)
    requires InOrder(cfg, s) && g < |s.idle| && h < |s.idle| && g != h
    ensures s.idle[g].tenantId != s.idle[h].tenantId
  {
  }

  lemma ElsewhereAt(w: World, w': World, t: TenantId, x: TenantId)
    requires Elsewhere(w, w', t) && x != t
    ensures Isolation.Untouched(w, w', x)
  {
  }

  /** What an await step leads to. */
  ghost predicate AfterAwait(cfg: Config, w0: World, w: World, idle: seq<Tenant>, p: Proc) {
    if p.Sweeping? then p.sweep.idle == idle && InForm(cfg, w0, w, p.sweep)
    else p.Sleeping? && p.last.Some? && Swept(w0, w, idle, p.last.value)
  }

  /** The sweep after one more handle that was over. */
  function Counted(s: Sweep, ok: bool): Sweep {
    s.(awaited := s.awaited + 1, suspended := if ok then s.suspended + 1 else s.suspended,
       failed := if ok then s.failed else s.failed + 1)
  }

  lemma AwaitCounts(cfg: Config, s: Sweep, now: nat)
    requires CanAwait(s) && s.awaited + 1 < |s.tasks|
    ensures AwaitStep(cfg, s, now) == Sweeping(Counted(s, s.tasks[s.awaited].stage.ok))
  {
    hide Batch, Spawned;
  }

  lemma CountedSuspended(cfg: Config, w0: World, w: World, s: Sweep)
    requires InForm(cfg, w0, w, s) && CanAwait(s)
    ensures First(s) + s.awaited < |s.idle|
    ensures Counted(s, s.tasks[s.awaited].stage.ok).suspended == Pods(w0, s.idle, First(s) + s.awaited + 1)
  {
    hide TaskForm, OthersUntouched, HadPod, Attempted, SameIndex;
    var g := First(s) + s.awaited;
    assert TaskForm(w0, w, s.idle[g], StageAt(w0, s, g));
    assert StageAt(w0, s, g) == s.tasks[s.awaited].stage;
    OverTellsPod(w0, w, s.idle[g], s.tasks[s.awaited].stage);
  }

  lemma AwaitNext(cfg: Config, w0: World, w: World, s: Sweep, now: nat)
    requires InForm(cfg, w0, w, s) && CanAwait(s) && s.awaited + 1 < |s.tasks|
    ensures AfterAwait(cfg, w0, w, s.idle, AwaitStep(cfg, s, now))
  {
    hide TaskForm, OthersUntouched, AwaitStep, HadPod, InOrder, Pods, SameIndex;
    NextHandleInOrder(cfg, s);
    AwaitCounts(cfg, s, now);
    CountedSuspended(cfg, w0, w, s);
    var t := Counted(s, s.tasks[s.awaited].stage.ok);
    assert t.idle == s.idle && t.tasks == s.tasks && First(t) == First(s);
    forall g | 0 <= g < |t.idle|
      ensures TaskForm(w0, w, t.idle[g], StageAt(w0, t, g))
    {
      assert TaskForm(w0, w, s.idle[g], StageAt(w0, s, g));
    }
  }

  lemma OverTellsPod(w0: World, w: World, tn: Tenant, stage: Stage)
    requires stage.Over? && TaskForm(w0, w, tn, stage)
    ensures stage == Over(HadPod(w0, tn.tenantId))
  {
    hide Present;
  }

  /** After the last handle of a batch, all its tenants are in their final form. */
  lemma BatchIsFinal(cfg: Config, w0: World, w: World, s: Sweep)
    requires InForm(cfg, w0, w, s) && CanAwait(s) && s.awaited + 1 == |s.tasks|
    ensures forall g {:trigger s.idle[g]} :: 0 <= g < First(s) + |s.tasks| ==>
              TaskForm(w0, w, s.idle[g], Over(HadPod(w0, s.idle[g].tenantId)))
  {
    hide TaskForm, OthersUntouched, HadPod, InOrder;
    BatchEndCounts(cfg, s);
    forall g | 0 <= g < First(s) + |s.tasks|
      ensures TaskForm(w0, w, s.idle[g], Over(HadPod(w0, s.idle[g].tenantId)))
    {
      assert TaskForm(w0, w, s.idle[g], StageAt(w0, s, g));
      if g >= First(s) {
        assert s.tasks[g - First(s)].stage.Over?;
        OverTellsPod(w0, w, s.idle[g], s.tasks[g - First(s)].stage);
      }
    }
  }

  lemma LastCount(cfg: Config, w0: World, w: World, s: Sweep)
    requires InForm(cfg, w0, w, s) && CanAwait(s) && s.awaited + 1 == |s.tasks|
    ensures First(s) + |s.tasks| <= |s.idle|
    ensures (if s.tasks[s.awaited].stage.ok then s.suspended + 1 else s.suspended)
        == Pods(w0, s.idle, First(s) + |s.tasks|)
  {
    BatchEndCounts(cfg, s);
    hide TaskForm, OthersUntouched, HadPod, InOrder;
    var g := First(s) + s.awaited;
    assert TaskForm(w0, w, s.idle[g], StageAt(w0, s, g));
    OverTellsPod(w0, w, s.idle[g], s.tasks[s.awaited].stage);
  }

  lemma NextBatchForm(cfg: Config, w0: World, w: World, s: Sweep, now: nat)
    requires cfg.K8s() && InForm(cfg, w0, w, s) && CanAwait(s) && s.awaited + 1 == |s.tasks|
        && First(s) + |s.tasks| < |s.idle|
    ensures AfterAwait(cfg, w0, w, s.idle, AwaitStep(cfg, s, now))
  {
    hide TaskForm, OthersUntouched, Batch, Spawned, HadPod, InOrder, Accounted, Pods;
    BatchEndCounts(cfg, s);
    NextBatch(s.idle, s.chunk + 1);
    BatchShape(cfg, s.idle, s.chunk + 1);
    BatchIsFinal(cfg, w0, w, s);
    LastCount(cfg, w0, w, s);
    AwaitStepInOrder(cfg, s, now);
    var p := AwaitStep(cfg, s, now);
    var t := p.sweep;
    assert First(t) == First(s) + |s.tasks|;
    forall g | 0 <= g < |t.idle|
      ensures TaskForm(w0, w, t.idle[g], StageAt(w0, t, g))
    {
      assert TaskForm(w0, w, s.idle[g], StageAt(w0, s, g));
      if g >= First(t) {
        assert StageAt(w0, s, g) == Kill;
        FreshForm(cfg, w0, w, s.idle[g], t, g);
      }
    }
  }

  /** Before its first call a tenant is as it was, with or without Kubernetes. */
  lemma FreshForm(cfg: Config, w0: World, w: World, tn: Tenant, s: Sweep, g: nat)
    requires TaskForm(w0, w, tn, Kill) && g < |s.idle| && First(s) <= g
    requires forall i :: 0 <= i < |s.tasks| ==> s.tasks[i].stage == Kill
    ensures TaskForm(w0, w, tn, StageAt(w0, s, g))
  {
  }

  lemma LastBatchForm(cfg: Config, w0: World, w: World, s: Sweep, now: nat)
    requires InForm(cfg, w0, w, s) && CanAwait(s) && s.awaited + 1 == |s.tasks| && First(s) + |s.tasks| == |s.idle|
    ensures AfterAwait(cfg, w0, w, s.idle, AwaitStep(cfg, s, now))
  {
    hide TaskForm, OthersUntouched, Batch, Spawned, HadPod, InOrder, Pods;
    BatchEndCounts(cfg, s);
    NextBatch(s.idle, s.chunk + 1);
    BatchIsFinal(cfg, w0, w, s);
    LastCount(cfg, w0, w, s);
  }

  lemma AwaitInForm(cfg: Config, w0: World, w: World, s: Sweep, now: nat)
    requires cfg.K8s() && InForm(cfg, w0, w, s) && CanAwait(s)
    ensures AfterAwait(cfg, w0, w, s.idle, AwaitStep(cfg, s, now))
  {
    assert s.awaited + 1 < |s.tasks| || First(s) + |s.tasks| <= |s.idle| by { LastOrNot(cfg, w0, w, s); }
    hide InForm, AfterAwait, AwaitStep;
    if s.awaited + 1 < |s.tasks| {
      AwaitNext(cfg, w0, w, s, now);
    } else if First(s) + |s.tasks| < |s.idle| {
      NextBatchForm(cfg, w0, w, s, now);
    } else {
      LastBatchForm(cfg, w0, w, s, now);
    }
  }

  lemma LastOrNot(cfg: Config, w0: World, w: World, s: Sweep)
    requires InForm(cfg, w0, w, s)
    ensures First(s) + |s.tasks| <= |s.idle|
  {
    hide TaskForm, OthersUntouched, Pods, SameIndex, Attempted;
  }

  /** The list a query answers, with every row as it stands. */
  lemma ListingForm(cfg: Config, w: World, order: seq<TenantId>)
    requires WorldAgrees(cfg, w) && Lists(order, IdleIds(w.db))
    ensures var idle := Listing(w.db, order);
      && Distinct(idle)
      && (forall g :: 0 <= g < |idle| ==>
            RowIs(w, idle[g]) && idle[g].tenantId in IdleIds(w.db) && Known(w.db, idle[g]))
      && (forall t :: t in IdleIds(w.db) ==> Listed(idle, t))
  {
    hide ObjectsAgree;
    var idle := Listing(w.db, order);
    assert forall g :: 0 <= g < |idle| ==> idle[g].tenantId == order[g] && order[g] in IdleIds(w.db);
    forall t | t in IdleIds(w.db)
      ensures Listed(idle, t)
    {
      assert t in (set x | x in order);
      var g :| 0 <= g < |order| && order[g] == t;
      assert idle[g].tenantId == t;
    }
  }

  lemma SweepStarts(cfg: Config, w: World, begin: nat, idle: seq<Tenant>, now: nat)
    requires cfg.K8s() && idle != [] && Distinct(idle)
    requires forall g :: 0 <= g < |idle| ==> RowIs(w, idle[g])
    ensures var p := StartSweep(cfg, begin, idle, now);
      p.Sweeping? && p.sweep.idle == idle && InForm(cfg, w, w, p.sweep)
  {
    hide RowIs, Distinct, Present, InOrder, Batch, Spawned, Isolation.Untouched;
    StartInOrder(cfg, begin, idle, now);
    BatchShape(cfg, idle, 0);
    var s := StartSweep(cfg, begin, idle, now).sweep;
    assert OthersUntouched(w, w, idle) by {
      forall t: TenantId ensures Isolation.Untouched(w, w, t) { UntouchedSame(w, t); }
    }
    forall g | 0 <= g < |idle|
      ensures TaskForm(w, w, idle[g], StageAt(w, s, g))
    {
      assert RowIs(w, idle[g]);
    }
  }

  lemma InFormIsActive(cfg: Config, w0: World, w: World, s: Sweep)
    requires InForm(cfg, w0, w, s)
    ensures Active(cfg, Sweeping(s)) && !Ended(Sweeping(s))
  {
    hide TaskForm, OthersUntouched, Pods, SameIndex, Attempted;
  }

  lemma SweepAdvances(cfg: Config, w0: World, w: World, s: Sweep, ch: Choice)
    requires cfg.K8s() && InForm(cfg, w0, w, s) && CallAt(cfg, Sweeping(s), ch.branch).Some?
    requires SmoothCall(w, CallAt(cfg, Sweeping(s), ch.branch).value, ch, true)
    ensures var (w', next) := Advance(cfg, w, Sweeping(s), ch); AfterAwait(cfg, w0, w', s.idle, next)
  {
    hide InForm, TaskStep, AwaitStep, TaskCall, StoreCall, KubeCall, TaskForm;
    if ch.branch < |s.tasks| {
      assert ch.fate == Clean by { TaskCallIsReal(s.tasks[ch.branch]); }
      TaskInForm(cfg, w0, w, s, ch);
    } else {
      AwaitInForm(cfg, w0, w, s, w.db.clock);
    }
  }

  lemma TaskCallIsReal(k: Task)
    ensures TaskCall(k).Some? ==> IsStoreCall(TaskCall(k).value) || IsKubeCall(TaskCall(k).value)
  {
  }

  lemma {:induction false} SweepRuns(cfg: Config, w0: World, w: World, s: Sweep, o: Oracle, n: nat)
    requires cfg.K8s() && InForm(cfg, w0, w, s) && Smooth(cfg, w, Sweeping(s), o, n, true)
    ensures var (w', p, _) := Drive(cfg, w, Sweeping(s), o, n);
      p.Sleeping? && p.last.Some? && Swept(w0, w', s.idle, p.last.value)
    decreases Rank(Sweeping(s))
  {
    hide CallAt, Resume, Apply, Rank, InForm, Swept, SmoothCall, Smooth, Drive, Pick, SomeBranch;
    var p := Sweeping(s);
    InFormIsActive(cfg, w0, w, s);
    FirstStep(cfg, w, p, o, n);
    var ch := ChoiceFor(cfg, p, o, n);
    RankDrops(cfg, p, ch.branch, Apply(w, CallAt(cfg, p, ch.branch).value, ch).1, w.db.clock);
    SweepAdvances(cfg, w0, w, s, ch);
    var (w', next) := Advance(cfg, w, p, ch);
    if next.Sweeping? {
      SweepRuns(cfg, w0, w', next.sweep, o, n + 1);
    } else {
      Lockstep.Ends(cfg, w', next, o, n + 1);
    }
  }

  lemma QueryIsActive(cfg: Config, begin: nat)
    ensures Active(cfg, Querying(begin)) && !Ended(Querying(begin))
  {
  }

  lemma QueryAdvances(cfg: Config, w: World, begin: nat, ch: Choice)
    requires CallAt(cfg, Querying(begin), ch.branch).Some?
    requires SmoothCall(w, CallAt(cfg, Querying(begin), ch.branch).value, ch, true)
    ensures Lists(ch.order, IdleIds(w.db))
    ensures var idle := Listing(w.db, ch.order);
      && Advance(cfg, w, Querying(begin), ch) == (w, StartSweep(cfg, begin, idle, w.db.clock))
      && (idle == [] ==> StartSweep(cfg, begin, idle, w.db.clock) == Sleeping(w.db.clock, None))
  {
    hide IdleIds, Lists, Batch, Spawned;
  }

  /**
   * A fault-free sweep that runs alone, in any order of its tasks' calls: it lists
   * exactly the Ready tenants idle for more than 3600 seconds, removes the Pod of
   * each and marks it Suspended, reports those without a Pod as failed and leaves
   * them as they were, and touches nobody else.
   */
  lemma SweepOnWorld(cfg: Config, w: World, begin: nat, o: Oracle, n: nat) returns (idle: seq<Tenant>)
    requires cfg.K8s() && WorldAgrees(cfg, w) && Smooth(cfg, w, Querying(begin), o, n, true)
    ensures forall t: TenantId :: Listed(idle, t) <==> t in IdleIds(w.db)
    ensures Distinct(idle) && forall g :: 0 <= g < |idle| ==> RowIs(w, idle[g]) && Known(w.db, idle[g])
    ensures var (w', p, _) := Drive(cfg, w, Querying(begin), o, n);
      && p.Sleeping?
      && (if idle == [] then p.last == None && w' == w
          else p.last.Some? && Swept(w, w', idle, p.last.value))
  {
    hide Resume, StartSweep, Smooth, WorldAgrees, Active, Drive, RowIs, IdleIds, Swept, InForm, Known, Lists, Distinct;
    var p := Querying(begin);
    QueryIsActive(cfg, begin);
    FirstStep(cfg, w, p, o, n);
    var ch := ChoiceFor(cfg, p, o, n);
    QueryAdvances(cfg, w, begin, ch);
    idle := Listing(w.db, ch.order);
    ListingForm(cfg, w, ch.order);
    var (w', next) := Advance(cfg, w, p, ch);
    if idle == [] {
      Lockstep.Ends(cfg, w, next, o, n + 1);
    } else {
      SweepStarts(cfg, w, begin, idle, w.db.clock);
      SweepRuns(cfg, w, w, next.sweep, o, n + 1);
    }
    forall t: TenantId
      ensures Listed(idle, t) <==> t in IdleIds(w.db)
    {
    }
  }
}
