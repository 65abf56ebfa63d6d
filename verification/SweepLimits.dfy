/** Exactly what one sweep makes of each tenant it lists, whatever is lost and in any order of its tasks' calls. */
module SweepLimits {
  import opened Types
  import opened Manifests
  import opened World
  import opened Handlers
  import opened Agreement
  import opened Serial
  import opened Views
  import opened Sweeps
  import opened SweepForm
  import opened Limits
  import opened Lockstep
  import Isolation
  import IdleSweeper

  /** The number of the first call, from call n on, with which a handler that runs alone makes the call c. */
  function CallSlot(cfg: Config, w: World, p: Proc, o: Oracle, n: nat, c: Call): Option<nat>
    decreases p.Querying?, Rank(p)
  {
    if Halted(cfg, p, o(n).branch) then None
    else
      var ch := ChoiceFor(cfg, p, o, n);
      if CallAt(cfg, p, ch.branch) == Some(c) then Some(n)
      else
        var r := Apply(w, CallAt(cfg, p, ch.branch).value, ch).1;
        RankDrops(cfg, p, ch.branch, r, w.db.clock);
        var (w', next) := Advance(cfg, w, p, ch);
        CallSlot(cfg, w', next, o, n + 1, c)
  }

  function KillCall(t: TenantId): Call { Delete(KeyOf(PodK, t)) }

  function MarkCallOf(t: TenantId): Call { UpdateStatus(t, Suspended) }

  /** Whether the handler makes the call, and how it goes. */
  predicate Goes(o: Oracle, slot: Option<nat>, fate: Fate) { slot.Some? && o(slot.value).fate == fate }

  /** Whether the handler makes the call and it takes effect. */
  predicate TakesEffect(o: Oracle, slot: Option<nat>) { slot.Some? && o(slot.value).fate != Before }

  /** How far the sweep is with the tenant at position g of its list. */
  function TurnOf(cfg: Config, s: Sweep, g: nat): Stage {
    if g < First(s) then Over(true)
    else if g < First(s) + |s.tasks| then s.tasks[g - First(s)].stage
    else FirstStage(cfg)
  }

  /** What the rest of a sweep makes of a tenant: its kinds and its row, by how far the sweep is with it. */
  ghost predicate Outcome(cfg: Config, w: World, w': World, p: Proc, o: Oracle, n: nat, tn: Tenant, stage: Stage) {
    var t := tn.tenantId;
    var kill, mark := CallSlot(cfg, w, p, o, n, KillCall(t)), CallSlot(cfg, w, p, o, n, MarkCallOf(t));
    var kinds := Present(w.kube, t);
    match stage
    case Kill =>
      && kill.Some? && (PodK in kinds && Goes(o, kill, Clean) ==> mark.Some?)
      && Present(w'.kube, t) == (if TakesEffect(o, kill) then kinds - {PodK} else kinds)
      && RowIs(w', if PodK in kinds && Goes(o, kill, Clean)
          && TakesEffect(o, mark) then tn.(status := Suspended) else tn)
    case Mark =>
      && mark.Some?
      && Present(w'.kube, t) == kinds
      && RowIs(w', if TakesEffect(o, mark) then tn.(status := Suspended) else tn)
    case Over(_) =>
      Present(w'.kube, t) == kinds && t in w.db.rows && t in w'.db.rows && w'.db.rows[t] == w.db.rows[t]
  }

  lemma SlotStep(cfg: Config, w: World, p: Proc, o: Oracle, n: nat, c: Call)
    requires !Halted(cfg, p, o(n).branch)
    ensures var ch := ChoiceFor(cfg, p, o, n); var (w', next) := Advance(cfg, w, p, ch);
      CallSlot(cfg, w, p, o, n, c) == if CallAt(cfg, p, ch.branch)
          == Some(c) then Some(n) else CallSlot(cfg, w', next, o, n + 1, c)
  {
    hide CallAt, Resume, Apply, Pick;
  }

  lemma SlotEnds(cfg: Config, w: World, p: Proc, o: Oracle, n: nat, c: Call)
    requires p.Sleeping?
    ensures CallSlot(cfg, w, p, o, n, c) == None
  {
  }

  lemma TaskCallIs(k: Task, c: Call, t: TenantId)
    requires c == KillCall(t) || c == MarkCallOf(t)
    ensures TaskCall(k) == Some(c) ==> k.tenantId == t && k.stage == if c.Delete? then Kill else Mark
  {
    assert OwnerOf(KeyOf(PodK, t)) == t && OwnerOf(KeyOf(PodK, k.tenantId)) == k.tenantId;
    hide KeyOf, OwnerOf;
  }

  /** The positions of a sweep that runs in order. */
  ghost predicate Orderly(cfg: Config, s: Sweep) {
    InOrder(cfg, s) && AwaitedOver(Sweeping(s))
  }

  lemma OrderlyIsActive(cfg: Config, s: Sweep)
    requires Orderly(cfg, s)
    ensures Active(cfg, Sweeping(s)) && !Ended(Sweeping(s))
  {
    hide Attempted;
  }

  /** Awaiting keeps every turn that is not over, and ends only when all are over. */
  lemma AwaitKeepsTurn(cfg: Config, s: Sweep, now: nat, g: nat)
    requires Orderly(cfg, s) && CanAwait(s) && g < |s.idle|
    ensures var p := AwaitStep(cfg, s, now);
      if p.Sweeping? then
        && Orderly(cfg, p.sweep) && p.sweep.idle == s.idle
        && (TurnOf(cfg, p.sweep, g) == TurnOf(cfg, s, g) || (TurnOf(cfg, p.sweep, g).Over? && TurnOf(cfg, s, g).Over?))
      else p.Sleeping? && TurnOf(cfg, s, g).Over?
  {
    AwaitStepInOrder(cfg, s, now);
    if s.awaited + 1 < |s.tasks| {
      hide InOrder, Batch, Spawned, Accounted;
    } else {
      BatchEndCounts(cfg, s);
      NextBatch(s.idle, s.chunk + 1);
      BatchShape(cfg, s.idle, s.chunk + 1);
      hide InOrder, Batch, Spawned, Accounted;
    }
  }

  /** A step of the sweep: the call and the position it leads to. */
  lemma SweepStep(cfg: Config, w: World, s: Sweep, o: Oracle, n: nat)
    requires Orderly(cfg, s)
    ensures !Halted(cfg, Sweeping(s), o(n).branch)
    ensures var p := Sweeping(s); var ch := ChoiceFor(cfg, p, o, n);
      && CallAt(cfg, p, ch.branch).Some? && ch.fate == o(n).fate
      && var c := CallAt(cfg, p, ch.branch).value; var (w', next) := Advance(cfg, w, p, ch); var r := Apply(w, c, ch).1;
      && w' == Apply(w, c, ch).0
      && (if ch.branch < |s.tasks| then
            c == TaskCall(s.tasks[ch.branch]).value && TaskCall(s.tasks[ch.branch]).Some?
            && next == Sweeping(TaskStep(cfg, s, ch.branch, r))
          else c == Await && CanAwait(s) && next == AwaitStep(cfg, s, w.db.clock) && w' == w)
  {
    OrderlyIsActive(cfg, s);
    ActiveHasCall(cfg, Sweeping(s));
    hide InOrder, AwaitedOver, TaskCall, TaskStep, AwaitStep, StoreCall, KubeCall, Active, Ended;
  }

  /** The call that removes the Pod. */
  lemma OwnKill(cfg: Config, w: World, w': World, s: Sweep, o: Oracle, n: nat, g: nat, tn: Tenant)
    requires Orderly(cfg, s) && First(s) <= g < First(s) + |s.tasks| && RowIs(w, tn)
    requires s.tasks[g - First(s)] == Task(tn.tenantId, Kill)
    requires var p := Sweeping(s); var ch := ChoiceFor(cfg, p, o, n);
      && ch.branch == g - First(s)
      && var r := Apply(w, KillCall(tn.tenantId), ch).1; var (w1, next) := Advance(cfg, w, p, ch);
      Outcome(cfg, w1, w', next, o, n + 1, tn, TaskResume(s.tasks[g - First(s)], r).stage)
    ensures Outcome(cfg, w, w', Sweeping(s), o, n, tn, Kill)
  {
    hide InOrder, AwaitedOver, CallSlot, Present, KeyOf, OwnerOf, TaskStep, CallAt, Advance, KubeCall;
    var p := Sweeping(s); var ch := ChoiceFor(cfg, p, o, n); var t := tn.tenantId;
    SweepStep(cfg, w, s, o, n);
    SlotStep(cfg, w, p, o, n, KillCall(t));
    SlotStep(cfg, w, p, o, n, MarkCallOf(t));
    Limits.Deletes(w.kube, t, PodK, ch);
    assert Apply(w, KillCall(t), ch) == (w.(kube := KubeCall(w.kube, KillCall(t), ch).0),
        KubeCall(w.kube, KillCall(t), ch).1);
    hide Apply;
  }

  /** The call that marks the row. */
  lemma OwnMark(cfg: Config, w: World, w': World, s: Sweep, o: Oracle, n: nat, g: nat, tn: Tenant)
    requires Orderly(cfg, s) && First(s) <= g < First(s) + |s.tasks| && RowIs(w, tn)
    requires s.tasks[g - First(s)] == Task(tn.tenantId, Mark)
    requires var p := Sweeping(s); var ch := ChoiceFor(cfg, p, o, n);
      && ch.branch == g - First(s)
      && var r := Apply(w, MarkCallOf(tn.tenantId), ch).1; var (w1, next) := Advance(cfg, w, p, ch);
      Outcome(cfg, w1, w', next, o, n + 1, tn, TaskResume(s.tasks[g - First(s)], r).stage)
    ensures Outcome(cfg, w, w', Sweeping(s), o, n, tn, Mark)
  {
    hide InOrder, AwaitedOver, CallSlot, Present, KeyOf, OwnerOf, TaskStep, CallAt, Advance, StoreCall;
    var p := Sweeping(s); var ch := ChoiceFor(cfg, p, o, n); var t := tn.tenantId;
    SweepStep(cfg, w, s, o, n);
    SlotStep(cfg, w, p, o, n, MarkCallOf(t));
    Limits.Marks(w.db, t, Suspended, ch);
    assert Apply(w, MarkCallOf(t), ch) == (w.(db := StoreCall(w.db, MarkCallOf(t), ch).0),
        StoreCall(w.db, MarkCallOf(t), ch).1);
    hide Apply;
  }

  /** Any call that is not the tenant's own. */
  lemma OthersCall(cfg: Config, w: World, w': World, s: Sweep, o: Oracle, n: nat, tn: Tenant, stage: Stage)
    requires Orderly(cfg, s)
    requires stage.Over? ==> tn.tenantId in w.db.rows
    requires var p := Sweeping(s); var ch := ChoiceFor(cfg, p, o, n); var (w1, next) := Advance(cfg, w, p, ch);
      && (ch.branch < |s.tasks| ==> s.tasks[ch.branch].tenantId != tn.tenantId)
      && Outcome(cfg, w1, w', next, o, n + 1, tn, stage)
      && Isolation.Untouched(w, w1, tn.tenantId)
    ensures Outcome(cfg, w, w', Sweeping(s), o, n, tn, stage)
  {
    hide InOrder, AwaitedOver, CallSlot, Present, KeyOf, OwnerOf, TaskStep, AwaitStep, CallAt, Advance, Apply, TaskCall;
    var p := Sweeping(s); var ch := ChoiceFor(cfg, p, o, n); var t := tn.tenantId;
    SweepStep(cfg, w, s, o, n);
    SlotStep(cfg, w, p, o, n, KillCall(t));
    SlotStep(cfg, w, p, o, n, MarkCallOf(t));
    if ch.branch < |s.tasks| {
      TaskCallIs(s.tasks[ch.branch], KillCall(t), t);
      TaskCallIs(s.tasks[ch.branch], MarkCallOf(t), t);
    }
    UntouchedPresent(w, Advance(cfg, w, p, ch).0, t);
  }

  lemma TaskKeepsTurns(cfg: Config, s: Sweep, i: nat, r: Reply, g: nat)
    requires Orderly(cfg, s) && i < |s.tasks| && TaskCall(s.tasks[i]).Some? && g < |s.idle|
    ensures var t := TaskStep(cfg, s, i, r);
      && Orderly(cfg, t) && t.idle == s.idle
      && TurnOf(cfg, t, g) == if First(s) + i == g then TaskResume(s.tasks[i], r).stage else TurnOf(cfg, s, g)
    ensures First(s) + i < |s.idle| && s.tasks[i].tenantId == s.idle[First(s) + i].tenantId
    ensures First(s) + i != g ==> s.tasks[i].tenantId != s.idle[g].tenantId
  {
    NotOver(s.tasks[i]);
    TaskHasTurn(cfg, s, i);
    if First(s) + i != g { DistinctAt(cfg, s, First(s) + i, g); }
    hide InOrder, AwaitedOver, TaskCall, TaskResume;
    IdleSweeper.TaskStepKeeps(cfg, s, i, r);
  }

  lemma OverAtEnd(cfg: Config, w: World, p: Proc, o: Oracle, n: nat, tn: Tenant, stage: Stage)
    requires stage.Over? && tn.tenantId in w.db.rows
    ensures Outcome(cfg, w, w, p, o, n, tn, stage)
  {
    hide CallSlot, Present;
  }

  lemma SameOver(cfg: Config, w: World, w': World, p: Proc, o: Oracle, n: nat, tn: Tenant, a: Stage, b: Stage)
    requires a == b || (a.Over? && b.Over?)
    ensures Outcome(cfg, w, w', p, o, n, tn, a) <==> Outcome(cfg, w, w', p, o, n, tn, b)
  {
    hide CallSlot, Present;
  }

  /** What must hold of the row by how far the sweep is with it. */
  predicate Ready0(w: World, tn: Tenant, stage: Stage) {
    if stage.Over? then tn.tenantId in w.db.rows else RowIs(w, tn)
  }

  lemma OwnCallKeeps(w: World, k: Task, tn: Tenant, ch: Choice)
    requires k.tenantId == tn.tenantId && TaskCall(k).Some? && RowIs(w, tn)
    ensures var (w', r) := Apply(w, TaskCall(k).value, ch); Ready0(w', tn, TaskResume(k, r).stage)
  {
    if k.stage == Mark { Limits.Marks(w.db, tn.tenantId, Suspended, ch); }
    hide KeyOf, KubeCall, StoreCall;
  }

  lemma UntouchedReady(w: World, w': World, tn: Tenant, stage: Stage)
    requires Ready0(w, tn, stage) && Isolation.Untouched(w, w', tn.tenantId)
    ensures Ready0(w', tn, stage)
  {
    hide KeyOf;
  }

  lemma TaskIs(k: Task, t: TenantId)
    requires TaskCall(k).Some? && k.tenantId == t
    ensures k == Task(t, Kill) || k == Task(t, Mark)
    ensures TaskCall(k).value == if k.stage == Kill then KillCall(t) else MarkCallOf(t)
  {
  }

  /** The rest of a sweep, for the tenant at position g of its list. */
  lemma {:induction false} SweepOutcome(cfg: Config, w: World, s: Sweep, o: Oracle, n: nat, g: nat, tn: Tenant)
    requires Orderly(cfg, s) && g < |s.idle| && s.idle[g].tenantId == tn.tenantId
    requires Ready0(w, tn, TurnOf(cfg, s, g))
    ensures Outcome(cfg, w, Drive(cfg, w, Sweeping(s), o, n).0, Sweeping(s), o, n, tn, TurnOf(cfg, s, g))
    decreases Rank(Sweeping(s))
  {
    hide CallAt, Resume, Apply, Rank, Orderly, Outcome, Drive, Pick, SomeBranch, TaskCall, TaskResume, TaskStep,
        AwaitStep,
      TurnOf, Ready0, Isolation.Untouched, Advance;
    var p := Sweeping(s); var ch := ChoiceFor(cfg, p, o, n); var i := ch.branch;
    SweepStep(cfg, w, s, o, n);
    DriveStep(cfg, w, p, o, n);
    var c := CallAt(cfg, p, i).value; var r := Apply(w, c, ch).1;
    SweepRank(cfg, w, s, ch);
    var (w1, next) := Advance(cfg, w, p, ch);
    var w' := Drive(cfg, w, p, o, n).0;
    if i < |s.tasks| {
      TaskKeepsTurns(cfg, s, i, r, g);
      if First(s) + i == g {
        OwnTurn(cfg, s, g);
        TaskIs(s.tasks[i], tn.tenantId);
        assert RowIs(w, tn) by { NotOverReady(w, tn, s.tasks[i]); }
        OwnCallKeeps(w, s.tasks[i], tn, ch);
        SweepOutcome(cfg, w1, next.sweep, o, n + 1, g, tn);
        if s.tasks[i].stage == Kill { OwnKill(cfg, w, w', s, o, n, g, tn); }
            else { OwnMark(cfg, w, w', s, o, n, g, tn); }
      } else {
        TaskCallElsewhere(w, s.tasks[i], ch);
        ElsewhereAt(w, w1, s.tasks[i].tenantId, tn.tenantId);
        UntouchedReady(w, w1, tn, TurnOf(cfg, s, g));
        SweepOutcome(cfg, w1, next.sweep, o, n + 1, g, tn);
        ReadyOver(w, tn, TurnOf(cfg, s, g));
        OthersCall(cfg, w, w', s, o, n, tn, TurnOf(cfg, s, g));
      }
    } else {
      AwaitKeepsTurn(cfg, s, w.db.clock, g);
      UntouchedSame(w, tn.tenantId);
      ReadyOver(w, tn, TurnOf(cfg, s, g));
      if next.Sweeping? {
        SameReady(w, tn, TurnOf(cfg, s, g), TurnOf(cfg, next.sweep, g));
        SweepOutcome(cfg, w, next.sweep, o, n + 1, g, tn);
        SameOver(cfg, w, w', next, o, n + 1, tn, TurnOf(cfg, next.sweep, g), TurnOf(cfg, s, g));
      } else {
        Ends(cfg, w, next, o, n + 1);
        OverAtEnd(cfg, w, next, o, n + 1, tn, TurnOf(cfg, s, g));
      }
      OthersCall(cfg, w, w', s, o, n, tn, TurnOf(cfg, s, g));
    }
  }

  lemma SweepRank(cfg: Config, w: World, s: Sweep, ch: Choice)
    requires CallAt(cfg, Sweeping(s), ch.branch).Some?
    ensures Rank(Advance(cfg, w, Sweeping(s), ch).1) < Rank(Sweeping(s))
  {
    RankDrops(cfg, Sweeping(s), ch.branch, Apply(w, CallAt(cfg, Sweeping(s), ch.branch).value, ch).1, w.db.clock);
    hide CallAt, Apply, Resume, Rank;
  }

  lemma OwnTurn(cfg: Config, s: Sweep, g: nat)
    requires First(s) <= g < First(s) + |s.tasks|
    ensures TurnOf(cfg, s, g) == s.tasks[g - First(s)].stage
  {
  }

  lemma NotOverReady(w: World, tn: Tenant, k: Task)
    requires Ready0(w, tn, k.stage) && TaskCall(k).Some?
    ensures RowIs(w, tn)
  {
  }

  lemma ReadyOver(w: World, tn: Tenant, stage: Stage)
    requires Ready0(w, tn, stage)
    ensures tn.tenantId in w.db.rows
  {
  }

  lemma SameReady(w: World, tn: Tenant, a: Stage, b: Stage)
    requires Ready0(w, tn, a) && (b == a || (a.Over? && b.Over?))
    ensures Ready0(w, tn, b)
  {
  }

  // --- Whole sweeps ---

  lemma StartTurn(cfg: Config, w: World, begin: nat, idle: seq<Tenant>, now: nat, g: nat)
    requires Distinct(idle) && g < |idle| && RowIs(w, idle[g])
    ensures var p := StartSweep(cfg, begin, idle, now);
      p.Sweeping? && p.sweep.idle == idle && Orderly(cfg, p.sweep) && TurnOf(cfg, p.sweep, g) == FirstStage(cfg)
    ensures Ready0(w, idle[g], FirstStage(cfg))
  {
    StartInOrder(cfg, begin, idle, now);
    BatchShape(cfg, idle, 0);
    hide Distinct, InOrder, Batch, Spawned;
  }

  /** Whether the query is answered. */
  predicate Answered(w: World, ch: Choice) { ch.fate == Clean && Lists(ch.order, IdleIds(w.db)) }

  lemma QueryStep(cfg: Config, w: World, begin: nat, o: Oracle, n: nat, c: Call)
    requires !c.FindIdle?
    ensures var p := Querying(begin);
      var next := if Answered(w, o(n)) then StartSweep(cfg, begin, Listing(w.db, o(n).order), w.db.clock)
                  else Sleeping(w.db.clock, None);
      && Drive(cfg, w, p, o, n) == Drive(cfg, w, next, o, n + 1)
      && CallSlot(cfg, w, p, o, n, c) == CallSlot(cfg, w, next, o, n + 1, c)
  {
    hide Drive, CallSlot, StartSweep, IdleIds, Lists;
    var p := Querying(begin);
    FollowsStore(cfg, w, p, o, n, FindIdle);
    SlotStep(cfg, w, p, o, n, c);
    assert w == w.(db := w.db);
  }

  /**
   * What a sweep makes of a tenant that is idle when it queries, whatever is lost
   * and in any order: if the query is answered the sweep deletes its Pod; the Pod
   * goes if that takes effect; and the row becomes Suspended if there was a Pod,
   * its deletion was confirmed, and the status update took effect.
   */
  lemma SweepUnderLosses(cfg: Config, w: World, begin: nat, o: Oracle, n: nat, t: TenantId)
    requires cfg.K8s() && WorldAgrees(cfg, w) && t in IdleIds(w.db) && t in w.db.rows
    ensures var p := Querying(begin); var w' := Drive(cfg, w, p, o, n).0;
      var kill, mark := CallSlot(cfg, w, p, o, n, KillCall(t)), CallSlot(cfg, w, p, o, n, MarkCallOf(t));
      var tn, kinds := w.db.rows[t].tenant, Present(w.kube, t);
      && (kill.Some? <==> Answered(w, o(n)))
      && (PodK in kinds && Goes(o, kill, Clean) ==> mark.Some?)
      && Present(w'.kube, t) == (if TakesEffect(o, kill) then kinds - {PodK} else kinds)
      && t == tn.tenantId
      && RowIs(w', if PodK in kinds && Goes(o, kill, Clean)
          && TakesEffect(o, mark) then tn.(status := Suspended) else tn)
  {
    hide Drive, CallSlot, StartSweep, IdleIds, Lists, Present, Distinct, Orderly, TurnOf, KeyOf, OwnerOf, Ready0;
    assert w.db.rows[t].tenant.tenantId == t && RowIs(w, w.db.rows[t].tenant);
    hide WorldAgrees;
    QueryStep(cfg, w, begin, o, n, KillCall(t));
    QueryStep(cfg, w, begin, o, n, MarkCallOf(t));
    if Answered(w, o(n)) {
      var idle := Listing(w.db, o(n).order);
      ListingForm(cfg, w, o(n).order);
      assert Listed(idle, t);
      var g :| 0 <= g < |idle| && idle[g].tenantId == t;
      StartTurn(cfg, w, begin, idle, w.db.clock, g);
      SweepOutcome(cfg, w, StartSweep(cfg, begin, idle, w.db.clock).sweep, o, n + 1, g, idle[g]);
    } else {
      var next := Sleeping(w.db.clock, None);
      Ends(cfg, w, next, o, n + 1);
      SlotEnds(cfg, w, next, o, n + 1, KillCall(t));
      SlotEnds(cfg, w, next, o, n + 1, MarkCallOf(t));
    }
  }

  /**
   * The same without Kubernetes: if the query is answered the sweep marks the row,
   * and the row becomes Suspended if that takes effect; no object is touched.
   */
  lemma SweepWithoutCluster(cfg: Config, w: World, begin: nat, o: Oracle, n: nat, t: TenantId)
    requires !cfg.K8s() && WorldAgrees(cfg, w) && t in IdleIds(w.db) && t in w.db.rows
    ensures var p := Querying(begin); var w' := Drive(cfg, w, p, o, n).0;
      var mark := CallSlot(cfg, w, p, o, n, MarkCallOf(t));
      var tn := w.db.rows[t].tenant;
      && (mark.Some? <==> Answered(w, o(n)))
      && Present(w'.kube, t) == Present(w.kube, t)
      && t == tn.tenantId
      && RowIs(w', if TakesEffect(o, mark) then tn.(status := Suspended) else tn)
  {
    hide Drive, CallSlot, StartSweep, IdleIds, Lists, Present, Distinct, Orderly, TurnOf, KeyOf, OwnerOf, Ready0;
    assert w.db.rows[t].tenant.tenantId == t && RowIs(w, w.db.rows[t].tenant);
    hide WorldAgrees;
    QueryStep(cfg, w, begin, o, n, MarkCallOf(t));
    if Answered(w, o(n)) {
      var idle := Listing(w.db, o(n).order);
      ListingForm(cfg, w, o(n).order);
      assert Listed(idle, t);
      var g :| 0 <= g < |idle| && idle[g].tenantId == t;
      StartTurn(cfg, w, begin, idle, w.db.clock, g);
      SweepOutcome(cfg, w, StartSweep(cfg, begin, idle, w.db.clock).sweep, o, n + 1, g, idle[g]);
    } else {
      var next := Sleeping(w.db.clock, None);
      Ends(cfg, w, next, o, n + 1);
      SlotEnds(cfg, w, next, o, n + 1, MarkCallOf(t));
    }
  }

  /**
   * A sweep leaves an idle Ready tenant Ready without a Pod exactly if there was
   * none, or the deletion of its Pod took effect and either its reply was lost or
   * the status update was lost before taking effect.
   */
  lemma SweepLosesPodExactly(cfg: Config, w: World, begin: nat, o: Oracle, n: nat, t: TenantId)
    requires cfg.K8s() && WorldAgrees(cfg, w) && t in IdleIds(w.db)
    ensures var p := Querying(begin); var w' := Drive(cfg, w, p, o, n).0;
      var kill, mark := CallSlot(cfg, w, p, o, n, KillCall(t)), CallSlot(cfg, w, p, o, n, MarkCallOf(t));
      IsReady(w'.db, t) && PodK !in Present(w'.kube, t)
      <==> || PodK !in Present(w.kube, t)
           || Goes(o, kill, After) || (Goes(o, kill, Clean) && Goes(o, mark, Before))
  {
    assert t in w.db.rows && w.db.rows[t].tenant.status == Ready;
    hide Drive, CallSlot, IdleIds, Lists, Present, KillCall, MarkCallOf, WorldAgrees;
    SweepUnderLosses(cfg, w, begin, o, n, t);
  }

  /**
   * A sweep leaves an idle tenant Suspended with a Pod never, and Ready without
   * some other object only if it was before.
   */
  lemma SweepLeavesTheRest(cfg: Config, w: World, begin: nat, o: Oracle, n: nat, t: TenantId, kind: Kind)
    requires cfg.K8s() && WorldAgrees(cfg, w) && t in IdleIds(w.db) && kind != PodK
    ensures var w' := Drive(cfg, w, Querying(begin), o, n).0;
      && t in w'.db.rows
      && !(w'.db.rows[t].tenant.status == Suspended && PodK in Present(w'.kube, t))
      && (kind in Present(w'.kube, t) <==> kind in Present(w.kube, t))
  {
    assert t in w.db.rows && w.db.rows[t].tenant.status == Ready;
    hide Drive, CallSlot, IdleIds, Lists, Present, KillCall, MarkCallOf, WorldAgrees;
    SweepUnderLosses(cfg, w, begin, o, n, t);
  }

  lemma {:induction false} SweepSpares(cfg: Config, w: World, s: Sweep, o: Oracle, n: nat, t: TenantId)
    requires Orderly(cfg, s) && !Listed(s.idle, t)
    ensures Isolation.Untouched(w, Drive(cfg, w, Sweeping(s), o, n).0, t)
    decreases Rank(Sweeping(s))
  {
    hide CallAt, Resume, Apply, Rank, Orderly, Drive, Pick, SomeBranch, TaskCall, TaskResume, TaskStep, AwaitStep,
      Isolation.Untouched, Advance, Listed;
    var p := Sweeping(s); var ch := ChoiceFor(cfg, p, o, n); var i := ch.branch;
    SweepStep(cfg, w, s, o, n);
    DriveStep(cfg, w, p, o, n);
    var r := Apply(w, CallAt(cfg, p, i).value, ch).1;
    SweepRank(cfg, w, s, ch);
    var (w1, next) := Advance(cfg, w, p, ch);
    NotEmpty(cfg, s);
    if i < |s.tasks| {
      TaskKeepsTurns(cfg, s, i, r, 0);
      ListedAt(s.idle, First(s) + i);
      TaskCallElsewhere(w, s.tasks[i], ch);
      ElsewhereAt(w, w1, s.tasks[i].tenantId, t);
      SweepSpares(cfg, w1, next.sweep, o, n + 1, t);
    } else {
      AwaitKeepsTurn(cfg, s, w.db.clock, 0);
      UntouchedSame(w, t);
      if next.Sweeping? { SweepSpares(cfg, w1, next.sweep, o, n + 1, t); } else { Ends(cfg, w1, next, o, n + 1); }
    }
    UntouchedTrans(w, w1, Drive(cfg, w1, next, o, n + 1).0, t);
  }

  lemma ListedAt(idle: seq<Tenant>, g: nat)
    requires g < |idle|
    ensures Listed(idle, idle[g].tenantId)
  {
  }

  lemma NotEmpty(cfg: Config, s: Sweep)
    requires Orderly(cfg, s)
    ensures s.idle != []
  {
    hide Attempted;
  }

  lemma ListedIsIdle(cfg: Config, w: World, order: seq<TenantId>, t: TenantId)
    requires WorldAgrees(cfg, w) && Lists(order, IdleIds(w.db)) && Listed(Listing(w.db, order), t)
    ensures t in IdleIds(w.db)
  {
    ListingForm(cfg, w, order);
    hide WorldAgrees, Lists, IdleIds;
  }

  /** A sweep, whatever is lost, touches no tenant that is not idle when it queries. */
  lemma SweepSparesTheRest(cfg: Config, w: World, begin: nat, o: Oracle, n: nat, t: TenantId)
    requires WorldAgrees(cfg, w) && t !in IdleIds(w.db)
    ensures Isolation.Untouched(w, Drive(cfg, w, Querying(begin), o, n).0, t)
  {
    hide Drive, StartSweep, IdleIds, Lists, Distinct, Orderly, TurnOf, Isolation.Untouched, Listed, WorldAgrees, RowIs;
    QueryStep(cfg, w, begin, o, n, Await);
    UntouchedSame(w, t);
    if Answered(w, o(n)) && Listing(w.db, o(n).order) != [] {
      var idle := Listing(w.db, o(n).order);
      ListingForm(cfg, w, o(n).order);
      StartTurn(cfg, w, begin, idle, w.db.clock, 0);
      if Listed(idle, t) { ListedIsIdle(cfg, w, o(n).order, t); }
      SweepSpares(cfg, w, StartSweep(cfg, begin, idle, w.db.clock).sweep, o, n + 1, t);
    } else {
      if Answered(w, o(n)) { IdleSweeper.EmptySweep(cfg, begin, w.db.clock); }
      Ends(cfg, w, Sleeping(w.db.clock, None), o, n + 1);
    }
  }
}
