/** A row that somehow was Pending is never given another status by any handler; only DELETE removes it. */
module PendingRows {
  import opened Types
  import opened Manifests
  import opened World
  import opened Handlers
  import opened Protocol
  import opened Agreement
  import Justification

  /** A handler that holds the Pending row can only touch, answer or delete. */
  ghost predicate Harmless(p: Proc, t: TenantId) {
    && (Snapshot(p).Some? && Snapshot(p).value.tenantId == t ==>
          Snapshot(p).value.status == Pending
          && (p.Touching? || p.DeleteClient? || p.DeleteFront? || p.DeleteBack? || p.DeleteLast?))
    && (p.Sweeping? ==>
          && (forall tn :: tn in p.sweep.idle ==> tn.tenantId != t)
          && (forall k :: k in p.sweep.tasks ==> k.tenantId != t))
  }

  ghost predicate RowPending(db: Db, t: TenantId) {
    t in db.issued && (t in db.rows ==> db.rows[t].tenant.status == Pending)
  }

  ghost predicate Stuck(cfg: Config, s: State, t: TenantId) {
    Agrees(cfg, s) && RowPending(s.w.db, t) && forall pid :: pid in s.procs ==> Harmless(s.procs[pid], t)
  }

  ghost predicate HarmlessReply(r: Reply, t: TenantId) {
    && (r.Found? && r.tenant.Some? && r.tenant.value.tenantId == t ==> r.tenant.value.status == Pending)
    && (r.Inserted? ==> r.row.tenantId != t)
    && (r.Idle? ==> forall tn :: tn in r.tenants ==> tn.tenantId != t)
  }

  lemma ListingSkips(db: Db, order: seq<TenantId>, t: TenantId)
    requires RowsAgree(db) && RowPending(db, t) && Lists(order, IdleIds(db))
    ensures forall tn :: tn in Listing(db, order) ==> tn.tenantId != t
  {
    forall tn | tn in Listing(db, order)
      ensures tn.tenantId != t
    {
      var i :| 0 <= i < |order| && tn == Listing(db, order)[i];
      assert order[i] in IdleIds(db);
    }
  }

  lemma ApplyLeavesPending(w: World, c: Call, ch: Choice, t: TenantId)
    requires RowsAgree(w.db) && RowPending(w.db, t)
    requires !(c.UpdateStatus? && c.tenantId == t)
    ensures RowPending(Apply(w, c, ch).0.db, t) && HarmlessReply(Apply(w, c, ch).1, t)
  {
    hide KeyOf, KeyFor, AddObject, RemoveObject, Answers;
    if c.FindIdle? && ch.fate == Clean && Lists(ch.order, IdleIds(w.db)) {
      ListingSkips(w.db, ch.order, t);
    }
  }

  lemma HarmlessCalls(cfg: Config, p: Proc, i: nat, t: TenantId)
    requires Harmless(p, t) && CallAt(cfg, p, i).Some? && CallAt(cfg, p, i).value.UpdateStatus?
    ensures CallAt(cfg, p, i).value.tenantId != t
  {
    hide KeyOf;
  }

  lemma SpawnedSkips(cfg: Config, idle: seq<Tenant>, chunk: nat, t: TenantId)
    requires forall tn :: tn in idle ==> tn.tenantId != t
    ensures forall k :: k in Spawned(cfg, Batch(idle, chunk)) ==> k.tenantId != t
  {
    Justification.SpawnedFrom(cfg, idle, chunk);
  }

  lemma TaskHarmless(cfg: Config, s: Sweep, i: nat, r: Reply, t: TenantId)
    requires Harmless(Sweeping(s), t) && i < |s.tasks|
    ensures Harmless(Sweeping(TaskStep(cfg, s, i, r)), t)
  {
    assert s.tasks[i] in s.tasks;
    assert TaskResume(s.tasks[i], r).tenantId == s.tasks[i].tenantId;
    hide TaskResume;
  }

  lemma AwaitHarmless(cfg: Config, s: Sweep, now: nat, t: TenantId)
    requires Harmless(Sweeping(s), t) && CanAwait(s)
    ensures Harmless(AwaitStep(cfg, s, now), t)
  {
    SpawnedSkips(cfg, s.idle, s.chunk + 1, t);
    hide Batch, Spawned;
  }

  lemma StartHarmless(cfg: Config, begin: nat, idle: seq<Tenant>, now: nat, t: TenantId)
    requires forall tn :: tn in idle ==> tn.tenantId != t
    ensures Harmless(StartSweep(cfg, begin, idle, now), t)
  {
    SpawnedSkips(cfg, idle, 0, t);
    hide Batch, Spawned;
  }

  lemma SweeperHarmless(cfg: Config, p: Proc, i: nat, r: Reply, now: nat, t: TenantId)
    requires IsSweeper(p) && Harmless(p, t) && HarmlessReply(r, t)
    ensures Harmless(SweeperResume(cfg, p, i, r, now), t)
  {
    hide TaskStep, AwaitStep, StartSweep;
    if p.Querying? && r.Idle? {
      StartHarmless(cfg, p.begin, r.tenants, now, t);
    }
    if p.Sweeping? {
      hide Harmless;
      if i < |p.sweep.tasks| {
        TaskHarmless(cfg, p.sweep, i, r, t);
      } else if CanAwait(p.sweep) {
        AwaitHarmless(cfg, p.sweep, now, t);
      }
    }
  }

  lemma HandlerHarmless(cfg: Config, p: Proc, i: nat, r: Reply, t: TenantId)
    requires !IsSweeper(p) && Harmless(p, t) && HarmlessReply(r, t)
    ensures Harmless(if IsSession(p) then SessionResume(cfg, p, i, r) else RequestResume(cfg, p, i, r), t)
  {
    if IsSession(p) {
      hide RequestResume, ProvResume, NewUrl, PublicUrl, ResponseToken;
    } else {
      hide SessionResume, ProvResume;
    }
  }

  lemma StepStuck(cfg: Config, s: State, e: Event, t: TenantId)
    requires Stuck(cfg, s, t)
    ensures Stuck(cfg, Next(cfg, s, e), t)
  {
    hide Resume, Apply, CallAt, KeyOf, Agrees;
    StepAgrees(cfg, s, e);
    if e.Act? && CallOf(cfg, s, e.pid, e.choice).Some? {
      var p, c := s.procs[e.pid], CallOf(cfg, s, e.pid, e.choice).value;
      if c.UpdateStatus? { HarmlessCalls(cfg, p, e.choice.branch, t); }
      assert RowsAgree(s.w.db) by { AgreesRows(cfg, s); }
      ApplyLeavesPending(s.w, c, e.choice, t);
      HarmlessOn(cfg, p, e.choice.branch, Apply(s.w, c, e.choice).1, s.w.db.clock, t);
    }
  }

  lemma AgreesRows(cfg: Config, s: State)
    requires Agrees(cfg, s)
    ensures RowsAgree(s.w.db)
  {
  }

  lemma HarmlessOn(cfg: Config, p: Proc, i: nat, r: Reply, now: nat, t: TenantId)
    requires Harmless(p, t) && HarmlessReply(r, t)
    ensures Harmless(Resume(cfg, p, i, r, now), t)
  {
    hide SessionResume, RequestResume, SweeperResume, Harmless, HarmlessReply;
    if IsSweeper(p) {
      SweeperHarmless(cfg, p, i, r, now, t);
    } else {
      HandlerHarmless(cfg, p, i, r, t);
    }
  }

  /**
   * From any consistent state with a Pending row that no handler has yet misread,
   * every run leaves the row Pending for as long as it exists.
   */
  lemma {:induction false} PendingStays(cfg: Config, s: State, es: Schedule, n: nat, t: TenantId)
    requires Stuck(cfg, s, t)
    ensures Stuck(cfg, From(cfg, s, es, n), t)
  {
    if n > 0 {
      hide Next, Stuck;
      PendingStays(cfg, s, es, n - 1, t);
      StepStuck(cfg, From(cfg, s, es, n - 1), es(n - 1), t);
    }
  }

  /**
   * A consistent table with a Pending row, say one inserted by hand, and no handler
   * at work: at every step of every run the row is Pending, as long as it exists.
   */
  lemma PendingRowStaysPending(cfg: Config, s: State, es: Schedule, n: nat, t: TenantId)
    requires WorldAgrees(cfg, s.w) && s.procs == map[]
    requires t in s.w.db.rows && s.w.db.rows[t].tenant.status == Pending
    ensures var db := From(cfg, s, es, n).w.db; t in db.rows ==> db.rows[t].tenant.status == Pending
  {
    assert Stuck(cfg, s, t) by { StartsStuck(cfg, s, t); }
    hide From;
    PendingStays(cfg, s, es, n, t);
  }

  lemma StartsStuck(cfg: Config, s: State, t: TenantId)
    requires WorldAgrees(cfg, s.w) && s.procs == map[]
    requires t in s.w.db.rows && s.w.db.rows[t].tenant.status == Pending
    ensures Stuck(cfg, s, t)
  {
    hide ObjectsAgree;
  }
}
