/** Who may write which status, over all interleaved and faulty runs. */
module Justification {
  import opened Types
  import opened Manifests
  import opened World
  import opened Handlers
  import opened Protocol
  import opened Agreement

  /** What a handler has read or done before it stands where it stands. */
  ghost predicate Justified(p: Proc) {
    match p
    case Waking(tn) => tn.status == Suspended
    case WakeMark(tn) => tn.status == Suspended
    case Probing(tn, isNew) => if isNew then tn.status == Provisioning else Unsettled(tn.status)
    case ReadyMark(tn, isNew) => if isNew then tn.status == Provisioning else Unsettled(tn.status)
    case Checking(tn) => Unsettled(tn.status)
    case Creating(tn, isNew, _) => if isNew then tn.status == Provisioning else Unsettled(tn.status)
    case CreateMark(tn) => Unsettled(tn.status)
    case ErrorMark(tn) => Unsettled(tn.status)
    case SuspendKill(tn) => tn.status == Ready
    case SuspendMark(tn) => tn.status == Ready
    case Sweeping(s) =>
      && (forall tn :: tn in s.idle ==> tn.status == Ready)
      && (forall k :: k in s.tasks ==> Listed(s.idle, k.tenantId))
    case _ => true
  }

  ghost predicate FreshReply(r: Reply) {
    && (r.Inserted? ==> r.row.status == Provisioning)
    && (r.Idle? ==> forall tn :: tn in r.tenants ==> tn.status == Ready)
  }

  lemma ListingIsReady(db: Db, order: seq<TenantId>)
    requires Lists(order, IdleIds(db))
    ensures forall tn :: tn in Listing(db, order) ==> tn.status == Ready
  {
    forall tn | tn in Listing(db, order)
      ensures tn.status == Ready
    {
      var i :| 0 <= i < |order| && tn == Listing(db, order)[i];
      assert order[i] in IdleIds(db);
    }
  }

  lemma RepliesAreFresh(w: World, c: Call, ch: Choice)
    ensures FreshReply(Apply(w, c, ch).1)
  {
    hide KeyOf, KeyFor, SetStatus, SetActive, RemoveRow, AddRow, AddObject, RemoveObject, Answers;
    if c.FindIdle? && ch.fate == Clean && Lists(ch.order, IdleIds(w.db)) {
      ListingIsReady(w.db, ch.order);
    }
  }

  lemma SpawnedFrom(cfg: Config, idle: seq<Tenant>, chunk: nat)
    ensures forall k :: k in Spawned(cfg, Batch(idle, chunk)) ==> Listed(idle, k.tenantId)
  {
    var batch := Batch(idle, chunk);
    forall k | k in Spawned(cfg, batch)
      ensures Listed(idle, k.tenantId)
    {
      var i :| 0 <= i < |batch| && k == Spawned(cfg, batch)[i];
      assert batch[i] in idle;
    }
  }

  lemma SweeperJustified(cfg: Config, p: Proc, i: nat, r: Reply, now: nat)
    requires IsSweeper(p) && Justified(p) && FreshReply(r)
    ensures Justified(SweeperResume(cfg, p, i, r, now))
  {
    hide Batch, Listed;
    if p.Querying? && r.Idle? {
      SpawnedFrom(cfg, r.tenants, 0);
    }
    if p.Sweeping? {
      SpawnedFrom(cfg, p.sweep.idle, p.sweep.chunk + 1);
      if i < |p.sweep.tasks| {
        assert p.sweep.tasks[i] in p.sweep.tasks;
      }
    }
  }

  lemma SessionJustified(cfg: Config, p: Proc, i: nat, r: Reply)
    requires IsSession(p) && Justified(p) && FreshReply(r)
    ensures Justified(SessionResume(cfg, p, i, r))
  {
    hide ProvResume, Listed;
  }

  lemma RequestJustified(cfg: Config, p: Proc, i: nat, r: Reply)
    requires !IsSession(p) && !IsSweeper(p) && Justified(p)
    ensures Justified(RequestResume(cfg, p, i, r))
  {
    hide Listed;
  }

  lemma ResumeJustified(cfg: Config, p: Proc, i: nat, r: Reply, now: nat)
    requires Justified(p) && FreshReply(r)
    ensures Justified(Resume(cfg, p, i, r, now))
  {
    hide Justified, FreshReply, SessionResume, SweeperResume, RequestResume;
    if IsSession(p) {
      SessionJustified(cfg, p, i, r);
    } else if IsSweeper(p) {
      SweeperJustified(cfg, p, i, r, now);
    } else {
      RequestJustified(cfg, p, i, r);
    }
  }

  ghost predicate AllJustified(s: State) {
    forall pid :: pid in s.procs ==> Justified(s.procs[pid])
  }

  lemma StepJustified(cfg: Config, s: State, e: Event)
    requires AllJustified(s)
    ensures AllJustified(Next(cfg, s, e))
  {
    hide Resume, Apply, CallAt, KeyOf;
    if e.Act? && CallOf(cfg, s, e.pid, e.choice).Some? {
      hide Justified;
      var c := CallOf(cfg, s, e.pid, e.choice).value;
      RepliesAreFresh(s.w, c, e.choice);
      ResumeJustified(cfg, s.procs[e.pid], e.choice.branch, Apply(s.w, c, e.choice).1, s.w.db.clock);
    }
  }

  lemma {:induction false} AlwaysJustified(cfg: Config, es: Schedule, n: nat)
    ensures AllJustified(At(cfg, es, n))
  {
    if n > 0 {
      hide Next;
      AlwaysJustified(cfg, es, n - 1);
      StepJustified(cfg, At(cfg, es, n - 1), es(n - 1));
    }
  }

  /** A row's status changes only through a status update that names it, or by its insert. */
  lemma StatusChange(w: World, c: Call, ch: Choice, t: TenantId)
    requires t in Apply(w, c, ch).0.db.rows
    ensures var status := Apply(w, c, ch).0.db.rows[t].tenant.status;
      || (t in w.db.rows && w.db.rows[t].tenant.status == status)
      || c == UpdateStatus(t, status)
      || (c.Insert? && ch.tenantId == t && t !in w.db.issued && status == Provisioning)
  {
    hide KeyOf, KeyFor, AddObject, RemoveObject, Answers, Lookup, IdleIds;
  }

  /** The reason a handler has for the status update it is about to make. */
  ghost predicate Reason(p: Proc, t: TenantId, status: Status) {
    match status
    case Suspended =>
      || (p.SuspendMark? && p.tn.tenantId == t && p.tn.status == Ready)
      || (p.Sweeping? && exists tn :: tn in p.sweep.idle && tn.tenantId == t && tn.status == Ready)
    case Ready =>
      p.ReadyMark? && p.tn.tenantId == t && (if p.isNew then p.tn.status == Provisioning else Unsettled(p.tn.status))
    case Error => p.ErrorMark? && p.tn.tenantId == t
    case Provisioning =>
      && (p.WakeMark? || p.CreateMark?) && p.tn.tenantId == t
      && (if p.WakeMark? then p.tn.status == Suspended else Unsettled(p.tn.status))
    case Pending => false
  }

  lemma UpdateHasReason(cfg: Config, p: Proc, i: nat, t: TenantId, status: Status)
    requires Justified(p) && CallAt(cfg, p, i) == Some(UpdateStatus(t, status))
    ensures Reason(p, t, status)
  {
    hide KeyOf;
    if p.Sweeping? {
      assert p.sweep.tasks[i] in p.sweep.tasks;
    }
  }

  /**
   * In every interleaved run, whenever a row's status changes, it changes by the
   * step of a handler that had a reason: Suspended by one that read Ready; Ready
   * by one that read Provisioning or Error, or inserted the row; Error by one
   * that stands after a failed provisioning run; Provisioning by one that read
   * Suspended, or reprovisioned what it read as Provisioning or Error.
   */
  lemma StatusChangesAreJustified(cfg: Config, es: Schedule, n: nat, t: TenantId)
    requires t in At(cfg, es, n).w.db.rows && t in At(cfg, es, n + 1).w.db.rows
    requires At(cfg, es, n).w.db.rows[t].tenant.status != At(cfg, es, n + 1).w.db.rows[t].tenant.status
    ensures es(n).Act? && es(n).pid in At(cfg, es, n).procs
    ensures Reason(At(cfg, es, n).procs[es(n).pid], t, At(cfg, es, n + 1).w.db.rows[t].tenant.status)
  {
    hide KeyOf, Resume, Apply, CallAt, Reason, Justified, From;
    AtStep(cfg, es, n);
    AlwaysJustified(cfg, es, n);
    AlwaysAgrees(cfg, es, n);
    var s, e := At(cfg, es, n), es(n);
    assert e.Act? && CallOf(cfg, s, e.pid, e.choice).Some?;
    var c := CallOf(cfg, s, e.pid, e.choice).value;
    StatusChange(s.w, c, e.choice, t);
    UpdateHasReason(cfg, s.procs[e.pid], e.choice.branch, t, At(cfg, es, n + 1).w.db.rows[t].tenant.status);
  }

  /** A row is inserted as Provisioning, and no row is ever Pending. */
  lemma {:induction false} PendingIsNeverReached(cfg: Config, es: Schedule, n: nat, t: TenantId)
    ensures t in At(cfg, es, n).w.db.rows ==> At(cfg, es, n).w.db.rows[t].tenant.status != Pending
  {
    if n > 0 {
      hide KeyOf, Resume, Apply, CallAt, Justified, Reason;
      PendingIsNeverReached(cfg, es, n - 1, t);
      AlwaysJustified(cfg, es, n - 1);
      var s, e := At(cfg, es, n - 1), es(n - 1);
      if e.Act? && CallOf(cfg, s, e.pid, e.choice).Some? && t in At(cfg, es, n).w.db.rows {
        var c, status := CallOf(cfg, s, e.pid, e.choice).value, At(cfg, es, n).w.db.rows[t].tenant.status;
        StatusChange(s.w, c, e.choice, t);
        if c == UpdateStatus(t, status) {
          UpdateHasReason(cfg, s.procs[e.pid], e.choice.branch, t, status);
          PendingHasNoReason(s.procs[e.pid], t);
        }
      }
    }
  }

  lemma PendingHasNoReason(p: Proc, t: TenantId)
    ensures !Reason(p, t, Pending)
  {
  }

  /** A provisioning run that ends in an error: one of its calls neither succeeded nor met an existing object. */
  ghost predicate FailsAt(cfg: Config, p: Proc, i: nat, r: Reply, tn: Tenant) {
    && p.Creating? && p.tn == tn
    && (match p.prov
        case Client => !r.Ok?
        case Storage(pvc, secret) => PartOf(r) == Broken || pvc == Broken || secret == Broken
        case Network(_, service, route) => PartOf(r) == Broken || service == Broken || route == Broken
        case _ => PartOf(r) == Broken)
  }

  lemma SweepersSweepOn(cfg: Config, p: Proc, i: nat, r: Reply, now: nat)
    requires IsSweeper(p)
    ensures IsSweeper(SweeperResume(cfg, p, i, r, now))
  {
    hide TaskStep;
  }

  /** Only a provisioning run leads to an error update. */
  lemma ErrorMarkFromRun(cfg: Config, p: Proc, i: nat, r: Reply, now: nat, tn: Tenant)
    requires Resume(cfg, p, i, r, now) == ErrorMark(tn) && !p.ErrorMark?
    ensures p.Creating? && p.tn == tn
  {
    if IsSweeper(p) { SweepersSweepOn(cfg, p, i, r, now); }
    hide SweeperResume, ProvResume, PublicUrl, NewUrl, ResponseToken;
  }

  lemma ErrorMarkAfterFailure(cfg: Config, p: Proc, i: nat, r: Reply, now: nat, tn: Tenant)
    requires CallAt(cfg, p, i).Some? && !p.ErrorMark?
    requires p.Creating? ==> !p.prov.Finished?
    requires Resume(cfg, p, i, r, now) == ErrorMark(tn)
    ensures FailsAt(cfg, p, i, r, tn)
  {
    ErrorMarkFromRun(cfg, p, i, r, now, tn);
    hide KeyOf, BuildPvc, BuildSecret, BuildPod, BuildService, BuildRoute;
  }

  ghost predicate FailedBefore(cfg: Config, es: Schedule, n: nat, pid: nat, tn: Tenant) {
    exists j ::
      && 0 <= j < n && es(j).Act? && es(j).pid == pid
      && CallOf(cfg, At(cfg, es, j), pid, es(j).choice).Some?
      && FailsAt(cfg, At(cfg, es, j).procs[pid], es(j).choice.branch,
                 Apply(At(cfg, es, j).w, CallOf(cfg, At(cfg, es, j), pid, es(j).choice).value, es(j).choice).1, tn)
  }

  ghost predicate Running(p: Proc) { p.Creating? ==> !p.prov.Finished? }

  lemma RunningOn(cfg: Config, p: Proc, i: nat, r: Reply, now: nat)
    requires Running(p)
    ensures Running(Resume(cfg, p, i, r, now))
  {
    hide ProvResume, TaskStep, AwaitStep;
  }

  lemma {:induction false} RunsAreRunning(cfg: Config, es: Schedule, n: nat, pid: nat)
    ensures pid in At(cfg, es, n).procs ==> Running(At(cfg, es, n).procs[pid])
  {
    if n > 0 {
      hide Apply, CallAt, KeyOf, Resume;
      RunsAreRunning(cfg, es, n - 1, pid);
      var s, e := At(cfg, es, n - 1), es(n - 1);
      if e.Act? && CallOf(cfg, s, e.pid, e.choice).Some? {
        RunningOn(cfg, s.procs[e.pid], e.choice.branch,
                  Apply(s.w, CallOf(cfg, s, e.pid, e.choice).value, e.choice).1, s.w.db.clock);
      }
    }
  }

  /** Error is written only by a handler whose provisioning run has failed before. */
  lemma {:induction false} ErrorMeansFailedProvisioning(cfg: Config, es: Schedule, n: nat, pid: nat, tn: Tenant)
    requires pid in At(cfg, es, n).procs && At(cfg, es, n).procs[pid] == ErrorMark(tn)
    ensures FailedBefore(cfg, es, n, pid, tn)
  {
    hide Apply, CallAt, KeyOf, Resume, FailsAt;
    if n > 0 {
      var s, e := At(cfg, es, n - 1), es(n - 1);
      RunsAreRunning(cfg, es, n - 1, pid);
      if pid in s.procs && s.procs[pid] == ErrorMark(tn) {
        ErrorMeansFailedProvisioning(cfg, es, n - 1, pid, tn);
      } else {
        assert e.Act? && e.pid == pid && CallOf(cfg, s, pid, e.choice).Some?;
        if s.procs[pid].ErrorMark? {
          ErrorMarkEnds(cfg, s.procs[pid], e.choice.branch,
                        Apply(s.w, CallOf(cfg, s, pid, e.choice).value, e.choice).1, s.w.db.clock);
        }
        ErrorMarkAfterFailure(cfg, s.procs[pid], e.choice.branch,
                              Apply(s.w, CallOf(cfg, s, pid, e.choice).value, e.choice).1, s.w.db.clock, tn);
      }
    }
  }

  lemma ErrorMarkEnds(cfg: Config, p: Proc, i: nat, r: Reply, now: nat)
    requires p.ErrorMark?
    ensures Resume(cfg, p, i, r, now) == INTERNAL_ERROR
  {
  }
}
