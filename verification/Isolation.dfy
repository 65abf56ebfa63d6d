/** A handler touches only the tenant whose row it read or inserted. */
module Isolation {
  import opened Types
  import opened Manifests
  import opened World
  import opened Handlers
  import opened Protocol

  /** Row and objects of a tenant are the same in both worlds. */
  ghost predicate Untouched(w: World, w': World, t: TenantId) {
    && (t in w.db.rows <==> t in w'.db.rows)
    && (t in w.db.rows ==> w.db.rows[t] == w'.db.rows[t])
    && forall kind: Kind :: UntouchedObject(w.kube, w'.kube, KeyOf(kind, t))
  }

  predicate UntouchedObject(k: Kube, k': Kube, key: Key) {
    && (key in k.objs <==> key in k'.objs)
    && (key in k.objs ==> k.objs[key] == k'.objs[key])
    && (key in k.inst <==> key in k'.inst)
    && (key in k.inst ==> k.inst[key] == k'.inst[key])
  }

  /** The tenant a call names, if it can change anything. */
  function CallTenant(c: Call, ch: Choice): Option<TenantId> {
    match c
    case Insert(_) => Some(ch.tenantId)
    case UpdateStatus(t, _) => Some(t)
    case Touch(t) => Some(t)
    case DeleteRow(t) => Some(t)
    case Create(m) => Some(OwnerOf(KeyFor(m)))
    case Delete(key) => Some(OwnerOf(key))
    case _ => None
  }

  lemma CallsAreLocal(w: World, c: Call, ch: Choice, t: TenantId)
    requires CallTenant(c, ch) != Some(t)
    ensures Untouched(w, Apply(w, c, ch).0, t)
  {
    hide KeyOf, OwnerOf, KeyFor;
  }

  /** A handler that holds a row calls only for that row's tenant. */
  lemma CallsForOwnTenant(cfg: Config, p: Proc, i: nat, ch: Choice)
    requires Snapshot(p).Some? && CallAt(cfg, p, i).Some?
    ensures var t := CallTenant(CallAt(cfg, p, i).value, ch); t.None? || t == Some(Snapshot(p).value.tenantId)
  {
    hide KeyOf, OwnerOf, KeyFor, BuildPvc, BuildSecret, BuildPod, BuildService, BuildRoute;
  }

  /** A handler keeps the row it read until it is done. */
  predicate Holds(p: Proc, tn: Tenant) {
    Snapshot(p) == Some(tn) || p.Done? || p.Crashed?
  }

  lemma HoldsOn(cfg: Config, p: Proc, i: nat, r: Reply, now: nat, tn: Tenant)
    requires Holds(p, tn)
    ensures Holds(Resume(cfg, p, i, r, now), tn)
  {
    hide ProvResume;
  }

  lemma EndedHolds(p: Proc, tn: Tenant)
    requires p.Done? || p.Crashed?
    ensures Holds(p, tn)
  {
  }

  lemma StepHolds(cfg: Config, s: State, e: Event, pid: nat, tn: Tenant)
    requires pid in s.procs && Holds(s.procs[pid], tn)
    ensures pid in Next(cfg, s, e).procs && Holds(Next(cfg, s, e).procs[pid], tn)
  {
    hide Resume, Apply, CallAt, KeyOf, Holds;
    if e.Act? && e.pid == pid && CallOf(cfg, s, pid, e.choice).Some? {
      HoldsOn(cfg, s.procs[pid], e.choice.branch,
              Apply(s.w, CallOf(cfg, s, pid, e.choice).value, e.choice).1, s.w.db.clock, tn);
    } else if e.Crash? && e.pid == pid {
      EndedHolds(Crashed, tn);
    }
  }

  lemma {:induction false} KeepsHolding(cfg: Config, es: Schedule, n: nat, m: nat, pid: nat, tn: Tenant)
    requires n <= m && pid in At(cfg, es, n).procs && Snapshot(At(cfg, es, n).procs[pid]) == Some(tn)
    ensures pid in At(cfg, es, m).procs && Holds(At(cfg, es, m).procs[pid], tn)
  {
    hide Next;
    if n < m {
      KeepsHolding(cfg, es, n, m - 1, pid, tn);
      StepHolds(cfg, At(cfg, es, m - 1), es(m - 1), pid, tn);
    }
  }

  lemma ActUntouched(cfg: Config, s: State, pid: nat, ch: Choice, tn: Tenant, t: TenantId)
    requires pid in s.procs && Holds(s.procs[pid], tn) && t != tn.tenantId
    ensures Untouched(s.w, Next(cfg, s, Act(pid, ch)).w, t)
  {
    hide Resume, Apply, CallAt, KeyOf, CallTenant;
    if CallOf(cfg, s, pid, ch).Some? {
      var c := CallOf(cfg, s, pid, ch).value;
      EndedIsQuiet(cfg, s.procs[pid], ch.branch);
      CallsForOwnTenant(cfg, s.procs[pid], ch.branch, ch);
      CallsAreLocal(s.w, c, ch, t);
    }
  }

  lemma EndedIsQuiet(cfg: Config, p: Proc, i: nat)
    ensures p.Done? || p.Crashed? ==> CallAt(cfg, p, i).None?
  {
  }

  /**
   * From the step a handler has read or inserted tenant tn, none of its steps
   * changes a row or an object of any other tenant.
   */
  lemma HandlersAreIsolated(cfg: Config, es: Schedule, n: nat, m: nat, pid: nat, tn: Tenant, t: TenantId)
    requires n <= m && pid in At(cfg, es, n).procs && Snapshot(At(cfg, es, n).procs[pid]) == Some(tn)
    requires es(m).Act? && es(m).pid == pid && t != tn.tenantId
    ensures Untouched(At(cfg, es, m).w, At(cfg, es, m + 1).w, t)
  {
    hide Next, Untouched, Holds;
    KeepsHolding(cfg, es, n, m, pid, tn);
    ActUntouched(cfg, At(cfg, es, m), pid, es(m).choice, tn, t);
  }

  lemma TaskCallTenant(k: Task, ch: Choice)
    ensures TaskCall(k).Some? ==> CallTenant(TaskCall(k).value, ch) == Some(k.tenantId)
  {
    hide KeyOf, OwnerOf;
  }

  /**
   * A step of task i of a sweep changes nothing of any tenant but its own;
   * awaiting a task changes nothing at all.
   */
  lemma SweepTasksAreIsolated(cfg: Config, es: Schedule, m: nat, pid: nat, t: TenantId)
    requires pid in At(cfg, es, m).procs && At(cfg, es, m).procs[pid].Sweeping?
    requires es(m).Act? && es(m).pid == pid
    requires var tasks, i := At(cfg, es, m).procs[pid].sweep.tasks, es(m).choice.branch;
      i < |tasks| ==> t != tasks[i].tenantId
    ensures Untouched(At(cfg, es, m).w, At(cfg, es, m + 1).w, t)
  {
    hide At, Untouched, Resume, Apply, KeyOf, CallTenant, TaskCall;
    AtStep(cfg, es, m);
    var s, ch := At(cfg, es, m), es(m).choice;
    if CallOf(cfg, s, pid, ch).Some? {
      var c := CallOf(cfg, s, pid, ch).value;
      var tasks := s.procs[pid].sweep.tasks;
      if ch.branch < |tasks| { TaskCallTenant(tasks[ch.branch], ch); } else { AwaitNamesNobody(ch); }
      CallsAreLocal(s.w, c, ch, t);
    } else {
      AlwaysUntouched(s.w, t);
    }
  }

  lemma AwaitNamesNobody(ch: Choice)
    ensures CallTenant(Await, ch) == None
  {
  }

  lemma AlwaysUntouched(w: World, t: TenantId)
    ensures Untouched(w, w, t)
  {
  }

  lemma StepAfterLostInsert(cfg: Config, s: State, e: Event, pid: nat)
    requires pid in s.procs && s.procs[pid] == INTERNAL_ERROR
    ensures pid in Next(cfg, s, e).procs && Next(cfg, s, e).procs[pid] == INTERNAL_ERROR
    ensures e.Act? && e.pid == pid ==> Next(cfg, s, e) == s
  {
    hide Resume, Apply, CallAt, KeyOf;
    if e.Act? { EndedIsQuiet(cfg, s.procs[pid], e.choice.branch); }
  }

  /**
   * A first session whose insert is refused, or whose reply is lost, answers 500
   * and never makes another call: it creates no object.
   */
  lemma {:induction false} LostInsertCreatesNothing(cfg: Config, es: Schedule, n: nat, m: nat, pid: nat)
    requires n < m && pid in At(cfg, es, n).procs && At(cfg, es, n).procs[pid].SessionInsert?
    requires es(n).Act? && es(n).pid == pid && es(n).choice.branch == 0
    requires !Apply(At(cfg, es, n).w, Insert(At(cfg, es, n).procs[pid].userId), es(n).choice).1.Inserted?
    ensures pid in At(cfg, es, m).procs && At(cfg, es, m).procs[pid] == INTERNAL_ERROR
    ensures At(cfg, es, n + 1).w.kube == At(cfg, es, n).w.kube
    ensures es(m).Act? && es(m).pid == pid ==> At(cfg, es, m + 1) == At(cfg, es, m)
  {
    hide KeyOf;
    if m > n + 1 {
      hide *;
      LostInsertCreatesNothing(cfg, es, n, m - 1, pid);
      assert At(cfg, es, m) == Next(cfg, At(cfg, es, m - 1), es(m - 1)) by { AtStep(cfg, es, m - 1); }
      StepAfterLostInsert(cfg, At(cfg, es, m - 1), es(m - 1), pid);
    }
    AtStep(cfg, es, m);
    StepAfterLostInsert(cfg, At(cfg, es, m), es(m), pid);
  }
}
