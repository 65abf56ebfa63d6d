/** A row that says Ready was once seen healthy. */
module Witness {
  import opened Types
  import opened Manifests
  import opened World
  import opened Handlers
  import opened Protocol
  import opened Agreement
  import opened Justification
  import Routing

  /** Pod, Service and Secret exist together, and the Secret holds the token issued to t. */
  predicate Complete(s: State, t: TenantId) {
    t in s.w.db.issued && Answers(s.w.kube, t, s.w.db.issued[t].token)
  }

  ghost predicate Seen(cfg: Config, es: Schedule, n: nat, t: TenantId) {
    exists j :: 0 <= j <= n && Complete(At(cfg, es, j), t)
  }

  lemma SeenLater(cfg: Config, es: Schedule, n: nat, t: TenantId)
    requires Seen(cfg, es, n, t)
    ensures Seen(cfg, es, n + 1, t)
  {
    hide At;
  }

  lemma SeenNow(cfg: Config, es: Schedule, n: nat, t: TenantId)
    requires Complete(At(cfg, es, n), t)
    ensures Seen(cfg, es, n + 1, t)
  {
    hide At;
  }

  /** Only an answered health check leads to the update to Ready. */
  lemma OnlyHealthMarksReady(cfg: Config, p: Proc, i: nat, r: Reply, now: nat, tn: Tenant, isNew: bool)
    requires !p.ReadyMark? && Resume(cfg, p, i, r, now) == ReadyMark(tn, isNew)
    ensures p == Probing(tn, isNew) && r == Answer(true)
  {
    if IsSweeper(p) { SweepersSweepOn(cfg, p, i, r, now); }
    hide SweeperResume, ProvResume, PublicUrl, NewUrl, ResponseToken;
  }

  /** A health check that answers yes found everything in place, and presented the issued token. */
  lemma HealthyIsComplete(cfg: Config, s: State, p: Proc, i: nat, ch: Choice, tn: Tenant, isNew: bool)
    requires cfg.K8s() && WorldAgrees(cfg, s.w) && ProcAgrees(s.w.db, p)
    requires CallAt(cfg, p, i).Some? && !p.ReadyMark?
    requires Resume(cfg, p, i, Apply(s.w, CallAt(cfg, p, i).value, ch).1, s.w.db.clock) == ReadyMark(tn, isNew)
    ensures Complete(s, tn.tenantId)
    ensures CallAt(cfg, p, i).value == Probe(TenantService(tn.tenantId), s.w.db.issued[tn.tenantId].token)
  {
    OnlyHealthMarksReady(cfg, p, i, Apply(s.w, CallAt(cfg, p, i).value, ch).1, s.w.db.clock, tn, isNew);
    hide Resume, KeyOf, RowsAgree, ObjectsAgree, StoreCall;
    assert Has(s.w.kube, SecretK, tn.tenantId);
    Routing.SecretHoldsToken(cfg, s.w, tn.tenantId);
  }

  /**
   * In every interleaved run, with deletes and faults: if a row is Ready at step
   * n, or a handler is about to make it Ready, then at some step up to n the
   * tenant's Pod, Service and Secret coexisted with the issued token in place.
   */
  lemma {:induction false} ReadyHasWitness(cfg: Config, es: Schedule, n: nat, t: TenantId)
    requires cfg.K8s()
    ensures t in At(cfg, es, n).w.db.rows && At(cfg, es, n).w.db.rows[t].tenant.status == Ready ==> Seen(cfg, es, n, t)
    ensures forall pid | pid in At(cfg, es, n).procs && At(cfg, es, n).procs[pid].ReadyMark? ::
              At(cfg, es, n).procs[pid].tn.tenantId == t ==> Seen(cfg, es, n, t)
  {
    hide KeyOf, Resume, Apply, CallAt, Seen, Complete, Justified, Reason, ProcAgrees, WorldAgrees;
    if n > 0 {
      ReadyHasWitness(cfg, es, n - 1, t);
      AlwaysJustified(cfg, es, n - 1);
      AlwaysAgrees(cfg, es, n - 1);
      var s, e := At(cfg, es, n - 1), es(n - 1);
      if Seen(cfg, es, n - 1, t) {
        SeenLater(cfg, es, n - 1, t);
      } else if e.Act? && CallOf(cfg, s, e.pid, e.choice).Some? {
        var p, c := s.procs[e.pid], CallOf(cfg, s, e.pid, e.choice).value;
        if t in At(cfg, es, n).w.db.rows && At(cfg, es, n).w.db.rows[t].tenant.status == Ready {
          StatusChange(s.w, c, e.choice, t);
          UpdateHasReason(cfg, p, e.choice.branch, t, Ready);
          ReadyReason(p, t);
        }
        var next := At(cfg, es, n).procs[e.pid];
        if next.ReadyMark? && next.tn.tenantId == t {
          if p.ReadyMark? { ReadyMarkEnds(cfg, p, e.choice.branch, Apply(s.w, c, e.choice).1, s.w.db.clock); }
          HealthyIsComplete(cfg, s, p, e.choice.branch, e.choice, next.tn, next.isNew);
          SeenNow(cfg, es, n - 1, t);
        }
      }
    }
  }

  lemma ReadyReason(p: Proc, t: TenantId)
    requires Reason(p, t, Ready)
    ensures p.ReadyMark? && p.tn.tenantId == t
  {
  }

  lemma ReadyMarkEnds(cfg: Config, p: Proc, i: nat, r: Reply, now: nat)
    requires p.ReadyMark?
    ensures Resume(cfg, p, i, r, now).Done?
  {
  }
}
