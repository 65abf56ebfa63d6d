/** One call of a handler method is one step of the handler it implements. */
module Lockstep {
  import opened Types
  import opened Manifests
  import opened World
  import opened Handlers
  import opened Serial

  lemma AnyBranch(w: World, c: Call, ch: Choice, i: nat)
    ensures Apply(w, c, ch.(branch := i)) == Apply(w, c, ch)
  {
    hide KeyOf, OwnerOf, SetStatus, SetActive, AddRow, RemoveRow, IdleIds, Answers, AddObject, RemoveObject;
  }

  lemma Follows(cfg: Config, w: World, p: Proc, o: Oracle, n: nat, i: nat, c: Call)
    requires !p.Sleeping? && Pick(cfg, p, o(n).branch) == i && CallAt(cfg, p, i) == Some(c)
    ensures var (w', r) := Apply(w, c, o(n));
      Drive(cfg, w, p, o, n) == Drive(cfg, w', Resume(cfg, p, i, r, w.db.clock), o, n + 1)
  {
    hide CallAt, Resume, Apply, Pick, Drive;
    DriveStep(cfg, w, p, o, n);
    AnyBranch(w, c, o(n), i);
  }

  /** The positions with one call in flight. */
  predicate HasOneCall(p: Proc) {
    !p.Sleeping? && !p.Creating? && !p.DeleteFront? && !p.DeleteBack? && !p.Sweeping?
  }

  lemma FollowsOnly(cfg: Config, w: World, p: Proc, o: Oracle, n: nat, c: Call)
    requires HasOneCall(p) && OnlyCall(cfg, p) == Some(c)
    ensures var (w', r) := Apply(w, c, o(n));
      Drive(cfg, w, p, o, n) == Drive(cfg, w', Resume(cfg, p, 0, r, w.db.clock), o, n + 1)
  {
    hide OnlyCall, Resume, Apply, Drive;
    Follows(cfg, w, p, o, n, 0, c);
  }

  lemma Ends(cfg: Config, w: World, p: Proc, o: Oracle, n: nat)
    requires Ended(p)
    ensures Drive(cfg, w, p, o, n) == (w, p, n)
  {
    hide Apply, Resume;
  }

  lemma FollowsProv(cfg: Config, w: World, tn: Tenant, isNew: bool, pv: Prov, o: Oracle, n: nat, i: nat, c: Call)
    requires cfg.K8s() && Pick(cfg, Creating(tn, isNew, pv), o(n).branch) == i
    requires ProvCall(SpecOf(cfg, tn.tenantId, tn.token), pv, i) == Some(c)
    ensures IsKubeCall(c)
    ensures var (k, r) := KubeCall(w.kube, c, o(n));
      Drive(cfg, w, Creating(tn, isNew, pv), o, n)
      == Drive(cfg, w.(kube := k), AfterProv(tn, isNew, ProvResume(SpecOf(cfg, tn.tenantId, tn.token), pv, i, r)), o,
          n + 1)
  {
    Follows(cfg, w, Creating(tn, isNew, pv), o, n, i, c);
    hide KeyOf, OwnerOf, Drive, KubeCall, Pick, ProvResume, BuildPvc, BuildSecret, BuildPod, BuildService, BuildRoute;
  }

  lemma FollowsStore(cfg: Config, w: World, p: Proc, o: Oracle, n: nat, c: Call)
    requires HasOneCall(p) && OnlyCall(cfg, p) == Some(c) && IsStoreCall(c)
    ensures var (db, r) := StoreCall(w.db, c, o(n));
      Drive(cfg, w, p, o, n) == Drive(cfg, w.(db := db), Resume(cfg, p, 0, r, w.db.clock), o, n + 1)
  {
    hide OnlyCall, Resume, StoreCall, Drive;
    FollowsOnly(cfg, w, p, o, n, c);
  }

  lemma FollowsKube(cfg: Config, w: World, p: Proc, o: Oracle, n: nat, c: Call)
    requires HasOneCall(p) && OnlyCall(cfg, p) == Some(c) && IsKubeCall(c)
    ensures var (k, r) := KubeCall(w.kube, c, o(n));
      Drive(cfg, w, p, o, n) == Drive(cfg, w.(kube := k), Resume(cfg, p, 0, r, w.db.clock), o, n + 1)
  {
    hide OnlyCall, Resume, KubeCall, Drive;
    FollowsOnly(cfg, w, p, o, n, c);
  }
}
