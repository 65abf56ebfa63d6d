/** An object that was removed and made again is another instance: nothing of the old one is left. */
module Instances {
  import opened Types
  import opened Manifests
  import opened World
  import opened Handlers
  import opened Protocol
  import opened Agreement

  /** Every instance number in use was handed out before. */
  ghost predicate HandedOut(k: Kube) {
    k.inst.Keys == k.objs.Keys && forall key :: key in k.inst ==> k.inst[key] < k.next
  }

  lemma CallInstances(k: Kube, c: Call, ch: Choice, key: Key)
    requires HandedOut(k) && IsKubeCall(c)
    ensures var k' := KubeCall(k, c, ch).0;
      && HandedOut(k') && k.next <= k'.next
      && (key in k'.inst ==> (key in k.inst && k'.inst[key] == k.inst[key]) || k'.inst[key] >= k.next)
  {
    hide KeyFor, Answers;
  }

  lemma StepInstances(cfg: Config, s: State, e: Event, key: Key)
    requires HandedOut(s.w.kube)
    ensures var k, k' := s.w.kube, Next(cfg, s, e).w.kube;
      && HandedOut(k') && k.next <= k'.next
      && (key in k'.inst ==> (key in k.inst && k'.inst[key] == k.inst[key]) || k'.inst[key] >= k.next)
  {
    hide KeyOf, CallAt, Resume, StoreCall, KubeCall;
    if e.Act? && CallOf(cfg, s, e.pid, e.choice).Some? {
      var c := CallOf(cfg, s, e.pid, e.choice).value;
      if IsKubeCall(c) { CallInstances(s.w.kube, c, e.choice, key); }
    }
  }

  lemma {:induction false} AlwaysHandedOut(cfg: Config, es: Schedule, n: nat)
    ensures HandedOut(At(cfg, es, n).w.kube)
  {
    if n > 0 {
      hide Next, HandedOut;
      AlwaysHandedOut(cfg, es, n - 1);
      StepInstances(cfg, At(cfg, es, n - 1), es(n - 1), Key(PodK, ""));
    }
  }

  /** Numbers grow, and an object that is not there can only come back with a later one. */
  lemma {:induction false} LaterInstances(cfg: Config, es: Schedule, n: nat, m: nat, key: Key)
    requires n <= m
    ensures var k, k' := At(cfg, es, n).w.kube, At(cfg, es, m).w.kube;
      && k.next <= k'.next
      && (key !in k.objs && key in k'.objs ==> key in k'.inst && k'.inst[key] >= k.next)
  {
    hide Next, At;
    AlwaysHandedOut(cfg, es, m);
    AlwaysHandedOut(cfg, es, n);
    if n < m {
      LaterInstances(cfg, es, n, m - 1, key);
      AlwaysHandedOut(cfg, es, m - 1);
      AtStep(cfg, es, m - 1);
      StepInstances(cfg, At(cfg, es, m - 1), es(m - 1), key);
    }
  }

  /**
   * In every run, an object that exists at step i, not at step n, and again at step
   * m has another instance at m than at i.
   */
  lemma RecreatedIsAnother(cfg: Config, es: Schedule, i: nat, n: nat, m: nat, key: Key)
    requires i <= n <= m && key in At(cfg, es, i).w.kube.objs && key !in At(cfg, es, n).w.kube.objs
    requires key in At(cfg, es, m).w.kube.objs
    ensures var k, k' := At(cfg, es, i).w.kube, At(cfg, es, m).w.kube;
      key in k.inst && key in k'.inst && k.inst[key] != k'.inst[key]
  {
    hide At;
    AlwaysHandedOut(cfg, es, i);
    LaterInstances(cfg, es, i, n, key);
    LaterInstances(cfg, es, n, m, key);
  }
}
