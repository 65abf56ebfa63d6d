/**
 * Any number of handlers and sweepers interleaving call by call, with lost
 * requests, crashes, vanishing Pods and passing time. A schedule lists the
 * events; an event that is not possible when its turn comes changes nothing,
 * so every schedule is a run.
 */
module Protocol {
  import opened Types
  import opened Manifests
  import opened World
  import opened Handlers

  /** doomed collects, as history, the tenants whose row a DELETE handler has read. */
  datatype State = State(w: World, procs: map<nat, Proc>, doomed: set<TenantId>)

  datatype Event =
    | Spawn(pid: nat, start: Proc)
    | Act(pid: nat, choice: Choice)
    | Crash(pid: nat)
    | LosePod(tenantId: TenantId)
    | Tick(amount: nat)

  type Schedule = nat -> Event

  const INIT := State(EMPTY, map[], {})

  predicate Initial(p: Proc, now: nat) {
    p.SessionFind? || p.SuspendFind? || p.DeleteFind? || p.AuthFind? || p.StatusFind?
    || p == Sleeping(now, None)
  }

  /** The call an Act event performs, when it is possible. */
  function CallOf(cfg: Config, s: State, pid: nat, ch: Choice): Option<Call> {
    if pid in s.procs then CallAt(cfg, s.procs[pid], ch.branch) else None
  }

  function Doom(p: Proc, next: Proc): set<TenantId> {
    if p.DeleteFind? && Snapshot(next).Some? then {Snapshot(next).value.tenantId} else {}
  }

  function ActStep(cfg: Config, s: State, pid: nat, ch: Choice): State
    requires CallOf(cfg, s, pid, ch).Some?
  {
    var p := s.procs[pid];
    var (w, r) := Apply(s.w, CallOf(cfg, s, pid, ch).value, ch);
    var next := Resume(cfg, p, ch.branch, r, s.w.db.clock);
    State(w, s.procs[pid := next], s.doomed + Doom(p, next))
  }

  function Next(cfg: Config, s: State, e: Event): State {
    match e
    case Spawn(pid, start) =>
      if pid !in s.procs && Initial(start, s.w.db.clock) then s.(procs := s.procs[pid := start]) else s
    case Act(pid, ch) =>
      if CallOf(cfg, s, pid, ch).Some? then ActStep(cfg, s, pid, ch) else s
    case Crash(pid) =>
      if pid in s.procs && !s.procs[pid].Done? then s.(procs := s.procs[pid := Crashed]) else s
    case LosePod(t) =>
      s.(w := s.w.(kube := RemoveObject(s.w.kube, KeyOf(PodK, t))))
    case Tick(amount) =>
      s.(w := s.w.(db := s.w.db.(clock := s.w.db.clock + amount)))
  }

  /** The state after n events from a given state. */
  function From(cfg: Config, s: State, es: Schedule, n: nat): State {
    if n == 0 then s else Next(cfg, From(cfg, s, es, n - 1), es(n - 1))
  }

  /** The state after n events from an empty table and cluster. */
  function At(cfg: Config, es: Schedule, n: nat): State {
    From(cfg, INIT, es, n)
  }

  lemma AtStep(cfg: Config, es: Schedule, n: nat)
    ensures At(cfg, es, n + 1) == Next(cfg, At(cfg, es, n), es(n))
  {
  }
}
