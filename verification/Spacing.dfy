/** The sweeper sleeps: its sweeps begin at least 300 seconds apart, in every run. */
module Spacing {
  import opened Types
  import opened Manifests
  import opened World
  import opened Handlers
  import opened Protocol
  import opened IdleBound

  /** Whether sweeper pid begins a sweep with step n: its sleep ends and its query starts. */
  predicate BeginsAt(cfg: Config, es: Schedule, n: nat, pid: nat) {
    && pid in At(cfg, es, n).procs && At(cfg, es, n).procs[pid].Sleeping?
    && pid in At(cfg, es, n + 1).procs && At(cfg, es, n + 1).procs[pid].Querying?
  }

  /** How many sweeps pid begins from step a up to step b. */
  function Begun(cfg: Config, es: Schedule, a: nat, b: nat, pid: nat): nat
    requires a <= b
  {
    if a == b then 0 else Begun(cfg, es, a, b - 1, pid) + (if BeginsAt(cfg, es, b - 1, pid) then 1 else 0)
  }

  /** The time from which a sweeper counts: when its sleep or its sweep began. */
  function SinceOf(p: Proc): nat
    requires IsSweeper(p)
  {
    match p case Sleeping(since, _) => since case Querying(begin) => begin case Sweeping(sweep) => sweep.begin
  }

  lemma SweeperStepSince(cfg: Config, p: Proc, i: nat, r: Reply, now: nat)
    requires IsSweeper(p) && SinceOf(p) <= now
    requires p.Sleeping? && r.Ok? ==> now >= SinceOf(p) + 300
    ensures var next := SweeperResume(cfg, p, i, r, now);
      && IsSweeper(next) && SinceOf(p) <= SinceOf(next) <= now
      && (p.Sleeping? && next.Querying? ==> SinceOf(next) == now && now >= SinceOf(p) + 300)
      && (!p.Sleeping? ==> !next.Querying? || next == p)
  {
    hide Batch, Spawned, TaskResume;
  }

  /** The timer goes off no earlier than 300 seconds after the sleep began. */
  lemma TimerIsLate(cfg: Config, w: World, p: Proc, i: nat, ch: Choice)
    requires p.Sleeping? && CallAt(cfg, p, i).Some?
    ensures Apply(w, CallAt(cfg, p, i).value, ch).1.Ok? ==> w.db.clock >= p.since + 300
  {
    hide KeyOf, StoreCall, KubeCall;
  }

  lemma StepSince(cfg: Config, s: State, e: Event, pid: nat)
    requires pid in s.procs && IsSweeper(s.procs[pid]) && SinceOf(s.procs[pid]) <= s.w.db.clock
    ensures var s' := Next(cfg, s, e);
      && pid in s'.procs && s.w.db.clock <= s'.w.db.clock
      && (IsSweeper(s'.procs[pid]) ==>
            && SinceOf(s.procs[pid]) <= SinceOf(s'.procs[pid]) <= s'.w.db.clock
            && (s.procs[pid].Sleeping? && s'.procs[pid].Querying? ==>
                  SinceOf(s'.procs[pid]) == s.w.db.clock && s.w.db.clock >= SinceOf(s.procs[pid]) + 300))
      && (IsSweeper(s'.procs[pid]) || s'.procs[pid].Crashed?)
  {
    hide KeyOf, SweeperResume, Apply, CallAt;
    if e.Act? && CallOf(cfg, s, e.pid, e.choice).Some? {
      var c := CallOf(cfg, s, e.pid, e.choice).value;
      ClockStill(s.w, c, e.choice);
      if e.pid == pid {
        if s.procs[pid].Sleeping? { TimerIsLate(cfg, s.w, s.procs[pid], e.choice.branch, e.choice); }
        SweeperStepSince(cfg, s.procs[pid], e.choice.branch, Apply(s.w, c, e.choice).1, s.w.db.clock);
      }
    }
  }

  lemma SinceIsPast(cfg: Config, es: Schedule, n: nat, pid: nat)
    requires pid in At(cfg, es, n).procs && IsSweeper(At(cfg, es, n).procs[pid])
    ensures SinceOf(At(cfg, es, n).procs[pid]) <= At(cfg, es, n).w.db.clock
  {
    AlwaysTimes(cfg, es, n, pid);
    hide At;
  }

  lemma ClockGrows(cfg: Config, s: State, e: Event)
    ensures s.w.db.clock <= Next(cfg, s, e).w.db.clock
  {
    hide KeyOf, Resume, Apply, CallAt;
    if e.Act? && CallOf(cfg, s, e.pid, e.choice).Some? {
      ClockStill(s.w, CallOf(cfg, s, e.pid, e.choice).value, e.choice);
    }
  }

  lemma {:induction false} SweepsAreSpaced(cfg: Config, es: Schedule, a: nat, b: nat, pid: nat)
    requires a <= b
    ensures var k, from, s := Begun(cfg, es, a, b, pid), At(cfg, es, a).w.db.clock, At(cfg, es, b);
      && from <= s.w.db.clock
      && (k > 0 ==>
            && from + 300 * (k - 1) <= s.w.db.clock
            && pid in s.procs
            && (IsSweeper(s.procs[pid]) ==> from + 300 * (k - 1) <= SinceOf(s.procs[pid])))
  {
    hide Next, At;
    if a < b {
      SweepsAreSpaced(cfg, es, a, b - 1, pid);
      AtStep(cfg, es, b - 1);
      var s := At(cfg, es, b - 1);
      ClockGrows(cfg, s, es(b - 1));
      if pid in s.procs && IsSweeper(s.procs[pid]) {
        SinceIsPast(cfg, es, b - 1, pid);
        StepSince(cfg, s, es(b - 1), pid);
      } else if pid in s.procs {
        NeverASweeper(cfg, s, es(b - 1), pid);
      }
    }
  }

  lemma NeverASweeper(cfg: Config, s: State, e: Event, pid: nat)
    requires pid in s.procs && !IsSweeper(s.procs[pid])
    ensures pid in Next(cfg, s, e).procs && !IsSweeper(Next(cfg, s, e).procs[pid])
  {
    hide KeyOf, Resume, Apply, CallAt;
    if e.Act? && e.pid == pid && CallOf(cfg, s, pid, e.choice).Some? {
      NotASweeper(cfg, s.procs[pid], e.choice.branch, Apply(s.w, CallOf(cfg, s, pid, e.choice).value, e.choice).1,
          s.w.db.clock);
    }
  }

  /**
   * Between any two steps a sweeper begins at most one sweep more than whole
   * intervals of 300 seconds fit in between.
   */
  lemma SweepsAreBounded(cfg: Config, es: Schedule, a: nat, b: nat, pid: nat)
    requires a <= b
    ensures At(cfg, es, a).w.db.clock <= At(cfg, es, b).w.db.clock
    ensures Begun(cfg, es, a, b, pid) <= (At(cfg, es, b).w.db.clock - At(cfg, es, a).w.db.clock) / 300 + 1
  {
    hide At, Begun;
    SweepsAreSpaced(cfg, es, a, b, pid);
  }

  /** The sleep that begins with step j: of a new sweeper, or after a sweep. */
  predicate SleepStarts(cfg: Config, es: Schedule, j: nat, pid: nat, since: nat) {
    && (pid in At(cfg, es, j).procs ==> !At(cfg, es, j).procs[pid].Sleeping?)
    && pid in At(cfg, es, j + 1).procs && At(cfg, es, j + 1).procs[pid].Sleeping?
    && At(cfg, es, j + 1).procs[pid].since == since == At(cfg, es, j).w.db.clock
  }

  lemma SleeperStays(cfg: Config, s: State, e: Event, pid: nat)
    requires pid in Next(cfg, s, e).procs && Next(cfg, s, e).procs[pid].Sleeping?
    ensures var p' := Next(cfg, s, e).procs[pid];
      if pid in s.procs && s.procs[pid].Sleeping? then p' == s.procs[pid] else p'.since == s.w.db.clock
  {
    hide KeyOf, Batch, Spawned, Apply, ProvResume, PublicUrl, NewUrl, ResponseToken;
  }

  lemma {:induction false} SleepHasStarted(cfg: Config, es: Schedule, n: nat, pid: nat)
    requires pid in At(cfg, es, n).procs && At(cfg, es, n).procs[pid].Sleeping?
    ensures exists j :: 0 <= j < n && SleepStarts(cfg, es, j, pid, At(cfg, es, n).procs[pid].since)
  {
    if n > 0 {
      hide Next, At;
      AtStep(cfg, es, n - 1);
      SleeperStays(cfg, At(cfg, es, n - 1), es(n - 1), pid);
      if pid in At(cfg, es, n - 1).procs && At(cfg, es, n - 1).procs[pid].Sleeping? {
        SleepHasStarted(cfg, es, n - 1, pid);
      } else {
        assert SleepStarts(cfg, es, n - 1, pid, At(cfg, es, n).procs[pid].since);
      }
    }
  }

  lemma SinceOfSleep(p: Proc)
    ensures p.Sleeping? ==> SinceOf(p) == p.since
  {
  }

  /** A sweep begins no earlier than 300 seconds after the sweeper's start, or the end of its sweep before. */
  lemma SleepLasts(cfg: Config, es: Schedule, n: nat, pid: nat)
    requires BeginsAt(cfg, es, n, pid)
    ensures exists j ::
      && 0 <= j < n && SleepStarts(cfg, es, j, pid, At(cfg, es, j).w.db.clock)
      && At(cfg, es, n).w.db.clock >= At(cfg, es, j).w.db.clock + 300
  {
    hide At, Next, SinceOf;
    SleepHasStarted(cfg, es, n, pid);
    SinceIsPast(cfg, es, n, pid);
    assert SinceOf(At(cfg, es, n).procs[pid]) == At(cfg, es,
        n).procs[pid].since by { SinceOfSleep(At(cfg, es, n).procs[pid]); }
    AtStep(cfg, es, n);
    StepSince(cfg, At(cfg, es, n), es(n), pid);
    var j :| 0 <= j < n && SleepStarts(cfg, es, j, pid, At(cfg, es, n).procs[pid].since);
    assert SleepStarts(cfg, es, j, pid, At(cfg, es, j).w.db.clock);
  }
}
