/** From which states repeated sessions bring a tenant back to Ready and healthy. */
module Recovery {
  import opened Types
  import opened Manifests
  import opened World
  import opened Handlers
  import opened Agreement
  import opened Serial
  import opened Views

  /** What an engine needs to run and be reached. */
  const CORE: set<Kind> := {PvcK, SecretK, PodK, ServiceK}

  /** Ready, and with everything an engine needs. */
  predicate ReadyHealthy(w: World, u: UserId) {
    && Lookup(w.db, u).Some?
    && var tn := Lookup(w.db, u).value;
       tn.status == Ready && CORE <= Present(w.kube, tn.tenantId)
  }

  predicate RecoverableFrom(status: Status, kinds: set<Kind>) {
    match status
    case Ready => CORE <= kinds
    case Provisioning => PodK !in kinds || CORE <= kinds
    case Error => PodK !in kinds || CORE <= kinds
    case Suspended => PodK !in kinds && {PvcK, SecretK, ServiceK} <= kinds
    case Pending => false
  }

  /**
   * A condition on the state before any session: no row yet; or Ready and
   * healthy; or Provisioning or Error with no Pod or everything in place; or
   * Suspended with no Pod but claim, Secret and Service.
   */
  predicate Recoverable(w: World, u: UserId) {
    Lookup(w.db, u).None? ||
    var tn := Lookup(w.db, u).value;
    RecoverableFrom(tn.status, Present(w.kube, tn.tenantId))
  }

  /** All objects are there; only health checks are missing. */
  predicate Settled(w: World, u: UserId) {
    && Lookup(w.db, u).Some?
    && var tn := Lookup(w.db, u).value;
       tn.status in {Ready, Provisioning, Error} && CORE <= Present(w.kube, tn.tenantId)
  }

  /** Status and objects decide what a session makes of them. */
  lemma SessionStep(cfg: Config, status: Status, kinds: set<Kind>, yes: bool)
    ensures var status', kinds' := SessionStatus(status, kinds, yes), SessionKinds(cfg, status, kinds, yes);
      && (RecoverableFrom(status, kinds) <==> RecoverableFrom(status', kinds'))
      && (RecoverableFrom(status, kinds) ==> status' in {Ready, Provisioning, Error} && CORE <= kinds')
      && (status == Ready ==> status' == Ready && kinds' == kinds)
      && (Unsettled(status) && CORE <= kinds && yes ==> status' == Ready && CORE <= kinds')
  {
    assert CORE <= Full(cfg);
    assert FRONT <= CORE;
  }

  lemma NewIsSettled(cfg: Config)
    ensures CORE <= Full(cfg) && RecoverableFrom(Provisioning, Full(cfg)) && RecoverableFrom(Ready, Full(cfg))
  {
  }

  /** What one fault-free session makes of a user's prospects. */
  lemma OneSession(cfg: Config, w: World, u: UserId, o: Oracle, yes: bool)
    requires cfg.K8s() && cfg.devToken.None? && WorldAgrees(cfg, w)
    requires Smooth(cfg, w, SessionFind(u), o, 0, true) && forall n :: o(n).healthy == yes
    ensures var w' := Drive(cfg, w, SessionFind(u), o, 0).0;
      && WorldAgrees(cfg, w')
      && (Recoverable(w, u) <==> Recoverable(w', u))
      && (Recoverable(w, u) ==> Settled(w', u))
      && (ReadyHealthy(w, u) ==> ReadyHealthy(w', u))
      && (Settled(w, u) && yes ==> ReadyHealthy(w', u))
  {
    hide Drive, Smooth, WorldAgrees, Present, SessionStatus, SessionKinds, Lookup, RecoverableFrom, Full, CORE,
      Elsewhere, SessionAnswer, Known;
    LookupRow(cfg, w, u);
    var w' := Drive(cfg, w, SessionFind(u), o, 0).0;
    if u in w.db.byUser {
      SessionOnRow(cfg, w, u, o, 0);
      LookupRow(cfg, w', u);
      var tn := Lookup(w.db, u).value;
      assert o(2).healthy == yes;
      assert Accepts(cfg, tn);
      SessionStep(cfg, tn.status, Present(w.kube, tn.tenantId), yes);
    } else {
      SessionWithoutRow(cfg, w, u, o, 0);
      LookupRow(cfg, w', u);
      NewIsSettled(cfg);
    }
  }

  // --- Any number of sessions ---

  /** One session after another, each with its own choices. */
  function Sessions(cfg: Config, w: World, u: UserId, os: seq<Oracle>): World
    decreases |os|
  {
    if os == [] then w else Sessions(cfg, Drive(cfg, w, SessionFind(u), os[0], 0).0, u, os[1..])
  }

  /** Every session is fault-free, and the i-th finds the engine ready or not as answers say. */
  ghost predicate AllSmooth(cfg: Config, w: World, u: UserId, os: seq<Oracle>, answers: seq<bool>)
    decreases |os|
  {
    && |os| == |answers|
    && (os != [] ==>
          && Smooth(cfg, w, SessionFind(u), os[0], 0, true)
          && (forall n :: os[0](n).healthy == answers[0])
          && AllSmooth(cfg, Drive(cfg, w, SessionFind(u), os[0], 0).0, u, os[1..], answers[1..]))
  }

  function NotReady(answers: seq<bool>): nat {
    if answers == [] then 0 else (if answers[0] then 0 else 1) + NotReady(answers[1..])
  }

  lemma {:induction false} SomeAnswerIsYes(answers: seq<bool>)
    requires NotReady(answers) < |answers|
    ensures true in answers
  {
    if !answers[0] { SomeAnswerIsYes(answers[1..]); }
  }

  lemma {:induction false} SettledRecovers(cfg: Config, w: World, u: UserId, os: seq<Oracle>, answers: seq<bool>)
    requires cfg.K8s() && cfg.devToken.None? && WorldAgrees(cfg, w) && AllSmooth(cfg, w, u, os, answers)
    requires Recoverable(w, u)
    requires ReadyHealthy(w, u) || (Settled(w, u) && true in answers)
    ensures ReadyHealthy(Sessions(cfg, w, u, os), u)
    decreases |os|
  {
    hide Drive, Smooth, WorldAgrees, Settled, ReadyHealthy, Recoverable;
    if os != [] {
      OneSession(cfg, w, u, os[0], answers[0]);
      SettledRecovers(cfg, Drive(cfg, w, SessionFind(u), os[0], 0).0, u, os[1..], answers[1..]);
    }
  }

  lemma {:induction false} RecoverableStays(cfg: Config, w: World, u: UserId, os: seq<Oracle>, answers: seq<bool>)
    requires cfg.K8s() && cfg.devToken.None? && WorldAgrees(cfg, w) && AllSmooth(cfg, w, u, os, answers)
    ensures Recoverable(w, u) <==> Recoverable(Sessions(cfg, w, u, os), u)
    decreases |os|
  {
    hide Drive, Smooth, WorldAgrees, Settled, ReadyHealthy, Recoverable;
    if os != [] {
      OneSession(cfg, w, u, os[0], answers[0]);
      RecoverableStays(cfg, Drive(cfg, w, SessionFind(u), os[0], 0).0, u, os[1..], answers[1..]);
    }
  }

  lemma ReadyIsRecoverable(w: World, u: UserId)
    requires ReadyHealthy(w, u)
    ensures Recoverable(w, u)
  {
  }

  /**
   * Exact recoverability. From any consistent world at rest, k + 2 fault-free
   * sessions, at most k of which after the first find the engine not yet ready,
   * end Ready and healthy if and only if the start was recoverable.
   */
  lemma RecoversExactly(cfg: Config, w: World, u: UserId, os: seq<Oracle>, answers: seq<bool>, k: nat)
    requires cfg.K8s() && cfg.devToken.None? && WorldAgrees(cfg, w) && AllSmooth(cfg, w, u, os, answers)
    requires |answers| == k + 2 && NotReady(answers[1..]) <= k
    ensures ReadyHealthy(Sessions(cfg, w, u, os), u) <==> Recoverable(w, u)
  {
    hide Drive, Smooth, WorldAgrees, Settled, ReadyHealthy, Recoverable;
    if Recoverable(w, u) {
      OneSession(cfg, w, u, os[0], answers[0]);
      SomeAnswerIsYes(answers[1..]);
      SettledRecovers(cfg, Drive(cfg, w, SessionFind(u), os[0], 0).0, u, os[1..], answers[1..]);
    } else {
      RecoverableStays(cfg, w, u, os, answers);
      if ReadyHealthy(Sessions(cfg, w, u, os), u) {
        ReadyIsRecoverable(Sessions(cfg, w, u, os), u);
      }
    }
  }

  /** What cannot be recovered cannot be recovered by any number of sessions. */
  lemma NeverRecovers(cfg: Config, w: World, u: UserId, os: seq<Oracle>, answers: seq<bool>)
    requires cfg.K8s() && cfg.devToken.None? && WorldAgrees(cfg, w) && AllSmooth(cfg, w, u, os, answers)
    requires !Recoverable(w, u)
    ensures !Recoverable(Sessions(cfg, w, u, os), u) && !ReadyHealthy(Sessions(cfg, w, u, os), u)
  {
    hide Drive, Smooth, WorldAgrees, Recoverable, Sessions;
    RecoverableStays(cfg, w, u, os, answers);
    if ReadyHealthy(Sessions(cfg, w, u, os), u) {
      ReadyIsRecoverable(Sessions(cfg, w, u, os), u);
    }
  }
}
