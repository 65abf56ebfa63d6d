/**
 * Every answer of success, in every run, is backed by what its handler itself
 * read, asked and had acknowledged before.
 */
module Backing {
  import opened Types
  import opened Manifests
  import opened World
  import opened Handlers
  import opened Protocol
  import opened Agreement
  import opened Justification
  import Sweeps

  /** What a handler learns from one of its calls. */
  datatype Fact =
    | Sent(call: Call)
    | Acked(call: Call)
    | ReadRow(row: Tenant)
    | OwnInsert(row: Tenant)
    | Healthy(tenantId: TenantId)
    | Unhealthy(tenantId: TenantId)
    | SawPod(tenantId: TenantId)

  function FactsOf(c: Call, r: Reply): set<Fact> {
    {Sent(c)}
    + (if r.Ok? then {Acked(c)} else {})
    + (if r.Found? && r.tenant.Some? then {ReadRow(r.tenant.value)} else {})
    + (if r.Inserted? then {OwnInsert(r.row)} else {})
    + (if c.Probe? && r == Answer(true) then {Healthy(c.target.tenantId)} else {})
    + (if c.Probe? && r == Answer(false) then {Unhealthy(c.target.tenantId)} else {})
    + (if c.GetPod? && r == Answer(true) then {SawPod(c.tenantId)} else {})
  }

  /** What handler pid has learnt by step n. */
  function Log(cfg: Config, es: Schedule, n: nat, pid: nat): set<Fact> {
    if n == 0 then {}
    else
      var s, e := At(cfg, es, n - 1), es(n - 1);
      Log(cfg, es, n - 1, pid)
      + (if e.Act? && e.pid == pid && CallOf(cfg, s, pid, e.choice).Some? then
           FactsOf(CallOf(cfg, s, pid, e.choice).value, Apply(s.w, CallOf(cfg, s, pid, e.choice).value, e.choice).1)
         else {})
  }

  /** The address of a tenant as its user sees it. */
  function AddressText(cfg: Config, t: TenantId, gateway: bool): string {
    if gateway && cfg.domain.Some? then cfg.scheme + "://" + (t + "." + cfg.domain.value)
    else Substitute(cfg.template, t)
  }

  /** The token a user is shown: none behind a gateway, else the dev token, else the tenant's own. */
  function ShownToken(cfg: Config, token: Token): Option<Token> {
    if cfg.domain.Some? then None else Some(if cfg.devToken.Some? then cfg.devToken.value else token)
  }

  /** The handler holds a row it inserted, or one it read and has touched. */
  predicate Entered(log: set<Fact>, tn: Tenant, isNew: bool) {
    if isNew then OwnInsert(tn) in log && tn.status == Provisioning
    else ReadRow(tn) in log && Acked(Touch(tn.tenantId)) in log
  }

  /** Why a session that holds tn may answer with this status. */
  predicate StatusBacked(cfg: Config, log: set<Fact>, tn: Tenant, isNew: bool, status: Status) {
    var t := tn.tenantId;
    match status
    case Ready =>
      || (!isNew && tn.status == Ready)
      || ((tn.status == Provisioning || tn.status == Error) && Healthy(t) in log
          && Acked(UpdateStatus(t, Ready)) in log)
    case Provisioning =>
      || (!isNew && tn.status == Suspended && cfg.K8s() && Acked(UpdateStatus(t, Provisioning)) in log)
      || (isNew && Unhealthy(t) in log)
      || (&& !isNew && (tn.status == Provisioning || tn.status == Error) && Unhealthy(t) in log
          && (cfg.K8s() ==> SawPod(t) in log || Acked(UpdateStatus(t, Provisioning)) in log))
    case Pending => !isNew && tn.status == Pending
    case _ => false
  }

  predicate SessionBacked(cfg: Config, log: set<Fact>, r: Response, tn: Tenant, isNew: bool)
    requires r.SessionOk?
  {
    && r.tenantId == tn.tenantId && Entered(log, tn, isNew) && StatusBacked(cfg, log, tn, isNew, r.status)
    && r.url.Text() == AddressText(cfg, tn.tenantId, !isNew || cfg.K8s())
    && r.token == ShownToken(cfg, tn.token)
  }

  /** The deletes of these kinds have been sent; how they went is ignored. */
  predicate DeletesMade(log: set<Fact>, t: TenantId, kinds: set<Kind>) {
    forall kind :: kind in kinds ==> Sent(Delete(KeyOf(kind, t))) in log
  }

  /** Why a 204 may be answered: a suspend or a delete has gone all the way. */
  predicate NoContentBacked(cfg: Config, log: set<Fact>, tn: Tenant) {
    var t := tn.tenantId;
    && ReadRow(tn) in log
    && (|| (&& tn.status == Ready && Acked(UpdateStatus(t, Suspended)) in log
            && (cfg.K8s() ==> Acked(Delete(KeyOf(PodK, t))) in log))
        || (&& Acked(DeleteRow(t)) in log
            && (cfg.K8s() ==> DeletesMade(log, t, {RouteK, ServiceK, PodK, SecretK, PvcK}))))
  }

  predicate AuthBacked(log: set<Fact>, tn: Tenant, r: Response) {
    ReadRow(tn) in log && tn.status == Ready && r.AuthOk? && r.tenantId == tn.tenantId && r.bearer == tn.token
  }

  ghost predicate ResponseBacked(cfg: Config, log: set<Fact>, r: Response) {
    match r
    case SessionOk(_, _, _, _) => exists tn, isNew :: SessionBacked(cfg, log, r, tn, isNew)
    case NoContent => exists tn :: NoContentBacked(cfg, log, tn)
    case StatusOk(t, status) => exists tn :: ReadRow(tn) in log && tn.tenantId == t && tn.status == status
    case AuthOk(t, _, _) => exists tn :: AuthBacked(log, tn, r) && Sent(Touch(t)) in log
    case Fault(_) => true
  }

  /** What a position says about its handler's past. */
  ghost predicate Backed(cfg: Config, log: set<Fact>, p: Proc) {
    match p
    case Touching(tn) => ReadRow(tn) in log
    case Waking(tn) => Entered(log, tn, false) && tn.status == Suspended && cfg.K8s()
    case WakeMark(tn) => Entered(log, tn, false) && tn.status == Suspended && cfg.K8s()
    case Probing(tn, isNew) => Entered(log, tn, isNew) && (isNew || Unsettled(tn.status))
    case ReadyMark(tn, isNew) =>
      Entered(log, tn, isNew) && (isNew || Unsettled(tn.status)) && Healthy(tn.tenantId) in log
    case Checking(tn) => Entered(log, tn, false) && Unsettled(tn.status) && Unhealthy(tn.tenantId) in log && cfg.K8s()
    case Creating(tn, isNew, _) =>
      Entered(log, tn, isNew) && cfg.K8s() && (!isNew ==> Unsettled(tn.status) && Unhealthy(tn.tenantId) in log)
    case CreateMark(tn) => Entered(log, tn, false) && cfg.K8s() && Unsettled(tn.status) && Unhealthy(tn.tenantId) in log
    case SuspendKill(tn) => ReadRow(tn) in log && tn.status == Ready && cfg.K8s()
    case SuspendMark(tn) =>
      ReadRow(tn) in log && tn.status == Ready && (cfg.K8s() ==> Acked(Delete(KeyOf(PodK, tn.tenantId))) in log)
    case DeleteClient(tn) => ReadRow(tn) in log
    case DeleteFront(tn, route, service, pod) =>
      && ReadRow(tn) in log
      && (route || Sent(Delete(KeyOf(RouteK, tn.tenantId))) in log)
      && (service || Sent(Delete(KeyOf(ServiceK, tn.tenantId))) in log)
      && (pod || Sent(Delete(KeyOf(PodK, tn.tenantId))) in log)
    case DeleteBack(tn, secret, pvc) =>
      && ReadRow(tn) in log
      && DeletesMade(log, tn.tenantId, {RouteK, ServiceK, PodK})
      && (secret || Sent(Delete(KeyOf(SecretK, tn.tenantId))) in log)
      && (pvc || Sent(Delete(KeyOf(PvcK, tn.tenantId))) in log)
    case DeleteLast(tn) =>
      ReadRow(tn) in log && (cfg.K8s() ==> DeletesMade(log, tn.tenantId, {RouteK, ServiceK, PodK, SecretK, PvcK}))
    case AuthTouch(tn, r) => AuthBacked(log, tn, r)
    case Done(r) => ResponseBacked(cfg, log, r)
    case _ => true
  }

  /** What a reply can say, by the call it answers. */
  predicate Fits(c: Call, r: Reply) {
    && (r.Found? ==> c.FindByUser?) && (r.Inserted? ==> c.Insert? && r.row.status == Provisioning)
    && (r.Answer? ==> c.Probe? || c.GetPod?)
  }

  lemma RepliesFit(w: World, c: Call, ch: Choice)
    ensures Fits(c, Apply(w, c, ch).1)
  {
    hide KeyOf, KeyFor, Lists, IdleIds, Answers;
  }

  /** What was learnt stays learnt. */
  lemma BackedLater(cfg: Config, log: set<Fact>, log': set<Fact>, p: Proc)
    requires Backed(cfg, log, p) && log <= log'
    ensures Backed(cfg, log', p)
  {
    hide KeyOf, AddressText, ShownToken;
    if p.Done? { ResponseLater(cfg, log, log', p.response); }
    hide ResponseBacked;
  }

  lemma ResponseLater(cfg: Config, log: set<Fact>, log': set<Fact>, r: Response)
    requires ResponseBacked(cfg, log, r) && log <= log'
    ensures ResponseBacked(cfg, log', r)
  {
    hide KeyOf, AddressText, ShownToken;
    match r
    case SessionOk(_, _, _, _) =>
      var tn, isNew :| SessionBacked(cfg, log, r, tn, isNew);
      assert SessionBacked(cfg, log', r, tn, isNew);
    case NoContent =>
      var tn :| NoContentBacked(cfg, log, tn);
      assert NoContentBacked(cfg, log', tn);
    case AuthOk(t, _, _) =>
      var tn :| AuthBacked(log, tn, r) && Sent(Touch(t)) in log;
      assert AuthBacked(log', tn, r) && Sent(Touch(t)) in log';
    case _ =>
  }

  /** The answer of a session, in words: which address and which token it shows. */
  lemma ReplyShows(cfg: Config, tn: Tenant, isNew: bool, status: Status)
    ensures var p := SessionReply(cfg, tn, isNew, status);
      && p.Done? && p.response.SessionOk? && p.response.tenantId == tn.tenantId && p.response.status == status
      && p.response.url.Text() == AddressText(cfg, tn.tenantId, !isNew || cfg.K8s())
      && p.response.token == ShownToken(cfg, tn.token)
  {
    hide Substitute, KeyOf;
  }

  lemma ReplyBacked(cfg: Config, log: set<Fact>, tn: Tenant, isNew: bool, status: Status)
    requires Entered(log, tn, isNew) && StatusBacked(cfg, log, tn, isNew, status)
    ensures Backed(cfg, log, SessionReply(cfg, tn, isNew, status))
  {
    ReplyShows(cfg, tn, isNew, status);
    var p := SessionReply(cfg, tn, isNew, status);
    assert SessionBacked(cfg, log, p.response, tn, isNew);
    hide SessionReply, SessionBacked, Entered, StatusBacked;
  }

  lemma StartBacked(cfg: Config, log: set<Fact>, p: Proc, i: nat, c: Call, r: Reply)
    requires p.SessionFind? || p.SessionInsert? || p.Touching?
    requires CallAt(cfg, p, i) == Some(c) && Fits(c, r) && Backed(cfg, log, p)
    ensures Backed(cfg, log + FactsOf(c, r), SessionResume(cfg, p, i, r))
  {
    hide KeyOf, SessionReply, AddressText, ShownToken;
    var log' := log + FactsOf(c, r);
    if p.Touching? && r.Ok? && p.tn.status != Suspended && !Unsettled(p.tn.status) {
      ReplyBacked(cfg, log', p.tn, false, p.tn.status);
    }
    hide ResponseBacked;
  }

  lemma WakeBacked(cfg: Config, log: set<Fact>, p: Proc, i: nat, c: Call, r: Reply)
    requires p.Waking? || p.WakeMark? || p.CreateMark? || p.ErrorMark?
    requires CallAt(cfg, p, i) == Some(c) && Fits(c, r) && Backed(cfg, log, p)
    ensures Backed(cfg, log + FactsOf(c, r), SessionResume(cfg, p, i, r))
  {
    hide KeyOf, SessionReply, AddressText, ShownToken, BuildPod;
    var log' := log + FactsOf(c, r);
    if (p.WakeMark? || p.CreateMark?) && r.Ok? {
      assert Entered(log', p.tn, false) && StatusBacked(cfg, log', p.tn, false, Provisioning);
      hide Entered, StatusBacked, FactsOf;
      ReplyBacked(cfg, log', p.tn, false, Provisioning);
    }
  }

  lemma CheckBacked(cfg: Config, log: set<Fact>, p: Proc, i: nat, c: Call, r: Reply)
    requires p.Probing? || p.ReadyMark? || p.Checking?
    requires CallAt(cfg, p, i) == Some(c) && Fits(c, r) && Backed(cfg, log, p) && (p.Probing? ==> r.Answer?)
    ensures Backed(cfg, log + FactsOf(c, r), SessionResume(cfg, p, i, r))
  {
    hide KeyOf, SessionReply, AddressText, ShownToken;
    var log' := log + FactsOf(c, r);
    if p.Probing? && !r.yes && (p.isNew || !cfg.K8s()) {
      ReplyBacked(cfg, log', p.tn, p.isNew, Provisioning);
    } else if p.ReadyMark? && r.Ok? {
      ReplyBacked(cfg, log', p.tn, p.isNew, Ready);
    } else if p.Checking? && r.Answer? && r.yes {
      ReplyBacked(cfg, log', p.tn, false, Provisioning);
    }
    hide ResponseBacked;
  }

  lemma RunBacked(cfg: Config, log: set<Fact>, p: Proc, i: nat, c: Call, r: Reply)
    requires p.Creating? && CallAt(cfg, p, i) == Some(c) && Backed(cfg, log, p)
    ensures Backed(cfg, log + FactsOf(c, r), SessionResume(cfg, p, i, r))
  {
    hide KeyOf, ProvCall, ProvResume, FactsOf, ResponseBacked;
  }

  lemma FinderBacked(cfg: Config, log: set<Fact>, p: Proc, i: nat, c: Call, r: Reply)
    requires p.SuspendFind? || p.DeleteFind? || p.AuthFind? || p.StatusFind?
    requires CallAt(cfg, p, i) == Some(c) && Fits(c, r)
    ensures Backed(cfg, log + FactsOf(c, r), RequestResume(cfg, p, i, r))
  {
    var log' := log + FactsOf(c, r);
    if r.Found? && r.tenant.Some? {
      assert ReadRow(r.tenant.value) in log';
      hide FactsOf, AfterFind, Backed;
      FoundBacked(cfg, log', p, r.tenant.value);
    } else {
      hide FactsOf, KeyOf;
    }
  }

  lemma FoundBacked(cfg: Config, log: set<Fact>, p: Proc, tn: Tenant)
    requires (p.SuspendFind? || p.DeleteFind? || p.AuthFind? || p.StatusFind?) && ReadRow(tn) in log
    ensures Backed(cfg, log, AfterFind(cfg, p, Some(tn)))
  {
    hide KeyOf;
    if p.AuthFind? && tn.status == Ready {
      assert AuthBacked(log, tn, AfterFind(cfg, p, Some(tn)).response);
    }
  }

  lemma SuspendBacked(cfg: Config, log: set<Fact>, p: Proc, i: nat, c: Call, r: Reply)
    requires p.SuspendKill? || p.SuspendMark? || p.DeleteLast? || p.AuthTouch? || p.DeleteClient?
    requires CallAt(cfg, p, i) == Some(c) && Backed(cfg, log, p)
    ensures Backed(cfg, log + FactsOf(c, r), RequestResume(cfg, p, i, r))
  {
    hide KeyOf;
    var log' := log + FactsOf(c, r);
    if (p.SuspendMark? || p.DeleteLast?) && r.Ok? {
      assert NoContentBacked(cfg, log', p.tn);
    } else if p.AuthTouch? {
      ResumesAuth(cfg, log', p, i, r);
    }
  }

  lemma ResumesAuth(cfg: Config, log: set<Fact>, p: Proc, i: nat, r: Reply)
    requires p.AuthTouch? && AuthBacked(log, p.tn, p.response) && Sent(Touch(p.tn.tenantId)) in log
    ensures Backed(cfg, log, RequestResume(cfg, p, i, r))
  {
  }

  lemma FrontBacked(cfg: Config, log: set<Fact>, p: Proc, i: nat, c: Call, r: Reply)
    requires p.DeleteFront? && CallAt(cfg, p, i) == Some(c) && Backed(cfg, log, p)
    ensures Backed(cfg, log + FactsOf(c, r), RequestResume(cfg, p, i, r))
  {
    hide KeyOf;
    var log' := log + FactsOf(c, r);
    assert Sent(c) in log' && log <= log';
    hide FactsOf;
  }

  lemma BackBacked(cfg: Config, log: set<Fact>, p: Proc, i: nat, c: Call, r: Reply)
    requires p.DeleteBack? && CallAt(cfg, p, i) == Some(c) && Backed(cfg, log, p)
    ensures Backed(cfg, log + FactsOf(c, r), RequestResume(cfg, p, i, r))
  {
    hide KeyOf;
    var log' := log + FactsOf(c, r);
    assert Sent(c) in log' && log <= log';
    hide FactsOf;
  }

  lemma StepBacked(cfg: Config, log: set<Fact>, p: Proc, i: nat, c: Call, r: Reply, now: nat)
    requires CallAt(cfg, p, i) == Some(c) && Fits(c, r) && Backed(cfg, log, p) && (c.Probe? ==> r.Answer?)
    ensures Backed(cfg, log + FactsOf(c, r), Resume(cfg, p, i, r, now))
  {
    hide CallAt, Backed, FactsOf, Fits, SessionResume, RequestResume, SweeperResume;
    if IsSweeper(p) {
      SweepersSweepOn(cfg, p, i, r, now);
      SweeperBacked(cfg, log + FactsOf(c, r), SweeperResume(cfg, p, i, r, now));
    } else {
      if p.Probing? { ProbingProbes(cfg, p, i); }
      Families(p);
      Isolated(cfg, p, i);
      if p.SessionFind? || p.SessionInsert? || p.Touching? {
        StartBacked(cfg, log, p, i, c, r);
      } else if p.Waking? || p.WakeMark? || p.CreateMark? || p.ErrorMark? {
        WakeBacked(cfg, log, p, i, c, r);
      } else if p.Probing? || p.ReadyMark? || p.Checking? {
        CheckBacked(cfg, log, p, i, c, r);
      } else if p.Creating? {
        RunBacked(cfg, log, p, i, c, r);
      } else if p.SuspendFind? || p.DeleteFind? || p.AuthFind? || p.StatusFind? {
        FinderBacked(cfg, log, p, i, c, r);
      } else if p.DeleteFront? {
        FrontBacked(cfg, log, p, i, c, r);
      } else if p.DeleteBack? {
        BackBacked(cfg, log, p, i, c, r);
      } else {
        SuspendBacked(cfg, log, p, i, c, r);
      }
    }
  }

  lemma SweeperBacked(cfg: Config, log: set<Fact>, p: Proc)
    requires IsSweeper(p)
    ensures Backed(cfg, log, p)
  {
  }

  lemma ProbingProbes(cfg: Config, p: Proc, i: nat)
    requires p.Probing? && CallAt(cfg, p, i).Some?
    ensures CallAt(cfg, p, i).value.Probe?
  {
  }

  lemma Isolated(cfg: Config, p: Proc, i: nat)
    requires CallAt(cfg, p, i).Some?
    ensures !p.Done? && !p.Crashed?
  {
  }

  lemma Families(p: Proc)
    ensures IsSession(p) || IsSweeper(p) || p.SuspendFind? || p.DeleteFind? || p.AuthFind? || p.StatusFind?
            || p.DeleteFront? || p.DeleteBack? || p.SuspendKill? || p.SuspendMark? || p.DeleteLast? || p.AuthTouch?
            || p.DeleteClient? || p.Done? || p.Crashed?
  {
  }

  lemma ProbesAnswer(w: World, c: Call, ch: Choice)
    ensures c.Probe? ==> Apply(w, c, ch).1.Answer?
  {
    hide KeyOf, KeyFor, Answers;
  }

  lemma FreshBacked(cfg: Config, log: set<Fact>, p: Proc, now: nat)
    ensures Initial(p, now) ==> Backed(cfg, log, p)
    ensures Backed(cfg, log, Crashed)
  {
  }

  /** In every run every position, and so every answer, is backed by its handler's own past. */
  lemma {:induction false} AlwaysBacked(cfg: Config, es: Schedule, n: nat, pid: nat)
    requires pid in At(cfg, es, n).procs
    ensures Backed(cfg, Log(cfg, es, n, pid), At(cfg, es, n).procs[pid])
  {
    if n > 0 {
      hide Apply, CallAt, KeyOf, Resume, Backed, FactsOf, Fits, Initial;
      var s, e, log := At(cfg, es, n - 1), es(n - 1), Log(cfg, es, n - 1, pid);
      FreshBacked(cfg, Log(cfg, es, n, pid), At(cfg, es, n).procs[pid], s.w.db.clock);
      if pid in s.procs {
        AlwaysBacked(cfg, es, n - 1, pid);
        BackedLater(cfg, log, Log(cfg, es, n, pid), s.procs[pid]);
        if e.Act? && e.pid == pid && CallOf(cfg, s, pid, e.choice).Some? {
          var c := CallOf(cfg, s, pid, e.choice).value;
          RepliesFit(s.w, c, e.choice);
          ProbesAnswer(s.w, c, e.choice);
          StepBacked(cfg, log, s.procs[pid], e.choice.branch, c, Apply(s.w, c, e.choice).1, s.w.db.clock);
        }
      }
    }
  }

  /**
   * Every finished answer in every run is backed. A session's: the handler inserted
   * the tenant, or read its row and had its touch acknowledged; Ready because it
   * read Ready, or because its check was answered and its update acknowledged;
   * Provisioning because its check was not answered, or its wake acknowledged. A
   * 204: the row's update to Suspended, after the Pod's deletion, or the row's
   * removal, after all five deletes, was acknowledged. An ext-authz answer: it read
   * the row as Ready and sent a touch. A status: it read it.
   */
  lemma AnswersAreBacked(cfg: Config, es: Schedule, n: nat, pid: nat, r: Response)
    requires pid in At(cfg, es, n).procs && At(cfg, es, n).procs[pid] == Done(r)
    ensures ResponseBacked(cfg, Log(cfg, es, n, pid), r)
  {
    hide At, Log, ResponseBacked;
    AlwaysBacked(cfg, es, n, pid);
  }

  // --- What a fact in the log means ---

  /** Handler pid makes the call c with step j. */
  predicate Calls(cfg: Config, es: Schedule, j: nat, pid: nat, c: Call) {
    es(j).Act? && es(j).pid == pid && CallOf(cfg, At(cfg, es, j), pid, es(j).choice) == Some(c)
  }

  function ReplyAt(cfg: Config, es: Schedule, j: nat, c: Call): Reply
    requires es(j).Act?
  {
    Apply(At(cfg, es, j).w, c, es(j).choice).1
  }

  lemma {:induction false} FactHasStep(cfg: Config, es: Schedule, n: nat, pid: nat, f: Fact) returns (j: nat, c: Call)
    requires f in Log(cfg, es, n, pid)
    ensures j < n && Calls(cfg, es, j, pid, c) && f in FactsOf(c, ReplyAt(cfg, es, j, c))
  {
    hide At, CallOf, Apply, FactsOf;
    var s, e := At(cfg, es, n - 1), es(n - 1);
    if f in Log(cfg, es, n - 1, pid) {
      j, c := FactHasStep(cfg, es, n - 1, pid, f);
    } else {
      j, c := n - 1, CallOf(cfg, s, pid, e.choice).value;
    }
  }

  /** The rows a handler has read or inserted carry the user and the token issued with them. */
  lemma {:induction false} LogIsKnown(cfg: Config, es: Schedule, n: nat, pid: nat, tn: Tenant)
    requires ReadRow(tn) in Log(cfg, es, n, pid) || OwnInsert(tn) in Log(cfg, es, n, pid)
    ensures Known(At(cfg, es, n).w.db, tn)
  {
    hide At, Next, Apply, CallOf, KeyOf, Agrees, FactsOf, Known, Remembers;
    var s, e := At(cfg, es, n - 1), es(n - 1);
    AlwaysAgrees(cfg, es, n - 1);
    StepAgrees(cfg, s, e);
    AtStep(cfg, es, n - 1);
    if ReadRow(tn) in Log(cfg, es, n - 1, pid) || OwnInsert(tn) in Log(cfg, es, n - 1, pid) {
      LogIsKnown(cfg, es, n - 1, pid, tn);
      KnownLater(s.w.db, Next(cfg, s, e).w.db, tn);
    } else {
      ReplyIsKnown(cfg, s, e, tn);
    }
  }

  lemma KnownLater(db: Db, db': Db, tn: Tenant)
    requires Known(db, tn) && Remembers(db, db')
    ensures Known(db', tn)
  {
  }

  lemma FactRow(c: Call, r: Reply, tn: Tenant)
    requires ReadRow(tn) in FactsOf(c, r) || OwnInsert(tn) in FactsOf(c, r)
    ensures r == Found(Some(tn)) || r == Inserted(tn)
  {
  }

  lemma ReplyIsKnown(cfg: Config, s: State, e: Event, tn: Tenant)
    requires Agrees(cfg, s) && e.Act? && CallOf(cfg, s, e.pid, e.choice).Some?
    requires var c := CallOf(cfg, s, e.pid, e.choice).value;
      var facts := FactsOf(c, Apply(s.w, c, e.choice).1); ReadRow(tn) in facts || OwnInsert(tn) in facts
    ensures Known(Next(cfg, s, e).w.db, tn)
  {
    hide KeyOf, Apply, CallAt, Resume, WorldAgrees, ProcAgrees, Genuine, Remembers, FactsOf, Known, Doom;
    var c := CallOf(cfg, s, e.pid, e.choice).value;
    FactRow(c, Apply(s.w, c, e.choice).1, tn);
    if c.Create? { CreatesGenuine(cfg, s.w.db, s.procs[e.pid], e.choice.branch); }
    ApplyAgrees(cfg, s.w, c, e.choice);
  }
}
