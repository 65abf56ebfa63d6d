/**
 * Behind a gateway, the answers of the /api routes do not depend on engine
 * tokens: renaming all tokens of a run gives a run in lockstep with it.
 */
module Gateway {
  import opened Types
  import opened Manifests
  import opened World
  import opened Handlers
  import opened Protocol
  import Base64

  type Renaming = Token -> Token

  /** Different tokens stay different, and the dev token stays itself. */
  ghost predicate Admissible(cfg: Config, f: Renaming) {
    && (forall x, y :: f(x) == f(y) ==> x == y)
    && (cfg.devToken.Some? ==> f(cfg.devToken.value) == cfg.devToken.value)
  }

  function RenTenant(f: Renaming, tn: Tenant): Tenant { tn.(token := f(tn.token)) }

  function RenRow(f: Renaming, row: Row): Row { row.(tenant := RenTenant(f, row.tenant)) }

  function RenIssue(f: Renaming, issue: Issue): Issue { issue.(token := f(issue.token)) }

  /** A Secret that holds a token holds the renamed one; every other manifest is the same. */
  function RenManifest(f: Renaming, m: Manifest): (r: Manifest)
    ensures KeyFor(r) == KeyFor(m)
  {
    if m.Secret? && Base64.Decode(m.data).Some? then m.(data := Base64.Encode(f(Base64.Decode(m.data).value))) else m
  }

  function RenDb(f: Renaming, db: Db): Db {
    db.(rows := map t | t in db.rows :: RenRow(f, db.rows[t]),
        issued := map t | t in db.issued :: RenIssue(f, db.issued[t]))
  }

  function RenKube(f: Renaming, k: Kube): Kube {
    k.(objs := map key | key in k.objs :: RenManifest(f, k.objs[key]))
  }

  function RenWorld(f: Renaming, w: World): World { World(RenDb(f, w.db), RenKube(f, w.kube)) }

  function RenCall(f: Renaming, c: Call): Call {
    match c
    case Create(m) => Create(RenManifest(f, m))
    case Probe(target, token) => Probe(target, f(token))
    case _ => c
  }

  function RenTenants(f: Renaming, list: seq<Tenant>): seq<Tenant> {
    seq(|list|, i requires 0 <= i < |list| => RenTenant(f, list[i]))
  }

  function RenReply(f: Renaming, r: Reply): Reply {
    match r
    case Found(Some(tn)) => Found(Some(RenTenant(f, tn)))
    case Inserted(tn) => Inserted(RenTenant(f, tn))
    case Idle(list) => Idle(RenTenants(f, list))
    case _ => r
  }

  function RenChoice(f: Renaming, ch: Choice): Choice { ch.(token := f(ch.token)) }

  /** Only the ext-authz answer shows a token. */
  function RenResponse(f: Renaming, r: Response): Response {
    if r.AuthOk? then r.(bearer := f(r.bearer)) else r
  }

  function RenProc(f: Renaming, p: Proc): Proc {
    match p
    case Touching(tn) => Touching(RenTenant(f, tn))
    case Waking(tn) => Waking(RenTenant(f, tn))
    case WakeMark(tn) => WakeMark(RenTenant(f, tn))
    case Probing(tn, isNew) => Probing(RenTenant(f, tn), isNew)
    case ReadyMark(tn, isNew) => ReadyMark(RenTenant(f, tn), isNew)
    case Checking(tn) => Checking(RenTenant(f, tn))
    case Creating(tn, isNew, pv) => Creating(RenTenant(f, tn), isNew, pv)
    case CreateMark(tn) => CreateMark(RenTenant(f, tn))
    case ErrorMark(tn) => ErrorMark(RenTenant(f, tn))
    case SuspendKill(tn) => SuspendKill(RenTenant(f, tn))
    case SuspendMark(tn) => SuspendMark(RenTenant(f, tn))
    case DeleteClient(tn) => DeleteClient(RenTenant(f, tn))
    case DeleteFront(tn, route, service, pod) => DeleteFront(RenTenant(f, tn), route, service, pod)
    case DeleteBack(tn, secret, pvc) => DeleteBack(RenTenant(f, tn), secret, pvc)
    case DeleteLast(tn) => DeleteLast(RenTenant(f, tn))
    case AuthTouch(tn, response) => AuthTouch(RenTenant(f, tn), RenResponse(f, response))
    case Sweeping(s) => Sweeping(s.(idle := RenTenants(f, s.idle)))
    case Done(response) => Done(RenResponse(f, response))
    case _ => p
  }

  function RenState(f: Renaming, s: State): State {
    State(RenWorld(f, s.w), map pid | pid in s.procs :: RenProc(f, s.procs[pid]), s.doomed)
  }

  function RenEvent(f: Renaming, e: Event): Event {
    if e.Act? then e.(choice := RenChoice(f, e.choice)) else e
  }

  lemma PutRowCommutes(f: Renaming, db: Db, t: TenantId, row: Row)
    ensures RenDb(f, db).(rows := RenDb(f, db).rows[t := RenRow(f, row)]) == RenDb(f, db.(rows := db.rows[t := row]))
  {
    hide RenRow;
    assert RenDb(f, db).rows[t := RenRow(f, row)] == RenDb(f, db.(rows := db.rows[t := row])).rows;
  }

  lemma UpdatesCommute(f: Renaming, db: Db, t: TenantId, status: Status)
    ensures SetStatus(RenDb(f, db), t, status) == RenDb(f, SetStatus(db, t, status))
    ensures SetActive(RenDb(f, db), t) == RenDb(f, SetActive(db, t))
  {
    assert t in RenDb(f, db).rows <==> t in db.rows;
    if t in db.rows {
      var row := db.rows[t];
      assert RenDb(f, db).rows[t] == RenRow(f, row) && RenDb(f, db).clock == db.clock;
      hide RenDb;
      PutRowCommutes(f, db, t, row.(tenant := row.tenant.(status := status)));
      PutRowCommutes(f, db, t, row.(lastActive := db.clock));
    }
  }

  lemma InsertCommutes(f: Renaming, db: Db, u: UserId, t: TenantId, token: Token)
    ensures AddRow(RenDb(f, db), u, t, f(token)) == RenDb(f, AddRow(db, u, t, token))
  {
    assert AddRow(RenDb(f, db), u, t, f(token)).rows == RenDb(f, AddRow(db, u, t, token)).rows;
    assert AddRow(RenDb(f, db), u, t, f(token)).issued == RenDb(f, AddRow(db, u, t, token)).issued;
  }

  lemma RemoveCommutes(f: Renaming, db: Db, t: TenantId)
    ensures RemoveRow(RenDb(f, db), t) == RenDb(f, RemoveRow(db, t))
  {
    assert RemoveRow(RenDb(f, db), t).rows == RenDb(f, RemoveRow(db, t)).rows;
    assert RemoveRow(RenDb(f, db), t).issued == RenDb(f, RemoveRow(db, t)).issued;
  }

  lemma QueriesCommute(f: Renaming, db: Db, u: UserId, order: seq<TenantId>)
    ensures IdleIds(RenDb(f, db)) == IdleIds(db)
    ensures Lists(order, IdleIds(db)) ==> Listing(RenDb(f, db), order) == RenTenants(f, Listing(db, order))
    ensures Lookup(RenDb(f, db), u) == (match Lookup(db, u) case None => None case Some(tn) => Some(RenTenant(f, tn)))
  {
    assert IdleIds(RenDb(f, db)) == IdleIds(db);
    if Lists(order, IdleIds(db)) {
      assert Listing(RenDb(f, db), order) == RenTenants(f, Listing(db, order));
    }
  }

  lemma StoreCommutes(f: Renaming, db: Db, c: Call, ch: Choice)
    requires IsStoreCall(c)
    ensures var (db', r) := StoreCall(db, c, ch);
            StoreCall(RenDb(f, db), c, RenChoice(f, ch)) == (RenDb(f, db'), RenReply(f, r))
  {
    match c
    case FindByUser(u) => QueriesCommute(f, db, u, ch.order);
    case Insert(u) => InsertCommutes(f, db, u, ch.tenantId, ch.token);
    case UpdateStatus(t, status) => UpdatesCommute(f, db, t, status);
    case Touch(t) => UpdatesCommute(f, db, t, Ready);
    case FindIdle => QueriesCommute(f, db, "", ch.order);
    case DeleteRow(t) => RemoveCommutes(f, db, t);
    hide SetStatus, SetActive, AddRow, RemoveRow, Lookup, Listing, IdleIds, Lists, RenTenants;
  }

  lemma AnswersCommutes(cfg: Config, f: Renaming, k: Kube, t: TenantId, token: Token)
    requires Admissible(cfg, f)
    ensures Answers(RenKube(f, k), t, f(token)) <==> Answers(k, t, token)
  {
    hide KeyOf;
    if Has(k, SecretK, t) && k.objs[KeyOf(SecretK, t)].Secret? {
      var d := Base64.Decode(k.objs[KeyOf(SecretK, t)].data);
      if d.Some? { Base64.DecodeEncode(f(d.value)); }
    }
  }

  lemma KubeCommutes(cfg: Config, f: Renaming, k: Kube, c: Call, ch: Choice)
    requires Admissible(cfg, f) && IsKubeCall(c)
    ensures var (k', r) := KubeCall(k, c, ch);
            KubeCall(RenKube(f, k), RenCall(f, c), RenChoice(f, ch)) == (RenKube(f, k'), RenReply(f, r))
  {
    hide KeyOf, Answers, KeyFor, RenKube;
    RenKeeps(f, k);
    match c
    case Probe(target, token) =>
      if target.TenantService? { AnswersCommutes(cfg, f, k, target.tenantId, token); }
    case Create(m) =>
      assert KeyFor(RenManifest(f, m)) == KeyFor(m) by { RenKey(f, m); }
      AddCommutes(f, k, m);
    case Delete(key) => RemoveObjectCommutes(f, k, key);
    case _ =>
  }

  lemma RenKeeps(f: Renaming, k: Kube)
    ensures RenKube(f, k).objs.Keys == k.objs.Keys
  {
  }

  lemma RenKey(f: Renaming, m: Manifest)
    ensures KeyFor(RenManifest(f, m)) == KeyFor(m)
  {
  }

  lemma AddCommutes(f: Renaming, k: Kube, m: Manifest)
    ensures AddObject(RenKube(f, k), RenManifest(f, m)) == RenKube(f, AddObject(k, m))
  {
    RenKey(f, m);
    hide RenManifest, KeyFor;
    assert AddObject(RenKube(f, k), RenManifest(f, m)).objs == RenKube(f, AddObject(k, m)).objs;
  }

  lemma RemoveObjectCommutes(f: Renaming, k: Kube, key: Key)
    ensures RemoveObject(RenKube(f, k), key) == RenKube(f, RemoveObject(k, key))
  {
    hide RenManifest;
    assert RemoveObject(RenKube(f, k), key).objs == RenKube(f, RemoveObject(k, key)).objs;
  }

  lemma ApplyCommutes(cfg: Config, f: Renaming, w: World, c: Call, ch: Choice)
    requires Admissible(cfg, f)
    ensures var (w', r) := Apply(w, c, ch);
            Apply(RenWorld(f, w), RenCall(f, c), RenChoice(f, ch)) == (RenWorld(f, w'), RenReply(f, r))
  {
    hide StoreCall, KubeCall, RenManifest;
    if IsStoreCall(c) {
      StoreCommutes(f, w.db, c, ch);
    } else if IsKubeCall(c) {
      KubeCommutes(cfg, f, w.kube, c, ch);
    }
  }

  function RenSome(f: Renaming, c: Option<Call>): Option<Call> {
    if c.Some? then Some(RenCall(f, c.value)) else None
  }

  lemma BuildsCommute(cfg: Config, f: Renaming, tn: Tenant)
    ensures var spec, spec' := SpecOf(cfg, tn.tenantId, tn.token), SpecOf(cfg, tn.tenantId, f(tn.token));
      && BuildPvc(spec') == RenManifest(f, BuildPvc(spec))
      && BuildSecret(spec') == RenManifest(f, BuildSecret(spec))
      && BuildPod(spec') == RenManifest(f, BuildPod(spec))
      && BuildService(spec') == RenManifest(f, BuildService(spec))
      && (spec.domain.Some? ==> BuildRoute(spec') == RenManifest(f, BuildRoute(spec)))
  {
    hide KeyOf;
    Base64.DecodeEncode(tn.token);
  }

  lemma ProvCallCommutes(cfg: Config, f: Renaming, tn: Tenant, pv: Prov, i: nat)
    ensures ProvCall(SpecOf(cfg, tn.tenantId, f(tn.token)), pv, i)
            == RenSome(f, ProvCall(SpecOf(cfg, tn.tenantId, tn.token), pv, i))
  {
    hide KeyOf, BuildPvc, BuildSecret, BuildPod, BuildService, BuildRoute, RenManifest;
    BuildsCommute(cfg, f, tn);
  }

  lemma CallCommutes(cfg: Config, f: Renaming, p: Proc, i: nat)
    requires Admissible(cfg, f)
    ensures CallAt(cfg, RenProc(f, p), i) == RenSome(f, CallAt(cfg, p, i))
  {
    hide KeyOf, BuildPvc, BuildSecret, BuildPod, BuildService, BuildRoute, RenManifest, ProvCall, ProbeCall, RenTenants;
    if p.Waking? {
      BuildsCommute(cfg, f, p.tn);
    } else if p.Creating? {
      ProvCallCommutes(cfg, f, p.tn, p.prov, i);
    } else if p.Probing? {
      ProbeCommutes(cfg, f, p.tn, p.isNew);
    } else if p.Sweeping? {
      TaskCallsCommute(f, p.sweep, i);
      hide TaskCall;
    } else {
      PlainCallCommutes(cfg, f, p, i);
      hide CallAt, RenProc, RenSome;
    }
  }

  lemma TaskCallsCommute(f: Renaming, s: Sweep, i: nat)
    ensures i < |s.tasks| ==> RenSome(f, TaskCall(s.tasks[i])) == TaskCall(s.tasks[i])
  {
    hide KeyOf;
  }

  /** Calls that carry neither a token nor a manifest. */
  lemma PlainCallCommutes(cfg: Config, f: Renaming, p: Proc, i: nat)
    requires !p.Waking? && !p.Creating? && !p.Probing? && !p.Sweeping?
    ensures CallAt(cfg, RenProc(f, p), i) == RenSome(f, CallAt(cfg, p, i))
  {
    hide KeyOf, RenManifest, RenResponse;
  }

  lemma ProbeCommutes(cfg: Config, f: Renaming, tn: Tenant, isNew: bool)
    requires Admissible(cfg, f)
    ensures ProbeCall(cfg, RenTenant(f, tn), isNew) == RenCall(f, ProbeCall(cfg, tn, isNew))
  {
  }

  lemma EarlyCommutes(cfg: Config, f: Renaming, p: Proc, i: nat, r: Reply)
    requires p.SessionFind? || p.SessionInsert? || p.Touching?
    requires cfg.domain.Some?
    ensures SessionResume(cfg, RenProc(f, p), i, RenReply(f, r)) == RenProc(f, SessionResume(cfg, p, i, r))
  {
    hide ProvResume, RenTenants, PublicUrl;
  }

  lemma RunCommutes(cfg: Config, f: Renaming, p: Proc, i: nat, r: Reply)
    requires p.Creating?
    ensures SessionResume(cfg, RenProc(f, p), i, RenReply(f, r)) == RenProc(f, SessionResume(cfg, p, i, r))
  {
    ProvCommutes(cfg, f, p.tn, p.prov, i, r);
    hide ProvResume, RenReply;
  }

  lemma WakeCommutes(cfg: Config, f: Renaming, p: Proc, i: nat, r: Reply)
    requires p.Waking? || p.WakeMark? || p.CreateMark? || p.ErrorMark?
    requires cfg.domain.Some?
    ensures SessionResume(cfg, RenProc(f, p), i, RenReply(f, r)) == RenProc(f, SessionResume(cfg, p, i, r))
  {
    hide ProvResume, RenTenants, PublicUrl, NewUrl;
  }

  lemma CheckCommutes(cfg: Config, f: Renaming, p: Proc, i: nat, r: Reply)
    requires p.Probing? || p.ReadyMark? || p.Checking?
    requires cfg.domain.Some?
    ensures SessionResume(cfg, RenProc(f, p), i, RenReply(f, r)) == RenProc(f, SessionResume(cfg, p, i, r))
  {
    hide ProvResume, RenTenants, PublicUrl, NewUrl;
  }

  lemma SessionCommutes(cfg: Config, f: Renaming, p: Proc, i: nat, r: Reply)
    requires cfg.domain.Some? && IsSession(p)
    ensures SessionResume(cfg, RenProc(f, p), i, RenReply(f, r)) == RenProc(f, SessionResume(cfg, p, i, r))
  {
    hide SessionResume, RenProc, RenReply;
    if p.SessionFind? || p.SessionInsert? || p.Touching? {
      EarlyCommutes(cfg, f, p, i, r);
    } else if p.Creating? {
      RunCommutes(cfg, f, p, i, r);
    } else if p.Probing? || p.ReadyMark? || p.Checking? {
      CheckCommutes(cfg, f, p, i, r);
    } else {
      WakeCommutes(cfg, f, p, i, r);
    }
  }

  lemma ProvCommutes(cfg: Config, f: Renaming, tn: Tenant, pv: Prov, i: nat, r: Reply)
    ensures ProvResume(SpecOf(cfg, tn.tenantId, f(tn.token)), pv, i, RenReply(f, r))
            == ProvResume(SpecOf(cfg, tn.tenantId, tn.token), pv, i, r)
  {
  }

  lemma FindCommutes(cfg: Config, f: Renaming, p: Proc, tn: Tenant)
    requires p.SessionFind? || p.SuspendFind? || p.DeleteFind? || p.AuthFind? || p.StatusFind?
    ensures AfterFind(cfg, p, Some(RenTenant(f, tn))) == RenProc(f, AfterFind(cfg, p, Some(tn)))
    ensures RenProc(f, AfterFind(cfg, p, None)) == AfterFind(cfg, p, None)
  {
  }

  lemma FinderCommutes(cfg: Config, f: Renaming, p: Proc, i: nat, r: Reply)
    requires p.SuspendFind? || p.DeleteFind? || p.AuthFind? || p.StatusFind?
    ensures RequestResume(cfg, RenProc(f, p), i, RenReply(f, r)) == RenProc(f, RequestResume(cfg, p, i, r))
  {
    hide AfterFind, RenTenants;
    if r.Found? && r.tenant.Some? {
      FindCommutes(cfg, f, p, r.tenant.value);
    } else if r.Found? {
      FindCommutes(cfg, f, p, Tenant("", "", [], Ready));
    }
  }

  lemma GroupCommutes(cfg: Config, f: Renaming, p: Proc, i: nat, r: Reply)
    requires p.DeleteFront? || p.DeleteBack?
    ensures RequestResume(cfg, RenProc(f, p), i, RenReply(f, r)) == RenProc(f, RequestResume(cfg, p, i, r))
  {
    hide RenTenants, RenTenant, RenReply;
  }

  lemma DeleteCommutes(cfg: Config, f: Renaming, p: Proc, i: nat, r: Reply)
    requires p.DeleteClient? || p.DeleteLast?
    ensures RequestResume(cfg, RenProc(f, p), i, RenReply(f, r)) == RenProc(f, RequestResume(cfg, p, i, r))
  {
    hide AfterFind, RenTenants, RenTenant;
  }

  lemma OtherCommutes(cfg: Config, f: Renaming, p: Proc, i: nat, r: Reply)
    requires p.SuspendKill? || p.SuspendMark? || p.AuthTouch? || p.Done? || p.Crashed?
    ensures RequestResume(cfg, RenProc(f, p), i, RenReply(f, r)) == RenProc(f, RequestResume(cfg, p, i, r))
  {
    hide AfterFind, RenTenants, RenTenant;
  }

  lemma RequestCommutes(cfg: Config, f: Renaming, p: Proc, i: nat, r: Reply)
    requires !IsSession(p) && !IsSweeper(p)
    ensures RequestResume(cfg, RenProc(f, p), i, RenReply(f, r)) == RenProc(f, RequestResume(cfg, p, i, r))
  {
    hide RequestResume, RenProc, RenReply;
    if p.SuspendFind? || p.DeleteFind? || p.AuthFind? || p.StatusFind? {
      FinderCommutes(cfg, f, p, i, r);
    } else if p.DeleteFront? || p.DeleteBack? {
      GroupCommutes(cfg, f, p, i, r);
    } else if p.DeleteClient? || p.DeleteLast? {
      DeleteCommutes(cfg, f, p, i, r);
    } else {
      OtherCommutes(cfg, f, p, i, r);
    }
  }

  lemma SpawnedCommutes(cfg: Config, f: Renaming, idle: seq<Tenant>, chunk: nat)
    ensures Spawned(cfg, Batch(RenTenants(f, idle), chunk)) == Spawned(cfg, Batch(idle, chunk))
    ensures Batch(RenTenants(f, idle), chunk) == [] <==> Batch(idle, chunk) == []
  {
  }

  lemma StartCommutes(cfg: Config, f: Renaming, begin: nat, idle: seq<Tenant>, now: nat)
    ensures StartSweep(cfg, begin, RenTenants(f, idle), now) == RenProc(f, StartSweep(cfg, begin, idle, now))
  {
    SpawnedCommutes(cfg, f, idle, 0);
    hide Batch, Spawned;
    assert seq(|idle|, _ => 0) == seq(|RenTenants(f, idle)|, _ => 0);
  }

  lemma NextHandleCommutes(cfg: Config, f: Renaming, s: Sweep, now: nat)
    requires CanAwait(s) && s.awaited + 1 < |s.tasks|
    ensures AwaitStep(cfg, s.(idle := RenTenants(f, s.idle)), now) == RenProc(f, AwaitStep(cfg, s, now))
  {
    hide Batch, Spawned, RenTenants;
  }

  /** The sweep with its next batch spawned. */
  function NextSweep(cfg: Config, s: Sweep, ok: bool, now: nat): Sweep {
    Sweep(s.begin, s.queried, s.idle, s.chunk + 1, now, Spawned(cfg, Batch(s.idle, s.chunk + 1)), 0,
          if ok then s.suspended + 1 else s.suspended, if ok then s.failed else s.failed + 1, s.attempts)
  }

  lemma NextBatchIs(cfg: Config, s: Sweep, now: nat)
    requires CanAwait(s) && s.awaited + 1 >= |s.tasks| && Batch(s.idle, s.chunk + 1) != []
    ensures AwaitStep(cfg, s, now) == Sweeping(NextSweep(cfg, s, s.tasks[s.awaited].stage.ok, now))
  {
    hide Batch, Spawned;
  }

  lemma SameNextSweep(cfg: Config, s: Sweep, list: seq<Tenant>, ok: bool, now: nat)
    requires Spawned(cfg, Batch(list, s.chunk + 1)) == Spawned(cfg, Batch(s.idle, s.chunk + 1))
    ensures NextSweep(cfg, s.(idle := list), ok, now) == NextSweep(cfg, s, ok, now).(idle := list)
    ensures NextSweep(cfg, s, ok, now).idle == s.idle
  {
    hide Batch, Spawned;
  }

  lemma NextBatchCommutes(cfg: Config, f: Renaming, s: Sweep, now: nat)
    requires CanAwait(s) && s.awaited + 1 >= |s.tasks| && Batch(s.idle, s.chunk + 1) != []
    ensures AwaitStep(cfg, s.(idle := RenTenants(f, s.idle)), now) == RenProc(f, AwaitStep(cfg, s, now))
  {
    hide Batch, Spawned, RenTenants, AwaitStep, NextSweep, RenProc;
    SpawnedCommutes(cfg, f, s.idle, s.chunk + 1);
    NextBatchIs(cfg, s, now);
    NextBatchIs(cfg, s.(idle := RenTenants(f, s.idle)), now);
    var ok := s.tasks[s.awaited].stage.ok;
    SameNextSweep(cfg, s, RenTenants(f, s.idle), ok, now);
    RenSweeping(f, NextSweep(cfg, s, ok, now));
  }

  lemma RenSweeping(f: Renaming, s: Sweep)
    ensures RenProc(f, Sweeping(s)) == Sweeping(s.(idle := RenTenants(f, s.idle)))
  {
    hide RenTenants;
  }

  lemma LastBatchCommutes(cfg: Config, f: Renaming, s: Sweep, now: nat)
    requires CanAwait(s) && s.awaited + 1 >= |s.tasks| && Batch(s.idle, s.chunk + 1) == []
    ensures AwaitStep(cfg, s.(idle := RenTenants(f, s.idle)), now) == RenProc(f, AwaitStep(cfg, s, now))
  {
    SpawnedCommutes(cfg, f, s.idle, s.chunk + 1);
    assert |RenTenants(f, s.idle)| == |s.idle|;
    hide Batch, Spawned, RenTenants;
  }

  lemma AwaitCommutes(cfg: Config, f: Renaming, s: Sweep, now: nat)
    requires CanAwait(s)
    ensures AwaitStep(cfg, s.(idle := RenTenants(f, s.idle)), now) == RenProc(f, AwaitStep(cfg, s, now))
  {
    hide AwaitStep, RenProc, RenTenants, Batch;
    if s.awaited + 1 < |s.tasks| {
      NextHandleCommutes(cfg, f, s, now);
    } else if Batch(s.idle, s.chunk + 1) == [] {
      LastBatchCommutes(cfg, f, s, now);
    } else {
      NextBatchCommutes(cfg, f, s, now);
    }
  }

  lemma TaskCommutes(cfg: Config, f: Renaming, s: Sweep, i: nat, r: Reply)
    requires i < |s.tasks|
    ensures var t := TaskStep(cfg, s, i, r);
            TaskStep(cfg, s.(idle := RenTenants(f, s.idle)), i, RenReply(f, r)) == t.(idle := RenTenants(f, t.idle))
  {
    hide RenTenants;
  }

  lemma SweeperCommutes(cfg: Config, f: Renaming, p: Proc, i: nat, r: Reply, now: nat)
    requires IsSweeper(p)
    ensures SweeperResume(cfg, RenProc(f, p), i, RenReply(f, r), now) == RenProc(f, SweeperResume(cfg, p, i, r, now))
  {
    hide StartSweep, AwaitStep, TaskStep, RenTenants;
    match p
    case Sleeping(_, _) =>
    case Querying(begin) =>
      if r.Idle? { StartCommutes(cfg, f, begin, r.tenants, now); }
    case Sweeping(s) =>
      if i < |s.tasks| {
        TaskCommutes(cfg, f, s, i, r);
      } else if CanAwait(s) {
        AwaitCommutes(cfg, f, s, now);
      }
  }

  lemma ResumeCommutes(cfg: Config, f: Renaming, p: Proc, i: nat, r: Reply, now: nat)
    requires cfg.domain.Some?
    ensures Resume(cfg, RenProc(f, p), i, RenReply(f, r), now) == RenProc(f, Resume(cfg, p, i, r, now))
  {
    hide SessionResume, RequestResume, SweeperResume, RenReply;
    if IsSession(p) {
      SessionCommutes(cfg, f, p, i, r);
    } else if IsSweeper(p) {
      SweeperCommutes(cfg, f, p, i, r, now);
    } else {
      RequestCommutes(cfg, f, p, i, r);
    }
  }

  lemma DoomCommutes(f: Renaming, p: Proc, next: Proc)
    ensures Doom(RenProc(f, p), RenProc(f, next)) == Doom(p, next)
  {
  }

  lemma ActCommutes(cfg: Config, f: Renaming, s: State, pid: nat, ch: Choice)
    requires cfg.domain.Some? && Admissible(cfg, f) && CallOf(cfg, s, pid, ch).Some?
    ensures CallOf(cfg, RenState(f, s), pid, RenChoice(f, ch)).Some?
    ensures ActStep(cfg, RenState(f, s), pid, RenChoice(f, ch)) == RenState(f, ActStep(cfg, s, pid, ch))
  {
    hide CallAt, Resume, Apply, RenProc, RenWorld, RenCall, RenReply, Doom, Admissible;
    var p := s.procs[pid];
    CallCommutes(cfg, f, p, ch.branch);
    var c := CallOf(cfg, s, pid, ch).value;
    ApplyCommutes(cfg, f, s.w, c, ch);
    var (w, r) := Apply(s.w, c, ch);
    ResumeCommutes(cfg, f, p, ch.branch, r, s.w.db.clock);
    DoomCommutes(f, p, Resume(cfg, p, ch.branch, r, s.w.db.clock));
    assert RenWorld(f, s.w).db.clock == s.w.db.clock by { SameClock(f, s.w); }
    var next := ActStep(cfg, s, pid, ch);
    assert RenState(f, next).procs == RenState(f, s).procs[pid := RenProc(f, next.procs[pid])];
  }

  lemma SameClock(f: Renaming, w: World)
    ensures RenWorld(f, w).db.clock == w.db.clock
  {
  }

  lemma PutCommutes(f: Renaming, s: State, pid: nat, p: Proc)
    ensures RenState(f, s.(procs := s.procs[pid := p]))
        == RenState(f, s).(procs := RenState(f, s).procs[pid := RenProc(f, p)])
  {
    hide RenProc, RenWorld;
    assert RenState(f, s.(procs := s.procs[pid := p])).procs == RenState(f, s).procs[pid := RenProc(f, p)];
  }

  lemma SpawnCommutes(cfg: Config, f: Renaming, s: State, pid: nat, start: Proc)
    ensures Next(cfg, RenState(f, s), Spawn(pid, start)) == RenState(f, Next(cfg, s, Spawn(pid, start)))
  {
    PutCommutes(f, s, pid, start);
    SameClock(f, s.w);
    assert Initial(start, s.w.db.clock) ==> RenProc(f, start) == start;
    hide RenWorld, RenProc;
  }

  lemma CrashCommutes(cfg: Config, f: Renaming, s: State, pid: nat)
    ensures Next(cfg, RenState(f, s), Crash(pid)) == RenState(f, Next(cfg, s, Crash(pid)))
  {
    PutCommutes(f, s, pid, Crashed);
    assert forall p: Proc :: RenProc(f, p).Done? <==> p.Done?;
    assert RenProc(f, Crashed) == Crashed;
    hide RenWorld, RenProc;
  }

  lemma WorldCommutes(f: Renaming, w: World, t: TenantId, amount: nat)
    ensures RenWorld(f, w.(kube := RemoveObject(w.kube, KeyOf(PodK, t))))
         == RenWorld(f, w).(kube := RemoveObject(RenWorld(f, w).kube, KeyOf(PodK, t)))
    ensures RenWorld(f, w.(db := w.db.(clock := w.db.clock + amount)))
         == RenWorld(f, w).(db := RenWorld(f, w).db.(clock := RenWorld(f, w).db.clock + amount))
  {
    hide KeyOf, RenManifest, RenRow;
    var k := RemoveObject(w.kube, KeyOf(PodK, t));
    assert RenKube(f, k).objs == RemoveObject(RenKube(f, w.kube), KeyOf(PodK, t)).objs;
  }

  lemma StepCommutes(cfg: Config, f: Renaming, s: State, e: Event)
    requires cfg.domain.Some? && Admissible(cfg, f)
    ensures Next(cfg, RenState(f, s), RenEvent(f, e)) == RenState(f, Next(cfg, s, e))
  {
    hide KeyOf, CallAt, Resume, Apply, RenWorld, RenProc, ActStep, RemoveObject;
    match e
    case Act(pid, ch) =>
      if CallOf(cfg, s, pid, ch).Some? {
        ActCommutes(cfg, f, s, pid, ch);
      } else if pid in s.procs {
        CallCommutes(cfg, f, s.procs[pid], ch.branch);
      }
    case Spawn(pid, start) => SpawnCommutes(cfg, f, s, pid, start);
    case Crash(pid) => CrashCommutes(cfg, f, s, pid);
    case LosePod(t) => WorldCommutes(f, s.w, t, 0);
    case Tick(amount) => WorldCommutes(f, s.w, "", amount);
  }

  lemma {:induction false} RunsCommute(cfg: Config, f: Renaming, es: Schedule, n: nat)
    requires cfg.domain.Some? && Admissible(cfg, f)
    ensures At(cfg, (k: nat) => RenEvent(f, es(k)), n) == RenState(f, At(cfg, es, n))
  {
    if n == 0 {
      assert RenState(f, INIT) == INIT;
    } else {
      hide Next, RenState;
      RunsCommute(cfg, f, es, n - 1);
      StepCommutes(cfg, f, At(cfg, es, n - 1), es(n - 1));
    }
  }

  /**
   * With a gateway domain, two runs that differ only in the tokens they issue,
   * by any renaming that keeps tokens apart and fixes the dev token, have the
   * same handlers in flight at every step, and every answer given is the
   * same, except that ext-authz injects the renamed token. No answer of
   * an /api route contains a token.
   */
  lemma ResponsesIgnoreTokens(cfg: Config, f: Renaming, es: Schedule, n: nat, pid: nat)
    requires cfg.domain.Some? && Admissible(cfg, f)
    ensures var s, s' := At(cfg, es, n), At(cfg, (k: nat) => RenEvent(f, es(k)), n);
      && s'.procs.Keys == s.procs.Keys
      && s'.w.db.byUser == s.w.db.byUser && s'.w.kube.objs.Keys == s.w.kube.objs.Keys
      && (pid in s.procs ==>
            match AnswerOf(s.procs[pid])
            case None => AnswerOf(s'.procs[pid]) == None
            case Some(r) => AnswerOf(s'.procs[pid]) == Some(if r.AuthOk? then r.(bearer := f(r.bearer)) else r))
  {
    hide At, RenState, AnswerOf;
    RunsCommute(cfg, f, es, n);
    RenamedAnswers(f, At(cfg, es, n), pid);
  }

  lemma RenamedAnswers(f: Renaming, s: State, pid: nat)
    ensures var s' := RenState(f, s);
      && s'.procs.Keys == s.procs.Keys
      && s'.w.db.byUser == s.w.db.byUser && s'.w.kube.objs.Keys == s.w.kube.objs.Keys
      && (pid in s.procs ==>
            match AnswerOf(s.procs[pid])
            case None => AnswerOf(s'.procs[pid]) == None
            case Some(r) => AnswerOf(s'.procs[pid]) == Some(if r.AuthOk? then r.(bearer := f(r.bearer)) else r))
  {
    hide RenManifest, RenRow, RenTenants, RenTenant;
  }

  ghost predicate Tokenless(p: Proc) {
    p.Done? && p.response.SessionOk? ==> p.response.token.None?
  }

  lemma TokenlessOn(cfg: Config, p: Proc, i: nat, r: Reply, now: nat)
    requires cfg.domain.Some? && Tokenless(p) && (p.AuthTouch? ==> p.response.AuthOk?)
    ensures Tokenless(Resume(cfg, p, i, r, now))
    ensures Resume(cfg, p, i, r, now).AuthTouch? ==> Resume(cfg, p, i, r, now).response.AuthOk?
  {
    if IsSession(p) {
      hide RequestResume, SweeperResume, ProvResume, PublicUrl, NewUrl;
    } else if IsSweeper(p) {
      hide RequestResume, SessionResume, TaskStep, Batch, Spawned;
    } else {
      hide SessionResume, SweeperResume;
    }
  }

  lemma StartsTokenless()
    ensures forall p: Proc, now: nat :: Initial(p, now) ==> Tokenless(p) && !p.AuthTouch?
    ensures Tokenless(Crashed)
  {
  }

  /** Behind a gateway no session answer carries a token. */
  lemma {:induction false} SessionsAreTokenless(cfg: Config, es: Schedule, n: nat, pid: nat)
    requires cfg.domain.Some?
    ensures pid in At(cfg, es, n).procs ==>
      var p := At(cfg, es, n).procs[pid]; Tokenless(p) && (p.AuthTouch? ==> p.response.AuthOk?)
  {
    if n > 0 {
      hide Apply, CallAt, KeyOf, Resume, Tokenless, RemoveObject, Initial, From;
      AtStep(cfg, es, n - 1);
      assert forall p: Proc, now: nat :: Initial(p, now) ==> Tokenless(p) && !p.AuthTouch? by { StartsTokenless(); }
      assert Tokenless(Crashed) by { StartsTokenless(); }
      SessionsAreTokenless(cfg, es, n - 1, pid);
      var s, e := At(cfg, es, n - 1), es(n - 1);
      if e.Act? && e.pid == pid && CallOf(cfg, s, e.pid, e.choice).Some? {
        TokenlessOn(cfg, s.procs[e.pid], e.choice.branch,
                    Apply(s.w, CallOf(cfg, s, e.pid, e.choice).value, e.choice).1, s.w.db.clock);
      }
    }
  }
}
