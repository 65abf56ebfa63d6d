/**
 * Fault-free serial calls in closed form: what each request makes of the status
 * and the objects of one tenant, over any consistent world.
 */
module Views {
  import opened Types
  import opened Manifests
  import opened World
  import opened Handlers
  import opened Agreement
  import opened Serial
  import Isolation
  import Routing

  /** The kinds of objects a tenant has. */
  function Present(k: Kube, t: TenantId): set<Kind> {
    set kind: Kind | Has(k, kind, t)
  }

  /** The kinds a fully provisioned tenant has. */
  function Full(cfg: Config): set<Kind> {
    {PvcK, SecretK, PodK, ServiceK} + (if cfg.domain.Some? then {RouteK} else {})
  }

  const FRONT: set<Kind> := {PodK, ServiceK, SecretK}

  predicate RowIs(w: World, tn: Tenant) {
    tn.tenantId in w.db.rows && w.db.rows[tn.tenantId].tenant == tn
  }

  predicate SameIndex(db: Db, db': Db) {
    db'.byUser == db.byUser && db'.issued == db.issued
  }

  // --- Everything stays consistent and local ---

  lemma AdvanceAgrees(cfg: Config, w: World, p: Proc, ch: Choice)
    requires WorldAgrees(cfg, w) && ProcAgrees(w.db, p) && CallAt(cfg, p, ch.branch).Some?
    ensures var (w', next) := Advance(cfg, w, p, ch);
            WorldAgrees(cfg, w') && ProcAgrees(w'.db, next) && Remembers(w.db, w'.db)
  {
    hide CallAt, Apply, Resume, WorldAgrees, ProcAgrees, ReplyAgrees, Genuine;
    var c := CallAt(cfg, p, ch.branch).value;
    if c.Create? { CreatesGenuine(cfg, w.db, p, ch.branch); }
    ApplyAgrees(cfg, w, c, ch);
    ProcRemembered(w.db, Apply(w, c, ch).0.db, p);
    ResumeAgrees(cfg, Apply(w, c, ch).0.db, p, ch.branch, Apply(w, c, ch).1, w.db.clock);
  }

  lemma UntouchedTrans(w: World, w': World, w'': World, t: TenantId)
    requires Isolation.Untouched(w, w', t) && Isolation.Untouched(w', w'', t)
    ensures Isolation.Untouched(w, w'', t)
  {
    hide KeyOf;
  }

  lemma UntouchedSame(w: World, t: TenantId)
    ensures Isolation.Untouched(w, w, t)
  {
  }

  /** A handler that holds a row runs to its end without touching any other tenant. */
  lemma {:induction false} DriveIsLocal(cfg: Config, w: World, p: Proc, o: Oracle, n: nat, tn: Tenant, t: TenantId)
    requires Isolation.Holds(p, tn) && t != tn.tenantId
    ensures Isolation.Untouched(w, Drive(cfg, w, p, o, n).0, t)
    decreases p.Querying?, Rank(p)
  {
    hide CallAt, Resume, Apply, Rank, SomeBranch, Isolation.Untouched, Isolation.Holds, Isolation.CallTenant;
    if Halted(cfg, p, o(n).branch) {
      UntouchedSame(w, t);
    } else {
      var ch := ChoiceFor(cfg, p, o, n);
      var c := CallAt(cfg, p, ch.branch).value;
      var r := Apply(w, c, ch).1;
      RankDrops(cfg, p, ch.branch, r, w.db.clock);
      HeldCallIsLocal(cfg, w, p, ch, tn, t);
      Isolation.HoldsOn(cfg, p, ch.branch, r, w.db.clock, tn);
      var (w', next) := Advance(cfg, w, p, ch);
      DriveIsLocal(cfg, w', next, o, n + 1, tn, t);
      DriveStep(cfg, w, p, o, n);
      UntouchedTrans(w, w', Drive(cfg, w', next, o, n + 1).0, t);
    }
  }

  lemma HeldCallIsLocal(cfg: Config, w: World, p: Proc, ch: Choice, tn: Tenant, t: TenantId)
    requires Isolation.Holds(p, tn) && t != tn.tenantId && CallAt(cfg, p, ch.branch).Some?
    ensures Isolation.Untouched(w, Apply(w, CallAt(cfg, p, ch.branch).value, ch).0, t)
  {
    hide CallAt, Apply, Isolation.Untouched, Isolation.CallTenant;
    Isolation.EndedIsQuiet(cfg, p, ch.branch);
    Isolation.CallsForOwnTenant(cfg, p, ch.branch, ch);
    Isolation.CallsAreLocal(w, CallAt(cfg, p, ch.branch).value, ch, t);
  }

  /** No other tenant is touched. */
  ghost predicate Elsewhere(w: World, w': World, t: TenantId) {
    forall x: TenantId :: x != t ==> Isolation.Untouched(w, w', x)
  }

  lemma DriveElsewhere(cfg: Config, w: World, p: Proc, o: Oracle, n: nat, tn: Tenant)
    requires Isolation.Holds(p, tn)
    ensures Elsewhere(w, Drive(cfg, w, p, o, n).0, tn.tenantId)
  {
    hide Drive, Isolation.Untouched, Isolation.Holds;
    var w' := Drive(cfg, w, p, o, n).0;
    forall x: TenantId | x != tn.tenantId
      ensures Isolation.Untouched(w, w', x)
    {
      DriveIsLocal(cfg, w, p, o, n, tn, x);
    }
  }

  lemma ElsewhereTrans(w: World, w': World, w'': World, t: TenantId)
    requires Elsewhere(w, w', t) && Elsewhere(w', w'', t)
    ensures Elsewhere(w, w'', t)
  {
    hide Isolation.Untouched;
    forall x: TenantId | x != t
      ensures Isolation.Untouched(w, w'', x)
    {
      UntouchedTrans(w, w', w'', x);
    }
  }

  lemma CallElsewhere(w: World, c: Call, ch: Choice, t: TenantId)
    requires Isolation.CallTenant(c, ch) == Some(t)
    ensures Elsewhere(w, Apply(w, c, ch).0, t)
  {
    hide Apply, Isolation.Untouched, Isolation.CallTenant;
    var w' := Apply(w, c, ch).0;
    forall x: TenantId | x != t
      ensures Isolation.Untouched(w, w', x)
    {
      Isolation.CallsAreLocal(w, c, ch, x);
    }
  }

  /** A tenant that was never issued has no objects. */
  lemma NothingBeforeIssue(cfg: Config, w: World, t: TenantId)
    requires WorldAgrees(cfg, w) && t !in w.db.issued
    ensures Present(w.kube, t) == {}
  {
    hide KeyOf, OwnerOf;
    forall kind: Kind
      ensures !Has(w.kube, kind, t)
    {
      assert Has(w.kube, kind, t) ==> Genuine(cfg, w.db.issued, w.kube.objs[KeyOf(kind, t)]);
    }
  }

  // --- Provisioning without faults ---

  /** The kinds a run has put in place or found. */
  function Placed(pv: Prov): set<Kind> {
    match pv
    case Client => {}
    case Storage(pvc, secret) => (if pvc == Todo then {} else {PvcK}) + (if secret == Todo then {} else {SecretK})
    case Compute(_) => {PvcK, SecretK}
    case Network(_, service, route) =>
      {PvcK, SecretK, PodK} + (if service == Todo then {} else {ServiceK})
      + (if route == Todo || route == Skipped then {} else {RouteK})
    case Finished(_, _) => {}
  }

  /** Nothing has failed so far. */
  predicate Going(cfg: Config, pv: Prov) {
    match pv
    case Storage(pvc, secret) => pvc in {Todo, Made, Existed} && secret in {Todo, Made, Existed}
    case Network(_, service, route) =>
      && service in {Todo, Made, Existed}
      && (if cfg.domain.Some? then route in {Todo, Made, Existed} else route == Skipped)
    case Finished(_, _) => false
    case _ => true
  }

  /** The calls a run has made. */
  function Taken(pv: Prov): nat {
    match pv
    case Client => 0
    case Storage(pvc, secret) => 1 + (if pvc == Todo then 0 else 1) + (if secret == Todo then 0 else 1)
    case Compute(_) => 3
    case Network(_, service, route) =>
      4 + (if service == Todo then 0 else 1) + (if route == Todo || route == Skipped then 0 else 1)
    case Finished(_, _) => 0
  }

  function RunLength(cfg: Config): nat { if cfg.domain.Some? then 6 else 5 }

  /** The kind of the object that branch i of a run creates. */
  function StepKind(pv: Prov, i: nat): Kind {
    match pv
    case Storage(_, _) => if i == 0 then PvcK else SecretK
    case Compute(_) => PodK
    case Network(_, _, _) => if i == 0 then ServiceK else RouteK
    case _ => PvcK
  }

  lemma ProvCallKind(spec: TenantSpec, pv: Prov, i: nat)
    requires ProvCall(spec, pv, i).Some?
    ensures var c := ProvCall(spec, pv, i).value;
      if pv.Client? then c == ClientInit
      else
        && c.Create? && KindOf(c.manifest) == StepKind(pv, i)
        && KeyFor(c.manifest) == KeyOf(StepKind(pv, i), spec.tenantId)
  {
    hide KeyOf, OwnerOf;
  }

  lemma ProvNext(cfg: Config, spec: TenantSpec, pv: Prov, i: nat, r: Reply)
    requires Going(cfg, pv) && spec.domain == cfg.domain && ProvCall(spec, pv, i).Some?
    requires r.Ok? || (!pv.Client? && r.AlreadyExists?)
    ensures var pv' := ProvResume(spec, pv, i, r);
      var placed := if pv.Client? then {} else Placed(pv) + {StepKind(pv, i)};
      if pv'.Finished? then pv'.ok && Taken(pv) + 1 == RunLength(cfg) && !pv.Client? && placed == Full(cfg)
      else Going(cfg, pv') && Taken(pv') == Taken(pv) + 1 && Placed(pv') == placed
  {
    hide KeyOf, BuildPvc, BuildSecret, BuildPod, BuildService, BuildRoute;
  }

  lemma ProvGoes(cfg: Config, k: Kube, tn: Tenant, pv: Prov, ch: Choice, kinds: set<Kind>)
    requires var spec := SpecOf(cfg, tn.tenantId, tn.token);
      Going(cfg, pv) && ProvCall(spec, pv, ch.branch).Some? && ch.fate == Clean
    requires Present(k, tn.tenantId) == kinds + Placed(pv)
    ensures var spec := SpecOf(cfg, tn.tenantId, tn.token);
      && IsKubeCall(ProvCall(spec, pv, ch.branch).value)
      && var (k', r) := KubeCall(k, ProvCall(spec, pv, ch.branch).value, ch);
      var pv' := ProvResume(spec, pv, ch.branch, r);
      if pv'.Finished? then
        pv'.ok && Taken(pv) + 1 == RunLength(cfg) && Present(k', tn.tenantId) == kinds + Full(cfg)
      else
        Going(cfg, pv') && Taken(pv') == Taken(pv) + 1 && Present(k', tn.tenantId) == kinds + Placed(pv')
  {
    var spec := SpecOf(cfg, tn.tenantId, tn.token);
    var c := ProvCall(spec, pv, ch.branch).value;
    ProvCallKind(spec, pv, ch.branch);
    var (k', r) := KubeCall(k, c, ch);
    ProvNext(cfg, spec, pv, ch.branch, r);
    PresentAfter(k, c, ch, tn.tenantId);
    hide KeyOf, OwnerOf, ProvCall, ProvResume, Taken, Going, RunLength, Full, StepKind, Present, KeyFor, KindOf;
  }

  /** A clean create adds its kind to its tenant; a clean delete removes it. */
  lemma PresentAfter(k: Kube, c: Call, ch: Choice, t: TenantId)
    requires IsKubeCall(c) && ch.fate == Clean
    ensures var k' := KubeCall(k, c, ch).0;
      && (c.Create? && KeyFor(c.manifest) == KeyOf(KindOf(c.manifest), t) ==>
            Present(k', t) == Present(k, t) + {KindOf(c.manifest)})
      && (c.Delete? && c.key == KeyOf(c.key.kind, t) ==> Present(k', t) == Present(k, t) - {c.key.kind})
      && (!c.Create? && !c.Delete? ==> k' == k)
  {
    hide KeyOf, OwnerOf, Answers;
    var k' := KubeCall(k, c, ch).0;
    if c.Create? && KeyFor(c.manifest) == KeyOf(KindOf(c.manifest), t) {
      assert forall kind: Kind :: Has(k', kind, t) <==> Has(k, kind, t) || kind == KindOf(c.manifest);
    }
    if c.Delete? && c.key == KeyOf(c.key.kind, t) {
      assert forall kind: Kind :: Has(k', kind, t) <==> Has(k, kind, t) && kind != c.key.kind;
    }
  }

  // --- A session on an existing row ---

  /** Status and objects after a fault-free session, where yes tells whether a health check would be answered. */
  function SessionStatus(status: Status, kinds: set<Kind>, yes: bool): Status {
    match status
    case Suspended => if PodK in kinds then Suspended else Provisioning
    case Provisioning => if yes && FRONT <= kinds then Ready else Provisioning
    case Error => if yes && FRONT <= kinds then Ready else if PodK in kinds then Error else Provisioning
    case _ => status
  }

  function SessionKinds(cfg: Config, status: Status, kinds: set<Kind>, yes: bool): set<Kind> {
    match status
    case Suspended => kinds + {PodK}
    case Provisioning => if PodK in kinds then kinds else kinds + Full(cfg)
    case Error => if PodK in kinds then kinds else kinds + Full(cfg)
    case _ => kinds
  }

  /** The answer: an error for a Suspended tenant whose Pod is still there, the status otherwise. */
  function SessionAnswer(cfg: Config, tn: Tenant, kinds: set<Kind>, yes: bool): Response {
    if tn.status == Suspended && PodK in kinds then Fault(500)
    else
      var status := SessionStatus(tn.status, kinds, yes);
      SessionOk(PublicUrl(cfg, tn.tenantId), ResponseToken(cfg, tn.token), tn.tenantId,
                if status == Error then Provisioning else status)
  }

  /** Where a fault-free session on tn can be, and what it has done by then. */
  predicate OnRow(cfg: Config, w: World, p: Proc, tn: Tenant, kinds: set<Kind>, yes: bool, calls: nat) {
    var now := Present(w.kube, tn.tenantId);
    match p
    case Touching(x) => x == tn && RowIs(w, tn) && now == kinds && calls == 1
    case Waking(x) => x == tn && RowIs(w, tn) && now == kinds && tn.status == Suspended
    case WakeMark(x) =>
      x == tn && RowIs(w, tn) && tn.status == Suspended && PodK !in kinds && now == kinds + {PodK}
    case Probing(x, isNew) =>
      x == tn && !isNew && RowIs(w, tn) && now == kinds && Unsettled(tn.status) && calls == 2
    case ReadyMark(x, isNew) =>
      x == tn && !isNew && RowIs(w, tn) && now == kinds && Unsettled(tn.status) && yes && FRONT <= kinds
    case Checking(x) =>
      x == tn && RowIs(w, tn) && now == kinds && Unsettled(tn.status) && !(yes && FRONT <= kinds)
    case Creating(x, isNew, pv) =>
      && x == tn && !isNew && RowIs(w, tn) && Unsettled(tn.status)
      && PodK !in kinds && Going(cfg, pv) && now == kinds + Placed(pv)
    case CreateMark(x) =>
      x == tn && RowIs(w, tn) && Unsettled(tn.status) && PodK !in kinds && now == kinds + Full(cfg)
    case Done(r) =>
      && r == SessionAnswer(cfg, tn, kinds, yes)
      && RowIs(w, tn.(status := SessionStatus(tn.status, kinds, yes)))
      && now == SessionKinds(cfg, tn.status, kinds, yes)
    case _ => false
  }

  /** Whether the tenant's engine accepts the token a session presents. */
  predicate Accepts(cfg: Config, tn: Tenant) { cfg.devToken in {None, Some(tn.token)} }

  lemma AnswersIff(cfg: Config, w: World, tn: Tenant, token: Token)
    requires WorldAgrees(cfg, w) && Known(w.db, tn)
    ensures Answers(w.kube, tn.tenantId, token) <==> FRONT <= Present(w.kube, tn.tenantId) && token == tn.token
  {
    hide KeyOf, RowsAgree, ObjectsAgree;
    var kinds := Present(w.kube, tn.tenantId);
    assert forall kind: Kind :: kind in kinds <==> Has(w.kube, kind, tn.tenantId);
    assert FRONT <= kinds <==> PodK in kinds && ServiceK in kinds && SecretK in kinds;
    if Has(w.kube, SecretK, tn.tenantId) {
      Routing.SecretHoldsToken(cfg, w, tn.tenantId);
    }
  }

  lemma ProbeOnRow(cfg: Config, w: World, p: Proc, tn: Tenant, kinds: set<Kind>, yes: bool, ch: Choice)
    requires WorldAgrees(cfg, w) && Known(w.db, tn) && cfg.K8s()
    requires p == Probing(tn, false) && OnRow(cfg, w, p, tn, kinds, yes, 2)
    requires CallAt(cfg, p, ch.branch).Some? && ch.fate == Clean && yes == (ch.healthy && Accepts(cfg, tn))
    ensures var (w', next) := Advance(cfg, w, p, ch); OnRow(cfg, w', next, tn, kinds, yes, 3) && w' == w
  {
    hide KeyOf, Present, Answers, WorldAgrees, Known, Going, Placed, Full, SessionStatus, SessionKinds, SessionAnswer;
    AnswersIff(cfg, w, tn, DevOr(cfg, tn.token));
    assert CallAt(cfg, p, ch.branch) == Some(Probe(TenantService(tn.tenantId), DevOr(cfg, tn.token)));
    assert Apply(w, Probe(TenantService(tn.tenantId), DevOr(cfg, tn.token)), ch)
        == (w, Answer(ch.healthy && Answers(w.kube, tn.tenantId, DevOr(cfg, tn.token))));
    hide Apply, CallAt;
  }

  lemma CreateOnRow(cfg: Config, w: World, p: Proc, tn: Tenant, kinds: set<Kind>, yes: bool, ch: Choice, calls: nat)
    requires cfg.K8s() && p.Creating? && OnRow(cfg, w, p, tn, kinds, yes, calls)
    requires CallAt(cfg, p, ch.branch).Some? && ch.fate == Clean
    ensures var (w', next) := Advance(cfg, w, p, ch); OnRow(cfg, w', next, tn, kinds, yes, calls + 1) && w'.db == w.db
  {
    hide KeyOf, Present, ProvCall, ProvResume, KubeCall, StoreCall, Placed, Going, Full, Taken, RunLength,
      SessionStatus, SessionKinds, SessionAnswer;
    ProvGoes(cfg, w.kube, tn, p.prov, ch, kinds);
    OnlyKubeCalls(SpecOf(cfg, tn.tenantId, tn.token), p.prov, ch.branch);
  }

  lemma OnlyKubeCalls(spec: TenantSpec, pv: Prov, i: nat)
    ensures ProvCall(spec, pv, i).Some? ==>
              IsKubeCall(ProvCall(spec, pv, i).value) && !IsStoreCall(ProvCall(spec, pv, i).value)
  {
  }

  lemma PresentHas(k: Kube, t: TenantId)
    ensures forall kind: Kind :: kind in Present(k, t) <==> Has(k, kind, t)
  {
  }

  lemma MarkCall(cfg: Config, w: World, p: Proc, ch: Choice, tn: Tenant, status: Status)
    requires RowIs(w, tn) && ch.fate == Clean && CallAt(cfg, p, ch.branch) == Some(UpdateStatus(tn.tenantId, status))
    ensures var (w', next) := Advance(cfg, w, p, ch);
      && w'.kube == w.kube && RowIs(w', tn.(status := status)) && SameIndex(w.db, w'.db)
      && next == Resume(cfg, p, ch.branch, Ok, w.db.clock)
  {
    hide CallAt, Resume;
  }

  /** Status updates: the row follows, the objects stay. */
  lemma MarkOnRow(cfg: Config, w: World, p: Proc, tn: Tenant, kinds: set<Kind>, yes: bool, ch: Choice, calls: nat)
    requires cfg.K8s() && OnRow(cfg, w, p, tn, kinds, yes, calls)
    requires p.WakeMark? || p.ReadyMark? || p.CreateMark?
    requires CallAt(cfg, p, ch.branch).Some? && ch.fate == Clean
    ensures var (w', next) := Advance(cfg, w, p, ch);
            OnRow(cfg, w', next, tn, kinds, yes, calls + 1) && SameIndex(w.db, w'.db)
  {
    hide KeyOf, Present, Full, Going, Placed, PublicUrl, ResponseToken, RowIs, Advance;
    MarkCall(cfg, w, p, ch, tn, if p.ReadyMark? then Ready else Provisioning);
  }

  lemma TouchOnRow(cfg: Config, w: World, p: Proc, tn: Tenant, kinds: set<Kind>, yes: bool, ch: Choice, calls: nat)
    requires cfg.K8s() && OnRow(cfg, w, p, tn, kinds, yes, calls) && p.Touching?
    requires CallAt(cfg, p, ch.branch).Some? && ch.fate == Clean
    ensures var (w', next) := Advance(cfg, w, p, ch);
            OnRow(cfg, w', next, tn, kinds, yes, calls + 1) && SameIndex(w.db, w'.db)
  {
    hide KeyOf, Present, Full, Going, Placed;
  }

  lemma WakeOnRow(cfg: Config, w: World, p: Proc, tn: Tenant, kinds: set<Kind>, yes: bool, ch: Choice, calls: nat)
    requires cfg.K8s() && OnRow(cfg, w, p, tn, kinds, yes, calls) && p.Waking?
    requires CallAt(cfg, p, ch.branch).Some? && ch.fate == Clean
    ensures var (w', next) := Advance(cfg, w, p, ch);
            OnRow(cfg, w', next, tn, kinds, yes, calls + 1) && SameIndex(w.db, w'.db)
  {
    hide KeyOf, Full, Going, Placed, OwnerOf;
    var c := CallAt(cfg, p, ch.branch).value;
    PresentHas(w.kube, tn.tenantId);
    PresentAfter(w.kube, c, ch, tn.tenantId);
    hide Present, BuildPod;
  }

  lemma CheckOnRow(cfg: Config, w: World, p: Proc, tn: Tenant, kinds: set<Kind>, yes: bool, ch: Choice, calls: nat)
    requires cfg.K8s() && OnRow(cfg, w, p, tn, kinds, yes, calls) && p.Checking?
    requires CallAt(cfg, p, ch.branch).Some? && ch.fate == Clean
    ensures var (w', next) := Advance(cfg, w, p, ch);
            OnRow(cfg, w', next, tn, kinds, yes, calls + 1) && SameIndex(w.db, w'.db)
  {
    PresentHas(w.kube, tn.tenantId);
    hide KeyOf, Present, Full;
  }

  lemma OtherOnRow(cfg: Config, w: World, p: Proc, tn: Tenant, kinds: set<Kind>, yes: bool, ch: Choice, calls: nat)
    requires cfg.K8s() && OnRow(cfg, w, p, tn, kinds, yes, calls) && !p.Creating? && !p.Probing?
    requires CallAt(cfg, p, ch.branch).Some? && ch.fate == Clean
    ensures var (w', next) := Advance(cfg, w, p, ch);
            OnRow(cfg, w', next, tn, kinds, yes, calls + 1) && SameIndex(w.db, w'.db)
  {
    assert p.WakeMark? || p.ReadyMark? || p.CreateMark? || p.Touching? || p.Waking? || p.Checking? by {
      DoneHasNoCall(cfg, p, ch.branch);
    }
    hide CallAt, OnRow, Advance;
    if p.Touching? {
      TouchOnRow(cfg, w, p, tn, kinds, yes, ch, calls);
    } else if p.Waking? {
      WakeOnRow(cfg, w, p, tn, kinds, yes, ch, calls);
    } else if p.Checking? {
      CheckOnRow(cfg, w, p, tn, kinds, yes, ch, calls);
    } else {
      MarkOnRow(cfg, w, p, tn, kinds, yes, ch, calls);
    }
  }

  lemma DoneHasNoCall(cfg: Config, p: Proc, i: nat)
    ensures p.Done? ==> CallAt(cfg, p, i).None?
  {
  }

  lemma {:induction false} SessionRunsOnRow(
      cfg: Config, w: World, p: Proc, o: Oracle, n: nat, tn: Tenant, kinds: set<Kind>, yes: bool, calls: nat)
    requires cfg.K8s() && WorldAgrees(cfg, w) && ProcAgrees(w.db, p) && Known(w.db, tn)
    requires OnRow(cfg, w, p, tn, kinds, yes, calls) && Active(cfg, p) && Smooth(cfg, w, p, o, n, true)
    requires calls <= 2 ==> yes == (o(n + 2 - calls).healthy && Accepts(cfg, tn))
    ensures var (w', p', _) := Drive(cfg, w, p, o, n);
            p'.Done? && OnRow(cfg, w', p', tn, kinds, yes, 0) && SameIndex(w.db, w'.db) && WorldAgrees(cfg, w')
    decreases p.Querying?, Rank(p)
  {
    hide CallAt, Resume, Apply, Rank, SomeBranch, WorldAgrees, ProcAgrees, Active, Present, Going, Placed, Accepts,
      SessionStatus, SessionKinds, SessionAnswer;
    if Halted(cfg, p, o(n).branch) {
      if !p.Done? { ActiveHasCall(cfg, p); }
    } else {
      var ch := ChoiceFor(cfg, p, o, n);
      RankDrops(cfg, p, ch.branch, Apply(w, CallAt(cfg, p, ch.branch).value, ch).1, w.db.clock);
      StaysActive(cfg, p, ch.branch, Apply(w, CallAt(cfg, p, ch.branch).value, ch).1, w.db.clock);
      AdvanceAgrees(cfg, w, p, ch);
      if p.Creating? {
        CreateOnRow(cfg, w, p, tn, kinds, yes, ch, calls);
      } else if p.Probing? {
        ProbeOnRow(cfg, w, p, tn, kinds, yes, ch);
      } else {
        OtherOnRow(cfg, w, p, tn, kinds, yes, ch, calls);
      }
      var (w', next) := Advance(cfg, w, p, ch);
      SessionRunsOnRow(cfg, w', next, o, n + 1, tn, kinds, yes, calls + 1);
      DriveStep(cfg, w, p, o, n);
    }
  }

  // --- A session that inserts its row ---

  predicate OnNew(cfg: Config, w: World, p: Proc, tn: Tenant, yes: bool, calls: nat) {
    var now := Present(w.kube, tn.tenantId);
    tn.status == Provisioning &&
    match p
    case Creating(x, isNew, pv) =>
      x == tn && isNew && RowIs(w, tn) && Going(cfg, pv) && now == Placed(pv) && calls == 2 + Taken(pv)
    case Probing(x, isNew) => x == tn && isNew && RowIs(w, tn) && now == Full(cfg) && calls == 2 + RunLength(cfg)
    case ReadyMark(x, isNew) => x == tn && isNew && RowIs(w, tn) && now == Full(cfg) && yes
        && calls > 2 + RunLength(cfg)
    case Done(r) =>
      var status := if yes then Ready else Provisioning;
      && r == SessionOk(PublicUrl(cfg, tn.tenantId), ResponseToken(cfg, tn.token), tn.tenantId, status)
      && RowIs(w, tn.(status := status)) && now == Full(cfg) && calls > 2 + RunLength(cfg)
    case _ => false
  }

  lemma CreateOnNew(cfg: Config, w: World, p: Proc, tn: Tenant, yes: bool, ch: Choice, calls: nat)
    requires cfg.K8s() && p.Creating? && OnNew(cfg, w, p, tn, yes, calls)
    requires CallAt(cfg, p, ch.branch).Some? && ch.fate == Clean
    ensures var (w', next) := Advance(cfg, w, p, ch); OnNew(cfg, w', next, tn, yes, calls + 1) && w'.db == w.db
  {
    hide KeyOf, Present, ProvCall, ProvResume, KubeCall, StoreCall, Placed, Going, Full, Taken, RunLength;
    assert Present(w.kube, tn.tenantId) == {} + Placed(p.prov);
    ProvGoes(cfg, w.kube, tn, p.prov, ch, {});
    OnlyKubeCalls(SpecOf(cfg, tn.tenantId, tn.token), p.prov, ch.branch);
  }

  lemma FrontIsFull(cfg: Config)
    ensures FRONT <= Full(cfg)
  {
  }

  lemma ProbeOnNew(cfg: Config, w: World, p: Proc, tn: Tenant, yes: bool, ch: Choice, calls: nat)
    requires WorldAgrees(cfg, w) && Known(w.db, tn) && cfg.K8s()
    requires p.Probing? && OnNew(cfg, w, p, tn, yes, calls)
    requires CallAt(cfg, p, ch.branch).Some? && ch.fate == Clean && yes == ch.healthy
    ensures var (w', next) := Advance(cfg, w, p, ch); OnNew(cfg, w', next, tn, yes, calls + 1) && w' == w
  {
    hide KeyOf, Present, Answers, WorldAgrees, Known, Going, Placed, Full, Taken, RunLength, FRONT;
    AnswersIff(cfg, w, tn, tn.token);
    FrontIsFull(cfg);
    assert CallAt(cfg, p, ch.branch) == Some(Probe(TenantService(tn.tenantId), tn.token));
    assert Apply(w, Probe(TenantService(tn.tenantId), tn.token), ch)
        == (w, Answer(ch.healthy && Answers(w.kube, tn.tenantId, tn.token)));
    hide Apply, CallAt;
  }

  lemma MarkOnNew(cfg: Config, w: World, p: Proc, tn: Tenant, yes: bool, ch: Choice, calls: nat)
    requires cfg.K8s() && p.ReadyMark? && OnNew(cfg, w, p, tn, yes, calls)
    requires CallAt(cfg, p, ch.branch).Some? && ch.fate == Clean
    ensures var (w', next) := Advance(cfg, w, p, ch);
            OnNew(cfg, w', next, tn, yes, calls + 1) && SameIndex(w.db, w'.db)
  {
    hide KeyOf, Present, Full, Going, Placed, Taken, RunLength;
  }

  lemma {:induction false} SessionRunsNew(
      cfg: Config, w: World, p: Proc, o: Oracle, n: nat, tn: Tenant, yes: bool, calls: nat)
    requires cfg.K8s() && WorldAgrees(cfg, w) && ProcAgrees(w.db, p) && Known(w.db, tn)
    requires OnNew(cfg, w, p, tn, yes, calls) && Active(cfg, p) && Smooth(cfg, w, p, o, n, true)
    requires calls <= 2 + RunLength(cfg) ==> yes == o(n + 2 + RunLength(cfg) - calls).healthy
    ensures var (w', p', _) := Drive(cfg, w, p, o, n);
            && p'.Done? && OnNew(cfg, w', p', tn, yes, 3 + RunLength(cfg))
            && SameIndex(w.db, w'.db) && WorldAgrees(cfg, w')
    decreases p.Querying?, Rank(p)
  {
    hide CallAt, Resume, Apply, Rank, SomeBranch, WorldAgrees, ProcAgrees, Active, Present, Going, Placed, Full,
        Taken, RunLength;
    if Halted(cfg, p, o(n).branch) {
      if !p.Done? { ActiveHasCall(cfg, p); }
    } else {
      var ch := ChoiceFor(cfg, p, o, n);
      RankDrops(cfg, p, ch.branch, Apply(w, CallAt(cfg, p, ch.branch).value, ch).1, w.db.clock);
      StaysActive(cfg, p, ch.branch, Apply(w, CallAt(cfg, p, ch.branch).value, ch).1, w.db.clock);
      AdvanceAgrees(cfg, w, p, ch);
      DoneHasNoCall(cfg, p, ch.branch);
      if p.Creating? {
        CreateOnNew(cfg, w, p, tn, yes, ch, calls);
      } else if p.Probing? {
        ProbeOnNew(cfg, w, p, tn, yes, ch, calls);
      } else {
        MarkOnNew(cfg, w, p, tn, yes, ch, calls);
      }
      var (w', next) := Advance(cfg, w, p, ch);
      SessionRunsNew(cfg, w', next, o, n + 1, tn, yes, calls + 1);
      DriveStep(cfg, w, p, o, n);
    }
  }

  // --- Whole requests ---

  lemma FirstStep(cfg: Config, w: World, p: Proc, o: Oracle, n: nat)
    requires Active(cfg, p) && !Ended(p) && Smooth(cfg, w, p, o, n, true)
    ensures var ch := ChoiceFor(cfg, p, o, n);
      && CallAt(cfg, p, ch.branch).Some? && SmoothCall(w, CallAt(cfg, p, ch.branch).value, ch, true)
      && ch.healthy == o(n).healthy
      && var (w', next) := Advance(cfg, w, p, ch);
      Drive(cfg, w, p, o, n) == Drive(cfg, w', next, o, n + 1) && Smooth(cfg, w', next, o, n + 1, true)
      && Active(cfg, next)
  {
    hide CallAt, Resume, Apply, Rank, SomeBranch, Active, SmoothCall;
    ActiveHasCall(cfg, p);
    DriveStep(cfg, w, p, o, n);
    var ch := ChoiceFor(cfg, p, o, n);
    StaysActive(cfg, p, ch.branch, Apply(w, CallAt(cfg, p, ch.branch).value, ch).1, w.db.clock);
  }

  lemma LookupRow(cfg: Config, w: World, u: UserId)
    requires WorldAgrees(cfg, w)
    ensures u in w.db.byUser <==> Lookup(w.db, u).Some?
    ensures u in w.db.byUser ==> var tn := Lookup(w.db, u).value;
              tn.tenantId == w.db.byUser[u] && tn.userId == u && RowIs(w, tn) && Known(w.db, tn)
  {
    hide ObjectsAgree;
  }

  /** A fault-free lookup hands the row to the handler. */
  lemma FindStep(cfg: Config, w: World, p: Proc, o: Oracle, n: nat)
    requires p.SessionFind? || p.SuspendFind? || p.DeleteFind?
    requires WorldAgrees(cfg, w) && Smooth(cfg, w, p, o, n, true)
    ensures var next := AfterFind(cfg, p, Lookup(w.db, p.userId));
      && Drive(cfg, w, p, o, n) == Drive(cfg, w, next, o, n + 1)
      && Smooth(cfg, w, next, o, n + 1, true) && Active(cfg, next) && ProcAgrees(w.db, next)
  {
    hide Drive, Smooth, WorldAgrees, AfterFind, Active, Lookup, ProcAgrees;
    assert Active(cfg, p) && ProcAgrees(w.db, p) by { FindIsActive(cfg, w.db, p); }
    FirstStep(cfg, w, p, o, n);
    var ch := ChoiceFor(cfg, p, o, n);
    AdvanceAgrees(cfg, w, p, ch);
    assert Advance(cfg, w, p, ch) == (w, AfterFind(cfg, p, Lookup(w.db, p.userId)));
  }

  lemma FindIsActive(cfg: Config, db: Db, p: Proc)
    requires p.SessionFind? || p.SuspendFind? || p.DeleteFind?
    ensures Active(cfg, p) && ProcAgrees(db, p)
  {
  }

  /**
   * A fault-free POST /api/session of a user with a row: status, objects and
   * answer in closed form; every other tenant is untouched.
   */
  lemma SessionOnRow(cfg: Config, w: World, u: UserId, o: Oracle, n: nat)
    requires cfg.K8s() && WorldAgrees(cfg, w) && u in w.db.byUser && Smooth(cfg, w, SessionFind(u), o, n, true)
    ensures Lookup(w.db, u).Some?
    ensures var tn := Lookup(w.db, u).value;
      var kinds, yes := Present(w.kube, tn.tenantId), o(n + 2).healthy && Accepts(cfg, tn);
      var (w', p, _) := Drive(cfg, w, SessionFind(u), o, n);
      && WorldAgrees(cfg, w') && SameIndex(w.db, w'.db)
      && p == Done(SessionAnswer(cfg, tn, kinds, yes))
      && RowIs(w', tn.(status := SessionStatus(tn.status, kinds, yes)))
      && Present(w'.kube, tn.tenantId) == SessionKinds(cfg, tn.status, kinds, yes)
      && Elsewhere(w, w', tn.tenantId)
  {
    hide CallAt, Resume, Apply, Drive, Smooth, WorldAgrees, Present, SessionStatus, SessionKinds, SessionAnswer,
      Elsewhere, Accepts, Active, ProcAgrees, Known, Lookup, RowIs, OnRow;
    LookupRow(cfg, w, u);
    var tn := Lookup(w.db, u).value;
    FindStep(cfg, w, SessionFind(u), o, n);
    assert AfterFind(cfg, SessionFind(u), Some(tn)) == Touching(tn);
    var kinds, yes := Present(w.kube, tn.tenantId), o(n + 2).healthy && Accepts(cfg, tn);
    RowStarts(cfg, w, tn, yes);
    SessionRunsOnRow(cfg, w, Touching(tn), o, n + 1, tn, kinds, yes, 1);
    var (w', p, _) := Drive(cfg, w, Touching(tn), o, n + 1);
    RowEnds(cfg, w', p, tn, kinds, yes);
    assert Isolation.Holds(Touching(tn), tn);
    DriveElsewhere(cfg, w, Touching(tn), o, n + 1, tn);
  }

  lemma RowStarts(cfg: Config, w: World, tn: Tenant, yes: bool)
    requires RowIs(w, tn)
    ensures OnRow(cfg, w, Touching(tn), tn, Present(w.kube, tn.tenantId), yes, 1)
  {
    hide Present;
  }

  lemma RowEnds(cfg: Config, w: World, p: Proc, tn: Tenant, kinds: set<Kind>, yes: bool)
    requires p.Done? && OnRow(cfg, w, p, tn, kinds, yes, 0)
    ensures p == Done(SessionAnswer(cfg, tn, kinds, yes))
    ensures RowIs(w, tn.(status := SessionStatus(tn.status, kinds, yes)))
    ensures Present(w.kube, tn.tenantId) == SessionKinds(cfg, tn.status, kinds, yes)
  {
    hide Present, SessionAnswer, SessionKinds, SessionStatus;
  }

  /** The row and the world a clean insert makes. */
  lemma InsertStep(cfg: Config, w: World, u: UserId, ch: Choice)
    requires cfg.K8s() && WorldAgrees(cfg, w) && u !in w.db.byUser && ch.fate == Clean && ch.tenantId !in w.db.issued
    requires ch.branch == 0
    ensures var tn := Tenant(u, ch.tenantId, ch.token, Provisioning);
      var (w', next) := Advance(cfg, w, SessionInsert(u), ch);
      && next == Creating(tn, true, Client) && RowIs(w', tn) && Known(w'.db, tn)
      && w'.db.byUser == w.db.byUser[u := ch.tenantId] && w'.kube == w.kube
      && Present(w'.kube, ch.tenantId) == {} && Elsewhere(w, w', ch.tenantId)
  {
    NothingBeforeIssue(cfg, w, ch.tenantId);
    CallElsewhere(w, Insert(u), ch, ch.tenantId);
    hide KeyOf, Present, WorldAgrees, Elsewhere;
  }

  lemma InsertFirst(cfg: Config, w: World, u: UserId, o: Oracle, n: nat)
    requires cfg.K8s() && WorldAgrees(cfg, w) && u !in w.db.byUser && Smooth(cfg, w, SessionInsert(u), o, n, true)
    ensures var tn := Tenant(u, o(n).tenantId, o(n).token, Provisioning); var next := Creating(tn, true, Client);
      var w' := w.(db := AddRow(w.db, u, tn.tenantId, tn.token));
      && Drive(cfg, w, SessionInsert(u), o, n) == Drive(cfg, w', next, o, n + 1)
      && Smooth(cfg, w', next, o, n + 1, true) && Active(cfg, next) && ProcAgrees(w'.db, next) && WorldAgrees(cfg, w')
      && RowIs(w', tn) && Known(w'.db, tn) && tn.tenantId !in w.db.issued
      && Present(w'.kube, tn.tenantId) == {} && Elsewhere(w, w', tn.tenantId)
  {
    hide Drive, Smooth, WorldAgrees, Active, ProcAgrees, Present, Elsewhere, Known, KeyOf;
    assert Active(cfg, SessionInsert(u)) && ProcAgrees(w.db, SessionInsert(u)) by { InsertIsActive(cfg, w.db, u); }
    FirstStep(cfg, w, SessionInsert(u), o, n);
    var ch := ChoiceFor(cfg, SessionInsert(u), o, n);
    AdvanceAgrees(cfg, w, SessionInsert(u), ch);
    InsertStep(cfg, w, u, ch);
  }

  lemma InsertIsActive(cfg: Config, db: Db, u: UserId)
    ensures Active(cfg, SessionInsert(u)) && ProcAgrees(db, SessionInsert(u))
  {
  }

  /**
   * A fault-free POST /api/session of a user without a row: a tenant that was
   * never issued before gets all its objects, and is Ready if its first health
   * check is answered.
   */
  lemma SessionWithoutRow(cfg: Config, w: World, u: UserId, o: Oracle, n: nat)
    requires cfg.K8s() && WorldAgrees(cfg, w) && u !in w.db.byUser && Smooth(cfg, w, SessionFind(u), o, n, true)
    ensures var t, token, yes := o(n + 1).tenantId, o(n + 1).token, o(n + 2 + RunLength(cfg)).healthy;
      var status := if yes then Ready else Provisioning;
      var (w', p, _) := Drive(cfg, w, SessionFind(u), o, n);
      && WorldAgrees(cfg, w') && t !in w.db.issued
      && w'.db.byUser == w.db.byUser[u := t]
      && p == Done(SessionOk(PublicUrl(cfg, t), ResponseToken(cfg, token), t, status))
      && RowIs(w', Tenant(u, t, token, status))
      && Present(w'.kube, t) == Full(cfg)
      && Elsewhere(w, w', t)
  {
    hide CallAt, Resume, Apply, Drive, Smooth, WorldAgrees, Present, Elsewhere, Active, ProcAgrees, Known, Full,
      RunLength, Lookup, RowIs, OnNew, AddRow;
    LookupRow(cfg, w, u);
    FindStep(cfg, w, SessionFind(u), o, n);
    assert AfterFind(cfg, SessionFind(u), None) == SessionInsert(u);
    InsertFirst(cfg, w, u, o, n + 1);
    var tn := Tenant(u, o(n + 1).tenantId, o(n + 1).token, Provisioning);
    var w1, next := w.(db := AddRow(w.db, u, tn.tenantId, tn.token)), Creating(tn, true, Client);
    var yes := o(n + 2 + RunLength(cfg)).healthy;
    NewStarts(cfg, w1, tn, yes);
    SessionRunsNew(cfg, w1, next, o, n + 2, tn, yes, 2);
    var (w', p, _) := Drive(cfg, w1, next, o, n + 2);
    NewEnds(cfg, w', p, tn, yes);
    NewIndex(w.db, u, tn.tenantId, tn.token);
    assert Isolation.Holds(next, tn);
    DriveElsewhere(cfg, w1, next, o, n + 2, tn);
    ElsewhereTrans(w, w1, w', tn.tenantId);
  }

  lemma NewIndex(db: Db, u: UserId, t: TenantId, token: Token)
    ensures AddRow(db, u, t, token).byUser == db.byUser[u := t]
  {
  }

  lemma NewEnds(cfg: Config, w: World, p: Proc, tn: Tenant, yes: bool)
    requires p.Done? && OnNew(cfg, w, p, tn, yes, 3 + RunLength(cfg))
    ensures var status := if yes then Ready else Provisioning;
      && p == Done(SessionOk(PublicUrl(cfg, tn.tenantId), ResponseToken(cfg, tn.token), tn.tenantId, status))
      && RowIs(w, tn.(status := status)) && Present(w.kube, tn.tenantId) == Full(cfg)
  {
    hide Present, Full, RunLength;
  }

  lemma NewStarts(cfg: Config, w: World, tn: Tenant, yes: bool)
    requires RowIs(w, tn) && tn.status == Provisioning && Present(w.kube, tn.tenantId) == {}
    ensures OnNew(cfg, w, Creating(tn, true, Client), tn, yes, 2)
  {
    hide Present;
  }
}
