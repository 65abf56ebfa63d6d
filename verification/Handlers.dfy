/**
 * The request handlers and the idle sweeper as programs over calls: where a
 * handler stands, which calls it has outstanding, and how it goes on after a
 * reply. Branches number the calls that are in flight at the same time.
 */
module Handlers {
  import opened Types
  import opened Manifests
  import opened World

  /** A URL in a response; Text gives its characters. */
  datatype Url = Public(scheme: string, tenantId: TenantId, domain: string)
               | Internal(tenantId: TenantId)
               | Templated(template: string, tenantId: TenantId)
  {
    function Text(): string {
      match this
      case Public(scheme, t, domain) => scheme + "://" + Hostname(t, domain)
      case Internal(t) => "http://" + KeyOf(ServiceK, t).name + ".houston-tenants.svc.cluster.local:7777"
      case Templated(template, t) => Substitute(template, t)
    }
  }

  /** Every "{tenant_id}" in the template replaced by the tenant id. */
  function Substitute(template: string, t: TenantId): string {
    if |template| < 11 then template
    else if template[..11] == "{tenant_id}" then t + Substitute(template[11..], t)
    else [template[0]] + Substitute(template[1..], t)
  }

  datatype Response =
    | SessionOk(url: Url, token: Option<Token>, tenantId: TenantId, status: Status)
    | NoContent
    | StatusOk(tenantId: TenantId, status: Status)
    | AuthOk(tenantId: TenantId, backend: Url, bearer: Token)
    | Fault(code: nat)

  /** What a handler has told its caller: ext-authz answers before its touch, which goes on in the background. */
  function AnswerOf(p: Proc): Option<Response> {
    match p
    case Done(response) => Some(response)
    case AuthTouch(_, response) => Some(response)
    case _ => None
  }

  /** How far one create call of a provisioning run is. */
  datatype Part = Todo | Made | Existed | Broken | Skipped

  predicate There(part: Part) { part == Made || part == Existed }

  /** A run of provision_tenant; made is the `created` flag so far. */
  datatype Prov =
    | Client
    | Storage(pvc: Part, secret: Part)
    | Compute(made: bool)
    | Network(made: bool, service: Part, route: Part)
    | Finished(ok: bool, made: bool)

  datatype Stage = Kill | Mark | Over(ok: bool)

  /** One spawned suspend_one. */
  datatype Task = Task(tenantId: TenantId, stage: Stage)

  /**
   * One sweep over a list of idle tenants. The fields begin, queried, launch
   * and attempts record times and first calls; the code does not read them.
   */
  datatype Sweep = Sweep(
    begin: nat, queried: nat, idle: seq<Tenant>, chunk: nat, launch: nat, tasks: seq<Task>,
    awaited: nat, suspended: nat, failed: nat, attempts: seq<nat>)

  /** What a sweep reports when it ends. */
  datatype Report = Report(total: nat, batches: nat, suspended: nat, failed: nat, attempts: seq<nat>)

  /** Where a handler or a sweeper stands. */
  datatype Proc =
    | SessionFind(userId: UserId)
    | SessionInsert(userId: UserId)
    | Touching(tn: Tenant)
    | Waking(tn: Tenant)
    | WakeMark(tn: Tenant)
    | Probing(tn: Tenant, isNew: bool)
    | ReadyMark(tn: Tenant, isNew: bool)
    | Checking(tn: Tenant)
    | Creating(tn: Tenant, isNew: bool, prov: Prov)
    | CreateMark(tn: Tenant)
    | ErrorMark(tn: Tenant)
    | SuspendFind(userId: UserId)
    | SuspendKill(tn: Tenant)
    | SuspendMark(tn: Tenant)
    | DeleteFind(userId: UserId)
    | DeleteClient(tn: Tenant)
    | DeleteFront(tn: Tenant, route: bool, service: bool, pod: bool)
    | DeleteBack(tn: Tenant, secret: bool, pvc: bool)
    | DeleteLast(tn: Tenant)
    | AuthFind(userId: UserId)
    | AuthTouch(tn: Tenant, response: Response)
    | StatusFind(userId: UserId)
    | Sleeping(since: nat, last: Option<Report>)
    | Querying(begin: nat)
    | Sweeping(sweep: Sweep)
    | Done(response: Response)
    | Crashed

  /** The row a handler read or inserted, once it has one. */
  function Snapshot(p: Proc): Option<Tenant> {
    match p
    case Touching(tn) => Some(tn)
    case Waking(tn) => Some(tn)
    case WakeMark(tn) => Some(tn)
    case Probing(tn, _) => Some(tn)
    case ReadyMark(tn, _) => Some(tn)
    case Checking(tn) => Some(tn)
    case Creating(tn, _, _) => Some(tn)
    case CreateMark(tn) => Some(tn)
    case ErrorMark(tn) => Some(tn)
    case SuspendKill(tn) => Some(tn)
    case SuspendMark(tn) => Some(tn)
    case DeleteClient(tn) => Some(tn)
    case DeleteFront(tn, _, _, _) => Some(tn)
    case DeleteBack(tn, _, _) => Some(tn)
    case DeleteLast(tn) => Some(tn)
    case AuthTouch(tn, _) => Some(tn)
    case _ => None
  }

  /** The k8s_spec of a tenant; it is used only when an image is configured. */
  function SpecOf(cfg: Config, t: TenantId, token: Token): TenantSpec {
    TenantSpec(t, token, if cfg.K8s() then cfg.image.value else "", cfg.domain, cfg.gvisor, cfg.storageClass)
  }

  function PublicUrl(cfg: Config, t: TenantId): Url {
    if cfg.domain.Some? then Public(cfg.scheme, t, cfg.domain.value) else Templated(cfg.template, t)
  }

  function NewUrl(cfg: Config, t: TenantId): Url {
    if cfg.K8s() then PublicUrl(cfg, t) else Templated(cfg.template, t)
  }

  /** The token an API response shows: none behind a gateway. */
  function ResponseToken(cfg: Config, token: Token): Option<Token> {
    if cfg.domain.Some? then None
    else if cfg.devToken.Some? then cfg.devToken
    else Some(token)
  }

  function SessionReply(cfg: Config, tn: Tenant, isNew: bool, status: Status): Proc {
    Done(SessionOk(if isNew then NewUrl(cfg, tn.tenantId) else PublicUrl(cfg, tn.tenantId),
                   ResponseToken(cfg, tn.token), tn.tenantId, status))
  }

  const INTERNAL_ERROR := Done(Fault(500))

  function DevOr(cfg: Config, token: Token): Token {
    if cfg.devToken.Some? then cfg.devToken.value else token
  }

  /** The health check of a session, for a row it inserted or one it read. */
  function ProbeCall(cfg: Config, tn: Tenant, isNew: bool): Call {
    if !isNew then Probe(TenantService(tn.tenantId), DevOr(cfg, tn.token))
    else if cfg.K8s() then Probe(TenantService(tn.tenantId), tn.token)
    else Probe(Template(tn.tenantId), DevOr(cfg, tn.token))
  }

  function ProvCall(spec: TenantSpec, pv: Prov, i: nat): Option<Call> {
    match pv
    case Client => if i == 0 then Some(ClientInit) else None
    case Storage(pvc, secret) =>
      if i == 0 && pvc == Todo then Some(Create(BuildPvc(spec)))
      else if i == 1 && secret == Todo then Some(Create(BuildSecret(spec)))
      else None
    case Compute(_) => if i == 0 then Some(Create(BuildPod(spec))) else None
    case Network(_, service, route) =>
      if i == 0 && service == Todo then Some(Create(BuildService(spec)))
      else if i == 1 && route == Todo && spec.domain.Some? then Some(Create(BuildRoute(spec)))
      else None
    case Finished(_, _) => None
  }

  /** ignore_already_exists. */
  function PartOf(r: Reply): Part {
    if r.Ok? then Made else if r.AlreadyExists? then Existed else Broken
  }

  /** Both calls of the first group have come back; an error of either ends the run. */
  function JoinStorage(pvc: Part, secret: Part): Prov {
    if pvc == Todo || secret == Todo then Storage(pvc, secret)
    else if pvc == Broken || secret == Broken then Finished(false, false)
    else Compute(pvc == Made || secret == Made)
  }

  function JoinNetwork(made: bool, service: Part, route: Part): Prov {
    if service == Todo || route == Todo then Network(made, service, route)
    else if service == Broken || route == Broken then Finished(false, made)
    else Finished(true, made || service == Made || route == Made)
  }

  function ProvResume(spec: TenantSpec, pv: Prov, i: nat, r: Reply): Prov {
    match pv
    case Client => if r.Ok? then Storage(Todo, Todo) else Finished(false, false)
    case Storage(pvc, secret) =>
      if i == 0 then JoinStorage(PartOf(r), secret) else JoinStorage(pvc, PartOf(r))
    case Compute(made) =>
      if PartOf(r) == Broken then Finished(false, made)
      else Network(made || PartOf(r) == Made, Todo, if spec.domain.Some? then Todo else Skipped)
    case Network(made, service, route) =>
      if i == 0 then JoinNetwork(made, PartOf(r), route) else JoinNetwork(made, service, PartOf(r))
    case Finished(_, _) => pv
  }

  // --- The sweeper ---

  function Min(a: nat, b: nat): nat { if a < b then a else b }

  /** The tenants of one batch. */
  function Batch(idle: seq<Tenant>, chunk: nat): seq<Tenant> {
    var lo := Min(chunk * MAX_CONCURRENT_SUSPENSIONS, |idle|);
    var hi := Min(lo + MAX_CONCURRENT_SUSPENSIONS, |idle|);
    idle[lo..hi]
  }

  function FirstStage(cfg: Config): Stage { if cfg.K8s() then Kill else Mark }

  predicate Listed(idle: seq<Tenant>, t: TenantId) {
    exists g :: 0 <= g < |idle| && idle[g].tenantId == t
  }

  function Spawned(cfg: Config, batch: seq<Tenant>): seq<Task> {
    seq(|batch|, i requires 0 <= i < |batch| => Task(batch[i].tenantId, FirstStage(cfg)))
  }

  function StartSweep(cfg: Config, begin: nat, idle: seq<Tenant>, now: nat): Proc {
    if idle == [] then Sleeping(now, None)
    else
      Sweeping(Sweep(begin, now, idle, 0, now, Spawned(cfg, Batch(idle, 0)), 0, 0, 0, seq(|idle|, _ => 0)))
  }

  function TaskCall(k: Task): Option<Call> {
    match k.stage
    case Kill => Some(Delete(KeyOf(PodK, k.tenantId)))
    case Mark => Some(UpdateStatus(k.tenantId, Suspended))
    case Over(_) => None
  }

  function TaskResume(k: Task, r: Reply): Task {
    if !r.Ok? then k.(stage := Over(false))
    else if k.stage == Kill then k.(stage := Mark)
    else k.(stage := Over(true))
  }

  /** A suspend task goes one call further. */
  function TaskStep(cfg: Config, s: Sweep, i: nat, r: Reply): (t: Sweep)
    requires i < |s.tasks|
    ensures t.idle == s.idle
  {
    var at := s.chunk * MAX_CONCURRENT_SUSPENSIONS + i;
    s.(tasks := s.tasks[i := TaskResume(s.tasks[i], r)],
       attempts := if at < |s.attempts| && s.tasks[i].stage == FirstStage(cfg)
                   then s.attempts[at := s.attempts[at] + 1] else s.attempts)
  }

  predicate CanAwait(s: Sweep) {
    s.awaited < |s.tasks| && s.tasks[s.awaited].stage.Over?
  }

  /** The next handle of the batch is awaited; after the last one, the next batch is spawned. */
  function AwaitStep(cfg: Config, s: Sweep, now: nat): (p: Proc)
    requires CanAwait(s)
    ensures p.Sweeping? ==> p.sweep.idle == s.idle
    ensures p.Sweeping? || p.Sleeping?
  {
    var ok := s.tasks[s.awaited].stage.ok;
    var t := s.(awaited := s.awaited + 1,
                suspended := if ok then s.suspended + 1 else s.suspended,
                failed := if ok then s.failed else s.failed + 1);
    if t.awaited < |t.tasks| then Sweeping(t)
    else
      var rest := Batch(t.idle, t.chunk + 1);
      if rest == [] then
        Sleeping(now, Some(Report(|t.idle|, t.chunk + 1, t.suspended, t.failed, t.attempts)))
      else
        Sweeping(t.(chunk := t.chunk + 1, launch := now, tasks := Spawned(cfg, rest), awaited := 0))
  }

  // --- All handlers ---

  /** The call of branch i, if there is one in flight. */
  function CallAt(cfg: Config, p: Proc, i: nat): Option<Call> {
    match p
    case Creating(tn, _, pv) =>
      if cfg.K8s() then ProvCall(SpecOf(cfg, tn.tenantId, tn.token), pv, i) else None
    case DeleteFront(tn, route, service, pod) =>
      if i == 0 && route then Some(Delete(KeyOf(RouteK, tn.tenantId)))
      else if i == 1 && service then Some(Delete(KeyOf(ServiceK, tn.tenantId)))
      else if i == 2 && pod then Some(Delete(KeyOf(PodK, tn.tenantId)))
      else None
    case DeleteBack(tn, secret, pvc) =>
      if i == 0 && secret then Some(Delete(KeyOf(SecretK, tn.tenantId)))
      else if i == 1 && pvc then Some(Delete(KeyOf(PvcK, tn.tenantId)))
      else None
    case Sweeping(s) =>
      if i < |s.tasks| then TaskCall(s.tasks[i])
      else if i == |s.tasks| && CanAwait(s) then Some(Await)
      else None
    case _ => if i == 0 then OnlyCall(cfg, p) else None
  }

  /** The call of a handler that has one call in flight. */
  function OnlyCall(cfg: Config, p: Proc): Option<Call> {
    match p
    case SessionFind(u) => Some(FindByUser(u))
    case SessionInsert(u) => Some(Insert(u))
    case Touching(tn) => Some(Touch(tn.tenantId))
    case Waking(tn) => if cfg.K8s() then Some(Create(BuildPod(SpecOf(cfg, tn.tenantId, tn.token)))) else None
    case WakeMark(tn) => Some(UpdateStatus(tn.tenantId, Provisioning))
    case Probing(tn, isNew) => Some(ProbeCall(cfg, tn, isNew))
    case ReadyMark(tn, _) => Some(UpdateStatus(tn.tenantId, Ready))
    case Checking(tn) => Some(GetPod(tn.tenantId))
    case CreateMark(tn) => Some(UpdateStatus(tn.tenantId, Provisioning))
    case ErrorMark(tn) => Some(UpdateStatus(tn.tenantId, Error))
    case SuspendFind(u) => Some(FindByUser(u))
    case SuspendKill(tn) => Some(Delete(KeyOf(PodK, tn.tenantId)))
    case SuspendMark(tn) => Some(UpdateStatus(tn.tenantId, Suspended))
    case DeleteFind(u) => Some(FindByUser(u))
    case DeleteClient(_) => Some(ClientInit)
    case DeleteLast(tn) => Some(DeleteRow(tn.tenantId))
    case AuthFind(u) => Some(FindByUser(u))
    case AuthTouch(tn, _) => Some(Touch(tn.tenantId))
    case StatusFind(u) => Some(FindByUser(u))
    case Sleeping(since, _) => Some(Timer(since + SWEEP_INTERVAL))
    case Querying(_) => Some(FindIdle)
    case _ => None
  }

  /** A status that a session checks again. */
  predicate Unsettled(status: Status) { status == Provisioning || status == Error }

  /** handle_existing after its touch. */
  function AfterTouch(cfg: Config, tn: Tenant): Proc {
    if tn.status == Suspended then (if cfg.K8s() then Waking(tn) else INTERNAL_ERROR)
    else if Unsettled(tn.status) then Probing(tn, false)
    else SessionReply(cfg, tn, false, tn.status)
  }

  function AfterProv(tn: Tenant, isNew: bool, pv: Prov): Proc {
    if !pv.Finished? then Creating(tn, isNew, pv)
    else if !pv.ok then ErrorMark(tn)
    else if isNew then Probing(tn, true)
    else CreateMark(tn)
  }

  /** After find_by_user, for a handler that needs a row: 404, or 401 for ext-authz. */
  function AfterFind(cfg: Config, p: Proc, found: Option<Tenant>): Proc
    requires p.SessionFind? || p.SuspendFind? || p.DeleteFind? || p.AuthFind? || p.StatusFind?
  {
    match found
    case None =>
      if p.SessionFind? then SessionInsert(p.userId)
      else Done(Fault(if p.AuthFind? then 401 else 404))
    case Some(tn) =>
      match p
      case SessionFind(_) => Touching(tn)
      case SuspendFind(_) =>
        if tn.status != Ready then Done(Fault(409))
        else if cfg.K8s() then SuspendKill(tn) else SuspendMark(tn)
      case DeleteFind(_) => if cfg.K8s() then DeleteClient(tn) else DeleteLast(tn)
      case AuthFind(_) =>
        if tn.status != Ready then Done(Fault(503))
        else AuthTouch(tn, AuthOk(tn.tenantId, Internal(tn.tenantId), tn.token))
      case StatusFind(_) => Done(StatusOk(tn.tenantId, tn.status))
  }

  function AfterFront(tn: Tenant, route: bool, service: bool, pod: bool): Proc {
    if route || service || pod then DeleteFront(tn, route, service, pod) else DeleteBack(tn, true, true)
  }

  function AfterBack(tn: Tenant, secret: bool, pvc: bool): Proc {
    if secret || pvc then DeleteBack(tn, secret, pvc) else DeleteLast(tn)
  }

  /** POST /api/session after the reply to branch i. */
  function SessionResume(cfg: Config, p: Proc, i: nat, r: Reply): Proc {
    match p
    case SessionFind(_) => if r.Found? then AfterFind(cfg, p, r.tenant) else INTERNAL_ERROR
    case SessionInsert(_) =>
      if !r.Inserted? then INTERNAL_ERROR
      else if cfg.K8s() then Creating(r.row, true, Client)
      else Probing(r.row, true)
    case Touching(tn) => if r.Ok? then AfterTouch(cfg, tn) else INTERNAL_ERROR
    case Waking(tn) => if r.Ok? then WakeMark(tn) else INTERNAL_ERROR
    case WakeMark(tn) => if r.Ok? then SessionReply(cfg, tn, false, Provisioning) else INTERNAL_ERROR
    case Probing(tn, isNew) =>
      if r.Answer? && r.yes then ReadyMark(tn, isNew)
      else if !isNew && cfg.K8s() then Checking(tn)
      else SessionReply(cfg, tn, isNew, Provisioning)
    case ReadyMark(tn, isNew) => if r.Ok? then SessionReply(cfg, tn, isNew, Ready) else INTERNAL_ERROR
    case Checking(tn) =>
      if !r.Answer? then INTERNAL_ERROR
      else if r.yes then SessionReply(cfg, tn, false, Provisioning)
      else Creating(tn, false, Client)
    case Creating(tn, isNew, pv) =>
      AfterProv(tn, isNew, ProvResume(SpecOf(cfg, tn.tenantId, tn.token), pv, i, r))
    case CreateMark(tn) => if r.Ok? then SessionReply(cfg, tn, false, Provisioning) else INTERNAL_ERROR
    case ErrorMark(_) => INTERNAL_ERROR
    case _ => p
  }

  /** The other request handlers after the reply to branch i. */
  function RequestResume(cfg: Config, p: Proc, i: nat, r: Reply): Proc {
    match p
    case SuspendFind(_) => if r.Found? then AfterFind(cfg, p, r.tenant) else INTERNAL_ERROR
    case SuspendKill(tn) => if r.Ok? then SuspendMark(tn) else INTERNAL_ERROR
    case SuspendMark(_) => if r.Ok? then Done(NoContent) else INTERNAL_ERROR
    case DeleteFind(_) => if r.Found? then AfterFind(cfg, p, r.tenant) else INTERNAL_ERROR
    case DeleteClient(tn) => if r.Ok? then DeleteFront(tn, true, true, true) else INTERNAL_ERROR
    case DeleteFront(tn, route, service, pod) =>
      AfterFront(tn, route && i != 0, service && i != 1, pod && i != 2)
    case DeleteBack(tn, secret, pvc) => AfterBack(tn, secret && i != 0, pvc && i != 1)
    case DeleteLast(_) => if r.Ok? then Done(NoContent) else INTERNAL_ERROR
    case AuthFind(_) => if r.Found? then AfterFind(cfg, p, r.tenant) else INTERNAL_ERROR
    case AuthTouch(_, response) => Done(response)
    case StatusFind(_) => if r.Found? then AfterFind(cfg, p, r.tenant) else INTERNAL_ERROR
    case _ => p
  }

  /** The sweeper's endless loop. */
  function SweeperResume(cfg: Config, p: Proc, i: nat, r: Reply, now: nat): Proc {
    match p
    case Sleeping(_, _) => if r.Ok? then Querying(now) else p
    case Querying(begin) => if r.Idle? then StartSweep(cfg, begin, r.tenants, now) else Sleeping(now, None)
    case Sweeping(s) =>
      if i < |s.tasks| then Sweeping(TaskStep(cfg, s, i, r))
      else if CanAwait(s) then AwaitStep(cfg, s, now)
      else p
    case _ => p
  }

  predicate IsSession(p: Proc) {
    p.SessionFind? || p.SessionInsert? || p.Touching? || p.Waking? || p.WakeMark? || p.Probing? || p.ReadyMark?
    || p.Checking? || p.Creating? || p.CreateMark? || p.ErrorMark?
  }

  predicate IsSweeper(p: Proc) {
    p.Sleeping? || p.Querying? || p.Sweeping?
  }

  /** How a handler or sweeper goes on after the reply to branch i. */
  function Resume(cfg: Config, p: Proc, i: nat, r: Reply, now: nat): Proc {
    if IsSession(p) then SessionResume(cfg, p, i, r)
    else if IsSweeper(p) then SweeperResume(cfg, p, i, r, now)
    else RequestResume(cfg, p, i, r)
  }
}
