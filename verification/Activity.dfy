/** When a tenant counts as active: at its creation, and at every session and gateway request for it. */
module Activity {
  import opened Types
  import opened Manifests
  import opened World
  import opened Handlers
  import opened Protocol
  import opened Agreement
  import opened Serial
  import opened Lockstep
  import Limits
  import Views
  import Sweeps

  // --- In runs ---

  /** What a call makes of the last activity of a row that stays, and of a row that comes. */
  lemma CallActivity(w: World, c: Call, ch: Choice, t: TenantId)
    requires RowsAgree(w.db) && t in Apply(w, c, ch).0.db.rows
    ensures var row := Apply(w, c, ch).0.db.rows[t];
      if t in w.db.rows then
        if c == Touch(t) && ch.fate != Before then row.lastActive == w.db.clock
        else row.lastActive == w.db.rows[t].lastActive
      else
        && c == Insert(row.tenant.userId) && ch.fate != Before && ch.tenantId == t
        && row == Row(Tenant(row.tenant.userId, t, ch.token, Provisioning), w.db.clock)
  {
    hide KeyOf, KeyFor, KubeCall, IdleIds, Lists, Lookup;
  }

  /**
   * In every run a row's last activity changes only with a touch of that tenant,
   * to the time of the touch; and a new row comes only with an insert, Provisioning
   * and active at the time of the insert.
   */
  lemma ActivityIsTouchOrInsert(cfg: Config, es: Schedule, n: nat, t: TenantId)
    requires t in At(cfg, es, n + 1).w.db.rows
    ensures var s, row := At(cfg, es, n), At(cfg, es, n + 1).w.db.rows[t];
      if t in s.w.db.rows then
        row.lastActive != s.w.db.rows[t].lastActive ==>
          && es(n).Act? && CallOf(cfg, s, es(n).pid, es(n).choice) == Some(Touch(t))
          && row.lastActive == s.w.db.clock
      else
        && es(n).Act? && CallOf(cfg, s, es(n).pid, es(n).choice) == Some(Insert(row.tenant.userId))
        && row.lastActive == s.w.db.clock && row.tenant.status == Provisioning
        && es(n).choice.tenantId == t && es(n).choice.token == row.tenant.token
  {
    hide At, Apply, CallOf, Resume, KeyOf, RowsAgree;
    AtStep(cfg, es, n);
    assert RowsAgree(At(cfg, es, n).w.db) by { RowsAlwaysAgree(cfg, es, n); }
    var s, e := At(cfg, es, n), es(n);
    if e.Act? && CallOf(cfg, s, e.pid, e.choice).Some? {
      CallActivity(s.w, CallOf(cfg, s, e.pid, e.choice).value, e.choice, t);
    }
  }

  lemma RowsAlwaysAgree(cfg: Config, es: Schedule, n: nat)
    ensures RowsAgree(At(cfg, es, n).w.db)
  {
    hide At, RowsAgree;
    AlwaysAgrees(cfg, es, n);
  }

  /**
   * A tenant whose insert takes effect at time T, even if its reply is lost, is in
   * no answer of a query made in [T, T + 3600].
   */
  lemma InsertedIsSpared(cfg: Config, es: Schedule, n: nat, m: nat, t: TenantId)
    requires n < m && t !in At(cfg, es, n).w.db.rows && t in At(cfg, es, n + 1).w.db.rows
    requires At(cfg, es, m).w.db.clock <= At(cfg, es, n).w.db.clock + 3600
    ensures t !in IdleIds(At(cfg, es, m).w.db)
  {
    hide At, CallOf, IdleIds;
    ActivityIsTouchOrInsert(cfg, es, n, t);
    Sweeps.ActiveIsSpared(cfg, es, n + 1, m, t, At(cfg, es, n).w.db.clock);
  }

  // --- In calls alone ---

  /** Whether tenant t has a row that counts as active now. */
  predicate ActiveNow(db: Db, t: TenantId) { t in db.rows && db.rows[t].lastActive == db.clock }

  /** The table with tenant t active now, and nothing else changed. */
  ghost predicate OnlyActive(w: World, w': World, t: TenantId) {
    && w'.kube == w.kube && w'.db.byUser == w.db.byUser && w'.db.issued == w.db.issued && w'.db.clock == w.db.clock
    && w'.db.rows.Keys == w.db.rows.Keys
    && (forall x :: x in w.db.rows && x != t ==> w'.db.rows[x] == w.db.rows[x])
    && t in w.db.rows && w'.db.rows[t] == Row(w.db.rows[t].tenant, w.db.clock)
  }

  lemma TouchOnly(w: World, t: TenantId, ch: Choice)
    requires t in w.db.rows
    ensures var w' := w.(db := StoreCall(w.db, Touch(t), ch).0);
      if ch.fate == Before then w' == w else OnlyActive(w, w', t)
  {
  }

  /**
   * GET /ext-authz alone, whatever is lost: 401 without a row, 503 unless Ready,
   * and neither changes anything; otherwise the tenant's own backend and token,
   * and, unless its second call is lost before taking effect, the tenant is active
   * now, with every other field and every other row as before.
   */
  lemma ExtAuthzRecordsActivity(cfg: Config, w: World, u: UserId, o: Oracle, n: nat)
    requires RowsAgree(w.db)
    ensures var (w', p, _) := Drive(cfg, w, AuthFind(u), o, n);
      if o(n).fate != Clean then w' == w && p == Done(Fault(500))
      else match Lookup(w.db, u)
           case None => w' == w && p == Done(Fault(401))
           case Some(tn) =>
             if tn.status != Ready then w' == w && p == Done(Fault(503))
             else
               && p == Done(AuthOk(tn.tenantId, Internal(tn.tenantId), tn.token))
               && (if o(n + 1).fate == Before then w' == w else OnlyActive(w, w', tn.tenantId))
  {
    LookupInRows(w.db, u);
    hide Drive, Lookup, RowsAgree, StoreCall, OnlyActive;
    FoundBy(cfg, w, u, o, n);
    EndsAll(cfg, w, o, n + 1);
    if o(n).fate == Clean && Lookup(w.db, u).Some? && Lookup(w.db, u).value.status == Ready {
      AuthTouches(cfg, w, Lookup(w.db, u).value, o, n + 1);
    }
  }

  /** The touch that follows the answer. */
  lemma AuthTouches(cfg: Config, w: World, tn: Tenant, o: Oracle, n: nat)
    requires tn.tenantId in w.db.rows
    ensures var answer := AuthOk(tn.tenantId, Internal(tn.tenantId), tn.token);
      var (w', p, _) := Drive(cfg, w, AuthTouch(tn, answer), o, n);
      p == Done(answer) && (if o(n).fate == Before then w' == w else OnlyActive(w, w', tn.tenantId))
  {
    hide Drive, StoreCall, OnlyActive;
    var answer := AuthOk(tn.tenantId, Internal(tn.tenantId), tn.token);
    FollowsStore(cfg, w, AuthTouch(tn, answer), o, n, Touch(tn.tenantId));
    TouchOnly(w, tn.tenantId, o(n));
    Ends(cfg, w.(db := StoreCall(w.db, Touch(tn.tenantId), o(n)).0), Done(answer), o, n + 1);
  }

  lemma LookupInRows(db: Db, u: UserId)
    requires RowsAgree(db)
    ensures Lookup(db, u).Some? ==> Lookup(db, u).value.tenantId in db.rows
  {
  }

  lemma FoundBy(cfg: Config, w: World, u: UserId, o: Oracle, n: nat)
    ensures Drive(cfg, w, AuthFind(u), o, n)
         == Drive(cfg, w, if o(n).fate == Clean then AfterFind(cfg, AuthFind(u), Lookup(w.db, u))
             else INTERNAL_ERROR, o, n + 1)
  {
    hide Drive, Lookup, AfterFind;
    FollowsStore(cfg, w, AuthFind(u), o, n, FindByUser(u));
    assert w == w.(db := w.db);
  }

  lemma EndsAll(cfg: Config, w: World, o: Oracle, n: nat)
    ensures forall code {:trigger Fault(code)} :: Drive(cfg, w, Done(Fault(code)), o, n) == (w, Done(Fault(code)), n)
  {
    hide Drive;
    forall code
      ensures Drive(cfg, w, Done(Fault(code)), o, n) == (w, Done(Fault(code)), n)
    {
      Ends(cfg, w, Done(Fault(code)), o, n);
    }
  }

  /** No call of a session makes an active tenant less active. */
  lemma {:induction false} SessionsKeepActive(cfg: Config, w: World, p: Proc, o: Oracle, n: nat, t: TenantId)
    requires (IsSession(p) || p.Done?) && RowsAgree(w.db) && ActiveNow(w.db, t)
    ensures var w' := Drive(cfg, w, p, o, n).0; ActiveNow(w'.db, t) && w'.db.clock == w.db.clock
    decreases p.Querying?, Rank(p)
  {
    hide CallAt, Resume, Apply, Pick, Rank, RowsAgree, ActiveNow;
    if !Halted(cfg, p, o(n).branch) {
      var ch := ChoiceFor(cfg, p, o, n);
      Views.DoneHasNoCall(cfg, p, ch.branch);
      var c := CallAt(cfg, p, ch.branch).value;
      var r := Apply(w, c, ch).1;
      RankDrops(cfg, p, ch.branch, r, w.db.clock);
      Limits.SessionCalls(cfg, p, ch.branch);
      StaysActiveNow(w, c, ch, t);
      Limits.SessionStays(cfg, p, ch.branch, r, w.db.clock);
      var (w', next) := Advance(cfg, w, p, ch);
      SessionsKeepActive(cfg, w', next, o, n + 1, t);
      DriveStep(cfg, w, p, o, n);
    }
  }

  lemma StaysActiveNow(w: World, c: Call, ch: Choice, t: TenantId)
    requires RowsAgree(w.db) && ActiveNow(w.db, t) && !c.DeleteRow?
    ensures var w' := Apply(w, c, ch).0; RowsAgree(w'.db) && ActiveNow(w'.db, t) && w'.db.clock == w.db.clock
  {
    Limits.InsertSparesRow(w, c, ch, t);
    if !(c.Insert? && ch.tenantId == t) { KeepsRow(w, c, ch, t); CallActivity(w, c, ch, t); }
    ClockStays(w, c, ch);
    hide RowsAgree, Apply;
  }

  lemma KeepsRow(w: World, c: Call, ch: Choice, t: TenantId)
    requires t in w.db.rows && !c.DeleteRow?
    ensures t in Apply(w, c, ch).0.db.rows
  {
    hide KeyOf, KeyFor, KubeCall, IdleIds, Lists;
  }

  lemma ClockStays(w: World, c: Call, ch: Choice)
    ensures Apply(w, c, ch).0.db.clock == w.db.clock
  {
    hide KeyOf, KeyFor, KubeCall, IdleIds, Lists;
  }

  /**
   * A session of a user with a row, in any configuration and whatever is lost
   * later: if the row was read and the touch took effect, the tenant is active
   * now when the session ends; and if the touch was lost before taking effect, or
   * its reply was lost, the session answers 500.
   */
  lemma SessionRecordsActivity(cfg: Config, w: World, u: UserId, o: Oracle, n: nat)
    requires RowsAgree(w.db) && Lookup(w.db, u).Some? && o(n).fate == Clean
    ensures var t := Lookup(w.db, u).value.tenantId; var (w', p, _) := Drive(cfg, w, SessionFind(u), o, n);
      && (o(n + 1).fate != Before ==> ActiveNow(w'.db, t) && w'.db.clock == w.db.clock)
      && (o(n + 1).fate != Clean ==> p == Done(Fault(500)))
  {
    LookupInRows(w.db, u);
    hide Drive, Lookup, RowsAgree, StoreCall, AfterTouch, ActiveNow;
    var tn := Lookup(w.db, u).value;
    Limits.Finds(cfg, w, SessionFind(u), o, n);
    FollowsStore(cfg, w, Touching(tn), o, n + 1, Touch(tn.tenantId));
    var w1 := w.(db := StoreCall(w.db, Touch(tn.tenantId), o(n + 1)).0);
    EndsAll(cfg, w1, o, n + 2);
    Limits.Touches(w.db, tn.tenantId, o(n + 1));
    TouchActive(w, tn.tenantId, o(n + 1));
    if o(n + 1).fate == Clean {
      assert IsSession(AfterTouch(cfg, tn)) || AfterTouch(cfg, tn).Done? by { AfterTouchIsSession(cfg, tn); }
      SessionsKeepActive(cfg, w1, AfterTouch(cfg, tn), o, n + 2, tn.tenantId);
    }
  }

  lemma AfterTouchIsSession(cfg: Config, tn: Tenant)
    ensures IsSession(AfterTouch(cfg, tn)) || AfterTouch(cfg, tn).Done?
  {
  }

  lemma TouchActive(w: World, t: TenantId, ch: Choice)
    requires RowsAgree(w.db) && t in w.db.rows
    ensures var db := StoreCall(w.db, Touch(t), ch).0;
      RowsAgree(db) && db.clock == w.db.clock && (ch.fate != Before ==> ActiveNow(db, t))
  {
    StoreAgrees(w.db, Touch(t), ch);
    hide RowsAgree;
  }

  /** A first session whose insert takes effect, whatever is lost later, leaves its tenant active now. */
  lemma FirstSessionRecordsActivity(cfg: Config, w: World, u: UserId, o: Oracle, n: nat)
    requires RowsAgree(w.db) && u !in w.db.byUser && o(n).fate == Clean
    requires o(n + 1).fate != Before && o(n + 1).tenantId !in w.db.issued
    ensures var w' := Drive(cfg, w, SessionFind(u), o, n).0;
      ActiveNow(w'.db, o(n + 1).tenantId) && w'.db.clock == w.db.clock
  {
    assert Lookup(w.db, u) == None;
    hide Drive, Lookup, RowsAgree, StoreCall, ActiveNow;
    Limits.Finds(cfg, w, SessionFind(u), o, n);
    FollowsStore(cfg, w, SessionInsert(u), o, n + 1, Insert(u));
    var (db, r) := StoreCall(w.db, Insert(u), o(n + 1));
    InsertActive(w, u, o(n + 1));
    var w1 := w.(db := db);
    EndsAll(cfg, w1, o, n + 2);
    if r.Inserted? {
      var next := if cfg.K8s() then Creating(r.row, true, Client) else Probing(r.row, true);
      SessionsKeepActive(cfg, w1, next, o, n + 2, o(n + 1).tenantId);
    }
  }

  lemma InsertActive(w: World, u: UserId, ch: Choice)
    requires RowsAgree(w.db) && u !in w.db.byUser && ch.tenantId !in w.db.issued && ch.fate != Before
    ensures var db := StoreCall(w.db, Insert(u), ch).0;
      RowsAgree(db) && db.clock == w.db.clock && ActiveNow(db, ch.tenantId)
  {
    StoreAgrees(w.db, Insert(u), ch);
    hide RowsAgree;
  }
}
