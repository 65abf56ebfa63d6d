/** What a session tells its caller about the row it leaves behind. */
module Fidelity {
  import opened Types
  import opened Manifests
  import opened World
  import opened Handlers
  import opened Agreement
  import opened Justification
  import opened Serial

  /** The answer agrees with the row, or says Provisioning of an Error row it could not or need not act on. */
  predicate Faithful(cfg: Config, w: World, r: Response) {
    r.SessionOk? ==>
      && r.tenantId in w.db.rows
      && var status := w.db.rows[r.tenantId].tenant.status;
         r.status == status
         || (status == Error && r.status == Provisioning && (!cfg.K8s() || Has(w.kube, PodK, r.tenantId)))
  }

  /** While a session runs alone, the row is as its snapshot says. */
  ghost predicate InStep(cfg: Config, w: World, p: Proc) {
    && Justified(p)
    && (IsSession(p) && Snapshot(p).Some? ==>
          var tn := Snapshot(p).value;
          tn.tenantId in w.db.rows && w.db.rows[tn.tenantId].tenant.status == tn.status)
    && (p.Creating? || p.Checking? ==> cfg.K8s())
    && (p.Done? ==> Faithful(cfg, w, p.response))
    && (IsSession(p) || p.Done?)
  }

  lemma LookupFindsRow(db: Db, u: UserId)
    requires RowsAgree(db) && Lookup(db, u).Some?
    ensures var tn := Lookup(db, u).value; tn.tenantId in db.rows && db.rows[tn.tenantId].tenant == tn
  {
  }

  lemma StepInStep(cfg: Config, w: World, p: Proc, ch: Choice)
    requires RowsAgree(w.db) && InStep(cfg, w, p) && IsSession(p)
    requires CallAt(cfg, p, ch.branch).Some?
    requires IsStoreCall(CallAt(cfg, p, ch.branch).value) ==> ch.fate == Clean
    ensures var (w', next) := Advance(cfg, w, p, ch);
            RowsAgree(w'.db) && InStep(cfg, w', next)
  {
    var c := CallAt(cfg, p, ch.branch).value;
    var (w', r) := Apply(w, c, ch);
    RowsStayAgreed(w, c, ch);
    RepliesAreFresh(w, c, ch);
    ResumeJustified(cfg, p, ch.branch, r, w.db.clock);
    if p.SessionFind? {
      if Lookup(w.db, p.userId).Some? { LookupFindsRow(w.db, p.userId); }
      FindInStep(cfg, w, p, ch);
    } else if p.Creating? {
      CreateInStep(cfg, w, p, ch);
    } else {
      OtherInStep(cfg, w, p, ch);
    }
    hide KeyOf, Apply, Resume, CallAt, RowsAgree, InStep;
  }

  lemma RowsStayAgreed(w: World, c: Call, ch: Choice)
    requires RowsAgree(w.db)
    ensures RowsAgree(Apply(w, c, ch).0.db)
  {
    hide RowsAgree, StoreCall, KubeCall;
    if IsStoreCall(c) { StoreAgrees(w.db, c, ch); }
  }

  lemma FindInStep(cfg: Config, w: World, p: Proc, ch: Choice)
    requires RowsAgree(w.db) && InStep(cfg, w, p) && p.SessionFind?
    requires CallAt(cfg, p, ch.branch).Some? && ch.fate == Clean
    requires Justified(Advance(cfg, w, p, ch).1)
    ensures var (w', next) := Advance(cfg, w, p, ch); InStep(cfg, w', next)
  {
    hide KeyOf, Justified;
    if Lookup(w.db, p.userId).Some? { LookupFindsRow(w.db, p.userId); }
  }

  lemma ProvisioningOnlyCreates(spec: TenantSpec, pv: Prov, i: nat)
    ensures var c := ProvCall(spec, pv, i); c.None? || c.value.ClientInit? || c.value.Create?
  {
  }

  lemma CreateInStep(cfg: Config, w: World, p: Proc, ch: Choice)
    requires InStep(cfg, w, p) && p.Creating? && CallAt(cfg, p, ch.branch).Some?
    requires Justified(Advance(cfg, w, p, ch).1)
    ensures var (w', next) := Advance(cfg, w, p, ch); InStep(cfg, w', next)
  {
    ProvisioningOnlyCreates(SpecOf(cfg, p.tn.tenantId, p.tn.token), p.prov, ch.branch);
    hide KeyOf, Justified, ProvCall, ProvResume, KubeCall;
  }

  lemma OtherInStep(cfg: Config, w: World, p: Proc, ch: Choice)
    requires InStep(cfg, w, p) && IsSession(p) && !p.Creating? && !p.SessionFind?
    requires CallAt(cfg, p, ch.branch).Some?
    requires IsStoreCall(CallAt(cfg, p, ch.branch).value) ==> ch.fate == Clean
    requires Justified(Advance(cfg, w, p, ch).1)
    ensures var (w', next) := Advance(cfg, w, p, ch); InStep(cfg, w', next)
  {
    hide KeyOf, KeyFor, BuildPod, Answers, PublicUrl, NewUrl, ResponseToken, ProvResume;
    if p.SessionInsert? {
      hide SetStatus, SetActive;
    } else if p.Touching? {
      hide AddRow, SetStatus;
    } else {
      hide AddRow, SetActive, AfterTouch;
    }
  }

  /**
   * Response fidelity. A session that runs alone with fault-free store calls,
   * whatever the cluster calls do, answers with the final status of its row;
   * only a row still in Error, whose Pod exists or with Kubernetes disabled, is
   * reported as Provisioning.
   */
  lemma {:induction false} SessionTellsFinalStatus(cfg: Config, w: World, p: Proc, o: Oracle, n: nat)
    requires RowsAgree(w.db) && InStep(cfg, w, p) && Smooth(cfg, w, p, o, n, false)
    ensures var (w', p', _) := Drive(cfg, w, p, o, n);
            RowsAgree(w'.db) && InStep(cfg, w', p') && (p'.Done? ==> Faithful(cfg, w', p'.response))
    decreases p.Querying?, Rank(p)
  {
    hide CallAt, Resume, Apply, RowsAgree, Pick, Rank, Faithful, Justified;
    if !Halted(cfg, p, o(n).branch) {
      var ch := ChoiceFor(cfg, p, o, n);
      RankDrops(cfg, p, ch.branch, Apply(w, CallAt(cfg, p, ch.branch).value, ch).1, w.db.clock);
      assert IsSession(p) by { DoneHalts(cfg, p, o(n).branch); }
      StepInStep(cfg, w, p, ch);
      var (w', next) := Advance(cfg, w, p, ch);
      SessionTellsFinalStatus(cfg, w', next, o, n + 1);
      DriveStep(cfg, w, p, o, n);
    }
  }

  lemma DoneHalts(cfg: Config, p: Proc, i: nat)
    ensures p.Done? ==> Halted(cfg, p, i)
  {
  }

  /** The same for a whole POST /api/session. */
  lemma SessionIsFaithful(cfg: Config, w: World, u: UserId, o: Oracle, n: nat)
    requires RowsAgree(w.db) && Smooth(cfg, w, SessionFind(u), o, n, false)
    ensures var (w', p, _) := Drive(cfg, w, SessionFind(u), o, n);
            p.Done? && Faithful(cfg, w', p.response)
  {
    hide Drive;
    DriveEnds(cfg, w, SessionFind(u), o, n);
    SessionTellsFinalStatus(cfg, w, SessionFind(u), o, n);
  }
}
