/** In every world, every handler has a fault-free run, so results about fault-free runs are never empty. */
module Feasible {
  import opened Types
  import opened Manifests
  import opened World
  import opened Handlers
  import opened Serial

  lemma {:induction false} LongerThanAll(s: set<TenantId>) returns (n: nat)
    ensures forall t :: t in s ==> |t| < n
  {
    n := 0;
    if s != {} {
      var t :| t in s;
      var m := LongerThanAll(s - {t});
      n := if |t| < m then m else |t| + 1;
    }
  }

  /** Some tenant id was never issued. */
  lemma UnusedId(db: Db) returns (t: TenantId)
    ensures t !in db.issued
  {
    var n := LongerThanAll(db.issued.Keys);
    t := seq(n, _ => 'a');
  }

  lemma {:induction false} SomeOrder(s: set<TenantId>) returns (order: seq<TenantId>)
    ensures Lists(order, s)
  {
    order := [];
    if s != {} {
      var t :| t in s;
      var rest := SomeOrder(s - {t});
      order := [t] + rest;
      assert t !in (set x | x in rest);
      forall i, j | 0 <= i < j < |order|
        ensures order[i] != order[j]
      {
        assert order[j] in (set x | x in rest);
      }
      assert (set x | x in order) == {t} + (set x | x in rest);
    }
  }

  /** A run looks only at the choices from its own call on. */
  lemma {:induction false} OnlyLaterChoices(cfg: Config, w: World, p: Proc, o: Oracle, o': Oracle, n: nat)
    requires forall m :: n <= m ==> o'(m) == o(m)
    requires Smooth(cfg, w, p, o, n, true)
    ensures Smooth(cfg, w, p, o', n, true)
    decreases p.Querying?, Rank(p)
  {
    hide CallAt, Resume, Apply, Rank, Pick, SmoothCall;
    if !Halted(cfg, p, o(n).branch) {
      var ch := ChoiceFor(cfg, p, o, n);
      RankDrops(cfg, p, ch.branch, Apply(w, CallAt(cfg, p, ch.branch).value, ch).1, w.db.clock);
      var (w', next) := Advance(cfg, w, p, ch);
      OnlyLaterChoices(cfg, w', next, o, o', n + 1);
    }
  }

  lemma SmoothNow(w: World, c: Call, ch: Choice)
    requires ch.fate == Clean && ch.tenantId !in w.db.issued && Lists(ch.order, IdleIds(w.db))
    ensures SmoothCall(w, c, ch, true)
  {
  }

  /** A fault-free run exists from every world and position, with health checks answered or not as wished. */
  lemma {:induction false} FaultFreeRunExists(cfg: Config, w: World, p: Proc, n: nat, yes: bool) returns (o: Oracle)
    ensures Smooth(cfg, w, p, o, n, true)
    ensures forall m :: o(m).healthy == yes
    decreases p.Querying?, Rank(p)
  {
    hide CallAt, Resume, Apply, Rank, Pick, SmoothCall, Smooth, Lists, IdleIds;
    var t := UnusedId(w.db);
    var order := SomeOrder(IdleIds(w.db));
    var first := Choice(Pick(cfg, p, 0), Clean, yes, t, [], order);
    if Halted(cfg, p, first.branch) {
      o := (m: nat) => first;
      HaltedIsSmooth(cfg, w, p, o, n);
    } else {
      var ch := first.(branch := Pick(cfg, p, first.branch));
      var c := CallAt(cfg, p, ch.branch).value;
      RankDrops(cfg, p, ch.branch, Apply(w, c, ch).1, w.db.clock);
      var (w', next) := Advance(cfg, w, p, ch);
      var later := FaultFreeRunExists(cfg, w', next, n + 1, yes);
      o := (m: nat) => if m == n then first else later(m);
      OnlyLaterChoices(cfg, w', next, later, o, n + 1);
      SmoothNow(w, c, ch);
      SmoothStep(cfg, w, p, o, n);
    }
  }

  lemma HaltedIsSmooth(cfg: Config, w: World, p: Proc, o: Oracle, n: nat)
    requires Halted(cfg, p, o(n).branch)
    ensures Smooth(cfg, w, p, o, n, true)
  {
  }

  lemma SmoothStep(cfg: Config, w: World, p: Proc, o: Oracle, n: nat)
    requires !Halted(cfg, p, o(n).branch)
    requires var ch := ChoiceFor(cfg, p, o, n); var (w', next) := Advance(cfg, w, p, ch);
      SmoothCall(w, CallAt(cfg, p, ch.branch).value, ch, true) && Smooth(cfg, w', next, o, n + 1, true)
    ensures Smooth(cfg, w, p, o, n, true)
  {
    hide CallAt, Resume, Apply, Pick, SmoothCall;
  }
}
