/**
 What one call of the reconciler makes of a provider's answer, key by key: a key that is not in the answer is
 no observation, or a zero where the consumer has opted for it; a key that is in it wins where it disagrees.
 All of it is stated by the answer and the ledger's own list.
 */
module Observations {
  import opened Prelude
  import opened Gauges
  import opened Activations
  import opened Repair
  import opened Admission
  import opened Reconcile

  /**
   A gauge the provider does not report keeps every one of its slots, whatever the budget and the activity,
   and no disagreement is reported for it.
   */
  lemma UnreportedIsKept(cfg: Config, v: OrgView, usage: map<Resource, Usage>, m: Levels, budget: Option<int>,
                         keys: seq<Resource>, rk: Resource)
    requires v.truth == Observed(usage) && rk !in usage && !cfg.absentIsZero
    ensures var o := ReconciledOrg(cfg, v, m, budget, keys);
            rk !in o.divergences && forall s | OfGauge(s, v.org, rk) :: Level(o.levels, s) == Level(m, s)
  {
    if cfg.enabled {
      UnreportedSkipped(cfg, v, usage, m, budget, keys, rk);
    }
  }

  lemma {:induction false} UnreportedSkipped(cfg: Config, v: OrgView, usage: map<Resource, Usage>, m: Levels, budget: Option<int>,
                                             keys: seq<Resource>, rk: Resource)
    requires v.truth == Observed(usage) && rk !in usage && !cfg.absentIsZero
    ensures var o := OrgPass(cfg, v, m, budget, keys);
            rk !in o.divergences && forall s | OfGauge(s, v.org, rk) :: Level(o.levels, s) == Level(m, s)
    decreases |keys|
  {
    if keys != [] {
      var plan := PlanGauge(cfg, v, m, keys[0]);
      var m1 := Apply(v, m, keys[0], plan);
      assert keys[0] == rk ==> plan == Skip;
      hide Apply, PlanGauge, Counted;
      UnreportedSkipped(cfg, v, usage, m, budget, keys[1..], rk);
      UnreportedSkipped(cfg, v, usage, m1, LessOne(budget), keys[1..], rk);
      if keys[0] != rk {
        forall s | OfGauge(s, v.org, rk) ensures Level(m1, s) == Level(m, s) {
          ApplyElsewhere(v, m, keys[0], plan, s);
        }
      }
    }
  }

  /** Where absence is opted to mean zero, the call is the one for a report of zero and of no user. */
  lemma AbsentIsZero(cfg: Config, v: OrgView, usage: map<Resource, Usage>, m: Levels, budget: Option<int>, keys: seq<Resource>,
                     rk: Resource)
    requires v.truth == Observed(usage) && rk !in usage && cfg.absentIsZero
    ensures ReconciledOrg(cfg, v, m, budget, keys)
         == ReconciledOrg(cfg, v.(truth := Observed(usage[rk := Usage(0.0, map[])])), m, budget, keys)
  {
    AbsentPasses(cfg, v, usage, m, budget, keys, rk);
    hide OrgPass;
  }

  lemma {:induction false} AbsentPasses(cfg: Config, v: OrgView, usage: map<Resource, Usage>, m: Levels, budget: Option<int>,
                                        keys: seq<Resource>, rk: Resource)
    requires v.truth == Observed(usage) && rk !in usage && cfg.absentIsZero
    ensures OrgPass(cfg, v, m, budget, keys) == OrgPass(cfg, v.(truth := Observed(usage[rk := Usage(0.0, map[])])), m, budget, keys)
    decreases |keys|
  {
    if keys != [] {
      var w := v.(truth := Observed(usage[rk := Usage(0.0, map[])]));
      var plan := PlanGauge(cfg, v, m, keys[0]);
      assert plan == PlanGauge(cfg, w, m, keys[0]);
      hide PlanGauge, NeedsForce, Forced, Converged;
      AbsentPasses(cfg, v, usage, m, budget, keys[1..], rk);
      AbsentPasses(cfg, v, usage, Apply(v, m, keys[0], plan), LessOne(budget), keys[1..], rk);
    }
  }

  /** The report wins over the ledger: the provider is the record, or the two disagree by more than a billionth. */
  predicate Overrules(cfg: Config, reported: real, ledger: real)
  {
    cfg.providerMode || reported - ledger > 0.000000001 || ledger - reported > 0.000000001
  }

  /**
   A gauge the provider reports, by a call without a budget and outside the activity guard. The org total ends
   within a billionth of the report where that wins, else of Σ OPEN; a disagreement is reported exactly where the
   ledger is the record. The call acts where the two disagree or the total was off: then every user ends where
   the winner says too, at zero if it does not name them. Else every slot stays.
   */
  lemma ReportedLaw(cfg: Config, v: OrgView, usage: map<Resource, Usage>, m: Levels, keys: seq<Resource>, rk: Resource)
    requires cfg.enabled && !v.recent && DistinctKeys(keys) && rk in keys
    requires v.truth == Observed(usage) && rk in usage
    ensures var o, u := ReconciledOrg(cfg, v, m, None, keys), usage[rk];
            var s, ledger := OrgSlot(v.org, rk), ListedSum(v.opens, OrgSlot(v.org, rk));
            var wins := Overrules(cfg, u.total, ledger);
            var acts := (wins && !cfg.providerMode) || Abs(Level(m, s) - (if wins then u.total else ledger)) > 0.000000001;
            && Abs(Level(o.levels, s) - (if wins then u.total else ledger)) <= 0.000000001
            && (rk in o.divergences <==> !cfg.providerMode && wins)
            && (acts && wins ==> forall user :: var t := UserSlot(v.org, rk, user);
                  if user in u.users then Abs(Level(o.levels, t) - u.users[user]) <= 0.000000001 else Level(o.levels, t) == 0.0)
            && (acts && !wins ==> forall user :: var t := UserSlot(v.org, rk, user); Level(o.levels, t) == ListedSum(v.opens, t))
            && (!acts ==> forall t | OfGauge(t, v.org, rk) :: Level(o.levels, t) == Level(m, t))
  {
    var i :| 0 <= i < |keys| && keys[i] == rk;
    hide OrgPass, ListedSum, GaugeLaw, Overrules, Abs, OfGauge;
    OrgPassLaw(cfg, v, m, keys, i);
    DivergenceIff(cfg, v, usage, m, keys, rk);
    ReportedGauge(cfg, v, usage, m, OrgPass(cfg, v, m, None, keys).levels, rk);
  }

  lemma ReportedGauge(cfg: Config, v: OrgView, usage: map<Resource, Usage>, m: Levels, end: Levels, rk: Resource)
    requires v.truth == Observed(usage) && rk in usage && GaugeLaw(cfg, v, m, end, rk)
    ensures var u, s, ledger := usage[rk], OrgSlot(v.org, rk), ListedSum(v.opens, OrgSlot(v.org, rk));
            var wins := Overrules(cfg, u.total, ledger);
            var acts := (wins && !cfg.providerMode) || Abs(Level(m, s) - (if wins then u.total else ledger)) > 0.000000001;
            && Abs(Level(end, s) - (if wins then u.total else ledger)) <= 0.000000001
            && (acts && wins ==> forall user :: var t := UserSlot(v.org, rk, user);
                  if user in u.users then Abs(Level(end, t) - u.users[user]) <= 0.000000001 else Level(end, t) == 0.0)
            && (acts && !wins ==> forall user :: var t := UserSlot(v.org, rk, user); Level(end, t) == ListedSum(v.opens, t))
            && (!acts ==> forall t | OfGauge(t, v.org, rk) :: Level(end, t) == Level(m, t))
  {
    hide ListedSum, Level;
    assert OfGauge(OrgSlot(v.org, rk), v.org, rk);
    forall user ensures OfGauge(UserSlot(v.org, rk, user), v.org, rk) {
    }
  }

  lemma {:induction false} DivergenceIff(cfg: Config, v: OrgView, usage: map<Resource, Usage>, m: Levels, keys: seq<Resource>,
                                         rk: Resource)
    requires !v.recent && v.truth == Observed(usage) && rk in usage
    ensures rk in OrgPass(cfg, v, m, None, keys).divergences <==>
              rk in keys && !cfg.providerMode && Overrules(cfg, usage[rk].total, ListedSum(v.opens, OrgSlot(v.org, rk)))
    decreases |keys|
  {
    hide Apply, Counted;
    if keys != [] {
      var plan := PlanGauge(cfg, v, m, keys[0]);
      DivergenceIff(cfg, v, usage, m, keys[1..], rk);
      DivergenceIff(cfg, v, usage, Apply(v, m, keys[0], plan), keys[1..], rk);
      assert keys == [keys[0]] + keys[1..];
    }
  }

  /** Without a provider, in ledger mode, every gauge ends within a billionth of Σ OPEN and nothing disagrees. */
  lemma UnaskedLaw(cfg: Config, v: OrgView, m: Levels, budget: Option<int>, keys: seq<Resource>, rk: Resource)
    requires cfg.enabled && !cfg.providerMode && v.truth.NoSource?
    ensures ReconciledOrg(cfg, v, m, budget, keys).divergences == []
    ensures !v.recent && DistinctKeys(keys) && rk in keys ==>
              Abs(Level(ReconciledOrg(cfg, v, m, None, keys).levels, OrgSlot(v.org, rk)) - ListedSum(v.opens, OrgSlot(v.org, rk)))
              <= 0.000000001
  {
    UnaskedPasses(cfg, v, m, budget, keys);
    hide OrgPass;
    if !v.recent && DistinctKeys(keys) && rk in keys {
      ReconcileOrgLaw(cfg, v, m, keys, rk);
    }
  }

  lemma {:induction false} UnaskedPasses(cfg: Config, v: OrgView, m: Levels, budget: Option<int>, keys: seq<Resource>)
    requires !cfg.providerMode && v.truth.NoSource?
    ensures OrgPass(cfg, v, m, budget, keys).divergences == []
    decreases |keys|
  {
    hide Apply, Counted;
    if keys != [] {
      UnaskedPasses(cfg, v, m, budget, keys[1..]);
      UnaskedPasses(cfg, v, Apply(v, m, keys[0], PlanGauge(cfg, v, m, keys[0])), LessOne(budget), keys[1..]);
    }
  }
}
