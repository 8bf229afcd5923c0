/**
 The background reconciler: per org and gauge it decides which record of existence wins, and force
 sets the counter to it, within a budget shared by a whole pass.
 */
module Reconcile {
  import opened Prelude
  import opened Gauges
  import opened Activations
  import opened Repair
  import opened Admission
  import opened Enumerate

  /** `providerMode` is `truth_source = "provider"`; `absentIsZero` is `empty_provider = "converge"`. */
  datatype Config = Config(enabled: bool, providerMode: bool, absentIsZero: bool, requireDurable: bool, maxForceSets: int,
                           maxOrgs: nat)

  // ---- Which source wins ----------------------------------------------------------------------

  datatype Sighting = NotConsulted | Missing | Seen(usage: Usage)

  /** A key the provider does not report is no observation, unless the consumer opted out. */
  function Sight(cfg: Config, truth: Truth, rk: Resource): Sighting
    requires !truth.Unreachable?
  {
    match truth
    case NoSource => NotConsulted
    case Observed(usage) =>
      if rk in usage then Seen(usage[rk]) else if cfg.absentIsZero then Seen(Usage(0.0, map[])) else Missing
  }

  datatype Resolution = Resolution(target: real, fromProvider: bool, divergence: bool)

  /** `_resolve_existence`. */
  function Resolve(cfg: Config, ledger: real, observed: Option<real>): Resolution
  {
    if cfg.providerMode then Resolution(if observed.Some? then observed.value else 0.0, true, false)
    else if observed.None? || Near(observed.value, ledger) then Resolution(ledger, false, false)
    else Resolution(observed.value, true, true)
  }

  /** The law of precedence: reality where it is observed, to tolerance; the ledger where it is not. */
  lemma ResolveLaw(cfg: Config, ledger: real, observed: Option<real>)
    ensures var r := Resolve(cfg, ledger, observed);
            && (observed.Some? ==> Near(r.target, observed.value))
            && (observed.None? && !cfg.providerMode ==> r.target == ledger)
            && (r.divergence <==> !cfg.providerMode && observed.Some? && !Near(observed.value, ledger))
            && (!r.fromProvider ==> r.target == ledger)
  {
  }

  // ---- One org ----------------------------------------------------------------------------------

  /** What a pass sees of an org: the provider's answer, the ledger's list, the recent-activity guard. */
  datatype OrgView = OrgView(org: Org, truth: Truth, opens: seq<Activation>, recent: bool)

  datatype Plan =
    | Skip
    | InSync
    | Set(fromProvider: bool, total: real, users: map<User, real>, divergence: bool)

  function PlanGauge(cfg: Config, v: OrgView, m: Levels, rk: Resource): Plan
    requires !v.truth.Unreachable?
  {
    var seen := Sight(cfg, v.truth, rk);
    if seen.Missing? then Skip
    else
      var r := Resolve(cfg, ListedSum(v.opens, OrgSlot(v.org, rk)), if seen.Seen? then Some(seen.usage.total) else None);
      if !r.divergence && Near(Level(m, OrgSlot(v.org, rk)), r.target) then InSync
      else Set(r.fromProvider, r.target, if seen.Seen? then seen.usage.users else map[], r.divergence)
  }

  /** The provider's numbers are forced where out of tolerance; the ledger's are written outright. */
  function Apply(v: OrgView, m: Levels, rk: Resource, plan: Plan): Levels
  {
    if !plan.Set? then m
    else if plan.fromProvider then Forced(m, v.org, rk, plan.total, plan.users)
    else Converged(m, v.opens, v.org, rk)
  }

  ghost predicate Counted(v: OrgView, m: Levels, rk: Resource, plan: Plan)
    requires plan.Set?
  {
    plan.fromProvider ==> NeedsForce(m, v.org, rk, plan.total, plan.users)
  }

  datatype Outcome = Outcome(levels: Levels, budget: Option<int>, exhausted: bool, forceSets: nat,
                             divergences: seq<Resource>)

  /** `reconcile_org` over the gauge keys, in order, until the budget refuses one. */
  ghost function OrgPass(cfg: Config, v: OrgView, m: Levels, budget: Option<int>, keys: seq<Resource>): Outcome
    requires !v.truth.Unreachable?
    decreases |keys|
  {
    if keys == [] then Outcome(m, budget, false, 0, [])
    else
      var plan := PlanGauge(cfg, v, m, keys[0]);
      if !plan.Set? || v.recent then OrgPass(cfg, v, m, budget, keys[1..])
      else if budget.Some? && budget.value <= 0 then Outcome(m, budget, true, 0, [])
      else
        var rest := OrgPass(cfg, v, Apply(v, m, keys[0], plan), LessOne(budget), keys[1..]);
        rest.(forceSets := rest.forceSets + if Counted(v, m, keys[0], plan) then 1 else 0,
              divergences := (if plan.divergence then [keys[0]] else []) + rest.divergences)
  }

  function LessOne(budget: Option<int>): Option<int>
  {
    if budget.Some? then Some(budget.value - 1) else None
  }

  /** The whole call, with its early exits. */
  ghost function ReconciledOrg(cfg: Config, v: OrgView, m: Levels, budget: Option<int>, keys: seq<Resource>): Outcome
  {
    if !cfg.enabled || v.truth.Unreachable? then Outcome(m, budget, false, 0, [])
    else OrgPass(cfg, v, m, budget, keys)
  }

  predicate DistinctKeys(keys: seq<Resource>) { forall i, j | 0 <= i < j < |keys| :: keys[i] != keys[j] }

  // ---- Frames: a gauge's step touches that gauge only -------------------------------------------

  lemma ApplyElsewhere(v: OrgView, m: Levels, rk: Resource, plan: Plan, s: Slot)
    requires !OfGauge(s, v.org, rk)
    ensures Level(Apply(v, m, rk, plan), s) == Level(m, s)
  {
    hide Forced, Converged;
    if plan.Set? {
      if plan.fromProvider {
        ForcedReaches(m, v.org, rk, plan.total, plan.users, s);
      } else {
        ConvergedReaches(m, v.opens, v.org, rk, s);
      }
    }
  }

  lemma {:induction false} OrgPassElsewhere(cfg: Config, v: OrgView, m: Levels, budget: Option<int>,
                                            keys: seq<Resource>, s: Slot)
    requires !v.truth.Unreachable?
    requires s.org != v.org || s.rk !in keys
    ensures Level(OrgPass(cfg, v, m, budget, keys).levels, s) == Level(m, s)
    decreases |keys|
  {
    hide PlanGauge, Apply, Counted;
    if keys != [] {
      var plan := PlanGauge(cfg, v, m, keys[0]);
      OrgPassElsewhere(cfg, v, m, budget, keys[1..], s);
      OrgPassElsewhere(cfg, v, Apply(v, m, keys[0], plan), LessOne(budget), keys[1..], s);
      ApplyElsewhere(v, m, keys[0], plan, s);
    }
  }

  lemma PlanElsewhere(cfg: Config, v: OrgView, m: Levels, m': Levels, rk: Resource)
    requires !v.truth.Unreachable? && Level(m, OrgSlot(v.org, rk)) == Level(m', OrgSlot(v.org, rk))
    ensures PlanGauge(cfg, v, m, rk) == PlanGauge(cfg, v, m', rk)
  {
  }

  // ---- The law of one org -------------------------------------------------------------------------

  /** Where a slot of one gauge must be after an unbudgeted call outside the activity guard. */
  ghost predicate GaugeLaw(cfg: Config, v: OrgView, m: Levels, m': Levels, rk: Resource)
    requires !v.truth.Unreachable?
  {
    var plan := PlanGauge(cfg, v, m, rk);
    forall s | OfGauge(s, v.org, rk) ::
      if !plan.Set? then Level(m', s) == Level(m, s)
      else if plan.fromProvider then
        && Near(Level(m', s), Target(s, plan.total, plan.users))
        && (Stale(s, v.org, rk, plan.users) ==> Level(m', s) == 0.0)
      else Level(m', s) == ListedSum(v.opens, s)
  }

  lemma ApplyLaw(cfg: Config, v: OrgView, m: Levels, rk: Resource)
    requires !v.truth.Unreachable?
    ensures GaugeLaw(cfg, v, m, Apply(v, m, rk, PlanGauge(cfg, v, m, rk)), rk)
  {
    hide Forced, Converged, PlanGauge;
    var plan := PlanGauge(cfg, v, m, rk);
    forall s | OfGauge(s, v.org, rk)
      ensures plan.Set? && plan.fromProvider ==>
                && Near(Level(Forced(m, v.org, rk, plan.total, plan.users), s), Target(s, plan.total, plan.users))
                && (Stale(s, v.org, rk, plan.users) ==> Level(Forced(m, v.org, rk, plan.total, plan.users), s) == 0.0)
      ensures plan.Set? && !plan.fromProvider ==> Level(Converged(m, v.opens, v.org, rk), s) == ListedSum(v.opens, s)
    {
      if plan.Set? && plan.fromProvider {
        ForcedReaches(m, v.org, rk, plan.total, plan.users, s);
      } else if plan.Set? {
        ConvergedReaches(m, v.opens, v.org, rk, s);
      }
    }
  }

  lemma {:induction false} OrgPassLaw(cfg: Config, v: OrgView, m: Levels, keys: seq<Resource>, i: nat)
    requires !v.truth.Unreachable? && !v.recent && DistinctKeys(keys) && i < |keys|
    ensures GaugeLaw(cfg, v, m, OrgPass(cfg, v, m, None, keys).levels, keys[i])
    decreases |keys|
  {
    hide GaugeLaw, Counted;
    var plan := PlanGauge(cfg, v, m, keys[0]);
    var m1 := Apply(v, m, keys[0], plan);
    assert m1 == m || plan.Set?;
    hide Apply;
    assert OrgPass(cfg, v, m, None, keys).levels == OrgPass(cfg, v, m1, None, keys[1..]).levels;
    hide OrgPass, PlanGauge;
    if i == 0 {
      ApplyLaw(cfg, v, m, keys[0]);
      var end := OrgPass(cfg, v, m1, None, keys[1..]).levels;
      assert keys[0] !in keys[1..];
      forall s | OfGauge(s, v.org, keys[0]) ensures Level(end, s) == Level(m1, s) {
        OrgPassElsewhere(cfg, v, m1, None, keys[1..], s);
      }
      GaugeLawFrame(cfg, v, m, m, m1, end, keys[0]);
    } else {
      OrgPassLaw(cfg, v, m1, keys[1..], i - 1);
      var end := OrgPass(cfg, v, m1, None, keys[1..]).levels;
      assert keys[0] != keys[i];
      forall s | OfGauge(s, v.org, keys[i]) ensures Level(m1, s) == Level(m, s) {
        ApplyElsewhere(v, m, keys[0], plan, s);
      }
      GaugeLawFrame(cfg, v, m1, m, end, end, keys[i]);
    }
  }

  lemma GaugeLawFrame(cfg: Config, v: OrgView, a: Levels, a': Levels, b: Levels, b': Levels, rk: Resource)
    requires !v.truth.Unreachable? && GaugeLaw(cfg, v, a, b, rk)
    requires forall s | OfGauge(s, v.org, rk) :: Level(a, s) == Level(a', s) && Level(b, s) == Level(b', s)
    ensures GaugeLaw(cfg, v, a', b', rk)
  {
    assert OfGauge(OrgSlot(v.org, rk), v.org, rk);
    PlanElsewhere(cfg, v, a, a', rk);
  }

  /**
   One law for every state. Nothing moves when the provider is unreachable or the org was just
   active; a gauge the provider does not report keeps all its slots; every other gauge ends within
   tolerance of the provider's level where the provider is asked and disagrees, else of Σ OPEN.
   */
  lemma ReconcileOrgLaw(cfg: Config, v: OrgView, m: Levels, keys: seq<Resource>, rk: Resource)
    requires cfg.enabled && DistinctKeys(keys) && rk in keys
    requires cfg.providerMode ==> !v.truth.NoSource?
    ensures var m' := ReconciledOrg(cfg, v, m, None, keys).levels;
            if v.truth.Unreachable? || v.recent then m' == m
            else
              var seen := Sight(cfg, v.truth, rk);
              var ledger := ListedSum(v.opens, OrgSlot(v.org, rk));
              if seen.Missing? then forall s | OfGauge(s, v.org, rk) :: Level(m', s) == Level(m, s)
              else if seen.Seen? && (cfg.providerMode || !Near(seen.usage.total, ledger)) then
                Near(Level(m', OrgSlot(v.org, rk)), seen.usage.total)
              else Near(Level(m', OrgSlot(v.org, rk)), ledger)
  {
    hide Apply, GaugeLaw, Counted;
    if !v.truth.Unreachable? {
      if v.recent {
        RecentIsIdle(cfg, v, m, None, keys);
      } else {
        var i :| 0 <= i < |keys| && keys[i] == rk;
        OrgPassLaw(cfg, v, m, keys, i);
        hide OrgPass;
        GaugeLawOrg(cfg, v, m, OrgPass(cfg, v, m, None, keys).levels, rk);
      }
    }
  }

  /** Without a provider, and with no more than a listing's worth of OPEN rows, that is Σ OPEN itself. */
  lemma ReconciledToLedger(cfg: Config, rows: Rows, v: OrgView, m: Levels, keys: seq<Resource>, rk: Resource)
    requires cfg.enabled && !cfg.providerMode && DistinctKeys(keys) && rk in keys
    requires v.truth.NoSource? && !v.recent
    requires Faithful(rows) && ListsOpen(rows, v.org, LIST_LIMIT, v.opens) && |OpenIds(rows, v.org)| <= LIST_LIMIT
    ensures Near(Level(ReconciledOrg(cfg, v, m, None, keys).levels, OrgSlot(v.org, rk)), OpenSum(rows, OrgSlot(v.org, rk)))
  {
    hide ReconciledOrg, ListsOpen;
    ReconcileOrgLaw(cfg, v, m, keys, rk);
    ListingIsComplete(rows, v.org, LIST_LIMIT, v.opens, OrgSlot(v.org, rk));
  }

  /** What the winning source says of a slot, whatever the counters are; None if it says nothing. */
  function Due(cfg: Config, v: OrgView, s: Slot): Option<real>
    requires !v.truth.Unreachable?
  {
    var seen := Sight(cfg, v.truth, s.rk);
    if seen.Missing? then None
    else
      var r := Resolve(cfg, ListedSum(v.opens, OrgSlot(v.org, s.rk)), if seen.Seen? then Some(seen.usage.total) else None);
      Some(if r.fromProvider then Target(s, r.target, if seen.Seen? then seen.usage.users else map[])
           else ListedSum(v.opens, s))
  }

  /**
   Only the org total is looked at. A slot that is not where it is due is set right if and only if the
   gauge is reported and its total is not where that is due, or the two sources disagree on it; so a user
   partition that is off under a total in tolerance is never healed, and nothing of its gauge is moved.
   */
  lemma HealedIff(cfg: Config, v: OrgView, m: Levels, keys: seq<Resource>, i: nat, s: Slot)
    requires Ready(v) && DistinctKeys(keys) && i < |keys| && OfGauge(s, v.org, keys[i])
    requires Due(cfg, v, s).Some? ==> !Near(Level(m, s), Due(cfg, v, s).value)
    ensures var m', total := OrgPass(cfg, v, m, None, keys).levels, OrgSlot(v.org, keys[i]);
            var healed := Due(cfg, v, s).Some? && Near(Level(m', s), Due(cfg, v, s).value);
            && (healed <==> Due(cfg, v, s).Some?
                            && (!Near(Level(m, total), Due(cfg, v, total).value) || Diverges(cfg, v, keys[i])))
            && (!healed ==> forall t | OfGauge(t, v.org, keys[i]) :: Level(m', t) == Level(m, t))
  {
    hide OrgPass, ListedSum;
    OrgPassLaw(cfg, v, m, keys, i);
  }

  lemma GaugeLawOrg(cfg: Config, v: OrgView, m: Levels, m': Levels, rk: Resource)
    requires !v.truth.Unreachable? && GaugeLaw(cfg, v, m, m', rk)
    ensures var plan := PlanGauge(cfg, v, m, rk);
            var s := OrgSlot(v.org, rk);
            && (!plan.Set? ==> forall t | OfGauge(t, v.org, rk) :: Level(m', t) == Level(m, t))
            && (plan.Set? && plan.fromProvider ==> Near(Level(m', s), plan.total))
            && (plan.Set? && !plan.fromProvider ==> Level(m', s) == ListedSum(v.opens, s))
  {
    assert OfGauge(OrgSlot(v.org, rk), v.org, rk);
  }

  lemma {:induction false} RecentIsIdle(cfg: Config, v: OrgView, m: Levels, budget: Option<int>, keys: seq<Resource>)
    requires !v.truth.Unreachable? && v.recent
    ensures OrgPass(cfg, v, m, budget, keys) == Outcome(m, budget, false, 0, [])
    decreases |keys|
  {
    hide PlanGauge;
    if keys != [] {
      RecentIsIdle(cfg, v, m, budget, keys[1..]);
    }
  }

  // ---- The second run is idle -----------------------------------------------------------------------

  /** Reconciling the gauge again would mutate nothing, although it may still report a divergence. */
  ghost predicate AtRest(cfg: Config, v: OrgView, m: Levels, rk: Resource)
    requires !v.truth.Unreachable?
  {
    var plan := PlanGauge(cfg, v, m, rk);
    plan.Set? ==> plan.fromProvider && !NeedsForce(m, v.org, rk, plan.total, plan.users)
  }

  lemma LawGivesRest(cfg: Config, v: OrgView, m: Levels, m': Levels, rk: Resource)
    requires !v.truth.Unreachable? && GaugeLaw(cfg, v, m, m', rk)
    ensures AtRest(cfg, v, m', rk)
  {
    var plan := PlanGauge(cfg, v, m, rk);
    assert OfGauge(OrgSlot(v.org, rk), v.org, rk);
    if plan.Set? && plan.fromProvider {
      forall u <- plan.users ensures Near(Level(m', UserSlot(v.org, rk, u)), plan.users[u]) {
        assert OfGauge(UserSlot(v.org, rk, u), v.org, rk);
      }
    }
  }

  lemma {:induction false} RestIsIdle(cfg: Config, v: OrgView, m: Levels, keys: seq<Resource>)
    requires !v.truth.Unreachable?
    requires forall i | 0 <= i < |keys| :: AtRest(cfg, v, m, keys[i])
    ensures OrgPass(cfg, v, m, None, keys).levels == m && OrgPass(cfg, v, m, None, keys).forceSets == 0
    decreases |keys|
  {
    hide PlanGauge, NeedsForce, Forced, Converged;
    if keys != [] {
      var plan := PlanGauge(cfg, v, m, keys[0]);
      assert AtRest(cfg, v, m, keys[0]);
      if plan.Set? {
        ForcedIsStable(m, v.org, keys[0], plan.total, plan.users);
      }
      assert forall i | 0 <= i < |keys[1..]| :: keys[1..][i] == keys[i + 1];
      RestIsIdle(cfg, v, m, keys[1..]);
    }
  }

  /** Reconciling the result again, with the same records, performs no force-set and changes nothing. */
  lemma SecondRunIdle(cfg: Config, v: OrgView, m: Levels, keys: seq<Resource>)
    requires DistinctKeys(keys) && !v.recent
    ensures var m' := ReconciledOrg(cfg, v, m, None, keys).levels;
            ReconciledOrg(cfg, v, m', None, keys).levels == m' && ReconciledOrg(cfg, v, m', None, keys).forceSets == 0
  {
    hide OrgPass, GaugeLaw, AtRest, PlanGauge;
    if cfg.enabled && !v.truth.Unreachable? {
      var m' := OrgPass(cfg, v, m, None, keys).levels;
      forall i | 0 <= i < |keys| ensures AtRest(cfg, v, m', keys[i]) {
        OrgPassLaw(cfg, v, m, keys, i);
        LawGivesRest(cfg, v, m, m', keys[i]);
      }
      RestIsIdle(cfg, v, m', keys);
    }
  }

  // ---- The budget, within one org ----------------------------------------------------------------------

  /** Gauges of the org that a pass would act on. */
  function Pending(cfg: Config, v: OrgView, m: Levels, keys: seq<Resource>): nat
    requires !v.truth.Unreachable?
  {
    if keys == [] then 0
    else (if PlanGauge(cfg, v, m, keys[0]).Set? then 1 else 0) + Pending(cfg, v, m, keys[1..])
  }

  /** Gauges on which the provider and the ledger disagree: these stay pending whatever is written. */
  function Diverging(cfg: Config, v: OrgView, keys: seq<Resource>): nat
    requires !v.truth.Unreachable?
  {
    if keys == [] then 0 else (if Diverges(cfg, v, keys[0]) then 1 else 0) + Diverging(cfg, v, keys[1..])
  }

  predicate Diverges(cfg: Config, v: OrgView, rk: Resource)
    requires !v.truth.Unreachable?
  {
    var seen := Sight(cfg, v.truth, rk);
    seen.Seen? && Resolve(cfg, ListedSum(v.opens, OrgSlot(v.org, rk)), Some(seen.usage.total)).divergence
  }

  function Available(budget: int): nat { if budget < 0 then 0 else budget }

  lemma {:induction false} PendingFrame(cfg: Config, v: OrgView, m: Levels, m': Levels, keys: seq<Resource>)
    requires !v.truth.Unreachable?
    requires forall rk <- keys :: Level(m, OrgSlot(v.org, rk)) == Level(m', OrgSlot(v.org, rk))
    ensures Pending(cfg, v, m, keys) == Pending(cfg, v, m', keys)
  {
    hide PlanGauge;
    if keys != [] {
      PlanElsewhere(cfg, v, m, m', keys[0]);
      PendingFrame(cfg, v, m, m', keys[1..]);
    }
  }

  lemma {:induction false} DivergingIsPending(cfg: Config, v: OrgView, m: Levels, keys: seq<Resource>)
    requires !v.truth.Unreachable?
    ensures Diverging(cfg, v, keys) <= Pending(cfg, v, m, keys)
  {
    if keys != [] {
      DivergingIsPending(cfg, v, m, keys[1..]);
    }
  }

  /** After its step a gauge is pending only if it diverges; an undiverged step is always counted. */
  lemma StepEffect(cfg: Config, v: OrgView, m: Levels, rk: Resource)
    requires !v.truth.Unreachable? && PlanGauge(cfg, v, m, rk).Set?
    ensures var plan := PlanGauge(cfg, v, m, rk);
            && (plan.divergence <==> Diverges(cfg, v, rk))
            && (PlanGauge(cfg, v, Apply(v, m, rk, plan), rk).Set? <==> plan.divergence)
            && (!plan.divergence ==> Counted(v, m, rk, plan))
  {
    hide Forced, Converged;
    var plan := PlanGauge(cfg, v, m, rk);
    var s := OrgSlot(v.org, rk);
    if plan.fromProvider {
      ForcedReaches(m, v.org, rk, plan.total, plan.users, s);
    } else {
      ConvergedReaches(m, v.opens, v.org, rk, s);
    }
  }

  /**
   A call takes one unit for each pending gauge until none is left; it is exhausted exactly when
   more were pending than it had; what it settles is what it acted on and did not diverge.
   */
  lemma {:induction false} OrgBudget(cfg: Config, v: OrgView, m: Levels, budget: int, keys: seq<Resource>)
    requires !v.truth.Unreachable? && !v.recent && DistinctKeys(keys)
    ensures var o := OrgPass(cfg, v, m, Some(budget), keys);
            var n := Pending(cfg, v, m, keys);
            var taken := Min(n, Available(budget));
            && o.budget == Some(budget - taken)
            && (o.exhausted <==> n > Available(budget))
            && o.forceSets <= taken
            && |o.divergences| <= taken
            && Pending(cfg, v, o.levels, keys) == n - (taken - |o.divergences|)
            && (Diverging(cfg, v, keys) == 0 ==> o.forceSets == taken && o.divergences == [])
    decreases |keys|
  {
    hide PlanGauge, Apply, Counted, Diverges;
    if keys != [] {
      var plan := PlanGauge(cfg, v, m, keys[0]);
      var acts := plan.Set? && budget > 0;
      var m1 := if acts then Apply(v, m, keys[0], plan) else m;
      var b1 := if acts then budget - 1 else budget;
      if plan.Set? {
        StepEffect(cfg, v, m, keys[0]);
      }
      if !plan.Set? || acts {
        OrgBudget(cfg, v, m1, b1, keys[1..]);
        RestPending(cfg, v, m, m1, b1, keys, acts);
      }
    }
  }

  /** The first gauge's step moves nothing of the others, nor they anything of it. */
  lemma RestPending(cfg: Config, v: OrgView, m: Levels, m1: Levels, b1: int, keys: seq<Resource>, acts: bool)
    requires Ready(v) && DistinctKeys(keys) && keys != []
    requires m1 == if acts then Apply(v, m, keys[0], PlanGauge(cfg, v, m, keys[0])) else m
    ensures Pending(cfg, v, m, keys[1..]) == Pending(cfg, v, m1, keys[1..])
    ensures PlanGauge(cfg, v, OrgPass(cfg, v, m1, Some(b1), keys[1..]).levels, keys[0]) == PlanGauge(cfg, v, m1, keys[0])
  {
    hide PlanGauge, Apply, OrgPass, Pending;
    assert keys[0] !in keys[1..];
    OrgPassElsewhere(cfg, v, m1, Some(b1), keys[1..], OrgSlot(v.org, keys[0]));
    PlanElsewhere(cfg, v, m1, OrgPass(cfg, v, m1, Some(b1), keys[1..]).levels, keys[0]);
    forall rk <- keys[1..] ensures Level(m1, OrgSlot(v.org, rk)) == Level(m, OrgSlot(v.org, rk)) {
      if acts {
        ApplyElsewhere(v, m, keys[0], PlanGauge(cfg, v, m, keys[0]), OrgSlot(v.org, rk));
      }
    }
    PendingFrame(cfg, v, m, m1, keys[1..]);
  }

  // ---- One pass over the orgs ---------------------------------------------------------------------------

  datatype PassOutcome = PassOutcome(levels: Levels, orgs: nat, forceSets: nat, backpressure: bool)

  /** `run_once`: org after org on one budget, until it is exhausted or the org cap is reached. */
  ghost function Pass(cfg: Config, views: seq<OrgView>, m: Levels, budget: int, done: nat,
                      keys: seq<Resource>): PassOutcome
    decreases |views|
  {
    if views == [] then PassOutcome(m, 0, 0, false)
    else if done >= cfg.maxOrgs then PassOutcome(m, 0, 0, true)
    else
      var o := ReconciledOrg(cfg, views[0], m, Some(budget), keys);
      if o.exhausted then PassOutcome(o.levels, 1, o.forceSets, true)
      else
        var left := if o.budget.Some? then o.budget.value else budget;
        var rest := Pass(cfg, views[1..], o.levels, left, done + 1, keys);
        rest.(orgs := rest.orgs + 1, forceSets := rest.forceSets + o.forceSets)
  }

  predicate DistinctOrgs(views: seq<OrgView>) { forall i, j | 0 <= i < j < |views| :: views[i].org != views[j].org }

  /** Reachable provider, no recent activity. */
  predicate Ready(v: OrgView) { !v.truth.Unreachable? && !v.recent }

  /** Ready, and no gauge on which provider and ledger disagree. */
  predicate Aligned(cfg: Config, v: OrgView, keys: seq<Resource>) { Ready(v) && Diverging(cfg, v, keys) == 0 }

  predicate AllReady(views: seq<OrgView>) { forall i | 0 <= i < |views| :: Ready(views[i]) }

  predicate AllAligned(cfg: Config, views: seq<OrgView>, keys: seq<Resource>): (r: bool)
    ensures r ==> AllReady(views)
  {
    forall i | 0 <= i < |views| :: Aligned(cfg, views[i], keys)
  }

  function PendingIn(cfg: Config, views: seq<OrgView>, m: Levels, keys: seq<Resource>): nat
    requires AllReady(views)
  {
    if views == [] then 0 else Pending(cfg, views[0], m, keys) + PendingIn(cfg, views[1..], m, keys)
  }

  lemma ReconciledOrgElsewhere(cfg: Config, v: OrgView, m: Levels, budget: Option<int>, keys: seq<Resource>, s: Slot)
    requires s.org != v.org
    ensures Level(ReconciledOrg(cfg, v, m, budget, keys).levels, s) == Level(m, s)
  {
    hide OrgPass;
    if !v.truth.Unreachable? {
      OrgPassElsewhere(cfg, v, m, budget, keys, s);
    }
  }

  lemma {:induction false} PassElsewhere(cfg: Config, views: seq<OrgView>, m: Levels, budget: int, done: nat,
                                         keys: seq<Resource>, s: Slot)
    requires forall v <- views :: v.org != s.org
    ensures Level(Pass(cfg, views, m, budget, done, keys).levels, s) == Level(m, s)
    decreases |views|
  {
    hide ReconciledOrg;
    if views != [] && done < cfg.maxOrgs {
      var o := ReconciledOrg(cfg, views[0], m, Some(budget), keys);
      assert views[0] in views;
      ReconciledOrgElsewhere(cfg, views[0], m, Some(budget), keys, s);
      if !o.exhausted {
        PassElsewhere(cfg, views[1..], o.levels, if o.budget.Some? then o.budget.value else budget, done + 1, keys, s);
      }
    }
  }

  lemma {:induction false} PendingInFrame(cfg: Config, views: seq<OrgView>, m: Levels, m': Levels, keys: seq<Resource>)
    requires AllReady(views)
    requires forall v <- views, rk <- keys :: Level(m, OrgSlot(v.org, rk)) == Level(m', OrgSlot(v.org, rk))
    ensures PendingIn(cfg, views, m, keys) == PendingIn(cfg, views, m', keys)
  {
    hide Pending;
    if views != [] {
      assert views[0] in views;
      PendingFrame(cfg, views[0], m, m', keys);
      PendingInFrame(cfg, views[1..], m, m', keys);
    }
  }

  /** Whatever the records say, a pass never mutates more counters than its budget. */
  lemma {:induction false} PassWithinBudget(cfg: Config, views: seq<OrgView>, m: Levels, budget: int, done: nat,
                                            keys: seq<Resource>)
    requires DistinctKeys(keys)
    ensures Pass(cfg, views, m, budget, done, keys).forceSets <= Available(budget)
    decreases |views|
  {
    hide OrgPass;
    if views != [] && done < cfg.maxOrgs {
      var v := views[0];
      var o := ReconciledOrg(cfg, v, m, Some(budget), keys);
      if cfg.enabled && !v.truth.Unreachable? {
        if v.recent {
          RecentIsIdle(cfg, v, m, Some(budget), keys);
        } else {
          OrgBudget(cfg, v, m, budget, keys);
        }
      }
      assert o.budget.Some?;
      PassWithinBudget(cfg, views[1..], o.levels, o.budget.value, done + 1, keys);
    }
  }

  /**
   With no disagreement, no recent activity and all orgs under the cap: one pass takes the number of
   gauges out of sync from n to max(0, n - budget), with that many force-sets, and reports
   backpressure exactly when some remain.
   */
  lemma {:induction false} PassBudget(cfg: Config, views: seq<OrgView>, m: Levels, budget: int, done: nat,
                                      keys: seq<Resource>)
    requires cfg.enabled && DistinctKeys(keys) && DistinctOrgs(views) && done + |views| <= cfg.maxOrgs
    requires AllAligned(cfg, views, keys)
    ensures var r := Pass(cfg, views, m, budget, done, keys);
            var n := PendingIn(cfg, views, m, keys);
            && PendingIn(cfg, views, r.levels, keys) == Minus(n, Available(budget))
            && r.forceSets == Min(n, Available(budget))
            && (r.backpressure <==> n > Available(budget))
    decreases |views|
  {
    hide OrgPass, Pending, Diverging, DistinctKeys;
    if views != [] {
      var v, rest := views[0], views[1..];
      assert v in views && Aligned(cfg, v, keys);
      assert forall w <- rest :: w in views;
      OrgBudget(cfg, v, m, budget, keys);
      var o := OrgPass(cfg, v, m, Some(budget), keys);
      OthersPending(cfg, views, m, o.levels, keys, Some(budget));
      if !o.exhausted {
        PassBudget(cfg, rest, o.levels, o.budget.value, done + 1, keys);
        var end := Pass(cfg, rest, o.levels, o.budget.value, done + 1, keys).levels;
        forall rk <- keys ensures Level(end, OrgSlot(v.org, rk)) == Level(o.levels, OrgSlot(v.org, rk)) {
          assert forall w <- rest :: w.org != v.org;
          PassElsewhere(cfg, rest, o.levels, o.budget.value, done + 1, keys, OrgSlot(v.org, rk));
        }
        PendingFrame(cfg, v, o.levels, end, keys);
      }
    }
  }

  /** Reconciling the first org leaves what is pending in the others as it was. */
  lemma OthersPending(cfg: Config, views: seq<OrgView>, m: Levels, m': Levels, keys: seq<Resource>, budget: Option<int>)
    requires views != [] && DistinctOrgs(views) && AllReady(views)
    requires m' == OrgPass(cfg, views[0], m, budget, keys).levels
    ensures AllReady(views[1..])
    ensures PendingIn(cfg, views[1..], m, keys) == PendingIn(cfg, views[1..], m', keys)
  {
    hide OrgPass;
    forall w, rk | w in views[1..] && rk in keys ensures Level(m, OrgSlot(w.org, rk)) == Level(m', OrgSlot(w.org, rk)) {
      OrgPassElsewhere(cfg, views[0], m, budget, keys, OrgSlot(w.org, rk));
    }
    PendingInFrame(cfg, views[1..], m, m', keys);
  }

  // ---- Which orgs a pass sees ------------------------------------------------------------------------------

  /** So an over-count in an org whose last activation is closed is never healed by these passes. */
  lemma ClosedOrgNeverHealed(cfg: Config, rows: Rows, views: seq<OrgView>, m: Levels, keys: seq<Resource>, s: Slot)
    requires forall v <- views :: v.org in OpenOrgs(rows)
    requires forall id <- rows :: rows[id].charge.org == s.org ==> rows[id].state != Open
    ensures Level(Pass(cfg, views, m, cfg.maxForceSets, 0, keys).levels, s) == Level(m, s)
  {
    forall v <- views ensures v.org != s.org {
      var id :| id in rows && rows[id].state == Open && rows[id].charge.org == v.org;
    }
    PassElsewhere(cfg, views, m, cfg.maxForceSets, 0, keys, s);
  }

  // ---- The loops --------------------------------------------------------------------------------------------

  /** Why a pass was not made. */
  datatype Skipped = NotSkipped | Disabled | NotDurable

  /** The force-set budget one pass shares over its orgs. */
  class Budget {
    var remaining: int
    var exhausted: bool

    constructor (limit: int)
      ensures remaining == limit && !exhausted
    {
      remaining, exhausted := limit, false;
    }

    method Take() returns (ok: bool)
      modifies this
      ensures ok == (old(remaining) > 0)
      ensures remaining == old(remaining) - (if ok then 1 else 0)
      ensures exhausted == (old(exhausted) || !ok)
    {
      if remaining <= 0 {
        exhausted := true;
        return false;
      }
      remaining := remaining - 1;
      ok := true;
    }
  }

  class LibraryReconciler {
    const cfg: Config
    const keys: seq<Resource>
    const cache: GaugeCache
    const store: InMemoryActivationStore

    constructor (cfg: Config, keys: seq<Resource>, cache: GaugeCache, store: InMemoryActivationStore)
      ensures this.cfg == cfg && this.keys == keys && this.cache == cache && this.store == store
    {
      this.cfg, this.keys, this.cache, this.store := cfg, keys, cache, store;
    }

    /** Loops over the list, passing by activations that do not spend the resource. */
    method LedgerTotals(opens: seq<Activation>, org: Org, rk: Resource) returns (total: real, users: map<User, real>)
      ensures total == ListedSum(opens, OrgSlot(org, rk))
      ensures forall u :: (if u in users then users[u] else 0.0) == ListedSum(opens, UserSlot(org, rk, u))
      ensures users.Keys <= ListedUsers(opens, org, rk).Keys
    {
      total, users := 0.0, map[];
      for i := 0 to |opens|
        invariant total == ListedSum(opens[..i], OrgSlot(org, rk))
        invariant forall u :: (if u in users then users[u] else 0.0) == ListedSum(opens[..i], UserSlot(org, rk, u))
        invariant forall u <- users :: exists j | 0 <= j < i :: opens[j].charge.user == Some(u)
      {
        var c := opens[i].charge;
        forall s ensures ListedSum(opens[..i + 1], s) == ListedSum(opens[..i], s) + Weight(c, s) {
          ListedNext(opens, i, s);
        }
        var delta := Weight(c, OrgSlot(org, rk));
        if delta != 0.0 {
          total := total + delta;
          if c.user.Some? {
            var u := c.user.value;
            users := users[u := (if u in users then users[u] else 0.0) + delta];
          }
        }
      }
      assert opens[..|opens|] == opens;
    }

    /**
     One org: list its OPEN rows, consult the provider, then walk the gauges. `truth` is the
     provider's answer and `recent` the activity guard's. `view` records what the call saw.
     */
    method ReconcileOrg(org: Org, truth: Truth, recent: bool, budget: Budget?)
      returns (forceSets: nat, divergences: seq<Resource>, ghost view: OrgView)
      requires store.Valid()
      modifies cache, budget
      ensures Sees(view, org, truth, recent)
      ensures var spec := ReconciledOrg(cfg, view, old(cache.levels), old(Left(budget)), keys);
              && spec == Outcome(cache.levels, Left(budget), spec.exhausted, forceSets, divergences)
              && (budget != null ==> budget.exhausted == (old(budget.exhausted) || spec.exhausted))
    {
      forceSets, divergences := 0, [];
      var opens: seq<Activation> := [];
      if cfg.enabled && !cfg.providerMode {
        opens := store.ListOpen(org, LIST_LIMIT);
      }
      view := OrgView(org, truth, opens, recent);
      if !cfg.enabled || truth.Unreachable? {
        return;
      }
      ghost var stop;
      forceSets, divergences, stop := ReconcileGauges(view, org, truth, recent, opens, budget);
    }

    /** The loop over the gauges, until the budget refuses one. */
    method ReconcileGauges(ghost v: OrgView, org: Org, truth: Truth, recent: bool, opens: seq<Activation>,
                           budget: Budget?)
      returns (forceSets: nat, divergences: seq<Resource>, ghost stopped: bool)
      requires v == OrgView(org, truth, opens, recent) && !truth.Unreachable?
      modifies cache, budget
      ensures OrgPass(cfg, v, old(cache.levels), old(Left(budget)), keys)
           == Outcome(cache.levels, Left(budget), stopped, forceSets, divergences)
      ensures budget != null ==> budget.exhausted == (old(budget.exhausted) || stopped)
    {
      hide GaugeStep, ListsOpen, OrgPass, Continues, Rest, PlanGauge, Apply, Counted;
      forceSets, divergences := 0, [];
      ghost var full := OrgPass(cfg, v, cache.levels, Left(budget), keys);
      ghost var was := budget != null && budget.exhausted;
      var i, stop := 0, false;
      PassBegins(cfg, v, cache.levels, Left(budget), keys);
      while i < |keys| && !stop
        invariant i <= |keys| && (budget != null ==> budget.exhausted == (was || stop))
        invariant Continues(full, Rest(cfg, v, cache.levels, Left(budget), keys[i..], stop), forceSets, divergences)
      {
        ghost var m, b := cache.levels, Left(budget);
        var counted, diverges;
        stop, counted, diverges := ReconcileGauge(v, keys[i], org, truth, recent, opens, budget);
        StepContinues(cfg, v, full, m, b, keys, i, forceSets, divergences, cache.levels, Left(budget), stop, counted, diverges);
        forceSets := forceSets + if counted then 1 else 0;
        divergences := divergences + if diverges then [keys[i]] else [];
        i := i + 1;
      }
      stopped := stop;
      PassEnds(cfg, v, full, cache.levels, Left(budget), keys, i, stop, forceSets, divergences);
    }

    /** What is left of a budget, if the call has one. */
    ghost function Left(budget: Budget?): Option<int>
      reads budget
    {
      if budget == null then None else Some(budget.remaining)
    }

    /** One turn of the loop over the gauges: `stop` is the break on an empty budget. */
    method ReconcileGauge(ghost v: OrgView, rk: Resource, org: Org, truth: Truth, recent: bool,
                          opens: seq<Activation>, budget: Budget?)
      returns (stop: bool, counted: bool, diverges: bool)
      requires v == OrgView(org, truth, opens, recent) && !truth.Unreachable?
      modifies cache, budget
      ensures GaugeStep(cfg, v, old(cache.levels), old(Left(budget)), rk, cache.levels, Left(budget), stop, counted, diverges)
      ensures budget != null ==> budget.exhausted == (old(budget.exhausted) || stop)
    {
      hide Forced, Converged, NeedsForce;
      var ledger, _ := LedgerTotals(opens, org, rk);
      var seen := Sight(cfg, truth, rk);
      if seen.Missing? {
        return false, false, false;
      }
      var r := Resolve(cfg, ledger, if seen.Seen? then Some(seen.usage.total) else None);
      if (!r.divergence && Near(Level(cache.levels, OrgSlot(org, rk)), r.target)) || recent {
        return false, false, false;
      }
      if budget != null {
        var ok := budget.Take();
        if !ok {
          return true, false, false;
        }
      }
      counted := true;
      if r.fromProvider {
        counted := cache.AuditedForceSet(org, rk, r.target, if seen.Seen? then seen.usage.users else map[]);
      } else {
        var _ := cache.ConvergeGauge(opens, org, rk);
      }
      return false, counted, r.divergence;
    }

    /** What a call may have seen: the ledger's list, cut at its default limit, or nothing of it. */
    ghost predicate Sees(view: OrgView, org: Org, truth: Truth, recent: bool)
      reads store
    {
      && view.org == org && view.truth == truth && view.recent == recent
      && (if cfg.enabled && !cfg.providerMode then ListsOpen(store.rows, org, LIST_LIMIT, view.opens) else view.opens == [])
    }

    /**
     The loop of `run_once`, each org with the provider's answer and the guard's when its turn comes.
     `views` is what the pass saw of the orgs it reached; it stops early only under backpressure.
     */
    method RunOver(orgs: seq<Org>, truths: nat -> Truth, recents: nat -> bool)
      returns (result: PassOutcome, ghost views: seq<OrgView>)
      requires store.Valid() && cfg.enabled
      modifies cache
      ensures Reached(views, orgs, truths, recents)
      ensures var p := Pass(cfg, views, old(cache.levels), cfg.maxForceSets, 0, keys);
              && result == p.(backpressure := result.backpressure)
              && (result.backpressure <==> p.backpressure || |views| < |orgs|)
              && (!p.backpressure ==> |views| == Min(|orgs|, cfg.maxOrgs))
      ensures cache.levels == result.levels
    {
      result, views := PassOutcome(cache.levels, 0, 0, false), [];
      hide ReconciledOrg, Pass, PassLeft, Sees;
      PassStart(cfg, cache.levels, keys);
      ghost var m := cache.levels;
      var budget := new Budget(cfg.maxForceSets);
      var i := 0;
      while i < |orgs| && i < cfg.maxOrgs && !budget.exhausted
        invariant i == |views| <= |orgs| && i <= cfg.maxOrgs && fresh(budget)
        invariant Reached(views, orgs, truths, recents)
        invariant result == Pass(cfg, views, m, cfg.maxForceSets, 0, keys) && result.levels == cache.levels
        invariant result.backpressure == budget.exhausted
        invariant !budget.exhausted ==> budget.remaining == PassLeft(cfg, views, m, cfg.maxForceSets, 0, keys)
      {
        var forceSets, divergences; ghost var view;
        forceSets, divergences, view := ReconcileOrg(orgs[i], truths(i), recents(i), budget);
        PassSnoc(cfg, views, view, m, cfg.maxForceSets, 0, keys);
        views := views + [view];
        result := PassOutcome(cache.levels, result.orgs + 1, result.forceSets + forceSets, budget.exhausted);
        i := i + 1;
      }
      if i < |orgs| {
        result := result.(backpressure := true);
      }
    }

    /** The orgs reached, one view each, in their turn. */
    ghost predicate Reached(views: seq<OrgView>, orgs: seq<Org>, truths: nat -> Truth, recents: nat -> bool)
      reads store
    {
      |views| <= |orgs| && forall i | 0 <= i < |views| :: Sees(views[i], orgs[i], truths(i), recents(i))
    }

    /** `_enumerate_orgs`. */
    method EnumerateOrgs() returns (orgs: seq<Org>)
      ensures Lists(orgs, if cfg.providerMode then CounterOrgs(cache.levels, Gauges()) else OpenOrgs(store.rows))
    {
      orgs := Sorted(if cfg.providerMode then CounterOrgs(cache.levels, Gauges()) else OpenOrgs(store.rows));
    }

    function Gauges(): set<Resource> { set rk <- keys }

    /**
     `run_once`. Disabled, or asked to trust a ledger that may lose rows, it does nothing, unless forced.
     Without orgs handed in it visits those the ledger has open spend of, or those with a counter where
     the provider is the record, in order.
     */
    method RunOnce(orgs: Option<seq<Org>>, truths: nat -> Truth, recents: nat -> bool, durable: bool, force: bool)
      returns (skipped: Skipped, result: PassOutcome, ghost visited: seq<Org>, ghost views: seq<OrgView>)
      requires store.Valid()
      modifies cache
      ensures skipped == (if !cfg.enabled then Disabled
                          else if cfg.requireDurable && !force && !durable then NotDurable else NotSkipped)
      ensures !skipped.NotSkipped? ==> result == PassOutcome(old(cache.levels), 0, 0, false)
      ensures skipped.NotSkipped? ==>
                && (if orgs.Some? then visited == orgs.value
                    else Lists(visited,
                               if cfg.providerMode then CounterOrgs(old(cache.levels), Gauges()) else OpenOrgs(store.rows)))
                && Reached(views, visited, truths, recents)
                && var p := Pass(cfg, views, old(cache.levels), cfg.maxForceSets, 0, keys);
                && result == p.(backpressure := result.backpressure)
                && (result.backpressure <==> p.backpressure || |views| < |visited|)
                && (!p.backpressure ==> |views| == Min(|visited|, cfg.maxOrgs))
      ensures cache.levels == result.levels
    {
      hide Pass, OpenOrgs, CounterOrgs, Lists, Sees;
      result, visited, views := PassOutcome(cache.levels, 0, 0, false), [], [];
      if !cfg.enabled {
        return Disabled, result, visited, views;
      }
      if cfg.requireDurable && !force && !durable {
        return NotDurable, result, visited, views;
      }
      var list;
      if orgs.Some? {
        list := orgs.value;
      } else {
        list := EnumerateOrgs();
      }
      result, views := RunOver(list, truths, recents);
      skipped, visited := NotSkipped, list;
    }
  }

  lemma PassStart(cfg: Config, m: Levels, keys: seq<Resource>)
    ensures Pass(cfg, [], m, cfg.maxForceSets, 0, keys) == PassOutcome(m, 0, 0, false)
    ensures PassLeft(cfg, [], m, cfg.maxForceSets, 0, keys) == cfg.maxForceSets
  {
  }

  /** What a pass leaves of its budget. */
  ghost function PassLeft(cfg: Config, views: seq<OrgView>, m: Levels, budget: int, done: nat, keys: seq<Resource>): int
    decreases |views|
  {
    if views == [] || done >= cfg.maxOrgs then budget
    else
      var o := ReconciledOrg(cfg, views[0], m, Some(budget), keys);
      var left := if o.budget.Some? then o.budget.value else budget;
      if o.exhausted then left else PassLeft(cfg, views[1..], o.levels, left, done + 1, keys)
  }

  /** A pass that was not stopped, and then one more org. */
  lemma {:induction false} PassSnoc(cfg: Config, views: seq<OrgView>, v: OrgView, m: Levels, budget: int, done: nat,
                                    keys: seq<Resource>)
    requires !Pass(cfg, views, m, budget, done, keys).backpressure && done + |views| < cfg.maxOrgs
    ensures var p := Pass(cfg, views, m, budget, done, keys);
            var o := ReconciledOrg(cfg, v, p.levels, Some(PassLeft(cfg, views, m, budget, done, keys)), keys);
            && p.orgs == |views|
            && Pass(cfg, views + [v], m, budget, done, keys)
               == PassOutcome(o.levels, p.orgs + 1, p.forceSets + o.forceSets, o.exhausted)
            && (o.budget.Some? ==> PassLeft(cfg, views + [v], m, budget, done, keys) == o.budget.value)
    decreases |views|
  {
    hide ReconciledOrg;
    if views == [] {
      assert views + [v] == [v] && [v][1..] == [];
    } else {
      assert (views + [v])[0] == views[0] && (views + [v])[1..] == views[1..] + [v];
      var o := ReconciledOrg(cfg, views[0], m, Some(budget), keys);
      PassSnoc(cfg, views[1..], v, o.levels, if o.budget.Some? then o.budget.value else budget, done + 1, keys);
    }
  }

  /** How one gauge moves the levels and the budget. */
  ghost predicate GaugeStep(cfg: Config, v: OrgView, m: Levels, b: Option<int>, rk: Resource,
                            m': Levels, b': Option<int>, stop: bool, counted: bool, diverges: bool)
    requires !v.truth.Unreachable?
  {
    var plan := PlanGauge(cfg, v, m, rk);
    var acts := plan.Set? && !v.recent && !stop;
    && stop == (plan.Set? && !v.recent && b.Some? && b.value <= 0)
    && m' == (if acts then Apply(v, m, rk, plan) else m)
    && b' == (if acts then LessOne(b) else b)
    && counted == (acts && Counted(v, m, rk, plan))
    && diverges == (acts && plan.divergence)
  }

  ghost function Rest(cfg: Config, v: OrgView, m: Levels, b: Option<int>, keys: seq<Resource>, stop: bool): Outcome
    requires !v.truth.Unreachable?
  {
    if stop then Outcome(m, b, true, 0, []) else OrgPass(cfg, v, m, b, keys)
  }

  lemma PassBegins(cfg: Config, v: OrgView, m: Levels, b: Option<int>, keys: seq<Resource>)
    requires !v.truth.Unreachable?
    ensures Continues(OrgPass(cfg, v, m, b, keys), Rest(cfg, v, m, b, keys[0..], false), 0, [])
  {
    hide OrgPass;
    assert keys[0..] == keys;
  }

  lemma PassEnds(cfg: Config, v: OrgView, full: Outcome, m: Levels, b: Option<int>, keys: seq<Resource>, i: nat,
                 stop: bool,
                 forceSets: nat, divergences: seq<Resource>)
    requires !v.truth.Unreachable? && i <= |keys| && (stop || i == |keys|)
    requires Continues(full, Rest(cfg, v, m, b, keys[i..], stop), forceSets, divergences)
    ensures full == Outcome(m, b, stop, forceSets, divergences)
  {
  }

  lemma StepContinues(cfg: Config, v: OrgView, full: Outcome, m: Levels, b: Option<int>, keys: seq<Resource>, i: nat,
                      forceSets: nat,
                      divergences: seq<Resource>, m': Levels, b': Option<int>, stop: bool, counted: bool, diverges: bool)
    requires !v.truth.Unreachable? && i < |keys|
    requires Continues(full, Rest(cfg, v, m, b, keys[i..], false), forceSets, divergences)
    requires GaugeStep(cfg, v, m, b, keys[i], m', b', stop, counted, diverges)
    ensures Continues(full, Rest(cfg, v, m', b', keys[i + 1..], stop), forceSets + (if counted then 1 else 0),
                      divergences + (if diverges then [keys[i]] else []))
  {
    assert keys[i..][0] == keys[i] && keys[i..][1..] == keys[i + 1..];
    hide PlanGauge, Apply, Counted;
  }

  /** The part of a call still to come accounts for what is missing from the counts so far. */
  ghost predicate Continues(full: Outcome, rest: Outcome, forceSets: nat, divergences: seq<Resource>)
  {
    && full.levels == rest.levels && full.budget == rest.budget && full.exhausted == rest.exhausted
    && full.forceSets == forceSets + rest.forceSets
    && full.divergences == divergences + rest.divergences
  }
}
