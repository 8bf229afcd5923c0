/**
 The recount before a refused acquire against the one before a denied check. A check compares the truth
 with the limits, org and user; acquire only repairs the gauges whose org total has drifted and runs its
 script once more on what is then cached, for the bundle as a whole. Here: exactly when the two agree.
 */
module Recount {
  import opened Prelude
  import opened Gauges
  import opened Repair
  import opened Admission

  // ---- What the second run of the script finds ------------------------------------------------------

  /** The source reports the gauge, and its org total is out of tolerance. */
  predicate Drifted(m: Levels, usage: map<Resource, Usage>, org: Org, rk: Resource)
  {
    rk in usage && !Near(usage[rk].total, Level(m, OrgSlot(org, rk)))
  }

  predicate FitsTruth(u: Usage, user: Option<User>, sp: Spec)
  {
    && Within(u.total, sp.delta, sp.orgLimit)
    && (user.Some? ==> Within(TrueUser(u, user).value, sp.delta, sp.userLimit))
  }

  /** Judged by the truth where the org total has drifted, by the cache everywhere else. */
  predicate FitsRepaired(m: Levels, usage: map<Resource, Usage>, org: Org, user: Option<User>, sp: Spec)
  {
    if Drifted(m, usage, org, sp.rk) then FitsTruth(usage[sp.rk], user, sp) else Fits(m, org, user, sp)
  }

  lemma RepairedFits(m: Levels, usage: map<Resource, Usage>, org: Org, user: Option<User>, specs: seq<Spec>, i: nat)
    requires Distinct(specs) && i < |specs|
    ensures Fits(RepairAll(m, usage, org, specs), org, user, specs[i]) <==> FitsRepaired(m, usage, org, user, specs[i])
  {
    hide RepairAll, Distinct;
    RepairAllReaches(m, usage, org, specs, OrgSlot(org, specs[i].rk));
    if user.Some? {
      RepairAllReaches(m, usage, org, specs, UserSlot(org, specs[i].rk, user.value));
    }
  }

  /** A denied bundle is still refused after the recount if and only if some gauge of it does not fit then. */
  lemma RecountedRefusal(m: Levels, usage: map<Resource, Usage>, org: Org, user: Option<User>, specs: seq<Spec>)
    requires Distinct(specs) && FirstFailing(m, org, user, specs).Some?
    ensures !RecountAcquire(m, Observed(usage), org, user, specs).0
       <==> exists i | 0 <= i < |specs| :: !FitsRepaired(m, usage, org, user, specs[i])
  {
    hide RepairAll, Fits;
    forall i | 0 <= i < |specs|
      ensures Fits(RepairAll(m, usage, org, specs), org, user, specs[i]) <==> FitsRepaired(m, usage, org, user, specs[i])
    {
      RepairedFits(m, usage, org, user, specs, i);
    }
    if !AnyDrift(m, usage, org, specs) {
      var i := FirstFailing(m, org, user, specs).value;
      assert !FitsRepaired(m, usage, org, user, specs[i]);
    }
  }

  /**
   And a reported gauge that does not fit is refused on an org level within tolerance of the truth, or on
   a user partition, which is the true one if the org total had drifted.
   */
  lemma RefusedAtTruth(m: Levels, usage: map<Resource, Usage>, org: Org, user: Option<User>, specs: seq<Spec>, i: nat)
    requires Distinct(specs) && i < |specs| && specs[i].rk in usage && !FitsRepaired(m, usage, org, user, specs[i])
    ensures var m' := RecountAcquire(m, Observed(usage), org, user, specs).1;
            var u := usage[specs[i].rk];
            && Near(u.total, Level(m', OrgSlot(org, specs[i].rk)))
            && (|| !Within(Level(m', OrgSlot(org, specs[i].rk)), specs[i].delta, specs[i].orgLimit)
                || (&& user.Some?
                    && !Within(Level(m', UserSlot(org, specs[i].rk, user.value)), specs[i].delta, specs[i].userLimit)
                    && (Drifted(m, usage, org, specs[i].rk) ==>
                          Level(m', UserSlot(org, specs[i].rk, user.value)) == TrueUser(u, user).value)))
  {
    hide RepairAll, Distinct;
    RepairAllReaches(m, usage, org, specs, OrgSlot(org, specs[i].rk));
    if user.Some? {
      RepairAllReaches(m, usage, org, specs, UserSlot(org, specs[i].rk, user.value));
    }
  }

  // ---- Agreement --------------------------------------------------------------------------------------

  predicate AllFit(p: Policy, m: Levels, org: Org, user: Option<User>, keys: seq<Resource>)
  {
    forall rk <- keys :: Fits(m, org, user, SpecOf(p, rk, user))
  }

  predicate AllFitRepaired(p: Policy, m: Levels, usage: map<Resource, Usage>, org: Org, user: Option<User>, keys: seq<Resource>)
  {
    forall rk <- keys :: FitsRepaired(m, usage, org, user, SpecOf(p, rk, user))
  }

  /** An enforced acquire admits if every gauge fits as cached, or if every gauge fits once repaired. */
  lemma AdmitsWithSourceIff(p: Policy, m: Levels, usage: map<Resource, Usage>, org: Org, user: Option<User>,
                            keys: seq<Resource>)
    requires Enforcing(p)
    ensures DecideWith(p, m, Observed(usage), org, user, Some(keys)).0.Spend?
       <==> AllFit(p, m, org, user, keys) || AllFitRepaired(p, m, usage, org, user, keys)
  {
    AdmitsIffAllFit(p, m, org, user, keys);
    EnforcedWithSource(p, m, usage, org, user, keys);
    var specs := GaugeSpecs(p, keys, user, {});
    assert Distinct(specs);
    hide GaugeSpecs, SpecOf, Fits, FitsRepaired, AllFitRepaired, RecountAcquire, FirstFailing, Decide, DecideWith, Distinct;
    if FirstFailing(m, org, user, specs).Some? {
      RecountedRefusal(m, usage, org, user, specs);
      SpecsAreKeys(p, m, usage, org, user, keys, specs);
    }
  }

  lemma EnforcedWithSource(p: Policy, m: Levels, usage: map<Resource, Usage>, org: Org, user: Option<User>,
                           keys: seq<Resource>)
    requires Enforcing(p)
    ensures var specs := GaugeSpecs(p, keys, user, {});
            && (Decide(p, m, org, user, Some(keys)).Spend? <==> FirstFailing(m, org, user, specs).None?)
            && (DecideWith(p, m, Observed(usage), org, user, Some(keys)).0.Spend?
                <==> FirstFailing(m, org, user, specs).None? || RecountAcquire(m, Observed(usage), org, user, specs).0)
  {
    hide GaugeSpecs, RecountAcquire, FirstFailing;
  }

  lemma SpecsAreKeys(p: Policy, m: Levels, usage: map<Resource, Usage>, org: Org, user: Option<User>, keys: seq<Resource>,
                     specs: seq<Spec>)
    requires specs == GaugeSpecs(p, keys, user, {})
    ensures (exists i | 0 <= i < |specs| :: !FitsRepaired(m, usage, org, user, specs[i]))
       <==> !AllFitRepaired(p, m, usage, org, user, keys)
  {
    hide SpecOf, FitsRepaired, WellFormed;
    if AllFitRepaired(p, m, usage, org, user, keys) {
      forall i | 0 <= i < |specs| ensures FitsRepaired(m, usage, org, user, specs[i]) {
        assert specs[i] in specs;
        assert specs[i].rk in keys && specs[i] == SpecOf(p, specs[i].rk, user);
      }
    } else {
      var rk :| rk in keys && !FitsRepaired(m, usage, org, user, SpecOf(p, rk, user));
      var i :| 0 <= i < |specs| && specs[i] == SpecOf(p, rk, user);
      assert !FitsRepaired(m, usage, org, user, specs[i]);
    }
  }

  /** The truth itself lies where the check passes it and acquire's limit does not: a negative burst again. */
  predicate TrueBurstGap(p: Policy, u: Usage, rk: Resource)
  {
    p.tier.Some? &&
    var tl := LimitsFor(p.tier.value, rk);
    var base := BaseLimit(p, tl, rk);
    base.Some? && tl.burst.Some? && base.value + tl.burst.value < u.total + 1.0 <= base.value
  }

  lemma FitsTruthIff(p: Policy, u: Usage, user: Option<User>, rk: Resource)
    requires p.tier.Some?
    ensures FitsTruth(u, user, SpecOf(p, rk, user)) <==> !ReallyOver(p, u, user, rk, 1.0) && !TrueBurstGap(p, u, rk)
  {
  }

  /** One gauge that acquire would pass, cached or repaired, the check passes too. */
  lemma RepairedPasses(p: Policy, m: Levels, usage: map<Resource, Usage>, org: Org, user: Option<User>, rk: Resource)
    requires Enforcing(p)
    requires var sp := SpecOf(p, rk, user); Fits(m, org, user, sp) || FitsRepaired(m, usage, org, user, sp)
    ensures !Denied(Check(p, m, Observed(usage), org, user, rk, 1.0).0)
  {
    hide Fits, FitsTruth, CacheDecision, ReallyOver, SpecOf, Check;
    TruthOnlyRelaxes(p, m, Observed(usage), org, user, rk, 1.0, []);
    FitsIffCheckPasses(p, m, org, user, rk);
    CachedCheck(p, m, org, user, rk);
    if rk in usage {
      FitsTruthIff(p, usage[rk], user, rk);
    }
  }

  lemma CachedCheck(p: Policy, m: Levels, org: Org, user: Option<User>, rk: Resource)
    requires Enforcing(p)
    ensures Check(p, m, NoSource, org, user, rk, 1.0).0 == CacheDecision(p, m, org, user, rk, 1.0)
  {
  }

  /** What acquire needs beyond the check's consent, for each answer of the source. */
  predicate AcquireNeeds(p: Policy, m: Levels, truth: Truth, org: Org, user: Option<User>, keys: seq<Resource>)
  {
    Enforcing(p) ==>
      match truth
      case NoSource => forall rk <- keys :: !BurstGap(p, m, org, rk)
      case Unreachable => true
      case Observed(usage) => AllFit(p, m, org, user, keys) || AllFitRepaired(p, m, usage, org, user, keys)
  }

  /**
   For every policy, every level and every answer of the source, on a declared bundle: acquire admits if
   and only if the bundle check allows and, where limits are enforced and a source reports, all gauges fit
   as cached or all fit once those with a drifted org total are repaired.
   */
  lemma AcquireAgreesWithSource(p: Policy, m: Levels, truth: Truth, org: Org, user: Option<User>, keys: seq<Resource>)
    requires keys != []
    ensures DecideWith(p, m, truth, org, user, Some(keys)).0.Spend?
       <==> CheckAllows(p, m, truth, org, user, Some(keys)) && AcquireNeeds(p, m, truth, org, user, keys)
  {
    if truth.NoSource? {
      AcquireAgreesWithCheck(p, m, org, user, keys);
    } else if !Enforcing(p) {
      Unenforced(p, m, truth, org, user, keys);
    } else if truth.Unreachable? {
      UnreachableAdmits(p, m, org, user, keys);
    } else {
      AdmitsWithSourceIff(p, m, truth.usage, org, user, keys);
      hide DecideWith, FitsRepaired, Fits, SpecOf, Check, Denied;
      if AcquireNeeds(p, m, truth, org, user, keys) {
        forall rk <- keys ensures !Denied(Check(p, m, truth, org, user, rk, 1.0).0) {
          RepairedPasses(p, m, truth.usage, org, user, rk);
        }
      }
    }
  }

  lemma Unenforced(p: Policy, m: Levels, truth: Truth, org: Org, user: Option<User>, keys: seq<Resource>)
    requires keys != [] && !Enforcing(p)
    ensures DecideWith(p, m, truth, org, user, Some(keys)).0.Spend? <==> CheckAllows(p, m, truth, org, user, Some(keys))
  {
    hide GaugeSpecs, Recounted, FirstFailing, RecountAcquire;
    assert CheckAllows(p, m, truth, org, user, Some(keys)) ==> !Denied(Check(p, m, truth, org, user, keys[0], 1.0).0);
    forall rk <- keys ensures Denied(Check(p, m, truth, org, user, rk, 1.0).0) <==> Stopped(p) {
      UnenforcedCheck(p, m, truth, org, user, rk);
    }
  }

  lemma UnenforcedCheck(p: Policy, m: Levels, truth: Truth, org: Org, user: Option<User>, rk: Resource)
    requires !Enforcing(p)
    ensures Denied(Check(p, m, truth, org, user, rk, 1.0).0) <==> Stopped(p)
  {
  }

  lemma UnreachableAdmits(p: Policy, m: Levels, org: Org, user: Option<User>, keys: seq<Resource>)
    requires keys != [] && Enforcing(p)
    ensures DecideWith(p, m, Unreachable, org, user, Some(keys)).0.Spend? && CheckAllows(p, m, Unreachable, org, user, Some(keys))
  {
    hide GaugeSpecs, FirstFailing, CacheDecision;
    forall rk <- keys ensures !Denied(Check(p, m, Unreachable, org, user, rk, 1.0).0) {
      TruthOnlyRelaxes(p, m, Unreachable, org, user, rk, 1.0, []);
    }
  }

  /** With bursts that are not negative the repaired gauges are those whose true use is not over. */
  lemma AcquireAgreesWithSourceForBursts(p: Policy, m: Levels, usage: map<Resource, Usage>, org: Org, user: Option<User>,
                                         keys: seq<Resource>)
    requires keys != [] && Enforcing(p)
    requires forall rk <- keys ::
               LimitsFor(p.tier.value, rk).burst.Some? ==> LimitsFor(p.tier.value, rk).burst.value >= 0.0
    ensures DecideWith(p, m, Observed(usage), org, user, Some(keys)).0.Spend?
       <==> CheckAllows(p, m, Observed(usage), org, user, Some(keys))
            && (|| AllFit(p, m, org, user, keys)
                || forall rk <- keys :: if Drifted(m, usage, org, rk) then !ReallyOver(p, usage[rk], user, rk, 1.0)
                                        else Fits(m, org, user, SpecOf(p, rk, user)))
  {
    AcquireAgreesWithSource(p, m, Observed(usage), org, user, keys);
    hide DecideWith, CheckAllows, ReallyOver, AllFit, Fits, FitsTruth;
    forall rk <- keys
      ensures FitsRepaired(m, usage, org, user, SpecOf(p, rk, user))
         <==> if Drifted(m, usage, org, rk) then !ReallyOver(p, usage[rk], user, rk, 1.0)
              else Fits(m, org, user, SpecOf(p, rk, user))
    {
      if rk in usage {
        FitsTruthIff(p, usage[rk], user, rk);
      }
    }
  }

  // ---- Where they part ---------------------------------------------------------------------------------

  /**
   So the promise `check` keeps, `acquire` does not, in two ways. One stale user partition under an org
   total in tolerance: the check recounts the user, acquire takes the refusal for real, whatever else
   the bundle holds.
   */
  lemma StaleGaugeStillRefused(p: Policy, m: Levels, usage: map<Resource, Usage>, org: Org, user: Option<User>,
                               keys: seq<Resource>, rk: Resource)
    requires Enforcing(p) && rk in keys && rk in usage
    requires !Drifted(m, usage, org, rk) && !Fits(m, org, user, SpecOf(p, rk, user))
    ensures DecideWith(p, m, Observed(usage), org, user, Some(keys)).0.Refused?
    ensures !ReallyOver(p, usage[rk], user, rk, 1.0) ==> !Denied(Check(p, m, Observed(usage), org, user, rk, 1.0).0)
  {
    hide Fits, SpecOf, ReallyOver;
    AdmitsWithSourceIff(p, m, usage, org, user, keys);
    TruthOnlyRelaxes(p, m, Observed(usage), org, user, rk, 1.0, []);
  }

  /**
   And a gauge that fits as cached although the truth is over: no check ever looks at its truth, but when
   acquire is denied for another gauge it repairs this one too, and is then refused for it.
   */
  lemma RepairRaisesAnother(p: Policy, m: Levels, usage: map<Resource, Usage>, org: Org, user: Option<User>,
                            keys: seq<Resource>, low: Resource, high: Resource)
    requires Enforcing(p) && low in keys && high in keys && high in usage
    requires Drifted(m, usage, org, low) && Fits(m, org, user, SpecOf(p, low, user))
    requires ReallyOver(p, usage[low], user, low, 1.0) && !Fits(m, org, user, SpecOf(p, high, user))
    ensures DecideWith(p, m, Observed(usage), org, user, Some(keys)).0.Refused?
    ensures !Denied(Check(p, m, Observed(usage), org, user, low, 1.0).0)
    ensures !ReallyOver(p, usage[high], user, high, 1.0) ==> !Denied(Check(p, m, Observed(usage), org, user, high, 1.0).0)
  {
    hide Fits, FitsTruth, SpecOf, ReallyOver;
    AdmitsWithSourceIff(p, m, usage, org, user, keys);
    FitsTruthIff(p, usage[low], user, low);
    RepairedPasses(p, m, usage, org, user, low);
    TruthOnlyRelaxes(p, m, Observed(usage), org, user, high, 1.0, []);
  }

  /** Both happen: a witness of each, for every org, resource and user. */
  lemma StaleUserStillRefused(org: Org, rk: Resource, user: User)
    ensures var tl := Limits(Some(10.0), None, Some(2.0), 0.8, 0.95);
            var p := Policy(Knobs(true, false, false, false), Some(Tier(map[rk := tl], None)), map[]);
            var m := map[OrgSlot(org, rk) := 2.0, UserSlot(org, rk, user) := 2.0];
            var usage := map[rk := Usage(2.0, map[user := 0.0])];
            && !Denied(Check(p, m, Observed(usage), org, Some(user), rk, 1.0).0)
            && DecideWith(p, m, Observed(usage), org, Some(user), Some([rk])).0.Refused?
  {
    var tl := Limits(Some(10.0), None, Some(2.0), 0.8, 0.95);
    var p := Policy(Knobs(true, false, false, false), Some(Tier(map[rk := tl], None)), map[]);
    var m := map[OrgSlot(org, rk) := 2.0, UserSlot(org, rk, user) := 2.0];
    var usage := map[rk := Usage(2.0, map[user := 0.0])];
    StaleGaugeStillRefused(p, m, usage, org, Some(user), [rk], rk);
  }

  lemma RaisedGaugeRefused(org: Org, high: Resource, low: Resource)
    requires high != low
    ensures var tl := Limits(Some(10.0), None, None, 0.8, 0.95);
            var p := Policy(Knobs(true, false, false, false), Some(Tier(map[high := tl, low := tl], None)), map[]);
            var m := map[OrgSlot(org, high) := 10.0, OrgSlot(org, low) := 1.0];
            var usage := map[high := Usage(1.0, map[]), low := Usage(10.0, map[])];
            && CheckAllows(p, m, Observed(usage), org, None, Some([high, low]))
            && DecideWith(p, m, Observed(usage), org, None, Some([high, low])).0.Refused?
  {
    var tl := Limits(Some(10.0), None, None, 0.8, 0.95);
    var p := Policy(Knobs(true, false, false, false), Some(Tier(map[high := tl, low := tl], None)), map[]);
    var m := map[OrgSlot(org, high) := 10.0, OrgSlot(org, low) := 1.0];
    var usage := map[high := Usage(1.0, map[]), low := Usage(10.0, map[])];
    RepairRaisesAnother(p, m, usage, org, None, [high, low], low, high);
  }
}
