/**
 What the limits of a configuration come to. The decisions are stated here by the overrides and the tier's
 own table alone: which limit is in force, what a burst adds, how far one user may go, when there is a warning.
 */
module Limits {
  import opened Prelude
  import opened Gauges
  import opened Repair
  import opened Admission

  /**
   How far one user of the org may go. An explicit personal limit is the cap. Else, where the tier limits the
   resource and has a share for one user, it is the least whole number that is at least that share and at
   least one; else there is none. An override of the org's limit plays no part.
   */
  predicate IsPersonalCap(t: Tier, rk: Resource, cap: Option<real>)
  {
    if rk in t.limits && t.limits[rk].perUser.Some? then cap == t.limits[rk].perUser
    else if rk in t.limits && t.limits[rk].limit.Some? && t.userFraction.Some? then
      && cap.Some? && IsLeast(cap.value, Share(t.limits[rk].limit.value, t.userFraction.value))
    else cap.None?
  }

  /** The least whole number that is at least x and at least one: one less would not do. */
  predicate IsLeast(whole: real, x: real)
  {
    && whole == whole.Floor as real && whole >= x && whole >= 1.0
    && (whole - 1.0 < x || whole - 1.0 < 1.0)
  }

  lemma CeilingIsLeast(x: real)
    ensures IsLeast(if Ceiling(x) < 1.0 then 1.0 else Ceiling(x), x)
  {
    var c := -((-x).Floor);
    assert c as real == Ceiling(x) && x <= c as real < x + 1.0;
    assert (if Ceiling(x) < 1.0 then 1.0 else Ceiling(x)) == (if c < 1 then 1 else c) as real;
  }

  lemma OneLeast(a: real, b: real, x: real)
    requires IsLeast(a, x) && IsLeast(b, x)
    ensures a <= b
  {
    var m, n := a.Floor, b.Floor;
    assert m > n ==> m as real >= n as real + 1.0;
  }

  lemma DerivedCap(x: real, cap: Option<real>)
    ensures cap.Some? && IsLeast(cap.value, x) <==> cap == Some(if Ceiling(x) < 1.0 then 1.0 else Ceiling(x))
  {
    CeilingIsLeast(x);
    hide Ceiling;
    if cap.Some? && IsLeast(cap.value, x) {
      OneLeast(cap.value, if Ceiling(x) < 1.0 then 1.0 else Ceiling(x), x);
      OneLeast(if Ceiling(x) < 1.0 then 1.0 else Ceiling(x), cap.value, x);
    }
  }

  /** There is exactly one such cap, and it is the one in use. */
  lemma CapInUse(t: Tier, rk: Resource, cap: Option<real>)
    ensures IsPersonalCap(t, rk, cap) <==> cap == PerUserLimit(t, LimitsFor(t, rk))
  {
    hide IsLeast, Ceiling;
    var tl := LimitsFor(t, rk);
    if t.userFraction.Some? && tl.limit.Some? {
      DerivedCap(Share(tl.limit.value, t.userFraction.value), cap);
    }
  }

  /** The user's own use leaves room; a request without a user needs none. */
  predicate FitsUser(m: Levels, org: Org, user: Option<User>, rk: Resource, inc: real, cap: Option<real>)
  {
    user.Some? && cap.Some? ==> Level(m, UserSlot(org, rk, user.value)) + inc <= cap.value
  }

  /**
   Under enforcement, for every policy and level. A live override is the org's limit, also when it says
   unlimited; else the tier's own is, and a resource the tier does not name has none. An acquire of the
   resource spends if and only if level and unit stay within that limit plus the burst, and the user within
   the personal cap. A check without a source denies if and only if they do not, save that to it a negative
   burst is none.
   */
  lemma LimitLaw(p: Policy, m: Levels, org: Org, user: Option<User>, rk: Resource, inc: real, limit: Option<real>, burst: real,
                 cap: Option<real>)
    requires Enforcing(p) && IsPersonalCap(p.tier.value, rk, cap)
    requires var table := p.tier.value.limits;
             && limit == (if rk in p.overrides then p.overrides[rk] else if rk in table then table[rk].limit else None)
             && burst == (if rk in table && table[rk].burst.Some? then table[rk].burst.value else 0.0)
    ensures var level := Level(m, OrgSlot(org, rk));
            && (Decide(p, m, org, user, Some([rk])).Spend? <==>
                  (limit.Some? ==> level + 1.0 <= limit.value + burst) && FitsUser(m, org, user, rk, 1.0, cap))
            && (!Denied(Check(p, m, NoSource, org, user, rk, inc).0) <==>
                  (limit.Some? ==> level + inc <= limit.value + Max0(burst)) && FitsUser(m, org, user, rk, inc, cap))
  {
    CapInUse(p.tier.value, rk, cap);
    AdmitsIffAllFit(p, m, org, user, [rk]);
    assert rk in [rk] && forall key <- [rk] :: key == rk;
    hide IsPersonalCap, PerUserLimit, Decide;
    CheckDenies(p, m, org, user, rk, inc, limit, cap);
    hide Check;
  }

  lemma CheckDenies(p: Policy, m: Levels, org: Org, user: Option<User>, rk: Resource, inc: real, limit: Option<real>,
                    cap: Option<real>)
    requires Enforcing(p) && cap == PerUserLimit(p.tier.value, LimitsFor(p.tier.value, rk))
    requires limit == BaseLimit(p, LimitsFor(p.tier.value, rk), rk)
    ensures var burst := LimitsFor(p.tier.value, rk).burst;
            !Denied(Check(p, m, NoSource, org, user, rk, inc).0) <==>
              && (limit.Some? ==> Level(m, OrgSlot(org, rk)) + inc
                                  <= limit.value + Max0(if burst.Some? then burst.value else 0.0))
              && FitsUser(m, org, user, rk, inc, cap)
  {
    hide PerUserLimit;
  }

  /**
   Which of the allowing answers a check gives: unlimited without a limit; a warning once the limit itself is
   passed, into the burst, or the use reaches the lower of the two thresholds of it; else a plain allow.
   */
  lemma WarningLaw(p: Policy, m: Levels, org: Org, user: Option<User>, rk: Resource, inc: real, limit: Option<real>,
                   share: real)
    requires Enforcing(p) && !Denied(Check(p, m, NoSource, org, user, rk, inc).0)
    requires var table := p.tier.value.limits;
             && limit == (if rk in p.overrides then p.overrides[rk] else if rk in table then table[rk].limit else None)
             && share == (if rk !in table then 0.8
                          else if table[rk].warning < table[rk].critical then table[rk].warning else table[rk].critical)
    ensures var d, after := Check(p, m, NoSource, org, user, rk, inc).0, Level(m, OrgSlot(org, rk)) + inc;
            && (d.Unlimited? <==> limit.None?)
            && (d.AllowWarning? <==>
                  limit.Some? && (after > limit.value
                                  || (if limit.value > 0.0 then after >= share * limit.value else share <= 0.0)))
            && (d.Unlimited? || d.AllowWarning? || d.Allow?)
  {
    WarnsIff(Level(m, OrgSlot(org, rk)), inc, limit, LimitsFor(p.tier.value, rk));
    hide PerUserLimit, Evaluate;
  }

  lemma WarnsIff(current: real, inc: real, limit: Option<real>, tl: Limits)
    ensures var share := if tl.warning < tl.critical then tl.warning else tl.critical;
            match Evaluate(current, inc, limit, tl)
            case Unlimited => limit.None?
            case AllowWarning =>
              limit.Some? && (current + inc > limit.value
                              || (if limit.value > 0.0 then current + inc >= share * limit.value else share <= 0.0))
            case Allow =>
              limit.Some? && current + inc <= limit.value
              && !(if limit.value > 0.0 then current + inc >= share * limit.value else share <= 0.0)
            case Deny => limit.Some?
            case _ => false
  {
    if limit.Some? && limit.value > 0.0 {
      Divided(current + inc, limit.value, tl.warning);
      Divided(current + inc, limit.value, tl.critical);
    }
  }

  lemma Divided(a: real, b: real, share: real)
    requires b > 0.0
    ensures a / b >= share <==> a >= share * b
  {
    assert a == (a / b) * b;
  }

  // ---- The resolution before the limits -----------------------------------------------------------------

  /**
   Above the limits stand the knobs. The kill switch stops both calls; disabled enforcement lets both pass; a
   tier that is not configured stops both, in shadow mode too; and shadow mode lets both pass otherwise.
   */
  lemma KnobsLaw(p: Policy, m: Levels, truth: Truth, org: Org, user: Option<User>, rk: Resource, inc: real, keys: seq<Resource>)
    ensures var d, v := Check(p, m, truth, org, user, rk, inc).0, Decide(p, m, org, user, Some(keys));
            && (p.knobs.kill ==> d == Deny && v == Refused(None))
            && (!p.knobs.kill && !p.knobs.enabled ==> d == Allow && v.Spend?)
            && (!p.knobs.kill && p.knobs.enabled && p.tier.None? ==> d == UnknownTier && v == Refused(None))
            && (!p.knobs.kill && p.knobs.enabled && p.tier.Some? && p.knobs.shadow ==> !Denied(d) && v.Spend?)
  {
    hide GaugeSpecs, PerUserLimit, FirstFailing, DropLimits;
    CheckKnobs(p, m, truth, org, user, rk, inc);
    hide Check;
  }

  lemma CheckKnobs(p: Policy, m: Levels, truth: Truth, org: Org, user: Option<User>, rk: Resource, inc: real)
    ensures var d := Check(p, m, truth, org, user, rk, inc).0;
            && (p.knobs.kill ==> d == Deny) && (!p.knobs.kill && !p.knobs.enabled ==> d == Allow)
            && (!p.knobs.kill && p.knobs.enabled && p.tier.None? ==> d == UnknownTier)
            && (!p.knobs.kill && p.knobs.enabled && p.tier.Some? && p.knobs.shadow ==> !Denied(d))
  {
    hide PerUserLimit, Reset, Near;
  }

  /** A bundle that is not declared: the same order, with its own knob in the limits' place. */
  lemma UndeclaredLaw(p: Policy, m: Levels, truth: Truth, org: Org, user: Option<User>)
    ensures Decide(p, m, org, user, None).Spend? <==>
              && !p.knobs.kill
              && (!p.knobs.enabled || (p.tier.Some? && (p.knobs.shadow || p.knobs.allowUnknownBundle)))
    ensures CheckAllows(p, m, truth, org, user, None) <==> !p.knobs.enabled || p.knobs.shadow || p.knobs.allowUnknownBundle
  {
  }

  /** Under enforcement a bundle is admitted if and only if each of its resources alone would be. */
  lemma BundleLaw(p: Policy, m: Levels, org: Org, user: Option<User>, keys: seq<Resource>)
    requires Enforcing(p)
    ensures Decide(p, m, org, user, Some(keys)).Spend? <==> forall rk <- keys :: Decide(p, m, org, user, Some([rk])).Spend?
  {
    AdmitsIffAllFit(p, m, org, user, keys);
    hide Decide, Fits, SpecOf;
    forall rk <- keys
      ensures Decide(p, m, org, user, Some([rk])).Spend? <==> Fits(m, org, user, SpecOf(p, rk, user))
    {
      AdmitsIffAllFit(p, m, org, user, [rk]);
      assert rk in [rk] && forall key <- [rk] :: key == rk;
    }
  }

  /** What is spent, whatever the knobs: one unit of each resource named, however often it is. */
  lemma SpendsOneOfEach(p: Policy, m: Levels, org: Org, user: Option<User>, keys: seq<Resource>)
    ensures var v := Decide(p, m, org, user, Some(keys));
            v.Spend? ==> WellFormed(v.specs) && SpendOf(v.specs) == map rk | rk in keys :: 1.0
  {
    var v := Decide(p, m, org, user, Some(keys));
    if v.Spend? {
      var specs := GaugeSpecs(p, keys, user, {});
      assert v.specs == specs || v.specs == DropLimits(specs);
      hide *;
      UnitOfEach(p, keys, user);
      DroppedUnits(specs, keys);
      UnitsSpend(v.specs, keys);
    }
  }

  /** One unit of each of the resources, and of no other. */
  ghost predicate Units(specs: seq<Spec>, keys: seq<Resource>)
  {
    && WellFormed(specs) && (forall i | 0 <= i < |specs| :: specs[i].rk in keys && specs[i].delta == 1.0)
    && forall rk <- keys :: exists i :: 0 <= i < |specs| && specs[i].rk == rk
  }

  lemma UnitOfEach(p: Policy, keys: seq<Resource>, user: Option<User>)
    ensures Units(GaugeSpecs(p, keys, user, {}), keys)
  {
    var specs := GaugeSpecs(p, keys, user, {});
    hide GaugeSpecs, EffectiveLimits, WellFormed;
    assert forall i | 0 <= i < |specs| :: specs[i] in specs && specs[i] == SpecOf(p, specs[i].rk, user);
    forall rk <- keys ensures exists i :: 0 <= i < |specs| && specs[i].rk == rk {
      var i :| 0 <= i < |specs| && specs[i] == SpecOf(p, rk, user);
    }
  }

  lemma DroppedUnits(specs: seq<Spec>, keys: seq<Resource>)
    requires Units(specs, keys)
    ensures Units(DropLimits(specs), keys)
  {
    var dropped := DropLimits(specs);
    forall sp <- dropped ensures sp.delta >= 0.0 {
      var i :| 0 <= i < |dropped| && dropped[i] == sp;
    }
    forall rk <- keys ensures exists i :: 0 <= i < |dropped| && dropped[i].rk == rk {
      var i :| 0 <= i < |specs| && specs[i].rk == rk;
      assert dropped[i].rk == rk;
    }
  }

  lemma UnitsSpend(specs: seq<Spec>, keys: seq<Resource>)
    requires Units(specs, keys)
    ensures WellFormed(specs) && SpendOf(specs) == map rk | rk in keys :: 1.0
  {
    hide DeltaOf;
    forall rk <- keys ensures rk in SpendOf(specs) && SpendOf(specs)[rk] == 1.0 {
      var i :| 0 <= i < |specs| && specs[i].rk == rk;
      DeltaAt(specs, i);
    }
    assert forall rk <- SpendOf(specs) :: rk in keys;
  }

  /**
   A recount judges the truth as a check would judge it if the cache held it: the report is over if and only
   if a check on levels that read as reported denies.
   */
  lemma TruthIsJudgedAlike(p: Policy, m: Levels, u: Usage, org: Org, user: Option<User>, rk: Resource, inc: real)
    requires Enforcing(p) && Level(m, OrgSlot(org, rk)) == u.total
    requires user.Some? ==>
               Level(m, UserSlot(org, rk, user.value)) == if user.value in u.users then u.users[user.value] else 0.0
    ensures ReallyOver(p, u, user, rk, inc) <==> Denied(Check(p, m, NoSource, org, user, rk, inc).0)
  {
    hide PerUserLimit;
  }

  lemma ShareOfLimit(limit: real, fraction: real)
    ensures Share(limit, fraction) == limit * fraction
  {
  }
}
