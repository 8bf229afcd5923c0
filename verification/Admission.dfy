/**
 The admission decisions: `check` and `check_for_bundle`, which only look, against `acquire`, which
 spends. Both resolve tiers, overrides, burst and per-user limits, and both honour the enforcement
 knobs; this module says exactly when they agree, and what the recount before a denial changes.
 */
module Admission {
  import opened Prelude
  import opened Gauges
  import opened Repair

  /** `TierLimits`: None is unlimited, or no such sub-limit. */
  datatype Limits = Limits(
    limit: Option<real>, burst: Option<real>, perUser: Option<real>, warning: real, critical: real)

  datatype Tier = Tier(limits: map<Resource, Limits>, userFraction: Option<real>)

  datatype Knobs = Knobs(enabled: bool, shadow: bool, kill: bool, allowUnknownBundle: bool)

  /** What one org's requests are judged by. `tier` is None when its tier id is not configured. */
  datatype Policy = Policy(knobs: Knobs, tier: Option<Tier>, overrides: map<Resource, Option<real>>)

  datatype Decision = Allow | AllowWarning | Deny | Unlimited | ShadowAllow | UnknownTier

  predicate Allowed(d: Decision) { d.Allow? || d.AllowWarning? || d.Unlimited? || d.ShadowAllow? }

  predicate Denied(d: Decision) { d.Deny? || d.UnknownTier? }

  function LimitsFor(t: Tier, rk: Resource): Limits
  {
    if rk in t.limits then t.limits[rk] else Limits(None, None, None, 0.8, 0.95)
  }

  function Ceiling(x: real): real { -((-x).Floor as real) }

  function Share(limit: real, fraction: real): real { limit * fraction }

  /** `derive_per_user_limit`: explicit, else a share of the tier's limit and at least one. */
  function PerUserLimit(t: Tier, tl: Limits): Option<real>
  {
    if tl.perUser.Some? then tl.perUser
    else if t.userFraction.None? || tl.limit.None? then None
    else
      var derived := Ceiling(Share(tl.limit.value, t.userFraction.value));
      Some(if derived < 1.0 then 1.0 else derived)
  }

  /** A live override replaces the limit, also with None. */
  function BaseLimit(p: Policy, tl: Limits, rk: Resource): Option<real>
  {
    if rk in p.overrides then p.overrides[rk] else tl.limit
  }

  // ---- check --------------------------------------------------------------------------------------

  function Evaluate(current: real, requested: real, limit: Option<real>, tl: Limits): Decision
  {
    if limit.None? then Unlimited
    else
      var after := current + requested;
      if after > limit.value then
        if tl.burst.Some? && tl.burst.value != 0.0 && after <= limit.value + tl.burst.value
        then AllowWarning else Deny
      else
        var utilization := if limit.value > 0.0 then after / limit.value else 0.0;
        if utilization >= tl.critical || utilization >= tl.warning then AllowWarning else Allow
  }

  /** The decision on given levels, before any recount and before shadow mode. */
  function Judge(t: Tier, limit: Option<real>, tl: Limits, orgLevel: real, userLevel: Option<real>, inc: real): Decision
  {
    var d := Evaluate(orgLevel, inc, limit, tl);
    var perUser := PerUserLimit(t, tl);
    if Allowed(d) && userLevel.Some? && perUser.Some? && userLevel.value + inc > perUser.value then Deny else d
  }

  function CachedUser(m: Levels, org: Org, user: Option<User>, rk: Resource): Option<real>
  {
    if user.Some? then Some(Level(m, UserSlot(org, rk, user.value))) else None
  }

  /** What the source of truth answers: nothing wired, unreachable, or a report. */
  datatype Truth = NoSource | Unreachable | Observed(usage: map<Resource, Usage>)

  datatype Usage = Usage(total: real, users: map<User, real>)

  function TrueUser(u: Usage, user: Option<User>): Option<real>
  {
    if user.Some? then Some(if user.value in u.users then u.users[user.value] else 0.0) else None
  }

  /**
   `check` for a gauge: the decision, and the levels it leaves. A denial is recounted first, and a
   drifted counter repaired on the way, so a check can write even though its documentation says no.
   */
  function Check(p: Policy, m: Levels, truth: Truth, org: Org, user: Option<User>, rk: Resource,
                 inc: real): (Decision, Levels)
  {
    if p.knobs.kill then (Deny, m)
    else if !p.knobs.enabled then (Allow, m)
    else if p.tier.None? then (UnknownTier, m)
    else
      var (d, m') := Recounted(p, m, truth, org, user, rk, inc);
      (if d.Deny? && p.knobs.shadow then ShadowAllow else d, m')
  }

  function CacheDecision(p: Policy, m: Levels, org: Org, user: Option<User>, rk: Resource, inc: real): Decision
    requires p.tier.Some?
  {
    var tl := LimitsFor(p.tier.value, rk);
    Judge(p.tier.value, BaseLimit(p, tl, rk), tl, Level(m, OrgSlot(org, rk)), CachedUser(m, org, user, rk), inc)
  }

  function TrueDecision(p: Policy, u: Usage, user: Option<User>, rk: Resource, inc: real): Decision
    requires p.tier.Some?
  {
    var tl := LimitsFor(p.tier.value, rk);
    Judge(p.tier.value, BaseLimit(p, tl, rk), tl, u.total, TrueUser(u, user), inc)
  }

  function Recounted(p: Policy, m: Levels, truth: Truth, org: Org, user: Option<User>, rk: Resource,
                     inc: real): (Decision, Levels)
    requires p.tier.Some?
  {
    var d := CacheDecision(p, m, org, user, rk, inc);
    if !d.Deny? || truth.NoSource? then (d, m)
    else if truth.Unreachable? then (Allow, m)
    else if rk !in truth.usage then (Deny, m)
    else
      var u := truth.usage[rk];
      (TrueDecision(p, u, user, rk, inc),
       if Near(u.total, Level(m, OrgSlot(org, rk))) then m else Reset(m, org, rk, u.total, u.users))
  }

  /** What lets a bundle without gauges through `check_for_bundle`; and what stops any `acquire`. */
  predicate Permissive(k: Knobs) { !k.enabled || k.shadow || k.allowUnknownBundle }

  predicate Stopped(p: Policy) { p.knobs.kill || (p.knobs.enabled && p.tier.None?) }

  /** `check_for_bundle`: an undeclared or empty bundle is decided by the knobs, else all must pass. */
  predicate CheckAllows(p: Policy, m: Levels, truth: Truth, org: Org, user: Option<User>, bundle: Option<seq<Resource>>)
  {
    if bundle.None? || bundle.value == [] then
      Permissive(p.knobs)
    else
      forall i | 0 <= i < |bundle.value| :: !Denied(Check(p, m, truth, org, user, bundle.value[i], 1.0).0)
  }

  /** The resources `check_for_bundle` names as denied, in bundle order. */
  function DeniedResources(p: Policy, m: Levels, truth: Truth, org: Org, user: Option<User>, keys: seq<Resource>): seq<Resource>
  {
    if keys == [] then []
    else (if Denied(Check(p, m, truth, org, user, keys[0], 1.0).0) then [keys[0]] else [])
         + DeniedResources(p, m, truth, org, user, keys[1..])
  }

  // ---- acquire --------------------------------------------------------------------------------------

  /** `_effective_limits`: the org limit with burst, and the per-user limit. */
  function EffectiveLimits(p: Policy, rk: Resource, user: Option<User>): (Option<real>, Option<real>)
  {
    if p.tier.None? then (None, None)
    else
      var tl := LimitsFor(p.tier.value, rk);
      var base := BaseLimit(p, tl, rk);
      (if base.None? then None else Some(base.value + (if tl.burst.Some? then tl.burst.value else 0.0)),
       if user.Some? then PerUserLimit(p.tier.value, tl) else None)
  }

  function SpecOf(p: Policy, rk: Resource, user: Option<User>): (sp: Spec)
    ensures sp.rk == rk
  {
    var (orgLimit, userLimit) := EffectiveLimits(p, rk, user);
    Spec(rk, 1.0, orgLimit, userLimit)
  }

  /** `_gauge_specs` for a bundle of gauges: a resource named twice counts once. */
  function GaugeSpecs(p: Policy, keys: seq<Resource>, user: Option<User>, seen: set<Resource>): (specs: seq<Spec>)
    ensures WellFormed(specs)
    ensures forall sp <- specs :: sp.rk in keys && sp.rk !in seen && sp == SpecOf(p, sp.rk, user)
    ensures forall rk <- keys | rk !in seen :: SpecOf(p, rk, user) in specs
  {
    if keys == [] then []
    else if keys[0] in seen then GaugeSpecs(p, keys[1..], user, seen)
    else
      var rest := GaugeSpecs(p, keys[1..], user, seen + {keys[0]});
      assert forall sp <- rest :: sp.rk in keys[1..];
      assert forall rk <- keys | rk != keys[0] :: rk in keys[1..];
      var specs := [SpecOf(p, keys[0], user)] + rest;
      assert forall sp <- specs :: sp == specs[0] || sp in rest;
      assert forall sp <- rest :: sp in specs;
      specs
  }

  function DropLimits(specs: seq<Spec>): (dropped: seq<Spec>)
    ensures |dropped| == |specs|
    ensures forall i | 0 <= i < |specs| :: dropped[i] == specs[i].(orgLimit := None, userLimit := None)
  {
    seq(|specs|, i requires 0 <= i < |specs| => specs[i].(orgLimit := None, userLimit := None))
  }

  /** How `acquire` ends: refused naming a resource or the bundle itself, or spending these gauges. */
  datatype Verdict =
    | Refused(resource: Option<Resource>)
    | Spend(specs: seq<Spec>)

  /** `acquire` with a fresh idempotency key and no source of truth. */
  function Decide(p: Policy, m: Levels, org: Org, user: Option<User>, bundle: Option<seq<Resource>>): Verdict
  {
    if p.knobs.kill then Refused(None)
    else if bundle.None? && p.knobs.enabled && !p.knobs.shadow && !p.knobs.allowUnknownBundle then Refused(None)
    else if p.knobs.enabled && p.tier.None? then Refused(None)
    else
      var keys := if bundle.Some? then bundle.value else [];
      var specs := GaugeSpecs(p, keys, user, {});
      if !p.knobs.enabled then Spend(DropLimits(specs))
      else
        var failing := FirstFailing(m, org, user, specs);
        if failing.None? then Spend(specs)
        else if p.knobs.shadow then Spend(DropLimits(specs))
        else Refused(Some(specs[failing.value].rk))
  }

  // ---- Agreement --------------------------------------------------------------------------------------

  /**
   The one place where the two resolve a limit differently. `check` looks at a burst only once the
   limit itself is passed; `acquire` adds it to the limit first. They part for a negative burst.
   */
  predicate BurstGap(p: Policy, m: Levels, org: Org, rk: Resource)
  {
    p.tier.Some? &&
    var tl := LimitsFor(p.tier.value, rk);
    var base := BaseLimit(p, tl, rk);
    var after := Level(m, OrgSlot(org, rk)) + 1.0;
    base.Some? && tl.burst.Some? && base.value + tl.burst.value < after <= base.value
  }

  /** On one gauge: `acquire`'s spec fits exactly when the cached check does not deny, outside the gap. */
  lemma FitsIffCheckPasses(p: Policy, m: Levels, org: Org, user: Option<User>, rk: Resource)
    requires p.tier.Some?
    ensures Fits(m, org, user, SpecOf(p, rk, user))
       <==> !Denied(CacheDecision(p, m, org, user, rk, 1.0)) && !BurstGap(p, m, org, rk)
  {
  }

  predicate Enforcing(p: Policy) { !p.knobs.kill && p.knobs.enabled && !p.knobs.shadow && p.tier.Some? }

  /** An enforced acquire admits a declared bundle exactly when each gauge it names fits. */
  lemma AdmitsIffAllFit(p: Policy, m: Levels, org: Org, user: Option<User>, keys: seq<Resource>)
    requires Enforcing(p)
    ensures Decide(p, m, org, user, Some(keys)).Spend? <==> forall rk <- keys :: Fits(m, org, user, SpecOf(p, rk, user))
  {
    hide Fits, SpecOf, GaugeSpecs, WellFormed;
    var specs := GaugeSpecs(p, keys, user, {});
    var failing := FirstFailing(m, org, user, specs);
    if failing.Some? {
      assert specs[failing.value] in specs;
    } else {
      forall rk <- keys ensures Fits(m, org, user, SpecOf(p, rk, user)) {
        var j :| 0 <= j < |specs| && specs[j] == SpecOf(p, rk, user);
      }
    }
  }

  lemma EnforcedAgrees(p: Policy, m: Levels, org: Org, user: Option<User>, keys: seq<Resource>)
    requires keys != [] && Enforcing(p)
    ensures Decide(p, m, org, user, Some(keys)).Spend?
       <==> CheckAllows(p, m, NoSource, org, user, Some(keys)) && forall rk <- keys :: !BurstGap(p, m, org, rk)
  {
    AdmitsIffAllFit(p, m, org, user, keys);
    hide Fits, SpecOf, GaugeSpecs, CacheDecision, BurstGap, FirstFailing, Decide;
    forall rk <- keys
      ensures Fits(m, org, user, SpecOf(p, rk, user))
         <==> !Denied(Check(p, m, NoSource, org, user, rk, 1.0).0) && !BurstGap(p, m, org, rk)
    {
      FitsIffCheckPasses(p, m, org, user, rk);
    }
    assert forall i | 0 <= i < |keys| :: keys[i] in keys;
  }

  /**
   For a declared bundle of gauges, whatever the knobs, tier, overrides, burst and per-user
   settings: `acquire` admits exactly when `check_for_bundle` allows and no gauge sits in the gap
   of a negative burst (which only matters when limits are enforced at all).
   */
  lemma AcquireAgreesWithCheck(p: Policy, m: Levels, org: Org, user: Option<User>, keys: seq<Resource>)
    requires keys != []
    ensures Decide(p, m, org, user, Some(keys)).Spend?
       <==> CheckAllows(p, m, NoSource, org, user, Some(keys))
            && (Enforcing(p) ==> forall rk <- keys :: !BurstGap(p, m, org, rk))
  {
    if Enforcing(p) {
      EnforcedAgrees(p, m, org, user, keys);
    } else if !p.knobs.kill && p.knobs.enabled && p.tier.None? {
      assert Denied(Check(p, m, NoSource, org, user, keys[0], 1.0).0);
    } else if p.knobs.kill {
      assert Denied(Check(p, m, NoSource, org, user, keys[0], 1.0).0);
    }
  }

  /** With bursts that are not negative, as meant, the two agree on every declared bundle. */
  lemma AcquireAgreesWithCheckForBursts(p: Policy, m: Levels, org: Org, user: Option<User>, keys: seq<Resource>)
    requires keys != []
    requires p.tier.Some? ==> forall rk <- keys ::
               LimitsFor(p.tier.value, rk).burst.Some? ==> LimitsFor(p.tier.value, rk).burst.value >= 0.0
    ensures Decide(p, m, org, user, Some(keys)).Spend? <==> CheckAllows(p, m, NoSource, org, user, Some(keys))
  {
    AcquireAgreesWithCheck(p, m, org, user, keys);
  }

  /**
   Whatever the bundle, `acquire` and `check_for_bundle` agree exactly when: for an undeclared bundle,
   the knobs do not let pass what the kill switch or an unknown tier stops; for an empty one, which the
   check takes for undeclared and `acquire` does not, one of the two holds; for any other, an enforced
   check that allows leaves no gauge in the gap of a negative burst.
   */
  lemma AgreementIff(p: Policy, m: Levels, org: Org, user: Option<User>, bundle: Option<seq<Resource>>)
    ensures (Decide(p, m, org, user, bundle).Spend? <==> CheckAllows(p, m, NoSource, org, user, bundle)) <==>
              match bundle
              case None => !(Permissive(p.knobs) && Stopped(p))
              case Some(keys) =>
                if keys == [] then Permissive(p.knobs) != Stopped(p)
                else Enforcing(p) && CheckAllows(p, m, NoSource, org, user, bundle) ==>
                  forall rk <- keys :: !BurstGap(p, m, org, rk)
  {
    hide BurstGap;
    if bundle.Some? && bundle.value != [] {
      hide Decide, CheckAllows;
      AcquireAgreesWithCheck(p, m, org, user, bundle.value);
    }
  }

  lemma {:induction false} FirstDenied(p: Policy, m: Levels, org: Org, user: Option<User>, keys: seq<Resource>, i: nat)
    requires i < |keys|
    requires Denied(Check(p, m, NoSource, org, user, keys[i], 1.0).0)
    requires forall j | 0 <= j < i :: !Denied(Check(p, m, NoSource, org, user, keys[j], 1.0).0)
    ensures DeniedResources(p, m, NoSource, org, user, keys) != [] && DeniedResources(p, m, NoSource, org, user, keys)[0] == keys[i]
  {
    if i > 0 {
      FirstDenied(p, m, org, user, keys[1..], i - 1);
    }
  }

  /** The first failing spec belongs to the first bundle entry that does not fit, repeats and all. */
  lemma {:induction false} FirstFailingEntry(p: Policy, m: Levels, org: Org, user: Option<User>, keys: seq<Resource>,
                                             seen: set<Resource>)
    returns (i: nat)
    requires forall rk <- seen :: Fits(m, org, user, SpecOf(p, rk, user))
    requires FirstFailing(m, org, user, GaugeSpecs(p, keys, user, seen)).Some?
    ensures i < |keys|
    ensures keys[i] == GaugeSpecs(p, keys, user, seen)[FirstFailing(m, org, user, GaugeSpecs(p, keys, user, seen)).value].rk
    ensures !Fits(m, org, user, SpecOf(p, keys[i], user))
    ensures forall j | 0 <= j < i :: Fits(m, org, user, SpecOf(p, keys[j], user))
    decreases |keys|, 1
  {
    hide Fits, SpecOf, WellFormed, Distinct;
    assert keys != [];
    var specs, first := GaugeSpecs(p, keys, user, seen), SpecOf(p, keys[0], user);
    i := 0;
    if keys[0] in seen {
      i := LaterEntry(p, m, org, user, keys, seen);
    } else {
      var rest := GaugeSpecs(p, keys[1..], user, seen + {keys[0]});
      assert specs == [first] + rest;
      FailingBehind(m, org, user, first, rest);
      hide FirstFailing, GaugeSpecs;
      if Fits(m, org, user, first) {
        i := LaterEntry(p, m, org, user, keys, seen + {keys[0]});
      }
    }
  }

  lemma {:induction false} LaterEntry(p: Policy, m: Levels, org: Org, user: Option<User>, keys: seq<Resource>, seen: set<Resource>)
    returns (i: nat)
    requires keys != [] && keys[0] in seen && forall rk <- seen :: Fits(m, org, user, SpecOf(p, rk, user))
    requires FirstFailing(m, org, user, GaugeSpecs(p, keys[1..], user, seen)).Some?
    ensures 0 < i < |keys|
    ensures var specs := GaugeSpecs(p, keys[1..], user, seen);
            keys[i] == specs[FirstFailing(m, org, user, specs).value].rk
    ensures !Fits(m, org, user, SpecOf(p, keys[i], user))
    ensures forall j | 0 <= j < i :: Fits(m, org, user, SpecOf(p, keys[j], user))
    decreases |keys|, 0
  {
    hide Fits, SpecOf, WellFormed, Distinct, FirstFailing, GaugeSpecs;
    var later := FirstFailingEntry(p, m, org, user, keys[1..], seen);
    i := later + 1;
    forall j | 0 < j < i ensures Fits(m, org, user, SpecOf(p, keys[j], user)) {
      assert keys[j] == keys[1..][j - 1];
    }
  }

  lemma FailingBehind(m: Levels, org: Org, user: Option<User>, sp: Spec, rest: seq<Spec>)
    ensures FirstFailing(m, org, user, [sp] + rest) ==
              if !Fits(m, org, user, sp) then Some(0)
              else var f := FirstFailing(m, org, user, rest);
                   if f.None? then None else Some(f.value + 1)
  {
    hide Fits;
    assert ([sp] + rest)[1..] == rest;
  }

  /** When both refuse for a limit, `acquire` names the first resource the check lists. */
  lemma SameResourceBlamed(p: Policy, m: Levels, org: Org, user: Option<User>, keys: seq<Resource>)
    requires Enforcing(p) && forall rk <- keys :: !BurstGap(p, m, org, rk)
    requires Decide(p, m, org, user, Some(keys)).Refused?
    ensures DeniedResources(p, m, NoSource, org, user, keys) != []
    ensures Decide(p, m, org, user, Some(keys)) == Refused(Some(DeniedResources(p, m, NoSource, org, user, keys)[0]))
  {
    var i := FirstFailingEntry(p, m, org, user, keys, {});
    forall j | 0 <= j <= i
      ensures Fits(m, org, user, SpecOf(p, keys[j], user)) <==> !Denied(Check(p, m, NoSource, org, user, keys[j], 1.0).0)
    {
      assert keys[j] in keys;
      FitsIffCheckPasses(p, m, org, user, keys[j]);
    }
    FirstDenied(p, m, org, user, keys, i);
  }

  // ---- Recount before deny ------------------------------------------------------------------------------

  /** The use really is over: the org past its limit and burst, or the user past the personal limit. */
  predicate ReallyOver(p: Policy, u: Usage, user: Option<User>, rk: Resource, inc: real)
    requires p.tier.Some?
  {
    var tl := LimitsFor(p.tier.value, rk);
    var base := BaseLimit(p, tl, rk);
    var perUser := PerUserLimit(p.tier.value, tl);
    || (base.Some? && u.total + inc > base.value
        && !(tl.burst.Some? && tl.burst.value != 0.0 && u.total + inc <= base.value + tl.burst.value))
    || (user.Some? && perUser.Some? && TrueUser(u, user).value + inc > perUser.value)
  }

  /**
   With a reachable source that reports the resource, an enforced check denies exactly when the
   cache would and the truth is really over; it never denies what the cache allows; and a drifted
   counter it recounts ends at the truth, org total and every user partition.
   */
  lemma RecountBeforeDeny(p: Policy, m: Levels, usage: map<Resource, Usage>, org: Org, user: Option<User>,
                          rk: Resource, inc: real)
    requires Enforcing(p) && rk in usage
    ensures var (d, m') := Check(p, m, Observed(usage), org, user, rk, inc);
            var cached := CacheDecision(p, m, org, user, rk, inc);
            && (Denied(d) <==> Denied(cached) && ReallyOver(p, usage[rk], user, rk, inc))
            && (!Denied(cached) ==> d == cached && m' == m)
            && (Denied(cached) && !Near(usage[rk].total, Level(m, OrgSlot(org, rk))) ==>
                  forall s :: Level(m', s) == if OfGauge(s, org, rk) then Target(s, usage[rk].total, usage[rk].users)
                                              else Level(m, s))
            && (Denied(cached) ==> Near(usage[rk].total, Level(m', OrgSlot(org, rk))))
  {
    var u := usage[rk];
    TrueDenied(p, u, user, rk, inc);
    forall s ensures Level(Reset(m, org, rk, u.total, u.users), s)
      == if OfGauge(s, org, rk) then Target(s, u.total, u.users) else Level(m, s)
    {
      ResetReaches(m, org, rk, u.total, u.users, s);
    }
    hide Reset, Level, Near, TrueDecision, CacheDecision, ReallyOver;
    assert OfGauge(OrgSlot(org, rk), org, rk) && Target(OrgSlot(org, rk), u.total, u.users) == u.total;
    NearItself(u.total);
  }

  lemma TrueDenied(p: Policy, u: Usage, user: Option<User>, rk: Resource, inc: real)
    requires p.tier.Some?
    ensures Denied(TrueDecision(p, u, user, rk, inc)) <==> ReallyOver(p, u, user, rk, inc)
    ensures TrueDecision(p, u, user, rk, inc) != UnknownTier
  {
  }

  lemma NearItself(x: real)
    ensures Near(x, x)
  {
  }

  /**
   A source of truth only ever relaxes. Whatever it answers, a check is denied only if it is denied
   without one; and exactly when, besides, no limit was enforced in the first place (the kill switch or
   an unknown tier denies), or the source was there and shows no room: it does not report the resource,
   or reports it over. A source that cannot be reached denies no gauge, to either call.
   */
  lemma TruthOnlyRelaxes(p: Policy, m: Levels, truth: Truth, org: Org, user: Option<User>, rk: Resource, inc: real,
                         specs: seq<Spec>)
    requires !truth.NoSource?
    ensures var (d, m') := Check(p, m, truth, org, user, rk, inc);
            var without := Check(p, m, NoSource, org, user, rk, inc).0;
            var shown := truth.Observed? && (p.tier.Some? && rk in truth.usage ==> ReallyOver(p, truth.usage[rk], user, rk, inc));
            && (Denied(d) <==> (Denied(without) && (Stopped(p) || shown)))
            && (m' != m ==> truth.Observed? && rk in truth.usage && !Near(truth.usage[rk].total, Level(m, OrgSlot(org, rk))))
    ensures RecountAcquire(m, Unreachable, org, user, specs) == (true, m)
  {
  }

  /** The cache denies under an enforced limit, and a source that is there reports the org total out of tolerance. */
  predicate FindsDrift(p: Policy, m: Levels, truth: Truth, org: Org, user: Option<User>, rk: Resource, inc: real)
  {
    && !p.knobs.kill && p.knobs.enabled && p.tier.Some? && CacheDecision(p, m, org, user, rk, inc).Deny?
    && truth.Observed? && rk in truth.usage && !Near(truth.usage[rk].total, Level(m, OrgSlot(org, rk)))
  }

  /**
   When a check modifies a counter, in shadow mode or not: if and only if it finds drift behind a denial. Then
   every slot of that gauge is set to the truth, and no other.
   */
  lemma CheckWritesIff(p: Policy, m: Levels, truth: Truth, org: Org, user: Option<User>, rk: Resource, inc: real)
    ensures var m' := Check(p, m, truth, org, user, rk, inc).1;
            && ((exists s :: Level(m', s) != Level(m, s)) <==> FindsDrift(p, m, truth, org, user, rk, inc))
            && (FindsDrift(p, m, truth, org, user, rk, inc) ==>
                  forall s :: Level(m', s) == if OfGauge(s, org, rk) then Target(s, truth.usage[rk].total, truth.usage[rk].users)
                                              else Level(m, s))
  {
    hide CacheDecision, TrueDecision, Reset, Target;
    if FindsDrift(p, m, truth, org, user, rk, inc) {
      var u := truth.usage[rk];
      forall s
        ensures Level(Reset(m, org, rk, u.total, u.users), s)
             == if OfGauge(s, org, rk) then Target(s, u.total, u.users) else Level(m, s)
      {
        ResetReaches(m, org, rk, u.total, u.users, s);
      }
      assert Target(OrgSlot(org, rk), u.total, u.users) == u.total by { OrgTarget(org, rk, u); }
      assert Level(Check(p, m, truth, org, user, rk, inc).1, OrgSlot(org, rk)) != Level(m, OrgSlot(org, rk));
    }
  }

  lemma OrgTarget(org: Org, rk: Resource, u: Usage)
    ensures Target(OrgSlot(org, rk), u.total, u.users) == u.total
  {
  }

  // ---- The checks of a bundle, one after another -----------------------------------------------------------

  /** `batch_check`: each check on the levels the one before left. */
  function CheckEach(p: Policy, m: Levels, truth: Truth, org: Org, user: Option<User>,
                     keys: seq<Resource>): (seq<Resource>, Levels)
  {
    if keys == [] then ([], m)
    else
      var last := keys[|keys| - 1];
      var (denied, m1) := CheckEach(p, m, truth, org, user, keys[..|keys| - 1]);
      var (d, m2) := Check(p, m1, truth, org, user, last, 1.0);
      (denied + if Denied(d) then [last] else [], m2)
  }

  /** The levels of a gauge are as they were, or as a check of that gauge alone leaves them. */
  ghost predicate AsChecked(p: Policy, m: Levels, m': Levels, truth: Truth, org: Org, user: Option<User>, rk: Resource,
                            checked: bool)
  {
    forall s | OfGauge(s, org, rk) ::
      Level(m', s) == Level(if checked then Check(p, m, truth, org, user, rk, 1.0).1 else m, s)
  }

  lemma SameCacheDecision(p: Policy, m: Levels, m': Levels, org: Org, user: Option<User>, rk: Resource)
    requires p.tier.Some? && forall s | OfGauge(s, org, rk) :: Level(m', s) == Level(m, s)
    ensures CacheDecision(p, m', org, user, rk, 1.0) == CacheDecision(p, m, org, user, rk, 1.0)
    ensures Level(m', OrgSlot(org, rk)) == Level(m, OrgSlot(org, rk))
  {
    hide Judge;
    assert OfGauge(OrgSlot(org, rk), org, rk);
    if user.Some? {
      assert OfGauge(UserSlot(org, rk, user.value), org, rk);
    }
  }

  lemma SameReset(m: Levels, m': Levels, org: Org, rk: Resource, u: Usage)
    ensures forall s | OfGauge(s, org, rk) ::
              Level(Reset(m', org, rk, u.total, u.users), s) == Level(Reset(m, org, rk, u.total, u.users), s)
  {
    hide Reset;
    forall s | OfGauge(s, org, rk)
      ensures Level(Reset(m', org, rk, u.total, u.users), s) == Level(Reset(m, org, rk, u.total, u.users), s)
    {
      ResetReaches(m, org, rk, u.total, u.users, s);
      ResetReaches(m', org, rk, u.total, u.users, s);
    }
  }

  /** A check looks at its own gauge's levels only. */
  lemma CheckReadsItsGauge(p: Policy, m: Levels, m': Levels, truth: Truth, org: Org, user: Option<User>, rk: Resource)
    requires forall s | OfGauge(s, org, rk) :: Level(m', s) == Level(m, s)
    ensures Check(p, m', truth, org, user, rk, 1.0).0 == Check(p, m, truth, org, user, rk, 1.0).0
    ensures AsChecked(p, m, Check(p, m', truth, org, user, rk, 1.0).1, truth, org, user, rk, true)
  {
    hide Reset, CacheDecision, TrueDecision, Level, OfGauge, Near;
    if p.tier.Some? {
      SameCacheDecision(p, m, m', org, user, rk);
    }
    if truth.Observed? && rk in truth.usage {
      SameReset(m, m', org, rk, truth.usage[rk]);
    }
  }

  /** Nor does it write any other; and checking a gauge again changes neither its answer nor its levels. */
  lemma CheckAgain(p: Policy, m: Levels, truth: Truth, org: Org, user: Option<User>, rk: Resource, s: Slot)
    ensures var once := Check(p, m, truth, org, user, rk, 1.0);
            && (!OfGauge(s, org, rk) ==> Level(once.1, s) == Level(m, s))
            && Check(p, once.1, truth, org, user, rk, 1.0).0 == once.0
            && Level(Check(p, once.1, truth, org, user, rk, 1.0).1, s) == Level(once.1, s)
  {
    if truth.Observed? && rk in truth.usage {
      var u := truth.usage[rk];
      ResetReaches(m, org, rk, u.total, u.users, s);
      ResetReaches(m, org, rk, u.total, u.users, OrgSlot(org, rk));
      if user.Some? {
        ResetReaches(m, org, rk, u.total, u.users, UserSlot(org, rk, user.value));
      }
    }
  }

  /**
   A bundle's checks do not get in each other's way, repairs, repeated entries and all: the denied ones
   are those that a single check on the levels before denies, and each gauge is left as that check leaves it.
   */
  lemma {:induction false} BatchIsEachAlone(p: Policy, m: Levels, truth: Truth, org: Org, user: Option<User>,
                                            keys: seq<Resource>)
    ensures CheckEach(p, m, truth, org, user, keys).0 == DeniedResources(p, m, truth, org, user, keys)
    ensures forall rk :: AsChecked(p, m, CheckEach(p, m, truth, org, user, keys).1, truth, org, user, rk, rk in keys)
    ensures forall s: Slot | s.org != org :: Level(CheckEach(p, m, truth, org, user, keys).1, s) == Level(m, s)
  {
    if keys != [] {
      var last, front := keys[|keys| - 1], keys[..|keys| - 1];
      BatchIsEachAlone(p, m, truth, org, user, front);
      assert keys == front + [last];
      hide Check, Denied;
      DeniedSnoc(p, m, truth, org, user, front, last);
      var m1 := CheckEach(p, m, truth, org, user, front).1;
      CheckedNext(p, m, m1, truth, org, user, last, last in front);
      forall rk ensures AsChecked(p, m, Check(p, m1, truth, org, user, last, 1.0).1, truth, org, user, rk, rk in keys) {
        OtherGauges(p, m, m1, truth, org, user, last, rk, rk in keys);
      }
      forall s: Slot | s.org != org ensures Level(Check(p, m1, truth, org, user, last, 1.0).1, s) == Level(m, s) {
        CheckAgain(p, m1, truth, org, user, last, s);
      }
    }
  }

  lemma {:induction false} DeniedSnoc(p: Policy, m: Levels, truth: Truth, org: Org, user: Option<User>, keys: seq<Resource>,
                                      rk: Resource)
    ensures DeniedResources(p, m, truth, org, user, keys + [rk]) == DeniedResources(p, m, truth, org, user, keys)
              + if Denied(Check(p, m, truth, org, user, rk, 1.0).0) then [rk] else []
  {
    hide Check, Denied;
    if keys == [] {
      assert keys + [rk] == [rk];
    } else {
      assert (keys + [rk])[1..] == keys[1..] + [rk];
      DeniedSnoc(p, m, truth, org, user, keys[1..], rk);
    }
  }

  /** The next entry of the bundle, checked before or not. */
  lemma CheckedNext(p: Policy, m: Levels, m1: Levels, truth: Truth, org: Org, user: Option<User>, rk: Resource, checked: bool)
    requires AsChecked(p, m, m1, truth, org, user, rk, checked)
    ensures Check(p, m1, truth, org, user, rk, 1.0).0 == Check(p, m, truth, org, user, rk, 1.0).0
    ensures AsChecked(p, m, Check(p, m1, truth, org, user, rk, 1.0).1, truth, org, user, rk, true)
  {
    hide Check;
    var base := if checked then Check(p, m, truth, org, user, rk, 1.0).1 else m;
    CheckReadsItsGauge(p, base, m1, truth, org, user, rk);
    forall s | OfGauge(s, org, rk)
      ensures Level(Check(p, m1, truth, org, user, rk, 1.0).1, s) == Level(Check(p, m, truth, org, user, rk, 1.0).1, s)
    {
      CheckAgain(p, m, truth, org, user, rk, s);
    }
    CheckAgain(p, m, truth, org, user, rk, OrgSlot(org, rk));
  }

  lemma OtherGauges(p: Policy, m: Levels, m1: Levels, truth: Truth, org: Org, user: Option<User>, last: Resource,
                    rk: Resource, checked: bool)
    requires AsChecked(p, m, m1, truth, org, user, rk, checked) || rk == last
    requires rk == last ==> checked && AsChecked(p, m, Check(p, m1, truth, org, user, last, 1.0).1, truth, org, user, last, true)
    ensures AsChecked(p, m, Check(p, m1, truth, org, user, last, 1.0).1, truth, org, user, rk, checked)
  {
    hide Check;
    if rk != last {
      forall s | OfGauge(s, org, rk)
        ensures Level(Check(p, m1, truth, org, user, last, 1.0).1, s) == Level(m1, s)
      {
        CheckAgain(p, m1, truth, org, user, last, s);
      }
    }
  }

  // ---- The same on acquire's path ---------------------------------------------------------------------

  /** The loop of `_acquire_recount_before_deny`: repair each drifted gauge the source reports. */
  function RepairAll(m: Levels, usage: map<Resource, Usage>, org: Org, specs: seq<Spec>): Levels
    decreases |specs|
  {
    if specs == [] then m
    else
      var rk := specs[0].rk;
      var m' := if rk in usage && !Near(usage[rk].total, Level(m, OrgSlot(org, rk)))
                then Reset(m, org, rk, usage[rk].total, usage[rk].users) else m;
      RepairAll(m', usage, org, specs[1..])
  }

  predicate AnyDrift(m: Levels, usage: map<Resource, Usage>, org: Org, specs: seq<Spec>)
  {
    exists i | 0 <= i < |specs| :: specs[i].rk in usage && !Near(usage[specs[i].rk].total, Level(m, OrgSlot(org, specs[i].rk)))
  }

  /** After a denial: still refused, or what is then spent, and the levels repaired on the way. */
  function RecountAcquire(m: Levels, truth: Truth, org: Org, user: Option<User>, specs: seq<Spec>): (r: (bool, Levels))
    requires !truth.NoSource?
    ensures FirstFailing(m, org, user, specs).Some? && !r.0 ==> FirstFailing(r.1, org, user, specs).Some?
  {
    if truth.Unreachable? then (true, m)
    else if !AnyDrift(m, truth.usage, org, specs) then (false, m)
    else
      var m' := RepairAll(m, truth.usage, org, specs);
      (FirstFailing(m', org, user, specs).None?, m')
  }

  /** `acquire` with a fresh idempotency key and any source: how it ends, on which levels. */
  function DecideWith(p: Policy, m: Levels, truth: Truth, org: Org, user: Option<User>,
                      bundle: Option<seq<Resource>>): (Verdict, Levels)
  {
    var v := Decide(p, m, org, user, bundle);
    if v.Spend? || v.resource.None? || truth.NoSource? then (v, m)
    else
      var specs := GaugeSpecs(p, if bundle.Some? then bundle.value else [], user, {});
      var (ok, m') := RecountAcquire(m, truth, org, user, specs);
      if ok then (Spend(if truth.Unreachable? then DropLimits(specs) else specs), m')
      else (Refused(Some(specs[FirstFailing(m', org, user, specs).value].rk)), m')
  }

  /**
   For `acquire` too a source only ever relaxes: what is admitted without one is admitted alike; one that
   cannot be reached leaves no refusal for a limit, and the levels as they are; and what a report turns
   into an admission fits within every limit on the repaired levels.
   */
  lemma SourceOnlyAdmitsMore(p: Policy, m: Levels, truth: Truth, org: Org, user: Option<User>, bundle: Option<seq<Resource>>)
    ensures var v := Decide(p, m, org, user, bundle);
            var (w, m') := DecideWith(p, m, truth, org, user, bundle);
            && (v.Spend? ==> w == v && m' == m)
            && (v == Refused(None) <==> w == Refused(None))
            && (truth.Unreachable? ==> m' == m && (w.Refused? ==> w == Refused(None)))
            && (truth.Observed? && v.Refused? && w.Spend? ==>
                  AnyDrift(m, truth.usage, org, w.specs) && FirstFailing(m', org, user, w.specs).None?)
  {
    hide RepairAll, AnyDrift, SpecOf, Fits, FirstFailing;
  }

  /** One gauge of a well-formed bundle after the repair loop. */
  lemma {:induction false} RepairAllReaches(m: Levels, usage: map<Resource, Usage>, org: Org, specs: seq<Spec>, s: Slot)
    requires Distinct(specs)
    ensures Level(RepairAll(m, usage, org, specs), s)
         == if s.org == org && (exists i | 0 <= i < |specs| :: specs[i].rk == s.rk)
               && s.rk in usage && !Near(usage[s.rk].total, Level(m, OrgSlot(org, s.rk)))
            then Target(s, usage[s.rk].total, usage[s.rk].users) else Level(m, s)
    decreases |specs|
  {
    if specs != [] {
      var rk := specs[0].rk;
      var drifted := rk in usage && !Near(usage[rk].total, Level(m, OrgSlot(org, rk)));
      var m' := if drifted then Reset(m, org, rk, usage[rk].total, usage[rk].users) else m;
      RepairAllReaches(m', usage, org, specs[1..], s);
      if drifted {
        ResetReaches(m, org, rk, usage[rk].total, usage[rk].users, s);
        ResetReaches(m, org, rk, usage[rk].total, usage[rk].users, OrgSlot(org, s.rk));
      }
      if s.rk == rk {
        assert forall i | 0 <= i < |specs[1..]| :: specs[1..][i] == specs[i + 1] && specs[i + 1].rk != rk;
      } else {
        assert forall i | 0 < i < |specs| :: specs[i] == specs[1..][i - 1];
      }
    }
  }
}
