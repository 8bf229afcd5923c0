/**
 The cached gauge counters. One map holds the org totals and the per-user partitions; a
 missing key reads as zero, as a missing Redis key does. A charge is what one activation
 spends: for every resource it names, the same amount on the org slot and, when the
 activation has a user, on that user's slot.
 */
module Gauges {
  import opened Prelude

  type Org = string
  type Resource = string
  type User = string

  datatype Slot =
    | OrgSlot(org: Org, rk: Resource)
    | UserSlot(org: Org, rk: Resource, user: User)

  type Levels = map<Slot, real>

  /** `user` is None for an empty user id too: the source tests it for truth. */
  datatype Charge = Charge(org: Org, user: Option<User>, spend: map<Resource, real>)

  function Level(m: Levels, s: Slot): real { if s in m then m[s] else 0.0 }

  /** How much a charge puts on a slot. */
  function Weight(c: Charge, s: Slot): real
  {
    if s.org == c.org && s.rk in c.spend && (s.UserSlot? ==> c.user == Some(s.user))
    then c.spend[s.rk] else 0.0
  }

  predicate NonNegative(c: Charge) { forall rk <- c.spend :: c.spend[rk] >= 0.0 }

  /** The slots that one resource of a charge touches: one atomic script writes both. */
  function SlotsOf(org: Org, user: Option<User>, rk: Resource): set<Slot>
  {
    {OrgSlot(org, rk)} + (if user.Some? then {UserSlot(org, rk, user.value)} else {})
  }

  function ChargedSlots(c: Charge): set<Slot>
  {
    (set rk <- c.spend :: OrgSlot(c.org, rk)) +
    (if c.user.Some? then set rk <- c.spend :: UserSlot(c.org, rk, c.user.value) else {})
  }

  function AddCharge(m: Levels, c: Charge): Levels
  {
    map s | s in m.Keys + ChargedSlots(c) :: Level(m, s) + Weight(c, s)
  }

  /** A decrement of one resource, floored at zero on both slots (counters/gauge.py `_DECR`, `_DECR_USER`). */
  function Subtract(m: Levels, org: Org, user: Option<User>, rk: Resource, delta: real): Levels
  {
    map s | s in m.Keys + SlotsOf(org, user, rk) ::
      if s in SlotsOf(org, user, rk) then Max0(Level(m, s) - delta) else Level(m, s)
  }

  lemma LevelAfterAdd(m: Levels, c: Charge, s: Slot)
    ensures Level(AddCharge(m, c), s) == Level(m, s) + Weight(c, s)
  {
    if s !in m.Keys + ChargedSlots(c) {
      assert s.org == c.org && s.rk in c.spend && s.OrgSlot? ==> s == OrgSlot(c.org, s.rk);
      assert Weight(c, s) == 0.0;
    }
  }

  // ---- Admission of one bundle against the levels -------------------------------------

  /** One gauge of a bundle, resolved: what it spends and the limits it must respect. */
  datatype Spec = Spec(rk: Resource, delta: real, orgLimit: Option<real>, userLimit: Option<real>)

  predicate Within(level: real, delta: real, limit: Option<real>)
  {
    limit.Some? ==> level + delta <= limit.value
  }

  predicate Fits(m: Levels, org: Org, user: Option<User>, sp: Spec)
  {
    && Within(Level(m, OrgSlot(org, sp.rk)), sp.delta, sp.orgLimit)
    && (user.Some? ==> Within(Level(m, UserSlot(org, sp.rk, user.value)), sp.delta, sp.userLimit))
  }

  /** The first gauge, in bundle order, that does not fit. */
  function FirstFailing(m: Levels, org: Org, user: Option<User>, specs: seq<Spec>): (r: Option<nat>)
    ensures r.Some? <==> exists i | 0 <= i < |specs| :: !Fits(m, org, user, specs[i])
    ensures r.Some? ==>
      && r.value < |specs|
      && !Fits(m, org, user, specs[r.value])
      && forall j | 0 <= j < r.value :: Fits(m, org, user, specs[j])
  {
    if specs == [] then None
    else if !Fits(m, org, user, specs[0]) then Some(0)
    else
      var rest := FirstFailing(m, org, user, specs[1..]);
      assert forall j | 1 <= j < |specs| :: specs[j] == specs[1..][j - 1];
      if rest.None? then None else Some(rest.value + 1)
  }

  predicate Distinct(specs: seq<Spec>)
  {
    forall i, j | 0 <= i < j < |specs| :: specs[i].rk != specs[j].rk
  }

  /** What `_gauge_specs` hands on: each resource once, each delta a magnitude. */
  predicate WellFormed(specs: seq<Spec>)
  {
    Distinct(specs) && forall sp <- specs :: sp.delta >= 0.0
  }

  function SpendOf(specs: seq<Spec>): map<Resource, real>
  {
    map rk | rk in (set sp <- specs :: sp.rk) :: DeltaOf(specs, rk)
  }

  function DeltaOf(specs: seq<Spec>, rk: Resource): real
    requires exists sp <- specs :: sp.rk == rk
  {
    if specs[0].rk == rk then specs[0].delta else DeltaOf(specs[1..], rk)
  }

  lemma {:induction false} DeltaAt(specs: seq<Spec>, i: nat)
    requires Distinct(specs) && i < |specs|
    ensures specs[i] in specs && DeltaOf(specs, specs[i].rk) == specs[i].delta
  {
    if i > 0 {
      assert specs[0].rk != specs[i].rk;
      DeltaAt(specs[1..], i - 1);
    }
  }

  lemma SpendNonNegative(org: Org, user: Option<User>, specs: seq<Spec>)
    requires WellFormed(specs)
    ensures NonNegative(Charge(org, user, SpendOf(specs)))
  {
    forall rk <- SpendOf(specs) ensures SpendOf(specs)[rk] >= 0.0 {
      var i :| 0 <= i < |specs| && specs[i].rk == rk;
      DeltaAt(specs, i);
    }
  }
}
