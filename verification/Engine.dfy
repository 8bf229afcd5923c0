/**
 The quota engine's calls, each run from start to end: acquire, release, settle and check over the
 shared gauge cache and the activation store. Every step of a call is one of the step machine's own
 events, and keeps its invariant; but a recount writes the provider's numbers over the levels, and then
 it is kept if and only if those cover the ledger.
 */
module Engine {
  import opened Prelude
  import opened Gauges
  import opened Activations
  import opened Repair
  import opened LedgerMachine
  import opened Admission

  datatype AcquireResult =
    | Admitted(activation: Option<Id>)     // None for a replayed idempotency key
    | NotAdmitted(resource: Option<Resource>)
    | PersistFailed                        // re-raised: the caller must not provision

  datatype SettleResult = Rejected | Recorded | Conflict | Ignored

  /** The preamble of `acquire`, before any counter is looked at. */
  predicate RefusedUpFront(p: Policy, bundle: Option<seq<Resource>>)
  {
    Stopped(p) || (bundle.None? && !Permissive(p.knobs))
  }

  function KeysOf(bundle: Option<seq<Resource>>): seq<Resource>
  {
    if bundle.Some? then bundle.value else []
  }

  /** What admitting the bundle spends. */
  function ChargeOf(p: Policy, org: Org, user: Option<User>, bundle: Option<seq<Resource>>): Charge
  {
    Charge(org, user, SpendOf(GaugeSpecs(p, KeysOf(bundle), user, {})))
  }

  /** How an acquire must end, and on which levels: the policy, the replay latch, the recount of a denial. */
  function AcquireOutcome(p: Policy, m: Levels, truth: Truth, idem: set<IdemKey>, org: Org, user: Option<User>,
                          bundle: Option<seq<Resource>>, key: Option<string>, id: Id,
                          persists: bool): (AcquireResult, Levels)
  {
    if RefusedUpFront(p, bundle) then (NotAdmitted(None), m)
    else if Replayed(idem, org, user, p, bundle, key) then (Admitted(None), m)
    else
      var (v, m') := DecideWith(p, m, truth, org, user, bundle);
      match v
      case Refused(rk) => (NotAdmitted(rk), m')
      case Spend(_) => (if persists then Admitted(Some(id)) else PersistFailed, m')
  }

  /** The acquire took something: whoever called it holds an activation, or an error. */
  predicate Took(r: AcquireResult) { r.PersistFailed? || (r.Admitted? && r.activation.Some?) }

  /** The key was claimed by an earlier admission whose bundle starts with the same gauge. */
  predicate Replayed(idem: set<IdemKey>, org: Org, user: Option<User>, p: Policy, bundle: Option<seq<Resource>>,
                     key: Option<string>)
  {
    var k := ReplayKey(org, user, p, bundle, key);
    k.Some? && k.value in idem
  }

  /** The latch of a call's key is that of the first gauge of its bundle. */
  function ReplayKey(org: Org, user: Option<User>, p: Policy, bundle: Option<seq<Resource>>, key: Option<string>)
    : Option<IdemKey>
  {
    var specs := GaugeSpecs(p, KeysOf(bundle), user, {});
    if HasKey(key) && specs != [] then Some(IdemKey(org, specs[0].rk, key.value)) else None
  }

  predicate SameSpends(a: seq<Spec>, b: seq<Spec>)
  {
    |a| == |b| && forall i | 0 <= i < |a| :: a[i].rk == b[i].rk && a[i].delta == b[i].delta
  }

  lemma {:induction false} SameDelta(a: seq<Spec>, b: seq<Spec>, i: nat)
    requires SameSpends(a, b) && i < |a|
    ensures a[i] in a && b[i] in b && DeltaOf(a, a[i].rk) == DeltaOf(b, a[i].rk)
  {
    if a[0].rk != a[i].rk {
      SameDelta(a[1..], b[1..], i - 1);
    }
  }

  lemma SameMentions(a: seq<Spec>, b: seq<Spec>)
    requires SameSpends(a, b)
    ensures (set sp <- a :: sp.rk) <= (set sp <- b :: sp.rk)
  {
    forall i | 0 <= i < |a| ensures a[i].rk in (set sp <- b :: sp.rk) {
      assert b[i] in b;
    }
  }

  lemma SameSpendsSpendTheSame(a: seq<Spec>, b: seq<Spec>)
    requires SameSpends(a, b)
    ensures SpendOf(a) == SpendOf(b)
  {
    hide DeltaOf;
    SameMentions(a, b);
    SameMentions(b, a);
    forall rk <- SpendOf(a) ensures rk in SpendOf(b) && SpendOf(a)[rk] == SpendOf(b)[rk] {
      var i :| 0 <= i < |a| && a[i].rk == rk;
      SameDelta(a, b, i);
    }
  }

  lemma DropLimitsSpends(specs: seq<Spec>)
    requires WellFormed(specs)
    ensures WellFormed(DropLimits(specs)) && SpendOf(DropLimits(specs)) == SpendOf(specs)
  {
    SameSpendsSpendTheSame(specs, DropLimits(specs));
    forall sp <- DropLimits(specs) ensures sp.delta >= 0.0 {
      var i :| 0 <= i < |specs| && DropLimits(specs)[i] == sp;
      assert specs[i] in specs;
    }
  }

  lemma DropLimitsFit(m: Levels, org: Org, user: Option<User>, specs: seq<Spec>)
    ensures FirstFailing(m, org, user, DropLimits(specs)).None?
  {
  }

  /** Drift in a bundle is drift in its first gauge, or drift in the others, which repairing it leaves. */
  lemma DriftAhead(m: Levels, usage: map<Resource, Usage>, org: Org, specs: seq<Spec>)
    requires Distinct(specs) && specs != []
    ensures var rk := specs[0].rk;
            var drifted := rk in usage && !Near(usage[rk].total, Level(m, OrgSlot(org, rk)));
            && (AnyDrift(m, usage, org, specs) <==> drifted || AnyDrift(m, usage, org, specs[1..]))
            && (drifted ==>
                  && AnyDrift(m, usage, org, specs)
                  && (AnyDrift(Reset(m, org, rk, usage[rk].total, usage[rk].users), usage, org, specs[1..])
                      <==> AnyDrift(m, usage, org, specs[1..])))
  {
    hide Reset, Near;
    var rk, rest := specs[0].rk, specs[1..];
    assert forall j | 1 <= j < |specs| :: specs[j] == rest[j - 1];
    if rk in usage {
      forall j | 0 <= j < |rest|
        ensures Level(Reset(m, org, rk, usage[rk].total, usage[rk].users), OrgSlot(org, rest[j].rk))
             == Level(m, OrgSlot(org, rest[j].rk))
      {
        assert specs[0].rk != specs[j + 1].rk;
        ResetReaches(m, org, rk, usage[rk].total, usage[rk].users, OrgSlot(org, rest[j].rk));
      }
    }
  }

  /** What the script answers: a replay, an admission, or the first gauge that does not fit. */
  predicate SpendAnswers(st: State, row: Activation, specs: seq<Spec>, key: Option<string>, admitted: bool,
                         dup: bool, failing: nat)
  {
    var first := FirstFailing(st.levels, row.charge.org, row.charge.user, specs);
    && dup == Duplicate(st, row, specs, key)
    && admitted == (dup || first.None?)
    && (!admitted ==> first == Some(failing))
  }

  lemma BundleHasSpecs(p: Policy, keys: seq<Resource>, user: Option<User>)
    ensures keys != [] ==> GaugeSpecs(p, keys, user, {}) != []
  {
    if keys != [] {
      assert keys[0] in keys;
      assert SpecOf(p, keys[0], user) in GaugeSpecs(p, keys, user, {});
    }
  }

  predicate Numbered(calls: map<nat, Call>, next: nat) { forall c <- calls :: c < next }

  lemma NumberedNext(calls: map<nat, Call>, next: nat, call: Call)
    requires Numbered(calls, next)
    ensures next !in calls && Numbered(calls[next := call], next + 1)
  {
  }

  lemma NumberedAgain(calls: map<nat, Call>, next: nat, c: nat, call: Call)
    requires Numbered(calls, next) && c in calls
    ensures Numbered(calls[c := call], next)
  {
  }

  /** The machine's acquire, field by field. */
  function AfterAcquire(st: State, c: nat, row: Activation, specs: seq<Spec>, key: Option<string>, spends: bool): State
  {
    State(if spends then AddCharge(st.levels, row.charge) else st.levels,
          if spends then BumpGenerations(st.generations, row.charge) else st.generations,
          st.claims,
          if spends then WithKey(st.idem, AcquireKey(row, specs, key)) else st.idem,
          st.rows,
          st.calls[c := if spends then Spent(row) else if Duplicate(st, row, specs, key) then Finished
                        else TurnedDown(row, specs, key)],
          st.listings,
          st.orphan,
          st.phantom)
  }

  lemma AcquireStep(st: State, c: nat, row: Activation, specs: seq<Spec>, key: Option<string>)
    requires Sound(st) && st.listings == map[] && c !in st.calls && NewRow(st, row, specs)
    ensures Enabled(st, Event.Acquire(c, row, specs, key))
    ensures var st' := Next(st, Event.Acquire(c, row, specs, key));
            && Sound(st') && (Inv(st) ==> Inv(st'))
            && st' == AfterAcquire(st, c, row, specs, key, Spends(st, row, specs, key))
            && (!Spends(st, row, specs, key) ==> FreshId(st', row.id))
  {
    hide Inv, Sound, AddCharge, BumpGenerations, FirstFailing, SpendOf, WellFormed, Duplicate, Admits;
    CallStep(st, Event.Acquire(c, row, specs, key));
    SameAcquire(st, c, row, specs, key);
  }

  lemma SameAcquire(st: State, c: nat, row: Activation, specs: seq<Spec>, key: Option<string>)
    requires Enabled(st, Event.Acquire(c, row, specs, key))
    ensures Next(st, Event.Acquire(c, row, specs, key)) == AfterAcquire(st, c, row, specs, key, Spends(st, row, specs, key))
  {
    hide AddCharge, BumpGenerations, FirstFailing, SpendOf, WellFormed, Duplicate, Admits;
    var k := AcquireKey(row, specs, key);
    assert k.None? ==> st.idem + {} == st.idem;
  }

  /** The machine's second script, field by field. */
  function AfterRetry(st: State, c: nat, row: Activation, specs: seq<Spec>, key: Option<string>, dup: bool): State
  {
    st.(levels := if dup then st.levels else AddCharge(st.levels, row.charge),
        generations := if dup then st.generations else BumpGenerations(st.generations, row.charge),
        idem := if dup then st.idem else WithKey(st.idem, AcquireKey(row, specs, key)),
        calls := st.calls[c := Spent(row)],
        phantom := if dup then AddCharge(st.phantom, row.charge) else st.phantom)
  }

  lemma RetryLeaves(st: State, c: nat, row: Activation, specs: seq<Spec>, key: Option<string>)
    requires Enabled(st, Event.ShadowRetry(c, row, specs, key))
    ensures Next(st, Event.ShadowRetry(c, row, specs, key)) == AfterRetry(st, c, row, specs, key, Duplicate(st, row, specs, key))
  {
    hide AddCharge, BumpGenerations, NewRow, AcquireKey;
    var k := AcquireKey(row, specs, key);
    assert k.None? ==> st.idem + {} == st.idem;
  }

  lemma RetryStep(st: State, c: nat, row: Activation, specs: seq<Spec>, key: Option<string>)
    requires Sound(st) && st.listings == map[] && NewRow(st, row, specs)
    requires c in st.calls && st.calls[c] == TurnedDown(row, specs, key)
    ensures var e, dup := Event.ShadowRetry(c, row, specs, key), Duplicate(st, row, specs, key);
            && Enabled(st, e) && Next(st, e) == AfterRetry(st, c, row, specs, key, dup)
            && Sound(Next(st, e)) && (Inv(st) && !dup ==> Inv(Next(st, e)))
  {
    hide Sound, Inv, NewRow, Duplicate, AfterRetry;
    var e := Event.ShadowRetry(c, row, specs, key);
    assert Enabled(st, e);
    hide Next, Enabled;
    RetryLeaves(st, c, row, specs, key);
    NextSound(st, e);
    if !Duplicate(st, row, specs, key) {
      CallStep(st, e);
    }
  }

  /** A decrement of a running release: its latch is free. */
  lemma DecrementFrame(st: State, c: nat, rk: Resource)
    requires ClaimsSound(st.rows, st.calls, st.claims) && Enabled(st, Decrement(c, rk))
    ensures var left := st.calls[c].left;
            Next(st, Decrement(c, rk)) ==
              st.(claims := st.claims + {Claim(st.calls[c].id, rk, Generation(st.generations, left, rk))},
                  levels := Subtract(st.levels, left.org, left.user, rk, left.spend[rk]),
                  phantom := Forgiven(st.phantom, st.levels, left.org, left.user, rk, left.spend[rk]),
                  calls := st.calls[c := Releasing(st.calls[c].id, left.(spend := left.spend - {rk}))])
  {
    hide Subtract, Forgiven, Generation, FirstFailing, AddCharge, BumpGenerations, WriteSlot, SettleRow, Accounted;
  }

  // ---- Levels written from the truth ---------------------------------------------------------------------

  /** The orphans after the levels were written over: what the rows and calls do not account for. */
  function Rebalanced(orphan: Levels, before: Levels, after: Levels): Levels
  {
    map s | s in orphan.Keys + before.Keys + after.Keys :: Level(orphan, s) + Level(after, s) - Level(before, s)
  }

  lemma RebalancedReads(orphan: Levels, before: Levels, after: Levels)
    ensures forall s :: Level(Rebalanced(orphan, before, after), s) == Level(orphan, s) + Level(after, s) - Level(before, s)
  {
  }

  /** The levels hold at least what rows and calls account for. */
  ghost predicate Covered(st: State, m: Levels) { forall s :: Committed(st, s) <= Level(m, s) }

  lemma RebalanceKeeps(st: State, after: Levels)
    requires Sound(st) && st.listings == map[]
    ensures var st' := st.(levels := after, orphan := Rebalanced(st.orphan, st.levels, after));
            Sound(st') && (Inv(st) ==> (Inv(st') <==> Covered(st, after)))
  {
    hide Sound, Accounted;
    var st' := st.(levels := after, orphan := Rebalanced(st.orphan, st.levels, after));
    SoundApart(st, st');
    if Inv(st) {
      forall s ensures Balanced(st', s) && Backed(st', s) <==> Committed(st, s) <= Level(after, s) {
        assert Balanced(st, s) && Committed(st', s) == Committed(st, s);
      }
    }
  }

  /** A refused script accounts for nothing new. */
  lemma RefusedCommits(st: State, c: nat, row: Activation, specs: seq<Spec>, key: Option<string>, m: Levels)
    requires Sound(st) && Enabled(st, Event.Acquire(c, row, specs, key)) && !Spends(st, row, specs, key)
    ensures Covered(Next(st, Event.Acquire(c, row, specs, key)), m) <==> Covered(st, m)
  {
    hide Sound, Next, Enabled, Spends, Accounted;
    var e := Event.Acquire(c, row, specs, key);
    forall s ensures Committed(Next(st, e), s) == Committed(st, s) {
      CommittedMoves(st, e, s);
    }
  }

  /** Levels and orphans play no part in what holds of the rows, calls and latches. */
  lemma SoundApart(st: State, st': State)
    requires st' == st.(levels := st'.levels, orphan := st'.orphan)
    ensures Sound(st') <==> Sound(st)
  {
  }

  /** Without a source an acquire starts from the levels as they are. */
  lemma UncheckedStays(p: Policy, st: State, org: Org, user: Option<User>, bundle: Option<seq<Resource>>)
    ensures DecideWith(p, st.levels, NoSource, org, user, bundle).1 == st.levels
    ensures Inv(st) ==> Covered(st, st.levels)
  {
    hide Inv, Decide;
    if Inv(st) {
      KeptIsCovered(st);
    }
  }

  lemma KeptIsCovered(st: State)
    requires Inv(st)
    ensures Covered(st, st.levels)
  {
    hide Sound, Accounted;
    forall s ensures Committed(st, s) <= Level(st.levels, s) {
      assert Balanced(st, s) && Backed(st, s);
    }
  }

  /** A step of one call, no pass over the ledger running. */
  lemma CallStep(st: State, e: Event)
    requires Sound(st) && st.listings == map[] && Enabled(st, e) && !e.ListIds? && !e.ProviderWrite? && !Haunts(st, e)
    ensures Sound(Next(st, e))
    ensures Inv(st) ==> Inv(Next(st, e))
  {
    hide Sound, Next, Covers, FirstFailing, Spends, Haunts, Balanced, Level;
    NextSound(st, e);
    if Inv(st) {
      NextInv(st, e);
      assert forall s :: Haunting(st, e, s) == 0.0 && Backed(st, s);
    }
  }

  /** What a whole release does to a slot: off comes the charge, but not below zero. */
  function Taken(level: real, c: Charge, s: Slot): real
  {
    if Charged(c, s) then Max0(level - c.spend[s.rk]) else level
  }

  predicate Charged(c: Charge, s: Slot)
  {
    s.org == c.org && s.rk in c.spend && (s.UserSlot? ==> c.user == Some(s.user))
  }

  lemma TakenExactly(level: real, c: Charge, s: Slot)
    requires level >= Weight(c, s)
    ensures Taken(level, c, s) == level - Weight(c, s)
  {
  }

  /** What is left of a charge is a part of it. */
  predicate PartOf(left: Charge, c: Charge)
  {
    left.org == c.org && left.user == c.user && left.spend.Keys <= c.spend.Keys
    && forall rk <- left.spend :: left.spend[rk] == c.spend[rk]
  }

  /** The same while some gauges are still left to take. */
  function TakenBut(level: real, c: Charge, left: Charge, s: Slot): real
  {
    if s.rk in left.spend then level else Taken(level, c, s)
  }

  lemma TakeOne(m: Levels, before: Levels, c: Charge, left: Charge, rk: Resource)
    requires PartOf(left, c) && rk in left.spend
    requires forall s :: Level(m, s) == TakenBut(Level(before, s), c, left, s)
    ensures PartOf(left.(spend := left.spend - {rk}), c)
    ensures forall s :: Level(Subtract(m, left.org, left.user, rk, left.spend[rk]), s)
              == TakenBut(Level(before, s), c, left.(spend := left.spend - {rk}), s)
  {
    var rest := left.(spend := left.spend - {rk});
    forall s ensures Level(Subtract(m, left.org, left.user, rk, left.spend[rk]), s) == TakenBut(Level(before, s), c, rest, s) {
      TakeOneAt(m, before, c, left, rk, s);
    }
  }

  lemma TakeOneAt(m: Levels, before: Levels, c: Charge, left: Charge, rk: Resource, s: Slot)
    requires PartOf(left, c) && rk in left.spend && Level(m, s) == TakenBut(Level(before, s), c, left, s)
    ensures Level(Subtract(m, left.org, left.user, rk, left.spend[rk]), s)
         == TakenBut(Level(before, s), c, left.(spend := left.spend - {rk}), s)
  {
    assert s.OrgSlot? ==> s == OrgSlot(s.org, s.rk);
    assert s.UserSlot? ==> s == UserSlot(s.org, s.rk, s.user);
  }

  lemma NothingTaken(before: Levels, c: Charge)
    ensures forall s :: Level(before, s) == TakenBut(Level(before, s), c, c, s)
  {
  }

  /** A marked release is covered by the levels, so none of it is lost at the floor. */
  lemma ReleaseCovered(st: State, c: nat, s: Slot)
    requires Inv(st) && c in st.calls && st.calls[c].Releasing?
    ensures Level(st.levels, s) >= Weight(st.calls[c].left, s)
  {
    LevelCoversPending(st, c, s);
    OpenSumNonNegative(st.rows, s);
  }

  /** Where the levels are kept, all of a marked release can be taken. */
  lemma ReleaseExact(st: State, c: nat, charge: Charge)
    requires Inv(st) && c in st.calls && st.calls[c].Releasing? && st.calls[c].left == charge
    ensures forall s :: Taken(Level(st.levels, s), charge, s) == Level(st.levels, s) - Weight(charge, s)
  {
    hide Inv, Taken, Weight;
    forall s ensures Taken(Level(st.levels, s), charge, s) == Level(st.levels, s) - Weight(charge, s) {
      ReleaseCovered(st, c, s);
      TakenExactly(Level(st.levels, s), charge, s);
    }
  }

  /** What the checks of a bundle come to. */
  lemma BatchLeaves(p: Policy, m: Levels, m': Levels, denied: seq<Resource>, truth: Truth, org: Org, user: Option<User>,
                    keys: seq<Resource>)
    requires keys != [] && (denied, m') == CheckEach(p, m, truth, org, user, keys)
    ensures (denied == []) == CheckAllows(p, m, truth, org, user, Some(keys))
    ensures denied == DeniedResources(p, m, truth, org, user, keys)
    ensures forall rk :: AsChecked(p, m, m', truth, org, user, rk, rk in keys)
    ensures forall s: Slot | s.org != org :: Level(m', s) == Level(m, s)
  {
    hide Denied, Admission.Check, DeniedResources, AsChecked, CheckEach, Level;
    BatchIsEachAlone(p, m, truth, org, user, keys);
    NoneDenied(p, m, truth, org, user, keys);
  }

  /** Is a bundle admitted in the end, and on which levels? */
  function AdmitsWith(p: Policy, m: Levels, truth: Truth, org: Org, user: Option<User>, specs: seq<Spec>): (bool, Levels)
  {
    if !p.knobs.enabled || p.knobs.shadow || FirstFailing(m, org, user, specs).None? then (true, m)
    else if truth.NoSource? then (false, m)
    else Admission.RecountAcquire(m, truth, org, user, specs)
  }

  /** Past the preamble, this is the decision with the recount. */
  lemma AdmitsAsDecided(p: Policy, m: Levels, truth: Truth, org: Org, user: Option<User>, bundle: Option<seq<Resource>>)
    requires !RefusedUpFront(p, bundle)
    ensures var specs := GaugeSpecs(p, KeysOf(bundle), user, {});
            var (ok, m') := AdmitsWith(p, m, truth, org, user, specs);
            var (v, m'') := DecideWith(p, m, truth, org, user, bundle);
            && m' == m'' && (v.Spend? <==> ok)
            && (!ok ==> FirstFailing(m', org, user, specs).Some?
                        && v == Refused(Some(specs[FirstFailing(m', org, user, specs).value].rk)))
  {
    hide GaugeSpecs, FirstFailing;
  }

  /** The preamble refuses exactly what is decided without naming a resource: these knobs, and nothing else. */
  lemma RefusedUpFrontIff(p: Policy, m: Levels, truth: Truth, org: Org, user: Option<User>, bundle: Option<seq<Resource>>)
    ensures RefusedUpFront(p, bundle) <==>
              || p.knobs.kill || (p.knobs.enabled && p.tier.None?)
              || (bundle.None? && p.knobs.enabled && !p.knobs.shadow && !p.knobs.allowUnknownBundle)
    ensures RefusedUpFront(p, bundle) <==> DecideWith(p, m, truth, org, user, bundle).0 == Refused(None)
    ensures RefusedUpFront(p, bundle) ==> DecideWith(p, m, truth, org, user, bundle).1 == m
  {
    hide GaugeSpecs, RepairAll, AnyDrift;
  }

  /** Under a key that is not held, or none, the engine's acquire ends as decided, refusals up front and all. */
  lemma FreshAcquireAsDecided(p: Policy, m: Levels, truth: Truth, org: Org, user: Option<User>, bundle: Option<seq<Resource>>,
                              idem: set<IdemKey>, key: Option<string>, id: Id, persists: bool)
    requires ReplayKey(org, user, p, bundle, key).None? || ReplayKey(org, user, p, bundle, key).value !in idem
    ensures var (v, m') := DecideWith(p, m, truth, org, user, bundle);
            AcquireOutcome(p, m, truth, idem, org, user, bundle, key, id, persists)
              == (if v.Refused? then NotAdmitted(v.resource) else if persists then Admitted(Some(id)) else PersistFailed, m')
  {
    RefusedUpFrontIff(p, m, truth, org, user, bundle);
    hide DecideWith, ReplayKey, RefusedUpFront;
  }

  /** Is the row's bundle admitted, and on which levels? A replay is, on the levels as they are. */
  function AdmissionOf(st: State, p: Policy, truth: Truth, row: Activation, specs: seq<Spec>, dup: bool): (bool, Levels)
  {
    if dup then (true, st.levels) else AdmitsWith(p, st.levels, truth, row.charge.org, row.charge.user, specs)
  }

  /**
   The levels m', where they come from the truth, and the charge on top if it was taken; as orphans, what m'
   is beyond the levels before, and a charge that was lost. The machine's invariant is kept if m' covers what
   rows and calls account for.
   */
  ghost predicate LeavesLevels(st: State, st': State, m': Levels, charge: Charge, took: bool, lost: bool)
  {
    && st'.claims == st.claims && st'.levels == (if took then AddCharge(m', charge) else m')
    && (forall s :: Level(st'.orphan, s) == Level(st.orphan, s) + Level(m', s) - Level(st.levels, s)
                      + if lost then Weight(charge, s) else 0.0)
    && (Inv(st) && Covered(st, m') ==> Inv(st'))
  }

  /** What an admission, refused, replayed or spent, and its row leave of a state. */
  ghost predicate LeftByAdmission(st: State, st': State, p: Policy, truth: Truth, row: Activation, specs: seq<Spec>,
                                  key: Option<string>, persists: bool, admitted: bool, dup: bool, failing: nat)
  {
    var (ok, m') := AdmissionOf(st, p, truth, row, specs, dup);
    var took := ok && !dup;
    && admitted == ok && (!ok ==> FirstFailing(m', row.charge.org, row.charge.user, specs) == Some(failing))
    && LeavesLevels(st, st', m', row.charge, took, took && !persists)
    && st'.rows == (if took && persists then st.rows[row.id := row] else st.rows)
    && st'.idem == (if took then WithKey(st.idem, AcquireKey(row, specs, key)) else st.idem)
  }

  /** The row, written or lost, after what the admission itself has left. */
  lemma PersistLeaves(st: State, spent: State, st': State, p: Policy, truth: Truth, row: Activation, specs: seq<Spec>,
                      key: Option<string>, persists: bool, admitted: bool, dup: bool, failing: nat)
    requires var (ok, m') := AdmissionOf(st, p, truth, row, specs, dup);
             && admitted == ok && (Inv(st) && Covered(st, m') ==> Inv(spent))
             && spent.levels == (if ok && !dup then AddCharge(m', row.charge) else m')
             && (!ok ==> FirstFailing(m', row.charge.org, row.charge.user, specs) == Some(failing))
             && (forall s :: Level(spent.orphan, s) == Level(st.orphan, s) + Level(m', s) - Level(st.levels, s))
    requires spent.claims == st.claims && spent.rows == st.rows && row.id !in st.rows
    requires spent.idem == if admitted && !dup then WithKey(st.idem, AcquireKey(row, specs, key)) else st.idem
    requires st'.levels == spent.levels && st'.claims == spent.claims && st'.idem == spent.idem && (Inv(spent) ==> Inv(st'))
    requires st'.rows == if admitted && !dup && persists then PutOpen(spent.rows, row) else spent.rows
    requires st'.orphan == if admitted && !dup && !persists then AddCharge(spent.orphan, row.charge) else spent.orphan
    ensures LeftByAdmission(st, st', p, truth, row, specs, key, persists, admitted, dup, failing)
  {
    hide Inv, Covered, AddCharge, FirstFailing, Level, Weight, AdmissionOf, WithKey, AcquireKey;
    OrphanAfter(spent.orphan, row.charge);
  }

  /**
   How an acquire ends, and what it leaves: the levels of the truth where a denial was recounted, plus the
   charge if it took any; the OPEN row, unless it was lost; the key, held from then on. Without a source the
   machine's invariant is always kept.
   */
  ghost predicate AcquireLeaves(st: State, st': State, p: Policy, truth: Truth, org: Org, user: Option<User>,
                                bundle: Option<seq<Resource>>, name: string, key: Option<string>, id: Id, now: nat,
                                persists: bool, r: AcquireResult)
  {
    var (outcome, m') := AcquireOutcome(p, st.levels, truth, st.idem, org, user, bundle, key, id, persists);
    var charge := ChargeOf(p, org, user, bundle);
    && r == outcome && LeavesLevels(st, st', m', charge, Took(r), r.PersistFailed?)
    && st'.rows == (if Took(r) && !r.PersistFailed? then st.rows[id := Activation(id, charge, name, now, Open, None)]
                    else st.rows)
    && st'.idem == (if Took(r) then WithKey(st.idem, ReplayKey(org, user, p, bundle, key)) else st.idem)
    && (Took(r) && HasKey(key) && KeysOf(bundle) != [] ==> Replayed(st'.idem, org, user, p, bundle, key))
    && (truth.NoSource? && Inv(st) ==> Inv(st'))
  }

  function ResultOf(id: Id, specs: seq<Spec>, persists: bool, admitted: bool, dup: bool, failing: nat): AcquireResult
    requires !admitted ==> failing < |specs|
  {
    if !admitted then NotAdmitted(Some(specs[failing].rk))
    else if dup then Admitted(None)
    else if persists then Admitted(Some(id)) else PersistFailed
  }

  lemma RefusalLeaves(st: State, p: Policy, truth: Truth, org: Org, user: Option<User>, bundle: Option<seq<Resource>>,
                      name: string, key: Option<string>, id: Id, now: nat, persists: bool)
    requires RefusedUpFront(p, bundle)
    ensures AcquireLeaves(st, st, p, truth, org, user, bundle, name, key, id, now, persists, NotAdmitted(None))
  {
    hide Inv, Covered, ChargeOf, Level, RefusedUpFront;
  }

  /** A held key is a replay. */
  lemma ReplayedIsDuplicate(st: State, p: Policy, bundle: Option<seq<Resource>>, row: Activation, specs: seq<Spec>,
                            key: Option<string>)
    requires specs == GaugeSpecs(p, KeysOf(bundle), row.charge.user, {})
    ensures Replayed(st.idem, row.charge.org, row.charge.user, p, bundle, key) <==> Duplicate(st, row, specs, key)
    ensures ReplayKey(row.charge.org, row.charge.user, p, bundle, key) == AcquireKey(row, specs, key)
    ensures HasKey(key) && KeysOf(bundle) != [] ==>
              Replayed(WithKey(st.idem, AcquireKey(row, specs, key)), row.charge.org, row.charge.user, p, bundle, key)
  {
    BundleHasSpecs(p, KeysOf(bundle), row.charge.user);
    hide GaugeSpecs;
  }

  /** The outcome of an acquire past its preamble is that of its admission. */
  lemma OutcomeOfAdmission(st: State, p: Policy, truth: Truth, bundle: Option<seq<Resource>>, row: Activation,
                           specs: seq<Spec>, key: Option<string>, persists: bool, admitted: bool, dup: bool, failing: nat)
    requires !RefusedUpFront(p, bundle) && specs == GaugeSpecs(p, KeysOf(bundle), row.charge.user, {})
    requires dup == Duplicate(st, row, specs, key)
    requires var (ok, m') := AdmissionOf(st, p, truth, row, specs, dup);
             admitted == ok && (!ok ==> FirstFailing(m', row.charge.org, row.charge.user, specs) == Some(failing))
    ensures !admitted ==> failing < |specs|
    ensures AcquireOutcome(p, st.levels, truth, st.idem, row.charge.org, row.charge.user, bundle, key, row.id, persists)
         == (ResultOf(row.id, specs, persists, admitted, dup, failing), AdmissionOf(st, p, truth, row, specs, dup).1)
  {
    AdmitsAsDecided(p, st.levels, truth, row.charge.org, row.charge.user, bundle);
    ReplayedIsDuplicate(st, p, bundle, row, specs, key);
    hide GaugeSpecs, FirstFailing, AdmitsWith, DecideWith, Replayed, ReplayKey, Duplicate, WithKey, AcquireKey, RefusedUpFront;
  }

  lemma AdmissionLeaves(st: State, st': State, p: Policy, truth: Truth, bundle: Option<seq<Resource>>, row: Activation,
                        specs: seq<Spec>, key: Option<string>, persists: bool, admitted: bool, dup: bool, failing: nat)
    requires !RefusedUpFront(p, bundle) && specs == GaugeSpecs(p, KeysOf(bundle), row.charge.user, {})
    requires row.charge.spend == SpendOf(specs) && row.state == Open && row.cost == None
    requires dup == Duplicate(st, row, specs, key)
    requires LeftByAdmission(st, st', p, truth, row, specs, key, persists, admitted, dup, failing)
    ensures !admitted ==> failing < |specs|
    ensures AcquireLeaves(st, st', p, truth, row.charge.org, row.charge.user, bundle, row.bundle, key, row.id, row.openedAt,
                          persists, ResultOf(row.id, specs, persists, admitted, dup, failing))
  {
    assert ChargeOf(p, row.charge.org, row.charge.user, bundle) == row.charge;
    KeptWithoutSource(st, st', p, truth, row, specs, dup, admitted && !dup, admitted && !dup && !persists);
    hide LeavesLevels, Inv, FirstFailing, GaugeSpecs, SpendOf, AdmissionOf, Replayed, ReplayKey, ChargeOf, Duplicate,
         WithKey, AcquireKey, RefusedUpFront, AcquireOutcome, KeysOf, Took, ResultOf;
    OutcomeOfAdmission(st, p, truth, bundle, row, specs, key, persists, admitted, dup, failing);
    ReplayedIsDuplicate(st, p, bundle, row, specs, key);
    ResultMeans(row.id, specs, persists, admitted, dup, failing);
    assert row == Activation(row.id, row.charge, row.bundle, row.openedAt, Open, None);
  }

  lemma ResultMeans(id: Id, specs: seq<Spec>, persists: bool, admitted: bool, dup: bool, failing: nat)
    requires !admitted ==> failing < |specs|
    ensures var r := ResultOf(id, specs, persists, admitted, dup, failing);
            && (Took(r) <==> admitted && !dup) && (r.PersistFailed? <==> admitted && !dup && !persists)
  {
  }

  lemma KeptWithoutSource(st: State, st': State, p: Policy, truth: Truth, row: Activation, specs: seq<Spec>, dup: bool,
                          took: bool, lost: bool)
    requires LeavesLevels(st, st', AdmissionOf(st, p, truth, row, specs, dup).1, row.charge, took, lost)
    ensures truth.NoSource? && Inv(st) ==> Inv(st')
  {
    hide Inv, Covered;
    if Inv(st) {
      KeptIsCovered(st);
    }
  }

  lemma OrphanAfter(orphan: Levels, c: Charge)
    ensures forall s :: Level(AddCharge(orphan, c), s) == Level(orphan, s) + Weight(c, s)
  {
    hide AddCharge;
    forall s ensures Level(AddCharge(orphan, c), s) == Level(orphan, s) + Weight(c, s) {
      LevelAfterAdd(orphan, c, s);
    }
  }

  lemma DropLimitsKey(row: Activation, specs: seq<Spec>, key: Option<string>)
    ensures AcquireKey(row, DropLimits(specs), key) == AcquireKey(row, specs, key)
  {
  }

  lemma EachNext(p: Policy, m: Levels, truth: Truth, org: Org, user: Option<User>, keys: seq<Resource>, k: nat)
    requires k < |keys|
    ensures var (denied, m1) := CheckEach(p, m, truth, org, user, keys[..k]);
            var (d, m2) := Admission.Check(p, m1, truth, org, user, keys[k], 1.0);
            CheckEach(p, m, truth, org, user, keys[..k + 1]) == (denied + (if Denied(d) then [keys[k]] else []), m2)
  {
    hide Admission.Check, Denied;
    assert keys[..k + 1][..k] == keys[..k] && keys[..k + 1][k] == keys[k];
  }

  lemma {:induction false} NoneDenied(p: Policy, m: Levels, truth: Truth, org: Org, user: Option<User>, keys: seq<Resource>)
    ensures DeniedResources(p, m, truth, org, user, keys) == []
       <==> forall i | 0 <= i < |keys| :: !Denied(Admission.Check(p, m, truth, org, user, keys[i], 1.0).0)
  {
    hide Admission.Check, Denied;
    if keys != [] {
      NoneDenied(p, m, truth, org, user, keys[1..]);
      assert forall i | 1 <= i < |keys| :: keys[i] == keys[1..][i - 1];
    }
  }

  function WithKey(idem: set<IdemKey>, k: Option<IdemKey>): set<IdemKey> { if k.Some? then idem + {k.value} else idem }

  class QuotaEngine {
    const cache: GaugeCache
    const store: InMemoryActivationStore
    var generations: map<Slot, nat>
    var claims: set<Claim>
    var idem: set<IdemKey>
    ghost var calls: map<nat, Call>
    ghost var orphan: Levels
    ghost var phantom: Levels
    ghost var nextCall: nat

    ghost function Snapshot(): State
      reads this, cache, store
    {
      State(cache.levels, generations, claims, idem, store.rows, calls, map[], orphan, phantom)
    }

    /** Rows, calls and latches fit together, whatever the levels are. */
    ghost predicate Valid()
      reads this, cache, store
    {
      Sound(Snapshot()) && Numbered(calls, nextCall)
    }

    /** And every level is accounted for: the machine's invariant. */
    ghost predicate Kept()
      reads this, cache, store
    {
      Inv(Snapshot())
    }

    constructor (cache: GaugeCache, store: InMemoryActivationStore)
      requires cache.levels == map[] && store.rows == map[]
      ensures this.cache == cache && this.store == store && Valid() && Kept()
    {
      this.cache, this.store := cache, store;
      generations, claims, idem, calls, orphan, phantom, nextCall := map[], {}, {}, map[], map[], map[], 0;
      new;
      InitialInv();
    }

    /** The writes of one script, all at once. */
    method Write(levels: Levels, generations': map<Slot, nat>, idem': set<IdemKey>, ghost call: Call)
      modifies this`generations, this`idem, this`calls, this`nextCall, cache
      ensures cache.levels == levels && generations == generations' && idem == idem'
      ensures calls == old(calls)[old(nextCall) := call] && nextCall == old(nextCall) + 1
    {
      cache.levels, generations, idem := levels, generations', idem';
      calls, nextCall := calls[nextCall := call], nextCall + 1;
    }

    /** One run of the atomic bundle script. */
    method Spend(row: Activation, specs: seq<Spec>, key: Option<string>)
      returns (admitted: bool, dup: bool, failing: nat)
      requires Valid() && FreshId(Snapshot(), row.id) && WellFormed(specs)
      requires row.state == Open && row.cost == None && row.charge.spend == SpendOf(specs)
      modifies this, cache
      ensures Valid() && nextCall == old(nextCall) + 1 && (old(Kept()) ==> Kept())
      ensures Snapshot() == Next(old(Snapshot()), Event.Acquire(old(nextCall), row, specs, key))
      ensures SpendAnswers(old(Snapshot()), row, specs, key, admitted, dup, failing)
    {
      hide Inv, Sound, Next, Enabled, Numbered, AddCharge, AcquireKey, FirstFailing, BumpGenerations, WellFormed, SpendOf, FreshId;
      ghost var st, c := Snapshot(), nextCall;
      NumberedNext(calls, c, Finished);
      AcquireStep(st, c, row, specs, key);
      var k := AcquireKey(row, specs, key);
      var first := FirstFailing(cache.levels, row.charge.org, row.charge.user, specs);
      dup := k.Some? && k.value in idem;
      admitted := dup || first.None?;
      failing := if first.Some? then first.value else 0;
      var spends := !dup && first.None?;
      ghost var call := if spends then Spent(row) else if dup then Finished else TurnedDown(row, specs, key);
      NumberedNext(calls, c, call);
      Write(if spends then AddCharge(cache.levels, row.charge) else cache.levels,
            if spends then BumpGenerations(generations, row.charge) else generations,
            if spends then WithKey(idem, k) else idem, call);
    }

    /** The same, in the engine's own terms: all or nothing. */
    method SpendOnce(row: Activation, specs: seq<Spec>, key: Option<string>)
      returns (admitted: bool, dup: bool, failing: nat, ghost c: nat)
      requires Valid() && FreshId(Snapshot(), row.id) && WellFormed(specs)
      requires row.state == Open && row.cost == None && row.charge.spend == SpendOf(specs)
      modifies this, cache
      ensures Valid() && (old(Kept()) ==> Kept()) && claims == old(claims) && orphan == old(orphan)
      ensures SpendAnswers(old(Snapshot()), row, specs, key, admitted, dup, failing)
      ensures !admitted ==> c in calls && calls[c] == TurnedDown(row, specs, key)
      ensures admitted && !dup ==>
                && cache.levels == AddCharge(old(cache.levels), row.charge)
                && idem == WithKey(old(idem), AcquireKey(row, specs, key))
                && c in calls && calls[c] == Spent(row)
      ensures !admitted || dup ==>
                && cache.levels == old(cache.levels) && idem == old(idem) && FreshId(Snapshot(), row.id)
                && forall m :: Covered(Snapshot(), m) <==> Covered(old(Snapshot()), m)
    {
      hide Inv, Sound, Next, Enabled, FreshId, AddCharge, FirstFailing, BumpGenerations, WellFormed, SpendOf, Numbered,
           AcquireKey, Covered;
      c := nextCall;
      ghost var st := Snapshot();
      NumberedNext(calls, c, Finished);
      AcquireStep(st, c, row, specs, key);
      if !Spends(st, row, specs, key) {
        forall m ensures Covered(Next(st, Event.Acquire(c, row, specs, key)), m) <==> Covered(st, m) {
          RefusedCommits(st, c, row, specs, key, m);
        }
      }
      admitted, dup, failing := Spend(row, specs, key);
    }

    /** Without limits it refuses nothing. */
    method SpendDropped(row: Activation, specs: seq<Spec>, key: Option<string>) returns (dup: bool, ghost c: nat)
      requires Valid() && FreshId(Snapshot(), row.id) && WellFormed(specs)
      requires row.state == Open && row.cost == None && row.charge.spend == SpendOf(specs)
      modifies this, cache
      ensures Valid() && (old(Kept()) ==> Kept()) && claims == old(claims) && orphan == old(orphan)
      ensures dup == Duplicate(old(Snapshot()), row, specs, key)
      ensures !dup ==> c in calls && calls[c] == Spent(row) && idem == WithKey(old(idem), AcquireKey(row, specs, key))
      ensures dup ==> idem == old(idem)
      ensures cache.levels == if dup then old(cache.levels) else AddCharge(old(cache.levels), row.charge)
    {
      DropLimitsSpends(specs);
      DropLimitsFit(cache.levels, row.charge.org, row.charge.user, specs);
      DropLimitsKey(row, specs, key);
      hide Inv, Sound, FreshId, AddCharge, FirstFailing, WellFormed, SpendOf, Numbered, Covered, AcquireKey;
      var admitted, failing;
      admitted, dup, failing, c := SpendOnce(row, DropLimits(specs), key);
    }

    /**
     The second script of an acquire in shadow mode. Its answer is overwritten: a replay is an admission too,
     with nothing spent.
     */
    method ShadowSpend(ghost c: nat, row: Activation, specs: seq<Spec>, key: Option<string>)
      requires Valid() && c in calls && calls[c] == TurnedDown(row, specs, key) && NewRow(Snapshot(), row, specs)
      modifies this`generations, this`idem, this`calls, this`phantom, cache
      ensures Valid() && Snapshot() == Next(old(Snapshot()), Event.ShadowRetry(c, row, specs, key))
      ensures old(Kept()) && !Duplicate(old(Snapshot()), row, specs, key) ==> Kept()
    {
      hide Inv, Sound, AddCharge, AcquireKey, FirstFailing, BumpGenerations, NewRow, Next, Enabled, Numbered, DropLimits;
      DropLimitsKey(row, specs, key);
      DropLimitsFit(cache.levels, row.charge.org, row.charge.user, specs);
      RetryStep(Snapshot(), c, row, specs, key);
      NumberedAgain(calls, nextCall, c, Spent(row));
      var k := AcquireKey(row, DropLimits(specs), key);
      var dup := k.Some? && k.value in idem;
      phantom := if dup then AddCharge(phantom, row.charge) else phantom;
      if !dup && FirstFailing(cache.levels, row.charge.org, row.charge.user, DropLimits(specs)).None? {
        cache.levels := AddCharge(cache.levels, row.charge);
        generations, idem := BumpGenerations(generations, row.charge), WithKey(idem, k);
      }
      calls := calls[c := Spent(row)];
    }

    /** So a denial in shadow mode spends the bundle, if the key is not held. */
    method SpendInShadow(ghost c: nat, row: Activation, specs: seq<Spec>, key: Option<string>)
      requires Valid() && c in calls && calls[c] == TurnedDown(row, specs, key)
      requires FreshId(Snapshot(), row.id) && WellFormed(specs) && !Duplicate(Snapshot(), row, specs, key)
      requires row.state == Open && row.cost == None && row.charge.spend == SpendOf(specs)
      modifies this, cache
      ensures Valid() && (old(Kept()) ==> Kept()) && claims == old(claims) && orphan == old(orphan)
      ensures c in calls && calls[c] == Spent(row) && idem == WithKey(old(idem), AcquireKey(row, specs, key))
      ensures cache.levels == AddCharge(old(cache.levels), row.charge)
    {
      RetryLeaves(Snapshot(), c, row, specs, key);
      hide Inv, Sound, FreshId, AddCharge, WellFormed, SpendOf, Next, Enabled, AcquireKey, Duplicate;
      ShadowSpend(c, row, specs, key);
    }

    /** The repair loop of the recount: each drifted gauge that the source reports. */
    method RepairDrift(usage: map<Resource, Usage>, org: Org, specs: seq<Spec>) returns (repairedAny: bool)
      requires Distinct(specs)
      modifies cache
      ensures repairedAny == AnyDrift(old(cache.levels), usage, org, specs)
      ensures cache.levels == RepairAll(old(cache.levels), usage, org, specs)
      ensures !repairedAny ==> cache.levels == old(cache.levels)
    {
      hide Reset, Near;
      repairedAny := false;
      for i := 0 to |specs|
        invariant RepairAll(old(cache.levels), usage, org, specs) == RepairAll(cache.levels, usage, org, specs[i..])
        invariant AnyDrift(old(cache.levels), usage, org, specs) <==>
          repairedAny || AnyDrift(cache.levels, usage, org, specs[i..])
        invariant !repairedAny ==> cache.levels == old(cache.levels)
      {
        var rk := specs[i].rk;
        assert specs[i..][0] == specs[i] && specs[i..][1..] == specs[i + 1..];
        DriftAhead(cache.levels, usage, org, specs[i..]);
        if rk in usage && !Near(usage[rk].total, Level(cache.levels, OrgSlot(org, rk))) {
          var _ := cache.RepairToTruth(org, rk, usage[rk].total, usage[rk].users);
          repairedAny := true;
        }
      }
    }

    /** The loop, and the books after it. */
    method RepairToTruth(usage: map<Resource, Usage>, org: Org, specs: seq<Spec>) returns (repairedAny: bool)
      requires Valid() && Distinct(specs)
      modifies cache, this`orphan
      ensures Valid() && repairedAny == AnyDrift(old(cache.levels), usage, org, specs)
      ensures cache.levels == RepairAll(old(cache.levels), usage, org, specs)
      ensures !repairedAny ==> cache.levels == old(cache.levels)
      ensures old(Kept() && Covered(Snapshot(), RepairAll(cache.levels, usage, org, specs))) ==> Kept()
      ensures forall s :: Level(orphan, s) == Level(old(orphan), s) + Level(cache.levels, s) - Level(old(cache.levels), s)
    {
      hide Inv, Sound, Numbered, RepairAll, AnyDrift, Rebalanced, Level, Covered;
      ghost var st := Snapshot();
      repairedAny := RepairDrift(usage, org, specs);
      RebalanceKeeps(st, cache.levels);
      RebalancedReads(orphan, st.levels, cache.levels);
      orphan := Rebalanced(orphan, st.levels, cache.levels);
    }

    /** The source has answered: repair what has drifted and, if anything had, run the script once more. */
    method RepairAndSpend(usage: map<Resource, Usage>, row: Activation, specs: seq<Spec>, key: Option<string>, denied: nat)
      returns (admitted: bool, failing: nat, ghost c: nat)
      requires Valid() && FreshId(Snapshot(), row.id) && WellFormed(specs) && !Duplicate(Snapshot(), row, specs, key)
      requires row.state == Open && row.cost == None && row.charge.spend == SpendOf(specs)
      requires FirstFailing(cache.levels, row.charge.org, row.charge.user, specs) == Some(denied)
      modifies this, cache
      ensures Valid() && claims == old(claims)
      ensures var (ok, m') := Admission.RecountAcquire(old(cache.levels), Observed(usage), row.charge.org, row.charge.user, specs);
              && admitted == ok && (old(Kept()) && Covered(old(Snapshot()), m') ==> Kept())
              && cache.levels == (if ok then AddCharge(m', row.charge) else m')
              && (!ok ==> FirstFailing(m', row.charge.org, row.charge.user, specs) == Some(failing))
              && (forall s :: Level(orphan, s) == Level(old(orphan), s) + Level(m', s) - Level(old(cache.levels), s))
      ensures idem == if admitted then WithKey(old(idem), AcquireKey(row, specs, key)) else old(idem)
      ensures admitted ==> c in calls && calls[c] == Spent(row)
    {
      assert Distinct(specs);
      hide Inv, Sound, AddCharge, FirstFailing, WellFormed, SpendOf, Numbered, RepairAll, AnyDrift, AcquireKey, Level, Covered,
           FreshId, WithKey, Duplicate;
      var repairedAny := RepairToTruth(usage, row.charge.org, specs);
      if !repairedAny {
        return false, denied, 0;
      }
      var dup;
      admitted, dup, failing, c := SpendOnce(row, specs, key);
    }

    /**
     `_acquire_recount_before_deny`: after a denial the source is asked; the script runs without limits if it
     could not be reached.
     */
    method RecountAcquire(truth: Truth, row: Activation, specs: seq<Spec>, key: Option<string>, denied: nat)
      returns (admitted: bool, failing: nat, ghost c: nat)
      requires Valid() && FreshId(Snapshot(), row.id) && WellFormed(specs) && !Duplicate(Snapshot(), row, specs, key)
      requires row.state == Open && row.cost == None && row.charge.spend == SpendOf(specs) && !truth.NoSource?
      requires FirstFailing(cache.levels, row.charge.org, row.charge.user, specs) == Some(denied)
      modifies this, cache
      ensures Valid() && claims == old(claims)
      ensures var (ok, m') := Admission.RecountAcquire(old(cache.levels), truth, row.charge.org, row.charge.user, specs);
              && admitted == ok && (old(Kept()) && Covered(old(Snapshot()), m') ==> Kept())
              && cache.levels == (if ok then AddCharge(m', row.charge) else m')
              && (!ok ==> FirstFailing(m', row.charge.org, row.charge.user, specs) == Some(failing))
              && (forall s :: Level(orphan, s) == Level(old(orphan), s) + Level(m', s) - Level(old(cache.levels), s))
      ensures idem == if admitted then WithKey(old(idem), AcquireKey(row, specs, key)) else old(idem)
      ensures admitted ==> c in calls && calls[c] == Spent(row)
    {
      hide Inv, Sound, AddCharge, FirstFailing, WellFormed, SpendOf, Numbered, RepairAll, AnyDrift, AcquireKey, Level, Covered,
           FreshId, WithKey, Duplicate;
      if truth.Unreachable? {
        var dup;
        dup, c := SpendDropped(row, specs, key);
        return true, 0, c;
      }
      admitted, failing, c := RepairAndSpend(truth.usage, row, specs, key, denied);
    }

    /**
     Spend the bundle: within its limits if they are enforced; after a denial recounted, if a source is
     wired; in shadow mode a denial is only logged, and spent without limits.
     */
    method Admit(p: Policy, truth: Truth, row: Activation, specs: seq<Spec>, key: Option<string>)
      returns (admitted: bool, dup: bool, failing: nat, ghost c: nat)
      requires Valid() && FreshId(Snapshot(), row.id) && WellFormed(specs)
      requires row.state == Open && row.cost == None && row.charge.spend == SpendOf(specs)
      modifies this, cache
      ensures Valid() && claims == old(claims) && dup == Duplicate(old(Snapshot()), row, specs, key)
      ensures var (ok, m') := if dup then (true, old(cache.levels))
                              else AdmitsWith(p, old(cache.levels), truth, row.charge.org, row.charge.user, specs);
              && admitted == ok && (old(Kept()) && Covered(old(Snapshot()), m') ==> Kept())
              && cache.levels == (if ok && !dup then AddCharge(m', row.charge) else m')
              && (!ok ==> FirstFailing(m', row.charge.org, row.charge.user, specs) == Some(failing))
              && (forall s :: Level(orphan, s) == Level(old(orphan), s) + Level(m', s) - Level(old(cache.levels), s))
      ensures idem == if admitted && !dup then WithKey(old(idem), AcquireKey(row, specs, key)) else old(idem)
      ensures admitted && !dup ==> c in calls && calls[c] == Spent(row)
    {
      DropLimitsSpends(specs);
      DropLimitsFit(cache.levels, row.charge.org, row.charge.user, specs);
      DropLimitsKey(row, specs, key);
      hide Inv, Sound, FreshId, AddCharge, FirstFailing, WellFormed, SpendOf, Numbered, AcquireKey, Level, Covered,
           Admission.RecountAcquire;
      var limited := if p.knobs.enabled then specs else DropLimits(specs);
      admitted, dup, failing, c := SpendOnce(row, limited, key);
      if !admitted {
        if p.knobs.shadow {
          SpendInShadow(c, row, specs, key);
          admitted := true;
        } else if !truth.NoSource? {
          admitted, failing, c := RecountAcquire(truth, row, specs, key, failing);
        }
      }
    }

    /** Write the row; or fail to, and leave the spend to nobody. */
    method Persist(ghost c: nat, row: Activation, persists: bool)
      requires Valid() && c in calls && calls[c] == Spent(row)
      modifies this`calls, this`orphan, store
      ensures Valid() && (old(Kept()) ==> Kept())
      ensures store.rows == if persists then PutOpen(old(store.rows), row) else old(store.rows)
      ensures orphan == if persists then old(orphan) else AddCharge(old(orphan), row.charge)
    {
      assert store.Valid();
      hide Inv, Sound, AddCharge;
      ghost var st := Snapshot();
      CallStep(st, if persists then Record(c) else LoseAcquire(c));
      calls := calls[c := Finished];
      if persists {
        store.Put(row);
      } else {
        orphan := AddCharge(orphan, row.charge);
      }
    }

    /** An admission, and then its row. */
    method AdmitAndPersist(p: Policy, truth: Truth, row: Activation, specs: seq<Spec>, key: Option<string>, persists: bool)
      returns (admitted: bool, dup: bool, failing: nat)
      requires Valid() && FreshId(Snapshot(), row.id) && WellFormed(specs)
      requires row.state == Open && row.cost == None && row.charge.spend == SpendOf(specs)
      modifies this, cache, store
      ensures Valid() && dup == Duplicate(old(Snapshot()), row, specs, key)
      ensures LeftByAdmission(old(Snapshot()), Snapshot(), p, truth, row, specs, key, persists, admitted, dup, failing)
    {
      assert row.id !in store.rows;
      hide Inv, Sound, AddCharge, FirstFailing, WellFormed, SpendOf, Level, Covered, Weight, Numbered, AdmitsWith, WithKey,
           FreshId, AcquireKey, LeftByAdmission, Duplicate;
      ghost var st := Snapshot();
      ghost var c;
      admitted, dup, failing, c := Admit(p, truth, row, specs, key);
      ghost var spent := Snapshot();
      if admitted && !dup {
        Persist(c, row, persists);
      }
      PersistLeaves(st, spent, Snapshot(), p, truth, row, specs, key, persists, admitted, dup, failing);
    }

    /**
     Check every gauge of a bundle and spend them all, then write the OPEN row. A refusal and a
     replay spend nothing; an admission adds exactly the charge; a row that cannot be written fails the
     call and leaves the charge as an orphan, never as missing spend. A denial is recounted if a source
     is wired: then the levels are those of the truth first, and what the truth says beyond the ledger
     goes to the orphans. The machine's invariant is kept as long as the truth covers the ledger.
     */
    method Acquire(p: Policy, truth: Truth, org: Org, user: Option<User>, bundle: Option<seq<Resource>>, name: string,
                   key: Option<string>, id: Id, now: nat, persists: bool)
      returns (r: AcquireResult)
      requires Valid() && FreshId(Snapshot(), id)
      modifies this, cache, store
      ensures Valid()
      ensures AcquireLeaves(old(Snapshot()), Snapshot(), p, truth, org, user, bundle, name, key, id, now, persists, r)
    {
      ghost var st := Snapshot();
      if RefusedUpFront(p, bundle) {
        RefusalLeaves(st, p, truth, org, user, bundle, name, key, id, now, persists);
        return NotAdmitted(None);
      }
      var specs := GaugeSpecs(p, KeysOf(bundle), user, {});
      var row := Activation(id, Charge(org, user, SpendOf(specs)), name, now, Open, None);
      hide Inv, Sound, GaugeSpecs, SpendOf, Numbered, AcquireLeaves, LeftByAdmission, RefusedUpFront;
      var admitted, dup, failing := AdmitAndPersist(p, truth, row, specs, key, persists);
      AdmissionLeaves(st, Snapshot(), p, truth, bundle, row, specs, key, persists, admitted, dup, failing);
      r := ResultOf(id, specs, persists, admitted, dup, failing);
    }

    /** One decrement script of a running release. */
    method DecrementOne(ghost c: nat, id: Id, left: Charge, rk: Resource)
      requires Valid() && c in calls && calls[c] == Releasing(id, left) && rk in left.spend
      modifies this`calls, this`claims, this`phantom, cache
      ensures Valid() && (old(Kept()) ==> Kept())
      ensures calls == old(calls)[c := Releasing(id, left.(spend := left.spend - {rk}))]
      ensures cache.levels == Subtract(old(cache.levels), left.org, left.user, rk, left.spend[rk])
    {
      hide Inv, Subtract, Forgiven, RowsSound, SpentSound, ReleasingSound, ListingsSound, Generation;
      ghost var st := Snapshot();
      DecrementFrame(st, c, rk);
      CallStep(st, Decrement(c, rk));
      var claim := Claim(id, rk, Generation(generations, left, rk));
      calls := calls[c := Releasing(id, left.(spend := left.spend - {rk}))];
      if claim !in claims {
        claims := claims + {claim};
        phantom := Forgiven(phantom, cache.levels, left.org, left.user, rk, left.spend[rk]);
        cache.levels := Subtract(cache.levels, left.org, left.user, rk, left.spend[rk]);
      }
    }

    /** Mark the row RELEASED, if it is OPEN. */
    method Mark(id: Id) returns (row: Option<Activation>, ghost c: nat)
      requires Valid()
      modifies this`calls, this`nextCall, store
      ensures Valid() && (old(Kept()) ==> Kept())
      ensures store.rows == MarkReleased(old(store.rows), id) && row.Some? == CanRelease(old(store.rows), id)
      ensures row.Some? ==>
                row.value.charge == old(store.rows)[id].charge && c in calls && calls[c] == Releasing(id, row.value.charge)
    {
      assert store.Valid();
      c := nextCall;
      NumberedNext(calls, c, Finished);
      hide Inv, Sound;
      CallStep(Snapshot(), BeginRelease(c, id));
      row := store.Release(id);
      nextCall := nextCall + 1;
      calls := calls[c := if row.None? then Finished else Releasing(id, row.value.charge)];
    }

    /**
     Mark RELEASED first, then take the spend off gauge by gauge. The first release of an OPEN row lowers
     every slot by what that row had put there, down to zero at the most; by exactly that where the levels
     are kept. Any other release changes nothing.
     */
    method Release(id: Id) returns (done: bool)
      requires Valid()
      modifies this`calls, this`nextCall, this`claims, this`phantom, cache, store
      ensures Valid() && (old(Kept()) ==> Kept()) && done == CanRelease(old(store.rows), id)
      ensures store.rows == MarkReleased(old(store.rows), id)
      ensures forall s :: Level(cache.levels, s)
                == if done then Taken(Level(old(cache.levels), s), old(store.rows)[id].charge, s) else Level(old(cache.levels), s)
      ensures old(Kept()) && done ==> forall s ::
                Level(cache.levels, s) == Level(old(cache.levels), s) - Weight(old(store.rows)[id].charge, s)
      ensures !done ==> cache.levels == old(cache.levels)
    {
      hide Inv, Sound, Subtract, MarkReleased, Level, Weight, Taken;
      ghost var before := cache.levels;
      var row; ghost var c;
      row, c := Mark(id);
      if row.None? {
        return false;
      }
      ghost var marked := Snapshot();
      var charge := row.value.charge;
      var left := charge;
      NothingTaken(before, charge);
      while left.spend != map[]
        invariant Valid() && (old(Kept()) ==> Kept()) && c in calls && calls[c] == Releasing(id, left)
        invariant PartOf(left, charge) && store.rows == MarkReleased(old(store.rows), id)
        invariant forall s :: Level(cache.levels, s) == TakenBut(Level(before, s), charge, left, s)
        decreases |left.spend|
      {
        var rk :| rk in left.spend;
        TakeOne(cache.levels, before, charge, left, rk);
        DecrementOne(c, id, left, rk);
        left := left.(spend := left.spend - {rk});
      }
      if old(Kept()) {
        ReleaseExact(marked, c, charge);
      }
      done := true;
    }

    /**
     `cost` is None for a cost that is not a finite non-negative decimal: rejected before the
     ledger is touched. The first cost wins; a different later one is reported, not written.
     */
    method Settle(id: Id, cost: Option<string>) returns (r: SettleResult)
      requires Valid()
      modifies this`orphan, store
      ensures Valid() && (old(Kept()) ==> Kept())
      ensures store.rows == if cost.Some? then MarkSettled(old(store.rows), id, cost.value) else old(store.rows)
      ensures r.Rejected? <==> cost.None?
      ensures r.Recorded? <==> cost.Some? && CanSettle(old(store.rows), id)
      ensures r.Conflict? <==>
                && cost.Some? && id in old(store.rows) && old(store.rows)[id].state == Settled
                && old(store.rows)[id].cost.Some? && old(store.rows)[id].cost != cost
      ensures r.Recorded? ==> store.rows[id].cost == cost
      ensures !r.Recorded? ==> store.rows == old(store.rows) && orphan == old(orphan)
    {
      if cost.None? {
        return Rejected;
      }
      CallStep(Snapshot(), Event.Settle(id, cost.value));
      hide Inv;
      if CanRelease(store.rows, id) {
        orphan := AddCharge(orphan, store.rows[id].charge);
      }
      var row := store.Settle(id, cost.value);
      if row.Some? {
        return Recorded;
      }
      var conflict := id in store.rows && store.rows[id].cost.Some? && store.rows[id].cost != cost;
      r := if conflict then Conflict else Ignored;
    }

    /** The single check, with its recount and the repair a drifted counter gets. */
    method Check(p: Policy, truth: Truth, org: Org, user: Option<User>, rk: Resource, inc: real) returns (d: Decision)
      requires Valid()
      modifies cache, this`orphan
      ensures (d, cache.levels) == Admission.Check(p, old(cache.levels), truth, org, user, rk, inc)
      ensures Valid() && (old(Kept()) ==> (Kept() <==> Covered(old(Snapshot()), cache.levels)))
    {
      hide Inv, Sound, Covered, Numbered;
      ghost var st := Snapshot();
      d := CheckGauge(p, truth, org, user, rk, inc);
      RebalanceKeeps(st, cache.levels);
      orphan := Rebalanced(orphan, st.levels, cache.levels);
    }

    /** Its decision and its writes. */
    method CheckGauge(p: Policy, truth: Truth, org: Org, user: Option<User>, rk: Resource, inc: real) returns (d: Decision)
      modifies cache
      ensures (d, cache.levels) == Admission.Check(p, old(cache.levels), truth, org, user, rk, inc)
    {
      if p.knobs.kill { return Deny; }
      if !p.knobs.enabled { return Allow; }
      if p.tier.None? { return UnknownTier; }
      d := CacheDecision(p, cache.levels, org, user, rk, inc);
      if d.Deny? && !truth.NoSource? {
        if truth.Unreachable? {
          d := Allow;
        } else if rk in truth.usage {
          var u := truth.usage[rk];
          if !Near(u.total, Level(cache.levels, OrgSlot(org, rk))) {
            var _ := cache.RepairToTruth(org, rk, u.total, u.users);
          }
          d := TrueDecision(p, u, user, rk, inc);
        }
      }
      if d.Deny? && p.knobs.shadow {
        d := ShadowAllow;
      }
    }

    /** `batch_check`: every entry in turn; the denied ones are listed. */
    method BatchCheck(p: Policy, truth: Truth, org: Org, user: Option<User>, keys: seq<Resource>)
      returns (denied: seq<Resource>)
      modifies cache
      ensures (denied, cache.levels) == CheckEach(p, old(cache.levels), truth, org, user, keys)
    {
      hide Denied, Admission.Check;
      denied := [];
      for k := 0 to |keys|
        invariant (denied, cache.levels) == CheckEach(p, old(cache.levels), truth, org, user, keys[..k])
      {
        EachNext(p, old(cache.levels), truth, org, user, keys, k);
        var d := CheckGauge(p, truth, org, user, keys[k], 1.0);
        denied := denied + if Denied(d) then [keys[k]] else [];
      }
      assert keys[..|keys|] == keys;
    }

    /**
     `check_for_bundle` over `batch_check`: every entry is checked in turn, repairs and all, and the denied
     ones are listed; an undeclared or empty bundle is decided by the knobs, and named itself when denied.
     The verdict on each entry is that of a check of its own on the levels before.
     */
    method CheckForBundle(p: Policy, truth: Truth, org: Org, user: Option<User>, name: string, bundle: Option<seq<Resource>>)
      returns (allowed: bool, denied: seq<Resource>)
      requires Valid()
      modifies cache, this`orphan
      ensures Valid() && (old(Kept()) ==> (Kept() <==> Covered(old(Snapshot()), cache.levels)))
      ensures allowed == CheckAllows(p, old(cache.levels), truth, org, user, bundle)
      ensures denied == if KeysOf(bundle) != [] then DeniedResources(p, old(cache.levels), truth, org, user, KeysOf(bundle))
                        else if allowed then [] else [name]
      ensures forall rk ::
                AsChecked(p, old(cache.levels), cache.levels, truth, org, user, rk, rk in KeysOf(bundle))
      ensures forall s: Slot | s.org != org :: Level(cache.levels, s) == Level(old(cache.levels), s)
    {
      hide Inv, Sound, Covered, Numbered;
      ghost var st := Snapshot();
      UncheckedStays(p, st, org, user, bundle);
      denied := [];
      if bundle.None? || bundle.value == [] {
        allowed := Permissive(p.knobs);
        return allowed, if allowed then [] else [name];
      }
      var keys := bundle.value;
      hide CheckAllows, DeniedResources, AsChecked, CheckEach;
      denied := BatchCheck(p, truth, org, user, keys);
      BatchLeaves(p, st.levels, cache.levels, denied, truth, org, user, keys);
      allowed := denied == [];
      RebalanceKeeps(st, cache.levels);
      orphan := Rebalanced(orphan, st.levels, cache.levels);
    }
  }
}
