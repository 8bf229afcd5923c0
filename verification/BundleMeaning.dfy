/**
 What the atomic bundle script means. Every key of a gauge is looked at together with its twin;
 on those views the flat-array script is the all-or-nothing spend of the level model.
 */
module BundleMeaning {
  import opened Prelude
  import opened Gauges
  import opened Keyspace
  import opened BundleSpend

  /** The value under a name in the shape that is read, and in the other one when dual. */
  datatype View = View(primary: Option<real>, twin: Option<real>)

  function Lookup(kv: Store, k: string): Option<real> { if k in kv then Some(kv[k]) else None }

  predicate GoodName(m: Mode, n: Name)
  {
    ValidMode(m) && UnderResource(n) && ResourceKey(n.rk) && ModeCarries(m, n.org)
  }

  function ViewOf(kv: Store, m: Mode, n: Name): (v: View)
    requires GoodName(m, n)
    ensures !m.dual ==> v.twin.None?
  {
    var p := PairOf(m, n);
    View(Lookup(kv, p.primary), if m.dual then Lookup(kv, p.twin) else None)
  }

  function Value(x: Option<real>): real { if x.Some? then x.value else 0.0 }

  /** `GaugeCounter.get`: the primary shape, else during dual the other one, else zero. */
  function Reading(v: View): real
  {
    if v.primary.Some? then v.primary.value else Value(v.twin)
  }

  /** During dual-write: the v2 key is absent or equal to its v1 key. */
  predicate Twinned(v: View, m: Mode)
  {
    m.dual ==>
      if m.v2 then v.primary.Some? ==> v.twin == v.primary else v.twin.Some? ==> v.primary == v.twin
  }

  function SeedView(v: View, m: Mode): View
  {
    if !m.dual then v
    else if m.v2 then (if v.primary.None? then v.(primary := v.twin) else v)
    else (if v.twin.None? then v.(twin := v.primary) else v)
  }

  function IncrView(v: View, m: Mode, d: real): View
  {
    View(Some(Value(v.primary) + d), if m.dual then Some(Value(v.twin) + d) else None)
  }

  // ---- One operation on one name ---------------------------------------------------------------

  /** Different names never share a key, in either shape; the two shapes of one name differ. */
  lemma KeysApart(m: Mode, a: Name, b: Name)
    requires GoodName(m, a) && GoodName(m, b)
    ensures PairOf(m, a).primary == PairOf(m, b).primary ==> a == b
    ensures m.dual && PairOf(m, a).twin == PairOf(m, b).twin ==> a == b
    ensures m.dual ==> PairOf(m, a).primary != PairOf(m, b).twin
  {
    hide Key, ResourceKey, Versionish, Has;
    SameKeySameName(PrimaryShape(m), a, PrimaryShape(m), b);
    if m.dual {
      SameKeySameName(SecondaryShape(m), a, SecondaryShape(m), b);
      SameKeySameName(PrimaryShape(m), a, SecondaryShape(m), b);
    }
  }

  lemma SameKeySameName(shape1: Shape, a: Name, shape2: Shape, b: Name)
    requires ValidShape(shape1) && ValidShape(shape2) && UnderResource(a) && UnderResource(b)
    requires ResourceKey(a.rk) && ResourceKey(b.rk) && Carries(shape1, a.org) && Carries(shape2, b.org)
    ensures Key(shape1, a) == Key(shape2, b) ==> a == b && shape1 == shape2
  {
    if Key(shape1, a) == Key(shape2, b) {
      PrintInjective(shape1, a, shape2, b);
    }
  }

  lemma SeedOn(kv: Store, m: Mode, a: Name, n: Name)
    requires GoodName(m, a) && GoodName(m, n)
    ensures ViewOf(Seed(kv, PairOf(m, a), m.dual, m.v2), m, n)
         == if a == n then SeedView(ViewOf(kv, m, n), m) else ViewOf(kv, m, n)
  {
    hide Key;
    KeysApart(m, a, n);
    KeysApart(m, n, a);
  }

  lemma IncrOn(kv: Store, m: Mode, a: Name, d: real, n: Name)
    requires GoodName(m, a) && GoodName(m, n)
    ensures ViewOf(IncrBoth(kv, PairOf(m, a), d, m.dual), m, n)
         == if a == n then IncrView(ViewOf(kv, m, n), m, d) else ViewOf(kv, m, n)
  {
    hide Key;
    KeysApart(m, a, n);
    KeysApart(m, n, a);
  }

  lemma LatchOn(kv: Store, m: Mode, a: Name, n: Name)
    requires GoodName(m, a) && GoodName(m, n) && a != n
    ensures ViewOf(Latch(kv, PairOf(m, a), m.dual), m, n) == ViewOf(kv, m, n)
  {
    hide Key;
    KeysApart(m, a, n);
    KeysApart(m, n, a);
  }

  // ---- One gauge of the bundle -------------------------------------------------------------------

  /** What spending one gauge adds under a name: the delta on both levels, one on the generation. */
  function Added(org: Org, user: Option<User>, sp: Spec, n: Name): Option<real>
  {
    if n == GaugeName(org, sp.rk) then Some(sp.delta)
    else if user.Some? && n == UserName(org, sp.rk, user.value) then Some(sp.delta)
    else if user.Some? && n == SeqName(org, sp.rk, user.value) then Some(1.0)
    else None
  }

  predicate GoodBundle(m: Mode, org: Org, specs: seq<Spec>)
  {
    && ValidMode(m) && ModeCarries(m, org) && WellFormed(specs)
    && forall i | 0 <= i < |specs| :: ResourceKey(specs[i].rk)
  }

  lemma SeedLineOn(kv: Store, m: Mode, org: Org, user: Option<User>, sp: Spec, n: Name)
    requires ValidMode(m) && ModeCarries(m, org) && ResourceKey(sp.rk) && GoodName(m, n)
    ensures ViewOf(SeedLine(kv, LineOf(m, org, user, sp), m.dual, m.v2), m, n)
         == if Added(org, user, sp, n).Some? then SeedView(ViewOf(kv, m, n), m) else ViewOf(kv, m, n)
  {
    hide PairOf, Key, Seed, ViewOf;
    var kv1 := Seed(kv, PairOf(m, GaugeName(org, sp.rk)), m.dual, m.v2);
    SeedOn(kv, m, GaugeName(org, sp.rk), n);
    if user.Some? {
      var kv2 := Seed(kv1, PairOf(m, UserName(org, sp.rk, user.value)), m.dual, m.v2);
      SeedOn(kv1, m, UserName(org, sp.rk, user.value), n);
      SeedOn(kv2, m, SeqName(org, sp.rk, user.value), n);
    }
  }

  lemma SpendLineOn(kv: Store, m: Mode, org: Org, user: Option<User>, sp: Spec, n: Name)
    requires ValidMode(m) && ModeCarries(m, org) && ResourceKey(sp.rk) && GoodName(m, n)
    ensures ViewOf(SpendLine(kv, LineOf(m, org, user, sp), m.dual), m, n)
         == var d := Added(org, user, sp, n);
            if d.Some? then IncrView(ViewOf(kv, m, n), m, d.value) else ViewOf(kv, m, n)
  {
    hide PairOf, Key, IncrBoth, ViewOf;
    var kv1 := IncrBoth(kv, PairOf(m, GaugeName(org, sp.rk)), sp.delta, m.dual);
    IncrOn(kv, m, GaugeName(org, sp.rk), sp.delta, n);
    if user.Some? {
      var kv2 := IncrBoth(kv1, PairOf(m, SeqName(org, sp.rk, user.value)), 1.0, m.dual);
      IncrOn(kv1, m, SeqName(org, sp.rk, user.value), 1.0, n);
      IncrOn(kv2, m, UserName(org, sp.rk, user.value), sp.delta, n);
    }
  }

  // ---- The whole bundle --------------------------------------------------------------------------

  /** The index of the one gauge that touches a name, if any does. */
  ghost predicate TouchedBy(org: Org, user: Option<User>, specs: seq<Spec>, i: nat, n: Name)
    requires i <= |specs|
  {
    exists j | 0 <= j < i :: Added(org, user, specs[j], n).Some?
  }

  lemma {:induction false} SeedsOn(kv: Store, m: Mode, org: Org, user: Option<User>, specs: seq<Spec>, i: nat, n: Name)
    requires GoodBundle(m, org, specs) && GoodName(m, n) && i <= |specs|
    ensures ViewOf(SeedUpTo(kv, LinesFor(m, org, user, specs), m.dual, m.v2, i), m, n)
         == if TouchedBy(org, user, specs, i, n) then SeedView(ViewOf(kv, m, n), m) else ViewOf(kv, m, n)
  {
    hide PairOf, LinesFor, LineOf, SeedLine, ViewOf, Added;
    if i > 0 {
      SeedsOn(kv, m, org, user, specs, i - 1, n);
      SeedLineOn(SeedUpTo(kv, LinesFor(m, org, user, specs), m.dual, m.v2, i - 1), m, org, user, specs[i - 1], n);
    }
  }

  /** Distinct resources: no two gauges of the bundle touch the same name. */
  lemma TouchedOnce(org: Org, user: Option<User>, specs: seq<Spec>, i: nat, j: nat, n: Name)
    requires Distinct(specs) && i < j < |specs|
    requires Added(org, user, specs[i], n).Some?
    ensures Added(org, user, specs[j], n).None?
  {
    assert specs[i].rk != specs[j].rk;
  }

  /** What the first i gauges add under a name. */
  ghost function AddedUpTo(org: Org, user: Option<User>, specs: seq<Spec>, i: nat, n: Name): Option<real>
    requires i <= |specs|
  {
    if i == 0 then None
    else if Added(org, user, specs[i - 1], n).Some? then Added(org, user, specs[i - 1], n)
    else AddedUpTo(org, user, specs, i - 1, n)
  }

  lemma {:induction false} AddedUpToTouched(org: Org, user: Option<User>, specs: seq<Spec>, i: nat, n: Name)
    requires i <= |specs|
    ensures AddedUpTo(org, user, specs, i, n).Some? <==> TouchedBy(org, user, specs, i, n)
  {
    if i > 0 { AddedUpToTouched(org, user, specs, i - 1, n); }
  }

  lemma {:induction false} SpendsOn(kv: Store, m: Mode, org: Org, user: Option<User>, specs: seq<Spec>, i: nat, n: Name)
    requires GoodBundle(m, org, specs) && GoodName(m, n) && i <= |specs|
    ensures ViewOf(SpendUpTo(kv, LinesFor(m, org, user, specs), m.dual, i), m, n)
         == var d := AddedUpTo(org, user, specs, i, n);
            if d.Some? then IncrView(ViewOf(kv, m, n), m, d.value) else ViewOf(kv, m, n)
  {
    hide PairOf, LinesFor, LineOf, SpendLine, ViewOf, IncrView, Added, GoodName;
    if i > 0 {
      SpendsOn(kv, m, org, user, specs, i - 1, n);
      SpendLineOn(SpendUpTo(kv, LinesFor(m, org, user, specs), m.dual, i - 1), m, org, user, specs[i - 1], n);
      LastTouch(org, user, specs, i, n);
    }
  }

  /** If gauge i - 1 touches the name, no earlier one does. */
  lemma LastTouch(org: Org, user: Option<User>, specs: seq<Spec>, i: nat, n: Name)
    requires Distinct(specs) && 0 < i <= |specs|
    ensures Added(org, user, specs[i - 1], n).Some? ==> AddedUpTo(org, user, specs, i - 1, n).None?
  {
    hide Added;
    AddedUpToTouched(org, user, specs, i - 1, n);
    forall j | 0 <= j < i - 1 && Added(org, user, specs[j], n).Some? ensures Added(org, user, specs[i - 1], n).None? {
      TouchedOnce(org, user, specs, j, i - 1, n);
    }
  }

  /** Seeded if the bundle names the counter, and then added to if it is admitted. */
  function ViewAfter(v: View, m: Mode, d: Option<real>, admitted: bool): View
  {
    if d.None? then v else if admitted then IncrView(SeedView(v, m), m, d.value) else SeedView(v, m)
  }

  lemma SeededView(kv: Store, m: Mode, org: Org, user: Option<User>, specs: seq<Spec>, n: Name)
    requires GoodBundle(m, org, specs) && GoodName(m, n)
    ensures ViewOf(SeedUpTo(kv, LinesFor(m, org, user, specs), m.dual, m.v2, |specs|), m, n)
         == ViewAfter(ViewOf(kv, m, n), m, AddedUpTo(org, user, specs, |specs|, n), false)
  {
    hide LinesFor, SeedUpTo, ViewOf, AddedUpTo, SeedView;
    SeedsOn(kv, m, org, user, specs, |specs|, n);
    AddedUpToTouched(org, user, specs, |specs|, n);
  }

  lemma SpentView(kv: Store, m: Mode, org: Org, user: Option<User>, specs: seq<Spec>, claim: bool, latch: Name, n: Name)
    requires GoodBundle(m, org, specs) && GoodName(m, n) && GoodName(m, latch) && latch.IdemName? && n != latch
    ensures var lines := LinesFor(m, org, user, specs);
            var seeded := SeedUpTo(kv, lines, m.dual, m.v2, |specs|);
            var after := SpendUpTo(if claim then Latch(seeded, PairOf(m, latch), m.dual) else seeded, lines, m.dual, |specs|);
            ViewOf(after, m, n) == ViewAfter(ViewOf(kv, m, n), m, AddedUpTo(org, user, specs, |specs|, n), true)
  {
    hide PairOf, LinesFor, SeedUpTo, SpendUpTo, Latch, AddedUpTo, SeedView, IncrView, ViewOf;
    var seeded := SeedUpTo(kv, LinesFor(m, org, user, specs), m.dual, m.v2, |specs|);
    SeededView(kv, m, org, user, specs, n);
    LatchOn(seeded, m, latch, n);
    SpendsOn(if claim then Latch(seeded, PairOf(m, latch), m.dual) else seeded, m, org, user, specs, |specs|, n);
  }

  // ---- Against the level model -------------------------------------------------------------------

  function NameOf(s: Slot): Name
  {
    if s.OrgSlot? then GaugeName(s.org, s.rk) else UserName(s.org, s.rk, s.user)
  }

  predicate GoodSlot(m: Mode, s: Slot) { GoodName(m, NameOf(s)) }

  /** The levels are what the counters read as. */
  ghost predicate Represents(kv: Store, m: Mode, levels: Levels)
  {
    forall s | GoodSlot(m, s) :: Level(levels, s) == Reading(ViewOf(kv, m, NameOf(s)))
  }

  ghost predicate AllTwinned(kv: Store, m: Mode)
  {
    forall n | GoodName(m, n) && (n.GaugeName? || n.UserName? || n.SeqName?) :: Twinned(ViewOf(kv, m, n), m)
  }

  lemma SeedKeeps(v: View, m: Mode)
    requires Twinned(v, m) && (!m.dual ==> v.twin == None)
    ensures Reading(SeedView(v, m)) == Reading(v) && Twinned(SeedView(v, m), m)
    ensures Value(SeedView(v, m).primary) == Reading(v)
  {
  }

  /** After seeding, both sides move together, and the reading moves by exactly the delta. */
  lemma IncrAfterSeed(v: View, m: Mode, d: real)
    requires Twinned(v, m) && (!m.dual ==> v.twin == None)
    ensures Reading(IncrView(SeedView(v, m), m, d)) == Reading(v) + d
    ensures Twinned(IncrView(SeedView(v, m), m, d), m)
    ensures m.dual ==> IncrView(SeedView(v, m), m, d).twin == IncrView(SeedView(v, m), m, d).primary
  {
  }

  lemma ReadingAfter(v: View, m: Mode, d: Option<real>)
    requires Twinned(v, m) && (!m.dual ==> v.twin == None)
    ensures Reading(ViewAfter(v, m, d, true)) == Reading(v) + Value(d) && Twinned(ViewAfter(v, m, d, true), m)
    ensures Reading(ViewAfter(v, m, d, false)) == Reading(v) && Twinned(ViewAfter(v, m, d, false), m)
  {
    SeedKeeps(v, m);
    IncrAfterSeed(v, m, Value(d));
  }

  lemma LineFitsIffFits(kv: Store, m: Mode, org: Org, user: Option<User>, specs: seq<Spec>, i: nat, levels: Levels)
    requires GoodBundle(m, org, specs) && i < |specs|
    requires Represents(kv, m, levels) && AllTwinned(kv, m)
    ensures var seeded := SeedUpTo(kv, LinesFor(m, org, user, specs), m.dual, m.v2, |specs|);
            LineFits(seeded, LineOf(m, org, user, specs[i])) <==> Fits(levels, org, user, specs[i])
  {
    hide PairOf, SeedUpTo;
    var seeded := SeedUpTo(kv, LinesFor(m, org, user, specs), m.dual, m.v2, |specs|);
    var s := OrgSlot(org, specs[i].rk);
    assert GoodSlot(m, s);
    assert Added(org, user, specs[i], NameOf(s)).Some?;
    SeedsOn(kv, m, org, user, specs, |specs|, NameOf(s));
    SeedKeeps(ViewOf(kv, m, NameOf(s)), m);
    if user.Some? {
      var u := UserSlot(org, specs[i].rk, user.value);
      assert GoodSlot(m, u);
      assert Added(org, user, specs[i], NameOf(u)).Some?;
      SeedsOn(kv, m, org, user, specs, |specs|, NameOf(u));
      SeedKeeps(ViewOf(kv, m, NameOf(u)), m);
    }
  }

  lemma MisfitIsFirstFailing(kv: Store, m: Mode, org: Org, user: Option<User>, specs: seq<Spec>, levels: Levels)
    requires GoodBundle(m, org, specs)
    requires Represents(kv, m, levels) && AllTwinned(kv, m)
    ensures var lines := LinesFor(m, org, user, specs);
            var k := FirstMisfit(SeedUpTo(kv, lines, m.dual, m.v2, |lines|), lines, 0);
            FirstFailing(levels, org, user, specs) == if k < |specs| then Some(k) else None
  {
    hide LineOf, SeedUpTo, Represents, AllTwinned, LineFits, Fits;
    var lines := LinesFor(m, org, user, specs);
    var seeded := SeedUpTo(kv, lines, m.dual, m.v2, |lines|);
    forall i | 0 <= i < |specs| ensures LineFits(seeded, lines[i]) <==> Fits(levels, org, user, specs[i]) {
      LineFitsIffFits(kv, m, org, user, specs, i, levels);
    }
    var k := FirstMisfit(seeded, lines, 0);
    var f := FirstFailing(levels, org, user, specs);
    if f.Some? && k < |specs| {
      assert !(f.value < k) && !(k < f.value);
    }
  }

  /** Seeding alone changes no reading and keeps every twin equal. */
  lemma SeedsKeep(kv: Store, m: Mode, org: Org, user: Option<User>, specs: seq<Spec>, levels: Levels)
    requires GoodBundle(m, org, specs) && Represents(kv, m, levels) && AllTwinned(kv, m)
    ensures var seeded := SeedUpTo(kv, LinesFor(m, org, user, specs), m.dual, m.v2, |specs|);
            Represents(seeded, m, levels) && AllTwinned(seeded, m)
  {
    hide PairOf, LinesFor, SeedUpTo;
    var seeded := SeedUpTo(kv, LinesFor(m, org, user, specs), m.dual, m.v2, |specs|);
    forall s | GoodSlot(m, s) ensures Level(levels, s) == Reading(ViewOf(seeded, m, NameOf(s))) {
      SeedsOn(kv, m, org, user, specs, |specs|, NameOf(s));
      SeedKeeps(ViewOf(kv, m, NameOf(s)), m);
    }
    forall n | GoodName(m, n) && (n.GaugeName? || n.UserName? || n.SeqName?) ensures Twinned(ViewOf(seeded, m, n), m) {
      SeedsOn(kv, m, org, user, specs, |specs|, n);
      SeedKeeps(ViewOf(kv, m, n), m);
    }
  }

  /** The weight a charge puts on a slot is what the bundle adds under the slot's name. */
  lemma {:induction false} AddedIsWeight(org: Org, user: Option<User>, specs: seq<Spec>, s: Slot)
    requires WellFormed(specs)
    ensures Value(AddedUpTo(org, user, specs, |specs|, NameOf(s))) == Weight(Charge(org, user, SpendOf(specs)), s)
  {
    var n := NameOf(s);
    AddedUpToTouched(org, user, specs, |specs|, n);
    if i: nat :| i < |specs| && Added(org, user, specs[i], n).Some? {
      AddedAt(org, user, specs, |specs|, i, n);
      DeltaAt(specs, i);
    } else {
      assert forall j | 0 <= j < |specs| :: Added(org, user, specs[j], n).None?;
    }
  }

  lemma {:induction false} AddedAt(org: Org, user: Option<User>, specs: seq<Spec>, k: nat, i: nat, n: Name)
    requires Distinct(specs) && i < k <= |specs| && Added(org, user, specs[i], n).Some?
    ensures AddedUpTo(org, user, specs, k, n) == Added(org, user, specs[i], n)
  {
    if i < k - 1 {
      TouchedOnce(org, user, specs, i, k - 1, n);
      AddedAt(org, user, specs, k - 1, i, n);
    }
  }

  /** Checked and spent: each reading moves by the charge's weight, each twin with it. */
  lemma SpendsMean(kv: Store, m: Mode, org: Org, user: Option<User>, specs: seq<Spec>, claim: bool, latch: Name,
                   levels: Levels)
    requires GoodBundle(m, org, specs) && Represents(kv, m, levels) && AllTwinned(kv, m)
    requires GoodName(m, latch) && latch.IdemName?
    ensures var lines := LinesFor(m, org, user, specs);
            var seeded := SeedUpTo(kv, lines, m.dual, m.v2, |specs|);
            var after := SpendUpTo(if claim then Latch(seeded, PairOf(m, latch), m.dual) else seeded, lines, m.dual, |specs|);
            && Represents(after, m, AddCharge(levels, Charge(org, user, SpendOf(specs))))
            && AllTwinned(after, m)
  {
    hide PairOf, LinesFor, SeedUpTo, SpendUpTo, Latch;
    var lines := LinesFor(m, org, user, specs);
    var seeded := SeedUpTo(kv, lines, m.dual, m.v2, |specs|);
    var claimed := if claim then Latch(seeded, PairOf(m, latch), m.dual) else seeded;
    var after := SpendUpTo(claimed, lines, m.dual, |specs|);
    var charge := Charge(org, user, SpendOf(specs));
    forall s | GoodSlot(m, s)
      ensures Level(AddCharge(levels, charge), s) == Reading(ViewOf(after, m, NameOf(s)))
    {
      NameAfter(kv, m, org, user, specs, claim, latch, NameOf(s));
      AddedIsWeight(org, user, specs, s);
      LevelAfterAdd(levels, charge, s);
    }
    forall n | GoodName(m, n) && (n.GaugeName? || n.UserName? || n.SeqName?) ensures Twinned(ViewOf(after, m, n), m) {
      NameAfter(kv, m, org, user, specs, claim, latch, n);
    }
  }

  lemma NameAfter(kv: Store, m: Mode, org: Org, user: Option<User>, specs: seq<Spec>, claim: bool, latch: Name, n: Name)
    requires GoodBundle(m, org, specs) && GoodName(m, n) && GoodName(m, latch) && latch.IdemName? && n != latch
    requires Twinned(ViewOf(kv, m, n), m)
    ensures var lines := LinesFor(m, org, user, specs);
            var seeded := SeedUpTo(kv, lines, m.dual, m.v2, |specs|);
            var after := SpendUpTo(if claim then Latch(seeded, PairOf(m, latch), m.dual) else seeded, lines, m.dual, |specs|);
            && Reading(ViewOf(after, m, n))
               == Reading(ViewOf(kv, m, n)) + Value(AddedUpTo(org, user, specs, |specs|, n))
            && Twinned(ViewOf(after, m, n), m)
  {
    hide PairOf, LinesFor, SeedUpTo, SpendUpTo, Latch, AddedUpTo, SeedView, IncrView, ViewOf, Reading, Twinned;
    SpentView(kv, m, org, user, specs, claim, latch, n);
    ReadingAfter(ViewOf(kv, m, n), m, AddedUpTo(org, user, specs, |specs|, n));
  }

  // ---- Latches and create generations --------------------------------------------------------------

  /** Neither seeding nor spending touches a latch. */
  lemma LatchUntouched(kv: Store, m: Mode, org: Org, user: Option<User>, specs: seq<Spec>, latch: Name)
    requires GoodBundle(m, org, specs) && GoodName(m, latch) && latch.IdemName?
    ensures ViewOf(SeedUpTo(kv, LinesFor(m, org, user, specs), m.dual, m.v2, |specs|), m, latch) == ViewOf(kv, m, latch)
    ensures ViewOf(SpendUpTo(kv, LinesFor(m, org, user, specs), m.dual, |specs|), m, latch) == ViewOf(kv, m, latch)
  {
    hide LinesFor, SeedUpTo, SpendUpTo, PairOf;
    SeedsOn(kv, m, org, user, specs, |specs|, latch);
    SpendsOn(kv, m, org, user, specs, |specs|, latch);
    AddedUpToTouched(org, user, specs, |specs|, latch);
  }

  predicate Held(kv: Store, m: Mode, n: Name)
    requires GoodName(m, n)
  {
    Latched(kv, PairOf(m, n), m.dual)
  }

  lemma HeldSeen(kv: Store, m: Mode, n: Name)
    requires GoodName(m, n)
    ensures Held(kv, m, n) <==> ViewOf(kv, m, n).primary.Some? || ViewOf(kv, m, n).twin.Some?
  {
    hide PairOf;
  }

  lemma HeldAfterLatch(kv: Store, m: Mode, latch: Name, n: Name)
    requires GoodName(m, latch) && GoodName(m, n)
    ensures Held(Latch(kv, PairOf(m, latch), m.dual), m, n) <==> Held(kv, m, n) || n == latch
  {
    hide Key;
    KeysApart(m, latch, n);
    KeysApart(m, n, latch);
  }

  function RunScript(kv: Store, m: Mode, org: Org, user: Option<User>, specs: seq<Spec>, idem: Option<string>): (Verdict, Store)
    requires GoodBundle(m, org, specs) && specs != []
  {
    Script(kv, HasKey(idem), PairOf(m, IdemName(org, specs[0].rk, Named(idem))), m.dual, m.v2, LinesFor(m, org, user, specs))
  }

  lemma HeldThroughout(kv: Store, m: Mode, org: Org, user: Option<User>, specs: seq<Spec>, latch: Name)
    requires GoodBundle(m, org, specs) && GoodName(m, latch) && latch.IdemName?
    ensures Held(SeedUpTo(kv, LinesFor(m, org, user, specs), m.dual, m.v2, |specs|), m, latch) <==> Held(kv, m, latch)
    ensures Held(SpendUpTo(kv, LinesFor(m, org, user, specs), m.dual, |specs|), m, latch) <==> Held(kv, m, latch)
  {
    hide LinesFor, SeedUpTo, SpendUpTo, PairOf, Held, ViewOf, GoodName;
    LatchUntouched(kv, m, org, user, specs, latch);
    HeldSeen(kv, m, latch);
    HeldSeen(SeedUpTo(kv, LinesFor(m, org, user, specs), m.dual, m.v2, |specs|), m, latch);
    HeldSeen(SpendUpTo(kv, LinesFor(m, org, user, specs), m.dual, |specs|), m, latch);
  }

  /** A latch is held afterwards if it was held before, or if the script admitted under it. */
  lemma ScriptOnLatch(kv: Store, m: Mode, org: Org, user: Option<User>, specs: seq<Spec>, idem: Option<string>, n: Name)
    requires GoodBundle(m, org, specs) && specs != [] && GoodName(m, n) && n.IdemName?
    ensures var (v, after) := RunScript(kv, m, org, user, specs, idem);
            Held(after, m, n) <==>
              Held(kv, m, n) || (v == Ok && HasKey(idem) && n == IdemName(org, specs[0].rk, Named(idem)))
  {
    hide LinesFor, SeedUpTo, SpendUpTo, PairOf, Held, Latch, Latched, FirstMisfit;
    var latch, lines := IdemName(org, specs[0].rk, Named(idem)), LinesFor(m, org, user, specs);
    assert GoodName(m, latch);
    hide GoodBundle, GoodName;
    var seeded := SeedUpTo(kv, lines, m.dual, m.v2, |specs|);
    var claimed := if HasKey(idem) then Latch(seeded, PairOf(m, latch), m.dual) else seeded;
    HeldThroughout(kv, m, org, user, specs, n);
    HeldThroughout(claimed, m, org, user, specs, n);
    HeldAfterLatch(seeded, m, latch, n);
  }

  /** The user creates something under this generation's gauge. */
  predicate Creates(org: Org, user: Option<User>, specs: seq<Spec>, n: Name)
  {
    n.SeqName? && n.org == org && user == Some(n.uid) && n.rk in SpendOf(specs)
  }

  lemma AddedToGeneration(org: Org, user: Option<User>, specs: seq<Spec>, n: Name)
    requires Distinct(specs) && n.SeqName?
    ensures Value(AddedUpTo(org, user, specs, |specs|, n)) == if Creates(org, user, specs, n) then 1.0 else 0.0
  {
    AddedUpToTouched(org, user, specs, |specs|, n);
    if i: nat :| i < |specs| && Added(org, user, specs[i], n).Some? {
      AddedAt(org, user, specs, |specs|, i, n);
      assert specs[i] in specs;
    } else {
      assert forall sp <- specs :: Added(org, user, sp, n).None?;
    }
  }

  /** What the script does to the two keys of a counter. */
  lemma ScriptOnView(kv: Store, m: Mode, org: Org, user: Option<User>, specs: seq<Spec>, idem: Option<string>, n: Name)
    requires GoodBundle(m, org, specs) && specs != [] && GoodName(m, n) && !n.IdemName?
    ensures var (v, after) := RunScript(kv, m, org, user, specs, idem);
            ViewOf(after, m, n) == ViewAfter(ViewOf(kv, m, n), m, AddedUpTo(org, user, specs, |specs|, n), v == Ok)
  {
    hide RunScript, PairOf, LinesFor, SeedUpTo, SpendUpTo, Latch, AddedUpTo, ViewAfter, ViewOf;
    ScriptStores(kv, m, org, user, specs, idem);
    SeededView(kv, m, org, user, specs, n);
    SpentView(kv, m, org, user, specs, HasKey(idem), IdemName(org, specs[0].rk, Named(idem)), n);
  }

  lemma ScriptStores(kv: Store, m: Mode, org: Org, user: Option<User>, specs: seq<Spec>, idem: Option<string>)
    requires GoodBundle(m, org, specs) && specs != []
    ensures var (v, after) := RunScript(kv, m, org, user, specs, idem);
            var lines := LinesFor(m, org, user, specs);
            var seeded := SeedUpTo(kv, lines, m.dual, m.v2, |specs|);
            after == if v != Ok then seeded
                     else SpendUpTo(if HasKey(idem) then Latch(seeded, PairOf(m, IdemName(org, specs[0].rk, Named(idem))), m.dual)
                                    else seeded, lines, m.dual, |specs|)
  {
    hide PairOf, LinesFor, SeedUpTo, SpendUpTo, Latch, Latched, FirstMisfit;
  }

  /** What the script does to a counter's reading, name by name. */
  lemma ScriptOnName(kv: Store, m: Mode, org: Org, user: Option<User>, specs: seq<Spec>, idem: Option<string>, n: Name)
    requires GoodBundle(m, org, specs) && specs != [] && GoodName(m, n) && !n.IdemName? && Twinned(ViewOf(kv, m, n), m)
    ensures var (v, after) := RunScript(kv, m, org, user, specs, idem);
            && Reading(ViewOf(after, m, n))
               == Reading(ViewOf(kv, m, n)) + (if v == Ok then Value(AddedUpTo(org, user, specs, |specs|, n)) else 0.0)
            && Twinned(ViewOf(after, m, n), m)
  {
    hide RunScript, AddedUpTo, GoodBundle, ViewAfter, Twinned, Reading;
    ScriptOnView(kv, m, org, user, specs, idem, n);
    ReadingAfter(ViewOf(kv, m, n), m, AddedUpTo(org, user, specs, |specs|, n));
  }

  // ---- The refinement --------------------------------------------------------------------------------

  /** Each create generation has moved by one where an admission creates, else not at all. */
  ghost predicate GenerationsMove(kv: Store, after: Store, m: Mode, org: Org, user: Option<User>, specs: seq<Spec>,
                                  admitted: bool)
  {
    forall n | GoodName(m, n) && n.SeqName? ::
      Reading(ViewOf(after, m, n)) == Reading(ViewOf(kv, m, n)) + if admitted && Creates(org, user, specs, n) then 1.0 else 0.0
  }

  /** Every latch is held as it was, but for the one newly claimed. */
  ghost predicate LatchesMove(kv: Store, after: Store, m: Mode, claimed: Option<Name>)
  {
    forall n | GoodName(m, n) && n.IdemName? :: Held(after, m, n) <==> Held(kv, m, n) || claimed == Some(n)
  }

  /**
   The script over its flat arrays refines the all-or-nothing spend, in every keyspace mode: a held
   latch answers `dup`; otherwise it is refused exactly when some gauge does not fit, with the 1-based
   index of the first. Unless it admits, no reading and no latch has moved. If it does, every org and
   user level rises by exactly the bundle's charge, the user's create generation of each gauge by one,
   and the latch of its key is held. Twins stay equal throughout.
   */
  lemma ScriptRefinesSpend(kv: Store, m: Mode, org: Org, user: Option<User>, specs: seq<Spec>, idem: Option<string>,
                           levels: Levels)
    requires GoodBundle(m, org, specs) && specs != []
    requires Represents(kv, m, levels) && AllTwinned(kv, m)
    ensures var latch := IdemName(org, specs[0].rk, Named(idem));
            var (v, after) := RunScript(kv, m, org, user, specs, idem);
            var failing := FirstFailing(levels, org, user, specs);
            && v == (if HasKey(idem) && Held(kv, m, latch) then Dup
                     else if failing.Some? then Denied(failing.value + 1)
                     else Ok)
            && Represents(after, m, if v == Ok then AddCharge(levels, Charge(org, user, SpendOf(specs))) else levels)
            && AllTwinned(after, m)
            && GenerationsMove(kv, after, m, org, user, specs, v == Ok)
            && LatchesMove(kv, after, m, if v == Ok && HasKey(idem) then Some(latch) else None)
  {
    hide RunScript, Represents, AllTwinned, FirstFailing, GenerationsMove, LatchesMove, AddCharge;
    ScriptOnLevels(kv, m, org, user, specs, idem, levels);
    ScriptOnGenerations(kv, m, org, user, specs, idem);
    ScriptOnLatches(kv, m, org, user, specs, idem);
  }

  lemma ScriptOnGenerations(kv: Store, m: Mode, org: Org, user: Option<User>, specs: seq<Spec>, idem: Option<string>)
    requires GoodBundle(m, org, specs) && specs != [] && AllTwinned(kv, m)
    ensures var (v, after) := RunScript(kv, m, org, user, specs, idem);
            GenerationsMove(kv, after, m, org, user, specs, v == Ok)
  {
    var (v, after) := RunScript(kv, m, org, user, specs, idem);
    hide RunScript, AllTwinned, ViewOf;
    forall n | GoodName(m, n) && n.SeqName?
      ensures Reading(ViewOf(after, m, n))
           == Reading(ViewOf(kv, m, n)) + if v == Ok && Creates(org, user, specs, n) then 1.0 else 0.0
    {
      TwinnedAt(kv, m, n);
      ScriptOnName(kv, m, org, user, specs, idem, n);
      AddedToGeneration(org, user, specs, n);
    }
  }

  lemma ScriptOnLatches(kv: Store, m: Mode, org: Org, user: Option<User>, specs: seq<Spec>, idem: Option<string>)
    requires GoodBundle(m, org, specs) && specs != []
    ensures var (v, after) := RunScript(kv, m, org, user, specs, idem);
            LatchesMove(kv, after, m, if v == Ok && HasKey(idem) then Some(IdemName(org, specs[0].rk, Named(idem))) else None)
  {
    var after := RunScript(kv, m, org, user, specs, idem).1;
    hide RunScript, Held;
    forall n | GoodName(m, n) && n.IdemName? {
      ScriptOnLatch(kv, m, org, user, specs, idem, n);
    }
  }

  lemma TwinnedAt(kv: Store, m: Mode, n: Name)
    requires AllTwinned(kv, m) && GoodName(m, n) && n.SeqName?
    ensures Twinned(ViewOf(kv, m, n), m)
  {
  }

  lemma ScriptOnLevels(kv: Store, m: Mode, org: Org, user: Option<User>, specs: seq<Spec>, idem: Option<string>,
                       levels: Levels)
    requires GoodBundle(m, org, specs) && specs != []
    requires Represents(kv, m, levels) && AllTwinned(kv, m)
    ensures var (v, after) := RunScript(kv, m, org, user, specs, idem);
            var failing := FirstFailing(levels, org, user, specs);
            && v == (if HasKey(idem) && Held(kv, m, IdemName(org, specs[0].rk, Named(idem))) then Dup
                     else if failing.Some? then Denied(failing.value + 1)
                     else Ok)
            && Represents(after, m, if v == Ok then AddCharge(levels, Charge(org, user, SpendOf(specs))) else levels)
            && AllTwinned(after, m)
  {
    hide PairOf, LinesFor, SeedUpTo, SpendUpTo, Represents, AllTwinned, AddCharge, Latch, ViewOf;
    var latch := IdemName(org, specs[0].rk, Named(idem));
    LatchUntouched(kv, m, org, user, specs, latch);
    HeldSeen(kv, m, latch);
    HeldSeen(SeedUpTo(kv, LinesFor(m, org, user, specs), m.dual, m.v2, |specs|), m, latch);
    MisfitIsFirstFailing(kv, m, org, user, specs, levels);
    SpendsMean(kv, m, org, user, specs, HasKey(idem), latch, levels);
    SeedsKeep(kv, m, org, user, specs, levels);
  }

  /** After an admission every gauge of the bundle is within its limits. */
  lemma AdmittedWithinLimits(levels: Levels, org: Org, user: Option<User>, specs: seq<Spec>, i: nat)
    requires WellFormed(specs) && i < |specs| && FirstFailing(levels, org, user, specs).None?
    ensures var after := AddCharge(levels, Charge(org, user, SpendOf(specs)));
            var sp := specs[i];
            && (sp.orgLimit.Some? ==> Level(after, OrgSlot(org, sp.rk)) <= sp.orgLimit.value)
            && (user.Some? && sp.userLimit.Some? ==> Level(after, UserSlot(org, sp.rk, user.value)) <= sp.userLimit.value)
  {
    var charge := Charge(org, user, SpendOf(specs));
    DeltaAt(specs, i);
    assert Fits(levels, org, user, specs[i]);
    LevelAfterAdd(levels, charge, OrgSlot(org, specs[i].rk));
    if user.Some? {
      LevelAfterAdd(levels, charge, UserSlot(org, specs[i].rk, user.value));
    }
  }
}
