/**
 The bundle script as one step of the ledger machine, and as one script of the keyspace migration:
 the same run over string keys, seen from both.
 */
module BundleStep {
  import opened Prelude
  import opened Gauges
  import opened Activations
  import opened Keyspace
  import opened BundleSpend
  import opened BundleMeaning
  import Machine = LedgerMachine
  import Admission
  import Engine
  import Migration

  // ---- A step of the ledger machine -----------------------------------------------------------------

  function GenerationAt(generations: map<Slot, nat>, s: Slot): nat { if s in generations then generations[s] else 0 }

  function SeqOf(s: Slot): Name
    requires s.UserSlot?
  {
    SeqName(s.org, s.rk, s.user)
  }

  function LatchName(k: Machine.IdemKey): Name { IdemName(k.org, k.rk, k.key) }

  ghost predicate MirrorsGenerations(kv: Store, m: Mode, generations: map<Slot, nat>)
  {
    forall s: Slot | s.UserSlot? && GoodSlot(m, s) ::
      Reading(ViewOf(kv, m, SeqOf(s))) == GenerationAt(generations, s) as real
  }

  ghost predicate MirrorsLatches(kv: Store, m: Mode, idem: set<Machine.IdemKey>)
  {
    forall k: Machine.IdemKey | GoodName(m, LatchName(k)) :: Held(kv, m, LatchName(k)) <==> k in idem
  }

  /** The keys read as the machine's levels, generations and idempotency latches; and twins are equal. */
  ghost predicate Mirrors(kv: Store, m: Mode, st: Machine.State)
  {
    && Represents(kv, m, st.levels) && AllTwinned(kv, m)
    && MirrorsGenerations(kv, m, st.generations) && MirrorsLatches(kv, m, st.idem)
  }

  lemma BumpedOnSlot(generations: map<Slot, nat>, c: Charge, s: Slot)
    requires s.UserSlot?
    ensures GenerationAt(Machine.BumpGenerations(generations, c), s) == GenerationAt(generations, s)
              + if s.org == c.org && c.user == Some(s.user) && s.rk in c.spend then 1 else 0
  {
  }

  lemma GenerationsFollow(kv: Store, after: Store, m: Mode, generations: map<Slot, nat>, org: Org, user: Option<User>,
                          specs: seq<Spec>, admitted: bool)
    requires ValidMode(m) && MirrorsGenerations(kv, m, generations)
    requires GenerationsMove(kv, after, m, org, user, specs, admitted)
    ensures MirrorsGenerations(after, m, if admitted then Machine.BumpGenerations(generations, Charge(org, user, SpendOf(specs)))
                                         else generations)
  {
    hide SpendOf, Machine.BumpGenerations, ViewOf, Reading;
    var charge := Charge(org, user, SpendOf(specs));
    forall s: Slot | s.UserSlot? && GoodSlot(m, s)
      ensures Reading(ViewOf(after, m, SeqOf(s)))
           == GenerationAt(if admitted then Machine.BumpGenerations(generations, charge) else generations, s) as real
    {
      assert GoodName(m, SeqOf(s)) && SeqOf(s).SeqName?;
      BumpedOnSlot(generations, charge, s);
    }
  }

  lemma LatchesFollow(kv: Store, after: Store, m: Mode, idem: set<Machine.IdemKey>, k: Option<Machine.IdemKey>)
    requires MirrorsLatches(kv, m, idem) && (k.Some? ==> GoodName(m, LatchName(k.value)))
    requires LatchesMove(kv, after, m, if k.Some? then Some(LatchName(k.value)) else None)
    ensures MirrorsLatches(after, m, idem + if k.Some? then {k.value} else {})
  {
    hide Held, GoodName;
    forall l: Machine.IdemKey | GoodName(m, LatchName(l))
      ensures Held(after, m, LatchName(l)) <==> l in idem + if k.Some? then {k.value} else {}
    {
      assert LatchName(l).IdemName?;
    }
  }

  /** The machine's latch key of an acquire, and the key the script is given for it. */
  lemma SameLatch(m: Mode, row: Activation, specs: seq<Spec>, key: Option<string>)
    requires GoodBundle(m, row.charge.org, specs) && specs != []
    ensures var k := Machine.AcquireKey(row, specs, key);
            && k.Some? == HasKey(key)
            && (k.Some? ==>
                  && GoodName(m, LatchName(k.value))
                  && LatchName(k.value) == IdemName(row.charge.org, specs[0].rk, Named(key)))
  {
    hide Carries, ValidScope, ResourceKey;
  }

  lemma LatchMirrored(kv: Store, m: Mode, idem: set<Machine.IdemKey>, row: Activation, specs: seq<Spec>, key: Option<string>)
    requires GoodBundle(m, row.charge.org, specs) && specs != [] && MirrorsLatches(kv, m, idem) && HasKey(key)
    ensures Held(kv, m, IdemName(row.charge.org, specs[0].rk, Named(key))) <==> Machine.AcquireKey(row, specs, key).value in idem
  {
    hide Held;
    SameLatch(m, row, specs, key);
  }

  /** What an admission does to a state, and what anything else does. */
  function Admitted(st: Machine.State, row: Activation, specs: seq<Spec>, key: Option<string>, admitted: bool): Machine.State
  {
    if !admitted then st
    else
      var k := Machine.AcquireKey(row, specs, key);
      st.(levels := AddCharge(st.levels, row.charge), generations := Machine.BumpGenerations(st.generations, row.charge),
          idem := st.idem + if k.Some? then {k.value} else {})
  }

  /** The script's answer, in the machine's terms. */
  lemma ScriptAnswers(kv: Store, m: Mode, st: Machine.State, row: Activation, specs: seq<Spec>, key: Option<string>)
    requires GoodBundle(m, row.charge.org, specs) && specs != [] && Mirrors(kv, m, st)
    ensures var v := RunScript(kv, m, row.charge.org, row.charge.user, specs, key).0;
            && (v == Ok <==> Machine.Spends(st, row, specs, key))
            && (v == Dup <==> Machine.Duplicate(st, row, specs, key))
  {
    SameLatch(m, row, specs, key);
    if HasKey(key) {
      LatchMirrored(kv, m, st.idem, row, specs, key);
    }
    assert Machine.Duplicate(st, row, specs, key) <==>
      HasKey(key) && Held(kv, m, IdemName(row.charge.org, specs[0].rk, Named(key)));
    assert Machine.Admits(st, row, specs, key) <==> FirstFailing(st.levels, row.charge.org, row.charge.user, specs).None?;
    hide Represents, AllTwinned, MirrorsGenerations, MirrorsLatches, RunScript, Held, AddCharge, FirstFailing, GoodBundle,
         SpendOf, Machine.AcquireKey, Machine.Duplicate, Machine.Admits;
    ScriptOnLevels(kv, m, row.charge.org, row.charge.user, specs, key, st.levels);
  }

  lemma ScriptMirrors(kv: Store, m: Mode, st: Machine.State, row: Activation, specs: seq<Spec>, key: Option<string>)
    requires GoodBundle(m, row.charge.org, specs) && specs != [] && Mirrors(kv, m, st)
    requires row.charge.spend == SpendOf(specs)
    ensures var (v, after) := RunScript(kv, m, row.charge.org, row.charge.user, specs, key);
            Mirrors(after, m, Admitted(st, row, specs, key, v == Ok))
  {
    hide Represents, AllTwinned, MirrorsGenerations, MirrorsLatches, GenerationsMove, LatchesMove, RunScript, Held, AddCharge,
         FirstFailing, GoodBundle, GoodName, SpendOf, Machine.BumpGenerations, Machine.AcquireKey;
    var org, user := row.charge.org, row.charge.user;
    var (v, after) := RunScript(kv, m, org, user, specs, key);
    assert row.charge == Charge(org, user, SpendOf(specs));
    ScriptOnLevels(kv, m, org, user, specs, key, st.levels);
    ScriptGenerations(kv, m, st.generations, row, specs, key);
    ScriptLatches(kv, m, st.idem, row, specs, key);
  }

  lemma ScriptGenerations(kv: Store, m: Mode, generations: map<Slot, nat>, row: Activation, specs: seq<Spec>,
                          key: Option<string>)
    requires GoodBundle(m, row.charge.org, specs) && specs != [] && MirrorsGenerations(kv, m, generations)
    requires AllTwinned(kv, m) && row.charge.spend == SpendOf(specs)
    ensures var (v, after) := RunScript(kv, m, row.charge.org, row.charge.user, specs, key);
            MirrorsGenerations(after, m, if v == Ok then Machine.BumpGenerations(generations, row.charge) else generations)
  {
    hide MirrorsGenerations, GenerationsMove, RunScript, AllTwinned, SpendOf, Machine.BumpGenerations;
    var (v, after) := RunScript(kv, m, row.charge.org, row.charge.user, specs, key);
    ScriptOnGenerations(kv, m, row.charge.org, row.charge.user, specs, key);
    GenerationsFollow(kv, after, m, generations, row.charge.org, row.charge.user, specs, v == Ok);
    assert row.charge == Charge(row.charge.org, row.charge.user, SpendOf(specs));
  }

  lemma ScriptLatches(kv: Store, m: Mode, idem: set<Machine.IdemKey>, row: Activation, specs: seq<Spec>, key: Option<string>)
    requires GoodBundle(m, row.charge.org, specs) && specs != [] && MirrorsLatches(kv, m, idem)
    ensures var (v, after) := RunScript(kv, m, row.charge.org, row.charge.user, specs, key);
            var k := Machine.AcquireKey(row, specs, key);
            MirrorsLatches(after, m, if v == Ok then idem + (if k.Some? then {k.value} else {}) else idem)
  {
    hide MirrorsLatches, LatchesMove, RunScript, GoodName, GoodBundle, Machine.AcquireKey;
    var (v, after) := RunScript(kv, m, row.charge.org, row.charge.user, specs, key);
    SameLatch(m, row, specs, key);
    ScriptOnLatches(kv, m, row.charge.org, row.charge.user, specs, key);
    LatchesFollow(kv, after, m, idem, if v == Ok then Machine.AcquireKey(row, specs, key) else None);
    assert idem + {} == idem;
  }

  /**
   Run on keys that mirror a state of the ledger machine, the script leaves keys that mirror the state
   after the machine's own acquire: levels, create generations and idempotency latches together. It
   answers `ok` exactly when that acquire spends, `dup` exactly when it recognises a replay.
   */
  lemma ScriptIsAcquire(kv: Store, m: Mode, st: Machine.State, c: nat, row: Activation, specs: seq<Spec>,
                        key: Option<string>)
    requires GoodBundle(m, row.charge.org, specs) && specs != [] && Mirrors(kv, m, st)
    requires Machine.Enabled(st, Machine.Acquire(c, row, specs, key))
    ensures var (v, after) := RunScript(kv, m, row.charge.org, row.charge.user, specs, key);
            && Mirrors(after, m, Machine.Next(st, Machine.Acquire(c, row, specs, key)))
            && (v == Ok <==> Machine.Spends(st, row, specs, key))
            && (v == Dup <==> Machine.Duplicate(st, row, specs, key))
  {
    hide RunScript, GoodBundle, AddCharge, FirstFailing, WellFormed, Machine.BumpGenerations, Machine.AcquireKey,
         Machine.Duplicate, Machine.Admits;
    ScriptMirrors(kv, m, st, row, specs, key);
    ScriptAnswers(kv, m, st, row, specs, key);
  }

  /**
   And the same script without its limits leaves keys that mirror the state after the second one of shadow
   mode. It never refuses, and it answers `dup` exactly when the row that follows has not been paid for.
   */
  lemma ScriptIsShadowRetry(kv: Store, m: Mode, st: Machine.State, c: nat, row: Activation, specs: seq<Spec>,
                            key: Option<string>)
    requires GoodBundle(m, row.charge.org, specs) && specs != [] && Mirrors(kv, m, st)
    requires Machine.Enabled(st, Machine.ShadowRetry(c, row, specs, key))
    ensures var (v, after) := RunScript(kv, m, row.charge.org, row.charge.user, Admission.DropLimits(specs), key);
            && Mirrors(after, m, Machine.Next(st, Machine.ShadowRetry(c, row, specs, key)))
            && v == (if Machine.Haunts(st, Machine.ShadowRetry(c, row, specs, key)) then Dup else Ok)
  {
    var free := Admission.DropLimits(specs);
    Engine.DropLimitsSpends(specs);
    Engine.DropLimitsFit(st.levels, row.charge.org, row.charge.user, specs);
    Engine.DropLimitsKey(row, specs, key);
    Engine.RetryLeaves(st, c, row, specs, key);
    hide RunScript, AddCharge, FirstFailing, WellFormed, SpendOf, Machine.BumpGenerations, Machine.AcquireKey, Machine.Next,
         MirrorsGenerations, MirrorsLatches, Represents, AllTwinned;
    ScriptMirrors(kv, m, st, row, free, key);
    ScriptAnswers(kv, m, st, row, free, key);
  }

  // ---- A script of the migration -------------------------------------------------------------------------

  /** The two keys of a counter by shape, whichever of them is read. */
  function BothOf(kv: Store, m: Mode, n: Name): Migration.Both
    requires GoodName(m, n)
  {
    Shaped(ViewOf(kv, m, n), m)
  }

  function Shaped(v: View, m: Mode): Migration.Both
  {
    if m.v2 then Migration.Both(v.twin, v.primary) else Migration.Both(v.primary, v.twin)
  }

  function V1Key(n: Name): string { Print(V1, n).value }

  /** The migration's counters are these keys, by v1 key. */
  ghost predicate Counts(kv: Store, m: Mode, c: Migration.Counters)
  {
    forall n | GoodName(m, n) && !n.IdemName? :: Migration.At(c, V1Key(n)) == BothOf(kv, m, n)
  }

  function LineAction(admitted: bool, d: real): Migration.Action { if admitted then Migration.Add(d) else Migration.Seed }

  function WithLine(actions: map<string, Migration.Action>, org: Org, user: Option<User>, sp: Spec,
                    admitted: bool): map<string, Migration.Action>
  {
    var gauge := actions[V1Key(GaugeName(org, sp.rk)) := LineAction(admitted, sp.delta)];
    if user.None? then gauge
    else gauge[V1Key(UserName(org, sp.rk, user.value)) := LineAction(admitted, sp.delta)]
              [V1Key(SeqName(org, sp.rk, user.value)) := LineAction(admitted, 1.0)]
  }

  /** What the script does, as the migration sees it: it seeds all it names, and adds if it admits. */
  function ActionsUpTo(org: Org, user: Option<User>, specs: seq<Spec>, admitted: bool, i: nat): map<string, Migration.Action>
    requires i <= |specs|
  {
    if i == 0 then map[] else WithLine(ActionsUpTo(org, user, specs, admitted, i - 1), org, user, specs[i - 1], admitted)
  }

  lemma V1KeysApart(m: Mode, a: Name, b: Name)
    requires m.dual && GoodName(m, a) && GoodName(m, b)
    ensures V1Key(a) == V1Key(b) ==> a == b
  {
    SameKeySameName(V1, a, V1, b);
  }

  lemma LineActionAt(actions: map<string, Migration.Action>, m: Mode, org: Org, user: Option<User>, sp: Spec, admitted: bool,
                     n: Name)
    requires m.dual && ValidMode(m) && ModeCarries(m, org) && ResourceKey(sp.rk) && GoodName(m, n)
    ensures var d := Added(org, user, sp, n);
            var actions' := WithLine(actions, org, user, sp, admitted);
            if d.Some? then V1Key(n) in actions' && actions'[V1Key(n)] == LineAction(admitted, d.value)
            else (V1Key(n) in actions' <==> V1Key(n) in actions)
                 && (V1Key(n) in actions ==> actions'[V1Key(n)] == actions[V1Key(n)])
  {
    hide V1Key, ModeCarries, ResourceKey, LineAction, ValidMode;
    var u := if user.Some? then user.value else "";
    V1KeysApart(m, GaugeName(org, sp.rk), n);
    V1KeysApart(m, UserName(org, sp.rk, u), n);
    V1KeysApart(m, SeqName(org, sp.rk, u), n);
  }

  /** The script's action on a key: the one for what the bundle adds under it, or none. */
  predicate Acts(actions: map<string, Migration.Action>, key: string, d: Option<real>, admitted: bool)
  {
    if d.Some? then key in actions && actions[key] == LineAction(admitted, d.value) else key !in actions
  }

  lemma LineActs(actions: map<string, Migration.Action>, m: Mode, org: Org, user: Option<User>, sp: Spec, admitted: bool,
                 n: Name, d: Option<real>)
    requires m.dual && ValidMode(m) && ModeCarries(m, org) && ResourceKey(sp.rk) && GoodName(m, n)
    requires Acts(actions, V1Key(n), d, admitted)
    ensures var d' := Added(org, user, sp, n);
            Acts(WithLine(actions, org, user, sp, admitted), V1Key(n), if d'.Some? then d' else d, admitted)
  {
    hide WithLine, V1Key, Added, ModeCarries, GoodName, ValidMode, ResourceKey;
    LineActionAt(actions, m, org, user, sp, admitted, n);
  }

  lemma {:induction false} ActionsAt(m: Mode, org: Org, user: Option<User>, specs: seq<Spec>, admitted: bool, i: nat, n: Name)
    requires m.dual && GoodBundle(m, org, specs) && i <= |specs| && GoodName(m, n)
    ensures Acts(ActionsUpTo(org, user, specs, admitted, i), V1Key(n), AddedUpTo(org, user, specs, i, n), admitted)
  {
    hide V1Key, WithLine, Added, GoodName;
    if i > 0 {
      hide Acts;
      ActionsAt(m, org, user, specs, admitted, i - 1, n);
      LineActs(ActionsUpTo(org, user, specs, admitted, i - 1), m, org, user, specs[i - 1], admitted, n,
               AddedUpTo(org, user, specs, i - 1, n));
    }
  }

  lemma LineTwinable(actions: map<string, Migration.Action>, m: Mode, org: Org, user: Option<User>, sp: Spec, admitted: bool,
                     k: string)
    requires m.dual && ModeCarries(m, org) && ResourceKey(sp.rk) && k in WithLine(actions, org, user, sp, admitted)
    ensures k in actions || Migration.Twinable(k)
  {
    assert PlainOrg(org) && ValidScope(org);
    hide Migration.Twinable, Migration.Scanned, ResourceKey, ValidScope, PlainOrg, Print;
    Migration.PlainCounterScanned(GaugeName(org, sp.rk));
    if user.Some? {
      Migration.PlainCounterScanned(UserName(org, sp.rk, user.value));
      Migration.PlainCounterScanned(SeqName(org, sp.rk, user.value));
    }
  }

  lemma {:induction false} ActionsTwinable(m: Mode, org: Org, user: Option<User>, specs: seq<Spec>, admitted: bool, i: nat,
                                           k: string)
    requires m.dual && GoodBundle(m, org, specs) && i <= |specs| && k in ActionsUpTo(org, user, specs, admitted, i)
    ensures Migration.Twinable(k)
  {
    hide WithLine, Migration.Twinable, ResourceKey;
    LineTwinable(ActionsUpTo(org, user, specs, admitted, i - 1), m, org, user, specs[i - 1], admitted, k);
    if k in ActionsUpTo(org, user, specs, admitted, i - 1) {
      ActionsTwinable(m, org, user, specs, admitted, i - 1, k);
    }
  }

  /** Seeding a view, and adding to it, is what the migration's script does to the pair. */
  lemma ActOnView(v: View, m: Mode, d: real)
    requires m.dual
    ensures Shaped(SeedView(v, m), m) == Migration.Act(Shaped(v, m), Migration.Seed)
    ensures Shaped(IncrView(SeedView(v, m), m, d), m) == Migration.Act(Shaped(v, m), Migration.Add(d))
  {
  }

  /** Equal twins are equal twins there, and the counter reads the same. */
  lemma SameReading(v: View, m: Mode, org: Org)
    requires m.dual && ValidScope(org)
    ensures Twinned(v, m) <==> Migration.Twinned(Shaped(v, m))
    ensures Migration.Reading(org, Shaped(v, m), if m.v2 then 2 else 1, true) == Some(Reading(v))
  {
  }

  lemma DualOnName(kv: Store, m: Mode, org: Org, user: Option<User>, specs: seq<Spec>, idem: Option<string>,
                   c: Migration.Counters, n: Name)
    requires m.dual && GoodBundle(m, org, specs) && specs != [] && GoodName(m, n) && !n.IdemName?
    requires Migration.At(c, V1Key(n)) == BothOf(kv, m, n)
    ensures var (v, after) := RunScript(kv, m, org, user, specs, idem);
            var e := Migration.Script(ActionsUpTo(org, user, specs, v == Ok, |specs|));
            Migration.At(Migration.Next(c, e), V1Key(n)) == BothOf(after, m, n)
  {
    hide RunScript, V1Key, ViewOf, ActionsUpTo, AddedUpTo, Shaped, SeedView, IncrView, GoodName, GoodBundle;
    hide Migration.Act, Migration.Next, Migration.Twinned;
    var admitted := RunScript(kv, m, org, user, specs, idem).0 == Ok;
    var d := AddedUpTo(org, user, specs, |specs|, n);
    Migration.StepTwinned(c, Migration.Script(ActionsUpTo(org, user, specs, admitted, |specs|)), V1Key(n));
    ActionsAt(m, org, user, specs, admitted, |specs|, n);
    ScriptOnView(kv, m, org, user, specs, idem, n);
    ActOnView(ViewOf(kv, m, n), m, if d.Some? then d.value else 0.0);
  }

  /**
   While both shapes are written, whichever is read, the script is one dual script of the migration: on
   an admission it adds to every counter of the bundle, on a refusal or a replay it only seeds them. So
   what holds over the migration's runs holds with admissions in them.
   */
  lemma ScriptIsDualWrite(kv: Store, m: Mode, org: Org, user: Option<User>, specs: seq<Spec>, idem: Option<string>,
                          c: Migration.Counters)
    requires m.dual && GoodBundle(m, org, specs) && specs != [] && Counts(kv, m, c)
    ensures var (v, after) := RunScript(kv, m, org, user, specs, idem);
            var e := Migration.Script(ActionsUpTo(org, user, specs, v == Ok, |specs|));
            Migration.Enabled(e) && Counts(after, m, Migration.Next(c, e))
  {
    hide RunScript, GoodBundle, V1Key, Migration.Twinable, Migration.Next, Migration.At, BothOf, ActionsUpTo;
    var (v, after) := RunScript(kv, m, org, user, specs, idem);
    var actions := ActionsUpTo(org, user, specs, v == Ok, |specs|);
    forall k <- actions ensures Migration.Twinable(k) {
      ActionsTwinable(m, org, user, specs, v == Ok, |specs|, k);
    }
    forall n | GoodName(m, n) && !n.IdemName?
      ensures Migration.At(Migration.Next(c, Migration.Script(actions)), V1Key(n)) == BothOf(after, m, n)
    {
      DualOnName(kv, m, org, user, specs, idem, c, n);
    }
  }
}
