/**
 The atomic bundle script: check every gauge of a bundle, then spend every one, in one Redis
 operation over flat 1-based KEYS and ARGV arrays. During a keyspace migration the key set is
 doubled with the other shape. The script is proved against a record-level function, and that
 function against the levels the rest of the library reasons about.
 */
module BundleSpend {
  import opened Prelude
  import opened Gauges
  import opened Keyspace

  type Store = map<string, real>

  /** What the script's ARGV carries, already read from its decimal form. */
  datatype Arg = Flag(on: bool) | Count(n: nat) | Num(x: real) | Limit(limit: Option<real>)

  /** `{'1','ok'}`, `{'1','dup'}`, or `{'0', i}` with i the 1-based failing gauge. */
  datatype Verdict = Ok | Dup | Denied(index: nat)

  /** A key and its twin in the other shape; without dual-write the twin is never looked at. */
  datatype Pair = Pair(primary: string, twin: string)

  datatype Line = Line(org: Pair, user: Pair, gen: Pair, hasUser: bool,
                       delta: real, orgLimit: Option<real>, userLimit: Option<real>)

  function Get(kv: Store, k: string): real { if k in kv then kv[k] else 0.0 }

  // ---- The Lua helpers (counters/base.py) --------------------------------------------------------

  /** The v2 side is copied from the v1 side when it is absent. */
  function Seed(kv: Store, p: Pair, dual: bool, v2p: bool): Store
  {
    if !dual then kv
    else if v2p then
      if p.primary !in kv && p.twin in kv then kv[p.primary := kv[p.twin]] else kv
    else
      if p.twin !in kv && p.primary in kv then kv[p.twin := kv[p.primary]] else kv
  }

  predicate Latched(kv: Store, p: Pair, dual: bool) { p.primary in kv || (dual && p.twin in kv) }

  function SetNx(kv: Store, k: string): Store { if k in kv then kv else kv[k := 1.0] }

  function Latch(kv: Store, p: Pair, dual: bool): Store
  {
    var kv1 := SetNx(kv, p.primary);
    if dual then SetNx(kv1, p.twin) else kv1
  }

  function Incr(kv: Store, k: string, d: real): Store { kv[k := Get(kv, k) + d] }

  function IncrBoth(kv: Store, p: Pair, d: real, dual: bool): Store
  {
    var kv1 := Incr(kv, p.primary, d);
    if dual then Incr(kv1, p.twin, d) else kv1
  }

  // ---- The record-level script -------------------------------------------------------------------

  function SeedLine(kv: Store, l: Line, dual: bool, v2p: bool): Store
  {
    var kv1 := Seed(kv, l.org, dual, v2p);
    if l.hasUser then Seed(Seed(kv1, l.user, dual, v2p), l.gen, dual, v2p) else kv1
  }

  function SeedUpTo(kv: Store, lines: seq<Line>, dual: bool, v2p: bool, i: nat): Store
    requires i <= |lines|
  {
    if i == 0 then kv else SeedLine(SeedUpTo(kv, lines, dual, v2p, i - 1), lines[i - 1], dual, v2p)
  }

  predicate LineFits(kv: Store, l: Line)
  {
    && Within(Get(kv, l.org.primary), l.delta, l.orgLimit)
    && (l.hasUser ==> Within(Get(kv, l.user.primary), l.delta, l.userLimit))
  }

  function SpendLine(kv: Store, l: Line, dual: bool): Store
  {
    var kv1 := IncrBoth(kv, l.org, l.delta, dual);
    if l.hasUser then IncrBoth(IncrBoth(kv1, l.gen, 1.0, dual), l.user, l.delta, dual) else kv1
  }

  function SpendUpTo(kv: Store, lines: seq<Line>, dual: bool, i: nat): Store
    requires i <= |lines|
  {
    if i == 0 then kv else SpendLine(SpendUpTo(kv, lines, dual, i - 1), lines[i - 1], dual)
  }

  /** The index of the first line that does not fit, or the number of lines. */
  function FirstMisfit(kv: Store, lines: seq<Line>, i: nat): (k: nat)
    requires i <= |lines|
    ensures i <= k <= |lines|
    ensures forall j | i <= j < k :: LineFits(kv, lines[j])
    ensures k < |lines| ==> !LineFits(kv, lines[k])
    decreases |lines| - i
  {
    if i == |lines| || !LineFits(kv, lines[i]) then i else FirstMisfit(kv, lines, i + 1)
  }

  /** The script as a whole: what it answers and the store it leaves. */
  function Script(kv: Store, hasIdem: bool, idem: Pair, dual: bool, v2p: bool, lines: seq<Line>): (Verdict, Store)
  {
    var seeded := SeedUpTo(kv, lines, dual, v2p, |lines|);
    var k := FirstMisfit(seeded, lines, 0);
    if hasIdem && Latched(seeded, idem, dual) then (Dup, seeded)
    else if k < |lines| then (Denied(k + 1), seeded)
    else (Ok, SpendUpTo(if hasIdem then Latch(seeded, idem, dual) else seeded, lines, dual, |lines|))
  }

  // ---- The flat arrays ------------------------------------------------------------------------------

  /** KEYS = [idem, then org, user, seq per gauge], doubled when dual; ARGV = 5 + 4 per gauge. */
  predicate ScriptArgs(KEYS: seq<string>, ARGV: seq<Arg>)
  {
    && |ARGV| >= 5
    && ARGV[0].Flag? && ARGV[1].Count? && ARGV[2].Count? && ARGV[3].Flag? && ARGV[4].Flag?
    && |ARGV| == 5 + 4 * ARGV[2].n
    && |KEYS| == (if ARGV[3].on then 2 else 1) * (1 + 3 * ARGV[2].n)
    && forall i | 1 <= i <= ARGV[2].n :: GaugeArgs(ARGV, i)
  }

  /** has_user, delta, org_limit, user_limit of gauge i, at `ab = 5 + (i-1)*4`. */
  predicate GaugeArgs(ARGV: seq<Arg>, i: nat)
  {
    var ab := 5 + (i - 1) * 4;
    1 <= i && ab + 4 <= |ARGV| && ARGV[ab].Flag? && ARGV[ab + 1].Num? && ARGV[ab + 2].Limit? && ARGV[ab + 3].Limit?
  }

  /** `KEYS[i]` with its twin `KEYS[NK + i]`, both 1-based. */
  function KeyPair(KEYS: seq<string>, ARGV: seq<Arg>, i: nat): Pair
    requires ScriptArgs(KEYS, ARGV) && 1 <= i <= 1 + 3 * ARGV[2].n
  {
    Pair(KEYS[i - 1], if ARGV[3].on then KEYS[1 + 3 * ARGV[2].n + i - 1] else KEYS[i - 1])
  }

  /** The line of gauge i (1-based), read at the script's offsets kb = 1 + (i-1)*3, ab = 5 + (i-1)*4. */
  function LineAt(KEYS: seq<string>, ARGV: seq<Arg>, i: nat): Line
    requires ScriptArgs(KEYS, ARGV) && 1 <= i <= ARGV[2].n
  {
    var kb := 1 + (i - 1) * 3;
    var ab := 5 + (i - 1) * 4;
    assert GaugeArgs(ARGV, i);
    Line(KeyPair(KEYS, ARGV, kb + 1), KeyPair(KEYS, ARGV, kb + 2), KeyPair(KEYS, ARGV, kb + 3),
         ARGV[ab].on, ARGV[ab + 1].x, ARGV[ab + 2].limit, ARGV[ab + 3].limit)
  }

  function LinesOf(KEYS: seq<string>, ARGV: seq<Arg>): (lines: seq<Line>)
    requires ScriptArgs(KEYS, ARGV)
    ensures |lines| == ARGV[2].n
  {
    seq(ARGV[2].n, i requires 0 <= i < ARGV[2].n => LineAt(KEYS, ARGV, i + 1))
  }

  class Redis {
    var kv: Store

    /** `_ACQUIRE`: seed all, look at the latch, check all, claim, spend all. */
    method AcquireScript(KEYS: seq<string>, ARGV: seq<Arg>) returns (v: Verdict)
      requires ScriptArgs(KEYS, ARGV)
      modifies this
      ensures (v, kv) == Script(old(kv), ARGV[0].on, KeyPair(KEYS, ARGV, 1), ARGV[3].on, ARGV[4].on, LinesOf(KEYS, ARGV))
    {
      hide KeyPair, LinesOf, SeedUpTo, SpendUpTo, FirstMisfit, Latch, Latched, GaugeArgs;
      SeedLoop(KEYS, ARGV, 1 + 3 * ARGV[2].n);
      v := Judge(KEYS, ARGV);
      if v == Ok {
        ClaimAndSpend(KEYS, ARGV);
      }
    }

    /** The middle of the script, which only reads: the latch, then every check. */
    method Judge(KEYS: seq<string>, ARGV: seq<Arg>) returns (v: Verdict)
      requires ScriptArgs(KEYS, ARGV)
      ensures v == if ARGV[0].on && Latched(kv, KeyPair(KEYS, ARGV, 1), ARGV[3].on) then Dup
                   else var k := FirstMisfit(kv, LinesOf(KEYS, ARGV), 0);
                        if k < ARGV[2].n then Denied(k + 1) else Ok
    {
      hide LinesOf, FirstMisfit, Latched;
      if ARGV[0].on {
        var dup := IdemDup(KEYS, 1 + 3 * ARGV[2].n, ARGV[3].on);
        if dup {
          return Dup;
        }
      }
      var k := CheckLoop(KEYS, ARGV);
      v := if k > 0 then Denied(k) else Ok;
    }

    /** Its end, reached when nothing stands in the way. */
    method ClaimAndSpend(KEYS: seq<string>, ARGV: seq<Arg>)
      requires ScriptArgs(KEYS, ARGV)
      modifies this
      ensures kv == SpendUpTo(if ARGV[0].on then Latch(old(kv), KeyPair(KEYS, ARGV, 1), ARGV[3].on) else old(kv),
                              LinesOf(KEYS, ARGV), ARGV[3].on, ARGV[2].n)
    {
      hide LinesOf, SpendUpTo, Latch;
      if ARGV[0].on {
        IdemClaim(KEYS, 1 + 3 * ARGV[2].n, ARGV[3].on);
      }
      SpendLoop(KEYS, ARGV, 1 + 3 * ARGV[2].n);
    }

    /** `idem_dup(1)`: either shape's latch counts. */
    method IdemDup(KEYS: seq<string>, NK: nat, dual: bool) returns (dup: bool)
      requires NK >= 1 && |KEYS| == if dual then 2 * NK else NK
      ensures dup == Latched(kv, Pair(KEYS[0], if dual then KEYS[NK] else KEYS[0]), dual)
    {
      return KEYS[0] in kv || (dual && KEYS[NK] in kv);
    }

    /** `idem_claim(1)`: both latches, each only if absent. */
    method IdemClaim(KEYS: seq<string>, NK: nat, dual: bool)
      requires NK >= 1 && |KEYS| == if dual then 2 * NK else NK
      modifies this
      ensures kv == Latch(old(kv), Pair(KEYS[0], if dual then KEYS[NK] else KEYS[0]), dual)
    {
      kv := SetNx(kv, KEYS[0]);
      if dual {
        kv := SetNx(kv, KEYS[NK]);
      }
    }

    method SeedLoop(KEYS: seq<string>, ARGV: seq<Arg>, NK: nat)
      requires ScriptArgs(KEYS, ARGV) && NK == 1 + 3 * ARGV[2].n
      modifies this
      ensures kv == SeedUpTo(old(kv), LinesOf(KEYS, ARGV), ARGV[3].on, ARGV[4].on, ARGV[2].n)
    {
      hide GaugeArgs, KeyPair, LineAt, SeedLine;
      var i, n, dual, v2p := 1, ARGV[2].n, ARGV[3].on, ARGV[4].on;
      while i <= n
        invariant 1 <= i <= n + 1
        invariant kv == SeedUpTo(old(kv), LinesOf(KEYS, ARGV), dual, v2p, i - 1)
      {
        SeedGauge(KEYS, ARGV, NK, i);
        i := i + 1;
      }
    }

    /** The 1-based index of the first gauge over a limit; 0 when every gauge fits. */
    method CheckLoop(KEYS: seq<string>, ARGV: seq<Arg>) returns (k: nat)
      requires ScriptArgs(KEYS, ARGV)
      ensures FirstMisfit(kv, LinesOf(KEYS, ARGV), 0) == if k == 0 then ARGV[2].n else k - 1
      ensures k <= ARGV[2].n
    {
      ghost var lines := LinesOf(KEYS, ARGV);
      var i := 1;
      while i <= ARGV[2].n
        invariant 1 <= i <= ARGV[2].n + 1
        invariant forall j | 0 <= j < i - 1 :: LineFits(kv, lines[j])
      {
        var fits := CheckGauge(KEYS, ARGV, i);
        if !fits {
          MisfitAt(kv, lines, i - 1);
          return i;
        }
        i := i + 1;
      }
      NoMisfit(kv, lines);
      return 0;
    }

    method SpendLoop(KEYS: seq<string>, ARGV: seq<Arg>, NK: nat)
      requires ScriptArgs(KEYS, ARGV) && NK == 1 + 3 * ARGV[2].n
      modifies this
      ensures kv == SpendUpTo(old(kv), LinesOf(KEYS, ARGV), ARGV[3].on, ARGV[2].n)
    {
      hide GaugeArgs, KeyPair, LineAt, SpendLine;
      var i, n, dual := 1, ARGV[2].n, ARGV[3].on;
      while i <= n
        invariant 1 <= i <= n + 1
        invariant kv == SpendUpTo(old(kv), LinesOf(KEYS, ARGV), dual, i - 1)
      {
        SpendGauge(KEYS, ARGV, NK, i);
        i := i + 1;
      }
    }

    /** Body of the first loop. */
    method SeedGauge(KEYS: seq<string>, ARGV: seq<Arg>, NK: nat, i: nat)
      requires ScriptArgs(KEYS, ARGV) && NK == 1 + 3 * ARGV[2].n && 1 <= i <= ARGV[2].n
      modifies this
      ensures kv == SeedLine(old(kv), LineAt(KEYS, ARGV, i), ARGV[3].on, ARGV[4].on)
    {
      hide Seed;
      var kb, ab := 1 + (i - 1) * 3, 5 + (i - 1) * 4;
      assert GaugeArgs(ARGV, i);
      SeedV2(KEYS, NK, ARGV[3].on, ARGV[4].on, kb + 1);
      if ARGV[ab].on {
        SeedV2(KEYS, NK, ARGV[3].on, ARGV[4].on, kb + 2);
        SeedV2(KEYS, NK, ARGV[3].on, ARGV[4].on, kb + 3);
      }
    }

    /** Body of the second loop. */
    method CheckGauge(KEYS: seq<string>, ARGV: seq<Arg>, i: nat) returns (fits: bool)
      requires ScriptArgs(KEYS, ARGV) && 1 <= i <= ARGV[2].n
      ensures fits == LineFits(kv, LineAt(KEYS, ARGV, i))
    {
      var kb, ab := 1 + (i - 1) * 3, 5 + (i - 1) * 4;
      assert GaugeArgs(ARGV, i);
      var ocur := if KEYS[kb + 1 - 1] in kv then kv[KEYS[kb + 1 - 1]] else 0.0;
      if ARGV[ab + 2].limit.Some? && ocur + ARGV[ab + 1].x > ARGV[ab + 2].limit.value {
        return false;
      }
      if ARGV[ab].on && ARGV[ab + 3].limit.Some? {
        var ucur := if KEYS[kb + 2 - 1] in kv then kv[KEYS[kb + 2 - 1]] else 0.0;
        if ucur + ARGV[ab + 1].x > ARGV[ab + 3].limit.value {
          return false;
        }
      }
      return true;
    }

    /** Body of the third loop. */
    method SpendGauge(KEYS: seq<string>, ARGV: seq<Arg>, NK: nat, i: nat)
      requires ScriptArgs(KEYS, ARGV) && NK == 1 + 3 * ARGV[2].n && 1 <= i <= ARGV[2].n
      modifies this
      ensures kv == SpendLine(old(kv), LineAt(KEYS, ARGV, i), ARGV[3].on)
    {
      hide IncrBoth;
      var kb, ab := 1 + (i - 1) * 3, 5 + (i - 1) * 4;
      assert GaugeArgs(ARGV, i);
      Spend(KEYS, NK, ARGV[3].on, kb + 1, ARGV[ab + 1].x);
      if ARGV[ab].on {
        Spend(KEYS, NK, ARGV[3].on, kb + 3, 1.0);
        Spend(KEYS, NK, ARGV[3].on, kb + 2, ARGV[ab + 1].x);
      }
    }

    /** `seedv2(i)`. */
    method SeedV2(KEYS: seq<string>, NK: nat, dual: bool, v2p: bool, i: nat)
      requires 1 <= i <= NK && |KEYS| == if dual then 2 * NK else NK
      modifies this
      ensures kv == Seed(old(kv), Pair(KEYS[i - 1], if dual then KEYS[NK + i - 1] else KEYS[i - 1]), dual, v2p)
    {
      if !dual { return; }
      if v2p {
        if KEYS[i - 1] !in kv && KEYS[NK + i - 1] in kv {
          kv := kv[KEYS[i - 1] := kv[KEYS[NK + i - 1]]];
        }
      } else {
        if KEYS[NK + i - 1] !in kv && KEYS[i - 1] in kv {
          kv := kv[KEYS[NK + i - 1] := kv[KEYS[i - 1]]];
        }
      }
    }

    /** `incrboth(i, d)`. */
    method Spend(KEYS: seq<string>, NK: nat, dual: bool, i: nat, d: real)
      requires 1 <= i <= NK && |KEYS| == if dual then 2 * NK else NK
      modifies this
      ensures kv == IncrBoth(old(kv), Pair(KEYS[i - 1], if dual then KEYS[NK + i - 1] else KEYS[i - 1]), d, dual)
    {
      kv := Incr(kv, KEYS[i - 1], d);
      if dual {
        kv := Incr(kv, KEYS[NK + i - 1], d);
      }
    }
  }

  lemma MisfitAt(kv: Store, lines: seq<Line>, k: nat)
    requires k < |lines| && !LineFits(kv, lines[k])
    requires forall j | 0 <= j < k :: LineFits(kv, lines[j])
    ensures FirstMisfit(kv, lines, 0) == k
  {
  }

  lemma NoMisfit(kv: Store, lines: seq<Line>)
    requires forall j | 0 <= j < |lines| :: LineFits(kv, lines[j])
    ensures FirstMisfit(kv, lines, 0) == |lines|
  {
  }

  // ---- Building the arrays (engine._atomic_bundle_spend) ---------------------------------------

  /** Which shape is read, and whether the other is maintained too. */
  datatype Mode = Mode(v2: bool, dual: bool, service: string)

  function PrimaryShape(m: Mode): Shape { if m.v2 then V2(m.service) else V1 }

  function SecondaryShape(m: Mode): Shape { if m.v2 then V1 else V2(m.service) }

  predicate ValidMode(m: Mode) { m.v2 || m.dual ==> ValidScope(m.service) }

  /** The org can be written in every shape the mode uses; the v2 builders refuse it otherwise. */
  predicate ModeCarries(m: Mode, org: Org)
  {
    Carries(PrimaryShape(m), org) && (m.dual ==> Carries(SecondaryShape(m), org))
  }

  function Key(shape: Shape, n: Name): string
    requires !Refused(shape, n)
  {
    Print(shape, n).value
  }

  function UserNameOr(org: Org, rk: Resource, user: Option<User>): Name
  {
    if user.Some? then UserName(org, rk, user.value) else GaugeName(org, rk)
  }

  function SeqNameOr(org: Org, rk: Resource, user: Option<User>): Name
  {
    if user.Some? then SeqName(org, rk, user.value) else GaugeName(org, rk)
  }

  /** Rows of three laid end to end. */
  function Flat3(rows: seq<seq<string>>): (flat: seq<string>)
    requires forall i | 0 <= i < |rows| :: |rows[i]| == 3
    ensures |flat| == 3 * |rows|
  {
    if rows == [] then [] else Flat3(rows[..|rows| - 1]) + rows[|rows| - 1]
  }

  lemma {:induction false} Flat3At(rows: seq<seq<string>>, i: nat)
    requires i < |rows| && forall j | 0 <= j < |rows| :: |rows[j]| == 3
    ensures Flat3(rows)[3 * i] == rows[i][0]
    ensures Flat3(rows)[3 * i + 1] == rows[i][1]
    ensures Flat3(rows)[3 * i + 2] == rows[i][2]
  {
    if i < |rows| - 1 {
      Flat3At(rows[..|rows| - 1], i);
    }
  }

  /** Rows of four laid end to end. */
  function Flat4(rows: seq<seq<Arg>>): (flat: seq<Arg>)
    requires forall i | 0 <= i < |rows| :: |rows[i]| == 4
    ensures |flat| == 4 * |rows|
  {
    if rows == [] then [] else Flat4(rows[..|rows| - 1]) + rows[|rows| - 1]
  }

  lemma {:induction false} Flat4At(rows: seq<seq<Arg>>, i: nat)
    requires i < |rows| && forall j | 0 <= j < |rows| :: |rows[j]| == 4
    ensures Flat4(rows)[4 * i] == rows[i][0]
    ensures Flat4(rows)[4 * i + 1] == rows[i][1]
    ensures Flat4(rows)[4 * i + 2] == rows[i][2]
    ensures Flat4(rows)[4 * i + 3] == rows[i][3]
  {
    if i < |rows| - 1 {
      Flat4At(rows[..|rows| - 1], i);
    }
  }

  /** Three keys per gauge; without a user the org key stands in twice. */
  function KeysOf(shape: Shape, org: Org, user: Option<User>, sp: Spec): (row: seq<string>)
    requires Carries(shape, org)
    ensures |row| == 3
  {
    [Key(shape, GaugeName(org, sp.rk)), Key(shape, UserNameOr(org, sp.rk, user)), Key(shape, SeqNameOr(org, sp.rk, user))]
  }

  function KeyRows(shape: Shape, org: Org, user: Option<User>, specs: seq<Spec>): (rows: seq<seq<string>>)
    requires Carries(shape, org)
    ensures |rows| == |specs| && forall i | 0 <= i < |rows| :: rows[i] == KeysOf(shape, org, user, specs[i])
  {
    seq(|specs|, i requires 0 <= i < |specs| => KeysOf(shape, org, user, specs[i]))
  }

  /** One key set: the latch, hung off the first gauge, then three keys per gauge. */
  function KeySet(shape: Shape, org: Org, user: Option<User>, specs: seq<Spec>,
                  idem: Option<string>): (keys: seq<string>)
    requires Carries(shape, org) && specs != []
    ensures |keys| == 1 + 3 * |specs|
  {
    [Key(shape, IdemName(org, specs[0].rk, Named(idem)))] + Flat3(KeyRows(shape, org, user, specs))
  }

  function ArgsOf(hasUser: bool, sp: Spec): (row: seq<Arg>)
    ensures |row| == 4
  {
    [Flag(hasUser), Num(sp.delta), Limit(sp.orgLimit), Limit(sp.userLimit)]
  }

  function ArgRows(hasUser: bool, specs: seq<Spec>): (rows: seq<seq<Arg>>)
    ensures |rows| == |specs| && forall i | 0 <= i < |rows| :: rows[i] == ArgsOf(hasUser, specs[i])
  {
    seq(|specs|, i requires 0 <= i < |specs| => ArgsOf(hasUser, specs[i]))
  }

  function PairOf(m: Mode, n: Name): Pair
    requires ModeCarries(m, n.org)
  {
    var p := Key(PrimaryShape(m), n);
    Pair(p, if m.dual then Key(SecondaryShape(m), n) else p)
  }

  function LineOf(m: Mode, org: Org, user: Option<User>, sp: Spec): Line
    requires ModeCarries(m, org)
  {
    Line(PairOf(m, GaugeName(org, sp.rk)), PairOf(m, UserNameOr(org, sp.rk, user)), PairOf(m, SeqNameOr(org, sp.rk, user)),
         user.Some?, sp.delta, sp.orgLimit, sp.userLimit)
  }

  function LinesFor(m: Mode, org: Org, user: Option<User>, specs: seq<Spec>): (lines: seq<Line>)
    requires ModeCarries(m, org)
    ensures |lines| == |specs| && forall i | 0 <= i < |specs| :: lines[i] == LineOf(m, org, user, specs[i])
  {
    seq(|specs|, i requires 0 <= i < |specs| => LineOf(m, org, user, specs[i]))
  }

  function Header(m: Mode, specs: seq<Spec>, idem: Option<string>): seq<Arg>
  {
    [Flag(HasKey(idem)), Count(86400), Count(|specs|), Flag(m.dual), Flag(m.v2)]
  }

  function Keys(m: Mode, org: Org, user: Option<User>, specs: seq<Spec>, idem: Option<string>): seq<string>
    requires ModeCarries(m, org) && specs != []
  {
    KeySet(PrimaryShape(m), org, user, specs, idem)
    + if m.dual then KeySet(SecondaryShape(m), org, user, specs, idem) else []
  }

  function Argv(m: Mode, user: Option<User>, specs: seq<Spec>, idem: Option<string>): seq<Arg>
  {
    Header(m, specs, idem) + Flat4(ArgRows(user.Some?, specs))
  }

  lemma HeaderThen(header: seq<Arg>, flat: seq<Arg>, k: nat)
    requires |header| == 5 && k + 3 < |flat|
    ensures (header + flat)[5 + k] == flat[k] && (header + flat)[6 + k] == flat[k + 1]
    ensures (header + flat)[7 + k] == flat[k + 2] && (header + flat)[8 + k] == flat[k + 3]
  {
  }

  lemma ArgvDecodes(m: Mode, user: Option<User>, specs: seq<Spec>, idem: Option<string>, i: nat)
    requires 1 <= i <= |specs|
    ensures var ab := 5 + (i - 1) * 4;
            var ARGV := Argv(m, user, specs, idem);
            && GaugeArgs(ARGV, i)
            && ARGV[ab] == Flag(user.Some?) && ARGV[ab + 1] == Num(specs[i - 1].delta)
            && ARGV[ab + 2] == Limit(specs[i - 1].orgLimit) && ARGV[ab + 3] == Limit(specs[i - 1].userLimit)
  {
    var rows := ArgRows(user.Some?, specs);
    var flat, header := Flat4(rows), Header(m, specs, idem);
    Flat4At(rows, i - 1);
    HeaderThen(header, flat, 4 * (i - 1));
  }

  lemma KeysDecode(shape: Shape, org: Org, user: Option<User>, specs: seq<Spec>, idem: Option<string>, i: nat)
    requires Carries(shape, org) && 1 <= i <= |specs|
    ensures var kb := 1 + (i - 1) * 3;
            var keys := KeySet(shape, org, user, specs, idem);
            var row := KeysOf(shape, org, user, specs[i - 1]);
            keys[kb] == row[0] && keys[kb + 1] == row[1] && keys[kb + 2] == row[2]
  {
    hide Key;
    var rows := KeyRows(shape, org, user, specs);
    Flat3At(rows, i - 1);
    FirstThen(Key(shape, IdemName(org, specs[0].rk, Named(idem))), Flat3(rows), 3 * (i - 1));
  }

  lemma FirstThen(first: string, flat: seq<string>, k: nat)
    requires k + 2 < |flat|
    ensures ([first] + flat)[1 + k] == flat[k]
    ensures ([first] + flat)[2 + k] == flat[k + 1] && ([first] + flat)[3 + k] == flat[k + 2]
  {
  }

  lemma ArraysWellFormed(m: Mode, org: Org, user: Option<User>, specs: seq<Spec>, idem: Option<string>)
    requires ModeCarries(m, org) && specs != []
    ensures ScriptArgs(Keys(m, org, user, specs, idem), Argv(m, user, specs, idem))
  {
    hide KeysOf, Carries, GaugeArgs;
    forall i | 1 <= i <= |specs| ensures GaugeArgs(Argv(m, user, specs, idem), i) {
      ArgvDecodes(m, user, specs, idem, i);
    }
  }

  /** The flat arrays the engine builds are read by the script as the lines they were built from. */
  lemma ArraysDecode(m: Mode, org: Org, user: Option<User>, specs: seq<Spec>, idem: Option<string>)
    requires ModeCarries(m, org) && specs != []
    ensures ScriptArgs(Keys(m, org, user, specs, idem), Argv(m, user, specs, idem))
    ensures LinesOf(Keys(m, org, user, specs, idem), Argv(m, user, specs, idem)) == LinesFor(m, org, user, specs)
    ensures KeyPair(Keys(m, org, user, specs, idem), Argv(m, user, specs, idem), 1)
         == PairOf(m, IdemName(org, specs[0].rk, Named(idem)))
  {
    hide Keys, Argv, ScriptArgs, LinesOf, KeyPair, LinesFor, PairOf;
    ArraysWellFormed(m, org, user, specs, idem);
    LinesDecode(m, org, user, specs, idem);
    LatchDecodes(m, org, user, specs, idem);
  }

  lemma LatchDecodes(m: Mode, org: Org, user: Option<User>, specs: seq<Spec>, idem: Option<string>)
    requires ModeCarries(m, org) && specs != []
    requires ScriptArgs(Keys(m, org, user, specs, idem), Argv(m, user, specs, idem))
    ensures KeyPair(Keys(m, org, user, specs, idem), Argv(m, user, specs, idem), 1)
         == PairOf(m, IdemName(org, specs[0].rk, Named(idem)))
  {
  }

  lemma LinesDecode(m: Mode, org: Org, user: Option<User>, specs: seq<Spec>, idem: Option<string>)
    requires ModeCarries(m, org) && specs != []
    requires ScriptArgs(Keys(m, org, user, specs, idem), Argv(m, user, specs, idem))
    ensures LinesOf(Keys(m, org, user, specs, idem), Argv(m, user, specs, idem)) == LinesFor(m, org, user, specs)
  {
    hide LinesOf, LineAt, LineOf, Keys, Argv, ScriptArgs, KeySet, Key, Carries;
    var KEYS, ARGV := Keys(m, org, user, specs, idem), Argv(m, user, specs, idem);
    CountOf(m, user, specs, idem);
    var lines := LinesFor(m, org, user, specs);
    forall i | 0 <= i < |specs| ensures LineAt(KEYS, ARGV, i + 1) == lines[i] {
      LineDecodes(m, org, user, specs, idem, i + 1);
    }
    SameLines(KEYS, ARGV, lines);
  }

  lemma CountOf(m: Mode, user: Option<User>, specs: seq<Spec>, idem: Option<string>)
    ensures |Argv(m, user, specs, idem)| >= 5 && Argv(m, user, specs, idem)[2] == Count(|specs|)
  {
  }

  lemma SameLines(KEYS: seq<string>, ARGV: seq<Arg>, lines: seq<Line>)
    requires ScriptArgs(KEYS, ARGV) && |lines| == ARGV[2].n
    requires forall i | 0 <= i < |lines| :: LineAt(KEYS, ARGV, i + 1) == lines[i]
    ensures LinesOf(KEYS, ARGV) == lines
  {
    hide LineAt, KeyPair, GaugeArgs;
  }

  lemma LineDecodes(m: Mode, org: Org, user: Option<User>, specs: seq<Spec>, idem: Option<string>, i: nat)
    requires ModeCarries(m, org) && 1 <= i <= |specs|
    requires ScriptArgs(Keys(m, org, user, specs, idem), Argv(m, user, specs, idem))
    ensures LineAt(Keys(m, org, user, specs, idem), Argv(m, user, specs, idem), i) == LineOf(m, org, user, specs[i - 1])
  {
    hide Key;
    ArgvDecodes(m, user, specs, idem, i);
    KeysDecode(PrimaryShape(m), org, user, specs, idem, i);
    if m.dual {
      KeysDecode(SecondaryShape(m), org, user, specs, idem, i);
    }
  }

  class BundleEngine {
    const redis: Redis

    constructor (redis: Redis)
      ensures this.redis == redis
    {
      this.redis := redis;
    }

    /** `_atomic_bundle_spend`: build both arrays gauge by gauge, run the script once. */
    method AtomicBundleSpend(m: Mode, org: Org, user: Option<User>, specs: seq<Spec>, idem: Option<string>)
      returns (v: Verdict)
      requires ModeCarries(m, org)
      modifies redis
      ensures specs == [] ==> v == Ok && redis.kv == old(redis.kv)
      ensures specs != [] ==>
                (v, redis.kv) == Script(old(redis.kv), HasKey(idem), PairOf(m, IdemName(org, specs[0].rk, Named(idem))),
                                        m.dual, m.v2, LinesFor(m, org, user, specs))
    {
      hide KeySet, Key, LinesFor, PairOf, Script;
      if specs == [] {
        return Ok;
      }
      var keys := BuildKeySet(PrimaryShape(m), org, user, specs, idem);
      if m.dual {
        var more := BuildKeySet(SecondaryShape(m), org, user, specs, idem);
        keys := keys + more;
      }
      var args := BuildArgs(user.Some?, specs);
      var argv := Header(m, specs, idem) + args;
      assert keys == Keys(m, org, user, specs, idem) && argv == Argv(m, user, specs, idem);
      ArraysDecode(m, org, user, specs, idem);
      v := redis.AcquireScript(keys, argv);
    }

    method BuildKeySet(shape: Shape, org: Org, user: Option<User>, specs: seq<Spec>, idem: Option<string>)
      returns (keys: seq<string>)
      requires Carries(shape, org) && specs != []
      ensures keys == KeySet(shape, org, user, specs, idem)
    {
      hide Key;
      var latch := Key(shape, IdemName(org, specs[0].rk, Named(idem)));
      ghost var rows := KeyRows(shape, org, user, specs);
      var flat: seq<string> := [];
      for i := 0 to |specs|
        invariant flat == Flat3(rows[..i])
      {
        flat := flat + KeysOf(shape, org, user, specs[i]);
        assert rows[..i + 1][..i] == rows[..i];
      }
      assert rows[..|specs|] == rows;
      keys := [latch] + flat;
    }

    method BuildArgs(hasUser: bool, specs: seq<Spec>) returns (args: seq<Arg>)
      ensures args == Flat4(ArgRows(hasUser, specs))
    {
      ghost var rows := ArgRows(hasUser, specs);
      args := [];
      for i := 0 to |specs|
        invariant args == Flat4(rows[..i])
      {
        args := args + ArgsOf(hasUser, specs[i]);
        assert rows[..i + 1][..i] == rows[..i];
      }
      assert rows[..|specs|] == rows;
    }
  }
}
