/**
 The operator's verbs around the move: dual-on, backfill, verify, flip, reap. Their gates live in a
 marker kept in Redis, and in one flag of the running process; a process may stop after any step
 and a new one start.
 */
module Migrator {
  import opened Prelude
  import opened Gauges
  import opened Keyspace
  import opened Migration

  /** `IDEM_TTL_SECONDS`. */
  const IDEM_TTL: nat := 86400

  datatype Phase = Dual | Flipped | Reaped

  /** `final` is high_water = "v2-final". */
  datatype Marker = Marker(phase: Phase, dualSince: nat, final: bool)

  function Rank(p: Phase): nat { match p case Dual => 1 case Flipped => 2 case Reaped => 3 }

  function Stage(m: Option<Marker>): nat { if m.None? then 0 else Rank(m.value.phase) }

  /** What the flip must outwait: the idempotency latches and the longest rate window. */
  function Wait(maxRateWindow: nat): nat { if maxRateWindow > IDEM_TTL then maxRateWindow else IDEM_TTL }

  // ---- The verbs on the marker -----------------------------------------------------------------

  predicate DualOnRefused(m: Option<Marker>) { m.Some? && m.value.final }

  function DualOnMarker(m: Option<Marker>, now: nat): Option<Marker>
  {
    if DualOnRefused(m) || (m.Some? && !m.value.phase.Reaped?) then m
    else Some(Marker(Dual, now, false))
  }

  predicate BackfillRefused(m: Option<Marker>) { m.None? || m.value.phase.Reaped? }

  predicate FlipOpen(m: Option<Marker>, verified: bool, now: nat, maxRateWindow: nat)
  {
    && m.Some? && !m.value.phase.Reaped?
    && now >= m.value.dualSince + Wait(maxRateWindow)
    && verified
  }

  predicate ReapOpen(m: Option<Marker>, verified: bool, confirmed: bool)
  {
    m.Some? && !m.value.phase.Dual? && verified && confirmed
  }

  // ---- Any sequence of verbs, over restarts ---------------------------------------------------------

  /** `verified` and `reaping` belong to the process; the rest to storage. */
  datatype State = State(now: nat, marker: Option<Marker>, verified: bool, reaping: bool, deleted: bool)

  datatype Verb =
    | Tick(to: nat)
    | Restart
    | DualOn
    | Verify(passes: bool)
    | Flip
    | ReapStart(confirmed: bool)   // the gate and the marker write
    | ReapKey                      // one delete of its loop

  function Initial(): State { State(0, None, false, false, false) }

  predicate Enabled(st: State, v: Verb)
  {
    match v
    case Tick(to) => to >= st.now
    case ReapKey => st.reaping
    case _ => true
  }

  /** A refused verb changes nothing. */
  function Next(st: State, v: Verb, maxRateWindow: nat): State
  {
    match v
    case Tick(to) => st.(now := to)
    case Restart => st.(verified := false, reaping := false)
    case DualOn => st.(marker := DualOnMarker(st.marker, st.now))
    case Verify(passes) => st.(verified := passes)
    case Flip =>
      if FlipOpen(st.marker, st.verified, st.now, maxRateWindow)
      then st.(marker := Some(st.marker.value.(phase := Flipped, final := false))) else st
    case ReapStart(confirmed) =>
      if ReapOpen(st.marker, st.verified, confirmed)
      then st.(marker := Some(st.marker.value.(phase := Reaped, final := true)), reaping := true) else st
    case ReapKey => st.(deleted := true)
  }

  ghost predicate IsRun(states: seq<State>, verbs: seq<Verb>, maxRateWindow: nat)
  {
    && |states| == |verbs| + 1
    && states[0] == Initial()
    && forall i | 0 <= i < |verbs| :: Enabled(states[i], verbs[i]) && states[i + 1] == Next(states[i], verbs[i], maxRateWindow)
  }

  predicate Inv(st: State, maxRateWindow: nat)
  {
    && (st.marker.Some? ==>
          && st.marker.value.dualSince <= st.now
          && (st.marker.value.final <==> st.marker.value.phase.Reaped?)
          && (!st.marker.value.phase.Dual? ==> st.now >= st.marker.value.dualSince + Wait(maxRateWindow)))
    && (st.reaping || st.deleted ==> st.marker.Some? && st.marker.value.final)
  }

  lemma {:induction false} RunInv(states: seq<State>, verbs: seq<Verb>, maxRateWindow: nat, i: nat)
    requires IsRun(states, verbs, maxRateWindow) && i < |states|
    ensures Inv(states[i], maxRateWindow)
  {
    if i > 0 {
      RunInv(states, verbs, maxRateWindow, i - 1);
    }
  }

  predicate Advances(a: Option<Marker>, b: Option<Marker>)
  {
    && Stage(a) <= Stage(b)
    && (a.Some? ==> b.Some? && b.value.dualSince == a.value.dualSince && (a.value.final ==> b == a))
  }

  /**
   Over every verb sequence with restarts anywhere: the phase and the high-water mark only move
   forward, the start of the dual window is fixed by the first dual-on, and a finished migration
   stays finished, dual-on included.
   */
  lemma {:induction false} MarkerOnlyAdvances(states: seq<State>, verbs: seq<Verb>, maxRateWindow: nat, i: nat, j: nat)
    requires IsRun(states, verbs, maxRateWindow) && i <= j < |states|
    ensures Advances(states[i].marker, states[j].marker)
    decreases j
  {
    if i < j {
      MarkerOnlyAdvances(states, verbs, maxRateWindow, i, j - 1);
      RunInv(states, verbs, maxRateWindow, j - 1);
    }
  }

  /** The dual window of a marker opened at the first dual-on of the run: the one that found no marker. */
  lemma {:induction false} DualSinceFirst(states: seq<State>, verbs: seq<Verb>, maxRateWindow: nat, j: nat) returns (k: nat)
    requires IsRun(states, verbs, maxRateWindow) && j < |states| && states[j].marker.Some?
    ensures OpenedAt(states, verbs, k, j) && states[j].marker.value.dualSince == states[k].now
  {
    hide Next;
    if states[j - 1].marker.Some? {
      MarkerOnlyAdvances(states, verbs, maxRateWindow, j - 1, j);
      k := DualSinceFirst(states, verbs, maxRateWindow, j - 1);
    } else {
      k := j - 1;
      FirstMarker(states[k], verbs[k], maxRateWindow);
      forall i: nat | i < k && verbs[i].DualOn? ensures false {
        MarksOn(states[i], maxRateWindow);
        MarkerOnlyAdvances(states, verbs, maxRateWindow, i + 1, k);
      }
    }
  }

  lemma FirstMarker(st: State, v: Verb, maxRateWindow: nat)
    requires st.marker.None? && Next(st, v, maxRateWindow).marker.Some?
    ensures v.DualOn? && Next(st, v, maxRateWindow).marker.value.dualSince == st.now
  {
  }

  lemma MarksOn(st: State, maxRateWindow: nat)
    ensures Next(st, DualOn, maxRateWindow).marker.Some?
  {
  }

  /** The first dual-on of a run up to j. */
  ghost predicate OpenedAt(states: seq<State>, verbs: seq<Verb>, k: nat, j: nat)
    requires j <= |verbs| < |states|
  {
    k < j && verbs[k].DualOn? && states[k].marker.None? && forall i: nat | i < k :: !verbs[i].DualOn?
  }

  /** A passing verify of the same process, with nothing that unsets it in between. */
  ghost predicate VerifiedSince(verbs: seq<Verb>, k: nat, j: nat)
    requires j <= |verbs|
  {
    k < j && verbs[k] == Verify(true) && forall l | k < l < j :: !verbs[l].Restart? && !verbs[l].Verify?
  }

  lemma {:induction false} VerifiedMeans(states: seq<State>, verbs: seq<Verb>, maxRateWindow: nat, j: nat)
    returns (k: nat)
    requires IsRun(states, verbs, maxRateWindow) && j < |states| && states[j].verified
    ensures VerifiedSince(verbs, k, j)
  {
    if verbs[j - 1] == Verify(true) {
      k := j - 1;
    } else {
      k := VerifiedMeans(states, verbs, maxRateWindow, j - 1);
    }
  }

  /**
   When a flip is recorded, a day and the longest rate window have passed since the first dual-on of the run,
   and a verify has passed in that very process.
   */
  lemma FlipGate(states: seq<State>, verbs: seq<Verb>, maxRateWindow: nat, j: nat) returns (first: nat, k: nat)
    requires IsRun(states, verbs, maxRateWindow) && j < |verbs|
    requires Stage(states[j].marker) < 2 <= Stage(states[j + 1].marker)
    ensures verbs[j].Flip? && states[j].marker.Some? && OpenedAt(states, verbs, first, j)
    ensures states[j].now >= states[first].now + 86400
    ensures states[j].now >= states[first].now + maxRateWindow
    ensures VerifiedSince(verbs, k, j)
  {
    RunInv(states, verbs, maxRateWindow, j);
    first := DualSinceFirst(states, verbs, maxRateWindow, j);
    k := VerifiedMeans(states, verbs, maxRateWindow, j);
  }

  /**
   And the other way: with a marker that is not reaped, both waited out since the first dual-on, and a verify
   that passed in this process, the flip is recorded.
   */
  lemma FlipGranted(states: seq<State>, verbs: seq<Verb>, maxRateWindow: nat, first: nat, k: nat, j: nat)
    requires IsRun(states, verbs, maxRateWindow) && j < |verbs| && verbs[j].Flip?
    requires OpenedAt(states, verbs, first, j) && VerifiedSince(verbs, k, j) && Stage(states[j].marker) < 3
    requires states[j].now >= states[first].now + 86400 && states[j].now >= states[first].now + maxRateWindow
    ensures Stage(states[j + 1].marker) == 2
  {
    MarkerOnlyAdvances(states, verbs, maxRateWindow, first + 1, j);
    StaysVerified(states, verbs, maxRateWindow, k, j);
  }

  lemma {:induction false} StaysVerified(states: seq<State>, verbs: seq<Verb>, maxRateWindow: nat, k: nat, j: nat)
    requires IsRun(states, verbs, maxRateWindow) && j < |states| && VerifiedSince(verbs, k, j)
    ensures states[j].verified
    decreases j
  {
    if k < j - 1 {
      StaysVerified(states, verbs, maxRateWindow, k, j - 1);
    }
  }

  /** Before any v1 key is deleted: flip recorded, verify passed in that process, and v2-final written by it. */
  lemma {:induction false} DeletesComeLast(states: seq<State>, verbs: seq<Verb>, maxRateWindow: nat, j: nat)
    returns (i: nat, k: nat)
    requires IsRun(states, verbs, maxRateWindow) && j < |verbs| && verbs[j].ReapKey?
    ensures i < j && verbs[i] == ReapStart(true) && VerifiedSince(verbs, k, i)
    ensures Stage(states[i].marker) >= 2 && forall l | i < l < j :: !verbs[l].Restart?
    ensures forall l | i < l <= j :: states[l].marker.Some? && states[l].marker.value.final
  {
    i := ReapingMeans(states, verbs, maxRateWindow, j);
    k := VerifiedMeans(states, verbs, maxRateWindow, i);
    forall l | i < l <= j ensures states[l].marker.Some? && states[l].marker.value.final {
      MarkerOnlyAdvances(states, verbs, maxRateWindow, i + 1, l);
    }
  }

  lemma {:induction false} ReapingMeans(states: seq<State>, verbs: seq<Verb>, maxRateWindow: nat, j: nat)
    returns (i: nat)
    requires IsRun(states, verbs, maxRateWindow) && j < |states| && states[j].reaping
    ensures i < j && verbs[i] == ReapStart(true) && ReapOpen(states[i].marker, states[i].verified, true)
    ensures states[i + 1].marker.Some? && states[i + 1].marker.value.final
    ensures forall l | i < l < j :: !verbs[l].Restart?
  {
    if verbs[j - 1] == ReapStart(true) && ReapOpen(states[j - 1].marker, states[j - 1].verified, true) {
      i := j - 1;
    } else {
      i := ReapingMeans(states, verbs, maxRateWindow, j - 1);
    }
  }

  /** The whole move, as the operator is meant to do it: it gets as far as deleting. */
  lemma MoveCompletes(maxRateWindow: nat) returns (states: seq<State>)
    ensures IsRun(states, [DualOn, Tick(86400 + maxRateWindow), Verify(true), Flip, ReapStart(true), ReapKey], maxRateWindow)
    ensures states[6].deleted && states[6].marker == Some(Marker(Reaped, 0, true))
  {
    var w := maxRateWindow;
    var s1 := Next(Initial(), DualOn, w);
    var s2 := Next(s1, Tick(86400 + w), w);
    var s3 := Next(s2, Verify(true), w);
    var s4 := Next(s3, Flip, w);
    var s5 := Next(s4, ReapStart(true), w);
    states := [Initial(), s1, s2, s3, s4, s5, Next(s5, ReapKey, w)];
  }

  // ---- Boot -----------------------------------------------------------------------------------------------

  datatype Boot = Accepted | Regression | Brownfield

  /** `check_boot_keyspace` for an engine that declares a service. */
  function CheckBoot(version: nat, dual: bool, m: Option<Marker>, anyV1: bool): Boot
    requires version == 1 || version == 2
  {
    var final := m.Some? && m.value.final;
    if final && (version == 1 || dual) then Regression
    else if version == 2 && !dual && !final && anyV1 then Brownfield
    else Accepted
  }

  /**
   Once a run has deleted anything, in every later state: v1 and dual engines are refused at boot, a
   v2-only engine is accepted whatever v1 keys are left, and dual-on is refused.
   */
  lemma AfterReap(states: seq<State>, verbs: seq<Verb>, maxRateWindow: nat, i: nat, j: nat, dual: bool, anyV1: bool)
    requires IsRun(states, verbs, maxRateWindow) && i <= j < |states| && states[i].deleted
    ensures CheckBoot(1, dual, states[j].marker, anyV1) == Regression
    ensures CheckBoot(2, dual, states[j].marker, anyV1) == if dual then Regression else Accepted
    ensures DualOnRefused(states[j].marker)
  {
    RunInv(states, verbs, maxRateWindow, i);
    MarkerOnlyAdvances(states, verbs, maxRateWindow, i, j);
  }

  /** Until then a v2-only boot is accepted only over a keyspace without v1 counters. */
  lemma BeforeReap(states: seq<State>, verbs: seq<Verb>, maxRateWindow: nat, i: nat, anyV1: bool)
    requires IsRun(states, verbs, maxRateWindow) && i < |states| && Stage(states[i].marker) < 3
    ensures CheckBoot(1, true, states[i].marker, anyV1) == CheckBoot(2, true, states[i].marker, anyV1) == Accepted
    ensures CheckBoot(1, false, states[i].marker, anyV1) == Accepted
    ensures CheckBoot(2, false, states[i].marker, anyV1) == Accepted <==> !anyV1
  {
    RunInv(states, verbs, maxRateWindow, i);
  }

  // ---- The migrator over its Redis --------------------------------------------------------------------------

  /** The shared storage: the counters under both shapes, and the marker. */
  class CounterStore {
    var counters: Counters
    var marker: Option<Marker>

    constructor (counters: Counters)
      ensures this.counters == counters && marker == None
    {
      this.counters, marker := counters, None;
    }
  }

  /** The v1 keys a scan for these families visits. */
  function VisitedKeys(c: Counters, tails: set<string>): set<string>
  {
    set k | k in c && c[k].v1.Some? && ScannedFor(k, tails)
  }

  /** The counters in `gained` were visited without a twin and now have an equal one; the others are as they were. */
  ghost predicate GainedTwins(before: Counters, after: Counters, gained: set<string>)
  {
    && (forall k <- gained :: Untwinned(before, k) && Scanned(k) && Twinable(k))
    && (forall k :: At(after, k) == if k in gained then Seeded(At(before, k)) else At(before, k))
  }

  lemma NoGain(c: Counters)
    ensures GainedTwins(c, c, {})
  {
  }

  lemma GainOne(before: Counters, now: Counters, gained: set<string>, k: string)
    requires GainedTwins(before, now, gained) && k !in gained && k in VisitedKeys(before, VALUE_TAILS)
    ensures At(now, k) == At(before, k)
    ensures Untwinned(before, k) <==> At(before, k).v2.None?
    ensures Untwinned(before, k) && Twinable(k) ==> GainedTwins(before, now[k := Seeded(At(now, k))], gained + {k})
  {
    hide Seeded, Twinable, ScannedFor;
  }

  datatype BackfillResult = Refused | Aborted | Done

  class KeyspaceMigrator {
    const store: CounterStore
    const maxRateWindow: nat
    var verified: bool

    constructor (store: CounterStore, maxRateWindow: nat)
      ensures this.store == store && this.maxRateWindow == maxRateWindow && !verified
    {
      this.store, this.maxRateWindow, verified := store, maxRateWindow, false;
    }

    method RecordDual(now: nat) returns (refused: bool)
      modifies store`marker
      ensures refused == DualOnRefused(old(store.marker))
      ensures store.marker == DualOnMarker(old(store.marker), now)
      ensures old(store.marker).None? ==> !refused && store.marker == Some(Marker(Dual, now, false))
      ensures old(store.marker).Some? && (refused || !old(store.marker).value.phase.Reaped?) ==> store.marker == old(store.marker)
    {
      if store.marker.Some? && store.marker.value.final {
        return true;
      }
      refused := false;
      if store.marker.Some? && (store.marker.value.phase.Dual? || store.marker.value.phase.Flipped?) {
        return;
      }
      store.marker := Some(Marker(Dual, now, false));
    }

    /**
     Seed twin after twin until none is left, or `budget` have been seeded (0 is no budget), or a
     visited key has an org that v2 refuses: building its twin raises. `gained` are the counters that
     got a twin. Without a budget it aborts if and only if there is such a key; when it is done, and
     was not cut short, every visited counter has a twin.
     */
    method Backfill(budget: nat) returns (r: BackfillResult, seeded: nat, ghost gained: set<string>)
      modifies store`counters
      ensures r.Refused? <==> BackfillRefused(store.marker)
      ensures GainedTwins(old(store.counters), store.counters, gained) && seeded == |gained|
      ensures r.Refused? ==> seeded == 0
      ensures budget > 0 ==> seeded <= budget
      ensures r.Aborted? ==> exists k <- old(store.counters) :: Visited(old(store.counters), k) && !Twinable(k)
      ensures r.Done? && (budget == 0 || seeded < budget) ==>
                && (forall k <- old(store.counters) :: Visited(old(store.counters), k) ==> Twinable(k))
                && (forall k | Scanned(k) && Untwinned(old(store.counters), k) :: k in gained)
    {
      hide GainedTwins, Seeded, Twinable, ScannedFor;
      NoGain(store.counters);
      r, seeded, gained := Done, 0, {};
      if store.marker.None? || store.marker.value.phase.Reaped? {
        return Refused, 0, {};
      }
      ghost var before := store.counters;
      var todo := VisitedKeys(store.counters, VALUE_TAILS);
      while todo != {} && (budget == 0 || seeded < budget)
        invariant todo <= VisitedKeys(before, VALUE_TAILS) && todo !! gained
        invariant GainedTwins(before, store.counters, gained) && seeded == |gained|
        invariant budget > 0 ==> seeded <= budget
        invariant forall k | k in VisitedKeys(before, VALUE_TAILS) ::
          k in todo || (Twinable(k) && (Untwinned(before, k) ==> k in gained))
        decreases |todo|
      {
        var k :| k in todo;
        todo := todo - {k};
        GainOne(before, store.counters, gained, k);
        if !Twinable(k) {
          return Aborted, seeded, gained;
        }
        if At(store.counters, k).v2.None? {
          store.counters := store.counters[k := Seeded(At(store.counters, k))];
          seeded := seeded + 1;
          gained := gained + {k};
        }
      }
    }

    /**
     Compare every visited v1 counter with its twin. The verdict opens or shuts this process's gates;
     a verify that raises leaves them as they were.
     */
    method VerifyAll(tolerance: real) returns (r: VerifyResult, divergent: set<string>)
      modifies this`verified
      ensures r == VerifyOf(store.counters, tolerance)
      ensures verified == if r.Raised? then old(verified) else r.Passed?
      ensures !r.Raised? ==>
                divergent == set k | k in store.counters && Visited(store.counters, k) && !Agrees(store.counters[k], tolerance)
    {
      hide Twinable, ScannedFor;
      divergent := {};
      var c := store.counters;
      var todo := VisitedKeys(c, VALUE_TAILS);
      while todo != {}
        invariant todo <= VisitedKeys(c, VALUE_TAILS)
        invariant forall k | k in VisitedKeys(c, VALUE_TAILS) :: k in todo || Twinable(k)
        invariant divergent == set k | k in c && Visited(c, k) && !Agrees(c[k], tolerance) && k !in todo
        decreases |todo|
      {
        var k :| k in todo;
        todo := todo - {k};
        assert Visited(c, k);
        if !Twinable(k) {
          return Raised, {};
        }
        if !(c[k].v2.Some? && Abs(c[k].v1.value - c[k].v2.value) <= tolerance) {
          divergent := divergent + {k};
        }
      }
      assert forall k <- c :: Visited(c, k) ==> k in VisitedKeys(c, VALUE_TAILS);
      verified := divergent == {};
      r := if verified then Passed else Failed;
      if verified {
        assert forall k <- c :: Visited(c, k) && !Agrees(c[k], tolerance) ==> k in divergent;
      } else {
        var k :| k in divergent;
        assert Visited(c, k) && !Agrees(c[k], tolerance);
      }
    }

    method RecordFlip(now: nat) returns (refused: bool)
      modifies store`marker
      ensures refused == !FlipOpen(old(store.marker), verified, now, maxRateWindow)
      ensures store.marker == if refused then old(store.marker)
                              else Some(old(store.marker).value.(phase := Flipped, final := false))
    {
      refused := true;
      if store.marker.None? || store.marker.value.phase.Reaped? {
        return;
      }
      var wait := Wait(maxRateWindow);
      if now < store.marker.value.dualSince + wait || !verified {
        return;
      }
      store.marker := Some(store.marker.value.(phase := Flipped, final := false));
      refused := false;
    }

    /**
     Write the final marker, then delete every v1 key that can be classified, latches and rates with
     them. No v2 key is touched; nor is a v1 key the scan passes over.
     */
    method Reap(confirmed: bool) returns (refused: bool, deleted: nat)
      modifies store
      ensures refused == !ReapOpen(old(store.marker), verified, confirmed)
      ensures refused ==> store.marker == old(store.marker) && store.counters == old(store.counters)
      ensures !refused ==>
                && store.marker == Some(old(store.marker).value.(phase := Reaped, final := true))
                && deleted == |VisitedKeys(old(store.counters), REAP_TAILS)|
                && forall k :: At(store.counters, k) == if ScannedFor(k, REAP_TAILS) then At(old(store.counters), k).(v1 := None)
                                                        else At(old(store.counters), k)
    {
      hide ScannedFor;
      if store.marker.None? || store.marker.value.phase.Dual? || !verified || !confirmed {
        return true, 0;
      }
      store.marker := Some(store.marker.value.(phase := Reaped, final := true));
      refused, deleted := false, 0;
      ghost var before := store.counters;
      var all := VisitedKeys(store.counters, REAP_TAILS);
      var todo := all;
      while todo != {}
        invariant todo <= all
        invariant store.marker == Some(old(store.marker).value.(phase := Reaped, final := true))
        invariant deleted + |todo| == |all|
        invariant forall k :: At(store.counters, k) == if k in all - todo then At(before, k).(v1 := None) else At(before, k)
        decreases |todo|
      {
        var k :| k in todo;
        todo := todo - {k};
        assert At(store.counters, k) == At(before, k) == before[k];
        store.counters := store.counters[k := At(store.counters, k).(v1 := None)];
        deleted := deleted + 1;
      }
      assert forall k :: ScannedFor(k, REAP_TAILS) && k !in all ==> At(before, k).v1.None?;
    }
  }

  /** Reaping a counter whose twin is there and equal keeps its v2-only reading, and its dual one. */
  lemma ReapKeepsReadings(org: Org, b: Both)
    requires Twinned(b) && ValidScope(org)
    ensures Reading(org, b.(v1 := None), 2, false) == Reading(org, b, 2, false)
    ensures Reading(org, b.(v1 := None), 2, false) == Reading(org, b, 1, true) <==> b.v2.Some? || Value(b.v1) == 0.0
  {
  }
}
