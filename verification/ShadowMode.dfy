/**
 The second script of shadow mode. An acquire that is refused runs the script once more without limits,
 and its answer is overwritten: if that finds the call's idempotency key taken, nothing is spent and a row
 is written all the same. Here: when that happens, what it does to the counters, and what rules it out.
 */
module ShadowMode {
  import opened Prelude
  import opened Sums
  import opened Gauges
  import opened Activations
  import opened LedgerMachine
  import opened Replays

  /** One such retry: the row is OPEN, and the levels are as they were. */
  lemma ShadowRetryUnderCounts(st: State, e: Event, s: Slot)
    requires Sound(st) && Enabled(st, e) && Haunts(st, e)
    ensures var retried := Next(st, e);
            && Enabled(retried, Record(e.call))
            && var recorded := Next(retried, Record(e.call));
            && recorded.rows == st.rows[e.row.id := e.row] && recorded.levels == st.levels
            && OpenSum(recorded.rows, s) == OpenSum(st.rows, s) + Weight(e.row.charge, s)
            && Level(recorded.phantom, s) == Level(st.phantom, s) + Weight(e.row.charge, s)
  {
    hide AddCharge, Duplicate, Weight, SpendOf, WellFormed;
    LevelAfterAdd(st.phantom, e.row.charge, s);
    OpenSumUpdate(st.rows, e.row.id, e.row, s);
  }

  // ---- When it happens -----------------------------------------------------------------------------

  lemma {:induction false} CallStays(states: seq<State>, events: seq<Event>, i: nat, j: nat, c: nat)
    requires IsRun(states, events) && i <= j < |states| && c in states[i].calls
    ensures c in states[j].calls
    decreases j
  {
    hide Next, Enabled;
    if i < j {
      CallStays(states, events, i, j - 1, c);
      var d, call := NextCalls(states[j - 1], events[j - 1]);
    }
  }

  /** A call that was turned down was so by its one first script. */
  lemma {:induction false} TurnedDownBy(states: seq<State>, events: seq<Event>, n: nat, c: nat) returns (i: nat)
    requires IsRun(states, events) && n < |states| && c in states[n].calls && states[n].calls[c].TurnedDown?
    ensures i < n && TurnsDown(states[i], events[i], c, states[n].calls[c])
  {
    hide Next, Enabled, TurnsDown;
    if n > 0 {
      var d, call := NextCalls(states[n - 1], events[n - 1]);
      if states[n].calls == states[n - 1].calls || d != c {
        i := TurnedDownBy(states, events, n - 1, c);
      } else {
        i := n - 1;
      }
    }
  }

  /** Step i is the first script of the call that step n retries. */
  predicate Retries(events: seq<Event>, i: nat, n: nat)
  {
    i < n < |events| && events[n].ShadowRetry? && events[i].Acquire? && events[i].call == events[n].call
  }

  /** Every retry has exactly one first script, with the same row, bundle and key. */
  lemma FirstScript(states: seq<State>, events: seq<Event>, n: nat) returns (i: nat)
    requires IsRun(states, events) && n < |events| && events[n].ShadowRetry?
    ensures Retries(events, i, n) && !Duplicate(states[i], events[n].row, events[n].specs, events[n].key)
    ensures events[i] == Acquire(events[n].call, events[n].row, events[n].specs, events[n].key)
    ensures !SpendsAt(states[i], events[i]) && forall j: nat | Retries(events, j, n) :: j == i
  {
    var c := events[n].call;
    i := TurnedDownBy(states, events, n, c);
    hide Next, Duplicate, NewRow;
    forall j: nat | Retries(events, j, n) ensures j == i {
      var a, b := if i < j then i else j, if i < j then j else i;
      if a < b {
        FirstCall(states, events, a);
        CallStays(states, events, a + 1, b, c);
      }
    }
  }

  lemma FirstCall(states: seq<State>, events: seq<Event>, i: nat)
    requires IsRun(states, events) && i < |events| && events[i].Acquire?
    ensures events[i].call !in states[i].calls && events[i].call in states[i + 1].calls
  {
    hide AddCharge, BumpGenerations, NewRow, Spends, Duplicate, AcquireKey;
  }

  function KeyOf(e: Event): Option<IdemKey>
    requires Acquiring(e)
  {
    AcquireKey(e.row, e.specs, e.key)
  }

  /**
   A retry leaves a row it has not paid for if and only if its key was taken after its first script and is
   still held.
   */
  lemma HauntsIff(states: seq<State>, events: seq<Event>, i: nat, n: nat)
    requires IsRun(states, events) && Retries(events, i, n)
    ensures Haunts(states[n], events[n]) <==>
              KeyOf(events[n]).Some?
              && exists j: nat :: i < j && TakenAt(states, events, n, KeyOf(events[n]).value, j)
  {
    var first := FirstScript(states, events, n);
    hide IsRun, AcquireKey, SpendsAt;
    var k := KeyOf(events[n]);
    if k.Some? {
      HeldKeyIff(states, events, n, k.value);
      HeldKeyIff(states, events, i, k.value);
      if Haunts(states[n], events[n]) {
        var j: nat :| TakenAt(states, events, n, k.value, j);
        NotBefore(states, events, i, n, k.value, j);
      }
    }
  }

  /** A key that is not taken at step i, nor by it, was taken later. */
  lemma NotBefore(states: seq<State>, events: seq<Event>, i: nat, n: nat, k: IdemKey, j: nat)
    requires IsRun(states, events) && i < n < |states| && TakenAt(states, events, n, k, j)
    requires k !in states[i].idem && !Takes(states[i], events[i], k)
    ensures i < j
  {
    hide Next, Enabled, Takes;
    assert j < i ==> TakenAt(states, events, i, k, j);
    HeldKeyIff(states, events, i, k);
  }

  // ---- What rules it out ------------------------------------------------------------------------------

  /** A retry whose call carries a key, while a script of another call under that key ran since its first. */
  predicate Overlapped(events: seq<Event>, n: nat)
  {
    && n < |events| && events[n].ShadowRetry? && KeyOf(events[n]).Some?
    && exists i, j | 0 <= i < j < n :: Retries(events, i, n) && ScriptBetween(events, i, j, n)
  }

  predicate ScriptBetween(events: seq<Event>, i: nat, j: nat, n: nat)
    requires n < |events| && Acquiring(events[n])
  {
    i < j < n && Acquiring(events[j]) && KeyOf(events[j]) == KeyOf(events[n])
  }

  lemma HauntsOverlapped(states: seq<State>, events: seq<Event>, n: nat)
    requires IsRun(states, events) && n < |events| && Haunts(states[n], events[n])
    ensures Overlapped(events, n)
  {
    var i := FirstScript(states, events, n);
    HauntsIff(states, events, i, n);
    hide Next, Enabled, AcquireKey;
    var j: nat :| i < j && TakenAt(states, events, n, KeyOf(events[n]).value, j);
    assert ScriptBetween(events, i, j, n);
  }

  /**
   Without shadow mode, without a key, or without overlapping calls under one key no slot is ever haunted;
   so all that is proved of calm runs that are not haunted holds.
   */
  lemma NoOverlapNoHaunting(states: seq<State>, events: seq<Event>, n: nat)
    requires IsRun(states, events) && n <= |events| && forall m: nat | m < n :: !Overlapped(events, m)
    ensures forall s :: Unhaunted(states, events, n, s)
  {
    forall m: nat | m < n ensures !Haunts(states[m], events[m]) {
      if Haunts(states[m], events[m]) {
        HauntsOverlapped(states, events, m);
        assert false;
      }
    }
    hide Next, Enabled, Haunts, Weight;
  }

  /** The machine's invariant, and with it conservation, in every calm run without overlapping retries. */
  lemma ConservationWithoutOverlap(states: seq<State>, events: seq<Event>, n: nat, s: Slot)
    requires IsRun(states, events) && IsCalm(states, events) && n < |states|
    requires forall m: nat | m < n :: !Overlapped(events, m)
    ensures Inv(states[n])
    ensures Level(states[n].levels, s) == Committed(states[n], s) + Level(states[n].orphan, s)
  {
    assert |states| == |events| + 1;
    hide IsRun, IsCalm, Unhaunted, Overlapped, Inv;
    NoOverlapNoHaunting(states, events, n);
    RunInv(states, events, n);
    Conservation(states, events, n, s);
  }

  // ---- What it does to a run ----------------------------------------------------------------------------

  /** In a calm run a slot's phantoms grow exactly at a retry that haunts it, by the spend it does not make. */
  lemma PhantomsAppear(states: seq<State>, events: seq<Event>, n: nat, s: Slot)
    requires IsRun(states, events) && IsCalm(states, events) && n < |events|
    ensures Level(states[n + 1].phantom, s) > Level(states[n].phantom, s) <==> Haunting(states[n], events[n], s) > 0.0
    ensures Haunting(states[n], events[n], s) > 0.0 ==>
              Level(states[n + 1].phantom, s) == Level(states[n].phantom, s) + Haunting(states[n], events[n], s)
  {
    hide Next, Enabled, Calm, Covers, Haunting, KeptBack, Accounted, Sets;
    RunSound(states, events, n);
    RunCovers(states, events, n);
    Tally(states, events, n, s);
    CalmBooks(states[n], events[n], s);
    Floored(states[n], events[n], s);
  }

  /** The orphans of the slot make up for what the step haunts it with. */
  predicate HasRoom(st: State, e: Event, s: Slot)
  {
    Level(st.phantom, s) + Haunting(st, e, s) <= Level(st.orphan, s)
  }

  /**
   A slot of a calm run stays at or above what is accounted for, up to any point, if and only if no retry up
   to there haunts it by more than its orphans have room for.
   */
  lemma {:induction false} BackedThroughoutIff(states: seq<State>, events: seq<Event>, n: nat, s: Slot)
    requires IsRun(states, events) && IsCalm(states, events) && n < |states|
    ensures (forall i | 0 <= i <= n :: Backed(states[i], s))
       <==> (forall i | 0 <= i < n :: HasRoom(states[i], events[i], s))
    decreases n
  {
    hide Next, Enabled, Calm, Covers, Haunting, KeptBack, Accounted, Sets;
    if n > 0 {
      BackedThroughoutIff(states, events, n - 1, s);
      var st, e := states[n - 1], events[n - 1];
      RunSound(states, events, n - 1);
      RunCovers(states, events, n - 1);
      Tally(states, events, n - 1, s);
      CalmBooks(st, e, s);
      assert Backed(st, s) ==> (Backed(states[n], s) <==> HasRoom(st, e, s));
      hide Backed, HasRoom;
    }
  }

  // ---- That it happens -----------------------------------------------------------------------------------

  /** Two overlapping calls in shadow mode, of one bundle and under one key. */
  function TwoCalls(a: Activation, b: Activation, specs: seq<Spec>, key: Option<string>): seq<Event>
  {
    [Acquire(0, a, specs, key), Acquire(1, b, specs, key), ShadowRetry(0, a, specs, key), ShadowRetry(1, b, specs, key),
     Record(0), Record(1)]
  }

  /** Rows of two calls of a bundle that does not fit even empty counters. */
  predicate Twins(a: Activation, b: Activation, specs: seq<Spec>)
  {
    && a.charge == b.charge && a.id != b.id && a.state == Open && b.state == Open && a.cost == None && b.cost == None
    && WellFormed(specs) && a.charge.spend == SpendOf(specs)
    && FirstFailing(map[], a.charge.org, a.charge.user, specs).Some?
  }

  lemma Refusal(st: State, c: nat, row: Activation, specs: seq<Spec>, key: Option<string>)
    requires c !in st.calls && NewRow(st, row, specs) && st.idem == {} && st.listings == map[]
    requires FirstFailing(st.levels, row.charge.org, row.charge.user, specs).Some?
    ensures var e := Acquire(c, row, specs, key);
            Enabled(st, e) && Calm(st, e) && Next(st, e) == st.(calls := st.calls[c := TurnedDown(row, specs, key)])
  {
    hide AddCharge, BumpGenerations, FirstFailing;
  }

  lemma Retry(st: State, c: nat, row: Activation, specs: seq<Spec>, key: Option<string>)
    requires c in st.calls && st.calls[c] == TurnedDown(row, specs, key) && NewRow(st, row, specs) && st.listings == map[]
    ensures var e := ShadowRetry(c, row, specs, key);
            && Enabled(st, e) && Calm(st, e)
            && Next(st, e) ==
                 if Haunts(st, e) then st.(phantom := AddCharge(st.phantom, row.charge), calls := st.calls[c := Spent(row)])
                 else Spending(st, c, row, KeyOf(e))
  {
    hide AddCharge, BumpGenerations, Spending;
  }

  lemma Recording(st: State, c: nat)
    requires c in st.calls && st.calls[c].Spent? && st.calls[c].row.id !in st.rows
    ensures var e, row := Record(c), st.calls[c].row;
            && Enabled(st, e) && Calm(st, e)
            && Next(st, e) == st.(rows := st.rows[row.id := row], calls := st.calls[c := Finished])
  {
  }

  lemma KeyTaken(st: State, c: nat, a: Activation, b: Activation, specs: seq<Spec>, key: Option<string>)
    requires Twins(a, b, specs) && HasKey(key)
    ensures st.idem == {} ==> !Duplicate(st, a, specs, key)
    ensures Duplicate(Spending(st, c, a, AcquireKey(a, specs, key)), b, specs, key)
  {
    assert specs != [];
  }

  ghost predicate IsCalmRun(states: seq<State>, events: seq<Event>) { IsRun(states, events) && IsCalm(states, events) }

  lemma Extended(states: seq<State>, events: seq<Event>, e: Event) returns (longer: seq<State>)
    requires IsCalmRun(states, events) && |states| == |events| + 1
    requires Enabled(states[|events|], e) && Calm(states[|events|], e)
    ensures IsCalmRun(longer, events + [e]) && longer == states + [Next(states[|events|], e)]
  {
    hide Next, Enabled, Calm;
    longer := states + [Next(states[|events|], e)];
  }

  /** Both first scripts are refused. */
  lemma BothRefused(a: Activation, b: Activation, specs: seq<Spec>, key: Option<string>) returns (states: seq<State>)
    requires Twins(a, b, specs)
    ensures IsCalmRun(states, TwoCalls(a, b, specs, key)[..2]) && |states| == 3
    ensures states[2] == Initial().(calls := map[0 := TurnedDown(a, specs, key), 1 := TurnedDown(b, specs, key)])
  {
    var events := TwoCalls(a, b, specs, key);
    states := [Initial()];
    assert IsCalmRun(states, []);
    hide SpendOf, WellFormed, FirstFailing, Next, Enabled, Calm, IsCalmRun;
    Refusal(Initial(), 0, a, specs, key);
    states := Extended(states, [], events[0]);
    Refusal(states[1], 1, b, specs, key);
    states := Extended(states, [] + [events[0]], events[1]);
    assert events[..2] == [] + [events[0]] + [events[1]];
  }

  /** The first of the second scripts spends and takes the key. */
  lemma FirstSpends(a: Activation, b: Activation, specs: seq<Spec>, key: Option<string>) returns (states: seq<State>)
    requires Twins(a, b, specs) && HasKey(key)
    ensures IsCalmRun(states, TwoCalls(a, b, specs, key)[..3]) && |states| == 4
    ensures Duplicate(states[3], b, specs, key)
    ensures states[3].levels == AddCharge(map[], a.charge) && states[3].rows == map[] && states[3].listings == map[]
    ensures states[3].calls == map[0 := Spent(a), 1 := TurnedDown(b, specs, key)]
  {
    var events := TwoCalls(a, b, specs, key);
    assert events[..3] == events[..2] + [ShadowRetry(0, a, specs, key)];
    states := BothRefused(a, b, specs, key);
    hide AddCharge, BumpGenerations, SpendOf, WellFormed, FirstFailing, Next, Enabled, Calm, IsCalmRun, TwoCalls, AcquireKey,
         Duplicate;
    KeyTaken(states[2], 0, a, b, specs, key);
    Retry(states[2], 0, a, specs, key);
    states := Extended(states, events[..2], ShadowRetry(0, a, specs, key));
  }

  /** The second finds it taken. */
  lemma OneSpends(a: Activation, b: Activation, specs: seq<Spec>, key: Option<string>) returns (states: seq<State>)
    requires Twins(a, b, specs) && HasKey(key)
    ensures IsCalmRun(states, TwoCalls(a, b, specs, key)[..4]) && |states| == 5
    ensures Haunts(states[3], TwoCalls(a, b, specs, key)[3])
    ensures states[4].levels == AddCharge(map[], a.charge) && states[4].rows == map[] && states[4].listings == map[]
    ensures states[4].calls == map[0 := Spent(a), 1 := Spent(b)]
  {
    var events := TwoCalls(a, b, specs, key);
    assert events[..4] == events[..3] + [ShadowRetry(1, b, specs, key)];
    assert events[3] == ShadowRetry(1, b, specs, key);
    states := FirstSpends(a, b, specs, key);
    hide AddCharge, SpendOf, WellFormed, FirstFailing, Next, Enabled, Calm, IsCalmRun, TwoCalls, Duplicate;
    Retry(states[3], 1, b, specs, key);
    states := Extended(states, events[..3], ShadowRetry(1, b, specs, key));
  }

  /** Both rows are written. */
  lemma BothRecorded(a: Activation, b: Activation, specs: seq<Spec>, key: Option<string>) returns (states: seq<State>)
    requires Twins(a, b, specs) && HasKey(key)
    ensures IsCalmRun(states, TwoCalls(a, b, specs, key)) && |states| == 7
    ensures Haunts(states[3], TwoCalls(a, b, specs, key)[3]) && states[6].rows == map[a.id := a, b.id := b]
    ensures states[6].levels == AddCharge(map[], a.charge) && states[6].listings == map[]
    ensures states[6].calls == map[0 := Finished, 1 := Finished]
  {
    var events := TwoCalls(a, b, specs, key);
    assert events == events[..4] + [Record(0)] + [Record(1)];
    states := OneSpends(a, b, specs, key);
    hide AddCharge, Haunts, WellFormed, FirstFailing, Next, Enabled, Calm, IsCalmRun, TwoCalls;
    Recording(states[4], 0);
    states := Extended(states, events[..4], Record(0));
    Recording(states[5], 1);
    states := Extended(states, events[..4] + [Record(0)], Record(1));
  }

  /**
   For every bundle that does not fit, and every key: both calls are refused, the first spends on its second
   script and takes the key, the second is answered a replay; both rows are written. Nothing crashes and no
   pass is running, and every slot of the bundle stands at half of what is OPEN on it.
   */
  lemma OverlapUnderCounts(a: Activation, b: Activation, specs: seq<Spec>, key: Option<string>) returns (states: seq<State>)
    requires Twins(a, b, specs) && HasKey(key)
    ensures IsCalmRun(states, TwoCalls(a, b, specs, key)) && |states| == 7
    ensures Haunts(states[3], TwoCalls(a, b, specs, key)[3]) && states[6].rows == map[a.id := a, b.id := b]
    ensures forall s :: Level(states[6].levels, s) == Weight(a.charge, s) && OpenSum(states[6].rows, s) == 2.0 * Weight(a.charge, s)
  {
    hide *;
    states := BothRecorded(a, b, specs, key);
    assert a.charge == b.charge && a.id != b.id && a.state == Open && b.state == Open by { TwinRows(a, b, specs); }
    HalfOfTwo(a, b);
  }

  lemma TwinRows(a: Activation, b: Activation, specs: seq<Spec>)
    requires Twins(a, b, specs)
    ensures a.charge == b.charge && a.id != b.id && a.state == Open && b.state == Open
  {
    hide WellFormed, FirstFailing, SpendOf;
  }

  lemma HalfOfTwo(a: Activation, b: Activation)
    requires a.charge == b.charge && a.id != b.id && a.state == Open && b.state == Open
    ensures forall s :: Level(AddCharge(map[], a.charge), s) == Weight(a.charge, s)
                        && OpenSum(map[a.id := a, b.id := b], s) == 2.0 * Weight(a.charge, s)
  {
    hide AddCharge, Weight;
    forall s
      ensures Level(AddCharge(map[], a.charge), s) == Weight(a.charge, s)
      ensures OpenSum(map[a.id := a, b.id := b], s) == 2.0 * Weight(a.charge, s)
    {
      LevelAfterAdd(map[], a.charge, s);
      SumZero(OpenWeights(map[], s));
      OpenSumUpdate(map[], a.id, a, s);
      OpenSumUpdate(map[a.id := a], b.id, b, s);
    }
  }

  /** A release of a row that spends on one gauge, from its mark to its one decrement. */
  lemma ReleasedAfter(states: seq<State>, events: seq<Event>, c: nat, id: Id, rk: Resource, s: Slot) returns (longer: seq<State>)
    requires IsCalmRun(states, events) && |states| == |events| + 1
    requires var st := states[|events|]; c !in st.calls && st.listings == map[] && CanRelease(st.rows, id)
    requires var charge := states[|events|].rows[id].charge;
             rk in charge.spend && s in SlotsOf(charge.org, charge.user, rk)
    ensures IsCalmRun(longer, events + [BeginRelease(c, id)] + [Decrement(c, rk)])
    ensures |longer| == |events| + 3 && longer[..|events| + 1] == states
    ensures var st, st' := states[|events|], longer[|events| + 2];
            && st'.rows == MarkReleased(st.rows, id) && st'.listings == map[]
            && st'.calls.Keys == st.calls.Keys + {c}
            && Level(st'.levels, s) == Max0(Level(st.levels, s) - st.rows[id].charge.spend[rk])
  {
    var n := |events|;
    var st := states[n];
    longer := Extended(states, events, BeginRelease(c, id));
    var marked := longer[n + 1];
    assert marked == st.(rows := MarkReleased(st.rows, id), calls := st.calls[c := Releasing(id, st.rows[id].charge)]);
    assert Sound(marked) by { RunSound(longer, events + [BeginRelease(c, id)], n + 1); }
    DecrementOnSlot(marked, c, rk, s);
    var next := longer;
    longer := Extended(next, events + [BeginRelease(c, id)], Decrement(c, rk));
  }

  lemma OneReleased(a: Activation, b: Activation, specs: seq<Spec>, key: Option<string>, rk: Resource, s: Slot)
    returns (states: seq<State>)
    requires Twins(a, b, specs) && HasKey(key) && rk in a.charge.spend && s in SlotsOf(a.charge.org, a.charge.user, rk)
    ensures IsCalmRun(states, TwoCalls(a, b, specs, key) + [BeginRelease(2, a.id)] + [Decrement(2, rk)]) && |states| == 9
    ensures states[8].rows == map[a.id := a.(state := Released), b.id := b]
    ensures Level(states[8].levels, s) == 0.0 && states[8].listings == map[] && states[8].calls.Keys == {0, 1, 2}
  {
    assert |TwoCalls(a, b, specs, key)| == 6;
    hide AddCharge, Weight, SlotsOf, Next, Enabled, Calm, IsCalmRun, TwoCalls, Twins, Haunts, MarkReleased;
    TwinRows(a, b, specs);
    LevelAfterAdd(map[], a.charge, s);
    OnSlot(a.charge, rk, s);
    var before := BothRecorded(a, b, specs, key);
    MarksFirst(a, b);
    states := ReleasedAfter(before, TwoCalls(a, b, specs, key), 2, a.id, rk, s);
  }

  lemma MarksFirst(a: Activation, b: Activation)
    requires a.id != b.id && a.state == Open
    ensures MarkReleased(map[a.id := a, b.id := b], a.id) == map[a.id := a.(state := Released), b.id := b]
  {
  }

  lemma OnSlot(c: Charge, rk: Resource, s: Slot)
    requires rk in c.spend && s in SlotsOf(c.org, c.user, rk)
    ensures Weight(c, s) == c.spend[rk]
  {
  }

  /**
   Once the first of the two is released the counters of each of its gauges read zero, with the other still
   OPEN; and of its release nothing is taken off, the zero floor keeps all of it back.
   */
  lemma OverlapBitesFloor(a: Activation, b: Activation, specs: seq<Spec>, key: Option<string>, rk: Resource, s: Slot)
    returns (states: seq<State>)
    requires Twins(a, b, specs) && HasKey(key) && rk in a.charge.spend && s in SlotsOf(a.charge.org, a.charge.user, rk)
    ensures IsCalmRun(states, TwoCalls(a, b, specs, key) + [BeginRelease(2, a.id)] + [Decrement(2, rk)]
                              + [BeginRelease(3, b.id)] + [Decrement(3, rk)])
    ensures |states| == 11 && Level(states[8].levels, s) == 0.0 && OpenSum(states[8].rows, s) == a.charge.spend[rk]
    ensures Level(states[10].levels, s) == 0.0 && OpenSum(states[10].rows, s) == 0.0
  {
    TwinRows(a, b, specs);
    var events := TwoCalls(a, b, specs, key) + [BeginRelease(2, a.id)] + [Decrement(2, rk)];
    var halfway := OneReleased(a, b, specs, key, rk, s);
    var rows := halfway[8].rows;
    OnSlot(a.charge, rk, s);
    NonNegativeSpend(a, specs, rk);
    hide Weight, SlotsOf, Next, Enabled, Calm, IsCalmRun, TwoCalls, Twins, Level;
    states := ReleasedAfter(halfway, events, 3, b.id, rk, s);
    assert states[8] == states[..9][8];
    assert MarkReleased(rows, b.id) == map[a.id := a.(state := Released), b.id := b.(state := Released)];
    OneLeftOpen(a, b, s);
  }

  lemma NonNegativeSpend(a: Activation, specs: seq<Spec>, rk: Resource)
    requires WellFormed(specs) && a.charge.spend == SpendOf(specs) && rk in a.charge.spend
    ensures a.charge.spend[rk] >= 0.0
  {
    SpendNonNegative(a.charge.org, a.charge.user, specs);
  }

  lemma OneLeftOpen(a: Activation, b: Activation, s: Slot)
    requires a.charge == b.charge && a.id != b.id && a.state == Open && b.state == Open
    ensures OpenSum(map[a.id := a.(state := Released), b.id := b], s) == Weight(b.charge, s)
    ensures OpenSum(map[a.id := a.(state := Released), b.id := b.(state := Released)], s) == 0.0
  {
    SumZero(OpenWeights(map[a.id := a.(state := Released)], s));
    OpenSumUpdate(map[a.id := a.(state := Released)], b.id, b, s);
    SumZero(OpenWeights(map[a.id := a.(state := Released), b.id := b.(state := Released)], s));
  }
}
