/**
 What a converge is worth when its listing is stale. Between the listing of an org's OPEN rows and
 the writes of its counters other calls run on; the reconciler even asks the provider in between.
 Here: exactly when a write is safe, by how much it is off otherwise, and that the guard on recent
 activity does not keep a run from ending with a counter below the ledger.
 */
module ConvergeWindow {
  import opened Prelude
  import opened Sums
  import opened Gauges
  import opened Activations
  import opened LedgerMachine
  import opened Repair

  // ---- When a write is safe ---------------------------------------------------------------------

  /** The net effect of the events from i up to j on what is accounted for on a slot. */
  ghost function NetMove(states: seq<State>, events: seq<Event>, i: nat, j: nat, s: Slot): real
    requires IsRun(states, events) && i <= j <= |events|
    decreases j
  {
    if i == j then 0.0 else NetMove(states, events, i, j - 1, s) + Move(states[j - 1], events[j - 1], s)
  }

  lemma {:induction false} NetMoveAdds(states: seq<State>, events: seq<Event>, i: nat, j: nat, s: Slot)
    requires IsRun(states, events) && i <= j <= |events|
    ensures Committed(states[j], s) == Committed(states[i], s) + NetMove(states, events, i, j, s)
    decreases j
  {
    hide Next, Enabled, Accounted, Move, Sound;
    if i < j {
      NetMoveAdds(states, events, i, j - 1, s);
      RunSound(states, events, j - 1);
      CommittedMoves(states[j - 1], events[j - 1], s);
    }
  }

  /** One write, and its books. */
  lemma WriteSets(st: State, p: nat, s: Slot)
    requires Enabled(st, ConvergeWrite(p, s))
    ensures var st', level := Next(st, ConvergeWrite(p, s)), ListedSum(st.listings[p].opens, s);
            && st'.rows == st.rows && st'.calls == st.calls && Level(st'.levels, s) == level
            && Level(st'.orphan, s) == Max0(level - Committed(st, s))
            && Level(st'.phantom, s) == Max0(Committed(st, s) - level)
  {
    hide WriteSlot, Accounted, ListedSum;
    WriteSlotReads(st.levels, st.listings[p].opens, s, s);
  }

  /** Off by what has been added to what was listed. */
  lemma WrittenOff(st: State, p: nat, s: Slot, open: real, net: real)
    requires Enabled(st, ConvergeWrite(p, s)) && ListedSum(st.listings[p].opens, s) == open && Committed(st, s) == open + net
    ensures var st' := Next(st, ConvergeWrite(p, s));
            && Level(st'.levels, s) == Committed(st', s) - net && Committed(st', s) == Committed(st, s)
            && Level(st'.orphan, s) == Max0(-net) && Level(st'.phantom, s) == Max0(net)
            && (Quiescent(st, s.org) ==> (Level(st'.levels, s) == OpenSum(st'.rows, s) <==> OpenSum(st.rows, s) == open))
  {
    WriteSets(st, p, s);
    hide Next, Enabled, Level, ListedSum, OpenSum, Unrecorded, Undecremented;
    if Quiescent(st, s.org) {
      NothingInFlight(st, s.org, s);
    }
  }

  /**
   A pass lists the org at i, at rest, and writes the slot at j. Whatever ran in between, in any run:
   the written level is off by exactly the net effect of the window. So it never falls below what is
   accounted for if and only if the window admitted no more than it decremented, lost and settled;
   and it is exact if and only if the two are equal. With nothing in flight at the write either,
   that is: if and only if Σ OPEN is what it was when it was listed.
   */
  lemma ConvergeSafeIff(states: seq<State>, events: seq<Event>, i: nat, j: nat, s: Slot)
    requires IsRun(states, events) && i <= j < |events|
    requires events[j].ConvergeWrite? && events[j].slot == s && Quiescent(states[i], s.org)
    requires ListedSum(states[j].listings[events[j].pass].opens, s) == OpenSum(states[i].rows, s)
    ensures Level(states[j + 1].levels, s) == Committed(states[j + 1], s) - NetMove(states, events, i, j, s)
    ensures Committed(states[j + 1], s) <= Level(states[j + 1].levels, s) <==> NetMove(states, events, i, j, s) <= 0.0
    ensures Level(states[j + 1].orphan, s) == Max0(-NetMove(states, events, i, j, s))
    ensures Level(states[j + 1].phantom, s) == Max0(NetMove(states, events, i, j, s))
    ensures Quiescent(states[j], s.org) ==>
              (Level(states[j + 1].levels, s) == OpenSum(states[j + 1].rows, s)
               <==> OpenSum(states[j].rows, s) == OpenSum(states[i].rows, s))
  {
    NetMoveAdds(states, events, i, j, s);
    NothingInFlight(states[i], s.org, s);
    hide Next, Enabled, Move, NetMove, Level, ListedSum, OpenSum, Unrecorded, Undecremented, Quiescent;
    WrittenOff(states[j], events[j].pass, s, OpenSum(states[i].rows, s), NetMove(states, events, i, j, s));
  }

  /** The loops of a converge are such writes: each slot of the gauge ends as its own write leaves it. */
  lemma ConvergeIsItsWrites(m: Levels, opens: seq<Activation>, org: Org, rk: Resource, s: Slot)
    requires OfGauge(s, org, rk)
    ensures Level(Converged(m, opens, org, rk), s) == Level(WriteSlot(m, opens, s), s)
  {
    ConvergedReaches(m, opens, org, rk, s);
    WriteSlotReads(m, opens, s, s);
  }

  // ---- Undisturbed ----------------------------------------------------------------------------------

  ghost predicate IsPath(states: seq<State>, events: seq<Event>)
  {
    |states| == |events| + 1
    && forall i | 0 <= i < |events| :: Enabled(states[i], events[i]) && states[i + 1] == Next(states[i], events[i])
  }

  lemma Longer(states: seq<State>, events: seq<Event>, e: Event) returns (longer: seq<State>)
    requires IsPath(states, events) && Enabled(states[|events|], e)
    ensures IsPath(longer, events + [e]) && longer == states + [Next(states[|events|], e)]
  {
    hide Next, Enabled;
    longer := states + [Next(states[|events|], e)];
  }

  /** A pass that reads on undisturbed ends up with all it had to see, and touches nothing else. */
  lemma {:induction false} ReadsOn(states: seq<State>, events: seq<Event>, p: nat)
    returns (longer: seq<State>, more: seq<Event>)
    requires IsPath(states, events)
    requires var st := states[|events|]; p in st.listings && st.listings[p].todo <= st.rows.Keys
    ensures IsPath(longer, more) && longer[0] == states[0] && |events| <= |more| && more[..|events|] == events
    ensures var st, end := states[|events|], longer[|more|];
            && p in end.listings && end == st.(listings := st.listings[p := end.listings[p]])
            && end.listings[p].todo == {} && end.listings[p].org == st.listings[p].org
            && forall s :: ListedSum(end.listings[p].opens, s) == Seen(st.rows, st.listings[p], s)
    decreases |states[|events|].listings[p].todo|
  {
    var st := states[|events|];
    var l := st.listings[p];
    if l.todo == {} {
      longer, more := states, events;
      assert st == st.(listings := st.listings[p := l]);
      forall s ensures ListedSum(l.opens, s) == Seen(st.rows, l, s) {
        SumZero(OpenWeights(Unread(st.rows, {}), s));
      }
    } else {
      var id :| id in l.todo;
      var read := if st.rows[id].state == Open then [st.rows[id]] else [];
      var l' := l.(todo := l.todo - {id}, opens := l.opens + read);
      var next := Longer(states, events, ListRow(p, id));
      assert next[|events| + 1] == st.(listings := st.listings[p := l']);
      forall s ensures Seen(st.rows, l', s) == Seen(st.rows, l, s) {
        SeenRow(st.rows, l, id, s);
      }
      hide Next, Enabled, IsPath, Seen, ListedSum;
      longer, more := ReadsOn(next, events + [ListRow(p, id)], p);
      assert st.listings[p := l'][p := longer[|more|].listings[p]] == st.listings[p := longer[|more|].listings[p]];
    }
  }

  /**
   Whatever had been written to a slot before, a pass over an org of no more than a hundred OPEN rows that
   nothing disturbs leaves it at exactly Σ OPEN, and every other slot, the ledger and the calls as they were.
   */
  lemma UndisturbedConverge(st: State, p: nat, s: Slot, written: real) returns (states: seq<State>, events: seq<Event>)
    requires p !in st.listings && Faithful(st.rows) && |OpenIds(st.rows, s.org)| <= 100
    ensures IsPath(states, events) && states[0] == st && |events| >= 4
    ensures events[0] == ProviderWrite(s, written) && events[1] == ListIds(p, s.org, OpenIds(st.rows, s.org))
    ensures events[|events| - 2] == ConvergeWrite(p, s) && events[|events| - 1] == EndPass(p)
    ensures var end := states[|events|];
            && Level(end.levels, s) == OpenSum(st.rows, s) && (forall t | t != s :: Level(end.levels, t) == Level(st.levels, t))
            && end.rows == st.rows && end.calls == st.calls && end.listings == st.listings
  {
    var soFar, upTo := HasRead(st, p, s, written);
    hide Next, Enabled, IsPath, OpenIds, ListedSum, OpenSum, Level;
    WritesAndEnds(soFar[|upTo|], p, s);
    var rewritten := Longer(soFar, upTo, ConvergeWrite(p, s));
    states := Longer(rewritten, upTo + [ConvergeWrite(p, s)], EndPass(p));
    events := upTo + [ConvergeWrite(p, s)] + [EndPass(p)];
  }

  lemma HasRead(st: State, p: nat, s: Slot, written: real) returns (states: seq<State>, events: seq<Event>)
    requires p !in st.listings && Faithful(st.rows) && |OpenIds(st.rows, s.org)| <= 100
    ensures IsPath(states, events) && states[0] == st && |events| >= 2
    ensures events[0] == ProviderWrite(s, written) && events[1] == ListIds(p, s.org, OpenIds(st.rows, s.org))
    ensures var end := states[|events|];
            && end.rows == st.rows && end.calls == st.calls && end.listings.Keys == st.listings.Keys + {p}
            && end.listings - {p} == st.listings
            && end.listings[p].todo == {} && end.listings[p].org == s.org
            && ListedSum(end.listings[p].opens, s) == OpenSum(st.rows, s)
            && forall t | t != s :: Level(end.levels, t) == Level(st.levels, t)
  {
    var begun, two := BeginsPass(st, p, s, written);
    AllSeen(st.rows, s.org, s);
    hide Next, Enabled, IsPath, Seen, ListedSum, OpenSum, Level, OpenIds;
    states, events := ReadsOn(begun, two, p);
    assert events[0] == events[..2][0] && events[1] == events[..2][1];
    assert begun[2].listings - {p} == st.listings;
  }

  lemma BeginsPass(st: State, p: nat, s: Slot, written: real) returns (states: seq<State>, events: seq<Event>)
    requires p !in st.listings && Faithful(st.rows) && |OpenIds(st.rows, s.org)| <= 100
    ensures events == [ProviderWrite(s, written), ListIds(p, s.org, OpenIds(st.rows, s.org))]
    ensures IsPath(states, events) && states[0] == st
    ensures var begun := states[2];
            && begun.rows == st.rows && begun.calls == st.calls
            && begun.listings == st.listings[p := Listing(s.org, OpenIds(st.rows, s.org), [])]
            && forall t | t != s :: Level(begun.levels, t) == Level(st.levels, t)
  {
    hide Accounted, Max0;
    var first := Next(st, ProviderWrite(s, written));
    events := [ProviderWrite(s, written), ListIds(p, s.org, OpenIds(st.rows, s.org))];
    states := [st, first, Next(first, events[1])];
  }

  lemma WritesAndEnds(st: State, p: nat, s: Slot)
    requires p in st.listings && st.listings[p].todo == {} && st.listings[p].org == s.org
    ensures Enabled(st, ConvergeWrite(p, s))
    ensures var after := Next(st, ConvergeWrite(p, s));
            && Enabled(after, EndPass(p))
            && var end := Next(after, EndPass(p));
               && end.rows == st.rows && end.calls == st.calls && end.listings == st.listings - {p}
               && forall t :: Level(end.levels, t) == if t == s then ListedSum(st.listings[p].opens, s) else Level(st.levels, t)
  {
    hide Accounted, Max0, ListedSum, WriteSlot;
    forall t ensures Level(WriteSlot(st.levels, st.listings[p].opens, s), t)
                  == if t == s then ListedSum(st.listings[p].opens, s) else Level(st.levels, t)
    {
      WriteSlotReads(st.levels, st.listings[p].opens, s, t);
    }
    hide Level;
  }

  lemma AllSeen(rows: Rows, org: Org, s: Slot)
    requires s.org == org
    ensures Seen(rows, Listing(org, OpenIds(rows, org), []), s) == OpenSum(rows, s)
  {
    var all, ids := OpenWeights(rows, s), OpenIds(rows, org);
    SumOfPart(all, ids);
    assert (map id | id in all && id in ids :: all[id]) == OpenWeights(Unread(rows, ids), s);
  }

  // ---- By how much it is off ------------------------------------------------------------------------

  /** A pass that has read its rows, with what the ledger held on the slot when it did. */
  ghost predicate Listed(st: State, p: nat, s: Slot, open: real)
  {
    && p in st.listings && st.listings[p].org == s.org && st.listings[p].todo == {}
    && ListedSum(st.listings[p].opens, s) == open
  }

  /**
   An acquire that lies wholly between the listing and the write: the org is at rest when it is
   listed and again when it is written, and the counter ends below Σ OPEN by exactly what was spent.
   */
  lemma StaleListingUnderCounts(st: State, p: nat, c: nat, row: Activation, specs: seq<Spec>, key: Option<string>, s: Slot)
    requires Sound(st) && Listed(st, p, s, OpenSum(st.rows, s)) && Quiescent(st, s.org)
    requires Enabled(st, Acquire(c, row, specs, key)) && Spends(st, row, specs, key)
    ensures var spent := Next(st, Acquire(c, row, specs, key));
            && Enabled(spent, Record(c))
            && var recorded := Next(spent, Record(c));
            && Quiescent(recorded, s.org) && Enabled(recorded, ConvergeWrite(p, s))
            && var after := Next(recorded, ConvergeWrite(p, s));
            Level(after.levels, s) == OpenSum(after.rows, s) - Weight(row.charge, s)
  {
    hide AddCharge, BumpGenerations, FirstFailing, WriteSlot, Accounted, Weight, SpendOf, WellFormed;
    var spent := Next(st, Acquire(c, row, specs, key));
    var recorded := Next(spent, Record(c));
    WriteSlotReads(recorded.levels, st.listings[p].opens, s, s);
    OpenSumUpdate(st.rows, row.id, row, s);
  }

  /** An acquire caught between its two steps: the same, once it has written its row. */
  lemma ConvergeOverUnrecordedUnderCounts(st: State, p: nat, c: nat, s: Slot)
    requires Sound(st) && Listed(st, p, s, OpenSum(st.rows, s))
    requires c in st.calls && st.calls[c].Spent?
    ensures var written := Next(st, ConvergeWrite(p, s));
            && Enabled(written, Record(c))
            && var after := Next(written, Record(c));
            Level(after.levels, s) == OpenSum(after.rows, s) - Weight(st.calls[c].row.charge, s)
  {
    hide WriteSlot, Accounted, Weight;
    WriteSlotReads(st.levels, st.listings[p].opens, s, s);
    OpenSumUpdate(st.rows, st.calls[c].row.id, st.calls[c].row, s);
  }

  /** A release caught between its two steps: its decrement then cuts below Σ OPEN, to the floor. */
  lemma ConvergeOverPendingUnderCounts(st: State, p: nat, c: nat, rk: Resource, s: Slot)
    requires Sound(st) && Listed(st, p, s, OpenSum(st.rows, s))
    requires Enabled(st, Decrement(c, rk)) && s in SlotsOf(st.calls[c].left.org, st.calls[c].left.user, rk)
    ensures var written := Next(st, ConvergeWrite(p, s));
            && Enabled(written, Decrement(c, rk))
            && var after := Next(written, Decrement(c, rk));
            Level(after.levels, s) == Max0(OpenSum(after.rows, s) - st.calls[c].left.spend[rk])
  {
    hide WriteSlot, Accounted, Subtract;
    WriteSlotReads(st.levels, st.listings[p].opens, s, s);
    DecrementOnSlot(Next(st, ConvergeWrite(p, s)), c, rk, s);
  }

  /**
   The listing is cut at a hundred rows. Converging an org that has more leaves its counter below
   Σ OPEN by exactly the spend of the rows that were cut off, with nothing running at all.
   */
  lemma ConvergeCutUnderCounts(st: State, p: nat, s: Slot)
    requires Sound(st) && Enabled(st, ConvergeWrite(p, s))
    requires ListsOpen(st.rows, s.org, LIST_LIMIT, st.listings[p].opens)
    ensures var cut := OpenSum(st.rows - IdsOf(st.listings[p].opens), s);
            Level(Next(st, ConvergeWrite(p, s)).levels, s) == OpenSum(st.rows, s) - cut && cut >= 0.0
    ensures |st.listings[p].opens| == if |OpenIds(st.rows, s.org)| <= 100 then |OpenIds(st.rows, s.org)| else 100
  {
    var opens := st.listings[p].opens;
    WriteSlotReads(st.levels, opens, s, s);
    ListingMissesExactly(st.rows, opens, s);
    OpenSumNonNegative(st.rows - IdsOf(opens), s);
  }

  // ---- The guard on recent activity -------------------------------------------------------------------

  /**
   `_is_recent_activity`: a marker that only the legacy increment and decrement set, or a listed row
   opened inside the window. Neither acquire nor release touches the marker, and the rows are those
   of the listing.
   */
  predicate RecentActivity(marker: bool, opens: seq<Activation>, now: nat, window: nat)
  {
    marker || (window > 0 && exists a <- opens :: now <= a.openedAt + window)
  }

  /** The guard looks at the listing, so no acquire after it makes it hold a write back. */
  lemma GuardMissesTheWindow(st: State, p: nat, c: nat, row: Activation, specs: seq<Spec>, key: Option<string>,
                             now: nat, window: nat)
    requires p in st.listings && Enabled(st, Acquire(c, row, specs, key)) && Spends(st, row, specs, key)
    requires window > 0 && row.openedAt == now && !RecentActivity(false, st.listings[p].opens, now, window)
    ensures var recorded := Next(Next(st, Acquire(c, row, specs, key)), Record(c));
            && recorded.rows[row.id] == row && RecentActivity(false, [row], now, window)
            && !RecentActivity(false, recorded.listings[p].opens, now, window)
  {
    hide AddCharge, BumpGenerations, FirstFailing, SpendOf, WellFormed;
    assert row in [row];
  }

  function OneOf(rk: Resource): seq<Spec> { [Spec(rk, 1.0, None, None)] }

  function RowOf(org: Org, rk: Resource, id: Id, now: nat): Activation
  {
    Activation(id, Charge(org, None, SpendOf(OneOf(rk))), rk, now, Open, None)
  }

  function GuardedEvents(org: Org, rk: Resource, id: Id, now: nat): seq<Event>
  {
    [ListIds(0, org, {}), Acquire(0, RowOf(org, rk, id, now), OneOf(rk), None), Record(0), ConvergeWrite(0, OrgSlot(org, rk))]
  }

  lemma OneOfSpends(org: Org, rk: Resource)
    ensures SpendOf(OneOf(rk)) == map[rk := 1.0] && WellFormed(OneOf(rk))
    ensures Weight(Charge(org, None, SpendOf(OneOf(rk))), OrgSlot(org, rk)) == 1.0
  {
    assert OneOf(rk)[0] in OneOf(rk);
  }

  /**
   A run from the empty system in which the guard lets the write pass, and the org is at rest both when
   it is listed and when it is written; yet one activation is OPEN and the counter reads zero.
   */
  lemma GuardDoesNotProtect(org: Org, rk: Resource, id: Id, now: nat, window: nat) returns (states: seq<State>)
    ensures IsRun(states, GuardedEvents(org, rk, id, now))
    ensures Quiescent(states[0], org) && Quiescent(states[3], org)
    ensures !RecentActivity(false, states[3].listings[0].opens, now, window)
    ensures Level(states[4].levels, OrgSlot(org, rk)) == 0.0 && OpenSum(states[4].rows, OrgSlot(org, rk)) == 1.0
  {
    hide AddCharge, BumpGenerations, SpendOf, Accounted;
    var events, s := GuardedEvents(org, rk, id, now), OrgSlot(org, rk);
    OneOfSpends(org, rk);
    var s1 := Next(Initial(), events[0]);
    assert FirstFailing(s1.levels, org, None, OneOf(rk)).None?;
    assert Enabled(s1, events[1]);
    var s2 := Next(s1, events[1]);
    var s3 := Next(s2, events[2]);
    assert Enabled(s3, events[3]);
    states := [Initial(), s1, s2, s3, Next(s3, events[3])];
    WriteSlotReads(s3.levels, [], s, s);
    SumZero(OpenWeights(map[], s));
    OpenSumUpdate(map[], id, RowOf(org, rk, id, now), s);
  }
}
