/**
 The Redis activation store as a step machine: a row per activation and a per-org index of
 open ids, written one after the other. A process may die between the two writes. `issued` is
 bookkeeping only: the ids `put_open` has returned for, which is when a caller learns them.
 */
module RedisStore {
  import opened Prelude
  import opened Gauges
  import opened Activations

  datatype Call =
    | Indexing(row: Activation)          // put_open: row written, index not yet
    | Unindexing(org: Org, id: Id)       // transition done, index entry not yet removed
    | Finished

  datatype Entry = Entry(org: Org, id: Id)

  datatype State = State(rows: Rows, index: set<Entry>, calls: map<nat, Call>, issued: set<Id>)

  datatype Event =
    | PutRow(call: nat, row: Activation)
    | AddToIndex(call: nat)
    | Transition(call: nat, id: Id, from: RowState, to: RowState, cost: string)
    | RemoveFromIndex(call: nat)
    | Die(call: nat)

  function Initial(): State { State(map[], {}, map[], {}) }

  predicate Enabled(st: State, e: Event)
  {
    match e
    case PutRow(c, row) => c !in st.calls && row.state == Open && row.cost == None
    case AddToIndex(c) => c in st.calls && st.calls[c].Indexing?
    case Transition(c, id, from, to, cost) =>
      && c !in st.calls && id in st.issued
      && ((from == Open && to == Released) || (from != Settled && to == Settled))
    case RemoveFromIndex(c) => c in st.calls && st.calls[c].Unindexing?
    case Die(c) => c in st.calls
  }

  /** The `_TRANSITION` script: the row moves only if it is still in the state expected. */
  function Moved(a: Activation, to: RowState, cost: string): Activation
  {
    if to == Settled then a.(state := Settled, cost := Some(cost)) else a.(state := to)
  }

  function Next(st: State, e: Event): State
    requires Enabled(st, e)
  {
    match e
    case PutRow(c, row) =>
      if row.id in st.rows then st.(calls := st.calls[c := Finished])
      else st.(rows := st.rows[row.id := row], calls := st.calls[c := Indexing(row)])
    case AddToIndex(c) =>
      var row := st.calls[c].row;
      st.(index := st.index + {Entry(row.charge.org, row.id)},
          issued := st.issued + {row.id}, calls := st.calls[c := Finished])
    case Transition(c, id, from, to, cost) =>
      if id in st.rows && st.rows[id].state == from then
        st.(rows := st.rows[id := Moved(st.rows[id], to, cost)],
            calls := st.calls[c := Unindexing(st.rows[id].charge.org, id)])
      else st.(calls := st.calls[c := Finished])
    case RemoveFromIndex(c) =>
      st.(index := st.index - {Entry(st.calls[c].org, st.calls[c].id)}, calls := st.calls[c := Finished])
    case Die(c) => st.(calls := st.calls[c := Finished])
  }

  // ---- What holds even when processes die ------------------------------------------------------

  predicate IndexSound(st: State)
  {
    && Faithful(st.rows)
    && (forall k <- st.index :: k.id in st.rows && st.rows[k.id].charge.org == k.org)
  }

  /** A row whose index write is outstanding is OPEN, and nobody has its id. */
  predicate IndexingSound(st: State)
  {
    && (forall c <- st.calls | st.calls[c].Indexing? ::
          && st.calls[c].row.id in st.rows && st.rows[st.calls[c].row.id] == st.calls[c].row
          && st.calls[c].row.state == Open && st.calls[c].row.id !in st.issued)
    && (forall c, d | c in st.calls && d in st.calls && c != d && st.calls[c].Indexing? && st.calls[d].Indexing? ::
          st.calls[c].row.id != st.calls[d].row.id)
  }

  predicate UnindexingSound(st: State)
  {
    forall c <- st.calls | st.calls[c].Unindexing? ::
      && st.calls[c].id in st.rows && st.rows[st.calls[c].id].state != Open
      && st.rows[st.calls[c].id].charge.org == st.calls[c].org
  }

  predicate IssuedSound(st: State)
  {
    forall id <- st.issued ::
      && id in st.rows
      && (st.rows[id].state == Open ==> Entry(st.rows[id].charge.org, id) in st.index)
  }

  predicate Inv(st: State)
  {
    IndexSound(st) && IndexingSound(st) && UnindexingSound(st) && IssuedSound(st)
  }

  lemma NextIndexing(st: State, e: Event)
    requires Inv(st) && Enabled(st, e)
    ensures IndexingSound(Next(st, e))
  {
  }

  lemma NextInv(st: State, e: Event)
    requires Inv(st) && Enabled(st, e)
    ensures Inv(Next(st, e))
  {
    NextIndexing(st, e);
  }

  // ---- What holds while none dies ----------------------------------------------------------------

  ghost predicate IndexingId(st: State, id: Id)
  {
    exists c <- st.calls :: st.calls[c].Indexing? && st.calls[c].row.id == id
  }

  ghost predicate UnindexingId(st: State, id: Id)
  {
    exists c <- st.calls :: st.calls[c].Unindexing? && st.calls[c].id == id
  }

  /** The index and the OPEN rows differ only by what some running call is about to write. */
  ghost predicate Tracked(st: State)
  {
    && (forall id <- st.rows | st.rows[id].state == Open ::
          Entry(st.rows[id].charge.org, id) in st.index || IndexingId(st, id))
    && (forall k <- st.index | k.id in st.rows && st.rows[k.id].state != Open :: UnindexingId(st, k.id))
  }

  lemma NextTracked(st: State, e: Event)
    requires Inv(st) && Tracked(st) && Enabled(st, e) && !e.Die?
    ensures Tracked(Next(st, e))
  {
    var st' := Next(st, e);
    NextInv(st, e);
    forall id <- st'.rows | st'.rows[id].state == Open
      ensures Entry(st'.rows[id].charge.org, id) in st'.index || IndexingId(st', id)
    {
      if id in st.rows && st.rows[id].state == Open && IndexingId(st, id) {
        var c :| c in st.calls && st.calls[c].Indexing? && st.calls[c].row.id == id;
        assert c in st'.calls;
      } else if e.PutRow? && id == e.row.id {
        assert e.call in st'.calls;
      }
    }
    forall k <- st'.index | st'.rows[k.id].state != Open
      ensures UnindexingId(st', k.id)
    {
      if k in st.index && st.rows[k.id].state != Open {
        var c :| c in st.calls && st.calls[c].Unindexing? && st.calls[c].id == k.id;
        assert c in st'.calls;
      } else if e.Transition? {
        assert e.call in st'.calls;
      }
    }
  }

  // ---- Runs ------------------------------------------------------------------------------------------

  ghost predicate IsRun(states: seq<State>, events: seq<Event>)
  {
    && |states| == |events| + 1
    && states[0] == Initial()
    && forall i | 0 <= i < |events| :: Enabled(states[i], events[i]) && states[i + 1] == Next(states[i], events[i])
  }

  lemma {:induction false} RunInv(states: seq<State>, events: seq<Event>, i: nat)
    requires IsRun(states, events) && i < |states|
    ensures Inv(states[i])
  {
    if i > 0 {
      RunInv(states, events, i - 1);
      NextInv(states[i - 1], events[i - 1]);
    }
  }

  lemma {:induction false} RunTracked(states: seq<State>, events: seq<Event>, i: nat)
    requires IsRun(states, events) && i < |states|
    requires forall j | 0 <= j < |events| :: !events[j].Die?
    ensures Inv(states[i]) && Tracked(states[i])
  {
    RunInv(states, events, i);
    if i > 0 {
      RunTracked(states, events, i - 1);
      RunInv(states, events, i - 1);
      NextTracked(states[i - 1], events[i - 1]);
    }
  }

  /** At rest, with no process lost, an org's index is exactly its OPEN rows: `count_open` is right. */
  lemma IndexIsTheOpenSet(states: seq<State>, events: seq<Event>, i: nat, org: Org)
    requires IsRun(states, events) && i < |states|
    requires forall j | 0 <= j < |events| :: !events[j].Die?
    requires forall c <- states[i].calls :: states[i].calls[c].Finished?
    ensures (set k | k in states[i].index && k.org == org :: k.id) == OpenIds(states[i].rows, org)
  {
    RunTracked(states, events, i);
    var st := states[i];
    forall id <- OpenIds(st.rows, org) ensures Entry(org, id) in st.index {
      assert st.rows[id].state == Open;
    }
  }

  /**
   Even when processes die: an activation whose id was handed to a caller is in its org's index as
   long as it is OPEN. A dead `put_open` can only strand a row that nobody was told about.
   */
  lemma IssuedOpenIsIndexed(states: seq<State>, events: seq<Event>, i: nat, id: Id)
    requires IsRun(states, events) && i < |states|
    requires id in states[i].issued && id in states[i].rows && states[i].rows[id].state == Open
    ensures Entry(states[i].rows[id].charge.org, id) in states[i].index
  {
    RunInv(states, events, i);
  }

  /**
   What the calls come to when nobody interferes: an activation is put, and its id handed out with the row in
   the index; released, and taken off the index; settled from there, with its cost.
   */
  lemma LifeOfARow(a: Activation, cost: string) returns (states: seq<State>)
    requires a.state == Open && a.cost == None
    ensures IsRun(states, [PutRow(0, a), AddToIndex(0), Transition(1, a.id, Open, Released, ""), RemoveFromIndex(1),
                           Transition(2, a.id, Released, Settled, cost), RemoveFromIndex(2)])
    ensures states[2].issued == {a.id} && states[2].rows == map[a.id := a] && states[2].index == {Entry(a.charge.org, a.id)}
    ensures states[4].rows == map[a.id := a.(state := Released)] && states[4].index == {}
    ensures states[6].rows == map[a.id := a.(state := Settled, cost := Some(cost))] && states[6].index == {}
    ensures forall c <- states[6].calls :: states[6].calls[c].Finished?
  {
    var s1 := Next(Initial(), PutRow(0, a));
    var s2 := Next(s1, AddToIndex(0));
    var s3 := Next(s2, Transition(1, a.id, Open, Released, ""));
    var s4 := Next(s3, RemoveFromIndex(1));
    var s5 := Next(s4, Transition(2, a.id, Released, Settled, cost));
    states := [Initial(), s1, s2, s3, s4, s5, Next(s5, RemoveFromIndex(2))];
  }

  /**
   With a death the index is not the OPEN set, though every call has ended: a dead `put_open` leaves an OPEN row
   that no listing finds, and a dead release a closed row that is still listed.
   */
  lemma DeathStrands(a: Activation, b: Activation) returns (states: seq<State>)
    requires a.state == Open && a.cost == None && b.state == Open && b.cost == None && a.id != b.id
    ensures IsRun(states, [PutRow(0, a), Die(0), PutRow(1, b), AddToIndex(1), Transition(2, b.id, Open, Released, ""), Die(2)])
    ensures a.id in states[6].rows && states[6].rows[a.id].state == Open && Entry(a.charge.org, a.id) !in states[6].index
    ensures b.id in states[6].rows && states[6].rows[b.id].state == Released && Entry(b.charge.org, b.id) in states[6].index
    ensures forall c <- states[6].calls :: states[6].calls[c].Finished?
  {
    var s1 := Next(Initial(), PutRow(0, a));
    var s2 := Next(s1, Die(0));
    var s3 := Next(s2, PutRow(1, b));
    var s4 := Next(s3, AddToIndex(1));
    var s5 := Next(s4, Transition(2, b.id, Open, Released, ""));
    states := [Initial(), s1, s2, s3, s4, s5, Next(s5, Die(2))];
  }

  /** Every row write is one the in-memory store would do, or no write at all. */
  lemma RowsRefineInMemory(st: State, e: Event)
    requires Inv(st) && Enabled(st, e)
    ensures e.PutRow? ==> Next(st, e).rows == PutOpen(st.rows, e.row)
    ensures e.Transition? && e.to == Released ==> Next(st, e).rows == MarkReleased(st.rows, e.id)
    ensures e.Transition? && e.to == Settled ==>
              Next(st, e).rows == if e.id in st.rows && st.rows[e.id].state == e.from
                                  then MarkSettled(st.rows, e.id, e.cost) else st.rows
    ensures !e.PutRow? && !e.Transition? ==> Next(st, e).rows == st.rows
    ensures RowsAdvance(st.rows, Next(st, e).rows)
  {
  }

  lemma {:induction false} RunAdvances(states: seq<State>, events: seq<Event>, i: nat, j: nat)
    requires IsRun(states, events) && i <= j < |states|
    ensures RowsAdvance(states[i].rows, states[j].rows)
    decreases j
  {
    if i < j {
      RunAdvances(states, events, i, j - 1);
      RunInv(states, events, j - 1);
      RowsRefineInMemory(states[j - 1], events[j - 1]);
      AdvanceTransitive(states[i].rows, states[j - 1].rows, states[j].rows);
    }
  }

  /**
   `list_open` reads the index once and each row later. Whatever runs in between, a row it keeps is
   an OPEN row of the org asked for when it is read.
   */
  lemma ListedRowIsOpen(states: seq<State>, events: seq<Event>, i: nat, j: nat, org: Org, id: Id)
    requires IsRun(states, events) && i <= j < |states|
    requires Entry(org, id) in states[i].index
    ensures id in states[j].rows
    ensures states[j].rows[id].state == Open <==> id in OpenIds(states[j].rows, org)
  {
    RunInv(states, events, i);
    RunAdvances(states, events, i, j);
    assert Advances(states[i].rows[id], states[j].rows[id]);
  }
}
