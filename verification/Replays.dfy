/**
 What a replayed idempotency key stands for. A retry whose key is held is answered as an admission made
 before; over any run, here is which admission that is, and when it has left a row.
 */
module Replays {
  import opened Prelude
  import opened Gauges
  import opened Activations
  import opened LedgerMachine

  /** The event is the script that spends and takes the key's latch. */
  predicate Takes(st: State, e: Event, k: IdemKey)
  {
    SpendsAt(st, e) && AcquireKey(e.row, e.specs, e.key) == Some(k)
  }

  /** Step i took the latch, and it has not expired before step n. */
  ghost predicate TakenAt(states: seq<State>, events: seq<Event>, n: nat, k: IdemKey, i: nat)
    requires n <= |events| && |states| == |events| + 1
  {
    i < n && Takes(states[i], events[i], k) && forall j | i < j < n :: events[j] != ExpireIdem(k)
  }

  lemma NextHeld(st: State, e: Event, k: IdemKey)
    requires Enabled(st, e)
    ensures k in Next(st, e).idem <==> Takes(st, e, k) || (k in st.idem && e != ExpireIdem(k))
  {
    if SpendsAt(st, e) {
      assert Next(st, e) == Spending(st, e.call, e.row, AcquireKey(e.row, e.specs, e.key));
      hide Next, Enabled, AcquireKey, SpendsAt;
    } else {
      KeysStay(st, e);
      hide Next, Enabled, AcquireKey, SpendsAt;
    }
  }

  lemma KeysStay(st: State, e: Event)
    requires Enabled(st, e) && !SpendsAt(st, e)
    ensures Next(st, e).idem == if e.ExpireIdem? then st.idem - {e.expired} else st.idem
  {
    if Acquiring(e) {
      UnspentKeys(st, e);
    } else {
      OtherKeys(st, e);
    }
    hide Next, Enabled;
  }

  lemma UnspentKeys(st: State, e: Event)
    requires Enabled(st, e) && Acquiring(e) && !SpendsAt(st, e)
    ensures Next(st, e).idem == st.idem
  {
    hide AddCharge, NewRow, Duplicate, Admits;
  }

  lemma OtherKeys(st: State, e: Event)
    requires Enabled(st, e) && !Acquiring(e)
    ensures Next(st, e).idem == if e.ExpireIdem? then st.idem - {e.expired} else st.idem
  {
    hide AddCharge, Subtract, Forgiven, WriteSlot, NewRow, PutOpen, MarkReleased, MarkSettled, Committed, Generation, Duplicate,
         Admits, Max0, ListedSum;
    match e
    case Decrement(_, _) =>
    case Settle(_, _) =>
    case SettleReleased(_, _, _) =>
    case SettleOpen(_) =>
    case _ =>
  }

  /** A key is held if and only if some acquire took it and it has not expired since. */
  lemma {:induction false} HeldKeyIff(states: seq<State>, events: seq<Event>, n: nat, k: IdemKey)
    requires IsRun(states, events) && n < |states|
    ensures k in states[n].idem <==> exists i: nat :: TakenAt(states, events, n, k, i)
  {
    hide Next, Enabled, Takes;
    if n > 0 {
      HeldKeyIff(states, events, n - 1, k);
      NextHeld(states[n - 1], events[n - 1], k);
      if k in states[n - 1].idem && events[n - 1] != ExpireIdem(k) {
        var i: nat :| TakenAt(states, events, n - 1, k, i);
        assert TakenAt(states, events, n, k, i);
      }
      if Takes(states[n - 1], events[n - 1], k) {
        assert TakenAt(states, events, n, k, n - 1);
      }
      if i: nat :| TakenAt(states, events, n, k, i) && i < n - 1 {
        assert TakenAt(states, events, n - 1, k, i);
      }
    }
  }

  /** By one acquire only: while it is held every other one is a replay. */
  lemma OneTaker(states: seq<State>, events: seq<Event>, n: nat, k: IdemKey, i: nat, j: nat)
    requires IsRun(states, events) && n < |states|
    requires TakenAt(states, events, n, k, i) && TakenAt(states, events, n, k, j)
    ensures i == j
  {
    assert |states| == |events| + 1;
    hide IsRun, SpendsAt, AcquireKey;
    var a, b := if i < j then i else j, if i < j then j else i;
    if a < b {
      assert TakenAt(states, events, b, k, a);
      HeldKeyIff(states, events, b, k);
    }
  }

  /** A key that has expired is no replay any more: the same call spends again, if there is room. */
  lemma ExpiredKeySpends(st: State, row: Activation, specs: seq<Spec>, key: Option<string>, k: IdemKey)
    requires AcquireKey(row, specs, key) == Some(k)
    ensures Enabled(st, ExpireIdem(k))
    ensures var after := Next(st, ExpireIdem(k));
            && after.levels == st.levels && after.rows == st.rows && !Duplicate(after, row, specs, key)
            && (Spends(after, row, specs, key) <==> FirstFailing(st.levels, row.charge.org, row.charge.user, specs).None?)
  {
  }

  // ---- Its row -----------------------------------------------------------------------------------------

  /** A spent acquire on its way: its row written; or still to be written, or lost for good. */
  ghost predicate OnItsWay(st: State, c: nat, row: Activation, recorded: bool)
  {
    if recorded then row.id in st.rows else row.id !in st.rows && InFlight(st.calls, c, row)
  }

  predicate InFlight(calls: map<nat, Call>, c: nat, row: Activation)
  {
    && c in calls
    && (calls[c] == Spent(row) || (calls[c].Finished? && forall d <- calls | calls[d].Spent? :: calls[d].row.id != row.id))
  }

  /** One call moves on; if it becomes a spent one, with another id. */
  lemma CallOnTheWay(rows: Rows, calls: map<nat, Call>, d: nat, call: Call, c: nat, row: Activation)
    requires SpentSound(rows, calls) && InFlight(calls, c, row)
    requires d in calls && (calls[d].Spent? || calls[d].Finished?) ==> call.Finished?
    requires call.Spent? ==> call.row.id != row.id
    ensures InFlight(calls[d := call], c, row)
  {
    hide NonNegative;
  }

  lemma NextOnItsWay(st: State, e: Event, c: nat, row: Activation, recorded: bool)
    requires Sound(st) && Enabled(st, e) && OnItsWay(st, c, row, recorded)
    requires Acquiring(e) ==> e.row.id != row.id
    ensures OnItsWay(Next(st, e), c, row, recorded || e == Record(c))
  {
    if recorded {
      NextAdvances(st, e);
      hide Next, Enabled, Sound;
    } else if Passive(e) {
      RowsKept(st, e);
      hide Next, Enabled, Sound;
    } else if WritesRows(e) {
      RowsOnTheWay(st, e, c, row);
      hide Next, Enabled, Sound;
    } else {
      CallsOnTheWay(st, e, c, row);
      hide Next, Enabled, Sound;
    }
  }

  lemma CallsOnTheWay(st: State, e: Event, c: nat, row: Activation)
    requires SpentSound(st.rows, st.calls) && Enabled(st, e) && MovesCalls(e) && OnItsWay(st, c, row, false)
    requires Acquiring(e) ==> e.row.id != row.id
    ensures OnItsWay(Next(st, e), c, row, false)
  {
    hide AddCharge, Subtract, Forgiven, BumpGenerations, NewRow, Spends, Duplicate, AcquireKey, Generation, SpentSound, InFlight;
    match e
    case Acquire(d, other, specs, key) =>
      CallOnTheWay(st.rows, st.calls, d, Finished, c, row);
      CallOnTheWay(st.rows, st.calls, d, TurnedDown(other, specs, key), c, row);
      CallOnTheWay(st.rows, st.calls, d, Spent(other), c, row);
    case ShadowRetry(d, other, _, _) => CallOnTheWay(st.rows, st.calls, d, Spent(other), c, row);
    case Decrement(d, rk) =>
      var left := st.calls[d].left;
      CallOnTheWay(st.rows, st.calls, d, Releasing(st.calls[d].id, left.(spend := left.spend - {rk})), c, row);
    case LoseAcquire(d) => CallOnTheWay(st.rows, st.calls, d, Finished, c, row);
    case LoseRelease(d) => CallOnTheWay(st.rows, st.calls, d, Finished, c, row);
    case _ =>
  }

  lemma NotTheSame(st: State, d: nat, c: nat, row: Activation)
    requires SpentSound(st.rows, st.calls) && InFlight(st.calls, c, row) && d in st.calls && st.calls[d].Spent?
    ensures if d == c then st.calls[c] == Spent(row) else st.calls[d].row.id != row.id
  {
  }

  lemma RowsOnTheWay(st: State, e: Event, c: nat, row: Activation)
    requires Sound(st) && Enabled(st, e) && WritesRows(e) && OnItsWay(st, c, row, false)
    ensures OnItsWay(Next(st, e), c, row, e == Record(c))
  {
    hide AddCharge, ReleasingSound, ClaimsSound, RowsSound, ListingsSound, NonNegative, InFlight;
    match e
    case Record(d) =>
      if d != c {
        assert st.calls[d].row.id != row.id by { NotTheSame(st, d, c, row); }
        CallOnTheWay(st.rows, st.calls, d, Finished, c, row);
      } else {
        assert st.calls[c] == Spent(row) by { NotTheSame(st, d, c, row); }
      }
    case BeginRelease(d, id) =>
      CallOnTheWay(st.rows, st.calls, d, Finished, c, row);
      if CanRelease(st.rows, id) {
        CallOnTheWay(st.rows, st.calls, d, Releasing(id, st.rows[id].charge), c, row);
      }
    case _ => SettlesOnTheWay(st, e, c, row);
  }

  lemma SettlesOnTheWay(st: State, e: Event, c: nat, row: Activation)
    requires SpentSound(st.rows, st.calls) && Enabled(st, e) && (e.Settle? || e.SettleReleased? || e.SettleOpen?)
    requires OnItsWay(st, c, row, false)
    ensures OnItsWay(Next(st, e), c, row, false)
  {
    hide AddCharge, SpentSound, InFlight;
    match e
    case SettleReleased(d, id, cost) =>
      CallOnTheWay(st.rows, st.calls, d, Finished, c, row);
      CallOnTheWay(st.rows, st.calls, d, Settling(id, cost), c, row);
    case SettleOpen(d) => CallOnTheWay(st.rows, st.calls, d, Finished, c, row);
    case _ =>
  }

  /** No later acquire is given the id: ids are minted. */
  predicate Minted(events: seq<Event>, i: nat, n: nat)
    requires i < n <= |events| && Acquiring(events[i])
  {
    forall j | i < j < n && Acquiring(events[j]) :: events[j].row.id != events[i].row.id
  }

  lemma JustSpent(st: State, e: Event)
    requires Enabled(st, e) && SpendsAt(st, e)
    ensures OnItsWay(Next(st, e), e.call, e.row, false)
  {
    hide AddCharge, BumpGenerations, WellFormed, Spends, Duplicate, AcquireKey, SpendOf;
  }

  /** The acquire of step i has written its row before step n. */
  predicate Recorded(events: seq<Event>, i: nat, n: nat)
    requires i < n <= |events| && Acquiring(events[i])
  {
    exists j | i < j < n :: events[j] == Record(events[i].call)
  }

  lemma RecordedNext(events: seq<Event>, i: nat, n: nat)
    requires i < n < |events| && Acquiring(events[i])
    ensures !Recorded(events, i, i + 1)
    ensures Recorded(events, i, n + 1) <==> Recorded(events, i, n) || events[n] == Record(events[i].call)
  {
  }

  lemma {:induction false} WayOf(states: seq<State>, events: seq<Event>, i: nat, n: nat)
    requires IsRun(states, events) && i < n <= |events| && SpendsAt(states[i], events[i]) && Minted(events, i, n)
    ensures OnItsWay(states[n], events[i].call, events[i].row, Recorded(events, i, n))
    decreases n
  {
    hide OnItsWay, Next, Enabled, Sound, Spends, Duplicate;
    if n == i + 1 {
      JustSpent(states[i], events[i]);
    } else {
      WayOf(states, events, i, n - 1);
      RunSound(states, events, n - 1);
      NextOnItsWay(states[n - 1], events[n - 1], events[i].call, events[i].row, Recorded(events, i, n - 1));
      RecordedNext(events, i, n - 1);
    }
  }

  /**
   A retry under a held key is answered by the script as a replay, of the one acquire that took the key; and
   that acquire has left a row if and only if it got as far as recording it. One that died in between, or whose
   row could not be written, is replayed all the same. The retry itself writes no row, unless it is the second
   script of an acquire in shadow mode, which overwrites the answer (`ShadowMode`).
   */
  lemma ReplayHasRowIff(states: seq<State>, events: seq<Event>, n: nat, k: IdemKey, i: nat, retry: Activation,
                        specs: seq<Spec>, key: Option<string>)
    requires IsRun(states, events) && n < |states| && TakenAt(states, events, n, k, i) && Minted(events, i, n)
    requires AcquireKey(retry, specs, key) == Some(k)
    ensures Duplicate(states[n], retry, specs, key)
    ensures events[i].row.id in states[n].rows <==> Recorded(events, i, n)
  {
    HeldKeyIff(states, events, n, k);
    WayOf(states, events, i, n);
    hide IsRun, AcquireKey, Spends;
  }
}
