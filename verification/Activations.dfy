/**
 The activation ledger: one row per thing acquired, OPEN until released or settled. The
 counters are a cache of the sum of the OPEN rows' charges.
 */
module Activations {
  import opened Prelude
  import opened Gauges
  import opened Sums

  type Id = string

  datatype RowState = Open | Released | Settled

  /** `bundle` is the bundle or resource the acquire named; `openedAt` a clock reading. */
  datatype Activation = Activation(
    id: Id,
    charge: Charge,
    bundle: string,
    openedAt: nat,
    state: RowState,
    cost: Option<string>)

  type Rows = map<Id, Activation>

  /** `ActivationStore.list_open` returns at most this many rows unless asked otherwise. */
  const LIST_LIMIT: nat := 100

  // ---- The three writes, as functions of the rows --------------------------------------

  function PutOpen(rows: Rows, a: Activation): Rows
  {
    if a.id in rows then rows else rows[a.id := a]
  }

  predicate CanRelease(rows: Rows, id: Id) { id in rows && rows[id].state == Open }

  function MarkReleased(rows: Rows, id: Id): Rows
  {
    if CanRelease(rows, id) then rows[id := rows[id].(state := Released)] else rows
  }

  predicate CanSettle(rows: Rows, id: Id) { id in rows && rows[id].state != Settled }

  function MarkSettled(rows: Rows, id: Id, cost: string): Rows
  {
    if CanSettle(rows, id) then rows[id := rows[id].(state := Settled, cost := Some(cost))] else rows
  }

  // ---- The law every run of those writes keeps ------------------------------------------

  /** A row never disappears, never changes what it was opened with, and only moves forward. */
  predicate Advances(a: Activation, b: Activation)
  {
    && b.(state := a.state, cost := a.cost) == a
    && (a.state == Released ==> b.state != Open)
    && (a.state == Settled ==> b == a)
    && (b.state != Settled ==> b.cost == a.cost)
  }

  predicate RowsAdvance(before: Rows, after: Rows)
  {
    forall id <- before :: id in after && Advances(before[id], after[id])
  }

  lemma AdvanceTransitive(a: Rows, b: Rows, c: Rows)
    requires RowsAdvance(a, b) && RowsAdvance(b, c)
    ensures RowsAdvance(a, c)
  {
    forall id <- a ensures id in c && Advances(a[id], c[id]) {
      assert id in b && Advances(a[id], b[id]) && Advances(b[id], c[id]);
    }
  }

  lemma AdvanceReflexive(rows: Rows)
    ensures RowsAdvance(rows, rows)
  {
  }

  /** Each of the three writes only moves rows forward. */
  lemma WritesAdvance(rows: Rows, a: Activation, id: Id, cost: string)
    ensures RowsAdvance(rows, PutOpen(rows, a))
    ensures RowsAdvance(rows, MarkReleased(rows, id))
    ensures RowsAdvance(rows, MarkSettled(rows, id, cost))
  {
  }

  // ---- Sums over the OPEN rows -----------------------------------------------------------

  function OpenWeight(a: Activation, s: Slot): real
  {
    if a.state == Open then Weight(a.charge, s) else 0.0
  }

  /** What the ledger says a slot's level is. */
  ghost function OpenSum(rows: Rows, s: Slot): real { Sum(OpenWeights(rows, s)) }

  function OpenWeights(rows: Rows, s: Slot): map<Id, real>
  {
    map id | id in rows :: OpenWeight(rows[id], s)
  }

  lemma OpenSumUpdate(rows: Rows, id: Id, a: Activation, s: Slot)
    ensures OpenSum(rows[id := a], s)
         == OpenSum(rows, s) - (if id in rows then OpenWeight(rows[id], s) else 0.0) + OpenWeight(a, s)
  {
    SumUpdate(OpenWeights(rows, s), id, OpenWeight(a, s));
    assert OpenWeights(rows[id := a], s) == OpenWeights(rows, s)[id := OpenWeight(a, s)];
  }

  ghost predicate ChargesNonNegative(rows: Rows)
  {
    forall id <- rows :: NonNegative(rows[id].charge)
  }

  lemma OpenSumNonNegative(rows: Rows, s: Slot)
    requires ChargesNonNegative(rows)
    ensures OpenSum(rows, s) >= 0.0
  {
    SumNonNegative(OpenWeights(rows, s));
  }

  /** Σ over a list of activations, as `converge_gauge` adds them up. */
  function ListedSum(opens: seq<Activation>, s: Slot): real
  {
    if opens == [] then 0.0 else Weight(opens[0].charge, s) + ListedSum(opens[1..], s)
  }

  lemma {:induction false} NoActivationNoSum(opens: seq<Activation>, s: Slot)
    requires forall a <- opens :: Weight(a.charge, s) == 0.0
    ensures ListedSum(opens, s) == 0.0
  {
    if opens != [] {
      assert opens[0] in opens;
      NoActivationNoSum(opens[1..], s);
    }
  }

  lemma {:induction false} ListedSnoc(opens: seq<Activation>, a: Activation, s: Slot)
    ensures ListedSum(opens + [a], s) == ListedSum(opens, s) + Weight(a.charge, s)
  {
    if opens == [] {
      assert opens + [a] == [a];
    } else {
      assert (opens + [a])[1..] == opens[1..] + [a];
      ListedSnoc(opens[1..], a, s);
    }
  }

  // ---- list_open -----------------------------------------------------------------------

  function OpenIds(rows: Rows, org: Org): set<Id>
  {
    set id | id in rows && rows[id].state == Open && rows[id].charge.org == org
  }

  predicate Faithful(rows: Rows) { forall id <- rows :: rows[id].id == id }

  predicate DistinctIds(opens: seq<Activation>)
  {
    forall i, j | 0 <= i < j < |opens| :: opens[i].id != opens[j].id
  }

  predicate Oldest(opens: seq<Activation>)
  {
    forall i, j | 0 <= i < j < |opens| :: opens[i].openedAt <= opens[j].openedAt
  }

  /** The oldest `limit` OPEN rows of the org, in order of opening. */
  predicate ListsOpen(rows: Rows, org: Org, limit: nat, opens: seq<Activation>)
  {
    && DistinctIds(opens)
    && Oldest(opens)
    && (forall a <- opens :: a.id in OpenIds(rows, org) && rows[a.id] == a)
    && |opens| == Min(limit, |OpenIds(rows, org)|)
    && (forall id <- OpenIds(rows, org), a <- opens | rows[id] !in opens :: a.openedAt <= rows[id].openedAt)
  }

  ghost function IdsOf(opens: seq<Activation>): (ids: set<Id>)
    ensures forall id :: id in ids <==> exists i | 0 <= i < |opens| :: opens[i].id == id
  {
    set a <- opens :: a.id
  }

  lemma {:induction false} CountIds(opens: seq<Activation>)
    requires DistinctIds(opens)
    ensures |IdsOf(opens)| == |opens|
  {
    if opens != [] {
      CountIds(opens[1..]);
      IdsOfTail(opens);
      assert opens[0].id !in IdsOf(opens[1..]);
    }
  }

  lemma SubsetOfEqualSize<T>(a: set<T>, b: set<T>)
    requires a <= b && |a| == |b|
    ensures a == b
  {
    assert |b - a| == |b| - |a|;
    assert b == a + (b - a);
  }

  /** Up to the limit the listing misses no OPEN row, so it adds up to the ledger's sum. */
  lemma ListingIsComplete(rows: Rows, org: Org, limit: nat, opens: seq<Activation>, s: Slot)
    requires Faithful(rows) && ListsOpen(rows, org, limit, opens)
    requires |OpenIds(rows, org)| <= limit
    requires s.org == org
    ensures ListedSum(opens, s) == OpenSum(rows, s)
  {
    var w := OpenWeights(rows, s);
    var ids := seq(|opens|, i requires 0 <= i < |opens| => opens[i].id);
    ListedWeights(rows, org, limit, opens, s, ids);
    SumOfListing(w, ids);
    ListedAsSeq(opens, s, seq(|ids|, i requires 0 <= i < |ids| => w[ids[i]]));
  }

  lemma ListedWeights(rows: Rows, org: Org, limit: nat, opens: seq<Activation>, s: Slot, ids: seq<Id>)
    requires Faithful(rows) && ListsOpen(rows, org, limit, opens)
    requires |OpenIds(rows, org)| <= limit
    requires s.org == org
    requires |ids| == |opens| && forall i | 0 <= i < |opens| :: ids[i] == opens[i].id
    ensures forall i | 0 <= i < |ids| :: ids[i] in rows && OpenWeights(rows, s)[ids[i]] == Weight(opens[i].charge, s)
    ensures forall id <- OpenWeights(rows, s) | id !in ids :: OpenWeights(rows, s)[id] == 0.0
  {
    CoversOpenIds(rows, org, limit, opens);
    forall i | 0 <= i < |ids| ensures ids[i] in rows && OpenWeights(rows, s)[ids[i]] == Weight(opens[i].charge, s) {
      assert opens[i] in opens;
    }
    forall id <- OpenIds(rows, org) ensures id in ids {
      var i :| 0 <= i < |opens| && opens[i].id == id;
      assert ids[i] == id;
    }
    assert forall id <- OpenWeights(rows, s) | OpenWeights(rows, s)[id] != 0.0 :: id in OpenIds(rows, org);
  }

  lemma CoversOpenIds(rows: Rows, org: Org, limit: nat, opens: seq<Activation>)
    requires ListsOpen(rows, org, limit, opens)
    requires |OpenIds(rows, org)| <= limit
    ensures forall id <- OpenIds(rows, org) :: exists i | 0 <= i < |opens| :: opens[i].id == id
  {
    CountIds(opens);
    assert IdsOf(opens) <= OpenIds(rows, org);
    SubsetOfEqualSize(IdsOf(opens), OpenIds(rows, org));
  }

  lemma {:induction false} ListedAsSeq(opens: seq<Activation>, s: Slot, ws: seq<real>)
    requires |ws| == |opens|
    requires forall i | 0 <= i < |opens| :: ws[i] == Weight(opens[i].charge, s)
    ensures ListedSum(opens, s) == SumSeq(ws)
  {
    if opens != [] {
      ListedAsSeq(opens[1..], s, ws[1..]);
    }
  }

  /** A listing is short of the ledger's sum by exactly the spend of the rows it leaves out. */
  lemma {:induction false} ListingMissesExactly(rows: Rows, opens: seq<Activation>, s: Slot)
    requires DistinctIds(opens)
    requires forall a <- opens :: a.id in rows && rows[a.id] == a && a.state == Open
    ensures OpenSum(rows, s) == ListedSum(opens, s) + OpenSum(rows - IdsOf(opens), s)
    decreases |opens|
  {
    if opens == [] {
      assert rows - IdsOf(opens) == rows;
    } else {
      var a, rest := opens[0], rows - {opens[0].id};
      assert a in opens;
      SumRemove(OpenWeights(rows, s), a.id);
      assert OpenWeights(rows, s) - {a.id} == OpenWeights(rest, s);
      forall b <- opens[1..] ensures b.id in rest && rest[b.id] == b && b.state == Open {
        var i :| 0 <= i < |opens[1..]| && opens[1..][i] == b;
        assert opens[0].id != opens[i + 1].id;
      }
      ListingMissesExactly(rest, opens[1..], s);
      IdsOfTail(opens);
      assert rest - IdsOf(opens[1..]) == rows - IdsOf(opens);
    }
  }

  lemma IdsOfTail(opens: seq<Activation>)
    requires opens != []
    ensures IdsOf(opens) == {opens[0].id} + IdsOf(opens[1..])
  {
    forall id | id in IdsOf(opens) ensures id in {opens[0].id} + IdsOf(opens[1..]) {
      var i :| 0 <= i < |opens| && opens[i].id == id;
      assert i > 0 ==> opens[1..][i - 1].id == id;
    }
    forall id | id in IdsOf(opens[1..]) ensures id in IdsOf(opens) {
      var i :| 0 <= i < |opens[1..]| && opens[1..][i].id == id;
      assert opens[i + 1].id == id;
    }
  }

  // ---- The process-local store -----------------------------------------------------------

  /** The default store. Its rows are values here: the source returns the row object itself. */
  class InMemoryActivationStore {
    var rows: Rows

    constructor ()
      ensures rows == map[]
    {
      rows := map[];
    }

    ghost predicate Valid() reads this { Faithful(rows) }

    method Put(a: Activation)
      requires Valid()
      modifies this
      ensures Valid() && rows == PutOpen(old(rows), a)
      ensures RowsAdvance(old(rows), rows)
    {
      if a.id !in rows {
        rows := rows[a.id := a];
      }
    }

    method Release(id: Id) returns (row: Option<Activation>)
      requires Valid()
      modifies this
      ensures Valid() && rows == MarkReleased(old(rows), id)
      ensures row == if CanRelease(old(rows), id) then Some(rows[id]) else None
      ensures RowsAdvance(old(rows), rows)
    {
      if id !in rows || rows[id].state != Open {
        return None;
      }
      rows := rows[id := rows[id].(state := Released)];
      row := Some(rows[id]);
    }

    method Settle(id: Id, cost: string) returns (row: Option<Activation>)
      requires Valid()
      modifies this
      ensures Valid() && rows == MarkSettled(old(rows), id, cost)
      ensures row == if CanSettle(old(rows), id) then Some(rows[id]) else None
      ensures RowsAdvance(old(rows), rows)
    {
      if id !in rows || rows[id].state == Settled {
        return None;
      }
      rows := rows[id := rows[id].(state := Settled, cost := Some(cost))];
      row := Some(rows[id]);
    }

    /** Filter, sort by opening time, cut. */
    method ListOpen(org: Org, limit: nat) returns (opens: seq<Activation>)
      requires Valid()
      ensures ListsOpen(rows, org, limit, opens)
      ensures forall i, j | 0 <= i < j < |opens| :: opens[i].openedAt <= opens[j].openedAt && opens[i].id != opens[j].id
      ensures forall id <- rows, a <- opens |
                rows[id].state == Open && rows[id].charge.org == org && rows[id] !in opens :: a.openedAt <= rows[id].openedAt
    {
      var all: seq<Activation> := [];
      var todo := rows.Keys;
      while todo != {}
        invariant todo <= rows.Keys
        invariant DistinctIds(all) && Oldest(all)
        invariant forall a <- all :: a.id in OpenIds(rows, org) - todo && rows[a.id] == a
        invariant forall id <- OpenIds(rows, org) - todo :: rows[id] in all
        decreases |todo|
      {
        var id :| id in todo;
        todo := todo - {id};
        if rows[id].state == Open && rows[id].charge.org == org {
          all := Insert(all, rows[id]);
        }
      }
      CutOfOpen(rows, org, limit, all);
      opens := all[..Min(limit, |all|)];
    }
  }

  lemma CutOfOpen(rows: Rows, org: Org, limit: nat, all: seq<Activation>)
    requires DistinctIds(all) && Oldest(all) && Faithful(rows)
    requires forall a <- all :: a.id in OpenIds(rows, org) && rows[a.id] == a
    requires forall id <- OpenIds(rows, org) :: rows[id] in all
    ensures ListsOpen(rows, org, limit, all[..Min(limit, |all|)])
  {
    CountIds(all);
    assert IdsOf(all) == OpenIds(rows, org) by {
      forall id <- OpenIds(rows, org) ensures id in IdsOf(all) {
        var i :| 0 <= i < |all| && all[i] == rows[id];
      }
    }
    forall id, a | id in OpenIds(rows, org) && a in all[..Min(limit, |all|)] && rows[id] !in all[..Min(limit, |all|)]
      ensures a.openedAt <= rows[id].openedAt
    {
      CutKeepsOldest(all, Min(limit, |all|), a, rows[id]);
    }
  }

  /** What a sorted list keeps when it is cut is no younger than what it loses. */
  lemma CutKeepsOldest(all: seq<Activation>, k: nat, kept: Activation, lost: Activation)
    requires Oldest(all) && k <= |all|
    requires kept in all[..k] && lost in all && lost !in all[..k]
    ensures kept.openedAt <= lost.openedAt
  {
    var i :| 0 <= i < |all| && all[i] == lost;
    var j :| 0 <= j < k && all[..k][j] == kept;
    assert forall m | 0 <= m < k :: all[m] == all[..k][m] && all[m] in all[..k];
    assert j <= i;
  }

  /** A row in front of a listing it is older than. */
  lemma InFront(a: Activation, opens: seq<Activation>)
    requires Oldest(opens) && DistinctIds(opens)
    requires forall b <- opens :: a.openedAt <= b.openedAt && a.id != b.id
    ensures Oldest([a] + opens) && DistinctIds([a] + opens)
  {
    forall j | 1 <= j < |[a] + opens| ensures ([a] + opens)[j] in opens && ([a] + opens)[j] == opens[j - 1] {
    }
  }

  /** Where a stable sort puts a row: behind every row opened at the same time or earlier. */
  function Insert(opens: seq<Activation>, a: Activation): (r: seq<Activation>)
    requires Oldest(opens) && DistinctIds(opens)
    requires forall b <- opens :: b.id != a.id
    ensures Oldest(r) && DistinctIds(r)
    ensures forall b :: b in r <==> b in opens || b == a
  {
    if opens == [] then [a]
    else
      var first, rest := opens[0], opens[1..];
      assert forall b <- rest :: b in opens && first.openedAt <= b.openedAt && first.id != b.id;
      assert forall b :: b in opens <==> b == first || b in rest;
      if a.openedAt < first.openedAt then
        InFront(a, opens);
        [a] + opens
      else
        var behind := Insert(rest, a);
        InFront(first, behind);
        [first] + behind
  }
}
