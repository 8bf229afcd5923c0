/**
 The handler ledger: one row per (handler, event). A delivery must claim the row before it may run
 the handler; the claim is a lease. The lock-based in-memory store is the specification of a claim.
 */
module HandlerLedger {
  import opened Prelude

  datatype Status = InProgress | Success | Skipped | Failed | FailedPermanent

  predicate Terminal(s: Status) { s.Success? || s.Skipped? || s.FailedPermanent? }

  /** `lease` is the expiry of a claim; an outcome clears it. Every written row carries its own stamps. */
  datatype Row = Row(status: Status, attempts: nat, lease: Option<nat>, attemptedAt: nat, completedAt: Option<nat>,
                     sideEffect: Option<string>)

  datatype Key = Key(handler: string, event: string)

  predicate Live(row: Row, now: nat) { row.status.InProgress? && row.lease.Some? && row.lease.value > now }

  /** `_decide_existing`: may the row be claimed (again)? */
  predicate Claimable(row: Option<Row>, now: nat)
  {
    row.Some? ==> !Terminal(row.value.status) && !Live(row.value, now)
  }

  function Attempts(row: Option<Row>): nat { if row.Some? then row.value.attempts + 1 else 1 }

  /** The row a claim writes; `stamp` is its `attempted_at`. */
  function Claim(row: Option<Row>, now: nat, leaseSeconds: nat, stamp: nat): Row
  {
    Row(InProgress, Attempts(row), Some(now + leaseSeconds), stamp, None, None)
  }

  datatype Outcome = Outcome(status: Status, sideEffect: Option<string>, attempts: Option<nat>)

  function Completed(row: Row, o: Outcome, now: nat): Row
  {
    Row(o.status, if o.attempts.Some? then o.attempts.value else row.attempts, None, row.attemptedAt, Some(now), o.sideEffect)
  }

  function RowAt(rows: map<Key, Row>, key: Key): Option<Row>
  {
    if key in rows then Some(rows[key]) else None
  }

  /** Process-local store: a lock around every call, so each call is one step. */
  class InMemoryLedgerStore {
    var rows: map<Key, Row>
    ghost var outcomes: seq<(Key, Outcome)>

    constructor ()
      ensures rows == map[] && outcomes == []
    {
      rows, outcomes := map[], [];
    }

    method RecordAttempt(key: Key, now: nat, leaseSeconds: nat) returns (proceed: bool, cached: Option<Row>)
      modifies this`rows
      ensures proceed == Claimable(RowAt(old(rows), key), now)
      ensures rows == if proceed then old(rows)[key := Claim(RowAt(old(rows), key), now, leaseSeconds, now)] else old(rows)
      ensures cached == if proceed then None else RowAt(old(rows), key)
    {
      var attempts := 1;
      if key in rows {
        var row := rows[key];
        if row.status.Success? || row.status.Skipped? || row.status.FailedPermanent? {
          return false, Some(row);
        }
        if row.status.InProgress? && row.lease.Some? && row.lease.value > now {
          return false, Some(row);
        }
        attempts := row.attempts + 1;
      }
      rows := rows[key := Row(InProgress, attempts, Some(now + leaseSeconds), now, None, None)];
      return true, None;
    }

    /** Without a row there is nothing to complete: the outcome is dropped. */
    method RecordOutcome(key: Key, o: Outcome, now: nat)
      modifies this
      ensures rows == if key in old(rows) then old(rows)[key := Completed(old(rows)[key], o, now)] else old(rows)
      ensures outcomes == old(outcomes) + [(key, o)]
    {
      outcomes := outcomes + [(key, o)];
      if key in rows {
        var row := rows[key];
        row := row.(status := o.status, sideEffect := o.sideEffect);
        if o.attempts.Some? {
          row := row.(attempts := o.attempts.value);
        }
        rows := rows[key := row.(completedAt := Some(now), lease := None)];
      }
    }
  }
}
