/**
 Dispatch of an auth event to an idempotent handler: claim, run with retries, record one outcome.
 Also the drain that recovers deliveries whose worker died. Here each call runs alone on the
 lock-based store; ClaimProtocol has the interleavings.
 */
module AuthEvents {
  import opened Prelude
  import opened HandlerLedger

  /** One run of the business handler; returning nothing is a success without a side effect. */
  datatype Run = Raises | Skips | Succeeds(sideEffect: Option<string>)

  /** A handler declared with `retry=False` has one attempt. */
  datatype Retry = Retry(attempts: nat, initial: real, maxDelay: real)

  /** `record_attempt`'s lease when the caller names none, as the drain does. */
  const DEFAULT_LEASE: nat := 60

  function Pow2(n: nat): real { if n == 0 then 1.0 else 2.0 * Pow2(n - 1) }

  /** The sleep after failed run n, counted from one. */
  function Delay(retry: Retry, n: nat): real
    requires n >= 1
  {
    var d := retry.initial * Pow2(n - 1);
    if d <= retry.maxDelay then d else retry.maxDelay
  }

  function TotalDelay(retry: Retry, n: nat): real
  {
    if n == 0 then 0.0 else TotalDelay(retry, n - 1) + Delay(retry, n)
  }

  /** The sleeps start at the initial delay and double, up to the longest. */
  lemma BackoffDoubles(retry: Retry, n: nat)
    requires n >= 1 && retry.initial >= 0.0 && retry.maxDelay >= 0.0
    ensures Delay(retry, 1) == if retry.initial <= retry.maxDelay then retry.initial else retry.maxDelay
    ensures Delay(retry, n + 1) == if 2.0 * Delay(retry, n) <= retry.maxDelay then 2.0 * Delay(retry, n) else retry.maxDelay
  {
    Doubled(retry.initial, n);
    hide Pow2;
    assert retry.initial * Pow2(n) == 2.0 * (retry.initial * Pow2(n - 1));
  }

  lemma Doubled(initial: real, n: nat)
    requires n >= 1 && initial >= 0.0
    ensures Pow2(0) == 1.0 && Pow2(n) == 2.0 * Pow2(n - 1) && initial * Pow2(n - 1) >= 0.0
  {
    PositivePower(n - 1);
  }

  lemma {:induction false} PositivePower(n: nat)
    ensures Pow2(n) > 0.0
  {
    if n > 0 {
      PositivePower(n - 1);
    }
  }

  lemma {:induction false} BackoffBound(retry: Retry, n: nat)
    ensures TotalDelay(retry, n) <= n as real * retry.maxDelay
  {
    if n > 0 {
      BackoffBound(retry, n - 1);
      assert n as real * retry.maxDelay == (n - 1) as real * retry.maxDelay + retry.maxDelay;
    }
  }

  /** The first run, from n on, that does not raise. */
  function FirstReturn(behaves: nat -> Run, n: nat, attempts: nat): (r: Option<nat>)
    ensures r.Some? ==>
      && n <= r.value <= attempts && !behaves(r.value).Raises?
      && forall k | n <= k < r.value :: behaves(k).Raises?
    ensures r.None? ==> forall k | n <= k <= attempts :: behaves(k).Raises?
    decreases attempts + 1 - n
  {
    if n > attempts then None
    else if !behaves(n).Raises? then Some(n)
    else FirstReturn(behaves, n + 1, attempts)
  }

  function Runs(behaves: nat -> Run, attempts: nat): nat
  {
    var first := FirstReturn(behaves, 1, attempts);
    if first.Some? then first.value else attempts
  }

  /** What is recorded for run n when it returns. */
  function Returned(run: Run, n: nat): Outcome
    requires !run.Raises?
  {
    if run.Skips? then Outcome(Skipped, None, Some(n)) else Outcome(Success, run.sideEffect, Some(n))
  }

  /** The one outcome a granted delivery records. */
  function Verdict(behaves: nat -> Run, attempts: nat): Outcome
  {
    var first := FirstReturn(behaves, 1, attempts);
    if first.None? then Outcome(FailedPermanent, None, Some(attempts)) else Returned(behaves(first.value), first.value)
  }

  /** The n-th run is the first that returns. */
  predicate ReturnsAt(behaves: nat -> Run, n: nat, attempts: nat)
  {
    1 <= n <= attempts && !behaves(n).Raises? && forall k | 1 <= k < n :: behaves(k).Raises?
  }

  /**
   It is always terminal and carries the number of runs. The first run that returns decides it: a success
   with the side effect that run names, or skipped if it skips; and it is a failure for good exactly when
   every run raised.
   */
  lemma VerdictLaw(behaves: nat -> Run, attempts: nat)
    ensures var v := Verdict(behaves, attempts);
            && Terminal(v.status) && v.attempts == Some(Runs(behaves, attempts))
            && (forall n | ReturnsAt(behaves, n, attempts) ::
                  && Runs(behaves, attempts) == n
                  && (behaves(n).Succeeds? ==> v == Outcome(Success, behaves(n).sideEffect, Some(n)))
                  && (behaves(n).Skips? ==> v == Outcome(Skipped, None, Some(n))))
            && ((forall k | 1 <= k <= attempts :: behaves(k).Raises?) ==> v == Outcome(FailedPermanent, None, Some(attempts)))
            && (v.status.FailedPermanent? <==> forall k | 1 <= k <= attempts :: behaves(k).Raises?)
            && (!v.status.FailedPermanent? ==> ReturnsAt(behaves, Runs(behaves, attempts), attempts))
  {
    var first := FirstReturn(behaves, 1, attempts);
    forall n | ReturnsAt(behaves, n, attempts) ensures first == Some(n) {
      assert first.Some? && !(first.value < n) && !(n < first.value);
    }
  }

  /** Where the loop of runs ends. */
  lemma Decided(behaves: nat -> Run, attempts: nat, runs: nat)
    requires runs <= attempts && forall k | 1 <= k < runs :: behaves(k).Raises?
    ensures 1 <= runs && !behaves(runs).Raises? ==>
              runs == Runs(behaves, attempts) && Verdict(behaves, attempts) == Returned(behaves(runs), runs)
    ensures runs == attempts && (runs > 0 ==> behaves(runs).Raises?) ==>
              runs == Runs(behaves, attempts) && Verdict(behaves, attempts) == Outcome(FailedPermanent, None, Some(attempts))
  {
    var first := FirstReturn(behaves, 1, attempts);
    if 1 <= runs && !behaves(runs).Raises? {
      assert first.Some? && !(first.value < runs) && !(runs < first.value);
    }
  }

  /** `_run_with_retry`: at most `attempts` runs, a sleep between two, and one outcome. */
  method RunWithRetry(store: InMemoryLedgerStore, key: Key, retry: Retry, behaves: nat -> Run, now: nat)
    returns (runs: nat, slept: real)
    modifies store
    ensures runs == Runs(behaves, retry.attempts) <= retry.attempts
    ensures store.outcomes == old(store.outcomes) + [(key, Verdict(behaves, retry.attempts))]
    ensures forall n | ReturnsAt(behaves, n, retry.attempts) ::
              var recorded := store.outcomes[|old(store.outcomes)|].1;
              && runs == n && (behaves(n).Succeeds? ==> recorded == Outcome(Success, behaves(n).sideEffect, Some(n)))
              && (behaves(n).Skips? ==> recorded == Outcome(Skipped, None, Some(n)))
    ensures store.rows == if key in old(store.rows)
                          then old(store.rows)[key := Completed(old(store.rows)[key], Verdict(behaves, retry.attempts), now)]
                          else old(store.rows)
    ensures slept == TotalDelay(retry, if runs == 0 then 0 else runs - 1)
    ensures slept <= (if runs == 0 then 0.0 else (runs - 1) as real * retry.maxDelay)
  {
    VerdictLaw(behaves, retry.attempts);
    hide Verdict, FirstReturn, ReturnsAt, Delay, Terminal;
    runs, slept := 0, 0.0;
    var outcome := Outcome(FailedPermanent, None, Some(retry.attempts));
    var raised := true;
    while runs < retry.attempts && raised
      invariant runs <= retry.attempts && (raised || runs > 0)
      invariant forall k | 1 <= k <= (if raised then runs else runs - 1) :: behaves(k).Raises?
      invariant !raised ==> !behaves(runs).Raises? && outcome == Returned(behaves(runs), runs)
      invariant raised ==> outcome == Outcome(FailedPermanent, None, Some(retry.attempts))
      invariant slept == TotalDelay(retry, if runs > 0 && (!raised || runs == retry.attempts) then runs - 1 else runs)
    {
      runs := runs + 1;
      raised := behaves(runs).Raises?;
      if !raised {
        outcome := Returned(behaves(runs), runs);
      } else if runs < retry.attempts {
        slept := slept + Delay(retry, runs);
      }
    }
    BackoffBound(retry, if runs == 0 then 0 else runs - 1);
    Decided(behaves, retry.attempts, runs);
    store.RecordOutcome(key, outcome, now);
  }

  /** One delivery on the store; `dies` is a worker lost after its claim. */
  datatype Delivery = Delivery(now: nat, lease: nat, retry: Retry, behaves: nat -> Run, dies: bool)

  predicate Ran(row: Option<Row>, d: Delivery) { Claimable(row, d.now) }

  function Delivered(row: Option<Row>, d: Delivery): Option<Row>
  {
    if !Ran(row, d) then row
    else
      var claim := Claim(row, d.now, d.lease, d.now);
      Some(if d.dies then claim else Completed(claim, Verdict(d.behaves, d.retry.attempts), d.now))
  }

  /** `_dispatch_handler` for an idempotent handler. */
  method Dispatch(store: InMemoryLedgerStore, key: Key, d: Delivery) returns (runs: nat)
    modifies store
    ensures RowAt(store.rows, key) == Delivered(RowAt(old(store.rows), key), d)
    ensures forall k | k != key :: RowAt(store.rows, k) == RowAt(old(store.rows), k)
    ensures store.outcomes == old(store.outcomes) +
              if Ran(RowAt(old(store.rows), key), d) && !d.dies then [(key, Verdict(d.behaves, d.retry.attempts))] else []
    ensures runs == if Ran(RowAt(old(store.rows), key), d) && !d.dies then Runs(d.behaves, d.retry.attempts) else 0
  {
    var proceed, _ := store.RecordAttempt(key, d.now, d.lease);
    if !proceed || d.dies {
      return 0;
    }
    var slept;
    runs, slept := RunWithRetry(store, key, d.retry, d.behaves, d.now);
  }

  // ---- Redeliveries ----------------------------------------------------------------------------------

  function AfterAll(row: Option<Row>, ds: seq<Delivery>): Option<Row>
    decreases |ds|
  {
    if ds == [] then row else AfterAll(Delivered(row, ds[0]), ds[1..])
  }

  /** Deliveries that ran the handler to an outcome. */
  function Completions(row: Option<Row>, ds: seq<Delivery>): nat
    decreases |ds|
  {
    if ds == [] then 0
    else (if Ran(row, ds[0]) && !ds[0].dies then 1 else 0) + Completions(Delivered(row, ds[0]), ds[1..])
  }

  predicate Closed(row: Option<Row>) { row.Some? && Terminal(row.value.status) }

  /**
   Deliveries that each end before the next begins: however often an event is redelivered and however
   many workers die on the way, at most one delivery runs the handler to an outcome; and it is exactly
   one when the row ends up terminal. ClaimProtocol has deliveries that overlap.
   */
  lemma {:induction false} AtMostOneCompletion(row: Option<Row>, ds: seq<Delivery>)
    ensures Completions(row, ds) <= if Closed(row) then 0 else 1
    ensures Closed(row) ==> AfterAll(row, ds) == row
    ensures !Closed(row) ==> (Closed(AfterAll(row, ds)) <==> Completions(row, ds) == 1)
    decreases |ds|
  {
    if ds != [] {
      VerdictLaw(ds[0].behaves, ds[0].retry.attempts);
      AtMostOneCompletion(Delivered(row, ds[0]), ds[1..]);
    }
  }

  /** A delivery that outlives its worker's lease is picked up again: nothing is stranded for good. */
  lemma StrandedIsRecovered(row: Option<Row>, dead: Delivery, next: Delivery)
    requires Ran(row, dead) && dead.dies && !next.dies && next.now >= dead.now + dead.lease
    ensures Ran(Delivered(row, dead), next) && Closed(Delivered(Delivered(row, dead), next))
    ensures Delivered(Delivered(row, dead), next).value.attempts == Runs(next.behaves, next.retry.attempts)
  {
    VerdictLaw(next.behaves, next.retry.attempts);
  }

  // ---- The drain ---------------------------------------------------------------------------------------

  predicate Expired(row: Option<Row>, now: nat)
  {
    row.Some? && row.value.status.InProgress? && row.value.lease.Some? && row.value.lease.value <= now
  }

  /** What one drain makes of a row: reclaimed, and run to an outcome if its handler is registered. */
  function Drained(row: Option<Row>, now: nat, registered: bool, retry: Retry, behaves: nat -> Run): Option<Row>
  {
    if !Expired(row, now) then row
    else
      var claim := Claim(row, now, DEFAULT_LEASE, now);
      Some(if registered then Completed(claim, Verdict(behaves, retry.attempts), now) else claim)
  }

  /**
   A row whose lease has run out: claimed anew, for a minute, with one more attempt; and with its handler
   registered it then ends as the verdict says. Without one it stays in progress, and the next drain after that
   minute claims it again.
   */
  lemma DrainedLaw(row: Row, now: nat, retry: Retry, behaves: nat -> Run)
    requires row.status.InProgress? && row.lease.Some? && row.lease.value <= now
    ensures var left := Drained(Some(row), now, false, retry, behaves);
            && left.Some? && left.value.status.InProgress? && left.value.lease == Some(now + 60)
            && left.value.attempts == row.attempts + 1 && !Expired(left, now + 59) && Expired(left, now + 60)
    ensures var done, v := Drained(Some(row), now, true, retry, behaves), Verdict(behaves, retry.attempts);
            && done.Some? && done.value.status == v.status && done.value.sideEffect == v.sideEffect
            && done.value.completedAt == Some(now) && done.value.lease == None && Closed(done)
  {
    VerdictLaw(behaves, retry.attempts);
  }

  function CountExpired(rows: map<Key, Row>, keys: seq<Key>, now: nat): nat
  {
    if keys == [] then 0
    else CountExpired(rows, keys[..|keys| - 1], now) + if Expired(RowAt(rows, keys[|keys| - 1]), now) then 1 else 0
  }

  /** Reclaim one listed row if its lease has run out, and hand it on. */
  method DrainOne(store: InMemoryLedgerStore, key: Key, now: nat, registered: bool, retry: Retry, behaves: nat -> Run)
    returns (did: bool)
    modifies store
    ensures did == Expired(RowAt(old(store.rows), key), now)
    ensures RowAt(store.rows, key) == Drained(RowAt(old(store.rows), key), now, registered, retry, behaves)
    ensures forall k | k != key :: RowAt(store.rows, k) == RowAt(old(store.rows), k)
  {
    if key !in store.rows {
      return false;
    }
    var row := store.rows[key];
    if !row.status.InProgress? || row.lease.None? || row.lease.value > now {
      return false;
    }
    var proceed, _ := store.RecordAttempt(key, now, DEFAULT_LEASE);
    if proceed && registered {
      var _, _ := RunWithRetry(store, key, retry, behaves, now);
    }
    did := proceed;
  }

  /**
   `_drain_stale` over the listed rows, each handed to `redispatch_stale_row`: every row whose lease
   has run out is reclaimed, every other row left alone.
   */
  method DrainStale(store: InMemoryLedgerStore, listed: seq<Key>, now: nat, registered: Key -> bool,
                    retry: Key -> Retry, behaves: Key -> (nat -> Run))
    returns (reprocessed: nat)
    requires forall i, j | 0 <= i < j < |listed| :: listed[i] != listed[j]
    modifies store
    ensures forall k :: RowAt(store.rows, k) ==
              if k in listed then Drained(RowAt(old(store.rows), k), now, registered(k), retry(k), behaves(k))
              else RowAt(old(store.rows), k)
    ensures reprocessed == CountExpired(old(store.rows), listed, now)
  {
    hide Drained, Expired, RowAt;
    reprocessed := 0;
    for i := 0 to |listed|
      invariant forall k :: RowAt(store.rows, k) ==
                  if k in listed[..i] then Drained(RowAt(old(store.rows), k), now, registered(k), retry(k), behaves(k))
                  else RowAt(old(store.rows), k)
      invariant reprocessed == CountExpired(old(store.rows), listed[..i], now)
    {
      assert listed[..i + 1] == listed[..i] + [listed[i]] && listed[i] !in listed[..i];
      assert listed[..i + 1][..i] == listed[..i];
      var did := DrainOne(store, listed[i], now, registered(listed[i]), retry(listed[i]), behaves(listed[i]));
      reprocessed := reprocessed + if did then 1 else 0;
    }
    assert listed[..|listed|] == listed;
  }
}
