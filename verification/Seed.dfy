/**
 Recovery of the gauges after Redis is lost: they are rebuilt from the activation ledger, never from
 the snapshot's numbers. The snapshot only says which further gauges to look at.
 */
module Seed {
  import opened Prelude
  import opened Sums
  import opened Gauges
  import opened Activations
  import opened Repair

  datatype Gauge = Gauge(org: Org, rk: Resource)

  /** A counter row of the snapshot table; a v2 row carries the service it belongs to. */
  datatype SnapshotRow = SnapshotRow(gauge: Gauge, service: Option<string>, value: real)

  /** `open_gauge_targets`: every gauge an OPEN row spends. */
  function OpenTargets(rows: Rows): set<Gauge>
  {
    set id, rk | id in rows && rows[id].state == Open && rk in rows[id].charge.spend :: Gauge(rows[id].charge.org, rk)
  }

  predicate InScope(row: SnapshotRow, service: Option<string>) { row.service.Some? ==> row.service == service }

  predicate InSnapshot(snapshot: seq<SnapshotRow>, service: Option<string>, g: Gauge)
  {
    exists row <- snapshot :: InScope(row, service) && row.gauge == g
  }

  /** The gauges one seeding rebuilds. */
  predicate Wanted(rows: Rows, gauges: set<Resource>, snapshot: seq<SnapshotRow>, service: Option<string>, g: Gauge)
  {
    g.rk in gauges && (g in OpenTargets(rows) || InSnapshot(snapshot, service, g))
  }

  /**
   A gauge is rebuilt if and only if the engine has it, and an OPEN row spends it or a snapshot row names it that
   is unscoped or of the engine's own service. So none with anything OPEN on it is missed, snapshot or not, and
   another service's row rebuilds nothing.
   */
  lemma RebuiltIff(rows: Rows, gauges: set<Resource>, snapshot: seq<SnapshotRow>, service: Option<string>, org: Org, rk: Resource)
    ensures Wanted(rows, gauges, snapshot, service, Gauge(org, rk)) <==>
              rk in gauges
              && ((exists id <- rows :: rows[id].state.Open? && rows[id].charge.org == org && rk in rows[id].charge.spend)
                  || (exists i | 0 <= i < |snapshot| :: snapshot[i].gauge == Gauge(org, rk)
                        && (snapshot[i].service.None? || snapshot[i].service == service)))
    ensures rk in gauges && (exists s: Slot :: s.org == org && s.rk == rk && OpenSum(rows, s) != 0.0) ==>
              Wanted(rows, gauges, snapshot, service, Gauge(org, rk))
  {
    var g := Gauge(org, rk);
    if i :| 0 <= i < |snapshot| && snapshot[i].gauge == g && (snapshot[i].service.None? || snapshot[i].service == service) {
      assert snapshot[i] in snapshot && InScope(snapshot[i], service);
    }
    if g !in OpenTargets(rows) {
      forall s: Slot | s.org == org && s.rk == rk ensures OpenSum(rows, s) == 0.0 {
        SumZero(OpenWeights(rows, s));
      }
    }
  }

  /** Every wanted gauge of an org whose listing is not cut reads Σ OPEN; every other one as before. */
  ghost predicate Seeded(rows: Rows, gauges: set<Resource>, snapshot: seq<SnapshotRow>, service: Option<string>,
                         m: Levels, m': Levels)
  {
    forall s: Slot ::
      if Wanted(rows, gauges, snapshot, service, Gauge(s.org, s.rk)) then AtLedger(rows, m', s) else Level(m', s) == Level(m, s)
  }

  ghost predicate AtLedger(rows: Rows, m: Levels, s: Slot)
  {
    |OpenIds(rows, s.org)| <= LIST_LIMIT ==> Level(m, s) == OpenSum(rows, s)
  }

  /**
   Two seedings of the same ledger agree on every gauge they rebuild, whatever the two Redis
   contents before and whatever numbers the two snapshots carry for the same rows.
   */
  lemma SeedIgnoresNumbers(rows: Rows, gauges: set<Resource>, one: seq<SnapshotRow>, two: seq<SnapshotRow>,
                           service: Option<string>,
                           m: Levels, m': Levels, n: Levels, n': Levels, s: Slot)
    requires |one| == |two| && forall i | 0 <= i < |one| :: one[i].(value := two[i].value) == two[i]
    requires Seeded(rows, gauges, one, service, m, m') && Seeded(rows, gauges, two, service, n, n')
    requires Wanted(rows, gauges, one, service, Gauge(s.org, s.rk)) && |OpenIds(rows, s.org)| <= LIST_LIMIT
    ensures Level(m', s) == Level(n', s) == OpenSum(rows, s)
  {
    var g := Gauge(s.org, s.rk);
    if g !in OpenTargets(rows) {
      var i :| 0 <= i < |one| && InScope(one[i], service) && one[i].gauge == g;
      assert two[i] in two && InScope(two[i], service) && two[i].gauge == g;
    }
    assert AtLedger(rows, m', s) && AtLedger(rows, n', s);
  }

  /** Seeding again changes no counter of an org whose listing is not cut. */
  lemma SeedTwice(rows: Rows, gauges: set<Resource>, snapshot: seq<SnapshotRow>, service: Option<string>,
                  m: Levels, m': Levels, m'': Levels, s: Slot)
    requires Seeded(rows, gauges, snapshot, service, m, m') && Seeded(rows, gauges, snapshot, service, m', m'')
    requires |OpenIds(rows, s.org)| <= LIST_LIMIT
    ensures Level(m'', s) == Level(m', s)
  {
    assert Wanted(rows, gauges, snapshot, service, Gauge(s.org, s.rk)) ==> AtLedger(rows, m', s) && AtLedger(rows, m'', s);
  }

  /** Gauges already rebuilt read the ledger; the rest have not been touched. */
  ghost predicate SeededSoFar(rows: Rows, seen: set<Gauge>, m: Levels, m': Levels)
  {
    forall s: Slot :: if Gauge(s.org, s.rk) in seen then AtLedger(rows, m', s) else Level(m', s) == Level(m, s)
  }

  /** Rebuild one gauge, unless it is no gauge or was rebuilt before. */
  method ConvergeOnce(cache: GaugeCache, store: InMemoryActivationStore, gauges: set<Resource>, seen: set<Gauge>,
                      g: Gauge, ghost m: Levels)
    returns (now: set<Gauge>, did: bool)
    requires store.Valid() && SeededSoFar(store.rows, seen, m, cache.levels)
    modifies cache
    ensures did == (g.rk in gauges && g !in seen)
    ensures now == (if did then seen + {g} else seen)
    ensures SeededSoFar(store.rows, now, m, cache.levels)
  {
    if g in seen || g.rk !in gauges {
      return seen, false;
    }
    var opens := store.ListOpen(g.org, LIST_LIMIT);
    ghost var before := cache.levels;
    var _ := cache.ConvergeGauge(opens, g.org, g.rk);
    hide Converged, ListsOpen, OpenSum;
    forall s: Slot ensures if Gauge(s.org, s.rk) in seen + {g} then AtLedger(store.rows, cache.levels, s)
                           else Level(cache.levels, s) == Level(m, s)
    {
      ConvergedReaches(before, opens, g.org, g.rk, s);
      if OfGauge(s, g.org, g.rk) && |OpenIds(store.rows, g.org)| <= LIST_LIMIT {
        ListingIsComplete(store.rows, g.org, LIST_LIMIT, opens, s);
      }
    }
    return seen + {g}, true;
  }

  /**
   `seed_redis` with an activation store: the ledger's own targets first, then the snapshot's rows,
   each gauge once. `targets` is the ledger's enumeration. Returns how many gauges were rebuilt.
   */
  method SeedRedis(cache: GaugeCache, store: InMemoryActivationStore, gauges: set<Resource>,
                   targets: seq<Gauge>, snapshot: seq<SnapshotRow>, service: Option<string>)
    returns (restored: nat)
    requires store.Valid() && forall g :: g in targets <==> g in OpenTargets(store.rows)
    modifies cache
    ensures Seeded(store.rows, gauges, snapshot, service, old(cache.levels), cache.levels)
    ensures exists seen: set<Gauge> :: |seen| == restored &&
              forall g :: g in seen <==> Wanted(store.rows, gauges, snapshot, service, g)
  {
    hide SeededSoFar, OpenTargets;
    ghost var m := cache.levels;
    var seen: set<Gauge> := {};
    restored := 0;
    NothingSeeded(store.rows, m);
    for i := 0 to |targets|
      invariant SeededSoFar(store.rows, seen, m, cache.levels) && restored == |seen|
      invariant forall g :: g in seen <==> g.rk in gauges && g in targets[..i]
    {
      var did;
      seen, did := ConvergeOnce(cache, store, gauges, seen, targets[i], m);
      restored := restored + if did then 1 else 0;
      assert targets[..i + 1] == targets[..i] + [targets[i]];
    }
    assert targets[..|targets|] == targets;
    for i := 0 to |snapshot|
      invariant SeededSoFar(store.rows, seen, m, cache.levels) && restored == |seen|
      invariant forall g :: g in seen <==> Wanted(store.rows, gauges, snapshot[..i], service, g)
    {
      WantedSnoc(store.rows, gauges, snapshot, service, i);
      if InScope(snapshot[i], service) {
        var did;
        seen, did := ConvergeOnce(cache, store, gauges, seen, snapshot[i].gauge, m);
        restored := restored + if did then 1 else 0;
      }
    }
    assert snapshot[..|snapshot|] == snapshot;
    SoFarIsAll(store.rows, gauges, snapshot, service, seen, m, cache.levels);
  }

  lemma NothingSeeded(rows: Rows, m: Levels)
    ensures SeededSoFar(rows, {}, m, m)
  {
  }

  lemma WantedSnoc(rows: Rows, gauges: set<Resource>, snapshot: seq<SnapshotRow>, service: Option<string>, i: nat)
    requires i < |snapshot|
    ensures forall g :: Wanted(rows, gauges, snapshot[..i + 1], service, g) <==>
              Wanted(rows, gauges, snapshot[..i], service, g)
              || (g.rk in gauges && InScope(snapshot[i], service) && snapshot[i].gauge == g)
  {
    assert snapshot[..i + 1] == snapshot[..i] + [snapshot[i]];
    forall g ensures InSnapshot(snapshot[..i + 1], service, g)
                <==> InSnapshot(snapshot[..i], service, g) || (InScope(snapshot[i], service) && snapshot[i].gauge == g)
    {
      assert snapshot[i] in snapshot[..i + 1];
      assert forall row <- snapshot[..i] :: row in snapshot[..i + 1];
    }
  }

  lemma SoFarIsAll(rows: Rows, gauges: set<Resource>, snapshot: seq<SnapshotRow>, service: Option<string>,
                   seen: set<Gauge>, m: Levels, m': Levels)
    requires SeededSoFar(rows, seen, m, m')
    requires forall g :: g in seen <==> Wanted(rows, gauges, snapshot, service, g)
    ensures Seeded(rows, gauges, snapshot, service, m, m')
  {
  }
}
