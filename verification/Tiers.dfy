/**
 Which tier an org is served while the tier service comes and goes: a short-lived cache, and a
 last-known-good record written by successful fetches only. Both live in Redis under string keys.
 Redis is there, and the record has no TTL.
 */
module Tiers {
  import opened Prelude

  type Org = string
  type Tier = string

  /** A cached tier is bare text; a last-known-good record is a JSON object. */
  datatype Cell = Text(tier: Tier) | Record(tier: Tier)

  /** What the caller gets: a tier, or the text of a record taken for one. */
  datatype Served = Served(tier: Tier) | RawRecord(tier: Tier)

  function CacheKey(org: Org): string { "quota:tier:" + org }

  function LkgKey(org: Org): string { "quota:tier:lkg:" + org }

  datatype State = State(redis: map<string, Cell>, streaks: map<Org, nat>)

  datatype Event =
    | Get(org: Org, fetch: Option<Tier>)   // what the tier service would answer; None is an error
    | Invalidate(org: Org)
    | Expire(org: Org)                     // the cache entry's TTL

  /** A cached empty string counts as no entry: the source tests it for truth. */
  predicate CacheHit(st: State, org: Org)
  {
    CacheKey(org) in st.redis && (st.redis[CacheKey(org)].Text? ==> st.redis[CacheKey(org)].tier != "")
  }

  function LastKnownGood(st: State, org: Org): Option<Tier>
  {
    if LkgKey(org) in st.redis && st.redis[LkgKey(org)].Record? && st.redis[LkgKey(org)].tier != ""
    then Some(st.redis[LkgKey(org)].tier) else None
  }

  function Streak(st: State, org: Org): nat { if org in st.streaks then st.streaks[org] else 0 }

  function Next(st: State, e: Event): State
  {
    match e
    case Get(org, fetch) =>
      if CacheHit(st, org) then st
      else if fetch.None? then st.(streaks := st.streaks[org := Streak(st, org) + 1])
      else State(st.redis[CacheKey(org) := Text(fetch.value)][LkgKey(org) := Record(fetch.value)], st.streaks - {org})
    case Invalidate(org) => st.(redis := st.redis - {CacheKey(org)})
    case Expire(org) => st.(redis := st.redis - {CacheKey(org)})
  }

  function Answer(st: State, org: Org, fetch: Option<Tier>, fallback: Tier): Served
  {
    if CacheHit(st, org) then
      match st.redis[CacheKey(org)]
      case Text(t) => Served(t)
      case Record(t) => RawRecord(t)
    else if fetch.Some? then Served(fetch.value)
    else if LastKnownGood(st, org).Some? then Served(LastKnownGood(st, org).value)
    else Served(fallback)
  }

  // ---- The law over a trace ------------------------------------------------------------------------

  /** The tiers the service has actually been asked for and given, org by org: the latest of each. */
  function Fetched(st: State, last: map<Org, Tier>, e: Event): map<Org, Tier>
  {
    if e.Get? && !CacheHit(st, e.org) && e.fetch.Some? then last[e.org := e.fetch.value] else last
  }

  ghost predicate IsRun(states: seq<State>, lasts: seq<map<Org, Tier>>, events: seq<Event>)
  {
    && |states| == |lasts| == |events| + 1
    && states[0] == State(map[], map[]) && lasts[0] == map[]
    && forall i | 0 <= i < |events| ::
         states[i + 1] == Next(states[i], events[i]) && lasts[i + 1] == Fetched(states[i], lasts[i], events[i])
  }

  /** The cache key of one org is the record key of another exactly if it carries the record's prefix. */
  lemma KeysCollideIff(a: Org, b: Org)
    ensures CacheKey(a) == LkgKey(b) <==> a == "lkg:" + b
    ensures CacheKey(a) == CacheKey(b) <==> a == b
    ensures LkgKey(a) == LkgKey(b) <==> a == b
  {
    assert CacheKey(a)[11..] == a && CacheKey(b)[11..] == b;
    assert LkgKey(b)[11..] == "lkg:" + b;
    assert LkgKey(a)[15..] == a && LkgKey(b)[15..] == b;
  }

  predicate Apart(orgs: set<Org>) { forall a <- orgs, b <- orgs :: a != "lkg:" + b }

  predicate Holds(st: State, last: map<Org, Tier>, org: Org)
  {
    && (CacheKey(org) in st.redis ==> org in last && st.redis[CacheKey(org)] == Text(last[org]))
    && (LkgKey(org) in st.redis <==> org in last)
    && (org in last ==> st.redis[LkgKey(org)] == Record(last[org]))
  }

  lemma StepHolds(st: State, last: map<Org, Tier>, e: Event, orgs: set<Org>, org: Org)
    requires Apart(orgs) && e.org in orgs && org in orgs && Holds(st, last, org)
    ensures Holds(Next(st, e), Fetched(st, last, e), org)
  {
    hide CacheKey, LkgKey;
    KeysCollideIff(e.org, org);
    KeysCollideIff(org, e.org);
    KeysCollideIff(org, org);
  }

  lemma {:induction false} RunHolds(states: seq<State>, lasts: seq<map<Org, Tier>>, events: seq<Event>,
                                    orgs: set<Org>, i: nat, org: Org)
    requires IsRun(states, lasts, events) && Apart(orgs) && org in orgs && forall k | 0 <= k < |events| :: events[k].org in orgs
    requires i < |states|
    ensures Holds(states[i], lasts[i], org)
  {
    hide Next, Fetched, Holds;
    if i > 0 {
      RunHolds(states, lasts, events, orgs, i - 1, org);
      StepHolds(states[i - 1], lasts[i - 1], events[i - 1], orgs, org);
    } else {
      assert Holds(State(map[], map[]), map[], org) by { NothingHolds(org); }
    }
  }

  lemma NothingHolds(org: Org)
    ensures Holds(State(map[], map[]), map[], org)
  {
  }

  /**
   Over every trace of fetches, failures, expiries and invalidations: the tier served is the last one
   successfully fetched, the default only if none ever was. It takes a last fetched tier that is not
   the empty string, which reads as missing, and no org named like another's record.
   */
  lemma ServedIsLastFetched(states: seq<State>, lasts: seq<map<Org, Tier>>, events: seq<Event>, orgs: set<Org>,
                            i: nat, fallback: Tier)
    requires IsRun(states, lasts, events) && Apart(orgs) && forall k | 0 <= k < |events| :: events[k].org in orgs
    requires i < |events| && events[i].Get?
    ensures var org := events[i].org;
            var served := Answer(states[i], org, events[i].fetch, fallback);
            && (org !in lasts[i + 1] ==> served == Served(fallback))
            && (org in lasts[i + 1] && lasts[i + 1][org] != "" ==> served == Served(lasts[i + 1][org]))
            && (org in lasts[i + 1] && lasts[i + 1][org] == "" ==>
                  served == Served(if events[i].fetch.Some? then "" else fallback))
  {
    RunHolds(states, lasts, events, orgs, i, events[i].org);
  }

  // ---- The cache ------------------------------------------------------------------------------------

  /**
   Right after an invalidation, or the end of the entry's life, the tier service is asked: what it answers is
   served; if it fails the last-known-good record is, or else the default. The record has not been touched,
   and the new answer replaces both.
   */
  lemma AskedAfterInvalidate(st: State, e: Event, tier: Tier, fallback: Tier)
    requires e.Invalidate? || e.Expire?
    ensures var after, org := Next(st, e), e.org;
            && Answer(after, org, Some(tier), fallback) == Served(tier)
            && (LkgKey(org) in st.redis && st.redis[LkgKey(org)].Record? && st.redis[LkgKey(org)].tier != "" ==>
                  Answer(after, org, None, fallback) == Served(st.redis[LkgKey(org)].tier))
            && (LkgKey(org) !in st.redis ==> Answer(after, org, None, fallback) == Served(fallback))
            && var fetched := Next(after, Get(org, Some(tier)));
               fetched.redis == st.redis[CacheKey(org) := Text(tier)][LkgKey(org) := Record(tier)]
               && Streak(fetched, org) == 0
  {
    hide CacheKey, LkgKey;
    KeysCollideIff(e.org, e.org);
  }

  /** No event touches another org's entry, record or streak, where neither is named like the other's record. */
  lemma OthersUntouched(st: State, e: Event, org: Org)
    requires e.org != org && org != "lkg:" + e.org && e.org != "lkg:" + org
    ensures var after := Next(st, e);
            && (CacheKey(org) in after.redis <==> CacheKey(org) in st.redis)
            && (CacheKey(org) in st.redis ==> after.redis[CacheKey(org)] == st.redis[CacheKey(org)])
            && (LkgKey(org) in after.redis <==> LkgKey(org) in st.redis)
            && (LkgKey(org) in st.redis ==> after.redis[LkgKey(org)] == st.redis[LkgKey(org)])
            && Streak(after, org) == Streak(st, org)
  {
    hide CacheKey, LkgKey;
    KeysCollideIff(e.org, org);
    KeysCollideIff(org, e.org);
  }

  /** Neither an invalidation nor an expiry of the org from j up to i. */
  predicate Undisturbed(events: seq<Event>, j: nat, i: nat, org: Org)
    requires i <= |events|
  {
    forall k | j <= k < i :: events[k].org == org ==> events[k].Get?
  }

  /**
   After a successful fetch of a tier that is not empty, and until the entry is invalidated or expires, that
   tier is served whatever the service would answer, and the service is not asked.
   */
  lemma {:induction false} CachedUntilInvalidated(states: seq<State>, lasts: seq<map<Org, Tier>>, events: seq<Event>,
                                                  orgs: set<Org>, j: nat, i: nat, org: Org, tier: Tier)
    requires IsRun(states, lasts, events) && Apart(orgs) && org in orgs && forall k | 0 <= k < |events| :: events[k].org in orgs
    requires j < i < |states| && events[j] == Get(org, Some(tier)) && !CacheHit(states[j], org) && tier != ""
    requires Undisturbed(events, j, i, org)
    ensures CacheHit(states[i], org) && states[i].redis[CacheKey(org)] == Text(tier)
    ensures forall fetch, fallback :: Answer(states[i], org, fetch, fallback) == Served(tier)
    ensures forall fetch :: Next(states[i], Get(org, fetch)) == states[i]
    decreases i
  {
    hide CacheKey, LkgKey;
    KeysCollideIff(org, org);
    if i > j + 1 {
      CachedUntilInvalidated(states, lasts, events, orgs, j, i - 1, org, tier);
      if events[i - 1].org != org {
        OthersUntouched(states[i - 1], events[i - 1], org);
      }
    }
  }

  /** Over any run: the first time an org is looked up after an invalidation, the service is asked. */
  lemma {:induction false} InvalidatedIsAsked(states: seq<State>, lasts: seq<map<Org, Tier>>, events: seq<Event>, orgs: set<Org>,
                                              j: nat, i: nat, org: Org, tier: Tier, fallback: Tier)
    requires IsRun(states, lasts, events) && Apart(orgs) && org in orgs && forall k | 0 <= k < |events| :: events[k].org in orgs
    requires j < i < |states| && events[j] == Invalidate(org) && forall k | j < k < i :: events[k].org == org ==> !events[k].Get?
    ensures CacheKey(org) !in states[i].redis && Answer(states[i], org, Some(tier), fallback) == Served(tier)
    ensures Answer(states[i], org, None, fallback)
         == if org in lasts[j] && lasts[j][org] != "" then Served(lasts[j][org]) else Served(fallback)
    ensures LkgKey(org) in states[i].redis <==> LkgKey(org) in states[j].redis
    ensures LkgKey(org) in states[i].redis ==> states[i].redis[LkgKey(org)] == states[j].redis[LkgKey(org)]
    decreases i
  {
    KeysCollideIff(org, org);
    RunHolds(states, lasts, events, orgs, j, org);
    hide CacheKey, LkgKey;
    if i > j + 1 {
      InvalidatedIsAsked(states, lasts, events, orgs, j, i - 1, org, tier, fallback);
      if events[i - 1].org != org {
        OthersUntouched(states[i - 1], events[i - 1], org);
      }
    }
  }

  /** Step j asked the tier service for the org, and got this for an answer. */
  predicate FetchedAt(states: seq<State>, events: seq<Event>, j: nat, org: Org, answered: bool)
    requires |states| == |events| + 1 && j < |events|
  {
    events[j].Get? && events[j].org == org && !CacheHit(states[j], org) && events[j].fetch.Some? == answered
  }

  function FailedSteps(states: seq<State>, events: seq<Event>, k: nat, i: nat, org: Org): set<nat>
    requires |states| == |events| + 1 && i <= |events|
  {
    set j | k <= j < i && FetchedAt(states, events, j, org, false)
  }

  /**
   Over every trace the streak of an org is the number of its fetches that failed since the last one
   that succeeded, or since the start; answers from the cache neither count nor end it.
   */
  lemma {:induction false} StreakCounts(states: seq<State>, lasts: seq<map<Org, Tier>>, events: seq<Event>, i: nat, org: Org)
    returns (k: nat)
    requires IsRun(states, lasts, events) && i < |states|
    ensures k <= i && (k > 0 ==> FetchedAt(states, events, k - 1, org, true))
    ensures forall j | k <= j < i :: !FetchedAt(states, events, j, org, true)
    ensures Streak(states[i], org) == |FailedSteps(states, events, k, i, org)|
  {
    if i == 0 {
      k := 0;
      assert FailedSteps(states, events, 0, 0, org) == {};
    } else {
      k := StreakCounts(states, lasts, events, i - 1, org);
      StreakStep(states[i - 1], events[i - 1], org);
      if FetchedAt(states, events, i - 1, org, true) {
        k := i;
        assert FailedSteps(states, events, i, i, org) == {};
      } else {
        FailedSnoc(states, events, k, i, org);
      }
    }
  }

  lemma FailedSnoc(states: seq<State>, events: seq<Event>, k: nat, i: nat, org: Org)
    requires |states| == |events| + 1 && k < i <= |events|
    ensures |FailedSteps(states, events, k, i, org)|
         == |FailedSteps(states, events, k, i - 1, org)| + if FetchedAt(states, events, i - 1, org, false) then 1 else 0
  {
    assert FailedSteps(states, events, k, i, org)
        == FailedSteps(states, events, k, i - 1, org) + if FetchedAt(states, events, i - 1, org, false) then {i - 1} else {};
  }

  lemma StreakStep(st: State, e: Event, org: Org)
    ensures Streak(Next(st, e), org) ==
              if e.Get? && e.org == org && !CacheHit(st, org)
              then (if e.fetch.None? then Streak(st, org) + 1 else 0) else Streak(st, org)
  {
  }

  /** An org whose name opens with the record's prefix is served the raw record of another org. */
  lemma PrefixedOrgReadsRecord(org: Org, tier: Tier, fetch: Option<Tier>, fallback: Tier)
    ensures var st := Next(State(map[], map[]), Get(org, Some(tier)));
            Answer(st, "lkg:" + org, fetch, fallback) == RawRecord(tier)
  {
    KeysCollideIff("lkg:" + org, org);
    KeysCollideIff(org, org);
  }

  // ---- The provider --------------------------------------------------------------------------------------

  class AuthServiceTierProvider {
    const fallback: Tier
    var redis: map<string, Cell>
    var streaks: map<Org, nat>

    constructor (fallback: Tier)
      ensures this.fallback == fallback && Now() == State(map[], map[])
    {
      this.fallback, redis, streaks := fallback, map[], map[];
    }

    ghost function Now(): State
      reads this
    {
      State(redis, streaks)
    }

    /** `fetch` is what the tier service answers if it is asked. */
    method GetTier(org: Org, fetch: Option<Tier>) returns (served: Served)
      modifies this
      ensures served == Answer(old(Now()), org, fetch, fallback)
      ensures Now() == Next(old(Now()), Get(org, fetch))
    {
      var cacheKey, lkgKey := CacheKey(org), LkgKey(org);
      if cacheKey in redis {
        var cell := redis[cacheKey];
        if cell.Record? {
          return RawRecord(cell.tier);
        } else if cell.tier != "" {
          return Served(cell.tier);
        }
      }
      if fetch.None? {
        streaks := streaks[org := (if org in streaks then streaks[org] else 0) + 1];
        if lkgKey in redis && redis[lkgKey].Record? && redis[lkgKey].tier != "" {
          return Served(redis[lkgKey].tier);
        }
        return Served(fallback);
      }
      streaks := streaks - {org};
      redis := redis[cacheKey := Text(fetch.value)];
      redis := redis[lkgKey := Record(fetch.value)];
      return Served(fetch.value);
    }

    method InvalidateTier(org: Org)
      modifies this
      ensures Now() == Next(old(Now()), Invalidate(org))
      ensures CacheKey(org) !in redis && streaks == old(streaks)
      ensures forall key | key != CacheKey(org) :: key in redis <==> key in old(redis)
      ensures forall key <- redis :: key in old(redis) && redis[key] == old(redis)[key]
    {
      redis := redis - {CacheKey(org)};
    }
  }
}
