/**
 The three loops that drive a cached gauge back to a target: the ledger mechanism
 (`converge_gauge`), the reconciler's audited force-set, and the engine's repair before a
 denial. Each writes the org total, the listed users, and clears the users not listed.
 */
module Repair {
  import opened Prelude
  import opened Gauges
  import opened Activations

  predicate OfGauge(s: Slot, org: Org, rk: Resource) { s.org == org && s.rk == rk }

  /** A user partition the target does not mention. */
  predicate Stale(s: Slot, org: Org, rk: Resource, users: map<User, real>)
  {
    OfGauge(s, org, rk) && s.UserSlot? && s.user !in users
  }

  function UserSlots(org: Org, rk: Resource, users: set<User>): set<Slot>
  {
    set u <- users :: UserSlot(org, rk, u)
  }

  /** The level the target asks of a slot of the gauge. */
  function Target(s: Slot, total: real, users: map<User, real>): real
  {
    if s.OrgSlot? then total else if s.user in users then users[s.user] else 0.0
  }

  /** Everything written, every non-zero stale user deleted. */
  function Reset(m: Levels, org: Org, rk: Resource, total: real, users: map<User, real>): Levels
  {
    map s | s in m.Keys + {OrgSlot(org, rk)} + UserSlots(org, rk, users.Keys)
            && !(Stale(s, org, rk, users) && Level(m, s) != 0.0) ::
      if OfGauge(s, org, rk) then Target(s, total, users) else Level(m, s)
  }

  /** Only what is out of tolerance written, every non-zero stale user deleted. */
  function Forced(m: Levels, org: Org, rk: Resource, total: real, users: map<User, real>): Levels
  {
    map s | s in m.Keys + {OrgSlot(org, rk)} + UserSlots(org, rk, users.Keys)
            && (s !in m ==> !Near(0.0, Target(s, total, users)))
            && !(Stale(s, org, rk, users) && Level(m, s) != 0.0) ::
      if OfGauge(s, org, rk) && !Near(Level(m, s), Target(s, total, users))
      then Target(s, total, users) else Level(m, s)
  }

  /** Some slot is out of tolerance, or a stale user holds a level. */
  ghost predicate NeedsForce(m: Levels, org: Org, rk: Resource, total: real, users: map<User, real>)
  {
    || !Near(Level(m, OrgSlot(org, rk)), total)
    || (exists u <- users :: !Near(Level(m, UserSlot(org, rk, u)), users[u]))
    || (exists s <- m :: Stale(s, org, rk, users) && m[s] != 0.0)
  }

  /** From any starting map: the gauge reads its target, every other gauge reads as before. */
  lemma ResetReaches(m: Levels, org: Org, rk: Resource, total: real, users: map<User, real>, s: Slot)
    ensures Level(Reset(m, org, rk, total, users), s)
         == if OfGauge(s, org, rk) then Target(s, total, users) else Level(m, s)
  {
    if OfGauge(s, org, rk) {
      assert s.OrgSlot? ==> s == OrgSlot(org, rk);
      assert s.UserSlot? ==> s == UserSlot(org, rk, s.user);
    }
  }

  /** The force-set lands on the same levels as the other two loops, up to the tolerance. */
  lemma ForcedReaches(m: Levels, org: Org, rk: Resource, total: real, users: map<User, real>, s: Slot)
    ensures OfGauge(s, org, rk) ==> Near(Level(Forced(m, org, rk, total, users), s), Target(s, total, users))
    ensures Stale(s, org, rk, users) ==> Level(Forced(m, org, rk, total, users), s) == 0.0
    ensures !OfGauge(s, org, rk) ==> Level(Forced(m, org, rk, total, users), s) == Level(m, s)
  {
    if OfGauge(s, org, rk) {
      assert s.OrgSlot? ==> s == OrgSlot(org, rk);
      assert s.UserSlot? ==> s == UserSlot(org, rk, s.user);
    }
  }

  lemma ForcedIsStable(m: Levels, org: Org, rk: Resource, total: real, users: map<User, real>)
    ensures !NeedsForce(Forced(m, org, rk, total, users), org, rk, total, users)
    ensures !NeedsForce(m, org, rk, total, users) ==> Forced(m, org, rk, total, users) == m
  {
    var m' := Forced(m, org, rk, total, users);
    ForcedReaches(m, org, rk, total, users, OrgSlot(org, rk));
    forall u <- users ensures Near(Level(m', UserSlot(org, rk, u)), users[u]) {
      ForcedReaches(m, org, rk, total, users, UserSlot(org, rk, u));
    }
    if !NeedsForce(m, org, rk, total, users) {
      forall s | s in {OrgSlot(org, rk)} + UserSlots(org, rk, users.Keys)
        ensures Near(Level(m, s), Target(s, total, users))
      {
      }
      assert m'.Keys == m.Keys;
    }
  }

  // ---- The ledger's targets --------------------------------------------------------------

  /** Every user with an OPEN activation, with that user's sum. */
  function ListedUsers(opens: seq<Activation>, org: Org, rk: Resource): map<User, real>
  {
    map u | u in UsersOf(opens) :: ListedSum(opens, UserSlot(org, rk, u))
  }

  function UsersOf(opens: seq<Activation>): set<User>
  {
    set a <- opens | a.charge.user.Some? :: a.charge.user.value
  }

  /** `converge_gauge`'s final state: the counter is a cache of Σ open activations. */
  function Converged(m: Levels, opens: seq<Activation>, org: Org, rk: Resource): Levels
  {
    Reset(m, org, rk, ListedSum(opens, OrgSlot(org, rk)), ListedUsers(opens, org, rk))
  }

  lemma ConvergedReaches(m: Levels, opens: seq<Activation>, org: Org, rk: Resource, s: Slot)
    ensures Level(Converged(m, opens, org, rk), s)
         == if OfGauge(s, org, rk) then ListedSum(opens, s) else Level(m, s)
  {
    var users := ListedUsers(opens, org, rk);
    ResetReaches(m, org, rk, ListedSum(opens, OrgSlot(org, rk)), users, s);
    if OfGauge(s, org, rk) {
      if s.OrgSlot? {
        assert s == OrgSlot(org, rk);
      } else {
        assert s == UserSlot(org, rk, s.user);
        if s.user !in users {
          NoActivationNoSum(opens, s);
        }
      }
    }
  }

  /** What the listed users hold together, against the org total. */
  function AnonymousSum(opens: seq<Activation>, s: Slot): real
  {
    if opens == [] then 0.0
    else (if opens[0].charge.user.None? then Weight(opens[0].charge, s) else 0.0) + AnonymousSum(opens[1..], s)
  }

  /** Σ over a list of distinct users. */
  function UsersSum(opens: seq<Activation>, org: Org, rk: Resource, users: seq<User>): real
  {
    if users == [] then 0.0
    else ListedSum(opens, UserSlot(org, rk, users[0])) + UsersSum(opens, org, rk, users[1..])
  }

  /**
   The derived user partitions account for exactly the org total less what was opened
   without a user.
   */
  lemma {:induction false} UsersAddUpToTotal(opens: seq<Activation>, org: Org, rk: Resource, users: seq<User>)
    requires forall i, j | 0 <= i < j < |users| :: users[i] != users[j]
    requires forall a <- opens | a.charge.user.Some? :: a.charge.user.value in users
    ensures UsersSum(opens, org, rk, users) == ListedSum(opens, OrgSlot(org, rk)) - AnonymousSum(opens, OrgSlot(org, rk))
    decreases |opens|
  {
    if opens == [] {
      UsersSumEmpty(org, rk, users);
    } else {
      UsersAddUpToTotal(opens[1..], org, rk, users);
      UsersSumCons(opens, org, rk, users);
      assert opens[0] in opens;
    }
  }

  /** So the listed users never hold more than the org does, and the same when each spend has a user. */
  lemma UsersNeverExceedTotal(opens: seq<Activation>, org: Org, rk: Resource, users: seq<User>)
    requires forall i, j | 0 <= i < j < |users| :: users[i] != users[j]
    requires forall a <- opens | a.charge.user.Some? :: a.charge.user.value in users
    requires forall a <- opens :: NonNegative(a.charge)
    ensures UsersSum(opens, org, rk, users) <= ListedSum(opens, OrgSlot(org, rk))
    ensures (forall a <- opens :: a.charge.user.Some?) ==> UsersSum(opens, org, rk, users) == ListedSum(opens, OrgSlot(org, rk))
  {
    UsersAddUpToTotal(opens, org, rk, users);
    AnonymousIsSpend(opens, OrgSlot(org, rk));
  }

  lemma {:induction false} AnonymousIsSpend(opens: seq<Activation>, s: Slot)
    requires forall a <- opens :: NonNegative(a.charge)
    ensures AnonymousSum(opens, s) >= 0.0
    ensures (forall a <- opens :: a.charge.user.Some?) ==> AnonymousSum(opens, s) == 0.0
  {
    if opens != [] {
      assert opens[0] in opens;
      AnonymousIsSpend(opens[1..], s);
    }
  }

  lemma {:induction false} UsersSumEmpty(org: Org, rk: Resource, users: seq<User>)
    ensures UsersSum([], org, rk, users) == 0.0
  {
    if users != [] { UsersSumEmpty(org, rk, users[1..]); }
  }

  /** One more activation moves the users' sum by its weight, if it names one of them. */
  lemma {:induction false} UsersSumCons(opens: seq<Activation>, org: Org, rk: Resource, users: seq<User>)
    requires opens != []
    requires forall i, j | 0 <= i < j < |users| :: users[i] != users[j]
    ensures UsersSum(opens, org, rk, users) == UsersSum(opens[1..], org, rk, users)
      + (if opens[0].charge.user.Some? && opens[0].charge.user.value in users
         then Weight(opens[0].charge, OrgSlot(org, rk)) else 0.0)
    decreases |users|
  {
    if users != [] {
      UsersSumCons(opens, org, rk, users[1..]);
      if opens[0].charge.user == Some(users[0]) {
        assert users[0] !in users[1..];
      } else if opens[0].charge.user.Some? {
        assert opens[0].charge.user.value in users <==> opens[0].charge.user.value in users[1..];
      }
    }
  }

  // ---- The loops ----------------------------------------------------------------------------

  /** The gauge keys of the shared Redis. */
  class GaugeCache {
    var levels: Levels

    constructor ()
      ensures levels == map[]
    {
      levels := map[];
    }

    method ResetSlot(s: Slot, value: real)
      modifies this
      ensures levels == old(levels)[s := value]
    {
      levels := levels[s := value];
    }

    /** Sum the list, write the total, write each listed user, then scan for stale ones. */
    method ConvergeGauge(opens: seq<Activation>, org: Org, rk: Resource) returns (total: real)
      modifies this
      ensures total == ListedSum(opens, OrgSlot(org, rk))
      ensures levels == Converged(old(levels), opens, org, rk)
    {
      var users;
      total, users := LedgerSums(opens, org, rk);
      ResetSlot(OrgSlot(org, rk), total);
      WriteUsers(org, rk, users);
      var _ := ClearStale(org, rk, users);
      ResetComposes(old(levels), org, rk, total, users);
    }

    /** Accumulating loop over the list: the total, and a sum for each user met. */
    method LedgerSums(opens: seq<Activation>, org: Org, rk: Resource)
      returns (total: real, users: map<User, real>)
      ensures total == ListedSum(opens, OrgSlot(org, rk))
      ensures users == ListedUsers(opens, org, rk)
    {
      NothingListed(org, rk);
      hide ListedSum, ListedUsers, Weight;
      total, users := 0.0, map[];
      for i := 0 to |opens|
        invariant total == ListedSum(opens[..i], OrgSlot(org, rk))
        invariant users == ListedUsers(opens[..i], org, rk)
      {
        var c := opens[i].charge;
        ListedNext(opens, i, OrgSlot(org, rk));
        ListedUsersNext(opens, i, org, rk);
        total := total + Weight(c, OrgSlot(org, rk));
        if c.user.Some? {
          var u := c.user.value;
          users := users[u := (if u in users then users[u] else 0.0) + Weight(c, UserSlot(org, rk, u))];
        }
      }
      assert opens[..|opens|] == opens;
    }

    method WriteUsers(org: Org, rk: Resource, users: map<User, real>)
      modifies this
      ensures levels == Written(old(levels), org, rk, users)
    {
      var todo := users.Keys;
      while todo != {}
        invariant todo <= users.Keys
        invariant levels == map s | s in old(levels).Keys + UserSlots(org, rk, users.Keys - todo) ::
                              if s in UserSlots(org, rk, users.Keys - todo) then users[s.user] else Level(old(levels), s)
        decreases |todo|
      {
        var u :| u in todo;
        todo := todo - {u};
        ResetSlot(UserSlot(org, rk, u), users[u]);
      }
    }

    /** Scan the user keys of the gauge; delete each unlisted one that is not zero. */
    method ClearStale(org: Org, rk: Resource, users: map<User, real>) returns (cleared: bool)
      modifies this
      ensures levels == WithoutStale(old(levels), org, rk, users)
      ensures cleared <==> exists s <- old(levels) :: Stale(s, org, rk, users) && old(levels)[s] != 0.0
    {
      cleared := false;
      var existing := set s | s in levels && s.UserSlot? && OfGauge(s, org, rk);
      while existing != {}
        invariant existing <= old(levels).Keys
        invariant forall s <- existing :: s.UserSlot? && OfGauge(s, org, rk)
        invariant levels == map s | s in old(levels) &&
                              !(Stale(s, org, rk, users) && old(levels)[s] != 0.0 && s !in existing) :: old(levels)[s]
        invariant cleared <==> exists s <- old(levels).Keys - existing :: Stale(s, org, rk, users) && old(levels)[s] != 0.0
        decreases |existing|
      {
        var s :| s in existing;
        existing := existing - {s};
        if s.user !in users && levels[s] != 0.0 {
          levels := levels - {s};
          cleared := true;
        }
      }
    }

    /** `_repair_counter_to_truth`: write everything, delete the stale. Returns the level before. */
    method RepairToTruth(org: Org, rk: Resource, total: real, users: map<User, real>) returns (before: real)
      modifies this
      ensures before == Level(old(levels), OrgSlot(org, rk))
      ensures levels == Reset(old(levels), org, rk, total, users)
    {
      before := Level(levels, OrgSlot(org, rk));
      ResetSlot(OrgSlot(org, rk), total);
      WriteUsers(org, rk, users);
      var _ := ClearStale(org, rk, users);
      ResetComposes(old(levels), org, rk, total, users);
    }

    /** `_audited_force_set`: write only what is out of tolerance; report whether anything moved. */
    method AuditedForceSet(org: Org, rk: Resource, total: real, users: map<User, real>) returns (changed: bool)
      modifies this
      ensures levels == Forced(old(levels), org, rk, total, users)
      ensures changed == NeedsForce(old(levels), org, rk, total, users)
    {
      var total' := !Near(Level(levels, OrgSlot(org, rk)), total);
      if total' {
        ResetSlot(OrgSlot(org, rk), total);
      }
      assert levels == OrgForced(old(levels), org, rk, total);
      var users' := ForceUsers(org, rk, users);
      var cleared := ClearStale(org, rk, users);
      changed := total' || users' || cleared;
      ForcedComposes(old(levels), org, rk, total, users);
    }

    method ForceUsers(org: Org, rk: Resource, users: map<User, real>) returns (changed: bool)
      modifies this
      ensures levels == ForcedUsers(old(levels), org, rk, users, users.Keys)
      ensures changed <==> exists u <- users :: !Near(Level(old(levels), UserSlot(org, rk, u)), users[u])
    {
      changed := false;
      var todo := users.Keys;
      while todo != {}
        invariant todo <= users.Keys
        invariant levels == ForcedUsers(old(levels), org, rk, users, users.Keys - todo)
        invariant changed <==> exists u <- users.Keys - todo :: !Near(Level(old(levels), UserSlot(org, rk, u)), users[u])
        decreases |todo|
      {
        var u :| u in todo;
        ForcedUsersStep(old(levels), org, rk, users, users.Keys - todo, u);
        assert users.Keys - (todo - {u}) == users.Keys - todo + {u};
        todo := todo - {u};
        if !Near(Level(levels, UserSlot(org, rk, u)), users[u]) {
          ResetSlot(UserSlot(org, rk, u), users[u]);
          changed := true;
        }
      }
      assert users.Keys - todo == users.Keys;
    }
  }

  /** The force-set's user loop after the users in `done`. */
  function ForcedUsers(m: Levels, org: Org, rk: Resource, users: map<User, real>, done: set<User>): Levels
    requires done <= users.Keys
  {
    map s | s in m.Keys + UserSlots(org, rk, done) && (s !in m ==> !Near(0.0, users[s.user])) ::
      if s in UserSlots(org, rk, done) && !Near(Level(m, s), users[s.user]) then users[s.user] else Level(m, s)
  }

  function Written(m: Levels, org: Org, rk: Resource, users: map<User, real>): Levels
  {
    map s | s in m.Keys + UserSlots(org, rk, users.Keys) ::
      if s in UserSlots(org, rk, users.Keys) then users[s.user] else Level(m, s)
  }

  /** The three stages of the other two loops, put together. */
  lemma ResetComposes(m: Levels, org: Org, rk: Resource, total: real, users: map<User, real>)
    ensures Reset(m, org, rk, total, users)
         == WithoutStale(Written(m[OrgSlot(org, rk) := total], org, rk, users), org, rk, users)
  {
    var f := Reset(m, org, rk, total, users);
    var g := WithoutStale(Written(m[OrgSlot(org, rk) := total], org, rk, users), org, rk, users);
    forall s ensures (s in f <==> s in g) && (s in f ==> f[s] == g[s]) {
      assert OfGauge(s, org, rk) && s.OrgSlot? ==> s == OrgSlot(org, rk);
      assert OfGauge(s, org, rk) && s.UserSlot? ==> s == UserSlot(org, rk, s.user);
    }
    assert f == g;
  }

  function OrgForced(m: Levels, org: Org, rk: Resource, total: real): Levels
  {
    if Near(Level(m, OrgSlot(org, rk)), total) then m else m[OrgSlot(org, rk) := total]
  }

  function WithoutStale(m: Levels, org: Org, rk: Resource, users: map<User, real>): Levels
  {
    map s | s in m && !(Stale(s, org, rk, users) && m[s] != 0.0) :: m[s]
  }

  /** The three stages of the force-set, put together. */
  lemma ForcedComposes(m: Levels, org: Org, rk: Resource, total: real, users: map<User, real>)
    ensures var m1 := OrgForced(m, org, rk, total);
            var m2 := ForcedUsers(m1, org, rk, users, users.Keys);
            && Forced(m, org, rk, total, users) == WithoutStale(m2, org, rk, users)
            && (NeedsForce(m, org, rk, total, users) <==>
                  || !Near(Level(m, OrgSlot(org, rk)), total)
                  || (exists u <- users :: !Near(Level(m1, UserSlot(org, rk, u)), users[u]))
                  || (exists s <- m2 :: Stale(s, org, rk, users) && m2[s] != 0.0))
  {
    var m1 := OrgForced(m, org, rk, total);
    var m2 := ForcedUsers(m1, org, rk, users, users.Keys);
    forall u <- users ensures Level(m1, UserSlot(org, rk, u)) == Level(m, UserSlot(org, rk, u)) {
    }
    forall s | Stale(s, org, rk, users) ensures (s in m2 <==> s in m) && (s in m ==> m2[s] == m[s]) {
      assert s !in UserSlots(org, rk, users.Keys);
    }
    var f := Forced(m, org, rk, total, users);
    var g := WithoutStale(m2, org, rk, users);
    forall s ensures (s in f <==> s in g) && (s in f ==> f[s] == g[s]) {
      ForcedComposesAt(m, org, rk, total, users, s);
    }
    assert f == g;
  }

  lemma ForcedComposesAt(m: Levels, org: Org, rk: Resource, total: real, users: map<User, real>, s: Slot)
    ensures var f := Forced(m, org, rk, total, users);
            var g := WithoutStale(ForcedUsers(OrgForced(m, org, rk, total), org, rk, users, users.Keys), org, rk, users);
            (s in f <==> s in g) && (s in f ==> f[s] == g[s])
  {
    if OfGauge(s, org, rk) {
      assert s.OrgSlot? ==> s == OrgSlot(org, rk);
      assert s.UserSlot? ==> s == UserSlot(org, rk, s.user);
    }
  }

  lemma ForcedUsersStep(m: Levels, org: Org, rk: Resource, users: map<User, real>, done: set<User>, u: User)
    requires done <= users.Keys && u in users && u !in done
    ensures var now := ForcedUsers(m, org, rk, users, done);
            var s := UserSlot(org, rk, u);
            && Level(now, s) == Level(m, s)
            && ForcedUsers(m, org, rk, users, done + {u})
               == if Near(Level(m, s), users[u]) then now else now[s := users[u]]
  {
    var now := ForcedUsers(m, org, rk, users, done);
    var next := ForcedUsers(m, org, rk, users, done + {u});
    var s := UserSlot(org, rk, u);
    assert UserSlots(org, rk, done + {u}) == UserSlots(org, rk, done) + {s};
    assert s !in UserSlots(org, rk, done);
    if Near(Level(m, s), users[u]) {
      assert next.Keys == now.Keys;
    } else {
      assert next.Keys == now.Keys + {s};
    }
  }

  lemma NothingListed(org: Org, rk: Resource)
    ensures ListedUsers([], org, rk) == map[]
    ensures forall s :: ListedSum([], s) == 0.0
  {
  }

  /** One more activation of a listing, on one slot. */
  lemma ListedNext(opens: seq<Activation>, i: nat, s: Slot)
    requires i < |opens|
    ensures ListedSum(opens[..i + 1], s) == ListedSum(opens[..i], s) + Weight(opens[i].charge, s)
  {
    assert opens[..i + 1] == opens[..i] + [opens[i]];
    ListedSnoc(opens[..i], opens[i], s);
  }

  lemma ListedUsersNext(opens: seq<Activation>, i: nat, org: Org, rk: Resource)
    requires i < |opens|
    ensures var before := ListedUsers(opens[..i], org, rk);
            var c := opens[i].charge;
            ListedUsers(opens[..i + 1], org, rk) ==
              if c.user.Some?
              then before[c.user.value := (if c.user.value in before then before[c.user.value] else 0.0)
                                          + Weight(c, UserSlot(org, rk, c.user.value))]
              else before
  {
    assert opens[..i + 1] == opens[..i] + [opens[i]];
    ListedUsersSnoc(opens[..i], opens[i], org, rk);
  }

  lemma ListedUsersSnoc(opens: seq<Activation>, a: Activation, org: Org, rk: Resource)
    ensures var before := ListedUsers(opens, org, rk);
            ListedUsers(opens + [a], org, rk) ==
              if a.charge.user.Some?
              then before[a.charge.user.value :=
                     (if a.charge.user.value in before then before[a.charge.user.value] else 0.0)
                     + Weight(a.charge, UserSlot(org, rk, a.charge.user.value))]
              else before
  {
    hide UsersOf, ListedSum, Weight;
    UsersOfSnoc(opens, a);
    forall u ensures ListedSum(opens + [a], UserSlot(org, rk, u)) == UserSumAfter(opens, a, org, rk, u) {
      UserSumSnoc(opens, a, org, rk, u);
    }
  }

  /** A user's sum with one more activation; a user not listed so far had none. */
  function UserSumAfter(opens: seq<Activation>, a: Activation, org: Org, rk: Resource, u: User): real
  {
    if a.charge.user != Some(u) then ListedSum(opens, UserSlot(org, rk, u))
    else (if u in UsersOf(opens) then ListedSum(opens, UserSlot(org, rk, u)) else 0.0) + Weight(a.charge, UserSlot(org, rk, u))
  }

  lemma UserSumSnoc(opens: seq<Activation>, a: Activation, org: Org, rk: Resource, u: User)
    ensures ListedSum(opens + [a], UserSlot(org, rk, u)) == UserSumAfter(opens, a, org, rk, u)
  {
    hide ListedSum;
    ListedSnoc(opens, a, UserSlot(org, rk, u));
    if u !in UsersOf(opens) {
      NoActivationNoSum(opens, UserSlot(org, rk, u));
    }
  }

  lemma UsersOfSnoc(opens: seq<Activation>, a: Activation)
    ensures UsersOf(opens + [a]) == UsersOf(opens) + if a.charge.user.Some? then {a.charge.user.value} else {}
  {
    assert a in opens + [a];
    assert forall b <- opens :: b in opens + [a];
  }
}
