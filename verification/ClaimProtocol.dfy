/**
 The Redis claim of one handler-ledger row, command by command: GET, decide, SET NX, GET again,
 compare-and-swap; and an outcome as GET then SET. Any number of deliveries, drainers and outcome
 writers interleave; any of them may die; the clock moves on; an untouched row expires.
 */
module ClaimProtocol {
  import opened Prelude
  import opened HandlerLedger

  /** `RedisLedgerStore.ROW_TTL_SECONDS`. */
  const ROW_TTL: nat := 72 * 3600

  datatype Pc =
    | Begun(lease: nat)                                  // record_attempt called; GET not yet sent
    | Fetched(raw: Option<Row>, lease: nat, again: bool) // a GET answered
    | Creating(row: Row, lease: nat)                     // built a row; SET NX not yet sent
    | Refetching(lease: nat)                             // lost the create race
    | Claiming(expected: Row, row: Row, lease: nat)      // decided to reclaim; CAS not yet sent
    | Granted(grant: nat)                                // told to proceed: the nth grant of the run
    // record_outcome: GET answered, SET not yet sent; nth is None for an operator's tool
    | Finishing(row: Row, outcome: Outcome, nth: Option<nat>)
    | Stopped

  /** One `proceed=True`: when, until when, and how many earlier grants a FAILED outcome had given up. */
  datatype Grant = Grant(worker: nat, row: Row, over: Option<Row>, at: nat, forgiven: nat)

  /** `longest` is the longest lease any attempt has asked for. */
  datatype State = State(clock: nat, row: Option<Row>, setAt: nat, pcs: map<nat, Pc>, grants: seq<Grant>,
                         forgiven: nat, stamp: nat, longest: nat)

  datatype Event =
    | Tick(to: nat)
    | Attempt(w: nat, leaseSeconds: nat)
    | Get(w: nat)
    | Decide(w: nat)
    | SetNx(w: nat)
    | Cas(w: nat)
    | OutcomeGet(w: nat, outcome: Outcome)
    | OutcomeSet(w: nat)
    | Crash(w: nat)
    | Expire

  function Initial(): State { State(0, None, 0, map[], [], 0, 0, 0) }

  predicate Enabled(st: State, e: Event)
  {
    match e
    case Tick(to) => to >= st.clock
    case Attempt(w, l) => w !in st.pcs
    case Get(w) => w in st.pcs && (st.pcs[w].Begun? || st.pcs[w].Refetching?)
    case Decide(w) => w in st.pcs && st.pcs[w].Fetched?
    case SetNx(w) => w in st.pcs && st.pcs[w].Creating?
    case Cas(w) => w in st.pcs && st.pcs[w].Claiming?
    // an outcome comes from a grantee, or from an operator's tool; never IN_PROGRESS
    case OutcomeGet(w, o) => (w in st.pcs ==> st.pcs[w].Granted?) && !o.status.InProgress?
    case OutcomeSet(w) => w in st.pcs && st.pcs[w].Finishing?
    case Crash(w) => w in st.pcs
    // the row's TTL is renewed by every SET
    case Expire => st.setAt + ROW_TTL <= st.clock
  }

  function GrantTo(st: State, w: nat, row: Row): State
  {
    st.(row := Some(row), setAt := st.clock, pcs := st.pcs[w := Granted(|st.grants|)],
        grants := st.grants + [Grant(w, row, st.row, st.clock, st.forgiven)])
  }

  function Next(st: State, e: Event): State
    requires Enabled(st, e)
  {
    match e
    case Tick(to) => st.(clock := to)
    case Attempt(w, l) => st.(pcs := st.pcs[w := Begun(l)], longest := if l > st.longest then l else st.longest)
    case Get(w) => st.(pcs := st.pcs[w := Fetched(st.row, st.pcs[w].lease, st.pcs[w].Refetching?)])
    case Decide(w) =>
      var pc := st.pcs[w];
      var row := Claim(pc.raw, st.clock, pc.lease, st.stamp);
      st.(stamp := st.stamp + 1, pcs := st.pcs[w :=
        if pc.raw.None? then (if pc.again then Stopped else Creating(row, pc.lease))
        else if !Claimable(pc.raw, st.clock) then Stopped
        else Claiming(pc.raw.value, row, pc.lease)])
    case SetNx(w) =>
      if st.row.None? then GrantTo(st, w, st.pcs[w].row)
      else st.(pcs := st.pcs[w := Refetching(st.pcs[w].lease)])
    case Cas(w) =>
      if st.row == Some(st.pcs[w].expected) then GrantTo(st, w, st.pcs[w].row)
      else st.(pcs := st.pcs[w := Stopped])    // it re-reads only to report; it never proceeds
    case OutcomeGet(w, o) =>
      var nth := if w in st.pcs then Some(st.pcs[w].grant) else None;
      st.(pcs := st.pcs[w := if st.row.None? then Stopped else Finishing(st.row.value, o, nth)])
    case OutcomeSet(w) =>
      var pc := st.pcs[w];
      st.(row := Some(Completed(pc.row, pc.outcome, st.clock)), setAt := st.clock, pcs := st.pcs[w := Stopped],
          forgiven := if pc.outcome.status.Failed? then |st.grants| else st.forgiven)
    case Crash(w) => st.(pcs := st.pcs[w := Stopped])
    case Expire => st.(row := None)
  }

  // ---- The invariant -----------------------------------------------------------------------------

  /** A grantee's lease, as it wrote it. */
  function LeaseOf(g: Grant): nat { if g.row.lease.Some? then g.row.lease.value else 0 }

  predicate Building(pc: Pc) { pc.Creating? || pc.Claiming? }

  /** A row built but not yet written is a claim that starts no later than now. */
  predicate BuiltSound(pc: Pc, clock: nat, stamp: nat)
  {
    Building(pc) ==>
      && pc.row.lease.Some? && pc.row.lease.value <= clock + pc.lease
      && pc.row.attemptedAt < stamp
      && pc.row == Row(InProgress, Attempts(if pc.Claiming? then Some(pc.expected) else None),
                       pc.row.lease, pc.row.attemptedAt, None, None)
      && (pc.Claiming? ==> Claimable(Some(pc.expected), clock))
  }

  predicate PcSound(pc: Pc, clock: nat, stamp: nat, longest: nat)
  {
    && (pc.Begun? || pc.Fetched? || pc.Refetching? || Building(pc) ==> pc.lease <= longest)
    && BuiltSound(pc, clock, stamp)
    && (pc.Finishing? ==> !pc.outcome.status.InProgress?)
  }

  predicate PcsSound(st: State)
  {
    forall w <- st.pcs :: PcSound(st.pcs[w], st.clock, st.stamp, st.longest)
  }

  /** No two claims, built or granted, carry the same stamp. */
  predicate StampsSound(st: State)
  {
    && (forall i | 0 <= i < |st.grants| :: st.grants[i].row.attemptedAt < st.stamp)
    && (forall i, j | 0 <= i < j < |st.grants| :: st.grants[i].row.attemptedAt != st.grants[j].row.attemptedAt)
    && (forall w, i | w in st.pcs && Building(st.pcs[w]) && 0 <= i < |st.grants| ::
          st.pcs[w].row.attemptedAt != st.grants[i].row.attemptedAt)
    && (forall v, w | v in st.pcs && w in st.pcs && v != w && Building(st.pcs[v]) && Building(st.pcs[w]) ::
          st.pcs[v].row.attemptedAt != st.pcs[w].row.attemptedAt)
  }

  /** A stored claim is the newest grant's. */
  predicate RowSound(st: State)
  {
    && st.setAt <= st.clock
    && (st.row.Some? && st.row.value.status.InProgress? ==> st.grants != [] && st.grants[|st.grants| - 1].row == st.row.value)
  }

  predicate GrantSound(g: Grant, st: State)
  {
    && g.row.status.InProgress? && g.row.lease.Some? && g.at <= st.clock
    && LeaseOf(g) <= st.setAt + st.longest && g.forgiven <= st.forgiven
    && Claimable(g.over, g.at) && g.row.attempts == Attempts(g.over)
  }

  /** Nobody was granted over a live lease, unless a FAILED outcome had given that lease up. */
  predicate Exclusive(grants: seq<Grant>)
  {
    forall i, j | 0 <= i < j < |grants| :: i < grants[j].forgiven || LeaseOf(grants[i]) <= grants[j].at
  }

  /** A claim taken over is the claim granted just before. */
  predicate Chained(grants: seq<Grant>)
  {
    forall j | 0 <= j < |grants| :: grants[j].over.Some? && grants[j].over.value.status.InProgress? ==>
      j > 0 && grants[j].over.value == grants[j - 1].row
  }

  /** No lease asked for so far outlives the row it is written in: 72 hours. */
  predicate LeasesFit(st: State) { st.longest <= 259200 }

  predicate GrantsSound(st: State)
  {
    && st.forgiven <= |st.grants|
    && (forall i | 0 <= i < |st.grants| :: GrantSound(st.grants[i], st))
    && (LeasesFit(st) ==> Exclusive(st.grants)) && Chained(st.grants)
  }

  /** Where a new claim is possible, no lease stands in its way. */
  predicate NoLeaseInTheWay(st: State)
  {
    match st.row
    case None => forall i | 0 <= i < |st.grants| :: LeaseOf(st.grants[i]) <= st.clock
    case Some(row) =>
      match row.status
      case InProgress => forall i | st.forgiven <= i < |st.grants| - 1 :: LeaseOf(st.grants[i]) <= st.clock
      case Failed => st.forgiven == |st.grants|
      case _ => true
  }

  predicate Inv(st: State)
  {
    PcsSound(st) && StampsSound(st) && RowSound(st) && GrantsSound(st) && (LeasesFit(st) ==> NoLeaseInTheWay(st))
  }

  /** The step every grant takes, for either command. */
  lemma GrantInv(st: State, w: nat)
    requires Inv(st) && w in st.pcs && Building(st.pcs[w])
    requires st.row == if st.pcs[w].Creating? then None else Some(st.pcs[w].expected)
    ensures Inv(GrantTo(st, w, st.pcs[w].row))
  {
    hide Attempts, StampsSound;
    GrantStamps(st, w);
    var st' := GrantTo(st, w, st.pcs[w].row);
    var g := st'.grants[|st.grants|];
    assert PcSound(st.pcs[w], st.clock, st.stamp, st.longest);
    assert Claimable(st.row, st.clock);
    assert GrantSound(g, st');
    GrantExcludes(st, g);
    forall i | 0 <= i < |st.grants| ensures GrantSound(st'.grants[i], st') {
      assert GrantSound(st.grants[i], st);
    }
    assert forall v <- st'.pcs | v != w :: st'.pcs[v] == st.pcs[v];
  }

  lemma GrantStamps(st: State, w: nat)
    requires PcsSound(st) && StampsSound(st) && w in st.pcs && Building(st.pcs[w])
    ensures StampsSound(GrantTo(st, w, st.pcs[w].row))
  {
    assert PcSound(st.pcs[w], st.clock, st.stamp, st.longest);
  }

  /** Whatever row a claim may go over, the leases before it have run out or been given up. */
  lemma GrantExcludes(st: State, g: Grant)
    requires Inv(st) && g.over == st.row && g.at == st.clock && g.forgiven == st.forgiven && Claimable(st.row, st.clock)
    ensures Chained(st.grants + [g])
    ensures LeasesFit(st) ==> Exclusive(st.grants + [g])
    ensures LeasesFit(st) ==> forall i | st.forgiven <= i < |st.grants| :: LeaseOf(st.grants[i]) <= st.clock
  {
    if LeasesFit(st) {
      forall i | st.forgiven <= i < |st.grants| ensures LeaseOf(st.grants[i]) <= st.clock {
        assert GrantSound(st.grants[i], st);
      }
    }
  }

  lemma NextInv(st: State, e: Event)
    requires Inv(st) && Enabled(st, e)
    ensures Inv(Next(st, e))
  {
    match e
    case SetNx(w) => if st.row.None? { GrantInv(st, w); } else { MoveInv(st, e, w); }
    case Cas(w) => if st.row == Some(st.pcs[w].expected) { GrantInv(st, w); } else { MoveInv(st, e, w); }
    case Tick(to) => TickInv(st, to);
    case OutcomeSet(w) => OutcomeInv(st, w);
    case Expire => ExpireInv(st);
    case Attempt(w, l) => AttemptInv(st, w, l);
    case Get(w) => MoveInv(st, e, w);
    case Decide(w) => DecideInv(st, w);
    case OutcomeGet(w, o) => MoveInv(st, e, w);
    case Crash(w) => MoveInv(st, e, w);
  }

  /** A step that only moves one worker, and builds nothing. */
  lemma MoveInv(st: State, e: Event, w: nat)
    requires Inv(st) && Enabled(st, e)
    requires Next(st, e) == st.(pcs := Next(st, e).pcs) && w in Next(st, e).pcs
    requires Next(st, e).pcs == st.pcs[w := Next(st, e).pcs[w]]
    requires PcSound(Next(st, e).pcs[w], st.clock, st.stamp, st.longest) && !Building(Next(st, e).pcs[w])
    ensures Inv(Next(st, e))
  {
    hide Next, Enabled, Exclusive, Chained, PcSound;
    var st' := Next(st, e);
    forall i | 0 <= i < |st.grants| ensures GrantSound(st'.grants[i], st') {
      assert GrantSound(st.grants[i], st);
    }
    assert forall v <- st'.pcs | v != w :: st'.pcs[v] == st.pcs[v];
  }

  /** A longer lease only weakens what is known of the rest. */
  lemma AttemptInv(st: State, w: nat, l: nat)
    requires Inv(st) && Enabled(st, Attempt(w, l))
    ensures Inv(Next(st, Attempt(w, l)))
  {
    hide Exclusive, Chained;
    var st' := Next(st, Attempt(w, l));
    forall v <- st'.pcs ensures PcSound(st'.pcs[v], st'.clock, st'.stamp, st'.longest) {
      assert v != w ==> PcSound(st.pcs[v], st.clock, st.stamp, st.longest);
    }
    forall i | 0 <= i < |st.grants| ensures GrantSound(st'.grants[i], st') {
      assert GrantSound(st.grants[i], st);
    }
  }

  lemma DecideInv(st: State, w: nat)
    requires Inv(st) && Enabled(st, Decide(w))
    ensures Inv(Next(st, Decide(w)))
  {
    hide Exclusive, Chained;
    var st' := Next(st, Decide(w));
    assert PcSound(st.pcs[w], st.clock, st.stamp, st.longest);
    forall v <- st'.pcs ensures PcSound(st'.pcs[v], st'.clock, st'.stamp, st'.longest) {
      assert v != w ==> PcSound(st.pcs[v], st.clock, st.stamp, st.longest);
    }
    forall i | 0 <= i < |st.grants| ensures GrantSound(st'.grants[i], st') {
      assert GrantSound(st.grants[i], st);
    }
    forall v | v in st.pcs && v != w && Building(st.pcs[v]) ensures st.pcs[v].row.attemptedAt < st.stamp {
      assert PcSound(st.pcs[v], st.clock, st.stamp, st.longest);
    }
  }

  lemma TickInv(st: State, to: nat)
    requires Inv(st) && st.clock <= to
    ensures Inv(st.(clock := to))
  {
    hide Exclusive, Chained;
    var st' := st.(clock := to);
    forall w <- st'.pcs ensures PcSound(st'.pcs[w], st'.clock, st'.stamp, st'.longest) {
      assert PcSound(st.pcs[w], st.clock, st.stamp, st.longest);
    }
    forall i | 0 <= i < |st.grants| ensures GrantSound(st'.grants[i], st') {
      assert GrantSound(st.grants[i], st);
    }
  }

  lemma OutcomeInv(st: State, w: nat)
    requires Inv(st) && Enabled(st, OutcomeSet(w))
    ensures Inv(Next(st, OutcomeSet(w)))
  {
    hide Exclusive, Chained;
    var st' := Next(st, OutcomeSet(w));
    assert PcSound(st.pcs[w], st.clock, st.stamp, st.longest);
    forall i | 0 <= i < |st.grants| ensures GrantSound(st'.grants[i], st') {
      assert GrantSound(st.grants[i], st);
    }
    assert forall v <- st'.pcs | v != w :: st'.pcs[v] == st.pcs[v];
  }

  lemma ExpireInv(st: State)
    requires Inv(st) && Enabled(st, Expire)
    ensures Inv(Next(st, Expire))
  {
    hide Exclusive, Chained;
    var st' := Next(st, Expire);
    forall i | 0 <= i < |st.grants|
      ensures GrantSound(st'.grants[i], st') && (LeasesFit(st) ==> LeaseOf(st.grants[i]) <= st.clock)
    {
      assert GrantSound(st.grants[i], st);
    }
  }

  // ---- Runs -------------------------------------------------------------------------------------------

  ghost predicate IsPath(states: seq<State>, events: seq<Event>)
  {
    && |states| == |events| + 1
    && forall i | 0 <= i < |events| :: Enabled(states[i], events[i]) && states[i + 1] == Next(states[i], events[i])
  }

  ghost predicate IsRun(states: seq<State>, events: seq<Event>)
  {
    IsPath(states, events) && states[0] == Initial()
  }

  lemma {:induction false} RunInv(states: seq<State>, events: seq<Event>, i: nat)
    requires IsRun(states, events) && i < |states|
    ensures Inv(states[i])
  {
    hide Next, Enabled, Inv;
    if i == 0 {
      assert Inv(Initial()) by { InitialInv(); }
    } else {
      RunInv(states, events, i - 1);
      NextInv(states[i - 1], events[i - 1]);
    }
  }

  lemma InitialInv()
    ensures Inv(Initial())
  {
  }

  /**
   Mutual exclusion of leases. In any run whose leases fit in the row's TTL, when a worker is told to
   proceed, every worker told so before it holds a lease that has run out, or was granted before the
   last FAILED outcome.
   */
  lemma NoGrantOverLiveLease(states: seq<State>, events: seq<Event>, n: nat, i: nat, j: nat)
    requires IsRun(states, events) && n < |states| && i < j < |states[n].grants|
    requires LeasesFit(states[n]) && states[n].grants[j].forgiven <= i
    ensures LeaseOf(states[n].grants[i]) <= states[n].grants[j].at
  {
    RunInv(states, events, n);
  }

  /** Without a FAILED outcome in the run, nothing is ever given up. */
  lemma {:induction false} NothingForgiven(states: seq<State>, events: seq<Event>, n: nat)
    requires IsRun(states, events) && n < |states|
    requires forall k | 0 <= k < |events| && events[k].OutcomeGet? :: !events[k].outcome.status.Failed?
    ensures states[n].forgiven == 0
    ensures forall w <- states[n].pcs :: states[n].pcs[w].Finishing? ==> !states[n].pcs[w].outcome.status.Failed?
    ensures forall j | 0 <= j < |states[n].grants| :: states[n].grants[j].forgiven == 0
  {
    if n > 0 {
      NothingForgiven(states, events, n - 1);
      hide Claimable, Claim, Completed;
    }
  }

  /** So as long as handlers only report success, skip or final failure, no two live leases ever meet. */
  lemma LeasesNeverOverlap(states: seq<State>, events: seq<Event>, n: nat, i: nat, j: nat)
    requires IsRun(states, events) && n < |states| && i < j < |states[n].grants| && LeasesFit(states[n])
    requires forall k | 0 <= k < |events| && events[k].OutcomeGet? :: !events[k].outcome.status.Failed?
    ensures LeaseOf(states[n].grants[i]) <= states[n].grants[j].at
  {
    hide IsRun;
    NothingForgiven(states, events, n);
    NoGrantOverLiveLease(states, events, n, i, j);
  }

  /** The four commands of an attempt nobody interferes with. */
  function AttemptEvents(w: nat, l: nat, create: bool): seq<Event>
  {
    [Attempt(w, l), Get(w), Decide(w), if create then SetNx(w) else Cas(w)]
  }

  function Granting(st: State, w: nat, l: nat): State
  {
    GrantTo(st.(stamp := st.stamp + 1, longest := if l > st.longest then l else st.longest), w,
            Claim(st.row, st.clock, l, st.stamp))
  }

  lemma JoinPaths(states: seq<State>, events: seq<Event>, more: seq<State>, after: seq<Event>)
    requires IsPath(states, events) && IsPath(more, after) && more[0] == states[|events|]
    ensures IsPath(states + more[1..], events + after)
  {
    hide Next, Enabled;
    var all, es := states + more[1..], events + after;
    forall i | 0 <= i < |es| ensures Enabled(all[i], es[i]) && all[i + 1] == Next(all[i], es[i]) {
      if i >= |events| {
        assert all[i] == more[i - |events|];
      }
    }
  }

  /** As far as the decision to claim. */
  function Deciding(st: State, w: nat, l: nat): State
  {
    var claim := Claim(st.row, st.clock, l, st.stamp);
    st.(stamp := st.stamp + 1, longest := if l > st.longest then l else st.longest,
        pcs := st.pcs[w := if st.row.None? then Creating(claim, l) else Claiming(st.row.value, claim, l)])
  }

  lemma DecidePath(st: State, w: nat, l: nat) returns (states: seq<State>)
    requires w !in st.pcs && Claimable(st.row, st.clock)
    ensures IsPath(states, [Attempt(w, l), Get(w), Decide(w)]) && states[0] == st && states[3] == Deciding(st, w, l)
  {
    hide Claim, Completed;
    var s1 := Next(st, Attempt(w, l));
    var s2 := s1.(pcs := st.pcs[w := Fetched(st.row, l, false)]);
    var s3 := Deciding(st, w, l);
    assert s2.pcs == s1.pcs[w := Fetched(st.row, l, false)] && s3.pcs == s2.pcs[w := s3.pcs[w]];
    states := [st, s1, s2, s3];
  }

  lemma AttemptPath(st: State, w: nat, l: nat) returns (states: seq<State>)
    requires w !in st.pcs && Claimable(st.row, st.clock)
    ensures IsPath(states, AttemptEvents(w, l, st.row.None?)) && states[0] == st && states[4] == Granting(st, w, l)
  {
    var decided := DecidePath(st, w, l);
    var last := if st.row.None? then SetNx(w) else Cas(w);
    GrantStep(st, w, l);
    hide Next, Enabled, Granting, Deciding;
    JoinPaths(decided, [Attempt(w, l), Get(w), Decide(w)], [decided[3], Granting(st, w, l)], [last]);
    states := decided + [decided[3], Granting(st, w, l)][1..];
  }

  lemma GrantStep(st: State, w: nat, l: nat)
    ensures var e := if st.row.None? then SetNx(w) else Cas(w);
            Enabled(Deciding(st, w, l), e) && Next(Deciding(st, w, l), e) == Granting(st, w, l)
  {
    assert Deciding(st, w, l).pcs[w := Granted(|st.grants|)] == st.pcs[w := Granted(|st.grants|)];
  }

  /** A worker that dies after its grant is taken over: once its lease has run out the next attempt is granted. */
  lemma CrashedIsTakenOver(st: State, w: nat, v: nat, to: nat, l: nat) returns (states: seq<State>)
    requires w in st.pcs && v !in st.pcs && st.row.Some? && st.row.value.status.InProgress? && st.row.value.lease.Some?
    requires st.clock <= to && st.row.value.lease.value <= to
    ensures IsPath(states, [Crash(w), Tick(to)] + AttemptEvents(v, l, false)) && states[0] == st
    ensures var row := states[6].row;
            && states[6].pcs == st.pcs[w := Stopped][v := Granted(|st.grants|)] && row.Some?
            && row.value.lease == Some(to + l) && row.value.attempts == st.row.value.attempts + 1
  {
    var dead := Next(st, Crash(w));
    var late := Next(dead, Tick(to));
    var more := AttemptPath(late, v, l);
    JoinPaths([st, dead, late], [Crash(w), Tick(to)], more, AttemptEvents(v, l, false));
    states := [st, dead, late] + more[1..];
    assert states[6] == more[4];
  }

  /**
   A lease longer than the row's TTL is not kept: the row expires with the claim still live, and the
   next attempt creates a fresh one. So the TTL is exactly how long a lease may be.
   */
  lemma LongLeaseIsLost(l: nat) returns (states: seq<State>, events: seq<Event>)
    requires l > 259200
    ensures IsRun(states, events) && |events| == 10 && states[10].longest == l
    ensures |states[10].grants| == 2 && states[10].grants[1].forgiven == 0
    ensures LeaseOf(states[10].grants[0]) > states[10].grants[1].at
  {
    var first := AttemptPath(Initial(), 0, l);
    var late := Next(first[4], Tick(ROW_TTL));
    var gone := Next(late, Expire);
    var second := AttemptPath(gone, 1, 60);
    hide Next, Enabled, Granting;
    JoinPaths([first[4], late, gone], [Tick(ROW_TTL), Expire], second, AttemptEvents(1, 60, true));
    JoinPaths(first, AttemptEvents(0, l, true), [first[4], late, gone] + second[1..],
              [Tick(ROW_TTL), Expire] + AttemptEvents(1, 60, true));
    states := first + ([first[4], late, gone] + second[1..])[1..];
    events := AttemptEvents(0, l, true) + ([Tick(ROW_TTL), Expire] + AttemptEvents(1, 60, true));
    assert states[10] == second[4];
  }

  /** Each grant wrote a row of its own, and each stored claim is taken over at most once. */
  lemma OneGranteePerGeneration(states: seq<State>, events: seq<Event>, n: nat, i: nat, j: nat)
    requires IsRun(states, events) && n < |states| && i < j < |states[n].grants|
    ensures states[n].grants[i].row != states[n].grants[j].row
    ensures states[n].grants[i].over.Some? && states[n].grants[i].over.value.status.InProgress? ==>
              states[n].grants[i].over != states[n].grants[j].over
  {
    RunInv(states, events, n);
    var grants := states[n].grants;
    assert i > 0 ==> grants[i - 1].row != grants[j - 1].row;
  }

  /**
   Every grant is one the lock-based store makes: at that moment the stored row may be claimed there
   too, with the same attempt number; and the lease is never longer than a fresh one would be.
   */
  lemma GrantsRefineInMemory(states: seq<State>, events: seq<Event>, n: nat)
    requires IsRun(states, events) && n < |events|
    requires |states[n + 1].grants| > |states[n].grants|
    ensures Claimable(states[n].row, states[n].clock)
    ensures events[n].SetNx? || events[n].Cas?
    ensures var w := events[n].w;
            w in states[n].pcs && Building(states[n].pcs[w]) && states[n + 1].row.Some? &&
            var stored := states[n + 1].row.value;
            var locked := Claim(states[n].row, states[n].clock, states[n].pcs[w].lease, stored.attemptedAt);
            && stored.(lease := locked.lease) == locked
            && stored.lease.Some? && stored.lease.value <= locked.lease.value
  {
    RunInv(states, events, n);
    var w := events[n].w;
    assert PcSound(states[n].pcs[w], states[n].clock, states[n].stamp, states[n].longest);
  }

  // ---- Terminal rows -------------------------------------------------------------------------------------

  predicate TerminalRow(st: State) { st.row.Some? && Terminal(st.row.value.status) }

  /** The handler's own retry loop only ever records terminal outcomes. */
  predicate Keeps(st: State, e: Event)
  {
    && !e.Expire?
    && (e.OutcomeSet? && e.w in st.pcs && st.pcs[e.w].Finishing? ==> Terminal(st.pcs[e.w].outcome.status))
  }

  /** Once a row is terminal no delivery and no drainer is ever told to proceed on it again. */
  lemma {:induction false} TerminalIsFinal(states: seq<State>, events: seq<Event>, i: nat, j: nat)
    requires IsRun(states, events) && i <= j < |states| && TerminalRow(states[i])
    requires forall k | i <= k < j :: Keeps(states[k], events[k])
    ensures TerminalRow(states[j]) && states[j].grants == states[i].grants
    decreases j
  {
    if i < j {
      TerminalIsFinal(states, events, i, j - 1);
      RunInv(states, events, j - 1);
      hide Inv;
      TerminalStays(states[j - 1], events[j - 1]);
    }
  }

  lemma TerminalStays(st: State, e: Event)
    requires Inv(st) && Enabled(st, e) && Keeps(st, e) && TerminalRow(st)
    ensures TerminalRow(Next(st, e)) && Next(st, e).grants == st.grants
  {
    if e.Cas? {
      assert PcSound(st.pcs[e.w], st.clock, st.stamp, st.longest);
    }
  }

  // ---- Completions -------------------------------------------------------------------------------------------

  /** The grant a worker acts under, if any. */
  function GrantOf(pc: Pc): Option<nat>
  {
    if pc.Granted? then Some(pc.grant) else if pc.Finishing? then pc.nth else None
  }

  /** A worker told to proceed acts under its own grant. */
  predicate GranteesKnown(st: State)
  {
    forall w <- st.pcs :: GrantOf(st.pcs[w]).Some? ==>
      GrantOf(st.pcs[w]).value < |st.grants| && st.grants[GrantOf(st.pcs[w]).value].worker == w
  }

  lemma NextGranteesKnown(st: State, e: Event)
    requires GranteesKnown(st) && Enabled(st, e)
    ensures GranteesKnown(Next(st, e))
  {
    hide Claimable, Claim, Completed;
    var st' := Next(st, e);
    forall w <- st'.pcs | GrantOf(st'.pcs[w]).Some?
      ensures GrantOf(st'.pcs[w]).value < |st'.grants| && st'.grants[GrantOf(st'.pcs[w]).value].worker == w
    {
      assert st'.pcs[w] != Granted(|st.grants|) ==> w in st.pcs && GrantOf(st.pcs[w]) == GrantOf(st'.pcs[w]);
    }
  }

  lemma {:induction false} RunGranteesKnown(states: seq<State>, events: seq<Event>, n: nat)
    requires IsRun(states, events) && n < |states|
    ensures GranteesKnown(states[n])
  {
    if n > 0 {
      RunGranteesKnown(states, events, n - 1);
      hide GranteesKnown, Next, Enabled;
      NextGranteesKnown(states[n - 1], events[n - 1]);
    }
  }

  /** Terminal outcomes give nothing up. */
  lemma {:induction false} NothingGivenUp(states: seq<State>, events: seq<Event>, n: nat)
    requires IsRun(states, events) && n < |states|
    requires forall k | 0 <= k < n :: Keeps(states[k], events[k])
    ensures states[n].forgiven == 0
    ensures forall j | 0 <= j < |states[n].grants| :: states[n].grants[j].forgiven == 0
  {
    if n > 0 {
      NothingGivenUp(states, events, n - 1);
      hide Claimable, Claim, Completed;
    }
  }

  /** A grantee writes its outcome. */
  predicate Completes(st: State, e: Event)
  {
    e.OutcomeSet? && e.w in st.pcs && GrantOf(st.pcs[e.w]).Some? && GrantOf(st.pcs[e.w]).value < |st.grants|
  }

  function GrantBehind(st: State, e: Event): nat
    requires Completes(st, e)
  {
    GrantOf(st.pcs[e.w]).value
  }

  predicate InTime(st: State, e: Event)
    requires Completes(st, e)
  {
    st.clock < LeaseOf(st.grants[GrantBehind(st, e)])
  }

  /**
   At most one worker completes an event in time. While rows are kept and outcomes are terminal, of
   two workers that were told to proceed and wrote an outcome, the one granted first wrote it when its
   lease had already run out.
   */
  lemma SecondCompletionIsLate(states: seq<State>, events: seq<Event>, i: nat, j: nat)
    requires IsRun(states, events) && i < j < |events|
    requires Completes(states[i], events[i]) && Completes(states[j], events[j])
    requires LeasesFit(states[j]) && forall k | 0 <= k <= j :: Keeps(states[k], events[k])
    ensures var a, b := GrantBehind(states[i], events[i]), GrantBehind(states[j], events[j]);
            a != b && !(if a < b then InTime(states[i], events[i]) else InTime(states[j], events[j]))
  {
    OutcomeEnds(states[i], events[i]);
    assert states[i + 1] == Next(states[i], events[i]);
    hide IsRun, IsPath, Next, Enabled, Claimable, Claim;
    var a, b := GrantBehind(states[i], events[i]), GrantBehind(states[j], events[j]);
    TerminalIsFinal(states, events, i + 1, j);
    GrantsApart(states, events, i, j);
    NothingGivenUp(states, events, j);
    NoGrantOverLiveLease(states, events, j, if a < b then a else b, if a < b then b else a);
    RunInv(states, events, i);
    ClockRuns(states, events, i, j);
    assert GrantSound(states[i].grants[if a < b then b else a], states[i]);
  }

  /** An outcome is the last thing a worker does, and leaves the row terminal. */
  lemma OutcomeEnds(st: State, e: Event)
    requires Enabled(st, e) && Completes(st, e) && Keeps(st, e)
    ensures TerminalRow(Next(st, e)) && Next(st, e).grants == st.grants
    ensures e.w in Next(st, e).pcs && Next(st, e).pcs[e.w].Stopped?
  {
  }

  lemma {:induction false} StoppedStays(states: seq<State>, events: seq<Event>, i: nat, j: nat, w: nat)
    requires IsRun(states, events) && i <= j < |states| && w in states[i].pcs && states[i].pcs[w].Stopped?
    ensures w in states[j].pcs && states[j].pcs[w].Stopped?
    decreases j
  {
    if i < j {
      StoppedStays(states, events, i, j - 1, w);
      hide Claimable, Claim, Completed;
    }
  }

  lemma GrantsApart(states: seq<State>, events: seq<Event>, i: nat, j: nat)
    requires IsRun(states, events) && i < j < |events|
    requires Completes(states[i], events[i]) && Completes(states[j], events[j])
    requires Keeps(states[i], events[i]) && states[j].grants == states[i].grants
    ensures GrantBehind(states[i], events[i]) != GrantBehind(states[j], events[j])
  {
    RunGranteesKnown(states, events, i);
    RunGranteesKnown(states, events, j);
    OutcomeEnds(states[i], events[i]);
    StoppedStays(states, events, i + 1, j, events[i].w);
  }

  lemma {:induction false} ClockRuns(states: seq<State>, events: seq<Event>, i: nat, j: nat)
    requires IsRun(states, events) && i <= j < |states|
    ensures states[i].clock <= states[j].clock
    decreases j
  {
    if i < j {
      ClockRuns(states, events, i, j - 1);
      hide Claimable, Claim, Completed;
    }
  }

  /** So if every worker that proceeds finishes before its lease runs out, at most one outcome is written. */
  lemma AtMostOneTimelyCompletion(states: seq<State>, events: seq<Event>, i: nat, j: nat)
    requires IsRun(states, events) && i < j < |events| && Completes(states[i], events[i])
    requires LeasesFit(states[j]) && forall k | 0 <= k <= j :: Keeps(states[k], events[k])
    requires forall k | 0 <= k <= j && Completes(states[k], events[k]) :: InTime(states[k], events[k])
    ensures !Completes(states[j], events[j])
  {
    assert |states| == |events| + 1;
    hide IsRun, Completes, InTime, Keeps, LeasesFit;
    if Completes(states[j], events[j]) {
      SecondCompletionIsLate(states, events, i, j);
    }
  }

  /** A grantee's last two commands. */
  lemma OutcomePath(st: State, w: nat, o: Outcome) returns (states: seq<State>)
    requires w in st.pcs && st.pcs[w].Granted? && st.row.Some? && Terminal(o.status)
    ensures IsPath(states, [OutcomeGet(w, o), OutcomeSet(w)]) && states[0] == st
    ensures states[2] == st.(row := Some(Completed(st.row.value, o, st.clock)), setAt := st.clock,
                             pcs := st.pcs[w := Stopped])
    ensures Keeps(states[0], OutcomeGet(w, o)) && Keeps(states[1], OutcomeSet(w))
    ensures st.pcs[w].grant < |st.grants| ==> Completes(states[1], OutcomeSet(w))
  {
    var got := Next(st, OutcomeGet(w, o));
    assert got.pcs[w := Stopped] == st.pcs[w := Stopped];
    states := [st, got, Next(got, OutcomeSet(w))];
  }

  /**
   The lease is not renewed while a handler runs or sleeps between its retries. A worker still running
   when it ends is joined by a second one, and both run the handler to an outcome.
   */
  lemma SlowWorkerCompletesTwice(l: nat, o: Outcome) returns (states: seq<State>, events: seq<Event>)
    requires Terminal(o.status)
    ensures IsRun(states, events) && |events| == 13
    ensures forall k | 0 <= k < |events| :: Keeps(states[k], events[k])
    ensures Completes(states[10], events[10]) && Completes(states[12], events[12])
  {
    var first := AttemptPath(Initial(), 0, l);
    var late := Next(first[4], Tick(l));
    var second := AttemptPath(late, 1, l);
    var fast := OutcomePath(second[4], 1, o);
    var slow := OutcomePath(fast[2], 0, o);
    hide Next, Enabled, Granting, Completed, Completes, Keeps;
    var es1, es2 := AttemptEvents(0, l, true) + [Tick(l)], AttemptEvents(1, l, false);
    var out1, out2 := [OutcomeGet(1, o), OutcomeSet(1)], [OutcomeGet(0, o), OutcomeSet(0)];
    JoinPaths(first, AttemptEvents(0, l, true), [first[4], late], [Tick(l)]);
    JoinPaths(first + [late], es1, second, es2);
    JoinPaths(first + [late] + second[1..], es1 + es2, fast, out1);
    JoinPaths(first + [late] + second[1..] + fast[1..], es1 + es2 + out1, slow, out2);
    states := first + [late] + second[1..] + fast[1..] + slow[1..];
    events := es1 + es2 + out1 + out2;
  }

  // ---- The reclaim without compare-and-swap -----------------------------------------------------------------

  /** `DDBLedgerStore` overwrites the row it decided to reclaim, whatever it holds by then. */
  function UnconditionalPut(st: State, w: nat): State
    requires w in st.pcs && st.pcs[w].Claiming?
  {
    GrantTo(st, w, st.pcs[w].row)
  }

  /**
   Two drainers have read the same stale row. On Redis the first one to swap wins and the other
   stops. With the unconditional put both proceed, the second over the first one's live lease.
   */
  lemma ReclaimRace(st: State, v: nat, w: nat)
    requires Inv(st) && v != w && v in st.pcs && w in st.pcs && st.pcs[v].Claiming? && st.pcs[w].Claiming?
    requires st.row == Some(st.pcs[v].expected) == Some(st.pcs[w].expected)
    ensures var swapped := Next(Next(st, Cas(v)), Cas(w));
            swapped.grants == Next(st, Cas(v)).grants && swapped.pcs[v].Granted? && swapped.pcs[w].Stopped?
    ensures var put := UnconditionalPut(UnconditionalPut(st, v), w);
            var n := |st.grants|;
            && |put.grants| == n + 2 && put.pcs[v].Granted? && put.pcs[w].Granted?
            && put.grants[n + 1].forgiven <= n
            && (st.pcs[v].row.lease.value > st.clock ==> LeaseOf(put.grants[n]) > put.grants[n + 1].at)
  {
    assert PcSound(st.pcs[v], st.clock, st.stamp, st.longest) && PcSound(st.pcs[w], st.clock, st.stamp, st.longest);
  }
}
