/**
 Admission and the activation ledger as a step machine. Every event is one atomic Redis script, one
 Redis command or one ledger write; between two events of a call any other call may run, and the
 call's process may die. A converge is a listing of ids, a read of each row, and a write of each
 slot, all apart. `orphan` and `phantom` are bookkeeping only: what is on a level and no row and no
 running call accounts for, and what they account for and is not on the level.
 */
module LedgerMachine {
  import opened Prelude
  import opened Sums
  import opened Gauges
  import opened Activations

  /** Where a call is between its two atomic steps. */
  datatype Call =
    // acquire: refused; over, unless shadow mode runs a second script
    | TurnedDown(row: Activation, specs: seq<Spec>, key: Option<string>)
    | Spent(row: Activation)                 // acquire: counters spent, row not yet written
    | Releasing(id: Id, left: Charge)        // release: row RELEASED, `left` not yet decremented
    | Settling(id: Id, cost: string)         // Redis settle: first of its two attempts has failed
    | Finished

  /** A pass over one org's ledger: the ids still to be read, and the OPEN rows read so far. */
  datatype Listing = Listing(org: Org, todo: set<Id>, opens: seq<Activation>)

  /** The latch of one decrement: activation, resource, and the user's create generation. */
  datatype Claim = Claim(id: Id, rk: Resource, generation: nat)

  datatype IdemKey = IdemKey(org: Org, rk: Resource, key: string)

  datatype State = State(
    levels: Levels,
    generations: map<Slot, nat>,
    claims: set<Claim>,
    idem: set<IdemKey>,
    rows: Rows,
    calls: map<nat, Call>,
    listings: map<nat, Listing>,
    orphan: Levels,
    phantom: Levels)

  datatype Event =
    | Acquire(call: nat, row: Activation, specs: seq<Spec>, key: Option<string>)
    | ShadowRetry(call: nat, row: Activation, specs: seq<Spec>, key: Option<string>)   // once more, without limits
    | Record(call: nat)
    | LoseAcquire(call: nat)                 // process dies, or `put_open` raises: acquire fails closed
    | BeginRelease(call: nat, id: Id)
    | Decrement(call: nat, rk: Resource)
    | LoseRelease(call: nat)
    | Settle(id: Id, cost: string)           // the in-memory store: one atomic write
    | SettleReleased(call: nat, id: Id, cost: string)
    | SettleOpen(call: nat)
    | ListIds(pass: nat, org: Org, ids: set<Id>)
    | ListRow(pass: nat, rowId: Id)
    | ConvergeWrite(pass: nat, slot: Slot)   // a reset of one slot, or the delete of a stale user
    | EndPass(pass: nat)                     // done with the org, or dead
    | ProviderWrite(target: Slot, level: real)
    | ExpireClaim(claim: Claim)
    | ExpireIdem(expired: IdemKey)

  function Initial(): State { State(map[], map[], {}, {}, map[], map[], map[], map[], map[]) }

  // ---- Sums over the running calls --------------------------------------------------------

  function UnrecordedWeight(c: Call, s: Slot): real { if c.Spent? then Weight(c.row.charge, s) else 0.0 }

  function PendingWeight(c: Call, s: Slot): real { if c.Releasing? then Weight(c.left, s) else 0.0 }

  function UnrecordedWeights(calls: map<nat, Call>, s: Slot): map<nat, real>
  {
    map c | c in calls :: UnrecordedWeight(calls[c], s)
  }

  function PendingWeights(calls: map<nat, Call>, s: Slot): map<nat, real>
  {
    map c | c in calls :: PendingWeight(calls[c], s)
  }

  /** Spent by an acquire that has not written its row. */
  ghost function Unrecorded(calls: map<nat, Call>, s: Slot): real { Sum(UnrecordedWeights(calls, s)) }

  /** Marked RELEASED by a release that has not decremented. */
  ghost function Undecremented(calls: map<nat, Call>, s: Slot): real { Sum(PendingWeights(calls, s)) }

  lemma CallsUpdate(calls: map<nat, Call>, c: nat, call: Call, s: Slot)
    ensures Unrecorded(calls[c := call], s) == Unrecorded(calls, s)
              - (if c in calls then UnrecordedWeight(calls[c], s) else 0.0) + UnrecordedWeight(call, s)
    ensures Undecremented(calls[c := call], s) == Undecremented(calls, s)
              - (if c in calls then PendingWeight(calls[c], s) else 0.0) + PendingWeight(call, s)
  {
    UnrecordedUpdate(calls, c, call, s);
    PendingUpdate(calls, c, call, s);
    SumUpdate(UnrecordedWeights(calls, s), c, UnrecordedWeight(call, s));
    SumUpdate(PendingWeights(calls, s), c, PendingWeight(call, s));
  }

  lemma UnrecordedUpdate(calls: map<nat, Call>, c: nat, call: Call, s: Slot)
    ensures UnrecordedWeights(calls[c := call], s) == UnrecordedWeights(calls, s)[c := UnrecordedWeight(call, s)]
  {
  }

  lemma PendingUpdate(calls: map<nat, Call>, c: nat, call: Call, s: Slot)
    ensures PendingWeights(calls[c := call], s) == PendingWeights(calls, s)[c := PendingWeight(call, s)]
  {
  }

  // ---- Steps --------------------------------------------------------------------------------

  /** The generation a user's decrement latch is scoped by; org-only decrements have one latch. */
  function Generation(generations: map<Slot, nat>, c: Charge, rk: Resource): nat
  {
    if c.user.None? then 0
    else
      var s := UserSlot(c.org, rk, c.user.value);
      if s in generations then generations[s] else 0
  }

  /** Every admission moves its user to a new generation on each gauge it spends. */
  function BumpGenerations(generations: map<Slot, nat>, c: Charge): map<Slot, nat>
  {
    if c.user.None? then generations
    else
      var bumped := set rk <- c.spend :: UserSlot(c.org, rk, c.user.value);
      map s | s in generations.Keys + bumped ::
        (if s in generations then generations[s] else 0) + (if s in bumped then 1 else 0)
  }

  predicate FreshId(st: State, id: Id)
  {
    id !in st.rows && forall c <- st.calls :: st.calls[c].Spent? ==> st.calls[c].row.id != id
  }

  /** The OPEN row that an acquire of the bundle may write. */
  predicate NewRow(st: State, row: Activation, specs: seq<Spec>)
  {
    && FreshId(st, row.id) && WellFormed(specs)
    && row.state == Open && row.cost == None && row.charge.spend == SpendOf(specs)
  }

  /** No acquire or release of the org is between its two steps. */
  predicate Quiescent(st: State, org: Org)
  {
    forall c <- st.calls ::
      && (st.calls[c].Spent? ==> st.calls[c].row.charge.org != org)
      && (st.calls[c].Releasing? ==> st.calls[c].left.org != org)
  }

  /** What the ledger and the running calls account for on a slot. */
  ghost function Accounted(rows: Rows, calls: map<nat, Call>, s: Slot): real
  {
    OpenSum(rows, s) + Unrecorded(calls, s) + Undecremented(calls, s)
  }

  ghost function Committed(st: State, s: Slot): real { Accounted(st.rows, st.calls, s) }

  predicate Enabled(st: State, e: Event)
  {
    match e
    case Acquire(c, row, specs, key) => c !in st.calls && NewRow(st, row, specs)
    case ShadowRetry(c, row, specs, key) => c in st.calls && st.calls[c] == TurnedDown(row, specs, key) && NewRow(st, row, specs)
    case Record(c) => c in st.calls && st.calls[c].Spent?
    case LoseAcquire(c) => c in st.calls && st.calls[c].Spent?
    case BeginRelease(c, id) => c !in st.calls
    case Decrement(c, rk) => c in st.calls && st.calls[c].Releasing? && rk in st.calls[c].left.spend
    case LoseRelease(c) => c in st.calls && st.calls[c].Releasing?
    case Settle(id, cost) => true
    case SettleReleased(c, id, cost) => c !in st.calls
    case SettleOpen(c) => c in st.calls && st.calls[c].Settling?
    // any ids of the org's rows, as far as the limit: an index may hold rows that are closed by now
    case ListIds(p, org, ids) =>
      && p !in st.listings && |ids| <= LIST_LIMIT
      && forall id <- ids :: id in st.rows && st.rows[id].charge.org == org
    case ListRow(p, id) => p in st.listings && id in st.listings[p].todo && id in st.rows
    case ConvergeWrite(p, s) => p in st.listings && st.listings[p].todo == {} && s.org == st.listings[p].org
    case EndPass(p) => p in st.listings
    case ProviderWrite(s, level) => true
    case ExpireClaim(claim) => true
    case ExpireIdem(k) => true
  }

  /** The latch key of an acquire hangs off the first gauge of the bundle; an empty key is none. */
  function AcquireKey(row: Activation, specs: seq<Spec>, key: Option<string>): Option<IdemKey>
  {
    if HasKey(key) && specs != [] then Some(IdemKey(row.charge.org, specs[0].rk, key.value)) else None
  }

  predicate Admits(st: State, row: Activation, specs: seq<Spec>, key: Option<string>)
  {
    FirstFailing(st.levels, row.charge.org, row.charge.user, specs).None?
  }

  predicate Duplicate(st: State, row: Activation, specs: seq<Spec>, key: Option<string>)
  {
    var k := AcquireKey(row, specs, key);
    k.Some? && k.value in st.idem
  }

  /** The script spends, rather than refuse or recognise a replay. */
  predicate Spends(st: State, row: Activation, specs: seq<Spec>, key: Option<string>)
  {
    !Duplicate(st, row, specs, key) && Admits(st, row, specs, key)
  }

  /** The spend of an admission, all at once. */
  function Spending(st: State, c: nat, row: Activation, k: Option<IdemKey>): State
  {
    st.(levels := AddCharge(st.levels, row.charge),
        generations := BumpGenerations(st.generations, row.charge),
        idem := st.idem + (if k.Some? then {k.value} else {}),
        calls := st.calls[c := Spent(row)])
  }

  /** What the zero floor keeps back of a decrement had not been on the level. */
  function Forgiven(phantom: Levels, m: Levels, org: Org, user: Option<User>, rk: Resource, delta: real): Levels
  {
    map s | s in phantom.Keys + SlotsOf(org, user, rk) ::
      Level(phantom, s) - if s in SlotsOf(org, user, rk) then Max0(delta - Level(m, s)) else 0.0
  }

  /** One write of a converge: a listed slot is reset, the key of a user not listed is deleted. */
  function WriteSlot(m: Levels, opens: seq<Activation>, s: Slot): Levels
  {
    if s.UserSlot? && (forall a <- opens :: a.charge.user != Some(s.user)) then m - {s} else m[s := ListedSum(opens, s)]
  }

  ghost function Next(st: State, e: Event): State
    requires Enabled(st, e)
  {
    match e
    case Acquire(c, row, specs, key) =>
      if Spends(st, row, specs, key) then Spending(st, c, row, AcquireKey(row, specs, key))
      else st.(calls := st.calls[c := if Duplicate(st, row, specs, key) then Finished else TurnedDown(row, specs, key)])
    // the answer is overwritten: a replay goes on to write its row too
    case ShadowRetry(c, row, specs, key) =>
      if !Duplicate(st, row, specs, key) then Spending(st, c, row, AcquireKey(row, specs, key))
      else st.(phantom := AddCharge(st.phantom, row.charge), calls := st.calls[c := Spent(row)])
    case Record(c) =>
      st.(rows := PutOpen(st.rows, st.calls[c].row), calls := st.calls[c := Finished])
    case LoseAcquire(c) =>
      st.(orphan := AddCharge(st.orphan, st.calls[c].row.charge), calls := st.calls[c := Finished])
    case BeginRelease(c, id) =>
      if CanRelease(st.rows, id) then
        st.(rows := MarkReleased(st.rows, id), calls := st.calls[c := Releasing(id, st.rows[id].charge)])
      else
        st.(calls := st.calls[c := Finished])
    case Decrement(c, rk) =>
      var call := st.calls[c];
      var claim := Claim(call.id, rk, Generation(st.generations, call.left, rk));
      var rest := call.left.(spend := call.left.spend - {rk});
      var after := st.(calls := st.calls[c := Releasing(call.id, rest)]);
      if claim in st.claims then after
      else after.(claims := st.claims + {claim},
                  levels := Subtract(st.levels, call.left.org, call.left.user, rk, call.left.spend[rk]),
                  phantom := Forgiven(st.phantom, st.levels, call.left.org, call.left.user, rk, call.left.spend[rk]))
    case LoseRelease(c) =>
      st.(orphan := AddCharge(st.orphan, st.calls[c].left), calls := st.calls[c := Finished])
    case Settle(id, cost) => SettleRow(st, id, cost)
    case SettleReleased(c, id, cost) =>
      if id in st.rows && st.rows[id].state == Released then
        SettleRow(st, id, cost).(calls := st.calls[c := Finished])
      else
        st.(calls := st.calls[c := Settling(id, cost)])
    case SettleOpen(c) =>
      var call := st.calls[c];
      (if CanRelease(st.rows, call.id) then SettleRow(st, call.id, call.cost) else st)
      .(calls := st.calls[c := Finished])
    case ListIds(p, org, ids) => st.(listings := st.listings[p := Listing(org, ids, [])])
    case ListRow(p, id) =>
      var l := st.listings[p];
      var read := if st.rows[id].state == Open then [st.rows[id]] else [];
      st.(listings := st.listings[p := l.(todo := l.todo - {id}, opens := l.opens + read)])
    case ConvergeWrite(p, s) =>
      var opens := st.listings[p].opens;
      st.(levels := WriteSlot(st.levels, opens, s),
          orphan := st.orphan[s := Max0(ListedSum(opens, s) - Committed(st, s))],
          phantom := st.phantom[s := Max0(Committed(st, s) - ListedSum(opens, s))])
    case EndPass(p) => st.(listings := st.listings - {p})
    case ProviderWrite(s, level) =>
      st.(levels := st.levels[s := level],
          orphan := st.orphan[s := Max0(level - Committed(st, s))],
          phantom := st.phantom[s := Max0(Committed(st, s) - level)])
    case ExpireClaim(claim) => st.(claims := st.claims - {claim})
    case ExpireIdem(k) => st.(idem := st.idem - {k})
  }

  /** Settling an OPEN row strands its spend: nothing can release it any more. */
  function SettleRow(st: State, id: Id, cost: string): State
  {
    st.(rows := MarkSettled(st.rows, id, cost),
        orphan := if CanRelease(st.rows, id) then AddCharge(st.orphan, st.rows[id].charge) else st.orphan)
  }

  /**
   What the writers of a level must be spared. While a pass over an org lasts, from its listing to
   its last write, nothing of that org is admitted, and no row it has yet to read is released. It
   lists every OPEN row, at a moment with no call of the org between its steps. And the provider
   reports no less than what the ledger and the running calls account for.
   */
  ghost predicate Calm(st: State, e: Event)
  {
    match e
    case Acquire(c, row, specs, key) =>
      Spends(st, row, specs, key) ==> forall p <- st.listings :: st.listings[p].org != row.charge.org
    case ShadowRetry(c, row, specs, key) => forall p <- st.listings :: st.listings[p].org != row.charge.org
    case BeginRelease(c, id) =>
      CanRelease(st.rows, id) ==> forall p <- st.listings :: id !in st.listings[p].todo
    case ListIds(p, org, ids) => Quiescent(st, org) && OpenIds(st.rows, org) <= ids
    case ProviderWrite(s, level) => Committed(st, s) <= level
    case _ => true
  }

  // ---- Kinds of steps ----------------------------------------------------------------------------

  predicate WritesRows(e: Event)
  {
    e.Record? || e.BeginRelease? || e.Settle? || e.SettleReleased? || e.SettleOpen?
  }

  /** The scripts of an acquire. */
  predicate Acquiring(e: Event) { e.Acquire? || e.ShadowRetry? }

  /** Steps of a call that spend, decrement, or die. */
  predicate MovesCalls(e: Event) { Acquiring(e) || e.LoseAcquire? || e.Decrement? || e.LoseRelease? }

  /** Neither rows nor calls: the passes, the provider, and what expires. */
  predicate Passive(e: Event) { !WritesRows(e) && !MovesCalls(e) }

  predicate WritesLevels(e: Event) { Acquiring(e) || e.Decrement? || e.ConvergeWrite? || e.ProviderWrite? }

  /** What was accounted for is not any more, and no level is written: it becomes an orphan. */
  predicate Strands(e: Event)
  {
    e.LoseAcquire? || e.LoseRelease? || e.Settle? || e.SettleReleased? || e.SettleOpen?
  }

  lemma LevelsKept(st: State, e: Event)
    requires Enabled(st, e) && !WritesLevels(e)
    ensures Next(st, e).levels == st.levels
  {
    hide AddCharge, Subtract, Forgiven, WriteSlot, BumpGenerations, Accounted, NewRow, AcquireKey, Generation, Spends, Duplicate,
         Max0, ListedSum, PutOpen, MarkReleased, MarkSettled;
    match e
    case Record(_) =>
    case LoseAcquire(_) =>
    case BeginRelease(_, _) =>
    case LoseRelease(_) =>
    case Settle(_, _) =>
    case SettleReleased(_, _, _) =>
    case SettleOpen(_) =>
    case _ =>
  }

  lemma OrphansKept(st: State, e: Event)
    requires Enabled(st, e) && !WritesLevels(e) && !Strands(e)
    ensures Next(st, e).orphan == st.orphan && Next(st, e).phantom == st.phantom
  {
    hide AddCharge, Subtract, Forgiven, WriteSlot, BumpGenerations, Accounted, NewRow, AcquireKey, Generation, Spends, Duplicate,
         Max0, ListedSum, PutOpen, MarkReleased, MarkSettled, SettleRow;
    match e
    case Record(_) =>
    case BeginRelease(_, _) =>
    case _ =>
  }

  /** Steps of a pass on what it has read. */
  predicate Reads(e: Event) { e.ListIds? || e.ListRow? || e.EndPass? }

  lemma ListingsKept(st: State, e: Event)
    requires Enabled(st, e) && !Reads(e)
    ensures Next(st, e).listings == st.listings
  {
    hide AddCharge, Subtract, Forgiven, WriteSlot, BumpGenerations, Committed, NewRow, AcquireKey, Generation, Spends, Duplicate,
         Max0, PutOpen, MarkReleased, MarkSettled;
    match e
    case Acquire(_, _, _, _) =>
    case Decrement(_, _) =>
    case Settle(_, _) =>
    case _ =>
  }

  lemma RowsKept(st: State, e: Event)
    requires Enabled(st, e) && !WritesRows(e)
    ensures Next(st, e).rows == st.rows
    ensures Passive(e) ==> Next(st, e).calls == st.calls
  {
    if Passive(e) {
      PassiveKeeps(st, e);
    } else {
      CallsKeepRows(st, e);
    }
    hide Next, Enabled;
  }

  lemma PassiveKeeps(st: State, e: Event)
    requires Enabled(st, e) && Passive(e)
    ensures Next(st, e).rows == st.rows && Next(st, e).calls == st.calls
  {
    hide WriteSlot, Accounted, Max0, ListedSum;
  }

  lemma CallsKeepRows(st: State, e: Event)
    requires Enabled(st, e) && MovesCalls(e)
    ensures Next(st, e).rows == st.rows
  {
    hide AddCharge, Subtract, Forgiven, BumpGenerations, NewRow, AcquireKey, Generation, Spends, Duplicate;
    match e
    case Acquire(_, _, _, _) =>
    case ShadowRetry(_, _, _, _) =>
    case Decrement(_, _) =>
    case _ =>
  }

  /** The script of an acquire that spends: the first, or in shadow mode the second. */
  predicate SpendsAt(st: State, e: Event)
  {
    || (e.Acquire? && Spends(st, e.row, e.specs, e.key))
    || (e.ShadowRetry? && !Duplicate(st, e.row, e.specs, e.key))
  }

  /** A first script that neither spends nor finds its key taken. */
  predicate TurnsDown(st: State, e: Event, c: nat, call: Call)
  {
    && e.Acquire? && e.call == c && c !in st.calls && call == TurnedDown(e.row, e.specs, e.key)
    && !Duplicate(st, e.row, e.specs, e.key) && !SpendsAt(st, e)
  }

  /** What a release owes it owed before, or the row was OPEN. */
  predicate StillOwes(st: State, c: nat, call: Call)
    requires call.Releasing?
  {
    || CanRelease(st.rows, call.id)
    || (c in st.calls && st.calls[c].Releasing? && st.calls[c].id == call.id
        && call.left.spend.Keys <= st.calls[c].left.spend.Keys)
  }

  /** A step moves on one call at most. */
  lemma NextCalls(st: State, e: Event) returns (c: nat, call: Call)
    requires Enabled(st, e)
    ensures Next(st, e).calls == st.calls || Next(st, e).calls == st.calls[c := call]
    ensures call.TurnedDown? ==> TurnsDown(st, e, c, call)
    ensures call.Releasing? ==> StillOwes(st, c, call)
  {
    hide Next, Enabled, TurnsDown, StillOwes, WritesRows;
    if Passive(e) {
      RowsKept(st, e);
      c, call := 0, Finished;
    } else if Acquiring(e) {
      c, call := AcquiringCall(st, e);
    } else if WritesRows(e) {
      c, call := WritingCall(st, e);
    } else {
      c, call := MovingCall(st, e);
    }
  }

  lemma AcquiringCall(st: State, e: Event) returns (c: nat, call: Call)
    requires Enabled(st, e) && Acquiring(e)
    ensures Next(st, e).calls == st.calls[c := call]
    ensures call.TurnedDown? ==> TurnsDown(st, e, c, call)
    ensures !call.Releasing?
  {
    hide AddCharge, BumpGenerations, NewRow, Duplicate, Admits, AcquireKey;
    c := e.call;
    if SpendsAt(st, e) || e.ShadowRetry? {
      call := Spent(e.row);
    } else if Duplicate(st, e.row, e.specs, e.key) {
      call := Finished;
    } else {
      call := TurnedDown(e.row, e.specs, e.key);
    }
  }

  lemma WritingCall(st: State, e: Event) returns (c: nat, call: Call)
    requires Enabled(st, e) && WritesRows(e)
    ensures Next(st, e).calls == st.calls || Next(st, e).calls == st.calls[c := call]
    ensures !call.TurnedDown? && (call.Releasing? ==> StillOwes(st, c, call))
  {
    c, call := 0, Finished;
    hide AddCharge, PutOpen, MarkReleased, MarkSettled;
    match e
    case Record(d) => c := d;
    case BeginRelease(d, id) => c, call := d, if CanRelease(st.rows, id) then Releasing(id, st.rows[id].charge) else Finished;
    case SettleReleased(d, id, cost) =>
      c, call := d, if id in st.rows && st.rows[id].state == Released then Finished else Settling(id, cost);
    case SettleOpen(d) => c := d;
    case _ =>
  }

  lemma MovingCall(st: State, e: Event) returns (c: nat, call: Call)
    requires Enabled(st, e) && MovesCalls(e) && !Acquiring(e)
    ensures Next(st, e).calls == st.calls[c := call]
    ensures !call.TurnedDown? && (call.Releasing? ==> StillOwes(st, c, call))
  {
    c, call := e.call, Finished;
    hide AddCharge, Subtract, Forgiven, Generation;
    if e.Decrement? {
      var left := st.calls[e.call].left;
      call := Releasing(st.calls[e.call].id, left.(spend := left.spend - {e.rk}));
    }
  }

  // ---- What holds in every run -----------------------------------------------------------------

  predicate RowsSound(rows: Rows)
  {
    Faithful(rows) && forall id <- rows :: NonNegative(rows[id].charge)
  }

  predicate SpentSound(rows: Rows, calls: map<nat, Call>)
  {
    && (forall c <- calls | calls[c].Spent? ::
          && NonNegative(calls[c].row.charge) && calls[c].row.id !in rows
          && calls[c].row.state == Open && calls[c].row.cost == None)
    && (forall c, d | c in calls && d in calls && c != d && calls[c].Spent? && calls[d].Spent? ::
          calls[c].row.id != calls[d].row.id)
  }

  /** A running release owns a row that is no longer OPEN, and is the only one that does. */
  predicate ReleasingSound(rows: Rows, calls: map<nat, Call>)
  {
    && (forall c <- calls | calls[c].Releasing? ::
          calls[c].id in rows && rows[calls[c].id].state != Open && NonNegative(calls[c].left))
    && (forall c, d | c in calls && d in calls && c != d && calls[c].Releasing? && calls[d].Releasing? ::
          calls[c].id != calls[d].id)
  }

  /** A latch is only ever held for a resource its release has already decremented. */
  predicate ClaimsSound(rows: Rows, calls: map<nat, Call>, claims: set<Claim>)
  {
    forall k <- claims ::
      && k.id in rows && rows[k.id].state != Open
      && forall c <- calls | calls[c].Releasing? && calls[c].id == k.id :: k.rk !in calls[c].left.spend
  }

  /** A pass only waits for rows that are there. */
  predicate ListingsSound(rows: Rows, listings: map<nat, Listing>)
  {
    forall p <- listings :: listings[p].todo <= rows.Keys
  }

  predicate Sound(st: State)
  {
    && RowsSound(st.rows) && SpentSound(st.rows, st.calls) && ReleasingSound(st.rows, st.calls)
    && ClaimsSound(st.rows, st.calls, st.claims) && ListingsSound(st.rows, st.listings)
  }

  /** Rows that only move forward keep what is said of releases, latches and passes. */
  lemma RowsOnward(rows: Rows, rows': Rows, calls: map<nat, Call>, claims: set<Claim>, listings: map<nat, Listing>)
    requires RowsAdvance(rows, rows')
    requires ReleasingSound(rows, calls) && ClaimsSound(rows, calls, claims) && ListingsSound(rows, listings)
    ensures ReleasingSound(rows', calls) && ClaimsSound(rows', calls, claims) && ListingsSound(rows', listings)
  {
    assert forall id <- rows :: id in rows' && Advances(rows[id], rows'[id]);
  }

  lemma SettledRowSound(rows: Rows, id: Id, cost: string, calls: map<nat, Call>)
    requires RowsSound(rows) && SpentSound(rows, calls)
    ensures RowsSound(MarkSettled(rows, id, cost)) && SpentSound(MarkSettled(rows, id, cost), calls)
  {
  }

  /** A call that neither spends nor releases. */
  lemma IdleCall(rows: Rows, calls: map<nat, Call>, claims: set<Claim>, c: nat, call: Call)
    requires call.Finished? || call.Settling? || call.TurnedDown?
    requires SpentSound(rows, calls) && ReleasingSound(rows, calls) && ClaimsSound(rows, calls, claims)
    ensures SpentSound(rows, calls[c := call]) && ReleasingSound(rows, calls[c := call])
    ensures ClaimsSound(rows, calls[c := call], claims)
  {
  }

  lemma SpentCall(rows: Rows, calls: map<nat, Call>, claims: set<Claim>, c: nat, row: Activation)
    requires SpentSound(rows, calls) && ReleasingSound(rows, calls) && ClaimsSound(rows, calls, claims)
    requires c !in calls || calls[c].TurnedDown?
    requires NonNegative(row.charge) && row.state == Open && row.cost == None
    requires row.id !in rows && forall d <- calls :: calls[d].Spent? ==> calls[d].row.id != row.id
    ensures SpentSound(rows, calls[c := Spent(row)]) && ReleasingSound(rows, calls[c := Spent(row)])
    ensures ClaimsSound(rows, calls[c := Spent(row)], claims)
  {
    hide NonNegative;
  }

  lemma RecordedRow(rows: Rows, calls: map<nat, Call>, c: nat)
    requires RowsSound(rows) && SpentSound(rows, calls) && c in calls && calls[c].Spent?
    ensures RowsSound(PutOpen(rows, calls[c].row)) && SpentSound(PutOpen(rows, calls[c].row), calls[c := Finished])
  {
    hide NonNegative;
  }

  lemma ReleasingCall(rows: Rows, calls: map<nat, Call>, claims: set<Claim>, c: nat, id: Id)
    requires RowsSound(rows) && SpentSound(rows, calls) && ReleasingSound(rows, calls) && ClaimsSound(rows, calls, claims)
    requires c !in calls && CanRelease(rows, id)
    ensures var rows', calls' := MarkReleased(rows, id), calls[c := Releasing(id, rows[id].charge)];
            && RowsSound(rows') && SpentSound(rows', calls')
            && ReleasingSound(rows', calls') && ClaimsSound(rows', calls', claims)
  {
    hide NonNegative;
  }

  lemma DecrementedCall(rows: Rows, calls: map<nat, Call>, claims: set<Claim>, c: nat, rk: Resource, generation: nat)
    requires SpentSound(rows, calls) && ReleasingSound(rows, calls) && ClaimsSound(rows, calls, claims)
    requires c in calls && calls[c].Releasing?
    ensures var left := calls[c].left;
            var calls' := calls[c := Releasing(calls[c].id, left.(spend := left.spend - {rk}))];
            && SpentSound(rows, calls') && ReleasingSound(rows, calls')
            && ClaimsSound(rows, calls', claims) && ClaimsSound(rows, calls', claims + {Claim(calls[c].id, rk, generation)})
  {
  }

  lemma NextSound(st: State, e: Event)
    requires Sound(st) && Enabled(st, e)
    ensures Sound(Next(st, e))
  {
    hide Next, Enabled, Sound, WritesRows;
    if WritesRows(e) {
      RowsStaySound(st, e);
    } else if Acquiring(e) {
      AcquiringSound(st, e);
    } else if MovesCalls(e) {
      CallsStaySound(st, e);
    } else {
      PassiveSound(st, e);
    }
  }

  lemma PassiveSound(st: State, e: Event)
    requires Sound(st) && Enabled(st, e) && Passive(e)
    ensures Sound(Next(st, e))
  {
    RowsKept(st, e);
    hide RowsSound, SpentSound, ReleasingSound, ClaimsSound, WriteSlot, Max0, Committed, ListedSum;
    if e.ExpireClaim? {
      FewerClaims(st.rows, st.calls, st.claims, e.claim);
    }
  }

  lemma CallsStaySound(st: State, e: Event)
    requires Sound(st) && Enabled(st, e) && MovesCalls(e) && !Acquiring(e)
    ensures Sound(Next(st, e))
  {
    hide AddCharge, Subtract, BumpGenerations, AcquireKey, Spends, RowsSound, SpentSound, ReleasingSound, ClaimsSound, WellFormed,
         Generation, SpendOf;
    match e
    case Decrement(c, rk) =>
      DecrementedCall(st.rows, st.calls, st.claims, c, rk, Generation(st.generations, st.calls[c].left, rk));
    case LoseAcquire(c) => IdleCall(st.rows, st.calls, st.claims, c, Finished);
    case LoseRelease(c) => IdleCall(st.rows, st.calls, st.claims, c, Finished);
    case _ =>
  }

  lemma AcquiringSound(st: State, e: Event)
    requires Sound(st) && Enabled(st, e) && Acquiring(e)
    ensures Sound(Next(st, e))
  {
    AcquiringLeaves(st, e);
    SpentOrNot(st, e.call, e.row, e.specs, e.key);
    hide Next, Enabled, RowsSound, SpentSound, ReleasingSound, ClaimsSound;
  }

  /** A script of an acquire leaves rows, latches of decrements and listings alone, and moves its own call. */
  lemma AcquiringLeaves(st: State, e: Event)
    requires Enabled(st, e) && Acquiring(e)
    ensures var st' := Next(st, e);
            && st'.rows == st.rows && st'.claims == st.claims && st'.listings == st.listings
            && (|| st'.calls == st.calls[e.call := Spent(e.row)] || st'.calls == st.calls[e.call := Finished]
                || st'.calls == st.calls[e.call := TurnedDown(e.row, e.specs, e.key)])
    ensures NewRow(st, e.row, e.specs) && (e.call !in st.calls || st.calls[e.call].TurnedDown?)
  {
    if e.Acquire? {
      AcquireSteps(st, e.call, e.row, e.specs, e.key);
    } else {
      RetrySteps(st, e.call, e.row, e.specs, e.key);
    }
    hide Next, NewRow;
  }

  lemma AcquireSteps(st: State, c: nat, row: Activation, specs: seq<Spec>, key: Option<string>)
    requires Enabled(st, Acquire(c, row, specs, key))
    ensures var st' := Next(st, Acquire(c, row, specs, key));
            && st'.rows == st.rows && st'.claims == st.claims && st'.listings == st.listings
            && (|| st'.calls == st.calls[c := Spent(row)] || st'.calls == st.calls[c := Finished]
                || st'.calls == st.calls[c := TurnedDown(row, specs, key)])
  {
    hide AddCharge, BumpGenerations, NewRow, AcquireKey, Spends, Duplicate;
    if Spends(st, row, specs, key) {
      assert Next(st, Acquire(c, row, specs, key)) == Spending(st, c, row, AcquireKey(row, specs, key));
    }
  }

  /** The calls fit the rows and the latches. */
  predicate CallsSound(st: State, calls: map<nat, Call>)
  {
    SpentSound(st.rows, calls) && ReleasingSound(st.rows, calls) && ClaimsSound(st.rows, calls, st.claims)
  }

  lemma SpentOrNot(st: State, c: nat, row: Activation, specs: seq<Spec>, key: Option<string>)
    requires Sound(st) && NewRow(st, row, specs) && (c !in st.calls || st.calls[c].TurnedDown?)
    ensures CallsSound(st, st.calls[c := Spent(row)]) && CallsSound(st, st.calls[c := Finished])
    ensures CallsSound(st, st.calls[c := TurnedDown(row, specs, key)])
  {
    assert NonNegative(row.charge) by { SpendNonNegative(row.charge.org, row.charge.user, specs); }
    hide RowsSound, SpentSound, ReleasingSound, ClaimsSound, WellFormed, SpendOf, NonNegative;
    SpentCall(st.rows, st.calls, st.claims, c, row);
    IdleCall(st.rows, st.calls, st.claims, c, Finished);
    IdleCall(st.rows, st.calls, st.claims, c, TurnedDown(row, specs, key));
  }

  lemma RowsStaySound(st: State, e: Event)
    requires Sound(st) && Enabled(st, e) && WritesRows(e)
    ensures Sound(Next(st, e))
  {
    hide RowsSound, SpentSound, ReleasingSound, ClaimsSound, ListingsSound, RowsAdvance, PutOpen, MarkReleased, MarkSettled,
         AddCharge;
    match e
    case Record(c) =>
      RecordedRow(st.rows, st.calls, c);
      WritesAdvance(st.rows, st.calls[c].row, st.calls[c].row.id, "");
      IdleCall(st.rows, st.calls, st.claims, c, Finished);
      RowsOnward(st.rows, PutOpen(st.rows, st.calls[c].row), st.calls[c := Finished], st.claims, st.listings);
    case BeginRelease(c, id) =>
      if CanRelease(st.rows, id) {
        ReleasingCall(st.rows, st.calls, st.claims, c, id);
        WritesAdvance(st.rows, st.rows[id], id, "");
        RowsOnward(st.rows, MarkReleased(st.rows, id), st.calls, st.claims, st.listings);
      } else {
        IdleCall(st.rows, st.calls, st.claims, c, Finished);
      }
    case Settle(id, cost) => SettleSound(st, id, cost);
    case SettleReleased(c, id, cost) =>
      SettleSound(st, id, cost);
      IdleCall(SettleRow(st, id, cost).rows, st.calls, st.claims, c, Finished);
      IdleCall(st.rows, st.calls, st.claims, c, Settling(id, cost));
    case SettleOpen(c) =>
      SettleSound(st, st.calls[c].id, st.calls[c].cost);
      IdleCall(SettleRow(st, st.calls[c].id, st.calls[c].cost).rows, st.calls, st.claims, c, Finished);
      IdleCall(st.rows, st.calls, st.claims, c, Finished);
    case _ =>
  }

  lemma FewerClaims(rows: Rows, calls: map<nat, Call>, claims: set<Claim>, claim: Claim)
    requires ClaimsSound(rows, calls, claims)
    ensures ClaimsSound(rows, calls, claims - {claim})
  {
  }

  lemma SettleSound(st: State, id: Id, cost: string)
    requires Sound(st)
    ensures Sound(SettleRow(st, id, cost))
  {
    hide AddCharge, MarkSettled, RowsAdvance, RowsSound, SpentSound, ReleasingSound, ClaimsSound, ListingsSound;
    SettledRowSound(st.rows, id, cost, st.calls);
    WritesAdvance(st.rows, Activation(id, Charge("", None, map[]), "", 0, Open, None), id, cost);
    RowsOnward(st.rows, MarkSettled(st.rows, id, cost), st.calls, st.claims, st.listings);
  }

  // ---- How one step moves what is accounted for -------------------------------------------------

  ghost function Move(st: State, e: Event, s: Slot): real
    requires Enabled(st, e)
  {
    match e
    case Acquire(c, row, specs, key) => if Spends(st, row, specs, key) then Weight(row.charge, s) else 0.0
    case ShadowRetry(c, row, specs, key) => Weight(row.charge, s)
    case LoseAcquire(c) => -Weight(st.calls[c].row.charge, s)
    case Decrement(c, rk) => if s.rk == rk then -Weight(st.calls[c].left, s) else 0.0
    case LoseRelease(c) => -Weight(st.calls[c].left, s)
    case Settle(id, cost) => -SettledWeight(st.rows, id, s)
    case SettleOpen(c) => -SettledWeight(st.rows, st.calls[c].id, s)
    case _ => 0.0
  }

  function SettledWeight(rows: Rows, id: Id, s: Slot): real
  {
    if CanRelease(rows, id) then Weight(rows[id].charge, s) else 0.0
  }

  /** A call takes another's place; the rows stay. */
  lemma CallMoves(rows: Rows, calls: map<nat, Call>, c: nat, call: Call, s: Slot)
    ensures Accounted(rows, calls[c := call], s) == Accounted(rows, calls, s)
              - (if c in calls then UnrecordedWeight(calls[c], s) + PendingWeight(calls[c], s) else 0.0)
              + UnrecordedWeight(call, s) + PendingWeight(call, s)
  {
    CallsUpdate(calls, c, call, s);
  }

  lemma SettleMoves(rows: Rows, calls: map<nat, Call>, id: Id, cost: string, s: Slot)
    ensures Accounted(MarkSettled(rows, id, cost), calls, s) == Accounted(rows, calls, s) - SettledWeight(rows, id, s)
  {
    if CanSettle(rows, id) {
      OpenSumUpdate(rows, id, rows[id].(state := Settled, cost := Some(cost)), s);
    }
  }

  lemma RecordMoves(rows: Rows, calls: map<nat, Call>, c: nat, s: Slot)
    requires SpentSound(rows, calls) && c in calls && calls[c].Spent?
    ensures Accounted(PutOpen(rows, calls[c].row), calls[c := Finished], s) == Accounted(rows, calls, s)
  {
    CallsUpdate(calls, c, Finished, s);
    OpenSumUpdate(rows, calls[c].row.id, calls[c].row, s);
  }

  lemma BeginReleaseMoves(rows: Rows, calls: map<nat, Call>, c: nat, id: Id, s: Slot)
    requires c !in calls && CanRelease(rows, id)
    ensures Accounted(MarkReleased(rows, id), calls[c := Releasing(id, rows[id].charge)], s) == Accounted(rows, calls, s)
  {
    CallsUpdate(calls, c, Releasing(id, rows[id].charge), s);
    OpenSumUpdate(rows, id, rows[id].(state := Released), s);
  }

  /** Recording and releasing only move spend between the rows and the calls. */
  lemma CommittedMoves(st: State, e: Event, s: Slot)
    requires Sound(st) && Enabled(st, e)
    ensures Committed(Next(st, e), s) == Committed(st, s) + Move(st, e, s)
  {
    hide Next, Enabled, Move, Committed, Sound, WritesRows;
    if WritesRows(e) {
      RowsMove(st, e, s);
    } else if Acquiring(e) {
      AcquiringMoves(st, e, s);
    } else if MovesCalls(e) {
      CallsMove(st, e, s);
    } else {
      PassiveMoves(st, e, s);
    }
  }

  lemma PassiveMoves(st: State, e: Event, s: Slot)
    requires Enabled(st, e) && Passive(e)
    ensures Committed(Next(st, e), s) == Committed(st, s) && Move(st, e, s) == 0.0
  {
    RowsKept(st, e);
    hide Next, Enabled, Accounted;
  }

  lemma CallsMove(st: State, e: Event, s: Slot)
    requires Enabled(st, e) && MovesCalls(e) && !Acquiring(e)
    ensures Committed(Next(st, e), s) == Committed(st, s) + Move(st, e, s)
  {
    hide AddCharge, Subtract, BumpGenerations, Accounted, Weight, Spends, FreshId, AcquireKey, Generation, WellFormed, SpendOf;
    match e
    case LoseAcquire(c) => CallMoves(st.rows, st.calls, c, Finished, s);
    case Decrement(c, rk) =>
      var left := st.calls[c].left;
      CallMoves(st.rows, st.calls, c, Releasing(st.calls[c].id, left.(spend := left.spend - {rk})), s);
      WeightWithout(left, rk, s);
    case LoseRelease(c) => CallMoves(st.rows, st.calls, c, Finished, s);
    case _ =>
  }

  lemma AcquiringMoves(st: State, e: Event, s: Slot)
    requires Enabled(st, e) && Acquiring(e)
    ensures Committed(Next(st, e), s) == Committed(st, s) + Move(st, e, s)
  {
    hide AddCharge, BumpGenerations, Accounted, Weight, Spends, Duplicate, NewRow, AcquireKey;
    CallMoves(st.rows, st.calls, e.call, Spent(e.row), s);
    if e.Acquire? {
      CallMoves(st.rows, st.calls, e.call, Finished, s);
      CallMoves(st.rows, st.calls, e.call, TurnedDown(e.row, e.specs, e.key), s);
    }
  }

  lemma RowsMove(st: State, e: Event, s: Slot)
    requires Sound(st) && Enabled(st, e) && WritesRows(e)
    ensures Committed(Next(st, e), s) == Committed(st, s) + Move(st, e, s)
  {
    hide AddCharge, Accounted, Weight, SpentSound, ReleasingSound, ClaimsSound, RowsSound, ListingsSound, PutOpen, MarkReleased,
         MarkSettled;
    match e
    case Record(c) => RecordMoves(st.rows, st.calls, c, s);
    case BeginRelease(c, id) =>
      CallMoves(st.rows, st.calls, c, Finished, s);
      if CanRelease(st.rows, id) {
        BeginReleaseMoves(st.rows, st.calls, c, id, s);
      }
    case _ => SettlingMoves(st, e, s);
  }

  lemma SettlingMoves(st: State, e: Event, s: Slot)
    requires Enabled(st, e) && (e.Settle? || e.SettleReleased? || e.SettleOpen?)
    ensures Committed(Next(st, e), s) == Committed(st, s) + Move(st, e, s)
  {
    hide AddCharge, Accounted, Weight, MarkSettled;
    match e
    case Settle(id, cost) => SettleMoves(st.rows, st.calls, id, cost, s);
    case SettleReleased(c, id, cost) =>
      SettleMoves(st.rows, st.calls, id, cost, s);
      CallMoves(MarkSettled(st.rows, id, cost), st.calls, c, Finished, s);
      CallMoves(st.rows, st.calls, c, Settling(id, cost), s);
    case SettleOpen(c) =>
      SettleMoves(st.rows, st.calls, st.calls[c].id, st.calls[c].cost, s);
      CallMoves(MarkSettled(st.rows, st.calls[c].id, st.calls[c].cost), st.calls, c, Finished, s);
      CallMoves(st.rows, st.calls, c, Finished, s);
    case _ =>
  }

  lemma WeightWithout(c: Charge, rk: Resource, s: Slot)
    ensures Weight(c.(spend := c.spend - {rk}), s) == Weight(c, s) - if s.rk == rk then Weight(c, s) else 0.0
  {
  }

  // ---- The books of every run --------------------------------------------------------------------

  /** What is on the level and what is accounted for differ by the orphans and the phantoms. */
  ghost predicate Balanced(st: State, s: Slot)
  {
    && Level(st.levels, s) == Committed(st, s) + Level(st.orphan, s) - Level(st.phantom, s)
    && Level(st.orphan, s) >= 0.0 && Level(st.phantom, s) >= 0.0
  }

  /** The slot is set to a level, whatever it was. */
  predicate Sets(e: Event, s: Slot) { (e.ConvergeWrite? && e.slot == s) || (e.ProviderWrite? && e.target == s) }

  /** A second script that finds its key taken spends nothing, and its row is written all the same. */
  predicate Haunts(st: State, e: Event) { e.ShadowRetry? && Duplicate(st, e.row, e.specs, e.key) }

  function Haunting(st: State, e: Event, s: Slot): real { if Haunts(st, e) then Weight(e.row.charge, s) else 0.0 }

  /** What the zero floor keeps back of a decrement. */
  function KeptBack(st: State, e: Event, s: Slot): real
    requires Enabled(st, e)
  {
    if !e.Decrement? then 0.0
    else
      var left := st.calls[e.call].left;
      if s in SlotsOf(left.org, left.user, e.rk) then Max0(left.spend[e.rk] - Level(st.levels, s)) else 0.0
  }

  lemma InitialInv()
    ensures Inv(Initial())
  {
    forall s ensures Balanced(Initial(), s) {
      SumZero(OpenWeights(map[], s));
      SumZero(UnrecordedWeights(map[], s));
      SumZero(PendingWeights(map[], s));
    }
  }

  lemma SumsNonNegative(st: State, s: Slot)
    requires Sound(st)
    ensures OpenSum(st.rows, s) >= 0.0 && Unrecorded(st.calls, s) >= 0.0 && Undecremented(st.calls, s) >= 0.0
  {
    OpenSumNonNegative(st.rows, s);
    SumNonNegative(UnrecordedWeights(st.calls, s));
    SumNonNegative(PendingWeights(st.calls, s));
  }

  /** What the script does to a slot of any state: the latch is free, the floor may bite. */
  lemma DecrementOnSlot(st: State, c: nat, rk: Resource, s: Slot)
    requires ClaimsSound(st.rows, st.calls, st.claims) && Enabled(st, Decrement(c, rk))
    ensures var left := st.calls[c].left;
            Level(Next(st, Decrement(c, rk)).levels, s)
              == if s in SlotsOf(left.org, left.user, rk) then Max0(Level(st.levels, s) - left.spend[rk]) else Level(st.levels, s)
    ensures var left := st.calls[c].left;
            (if s.rk == rk then Weight(left, s) else 0.0) == if s in SlotsOf(left.org, left.user, rk) then left.spend[rk] else 0.0
  {
    assert s.OrgSlot? ==> s == OrgSlot(s.org, s.rk);
    assert s.UserSlot? ==> s == UserSlot(s.org, s.rk, s.user);
  }

  lemma DecrementForgives(st: State, c: nat, rk: Resource, s: Slot)
    requires ClaimsSound(st.rows, st.calls, st.claims) && Enabled(st, Decrement(c, rk))
    ensures Next(st, Decrement(c, rk)).orphan == st.orphan
    ensures Level(Next(st, Decrement(c, rk)).phantom, s) == Level(st.phantom, s) - KeptBack(st, Decrement(c, rk), s)
  {
    hide Subtract, Generation;
    var left := st.calls[c].left;
    ForgivenReads(st.phantom, st.levels, left.org, left.user, rk, left.spend[rk], s);
    hide Forgiven;
  }

  lemma ForgivenReads(phantom: Levels, m: Levels, org: Org, user: Option<User>, rk: Resource, delta: real, s: Slot)
    ensures Level(Forgiven(phantom, m, org, user, rk, delta), s)
         == Level(phantom, s) - if s in SlotsOf(org, user, rk) then Max0(delta - Level(m, s)) else 0.0
  {
  }

  lemma WriteSlotReads(m: Levels, opens: seq<Activation>, s: Slot, t: Slot)
    ensures Level(WriteSlot(m, opens, s), t) == if t == s then ListedSum(opens, s) else Level(m, t)
  {
    if s.UserSlot? && (forall a <- opens :: a.charge.user != Some(s.user)) {
      NoActivationNoSum(opens, s);
    }
  }

  /** The levels and their books are written together. */
  ghost predicate BooksMove(st: State, e: Event, s: Slot)
    requires Enabled(st, e)
  {
    var st' := Next(st, e);
    if Sets(e, s) then
      && Level(st'.orphan, s) == Max0(Level(st'.levels, s) - Committed(st, s))
      && Level(st'.phantom, s) == Max0(Committed(st, s) - Level(st'.levels, s))
      && Move(st, e, s) == 0.0
    else
      var stranded := if Strands(e) then Move(st, e, s) else 0.0;
      && Level(st'.levels, s)
         == Level(st.levels, s) + Move(st, e, s) - stranded - Haunting(st, e, s) + KeptBack(st, e, s)
      && Level(st'.orphan, s) == Level(st.orphan, s) - stranded
      && Level(st'.phantom, s) == Level(st.phantom, s) + Haunting(st, e, s) - KeptBack(st, e, s)
      && stranded <= 0.0 <= Haunting(st, e, s)
  }

  lemma NextBooks(st: State, e: Event, s: Slot)
    requires Sound(st) && Enabled(st, e)
    ensures BooksMove(st, e, s)
  {
    hide *;
    if WritesLevels(e) {
      WrittenBooks(st, e, s);
    } else if Strands(e) {
      StrandedBooks(st, e, s);
    } else {
      KeptBooks(st, e, s);
    }
  }

  lemma WrittenBooks(st: State, e: Event, s: Slot)
    requires Sound(st) && Enabled(st, e) && WritesLevels(e)
    ensures BooksMove(st, e, s)
  {
    hide BooksMove, Enabled, Sound;
    match e
    case Acquire(_, _, _, _) => AcquireBooks(st, e, s);
    case ShadowRetry(_, _, _, _) => RetryBooks(st, e, s);
    case Decrement(c, rk) => DecrementBooks(st, c, rk, s);
    case _ => SetBooks(st, e, s);
  }

  lemma StrandedBooks(st: State, e: Event, s: Slot)
    requires Sound(st) && Enabled(st, e) && Strands(e)
    ensures BooksMove(st, e, s)
  {
    LevelsKept(st, e);
    NotWritten(st, e, s);
    OrphansTake(st, e, s);
    hide Next, Enabled, Move, Sound, Haunting, KeptBack, Sets;
  }

  lemma KeptBooks(st: State, e: Event, s: Slot)
    requires Sound(st) && Enabled(st, e) && !WritesLevels(e) && !Strands(e)
    ensures BooksMove(st, e, s)
  {
    LevelsKept(st, e);
    OrphansKept(st, e);
    NotWritten(st, e, s);
    hide Next, Enabled, Move, Sound, Strands, Haunting, KeptBack, Sets;
  }

  lemma NotWritten(st: State, e: Event, s: Slot)
    requires Enabled(st, e) && !WritesLevels(e)
    ensures Haunting(st, e, s) == 0.0 == KeptBack(st, e, s) && !Sets(e, s)
    ensures !Strands(e) ==> Move(st, e, s) == 0.0
  {
    hide Next;
  }

  lemma AcquireBooks(st: State, e: Event, s: Slot)
    requires Enabled(st, e) && e.Acquire?
    ensures BooksMove(st, e, s)
  {
    hide AddCharge, BumpGenerations, NewRow, AcquireKey, Duplicate, Spends, Weight;
    LevelAfterAdd(st.levels, e.row.charge, s);
  }

  lemma RetryBooks(st: State, e: Event, s: Slot)
    requires Enabled(st, e) && e.ShadowRetry?
    ensures BooksMove(st, e, s)
  {
    RowWeight(st, e.row, e.specs, s);
    LevelAfterAdd(st.levels, e.row.charge, s);
    LevelAfterAdd(st.phantom, e.row.charge, s);
    RetrySteps(st, e.call, e.row, e.specs, e.key);
    hide Next, Enabled, AddCharge, Duplicate, Weight;
  }

  /** Spent, or written without being spent. */
  lemma RetrySteps(st: State, c: nat, row: Activation, specs: seq<Spec>, key: Option<string>)
    requires Enabled(st, ShadowRetry(c, row, specs, key))
    ensures var st', haunts := Next(st, ShadowRetry(c, row, specs, key)), Duplicate(st, row, specs, key);
            && st'.levels == (if haunts then st.levels else AddCharge(st.levels, row.charge))
            && st'.phantom == (if haunts then AddCharge(st.phantom, row.charge) else st.phantom)
            && st'.orphan == st.orphan && st'.rows == st.rows && st'.claims == st.claims && st'.listings == st.listings
            && st'.calls == st.calls[c := Spent(row)]
  {
    hide AddCharge, BumpGenerations, NewRow, AcquireKey, Duplicate;
  }

  lemma DecrementBooks(st: State, c: nat, rk: Resource, s: Slot)
    requires Sound(st) && Enabled(st, Decrement(c, rk))
    ensures BooksMove(st, Decrement(c, rk), s)
  {
    DecrementOnSlot(st, c, rk, s);
    DecrementForgives(st, c, rk, s);
    hide Next, Weight, SlotsOf, Sound;
  }

  lemma RowWeight(st: State, row: Activation, specs: seq<Spec>, s: Slot)
    requires NewRow(st, row, specs)
    ensures Weight(row.charge, s) >= 0.0
  {
    SpendNonNegative(row.charge.org, row.charge.user, specs);
    assert NonNegative(row.charge);
  }

  lemma SetBooks(st: State, e: Event, s: Slot)
    requires Enabled(st, e) && (e.ConvergeWrite? || e.ProviderWrite?)
    ensures BooksMove(st, e, s)
  {
    hide WriteSlot, Committed, ListedSum;
    if e.ConvergeWrite? {
      WriteSlotReads(st.levels, st.listings[e.pass].opens, e.slot, s);
    }
  }

  /** What is no longer accounted for is an orphan, to the last bit. */
  lemma OrphansTake(st: State, e: Event, s: Slot)
    requires Sound(st) && Enabled(st, e) && Strands(e)
    ensures Level(Next(st, e).orphan, s) == Level(st.orphan, s) - Move(st, e, s) && Move(st, e, s) <= 0.0
    ensures Next(st, e).phantom == st.phantom
  {
    hide AddCharge, Sound, SettleRow, Weight, Level;
    match e
    case LoseAcquire(c) =>
      LevelAfterAdd(st.orphan, st.calls[c].row.charge, s);
      CallWeight(st, c, s);
    case LoseRelease(c) =>
      LevelAfterAdd(st.orphan, st.calls[c].left, s);
      CallWeight(st, c, s);
    case Settle(id, cost) => SettleBalance(st, id, cost, s);
    case SettleReleased(c, id, cost) => SettleBalance(st, id, cost, s);
    case SettleOpen(c) => SettleBalance(st, st.calls[c].id, st.calls[c].cost, s);
    case _ =>
  }

  /** Every step keeps the books. */
  lemma NextBalanced(st: State, e: Event, s: Slot)
    requires Sound(st) && Enabled(st, e) && Balanced(st, s)
    ensures Balanced(Next(st, e), s)
  {
    hide Next, Enabled, Move, Sound, Haunting, KeptBack, Level;
    NextBooks(st, e, s);
    CommittedMoves(st, e, s);
    NextSound(st, e);
    SumsNonNegative(Next(st, e), s);
    Floored(st, e, s);
  }

  /** Where the floor bites the level ends at zero. */
  lemma Floored(st: State, e: Event, s: Slot)
    requires Sound(st) && Enabled(st, e)
    ensures KeptBack(st, e, s) >= 0.0
    ensures KeptBack(st, e, s) > 0.0 ==> Level(Next(st, e).levels, s) == 0.0
    ensures KeptBack(st, e, s) > 0.0 ==> !Sets(e, s)
  {
    hide Next;
    if e.Decrement? {
      DecrementOnSlot(st, e.call, e.rk, s);
    }
  }

  // ---- What calm runs keep -------------------------------------------------------------------------

  /** The level is at least what is accounted for. */
  predicate Backed(st: State, s: Slot) { Level(st.phantom, s) <= Level(st.orphan, s) }

  function Unread(rows: Rows, todo: set<Id>): Rows { map id | id in rows && id in todo :: rows[id] }

  /** What a pass has read, and has yet to read. */
  ghost function Seen(rows: Rows, l: Listing, s: Slot): real
  {
    ListedSum(l.opens, s) + OpenSum(Unread(rows, l.todo), s)
  }

  /** A running pass will write no less than what is accounted for by then. */
  ghost predicate Covers(st: State)
  {
    forall p <- st.listings, s: Slot | s.org == st.listings[p].org :: Committed(st, s) <= Seen(st.rows, st.listings[p], s)
  }

  ghost predicate Inv(st: State)
  {
    Sound(st) && Covers(st) && forall s :: Balanced(st, s) && Backed(st, s)
  }

  /** The counter covers what any one release still owes it: the floor cannot bite. */
  lemma LevelCoversPending(st: State, c: nat, s: Slot)
    requires Sound(st) && Balanced(st, s) && Backed(st, s) && c in st.calls && st.calls[c].Releasing?
    ensures Level(st.levels, s) >= OpenSum(st.rows, s) + Weight(st.calls[c].left, s)
  {
    SumsNonNegative(st, s);
    SumAtLeast(PendingWeights(st.calls, s), c);
  }

  /** One decrement: neither its latch nor the zero floor ever swallows any of it. */
  lemma DecrementExact(st: State, c: nat, rk: Resource, s: Slot)
    requires Sound(st) && Balanced(st, s) && Backed(st, s) && Enabled(st, Decrement(c, rk))
    ensures var left := st.calls[c].left;
            Level(Next(st, Decrement(c, rk)).levels, s)
              == Level(st.levels, s) - if s.rk == rk then Weight(left, s) else 0.0
    ensures KeptBack(st, Decrement(c, rk), s) == 0.0
  {
    LevelCoversPending(st, c, s);
    OpenSumNonNegative(st.rows, s);
    DecrementOnSlot(st, c, rk, s);
  }

  /** A calm step adds to the phantoms of a slot just what it haunts it with, and sets it to no less than is accounted for. */
  lemma CalmBooks(st: State, e: Event, s: Slot)
    requires Sound(st) && Covers(st) && Enabled(st, e) && Calm(st, e) && Balanced(st, s)
    ensures Level(Next(st, e).phantom, s)
         == if Sets(e, s) then 0.0 else Level(st.phantom, s) + Haunting(st, e, s) - KeptBack(st, e, s)
    ensures Sets(e, s) ==> Haunting(st, e, s) == 0.0
    ensures Haunting(st, e, s) > 0.0 ==> KeptBack(st, e, s) == 0.0
    ensures Backed(st, s) ==> (Backed(Next(st, e), s) <==> Level(st.phantom, s) + Haunting(st, e, s) <= Level(st.orphan, s))
  {
    NextBooks(st, e, s);
    Floored(st, e, s);
    if Sets(e, s) {
      SetCovers(st, e, s);
    }
    if e.Decrement? && Backed(st, s) {
      DecrementExact(st, e.call, e.rk, s);
    }
    hide Next, Enabled, Calm, Sound, Covers, Committed, Move, Level, Strands;
  }

  lemma SetCovers(st: State, e: Event, s: Slot)
    requires Covers(st) && Enabled(st, e) && Calm(st, e) && Sets(e, s)
    ensures Committed(st, s) <= Level(Next(st, e).levels, s)
  {
    hide WriteSlot, Accounted, Covers;
    if e.ConvergeWrite? {
      WriteSlotReads(st.levels, st.listings[e.pass].opens, s, s);
      WriteCovers(st, e.pass, s);
    }
  }

  lemma CallWeight(st: State, c: nat, s: Slot)
    requires Sound(st) && c in st.calls
    ensures st.calls[c].Spent? ==> Weight(st.calls[c].row.charge, s) >= 0.0
    ensures st.calls[c].Releasing? ==> Weight(st.calls[c].left, s) >= 0.0
  {
  }

  lemma SettleBalance(st: State, id: Id, cost: string, s: Slot)
    requires Sound(st)
    ensures SettleRow(st, id, cost).levels == st.levels && SettleRow(st, id, cost).phantom == st.phantom
    ensures Level(SettleRow(st, id, cost).orphan, s) == Level(st.orphan, s) + SettledWeight(st.rows, id, s)
    ensures SettledWeight(st.rows, id, s) >= 0.0
  {
    if CanRelease(st.rows, id) {
      LevelAfterAdd(st.orphan, st.rows[id].charge, s);
    }
  }

  /** When a pass writes, it has read everything it will. */
  lemma WriteCovers(st: State, p: nat, s: Slot)
    requires Covers(st) && Enabled(st, ConvergeWrite(p, s))
    ensures Committed(st, s) <= ListedSum(st.listings[p].opens, s)
  {
    SumZero(OpenWeights(Unread(st.rows, {}), s));
    assert Committed(st, s) <= Seen(st.rows, st.listings[p], s);
  }

  /** A step that admits nothing of the pass's org, and releases nothing it has yet to read. */
  lemma SeenMoves(st: State, e: Event, p: nat, s: Slot)
    requires Sound(st) && Enabled(st, e) && Calm(st, e)
    requires p in st.listings && p in Next(st, e).listings && s.org == st.listings[p].org
    ensures var before, after := Seen(st.rows, st.listings[p], s), Seen(Next(st, e).rows, Next(st, e).listings[p], s);
            before + Move(st, e, s) <= after <= before
  {
    hide *;
    MoveBounds(st, e, p, s);
    if WritesRows(e) {
      SeenWritten(st, e, p, s);
    } else {
      SeenRead(st, e, p, s);
    }
  }

  /** The ledger is not written: at most the pass itself reads on. */
  lemma SeenRead(st: State, e: Event, p: nat, s: Slot)
    requires Enabled(st, e) && !WritesRows(e) && p in st.listings && p in Next(st, e).listings
    ensures Seen(Next(st, e).rows, Next(st, e).listings[p], s) == Seen(st.rows, st.listings[p], s)
  {
    hide AddCharge, Subtract, FirstFailing, BumpGenerations, WellFormed, Max0, Accounted, WriteSlot, Seen, FreshId, AcquireKey,
         Spends, Generation, SettleRow, ListedSum, SpendOf;
    if e.ListRow? {
      SeenRow(st.rows, st.listings[e.pass], e.rowId, s);
    }
  }

  /** The ledger is written: what the pass has yet to read loses no more than what is settled. */
  lemma SeenWritten(st: State, e: Event, p: nat, s: Slot)
    requires Sound(st) && Enabled(st, e) && Calm(st, e) && WritesRows(e) && p in st.listings
    ensures Next(st, e).listings == st.listings
    ensures Seen(st.rows, st.listings[p], s) + Move(st, e, s) <= Seen(Next(st, e).rows, st.listings[p], s)
         <= Seen(st.rows, st.listings[p], s)
  {
    hide Next, Enabled, Calm, Move, Seen, Sound;
    match e
    case Record(c) => SeenAtRecord(st, c, p, s);
    case BeginRelease(c, id) => SeenAtRelease(st, c, id, p, s);
    case _ => SeenAtSettle(st, e, p, s);
  }

  lemma SeenAtRecord(st: State, c: nat, p: nat, s: Slot)
    requires Sound(st) && Enabled(st, Record(c)) && p in st.listings
    ensures Next(st, Record(c)).listings == st.listings && Move(st, Record(c), s) == 0.0
    ensures Seen(Next(st, Record(c)).rows, st.listings[p], s) == Seen(st.rows, st.listings[p], s)
  {
    hide Seen, RowsSound, SpentSound, ReleasingSound, ClaimsSound, PutOpen;
    SeenRecord(st.rows, st.calls, st.listings[p], c, s);
  }

  lemma SeenAtRelease(st: State, c: nat, id: Id, p: nat, s: Slot)
    requires Enabled(st, BeginRelease(c, id)) && Calm(st, BeginRelease(c, id)) && p in st.listings
    ensures Next(st, BeginRelease(c, id)).listings == st.listings && Move(st, BeginRelease(c, id), s) == 0.0
    ensures Seen(Next(st, BeginRelease(c, id)).rows, st.listings[p], s) == Seen(st.rows, st.listings[p], s)
  {
    hide Seen;
    SeenRelease(st.rows, st.listings[p], id, s);
  }

  lemma SeenAtSettle(st: State, e: Event, p: nat, s: Slot)
    requires Sound(st) && Enabled(st, e) && (e.Settle? || e.SettleReleased? || e.SettleOpen?) && p in st.listings
    ensures Next(st, e).listings == st.listings
    ensures Seen(st.rows, st.listings[p], s) + Move(st, e, s) <= Seen(Next(st, e).rows, st.listings[p], s)
         <= Seen(st.rows, st.listings[p], s)
  {
    hide Seen, Weight, RowsSound, SpentSound, ReleasingSound, ClaimsSound, ListingsSound, AddCharge, MarkSettled;
    var l := st.listings[p];
    match e
    case Settle(id, cost) => SeenSettle(st.rows, l, id, cost, s);
    case SettleReleased(c, id, cost) => SeenSettle(st.rows, l, id, cost, s);
    case SettleOpen(c) => SeenSettle(st.rows, l, st.calls[c].id, st.calls[c].cost, s);
    case _ =>
  }

  lemma SeenRecord(rows: Rows, calls: map<nat, Call>, l: Listing, c: nat, s: Slot)
    requires SpentSound(rows, calls) && c in calls && calls[c].Spent? && l.todo <= rows.Keys
    ensures Seen(PutOpen(rows, calls[c].row), l, s) == Seen(rows, l, s)
  {
    UnreadUpdate(rows, l.todo, calls[c].row.id, calls[c].row, s);
  }

  lemma SeenRelease(rows: Rows, l: Listing, id: Id, s: Slot)
    requires CanRelease(rows, id) ==> id !in l.todo
    ensures Seen(MarkReleased(rows, id), l, s) == Seen(rows, l, s)
  {
    if CanRelease(rows, id) {
      UnreadUpdate(rows, l.todo, id, rows[id].(state := Released), s);
    }
  }

  lemma SeenSettle(rows: Rows, l: Listing, id: Id, cost: string, s: Slot)
    requires RowsSound(rows)
    ensures Seen(rows, l, s) - SettledWeight(rows, id, s) <= Seen(MarkSettled(rows, id, cost), l, s) <= Seen(rows, l, s)
  {
    if CanSettle(rows, id) {
      UnreadUpdate(rows, l.todo, id, rows[id].(state := Settled, cost := Some(cost)), s);
    }
  }

  lemma SeenRow(rows: Rows, l: Listing, id: Id, s: Slot)
    requires id in l.todo && id in rows
    ensures var read := if rows[id].state == Open then [rows[id]] else [];
            Seen(rows, l.(todo := l.todo - {id}, opens := l.opens + read), s) == Seen(rows, l, s)
  {
    ReadRow(rows, l.todo, l.opens, id, s);
  }

  /** Apart from an admission of the pass's own org, no step adds to what is accounted for. */
  lemma MoveBounds(st: State, e: Event, p: nat, s: Slot)
    requires Sound(st) && Enabled(st, e) && Calm(st, e)
    requires p in st.listings && s.org == st.listings[p].org
    ensures Move(st, e, s) <= 0.0
  {
    hide FirstFailing, WellFormed, Spends, FreshId;
  }

  lemma UnreadUpdate(rows: Rows, todo: set<Id>, id: Id, a: Activation, s: Slot)
    ensures OpenSum(Unread(rows[id := a], todo), s) == OpenSum(Unread(rows, todo), s)
              + if id in todo then OpenWeight(a, s) - (if id in rows then OpenWeight(rows[id], s) else 0.0) else 0.0
  {
    if id in todo {
      OpenSumUpdate(Unread(rows, todo), id, a, s);
      assert Unread(rows[id := a], todo) == Unread(rows, todo)[id := a];
    } else {
      assert Unread(rows[id := a], todo) == Unread(rows, todo);
    }
  }

  lemma ReadRow(rows: Rows, todo: set<Id>, opens: seq<Activation>, id: Id, s: Slot)
    requires id in todo && id in rows
    ensures var read := if rows[id].state == Open then [rows[id]] else [];
            ListedSum(opens + read, s) + OpenSum(Unread(rows, todo - {id}), s)
              == ListedSum(opens, s) + OpenSum(Unread(rows, todo), s)
  {
    SumRemove(OpenWeights(Unread(rows, todo), s), id);
    assert OpenWeights(Unread(rows, todo), s) - {id} == OpenWeights(Unread(rows, todo - {id}), s);
    if rows[id].state == Open {
      ListedSnoc(opens, rows[id], s);
    } else {
      assert opens + [] == opens;
    }
  }

  lemma NothingInFlight(st: State, org: Org, s: Slot)
    requires Quiescent(st, org) && s.org == org
    ensures Unrecorded(st.calls, s) == 0.0 && Undecremented(st.calls, s) == 0.0
  {
    SumZero(UnrecordedWeights(st.calls, s));
    SumZero(PendingWeights(st.calls, s));
  }

  /** A listing that misses no OPEN row of the org, taken at rest, starts out covering it. */
  lemma ListingCovers(st: State, org: Org, ids: set<Id>, s: Slot)
    requires Quiescent(st, org) && OpenIds(st.rows, org) <= ids && s.org == org
    ensures Committed(st, s) == OpenSum(Unread(st.rows, ids), s) == OpenSum(st.rows, s)
  {
    NothingInFlight(st, org, s);
    var all := OpenWeights(st.rows, s);
    SumOfPart(all, ids);
    assert (map id | id in all && id in ids :: all[id]) == OpenWeights(Unread(st.rows, ids), s);
  }

  lemma ListingOrgStays(st: State, e: Event, p: nat)
    requires Enabled(st, e) && p in st.listings && p in Next(st, e).listings
    ensures Next(st, e).listings[p].org == st.listings[p].org
  {
    if Reads(e) {
      hide AddCharge, SettleRow, Committed;
    } else {
      ListingsKept(st, e);
      hide Next, Enabled;
    }
  }

  lemma NextCovers(st: State, e: Event)
    requires Sound(st) && Covers(st) && Enabled(st, e) && Calm(st, e)
    ensures Covers(Next(st, e))
  {
    hide Next, Accounted, Seen, Calm, Quiescent;
    var st' := Next(st, e);
    forall p, s: Slot | p in st'.listings && s.org == st'.listings[p].org
      ensures Committed(st', s) <= Seen(st'.rows, st'.listings[p], s)
    {
      CommittedMoves(st, e, s);
      if p in st.listings {
        ListingOrgStays(st, e, p);
        SeenMoves(st, e, p, s);
        assert Committed(st, s) <= Seen(st.rows, st.listings[p], s);
      } else {
        FirstSeen(st, e, p, s);
      }
    }
  }

  lemma FirstSeen(st: State, e: Event, p: nat, s: Slot)
    requires Sound(st) && Enabled(st, e) && Calm(st, e)
    requires p !in st.listings && p in Next(st, e).listings && s.org == Next(st, e).listings[p].org
    ensures Committed(st, s) + Move(st, e, s) == Seen(Next(st, e).rows, Next(st, e).listings[p], s) == Committed(st, s)
  {
    if !Reads(e) {
      ListingsKept(st, e);
    }
    hide Seen, Committed, Accounted, OpenSum, Quiescent, Sound;
    assert e.ListIds?;
    FirstListed(st, e.pass, e.org, e.ids, s);
  }

  lemma FirstListed(st: State, p: nat, org: Org, ids: set<Id>, s: Slot)
    requires Quiescent(st, org) && OpenIds(st.rows, org) <= ids && s.org == org
    ensures Committed(st, s) == Seen(st.rows, Listing(org, ids, []), s)
  {
    ListingCovers(st, org, ids, s);
  }

  /** A calm step keeps it, unless it haunts a slot by more than the orphans there. */
  lemma NextInv(st: State, e: Event)
    requires Inv(st) && Enabled(st, e) && Calm(st, e)
    ensures Inv(Next(st, e)) <==> forall s :: Level(st.phantom, s) + Haunting(st, e, s) <= Level(st.orphan, s)
  {
    NextSound(st, e);
    NextCovers(st, e);
    forall s
      ensures Balanced(Next(st, e), s)
      ensures Backed(Next(st, e), s) <==> Level(st.phantom, s) + Haunting(st, e, s) <= Level(st.orphan, s)
    {
      NextBalanced(st, e, s);
      CalmBooks(st, e, s);
    }
    hide Next, Enabled, Calm, Balanced, Backed, Haunting, Sound, Covers, Level;
  }

  // ---- Runs --------------------------------------------------------------------------------------

  ghost predicate IsRun(states: seq<State>, events: seq<Event>)
  {
    && |states| == |events| + 1
    && states[0] == Initial()
    && forall i | 0 <= i < |events| :: Enabled(states[i], events[i]) && states[i + 1] == Next(states[i], events[i])
  }

  /** Nothing disturbs a pass between its listing and its last write, and no provider lags. */
  ghost predicate IsCalm(states: seq<State>, events: seq<Event>)
  {
    |states| == |events| + 1 && forall i | 0 <= i < |events| :: Enabled(states[i], events[i]) && Calm(states[i], events[i])
  }

  lemma {:induction false} RunSound(states: seq<State>, events: seq<Event>, i: nat)
    requires IsRun(states, events) && i < |states|
    ensures Sound(states[i])
  {
    hide Next, Enabled, Sound;
    if i == 0 {
      InitialInv();
    } else {
      RunSound(states, events, i - 1);
      NextSound(states[i - 1], events[i - 1]);
    }
  }

  /**
   In every state of every run, each org total and each user partition is exactly the OPEN rows' spend, plus
   the spends not yet recorded, plus the releases not yet decremented, plus the orphans, less the phantoms.
   So it is at or above what is accounted for if and only if the phantoms do not exceed the orphans.
   */
  lemma {:induction false} Tally(states: seq<State>, events: seq<Event>, i: nat, s: Slot)
    requires IsRun(states, events) && i < |states|
    ensures Balanced(states[i], s)
    ensures Committed(states[i], s) <= Level(states[i].levels, s) <==> Backed(states[i], s)
  {
    hide Next, Enabled, Sound, Accounted;
    if i == 0 {
      InitialInv();
    } else {
      Tally(states, events, i - 1, s);
      RunSound(states, events, i - 1);
      NextBalanced(states[i - 1], events[i - 1], s);
    }
  }

  lemma {:induction false} RunCovers(states: seq<State>, events: seq<Event>, i: nat)
    requires IsRun(states, events) && IsCalm(states, events) && i < |states|
    ensures Covers(states[i])
  {
    hide Next, Enabled, Calm, Covers;
    if i == 0 {
      assert Covers(Initial()) by { InitialInv(); }
    } else {
      RunCovers(states, events, i - 1);
      RunSound(states, events, i - 1);
      NextCovers(states[i - 1], events[i - 1]);
    }
  }

  /** No shadow retry has found its key taken and left a row with spend on the slot. */
  ghost predicate Unhaunted(states: seq<State>, events: seq<Event>, i: nat, s: Slot)
  {
    i <= |events| <= |states| && forall j | 0 <= j < i :: Haunting(states[j], events[j], s) == 0.0
  }

  lemma {:induction false} NoPhantom(states: seq<State>, events: seq<Event>, i: nat, s: Slot)
    requires IsRun(states, events) && IsCalm(states, events) && i < |states| && Unhaunted(states, events, i, s)
    ensures Level(states[i].phantom, s) == 0.0
  {
    hide Next, Enabled, Calm, Haunting, Sets;
    if i > 0 {
      NoPhantom(states, events, i - 1, s);
      Tally(states, events, i - 1, s);
      Tally(states, events, i, s);
      RunSound(states, events, i - 1);
      RunCovers(states, events, i - 1);
      CalmBooks(states[i - 1], events[i - 1], s);
      Floored(states[i - 1], events[i - 1], s);
    }
  }

  lemma RunInv(states: seq<State>, events: seq<Event>, i: nat)
    requires IsRun(states, events) && IsCalm(states, events) && i < |states|
    requires forall s :: Unhaunted(states, events, i, s)
    ensures Inv(states[i])
  {
    hide Next, Enabled, Calm, Unhaunted, Sound, Covers;
    RunSound(states, events, i);
    RunCovers(states, events, i);
    forall s ensures Balanced(states[i], s) && Backed(states[i], s) {
      Tally(states, events, i, s);
      NoPhantom(states, events, i, s);
    }
  }

  /**
   In every state of every calm run, each slot that no shadow retry has haunted is exactly the OPEN rows'
   spend, plus the spends not yet recorded, plus the releases not yet decremented, plus orphans.
   */
  lemma Conservation(states: seq<State>, events: seq<Event>, i: nat, s: Slot)
    requires IsRun(states, events) && IsCalm(states, events) && i < |states| && Unhaunted(states, events, i, s)
    ensures Level(states[i].levels, s) == Committed(states[i], s) + Level(states[i].orphan, s)
    ensures Level(states[i].levels, s) >= OpenSum(states[i].rows, s) >= 0.0
    ensures Level(states[i].orphan, s) >= 0.0
  {
    hide Next, Enabled, Calm, Unhaunted;
    Tally(states, events, i, s);
    NoPhantom(states, events, i, s);
    RunSound(states, events, i);
    SumsNonNegative(states[i], s);
  }

  /**
   In every run, calm or not: a decrement takes off exactly the spend it is for if and only if the phantoms
   do not exceed the orphans and whatever else is accounted for.
   */
  lemma FloorBitesIff(states: seq<State>, events: seq<Event>, i: nat, s: Slot)
    requires IsRun(states, events) && i < |events| && events[i].Decrement?
    requires var left := states[i].calls[events[i].call].left; s in SlotsOf(left.org, left.user, events[i].rk)
    ensures var off := states[i].calls[events[i].call].left.spend[events[i].rk];
            Level(states[i + 1].levels, s) == Level(states[i].levels, s) - off
            <==> Level(states[i].phantom, s) <= Level(states[i].orphan, s) + Committed(states[i], s) - off
  {
    hide Accounted, Weight;
    RunSound(states, events, i);
    Tally(states, events, i, s);
    DecrementOnSlot(states[i], events[i].call, events[i].rk, s);
  }

  /** So in a calm run every decrement of a slot that is not haunted takes off exactly its spend. */
  lemma FloorNeverBites(states: seq<State>, events: seq<Event>, i: nat, s: Slot)
    requires IsRun(states, events) && IsCalm(states, events) && i < |events| && events[i].Decrement?
    requires Unhaunted(states, events, i, s)
    ensures var left := states[i].calls[events[i].call].left;
            Level(states[i + 1].levels, s)
              == Level(states[i].levels, s) - if s.rk == events[i].rk then Weight(left, s) else 0.0
  {
    hide Calm, Unhaunted;
    RunSound(states, events, i);
    Tally(states, events, i, s);
    NoPhantom(states, events, i, s);
    DecrementExact(states[i], events[i].call, events[i].rk, s);
  }

  // ---- No interleaving admits past a limit ----------------------------------------------------------

  /** Every bundle that names the slot's gauge is held to this limit or less there; no provider reports more. */
  predicate LimitedTo(e: Event, s: Slot, limit: real)
  {
    && (e.ProviderWrite? && e.target == s ==> e.level <= limit)
    && (e.ShadowRetry? ==> Weight(e.row.charge, s) == 0.0)
    && (e.Acquire? && e.row.charge.org == s.org ==>
      forall sp <- e.specs | sp.rk == s.rk ::
        && (s.OrgSlot? ==> sp.orgLimit.Some? && sp.orgLimit.value <= limit)
        && (s.UserSlot? && e.row.charge.user == Some(s.user) ==> sp.userLimit.Some? && sp.userLimit.value <= limit))
  }

  /** Neither the level nor what a running pass may write to it is over the limit. */
  ghost predicate WithinLimit(st: State, s: Slot, limit: real)
  {
    && Level(st.levels, s) <= limit
    && forall p <- st.listings | s.org == st.listings[p].org :: Seen(st.rows, st.listings[p], s) <= limit
  }

  lemma AdmittedFits(st: State, row: Activation, specs: seq<Spec>, key: Option<string>, s: Slot, limit: real)
    requires WellFormed(specs) && Admits(st, row, specs, key) && row.charge.spend == SpendOf(specs)
    requires LimitedTo(Acquire(0, row, specs, key), s, limit) && Level(st.levels, s) <= limit
    ensures Level(st.levels, s) + Weight(row.charge, s) <= limit
  {
    if Weight(row.charge, s) != 0.0 {
      var i :| 0 <= i < |specs| && specs[i].rk == s.rk;
      DeltaAt(specs, i);
      assert Fits(st.levels, row.charge.org, row.charge.user, specs[i]);
      assert s.OrgSlot? ==> s == OrgSlot(s.org, s.rk);
      assert s.UserSlot? ==> s == UserSlot(s.org, s.rk, s.user);
    }
  }

  /** The invariant on one slot. */
  ghost predicate Kept(st: State, s: Slot) { Sound(st) && Covers(st) && Balanced(st, s) && Backed(st, s) }

  lemma NextLevelWithinLimit(st: State, e: Event, s: Slot, limit: real)
    requires Kept(st, s) && Enabled(st, e) && Calm(st, e) && LimitedTo(e, s, limit) && WithinLimit(st, s, limit)
    ensures Level(Next(st, e).levels, s) <= limit
  {
    if !WritesLevels(e) {
      LevelsKept(st, e);
    } else {
      LevelWrittenWithinLimit(st, e, s, limit);
    }
    hide Next, Enabled, Calm, Kept, LimitedTo, Seen;
  }

  lemma LevelWrittenWithinLimit(st: State, e: Event, s: Slot, limit: real)
    requires Kept(st, s) && Enabled(st, e) && Calm(st, e) && LimitedTo(e, s, limit) && WithinLimit(st, s, limit) && WritesLevels(e)
    ensures Level(Next(st, e).levels, s) <= limit
  {
    hide BooksMove;
    match e
    case Acquire(c, row, specs, key) => ScriptWithinLimit(st, e, s, limit);
    case ShadowRetry(c, row, specs, key) => ScriptWithinLimit(st, e, s, limit);
    case Decrement(c, rk) =>
      DecrementExact(st, c, rk, s);
      CallWeight(st, c, s);
      hide Next, Enabled, Sound, Covers, Balanced, Calm, Seen;
    case _ => SetWithinLimit(st, e, s, limit);
  }

  lemma ScriptWithinLimit(st: State, e: Event, s: Slot, limit: real)
    requires Enabled(st, e) && Acquiring(e) && LimitedTo(e, s, limit) && Level(st.levels, s) <= limit
    ensures Level(Next(st, e).levels, s) <= limit
  {
    if e.Acquire? {
      AcquireBooks(st, e, s);
      if Spends(st, e.row, e.specs, e.key) {
        AdmittedFits(st, e.row, e.specs, e.key, s, limit);
      }
    } else {
      RetryBooks(st, e, s);
    }
    hide Next, Spends, Duplicate, Weight, NewRow;
  }

  lemma SetWithinLimit(st: State, e: Event, s: Slot, limit: real)
    requires Enabled(st, e) && (e.ConvergeWrite? || e.ProviderWrite?) && LimitedTo(e, s, limit) && WithinLimit(st, s, limit)
    ensures Level(Next(st, e).levels, s) <= limit
  {
    hide WriteSlot, Committed, ListedSum;
    if e.ConvergeWrite? {
      WriteSlotReads(st.levels, st.listings[e.pass].opens, e.slot, s);
      SumZero(OpenWeights(Unread(st.rows, {}), s));
      assert e.slot == s ==> Seen(st.rows, st.listings[e.pass], s) <= limit;
    }
  }

  lemma NextWithinLimit(st: State, e: Event, s: Slot, limit: real)
    requires Kept(st, s) && Enabled(st, e) && Calm(st, e) && LimitedTo(e, s, limit) && WithinLimit(st, s, limit)
    ensures WithinLimit(Next(st, e), s, limit)
  {
    hide Next, Calm, LimitedTo, Seen, Accounted, Covers, Sound;
    NextLevelWithinLimit(st, e, s, limit);
    var st' := Next(st, e);
    forall p <- st'.listings | s.org == st'.listings[p].org ensures Seen(st'.rows, st'.listings[p], s) <= limit {
      if p in st.listings {
        ListingOrgStays(st, e, p);
        SeenMoves(st, e, p, s);
      } else {
        FirstSeen(st, e, p, s);
        SumsNonNegative(st, s);
      }
    }
  }

  lemma KeptAlong(states: seq<State>, events: seq<Event>, i: nat, s: Slot)
    requires IsRun(states, events) && IsCalm(states, events) && i < |states| && Unhaunted(states, events, i, s)
    ensures Kept(states[i], s)
  {
    hide Next, Enabled, Calm, Unhaunted, Sound, Covers;
    RunSound(states, events, i);
    RunCovers(states, events, i);
    Tally(states, events, i, s);
    NoPhantom(states, events, i, s);
  }

  /**
   Whatever runs concurrently, crashes or converges, the level, and with it the spend of the live
   activations, never passes the limit the bundles are admitted against.
   */
  lemma {:induction false} NeverOverAdmits(states: seq<State>, events: seq<Event>, i: nat, s: Slot, limit: real)
    requires IsRun(states, events) && IsCalm(states, events) && i < |states|
    requires limit >= 0.0 && forall j | 0 <= j < |events| :: LimitedTo(events[j], s, limit)
    ensures OpenSum(states[i].rows, s) <= Level(states[i].levels, s) <= limit
    ensures WithinLimit(states[i], s, limit)
  {
    hide Next, Enabled, Calm;
    assert Unhaunted(states, events, i, s);
    hide LimitedTo;
    Conservation(states, events, i, s);
    if i > 0 {
      NeverOverAdmits(states, events, i - 1, s, limit);
      KeptAlong(states, events, i - 1, s);
      NextWithinLimit(states[i - 1], events[i - 1], s, limit);
    }
  }

  // ---- Rows only move forward, and are released once --------------------------------------------

  /** Every event writes the ledger in one of the store's three ways, or not at all. */
  lemma NextRows(st: State, e: Event) returns (a: Activation, id: Id, cost: string)
    requires Enabled(st, e)
    ensures var rows := Next(st, e).rows;
            || rows == st.rows || rows == PutOpen(st.rows, a)
            || rows == MarkReleased(st.rows, id) || rows == MarkSettled(st.rows, id, cost)
  {
    a, id, cost := *, *, *;
    hide PutOpen, MarkReleased, MarkSettled, AddCharge;
    if !WritesRows(e) {
      RowsKept(st, e);
      hide Next;
    } else {
      match e
      case Record(c) => a := st.calls[c].row;
      case BeginRelease(_, i) => id := i;
      case _ => id, cost := SettlesRows(st, e);
    }
  }

  lemma SettlesRows(st: State, e: Event) returns (id: Id, cost: string)
    requires Enabled(st, e) && (e.Settle? || e.SettleReleased? || e.SettleOpen?)
    ensures Next(st, e).rows == st.rows || Next(st, e).rows == MarkSettled(st.rows, id, cost)
  {
    hide MarkSettled, AddCharge;
    match e
    case Settle(i, k) => id, cost := i, k;
    case SettleReleased(_, i, k) => id, cost := i, k;
    case SettleOpen(c) => id, cost := st.calls[c].id, st.calls[c].cost;
    case _ => id, cost := "", "";
  }

  lemma NextAdvances(st: State, e: Event)
    requires Enabled(st, e)
    ensures RowsAdvance(st.rows, Next(st, e).rows)
  {
    hide Next, Enabled, RowsAdvance, PutOpen, MarkReleased, MarkSettled;
    var a, id, cost := NextRows(st, e);
    WritesAdvance(st.rows, a, id, cost);
    AdvanceReflexive(st.rows);
  }

  /**
   OPEN → RELEASED → SETTLED or OPEN → SETTLED, and a settled cost never changes, for as long as the
   store keeps its closed rows.
   */
  lemma {:induction false} RunAdvances(states: seq<State>, events: seq<Event>, i: nat, j: nat)
    requires IsRun(states, events) && i <= j < |states|
    ensures RowsAdvance(states[i].rows, states[j].rows)
    decreases j
  {
    hide Next, Enabled, RowsAdvance;
    if i < j {
      RunAdvances(states, events, i, j - 1);
      NextAdvances(states[j - 1], events[j - 1]);
      AdvanceTransitive(states[i].rows, states[j - 1].rows, states[j].rows);
    } else {
      AdvanceReflexive(states[i].rows);
    }
  }

  /** A closed row whose TTL runs out takes nothing from any sum. */
  lemma ClosedRowExpires(st: State, id: Id, s: Slot)
    requires id in st.rows && st.rows[id].state != Open
    ensures Committed(st.(rows := st.rows - {id}), s) == Committed(st, s)
  {
    SumRemove(OpenWeights(st.rows, s), id);
    assert OpenWeights(st.rows, s) - {id} == OpenWeights(st.rows - {id}, s);
  }

  /** At most one release call of a run performs the release of an activation. */
  lemma ReleasedByOneCall(states: seq<State>, events: seq<Event>, i: nat, j: nat, id: Id)
    requires IsRun(states, events) && i < j < |events|
    requires events[i].BeginRelease? && events[i].id == id && CanRelease(states[i].rows, id)
    ensures !CanRelease(states[j].rows, id)
  {
    assert states[i + 1].rows == MarkReleased(states[i].rows, id);
    RunAdvances(states, events, i + 1, j);
    assert id in states[i + 1].rows && Advances(states[i + 1].rows[id], states[j].rows[id]);
  }

  /** The resource of the activation is off the counters: no running release still owes it. */
  predicate Done(st: State, id: Id, rk: Resource)
  {
    && id in st.rows && st.rows[id].state != Open
    && forall c <- st.calls | st.calls[c].Releasing? && st.calls[c].id == id :: rk !in st.calls[c].left.spend
  }

  lemma DoneStays(st: State, e: Event, id: Id, rk: Resource)
    requires Enabled(st, e) && Done(st, id, rk)
    ensures Done(Next(st, e), id, rk)
  {
    hide Next, Enabled, RowsAdvance;
    NextAdvances(st, e);
    StillClosed(st.rows, Next(st, e).rows, id);
    var c, call := NextCalls(st, e);
  }

  lemma StillClosed(rows: Rows, rows': Rows, id: Id)
    requires RowsAdvance(rows, rows') && id in rows && rows[id].state != Open
    ensures id in rows' && rows'[id].state != Open
  {
    assert Advances(rows[id], rows'[id]);
  }

  lemma {:induction false} DoneForever(states: seq<State>, events: seq<Event>, i: nat, j: nat, id: Id, rk: Resource)
    requires IsRun(states, events) && i <= j < |states| && Done(states[i], id, rk)
    ensures Done(states[j], id, rk)
    decreases j
  {
    hide Next, Enabled, Done;
    if i < j {
      DoneForever(states, events, i, j - 1, id, rk);
      DoneStays(states[j - 1], events[j - 1], id, rk);
    }
  }

  /** In any run each resource of an activation is decremented at most once, by one call. */
  lemma DecrementedOnce(states: seq<State>, events: seq<Event>, i: nat, j: nat)
    requires IsRun(states, events) && i < j < |events|
    requires events[i].Decrement? && events[j].Decrement? && events[i].rk == events[j].rk
    ensures states[i].calls[events[i].call].id != states[j].calls[events[j].call].id
  {
    var id := states[i].calls[events[i].call].id;
    RunSound(states, events, i);
    assert Done(states[i + 1], id, events[i].rk);
    DoneForever(states, events, i + 1, j, id, events[i].rk);
  }

  /** A decrement latch that expires is gone, and takes nothing with it. */
  lemma LatchExpires(st: State, claim: Claim, s: Slot)
    requires Sound(st)
    ensures Enabled(st, ExpireClaim(claim))
    ensures var after := Next(st, ExpireClaim(claim));
            && claim !in after.claims && (forall other <- st.claims | other != claim :: other in after.claims)
            && Level(after.levels, s) == Level(st.levels, s) && Committed(after, s) == Committed(st, s)
  {
    hide Accounted;
  }

  // ---- What a replayed key is told -------------------------------------------------------------

  /**
   An acquire whose row cannot be written claims its idempotency key all the same. Retrying with
   that key is answered as a replay of an admission, yet neither call leaves a row.
   */
  lemma RetryAfterLostRow(st: State, c: nat, d: nat, row: Activation, again: Activation, specs: seq<Spec>, key: string)
    requires c != d && d !in st.calls && Enabled(st, Acquire(c, row, specs, Some(key))) && specs != [] && key != ""
    requires !Duplicate(st, row, specs, Some(key)) && Admits(st, row, specs, Some(key))
    requires again.charge == row.charge
    ensures var spent := Next(st, Acquire(c, row, specs, Some(key)));
            && Enabled(spent, LoseAcquire(c))
            && var lost := Next(spent, LoseAcquire(c));
            && Duplicate(lost, again, specs, Some(key))
            && lost.rows == st.rows
            && forall s :: Level(lost.levels, s) == Level(st.levels, s) + Weight(row.charge, s)
  {
    forall s ensures Level(AddCharge(st.levels, row.charge), s) == Level(st.levels, s) + Weight(row.charge, s) {
      LevelAfterAdd(st.levels, row.charge, s);
    }
  }

  // ---- Settling -----------------------------------------------------------------------------------

  /** An activation settled straight from OPEN: no release will ever give its spend back. */
  lemma SettledFromOpenIsStranded(states: seq<State>, events: seq<Event>, i: nat, j: nat, id: Id)
    requires IsRun(states, events) && i < j < |states|
    requires events[i].Settle? && events[i].id == id && CanRelease(states[i].rows, id)
    ensures !CanRelease(states[j].rows, id)
    ensures forall s :: Level(states[i + 1].levels, s) == Level(states[i].levels, s)
    ensures forall s :: Level(states[i + 1].orphan, s) == Level(states[i].orphan, s) + Weight(states[i].rows[id].charge, s)
    ensures forall c <- states[j].calls | states[j].calls[c].Releasing? && states[j].calls[c].id == id ::
              states[j].calls[c].left.spend == map[]
  {
    RunSound(states, events, i);
    RunAdvances(states, events, i + 1, j);
    assert id in states[i + 1].rows && Advances(states[i + 1].rows[id], states[j].rows[id]);
    forall s ensures Level(states[i + 1].orphan, s) == Level(states[i].orphan, s) + Weight(states[i].rows[id].charge, s) {
      LevelAfterAdd(states[i].orphan, states[i].rows[id].charge, s);
    }
    forall c, rk | c in states[j].calls && states[j].calls[c].Releasing? && states[j].calls[c].id == id
                   && rk in states[j].calls[c].left.spend
      ensures false
    {
      assert Done(states[i + 1], id, rk);
      DoneForever(states, events, i + 1, j, id, rk);
    }
  }

  /** Undisturbed, the two attempts settle an OPEN row by the second and a RELEASED one by the first. */
  lemma TwoAttemptsSettle(st: State, c: nat, id: Id, cost: string)
    requires c !in st.calls && id in st.rows && st.rows[id].state != Settled
    ensures var first := Next(st, SettleReleased(c, id, cost));
            if st.rows[id].state == Released then first.rows == MarkSettled(st.rows, id, cost) && first.calls[c] == Finished
            else
              && first.calls == st.calls[c := Settling(id, cost)] && first.rows == st.rows && Enabled(first, SettleOpen(c))
              && Next(first, SettleOpen(c)).rows == MarkSettled(st.rows, id, cost)
  {
    hide AddCharge;
  }

  /**
   The Redis store settles in two attempts, RELEASED first and then OPEN. It answers None and
   leaves an unsettled row exactly when the row is not OPEN at the second attempt; for a row that
   is there from the start that means a release came in between.
   */
  lemma TwoAttemptSettleMisses(states: seq<State>, events: seq<Event>, i: nat, j: nat, c: nat)
    requires IsRun(states, events) && i < j < |events|
    requires events[i].SettleReleased? && events[i].call == c && events[j] == SettleOpen(c)
    requires events[i].id in states[i].rows
    requires states[i].rows[events[i].id].state != Released
    requires states[j].calls[c] == Settling(events[i].id, events[i].cost)
    ensures events[i].id in states[j].rows && events[i].id in states[j + 1].rows
    ensures var id := events[i].id;
            (states[j + 1].rows[id].state != Settled
             <==> states[i].rows[id].state == Open && states[j].rows[id].state == Released)
  {
    var id := events[i].id;
    RunAdvances(states, events, i, j);
    RunAdvances(states, events, j, j + 1);
    assert Advances(states[i].rows[id], states[j].rows[id]) && Advances(states[j].rows[id], states[j + 1].rows[id]);
  }
}
