/**
 The reconciler's alerts about one gauge. A detection is rate-limited by a cooldown and leaves an
 active marker; an all-clear fires on the marker and ignores the cooldown. All of it lives in Redis
 keys with a TTL; a key counts while the clock has not reached its expiry.
 */
module Alerts {
  import opened Prelude

  datatype Kind = DriftAlert | DivergenceAlert | MissingAlert | SustainedAlert | ResolvedAlert

  datatype Sent = Sent(kind: Kind, at: nat)

  /** `cooldown` is a Redis expiry and so at least one second. */
  datatype Config = Config(cooldown: nat, threshold: nat)

  predicate Valid(cfg: Config) { cfg.cooldown > 0 }

  /** How long the active marker and the streak outlive their last detection. */
  function MarkerTtl(cfg: Config): nat { if 8 * cfg.cooldown > 3600 then 8 * cfg.cooldown else 3600 }

  datatype State = State(
    now: nat,
    active: Option<nat>,
    detectCd: Option<nat>,
    streak: nat,
    streakUntil: nat,
    sustainedCd: Option<nat>,
    sent: seq<Sent>)

  datatype Event = Tick(to: nat) | Drift | Divergence | Missing | Resolve

  function Initial(): State { State(0, None, None, 0, 0, None, []) }

  predicate Live(key: Option<nat>, now: nat) { key.Some? && now < key.value }

  predicate Enabled(st: State, e: Event) { e.Tick? ==> st.now <= e.to }

  /** Takes the detection cooldown and sends, or is rate-limited. */
  function Detect(st: State, cfg: Config, kind: Kind): State
  {
    if Live(st.detectCd, st.now) then st
    else st.(detectCd := Some(st.now + cfg.cooldown), sent := st.sent + [Sent(kind, st.now)])
  }

  /** One more consecutive heal; at the threshold an alert of its own, with its own cooldown. */
  function Track(st: State, cfg: Config): State
  {
    var streak := (if st.now < st.streakUntil then st.streak else 0) + 1;
    var tracked := st.(streak := streak, streakUntil := st.now + MarkerTtl(cfg));
    if streak < cfg.threshold || Live(st.sustainedCd, st.now) then tracked
    else tracked.(sustainedCd := Some(st.now + cfg.cooldown), sent := st.sent + [Sent(SustainedAlert, st.now)])
  }

  function Marked(st: State, cfg: Config): State { st.(active := Some(st.now + MarkerTtl(cfg))) }

  function Next(st: State, e: Event, cfg: Config): State
  {
    match e
    case Tick(to) => st.(now := to)
    case Drift => Detect(Marked(Track(st, cfg), cfg), cfg, DriftAlert)
    case Divergence => Detect(Marked(st, cfg), cfg, DivergenceAlert)
    case Missing => Detect(st, cfg, MissingAlert)
    case Resolve =>
      var cleared := st.(streak := 0, streakUntil := 0);
      if !Live(st.active, st.now) then cleared
      else cleared.(active := None, detectCd := None, sustainedCd := None, sent := st.sent + [Sent(ResolvedAlert, st.now)])
  }

  ghost predicate IsRun(states: seq<State>, events: seq<Event>, cfg: Config)
  {
    && |states| == |events| + 1
    && states[0] == Initial()
    && forall i | 0 <= i < |events| :: Enabled(states[i], events[i]) && states[i + 1] == Next(states[i], events[i], cfg)
  }

  // ---- Rate limits ---------------------------------------------------------------------------------

  predicate OnDetectChannel(k: Kind) { k.DriftAlert? || k.DivergenceAlert? || k.MissingAlert? }

  predicate SameChannel(a: Kind, b: Kind)
  {
    (OnDetectChannel(a) && OnDetectChannel(b)) || (a.SustainedAlert? && b.SustainedAlert?)
  }

  predicate ClearedBetween(sent: seq<Sent>, i: nat, j: nat)
    requires j <= |sent|
  {
    exists k | i < k < j :: sent[k].kind.ResolvedAlert?
  }

  /** Alerts of one channel keep their distance, unless an all-clear came between them. */
  predicate Spaced(sent: seq<Sent>, cooldown: nat)
  {
    forall i, j | 0 <= i < j < |sent| && SameChannel(sent[i].kind, sent[j].kind) ::
      ClearedBetween(sent, i, j) || sent[i].at + cooldown <= sent[j].at
  }

  /** The cooldown keys remember the latest alert of their channel since the last all-clear. */
  predicate Remembered(st: State, cfg: Config)
  {
    forall i | 0 <= i < |st.sent| && !ClearedBetween(st.sent, i, |st.sent|) && !st.sent[i].kind.ResolvedAlert? ::
      var key := if OnDetectChannel(st.sent[i].kind) then st.detectCd else st.sustainedCd;
      key.Some? && st.sent[i].at + cfg.cooldown <= key.value
  }

  predicate Inv(st: State, cfg: Config) { Spaced(st.sent, cfg.cooldown) && Remembered(st, cfg) }

  lemma ClearedFrame(sent: seq<Sent>, x: Sent, i: nat, j: nat)
    requires j <= |sent|
    ensures ClearedBetween(sent + [x], i, j) <==> ClearedBetween(sent, i, j)
  {
    var longer := sent + [x];
    if ClearedBetween(longer, i, j) {
      var k :| i < k < j && longer[k].kind.ResolvedAlert?;
      assert sent[k].kind.ResolvedAlert?;
    }
    if ClearedBetween(sent, i, j) {
      var k :| i < k < j && sent[k].kind.ResolvedAlert?;
      assert longer[k].kind.ResolvedAlert?;
    }
  }

  lemma ClearedSnoc(sent: seq<Sent>, x: Sent, i: nat)
    requires i < |sent|
    ensures ClearedBetween(sent + [x], i, |sent| + 1) <==> ClearedBetween(sent, i, |sent|) || x.kind.ResolvedAlert?
  {
    var longer := sent + [x];
    if ClearedBetween(longer, i, |sent| + 1) {
      var k :| i < k < |sent| + 1 && longer[k].kind.ResolvedAlert?;
      assert k < |sent| ==> sent[k].kind.ResolvedAlert?;
    }
    if ClearedBetween(sent, i, |sent|) {
      var k :| i < k < |sent| && sent[k].kind.ResolvedAlert?;
      assert longer[k].kind.ResolvedAlert?;
    }
    assert longer[|sent|] == x;
  }

  /** Sending on a channel whose cooldown is over. */
  lemma SendInv(st: State, cfg: Config, kind: Kind)
    requires Inv(st, cfg) && !kind.ResolvedAlert?
    requires !Live(if OnDetectChannel(kind) then st.detectCd else st.sustainedCd, st.now)
    ensures var sent := st.sent + [Sent(kind, st.now)];
            Inv(if OnDetectChannel(kind) then st.(detectCd := Some(st.now + cfg.cooldown), sent := sent)
                else st.(sustainedCd := Some(st.now + cfg.cooldown), sent := sent), cfg)
  {
    hide ClearedBetween;
    var x, sent, n := Sent(kind, st.now), st.sent + [Sent(kind, st.now)], |st.sent|;
    forall i, j | 0 <= i < j < n + 1 ensures ClearedBetween(sent, i, j) <==> ClearedBetween(st.sent, i, j) {
      ClearedFrame(st.sent, x, i, j);
    }
    forall i: nat | i < n ensures ClearedBetween(sent, i, n + 1) <==> ClearedBetween(st.sent, i, n) {
      ClearedSnoc(st.sent, x, i);
    }
  }

  lemma ClearInv(st: State, cfg: Config)
    requires Inv(st, cfg)
    ensures Inv(st.(active := None, detectCd := None, sustainedCd := None,
                    sent := st.sent + [Sent(ResolvedAlert, st.now)]), cfg)
  {
    hide ClearedBetween;
    var x, sent, n := Sent(ResolvedAlert, st.now), st.sent + [Sent(ResolvedAlert, st.now)], |st.sent|;
    forall i, j | 0 <= i < j < n + 1 ensures ClearedBetween(sent, i, j) <==> ClearedBetween(st.sent, i, j) {
      ClearedFrame(st.sent, x, i, j);
    }
    forall i: nat | i < n ensures ClearedBetween(sent, i, |sent|) {
      ClearedSnoc(st.sent, x, i);
    }
  }

  lemma NextInv(st: State, e: Event, cfg: Config)
    requires Inv(st, cfg)
    ensures Inv(Next(st, e, cfg), cfg)
  {
    hide Spaced;
    if e.Drift? && !(Track(st, cfg).sent == st.sent) {
      SendInv(st, cfg, SustainedAlert);
    }
    var before := if e.Drift? then Marked(Track(st, cfg), cfg) else if e.Divergence? then Marked(st, cfg) else st;
    if (e.Drift? || e.Divergence? || e.Missing?) && !Live(before.detectCd, before.now) {
      SendInv(before, cfg, if e.Drift? then DriftAlert else if e.Divergence? then DivergenceAlert else MissingAlert);
    }
    if e.Resolve? && Live(st.active, st.now) {
      ClearInv(st, cfg);
    }
  }

  lemma {:induction false} RunInv(states: seq<State>, events: seq<Event>, cfg: Config, i: nat)
    requires IsRun(states, events, cfg) && i < |states|
    ensures Inv(states[i], cfg)
  {
    hide Next, Inv, Enabled;
    if i > 0 {
      RunInv(states, events, cfg, i - 1);
      NextInv(states[i - 1], events[i - 1], cfg);
    } else {
      assert Inv(Initial(), cfg) by { NothingSent(cfg); }
    }
  }

  lemma NothingSent(cfg: Config)
    ensures Inv(Initial(), cfg)
  {
  }

  /** No alert storm: over any run two alerts of one channel are a cooldown apart, or an all-clear apart. */
  lemma AlertsAreSpaced(states: seq<State>, events: seq<Event>, cfg: Config, n: nat, i: nat, j: nat)
    requires IsRun(states, events, cfg) && n < |states| && i < j < |states[n].sent|
    requires SameChannel(states[n].sent[i].kind, states[n].sent[j].kind) && !ClearedBetween(states[n].sent, i, j)
    ensures states[n].sent[i].at + cfg.cooldown <= states[n].sent[j].at
  {
    RunInv(states, events, cfg, n);
  }

  // ---- The all-clear ---------------------------------------------------------------------------------

  predicate Detects(e: Event) { e.Drift? || e.Divergence? }

  /** An all-clear that was sent, not one that found nothing to clear. */
  predicate Clears(st: State, e: Event) { e.Resolve? && Live(st.active, st.now) }

  /** A drift was detected at k, recently enough, and has not been cleared since. */
  ghost predicate OutstandingFrom(states: seq<State>, events: seq<Event>, cfg: Config, i: nat, k: nat)
    requires i < |states| == |events| + 1
  {
    && k < i && Detects(events[k])
    && (states[i].now < states[k].now + 3600 || states[i].now < states[k].now + 8 * cfg.cooldown)
    && forall l | k < l < i :: !Clears(states[l], events[l])
  }

  lemma {:induction false} ActiveMeans(states: seq<State>, events: seq<Event>, cfg: Config, i: nat) returns (k: nat)
    requires IsRun(states, events, cfg) && i < |states| && Live(states[i].active, states[i].now)
    ensures OutstandingFrom(states, events, cfg, i, k) && states[i].active == Some(states[k].now + MarkerTtl(cfg))
  {
    assert i > 0;
    if Detects(events[i - 1]) {
      k := i - 1;
    } else {
      k := ActiveMeans(states, events, cfg, i - 1);
    }
  }

  lemma {:induction false} OutstandingIsActive(states: seq<State>, events: seq<Event>, cfg: Config, i: nat, k: nat)
    requires IsRun(states, events, cfg) && i < |states| && OutstandingFrom(states, events, cfg, i, k)
    ensures Live(states[i].active, states[i].now) && states[i].active.value >= states[k].now + MarkerTtl(cfg)
    ensures states[k].now <= states[i].now
    decreases i
  {
    if k < i - 1 {
      assert states[i - 1].now <= states[i].now;
      OutstandingIsActive(states, events, cfg, i - 1, k);
    }
  }

  /**
   An all-clear is sent if and only if a drift or divergence was detected within the marker's life and
   not cleared since, whatever the cooldowns say: a heal is never swallowed.
   */
  lemma AllClearIff(states: seq<State>, events: seq<Event>, cfg: Config, i: nat)
    requires IsRun(states, events, cfg) && i < |events| && events[i].Resolve?
    ensures states[i + 1].sent ==
              states[i].sent + (if Clears(states[i], events[i]) then [Sent(ResolvedAlert, states[i].now)] else [])
    ensures Clears(states[i], events[i]) <==> exists k :: OutstandingFrom(states, events, cfg, i, k)
  {
    if Live(states[i].active, states[i].now) {
      var k := ActiveMeans(states, events, cfg, i);
    } else {
      forall k ensures !OutstandingFrom(states, events, cfg, i, k) {
        if OutstandingFrom(states, events, cfg, i, k) {
          OutstandingIsActive(states, events, cfg, i, k);
        }
      }
    }
  }

  // ---- What the shared cooldown swallows -------------------------------------------------------------------

  /**
   A divergence is the alert about unbilled use, yet it shares its cooldown with plain drift and with
   missing observations. Right after one of those it goes unsent; the marker is set all the same, so
   the all-clear that follows has no such alarm before it.
   */
  lemma DivergenceSwallowed(cfg: Config, first: Event)
    requires Valid(cfg) && cfg.threshold > 1 && (first.Missing? || first.Drift?)
    ensures var one := Next(Initial(), first, cfg);
            var two := Next(one, Divergence, cfg);
            var three := Next(two, Resolve, cfg);
            && two.sent == one.sent == [Sent(if first.Missing? then MissingAlert else DriftAlert, 0)]
            && three.sent == one.sent + [Sent(ResolvedAlert, 0)]
  {
  }

  /** An alert of the channel less than a cooldown old, with no all-clear since. */
  ghost predicate Holding(sent: seq<Sent>, i: nat, now: nat, cooldown: nat, kind: Kind)
  {
    && i < |sent| && SameChannel(sent[i].kind, kind) && now < sent[i].at + cooldown
    && !ClearedBetween(sent, i, |sent|)
  }

  ghost predicate Held(st: State, cfg: Config, kind: Kind)
  {
    exists i :: Holding(st.sent, i, st.now, cfg.cooldown, kind)
  }

  function KeyOf(st: State, kind: Kind): Option<nat> { if OnDetectChannel(kind) then st.detectCd else st.sustainedCd }

  /** A cooldown key that is set was set by an alert of its channel that was sent, and not cleared since. */
  ghost predicate Founded(st: State, cfg: Config, kind: Kind)
  {
    KeyOf(st, kind).Some? ==> exists i: nat :: FoundedOn(st, cfg, i, kind)
  }

  ghost predicate FoundedOn(st: State, cfg: Config, i: nat, kind: Kind)
  {
    && i < |st.sent| && SameChannel(st.sent[i].kind, kind) && KeyOf(st, kind) == Some(st.sent[i].at + cfg.cooldown)
    && !ClearedBetween(st.sent, i, |st.sent|)
  }

  /** One more alert, no all-clear, the cooldown key untouched or taken by that alert. */
  lemma FoundedOnSend(st: State, cfg: Config, x: Sent, st': State, kind: Kind)
    requires Founded(st, cfg, kind) && !kind.ResolvedAlert? && !x.kind.ResolvedAlert? && st'.sent == st.sent + [x]
    requires KeyOf(st', kind) == if SameChannel(x.kind, kind) then Some(x.at + cfg.cooldown) else KeyOf(st, kind)
    ensures Founded(st', cfg, kind)
  {
    if SameChannel(x.kind, kind) {
      assert FoundedOn(st', cfg, |st.sent|, kind);
    } else if KeyOf(st, kind).Some? {
      var i: nat :| FoundedOn(st, cfg, i, kind);
      ClearedSnoc(st.sent, x, i);
      assert FoundedOn(st', cfg, i, kind);
    }
  }

  lemma FoundedOnSame(st: State, cfg: Config, st': State, kind: Kind)
    requires Founded(st, cfg, kind) && st'.sent == st.sent && KeyOf(st', kind) == KeyOf(st, kind)
    ensures Founded(st', cfg, kind)
  {
    if KeyOf(st, kind).Some? {
      var i: nat :| FoundedOn(st, cfg, i, kind);
      assert FoundedOn(st', cfg, i, kind);
    }
  }

  lemma DetectFounded(st: State, cfg: Config, sending: Kind, kind: Kind)
    requires Founded(st, cfg, kind) && OnDetectChannel(sending) && !kind.ResolvedAlert?
    ensures Founded(Detect(st, cfg, sending), cfg, kind)
  {
    if !Live(st.detectCd, st.now) {
      FoundedOnSend(st, cfg, Sent(sending, st.now), Detect(st, cfg, sending), kind);
    }
  }

  lemma TrackFounded(st: State, cfg: Config, kind: Kind)
    requires Founded(st, cfg, kind) && !kind.ResolvedAlert?
    ensures Founded(Marked(Track(st, cfg), cfg), cfg, kind)
  {
    var tracked := Marked(Track(st, cfg), cfg);
    if tracked.sent == st.sent {
      FoundedOnSame(st, cfg, tracked, kind);
    } else {
      FoundedOnSend(st, cfg, Sent(SustainedAlert, st.now), tracked, kind);
    }
  }

  lemma NextFounded(st: State, e: Event, cfg: Config, kind: Kind)
    requires Founded(st, cfg, kind) && !kind.ResolvedAlert?
    ensures Founded(Next(st, e, cfg), cfg, kind)
  {
    hide Founded, Track, Detect;
    FoundedOnSame(st, cfg, Marked(st, cfg), kind);
    match e
    case Drift =>
      TrackFounded(st, cfg, kind);
      DetectFounded(Marked(Track(st, cfg), cfg), cfg, DriftAlert, kind);
    case Divergence => DetectFounded(Marked(st, cfg), cfg, DivergenceAlert, kind);
    case Missing => DetectFounded(st, cfg, MissingAlert, kind);
    case Resolve =>
      if Live(st.active, st.now) {
        NotSetFounded(Next(st, e, cfg), cfg, kind);
      } else {
        FoundedOnSame(st, cfg, Next(st, e, cfg), kind);
      }
    case Tick(to) => FoundedOnSame(st, cfg, Next(st, e, cfg), kind);
  }

  lemma NotSetFounded(st: State, cfg: Config, kind: Kind)
    requires KeyOf(st, kind).None?
    ensures Founded(st, cfg, kind)
  {
  }

  lemma {:induction false} RunFounded(states: seq<State>, events: seq<Event>, cfg: Config, i: nat, kind: Kind)
    requires IsRun(states, events, cfg) && i < |states| && !kind.ResolvedAlert?
    ensures Founded(states[i], cfg, kind)
  {
    hide Next, Founded, Enabled;
    if i > 0 {
      RunFounded(states, events, cfg, i - 1, kind);
      NextFounded(states[i - 1], events[i - 1], cfg, kind);
    } else {
      NotSetFounded(Initial(), cfg, kind);
    }
  }

  /** A cooldown is running if and only if an alert of its channel still holds. */
  lemma LiveIff(states: seq<State>, events: seq<Event>, cfg: Config, n: nat, kind: Kind)
    requires IsRun(states, events, cfg) && n < |states| && !kind.ResolvedAlert?
    ensures Live(KeyOf(states[n], kind), states[n].now) <==> Held(states[n], cfg, kind)
  {
    var st := states[n];
    RunInv(states, events, cfg, n);
    RunFounded(states, events, cfg, n, kind);
    if Live(KeyOf(st, kind), st.now) {
      var i: nat :| FoundedOn(st, cfg, i, kind);
      assert Holding(st.sent, i, st.now, cfg.cooldown, kind);
    }
  }

  /**
   In any run a divergence alert is sent if and only if no alert of drift, divergence or missing
   observations was sent within the cooldown and not followed by an all-clear. Nothing else is sent.
   */
  lemma DivergenceSentIff(states: seq<State>, events: seq<Event>, cfg: Config, n: nat)
    requires IsRun(states, events, cfg) && n < |events| && events[n].Divergence?
    ensures var st := states[n];
            states[n + 1].sent == st.sent + if Held(st, cfg, DivergenceAlert) then [] else [Sent(DivergenceAlert, st.now)]
  {
    LiveIff(states, events, cfg, n, DivergenceAlert);
    hide Held;
  }

  /** So is one of a missing observation; it leaves no marker and breaks no streak. */
  lemma MissingSentIff(states: seq<State>, events: seq<Event>, cfg: Config, n: nat)
    requires IsRun(states, events, cfg) && n < |events| && events[n].Missing?
    ensures var st := states[n];
            && states[n + 1].sent == st.sent + (if Held(st, cfg, MissingAlert) then [] else [Sent(MissingAlert, st.now)])
            && states[n + 1].active == st.active && states[n + 1].streak == st.streak
  {
    LiveIff(states, events, cfg, n, MissingAlert);
    hide Held;
  }

  /**
   Detections of drift in a row, going back from a time: each less than an hour or eight cooldowns before the
   one after it, and no resolve call between. Cooldowns play no part.
   */
  function InARow(states: seq<State>, events: seq<Event>, cfg: Config, i: nat, until: nat): nat
    requires i <= |events| < |states|
  {
    if i == 0 || events[i - 1].Resolve? then 0
    else if !events[i - 1].Drift? then InARow(states, events, cfg, i - 1, until)
    else if until < states[i - 1].now + 3600 || until < states[i - 1].now + 8 * cfg.cooldown then
      1 + InARow(states, events, cfg, i - 1, states[i - 1].now)
    else 0
  }

  lemma {:induction false} StreakIs(states: seq<State>, events: seq<Event>, cfg: Config, i: nat, until: nat)
    requires IsRun(states, events, cfg) && i < |states| && states[i].now <= until
    ensures InARow(states, events, cfg, i, until) == if until < states[i].streakUntil then states[i].streak else 0
  {
    if i > 0 {
      assert states[i - 1].now <= states[i].now;
      StreakIs(states, events, cfg, i - 1, until);
      StreakIs(states, events, cfg, i - 1, states[i - 1].now);
    }
  }

  /**
   In any run a detection of drift sends a sustained alert if and only if it is at least the `threshold`-th in
   a row and no sustained alert holds; and then a drift alert if and only if no detection alert holds.
   */
  lemma DriftSentIff(states: seq<State>, events: seq<Event>, cfg: Config, n: nat)
    requires IsRun(states, events, cfg) && n < |events| && events[n].Drift?
    ensures var st := states[n];
            var sustained := InARow(states, events, cfg, n, st.now) + 1 >= cfg.threshold && !Held(st, cfg, SustainedAlert);
            states[n + 1].sent == st.sent + (if sustained then [Sent(SustainedAlert, st.now)] else [])
                                + (if Held(st, cfg, DriftAlert) then [] else [Sent(DriftAlert, st.now)])
  {
    LiveIff(states, events, cfg, n, SustainedAlert);
    LiveIff(states, events, cfg, n, DriftAlert);
    StreakIs(states, events, cfg, n, states[n].now);
    hide Held, InARow;
  }

  /**
   It is sent only when the gauge was healed at least `threshold` times running, each within an hour or eight
   cooldowns of the one before, without being found in sync.
   */
  lemma SustainedMeans(states: seq<State>, events: seq<Event>, cfg: Config, i: nat)
    requires IsRun(states, events, cfg) && i < |events| && events[i].Drift?
    requires |states[i].sent| < |states[i + 1].sent| && states[i + 1].sent[|states[i].sent|].kind.SustainedAlert?
    ensures InARow(states, events, cfg, i, states[i].now) + 1 >= cfg.threshold
  {
    DriftSentIff(states, events, cfg, i);
    hide InARow;
  }

  /** Nor is an alert put off for good: a drift a cooldown later is alerted again. */
  lemma AlertedAgain(cfg: Config) returns (states: seq<State>)
    requires cfg.threshold > 2
    ensures IsRun(states, [Drift, Tick(cfg.cooldown), Drift], cfg)
    ensures states[3].sent == [Sent(DriftAlert, 0), Sent(DriftAlert, cfg.cooldown)]
  {
    var s1 := Next(Initial(), Drift, cfg);
    var s2 := Next(s1, Tick(cfg.cooldown), cfg);
    states := [Initial(), s1, s2, Next(s2, Drift, cfg)];
  }

  // ---- The manager -------------------------------------------------------------------------------------------

  class DriftAlertManager {
    const cfg: Config
    var now: nat
    var active: Option<nat>
    var detectCd: Option<nat>
    var streak: nat
    var streakUntil: nat
    var sustainedCd: Option<nat>
    var sent: seq<Sent>

    constructor (cfg: Config)
      ensures this.cfg == cfg && Current() == Initial()
    {
      this.cfg := cfg;
      now, active, detectCd, streak, streakUntil, sustainedCd, sent := 0, None, None, 0, 0, None, [];
    }

    ghost function Current(): State
      reads this
    {
      State(now, active, detectCd, streak, streakUntil, sustainedCd, sent)
    }

    /** SET NX on the detection cooldown, then dispatch. */
    method Dispatch(kind: Kind) returns (dispatched: bool)
      modifies this`detectCd, this`sent
      ensures Current() == Detect(old(Current()), cfg, kind)
      ensures dispatched == (sent != old(sent))
    {
      if detectCd.Some? && now < detectCd.value {
        return false;
      }
      detectCd := Some(now + cfg.cooldown);
      sent := sent + [Sent(kind, now)];
      return true;
    }

    method DriftDetected() returns (dispatched: bool)
      modifies this
      ensures Current() == Next(old(Current()), Drift, cfg)
    {
      streak := (if now < streakUntil then streak else 0) + 1;
      streakUntil := now + MarkerTtl(cfg);
      if streak >= cfg.threshold && !(sustainedCd.Some? && now < sustainedCd.value) {
        sustainedCd := Some(now + cfg.cooldown);
        sent := sent + [Sent(SustainedAlert, now)];
      }
      active := Some(now + MarkerTtl(cfg));
      dispatched := Dispatch(DriftAlert);
    }

    method DivergenceDetected() returns (dispatched: bool)
      modifies this
      ensures Current() == Next(old(Current()), Divergence, cfg)
    {
      active := Some(now + MarkerTtl(cfg));
      dispatched := Dispatch(DivergenceAlert);
    }

    method MissingObservation() returns (dispatched: bool)
      modifies this
      ensures Current() == Next(old(Current()), Missing, cfg)
    {
      dispatched := Dispatch(MissingAlert);
    }

    method DriftResolved() returns (dispatched: bool)
      modifies this
      ensures Current() == Next(old(Current()), Resolve, cfg)
      ensures dispatched == Clears(old(Current()), Resolve)
    {
      var wasActive := active.Some? && now < active.value;
      streak, streakUntil := 0, 0;
      if !wasActive {
        return false;
      }
      active, detectCd, sustainedCd := None, None, None;
      sent := sent + [Sent(ResolvedAlert, now)];
      return true;
    }
  }
}
