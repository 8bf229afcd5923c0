/**
 What repeated reconciler passes come to. Every pass visits the gauges in the same order and spends its
 budget on the first ones that are out of sync; a disagreement between provider and ledger takes a unit
 every time and is never settled. So the disagreements ahead of a gauge decide whether it is ever reached.
 */
module Passes {
  import opened Prelude
  import opened Gauges
  import opened Activations
  import opened Repair
  import opened Reconcile

  // ---- The order of visits ------------------------------------------------------------------------

  datatype Visit = Visit(view: OrgView, rk: Resource)

  function OrgVisits(v: OrgView, keys: seq<Resource>): (xs: seq<Visit>)
    ensures |xs| == |keys| && forall j | 0 <= j < |keys| :: xs[j] == Visit(v, keys[j])
  {
    seq(|keys|, j requires 0 <= j < |keys| => Visit(v, keys[j]))
  }

  /** Org after org, and within an org key after key. */
  function Visits(views: seq<OrgView>, keys: seq<Resource>): seq<Visit>
  {
    if views == [] then [] else OrgVisits(views[0], keys) + Visits(views[1..], keys)
  }

  /** A pass that has budget left when it gets here acts on the gauge. */
  predicate PendingAt(cfg: Config, m: Levels, x: Visit)
  {
    Ready(x.view) && PlanGauge(cfg, x.view, m, x.rk).Set?
  }

  /** Provider and ledger disagree on it: it is pending whatever is written. */
  predicate StuckAt(cfg: Config, x: Visit) { Ready(x.view) && Diverges(cfg, x.view, x.rk) }

  function CountPending(cfg: Config, m: Levels, xs: seq<Visit>): nat
  {
    if xs == [] then 0
    else CountPending(cfg, m, xs[..|xs| - 1]) + if PendingAt(cfg, m, xs[|xs| - 1]) then 1 else 0
  }

  function CountStuck(cfg: Config, xs: seq<Visit>): nat
  {
    if xs == [] then 0 else CountStuck(cfg, xs[..|xs| - 1]) + if StuckAt(cfg, xs[|xs| - 1]) then 1 else 0
  }

  lemma StuckIsPending(cfg: Config, m: Levels, x: Visit)
    ensures StuckAt(cfg, x) ==> PendingAt(cfg, m, x)
  {
  }

  lemma {:induction false} CountJoin(cfg: Config, m: Levels, xs: seq<Visit>, ys: seq<Visit>)
    ensures CountPending(cfg, m, xs + ys) == CountPending(cfg, m, xs) + CountPending(cfg, m, ys)
    ensures CountStuck(cfg, xs + ys) == CountStuck(cfg, xs) + CountStuck(cfg, ys)
    decreases |ys|
  {
    hide PendingAt, StuckAt;
    if ys == [] {
      assert xs + ys == xs;
    } else {
      assert (xs + ys)[..|xs + ys| - 1] == xs + ys[..|ys| - 1];
      CountJoin(cfg, m, xs, ys[..|ys| - 1]);
    }
  }

  /** Pending and disagreeing gauges of one org, as the budget of a single call counts them. */
  lemma {:induction false} OrgCounts(cfg: Config, m: Levels, v: OrgView, keys: seq<Resource>)
    ensures CountPending(cfg, m, OrgVisits(v, keys)) == if Ready(v) then Pending(cfg, v, m, keys) else 0
    ensures CountStuck(cfg, OrgVisits(v, keys)) == if Ready(v) then Diverging(cfg, v, keys) else 0
    decreases |keys|
  {
    hide PlanGauge, Diverges;
    if keys == [] {
      assert OrgVisits(v, keys) == [];
    } else {
      assert OrgVisits(v, keys) == [Visit(v, keys[0])] + OrgVisits(v, keys[1..]);
      CountJoin(cfg, m, [Visit(v, keys[0])], OrgVisits(v, keys[1..]));
      CountOne(cfg, m, Visit(v, keys[0]));
      OrgCounts(cfg, m, v, keys[1..]);
    }
  }

  lemma CountOne(cfg: Config, m: Levels, x: Visit)
    ensures CountPending(cfg, m, [x]) == if PendingAt(cfg, m, x) then 1 else 0
    ensures CountStuck(cfg, [x]) == if StuckAt(cfg, x) then 1 else 0
  {
    hide PendingAt, StuckAt;
    assert [x][..0] == [];
  }

  lemma {:induction false} CountFrame(cfg: Config, m: Levels, m': Levels, xs: seq<Visit>)
    requires forall x <- xs :: Level(m, OrgSlot(x.view.org, x.rk)) == Level(m', OrgSlot(x.view.org, x.rk))
    ensures CountPending(cfg, m, xs) == CountPending(cfg, m', xs)
    decreases |xs|
  {
    if xs != [] {
      CountFrame(cfg, m, m', xs[..|xs| - 1]);
      hide PlanGauge;
      var x := xs[|xs| - 1];
      assert x in xs;
      if Ready(x.view) {
        PlanElsewhere(cfg, x.view, m, m', x.rk);
      }
    }
  }

  lemma {:induction false} VisitsOf(views: seq<OrgView>, keys: seq<Resource>)
    ensures forall x <- Visits(views, keys) :: x.view in views && x.rk in keys
    decreases |views|
  {
    if views != [] {
      VisitsOf(views[1..], keys);
    }
  }

  // ---- One pass, gauge by gauge ---------------------------------------------------------------------

  /** What became of one gauge: set to where the winning source says, every slot of it, or left alone. */
  ghost predicate Turned(cfg: Config, v: OrgView, m: Levels, m': Levels, rk: Resource, acted: bool)
    requires Ready(v)
  {
    if acted then GaugeLaw(cfg, v, m, m', rk)
    else forall s | OfGauge(s, v.org, rk) :: Level(m', s) == Level(m, s)
  }

  lemma TurnedFrame(cfg: Config, v: OrgView, a: Levels, a': Levels, b: Levels, b': Levels, rk: Resource, acted: bool)
    requires Ready(v) && Turned(cfg, v, a, b, rk, acted)
    requires forall s | OfGauge(s, v.org, rk) :: Level(a, s) == Level(a', s) && Level(b, s) == Level(b', s)
    ensures Turned(cfg, v, a', b', rk, acted)
  {
    hide GaugeLaw;
    if acted {
      GaugeLawFrame(cfg, v, a, a', b, b', rk);
    }
  }

  /** Within an org: a pending gauge is acted on exactly if fewer than the budget are pending before it. */
  lemma {:induction false} OrgTurn(cfg: Config, v: OrgView, m: Levels, budget: int, keys: seq<Resource>, j: nat)
    requires Ready(v) && DistinctKeys(keys) && j < |keys|
    ensures Turned(cfg, v, m, OrgPass(cfg, v, m, Some(budget), keys).levels, keys[j],
                   PlanGauge(cfg, v, m, keys[j]).Set? && Pending(cfg, v, m, keys[..j]) < Available(budget))
    decreases |keys|
  {
    hide PlanGauge, GaugeLaw, Apply, Counted;
    var plan, rest := PlanGauge(cfg, v, m, keys[0]), keys[1..];
    var acts := plan.Set? && budget > 0;
    var m1 := if acts then Apply(v, m, keys[0], plan) else m;
    var b1 := if acts then budget - 1 else budget;
    var end := OrgPass(cfg, v, m, Some(budget), keys).levels;
    assert !plan.Set? || acts ==> end == OrgPass(cfg, v, m1, Some(b1), rest).levels;
    assert plan.Set? && !acts ==> end == m;
    PendingFirst(cfg, v, m, keys, j);
    hide OrgPass, Pending, Turned;
    if plan.Set? && !acts {
      Untouched(cfg, v, m, keys[j]);
    } else if j == 0 {
      OrgTurnFirst(cfg, v, m, m1, b1, keys, acts);
    } else {
      OrgTurn(cfg, v, m1, b1, rest, j - 1);
      OrgTurnLater(cfg, v, m, m1, end, keys, j, acts, Available(b1));
    }
  }

  lemma Untouched(cfg: Config, v: OrgView, m: Levels, rk: Resource)
    requires Ready(v)
    ensures Turned(cfg, v, m, m, rk, false)
  {
  }

  lemma PendingFirst(cfg: Config, v: OrgView, m: Levels, keys: seq<Resource>, j: nat)
    requires Ready(v) && j < |keys|
    ensures Pending(cfg, v, m, keys[..0]) == 0
    ensures j > 0 ==> Pending(cfg, v, m, keys[..j])
                      == (if PlanGauge(cfg, v, m, keys[0]).Set? then 1 else 0) + Pending(cfg, v, m, keys[1..][..j - 1])
  {
    hide PlanGauge;
    if j > 0 {
      assert keys[..j][0] == keys[0] && keys[..j][1..] == keys[1..][..j - 1];
    }
  }

  lemma OrgTurnFirst(cfg: Config, v: OrgView, m: Levels, m1: Levels, b1: int, keys: seq<Resource>, acts: bool)
    requires Ready(v) && DistinctKeys(keys) && keys != []
    requires m1 == if acts then Apply(v, m, keys[0], PlanGauge(cfg, v, m, keys[0])) else m
    ensures Turned(cfg, v, m, OrgPass(cfg, v, m1, Some(b1), keys[1..]).levels, keys[0], acts)
  {
    hide PlanGauge, GaugeLaw, Apply, OrgPass;
    var end := OrgPass(cfg, v, m1, Some(b1), keys[1..]).levels;
    assert keys[0] !in keys[1..];
    if acts {
      ApplyLaw(cfg, v, m, keys[0]);
    }
    forall s | OfGauge(s, v.org, keys[0]) ensures Level(end, s) == Level(m1, s) {
      OrgPassElsewhere(cfg, v, m1, Some(b1), keys[1..], s);
    }
    TurnedFrame(cfg, v, m, m, m1, end, keys[0], acts);
  }

  lemma OrgTurnLater(cfg: Config, v: OrgView, m: Levels, m1: Levels, end: Levels, keys: seq<Resource>, j: nat, acts: bool,
                     available: nat)
    requires Ready(v) && DistinctKeys(keys) && 0 < j < |keys|
    requires m1 == if acts then Apply(v, m, keys[0], PlanGauge(cfg, v, m, keys[0])) else m
    requires Turned(cfg, v, m1, end, keys[j],
                    PlanGauge(cfg, v, m1, keys[j]).Set? && Pending(cfg, v, m1, keys[1..][..j - 1]) < available)
    ensures Turned(cfg, v, m, end, keys[j],
                   PlanGauge(cfg, v, m, keys[j]).Set? && Pending(cfg, v, m, keys[1..][..j - 1]) < available)
  {
    hide PlanGauge, GaugeLaw, Apply, Pending, Turned;
    forall rk, s | rk in keys[1..] && OfGauge(s, v.org, rk) ensures Level(m1, s) == Level(m, s) {
      if acts {
        ApplyElsewhere(v, m, keys[0], PlanGauge(cfg, v, m, keys[0]), s);
      }
    }
    assert keys[j] == keys[1..][j - 1] && OfGauge(OrgSlot(v.org, keys[j]), v.org, keys[j]);
    PlanElsewhere(cfg, v, m, m1, keys[j]);
    forall rk <- keys[1..][..j - 1] ensures Level(m, OrgSlot(v.org, rk)) == Level(m1, OrgSlot(v.org, rk)) {
      assert rk in keys[1..] && OfGauge(OrgSlot(v.org, rk), v.org, rk);
    }
    PendingFrame(cfg, v, m, m1, keys[1..][..j - 1]);
    TurnedFrame(cfg, v, m1, m, end, end, keys[j],
                PlanGauge(cfg, v, m1, keys[j]).Set? && Pending(cfg, v, m1, keys[1..][..j - 1]) < available);
  }

  /** The n-th visit lies in the first org, or is a visit of the others. */
  lemma VisitSplit(cfg: Config, views: seq<OrgView>, m: Levels, keys: seq<Resource>, n: nat)
    requires n < |Visits(views, keys)|
    ensures views != []
    ensures n < |keys| ==>
              && Visits(views, keys)[n] == Visit(views[0], keys[n])
              && Visits(views, keys)[..n] == OrgVisits(views[0], keys[..n])
    ensures n >= |keys| ==>
              && n - |keys| < |Visits(views[1..], keys)|
              && Visits(views, keys)[n] == Visits(views[1..], keys)[n - |keys|]
              && CountPending(cfg, m, Visits(views, keys)[..n])
                 == CountPending(cfg, m, OrgVisits(views[0], keys)) + CountPending(cfg, m, Visits(views[1..], keys)[..n - |keys|])
              && CountStuck(cfg, Visits(views, keys)[..n])
                 == CountStuck(cfg, OrgVisits(views[0], keys)) + CountStuck(cfg, Visits(views[1..], keys)[..n - |keys|])
  {
    hide CountPending, CountStuck;
    var first, rest := OrgVisits(views[0], keys), Visits(views[1..], keys);
    assert Visits(views, keys) == first + rest;
    if n >= |keys| {
      assert Visits(views, keys)[..n] == first + rest[..n - |keys|];
      CountJoin(cfg, m, first, rest[..n - |keys|]);
    }
  }

  /**
   A pass acts on exactly the first gauges that are out of sync, as many as its budget: one is acted on,
   and ends in every slot where the winning source says, if and only if fewer than the budget are out of
   sync ahead of it. Every other gauge keeps every slot.
   */
  lemma {:induction false} PassTurn(cfg: Config, views: seq<OrgView>, m: Levels, budget: int, done: nat,
                                    keys: seq<Resource>, n: nat)
    requires cfg.enabled && DistinctKeys(keys) && DistinctOrgs(views) && done + |views| <= cfg.maxOrgs
    requires n < |Visits(views, keys)| && Ready(Visits(views, keys)[n].view)
    ensures var x := Visits(views, keys)[n];
            Turned(cfg, x.view, m, Pass(cfg, views, m, budget, done, keys).levels, x.rk,
                   PendingAt(cfg, m, x) && CountPending(cfg, m, Visits(views, keys)[..n]) < Available(budget))
    decreases |views|
  {
    VisitSplit(cfg, views, m, keys, n);
    FirstOrg(cfg, views[0], m, budget, keys);
    var o := ReconciledOrg(cfg, views[0], m, Some(budget), keys);
    hide ReconciledOrg, CountPending, Visits, Turned, DistinctKeys, PlanGauge;
    if n < |keys| {
      FirstOrgTurn(cfg, views, m, budget, done, keys, n);
    } else if o.exhausted {
      var x := Visits(views, keys)[n];
      LaterOrg(views, keys, n);
      OtherOrg(cfg, views[0], m, budget, keys, x.view.org);
      Untouched(cfg, x.view, m, x.rk);
      TurnedFrame(cfg, x.view, m, m, m, o.levels, x.rk, false);
    } else {
      PassTurn(cfg, views[1..], o.levels, o.budget.value, done + 1, keys, n - |keys|);
      LaterOrgTurn(cfg, views, m, o.levels, Pass(cfg, views, m, budget, done, keys).levels, budget, keys, n,
                   Available(o.budget.value));
    }
  }

  /** What the first org takes of the budget. */
  lemma FirstOrg(cfg: Config, v: OrgView, m: Levels, budget: int, keys: seq<Resource>)
    requires cfg.enabled && DistinctKeys(keys)
    ensures var o := ReconciledOrg(cfg, v, m, Some(budget), keys);
            var n := CountPending(cfg, m, OrgVisits(v, keys));
            && o.budget == Some(budget - Min(n, Available(budget)))
            && (o.exhausted <==> n > Available(budget))
  {
    hide OrgPass, Pending, CountPending;
    OrgCounts(cfg, m, v, keys);
    if Ready(v) {
      OrgBudget(cfg, v, m, budget, keys);
    } else if !v.truth.Unreachable? {
      RecentIsIdle(cfg, v, m, Some(budget), keys);
    }
  }

  lemma FirstOrgTurn(cfg: Config, views: seq<OrgView>, m: Levels, budget: int, done: nat, keys: seq<Resource>, n: nat)
    requires cfg.enabled && DistinctKeys(keys) && DistinctOrgs(views) && done + |views| <= cfg.maxOrgs
    requires views != [] && Ready(views[0]) && n < |keys|
    ensures Turned(cfg, views[0], m, Pass(cfg, views, m, budget, done, keys).levels, keys[n],
                   && PendingAt(cfg, m, Visit(views[0], keys[n]))
                   && CountPending(cfg, m, OrgVisits(views[0], keys[..n])) < Available(budget))
  {
    hide OrgPass, Turned, PlanGauge, CountPending;
    var v := views[0];
    var o, end := OrgPass(cfg, v, m, Some(budget), keys), Pass(cfg, views, m, budget, done, keys).levels;
    OrgTurn(cfg, v, m, budget, keys, n);
    OrgCounts(cfg, m, v, keys[..n]);
    assert forall w <- views[1..] :: w.org != v.org;
    forall s | OfGauge(s, v.org, keys[n]) ensures Level(o.levels, s) == Level(end, s) {
      if !o.exhausted {
        PassElsewhere(cfg, views[1..], o.levels, if o.budget.Some? then o.budget.value else budget, done + 1, keys, s);
      }
    }
    hide Pass;
    TurnedFrame(cfg, v, m, m, o.levels, end, keys[n],
                PlanGauge(cfg, v, m, keys[n]).Set? && Pending(cfg, v, m, keys[..n]) < Available(budget));
  }

  lemma LaterOrg(views: seq<OrgView>, keys: seq<Resource>, n: nat)
    requires DistinctOrgs(views) && |keys| <= n < |Visits(views, keys)|
    ensures forall i | |keys| <= i < |Visits(views, keys)| :: Visits(views, keys)[i].view.org != views[0].org
  {
    VisitsOf(views[1..], keys);
    forall i | |keys| <= i < |Visits(views, keys)| ensures Visits(views, keys)[i].view.org != views[0].org {
      assert Visits(views, keys)[i] == Visits(views[1..], keys)[i - |keys|];
      assert Visits(views, keys)[i].view in views[1..];
    }
  }

  lemma OtherOrg(cfg: Config, v: OrgView, m: Levels, budget: int, keys: seq<Resource>, org: Org)
    requires org != v.org
    ensures forall s: Slot | s.org == org :: Level(ReconciledOrg(cfg, v, m, Some(budget), keys).levels, s) == Level(m, s)
  {
    hide ReconciledOrg;
    forall s: Slot | s.org == org ensures Level(ReconciledOrg(cfg, v, m, Some(budget), keys).levels, s) == Level(m, s) {
      ReconciledOrgElsewhere(cfg, v, m, Some(budget), keys, s);
    }
  }

  /** The turn of a later gauge, once the first org has been through. */
  lemma LaterOrgTurn(cfg: Config, views: seq<OrgView>, m: Levels, m1: Levels, end: Levels, budget: int,
                     keys: seq<Resource>, n: nat, left: nat)
    requires DistinctOrgs(views) && |keys| <= n < |Visits(views, keys)| && Ready(Visits(views, keys)[n].view)
    requires m1 == ReconciledOrg(cfg, views[0], m, Some(budget), keys).levels
    requires left == Available(budget) - CountPending(cfg, m, OrgVisits(views[0], keys))
    requires n - |keys| < |Visits(views[1..], keys)| && Visits(views, keys)[n] == Visits(views[1..], keys)[n - |keys|]
    requires var x := Visits(views, keys)[n];
             Turned(cfg, x.view, m1, end, x.rk,
                    PendingAt(cfg, m1, x) && CountPending(cfg, m1, Visits(views[1..], keys)[..n - |keys|]) < left)
    ensures var x := Visits(views, keys)[n];
            Turned(cfg, x.view, m, end, x.rk,
                   PendingAt(cfg, m, x) && CountPending(cfg, m, Visits(views, keys)[..n]) < Available(budget))
  {
    hide ReconciledOrg, CountPending, Turned, PlanGauge;
    VisitSplit(cfg, views, m, keys, n);
    LaterOrg(views, keys, n);
    hide Visits;
    var x, before := Visits(views, keys)[n], Visits(views[1..], keys)[..n - |keys|];
    OtherOrg(cfg, views[0], m, budget, keys, x.view.org);
    PlanElsewhere(cfg, x.view, m, m1, x.rk);
    VisitsOf(views[1..], keys);
    forall y <- before ensures Level(m, OrgSlot(y.view.org, y.rk)) == Level(m1, OrgSlot(y.view.org, y.rk)) {
      assert y in Visits(views[1..], keys) && y.view in views[1..];
      OtherOrg(cfg, views[0], m, budget, keys, y.view.org);
    }
    CountFrame(cfg, m, m1, before);
    TurnedFrame(cfg, x.view, m1, m, end, end, x.rk, PendingAt(cfg, m1, x) && CountPending(cfg, m1, before) < left);
  }

  // ---- One pass, in numbers ---------------------------------------------------------------------------

  /** After its turn a gauge is out of sync if it was before and diverges or was not acted on. */
  lemma TurnPending(cfg: Config, m: Levels, m': Levels, x: Visit, acted: bool)
    requires Ready(x.view) && Turned(cfg, x.view, m, m', x.rk, acted) && (acted ==> PendingAt(cfg, m, x))
    ensures PendingAt(cfg, m', x) <==> PendingAt(cfg, m, x) && (StuckAt(cfg, x) || !acted)
  {
    assert OfGauge(OrgSlot(x.view.org, x.rk), x.view.org, x.rk);
    if !acted {
      PlanElsewhere(cfg, x.view, m, m', x.rk);
      if PendingAt(cfg, m, x) {
        StuckIsPending(cfg, m, x);
      }
    }
  }

  /**
   Of the gauges up to a point, with D disagreements among them, P out of sync before the pass: if the
   budget reaches that far, only the disagreements are left; if not, it settles at least what they leave
   of it, and no more than all of it.
   */
  lemma {:induction false} PassCounts(cfg: Config, views: seq<OrgView>, m: Levels, budget: int, keys: seq<Resource>, n: nat)
    requires cfg.enabled && DistinctKeys(keys) && DistinctOrgs(views) && |views| <= cfg.maxOrgs
    requires n <= |Visits(views, keys)|
    ensures var xs, b := Visits(views, keys)[..n], Available(budget);
            var before := CountPending(cfg, m, xs);
            var after := CountPending(cfg, Pass(cfg, views, m, budget, 0, keys).levels, xs);
            && CountStuck(cfg, xs) <= after
            && (before <= b ==> after == CountStuck(cfg, xs))
            && (before >= b ==> before - b <= after <= before - b + CountStuck(cfg, xs))
    decreases n
  {
    hide Pass, PendingAt, StuckAt, Turned, Visits;
    if n > 0 {
      var all, m' := Visits(views, keys), Pass(cfg, views, m, budget, 0, keys).levels;
      var x := all[n - 1];
      PassCounts(cfg, views, m, budget, keys, n - 1);
      assert all[..n][..n - 1] == all[..n - 1] && all[..n][n - 1] == x;
      StuckIsPending(cfg, m, x);
      if !Ready(x.view) {
        NotReady(cfg, m, m', x);
      } else {
        PassTurn(cfg, views, m, budget, 0, keys, n - 1);
        TurnPending(cfg, m, m', x, PendingAt(cfg, m, x) && CountPending(cfg, m, all[..n - 1]) < Available(budget));
      }
    }
  }

  lemma NotReady(cfg: Config, m: Levels, m': Levels, x: Visit)
    requires !Ready(x.view)
    ensures !PendingAt(cfg, m, x) && !PendingAt(cfg, m', x) && !StuckAt(cfg, x)
  {
  }

  // ---- Repeated passes ------------------------------------------------------------------------------------

  ghost function AfterPasses(cfg: Config, views: seq<OrgView>, m: Levels, keys: seq<Resource>, k: nat): Levels
  {
    if k == 0 then m
    else Pass(cfg, views, AfterPasses(cfg, views, m, keys, k - 1), cfg.maxForceSets, 0, keys).levels
  }

  /** Gauges out of sync, and disagreements, ahead of the n-th visit. */
  ghost function Ahead(cfg: Config, views: seq<OrgView>, m: Levels, keys: seq<Resource>, n: nat): nat
    requires n <= |Visits(views, keys)|
  {
    CountPending(cfg, m, Visits(views, keys)[..n])
  }

  function StuckAhead(cfg: Config, views: seq<OrgView>, keys: seq<Resource>, n: nat): nat
    requires n <= |Visits(views, keys)|
  {
    CountStuck(cfg, Visits(views, keys)[..n])
  }

  /** How much of the budget the disagreements ahead leave. */
  function Moved(cfg: Config, views: seq<OrgView>, keys: seq<Resource>, n: nat): int
    requires n <= |Visits(views, keys)|
  {
    Available(cfg.maxForceSets) - StuckAhead(cfg, views, keys, n)
  }

  /** The records, the same in every pass, and the n-th gauge that is visited. */
  predicate Standing(cfg: Config, views: seq<OrgView>, keys: seq<Resource>, n: nat)
  {
    && cfg.enabled && DistinctKeys(keys) && DistinctOrgs(views) && |views| <= cfg.maxOrgs
    && n < |Visits(views, keys)| && Ready(Visits(views, keys)[n].view)
  }

  /** Once in sync, a gauge without a disagreement stays there. */
  lemma {:induction false} StaysInSync(cfg: Config, views: seq<OrgView>, m: Levels, keys: seq<Resource>, n: nat,
                                       j: nat, k: nat)
    requires Standing(cfg, views, keys, n) && j <= k
    requires !PendingAt(cfg, AfterPasses(cfg, views, m, keys, j), Visits(views, keys)[n])
    ensures !PendingAt(cfg, AfterPasses(cfg, views, m, keys, k), Visits(views, keys)[n])
    decreases k
  {
    hide Pass, PendingAt, StuckAt, Turned, Visits;
    if j < k {
      StaysInSync(cfg, views, m, keys, n, j, k - 1);
      var before := AfterPasses(cfg, views, m, keys, k - 1);
      PassTurn(cfg, views, before, cfg.maxForceSets, 0, keys, n);
      TurnPending(cfg, before, AfterPasses(cfg, views, m, keys, k), Visits(views, keys)[n], false);
    }
  }

  /**
   As long as a gauge without a disagreement is out of sync, every pass moves the ones ahead of it along
   by at least what their disagreements leave of the budget.
   */
  lemma {:induction false} QueueMoves(cfg: Config, views: seq<OrgView>, m: Levels, keys: seq<Resource>, n: nat, k: nat)
    requires Standing(cfg, views, keys, n) && !StuckAt(cfg, Visits(views, keys)[n])
    requires PendingAt(cfg, AfterPasses(cfg, views, m, keys, k), Visits(views, keys)[n])
    ensures var moved := Moved(cfg, views, keys, n);
            && Ahead(cfg, views, AfterPasses(cfg, views, m, keys, k), keys, n) <= Ahead(cfg, views, m, keys, n) - k * moved
            && (k > 0 ==> Ahead(cfg, views, m, keys, n) - (k - 1) * moved >= Available(cfg.maxForceSets))
    decreases k
  {
    hide Pass, PendingAt, StuckAt, Turned, Visits;
    if k > 0 {
      var before, x := AfterPasses(cfg, views, m, keys, k - 1), Visits(views, keys)[n];
      PassTurn(cfg, views, before, cfg.maxForceSets, 0, keys, n);
      TurnPending(cfg, before, AfterPasses(cfg, views, m, keys, k), x,
                  PendingAt(cfg, before, x) && Ahead(cfg, views, before, keys, n) < Available(cfg.maxForceSets));
      QueueMoves(cfg, views, m, keys, n, k - 1);
      PassCounts(cfg, views, before, cfg.maxForceSets, keys, n);
      var moved := Moved(cfg, views, keys, n);
      assert k * moved == (k - 1) * moved + moved;
    }
  }

  /** With as many disagreements ahead of it as the budget, no pass ever touches a slot of the gauge. */
  lemma {:induction false} NeverReached(cfg: Config, views: seq<OrgView>, m: Levels, keys: seq<Resource>, n: nat, k: nat)
    requires Standing(cfg, views, keys, n) && StuckAhead(cfg, views, keys, n) >= Available(cfg.maxForceSets)
    ensures var x := Visits(views, keys)[n];
            Turned(cfg, x.view, m, AfterPasses(cfg, views, m, keys, k), x.rk, false)
    decreases k
  {
    if k > 0 {
      NeverReached(cfg, views, m, keys, n, k - 1);
      hide Pass, PendingAt, StuckAt, Visits;
      var before := AfterPasses(cfg, views, m, keys, k - 1);
      PassTurn(cfg, views, before, cfg.maxForceSets, 0, keys, n);
      StuckCounted(cfg, before, Visits(views, keys)[..n]);
    }
  }

  lemma {:induction false} StuckCounted(cfg: Config, m: Levels, xs: seq<Visit>)
    ensures CountStuck(cfg, xs) <= CountPending(cfg, m, xs)
  {
    hide PendingAt, StuckAt;
    if xs != [] {
      StuckCounted(cfg, m, xs[..|xs| - 1]);
      StuckIsPending(cfg, m, xs[|xs| - 1]);
    }
  }

  /** After k passes the gauge is within reach of the next one. */
  ghost predicate MovedUp(cfg: Config, views: seq<OrgView>, m: Levels, keys: seq<Resource>, n: nat, k: nat)
    requires n <= |Visits(views, keys)|
  {
    Ahead(cfg, views, m, keys, n) - k * Moved(cfg, views, keys, n) < Available(cfg.maxForceSets)
  }

  ghost predicate InSyncAfter(cfg: Config, views: seq<OrgView>, m: Levels, keys: seq<Resource>, n: nat, k: nat)
    requires n < |Visits(views, keys)|
  {
    !PendingAt(cfg, AfterPasses(cfg, views, m, keys, k), Visits(views, keys)[n])
  }

  /**
   A gauge without a disagreement comes into sync after finitely many passes if and only if the
   disagreements ahead of it in visiting order, in earlier orgs and in earlier keys of its own, are fewer
   than the budget. Then it is in sync from the pass on by which the queue ahead of it has moved up.
   */
  lemma InSyncIff(cfg: Config, views: seq<OrgView>, m: Levels, keys: seq<Resource>, n: nat)
    requires Standing(cfg, views, keys, n)
    requires PendingAt(cfg, m, Visits(views, keys)[n]) && !StuckAt(cfg, Visits(views, keys)[n])
    ensures (exists k: nat :: InSyncAfter(cfg, views, m, keys, n, k))
       <==> StuckAhead(cfg, views, keys, n) < Available(cfg.maxForceSets)
    ensures forall k: nat | k > 0 && MovedUp(cfg, views, m, keys, n, k - 1) :: InSyncAfter(cfg, views, m, keys, n, k)
  {
    hide Pass, PendingAt, StuckAt, Turned, Visits;
    forall k: nat | k > 0 && MovedUp(cfg, views, m, keys, n, k - 1) ensures InSyncAfter(cfg, views, m, keys, n, k) {
      if !InSyncAfter(cfg, views, m, keys, n, k) {
        QueueMoves(cfg, views, m, keys, n, k);
      }
    }
    hide InSyncAfter;
    if StuckAhead(cfg, views, keys, n) < Available(cfg.maxForceSets) {
      var k := Ahead(cfg, views, m, keys, n) + 1;
      Multiplied(k - 1, Moved(cfg, views, keys, n));
      assert MovedUp(cfg, views, m, keys, n, k - 1);
      assert InSyncAfter(cfg, views, m, keys, n, k);
    } else {
      forall k: nat ensures !InSyncAfter(cfg, views, m, keys, n, k) {
        StarvedFor(cfg, views, m, keys, n, k);
      }
    }
  }

  lemma StarvedFor(cfg: Config, views: seq<OrgView>, m: Levels, keys: seq<Resource>, n: nat, k: nat)
    requires Standing(cfg, views, keys, n) && PendingAt(cfg, m, Visits(views, keys)[n])
    requires StuckAhead(cfg, views, keys, n) >= Available(cfg.maxForceSets)
    ensures !InSyncAfter(cfg, views, m, keys, n, k)
  {
    hide AfterPasses, PendingAt, StuckAt, Turned, Visits;
    NeverReached(cfg, views, m, keys, n, k);
    TurnPending(cfg, m, AfterPasses(cfg, views, m, keys, k), Visits(views, keys)[n], false);
  }

  lemma Multiplied(a: nat, b: int)
    requires b > 0
    ensures a * b >= a
  {
  }

  // ---- All gauges together ----------------------------------------------------------------------------------

  /**
   With no more disagreements in all than the budget, k passes leave the disagreements only, or have
   settled k times what those leave of the budget; and never more than k budgets.
   */
  lemma {:induction false} PassesSettle(cfg: Config, views: seq<OrgView>, m: Levels, keys: seq<Resource>, k: nat)
    requires cfg.enabled && DistinctKeys(keys) && DistinctOrgs(views) && |views| <= cfg.maxOrgs
    requires CountStuck(cfg, Visits(views, keys)) <= Available(cfg.maxForceSets)
    ensures var xs, b := Visits(views, keys), Available(cfg.maxForceSets);
            var stuck, first := CountStuck(cfg, xs), CountPending(cfg, m, xs);
            var left := CountPending(cfg, AfterPasses(cfg, views, m, keys, k), xs);
            && stuck <= left && first - k * b <= left
            && (left == stuck || left <= first - k * (b - stuck))
    decreases k
  {
    hide Pass, PendingAt, StuckAt, Visits, CountPending, CountStuck;
    var xs, b := Visits(views, keys), Available(cfg.maxForceSets);
    if k == 0 {
      StuckCounted(cfg, m, xs);
    } else {
      PassesSettle(cfg, views, m, keys, k - 1);
      PassCounts(cfg, views, AfterPasses(cfg, views, m, keys, k - 1), cfg.maxForceSets, keys, |xs|);
      assert xs[..|xs|] == xs;
      var moved := b - CountStuck(cfg, xs);
      assert k * moved == (k - 1) * moved + moved && k * b == (k - 1) * b + b;
    }
  }

  lemma {:induction false} CountsInAll(cfg: Config, views: seq<OrgView>, m: Levels, keys: seq<Resource>)
    requires AllReady(views)
    ensures CountPending(cfg, m, Visits(views, keys)) == PendingIn(cfg, views, m, keys)
    ensures AllAligned(cfg, views, keys) ==> CountStuck(cfg, Visits(views, keys)) == 0
    decreases |views|
  {
    hide Pending, Diverging;
    if views != [] {
      CountJoin(cfg, m, OrgVisits(views[0], keys), Visits(views[1..], keys));
      OrgCounts(cfg, m, views[0], keys);
      CountsInAll(cfg, views[1..], m, keys);
      assert AllAligned(cfg, views, keys) ==> Aligned(cfg, views[0], keys) && AllAligned(cfg, views[1..], keys);
    }
  }

  /** Without any, k passes settle k budgets' worth of gauges: enough of them leave nothing out of sync. */
  lemma PassesConverge(cfg: Config, views: seq<OrgView>, m: Levels, keys: seq<Resource>, k: nat)
    requires cfg.enabled && DistinctKeys(keys) && DistinctOrgs(views) && |views| <= cfg.maxOrgs
    requires AllAligned(cfg, views, keys)
    ensures PendingIn(cfg, views, AfterPasses(cfg, views, m, keys, k), keys)
         == Minus(PendingIn(cfg, views, m, keys), k * Available(cfg.maxForceSets))
  {
    hide AfterPasses, PendingIn, AllAligned, Visits, CountPending, CountStuck;
    CountsInAll(cfg, views, m, keys);
    CountsInAll(cfg, views, AfterPasses(cfg, views, m, keys, k), keys);
    PassesSettle(cfg, views, m, keys, k);
  }

  // ---- What a pass does not get to ------------------------------------------------------------------------------

  /** A budget that the first orgs' disagreements use up leaves nothing for any other org. */
  lemma {:induction false} PassStarves(cfg: Config, views: seq<OrgView>, m: Levels, budget: int, done: nat,
                                       keys: seq<Resource>, i: nat, s: Slot)
    requires cfg.enabled && DistinctKeys(keys) && i <= |views|
    requires CountStuck(cfg, Visits(views[..i], keys)) >= Available(budget)
    requires forall v <- views[..i] :: v.org != s.org
    ensures Level(Pass(cfg, views, m, budget, done, keys).levels, s) == Level(m, s)
    decreases |views|
  {
    hide ReconciledOrg, CountStuck, CountPending, DistinctKeys;
    if views != [] && done < cfg.maxOrgs {
      var v, o := views[0], ReconciledOrg(cfg, views[0], m, Some(budget), keys);
      FirstOrg(cfg, v, m, budget, keys);
      if i == 0 {
        NothingStuck(cfg);
        NoBudget(cfg, v, m, budget, keys);
        assert views[1..][..0] == views[..0] == [];
        if !o.exhausted {
          PassStarves(cfg, views[1..], o.levels, o.budget.value, done + 1, keys, 0, s);
        }
      } else {
        assert v in views[..i];
        OtherOrg(cfg, v, m, budget, keys, s.org);
        if !o.exhausted {
          StuckSplit(cfg, m, views, keys, i);
          PassStarves(cfg, views[1..], o.levels, o.budget.value, done + 1, keys, i - 1, s);
        }
      }
    }
  }

  lemma NothingStuck(cfg: Config)
    ensures CountStuck(cfg, []) == 0
  {
  }

  lemma StuckSplit(cfg: Config, m: Levels, views: seq<OrgView>, keys: seq<Resource>, i: nat)
    requires 0 < i <= |views|
    ensures CountStuck(cfg, Visits(views[..i], keys))
         <= CountPending(cfg, m, OrgVisits(views[0], keys)) + CountStuck(cfg, Visits(views[1..][..i - 1], keys))
    ensures forall v <- views[1..][..i - 1] :: v in views[..i]
  {
    hide CountStuck, CountPending, OrgVisits;
    assert views[..i][0] == views[0] && views[..i][1..] == views[1..][..i - 1];
    CountJoin(cfg, m, OrgVisits(views[0], keys), Visits(views[1..][..i - 1], keys));
    StuckCounted(cfg, m, OrgVisits(views[0], keys));
  }

  /** An org visited with nothing left of the budget is not touched. */
  lemma {:induction false} NoBudget(cfg: Config, v: OrgView, m: Levels, budget: int, keys: seq<Resource>)
    requires budget <= 0
    ensures ReconciledOrg(cfg, v, m, Some(budget), keys).levels == m
    decreases |keys|
  {
    hide PlanGauge;
    if keys != [] {
      NoBudget(cfg, v, m, budget, keys[1..]);
    }
  }

  /**
   Once the first orgs have as many disagreements as the budget, no pass ever reaches another org: those
   never come into sync.
   */
  lemma {:induction false} DivergencesStarve(cfg: Config, views: seq<OrgView>, m: Levels, keys: seq<Resource>,
                                             i: nat, k: nat, s: Slot)
    requires cfg.enabled && DistinctKeys(keys) && i <= |views|
    requires CountStuck(cfg, Visits(views[..i], keys)) >= Available(cfg.maxForceSets)
    requires forall v <- views[..i] :: v.org != s.org
    ensures Level(AfterPasses(cfg, views, m, keys, k), s) == Level(m, s)
    decreases k
  {
    hide Pass, CountStuck, DistinctKeys;
    if k > 0 {
      DivergencesStarve(cfg, views, m, keys, i, k - 1, s);
      PassStarves(cfg, views, AfterPasses(cfg, views, m, keys, k - 1), cfg.maxForceSets, 0, keys, i, s);
    }
  }

  /** The case of the first org alone: as many disagreements there as the budget are enough. */
  lemma FirstOrgStarves(cfg: Config, views: seq<OrgView>, m: Levels, keys: seq<Resource>, k: nat, s: Slot)
    requires cfg.enabled && DistinctKeys(keys) && views != [] && Ready(views[0])
    requires Diverging(cfg, views[0], keys) >= Available(cfg.maxForceSets)
    requires s.org != views[0].org
    ensures Level(AfterPasses(cfg, views, m, keys, k), s) == Level(m, s)
  {
    hide AfterPasses, Diverging, CountStuck, CountPending, DistinctKeys;
    OrgCounts(cfg, m, views[0], keys);
    assert views[..1] == [views[0]] && [views[0]][1..] == [];
    assert Visits([views[0]], keys) == OrgVisits(views[0], keys);
    DivergencesStarve(cfg, views, m, keys, 1, k, s);
  }

  /** A pass over more orgs than the cap is a pass over the first ones, with backpressure. */
  lemma {:induction false} PassCapped(cfg: Config, views: seq<OrgView>, m: Levels, budget: int, done: nat, keys: seq<Resource>)
    requires done <= cfg.maxOrgs
    ensures var capped := Pass(cfg, views[..Min(|views|, cfg.maxOrgs - done)], m, budget, done, keys);
            Pass(cfg, views, m, budget, done, keys)
              == capped.(backpressure := capped.backpressure || |views| > cfg.maxOrgs - done)
    decreases |views|
  {
    hide ReconciledOrg;
    if views != [] && done < cfg.maxOrgs {
      var o, n := ReconciledOrg(cfg, views[0], m, Some(budget), keys), Min(|views|, cfg.maxOrgs - done);
      assert views[..n][0] == views[0] && views[..n][1..] == views[1..][..n - 1];
      if !o.exhausted {
        PassCapped(cfg, views[1..], o.levels, if o.budget.Some? then o.budget.value else budget, done + 1, keys);
      }
    }
  }

  lemma {:induction false} PassesCapped(cfg: Config, views: seq<OrgView>, m: Levels, keys: seq<Resource>, k: nat)
    ensures AfterPasses(cfg, views, m, keys, k)
         == AfterPasses(cfg, views[..Min(|views|, cfg.maxOrgs)], m, keys, k)
    decreases k
  {
    hide Pass;
    if k > 0 {
      PassesCapped(cfg, views, m, keys, k - 1);
      PassCapped(cfg, views, AfterPasses(cfg, views, m, keys, k - 1), cfg.maxForceSets, 0, keys);
    }
  }

  /** So no pass ever reaches an org that comes after the cap. */
  lemma {:induction false} CapStarves(cfg: Config, views: seq<OrgView>, m: Levels, keys: seq<Resource>, k: nat, s: Slot)
    requires forall v <- views[..Min(|views|, cfg.maxOrgs)] :: v.org != s.org
    ensures Level(AfterPasses(cfg, views, m, keys, k), s) == Level(m, s)
    decreases k
  {
    hide Pass;
    if k > 0 {
      CapStarves(cfg, views, m, keys, k - 1, s);
      var before := AfterPasses(cfg, views, m, keys, k - 1);
      PassCapped(cfg, views, before, cfg.maxForceSets, 0, keys);
      PassElsewhere(cfg, views[..Min(|views|, cfg.maxOrgs)], before, cfg.maxForceSets, 0, keys, s);
    }
  }
}
