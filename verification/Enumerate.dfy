/**
 Which orgs a reconciler pass visits when none are named, and in what order: those the ledger has an
 OPEN spend of, or, where a provider is the only record, those with a gauge counter of this service.
 */
module Enumerate {
  import opened Prelude
  import opened Sums
  import opened Gauges
  import opened Activations
  import Keyspace

  /** Orgs with an OPEN row that spends something: the ledger's own enumeration. */
  function OpenOrgs(rows: Rows): set<Org>
  {
    set id | id in rows && rows[id].state == Open && rows[id].charge.spend != map[] :: rows[id].charge.org
  }

  /** Orgs with a counter of one of the gauges; no gauge named is every gauge. */
  function CounterOrgs(m: Levels, gauges: set<Resource>): set<Org>
  {
    set s | s in m && s.OrgSlot? && (gauges == {} || s.rk in gauges) :: s.org
  }

  /**
   The ledger's enumeration misses no org that has anything OPEN on a gauge, and visits no org that has nothing
   OPEN at all.
   */
  lemma OpenOrgsCoverOpen(rows: Rows, org: Org)
    ensures org in OpenOrgs(rows) <==>
              exists id <- rows :: rows[id].state == Open && rows[id].charge.org == org && rows[id].charge.spend != map[]
    ensures (exists s: Slot :: s.org == org && OpenSum(rows, s) != 0.0) ==> org in OpenOrgs(rows)
  {
    if org !in OpenOrgs(rows) {
      forall s: Slot | s.org == org ensures OpenSum(rows, s) == 0.0 {
        SumZero(OpenWeights(rows, s));
      }
    }
  }

  /** The counters' enumeration visits exactly the orgs with an org total of one of the gauges. */
  lemma CounterOrgsIff(m: Levels, gauges: set<Resource>, org: Org)
    ensures org in CounterOrgs(m, gauges) <==>
              exists rk :: OrgSlot(org, rk) in m && (gauges == {} || rk in gauges)
  {
    if rk :| OrgSlot(org, rk) in m && (gauges == {} || rk in gauges) {
      assert OrgSlot(org, rk).org in CounterOrgs(m, gauges);
    }
  }

  // ---- Reading the counters off the keys ---------------------------------------------------------------

  /** A scanned key is a gauge of the given ones, of this service or of none. */
  predicate GaugeKey(key: string, own: Option<string>, gauges: set<Resource>)
  {
    var parsed := Keyspace.ParseCounterKey(key);
    && parsed.Some? && parsed.value.kind.Gauge? && (parsed.value.service.Some? ==> parsed.value.service == own)
    && (gauges == {} || parsed.value.rk in gauges)
  }

  /**
   Of the keys the library prints, the scan takes exactly the org-level gauges of its own service and of
   the shape without one, and reads the org off them. Per-user gauges, latches and markers are passed over,
   as are the gauges of another service in the same Redis.
   */
  lemma PrintedGaugeKey(shape: Keyspace.Shape, n: Keyspace.Name, own: Option<string>, gauges: set<Resource>)
    requires Keyspace.ValidShape(shape) && Keyspace.WellNamed(n) && !Keyspace.Refused(shape, n)
    requires Keyspace.UnderResource(n) ==> Keyspace.Carries(shape, n.org)
    ensures var key := Keyspace.Print(shape, n).value;
            && (GaugeKey(key, own, gauges) <==>
                  n.GaugeName? && (shape.V2? ==> own == Some(shape.service)) && (gauges == {} || n.rk in gauges))
            && (GaugeKey(key, own, gauges) ==> Keyspace.ParseCounterKey(key).value.org == n.org)
  {
    hide Keyspace.ParseCounterKey, Keyspace.Print, Keyspace.Refused, Keyspace.ValidShape, Keyspace.Carries;
    Keyspace.ParsePrinted(shape, n);
  }

  // ---- In order -------------------------------------------------------------------------------------------

  /** Strings by their first difference, a prefix first. */
  predicate Before(a: string, b: string)
  {
    b != "" && (a == "" || a[0] < b[0] || (a[0] == b[0] && Before(a[1..], b[1..])))
  }

  lemma {:induction false} BeforeTotal(a: string, b: string)
    ensures a == b || Before(a, b) || Before(b, a)
  {
    if a != "" && b != "" && a[0] == b[0] {
      BeforeTotal(a[1..], b[1..]);
      assert a == [a[0]] + a[1..] && b == [b[0]] + b[1..];
    }
  }

  lemma {:induction false} BeforeTrans(a: string, b: string, c: string)
    requires Before(a, b) && Before(b, c)
    ensures Before(a, c)
  {
    if a != "" && a[0] == b[0] == c[0] {
      BeforeTrans(a[1..], b[1..], c[1..]);
    }
  }

  lemma {:induction false} NotBeforeItself(a: string)
    ensures !Before(a, a)
  {
    if a != "" {
      NotBeforeItself(a[1..]);
    }
  }

  predicate Ascending(list: seq<Org>) { forall i, j | 0 <= i < j < |list| :: Before(list[i], list[j]) }

  /** The orgs of a set, each once, in order. */
  ghost predicate Lists(list: seq<Org>, orgs: set<Org>)
  {
    Ascending(list) && forall org :: org in list <==> org in orgs
  }

  function Insert(list: seq<Org>, org: Org): (longer: seq<Org>)
    requires Ascending(list) && org !in list
    ensures Ascending(longer) && forall o :: o in longer <==> o in list || o == org
  {
    if list == [] then [org]
    else if Before(org, list[0]) then
      assert Ascending([org] + list) by { FirstOfAll(list, org); }
      [org] + list
    else
      var rest := Insert(list[1..], org);
      assert Ascending([list[0]] + rest) by { AfterFirst(list, org, rest); }
      assert list == [list[0]] + list[1..];
      [list[0]] + rest
  }

  lemma FirstOfAll(list: seq<Org>, org: Org)
    requires Ascending(list) && list != [] && Before(org, list[0])
    ensures Ascending([org] + list)
  {
    forall j | 0 < j < |list| ensures Before(org, list[j]) {
      BeforeTrans(org, list[0], list[j]);
    }
  }

  lemma AfterFirst(list: seq<Org>, org: Org, rest: seq<Org>)
    requires Ascending(list) && list != [] && org != list[0] && !Before(org, list[0])
    requires Ascending(rest) && forall o :: o in rest <==> o in list[1..] || o == org
    ensures Ascending([list[0]] + rest)
  {
    BeforeTotal(org, list[0]);
    forall o <- rest ensures Before(list[0], o) {
      if o != org {
        var i :| 0 <= i < |list[1..]| && list[1..][i] == o;
        assert Before(list[0], list[i + 1]);
      }
    }
  }

  /** `sorted(...)` of a set of orgs. */
  method Sorted(orgs: set<Org>) returns (list: seq<Org>)
    ensures Lists(list, orgs)
  {
    list := [];
    var left := orgs;
    while left != {}
      invariant left <= orgs && Lists(list, orgs - left)
      decreases |left|
    {
      var org :| org in left;
      list := Insert(list, org);
      left := left - {org};
    }
  }

  /** The order leaves no choice: a pass always visits the same orgs in the same turn. */
  lemma {:induction false} OneListing(a: seq<Org>, b: seq<Org>, orgs: set<Org>)
    requires Lists(a, orgs) && Lists(b, orgs)
    ensures a == b
    decreases |a|
  {
    SomethingListed(a, orgs);
    SomethingListed(b, orgs);
    if a != [] && b != [] {
      SameFirst(a, b, orgs);
      ListsRest(a, orgs);
      ListsRest(b, orgs);
      OneListing(a[1..], b[1..], orgs - {a[0]});
    }
  }

  lemma SomethingListed(a: seq<Org>, orgs: set<Org>)
    requires Lists(a, orgs)
    ensures a != [] <==> orgs != {}
  {
    assert a != [] ==> a[0] in orgs;
  }

  lemma SameFirst(a: seq<Org>, b: seq<Org>, orgs: set<Org>)
    requires Lists(a, orgs) && Lists(b, orgs) && a != [] && b != []
    ensures a[0] == b[0]
  {
    assert a[0] in b && b[0] in a;
    var i :| 0 <= i < |b| && b[i] == a[0];
    var j :| 0 <= j < |a| && a[j] == b[0];
    if i > 0 && j > 0 {
      BeforeTrans(a[0], b[0], a[0]);
      NotBeforeItself(a[0]);
    }
  }

  lemma ListsRest(a: seq<Org>, orgs: set<Org>)
    requires Lists(a, orgs) && a != []
    ensures Lists(a[1..], orgs - {a[0]})
  {
    NotBeforeItself(a[0]);
    assert a == [a[0]] + a[1..];
    assert forall k | 0 <= k < |a[1..]| :: a[1..][k] == a[k + 1] && Before(a[0], a[k + 1]);
  }
}
