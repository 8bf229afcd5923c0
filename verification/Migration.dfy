/**
 The online move of every counter from its v1 key to its v2 twin, while counters keep being written.
 Every writer is dual: it seeds the twin from v1 if the twin is missing, then writes both. Backfill
 seeds the twins nobody writes. One script is one step; a backfill may stop after any key. The
 migrator finds counters by scanning v1 keys, so it sees only keys it can classify, and it raises
 on an org that no v2 key can carry.
 */
module Migration {
  import opened Prelude
  import opened Gauges
  import opened Keyspace

  // ---- Which keys the migrator sees, and their twins -----------------------------------------------

  datatype Classified = Classified(org: Org, rk: Resource, tail: string)

  function Classify(key: string): Option<Classified>
  {
    if !("quota:" <= key) || "quota:v2:" <= key then None
    else
      var parts := Split(key);
      if |parts| < 4 || !Has(parts[2], '.') || Versionish(parts[1]) then None
      else Some(Classified(parts[1], parts[2], Join(parts[3..])))
  }

  function TwinKey(service: string, c: Classified): Option<string>
  {
    if !ValidScope(c.org) then None
    else Some("quota:" + (OrgPart(V2(service), c.org) + (c.rk + ":" + c.tail)))
  }

  /** The families of tails a scan asks for. */
  predicate ScannedFor(key: string, tails: set<string>)
  {
    Classify(key).Some? && Split(Classify(key).value.tail)[0] in tails
  }

  const VALUE_TAILS: set<string> := {"gauge", "acc"}

  const REAP_TAILS: set<string> := {"gauge", "acc", "rate", "idem", "idemgen"}

  /** What backfill and verify visit. */
  predicate Scanned(key: string) { ScannedFor(key, VALUE_TAILS) }

  /** A twin key can be built for it. */
  predicate Twinable(key: string) { Classify(key).Some? && ValidScope(Classify(key).value.org) }

  /** Building the twin of a visited key raises, and takes the verb down with it. */
  predicate RaisesOn(key: string) { Scanned(key) && !Twinable(key) }

  /** Only the value families are backfilled and compared. */
  predicate ValueFamily(n: Name) { n.GaugeName? || n.UserName? || n.SeqName? || n.AccName? }

  lemma RenderedV1(p: Path)
    requires p.shape.V1?
    ensures Render(p) == "quota" + ":" + (p.org + ":" + (p.first + ":" + p.tail))
  {
  }

  lemma FourParts(a: string, b: string, c: string, rest: string)
    requires !Has(a, ':') && !Has(b, ':') && !Has(c, ':')
    ensures Split(a + ":" + (b + ":" + (c + ":" + rest))) == [a, b, c] + Split(rest)
  {
    hide Split;
    SplitFirst(a, b + ":" + (c + ":" + rest));
    SplitFirst(b, c + ":" + rest);
    SplitFirst(c, rest);
  }

  lemma PrintedParts(n: Name)
    requires UnderResource(n) && ResourceKey(n.rk) && !Has(n.org, ':')
    ensures Split(Print(V1, n).value) == ["quota", n.org, n.rk] + Split(Tail(n))
  {
    hide Split, Render, Tail;
    ResourceKeyShape(n.rk);
    RenderedV1(PathOf(V1, n));
    FourParts("quota", n.org, n.rk, Tail(n));
  }

  /** A place where a v1 key of a plain org differs from the opening of every v2 key. */
  lemma NotTaggedV2(n: Name) returns (k: nat)
    requires UnderResource(n) && PlainOrg(n.org)
    ensures "quota:" <= Print(V1, n).value
    ensures k < 9 && k < |Print(V1, n).value| && Print(V1, n).value[k] != "quota:v2:"[k]
  {
    var key := Print(V1, n).value;
    assert key[6..] == n.org + ":" + (n.rk + ":" + Tail(n));
    k := if |n.org| == 0 then 6 else if |n.org| == 1 then 7
         else if |n.org| > 2 then 8 else if n.org[0] == 'v' then 7 else 6;
    if |n.org| == 2 && n.org[0] == 'v' {
      assert !Digits(n.org[1..]);
      assert n.org[1..][0] == n.org[1];
    }
  }

  /** The migrator sends the v1 key of a counter to the v2 key of the same counter; or refuses its org. */
  lemma TwinOfPrinted(service: string, n: Name)
    requires ValidScope(service) && UnderResource(n) && ResourceKey(n.rk) && PlainOrg(n.org)
    ensures Classify(Print(V1, n).value) == Some(Classified(n.org, n.rk, Tail(n)))
    ensures TwinKey(service, Classified(n.org, n.rk, Tail(n))) == Print(V2(service), n)
  {
    PlainClassified(n);
  }

  lemma PlainClassified(n: Name)
    requires UnderResource(n) && ResourceKey(n.rk) && PlainOrg(n.org)
    ensures Classify(Print(V1, n).value) == Some(Classified(n.org, n.rk, Tail(n)))
  {
    hide Tail;
    ResourceKeyShape(n.rk);
    var _ := NotTaggedV2(n);
    PrintedParts(n);
    JoinSplit(Tail(n));
    var parts := ["quota", n.org, n.rk] + Split(Tail(n));
    assert parts[1] == n.org && parts[2] == n.rk && parts[3..] == Split(Tail(n));
  }

  /**
   Which keys of a plain org's resource the reap finds, by the first part of their tail: exactly gauges,
   accumulators, rate windows, latches and latch generations.
   */
  lemma ReapedFamilies(n: Name, tail: string)
    requires UnderResource(n) && ResourceKey(n.rk) && PlainOrg(n.org)
    ensures ScannedFor("quota" + ":" + (n.org + ":" + (n.rk + ":" + tail)), REAP_TAILS) <==>
              var family := Split(tail)[0];
              family == "gauge" || family == "acc" || family == "rate" || family == "idem" || family == "idemgen"
  {
    AnyTailClassified(n, tail);
    hide Split, Classify;
  }

  /** So every key the library prints under a plain org's resource is reaped. */
  lemma PrintedIsReaped(n: Name)
    requires UnderResource(n) && ResourceKey(n.rk) && PlainOrg(n.org)
    ensures ScannedFor(Print(V1, n).value, REAP_TAILS)
  {
    PlainClassified(n);
    TailParts(n);
    hide Split, Classify, Tail;
  }

  /** Any tail under a plain org's resource is classified by it. */
  lemma AnyTailClassified(n: Name, tail: string)
    requires UnderResource(n) && ResourceKey(n.rk) && PlainOrg(n.org)
    ensures Classify("quota" + ":" + (n.org + ":" + (n.rk + ":" + tail))) == Some(Classified(n.org, n.rk, tail))
  {
    hide Split;
    ResourceKeyShape(n.rk);
    NotTaggedAtAll(n, tail);
    FourParts("quota", n.org, n.rk, tail);
    JoinSplit(tail);
    var parts := ["quota", n.org, n.rk] + Split(tail);
    assert parts[1] == n.org && parts[2] == n.rk && parts[3..] == Split(tail);
  }

  lemma NotTaggedAtAll(n: Name, tail: string)
    requires UnderResource(n) && PlainOrg(n.org)
    ensures var key := "quota" + ":" + (n.org + ":" + (n.rk + ":" + tail)); "quota:" <= key && !("quota:v2:" <= key)
  {
    var key := "quota" + ":" + (n.org + ":" + (n.rk + ":" + tail));
    assert key[6..] == n.org + ":" + (n.rk + ":" + tail);
    var k := if |n.org| == 0 then 6 else if |n.org| == 1 then 7
             else if |n.org| > 2 then 8 else if n.org[0] == 'v' then 7 else 6;
    if |n.org| == 2 && n.org[0] == 'v' {
      assert !Digits(n.org[1..]);
      assert n.org[1..][0] == n.org[1];
    }
    assert key[k] != "quota:v2:"[k];
  }

  /** No v2 key, and no reconciler marker, is taken for a v1 counter. */
  lemma OnlyV1CountersClassified(shape: Shape, n: Name)
    requires ValidShape(shape) && !Refused(shape, n)
    requires shape.V2? || n.RecentName? || n.ReadRepairName?
    ensures Classify(Print(shape, n).value).None?
  {
    var p := PathOf(shape, n);
    if p.shape.V2? {
      TaggedNotClassified(p);
    } else {
      MarkerWords(shape, n);
      MarkerParts(p);
    }
  }

  lemma TaggedNotClassified(p: Path)
    requires p.shape.V2?
    ensures Classify(Render(p)).None?
  {
    assert Render(p)[..9] == "quota:v2:";
  }

  lemma MarkerParts(p: Path)
    requires p.shape.V1? && p.org == "reconcile" && !Has(p.first, ':') && !Has(p.first, '.')
    ensures Classify(Render(p)).None?
  {
    RenderedV1(p);
    FourParts("quota", "reconcile", p.first, p.tail);
    var parts := Split(Render(p));
    assert parts[2] == p.first;
  }

  /** The families a backfill copies are exactly those whose tail opens with `gauge` or `acc`. */
  lemma BackfilledFamilies(n: Name)
    requires UnderResource(n)
    ensures Split(Tail(n))[0] in {"gauge", "acc"} <==> ValueFamily(n)
  {
    TailParts(n);
  }

  /** So the counters of plain orgs are visited, and raise exactly when v2 refuses the org. */
  lemma PlainCounterScanned(n: Name)
    requires UnderResource(n) && ResourceKey(n.rk) && PlainOrg(n.org)
    ensures Scanned(Print(V1, n).value) <==> ValueFamily(n)
    ensures Twinable(Print(V1, n).value) <==> ValidScope(n.org)
  {
    PlainClassified(n);
    BackfilledFamilies(n);
  }

  // ---- Orgs the scan passes over -------------------------------------------------------------------

  lemma FiveParts(a: string, b: string, c: string, d: string, rest: string)
    requires !Has(a, ':') && !Has(b, ':') && !Has(c, ':') && !Has(d, ':')
    ensures Split(a + ":" + (b + ":" + (c + ":" + (d + ":" + rest)))) == [a, b, c, d] + Split(rest)
  {
    hide Split;
    SplitFirst(a, b + ":" + (c + ":" + (d + ":" + rest)));
    FourPartsTail(b, c, d, rest);
  }

  lemma FourPartsTail(b: string, c: string, d: string, rest: string)
    requires !Has(b, ':') && !Has(c, ':') && !Has(d, ':')
    ensures Split(b + ":" + (c + ":" + (d + ":" + rest))) == [b, c, d] + Split(rest)
  {
    FourParts(b, c, d, rest);
  }

  /**
   An org with a colon in it, which v1 embeds as it is: its counters are read as another org's, under
   a resource that is none of theirs, and no value counter among them is ever visited.
   */
  lemma ColonOrgSkipped(x: string, y: string, n: Name)
    requires UnderResource(n) && ResourceKey(n.rk) && n.org == x + ":" + y && !Has(x, ':') && !Has(y, ':')
    ensures !Scanned(Print(V1, n).value)
  {
    hide Split, Render, Tail, Join;
    var key := Print(V1, n).value;
    ResourceKeyShape(n.rk);
    RenderedV1(PathOf(V1, n));
    assert key == "quota" + ":" + (x + ":" + (y + ":" + (n.rk + ":" + Tail(n))));
    FiveParts("quota", x, y, n.rk, Tail(n));
    var parts := ["quota", x, y, n.rk] + Split(Tail(n));
    assert parts[1] == x && parts[2] == y && parts[3..] == [n.rk] + Split(Tail(n));
    JoinedTail(n.rk, Tail(n));
    SplitFirst(n.rk, Tail(n));
    assert ([n.rk] + Split(Tail(n)))[0] == n.rk;
    NoFamilyHasADot(n.rk);
  }

  lemma NoFamilyHasADot(rk: string)
    requires Has(rk, '.')
    ensures rk !in VALUE_TAILS
  {
  }

  lemma JoinedTail(a: string, tail: string)
    requires !Has(a, ':')
    ensures Join([a] + Split(tail)) == a + ":" + tail
  {
    SplitFirst(a, tail);
    JoinSplit(a + ":" + tail);
  }

  /** An org that looks like a version is not visited either. */
  lemma VersionOrgSkipped(n: Name)
    requires UnderResource(n) && ResourceKey(n.rk) && !Has(n.org, ':') && Versionish(n.org)
    ensures Classify(Print(V1, n).value).None?
  {
    hide Tail, Split;
    PrintedParts(n);
    var parts := ["quota", n.org, n.rk] + Split(Tail(n));
    assert parts[1] == n.org;
  }

  lemma {:induction false} SplitBoth(a: string, b: string)
    ensures Split(a + ":" + b) == Split(a) + Split(b)
  {
    var s := a + ":" + b;
    if a == "" {
      assert s[1..] == b;
    } else {
      assert s[1..] == a[1..] + ":" + b;
      SplitBoth(a[1..], b);
    }
  }

  /** Any printed v1 key, with the parts of its org in the middle. */
  lemma AnyParts(n: Name)
    requires UnderResource(n) && ResourceKey(n.rk)
    ensures Split(Print(V1, n).value) == ["quota"] + Split(n.org) + [n.rk] + Split(Tail(n))
    ensures "quota:" <= Print(V1, n).value
  {
    hide Split, Render, Tail;
    ResourceKeyShape(n.rk);
    RenderedV1(PathOf(V1, n));
    SplitFirst("quota", n.org + ":" + (n.rk + ":" + Tail(n)));
    SplitBoth(n.org, n.rk + ":" + Tail(n));
    SplitFirst(n.rk, Tail(n));
    assert Print(V1, n).value[..6] == "quota:";
  }

  lemma V2Parts(key: string)
    requires "quota:v2:" <= key
    ensures |Split(key)| >= 2 && Versionish(Split(key)[1])
  {
    hide Split;
    assert key == "quota" + ":" + ("v2" + ":" + key[9..]);
    SplitFirst("quota", "v2" + ":" + key[9..]);
    SplitFirst("v2", key[9..]);
  }

  lemma FirstOfJoin(parts: seq<string>)
    requires |parts| >= 1 && !Has(parts[0], ':')
    ensures Split(Join(parts))[0] == parts[0]
  {
    hide Split;
    if |parts| == 1 {
      WholePart(parts[0]);
    } else {
      SplitFirst(parts[0], Join(parts[1..]));
    }
  }

  lemma {:induction false} WholePart(a: string)
    requires !Has(a, ':')
    ensures Split(a) == [a]
  {
    if a != "" {
      WholePart(a[1..]);
      assert a == [a[0]] + a[1..];
    }
  }

  /** The scan looks at four parts of a key. */
  lemma ScannedParts(key: string)
    requires "quota:" <= key
    ensures var parts := Split(key);
            Scanned(key) <==> |parts| >= 4 && Has(parts[2], '.') && !Versionish(parts[1]) && parts[3] in VALUE_TAILS
  {
    hide Split, Join, Has, Versionish;
    var parts := Split(key);
    if "quota:v2:" <= key {
      V2Parts(key);
    } else if |parts| >= 4 {
      FirstOfJoin(parts[3..]);
    }
  }

  /**
   Exactly which printed v1 counters are visited, by the parts of the org's name: one part, the value
   counters of an org that looks like no version; two parts, none; three or more, every key of an org whose
   second part has a dot in it and whose third is a family of the scan.
   */
  lemma VisitedIff(n: Name)
    requires UnderResource(n) && ResourceKey(n.rk)
    ensures var org := Split(n.org);
            Scanned(Print(V1, n).value) <==>
              && !Versionish(org[0])
              && (if |org| == 1 then ValueFamily(n)
                  else |org| > 2 && Has(org[1], '.') && org[2] in VALUE_TAILS)
  {
    hide Split, Tail, Has, Versionish, Render, ValueFamily;
    var org := Split(n.org);
    var parts := ["quota"] + org + [n.rk] + Split(Tail(n));
    AnyParts(n);
    ScannedParts(Print(V1, n).value);
    BackfilledFamilies(n);
    assert Has(n.rk, '.') by { ResourceKeyShape(n.rk); }
    NoFamilyHasADot(n.rk);
    assert parts[1] == org[0];
    if |org| == 1 {
      assert parts[2] == n.rk && parts[3] == Split(Tail(n))[0];
    } else {
      assert parts[2] == org[1] && parts[3] == if |org| == 2 then n.rk else org[2];
    }
  }

  /** With two colons in an org its counter may even be another org's, key for key. */
  lemma ForgedCounterIsShared(x: string, y: string, rk: Resource)
    requires ResourceKey(rk)
    ensures Print(V1, GaugeName(x + ":" + y + ":gauge:user", rk)) == Print(V1, UserName(x, y, rk + ":gauge"))
  {
    var left := OrgPart(V1, x + ":" + y + ":gauge:user") + (rk + ":" + "gauge");
    var right := OrgPart(V1, x) + (y + ":" + ("gauge" + ":" + ("user" + ":" + (rk + ":gauge"))));
    assert left == right;
  }

  /** And such a counter need not be any org's: it is visited, yet no plain org has a counter of that key. */
  lemma StrayCounterVisited(x: string, y: Resource, z: string, rk: Resource, n: Name)
    requires PlainOrg(x) && ResourceKey(y) && ResourceKey(rk) && !Has(z, ':') && z != "user" && z != "seq"
    requires UnderResource(n) && ResourceKey(n.rk) && PlainOrg(n.org)
    ensures var stray := GaugeName(x + ":" + (y + ":" + ("gauge" + ":" + z)), rk);
            Scanned(Print(V1, stray).value) && Print(V1, n) != Print(V1, stray)
  {
    hide Split, Tail, Has, Versionish, Render, Scanned;
    var stray := GaugeName(x + ":" + (y + ":" + ("gauge" + ":" + z)), rk);
    ResourceKeyShape(y);
    StrayParts(x, y, z);
    WholePart(z);
    VisitedIff(stray);
    AnyParts(stray);
    AnyParts(n);
    WholePart(n.org);
    TailParts(n);
    GaugeParts(n);
    var parts := ["quota", n.org, n.rk] + Split(Tail(n));
    assert |parts| > 4 ==> parts[3] == Split(Tail(n))[0] && parts[4] == Split(Tail(n))[1];
    assert Split(Print(V1, n).value) == parts;
    assert Split(Print(V1, stray).value)[3] == "gauge" && Split(Print(V1, stray).value)[4] == z;
  }

  lemma StrayParts(x: string, y: string, z: string)
    requires !Has(x, ':') && !Has(y, ':') && !Has(z, ':')
    ensures Split(x + ":" + (y + ":" + ("gauge" + ":" + z))) == [x, y, "gauge", z]
  {
    hide Split;
    FourParts(x, y, "gauge", z);
    WholePart(z);
  }

  lemma GaugeParts(n: Name)
    requires UnderResource(n)
    ensures var parts := Split(Tail(n));
            parts[0] == "gauge" ==> |parts| == 1 || parts[1] == "user" || parts[1] == "seq"
  {
    hide Split;
    TailParts(n);
  }

  // ---- Twins of different keys are different ------------------------------------------------------------

  lemma ClassifiedParts(key: string)
    requires Classify(key).Some?
    ensures var c := Classify(key).value;
            && !Has(c.org, ':') && !Has(c.rk, ':')
            && key == "quota" + ":" + (c.org + ":" + (c.rk + ":" + c.tail))
  {
    hide Join;
    var parts, c := Split(key), Classify(key).value;
    SplitFirst("quota", key[6..]);
    assert key == "quota" + ":" + key[6..];
    assert parts[0] == "quota";
    JoinSplit(key);
    JoinFirst(parts);
    JoinFirst(parts[1..]);
    JoinFirst(parts[2..]);
    assert parts[1..][1..] == parts[2..] && parts[2..][1..] == parts[3..];
  }

  lemma JoinFirst(parts: seq<string>)
    requires |parts| >= 2
    ensures Join(parts) == parts[0] + ":" + Join(parts[1..])
  {
  }

  /** A v2 key, read back. */
  lemma TwinReads(service: string, c: Classified)
    requires ValidScope(service) && ValidScope(c.org) && !Has(c.rk, ':')
    ensures var key := TwinKey(service, c).value;
            && "quota:v2:" <= key && "v2:{" <= key[6..]
            && TaggedScope(key[6..]) == Some(Scoped(Some(service), c.org, [c.rk] + Split(c.tail)))
  {
    var body := c.rk + ":" + c.tail;
    var rest := OrgPart(V2(service), c.org) + body;
    var key := TwinKey(service, c).value;
    assert key[..9] == "quota:v2:" && key[6..] == rest;
    assert rest[..4] == "v2:{";
    SplitFirst(c.rk, c.tail);
    ScopeOfV2(service, c.org, body, rest);
  }

  /**
   So a v1 key may stand for its pair: two visited keys never share a twin, and no twin is itself a
   v1 key that would be visited.
   */
  lemma TwinsApart(service: string, a: string, b: string)
    requires ValidScope(service) && Twinable(a) && Twinable(b)
    requires TwinKey(service, Classify(a).value) == TwinKey(service, Classify(b).value)
    ensures a == b
    ensures Classify(TwinKey(service, Classify(a).value).value).None?
  {
    hide TwinKey, TaggedScope, Split, Join, ValidScope;
    var ca, cb := Classify(a).value, Classify(b).value;
    ClassifiedParts(a);
    ClassifiedParts(b);
    TwinReads(service, ca);
    TwinReads(service, cb);
    SameScope(ca.rk, ca.tail, cb.rk, cb.tail);
  }

  lemma SameScope(rk1: string, tail1: string, rk2: string, tail2: string)
    requires [rk1] + Split(tail1) == [rk2] + Split(tail2)
    ensures rk1 == rk2 && tail1 == tail2
  {
    var one, two := [rk1] + Split(tail1), [rk2] + Split(tail2);
    assert one[0] == rk1 && two[0] == rk2 && one[1..] == Split(tail1) && two[1..] == Split(tail2);
    JoinSplit(tail1);
    JoinSplit(tail2);
  }

  // ---- Both keys of a counter, and what a script does to them ------------------------------------------

  /** What the two keys of one counter hold; None is a missing key. */
  datatype Both = Both(v1: Option<real>, v2: Option<real>)

  /** Redis, by v1 key: each with its twin. */
  type Counters = map<string, Both>

  function At(c: Counters, k: string): Both { if k in c then c[k] else Both(None, None) }

  /** What one script does to one counter. */
  datatype Action = Seed | Add(d: real) | Subtract(d: real) | Put(x: real)

  /** `seedv2`, and the backfill's script: copy only into a missing twin. */
  function Seeded(b: Both): Both { if b.v2.None? && b.v1.Some? then Both(b.v1, b.v1) else b }

  function Value(o: Option<real>): real { if o.Some? then o.value else 0.0 }

  function Act(b: Both, a: Action): Both
  {
    var s := Seeded(b);
    match a
    case Seed => s
    case Add(d) => Both(Some(Value(s.v1) + d), Some(Value(s.v2) + d))
    case Subtract(d) => Both(Some(Max0(Value(s.v1) - d)), Some(Max0(Value(s.v2) - d)))
    case Put(x) => Both(Some(x), Some(x))
  }

  datatype Event =
    | Script(actions: map<string, Action>)   // a hot-path script or a reset: all its keys at once
    | BackfillKey(key: string)               // one step of a backfill

  function ActionsOf(e: Event): map<string, Action>
  {
    match e
    case Script(actions) => actions
    case BackfillKey(k) => map[k := Seed]
  }

  /** A dual writer builds both keys first, and raises for an org that v2 refuses. */
  predicate Enabled(e: Event)
  {
    match e
    case Script(actions) => forall k <- actions :: Twinable(k)
    case BackfillKey(k) => Scanned(k) && Twinable(k)
  }

  function Next(c: Counters, e: Event): Counters
  {
    var actions := ActionsOf(e);
    map k | k in c.Keys + actions.Keys :: if k in actions then Act(At(c, k), actions[k]) else At(c, k)
  }

  /** Before the dual window opens no counter has a twin. */
  predicate Untouched(c: Counters) { forall k <- c :: c[k].v2.None? }

  ghost predicate IsRun(states: seq<Counters>, events: seq<Event>)
  {
    && |states| == |events| + 1
    && Untouched(states[0])
    && forall i | 0 <= i < |events| :: Enabled(events[i]) && states[i + 1] == Next(states[i], events[i])
  }

  // ---- Twins ---------------------------------------------------------------------------------------

  predicate Twinned(b: Both) { b.v2.Some? ==> b.v1 == b.v2 }

  predicate Untwinned(c: Counters, k: string) { At(c, k).v1.Some? && At(c, k).v2.None? }

  lemma StepTwinned(c: Counters, e: Event, k: string)
    ensures At(Next(c, e), k) == if k in ActionsOf(e) then Act(At(c, k), ActionsOf(e)[k]) else At(c, k)
    ensures Twinned(At(c, k)) ==> Twinned(At(Next(c, e), k))
    ensures Untwinned(Next(c, e), k) ==> Untwinned(c, k) && k !in ActionsOf(e)
  {
  }

  /** In every state of every interleaving each twin is absent or equal to its v1 value. */
  lemma {:induction false} TwinsStayEqual(states: seq<Counters>, events: seq<Event>, i: nat, k: string)
    requires IsRun(states, events) && i < |states|
    ensures Twinned(At(states[i], k))
  {
    hide Enabled;
    if i > 0 {
      TwinsStayEqual(states, events, i - 1, k);
      StepTwinned(states[i - 1], events[i - 1], k);
    }
  }

  /** A twin once there stays there. */
  lemma {:induction false} TwinStays(states: seq<Counters>, events: seq<Event>, i: nat, j: nat, k: string)
    requires IsRun(states, events) && i <= j < |states| && !Untwinned(states[i], k)
    ensures !Untwinned(states[j], k)
    decreases j
  {
    hide Enabled;
    if i < j {
      TwinStays(states, events, i, j - 1, k);
      StepTwinned(states[j - 1], events[j - 1], k);
    }
  }

  /** What no v2 key can carry stays as the dual window found it. */
  lemma {:induction false} RefusedStays(states: seq<Counters>, events: seq<Event>, i: nat, j: nat, k: string)
    requires IsRun(states, events) && i <= j < |states| && !Twinable(k)
    ensures At(states[j], k) == At(states[i], k)
    decreases j
  {
    hide Twinable, Scanned;
    if i < j {
      RefusedStays(states, events, i, j - 1, k);
      assert Enabled(events[j - 1]);
      StepTwinned(states[j - 1], events[j - 1], k);
    }
  }

  /** The keys an unbudgeted backfill gets to: all it visits that lacked a twin when it started. */
  ghost predicate BackfillsAll(states: seq<Counters>, events: seq<Event>, i: nat, j: nat)
    requires i <= j <= |events| && |states| == |events| + 1
  {
    forall k | Scanned(k) && Untwinned(states[i], k) :: exists n | i <= n < j :: events[n] == BackfillKey(k)
  }

  /**
   Between its first and last key anything may be written; when it is done no visited counter lacks
   its twin. It cannot be done while it visits a counter of an org that v2 refuses.
   */
  lemma BackfillLeavesNoneAbsent(states: seq<Counters>, events: seq<Event>, i: nat, j: nat, k: string)
    requires IsRun(states, events) && i <= j <= |events| && BackfillsAll(states, events, i, j)
    ensures Scanned(k) ==> !Untwinned(states[j], k)
    ensures RaisesOn(k) ==> !Untwinned(states[i], k)
  {
    hide Twinable, Scanned;
    if Scanned(k) {
      if Untwinned(states[i], k) {
        var n :| i <= n < j && events[n] == BackfillKey(k);
        assert Enabled(events[n]);
        StepTwinned(states[n], events[n], k);
        TwinStays(states, events, n + 1, j, k);
      } else {
        TwinStays(states, events, i, j, k);
      }
    }
  }

  // ---- Verify and the switch of the read shape ------------------------------------------------------------

  datatype VerifyResult = Raised | Passed | Failed

  /** The comparison of one key. */
  predicate Agrees(b: Both, tolerance: real)
  {
    b.v1.Some? ==> b.v2.Some? && Abs(b.v1.value - b.v2.value) <= tolerance
  }

  predicate Visited(c: Counters, k: string) { k in c && c[k].v1.Some? && Scanned(k) }

  function VerifyOf(c: Counters, tolerance: real): VerifyResult
  {
    if exists k <- c :: Visited(c, k) && !Twinable(k) then Raised
    else if forall k <- c :: Visited(c, k) ==> Agrees(c[k], tolerance) then Passed
    else Failed
  }

  /**
   At any quiet moment of a run: verify completes if and only if v2 refuses no org of a visited
   counter, and then it passes if and only if no visited counter lacks its twin.
   */
  lemma VerifyPassesIff(states: seq<Counters>, events: seq<Event>, i: nat, tolerance: real)
    requires IsRun(states, events) && i < |states| && tolerance >= 0.0
    ensures VerifyOf(states[i], tolerance).Raised? <==> exists k <- states[i] :: Visited(states[i], k) && !Twinable(k)
    ensures VerifyOf(states[i], tolerance).Passed? <==>
              && (forall k <- states[i] :: Visited(states[i], k) ==> Twinable(k))
              && (forall k | Scanned(k) :: !Untwinned(states[i], k))
  {
    hide Twinable, Scanned;
    var c := states[i];
    forall k <- c ensures Visited(c, k) ==> (Agrees(c[k], tolerance) <==> !Untwinned(c, k)) {
      TwinsStayEqual(states, events, i, k);
    }
    assert forall k | Scanned(k) :: Untwinned(c, k) ==> k in c && Visited(c, k);
  }

  /** A counter of a plain org, as the engine names it. */
  predicate PlainCounter(n: Name) { ValueFamily(n) && ResourceKey(n.rk) && PlainOrg(n.org) }

  /** What a passing verify says of a named counter; one of a colon org it says nothing of. */
  lemma VerifiedCounter(states: seq<Counters>, events: seq<Event>, i: nat, tolerance: real, n: Name)
    requires IsRun(states, events) && i < |states| && tolerance >= 0.0
    requires VerifyOf(states[i], tolerance).Passed? && PlainCounter(n)
    ensures !Untwinned(states[i], Print(V1, n).value)
    ensures At(states[i], Print(V1, n).value).v1.Some? ==> ValidScope(n.org)
  {
    hide VerifyOf;
    VerifyPassesIff(states, events, i, tolerance);
    PlainCounterScanned(n);
  }

  /** After a completed backfill every counter of a plain org has its twin; and then v2 can carry the org. */
  lemma BackfilledCounter(states: seq<Counters>, events: seq<Event>, i: nat, j: nat, n: Name)
    requires IsRun(states, events) && i <= j <= |events| && BackfillsAll(states, events, i, j) && PlainCounter(n)
    ensures !Untwinned(states[j], Print(V1, n).value)
    ensures Untwinned(states[i], Print(V1, n).value) ==> ValidScope(n.org)
  {
    hide IsRun, BackfillsAll;
    PlainCounterScanned(n);
    BackfillLeavesNoneAbsent(states, events, i, j, Print(V1, n).value);
  }

  /** Two v1 counters that the verbs do not see, and one that stops them. */
  lemma UnseenAndRefused(x: string, y: string, refused: Org, rk: Resource, tolerance: real)
    requires ResourceKey(rk) && !Has(x, ':') && !Has(y, ':') && PlainOrg(refused) && !ValidScope(refused)
    ensures var c := map[Print(V1, GaugeName(x + ":" + y, rk)).value := Both(Some(1.0), None)];
            VerifyOf(c, tolerance).Passed? && Untwinned(c, Print(V1, GaugeName(x + ":" + y, rk)).value)
    ensures VerifyOf(map[Print(V1, GaugeName(refused, rk)).value := Both(Some(1.0), None)], tolerance).Raised?
  {
    hide Twinable, Scanned;
    ColonOrgSkipped(x, y, GaugeName(x + ":" + y, rk));
    PlainCounterScanned(GaugeName(refused, rk));
    var k := Print(V1, GaugeName(refused, rk)).value;
    assert Visited(map[k := Both(Some(1.0), None)], k);
  }

  /**
   A counter's reading under a declared keyspace: the authoritative shape, else its twin if dual.
   None where the key to be read cannot be built: `get` raises.
   */
  function Reading(org: Org, b: Both, version: nat, dual: bool): Option<real>
    requires version == 1 || version == 2
  {
    if version == 1 then
      if b.v1.Some? then b.v1
      else if !dual then Some(0.0)
      else if ValidScope(org) then Some(Value(b.v2)) else None
    else if !ValidScope(org) then None
    else if b.v2.Some? then b.v2
    else if dual then Some(Value(b.v1)) else Some(0.0)
  }

  /** A counter that was never written reads zero wherever its key can be built, and v1 alone reads v1 alone. */
  lemma UnwrittenReadsZero(org: Org, b: Both, version: nat, dual: bool)
    requires version == 1 || version == 2
    ensures ValidScope(org) ==> Reading(org, Both(None, None), version, dual) == Some(0.0)
    ensures Reading(org, b, 1, false) == if b.v1.Some? then b.v1 else Some(0.0)
  {
  }

  /** The first switch, v1 to v2 authoritative while dual, is invisible exactly to the orgs v2 can carry. */
  lemma SwitchWhileDual(states: seq<Counters>, events: seq<Event>, i: nat, n: Name)
    requires IsRun(states, events) && i < |states| && PlainCounter(n)
    ensures var b := At(states[i], Print(V1, n).value);
            Reading(n.org, b, 1, true) == Reading(n.org, b, 2, true) <==> ValidScope(n.org) || b.v1.None?
  {
    TwinsStayEqual(states, events, i, Print(V1, n).value);
  }

  /** The last one, to v2 alone, is invisible for a counter exactly when its twin is there, zeros aside. */
  lemma SwitchToV2Alone(states: seq<Counters>, events: seq<Event>, i: nat, n: Name)
    requires IsRun(states, events) && i < |states| && PlainCounter(n) && ValidScope(n.org)
    ensures var b := At(states[i], Print(V1, n).value);
            Reading(n.org, b, 2, true) == Reading(n.org, b, 2, false)
            <==> !Untwinned(states[i], Print(V1, n).value) || b.v1 == Some(0.0)
  {
    TwinsStayEqual(states, events, i, Print(V1, n).value);
  }

  /**
   After a passing verify at i, whatever is written until j: at j the counter reads the same before and
   after every switch that is left. So the verdict still holds when the flip or the reap comes.
   */
  lemma SwitchAfterVerify(states: seq<Counters>, events: seq<Event>, i: nat, j: nat, n: Name)
    requires IsRun(states, events) && i <= j < |states| && PlainCounter(n) && ValidScope(n.org)
    requires VerifyOf(states[i], EPS).Passed?
    ensures var b := At(states[j], Print(V1, n).value);
            && Reading(n.org, b, 1, true) == Reading(n.org, b, 2, true) == Reading(n.org, b, 2, false)
            && Reading(n.org, b.(v1 := None), 2, false) == Reading(n.org, b, 1, true)
  {
    hide IsRun, VerifyOf;
    VerifiedCounter(states, events, i, EPS, n);
    TwinStays(states, events, i, j, Print(V1, n).value);
    TwinsStayEqual(states, events, j, Print(V1, n).value);
  }

  // ---- What breaks a twin -----------------------------------------------------------------------------------

  /** `converge_gauge` deletes a stale user's key in the primary shape only. */
  function ClearedV1(b: Both): Both { b.(v1 := None) }

  /** The reconciler builds its counters without a keyspace: it resets v1 only. */
  function ResetV1(b: Both, x: real): Both { b.(v1 := Some(x)) }

  /**
   Deleting one shape of a twinned counter clears nothing while dual: the read falls back to the
   twin, and reads what it read before.
   */
  lemma ClearingOneShapeClearsNothing(org: Org, b: Both)
    requires Twinned(b) && b.v2.Some? && ValidScope(org)
    ensures Reading(org, ClearedV1(b), 1, true) == Reading(org, b, 1, true)
    ensures !Twinned(ClearedV1(b))
  {
  }

  /** Resetting one shape leaves v2 readers behind by the correction, and verify names it if it counts. */
  lemma ResettingOneShapeDiverges(org: Org, b: Both, x: real)
    requires Twinned(b) && b.v2.Some? && ValidScope(org)
    ensures Reading(org, ResetV1(b, x), 1, true) == Some(x) && Reading(org, ResetV1(b, x), 2, true) == b.v2
    ensures Agrees(ResetV1(b, x), EPS) <==> Near(x, b.v2.value)
  {
  }
}
