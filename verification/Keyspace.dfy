/**
 The counter key shapes. v1 is `quota:{org}:{rk}...`; v2 is `quota:v2:{svc/org}:{rk}...` with the
 braces literal (a Redis hash tag). One printer for every key family, the parser the library uses
 for counter keys, and a full reader that inverts the printer.
 */
module Keyspace {
  import opened Prelude
  import opened Gauges

  // ---- Splitting on ':' -----------------------------------------------------------------------

  predicate Has(s: string, c: char) { exists i | 0 <= i < |s| :: s[i] == c }

  /** `str.split(":")`: always at least one part. */
  function Split(s: string): (parts: seq<string>)
    ensures |parts| >= 1
    ensures forall i | 0 <= i < |parts| :: !Has(parts[i], ':')
  {
    if s == "" then [""]
    else
      var rest := Split(s[1..]);
      if s[0] == ':' then [""] + rest else [[s[0]] + rest[0]] + rest[1..]
  }

  function Join(parts: seq<string>): string
    requires |parts| >= 1
  {
    if |parts| == 1 then parts[0] else parts[0] + ":" + Join(parts[1..])
  }

  lemma {:induction false} JoinSplit(s: string)
    ensures Join(Split(s)) == s
  {
    if s != "" {
      JoinSplit(s[1..]);
      var rest := Split(s[1..]);
      if s[0] == ':' {
        assert ([""] + rest)[1..] == rest;
      } else {
        assert ([[s[0]] + rest[0]] + rest[1..])[1..] == rest[1..];
      }
    }
  }

  lemma {:induction false} SplitOne(a: string)
    requires !Has(a, ':')
    ensures Split(a) == [a]
  {
    if a != "" {
      SplitOne(a[1..]);
      assert a == [a[0]] + a[1..];
    }
  }

  lemma {:induction false} SplitFirst(a: string, b: string)
    requires !Has(a, ':')
    ensures Split(a + ":" + b) == [a] + Split(b)
  {
    var s := a + ":" + b;
    if a == "" {
      assert s[1..] == b;
    } else {
      assert s[1..] == a[1..] + ":" + b;
      SplitFirst(a[1..], b);
      assert a == [a[0]] + a[1..];
    }
  }

  /** A first part with a ':' in it cannot come back whole. */
  lemma FirstPartIsClean(s: string, a: string)
    requires Has(a, ':')
    ensures Split(s)[0] != a
  {
  }

  // ---- Scopes ---------------------------------------------------------------------------------

  predicate Digit(c: char) { '0' <= c <= '9' }

  predicate Lower(c: char) { 'a' <= c <= 'z' }

  predicate Digits(s: string) { s != "" && forall i | 0 <= i < |s| :: Digit(s[i]) }

  /** `^v[0-9]+$`; Python's `$` also matches before one trailing newline. */
  predicate Versionish(s: string)
  {
    s != "" && s[0] == 'v' &&
    (Digits(s[1..]) || (s[|s| - 1] == '\n' && |s| >= 2 && Digits(s[1..|s| - 1])))
  }

  predicate ValidScope(s: string)
  {
    s != "" && !Has(s, '{') && !Has(s, '}') && !Has(s, '/') && !Has(s, ':') && !Versionish(s)
  }

  predicate Identifier(s: string)
  {
    s != "" && Lower(s[0]) && forall i | 0 <= i < |s| :: Lower(s[i]) || Digit(s[i]) || s[i] == '_'
  }

  /** `^[a-z][a-z0-9_]*\.[a-z][a-z0-9_]*$`. */
  predicate ResourceKey(rk: string)
  {
    exists d | 0 <= d < |rk| :: rk[d] == '.' && Identifier(rk[..d]) && Identifier(rk[d + 1..])
  }

  // ---- Which names are which, by their characters ---------------------------------------------------

  lemma DigitIff(c: char)
    ensures Digit(c) <==> c in "0123456789"
  {
    var digits := "0123456789";
    assert '0' <= c <= '9' ==> digits[c as int - '0' as int] == c;
  }

  lemma LowerIff(c: char)
    ensures Lower(c) <==> c in "abcdefghijklmnopqrstuvwxyz"
  {
    var letters := "abcdefghijklmnopqrstuvwxyz";
    assert 'a' <= c <= 'z' ==> letters[c as int - 'a' as int] == c;
  }

  lemma DigitsIff(s: string)
    ensures Digits(s) <==> s != "" && forall c <- s :: c in "0123456789"
  {
    forall c ensures Digit(c) <==> c in "0123456789" {
      DigitIff(c);
    }
    hide Digit;
    assert forall i | 0 <= i < |s| :: s[i] in s;
  }

  /** A name looks like a version exactly if it is a `v`, at least one digit, and no more than a newline. */
  lemma VersionishIff(s: string)
    ensures Versionish(s) <==>
              exists d: string :: (s == "v" + d || s == "v" + d + "\n") && d != "" && forall c <- d :: c in "0123456789"
  {
    if Versionish(s) {
      var d := if Digits(s[1..]) then s[1..] else s[1..|s| - 1];
      DigitsIff(d);
      assert s == "v" + s[1..] && (s[|s| - 1] == '\n' ==> s == s[..|s| - 1] + "\n");
      assert s == "v" + d || s == "v" + d + "\n";
    }
    if d: string :| (s == "v" + d || s == "v" + d + "\n") && d != "" && forall c <- d :: c in "0123456789" {
      DigitsIff(d);
      assert s[1..] == if s == "v" + d then d else d + "\n";
      assert s == "v" + d + "\n" ==> s[1..|s| - 1] == d;
    }
  }

  /** The words that a resource key joins. */
  lemma IdentifierIff(s: string)
    ensures Identifier(s) <==>
              s != "" && s[0] in "abcdefghijklmnopqrstuvwxyz" && forall c <- s :: c in "abcdefghijklmnopqrstuvwxyz0123456789_"
  {
    forall c: char
      ensures Lower(c) || Digit(c) || c == '_' <==> c in "abcdefghijklmnopqrstuvwxyz0123456789_"
      ensures Lower(c) <==> c in "abcdefghijklmnopqrstuvwxyz"
    {
      LowerIff(c);
      DigitIff(c);
      assert "abcdefghijklmnopqrstuvwxyz0123456789_" == "abcdefghijklmnopqrstuvwxyz" + "0123456789" + "_";
    }
    hide Lower, Digit;
    assert forall i | 0 <= i < |s| :: s[i] in s;
  }

  /** A resource key is two such words with one dot between. */
  lemma ResourceKeyIff(rk: string)
    ensures ResourceKey(rk) <==> exists a: string, b: string :: rk == a + "." + b && Identifier(a) && Identifier(b)
  {
    hide Identifier;
    if ResourceKey(rk) {
      var d :| 0 <= d < |rk| && rk[d] == '.' && Identifier(rk[..d]) && Identifier(rk[d + 1..]);
      assert rk == rk[..d] + "." + rk[d + 1..];
    }
    if a: string, b: string :| rk == a + "." + b && Identifier(a) && Identifier(b) {
      assert rk[|a|] == '.' && rk[..|a|] == a && rk[|a| + 1..] == b;
    }
  }

  /** What v2 can carry: a name that is not empty, has none of four characters, and is not like a version. */
  lemma ValidScopeIff(s: string)
    ensures ValidScope(s) <==> s != "" && (forall c <- s :: c !in "{}/:") && !Versionish(s)
  {
    hide Versionish;
    assert forall i | 0 <= i < |s| :: s[i] in s;
  }

  lemma ResourceKeyShape(rk: string)
    requires ResourceKey(rk)
    ensures Has(rk, '.') && !Has(rk, ':') && rk != "" && Lower(rk[0])
  {
    var d :| 0 <= d < |rk| && rk[d] == '.' && Identifier(rk[..d]) && Identifier(rk[d + 1..]);
    forall i | 0 <= i < |rk| ensures rk[i] != ':' {
      if i < d { assert rk[..d][i] == rk[i]; }
      else if i > d { assert rk[d + 1..][i - d - 1] == rk[i]; }
    }
    assert rk[..d][0] == rk[0];
  }

  // ---- Names and their printed form -----------------------------------------------------------

  datatype Shape = V1 | V2(service: string)

  /** Every key the library hangs under one (org, resource), and the two org-level markers. */
  datatype Name =
    | GaugeName(org: Org, rk: Resource)
    | UserName(org: Org, rk: Resource, uid: string)
    | SeqName(org: Org, rk: Resource, uid: string)
    | IdemName(org: Org, rk: Resource, key: string)
    | IdemGenName(org: Org, rk: Resource, key: string)
    | AccName(org: Org, rk: Resource, period: string)
    | RateName(org: Org, rk: Resource)
    | RecentName(org: Org)
    | ReadRepairName(org: Org)

  /** What an operation without an idempotency key puts in its place. */
  const UNUSED := "__unused__"

  function Named(key: Option<string>): string
  {
    if key.Some? && key.value != "" then key.value else UNUSED
  }

  /** Everything behind `{prefix}:` for a key under a resource. */
  function Tail(n: Name): string
    requires !n.RecentName? && !n.ReadRepairName?
  {
    match n
    case GaugeName(_, _) => "gauge"
    case UserName(_, _, uid) => "gauge" + ":" + ("user" + ":" + uid)
    case SeqName(_, _, uid) => "gauge" + ":" + ("seq" + ":" + ("user" + ":" + uid))
    case IdemName(_, _, key) => "idem" + ":" + key
    case IdemGenName(_, _, key) => "idemgen" + ":" + key
    case AccName(_, _, period) => "acc" + ":" + period
    case RateName(_, _) => "rate"
  }

  /** The part that scopes a key to an org, up to and including the ':' after it. */
  function OrgPart(shape: Shape, org: Org): string
  {
    if shape.V1? then org + ":" else "v2:{" + shape.service + "/" + org + "}" + ":"
  }

  /** The v2 builders refuse an org that cannot be embedded; v1 embeds anything. */
  predicate Refused(shape: Shape, n: Name)
  {
    shape.V2? && !n.ReadRepairName? && !ValidScope(n.org)
  }

  /** A key as the reader sees it: a scope, the first part under it, and all the rest. */
  datatype Path = Path(shape: Shape, org: Org, first: string, tail: string)

  function Render(p: Path): string
  {
    "quota:" + (OrgPart(p.shape, p.org) + (p.first + ":" + p.tail))
  }

  /** The two reconciler markers of v1 read as keys of an org called `reconcile`. */
  function PathOf(shape: Shape, n: Name): Path
  {
    match n
    case ReadRepairName(org) => Path(V1, "reconcile", "readrepair", org)
    case RecentName(org) =>
      if shape.V1? then Path(V1, "reconcile", "recent", org) else Path(shape, org, "reconcile", "recent")
    case _ => Path(shape, n.org, n.rk, Tail(n))
  }

  function Print(shape: Shape, n: Name): Option<string>
  {
    if Refused(shape, n) then None else Some(Render(PathOf(shape, n)))
  }

  // ---- parse_counter_key ------------------------------------------------------------------------

  datatype Kind = Gauge | UserGauge | Acc

  datatype Parsed = Parsed(version: nat, service: Option<string>, org: Org, rk: Resource, kind: Kind)

  function FindChar(s: string, c: char): (i: nat)
    ensures i <= |s|
    ensures i < |s| ==> s[i] == c
    ensures forall j | 0 <= j < i :: s[j] != c
  {
    if s == "" || s[0] == c then 0 else 1 + FindChar(s[1..], c)
  }

  /** The scope of a key and the parts behind it, before any of them is interpreted. */
  datatype Scoped = Scoped(service: Option<string>, org: Org, parts: seq<string>)

  function TaggedScope(rest: string): Option<Scoped>
    requires "v2:{" <= rest
  {
    var end := FindChar(rest, '}');
    if end == |rest| then None
    else
      var tag := rest[4..end];
      var slash := FindChar(tag, '/');
      if slash == |tag| then None
      else if !(":" <= rest[end + 1..]) then None
      else Some(Scoped(Some(tag[..slash]), tag[slash + 1..], Split(rest[end + 2..])))
  }

  function Scope(key: string): Option<Scoped>
  {
    if !("quota:" <= key) then None
    else
      var rest := key[6..];
      if "v2:{" <= rest then TaggedScope(rest)
      else
        var parts := Split(rest);
        if |parts| < 3 || Versionish(parts[0]) then None
        else Some(Scoped(None, parts[0], parts[1..]))
  }

  function ParseScoped(sc: Scoped): Option<Parsed>
  {
    var parts := sc.parts;
    var version := if sc.service.Some? then 2 else 1;
    if |parts| < 2 || !Has(parts[0], '.') then None
    else if parts[1] == "gauge" then
      if |parts| >= 4 && parts[2] == "user" then Some(Parsed(version, sc.service, sc.org, parts[0], UserGauge))
      else if |parts| == 2 then Some(Parsed(version, sc.service, sc.org, parts[0], Gauge))
      else None
    else if parts[1] == "acc" && |parts| >= 3 then Some(Parsed(version, sc.service, sc.org, parts[0], Acc))
    else None
  }

  function ParseCounterKey(key: string): Option<Parsed>
  {
    var sc := Scope(key);
    if sc.None? then None else ParseScoped(sc.value)
  }

  // ---- Round trip -------------------------------------------------------------------------------

  predicate UnderResource(n: Name) { !n.RecentName? && !n.ReadRepairName? }

  predicate WellNamed(n: Name) { UnderResource(n) ==> ResourceKey(n.rk) }

  /** An org that a v1 key can carry unambiguously. */
  predicate PlainOrg(org: Org) { !Has(org, ':') && !Versionish(org) }

  predicate ValidShape(shape: Shape) { shape.V2? ==> ValidScope(shape.service) }

  predicate Carries(shape: Shape, org: Org)
  {
    if shape.V1? then PlainOrg(org) else ValidScope(org)
  }

  function ServiceOf(shape: Shape): Option<string> { if shape.V1? then None else Some(shape.service) }

  lemma FindAt(s: string, c: char, k: nat)
    requires k < |s| && s[k] == c && forall j | 0 <= j < k :: s[j] != c
    ensures FindChar(s, c) == k
  {
  }

  /** `rest` is given by its pieces, so that each slice is read off one of them. */
  lemma TagEnd(service: string, org: string, body: string, rest: string)
    requires !Has(service, '}') && !Has(service, '/') && !Has(org, '}')
    requires rest == "v2:{" + service + "/" + org + "}" + ":" + body
    ensures FindChar(rest, '}') == 5 + |service| + |org| < |rest|
    ensures rest[4..5 + |service| + |org|] == service + "/" + org
    ensures rest[6 + |service| + |org|] == ':'
    ensures rest[7 + |service| + |org|..] == body
  {
    hide Has, FindChar;
    var tag := service + "/" + org;
    NoBrace(service, org);
    Regroup(service, org, body);
    Sliced(tag, body, rest);
  }

  lemma NoBrace(service: string, org: string)
    requires !Has(service, '}') && !Has(org, '}')
    ensures !Has(service + "/" + org, '}')
  {
  }

  lemma Regroup(service: string, org: string, body: string)
    ensures "v2:{" + service + "/" + org + "}" + ":" + body == "v2:{" + (service + "/" + org) + ("}:" + body)
  {
  }

  lemma Sliced(tag: string, body: string, rest: string)
    requires !Has(tag, '}') && rest == "v2:{" + tag + ("}:" + body)
    ensures FindChar(rest, '}') == 4 + |tag| < |rest|
    ensures rest[4..4 + |tag|] == tag && rest[5 + |tag|] == ':' && rest[6 + |tag|..] == body
  {
    assert forall j | 0 <= j < |tag| :: rest[4 + j] == tag[j];
    FindAt(rest, '}', 4 + |tag|);
  }

  lemma SlashIn(service: string, org: string)
    requires !Has(service, '/')
    ensures var tag := service + "/" + org;
            && FindChar(tag, '/') == |service| < |tag|
            && tag[..|service|] == service && tag[|service| + 1..] == org
  {
    FindAt(service + "/" + org, '/', |service|);
  }

  lemma ScopeOfV1(org: Org, body: string)
    requires PlainOrg(org) && |Split(body)| >= 2 && body != "" && body[0] != '{'
    ensures Scope("quota:" + (org + ":" + body)) == Some(Scoped(None, org, Split(body)))
  {
    var rest := org + ":" + body;
    var key := "quota:" + rest;
    assert key[6..] == rest && "quota:" <= key;
    SplitFirst(org, body);
    var k := V1IsNotTagged(org, body);
    assert !("v2:{" <= rest);
    assert ([org] + Split(body))[1..] == Split(body);
  }

  /** A place where a v1 key differs from the opening of every v2 key. */
  lemma V1IsNotTagged(org: Org, body: string) returns (k: nat)
    requires !Has(org, ':') && body != "" && body[0] != '{'
    ensures var rest := org + ":" + body;
            k < 4 && k < |rest| && rest[k] != "v2:{"[k]
  {
    k := if |org| < 2 then |org| else if |org| == 2 then 3 else 2;
  }

  lemma ScopeOfV2(service: string, org: Org, body: string, rest: string)
    requires ValidScope(service) && ValidScope(org)
    requires rest == "v2:{" + service + "/" + org + "}" + ":" + body
    requires "v2:{" <= rest
    ensures TaggedScope(rest) == Some(Scoped(Some(service), org, Split(body)))
  {
    TagEnd(service, org, body, rest);
    SlashIn(service, org);
    var end := 5 + |service| + |org|;
    assert rest[end + 1..][0] == ':';
  }

  predicate Readable(p: Path)
  {
    && ValidShape(p.shape) && Carries(p.shape, p.org)
    && !Has(p.first, ':') && p.first != "" && p.first[0] != '{'
  }

  /** Reading back the scope of any printed key, in both shapes. */
  lemma ScopeOfRendered(p: Path)
    requires Readable(p)
    ensures Scope(Render(p)) == Some(Scoped(ServiceOf(p.shape), p.org, [p.first] + Split(p.tail)))
  {
    var body := p.first + ":" + p.tail;
    SplitFirst(p.first, p.tail);
    if p.shape.V1? {
      ScopeOfV1(p.org, body);
    } else {
      var rest := OrgPart(p.shape, p.org) + body;
      assert Render(p)[6..] == rest;
      assert rest[..4] == "v2:{";
      ScopeOfV2(p.shape.service, p.org, body, rest);
    }
  }

  lemma PathIsReadable(shape: Shape, n: Name)
    requires ValidShape(shape) && WellNamed(n) && !Refused(shape, n)
    requires UnderResource(n) ==> Carries(shape, n.org)
    ensures Readable(PathOf(shape, n))
  {
    if UnderResource(n) {
      ResourceKeyShape(n.rk);
    } else {
      assert PlainOrg("reconcile");
    }
  }

  lemma GaugeTail() ensures Split("gauge") == ["gauge"] { SplitOne("gauge"); }

  lemma RateTail() ensures Split("rate") == ["rate"] { SplitOne("rate"); }

  lemma TwoParts(a: string, b: string, rest: string)
    requires !Has(a, ':') && !Has(b, ':')
    ensures Split(a + ":" + (b + ":" + rest)) == [a, b] + Split(rest)
  {
    SplitFirst(a, b + ":" + rest);
    SplitFirst(b, rest);
  }

  /** The parts of a tail, read from its printed form. */
  function TailPartsOf(n: Name): seq<string>
    requires UnderResource(n)
  {
    match n
    case GaugeName(_, _) => ["gauge"]
    case UserName(_, _, uid) => ["gauge", "user"] + Split(uid)
    case SeqName(_, _, uid) => ["gauge", "seq"] + (["user"] + Split(uid))
    case IdemName(_, _, key) => ["idem"] + Split(key)
    case IdemGenName(_, _, key) => ["idemgen"] + Split(key)
    case AccName(_, _, period) => ["acc"] + Split(period)
    case RateName(_, _) => ["rate"]
  }

  lemma TailParts(n: Name)
    requires UnderResource(n)
    ensures Split(Tail(n)) == TailPartsOf(n)
  {
    match n
    case GaugeName(_, _) => GaugeTail();
    case UserName(_, _, uid) => TwoParts("gauge", "user", uid);
    case SeqName(_, _, uid) => TwoParts("gauge", "seq", "user" + ":" + uid); SplitFirst("user", uid);
    case IdemName(_, _, key) => SplitFirst("idem", key);
    case IdemGenName(_, _, key) => SplitFirst("idemgen", key);
    case AccName(_, _, period) => SplitFirst("acc", period);
    case RateName(_, _) => RateTail();
  }

  function KindOf(n: Name): Option<Kind>
  {
    match n
    case GaugeName(_, _) => Some(Gauge)
    case UserName(_, _, _) => Some(UserGauge)
    case AccName(_, _, _) => Some(Acc)
    case _ => None
  }

  /** Counters come back as themselves; every other family as nothing. */
  function Expected(shape: Shape, n: Name): Option<Parsed>
  {
    if KindOf(n).None? then None
    else Some(Parsed(if shape.V2? then 2 else 1, ServiceOf(shape), n.org, n.rk, KindOf(n).value))
  }

  /** A printed counter key parses back to what it was printed from; every other family to None. */
  lemma ParsePrinted(shape: Shape, n: Name)
    requires ValidShape(shape) && WellNamed(n) && !Refused(shape, n)
    requires UnderResource(n) ==> Carries(shape, n.org)
    ensures ParseCounterKey(Print(shape, n).value) == Expected(shape, n)
  {
    PathIsReadable(shape, n);
    var path := PathOf(shape, n);
    ScopeOfRendered(path);
    if UnderResource(n) {
      TailParts(n);
      ParseParts(shape, n);
      assert Scope(Print(shape, n).value) == Some(Scoped(ServiceOf(shape), n.org, [n.rk] + TailPartsOf(n)));
    } else {
      MarkerWords(shape, n);
      NotACounter(ServiceOf(path.shape), path.org, path.first, Split(path.tail));
    }
  }

  lemma MarkerWords(shape: Shape, n: Name)
    requires !UnderResource(n)
    ensures !Has(PathOf(shape, n).first, '.')
  {
  }

  /** No dot in the first part: the key belongs to no resource. */
  lemma NotACounter(service: Option<string>, org: Org, first: string, rest: seq<string>)
    requires !Has(first, '.')
    ensures ParseScoped(Scoped(service, org, [first] + rest)).None?
  {
    assert ([first] + rest)[0] == first;
  }

  /** The parser's decision, on the parts alone. */
  lemma ParseParts(shape: Shape, n: Name)
    requires UnderResource(n) && ResourceKey(n.rk)
    ensures ParseScoped(Scoped(ServiceOf(shape), n.org, [n.rk] + TailPartsOf(n))) == Expected(shape, n)
  {
    ResourceKeyShape(n.rk);
    var parts := [n.rk] + TailPartsOf(n);
    assert parts[0] == n.rk && parts[1] == TailPartsOf(n)[0];
    if n.UserName? || n.SeqName? {
      assert parts[2] == TailPartsOf(n)[1];
    }
  }

  /**
   v1 keys are not guarded when they are written. The round trip holds exactly for the orgs that
   carry no ':' and do not look like a version segment.
   */
  lemma V1RoundTripIff(org: Org, rk: Resource)
    requires ResourceKey(rk)
    ensures ParseCounterKey(Print(V1, GaugeName(org, rk)).value) == Some(Parsed(1, None, org, rk, Gauge))
       <==> PlainOrg(org)
  {
    var n := GaugeName(org, rk);
    if PlainOrg(org) {
      ParsePrinted(V1, n);
    } else {
      var rest := org + ":" + (rk + ":" + Tail(n));
      assert Print(V1, n).value == "quota:" + rest;
      assert ("quota:" + rest)[6..] == rest;
      if Has(org, ':') {
        FirstPartIsClean(rest, org);
      } else {
        SplitFirst(org, rk + ":" + Tail(n));
      }
    }
  }

  // ---- Injectivity ----------------------------------------------------------------------------------

  /** Reads any printed key back to its shape and name: a left inverse of `Print`. */
  ghost function ReadName(sc: Scoped): Option<Name>
  {
    var p := sc.parts;
    if |p| < 2 then None
    else if !Has(p[0], '.') then
      if sc.service.None? && sc.org == "reconcile" && p[0] == "recent" then Some(RecentName(Join(p[1..])))
      else if sc.service.None? && sc.org == "reconcile" && p[0] == "readrepair" then Some(ReadRepairName(Join(p[1..])))
      else Some(RecentName(sc.org))
    else if p[1] == "gauge" && |p| == 2 then Some(GaugeName(sc.org, p[0]))
    else if p[1] == "gauge" && p[2] == "user" && |p| >= 4 then Some(UserName(sc.org, p[0], Join(p[3..])))
    else if p[1] == "gauge" && |p| >= 5 then Some(SeqName(sc.org, p[0], Join(p[4..])))
    else if p[1] == "idem" && |p| >= 3 then Some(IdemName(sc.org, p[0], Join(p[2..])))
    else if p[1] == "idemgen" && |p| >= 3 then Some(IdemGenName(sc.org, p[0], Join(p[2..])))
    else if p[1] == "acc" && |p| >= 3 then Some(AccName(sc.org, p[0], Join(p[2..])))
    else Some(RateName(sc.org, p[0]))
  }

  lemma ReadParts(service: Option<string>, n: Name)
    requires UnderResource(n) && ResourceKey(n.rk)
    ensures ReadName(Scoped(service, n.org, [n.rk] + TailPartsOf(n))) == Some(n)
  {
    hide Split, Join;
    ResourceKeyShape(n.rk);
    hide ResourceKey, Identifier;
    match n
    case GaugeName(_, _) => BehindOne(n.rk, "gauge", []);
    case UserName(_, _, uid) => BehindTwo(n.rk, "gauge", "user", Split(uid)); JoinSplit(uid);
    case SeqName(_, _, uid) =>
      BehindTwo(n.rk, "gauge", "seq", ["user"] + Split(uid));
      assert (["user"] + Split(uid))[1..] == Split(uid);
      JoinSplit(uid);
    case IdemName(_, _, key) => BehindOne(n.rk, "idem", Split(key)); JoinSplit(key);
    case IdemGenName(_, _, key) => BehindOne(n.rk, "idemgen", Split(key)); JoinSplit(key);
    case AccName(_, _, period) => BehindOne(n.rk, "acc", Split(period)); JoinSplit(period);
    case RateName(_, _) => BehindOne(n.rk, "rate", []);
  }

  lemma BehindOne(rk: string, a: string, rest: seq<string>)
    ensures var p := [rk] + ([a] + rest);
            p[0] == rk && p[1] == a && p[2..] == rest && |p| == 2 + |rest|
  {
  }

  lemma BehindTwo(rk: string, a: string, b: string, rest: seq<string>)
    ensures var p := [rk] + ([a, b] + rest);
            && p[0] == rk && p[1] == a && p[2] == b && p[3..] == rest && |p| == 3 + |rest|
            && (|rest| >= 1 ==> p[4..] == rest[1..])
            && p == [rk] + ([a] + ([b] + rest))
  {
  }

  lemma ReadPrinted(shape: Shape, n: Name)
    requires ValidShape(shape) && WellNamed(n) && (!n.ReadRepairName? ==> Carries(shape, n.org))
    ensures Print(shape, n).Some?
    ensures var sc := Scope(Print(shape, n).value);
            && sc.Some? && ReadName(sc.value) == Some(n)
            && sc.value.service == ServiceOf(PathOf(shape, n).shape)
  {
    PathIsReadable(shape, n);
    ScopeOfRendered(PathOf(shape, n));
    if UnderResource(n) {
      TailParts(n);
      ReadParts(ServiceOf(shape), n);
    } else {
      ReadMarker(shape, n);
    }
  }

  lemma ReadMarker(shape: Shape, n: Name)
    requires !UnderResource(n) && ValidShape(shape)
    requires n.RecentName? ==> Carries(shape, n.org)
    ensures var path := PathOf(shape, n);
            ReadName(Scoped(ServiceOf(path.shape), path.org, [path.first] + Split(path.tail))) == Some(n)
  {
    hide Split, Join;
    var path := PathOf(shape, n);
    JoinSplit(path.tail);
    DotFree(path.first, Split(path.tail));
  }

  lemma DotFree(first: string, rest: seq<string>)
    ensures ([first] + rest)[0] == first && ([first] + rest)[1..] == rest
  {
  }

  /**
   No two different names share a key: families, shapes, services, orgs, resources, users and
   idempotency keys are all kept apart.
   */
  lemma PrintInjective(shape1: Shape, n1: Name, shape2: Shape, n2: Name)
    requires ValidShape(shape1) && ValidShape(shape2) && WellNamed(n1) && WellNamed(n2)
    requires !n1.ReadRepairName? ==> Carries(shape1, n1.org)
    requires !n2.ReadRepairName? ==> Carries(shape2, n2.org)
    requires Print(shape1, n1) == Print(shape2, n2)
    ensures n1 == n2
    ensures !n1.ReadRepairName? ==> shape1 == shape2
  {
    ReadPrinted(shape1, n1);
    ReadPrinted(shape2, n2);
  }

  /** Without the charset guard a v1 org can forge a v2 key: why the guard is there. */
  lemma V1CanForgeV2(service: string, org: Org, rk: Resource)
    requires ValidScope(service) && ValidScope(org) && ResourceKey(rk)
    ensures var forged := "v2:{" + service + "/" + org + "}";
            Print(V1, GaugeName(forged, rk)) == Print(V2(service), GaugeName(org, rk))
  {
  }
}
