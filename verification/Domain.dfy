/** util.go and http.go: which domain a host belongs to, and the parts of a URL. */
module Domain {
  import opened Wire
  import opened HostPort
  import opened Numerals

  // ---------------------------------------------------------------- addresses

  /** strings.Split(s, ".") */
  function Parts(s: Bytes): (parts: seq<Bytes>)
    ensures |parts| > 0
  {
    var i := IndexOf(s, DOT);
    if i == |s| then [s] else [s[..i]] + Parts(s[i + 1..])
  }

  datatype HostKind = Name | PublicIp | PrivateIp

  predicate IsOctet(part: Bytes) {
    0 < |part| <= 3 && Atoi(part).Some? && 0 <= Atoi(part).value <= 255
  }

  /** hostIsIP */
  function KindOf(host: Bytes): (kind: HostKind) {
    var part := Parts(host);
    if |part| != 4 || !IsOctet(part[0]) || !IsOctet(part[1]) || !IsOctet(part[2]) || !IsOctet(part[3]) then Name
    else if part[0] == [49, 50, 55] || part[0] == [49, 48] then PrivateIp
    else if part[0] == [49, 57, 50] && part[1] == [49, 54, 56] then PrivateIp
    else if part[0] == [49, 55, 50] && 16 <= Atoi(part[1]).value <= 31 then PrivateIp
    else PublicIp
  }

  lemma {:induction false} PartsCountDots(s: Bytes)
    ensures |Parts(s)| == 1 + multiset(s)[DOT]
  {
    var i := IndexOf(s, DOT);
    assert forall k :: 0 <= k < i ==> s[k] != DOT;
    if i < |s| {
      assert s == s[..i] + [DOT] + s[i + 1..];
      PartsCountDots(s[i + 1..]);
      NoDots(s[..i]);
    } else {
      NoDots(s);
    }
  }

  lemma {:induction false} NoDots(s: Bytes)
    requires forall k :: 0 <= k < |s| ==> s[k] != DOT
    ensures multiset(s)[DOT] == 0
  {
    assert DOT !in s;
  }

  lemma {:induction false} LastPartEmpty(s: Bytes)
    requires s != [] && s[|s| - 1] == DOT
    ensures var p := Parts(s); p[|p| - 1] == []
  {
    var i := IndexOf(s, DOT);
    if i + 1 < |s| { LastPartEmpty(s[i + 1..]); }
  }

  /** The text of an address has three dots, none of them at the end. */
  lemma {:induction false} AddressShape(host: Bytes)
    requires KindOf(host) != Name
    ensures multiset(host)[DOT] == 3 && (host != [] ==> host[|host| - 1] != DOT)
  {
    hide Atoi;
    PartsCountDots(host);
    if host != [] && host[|host| - 1] == DOT { LastPartEmpty(host); }
  }

  // ---------------------------------------------------------------- host2Domain

  function TrimLastDot(s: Bytes): (r: Bytes) {
    if s != [] && s[|s| - 1] == DOT then s[..|s| - 1] else s
  }

  predicate TopLevel(part: Bytes) {
    part == [97, 99] || part == [99, 111] || part == [99, 111, 109] || part == [101, 100, 117] ||
    part == [103, 111, 118] || part == [110, 101, 116] || part == [111, 114, 103]
  }

  /** The last two labels of a name, or the last three when the second to last is itself a top level domain. */
  function NameDomain(host: Bytes): (domain: Bytes)
    ensures |domain| <= |host|
  {
    var lastDot := LastIndex(host, DOT);
    if lastDot == -1 then []
    else
      var dot2ndLast := LastIndex(host[..lastDot], DOT);
      if dot2ndLast == -1 then host
      else if TopLevel(host[dot2ndLast + 1..lastDot]) then
        var dot3rdLast := LastIndex(host[..dot2ndLast], DOT);
        if dot3rdLast == -1 then host else host[dot3rdLast + 1..]
      else host[dot2ndLast + 1..]
  }

  function HostToDomain(host: Bytes): (domain: Bytes)
    ensures |domain| <= |host|
  {
    match KindOf(host)
    case PrivateIp => []
    case PublicIp => host
    case Name => NameDomain(TrimLastDot(host))
  }

  predicate Label(s: Bytes) {
    DOT !in s
  }

  function Two(y: Bytes, z: Bytes): (s: Bytes) {
    y + [DOT] + z
  }

  function Three(x: Bytes, y: Bytes, z: Bytes): (s: Bytes) {
    x + [DOT] + Two(y, z)
  }

  lemma {:induction false} NoDotFound(s: Bytes)
    requires Label(s)
    ensures LastIndex(s, DOT) == -1
  {
    hide LastIndex;
    LastIndexIs(s, DOT, -1);
  }

  /** The last dot of a text that ends in a label. */
  lemma {:induction false} LastDotOf(before: Bytes, z: Bytes)
    requires Label(z)
    ensures var s := before + [DOT] + z;
            LastIndex(s, DOT) == |before| && s[..|before|] == before && s[|before| + 1..] == z
  {
    hide LastIndex;
    LastIndexIs(before + [DOT] + z, DOT, |before|);
  }

  lemma {:induction false} TwoIsFixed(y: Bytes, z: Bytes)
    requires Label(y) && Label(z)
    ensures NameDomain(Two(y, z)) == Two(y, z)
  {
    hide LastIndex, TopLevel;
    LastDotOf(y, z);
    NoDotFound(y);
  }

  lemma {:induction false} ThreeIsFixed(x: Bytes, y: Bytes, z: Bytes)
    requires Label(x) && Label(y) && Label(z) && TopLevel(y)
    ensures NameDomain(Three(x, y, z)) == Three(x, y, z)
  {
    hide LastIndex, TopLevel;
    assert Three(x, y, z) == x + [DOT] + y + [DOT] + z;
    LastDotOf(x + [DOT] + y, z);
    LastDotOf(x, y);
    NoDotFound(x);
    assert Three(x, y, z)[|x| + 1..|x| + 1 + |y|] == y;
  }

  /** A domain is empty, or two labels, or three of which the middle one is a top level domain. */
  datatype Shape = Empty | OfTwo(y: Bytes, z: Bytes) | OfThree(x: Bytes, y: Bytes, z: Bytes)

  ghost predicate HasShape(s: Bytes, shape: Shape) {
    match shape
    case Empty => s == []
    case OfTwo(y, z) => Label(y) && Label(z) && s == Two(y, z)
    case OfThree(x, y, z) => Label(x) && Label(y) && Label(z) && TopLevel(y) && s == Three(x, y, z)
  }

  lemma {:induction false} Between(host: Bytes, b: int, a: nat)
    requires -1 <= b < a < |host| && host[a] == DOT
    ensures host[b + 1..] == host[b + 1..a] + [DOT] + host[a + 1..]
  {
  }

  /** Where the domain starts. */
  lemma {:induction false} DomainStart(host: Bytes) returns (a: int, b: int, c: int)
    ensures a == LastIndex(host, DOT) && (a == -1 ==> NameDomain(host) == [])
    ensures a >= 0 ==>
              b == LastIndex(host[..a], DOT) && (b >= 0 ==> c == LastIndex(host[..b], DOT)) &&
              NameDomain(host) == host[(if b >= 0 && TopLevel(host[b + 1..a]) then c + 1 else b + 1)..]
  {
    hide LastIndex, TopLevel;
    a, b, c := LastIndex(host, DOT), -1, -1;
    if a < 0 { return; }
    b := LastIndex(host[..a], DOT);
    if b < 0 {
      assert host[0..] == host;
      return;
    }
    c := LastIndex(host[..b], DOT);
    if c < 0 { assert host[0..] == host; }
  }

  lemma {:induction false} LabelAfter(s: Bytes, i: int)
    requires i == LastIndex(s, DOT)
    ensures Label(s[i + 1..])
  {
    hide LastIndex;
  }

  lemma {:induction false} DomainShape(host: Bytes) returns (shape: Shape)
    ensures HasShape(NameDomain(host), shape)
  {
    hide LastIndex, TopLevel, NameDomain, Label;
    var a, b, c := DomainStart(host);
    if a == -1 { return Empty; }
    var y, z := host[b + 1..a], host[a + 1..];
    LabelAfter(host, a);
    LabelAfter(host[..a], b);
    Between(host, b, a);
    if b == -1 || !TopLevel(y) { return OfTwo(y, z); }
    var x := host[c + 1..b];
    LabelAfter(host[..b], c);
    Between(host, c, b);
    return OfThree(x, y, z);
  }

  lemma {:induction false} DomainIsFixed(host: Bytes)
    ensures NameDomain(NameDomain(host)) == NameDomain(host)
  {
    hide NameDomain, Two, Three, TopLevel, Label;
    var shape := DomainShape(host);
    match shape
    case Empty => EmptyHost();
    case OfTwo(y, z) => TwoIsFixed(y, z);
    case OfThree(x, y, z) => ThreeIsFixed(x, y, z);
  }

  lemma {:induction false} DomainHasTwoDots(host: Bytes)
    ensures multiset(NameDomain(host))[DOT] <= 2
  {
    hide NameDomain, TopLevel;
    var shape := DomainShape(host);
    match shape
    case Empty =>
    case OfTwo(y, z) => LabelsHaveNoDots(y, z);
    case OfThree(x, y, z) => LabelsHaveNoDots(y, z); LabelsHaveNoDots(x, x);
  }

  lemma {:induction false} LabelsHaveNoDots(y: Bytes, z: Bytes)
    requires Label(y) && Label(z)
    ensures multiset(y)[DOT] == 0 && multiset(z)[DOT] == 0
  {
  }

  lemma {:induction false} DomainEndsLikeName(host: Bytes)
    ensures NameDomain(host) != [] ==> NameDomain(host)[|NameDomain(host)| - 1] == host[|host| - 1]
    ensures host != [] && host[|host| - 1] == DOT ==> NameDomain(host) != []
  {
    hide TopLevel, NameDomain, LastIndex;
    var a, b, c := DomainStart(host);
  }

  predicate EndsInTwoDots(host: Bytes) {
    |host| >= 2 && host[|host| - 1] == DOT && host[|host| - 2] == DOT
  }

  /** The domain of a host is its own domain, unless the host ends in two dots. */
  lemma {:induction false} DomainIsIdempotent(host: Bytes)
    ensures HostToDomain(HostToDomain(host)) == HostToDomain(host) <==> !EndsInTwoDots(host)
  {
    hide NameDomain, KindOf;
    EmptyHost();
    if KindOf(host) != Name {
      AddressShape(host);
    } else {
      var h := TrimLastDot(host);
      var r := NameDomain(h);
      DomainEndsLikeName(h);
      DomainIsFixed(h);
      DomainHasTwoDots(h);
      if KindOf(r) != Name { AddressShape(r); }
    }
  }

  lemma {:induction false} EmptyHost()
    ensures KindOf([]) == Name && NameDomain([]) == []
  {
  }

  // ---------------------------------------------------------------- URLs

  datatype Url = Url(host: Bytes, port: Bytes, hostPort: Bytes, domain: Bytes)

  const PORT_80: Bytes := [56, 48]

  /** URL.ParseHostPort on a string that is not empty. */
  function ParseHostPort(s: Bytes): (u: Url) {
    match SplitHostPort(s)
    case Some(Pair(host, port)) => Url(host, port, s, HostToDomain(host))
    case None => Url(s, PORT_80, JoinHostPort(s, PORT_80), HostToDomain(s))
  }

  const MAPPED_PREFIX: Bytes := [OPEN_BRACKET, COLON, COLON, 102, 102, 102, 102, COLON]

  function TrimMapped(host: Bytes): (r: Bytes) {
    var h := if MAPPED_PREFIX <= host then host[|MAPPED_PREFIX|..] else host;
    if h != [] && h[|h| - 1] == CLOSE_BRACKET then h[..|h| - 1] else h
  }

  /** ParseRequestURIBytes behind the scheme; `defaultPort` is 80 or 443. */
  function ParseAuthority(s: Bytes, defaultPort: Bytes): (u: Url) {
    var pair := SplitHostPort(s);
    var host := TrimMapped(if pair.Some? then pair.value.host else s);
    var port := if pair.Some? then pair.value.port else defaultPort;
    Url(host, port, JoinHostPort(host, port), HostToDomain(host))
  }

  /** A URL whose key in the connection pool is made of its host and port. */
  predicate Canonical(u: Url) {
    u.hostPort == JoinHostPort(u.host, u.port) && COLON !in u.port && u.domain == HostToDomain(u.host)
  }

  /** Canonical URLs with the same key have the same host. */
  lemma {:induction false} KeyTellsHost(u: Url, v: Url)
    requires Canonical(u) && Canonical(v) && u.hostPort == v.hostPort
    ensures u.host == v.host && u.port == v.port && u.domain == v.domain
  {
    JoinIsInjective(u.host, u.port, v.host, v.port);
  }

  lemma {:induction false} PortHasNoColon(s: Bytes)
    requires SplitHostPort(s).Some?
    ensures COLON !in SplitHostPort(s).value.port
  {
  }

  lemma {:induction false} AuthorityIsCanonical(s: Bytes, defaultPort: Bytes)
    requires COLON !in defaultPort
    ensures Canonical(ParseAuthority(s, defaultPort))
  {
    hide SplitHostPort, JoinHostPort, TrimMapped, HostToDomain;
    if SplitHostPort(s).Some? { PortHasNoColon(s); }
  }

  /** What the Host header or a CONNECT names is canonical unless it puts brackets around something that is not an
      IPv6 address. */
  lemma {:induction false} HostPortIsCanonical(s: Bytes)
    requires s != []
    ensures Canonical(ParseHostPort(s)) <==>
              (SplitHostPort(s).Some? && s[0] == OPEN_BRACKET ==> COLON in SplitHostPort(s).value.host)
  {
    hide HostToDomain, LastIndex, IndexOf;
    if SplitHostPort(s).Some? {
      var i := LastIndex(s, COLON);
      PortHasNoColon(s);
      var u := ParseHostPort(s);
      assert s == s[..i] + [COLON] + u.port;
      if s[0] == OPEN_BRACKET {
        assert s[..i] == [OPEN_BRACKET] + u.host + [CLOSE_BRACKET];
      }
    }
  }

  /** The exception, for every host: with brackets and a port, and with brackets alone, it gives one key and two
      hosts. */
  lemma {:induction false} OneKeyTwoHosts(host: Bytes)
    requires NoBrackets(host) && COLON !in host
    ensures var t := [OPEN_BRACKET] + host + [CLOSE_BRACKET];
            var s := t + [COLON] + PORT_80;
            ParseHostPort(s) == Url(host, PORT_80, s, HostToDomain(host)) &&
            ParseHostPort(t) == Url(t, PORT_80, s, HostToDomain(t))
  {
    hide HostToDomain, LastIndex, IndexOf;
    var t := [OPEN_BRACKET] + host + [CLOSE_BRACKET];
    var s := t + [COLON] + PORT_80;
    BracketedParts(host, PORT_80);
    assert s == [OPEN_BRACKET] + host + [CLOSE_BRACKET, COLON] + PORT_80;
    LastIndexIs(s, COLON, |host| + 2);
    assert s[|host| + 3..] == PORT_80;
    LastIndexIs(t, COLON, -1);
  }

  /** Such a pair of which one is a private address, always visited directly, and the other, by its text, a site
      like any other. */
  lemma {:induction false} BracketsHideAddress(host: Bytes)
    requires host == [49, 48, DOT, 48, DOT, 48, DOT, 49]
    ensures HostToDomain(host) == [] && HostToDomain([OPEN_BRACKET] + host + [CLOSE_BRACKET]) != []
  {
    hide NameDomain, Atoi, Parts, Itoa;
    var ten, zero, one := [49, 48], [48], [49];
    var t := [OPEN_BRACKET] + host + [CLOSE_BRACKET];
    FirstPart(zero, one);
    FirstPart(zero, zero + [DOT] + one);
    FirstPart(ten, zero + [DOT] + (zero + [DOT] + one));
    assert host == ten + [DOT] + (zero + [DOT] + (zero + [DOT] + one));
    SmallNumbers();
    FirstPart([OPEN_BRACKET, 49, 48], t[4..]);
    assert t == [OPEN_BRACKET, 49, 48] + [DOT] + t[4..];
    EmptyDomain(t);
  }

  lemma {:induction false} FirstPart(a: Bytes, rest: Bytes)
    requires Label(a)
    ensures Parts(a + [DOT] + rest) == [a] + Parts(rest)
    ensures Label(rest) ==> Parts(rest) == [rest]
  {
    hide IndexOf;
    var s := a + [DOT] + rest;
    IndexIs(s, DOT, |a|);
    assert s[|a| + 1..] == rest && s[..|a|] == a;
    if Label(rest) { var i := IndexOf(rest, DOT); }
  }

  lemma {:induction false} SmallNumbers()
    ensures Atoi([49, 48]) == Some(10) && Atoi([48]) == Some(0) && Atoi([49]) == Some(1)
    ensures Atoi([OPEN_BRACKET, 49, 48]) == None
  {
    hide Atoi, Itoa;
    AtoiOfItoa(10);
    AtoiOfItoa(0);
    AtoiOfItoa(1);
    OneDigit(0);
    OneDigit(1);
    TwoDigits();
    NotANumber([OPEN_BRACKET, 49, 48]);
  }

  lemma {:induction false} OneDigit(n: nat)
    requires n < 10
    ensures Itoa(n) == [ZERO + n]
  {
  }

  lemma {:induction false} TwoDigits()
    ensures Itoa(10) == [49, 48]
  {
    OneDigit(1);
    assert Itoa(10) == Itoa(1) + [48];
  }

  lemma {:induction false} NotANumber(s: Bytes)
    requires s != [] && s[0] == OPEN_BRACKET
    ensures Atoi(s) == None
  {
    assert DigitValue(s[0]) == -1;
  }

  lemma {:induction false} EmptyDomain(host: Bytes)
    ensures NameDomain(host) == [] <==> DOT !in host
  {
    hide TopLevel, LastIndex, NameDomain;
    var a, b, c := DomainStart(host);
    if DOT in host { var k :| 0 <= k < |host| && host[k] == DOT; }
  }
}
