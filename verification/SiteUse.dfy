/** What the records of sites and their table come to, with the numbers written out, and what hosts are called. */
module SiteUse {
  import opened Wire
  import opened Numerals
  import opened HostPort
  import opened Domain
  import opened SiteStat

  // ---------------------------------------------------------------- one record

  /** A visit counts up to 100 on its own side and clears the other; it leaves the user's records alone, and all of them
      while the network is bad. The date is that of the first visit. */
  lemma {:induction false} VisitDecides(v: Visits, now: int, networkBad: bool)
    ensures networkBad || v.direct == -1 || v.blocked == -1 ==>
              v.DirectVisit(now, networkBad) == v && v.BlockedVisit(now, networkBad) == v
    ensures !networkBad && v.direct != -1 && v.blocked != -1 ==>
              var recent := if v.rUpdated then v.recent else now;
              var direct: Count := if 0 <= v.direct < 100 then v.direct + 1 else 100;
              var blocked: Count := if 0 <= v.blocked < 100 then v.blocked + 1 else 100;
              v.DirectVisit(now, networkBad) == Visits(direct, 0, recent, true, v.blockedOn) &&
              v.BlockedVisit(now, networkBad) == Visits(0, blocked, recent, true, v.blockedOn)
  {
  }

  /** What a record with counts, or with the user's mark, is taken for. */
  lemma {:induction false} RecordDecides(v: Visits, now: int, draw: int)
    requires -1 <= v.direct <= 100 && -1 <= v.blocked <= 100
    ensures v.AsTempBlocked(now) <==> v.blockedOn.Some? && now - v.blockedOn.value < 120
    ensures v.AsDirect() <==> v.blocked == 0 || v.direct == -1 || v.direct - v.blocked >= 5
    ensures v.AsBlocked(now, draw) <==>
              v.blocked == -1 || v.AsTempBlocked(now) || (v.blocked - v.direct >= 5 && draw != 0)
    ensures v.OnceBlocked(now) <==> v.blocked > 0 || v.blocked == -1 || v.AsTempBlocked(now)
    ensures v.IsStale(now) <==> now - v.recent > 864000
    ensures v.UserSpecified() <==> v.direct == -1 || v.blocked == -1
  {
  }

  /** The record after a number of visits over the parent. */
  ghost function AfterBlocked(v: Visits, n: nat, now: int): (r: Visits) {
    if n == 0 then v else AfterBlocked(v, n - 1, now).BlockedVisit(now, false)
  }

  lemma {:induction false} BlockedVisitsAdd(v: Visits, n: nat, now: int)
    requires v.direct != -1 && 0 <= v.blocked <= 100 && n > 0
    ensures var r := AfterBlocked(v, n, now);
            r.direct == 0 && r.blocked == (if v.blocked + n <= 100 then v.blocked + n else 100) && r.blockedOn == v.blockedOn
  {
    if n > 1 { BlockedVisitsAdd(v, n - 1, now); }
  }

  /** A new site is taken for blocked after five visits over the parent and not before, and one direct visit is enough
      to have it taken for direct again. */
  lemma {:induction false} FiveVisitsDecide(n: nat, now: int, draw: int)
    ensures var r := AfterBlocked(NewVisits(0, 0, now), n, now);
            (r.AsBlocked(now, draw) <==> n >= 5 && draw != 0) && (r.AsDirect() <==> n == 0) &&
            r.DirectVisit(now, false).AsDirect() && !r.DirectVisit(now, false).AsBlocked(now, draw)
  {
    if n > 0 { BlockedVisitsAdd(NewVisits(0, 0, now), n, now); }
  }

  // ---------------------------------------------------------------- the table

  /** Which record a look-up gives: the shared one without parents or without a domain; the host's; its domain's, if
      the user decided for it; and otherwise a new one for the host. */
  lemma {:induction false} LookDecides(t: Table, parentEmpty: bool, url: Url, now: int)
    ensures Look(t, parentEmpty, url, now)
            == if parentEmpty || url.domain == [] then (t, None)
               else if url.host in t.sites then (t, Some(url.host))
               else if url.domain in t.sites && |url.domain| != |url.host| &&
                       (t.sites[url.domain].direct == -1 || t.sites[url.domain].blocked == -1)
               then (t, Some(url.domain))
               else (t.(sites := t.sites[url.host := Visits(0, 0, now, true, None)]), Some(url.host))
  {
  }

  /** A site blocked for a while is taken for blocked for two minutes, and its counts stay; all other records stay. */
  lemma {:induction false} BlockDecides(t: Table, url: Url, now: int, later: int, s: Bytes)
    ensures Block(t, url, now).None? <==> url.host !in t.sites
    ensures url.host in t.sites ==>
              var t' := Block(t, url, now).value;
              t'.blockedDomains == t.blockedDomains + {url.domain} && t'.sites.Keys == t.sites.Keys &&
              (s in t.sites && s != url.host ==> t'.sites[s] == t.sites[s]) &&
              t'.sites[url.host] == t.sites[url.host].(blockedOn := Some(now)) &&
              (later < now + 120 ==> t'.sites[url.host].AsBlocked(later, 0) && t'.sites[url.host].OnceBlocked(later))
  {
  }

  /** Which sites the direct list holds. */
  lemma {:induction false} ListDecides(t: Table, s: Bytes)
    requires s in t.sites ==> -1 <= t.sites[s].direct <= 100 && -1 <= t.sites[s].blocked <= 100
    ensures s in DirectSites(t) <==>
              s in t.sites && HostToDomain(s) !in t.blockedDomains &&
              (t.sites[s].blocked == 0 || t.sites[s].direct == -1 || t.sites[s].direct - t.sites[s].blocked >= 5)
  {
    hide HostToDomain;
  }

  /** The record that a list gives a site, the user's lists before the built-in ones. */
  function Listed(l: Lists, s: Bytes): (v: Option<Visits>) {
    if s in l.userBlocked then Some(Visits(0, -1, 0, true, None))
    else if s in l.userDirect || s in l.builtinDirect then Some(Visits(-1, 0, 0, true, None))
    else if s in l.builtinBlocked then Some(Visits(0, -1, 0, true, None))
    else None
  }

  /** Whether the lists or the saved file make a domain the user's. */
  predicate Decided(saved: map<Bytes, Visits>, l: Lists, s: Bytes) {
    Listed(l, s).Some? || (s in saved && (saved[s].direct == -1 || saved[s].blocked == -1))
  }

  /** Which records there are after loading, and what they say: the listed sites as listed; and of the saved ones those
      that the user decided for, or that are no older than ten days and in no other domain that he decided for. */
  lemma {:induction false} LoadDecides(saved: map<Bytes, Visits>, l: Lists, now: int, s: Bytes)
    ensures var t := Load(saved, l, now);
            if Listed(l, s).Some? then s in t.sites && t.sites[s] == Listed(l, s).value
            else if s in saved && (Decided(saved, l, s) ||
                                   (now - saved[s].recent <= 864000 &&
                                    (HostToDomain(s) == s || !Decided(saved, l, HostToDomain(s)))))
            then s in t.sites && t.sites[s] == saved[s]
            else s !in t.sites
  {
    hide HostToDomain;
  }

  /** The domains known to be blocked after loading are those of the sites that were once blocked. */
  lemma {:induction false} LoadMarks(saved: map<Bytes, Visits>, l: Lists, now: int, domain: Bytes)
    ensures var t := Load(saved, l, now);
            domain in t.blockedDomains <==>
              exists s :: s in t.sites && HostToDomain(s) == domain &&
                (t.sites[s].blocked > 0 || t.sites[s].blocked == -1 ||
                 (t.sites[s].blockedOn.Some? && now - t.sites[s].blockedOn.value < 120))
  {
    hide HostToDomain, Kept;
  }

  // ---------------------------------------------------------------- domains

  lemma {:induction false} TopLevels(s: Bytes)
    ensures TopLevel(s) <==>
              s in {[97, 99], [99, 111], [99, 111, 109], [101, 100, 117], [103, 111, 118], [110, 101, 116], [111, 114, 103]}
  {
  }

  /** The domain of a name: nothing for a single label, and the whole of two. */
  lemma {:induction false} ShortNameDecides(y: Bytes, z: Bytes)
    requires 46 !in y && 46 !in z
    ensures NameDomain(z) == [] && NameDomain(y + [46] + z) == y + [46] + z
  {
    hide LastIndex, TopLevel;
    NoDotFound(y);
    NoDotFound(z);
    LastDotOf(y, z);
  }

  /** The last two of three labels or more, or the last three when the second to last is a top level domain. */
  lemma {:induction false} NameDecides(more: Bytes, x: Bytes, y: Bytes, z: Bytes)
    requires 46 !in x && 46 !in y && 46 !in z
    ensures NameDomain(x + [46] + y + [46] + z) == if TopLevel(y) then x + [46] + y + [46] + z else y + [46] + z
    ensures NameDomain(more + [46] + x + [46] + y + [46] + z)
            == if TopLevel(y) then x + [46] + y + [46] + z else y + [46] + z
  {
    hide LastIndex, TopLevel, NameDomain;
    var s := x + [46] + y + [46] + z;
    NoDotFound(x);
    LastTwo(x, y, z);
    FromLabels(s, |x| + 1 + |y|, |x|, -1);
    assert s[0..] == s;
    LastDotOf(more, x);
    LastTwo(more + [46] + x, y, z);
    var n := |more| + 1 + |x|;
    FromLabels(more + [46] + x + [46] + y + [46] + z, n + 1 + |y|, n, |more|);
    assert (more + [46] + x + [46] + y + [46] + z)[|more| + 1..] == s;
  }

  lemma {:induction false} FromLabels(host: Bytes, a: nat, b: nat, c: int)
    requires a < |host| && b < a && c < b && a == LastIndex(host, 46) && b == LastIndex(host[..a], 46)
    requires c == LastIndex(host[..b], 46)
    ensures NameDomain(host) == host[(if TopLevel(host[b + 1..a]) then c + 1 else b + 1)..]
  {
    assert host[0..] == host;
  }

  lemma {:induction false} LastTwo(before: Bytes, y: Bytes, z: Bytes)
    requires 46 !in y && 46 !in z
    ensures var s := before + [46] + y + [46] + z;
            var n := |before| + 1 + |y|;
            LastIndex(s, 46) == n && LastIndex(s[..n], 46) == |before| && s[..n][..|before|] == before &&
                s[..|before|] == before &&
            s[|before| + 1..n] == y && s[|before| + 1..] == y + [46] + z
  {
    hide LastIndex;
    LastDotOf(before + [46] + y, z);
    LastDotOf(before, y);
  }

  /** A dot at the end of a name does not count. */
  lemma {:induction false} TrailingDot(host: Bytes)
    ensures TrimLastDot(host + [46]) == host
    ensures host == [] || host[|host| - 1] != 46 ==> TrimLastDot(host) == host
  {
  }

  function Dotted(a: nat, b: nat, c: nat, d: nat): (s: Bytes) {
    Itoa(a) + [46] + (Itoa(b) + [46] + (Itoa(c) + [46] + Itoa(d)))
  }

  lemma {:induction false} DottedParts(a: nat, b: nat, c: nat, d: nat)
    requires a < 256 && b < 256 && c < 256 && d < 256
    ensures Parts(Dotted(a, b, c, d)) == [Itoa(a), Itoa(b), Itoa(c), Itoa(d)]
  {
    hide Itoa, Atoi, Parts;
    Octet(a);
    Octet(b);
    Octet(c);
    Octet(d);
    FirstPart(Itoa(c), Itoa(d));
    FirstPart(Itoa(b), Itoa(c) + [46] + Itoa(d));
    FirstPart(Itoa(a), Itoa(b) + [46] + (Itoa(c) + [46] + Itoa(d)));
  }

  /** An address has no domain when it is private, and is its own domain otherwise. */
  lemma {:induction false} AddressDecides(a: nat, b: nat, c: nat, d: nat)
    requires a < 256 && b < 256 && c < 256 && d < 256
    ensures HostToDomain(Dotted(a, b, c, d))
            == if a == 10 || a == 127 || (a == 192 && b == 168) || (a == 172 && 16 <= b <= 31) then [] else Dotted(a, b, c, d)
  {
    hide Itoa, Atoi, Parts, NameDomain, Dotted;
    Octet(a);
    Octet(b);
    Octet(c);
    Octet(d);
    Octet(10);
    Octet(127);
    Octet(192);
    Octet(168);
    Octet(172);
    DottedParts(a, b, c, d);
    Privates();
  }

  lemma {:induction false} Octet(n: nat)
    requires n < 256
    ensures IsOctet(Itoa(n)) && Atoi(Itoa(n)) == Some(n) && 46 !in Itoa(n)
  {
    AtoiOfItoa(n);
    assert DigitValue(46) == -1;
    assert n / 10 / 10 < 10 && |Itoa(n / 10 / 10)| == 1;
    assert |Itoa(n / 10)| <= 2;
  }

  lemma {:induction false} Privates()
    ensures Itoa(10) == [49, 48] && Itoa(127) == [49, 50, 55] && Itoa(192) == [49, 57, 50] && Itoa(168) == [49, 54, 56]
    ensures Itoa(172) == [49, 55, 50]
  {
    TwoMore(1, 0);
    TwoMore(12, 7);
    TwoMore(19, 2);
    TwoMore(16, 8);
    TwoMore(17, 2);
    TwoMore(1, 2);
    TwoMore(1, 9);
    TwoMore(1, 6);
    TwoMore(1, 7);
  }

  lemma {:induction false} TwoMore(n: nat, digit: nat)
    requires 0 < n && digit < 10
    ensures Itoa(10 * n + digit) == Itoa(n) + [48 + digit] && Itoa(1) == [49]
  {
  }

  // ---------------------------------------------------------------- URLs

  /** A text is split into host and port exactly when it has the form of either, without further brackets or colons. */
  lemma {:induction false} SplitDecides(s: Bytes, host: Bytes, port: Bytes)
    ensures SplitHostPort(s) == Some(Pair(host, port)) <==>
              58 !in port && 91 !in host && 93 !in host && 91 !in port && 93 !in port &&
              ((s == host + [58] + port && 58 !in host) || s == [91] + host + [93, 58] + port)
  {
    hide LastIndex, IndexOf;
    if SplitHostPort(s) == Some(Pair(host, port)) {
      SplitGives(s, host, port);
    } else if 58 !in port && NoBrackets(host) && NoBrackets(port) {
      if s == host + [58] + port && 58 !in host { SplitOfJoin(host, port); }
      if s == [91] + host + [93, 58] + port { SplitBracketed(host, port); }
    }
  }

  lemma {:induction false} SplitGives(s: Bytes, host: Bytes, port: Bytes)
    requires SplitHostPort(s) == Some(Pair(host, port))
    ensures 58 !in port && NoBrackets(host) && NoBrackets(port)
    ensures (s == host + [58] + port && 58 !in host) || s == [91] + host + [93, 58] + port
  {
    hide LastIndex, IndexOf;
    var i := LastIndex(s, 58);
    assert s == s[..i] + [58] + port;
    if s[0] == 91 {
      var end := IndexOf(s, 93);
      assert s[..i] == [91] + host + [93];
      assert s[1..] == host + [93, 58] + port;
      assert s[end + 1..] == [58] + port;
    } else {
      assert s[..i] == host;
    }
  }

  lemma {:induction false} SplitBracketed(host: Bytes, port: Bytes)
    requires 58 !in port && NoBrackets(host) && NoBrackets(port)
    ensures SplitHostPort([91] + host + [93, 58] + port) == Some(Pair(host, port))
  {
    hide LastIndex, IndexOf;
    var s := [91] + host + [93, 58] + port;
    BracketedParts(host, port);
    LastIndexIs(s, 58, |host| + 2);
    assert s[|host| + 3..] == port;
  }

  /** A number in decimal, with a sign or without. */
  lemma {:induction false} SignedNumber(n: nat)
    ensures var m: int := n;
            Atoi(Itoa(n)) == Some(m) && Atoi([43] + Itoa(n)) == Some(m) && Atoi([45] + Itoa(n)) == Some(-m)
    ensures Atoi([]) == None && Atoi([43]) == None && Atoi([45]) == None
  {
    hide Itoa;
    AtoiOfItoa(n);
    DigitsOfItoa(n);
    assert ([43] + Itoa(n))[1..] == Itoa(n) && ([45] + Itoa(n))[1..] == Itoa(n);
  }

  /** A host with a port, and one without, in a request line and in a Host header. */
  lemma {:induction false} HostAndPort(host: Bytes, port: Bytes, defaultPort: Bytes)
    requires host != [] && NoBrackets(host) && 58 !in host && NoBrackets(port) && 58 !in port
    ensures ParseAuthority(host + [58] + port, defaultPort) == Url(host, port, host + [58] + port, HostToDomain(host))
    ensures ParseAuthority(host, defaultPort) == Url(host, defaultPort, host + [58] + defaultPort, HostToDomain(host))
    ensures ParseHostPort(host + [58] + port) == Url(host, port, host + [58] + port, HostToDomain(host))
    ensures ParseHostPort(host) == Url(host, [56, 48], host + [58, 56, 48], HostToDomain(host))
  {
    hide HostToDomain, LastIndex, IndexOf;
    SplitOfJoin(host, port);
    LastIndexIs(host, 58, -1);
    Unmapped(host);
    assert host + [58, 56, 48] == host + [58] + [56, 48];
  }

  lemma {:induction false} Unmapped(host: Bytes)
    requires NoBrackets(host)
    ensures TrimMapped(host) == host
  {
    assert MAPPED_PREFIX[0] == 91;
    assert host == [] || host[0] != 91;
  }

  /** An IPv4 address written as an IPv6 one is taken for the IPv4 address. */
  lemma {:induction false} MappedAddress(host: Bytes)
    requires NoBrackets(host) && 58 !in host
    ensures TrimMapped([91, 58, 58, 102, 102, 102, 102, 58] + host + [93]) == host
  {
    var s := [91, 58, 58, 102, 102, 102, 102, 58] + host + [93];
    assert MAPPED_PREFIX <= s && s[8..] == host + [93];
  }
}
