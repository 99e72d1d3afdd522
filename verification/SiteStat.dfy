/** sitestat.go: what is known about sites. First the records and the table as values, then what holds in every run,
    then the object that is updated in place. Times are seconds. */
module SiteStat {
  import opened Wire
  import opened Domain
  import RequestLoop

  const DIRECT_DELTA := 5
  const BLOCKED_DELTA := 5
  const MAX_COUNT := 100
  const USER_COUNT := -1
  const TMP_BLOCKED_TIMEOUT := 2 * 60
  const STALE_THRESHOLD := 10 * 24 * 3600

  /** The counts are 8 bits wide. */
  type Count = n: int | -128 <= n < 128 witness 0

  function Int8(n: int): (r: Count) {
    (n + 128) % 256 - 128
  }

  // ---------------------------------------------------------------- one site

  datatype Visits = Visits(direct: Count, blocked: Count, recent: int, rUpdated: bool, blockedOn: Option<int>) {
    predicate AlwaysDirect() {
      direct == USER_COUNT
    }

    predicate AlwaysBlocked() {
      blocked == USER_COUNT
    }

    predicate UserSpecified() {
      AlwaysDirect() || AlwaysBlocked()
    }

    predicate IsStale(now: int) {
      now - recent > STALE_THRESHOLD
    }

    predicate AsTempBlocked(now: int) {
      blockedOn.Some? && now - blockedOn.value < TMP_BLOCKED_TIMEOUT
    }

    predicate AsDirect() {
      blocked == 0 || Int8(direct - blocked) >= DIRECT_DELTA || AlwaysDirect()
    }

    predicate OnceBlocked(now: int) {
      blocked > 0 || AlwaysBlocked() || AsTempBlocked(now)
    }

    /** `draw` is a random number below the difference of the counts. */
    predicate AsBlocked(now: int, draw: int) {
      AlwaysBlocked() || AsTempBlocked(now) || (Int8(blocked - direct) >= BLOCKED_DELTA && draw != 0)
    }

    function Touched(now: int): (v: Visits) {
      if rUpdated then this else this.(recent := now, rUpdated := true)
    }

    function DirectVisit(now: int, networkBad: bool): (v: Visits) {
      if networkBad || UserSpecified() then this else Touched(now).(direct := Bump(direct), blocked := 0)
    }

    function BlockedVisit(now: int, networkBad: bool): (v: Visits) {
      if networkBad || UserSpecified() then this else Touched(now).(blocked := Bump(blocked), direct := 0)
    }
  }

  /** VisitCnt.visit on one counter. */
  function Bump(n: Count): (r: Count) {
    var m: int := if n < MAX_COUNT then n + 1 else n;
    if m > MAX_COUNT || m < 0 then MAX_COUNT else m
  }

  function NewVisits(direct: Count, blocked: Count, time: int): (v: Visits) {
    Visits(direct, blocked, time, true, None)
  }

  /** A count of visits is never taken for a mark of the user, whatever it was before; and the differences that
      decide between direct and blocked do not wrap around. */
  lemma {:induction false} VisitsStayCounts(v: Visits, now: int, networkBad: bool)
    ensures v.UserSpecified() ==> v.DirectVisit(now, networkBad) == v && v.BlockedVisit(now, networkBad) == v
    ensures !v.UserSpecified() ==>
              !v.DirectVisit(now, networkBad).UserSpecified() && !v.BlockedVisit(now, networkBad).UserSpecified()
    ensures !v.UserSpecified() && !networkBad ==>
              var d, b := v.DirectVisit(now, networkBad), v.BlockedVisit(now, networkBad);
              0 <= d.direct <= MAX_COUNT && d.blocked == 0 && 0 <= b.blocked <= MAX_COUNT && b.direct == 0 &&
              d.AsDirect() && Int8(b.blocked - b.direct) == b.blocked
  {
  }

  // ---------------------------------------------------------------- the table

  datatype Table = Table(sites: map<Bytes, Visits>, blockedDomains: set<Bytes>)

  /** The user decided for the domain as a whole. */
  predicate CoveredByDomain(t: Table, url: Url) {
    |url.domain| != |url.host| && url.domain in t.sites && t.sites[url.domain].UserSpecified()
  }

  /** GetVisitCnt: the table afterwards and the key of the record, or None for the shared always direct record. */
  function Look(t: Table, parentEmpty: bool, url: Url, now: int): (r: (Table, Option<Bytes>)) {
    if parentEmpty || url.domain == [] then (t, None)
    else if url.host in t.sites then (t, Some(url.host))
    else if CoveredByDomain(t, url) then (t, Some(url.domain))
    else (t.(sites := t.sites[url.host := NewVisits(0, 0, now)]), Some(url.host))
  }

  /** TempBlocked; None is the panic for a host without a record. */
  function Block(t: Table, url: Url, now: int): (r: Option<Table>) {
    if url.host !in t.sites then None
    else
      Some(Table(t.sites[url.host := t.sites[url.host].(blockedOn := Some(now))], t.blockedDomains + {url.domain}))
  }

  function DirectSites(t: Table): (s: set<Bytes>) {
    set site | site in t.sites && HostToDomain(site) !in t.blockedDomains && t.sites[site].AsDirect()
  }

  // ---------------------------------------------------------------- loading

  function LoadList(m: map<Bytes, Visits>, list: seq<Bytes>, direct: Count, blocked: Count): (r: map<Bytes, Visits>)
    ensures forall s :: s in list ==> s in r && r[s] == NewVisits(direct, blocked, 0)
    ensures forall s :: s !in list ==> (s in r <==> s in m) && (s in m ==> r[s] == m[s])
  {
    if list == [] then m
    else LoadList(m, list[..|list| - 1], direct, blocked)[list[|list| - 1] := NewVisits(direct, blocked, 0)]
  }

  /** A record that filterSites removes: a stale one, or one that a domain of the user's covers. */
  predicate Filtered(m: map<Bytes, Visits>, site: Bytes, now: int)
    requires site in m
  {
    !m[site].UserSpecified() &&
    (m[site].IsStale(now) ||
     (HostToDomain(site) != site && HostToDomain(site) in m && m[HostToDomain(site)].UserSpecified()))
  }

  function Kept(m: map<Bytes, Visits>, now: int): (r: map<Bytes, Visits>) {
    map site | site in m && !Filtered(m, site, now) :: m[site]
  }

  datatype Lists = Lists(builtinBlocked: seq<Bytes>, builtinDirect: seq<Bytes>,
                         userDirect: seq<Bytes>, userBlocked: seq<Bytes>)

  function WithLists(saved: map<Bytes, Visits>, l: Lists): (m: map<Bytes, Visits>) {
    LoadList(LoadList(LoadList(LoadList(saved, l.builtinBlocked, 0, USER_COUNT), l.builtinDirect, USER_COUNT, 0),
                      l.userDirect, USER_COUNT, 0), l.userBlocked, 0, USER_COUNT)
  }

  /** load, once the file is decoded. */
  function Load(saved: map<Bytes, Visits>, l: Lists, now: int): (t: Table) {
    var m := Kept(WithLists(saved, l), now);
    Table(m, set site | site in m && m[site].OnceBlocked(now) :: HostToDomain(site))
  }

  /** After loading, the user's lists rule, his blocked list most of all; no other record is stale or covered by a
      domain of the lists; and the domain of every site that was once blocked is known. */
  lemma {:induction false} LoadedTable(saved: map<Bytes, Visits>, l: Lists, now: int)
    ensures var t := Load(saved, l, now);
            (forall s :: s in l.userBlocked ==> s in t.sites && t.sites[s].AlwaysBlocked()) &&
            (forall s :: s in l.userDirect && s !in l.userBlocked ==> s in t.sites && t.sites[s].AlwaysDirect()) &&
            (forall s :: s in t.sites && !t.sites[s].UserSpecified() ==>
              !t.sites[s].IsStale(now) && s in saved && t.sites[s] == saved[s] &&
              (HostToDomain(s) != s && HostToDomain(s) in t.sites ==> !t.sites[HostToDomain(s)].UserSpecified())) &&
            (forall s :: s in t.sites && t.sites[s].OnceBlocked(now) ==> HostToDomain(s) in t.blockedDomains)
  {
    hide HostToDomain;
  }

  // ---------------------------------------------------------------- runs

  /** What requests do to the table, in any order. CountVisit goes through the record that a look-up returned. */
  datatype Op =
    | LookUp(url: Url, now: int)
    | TempBlock(url: Url, now: int)
    | CountVisit(key: Option<Bytes>, direct: bool, now: int, networkBad: bool)

  function Apply(t: Table, parentEmpty: bool, op: Op): (r: Option<Table>) {
    match op
    case LookUp(url, now) => Some(Look(t, parentEmpty, url, now).0)
    case TempBlock(url, now) => Block(t, url, now)
    case CountVisit(key, direct, now, networkBad) =>
      if key.None? || key.value !in t.sites then Some(t)
      else
        var v := t.sites[key.value];
        var v' := if direct then v.DirectVisit(now, networkBad) else v.BlockedVisit(now, networkBad);
        Some(t.(sites := t.sites[key.value := v']))
  }

  ghost predicate Run(parentEmpty: bool, tables: seq<Table>, ops: seq<Op>) {
    |tables| == |ops| + 1 &&
    forall i, j :: 0 <= i && j == i + 1 <= |ops| ==> Apply(tables[i], parentEmpty, ops[i]) == Some(tables[j])
  }

  /** Records are never removed, the user's never change and the others never become the user's; a domain once known
      to have a blocked host stays known. */
  ghost predicate Later(t: Table, t': Table) {
    t.blockedDomains <= t'.blockedDomains &&
    forall s :: s in t.sites ==>
      s in t'.sites && (if t.sites[s].UserSpecified() then t'.sites[s] == t.sites[s] else !t'.sites[s].UserSpecified())
  }

  lemma {:induction false} ApplyIsLater(t: Table, parentEmpty: bool, op: Op, t': Table)
    requires Apply(t, parentEmpty, op) == Some(t') && (op.TempBlock? ==> !t.sites[op.url.host].UserSpecified())
    ensures Later(t, t')
  {
    hide Bump, HostToDomain;
    if op.CountVisit? && op.key.Some? && op.key.value in t.sites {
      VisitsStayCounts(t.sites[op.key.value], op.now, op.networkBad);
    }
  }

  /** What a request can find for a URL; RequestLoop.World is about a site of one kind. */
  function KindOfSite(t: Table, parentEmpty: bool, url: Url): (k: RequestLoop.SiteKind) {
    if parentEmpty || url.domain == [] then RequestLoop.AlwaysDirect
    else if url.host in t.sites then KindOfVisits(t.sites[url.host])
    else if CoveredByDomain(t, url) then KindOfVisits(t.sites[url.domain])
    else RequestLoop.Own
  }

  function KindOfVisits(v: Visits): (k: RequestLoop.SiteKind) {
    if v.AlwaysDirect() then RequestLoop.AlwaysDirect
    else if v.AlwaysBlocked() then RequestLoop.AlwaysBlocked
    else RequestLoop.Own
  }

  /** A look-up returns a record of that kind; the host's own exists exactly when nobody decided for the site. */
  lemma {:induction false} LookFindsKind(t: Table, parentEmpty: bool, url: Url, now: int)
    ensures var (t', key) := Look(t, parentEmpty, url, now);
            var kind := KindOfSite(t, parentEmpty, url);
            (key.Some? ==> key.value in t'.sites && KindOfVisits(t'.sites[key.value]) == kind) &&
            (key.None? ==> kind == RequestLoop.AlwaysDirect) &&
            (kind == RequestLoop.Own ==>
              key == Some(url.host) && url.host in t'.sites && !t'.sites[url.host].UserSpecified())
  {
  }

  /** The kind of a site never changes, whatever other requests do. */
  lemma {:induction false} KindIsStable(t: Table, parentEmpty: bool, op: Op, t': Table, url: Url)
    requires Apply(t, parentEmpty, op) == Some(t') && url.domain == HostToDomain(url.host)
    requires op.LookUp? ==> op.url.domain == HostToDomain(op.url.host)
    requires op.TempBlock? ==> !t.sites[op.url.host].UserSpecified()
    ensures KindOfSite(t', parentEmpty, url) == KindOfSite(t, parentEmpty, url)
  {
    hide Bump, HostToDomain;
    ApplyIsLater(t, parentEmpty, op, t');
  }

  /** In a guarded run only sites of the kind Own are blocked, which is what the conditions on maybeFake and on the
      records at every call of TempBlocked come to (RequestLoop.World.TempBlocked). */
  ghost predicate Guarded(parentEmpty: bool, tables: seq<Table>, ops: seq<Op>)
    requires Run(parentEmpty, tables, ops)
  {
    forall i :: 0 <= i < |ops| ==>
      (ops[i].LookUp? ==> Canonical(ops[i].url)) &&
      (ops[i].TempBlock? ==> Canonical(ops[i].url) && KindOfSite(tables[i], parentEmpty, ops[i].url) == RequestLoop.Own)
  }

  lemma {:induction false} LaterTrans(t: Table, t': Table, t'': Table)
    requires Later(t, t') && Later(t', t'')
    ensures Later(t, t'')
  {
  }

  lemma {:induction false} LaterSelf(t: Table)
    ensures Later(t, t)
  {
  }

  lemma {:induction false} RunIsLater(parentEmpty: bool, tables: seq<Table>, ops: seq<Op>, i: nat, j: nat)
    requires Run(parentEmpty, tables, ops) && Guarded(parentEmpty, tables, ops) && i <= j <= |ops|
    ensures Later(tables[i], tables[j])
    decreases j
  {
    hide Apply, KindOfSite, Later;
    if i == j {
      LaterSelf(tables[i]);
    } else {
      RunIsLater(parentEmpty, tables, ops, i, j - 1);
      assert Apply(tables[j - 1], parentEmpty, ops[j - 1]) == Some(tables[j]);
      BlocksOwn(tables[j - 1], parentEmpty, ops[j - 1]);
      ApplyIsLater(tables[j - 1], parentEmpty, ops[j - 1], tables[j]);
      LaterTrans(tables[i], tables[j - 1], tables[j]);
    }
  }

  lemma {:induction false} BlocksOwn(t: Table, parentEmpty: bool, op: Op)
    requires Apply(t, parentEmpty, op).Some? && (op.TempBlock? ==> KindOfSite(t, parentEmpty, op.url) == RequestLoop.Own)
    ensures op.TempBlock? ==> op.url.host in t.sites && !t.sites[op.url.host].UserSpecified()
  {
  }

  lemma {:induction false} KindsInRun(parentEmpty: bool, tables: seq<Table>, ops: seq<Op>, i: nat, j: nat, url: Url)
    requires Run(parentEmpty, tables, ops) && Guarded(parentEmpty, tables, ops) && i <= j <= |ops|
    requires url.domain == HostToDomain(url.host)
    ensures KindOfSite(tables[i], parentEmpty, url) == KindOfSite(tables[j], parentEmpty, url)
    decreases j
  {
    hide Apply, KindOfSite, HostToDomain;
    if i < j {
      KindsInRun(parentEmpty, tables, ops, i, j - 1, url);
      assert Apply(tables[j - 1], parentEmpty, ops[j - 1]) == Some(tables[j]);
      BlocksOwn(tables[j - 1], parentEmpty, ops[j - 1]);
      KindIsStable(tables[j - 1], parentEmpty, ops[j - 1], tables[j], url);
    }
  }

  /** TempBlocked does not panic: the connection was made for a URL with the same key in the pool, the look-up before
      found neither an always direct nor an always blocked record, and so the host has a record of its own now,
      however many requests came in between. */
  lemma {:induction false} TempBlockedFindsRecord(parentEmpty: bool, tables: seq<Table>, ops: seq<Op>, i: nat,
                                                  url: Url, now: int)
    requires Run(parentEmpty, tables, ops) && Guarded(parentEmpty, tables, ops) && i < |ops|
    requires ops[i].LookUp? && Canonical(url) && ops[i].url.hostPort == url.hostPort
    requires KindOfSite(tables[i], parentEmpty, ops[i].url) == RequestLoop.Own
    ensures KindOfSite(tables[|ops|], parentEmpty, url) == RequestLoop.Own
    ensures Apply(tables[|ops|], parentEmpty, TempBlock(url, now)).Some?
  {
    hide KindOfSite, HostToDomain;
    KeyTellsHost(ops[i].url, url);
    LookFindsKind(tables[i], parentEmpty, ops[i].url, ops[i].now);
    assert Apply(tables[i], parentEmpty, ops[i]) == Some(tables[i + 1]);
    RunIsLater(parentEmpty, tables, ops, i + 1, |ops|);
    KindsInRun(parentEmpty, tables, ops, i, |ops|, ops[i].url);
    SameKind(tables[|ops|], parentEmpty, ops[i].url, url);
  }

  lemma {:induction false} SameKind(t: Table, parentEmpty: bool, u: Url, v: Url)
    requires u.host == v.host && u.domain == v.domain
    ensures KindOfSite(t, parentEmpty, u) == KindOfSite(t, parentEmpty, v)
  {
  }

  /** Without canonical URLs it can: a connection to "[10.0.0.1]" comes back from the pool for the address itself,
      which has no record. */
  lemma {:induction false} TempBlockedCanPanic(now: int) returns (u: Url, v: Url)
    ensures u.hostPort == v.hostPort
    ensures var (t, key) := Look(Table(map[], {}), false, u, now);
            KindOfSite(t, false, u) == RequestLoop.Own && Look(t, false, v, now) == (t, None) && Block(t, v, now) == None
  {
    hide HostToDomain, ParseHostPort;
    var host := [49, 48, DOT, 48, DOT, 48, DOT, 49];
    OneKeyTwoHosts(host);
    BracketsHideAddress(host);
    var t := [OPEN_BRACKET] + host + [CLOSE_BRACKET];
    u, v := ParseHostPort(t), ParseHostPort(t + [COLON] + PORT_80);
    assert u.host[0] != v.host[0];
  }

  // ---------------------------------------------------------------- the direct list

  /** Once a site of a domain is known to be blocked, no site of the domain is listed any more. */
  lemma {:induction false} DomainStaysOut(parentEmpty: bool, tables: seq<Table>, ops: seq<Op>, i: nat, j: nat, domain: Bytes)
    requires Run(parentEmpty, tables, ops) && Guarded(parentEmpty, tables, ops) && i <= j <= |ops|
    requires domain in tables[i].blockedDomains
    ensures forall s :: s in DirectSites(tables[j]) ==> HostToDomain(s) != domain
  {
    hide Apply, KindOfSite, HostToDomain;
    RunIsLater(parentEmpty, tables, ops, i, j);
  }

  /** After a host is blocked for a while, no later direct list holds the host or any site of its domain; nor the
      domain itself, unless the host ends in two dots. */
  lemma {:induction false} BlockedStaysOut(parentEmpty: bool, tables: seq<Table>, ops: seq<Op>, i: nat, j: nat)
    requires Run(parentEmpty, tables, ops) && Guarded(parentEmpty, tables, ops) && i < j <= |ops| && ops[i].TempBlock?
    ensures var url := ops[i].url;
            (forall s :: s in DirectSites(tables[j]) ==> HostToDomain(s) != url.domain) &&
            url.host !in DirectSites(tables[j]) &&
            (!EndsInTwoDots(url.host) ==> url.domain !in DirectSites(tables[j]))
  {
    hide KindOfSite, HostToDomain;
    assert Apply(tables[i], parentEmpty, ops[i]) == Some(tables[i + 1]);
    DomainStaysOut(parentEmpty, tables, ops, i + 1, j, ops[i].url.domain);
    DomainIsIdempotent(ops[i].url.host);
  }

  /** The exception: for such a host a listed entry of its domain stays listed. */
  lemma {:induction false} DomainEntrySurvives(t: Table, url: Url, now: int)
    requires url.domain == HostToDomain(url.host) && EndsInTwoDots(url.host) && url.host in t.sites
    requires url.domain in DirectSites(t)
    ensures url.domain in DirectSites(Block(t, url, now).value)
  {
    hide HostToDomain;
    DomainIsIdempotent(url.host);
  }

  /** The same for every site that was once blocked when the process started. */
  lemma {:induction false} LoadedBlockedStaysOut(saved: map<Bytes, Visits>, l: Lists, start: int, parentEmpty: bool,
                                                 tables: seq<Table>, ops: seq<Op>, site: Bytes, j: nat)
    requires Run(parentEmpty, tables, ops) && Guarded(parentEmpty, tables, ops) && j <= |ops|
    requires tables[0] == Load(saved, l, start) && site in tables[0].sites && tables[0].sites[site].OnceBlocked(start)
    ensures forall s :: s in DirectSites(tables[j]) ==> HostToDomain(s) != HostToDomain(site)
    ensures site !in DirectSites(tables[j])
    ensures !EndsInTwoDots(site) ==> HostToDomain(site) !in DirectSites(tables[j])
  {
    hide HostToDomain, Apply, KindOfSite;
    DomainIsIdempotent(site);
    DomainStaysOut(parentEmpty, tables, ops, 0, j, HostToDomain(site));
  }

  // ---------------------------------------------------------------- the object

  /** The domains of once blocked sites outside `todo`. */
  ghost function Marked(m: map<Bytes, Visits>, todo: set<Bytes>, now: int): (r: set<Bytes>) {
    set s | s in m && s !in todo && m[s].OnceBlocked(now) :: HostToDomain(s)
  }

  lemma {:induction false} MarkedEnds(m: map<Bytes, Visits>, now: int)
    ensures Marked(m, m.Keys, now) == {}
    ensures Marked(m, {}, now) == set s | s in m && m[s].OnceBlocked(now) :: HostToDomain(s)
  {
    hide HostToDomain;
  }

  lemma {:induction false} MarkedStep(m: map<Bytes, Visits>, todo: set<Bytes>, host: Bytes, now: int)
    requires host in todo && host in m
    ensures Marked(m, todo - {host}, now) ==
            Marked(m, todo, now) + if m[host].OnceBlocked(now) then {HostToDomain(host)} else {}
  {
    hide HostToDomain;
    forall d | d in Marked(m, todo - {host}, now)
      ensures d in Marked(m, todo, now) || (m[host].OnceBlocked(now) && d == HostToDomain(host))
    {
      var s :| s in m && s !in todo - {host} && m[s].OnceBlocked(now) && HostToDomain(s) == d;
    }
  }

  class SiteStat {
    var vcnt: map<Bytes, Visits>
    var hasBlockedHost: map<Bytes, bool>

    constructor ()
      ensures Contents() == Table(map[], {})
    {
      vcnt, hasBlockedHost := map[], map[];
    }

    ghost function Contents(): (t: Table) reads this {
      Table(vcnt, set d | d in hasBlockedHost && hasBlockedHost[d])
    }

    method GetVisitCnt(parentEmpty: bool, url: Url, now: int) returns (key: Option<Bytes>)
      modifies this`vcnt
      ensures (Contents(), key) == Look(old(Contents()), parentEmpty, url, now)
    {
      if parentEmpty { return None; }
      if url.domain == [] { return None; }
      if url.host in vcnt { return Some(url.host); }
      if |url.domain| != |url.host| {
        if url.domain in vcnt && vcnt[url.domain].UserSpecified() { return Some(url.domain); }
      }
      vcnt := vcnt[url.host := NewVisits(0, 0, now)];
      return Some(url.host);
    }

    /** TempBlocked: the source panics when the precondition fails. */
    method TempBlocked(url: Url, now: int)
      requires url.host in vcnt
      modifies this
      ensures Some(Contents()) == Block(old(Contents()), url, now)
    {
      vcnt := vcnt[url.host := vcnt[url.host].(blockedOn := Some(now))];
      var t := url.domain in hasBlockedHost && hasBlockedHost[url.domain];
      if !t { hasBlockedHost := hasBlockedHost[url.domain := true]; }
      assert Contents().blockedDomains == old(Contents()).blockedDomains + {url.domain};
    }

    method LoadSites(list: seq<Bytes>, direct: Count, blocked: Count)
      modifies this`vcnt
      ensures vcnt == LoadList(old(vcnt), list, direct, blocked)
    {
      for i := 0 to |list|
        invariant vcnt == LoadList(old(vcnt), list[..i], direct, blocked)
      {
        assert list[..i + 1][..i] == list[..i];
        vcnt := vcnt[list[i] := NewVisits(direct, blocked, 0)];
      }
      assert list[..|list|] == list;
    }

    method FilterSites(now: int)
      modifies this`vcnt
      ensures vcnt == Kept(old(vcnt), now)
    {
      hide HostToDomain, Filtered;
      var removeSites := SitesToRemove(now);
      RemoveSites(removeSites);
    }

    /** The first loop of filterSites. */
    method SitesToRemove(now: int) returns (removeSites: seq<Bytes>)
      ensures forall s :: s in removeSites <==> s in vcnt && Filtered(vcnt, s, now)
    {
      hide HostToDomain;
      removeSites := [];
      var todo := vcnt.Keys;
      while todo != {}
        invariant todo <= vcnt.Keys
        invariant forall s :: s in removeSites <==> s in vcnt && s !in todo && Filtered(vcnt, s, now)
        decreases |todo|
      {
        var site :| site in todo;
        var v := vcnt[site];
        if v.UserSpecified() {
        } else if v.IsStale(now) {
          removeSites := removeSites + [site];
        } else {
          var domain := HostToDomain(site);
          if domain != site && domain in vcnt && vcnt[domain].UserSpecified() { removeSites := removeSites + [site]; }
        }
        todo := todo - {site};
      }
    }

    /** The second loop of filterSites. */
    method RemoveSites(removeSites: seq<Bytes>)
      modifies this`vcnt
      ensures vcnt == map s | s in old(vcnt) && s !in removeSites :: old(vcnt)[s]
    {
      for i := 0 to |removeSites|
        invariant vcnt == map s | s in old(vcnt) && s !in removeSites[..i] :: old(vcnt)[s]
      {
        assert removeSites[..i + 1] == removeSites[..i] + [removeSites[i]];
        vcnt := vcnt - {removeSites[i]};
      }
      assert removeSites[..|removeSites|] == removeSites;
    }

    /** load on the records of a decoded file. */
    method LoadTable(saved: map<Bytes, Visits>, l: Lists, now: int)
      modifies this
      ensures Contents() == Load(saved, l, now)
    {
      hide HostToDomain, Kept, LoadList;
      vcnt, hasBlockedHost := saved, map[];
      LoadSites(l.builtinBlocked, 0, USER_COUNT);
      LoadSites(l.builtinDirect, USER_COUNT, 0);
      LoadSites(l.userDirect, USER_COUNT, 0);
      LoadSites(l.userBlocked, 0, USER_COUNT);
      FilterSites(now);
      MarkBlocked(now);
    }

    method Mark(domain: Bytes)
      modifies this`hasBlockedHost
      ensures Contents().blockedDomains == old(Contents()).blockedDomains + {domain}
    {
      hasBlockedHost := hasBlockedHost[domain := true];
    }

    /** The last loop of load. */
    method MarkBlocked(now: int)
      requires hasBlockedHost == map[]
      modifies this`hasBlockedHost
      ensures Contents().blockedDomains == set s | s in vcnt && vcnt[s].OnceBlocked(now) :: HostToDomain(s)
    {
      hide HostToDomain, Marked;
      MarkedEnds(vcnt, now);
      var todo := vcnt.Keys;
      while todo != {}
        invariant todo <= vcnt.Keys
        invariant Contents().blockedDomains == Marked(vcnt, todo, now)
        decreases |todo|
      {
        var host :| host in todo;
        MarkedStep(vcnt, todo, host, now);
        if vcnt[host].OnceBlocked(now) { Mark(HostToDomain(host)); }
        todo := todo - {host};
      }
    }

    method GetDirectList() returns (list: seq<Bytes>)
      ensures forall s :: s in list <==> s in DirectSites(Contents())
      ensures forall i, j :: 0 <= i < j < |list| ==> list[i] != list[j]
    {
      hide HostToDomain;
      list := [];
      var todo := vcnt.Keys;
      while todo != {}
        invariant todo <= vcnt.Keys
        invariant forall s :: s in list <==> s in DirectSites(Contents()) && s !in todo
        invariant forall i, j :: 0 <= i < j < |list| ==> list[i] != list[j]
        decreases |todo|
      {
        var site :| site in todo;
        var domain := HostToDomain(site);
        if domain in hasBlockedHost && hasBlockedHost[domain] {
        } else if vcnt[site].AsDirect() {
          list := list + [site];
        }
        todo := todo - {site};
      }
    }

    /** DirectVisit and BlockedVisit through a record that GetVisitCnt returned. */
    method Visit(key: Bytes, direct: bool, now: int, networkBad: bool)
      requires key in vcnt
      modifies this`vcnt
      ensures Some(Contents()) == Apply(old(Contents()), false, CountVisit(Some(key), direct, now, networkBad))
    {
      var v := vcnt[key];
      vcnt := vcnt[key := if direct then v.DirectVisit(now, networkBad) else v.BlockedVisit(now, networkBad)];
    }
  }
}
