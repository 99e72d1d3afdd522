/** proxy.go and http.go: one request is tried, perhaps retried over another connection, and answered with a
    response or with an error page. What the network does to an attempt is a script that the caller chooses; what other
    clients do to the site is nondeterministic. */
module RequestTrace {

  /** What the client sees of one request, and the attempts in between. */
  datatype Event =
    | Attempt      // a server connection is asked for
    | Established  // the 200 line that opens a tunnel
    | Page         // an error page
    | Answer       // bytes of the response, or of the server's side of a tunnel

  datatype Phase = Open | Answering | Paged | Broken

  function Next(p: Phase, e: Event): (q: Phase) {
    match e
    case Attempt => if p == Open then Open else Broken
    case Established => if p == Open then Open else Broken
    case Page => if p == Open then Paged else Broken
    case Answer => if p == Open || p == Answering then Answering else Broken
  }

  function After(trace: seq<Event>): (p: Phase) {
    if trace == [] then Open else Next(After(trace[..|trace| - 1]), trace[|trace| - 1])
  }

  lemma {:induction false} AfterOne(trace: seq<Event>, e: Event)
    ensures After(trace + [e]) == Next(After(trace), e)
  {
    assert (trace + [e])[..|trace|] == trace;
  }

  /** How often an event occurs. */
  function Count(trace: seq<Event>, e: Event): (n: nat) {
    if trace == [] then 0 else Count(trace[..|trace| - 1], e) + if trace[|trace| - 1] == e then 1 else 0
  }

  lemma {:induction false} CountOne(trace: seq<Event>, last: Event, e: Event)
    ensures Count(trace + [last], e) == Count(trace, e) + if last == e then 1 else 0
  {
    assert (trace + [last])[..|trace|] == trace;
  }

  /** The phase of a trace says what it holds. */
  lemma {:induction false} PhaseMeans(trace: seq<Event>)
    requires After(trace) != Broken
    ensures After(trace) == Open ==> Page !in trace && Answer !in trace
    ensures After(trace) == Paged ==> trace[|trace| - 1] == Page && Answer !in trace && Page !in trace[..|trace| - 1]
    ensures After(trace) == Answering ==> Page !in trace && trace[|trace| - 1] == Answer
    ensures forall i, j :: 0 <= i < j < |trace| && trace[j] in {Attempt, Established} ==> trace[i] in {Attempt, Established}
  {
    if trace != [] {
      PhaseMeans(trace[..|trace| - 1]);
    }
  }

  /** In a trace that is not broken nothing is tried after response bytes or a page, there is at most one page, and
      never both a page and a response. */
  lemma {:induction false} TraceIsSafe(trace: seq<Event>)
    requires After(trace) != Broken
    ensures forall i, j :: 0 <= i < j < |trace| && trace[i] in {Answer, Page} ==> trace[j] == Answer && trace[i] == Answer
    ensures !(Page in trace && Answer in trace)
  {
    PhaseMeans(trace);
    forall i, j | 0 <= i < j < |trace| && trace[i] in {Answer, Page}
      ensures trace[j] == Answer && trace[i] == Answer
    {
      TraceSuffix(trace, j);
      TraceSuffix(trace, j + 1);
      PhaseMeans(trace[..j]);
      assert trace[..j + 1][..j] == trace[..j];
      assert trace[..j][i] == trace[i];
    }
  }

  /** What comes before is not broken either. */
  lemma {:induction false} TraceSuffix(trace: seq<Event>, k: nat)
    requires After(trace) != Broken && k <= |trace|
    ensures After(trace[..k]) != Broken
  {
    if k < |trace| {
      assert trace[..|trace| - 1][..k] == trace[..k];
      TraceSuffix(trace[..|trace| - 1], k);
    } else {
      assert trace[..k] == trace;
    }
  }
}

module RequestLoop {
  import opened Wire
  import opened RequestTrace
  import Coding = ChunkedCoding
  import Body = ChunkedBody

  const MAX_TRIES: nat := 4

  // ---------------------------------------------------------------- what the environment decides

  datatype ConnKind = Direct | Socks | HttpParent | CowParent

  datatype NetError = EOF | Timeout | ConnReset | HttpCode | Other

  /** How the transfer of a response body ends; `opRead` tells that the error came from reading the server. It is
      endless when sendBodyChunked meets a size line that makes no progress, and then it never returns. */
  datatype BodyEnd = Complete | Cut(e: NetError, opRead: bool) | Endless

  /** What other clients and the clock do to the site during an attempt: nothing, the block expires, or anything. */
  datatype Others = Nothing | Expiry | Anything

  /** What comes back from the server: an error instead of a response, or a response. */
  datatype Answer =
    | NoAnswer(e: NetError)
    | Answered(tooLarge: bool, headerWritten: bool, switching: bool, body: BodyEnd)

  /** A 101 response that reached the client. */
  predicate Upgrades(a: Answer) {
    a.Answered? && a.headerWritten && a.switching
  }

  datatype TunnelStep = FromClient(p: Bytes) | FromServer

  /** What happens in a tunnel: whether the 200 line could be written, what both sides send, how reading from the server
      ends, and what the client still sends before it is told. */
  datatype TunnelScript = TunnelScript(established: bool, steps: seq<TunnelStep>, end: NetError, late: seq<Bytes>)

  predicate ServerSpeaks(t: TunnelScript) {
    exists i :: 0 <= i < |t.steps| && t.steps[i].FromServer?
  }

  /** What the client sends in these steps. */
  function ClientBytes(steps: seq<TunnelStep>): (b: Bytes) {
    if steps == [] then []
    else
      var last := steps[|steps| - 1];
      ClientBytes(steps[..|steps| - 1]) + if last.FromClient? then last.p else []
  }

  function Concat(pieces: seq<Bytes>): (b: Bytes) {
    if pieces == [] then [] else Concat(pieces[..|pieces| - 1]) + pieces[|pieces| - 1]
  }

  /** What the client sends in all, also while it has not been told of a retry. */
  function NewBytes(t: TunnelScript, retry: bool): (b: Bytes) {
    ClientBytes(t.steps) + if retry then Concat(t.late) else []
  }

  lemma {:induction false} ClientBytesGrow(steps: seq<TunnelStep>, i: nat)
    requires i <= |steps|
    ensures |ClientBytes(steps[..i])| <= |ClientBytes(steps)|
  {
    if i < |steps| {
      assert steps[..|steps| - 1][..i] == steps[..i];
      ClientBytesGrow(steps[..|steps| - 1], i);
    } else {
      assert steps[..i] == steps;
    }
  }

  lemma {:induction false} ConcatGrows(pieces: seq<Bytes>, i: nat)
    requires i <= |pieces|
    ensures |Concat(pieces[..i])| <= |Concat(pieces)|
  {
    if i < |pieces| {
      assert pieces[..|pieces| - 1][..i] == pieces[..i];
      ConcatGrows(pieces[..|pieces| - 1], i);
    } else {
      assert pieces[..i] == pieces;
    }
  }

  /** One attempt. `others` tells who else touches the site meanwhile; `learnt` is the random part of AsBlocked;
      `parent` and `direct` tell what dialing gives; `idle` that a direct connection is taken from the pool if there is
      one, `shared` that any other is; `limit` is how many bytes the server connection accepts and `writeError` what it
      reports then, None for an error outside of the net; `answer` and `tunnel` are what follows. */
  datatype Script = Script(
    others: Others, learnt: bool, parent: Option<ConnKind>, direct: bool, idle: bool, shared: Option<ConnKind>,
    auth: Bytes, limit: nat, writeError: Option<NetError>,
    admitted: bool, answer: Answer, tunnel: TunnelScript, keepAlive: bool)

  predicate IsParent(k: Option<ConnKind>) {
    k.Some? && k.value != Direct
  }

  // ---------------------------------------------------------------- the world around one request

  /** What does not change about a site. */
  datatype Site = Site(kind: SiteKind, parentEmpty: bool, alwaysProxy: bool)

  function SiteOf(w: World): (t: Site) {
    Site(w.kind, w.parentEmpty, w.alwaysProxy)
  }

  /** Whether a block is left. */
  predicate StillBlocked(o: Others, blocked: bool, budget: nat) {
    blocked && (o == Expiry ==> budget == 0)
  }

  /** What GetVisitCnt answers for the host of the request: a direct entry that nobody changes (a simple host, a
      listed site, no parent proxy at all), a listed blocked site, or the host's own entry. */
  datatype SiteKind = AlwaysDirect | AlwaysBlocked | Own

  /** The site's record and the idle direct connections to it. Other clients may take connections and block the
      site at any time; `budget` is how often, in all, they may add a connection or the block may expire. */
  class World {
    const kind: SiteKind
    const parentEmpty: bool
    const alwaysProxy: bool
    var pooledDirect: nat
    var tempBlocked: bool
    var budget: nat

    ghost predicate Valid() reads this {
      (parentEmpty ==> kind == AlwaysDirect) && (pooledDirect > 0 ==> kind != AlwaysBlocked) &&
      (tempBlocked ==> kind == Own)
    }

    ghost function Spare(): (n: nat) reads this {
      budget + pooledDirect
    }

    /** How often the site can still look like a fake server. */
    ghost function Potential(): (n: nat) reads this {
      Spare() + if tempBlocked then 0 else 1
    }

    /** How often a connection can still be dialed that may be fake. */
    ghost function Doubt(): (n: nat) reads this {
      budget + if tempBlocked then 0 else 1
    }

    constructor (kind: SiteKind, parentEmpty: bool, alwaysProxy: bool, pooled: nat, blocked: bool, budget: nat)
      requires (parentEmpty ==> kind == AlwaysDirect) && (pooled > 0 ==> kind != AlwaysBlocked) && (blocked ==> kind == Own)
      ensures Valid() && this.kind == kind && this.parentEmpty == parentEmpty && this.alwaysProxy == alwaysProxy
      ensures pooledDirect == pooled && tempBlocked == blocked && this.budget == budget
    {
      this.kind, this.parentEmpty, this.alwaysProxy := kind, parentEmpty, alwaysProxy;
      pooledDirect, tempBlocked, this.budget := pooled, blocked, budget;
    }

    /** What the other clients and the clock do in between. */
    method Interfere(o: Others)
      requires Valid()
      modifies this
      ensures Valid()
      ensures o != Anything ==>
                pooledDirect == old(pooledDirect) &&
                (tempBlocked <==> StillBlocked(o, old(tempBlocked), old(budget))) &&
                budget == old(budget) - if old(tempBlocked) && !tempBlocked then 1 else 0
      ensures Spare() <= old(Spare()) && Potential() <= old(Potential()) && Doubt() <= old(Doubt())
    {
      match o
      case Nothing =>
      case Expiry =>
        if tempBlocked && budget > 0 { tempBlocked, budget := false, budget - 1; }
      case Anything =>
        var taken: nat, added: nat := *, *;
        var blocks: bool, expires: bool := *, *;
        if taken <= pooledDirect { pooledDirect := pooledDirect - taken; }
        if added <= budget && kind != AlwaysBlocked {
          pooledDirect, budget := pooledDirect + added, budget - added;
        }
        if expires && tempBlocked && budget > 0 { tempBlocked, budget := false, budget - 1; }
        if blocks && kind == Own { tempBlocked := true; }
    }

    /** siteStat.TempBlocked: the host's own entry must exist, or the original panics. */
    method TempBlocked()
      requires Valid() && kind == Own
      modifies this`tempBlocked
      ensures Valid() && tempBlocked
    {
      tempBlocked := true;
    }

    /** VisitCnt.AsBlocked */
    predicate AsBlocked(learnt: bool) reads this {
      kind == AlwaysBlocked || tempBlocked || (kind == Own && learnt)
    }
  }

  datatype SvState = Connected | SendRecvResponse

  /** A server connection. `out` is what was handed to it for the current request; its first `limit` bytes are reported
      as written, and the write that goes beyond fails. */
  class ServerConn {
    const kind: ConnKind
    const alwaysDirect: bool
    const authHeader: Bytes
    const limit: nat
    var state: SvState
    var out: Bytes

    constructor (kind: ConnKind, alwaysDirect: bool, s: Script)
      ensures this.kind == kind && this.alwaysDirect == alwaysDirect && state == Connected && out == []
      ensures limit == s.limit && authHeader == if kind == HttpParent then s.auth else []
    {
      this.kind, this.alwaysDirect, state, out := kind, alwaysDirect, Connected, [];
      limit, authHeader := s.limit, if kind == HttpParent then s.auth else [];
    }

    predicate MaybeFake() reads this {
      state == Connected && kind == Direct && !alwaysDirect
    }

    predicate ViaHttp() {
      kind == HttpParent || kind == CowParent
    }

    method Write(p: Bytes) returns (ok: bool)
      modifies this`out
      ensures out == old(out) + p
      ensures ok <==> |out| <= limit
    {
      out := out + p;
      ok := |out| <= limit;
    }
  }

  /** A connection made for this request's host: one that could be fake belongs to a site that can be blocked. */
  ghost predicate Fits(sv: ServerConn, w: World) {
    sv.kind == Direct && !sv.alwaysDirect ==> w.kind == Own
  }

  /** How a call ended. `Crash` is a nil dereference, `Spins` a call that never returns. */
  datatype Err = Nil | Retry | PageSent | Failed | Crash | Spins

  predicate MaybeBlocked(parentEmpty: bool, e: NetError) {
    !parentEmpty && (e == Timeout || e == ConnReset || e == HttpCode)
  }

  // ---------------------------------------------------------------- the client and the request

  /** The client's connection: what it sees, and what it sends behind the header of the request. */
  class Client {
    const reader: Body.Reader
    var trace: seq<Event>

    constructor (reader: Body.Reader)
      ensures this.reader == reader && trace == [] && Attempts() == 0 && Lines() == 0
    {
      this.reader, trace := reader, [];
    }

    /** How often a server connection was asked for, and how often the client was told of a tunnel. */
    ghost function Attempts(): (n: nat) reads this {
      Count(trace, Attempt)
    }

    ghost function Lines(): (n: nat) reads this {
      Count(trace, Established)
    }

    method Emit(e: Event)
      modifies this`trace
      ensures trace == old(trace) + [e] && After(trace) == Next(old(After(trace)), e)
      ensures Attempts() == old(Attempts()) + if e == Attempt then 1 else 0
      ensures Lines() == old(Lines()) + if e == Established then 1 else 0
    {
      AfterOne(trace, e);
      CountOne(trace, e, Attempt);
      CountOne(trace, e, Established);
      trace := trace + [e];
    }
  }

  datatype RqState = Created | Sent | RecvBody | Done

  /** What does not change about a request while it is served. */
  datatype Facts = Facts(isConnect: bool, webSocket: bool, contLen: int, chunking: bool,
                         line: Bytes, gen: Bytes, fields: Bytes) {
    predicate HasBody() {
      chunking || contLen > 0
    }
  }

  /** `line`, `gen` and `fields` are the three parts of the header in the buffer: the client's request line for an
      HTTP parent, the generated one for a server, and the header fields. */
  class Request {
    var isConnect: bool
    var contLen: int
    var chunking: bool
    var webSocket: bool
    var line: Bytes
    var gen: Bytes
    var fields: Bytes
    var raw: Option<Bytes>
    var partial: bool
    var state: RqState
    var tryCnt: nat
    var plugin: bool
    ghost var body: Bytes    // everything of the client's body that was handed to a server writer
    ghost var largest: nat   // the longest single write of it

    /** A request whose header has just been parsed. */
    constructor (q: Facts)
      ensures isConnect == q.isConnect && webSocket == q.webSocket && contLen == q.contLen && chunking == q.chunking
      ensures line == q.line && gen == q.gen && fields == q.fields && raw == Some(q.line + q.gen + q.fields)
      ensures state == Created && tryCnt == 0 && body == [] && largest == 0 && !plugin && !partial
    {
      isConnect, webSocket, contLen, chunking := q.isConnect, q.webSocket, q.contLen, q.chunking;
      line, gen, fields := q.line, q.gen, q.fields;
      raw, partial, state, tryCnt, plugin := Some(q.line + q.gen + q.fields), false, Created, 0, false;
      body, largest := [], 0;
    }

    predicate HasBody() reads this {
      chunking || contLen > 0
    }

    function Head(): (h: Bytes) reads this {
      line + gen + fields
    }

    predicate ResponseNotSent() reads this {
      state == Created || state == Sent
    }

    predicate IsRetry() reads this {
      tryCnt > 1
    }

    /** A buffer that is held is the header and all of the body so far, and is bounded; one that was released was
        given up for its size, at twice the size of a read buffer, or was no longer needed. */
    ghost predicate Valid() reads this {
      tryCnt <= MAX_TRIES && (partial ==> |Head()| + |body| >= 2 * Body.HTTP_BUF_SIZE) &&
      match raw
      case Some(b) =>
        !partial && b == Head() + body && |b| <= Body.Max(|Head()|, 2 * Body.HTTP_BUF_SIZE - 1 + largest)
      case None => partial || !ResponseNotSent()
    }

    /** The pieces that sendRequestHeader takes from the buffer. */
    ghost predicate Splits(b: Bytes) reads this {
      |Head()| <= |b| && b[..|line|] == line && b[|line|..] == gen + fields + body &&
      b[|line| + |gen|..] == fields + body && b[|Head()|..] == body
    }

    lemma HeldSplits()
      requires Valid() && raw.Some?
      ensures Splits(raw.value)
    {
      var b := raw.value;
      assert b == line + (gen + fields + body);
      assert b == (line + gen) + (fields + body);
    }

    /** What a server must receive before the body. */
    ghost function Prologue(sv: ServerConn): (b: Bytes) reads this {
      PrologueOf(FactsOf(this), sv.kind, sv.authHeader)
    }
  }

  /** What comes before the body of a request over this kind of connection. */
  function PrologueOf(q: Facts, kind: ConnKind, auth: Bytes): (b: Bytes) {
    match kind
    case HttpParent => q.line + auth + q.fields
    case CowParent => q.line + [] + q.fields
    case _ => q.gen + q.fields
  }

  function FactsOf(r: Request): (q: Facts) reads r {
    Facts(r.isConnect, r.webSocket, r.contLen, r.chunking, r.line, r.gen, r.fields)
  }

  /** How a client's stream is read: the size of the buffer, and what comes at the end. */
  datatype Feed = Feed(bufSize: nat, end: Body.ReadError)

  function FeedOf(c: Client): (f: Feed) {
    Feed(c.reader.bufSize, c.reader.end)
  }

  /** What relaying the body of a request does to a stream: what it sends, what it leaves unread, how it ends. */
  function BodyOf(q: Facts, feed: Feed, stream: Bytes): (spec: Coding.Relay)
  {
    if !q.HasBody() then Coding.Relay([], stream, Coding.Done)
    else Body.BodyRelay(stream, feed.bufSize, feed.end, if q.chunking then 0 else q.contLen, q.chunking)
  }

  function WholeBody(c: Client, r: Request): (spec: Coding.Relay)
    requires c.reader.Valid()
    reads c.reader, r
  {
    BodyOf(FactsOf(r), FeedOf(c), c.reader.Rest())
  }

  /** What an attempt reads of it: nothing on a retry. */
  function Planned(c: Client, r: Request): (spec: Coding.Relay)
    requires c.reader.Valid()
    reads c.reader, r
  {
    if r.IsRetry() then Coding.Relay([], c.reader.Rest(), Coding.Done) else WholeBody(c, r)
  }

  predicate Extends(a: Bytes, b: Bytes) {
    |a| <= |b| && b[..|a|] == a
  }

  lemma {:induction false} ExtendsAppend(a: Bytes, b: Bytes)
    ensures Extends(a, a + b) && (a + b)[|a|..] == b
  {
  }

  lemma {:induction false} ExtendsSelf(a: Bytes)
    ensures Extends(a, a)
  {
  }

  lemma {:induction false} Answers(p: Phase)
    requires p == Open || p == Answering
    ensures Next(p, Answer) == Answering
  {
  }

  lemma {:induction false} ExtendsTrans(a: Bytes, b: Bytes, c: Bytes)
    requires Extends(a, b) && Extends(b, c)
    ensures Extends(a, c)
  {
    assert c[..|b|][..|a|] == c[..|a|];
  }

  /** serverWriter.Write */
  method ServerWrite(r: Request, sv: ServerConn, p: Bytes) returns (ok: bool)
    requires r.Valid()
    modifies r`raw, r`partial, r`body, r`largest, sv`out
    ensures r.Valid()
    ensures r.body == old(r.body) + p && r.largest == Body.Max(old(r.largest), |p|)
    ensures sv.out == old(sv.out) + p && Extends(old(sv.out), sv.out)
    ensures ok <==> |sv.out| <= sv.limit
    ensures old(r.raw).None? ==> r.raw.None? && r.partial == old(r.partial)
    ensures old(r.raw).Some? ==> (r.raw.Some? <==> |old(r.raw).value| < 2 * Body.HTTP_BUF_SIZE && r.ResponseNotSent())
    ensures old(r.raw).Some? ==> (r.partial <==> |old(r.raw).value| >= 2 * Body.HTTP_BUF_SIZE)
  {
    ghost var before := r.body;
    var (kept, tooLong) := Body.Keep(r.raw, p, r.ResponseNotSent());
    if r.raw.Some? { assert r.raw.value + p == r.Head() + (before + p); }
    r.body, r.largest := r.body + p, Body.Max(r.largest, |p|);
    r.raw, r.partial := kept, r.partial || tooLong;
    ok := sv.Write(p);
    ExtendsAppend(old(sv.out), p);
  }

  // ---------------------------------------------------------------- errors

  method HandleServerWriteError(sv: ServerConn, w: World, e: NetError) returns (err: Err)
    requires w.Valid() && Fits(sv, w)
    modifies w`tempBlocked
    ensures w.Valid() && (w.tempBlocked <==> old(w.tempBlocked) || (sv.MaybeFake() && e == ConnReset))
    ensures err == Retry
  {
    if sv.MaybeFake() && e == ConnReset { w.TempBlocked(); }
    return Retry;
  }

  method HandleServerReadError(c: Client, r: Request, sv: ServerConn, w: World, e: NetError) returns (err: Err)
    requires w.Valid() && Fits(sv, w)
    requires r.ResponseNotSent() ==> After(c.trace) == Open
    modifies w`tempBlocked, c`trace
    ensures w.Valid() && (w.tempBlocked <==> old(w.tempBlocked) || (e != EOF && err == Retry))
    ensures err == Retry <==> e == EOF || (sv.MaybeFake() && MaybeBlocked(w.parentEmpty, e))
    ensures err == Retry ==> c.trace == old(c.trace)
    ensures err == PageSent ==> old(r.ResponseNotSent()) && c.trace == old(c.trace) + [Page] && After(c.trace) == Paged
    ensures err == Failed ==> !r.ResponseNotSent() && c.trace == old(c.trace)
    ensures err in {Retry, PageSent, Failed}
    ensures c.Attempts() == old(c.Attempts()) && c.Lines() == old(c.Lines())
  {
    if e == EOF { return Retry; }
    if sv.MaybeFake() && MaybeBlocked(w.parentEmpty, e) {
      w.TempBlocked();
      return Retry;
    }
    if r.ResponseNotSent() {
      c.Emit(Page);
      return PageSent;
    }
    return Failed;
  }

  // ---------------------------------------------------------------- getting a connection

  /** What a step may do to the site: block it, and no more than the environment is allowed. */
  twostate predicate Settles(w: World)
    reads w
  {
    w.Valid() && w.Spare() <= old(w.Spare()) && w.Potential() <= old(w.Potential()) && w.Doubt() <= old(w.Doubt())
  }

  /** All that a connection can do to its site is to block it, and it does so exactly if `b`. */
  twostate predicate Marked(w: World, b: bool)
    reads w
  {
    w.Valid() && Later(old(StockOf(w)), StockOf(w), b)
  }

  twostate predicate Blocks(w: World)
    reads w
  {
    w.Valid() && (old(w.tempBlocked) ==> w.tempBlocked)
  }

  /** A connection that may be fake cost an idle connection, or the site was not blocked when it was made. */
  twostate predicate Paid(w: World, new sv: ServerConn)
    reads w
  {
    Settles(w) && Fits(sv, w) && (sv.kind == Direct && !sv.alwaysDirect ==> w.Spare() < old(w.Potential()))
  }

  /** The result of asking for a connection: a new one, or one page. */
  twostate predicate ConnectionOrPage(c: Client, w: World, new sv: ServerConn?, s: Script)
    reads c, w, sv
  {
    Settles(w) && c.Attempts() == old(c.Attempts()) && c.Lines() == old(c.Lines()) &&
    if sv == null then c.trace == old(c.trace) + [Page] && After(c.trace) == Paged
    else
      Paid(w, sv) && NewFor(sv, w, s) && c.trace == old(c.trace)
  }

  method DialParent(kind: Option<ConnKind>, s: Script) returns (sv: ServerConn?)
    ensures sv != null <==> IsParent(kind)
    ensures sv != null ==>
              fresh(sv) && sv.kind == kind.value && sv.state == Connected && sv.out == [] && sv.limit == s.limit &&
              sv.authHeader == if sv.kind == HttpParent then s.auth else []
  {
    if IsParent(kind) { sv := new ServerConn(kind.value, false, s); } else { sv := null; }
  }

  method DialDirect(w: World, s: Script) returns (sv: ServerConn?)
    requires w.Valid() && w.kind != AlwaysBlocked
    ensures sv != null <==> s.direct
    ensures sv != null ==>
              fresh(sv) && sv.kind == Direct && sv.alwaysDirect == (w.kind == AlwaysDirect) && Fits(sv, w) &&
              sv.state == Connected && sv.out == [] && sv.limit == s.limit && sv.authHeader == []
  {
    if s.direct { sv := new ServerConn(Direct, w.kind == AlwaysDirect, s); } else { sv := null; }
  }

  /** A site goes to a parent if it is listed as blocked, has been blocked, or has been learnt to be. */
  predicate ViaParent(w: Site, blocked: bool, s: Script) {
    (w.kind == AlwaysBlocked || blocked || (w.kind == Own && s.learnt)) && !w.parentEmpty
  }

  /** Which way is taken: a blocked site goes to a parent, any other directly, and each the other way if that fails and is
      allowed. */
  function RouteOf(w: Site, blocked: bool, s: Script): (kind: Option<ConnKind>) {
    var parent := if IsParent(s.parent) then s.parent else None;
    if w.alwaysProxy then parent
    else if ViaParent(w, blocked, s) then
      if parent.Some? then parent else if w.kind != AlwaysBlocked && !blocked && s.direct then Some(Direct) else None
    else if s.direct then Some(Direct)
    else if !w.parentEmpty && w.kind != AlwaysDirect then parent
    else None
  }

  predicate Routed(w: Site, blocked: bool, budget: nat, s: Script, kind: Option<ConnKind>) {
    s.others != Anything ==> kind == RouteOf(w, StillBlocked(s.others, blocked, budget), s)
  }

  /** A parent was taken only because the site could not be reached directly: it is taken for blocked from then on. */
  predicate FellBack(w: Site, blocked: bool, s: Script, kind: Option<ConnKind>) {
    !w.alwaysProxy && !ViaParent(w, blocked, s) && IsParent(kind)
  }

  predicate IsDirect(sv: ServerConn?) {
    sv != null && sv.kind == Direct
  }

  /** A new connection for this site. */
  ghost predicate NewFor(sv: ServerConn, w: World, s: Script)
    reads sv
  {
    sv.state == Connected && sv.out == [] && sv.limit == s.limit &&
    (sv.kind == Direct ==> sv.alwaysDirect == (w.kind == AlwaysDirect) && w.kind != AlwaysBlocked) &&
    sv.authHeader == (if sv.kind == HttpParent then s.auth else [])
  }

  function KindOfConn(sv: ServerConn?): (kind: Option<ConnKind>) {
    if sv == null then None else Some(sv.kind)
  }

  /** What a new connection can be: direct only where that is allowed and dialing works, and a parent only for a site that
      is not always direct, or if everything goes through parents. */
  predicate Reached(w: Site, s: Script, kind: Option<ConnKind>) {
    (kind == Some(Direct) ==> w.kind != AlwaysBlocked && !w.alwaysProxy && s.direct) &&
    (kind.Some? && kind != Some(Direct) ==> (w.kind != AlwaysDirect || w.alwaysProxy) && s.parent == kind) &&
    (IsParent(s.parent) && s.direct ==> kind.Some?) &&
    (!IsParent(s.parent) && !s.direct ==> kind.None?) &&
    (w.kind == AlwaysDirect && !w.alwaysProxy ==> (kind.Some? <==> s.direct)) &&
    (w.alwaysProxy || w.kind == AlwaysBlocked ==> (kind.Some? <==> IsParent(s.parent) && (w.alwaysProxy || !w.parentEmpty)))
  }

  /** What a connection can be that may come from the pool. */
  predicate Got(w: Site, s: Script, isConnect: bool, pooled: bool, kind: Option<ConnKind>) {
    if pooled then kind == Some(Direct) && !isConnect && s.idle && w.kind != AlwaysBlocked
    else if !isConnect && IsParent(s.shared) then kind == s.shared
    else Reached(w, s, kind)
  }

  /** The idle connections to a site and its block. */
  datatype Stock = Stock(blocked: bool, budget: nat, pooled: nat)

  ghost function StockOf(w: World): (k: Stock) reads w {
    Stock(w.tempBlocked, w.budget, w.pooledDirect)
  }

  /** The site behind a connection: it is blocked now if it was, or if `b`. */
  predicate Later(k: Stock, k': Stock, b: bool) {
    k'.budget == k.budget && k'.pooled == k.pooled && (k'.blocked <==> k.blocked || b)
  }

  lemma {:induction false} LaterStill(k: Stock, k': Stock, k'': Stock, b: bool)
    requires Later(k, k', false) && Later(k', k'', b)
    ensures Later(k, k'', b)
  {
  }

  lemma {:induction false} LaterBlocks(k: Stock, k': Stock, b: bool)
    requires Later(k, k', b)
    ensures k.blocked ==> k'.blocked
  {
  }

  /** The site when the others have had their chance. */
  predicate Rested(s: Script, k: Stock, k': Stock) {
    k'.pooled == k.pooled && (k'.blocked <==> StillBlocked(s.others, k.blocked, k.budget)) &&
    k'.budget == k.budget - if k.blocked && !k'.blocked then 1 else 0
  }

  /** When an idle connection is taken, and what else happens to the site, when others do no more than let its block
      expire. */
  predicate Drawn(s: Script, w: Site, isConnect: bool, pooled: bool, k: Stock, k': Stock, kind: Option<ConnKind>) {
    s.others != Anything ==>
      var shared := !isConnect && !pooled && IsParent(s.shared);
      (pooled <==> !isConnect && s.idle && k.pooled > 0) && k'.pooled == k.pooled - (if pooled then 1 else 0) &&
      (shared ==> kind == s.shared) &&
      Undisturbed(s, k'.blocked, k'.budget, k.blocked, k.budget,
                  !pooled && !shared && FellBack(w, StillBlocked(s.others, k.blocked, k.budget), s, kind))
  }

  /** Nothing more will happen to the block. */
  predicate Calm(s: Script, blocked: bool, budget: nat) {
    s.others == Nothing || (s.others == Expiry && (blocked ==> budget == 0))
  }

  /** What is left of block and budget when others do no more than let the block expire. */
  predicate Undisturbed(s: Script, blocked': bool, budget': nat, blocked: bool, budget: nat, marked: bool) {
    (blocked' <==> StillBlocked(s.others, blocked, budget) || marked) &&
    budget' == budget - if s.others == Expiry && blocked && budget > 0 then 1 else 0
  }

  /** connectServer, with an error page when nothing can be reached. */
  method ConnectServer(c: Client, w: World, s: Script) returns (sv: ServerConn?)
    requires w.Valid() && After(c.trace) == Open
    modifies c`trace, w
    ensures sv != null ==> fresh(sv)
    ensures ConnectionOrPage(c, w, sv, s)
    ensures Reached(SiteOf(w), s, KindOfConn(sv))
    ensures Routed(SiteOf(w), old(w.tempBlocked), old(w.budget), s, KindOfConn(sv))
    ensures sv != null && sv.MaybeFake() ==> w.budget < old(w.Doubt())
    ensures IsDirect(sv) && w.kind == Own ==> !w.tempBlocked
    ensures s.others != Anything ==>
              w.pooledDirect == old(w.pooledDirect) &&
              Undisturbed(s, w.tempBlocked, w.budget, old(w.tempBlocked), old(w.budget),
                          FellBack(SiteOf(w), StillBlocked(s.others, old(w.tempBlocked), old(w.budget)), s, KindOfConn(sv)))
  {
    hide After;
    w.Interfere(s.others);
    sv := Dial(w, s);
    if sv == null { c.Emit(Page); }
  }

  /** The way that connectServer takes. */
  method Dial(w: World, s: Script) returns (sv: ServerConn?)
    requires w.Valid()
    modifies w
    ensures Settles(w)
    ensures sv != null ==> fresh(sv) && Paid(w, sv) && NewFor(sv, w, s)
    ensures Reached(SiteOf(w), s, KindOfConn(sv))
    ensures IsDirect(sv) ==> (w.kind == AlwaysDirect || w.budget < old(w.Doubt())) && !w.tempBlocked
    ensures Calm(s, old(w.tempBlocked), old(w.budget)) ==>
              KindOfConn(sv) == RouteOf(SiteOf(w), old(w.tempBlocked), s) &&
              (w.tempBlocked <==> old(w.tempBlocked) || FellBack(SiteOf(w), old(w.tempBlocked), s, KindOfConn(sv))) &&
              w.budget == old(w.budget) && w.pooledDirect == old(w.pooledDirect)
  {
    if w.alwaysProxy {
      sv := DialParent(s.parent, s);
    } else if w.AsBlocked(s.learnt) && !w.parentEmpty {
      sv := ParentFirst(w, s);
    } else {
      sv := DirectFirst(w, s);
    }
  }

  /** A site that counts as blocked: directly only when the parent fails and it is neither listed nor just blocked. */
  method ParentFirst(w: World, s: Script) returns (sv: ServerConn?)
    requires w.Valid() && !w.parentEmpty
    modifies w
    ensures Settles(w)
    ensures sv != null ==> fresh(sv) && Paid(w, sv) && NewFor(sv, w, s)
    ensures IsParent(s.parent) ==> KindOfConn(sv) == s.parent && !IsDirect(sv)
    ensures IsDirect(sv) ==> w.kind != AlwaysBlocked && s.direct
    ensures sv != null && !IsDirect(sv) ==> IsParent(s.parent) && s.parent == Some(sv.kind)
    ensures w.kind == AlwaysBlocked ==> (sv != null <==> IsParent(s.parent))
    ensures IsDirect(sv) ==> (w.kind == AlwaysDirect || w.budget < old(w.Doubt())) && !w.tempBlocked
    ensures Calm(s, old(w.tempBlocked), old(w.budget)) ==>
              (!IsParent(s.parent) ==> (sv != null <==> w.kind != AlwaysBlocked && !w.tempBlocked && s.direct)) &&
              w.tempBlocked == old(w.tempBlocked) && w.budget == old(w.budget) && w.pooledDirect == old(w.pooledDirect)
  {
    sv := DialParent(s.parent, s);
    if sv != null { return; }
    w.Interfere(s.others);
    if w.kind != AlwaysBlocked && !w.tempBlocked {
      sv := DialDirect(w, s);
    }
  }

  /** Any other site: a parent only when that fails, and then the site is taken for blocked. */
  method DirectFirst(w: World, s: Script) returns (sv: ServerConn?)
    requires w.Valid() && w.kind != AlwaysBlocked && !w.tempBlocked
    modifies w`tempBlocked
    ensures Settles(w)
    ensures sv != null ==> fresh(sv) && Paid(w, sv) && NewFor(sv, w, s)
    ensures s.direct ==> IsDirect(sv)
    ensures IsDirect(sv) ==> s.direct
    ensures sv != null && !IsDirect(sv) ==>
              IsParent(s.parent) && s.parent == Some(sv.kind) && w.kind != AlwaysDirect && w.tempBlocked
    ensures IsDirect(sv) ==> !w.tempBlocked
    ensures !s.direct ==> (sv != null <==> IsParent(s.parent) && !w.parentEmpty && w.kind != AlwaysDirect)
    ensures w.tempBlocked <==> sv != null && !IsDirect(sv)
    ensures w.budget == old(w.budget) && w.pooledDirect == old(w.pooledDirect)
  {
    sv := DialDirect(w, s);
    if sv != null { return; }
    if !w.parentEmpty && w.kind != AlwaysDirect {
      sv := DialParent(s.parent, s);
      if sv != null { w.TempBlocked(); }
    }
  }

  /** getServerConn; `pooled` tells that the connection is an idle direct one, which then leaves the pool. */
  method GetServerConn(c: Client, r: Request, w: World, s: Script) returns (sv: ServerConn?, pooled: bool)
    requires w.Valid() && After(c.trace) == Open
    modifies c`trace, w
    ensures sv != null ==> fresh(sv)
    ensures ConnectionOrPage(c, w, sv, s)
    ensures Got(SiteOf(w), s, r.isConnect, pooled, KindOfConn(sv)) && (pooled ==> w.Spare() < old(w.Spare()))
    ensures Drawn(s, SiteOf(w), r.isConnect, pooled, old(StockOf(w)), StockOf(w), KindOfConn(sv))
    ensures sv != null && sv.MaybeFake() && !pooled ==> w.budget < old(w.Doubt())
    ensures IsDirect(sv) && w.kind == Own && !pooled ==> !w.tempBlocked
    ensures !pooled && (r.isConnect || !IsParent(s.shared)) ==>
              Routed(SiteOf(w), old(w.tempBlocked), old(w.budget), s, KindOfConn(sv))
  {
    hide After, Routed, Undisturbed, StillBlocked, Reached, Fits, NewFor, Drawn, FellBack;
    hide World.Spare, World.Potential, World.Doubt, World.Valid;
    ghost var k := StockOf(w);
    w.Interfere(s.others);
    ghost var k' := StockOf(w);
    pooled := false;
    if !r.isConnect {
      sv := FromPool(w, s);
      if sv != null {
        pooled := sv.kind == Direct;
        Drew(s, SiteOf(w), r.isConnect, pooled, k, k', StockOf(w), KindOfConn(sv));
        return;
      }
    }
    sv := ConnectServer(c, w, s);
    Drew(s, SiteOf(w), r.isConnect, pooled, k, k', StockOf(w), KindOfConn(sv));
    RoutedStill(SiteOf(w), s, k, k', KindOfConn(sv));
  }

  /** connPool.Get: an idle direct connection to the site leaves the pool, or any other that can be shared. */
  method FromPool(w: World, s: Script) returns (sv: ServerConn?)
    requires w.Valid()
    modifies w`pooledDirect
    ensures w.Valid()
    ensures Settles(w) && w.Doubt() == old(w.Doubt()) && w.tempBlocked == old(w.tempBlocked)
    ensures sv != null ==> fresh(sv) && Paid(w, sv) && NewFor(sv, w, s)
    ensures IsDirect(sv) ==> w.Spare() < old(w.Spare())
    ensures if s.idle && old(w.pooledDirect) > 0 then IsDirect(sv) && w.pooledDirect == old(w.pooledDirect) - 1
            else !IsDirect(sv) && w.pooledDirect == old(w.pooledDirect) && (sv != null <==> IsParent(s.shared)) &&
                 (sv != null ==> s.shared == Some(sv.kind))
  {
    if s.idle && w.pooledDirect > 0 {
      w.pooledDirect := w.pooledDirect - 1;
      sv := new ServerConn(Direct, w.kind == AlwaysDirect, s);
      return;
    }
    sv := DialParent(s.shared, s);
  }

  /** A block that has had its chance to expire does not get another one. */
  lemma {:induction false} Drew(s: Script, w: Site, isConnect: bool, pooled: bool, k: Stock, k': Stock, k'': Stock,
                                kind: Option<ConnKind>)
    requires s.others != Anything ==> Rested(s, k, k')
    requires s.others != Anything ==> k''.pooled == k'.pooled - if pooled then 1 else 0
    requires var shared := !isConnect && !pooled && IsParent(s.shared);
             s.others != Anything ==>
               (shared ==> kind == s.shared) &&
               if pooled || shared then k'' == k'.(pooled := k''.pooled)
               else Undisturbed(s, k''.blocked, k''.budget, k'.blocked, k'.budget,
                                FellBack(w, StillBlocked(s.others, k'.blocked, k'.budget), s, kind))
    requires s.others != Anything ==> (pooled <==> !isConnect && s.idle && k'.pooled > 0)
    ensures Drawn(s, w, isConnect, pooled, k, k'', kind)
  {
    hide FellBack;
  }

  lemma {:induction false} RoutedStill(w: Site, s: Script, k: Stock, k': Stock, kind: Option<ConnKind>)
    requires s.others != Anything ==> Rested(s, k, k')
    requires Routed(w, k'.blocked, k'.budget, s, kind)
    ensures Routed(w, k.blocked, k.budget, s, kind)
  {
  }

  // ---------------------------------------------------------------- sending a request

  /** One write of the header; a failure is always a retry. */
  method WriteAll(sv: ServerConn, w: World, p: Bytes, s: Script) returns (err: Err)
    requires w.Valid() && Fits(sv, w)
    modifies sv`out, w`tempBlocked
    ensures Marked(w, err == Retry && sv.MaybeFake() && s.writeError == Some(ConnReset)) && sv.out == old(sv.out) + p
    ensures err == if |sv.out| <= sv.limit then Nil else Retry
  {
    var ok := sv.Write(p);
    if ok { return Nil; }
    err := HandleServerWriteError(sv, w, ErrorOf(s));
  }

  function ErrorOf(s: Script): (e: NetError) {
    match s.writeError case Some(e) => e case None => Other
  }

  /** sendRequestHeader: on a retry the buffered body goes out with the header. */
  method SendRequestHeader(r: Request, sv: ServerConn, w: World, s: Script) returns (err: Err)
    requires r.Valid() && r.raw.Some? && w.Valid() && Fits(sv, w) && sv.out == []
    modifies sv`out, w`tempBlocked
    ensures Marked(w, err == Retry && sv.MaybeFake() && s.writeError == Some(ConnReset))
    ensures err == if |r.Prologue(sv) + r.body| <= sv.limit then Nil else Retry
    ensures err == Nil ==> sv.out == r.Prologue(sv) + r.body
  {
    hide MaybeBlocked;
    if sv.ViaHttp() {
      err := SendHTTPProxyRequestHeader(r, sv, w, s);
    } else {
      r.HeldSplits();
      assert [] + (r.gen + r.fields + r.body) == r.gen + r.fields + r.body;
      err := WriteAll(sv, w, r.raw.value[|r.line|..], s);
    }
  }

  method SendHTTPProxyRequestHeader(r: Request, sv: ServerConn, w: World, s: Script) returns (err: Err)
    requires r.Valid() && r.raw.Some? && w.Valid() && Fits(sv, w) && sv.out == [] && sv.ViaHttp()
    modifies sv`out, w`tempBlocked
    ensures Marked(w, err == Retry && sv.MaybeFake() && s.writeError == Some(ConnReset))
    ensures err == if |r.Prologue(sv) + r.body| <= sv.limit then Nil else Retry
    ensures err == Nil ==> sv.out == r.Prologue(sv) + r.body
  {
    hide MaybeBlocked, Request.Valid;
    r.HeldSplits();
    var raw := r.raw.value;
    ThreeParts(r.line, if sv.kind == HttpParent then sv.authHeader else [], r.fields, r.body);
    err := WriteAll(sv, w, raw[..|r.line|], s);
    if err != Nil { return; }
    if sv.kind == HttpParent && sv.authHeader != [] {
      err := WriteAll(sv, w, sv.authHeader, s);
      if err != Nil { return; }
    }
    err := WriteAll(sv, w, raw[|r.line| + |r.gen|..], s);
  }

  lemma {:induction false} ThreeParts(line: Bytes, auth: Bytes, fields: Bytes, body: Bytes)
    ensures [] + line == line && (auth == [] ==> line + auth == line)
    ensures line + auth + (fields + body) == line + auth + fields + body
    ensures |line| <= |line + auth| <= |line + auth + fields + body|
  {
  }

  /** How reading the body ends as an error of the request. */
  function BodyError(res: Coding.Result): (err: Err) {
    match res
    case Done => Nil
    case Spins => Spins
    case _ => Failed
  }

  /** The body behind `before`: all of it when the connection accepts it, and otherwise a part; and what is left of
      the client's stream. */
  ghost predicate BodySent(plan: Coding.Relay, before: Bytes, out: Bytes, stream: Bytes, rest: Bytes, limit: nat) {
    before <= out &&
    if |before| + |plan.wire| <= limit then out == before + plan.wire && rest == plan.rest
    else Body.FailedPart(before, stream, plan, out, rest, limit, Body.HTTP_BUF_SIZE)
  }

  /** sendRequestBody: the client's body is read on a first try only. */
  method SendRequestBody(c: Client, r: Request, sv: ServerConn, w: World, s: Script) returns (err: Err)
    requires r.Valid() && r.raw.Some? && w.Valid() && Fits(sv, w) && c.reader.Valid() && |sv.out| <= sv.limit
    modifies c.reader, r`raw, r`partial, r`body, r`largest, sv`out, w`tempBlocked
    ensures Marked(w, err == Retry && sv.MaybeFake() && s.writeError == Some(ConnReset)) && r.Valid() && c.reader.Valid()
    ensures var plan := old(Planned(c, r));
            BodySent(plan, old(sv.out), sv.out, old(c.reader.Rest()), c.reader.Rest(), sv.limit) &&
            err == (if |old(sv.out)| + |plan.wire| <= sv.limit then BodyError(plan.result)
                    else if s.writeError.Some? then Retry else Failed)
    ensures r.body == old(r.body) + sv.out[|old(sv.out)|..]
    ensures r.IsRetry() ==> r.raw == old(r.raw) && r.body == old(r.body)
  {
    hide Body.FailedPart, Body.BodyRelay;
    if !r.HasBody() || r.IsRetry() {
      NothingMore(sv.out, r.body);
      return Nil;
    }
    var res := RelayBody(c, r, sv);
    if res != Coding.WriteFailed { return BodyError(res); }
    if s.writeError.Some? {
      err := HandleServerWriteError(sv, w, ErrorOf(s));
    } else {
      err := Failed;
    }
  }

  /** sendBody through serverWriter. */
  method RelayBody(c: Client, r: Request, sv: ServerConn) returns (res: Coding.Result)
    requires r.Valid() && r.raw.Some? && r.HasBody() && c.reader.Valid() && |sv.out| <= sv.limit
    modifies c.reader, r`raw, r`partial, r`body, r`largest, sv`out
    ensures r.Valid() && c.reader.Valid()
    ensures var plan := old(WholeBody(c, r));
            BodySent(plan, old(sv.out), sv.out, old(c.reader.Rest()), c.reader.Rest(), sv.limit) &&
            res == if |old(sv.out)| + |plan.wire| <= sv.limit then plan.result else Coding.WriteFailed
    ensures r.body == old(r.body) + sv.out[|old(sv.out)|..]
  {
    hide Body.FailedPart, Body.Kept, Body.BodyRelay, Body.Recorded;
    var bw := new Body.Writer(sv.out, r.plugin, sv.limit, r.raw, r.largest);
    res := Body.SendBody(bw, c.reader, if r.chunking then 0 else r.contLen, r.chunking);
    TakeOver(r, bw);
    sv.out := bw.sent;
  }

  lemma {:induction false} NothingMore(out: Bytes, body: Bytes)
    ensures out + [] == out && out[|out|..] == [] && body + [] == body
  {
  }

  /** The buffer as serverWriter left it. */
  method TakeOver(r: Request, bw: Body.Writer)
    requires r.Valid() && r.raw.Some? && bw.Valid() && bw.base == r.raw && bw.largestBefore == r.largest
    modifies r`raw, r`partial, r`body, r`largest
    ensures r.Valid() && r.body == old(r.body) + bw.sent[bw.start..]
  {
    ghost var handed := bw.sent[bw.start..];
    assert r.Head() + r.body + handed == r.Head() + (r.body + handed);
    r.raw, r.partial := bw.raw, r.partial || bw.givenUp;
    r.body, r.largest := r.body + handed, bw.largest;
  }

  /** What sending ends with: `before` is the header with the kept body. */
  function SendError(before: Bytes, plan: Coding.Relay, s: Script): (err: Err)
    ensures err != PageSent && err != Crash
  {
    if |before| > s.limit then Retry
    else if |before| + |plan.wire| <= s.limit then BodyError(plan.result)
    else if s.writeError.Some? then Retry else Failed
  }

  /** The bytes that a server has after sending, and what is left of the client's stream. */
  ghost predicate Delivered(before: Bytes, plan: Coding.Relay, out: Bytes, stream: Bytes, rest: Bytes, limit: nat) {
    if |before| > limit then rest == stream else BodySent(plan, before, out, stream, rest, limit)
  }

  /** The sending half of doRequest. */
  method SendRequest(c: Client, r: Request, sv: ServerConn, w: World, s: Script) returns (err: Err)
    requires r.Valid() && r.raw.Some? && w.Valid() && Fits(sv, w) && sv.out == [] && c.reader.Valid() && sv.limit == s.limit
    modifies c.reader, r`raw, r`partial, r`body, r`largest, sv`out, w`tempBlocked
    ensures Marked(w, err == Retry && sv.MaybeFake() && s.writeError == Some(ConnReset)) && r.Valid() && c.reader.Valid()
    ensures var before, plan := old(r.Prologue(sv) + r.body), old(Planned(c, r));
            err == SendError(before, plan, s) &&
            Delivered(before, plan, sv.out, old(c.reader.Rest()), c.reader.Rest(), s.limit) &&
            r.body == HeldBody(old(r.body), before, sv.out, s.limit)
    ensures r.IsRetry() ==> r.raw == old(r.raw) && r.body == old(r.body)
  {
    hide BodySent, BodyError;
    err := SendRequestHeader(r, sv, w, s);
    if err != Nil { return; }
    ghost var before := sv.out;
    err := SendRequestBody(c, r, sv, w, s);
    BodySentExtends(old(Planned(c, r)), before, sv.out, old(c.reader.Rest()), c.reader.Rest(), s.limit);
  }

  lemma {:induction false} BodySentExtends(plan: Coding.Relay, before: Bytes, out: Bytes, stream: Bytes, rest: Bytes,
                                           limit: nat)
    requires BodySent(plan, before, out, stream, rest, limit)
    ensures |before| <= |out|
  {
  }

  /** The body that the request holds after sending. */
  function HeldBody(body: Bytes, before: Bytes, sent: Bytes, limit: nat): (b: Bytes) {
    if |before| <= limit && |before| <= |sent| then body + sent[|before|..] else body
  }

  // ---------------------------------------------------------------- tunnels

  /** Response bytes have gone to the client exactly when the request says so. */
  ghost predicate InStep(c: Client, r: Request)
    reads c, r
  {
    (After(c.trace) == Open || After(c.trace) == Answering) && (r.ResponseNotSent() <==> After(c.trace) == Open)
  }

  /** The two copy loops of a tunnel. What the server sends first changes the state of the request and of the
      connection; what the client sends is kept for a retry, until a write fails. */
  method CopyBoth(c: Client, r: Request, sv: ServerConn, t: TunnelScript, writes: bool) returns (open: bool)
    requires r.Valid() && InStep(c, r) && (sv.state == Connected ==> r.ResponseNotSent())
    modifies c`trace, r`raw, r`partial, r`body, r`largest, r`state, sv`out, sv`state
    ensures r.Valid() && InStep(c, r) && (sv.state == Connected ==> r.ResponseNotSent())
    ensures sv.state == Connected <==> old(sv.state) == Connected && !ServerSpeaks(t)
    ensures sv.state == Connected ==> c.trace == old(c.trace) && r.state == old(r.state)
    ensures !old(r.ResponseNotSent()) ==> !r.ResponseNotSent()
    ensures Extends(old(sv.out), sv.out)
    ensures var bytes := ClientBytes(t.steps);
            writes && |old(sv.out)| + |bytes| <= sv.limit ==>
              open && sv.out == old(sv.out) + bytes && r.body == old(r.body) + bytes
    ensures c.Attempts() == old(c.Attempts()) && c.Lines() == old(c.Lines())
  {
    hide After, Next, Extends, ClientBytes;
    ghost var o0, b0 := sv.out, r.body;
    ExtendsSelf(o0);
    NothingMore(o0, b0);
    NoStepYet(t.steps);
    open := writes;
    for i := 0 to |t.steps|
      invariant r.Valid() && InStep(c, r) && (sv.state == Connected ==> r.ResponseNotSent())
      invariant sv.state == Connected <==> old(sv.state) == Connected && forall k :: 0 <= k < i ==> !t.steps[k].FromServer?
      invariant sv.state == Connected ==> c.trace == old(c.trace) && r.state == old(r.state)
      invariant !old(r.ResponseNotSent()) ==> !r.ResponseNotSent()
      invariant Extends(o0, sv.out)
      invariant open ==> sv.out == o0 + ClientBytes(t.steps[..i]) && r.body == b0 + ClientBytes(t.steps[..i])
      invariant writes && !open ==> |o0| + |ClientBytes(t.steps)| > sv.limit
      invariant c.Attempts() == old(c.Attempts()) && c.Lines() == old(c.Lines())
    {
      OneMoreStep(t.steps, i, o0, b0);
      match t.steps[i]
      case FromClient(p) =>
        if open {
          ghost var o := sv.out;
          open := ServerWrite(r, sv, p);
          ExtendsTrans(o0, o, sv.out);
        }
      case FromServer =>
        Speak(c, r, sv);
    }
    assert t.steps[..|t.steps|] == t.steps;
  }

  lemma {:induction false} NoStepYet(steps: seq<TunnelStep>)
    ensures ClientBytes(steps[..0]) == []
  {
  }

  lemma {:induction false} OneMoreStep(steps: seq<TunnelStep>, i: nat, out: Bytes, body: Bytes)
    requires i < |steps|
    ensures var p := if steps[i].FromClient? then steps[i].p else [];
            out + ClientBytes(steps[..i]) + p == out + ClientBytes(steps[..i + 1]) &&
            body + ClientBytes(steps[..i]) + p == body + ClientBytes(steps[..i + 1]) &&
            ClientBytes(steps[..i + 1]) == ClientBytes(steps[..i]) + p
    ensures |ClientBytes(steps[..i + 1])| <= |ClientBytes(steps)|
  {
    assert steps[..i + 1][..i] == steps[..i];
    assert ClientBytes(steps[..i]) + [] == ClientBytes(steps[..i]);
    ClientBytesGrow(steps, i + 1);
  }

  /** The server's bytes go to the client. */
  method Speak(c: Client, r: Request, sv: ServerConn)
    requires r.Valid() && InStep(c, r)
    modifies c`trace, r`state, sv`state
    ensures r.Valid() && InStep(c, r) && !r.ResponseNotSent() && sv.state != Connected
    ensures c.Attempts() == old(c.Attempts()) && c.Lines() == old(c.Lines())
  {
    hide After, Next;
    Answers(After(c.trace));
    c.Emit(Answer);
    r.state := RecvBody;
    sv.state := SendRecvResponse;
  }

  /** What the client still sends while it has not been told. */
  method CopyLate(r: Request, sv: ServerConn, late: seq<Bytes>)
    requires r.Valid()
    modifies r`raw, r`partial, r`body, r`largest, sv`out
    ensures r.Valid() && Extends(old(sv.out), sv.out)
    ensures |old(sv.out)| + |Concat(late)| <= sv.limit ==>
              sv.out == old(sv.out) + Concat(late) && r.body == old(r.body) + Concat(late)
    ensures old(r.raw).None? ==> r.raw.None?
  {
    hide Extends;
    ghost var o0, b0 := sv.out, r.body;
    ExtendsSelf(o0);
    NothingMore(o0, b0);
    for i := 0 to |late|
      invariant r.Valid() && Extends(o0, sv.out)
      invariant sv.out == o0 + Concat(late[..i]) && r.body == b0 + Concat(late[..i])
      invariant old(r.raw).None? ==> r.raw.None?
    {
      ghost var o := sv.out;
      OneMorePiece(late, i, o0, b0);
      var ok := ServerWrite(r, sv, late[i]);
      ExtendsTrans(o0, o, sv.out);
      if !ok { return; }
    }
    assert late[..|late|] == late;
  }

  lemma {:induction false} OneMorePiece(pieces: seq<Bytes>, i: nat, out: Bytes, body: Bytes)
    requires i < |pieces|
    ensures out + Concat(pieces[..i]) + pieces[i] == out + Concat(pieces[..i + 1])
    ensures body + Concat(pieces[..i]) + pieces[i] == body + Concat(pieces[..i + 1])
    ensures |Concat(pieces[..i + 1])| <= |Concat(pieces)|
  {
    assert pieces[..i + 1][..i] == pieces[..i];
    ConcatGrows(pieces, i + 1);
  }

  /** The tunnel behind doConnect's header, or behind a WebSocket upgrade. On a retry the kept bytes go first; without
      a buffer that dereferences nil. */
  method Tunnel(c: Client, r: Request, sv: ServerConn, w: World, t: TunnelScript) returns (err: Err)
    requires r.Valid() && w.Valid() && Fits(sv, w)
    requires InStep(c, r) && (sv.state == Connected ==> r.ResponseNotSent())
    modifies c`trace, r`raw, r`partial, r`body, r`largest, r`state, sv`out, sv`state, w`tempBlocked
    ensures Marked(w, err == Retry) && r.Valid()
    ensures err == TunnelError(r.IsRetry() && old(r.raw).None?, old(sv.MaybeFake()) && MaybeBlocked(w.parentEmpty, t.end), t)
    ensures err == Retry ==> w.tempBlocked && sv.MaybeFake() && c.trace == old(c.trace) && r.ResponseNotSent()
    ensures After(c.trace) == Open || After(c.trace) == Answering
    ensures old(After(c.trace)) == Answering ==> After(c.trace) == Answering
    ensures var opening := old(sv.out) + if r.IsRetry() && old(r.raw).Some? then old(r.body) else [];
            var bytes := NewBytes(t, err == Retry);
            Extends(opening, sv.out) &&
            (err != Crash && |opening| + |bytes| <= sv.limit ==> sv.out == opening + bytes && r.body == old(r.body) + bytes)
    ensures c.Attempts() == old(c.Attempts()) && c.Lines() == old(c.Lines())
  {
    hide After, Next, Extends, ServerSpeaks, ClientBytes, Concat;
    assert sv.out + [] == sv.out;
    ExtendsSelf(sv.out);
    var open := true;
    if r.IsRetry() {
      if r.raw.None? { return Crash; }
      open := Replay(r, sv);
    }
    ghost var o1, b1 := sv.out, r.body;
    open := CopyBoth(c, r, sv, t, open);
    ghost var o2 := sv.out;
    if sv.MaybeFake() && MaybeBlocked(w.parentEmpty, t.end) {
      w.TempBlocked();
      BytesInTwo(o1, b1, t);
      if open { CopyLate(r, sv, t.late); } else { ExtendsSelf(o2); }
      ExtendsTrans(o1, o2, sv.out);
      err := Retry;
    } else {
      NothingMore(ClientBytes(t.steps), ClientBytes(t.steps));
      err := Failed;
    }
  }

  lemma {:induction false} BytesInTwo(out: Bytes, body: Bytes, t: TunnelScript)
    ensures out + ClientBytes(t.steps) + Concat(t.late) == out + NewBytes(t, true)
    ensures body + ClientBytes(t.steps) + Concat(t.late) == body + NewBytes(t, true)
    ensures |NewBytes(t, true)| == |ClientBytes(t.steps)| + |Concat(t.late)|
  {
  }

  /** A retry starts with the bytes that were kept. */
  method Replay(r: Request, sv: ServerConn) returns (ok: bool)
    requires r.Valid() && r.raw.Some?
    modifies sv`out
    ensures sv.out == old(sv.out) + r.body && (ok <==> |sv.out| <= sv.limit)
  {
    r.HeldSplits();
    ok := sv.Write(r.raw.value[|r.Head()|..]);
  }

  /** `lost`: a retry without its buffer; `blocked`: the connection may be fake and the error looks like a block. */
  function TunnelError(lost: bool, blocked: bool, t: TunnelScript): (err: Err)
    ensures err == Retry || err == Failed || (lost && err == Crash)
  {
    if lost then Crash else if blocked && !ServerSpeaks(t) then Retry else Failed
  }

  // ---------------------------------------------------------------- reading a response

  class Ledger {
    var begun: nat
    var settled: nat

    constructor ()
      ensures begun == settled == 0
    {
      begun, settled := 0, 0;
    }
  }

  /** Every admitted exchange was handed over or discarded, or is the one that the request holds. */
  ghost predicate Balanced(l: Ledger, r: Request)
    reads l, r
  {
    l.begun == l.settled + if r.plugin then 1 else 0
  }

  method Settle(l: Ledger, r: Request)
    requires Balanced(l, r)
    modifies l`settled, r`plugin
    ensures Balanced(l, r) && !r.plugin
  {
    if r.plugin { l.settled, r.plugin := l.settled + 1, false; }
  }

  /** What an answer comes to: `mayRetry` tells that an error may be a block. */
  function AnswerError(a: Answer, mayRetry: bool, webSocket: bool, isRetry: bool): (err: Err) {
    match a
    case NoAnswer(e) => if e == EOF || mayRetry then Retry else PageSent
    case Answered(_, headerWritten, switching, body) =>
      if !headerWritten then Failed
      else if switching && webSocket then if isRetry then Crash else Failed
      else
        match body
        case Complete => Nil
        case Cut(_, _) => Failed
        case Endless => Spins
  }

  /** Whether the exchange still holds its slot after an answer. */
  predicate AnswerSlot(a: Answer, slot: bool, err: Err) {
    slot && (a.NoAnswer? || (!a.tooLarge && err != Nil))
  }

  predicate LooksBlocked(parentEmpty: bool, a: Answer) {
    a.NoAnswer? && MaybeBlocked(parentEmpty, a.e)
  }

  /** readResponse. A WebSocket upgrade on a retry crashes: the buffer has been released when the tunnel asks for it. */
  method ReadResponse(c: Client, r: Request, sv: ServerConn, w: World, l: Ledger, s: Script) returns (err: Err)
    requires r.Valid() && w.Valid() && Fits(sv, w) && Balanced(l, r) && After(c.trace) == Open && r.state == Sent
    modifies c`trace, r`raw, r`partial, r`body, r`largest, r`state, r`plugin, sv`out, sv`state,
             w`tempBlocked, l`settled
    ensures Marked(w, err == Retry && s.answer != NoAnswer(EOF)) && r.Valid() && Balanced(l, r)
    ensures err == AnswerError(s.answer, old(sv.MaybeFake()) && LooksBlocked(w.parentEmpty, s.answer), r.webSocket, r.IsRetry())
    ensures s.answer.NoAnswer? ==> r.raw == old(r.raw) && r.body == old(r.body) && r.state == Sent && sv.out == old(sv.out)
    ensures err == Retry ==> c.trace == old(c.trace) && sv.state == old(sv.state)
    ensures err == PageSent ==> After(c.trace) == Paged
    ensures s.answer.Answered? ==> After(c.trace) == Answering
    ensures r.plugin == AnswerSlot(s.answer, old(r.plugin), err)
    ensures err == Nil ==> r.state == Done && !r.plugin
    ensures Extends(old(sv.out), sv.out)
    ensures c.Attempts() == old(c.Attempts()) && c.Lines() == old(c.Lines())
  {
    hide After, Next, Extends;
    ExtendsSelf(sv.out);
    if s.answer.NoAnswer? {
      err := HandleServerReadError(c, r, sv, w, s.answer.e);
      return;
    }
    err := Forward(c, r, sv, w, l, s);
  }

  /** A response goes to the client, and its exchange to the plugin. */
  method Forward(c: Client, r: Request, sv: ServerConn, w: World, l: Ledger, s: Script) returns (err: Err)
    requires r.Valid() && w.Valid() && Fits(sv, w) && Balanced(l, r) && After(c.trace) == Open && s.answer.Answered?
    modifies c`trace, r`raw, r`partial, r`body, r`largest, r`state, r`plugin, sv`out, sv`state,
             w`tempBlocked, l`settled
    ensures Marked(w, false) && r.Valid() && Balanced(l, r) && After(c.trace) == Answering
    ensures err == AnswerError(s.answer, false, r.webSocket, r.IsRetry())
    ensures err == Nil ==> r.state == Done && !r.plugin
    ensures r.plugin == AnswerSlot(s.answer, old(r.plugin), err)
    ensures Extends(old(sv.out), sv.out)
    ensures c.Attempts() == old(c.Attempts()) && c.Lines() == old(c.Lines())
  {
    hide After, Next, Extends, AnswerError;
    if s.answer.tooLarge { Settle(l, r); }
    BeginAnswer(c, r, sv);
    err := ForwardBody(c, r, sv, w, s);
    if err == Nil { Settle(l, r); }
  }

  /** The header goes to the client: from here on there is no way back. */
  method BeginAnswer(c: Client, r: Request, sv: ServerConn)
    requires r.Valid() && After(c.trace) == Open
    modifies c`trace, r`raw, r`state, sv`state
    ensures r.Valid() && r.state == RecvBody && r.raw.None? && sv.state == SendRecvResponse
    ensures After(c.trace) == Answering
    ensures c.Attempts() == old(c.Attempts()) && c.Lines() == old(c.Lines())
  {
    hide After;
    sv.state := SendRecvResponse;
    r.state := RecvBody;
    r.raw := None;
    c.Emit(Answer);
  }

  /** The rest of readResponse, once the header is on its way to the client. */
  method ForwardBody(c: Client, r: Request, sv: ServerConn, w: World, s: Script) returns (err: Err)
    requires r.Valid() && w.Valid() && Fits(sv, w) && After(c.trace) == Answering && s.answer.Answered?
    requires r.state == RecvBody && sv.state == SendRecvResponse && r.raw.None?
    modifies c`trace, r`raw, r`partial, r`body, r`largest, r`state, sv`out, sv`state, w`tempBlocked
    ensures Marked(w, false) && r.Valid() && After(c.trace) == Answering
    ensures err == AnswerError(s.answer, false, r.webSocket, r.IsRetry())
    ensures err == Nil ==> r.state == Done
    ensures Extends(old(sv.out), sv.out)
    ensures c.Attempts() == old(c.Attempts()) && c.Lines() == old(c.Lines())
  {
    hide After, Next, Extends;
    ExtendsSelf(sv.out);
    var a := s.answer;
    if !a.headerWritten { return Failed; }
    if a.switching && r.webSocket {
      assert sv.out + [] == sv.out;
      err := Tunnel(c, r, sv, w, s.tunnel);
      return;
    }
    if a.body.Endless? { return Spins; }
    if a.body.Cut? {
      if a.body.e != EOF && a.body.opRead {
        err := HandleServerReadError(c, r, sv, w, a.body.e);
      } else {
        err := Failed;
      }
      return;
    }
    r.state := Done;
    err := Nil;
  }

  // ---------------------------------------------------------------- one attempt

  /** A first try asks the plugin for a slot. */
  method Begin(l: Ledger, r: Request, admitted: bool)
    requires r.Valid() && r.raw.Some? && Balanced(l, r)
    modifies l`begun, r`plugin, r`state
    ensures r.Valid() && Balanced(l, r) && r.state == Created
    ensures r.plugin <==> old(r.plugin) || (!r.IsRetry() && admitted)
  {
    if !r.IsRetry() && !r.plugin && admitted {
      l.begun, r.plugin := l.begun + 1, true;
    }
    r.state := Created;
  }

  method MarkSent(r: Request)
    requires r.Valid() && r.state == Created
    modifies r`state
    ensures r.Valid() && r.state == Sent
  {
    r.state := Sent;
  }

  /** How doRequest ends: `before` is the header with the kept body, `plan` what there is to read of the body. */
  function RequestError(before: Bytes, plan: Coding.Relay, s: Script, mayRetry: bool, webSocket: bool,
                        isRetry: bool): (err: Err) {
    var e := SendError(before, plan, s);
    if e != Nil then e else AnswerError(s.answer, mayRetry, webSocket, isRetry)
  }

  /** Whether the exchange holds a slot at the end of doRequest: a first try may have got one. */
  predicate SlotAfter(slot: bool, isRetry: bool, sendError: Err, s: Script, err: Err) {
    var asked := slot || (!isRetry && s.admitted);
    if sendError != Nil then asked else AnswerSlot(s.answer, asked, err)
  }

  /** Whether a retry error goes with a block of the site. */
  predicate RetryMarks(sendError: Err, fake: bool, s: Script) {
    if sendError != Nil then fake && s.writeError == Some(ConnReset) else s.answer != NoAnswer(EOF)
  }

  /** What sending decides, and what it leaves to the answer. */
  lemma {:induction false} SendingEnds(before: Bytes, plan: Coding.Relay, s: Script, mayRetry: bool, webSocket: bool,
                                       isRetry: bool, slot: bool, fake: bool)
    ensures var e := SendError(before, plan, s);
            var end := AnswerError(s.answer, mayRetry, webSocket, isRetry);
            var asked := slot || (!isRetry && s.admitted);
            RequestError(before, plan, s, mayRetry, webSocket, isRetry) == (if e != Nil then e else end) &&
            (e != Nil ==> SlotAfter(slot, isRetry, e, s, e) == asked) &&
            (e == Nil ==> SlotAfter(slot, isRetry, e, s, end) == AnswerSlot(s.answer, asked, end)) &&
            RetryMarks(e, fake, s) == if e != Nil then fake && s.writeError == Some(ConnReset) else s.answer != NoAnswer(EOF)
  {
  }

  /** doRequest: `sent` is what was handed to the server when sending ended. */
  method DoRequest(c: Client, r: Request, sv: ServerConn, w: World, l: Ledger, s: Script,
                   ghost before: Bytes, ghost plan: Coding.Relay) returns (err: Err, ghost sent: Bytes)
    requires r.Valid() && r.raw.Some? && r.ResponseNotSent() && w.Valid() && Fits(sv, w) && sv.out == [] && sv.limit == s.limit
    requires Balanced(l, r) && After(c.trace) == Open && c.reader.Valid()
    requires before == r.Prologue(sv) + r.body && plan == Planned(c, r)
    modifies c`trace, c.reader, r`raw, r`partial, r`body, r`largest, r`state, r`plugin,
             sv`out, sv`state, w`tempBlocked, l
    ensures Marked(w, err == Retry && RetryMarks(SendError(before, plan, s), old(sv.MaybeFake()), s)) && r.Valid() &&
            Balanced(l, r) && c.reader.Valid()
    ensures Delivered(before, plan, sent, old(c.reader.Rest()), c.reader.Rest(), s.limit) && Extends(sent, sv.out) &&
            err == RequestError(before, plan, s, old(sv.MaybeFake()) && LooksBlocked(w.parentEmpty, s.answer), r.webSocket,
                                r.IsRetry()) &&
            r.plugin == SlotAfter(old(r.plugin), r.IsRetry(), SendError(before, plan, s), s, err) &&
            (err == Retry ==> r.body == HeldBody(old(r.body), before, sent, s.limit))
    ensures err == Retry ==> c.trace == old(c.trace) && r.ResponseNotSent() && sv.state == old(sv.state)
    ensures err == PageSent ==> After(c.trace) == Paged && r.state == Sent
    ensures After(c.trace) == Open || After(c.trace) == Answering || After(c.trace) == Paged
    ensures err == Nil ==> After(c.trace) == Answering
    ensures r.IsRetry() && err == Retry ==> r.body == old(r.body) && r.raw == old(r.raw)
    ensures c.Attempts() == old(c.Attempts()) && c.Lines() == old(c.Lines())
  {
    hide After, Next, Extends, Delivered, SendError, AnswerError, HeldBody, Later;
    hide RequestError, SlotAfter, RetryMarks, LooksBlocked, AnswerSlot, Planned, Request.Prologue, Request.Valid, Balanced,
        Count;
    ghost var k, slot, fake := StockOf(w), r.plugin, sv.MaybeFake();
    ghost var mayRetry := fake && LooksBlocked(w.parentEmpty, s.answer);
    SendingEnds(before, plan, s, mayRetry, r.webSocket, r.IsRetry(), slot, fake);
    err := SendFirst(c, r, sv, w, l, s, before, plan);
    sent := sv.out;
    ExtendsSelf(sent);
    if err != Nil { return; }
    ghost var k' := StockOf(w);
    err := Receive(c, r, sv, w, l, s);
    LaterStill(k, k', StockOf(w), err == Retry && s.answer != NoAnswer(EOF));
  }

  /** The first half of doRequest. */
  method SendFirst(c: Client, r: Request, sv: ServerConn, w: World, l: Ledger, s: Script,
                   ghost before: Bytes, ghost plan: Coding.Relay) returns (err: Err)
    requires r.Valid() && r.raw.Some? && w.Valid() && Fits(sv, w) && sv.out == [] && sv.limit == s.limit
    requires Balanced(l, r) && c.reader.Valid()
    requires before == r.Prologue(sv) + r.body && plan == Planned(c, r)
    modifies c.reader, r`raw, r`partial, r`body, r`largest, r`state, r`plugin, sv`out, w`tempBlocked, l`begun
    ensures Marked(w, err == Retry && sv.MaybeFake() && s.writeError == Some(ConnReset)) && r.Valid() && Balanced(l, r) &&
            c.reader.Valid() && r.state == Created
    ensures err == SendError(before, plan, s) &&
            Delivered(before, plan, sv.out, old(c.reader.Rest()), c.reader.Rest(), s.limit) &&
            r.body == HeldBody(old(r.body), before, sv.out, s.limit)
    ensures r.IsRetry() ==> r.raw == old(r.raw) && r.body == old(r.body)
    ensures r.plugin <==> old(r.plugin) || (!r.IsRetry() && s.admitted)
  {
    hide Delivered, SendError, HeldBody;
    Begin(l, r, s.admitted);
    err := SendRequest(c, r, sv, w, s);
  }

  /** The second half. */
  method Receive(c: Client, r: Request, sv: ServerConn, w: World, l: Ledger, s: Script) returns (err: Err)
    requires r.Valid() && w.Valid() && Fits(sv, w) && Balanced(l, r) && After(c.trace) == Open && r.state == Created
    modifies c`trace, r`raw, r`partial, r`body, r`largest, r`state, r`plugin, sv`out, sv`state,
             w`tempBlocked, l`settled
    ensures Marked(w, err == Retry && s.answer != NoAnswer(EOF)) && r.Valid() && Balanced(l, r)
    ensures err == AnswerError(s.answer, old(sv.MaybeFake()) && LooksBlocked(w.parentEmpty, s.answer), r.webSocket, r.IsRetry())
    ensures err == Retry ==>
              c.trace == old(c.trace) && r.ResponseNotSent() && r.raw == old(r.raw) && r.body == old(r.body) &&
              sv.state == old(sv.state)
    ensures r.plugin == AnswerSlot(s.answer, old(r.plugin), err)
    ensures err == PageSent ==> After(c.trace) == Paged && r.state == Sent
    ensures err != Retry && err != PageSent ==> After(c.trace) == Answering
    ensures Extends(old(sv.out), sv.out)
    ensures c.Attempts() == old(c.Attempts()) && c.Lines() == old(c.Lines())
  {
    hide After, Next, Extends;
    MarkSent(r);
    err := ReadResponse(c, r, sv, w, l, s);
  }

  /** What doConnect sends before anything new: an HTTP or cow parent gets the header with the kept bytes, and on a retry
      the tunnel begins with the kept bytes. */
  function ConnectOpening(viaHttp: bool, prologue: Bytes, body: Bytes, isRetry: bool): (b: Bytes) {
    (if viaHttp then prologue + body else []) + if isRetry then body else []
  }

  /** The kept bytes go out twice exactly on a retry through such a parent. */
  lemma {:induction false} SentTwice(viaHttp: bool, prologue: Bytes, body: Bytes, isRetry: bool)
    requires body != []
    ensures ConnectOpening(viaHttp, prologue, body, isRetry) == prologue + body + body <==> viaHttp && isRetry
  {
    var b := ConnectOpening(viaHttp, prologue, body, isRetry);
    assert |b| == (if viaHttp then |prologue| + |body| else 0) + if isRetry then |body| else 0;
  }

  function ConnectError(viaHttp: bool, before: Bytes, s: Script, isRetry: bool, mayRetry: bool): (err: Err)
    ensures err == Retry || err == Failed
  {
    if viaHttp && |before| > s.limit then Retry
    else if !viaHttp && !isRetry && !s.tunnel.established then Failed
    else TunnelError(false, mayRetry, s.tunnel)
  }

  /** doConnect */
  method DoConnect(c: Client, r: Request, sv: ServerConn, w: World, s: Script) returns (err: Err)
    requires r.Valid() && r.raw.Some? && r.ResponseNotSent() && w.Valid() && Fits(sv, w) && sv.out == [] && sv.limit == s.limit
    requires sv.state == Connected && After(c.trace) == Open
    modifies c`trace, r`raw, r`partial, r`body, r`largest, r`state, sv`out, sv`state, w`tempBlocked
    ensures Marked(w, err == Retry && old(sv.MaybeFake())) && r.Valid()
    ensures var before := old(r.Prologue(sv) + r.body);
            err == ConnectError(sv.ViaHttp(), before, s, r.IsRetry(),
                                old(sv.MaybeFake()) && MaybeBlocked(w.parentEmpty, s.tunnel.end))
    ensures if (sv.ViaHttp() && |old(r.Prologue(sv) + r.body)| > s.limit) ||
               (!sv.ViaHttp() && !r.IsRetry() && !s.tunnel.established) then r.body == old(r.body)
            else
              var opening := ConnectOpening(sv.ViaHttp(), old(r.Prologue(sv)), old(r.body), r.IsRetry());
              var bytes := NewBytes(s.tunnel, err == Retry);
              Extends(opening, sv.out) &&
              (|opening| + |bytes| <= s.limit ==> sv.out == opening + bytes && r.body == old(r.body) + bytes)
    ensures err == Retry ==> After(c.trace) == Open && r.ResponseNotSent() && sv.state == Connected
    ensures err == Retry && !sv.ViaHttp() ==> w.tempBlocked && sv.kind == Direct
    ensures After(c.trace) == Open || After(c.trace) == Answering
    ensures c.Attempts() == old(c.Attempts())
    ensures c.Lines() == old(c.Lines()) + if r.IsRetry() || sv.ViaHttp() then 0 else 1
  {
    hide After, Extends, ServerSpeaks, NewBytes, TunnelError;
    r.state := Created;
    if sv.ViaHttp() {
      err := SendRequestHeader(r, sv, w, s);
      if err != Nil { return; }
    } else if !r.IsRetry() {
      c.Emit(Established);
      if !s.tunnel.established { return Failed; }
    }
    err := Tunnel(c, r, sv, w, s.tunnel);
  }

  /** shouldRetry: another attempt is made exactly when this is a retry error before any response, with the buffer held,
      at one of the first tries or over a connection that may be fake. Its panic cannot happen: a request whose buffer
      is gone is partial or has been answered. */
  method ShouldRetry(c: Client, r: Request, sv: ServerConn, w: World, err: Err) returns (again: bool)
    requires r.Valid() && w.Valid() && Fits(sv, w)
    requires err == Retry ==> After(c.trace) == Open
    modifies c`trace, r`tryCnt, w`tempBlocked
    ensures Marked(w, again && old(r.tryCnt) == MAX_TRIES) && r.Valid()
    ensures again <==> err == Retry && r.ResponseNotSent() && r.raw.Some? && (old(r.tryCnt) < MAX_TRIES || sv.MaybeFake())
    ensures again && old(r.tryCnt) == MAX_TRIES ==> w.tempBlocked
    ensures r.tryCnt == if again && old(r.tryCnt) == MAX_TRIES then 0 else old(r.tryCnt)
    ensures c.trace == if err == Retry && r.ResponseNotSent() && !again then old(c.trace) + [Page] else old(c.trace)
    ensures err == Retry && r.ResponseNotSent() && !again ==> After(c.trace) == Paged
    ensures c.Attempts() == old(c.Attempts()) && c.Lines() == old(c.Lines())
  {
    hide After;
    if err != Retry || !r.ResponseNotSent() { return false; }
    if r.partial {
      c.Emit(Page);
      return false;
    } else if r.raw.None? {
      assert false;
    }
    if r.tryCnt > 3 {
      if sv.MaybeFake() {
        w.TempBlocked();
        r.tryCnt := 0;
        return true;
      }
      c.Emit(Page);
      return false;
    }
    return true;
  }

  // ---------------------------------------------------------------- the loop

  /** What serve does next: try again, read the next request, close the connection; or the process is gone, or this
      goroutine never comes back. */
  datatype Verdict = TryAgain | NextRequest | Close | Crashed | Hangs

  /** One attempt as a server saw it: the kind of connection if there was one, what has to come before the body, what
      was handed over when sending ended, and in all. */
  datatype Record = Record(kind: Option<ConnKind>, prologue: Bytes, sent: Bytes, out: Bytes)

  predicate OverHttp(kind: ConnKind) {
    kind == HttpParent || kind == CowParent
  }

  /** What serve makes of the end of an attempt: `held` tells that the buffer is there, `again` that there is a try left
      or that the counter may be reset. */
  function VerdictOf(e: Err, s: Script, held: bool, again: bool): (v: Verdict) {
    match e
    case Nil => if s.keepAlive then NextRequest else Close
    case Retry => if held && again then TryAgain else Close
    case PageSent => NextRequest
    case Failed => Close
    case Crash => Crashed
    case Spins => Hangs
  }

  /** What an attempt starts from: the request, its site and the state of that, the kept body, the client's stream, the
      number of the try, and whether the exchange has a slot. */
  datatype Situation = Situation(q: Facts, feed: Feed, site: Site, stock: Stock, body: Bytes, stream: Bytes, tries: nat,
                                 slot: bool) {
    predicate IsRetry() {
      tries > 1
    }

    function Whole(): Coding.Relay {
      BodyOf(q, feed, stream)
    }

    function Plan(): Coding.Relay {
      if IsRetry() then Coding.Relay([], stream, Coding.Done) else Whole()
    }
  }

  /** One attempt: what it started from, what the server saw, the verdict, and what it left: the body in the request and
      whether the buffer still holds it, the client's stream, the slot, and the state of the site, which was `was` when the
      connection had been made. */
  datatype Turn = Turn(x: Situation, rec: Record, v: Verdict, body: Bytes, held: bool, rest: Bytes, slot: bool,
                       was: Stock, stock: Stock) {
    function Before(): Bytes {
      rec.prologue + x.body
    }

    predicate MaybeFake() {
      rec.kind == Some(Direct) && x.site.kind == Own
    }

    predicate Again() {
      x.tries < MAX_TRIES || MaybeFake()
    }

    function SendEnd(s: Script): Err {
      SendError(Before(), x.Plan(), s)
    }

    function RequestEnd(s: Script): Err {
      RequestError(Before(), x.Plan(), s, MaybeFake() && LooksBlocked(x.site.parentEmpty, s.answer), x.q.webSocket, x.IsRetry())
    }

    function ConnectEnd(s: Script): Err
      requires rec.kind.Some?
    {
      ConnectError(OverHttp(rec.kind.value), Before(), s, x.IsRetry(), MaybeFake() &&
          MaybeBlocked(x.site.parentEmpty, s.tunnel.end))
    }

    /** Whether a retry error goes with a block of the site. */
    predicate Suspected(s: Script) {
      RetryMarks(SendEnd(s), MaybeFake(), s)
    }

    /** Whether the attempt blocks its site. */
    predicate Marks(s: Script)
      requires rec.kind.Some?
    {
      (x.q.isConnect && ConnectEnd(s) == Retry && MaybeFake()) ||
      (!x.q.isConnect && RequestEnd(s) == Retry && Suspected(s)) ||
      (v == TryAgain && x.tries == MAX_TRIES)
    }

    /** The body that is kept when sending has ended. */
    function Kept(s: Script): Bytes {
      HeldBody(x.body, Before(), rec.sent, s.limit)
    }
  }

  ghost function SituationOf(c: Client, r: Request, w: World, tries: nat): (x: Situation)
    requires c.reader.Valid()
    reads c.reader, r, w
  {
    Situation(FactsOf(r), FeedOf(c), SiteOf(w), StockOf(w), r.body, c.reader.Rest(), tries, r.plugin)
  }

  /** What a server was sent of a CONNECT: the opening, and then what the client sends if all of it is accepted. */
  ghost predicate ConnectSent(t: Turn, s: Script)
    requires t.rec.kind.Some?
  {
    var viaHttp := OverHttp(t.rec.kind.value);
    if (viaHttp && |t.Before()| > s.limit) || (!viaHttp && !t.x.IsRetry() && !s.tunnel.established) then t.body == t.x.body
    else
      var opening := ConnectOpening(viaHttp, t.rec.prologue, t.x.body, t.x.IsRetry());
      var bytes := NewBytes(s.tunnel, t.ConnectEnd(s) == Retry);
      Extends(opening, t.rec.out) &&
      (|opening| + |bytes| <= s.limit ==> t.rec.out == opening + bytes && t.body == t.x.body + bytes)
  }

  /** What became of a request over a connection. */
  ghost predicate Exchanged(t: Turn, s: Script) {
    Delivered(t.Before(), t.x.Plan(), t.rec.sent, t.x.stream, t.rest, s.limit) && Extends(t.rec.sent, t.rec.out) &&
    t.slot == SlotAfter(t.x.slot, t.x.IsRetry(), t.SendEnd(s), s, t.RequestEnd(s)) &&
    (t.RequestEnd(s) == Retry ==> t.body == t.Kept(s) && (t.x.IsRetry() ==> t.body == t.x.body))
  }

  /** Without a connection a page is sent; the body is skipped. */
  ghost predicate Skipped(t: Turn) {
    t.slot == t.x.slot && t.body == t.x.body &&
    if t.x.q.isConnect then t.v == Close && t.rest == t.x.stream
    else t.rest == t.x.Whole().rest && t.v == if t.x.Whole().result == Coding.Spins then Hangs else NextRequest
  }

  /** An attempt over a connection, and its verdict. */
  ghost predicate Used(t: Turn, s: Script)
    requires t.rec.kind.Some?
  {
    t.rec.prologue == PrologueOf(t.x.q, t.rec.kind.value, s.auth) &&
    if t.x.q.isConnect then
      ConnectSent(t, s) && t.rest == t.x.stream && t.slot == t.x.slot &&
      t.v == VerdictOf(t.ConnectEnd(s), s, t.held, t.Again())
    else
      Exchanged(t, s) && t.v == VerdictOf(t.RequestEnd(s), s, t.held, t.Again())
  }

  /** A buffer is not given up below twice the size of a read buffer. */
  predicate GivenUp(t: Turn) {
    !t.held ==> |t.x.q.line| + |t.x.q.gen| + |t.x.q.fields| + |t.body| >= 2 * Body.HTTP_BUF_SIZE
  }

  /** What became of the site. */
  predicate Noted(t: Turn, s: Script) {
    Later(t.was, t.stock, t.rec.kind.Some? && t.Marks(s))
  }

  /** How an attempt ends, once it has its connection. */
  ghost predicate Concluded(t: Turn, s: Script) {
    GivenUp(t) && Noted(t, s) &&
    if t.rec.kind.None? then !(IsParent(s.parent) && s.direct) && Skipped(t) else Used(t, s)
  }

  /** The way an attempt takes, and how it ends. */
  ghost predicate Ended(t: Turn, s: Script) {
    Placed(s, t.x.site, t.x.q.isConnect, t.x.stock, t.was, t.rec.kind) && Concluded(t, s)
  }

  lemma {:induction false} EndedMeans(t: Turn, s: Script)
    requires Ended(t, s)
    ensures Placed(s, t.x.site, t.x.q.isConnect, t.x.stock, t.was, t.rec.kind)
    ensures Later(t.was, t.stock, t.stock.blocked)
  {
    hide Placed, Used, Skipped, GivenUp, IsParent, Turn.Marks;
  }

  /** An attempt that has left everything in this state. */
  ghost function Outcome(x: Situation, rec: Record, v: Verdict, was: Stock, c: Client, r: Request, w: World): (t: Turn)
    requires c.reader.Valid()
    reads c.reader, r, w
  {
    Turn(x, rec, v, r.body, !r.partial, c.reader.Rest(), r.plugin, was, StockOf(w))
  }

  /** What the client has seen when there is a verdict. */
  predicate Shown(trace: seq<Event>, v: Verdict) {
    After(trace) != Broken && (v == NextRequest ==> After(trace) == Answering || After(trace) == Paged)
  }

  /** The state for another attempt; a reset of the count lowers the potential below `bound`. */
  ghost predicate Renewed(c: Client, r: Request, w: World, tries: nat, bound: nat)
    reads c, r, w
  {
    After(c.trace) == Open && r.Valid() && r.raw.Some? && r.ResponseNotSent() &&
    (r.tryCnt == tries < MAX_TRIES || (r.tryCnt == 0 && tries == MAX_TRIES && w.Potential() < bound))
  }

  /** A connection just made for this site, or taken from the pool; one that may be fake was paid for. */
  ghost predicate Ready(sv: ServerConn, w: World, s: Script, bound: nat)
    reads w, sv
  {
    Fits(sv, w) && (sv.kind == Direct && !sv.alwaysDirect ==> w.Spare() < bound) &&
    sv.out == [] && sv.limit == s.limit && sv.state == Connected &&
    (sv.kind == Direct ==> (sv.alwaysDirect <==> w.kind != Own)) &&
    sv.authHeader == if sv.kind == HttpParent then s.auth else []
  }

  lemma {:induction false} ReadyMeans(sv: ServerConn, w: World, s: Script, bound: nat)
    requires Ready(sv, w, s, bound)
    ensures Fits(sv, w) && (sv.kind == Direct && !sv.alwaysDirect ==> w.Spare() < bound)
    ensures sv.out == [] && sv.limit == s.limit && sv.state == Connected
    ensures sv.MaybeFake() <==> sv.kind == Direct && w.kind == Own
    ensures sv.kind == Direct ==> (sv.alwaysDirect <==> w.kind != Own)
    ensures sv.kind == HttpParent ==> sv.authHeader == s.auth
  {
  }

  lemma {:induction false} PrologueFor(q: Facts, sv: ServerConn, s: Script)
    requires sv.kind == HttpParent ==> sv.authHeader == s.auth
    ensures PrologueOf(q, sv.kind, sv.authHeader) == PrologueOf(q, sv.kind, s.auth)
    ensures sv.ViaHttp() <==> OverHttp(sv.kind)
  {
  }

  lemma {:induction false} PlanFor(c: Client, r: Request, w: World)
    requires c.reader.Valid()
    ensures SituationOf(c, r, w, r.tryCnt).Plan() == Planned(c, r)
  {
  }

  /** doRequest and what serve makes of it. */
  method Exchange(c: Client, r: Request, sv: ServerConn, w: World, l: Ledger, s: Script, ghost bound: nat)
      returns (v: Verdict, ghost t: Turn)
    requires r.Valid() && r.raw.Some? && r.ResponseNotSent() && w.Valid() && Ready(sv, w, s, bound)
    requires Balanced(l, r) && After(c.trace) == Open && c.reader.Valid() && !r.isConnect && r.tryCnt > 0
    modifies c`trace, c.reader, r`raw, r`partial, r`body, r`largest, r`state, r`plugin, r`tryCnt,
             sv`out, sv`state, w`tempBlocked, l
    ensures Blocks(w) && Balanced(l, r) && c.reader.Valid() && r.Valid()
    ensures c.Attempts() == old(c.Attempts()) && c.Lines() == old(c.Lines())
    ensures t.x == old(SituationOf(c, r, w, r.tryCnt)) && t.was == old(StockOf(w))
    ensures t == Outcome(t.x, t.rec, v, t.was, c, r, w) && Concluded(t, s)
    ensures t.rec.kind == Some(sv.kind) && t.rec.out == sv.out
    ensures v == TryAgain ==> Renewed(c, r, w, old(r.tryCnt), bound)
    ensures Shown(c.trace, v)
  {
    hide After, Next, BodyOf, Concluded, Exchanged, VerdictOf, Ready, PrologueOf, GivenUp, LooksBlocked, Shown, Renewed,
        SituationOf, Outcome;
    hide Request.Valid, Turn.RequestEnd, Turn.Again, Turn.Suspected;
    ReadyMeans(sv, w, s, bound);
    var err;
    err, t := ExchangeOnce(c, r, sv, w, l, s, bound);
    v, t := Conclude(c, r, sv, w, s, err, bound, t);
  }

  /** What serve makes of doRequest, as the end of the attempt `t`. */
  method Conclude(c: Client, r: Request, sv: ServerConn, w: World, s: Script, err: Err, ghost bound: nat, ghost t: Turn)
      returns (v: Verdict, ghost t': Turn)
    requires r.Valid() && w.Valid() && Fits(sv, w) && 0 < r.tryCnt && c.reader.Valid() && !r.isConnect
    requires sv.kind == Direct ==> (sv.alwaysDirect <==> w.kind != Own) && (!sv.alwaysDirect ==> w.Spare() < bound)
    requires err == Retry ==> After(c.trace) == Open && r.ResponseNotSent() && sv.state == Connected
    requires err == PageSent ==> After(c.trace) == Paged && r.state == Sent
    requires err == Nil ==> After(c.trace) == Answering
    requires After(c.trace) != Broken
    requires t == Outcome(t.x, t.rec, t.v, t.was, c, r, w) && Exchanged(t, s) && err == t.RequestEnd(s)
    requires SameHead(t.x.q, r) && t.x.site == SiteOf(w) && t.x.tries == r.tryCnt
    requires t.rec.kind == Some(sv.kind) && t.rec.prologue == PrologueOf(t.x.q, sv.kind, s.auth)
    requires Later(t.was, t.stock, err == Retry && t.Suspected(s))
    modifies c`trace, r`tryCnt, w`tempBlocked
    ensures Blocks(w) && r.Valid() && c.Attempts() == old(c.Attempts()) && c.Lines() == old(c.Lines())
    ensures t'.x == t.x && t'.rec == t.rec && t'.was == t.was && t' == Outcome(t.x, t.rec, v, t.was, c, r, w)
    ensures Concluded(t', s)
    ensures v == TryAgain ==> Renewed(c, r, w, old(r.tryCnt), bound)
    ensures Shown(c.trace, v)
  {
    hide After, Next, BodyOf, Concluded, Exchanged, VerdictOf, PrologueOf, GivenUp, LooksBlocked, Shown, Renewed;
    hide Request.Valid, Turn.RequestEnd, Turn.Again, Turn.Suspected;
    TooLong(t, c, r, w);
    var again := r.tryCnt < MAX_TRIES || sv.MaybeFake();
    AgainIs(t, r.tryCnt, sv, w);
    v := Judge(c, r, sv, w, s, err, bound);
    ExchangeEnds(t, s, again, v, StockOf(w));
    t' := t.(v := v, stock := StockOf(w));
  }

  lemma {:induction false} AgainIs(t: Turn, tries: nat, sv: ServerConn, w: World)
    requires t.x.tries == tries && t.rec.kind == Some(sv.kind) && t.x.site == SiteOf(w)
    requires sv.kind == Direct ==> (sv.alwaysDirect <==> w.kind != Own)
    ensures sv.state == Connected ==> (t.Again() <==> tries < MAX_TRIES || sv.MaybeFake())
  {
  }

  /** The parts of a request that its buffer depends on. */
  predicate SameHead(q: Facts, r: Request)
    reads r
  {
    q.isConnect == r.isConnect && q.line == r.line && q.gen == r.gen && q.fields == r.fields
  }

  /** A buffer that was given up was too long. */
  lemma {:induction false} TooLong(t: Turn, c: Client, r: Request, w: World)
    requires c.reader.Valid() && r.Valid() && t == Outcome(t.x, t.rec, t.v, t.was, c, r, w) && SameHead(t.x.q, r)
    ensures GivenUp(t)
  {
  }

  lemma {:induction false} ExchangeEnds(t: Turn, s: Script, again: bool, v: Verdict, stock: Stock)
    requires t.rec.kind.Some? && !t.x.q.isConnect && t.rec.prologue == PrologueOf(t.x.q, t.rec.kind.value, s.auth)
    requires Exchanged(t, s) && GivenUp(t) && v == VerdictOf(t.RequestEnd(s), s, t.held, again)
    requires t.RequestEnd(s) == Retry ==> again == t.Again()
    requires Later(t.was, stock, (t.RequestEnd(s) == Retry && t.Suspected(s)) || (v == TryAgain && t.x.tries == MAX_TRIES))
    ensures Concluded(t.(v := v, stock := stock), s)
  {
    hide PrologueOf, RequestError, Delivered, Extends, SlotAfter, SendError, BodyOf, RetryMarks;
  }

  method ExchangeOnce(c: Client, r: Request, sv: ServerConn, w: World, l: Ledger, s: Script, ghost bound: nat)
      returns (err: Err, ghost t: Turn)
    requires r.Valid() && r.raw.Some? && r.ResponseNotSent() && w.Valid() && Ready(sv, w, s, bound)
    requires Balanced(l, r) && After(c.trace) == Open && c.reader.Valid()
    modifies c`trace, c.reader, r`raw, r`partial, r`body, r`largest, r`state, r`plugin,
             sv`out, sv`state, w`tempBlocked, l
    ensures Blocks(w) && Later(t.was, t.stock, err == Retry && t.Suspected(s))
    ensures r.Valid() && Balanced(l, r) && c.reader.Valid()
    ensures c.Attempts() == old(c.Attempts()) && c.Lines() == old(c.Lines()) && SameHead(t.x.q, r) &&
            t.x.site == SiteOf(w) && t.x.tries == r.tryCnt
    ensures t.x == old(SituationOf(c, r, w, r.tryCnt)) && t.was == old(StockOf(w))
    ensures t == Outcome(t.x, t.rec, t.v, t.was, c, r, w) && Exchanged(t, s) && err == t.RequestEnd(s)
    ensures t.rec.kind == Some(sv.kind) && t.rec.out == sv.out && t.rec.prologue == PrologueOf(t.x.q, sv.kind, s.auth)
    ensures err == Retry ==> After(c.trace) == Open && r.ResponseNotSent() && sv.state == Connected
    ensures err == PageSent ==> After(c.trace) == Paged && r.state == Sent
    ensures err == Nil ==> After(c.trace) == Answering
    ensures After(c.trace) != Broken
  {
    hide After, Next, Extends, Delivered, RequestError, SendError, SlotAfter, HeldBody, BodyOf, PrologueOf, LooksBlocked,
        OverHttp;
    hide Request.Valid, Balanced, Exchanged, Turn.RequestEnd, Later, RetryMarks, Turn.Suspected, Planned, Situation.Plan, Count;
    ReadyMeans(sv, w, s, bound);
    ghost var x, fake := SituationOf(c, r, w, r.tryCnt), sv.MaybeFake();
    ghost var mayRetry := fake && LooksBlocked(w.parentEmpty, s.answer);
    ghost var prologue, sent := r.Prologue(sv), [];
    PrologueFor(x.q, sv, s);
    PlanFor(c, r, w);
    err, sent := DoRequest(c, r, sv, w, l, s, prologue + x.body, x.Plan());
    t := Outcome(x, Record(Some(sv.kind), prologue, sent, sv.out), Close, x.stock, c, r, w);
    AsExchanged(t, s, t.Before(), mayRetry, fake, err);
    LaterBlocks(t.was, t.stock, err == Retry && t.Suspected(s));
  }

  /** The contract of doRequest, in the terms of an attempt. */
  lemma {:induction false} AsExchanged(t: Turn, s: Script, before: Bytes, mayRetry: bool, fake: bool, err: Err)
    requires before == t.Before() && mayRetry == (t.MaybeFake() && LooksBlocked(t.x.site.parentEmpty, s.answer))
    requires Delivered(before, t.x.Plan(), t.rec.sent, t.x.stream, t.rest, s.limit) && Extends(t.rec.sent, t.rec.out)
    requires err == RequestError(before, t.x.Plan(), s, mayRetry, t.x.q.webSocket, t.x.IsRetry())
    requires t.slot == SlotAfter(t.x.slot, t.x.IsRetry(), SendError(before, t.x.Plan(), s), s, err)
    requires err == Retry ==>
               t.body == HeldBody(t.x.body, before, t.rec.sent, s.limit) && (t.x.IsRetry() ==> t.body == t.x.body)
    requires fake == t.MaybeFake()
    requires Later(t.was, t.stock, err == Retry && RetryMarks(SendError(before, t.x.Plan(), s), fake, s))
    ensures Exchanged(t, s) && err == t.RequestEnd(s) && Later(t.was, t.stock, err == Retry && t.Suspected(s))
  {
    hide Delivered, RequestError, SlotAfter, SendError, HeldBody, BodyOf;
  }

  /** What serve makes of the end of doRequest. */
  method Judge(c: Client, r: Request, sv: ServerConn, w: World, s: Script, err: Err, ghost bound: nat) returns (v: Verdict)
    requires r.Valid() && w.Valid() && Fits(sv, w) && 0 < r.tryCnt
    requires sv.kind == Direct && !sv.alwaysDirect ==> w.Spare() < bound
    requires err == Retry ==> After(c.trace) == Open && r.ResponseNotSent()
    requires err == PageSent ==> After(c.trace) == Paged && r.state == Sent
    requires err == Nil ==> After(c.trace) == Answering
    requires After(c.trace) != Broken
    modifies c`trace, r`tryCnt, w`tempBlocked
    ensures Marked(w, v == TryAgain && old(r.tryCnt) == MAX_TRIES) && c.Attempts() == old(c.Attempts()) &&
            c.Lines() == old(c.Lines())
    ensures v == VerdictOf(err, s, !r.partial, old(r.tryCnt) < MAX_TRIES || sv.MaybeFake())
    ensures v == TryAgain ==> err == Retry && Renewed(c, r, w, old(r.tryCnt), bound)
    ensures Shown(c.trace, v) && r.Valid()
  {
    hide After;
    if err == Crash { return Crashed; }
    if err == Spins { return Hangs; }
    if err == Nil { return if s.keepAlive then NextRequest else Close; }
    var again := ShouldRetry(c, r, sv, w, err);
    v := if again then TryAgain
         else if err == PageSent && (!r.HasBody() || r.state != Created) then NextRequest
         else Close;
  }

  /** doConnect and what serve makes of it; `doubt` bounds what a connection that may be fake has left. */
  method ConnectOnce(c: Client, r: Request, sv: ServerConn, w: World, s: Script, ghost bound: nat, ghost doubt: nat)
      returns (v: Verdict, ghost t: Turn)
    requires r.Valid() && r.raw.Some? && r.ResponseNotSent() && w.Valid() && Ready(sv, w, s, bound)
    requires sv.kind == Direct && w.kind == Own ==> w.budget < doubt
    requires After(c.trace) == Open && c.reader.Valid() && r.isConnect && r.tryCnt > 0
    modifies c`trace, r`raw, r`partial, r`body, r`largest, r`state, r`tryCnt, sv`out, sv`state,
             w`tempBlocked
    ensures Blocks(w) && c.Attempts() == old(c.Attempts()) && r.Valid()
    ensures c.Lines() == old(c.Lines()) + if old(r.IsRetry()) || sv.ViaHttp() then 0 else 1
    ensures t.x == old(SituationOf(c, r, w, r.tryCnt)) && t.was == old(StockOf(w))
    ensures t == Outcome(t.x, t.rec, v, t.was, c, r, w) && Concluded(t, s)
    ensures t.rec.kind == Some(sv.kind) && t.rec.out == sv.out
    ensures v == TryAgain ==> Renewed(c, r, w, old(r.tryCnt), bound) && (sv.kind == Direct || sv.ViaHttp())
    ensures v == TryAgain && sv.kind == Direct ==> w.tempBlocked && w.Doubt() < doubt
    ensures Shown(c.trace, v) && v != NextRequest
  {
    hide After, Next, BodyOf, Concluded, ConnectSent, Ready, PrologueOf, Turn.ConnectEnd, VerdictOf, GivenUp, LooksBlocked,
        Shown, SituationOf, Outcome;
    hide Request.Valid, Turn.Again, Renewed, OverHttp;
    ReadyMeans(sv, w, s, bound);
    var err;
    err, t := ConnectExchange(c, r, sv, w, s, bound);
    v, t := ConcludeConnect(c, r, sv, w, s, err, bound, t);
  }

  /** What serve makes of doConnect, as the end of the attempt `t`. */
  method ConcludeConnect(c: Client, r: Request, sv: ServerConn, w: World, s: Script, err: Err, ghost bound: nat, ghost t: Turn)
      returns (v: Verdict, ghost t': Turn)
    requires r.Valid() && w.Valid() && Fits(sv, w) && 0 < r.tryCnt && c.reader.Valid() && r.isConnect
    requires sv.kind == Direct ==> (sv.alwaysDirect <==> w.kind != Own) && (!sv.alwaysDirect ==> w.Spare() < bound)
    requires err == Retry ==> After(c.trace) == Open && r.ResponseNotSent() && sv.state == Connected
    requires After(c.trace) != Broken && (err == Retry || err == Failed)
    requires t == Outcome(t.x, t.rec, t.v, t.was, c, r, w) && t.rec.kind == Some(sv.kind)
    requires t.rec.prologue == PrologueOf(t.x.q, sv.kind, s.auth) && ConnectSent(t, s) && err == t.ConnectEnd(s)
    requires SameHead(t.x.q, r) && t.x.site == SiteOf(w) && t.x.tries == r.tryCnt && t.rest == t.x.stream && t.slot == t.x.slot
    requires Later(t.was, t.stock, err == Retry && t.MaybeFake())
    modifies c`trace, r`tryCnt, w`tempBlocked
    ensures Blocks(w) && r.Valid() && c.Attempts() == old(c.Attempts()) && c.Lines() == old(c.Lines())
    ensures t'.x == t.x && t'.rec == t.rec && t'.was == t.was && t' == Outcome(t.x, t.rec, v, t.was, c, r, w)
    ensures Concluded(t', s)
    ensures v == TryAgain ==> err == Retry && Renewed(c, r, w, old(r.tryCnt), bound)
    ensures Shown(c.trace, v) && v != NextRequest
  {
    hide After, Next, BodyOf, Concluded, ConnectSent, PrologueOf, Turn.ConnectEnd, VerdictOf, GivenUp, LooksBlocked, Shown;
    hide Request.Valid, Turn.Again, Renewed;
    TooLong(t, c, r, w);
    var again := r.tryCnt < MAX_TRIES || sv.MaybeFake();
    AgainIs(t, r.tryCnt, sv, w);
    v := JudgeConnect(c, r, sv, w, s, err, bound);
    ConnectEnds(t, s, again, v, StockOf(w));
    t' := t.(v := v, stock := StockOf(w));
  }

  /** What serve makes of the end of doConnect. */
  method JudgeConnect(c: Client, r: Request, sv: ServerConn, w: World, s: Script, err: Err, ghost bound: nat)
      returns (v: Verdict)
    requires r.Valid() && w.Valid() && Fits(sv, w) && 0 < r.tryCnt && (err == Retry || err == Failed)
    requires sv.kind == Direct && !sv.alwaysDirect ==> w.Spare() < bound
    requires err == Retry ==> After(c.trace) == Open && r.ResponseNotSent()
    requires After(c.trace) != Broken
    modifies c`trace, r`tryCnt, w`tempBlocked
    ensures Marked(w, v == TryAgain && old(r.tryCnt) == MAX_TRIES) && c.Attempts() == old(c.Attempts()) &&
            c.Lines() == old(c.Lines())
    ensures v == VerdictOf(err, s, !r.partial, old(r.tryCnt) < MAX_TRIES || sv.MaybeFake()) && v != NextRequest
    ensures v == TryAgain ==> err == Retry && Renewed(c, r, w, old(r.tryCnt), bound)
    ensures Shown(c.trace, v) && r.Valid()
  {
    hide After;
    var again := ShouldRetry(c, r, sv, w, err);
    v := if again then TryAgain else Close;
  }

  lemma {:induction false} ConnectEnds(t: Turn, s: Script, again: bool, v: Verdict, stock: Stock)
    requires t.rec.kind.Some? && t.x.q.isConnect && t.rec.prologue == PrologueOf(t.x.q, t.rec.kind.value, s.auth)
    requires ConnectSent(t, s) && t.rest == t.x.stream && t.slot == t.x.slot && GivenUp(t)
    requires v == VerdictOf(t.ConnectEnd(s), s, t.held, again) && (t.ConnectEnd(s) == Retry ==> again == t.Again())
    requires Later(t.was, stock, (t.ConnectEnd(s) == Retry && t.MaybeFake()) || (v == TryAgain && t.x.tries == MAX_TRIES))
    ensures Concluded(t.(v := v, stock := stock), s)
  {
    hide PrologueOf, ConnectError, ConnectOpening, NewBytes;
  }

  method ConnectExchange(c: Client, r: Request, sv: ServerConn, w: World, s: Script, ghost bound: nat)
      returns (err: Err, ghost t: Turn)
    requires r.Valid() && r.raw.Some? && r.ResponseNotSent() && w.Valid() && Ready(sv, w, s, bound)
    requires After(c.trace) == Open && c.reader.Valid()
    modifies c`trace, r`raw, r`partial, r`body, r`largest, r`state, sv`out, sv`state, w`tempBlocked
    ensures Blocks(w) && Later(t.was, t.stock, err == Retry && t.MaybeFake()) && r.Valid() && c.Attempts() == old(c.Attempts())
    ensures c.Lines() == old(c.Lines()) + if r.IsRetry() || sv.ViaHttp() then 0 else 1
    ensures t.x == old(SituationOf(c, r, w, r.tryCnt)) && t.was == old(StockOf(w)) &&
            t == Outcome(t.x, t.rec, t.v, t.was, c, r, w)
    ensures SameHead(t.x.q, r) && t.x.site == SiteOf(w) && t.x.tries == r.tryCnt
    ensures t.rest == t.x.stream && t.slot == t.x.slot
    ensures t.rec.kind == Some(sv.kind) && t.rec.out == sv.out && t.rec.prologue == PrologueOf(t.x.q, sv.kind, s.auth)
    ensures ConnectSent(t, s) && err == t.ConnectEnd(s)
    ensures err == Retry ==> After(c.trace) == Open && r.ResponseNotSent() && sv.state == Connected
    ensures err == Retry && !sv.ViaHttp() ==> w.tempBlocked && sv.kind == Direct
    ensures After(c.trace) != Broken && (err == Retry || err == Failed)
  {
    hide After, Next, Extends, ConnectError, ConnectOpening, BodyOf, PrologueOf, NewBytes, LooksBlocked, MaybeBlocked, OverHttp;
    hide Request.Valid, Later, ConnectSent, Turn.ConnectEnd;
    ReadyMeans(sv, w, s, bound);
    ghost var x, mayRetry := SituationOf(c, r, w, r.tryCnt), sv.MaybeFake() && MaybeBlocked(w.parentEmpty, s.tunnel.end);
    ghost var prologue := r.Prologue(sv);
    PrologueFor(x.q, sv, s);
    err := DoConnect(c, r, sv, w, s);
    t := Outcome(x, Record(Some(sv.kind), prologue, [], sv.out), Close, x.stock, c, r, w);
    AsConnected(t, s, sv.ViaHttp(), t.Before(), mayRetry, err);
    LaterBlocks(t.was, t.stock, err == Retry && t.MaybeFake());
  }

  /** The contract of doConnect, in the terms of an attempt. */
  lemma {:induction false} AsConnected(t: Turn, s: Script, viaHttp: bool, before: Bytes, mayRetry: bool, err: Err)
    requires t.rec.kind.Some? && viaHttp == OverHttp(t.rec.kind.value) && before == t.Before()
    requires mayRetry == (t.MaybeFake() && MaybeBlocked(t.x.site.parentEmpty, s.tunnel.end))
    requires err == ConnectError(viaHttp, before, s, t.x.IsRetry(), mayRetry)
    requires if (viaHttp && |before| > s.limit) || (!viaHttp && !t.x.IsRetry() && !s.tunnel.established) then t.body == t.x.body
             else
               var opening := ConnectOpening(viaHttp, t.rec.prologue, t.x.body, t.x.IsRetry());
               var bytes := NewBytes(s.tunnel, err == Retry);
               Extends(opening, t.rec.out) &&
               (|opening| + |bytes| <= s.limit ==> t.rec.out == opening + bytes && t.body == t.x.body + bytes)
    ensures ConnectSent(t, s) && err == t.ConnectEnd(s)
  {
    hide ConnectError, ConnectOpening, NewBytes, OverHttp, MaybeBlocked;
  }

  /** The skipping of a body whose request was answered with a page. */
  method SkipBody(c: Client, r: Request) returns (ends: bool)
    requires c.reader.Valid()
    modifies c.reader
    ensures c.reader.Valid() && c.reader.Rest() == old(WholeBody(c, r)).rest
    ensures ends <==> old(WholeBody(c, r)).result != Coding.Spins
  {
    hide Body.BodyRelay, Body.Kept, Body.Recorded;
    if !r.HasBody() { return true; }
    var sink := new Body.Writer([], false, |WholeBody(c, r).wire|, None, 0);
    var res := Body.SendBody(sink, c.reader, if r.chunking then 0 else r.contLen, r.chunking);
    ends := res != Coding.Spins;
  }

  /** An attempt without a connection ends with a page. */
  method NoServer(c: Client, r: Request, w: World, s: Script) returns (v: Verdict, ghost t: Turn)
    requires c.reader.Valid() && r.Valid() && w.Valid() && !(IsParent(s.parent) && s.direct)
    modifies c.reader
    ensures Blocks(w) && c.reader.Valid() && t.rec.kind.None? && (v == Close || v == Hangs || v == NextRequest)
    ensures t.x == old(SituationOf(c, r, w, r.tryCnt)) && t.was == old(StockOf(w))
    ensures t == Outcome(t.x, t.rec, v, t.was, c, r, w) && Concluded(t, s)
  {
    hide BodyOf, Request.Valid, GivenUp, IsParent;
    ghost var x := SituationOf(c, r, w, r.tryCnt);
    if r.isConnect {
      v := Close;
    } else {
      var ends := SkipBody(c, r);
      v := if ends then NextRequest else Hangs;
    }
    t := Outcome(x, Record(None, [], [], []), v, x.stock, c, r, w);
    TooLong(t, c, r, w);
  }

  /** The 200 lines of an attempt: one at a first try of a CONNECT, unless a parent answers. */
  function Opened(t: Turn): (n: nat) {
    if t.x.q.isConnect && !t.x.IsRetry() && t.rec.kind.Some? && !OverHttp(t.rec.kind.value) then 1 else 0
  }

  /** The count of the 200 lines and of the connections that may still be fake, over one attempt. */
  predicate Balance(t: Turn, lines: nat, doubt: nat, lines': nat, doubt': nat, blocked: bool) {
    lines' == lines + Opened(t) &&
    (t.v == TryAgain ==> lines' + doubt' <= lines + doubt) &&
    (t.v == TryAgain && t.x.q.isConnect && t.rec.kind == Some(Direct) ==> blocked && (t.x.IsRetry() ==> doubt' < doubt))
  }

  /** A connection is asked for and used. */
  method UseServer(c: Client, r: Request, w: World, l: Ledger, s: Script) returns (v: Verdict, ghost t: Turn)
    requires r.Valid() && r.raw.Some? && r.ResponseNotSent() && 0 < r.tryCnt
    requires After(c.trace) == Open && w.Valid() && Balanced(l, r) && c.reader.Valid()
    modifies c`trace, c.reader, r`raw, r`partial, r`body, r`largest, r`state, r`plugin, r`tryCnt,
             w, l
    ensures Settles(w) && Balanced(l, r) && c.reader.Valid() && r.Valid() && c.Attempts() == old(c.Attempts())
    ensures t == Outcome(old(SituationOf(c, r, w, r.tryCnt)), t.rec, v, t.was, c, r, w) && Ended(t, s)
    ensures Balance(t, old(c.Lines()), old(w.Doubt()), c.Lines(), w.Doubt(), w.tempBlocked)
    ensures v == TryAgain ==> Renewed(c, r, w, old(r.tryCnt), old(w.Potential()))
    ensures Shown(c.trace, v)
  {
    hide After, Next, Concluded, BodyOf, IsParent, Ready, Placed, GivenUp, VerdictOf, Balance, Shown, Renewed;
    hide Request.Valid, Balanced;
    ghost var bound, doubt, before := w.Potential(), w.Doubt(), StockOf(w);
    var sv := Obtain(c, r, w, s);
    v, t := UseConn(c, r, sv, w, l, s, bound, doubt);
    StartIsFree(t, s, before);
    BalanceIsFree(t, before, doubt);
    t := t.(x := t.x.(stock := before));
  }

  /** How an attempt ends does not depend on what the site was like before there was a connection. */
  lemma {:induction false} StartIsFree(t: Turn, s: Script, stock: Stock)
    requires Concluded(t, s)
    ensures Concluded(t.(x := t.x.(stock := stock)), s)
  {
    hide Delivered, Extends, RequestError, SendError, SlotAfter, HeldBody, BodyOf, PrologueOf, ConnectError, NewBytes,
         ConnectOpening, RetryMarks;
  }

  lemma {:induction false} BalanceIsFree(t: Turn, stock: Stock, doubt: nat)
    ensures forall lines, lines', doubt', blocked :: Balance(t, lines, doubt, lines', doubt', blocked) ==>
              Balance(t.(x := t.x.(stock := stock)), lines, doubt, lines', doubt', blocked)
  {
  }

  /** What serve does with what getServerConn gave. */
  method UseConn(c: Client, r: Request, sv: ServerConn?, w: World, l: Ledger, s: Script, ghost bound: nat, ghost doubt: nat)
      returns (v: Verdict, ghost t: Turn)
    requires r.Valid() && r.raw.Some? && r.ResponseNotSent() && 0 < r.tryCnt && w.Valid() && Balanced(l, r) && c.reader.Valid()
    requires if sv == null then After(c.trace) == Paged && !(IsParent(s.parent) && s.direct)
             else After(c.trace) == Open && Ready(sv, w, s, bound) &&
                  (r.isConnect && sv.kind == Direct && w.kind == Own ==> w.budget < doubt)
    requires w.Doubt() <= doubt
    modifies c`trace, c.reader, r`raw, r`partial, r`body, r`largest, r`state, r`plugin, r`tryCnt,
             w`tempBlocked, l
    modifies if sv == null then {} else {sv}
    ensures Blocks(w) && Balanced(l, r) && c.reader.Valid() && r.Valid() && c.Attempts() == old(c.Attempts())
    ensures t.rec.kind == KindOfConn(sv) && (sv != null ==> t.rec.out == sv.out)
    ensures t.x == old(SituationOf(c, r, w, r.tryCnt)) && t.was == old(StockOf(w))
    ensures t == Outcome(t.x, t.rec, v, t.was, c, r, w) && Concluded(t, s)
    ensures Balance(t, old(c.Lines()), doubt, c.Lines(), w.Doubt(), w.tempBlocked)
    ensures v == TryAgain ==> Renewed(c, r, w, old(r.tryCnt), bound)
    ensures Shown(c.trace, v)
  {
    hide After, Next, Concluded, BodyOf, IsParent, Ready, GivenUp, VerdictOf, Renewed;
    hide Request.Valid;
    if sv == null {
      v, t := NoServer(c, r, w, s);
    } else if r.isConnect {
      v, t := ConnectOnce(c, r, sv, w, s, bound, doubt);
    } else {
      v, t := Exchange(c, r, sv, w, l, s, bound);
    }
  }

  /** getServerConn, with what the rest of an attempt needs to know of it. */
  method Obtain(c: Client, r: Request, w: World, s: Script) returns (sv: ServerConn?)
    requires w.Valid() && After(c.trace) == Open
    modifies c`trace, w
    ensures Settles(w) && c.Attempts() == old(c.Attempts()) && c.Lines() == old(c.Lines())
    ensures sv != null ==> fresh(sv) && Ready(sv, w, s, old(w.Potential())) && c.trace == old(c.trace)
    ensures sv != null && r.isConnect && sv.kind == Direct && w.kind == Own ==> w.budget < old(w.Doubt())
    ensures sv == null ==> After(c.trace) == Paged && !(IsParent(s.parent) && s.direct)
    ensures Placed(s, SiteOf(w), r.isConnect, old(StockOf(w)), StockOf(w), KindOfConn(sv))
  {
    hide After, Routed, Undisturbed, FellBack;
    var pooled;
    sv, pooled := GetServerConn(c, r, w, s);
  }

  /** The connection that is used, and what happens to the site, when others do no more than let its block expire. A new
      direct connection to a site with its own entry means that it is not blocked. */
  predicate Placed(s: Script, w: Site, isConnect: bool, k: Stock, k': Stock, kind: Option<ConnKind>) {
    (kind == Some(Direct) ==>
      w.kind != AlwaysBlocked && ((!isConnect && s.idle) || (!w.alwaysProxy && s.direct && (w.kind == Own ==> !k'.blocked)))) &&
    (IsParent(kind) ==>
      ((w.kind != AlwaysDirect || w.alwaysProxy) && s.parent == kind) || (!isConnect && s.shared == kind)) &&
    (!IsParent(s.parent) && !s.direct && !s.idle && !IsParent(s.shared) ==> kind.None?) &&
    (s.others != Anything ==>
      var pooled := !isConnect && s.idle && k.pooled > 0;
      (pooled ==> kind == Some(Direct)) && Drawn(s, w, isConnect, pooled, k, k', kind) &&
      (!pooled && (isConnect || !IsParent(s.shared)) ==> Routed(w, k.blocked, k.budget, s, kind)))
  }

  /** The part of the loop of serve behind the label retry. */
  method TryOnce(c: Client, r: Request, w: World, l: Ledger, s: Script) returns (v: Verdict, ghost t: Turn)
    requires r.Valid() && r.raw.Some? && r.ResponseNotSent() && r.tryCnt < MAX_TRIES
    requires After(c.trace) == Open && w.Valid() && Balanced(l, r) && c.reader.Valid()
    modifies c`trace, c.reader, r`raw, r`partial, r`body, r`largest, r`state, r`plugin, r`tryCnt,
             w, l
    ensures Settles(w) && Balanced(l, r) && c.reader.Valid() && r.Valid() && c.Attempts() == old(c.Attempts()) + 1
    ensures t == Outcome(old(SituationOf(c, r, w, r.tryCnt + 1)), t.rec, v, t.was, c, r, w) && Ended(t, s)
    ensures Balance(t, old(c.Lines()), old(w.Doubt()), c.Lines(), w.Doubt(), w.tempBlocked)
    ensures v == TryAgain ==> After(c.trace) == Open && r.Valid() && r.raw.Some? && r.ResponseNotSent()
    ensures v == TryAgain ==>
              if old(r.tryCnt) < MAX_TRIES - 1 then r.tryCnt == old(r.tryCnt) + 1
              else r.tryCnt == 0 && w.Potential() < old(w.Potential())
    ensures Shown(c.trace, v)
  {
    hide After, Ended, WholeBody;
    NextTry(c, r, w, s);
    v, t := UseServer(c, r, w, l, s);
  }

  /** tryOnce */
  method NextTry(c: Client, r: Request, w: World, s: Script)
    requires r.Valid() && r.tryCnt < MAX_TRIES && After(c.trace) == Open && c.reader.Valid()
    modifies c`trace, r`tryCnt
    ensures r.Valid() && r.tryCnt == old(r.tryCnt) + 1 && After(c.trace) == Open
    ensures SituationOf(c, r, w, r.tryCnt) == old(SituationOf(c, r, w, r.tryCnt + 1))
    ensures c.Attempts() == old(c.Attempts()) + 1 && c.Lines() == old(c.Lines())
  {
    hide After;
    r.tryCnt := r.tryCnt + 1;
    c.Emit(Attempt);
  }

  // ---------------------------------------------------------------- one attempt on its own

  /** The part of the client's body that a first try adds to what is kept: all of it if the connection accepts it, not
      all of it if the connection stops more than a block before its end, and none if it does not even accept what comes
      before. */
  ghost predicate PartRead(part: Bytes, whole: Coding.Relay, before: Bytes, limit: nat) {
    part <= whole.wire &&
    (|before| + |whole.wire| <= limit ==> part == whole.wire) &&
    (|before| + |whole.wire| > limit + Body.HTTP_BUF_SIZE && whole.wire != [] ==> |part| < |whole.wire|) &&
    (|before| > limit ==> part == [])
  }

  /** Where it leaves the client's stream: at the end of the body if and only if all of it is read, where it was if
      nothing is; behind the part, when the body has a length. */
  ghost predicate PartLeft(part: Bytes, whole: Coding.Relay, stream: Bytes, rest: Bytes, sized: bool) {
    (whole.result == Coding.Done ==> (part == whole.wire <==> rest == whole.rest) && (part == [] ==> rest == stream)) &&
    (sized ==> |part| <= |stream| && part == stream[..|part|] && rest == stream[|part|..])
  }

  lemma {:induction false} PartSent(before: Bytes, whole: Coding.Relay, sent: Bytes, stream: Bytes, rest: Bytes,
                                    limit: nat, sized: bool)
    requires Body.FailedPart(before, stream, whole, sent, rest, limit, Body.HTTP_BUF_SIZE)
    requires |before| <= limit < |before| + |whole.wire|
    requires sized ==> |whole.wire| <= |stream| && whole.wire == stream[..|whole.wire|] && whole.rest == stream[|whole.wire|..]
    ensures var part := sent[|before|..];
            PartRead(part, whole, before, limit) && PartLeft(part, whole, stream, rest, sized)
  {
    var part := sent[|before|..];
    assert sent == before + part;
    assert part <= whole.wire;
    assert part == whole.wire <==> sent == before + whole.wire;
  }

  /** What a first try sends, keeps and leaves unread. */
  lemma {:induction false} FirstTry(before: Bytes, body: Bytes, whole: Coding.Relay, sent: Bytes, stream: Bytes, rest: Bytes,
                                    limit: nat, sized: bool)
    requires Delivered(before, whole, sent, stream, rest, limit)
    requires whole.result == Coding.Done ==> (whole.wire == [] <==> whole.rest == stream)
    requires sized ==> |whole.wire| <= |stream| && whole.wire == stream[..|whole.wire|] && whole.rest == stream[|whole.wire|..]
    ensures var kept := HeldBody(body, before, sent, limit);
            body <= kept &&
            var part := kept[|body|..];
            PartRead(part, whole, before, limit) && PartLeft(part, whole, stream, rest, sized) &&
            (|before| <= limit ==> sent == before + part)
  {
    var kept := HeldBody(body, before, sent, limit);
    var part := kept[|body|..];
    if |before| > limit {
      assert part == [] && stream[..0] == [] && stream[0..] == stream;
    } else if |before| + |whole.wire| <= limit {
      assert sent[|before|..] == whole.wire && part == whole.wire;
    } else {
      assert part == sent[|before|..];
      PartSent(before, whole, sent, stream, rest, limit, sized);
    }
  }

  /** A retry has nothing to read. */
  lemma {:induction false} LaterTry(before: Bytes, sent: Bytes, stream: Bytes, rest: Bytes, limit: nat)
    requires Delivered(before, Coding.Relay([], stream, Coding.Done), sent, stream, rest, limit)
    ensures rest == stream && (|before| <= limit ==> sent == before)
  {
    assert before + [] == before;
  }

  /** What relaying a body does to a stream. */
  lemma {:induction false} BodyShape(q: Facts, feed: Feed, stream: Bytes)
    ensures var whole := BodyOf(q, feed, stream);
            (whole.result == Coding.Done ==> (whole.wire == [] <==> whole.rest == stream)) &&
            (q.HasBody() && !q.chunking ==>
              var k := Coding.Min(q.contLen, |stream|);
              whole.wire == stream[..k] && whole.rest == stream[k..] && |whole.wire| == k)
  {
    hide Coding.Relayed;
    Body.RelayedConsumes(stream, feed.bufSize);
    if q.HasBody() && !q.chunking {
      var k := Coding.Min(q.contLen, |stream|);
      assert k == 0 ==> stream[0..] == stream;
      assert k > 0 ==> |stream[k..]| < |stream|;
    }
  }

  predicate Sized(q: Facts) {
    q.HasBody() && !q.chunking
  }

  /** What a first try over a connection does with the client's body: it is added to the kept one as far as it is read. */
  lemma {:induction false} FirstAttempt(t: Turn, s: Script)
    requires Ended(t, s) && t.rec.kind.Some? && !t.x.q.isConnect && !t.x.IsRetry()
    ensures t.x.body <= t.Kept(s)
    ensures var part, whole := t.Kept(s)[|t.x.body|..], t.x.Whole();
            PartRead(part, whole, t.Before(), s.limit) && PartLeft(part, whole, t.x.stream, t.rest, Sized(t.x.q)) &&
            (|t.Before()| <= s.limit ==> t.rec.sent == t.Before() + part)
  {
    hide Delivered, HeldBody, BodyOf, RequestError, SlotAfter, SendError, PartRead, PartLeft, PrologueOf, VerdictOf;
    BodyShape(t.x.q, t.x.feed, t.x.stream);
    FirstTry(t.Before(), t.x.body, t.x.Whole(), t.rec.sent, t.x.stream, t.rest, s.limit, Sized(t.x.q));
  }

  /** A retry sends header and kept body again, and reads nothing. */
  lemma {:induction false} RetryAttempt(t: Turn, s: Script)
    requires Ended(t, s) && t.rec.kind.Some? && !t.x.q.isConnect && t.x.IsRetry()
    ensures t.rest == t.x.stream && (|t.Before()| <= s.limit ==> t.rec.sent == t.Before())
  {
    hide Delivered, HeldBody, BodyOf, RequestError, SlotAfter, SendError, PrologueOf, VerdictOf;
    LaterTry(t.Before(), t.rec.sent, t.x.stream, t.rest, s.limit);
  }

  /** Another attempt follows exactly on a retry error with the buffer held, at one of the first tries or over a direct
      connection to a site with its own entry; at the last try the count is then reset. */
  lemma {:induction false} FollowedExactly(t: Turn, s: Script)
    requires Ended(t, s) && t.rec.kind.Some?
    ensures t.v == TryAgain <==>
              (if t.x.q.isConnect then t.ConnectEnd(s) else t.RequestEnd(s)) == Retry && t.held &&
              (t.x.tries < MAX_TRIES || (t.rec.kind == Some(Direct) && t.x.site.kind == Own))
  {
    hide RequestError, ConnectError, ConnectSent, Exchanged, PrologueOf;
  }

  /** What another attempt finds. */
  lemma {:induction false} RetryMeans(t: Turn, s: Script)
    requires Ended(t, s) && t.v == TryAgain
    ensures t.rec.kind.Some?
    ensures !t.x.q.isConnect ==>
              t.body == t.Kept(s) && t.RequestEnd(s) == Retry && (t.x.IsRetry() ==> t.body == t.x.body && t.rest == t.x.stream)
    ensures t.x.q.isConnect ==> t.slot == t.x.slot && t.rest == t.x.stream
  {
    hide Delivered, HeldBody, ConnectSent, RequestError, ConnectError, SlotAfter, PrologueOf;
    if !t.x.q.isConnect && t.x.IsRetry() { RetryAttempt(t, s); }
  }

  /** A WebSocket upgrade on a retry is the only thing that crashes: the connection accepts the request, and the answer is
      a 101 response that reaches the client. */
  lemma {:induction false} CrashMeans(t: Turn, s: Script)
    requires Ended(t, s)
    ensures t.v == Crashed <==>
              t.x.IsRetry() && t.rec.kind.Some? && !t.x.q.isConnect && |t.Before()| <= s.limit &&
              t.x.q.webSocket && Upgrades(s.answer)
  {
    hide Exchanged, ConnectSent, PrologueOf, BodyOf, GivenUp, IsParent, Extends;
  }

  /** The goroutine never comes back if and only if sendBodyChunked meets a size line without progress: while a body is
      skipped, while it is sent, or while a response is forwarded. */
  predicate NeverEnds(t: Turn, s: Script) {
    !t.x.q.isConnect &&
    if t.rec.kind.None? then t.x.Whole().result == Coding.Spins
    else
      |t.Before()| <= s.limit &&
      ((!t.x.IsRetry() && |t.Before()| + |t.x.Whole().wire| <= s.limit && t.x.Whole().result == Coding.Spins) ||
       (t.SendEnd(s) == Nil && s.answer.Answered? && s.answer.headerWritten && !(s.answer.switching && t.x.q.webSocket) &&
        s.answer.body.Endless?))
  }

  lemma {:induction false} HangMeans(t: Turn, s: Script)
    requires Ended(t, s)
    ensures t.v == Hangs <==> NeverEnds(t, s)
  {
    hide Exchanged, ConnectSent, PrologueOf, BodyOf, GivenUp, IsParent;
  }

  /** And then the slot stays taken if and only if the exchange had one, or got it at this try, and no header that is too
      large gave it back. */
  lemma {:induction false} HangKeepsSlot(t: Turn, s: Script)
    requires Ended(t, s) && t.v == Hangs
    ensures t.slot <==>
              (t.x.slot || (t.rec.kind.Some? && !t.x.IsRetry() && s.admitted)) &&
              !(t.rec.kind.Some? && t.SendEnd(s) == Nil && s.answer.Answered? && s.answer.tooLarge)
  {
    hide Delivered, HeldBody, ConnectSent, PrologueOf, BodyOf;
    HangMeans(t, s);
  }

  // ---------------------------------------------------------------- a whole run

  /** What attempt `i` of a run starts from: the try count is reset after every fourth. */
  function Opening(turns: seq<Turn>, i: nat, start: Situation): (x: Situation)
    requires i <= |turns|
  {
    if i == 0 then start
    else
      var t := turns[i - 1];
      start.(stock := t.stock, body := t.body, stream := t.rest, tries := i % MAX_TRIES + 1, slot := t.slot)
  }

  /** Attempt `i` of a run ends as its script says, and another one follows only if the verdict is to try again. */
  ghost predicate TurnOk(turns: seq<Turn>, i: nat, env: nat -> Script, start: Situation)
    requires i < |turns|
  {
    turns[i].x == Opening(turns, i, start) && Ended(turns[i], env(i)) && (i < |turns| - 1 ==> turns[i].v == TryAgain)
  }

  ghost predicate RunOk(turns: seq<Turn>, env: nat -> Script, start: Situation) {
    start.tries == 1 && forall i: nat :: i < |turns| ==> TurnOk(turns, i, env, start)
  }

  lemma {:induction false} RunGrows(turns: seq<Turn>, t: Turn, env: nat -> Script, start: Situation)
    requires RunOk(turns, env, start) && (turns != [] ==> turns[|turns| - 1].v == TryAgain)
    requires t.x == Opening(turns, |turns|, start) && Ended(t, env(|turns|))
    ensures RunOk(turns + [t], env, start)
  {
    hide Ended;
    var all := turns + [t];
    forall i: nat | i < |all|
      ensures TurnOk(all, i, env, start)
    {
      if i < |turns| { assert TurnOk(turns, i, env, start); }
    }
  }

  // ---------------------------------------------------------------- serving a request

  /** One round of the loop. */
  method Round(c: Client, r: Request, w: World, l: Ledger, env: nat -> Script, n: nat, ghost turns: seq<Turn>,
               ghost start: Situation) returns (v: Verdict, ghost turns': seq<Turn>)
    requires r.Valid() && r.raw.Some? && r.ResponseNotSent() && r.tryCnt == n % MAX_TRIES && n == |turns|
    requires After(c.trace) == Open && w.Valid() && Balanced(l, r) && c.reader.Valid()
    requires RunOk(turns, env, start) && (turns != [] ==> turns[n - 1].v == TryAgain)
    requires SituationOf(c, r, w, r.tryCnt + 1) == Opening(turns, n, start)
    modifies c`trace, c.reader, r`raw, r`partial, r`body, r`largest, r`state, r`plugin, r`tryCnt,
             w, l
    ensures Settles(w) && Balanced(l, r) && c.reader.Valid() && c.Attempts() == old(c.Attempts()) + 1
    ensures |turns'| == n + 1 && RunOk(turns', env, start) && turns'[n].v == v
    ensures turns'[n].rest == c.reader.Rest() && turns'[n].slot == r.plugin && turns'[n].stock == StockOf(w)
    ensures v == TryAgain ==>
              After(c.trace) == Open && r.Valid() && r.raw.Some? && r.ResponseNotSent() && r.tryCnt == (n + 1) % MAX_TRIES &&
              SituationOf(c, r, w, r.tryCnt + 1) == Opening(turns', n + 1, start) &&
              (r.tryCnt == 0 ==> w.Potential() < old(w.Potential()))
    ensures Tally(r.isConnect, n, v == TryAgain, old(c.Lines()), old(w.Doubt()), c.Lines(), w.Doubt())
    ensures Shown(c.trace, v)
  {
    hide After, Next, Ended, BodyOf, IsParent, RunOk, Request.Valid, Settles, Balanced, Tally, Balance, Shown;
    ghost var t;
    CountTries(n);
    assert Opening(turns, n, start).tries == n % MAX_TRIES + 1;
    v, t := TryOnce(c, r, w, l, env(n));
    ghost var lines, doubt := old(c.Lines()), old(w.Doubt());
    Tallied(t, env(n), n, lines, doubt, c.Lines(), w.Doubt());
    RunGrows(turns, t, env, start);
    turns' := turns + [t];
  }

  /** The 200 lines and what is left of the doubt, before and after round `n`: a line can come at a first try of a CONNECT
      only; one that is followed by a retry, and a reset, each cost a doubt. */
  predicate Tally(isConnect: bool, n: nat, again: bool, lines: nat, doubt: nat, lines': nat, doubt': nat) {
    lines' <= lines + (if isConnect && n % MAX_TRIES == 0 then 1 else 0) &&
    (again ==> lines' + doubt' + (if isConnect && n % MAX_TRIES == MAX_TRIES - 1 then 1 else 0) <= lines + doubt)
  }

  lemma {:induction false} Tallied(t: Turn, s: Script, n: nat, lines: nat, doubt: nat, lines': nat, doubt': nat)
    requires Ended(t, s) && t.x.tries == n % MAX_TRIES + 1
    requires exists blocked :: Balance(t, lines, doubt, lines', doubt', blocked)
    ensures Tally(t.x.q.isConnect, n, t.v == TryAgain, lines, doubt, lines', doubt')
  {
    hide Ended;
    if t.v == TryAgain {
      RetryMeans(t, s);
      FollowedExactly(t, s);
    }
  }

  lemma {:induction false} CountTries(n: nat)
    ensures if n % MAX_TRIES < MAX_TRIES - 1 then
              (n + 1) % MAX_TRIES == n % MAX_TRIES + 1 && (n + 1) / MAX_TRIES == n / MAX_TRIES
            else (n + 1) % MAX_TRIES == 0 && (n + 1) / MAX_TRIES == n / MAX_TRIES + 1
  {
  }

  function AtLeastOne(n: nat): (m: nat) {
    if n == 0 then 1 else n
  }

  /** The retry loop of serve for one request, with one script for each attempt. */
  method ServeRequest(c: Client, r: Request, w: World, l: Ledger, env: nat -> Script)
      returns (v: Verdict, ghost turns: seq<Turn>)
    requires r.Valid() && r.raw.Some? && r.state == Created && r.tryCnt == 0
    requires c.trace == [] && c.Attempts() == 0 && c.Lines() == 0 && c.reader.Valid()
    requires w.Valid() && Balanced(l, r)
    modifies c`trace, c.reader, r`raw, r`partial, r`body, r`largest, r`state, r`plugin, r`tryCnt,
             w, l
    ensures Settles(w) && Balanced(l, r) && c.reader.Valid() && v != TryAgain
    ensures Shown(c.trace, v)
    ensures turns != [] && RunOk(turns, env, old(SituationOf(c, r, w, 1))) && turns[|turns| - 1].v == v
    ensures turns[|turns| - 1].rest == c.reader.Rest() && turns[|turns| - 1].slot == r.plugin
    ensures turns[|turns| - 1].stock == StockOf(w)
    ensures c.Attempts() == |turns| <= MAX_TRIES * (old(w.Potential()) + 1)
    ensures c.Lines() <= AtLeastOne(old(w.Doubt())) && (!r.isConnect ==> c.Lines() == 0)
  {
    hide After, RunOk, Request.Valid, BodyOf, Shown;
    ghost var start := SituationOf(c, r, w, 1);
    turns, v := [], TryAgain;
    StartsOpen();
    assert Shown(c.trace, TryAgain) by { OpenIsShown(c.trace); }
    RunStarts(env, start);
    var n := 0;
    while v == TryAgain
      invariant c.reader.Valid() && w.Valid() && Balanced(l, r) && n == |turns| == c.Attempts()
      invariant v == TryAgain ==> r.Valid() && r.raw.Some? && r.ResponseNotSent() && r.tryCnt == n % MAX_TRIES
      invariant v == TryAgain ==> After(c.trace) == Open && SituationOf(c, r, w, r.tryCnt + 1) == Opening(turns, n, start)
      invariant RunOk(turns, env, start)
      invariant n > 0 ==> turns[n - 1].v == v && turns[n - 1].rest == c.reader.Rest() && turns[n - 1].slot == r.plugin
      invariant n > 0 ==> turns[n - 1].stock == StockOf(w)
      invariant n == 0 ==> v == TryAgain && c.Lines() == 0
      invariant Settles(w)
      invariant v == TryAgain ==> n / MAX_TRIES + w.Potential() <= old(w.Potential())
      invariant v == TryAgain ==> c.Lines() + w.Doubt() + (if r.isConnect then n / MAX_TRIES else 0) <= old(w.Doubt())
      invariant c.Lines() <= AtLeastOne(old(w.Doubt())) && (!r.isConnect ==> c.Lines() == 0)
      invariant n <= MAX_TRIES * (old(w.Potential()) + 1)
      invariant Shown(c.trace, v)
      decreases v == TryAgain, w.Potential(), MAX_TRIES - r.tryCnt
    {
      CountTries(n);
      v, turns := Round(c, r, w, l, env, n, turns, start);
      n := n + 1;
    }
  }

  lemma {:induction false} RunStarts(env: nat -> Script, start: Situation)
    requires start.tries == 1
    ensures RunOk([], env, start)
  {
  }

  lemma {:induction false} OpenIsShown(trace: seq<Event>)
    requires After(trace) == Open
    ensures Shown(trace, TryAgain)
  {
  }

  lemma {:induction false} StartsOpen()
    ensures After([]) == Open
  {
  }

  // ---------------------------------------------------------------- the whole connection

  /** What a client's stream begins with: nothing that can be parsed, a request that is refused, one for the proxy itself,
      or one to be served. `page` tells that a page answers the first three. */
  datatype Incoming =
    | Unparsable(page: bool)
    | Refused(q: Facts, page: bool)
    | Self(q: Facts, page: bool)
    | Servable(q: Facts)

  /** What parseRequest makes of a stream: how many bytes it takes, and what it finds. */
  datatype Parsed = Parsed(size: nat, what: Incoming)

  /** What a request meets outside: its site, the idle connections to it, what the other clients may do, and a script for
      each attempt. */
  datatype Outside = Outside(site: SiteKind, noParent: bool, alwaysProxy: bool, pooled: nat, blocked: bool, budget: nat,
                             env: nat -> Script) {
    predicate ParentEmpty() {
      noParent && site == AlwaysDirect
    }

    function AtFirst(): (k: Stock) {
      Stock(blocked && site == Own, budget, if site == AlwaysBlocked then 0 else pooled)
    }
  }

  function Behind(stream: Bytes, n: nat): (rest: Bytes) {
    stream[Coding.Min(n, |stream|)..]
  }

  /** parseRequest: the slot of the request before is given back, and the new header fills the buffer. */
  method ParseRequest(r: Request, l: Ledger, q: Facts)
    requires Balanced(l, r)
    modifies r, l`settled
    ensures Balanced(l, r) && !r.plugin && FactsOf(r) == q
    ensures r.Valid() && r.raw.Some? && r.state == Created && r.tryCnt == 0 && r.body == []
  {
    Settle(l, r);
    r.line, r.gen, r.fields := q.line, q.gen, q.fields;
    r.isConnect, r.contLen, r.chunking, r.webSocket := q.isConnect, q.contLen, q.chunking, q.webSocket;
    r.partial, r.state, r.tryCnt := false, Created, 0;
    r.body, r.largest := [], 0;
    r.raw := Some(q.line + q.gen + q.fields);
    ParsedIsValid(r);
  }

  lemma {:induction false} ParsedIsValid(r: Request)
    requires r.raw == Some(r.Head()) && r.body == [] && !r.partial && r.tryCnt == 0
    ensures r.Valid()
  {
    assert r.Head() + [] == r.Head();
  }

  method NewTrace(reader: Body.Reader) returns (c: Client)
    ensures fresh(c) && c.reader == reader && c.trace == [] && After(c.trace) == Open && c.Attempts() == 0 && c.Lines() == 0
  {
    c := new Client(reader);
    StartsOpen();
  }

  /** What became of one request of a connection: what the client saw, the verdict, the attempts, and the client's stream
      afterwards. */
  datatype Story = Story(trace: seq<Event>, verdict: Verdict, turns: seq<Turn>, rest: Bytes)

  function StartOf(q: Facts, feed: Feed, o: Outside, stream: Bytes): (x: Situation) {
    Situation(q, feed, Site(o.site, o.ParentEmpty(), o.alwaysProxy), o.AtFirst(), [], stream, 1, false)
  }

  /** The story of a request whose header is at the beginning of `stream`. */
  ghost predicate Told(st: Story, p: Parsed, o: Outside, feed: Feed, stream: Bytes) {
    After(st.trace) != Broken && st.verdict != TryAgain &&
    match p.what
    case Servable(q) =>
      Shown(st.trace, st.verdict) && Count(st.trace, Attempt) == |st.turns| &&
      st.turns != [] && RunOk(st.turns, o.env, StartOf(q, feed, o, Behind(stream, p.size))) &&
      st.turns[|st.turns| - 1].v == st.verdict && st.turns[|st.turns| - 1].rest == st.rest
    case Self(_, page) =>
      st == Story(if page then [Page] else [], if page then Close else NextRequest, [], Behind(stream, p.size))
    case _ =>
      st == Story(if p.what.page then [Page] else [], Close, [], Behind(stream, p.size))
  }

  /** The goroutine never came back, and its exchange has a slot. */
  predicate KeepsSlot(st: Story) {
    st.verdict == Hangs && st.turns != [] && st.turns[|st.turns| - 1].slot
  }

  /** The client's stream when request `i` is parsed. */
  function StreamAt(history: seq<Story>, i: nat, stream: Bytes): (s: Bytes)
    requires i <= |history|
  {
    if i == 0 then stream else history[i - 1].rest
  }

  /** Every request is parsed where the one before has left the stream, and all but the last lead to the next. */
  ghost predicate Chained(history: seq<Story>, parser: Bytes -> Parsed, next: nat -> Outside, feed: Feed, stream: Bytes) {
    forall i: nat :: i < |history| ==> Linked(history, i, parser, next(i), feed, stream)
  }

  ghost predicate Linked(history: seq<Story>, i: nat, parser: Bytes -> Parsed, o: Outside, feed: Feed, stream: Bytes)
    requires i < |history|
  {
    var here := StreamAt(history, i, stream);
    Told(history[i], parser(here), o, feed, here) && (i < |history| - 1 ==> history[i].verdict == NextRequest)
  }

  lemma {:induction false} ChainGrows(history: seq<Story>, st: Story, parser: Bytes -> Parsed, next: nat -> Outside,
                                      feed: Feed, stream: Bytes)
    requires Chained(history, parser, next, feed, stream)
    requires history != [] ==> history[|history| - 1].verdict == NextRequest
    requires var here := StreamAt(history, |history|, stream);
             Told(st, parser(here), next(|history|), feed, here)
    ensures Chained(history + [st], parser, next, feed, stream)
  {
    hide Told;
    var all := history + [st];
    forall i: nat | i < |all|
      ensures Linked(all, i, parser, next(i), feed, stream)
    {
      if i < |history| { assert Linked(history, i, parser, next(i), feed, stream); }
    }
  }

  /** serve: up to `limit` requests of one client, each parsed where the one before has left the stream. The deferred
      function gives back the slot, unless a call never returns. */
  method Serve(reader: Body.Reader, r: Request, l: Ledger, parser: Bytes -> Parsed, next: nat -> Outside, limit: nat)
      returns (v: Verdict, ghost history: seq<Story>)
    requires !r.plugin && l.begun == l.settled && reader.Valid()
    modifies reader, r, l
    ensures reader.Valid() && |history| <= limit && (0 < limit ==> 0 < |history|)
    ensures Chained(history, parser, next, Feed(reader.bufSize, reader.end), old(reader.Rest()))
    ensures 0 < |history| < limit ==> history[|history| - 1].verdict != NextRequest
    ensures 0 < |history| ==> v == history[|history| - 1].verdict
    ensures reader.Rest() == StreamAt(history, |history|, old(reader.Rest()))
    ensures var kept := history != [] && KeepsSlot(history[|history| - 1]);
            r.plugin == kept && l.begun == l.settled + if kept then 1 else 0
  {
    hide Told, Chained;
    history, v := [], NextRequest;
    ChainStarts(parser, next, Feed(reader.bufSize, reader.end), reader.Rest());
    ghost var stream0 := reader.Rest();
    for i := 0 to limit
      invariant Balanced(l, r) && reader.Valid() && |history| == i
      invariant Chained(history, parser, next, Feed(reader.bufSize, reader.end), stream0)
      invariant i > 0 ==> history[i - 1].verdict == NextRequest
      invariant reader.Rest() == StreamAt(history, i, stream0)
      invariant v == NextRequest
    {
      ghost var story;
      v, story := ServeNext(reader, r, l, parser(reader.Rest()), next(i));
      ChainGrows(history, story, parser, next, Feed(reader.bufSize, reader.end), stream0);
      history := history + [story];
      if v == Hangs { return; }
      if v != NextRequest { break; }
    }
    Settle(l, r);
  }

  lemma {:induction false} ChainStarts(parser: Bytes -> Parsed, next: nat -> Outside, feed: Feed, stream: Bytes)
    ensures Chained([], parser, next, feed, stream)
  {
  }

  method ServeNext(reader: Body.Reader, r: Request, l: Ledger, p: Parsed, o: Outside) returns (v: Verdict, ghost story: Story)
    requires Balanced(l, r) && reader.Valid()
    modifies reader, r, l
    ensures Balanced(l, r) && reader.Valid() && reader.Rest() == story.rest && story.verdict == v
    ensures Told(story, p, o, Feed(reader.bufSize, reader.end), old(reader.Rest()))
    ensures v == Hangs ==> r.plugin == KeepsSlot(story)
  {
    hide After, RunOk, Request.Valid, BodyOf, Settles;
    var c := NewTrace(reader);
    reader.Skip(Coding.Min(p.size, |reader.Rest()|));
    if p.what.Unparsable? {
      if p.what.page { c.Emit(Page); }
      return Close, Story(c.trace, Close, [], reader.Rest());
    }
    ParseRequest(r, l, p.what.q);
    if !p.what.Servable? {
      if p.what.page { c.Emit(Page); }
      v := if p.what.Self? && !p.what.page then NextRequest else Close;
      return v, Story(c.trace, v, [], reader.Rest());
    }
    var stock := o.AtFirst();
    var w := new World(o.site, o.ParentEmpty(), o.alwaysProxy, stock.pooled, stock.blocked, stock.budget);
    ghost var turns;
    v, turns := ServeRequest(c, r, w, l, o.env);
    story := Story(c.trace, v, turns, reader.Rest());
  }

  /** A request of a captured tunnel: parsed where the one before has left the stream, and sent once. */
  ghost predicate Captured(turns: seq<Turn>, i: nat, parser: Bytes -> Parsed, env: nat -> Script, stream: Bytes)
    requires i < |turns|
  {
    var t, here := turns[i], if i == 0 then stream else turns[i - 1].rest;
    var p := parser(here);
    !p.what.Unparsable? && t.x.q == p.what.q && t.x.stream == Behind(here, p.size) && t.x.body == [] && t.x.tries == 0 &&
    !t.x.slot && Exchanged(t, env(i)) && (i < |turns| - 1 ==> t.RequestEnd(env(i)) == Nil && env(i).keepAlive)
  }

  ghost predicate AllCaptured(turns: seq<Turn>, parser: Bytes -> Parsed, env: nat -> Script, stream: Bytes) {
    forall i: nat :: i < |turns| ==> Captured(turns, i, parser, env, stream)
  }

  lemma {:induction false} CapturedGrows(turns: seq<Turn>, t: Turn, parser: Bytes -> Parsed, env: nat -> Script, stream: Bytes)
    requires AllCaptured(turns, parser, env, stream) && Captured(turns + [t], |turns|, parser, env, stream)
    requires turns != [] ==>
               turns[|turns| - 1].RequestEnd(env(|turns| - 1)) == Nil && env(|turns| - 1).keepAlive
    ensures AllCaptured(turns + [t], parser, env, stream)
  {
    hide Exchanged, Turn.RequestEnd;
    var all := turns + [t];
    forall i: nat | i < |all|
      ensures Captured(all, i, parser, env, stream)
    {
      if i < |turns| { assert Captured(turns, i, parser, env, stream); }
    }
  }

  /** serveCapturedHTTP: the requests of a captured tunnel share one server connection and are never retried. */
  method ServeCaptured(reader: Body.Reader, r: Request, sv: ServerConn, w: World, l: Ledger, parser: Bytes -> Parsed,
                       env: nat -> Script, limit: nat) returns (hung: bool, ghost turns: seq<Turn>)
    requires !r.plugin && l.begun == l.settled && w.Valid() && Fits(sv, w) && reader.Valid()
    requires forall i :: env(i).limit == sv.limit
    modifies reader, r, sv, w, l
    ensures |turns| <= limit && AllCaptured(turns, parser, env, old(reader.Rest()))
    ensures hung <==> turns != [] && turns[|turns| - 1].RequestEnd(env(|turns| - 1)) == Spins
    ensures r.plugin == (hung && turns[|turns| - 1].slot) && l.begun == l.settled + if r.plugin then 1 else 0
    ensures turns == [] && 0 < limit ==> parser(old(reader.Rest())).what.Unparsable?
  {
    hide After, Exchanged, RequestError, Turn.RequestEnd, AllCaptured;
    assert AllCaptured([], parser, env, reader.Rest()) by { NoneCaptured(parser, env, reader.Rest()); }
    ghost var stream0 := reader.Rest();
    turns := [];
    var served := 0;
    while served < limit
      invariant !r.plugin && l.begun == l.settled && w.Valid() && reader.Valid() && |turns| == served <= limit
      invariant AllCaptured(turns, parser, env, stream0)
      invariant reader.Rest() == if served == 0 then stream0 else turns[served - 1].rest
      invariant served > 0 ==> turns[served - 1].RequestEnd(env(served - 1)) == Nil && env(served - 1).keepAlive
    {
      var p := parser(reader.Rest());
      if p.what.Unparsable? { return false, turns; }
      var s := env(served);
      ghost var t;
      var err;
      err, t := OneCaptured(reader, r, sv, w, l, p, s);
      CapturedGrows(turns, t, parser, env, stream0);
      turns := turns + [t];
      served := served + 1;
      if err == Spins { return true, turns; }
      Settle(l, r);
      if err != Nil || !s.keepAlive { return false, turns; }
    }
    hung := false;
  }

  lemma {:induction false} NoneCaptured(parser: Bytes -> Parsed, env: nat -> Script, stream: Bytes)
    ensures AllCaptured([], parser, env, stream)
  {
  }

  method OneCaptured(reader: Body.Reader, r: Request, sv: ServerConn, w: World, l: Ledger, p: Parsed, s: Script)
      returns (err: Err, ghost t: Turn)
    requires !r.plugin && l.begun == l.settled && w.Valid() && Fits(sv, w) && reader.Valid() && s.limit == sv.limit
    requires !p.what.Unparsable?
    modifies reader, r, sv, w`tempBlocked, l
    ensures w.Valid() && reader.Valid() && Balanced(l, r) && t.slot == r.plugin && t.rest == reader.Rest()
    ensures t.x.q == p.what.q && t.x.stream == Behind(old(reader.Rest()), p.size) && t.x.body == [] && t.x.tries == 0
    ensures !t.x.slot && Exchanged(t, s) && err == t.RequestEnd(s)
  {
    hide After, Extends, Delivered, RequestError, SendError, SlotAfter, HeldBody, BodyOf, PrologueOf, LooksBlocked, RetryMarks;
    hide Exchanged, Turn.RequestEnd, Turn.Suspected, Later, Request.Valid, Count;
    var c := NewTrace(reader);
    reader.Skip(Coding.Min(p.size, |reader.Rest()|));
    ParseRequest(r, l, p.what.q);
    sv.out := [];
    ghost var site := SiteOf(w).(kind := if sv.MaybeFake() then Own else AlwaysDirect);
    ghost var x := Situation(p.what.q, FeedOf(c), site, StockOf(w), [], reader.Rest(), 0, false);
    ghost var prologue, sent := r.Prologue(sv), [];
    ghost var fake := sv.MaybeFake();
    err, sent := DoRequest(c, r, sv, w, l, s, prologue + x.body, x.Plan());
    t := Outcome(x, Record(Some(sv.kind), prologue, sent, sv.out), Close, x.stock, c, r, w);
    AsExchanged(t, s, t.Before(), fake && LooksBlocked(w.parentEmpty, s.answer), fake, err);
  }
}
