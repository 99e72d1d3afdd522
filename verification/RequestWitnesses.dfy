/** proxy.go: runs of the loop that show what goes wrong. */
module RequestWitnesses {
  import opened Wire
  import opened RequestTrace
  import opened RequestLoop
  import Coding = ChunkedCoding
  import Body = ChunkedBody
  import opened RequestRuns
  import opened RequestDecisions

  /** A request that has been tried `n` times and can be tried again. */
  ghost predicate At(c: Client, r: Request, w: World, l: Ledger, q: Facts, n: nat)
    reads c, c.reader, r, w, l
  {
    FactsOf(r) == q && r.Valid() && r.raw.Some? && r.ResponseNotSent() && r.tryCnt == n && c.reader.Valid() &&
    After(c.trace) == Open && w.Valid() && Balanced(l, r) && w.kind == Own && !w.parentEmpty && !w.alwaysProxy
  }

  /** What is needed for a run of one request to a site with its own entry, with these bytes behind the header. */
  method Scene(q: Facts, stream: Bytes, pooled: nat, budget: nat) returns (c: Client, r: Request, w: World, l: Ledger)
    ensures fresh(c) && fresh(r) && fresh(w) && fresh(l) && fresh(c.reader)
    ensures At(c, r, w, l, q, 0) && c.reader.Valid() && c.reader.Rest() == stream && r.body == [] && c.Lines() == 0
    ensures !w.tempBlocked && w.pooledDirect == pooled && w.budget == budget
  {
    hide After;
    var reader := new Body.Reader(stream, Body.HTTP_BUF_SIZE, Body.EndOfFile);
    c := NewTrace(reader);
    w := new World(Own, false, false, pooled, false, budget);
    r, l := NewRequest(q);
  }

  method NewRequest(q: Facts) returns (r: Request, l: Ledger)
    ensures fresh(r) && fresh(l) && Balanced(l, r) && FactsOf(r) == q && r.Valid() && r.raw.Some?
    ensures r.state == Created && r.tryCnt == 0 && r.body == [] && !r.plugin && l.begun == l.settled == 0
  {
    l := new Ledger();
    r := new Request(q);
    ParsedIsValid(r);
  }

  /** One attempt of such a run. */
  method TryScene(c: Client, r: Request, w: World, l: Ledger, q: Facts, n: nat, s: Script)
      returns (v: Verdict, ghost t: Turn)
    requires At(c, r, w, l, q, n) && n < MAX_TRIES && c.reader.Valid() && s.auth == [] && s.shared == None
    modifies c, c.reader, r, w, l
    ensures c.reader.Valid() && t.x == old(SituationOf(c, r, w, n + 1)) && t.x.q == q && t.x.site.kind == Own &&
            !t.x.site.parentEmpty
    ensures Ended(t, s) && t.v == v && t.body == r.body && t.rest == c.reader.Rest()
    ensures v == TryAgain ==> At(c, r, w, l, q, (n + 1) % MAX_TRIES)
    ensures t.x.stock == old(StockOf(w)) && t.stock == StockOf(w) && Later(t.was, t.stock, t.stock.blocked)
    ensures Placed(s, SiteOf(w), q.isConnect, t.x.stock, t.was, t.rec.kind)
    ensures Balance(t, old(c.Lines()), old(w.Doubt()), c.Lines(), w.Doubt(), w.tempBlocked)
    ensures w.kind == Own && !w.parentEmpty && !w.alwaysProxy
  {
    hide After, Ended, BodyOf, Placed, Balance, Shown, Next, IsParent, Request.Valid, GivenUp;
    CountTries(n);
    v, t := TryOnce(c, r, w, l, s);
    EndedMeans(t, s);
  }

  /** A tunnel in which nothing happens until the server is reset. */
  const SILENT := TunnelScript(true, [], ConnReset, [])

  /** A site that answers directly and has an HTTP parent; the connection accepts `limit` bytes. */
  function Plain(limit: nat, answer: Answer, tunnel: TunnelScript): (s: Script) {
    Script(Nothing, false, Some(HttpParent), true, false, None, [], limit, Some(Other), true, answer, tunnel, true)
  }

  /** Over a connection to such a site nothing comes before the body but a short header. */
  lemma {:induction false} ShortPrologue(t: Turn, s: Script)
    requires Ended(t, s) && s.auth == [] && ((IsParent(s.parent) && s.direct) || t.rec.kind.Some?)
    ensures t.rec.kind.Some? && |t.rec.prologue| <= |t.x.q.line| + |t.x.q.gen| + |t.x.q.fields|
    ensures t.x.q.line == t.x.q.gen ==> t.rec.prologue == t.x.q.gen + t.x.q.fields
    ensures |t.x.q.line| + |t.x.q.gen| + |t.x.q.fields| + |t.body| < 2 * Body.HTTP_BUF_SIZE ==> t.held
  {
    hide Exchanged, ConnectSent, VerdictOf;
    assert t.x.q.line + [] == t.x.q.line;
  }

  /** A server that closes without an answer: the next attempt starts behind what was read. */
  lemma {:induction false} EofRetries(t: Turn, s: Script)
    requires Ended(t, s) && t.rec.kind.Some? && !t.x.q.isConnect && t.x.Plan().result == Coding.Done
    requires t.x.tries < MAX_TRIES || (t.rec.kind == Some(Direct) && t.x.site.kind == Own)
    requires s.answer == NoAnswer(EOF) && |t.Before()| + |t.x.Plan().wire| <= s.limit
    ensures t.body == t.x.body + t.x.Plan().wire && t.rest == t.x.Plan().rest && (t.held ==> t.v == TryAgain)
  {
    hide PrologueOf, BodyOf, SlotAfter;
    FollowedExactly(t, s);
    assert t.rec.sent[|t.Before()|..] == t.x.Plan().wire;
  }

  const GET := Facts(false, false, 0, false, [71], [71], [10])

  /** A site that never answers a direct connection, and that a parent reaches. */
  function TimesOut(i: nat): (s: Script) {
    Plain(100, if i == 0 then NoAnswer(Timeout) else Answered(false, true, false, Complete), SILENT)
  }

  /** A GET over a direct connection that times out: the site is blocked, and the next attempt is answered through the
      parent. */
  method TimeoutGoesToParent() returns (v: Verdict, blocked: bool, ghost kinds: seq<Option<ConnKind>>)
    ensures v == NextRequest && blocked && kinds == [Some(Direct), Some(HttpParent)]
  {
    hide RunOk, TimesOut, Request.Valid, Shown;
    var reader := new Body.Reader([], Body.HTTP_BUF_SIZE, Body.EndOfFile);
    var c := NewTrace(reader);
    var w := new World(Own, false, false, 0, false, 0);
    var r, l := NewRequest(GET);
    ghost var start, turns := SituationOf(c, r, w, 1), [];
    v, turns := ServeRequest(c, r, w, l, TimesOut);
    TimeoutRun(turns, start);
    blocked := w.tempBlocked;
    kinds := [turns[0].rec.kind, turns[1].rec.kind];
  }

  lemma {:induction false} TimeoutRun(turns: seq<Turn>, start: Situation)
    requires RunOk(turns, TimesOut, start) && turns != [] && turns[|turns| - 1].v != TryAgain
    requires start.q == GET && start.body == [] && start.site == Site(Own, false, false) && start.stock == Stock(false, 0, 0)
    ensures |turns| == 2 && turns[0].rec.kind == Some(Direct) && turns[1].rec.kind == Some(HttpParent)
    ensures turns[1].v == NextRequest && turns[1].stock.blocked
  {
    hide Ended, BodyOf;
    var t := turns[0];
    assert TurnOk(turns, 0, TimesOut, start);
    RouteDecides(t, TimesOut(0));
    NothingToSend(t, TimesOut(0));
    Unfolded(t, TimesOut(0));
    SentMeans(t, TimesOut(0));
    NoAnswerDecides(t, TimesOut(0), Timeout);
    var u := turns[1];
    assert TurnOk(turns, 1, TimesOut, start);
    RouteDecides(u, TimesOut(1));
    NothingToSend(u, TimesOut(1));
    AnswerDecides(u, TimesOut(1));
  }

  lemma {:induction false} NothingToSend(t: Turn, s: Script)
    requires Ended(t, s) && t.x.q == GET && t.x.body == [] && t.rec.kind.Some? && s.limit == 100 && s.auth == []
    ensures FullySent(t, s)
    ensures !t.x.IsRetry() && t.RequestEnd(s) == Retry ==> t.body == [] && t.held
  {
    hide Placed, Noted, VerdictOf, RequestError;
    if !t.x.IsRetry() { FirstAttempt(t, s); }
  }

  const SOCKET := Facts(false, true, 0, false, [71], [71], [10])

  /** The server closes the first connection of a WebSocket request without an answer; the second one upgrades. */
  method RetriedUpgradeCrashes() returns (v: Verdict)
    ensures v == Crashed
  {
    hide At, Ended, Placed;
    var c, r, w, l := Scene(SOCKET, [], 0, 0);
    var first := Plain(100, NoAnswer(EOF), SILENT);
    ghost var t;
    v, t := TryScene(c, r, w, l, SOCKET, 0, first);
    ShortPrologue(t, first);
    EofRetries(t, first);
    var second := Plain(100, Answered(false, true, true, Complete), SILENT);
    v, t := TryScene(c, r, w, l, SOCKET, 1, second);
    ShortPrologue(t, second);
    CrashMeans(t, second);
  }

  /** A request with a body of this length. */
  function Post(size: nat): (q: Facts) {
    Facts(false, false, size, false, [71], [71], [10])
  }

  lemma {:induction false} PostPlan(feed: Feed, size: nat, stream: Bytes)
    requires 0 < size <= |stream|
    ensures BodyOf(Post(size), feed, stream) == Coding.Relay(stream[..size], stream[size..], Coding.Done)
  {
  }

  /** The first connection breaks inside the body. */
  lemma {:induction false} BreakRetries(t: Turn, s: Script)
    requires Ended(t, s) && t.rec.kind.Some? && !t.x.q.isConnect && !t.x.IsRetry() && t.x.body == []
    requires var n := |t.Before()|; n <= s.limit < n + |t.x.Whole().wire| && s.writeError.Some?
    requires t.x.Whole().result == Coding.Done
    ensures 0 < |t.Kept(s)| <= s.limit - |t.rec.prologue| + Body.HTTP_BUF_SIZE && (t.held ==> t.v == TryAgain)
    ensures t.v == TryAgain ==> t.body == t.Kept(s)
    ensures t.Kept(s) != t.x.Whole().wire ==> |t.Kept(s)| <= |t.x.stream| && t.rest == t.x.stream[|t.Kept(s)|..]
    ensures t.Kept(s) <= t.x.Whole().wire
    ensures t.body == t.Kept(s)
  {
    hide PrologueOf, BodyOf, SlotAfter;
    var part := t.rec.sent[|t.Before()|..];
    assert t.Before() == t.rec.prologue;
    assert t.rec.sent == t.Before() + part && [] + part == part;
  }

  const BLOCKS: nat := 3 * Body.HTTP_BUF_SIZE

  /** A POST of three blocks, followed by `more` bytes, after a first attempt over a connection that takes the header
      only: one block at most is kept. */
  method BrokenPost(more: nat) returns (c: Client, r: Request, w: World, l: Ledger, ghost stream: Bytes)
    ensures fresh(c) && fresh(r) && fresh(w) && fresh(l) && fresh(c.reader) && |stream| == BLOCKS + more
    ensures At(c, r, w, l, Post(BLOCKS), 1) && c.reader.Valid()
    ensures 0 < |r.body| <= Body.HTTP_BUF_SIZE && c.reader.Rest() == stream[|r.body|..]
  {
    hide At, Ended, Placed, BodyOf;
    var bytes: Bytes := seq(BLOCKS + more, i => 7);
    stream := bytes;
    c, r, w, l := Scene(Post(BLOCKS), bytes, 0, 0);
    var first := Plain(2, NoAnswer(EOF), SILENT);
    ghost var t;
    var v;
    PostPlan(FeedOf(c), BLOCKS, bytes);
    v, t := TryScene(c, r, w, l, Post(BLOCKS), 0, first);
    ShortPrologue(t, first);
    BreakRetries(t, first);
  }

  /** The second server accepts everything, and is sent one block at most, while the rest of the body is still to be
      read. */
  method RetriedBodyIsCut() returns (ghost out: Bytes, ghost kept: Bytes, unread: nat)
    ensures out == [71, 10] + kept && 0 < |kept| < BLOCKS && unread == BLOCKS - |kept|
  {
    hide At, Ended, Placed;
    var c, r, w, l;
    ghost var stream;
    c, r, w, l, stream := BrokenPost(0);
    kept, unread := r.body, |c.reader.Rest()|;
    var second := Plain(100000, Answered(false, true, false, Complete), SILENT);
    ghost var t;
    var v;
    v, t := TryScene(c, r, w, l, Post(BLOCKS), 1, second);
    ShortPrologue(t, second);
    RetryAttempt(t, second);
    out := t.rec.sent;
  }

  /** The same POST, followed by as many bytes of other requests, when the second attempt finds no server: after the page
      a whole body is skipped again, and with it bytes of what follows. */
  method RetriedPageSkipsTooMuch() returns (v: Verdict, left: nat)
    ensures v == NextRequest && left < BLOCKS
  {
    hide At, Ended, BodyOf;
    var c, r, w, l;
    ghost var stream;
    c, r, w, l, stream := BrokenPost(BLOCKS);
    var second := Plain(2, NoAnswer(EOF), SILENT).(parent := None, direct := false);
    PostPlan(FeedOf(c), BLOCKS, c.reader.Rest());
    ghost var t;
    v, t := TryScene(c, r, w, l, Post(BLOCKS), 1, second);
    left := |c.reader.Rest()|;
    PageSkips(t, second);
  }

  lemma {:induction false} PageSkips(t: Turn, s: Script)
    requires Ended(t, s) && t.rec.kind.None? && !t.x.q.isConnect && t.x.Whole().result == Coding.Done
    ensures t.v == NextRequest && t.rest == t.x.Whole().rest
  {
  }

  /** One attempt of a POST over an idle connection that the server has already closed. */
  method StaleTry(c: Client, r: Request, w: World, l: Ledger, n: nat)
    requires At(c, r, w, l, Post(1), n) && n < MAX_TRIES && c.reader.Valid() && w.pooledDirect > 0
    requires if n == 0 then r.body == [] && c.reader.Rest() == [7, 8] else r.body == [7] && c.reader.Rest() == [8]
    modifies c, c.reader, r, w, l
    ensures At(c, r, w, l, Post(1), (n + 1) % MAX_TRIES) && c.reader.Valid() && w.pooledDirect == old(w.pooledDirect) - 1
    ensures r.body == [7] && c.reader.Rest() == [8]
  {
    hide At, Ended, BodyOf, Routed, Undisturbed;
    var s := Plain(100, NoAnswer(EOF), SILENT).(idle := true);
    ghost var t;
    var v;
    if n == 0 {
      PostPlan(FeedOf(c), 1, c.reader.Rest());
      assert [7, 8][..1] == [7] && [7, 8][1..] == [8];
    }
    v, t := TryScene(c, r, w, l, Post(1), n, s);
    assert t.x.body + t.x.Plan().wire == [7] && t.x.Plan().rest == [8];
    ShortPrologue(t, s);
    EofRetries(t, s);
  }

  /** A POST of one byte, pipelined with another request, over four such connections: the count is reset, and the fifth
      server is sent the body followed by a byte of the next request. */
  method ResetSendsNextRequest() returns (ghost out: Bytes)
    ensures out == [71, 10] + [7] + [8]
  {
    hide At, Ended, Placed, BodyOf, PartLeft;
    var c, r, w, l := Scene(Post(1), [7, 8], 4, 0);
    StaleTry(c, r, w, l, 0);
    StaleTry(c, r, w, l, 1);
    StaleTry(c, r, w, l, 2);
    StaleTry(c, r, w, l, 3);
    var fifth := Plain(100, Answered(false, true, false, Complete), SILENT);
    PostPlan(FeedOf(c), 1, c.reader.Rest());
    ghost var t;
    var v;
    v, t := TryScene(c, r, w, l, Post(1), 0, fifth);
    ShortPrologue(t, fifth);
    FirstAttempt(t, fifth);
    out := t.rec.sent;
  }

  const TUNNEL := Facts(true, false, 0, false, [71], [71], [10])

  /** A direct tunnel that is reset before the server says anything, after these bytes of the client. */
  lemma {:induction false} ResetRetries(t: Turn, s: Script, p: Bytes)
    requires Ended(t, s) && t.rec.kind == Some(Direct) && t.x.q.isConnect && t.x.site.kind == Own && !t.x.site.parentEmpty
    requires s.tunnel == TunnelScript(true, if p == [] then [] else [FromClient(p)], ConnReset, [])
    requires |t.x.body| + |p| <= s.limit
    ensures t.body == t.x.body + p && (t.held ==> t.v == TryAgain)
  {
    hide PrologueOf, Exchanged;
    var k := s.tunnel;
    assert !ServerSpeaks(k);
    assert p != [] ==> k.steps[..0] == [] && ClientBytes(k.steps) == [] + p;
    assert [] + p == p && p + [] == p && Concat([]) == [];
  }

  /** A CONNECT whose direct tunnel is reset after a byte of the client, and which then goes through an HTTP parent: the
      parent is sent that byte twice. */
  method RetriedConnectSendsTwice() returns (ghost out: Bytes)
    ensures out == [71, 10] + [7] + [7]
  {
    hide At, Ended;
    var c, r, w, l := Scene(TUNNEL, [], 0, 0);
    var first := Plain(100, NoAnswer(EOF), TunnelScript(true, [FromClient([7])], ConnReset, []));
    ghost var t;
    var v;
    v, t := TryScene(c, r, w, l, TUNNEL, 0, first);
    ResetRetries(t, first, [7]);
    ShortPrologue(t, first);
    var second := Plain(100, NoAnswer(EOF), SILENT);
    v, t := TryScene(c, r, w, l, TUNNEL, 1, second);
    ShortPrologue(t, second);
    ParentGetsTwo(t, second);
    out := t.rec.out;
  }

  lemma {:induction false} ParentGetsTwo(t: Turn, s: Script)
    requires Ended(t, s) && t.rec.kind == Some(HttpParent) && t.x.q.isConnect && t.x.IsRetry()
    requires s.tunnel == SILENT && |t.rec.prologue| + 2 * |t.x.body| <= s.limit
    ensures t.rec.out == t.rec.prologue + t.x.body + t.x.body
  {
    hide PrologueOf, Exchanged;
    assert NewBytes(SILENT, true) == [] && NewBytes(SILENT, false) == [];
    assert t.rec.prologue + t.x.body + t.x.body + [] == t.rec.prologue + t.x.body + t.x.body;
  }

  /** A parent that does not even accept the header. */
  lemma {:induction false} DeafParentRetries(t: Turn, s: Script)
    requires Ended(t, s) && t.rec.kind == Some(HttpParent) && t.x.q.isConnect && t.x.tries < MAX_TRIES
    requires |t.rec.prologue| > s.limit
    ensures t.body == t.x.body && (t.held ==> t.v == TryAgain)
  {
    hide PrologueOf, Exchanged, NewBytes, TunnelError;
  }

  /** A CONNECT that is told of a tunnel twice. The first tunnel is reset, which blocks the site; a parent fails twice; the
      block expires, and a second tunnel is reset, which resets the count; now a SOCKS parent is found. */
  method ToldTwice() returns (ghost lines: nat)
    ensures lines == 2
  {
    hide At;
    var c, r, w, l := Scene(TUNNEL, [], 0, 1);
    var direct := Plain(100, NoAnswer(EOF), SILENT);
    DirectTunnel(c, r, w, l, 0, direct);
    DeafParent(c, r, w, l, 1);
    DeafParent(c, r, w, l, 2);
    DirectTunnel(c, r, w, l, 3, direct.(others := Expiry));
    SocksTunnel(c, r, w, l, direct.(parent := Some(Socks)));
    lines := c.Lines();
  }

  /** A blocked site, and a SOCKS parent. */
  method SocksTunnel(c: Client, r: Request, w: World, l: Ledger, s: Script)
    requires At(c, r, w, l, TUNNEL, 0) && c.reader.Valid() && w.tempBlocked
    requires s == Plain(100, NoAnswer(EOF), SILENT).(parent := Some(Socks))
    modifies c, c.reader, r, w, l
    ensures c.Lines() == old(c.Lines()) + 1
  {
    hide At, Ended;
    ghost var t;
    var v;
    v, t := TryScene(c, r, w, l, TUNNEL, 0, s);
  }

  /** A tunnel over a direct connection, to a site that is not blocked, or not any more, and which is reset at once. */
  method DirectTunnel(c: Client, r: Request, w: World, l: Ledger, n: nat, s: Script)
    requires At(c, r, w, l, TUNNEL, n) && n < MAX_TRIES && c.reader.Valid() && r.body == []
    requires s == Plain(100, NoAnswer(EOF), SILENT).(others := s.others)
    requires if w.tempBlocked then s.others == Expiry && w.budget > 0 else s.others == Nothing
    modifies c, c.reader, r, w, l
    ensures At(c, r, w, l, TUNNEL, (n + 1) % MAX_TRIES) && c.reader.Valid() && r.body == [] && w.tempBlocked
    ensures w.budget == old(w.budget) - if old(w.tempBlocked) then 1 else 0
    ensures c.Lines() == old(c.Lines()) + if n == 0 then 1 else 0
  {
    hide At, Ended;
    ghost var t;
    var v;
    v, t := TryScene(c, r, w, l, TUNNEL, n, s);
    ResetRetries(t, s, []);
    ShortPrologue(t, s);
  }

  /** A blocked site, and a parent that does not even accept the header. */
  method DeafParent(c: Client, r: Request, w: World, l: Ledger, n: nat)
    requires At(c, r, w, l, TUNNEL, n) && 0 < n < MAX_TRIES - 1 && c.reader.Valid() && r.body == [] && w.tempBlocked
    modifies c, c.reader, r, w, l
    ensures At(c, r, w, l, TUNNEL, n + 1) && c.reader.Valid() && r.body == [] && w.tempBlocked
    ensures w.budget == old(w.budget) && c.Lines() == old(c.Lines())
  {
    hide At, Ended;
    var s := Plain(0, NoAnswer(EOF), SILENT);
    ghost var t;
    var v;
    v, t := TryScene(c, r, w, l, TUNNEL, n, s);
    ShortPrologue(t, s);
    DeafParentRetries(t, s);
  }

  /** A first attempt that never ends, behind an admission: nothing follows, and the slot is not given back. */
  lemma {:induction false} HangsAtOnce(turns: seq<Turn>, env: nat -> Script, start: Situation)
    requires RunOk(turns, env, start) && turns != [] && !start.q.isConnect && start.body == []
    requires var s := env(0);
             IsParent(s.parent) && s.direct && s.auth == [] && s.admitted && !s.answer.NoAnswer? && !s.answer.tooLarge
    requires var q, whole := start.q, start.Whole();
             |q.line| + |q.gen| + |q.fields| + |whole.wire| <= env(0).limit &&
             (whole.result == Coding.Spins ||
              (whole.result == Coding.Done && env(0).answer == Answered(false, true, false, Endless)))
    ensures |turns| == 1 && turns[0].v == Hangs && turns[0].slot
  {
    hide Ended, BodyOf;
    var t := turns[0];
    assert TurnOk(turns, 0, env, start);
    ShortPrologue(t, env(0));
    assert t.Before() == t.rec.prologue;
    HangMeans(t, env(0));
    HangKeepsSlot(t, env(0));
  }

  const UPLOAD := Facts(false, false, 0, true, [71], [71], [10])
  const HEADER: Bytes := [71, 71, 10]
  const MINUS_SIX: Bytes := [MINUS, 54, CR, LF]

  /** The story of a connection whose first request meets this answer. */
  lemma {:induction false} StoryHangs(history: seq<Story>, q: Facts, feed: Feed, stream: Bytes, answer: Answer)
    requires |history| == 1 && Chained(history, Always(q), SameAnswer(answer), feed, HEADER + stream)
    requires Spinning(q, feed, stream, answer)
    ensures KeepsSlot(history[0])
  {
    hide RunOk, BodyOf;
    var parser, next := Always(q), SameAnswer(answer);
    assert Linked(history, 0, parser, next(0), feed, HEADER + stream);
    assert Behind(HEADER + stream, 3) == stream;
    HangsAtOnce(history[0].turns, next(0).env, StartOf(q, feed, next(0), stream));
  }

  predicate Spinning(q: Facts, feed: Feed, stream: Bytes, answer: Answer) {
    var whole := BodyOf(q, feed, stream);
    !q.isConnect && |q.line| + |q.gen| + |q.fields| <= 3 && answer.Answered? && !answer.tooLarge && |whole.wire| < 50 &&
    (whole.result == Coding.Spins || (whole.result == Coding.Done && answer == Answered(false, true, false, Endless)))
  }

  /** A stream that begins with this request. */
  function Always(q: Facts): (parser: Bytes -> Parsed) {
    (s: Bytes) => Parsed(3, Servable(q))
  }

  /** Every attempt meets this answer. */
  function SameAnswer(answer: Answer): (next: nat -> Outside) {
    (i: nat) => Outside(Own, false, false, 0, false, 0, (k: nat) => Plain(100, answer, SILENT))
  }

  /** One request of a connection whose every attempt meets this answer. */
  method ServeOne(q: Facts, stream: Bytes, answer: Answer) returns (v: Verdict, l: Ledger)
    requires Spinning(q, Feed(Body.HTTP_BUF_SIZE, Body.EndOfFile), stream, answer)
    ensures v == Hangs && l.begun == l.settled + 1
  {
    hide Spinning, Request.Valid, FactsOf;
    var reader := new Body.Reader(HEADER + stream, Body.HTTP_BUF_SIZE, Body.EndOfFile);
    var r;
    r, l := NewRequest(q);
    v := ServeFirst(reader, r, l, q, stream, answer);
  }

  method ServeFirst(reader: Body.Reader, r: Request, l: Ledger, q: Facts, stream: Bytes, answer: Answer) returns (v: Verdict)
    requires !r.plugin && l.begun == l.settled == 0 && reader.Valid() && reader.Rest() == HEADER + stream
    requires Spinning(q, Feed(reader.bufSize, reader.end), stream, answer)
    modifies reader, r, l
    ensures v == Hangs && l.begun == l.settled + 1
  {
    hide Chained, Spinning, Always, SameAnswer, KeepsSlot, StreamAt;
    ghost var history;
    v, history := Serve(reader, r, l, Always(q), SameAnswer(answer), 1);
    StoryHangs(history, q, Feed(reader.bufSize, reader.end), stream, answer);
    KeptMeansHangs(history[0]);
  }

  lemma {:induction false} KeptMeansHangs(st: Story)
    requires KeepsSlot(st)
    ensures st.verdict == Hangs
  {
  }

  /** A chunked request with a chunk size of minus six is never answered, and its slot is never given back. */
  method SpinningRequestKeepsSlot() returns (v: Verdict, l: Ledger)
    ensures v == Hangs && l.begun == l.settled + 1
  {
    SpinningUpload();
    v, l := ServeOne(UPLOAD, MINUS_SIX, Answered(false, true, false, Complete));
  }

  lemma {:induction false} SpinningUpload()
    ensures Spinning(UPLOAD, Feed(Body.HTTP_BUF_SIZE, Body.EndOfFile), MINUS_SIX, Answered(false, true, false, Complete))
  {
    Coding.MinusSixSpins([]);
    assert MINUS_SIX + [] == MINUS_SIX;
  }

  /** Nor is that of a request whose response has such a chunk. */
  method SpinningResponseKeepsSlot() returns (v: Verdict, l: Ledger)
    ensures v == Hangs && l.begun == l.settled + 1
  {
    v, l := ServeOne(Post(0), [], Answered(false, true, false, Endless));
  }
}
