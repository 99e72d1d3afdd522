/** The two copy loops of a tunnel (proxy.go: copyServer2Client, copyClient2Server, doConnect; socks.go: tunnel), as
    a transition system. A step is one load of a shared variable with what it decides, one store, one socket
    operation or one channel operation; what the network does is part of the step. */
module Tunnel {
  import opened Wire

  const HTTP_BUF_SIZE: nat := 8192

  datatype ReadError = EOF | ConnReset | Timeout | Other

  /** What does not change while the tunnel is open. */
  datatype Setup = Setup(
    direct: bool,        // the server connection is direct
    alwaysDirect: bool,  // its site is never considered blocked
    parentEmpty: bool,   // there is no parent proxy
    detectSslErr: bool,
    isRetry: bool,
    answered: bool,      // a WebSocket tunnel: the response header has gone to the client
    head: nat,           // the length of the request header in the buffer
    kept: Bytes,         // the bytes that an attempt before has kept behind it
    buffered: Bytes)     // what has already been read from the client

  /** The loop that copies from the server, and doConnect after it. */
  datatype ServerPc =
    | STop | SRead | SReadFailed(e: ReadError) | SBlocked | SWrite(p: Bytes) | SSetRequest | SSetServer
    | SNotify | SCloseClient | SCloseServer | SWait | SEnd

  /** The loop that copies from the client, and the end of its goroutine. */
  datatype ClientPc =
    | CReplay | CBuffered | CTop | CRead | CReadFailed(e: ReadError) | CMaybeSsl | CSslBlocked | CAsk(e: ReadError)
    | CStore(p: Bytes) | CSend(p: Bytes) | CLeave | CClose | CDone

  /** The bytes kept for a retry. */
  datatype Raw = Held(b: Bytes) | Released

  /** What has been read from either side, and what has been handed to the other. */
  datatype Flow = Flow(fromServer: Bytes, toClient: Bytes, fromClient: Bytes, toServer: Bytes)

  /** What both loops see of the exchange. */
  datatype Link = Link(
    delivered: bool,   // bytes of the server were written to the client
    svMoved: bool,     // sv.state has left svConnected
    rqMoved: bool)     // r.state has reached rsRecvBody

  datatype Buffer = Buffer(raw: Raw, partial: bool)

  /** How the client's loop waits and is told to stop. */
  datatype Waiting = Waiting(
    deadline: bool,    // the client connection has a read deadline
    notice: nat,       // what the notification channel holds
    consumed: nat,     // how many notices hasNotified took
    ignored: nat)      // read timeouts that did not end the loop although the notice had been sent

  datatype State = State(
    s: ServerPc, c: ClientPc,
    retry: bool,       // copyServer2Client returned a RetryError
    link: Link, buf: Buffer, wait: Waiting, flow: Flow,
    clientClosed: bool, serverClosed: bool,
    sslBlocked: bool)  // the site was blocked for an early close by the client

  function Initial(u: Setup): (s: State) {
    State(STop, CReplay, false, Link(u.answered, u.answered, u.answered),
          Buffer(if u.answered then Released else Held(u.kept), false), Waiting(false, 0, 0, 0), Flow([], [], [], []),
          false, false, false)
  }

  /** serverConn.maybeFake: one load of sv.state. */
  predicate MaybeFake(u: Setup, k: Link) {
    !k.svMoved && u.direct && !u.alwaysDirect
  }

  predicate MaybeBlocked(u: Setup, e: ReadError) {
    !u.parentEmpty && (e == Timeout || e == ConnReset)
  }

  /** What the network answers: bytes, an error; whether a write or a timing test succeeds. */
  datatype Input = Data(p: Bytes) | Fails(e: ReadError) | Yes | No

  /** The shared states only move forward. */
  predicate Onward(k: Link, k': Link) {
    (k.svMoved ==> k'.svMoved) && (k.rqMoved ==> k'.rqMoved) && (k.delivered ==> k'.delivered)
  }

  /** How far the client's loop is from its end when no more bytes come from the client. */
  function ClientRank(c: ClientPc): (n: nat) {
    match c
    case CReplay => 10
    case CBuffered => 9
    case CStore(_) => 9
    case CSend(_) => 8
    case CTop => 7
    case CRead => 6
    case CReadFailed(_) => 5
    case CMaybeSsl => 4
    case CSslBlocked => 3
    case CAsk(_) => 3
    case CLeave => 2
    case CClose => 1
    case CDone => 0
  }

  function ServerReads(u: Setup, s: State, i: Input): (r: Option<State>)
    ensures r.Some? ==> Onward(s.link, r.value.link)
  {
    match s.s
    case STop => Some(s.(s := SRead))
    case SRead =>
      (match i
       case Data(p) =>
         if s.serverClosed then None
         else Some(s.(s := SWrite(p), flow := s.flow.(fromServer := s.flow.fromServer + p)))
       case Fails(e) => Some(s.(s := SReadFailed(e)))
       case _ => None)
    case SReadFailed(e) =>
      if MaybeFake(u, s.link) && MaybeBlocked(u, e) then Some(s.(s := SBlocked)) else Some(s.(s := SCloseClient))
    case _ => None
  }

  function ServerRelays(s: State, i: Input): (r: Option<State>)
    ensures r.Some? ==> Onward(s.link, r.value.link)
  {
    match s.s
    case SWrite(p) =>
      Some(s.(s := if i == Yes then SSetRequest else SCloseClient, link := s.link.(delivered := true),
              flow := s.flow.(toClient := s.flow.toClient + p)))
    case SSetRequest => Some(s.(s := SSetServer, link := s.link.(rqMoved := true)))
    case SSetServer => Some(s.(s := STop, link := s.link.(svMoved := true)))
    case _ => None
  }

  function ServerEnds(s: State): (r: Option<State>)
    ensures r.Some? ==> Onward(s.link, r.value.link)
  {
    match s.s
    case SBlocked => Some(s.(s := SNotify, retry := true))
    case SNotify => if s.wait.notice < 1 then Some(s.(s := SWait, wait := s.wait.(notice := s.wait.notice + 1))) else None
    case SCloseClient => Some(s.(s := SCloseServer, clientClosed := true))
    case SCloseServer => Some(s.(s := SWait, serverClosed := true))
    case SWait => if s.c.CDone? then Some(s.(s := SEnd)) else None
    case _ => None
  }

  function ServerStep(u: Setup, s: State, i: Input): (r: Option<State>)
    ensures r.Some? ==> Onward(s.link, r.value.link)
  {
    if s.s.STop? || s.s.SRead? || s.s.SReadFailed? then ServerReads(u, s, i)
    else if s.s.SWrite? || s.s.SSetRequest? || s.s.SSetServer? then ServerRelays(s, i)
    else ServerEnds(s)
  }

  /** What serverWriter.Write does to the buffer, behind a header of that length. */
  function Stored(head: nat, b: Buffer, rqMoved: bool, p: Bytes): (r: Buffer)
    ensures (b.raw.Released? ==> b.partial || rqMoved) ==> (r.raw.Released? ==> r.partial || rqMoved)
  {
    match b.raw
    case Released => b
    case Held(kept) =>
      if head + |kept| >= 2 * HTTP_BUF_SIZE then Buffer(Released, true)
      else if !rqMoved then b.(raw := Held(kept + p))
      else b.(raw := Released)
  }

  /** A read of the client: it times out only under a deadline, and fails at once when the connection is closed. */
  predicate ClientReads(s: State, i: Input) {
    match i
    case Data(_) => !s.clientClosed
    case Fails(e) => e == Timeout ==> s.wait.deadline
    case _ => false
  }

  /** The notice has been sent. */
  predicate Told(p: ServerPc, retry: bool) {
    retry && (p.SWait? || p.SEnd?)
  }

  function ClientReading(u: Setup, s: State, i: Input): (r: Option<State>)
    ensures r.Some? ==> r.value.link == s.link
    ensures r.Some? && !i.Data? ==> ClientRank(r.value.c) < ClientRank(s.c)
  {
    match s.c
    case CTop => Some(s.(c := CRead, wait := s.wait.(deadline := MaybeFake(u, s.link))))
    case CRead =>
      if !ClientReads(s, i) then None
      else
        (match i
         case Data(p) => Some(s.(c := CStore(p), flow := s.flow.(fromClient := s.flow.fromClient + p)))
         case Fails(e) => Some(s.(c := CReadFailed(e)))
         case _ => None)
    case _ => None
  }

  /** A read that failed: an early close may be taken for a blocked site, a timeout may end the loop. */
  function ClientJudges(u: Setup, s: State, i: Input): (r: Option<State>)
    ensures r.Some? ==> r.value.link == s.link
    ensures r.Some? && s.c != CAsk(Timeout) ==> ClientRank(r.value.c) < ClientRank(s.c)
  {
    match s.c
    case CReadFailed(e) =>
      if u.detectSslErr && MaybeFake(u, s.link) && (e == ConnReset || e == EOF) then Some(s.(c := CMaybeSsl))
      else Some(s.(c := CAsk(e)))
    case CMaybeSsl => Some(s.(c := if s.link.svMoved && i == Yes then CSslBlocked else CAsk(EOF)))
    case CSslBlocked => Some(s.(c := CLeave, sslBlocked := true))
    case CAsk(e) => if e != Timeout then Some(s.(c := CLeave)) else Some(ClientAsks(s))
    case _ => None
  }

  /** hasNotified */
  function ClientAsks(s: State): (r: State)
    ensures r.link == s.link
    ensures s.wait.notice > 0 ==> r.c == CLeave
  {
    var w := s.wait;
    if w.notice > 0 then s.(c := CLeave, wait := w.(notice := w.notice - 1, consumed := w.consumed + 1))
    else s.(c := CTop, wait := w.(ignored := w.ignored + if Told(s.s, s.retry) then 1 else 0))
  }

  function ClientWrites(u: Setup, s: State, i: Input): (r: Option<State>)
    ensures r.Some? ==> r.value.link == s.link
    ensures r.Some? && !i.Data? ==> ClientRank(r.value.c) < ClientRank(s.c)
  {
    match s.c
    case CReplay =>
      if !u.isRetry then Some(s.(c := CBuffered))
      else Some(s.(c := if i == Yes then CBuffered else CLeave, flow := s.flow.(toServer := s.flow.toServer + u.kept)))
    case CBuffered =>
      if u.buffered == [] then Some(s.(c := CTop))
      else
        Some(s.(c := CSend(u.buffered), buf := Stored(u.head, s.buf, s.link.rqMoved, u.buffered),
                flow := s.flow.(fromClient := s.flow.fromClient + u.buffered)))
    case CStore(p) => Some(s.(c := CSend(p), buf := Stored(u.head, s.buf, s.link.rqMoved, p)))
    case CSend(p) => Some(s.(c := if i == Yes then CTop else CLeave, flow := s.flow.(toServer := s.flow.toServer + p)))
    case _ => None
  }

  function ClientEnds(s: State): (r: Option<State>)
    ensures r.Some? ==> r.value.link == s.link
    ensures r.Some? ==> ClientRank(r.value.c) < ClientRank(s.c)
  {
    match s.c
    case CLeave => Some(s.(c := CClose, wait := s.wait.(deadline := false)))
    case CClose => Some(s.(c := CDone, serverClosed := true))
    case _ => None
  }

  function ClientStep(u: Setup, s: State, i: Input): (r: Option<State>)
    ensures r.Some? ==> r.value.link == s.link
    ensures r.Some? && !i.Data? && s.c != CAsk(Timeout) ==> ClientRank(r.value.c) < ClientRank(s.c)
  {
    if s.c.CTop? || s.c.CRead? then ClientReading(u, s, i)
    else if s.c.CReadFailed? || s.c.CMaybeSsl? || s.c.CSslBlocked? || s.c.CAsk? then ClientJudges(u, s, i)
    else if s.c.CReplay? || s.c.CBuffered? || s.c.CStore? || s.c.CSend? then ClientWrites(u, s, i)
    else ClientEnds(s)
  }

  datatype Step = ByServer(i: Input) | ByClient(i: Input)

  function Next(u: Setup, s: State, a: Step): (r: Option<State>) {
    match a
    case ByServer(i) => ServerStep(u, s, i)
    case ByClient(i) => ClientStep(u, s, i)
  }

  ghost predicate Follows(u: Setup, s: State, s': State) {
    exists a :: Next(u, s, a) == Some(s')
  }

  ghost predicate Run(u: Setup, run: seq<State>) {
    run != [] && run[0] == Initial(u) && (u.answered ==> !u.isRetry) &&
    forall i, j :: 0 <= i && j == i + 1 < |run| ==> Follows(u, run[i], run[j])
  }

  // ---------------------------------------------------------------- the invariant

  predicate Fakeable(u: Setup) {
    u.direct && !u.alwaysDirect
  }

  /** What has been delivered, and what the shared states say about it. */
  predicate LinkInv(u: Setup, p: ServerPc, retry: bool, k: Link) {
    (p.SBlocked? || p.SNotify? ==> Fakeable(u) && !k.svMoved && !k.delivered) &&
    (retry ==> Fakeable(u) && !k.svMoved && !k.delivered && (p.SNotify? || p.SWait? || p.SEnd?)) &&
    (p.SNotify? ==> retry) &&
    (k.rqMoved ==> k.delivered) && (k.svMoved ==> k.rqMoved) &&
    (k.delivered && !k.rqMoved ==> p.SSetRequest? || p.SCloseClient? || p.SCloseServer? || p.SWait? || p.SEnd?) &&
    (k.rqMoved && !k.svMoved ==> p.SSetServer?) &&
    (p.SSetRequest? || p.SSetServer? ==> k.delivered) && (p.SSetServer? ==> k.rqMoved)
  }

  predicate CloseInv(p: ServerPc, c: ClientPc, retry: bool, clientClosed: bool, serverClosed: bool) {
    (!retry && (p.SCloseServer? || p.SWait? || p.SEnd?) ==> clientClosed) && (p.SEnd? ==> c.CDone?) &&
    (serverClosed <==> c.CDone? || (!retry && (p.SWait? || p.SEnd?)))
  }

  predicate DeadlineInv(u: Setup, c: ClientPc, k: Link, w: Waiting) {
    (c.CRead? && MaybeFake(u, k) ==> w.deadline) && (c.CClose? || c.CDone? ==> !w.deadline)
  }

  predicate Leaving(c: ClientPc) {
    c.CLeave? || c.CClose? || c.CDone?
  }

  predicate NoticeInv(p: ServerPc, c: ClientPc, retry: bool, w: Waiting) {
    w.notice + w.consumed == (if Told(p, retry) then 1 else 0) && (w.consumed > 0 ==> Leaving(c)) && w.ignored == 0
  }

  predicate SslInv(c: ClientPc, k: Link, sslBlocked: bool) {
    (c.CSslBlocked? || sslBlocked ==> k.svMoved) && (sslBlocked ==> Leaving(c))
  }

  /** What the client's loop has in hand: read, and not yet handed to the server. */
  function InHand(c: ClientPc): (b: Bytes) {
    match c
    case CStore(p) => p
    case CSend(p) => p
    case _ => []
  }

  /** What has been read on one side has been handed to the other, but for what is in hand; a retry begins with the bytes
      that were kept. A buffer that is held has them and all that has been read since, but for what is still to be
      stored. */
  predicate FlowInv(u: Setup, p: ServerPc, c: ClientPc, raw: Raw, k: Link, f: Flow) {
    ServerSide(p, k, f) && ClientSide(u, c, f) && BufferSide(u, c, raw, f)
  }

  predicate ClientSide(u: Setup, c: ClientPc, f: Flow) {
    if c.CReplay? then f.fromClient == [] && f.toServer == []
    else (if u.isRetry then u.kept else []) + f.fromClient == f.toServer + InHand(c)
  }

  predicate BufferSide(u: Setup, c: ClientPc, raw: Raw, f: Flow) {
    raw.Held? ==> u.kept + f.fromClient == raw.b + if c.CStore? then c.p else []
  }

  predicate Inv(u: Setup, s: State) {
    LinkInv(u, s.s, s.retry, s.link) && CloseInv(s.s, s.c, s.retry, s.clientClosed, s.serverClosed) &&
    DeadlineInv(u, s.c, s.link, s.wait) && NoticeInv(s.s, s.c, s.retry, s.wait) &&
    (s.buf.raw.Released? ==> s.buf.partial || s.link.rqMoved) && SslInv(s.c, s.link, s.sslBlocked)
  }

  lemma {:induction false} ReadsKeep(u: Setup, s: State, i: Input, s': State)
    requires Inv(u, s) && ServerReads(u, s, i) == Some(s')
    ensures Inv(u, s')
  {
    hide SslInv, DeadlineInv, MaybeBlocked;
  }

  lemma {:induction false} RelaysKeep(u: Setup, s: State, i: Input, s': State)
    requires Inv(u, s) && ServerRelays(s, i) == Some(s')
    ensures Inv(u, s')
  {
    hide MaybeBlocked;
  }

  lemma {:induction false} EndsKeep(u: Setup, s: State, s': State)
    requires Inv(u, s) && ServerEnds(s) == Some(s')
    ensures Inv(u, s')
  {
    hide SslInv;
  }

  lemma {:induction false} ReadingKeeps(u: Setup, s: State, i: Input, s': State)
    requires Inv(u, s) && ClientReading(u, s, i) == Some(s')
    ensures Inv(u, s')
  {
    hide LinkInv;
  }

  lemma {:induction false} AsksKeep(u: Setup, s: State)
    requires Inv(u, s) && s.c.CAsk?
    ensures Inv(u, ClientAsks(s))
  {
    hide LinkInv;
  }

  lemma {:induction false} JudgesKeep(u: Setup, s: State, i: Input, s': State)
    requires Inv(u, s) && ClientJudges(u, s, i) == Some(s')
    ensures Inv(u, s')
  {
    hide LinkInv, ClientAsks;
    if s.c.CAsk? { AsksKeep(u, s); }
  }

  lemma {:induction false} WritesKeep(u: Setup, s: State, i: Input, s': State)
    requires Inv(u, s) && ClientWrites(u, s, i) == Some(s')
    ensures Inv(u, s')
  {
    hide LinkInv, Stored;
  }

  lemma {:induction false} LeavingKeeps(u: Setup, s: State, s': State)
    requires Inv(u, s) && ClientEnds(s) == Some(s')
    ensures Inv(u, s')
  {
    hide LinkInv;
  }

  lemma {:induction false} InvKept(u: Setup, s: State, a: Step, s': State)
    requires Inv(u, s) && Next(u, s, a) == Some(s')
    ensures Inv(u, s')
  {
    hide Inv, ServerReads, ServerRelays, ServerEnds, ClientReading, ClientJudges, ClientWrites, ClientEnds;
    match a
    case ByServer(i) =>
      if s.s.STop? || s.s.SRead? || s.s.SReadFailed? { ReadsKeep(u, s, i, s'); }
      else if s.s.SWrite? || s.s.SSetRequest? || s.s.SSetServer? { RelaysKeep(u, s, i, s'); }
      else { EndsKeep(u, s, s'); }
    case ByClient(i) =>
      if s.c.CTop? || s.c.CRead? { ReadingKeeps(u, s, i, s'); }
      else if s.c.CReadFailed? || s.c.CMaybeSsl? || s.c.CSslBlocked? || s.c.CAsk? { JudgesKeep(u, s, i, s'); }
      else if s.c.CReplay? || s.c.CBuffered? || s.c.CStore? || s.c.CSend? { WritesKeep(u, s, i, s'); }
      else { LeavingKeeps(u, s, s'); }
  }

  lemma {:induction false} RunKeepsInv(u: Setup, run: seq<State>, k: nat)
    requires Run(u, run) && k < |run|
    ensures Inv(u, run[k])
  {
    hide Inv, Next;
    if k == 0 {
      InitialInv(u);
    } else {
      RunKeepsInv(u, run, k - 1);
      assert Follows(u, run[k - 1], run[k]);
      var a :| Next(u, run[k - 1], a) == Some(run[k]);
      InvKept(u, run[k - 1], a, run[k]);
    }
  }

  lemma {:induction false} InitialInv(u: Setup)
    ensures Inv(u, Initial(u))
  {
  }

  lemma {:induction false} Taken(a: Bytes, b: Bytes, c: Bytes, p: Bytes)
    requires a + b == c + []
    ensures a + (b + p) == c + p
  {
    assert a + (b + p) == a + b + p && c + [] == c;
  }

  lemma {:induction false} Handed(a: Bytes, b: Bytes, c: Bytes, p: Bytes)
    requires a + b == c + p
    ensures a + b == c + p + []
  {
  }

  /** A step of the server's loop leaves the client's side alone, and the other way round. */
  predicate ServerOnly(s: State, s': State) {
    s'.c == s.c && s'.buf == s.buf && s'.flow.fromClient == s.flow.fromClient && s'.flow.toServer == s.flow.toServer
  }

  predicate ClientOnly(s: State, s': State) {
    s'.s == s.s && s'.link == s.link && s'.flow.fromServer == s.flow.fromServer && s'.flow.toClient == s.flow.toClient
  }

  predicate ServerSide(p: ServerPc, k: Link, f: Flow) {
    f.fromServer == f.toClient + (if p.SWrite? then p.p else []) && (!k.delivered ==> f.toClient == [])
  }

  lemma {:induction false} ReadsFlow(u: Setup, s: State, i: Input, s': State)
    requires ServerSide(s.s, s.link, s.flow) && ServerReads(u, s, i) == Some(s')
    ensures ServerSide(s'.s, s'.link, s'.flow) && ServerOnly(s, s')
  {
    hide MaybeBlocked, MaybeFake;
    assert s.flow.toClient + [] == s.flow.toClient;
  }

  lemma {:induction false} RelaysFlow(s: State, i: Input, s': State)
    requires ServerSide(s.s, s.link, s.flow) && ServerRelays(s, i) == Some(s')
    ensures ServerSide(s'.s, s'.link, s'.flow) && ServerOnly(s, s')
  {
    if s.s.SWrite? { assert s.flow.toClient + s.s.p + [] == s.flow.toClient + s.s.p; }
  }

  lemma {:induction false} EndsFlow(s: State, s': State)
    requires ServerSide(s.s, s.link, s.flow) && ServerEnds(s) == Some(s')
    ensures ServerSide(s'.s, s'.link, s'.flow) && ServerOnly(s, s')
  {
  }

  lemma {:induction false} ReadingFlows(u: Setup, s: State, i: Input, s': State)
    requires ClientSide(u, s.c, s.flow) && BufferSide(u, s.c, s.buf.raw, s.flow) && ClientReading(u, s, i) == Some(s')
    ensures ClientSide(u, s'.c, s'.flow) && BufferSide(u, s'.c, s'.buf.raw, s'.flow) && ClientOnly(s, s')
  {
    hide MaybeFake;
    if s.c.CRead? && i.Data? {
      Taken(if u.isRetry then u.kept else [], s.flow.fromClient, s.flow.toServer, i.p);
      if s.buf.raw.Held? { Taken(u.kept, s.flow.fromClient, s.buf.raw.b, i.p); }
    }
  }

  /** The client's loop has nothing in hand, and is past its start. */
  predicate HandsFree(c: ClientPc) {
    !c.CReplay? && !c.CStore? && !c.CSend?
  }

  lemma {:induction false} JudgesFlow(u: Setup, s: State, i: Input, s': State)
    requires ClientJudges(u, s, i) == Some(s')
    ensures s'.flow == s.flow && s'.buf == s.buf && HandsFree(s.c) && HandsFree(s'.c) && ClientOnly(s, s')
  {
    hide MaybeFake, Told;
  }

  lemma {:induction false} LeavingFlows(s: State, s': State)
    requires ClientEnds(s) == Some(s')
    ensures s'.flow == s.flow && s'.buf == s.buf && HandsFree(s.c) && HandsFree(s'.c) && ClientOnly(s, s')
  {
  }

  lemma {:induction false} SidesStay(u: Setup, c: ClientPc, c': ClientPc, raw: Raw, f: Flow)
    requires HandsFree(c) && HandsFree(c')
    ensures ClientSide(u, c, f) == ClientSide(u, c', f) && BufferSide(u, c, raw, f) == BufferSide(u, c', raw, f)
  {
  }

  lemma {:induction false} WritesFlow(u: Setup, s: State, i: Input, s': State)
    requires ClientSide(u, s.c, s.flow) && ClientWrites(u, s, i) == Some(s')
    ensures ClientSide(u, s'.c, s'.flow) && ClientOnly(s, s')
  {
    hide Stored;
    var f := s.flow;
    var start := if u.isRetry then u.kept else [];
    match s.c
    case CReplay => assert start + [] == start && [] + start == start && start + [] == start + [] + [];
    case CBuffered => Taken(start, f.fromClient, f.toServer, u.buffered);
    case CSend(p) => Handed(start, f.fromClient, f.toServer, p);
    case _ =>
  }

  lemma {:induction false} WritesStore(u: Setup, s: State, i: Input, s': State)
    requires BufferSide(u, s.c, s.buf.raw, s.flow) && ClientWrites(u, s, i) == Some(s')
    ensures BufferSide(u, s'.c, s'.buf.raw, s'.flow)
  {
    if s.buf.raw.Held? {
      var f, b := s.flow, s.buf.raw.b;
      assert b + [] == b;
      match s.c
      case CBuffered =>
        Taken(u.kept, f.fromClient, b, u.buffered);
        Handed(u.kept, f.fromClient + u.buffered, b, u.buffered);
      case CStore(p) => Handed(u.kept, f.fromClient, b, p);
      case _ =>
    }
  }

  lemma {:induction false} FlowKept(u: Setup, s: State, a: Step, s': State)
    requires FlowInv(u, s.s, s.c, s.buf.raw, s.link, s.flow) && Next(u, s, a) == Some(s')
    ensures FlowInv(u, s'.s, s'.c, s'.buf.raw, s'.link, s'.flow)
  {
    hide ServerReads, ServerRelays, ServerEnds, ClientReading, ClientJudges, ClientWrites, ClientEnds, ClientSide, BufferSide;
    match a
    case ByServer(i) =>
      if s.s.STop? || s.s.SRead? || s.s.SReadFailed? { ReadsFlow(u, s, i, s'); }
      else if s.s.SWrite? || s.s.SSetRequest? || s.s.SSetServer? { RelaysFlow(s, i, s'); }
      else { EndsFlow(s, s'); }
      SidesAlone(u, s, s');
    case ByClient(i) =>
      if s.c.CTop? || s.c.CRead? { ReadingFlows(u, s, i, s'); }
      else if s.c.CReadFailed? || s.c.CMaybeSsl? || s.c.CSslBlocked? || s.c.CAsk? {
        JudgesFlow(u, s, i, s');
        SidesStay(u, s.c, s'.c, s.buf.raw, s.flow);
      } else if s.c.CReplay? || s.c.CBuffered? || s.c.CStore? || s.c.CSend? {
        WritesFlow(u, s, i, s');
        WritesStore(u, s, i, s');
      }
      else {
        LeavingFlows(s, s');
        SidesStay(u, s.c, s'.c, s.buf.raw, s.flow);
      }
  }

  lemma {:induction false} SidesAlone(u: Setup, s: State, s': State)
    requires ServerOnly(s, s')
    ensures ClientSide(u, s.c, s.flow) ==> ClientSide(u, s'.c, s'.flow)
    ensures BufferSide(u, s.c, s.buf.raw, s.flow) ==> BufferSide(u, s'.c, s'.buf.raw, s'.flow)
  {
  }

  lemma {:induction false} RunKeepsFlow(u: Setup, run: seq<State>, k: nat)
    requires Run(u, run) && k < |run|
    ensures FlowInv(u, run[k].s, run[k].c, run[k].buf.raw, run[k].link, run[k].flow)
  {
    hide FlowInv, Next;
    if k == 0 {
      InitialFlow(u);
    } else {
      RunKeepsFlow(u, run, k - 1);
      assert Follows(u, run[k - 1], run[k]);
      var a :| Next(u, run[k - 1], a) == Some(run[k]);
      FlowKept(u, run[k - 1], a, run[k]);
    }
  }

  lemma {:induction false} InitialFlow(u: Setup)
    ensures var s := Initial(u); FlowInv(u, s.s, s.c, s.buf.raw, s.link, s.flow)
  {
    assert u.kept + [] == u.kept;
  }

  // ---------------------------------------------------------------- what follows from it

  /** In every interleaving the client has been handed what was read from the server, but for what is in hand; and the
      server, on a retry behind the bytes that were kept, what was read from the client. */
  lemma {:induction false} BytesAreRelayed(u: Setup, run: seq<State>, k: nat)
    requires Run(u, run) && k < |run|
    ensures var f := run[k].flow;
            f.fromServer == f.toClient + (match run[k].s case SWrite(p) => p case _ => []) &&
            (if u.isRetry && run[k].c != CReplay then u.kept else []) + f.fromClient ==
              f.toServer + (match run[k].c case CStore(p) => p case CSend(p) => p case _ => [])
  {
    hide Next;
    RunKeepsFlow(u, run, k);
  }

  /** A retry that follows such a tunnel has, in a buffer that is held, all that was ever read from the client. */
  lemma {:induction false} BufferHasAll(u: Setup, run: seq<State>, k: nat)
    requires Run(u, run) && k < |run| && run[k].buf.raw.Held?
    ensures var kept := run[k].buf.raw.b;
            u.kept + run[k].flow.fromClient == kept + (match run[k].c case CStore(p) => p case _ => [])
  {
    hide Next;
    RunKeepsFlow(u, run, k);
  }

  /** Nothing reaches the client unnoted. */
  lemma {:induction false} DeliveryIsNoted(u: Setup, run: seq<State>, k: nat)
    requires Run(u, run) && k < |run|
    ensures run[k].flow.toClient != [] ==> run[k].link.delivered
  {
    hide Next;
    RunKeepsFlow(u, run, k);
  }

  /** A run in which the server answers: its bytes reach the client, and both states have moved. */
  lemma {:induction false} AnswerArrives(u: Setup, p: Bytes) returns (run: seq<State>)
    requires !u.answered
    ensures (u.answered ==> !u.isRetry) && Run(u, run)
    ensures var s := run[|run| - 1];
            s.s == STop && s.link == Link(true, true, true) && s.flow.fromServer == p && s.flow.toClient == p
  {
    var s0 := Initial(u);
    var s1 := s0.(s := SRead);
    var s2 := s1.(s := SWrite(p), flow := s1.flow.(fromServer := [] + p));
    var s3 := s2.(s := SSetRequest, link := s2.link.(delivered := true), flow := s2.flow.(toClient := [] + p));
    var s4 := s3.(s := SSetServer, link := s3.link.(rqMoved := true));
    var s5 := s4.(s := STop, link := s4.link.(svMoved := true));
    run := [s0, s1, s2, s3, s4, s5];
    assert Next(u, s0, ByServer(Yes)) == Some(s1);
    assert Next(u, s1, ByServer(Data(p))) == Some(s2);
    assert Next(u, s2, ByServer(Yes)) == Some(s3);
    assert Next(u, s3, ByServer(Yes)) == Some(s4);
    assert Next(u, s4, ByServer(Yes)) == Some(s5);
    assert [] + p == p;
  }

  /** A retry finds nothing of the server's side delivered, both shared states where they were, and the buffer held
      unless it was given up for its size. A tunnel whose response header went to the client is never retried. */
  lemma {:induction false} RetryIsClean(u: Setup, run: seq<State>, k: nat)
    requires Run(u, run) && k < |run| && run[k].retry
    ensures run[k].link == Link(false, false, false) && !u.answered
    ensures run[k].buf.raw.Held? || run[k].buf.partial
    ensures Fakeable(u)
  {
    hide Next;
    RunKeepsInv(u, run, k);
    LinkMovesOn(u, run, 0, k);
  }

  lemma {:induction false} LinkMovesOn(u: Setup, run: seq<State>, i: nat, j: nat)
    requires Run(u, run) && i <= j < |run|
    ensures Onward(run[i].link, run[j].link)
    decreases j
  {
    hide Follows;
    if i < j {
      LinkMovesOn(u, run, i, j - 1);
      assert Follows(u, run[j - 1], run[j]);
      StepMovesOn(u, run[j - 1], run[j]);
    }
  }

  lemma {:induction false} StepMovesOn(u: Setup, s: State, s': State)
    requires Follows(u, s, s')
    ensures Onward(s.link, s'.link)
  {
    hide ServerStep, ClientStep;
    var a :| Next(u, s, a) == Some(s');
  }

  /** While a retry is pending the client's loop never waits without a deadline. */
  lemma {:induction false} NeverStarves(u: Setup, run: seq<State>, k: nat)
    requires Run(u, run) && k < |run| && run[k].retry && run[k].c == CRead
    ensures run[k].wait.deadline && ClientStep(u, run[k], Fails(Timeout)) == Some(run[k].(c := CReadFailed(Timeout)))
  {
    hide Next;
    RunKeepsInv(u, run, k);
  }

  /** The first read timeout after the notice ends the loop, takes the notice, and no timeout is ever ignored. */
  lemma {:induction false} FirstTimeoutEnds(u: Setup, run: seq<State>, k: nat, i: Input)
    requires Run(u, run) && k < |run|
    ensures run[k].wait.ignored == 0 && run[k].wait.consumed <= 1 && run[k].wait.notice <= 1
    ensures Told(run[k].s, run[k].retry) && run[k].c == CAsk(Timeout) ==>
              ClientStep(u, run[k], i) ==
                Some(run[k].(c := CLeave, wait := run[k].wait.(notice := 0, consumed := 1)))
  {
    hide Next;
    RunKeepsInv(u, run, k);
  }

  /** Sending the notice never blocks, and no read deadline is left on the client connection for the next attempt. */
  lemma {:induction false} LeavesNothingBehind(u: Setup, run: seq<State>, k: nat)
    requires Run(u, run) && k < |run|
    ensures run[k].s == SNotify ==> ServerEnds(run[k]).Some?
    ensures run[k].s == SEnd ==> run[k].c == CDone
    ensures run[k].c == CDone ==> !run[k].wait.deadline
  {
    hide Next;
    RunKeepsInv(u, run, k);
  }

  /** An early close by the client marks the site only when the server answered in the meantime; such a tunnel is
      not retried. */
  lemma {:induction false} SslBlockNeedsAnswer(u: Setup, run: seq<State>, k: nat)
    requires Run(u, run) && k < |run| && run[k].sslBlocked
    ensures run[k].link.svMoved && run[k].link.delivered && !run[k].retry
  {
    hide Next;
    RunKeepsInv(u, run, k);
  }

  /** The client's loop is about to write to the server. */
  predicate Writing(u: Setup, c: ClientPc) {
    (c.CReplay? && u.isRetry) || c.CSend?
  }

  /** A step that needs nothing from either peer. A write to the server has no deadline, and fails at once only when the
      connection has been closed. */
  predicate OnItsOwn(u: Setup, s: State, a: Step) {
    match a
    case ByServer(i) => i.Yes? || i.No?
    case ByClient(i) =>
      if Writing(u, s.c) then i.No? && s.serverClosed
      else i.Yes? || i.No? || (i == Fails(Timeout) && s.wait.deadline) || (i == Fails(Other) && s.clientClosed)
  }

  predicate CanGoOn(u: Setup, s: State, a: Step) {
    Next(u, s, a).Some? && OnItsOwn(u, s, a)
  }

  /** Once the server's loop has ended, the tunnel closes down without waiting for a peer, except for a write to the server
      when a retry is pending: then the server connection is still open, and doConnect waits for the write. */
  lemma {:induction false} ClosesDown(u: Setup, run: seq<State>, k: nat)
    requires Run(u, run) && k < |run|
    requires run[k].s in {SBlocked, SNotify, SCloseClient, SCloseServer, SWait}
    ensures (exists a :: CanGoOn(u, run[k], a)) <==> !(run[k].s == SWait && run[k].retry && Writing(u, run[k].c))
  {
    hide Stored, LinkInv;
    var s := run[k];
    RunKeepsInv(u, run, k);
    if s.s != SWait || s.c == CDone {
      assert s.s == SNotify ==> s.wait.notice < 1 by { LeavesNothingBehind(u, run, k); }
      assert CanGoOn(u, s, ByServer(Yes));
    } else if Writing(u, s.c) {
      if s.retry {
        assert forall a :: !CanGoOn(u, s, a);
      } else {
        assert CanGoOn(u, s, ByClient(No));
      }
    } else if s.c == CRead {
      if s.retry { NeverStarves(u, run, k); }
      assert CanGoOn(u, s, ByClient(Fails(if s.retry then Timeout else Other)));
    } else {
      assert CanGoOn(u, s, ByClient(Yes));
    }
  }

  /** That state is reached: bytes of the client are on their way when the server is reset. */
  lemma {:induction false} WriteHoldsUp(u: Setup, p: Bytes) returns (run: seq<State>)
    requires Fakeable(u) && !u.parentEmpty && !u.answered && !u.isRetry && u.buffered == []
    ensures Run(u, run) && var s := run[|run| - 1]; s.s == SWait && s.retry && s.c == CSend(p)
  {
    var s0 := Initial(u);
    var s1 := s0.(c := CBuffered);
    var s2 := s1.(c := CTop);
    var s3 := s2.(c := CRead, wait := s2.wait.(deadline := true));
    var s4 := s3.(c := CStore(p), flow := s3.flow.(fromClient := [] + p));
    var s5 := s4.(c := CSend(p), buf := Stored(u.head, s4.buf, false, p));
    assert Next(u, s0, ByClient(Yes)) == Some(s1);
    assert Next(u, s1, ByClient(Yes)) == Some(s2);
    assert Next(u, s2, ByClient(Yes)) == Some(s3);
    assert Next(u, s3, ByClient(Data(p))) == Some(s4);
    assert Next(u, s4, ByClient(Yes)) == Some(s5);
    var rest := ResetEnds(u, s5);
    run := [s0, s1, s2, s3, s4] + rest;
    forall i, j | 0 <= i && j == i + 1 < |run| ensures Follows(u, run[i], run[j]) {
      if i >= 5 { assert run[i] == rest[i - 5] && run[j] == rest[j - 5]; }
    }
  }

  /** The server's loop, from its start, when the server is reset. */
  lemma {:induction false} ResetEnds(u: Setup, s: State) returns (run: seq<State>)
    requires Fakeable(u) && !u.parentEmpty && s.s == STop && !s.link.svMoved && s.wait.notice == 0
    ensures |run| == 6 && run[0] == s && run[5] == s.(s := SWait, retry := true, wait := s.wait.(notice := 1))
    ensures forall i, j :: 0 <= i && j == i + 1 < |run| ==> Follows(u, run[i], run[j])
  {
    var s1 := s.(s := SRead);
    var s2 := s1.(s := SReadFailed(ConnReset));
    var s3 := s2.(s := SBlocked);
    var s4 := s3.(s := SNotify, retry := true);
    var s5 := s4.(s := SWait, wait := s4.wait.(notice := 1));
    run := [s, s1, s2, s3, s4, s5];
    assert Next(u, s, ByServer(Yes)) == Some(s1);
    assert Next(u, s1, ByServer(Fails(ConnReset))) == Some(s2);
    assert Next(u, s2, ByServer(Yes)) == Some(s3);
    assert Next(u, s3, ByServer(Yes)) == Some(s4);
    assert Next(u, s4, ByServer(Yes)) == Some(s5);
  }

  /** After the notice every step of the client's loop that does not read more bytes brings it closer to its end. */
  lemma {:induction false} ToldMeansEnding(u: Setup, run: seq<State>, k: nat, i: Input, s': State)
    requires Run(u, run) && k < |run| && Told(run[k].s, run[k].retry)
    requires !i.Data? && ClientStep(u, run[k], i) == Some(s')
    ensures ClientRank(s'.c) < ClientRank(run[k].c) <= 10
  {
    hide Next, LinkInv, CloseInv, SslInv, ClientReading, ClientWrites, ClientEnds, ClientAsks;
    RunKeepsInv(u, run, k);
    if run[k].c == CAsk(Timeout) {
      assert s' == ClientAsks(run[k]);
    }
  }
}
