/** The SOCKS5 client of parent_proxy.go talking to the SOCKS5 server of socks.go over a reliable stream that may
    cut messages anywhere. Whatever the credentials, the target and the interleaving, the two stay in lockstep. */
module Socks5Handshake {
  import opened Wire
  import opened Socks5Messages
  import opened Socks5Peers

  /** One direction of the connection. */
  datatype Pipe = Pipe(arrived: Bytes, inFlight: Bytes) {
    function All(): (b: Bytes) {
      arrived + inFlight
    }
  }

  datatype System = System(client: ClientState, server: ServerState, up: Pipe, down: Pipe)

  datatype Action = ClientActs | ServerActs | Dialed(outcome: DialOutcome) | DeliverUp(n: nat) | DeliverDown(n: nat)

  /** The client, the server and their configurations. */
  datatype Setup = Setup(net: Net, cc: ClientConfig, sc: ServerConfig) {
    ghost predicate Valid() {
      net.Valid() && cc.Valid()
    }
  }

  const INITIAL := System(ClientStart, ServerGreeting, Pipe([], []), Pipe([], []))

  function Consume(p: Pipe, n: nat): (r: Pipe)
    requires n <= |p.arrived|
  {
    Pipe(p.arrived[n..], p.inFlight)
  }

  function Send(p: Pipe, b: Bytes): (r: Pipe) {
    Pipe(p.arrived, p.inFlight + b)
  }

  function Deliver(p: Pipe, n: nat): (r: Option<Pipe>) {
    if 0 < n <= |p.inFlight| then Some(Pipe(p.arrived + p.inFlight[..n], p.inFlight[n..])) else None
  }

  /** A peer that failed has closed the connection; the other side sees that once everything has arrived. */
  function ClientTurn(u: Setup, s: System): (t: Option<Turn<ClientState>>)
    ensures t.Some? ==> t.value.used <= |s.down.arrived|
  {
    ClientStep(u.net, u.cc, s.client, s.down.arrived, s.server.ServerFailed? && s.down.inFlight == [])
  }

  function ServerTurn(u: Setup, s: System): (t: Option<Turn<ServerState>>)
    ensures t.Some? ==> t.value.used <= |s.up.arrived|
  {
    ServerStep(u.net, u.sc, s.server, s.up.arrived, s.client.ClientFailed? && s.up.inFlight == [])
  }

  function Next(u: Setup, s: System, a: Action): (r: Option<System>) {
    match a
    case ClientActs =>
      (match ClientTurn(u, s)
       case None => None
       case Some(t) => Some(System(t.next, s.server, Send(s.up, t.out), Consume(s.down, t.used))))
    case ServerActs =>
      (match ServerTurn(u, s)
       case None => None
       case Some(t) => Some(System(s.client, t.next, Consume(s.up, t.used), Send(s.down, t.out))))
    case Dialed(o) =>
      if !s.server.ServerDial? || !Possible(o) then None
      else
        var t := ServerDialed(u.net, s.server, o);
        Some(s.(server := t.next, down := Send(s.down, t.out)))
    case DeliverUp(n) => (match Deliver(s.up, n) case None => None case Some(p) => Some(s.(up := p)))
    case DeliverDown(n) => (match Deliver(s.down, n) case None => None case Some(p) => Some(s.(down := p)))
  }

  /** Runs: every state follows from the one before by some action. */
  ghost predicate Run(u: Setup, run: seq<System>) {
    run != [] && run[0] == INITIAL &&
    forall i, j :: 0 <= i && j == i + 1 < |run| ==> Follows(u, run[i], run[j])
  }

  ghost predicate Follows(u: Setup, s: System, s': System) {
    exists a :: Next(u, s, a) == Some(s')
  }

  // ---------------------------------------------------------------- what the handshake should decide

  /** Whether this server lets this client in. */
  predicate Authorised(u: Setup) {
    if u.cc.username == [] then u.sc.noAuth
    else Admits(u.sc, Credentials(u.cc.username, u.cc.password))
  }

  /** Whether the client can put its target on the wire. */
  predicate TargetOk(u: Setup) {
    u.cc.port.Some? && 0 <= u.cc.port.value <= 0xffff && AddressOf(u.net, u.cc.host).Some?
  }

  /** The host and port the client means are those the server connects to. */
  predicate SameTarget(u: Setup, host: Bytes, port: Word) {
    TargetOk(u) && port == u.cc.port.value && host == HostText(u.net, AddressOf(u.net, u.cc.host).value)
  }

  /** A reply that the client will read completely, with the given verdict. */
  predicate Answer(b: Bytes, ok: bool) {
    ReadReply(b).Got? && ReadReply(b).used == |b| && (ok <==> ReadReply(b).value == SUCCEEDED)
  }

  // ---------------------------------------------------------------- the invariant

  ghost predicate ChoiceMade(u: Setup, server: ServerState, up: Bytes, down: Bytes) {
    up == [] &&
    match server
    case ServerAuth => down == MethodReply(AUTH_USER_PASS) && u.cc.username != []
    case ServerRequest => down == MethodReply(AUTH_NONE) && u.cc.username == [] && Authorised(u)
    case ServerFailed(dialed) => down == MethodReply(AUTH_NO_ACCEPTABLE) && !Authorised(u) && !dialed
    case _ => false
  }

  ghost predicate PasswordJudged(u: Setup, server: ServerState, up: Bytes, down: Bytes) {
    match server
    case ServerAuth => up == AuthBytes(u.cc.username, u.cc.password) && down == []
    case ServerRequest => up == [] && down == StatusReply(0) && Authorised(u)
    case ServerFailed(dialed) => up == [] && down == StatusReply(1) && !Authorised(u) && !dialed
    case _ => false
  }

  ghost predicate RequestHandled(u: Setup, server: ServerState, up: Bytes, down: Bytes) {
    Authorised(u) && TargetOk(u) &&
    match server
    case ServerRequest => TargetBytes(u.net, u.cc) == Some(up) && down == []
    case ServerDial(h, p) => up == [] && down == [] && SameTarget(u, h, p)
    case ServerData(h, p) => up == [] && Answer(down, true) && SameTarget(u, h, p)
    case ServerFailed(dialed) => up == [] && Answer(down, false) && dialed
    case _ => false
  }

  /** The client gave up, and the server has or is about to. */
  ghost predicate GivenUp(u: Setup, server: ServerState, up: Bytes, down: Bytes) {
    up == [] &&
    match server
    case ServerRequest => down == [] && Authorised(u) && !TargetOk(u)
    case ServerFailed(dialed) => dialed <==> Authorised(u) && TargetOk(u)
    case _ => false
  }

  /** `up` and `down` are all the bytes that have been sent and not yet consumed. */
  ghost predicate Agree(u: Setup, client: ClientState, server: ServerState, up: Bytes, down: Bytes) {
    match client
    case ClientStart => server == ServerGreeting && up == [] && down == []
    case ClientMethod =>
      (server == ServerGreeting && up == GreetingBytes(u.cc.username) && down == []) ||
      ChoiceMade(u, server, up, down)
    case ClientAuth => u.cc.username != [] && PasswordJudged(u, server, up, down)
    case ClientReply => RequestHandled(u, server, up, down)
    case ClientData =>
      Authorised(u) && up == [] && down == [] && server.ServerData? && SameTarget(u, server.host, server.port)
    case ClientFailed => GivenUp(u, server, up, down)
  }

  ghost predicate Lockstep(u: Setup, s: System) {
    Agree(u, s.client, s.server, s.up.All(), s.down.All())
  }

  // ---------------------------------------------------------------- a turn on what has arrived is a turn on everything

  lemma {:induction false} Prefix(s: Bytes, t: Bytes, i: nat, j: nat)
    requires i <= j <= |s|
    ensures (s + t)[i..j] == s[i..j]
    ensures (s + t)[i..] == s[i..] + t
  {
  }

  lemma {:induction false} GreetingGrows(s: Bytes, t: Bytes)
    requires !ReadGreeting(s).Short?
    ensures ReadGreeting(s + t) == ReadGreeting(s)
  {
    var r := ReadGreeting(s);
    if r.Got? { Prefix(s, t, 2, r.used); }
  }

  lemma {:induction false} AuthGrows(s: Bytes, t: Bytes)
    requires !ReadAuth(s).Short?
    ensures ReadAuth(s + t) == ReadAuth(s)
  {
    var r := ReadAuth(s);
    if r.Got? {
      Prefix(s, t, 2, 2 + s[1] as nat);
      Prefix(s, t, 3 + s[1] as nat, r.used);
    }
  }

  lemma {:induction false} TargetGrows(atyp: Byte, s: Bytes, t: Bytes)
    requires !ReadTarget(atyp, s).Short?
    ensures ReadTarget(atyp, s + t) == ReadTarget(atyp, s)
  {
    var r := ReadAddress(atyp, s);
    if r.Got? {
      var n := r.used;
      Prefix(s, t, 0, n);
      if r.value.Domain? { Prefix(s, t, 1, n); }
      Prefix(s, t, n, n + 2);
    }
  }

  lemma {:induction false} RequestGrows(s: Bytes, t: Bytes)
    requires !ReadRequest(s).Short?
    ensures ReadRequest(s + t) == ReadRequest(s)
  {
    hide ReadTarget;
    Prefix(s, t, 4, 4);
    if !ReadTarget(s[3], s[4..]).Short? { TargetGrows(s[3], s[4..], t); }
  }

  lemma {:induction false} ReplyGrows(s: Bytes, t: Bytes)
    requires !ReadReply(s).Short?
    ensures ReadReply(s + t) == ReadReply(s)
  {
    hide ReadTarget;
    Prefix(s, t, 4, 4);
    if !ReadTarget(s[3], s[4..]).Short? { TargetGrows(s[3], s[4..], t); }
  }

  lemma {:induction false} ServerGrows(u: Setup, st: ServerState, s: Bytes, t: Bytes, eof: bool)
    requires ServerStep(u.net, u.sc, st, s, eof && t == []).Some?
    ensures ServerStep(u.net, u.sc, st, s + t, eof) == ServerStep(u.net, u.sc, st, s, eof && t == [])
  {
    hide ReadGreeting, ReadAuth, ReadRequest, ServerChooses, ServerAccepts, ErrorReply;
    if t == [] {
      assert s + t == s;
    } else {
      match st
      case ServerGreeting => GreetingGrows(s, t);
      case ServerAuth => AuthGrows(s, t);
      case ServerRequest => RequestGrows(s, t);
      case _ =>
    }
  }

  lemma {:induction false} ClientGrows(u: Setup, st: ClientState, s: Bytes, t: Bytes, eof: bool)
    requires ClientStep(u.net, u.cc, st, s, eof && t == []).Some?
    ensures ClientStep(u.net, u.cc, st, s + t, eof) == ClientStep(u.net, u.cc, st, s, eof && t == [])
  {
    hide ReadReply, ClientRequests, AuthBytes, GreetingBytes;
    if t == [] {
      assert s + t == s;
    } else {
      match st
      case ClientMethod => Prefix(s, t, 0, 2);
      case ClientReply => ReplyGrows(s, t);
      case _ =>
    }
  }

  lemma {:induction false} ConsumeAll(p: Pipe, n: nat)
    requires n <= |p.arrived|
    ensures Consume(p, n).All() == p.All()[n..]
  {
  }

  lemma {:induction false} SendAll(p: Pipe, b: Bytes)
    ensures Send(p, b).All() == p.All() + b
    ensures p.All() == [] ==> Send(p, b).All() == b
    ensures b == [] ==> Send(p, b).All() == p.All()
  {
  }

  lemma {:induction false} DeliverAll(p: Pipe, n: nat)
    requires Deliver(p, n).Some?
    ensures Deliver(p, n).value.All() == p.All()
  {
    assert p.inFlight[..n] + p.inFlight[n..] == p.inFlight;
  }

  // ---------------------------------------------------------------- every action keeps the invariant

  lemma {:induction false} TargetIsSent(u: Setup)
    ensures TargetOk(u) <==> TargetBytes(u.net, u.cc).Some?
  {
    hide AddressOf, AddressBytes, BigEndian;
  }

  /** The client sends its request, or cannot and gives up. */
  lemma {:induction false} RequestAgrees(u: Setup, t: Turn<ClientState>)
    requires t == ClientRequests(u.net, u.cc, 2) && Authorised(u)
    ensures Agree(u, t.next, ServerRequest, t.out, [])
  {
    hide TargetOk, TargetBytes, Authorised;
    TargetIsSent(u);
  }

  lemma {:induction false} ClientAgrees(u: Setup, client: ClientState, server: ServerState, up: Bytes, down: Bytes,
                                        t: Turn<ClientState>)
    requires Agree(u, client, server, up, down)
    requires ClientStep(u.net, u.cc, client, down, server.ServerFailed?) == Some(t)
    ensures Agree(u, t.next, server, up + t.out, down[t.used..])
  {
    hide ReadTarget, AuthBytes, GreetingBytes, Authorised, TargetOk, SameTarget, TargetBytes;
    assert [] + t.out == t.out && up + [] == up;
    assert t.used == |down| ==> down[t.used..] == [];
    if (client.ClientMethod? || client.ClientAuth?) && server.ServerRequest? {
      RequestAgrees(u, t);
    }
  }

  lemma {:induction false} ServerGreetingAgrees(u: Setup, t: Turn<ServerState>)
    requires ServerStep(u.net, u.sc, ServerGreeting, GreetingBytes(u.cc.username), false) == Some(t)
    ensures t.used == |GreetingBytes(u.cc.username)| && Agree(u, ClientMethod, t.next, [], t.out)
  {
    var b := GreetingBytes(u.cc.username);
    ReadGreetingBytes(u.cc.username, []);
    assert b + [] == b;
  }

  lemma {:induction false} ServerAuthAgrees(u: Setup, t: Turn<ServerState>)
    requires u.Valid() && u.cc.username != []
    requires ServerStep(u.net, u.sc, ServerAuth, AuthBytes(u.cc.username, u.cc.password), false) == Some(t)
    ensures t.used == |AuthBytes(u.cc.username, u.cc.password)| && Agree(u, ClientAuth, t.next, [], t.out)
  {
    hide ReadAuth, AuthBytes;
    var b := AuthBytes(u.cc.username, u.cc.password);
    ReadAuthBytes(u.cc.username, u.cc.password, []);
    assert b + [] == b;
  }

  lemma {:induction false} ServerRequestAgrees(u: Setup, up: Bytes, t: Turn<ServerState>)
    requires u.Valid() && Authorised(u) && TargetBytes(u.net, u.cc) == Some(up)
    requires ServerStep(u.net, u.sc, ServerRequest, up, false) == Some(t)
    ensures t.used == |up| && t.out == [] && Agree(u, ClientReply, t.next, [], [])
  {
    hide ReadRequest, RequestBytes, Authorised, HostText;
    TargetIsSent(u);
    ReadRequestBytes(u.net, u.cc.host, u.cc.port.value, []);
    assert up + [] == up;
  }

  lemma {:induction false} ServerAgrees(u: Setup, client: ClientState, server: ServerState, up: Bytes, down: Bytes,
                                        t: Turn<ServerState>)
    requires u.Valid() && Agree(u, client, server, up, down)
    requires ServerStep(u.net, u.sc, server, up, client.ClientFailed?) == Some(t)
    ensures Agree(u, client, t.next, up[t.used..], down + t.out)
  {
    hide ReadRequest, ReadAuth, ReadGreeting, ServerStep, Authorised, TargetOk, AuthBytes, GreetingBytes;
    hide TargetBytes, SameTarget;
    assert [] + t.out == t.out;
    assert t.used == |up| ==> up[t.used..] == [];
    match server
    case ServerGreeting =>
      if client.ClientMethod? { ServerGreetingAgrees(u, t); } else { ServerWaits(u, server); }
    case ServerAuth =>
      if client.ClientAuth? { ServerAuthAgrees(u, t); } else { ServerWaits(u, server); }
    case ServerRequest =>
      if client.ClientReply? { ServerRequestAgrees(u, up, t); } else { ServerWaits(u, server); }
    case _ => ServerWaits(u, server);
  }

  lemma {:induction false} ServerWaits(u: Setup, server: ServerState)
    ensures ServerStep(u.net, u.sc, server, [], false) == None
    ensures server == ServerRequest ==>
              ServerStep(u.net, u.sc, server, [], true) == Some(Turn(ServerFailed(false), 0, ErrorReply(u.net, GENERAL_ERROR)))
    ensures !Reading(server) ==> forall up, eof :: ServerStep(u.net, u.sc, server, up, eof) == None
  {
    hide ErrorReply;
  }

  /** Any action of either peer or of the network. */
  lemma {:induction false} LockstepKept(u: Setup, s: System, a: Action, s': System)
    requires u.Valid() && Lockstep(u, s) && Next(u, s, a) == Some(s')
    ensures Lockstep(u, s')
  {
    hide ClientStep, ServerStep, Agree, ServerDialed;
    match a
    case ClientActs =>
      var t := ClientTurn(u, s).value;
      ClientGrows(u, s.client, s.down.arrived, s.down.inFlight, s.server.ServerFailed?);
      ConsumeAll(s.down, t.used);
      SendAll(s.up, t.out);
      ClientAgrees(u, s.client, s.server, s.up.All(), s.down.All(), t);
    case ServerActs =>
      var t := ServerTurn(u, s).value;
      ServerGrows(u, s.server, s.up.arrived, s.up.inFlight, s.client.ClientFailed?);
      ConsumeAll(s.up, t.used);
      SendAll(s.down, t.out);
      ServerAgrees(u, s.client, s.server, s.up.All(), s.down.All(), t);
    case Dialed(o) =>
      SendAll(s.down, ServerDialed(u.net, s.server, o).out);
      DialAgrees(u, s.client, s.server, s.up.All(), s.down.All(), o);
    case DeliverUp(n) => DeliverAll(s.up, n);
    case DeliverDown(n) => DeliverAll(s.down, n);
  }

  lemma {:induction false} DialAgrees(u: Setup, client: ClientState, server: ServerState, up: Bytes, down: Bytes,
                                      o: DialOutcome)
    requires u.Valid() && Agree(u, client, server, up, down) && server.ServerDial? && Possible(o)
    ensures var t := ServerDialed(u.net, server, o);
            Agree(u, client, t.next, up, down + t.out)
  {
    hide ReplyBytes, ReadReply, Authorised, TargetOk, SameTarget;
    var t := ServerDialed(u.net, server, o);
    assert [] + t.out == t.out && t.out + [] == t.out;
    match o
    case DialOk(bound) => ReadReplyBytes(u.net, SUCCEEDED, bound, []);
    case DialFailed(code) => ReadReplyBytes(u.net, code, Bound(u.net.format(V4([0, 0, 0, 0])), 0), []);
  }

  lemma {:induction false} RunInLockstep(u: Setup, run: seq<System>, i: nat)
    requires u.Valid() && Run(u, run) && i < |run|
    ensures Lockstep(u, run[i])
  {
    hide Lockstep, Next;
    if i == 0 {
      InitialAgrees(u);
    } else {
      RunInLockstep(u, run, i - 1);
      assert Follows(u, run[i - 1], run[i]);
      var a :| Next(u, run[i - 1], a) == Some(run[i]);
      LockstepKept(u, run[i - 1], a, run[i]);
    }
  }

  lemma {:induction false} InitialAgrees(u: Setup)
    ensures Lockstep(u, INITIAL)
  {
  }

  // ---------------------------------------------------------------- what follows from it

  /** The client reaches the data phase only when the server let it in, connected to the same host and port and
      answered with success; and then no byte of the handshake is left in either direction. */
  lemma {:induction false} DataMeansConnected(u: Setup, run: seq<System>, i: nat)
    requires u.Valid() && Run(u, run) && i < |run| && run[i].client.ClientData?
    ensures run[i].server.ServerData? && SameTarget(u, run[i].server.host, run[i].server.port)
    ensures if u.cc.username == [] then u.sc.noAuth
            else u.cc.username in u.sc.users && u.sc.users[u.cc.username] == Account(u.cc.password, true)
    ensures run[i].up == Pipe([], []) && run[i].down == Pipe([], [])
  {
    hide SameTarget, Next;
    RunInLockstep(u, run, i);
  }

  /** What the server connects to denotes what the client asked for: a name arrives letter for letter, and the text
      of an IP address is that of the same address. */
  lemma {:induction false} SameDestination(u: Setup, host: Bytes, port: Word)
    requires u.Valid() && SameTarget(u, host, port)
    requires OPEN_BRACKET !in u.cc.host && CLOSE_BRACKET !in u.cc.host
    ensures AddressOf(u.net, host) == AddressOf(u.net, u.cc.host)
    ensures u.net.parse(TrimZone(u.cc.host)).None? ==> host == u.cc.host
  {
    assert TrimBrackets(u.cc.host) == u.cc.host;
    if u.net.parse(TrimZone(u.cc.host)).Some? {
      assert Plain(host) && TrimBrackets(host) == host && TrimZone(host) == host;
    }
  }

  /** Neither peer fails alone: a failed client never faces a server that relays data or still connects, and a
      server relaying data has a client that is there too, or has the whole success reply in front of it. */
  lemma {:induction false} FailTogether(u: Setup, run: seq<System>, i: nat)
    requires u.Valid() && Run(u, run) && i < |run|
    ensures run[i].client.ClientFailed? ==> run[i].server.ServerFailed? || (run[i].server.ServerRequest? && !TargetOk(u))
    ensures run[i].server.ServerFailed? ==> !run[i].client.ClientData?
    ensures run[i].server.ServerData? ==>
              run[i].client.ClientData? || (run[i].client.ClientReply? && Answer(run[i].down.All(), true))
    ensures !run[i].server.ServerUdp?
  {
    hide SameTarget, Authorised, Next, TargetOk, Answer;
    RunInLockstep(u, run, i);
  }

  /** No action is possible. */
  ghost predicate Stuck(u: Setup, s: System) {
    forall a :: Next(u, s, a) == None
  }

  predicate Finished(s: System) {
    (s.client.ClientData? && s.server.ServerData?) || (s.client.ClientFailed? && s.server.ServerFailed?)
  }

  /** A run can only stop with both peers in the data phase or both failed, and which of the two is decided by the
      credentials, the target and the connection to it. */
  lemma {:induction false} HandshakeDecides(u: Setup, run: seq<System>)
    requires u.Valid() && Run(u, run) && Stuck(u, run[|run| - 1])
    ensures var s := run[|run| - 1];
            (s.client.ClientData? && s.server.ServerData?) || (s.client.ClientFailed? && s.server.ServerFailed?)
    ensures var s := run[|run| - 1];
            s.client.ClientData? <==>
              (if u.cc.username == [] then u.sc.noAuth
               else u.cc.username in u.sc.users && u.sc.users[u.cc.username] == Account(u.cc.password, true)) &&
              u.cc.port.Some? && 0 <= u.cc.port.value <= 65535 &&
              (u.net.parse(TrimZone(TrimBrackets(u.cc.host))).Some? || 0 < |TrimBrackets(u.cc.host)| <= 255) &&
              s.server != ServerFailed(true)
  {
    hide Next, Answer;
    var s := run[|run| - 1];
    RunInLockstep(u, run, |run| - 1);
    if !Finished(s) {
      var a := Progress(u, s);
    }
  }

  /** Some action is possible until the handshake is over. */
  lemma {:induction false} Progress(u: Setup, s: System) returns (a: Action)
    requires u.Valid() && Lockstep(u, s) && !Finished(s)
    ensures Next(u, s, a).Some?
  {
    hide ServerStep, ClientStep, ServerDialed, Authorised, TargetOk, SameTarget, Agree;
    if s.up.inFlight != [] {
      a := DeliverUp(1);
    } else if s.down.inFlight != [] {
      a := DeliverDown(1);
    } else if s.server.ServerDial? {
      a := Dialed(DialFailed(GENERAL_ERROR));
    } else {
      assert s.up.All() == s.up.arrived && s.down.All() == s.down.arrived;
      var server := WhoActs(u, s.client, s.server, s.up.arrived, s.down.arrived);
      a := if server then ServerActs else ClientActs;
    }
  }

  lemma {:induction false} WhoActs(u: Setup, client: ClientState, server: ServerState, up: Bytes, down: Bytes)
      returns (serverActs: bool)
    requires u.Valid() && Agree(u, client, server, up, down) && !server.ServerDial?
    requires !(client.ClientData? && server.ServerData?) && !(client.ClientFailed? && server.ServerFailed?)
    ensures serverActs ==> ServerStep(u.net, u.sc, server, up, client.ClientFailed?).Some?
    ensures !serverActs ==> ClientStep(u.net, u.cc, client, down, server.ServerFailed?).Some?
  {
    hide ReadTarget, AuthBytes, GreetingBytes, ReadGreeting, ReadAuth, ReadRequest, Authorised;
    hide TargetOk, SameTarget, TargetBytes, ErrorReply;
    serverActs := true;
    match server
    case ServerGreeting =>
      if client.ClientMethod? { ReadGreetingBytes(u.cc.username, []); assert up + [] == up; } else { serverActs := false; }
    case ServerAuth =>
      if client.ClientAuth? { ReadAuthBytes(u.cc.username, u.cc.password,
          []); assert up + [] == up; } else { serverActs := false; }
    case ServerRequest =>
      if client.ClientReply? { RequestReadable(u, up); } else if !client.ClientFailed? { serverActs := false; }
    case _ => serverActs := false;
  }

  lemma {:induction false} RequestReadable(u: Setup, up: Bytes)
    requires u.Valid() && TargetBytes(u.net, u.cc) == Some(up)
    ensures ReadRequest(up).Got?
  {
    hide ReadRequest, RequestBytes;
    ReadRequestBytes(u.net, u.cc.host, u.cc.port.value, []);
    assert up + [] == up;
  }

  /** The states that remain before both peers. */
  function PhasesLeft(s: System): (n: nat) {
    ClientRank(s.client) + ServerRank(s.server)
  }

  /** Every action uses up a phase, or bytes in flight: no run is infinite. */
  lemma {:induction false} RunsShrink(u: Setup, s: System, a: Action, s': System)
    requires Next(u, s, a) == Some(s')
    ensures PhasesLeft(s') < PhasesLeft(s) ||
            (PhasesLeft(s') == PhasesLeft(s) &&
             |s'.up.inFlight| + |s'.down.inFlight| < |s.up.inFlight| + |s.down.inFlight|)
  {
    hide ClientStep, ServerStep, ReplyBytes, ErrorReply;
  }
}
