/** Both ends of the SOCKS5 handshake: the server of socks.go and the client of parent_proxy.go, each as a
    function of what has arrived and as the method that reads and writes a connection. */
module Socks5Peers {
  import opened Wire
  import opened Socks5Messages

  /** What a peer does with its input: its next state, how much it consumed, and what it wrote. */
  datatype Turn<S> = Turn(next: S, used: nat, out: Bytes)

  // ---------------------------------------------------------------- server

  /** A configured user; `portOk` says whether authPort admits the port the client connected to. */
  datatype Account = Account(password: Bytes, portOk: bool)

  datatype ServerConfig = ServerConfig(noAuth: bool, users: map<Bytes, Account>)

  datatype ServerState =
    | ServerGreeting
    | ServerAuth
    | ServerRequest
    | ServerUdp
    | ServerDial(host: Bytes, port: Word)
    | ServerData(host: Bytes, port: Word)
    | ServerFailed(dialed: bool)

  predicate Reading(s: ServerState) {
    s.ServerGreeting? || s.ServerAuth? || s.ServerRequest?
  }

  predicate Admits(cfg: ServerConfig, cred: Credentials) {
    cred.user in cfg.users && cfg.users[cred.user].password == cred.password && cfg.users[cred.user].portOk
  }

  function MethodReply(m: Byte): (b: Bytes) {
    [VERSION, m]
  }

  function StatusReply(status: Byte): (b: Bytes) {
    [USER_PASS_VERSION, status]
  }

  /** writeSocks5Reply without an address. */
  function ErrorReply(net: Net, code: Byte): (b: Bytes) {
    ReplyBytes(net, code, Bound(net.format(V4([0, 0, 0, 0])), 0))
  }

  function ServerChooses(cfg: ServerConfig, methods: Bytes, used: nat): (t: Turn<ServerState>) {
    if cfg.noAuth && AUTH_NONE in methods then Turn(ServerRequest, used, MethodReply(AUTH_NONE))
    else if |cfg.users| > 0 && AUTH_USER_PASS in methods then Turn(ServerAuth, used, MethodReply(AUTH_USER_PASS))
    else Turn(ServerFailed(false), used, MethodReply(AUTH_NO_ACCEPTABLE))
  }

  function ServerAccepts(net: Net, r: Request, used: nat): (t: Turn<ServerState>) {
    if r.cmd == CMD_UDP then Turn(ServerUdp, used, [])
    else Turn(ServerDial(HostText(net, r.target.address), r.target.port), used, [])
  }

  /** One message of the client, once it is complete or known never to be; None while the server waits. */
  function ServerStep(net: Net, cfg: ServerConfig, s: ServerState, inbox: Bytes, eof: bool): (t: Option<Turn<ServerState>>)
    ensures t.Some? ==> t.value.used <= |inbox|
    ensures t.Some? && !t.value.next.ServerFailed? ==> 0 < t.value.used
    ensures eof && Reading(s) ==> t.Some?
    ensures t.Some? ==> ServerRank(t.value.next) < ServerRank(s)
  {
    match s
    case ServerGreeting =>
      (match ReadGreeting(inbox)
       case Short => if eof then Some(Turn(ServerFailed(false), 0, [])) else None
       case Bad(_) => Some(Turn(ServerFailed(false), 0, []))
       case Got(methods, n) => Some(ServerChooses(cfg, methods, n)))
    case ServerAuth =>
      (match ReadAuth(inbox)
       case Short => if eof then Some(Turn(ServerFailed(false), 0, [])) else None
       case Bad(_) => Some(Turn(ServerFailed(false), 0, StatusReply(1)))
       case Got(cred, n) =>
         if Admits(cfg, cred) then Some(Turn(ServerRequest, n, StatusReply(0)))
         else Some(Turn(ServerFailed(false), n, StatusReply(1))))
    case ServerRequest =>
      (match ReadRequest(inbox)
       case Short => if eof then Some(Turn(ServerFailed(false), 0, ErrorReply(net, GENERAL_ERROR))) else None
       case Bad(code) => Some(Turn(ServerFailed(false), 0, ErrorReply(net, code)))
       case Got(r, n) => Some(ServerAccepts(net, r, n)))
    case _ => None
  }

  /** Connecting to the target: the address of the new connection, or the code that describes the failure. */
  datatype DialOutcome = DialOk(bound: Bound) | DialFailed(code: Byte)

  predicate Possible(o: DialOutcome) {
    o.DialFailed? ==> o.code != SUCCEEDED
  }

  function ServerDialed(net: Net, s: ServerState, o: DialOutcome): (t: Turn<ServerState>)
    requires s.ServerDial?
  {
    match o
    case DialOk(bound) => Turn(ServerData(s.host, s.port), 0, ReplyBytes(net, SUCCEEDED, bound))
    case DialFailed(code) => Turn(ServerFailed(true), 0, ErrorReply(net, code))
  }

  function ServerRank(s: ServerState): (n: nat)
    ensures Reading(s) ==> n >= 2
  {
    match s
    case ServerGreeting => 4
    case ServerAuth => 3
    case ServerRequest => 2
    case ServerDial(_, _) => 1
    case _ => 0
  }

  /** The whole handshake against a client that sends `inbox` and then closes. */
  function ServerRun(net: Net, cfg: ServerConfig, s: ServerState, inbox: Bytes): (t: Turn<ServerState>)
    ensures t.used <= |inbox|
    ensures !Reading(t.next)
    decreases ServerRank(s)
  {
    if !Reading(s) then Turn(s, 0, [])
    else
      var t := ServerStep(net, cfg, s, inbox, true).value;
      var u := ServerRun(net, cfg, t.next, inbox[t.used..]);
      Turn(u.next, t.used + u.used, t.out + u.out)
  }

  // ---------------------------------------------------------------- client

  /** A socks parent and the target of one connect; `port` is what Atoi makes of the URL's port. */
  datatype ClientConfig = ClientConfig(username: Bytes, password: Bytes, host: Bytes, port: Option<int>) {
    /** What parsing the configuration guarantees (config.go:275-285). */
    predicate Valid() {
      |username| <= 255 && |password| <= 255
    }
  }

  datatype ClientState = ClientStart | ClientMethod | ClientAuth | ClientReply | ClientData | ClientFailed

  function TargetBytes(net: Net, cfg: ClientConfig): (r: Option<Bytes>) {
    if cfg.port.None? || cfg.port.value < 0 || cfg.port.value > 0xffff then None
    else RequestBytes(net, cfg.host, cfg.port.value)
  }

  function ClientRequests(net: Net, cfg: ClientConfig, used: nat): (t: Turn<ClientState>) {
    match TargetBytes(net, cfg)
    case None => Turn(ClientFailed, used, [])
    case Some(b) => Turn(ClientReply, used, b)
  }

  predicate MethodAccepted(cfg: ClientConfig, b: Bytes)
    requires |b| == 2
  {
    b[0] == VERSION && (b[1] == AUTH_NONE || b[1] == AUTH_USER_PASS) &&
    (b[1] == AUTH_USER_PASS <==> cfg.username != [])
  }

  function ClientStep(net: Net, cfg: ClientConfig, s: ClientState, inbox: Bytes, eof: bool): (t: Option<Turn<ClientState>>)
    ensures t.Some? ==> t.value.used <= |inbox|
    ensures eof && !s.ClientData? && !s.ClientFailed? ==> t.Some?
    ensures t.Some? ==> ClientRank(t.value.next) < ClientRank(s)
  {
    match s
    case ClientStart => Some(Turn(ClientMethod, 0, GreetingBytes(cfg.username)))
    case ClientMethod =>
      if |inbox| < 2 then if eof then Some(Turn(ClientFailed, 0, [])) else None
      else if !MethodAccepted(cfg, inbox[..2]) then Some(Turn(ClientFailed, 2, []))
      else if inbox[1] == AUTH_USER_PASS then Some(Turn(ClientAuth, 2, AuthBytes(cfg.username, cfg.password)))
      else Some(ClientRequests(net, cfg, 2))
    case ClientAuth =>
      if |inbox| < 2 then if eof then Some(Turn(ClientFailed, 0, [])) else None
      else if inbox[0] != USER_PASS_VERSION || inbox[1] != 0 then Some(Turn(ClientFailed, 2, []))
      else Some(ClientRequests(net, cfg, 2))
    case ClientReply =>
      (match ReadReply(inbox)
       case Short => if eof then Some(Turn(ClientFailed, 0, [])) else None
       case Bad(_) => Some(Turn(ClientFailed, 0, []))
       case Got(code, n) => Some(Turn(if code == SUCCEEDED then ClientData else ClientFailed, n, [])))
    case _ => None
  }

  function ClientRank(s: ClientState): (n: nat)
    ensures n > 0 <==> !s.ClientData? && !s.ClientFailed?
  {
    match s
    case ClientStart => 4
    case ClientMethod => 3
    case ClientAuth => 2
    case ClientReply => 1
    case _ => 0
  }

  function ClientRun(net: Net, cfg: ClientConfig, s: ClientState, inbox: Bytes): (t: Turn<ClientState>)
    ensures t.used <= |inbox|
    ensures t.next.ClientData? || t.next.ClientFailed?
    decreases ClientRank(s)
  {
    if s.ClientData? || s.ClientFailed? then Turn(s, 0, [])
    else
      var t := ClientStep(net, cfg, s, inbox, true).value;
      var u := ClientRun(net, cfg, t.next, inbox[t.used..]);
      Turn(u.next, t.used + u.used, t.out + u.out)
  }

  // ---------------------------------------------------------------- the methods

  /** A connection to a peer that sends `unread` and then closes. */
  class Conn {
    var unread: Bytes
    var sent: Bytes

    /** io.ReadFull */
    method ReadFull(n: nat) returns (b: Bytes, ok: bool)
      modifies this`unread
      ensures ok <==> n <= |old(unread)|
      ensures ok ==> b == old(unread)[..n] && unread == old(unread)[n..]
      ensures !ok ==> unread == []
    {
      ok := n <= |unread|;
      if ok {
        b, unread := unread[..n], unread[n..];
      } else {
        b, unread := [], [];
      }
    }

    method Write(b: Bytes)
      modifies this`sent
      ensures sent == old(sent) + b
    {
      sent := sent + b;
    }
  }

  lemma {:induction false} SliceOfSlice(s: Bytes, i: nat, j: nat, k: nat)
    requires i <= |s| && j <= k <= |s| - i
    ensures s[i..][j..k] == s[i + j..i + k]
    ensures s[i..][j..] == s[i + j..]
  {
  }

  /** The reads of authSocksUserPass. */
  method ReadCredentials(c: Conn) returns (r: Read<Credentials>)
    modifies c`unread
    ensures r == ReadAuth(old(c.unread))
    ensures r.Got? ==> c.unread == old(c.unread)[r.used..]
  {
    ghost var s := c.unread;
    var header, ok := c.ReadFull(2);
    if !ok { return Short; }
    if header[0] != USER_PASS_VERSION { return Bad(1); }
    var n: nat := header[1];
    var user, size, password;
    user, ok := c.ReadFull(n);
    if !ok { return Short; }
    SliceOfSlice(s, 2, 0, n);
    size, ok := c.ReadFull(1);
    if !ok { return Short; }
    SliceOfSlice(s, 2 + n, 0, 1);
    SliceOfSlice(s, 2 + n, 1, |s| - 2 - n);
    var m: nat := size[0];
    password, ok := c.ReadFull(m);
    if !ok { return Short; }
    SliceOfSlice(s, 3 + n, 0, m);
    SliceOfSlice(s, 3 + n, m, |s| - 3 - n);
    return Got(Credentials(user, password), 3 + n + m);
  }

  /** Where the user name and the password of a complete message are. */
  lemma {:induction false} CredentialsRead(s: Bytes)
    ensures |s| >= 3 && s[0] == 1 && |s| >= 3 + s[1] as nat && |s| >= 3 + s[1] as nat + s[2 + s[1] as nat] as nat ==>
              var m, n: nat := s[1], s[2 + s[1] as nat];
              ReadAuth(s) == Got(Credentials(s[2..2 + m], s[3 + m..3 + m + n]), 3 + m + n)
  {
  }

  method AuthSocksUserPass(net: Net, cfg: ServerConfig, c: Conn) returns (ok: bool)
    modifies c
    ensures var t := ServerStep(net, cfg, ServerAuth, old(c.unread), true).value;
            ok == t.next.ServerRequest? && c.sent == old(c.sent) + t.out &&
            (ok ==> c.unread == old(c.unread)[t.used..])
    ensures var s := old(c.unread);
            |s| >= 3 && s[0] == 1 && |s| >= 3 + s[1] as nat && |s| >= 3 + s[1] as nat + s[2 + s[1] as nat] as nat ==>
              var m, n: nat := s[1], s[2 + s[1] as nat];
              var user, password := s[2..2 + m], s[3 + m..3 + m + n];
              (ok <==> user in cfg.users && cfg.users[user].password == password && cfg.users[user].portOk) &&
              c.sent == old(c.sent) + [1, if ok then 0 else 1]
  {
    hide ReadAuth;
    CredentialsRead(c.unread);
    var r := ReadCredentials(c);
    if r.Short? { return false; }
    if r.Bad? {
      c.Write(StatusReply(1));
      return false;
    }
    var user, password := r.value.user, r.value.password;
    ok := user in cfg.users && cfg.users[user].password == password && cfg.users[user].portOk;
    c.Write(StatusReply(if ok then 0 else 1));
  }

  method NegotiateSocks5(net: Net, cfg: ServerConfig, c: Conn) returns (ok: bool)
    modifies c
    ensures var t := ServerStep(net, cfg, ServerGreeting, old(c.unread), true).value;
            if t.next.ServerAuth? then
              var u := ServerStep(net, cfg, ServerAuth, old(c.unread)[t.used..], true).value;
              ok == u.next.ServerRequest? && c.sent == old(c.sent) + t.out + u.out &&
              (ok ==> c.unread == old(c.unread)[t.used..][u.used..])
            else
              ok == t.next.ServerRequest? && c.sent == old(c.sent) + t.out &&
              (ok ==> c.unread == old(c.unread)[t.used..])
  {
    ghost var s := c.unread;
    var header, methods;
    header, ok := c.ReadFull(2);
    if !ok { return; }
    if header[0] != VERSION { return false; }
    ghost var n: nat := header[1];
    methods, ok := c.ReadFull(header[1]);
    if !ok { return; }
    SliceOfSlice(s, 2, 0, n);
    if cfg.noAuth && AUTH_NONE in methods {
      c.Write(MethodReply(AUTH_NONE));
      return true;
    }
    if |cfg.users| > 0 && AUTH_USER_PASS in methods {
      c.Write(MethodReply(AUTH_USER_PASS));
      ok := AuthSocksUserPass(net, cfg, c);
      return;
    }
    c.Write(MethodReply(AUTH_NO_ACCEPTABLE));
    return false;
  }

  datatype Outcome<T> = Done(value: T) | Error(code: Byte)

  /** readSocks5Target */
  method ReadSocks5Target(net: Net, c: Conn, atyp: Byte) returns (r: Outcome<(Bytes, Word)>)
    modifies c`unread
    ensures match ReadTarget(atyp, old(c.unread))
            case Short => r == Error(GENERAL_ERROR)
            case Bad(code) => r == Error(code)
            case Got(t, n) => r == Done((HostText(net, t.address), t.port)) && c.unread == old(c.unread)[n..]
  {
    ghost var s := c.unread;
    var b, ok, host;
    ghost var n: nat := 0;
    if atyp == ATYP_IPV4 {
      b, ok := c.ReadFull(4);
      if !ok { return Error(GENERAL_ERROR); }
      host, n := net.format(V4(b)), 4;
    } else if atyp == ATYP_IPV6 {
      b, ok := c.ReadFull(16);
      if !ok { return Error(GENERAL_ERROR); }
      host, n := net.format(V6(b)), 16;
    } else if atyp == ATYP_DOMAIN {
      b, ok := c.ReadFull(1);
      if !ok { return Error(GENERAL_ERROR); }
      ghost var size: nat := b[0];
      n := 1 + size;
      host, ok := c.ReadFull(b[0]);
      if !ok { return Error(GENERAL_ERROR); }
      SliceOfSlice(s, 1, 0, size);
    } else {
      return Error(ATYP_UNSUPPORTED);
    }
    b, ok := c.ReadFull(2);
    if !ok { return Error(GENERAL_ERROR); }
    SliceOfSlice(s, n, 0, 2);
    return Done((host, Uint16(b)));
  }

  /** parseSocks5Request and the error reply of serveSocks. */
  method ParseSocks5Request(net: Net, c: Conn) returns (next: ServerState)
    modifies c
    ensures forall cfg: ServerConfig ::
              var t := ServerStep(net, cfg, ServerRequest, old(c.unread), true).value;
              next == t.next && c.sent == old(c.sent) + t.out &&
              (!next.ServerFailed? ==> c.unread == old(c.unread)[t.used..])
  {
    hide ErrorReply;
    ghost var s := c.unread;
    var header, ok := c.ReadFull(4);
    next := ServerFailed(false);
    if !ok {
      c.Write(ErrorReply(net, GENERAL_ERROR));
      return;
    }
    if header[0] != VERSION || header[2] != 0 {
      c.Write(ErrorReply(net, GENERAL_ERROR));
      return;
    }
    if header[1] != CMD_CONNECT && header[1] != CMD_UDP {
      c.Write(ErrorReply(net, CMD_UNSUPPORTED));
      return;
    }
    var r := ReadSocks5Target(net, c, header[3]);
    if r.Error? {
      c.Write(ErrorReply(net, r.code));
      return;
    }
    SliceOfSlice(s, 4, ReadTarget(s[3], s[4..]).used, |s| - 4);
    if header[1] == CMD_UDP { next := ServerUdp; } else { next := ServerDial(r.value.0, r.value.1); }
    assert c.sent == old(c.sent) + [];
  }

  /** serveSocks up to the point where it relays datagrams or connects. */
  method ServeSocks(net: Net, cfg: ServerConfig, c: Conn) returns (next: ServerState)
    modifies c
    ensures var t := ServerRun(net, cfg, ServerGreeting, old(c.unread));
            next == t.next && c.sent == old(c.sent) + t.out &&
            (!next.ServerFailed? ==> c.unread == old(c.unread)[t.used..])
  {
    hide ServerStep, ServerRun;
    ghost var s, before := c.unread, c.sent;
    ghost var t := ServerFirst(net, cfg, ServerGreeting, s, before);
    ghost var rest := s[t.used..];
    ghost var now := before + t.out;
    if t.next.ServerAuth? {
      t := ServerFirst(net, cfg, ServerAuth, rest, now);
      rest, now := rest[t.used..], now + t.out;
    }
    if Reading(t.next) {
      t := ServerFirst(net, cfg, ServerRequest, rest, now);
    }
    var ok := NegotiateSocks5(net, cfg, c);
    if !ok {
      next := ServerFailed(false);
    } else {
      next := ParseSocks5Request(net, c);
    }
  }

  /** A run is its first step and the run from there. */
  lemma {:induction false} ServerFirst(net: Net, cfg: ServerConfig, s: ServerState, inbox: Bytes, sent: Bytes)
      returns (t: Turn<ServerState>)
    requires Reading(s)
    ensures ServerStep(net, cfg, s, inbox, true) == Some(t) && t.used <= |inbox|
    ensures s.ServerGreeting? ==> t.next.ServerAuth? || t.next == ServerRequest || t.next == ServerFailed(false)
    ensures s.ServerAuth? ==> t.next == ServerRequest || t.next == ServerFailed(false)
    ensures s.ServerRequest? ==> !Reading(t.next)
    ensures var r := ServerRun(net, cfg, s, inbox);
            var u := ServerRun(net, cfg, t.next, inbox[t.used..]);
            r.next == u.next && sent + r.out == sent + t.out + u.out && inbox[r.used..] == inbox[t.used..][u.used..]
    ensures !Reading(t.next) ==> ServerRun(net, cfg, t.next, inbox[t.used..]) == Turn(t.next, 0, [])
  {
    hide ServerStep;
    ServerStepShape(net, cfg, s, inbox);
    t := ServerStep(net, cfg, s, inbox, true).value;
    var u := ServerRun(net, cfg, t.next, inbox[t.used..]);
    SliceOfSlice(inbox, t.used, u.used, |inbox| - t.used);
  }

  lemma {:induction false} ServerStepShape(net: Net, cfg: ServerConfig, s: ServerState, inbox: Bytes)
    requires Reading(s)
    ensures var t := ServerStep(net, cfg, s, inbox, true);
            t.Some? &&
            (s.ServerGreeting? ==>
              t.value.next.ServerAuth? || t.value.next == ServerRequest || t.value.next == ServerFailed(false)) &&
            (s.ServerAuth? ==> t.value.next == ServerRequest || t.value.next == ServerFailed(false)) &&
            (s.ServerRequest? ==> !Reading(t.value.next))
  {
    hide ReadGreeting, ReadAuth, ReadRequest, ErrorReply, HostText;
  }

  /** readSocks5Address: the bytes are consumed and dropped. */
  method ReadSocks5Address(c: Conn, atyp: Byte) returns (ok: bool)
    modifies c`unread
    ensures ok == ReadAddress(atyp, old(c.unread)).Got?
    ensures ok ==> c.unread == old(c.unread)[ReadAddress(atyp, old(c.unread)).used..]
  {
    ghost var s := c.unread;
    var b;
    if atyp == ATYP_IPV4 {
      b, ok := c.ReadFull(4);
    } else if atyp == ATYP_IPV6 {
      b, ok := c.ReadFull(16);
    } else if atyp == ATYP_DOMAIN {
      b, ok := c.ReadFull(1);
      if !ok { return; }
      ghost var size: nat := b[0];
      b, ok := c.ReadFull(b[0]);
      if ok { SliceOfSlice(s, 1, 0, size); }
    } else {
      ok := false;
    }
  }

  method ReadSocks5ConnectReply(c: Conn) returns (ok: bool)
    modifies c`unread
    ensures var r := ReadReply(old(c.unread));
            ok == (r.Got? && r.value == SUCCEEDED) && (ok ==> c.unread == old(c.unread)[r.used..])
  {
    ghost var s := c.unread;
    var header, port;
    header, ok := c.ReadFull(4);
    if !ok { return; }
    if header[0] != VERSION { return false; }
    ok := ReadSocks5Address(c, header[3]);
    if !ok { return; }
    ghost var n := ReadAddress(s[3], s[4..]).used;
    SliceOfSlice(s, 4, n, |s| - 4);
    port, ok := c.ReadFull(2);
    if !ok { return; }
    SliceOfSlice(s, 4 + n, 2, |s| - 4 - n);
    return header[1] == SUCCEEDED;
  }

  method Authenticate(net: Net, cfg: ClientConfig, c: Conn) returns (ok: bool)
    modifies c
    ensures c.sent == old(c.sent) + AuthBytes(cfg.username, cfg.password)
    ensures var t := ClientStep(net, cfg, ClientAuth, old(c.unread), true).value;
            if ok then t == ClientRequests(net, cfg, 2) && c.unread == old(c.unread)[2..]
            else t.next.ClientFailed? && t.out == []
  {
    c.Write(AuthBytes(cfg.username, cfg.password));
    var response;
    response, ok := c.ReadFull(2);
    if ok {
      ok := response[0] == USER_PASS_VERSION && response[1] == 0;
    }
  }

  /** connect, once the parent has been dialed: true when the connection can carry data. */
  method Connect(net: Net, cfg: ClientConfig, c: Conn) returns (ok: bool)
    modifies c
    ensures var t := ClientRun(net, cfg, ClientStart, old(c.unread));
            ok == t.next.ClientData? && c.sent == old(c.sent) + t.out && (ok ==> c.unread == old(c.unread)[t.used..])
  {
    hide ClientStep, ClientRun;
    ghost var s, now := c.unread, c.sent;
    ghost var t := ClientFirst(net, cfg, ClientStart, s, now);
    c.Write(GreetingBytes(cfg.username));
    now := c.sent;
    t := ClientFirst(net, cfg, ClientMethod, s, now);
    ClientAnswered(net, cfg, s);
    var answer;
    answer, ok := c.ReadFull(2);
    if !ok { return; }
    if !MethodAccepted(cfg, answer) { return false; }
    if answer[1] == AUTH_USER_PASS {
      ghost var rest := c.unread;
      ok := Authenticate(net, cfg, c);
      now := now + t.out;
      t := ClientFirst(net, cfg, ClientAuth, rest, now);
      if !ok { return; }
    }
    ok := RequestTarget(net, cfg, c, t);
  }

  /** The last part of connect: the request is sent and its reply read. */
  method RequestTarget(net: Net, cfg: ClientConfig, c: Conn, ghost t: Turn<ClientState>) returns (ok: bool)
    requires t == ClientRequests(net, cfg, 2)
    modifies c
    ensures var u := ClientRun(net, cfg, t.next, old(c.unread));
            ok == u.next.ClientData? && c.sent == old(c.sent) + t.out + u.out &&
            (ok ==> c.unread == old(c.unread)[u.used..])
  {
    var request := TargetBytes(net, cfg);
    if request.None? { return false; }
    c.Write(request.value);
    ok := ReadSocks5ConnectReply(c);
  }

  lemma {:induction false} ClientFirst(net: Net, cfg: ClientConfig, s: ClientState, inbox: Bytes, sent: Bytes)
      returns (t: Turn<ClientState>)
    requires !s.ClientData? && !s.ClientFailed?
    ensures ClientStep(net, cfg, s, inbox, true) == Some(t) && t.used <= |inbox|
    ensures s.ClientStart? ==> t == Turn(ClientMethod, 0, GreetingBytes(cfg.username)) && inbox[0..] == inbox
    ensures var r := ClientRun(net, cfg, s, inbox);
            var u := ClientRun(net, cfg, t.next, inbox[t.used..]);
            r.next == u.next && sent + r.out == sent + t.out + u.out && inbox[r.used..] == inbox[t.used..][u.used..]
    ensures t.next.ClientFailed? ==> ClientRun(net, cfg, t.next, inbox[t.used..]) == Turn(ClientFailed, 0, [])
  {
    t := ClientStep(net, cfg, s, inbox, true).value;
    var u := ClientRun(net, cfg, t.next, inbox[t.used..]);
    SliceOfSlice(inbox, t.used, u.used, |inbox| - t.used);
  }

  lemma {:induction false} ClientAnswered(net: Net, cfg: ClientConfig, inbox: Bytes)
    ensures var t := ClientStep(net, cfg, ClientMethod, inbox, true).value;
            if |inbox| < 2 || !MethodAccepted(cfg, inbox[..2]) then t.next == ClientFailed && t.out == []
            else if inbox[1] == AUTH_USER_PASS then t == Turn(ClientAuth, 2, AuthBytes(cfg.username, cfg.password))
            else t == ClientRequests(net, cfg, 2)
  {
  }
}
