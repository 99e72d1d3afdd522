/** What the two ends of the SOCKS5 handshake do with each message, written out byte by byte. */
module Socks5Use {
  import opened Wire
  import opened Socks5Messages
  import opened Socks5Peers
  import opened Socks5Handshake

  // ---------------------------------------------------------------- the server

  /** The method is chosen by the configuration and the methods offered: none before user name and password. */
  lemma {:induction false} MethodDecides(net: Net, cfg: ServerConfig, count: Byte, methods: Bytes, tail: Bytes, eof: bool)
    requires |methods| == count
    ensures ServerStep(net, cfg, ServerGreeting, [5, count] + methods + tail, eof)
            == if cfg.noAuth && 0 in methods then Some(Turn(ServerRequest, 2 + count, [5, 0]))
               else if cfg.users != map[] && 2 in methods then Some(Turn(ServerAuth, 2 + count, [5, 2]))
               else Some(Turn(ServerFailed(false), 2 + count, [5, 255]))
  {
    var s := [5, count] + methods + tail;
    assert s[0] == 5 && s[1] == count && s[2..2 + count] == methods;
  }

  /** A greeting that is incomplete keeps the server waiting; one of another version, or none at the end of the
      input, is not answered. */
  lemma {:induction false} GreetingRefused(net: Net, cfg: ServerConfig, s: Bytes, eof: bool)
    ensures |s| >= 2 && s[0] != 5 ==> ServerStep(net, cfg, ServerGreeting, s, eof) == Some(Turn(ServerFailed(false), 0, []))
    ensures |s| < 2 || (s[0] == 5 && |s| < 2 + s[1] as nat) ==>
              ServerStep(net, cfg, ServerGreeting, s, eof)
              == if eof then Some(Turn(ServerFailed(false), 0, [])) else None
  {
  }

  /** A complete user name and password is accepted exactly when the user is known, the password is his, and he may
      use the port. */
  lemma {:induction false} PasswordDecides(net: Net, cfg: ServerConfig, user: Bytes, password: Bytes, tail: Bytes, eof: bool)
    requires |user| <= 255 && |password| <= 255
    ensures var m: Byte := |user|;
            var n: Byte := |password|;
            ServerStep(net, cfg, ServerAuth, [1, m] + user + [n] + password + tail, eof)
            == if user in cfg.users && cfg.users[user].password == password && cfg.users[user].portOk
               then Some(Turn(ServerRequest, 3 + |user| + |password|, [1, 0]))
               else Some(Turn(ServerFailed(false), 3 + |user| + |password|, [1, 1]))
  {
    var m: Byte := |user|;
    var n: Byte := |password|;
    ReadAuthBytes(user, password, tail);
    assert [1, m] + user + [n] + password + tail == AuthBytes(user, password) + tail;
  }

  lemma {:induction false} PasswordRefused(net: Net, cfg: ServerConfig, s: Bytes, eof: bool)
    ensures |s| >= 2 && s[0] != 1 ==> ServerStep(net, cfg, ServerAuth, s, eof) == Some(Turn(ServerFailed(false), 0, [1, 1]))
    ensures |s| < 2 || (s[0] == 1 && |s| < 3 + s[1] as nat) ||
            (s[0] == 1 && |s| < 3 + s[1] as nat + s[2 + s[1] as nat] as nat) ==>
              ServerStep(net, cfg, ServerAuth, s, eof) == if eof then Some(Turn(ServerFailed(false), 0, [])) else None
  {
  }

  /** What the server makes of a request for the address `a` that is `b` on the wire: with command 1 it connects to
      the text of the address, with command 3 it relays datagrams. */
  lemma {:induction false} RequestDecides(net: Net, cfg: ServerConfig, cmd: Byte, a: Ip, name: Bytes, high: Byte, low: Byte,
                                          tail: Bytes, eof: bool)
    requires (cmd == 1 || cmd == 3) && ValidIp(a) && |name| <= 255
    ensures var size: Byte := |name|;
            var port: Word := 256 * high + low;
            var atyp: Byte := if a.V4? then 1 else 4;
            ServerStep(net, cfg, ServerRequest, [5, cmd, 0, atyp] + a.b + [high, low] + tail, eof)
            == Some(Turn(if cmd == 3 then ServerUdp else ServerDial(net.format(a), port), |a.b| + 6, [])) &&
            ServerStep(net, cfg, ServerRequest, [5, cmd, 0, 3, size] + name + [high, low] + tail, eof)
            == Some(Turn(if cmd == 3 then ServerUdp else ServerDial(name, port), |name| + 7, []))
  {
    var size: Byte := |name|;
    var atyp: Byte := if a.V4? then 1 else 4;
    AddressedRequest(net, cfg, [5, cmd, 0, atyp] + a.b + [high, low] + tail, a, high, low, tail, eof);
    NamedRequest(net, cfg, [5, cmd, 0, 3, size] + name + [high, low] + tail, name, high, low, tail, eof);
  }

  lemma {:induction false} AddressedRequest(net: Net, cfg: ServerConfig, s: Bytes, a: Ip, high: Byte, low: Byte, tail: Bytes,
                                            eof: bool)
    requires ValidIp(a) && |s| >= 4 && (s[1] == 1 || s[1] == 3)
    requires s == [5, s[1], 0, if a.V4? then 1 else 4] + a.b + [high, low] + tail
    ensures var port: Word := 256 * high + low;
            ServerStep(net, cfg, ServerRequest, s, eof)
            == Some(Turn(if s[1] == 3 then ServerUdp else ServerDial(net.format(a), port), |a.b| + 6, []))
  {
    var n := |a.b|;
    assert s[4..] == a.b + [high, low] + tail;
    assert s[4..][..n] == a.b && s[4..][n..n + 2] == [high, low];
  }

  lemma {:induction false} NamedRequest(net: Net, cfg: ServerConfig, s: Bytes, name: Bytes, high: Byte, low: Byte, tail: Bytes,
                                        eof: bool)
    requires |name| <= 255 && |s| >= 4 && (s[1] == 1 || s[1] == 3)
    requires s == [5, s[1], 0, 3, |name|] + name + [high, low] + tail
    ensures var port: Word := 256 * high + low;
            ServerStep(net, cfg, ServerRequest, s, eof)
            == Some(Turn(if s[1] == 3 then ServerUdp else ServerDial(name, port), |name| + 7, []))
  {
    var n := 1 + |name|;
    assert s[4..] == [|name|] + name + [high, low] + tail;
    assert s[4..][1..n] == name && s[4..][n..n + 2] == [high, low];
  }

  /** The ten bytes that report a code. */
  function Refusal(code: Byte): (b: Bytes) {
    [5, code, 0, 1, 0, 0, 0, 0, 0, 0]
  }

  /** That the text printed for the unspecified address is read back as that address. */
  predicate ZeroReadsBack(net: Net) {
    var zero := V4([0, 0, 0, 0]);
    net.parse(net.format(zero)) == Some(zero) && Plain(net.format(zero))
  }

  lemma {:induction false} ErrorIsRefusal(net: Net, code: Byte)
    requires ZeroReadsBack(net)
    ensures ErrorReply(net, code) == Refusal(code)
  {
    ZeroAddress();
    var host := net.format(V4([0, 0, 0, 0]));
    assert TrimBrackets(host) == host && TrimZone(host) == host;
  }

  /** The code that refuses a request: 1 for its version or reserved byte, 7 for its command, 8 for its type of
      address, and 1 when the input ends too soon. */
  lemma {:induction false} RequestRefused(net: Net, cfg: ServerConfig, s: Bytes, eof: bool)
    requires ZeroReadsBack(net)
    ensures var t := ServerStep(net, cfg, ServerRequest, s, eof);
            if |s| < 4 then t == if eof then Some(Turn(ServerFailed(false), 0, Refusal(1))) else None
            else if s[0] != 5 || s[2] != 0 then t == Some(Turn(ServerFailed(false), 0, Refusal(1)))
            else if s[1] != 1 && s[1] != 3 then t == Some(Turn(ServerFailed(false), 0, Refusal(7)))
            else if s[3] != 1 && s[3] != 3 && s[3] != 4 then t == Some(Turn(ServerFailed(false), 0, Refusal(8)))
            else if (s[3] == 1 && |s| < 10) || (s[3] == 4 && |s| < 22) || (s[3] == 3 && (|s| < 5 || |s| < 7 + s[4] as nat))
            then t == if eof then Some(Turn(ServerFailed(false), 0, Refusal(1))) else None
            else t.Some? && !t.value.next.ServerFailed?
  {
    hide ErrorReply;
    ErrorIsRefusal(net, 1);
    ErrorIsRefusal(net, 7);
    ErrorIsRefusal(net, 8);
  }

  /** After connecting, success is reported with the address of the new connection, and failure with its code. */
  lemma {:induction false} DialDecides(net: Net, host: Bytes, port: Word, a: Ip, bound: Bound, code: Byte)
    requires ZeroReadsBack(net) && ValidIp(a) && Plain(bound.host) && net.parse(bound.host) == Some(a)
    ensures var s := ServerDial(host, port);
            var high: Byte := if 0 <= bound.port < 0x1_0000 then bound.port / 256 else 0;
            var low: Byte := if 0 <= bound.port < 0x1_0000 then bound.port % 256 else 0;
            ServerDialed(net, s, DialOk(bound))
            == Turn(ServerData(host, port), 0, [5, 0, 0, if a.V4? then 1 else 4] + a.b + [high, low]) &&
            ServerDialed(net, s, DialFailed(code)) == Turn(ServerFailed(true), 0, Refusal(code))
  {
    hide ErrorReply;
    ErrorIsRefusal(net, code);
    assert TrimBrackets(bound.host) == bound.host && TrimZone(bound.host) == bound.host;
    var port: Word := if bound.port < 0 || bound.port > 0xffff then 0 else bound.port;
    var high: Byte := port / 256;
    var low: Byte := port % 256;
    assert BigEndian(port) == [high, low];
    var atyp: Byte := if a.V4? then 1 else 4;
    assert [5, 0, 0] + ([atyp] + a.b + [high, low]) == [5, 0, 0, atyp] + a.b + [high, low];
  }

  // ---------------------------------------------------------------- the client

  /** The client offers one method, and goes on only with that one. */
  lemma {:induction false} ClientOffers(net: Net, cfg: ClientConfig, version: Byte, m: Byte, tail: Bytes, eof: bool)
    requires cfg.Valid()
    ensures var offer := if cfg.username == [] then 0 else 2;
            ClientStep(net, cfg, ClientStart, tail, eof) == Some(Turn(ClientMethod, 0, [5, 1, offer])) &&
            var t := ClientStep(net, cfg, ClientMethod, [version, m] + tail, eof);
            if version != 5 || m != offer then t == Some(Turn(ClientFailed, 2, []))
            else if m == 2 then
              var size: Byte := |cfg.username|;
              var length: Byte := |cfg.password|;
              t == Some(Turn(ClientAuth, 2, [1, size] + cfg.username + [length] + cfg.password))
            else t == ClientStep(net, cfg, ClientAuth, [1, 0], eof)
  {
    hide ClientRequests;
    assert ([version, m] + tail)[..2] == [version, m];
  }

  /** The request is sent on status 0 only. */
  lemma {:induction false} ClientAsks(net: Net, cfg: ClientConfig, version: Byte, status: Byte, tail: Bytes, eof: bool)
    ensures var t := ClientStep(net, cfg, ClientAuth, [version, status] + tail, eof);
            if version != 1 || status != 0 then t == Some(Turn(ClientFailed, 2, []))
            else if cfg.port.None? || cfg.port.value < 0 || cfg.port.value > 65535 then t == Some(Turn(ClientFailed, 2, []))
            else
              var high: Byte := cfg.port.value / 256;
              var low: Byte := cfg.port.value % 256;
              var host := TrimBrackets(cfg.host);
              match net.parse(TrimZone(host))
              case Some(V4(b)) => t == Some(Turn(ClientReply, 2, [5, 1, 0, 1] + b + [high, low]))
              case Some(V6(b)) => t == Some(Turn(ClientReply, 2, [5, 1, 0, 4] + b + [high, low]))
              case None =>
                if 0 < |host| <= 255 then
                  var size: Byte := |host|;
                  t == Some(Turn(ClientReply, 2, [5, 1, 0, 3, size] + host + [high, low]))
                else t == Some(Turn(ClientFailed, 2, []))
  {
    if cfg.port.Some? && 0 <= cfg.port.value <= 65535 {
      var port: Word := cfg.port.value;
      var high: Byte := port / 256;
      var low: Byte := port % 256;
      assert BigEndian(port) == [high, low];
      var host := TrimBrackets(cfg.host);
      match net.parse(TrimZone(host)) {
        case Some(ip) =>
          var atyp: Byte := if ip.V4? then 1 else 4;
          assert [5, 1, 0] + ([atyp] + ip.b + [high, low]) == [5, 1, 0, atyp] + ip.b + [high, low];
        case None =>
          if 0 < |host| <= 255 {
            var size: Byte := |host|;
            assert [5, 1, 0] + ([3, size] + host + [high, low]) == [5, 1, 0, 3, size] + host + [high, low];
          }
      }
    }
  }

  /** What a bracketed host, or one with a zone, is reduced to. */
  lemma {:induction false} HostsTrimmed(host: Bytes, zone: Bytes)
    requires OPEN_BRACKET !in host && CLOSE_BRACKET !in host
    ensures TrimBrackets(host) == host && TrimBrackets([91] + host + [93]) == host
    ensures PERCENT !in zone ==> TrimZone(host + [37] + zone) == host
    decreases |zone|
  {
    var h := [91] + host + [93];
    assert h[..|h| - 1] == [91] + host;
    var s := host + [37] + zone;
    assert s[|host|] == 37;
    if zone == [] {
      assert s[..|s| - 1] == host;
    } else if PERCENT !in zone {
      var front := zone[..|zone| - 1];
      assert s[..|s| - 1] == host + [37] + front;
      HostsTrimmed(host, front);
    }
  }

  /** The client can send data exactly after a complete reply of version 5 whose code is 0. */
  lemma {:induction false} ReplyDecides(net: Net, cfg: ClientConfig, s: Bytes, eof: bool)
    ensures var t := ClientStep(net, cfg, ClientReply, s, eof);
            if |s| < 4 then t == if eof then Some(Turn(ClientFailed, 0, [])) else None
            else if s[0] != 5 || (s[3] != 1 && s[3] != 3 && s[3] != 4) then t == Some(Turn(ClientFailed, 0, []))
            else if s[3] == 3 && |s| < 5 then t == if eof then Some(Turn(ClientFailed, 0, [])) else None
            else
              var used := if s[3] == 1 then 10 else if s[3] == 4 then 22 else 7 + s[4] as nat;
              if |s| < used then t == if eof then Some(Turn(ClientFailed, 0, [])) else None
              else t == Some(Turn(if s[1] == 0 then ClientData else ClientFailed, used, []))
  {
  }

  // ---------------------------------------------------------------- two runs

  const NOTHING := Pipe([], [])

  /** One more action at the end of a run. */
  lemma {:induction false} Extend(u: Setup, run: seq<System>, a: Action, s: System) returns (longer: seq<System>)
    requires run != [] && Run(u, run) && Next(u, run[|run| - 1], a) == Some(s)
    ensures longer != [] && Run(u, longer) && longer[|longer| - 1] == s
  {
    hide Next;
    longer := run + [s];
    assert Follows(u, run[|run| - 1], s);
    forall i, j | 0 <= i && j == i + 1 < |longer| ensures Follows(u, longer[i], longer[j]) {
      assert j < |run| ==> Follows(u, run[i], run[j]);
    }
  }

  /** The client consumes all that has arrived, and what it answers is delivered. */
  lemma {:induction false} ByClient(u: Setup, run: seq<System>, t: Turn<ClientState>) returns (longer: seq<System>)
    requires run != [] && Run(u, run)
    requires var s := run[|run| - 1];
             s.up == NOTHING && s.down.inFlight == [] && t.used == |s.down.arrived| &&
             ClientStep(u.net, u.cc, s.client, s.down.arrived, s.server.ServerFailed?) == Some(t)
    ensures longer != [] && Run(u, longer)
    ensures longer[|longer| - 1] == System(t.next, run[|run| - 1].server, Pipe(t.out, []), NOTHING)
  {
    hide Run, ClientStep;
    var s := run[|run| - 1];
    var s' := System(t.next, s.server, Pipe([], t.out), NOTHING);
    assert [] + t.out == t.out && s.down.arrived[t.used..] == [];
    longer := Extend(u, run, ClientActs, s');
    if t.out != [] {
      assert t.out[..|t.out|] == t.out && t.out[|t.out|..] == [];
      longer := Extend(u, longer, DeliverUp(|t.out|), System(t.next, s.server, Pipe(t.out, []), NOTHING));
    }
  }

  lemma {:induction false} ByServer(u: Setup, run: seq<System>, t: Turn<ServerState>) returns (longer: seq<System>)
    requires run != [] && Run(u, run)
    requires var s := run[|run| - 1];
             s.down == NOTHING && s.up.inFlight == [] && t.used == |s.up.arrived| &&
             ServerStep(u.net, u.sc, s.server, s.up.arrived, s.client.ClientFailed?) == Some(t)
    ensures longer != [] && Run(u, longer)
    ensures longer[|longer| - 1] == System(run[|run| - 1].client, t.next, NOTHING, Pipe(t.out, []))
  {
    hide Run, ServerStep;
    var s := run[|run| - 1];
    var s' := System(s.client, t.next, NOTHING, Pipe([], t.out));
    assert [] + t.out == t.out && s.up.arrived[t.used..] == [];
    longer := Extend(u, run, ServerActs, s');
    if t.out != [] {
      assert t.out[..|t.out|] == t.out && t.out[|t.out|..] == [];
      longer := Extend(u, longer, DeliverDown(|t.out|), System(s.client, t.next, NOTHING, Pipe(t.out, [])));
    }
  }

  /** Everything up to the server's verdict on the user name and password, for any client that has a name. */
  lemma {:induction false} UntilVerdict(u: Setup, ok: bool) returns (run: seq<System>)
    requires u.Valid() && u.cc.username != [] && u.cc.username in u.sc.users
    requires var account := u.sc.users[u.cc.username];
             ok <==> account.password == u.cc.password && account.portOk
    ensures run != [] && Run(u, run)
    ensures run[|run| - 1]
            == System(ClientAuth, if ok then ServerRequest else ServerFailed(false), NOTHING,
                      Pipe([1, if ok then 0 else 1], []))
  {
    hide Run, ServerStep, ClientStep;
    var user, password := u.cc.username, u.cc.password;
    var m: Byte := |user|;
    var n: Byte := |password|;
    var auth := [1, m] + user + [n] + password;
    run := Start(u);
    ClientOffers(u.net, u.cc, 5, 2, [], false);
    run := ByClient(u, run, Turn(ClientMethod, 0, [5, 1, 2]));
    MethodDecides(u.net, u.sc, 1, [2], [], false);
    assert [5, 1] + [2] + [] == [5, 1, 2];
    run := ByServer(u, run, Turn(ServerAuth, 3, [5, 2]));
    assert [5, 2] + [] == [5, 2];
    run := ByClient(u, run, Turn(ClientAuth, 2, auth));
    PasswordDecides(u.net, u.sc, user, password, [], false);
    assert auth + [] == auth;
    var next := if ok then ServerRequest else ServerFailed(false);
    run := ByServer(u, run, Turn(next, |auth|, [1, if ok then 0 else 1]));
  }

  lemma {:induction false} Start(u: Setup) returns (run: seq<System>)
    ensures run != [] && Run(u, run) && run[|run| - 1] == System(ClientStart, ServerGreeting, NOTHING, NOTHING)
  {
    run := [INITIAL];
  }

  /** With a wrong password both peers fail, and no request is ever sent. */
  lemma {:induction false} WrongPassword(u: Setup) returns (run: seq<System>)
    requires u.Valid() && u.cc.username != [] && u.cc.username in u.sc.users
    requires u.sc.users[u.cc.username].password != u.cc.password
    ensures run != [] && Run(u, run)
    ensures run[|run| - 1] == System(ClientFailed, ServerFailed(false), NOTHING, NOTHING)
  {
    hide Run, ClientStep;
    run := UntilVerdict(u, false);
    ClientAsks(u.net, u.cc, 1, 1, [], true);
    assert [1, 1] + [] == [1, 1];
    run := ByClient(u, run, Turn(ClientFailed, 2, []));
  }

  /** With the right password the server connects to what the client asked for, and both relay data. */
  lemma {:induction false} RightPassword(u: Setup, bound: Bound) returns (run: seq<System>)
    requires u.Valid() && u.cc.username != [] && u.cc.username in u.sc.users
    requires u.sc.users[u.cc.username] == Account(u.cc.password, true)
    requires Plain(u.cc.host) && u.net.parse(u.cc.host).None? && 0 < |u.cc.host| <= 255 && u.cc.port == Some(443)
    ensures run != [] && Run(u, run)
    ensures run[|run| - 1] == System(ClientData, ServerData(u.cc.host, 443), NOTHING, NOTHING)
  {
    hide Run, ClientStep, ServerStep;
    var name := u.cc.host;
    var size: Byte := |name|;
    var b: Bytes := [5, 1, 0, 3, size] + name + [1, 187];
    run := UntilVerdict(u, true);
    assert TrimBrackets(name) == name && TrimZone(name) == name;
    ClientAsks(u.net, u.cc, 1, 0, [], false);
    assert [1, 0] + [] == [1, 0];
    run := ByClient(u, run, Turn(ClientReply, 2, b));
    NamedRequest(u.net, u.sc, b, name, 1, 187, [], false);
    assert b + [] == b;
    run := ByServer(u, run, Turn(ServerDial(name, 443), |b|, []));
    run := Connected(u, run, bound);
  }

  /** The server's connection is made, and its reply brings the client into the data phase. */
  lemma {:induction false} Connected(u: Setup, run: seq<System>, bound: Bound) returns (longer: seq<System>)
    requires u.Valid() && run != [] && Run(u, run) &&
             run[|run| - 1] == System(ClientReply, ServerDial(u.cc.host, 443), NOTHING, NOTHING)
    ensures longer != [] && Run(u, longer)
    ensures longer[|longer| - 1] == System(ClientData, ServerData(u.cc.host, 443), NOTHING, NOTHING)
  {
    hide Run, ReplyBytes, ReadReply;
    var server := ServerData(u.cc.host, 443);
    var reply := ReplyBytes(u.net, 0, bound);
    ReadReplyBytes(u.net, 0, bound, []);
    assert reply + [] == reply && [] + reply == reply && reply[..|reply|] == reply && reply[|reply|..] == [];
    longer := Extend(u, run, Dialed(DialOk(bound)), System(ClientReply, server, NOTHING, Pipe([], reply)));
    if reply != [] {
      longer := Extend(u, longer, DeliverDown(|reply|), System(ClientReply, server, NOTHING, Pipe(reply, [])));
    }
    longer := ByClient(u, longer, Turn(ClientData, |reply|, []));
  }
}
