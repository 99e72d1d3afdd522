/** Which datagrams of an association are passed on, and to whom, written out. */
module Socks5UdpUse {
  import opened Wire
  import opened HostPort
  import opened Socks5Messages
  import opened Socks5Udp

  // ---------------------------------------------------------------- datagrams

  /** Why a datagram is refused: too short or with a reserved field that is not zero, 1; a fragment, 7; an unknown type of
      address, 8; an address that is cut, or a name of no length, 1. Any other is read. */
  lemma {:induction false} DatagramRefused(net: Net, p: Bytes)
    ensures var r := ParseDatagram(net, p);
            if |p| < 4 || p[0] != 0 || p[1] != 0 then r == Refused(1)
            else if p[2] != 0 then r == Refused(7)
            else if p[3] != 1 && p[3] != 3 && p[3] != 4 then r == Refused(8)
            else if (p[3] == 1 && |p| < 10) || (p[3] == 4 && |p| < 22) ||
                    (p[3] == 3 && (|p| < 5 || p[4] == 0 || |p| < 7 + p[4] as nat))
            then r == Refused(1)
            else r.Datagram?
  {
    hide ReadTarget, JoinHostPort, Itoa;
    if |p| >= 4 { TargetAt(p); }
  }

  /** Where a datagram for an address is sent, and what of it. */
  lemma {:induction false} DatagramForAddress(net: Net, ip: Ip, port: Word, payload: Bytes)
    requires ValidIp(ip)
    ensures var high: Byte := port / 256;
            var low: Byte := port % 256;
            ParseDatagram(net, [0, 0, 0, if ip.V4? then 1 else 4] + ip.b + [high, low] + payload)
            == Datagram(JoinHostPort(net.format(ip), Itoa(port)), payload)
  {
    hide JoinHostPort, Itoa;
    var high: Byte := port / 256;
    var low: Byte := port % 256;
    var p := [0, 0, 0, if ip.V4? then 1 else 4] + ip.b + [high, low] + payload;
    var n := |ip.b|;
    TargetAt(p);
    assert p[4..4 + n] == ip.b && p[4 + n..6 + n] == [high, low] && p[6 + n..] == payload;
  }

  /** The same for a name. */
  lemma {:induction false} DatagramForName(net: Net, name: Bytes, port: Word, payload: Bytes)
    requires 0 < |name| <= 255
    ensures var high: Byte := port / 256;
            var low: Byte := port % 256;
            ParseDatagram(net, [0, 0, 0, 3, |name|] + name + [high, low] + payload)
            == Datagram(JoinHostPort(name, Itoa(port)), payload)
  {
    hide JoinHostPort, Itoa;
    var high: Byte := port / 256;
    var low: Byte := port % 256;
    var p := [0, 0, 0, 3, |name|] + name + [high, low] + payload;
    var n := |name|;
    TargetAt(p);
    assert p[5..5 + n] == name && p[5 + n..7 + n] == [high, low] && p[7 + n..] == payload;
  }

  /** The source of an answer in front of its payload; none is built without a port, with one above 65535, or for a host
      that has no place on the wire. */
  lemma {:induction false} DatagramBuilt(net: Net, host: Bytes, port: nat, payload: Bytes)
    requires NoBrackets(host)
    ensures var b := BuildDatagram(net, JoinHostPort(host, Itoa(port)), payload);
            if port > 65535 then b == None
            else
              var high: Byte := port / 256;
              var low: Byte := port % 256;
              match net.parse(TrimZone(host))
              case Some(V4(ip)) => b == Some([0, 0, 0, 1] + ip + [high, low] + payload)
              case Some(V6(ip)) => b == Some([0, 0, 0, 4] + ip + [high, low] + payload)
              case None =>
                if 0 < |host| <= 255 then
                  var size: Byte := |host|;
                  b == Some([0, 0, 0, 3, size] + host + [high, low] + payload)
                else b == None
    ensures COLON !in host ==> BuildDatagram(net, host, payload) == None
  {
    hide LastIndex, IndexOf, Itoa, Atoi, JoinHostPort, SplitHostPort;
    AtoiOfItoa(port);
    SplitOfJoin(host, Itoa(port));
    assert TrimBrackets(host) == host;
    if COLON !in host { NoPort(host); }
    if port <= 65535 { Layout(net, host, port, payload); }
  }

  lemma {:induction false} NoPort(s: Bytes)
    requires COLON !in s
    ensures SplitHostPort(s) == None
  {
    LastIndexIs(s, COLON, -1);
  }

  lemma {:induction false} Layout(net: Net, host: Bytes, port: Word, payload: Bytes)
    requires TrimBrackets(host) == host
    ensures var high: Byte := port / 256;
            var low: Byte := port % 256;
            match AddrPort(net, host, port)
            case None => net.parse(TrimZone(host)).None? && (host == [] || |host| > 255)
            case Some(ap) =>
              match net.parse(TrimZone(host))
              case Some(V4(ip)) => [0, 0, 0] + ap + payload == [0, 0, 0, 1] + ip + [high, low] + payload
              case Some(V6(ip)) => [0, 0, 0] + ap + payload == [0, 0, 0, 4] + ip + [high, low] + payload
              case None =>
                0 < |host| <= 255 &&
                var size: Byte := |host|;
                [0, 0, 0] + ap + payload == [0, 0, 0, 3, size] + host + [high, low] + payload
  {
    var high: Byte := port / 256;
    var low: Byte := port % 256;
    assert BigEndian(port) == [high, low];
    match net.parse(TrimZone(host))
    case Some(V4(ip)) => assert [0, 0, 0] + ([1] + ip + [high, low]) == [0, 0, 0, 1] + ip + [high, low];
    case Some(V6(ip)) => assert [0, 0, 0] + ([4] + ip + [high, low]) == [0, 0, 0, 4] + ip + [high, low];
    case None =>
      if 0 < |host| <= 255 {
        var size: Byte := |host|;
        assert [0, 0, 0] + ([3, size] + host + [high, low]) == [0, 0, 0, 3, size] + host + [high, low];
      }
  }

  // ---------------------------------------------------------------- the relay

  /** Before there is a client, any port of the address of the control connection may become it, or anyone if that
      address is unknown; afterwards only the very same address, port and zone counts. */
  lemma {:induction false} ClientDecides(net: Net, peer: Bytes, from: Endpoint, packet: Bytes, works: bool,
                                         client: Option<Endpoint>)
    ensures var a := AtRelay(from, packet, works);
            client.None? ==>
              Pinned(net, peer, client, a) == if peer == [] || net.parse(peer) == Some(from.ip) then Some(from) else None
    ensures client.Some? ==> Pinned(net, peer, client, AtRelay(from, packet, works)) == client
  {
  }

  /** A datagram of the client, or of the one who becomes it, is sent on when it can be read, resolved and sent; nobody
      else's is. */
  lemma {:induction false} FromClientDecides(net: Net, peer: Bytes, from: Endpoint, packet: Bytes, works: bool,
                                             client: Option<Endpoint>, target: Bytes, payload: Bytes)
    ensures var out := Relayed(net, peer, client, AtRelay(from, packet, works));
            out == [Forwarded(from, target, payload)] <==>
              works && ParseDatagram(net, packet) == Datagram(target, payload) &&
              (if client.Some? then client.value == from else peer == [] || net.parse(peer) == Some(from.ip))
    ensures var out := Relayed(net, peer, client, AtRelay(from, packet, works));
            out == [] || exists t, p :: out == [Forwarded(from, t, p)]
  {
    hide ParseDatagram;
    var d := ParseDatagram(net, packet);
    var out := Relayed(net, peer, client, AtRelay(from, packet, works));
    if out != [] { assert out == [Forwarded(from, d.target, d.payload)]; }
  }

  /** What comes from outside goes to the client, with its source in front, once there is one. */
  lemma {:induction false} FromOutsideDecides(net: Net, peer: Bytes, addr: Bytes, data: Bytes, works: bool,
                                              client: Option<Endpoint>)
    ensures var a := AtOutside(addr, data, works);
            var b := BuildDatagram(net, addr, data);
            Pinned(net, peer, client, a) == client &&
            Relayed(net, peer, client, a) ==
              if works && client.Some? && b.Some? then [Answered(client.value, b.value)] else []
  {
    hide BuildDatagram;
  }

  /** A client is served from its first datagram on: that one and the next are sent on, what another peer sends in
      between is not, and an answer comes back to the client. */
  lemma {:induction false} OneAssociation(net: Net, from: Endpoint, other: Endpoint, p: Bytes, q: Bytes, addr: Bytes,
                                          data: Bytes)
    requires ParseDatagram(net, p).Datagram? && ParseDatagram(net, q).Datagram? && BuildDatagram(net, addr, data).Some?
    requires other != from
    ensures var d, e := ParseDatagram(net, p), ParseDatagram(net, q);
            RunOf(net, [], [AtOutside(addr, data, true), AtRelay(from, p, true), AtRelay(other, q, true),
                            AtOutside(addr, data, true), AtRelay(from, q, true)])
            == Run(Some(from), [Forwarded(from, d.target, d.payload), Answered(from, BuildDatagram(net, addr, data).value),
                                Forwarded(from, e.target, e.payload)])
  {
    hide ParseDatagram, BuildDatagram, Pinned, Relayed, RunOf;
    var a, b, c, f := AtOutside(addr, data, true), AtRelay(from, p, true), AtRelay(other, q, true), AtRelay(from, q, true);
    var answer := BuildDatagram(net, addr, data).value;
    var x := Forwarded(from, ParseDatagram(net, p).target, ParseDatagram(net, p).payload);
    var y := Forwarded(from, ParseDatagram(net, q).target, ParseDatagram(net, q).payload);
    Handles(net, None, addr, data, from, p, q);
    Handles(net, Some(from), addr, data, from, p, q);
    Handles(net, Some(from), addr, data, other, q, q);
    OneMore(net, [a], Run(None, []), []);
    assert [a, b][..1] == [a] && [a, b, c][..2] == [a, b] && [a, b, c, a][..3] == [a, b, c];
    assert [a, b, c, a, f][..4] == [a, b, c, a];
    OneMore(net, [a, b], Run(None, []), [x]);
    OneMore(net, [a, b, c], Run(Some(from), [x]), []);
    OneMore(net, [a, b, c, a], Run(Some(from), [x]), [Answered(from, answer)]);
    OneMore(net, [a, b, c, a, f], Run(Some(from), [x, Answered(from, answer)]), [y]);
  }

  lemma {:induction false} OneMore(net: Net, arrivals: seq<Arrival>, r: Run, out: seq<Sent>)
    requires arrivals != [] && out == Relayed(net, [], r.client, arrivals[|arrivals| - 1])
    requires |arrivals| == 1 ==> r == Run(None, [])
    requires |arrivals| > 1 ==> RunOf(net, [], arrivals[..|arrivals| - 1]) == r
    ensures RunOf(net, [], arrivals) == Run(Pinned(net, [], r.client, arrivals[|arrivals| - 1]), r.log + out)
  {
    hide Pinned, Relayed;
  }

  /** What an association whose peer's address is unknown does with an answer and with two datagrams of one endpoint. */
  lemma {:induction false} Handles(net: Net, client: Option<Endpoint>, addr: Bytes, data: Bytes, from: Endpoint, p: Bytes,
                                   q: Bytes)
    requires ParseDatagram(net, p).Datagram? && ParseDatagram(net, q).Datagram? && BuildDatagram(net, addr, data).Some?
    ensures var d, e := ParseDatagram(net, p), ParseDatagram(net, q);
            var a, b, c := AtOutside(addr, data, true), AtRelay(from, p, true), AtRelay(from, q, true);
            Pinned(net, [], client, a) == client &&
            Relayed(net, [], client, a) ==
              (if client.Some? then [Answered(client.value, BuildDatagram(net, addr, data).value)] else []) &&
            Pinned(net, [], client, b) == (if client.None? then Some(from) else client) &&
            Pinned(net, [], client, c) == (if client.None? then Some(from) else client) &&
            Relayed(net, [], client, b) ==
              (if client.None? || client == Some(from) then [Forwarded(from, d.target, d.payload)] else []) &&
            Relayed(net, [], client, c) ==
              (if client.None? || client == Some(from) then [Forwarded(from, e.target, e.payload)] else [])
  {
    hide ParseDatagram, BuildDatagram;
  }
}
