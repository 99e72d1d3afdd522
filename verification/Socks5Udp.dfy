/** The UDP half of socks.go (section 7 of RFC 1928): building and parsing datagrams, and the relay that serves one
    client. */
module Socks5Udp {
  import opened Wire
  import opened HostPort
  import opened Socks5Messages

  datatype Parsed = Datagram(target: Bytes, payload: Bytes) | Refused(reply: Byte)

  /** What a packet holds, by the reader of addresses that the handshake uses. */
  function ParseDatagram(net: Net, packet: Bytes): (r: Parsed) {
    if |packet| < 4 || packet[0] != 0 || packet[1] != 0 then Refused(GENERAL_ERROR)
    else if packet[2] != 0 then Refused(CMD_UNSUPPORTED)
    else
      match ReadTarget(packet[3], packet[4..])
      case Short => Refused(GENERAL_ERROR)
      case Bad(code) => Refused(code)
      case Got(t, n) =>
        if t.address.Domain? && t.address.name == [] then Refused(GENERAL_ERROR)
        else Datagram(JoinHostPort(HostText(net, t.address), Itoa(t.port)), packet[4 + n..])
  }

  /** buildSocks5UDPDatagram */
  function BuildDatagram(net: Net, addr: Bytes, payload: Bytes): (r: Option<Bytes>) {
    match SplitHostPort(addr)
    case None => None
    case Some(Pair(host, portStr)) =>
      match Atoi(portStr)
      case None => None
      case Some(port) =>
        if port < 0 || port > 0xffff then None
        else
          match AddrPort(net, host, port)
          case None => None
          case Some(ap) => Some([0, 0, 0] + ap + payload)
  }

  lemma {:induction false} PacketSlice(packet: Bytes, n: nat, m: nat)
    requires 4 <= |packet| && n <= m <= |packet| - 4
    ensures packet[4..][n..m] == packet[4 + n..4 + m]
    ensures packet[4..][n..] == packet[4 + n..]
  {
  }

  /** The address in a packet, read with an offset as the source does. */
  lemma {:induction false} TargetAt(packet: Bytes)
    requires |packet| >= 4
    ensures var r := ReadTarget(packet[3], packet[4..]);
            match packet[3]
            case 1 => if |packet| < 10 then r == Short
                      else r == Got(Target(Numeric(V4(packet[4..8])), Uint16(packet[8..10])), 6)
            case 4 => if |packet| < 22 then r == Short
                      else r == Got(Target(Numeric(V6(packet[4..20])), Uint16(packet[20..22])), 18)
            case 3 => if |packet| < 5 then r == Short
                      else
                        var size: int := packet[4];
                        var end := 5 + size;
                        if |packet| < end + 2 then r == Short
                        else r == Got(Target(Domain(packet[5..end]), Uint16(packet[end..end + 2])), end - 2)
            case _ => r == Bad(ATYP_UNSUPPORTED)
  {
    hide Uint16;
    var s := packet[4..];
    match packet[3]
    case 1 =>
      if |packet| >= 10 {
        PacketSlice(packet, 0, 4);
        PacketSlice(packet, 4, 6);
      }
    case 4 =>
      if |packet| >= 22 {
        PacketSlice(packet, 0, 16);
        PacketSlice(packet, 16, 18);
      }
    case 3 =>
      if |packet| >= 5 {
        var size: nat := packet[4];
        if |packet| >= 7 + size {
          PacketSlice(packet, 1, 1 + size);
          PacketSlice(packet, 1 + size, 3 + size);
        }
      }
    case _ =>
  }

  /** parseSocks5UDPDatagram: in bounds on every packet. */
  method ParseSocks5UDPDatagram(net: Net, packet: Bytes) returns (r: Parsed)
    ensures r == ParseDatagram(net, packet)
  {
    hide ReadTarget, JoinHostPort, Itoa, Uint16;
    if |packet| < 4 { return Refused(GENERAL_ERROR); }
    if packet[0] != 0 || packet[1] != 0 { return Refused(GENERAL_ERROR); }
    if packet[2] != 0 { return Refused(CMD_UNSUPPORTED); }
    TargetAt(packet);
    var off: nat := 4;
    var host: Bytes;
    if packet[3] == ATYP_IPV4 {
      if |packet| < off + 4 + 2 { return Refused(GENERAL_ERROR); }
      host := net.format(V4(packet[off..off + 4]));
      off := off + 4;
    } else if packet[3] == ATYP_IPV6 {
      if |packet| < off + 16 + 2 { return Refused(GENERAL_ERROR); }
      host := net.format(V6(packet[off..off + 16]));
      off := off + 16;
    } else if packet[3] == ATYP_DOMAIN {
      if |packet| < off + 1 { return Refused(GENERAL_ERROR); }
      var size: nat := packet[off];
      off := off + 1;
      if size == 0 || |packet| < off + size + 2 { return Refused(GENERAL_ERROR); }
      host := packet[off..off + size];
      off := off + size;
    } else {
      return Refused(ATYP_UNSUPPORTED);
    }
    var port := Uint16(packet[off..off + 2]);
    off := off + 2;
    return Datagram(JoinHostPort(host, Itoa(port)), packet[off..]);
  }

  /** Parsing what was built gives back the payload and the canonical form of the address: the same name, or the
      text of the same IP address, and the same port. */
  lemma {:induction false} DatagramRoundTrip(net: Net, host: Bytes, port: Word, payload: Bytes)
    requires net.Valid() && NoBrackets(host) && AddressOf(net, host).Some?
    ensures var b := BuildDatagram(net, JoinHostPort(host, Itoa(port)), payload);
            b.Some? &&
            ParseDatagram(net, b.value) ==
              Datagram(JoinHostPort(HostText(net, AddressOf(net, host).value), Itoa(port)), payload)
  {
    hide AddressOf, AddressBytes, BigEndian, ReadTarget, Itoa, Atoi, SplitHostPort, JoinHostPort, HostText;
    AtoiOfItoa(port);
    SplitOfJoin(host, Itoa(port));
    var a := AddressOf(net, host).value;
    AddressIsValid(net, host);
    var ap := AddressBytes(a) + BigEndian(port);
    ReadTargetBytes(a, port, payload);
    PacketParts(ap, payload);
    assert a.Domain? ==> a.name != [];
  }

  lemma {:induction false} PacketParts(ap: Bytes, payload: Bytes)
    requires ap != []
    ensures var p := [0, 0, 0] + ap + payload;
            |p| >= 4 && p[0] == 0 && p[1] == 0 && p[2] == 0 && p[3] == ap[0] && p[4..] == ap[1..] + payload &&
            p[4 + (|ap| - 1)..] == payload
  {
  }

  /** A name that is no address and has no colon comes back as it was; an address comes back as a text that stands
      for the same address. */
  lemma {:induction false} RoundTripTarget(net: Net, host: Bytes)
    requires net.Valid() && NoBrackets(host) && AddressOf(net, host).Some?
    ensures var a := AddressOf(net, host).value;
            var text := HostText(net, a);
            if net.parse(TrimZone(host)).Some? then
              a == Numeric(net.parse(TrimZone(host)).value) && net.parse(text) == net.parse(TrimZone(host)) &&
              AddressOf(net, text) == Some(a)
            else text == host
  {
    assert TrimBrackets(host) == host;
    if net.parse(TrimZone(host)).Some? {
      var text := net.format(net.parse(TrimZone(host)).value);
      assert Plain(text) && TrimBrackets(text) == text && TrimZone(text) == text;
    }
  }

  // ---------------------------------------------------------------- the relay

  datatype Endpoint = Endpoint(ip: Ip, port: Word, zone: Bytes)

  /** sameSocks5UDPClient */
  predicate SameClient(net: Net, tcpPeerIP: Bytes, current: Endpoint, expected: Option<Endpoint>) {
    match expected
    case Some(e) => current == e
    case None => tcpPeerIP == [] || net.parse(tcpPeerIP) == Some(current.ip)
  }

  /** What arrives at the two sockets of an association, in any order; `works` tells whether resolving and sending succeed
      for it. */
  datatype Arrival = AtRelay(from: Endpoint, packet: Bytes, works: bool) | AtOutside(addr: Bytes, data: Bytes, works: bool)

  datatype Sent = Forwarded(from: Endpoint, target: Bytes, payload: Bytes) | Answered(to: Endpoint, packet: Bytes)

  /** The client that an association is bound to after an arrival. */
  function Pinned(net: Net, tcpPeerIP: Bytes, client: Option<Endpoint>, a: Arrival): (c: Option<Endpoint>) {
    if a.AtRelay? && client.None? && SameClient(net, tcpPeerIP, a.from, None) then Some(a.from) else client
  }

  /** What is sent on for it. */
  function Relayed(net: Net, tcpPeerIP: Bytes, client: Option<Endpoint>, a: Arrival): (out: seq<Sent>) {
    match a
    case AtRelay(from, packet, works) =>
      (match ParseDatagram(net, packet)
       case Datagram(target, payload) =>
         if works && SameClient(net, tcpPeerIP, from, client) then [Forwarded(from, target, payload)] else []
       case Refused(_) => [])
    case AtOutside(addr, data, works) =>
      (match BuildDatagram(net, addr, data)
       case Some(packet) => if works && client.Some? then [Answered(client.value, packet)] else []
       case None => [])
  }

  /** The whole run of an association. */
  datatype Run = Run(client: Option<Endpoint>, log: seq<Sent>)

  function RunOf(net: Net, tcpPeerIP: Bytes, arrivals: seq<Arrival>): (r: Run) {
    if arrivals == [] then Run(None, [])
    else
      var a := arrivals[|arrivals| - 1];
      var r := RunOf(net, tcpPeerIP, arrivals[..|arrivals| - 1]);
      Run(Pinned(net, tcpPeerIP, r.client, a), r.log + Relayed(net, tcpPeerIP, r.client, a))
  }

  /** Everything goes from or to one client, at the address of the control connection. */
  ghost predicate OneClient(net: Net, tcpPeerIP: Bytes, r: Run) {
    (r.client.Some? ==> tcpPeerIP == [] || net.parse(tcpPeerIP) == Some(r.client.value.ip)) &&
    forall i :: 0 <= i < |r.log| ==>
      match r.log[i]
      case Forwarded(from, _, _) => r.client == Some(from)
      case Answered(to, _) => r.client == Some(to)
  }

  lemma {:induction false} RunServesOneClient(net: Net, tcpPeerIP: Bytes, arrivals: seq<Arrival>)
    ensures OneClient(net, tcpPeerIP, RunOf(net, tcpPeerIP, arrivals))
  {
    hide ParseDatagram, BuildDatagram;
    if arrivals != [] {
      RunServesOneClient(net, tcpPeerIP, arrivals[..|arrivals| - 1]);
    }
  }

  /** Who is served is decided by the first datagram that may come from the client, and never changes. */
  lemma {:induction false} ClientIsPinned(net: Net, tcpPeerIP: Bytes, arrivals: seq<Arrival>, k: nat)
    requires k <= |arrivals| && RunOf(net, tcpPeerIP, arrivals[..k]).client.Some?
    ensures RunOf(net, tcpPeerIP, arrivals).client == RunOf(net, tcpPeerIP, arrivals[..k]).client
    decreases |arrivals|
  {
    hide ParseDatagram, BuildDatagram;
    if k == |arrivals| {
      assert arrivals[..k] == arrivals;
    } else {
      assert arrivals[..|arrivals| - 1][..k] == arrivals[..k];
      ClientIsPinned(net, tcpPeerIP, arrivals[..|arrivals| - 1], k);
    }
  }

  class Association {
    const net: Net
    const tcpPeerIP: Bytes
    var clientAddr: Option<Endpoint>
    var log: seq<Sent>

    constructor (net: Net, tcpPeerIP: Bytes)
      ensures this.net == net && this.tcpPeerIP == tcpPeerIP && clientAddr == None && log == []
    {
      this.net, this.tcpPeerIP, clientAddr, log := net, tcpPeerIP, None, [];
    }

    /** One round of either loop of serveSocksUDPAssociate. */
    method Handle(a: Arrival)
      modifies this
      ensures clientAddr == Pinned(net, tcpPeerIP, old(clientAddr), a)
      ensures log == old(log) + Relayed(net, tcpPeerIP, old(clientAddr), a)
    {
      hide ParseDatagram, BuildDatagram;
      match a
      case AtRelay(from, packet, works) =>
        if !SameClient(net, tcpPeerIP, from, clientAddr) { return; }
        if clientAddr.None? { clientAddr := Some(from); }
        var r := ParseSocks5UDPDatagram(net, packet);
        if r.Datagram? && works { log := log + [Forwarded(from, r.target, r.payload)]; }
      case AtOutside(addr, data, works) =>
        if clientAddr.None? { return; }
        var packet := BuildDatagram(net, addr, data);
        if packet.Some? && works { log := log + [Answered(clientAddr.value, packet.value)]; }
    }

    /** However datagrams arrive, the log is that of the run, and one client is served. */
    method Serve(arrivals: seq<Arrival>)
      requires clientAddr == None && log == []
      modifies this
      ensures Run(clientAddr, log) == RunOf(net, tcpPeerIP, arrivals)
      ensures OneClient(net, tcpPeerIP, Run(clientAddr, log))
    {
      hide Pinned, Relayed;
      for i := 0 to |arrivals|
        invariant Run(clientAddr, log) == RunOf(net, tcpPeerIP, arrivals[..i])
      {
        assert arrivals[..i + 1][..i] == arrivals[..i];
        Handle(arrivals[i]);
      }
      assert arrivals[..|arrivals|] == arrivals;
      RunServesOneClient(net, tcpPeerIP, arrivals);
    }
  }
}
