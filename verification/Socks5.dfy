/** The messages of the SOCKS5 handshake (RFC 1928 and RFC 1929) as socks.go and parent_proxy.go build and
    read them. A reader consumes a prefix of what has arrived; `Short` means that more bytes are needed. */
module Socks5Messages {
  import opened Wire

  const VERSION: Byte := 5
  const AUTH_NONE: Byte := 0
  const AUTH_USER_PASS: Byte := 2
  const AUTH_NO_ACCEPTABLE: Byte := 255
  const USER_PASS_VERSION: Byte := 1
  const CMD_CONNECT: Byte := 1
  const CMD_UDP: Byte := 3
  const ATYP_IPV4: Byte := 1
  const ATYP_DOMAIN: Byte := 3
  const ATYP_IPV6: Byte := 4
  const SUCCEEDED: Byte := 0
  const GENERAL_ERROR: Byte := 1
  const CMD_UNSUPPORTED: Byte := 7
  const ATYP_UNSUPPORTED: Byte := 8

  /** An address as net.ParseIP classifies it: To4 succeeds, or only To16 does. */
  datatype Ip = V4(b: Bytes) | V6(b: Bytes)

  predicate ValidIp(ip: Ip) {
    |ip.b| == if ip.V4? then 4 else 16
  }

  /** Go's net package: ParseIP, and the text that net.IP.String prints. */
  datatype Net = Net(parse: Bytes -> Option<Ip>, format: Ip -> Bytes) {
    /** Parsing gives 4 or 16 bytes, and what is printed for an address parses back to it and has no zone
        or brackets. */
    ghost predicate Valid() {
      forall s: Bytes :: parse(s).Some? ==>
        ValidIp(parse(s).value) && parse(format(parse(s).value)) == parse(s) && Plain(format(parse(s).value))
    }
  }

  predicate Plain(s: Bytes) {
    OPEN_BRACKET !in s && CLOSE_BRACKET !in s && PERCENT !in s
  }

  /** strings.TrimPrefix(strings.TrimSuffix(host, "]"), "[") */
  function TrimBrackets(host: Bytes): (r: Bytes) {
    var h := if host != [] && host[|host| - 1] == CLOSE_BRACKET then host[..|host| - 1] else host;
    if h != [] && h[0] == OPEN_BRACKET then h[1..] else h
  }

  /** The host up to its last percent sign. */
  function TrimZone(host: Bytes): (r: Bytes)
    ensures PERCENT !in host ==> r == host
  {
    if PERCENT !in host then host
    else if host[|host| - 1] == PERCENT then host[..|host| - 1]
    else TrimZone(host[..|host| - 1])
  }

  /** The address that a host name stands for on the wire. */
  datatype Address = Numeric(ip: Ip) | Domain(name: Bytes)

  function AddressOf(net: Net, host: Bytes): (a: Option<Address>)
    ensures a.Some? && a.value.Domain? ==> 0 < |a.value.name| <= 255
  {
    var h := TrimBrackets(host);
    match net.parse(TrimZone(h))
    case Some(ip) => Some(Numeric(ip))
    case None => if |h| == 0 || |h| > 255 then None else Some(Domain(h))
  }

  /** The host name at the other end: the text of the address, or the name itself. */
  function HostText(net: Net, a: Address): (h: Bytes) {
    match a
    case Numeric(ip) => net.format(ip)
    case Domain(name) => name
  }

  /** The wire form of an address: its type, then its bytes. */
  function AddressBytes(a: Address): (b: Bytes)
    requires a.Domain? ==> |a.name| <= 255
  {
    match a
    case Numeric(V4(b)) => [ATYP_IPV4] + b
    case Numeric(V6(b)) => [ATYP_IPV6] + b
    case Domain(name) => var size: Byte := |name|; [ATYP_DOMAIN, size] + name
  }

  /** buildSocks5AddrPort */
  function AddrPort(net: Net, host: Bytes, port: Word): (r: Option<Bytes>) {
    match AddressOf(net, host)
    case None => None
    case Some(a) => Some(AddressBytes(a) + BigEndian(port))
  }

  datatype Read<+T> = Short | Bad(reply: Byte) | Got(value: T, used: nat)

  /** An address of type `atyp` at the head of `s`. */
  function ReadAddress(atyp: Byte, s: Bytes): (r: Read<Address>)
    ensures r.Got? ==> r.used <= |s|
    ensures r.Got? && r.value.Numeric? ==> ValidIp(r.value.ip)
  {
    if atyp == ATYP_IPV4 then
      if |s| < 4 then Short else Got(Numeric(V4(s[..4])), 4)
    else if atyp == ATYP_IPV6 then
      if |s| < 16 then Short else Got(Numeric(V6(s[..16])), 16)
    else if atyp == ATYP_DOMAIN then
      if |s| < 1 then Short
      else
        var n: nat := s[0];
        if |s| < 1 + n then Short else Got(Domain(s[1..1 + n]), 1 + n)
    else Bad(ATYP_UNSUPPORTED)
  }

  /** What was written is what is read, and nothing of what follows is touched. */
  lemma {:induction false} ReadAddressBytes(a: Address, tail: Bytes)
    requires if a.Domain? then |a.name| <= 255 else ValidIp(a.ip)
    ensures var b := AddressBytes(a);
            b != [] && ReadAddress(b[0], b[1..] + tail) == Got(a, |b| - 1)
  {
    var b := AddressBytes(a);
    var s := b[1..] + tail;
    if a.Domain? {
      assert b[1] == |a.name| && b[1..][1..] == a.name;
      assert s[1..1 + |a.name|] == a.name;
    } else {
      assert b[1..] == a.ip.b;
      assert s[..|a.ip.b|] == a.ip.b;
    }
  }

  /** readSocks5Target: the address and the port that follows it. */
  datatype Target = Target(address: Address, port: Word)

  function ReadTarget(atyp: Byte, s: Bytes): (r: Read<Target>)
    ensures r.Got? ==> r.used <= |s|
  {
    match ReadAddress(atyp, s)
    case Short => Short
    case Bad(code) => Bad(code)
    case Got(a, n) => if |s| < n + 2 then Short else Got(Target(a, Uint16(s[n..n + 2])), n + 2)
  }

  lemma {:induction false} ReadTargetBytes(a: Address, port: Word, tail: Bytes)
    requires if a.Domain? then |a.name| <= 255 else ValidIp(a.ip)
    ensures var b := AddressBytes(a) + BigEndian(port);
            b != [] && ReadTarget(b[0], b[1..] + tail) == Got(Target(a, port), |b| - 1)
  {
    hide AddressBytes, BigEndian, ReadAddress;
    var ab, pb := AddressBytes(a), BigEndian(port);
    ReadAddressBytes(a, pb + tail);
    assert (ab + pb)[1..] + tail == ab[1..] + (pb + tail);
    var s := ab[1..] + (pb + tail);
    assert s[|ab| - 1..|ab| + 1] == pb;
  }

  // ---------------------------------------------------------------- method negotiation

  function GreetingBytes(username: Bytes): (b: Bytes) {
    [VERSION, 1, if username != [] then AUTH_USER_PASS else AUTH_NONE]
  }

  /** The methods a client offers. */
  function ReadGreeting(s: Bytes): (r: Read<Bytes>)
    ensures r.Got? ==> r.used <= |s|
  {
    if |s| < 2 then Short
    else if s[0] != VERSION then Bad(GENERAL_ERROR)
    else
      var n: nat := s[1];
      if |s| < 2 + n then Short else Got(s[2..2 + n], 2 + n)
  }

  lemma {:induction false} ReadGreetingBytes(username: Bytes, tail: Bytes)
    ensures ReadGreeting(GreetingBytes(username) + tail) == Got([GreetingBytes(username)[2]], 3)
  {
    var s := GreetingBytes(username) + tail;
    assert s[2..3] == [GreetingBytes(username)[2]];
  }

  // ---------------------------------------------------------------- user name and password

  function AuthBytes(username: Bytes, password: Bytes): (b: Bytes) {
    var m: Byte := |username| % 256;
    var n: Byte := |password| % 256;
    [USER_PASS_VERSION, m] + username + [n] + password
  }

  datatype Credentials = Credentials(user: Bytes, password: Bytes)

  function ReadAuth(s: Bytes): (r: Read<Credentials>)
    ensures r.Got? ==> r.used <= |s|
  {
    if |s| < 2 then Short
    else if s[0] != USER_PASS_VERSION then Bad(1)
    else
      var u: nat := s[1];
      var n := 2 + u;
      if |s| < n + 1 then Short
      else
        var p: nat := s[n];
        var m := n + 1 + p;
        if |s| < m then Short else Got(Credentials(s[2..n], s[n + 1..m]), m)
  }

  /** The length bytes hold up to 255; longer credentials would be cut, and are refused by the configuration. */
  lemma {:induction false} ReadAuthBytes(username: Bytes, password: Bytes, tail: Bytes)
    requires |username| <= 255 && |password| <= 255
    ensures ReadAuth(AuthBytes(username, password) + tail)
            == Got(Credentials(username, password), |AuthBytes(username, password)|)
  {
    var s := AuthBytes(username, password) + tail;
    var n := 2 + |username|;
    assert s[1] == |username| && s[n] == |password|;
    assert s[2..n] == username;
    assert s[n + 1..n + 1 + |password|] == password;
  }

  // ---------------------------------------------------------------- request and reply

  function RequestBytes(net: Net, host: Bytes, port: Word): (r: Option<Bytes>) {
    match AddrPort(net, host, port)
    case None => None
    case Some(ap) => Some([VERSION, CMD_CONNECT, 0] + ap)
  }

  datatype Request = Request(cmd: Byte, target: Target)

  /** parseSocks5Request, up to the point where a CONNECT is turned into a URL. */
  function ReadRequest(s: Bytes): (r: Read<Request>)
    ensures r.Got? ==> r.used <= |s|
  {
    if |s| < 4 then Short
    else if s[0] != VERSION then Bad(GENERAL_ERROR)
    else if s[2] != 0 then Bad(GENERAL_ERROR)
    else if s[1] != CMD_CONNECT && s[1] != CMD_UDP then Bad(CMD_UNSUPPORTED)
    else
      match ReadTarget(s[3], s[4..])
      case Short => Short
      case Bad(code) => Bad(code)
      case Got(target, n) => Got(Request(s[1], target), 4 + n)
  }

  lemma {:induction false} ReadRequestBytes(net: Net, host: Bytes, port: Word, tail: Bytes)
    requires net.Valid()
    requires RequestBytes(net, host, port).Some?
    ensures var b := RequestBytes(net, host, port).value;
            AddressOf(net, host).Some? &&
            ReadRequest(b + tail) == Got(Request(CMD_CONNECT, Target(AddressOf(net, host).value, port)), |b|)
  {
    hide AddressBytes, ReadTarget, BigEndian;
    var a := AddressOf(net, host).value;
    var ap := AddressBytes(a) + BigEndian(port);
    var s := [VERSION, CMD_CONNECT, 0] + ap + tail;
    ReadTargetBytes(a, port, tail);
    assert s[3] == ap[0];
    assert s[4..] == ap[1..] + tail;
  }

  /** The bound address of a reply: the text of an IP address and a port that may be out of range. */
  datatype Bound = Bound(host: Bytes, port: int)

  /** buildSocks5Reply */
  function ReplyBytes(net: Net, code: Byte, bound: Bound): (b: Bytes) {
    var port: Word := if bound.port < 0 || bound.port > 0xffff then 0 else bound.port;
    var ap := match AddrPort(net, bound.host, port)
              case Some(ap) => ap
              case None => [ATYP_IPV4, 0, 0, 0, 0, 0, 0];
    [VERSION, code, 0] + ap
  }

  /** readSocks5ConnectReply: everything is consumed before the code is looked at. */
  function ReadReply(s: Bytes): (r: Read<Byte>)
    ensures r.Got? ==> r.used <= |s|
  {
    if |s| < 4 then Short
    else if s[0] != VERSION then Bad(0)
    else
      match ReadTarget(s[3], s[4..])
      case Short => Short
      case Bad(_) => Bad(0)
      case Got(_, n) => Got(s[1], 4 + n)
  }

  /** Whatever address a reply carries, the client reads exactly that reply, and its code. */
  lemma {:induction false} ReadReplyBytes(net: Net, code: Byte, bound: Bound, tail: Bytes)
    requires net.Valid()
    ensures ReadReply(ReplyBytes(net, code, bound) + tail) == Got(code, |ReplyBytes(net, code, bound)|)
  {
    hide ReadTarget, AddrPort, ReplyBytes, ReadReply;
    var ap := ReplyAddress(net, code, bound, tail);
    ReadReplyAt(code, ap, tail);
  }

  lemma {:induction false} ReadReplyAt(code: Byte, ap: Bytes, tail: Bytes)
    requires ap != [] && ReadTarget(ap[0], ap[1..] + tail).Got? && ReadTarget(ap[0], ap[1..] + tail).used == |ap| - 1
    ensures ReadReply([VERSION, code, 0] + ap + tail) == Got(code, |ap| + 3)
  {
    hide ReadTarget;
    var s := [VERSION, code, 0] + ap + tail;
    assert s[3] == ap[0];
    assert s[4..] == ap[1..] + tail;
  }

  lemma {:induction false} ReplyAddress(net: Net, code: Byte, bound: Bound, tail: Bytes) returns (ap: Bytes)
    requires net.Valid()
    ensures ReplyBytes(net, code, bound) == [VERSION, code, 0] + ap
    ensures ap != [] && ReadTarget(ap[0], ap[1..] + tail).Got? && ReadTarget(ap[0], ap[1..] + tail).used == |ap| - 1
  {
    hide AddressBytes, ReadTarget, BigEndian, AddressOf;
    var port: Word := if bound.port < 0 || bound.port > 0xffff then 0 else bound.port;
    AddressIsValid(net, bound.host);
    match AddressOf(net, bound.host) {
      case Some(a) =>
        ap := AddressBytes(a) + BigEndian(port);
        ReadTargetBytes(a, port, tail);
      case None =>
        ap := [ATYP_IPV4, 0, 0, 0, 0, 0, 0];
        var zero := Numeric(V4([0, 0, 0, 0]));
        ReadTargetBytes(zero, 0, tail);
        ZeroAddress();
    }
  }

  lemma {:induction false} ZeroAddress()
    ensures AddressBytes(Numeric(V4([0, 0, 0, 0]))) + BigEndian(0) == [ATYP_IPV4, 0, 0, 0, 0, 0, 0]
  {
  }

  lemma {:induction false} AddressIsValid(net: Net, host: Bytes)
    requires net.Valid()
    ensures AddressOf(net, host).Some? && AddressOf(net, host).value.Numeric? ==>
              ValidIp(AddressOf(net, host).value.ip)
    ensures AddressOf(net, host).Some? && AddressOf(net, host).value.Domain? ==>
              |AddressOf(net, host).value.name| <= 255
  {
  }
}
