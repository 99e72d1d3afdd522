/** capture.go: does a TLS ClientHello offer HTTP? The scanner, and the encoding of RFC 5246 section 7.4.1.2 and
    RFC 7301 section 3.1 that it is meant to read. */
module ClientHello {
  import opened Wire

  const ALPN: Word := 16
  const H2: Bytes := [104, 50]
  const HTTP_1_1: Bytes := [104, 116, 116, 112, 47, 49, 46, 49]

  predicate IsHttp(name: Bytes) {
    name == H2 || name == HTTP_1_1
  }

  // ---------------------------------------------------------------- what a client sends

  datatype Extension = Protocols(names: seq<Bytes>) | Unrelated(id: Word, body: Bytes)

  /** Without extensions the message ends after the compression methods. */
  datatype Hello = Hello(version: Bytes, random: Bytes, session: Bytes, suites: Bytes, compression: Bytes,
                         extensions: Option<seq<Extension>>)

  function NamesBytes(names: seq<Bytes>): (b: Bytes)
    requires forall i :: 0 <= i < |names| ==> |names[i]| <= 255
  {
    if names == [] then []
    else
      var size: Byte := |names[0]|;
      [size] + names[0] + NamesBytes(names[1..])
  }

  ghost predicate ValidExtension(e: Extension) {
    match e
    case Protocols(names) =>
      (forall i :: 0 <= i < |names| ==> |names[i]| <= 255) && |NamesBytes(names)| <= 0xfffd
    case Unrelated(id, body) => id != ALPN && |body| <= 0xffff
  }

  ghost function ExtensionBody(e: Extension): (b: Bytes)
    requires ValidExtension(e)
    ensures |b| <= 0xffff
  {
    match e
    case Protocols(names) => BigEndian(|NamesBytes(names)|) + NamesBytes(names)
    case Unrelated(_, body) => body
  }

  ghost function ExtensionBytes(e: Extension): (b: Bytes)
    requires ValidExtension(e)
  {
    BigEndian(if e.Protocols? then ALPN else e.id) + BigEndian(|ExtensionBody(e)|) + ExtensionBody(e)
  }

  ghost predicate ValidExtensions(es: seq<Extension>) {
    forall i :: 0 <= i < |es| ==> ValidExtension(es[i])
  }

  ghost function ExtensionsBytes(es: seq<Extension>): (b: Bytes)
    requires ValidExtensions(es)
  {
    if es == [] then [] else ExtensionBytes(es[0]) + ExtensionsBytes(es[1..])
  }

  ghost predicate ValidHello(h: Hello) {
    |h.version| == 2 && |h.random| == 32 && |h.session| <= 32 && |h.suites| <= 0xfffe && |h.compression| <= 255 &&
    (h.extensions.Some? ==> ValidExtensions(h.extensions.value) && |ExtensionsBytes(h.extensions.value)| <= 0xffff)
  }

  function Uint24Bytes(n: nat): (b: Bytes)
    requires n < 0x100_0000
    ensures |b| == 3 && Uint24(b) == n
  {
    var high: Byte := n / 0x1_0000;
    [high] + BigEndian(n % 0x1_0000)
  }

  function Uint24(b: Bytes): (n: nat)
    requires |b| == 3
  {
    var high: int := b[0];
    high * 0x1_0000 + Uint16(b[1..])
  }

  ghost function Vector8(v: Bytes): (b: Bytes)
    requires |v| <= 255
    ensures |b| == 1 + |v|
  {
    var size: Byte := |v|;
    [size] + v
  }

  ghost function Vector16(v: Bytes): (b: Bytes)
    requires |v| <= 0xffff
    ensures |b| == 2 + |v|
  {
    BigEndian(|v|) + v
  }

  ghost function ExtensionBlock(h: Hello): (b: Bytes)
    requires ValidHello(h)
    ensures |b| <= 0x1_0001
  {
    match h.extensions
    case None => []
    case Some(es) => Vector16(ExtensionsBytes(es))
  }

  /** The parameters before the extensions. */
  ghost function Parameters(h: Hello): (b: Bytes)
    requires ValidHello(h)
    ensures |b| <= 0x1_1000
  {
    h.version + h.random + Vector8(h.session) + Vector16(h.suites) + Vector8(h.compression)
  }

  ghost function HelloBytes(h: Hello): (b: Bytes)
    requires ValidHello(h)
  {
    [1] + Uint24Bytes(|Parameters(h)| + |ExtensionBlock(h)|) + Parameters(h) + ExtensionBlock(h)
  }

  /** Some protocol list names h2 or http/1.1. */
  ghost predicate OffersHttp(es: seq<Extension>) {
    exists i :: 0 <= i < |es| && Offers(es[i])
  }

  ghost predicate Offers(e: Extension) {
    e.Protocols? && exists k :: 0 <= k < |e.names| && IsHttp(e.names[k])
  }

  // ---------------------------------------------------------------- what the scanner answers

  datatype Verdict = Found | Malformed | NotFound

  function ScanNames(p: Bytes): (v: Verdict) {
    if p == [] then NotFound
    else
      var n: nat := p[0];
      if n + 1 > |p| then Malformed
      else if IsHttp(p[1..n + 1]) then Found
      else ScanNames(p[n + 1..])
  }

  function ScanExtensions(e: Bytes): (r: bool) {
    if |e| < 4 then false
    else
      var size: nat := Uint16(e[2..4]);
      if |e| < 4 + size then false
      else if Uint16(e[..2]) == ALPN && size >= 2 then
        match ScanNames(e[6..4 + size])
        case Found => true
        case Malformed => false
        case NotFound => ScanExtensions(e[4 + size..])
      else ScanExtensions(e[4 + size..])
  }

  /** The extensions with their length in front; what follows them is not looked at. */
  function ScanBlock(b: Bytes): (r: bool) {
    if |b| < 2 then false
    else
      var size: nat := Uint16(b[..2]);
      |b| >= 2 + size && ScanExtensions(b[2..2 + size])
  }

  /** Skips a vector with a length of one or two bytes. */
  function Skip8(b: Bytes): (r: Option<Bytes>) {
    if |b| < 1 then None
    else
      var size: nat := b[0];
      if |b| < 1 + size then None else Some(b[1 + size..])
  }

  function Skip16(b: Bytes): (r: Option<Bytes>) {
    if |b| < 2 then None
    else
      var size: nat := Uint16(b[..2]);
      if |b| < 2 + size then None else Some(b[2 + size..])
  }

  function ScanHello(hello: Bytes): (r: bool) {
    if |hello| < 39 || hello[0] != 1 || Uint24(hello[1..4]) + 4 > |hello| then false
    else
      match Skip8(hello[38..])
      case None => false
      case Some(a) =>
        match Skip16(a)
        case None => false
        case Some(b) =>
          match Skip8(b)
          case None => false
          case Some(c) => ScanBlock(c)
  }

  lemma {:induction false} Cut(s: Bytes, i: nat, j: nat, k: nat)
    requires i <= |s| && j <= k <= |s| - i
    ensures s[i..][j..k] == s[i + j..i + k] && s[i..][j..] == s[i + j..]
  {
  }

  lemma {:induction false} CutEnd(s: Bytes, i: nat, end: nat, j: nat, k: nat)
    requires i <= end <= |s| && j <= k <= end - i
    ensures s[i..end][j..k] == s[i + j..i + k] && s[i..end][j..] == s[i + j..end]
  {
    assert forall n :: 0 <= n < k - j ==> s[i..end][j..k][n] == s[i + j..i + k][n];
    assert forall n :: 0 <= n < end - i - j ==> s[i..end][j..][n] == s[i + j..end][n];
  }

  lemma {:induction false} Skip8At(s: Bytes, pos: nat)
    requires pos < |s|
    ensures var next: int := pos + 1 + s[pos];
            Skip8(s[pos..]) == if next > |s| then None else Some(s[next..])
  {
    var size: nat := s[pos];
    if pos + 1 + size <= |s| { Cut(s, pos, 1 + size, 1 + size); }
  }

  lemma {:induction false} Skip16At(s: Bytes, pos: nat)
    requires pos <= |s|
    ensures pos + 2 > |s| ==> Skip16(s[pos..]) == None
    ensures pos + 2 <= |s| ==>
              var next: int := pos + 2 + Uint16(s[pos..pos + 2]);
              Skip16(s[pos..]) == if next > |s| then None else Some(s[next..])
  {
    hide Uint16;
    if pos + 2 <= |s| {
      Cut(s, pos, 0, 2);
      var size: nat := Uint16(s[pos..pos + 2]);
      if pos + 2 + size <= |s| { Cut(s, pos, 2 + size, 2 + size); }
    }
  }

  lemma {:induction false} ScanBlockAt(s: Bytes, pos: nat)
    requires pos <= |s|
    ensures pos + 2 > |s| ==> !ScanBlock(s[pos..])
    ensures pos + 2 <= |s| ==>
              var end: int := pos + 2 + Uint16(s[pos..pos + 2]);
              ScanBlock(s[pos..]) == (end <= |s| && ScanExtensions(s[pos + 2..end]))
  {
    hide Uint16, ScanExtensions;
    if pos + 2 <= |s| {
      Cut(s, pos, 0, 2);
      var size: nat := Uint16(s[pos..pos + 2]);
      if pos + 2 + size <= |s| { Cut(s, pos, 2, 2 + size); }
    }
  }

  /** One round of the loop over the extensions. */
  lemma {:induction false} ScanExtensionsAt(s: Bytes, pos: nat, end: nat)
    requires pos + 4 <= end <= |s|
    ensures var next: int := pos + 4 + Uint16(s[pos + 2..pos + 4]);
            ScanExtensions(s[pos..end]) ==
              if next > end then false
              else if Uint16(s[pos..pos + 2]) == ALPN && next >= pos + 6 then
                match ScanNames(s[pos + 6..next])
                case Found => true
                case Malformed => false
                case NotFound => ScanExtensions(s[next..end])
              else ScanExtensions(s[next..end])
  {
    hide Uint16, ScanNames;
    CutEnd(s, pos, end, 0, 2);
    CutEnd(s, pos, end, 2, 4);
    var size: nat := Uint16(s[pos + 2..pos + 4]);
    if pos + 4 + size <= end {
      CutEnd(s, pos, end, 4 + size, 4 + size);
      if size >= 2 { CutEnd(s, pos, end, 6, 4 + size); }
    }
  }

  /** clientHelloHasHTTPALPN: every index is in range and both loops end, whatever the bytes are. */
  method ClientHelloHasHTTPALPN(hello: Bytes) returns (r: bool)
    ensures r == ScanHello(hello)
  {
    hide ScanBlock, Skip8, Skip16, Uint24, Uint16;
    if |hello| < 39 || hello[0] != 1 { return false; }
    var handshakeLen := Uint24(hello[1..4]);
    if handshakeLen + 4 > |hello| { return false; }
    var pos: nat := 38;
    if pos + 1 > |hello| { return false; }
    Skip8At(hello, pos);
    pos := pos + 1 + hello[pos];
    if pos <= |hello| { Skip16At(hello, pos); }
    if pos + 2 > |hello| { return false; }
    pos := pos + 2 + Uint16(hello[pos..pos + 2]);
    if pos + 1 > |hello| { if pos == |hello| { NothingToSkip(hello); } return false; }
    Skip8At(hello, pos);
    pos := pos + 1 + hello[pos];
    if pos <= |hello| { ScanBlockAt(hello, pos); }
    if pos + 2 > |hello| { return false; }
    r := HasProtocol(hello, pos);
  }

  lemma {:induction false} NothingToSkip(s: Bytes)
    ensures Skip8(s[|s|..]) == None
  {
  }

  /** The last part of clientHelloHasHTTPALPN: the extensions. */
  method HasProtocol(hello: Bytes, at: nat) returns (r: bool)
    requires at + 2 <= |hello|
    ensures r == ScanBlock(hello[at..])
  {
    hide ScanBlock, ScanNames, Uint16, ScanExtensions;
    var pos := at;
    ScanBlockAt(hello, at);
    var extensionsEnd: nat := pos + 2 + Uint16(hello[pos..pos + 2]);
    pos := pos + 2;
    if extensionsEnd > |hello| { return false; }
    while pos + 4 <= extensionsEnd
      invariant pos <= extensionsEnd <= |hello|
      invariant ScanBlock(hello[at..]) == ScanExtensions(hello[pos..extensionsEnd])
      decreases extensionsEnd - pos
    {
      ScanExtensionsAt(hello, pos, extensionsEnd);
      var typeID := Uint16(hello[pos..pos + 2]);
      var size: nat := Uint16(hello[pos + 2..pos + 4]);
      pos := pos + 4;
      if pos + size > extensionsEnd { return false; }
      if typeID == ALPN && size >= 2 {
        var v := ScanProtocols(hello[pos + 2..pos + size]);
        if v != NotFound { return v == Found; }
      }
      pos := pos + size;
    }
    ScanShort(hello[pos..extensionsEnd]);
    r := false;
  }

  lemma {:induction false} ScanShort(e: Bytes)
    requires |e| < 4
    ensures !ScanExtensions(e)
  {
  }

  /** The inner loop: the names of one protocol list. */
  method ScanProtocols(list: Bytes) returns (v: Verdict)
    ensures v == ScanNames(list)
  {
    var protocols := list;
    while |protocols| > 0
      invariant ScanNames(list) == ScanNames(protocols)
      decreases |protocols|
    {
      var n: nat := protocols[0];
      if n + 1 > |protocols| { return Malformed; }
      var protocol := protocols[1..n + 1];
      if protocol == H2 || protocol == HTTP_1_1 { return Found; }
      protocols := protocols[n + 1..];
    }
    v := NotFound;
  }

  // ---------------------------------------------------------------- on every message a client can send

  lemma {:induction false} ScanNamesBytes(names: seq<Bytes>)
    requires forall i :: 0 <= i < |names| ==> |names[i]| <= 255
    ensures ScanNames(NamesBytes(names)) == if exists k :: 0 <= k < |names| && IsHttp(names[k]) then Found else NotFound
  {
    if names != [] {
      var name, rest := names[0], NamesBytes(names[1..]);
      var b := NamesBytes(names);
      assert b[1..|name| + 1] == name && b[|name| + 1..] == rest;
      ScanNamesBytes(names[1..]);
      assert forall k :: 1 <= k < |names| ==> names[k] == names[1..][k - 1];
      assert forall k :: 0 <= k < |names| - 1 ==> names[1..][k] == names[k + 1];
    }
  }

  lemma {:induction false} ScanOneExtension(e: Extension, rest: Bytes)
    requires ValidExtension(e)
    ensures ScanExtensions(ExtensionBytes(e) + rest) == (Offers(e) || ScanExtensions(rest))
  {
    hide ScanNames, NamesBytes, IsHttp, BigEndian, Uint16;
    var id := BigEndian(if e.Protocols? then ALPN else e.id);
    var body := ExtensionBody(e);
    var size := BigEndian(|body|);
    var b := ExtensionBytes(e) + rest;
    assert b[..2] == id && b[2..4] == size;
    assert b[4 + |body|..] == rest;
    if e.Protocols? {
      assert b[6..4 + |body|] == NamesBytes(e.names);
      ScanNamesBytes(e.names);
    }
  }

  lemma {:induction false} ScanExtensionsBytes(es: seq<Extension>)
    requires ValidExtensions(es)
    ensures ScanExtensions(ExtensionsBytes(es)) <==> OffersHttp(es)
  {
    hide ExtensionBytes, ScanExtensions, Offers;
    if es == [] {
      ScanShort([]);
    } else {
      ScanOneExtension(es[0], ExtensionsBytes(es[1..]));
      ScanExtensionsBytes(es[1..]);
      assert forall k :: 1 <= k < |es| ==> es[k] == es[1..][k - 1];
      assert forall k :: 0 <= k < |es| - 1 ==> es[1..][k] == es[k + 1];
    }
  }

  lemma {:induction false} ScanBlockBytes(es: seq<Extension>, tail: Bytes)
    requires ValidExtensions(es) && |ExtensionsBytes(es)| <= 0xffff
    ensures ScanBlock(Vector16(ExtensionsBytes(es)) + tail) <==> OffersHttp(es)
  {
    hide ScanExtensions, ExtensionsBytes, BigEndian, Uint16;
    var v := ExtensionsBytes(es);
    var b := Vector16(v) + tail;
    assert b[..2] == BigEndian(|v|) && b[2..2 + |v|] == v;
    ScanExtensionsBytes(es);
  }

  lemma {:induction false} Skip8Vector(v: Bytes, tail: Bytes)
    requires |v| <= 255
    ensures Skip8(Vector8(v) + tail) == Some(tail)
  {
    assert (Vector8(v) + tail)[1 + |v|..] == tail;
  }

  lemma {:induction false} Skip16Vector(v: Bytes, tail: Bytes)
    requires |v| <= 0xffff
    ensures Skip16(Vector16(v) + tail) == Some(tail)
  {
    hide BigEndian, Uint16;
    var b := Vector16(v) + tail;
    assert b[..2] == BigEndian(|v|) && b[2 + |v|..] == tail;
  }

  lemma {:induction false} HelloParts(h: Hello, tail: Bytes)
    requires ValidHello(h)
    ensures var s := HelloBytes(h) + tail;
            |s| >= 39 && s[0] == 1 && Uint24(s[1..4]) + 4 <= |s| &&
            s[38..] == Vector8(h.session) + (Vector16(h.suites) + (Vector8(h.compression) + (ExtensionBlock(h) + tail)))
  {
    hide Vector8, Vector16, Uint24, Uint24Bytes, ExtensionBlock, Parameters;
    var s := HelloBytes(h) + tail;
    var p, x := Parameters(h), ExtensionBlock(h);
    var size := Uint24Bytes(|p| + |x|);
    ParameterParts(h);
    var rest := Vector8(h.session) + Vector16(h.suites) + Vector8(h.compression);
    assert s == [1] + size + (p + x + tail);
    assert s[1..4] == size;
    assert p == p[..34] + rest;
    assert s == ([1] + size + p[..34]) + (rest + x + tail);
    assert s[38..] == rest + x + tail;
    Regroup(Vector8(h.session), Vector16(h.suites), Vector8(h.compression), x, tail);
  }

  lemma {:induction false} Regroup(a: Bytes, b: Bytes, c: Bytes, d: Bytes, e: Bytes)
    ensures a + b + c + d + e == a + (b + (c + (d + e)))
  {
  }

  lemma {:induction false} ParameterParts(h: Hello)
    requires ValidHello(h)
    ensures var p := Parameters(h);
            |p| >= 38 && p[34..] == Vector8(h.session) + Vector16(h.suites) + Vector8(h.compression)
  {
    hide Vector8, Vector16;
    var p := Parameters(h);
    var rest := Vector8(h.session) + Vector16(h.suites) + Vector8(h.compression);
    assert p == (h.version + h.random) + rest;
  }

  /** On the first record of any client, the answer is whether some protocol list names HTTP. A message without
      extensions is the exception: whatever follows it in the record is read as if it were its extensions. */
  lemma {:induction false} ScanHelloBytes(h: Hello, tail: Bytes)
    requires ValidHello(h)
    ensures ScanHello(HelloBytes(h) + tail) <==>
              if h.extensions.Some? then OffersHttp(h.extensions.value) else ScanBlock(tail)
  {
    hide Skip8, Skip16, ScanBlock, Vector8, Vector16, Uint24, Uint24Bytes, ExtensionBlock, OffersHttp;
    var x := ExtensionBlock(h) + tail;
    var c := Vector8(h.compression) + x;
    var b := Vector16(h.suites) + c;
    HelloParts(h, tail);
    Skip8Vector(h.session, b);
    Skip16Vector(h.suites, c);
    Skip8Vector(h.compression, x);
    BlockBytes(h, tail);
  }

  lemma {:induction false} BlockBytes(h: Hello, tail: Bytes)
    requires ValidHello(h)
    ensures ScanBlock(ExtensionBlock(h) + tail) <==>
              if h.extensions.Some? then OffersHttp(h.extensions.value) else ScanBlock(tail)
  {
    hide ScanBlock, Vector16, OffersHttp;
    if h.extensions.Some? {
      ScanBlockBytes(h.extensions.value, tail);
    } else {
      assert [] + tail == tail;
    }
  }

  /** A message that offers nothing, and for which the scanner still answers yes. */
  lemma {:induction false} ReadsPastTheMessage() returns (h: Hello, tail: Bytes)
    ensures ValidHello(h) && h.extensions.None? && ScanHello(HelloBytes(h) + tail)
  {
    hide ScanHello, HelloBytes, ScanBlock, ExtensionsBytes;
    var zeros: Bytes := seq(32, i => 0);
    h := Hello([3, 3], zeros, [], [], [], None);
    var es := [Protocols([H2])];
    H2Only();
    tail := Vector16(ExtensionsBytes(es));
    assert tail + [] == tail;
    ScanBlockBytes(es, []);
    assert Offers(es[0]) by { assert IsHttp(es[0].names[0]); }
    ScanHelloBytes(h, tail);
  }

  lemma {:induction false} H2Only()
    ensures ValidExtensions([Protocols([H2])]) && |ExtensionsBytes([Protocols([H2])])| <= 0xffff
  {
    var e := Protocols([H2]);
    assert |NamesBytes([H2])| == 3;
    assert [e][1..] == [];
    assert |ExtensionsBytes([e])| == |ExtensionBytes(e)|;
  }
}
