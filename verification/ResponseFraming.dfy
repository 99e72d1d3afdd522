/** http.go and proxy.go: the header that announces a response body to the client, the body that follows it, and
    what a client makes of both by section 3.3.3 of RFC 7230. */
module ResponseFraming {
  import opened Wire
  import opened Numerals
  import opened ChunkedCoding
  import opened ChunkedBody
  import opened HostPort

  /** Header names in lower case. OtherParsed are those that the proxy looks at and forwards; Malformed stands for a line
      without a colon. */
  datatype Name =
    | Connection | ProxyConnection | KeepAlive | ProxyAuthorization | Te | Trailer | TransferEncoding | Upgrade
    | ContentLength | OtherParsed(text: Bytes) | Plain(text: Bytes) | Malformed

  /** A header line, its value without white space around it. */
  datatype Field = Field(name: Name, value: Bytes)

  const CHUNKED: Bytes := [99, 104, 117, 110, 107, 101, 100]
  const IDENTITY: Bytes := [105, 100, 101, 110, 116, 105, 116, 121]
  const COMMA: Byte := 44
  const TIMEOUT: Bytes := [116, 105, 109, 101, 111, 117, 116, 61]
  const FIFTEEN: Bytes := [49, 53]
  const KEEP_ALIVE: Bytes := [107, 101, 101, 112, 45, 97, 108, 105, 118, 101]
  const CLOSE: Bytes := [99, 108, 111, 115, 101]
  const UPGRADE: Bytes := [85, 112, 103, 114, 97, 100, 101]

  predicate HopByHop(n: Name) {
    !n.ContentLength? && !n.OtherParsed? && !n.Plain? && !n.Malformed?
  }

  predicate HasParser(n: Name) {
    !n.Plain? && !n.Te? && !n.Malformed?
  }

  function LowerByte(b: Byte): (r: Byte) {
    if 65 <= b <= 90 then var low: Byte := b + 32; low else b
  }

  function Lower(s: Bytes): (r: Bytes)
    ensures |r| == |s|
  {
    seq(|s|, i requires 0 <= i < |s| => LowerByte(s[i]))
  }

  /** The first place of `p` in `s`, or -1. */
  function Find(s: Bytes, p: Bytes): (i: int)
    ensures -1 <= i <= |s|
    ensures i >= 0 ==> i + |p| <= |s| && s[i..i + |p|] == p
  {
    if |s| < |p| then -1
    else if s[..|p|] == p then 0
    else if s == [] then -1
    else
      var i := Find(s[1..], p);
      if i < 0 then -1 else i + 1
  }

  // ---------------------------------------------------------------- parsing and announcing

  datatype Head = Head(contLen: int, chunking: bool, upgrade: Bytes, kept: seq<Field>)

  /** The parser of a Keep-Alive field fails when no digit follows "timeout=". */
  predicate KeepAliveOk(value: Bytes) {
    var s := Lower(value);
    var i := Find(s, TIMEOUT);
    i == -1 || (i + |TIMEOUT| < |s| && 0 <= DigitValue(s[i + |TIMEOUT|]) < 10)
  }

  /** One round of parseHeader; None is a parse error. */
  function Take(h: Head, f: Field): (r: Option<Head>) {
    if HasParser(f.name) && f.value == [] then Some(h)
    else
      match f.name
      case ContentLength =>
        (match ParsedInt(f.value, 10)
         case NotANumber => None
         case Number(n) => Some(h.(contLen := n, kept := h.kept + [f])))
      case TransferEncoding =>
        var v := Lower(f.value);
        if Find(v, CHUNKED) < 0 && Find(v, IDENTITY) < 0 then None
        else Some(h.(chunking := Find(v, CHUNKED) >= 0))
      case KeepAlive => if KeepAliveOk(f.value) then Some(h) else None
      case Upgrade => Some(h.(upgrade := Lower(f.value)))
      case Malformed => None
      case _ => Some(if HopByHop(f.name) then h else h.(kept := h.kept + [f]))
  }

  function Scan(fields: seq<Field>): (r: Option<Head>) {
    if fields == [] then Some(Head(-1, false, [], []))
    else
      match Scan(fields[..|fields| - 1])
      case None => None
      case Some(h) => Take(h, fields[|fields| - 1])
  }

  const TE_CHUNKED := Field(TransferEncoding, CHUNKED)
  const LENGTH_ZERO := Field(ContentLength, [ZERO])

  /** The header sent to the client. */
  function Announced(h: Head, hasBody: bool, keepAlive: bool): (fields: seq<Field>) {
    h.kept +
    (if h.chunking then [TE_CHUNKED] else if h.contLen == -1 then [if hasBody then TE_CHUNKED else LENGTH_ZERO] else []) +
    ConnectionFields(h, keepAlive)
  }

  function ConnectionFields(h: Head, keepAlive: bool): (fields: seq<Field>) {
    if h.upgrade != [] then [Field(Connection, UPGRADE), Field(Upgrade, h.upgrade)]
    else if keepAlive then [Field(Connection, KEEP_ALIVE), Field(KeepAlive, TIMEOUT + FIFTEEN)]
    else [Field(Connection, CLOSE)]
  }

  predicate HasBody(status: int, isHead: bool) {
    !(isHead || status == 304 || status == 204 || status < 200)
  }

  // ---------------------------------------------------------------- what a receiver makes of it

  datatype Framing = NoBody | Chunked | Length(n: nat) | UntilClose | Invalid

  function Values(fields: seq<Field>, name: Name): (vs: seq<Bytes>) {
    if fields == [] then []
    else
      var f := fields[|fields| - 1];
      Values(fields[..|fields| - 1], name) + if f.name == name then [f.value] else []
  }

  /** The last of the codings in a Transfer-Encoding field. */
  function FinalCoding(v: Bytes): (c: Bytes) {
    Trimmed(v[LastIndex(v, COMMA) + 1..])
  }

  /** Section 3.3.3 of RFC 7230 for responses with at most one field of each kind: chunked must be the final coding;
      behind any other coding, identity included, the body ends with the connection. */
  function FramingOf(fields: seq<Field>, hasBody: bool): (m: Framing) {
    var te, cl := Values(fields, TransferEncoding), Values(fields, ContentLength);
    if !hasBody then NoBody
    else if |te| > 1 then Invalid
    else if |te| == 1 && FinalCoding(Lower(te[0])) == CHUNKED then Chunked
    else if |te| == 1 then UntilClose
    else if cl == [] then UntilClose
    else if |cl| == 1 && cl[0] != [] && IsNumeral(cl[0], 10) then Length(NumeralValue(cl[0], 10))
    else Invalid
  }

  /** The payload of a message whose sender delivered all of it and then perhaps more. */
  function Payload(m: Framing, stream: Bytes): (p: Option<Bytes>) {
    match m
    case NoBody => Some([])
    case Chunked => if Dechunk(stream).Decoded? then Some(Dechunk(stream).payload) else None
    case Length(n) => if n <= |stream| then Some(stream[..n]) else None
    case UntilClose => Some(stream)
    case Invalid => None
  }

  /** The payload of a message that is exactly these bytes, on a connection that stays open. */
  function Received(m: Framing, wire: Bytes): (p: Option<Bytes>) {
    match m
    case NoBody => if wire == [] then Some([]) else None
    case Chunked => if Dechunk(wire).Decoded? && Dechunk(wire).rest == [] then Some(Dechunk(wire).payload) else None
    case Length(n) => if |wire| == n then Some(wire) else None
    case _ => None
  }

  // ---------------------------------------------------------------- what the parser knows

  lemma {:induction false} ValuesAppend(a: seq<Field>, b: seq<Field>, name: Name)
    ensures Values(a + b, name) == Values(a, name) + Values(b, name)
  {
    if b == [] {
      assert a + b == a;
    } else {
      var n := |b| - 1;
      assert (a + b)[..|a + b| - 1] == a + b[..n];
      ValuesAppend(a, b[..n], name);
    }
  }

  lemma {:induction false} ValuesOne(f: Field, name: Name)
    ensures Values([f], name) == if f.name == name then [f.value] else []
  {
    assert [f][..0] == [];
  }

  /** What is known of the lengths after parsing some fields, when there is at most one. */
  ghost predicate LengthKnown(cl: seq<Bytes>, h: Head) {
    (cl == [] ==> h.contLen == -1 && Values(h.kept, ContentLength) == []) &&
    (|cl| == 1 && cl[0] != [] ==> ParsedInt(cl[0], 10) == Number(h.contLen) && Values(h.kept, ContentLength) == cl)
  }

  ghost predicate CodingKnown(te: seq<Bytes>, h: Head) {
    (te == [] ==> !h.chunking) &&
    (|te| == 1 && te[0] != [] ==> (h.chunking <==> Find(Lower(te[0]), CHUNKED) >= 0)) &&
    Values(h.kept, TransferEncoding) == []
  }

  lemma {:induction false} KeptGrows(kept: seq<Field>, f: Field)
    ensures Values(kept + [f], ContentLength) ==
            Values(kept, ContentLength) + if f.name == ContentLength then [f.value] else []
    ensures Values(kept + [f], TransferEncoding) ==
            Values(kept, TransferEncoding) + if f.name == TransferEncoding then [f.value] else []
  {
    ValuesAppend(kept, [f], ContentLength);
    ValuesAppend(kept, [f], TransferEncoding);
    ValuesOne(f, ContentLength);
    ValuesOne(f, TransferEncoding);
  }

  lemma {:induction false} TakeKnows(h: Head, f: Field, h': Head, cl: seq<Bytes>, te: seq<Bytes>)
    requires LengthKnown(cl, h) && CodingKnown(te, h) && Take(h, f) == Some(h')
    ensures LengthKnown(if f.name == ContentLength then cl + [f.value] else cl, h')
    ensures CodingKnown(if f.name == TransferEncoding then te + [f.value] else te, h')
  {
    hide Values, ParsedInt, Find, KeepAliveOk;
    KeptGrows(h.kept, f);
    assert [] + [f.value] == [f.value];
  }

  lemma {:induction false} ScanKnows(fields: seq<Field>)
    requires Scan(fields).Some?
    ensures LengthKnown(Values(fields, ContentLength), Scan(fields).value)
    ensures CodingKnown(Values(fields, TransferEncoding), Scan(fields).value)
  {
    hide Take, LengthKnown, CodingKnown;
    if fields == [] {
      EmptyKnown();
    } else {
      var n := |fields| - 1;
      ScanKnows(fields[..n]);
      TakeKnows(Scan(fields[..n]).value, fields[n], Scan(fields).value,
                Values(fields[..n], ContentLength), Values(fields[..n], TransferEncoding));
      assert Values(fields[..n], ContentLength) + [] == Values(fields[..n], ContentLength);
      assert Values(fields[..n], TransferEncoding) + [] == Values(fields[..n], TransferEncoding);
    }
  }

  lemma {:induction false} EmptyKnown()
    ensures LengthKnown([], Head(-1, false, [], [])) && CodingKnown([], Head(-1, false, [], []))
  {
  }

  /** At most one transfer coding and at most one length, neither empty. */
  predicate Single(fields: seq<Field>) {
    var te, cl := Values(fields, TransferEncoding), Values(fields, ContentLength);
    |te| <= 1 && (te != [] ==> te[0] != []) && |cl| <= 1 && (cl != [] ==> cl[0] != [])
  }

  /** A length that an int64 holds. */
  predicate FitsInt64(cl: seq<Bytes>)
    requires cl != []
  {
    IsNumeral(cl[0], 10) && NumeralValue(cl[0], 10) < TWO63
  }

  /** The proxy takes the server's header as the standard does: chunked is the final coding; or there is another one, in
      which the word does not occur, and no length; or no coding, and no length or one that an int64 holds. */
  predicate ServerAgrees(fields: seq<Field>)
    requires Single(fields) && Scan(fields).Some?
  {
    var te, cl := Values(fields, TransferEncoding), Values(fields, ContentLength);
    if te != [] && FinalCoding(Lower(te[0])) == CHUNKED then true
    else if te != [] then Find(Lower(te[0]), CHUNKED) < 0 && Scan(fields).value.contLen < 0
    else cl == [] || FitsInt64(cl)
  }

  /** The client's header announces the body as it is sent: in chunks, or with a length that an int64 holds. */
  predicate ClientAgrees(fields: seq<Field>)
    requires Single(fields) && Scan(fields).Some?
  {
    var h := Scan(fields).value;
    h.chunking || h.contLen == -1 || (Values(fields, ContentLength) != [] && FitsInt64(Values(fields, ContentLength)))
  }

  /** How sendBody transmits the body of a response with this header. */
  function Mode(h: Head, hasBody: bool): (m: Framing) {
    if !hasBody then NoBody
    else if h.chunking then Chunked
    else if h.contLen >= 0 then Length(h.contLen)
    else UntilClose
  }

  lemma {:induction false} FindFinds(s: Bytes, p: Bytes, i: nat)
    requires i + |p| <= |s| && s[i..i + |p|] == p
    ensures Find(s, p) >= 0
  {
    if i > 0 {
      assert s[1..][i - 1..i - 1 + |p|] == p;
      FindFinds(s[1..], p, i - 1);
    }
  }

  lemma {:induction false} TrimmedIsPart(s: Bytes) returns (i: nat)
    ensures i + |Trimmed(s)| <= |s| && s[i..i + |Trimmed(s)|] == Trimmed(s)
    decreases |s|
  {
    if s == [] {
      i := 0;
    } else if IsSpace(s[0]) {
      i := TrimmedIsPart(s[1..]);
      assert s[1..][i..i + |Trimmed(s)|] == s[1 + i..1 + i + |Trimmed(s)|];
      i := i + 1;
    } else if IsSpace(s[|s| - 1]) {
      i := TrimmedIsPart(s[..|s| - 1]);
      assert s[..|s| - 1][i..i + |Trimmed(s)|] == s[i..i + |Trimmed(s)|];
    } else {
      i := 0;
      assert s[..|s|] == s;
    }
  }

  /** A value whose final coding is chunked contains the word. */
  lemma {:induction false} FinalIsFound(v: Bytes)
    requires FinalCoding(v) == CHUNKED
    ensures Find(v, CHUNKED) >= 0
  {
    hide Trimmed, LastIndex, Find;
    var k := LastIndex(v, COMMA) + 1;
    var i := TrimmedIsPart(v[k..]);
    assert v[k..][i..i + |CHUNKED|] == v[k + i..k + i + |CHUNKED|];
    FindFinds(v, CHUNKED, k + i);
  }

  lemma {:induction false} ChunkedIsFinal()
    ensures FinalCoding(Lower(CHUNKED)) == CHUNKED && Lower(CHUNKED) == CHUNKED
  {
    assert Lower(CHUNKED) == CHUNKED;
    LastIndexIs(CHUNKED, COMMA, -1);
    assert CHUNKED[0..] == CHUNKED;
  }

  /** What the parser makes of a numeral: its value exactly when an int64 holds it. */
  lemma {:induction false} NumeralParsed(b: Bytes)
    requires b != [] && IsNumeral(b, 10)
    ensures ParsedInt(b, 10) == Number(Wrap64(NumeralValue(b, 10)))
    ensures ParsedInt(b, 10) == Number(NumeralValue(b, 10)) <==> NumeralValue(b, 10) < TWO63
  {
    hide NumeralValue;
    assert 0 <= DigitValue(b[0]);
    assert DigitValue(PLUS) == DigitValue(MINUS) == -1;
  }

  /** The framing that the proxy sees in a server's header is that of the standard exactly under the condition above. */
  lemma {:induction false} ServerFraming(fields: seq<Field>)
    requires Scan(fields).Some? && Single(fields)
    ensures Mode(Scan(fields).value, true) == FramingOf(fields, true) <==> ServerAgrees(fields)
  {
    hide Scan, Values, Find, Lower, NumeralValue, ParsedInt, FinalCoding;
    ScanKnows(fields);
    var cl, te := Values(fields, ContentLength), Values(fields, TransferEncoding);
    if te != [] && FinalCoding(Lower(te[0])) == CHUNKED { FinalIsFound(Lower(te[0])); }
    if cl != [] && IsNumeral(cl[0], 10) { NumeralParsed(cl[0]); }
  }

  /** The announced framing is the one that is used exactly under the condition above. */
  lemma {:induction false} ClientFraming(fields: seq<Field>, keepAlive: bool)
    requires Scan(fields).Some? && Single(fields)
    ensures var h := Scan(fields).value;
            FramingOf(Announced(h, true, keepAlive),
                true) == (if h.chunking || h.contLen < 0 then Chunked else Length(h.contLen))
            <==> ClientAgrees(fields)
  {
    hide Scan, Values, Find, Lower, NumeralValue, ParsedInt, FinalCoding;
    var h := Scan(fields).value;
    ScanKnows(fields);
    ChunkedIsFinal();
    AnnouncedValues(h, true, keepAlive);
    var cl := Values(fields, ContentLength);
    if cl != [] && IsNumeral(cl[0], 10) { NumeralParsed(cl[0]); }
  }

  lemma {:induction false} OneField(f: Field)
    ensures Scan([f]) == Take(Head(-1, false, [], []), f)
    ensures Values([f], TransferEncoding) == (if f.name == TransferEncoding then [f.value] else [])
    ensures Values([f], ContentLength) == (if f.name == ContentLength then [f.value] else [])
  {
    hide Take;
    assert [f][..0] == [];
    ValuesOne(f, TransferEncoding);
    ValuesOne(f, ContentLength);
  }

  /** A length of 2^64 + 5 is read as 5, and 5 bytes are sent under the announcement of the whole. */
  lemma {:induction false} HugeLengthIsCut(keepAlive: bool) returns (fields: seq<Field>)
    ensures Single(fields) && Scan(fields).Some? && !ServerAgrees(fields) && !ClientAgrees(fields)
    ensures Mode(Scan(fields).value, true) == Length(5)
    ensures FramingOf(fields, true) == Length(TWO64 + 5)
    ensures FramingOf(Announced(Scan(fields).value, true, keepAlive), true) == Length(TWO64 + 5)
  {
    hide NumeralValue, ParsedInt, Itoa, Announced, Find, Lower, KeepAliveOk, Values, Scan, FinalCoding;
    var d := Itoa(TWO64 + 5);
    DigitsOfItoa(TWO64 + 5);
    NumeralParsed(d);
    fields := [Field(ContentLength, d)];
    OneField(fields[0]);
    ScanKnows(fields);
    AnnouncedValues(Scan(fields).value, true, keepAlive);
  }

  const CHUNKED_GZIP: Bytes := CHUNKED + [COMMA, 103, 122, 105, 112]

  /** A body that is chunked first and compressed then ends with the connection, but is taken for chunked. */
  lemma {:induction false} ChunkedIsNotLast() returns (fields: seq<Field>)
    ensures Single(fields) && Scan(fields).Some? && !ServerAgrees(fields)
    ensures Mode(Scan(fields).value, true) == Chunked && FramingOf(fields, true) == UntilClose
  {
    hide Find, Lower, ParsedInt, KeepAliveOk, Values, Scan, FinalCoding;
    GzipIsLast();
    var f := Field(TransferEncoding, CHUNKED_GZIP);
    fields := [f];
    OneField(f);
  }

  lemma {:induction false} GzipIsLast()
    ensures Find(Lower(CHUNKED_GZIP), CHUNKED) >= 0 && FinalCoding(Lower(CHUNKED_GZIP)) != CHUNKED
  {
    hide Find, Trimmed, LastIndex;
    assert Lower(CHUNKED_GZIP) == CHUNKED_GZIP;
    assert CHUNKED_GZIP[0..0 + |CHUNKED|] == CHUNKED;
    FindFinds(CHUNKED_GZIP, CHUNKED, 0);
    LastIndexIs(CHUNKED_GZIP, COMMA, 7);
    var rest := CHUNKED_GZIP[8..];
    var i := TrimmedIsPart(rest);
    assert |Trimmed(rest)| <= 4;
  }

  lemma {:induction false} NoValues()
    ensures Values([], TransferEncoding) == [] && Values([], ContentLength) == []
  {
  }

  lemma {:induction false} EndValues(h: Head, keepAlive: bool)
    ensures Values(ConnectionFields(h, keepAlive), TransferEncoding) == []
    ensures Values(ConnectionFields(h, keepAlive), ContentLength) == []
  {
    hide Values;
    var fields := ConnectionFields(h, keepAlive);
    assert [fields[0]] + fields[1..] == fields;
    ValuesAppend([fields[0]], fields[1..], TransferEncoding);
    ValuesAppend([fields[0]], fields[1..], ContentLength);
    ValuesOne(fields[0], TransferEncoding);
    ValuesOne(fields[0], ContentLength);
    if |fields| > 1 {
      assert fields[1..] == [fields[1]];
      ValuesOne(fields[1], TransferEncoding);
      ValuesOne(fields[1], ContentLength);
    } else {
      NoValues();
    }
  }

  lemma {:induction false} AnnouncedValues(h: Head, hasBody: bool, keepAlive: bool)
    requires Values(h.kept, TransferEncoding) == []
    ensures var a := Announced(h, hasBody, keepAlive);
            var added := !h.chunking && h.contLen == -1;
            Values(a, TransferEncoding) == (if h.chunking || (added && hasBody) then [CHUNKED] else []) &&
            Values(a, ContentLength) == Values(h.kept, ContentLength) + if added && !hasBody then [[ZERO]] else []
  {
    var mid := if h.chunking then [TE_CHUNKED]
               else if h.contLen == -1 then [if hasBody then TE_CHUNKED else LENGTH_ZERO]
               else [];
    var end := ConnectionFields(h, keepAlive);
    ValuesOne(TE_CHUNKED, TransferEncoding);
    ValuesOne(TE_CHUNKED, ContentLength);
    ValuesOne(LENGTH_ZERO, TransferEncoding);
    ValuesOne(LENGTH_ZERO, ContentLength);
    assert Values([], TransferEncoding) == [] && Values([], ContentLength) == [];
    EndValues(h, keepAlive);
    hide Values, ConnectionFields;
    ValuesAppend(h.kept, mid, TransferEncoding);
    ValuesAppend(h.kept, mid, ContentLength);
    ValuesAppend(h.kept + mid, end, TransferEncoding);
    ValuesAppend(h.kept + mid, end, ContentLength);
  }

  /** A length below -1, other than -1 itself, is forwarded without a coding, while the body is sent in chunks: no
      client finds a chunked message there. */
  lemma {:induction false} NegativeLengthIsLost(h: Head, keepAlive: bool)
    requires Values(h.kept, TransferEncoding) == [] && !h.chunking && h.contLen < -1
    ensures Mode(h, true) == UntilClose && FramingOf(Announced(h, true, keepAlive), true) != Chunked
  {
    hide Values;
    AnnouncedValues(h, true, keepAlive);
  }

  /** Such a header passes the parser. */
  lemma {:induction false} NegativeLengthParses() returns (fields: seq<Field>)
    ensures Scan(fields).Some? && !Scan(fields).value.chunking && Scan(fields).value.contLen == -2
  {
    var f := Field(ContentLength, [MINUS, 50]);
    fields := [f];
    assert fields[..0] == [];
    assert [MINUS, 50][1..] == [50] && [50][..0] == [] && DigitValue(50) == 2;
    assert NumeralValue([50], 10) == 2;
  }

  // ---------------------------------------------------------------- the methods

  /** Header: what the proxy keeps of a message's header; `raw` is what it will send on. */
  class Header {
    var contLen: int
    var chunking: bool
    var upgrade: Bytes
    var raw: seq<Field>

    ghost function Parsed(): (h: Head) reads this {
      Head(contLen, chunking, upgrade, raw)
    }

    constructor ()
      ensures raw == [] && !chunking && upgrade == []
    {
      contLen, chunking, upgrade, raw := 0, false, [], [];
    }

    /** The function from the table headerParser. */
    method ParseField(f: Field) returns (ok: bool)
      requires HasParser(f.name) && f.value != []
      modifies this
      ensures raw == old(raw)
      ensures var t := Take(old(Parsed()), f);
              ok == t.Some? && (ok ==> (contLen, chunking, upgrade) == (t.value.contLen, t.value.chunking, t.value.upgrade))
    {
      hide Find, ParsedInt;
      match f.name {
      case ContentLength =>
        var n := ParseIntFromBytes(f.value, 10);
        if n.NotANumber? { return false; }
        contLen := n.n;
      case TransferEncoding =>
        var v := Lower(f.value);
        if Find(v, CHUNKED) < 0 && Find(v, IDENTITY) < 0 { return false; }
        chunking := Find(v, CHUNKED) >= 0;
      case KeepAlive => return KeepAliveOk(f.value);
      case Upgrade => upgrade := Lower(f.value);
      case _ =>
      }
      return true;
    }

    method ParseHeader(fields: seq<Field>) returns (ok: bool)
      requires raw == [] && !chunking && upgrade == []
      modifies this
      ensures ok == Scan(fields).Some?
      ensures ok ==> Parsed() == Scan(fields).value
    {
      hide Take;
      contLen := -1;
      for i := 0 to |fields|
        invariant Scan(fields[..i]) == Some(Parsed())
      {
        var f := fields[i];
        assert fields[..i + 1][..i] == fields[..i];
        TakeCases(Parsed(), f);
        if f.name.Malformed? {
          ScanFails(fields, i + 1);
          return false;
        }
        if HasParser(f.name) {
          if f.value == [] { continue; }
          ok := ParseField(f);
          if !ok {
            ScanFails(fields, i + 1);
            return;
          }
        }
        if HopByHop(f.name) { continue; }
        raw := raw + [f];
      }
      assert fields[..|fields|] == fields;
      ok := true;
    }
  }

  /** What a round keeps of the line. */
  lemma {:induction false} TakeCases(h: Head, f: Field)
    ensures HasParser(f.name) && f.value == [] ==> Take(h, f) == Some(h)
    ensures f.name.Malformed? ==> Take(h, f) == None
    ensures !HasParser(f.name) && !f.name.Malformed? ==>
              Take(h, f) == Some(if HopByHop(f.name) then h else h.(kept := h.kept + [f]))
    ensures Take(h, f).Some? && !(HasParser(f.name) && f.value == []) ==>
              Take(h, f).value.kept == if HopByHop(f.name) then h.kept else h.kept + [f]
  {
    hide Find, ParsedInt, KeepAliveOk;
  }

  lemma {:induction false} ScanFails(fields: seq<Field>, k: nat)
    requires k <= |fields| && Scan(fields[..k]).None?
    ensures Scan(fields).None?
  {
    hide Take;
    if k < |fields| {
      assert fields[..|fields| - 1][..k] == fields[..k];
      ScanFails(fields[..|fields| - 1], k);
    } else {
      assert fields[..k] == fields;
    }
  }

  /** The stream of a server that delivers its whole response. */
  ghost predicate Delivers(m: Framing, r: Reader)
    requires r.Valid()
    reads r
  {
    Payload(m, r.Rest()).Some? && |r.Rest()| < 0x1000_0000_0000_0000 &&
    (m.Chunked? ==> Fits(r.Rest(), r.bufSize)) && (m.UntilClose? ==> r.end == EndOfFile)
  }

  /** parseResponse behind the status line, and readResponse: when the header can be announced, the client receives
      exactly the payload that the proxy takes the server to deliver; which is the server's payload, when both take the
      header alike. The plugin's copy, within its limit, decodes to it as well, unless there is no body and the header
      says chunked; `meta` is the framing that is recorded. */
  method RelayResponse(w: Writer, r: Reader, fields: seq<Field>, status: int, isHead: bool, keepAlive: bool)
      returns (res: Result, sent: seq<Field>, meta: bool)
    requires r.Valid() && w.Synced() && w.start == |w.sent| && Single(fields)
    requires Scan(fields).Some? ==>
               Delivers(Mode(Scan(fields).value, HasBody(status, isHead)), r) &&
               (HasBody(status, isHead) ==> ClientAgrees(fields))
    modifies r, w
    ensures Scan(fields).None? ==> res == Result.Malformed && w.sent == old(w.sent)
    ensures Scan(fields).Some? ==>
              (res == Done || res == WriteFailed) &&
                  sent == Announced(Scan(fields).value, HasBody(status, isHead), keepAlive) &&
              meta == (Scan(fields).value.chunking ||
                       (Scan(fields).value.contLen < 0 && !(isHead || status == 304 || status == 204 || status < 200)))
    ensures Scan(fields).Some? && (isHead || status == 304 || status == 204 || status < 200) ==>
              res == Done && w.sent == old(w.sent) && w.tap == old(w.tap)
    ensures Scan(fields).Some? && !(isHead || status == 304 || status == 204 || status < 200) && res == Done ==>
              old(w.sent) <= w.sent &&
              var h := Scan(fields).value;
              var wire := w.sent[|old(w.sent)|..];
              var stream := old(r.Rest());
              if h.chunking then Dechunk(stream).Decoded? && Dechunk(wire) == Decoded(Dechunk(stream).payload, [])
              else if h.contLen >= 0 then h.contLen <= |stream| && wire == stream[..h.contLen]
              else Dechunk(wire) == Decoded(stream, [])
    ensures res == Done ==>
              var payload := Payload(Mode(Scan(fields).value, HasBody(status, isHead)), old(r.Rest()));
              payload.Some? && old(w.sent) <= w.sent &&
              Received(FramingOf(sent, HasBody(status, isHead)), w.sent[|old(w.sent)|..]) == payload &&
              (HasBody(status, isHead) && ServerAgrees(fields) ==>
                payload == Payload(FramingOf(fields, true), old(r.Rest()))) &&
              (w.tap.On? && !w.tap.tooLarge ==>
                (Received(if meta then Chunked else Length(|w.tap.data|), w.tap.data) == payload <==>
                  HasBody(status, isHead) || !Scan(fields).value.chunking))
  {
    hide Recorded, Dechunk, Relayed, Announced, FramingOf, ServerAgrees, ClientAgrees, Single, BodyRelay, Kept;
    sent, meta := [], false;
    var h := new Header();
    var ok := h.ParseHeader(fields);
    if !ok { return Result.Malformed, sent, meta; }
    ClientFraming(fields, keepAlive);
    ServerFraming(fields);
    NoBodyFraming(h.Parsed(), keepAlive);
    var hasBody := HasBody(status, isHead);
    sent := Announced(Head(h.contLen, h.chunking, h.upgrade, h.raw), hasBody, keepAlive);
    meta := h.chunking || (h.contLen < 0 && hasBody);
    if !hasBody {
      NothingRecorded(w.sent, w.start);
      return Done, sent, meta;
    }
    res := RelayBody(w, r, h.contLen, h.chunking);
  }

  lemma {:induction false} NoBodyFraming(h: Head, keepAlive: bool)
    ensures FramingOf(Announced(h, false, keepAlive), false) == NoBody
  {
  }

  /** The answer to a HEAD request with a chunked coding: the client is served, and the plugin's empty copy does not
      decode. */
  method HeadIsRecordedAsChunked() returns (w: Writer, meta: bool)
    ensures w.tap == On([], false) && meta && Received(Chunked, w.tap.data) == None
  {
    hide Recorded, Kept, Dechunk, Fits, Single, ClientAgrees, ServerAgrees, FramingOf, Announced, Scan;
    var f := Field(TransferEncoding, CHUNKED);
    HeadFields(f);
    w := new Writer([], true, 0, None, 0);
    var r := new Reader([], 8192, EndOfFile);
    NothingRecorded(w.sent, w.start);
    var res, sent;
    res, sent, meta := RelayResponse(w, r, [f], 200, true, true);
  }

  lemma {:induction false} HeadFields(f: Field)
    requires f == Field(TransferEncoding, CHUNKED)
    ensures Single([f]) && Scan([f]) == Some(Head(-1, true, [], []))
  {
    OneField(f);
    ChunkedIsFinal();
    assert CHUNKED[..7] == CHUNKED;
  }

  lemma {:induction false} NothingRecorded(sent: Bytes, start: nat)
    requires start == |sent|
    ensures sent[start..] == [] && Recorded([]) == On([], false) && Dechunk([]) == Undecodable
  {
  }

  lemma {:induction false} RecordedWithin(wire: Bytes, tap: Recording)
    requires tap == Off || tap == Recorded(wire)
    ensures tap.On? && !tap.tooLarge ==> tap.data == wire
  {
  }

  /** The body of a response that has one. */
  method RelayBody(w: Writer, r: Reader, contLen: int, chunk: bool) returns (res: Result)
    requires r.Valid() && w.Synced() && w.start == |w.sent|
    requires Delivers(if chunk then Chunked else if contLen >= 0 then Length(contLen) else UntilClose, r)
    modifies r, w
    ensures res == Done || res == WriteFailed
    ensures res == Done ==> old(w.sent) <= w.sent
    ensures res == Done ==>
              var m := if chunk then Chunked else if contLen >= 0 then Length(contLen) else UntilClose;
              var wire := w.sent[|old(w.sent)|..];
              Payload(m, old(r.Rest())).Some? &&
              Received(if chunk || contLen < 0 then Chunked else Length(contLen), wire) == Payload(m, old(r.Rest())) &&
              (w.tap.On? && !w.tap.tooLarge ==> w.tap.data == wire)
  {
    hide Recorded, Dechunk, Relayed;
    ghost var sent0 := w.sent;
    if chunk {
      res := SendWellFormedChunks(w, r);
    } else if contLen >= 0 {
      res := SendBodyWithContLen(w, r, contLen);
    } else {
      res := SendBodySplitIntoChunk(w, r);
    }
    if res == Done { RecordedWithin(w.sent[|sent0|..], w.tap); }
  }
}
