/** The chunked coding of section 4.1 of RFC 7230: a reference decoder, and the specification of the
    pass-through that proxy.go performs on a chunked body. */
module ChunkedCoding {
  import opened Wire
  import opened Numerals

  /** The chunk at the head of a stream, read strictly: a size line of hexadecimal digits, an optional
      extension and CRLF; `size` bytes; CRLF. */
  datatype Strict = Bad | Block(line: nat, digits: nat, size: nat)

  function StrictHead(s: Bytes): (h: Strict)
    ensures h.Block? ==> 2 <= h.line && h.line + h.size + 2 <= |s|
  {
    var n := LineLength(s);
    if n < 2 || s[n - 2] != CR then Bad
    else
      var head := s[..n - 2];
      var digits := head[..IndexOf(head, SEMICOLON)];
      if digits == [] || !IsNumeral(digits, 16) then Bad
      else
        var size := NumeralValue(digits, 16);
        if n + size + 2 <= |s| && s[n + size..n + size + 2] == CRLF then Block(n, |digits|, size) else Bad
  }

  datatype Decoded = Decoded(payload: Bytes, rest: Bytes) | Undecodable

  /** Reference decoder: data chunks, then a last chunk of size zero and no trailer. */
  function Dechunk(s: Bytes): (r: Decoded)
    decreases |s|
  {
    match StrictHead(s)
    case Bad => Undecodable
    case Block(n, _, size) =>
      var later := s[n + size + 2..];
      if size == 0 then Decoded([], later)
      else
        match Dechunk(later)
        case Undecodable => Undecodable
        case Decoded(payload, rest) => Decoded(s[n..n + size] + payload, rest)
  }

  /** The length of the data chunks of a decodable stream, that is, where its last chunk starts. */
  function LastChunkAt(s: Bytes): (k: nat)
    requires Dechunk(s).Decoded?
    ensures k < |s|
    decreases |s|
  {
    var Block(n, _, size) := StrictHead(s);
    if size == 0 then 0 else n + size + 2 + LastChunkAt(s[n + size + 2..])
  }

  const CHUNK_END: Bytes := [ZERO, CR, LF, CR, LF]

  datatype Result = Done | ReadFailed | Malformed | WriteFailed | Spins

  /** What a run of the pass-through puts on the wire, what it leaves unread, and how it ends. */
  datatype Relay = Relay(wire: Bytes, rest: Bytes, result: Result)

  function Min(a: nat, b: nat): (m: nat) {
    if a <= b then a else b
  }

  /** The line PeekSlice finds inside the buffer; 0 when there is none. */
  function PeekedLine(s: Bytes, bufSize: nat): (n: nat)
    ensures n <= |s|
    ensures n > 0 ==> n == LineLength(s)
  {
    var n := LineLength(s);
    if n <= bufSize then n else 0
  }

  /** The chunk size that the proxy reads: everything before `;`, trimmed, sign and overflow included. */
  function LaxSize(line: Bytes): (r: Parsed) {
    ParsedInt(Trimmed(line[..IndexOf(line, SEMICOLON)]), 16)
  }

  /** What sendBodyChunked makes of the bytes in front of it. `Copy(k)` is a data chunk: `k` bytes pass
      through. `Stuck` is a size line whose chunk length is not positive. */
  datatype Lax = NoLine | NoSize | Last(line: nat) | Copy(k: nat) | Stuck

  function LaxHead(input: Bytes, bufSize: nat): (h: Lax)
    ensures h.Copy? ==> 0 < h.k <= |input|
    ensures h.Last? ==> 0 < h.line <= |input|
  {
    var n := PeekedLine(input, bufSize);
    if n == 0 then NoLine
    else
      match LaxSize(input[..n])
      case NotANumber => NoSize
      case Number(size) =>
        if size == 0 then Last(n)
        else
          var total := Wrap64(n + size + 2);
          if total <= 0 then Stuck else Copy(Min(total, |input|))
  }

  /** The end of the body: the last chunk's size line is dropped and its CRLF checked. */
  function AfterLast(rest: Bytes): (r: Relay)
    ensures r.wire == [] || (r.wire == CHUNK_END && r.result == Done)
    ensures r.result != WriteFailed
  {
    if |rest| < 2 then Relay([], [], ReadFailed)
    else if rest[..2] != CRLF then Relay([], rest[2..], Malformed)
    else Relay(CHUNK_END, rest[2..], Done)
  }

  /** What sendBodyChunked does to any input that is followed by the end of the stream. */
  function Relayed(input: Bytes, bufSize: nat): (r: Relay)
    ensures r.result != WriteFailed
    decreases |input|
  {
    match LaxHead(input, bufSize)
    case NoLine => Relay([], input, ReadFailed)
    case NoSize => Relay([], input, Malformed)
    case Stuck => Relay([], input, Spins)
    case Last(n) => AfterLast(input[n..])
    case Copy(k) =>
      var later := Relayed(input[k..], bufSize);
      Relay(input[..k] + later.wire, later.rest, later.result)
  }

  /** Every size line of a decodable stream fits the reader's buffer and has at most 15 digits. */
  predicate Fits(s: Bytes, bufSize: nat)
    requires Dechunk(s).Decoded?
    decreases |s|
  {
    var Block(n, d, size) := StrictHead(s);
    n <= bufSize && d <= 15 && (size != 0 ==> Fits(s[n + size + 2..], bufSize))
  }

  lemma {:induction false} Assoc(a: Bytes, b: Bytes, c: Bytes)
    ensures (a + b) + c == a + (b + c)
  {
  }

  lemma {:induction false} Splice(s: Bytes, k: nat, j: nat, e: Bytes)
    requires k <= |s| && j <= |s[k..]|
    ensures s[..k] + (s[k..][..j] + e) == s[..k + j] + e
  {
  }

  lemma {:induction false} IndexOfIsFirst(s: Bytes, b: Byte, i: nat)
    requires i <= |s|
    requires forall k :: 0 <= k < i ==> s[k] != b
    requires i < |s| ==> s[i] == b
    ensures IndexOf(s, b) == i
  {
  }

  /** The part of a line before its extension, whether or not it has one. */
  lemma {:induction false} SizePart(head: Bytes)
    requires var d := head[..IndexOf(head, SEMICOLON)]; d != [] && !IsSpace(d[0]) && !IsSpace(d[|d| - 1])
    ensures var line := head + CRLF;
            Trimmed(line[..IndexOf(line, SEMICOLON)]) == head[..IndexOf(head, SEMICOLON)]
  {
    hide Trimmed;
    var i := IndexOf(head, SEMICOLON);
    var line, digits := head + CRLF, head[..i];
    if i < |head| {
      IndexOfIsFirst(line, SEMICOLON, i);
      assert line[..i] == [] + digits + [];
      TrimmedSpaceAround([], digits, []);
    } else {
      IndexOfIsFirst(line, SEMICOLON, |line|);
      assert line[..|line|] == [] + digits + CRLF;
      TrimmedSpaceAround([], digits, CRLF);
    }
  }

  /** The proxy's lax reading of a size line agrees with the strict one. */
  lemma {:induction false} LaxSizeOfStrict(head: Bytes)
    requires var d := head[..IndexOf(head, SEMICOLON)]; 0 < |d| <= 15 && IsNumeral(d, 16)
    ensures var d := head[..IndexOf(head, SEMICOLON)];
            && LaxSize(head + CRLF) == Number(NumeralValue(d, 16))
            && NumeralValue(d, 16) < 0x1000_0000_0000_0000
  {
    hide Trimmed, ParsedInt, NumeralValue, IndexOf;
    var digits := head[..IndexOf(head, SEMICOLON)];
    assert DigitValue(digits[0]) >= 0 && DigitValue(digits[|digits| - 1]) >= 0;
    HexParsesExactly(digits);
    SizePart(head);
  }

  lemma {:induction false} LaxHeadOfStrict(s: Bytes, bufSize: nat)
    requires |s| < 0x1000_0000_0000_0000
    requires StrictHead(s).Block?
    requires StrictHead(s).line <= bufSize && StrictHead(s).digits <= 15
    ensures var Block(n, _, size) := StrictHead(s);
            LaxHead(s, bufSize) == if size == 0 then Last(n) else Copy(n + size + 2)
  {
    var n := LineLength(s);
    assert s[..n] == s[..n - 2] + CRLF;
    LaxSizeOfStrict(s[..n - 2]);
  }

  /** The pass-through of a well-formed stream: the data chunks verbatim, the last chunk normalised,
      and the reader left exactly at the bytes that follow. */
  lemma {:induction false} RelayedWellFormed(s: Bytes, bufSize: nat)
    requires |s| < 0x1000_0000_0000_0000
    requires Dechunk(s).Decoded?
    requires Fits(s, bufSize)
    ensures Relayed(s, bufSize) == Relay(s[..LastChunkAt(s)] + CHUNK_END, Dechunk(s).rest, Done)
    decreases |s|
  {
    hide StrictHead, LaxHead, AfterLast;
    LaxHeadOfStrict(s, bufSize);
    var Block(n, _, size) := StrictHead(s);
    if size == 0 {
      LastChunkRelayed(s, n);
    } else {
      var k := n + size + 2;
      var later := s[k..];
      RelayedWellFormed(later, bufSize);
      Splice(s, k, LastChunkAt(later), CHUNK_END);
    }
  }

  lemma {:induction false} LastChunkRelayed(s: Bytes, n: nat)
    requires StrictHead(s).Block? && StrictHead(s).size == 0 && n == StrictHead(s).line
    ensures AfterLast(s[n..]) == Relay(s[..0] + CHUNK_END, s[n + 2..], Done)
  {
    assert s[n..][..2] == s[n..n + 2];
    assert s[n..][2..] == s[n + 2..];
  }

  /** Strict decoding looks only at the bytes of the chunk it reads. */
  lemma {:induction false} StrictHeadLocal(s: Bytes, k: nat, t: Bytes)
    requires StrictHead(s).Block? && k == StrictHead(s).line + StrictHead(s).size + 2
    requires k <= |t| && t[..k] == s[..k]
    ensures StrictHead(t) == StrictHead(s)
  {
    var n, size := StrictHead(s).line, StrictHead(s).size;
    assert forall i :: 0 <= i < k ==> t[i] == t[..k][i] == s[i];
    IndexOfIsFirst(t, LF, n - 1);
    assert t[..n - 2] == s[..n - 2];
    assert t[n + size..k] == s[n + size..k];
  }

  /** One decoding step on a stream whose head is known. */
  lemma {:induction false} DechunkStep(s: Bytes, n: nat, size: nat, d: nat)
    requires StrictHead(s) == Block(n, d, size)
    ensures Dechunk(s) ==
            if size == 0 then Decoded([], s[n + 2..])
            else match Dechunk(s[n + size + 2..])
              case Undecodable => Undecodable
              case Decoded(p, rest) => Decoded(s[n..n + size] + p, rest)
  {
    hide StrictHead;
  }

  /** Replacing what follows the head chunk replaces what is decoded after it. */
  lemma {:induction false} DechunkSplice(s: Bytes, k: nat, tail: Bytes)
    requires StrictHead(s).Block? && k == StrictHead(s).line + StrictHead(s).size + 2
    ensures Dechunk(s[..k] + tail) ==
            var Block(n, _, size) := StrictHead(s);
            if size == 0 then Decoded([], tail)
            else match Dechunk(tail)
              case Undecodable => Undecodable
              case Decoded(p, rest) => Decoded(s[n..n + size] + p, rest)
  {
    hide StrictHead;
    var Block(n, d, size) := StrictHead(s);
    var t := s[..k] + tail;
    StrictHeadLocal(s, k, t);
    assert t[n..n + size] == s[n..n + size];
    assert t[k..] == tail;
    DechunkStep(t, n, size, d);
  }

  lemma {:induction false} DechunkEnd(tail: Bytes)
    ensures Dechunk(CHUNK_END + tail) == Decoded([], tail)
  {
    var s := CHUNK_END + tail;
    IndexOfIsFirst(s, LF, 2);
    var head: Bytes := [ZERO];
    assert s[..1] == head;
    IndexOfIsFirst(head, SEMICOLON, 1);
    assert head[..1] == head && head[..0] == [];
    assert NumeralValue(head, 16) == 0;
    assert s[3..5] == CRLF;
    assert StrictHead(s) == Block(3, 1, 0);
    assert s[5..] == tail;
  }

  /** What the client receives decodes to the payload that the server sent. */
  lemma {:induction false} RelayedDecodes(s: Bytes, tail: Bytes)
    requires Dechunk(s).Decoded?
    ensures Dechunk(s[..LastChunkAt(s)] + (CHUNK_END + tail)) == Decoded(Dechunk(s).payload, tail)
    decreases |s|
  {
    hide StrictHead;
    var Block(n, _, size) := StrictHead(s);
    if size == 0 {
      assert s[..0] + (CHUNK_END + tail) == CHUNK_END + tail;
      DechunkEnd(tail);
    } else {
      var k := n + size + 2;
      var later := s[k..];
      var e := CHUNK_END + tail;
      RelayedDecodes(later, tail);
      DechunkSplice(s, k, later[..LastChunkAt(later)] + e);
      Splice(s, k, LastChunkAt(later), e);
    }
  }

  /** The first `i` bytes are whole chunks that the pass-through copies. */
  predicate CopiedUpTo(input: Bytes, bufSize: nat, i: nat)
    requires i <= |input|
    decreases |input|
  {
    i == 0 ||
    match LaxHead(input, bufSize)
    case Copy(k) => k <= i && CopiedUpTo(input[k..], bufSize, i - k)
    case _ => false
  }

  ghost predicate StuckAt(input: Bytes, bufSize: nat, i: nat) {
    i <= |input| && CopiedUpTo(input, bufSize, i) && LaxHead(input[i..], bufSize).Stuck?
  }

  /** The pass-through loops forever exactly when, after some copied chunks, it meets a size line whose chunk
      length is not positive: peeking does not advance the reader and copyN then copies nothing. */
  lemma {:induction false} SpinsExactly(input: Bytes, bufSize: nat)
    ensures Relayed(input, bufSize).result == Spins <==> exists i: nat :: StuckAt(input, bufSize, i)
    decreases |input|
  {
    hide LaxHead;
    assert input[0..] == input;
    match LaxHead(input, bufSize)
    case Copy(k) =>
      SpinsExactly(input[k..], bufSize);
      if i: nat :| StuckAt(input, bufSize, i) {
        assert input[k..][i - k..] == input[i..];
        assert StuckAt(input[k..], bufSize, i - k);
      }
      if j: nat :| StuckAt(input[k..], bufSize, j) {
        assert input[k..][j..] == input[k + j..];
        assert StuckAt(input, bufSize, k + j);
      }
    case Stuck =>
      assert StuckAt(input, bufSize, 0);
    case _ =>
      assert forall i: nat :: StuckAt(input, bufSize, i) ==> i == 0;
  }

  /** Only a signed size, or one of more than 15 digits, can do that. */
  lemma {:induction false} StuckNeedsSignOrOverflow(input: Bytes, bufSize: nat)
    requires |input| < 0x1000_0000_0000_0000
    requires LaxHead(input, bufSize).Stuck?
    ensures var line := input[..LineLength(input)];
            var size := Trimmed(line[..IndexOf(line, SEMICOLON)]);
            size != [] && (size[0] == MINUS || size[0] == PLUS || |size| > 15)
  {
    var line := input[..LineLength(input)];
    var size := Trimmed(line[..IndexOf(line, SEMICOLON)]);
    if size != [] && size[0] != MINUS && size[0] != PLUS && |size| <= 15 {
      HexParsesExactly(size);
    }
  }

  /** A size that is signed, or has more than 15 digits, on the line at `i`. */
  ghost predicate BadSizeAt(input: Bytes, i: nat) {
    i <= |input| &&
    var line := input[i..][..LineLength(input[i..])];
    var size := Trimmed(line[..IndexOf(line, SEMICOLON)]);
    size != [] && (size[0] == MINUS || size[0] == PLUS || |size| > 15)
  }

  /** No other stream spins: behind some copied chunks there is a size line of that kind. */
  lemma {:induction false} SpinsNeedsSignOrOverflow(input: Bytes, bufSize: nat)
    requires |input| < 0x1000_0000_0000_0000 && Relayed(input, bufSize).result == Spins
    ensures exists i: nat :: StuckAt(input, bufSize, i) && BadSizeAt(input, i)
  {
    hide LaxHead, Relayed, CopiedUpTo;
    SpinsExactly(input, bufSize);
    var i: nat :| StuckAt(input, bufSize, i);
    StuckNeedsSignOrOverflow(input[i..], bufSize);
    assert BadSizeAt(input, i);
  }

  /** A chunk size of minus six on a four-byte line spins. */
  lemma {:induction false} MinusSixSpins(tail: Bytes)
    ensures var input := [MINUS, 54, CR, LF] + tail;
            Relayed(input, 8192) == Relay([], input, Spins)
  {
    var input := [MINUS, 54, CR, LF] + tail;
    var line: Bytes := [MINUS, 54, CR, LF];
    IndexOfIsFirst(input, LF, 3);
    assert input[..4] == line;
    IndexOfIsFirst(line, SEMICOLON, 4);
    var b: Bytes := [MINUS, 54];
    assert line[..4] == [] + b + CRLF;
    TrimmedSpaceAround([], b, CRLF);
    var six: Bytes := [54];
    assert b[1..] == six;
    assert six[..0] == [] && NumeralValue(six, 16) == 6;
    assert LaxSize(line) == Number(-6);
  }

  /** One block of a close-delimited body as a chunk. */
  function ChunkOf(b: Bytes): (c: Bytes) {
    Hex(|b|) + CRLF + b + CRLF
  }

  function Chunks(blocks: seq<Bytes>): (s: Bytes) {
    if blocks == [] then [] else ChunkOf(blocks[0]) + Chunks(blocks[1..])
  }

  function Joined(blocks: seq<Bytes>): (s: Bytes) {
    if blocks == [] then [] else blocks[0] + Joined(blocks[1..])
  }

  /** A head chunk recognised byte by byte. */
  lemma {:induction false} StrictHeadAt(s: Bytes, m: nat, size: nat)
    requires 0 < m && m + size + 4 <= |s|
    requires IsNumeral(s[..m], 16) && NumeralValue(s[..m], 16) == size
    requires s[m] == CR && s[m + 1] == LF && s[m + 2 + size] == CR && s[m + 3 + size] == LF
    ensures StrictHead(s) == Block(m + 2, m, size)
  {
    hide NumeralValue;
    var digits := s[..m];
    assert forall k :: 0 <= k < m ==> s[k] == digits[k] && DigitValue(digits[k]) >= 0;
    IndexOfIsFirst(s, LF, m + 1);
    IndexOfIsFirst(digits, SEMICOLON, m);
    assert digits[..m] == digits;
    assert s[m + 2 + size..m + 2 + size + 2] == CRLF;
  }

  /** The four parts of an encoded chunk. */
  lemma {:induction false} ChunkLayout(d: Bytes, b: Bytes, tail: Bytes)
    ensures var s, m, n := (d + CRLF + b + CRLF) + tail, |d|, |b|;
            && |s| == m + n + 4 + |tail|
            && s[..m] == d && s[m] == CR && s[m + 1] == LF
            && s[m + 2..m + 2 + n] == b
            && s[m + 2 + n] == CR && s[m + 3 + n] == LF
            && s[m + 2 + n + 2..] == tail
  {
  }

  lemma {:induction false} DechunkChunkOf(b: Bytes, tail: Bytes)
    requires b != []
    ensures Dechunk(ChunkOf(b) + tail) ==
            match Dechunk(tail)
            case Undecodable => Undecodable
            case Decoded(p, rest) => Decoded(b + p, rest)
  {
    hide Dechunk, StrictHead, Hex, NumeralValue, IsNumeral;
    var s, m := ChunkOf(b) + tail, |Hex(|b|)|;
    ChunkLayout(Hex(|b|), b, tail);
    StrictHeadAt(s, m, |b|);
    DechunkStep(s, m + 2, |b|, m);
  }

  /** Re-encoding a stream block by block preserves it, whatever the blocks. */
  lemma {:induction false} ChunksDecode(blocks: seq<Bytes>, tail: Bytes)
    requires forall k :: 0 <= k < |blocks| ==> blocks[k] != []
    ensures Dechunk(Chunks(blocks) + tail) ==
            match Dechunk(tail)
            case Undecodable => Undecodable
            case Decoded(p, rest) => Decoded(Joined(blocks) + p, rest)
    decreases |blocks|
  {
    hide Dechunk, ChunkOf;
    if blocks == [] {
      assert [] + tail == tail;
      assert Dechunk(tail).Decoded? ==> [] + Dechunk(tail).payload == Dechunk(tail).payload;
    } else {
      var t := Chunks(blocks[1..]) + tail;
      ChunksDecode(blocks[1..], tail);
      DechunkChunkOf(blocks[0], t);
      Assoc(ChunkOf(blocks[0]), Chunks(blocks[1..]), tail);
      if Dechunk(tail).Decoded? {
        Assoc(blocks[0], Joined(blocks[1..]), Dechunk(tail).payload);
      }
    }
  }

  lemma {:induction false} JoinedAppend(blocks: seq<Bytes>, b: Bytes)
    ensures Joined(blocks + [b]) == Joined(blocks) + b
    ensures Chunks(blocks + [b]) == Chunks(blocks) + ChunkOf(b)
  {
    hide ChunkOf;
    if blocks == [] {
      assert [] + [b] == [b] && [b][1..] == [];
    } else {
      JoinedAppend(blocks[1..], b);
      assert (blocks + [b])[1..] == blocks[1..] + [b];
      Assoc(blocks[0], Joined(blocks[1..]), b);
      Assoc(ChunkOf(blocks[0]), Chunks(blocks[1..]), ChunkOf(b));
    }
  }
}

/** proxy.go and util.go: the loops that move a message body from a buffered reader to a writer. */
module ChunkedBody {
  import opened Wire
  import opened Numerals
  import opened ChunkedCoding

  const PLUGIN_BODY_LIMIT: nat := 0x10_0000

  /** plugin.go: the copy of a body that a plugin keeps, up to its limit, or no copy at all. */
  datatype Recording = Off | On(data: Bytes, tooLarge: bool)

  /** What the copy must be once `total` has gone through. */
  function Recorded(total: Bytes): (r: Recording) {
    if |total| <= PLUGIN_BODY_LIMIT then On(total, false) else On([], true)
  }

  const HTTP_BUF_SIZE: nat := 8192

  function Max(a: nat, b: nat): (m: nat) {
    if a < b then b else a
  }

  /** What serverWriter.Write does to the buffer of a request: bytes are added while no response has been sent,
      unless the buffer is already too long. The second part tells that it was given up for its length. */
  function Keep(raw: Option<Bytes>, p: Bytes, responseNotSent: bool): (k: (Option<Bytes>, bool)) {
    match raw
    case None => (None, false)
    case Some(b) =>
      if |b| >= 2 * HTTP_BUF_SIZE then (None, true)
      else if responseNotSent then (Some(b + p), false)
      else (None, false)
  }

  /** A buffer that started as `base` after `handed` went through: it holds all of it and is bounded, or it was given
      up at twice the size of a read buffer. `largest` is the longest single write. */
  ghost predicate Kept(base: Option<Bytes>, handed: Bytes, raw: Option<Bytes>, givenUp: bool, largest: nat) {
    match raw
    case Some(b) =>
      base.Some? && b == base.value + handed && !givenUp && |b| <= Max(|base.value|, 2 * HTTP_BUF_SIZE - 1 + largest)
    case None => (givenUp <==> base.Some?) && (givenUp ==> |base.value| + |handed| >= 2 * HTTP_BUF_SIZE)
  }

  lemma {:induction false} KeepKeeps(base: Option<Bytes>, handed: Bytes, raw: Option<Bytes>, givenUp: bool, largest: nat,
                                     p: Bytes)
    requires Kept(base, handed, raw, givenUp, largest)
    ensures var k := Keep(raw, p, true);
            Kept(base, handed + p, k.0, givenUp || k.1, Max(largest, |p|))
  {
    if raw.Some? {
      assert base.value + handed + p == base.value + (handed + p);
    }
  }

  /** The destination of a body: a connection, the buffer that serverWriter keeps for a retry, and the plugin's copy
      that io.MultiWriter feeds after each successful write. `sent` is what was handed to the connection; it reports
      its first `limit` bytes as written, and what becomes of a write that goes beyond is unknown. */
  class Writer {
    var sent: Bytes
    var tap: Recording
    var raw: Option<Bytes>
    var givenUp: bool
    const limit: nat
    ghost var largest: nat
    ghost const start: nat          // how much had been sent when the body began
    ghost const base: Option<Bytes> // the buffer at that time
    ghost const largestBefore: nat

    constructor (sent: Bytes, record: bool, limit: nat, raw: Option<Bytes>, ghost largest: nat)
      requires |sent| <= limit
      ensures this.sent == sent && start == |sent| && this.limit == limit && Synced() && (tap == Off <==> !record)
      ensures this.raw == raw && base == raw && !givenUp && this.largest == largest == largestBefore
    {
      this.sent, this.limit, this.raw, givenUp := sent, limit, raw, false;
      this.largest, largestBefore, base := largest, largest, raw;
      tap := if record then On([], false) else Off;
      start := |sent|;
      new;
      assert sent[|sent|..] == [];
      assert raw.Some? ==> raw.value + [] == raw.value;
    }

    ghost predicate Valid()
      reads this
    {
      start <= |sent| && largestBefore <= largest && Kept(base, sent[start..], raw, givenUp, largest)
    }

    /** No write has failed. */
    ghost predicate Synced()
      reads this
    {
      Valid() && |sent| <= limit && (tap == Off || tap == Recorded(sent[start..]))
    }

    method Write(p: Bytes) returns (ok: bool)
      requires Synced()
      modifies this
      ensures Valid() && sent == old(sent) + p
      ensures ok <==> |old(sent)| + |p| <= limit
      ensures ok ==> Synced()
      ensures largest == Max(old(largest), |p|)
      ensures tap == Off <==> old(tap) == Off
    {
      hide Keep, Kept, Recorded;
      ghost var before := sent;
      KeepKeeps(base, sent[start..], raw, givenUp, largest, p);
      var (kept, tooLong) := Keep(raw, p, true);
      sent, largest := sent + p, Max(largest, |p|);
      raw, givenUp := kept, givenUp || tooLong;
      assert sent[start..] == before[start..] + p;
      ok := |sent| <= limit;
      if ok && tap != Off {
        tap := Extend(tap, p);
      }
    }

    /** pluginBody.Write */
    static function Extend(tap: Recording, p: Bytes): (r: Recording)
      ensures r != Off || tap == Off
      ensures forall total: Bytes :: tap == Recorded(total) ==> r == Recorded(total + p)
    {
      match tap
      case Off => Off
      case On(data, tooLarge) =>
        if tooLarge then tap
        else if |data| + |p| > PLUGIN_BODY_LIMIT then On([], true)
        else On(data + p, false)
    }
  }

  datatype ReadError = NoError | EndOfFile | Broken

  /** bufio.Reader: a buffer over a stream that ends after `data`, by EOF or by a broken connection. */
  class Reader {
    const data: Bytes
    const bufSize: nat
    const end: ReadError
    var pos: nat

    constructor (data: Bytes, bufSize: nat, end: ReadError)
      requires bufSize > 0 && end != NoError
      ensures this.data == data && this.bufSize == bufSize && this.end == end
      ensures Valid() && Rest() == data
    {
      this.data, this.bufSize, this.end := data, bufSize, end;
      pos := 0;
    }

    ghost predicate Valid()
      reads this
    {
      pos <= |data| && bufSize > 0 && end != NoError
    }

    function Rest(): (r: Bytes)
      requires Valid()
      reads this
    {
      data[pos..]
    }

    method Skip(n: nat)
      requires Valid() && n <= |Rest()|
      modifies this
      ensures Valid() && Rest() == old(Rest())[n..]
    {
      pos := pos + n;
    }

    /** The bytes up to and including the first line feed, when they fit the buffer; nothing is consumed. */
    method PeekSlice() returns (line: Bytes)
      requires Valid()
      ensures line == Rest()[..PeekedLine(Rest(), bufSize)]
    {
      line := Rest()[..PeekedLine(Rest(), bufSize)];
    }

    /** Some of the next `n` bytes: at least one if there are any, and fewer than `n` with an error only at
        the end of the stream. */
    method ReadN(n: nat) returns (b: Bytes, err: ReadError)
      requires Valid() && n > 0
      modifies this
      ensures Valid()
      ensures |b| <= n && b <= old(Rest()) && Rest() == old(Rest())[|b|..]
      ensures err == NoError ==> b != []
      ensures err != NoError ==> err == end && |b| < n && Rest() == []
    {
      if pos == |data| {
        return [], end;
      }
      var k: nat :| 0 < k <= n && k <= |Rest()|;
      b := Rest()[..k];
      pos := pos + k;
      var together: bool := *;
      err := if together && k < n && pos == |data| then end else NoError;
    }

    /** The next block of any size up to the buffer's. */
    method ReadNext() returns (b: Bytes, err: ReadError)
      requires Valid()
      modifies this
      ensures Valid()
      ensures err == NoError ==> b != [] && |b| <= bufSize && b <= old(Rest()) && Rest() == old(Rest())[|b|..]
      ensures err != NoError ==> err == end && old(Rest()) == [] && Rest() == []
    {
      if pos == |data| {
        return [], end;
      }
      var k: nat :| 0 < k <= bufSize && k <= |Rest()|;
      b, err := Rest()[..k], NoError;
      pos := pos + k;
    }
  }

  /** How many of the available bytes a request for `count` copies. */
  function Copied(count: int, available: nat): (k: nat)
    ensures k <= available
  {
    if count < 0 then 0 else Min(count, available)
  }

  /** copyN. At end of file it reports success, however many bytes are missing. A write fails exactly when not all of
      what there is to copy is accepted; then the reader stands behind what was handed over. */
  method CopyN(dst: Writer, src: Reader, count: int, rdSize: nat) returns (res: Result)
    requires src.Valid() && dst.Synced() && rdSize > 0
    modifies src, dst
    ensures src.Valid() && dst.Valid()
    ensures res == Done || res == ReadFailed || res == WriteFailed
    ensures var all := old(src.Rest());
            var k := Copied(count, |all|);
            var n := |dst.sent| - |old(dst.sent)|;
            && (res == WriteFailed <==> |old(dst.sent)| + k > dst.limit)
            && 0 <= n <= k && dst.sent == old(dst.sent) + all[..n] && src.Rest() == all[n..]
            && (res == WriteFailed ==> dst.limit < |dst.sent| <= dst.limit + rdSize)
            && (res != WriteFailed ==> n == k && dst.Synced() && (res == ReadFailed <==> src.end == Broken && k < count))
  {
    hide Recorded, Copied, Kept;
    var n := count;
    ghost var sent0, all, k := dst.sent, src.Rest(), Copied(count, |src.Rest()|);
    ghost var m: nat := 0;
    CopiedNothing(count, all, sent0);
    while n > 0
      invariant src.Valid() && dst.Synced()
      invariant m <= k && dst.sent == sent0 + all[..m] && src.Rest() == all[m..]
      invariant k - m == Copied(n, |all| - m) && n == count - m
      decreases n
    {
      var b, er, ok := CopyBlock(dst, src, if n > rdSize then rdSize else n);
      CopiedMore(n, all, m, b, sent0);
      n, m := n - |b|, m + |b|;
      if !ok {
        return WriteFailed;
      }
      if er != NoError {
        CopiedOut(n, |all| - m);
        return if er == EndOfFile then Done else ReadFailed;
      }
    }
    CopiedOut(n, |all| - m);
    return Done;
  }

  lemma {:induction false} CopiedNothing(count: int, all: Bytes, sent: Bytes)
    ensures sent + all[..0] == sent && all[0..] == all
  {
  }

  /** The next block of `b` bytes, at position `m`. */
  lemma {:induction false} CopiedMore(n: int, all: Bytes, m: nat, b: Bytes, sent: Bytes)
    requires 0 < n && m <= |all| && b <= all[m..] && |b| <= n
    ensures m + |b| <= |all| && sent + all[..m] + b == sent + all[..m + |b|] && all[m..][|b|..] == all[m + |b|..]
    ensures |b| <= Copied(n, |all| - m) && Copied(n - |b|, |all| - m - |b|) == Copied(n, |all| - m) - |b|
  {
    assert all[..m] + b == all[..m + |b|];
  }

  lemma {:induction false} CopiedOut(n: int, left: nat)
    requires n <= 0 || left == 0
    ensures Copied(n, left) == 0
  {
  }

  /** What a round of sendBodyChunked does behind a size line that makes no progress: the line is peeked at, a copy
      of nothing is asked for, and reader and writer are as before, so that the next round is the same. */
  method SpinOnce(w: Writer, r: Reader, rdSize: nat) returns (res: Result)
    requires r.Valid() && w.Synced() && rdSize > 0 && LaxHead(r.Rest(), r.bufSize).Stuck?
    modifies r, w
    ensures r.Valid() && w.Synced() && res == Done
    ensures r.Rest() == old(r.Rest()) && w.sent == old(w.sent) && LaxHead(r.Rest(), r.bufSize).Stuck?
  {
    hide LaxHead, Recorded;
    var head, line, total := PeekChunk(r);
    CopiedOut(total, |r.Rest()|);
    CopiedNothing(total, r.Rest(), w.sent);
    res := CopyN(w, r, total, rdSize);
  }

  /** One read of at most `n` bytes, and the write of what it returned. */
  method CopyBlock(dst: Writer, src: Reader, n: nat) returns (b: Bytes, er: ReadError, ok: bool)
    requires src.Valid() && dst.Synced() && n > 0
    modifies src, dst
    ensures src.Valid() && dst.Valid()
    ensures |b| <= n && b <= old(src.Rest()) && src.Rest() == old(src.Rest())[|b|..]
    ensures er == NoError ==> b != []
    ensures er != NoError ==> er == src.end && |b| < n && src.Rest() == []
    ensures dst.sent == old(dst.sent) + b
    ensures ok <==> |dst.sent| <= dst.limit
    ensures ok ==> dst.Synced()
  {
    b, er := src.ReadN(n);
    ok := true;
    if |b| > 0 {
      ok := dst.Write(b);
    }
  }

  /** skipCRLF */
  method SkipCRLF(r: Reader) returns (res: Result)
    requires r.Valid()
    modifies r
    ensures r.Valid()
    ensures var s := old(r.Rest());
            if |s| < 2 then res == ReadFailed && r.Rest() == []
            else res == (if s[..2] == CRLF then Done else Malformed) && r.Rest() == s[2..]
  {
    var s := r.Rest();
    if |s| < 2 {
      r.Skip(|s|);
      return ReadFailed;
    }
    r.Skip(2);
    if s[0] != CR || s[1] != LF {
      return Malformed;
    }
    return Done;
  }

  /** The size line in front of the reader, which is not consumed: what it announces, its length, and the
      length of the chunk that follows. */
  method PeekChunk(r: Reader) returns (h: Lax, line: nat, total: int)
    requires r.Valid()
    ensures h == LaxHead(r.Rest(), r.bufSize)
    ensures h.Last? ==> line == h.line
    ensures h.Copy? ==> 0 < total && h.k == Min(total, |r.Rest()|)
    ensures h.Stuck? ==> total <= 0
  {
    hide Trimmed, ParsedInt;
    line, total := 0, 0;
    var s := r.PeekSlice();
    if s == [] {
      return NoLine, line, total;
    }
    assert |s| == PeekedLine(r.Rest(), r.bufSize);
    line := |s|;
    var smid := IndexOf(s, SEMICOLON);
    var digits := TrimSpace(s[..smid]);
    var size := ParseIntFromBytes(digits, 16);
    if size == NotANumber {
      return NoSize, line, total;
    }
    if size.n == 0 {
      return Last(line), line, total;
    }
    total := Wrap64(line + size.n + 2);
    h := if total <= 0 then Stuck else Copy(Min(total, |r.Rest()|));
  }

  function Prepend(out: Bytes, r: Relay): (p: Relay) {
    Relay(out + r.wire, r.rest, r.result)
  }

  lemma {:induction false} RelayedCopy(out: Bytes, input: Bytes, bufSize: nat)
    requires LaxHead(input, bufSize).Copy?
    ensures var k := LaxHead(input, bufSize).k;
            Prepend(out, Relayed(input, bufSize)) == Prepend(out + input[..k], Relayed(input[k..], bufSize))
  {
    hide LaxHead;
    var k := LaxHead(input, bufSize).k;
    Assoc(out, input[..k], Relayed(input[k..], bufSize).wire);
  }

  lemma {:induction false} RelayedEmpty(bufSize: nat)
    ensures Relayed([], bufSize) == Relay([], [], ReadFailed)
  {
  }

  /** At the end of a body the reader has less in front of it than before. */
  lemma {:induction false} RelayedConsumes(input: Bytes, bufSize: nat)
    ensures var r := Relayed(input, bufSize);
            |r.rest| <= |input| && (r.result == Done ==> |r.rest| < |input| && r.wire != [])
    decreases |input|
  {
    hide LaxHead;
    match LaxHead(input, bufSize)
    case Copy(k) => RelayedConsumes(input[k..], bufSize);
    case _ =>
  }

  /** sendBodyChunked: the bytes sent, the bytes left unread and the outcome do not depend on how the reads
      are split. A write fails exactly when not all of it is accepted. A size line that makes no progress is reported
      as `Spins`; the Go loop never returns. */
  method SendBodyChunked(w: Writer, r: Reader, rdSize: nat) returns (res: Result)
    requires r.Valid() && w.Synced() && rdSize >= |CHUNK_END|
    modifies r, w
    ensures r.Valid() && w.Valid()
    ensures var spec := Relayed(old(r.Rest()), r.bufSize);
            && (res == WriteFailed <==> |old(w.sent)| + |spec.wire| > w.limit)
            && (if res == WriteFailed then FailedPart(old(w.sent), old(r.Rest()), spec, w.sent, r.Rest(), w.limit, rdSize)
                else res == spec.result && w.sent == old(w.sent) + spec.wire && r.Rest() == spec.rest && w.Synced())
  {
    hide LaxHead, Recorded, Copied, Kept, AfterLast, FailedPart, Relayed, Underway;
    ghost var spec, sent0, all := Relayed(r.Rest(), r.bufSize), w.sent, r.Rest();
    ghost var out: Bytes := [];
    UnderwayAtStart(sent0, all, r.bufSize);
    while true
      invariant r.Valid() && w.Synced() && Underway(sent0, all, spec, r.bufSize, out, w.sent, r.Rest())
      decreases |r.Rest()|
    {
      var head, line, total := PeekChunk(r);
      UnderwayEnds(sent0, all, spec, r.bufSize, out, w.sent, r.Rest());
      match head {
        case NoLine => return ReadFailed;
        case NoSize => return Malformed;
        case Stuck => return Spins;
        case Last(_) =>
          ghost var end := AfterLast(r.Rest()[line..]);
          res := EndChunks(w, r, line);
          AssocEnd(sent0, out, end.wire);
          FailedAtEnd(sent0, all, out, end, w.sent, r.Rest(), w.limit, rdSize);
          return;
        case Copy(k) =>
          var copied;
          copied, out := CopyChunk(w, r, total, rdSize, sent0, all, spec, out);
          if copied != Done { return copied; }
      }
    }
  }

  /** Some chunks have been copied. */
  ghost predicate Underway(sent0: Bytes, all: Bytes, spec: Relay, bufSize: nat, out: Bytes, sent: Bytes, rest: Bytes) {
    sent == sent0 + out && |out| <= |all| && rest == all[|out|..] && spec == Prepend(out, Relayed(rest, bufSize))
  }

  lemma {:induction false} UnderwayAtStart(sent0: Bytes, all: Bytes, bufSize: nat)
    ensures Underway(sent0, all, Relayed(all, bufSize), bufSize, [], sent0, all)
  {
    hide Relayed;
    assert sent0 + [] == sent0 && all[0..] == all && [] + Relayed(all, bufSize).wire == Relayed(all, bufSize).wire;
  }

  /** What is left to do when no chunk is copied. */
  lemma {:induction false} UnderwayEnds(sent0: Bytes, all: Bytes, spec: Relay, bufSize: nat, out: Bytes, sent: Bytes,
                                        rest: Bytes)
    requires Underway(sent0, all, spec, bufSize, out, sent, rest)
    ensures sent == sent0 + out
    ensures match LaxHead(rest, bufSize)
            case NoLine => spec == Relay(out, rest, ReadFailed)
            case NoSize => spec == Relay(out, rest, Malformed)
            case Stuck => spec == Relay(out, rest, Spins)
            case Last(n) => spec == Prepend(out, AfterLast(rest[n..]))
            case Copy(_) => true
  {
    hide LaxHead, AfterLast;
    assert out + [] == out;
  }

  /** One data chunk. */
  method CopyChunk(w: Writer, r: Reader, total: int, rdSize: nat, ghost sent0: Bytes, ghost all: Bytes, ghost spec: Relay,
                   ghost out: Bytes) returns (res: Result, ghost now: Bytes)
    requires r.Valid() && w.Synced() && rdSize > 0 && total > 0
    requires Underway(sent0, all, spec, r.bufSize, out, w.sent, r.Rest())
    requires LaxHead(r.Rest(), r.bufSize) == Copy(Min(total, |r.Rest()|)) && Min(total, |r.Rest()|) > 0
    modifies r, w
    ensures r.Valid() && w.Valid()
    ensures res == Done || res == ReadFailed || res == WriteFailed
    ensures res == WriteFailed ==>
              FailedPart(sent0, all, spec, w.sent, r.Rest(), w.limit, rdSize) && |sent0| + |spec.wire| > w.limit
    ensures res != WriteFailed ==>
              w.Synced() && Underway(sent0, all, spec, r.bufSize, now, w.sent, r.Rest()) && |r.Rest()| < |old(r.Rest())|
    ensures res == ReadFailed ==> spec.result == ReadFailed && w.sent == sent0 + spec.wire && r.Rest() == spec.rest
  {
    hide LaxHead, Recorded, Copied, Kept, FailedPart, Relayed;
    ghost var input, k := r.Rest(), Min(total, |r.Rest()|);
    RelayedCopy(out, input, r.bufSize);
    Assoc(sent0, out, input[..k]);
    CopiedAll(total, |input|);
    SliceAgain(all, |out|, k);
    now := out + input[..k];
    res := CopyN(w, r, total, rdSize);
    if res == WriteFailed {
      CopyFailed(sent0, out, all, k, spec, r.bufSize, w.sent, r.Rest(), w.limit, rdSize);
    } else if res == ReadFailed {
      RelayedEmpty(r.bufSize);
      assert now + [] == now;
    }
  }

  /** Behind the last size line: it is dropped, and the end of the body is written in its normal form. */
  method EndChunks(w: Writer, r: Reader, line: nat) returns (res: Result)
    requires r.Valid() && w.Synced() && line <= |r.Rest()|
    modifies r, w
    ensures r.Valid() && w.Valid()
    ensures var spec := AfterLast(old(r.Rest())[line..]);
            && w.sent == old(w.sent) + spec.wire && r.Rest() == spec.rest
            && (res == WriteFailed <==> |w.sent| > w.limit) && (res != WriteFailed ==> res == spec.result && w.Synced())
  {
    hide Recorded, Kept;
    assert w.sent + [] == w.sent;
    r.Skip(line);
    res := SkipCRLF(r);
    if res == Done {
      var ok := w.Write(CHUNK_END);
      res := if ok then Done else WriteFailed;
    }
  }

  lemma {:induction false} AssocEnd(a: Bytes, b: Bytes, c: Bytes)
    ensures a + b + c == a + (b + c)
  {
  }

  lemma {:induction false} FailedAtEnd(sent0: Bytes, all: Bytes, out: Bytes, end: Relay, sent: Bytes, rest: Bytes,
                                       limit: nat, block: nat)
    requires sent == sent0 + (out + end.wire) && rest == end.rest && |sent0 + out| <= limit && |CHUNK_END| <= block
    requires end.wire == [] || (end.wire == CHUNK_END && end.result == Done)
    ensures |sent| > limit ==> FailedPart(sent0, all, Prepend(out, end), sent, rest, limit, block)
  {
  }

  /** A body whose writing failed: a part of it was handed over, more than was accepted, though not by more than one
      block. The reader stands behind that part; behind the body, if and only if all of it was handed over. */
  ghost predicate FailedPart(before: Bytes, input: Bytes, spec: Relay, sent: Bytes, rest: Bytes, limit: nat, block: nat) {
    before <= sent <= before + spec.wire && limit < |sent| <= limit + block &&
    (sent != before + spec.wire || spec.result != Done ==>
      |sent| - |before| <= |input| && rest == input[|sent| - |before|..]) &&
    (spec.result == Done ==> (sent == before + spec.wire <==> rest == spec.rest))
  }

  lemma {:induction false} CopyFailed(sent0: Bytes, out: Bytes, all: Bytes, k: nat, spec: Relay, bufSize: nat,
                                      sent: Bytes, rest: Bytes, limit: nat, block: nat)
    requires |out| <= |all| && LaxHead(all[|out|..], bufSize) == Copy(k)
    requires var input := all[|out|..];
             spec == Prepend(out + input[..k], Relayed(input[k..], bufSize))
    requires var n := |sent| - |sent0 + out|;
             0 <= n <= k && sent == sent0 + out + all[|out|..][..n] && rest == all[|out|..][n..]
    requires limit < |sent| <= limit + block
    ensures FailedPart(sent0, all, spec, sent, rest, limit, block)
    ensures |sent0| + |spec.wire| > limit
  {
    hide LaxHead, Relayed;
    var input := all[|out|..];
    var n := |sent| - |sent0 + out|;
    RelayedConsumes(input[k..], bufSize);
    assert input[..k] == input[..n] + input[n..k];
    PrefixOfMore(sent0, out, input[..n], input[n..k], Relayed(input[k..], bufSize).wire);
    SliceAgain(all, |out|, n);
  }

  lemma {:induction false} SliceAgain(s: Bytes, i: nat, n: nat)
    requires i <= |s| && n <= |s| - i
    ensures s[i..][n..] == s[i + n..]
  {
  }

  lemma {:induction false} PrefixOfMore(a: Bytes, b: Bytes, c: Bytes, d: Bytes, e: Bytes)
    ensures a <= a + b + c <= a + ((b + (c + d)) + e)
  {
    assert a + ((b + (c + d)) + e) == (a + b + c) + (d + e);
  }

  lemma {:induction false} CopiedAll(total: int, available: nat)
    requires total > 0
    ensures Copied(total, available) == Min(total, available)
  {
  }

  lemma {:induction false} SplitDone(blocks: seq<Bytes>, before: Bytes, wire: Bytes, all: Bytes)
    requires forall k :: 0 <= k < |blocks| ==> blocks[k] != []
    requires all == Joined(blocks) + []
    requires wire == (before + Chunks(blocks)) + CHUNK_END
    ensures Dechunk(wire[|before|..]) == Decoded(all, [])
  {
    hide Dechunk;
    ChunksDecode(blocks, CHUNK_END);
    DechunkEnd([]);
    assert CHUNK_END + [] == CHUNK_END;
    assert wire[|before|..] == Chunks(blocks) + CHUNK_END;
  }

  lemma {:induction false} SplitBroken(blocks: seq<Bytes>, before: Bytes)
    requires forall k :: 0 <= k < |blocks| ==> blocks[k] != []
    ensures Dechunk((before + Chunks(blocks))[|before|..]) == Undecodable
  {
    ChunksDecode(blocks, []);
    assert (before + Chunks(blocks))[|before|..] == Chunks(blocks) + [];
  }

  /** The three writes of one chunk. */
  method WriteChunk(w: Writer, b: Bytes) returns (ok: bool)
    requires w.Synced()
    modifies w
    ensures w.Valid() && old(w.sent) <= w.sent
    ensures ok ==> w.sent == old(w.sent) + ChunkOf(b) && w.Synced()
    ensures !ok ==> |w.sent| > w.limit
  {
    hide Hex, Recorded, Kept;
    ghost var sent0 := w.sent;
    ok := w.Write(Hex(|b|) + CRLF);
    if !ok { return; }
    ok := w.Write(b);
    if !ok { return; }
    ok := w.Write(CRLF);
    Assoc(sent0, Hex(|b|) + CRLF, b);
    Assoc(sent0, Hex(|b|) + CRLF + b, CRLF);
  }

  /** sendBodySplitIntoChunk: a close-delimited body becomes chunks that decode to it, whatever blocks the
      reader hands out; a broken connection leaves a stream that no decoder takes for complete. */
  method SendBodySplitIntoChunk(w: Writer, r: Reader) returns (res: Result)
    requires r.Valid() && w.Synced()
    modifies r, w
    ensures r.Valid() && w.Valid() && old(w.sent) <= w.sent
    ensures res == Done || res == ReadFailed || res == WriteFailed
    ensures res == WriteFailed <==> |w.sent| > w.limit
    ensures var wire := w.sent[|old(w.sent)|..];
            && (res == Done ==> Dechunk(wire) == Decoded(old(r.Rest()), []) && r.end == EndOfFile)
            && (res == ReadFailed ==> Dechunk(wire) == Undecodable && r.end == Broken)
    ensures res != WriteFailed ==> r.Rest() == [] && w.Synced()
  {
    hide Recorded, Dechunk, ChunkOf, Kept;
    ghost var all, sent0 := r.Rest(), w.sent;
    ghost var blocks: seq<Bytes> := [];
    assert [] + all == all && sent0 + [] == sent0;
    while true
      invariant r.Valid() && w.Synced()
      invariant forall k :: 0 <= k < |blocks| ==> blocks[k] != []
      invariant w.sent == sent0 + Chunks(blocks)
      invariant all == Joined(blocks) + r.Rest()
      decreases |r.Rest()|
    {
      ghost var rest := r.Rest();
      var b, err := r.ReadNext();
      if err == EndOfFile {
        var ok := w.Write(CHUNK_END);
        if ok {
          SplitDone(blocks, sent0, w.sent, all);
        }
        return if ok then Done else WriteFailed;
      }
      if err != NoError {
        SplitBroken(blocks, sent0);
        return ReadFailed;
      }
      var ok := WriteChunk(w, b);
      if !ok {
        return WriteFailed;
      }
      JoinedAppend(blocks, b);
      Assoc(sent0, Chunks(blocks), ChunkOf(b));
      Assoc(Joined(blocks), b, r.Rest());
      assert rest == b + r.Rest();
      blocks := blocks + [b];
    }
  }

  /** What is sent of a body that is delimited by a length or by its chunks, what is left unread, and the outcome, when
      every write succeeds. */
  function BodyRelay(input: Bytes, bufSize: nat, end: ReadError, contLen: nat, chunk: bool): (r: Relay)
    ensures r.result != WriteFailed
  {
    if chunk then Relayed(input, bufSize)
    else
      var k := Min(contLen, |input|);
      Relay(input[..k], input[k..], if k < contLen && end == Broken then ReadFailed else Done)
  }

  /** sendBodyWithContLen */
  method SendBodyWithContLen(w: Writer, r: Reader, contLen: nat) returns (res: Result)
    requires r.Valid() && w.Synced()
    modifies r, w
    ensures r.Valid() && w.Valid()
    ensures var spec := BodyRelay(old(r.Rest()), r.bufSize, r.end, contLen, false);
            && (res == WriteFailed <==> |old(w.sent)| + |spec.wire| > w.limit)
            && (if res == WriteFailed then FailedPart(old(w.sent), old(r.Rest()), spec, w.sent, r.Rest(), w.limit,
                HTTP_BUF_SIZE)
                else res == spec.result && w.sent == old(w.sent) + spec.wire && r.Rest() == spec.rest && w.Synced())
  {
    hide Recorded, Kept;
    if contLen == 0 {
      CopiedNothing(0, r.Rest(), w.sent);
      return Done;
    }
    ghost var all, sent0 := r.Rest(), w.sent;
    res := CopyN(w, r, contLen, HTTP_BUF_SIZE);
    PartOfBody(sent0, all, |w.sent| - |sent0|, Min(contLen, |all|));
  }

  lemma {:induction false} PartOfBody(before: Bytes, all: Bytes, n: nat, k: nat)
    requires n <= k <= |all|
    ensures before <= before + all[..n] <= before + all[..k]
    ensures before + all[..n] == before + all[..k] <==> all[n..] == all[k..]
  {
    assert all[..k] == all[..n] + all[n..k];
    assert before + all[..k] == (before + all[..n]) + all[n..k];
    assert |all[n..]| == |all| - n && |all[k..]| == |all| - k;
  }

  /** sendBody: chunked coding takes precedence over a content length, and a body with neither is delimited
      by the end of the stream. */
  method SendBody(w: Writer, r: Reader, contLen: int, chunk: bool) returns (res: Result)
    requires r.Valid() && w.Synced()
    modifies r, w
    ensures r.Valid() && w.Valid() && old(w.sent) <= w.sent
    ensures res != WriteFailed ==> w.Synced()
    ensures if chunk || contLen >= 0 then
              var spec := BodyRelay(old(r.Rest()), r.bufSize, r.end, if chunk then 0 else contLen, chunk);
              && (res == WriteFailed <==> |old(w.sent)| + |spec.wire| > w.limit)
              && (if res == WriteFailed then FailedPart(old(w.sent), old(r.Rest()), spec, w.sent, r.Rest(), w.limit,
                  HTTP_BUF_SIZE)
                  else res == spec.result && w.sent == old(w.sent) + spec.wire && r.Rest() == spec.rest)
            else
              var wire := w.sent[|old(w.sent)|..];
              && (res == Done ==> Dechunk(wire) == Decoded(old(r.Rest()), []) && r.end == EndOfFile)
              && (res == ReadFailed ==> Dechunk(wire) == Undecodable)
              && (res == WriteFailed <==> |w.sent| > w.limit)
  {
    hide Relayed, Recorded, Kept, Dechunk;
    if chunk {
      res := SendBodyChunked(w, r, HTTP_BUF_SIZE);
    } else if contLen >= 0 {
      res := SendBodyWithContLen(w, r, contLen);
    } else {
      res := SendBodySplitIntoChunk(w, r);
    }
  }

  /** A chunked body sent without a write error: the client decodes the server's payload, the connection is
      left at the next response, and the plugin's copy decodes to the same payload when it was kept. */
  method SendWellFormedChunks(w: Writer, r: Reader) returns (res: Result)
    requires r.Valid() && w.Synced()
    requires |r.Rest()| < 0x1000_0000_0000_0000
    requires Dechunk(r.Rest()).Decoded? && Fits(r.Rest(), r.bufSize)
    modifies r, w
    ensures r.Valid()
    ensures res == Done || res == WriteFailed
    ensures res == Done ==>
              var input := old(r.Rest());
              && w.sent == old(w.sent) + input[..LastChunkAt(input)] + CHUNK_END
              && Dechunk(w.sent[|old(w.sent)|..]) == Decoded(Dechunk(input).payload, [])
              && r.Rest() == Dechunk(input).rest
              && w.Synced()
  {
    hide Dechunk, Relayed, Recorded;
    ghost var input, sent0 := r.Rest(), w.sent;
    ghost var data := input[..LastChunkAt(input)];
    RelayedWellFormed(input, r.bufSize);
    RelayedDecodes(input, []);
    assert CHUNK_END + [] == CHUNK_END;
    res := SendBodyChunked(w, r, HTTP_BUF_SIZE);
    Assoc(sent0, data, CHUNK_END);
    assert res == Done ==> w.sent[|sent0|..] == data + CHUNK_END;
  }
}
