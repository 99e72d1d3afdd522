/** What the loops that relay a body make of the bytes in front of them, written out. */
module RelayUse {
  import opened Wire
  import opened Numerals
  import opened ChunkedCoding
  import opened ChunkedBody

  predicate HexDigits(s: Bytes) {
    forall k :: 0 <= k < |s| ==> 48 <= s[k] <= 57 || 65 <= s[k] <= 70 || 97 <= s[k] <= 102
  }

  predicate Blank(s: Bytes) {
    forall k :: 0 <= k < |s| ==> s[k] == 9 || s[k] == 13 || s[k] == 32
  }

  /** A size line: the digits with white space around them, perhaps an extension behind a semicolon, and the line feed. */
  datatype SizeLine = SizeLine(before: Bytes, digits: Bytes, after: Bytes, extension: Bytes) {
    predicate Valid() {
      Blank(before) && Blank(after) && digits != [] && HexDigits(digits) && |digits| <= 15 &&
      10 !in extension && (extension == [] || extension[0] == 59)
    }

    function Text(): (s: Bytes) {
      before + digits + after + extension + [10]
    }
  }

  lemma {:induction false} HexIsNumeral(s: Bytes)
    ensures HexDigits(s) <==> IsNumeral(s, 16)
  {
  }

  lemma {:induction false} TextParts(l: SizeLine, tail: Bytes)
    requires l.Valid()
    ensures var line := l.Text();
            LineLength(line + tail) == |line| && (line + tail)[..|line|] == line &&
            Trimmed(line[..IndexOf(line, 59)]) == l.digits
  {
    hide Trimmed;
    var line := l.Text();
    var size := l.before + l.digits + l.after;
    assert forall k :: 0 <= k < |size| ==> size[k] in l.before || size[k] in l.digits || size[k] in l.after;
    assert 10 !in size && 59 !in size;
    IndexOfIsFirst(line + tail, 10, |line| - 1);
    if l.extension == [] {
      IndexOfIsFirst(line, 59, |line|);
      assert line[..|line|] == l.before + l.digits + (l.after + [10]);
      TrimmedSpaceAround(l.before, l.digits, l.after + [10]);
    } else {
      IndexOfIsFirst(line, 59, |size|);
      assert line[..|size|] == size;
      TrimmedSpaceAround(l.before, l.digits, l.after);
    }
  }

  /** A chunk is copied as it is: the line, as many bytes as its digits say, and the two behind them, or what there is.
      A size of zero ends the body, if CR and LF follow; then only the last chunk itself is sent. */
  lemma {:induction false} SizeDecides(l: SizeLine, rest: Bytes, bufSize: nat)
    requires l.Valid() && |l.Text()| <= bufSize < 0x1000_0000_0000_0000
    ensures IsNumeral(l.digits, 16)
    ensures var size := NumeralValue(l.digits, 16);
            var r := Relayed(l.Text() + rest, bufSize);
            if size > 0 then
              var k := if size + 2 <= |rest| then size + 2 else |rest|;
              var later := Relayed(rest[k..], bufSize);
              r == Relay(l.Text() + rest[..k] + later.wire, later.rest, later.result)
            else if |rest| < 2 then r == Relay([], [], ReadFailed)
            else if rest[0] != 13 || rest[1] != 10 then r == Relay([], rest[2..], Malformed)
            else r == Relay([48, 13, 10, 13, 10], rest[2..], Done)
  {
    hide NumeralValue, Trimmed, IsNumeral;
    var line := l.Text();
    var input := line + rest;
    HexIsNumeral(l.digits);
    TextParts(l, rest);
    HexParsesExactly(l.digits);
    var size := NumeralValue(l.digits, 16);
    if size > 0 {
      var k := if size + 2 <= |rest| then size + 2 else |rest|;
      assert LaxHead(input, bufSize) == Copy(|line| + k);
      assert input[..|line| + k] == line + rest[..k] && input[|line| + k..] == rest[k..];
    } else {
      assert LaxHead(input, bufSize) == Last(|line|);
      assert input[|line|..] == rest;
    }
  }

  /** Without a line feed within the reader's buffer nothing is sent and nothing consumed. */
  lemma {:induction false} NoSizeDecides(input: Bytes, bufSize: nat)
    ensures 10 !in input[..if |input| < bufSize then |input| else bufSize] ==>
              Relayed(input, bufSize) == Relay([], input, ReadFailed)
  {
    var n := LineLength(input);
    if 0 < n <= bufSize {
      var m := if |input| < bufSize then |input| else bufSize;
      assert input[..m][n - 1] == 10;
    }
  }

  /** Nor with a line whose text before the semicolon is empty, or has a byte behind its sign that is no digit. */
  lemma {:induction false} NoNumberDecides(before: Bytes, size: Bytes, after: Bytes, extension: Bytes, rest: Bytes,
                                           bufSize: nat)
    requires Blank(before) && Blank(after) && 10 !in size && 59 !in size && 10 !in extension
    requires size == [] || (size[0] !in [9, 10, 13, 32] && size[|size| - 1] !in [9, 10, 13, 32])
    requires extension == [] || extension[0] == 59
    requires size == [] || exists k :: 0 <= k < |size| && !(k == 0 && (size[0] == 43 || size[0] == 45)) && !HexDigits([size[k]])
    requires |before + size + after + extension + [10]| <= bufSize
    ensures var input := before + size + after + extension + [10] + rest;
            Relayed(input, bufSize) == Relay([], input, Malformed)
  {
    hide Trimmed;
    var front := before + size + after;
    var line := front + extension + [10];
    var input := line + rest;
    assert forall k :: 0 <= k < |front| ==> front[k] in before || front[k] in size || front[k] in after;
    IndexOfIsFirst(input, 10, |line| - 1);
    assert input[..|line|] == line;
    if extension == [] {
      IndexOfIsFirst(line, 59, |line|);
      assert line[..|line|] == before + size + (after + [10]);
      TrimmedSpaceAround(before, size, after + [10]);
    } else {
      IndexOfIsFirst(line, 59, |front|);
      assert line[..|front|] == front;
      TrimmedSpaceAround(before, size, after);
    }
    NoNumber(size);
  }

  lemma {:induction false} NoNumber(size: Bytes)
    requires size == [] || exists k :: 0 <= k < |size| && !(k == 0 && (size[0] == 43 || size[0] == 45)) && !HexDigits([size[k]])
    ensures ParsedInt(size, 16) == NotANumber
  {
    hide NumeralValue, Wrap64;
    if size != [] {
      var k :| 0 <= k < |size| && !(k == 0 && (size[0] == 43 || size[0] == 45)) && !HexDigits([size[k]]);
      var digits := if size[0] == PLUS || size[0] == MINUS then size[1..] else size;
      assert digits[k - (|size| - |digits|)] == size[k];
    }
  }

  /** A body with a length: that many bytes, or what there is; only a broken connection makes a shorter one an error. */
  lemma {:induction false} LengthDecides(input: Bytes, bufSize: nat, end: ReadError, n: nat)
    ensures var r := BodyRelay(input, bufSize, end, n, false);
            if n <= |input| then r == Relay(input[..n], input[n..], Done)
            else r == Relay(input, [], if end == Broken then ReadFailed else Done)
  {
    assert input[..|input|] == input;
  }

  lemma {:induction false} CopiedMeans(count: int, available: nat)
    ensures count <= 0 ==> Copied(count, available) == 0
    ensures 0 < count <= available ==> Copied(count, available) == count
    ensures available <= count ==> Copied(count, available) == available
  {
  }

  /** The plugin's copy holds everything up to 1048576 bytes, and nothing once that is exceeded. */
  lemma {:induction false} CopyHolds(w: Writer, p: Bytes)
    requires w.Synced() && w.tap != Off
    ensures var total := w.sent[w.start..] + p;
            Writer.Extend(w.tap, p) == if |total| <= 1048576 then On(total, false) else On([], true)
  {
    assert Recorded(w.sent[w.start..] + p) == Writer.Extend(w.tap, p);
  }

  /** What goes to a server is kept for a retry until the response comes; a buffer of 16384 bytes or more is given up. */
  lemma {:induction false} KeepDecides(b: Bytes, p: Bytes, responseNotSent: bool)
    ensures Keep(None, p, responseNotSent) == (None, false)
    ensures Keep(Some(b), p, responseNotSent)
            == if |b| >= 16384 then (None, true) else if responseNotSent then (Some(b + p), false) else (None, false)
  {
  }

  /** The length in front of a re-encoded block has lower-case digits, and no zero in front. */
  lemma {:induction false} LengthText(n: nat)
    ensures forall k :: 0 <= k < |Hex(n)| ==> 48 <= Hex(n)[k] <= 57 || 97 <= Hex(n)[k] <= 102
    ensures n > 0 ==> Hex(n)[0] != 48
  {
    if n >= 16 { LengthText(n / 16); }
  }
}
