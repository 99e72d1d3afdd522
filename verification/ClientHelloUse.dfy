/** What the scanner makes of any bytes, valid or not, written out. */
module ClientHelloUse {
  import opened Wire
  import opened ClientHello

  /** The two bytes at `i` as a number. */
  function Number16(s: Bytes, i: nat): (n: nat)
    requires i + 2 <= |s|
  {
    256 * s[i] as nat + s[i + 1] as nat
  }

  lemma {:induction false} Number16Is(s: Bytes, i: nat)
    requires i + 2 <= |s|
    ensures Uint16(s[i..i + 2]) == Number16(s, i)
  {
  }

  /** A message is looked at when it has 39 bytes, is a ClientHello, and is there as far as its length says. Behind the
      random bytes a vector with one length byte, one with two and one with one must fit, and so must the extensions. */
  lemma {:induction false} MessageDecides(s: Bytes)
    ensures ScanHello(s) <==>
              |s| >= 39 && s[0] == 1 && 65536 * s[1] as nat + 256 * s[2] as nat + s[3] as nat + 4 <= |s| &&
              var a := 39 + s[38] as nat;
              a + 2 <= |s| &&
              var b := a + 2 + Number16(s, a);
              b + 1 <= |s| &&
              var c := b + 1 + s[b] as nat;
              c + 2 <= |s| &&
              var end := c + 2 + Number16(s, c);
              end <= |s| && ScanExtensions(s[c + 2..end])
  {
    hide ScanExtensions, ScanBlock, Skip8, Skip16, Uint16, Number16;
    if |s| >= 39 {
      LengthIs(s);
      Skip8At(s, 38);
      var a := 39 + s[38] as nat;
      if a <= |s| { Skip16At(s, a); }
      if a + 2 <= |s| {
        Number16Is(s, a);
        AfterSuites(s, a + 2 + Number16(s, a));
      }
    }
  }

  lemma {:induction false} LengthIs(s: Bytes)
    requires |s| >= 4
    ensures Uint24(s[1..4]) == 65536 * s[1] as nat + 256 * s[2] as nat + s[3] as nat
  {
    assert s[1..4][1..] == s[2..4];
    Number16Is(s, 2);
  }

  lemma {:induction false} AfterSuites(s: Bytes, b: nat)
    ensures b <= |s| ==>
              (match Skip8(s[b..]) case None => false case Some(c) => ScanBlock(c)) ==
              (b + 1 <= |s| &&
               var c := b + 1 + s[b] as nat;
               c + 2 <= |s| &&
               var end := c + 2 + Number16(s, c);
               end <= |s| && ScanExtensions(s[c + 2..end]))
  {
    hide ScanExtensions, ScanBlock, Skip8, Uint16, Number16;
    if b == |s| {
      NothingToSkip(s);
    } else if b < |s| {
      Skip8At(s, b);
      var c := b + 1 + s[b] as nat;
      if c <= |s| { ScanBlockAt(s, c); }
      if c + 2 <= |s| { Number16Is(s, c); }
    }
  }

  /** An extension: a protocol list with HTTP in it is an answer, and so is one that is malformed; any other extension, or
      a list of fewer than two bytes, is passed over. */
  lemma {:induction false} ExtensionDecides(high: Byte, low: Byte, size1: Byte, size2: Byte, body: Bytes, rest: Bytes)
    requires |body| == 256 * size1 as nat + size2 as nat
    ensures var e := [high, low, size1, size2] + body + rest;
            if high == 0 && low == 16 && |body| >= 2 then
              (ScanNames(body[2..]) == Found ==> ScanExtensions(e)) &&
              (ScanNames(body[2..]) == Malformed ==> !ScanExtensions(e)) &&
              (ScanNames(body[2..]) == NotFound ==> ScanExtensions(e) == ScanExtensions(rest))
            else ScanExtensions(e) == ScanExtensions(rest)
  {
    hide ScanNames;
    var e := [high, low, size1, size2] + body + rest;
    Number16Is(e, 0);
    Number16Is(e, 2);
    assert e[0..2] == e[..2];
    assert e[4 + |body|..] == rest;
    if |body| >= 2 { assert e[6..4 + |body|] == body[2..]; }
  }

  /** Extensions that end too soon are none. */
  lemma {:induction false} ExtensionCut(e: Bytes)
    requires |e| < 4 || |e| < 4 + Number16(e, 2)
    ensures !ScanExtensions(e)
  {
    if |e| >= 4 { Number16Is(e, 2); }
  }

  /** The names of a list: the first that is "h2" or "http/1.1" is an answer; a name that is cut makes the list malformed. */
  lemma {:induction false} NameDecides(size: Byte, name: Bytes, rest: Bytes)
    ensures ScanNames([]) == NotFound
    ensures |name| == size ==>
              ScanNames([size] + name + rest)
              == if name == [104, 50] || name == [104, 116, 116, 112, 47, 49, 46, 49] then Found else ScanNames(rest)
    ensures |name| < size ==> ScanNames([size] + name) == Malformed
  {
    if |name| == size {
      var p := [size] + name + rest;
      assert p[1..|name| + 1] == name && p[|name| + 1..] == rest;
    }
  }
}
