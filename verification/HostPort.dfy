/** Host and port in one string: the decimal numbers, net.JoinHostPort and net.SplitHostPort that util.go, http.go
    and socks.go rely on, and the URLs made of them. */
module HostPort {
  import opened Wire
  import opened Numerals

  // ---------------------------------------------------------------- decimal numbers

  /** strconv.Itoa on a number that is not negative. */
  function Itoa(n: nat): (s: Bytes)
    ensures s != [] && IsNumeral(s, 10)
  {
    var digit: Byte := ZERO + n % 10;
    if n < 10 then [digit] else Itoa(n / 10) + [digit]
  }

  predicate AllDigits(s: Bytes) {
    s != [] && IsNumeral(s, 10)
  }

  /** strconv.Atoi, without its limit to 64 bits: an optional sign and at least one digit. */
  function Atoi(s: Bytes): (r: Option<int>) {
    if s != [] && (s[0] == PLUS || s[0] == MINUS) then
      if !AllDigits(s[1..]) then None
      else
        var n: int := NumeralValue(s[1..], 10);
        Some(if s[0] == MINUS then -n else n)
    else if AllDigits(s) then Some(NumeralValue(s, 10))
    else None
  }

  lemma {:induction false} DigitsOfItoa(n: nat)
    ensures NumeralValue(Itoa(n), 10) == n
  {
    if n >= 10 {
      var s := Itoa(n);
      assert s[..|s| - 1] == Itoa(n / 10);
      DigitsOfItoa(n / 10);
    }
  }

  lemma {:induction false} AtoiOfItoa(n: nat)
    ensures Atoi(Itoa(n)) == Some(n)
    ensures COLON !in Itoa(n) && OPEN_BRACKET !in Itoa(n) && CLOSE_BRACKET !in Itoa(n)
  {
    DigitsOfItoa(n);
    assert 0 <= DigitValue(Itoa(n)[0]) < 10;
    assert DigitValue(COLON) == DigitValue(OPEN_BRACKET) == DigitValue(CLOSE_BRACKET) == -1;
  }

  // ---------------------------------------------------------------- joining and splitting

  function JoinHostPort(host: Bytes, port: Bytes): (s: Bytes) {
    if COLON in host then [OPEN_BRACKET] + host + [CLOSE_BRACKET, COLON] + port
    else host + [COLON] + port
  }

  /** The last index of `b` in `s`, or -1. */
  function LastIndex(s: Bytes, b: Byte): (i: int)
    ensures -1 <= i < |s|
    ensures i >= 0 ==> s[i] == b
    ensures forall k :: i < k < |s| ==> s[k] != b
  {
    if s == [] then -1
    else if s[|s| - 1] == b then |s| - 1
    else LastIndex(s[..|s| - 1], b)
  }

  lemma {:induction false} LastIndexIs(s: Bytes, b: Byte, i: int)
    requires -1 <= i < |s| && (i >= 0 ==> s[i] == b) && forall k :: i < k < |s| ==> s[k] != b
    ensures LastIndex(s, b) == i
  {
    var j := LastIndex(s, b);
  }

  datatype Pair = Pair(host: Bytes, port: Bytes)

  /** net.SplitHostPort; None for any of its errors. */
  function SplitHostPort(s: Bytes): (r: Option<Pair>)
  {
    var i := LastIndex(s, COLON);
    if i < 0 then None
    else if s[0] == OPEN_BRACKET then
      var end := IndexOf(s, CLOSE_BRACKET);
      if end == |s| || end + 1 != i then None
      else if OPEN_BRACKET in s[1..] || CLOSE_BRACKET in s[end + 1..] then None
      else Some(Pair(s[1..end], s[i + 1..]))
    else if COLON in s[..i] || OPEN_BRACKET in s || CLOSE_BRACKET in s then None
    else Some(Pair(s[..i], s[i + 1..]))
  }

  predicate NoBrackets(s: Bytes) {
    OPEN_BRACKET !in s && CLOSE_BRACKET !in s
  }

  lemma {:induction false} SplitOfJoin(host: Bytes, port: Bytes)
    requires NoBrackets(host) && NoBrackets(port) && COLON !in port
    ensures SplitHostPort(JoinHostPort(host, port)) == Some(Pair(host, port))
  {
    hide LastIndex, IndexOf;
    var s := JoinHostPort(host, port);
    JoinParts(host, port);
    if COLON in host {
      BracketedParts(host, port);
    } else {
      assert s == host + ([COLON] + port);
    }
  }

  lemma {:induction false} BracketedParts(host: Bytes, port: Bytes)
    requires NoBrackets(host) && NoBrackets(port)
    ensures var s := [OPEN_BRACKET] + host + [CLOSE_BRACKET, COLON] + port;
            var n := |host| + 1;
            IndexOf(s, CLOSE_BRACKET) == n && s[1..n] == host && OPEN_BRACKET !in s[1..] && CLOSE_BRACKET !in s[n + 1..]
  {
    hide IndexOf;
    var s := [OPEN_BRACKET] + host + [CLOSE_BRACKET, COLON] + port;
    var n := |host| + 1;
    assert forall k :: 1 <= k < n ==> s[k] == host[k - 1];
    IndexIs(s, CLOSE_BRACKET, n);
    assert s[1..] == host + ([CLOSE_BRACKET, COLON] + port);
    assert s[n + 1..] == [COLON] + port;
  }

  lemma {:induction false} IndexIs(s: Bytes, b: Byte, i: nat)
    requires i < |s| && s[i] == b && forall k :: 0 <= k < i ==> s[k] != b
    ensures IndexOf(s, b) == i
  {
    var j := IndexOf(s, b);
  }

  /** The joined form tells host and port apart. */
  lemma {:induction false} JoinIsInjective(h1: Bytes, p1: Bytes, h2: Bytes, p2: Bytes)
    requires COLON !in p1 && COLON !in p2 && JoinHostPort(h1, p1) == JoinHostPort(h2, p2)
    ensures h1 == h2 && p1 == p2
  {
    hide LastIndex, JoinHostPort;
    JoinParts(h1, p1);
    JoinParts(h2, p2);
    Unbracket(h1);
    Unbracket(h2);
  }

  function Bracketed(host: Bytes): (s: Bytes) {
    if COLON in host then [OPEN_BRACKET] + host + [CLOSE_BRACKET] else host
  }

  lemma {:induction false} Unbracket(host: Bytes)
    ensures var s := Bracketed(host);
            host == if COLON in s then s[1..|s| - 1] else s
  {
    var s := Bracketed(host);
    if COLON in host {
      var k :| 0 <= k < |host| && host[k] == COLON;
      assert s[k + 1] == COLON;
    }
  }

  /** The port starts after the last colon. */
  lemma {:induction false} JoinParts(host: Bytes, port: Bytes)
    requires COLON !in port
    ensures var s := JoinHostPort(host, port);
            var i := LastIndex(s, COLON);
            i >= 0 && s[i + 1..] == port && s[..i] == Bracketed(host) && i == |Bracketed(host)|
  {
    hide LastIndex;
    var s := JoinHostPort(host, port);
    var n := |s| - |port| - 1;
    assert s == Bracketed(host) + ([COLON] + port);
    LastIndexIs(s, COLON, n);
  }
}
