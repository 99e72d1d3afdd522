/** Bytes on the wire, and the few constants that every codec shares. */
module Wire {

  type Byte = b: int | 0 <= b < 256

  type Bytes = seq<Byte>

  datatype Option<+T> = None | Some(value: T)

  const HT: Byte := 9
  const LF: Byte := 10
  const CR: Byte := 13
  const SP: Byte := 32
  const PLUS: Byte := 43
  const MINUS: Byte := 45
  const PERCENT: Byte := 37
  const DOT: Byte := 46
  const ZERO: Byte := 48
  const COLON: Byte := 58
  const SEMICOLON: Byte := 59
  const OPEN_BRACKET: Byte := 91
  const CLOSE_BRACKET: Byte := 93

  type Word = n: int | 0 <= n < 0x1_0000

  const CRLF: Bytes := [CR, LF]

  /** The first index of `b` in `s`, or `|s|` when there is none. */
  function IndexOf(s: Bytes, b: Byte): (i: nat)
    ensures i <= |s|
    ensures forall k :: 0 <= k < i ==> s[k] != b
    ensures i < |s| ==> s[i] == b
  {
    if s == [] || s[0] == b then 0 else 1 + IndexOf(s[1..], b)
  }

  /** The length of `s` up to and including its first line feed, or 0 when `s` holds no complete line. */
  function LineLength(s: Bytes): (n: nat)
    ensures n <= |s|
    ensures n > 0 ==> s[n - 1] == LF && LF !in s[..n - 1]
    ensures n == 0 ==> LF !in s
  {
    var i := IndexOf(s, LF);
    if i < |s| then i + 1 else 0
  }

  /** binary.BigEndian on two bytes. */
  function BigEndian(n: Word): (b: Bytes)
    ensures |b| == 2 && Uint16(b) == n
  {
    var high: Byte := n / 256;
    var low: Byte := n % 256;
    [high, low]
  }

  function Uint16(b: Bytes): (n: Word)
    requires |b| == 2
  {
    var high: int := b[0];
    high * 256 + b[1]
  }
}
