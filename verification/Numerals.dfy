/** util.go: TrimSpace and ParseIntFromBytes, with the int64 arithmetic written out. */
module Numerals {
  import opened Wire

  const TWO63: int := 0x8000_0000_0000_0000
  const TWO64: int := 0x1_0000_0000_0000_0000

  /** Two's complement reduction of an integer to int64. */
  function Wrap64(n: int): (r: int)
    ensures -TWO63 <= r < TWO63
    ensures -TWO63 <= n < TWO63 ==> r == n
  {
    (n + TWO63) % TWO64 - TWO63
  }

  predicate IsSpace(b: Byte) {
    b == HT || b == LF || b == CR || b == SP
  }

  /** `s` without the white space at either end. */
  function Trimmed(s: Bytes): (r: Bytes) {
    if s == [] then []
    else if IsSpace(s[0]) then Trimmed(s[1..])
    else if IsSpace(s[|s| - 1]) then Trimmed(s[..|s| - 1])
    else s
  }

  lemma {:induction false} TrimmedSpaceAround(before: Bytes, s: Bytes, after: Bytes)
    requires forall k :: 0 <= k < |before| ==> IsSpace(before[k])
    requires forall k :: 0 <= k < |after| ==> IsSpace(after[k])
    requires s == [] || (!IsSpace(s[0]) && !IsSpace(s[|s| - 1]))
    ensures Trimmed(before + s + after) == s
    decreases |before| + |after|
  {
    var t := before + s + after;
    if before != [] {
      assert t[0] == before[0];
      assert t[1..] == before[1..] + s + after;
      TrimmedSpaceAround(before[1..], s, after);
    } else if after != [] {
      if s == [] {
        assert t == after;
        assert t[1..] == [] + s + after[1..];
        TrimmedSpaceAround([], s, after[1..]);
      } else {
        assert t[0] == s[0] && t[|t| - 1] == after[|after| - 1];
        assert t[..|t| - 1] == before + s + after[..|after| - 1];
        TrimmedSpaceAround(before, s, after[..|after| - 1]);
      }
    } else {
      assert t == s;
    }
  }

  /** TrimSpace: two scans that move inwards from both ends. */
  method TrimSpace(s: Bytes) returns (r: Bytes)
    ensures r == Trimmed(s)
  {
    var st := 0;
    while st < |s| && IsSpace(s[st])
      invariant 0 <= st <= |s|
      invariant forall k :: 0 <= k < st ==> IsSpace(s[k])
    {
      st := st + 1;
    }
    if st == |s| {
      TrimmedSpaceAround(s, [], []);
      assert s + [] + [] == s;
      return [];
    }
    var end := |s| - 1;
    while end >= 0 && IsSpace(s[end])
      invariant st <= end < |s|
      invariant forall k :: end < k < |s| ==> IsSpace(s[k])
    {
      end := end - 1;
    }
    r := s[st..end + 1];
    assert s == s[..st] + r + s[end + 1..];
    TrimmedSpaceAround(s[..st], r, s[end + 1..]);
  }

  /** digitTbl: the value of a hexadecimal digit, -1 for any other byte. */
  function DigitValue(b: Byte): (v: int)
    ensures -1 <= v < 16
  {
    if 48 <= b <= 57 then b - 48
    else if 65 <= b <= 70 then b - 55
    else if 97 <= b <= 102 then b - 87
    else -1
  }

  predicate IsNumeral(s: Bytes, base: nat) {
    forall k :: 0 <= k < |s| ==> 0 <= DigitValue(s[k]) < base
  }

  /** The number a digit string denotes, most significant digit first, with no bound on its size. */
  function NumeralValue(s: Bytes, base: nat): (n: nat)
    requires base > 0
    requires IsNumeral(s, base)
  {
    if s == [] then 0
    else NumeralValue(s[..|s| - 1], base) * base + DigitValue(s[|s| - 1])
  }

  datatype Parsed = Number(n: int) | NotANumber

  /** What ParseIntFromBytes computes: an optional sign, digits of the base, and int64 wrap-around. */
  function ParsedInt(b: Bytes, base: nat): (r: Parsed)
  {
    if base != 10 && base != 16 then NotANumber
    else if b == [] then NotANumber
    else
      var digits := if b[0] == PLUS || b[0] == MINUS then b[1..] else b;
      if !IsNumeral(digits, base) then NotANumber
      else
        var v: int := NumeralValue(digits, base);
        Number(Wrap64(if b[0] == MINUS then -v else v))
  }

  lemma {:induction false} WrapMulAdd(n: int, m: int, base: int, v: int)
    requires Wrap64(n) == m
    ensures Wrap64(m * base + v) == Wrap64(n * base + v)
  {
    // n and m differ by a multiple q of 2^64, so the two sums differ by q * base of them.
    var q := (n + TWO63) / TWO64;
    assert n == m + q * TWO64;
    assert n * base + v == m * base + v + (q * base) * TWO64 by {
      assert (m + q * TWO64) * base == m * base + (q * TWO64) * base;
      assert (q * TWO64) * base == (q * base) * TWO64;
    }
    WrapShift(m * base + v, q * base);
  }

  lemma {:induction false} WrapShift(n: int, q: int)
    ensures Wrap64(n + q * TWO64) == Wrap64(n)
  {
    var a := n + TWO63;
    assert (a + q * TWO64) % TWO64 == a % TWO64 by {
      var d, r := a / TWO64, a % TWO64;
      assert a + q * TWO64 == (d + q) * TWO64 + r by {
        assert (d + q) * TWO64 == d * TWO64 + q * TWO64;
      }
      ModOf(d + q, r);
    }
  }

  lemma {:induction false} ModOf(d: int, r: int)
    requires 0 <= r < TWO64
    ensures (d * TWO64 + r) % TWO64 == r
  {
  }

  lemma {:induction false} WrapNeg(n: int, m: int)
    requires Wrap64(n) == m
    ensures Wrap64(-m) == Wrap64(-n)
  {
    WrapMulAdd(n, m, -1, 0);
    assert m * -1 + 0 == -m && n * -1 + 0 == -n;
  }

  lemma {:induction false} NumeralEmpty(s: Bytes, base: nat)
    requires base > 0
    ensures IsNumeral(s[..0], base) && Wrap64(NumeralValue(s[..0], base)) == 0
  {
  }

  lemma {:induction false} NumeralStep(s: Bytes, i: nat, base: nat)
    requires i < |s| && base > 0
    requires IsNumeral(s[..i], base) && 0 <= DigitValue(s[i]) < base
    ensures IsNumeral(s[..i + 1], base)
    ensures NumeralValue(s[..i + 1], base) == NumeralValue(s[..i], base) * base + DigitValue(s[i])
  {
    var pre := s[..i + 1];
    assert pre[..i] == s[..i];
  }

  /** ParseIntFromBytes: the accumulating loop, wrapping after each digit as int64 does. */
  method ParseIntFromBytes(b: Bytes, base: nat) returns (r: Parsed)
    ensures r == ParsedInt(b, base)
  {
    if base != 10 && base != 16 {
      return NotANumber;
    }
    if b == [] {
      return NotANumber;
    }
    hide NumeralValue, Wrap64;
    var neg := false;
    var digits := b;
    if b[0] == PLUS {
      digits := b[1..];
    } else if b[0] == MINUS {
      digits := b[1..];
      neg := true;
    }
    var n := 0;
    NumeralEmpty(digits, base);
    for i := 0 to |digits|
      invariant IsNumeral(digits[..i], base)
      invariant n == Wrap64(NumeralValue(digits[..i], base))
    {
      var v := DigitValue(digits[i]);
      if v == -1 || v >= base {
        assert !IsNumeral(digits, base);
        return NotANumber;
      }
      NumeralStep(digits, i, base);
      WrapMulAdd(NumeralValue(digits[..i], base), n, base, v);
      n := Wrap64(n * base + v);
    }
    assert digits[..|digits|] == digits;
    assert IsNumeral(digits, base);
    if neg {
      WrapNeg(NumeralValue(digits, base), n);
      n := Wrap64(-n);
    }
    r := Number(n);
  }

  function Power16(k: nat): (p: nat)
    ensures p > 0
  {
    if k == 0 then 1 else 16 * Power16(k - 1)
  }

  lemma {:induction false} NumeralBound(s: Bytes)
    requires IsNumeral(s, 16)
    ensures NumeralValue(s, 16) < Power16(|s|)
  {
    if s != [] {
      NumeralBound(s[..|s| - 1]);
    }
  }

  lemma {:induction false} Power16Monotone(j: nat, k: nat)
    requires j <= k
    ensures Power16(j) <= Power16(k)
  {
    if j < k {
      Power16Monotone(j, k - 1);
    }
  }

  /** Up to 15 hexadecimal digits are parsed exactly: no int64 overflow. */
  lemma {:induction false} HexParsesExactly(s: Bytes)
    requires 0 < |s| <= 15
    requires IsNumeral(s, 16)
    ensures ParsedInt(s, 16) == Number(NumeralValue(s, 16))
    ensures NumeralValue(s, 16) < 0x1000_0000_0000_0000
  {
    NumeralBound(s);
    Power16Monotone(|s|, 15);
    assert Power16(15) == 0x1000_0000_0000_0000 by {
      assert Power16(4) == 0x1_0000;
      assert Power16(8) == 0x1_0000_0000;
      assert Power16(12) == 0x1_0000_0000_0000;
    }
    assert DigitValue(PLUS) == -1 && DigitValue(MINUS) == -1;
  }

  /** A sixteenth digit is one too many: `8000000000000000` parses to the smallest int64. */
  lemma {:induction false} SixteenDigitsOverflow()
    ensures var s: Bytes := [56] + seq(15, _ => ZERO);
            IsNumeral(s, 16) && exists n :: n < 0 && ParsedInt(s, 16) == Number(n)
  {
    var s: Bytes := [56] + seq(15, _ => ZERO);
    ZerosScale(8, 15);
    assert s[..1] == [56 as Byte];
    assert NumeralValue([56], 16) == 8 by {
      assert [56 as Byte][..0] == [];
    }
    assert Power16(15) == 0x1000_0000_0000_0000 by {
      assert Power16(4) == 0x1_0000;
      assert Power16(8) == 0x1_0000_0000;
      assert Power16(12) == 0x1_0000_0000_0000;
    }
    assert ParsedInt(s, 16) == Number(-TWO63);
  }

  lemma {:induction false} ZerosScale(d: nat, k: nat)
    requires 0 < d < 10
    ensures var s: Bytes := [ZERO + d] + seq(k, _ => ZERO);
            IsNumeral(s, 16) && NumeralValue(s, 16) == d * Power16(k)
  {
    var s: Bytes := [ZERO + d] + seq(k, _ => ZERO);
    if k == 0 {
      assert s[..|s| - 1] == [];
    } else {
      ZerosScale(d, k - 1);
      assert s[..|s| - 1] == [ZERO + d] + seq(k - 1, _ => ZERO);
    }
  }

  /** The lower-case hexadecimal digit of a value below 16. */
  function HexDigit(v: nat): (b: Byte)
    requires v < 16
    ensures DigitValue(b) == v
  {
    if v < 10 then 48 + v else 87 + v
  }

  /** What fmt.Sprintf("%x", n) prints. */
  function Hex(n: nat): (s: Bytes)
    ensures s != []
    ensures IsNumeral(s, 16)
    ensures NumeralValue(s, 16) == n
  {
    if n < 16 then
      var s: Bytes := [HexDigit(n)];
      assert s[..0] == [] && NumeralValue(s[..0], 16) == 0;
      s
    else
      var init := Hex(n / 16);
      var s := init + [HexDigit(n % 16)];
      assert s[..|s| - 1] == init;
      s
  }
}
