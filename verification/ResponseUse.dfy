/** Which header lines of a response are refused, which are passed on, and what the others amount to, without the
    functions of the parser. */
module ResponseUse {
  import opened Wire
  import opened Numerals
  import HostPort
  import opened ResponseFraming

  // ---------------------------------------------------------------- text

  lemma {:induction false} LowerMeans(s: Bytes, k: nat)
    requires k < |s|
    ensures |Lower(s)| == |s|
    ensures Lower(s)[k] == if 65 <= s[k] <= 90 then s[k] + 32 else s[k]
  {
  }

  /** Find gives the first place, and -1 when there is none. */
  lemma {:induction false} FindsFirst(s: Bytes, p: Bytes, j: nat)
    requires j + |p| <= |s| && s[j..j + |p|] == p
    ensures 0 <= Find(s, p) <= j
    decreases j
  {
    if j > 0 {
      assert s[1..][j - 1..j - 1 + |p|] == p;
      FindsFirst(s[1..], p, j - 1);
    }
  }

  /** `p` stands at place `j` of `s`. */
  predicate At(s: Bytes, p: Bytes, j: nat) {
    j + |p| <= |s| && s[j..j + |p|] == p
  }

  ghost predicate Contains(s: Bytes, p: Bytes) {
    exists j: nat :: At(s, p, j)
  }

  lemma {:induction false} FoundMeans(s: Bytes, p: Bytes)
    ensures Find(s, p) >= 0 <==> Contains(s, p)
    ensures Find(s, p) >= 0 ==> At(s, p, Find(s, p)) && forall j: nat :: j < Find(s, p) ==> !At(s, p, j)
  {
    hide Find;
    forall j: nat | At(s, p, j) ensures 0 <= Find(s, p) <= j {
      FindsFirst(s, p, j);
    }
    assert Find(s, p) >= 0 ==> At(s, p, Find(s, p));
  }

  // ---------------------------------------------------------------- which headers are refused

  /** A sign at most, and decimal digits. */
  predicate Integer(s: Bytes) {
    forall k :: 0 <= k < |s| ==> 48 <= s[k] <= 57 || (k == 0 && (s[k] == 43 || s[k] == 45))
  }

  /** The text behind the first "timeout=" does not start with a digit. */
  ghost predicate NoSeconds(s: Bytes) {
    var timeout: Bytes := [116, 105, 109, 101, 111, 117, 116, 61];
    exists i: nat :: At(s, timeout, i) && (forall j: nat :: j < i ==> !At(s, timeout, j)) &&
      (i + 8 == |s| || s[i + 8] < 48 || s[i + 8] > 57)
  }

  /** A line without a colon; a length that is no integer; a coding in which neither "chunked" nor "identity" occurs; a
      timeout without a number. Empty values are never looked at. */
  ghost predicate Faulty(f: Field) {
    match f.name
    case Malformed => true
    case ContentLength => f.value != [] && !Integer(f.value)
    case TransferEncoding =>
      f.value != [] && !Contains(Lower(f.value), [99, 104, 117, 110, 107, 101, 100]) &&
      !Contains(Lower(f.value), [105, 100, 101, 110, 116, 105, 116, 121])
    case KeepAlive => f.value != [] && NoSeconds(Lower(f.value))
    case _ => false
  }

  lemma {:induction false} DigitMeans(b: Byte)
    ensures 0 <= DigitValue(b) < 10 <==> 48 <= b <= 57
    ensures 48 <= b <= 57 ==> DigitValue(b) == b - 48
    ensures 65 <= b <= 70 ==> DigitValue(b) == b - 65 + 10
    ensures 97 <= b <= 102 ==> DigitValue(b) == b - 97 + 10
    ensures DigitValue(b) == -1 <==> !(48 <= b <= 57 || 65 <= b <= 70 || 97 <= b <= 102)
  {
  }

  /** No number is read from an empty text, in another base than 10 and 16, or with any other byte behind the sign. */
  lemma {:induction false} NumberRefused(s: Bytes, base: nat)
    ensures ParsedInt(s, base) == NotANumber <==>
              s == [] || (base != 10 && base != 16) ||
              exists k :: 0 <= k < |s| && !(k == 0 && (s[k] == 43 || s[k] == 45)) && !(48 <= s[k] <= 57) &&
                (base == 10 || !(65 <= s[k] <= 70 || 97 <= s[k] <= 102))
  {
    hide Wrap64, NumeralValue;
    if s != [] {
      var digits := if s[0] == PLUS || s[0] == MINUS then s[1..] else s;
      var skip := |s| - |digits|;
      assert forall k :: 0 <= k < |digits| ==> digits[k] == s[k + skip];
      if k :| 0 <= k < |s| && !(k == 0 && (s[k] == 43 || s[k] == 45)) && !(48 <= s[k] <= 57) &&
              (base == 10 || !(65 <= s[k] <= 70 || 97 <= s[k] <= 102)) {
        assert digits[k - skip] == s[k];
      }
    }
  }

  lemma {:induction false} IntegerParses(s: Bytes)
    requires s != []
    ensures ParsedInt(s, 10) == NotANumber <==> !Integer(s)
  {
    hide Wrap64, NumeralValue;
    var digits := if s[0] == PLUS || s[0] == MINUS then s[1..] else s;
    if Integer(s) {
      assert IsNumeral(digits, 10);
    } else {
      var k :| 0 <= k < |s| && !(48 <= s[k] <= 57 || (k == 0 && (s[k] == 43 || s[k] == 45)));
      assert |digits| < |s| ==> k > 0 && digits[k - 1] == s[k];
      assert !IsNumeral(digits, 10);
    }
  }

  /** The value of a number with a sign: the digits' value, or its negative, reduced to 64 bits; a lone sign is 0. */
  lemma {:induction false} SignDecides(digits: Bytes)
    requires forall k :: 0 <= k < |digits| ==> 48 <= digits[k] <= 57
    ensures IsNumeral(digits, 10)
    ensures var n: int := NumeralValue(digits, 10);
            ParsedInt([43] + digits, 10) == Number(Wrap64(n)) && ParsedInt([45] + digits, 10) == Number(Wrap64(-n))
    ensures ParsedInt([45], 10) == Number(0)
  {
    hide Wrap64;
    assert ([43] + digits)[1..] == digits && ([45] + digits)[1..] == digits;
    assert [45 as Byte][1..] == [];
    assert Wrap64(0) == 0;
  }

  lemma {:induction false} TimeoutDecides(value: Bytes)
    ensures KeepAliveOk(value) <==> !NoSeconds(Lower(value))
  {
    hide Find, Lower;
    var s := Lower(value);
    FoundMeans(s, TIMEOUT);
    var i := Find(s, TIMEOUT);
    if 0 <= i && i + 8 < |s| { DigitMeans(s[i + 8]); }
    if NoSeconds(s) {
      var k: nat :| At(s, TIMEOUT, k) && (forall j: nat :: j < k ==> !At(s, TIMEOUT, j)) &&
        (k + 8 == |s| || s[k + 8] < 48 || s[k + 8] > 57);
      assert i == k;
    }
  }

  lemma {:induction false} TakeRefuses(h: Head, f: Field)
    ensures Take(h, f).None? <==> Faulty(f)
  {
    hide Find, Lower, ParsedInt, KeepAliveOk, Contains, NoSeconds, Integer;
    if f.value != [] {
      match f.name
      case ContentLength => IntegerParses(f.value);
      case TransferEncoding =>
        FoundMeans(Lower(f.value), CHUNKED);
        FoundMeans(Lower(f.value), IDENTITY);
      case KeepAlive => TimeoutDecides(f.value);
      case _ =>
    }
  }

  /** A header is refused exactly when one of its lines is faulty. */
  lemma {:induction false} OneFaultRefuses(fields: seq<Field>)
    ensures Scan(fields).None? <==> exists i :: 0 <= i < |fields| && Faulty(fields[i])
  {
    hide Take, Faulty;
    if fields != [] {
      var n := |fields| - 1;
      OneFaultRefuses(fields[..n]);
      if Scan(fields[..n]).Some? { TakeRefuses(Scan(fields[..n]).value, fields[n]); }
      assert forall i :: 0 <= i < n ==> fields[..n][i] == fields[i];
    }
  }

  // ---------------------------------------------------------------- which lines are passed on

  /** Lengths and the lines that concern neither connection nor coding; those that the parser reads, unless empty. */
  predicate PassedOn(f: Field) {
    match f.name
    case Plain(_) => true
    case ContentLength => f.value != []
    case OtherParsed(_) => f.value != []
    case _ => false
  }

  lemma {:induction false} TakeKeeps(h: Head, f: Field)
    requires Take(h, f).Some?
    ensures Take(h, f).value.kept == if PassedOn(f) then h.kept + [f] else h.kept
  {
    hide Find, ParsedInt, KeepAliveOk;
  }

  /** The lines that the client gets are those, unchanged and in their order. */
  lemma {:induction false} PassedOnInOrder(fields: seq<Field>) returns (picks: seq<nat>)
    requires Scan(fields).Some?
    ensures |picks| == |Scan(fields).value.kept|
    ensures forall j, k :: 0 <= j < k < |picks| ==> picks[j] < picks[k]
    ensures forall k :: 0 <= k < |picks| ==> picks[k] < |fields| && Scan(fields).value.kept[k] == fields[picks[k]]
    ensures forall i :: 0 <= i < |fields| ==> (i in picks <==> PassedOn(fields[i]))
  {
    hide Take, PassedOn;
    picks := [];
    if fields != [] {
      var n := |fields| - 1;
      picks := PassedOnInOrder(fields[..n]);
      TakeKeeps(Scan(fields[..n]).value, fields[n]);
      assert forall i :: 0 <= i < n ==> (i in picks <==> PassedOn(fields[..n][i]));
      if PassedOn(fields[n]) {
        picks := picks + [n];
      }
    }
  }

  /** What is added behind them for the body: the coding when it is chunked, and without a length either the coding or
      a length of zero. */
  lemma {:induction false} AddedForBody(h: Head, hasBody: bool, keepAlive: bool)
    ensures var a := Announced(h, hasBody, keepAlive);
            var chunked := Field(TransferEncoding, [99, 104, 117, 110, 107, 101, 100]);
            var added := if h.chunking || (h.contLen == -1 && hasBody) then [chunked]
                         else if h.contLen == -1 then [Field(ContentLength, [48])] else [];
            h.kept + added <= a
  {
  }

  /** The last lines tell the client of an upgrade, or else whether the connection stays open. */
  lemma {:induction false} EndsWithConnection(h: Head, hasBody: bool, keepAlive: bool)
    ensures var a := Announced(h, hasBody, keepAlive);
            var n := |a|;
            if h.upgrade != [] then
              n >= 2 && a[n - 2..] == [Field(Connection, [85, 112, 103, 114, 97, 100, 101]), Field(Upgrade, h.upgrade)]
            else if keepAlive then
              n >= 2 && a[n - 2] == Field(Connection, [107, 101, 101, 112, 45, 97, 108, 105, 118, 101]) &&
              a[n - 1] == Field(KeepAlive, [116, 105, 109, 101, 111, 117, 116, 61, 49, 53])
            else n >= 1 && a[n - 1] == Field(Connection, [99, 108, 111, 115, 101])
  {
  }

  // ---------------------------------------------------------------- what the last line of a kind says

  /** The last line of this name that is not empty; -1 for none. */
  ghost predicate LastOf(fields: seq<Field>, name: Name, i: int) {
    -1 <= i < |fields| && (i >= 0 ==> fields[i].name == name && fields[i].value != []) &&
    forall k :: i < k < |fields| ==> fields[k].name != name || fields[k].value == []
  }

  lemma {:induction false} LineSays(h: Head, f: Field)
    requires Take(h, f).Some?
    ensures var h' := Take(h, f).value;
            (if f.name == ContentLength && f.value != [] then ParsedInt(f.value, 10) == Number(h'.contLen)
             else h'.contLen == h.contLen) &&
            h'.chunking ==
              (if f.name == TransferEncoding && f.value != [] then Find(Lower(f.value), CHUNKED) >= 0 else h.chunking) &&
            h'.upgrade == if f.name == Upgrade && f.value != [] then Lower(f.value) else h.upgrade
  {
    hide Lower, Find, ParsedInt, KeepAliveOk;
  }

  /** Of several lengths, codings or upgrades the last one counts; without any there is no length, no coding and no
      upgrade. */
  lemma {:induction false} LastCounts(fields: seq<Field>, length: int, coding: int, upgrade: int)
    requires Scan(fields).Some?
    requires LastOf(fields, ContentLength, length) && LastOf(fields, TransferEncoding, coding) &&
             LastOf(fields, Upgrade, upgrade)
    ensures var h := Scan(fields).value;
            (if length == -1 then h.contLen == -1 else ParsedInt(fields[length].value, 10) == Number(h.contLen)) &&
            (h.chunking <==> coding >= 0 && Contains(Lower(fields[coding].value), [99, 104, 117, 110, 107, 101, 100])) &&
            h.upgrade == if upgrade == -1 then [] else Lower(fields[upgrade].value)
  {
    hide Contains, Lower, Find, ParsedInt, Take;
    if fields != [] {
      var n := |fields| - 1;
      var f := fields[n];
      LineSays(Scan(fields[..n]).value, f);
      assert forall k :: 0 <= k < n ==> fields[..n][k] == fields[k];
      var l := if length == n then Earlier(fields, ContentLength) else length;
      var c := if coding == n then Earlier(fields, TransferEncoding) else coding;
      var u := if upgrade == n then Earlier(fields, Upgrade) else upgrade;
      LastCounts(fields[..n], l, c, u);
      FoundMeans(Lower(f.value), CHUNKED);
    }
  }

  ghost function Earlier(fields: seq<Field>, name: Name): (i: int)
    requires fields != []
    ensures LastOf(fields[..|fields| - 1], name, i)
  {
    LastExists(fields[..|fields| - 1], name);
    var i :| LastOf(fields[..|fields| - 1], name, i);
    i
  }

  lemma {:induction false} LastExists(fields: seq<Field>, name: Name)
    ensures exists i :: LastOf(fields, name, i)
  {
    if fields == [] {
      assert LastOf(fields, name, -1);
    } else {
      var n := |fields| - 1;
      LastExists(fields[..n], name);
      var i :| LastOf(fields[..n], name, i);
      var j := if fields[n].name == name && fields[n].value != [] then n else i;
      assert forall k :: 0 <= k < n ==> fields[..n][k] == fields[k];
      assert LastOf(fields, name, j);
    }
  }

  // ---------------------------------------------------------------- the standard's side

  /** The final coding is what stands behind the last comma, without the white space around it. */
  lemma {:induction false} FinalCodingMeans(others: Bytes, before: Bytes, coding: Bytes, after: Bytes)
    requires forall k :: 0 <= k < |before| ==> before[k] == 32 || before[k] == 9
    requires forall k :: 0 <= k < |after| ==> after[k] == 32 || after[k] == 9
    requires coding != [] && coding[0] !in [9, 10, 13, 32] && coding[|coding| - 1] !in [9, 10, 13, 32] && 44 !in coding
    ensures FinalCoding(before + coding + after) == coding
    ensures FinalCoding(others + [44] + (before + coding + after)) == coding
  {
    hide Trimmed;
    var last := before + coding + after;
    assert 44 !in last;
    HostPort.LastIndexIs(last, 44, -1);
    assert last[0..] == last;
    var v := others + [44] + last;
    HostPort.LastIndexIs(v, 44, |others|);
    assert v[|others| + 1..] == last;
    TrimmedSpaceAround(before, coding, after);
  }

  /** Two codings, two lengths or a length that is no numeral make a header invalid; any coding but a final "chunked",
      and the lack of both fields, make the body end with the connection. */
  lemma {:induction false} StandardDecides(fields: seq<Field>)
    ensures var te, cl := Values(fields, TransferEncoding), Values(fields, ContentLength);
            var m := FramingOf(fields, true);
            m.Invalid? == (|te| > 1 || (te == [] && |cl| > 1) ||
                           (te == [] && |cl| == 1 &&
                            (cl[0] == [] || exists k :: 0 <= k < |cl[0]| && !(48 <= cl[0][k] <= 57)))) &&
            m.UntilClose? == ((|te| == 1 && FinalCoding(Lower(te[0])) != [99, 104, 117, 110, 107, 101, 100]) ||
                              (te == [] && cl == []))
    ensures FramingOf(fields, false) == NoBody
  {
    hide Values, FinalCoding, Lower, NumeralValue;
  }

  /** A message is complete on an open connection when nothing is missing and nothing is left over. */
  lemma {:induction false} CompleteMeans(wire: Bytes, n: nat)
    ensures Received(NoBody, wire).Some? <==> wire == []
    ensures Received(Length(n), wire).Some? <==> |wire| == n
    ensures Received(Length(n), wire).Some? ==> Received(Length(n), wire).value == wire
    ensures Received(UntilClose, wire) == None && Received(Invalid, wire) == None
    ensures Payload(Length(n), wire).Some? ==> Received(Length(n), wire[..n]) == Payload(Length(n), wire)
  {
  }
}
