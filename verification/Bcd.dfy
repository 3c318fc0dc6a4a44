/** Decoding the identity numbers of a card: two digits to the byte, read with C's string functions. */
module Bcd {
  import opened CText
  import opened Wrappers

  const EID_LENGTH := 16

  // The table the decoders index: a terminator for every nibble that is no digit.
  const BCD_CHARS := "0123456789" + [NUL, NUL, NUL, NUL, NUL, NUL]

  function Low(b: Byte): nat { b % 16 }
  function High(b: Byte): nat { b / 16 }

  // The k-th nibble of an ICCID, low halves first.
  function Nibble(bytes: seq<Byte>, k: nat): (n: nat)
    requires k < 2 * |bytes|
    ensures n < 16
  {
    if k % 2 == 0 then Low(bytes[k / 2]) else High(bytes[k / 2])
  }

  function Decoded(bytes: seq<Byte>): (r: string)
    ensures |r| == 2 * |bytes|
  {
    seq(2 * |bytes|, k requires 0 <= k < 2 * |bytes| => BCD_CHARS[Nibble(bytes, k)])
  }

  function Swapped(bytes: seq<Byte>): (r: seq<Byte>)
    ensures |r| == |bytes|
  {
    seq(|bytes|, i requires 0 <= i < |bytes| => 16 * Low(bytes[i]) + High(bytes[i]))
  }

  // The same half byte, found in the order an EID is read.
  lemma SwappedNibble(bytes: seq<Byte>, k: nat)
    requires k < 2 * |bytes|
    ensures Nibble(Swapped(bytes), k) == if k % 2 == 0 then High(bytes[k / 2]) else Low(bytes[k / 2])
  {
    var b := bytes[k / 2];
    assert Swapped(bytes)[k / 2] == 16 * Low(b) + High(b);
  }

  method DecodeIccid(bcd: Option<seq<Byte>>) returns (r: Option<string>)
    ensures r == match bcd case None => None case Some(bytes) => Some(Decoded(bytes))
  {
    if bcd.None? {
      return None;
    }
    var bytes := bcd.value;
    var str := "";
    var i := 0;
    while i < |bytes|
      invariant 0 <= i <= |bytes| && |str| == 2 * i
      invariant forall k :: 0 <= k < 2 * i ==> str[k] == BCD_CHARS[Nibble(bytes, k)]
    {
      str := str + [BCD_CHARS[Low(bytes[i])]];
      str := str + [BCD_CHARS[High(bytes[i])]];
      i := i + 1;
    }
    assert str == Decoded(bytes);
    return Some(str);
  }

  /** Only a 16-byte EID is decoded, to what the ICCID decoder makes of its bytes with their halves swapped. */
  method DecodeEid(eid: Option<seq<Byte>>) returns (r: Option<string>)
    ensures r == if eid.Some? && |eid.value| == EID_LENGTH then Some(Decoded(Swapped(eid.value))) else None
  {
    if eid.None? {
      return None;
    }
    if |eid.value| != EID_LENGTH {
      return None;
    }
    var bytes := eid.value;
    var str := "";
    var i := 0;
    while i < |bytes|
      invariant 0 <= i <= |bytes| && |str| == 2 * i
      invariant forall k :: 0 <= k < 2 * i ==> str[k] == BCD_CHARS[Nibble(Swapped(bytes), k)]
    {
      SwappedNibble(bytes, 2 * i);
      SwappedNibble(bytes, 2 * i + 1);
      str := str + [BCD_CHARS[High(bytes[i])]];
      str := str + [BCD_CHARS[Low(bytes[i])]];
      i := i + 1;
    }
    assert str == Decoded(Swapped(bytes));
    return Some(str);
  }

  // ---- Where the digits stop ----

  lemma DigitChar(n: nat)
    requires n < 16
    ensures BCD_CHARS[n] == if n < 10 then '0' + n as char else NUL
  {
  }

  /**
   A reader of the decoded string sees exactly the decimal nibbles before the first one that is not, at most two for
   every byte.
   */
  lemma DecodedStopsAtNonDigit(bytes: seq<Byte>)
    ensures var n := |CString(Decoded(bytes))|;
            && n <= 2 * |bytes|
            && (forall k :: 0 <= k < n ==> Nibble(bytes, k) < 10 && CString(Decoded(bytes))[k] == '0' + Nibble(bytes, k) as char)
            && (n < 2 * |bytes| ==> Nibble(bytes, n) >= 10)
  {
    var s := CString(Decoded(bytes));
    forall k | 0 <= k < |s|
      ensures Nibble(bytes, k) < 10 && s[k] == '0' + Nibble(bytes, k) as char
    {
      assert s[k] == Decoded(bytes)[k] && s[k] in s;
      DigitChar(Nibble(bytes, k));
    }
    if |s| < 2 * |bytes| {
      assert Decoded(bytes)[|s|] == NUL;
      DigitChar(Nibble(bytes, |s|));
    }
  }

  // ---- Packing ----

  type Digit = x: int | 0 <= x < 10

  const FILLER := 15

  // The coding a card uses: digits in pairs, the first in the low half, an odd one out filled up.
  function Packed(digits: seq<Digit>): (r: seq<Byte>)
    ensures |r| == (|digits| + 1) / 2
  {
    seq((|digits| + 1) / 2, i requires 0 <= i < (|digits| + 1) / 2 =>
      digits[2 * i] + 16 * (if 2 * i + 1 < |digits| then digits[2 * i + 1] else FILLER))
  }

  function Printed(digits: seq<Digit>): (r: string)
    ensures |r| == |digits|
  {
    seq(|digits|, k requires 0 <= k < |digits| => '0' + digits[k] as char)
  }

  lemma PackedNibble(digits: seq<Digit>, k: nat)
    requires k < 2 * |Packed(digits)|
    ensures Nibble(Packed(digits), k) == if k < |digits| then digits[k] else FILLER
  {
    var i := k / 2;
    var low, high := digits[2 * i], if 2 * i + 1 < |digits| then digits[2 * i + 1] else FILLER;
    assert Packed(digits)[i] == low + 16 * high;
  }

  /** Decoding what a card packed gives the digits back, whatever their number. */
  lemma DecodeInvertsPacking(digits: seq<Digit>)
    ensures CString(Decoded(Packed(digits))) == Printed(digits)
  {
    var s := Decoded(Packed(digits));
    forall k | 0 <= k < |s|
      ensures s[k] == if k < |digits| then '0' + digits[k] as char else NUL
    {
      PackedNibble(digits, k);
      DigitChar(Nibble(Packed(digits), k));
    }
    assert s[..|digits|] == Printed(digits);
    CStringEnds(s, |digits|);
  }

  lemma NibblePair(bytes: seq<Byte>, i: nat)
    requires i < |bytes|
    ensures Nibble(bytes, 2 * i) + 16 * Nibble(bytes, 2 * i + 1) == bytes[i]
  {
  }

  // Bytes as a card would have packed them: decimal throughout, but for one filler at the end.
  predicate WellPacked(bytes: seq<Byte>) {
    forall k :: 0 <= k < 2 * |bytes| ==>
      Nibble(bytes, k) < 10 || (k == 2 * |bytes| - 1 && Nibble(bytes, k) == FILLER)
  }

  predicate Decimal(s: string) {
    forall k :: 0 <= k < |s| ==> '0' <= s[k] <= '9'
  }

  function DigitsOf(s: string): (r: seq<Digit>)
    requires Decimal(s)
    ensures |r| == |s|
  {
    seq(|s|, k requires 0 <= k < |s| => s[k] as int - '0' as int)
  }

  /** And packing what was decoded gives the bytes back, if a card could have packed them: no two cards look alike. */
  lemma PackingInvertsDecode(bytes: seq<Byte>)
    requires WellPacked(bytes)
    ensures var s := CString(Decoded(bytes));
            && Decimal(s)
            && Packed(DigitsOf(s)) == bytes
  {
    DecodedStopsAtNonDigit(bytes);
    var s := CString(Decoded(bytes));
    var digits := DigitsOf(s);
    assert |s| == 2 * |bytes| || |s| == 2 * |bytes| - 1;
    forall i | 0 <= i < |bytes|
      ensures Packed(digits)[i] == bytes[i]
    {
      NibblePair(bytes, i);
      assert digits[2 * i] == Nibble(bytes, 2 * i);
      if 2 * i + 1 < |digits| {
        assert digits[2 * i + 1] == Nibble(bytes, 2 * i + 1);
      }
    }
  }
}
