/** Hex digits and hex strings (section 8 of RFC 4648), as Go's `hex.DecodeString` reads them. */
module Hex {
  import opened GoBytes
  import opened Wrappers

  function Nibble(c: Byte): (v: Option<nat>)
    ensures v.Some? ==> v.value < 16
  {
    if 48 <= c <= 57 then Some(c - 48)
    else if 97 <= c <= 102 then Some(c - 87)
    else if 65 <= c <= 70 then Some(c - 55)
    else None
  }

  function LowerDigit(v: nat): (c: Byte)
    requires v < 16
  {
    if v < 10 then 48 + v else 87 + v
  }

  /** `hex.DecodeString`. */
  function HexDecode(s: Bytes): (b: Option<Bytes>)
  {
    if s == [] then Some([])
    else if |s| == 1 then None
    else match (Nibble(s[0]), Nibble(s[1]), HexDecode(s[2..]))
         case (Some(high), Some(low), Some(rest)) => Some([high * 16 + low] + rest)
         case _ => None
  }

  function HexEncode(b: Bytes): (s: Bytes)
  {
    if b == [] then [] else [LowerDigit(b[0] / 16), LowerDigit(b[0] % 16)] + HexEncode(b[1..])
  }

  function Lower(s: Bytes): (t: Bytes)
  {
    seq(|s|, i requires 0 <= i < |s| => if 65 <= s[i] <= 90 then s[i] + 32 else s[i])
  }

  lemma DigitsOfByte(x: Byte)
    ensures Nibble(LowerDigit(x / 16)) == Some(x / 16) && Nibble(LowerDigit(x % 16)) == Some(x % 16)
    ensures x / 16 * 16 + x % 16 == x
  {
  }

  lemma {:induction false} HexRoundTrip(b: Bytes)
    ensures HexDecode(HexEncode(b)) == Some(b)
  {
    if b == [] {
    } else {
      hide Nibble, LowerDigit;
      HexRoundTrip(b[1..]);
      DigitsOfByte(b[0]);
      assert HexEncode(b)[2..] == HexEncode(b[1..]);
      assert b == [b[0]] + b[1..];
    }
  }

  predicate AllHex(s: Bytes)
  {
    forall c | c in s :: Nibble(c).Some?
  }

  lemma {:induction false} HexAccepts(s: Bytes)
    ensures HexDecode(s).Some? <==> |s| % 2 == 0 && AllHex(s)
    ensures HexDecode(s).Some? ==> |HexDecode(s).value| * 2 == |s|
  {
    if |s| < 2 {
    } else {
      HexAccepts(s[2..]);
      assert AllHex(s) <==> Nibble(s[0]).Some? && Nibble(s[1]).Some? && AllHex(s[2..]) by {
        assert s == [s[0], s[1]] + s[2..];
      }
    }
  }

  lemma ByteOfDigits(high: Byte, low: Byte)
    requires Nibble(high).Some? && Nibble(low).Some?
    ensures var x := Nibble(high).value * 16 + Nibble(low).value;
            [LowerDigit(x / 16), LowerDigit(x % 16)] == Lower([high, low])
  {
    var x := Nibble(high).value * 16 + Nibble(low).value;
    assert x / 16 == Nibble(high).value && x % 16 == Nibble(low).value;
  }

  /** What is read is written back, in lower case. */
  lemma {:induction false} HexWritesBack(s: Bytes)
    requires HexDecode(s).Some?
    ensures HexEncode(HexDecode(s).value) == Lower(s)
  {
    if s == [] {
    } else {
      HexWritesBack(s[2..]);
      ByteOfDigits(s[0], s[1]);
      hide Nibble, LowerDigit;
      assert HexDecode(s).value[1..] == HexDecode(s[2..]).value;
      assert Lower(s) == Lower([s[0], s[1]]) + Lower(s[2..]);
    }
  }

  /** The two digits of each byte stand at its place, the high one first. */
  lemma {:induction false} DigitsAt(b: Bytes, i: nat)
    requires i < |b|
    ensures |HexEncode(b)| == 2 * |b|
    ensures HexEncode(b)[2 * i] == "0123456789abcdef"[b[i] / 16] as int
    ensures HexEncode(b)[2 * i + 1] == "0123456789abcdef"[b[i] % 16] as int
  {
    hide LowerDigit;
    DigitIs(b[0] / 16);
    DigitIs(b[0] % 16);
    if |b| == 1 {
    } else {
      DigitsAt(b[1..], if i == 0 then 0 else i - 1);
    }
  }

  lemma DigitIs(v: nat)
    requires v < 16
    ensures LowerDigit(v) == "0123456789abcdef"[v] as int
  {
  }
}
