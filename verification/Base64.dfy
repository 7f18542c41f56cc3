/** Base 64 with padding (section 4 of RFC 4648), as Go's `base64.StdEncoding` writes and reads it. */
module Base64 {
  import opened GoBytes
  import opened Wrappers

  type Sextet = v: int | 0 <= v < 64

  const PAD: Byte := 61

  function Letter(v: Sextet): (c: Byte)
  {
    if v < 26 then 65 + v else if v < 52 then 71 + v else if v < 62 then v - 4 else if v == 62 then 43 else 47
  }

  function Value(c: Byte): (v: Option<Sextet>)
  {
    if 65 <= c <= 90 then Some(c - 65)
    else if 97 <= c <= 122 then Some(c - 71)
    else if 48 <= c <= 57 then Some(c + 4)
    else if c == 43 then Some(62)
    else if c == 47 then Some(63)
    else None
  }

  lemma LetterValue(v: Sextet, c: Byte)
    ensures Value(c) == Some(v) <==> c == Letter(v)
    ensures Letter(v) != PAD && Letter(v) != 10 && Letter(v) != 13
  {
  }

  /** The four sextets of three octets, and back. */
  function Sextet0(a: Byte): Sextet { a / 4 }
  function Sextet1(a: Byte, b: Byte): Sextet { a % 4 * 16 + b / 16 }
  function Sextet2(b: Byte, c: Byte): Sextet { b % 16 * 4 + c / 64 }
  function Sextet3(c: Byte): Sextet { c % 64 }

  function Octet0(v0: Sextet, v1: Sextet): Byte { v0 * 4 + v1 / 16 }
  function Octet1(v1: Sextet, v2: Sextet): Byte { v1 % 16 * 16 + v2 / 4 }
  function Octet2(v2: Sextet, v3: Sextet): Byte { v2 % 4 * 64 + v3 }

  /** The four letters of one to three octets; missing octets count as zero bits. */
  function EncodeGroup(b: Bytes): (s: Bytes)
    requires 1 <= |b| <= 3
    ensures |s| == 4
  {
    if |b| == 1 then [Letter(Sextet0(b[0])), Letter(Sextet1(b[0], 0)), PAD, PAD]
    else if |b| == 2 then [Letter(Sextet0(b[0])), Letter(Sextet1(b[0], b[1])), Letter(Sextet2(b[1], 0)), PAD]
    else [Letter(Sextet0(b[0])), Letter(Sextet1(b[0], b[1])), Letter(Sextet2(b[1], b[2])), Letter(Sextet3(b[2]))]
  }

  function Encode(b: Bytes): (s: Bytes)
  {
    if b == [] then [] else if |b| <= 3 then EncodeGroup(b) else EncodeGroup(b[..3]) + Encode(b[3..])
  }

  /** The octets of one group; padding may stand only in its last one or two places. */
  function DecodeGroup(s: Bytes): (b: Option<Bytes>)
    requires |s| == 4
    ensures b.Some? ==> 1 <= |b.value| <= 3
  {
    match (Value(s[0]), Value(s[1]))
    case (Some(v0), Some(v1)) =>
      if s[2] == PAD && s[3] == PAD then Some([Octet0(v0, v1)])
      else (match Value(s[2])
            case Some(v2) =>
              if s[3] == PAD then Some([Octet0(v0, v1), Octet1(v1, v2)])
              else (match Value(s[3])
                    case Some(v3) => Some([Octet0(v0, v1), Octet1(v1, v2), Octet2(v2, v3)])
                    case None => None)
            case None => None)
    case _ => None
  }

  /** Group after group; a group with padding must be the last one. */
  function DecodeGroups(s: Bytes): (b: Option<Bytes>)
  {
    if s == [] then Some([])
    else if |s| < 4 then None
    else match DecodeGroup(s[..4])
         case None => None
         case Some(g) =>
           if |s| == 4 then Some(g)
           else if |g| < 3 then None
           else match DecodeGroups(s[4..])
                case Some(rest) => Some(g + rest)
                case None => None
  }

  predicate Newline(c: Byte)
  {
    c == 10 || c == 13
  }

  function DropNewlines(s: Bytes): (t: Bytes)
  {
    if s == [] then [] else (if Newline(s[0]) then [] else [s[0]]) + DropNewlines(s[1..])
  }

  /** `StdEncoding.DecodeString`: newlines anywhere are skipped, unused low bits are not checked. */
  function Decode(s: Bytes): (b: Option<Bytes>)
  {
    DecodeGroups(DropNewlines(s))
  }

  predicate NewlineFree(s: Bytes)
  {
    forall c | c in s :: !Newline(c)
  }

  lemma {:induction false} NothingDropped(s: Bytes)
    ensures DropNewlines(s) == s <==> NewlineFree(s)
    ensures |DropNewlines(s)| <= |s|
  {
    if s == [] {
    } else {
      NothingDropped(s[1..]);
      assert s == [s[0]] + s[1..];
    }
  }

  lemma OctetsOfSextets(a: Byte, b: Byte, c: Byte)
    ensures Octet0(Sextet0(a), Sextet1(a, b)) == a
    ensures Octet1(Sextet1(a, b), Sextet2(b, c)) == b
    ensures Octet2(Sextet2(b, c), Sextet3(c)) == c
  {
  }

  lemma LetterReads(v: Sextet)
    ensures Value(Letter(v)) == Some(v) && Letter(v) != PAD && !Newline(Letter(v))
  {
    LetterValue(v, Letter(v));
  }

  lemma DecodeEncodedGroup(b: Bytes)
    requires 1 <= |b| <= 3
    ensures DecodeGroup(EncodeGroup(b)) == Some(b)
    ensures NewlineFree(EncodeGroup(b))
  {
    hide Letter, Value, Octet0, Octet1, Octet2, Sextet0, Sextet1, Sextet2, Sextet3;
    var b1, b2: Byte := if |b| > 1 then b[1] else 0, if |b| > 2 then b[2] else 0;
    OctetsOfSextets(b[0], b1, b2);
    LetterReads(Sextet0(b[0]));
    LetterReads(Sextet1(b[0], b1));
    LetterReads(Sextet2(b1, b2));
    LetterReads(Sextet3(b2));
    assert b == if |b| == 1 then [b[0]] else if |b| == 2 then [b[0], b[1]] else [b[0], b[1], b[2]];
  }

  lemma {:induction false} DecodeEncodedGroups(b: Bytes)
    ensures DecodeGroups(Encode(b)) == Some(b)
    ensures NewlineFree(Encode(b))
  {
    if b == [] {
    } else {
      if |b| <= 3 {
        DecodeEncodedGroup(b);
        assert EncodeGroup(b)[..4] == EncodeGroup(b);
      } else {
        DecodeEncodedGroup(b[..3]);
        DecodeEncodedGroups(b[3..]);
        EncodedLength(b[3..]);
        assert Encode(b)[..4] == EncodeGroup(b[..3]) && Encode(b)[4..] == Encode(b[3..]);
        assert b == b[..3] + b[3..];
      }
    }
  }

  /** Four letters for every three octets begun. */
  lemma {:induction false} EncodedLength(b: Bytes)
    ensures |Encode(b)| == (|b| + 2) / 3 * 4
  {
    if |b| <= 3 {
    } else {
      EncodedLength(b[3..]);
    }
  }

  /** Every byte string, of any length modulo 3, is read back. */
  lemma {:induction false} RoundTrip(b: Bytes)
    ensures Decode(Encode(b)) == Some(b)
  {
    DecodeEncodedGroups(b);
    NothingDropped(Encode(b));
  }

  /** The bits of the last letter that no octet uses are zero. */
  predicate ZeroTail(s: Bytes)
    requires |s| == 4
  {
    && (s[2] == PAD && s[3] == PAD ==> Value(s[1]).Some? && Value(s[1]).value % 16 == 0)
    && (s[2] != PAD && s[3] == PAD ==> Value(s[2]).Some? && Value(s[2]).value % 4 == 0)
  }

  predicate Canonical(s: Bytes)
  {
    NewlineFree(s) && (|s| >= 4 ==> ZeroTail(s[|s| - 4..]))
  }

  lemma SextetsOfOctets(v0: Sextet, v1: Sextet, v2: Sextet, v3: Sextet)
    ensures Sextet0(Octet0(v0, v1)) == v0
    ensures Sextet1(Octet0(v0, v1), Octet1(v1, v2)) == v1
    ensures Sextet2(Octet1(v1, v2), Octet2(v2, v3)) == v2
    ensures Sextet3(Octet2(v2, v3)) == v3
    ensures Sextet1(Octet0(v0, v1), 0) == v1 <==> v1 % 16 == 0
    ensures Sextet2(Octet1(v1, v2), 0) == v2 <==> v2 % 4 == 0
  {
  }

  lemma ValueWrites(c: Byte)
    requires Value(c).Some?
    ensures forall v :: Letter(v) == c <==> v == Value(c).value
  {
    forall v: Sextet
      ensures Letter(v) == c <==> v == Value(c).value
    {
      LetterValue(v, c);
    }
  }

  lemma EncodeDecodedGroup(s: Bytes)
    requires |s| == 4 && DecodeGroup(s).Some?
    ensures EncodeGroup(DecodeGroup(s).value) == s <==> ZeroTail(s)
    ensures |DecodeGroup(s).value| == 3 ==> ZeroTail(s)
  {
    hide Letter, Octet0, Octet1, Octet2, Sextet0, Sextet1, Sextet2, Sextet3;
    ValueWrites(s[0]);
    ValueWrites(s[1]);
    var v0, v1 := Value(s[0]).value, Value(s[1]).value;
    if s[2] == PAD && s[3] == PAD {
      SextetsOfOctets(v0, v1, 0, 0);
    } else {
      ValueWrites(s[2]);
      if s[3] == PAD {
        SextetsOfOctets(v0, v1, Value(s[2]).value, 0);
      } else {
        ValueWrites(s[3]);
        SextetsOfOctets(v0, v1, Value(s[2]).value, Value(s[3]).value);
      }
    }
  }

  lemma {:induction false} EncodeDecodedGroups(s: Bytes)
    requires DecodeGroups(s).Some?
    ensures Encode(DecodeGroups(s).value) == s <==> (s == [] || (|s| >= 4 && ZeroTail(s[|s| - 4..])))
  {
    if s == [] {
    } else {
      EncodeDecodedGroup(s[..4]);
      var g := DecodeGroup(s[..4]).value;
      if |s| == 4 {
        assert s[..4] == s && s[0..] == s;
      } else {
        var rest := DecodeGroups(s[4..]).value;
        EncodeDecodedGroups(s[4..]);
        LongDecode(s[4..]);
        assert (g + rest)[..3] == g && (g + rest)[3..] == rest;
        assert s == s[..4] + s[4..];
        assert s[|s| - 4..] == s[4..][|s| - 8..];
      }
    }
  }

  lemma LongDecode(s: Bytes)
    requires s != [] && DecodeGroups(s).Some?
    ensures |s| >= 4 && DecodeGroups(s).value != []
    ensures |s| == 4 || |s| >= 8
  {
  }

  /** Accepted text is what the encoder writes exactly when it is canonical. */
  lemma OnlyCanonicalIsWritten(s: Bytes)
    requires Decode(s).Some?
    ensures Encode(Decode(s).value) == s <==> Canonical(s)
  {
    NothingDropped(s);
    var b := Decode(s).value;
    DecodeEncodedGroups(b);
    EncodeDecodedGroups(DropNewlines(s));
    if s != [] && DropNewlines(s) == s {
      LongDecode(s);
    }
  }

  lemma {:induction false} NewlineDropped(s: Bytes)
    ensures DropNewlines(s + [10]) == DropNewlines(s)
  {
    if s == [] {
      assert s + [10] == [10] && [10][1..] == [];
    } else {
      NewlineDropped(s[1..]);
      assert (s + [10])[1..] == s[1..] + [10];
    }
  }

  /** Every byte string is also read from a text the encoder does not write: its own with a newline added. */
  lemma ExtraNewlineIsAccepted(b: Bytes)
    ensures Decode(Encode(b) + [10]) == Some(b) && Encode(b) + [10] != Encode(b)
    ensures !Canonical(Encode(b) + [10])
  {
    NewlineDropped(Encode(b));
    RoundTrip(b);
    assert |Encode(b) + [10]| == |Encode(b)| + 1;
    OnlyCanonicalIsWritten(Encode(b) + [10]);
  }

  /** And a single byte from a text with a bit set that no octet uses. */
  lemma UnusedBitIsAccepted(a: Byte)
    ensures var s := [Letter(Sextet0(a)), Letter(Sextet1(a, 0) + 1), PAD, PAD];
            Decode(s) == Some([a]) && Encode([a]) != s && !Canonical(s)
  {
    var v0: Sextet, v1: Sextet := Sextet0(a), Sextet1(a, 0) + 1;
    var s := [Letter(v0), Letter(v1), PAD, PAD];
    LetterReads(v0);
    LetterReads(v1);
    NothingDropped(s);
    assert s[..4] == s;
    assert Octet0(v0, v1) == a;
    LetterValue(v1, Letter(v1));
    LetterValue(Sextet1(a, 0), Letter(Sextet1(a, 0)));
    assert Encode([a])[1] != s[1];
    OnlyCanonicalIsWritten(s);
  }

  // ---- The alphabet and the bits of RFC 4648 -------------------------------------------------------

  lemma LettersAreTheAlphabet(v: Sextet)
    ensures v < 26 ==> Letter(v) == 'A' as int + v
    ensures 26 <= v < 52 ==> Letter(v) == 'a' as int + (v - 26)
    ensures 52 <= v < 62 ==> Letter(v) == '0' as int + (v - 52)
    ensures v == 62 ==> Letter(v) == '+' as int
    ensures v == 63 ==> Letter(v) == '/' as int
    ensures PAD == '=' as int
  {
  }

  /** Three octets and their four letters write the same 24-bit number, most significant bits first. */
  lemma GroupKeepsBits(b: Bytes)
    requires |b| == 3
    ensures var s := EncodeGroup(b);
            && (forall i | 0 <= i < 4 :: Value(s[i]).Some?)
            && (Value(s[0]).value as int) * 262144 + (Value(s[1]).value as int) * 4096
               + (Value(s[2]).value as int) * 64 + Value(s[3]).value as int
               == (b[0] as int) * 65536 + (b[1] as int) * 256 + b[2] as int
  {
    hide Letter, Value;
    LetterReads(Sextet0(b[0]));
    LetterReads(Sextet1(b[0], b[1]));
    LetterReads(Sextet2(b[1], b[2]));
    LetterReads(Sextet3(b[2]));
  }

  /** A shorter last group is that of zero octets in place of the missing ones, with pads for their letters. */
  lemma ShortGroups(a: Byte, b: Byte)
    ensures EncodeGroup([a]) == EncodeGroup([a, 0, 0])[..2] + [61, 61]
    ensures EncodeGroup([a, b]) == EncodeGroup([a, b, 0])[..3] + [61]
  {
  }

  /** Groups of three octets, one after the other. */
  lemma EncodeIsGroups(b: Bytes)
    ensures |b| <= 3 ==> Encode(b) == if b == [] then [] else EncodeGroup(b)
    ensures |b| > 3 ==> Encode(b) == EncodeGroup(b[..3]) + Encode(b[3..])
  {
  }
}
