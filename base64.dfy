/**
 * The standard base64 alphabet and padding of section 4 of RFC 4648, as used by
 * Python's `base64.b64decode` on canonical input.
 *
 * Decode accepts exactly the canonical encodings: groups of four alphabet
 * characters, padding only in the last group, and zero bits in the positions the
 * padding leaves unused. Encode and Decode are then inverse bijections between
 * byte strings and canonical encodings (DecodeEncode and EncodeDecode).
 */
module Base64 {
  import opened Wrappers

  type byte = x: int | 0 <= x < 256
  type sextet = x: int | 0 <= x < 64

  const Pad: char := '='

  /** The alphabet of Table 1 of RFC 4648: A-Z, a-z, 0-9, '+', '/'. */
  function CharOf(v: sextet): (c: char)
    ensures c != Pad
  {
    if v < 26 then (65 + v) as char
    else if v < 52 then (97 + v - 26) as char
    else if v < 62 then (48 + v - 52) as char
    else if v == 62 then '+'
    else '/'
  }

  /** The inverse of CharOf; None for every character outside the alphabet. */
  function ValueOf(c: char): (r: Option<sextet>)
    ensures r.Some? ==> CharOf(r.value) == c
    ensures c == Pad ==> r.None?
  {
    if 'A' <= c <= 'Z' then Some(c as int - 65)
    else if 'a' <= c <= 'z' then Some(c as int - 97 + 26)
    else if '0' <= c <= '9' then Some(c as int - 48 + 52)
    else if c == '+' then Some(62)
    else if c == '/' then Some(63)
    else None
  }

  lemma ValueOfCharOf(v: sextet)
    ensures ValueOf(CharOf(v)) == Some(v)
  {
  }

  // The bit fields of a 24-bit group: four sextets cut from three bytes ...
  function Sextet0(b0: byte): sextet { b0 / 4 }
  function Sextet1(b0: byte, b1: byte): sextet { (b0 % 4) * 16 + b1 / 16 }
  function Sextet2(b1: byte, b2: byte): sextet { (b1 % 16) * 4 + b2 / 64 }
  function Sextet3(b2: byte): sextet { b2 % 64 }

  // ... and three bytes glued from four sextets.
  function Byte0(v0: sextet, v1: sextet): byte { v0 * 4 + v1 / 16 }
  function Byte1(v1: sextet, v2: sextet): byte { (v1 % 16) * 16 + v2 / 4 }
  function Byte2(v2: sextet, v3: sextet): byte { (v2 % 4) * 64 + v3 }

  lemma BytesOfSextets(b0: byte, b1: byte, b2: byte)
    ensures Byte0(Sextet0(b0), Sextet1(b0, b1)) == b0
    ensures Byte1(Sextet1(b0, b1), Sextet2(b1, b2)) == b1
    ensures Byte2(Sextet2(b1, b2), Sextet3(b2)) == b2
  {
    assert Sextet1(b0, b1) / 16 == b0 % 4 && Sextet1(b0, b1) % 16 == b1 / 16;
    assert Sextet2(b1, b2) / 4 == b1 % 16 && Sextet2(b1, b2) % 4 == b2 / 64;
  }

  lemma SextetsOfBytes(v0: sextet, v1: sextet, v2: sextet, v3: sextet)
    ensures Sextet0(Byte0(v0, v1)) == v0
    ensures Sextet1(Byte0(v0, v1), Byte1(v1, v2)) == v1
    ensures Sextet2(Byte1(v1, v2), Byte2(v2, v3)) == v2
    ensures Sextet3(Byte2(v2, v3)) == v3
  {
    assert Byte0(v0, v1) % 4 == v1 / 16 && Byte1(v1, v2) / 16 == v1 % 16;
    assert Byte1(v1, v2) % 16 == v2 / 4 && Byte2(v2, v3) / 64 == v2 % 4;
  }

  /** Three bytes, 24 bits, as four characters. */
  function EncodeGroup(b0: byte, b1: byte, b2: byte): string {
    [CharOf(Sextet0(b0)), CharOf(Sextet1(b0, b1)), CharOf(Sextet2(b1, b2)), CharOf(Sextet3(b2))]
  }

  /** A final quantum of one byte: two characters and two pad characters. */
  function EncodeOne(b0: byte): string {
    [CharOf(Sextet0(b0)), CharOf(Sextet1(b0, 0)), Pad, Pad]
  }

  /** A final quantum of two bytes: three characters and one pad character. */
  function EncodeTwo(b0: byte, b1: byte): string {
    [CharOf(Sextet0(b0)), CharOf(Sextet1(b0, b1)), CharOf(Sextet2(b1, 0)), Pad]
  }

  function Encode(bs: seq<byte>): (s: string)
    ensures |s| == 4 * ((|bs| + 2) / 3)
    decreases |bs|
  {
    if |bs| == 0 then ""
    else if |bs| == 1 then EncodeOne(bs[0])
    else if |bs| == 2 then EncodeTwo(bs[0], bs[1])
    else
      assert (|bs[3..]| + 2) / 3 == (|bs| + 2) / 3 - 1;
      EncodeGroup(bs[0], bs[1], bs[2]) + Encode(bs[3..])
  }

  /** Four alphabet characters, none of them padding, as three bytes. */
  function DecodeGroup(c0: char, c1: char, c2: char, c3: char): (r: Option<seq<byte>>)
    ensures r.Some? ==> |r.value| == 3
  {
    match (ValueOf(c0), ValueOf(c1), ValueOf(c2), ValueOf(c3))
    case (Some(v0), Some(v1), Some(v2), Some(v3)) =>
      Some([Byte0(v0, v1), Byte1(v1, v2), Byte2(v2, v3)])
    case _ => None
  }

  /** The last group of an encoding, which may carry one or two pad characters. */
  function DecodeLast(c0: char, c1: char, c2: char, c3: char): (r: Option<seq<byte>>)
    ensures r.Some? ==> 1 <= |r.value| <= 3
  {
    if c2 == Pad && c3 == Pad then
      match (ValueOf(c0), ValueOf(c1))
      case (Some(v0), Some(v1)) =>
        if v1 % 16 == 0 then Some([Byte0(v0, v1)]) else None
      case _ => None
    else if c3 == Pad then
      match (ValueOf(c0), ValueOf(c1), ValueOf(c2))
      case (Some(v0), Some(v1), Some(v2)) =>
        if v2 % 4 == 0 then Some([Byte0(v0, v1), Byte1(v1, v2)]) else None
      case _ => None
    else
      DecodeGroup(c0, c1, c2, c3)
  }

  /**
   * None for every string that is not a canonical encoding. What decodes is a
   * whole number of quanta, four characters for every three bytes or part of them.
   */
  function Decode(s: string): (r: Option<seq<byte>>)
    ensures r.Some? ==> |s| == 4 * ((|r.value| + 2) / 3)
    decreases |s|
  {
    if |s| == 0 then Some([])
    else if |s| < 4 then None
    else if |s| == 4 then DecodeLast(s[0], s[1], s[2], s[3])
    else
      match DecodeGroup(s[0], s[1], s[2], s[3])
      case None => None
      case Some(g) =>
        match Decode(s[4..])
        case None => None
        case Some(rest) =>
          assert |g + rest| == |rest| + 3;
          assert (|g + rest| + 2) / 3 == (|rest| + 2) / 3 + 1;
          Some(g + rest)
  }

  lemma DecodeEncodeGroup(b0: byte, b1: byte, b2: byte)
    ensures var e := EncodeGroup(b0, b1, b2); DecodeGroup(e[0], e[1], e[2], e[3]) == Some([b0, b1, b2])
  {
    ValueOfCharOf(Sextet0(b0));
    ValueOfCharOf(Sextet1(b0, b1));
    ValueOfCharOf(Sextet2(b1, b2));
    ValueOfCharOf(Sextet3(b2));
    BytesOfSextets(b0, b1, b2);
  }

  lemma DecodeEncodeOne(b0: byte)
    ensures var e := EncodeOne(b0); DecodeLast(e[0], e[1], e[2], e[3]) == Some([b0])
  {
    var v0, v1 := Sextet0(b0), Sextet1(b0, 0);
    ValueOfCharOf(v0);
    ValueOfCharOf(v1);
    assert v1 % 16 == 0 && v1 / 16 == b0 % 4;
    assert Byte0(v0, v1) == b0;
  }

  lemma DecodeEncodeTwo(b0: byte, b1: byte)
    ensures var e := EncodeTwo(b0, b1); DecodeLast(e[0], e[1], e[2], e[3]) == Some([b0, b1])
  {
    ValueOfCharOf(Sextet0(b0));
    ValueOfCharOf(Sextet1(b0, b1));
    ValueOfCharOf(Sextet2(b1, 0));
    BytesOfSextets(b0, b1, 0);
    assert Sextet2(b1, 0) % 4 == 0;
  }

  /** How Decode reads a full group followed by more text. */
  lemma DecodeGroupThen(g: string, rest: string, b: seq<byte>, t: seq<byte>)
    requires |g| == 4 && |rest| > 0
    requires DecodeGroup(g[0], g[1], g[2], g[3]) == Some(b) && Decode(rest) == Some(t)
    ensures Decode(g + rest) == Some(b + t)
  {
    var s := g + rest;
    assert s[4..] == rest;
    assert s[0] == g[0] && s[1] == g[1] && s[2] == g[2] && s[3] == g[3];
  }

  /** Every byte string survives an encode/decode round trip. */
  lemma {:induction false} DecodeEncode(bs: seq<byte>)
    ensures Decode(Encode(bs)) == Some(bs)
    decreases |bs|
  {
    if |bs| == 0 {
    } else if |bs| == 1 {
      DecodeEncodeOne(bs[0]);
      assert [bs[0]] == bs;
    } else if |bs| == 2 {
      DecodeEncodeTwo(bs[0], bs[1]);
      assert [bs[0], bs[1]] == bs;
    } else if |bs| == 3 {
      DecodeEncodeThree(bs);
    } else {
      DecodeEncode(bs[3..]);
      DecodeEncodeLonger(bs);
    }
  }

  lemma DecodeEncodeThree(bs: seq<byte>)
    requires |bs| == 3
    ensures Decode(Encode(bs)) == Some(bs)
  {
    var e := EncodeGroup(bs[0], bs[1], bs[2]);
    assert Encode(bs) == e + Encode(bs[3..]);
    assert Encode(bs[3..]) == "";
    assert Encode(bs) == e;
    DecodeEncodeGroup(bs[0], bs[1], bs[2]);
    assert e[2] != Pad && e[3] != Pad;
    assert [bs[0], bs[1], bs[2]] == bs;
  }

  lemma DecodeEncodeLonger(bs: seq<byte>)
    requires |bs| > 3
    requires Decode(Encode(bs[3..])) == Some(bs[3..])
    ensures Decode(Encode(bs)) == Some(bs)
  {
    var head, tail := [bs[0], bs[1], bs[2]], bs[3..];
    SplitThree(bs);
    var e, t := EncodeGroup(bs[0], bs[1], bs[2]), Encode(tail);
    EncodeLonger(bs);
    DecodeEncodeGroup(bs[0], bs[1], bs[2]);
    DecodeGroupThen(e, t, head, tail);
  }

  lemma SplitThree<T>(s: seq<T>)
    requires |s| >= 3
    ensures [s[0], s[1], s[2]] + s[3..] == s
  {
  }

  lemma EncodeLonger(bs: seq<byte>)
    requires |bs| > 3
    ensures Encode(bs) == EncodeGroup(bs[0], bs[1], bs[2]) + Encode(bs[3..])
    ensures |Encode(bs[3..])| > 0
  {
  }

  lemma EncodeDecodeGroup(c0: char, c1: char, c2: char, c3: char)
    requires DecodeGroup(c0, c1, c2, c3).Some?
    ensures var g := DecodeGroup(c0, c1, c2, c3).value; EncodeGroup(g[0], g[1], g[2]) == [c0, c1, c2, c3]
  {
    SextetsOfBytes(ValueOf(c0).value, ValueOf(c1).value, ValueOf(c2).value, ValueOf(c3).value);
  }

  lemma EncodeDecodeLast(c0: char, c1: char, c2: char, c3: char)
    requires DecodeLast(c0, c1, c2, c3).Some?
    ensures Encode(DecodeLast(c0, c1, c2, c3).value) == [c0, c1, c2, c3]
  {
    if c2 == Pad && c3 == Pad {
      EncodeDecodeOneByte(c0, c1);
    } else if c3 == Pad {
      EncodeDecodeTwoBytes(c0, c1, c2);
    } else {
      EncodeDecodeGroup(c0, c1, c2, c3);
      var r := DecodeGroup(c0, c1, c2, c3).value;
      assert Encode(r) == EncodeGroup(r[0], r[1], r[2]) + Encode([]);
    }
  }

  lemma EncodeDecodeOneByte(c0: char, c1: char)
    requires DecodeLast(c0, c1, Pad, Pad).Some?
    ensures Encode(DecodeLast(c0, c1, Pad, Pad).value) == [c0, c1, Pad, Pad]
  {
    var v0, v1 := ValueOf(c0).value, ValueOf(c1).value;
    var b0 := Byte0(v0, v1);
    assert DecodeLast(c0, c1, Pad, Pad).value == [b0];
    assert b0 / 4 == v0 && b0 % 4 == v1 / 16;
    assert Sextet1(b0, 0) == v1;
  }

  lemma EncodeDecodeTwoBytes(c0: char, c1: char, c2: char)
    requires c2 != Pad
    requires DecodeLast(c0, c1, c2, Pad).Some?
    ensures Encode(DecodeLast(c0, c1, c2, Pad).value) == [c0, c1, c2, Pad]
  {
    var v0, v1, v2 := ValueOf(c0).value, ValueOf(c1).value, ValueOf(c2).value;
    var b0, b1 := Byte0(v0, v1), Byte1(v1, v2);
    assert DecodeLast(c0, c1, c2, Pad).value == [b0, b1];
    SextetsOfBytes(v0, v1, v2, 0);
    assert Sextet2(b1, 0) == v2;
  }

  /** Decode succeeds only on canonical encodings: re-encoding its bytes gives the input back. */
  lemma {:induction false} EncodeDecode(s: string)
    requires Decode(s).Some?
    ensures Encode(Decode(s).value) == s
    decreases |s|
  {
    if |s| == 0 {
    } else if |s| == 4 {
      EncodeDecodeLast(s[0], s[1], s[2], s[3]);
      assert s == [s[0], s[1], s[2], s[3]];
    } else {
      EncodeDecode(s[4..]);
      EncodeDecodeLonger(s);
    }
  }

  /** A full group followed by a canonical rest re-encodes to itself. */
  lemma EncodeDecodeLonger(s: string)
    requires |s| > 4 && Decode(s).Some?
    requires Encode(Decode(s[4..]).value) == s[4..]
    ensures Encode(Decode(s).value) == s
  {
    var g := DecodeGroup(s[0], s[1], s[2], s[3]).value;
    var rest := Decode(s[4..]).value;
    assert Decode(s).value == g + rest;
    assert |rest| > 0;
    var bs := g + rest;
    EncodeLonger(bs);
    assert bs[3..] == rest;
    assert bs[0] == g[0] && bs[1] == g[1] && bs[2] == g[2];
    EncodeDecodeGroup(s[0], s[1], s[2], s[3]);
    SplitFour(s);
  }

  lemma SplitFour<T>(s: seq<T>)
    requires |s| >= 4
    ensures [s[0], s[1], s[2], s[3]] + s[4..] == s
  {
  }
}
