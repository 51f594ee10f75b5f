/** UTF-8, as `std::str::from_utf8` accepts it: the well-formed byte sequences
    of Table 3-7 of the Unicode Standard (section 3.9), decoded to Unicode
    scalar values, which are exactly Dafny's `char`s. */
module Utf8 {
  import opened Tunnel

  predicate IsCont(b: byte)
  {
    0x80 <= b <= 0xBF
  }

  /** Lowest allowed second byte after a three- or four-byte lead byte. */
  function SecondLo(b0: byte): byte
  {
    if b0 == 0xE0 then 0xA0 else if b0 == 0xF0 then 0x90 else 0x80
  }

  /** Highest allowed second byte after a three- or four-byte lead byte. */
  function SecondHi(b0: byte): byte
  {
    if b0 == 0xED then 0x9F else if b0 == 0xF4 then 0x8F else 0xBF
  }

  /** The scalar value that `bs` starts with, and how many bytes encode it. */
  function DecodeFirst(bs: seq<byte>): (r: Option<(char, nat)>)
    ensures r.Some? ==> 1 <= r.value.1 <= |bs| && r.value.1 <= 4
  {
    if bs == [] then None
    else
      var b0 := bs[0] as int;
      if b0 < 0x80 then Some((b0 as char, 1))
      else if 0xC2 <= b0 <= 0xDF then
        if |bs| >= 2 && IsCont(bs[1])
        then Some((((b0 - 0xC0) * 0x40 + (bs[1] as int - 0x80)) as char, 2))
        else None
      else if 0xE0 <= b0 <= 0xEF then
        if |bs| >= 3 && SecondLo(bs[0]) <= bs[1] <= SecondHi(bs[0]) && IsCont(bs[2])
        then Some((((b0 - 0xE0) * 0x1000 + (bs[1] as int - 0x80) * 0x40 + (bs[2] as int - 0x80)) as char, 3))
        else None
      else if 0xF0 <= b0 <= 0xF4 then
        if |bs| >= 4 && SecondLo(bs[0]) <= bs[1] <= SecondHi(bs[0]) && IsCont(bs[2]) && IsCont(bs[3])
        then Some((((b0 - 0xF0) * 0x40000 + (bs[1] as int - 0x80) * 0x1000 + (bs[2] as int - 0x80) * 0x40 + (bs[3] as int - 0x80)) as char, 4))
        else None
      else None
  }

  /** The string `bs` encodes, or None when `bs` is not well-formed UTF-8. */
  function Decode(bs: seq<byte>): Option<string>
    decreases |bs|
  {
    if bs == [] then Some([])
    else
      match DecodeFirst(bs)
      case None => None
      case Some((c, n)) =>
        match Decode(bs[n..])
        case None => None
        case Some(rest) => Some([c] + rest)
  }

  /** The shortest UTF-8 encoding of one scalar value. */
  function EncodeChar(c: char): (bs: seq<byte>)
    ensures 1 <= |bs| <= 4
  {
    var cp := c as int;
    if cp < 0x80 then [cp]
    else if cp < 0x800 then [0xC0 + cp / 0x40, 0x80 + cp % 0x40]
    else if cp < 0x10000 then [0xE0 + cp / 0x1000, 0x80 + (cp / 0x40) % 0x40, 0x80 + cp % 0x40]
    else [0xF0 + cp / 0x40000, 0x80 + (cp / 0x1000) % 0x40, 0x80 + (cp / 0x40) % 0x40, 0x80 + cp % 0x40]
  }

  function Encode(s: string): seq<byte>
  {
    if s == [] then [] else EncodeChar(s[0]) + Encode(s[1..])
  }

  lemma DecodeTwoBytes(c: char, rest: seq<byte>)
    requires 0x80 <= c as int < 0x800
    ensures DecodeFirst(EncodeChar(c) + rest) == Some((c, 2))
  {
    var cp := c as int;
    assert (cp / 0x40) * 0x40 + cp % 0x40 == cp;
  }

  lemma DecodeThreeBytes(c: char, rest: seq<byte>)
    requires 0x800 <= c as int < 0x10000
    ensures DecodeFirst(EncodeChar(c) + rest) == Some((c, 3))
  {
    var cp := c as int;
    assert ((cp / 0x40) / 0x40) * 0x40 + (cp / 0x40) % 0x40 == cp / 0x40;
    assert cp / 0x1000 == (cp / 0x40) / 0x40;
    assert (cp / 0x40) * 0x40 + cp % 0x40 == cp;
  }

  lemma DecodeFourBytes(c: char, rest: seq<byte>)
    requires 0x10000 <= c as int
    ensures DecodeFirst(EncodeChar(c) + rest) == Some((c, 4))
  {
    var cp := c as int;
    assert cp / 0x1000 == (cp / 0x40) / 0x40;
    assert cp / 0x40000 == (cp / 0x1000) / 0x40;
    assert ((cp / 0x1000) / 0x40) * 0x40 + (cp / 0x1000) % 0x40 == cp / 0x1000;
    assert ((cp / 0x40) / 0x40) * 0x40 + (cp / 0x40) % 0x40 == cp / 0x40;
    assert (cp / 0x40) * 0x40 + cp % 0x40 == cp;
  }

  /** Decoding the encoding of a char, whatever follows it, gives the char back. */
  lemma DecodeFirstEncodeChar(c: char, rest: seq<byte>)
    ensures DecodeFirst(EncodeChar(c) + rest) == Some((c, |EncodeChar(c)|))
  {
    var cp := c as int;
    if cp < 0x80 {
    } else if cp < 0x800 {
      DecodeTwoBytes(c, rest);
    } else if cp < 0x10000 {
      DecodeThreeBytes(c, rest);
    } else {
      DecodeFourBytes(c, rest);
    }
  }

  /** Every string survives an encode/decode round trip. */
  lemma {:induction false} DecodeEncode(s: string)
    ensures Decode(Encode(s)) == Some(s)
    decreases |s|
  {
    if s != [] {
      var head := EncodeChar(s[0]);
      var tail := Encode(s[1..]);
      DecodeFirstEncodeChar(s[0], tail);
      assert (head + tail)[|head|..] == tail;
      DecodeEncode(s[1..]);
      assert [s[0]] + s[1..] == s;
    }
  }

  lemma TwoByteCanonical(bs: seq<byte>)
    requires DecodeFirst(bs).Some? && 0x80 <= bs[0] <= 0xDF
    ensures EncodeChar(DecodeFirst(bs).value.0) == bs[..2]
  {
    var b0 := bs[0] as int;
    var cp := DecodeFirst(bs).value.0 as int;
    assert cp == (b0 - 0xC0) * 0x40 + (bs[1] as int - 0x80);
    assert cp / 0x40 == b0 - 0xC0 && cp % 0x40 == bs[1] as int - 0x80;
  }

  lemma ThreeByteCanonical(bs: seq<byte>)
    requires DecodeFirst(bs).Some? && 0xE0 <= bs[0] <= 0xEF
    ensures EncodeChar(DecodeFirst(bs).value.0) == bs[..3]
  {
    var b0 := bs[0] as int;
    var cp := DecodeFirst(bs).value.0 as int;
    var q := (b0 - 0xE0) * 0x40 + (bs[1] as int - 0x80);
    assert cp == q * 0x40 + (bs[2] as int - 0x80);
    assert cp / 0x40 == q && cp % 0x40 == bs[2] as int - 0x80;
    assert q / 0x40 == b0 - 0xE0 && q % 0x40 == bs[1] as int - 0x80;
    assert cp / 0x1000 == q / 0x40;
  }

  lemma FourByteCanonical(bs: seq<byte>)
    requires DecodeFirst(bs).Some? && 0xF0 <= bs[0]
    ensures EncodeChar(DecodeFirst(bs).value.0) == bs[..4]
  {
    var b0 := bs[0] as int;
    var cp := DecodeFirst(bs).value.0 as int;
    var q1 := (b0 - 0xF0) * 0x40 + (bs[1] as int - 0x80);
    var q2 := q1 * 0x40 + (bs[2] as int - 0x80);
    assert cp == q2 * 0x40 + (bs[3] as int - 0x80);
    assert cp / 0x40 == q2 && cp % 0x40 == bs[3] as int - 0x80;
    assert q2 / 0x40 == q1 && q2 % 0x40 == bs[2] as int - 0x80;
    assert q1 / 0x40 == b0 - 0xF0 && q1 % 0x40 == bs[1] as int - 0x80;
    assert cp / 0x1000 == q2 / 0x40;
    assert cp / 0x40000 == q1 / 0x40;
  }

  /** A decoded char is encoded by exactly the bytes it was decoded from. */
  lemma EncodeCharDecodeFirst(bs: seq<byte>)
    requires DecodeFirst(bs).Some?
    ensures EncodeChar(DecodeFirst(bs).value.0) == bs[..DecodeFirst(bs).value.1]
  {
    if bs[0] < 0x80 {
    } else if bs[0] <= 0xDF {
      TwoByteCanonical(bs);
    } else if bs[0] <= 0xEF {
      ThreeByteCanonical(bs);
    } else {
      FourByteCanonical(bs);
    }
  }

  /** Decoding accepts only canonical encodings: what decodes to `s` is the
      encoding of `s`. */
  lemma {:induction false} EncodeDecode(bs: seq<byte>)
    requires Decode(bs).Some?
    ensures Encode(Decode(bs).value) == bs
    decreases |bs|
  {
    if bs != [] {
      var n := DecodeFirst(bs).value.1;
      EncodeCharDecodeFirst(bs);
      EncodeDecode(bs[n..]);
      var s := Decode(bs).value;
      assert s[1..] == Decode(bs[n..]).value;
      assert bs[..n] + bs[n..] == bs;
    }
  }

  /** ASCII text is encoded byte for byte. */
  lemma {:induction false} EncodeAscii(s: string)
    requires forall i :: 0 <= i < |s| ==> s[i] as int < 0x80
    ensures |Encode(s)| == |s|
    ensures forall i :: 0 <= i < |s| ==> Encode(s)[i] == s[i] as int
    decreases |s|
  {
    if s != [] {
      EncodeAscii(s[1..]);
      assert Encode(s) == [s[0] as int] + Encode(s[1..]);
    }
  }
}
