/** The base64 encoding of section 4 of RFC 4648 ("Base 64 Encoding"): the 64-character
    alphabet A-Z, a-z, 0-9, '+', '/', with '=' padding to a multiple of four characters.
    The browser's `btoa`/`atob` pair that the audio codec calls is specified by it. */
module Base64 {
  import opened Wrappers

  type byte = b: int | 0 <= b < 256
  type sextet = d: int | 0 <= d < 64

  const Pad: char := '='

  /** Table 1 of RFC 4648: the character for each 6-bit value. */
  function CharOf(d: sextet): char {
    if d < 26 then ('A' as int + d) as char
    else if d < 52 then ('a' as int + (d - 26)) as char
    else if d < 62 then ('0' as int + (d - 52)) as char
    else if d == 62 then '+'
    else '/'
  }

  /** The inverse of Table 1; characters outside the alphabet (including the pad) have none. */
  function ValueOf(c: char): Option<sextet> {
    if 'A' <= c <= 'Z' then Some(c as int - 'A' as int)
    else if 'a' <= c <= 'z' then Some(c as int - 'a' as int + 26)
    else if '0' <= c <= '9' then Some(c as int - '0' as int + 52)
    else if c == '+' then Some(62)
    else if c == '/' then Some(63)
    else None
  }

  lemma ValueOfCharOf(d: sextet)
    ensures ValueOf(CharOf(d)) == Some(d)
    ensures CharOf(d) != Pad
  {
  }

  /** Three octets become four characters (RFC 4648, section 4: 24-bit groups read as four
      concatenated 6-bit groups, most significant first). */
  function EncodeGroup(b0: byte, b1: byte, b2: byte): string {
    [CharOf(b0 / 4), CharOf((b0 % 4) * 16 + b1 / 16), CharOf((b1 % 16) * 4 + b2 / 64), CharOf(b2 % 64)]
  }

  /** The base64 text of a byte sequence; a final group of one or two octets is padded with
      zero bits and `==` or `=`. */
  function Encode(bs: seq<byte>): string
    decreases |bs|
  {
    if |bs| == 0 then ""
    else if |bs| == 1 then [CharOf(bs[0] / 4), CharOf((bs[0] % 4) * 16), Pad, Pad]
    else if |bs| == 2 then [CharOf(bs[0] / 4), CharOf((bs[0] % 4) * 16 + bs[1] / 16), CharOf((bs[1] % 16) * 4), Pad]
    else EncodeGroup(bs[0], bs[1], bs[2]) + Encode(bs[3..])
  }

  /** The octets carried by two, three or four 6-bit groups (the unused low bits of a
      padded quantum are dropped). */
  function Octets1(d0: int, d1: int): seq<byte>
    requires 0 <= d0 < 64 && 0 <= d1 < 64
  {
    [d0 * 4 + d1 / 16]
  }

  function Octets2(d0: int, d1: int, d2: int): seq<byte>
    requires 0 <= d0 < 64 && 0 <= d1 < 64 && 0 <= d2 < 64
  {
    [d0 * 4 + d1 / 16, (d1 % 16) * 16 + d2 / 4]
  }

  function Octets3(d0: int, d1: int, d2: int, d3: int): seq<byte>
    requires 0 <= d0 < 64 && 0 <= d1 < 64 && 0 <= d2 < 64 && 0 <= d3 < 64
  {
    [d0 * 4 + d1 / 16, (d1 % 16) * 16 + d2 / 4, (d2 % 4) * 64 + d3]
  }

  /** Four alphabet characters back to three octets. */
  function DecodeGroup(c0: char, c1: char, c2: char, c3: char): Option<seq<byte>> {
    match (ValueOf(c0), ValueOf(c1), ValueOf(c2), ValueOf(c3))
    case (Some(d0), Some(d1), Some(d2), Some(d3)) =>
      Some(Octets3(d0, d1, d2, d3))
    case _ => None
  }

  /** The last quantum: `xx==` is one octet, `xxx=` two, `xxxx` three. */
  function DecodeFinal(c0: char, c1: char, c2: char, c3: char): Option<seq<byte>> {
    if c2 == Pad && c3 == Pad then
      match (ValueOf(c0), ValueOf(c1))
      case (Some(d0), Some(d1)) => Some(Octets1(d0, d1))
      case _ => None
    else if c3 == Pad then
      match (ValueOf(c0), ValueOf(c1), ValueOf(c2))
      case (Some(d0), Some(d1), Some(d2)) => Some(Octets2(d0, d1, d2))
      case _ => None
    else DecodeGroup(c0, c1, c2, c3)
  }

  /** Strict decoding: the text must be a whole number of quanta, every character in the
      alphabet, and padding only at the very end. Anything else is rejected. */
  function Decode(s: string): Option<seq<byte>>
    decreases |s|
  {
    if |s| == 0 then Some([])
    else if |s| < 4 then None
    else if |s| == 4 then DecodeFinal(s[0], s[1], s[2], s[3])
    else
      match DecodeGroup(s[0], s[1], s[2], s[3])
      case None => None
      case Some(head) =>
        match Decode(s[4..])
        case None => None
        case Some(tail) => Some(head + tail)
  }

  /** Four characters for every started group of three octets. */
  lemma {:induction false} EncodeLength(bs: seq<byte>)
    ensures |Encode(bs)| == 4 * ((|bs| + 2) / 3)
    decreases |bs|
  {
    if |bs| > 3 {
      var n := |bs| - 3;
      EncodeLength(bs[3..]);
      assert Encode(bs) == EncodeGroup(bs[0], bs[1], bs[2]) + Encode(bs[3..]);
      assert (n + 3 + 2) / 3 == (n + 2) / 3 + 1;
    }
  }

  /** The four 6-bit groups of three octets carry those octets back. */
  lemma OctetsOfGroup(b0: byte, b1: byte, b2: byte)
    ensures Octets3(b0 / 4, (b0 % 4) * 16 + b1 / 16, (b1 % 16) * 4 + b2 / 64, b2 % 64) == [b0, b1, b2]
  {
    var d1 := (b0 % 4) * 16 + b1 / 16;
    var d2 := (b1 % 16) * 4 + b2 / 64;
    assert d1 / 16 == b0 % 4 && d1 % 16 == b1 / 16;
    assert d2 / 4 == b1 % 16 && d2 % 4 == b2 / 64;
  }

  lemma DecodeEncodeGroup(b0: byte, b1: byte, b2: byte)
    ensures var g := EncodeGroup(b0, b1, b2); |g| == 4 && DecodeGroup(g[0], g[1], g[2], g[3]) == Some([b0, b1, b2])
  {
    var d0, d1, d2, d3 := b0 / 4, (b0 % 4) * 16 + b1 / 16, (b1 % 16) * 4 + b2 / 64, b2 % 64;
    ValueOfCharOf(d0);
    ValueOfCharOf(d1);
    ValueOfCharOf(d2);
    ValueOfCharOf(d3);
    OctetsOfGroup(b0, b1, b2);
    var g := EncodeGroup(b0, b1, b2);
    assert g == [CharOf(d0), CharOf(d1), CharOf(d2), CharOf(d3)];
  }

  lemma DecodeEncodeOne(b0: byte)
    ensures Decode(Encode([b0])) == Some([b0])
  {
    ValueOfCharOf(b0 / 4);
    ValueOfCharOf((b0 % 4) * 16);
    var c0, c1 := CharOf(b0 / 4), CharOf((b0 % 4) * 16);
    assert Encode([b0]) == [c0, c1, Pad, Pad];
    assert (b0 % 4) * 16 / 16 == b0 % 4;
    assert DecodeFinal(c0, c1, Pad, Pad) == Some([b0]);
  }

  lemma DecodeEncodeTwo(b0: byte, b1: byte)
    ensures Decode(Encode([b0, b1])) == Some([b0, b1])
  {
    var d1, d2 := (b0 % 4) * 16 + b1 / 16, (b1 % 16) * 4;
    ValueOfCharOf(b0 / 4);
    ValueOfCharOf(d1);
    ValueOfCharOf(d2);
    var c0, c1, c2 := CharOf(b0 / 4), CharOf(d1), CharOf(d2);
    assert Encode([b0, b1]) == [c0, c1, c2, Pad];
    assert d1 / 16 == b0 % 4 && d1 % 16 == b1 / 16 && d2 / 4 == b1 % 16;
    assert DecodeFinal(c0, c1, c2, Pad) == Some([b0, b1]);
  }

  lemma DecodeEncodeThree(b0: byte, b1: byte, b2: byte)
    ensures Decode(Encode([b0, b1, b2])) == Some([b0, b1, b2])
  {
    var g := EncodeGroup(b0, b1, b2);
    assert [b0, b1, b2][3..] == [];
    assert Encode([b0, b1, b2]) == g;
    ValueOfCharOf((b1 % 16) * 4 + b2 / 64);
    ValueOfCharOf(b2 % 64);
    DecodeEncodeGroup(b0, b1, b2);
    assert DecodeFinal(g[0], g[1], g[2], g[3]) == DecodeGroup(g[0], g[1], g[2], g[3]);
  }

  /** A full leading quantum decodes on its own, in front of whatever the rest decodes to. */
  lemma DecodeAppend(g: string, rest: string, head: seq<byte>, tail: seq<byte>)
    requires |g| == 4 && |rest| > 0
    requires DecodeGroup(g[0], g[1], g[2], g[3]) == Some(head)
    requires Decode(rest) == Some(tail)
    ensures Decode(g + rest) == Some(head + tail)
  {
    var s := g + rest;
    assert s[0] == g[0] && s[1] == g[1] && s[2] == g[2] && s[3] == g[3];
    assert s[4..] == rest;
  }

  lemma EncodeCons(bs: seq<byte>)
    requires |bs| > 3
    ensures Encode(bs) == EncodeGroup(bs[0], bs[1], bs[2]) + Encode(bs[3..])
  {
  }

  lemma DecodeEncodeLong(bs: seq<byte>, g: string, rest: string)
    requires |bs| > 3 && |rest| > 0
    requires g == EncodeGroup(bs[0], bs[1], bs[2]) && rest == Encode(bs[3..])
    requires Encode(bs) == g + rest
    requires Decode(rest) == Some(bs[3..])
    requires |g| == 4 && DecodeGroup(g[0], g[1], g[2], g[3]) == Some([bs[0], bs[1], bs[2]])
    ensures Decode(Encode(bs)) == Some(bs)
  {
    assert [bs[0], bs[1], bs[2]] + bs[3..] == bs;
    DecodeAppend(g, rest, [bs[0], bs[1], bs[2]], bs[3..]);
  }

  /** Decoding undoes encoding for every byte sequence, zero bytes included. */
  lemma {:induction false} DecodeEncode(bs: seq<byte>)
    ensures Decode(Encode(bs)) == Some(bs)
    decreases |bs|
  {
    if |bs| == 0 {
    } else if |bs| == 1 {
      DecodeEncodeOne(bs[0]);
      assert bs == [bs[0]];
    } else if |bs| == 2 {
      DecodeEncodeTwo(bs[0], bs[1]);
      assert bs == [bs[0], bs[1]];
    } else if |bs| == 3 {
      DecodeEncodeThree(bs[0], bs[1], bs[2]);
      assert bs == [bs[0], bs[1], bs[2]];
    } else {
      DecodeEncode(bs[3..]);
      EncodeCons(bs);
      EncodeLength(bs[3..]);
      DecodeEncodeGroup(bs[0], bs[1], bs[2]);
      DecodeEncodeLong(bs, EncodeGroup(bs[0], bs[1], bs[2]), Encode(bs[3..]));
    }
  }

  /** Encoded text uses only the alphabet and the pad character. */
  lemma {:induction false} EncodeAlphabet(bs: seq<byte>)
    ensures forall i :: 0 <= i < |Encode(bs)| ==> Encode(bs)[i] == Pad || ValueOf(Encode(bs)[i]).Some?
    decreases |bs|
  {
    if |bs| == 0 {
    } else if |bs| == 1 {
      ValueOfCharOf(bs[0] / 4);
      ValueOfCharOf((bs[0] % 4) * 16);
    } else if |bs| == 2 {
      ValueOfCharOf(bs[0] / 4);
      ValueOfCharOf((bs[0] % 4) * 16 + bs[1] / 16);
      ValueOfCharOf((bs[1] % 16) * 4);
    } else {
      ValueOfCharOf(bs[0] / 4);
      ValueOfCharOf((bs[0] % 4) * 16 + bs[1] / 16);
      ValueOfCharOf((bs[1] % 16) * 4 + bs[2] / 64);
      ValueOfCharOf(bs[2] % 64);
      EncodeAlphabet(bs[3..]);
    }
  }
}
