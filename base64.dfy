/**
 * The base 64 encoding of section 4 of RFC 4648 (alphabet of table 1, `=` padding),
 * which the browser's `btoa` produces, with a decoder that undoes it.
 */
module Base64 {
  import opened Wrappers

  type byte = x: int | 0 <= x < 256
  type sextet = x: int | 0 <= x < 64

  /** Table 1 of RFC 4648: the character that encodes a 6-bit value. */
  function SextetChar(v: sextet): (c: char)
    ensures IsBase64Char(c)
  {
    if v < 26 then (('A' as int) + v) as char
    else if v < 52 then (('a' as int) + (v - 26)) as char
    else if v < 62 then (('0' as int) + (v - 52)) as char
    else if v == 62 then '+'
    else '/'
  }

  predicate IsBase64Char(c: char) {
    ('A' <= c <= 'Z') || ('a' <= c <= 'z') || ('0' <= c <= '9') || c == '+' || c == '/'
  }

  /** The 6-bit value a character of the alphabet stands for. */
  function CharSextet(c: char): (v: sextet)
    requires IsBase64Char(c)
  {
    if 'A' <= c <= 'Z' then c as int - 'A' as int
    else if 'a' <= c <= 'z' then c as int - 'a' as int + 26
    else if '0' <= c <= '9' then c as int - '0' as int + 52
    else if c == '+' then 62
    else 63
  }

  lemma SextetRoundTrip(v: sextet)
    ensures CharSextet(SextetChar(v)) == v
  {
  }

  lemma CharRoundTrip(c: char)
    requires IsBase64Char(c)
    ensures SextetChar(CharSextet(c)) == c
  {
  }

  /** Three bytes as four characters (RFC 4648 section 4: 24-bit groups). */
  function EncodeGroup(b0: byte, b1: byte, b2: byte): string {
    [SextetChar(b0 / 4), SextetChar((b0 % 4) * 16 + b1 / 16),
     SextetChar((b1 % 16) * 4 + b2 / 64), SextetChar(b2 % 64)]
  }

  /** One final byte: two characters and two pad characters. */
  function EncodeOne(b0: byte): string {
    [SextetChar(b0 / 4), SextetChar((b0 % 4) * 16), '=', '=']
  }

  /** Two final bytes: three characters and one pad character. */
  function EncodeTwo(b0: byte, b1: byte): string {
    [SextetChar(b0 / 4), SextetChar((b0 % 4) * 16 + b1 / 16), SextetChar((b1 % 16) * 4), '=']
  }

  /** The base 64 text of `bytes`: full groups, then one final group padded with `=`. */
  function Encode(bytes: seq<byte>): (s: string)
    decreases |bytes|
  {
    if |bytes| == 0 then ""
    else if |bytes| == 1 then EncodeOne(bytes[0])
    else if |bytes| == 2 then EncodeTwo(bytes[0], bytes[1])
    else EncodeGroup(bytes[0], bytes[1], bytes[2]) + Encode(bytes[3..])
  }

  /** Four characters for every three bytes, counting a final partial group as full. */
  lemma {:induction false} EncodeLength(bytes: seq<byte>)
    ensures |Encode(bytes)| == 4 * ((|bytes| + 2) / 3)
    decreases |bytes|
  {
    if |bytes| >= 3 {
      EncodeLength(bytes[3..]);
      assert |EncodeGroup(bytes[0], bytes[1], bytes[2])| == 4;
      assert (|bytes| + 2) / 3 == (|bytes[3..]| + 2) / 3 + 1;
    }
  }

  /** Four characters of the alphabet back to three bytes. */
  function DecodeGroup(c0: sextet, c1: sextet, c2: sextet, c3: sextet): seq<byte> {
    [c0 * 4 + c1 / 16, (c1 % 16) * 16 + c2 / 4, (c2 % 4) * 64 + c3]
  }

  /** Four characters that are all from the alphabet, with no padding. */
  predicate IsFullGroup(q: string)
    requires |q| == 4
  {
    IsBase64Char(q[0]) && IsBase64Char(q[1]) && IsBase64Char(q[2]) && IsBase64Char(q[3])
  }

  function DecodeFullGroup(q: string): seq<byte>
    requires |q| == 4 && IsFullGroup(q)
  {
    DecodeGroup(CharSextet(q[0]), CharSextet(q[1]), CharSextet(q[2]), CharSextet(q[3]))
  }

  /**
   * The last group of a text: full, or padded with `==` (one byte) or `=` (two bytes).
   * Padded groups whose unused bits are not zero are refused (RFC 4648 section 3.5).
   */
  function DecodeLastGroup(q: string): Option<seq<byte>>
    requires |q| == 4
  {
    if IsFullGroup(q) then Some(DecodeFullGroup(q))
    else if IsBase64Char(q[0]) && IsBase64Char(q[1]) && q[2] == '=' && q[3] == '=' then
      var c0, c1 := CharSextet(q[0]), CharSextet(q[1]);
      if c1 % 16 == 0 then Some([c0 * 4 + c1 / 16]) else None
    else if IsBase64Char(q[0]) && IsBase64Char(q[1]) && IsBase64Char(q[2]) && q[3] == '=' then
      var c0, c1, c2 := CharSextet(q[0]), CharSextet(q[1]), CharSextet(q[2]);
      if c2 % 4 == 0 then Some([c0 * 4 + c1 / 16, (c1 % 16) * 16 + c2 / 4]) else None
    else None
  }

  /** The bytes a base 64 text stands for, or None when it is not the encoding of any bytes. */
  function Decode(s: string): Option<seq<byte>>
    decreases |s|
  {
    if s == [] then Some([])
    else if |s| < 4 then None
    else if |s| == 4 then DecodeLastGroup(s)
    else if IsFullGroup(s[..4]) then
      match Decode(s[4..])
      case None => None
      case Some(rest) => Some(DecodeFullGroup(s[..4]) + rest)
    else None
  }

  lemma DivMod16(hi: nat, lo: nat)
    requires lo < 16
    ensures (hi * 16 + lo) / 16 == hi && (hi * 16 + lo) % 16 == lo
  {
  }

  lemma DivMod4(hi: nat, lo: nat)
    requires lo < 4
    ensures (hi * 4 + lo) / 4 == hi && (hi * 4 + lo) % 4 == lo
  {
  }

  /** The arithmetic of one group: splitting 24 bits into four sextets and joining them again. */
  lemma SplitJoin(b0: byte, b1: byte, b2: byte)
    ensures DecodeGroup(b0 / 4, (b0 % 4) * 16 + b1 / 16, (b1 % 16) * 4 + b2 / 64, b2 % 64) == [b0, b1, b2]
  {
    DivMod16(b0 % 4, b1 / 16);
    DivMod4(b1 % 16, b2 / 64);
  }

  lemma GroupRoundTrip(b0: byte, b1: byte, b2: byte)
    ensures var g := EncodeGroup(b0, b1, b2); IsFullGroup(g) && DecodeFullGroup(g) == [b0, b1, b2]
  {
    SextetRoundTrip(b0 / 4);
    SextetRoundTrip((b0 % 4) * 16 + b1 / 16);
    SextetRoundTrip((b1 % 16) * 4 + b2 / 64);
    SextetRoundTrip(b2 % 64);
    SplitJoin(b0, b1, b2);
  }

  lemma OneByteRoundTrip(b0: byte)
    ensures Decode(Encode([b0])) == Some([b0])
  {
    var c0, c1 := b0 / 4, (b0 % 4) * 16;
    SextetRoundTrip(c0);
    SextetRoundTrip(c1);
    DivMod16(b0 % 4, 0);
    var q := Encode([b0]);
    assert q == EncodeOne(b0);
    assert !IsFullGroup(q);
    assert DecodeLastGroup(q) == Some([c0 * 4 + c1 / 16]);
  }

  lemma TwoByteRoundTrip(b0: byte, b1: byte)
    ensures Decode(Encode([b0, b1])) == Some([b0, b1])
  {
    var c0, c1, c2 := b0 / 4, (b0 % 4) * 16 + b1 / 16, (b1 % 16) * 4;
    SextetRoundTrip(c0);
    SextetRoundTrip(c1);
    SextetRoundTrip(c2);
    DivMod16(b0 % 4, b1 / 16);
    DivMod4(b1 % 16, 0);
    var q := Encode([b0, b1]);
    assert q == EncodeTwo(b0, b1);
    assert !IsFullGroup(q);
    assert DecodeLastGroup(q) == Some([c0 * 4 + c1 / 16, (c1 % 16) * 16 + c2 / 4]);
  }

  /** The encoding of three or more bytes starts with the full group of the first three. */
  lemma EncodeSplits(bytes: seq<byte>)
    requires |bytes| >= 3
    ensures var s := Encode(bytes);
      s[..4] == EncodeGroup(bytes[0], bytes[1], bytes[2]) && s[4..] == Encode(bytes[3..])
  {
  }

  /** Exactly three bytes encode as one full group and nothing more. */
  lemma EncodeThree(bytes: seq<byte>)
    requires |bytes| == 3
    ensures Encode(bytes) == EncodeGroup(bytes[0], bytes[1], bytes[2])
  {
    assert Encode(bytes[3..]) == "";
  }

  /** A text of one full group decodes as that group. */
  lemma DecodeOneGroup(q: string)
    requires |q| == 4 && IsFullGroup(q)
    ensures Decode(q) == Some(DecodeFullGroup(q))
  {
  }

  lemma ThreeByteRoundTrip(bytes: seq<byte>)
    requires |bytes| == 3
    ensures Decode(Encode(bytes)) == Some(bytes)
  {
    EncodeThree(bytes);
    var g := EncodeGroup(bytes[0], bytes[1], bytes[2]);
    GroupRoundTrip(bytes[0], bytes[1], bytes[2]);
    DecodeOneGroup(g);
    assert bytes == [bytes[0], bytes[1], bytes[2]];
  }

  /** A text that starts with the full group of three bytes and continues with the encoding of the rest. */
  lemma DecodeGroupThenRest(bytes: seq<byte>, s: string)
    requires |bytes| > 3 && |s| > 4
    requires s[..4] == EncodeGroup(bytes[0], bytes[1], bytes[2])
    requires Decode(s[4..]) == Some(bytes[3..])
    ensures Decode(s) == Some(bytes)
  {
    GroupRoundTrip(bytes[0], bytes[1], bytes[2]);
    assert Decode(s) == Some(DecodeFullGroup(s[..4]) + bytes[3..]);
    assert bytes == [bytes[0], bytes[1], bytes[2]] + bytes[3..];
  }

  lemma GroupStep(bytes: seq<byte>)
    requires |bytes| >= 3
    requires Decode(Encode(bytes[3..])) == Some(bytes[3..])
    ensures Decode(Encode(bytes)) == Some(bytes)
  {
    if |bytes| == 3 {
      ThreeByteRoundTrip(bytes);
    } else {
      var s := Encode(bytes);
      EncodeSplits(bytes);
      assert |Encode(bytes[3..])| >= 4;
      DecodeGroupThenRest(bytes, s);
    }
  }

  /** Decoding the encoding of any bytes gives those bytes back. */
  lemma {:induction false} DecodeEncode(bytes: seq<byte>)
    ensures Decode(Encode(bytes)) == Some(bytes)
    decreases |bytes|
  {
    if |bytes| == 1 {
      OneByteRoundTrip(bytes[0]);
      assert bytes == [bytes[0]];
    } else if |bytes| == 2 {
      TwoByteRoundTrip(bytes[0], bytes[1]);
      assert bytes == [bytes[0], bytes[1]];
    } else if |bytes| >= 3 {
      DecodeEncode(bytes[3..]);
      GroupStep(bytes);
    }
  }

  /** Every character of an encoding is from the alphabet or the pad character `=`, so it is ASCII. */
  lemma {:induction false} EncodeIsAscii(bytes: seq<byte>)
    ensures forall i | 0 <= i < |Encode(bytes)| :: IsBase64Char(Encode(bytes)[i]) || Encode(bytes)[i] == '='
    ensures forall i | 0 <= i < |Encode(bytes)| :: Encode(bytes)[i] as int < 128
    decreases |bytes|
  {
    if |bytes| >= 3 {
      EncodeIsAscii(bytes[3..]);
    }
  }
}
