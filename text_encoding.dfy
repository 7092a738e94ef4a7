/**
 * The two browser text conversions the message store relies on: `btoa`, which reads a
 * string as Latin-1 bytes and gives their base 64 text, and `TextEncoder.encode`, which
 * gives the UTF-8 bytes of a string (RFC 3629). Characters are Unicode scalar values.
 */
module TextEncoding {
  import opened Wrappers
  import Base64

  /** `String.fromCharCode(b)` for each byte: the string whose character codes are the bytes. */
  function Latin1String(bytes: seq<Base64.byte>): (s: string)
    ensures |s| == |bytes|
    ensures forall i :: 0 <= i < |s| ==> s[i] as int == bytes[i]
  {
    seq(|bytes|, i requires 0 <= i < |bytes| => bytes[i] as char)
  }

  predicate IsLatin1(s: string) {
    forall i :: 0 <= i < |s| ==> s[i] as int < 256
  }

  /**
   * `btoa(s)`: the base 64 text of the Latin-1 bytes of `s`, or None where the browser
   * throws because some character is above U+00FF.
   */
  function Btoa(s: string): (r: Option<string>)
    ensures r.Some? <==> IsLatin1(s)
  {
    if IsLatin1(s) then Some(Base64.Encode(seq(|s|, i requires 0 <= i < |s| => s[i] as int)))
    else None
  }

  /** `btoa` of a string of byte codes is the base 64 text of those bytes. */
  lemma BtoaOfLatin1(bytes: seq<Base64.byte>)
    ensures Btoa(Latin1String(bytes)) == Some(Base64.Encode(bytes))
  {
    var s := Latin1String(bytes);
    assert seq(|s|, i requires 0 <= i < |s| => s[i] as int) == bytes;
  }

  /** The UTF-8 bytes of one Unicode scalar value (RFC 3629 section 3). */
  function Utf8Char(c: char): (r: seq<Base64.byte>)
    ensures 1 <= |r| <= 4
    ensures (c as int < 128) <==> (|r| == 1)
    ensures c as int < 128 ==> r == [c as int]
  {
    var n := c as int;
    if n < 0x80 then [n]
    else if n < 0x800 then [0xC0 + n / 64, 0x80 + n % 64]
    else if n < 0x10000 then [0xE0 + n / 4096, 0x80 + (n / 64) % 64, 0x80 + n % 64]
    else [0xF0 + n / 262144, 0x80 + (n / 4096) % 64, 0x80 + (n / 64) % 64, 0x80 + n % 64]
  }

  /** `new TextEncoder().encode(s)` */
  function Utf8Encode(s: string): (r: seq<Base64.byte>)
    ensures |r| >= |s|
  {
    if s == [] then [] else Utf8Char(s[0]) + Utf8Encode(s[1..])
  }

  predicate IsAscii(s: string) {
    forall i :: 0 <= i < |s| ==> s[i] as int < 128
  }

  /** On ASCII text UTF-8 is the identity: one byte per character, equal to its code. */
  lemma {:induction false} Utf8OfAscii(s: string)
    requires IsAscii(s)
    ensures |Utf8Encode(s)| == |s|
    ensures forall i :: 0 <= i < |s| ==> Utf8Encode(s)[i] == s[i] as int
  {
    if s != [] {
      Utf8OfAscii(s[1..]);
      assert Utf8Encode(s) == [s[0] as int] + Utf8Encode(s[1..]);
    }
  }

  /** Reading bytes below 128 back as ASCII characters. */
  function AsciiDecode(bytes: seq<Base64.byte>): (s: string)
    requires forall i :: 0 <= i < |bytes| ==> bytes[i] < 128
    ensures |s| == |bytes|
    ensures forall i :: 0 <= i < |s| ==> s[i] as int == bytes[i]
  {
    seq(|bytes|, i requires 0 <= i < |bytes| => bytes[i] as char)
  }

  /** ASCII text survives UTF-8 encoding and reading back. */
  lemma AsciiRoundTrip(s: string)
    requires IsAscii(s)
    ensures var b := Utf8Encode(s);
      (forall i :: 0 <= i < |b| ==> b[i] < 128) && AsciiDecode(b) == s
  {
    Utf8OfAscii(s);
  }
}
