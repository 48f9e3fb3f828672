/** The bytes of a text, as section 3 of RFC 3629 has them. */
module Utf8 {
  import opened Wrappers
  import opened Text

  /** The bytes of one character. */
  function Encode(c: char): (bytes: seq<int>)
    ensures |bytes| == Utf8Size(c)
  {
    var n := c as int;
    if n < 0x80 then [n]
    else
      var a := n / 64;
      if n < 0x800 then [0xC0 + a, 0x80 + n % 64]
      else
        var b := a / 64;
        if n < 0x10000 then [0xE0 + b, 0x80 + a % 64, 0x80 + n % 64]
        else [0xF0 + b / 64, 0x80 + b % 64, 0x80 + a % 64, 0x80 + n % 64]
  }

  function EncodeText(s: string): seq<int> {
    if s == [] then [] else Encode(s[0]) + EncodeText(s[1..])
  }

  /** The number that the first bytes stand for, and how many they are. */
  function ReadFirst(bytes: seq<int>): Option<(int, nat)> {
    if bytes == [] then None
    else if bytes[0] < 0x80 then Some((bytes[0], 1))
    else if 0xC0 <= bytes[0] < 0xE0 && |bytes| >= 2 then Some(((bytes[0] - 0xC0) * 64 + (bytes[1] - 0x80), 2))
    else if 0xE0 <= bytes[0] < 0xF0 && |bytes| >= 3 then
      Some((((bytes[0] - 0xE0) * 64 + (bytes[1] - 0x80)) * 64 + (bytes[2] - 0x80), 3))
    else if 0xF0 <= bytes[0] < 0xF8 && |bytes| >= 4 then
      Some(((((bytes[0] - 0xF0) * 64 + (bytes[1] - 0x80)) * 64 + (bytes[2] - 0x80)) * 64 + (bytes[3] - 0x80), 4))
    else None
  }

  /** Every character reads back from its bytes, whatever follows. */
  lemma CharReadsBack(c: char, rest: seq<int>)
    ensures ReadFirst(Encode(c) + rest) == Some((c as int, Utf8Size(c)))
  {
    var n := c as int;
    var a := n / 64;
    var b := a / 64;
    assert n == 64 * a + n % 64 && a == 64 * b + a % 64 && b == 64 * (b / 64) + b % 64;
  }

  /** The length that the program checks is the number of bytes of the text. */
  lemma {:induction false} ByteLengthIsExact(s: string)
    ensures |EncodeText(s)| == ByteLength(s)
  {
    hide Encode;
    if s != [] {
      ByteLengthIsExact(s[1..]);
    }
  }

  /** Different texts have different bytes. */
  lemma {:induction false} EncodingIsInjective(s: string, t: string)
    requires EncodeText(s) == EncodeText(t)
    ensures s == t
  {
    hide Encode, ReadFirst, Utf8Size;
    if s != [] {
      CharReadsBack(s[0], EncodeText(s[1..]));
      FirstByte(s[0]);
    }
    if t != [] {
      CharReadsBack(t[0], EncodeText(t[1..]));
      FirstByte(t[0]);
    }
    if s != [] && t != [] {
      var n := Utf8Size(s[0]);
      assert EncodeText(s)[n..] == EncodeText(s[1..]) && EncodeText(t)[n..] == EncodeText(t[1..]);
      EncodingIsInjective(s[1..], t[1..]);
      assert s == [s[0]] + s[1..] && t == [t[0]] + t[1..];
    }
  }

  lemma FirstByte(c: char)
    ensures |Encode(c)| > 0
  {
  }
}
