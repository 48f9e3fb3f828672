/** The encoded form of a listing, and that the byte counts of paging are its lengths. */
module InboxEncoding {
  import opened Wrappers
  import opened Text
  import opened InboxPaging

  // ----- Strings -----

  const HEX := "0123456789abcdef"

  function Hex4(n: nat): (s: string)
    requires n < 0x10000
    ensures |s| == 4
  {
    var tens := n / 16;
    var hundreds := tens / 16;
    [HEX[hundreds / 16], HEX[hundreds % 16], HEX[tens % 16], HEX[n % 16]]
  }

  /** How one character stands in an encoded string: quotes, backslashes and controls are
      escaped, and so is what could end a script or a line of it. */
  function EscapeChar(c: char): string {
    if c == '\"' then "\\\""
    else if c == '\\' then "\\\\"
    else if c == '\U{0008}' then "\\b"
    else if c == '\U{000C}' then "\\f"
    else if c == '\n' then "\\n"
    else if c == '\r' then "\\r"
    else if c == '\t' then "\\t"
    else if c as int < 0x20 || c in {'<', '>', '&'} || c as int in {0x2028, 0x2029} then "\\u" + Hex4(c as int)
    else [c]
  }

  function Escape(s: string): string {
    if s == [] then [] else EscapeChar(s[0]) + Escape(s[1..])
  }

  function HexValue(c: char): Option<nat> {
    if '0' <= c <= '9' then Some(c as int - '0' as int)
    else if 'a' <= c <= 'f' then Some(c as int - 'a' as int + 10)
    else if 'A' <= c <= 'F' then Some(c as int - 'A' as int + 10)
    else None
  }

  /** The number that four hexadecimal digits stand for. */
  function Hex4Value(s: string): Option<nat>
    requires |s| == 4
  {
    var a, b, c, d := HexValue(s[0]), HexValue(s[1]), HexValue(s[2]), HexValue(s[3]);
    if a.None? || b.None? || c.None? || d.None? then None
    else Some(a.value * 4096 + b.value * 256 + c.value * 16 + d.value)
  }

  /** Reads one encoded character: the character and how many it took. */
  function ReadChar(s: string): Option<(char, nat)>
    requires s != []
  {
    if s[0] == '\"' || s[0] as int < 0x20 then None
    else if s[0] != '\\' then Some((s[0], 1))
    else if |s| < 2 then None
    else
      match s[1]
      case '\"' => Some(('\"', 2))
      case '\\' => Some(('\\', 2))
      case '/' => Some(('/', 2))
      case 'b' => Some(('\U{0008}', 2))
      case 'f' => Some(('\U{000C}', 2))
      case 'n' => Some(('\n', 2))
      case 'r' => Some(('\r', 2))
      case 't' => Some(('\t', 2))
      case 'u' =>
        if |s| < 6 then None
        else
          var n := Hex4Value(s[2..6]);
          if n.None? || 0xD800 <= n.value < 0xE000 || n.value >= 0x10000 then None else Some((n.value as char, 6))
      case _ => None
  }

  /** Reads an encoded string to its end. */
  function Unescape(s: string): Option<string>
    decreases |s|
  {
    if s == [] then Some([])
    else
      var first := ReadChar(s);
      if first.None? || first.value.1 > |s| || first.value.1 == 0 then None
      else
        var rest := Unescape(s[first.value.1..]);
        if rest.None? then None else Some([first.value.0] + rest.value)
  }

  lemma HexDigitReads(n: nat)
    requires n < 16
    ensures HexValue(HEX[n]) == Some(n)
  {
  }

  lemma Hex4Reads(n: nat)
    requires n < 0x10000
    ensures Hex4Value(Hex4(n)) == Some(n)
  {
    hide HexValue;
    var tens := n / 16;
    var hundreds := tens / 16;
    HexDigitReads(hundreds / 16);
    HexDigitReads(hundreds % 16);
    HexDigitReads(tens % 16);
    HexDigitReads(n % 16);
    assert n == 16 * tens + n % 16 && tens == 16 * hundreds + tens % 16 && hundreds == 16 * (hundreds / 16) + hundreds % 16;
  }

  /** Every character reads back from its encoding, whatever follows. */
  lemma CharReadsBack(c: char, rest: string)
    ensures EscapeChar(c) != [] && ReadChar(EscapeChar(c) + rest) == Some((c, |EscapeChar(c)|))
  {
    hide Hex4, Hex4Value;
    var s := EscapeChar(c) + rest;
    if |EscapeChar(c)| == 6 {
      Hex4Reads(c as int);
      assert s[2..6] == Hex4(c as int);
    }
  }

  /** Every text reads back from its encoding. */
  lemma {:induction false} TextReadsBack(s: string)
    ensures Unescape(Escape(s)) == Some(s)
  {
    hide EscapeChar, ReadChar;
    if s != [] {
      CharReadsBack(s[0], Escape(s[1..]));
      TextReadsBack(s[1..]);
      assert [s[0]] + s[1..] == s;
      assert Escape(s)[|EscapeChar(s[0])|..] == Escape(s[1..]);
    }
  }

  // ----- Lengths -----

  lemma {:induction false} BytesOfConcat(a: string, b: string)
    ensures ByteLength(a + b) == ByteLength(a) + ByteLength(b)
  {
    hide Utf8Size;
    if a == [] {
      assert a + b == b;
    } else {
      assert (a + b)[1..] == a[1..] + b;
      BytesOfConcat(a[1..], b);
    }
  }

  predicate Ascii(s: string) {
    forall i :: 0 <= i < |s| ==> s[i] as int < 0x80
  }

  lemma {:induction false} BytesOfAscii(s: string)
    requires Ascii(s)
    ensures ByteLength(s) == |s|
  {
    if s != [] {
      BytesOfAscii(s[1..]);
    }
  }

  lemma HexIsAscii(n: nat)
    requires n < 0x10000
    ensures Ascii(Hex4(n))
  {
  }

  lemma CharLength(c: char)
    ensures ByteLength(EscapeChar(c)) == EscapedSize(c)
  {
    hide ByteLength, Hex4;
    if |EscapeChar(c)| == 1 {
      OneByteLength(c);
    } else {
      if |EscapeChar(c)| == 6 {
        HexIsAscii(c as int);
      }
      BytesOfAscii(EscapeChar(c));
    }
  }

  lemma OneByteLength(c: char)
    ensures ByteLength([c]) == Utf8Size(c)
  {
    assert [c][1..] == [];
  }

  /** The counted length of a text is the length of its encoding in bytes. */
  lemma {:induction false} EscapedLengthIsExact(s: string)
    ensures EscapedLength(s) == ByteLength(Escape(s))
  {
    hide EscapeChar, EscapedSize, Utf8Size;
    if s != [] {
      CharLength(s[0]);
      EscapedLengthIsExact(s[1..]);
      BytesOfConcat(EscapeChar(s[0]), Escape(s[1..]));
    }
  }

  /** A number in decimal digits. */
  function Decimal(n: nat): string {
    if n < 10 then [HEX[n]] else Decimal(n / 10) + [HEX[n % 10]]
  }

  lemma {:induction false} DecimalLength(n: nat)
    ensures |Decimal(n)| == Digits(n) && Ascii(Decimal(n))
  {
    if n >= 10 {
      DecimalLength(n / 10);
    }
  }

  function ReadDecimal(s: string): nat {
    if s == [] then 0
    else
      var digit := HexValue(s[|s| - 1]);
      10 * ReadDecimal(s[..|s| - 1]) + if digit.Some? then digit.value else 0
  }

  lemma {:induction false} DecimalReadsBack(n: nat)
    ensures ReadDecimal(Decimal(n)) == n
  {
    HexDigitReads(n % 10);
    if n >= 10 {
      DecimalReadsBack(n / 10);
      assert Decimal(n)[..|Decimal(n)| - 1] == Decimal(n / 10);
    } else {
      assert Decimal(n)[..0] == [];
    }
  }

  // ----- Messages and pages -----

  function Concat(parts: seq<string>): string {
    if parts == [] then [] else parts[0] + Concat(parts[1..])
  }

  function Bytes(parts: seq<string>): nat {
    if parts == [] then 0 else ByteLength(parts[0]) + Bytes(parts[1..])
  }

  lemma {:induction false} BytesOfParts(parts: seq<string>)
    ensures ByteLength(Concat(parts)) == Bytes(parts)
  {
    hide ByteLength;
    if parts != [] {
      BytesOfParts(parts[1..]);
      BytesOfConcat(parts[0], Concat(parts[1..]));
    } else {
      NoBytes();
    }
  }

  lemma NoBytes()
    ensures ByteLength([]) == 0
  {
  }

  /** A message as the program encodes it. */
  function EncodeMessage(m: Message): string {
    Concat([
      "{\"message_id\":\"", Escape(m.messageID), "\",\"conversation_id\":\"", Escape(m.conversationID),
      "\",\"source\":\"", Escape(m.source), "\",\"destination\":\"", Escape(m.destination),
      "\",\"body\":\"", Escape(m.body), "\",\"body_sha256\":\"", Escape(m.bodyDigest),
      "\",\"received_at\":\"", Escape(m.receivedAt), "\",\"audit_sequence\":", Decimal(m.sequence), "}"])
  }

  lemma Literal(s: string)
    requires Ascii(s)
    ensures ByteLength(s) == |s|
  {
    BytesOfAscii(s);
  }

  lemma FirstLabels()
    ensures ByteLength("{\"message_id\":\"") == |"{\"message_id\":\""|
    ensures ByteLength("\",\"conversation_id\":\"") == |"\",\"conversation_id\":\""|
    ensures ByteLength("\",\"source\":\"") == |"\",\"source\":\""|
  {
    hide ByteLength;
    Literal("{\"message_id\":\"");
    Literal("\",\"conversation_id\":\"");
    Literal("\",\"source\":\"");
  }

  lemma MiddleLabels()
    ensures ByteLength("\",\"destination\":\"") == |"\",\"destination\":\""|
    ensures ByteLength("\",\"body\":\"") == |"\",\"body\":\""|
    ensures ByteLength("\",\"body_sha256\":\"") == |"\",\"body_sha256\":\""|
  {
    hide ByteLength;
    Literal("\",\"destination\":\"");
    Literal("\",\"body\":\"");
    Literal("\",\"body_sha256\":\"");
  }

  lemma LastLabels()
    ensures ByteLength("\",\"received_at\":\"") == |"\",\"received_at\":\""|
    ensures ByteLength("\",\"audit_sequence\":") == |"\",\"audit_sequence\":"|
    ensures ByteLength("}") == 1
  {
    hide ByteLength;
    Literal("\",\"received_at\":\"");
    Literal("\",\"audit_sequence\":");
    Literal("}");
  }

  lemma FirstBytes(part: string, rest: seq<string>)
    ensures Bytes([part] + rest) == ByteLength(part) + Bytes(rest)
  {
    hide ByteLength;
    assert ([part] + rest)[1..] == rest;
  }

  /** The counted length of a message is the length of its encoding in bytes. */
  lemma EncodedLengthIsExact(m: Message)
    ensures EncodedLength(m) == ByteLength(EncodeMessage(m))
  {
    hide ByteLength, Escape, EscapedLength, Decimal, Digits;
    var parts := [
      "{\"message_id\":\"", Escape(m.messageID), "\",\"conversation_id\":\"", Escape(m.conversationID),
      "\",\"source\":\"", Escape(m.source), "\",\"destination\":\"", Escape(m.destination),
      "\",\"body\":\"", Escape(m.body), "\",\"body_sha256\":\"", Escape(m.bodyDigest),
      "\",\"received_at\":\"", Escape(m.receivedAt), "\",\"audit_sequence\":", Decimal(m.sequence), "}"];
    BytesOfParts(parts);
    FirstLabels();
    MiddleLabels();
    LastLabels();
    EscapedLengthIsExact(m.messageID);
    EscapedLengthIsExact(m.conversationID);
    EscapedLengthIsExact(m.source);
    EscapedLengthIsExact(m.destination);
    EscapedLengthIsExact(m.body);
    EscapedLengthIsExact(m.bodyDigest);
    EscapedLengthIsExact(m.receivedAt);
    DecimalLength(m.sequence);
    BytesOfAscii(Decimal(m.sequence));
    SeventeenParts(parts);
  }

  lemma SeventeenParts(p: seq<string>)
    requires |p| == 17
    ensures Bytes(p) == ByteLength(p[0]) + ByteLength(p[1]) + ByteLength(p[2]) + ByteLength(p[3]) + ByteLength(p[4]) + ByteLength(p[5])
                        + ByteLength(p[6]) + ByteLength(p[7]) + ByteLength(p[8]) + ByteLength(p[9]) + ByteLength(p[10])
                        + ByteLength(p[11]) + ByteLength(p[12]) + ByteLength(p[13]) + ByteLength(p[14]) + ByteLength(p[15])
                        + ByteLength(p[16])
  {
    hide ByteLength;
    SixParts(p[..6], p[6..]);
    SixParts(p[6..][..6], p[6..][6..]);
    FiveParts(p[12..]);
    assert p == p[..6] + p[6..] && p[6..] == p[6..][..6] + p[6..][6..] && p[6..][6..] == p[12..];
  }

  lemma SixParts(p: seq<string>, rest: seq<string>)
    requires |p| == 6
    ensures Bytes(p + rest) == ByteLength(p[0]) + ByteLength(p[1]) + ByteLength(p[2]) + ByteLength(p[3]) + ByteLength(p[4])
                               + ByteLength(p[5]) + Bytes(rest)
  {
    hide ByteLength, Bytes;
    FirstBytes(p[5], rest);
    FirstBytes(p[4], [p[5]] + rest);
    FirstBytes(p[3], [p[4]] + ([p[5]] + rest));
    FirstBytes(p[2], [p[3]] + ([p[4]] + ([p[5]] + rest)));
    FirstBytes(p[1], [p[2]] + ([p[3]] + ([p[4]] + ([p[5]] + rest))));
    FirstBytes(p[0], [p[1]] + ([p[2]] + ([p[3]] + ([p[4]] + ([p[5]] + rest)))));
    assert p + rest == [p[0]] + ([p[1]] + ([p[2]] + ([p[3]] + ([p[4]] + ([p[5]] + rest)))));
  }

  lemma FiveParts(p: seq<string>)
    requires |p| == 5
    ensures Bytes(p) == ByteLength(p[0]) + ByteLength(p[1]) + ByteLength(p[2]) + ByteLength(p[3]) + ByteLength(p[4])
  {
    hide ByteLength;
    SixParts([""] + p, []);
    FirstBytes("", p);
    NoBytes();
    assert [""] + p + [] == [""] + p;
  }

  function Join(messages: seq<Message>): string {
    if messages == [] then []
    else
      Join(messages[..|messages| - 1]) + ((if |messages| > 1 then "," else "") + EncodeMessage(messages[|messages| - 1]))
  }

  lemma {:induction false} ListLengthIsExact(messages: seq<Message>)
    ensures ListLength(messages) == ByteLength(Join(messages))
  {
    hide ByteLength, EncodedLength, EncodeMessage;
    NoBytes();
    Literal(",");
    if messages != [] {
      var n := |messages| - 1;
      ListLengthIsExact(messages[..n]);
      EncodedLengthIsExact(messages[n]);
      var separator := if |messages| > 1 then "," else "";
      BytesOfConcat(separator, EncodeMessage(messages[n]));
      BytesOfConcat(Join(messages[..n]), separator + EncodeMessage(messages[n]));
    }
  }

  /** A page as the program encodes it, with the sequence and the head of its own entry. */
  function EncodePage(page: seq<Message>, sequence: nat, head: string): string {
    "{\"messages\":[" + (Join(page) + ("],\"audit_sequence\":" + (Decimal(sequence) + (",\"audit_head\":\"" + (head + "\"}")))))
  }

  /** The counted length of a page is the length of its encoding in bytes. */
  lemma OutputLengthIsExact(page: seq<Message>, sequence: nat, head: string)
    requires |head| == 64 && Ascii(head)
    ensures OutputLength(page, sequence) == ByteLength(EncodePage(page, sequence, head))
  {
    hide ByteLength, ListLength, Join, Decimal, Digits;
    Literal("{\"messages\":[");
    Literal("],\"audit_sequence\":");
    Literal(",\"audit_head\":\"");
    Literal("\"}");
    Literal(head);
    DecimalLength(sequence);
    BytesOfAscii(Decimal(sequence));
    ListLengthIsExact(page);
    var tail := head + "\"}";
    BytesOfConcat(head, "\"}");
    BytesOfConcat(",\"audit_head\":\"", tail);
    BytesOfConcat(Decimal(sequence), ",\"audit_head\":\"" + tail);
    BytesOfConcat("],\"audit_sequence\":", Decimal(sequence) + (",\"audit_head\":\"" + tail));
    BytesOfConcat(Join(page), "],\"audit_sequence\":" + (Decimal(sequence) + (",\"audit_head\":\"" + tail)));
    BytesOfConcat("{\"messages\":[", Join(page) + ("],\"audit_sequence\":" + (Decimal(sequence) + (",\"audit_head\":\"" + tail))));
  }

  /** No page that is read exceeds the output bound when it is encoded. */
  lemma EncodedPageFits(inbox: seq<Message>, after: nat, limit: int, page: seq<Message>, sequence: nat, head: string)
    requires IsPage(page, After(inbox, after), limit) && sequence <= MAX_SEQUENCE && |head| == 64 && Ascii(head)
    ensures ByteLength(EncodePage(page, sequence, head)) <= MAX_OUTPUT_BYTES
  {
    hide ByteLength, EncodePage, After, ListLength;
    OutputLengthIsExact(page, sequence, head);
    SequenceDigits(sequence);
  }
}
