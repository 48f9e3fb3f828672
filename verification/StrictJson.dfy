/** The scan that refuses unpaired UTF-16 surrogate escapes in raw JSON text, against
    the string grammar of section 7 of RFC 8259. */
module StrictJson {
  import opened Wrappers

  type Byte = int

  const QUOTE: Byte := 34
  const BACKSLASH: Byte := 92
  const LETTER_U: Byte := 117

  // ----- The grammar -----

  /** One element of a string: a byte of a character, a two-byte escape, or four hex digits. */
  datatype Item = Plain(b: Byte) | Short(b: Byte) | Unicode(digits: seq<Byte>)

  /** A lexically valid text: strings, and anything without quotes or backslashes between them. */
  datatype Segment = Gap(bytes: seq<Byte>) | Text(items: seq<Item>)

  function HexDigit(b: Byte): (digit: Option<nat>)
    ensures digit.Some? ==> digit.value < 16
  {
    if 48 <= b <= 57 then Some(b - 48)
    else if 97 <= b <= 102 then Some(b - 97 + 10)
    else if 65 <= b <= 70 then Some(b - 65 + 10)
    else None
  }

  /** The small and the capital form of a hexadecimal digit. */
  function SmallDigit(n: nat): Byte
    requires n < 16
  {
    if n < 10 then 48 + n else 97 + (n - 10)
  }

  function CapitalDigit(n: nat): Byte
    requires n < 16
  {
    if n < 10 then 48 + n else 65 + (n - 10)
  }

  /** Exactly these bytes are digits, each with its value. */
  lemma DigitsAreExact(b: Byte, n: nat)
    requires n < 16
    ensures HexDigit(b) == Some(n) <==> b == SmallDigit(n) || b == CapitalDigit(n)
  {
  }

  predicate IsHex4(digits: seq<Byte>) {
    |digits| == 4 && forall i :: 0 <= i < 4 ==> HexDigit(digits[i]).Some?
  }

  function Value(digits: seq<Byte>): nat
    requires IsHex4(digits)
  {
    HexDigit(digits[0]).value * 4096 + HexDigit(digits[1]).value * 256 + HexDigit(digits[2]).value * 16 + HexDigit(digits[3]).value
  }

  predicate ItemOk(item: Item) {
    match item
    case Plain(b) => b != QUOTE && b != BACKSLASH
    case Short(b) => b in {QUOTE, BACKSLASH, 47, 98, 102, 110, 114, 116}
    case Unicode(digits) => IsHex4(digits)
  }

  predicate SegmentOk(segment: Segment) {
    match segment
    case Gap(bytes) => QUOTE !in bytes && BACKSLASH !in bytes
    case Text(items) => forall i :: 0 <= i < |items| ==> ItemOk(items[i])
  }

  function RenderItem(item: Item): seq<Byte> {
    match item
    case Plain(b) => [b]
    case Short(b) => [BACKSLASH, b]
    case Unicode(digits) => [BACKSLASH, LETTER_U] + digits
  }

  function RenderItems(items: seq<Item>): seq<Byte> {
    if items == [] then [] else RenderItem(items[0]) + RenderItems(items[1..])
  }

  function RenderSegment(segment: Segment): seq<Byte> {
    match segment
    case Gap(bytes) => bytes
    case Text(items) => [QUOTE] + RenderItems(items) + [QUOTE]
  }

  function Render(segments: seq<Segment>): seq<Byte> {
    if segments == [] then [] else RenderSegment(segments[0]) + Render(segments[1..])
  }

  predicate IsHigh(v: nat) { 0xD800 <= v <= 0xDBFF }

  predicate IsLow(v: nat) { 0xDC00 <= v <= 0xDFFF }

  /** The surrogates are what section 7 of RFC 8259 needs: two halves are a pair exactly
      if they encode a character outside the Basic Multilingual Plane. */
  lemma PairsAreSupplementary(high: nat, low: nat)
    ensures IsHigh(high) && IsLow(low)
        <==> exists code :: 0x10000 <= code <= 0x10FFFF && high == HighHalf(code) && low == LowHalf(code)
  {
    if IsHigh(high) && IsLow(low) {
      var code := 0x10000 + (high - 0xD800) * 0x400 + (low - 0xDC00);
      assert high == HighHalf(code) && low == LowHalf(code);
    }
  }

  /** The surrogates of UTF-16 for a character outside the Basic Multilingual Plane. */
  function HighHalf(code: nat): nat
    requires 0x10000 <= code
  {
    0xD800 + (code - 0x10000) / 0x400
  }

  function LowHalf(code: nat): nat
    requires 0x10000 <= code
  {
    0xDC00 + (code - 0x10000) % 0x400
  }

  /** The element is an escape for a surrogate of the given half. */
  predicate Escapes(item: Item, low: bool) {
    item.Unicode? && IsHex4(item.digits) && if low then IsLow(Value(item.digits)) else IsHigh(Value(item.digits))
  }

  /** Every high surrogate escape is immediately followed by a low one, and every low one
      immediately preceded by a high one. */
  predicate Paired(items: seq<Item>) {
    && (forall i :: 0 <= i < |items| && Escapes(items[i], false) ==> i + 1 < |items| && Escapes(items[i + 1], true))
    && (forall i :: 0 <= i < |items| && Escapes(items[i], true) ==> 0 < i && Escapes(items[i - 1], false))
  }

  predicate AllPaired(segments: seq<Segment>) {
    forall i :: 0 <= i < |segments| && segments[i].Text? ==> Paired(segments[i].items)
  }

  /** A complete escape as the grammar has it: a short one, the code of a character that
      is no surrogate, or the codes of a high surrogate and a low one. */
  predicate IsEscape(bytes: seq<Byte>) {
    || (|bytes| == 2 && bytes[0] == BACKSLASH && bytes[1] != LETTER_U)
    || (|bytes| == 6 && var item := Unicode(bytes[2..]);
        bytes == RenderItem(item) && ItemOk(item) && !Escapes(item, false) && !Escapes(item, true))
    || (|bytes| == 12 && var high, low := Unicode(bytes[2..6]), Unicode(bytes[8..]);
        bytes == RenderItem(high) + RenderItem(low) && Escapes(high, false) && Escapes(low, true))
  }

  // ----- The scan -----

  datatype TextError = InvalidUTF8 | InvalidSurrogate

  /** What the first digits are worth. */
  function Worth(digits: seq<Byte>): (value: nat)
    requires |digits| <= 4 && forall i :: 0 <= i < |digits| ==> HexDigit(digits[i]).Some?
    ensures |digits| == 0 ==> value == 0
    ensures |digits| == 1 ==> value < 0x10
    ensures |digits| == 2 ==> value < 0x100
    ensures |digits| == 3 ==> value < 0x1000
    ensures |digits| == 4 ==> value < 0x10000
  {
    if digits == [] then 0 else Worth(digits[..|digits| - 1]) * 16 + HexDigit(digits[|digits| - 1]).value
  }

  lemma WorthOfFour(digits: seq<Byte>)
    requires IsHex4(digits)
    ensures Worth(digits) == Value(digits)
  {
    hide HexDigit;
    assert digits[..3][..2] == digits[..2] && digits[..2][..1] == digits[..1] && digits[..1][..0] == [];
    assert Worth(digits[..1]) == HexDigit(digits[0]).value;
    assert Worth(digits[..2]) == Worth(digits[..1]) * 16 + HexDigit(digits[1]).value;
    assert Worth(digits[..3]) == Worth(digits[..2]) * 16 + HexDigit(digits[2]).value;
  }

  /** The four digits of a Unicode escape, with the width of the machine's type. */
  method DecodeUnicodeEscape(data: seq<Byte>, slash: nat) returns (r: Option<(nat, nat)>)
    ensures r == DecodedEscape(data, slash)
    ensures r.Some? ==> r.value.0 < 0x10000 && slash < r.value.1 <= |data|
  {
    hide HexDigit, Value, Worth;
    if slash + 6 > |data| || data[slash] != BACKSLASH || data[slash + 1] != LETTER_U { return None; }
    var digits := data[slash + 2..slash + 6];
    var value: nat := 0;
    for i := 0 to 4
      invariant forall j :: 0 <= j < i ==> HexDigit(digits[j]).Some?
      invariant value == Worth(digits[..i])
    {
      var digit := HexDigit(digits[i]);
      if digit.None? { return None; }
      OneMoreDigit(digits, i);
      value := (value * 16) % 0x10000 + digit.value;
    }
    assert digits[..4] == digits;
    WorthOfFour(digits);
    return Some((value, slash + 6));
  }

  lemma OneMoreDigit(digits: seq<Byte>, i: nat)
    requires i < 4 == |digits| && forall j :: 0 <= j <= i ==> HexDigit(digits[j]).Some?
    ensures Worth(digits[..i]) * 16 < 0x10000
    ensures Worth(digits[..i + 1]) == (Worth(digits[..i]) * 16) % 0x10000 + HexDigit(digits[i]).value
  {
    hide HexDigit;
    assert digits[..i + 1][..i] == digits[..i];
  }

  function DecodedEscape(data: seq<Byte>, slash: nat): Option<(nat, nat)> {
    if slash + 6 <= |data| && data[slash] == BACKSLASH && data[slash + 1] == LETTER_U && IsHex4(data[slash + 2..slash + 6]) then
      Some((Value(data[slash + 2..slash + 6]), slash + 6))
    else
      None
  }

  /** Finds the one end at which the bytes from `slash` on are a complete escape. */
  method ConsumeStringEscape(data: seq<Byte>, slash: nat) returns (r: Option<nat>)
    requires slash < |data| && data[slash] == BACKSLASH
    ensures r == EscapeEnd(data, slash)
    ensures forall end :: slash < end <= |data| ==> (r == Some(end) <==> IsEscape(data[slash..end]))
  {
    hide HexDigit, IsHex4, Value, IsEscape;
    forall end | slash < end <= |data| ensures EscapeEnd(data, slash) == Some(end) <==> IsEscape(data[slash..end]) {
      EndsWhereComplete(data, slash, end);
    }
    if slash + 1 >= |data| { return None; }
    if data[slash + 1] != LETTER_U { return Some(slash + 2); }
    var first := DecodeUnicodeEscape(data, slash);
    if first.None? { return None; }
    var (value, next) := first.value;
    if 0xDC00 <= value <= 0xDFFF { return None; }
    if value < 0xD800 || value > 0xDBFF { return Some(next); }
    var second := DecodeUnicodeEscape(data, next);
    if second.None? || second.value.0 < 0xDC00 || second.value.0 > 0xDFFF { return None; }
    return Some(second.value.1);
  }

  function EscapeEnd(data: seq<Byte>, slash: nat): (r: Option<nat>)
    ensures r.Some? ==> slash < r.value <= |data|
  {
    if slash + 1 >= |data| then None
    else if data[slash + 1] != LETTER_U then Some(slash + 2)
    else
      var first := DecodedEscape(data, slash);
      if first.None? || IsLow(first.value.0) then None
      else if !IsHigh(first.value.0) then Some(slash + 6)
      else
        var second := DecodedEscape(data, slash + 6);
        if second.None? || !IsLow(second.value.0) then None else Some(slash + 12)
  }

  lemma RendersCode(bytes: seq<Byte>)
    requires |bytes| == 6
    ensures bytes == RenderItem(Unicode(bytes[2..])) <==> bytes[0] == BACKSLASH && bytes[1] == LETTER_U
  {
    assert bytes == [bytes[0], bytes[1]] + bytes[2..];
  }

  lemma RendersPair(bytes: seq<Byte>)
    requires |bytes| == 12
    ensures bytes == RenderItem(Unicode(bytes[2..6])) + RenderItem(Unicode(bytes[8..]))
        <==> bytes[0] == BACKSLASH && bytes[1] == LETTER_U && bytes[6] == BACKSLASH && bytes[7] == LETTER_U
  {
    var a, b := bytes[..6], bytes[6..];
    assert a[2..] == bytes[2..6] && b[2..] == bytes[8..] && bytes == a + b;
    RendersCode(a);
    RendersCode(b);
    var x, y := RenderItem(Unicode(bytes[2..6])), RenderItem(Unicode(bytes[8..]));
    assert (x + y)[..6] == x && (x + y)[6..] == y;
  }

  lemma EndsWhereComplete(data: seq<Byte>, slash: nat, end: nat)
    requires slash < end <= |data| && data[slash] == BACKSLASH
    ensures EscapeEnd(data, slash) == Some(end) <==> IsEscape(data[slash..end])
  {
    hide IsHex4, HexDigit, Value, RenderItem;
    var bytes := data[slash..end];
    if end == slash + 6 {
      assert bytes[2..] == data[slash + 2..slash + 6];
      RendersCode(bytes);
    } else if end == slash + 12 {
      assert bytes[2..6] == data[slash + 2..slash + 6] && bytes[8..] == data[slash + 8..slash + 12];
      RendersPair(bytes);
    }
  }

  /** Whether the scan succeeds from position `i` on. */
  predicate Passes(data: seq<Byte>, i: nat, inString: bool)
    requires i <= |data|
    decreases |data| - i
  {
    if i == |data| then true
    else if data[i] == QUOTE then Passes(data, i + 1, !inString)
    else if data[i] == BACKSLASH && inString then
      EscapeEnd(data, i).Some? && Passes(data, EscapeEnd(data, i).value, inString)
    else Passes(data, i + 1, inString)
  }

  /** On every lexically valid text, the scan accepts exactly the properly paired ones. */
  method ValidateText(data: seq<Byte>, validUTF8: bool) returns (r: Option<TextError>)
    ensures !validUTF8 ==> r == Some(InvalidUTF8)
    ensures validUTF8 ==> r == if Passes(data, 0, false) then None else Some(InvalidSurrogate)
    ensures forall segments :: validUTF8 && IsText(segments) && Render(segments) == data ==> (r.None? <==> AllPaired(segments))
  {
    forall segments | IsText(segments) && Render(segments) == data ensures Passes(data, 0, false) <==> AllPaired(segments) {
      AcceptsPaired(segments);
    }
    if !validUTF8 { return Some(InvalidUTF8); }
    var inString, i := false, 0;
    while i < |data|
      invariant i <= |data| && Passes(data, 0, false) == Passes(data, i, inString)
    {
      if data[i] == QUOTE {
        inString, i := !inString, i + 1;
      } else if data[i] == BACKSLASH {
        if !inString {
          i := i + 1;
          continue;
        }
        var next := ConsumeStringEscape(data, i);
        if next.None? { return Some(InvalidSurrogate); }
        i := next.value;
      } else {
        i := i + 1;
      }
    }
    return None;
  }

  ghost predicate IsText(segments: seq<Segment>) {
    forall i :: 0 <= i < |segments| ==> SegmentOk(segments[i])
  }

  // ----- The scan follows the grammar -----

  /** The scan from `i` depends only on what comes there. */
  lemma {:induction false} PassesShift(data: seq<Byte>, i: nat, inString: bool)
    requires i <= |data|
    ensures Passes(data, i, inString) == Passes(data[i..], 0, inString)
    decreases |data| - i
  {
    PassesAt(data, i, 0, inString);
  }

  lemma {:induction false} PassesAt(data: seq<Byte>, i: nat, j: nat, inString: bool)
    requires i + j <= |data|
    ensures Passes(data, i + j, inString) == Passes(data[i..], j, inString)
    decreases |data| - i - j
  {
    if i + j < |data| {
      if data[i + j] == BACKSLASH && inString {
        EscapeAt(data, i, j);
        if EscapeEnd(data, i + j).Some? {
          PassesAt(data, i, EscapeEnd(data, i + j).value - i, inString);
        }
      } else {
        PassesAt(data, i, j + 1, if data[i + j] == QUOTE then !inString else inString);
      }
    }
  }

  lemma EscapeAt(data: seq<Byte>, i: nat, j: nat)
    requires i + j < |data|
    ensures EscapeEnd(data[i..], j) == if EscapeEnd(data, i + j).None? then None else Some(EscapeEnd(data, i + j).value - i)
  {
    assert i + j + 6 <= |data| ==> data[i..][j + 2..j + 6] == data[i + j + 2..i + j + 6];
    assert i + j + 12 <= |data| ==> data[i..][j + 8..j + 12] == data[i + j + 8..i + j + 12];
  }

  lemma {:induction false} GapPasses(bytes: seq<Byte>, rest: seq<Byte>)
    requires QUOTE !in bytes && BACKSLASH !in bytes
    ensures Passes(bytes + rest, 0, false) == Passes(rest, 0, false)
  {
    if bytes == [] {
      assert bytes + rest == rest;
    } else {
      assert (bytes + rest)[0] == bytes[0] && bytes[0] in bytes;
      assert (bytes + rest)[1..] == bytes[1..] + rest;
      PassesShift(bytes + rest, 1, false);
      GapPasses(bytes[1..], rest);
    }
  }

  /** What the scan requires of the elements of a string, from left to right. */
  predicate PairsUp(items: seq<Item>) {
    items == []
    || (if Escapes(items[0], true) then false
        else if Escapes(items[0], false) then |items| > 1 && Escapes(items[1], true) && PairsUp(items[2..])
        else PairsUp(items[1..]))
  }

  lemma {:induction false} PairsUpIsPaired(items: seq<Item>)
    ensures PairsUp(items) <==> Paired(items)
  {
    if items == [] {
    } else if Escapes(items[0], true) {
    } else if Escapes(items[0], false) {
      if |items| > 1 && Escapes(items[1], true) {
        PairsUpIsPaired(items[2..]);
        PairedTail(items, 2);
      }
    } else {
      PairsUpIsPaired(items[1..]);
      PairedTail(items, 1);
    }
  }

  /** A complete first element, or pair of elements, does not matter for the rest. */
  lemma PairedTail(items: seq<Item>, n: nat)
    requires n <= |items| && n in {1, 2}
    requires n == 1 ==> !Escapes(items[0], true) && !Escapes(items[0], false)
    requires n == 2 ==> Escapes(items[0], false) && Escapes(items[1], true)
    ensures Paired(items) <==> Paired(items[n..])
  {
    var tail := items[n..];
    assert forall i :: 0 <= i < |tail| ==> tail[i] == items[i + n];
    assert !Escapes(items[n - 1], false) by {
      if n == 2 { assert IsLow(Value(items[1].digits)); }
    }
    if Paired(items) {
      forall i | 0 <= i < |tail| && Escapes(tail[i], false) ensures i + 1 < |tail| && Escapes(tail[i + 1], true) {
        assert Escapes(items[i + n], false);
      }
      forall i | 0 <= i < |tail| && Escapes(tail[i], true) ensures 0 < i && Escapes(tail[i - 1], false) {
        assert Escapes(items[i + n], true);
        assert Escapes(items[i + n - 1], false);
      }
    }
    if Paired(tail) {
      forall i | 0 <= i < |items| && Escapes(items[i], false) ensures i + 1 < |items| && Escapes(items[i + 1], true) {
        if i >= n {
          assert Escapes(tail[i - n], false);
          assert Escapes(tail[i - n + 1], true);
        }
      }
      forall i | 0 <= i < |items| && Escapes(items[i], true) ensures 0 < i && Escapes(items[i - 1], false) {
        if i >= n {
          assert Escapes(tail[i - n], true);
          assert Escapes(tail[i - n - 1], false);
        }
      }
    }
  }

  /** One element that is no surrogate is passed over. */
  lemma ItemPasses(item: Item, rest: seq<Byte>)
    requires ItemOk(item) && !Escapes(item, true) && !Escapes(item, false)
    ensures Passes(RenderItem(item) + rest, 0, true) == Passes(rest, 0, true)
  {
    var data := RenderItem(item) + rest;
    assert data[|RenderItem(item)|..] == rest;
    PassesShift(data, |RenderItem(item)|, true);
    if item.Unicode? {
      assert data[2..6] == item.digits;
    }
  }

  lemma PairPasses(high: Item, low: Item, rest: seq<Byte>)
    requires Escapes(high, false) && Escapes(low, true)
    ensures Passes(RenderItem(high) + (RenderItem(low) + rest), 0, true) == Passes(rest, 0, true)
  {
    var data := RenderItem(high) + (RenderItem(low) + rest);
    assert data[12..] == rest;
    PassesShift(data, 12, true);
    assert data[2..6] == high.digits && data[8..12] == low.digits;
  }

  /** A low surrogate is refused, and so is a high one that anything else follows. */
  lemma BrokenPairFails(item: Item, rest: seq<Byte>)
    requires Escapes(item, true) || (Escapes(item, false) && (DecodedEscape(rest, 0).None? || !IsLow(DecodedEscape(rest, 0).value.0)))
    ensures !Passes(RenderItem(item) + rest, 0, true)
  {
    var data := RenderItem(item) + rest;
    assert data[2..6] == item.digits;
    assert |rest| >= 6 ==> data[8..12] == rest[2..6];
  }

  lemma ElementStart(item: Item, rest: seq<Byte>)
    requires ItemOk(item) && !Escapes(item, true)
    ensures var decoded := DecodedEscape(RenderItem(item) + rest, 0);
            decoded.None? || !IsLow(decoded.value.0)
  {
    hide HexDigit, Value;
    if item.Unicode? {
      assert (RenderItem(item) + rest)[2..6] == item.digits;
    }
  }

  /** What follows a high surrogate in a rendered string starts a low one only if the
      next element is one. */
  lemma NextElement(items: seq<Item>, rest: seq<Byte>)
    requires forall i :: 0 <= i < |items| ==> ItemOk(items[i])
    requires items == [] || !Escapes(items[0], true)
    ensures var decoded := DecodedEscape(RenderItems(items) + ([QUOTE] + rest), 0);
            decoded.None? || !IsLow(decoded.value.0)
  {
    hide DecodedEscape, HexDigit, Value;
    if items == [] {
      NoEscape(rest);
      assert RenderItems(items) + ([QUOTE] + rest) == [QUOTE] + rest;
    } else {
      var after := RenderItems(items[1..]) + ([QUOTE] + rest);
      assert RenderItems(items) + ([QUOTE] + rest) == RenderItem(items[0]) + after;
      ElementStart(items[0], after);
    }
  }

  lemma NoEscape(rest: seq<Byte>)
    ensures DecodedEscape([QUOTE] + rest, 0).None?
  {
  }

  lemma {:induction false} ItemsPass(items: seq<Item>, rest: seq<Byte>)
    requires forall i :: 0 <= i < |items| ==> ItemOk(items[i])
    ensures Passes(RenderItems(items) + ([QUOTE] + rest), 0, true) <==> PairsUp(items) && Passes(rest, 0, false)
  {
    hide Passes, RenderItem, DecodedEscape, HexDigit, Value, ItemOk, Escapes;
    var data := RenderItems(items) + ([QUOTE] + rest);
    if items == [] {
      assert data == [QUOTE] + rest;
      QuotePasses(rest, true);
    } else {
      var after := RenderItems(items[1..]) + ([QUOTE] + rest);
      assert data == RenderItem(items[0]) + after;
      if Escapes(items[0], true) {
        BrokenPairFails(items[0], after);
      } else if !Escapes(items[0], false) {
        ItemPasses(items[0], after);
        ItemsPass(items[1..], rest);
      } else if |items| > 1 && Escapes(items[1], true) {
        var last := RenderItems(items[2..]) + ([QUOTE] + rest);
        assert items[1..][1..] == items[2..];
        assert after == RenderItem(items[1]) + last;
        PairPasses(items[0], items[1], last);
        ItemsPass(items[2..], rest);
      } else {
        NextElement(items[1..], rest);
        BrokenPairFails(items[0], after);
      }
    }
  }

  lemma QuotePasses(rest: seq<Byte>, inString: bool)
    ensures Passes([QUOTE] + rest, 0, inString) == Passes(rest, 0, !inString)
  {
    assert ([QUOTE] + rest)[1..] == rest;
    PassesShift([QUOTE] + rest, 1, !inString);
  }

  lemma StringPasses(items: seq<Item>, rest: seq<Byte>)
    requires forall i :: 0 <= i < |items| ==> ItemOk(items[i])
    ensures Passes(RenderSegment(Text(items)) + rest, 0, false) <==> Paired(items) && Passes(rest, 0, false)
  {
    hide Passes, PairsUp, Paired, ItemOk, RenderItems;
    assert RenderSegment(Text(items)) + rest == [QUOTE] + (RenderItems(items) + ([QUOTE] + rest));
    QuotePasses(RenderItems(items) + ([QUOTE] + rest), false);
    ItemsPass(items, rest);
    PairsUpIsPaired(items);
  }

  /** The scan's notion of being inside a string is the grammar's, and it accepts a text
      exactly when all surrogate escapes are paired. */
  lemma {:induction false} AcceptsPaired(segments: seq<Segment>)
    requires IsText(segments)
    ensures Passes(Render(segments), 0, false) <==> AllPaired(segments)
  {
    hide Passes, Paired, AllPaired, ItemOk, RenderSegment;
    FirstPaired(segments);
    if segments == [] {
      EmptyPasses();
    } else {
      var rest := Render(segments[1..]);
      assert SegmentOk(segments[0]);
      AcceptsPaired(segments[1..]);
      SegmentPasses(segments[0], rest);
    }
  }

  lemma SegmentPasses(segment: Segment, rest: seq<Byte>)
    requires SegmentOk(segment)
    ensures Passes(RenderSegment(segment) + rest, 0, false)
        <==> (segment.Text? ==> Paired(segment.items)) && Passes(rest, 0, false)
  {
    hide Passes, Paired;
    match segment
    case Gap(bytes) => GapPasses(bytes, rest);
    case Text(items) => StringPasses(items, rest);
  }

  lemma EmptyPasses()
    ensures Passes([], 0, false)
  {
  }

  lemma FirstPaired(segments: seq<Segment>)
    ensures segments == [] ==> AllPaired(segments)
    ensures segments != [] ==>
              (AllPaired(segments) <==> (segments[0].Text? ==> Paired(segments[0].items)) && AllPaired(segments[1..]))
  {
    hide Paired;
    assert forall i :: 0 < i < |segments| ==> segments[i] == segments[1..][i - 1];
  }
}
