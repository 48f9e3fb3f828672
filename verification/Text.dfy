/** The text rules shared by every entry point: identifiers, message bodies, and
    the strings that the mailbox builds from them. */
module Text {

  const NUL: char := '\U{0000}'

  /** The largest message that any configuration admits. */
  const MAX_MESSAGE_BYTES := 1024 * 1024

  /** Bytes that a character takes in UTF-8. */
  function Utf8Size(c: char): nat {
    if c as int < 0x80 then 1 else if c as int < 0x800 then 2 else if c as int < 0x10000 then 3 else 4
  }

  /** Length in bytes of a text. Texts are sequences of Unicode characters, so
      they are valid UTF-8 by construction. */
  function ByteLength(s: string): nat {
    if s == [] then 0 else Utf8Size(s[0]) + ByteLength(s[1..])
  }

  predicate IsSpace(c: char) {
    var n := c as int;
    9 <= n <= 13 || n == 0x20 || n == 0x85 || n == 0xA0 || n == 0x1680 || 0x2000 <= n <= 0x200A
    || n == 0x2028 || n == 0x2029 || n == 0x202F || n == 0x205F || n == 0x3000
  }

  predicate Blank(s: string) {
    forall i :: 0 <= i < |s| ==> IsSpace(s[i])
  }

  predicate IdentifierChar(c: char) {
    'a' <= c <= 'z' || 'A' <= c <= 'Z' || '0' <= c <= '9' || c in {'.', '_', ':', '-'}
  }

  predicate ValidIdentifier(s: string) {
    1 <= |s| <= 64 && forall i :: 0 <= i < |s| ==> IdentifierChar(s[i])
  }

  /** The form of the identifiers that the program generates: hexadecimal digits in groups. */
  predicate IsGenerated(s: string) {
    |s| == 36 && forall i :: 0 <= i < 36 ==> if i in {8, 13, 18, 23} then s[i] == '-' else '0' <= s[i] <= '9' || 'a' <= s[i] <= 'f'
  }

  /** Generated identifiers are valid. */
  lemma GeneratedIsValid(s: string)
    requires IsGenerated(s)
    ensures ValidIdentifier(s)
  {
    forall i | 0 <= i < |s| ensures IdentifierChar(s[i]) {
      assert if i in {8, 13, 18, 23} then s[i] == '-' else '0' <= s[i] <= '9' || 'a' <= s[i] <= 'f';
    }
  }

  predicate ValidText(s: string, maxBytes: nat) {
    0 < maxBytes && ByteLength(s) <= maxBytes && NUL !in s && !Blank(s)
  }

  /** The text whose digest binds a request to its destination, conversation and body. */
  function BindingText(destination: string, conversation: string, text: string): string {
    destination + [NUL] + conversation + [NUL] + text
  }

  /** A separator that does not occur in the left parts splits a text in one way only. */
  lemma SplitIsUnique(a: string, b: string, c: string, d: string)
    requires NUL !in a && NUL !in c
    requires a + [NUL] + b == c + [NUL] + d
    ensures a == c && b == d
  {
    var whole := a + [NUL] + b;
    assert whole == c + [NUL] + d;
    assert whole[|a|] == NUL && whole[|c|] == NUL;
    if |a| < |c| {
      assert false;
    } else if |c| < |a| {
      assert false;
    }
    assert |a| == |c|;
    assert a == whole[..|a|] && c == whole[..|a|];
    assert b == whole[|a| + 1..] && d == whole[|a| + 1..];
  }

  lemma IdentifierHasNoNul(s: string)
    requires ValidIdentifier(s)
    ensures NUL !in s
  {
    forall i | 0 <= i < |s| ensures s[i] != NUL {
      assert IdentifierChar(s[i]);
    }
  }

  /** Two requests with the same binding text propose the same transfer. */
  lemma BindingIsInjective(destination: string, conversation: string, text: string,
                           destination': string, conversation': string, text': string)
    requires ValidIdentifier(destination) && ValidIdentifier(conversation)
    requires ValidIdentifier(destination') && ValidIdentifier(conversation')
    requires BindingText(destination, conversation, text) == BindingText(destination', conversation', text')
    ensures destination == destination' && conversation == conversation' && text == text'
  {
    IdentifierHasNoNul(destination);
    IdentifierHasNoNul(conversation);
    IdentifierHasNoNul(destination');
    IdentifierHasNoNul(conversation');
    var rest, rest' := conversation + [NUL] + text, conversation' + [NUL] + text';
    assert BindingText(destination, conversation, text) == destination + [NUL] + rest;
    assert BindingText(destination', conversation', text') == destination' + [NUL] + rest';
    SplitIsUnique(destination, rest, destination', rest');
    SplitIsUnique(conversation, text, conversation', text');
  }
}
