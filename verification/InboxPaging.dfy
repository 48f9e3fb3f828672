/** Reading the inbox in pages that are bounded in number and in encoded bytes. */
module InboxPaging {
  import opened Wrappers
  import opened Text

  /** A message as it is listed, with its digest and time as texts. */
  datatype Message = Message(
    messageID: string, conversationID: string, source: string, destination: string, body: string, bodyDigest: string,
    receivedAt: string, sequence: nat)

  const MAX_OUTPUT_BYTES := 6 * MAX_MESSAGE_BYTES + 64 * 1024
  const BASE_BYTES := |"{'messages':[],'audit_sequence':18446744073709551615,'audit_head':'ffffffffffffffffffffffffffffffffffffffffffffffffffffffffffffffff'}"|
  const MESSAGE_SKELETON := |"{'message_id':'','conversation_id':'','source':'','destination':'','body':'','body_sha256':'','received_at':'','audit_sequence':}"|
  const OUTPUT_SKELETON := |"{'messages':[],'audit_sequence':,'audit_head':''}"|

  // ----- Encoded sizes -----

  /** Bytes that a character takes in an encoded JSON string. */
  function EscapedSize(c: char): nat {
    if c in {'\"', '\\', '\n', '\r', '\t', '\U{0008}', '\U{000C}'} then 2
    else if c as int < 0x20 || c in {'<', '>', '&'} || c as int in {0x2028, 0x2029} then 6
    else Utf8Size(c)
  }

  function EscapedLength(s: string): nat {
    if s == [] then 0 else EscapedSize(s[0]) + EscapedLength(s[1..])
  }

  /** Escaping expands a text at most sixfold. */
  lemma {:induction false} EscapingIsBounded(s: string)
    ensures EscapedLength(s) <= 6 * ByteLength(s)
  {
    if s != [] {
      EscapingIsBounded(s[1..]);
    }
  }

  /** Identifiers are never escaped. */
  lemma {:induction false} PlainLength(s: string)
    requires forall i :: 0 <= i < |s| ==> IdentifierChar(s[i])
    ensures EscapedLength(s) == |s|
  {
    if s != [] {
      assert IdentifierChar(s[0]);
      PlainLength(s[1..]);
    }
  }

  function Digits(n: nat): nat {
    if n < 10 then 1 else 1 + Digits(n / 10)
  }

  /** Sequence numbers have 64 bits. */
  const MAX_SEQUENCE := 0xFFFF_FFFF_FFFF_FFFF

  lemma {:induction false} DigitsBelow(n: nat, k: nat, bound: nat)
    requires bound == Power10(k) && n < bound && 0 < k
    ensures Digits(n) <= k
    decreases k
  {
    if n >= 10 {
      DigitsBelow(n / 10, k - 1, bound / 10);
    }
  }

  function Power10(k: nat): nat {
    if k == 0 then 1 else 10 * Power10(k - 1)
  }

  lemma SequenceDigits(n: nat)
    requires n <= MAX_SEQUENCE
    ensures Digits(n) <= 20
  {
    assert Power10(4) == 10_000;
    assert Power10(8) == 100_000_000;
    assert Power10(12) == 1_000_000_000_000;
    assert Power10(16) == 10_000_000_000_000_000;
    assert Power10(20) == 100_000_000_000_000_000_000;
    DigitsBelow(n, 20, Power10(20));
  }

  function EncodedLength(m: Message): nat {
    MESSAGE_SKELETON + EscapedLength(m.messageID) + EscapedLength(m.conversationID) + EscapedLength(m.source)
    + EscapedLength(m.destination) + EscapedLength(m.body) + EscapedLength(m.bodyDigest) + EscapedLength(m.receivedAt)
    + Digits(m.sequence)
  }

  /** What every accepted message satisfies. */
  predicate Legal(m: Message) {
    && ValidIdentifier(m.messageID) && ValidIdentifier(m.conversationID) && ValidIdentifier(m.source) && ValidIdentifier(m.destination)
    && ValidText(m.body, MAX_MESSAGE_BYTES)
    && |m.bodyDigest| == 64 && (forall i :: 0 <= i < 64 ==> IdentifierChar(m.bodyDigest[i]))
    && |m.receivedAt| <= 35 && (forall i :: 0 <= i < |m.receivedAt| ==> IdentifierChar(m.receivedAt[i]))
    && 0 < m.sequence <= MAX_SEQUENCE
  }

  /** One legal message, however its body is escaped, fits into an output. */
  lemma OneMessageFits(m: Message)
    requires Legal(m)
    ensures BASE_BYTES + EncodedLength(m) <= MAX_OUTPUT_BYTES
  {
    PlainLength(m.messageID);
    PlainLength(m.conversationID);
    PlainLength(m.source);
    PlainLength(m.destination);
    PlainLength(m.bodyDigest);
    PlainLength(m.receivedAt);
    EscapingIsBounded(m.body);
    SequenceDigits(m.sequence);
  }

  // ----- Pages -----

  /** The messages after a cursor, in the order of the inbox. */
  function After(inbox: seq<Message>, cursor: nat): seq<Message> {
    if inbox == [] then []
    else
      var before, m := After(inbox[..|inbox| - 1], cursor), inbox[|inbox| - 1];
      if m.sequence > cursor then before + [m] else before
  }

  function ListLength(messages: seq<Message>): nat {
    if messages == [] then 0
    else ListLength(messages[..|messages| - 1]) + (if |messages| > 1 then 1 else 0) + EncodedLength(messages[|messages| - 1])
  }

  /** The bytes of an output with these messages. */
  function OutputLength(messages: seq<Message>, sequence: nat): nat {
    OUTPUT_SKELETON + ListLength(messages) + Digits(sequence) + 64
  }

  /** A page is the longest run of messages after the cursor within both bounds. */
  predicate IsPage(page: seq<Message>, rest: seq<Message>, limit: int) {
    && page <= rest && |page| <= limit && BASE_BYTES + ListLength(page) <= MAX_OUTPUT_BYTES
    && (|page| < |rest| && |page| < limit ==> BASE_BYTES + ListLength(rest[..|page| + 1]) > MAX_OUTPUT_BYTES)
  }

  lemma {:induction false} SublistShorter(messages: seq<Message>, n: nat)
    requires n <= |messages|
    ensures ListLength(messages[..n]) <= ListLength(messages)
    decreases |messages|
  {
    if n == |messages| {
      assert messages[..n] == messages;
    } else {
      SublistShorter(messages[..|messages| - 1], n);
      assert messages[..|messages| - 1][..n] == messages[..n];
    }
  }

  lemma PageIsLongest(a: seq<Message>, b: seq<Message>, rest: seq<Message>, limit: int)
    requires IsPage(a, rest, limit) && IsPage(b, rest, limit)
    ensures |b| <= |a|
  {
    hide ListLength;
    if |a| < |b| {
      assert b[..|a| + 1] == rest[..|a| + 1];
      SublistShorter(b, |a| + 1);
    }
  }

  lemma PageIsUnique(a: seq<Message>, b: seq<Message>, rest: seq<Message>, limit: int)
    requires IsPage(a, rest, limit) && IsPage(b, rest, limit)
    ensures a == b
  {
    hide ListLength;
    PageIsLongest(a, b, rest, limit);
    PageIsLongest(b, a, rest, limit);
  }

  /** The inbox as the service holds it. */
  class Inbox {
    var messages: seq<Message>

    constructor (messages: seq<Message>)
      ensures this.messages == messages
    {
      this.messages := messages;
    }

    /** One page. A limit of zero means twenty; others must be between one and a hundred. */
    method Read(after: nat, requested: int) returns (page: Option<seq<Message>>)
      ensures page.None? <==> requested < 0 || requested > 100
      ensures page.Some? ==> IsPage(page.value, After(messages, after), if requested == 0 then 20 else requested)
    {
      hide After, ListLength, EncodedLength, IsPage;
      var limit := if requested == 0 then 20 else requested;
      if limit < 1 || limit > 100 { return None; }
      var selected: seq<Message> := [];
      var encodedBytes := BASE_BYTES;
      NothingYet(messages, after);
      for i := 0 to |messages|
        invariant selected == After(messages[..i], after) && |selected| < limit
        invariant encodedBytes == BASE_BYTES + ListLength(selected) <= MAX_OUTPUT_BYTES
      {
        var m := messages[i];
        OneMore(messages, i, after);
        if m.sequence > after {
          var separator := if |selected| > 0 then 1 else 0;
          OneLonger(selected, m);
          if encodedBytes + separator + EncodedLength(m) > MAX_OUTPUT_BYTES {
            PageEnds(messages, i, after, limit, selected);
            return Some(selected);
          }
          selected := selected + [m];
          encodedBytes := encodedBytes + separator + EncodedLength(m);
          if |selected| == limit {
            PageEnds(messages, i + 1, after, limit, selected);
            return Some(selected);
          }
        }
      }
      PageEnds(messages, |messages|, after, limit, selected);
      return Some(selected);
    }

    /** The check after the page is built can never fail: a page with any sequence number
        encodes within the output bound. */
    lemma OutputAlwaysFits(page: seq<Message>, after: nat, limit: int, sequence: nat)
      requires IsPage(page, After(messages, after), limit) && sequence <= MAX_SEQUENCE
      ensures OutputLength(page, sequence) <= MAX_OUTPUT_BYTES
    {
      SequenceDigits(sequence);
    }

    /** Reads pages, each from the last message of the one before, until one is empty. */
    method ReadAll(limit: int) returns (all: seq<Message>)
      requires 1 <= limit <= 100
      requires forall i :: 0 <= i < |messages| ==> Legal(messages[i])
      ensures all == Paged(messages, 0, limit)
      ensures Ascending(messages) ==> all == messages
      ensures Distinct(messages) ==> (all == messages <==> PagesSeparate(messages, 0, limit))
    {
      hide After, ListLength, Greedy, Legal, IsPage, PagesSeparate, Distinct;
      all := [];
      var cursor := 0;
      while true
        invariant all + Paged(messages, cursor, limit) == Paged(messages, 0, limit)
        decreases |After(messages, cursor)|
      {
        var next := Read(cursor, limit);
        var page := next.value;
        GreedyIsPage(After(messages, cursor), limit);
        PageIsUnique(page, Greedy(After(messages, cursor), limit), After(messages, cursor), limit);
        if page == [] { break; }
        AfterShrinks(messages, cursor, page[|page| - 1]);
        assert all + (page + Paged(messages, page[|page| - 1].sequence, limit))
            == (all + page) + Paged(messages, page[|page| - 1].sequence, limit);
        all, cursor := all + page, page[|page| - 1].sequence;
      }
      if Ascending(messages) {
        PagingIsComplete(messages, 0, limit);
        AfterNothing(messages);
      }
      if Distinct(messages) {
        PagingCompleteIff(messages, limit);
      }
    }
  }

  // ----- Building a page -----

  lemma NothingYet(inbox: seq<Message>, cursor: nat)
    ensures After(inbox[..0], cursor) == [] && ListLength([]) == 0
  {
  }

  lemma OneMore(inbox: seq<Message>, i: nat, cursor: nat)
    requires i < |inbox|
    ensures After(inbox[..i + 1], cursor)
         == if inbox[i].sequence > cursor then After(inbox[..i], cursor) + [inbox[i]] else After(inbox[..i], cursor)
  {
    assert inbox[..i + 1][..i] == inbox[..i];
  }

  lemma OneLonger(selected: seq<Message>, m: Message)
    ensures ListLength(selected + [m]) == ListLength(selected) + (if |selected| > 0 then 1 else 0) + EncodedLength(m)
  {
    hide EncodedLength;
    assert (selected + [m])[..|selected|] == selected;
  }

  /** What was selected when the loop ended is a page. */
  lemma PageEnds(inbox: seq<Message>, i: nat, cursor: nat, limit: int, selected: seq<Message>)
    requires i <= |inbox| && selected == After(inbox[..i], cursor) && |selected| <= limit
    requires BASE_BYTES + ListLength(selected) <= MAX_OUTPUT_BYTES
    requires |selected| == limit || i == |inbox|
             || (inbox[i].sequence > cursor && BASE_BYTES + ListLength(selected + [inbox[i]]) > MAX_OUTPUT_BYTES)
    ensures IsPage(selected, After(inbox, cursor), limit)
  {
    hide After, ListLength;
    AfterGrows(inbox, i, cursor);
    if i == |inbox| {
      assert inbox[..i] == inbox;
    } else if |selected| < limit {
      OneMore(inbox, i, cursor);
      AfterGrows(inbox, i + 1, cursor);
      assert After(inbox, cursor)[..|selected| + 1] == selected + [inbox[i]];
    }
  }

  // ----- Repeated paging -----

  predicate Ascending(inbox: seq<Message>) {
    forall i, j :: 0 <= i < j < |inbox| ==> inbox[i].sequence < inbox[j].sequence
  }

  lemma {:induction false} AfterGrows(inbox: seq<Message>, i: nat, cursor: nat)
    requires i <= |inbox|
    ensures After(inbox[..i], cursor) <= After(inbox, cursor)
    decreases |inbox|
  {
    if i == |inbox| {
      assert inbox[..i] == inbox;
    } else {
      AfterGrows(inbox[..|inbox| - 1], i, cursor);
      assert inbox[..|inbox| - 1][..i] == inbox[..i];
    }
  }

  /** Moving the cursor to a message after it leaves fewer messages after it. */
  lemma {:induction false} AfterShrinks(inbox: seq<Message>, cursor: nat, m: Message)
    requires m in After(inbox, cursor)
    ensures m.sequence > cursor && |After(inbox, m.sequence)| < |After(inbox, cursor)|
  {
    var n := |inbox| - 1;
    if m in After(inbox[..n], cursor) {
      AfterShrinks(inbox[..n], cursor, m);
    } else {
      AfterFewer(inbox[..n], cursor, m.sequence);
    }
  }

  lemma {:induction false} AfterFewer(inbox: seq<Message>, a: nat, b: nat)
    requires a <= b
    ensures |After(inbox, b)| <= |After(inbox, a)|
  {
    if inbox != [] {
      AfterFewer(inbox[..|inbox| - 1], a, b);
    }
  }

  function Greedy(rest: seq<Message>, limit: int): (page: seq<Message>)
    ensures page <= rest
  {
    GreedyFrom(rest, 0, limit)
  }

  function GreedyFrom(rest: seq<Message>, n: nat, limit: int): (page: seq<Message>)
    requires n <= |rest|
    ensures page <= rest && |page| >= n
    decreases |rest| - n
  {
    if n >= limit || n == |rest| || BASE_BYTES + ListLength(rest[..n + 1]) > MAX_OUTPUT_BYTES then rest[..n]
    else GreedyFrom(rest, n + 1, limit)
  }

  lemma {:induction false} GreedyIsPage(rest: seq<Message>, limit: int)
    requires 0 <= limit
    ensures IsPage(Greedy(rest, limit), rest, limit)
  {
    GreedyFromIsPage(rest, 0, limit);
  }

  lemma {:induction false} GreedyFromIsPage(rest: seq<Message>, n: nat, limit: int)
    requires n <= |rest| && n <= limit && BASE_BYTES + ListLength(rest[..n]) <= MAX_OUTPUT_BYTES
    ensures IsPage(GreedyFrom(rest, n, limit), rest, limit)
    decreases |rest| - n
  {
    hide ListLength;
    if n < limit && n < |rest| && BASE_BYTES + ListLength(rest[..n + 1]) <= MAX_OUTPUT_BYTES {
      GreedyFromIsPage(rest, n + 1, limit);
    }
  }

  /** All pages from a cursor on, one after the other. */
  function Paged(inbox: seq<Message>, cursor: nat, limit: int): seq<Message>
    decreases |After(inbox, cursor)|
  {
    var page := Greedy(After(inbox, cursor), limit);
    if page == [] then []
    else
      AfterShrinks(inbox, cursor, page[|page| - 1]);
      page + Paged(inbox, page[|page| - 1].sequence, limit)
  }

  lemma {:induction false} NothingAfter(inbox: seq<Message>, cursor: nat)
    requires forall i :: 0 <= i < |inbox| ==> inbox[i].sequence <= cursor
    ensures After(inbox, cursor) == []
  {
    if inbox != [] {
      NothingAfter(inbox[..|inbox| - 1], cursor);
    }
  }

  /** Where the inbox is separated, a cursor leaves exactly what comes after it. */
  lemma {:induction false} AfterSeparated(inbox: seq<Message>, cursor: nat, p: nat)
    requires p <= |inbox|
    requires forall j :: 0 <= j < p ==> inbox[j].sequence <= cursor
    requires forall j :: p <= j < |inbox| ==> inbox[j].sequence > cursor
    ensures After(inbox, cursor) == inbox[p..]
  {
    var n := |inbox| - 1;
    if p == |inbox| {
      NothingAfter(inbox, cursor);
    } else {
      AfterSeparated(inbox[..n], cursor, p);
      assert inbox[p..] == inbox[..n][p..] + [inbox[n]];
    }
  }

  lemma {:induction false} FirstLater(inbox: seq<Message>, cursor: nat, p: nat) returns (j: nat)
    requires p <= |inbox| && exists k :: 0 <= k < p && inbox[k].sequence > cursor
    ensures j < p && inbox[j].sequence > cursor && forall k :: 0 <= k < j ==> inbox[k].sequence <= cursor
  {
    if k :| 0 <= k < p - 1 && inbox[k].sequence > cursor {
      j := FirstLater(inbox, cursor, p - 1);
    } else {
      j := p - 1;
    }
  }

  /** In an ascending inbox the messages after the cursor are a suffix. */
  lemma AfterIsSuffix(inbox: seq<Message>, cursor: nat) returns (i: nat)
    requires Ascending(inbox)
    ensures i <= |inbox| && After(inbox, cursor) == inbox[i..]
    ensures forall j :: 0 <= j < |inbox| ==> (inbox[j].sequence > cursor <==> i <= j)
  {
    hide After;
    if k :| 0 <= k < |inbox| && inbox[k].sequence > cursor {
      i := FirstLater(inbox, cursor, |inbox|);
    } else {
      i := |inbox|;
    }
    AfterSeparated(inbox, cursor, i);
  }

  /** The cursor after a page leaves what the page left. */
  lemma CursorMoves(inbox: seq<Message>, cursor: nat, n: nat)
    requires Ascending(inbox) && 0 < n <= |After(inbox, cursor)|
    ensures After(inbox, After(inbox, cursor)[n - 1].sequence) == After(inbox, cursor)[n..]
  {
    hide After;
    var i := AfterIsSuffix(inbox, cursor);
    var last := After(inbox, cursor)[n - 1];
    var j := AfterIsSuffix(inbox, last.sequence);
    assert last == inbox[i + n - 1];
    assert !(inbox[i + n - 1].sequence > last.sequence);
    if i + n < |inbox| {
      assert inbox[i + n].sequence > last.sequence;
    }
  }

  /** Repeated paging of an ascending inbox returns everything after the cursor, each
      message exactly once and in order, whatever the sizes. */
  lemma {:induction false} PagingIsComplete(inbox: seq<Message>, cursor: nat, limit: int)
    requires Ascending(inbox) && 1 <= limit && forall i :: 0 <= i < |inbox| ==> Legal(inbox[i])
    ensures Paged(inbox, cursor, limit) == After(inbox, cursor)
    decreases |After(inbox, cursor)|
  {
    hide After, Legal, Greedy;
    var rest := After(inbox, cursor);
    var page := Greedy(rest, limit);
    if rest != [] {
      var i := AfterIsSuffix(inbox, cursor);
      assert rest[0] == inbox[i];
      PageIsNotEmpty(rest, limit);
      var last := page[|page| - 1];
      AfterShrinks(inbox, cursor, last);
      PagingIsComplete(inbox, last.sequence, limit);
      CursorMoves(inbox, cursor, |page|);
      assert page + rest[|page|..] == rest;
    }
  }

  lemma PageIsNotEmpty(rest: seq<Message>, limit: int)
    requires rest != [] && Legal(rest[0]) && 1 <= limit
    ensures Greedy(rest, limit) != []
  {
    OneMessageFits(rest[0]);
    assert rest[..1] == [rest[0]];
    assert ListLength([rest[0]]) == EncodedLength(rest[0]);
    GreedyIsPage(rest, limit);
  }

  lemma {:induction false} AfterNothing(inbox: seq<Message>)
    requires forall i :: 0 <= i < |inbox| ==> Legal(inbox[i])
    ensures After(inbox, 0) == inbox
  {
    if inbox != [] {
      AfterNothing(inbox[..|inbox| - 1]);
      assert inbox == inbox[..|inbox| - 1] + [inbox[|inbox| - 1]];
    }
  }

  // ----- An inbox that is not ascending -----

  /** With pages of one message, paging returns everything exactly when the inbox is
      ascending: a message that stands behind a later one is never shown. */
  lemma SinglePagesNeedOrder(inbox: seq<Message>)
    requires forall i :: 0 <= i < |inbox| ==> Legal(inbox[i])
    ensures Paged(inbox, 0, 1) == inbox <==> Ascending(inbox)
  {
    hide Legal, After, Paged, Ascending;
    if Ascending(inbox) {
      PagingIsComplete(inbox, 0, 1);
      AfterNothing(inbox);
    }
    PagesAscend(inbox, 0);
  }

  /** Whatever the order of the inbox, pages of one message come in ascending order. */
  lemma {:induction false} PagesAscend(inbox: seq<Message>, cursor: nat)
    ensures Ascending(Paged(inbox, cursor, 1))
    ensures forall m :: m in Paged(inbox, cursor, 1) ==> m.sequence > cursor
    decreases |After(inbox, cursor)|
  {
    hide After, ListLength, Greedy;
    var rest := After(inbox, cursor);
    var page := Greedy(rest, 1);
    if page != [] {
      GreedyIsPage(rest, 1);
      AfterShrinks(inbox, cursor, page[0]);
      PagesAscend(inbox, page[0].sequence);
      var tail := Paged(inbox, page[0].sequence, 1);
      assert Paged(inbox, cursor, 1) == [page[0]] + tail;
      assert forall i :: 0 <= i < |tail| ==> tail[i] in tail;
    }
  }

  // ----- Any order and any page size -----

  predicate Distinct(inbox: seq<Message>) {
    forall i, j :: 0 <= i < j < |inbox| ==> inbox[i] != inbox[j]
  }

  /** The message before position `p` has the highest sequence number up to there, and a
      lower one than all messages from there on. */
  predicate Separates(inbox: seq<Message>, p: nat)
    requires 0 < p <= |inbox|
  {
    && (forall j :: 0 <= j < p ==> inbox[j].sequence <= inbox[p - 1].sequence)
    && (forall j :: p <= j < |inbox| ==> inbox[j].sequence > inbox[p - 1].sequence)
  }

  /** Cut into pages from position `i` on, the inbox is separated at the end of each. */
  predicate PagesSeparate(inbox: seq<Message>, i: nat, limit: int)
    requires i <= |inbox|
    decreases |inbox| - i
  {
    i == |inbox|
    || (var n := |Greedy(inbox[i..], limit)|;
        n > 0 && Separates(inbox, i + n) && PagesSeparate(inbox, i + n, limit))
  }

  /** What comes after a cursor begins with the first message that is later. */
  lemma {:induction false} FirstAfter(inbox: seq<Message>, cursor: nat, j: nat)
    requires j < |inbox| && inbox[j].sequence > cursor
    requires forall k :: 0 <= k < j ==> inbox[k].sequence <= cursor
    ensures After(inbox, cursor) != [] && After(inbox, cursor)[0] == inbox[j]
  {
    var n := |inbox| - 1;
    if j == n {
      NothingAfter(inbox[..n], cursor);
    } else {
      FirstAfter(inbox[..n], cursor, j);
    }
  }

  lemma {:induction false} AfterIsLater(inbox: seq<Message>, cursor: nat)
    ensures forall m :: m in After(inbox, cursor) ==> m.sequence > cursor && m in inbox
  {
    if inbox != [] {
      AfterIsLater(inbox[..|inbox| - 1], cursor);
    }
  }

  lemma {:induction false} PagedIsLater(inbox: seq<Message>, cursor: nat, limit: int)
    ensures forall m :: m in Paged(inbox, cursor, limit) ==> m.sequence > cursor
    decreases |After(inbox, cursor)|
  {
    hide After, Greedy;
    var page := Greedy(After(inbox, cursor), limit);
    AfterIsLater(inbox, cursor);
    if page != [] {
      var last := page[|page| - 1];
      AfterShrinks(inbox, cursor, last);
      PagedIsLater(inbox, last.sequence, limit);
    }
  }

  /** Paging goes on with the first message after the cursor, if there is one. */
  lemma PagedBegins(inbox: seq<Message>, cursor: nat, limit: int)
    requires 1 <= limit && forall i :: 0 <= i < |inbox| ==> Legal(inbox[i])
    ensures var rest := After(inbox, cursor);
            rest != [] ==> Paged(inbox, cursor, limit) != [] && Paged(inbox, cursor, limit)[0] == rest[0]
  {
    hide After, Greedy, Legal;
    var rest := After(inbox, cursor);
    if rest != [] {
      AfterIsLater(inbox, cursor);
      assert rest[0] in inbox;
      PageIsNotEmpty(rest, limit);
    }
  }

  /** If the inbox is not separated after a page, paging does not go on with the next message. */
  lemma WrongContinuation(inbox: seq<Message>, p: nat, limit: int)
    requires 0 < p <= |inbox| && 1 <= limit && Distinct(inbox) && forall i :: 0 <= i < |inbox| ==> Legal(inbox[i])
    requires !Separates(inbox, p)
    ensures Paged(inbox, inbox[p - 1].sequence, limit) != inbox[p..]
  {
    hide After, Greedy, Legal, Paged;
    var cursor := inbox[p - 1].sequence;
    var paged := Paged(inbox, cursor, limit);
    PagedIsLater(inbox, cursor, limit);
    if j :| p <= j < |inbox| && inbox[j].sequence <= cursor {
      assert inbox[p..][j - p] == inbox[j];
      assert inbox[j] in inbox[p..] && inbox[j] !in paged;
    } else {
      var j := FirstLater(inbox, cursor, p);
      FirstAfter(inbox, cursor, j);
      PagedBegins(inbox, cursor, limit);
      assert p < |inbox| ==> inbox[p..][0] == inbox[p] != inbox[j];
    }
  }

  lemma GoesOn(page: seq<Message>, a: seq<Message>, b: seq<Message>)
    ensures page + a == page + b <==> a == b
  {
    assert (page + a)[|page|..] == a && (page + b)[|page|..] == b;
  }

  lemma {:induction false} PagingFrom(inbox: seq<Message>, i: nat, cursor: nat, limit: int)
    requires 1 <= limit && Distinct(inbox) && (forall j :: 0 <= j < |inbox| ==> Legal(inbox[j]))
    requires i <= |inbox| && After(inbox, cursor) == inbox[i..]
    ensures Paged(inbox, cursor, limit) == inbox[i..] <==> PagesSeparate(inbox, i, limit)
    decreases |inbox| - i
  {
    hide After, Greedy, Legal, Separates, Distinct;
    var rest := inbox[i..];
    var page := Greedy(rest, limit);
    if i < |inbox| {
      assert rest[0] == inbox[i];
      PageIsNotEmpty(rest, limit);
      var p := i + |page|;
      var last := inbox[p - 1].sequence;
      assert page == rest[..|page|] && rest == page + inbox[p..] && page[|page| - 1] == inbox[p - 1];
      AfterShrinks(inbox, cursor, inbox[p - 1]);
      GoesOn(page, Paged(inbox, last, limit), inbox[p..]);
      if Separates(inbox, p) {
        SeparatedAfter(inbox, p);
        PagingFrom(inbox, p, last, limit);
      } else {
        WrongContinuation(inbox, p, limit);
      }
    }
  }

  lemma SeparatedAfter(inbox: seq<Message>, p: nat)
    requires 0 < p <= |inbox| && Separates(inbox, p)
    ensures After(inbox, inbox[p - 1].sequence) == inbox[p..]
  {
    AfterSeparated(inbox, inbox[p - 1].sequence, p);
  }

  /** Paging with any limit returns every message exactly once and in the order of the
      inbox if and only if each page ends in a sequence number above all before it and
      below all after it. */
  lemma PagingCompleteIff(inbox: seq<Message>, limit: int)
    requires 1 <= limit && Distinct(inbox) && forall i :: 0 <= i < |inbox| ==> Legal(inbox[i])
    ensures Paged(inbox, 0, limit) == inbox <==> PagesSeparate(inbox, 0, limit)
  {
    hide Legal, After, Paged, PagesSeparate, Distinct;
    AfterNothing(inbox);
    assert inbox[0..] == inbox;
    PagingFrom(inbox, 0, 0, limit);
  }
}
