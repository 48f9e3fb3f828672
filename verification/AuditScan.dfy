/** The audit file as bytes: lines, the verified traversal of the hash chain, and
    what it says about the entries. */
module AuditScan {
  import opened Wrappers
  import opened Records

  type Byte = int

  const NEWLINE: Byte := 10

  /** Lines of this length, newline included, are no longer appended. */
  const MAX_LINE := 16 * 1024 * 1024

  /** The encryption and encoding of an entry as one line, and the validation of
      events. Encryption takes a fresh nonce. */
  datatype Codec = Codec(encode: (Entry, nat) -> seq<Byte>, decode: seq<Byte> -> Option<Entry>, admits: Event -> bool)

  predicate IsBlank(line: seq<Byte>) {
    forall i :: 0 <= i < |line| ==> 9 <= line[i] <= 13 || line[i] == 32
  }

  /** Every entry decodes from each of its encodings, which are single lines. */
  ghost predicate CodecOk(c: Codec) {
    forall e, nonce ::
      c.decode(c.encode(e, nonce)) == Some(e) && NEWLINE !in c.encode(e, nonce) && !IsBlank(c.encode(e, nonce))
  }

  /** What one link of the chain checks. */
  predicate VerifyEntry(c: Codec, e: Entry, sequence: nat, previous: Digest) {
    e.sequence == sequence && e.previous == previous && c.admits(e.event)
    && e.hash == EntryDigest(e.sequence, e.at, e.event, e.previous)
  }

  datatype Reference = Reference(offset: nat, length: nat, sequence: nat, hash: Digest)

  datatype Located = Located(entry: Entry, reference: Reference)

  function Entries(found: seq<Located>): (r: seq<Entry>)
    ensures |r| == |found| && forall i :: 0 <= i < |r| ==> r[i] == found[i].entry
  {
    if found == [] then [] else [found[0].entry] + Entries(found[1..])
  }

  lemma EntriesOfSnoc(found: seq<Located>, l: Located)
    ensures Entries(found + [l]) == Entries(found) + [l.entry]
  {
  }

  lemma EntriesOfCons(l: Located, rest: seq<Located>)
    ensures Entries([l] + rest) == [l.entry] + Entries(rest)
  {
    assert ([l] + rest)[1..] == rest;
  }

  /** The next newline, or the end of the file. */
  function LineEnd(file: seq<Byte>, offset: nat): (r: nat)
    requires offset <= |file|
    ensures offset <= r <= |file| && (r < |file| ==> file[r] == NEWLINE)
    ensures forall i :: offset <= i < r ==> file[i] != NEWLINE
    decreases |file| - offset
  {
    if offset == |file| || file[offset] == NEWLINE then offset else LineEnd(file, offset + 1)
  }

  lemma LineEndIs(file: seq<Byte>, offset: nat, end: nat)
    requires offset <= end < |file| && file[end] == NEWLINE && forall i :: offset <= i < end ==> file[i] != NEWLINE
    ensures LineEnd(file, offset) == end
  {
  }

  /** The entries from `offset` to the end of the file, `sequence` of which come before. */
  function ScanFrom(c: Codec, file: seq<Byte>, offset: nat, sequence: nat, head: Digest): Option<seq<Located>>
    requires offset <= |file|
    decreases |file| - offset
  {
    if offset == |file| then Some([])
    else
      var end := LineEnd(file, offset);
      if end == |file| || end + 1 - offset > MAX_LINE || IsBlank(file[offset..end]) then None
      else
        var decoded := c.decode(file[offset..end]);
        if decoded.None? || !VerifyEntry(c, decoded.value, sequence + 1, head) then None
        else
          var rest := ScanFrom(c, file, end + 1, sequence + 1, decoded.value.hash);
          if rest.None? then None
          else
            Some([Located(decoded.value, Reference(offset, end + 1 - offset, sequence + 1, decoded.value.hash))] + rest.value)
  }

  /** What a successful scan found in its first line. */
  lemma FirstLine(c: Codec, file: seq<Byte>, offset: nat, sequence: nat, head: Digest)
    returns (e: Entry, end: nat, rest: seq<Located>)
    requires offset < |file| && ScanFrom(c, file, offset, sequence, head).Some?
    ensures end == LineEnd(file, offset) < |file| && end + 1 - offset <= MAX_LINE && !IsBlank(file[offset..end])
    ensures c.decode(file[offset..end]) == Some(e) && VerifyEntry(c, e, sequence + 1, head)
    ensures ScanFrom(c, file, end + 1, sequence + 1, e.hash) == Some(rest)
    ensures ScanFrom(c, file, offset, sequence, head)
         == Some([Located(e, Reference(offset, end + 1 - offset, sequence + 1, e.hash))] + rest)
  {
    end := LineEnd(file, offset);
    e := c.decode(file[offset..end]).value;
    rest := ScanFrom(c, file, end + 1, sequence + 1, e.hash).value;
  }

  lemma ScanEnds(c: Codec, file: seq<Byte>, sequence: nat, head: Digest)
    ensures ScanFrom(c, file, |file|, sequence, head) == Some([])
  {
  }

  function Scan(c: Codec, file: seq<Byte>): Option<seq<Located>> {
    ScanFrom(c, file, 0, 0, Genesis)
  }

  /** The traversal as the program runs it: the terminator first, then line by line. */
  method ScanAndVerify(c: Codec, file: seq<Byte>) returns (ok: bool, visited: seq<Located>, sequence: nat, head: Digest)
    ensures ok <==> Scan(c, file).Some?
    ensures ok ==> visited == Scan(c, file).value && sequence == |visited| && head == Head(Entries(visited))
  {
    hide ScanFrom, VerifyEntry, IsBlank;
    ok, visited, sequence, head := true, [], 0, Genesis;
    if |file| == 0 {
      ScanOfNothing(c, file);
      return;
    }
    if file[|file| - 1] != NEWLINE {
      UnterminatedFails(c, file, 0, 0, Genesis);
      ok := false;
      return;
    }
    var offset := 0;
    ghost var all := ScanFrom(c, file, 0, 0, Genesis);
    assert Continued([], all) == all by { if all.Some? { assert [] + all.value == all.value; } }
    while offset < |file|
      invariant offset <= |file|
      invariant sequence == |visited| && head == Head(Entries(visited))
      invariant Scan(c, file) == Continued(visited, ScanFrom(c, file, offset, sequence, head))
      decreases |file| - offset
    {
      ScanOfLine(c, file, offset, sequence, head);
      var end := LineEnd(file, offset);
      if end == |file| || end + 1 - offset > MAX_LINE || IsBlank(file[offset..end]) {
        ok := false;
        return;
      }
      var decoded := c.decode(file[offset..end]);
      if decoded.None? || !VerifyEntry(c, decoded.value, sequence + 1, head) {
        ok := false;
        return;
      }
      var located := Located(decoded.value, Reference(offset, end + 1 - offset, sequence + 1, decoded.value.hash));
      ContinuedFurther(visited, located, ScanFrom(c, file, end + 1, sequence + 1, decoded.value.hash));
      EntriesOfSnoc(visited, located);
      visited, sequence, head, offset := visited + [located], sequence + 1, decoded.value.hash, end + 1;
    }
    ScanEnds(c, file, sequence, head);
    assert visited + [] == visited;
  }

  /** A scan is refused at its first line or continued after it. */
  lemma ScanOfLine(c: Codec, file: seq<Byte>, offset: nat, sequence: nat, head: Digest)
    requires offset < |file|
    ensures var end := LineEnd(file, offset);
            if end == |file| || end + 1 - offset > MAX_LINE || IsBlank(file[offset..end]) || c.decode(file[offset..end]).None?
            then ScanFrom(c, file, offset, sequence, head).None?
            else
              var e := c.decode(file[offset..end]).value;
              if !VerifyEntry(c, e, sequence + 1, head) then ScanFrom(c, file, offset, sequence, head).None?
              else
                var rest := ScanFrom(c, file, end + 1, sequence + 1, e.hash);
                ScanFrom(c, file, offset, sequence, head)
                == Continued([Located(e, Reference(offset, end + 1 - offset, sequence + 1, e.hash))], rest)
  {
  }

  function Continued(found: seq<Located>, rest: Option<seq<Located>>): Option<seq<Located>> {
    if rest.None? then None else Some(found + rest.value)
  }

  lemma ContinuedFurther(found: seq<Located>, l: Located, rest: Option<seq<Located>>)
    ensures Continued(found, Continued([l], rest)) == Continued(found + [l], rest)
  {
    if rest.Some? {
      assert found + ([l] + rest.value) == found + [l] + rest.value;
    }
  }

  lemma ScanOfNothing(c: Codec, file: seq<Byte>)
    requires file == []
    ensures Scan(c, file) == Some([])
  {
  }

  lemma {:induction false} UnterminatedFails(c: Codec, file: seq<Byte>, offset: nat, sequence: nat, head: Digest)
    requires offset < |file| && file[|file| - 1] != NEWLINE
    ensures ScanFrom(c, file, offset, sequence, head).None?
    decreases |file| - offset
  {
    var end := LineEnd(file, offset);
    if end < |file| && c.decode(file[offset..end]).Some? {
      UnterminatedFails(c, file, end + 1, sequence + 1, c.decode(file[offset..end]).value.hash);
    }
  }

  // ----- The chain -----

  /** Each entry is the one an append writes after those before it. */
  predicate IsChain(log: seq<Entry>) {
    forall i :: 0 <= i < |log| ==> log[i] == NextEntry(log[..i], log[i].event, log[i].at)
  }

  lemma ChainSnoc(log: seq<Entry>, e: Entry)
    requires IsChain(log) && e == NextEntry(log, e.event, e.at)
    ensures IsChain(log + [e])
  {
    forall i | 0 <= i <= |log| ensures (log + [e])[..i] == log[..i] {}
  }

  lemma VerifiedIsNext(c: Codec, before: seq<Entry>, e: Entry)
    requires VerifyEntry(c, e, |before| + 1, Head(before))
    ensures e == NextEntry(before, e.event, e.at) && Head(before + [e]) == e.hash
  {
  }

  lemma NoEntries()
    ensures Entries([]) == []
  {
  }

  lemma {:induction false} ScanChains(c: Codec, file: seq<Byte>, offset: nat, before: seq<Entry>)
    requires offset <= |file| && IsChain(before)
    requires ScanFrom(c, file, offset, |before|, Head(before)).Some?
    ensures IsChain(before + Entries(ScanFrom(c, file, offset, |before|, Head(before)).value))
    decreases |file| - offset
  {
    hide ScanFrom, IsChain, Entries, VerifyEntry;
    if offset == |file| {
      ScanEnds(c, file, |before|, Head(before));
      assert before + Entries([]) == before by { NoEntries(); }
    } else {
      var e, end, rest := FirstLine(c, file, offset, |before|, Head(before));
      EntriesOfCons(Located(e, Reference(offset, end + 1 - offset, |before| + 1, e.hash)), rest);
      VerifiedIsNext(c, before, e);
      ChainSnoc(before, e);
      ScanChains(c, file, end + 1, before + [e]);
      assert before + ([e] + Entries(rest)) == before + [e] + Entries(rest);
    }
  }

  lemma NoChain()
    ensures IsChain([])
  {
  }

  /** A verified file holds a chain. */
  lemma VerifiedIsChain(c: Codec, file: seq<Byte>)
    requires Scan(c, file).Some?
    ensures IsChain(Entries(Scan(c, file).value))
  {
    hide IsChain, ScanFrom, Entries;
    assert IsChain([]) by { NoChain(); }
    ScanChains(c, file, 0, []);
    assert [] + Entries(Scan(c, file).value) == Entries(Scan(c, file).value);
  }

  lemma ChainPrefix(log: seq<Entry>, n: nat)
    requires IsChain(log) && n < |log|
    ensures IsChain(log[..n]) && log[n] == NextEntry(log[..n], log[n].event, log[n].at)
  {
    forall i | 0 <= i < n ensures log[..n][..i] == log[..i] {}
  }

  /** The head commits to the whole history. */
  lemma {:induction false} HeadCommits(a: seq<Entry>, b: seq<Entry>)
    requires IsChain(a) && IsChain(b) && |a| == |b| && Head(a) == Head(b)
    ensures a == b
  {
    hide IsChain;
    if a != [] {
      var n := |a| - 1;
      ChainPrefix(a, n);
      ChainPrefix(b, n);
      HeadCommits(a[..n], b[..n]);
      assert a == a[..n] + [a[n]] && b == b[..n] + [b[n]];
    }
  }

  /** Two files that verify with one sequence and head hold the same entries. */
  lemma SameHeadSameLog(c: Codec, c': Codec, file: seq<Byte>, file': seq<Byte>)
    requires Scan(c, file).Some? && Scan(c', file').Some?
    requires |Scan(c, file).value| == |Scan(c', file').value|
    requires Head(Entries(Scan(c, file).value)) == Head(Entries(Scan(c', file').value))
    ensures Entries(Scan(c, file).value) == Entries(Scan(c', file').value)
  {
    hide Scan;
    VerifiedIsChain(c, file);
    VerifiedIsChain(c', file');
    HeadCommits(Entries(Scan(c, file).value), Entries(Scan(c', file').value));
  }

  // ----- Checkpoints -----

  function SignCheckpoint(name: string, key: Key, sequence: nat, head: Digest, deployment: string, at: Time): Checkpoint {
    var content := UnsignedCheckpoint(1, name, key, sequence, head, deployment, at);
    Checkpoint(content, Signature(key, CheckpointContent(content)))
  }

  predicate VerifyCheckpoint(checkpoint: Checkpoint) {
    checkpoint.signature == Signature(checkpoint.content.publicKey, CheckpointContent(checkpoint.content))
  }

  /** A log agrees with a checkpoint when its entry at that sequence has that hash. */
  predicate Anchored(checkpoint: Checkpoint, log: seq<Entry>) {
    VerifyCheckpoint(checkpoint) && checkpoint.content.sequence <= |log|
    && Head(log[..checkpoint.content.sequence]) == checkpoint.content.head
  }

  /** A checkpoint determines the prefix it was taken of: every verified log that
      agrees with it starts with the very entries that were signed for. */
  lemma CheckpointFixesPrefix(name: string, key: Key, deployment: string, at: Time, signed: seq<Entry>, later: seq<Entry>)
    requires IsChain(signed) && IsChain(later)
    ensures var checkpoint := SignCheckpoint(name, key, |signed|, Head(signed), deployment, at);
            VerifyCheckpoint(checkpoint) && (Anchored(checkpoint, later) <==> signed <= later)
  {
    var checkpoint := SignCheckpoint(name, key, |signed|, Head(signed), deployment, at);
    assert signed <= later ==> later[..|signed|] == signed;
    if Anchored(checkpoint, later) {
      var prefix := later[..|signed|];
      forall i | 0 <= i < |prefix| ensures prefix[..i] == later[..i] {}
      HeadCommits(signed, prefix);
    }
  }

  // ----- Growing the file -----

  function LastHash(found: seq<Located>, head: Digest): Digest {
    if found == [] then head else found[|found| - 1].entry.hash
  }

  /** A line that is complete in `file` is the same in a longer file. */
  lemma LineStays(c: Codec, file: seq<Byte>, more: seq<Byte>, offset: nat, sequence: nat, head: Digest)
    requires offset < |file| && ScanFrom(c, file, offset, sequence, head).Some?
    ensures var end := LineEnd(file, offset);
            end < |file| && c.decode(file[offset..end]).Some?
            && var e := c.decode(file[offset..end]).value;
            var rest := ScanFrom(c, file + more, end + 1, sequence + 1, e.hash);
            var located := Located(e, Reference(offset, end + 1 - offset, sequence + 1, e.hash));
            ScanFrom(c, file + more, offset, sequence, head) == if rest.None? then None else Some([located] + rest.value)
  {
    var end := LineEnd(file, offset);
    assert (file + more)[offset..end] == file[offset..end];
    LineEndIs(file + more, offset, end);
  }

  lemma {:induction false} ScanGrows(c: Codec, file: seq<Byte>, more: seq<Byte>, offset: nat, sequence: nat, head: Digest)
    requires offset <= |file| && ScanFrom(c, file, offset, sequence, head).Some?
    ensures var found := ScanFrom(c, file, offset, sequence, head).value;
            var rest := ScanFrom(c, file + more, |file|, sequence + |found|, LastHash(found, head));
            ScanFrom(c, file + more, offset, sequence, head) == if rest.None? then None else Some(found + rest.value)
    decreases |file| - offset
  {
    hide ScanFrom, VerifyEntry;
    if offset == |file| {
      ScanEnds(c, file, sequence, head);
      var rest := ScanFrom(c, file + more, offset, sequence, head);
      assert rest.Some? ==> [] + rest.value == rest.value;
    } else {
      var e, end, tail := FirstLine(c, file, offset, sequence, head);
      LineStays(c, file, more, offset, sequence, head);
      ScanGrows(c, file, more, end + 1, sequence + 1, e.hash);
      var located := Located(e, Reference(offset, end + 1 - offset, sequence + 1, e.hash));
      assert LastHash([located] + tail, head) == LastHash(tail, e.hash);
      var rest := ScanFrom(c, file + more, |file|, sequence + 1 + |tail|, LastHash(tail, e.hash));
      assert rest.Some? ==> [located] + (tail + rest.value) == [located] + tail + rest.value;
    }
  }

  /** Bytes after a verified file are scanned as a continuation of its chain. */
  lemma ScanContinues(c: Codec, file: seq<Byte>, more: seq<Byte>)
    requires Scan(c, file).Some?
    ensures var found := Scan(c, file).value;
            var rest := ScanFrom(c, file + more, |file|, |found|, Head(Entries(found)));
            Scan(c, file + more) == if rest.None? then None else Some(found + rest.value)
  {
    hide ScanFrom, Entries;
    ScanGrows(c, file, more, 0, 0, Genesis);
    LastEntryHash(Scan(c, file).value);
  }

  lemma LastEntryHash(found: seq<Located>)
    ensures Head(Entries(found)) == LastHash(found, Genesis)
  {
  }

  /** A whole line after a verified file adds exactly its entry; a torn line, however
      much of it was written, makes the file unreadable, and so nothing of it is ever
      taken for an entry. */
  lemma OneMoreLine(c: Codec, file: seq<Byte>, event: Event, at: Time, nonce: nat, written: nat)
    requires CodecOk(c) && Scan(c, file).Some? && c.admits(event)
    requires var found := Scan(c, file).value;
             var line := c.encode(NextEntry(Entries(found), event, at), nonce) + [NEWLINE];
             |line| <= MAX_LINE && written <= |line|
    ensures var found := Scan(c, file).value;
            var e := NextEntry(Entries(found), event, at);
            var line := c.encode(e, nonce) + [NEWLINE];
            Scan(c, file + line[..written])
            == if written == 0 then Some(found)
               else if written == |line| then Some(found + [Located(e, Reference(|file|, |line|, e.sequence, e.hash))])
               else None
  {
    var found := Scan(c, file).value;
    var e := NextEntry(Entries(found), event, at);
    var line := c.encode(e, nonce) + [NEWLINE];
    var longer := file + line[..written];
    if written == 0 {
      assert longer == file;
    } else if written < |line| {
      hide Scan;
      ScanContinues(c, file, line[..written]);
      assert longer[|longer| - 1] == c.encode(e, nonce)[written - 1];
      UnterminatedFails(c, longer, |file|, |found|, Head(Entries(found)));
    } else {
      WholeLine(c, file, e, nonce, found);
      assert line[..written] == line;
    }
  }

  lemma WholeLine(c: Codec, file: seq<Byte>, e: Entry, nonce: nat, found: seq<Located>)
    requires CodecOk(c) && Scan(c, file) == Some(found) && c.admits(e.event)
    requires e == NextEntry(Entries(found), e.event, e.at) && |c.encode(e, nonce)| + 1 <= MAX_LINE
    ensures var line := c.encode(e, nonce) + [NEWLINE];
            Scan(c, file + line) == Some(found + [Located(e, Reference(|file|, |line|, e.sequence, e.hash))])
  {
    hide Scan;
    var text := c.encode(e, nonce);
    var longer := file + (text + [NEWLINE]);
    ScanContinues(c, file, text + [NEWLINE]);
    assert longer[|file|..|longer| - 1] == text;
    LineEndIs(longer, |file|, |longer| - 1);
    ScanEnds(c, longer, |found| + 1, e.hash);
    var l := Located(e, Reference(|file|, |longer| - |file|, |found| + 1, e.hash));
    assert [l] + [] == [l];
  }

  // ----- References -----

  /** The references of a scan lie one after the other and cover the file. */
  lemma {:induction false} ReferencesTile(c: Codec, file: seq<Byte>, offset: nat, sequence: nat, head: Digest, i: nat)
    requires offset <= |file| && ScanFrom(c, file, offset, sequence, head).Some?
    requires i < |ScanFrom(c, file, offset, sequence, head).value|
    ensures var found := ScanFrom(c, file, offset, sequence, head).value;
            var r := found[i].reference;
            && r.offset == (if i == 0 then offset else found[i - 1].reference.offset + found[i - 1].reference.length)
            && (i == |found| - 1 ==> r.offset + r.length == |file|)
            && 1 < r.length <= MAX_LINE && offset <= r.offset && r.offset + r.length <= |file|
            && r.sequence == sequence + 1 + i && r.hash == found[i].entry.hash
            && file[r.offset + r.length - 1] == NEWLINE
            && c.decode(file[r.offset..r.offset + r.length - 1]) == Some(found[i].entry)
            && VerifyEntry(c, found[i].entry, r.sequence, found[i].entry.previous)
    decreases |file| - offset
  {
    hide ScanFrom, VerifyEntry;
    ScanEnds(c, file, sequence, head);
    var e, end, rest := FirstLine(c, file, offset, sequence, head);
    var found := [Located(e, Reference(offset, end + 1 - offset, sequence + 1, e.hash))] + rest;
    if rest == [] {
      NothingMore(c, file, end + 1, sequence + 1, e.hash);
    }
    if i == 0 {
      LinksVerify(c, e, sequence + 1, head);
    } else {
      ReferencesTile(c, file, end + 1, sequence + 1, e.hash, i - 1);
      assert found[i] == rest[i - 1];
      if i > 1 {
        assert found[i - 1] == rest[i - 2];
      }
    }
  }

  lemma NothingMore(c: Codec, file: seq<Byte>, offset: nat, sequence: nat, head: Digest)
    requires offset <= |file| && ScanFrom(c, file, offset, sequence, head) == Some([])
    ensures offset == |file|
  {
  }

  lemma LinksVerify(c: Codec, e: Entry, sequence: nat, head: Digest)
    requires VerifyEntry(c, e, sequence, head)
    ensures e.previous == head && VerifyEntry(c, e, sequence, e.previous)
  {
  }

  /** Reads the entry at a reference, without a scan. */
  function ReadAt(c: Codec, file: seq<Byte>, r: Reference): Option<Entry> {
    if r.length <= 1 || r.length >= MAX_LINE || r.length > |file| || r.offset > |file| - r.length || r.sequence == 0 then None
    else if file[r.offset + r.length - 1] != NEWLINE then None
    else
      var decoded := c.decode(file[r.offset..r.offset + r.length - 1]);
      if decoded.None? || decoded.value.sequence != r.sequence || decoded.value.hash != r.hash
         || !VerifyEntry(c, decoded.value, r.sequence, decoded.value.previous) then None
      else decoded
  }

  /** Every reference of a verified file reads back its own entry, now and after any
      growth of the file. (A line of exactly the maximal length can be scanned but is
      never appended and cannot be read through a reference.) */
  lemma ReferenceReadsBack(c: Codec, file: seq<Byte>, more: seq<Byte>, i: nat)
    requires Scan(c, file).Some? && i < |Scan(c, file).value|
    ensures var l := Scan(c, file).value[i];
            ReadAt(c, file + more, l.reference) == if l.reference.length == MAX_LINE then None else Some(l.entry)
  {
    ReferencesTile(c, file, 0, 0, Genesis, i);
    var r := Scan(c, file).value[i].reference;
    assert (file + more)[r.offset..r.offset + r.length - 1] == file[r.offset..r.offset + r.length - 1];
  }

  /** Whatever has become of the file, a reference of a verified one yields its own entry or
      nothing. */
  lemma ReferenceReadsNothingElse(c: Codec, file: seq<Byte>, i: nat, other: seq<Byte>)
    requires Scan(c, file).Some? && i < |Scan(c, file).value|
    ensures var l := Scan(c, file).value[i];
            ReadAt(c, other, l.reference) == None || ReadAt(c, other, l.reference) == Some(l.entry)
  {
    ReferencesTile(c, file, 0, 0, Genesis, i);
  }

  /** The lengths of the lines add up to the size of the file. */
  function TotalLength(found: seq<Located>): nat {
    if found == [] then 0 else found[0].reference.length + TotalLength(found[1..])
  }

  lemma {:induction false} LengthsAddUp(c: Codec, file: seq<Byte>, offset: nat, sequence: nat, head: Digest)
    requires offset <= |file| && ScanFrom(c, file, offset, sequence, head).Some?
    ensures TotalLength(ScanFrom(c, file, offset, sequence, head).value) == |file| - offset
    decreases |file| - offset
  {
    if offset < |file| {
      var end := LineEnd(file, offset);
      var e := c.decode(file[offset..end]).value;
      LengthsAddUp(c, file, end + 1, sequence + 1, e.hash);
      var rest := ScanFrom(c, file, end + 1, sequence + 1, e.hash).value;
      assert ScanFrom(c, file, offset, sequence, head).value
          == [Located(e, Reference(offset, end + 1 - offset, sequence + 1, e.hash))] + rest;
      assert ([Located(e, Reference(offset, end + 1 - offset, sequence + 1, e.hash))] + rest)[1..] == rest;
    }
  }
}
