/** The audit log object: appends under a quota, failed and torn writes, reopening,
    and indexed reads, over the bytes of the file. */
module AuditLog {
  import opened Wrappers
  import opened Records
  import opened AuditScan

  // ----- Which entries a log may hold -----

  /** One append that reached the disk: its entry, and whether it reported success. */
  datatype Attempt = Attempt(entry: Entry, ok: bool)

  /** The log holds the entries of all successful attempts in order, and in between
      at most one whole entry for each attempt that reported failure. */
  ghost predicate Keeps(attempts: seq<Attempt>, log: seq<Entry>) {
    if attempts == [] then log == []
    else
      var n, a := |attempts| - 1, attempts[|attempts| - 1];
      (log != [] && log[|log| - 1] == a.entry && Keeps(attempts[..n], log[..|log| - 1]))
      || (!a.ok && Keeps(attempts[..n], log))
  }

  lemma KeepsSnoc(attempts: seq<Attempt>, log: seq<Entry>, a: Attempt)
    requires Keeps(attempts, log)
    ensures Keeps(attempts + [a], log + [a.entry])
    ensures !a.ok ==> Keeps(attempts + [a], log)
  {
    assert (attempts + [a])[..|attempts|] == attempts && (log + [a.entry])[..|log|] == log;
  }

  function Successes(attempts: seq<Attempt>): seq<Entry> {
    if attempts == [] then []
    else
      var before, a := Successes(attempts[..|attempts| - 1]), attempts[|attempts| - 1];
      if a.ok then before + [a.entry] else before
  }

  ghost predicate IsSubsequence(a: seq<Entry>, b: seq<Entry>) {
    if a == [] then true
    else b != [] && ((a[|a| - 1] == b[|b| - 1] && IsSubsequence(a[..|a| - 1], b[..|b| - 1])) || IsSubsequence(a, b[..|b| - 1]))
  }

  lemma {:induction false} SubsequenceOfLonger(a: seq<Entry>, b: seq<Entry>, e: Entry)
    requires IsSubsequence(a, b)
    ensures IsSubsequence(a, b + [e]) && IsSubsequence(a + [e], b + [e])
  {
    assert (b + [e])[..|b|] == b && (a + [e])[..|a|] == a;
  }

  /** Nothing that succeeded is missing or out of order. */
  lemma {:induction false} SuccessesAreKept(attempts: seq<Attempt>, log: seq<Entry>)
    requires Keeps(attempts, log)
    ensures IsSubsequence(Successes(attempts), log)
    decreases |attempts|
  {
    if attempts != [] {
      var n, a := |attempts| - 1, attempts[|attempts| - 1];
      if log != [] && log[|log| - 1] == a.entry && Keeps(attempts[..n], log[..|log| - 1]) {
        SuccessesAreKept(attempts[..n], log[..|log| - 1]);
        SubsequenceOfLonger(Successes(attempts[..n]), log[..|log| - 1], a.entry);
        assert log == log[..|log| - 1] + [a.entry];
      } else {
        SuccessesAreKept(attempts[..n], log);
      }
    }
  }

  function Failures(attempts: seq<Attempt>): seq<Entry> {
    if attempts == [] then []
    else
      var before, a := Failures(attempts[..|attempts| - 1]), attempts[|attempts| - 1];
      if a.ok then before else before + [a.entry]
  }

  /** What is there besides comes from failed attempts, one entry for one failure. */
  lemma {:induction false} OthersFailed(attempts: seq<Attempt>, log: seq<Entry>)
    requires Keeps(attempts, log)
    ensures multiset(Successes(attempts)) <= multiset(log) <= multiset(Successes(attempts)) + multiset(Failures(attempts))
    decreases |attempts|
  {
    if attempts != [] {
      var n, a := |attempts| - 1, attempts[|attempts| - 1];
      if log != [] && log[|log| - 1] == a.entry && Keeps(attempts[..n], log[..|log| - 1]) {
        OthersFailed(attempts[..n], log[..|log| - 1]);
        assert log == log[..|log| - 1] + [a.entry];
      } else {
        OthersFailed(attempts[..n], log);
      }
    }
  }

  // ----- The log object -----

  /** How the write of a line ends: whole and synchronized, or with an error after any
      number of its bytes. */
  datatype Write = Whole | Broken(bytes: nat)

  datatype Reason = InvalidEvent | Closed | Uncertain | TooLarge | QuotaExceeded

  datatype Appended = Stored(entry: Entry, reference: Reference) | Rejected(reason: Reason) | WriteFailed

  class Log {
    const codec: Codec
    var file: seq<Byte>
    var isOpen: bool
    var failed: bool
    var sequence: nat
    var head: Digest
    var size: nat
    var maxBytes: nat

    /** `whole` is the part of the file that verifies, `torn` what a failed write left
        behind it. */
    ghost var whole: seq<Byte>
    ghost var torn: seq<Byte>
    ghost var attempts: seq<Attempt>
    ghost var handedOut: set<Located>

    ghost function Found(): seq<Located>
      requires Scan(codec, whole).Some?
      reads `whole
    {
      Scan(codec, whole).value
    }

    /** The torn bytes begin the line of the last attempt, which failed. */
    ghost predicate TornOk()
      requires Scan(codec, whole).Some?
      reads `whole, `torn, `attempts
    {
      torn == []
      || (attempts != [] && !attempts[|attempts| - 1].ok && Keeps(attempts[..|attempts| - 1], Entries(Found()))
          && var e := attempts[|attempts| - 1].entry;
          e == NextEntry(Entries(Found()), e.event, e.at) && codec.admits(e.event)
          && exists nonce :: |codec.encode(e, nonce) + [NEWLINE]| < MAX_LINE && torn <= codec.encode(e, nonce) + [NEWLINE])
    }

    ghost predicate Valid()
      reads this
    {
      && CodecOk(codec)
      && file == whole + torn
      && Scan(codec, whole).Some?
      && Keeps(attempts, Entries(Found()))
      && TornOk()
      && (forall l :: l in handedOut ==> l in Found() && l.reference.length < MAX_LINE)
      && (isOpen && !failed ==>
            torn == [] && sequence == |Found()| && head == Head(Entries(Found())) && size == |file|)
    }

    /** A new file, not opened yet. */
    constructor (c: Codec)
      requires CodecOk(c)
      ensures Valid() && !isOpen && file == [] && attempts == []
    {
      codec := c;
      file, isOpen, failed, sequence, head, size, maxBytes := [], false, false, 0, Genesis, 0, 0;
      whole, torn, attempts, handedOut := [], [], [], {};
    }

    /** Every file that still scans holds what its appends reported. */
    lemma ScanKeepsAttempts()
      requires Valid()
      ensures var found := Scan(codec, file);
              found.Some? ==> Keeps(attempts, Entries(found.value)) && Found() <= found.value && |found.value| <= |Found()| + 1
    {
      hide Scan, CodecOk, Keeps;
      if torn == [] {
        assert file == whole;
      } else {
        AfterTearing();
      }
    }

    /** What is left of a failed append: nothing, its whole entry, or an unreadable file. */
    lemma AfterTearing()
      requires Valid() && torn != []
      ensures attempts != []
      ensures var e := attempts[|attempts| - 1].entry;
              Scan(codec, file).None?
              || (Keeps(attempts, Entries(Found()) + [e])
                  && |Scan(codec, file).value| == |Found()| + 1 && Found() <= Scan(codec, file).value
                  && Entries(Scan(codec, file).value) == Entries(Found()) + [e])
    {
      hide Scan, CodecOk, Keeps;
      var e := attempts[|attempts| - 1].entry;
      var nonce :| |codec.encode(e, nonce) + [NEWLINE]| < MAX_LINE && torn <= codec.encode(e, nonce) + [NEWLINE];
      var line := codec.encode(e, nonce) + [NEWLINE];
      OneMoreLine(codec, whole, e.event, e.at, nonce, |torn|);
      assert torn == line[..|torn|];
      if |torn| == |line| {
        var l := Located(e, Reference(|whole|, |line|, e.sequence, e.hash));
        EntriesOfSnoc(Found(), l);
        KeepsSnoc(attempts[..|attempts| - 1], Entries(Found()), attempts[|attempts| - 1]);
        assert attempts == attempts[..|attempts| - 1] + [attempts[|attempts| - 1]];
      }
    }

    /** Opening verifies the whole file, for one writer at a time. With a positive quota it
        is refused exactly when a failed write left part of a line; otherwise the log is what it was, plus at most the entry of the
        append that failed last. */
    method Open(quota: int) returns (ok: bool)
      requires Valid()
      modifies this
      ensures Valid() && file == old(file) && attempts == old(attempts) && handedOut == old(handedOut)
      ensures isOpen == (old(isOpen) || ok)
      ensures ok <==> !old(isOpen) && 0 < quota && Scan(codec, file).Some?
      ensures old(isOpen) ==> Found() == old(Found()) && failed == old(failed) && size == old(size) && maxBytes == old(maxBytes)
      ensures ok ==> !failed && maxBytes == quota && Found() == Scan(codec, file).value
      ensures ok ==> old(Found()) <= Found() && |Found()| <= |old(Found())| + 1
      ensures !ok && !old(isOpen) && 0 < quota ==> old(torn) != [] && NEWLINE !in old(torn)
    {
      hide Valid;
      if quota <= 0 || isOpen { return false; }
      ok := OpenVerified(quota);
    }

    method OpenVerified(quota: nat) returns (ok: bool)
      requires Valid() && !isOpen
      modifies this
      ensures Valid() && file == old(file) && attempts == old(attempts) && handedOut == old(handedOut) && isOpen == ok
      ensures ok <==> Scan(codec, file).Some?
      ensures ok ==> !failed && maxBytes == quota && Found() == Scan(codec, file).value
      ensures ok ==> old(Found()) <= Found() && |Found()| <= |old(Found())| + 1
      ensures !ok ==> old(torn) != [] && NEWLINE !in old(torn)
    {
      hide CodecOk, Keeps, Scan, TornOk, Entries, Head;
      ScanKeepsAttempts();
      var visited;
      ok, visited, sequence, head := ScanAndVerify(codec, file);
      if ok {
        whole, torn := file, [];
        size, maxBytes, failed, isOpen := |file|, quota, false, true;
        assert file == whole + torn;
        NothingTorn();
      } else {
        TornHasNoNewline();
      }
    }

    lemma TornHasNoNewline()
      requires Valid() && Scan(codec, file).None?
      ensures torn != [] && NEWLINE !in torn
    {
      hide Scan, Keeps;
      assert torn == [] ==> file == whole;
      var e := attempts[|attempts| - 1].entry;
      var nonce :| |codec.encode(e, nonce) + [NEWLINE]| < MAX_LINE && torn <= codec.encode(e, nonce) + [NEWLINE];
      OneMoreLine(codec, whole, e.event, e.at, nonce, |torn|);
      assert torn == (codec.encode(e, nonce) + [NEWLINE])[..|torn|];
      assert codec.decode(codec.encode(e, nonce)) == Some(e);
    }

    method Close()
      requires Valid()
      modifies `isOpen
      ensures Valid() && !isOpen
    {
      isOpen := false;
    }

    /** The line that the next append writes. */
    ghost function LineOf(event: Event, at: Time, nonce: nat): seq<Byte>
      requires Scan(codec, whole).Some?
      reads `whole
    {
      codec.encode(NextEntry(Entries(Found()), event, at), nonce) + [NEWLINE]
    }

    /** Appends one entry. An event that is admitted is stored on an open handle that has
        not failed if its line is short enough, the file stays within the quota with it, and
        the write goes through; otherwise it is refused for the first of these reasons that
        is missing. What is refused leaves no trace; what succeeds is the next link of the
        chain; a failed write makes the handle unusable until the log is reopened. */
    method AppendWithReference(event: Event, at: Time, nonce: nat, write: Write) returns (r: Appended)
      requires Valid()
      modifies this
      ensures Valid() && isOpen == old(isOpen) && maxBytes == old(maxBytes)
      ensures var admits, ready := codec.admits(event), old(isOpen) && !old(failed);
              var length := |old(LineOf(event, at, nonce))|;
              && (r == Rejected(InvalidEvent) <==> !admits)
              && (r == Rejected(Closed) <==> admits && !old(isOpen))
              && (r == Rejected(Uncertain) <==> admits && old(isOpen) && old(failed))
              && (r == Rejected(TooLarge) <==> admits && ready && length >= MAX_LINE)
              && (r == Rejected(QuotaExceeded) <==> admits && ready && length < MAX_LINE && |old(file)| + length > maxBytes)
              && (r.Stored? <==> admits && ready && length < MAX_LINE && |old(file)| + length <= maxBytes && write.Whole?)
      ensures r.Rejected? ==> file == old(file) && attempts == old(attempts) && failed == old(failed) && size == old(size)
                              && handedOut == old(handedOut) && whole == old(whole) && sequence == old(sequence) && head == old(head)
      ensures r.Stored? ==> !failed && Found() == old(Found()) + [Located(r.entry, r.reference)]
                            && r.entry == NextEntry(Entries(old(Found())), event, at)
                            && attempts == old(attempts) + [Attempt(r.entry, true)]
                            && file == old(file) + old(LineOf(event, at, nonce)) && |file| <= maxBytes
                            && handedOut == old(handedOut) + {Located(r.entry, r.reference)}
      ensures r.WriteFailed? ==> write.Broken? && failed && Found() == old(Found()) && handedOut == old(handedOut)
                                 && attempts == old(attempts) + [Attempt(NextEntry(Entries(Found()), event, at), false)]
    {
      hide CodecOk, Keeps, Scan, TornOk;
      if !codec.admits(event) { return Rejected(InvalidEvent); }
      if !isOpen { return Rejected(Closed); }
      if failed { return Rejected(Uncertain); }
      var entry := NextEntryHere(event, at);
      var line := codec.encode(entry, nonce) + [NEWLINE];
      assert entry == NextEntry(Entries(Found()), event, at);
      if |line| >= MAX_LINE { return Rejected(TooLarge); }
      if size > maxBytes || |line| > maxBytes - size { return Rejected(QuotaExceeded); }
      match write
      case Whole =>
        r := Finish(entry, line, nonce);
      case Broken(bytes) =>
        Tear(entry, line, nonce, if bytes < |line| then bytes else |line|);
        r := WriteFailed;
    }

    function NextEntryHere(event: Event, at: Time): Entry
      reads this
    {
      Entry(sequence + 1, at, event, head, EntryDigest(sequence + 1, at, event, head))
    }

    method Finish(entry: Entry, line: seq<Byte>, nonce: nat) returns (r: Appended)
      requires Valid() && isOpen && !failed && codec.admits(entry.event)
      requires entry == NextEntry(Entries(Found()), entry.event, entry.at)
      requires line == codec.encode(entry, nonce) + [NEWLINE] && |line| < MAX_LINE && size <= maxBytes && |line| <= maxBytes - size
      modifies this
      ensures Valid() && isOpen && !failed && maxBytes == old(maxBytes)
      ensures r.Stored? && r.entry == entry && Found() == old(Found()) + [Located(entry, r.reference)]
      ensures attempts == old(attempts) + [Attempt(entry, true)] && handedOut == old(handedOut) + {Located(entry, r.reference)}
      ensures file == old(file) + line && size == |file|
    {
      hide CodecOk, Keeps, Scan, TornOk, Entries;
      var reference := Reference(size, |line|, entry.sequence, entry.hash);
      OneMoreLine(codec, whole, entry.event, entry.at, nonce, |line|);
      assert line[..|line|] == line && file == whole;
      KeepsSnoc(attempts, Entries(Found()), Attempt(entry, true));
      EntriesOfSnoc(Found(), Located(entry, reference));
      file := file + line;
      whole := file;
      assert file == whole + torn;
      sequence, head, size := entry.sequence, entry.hash, size + |line|;
      attempts, handedOut := attempts + [Attempt(entry, true)], handedOut + {Located(entry, reference)};
      NothingTorn();
      return Stored(entry, reference);
    }

    lemma NothingTorn()
      requires Scan(codec, whole).Some? && torn == []
      ensures TornOk()
    {
    }

    method Tear(entry: Entry, line: seq<Byte>, nonce: nat, bytes: nat)
      requires Valid() && isOpen && !failed && codec.admits(entry.event)
      requires entry == NextEntry(Entries(Found()), entry.event, entry.at)
      requires line == codec.encode(entry, nonce) + [NEWLINE] && |line| < MAX_LINE && bytes <= |line|
      modifies this
      ensures Valid() && isOpen == old(isOpen) && failed && maxBytes == old(maxBytes)
      ensures whole == old(whole) && handedOut == old(handedOut) && attempts == old(attempts) + [Attempt(entry, false)]
      ensures torn == line[..bytes]
    {
      hide CodecOk, Keeps, Scan;
      KeepsSnoc(attempts, Entries(Found()), Attempt(entry, false));
      assert (attempts + [Attempt(entry, false)])[..|attempts|] == attempts;
      assert file == whole;
      file, torn, failed := file + line[..bytes], line[..bytes], true;
      attempts := attempts + [Attempt(entry, false)];
    }

    method CurrentHead() returns (r: Option<(nat, Digest)>)
      requires Valid()
      ensures r.Some? <==> isOpen && !failed
      ensures r.Some? ==> r.value == (|Found()|, Head(Entries(Found())))
    {
      return if isOpen && !failed then Some((sequence, head)) else None;
    }

    method Usage() returns (r: Option<(nat, nat)>)
      requires Valid()
      ensures r.Some? <==> isOpen && !failed
      ensures r.Some? ==> r.value.0 == TotalLength(Found()) == |file| && r.value.1 == maxBytes
    {
      if !isOpen || failed { return None; }
      LengthsAddUp(codec, whole, 0, 0, Genesis);
      assert file == whole;
      return Some((size, maxBytes));
    }

    /** Reads one entry by its reference. Every reference that was ever handed out
        reads back its own entry, across later appends, failures and reopenings. */
    method ReadReference(reference: Reference) returns (r: Option<Entry>)
      requires Valid()
      ensures !isOpen || failed ==> r == None
      ensures isOpen && !failed ==> r == ReadAt(codec, file, reference)
      ensures isOpen && !failed ==> forall l :: l in handedOut && l.reference == reference ==> r == Some(l.entry)
    {
      hide CodecOk, Keeps, Scan;
      if !isOpen || failed { return None; }
      r := ReadAt(codec, file, reference);
      forall l | l in handedOut && l.reference == reference ensures r == Some(l.entry) {
        var i :| 0 <= i < |Found()| && Found()[i] == l;
        ReferenceReadsBack(codec, whole, [], i);
        assert whole + [] == file;
      }
    }
  }
}
