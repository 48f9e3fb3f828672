/** The appends of the endpoint machine are what the bytes of the audit file allow. */
module AuditRefinement {
  import opened Wrappers
  import opened Records
  import opened AuditScan
  import opened Endpoint

  /** The machine's outcome for a write that stopped after so many bytes of the line,
      or that went through. */
  function OutcomeOf(written: nat, length: nat, synced: bool, at: Time): Outcome {
    if written == length then (if synced then Stored(at) else Uncertain(at)) else Lost
  }

  /** After any write of the next line, the file either no longer verifies, because the
      line is torn, and then no process starts on it again; or it holds exactly the log
      that the machine has on disk after the corresponding outcome. */
  lemma WriteRefinesAppend(c: Codec, file: seq<Byte>, s: State, event: Event, at: Time, nonce: nat, written: nat, synced: bool)
    requires CodecOk(c) && c.admits(event) && !s.poisoned && s.tail == []
    requires Scan(c, file).Some? && Entries(Scan(c, file).value) == s.known
    requires var line := c.encode(NextEntry(s.known, event, at), nonce) + [NEWLINE];
             |line| <= MAX_LINE && written <= |line|
    ensures var line := c.encode(NextEntry(s.known, event, at), nonce) + [NEWLINE];
            var found := Scan(c, file + line[..written]);
            if 0 < written < |line| then found.None?
            else found.Some? && Entries(found.value) == Disk(Append(s, event, OutcomeOf(written, |line|, synced, at)).0)
  {
    hide Scan, CodecOk;
    OneMoreLine(c, file, event, at, nonce, written);
    var e := NextEntry(s.known, event, at);
    var line := c.encode(e, nonce) + [NEWLINE];
    EntriesOfSnoc(Scan(c, file).value, Located(e, Reference(|file|, |line|, e.sequence, e.hash)));
    assert s.known + [] == s.known && s.known + [e] + [] == s.known + [e];
  }
}
