/** What one endpoint hands out, another one can take in: when a released envelope is valid
    at its destination, and when a receipt is valid at the source. */
module Exchange {
  import opened Wrappers
  import opened Text
  import opened Records
  import opened Replay
  import opened Ledger
  import opened LogTheorems
  import opened GuardTheorems
  import opened SigningHistory
  import opened Endpoint
  import opened Invariant
  import opened Steps
  import opened Origins
  import opened EvaluationSafety
  import opened RunSafety
  import opened Guarantees
  import opened Sections
  import opened Executions
  import opened InboxReading
  import Reports
  import ReportSafety

  /** Five minutes, in nanoseconds. */
  const FIVE_MINUTES := 300_000_000_000

  // ----- Releases -----

  /** A released envelope names the last entry of the evaluation that let it pass, the model
      that judged it and the policy it was judged under. */
  lemma ReleaseNamesItsVerdict(s: State, i: nat) returns (m: nat, j: nat)
    requires Reachable(s) && i < |Disk(s)| && Disk(s)[i].event.OutboundReleased?
    ensures var log, e, c := Disk(s), Disk(s)[i].event, Disk(s)[i].event.envelope.content;
            && m <= j < i && IsJudgement(log, ScopeOf(e.meta), m) && Quiet(log, ScopeOf(e.meta), m, j) && Quiet(log, ScopeOf(e.meta), j, i)
            && log[m].event.model == c.guardModel && log[m].event.policyVersion == c.policyVersion && !Blank(c.policyVersion)
            && c.sourceSequence == j + 1 && c.sourceHead == log[j].hash
            && (c.guardDecision == Allow ==> j == m) && (c.guardDecision == ReviewApproved ==> IsClearance(log, ScopeOf(e.meta), j))
            && e.envelope.signature.signer in s.keys && EnvelopeVerifies(e.envelope.signature.signer, e.envelope)
  {
    hide Reachable, Inv, LogOk, Evaluates, IsVerdict, Blank;
    ReportSafety.ReachableTold(s);
    LogIsAlwaysOk(s);
    var log, e, c := Disk(s), Disk(s)[i].event, Disk(s)[i].event.envelope.content;
    var scope, mark, approved := ScopeOf(e.meta), Mark(c.sourceSequence, c.sourceHead), c.guardDecision == ReviewApproved;
    assert Reports.EntryTold(s.keys, log, i);
    m, j := EvidenceOf(log, i, scope, c.guardModel, c.policyVersion, mark, approved);
    JudgementIsVerdict(s.config.name, log, m);
    NumberedHere(s.config.name, log, j);
  }

  lemma EvidenceOf(log: seq<Entry>, i: nat, scope: Scope, model: string, policy: string, mark: Mark, approved: bool)
    returns (m: nat, j: nat)
    requires i < |log| && Reports.Evidence(log[..i], scope, model, policy, mark, approved)
    ensures m <= j < i && log[m].event.ModelGuard? && ScopeOf(log[m].event.meta) == scope
    ensures log[m].event.model == model && log[m].event.policyVersion == policy
    ensures Quiet(log, scope, m, j) && Quiet(log, scope, j, i)
    ensures log[j].sequence == mark.sequence && log[j].hash == mark.head
    ensures if approved then IsClearance(log, scope, j) else m == j
  {
    hide Evaluates;
    var prefix := log[..i];
    m, j :| && Reports.Judges(prefix, scope, m, model, policy) && m <= j && Quiet(prefix, scope, j, |prefix|)
            && Reports.Names(prefix, j, mark.sequence, mark.head)
            && (if approved then m < j && Quiet(prefix, scope, m, j) && IsClearance(prefix, scope, j) else m == j);
    assert prefix[m] == log[m] && prefix[j] == log[j];
    forall k | m < k < j ensures !Evaluates(log[k].event, scope) {
      assert prefix[k] == log[k];
    }
    forall k | j < k < i ensures !Evaluates(log[k].event, scope) {
      assert prefix[k] == log[k];
    }
  }

  lemma JudgementIsVerdict(name: string, log: seq<Entry>, m: nat)
    requires LogOk(name, log) && m < |log| && log[m].event.ModelGuard?
    ensures IsVerdict(log[m].event.decision)
  {
    hide IndexOf, GateOf;
    assert EntryOk(name, log, m);
  }

  lemma NumberedHere(name: string, log: seq<Entry>, i: nat)
    requires LogOk(name, log) && i < |log|
    ensures log[i].sequence == i + 1 && log[i].hash.EntryDigest?
  {
    hide Admissible;
    assert EntryOk(name, log, i);
  }

  /** The parts of a released envelope that do not depend on its destination. */
  lemma ReleaseIsWellFormed(s: State, i: nat)
    requires Reachable(s) && i < |Disk(s)| && Disk(s)[i].event.OutboundReleased?
    ensures var c := Disk(s)[i].event.envelope.content;
            && c.version == 1 && c.source == s.config.name
            && ValidIdentifier(c.messageID) && ValidIdentifier(c.requestID) && ValidIdentifier(c.conversationID)
            && ValidIdentifier(c.destination) && ValidText(c.body, MAX_MESSAGE_BYTES) && c.bodyDigest == TextDigest(c.body)
            && c.sourceSequence != 0 && c.sourceHead != NoDigest
            && (c.guardDecision == Allow || c.guardDecision == ReviewApproved)
  {
    hide Reachable, Inv, LogOk, AdmissibleAt, IndexOf, GateOf, ValidIdentifier, ValidText, Quiet, IsJudgement, IsClearance, Blank;
    LogIsAlwaysOk(s);
    var log := Disk(s);
    var m, j := ReleaseNamesItsVerdict(s, i);
    NumberedHere(s.config.name, log, j);
    var k := ReleasedSubmission(s.config.name, log, i);
    ReportSafety.ReachableTold(s);
    assert Reports.EntryTold(s.keys, log, k);
  }

  lemma ReleasedSubmission(name: string, log: seq<Entry>, i: nat) returns (k: nat)
    requires LogOk(name, log) && i < |log| && log[i].event.OutboundReleased?
    ensures k < i && log[k].event.MessageSubmitted?
    ensures var e, c := log[k].event, log[i].event.envelope.content;
            c.destination == e.meta.destination && c.conversationID == e.conversationID && c.body == e.text
            && c.messageID == e.meta.messageID && c.requestID == e.requestID && c.createdAt == log[k].at
            && c.version == 1 && c.source == name && c.bodyDigest == TextDigest(c.body)
            && (c.guardDecision == Allow || c.guardDecision == ReviewApproved)
  {
    hide IndexOf, GateOf, LogOk;
    LogOkPrefix(name, log, i);
    ReleaseFits(name, log, i);
    k := SubmissionOf(name, log[..i], SendKey(log[i].event.requestID));
    assert log[..i][k] == log[k];
    ReleaseMatchesSubmission(name, log, k, i);
  }

  lemma ReleaseFits(name: string, log: seq<Entry>, i: nat)
    requires LogOk(name, log) && i < |log| && log[i].event.OutboundReleased?
    ensures SendKey(log[i].event.requestID) in IndexOf(0, log[..i]).box.outbox.requests
    ensures var c := log[i].event.envelope.content;
            c.version == 1 && c.source == name && c.bodyDigest == TextDigest(c.body)
            && (c.guardDecision == Allow || c.guardDecision == ReviewApproved)
  {
    hide IndexOf, GateOf;
    assert EntryOk(name, log, i);
  }

  /** A released envelope is valid at its destination exactly if the destination pins the key
      that signed it, admits a body of its size, accepts the lengths of policy version and
      model, and looks at it not before five minutes before it was created and not after the
      age that it allows. */
  lemma ReleasedIsValid(s: State, i: nat, peer: Config, now: Time)
    requires Reachable(s) && i < |Disk(s)| && Disk(s)[i].event.OutboundReleased? && ValidIdentifier(s.config.name)
    requires peer.name == Disk(s)[i].event.envelope.content.destination && 0 < peer.maxMessageBytes
    ensures var envelope := Disk(s)[i].event.envelope;
            var c := envelope.content;
            ValidEnvelope(peer, envelope, now)
            <==> && s.config.name in peer.peers && peer.peers[s.config.name] == envelope.signature.signer
                 && ByteLength(c.body) <= peer.maxMessageBytes
                 && ByteLength(c.policyVersion) <= 128 && !Blank(c.guardModel) && ByteLength(c.guardModel) <= 128
                 && c.createdAt - FIVE_MINUTES <= now <= c.createdAt + peer.maxMessageAge
  {
    hide Reachable, Inv, ValidIdentifier, Quiet, IsJudgement, IsClearance, Blank, ByteLength, Disk;
    ReleaseIsWellFormed(s, i);
    var m, j := ReleaseNamesItsVerdict(s, i);
  }

  /** Such an envelope can be brought to its acceptance at a destination that serves, has a
      place left and has not seen the message. */
  lemma ReleasedCanBeAccepted(s: State, i: nat, t: State, now: Time) returns (t': State, message: Message)
    requires Reachable(s) && i < |Disk(s)| && Disk(s)[i].event.OutboundReleased? && ValidIdentifier(s.config.name)
    requires Reachable(t) && t.mode.Serving? && !t.closing && !t.poisoned && t.semaphore < t.config.maxConcurrent
    requires var envelope := Disk(s)[i].event.envelope;
             var c := envelope.content;
             && t.config.name == c.destination
             && s.config.name in t.config.peers && t.config.peers[s.config.name] == envelope.signature.signer
             && ByteLength(c.body) <= t.config.maxMessageBytes
             && ByteLength(c.policyVersion) <= 128 && !Blank(c.guardModel) && ByteLength(c.guardModel) <= 128
             && c.createdAt - FIVE_MINUTES <= now <= c.createdAt + t.config.maxMessageAge
             && ReceiveKey(c.messageID) !in t.active && c.messageID !in t.box.intake.received && c.messageID !in t.box.intake.seenInbound
    ensures Reachable(t') && |t.known| < message.sequence == |t'.known|
    ensures ReceiveKey(Disk(s)[i].event.envelope.content.messageID) in t'.ops
  {
    hide Reachable, Inv, ValidIdentifier, ValidEnvelope, ByteLength, Blank, Disk, Startable;
    ReachableSafe(t);
    ServesStartable(t);
    SomeBytes(t.config);
    ReleasedIsValid(s, i, t.config, now);
    t', message := ReceiveCanBeAccepted(t, Disk(s)[i].event.envelope, now);
  }

  lemma SomeBytes(config: Config)
    requires Startable(config)
    ensures 0 < config.maxMessageBytes
  {
  }

  // ----- Receipts -----

  lemma ReceiptIsWellFormed(s: State, i: nat)
    requires Reachable(s) && i < |Disk(s)| && Disk(s)[i].event.AcknowledgementIssued?
    ensures var ack := Disk(s)[i].event.ack;
            var c := ack.content;
            && c.version == 1 && c.source == s.config.name && ValidIdentifier(c.messageID)
            && c.envelopeDigest != NoDigest && c.sequence != 0 && c.head != NoDigest
            && ack.signature.signer in s.keys && AckVerifies(ack.signature.signer, ack)
  {
    hide Reachable, Inv, LogOk, ValidIdentifier, SignedLocally, ValidText, Blank, ByteLength;
    LogIsAlwaysOk(s);
    RebuildAlwaysSucceeds(s);
    var log := Disk(s);
    ReceiptSigner(s.keys, log, i);
    var j := IssuedFor(s.config.name, log, i);
    NumberedHere(s.config.name, log, j);
    InboundIsDecent(s, j);
  }

  lemma ReceiptSigner(keys: seq<Key>, log: seq<Entry>, i: nat)
    requires SignedLocally(keys, log) && i < |log| && log[i].event.AcknowledgementIssued?
    ensures var ack := log[i].event.ack; ack.signature.signer in keys && AckVerifies(ack.signature.signer, ack)
  {
  }

  lemma IssuedFor(name: string, log: seq<Entry>, i: nat) returns (j: nat)
    requires LogOk(name, log) && i < |log| && log[i].event.AcknowledgementIssued?
    ensures ReceiptNames(name, log, j, log[i].event.ack.content) && log[j].event.envelopeDigest.EnvelopeDigest?
    ensures log[j].event.envelopeDigest.envelope.content.messageID == log[i].event.ack.content.messageID
  {
    hide LogOk, IndexOf, GateOf;
    assert AckLogged(log, log[i].event.ack);
    j := LoggedReceipt(name, log, log[i].event.ack);
    AcceptanceCarriesHere(name, log, j);
  }

  lemma AcceptanceCarriesHere(name: string, log: seq<Entry>, j: nat)
    requires LogOk(name, log) && j < |log| && log[j].event.InboundAccepted?
    ensures var e := log[j].event; Carries(name, e.meta, e.requestID, e.conversationID, e.body, e.envelopeDigest)
  {
    hide IndexOf, GateOf, Carries;
    assert EntryOk(name, log, j);
  }

  /** A receipt is valid at the source exactly if the source pins the key that signed it, and
      looks at it not before five minutes before the acceptance and not after the age that it
      allows. */
  lemma ReceiptIsValid(s: State, i: nat, peer: Config, now: Time)
    requires Reachable(s) && i < |Disk(s)| && Disk(s)[i].event.AcknowledgementIssued? && ValidIdentifier(s.config.name)
    requires peer.name == Disk(s)[i].event.ack.content.destination
    ensures var ack := Disk(s)[i].event.ack;
            ValidAck(peer, ack, now)
            <==> && s.config.name in peer.peers && peer.peers[s.config.name] == ack.signature.signer
                 && ack.content.receivedAt - FIVE_MINUTES <= now <= ack.content.receivedAt + peer.maxMessageAge
  {
    hide Reachable, Inv, ValidIdentifier, Disk;
    ReceiptIsWellFormed(s, i);
  }
}
