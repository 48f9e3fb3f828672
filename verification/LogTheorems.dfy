/** What every log written by an endpoint guarantees, whatever operations,
    restarts and failures produced it. */
module LogTheorems {
  import opened Wrappers
  import opened Text
  import opened Records
  import opened Replay
  import opened Ledger

  // ----- Nothing that the index has recorded is lost or changed later -----

  predicate SameIdentity(a: RequestRecord, b: RequestRecord) {
    a.hash == b.hash && a.messageID == b.messageID && a.createdAt == b.createdAt && a.bodyDigest == b.bodyDigest
  }

  predicate OutboxGrows(a: Outbox, b: Outbox) {
    && (forall k :: k in a.requests ==> k in b.requests && SameIdentity(a.requests[k], b.requests[k])
                                        && (a.requests[k].final ==> b.requests[k] == a.requests[k]))
    && (forall m :: m in a.sent ==> m in b.sent && b.sent[m] == a.sent[m])
    && (forall m :: m in a.confirmed ==> m in b.confirmed)
  }

  predicate SameAcceptance(a: ReceivedRecord, b: ReceivedRecord) {
    a.envelopeDigest == b.envelopeDigest && a.receivedAt == b.receivedAt && a.sequence == b.sequence && a.head == b.head
  }

  predicate IntakeGrows(a: Intake, b: Intake) {
    && (forall m :: m in a.seenInbound ==> m in b.seenInbound && b.seenInbound[m] == a.seenInbound[m])
    && (forall m :: m in a.received ==> m in b.received && SameAcceptance(a.received[m], b.received[m]))
    && a.inbox <= b.inbox
  }

  lemma OutboxGrowsStep(name: string, box: Mailbox, gate: Gate, decisions: map<Scope, Verdict>, entry: Entry)
    requires OutboxOk(box.outbox) && AdmissibleAt(name, box, gate, entry.event)
    ensures OutboxGrows(box.outbox, ApplyOutbox(box.outbox, decisions, entry))
  {
  }

  lemma IntakeGrowsStep(name: string, box: Mailbox, gate: Gate, decisions: map<Scope, Verdict>, entry: Entry)
    requires AdmissibleAt(name, box, gate, entry.event) && box.intake.received.Keys <= box.intake.seenInbound.Keys
    ensures IntakeGrows(box.intake, ApplyIntake(0, box.intake, decisions, entry))
    ensures ApplyIntake(0, box.intake, decisions, entry).received.Keys <= ApplyIntake(0, box.intake, decisions, entry).seenInbound.Keys
  {
  }

  lemma {:induction false} ReceivedWasSeen(name: string, log: seq<Entry>)
    requires LogOk(name, log)
    ensures IndexOf(0, log).box.intake.received.Keys <= IndexOf(0, log).box.intake.seenInbound.Keys
  {
    if log != [] {
      var n := |log| - 1;
      LogOkPrefix(name, log, n);
      ReceivedWasSeen(name, log[..n]);
      assert EntryOk(name, log, n);
      var index := IndexOf(0, log[..n]);
      IntakeGrowsStep(name, index.box, GateOf(log[..n], EventScope(log[n].event)), index.decisions, log[n]);
    }
  }

  /** The index of a longer log holds everything that the index of a prefix holds. */
  lemma {:induction false} IndexGrows(name: string, log: seq<Entry>, i: nat, j: nat)
    requires LogOk(name, log) && i <= j <= |log|
    ensures OutboxGrows(IndexOf(0, log[..i]).box.outbox, IndexOf(0, log[..j]).box.outbox)
    ensures IntakeGrows(IndexOf(0, log[..i]).box.intake, IndexOf(0, log[..j]).box.intake)
    decreases j - i
  {
    if i < j {
      var n := j - 1;
      IndexGrows(name, log, i, n);
      LogOkPrefix(name, log, n);
      IndexStaysOk(name, log[..n]);
      ReceivedWasSeen(name, log[..n]);
      assert EntryOk(name, log, n);
      IndexAfter(log, n);
      var index := IndexOf(0, log[..n]);
      var gate := GateOf(log[..n], EventScope(log[n].event));
      OutboxGrowsStep(name, index.box, gate, index.decisions, log[n]);
      IntakeGrowsStep(name, index.box, gate, index.decisions, log[n]);
      IntakeGrowsTransitively(IndexOf(0, log[..i]).box.intake, index.box.intake, IndexOf(0, log[..j]).box.intake);
    }
  }

  lemma IntakeGrowsTransitively(a: Intake, b: Intake, c: Intake)
    requires IntakeGrows(a, b) && IntakeGrows(b, c)
    ensures IntakeGrows(a, c)
  {
    assert a.inbox == b.inbox[..|a.inbox|] == c.inbox[..|a.inbox|];
  }

  lemma IndexAfter(log: seq<Entry>, n: nat)
    requires n < |log|
    ensures IndexOf(0, log[..n + 1]) == Apply(0, IndexOf(0, log[..n]), log[n])
    ensures forall scope :: GateOf(log[..n + 1], scope)
                         == if Evaluates(log[n].event, scope) then GateStep(GateOf(log[..n], scope), log[n].event)
                            else GateOf(log[..n], scope)
  {
    assert log[..n + 1] == log[..n] + [log[n]];
    IndexOfSnoc(0, log[..n], log[n]);
    forall scope {
      GateOfSnoc(log[..n], log[n], scope);
    }
  }

  // ----- Requests -----

  /** A request ID is submitted at most once, and no two requests share a message ID. */
  lemma SubmittedOnce(name: string, log: seq<Entry>, i: nat, j: nat)
    requires LogOk(name, log) && i < j < |log|
    requires log[i].event.MessageSubmitted? && log[j].event.MessageSubmitted?
    ensures log[i].event.requestID != log[j].event.requestID
    ensures log[i].event.meta.messageID != log[j].event.meta.messageID
  {
    IndexAfter(log, i);
    IndexGrows(name, log, i + 1, j);
    assert EntryOk(name, log, j);
    var key := SendKey(log[i].event.requestID);
    assert key in IndexOf(0, log[..i + 1]).box.outbox.requests;
    assert key in IndexOf(0, log[..j]).box.outbox.requests;
  }

  /** The event that settles a request: a release, or a denial on the way out. */
  predicate Concludes(event: Event, requestID: string) {
    match event
    case OutboundReleased(_, r, _, _) => r == requestID
    case MessageBlocked(meta, r, _) => meta.direction == Outbound && r == requestID
    case _ => false
  }

  /** At most one release or outbound denial exists for each request. */
  lemma ConcludedOnce(name: string, log: seq<Entry>, i: nat, j: nat, requestID: string)
    requires LogOk(name, log) && i < j < |log|
    requires Concludes(log[i].event, requestID)
    ensures !Concludes(log[j].event, requestID)
  {
    IndexAfter(log, i);
    IndexGrows(name, log, i + 1, j);
    assert EntryOk(name, log, j);
    var key := SendKey(requestID);
    assert key in IndexOf(0, log[..i + 1]).box.outbox.requests && IndexOf(0, log[..i + 1]).box.outbox.requests[key].final;
  }

  /** Every indexed request goes back to its submission. */
  lemma {:induction false} SubmissionOf(name: string, log: seq<Entry>, key: ClaimKey) returns (i: nat)
    requires LogOk(name, log) && key in IndexOf(0, log).box.outbox.requests
    ensures i < |log| && log[i].event.MessageSubmitted? && key == SendKey(log[i].event.requestID)
    ensures var record := IndexOf(0, log).box.outbox.requests[key];
            var e := log[i].event;
            record.hash == Binding(SendInput(e.meta.destination, e.text, e.requestID, e.conversationID))
            && record.messageID == e.meta.messageID && record.createdAt == log[i].at
            && record.bodyDigest == TextDigest(e.text)
  {
    var n := |log| - 1;
    LogOkPrefix(name, log, n);
    assert EntryOk(name, log, n);
    if log[n].event.MessageSubmitted? && key == SendKey(log[n].event.requestID) {
      i := n;
    } else {
      i := SubmissionOf(name, log[..n], key);
    }
  }

  /** A released envelope carries exactly the destination, conversation, text and
      message ID under which its request was submitted, and it comes later. */
  lemma ReleaseMatchesSubmission(name: string, log: seq<Entry>, i: nat, j: nat)
    requires LogOk(name, log) && i < |log| && j < |log|
    requires log[i].event.MessageSubmitted? && log[j].event.OutboundReleased?
    requires log[i].event.requestID == log[j].event.requestID
    ensures i < j
    ensures var e, c := log[i].event, log[j].event.envelope.content;
            c.destination == e.meta.destination && c.conversationID == e.conversationID && c.body == e.text
            && c.messageID == e.meta.messageID && c.requestID == e.requestID && c.createdAt == log[i].at
  {
    assert EntryOk(name, log, j);
    LogOkPrefix(name, log, j);
    var k := SubmissionOf(name, log[..j], SendKey(log[j].event.requestID));
    if i != k {
      SubmittedOnce(name, log, if i < k then i else k, if i < k then k else i);
      assert false;
    }
    assert EntryOk(name, log, i);
    var e, c := log[i].event, log[j].event.envelope.content;
    BindingIsInjective(c.destination, c.conversationID, c.body, e.meta.destination, e.conversationID, e.text);
  }

  // ----- Accepted messages -----

  /** Every message ID is accepted at most once. */
  lemma AcceptedOnce(name: string, log: seq<Entry>, i: nat, j: nat)
    requires LogOk(name, log) && i < j < |log|
    requires log[i].event.InboundAccepted? && log[j].event.InboundAccepted?
    ensures log[i].event.meta.messageID != log[j].event.meta.messageID
  {
    IndexAfter(log, i);
    IndexGrows(name, log, i + 1, j);
    assert EntryOk(name, log, j);
    assert log[i].event.meta.messageID in IndexOf(0, log[..i + 1]).box.intake.received;
  }

  /** The envelope digest that an inbound event binds to its message ID. */
  function Binds(event: Event): Option<(string, Digest)> {
    match event
    case InboundVerified(meta, _, _, _, digest) => Some((meta.messageID, digest))
    case InboundAccepted(meta, _, _, _, digest, _, _) => Some((meta.messageID, digest))
    case _ => None
  }

  /** All verifications and the acceptance of a message ID name one envelope. */
  lemma OneEnvelopePerMessage(name: string, log: seq<Entry>, i: nat, j: nat)
    requires LogOk(name, log) && i <= j < |log|
    requires Binds(log[i].event).Some? && Binds(log[j].event).Some?
    requires Binds(log[i].event).value.0 == Binds(log[j].event).value.0
    ensures Binds(log[i].event) == Binds(log[j].event)
  {
    if i < j {
      var m := Binds(log[i].event).value.0;
      IndexAfter(log, i);
      assert EntryOk(name, log, i);
      IndexGrows(name, log, i + 1, j);
      assert EntryOk(name, log, j);
      assert m in IndexOf(0, log[..i + 1]).box.intake.seenInbound;
    }
  }

  /** The messages that a log accepted, in order. */
  function AcceptedMessages(log: seq<Entry>): seq<Message> {
    if log == [] then []
    else
      var before, last := AcceptedMessages(log[..|log| - 1]), log[|log| - 1];
      if last.event.InboundAccepted? then before + [AcceptedMessage(last)] else before
  }

  lemma {:induction false} InboxIsAccepted(key: Key, log: seq<Entry>)
    ensures IndexOf(key, log).box.intake.inbox == AcceptedMessages(log)
  {
    hide ApplyOutbox, ApplyDecisions, ReasonOf, AckVerifies, AcceptedRecord, AcceptedMessage, WithAck;
    if log != [] {
      InboxIsAccepted(key, log[..|log| - 1]);
    }
  }

  /** The inbox holds exactly the accepted messages, each once, in ascending order. */
  lemma InboxIsExact(name: string, key: Key, log: seq<Entry>)
    requires LogOk(name, log)
    ensures var inbox := IndexOf(key, log).box.intake.inbox;
            inbox == AcceptedMessages(log) && DistinctMessages(inbox) && Ascending(inbox)
  {
    hide LogOk, IndexOf, AcceptedMessages, OutboxOk, DistinctMessages, Ascending;
    KeyIsIrrelevant(key, 0, log);
    IndexStaysOk(name, log);
    InboxIsAccepted(key, log);
  }

  /** Every received record goes back to its acceptance. */
  lemma {:induction false} AcceptanceOf(name: string, log: seq<Entry>, m: string) returns (i: nat)
    requires LogOk(name, log) && m in IndexOf(0, log).box.intake.received
    ensures i < |log| && log[i].event.InboundAccepted? && log[i].event.meta.messageID == m
    ensures var record := IndexOf(0, log).box.intake.received[m];
            record.envelopeDigest == log[i].event.envelopeDigest && record.receivedAt == log[i].at
            && record.sequence == log[i].sequence == i + 1 && record.head == log[i].hash
  {
    var n := |log| - 1;
    LogOkPrefix(name, log, n);
    assert EntryOk(name, log, n);
    if log[n].event.InboundAccepted? && log[n].event.meta.messageID == m {
      i := n;
    } else {
      i := AcceptanceOf(name, log[..n], m);
    }
  }

  /** Every receipt, first or re-issued, states the time, sequence, hash and
      envelope of the one acceptance of its message. */
  lemma ReceiptNamesAcceptance(name: string, log: seq<Entry>, i: nat, j: nat)
    requires LogOk(name, log) && i < |log| && j < |log|
    requires log[i].event.InboundAccepted? && log[j].event.AcknowledgementIssued?
    requires log[i].event.meta.messageID == log[j].event.meta.messageID
    ensures i < j
    ensures var e := log[i].event;
            log[j].event.ack.content
            == UnsignedAck(1, e.meta.messageID, name, e.meta.source, e.envelopeDigest, log[i].at, i + 1, log[i].hash)
  {
    assert EntryOk(name, log, j);
    LogOkPrefix(name, log, j);
    var k := AcceptanceOf(name, log[..j], log[j].event.meta.messageID);
    if i != k {
      AcceptedOnce(name, log, if i < k then i else k, if i < k then k else i);
      assert false;
    }
    assert EntryOk(name, log, i);
  }
}
