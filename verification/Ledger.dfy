/** What every event of an audit log must satisfy at the point where it is
    appended, and what follows for the whole log. */
module Ledger {
  import opened Wrappers
  import opened Text
  import opened Records
  import opened Replay

  /** A verdict that lets a message cross: allow, or an approved review. */
  predicate Opens(gate: Gate, decision: Decision, reason: string) {
    (decision == Allow && gate == Judged(Allow, reason)) || (decision == ReviewApproved && gate == Cleared(reason))
  }

  predicate Denies(gate: Gate, reason: string) {
    gate == Judged(Deny, reason) || gate == Screened(Deny, reason)
  }

  /** The released envelope carries the request that was submitted. */
  predicate EnvelopeFits(name: string, record: RequestRecord, requestID: string, envelope: Envelope) {
    var c := envelope.content;
    c.version == 1 && c.messageID == record.messageID && c.requestID == requestID && c.source == name
    && ValidIdentifier(c.destination) && ValidIdentifier(c.conversationID)
    && c.createdAt == record.createdAt && c.bodyDigest == record.bodyDigest == TextDigest(c.body)
    && record.hash == Binding(SendInput(c.destination, c.body, requestID, c.conversationID))
  }

  /** The event repeats the fields of the envelope it names. */
  predicate Carries(name: string, meta: Meta, requestID: string, conversationID: string, body: string, digest: Digest) {
    digest.EnvelopeDigest?
    && var c := digest.envelope.content;
    meta == Meta(Inbound, c.source, c.destination, c.messageID) && c.destination == name
    && c.requestID == requestID && c.conversationID == conversationID && c.body == body && c.bodyDigest == TextDigest(body)
  }

  /** The scope whose evaluation an event takes part in. */
  function EventScope(event: Event): Scope {
    match event
    case DeterministicGuard(meta, _, _) => ScopeOf(meta)
    case ModelGuard(meta, _, _, _, _) => ScopeOf(meta)
    case GuardFailed(meta, _) => ScopeOf(meta)
    case ApprovalRequired(meta, _) => ScopeOf(meta)
    case ApprovalConsumed(meta, _) => ScopeOf(meta)
    case MessageBlocked(meta, _, _) => ScopeOf(meta)
    case OutboundReleased(meta, _, _, _) => ScopeOf(meta)
    case InboundAccepted(meta, _, _, _, _, _, _) => ScopeOf(meta)
    case _ => Scope(Outbound, "")
  }

  /** The condition under which an endpoint called `name` appends an event when
      its index holds `box` and the evaluation of the event's scope stands at `gate`. */
  predicate AdmissibleAt(name: string, box: Mailbox, gate: Gate, event: Event) {
    match event
    case MessageSubmitted(meta, requestID, conversationID, _) =>
      meta.direction == Outbound && meta.source == name && meta.messageID != ""
      && ValidIdentifier(meta.destination) && ValidIdentifier(conversationID)
      && SendKey(requestID) !in box.outbox.requests
      && forall k :: k in box.outbox.requests ==> box.outbox.requests[k].messageID != meta.messageID
    case DeterministicGuard(_, decision, reason) => IsVerdict(decision) && reason != ""
    case ModelGuard(_, decision, reason, _, _) =>
      IsVerdict(decision) && reason != "" && gate.Screened? && gate.decision != Deny
    case GuardFailed(_, _) => gate.Screened? && gate.decision != Deny
    case ApprovalRequired(_, reason) => gate == Judged(Review, reason)
    case ApprovalConsumed(_, reason) => gate == Judged(Review, reason)
    case MessageBlocked(meta, requestID, code) =>
      Denies(gate, code)
      && (meta.direction == Outbound ==>
            SendKey(requestID) in box.outbox.requests
            && var record := box.outbox.requests[SendKey(requestID)];
            !record.final && record.messageID == meta.messageID)
    case OutboundReleased(meta, requestID, envelope, reason) =>
      Opens(gate, envelope.content.guardDecision, reason)
      && meta == Meta(Outbound, name, envelope.content.destination, envelope.content.messageID)
      && SendKey(requestID) in box.outbox.requests
      && var record := box.outbox.requests[SendKey(requestID)];
      !record.final && EnvelopeFits(name, record, requestID, envelope)
    case InboundVerified(meta, requestID, conversationID, body, digest) =>
      Carries(name, meta, requestID, conversationID, body, digest)
      && meta.messageID !in box.intake.received
      && (meta.messageID in box.intake.seenInbound ==> box.intake.seenInbound[meta.messageID] == digest)
    case InboundAccepted(meta, requestID, conversationID, body, digest, decision, reason) =>
      Carries(name, meta, requestID, conversationID, body, digest)
      && Opens(gate, decision, reason)
      && meta.messageID !in box.intake.received
      && meta.messageID in box.intake.seenInbound && box.intake.seenInbound[meta.messageID] == digest
    case AcknowledgementIssued(meta, ack) =>
      meta.messageID in box.intake.received
      && var digest := box.intake.received[meta.messageID].envelopeDigest;
      digest.EnvelopeDigest? && digest.envelope.content.source == meta.source
      && ack.content == AckContentFor(name, meta.messageID, meta.source, box.intake.received[meta.messageID])
    case DeliveryConfirmed(meta, ack) =>
      meta.messageID in box.outbox.sent && meta.direction == Outbound
      && meta.destination == box.outbox.sent[meta.messageID].content.destination
      && ack.content.messageID == meta.messageID
      && ack.content.source == box.outbox.sent[meta.messageID].content.destination
      && ack.content.envelopeDigest == EnvelopeDigest(box.outbox.sent[meta.messageID])
    case _ => true
  }

  /** The key under which the index is read does not matter, see KeyIsIrrelevant. */
  predicate Admissible(name: string, log: seq<Entry>, event: Event) {
    AdmissibleAt(name, IndexOf(0, log).box, GateOf(log, EventScope(event)), event)
  }

  /** Entry `i` extends the chain before it with an admissible event. */
  predicate EntryOk(name: string, log: seq<Entry>, i: nat)
    requires i < |log|
  {
    log[i] == NextEntry(log[..i], log[i].event, log[i].at) && Admissible(name, log[..i], log[i].event)
  }

  predicate LogOk(name: string, log: seq<Entry>) {
    forall i :: 0 <= i < |log| ==> EntryOk(name, log, i)
  }

  lemma LogOkSnoc(name: string, log: seq<Entry>, event: Event, at: Time)
    requires LogOk(name, log) && Admissible(name, log, event)
    ensures LogOk(name, log + [NextEntry(log, event, at)])
  {
    var after := log + [NextEntry(log, event, at)];
    forall i | 0 <= i < |after| ensures EntryOk(name, after, i) {
      assert after[..i] == log[..i];
      assert log[..|log|] == log;
      if i < |log| {
        assert EntryOk(name, log, i);
      }
    }
  }

  lemma LogOkPrefix(name: string, log: seq<Entry>, n: nat)
    requires LogOk(name, log) && n <= |log|
    ensures LogOk(name, log[..n])
  {
    forall i | 0 <= i < n ensures EntryOk(name, log[..n], i) {
      assert log[..n][..i] == log[..i];
      assert EntryOk(name, log, i);
    }
  }

  // ----- The index of an admissible log -----

  predicate DistinctMessages(inbox: seq<Message>) {
    forall i, j :: 0 <= i < j < |inbox| ==> inbox[i].messageID != inbox[j].messageID
  }

  predicate Ascending(inbox: seq<Message>) {
    forall i, j :: 0 <= i < j < |inbox| ==> inbox[i].sequence < inbox[j].sequence
  }

  predicate RequestsOk(outbox: Outbox) {
    && (forall k :: k in outbox.requests ==> k.SendKey? && outbox.requests[k].messageID != "")
    && (forall k, k' :: k in outbox.requests && k' in outbox.requests && k != k' ==>
                          outbox.requests[k].messageID != outbox.requests[k'].messageID)
    && (forall k :: k in outbox.requests && !outbox.requests[k].final ==> outbox.requests[k].output == None)
  }

  predicate SentOk(outbox: Outbox) {
    forall m :: m in outbox.sent ==>
                  var key := SendKey(outbox.sent[m].content.requestID);
                  outbox.sent[m].content.messageID == m && key in outbox.requests
                  && outbox.requests[key].final && outbox.requests[key].messageID == m
  }

  predicate FinalsOk(outbox: Outbox) {
    forall k :: k in outbox.requests && outbox.requests[k].final ==>
                  var output := outbox.requests[k].output;
                  output.Some? && output.value.messageID == outbox.requests[k].messageID
                  && (output.value.envelope.Some? ==>
                        output.value.messageID in outbox.sent
                        && outbox.sent[output.value.messageID] == output.value.envelope.value)
  }

  predicate OutboxOk(outbox: Outbox) {
    RequestsOk(outbox) && SentOk(outbox) && FinalsOk(outbox)
  }

  /** The inbox holds one message for each accepted message ID. */
  predicate IntakeOk(intake: Intake, length: nat) {
    && DistinctMessages(intake.inbox)
    && Ascending(intake.inbox)
    && (forall i :: 0 <= i < |intake.inbox| ==> intake.inbox[i].sequence <= length && intake.inbox[i].messageID in intake.received)
    && (forall m :: m in intake.received ==> exists i :: 0 <= i < |intake.inbox| && intake.inbox[i].messageID == m)
  }

  /** Two intakes that differ in nothing but the receipts kept with accepted messages. */
  predicate SameButReceipts(a: Intake, b: Intake) {
    && a.seenInbound == b.seenInbound && a.inbox == b.inbox && a.received.Keys == b.received.Keys
    && forall m :: m in a.received ==> WithAck(a.received[m], None, 0, NoDigest) == WithAck(b.received[m], None, 0, NoDigest)
  }

  lemma KeyStep(key: Key, key': Key, a: Intake, b: Intake, decisions: map<Scope, Verdict>, entry: Entry)
    requires SameButReceipts(a, b)
    ensures SameButReceipts(ApplyIntake(key, a, decisions, entry), ApplyIntake(key', b, decisions, entry))
  {
  }

  /** The signing key decides only which receipts the index keeps. */
  lemma {:induction false} KeyIsIrrelevant(key: Key, key': Key, log: seq<Entry>)
    ensures IndexOf(key, log).box.outbox == IndexOf(key', log).box.outbox
    ensures SameButReceipts(IndexOf(key, log).box.intake, IndexOf(key', log).box.intake)
    ensures IndexOf(key, log).decisions == IndexOf(key', log).decisions
  {
    if log != [] {
      var n := |log| - 1;
      KeyIsIrrelevant(key, key', log[..n]);
      var a, b := IndexOf(key, log[..n]), IndexOf(key', log[..n]);
      KeyStep(key, key', a.box.intake, b.box.intake, a.decisions, log[n]);
    }
  }

  lemma RequestsStep(name: string, box: Mailbox, gate: Gate, decisions: map<Scope, Verdict>, entry: Entry)
    requires RequestsOk(box.outbox) && AdmissibleAt(name, box, gate, entry.event)
    ensures RequestsOk(ApplyOutbox(box.outbox, decisions, entry))
  {
  }

  lemma SentStep(name: string, box: Mailbox, gate: Gate, decisions: map<Scope, Verdict>, entry: Entry)
    requires RequestsOk(box.outbox) && SentOk(box.outbox) && AdmissibleAt(name, box, gate, entry.event)
    ensures SentOk(ApplyOutbox(box.outbox, decisions, entry))
  {
  }

  lemma FinalsStep(name: string, box: Mailbox, gate: Gate, decisions: map<Scope, Verdict>, entry: Entry)
    requires OutboxOk(box.outbox) && AdmissibleAt(name, box, gate, entry.event)
    ensures FinalsOk(ApplyOutbox(box.outbox, decisions, entry))
  {
  }

  lemma IntakeStep(name: string, box: Mailbox, gate: Gate, decisions: map<Scope, Verdict>, entry: Entry, length: nat)
    requires IntakeOk(box.intake, length) && AdmissibleAt(name, box, gate, entry.event)
    requires entry.sequence == length + 1
    ensures IntakeOk(ApplyIntake(0, box.intake, decisions, entry), length + 1)
  {
    hide ReasonOf, DecisionOf, AckVerifies;
    var before, after := box.intake, ApplyIntake(0, box.intake, decisions, entry);
    if entry.event.InboundAccepted? {
      var last := |before.inbox|;
      assert after.inbox[last] == AcceptedMessage(entry);
      forall m | m in after.received
        ensures exists i :: 0 <= i < |after.inbox| && after.inbox[i].messageID == m
      {
        if m in before.received {
          var i :| 0 <= i < last && before.inbox[i].messageID == m;
          assert after.inbox[i] == before.inbox[i];
        } else {
          assert after.inbox[last].messageID == m;
        }
      }
    } else {
      assert after.inbox == before.inbox && after.received.Keys == before.received.Keys;
    }
  }

  lemma {:induction false} IndexStaysOk(name: string, log: seq<Entry>)
    requires LogOk(name, log)
    ensures OutboxOk(IndexOf(0, log).box.outbox) && IntakeOk(IndexOf(0, log).box.intake, |log|)
  {
    if log != [] {
      var n := |log| - 1;
      LogOkPrefix(name, log, n);
      IndexStaysOk(name, log[..n]);
      assert EntryOk(name, log, n);
      var gate := GateOf(log[..n], EventScope(log[n].event));
      var index := IndexOf(0, log[..n]);
      RequestsStep(name, index.box, gate, index.decisions, log[n]);
      SentStep(name, index.box, gate, index.decisions, log[n]);
      FinalsStep(name, index.box, gate, index.decisions, log[n]);
      IntakeStep(name, index.box, gate, index.decisions, log[n], n);
    }
  }
}
