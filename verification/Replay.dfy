/** The mailbox index and its reconstruction from the audit log. */
module Replay {
  import opened Wrappers
  import opened Records

  /** What an operation claims while it runs. */
  datatype ClaimKey = SendKey(requestID: string) | ReceiveKey(messageID: string) | ConfirmKey(messageID: string)

  /** The string under which the program files a claim. */
  function ClaimKeyText(key: ClaimKey): string {
    match key
    case SendKey(id) => "send:" + id
    case ReceiveKey(id) => "receive:" + id
    case ConfirmKey(id) => "confirm:" + id
  }

  /** Different claims have different strings, whatever the identifiers. */
  lemma ClaimKeyTextIsInjective(a: ClaimKey, b: ClaimKey)
    requires ClaimKeyText(a) == ClaimKeyText(b)
    ensures a == b
  {
    var s, t := ClaimKeyText(a), ClaimKeyText(b);
    assert s[0] == t[0];
    match a
    case SendKey(id) => assert s[5..] == id && (b.SendKey? ==> t[5..] == b.requestID);
    case ReceiveKey(id) => assert s[8..] == id && (b.ReceiveKey? ==> t[8..] == b.messageID);
    case ConfirmKey(id) => assert s[8..] == id && (b.ConfirmKey? ==> t[8..] == b.messageID);
  }

  datatype RequestRecord = RequestRecord(
    hash: Digest, messageID: string, createdAt: Time, bodyDigest: Digest, output: Option<SendOutput>, final: bool)

  /** What a read of an absent request yields. */
  const NoRequest := RequestRecord(NoDigest, "", 0, NoDigest, None, false)

  datatype ReceivedRecord = ReceivedRecord(
    envelopeDigest: Digest, receivedAt: Time, sequence: nat, head: Digest, output: ReceiveOutput)

  /** What the source side of transfers knows. */
  datatype Outbox = Outbox(
    requests: map<ClaimKey, RequestRecord>, sent: map<string, Envelope>, confirmed: map<string, ConfirmOutput>)

  /** What the destination side of transfers knows. */
  datatype Intake = Intake(
    received: map<string, ReceivedRecord>, seenInbound: map<string, Digest>, inbox: seq<Message>)

  datatype Mailbox = Mailbox(outbox: Outbox, intake: Intake)

  const EmptyMailbox := Mailbox(Outbox(map[], map[], map[]), Intake(map[], map[], []))

  datatype Scope = Scope(direction: Direction, messageID: string)

  datatype Verdict = Verdict(decision: Decision, reason: string)

  /** The mailbox under reconstruction and the last guard verdict of each scope. */
  datatype Index = Index(box: Mailbox, decisions: map<Scope, Verdict>)

  function ScopeOf(meta: Meta): Scope {
    Scope(meta.direction, meta.messageID)
  }

  function DecisionOf(decisions: map<Scope, Verdict>, scope: Scope): Verdict {
    if scope in decisions then decisions[scope] else Verdict(Unrecognized(""), "")
  }

  /** A model allow does not lift a deterministic review. */
  function EffectiveVerdict(deterministic: Verdict, model: Verdict): Verdict {
    if deterministic.decision == Review && model.decision == Allow then Verdict(Review, deterministic.reason) else model
  }

  /** The reason an event states, or the one its scope's last verdict gave. */
  function ReasonOf(decisions: map<Scope, Verdict>, meta: Meta, stated: string): string {
    if stated == "" then DecisionOf(decisions, ScopeOf(meta)).reason else stated
  }

  function RequestOf(outbox: Outbox, key: ClaimKey): RequestRecord {
    if key in outbox.requests then outbox.requests[key] else NoRequest
  }

  function ReleasedOutput(envelope: Envelope, reason: string, sequence: nat, head: Digest): SendOutput {
    var c := envelope.content;
    SendOutput(Released, c.messageID, c.requestID, c.bodyDigest, c.guardDecision, reason, Some(envelope), sequence, head)
  }

  function DeniedOutput(messageID: string, requestID: string, bodyDigest: Digest, code: string, sequence: nat, head: Digest): SendOutput {
    SendOutput(Denied, messageID, requestID, bodyDigest, Deny, code, None, sequence, head)
  }

  function AcceptedRecord(entry: Entry, reason: string): ReceivedRecord
    requires entry.event.InboundAccepted?
  {
    var e := entry.event;
    ReceivedRecord(e.envelopeDigest, entry.at, entry.sequence, entry.hash,
                   ReceiveOutput(Accepted, e.meta.messageID, e.decision, reason, None, entry.sequence, entry.hash))
  }

  function AcceptedMessage(entry: Entry): Message
    requires entry.event.InboundAccepted?
  {
    var e := entry.event;
    Message(e.meta.messageID, e.conversationID, e.meta.source, e.meta.destination, e.body, TextDigest(e.body), entry.at, entry.sequence)
  }

  function WithAck(record: ReceivedRecord, ack: Option<Ack>, sequence: nat, head: Digest): ReceivedRecord {
    record.(output := record.output.(ack := ack, sequence := sequence, head := head))
  }

  function ApplyDecisions(decisions: map<Scope, Verdict>, event: Event): map<Scope, Verdict> {
    match event
    case DeterministicGuard(meta, decision, reason) =>
      decisions[ScopeOf(meta) := Verdict(decision, reason)]
    case ModelGuard(meta, decision, reason, _, _) =>
      decisions[ScopeOf(meta) := EffectiveVerdict(DecisionOf(decisions, ScopeOf(meta)), Verdict(decision, reason))]
    case _ => decisions
  }

  function ApplyOutbox(outbox: Outbox, decisions: map<Scope, Verdict>, entry: Entry): Outbox {
    match entry.event
    case MessageSubmitted(meta, requestID, conversationID, text) =>
      var hash := Binding(SendInput(meta.destination, text, requestID, conversationID));
      var record := RequestRecord(hash, meta.messageID, entry.at, TextDigest(text), None, false);
      outbox.(requests := outbox.requests[SendKey(requestID) := record])
    case MessageBlocked(meta, requestID, code) =>
      if meta.direction == Outbound then
        var record := RequestOf(outbox, SendKey(requestID));
        var output := DeniedOutput(meta.messageID, requestID, record.bodyDigest, code, entry.sequence, entry.hash);
        outbox.(requests := outbox.requests[SendKey(requestID) := record.(final := true, output := Some(output))])
      else
        outbox
    case OutboundReleased(meta, requestID, envelope, reason) =>
      var record := RequestOf(outbox, SendKey(requestID));
      var output := ReleasedOutput(envelope, ReasonOf(decisions, meta, reason), entry.sequence, entry.hash);
      outbox.(sent := outbox.sent[envelope.content.messageID := envelope],
              requests := outbox.requests[SendKey(requestID) := record.(final := true, output := Some(output))])
    case DeliveryConfirmed(meta, _) =>
      outbox.(confirmed := outbox.confirmed[meta.messageID := ConfirmOutput(meta.messageID, entry.sequence, entry.hash)])
    case _ => outbox
  }

  function ApplyIntake(key: Key, intake: Intake, decisions: map<Scope, Verdict>, entry: Entry): Intake {
    match entry.event
    case InboundAccepted(meta, _, _, _, _, _, reason) =>
      intake.(received := intake.received[meta.messageID := AcceptedRecord(entry, ReasonOf(decisions, meta, reason))],
              inbox := intake.inbox + [AcceptedMessage(entry)])
    case AcknowledgementIssued(meta, ack) =>
      if meta.messageID in intake.received then
        var kept := if AckVerifies(key, ack) then Some(ack) else None;
        var record := WithAck(intake.received[meta.messageID], kept, entry.sequence, entry.hash);
        intake.(received := intake.received[meta.messageID := record])
      else
        intake
    case InboundVerified(meta, _, _, _, envelopeDigest) =>
      intake.(seenInbound := intake.seenInbound[meta.messageID := envelopeDigest])
    case _ => intake
  }

  /** One step of the reconstruction, for a service that signs with `key`. */
  function Apply(key: Key, index: Index, entry: Entry): Index {
    Index(Mailbox(ApplyOutbox(index.box.outbox, index.decisions, entry),
                  ApplyIntake(key, index.box.intake, index.decisions, entry)),
          ApplyDecisions(index.decisions, entry.event))
  }

  function IndexOf(key: Key, log: seq<Entry>): Index {
    if log == [] then Index(EmptyMailbox, map[]) else Apply(key, IndexOf(key, log[..|log| - 1]), log[|log| - 1])
  }

  lemma IndexOfSnoc(key: Key, log: seq<Entry>, entry: Entry)
    ensures IndexOf(key, log + [entry]) == Apply(key, IndexOf(key, log), entry)
  {
    assert (log + [entry])[..|log|] == log;
  }

  /** The receipt that acknowledges an accepted message. */
  function AckContentFor(name: string, messageID: string, source: string, record: ReceivedRecord): UnsignedAck {
    UnsignedAck(1, messageID, name, source, record.envelopeDigest, record.receivedAt, record.sequence, record.head)
  }

  /** Whether the reconstruction accepts a stored receipt: it must match the
      acceptance and verify under a key of the local history. */
  predicate ReceiptFits(name: string, keys: seq<Key>, intake: Intake, event: Event)
    requires event.AcknowledgementIssued?
  {
    event.meta.messageID in intake.received
    && event.ack.content == AckContentFor(name, event.meta.messageID, event.meta.source, intake.received[event.meta.messageID])
    && exists i :: 0 <= i < |keys| && AckVerifies(keys[i], event.ack)
  }

  /** The reconstruction reaches the end of the log without an error. */
  predicate Replays(name: string, key: Key, keys: seq<Key>, log: seq<Entry>) {
    forall i :: 0 <= i < |log| && log[i].event.AcknowledgementIssued? ==>
                  ReceiptFits(name, keys, IndexOf(key, log[..i]).box.intake, log[i].event)
  }

  /** How far the evaluation of one scope has come. */
  datatype Gate =
    | Idle
    | Screened(decision: Decision, reason: string)
    | Judged(decision: Decision, reason: string)
    | Cleared(reason: string)

  function GateStep(gate: Gate, event: Event): Gate {
    match event
    case DeterministicGuard(_, decision, reason) => Screened(decision, reason)
    case ModelGuard(_, decision, reason, _, _) =>
      if gate.Screened? then
        var verdict := EffectiveVerdict(Verdict(gate.decision, gate.reason), Verdict(decision, reason));
        Judged(verdict.decision, verdict.reason)
      else
        Judged(decision, reason)
    case ApprovalConsumed(_, reason) => Cleared(reason)
    case _ => Idle
  }

  /** Events that begin, continue or end an evaluation of a scope. */
  predicate Evaluates(event: Event, scope: Scope) {
    match event
    case DeterministicGuard(meta, _, _) => ScopeOf(meta) == scope
    case ModelGuard(meta, _, _, _, _) => ScopeOf(meta) == scope
    case GuardFailed(meta, _) => ScopeOf(meta) == scope
    case ApprovalRequired(meta, _) => ScopeOf(meta) == scope
    case ApprovalConsumed(meta, _) => ScopeOf(meta) == scope
    case MessageBlocked(meta, _, _) => ScopeOf(meta) == scope
    case OutboundReleased(meta, _, _, _) => ScopeOf(meta) == scope
    case InboundAccepted(meta, _, _, _, _, _, _) => ScopeOf(meta) == scope
    case _ => false
  }

  function GateOf(log: seq<Entry>, scope: Scope): Gate {
    if log == [] then Idle
    else
      var before := GateOf(log[..|log| - 1], scope);
      var event := log[|log| - 1].event;
      if Evaluates(event, scope) then GateStep(before, event) else before
  }

  lemma GateOfSnoc(log: seq<Entry>, entry: Entry, scope: Scope)
    ensures GateOf(log + [entry], scope)
         == if Evaluates(entry.event, scope) then GateStep(GateOf(log, scope), entry.event) else GateOf(log, scope)
  {
    assert (log + [entry])[..|log|] == log;
  }
}
