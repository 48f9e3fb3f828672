/** The records of the message protocol and of the audit chain.

    Digests and signatures are symbolic: a digest is the value it was computed
    from, a signature names its signing key and the value it covers. Encoding a
    record as JSON before hashing or signing is the identity. */
module Records {
  import opened Wrappers
  import opened Text

  /** A public key. The holder of the private key is whoever signs with it. */
  type Key = nat

  /** A point in time on an integer clock. */
  type Time = int

  datatype Direction = Outbound | Inbound

  /** Decision texts. Guards answer with the first three; an envelope from the wire may hold any. */
  datatype Decision = Allow | Review | Deny | ReviewApproved | Unrecognized(text: string)

  predicate IsVerdict(d: Decision) {
    d.Allow? || d.Review? || d.Deny?
  }

  datatype Digest =
    | NoDigest
    | Genesis
    | TextDigest(text: string)
    | EnvelopeDigest(envelope: Envelope)
    | EntryDigest(sequence: nat, at: Time, event: Event, previous: Digest)

  datatype UnsignedEnvelope = UnsignedEnvelope(
    version: int, messageID: string, requestID: string, conversationID: string,
    source: string, destination: string, createdAt: Time,
    body: string, bodyDigest: Digest,
    policyVersion: string, guardModel: string, guardDecision: Decision,
    sourceSequence: nat, sourceHead: Digest)

  datatype Envelope = Envelope(content: UnsignedEnvelope, signature: Signature)

  datatype UnsignedAck = UnsignedAck(
    version: int, messageID: string, source: string, destination: string,
    envelopeDigest: Digest, receivedAt: Time, sequence: nat, head: Digest)

  datatype Ack = Ack(content: UnsignedAck, signature: Signature)

  datatype UnsignedRotation = UnsignedRotation(identity: string, previous: Key, next: Key, createdAt: Time)

  datatype Rotation = Rotation(content: UnsignedRotation, previousSignature: Signature, newSignature: Signature)

  datatype UnsignedCheckpoint = UnsignedCheckpoint(
    version: int, identity: string, publicKey: Key, sequence: nat, head: Digest, deployment: string, createdAt: Time)

  datatype Checkpoint = Checkpoint(content: UnsignedCheckpoint, signature: Signature)

  datatype Signed =
    | EnvelopeContent(envelope: UnsignedEnvelope)
    | AckContent(ack: UnsignedAck)
    | RotationContent(rotation: UnsignedRotation)
    | CountersignedRotation(rotation: UnsignedRotation, previousSignature: Signature)
    | CheckpointContent(checkpoint: UnsignedCheckpoint)

  datatype Signature = Signature(signer: Key, value: Signed)

  /** The details that every event about one message carries. */
  datatype Meta = Meta(direction: Direction, source: string, destination: string, messageID: string)

  datatype Event =
    | MessageSubmitted(meta: Meta, requestID: string, conversationID: string, text: string)
    | DeterministicGuard(meta: Meta, decision: Decision, reason: string)
    | ModelGuard(meta: Meta, decision: Decision, reason: string, model: string, policyVersion: string)
    | GuardFailed(meta: Meta, code: string)
    | ApprovalRequired(meta: Meta, reason: string)
    | ApprovalConsumed(meta: Meta, reason: string)
    | MessageBlocked(meta: Meta, requestID: string, code: string)
    | OutboundReleased(meta: Meta, requestID: string, envelope: Envelope, reason: string)
    | InboundVerified(meta: Meta, requestID: string, conversationID: string, body: string, envelopeDigest: Digest)
    | InboundAccepted(meta: Meta, requestID: string, conversationID: string, body: string, envelopeDigest: Digest,
                      decision: Decision, reason: string)
    | AcknowledgementIssued(meta: Meta, ack: Ack)
    | DeliveryConfirmed(meta: Meta, ack: Ack)
    | RotationPrepared(rotation: Rotation)
    | RotationCompleted(previous: Key, next: Key)
    | Notice(kind: string)

  datatype Entry = Entry(sequence: nat, at: Time, event: Event, previous: Digest, hash: Digest)

  /** The hash that closes a chain of entries. */
  function Head(log: seq<Entry>): Digest {
    if log == [] then Genesis else log[|log| - 1].hash
  }

  /** The entry that an append at the end of `log` writes. */
  function NextEntry(log: seq<Entry>, event: Event, at: Time): Entry {
    Entry(|log| + 1, at, event, Head(log), EntryDigest(|log| + 1, at, event, Head(log)))
  }

  function SignEnvelope(key: Key, content: UnsignedEnvelope): Envelope {
    Envelope(content, Signature(key, EnvelopeContent(content)))
  }

  predicate EnvelopeVerifies(key: Key, envelope: Envelope) {
    envelope.signature == Signature(key, EnvelopeContent(envelope.content))
  }

  function SignAck(key: Key, content: UnsignedAck): Ack {
    Ack(content, Signature(key, AckContent(content)))
  }

  predicate AckVerifies(key: Key, ack: Ack) {
    ack.signature == Signature(key, AckContent(ack.content))
  }

  datatype SendInput = SendInput(destination: string, text: string, requestID: string, conversationID: string)

  function Binding(input: SendInput): Digest {
    TextDigest(BindingText(input.destination, input.conversationID, input.text))
  }

  datatype Status = Released | Denied | ReviewRequired | Accepted

  datatype SendOutput = SendOutput(
    status: Status, messageID: string, requestID: string, bodyDigest: Digest, decision: Decision, reason: string,
    envelope: Option<Envelope>, sequence: nat, head: Digest)

  datatype ReceiveOutput = ReceiveOutput(
    status: Status, messageID: string, decision: Decision, reason: string,
    ack: Option<Ack>, sequence: nat, head: Digest)

  datatype ConfirmOutput = ConfirmOutput(messageID: string, sequence: nat, head: Digest)

  datatype Message = Message(
    messageID: string, conversationID: string, source: string, destination: string,
    body: string, bodyDigest: Digest, receivedAt: Time, sequence: nat)

  /** The protocol action that an operator approves. */
  datatype Approval = Approval(messageID: string, direction: Direction, source: string, destination: string, bodyDigest: Digest)
}
