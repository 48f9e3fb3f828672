/** One mailbox endpoint as a step machine. A step is one atomic section of the
    program: a claim, one append to the audit log, one update of the maps under
    their lock, or a release. Steps of different operations interleave freely, an
    append may fail in any way the log allows, and the process may crash between
    any two steps. */
module Endpoint {
  import opened Wrappers
  import opened Text
  import opened Records
  import opened Replay
  import opened SigningHistory

  datatype Config = Config(
    name: string, peers: map<string, Key>, maxMessageBytes: nat, maxMessageAge: int,
    maxConcurrent: nat, policyVersion: string)

  /** A position in the audit chain. */
  datatype Mark = Mark(sequence: nat, head: Digest)

  /** The message under evaluation. */
  datatype Job =
    | SendJob(input: SendInput, messageID: string, createdAt: Time)
    | ReceiveJob(envelope: Envelope)

  /** What a caller got back. */
  datatype Answer =
    | SendAnswer(input: SendInput, sendOutput: SendOutput)
    | ReceiveAnswer(envelope: Envelope, receiveOutput: ReceiveOutput)
    | ConfirmAnswer(ack: Ack, confirmOutput: ConfirmOutput)

  /** The point at which a claimed operation stands, with its local variables. */
  datatype Op =
    | SendLookup(input: SendInput)
    | SendSubmit(input: SendInput)
    | SendRecord(input: SendInput, messageID: string, createdAt: Time)
    | Screen(job: Job)
    | CallModel(job: Job, deterministic: Verdict)
    | Decide(job: Job, verdict: Verdict, model: string, mark: Mark)
    | SavePending(job: Job, reason: string)
    | RequireApproval(job: Job, reason: string)
    | ConsumeApproval(job: Job, reason: string, model: string)
    | Finalize(job: Job, verdict: Verdict, model: string, mark: Mark)
    | SendStoreReview(job: Job, output: SendOutput)
    | SendStoreFinal(job: Job, output: SendOutput)
    | ReceiveLookup(envelope: Envelope)
    | ReceiveVerify(envelope: Envelope)
    | ReceiveSeen(envelope: Envelope)
    | ReceiveStore(envelope: Envelope, record: ReceivedRecord, message: Message)
    | IssueAck(envelope: Envelope, record: ReceivedRecord)
    | StoreAck(envelope: Envelope, record: ReceivedRecord)
    | ConfirmAppend(ack: Ack, sent: Envelope)
    | ConfirmStore(ack: Ack, confirmation: ConfirmOutput)
    | Done(answer: Option<Answer>)

  datatype Mode = Down | Serving | Rotating(rotation: Rotation, committed: bool)

  /** The log on disk is `known + tail`: `known` is what the open handle has
      acknowledged, `tail` at most one entry whose append reported failure and
      nevertheless became durable. `keys` and `owned` record which keys the endpoint
      has used, newest first, and ever generated; `answers` what its callers got. */
  datatype State = State(
    config: Config, key: Key, keys: seq<Key>, owned: set<Key>, approved: map<string, Approval>,
    known: seq<Entry>, tail: seq<Entry>, poisoned: bool,
    mode: Mode, closing: bool, box: Mailbox,
    active: map<ClaimKey, Digest>, semaphore: nat, ops: map<ClaimKey, Op>, looked: multiset<(Ack, Envelope)>,
    answers: set<Answer>)

  function Disk(s: State): seq<Entry> {
    s.known + s.tail
  }

  function Initial(config: Config, key: Key): State {
    State(config, key, [key], {key}, map[], [], [], false, Down, false, EmptyMailbox, map[], 0, map[], multiset{}, {})
  }

  // ----- Appends -----

  /** How an append ends: durable, refused without a trace, or failed with the
      entry lost or nevertheless durable. */
  datatype Outcome = Stored(at: Time) | Refused | Lost | Uncertain(at: Time)

  function Append(s: State, event: Event, outcome: Outcome): (r: (State, Option<Entry>)) {
    if s.poisoned then (s, None)
    else
      match outcome
      case Stored(at) =>
        var entry := NextEntry(s.known, event, at);
        (s.(known := s.known + [entry]), Some(entry))
      case Refused => (s, None)
      case Lost => (s.(poisoned := true), None)
      case Uncertain(at) => (s.(poisoned := true, tail := [NextEntry(s.known, event, at)]), None)
  }

  /** What the environment decides in one step of an operation. */
  datatype Choice = Choice(outcome: Outcome, id: string, decision: Decision, reason: string, model: string, ok: bool)

  function At(s: State, key: ClaimKey, op: Op): State {
    s.(ops := s.ops[key := op])
  }

  /** The entry that an append writes when it succeeds. */
  function Written(s: State, event: Event, outcome: Outcome): Entry {
    NextEntry(s.known, event, if outcome.Stored? then outcome.at else 0)
  }

  /** Appends, and continues with `next` or gives up. */
  function AppendThen(s: State, key: ClaimKey, event: Event, outcome: Outcome, next: Op): State {
    var (after, entry) := Append(s, event, outcome);
    At(after, key, if entry.Some? then next else Done(None))
  }

  // ----- Validation -----

  predicate ValidInput(config: Config, input: SendInput) {
    ValidText(input.text, config.maxMessageBytes) && ValidIdentifier(input.destination)
    && ValidIdentifier(input.requestID) && ValidIdentifier(input.conversationID) && input.destination in config.peers
  }

  predicate Recent(config: Config, at: Time, now: Time, tolerance: int) {
    at <= now + tolerance && now - at <= config.maxMessageAge
  }

  /** How far a timestamp may lie in the future. */
  const CLOCK_TOLERANCE := 5 * 60 * 1_000_000_000

  predicate ValidEnvelope(config: Config, envelope: Envelope, now: Time) {
    var c := envelope.content;
    && c.version == 1
    && ValidIdentifier(c.messageID) && ValidIdentifier(c.requestID) && ValidIdentifier(c.conversationID)
    && ValidIdentifier(c.source) && c.destination == config.name
    && ValidText(c.body, config.maxMessageBytes) && c.bodyDigest == TextDigest(c.body)
    && c.sourceSequence != 0 && c.sourceHead != NoDigest
    && !Blank(c.policyVersion) && ByteLength(c.policyVersion) <= 128
    && !Blank(c.guardModel) && ByteLength(c.guardModel) <= 128
    && (c.guardDecision == Allow || c.guardDecision == ReviewApproved)
    && c.source in config.peers && EnvelopeVerifies(config.peers[c.source], envelope)
    && Recent(config, c.createdAt, now, CLOCK_TOLERANCE)
  }

  predicate ValidAck(config: Config, ack: Ack, now: Time) {
    var c := ack.content;
    && c.version == 1 && ValidIdentifier(c.messageID) && ValidIdentifier(c.source) && c.destination == config.name
    && c.envelopeDigest != NoDigest && c.sequence != 0 && c.head != NoDigest
    && Recent(config, c.receivedAt, now, CLOCK_TOLERANCE)
    && c.source in config.peers && AckVerifies(config.peers[c.source], ack)
  }

  // ----- Claims -----

  datatype Refusal = Closed | Conflict | Busy

  datatype ClaimResult = Turned(refusal: Refusal) | Existing(output: Option<SendOutput>) | Granted

  function ClaimStatus(s: State, key: ClaimKey, binding: Digest): ClaimResult {
    if s.closing then Turned(Closed)
    else if key in s.box.outbox.requests && s.box.outbox.requests[key].hash != binding then Turned(Conflict)
    else if key in s.box.outbox.requests && s.box.outbox.requests[key].final then
      Existing(s.box.outbox.requests[key].output)
    else if key in s.active then Turned(if s.active[key] != binding then Conflict else Busy)
    else if s.semaphore < s.config.maxConcurrent then Granted
    else Turned(Busy)
  }

  function Grant(s: State, key: ClaimKey, binding: Digest, op: Op): State {
    s.(active := s.active[key := binding], semaphore := s.semaphore + 1, ops := s.ops[key := op])
  }

  function ClaimSend(s: State, input: SendInput): State {
    if !ValidInput(s.config, input) then s
    else
      match ClaimStatus(s, SendKey(input.requestID), Binding(input))
      case Turned(_) => s
      case Existing(output) =>
        if output.Some? then s.(answers := s.answers + {SendAnswer(input, output.value)}) else s
      case Granted => Grant(s, SendKey(input.requestID), Binding(input), SendLookup(input))
  }

  function ClaimReceive(s: State, envelope: Envelope, now: Time): State {
    var key := ReceiveKey(envelope.content.messageID);
    if ValidEnvelope(s.config, envelope, now) && ClaimStatus(s, key, EnvelopeDigest(envelope)).Granted? then
      Grant(s, key, EnvelopeDigest(envelope), ReceiveLookup(envelope))
    else
      s
  }

  /** Reads the sent envelope and any confirmation, before the claim. */
  function LookupConfirm(s: State, ack: Ack, now: Time): State {
    var m := ack.content.messageID;
    if !ValidAck(s.config, ack, now) || m !in s.box.outbox.sent then s
    else
      var envelope := s.box.outbox.sent[m];
      if ack.content.source != envelope.content.destination || ack.content.envelopeDigest != EnvelopeDigest(envelope) then s
      else if m in s.box.outbox.confirmed then
        s.(answers := s.answers + {ConfirmAnswer(ack, s.box.outbox.confirmed[m])})
      else
        s.(looked := s.looked + multiset{(ack, envelope)})
  }

  /** The claim of one call that has looked up `envelope`. Granted or not, the lookup is used up. */
  function ClaimConfirm(s: State, ack: Ack, envelope: Envelope): State {
    var key := ConfirmKey(ack.content.messageID);
    if (ack, envelope) !in s.looked then s
    else
      var after := s.(looked := s.looked - multiset{(ack, envelope)});
      if ClaimStatus(after, key, ack.content.envelopeDigest).Granted? then
        Grant(after, key, ack.content.envelopeDigest, ConfirmAppend(ack, envelope))
      else
        after
  }

  function Release(s: State, key: ClaimKey): State
    requires key in s.ops && s.ops[key].Done?
  {
    var answers := if s.ops[key].answer.Some? then {s.ops[key].answer.value} else {};
    s.(active := s.active - {key}, ops := s.ops - {key}, answers := s.answers + answers,
       semaphore := if s.semaphore > 0 then s.semaphore - 1 else 0)
  }

  // ----- Steps of an operation -----

  function MetaOf(name: string, job: Job): Meta {
    match job
    case SendJob(input, messageID, _) => Meta(Outbound, name, input.destination, messageID)
    case ReceiveJob(envelope) =>
      Meta(Inbound, envelope.content.source, envelope.content.destination, envelope.content.messageID)
  }

  function BodyOf(job: Job): string {
    match job
    case SendJob(input, _, _) => input.text
    case ReceiveJob(envelope) => envelope.content.body
  }

  function RequestIDOf(job: Job): string {
    match job
    case SendJob(input, _, _) => input.requestID
    case ReceiveJob(envelope) => envelope.content.requestID
  }

  /** The exact action that an operator must have approved. */
  function ApprovalFor(name: string, job: Job): Approval {
    var meta := MetaOf(name, job);
    Approval(meta.messageID, meta.direction, meta.source, meta.destination, TextDigest(BodyOf(job)))
  }

  predicate IsApproved(s: State, approval: Approval) {
    approval.messageID in s.approved && s.approved[approval.messageID] == approval
  }

  function RecordFor(job: Job, output: Option<SendOutput>, final: bool): RequestRecord
    requires job.SendJob?
  {
    RequestRecord(Binding(job.input), job.messageID, job.createdAt, TextDigest(job.input.text), output, final)
  }

  function BaseOutput(job: Job, status: Status, verdict: Verdict, envelope: Option<Envelope>, mark: Mark): SendOutput
    requires job.SendJob?
  {
    SendOutput(status, job.messageID, job.input.requestID, TextDigest(job.input.text), verdict.decision, verdict.reason,
               envelope, mark.sequence, mark.head)
  }

  function BaseReceiveOutput(envelope: Envelope, status: Status, verdict: Verdict, mark: Mark): ReceiveOutput {
    ReceiveOutput(status, envelope.content.messageID, verdict.decision, verdict.reason, None, mark.sequence, mark.head)
  }

  function MarkOf(entry: Entry): Mark {
    Mark(entry.sequence, entry.hash)
  }

  function ReleaseContent(s: State, job: Job, decision: Decision, model: string, mark: Mark): UnsignedEnvelope
    requires job.SendJob?
  {
    UnsignedEnvelope(1, job.messageID, job.input.requestID, job.input.conversationID, s.config.name, job.input.destination,
                     job.createdAt, job.input.text, TextDigest(job.input.text), s.config.policyVersion, model, decision,
                     mark.sequence, mark.head)
  }

  /** A message ID is fresh when no request has it. */
  predicate FreshID(log: seq<Entry>, id: string) {
    ValidIdentifier(id)
    && forall k :: k in IndexOf(0, log).box.outbox.requests ==>
                     IndexOf(0, log).box.outbox.requests[k].messageID != id
  }

  function SendStep(s: State, key: ClaimKey, op: Op, c: Choice): State {
    match op
    case SendLookup(input) =>
      var record := RequestOf(s.box.outbox, key);
      if record.messageID == "" then At(s, key, SendSubmit(input))
      else At(s, key, Screen(SendJob(input, record.messageID, record.createdAt)))
    case SendSubmit(input) =>
      if !c.ok then At(s, key, Done(None))
      else if !FreshID(s.known, c.id) then s
      else
        var meta := Meta(Outbound, s.config.name, input.destination, c.id);
        var event := MessageSubmitted(meta, input.requestID, input.conversationID, input.text);
        AppendThen(s, key, event, c.outcome, SendRecord(input, c.id, Written(s, event, c.outcome).at))
    case SendRecord(input, messageID, createdAt) =>
      var job := SendJob(input, messageID, createdAt);
      var outbox := s.box.outbox.(requests := s.box.outbox.requests[key := RecordFor(job, None, false)]);
      At(s.(box := s.box.(outbox := outbox)), key, Screen(job))
    case SendStoreReview(job, output) =>
      if !job.SendJob? then s
      else
        var outbox := s.box.outbox.(requests := s.box.outbox.requests[key := RecordFor(job, Some(output), false)]);
        At(s.(box := s.box.(outbox := outbox)), key, Done(Some(SendAnswer(job.input, output))))
    case SendStoreFinal(job, output) =>
      if !job.SendJob? then s
      else
        var sent := if output.envelope.Some? then s.box.outbox.sent[job.messageID := output.envelope.value]
                    else s.box.outbox.sent;
        var outbox := s.box.outbox.(sent := sent, requests := s.box.outbox.requests[key := RecordFor(job, Some(output), true)]);
        At(s.(box := s.box.(outbox := outbox)), key, Done(Some(SendAnswer(job.input, output))))
    case _ => s
  }

  function EvaluationStep(s: State, key: ClaimKey, op: Op, c: Choice): State {
    match op
    case Screen(job) =>
      if !IsVerdict(c.decision) || c.reason == "" then s
      else
        var meta, verdict := MetaOf(s.config.name, job), Verdict(c.decision, c.reason);
        var event := DeterministicGuard(meta, c.decision, c.reason);
        AppendThen(s, key, event, c.outcome,
                   if verdict.decision == Deny then Decide(job, verdict, "not_called", MarkOf(Written(s, event, c.outcome)))
                   else CallModel(job, verdict))
    case CallModel(job, deterministic) =>
      var meta := MetaOf(s.config.name, job);
      if !c.ok then
        AppendThen(s, key, GuardFailed(meta, c.reason), c.outcome, Done(None))
      else if !IsVerdict(c.decision) || c.reason == "" then s
      else
        var verdict := EffectiveVerdict(deterministic, Verdict(c.decision, c.reason));
        var event := ModelGuard(meta, c.decision, c.reason, c.model, s.config.policyVersion);
        AppendThen(s, key, event, c.outcome, Decide(job, verdict, c.model, MarkOf(Written(s, event, c.outcome))))
    case Decide(job, verdict, model, mark) =>
      var meta := MetaOf(s.config.name, job);
      if verdict.decision == Deny then
        var event := MessageBlocked(meta, RequestIDOf(job), verdict.reason);
        var blocked := MarkOf(Written(s, event, c.outcome));
        AppendThen(s, key, event, c.outcome,
                   if job.SendJob? then SendStoreFinal(job, BaseOutput(job, Status.Denied, verdict, None, blocked))
                   else Done(Some(ReceiveAnswer(job.envelope, BaseReceiveOutput(job.envelope, Status.Denied, verdict, blocked)))))
      else if verdict.decision == Review then
        if IsApproved(s, ApprovalFor(s.config.name, job)) then At(s, key, ConsumeApproval(job, verdict.reason, model))
        else At(s, key, SavePending(job, verdict.reason))
      else
        At(s, key, Finalize(job, verdict, model, mark))
    case SavePending(job, reason) =>
      At(s, key, if c.ok then RequireApproval(job, reason) else Done(None))
    case RequireApproval(job, reason) =>
      var verdict := Verdict(Review, reason);
      var event := ApprovalRequired(MetaOf(s.config.name, job), reason);
      var pending := MarkOf(Written(s, event, c.outcome));
      AppendThen(s, key, event, c.outcome,
                 if job.SendJob? then SendStoreReview(job, BaseOutput(job, ReviewRequired, verdict, None, pending))
                 else Done(Some(ReceiveAnswer(job.envelope, BaseReceiveOutput(job.envelope, ReviewRequired, verdict, pending)))))
    case ConsumeApproval(job, reason, model) =>
      var event := ApprovalConsumed(MetaOf(s.config.name, job), reason);
      AppendThen(s, key, event, c.outcome,
                 Finalize(job, Verdict(ReviewApproved, reason), model, MarkOf(Written(s, event, c.outcome))))
    case _ => s
  }

  function FinalizeStep(s: State, key: ClaimKey, op: Op, c: Choice): State {
    match op
    case Finalize(job, verdict, model, mark) =>
      var meta := MetaOf(s.config.name, job);
      if job.SendJob? then
        var envelope := SignEnvelope(s.key, ReleaseContent(s, job, verdict.decision, model, mark));
        var event := OutboundReleased(meta, job.input.requestID, envelope, verdict.reason);
        var released := MarkOf(Written(s, event, c.outcome));
        AppendThen(s, key, event, c.outcome, SendStoreFinal(job, BaseOutput(job, Released, verdict, Some(envelope), released)))
      else
        var n := job.envelope.content;
        var digest := EnvelopeDigest(job.envelope);
        var event := InboundAccepted(meta, n.requestID, n.conversationID, n.body, digest, verdict.decision, verdict.reason);
        var e := Written(s, event, c.outcome);
        var record := ReceivedRecord(digest, e.at, e.sequence, e.hash,
                                     BaseReceiveOutput(job.envelope, Accepted, verdict, MarkOf(e)));
        AppendThen(s, key, event, c.outcome,
                   ReceiveStore(job.envelope, record,
                                Message(n.messageID, n.conversationID, n.source, n.destination, n.body, n.bodyDigest,
                                        e.at, e.sequence)))
    case _ => s
  }

  /** Where an inbound message goes, by what is known of its message ID. */
  function AfterLookup(intake: Intake, envelope: Envelope): Op {
    var m := envelope.content.messageID;
    if m in intake.received then
      var record := intake.received[m];
      if record.envelopeDigest != EnvelopeDigest(envelope) then Done(None)
      else if record.output.ack.Some? then Done(Some(ReceiveAnswer(envelope, record.output)))
      else IssueAck(envelope, record)
    else if m in intake.seenInbound && intake.seenInbound[m] != EnvelopeDigest(envelope) then Done(None)
    else ReceiveVerify(envelope)
  }

  function ReceiveStep(s: State, key: ClaimKey, op: Op, c: Choice): State {
    var intake := s.box.intake;
    match op
    case ReceiveLookup(envelope) => At(s, key, AfterLookup(intake, envelope))
    case ReceiveVerify(envelope) =>
      var n := envelope.content;
      AppendThen(s, key,
                 InboundVerified(MetaOf(s.config.name, ReceiveJob(envelope)), n.requestID, n.conversationID, n.body,
                                 EnvelopeDigest(envelope)),
                 c.outcome, ReceiveSeen(envelope))
    case ReceiveSeen(envelope) =>
      var after := intake.(seenInbound := intake.seenInbound[envelope.content.messageID := EnvelopeDigest(envelope)]);
      At(s.(box := s.box.(intake := after)), key, Screen(ReceiveJob(envelope)))
    case ReceiveStore(envelope, record, message) =>
      var after := intake.(received := intake.received[envelope.content.messageID := record], inbox := intake.inbox + [message]);
      At(s.(box := s.box.(intake := after)), key, IssueAck(envelope, record))
    case IssueAck(envelope, record) =>
      var n := envelope.content;
      var ack := SignAck(s.key, UnsignedAck(1, n.messageID, s.config.name, n.source, record.envelopeDigest, record.receivedAt,
                                            record.sequence, record.head));
      var event := AcknowledgementIssued(MetaOf(s.config.name, ReceiveJob(envelope)), ack);
      var e := Written(s, event, c.outcome);
      AppendThen(s, key, event, c.outcome, StoreAck(envelope, WithAck(record, Some(ack), e.sequence, e.hash)))
    case StoreAck(envelope, record) =>
      var after := intake.(received := intake.received[envelope.content.messageID := record]);
      At(s.(box := s.box.(intake := after)), key, Done(Some(ReceiveAnswer(envelope, record.output))))
    case _ => s
  }

  function ConfirmStep(s: State, key: ClaimKey, op: Op, c: Choice): State {
    match op
    case ConfirmAppend(ack, sent) =>
      var m := ack.content.messageID;
      var event := DeliveryConfirmed(Meta(Outbound, sent.content.source, sent.content.destination, m), ack);
      var e := Written(s, event, c.outcome);
      AppendThen(s, key, event, c.outcome, ConfirmStore(ack, ConfirmOutput(m, e.sequence, e.hash)))
    case ConfirmStore(ack, confirmation) =>
      var outbox := s.box.outbox.(confirmed := s.box.outbox.confirmed[ack.content.messageID := confirmation]);
      At(s.(box := s.box.(outbox := outbox)), key, Done(Some(ConfirmAnswer(ack, confirmation))))
    case _ => s
  }

  function Advance(s: State, key: ClaimKey, c: Choice): State
    requires key in s.ops
  {
    match s.ops[key]
    case SendLookup(_) => SendStep(s, key, s.ops[key], c)
    case SendSubmit(_) => SendStep(s, key, s.ops[key], c)
    case SendRecord(_, _, _) => SendStep(s, key, s.ops[key], c)
    case SendStoreReview(_, _) => SendStep(s, key, s.ops[key], c)
    case SendStoreFinal(_, _) => SendStep(s, key, s.ops[key], c)
    case Screen(_) => EvaluationStep(s, key, s.ops[key], c)
    case CallModel(_, _) => EvaluationStep(s, key, s.ops[key], c)
    case Decide(_, _, _, _) => EvaluationStep(s, key, s.ops[key], c)
    case SavePending(_, _) => EvaluationStep(s, key, s.ops[key], c)
    case RequireApproval(_, _) => EvaluationStep(s, key, s.ops[key], c)
    case ConsumeApproval(_, _, _) => EvaluationStep(s, key, s.ops[key], c)
    case Finalize(_, _, _, _) => FinalizeStep(s, key, s.ops[key], c)
    case ConfirmAppend(_, _) => ConfirmStep(s, key, s.ops[key], c)
    case ConfirmStore(_, _) => ConfirmStep(s, key, s.ops[key], c)
    case Done(_) => Release(s, key)
    case _ => ReceiveStep(s, key, s.ops[key], c)
  }

  // ----- The process -----

  /** The process ends; the next one finds what is on disk. */
  function Halt(s: State): State {
    s.(known := s.known + s.tail, tail := [], poisoned := false, mode := Down, closing := false, box := EmptyMailbox,
       active := map[], semaphore := 0, ops := map[], looked := multiset{})
  }

  /** The reconstruction of the index succeeds for the current key. */
  ghost predicate Rebuilds(s: State) {
    exists keys :: IsHistory(s.config.name, TransitionsOf(Disk(s)), keys) && keys[0] == s.key
                   && Replays(s.config.name, s.key, keys, Disk(s))
  }

  /** The limits under which a service starts at all. */
  predicate Startable(config: Config) {
    0 < config.maxMessageBytes <= MAX_MESSAGE_BYTES && 0 < config.maxMessageAge && 0 < config.maxConcurrent
    && !Blank(config.policyVersion)
  }

  function Serve(s: State): State {
    s.(mode := Serving, closing := false, box := IndexOf(s.key, s.known).box)
  }

  /** Records the prepared transition before the private key is replaced. */
  function BeginRotation(s: State, next: Key, at: Time, outcome: Outcome): State {
    var rotation := MakeRotation(s.config.name, s.key, next, at);
    var (after, entry) := Append(s.(owned := s.owned + {next}), RotationPrepared(rotation), outcome);
    if entry.Some? then after.(mode := Rotating(rotation, false)) else Halt(after)
  }

  /** Replaces the private key if it is still the one the transition starts from. */
  function CommitRotation(s: State): State
    requires s.mode.Rotating?
  {
    var c := s.mode.rotation.content;
    if s.key == c.previous && !s.mode.committed then
      s.(key := c.next, keys := [c.next] + s.keys, mode := Rotating(s.mode.rotation, true))
    else
      s
  }

  function CompleteRotation(s: State, outcome: Outcome): State
    requires s.mode.Rotating?
  {
    var c := s.mode.rotation.content;
    if s.mode.committed then Halt(Append(s, RotationCompleted(c.previous, c.next), outcome).0) else s
  }

  datatype Action =
    | DoClaimSend(input: SendInput)
    | DoClaimReceive(envelope: Envelope, now: Time)
    | DoLookupConfirm(ack: Ack, now: Time)
    | DoClaimConfirm(ack: Ack, envelope: Envelope)
    | DoAdvance(key: ClaimKey, choice: Choice)
    | DoNotice(kind: string, outcome: Outcome)
    | DoClose
    | DoHalt
    | DoStart
    | DoApprove(approval: Approval)
    | DoConfigure(config: Config)
    | DoBeginRotation(next: Key, at: Time, outcome: Outcome)
    | DoCommitRotation
    | DoCompleteRotation(outcome: Outcome)

  function DoWhileServing(s: State, a: Action): State {
    match a
    case DoClaimSend(input) => ClaimSend(s, input)
    case DoClaimReceive(envelope, now) => ClaimReceive(s, envelope, now)
    case DoLookupConfirm(ack, now) => LookupConfirm(s, ack, now)
    case DoClaimConfirm(ack, envelope) => ClaimConfirm(s, ack, envelope)
    case DoAdvance(key, choice) => if key in s.ops then Advance(s, key, choice) else s
    case DoNotice(kind, outcome) => Append(s, Notice(kind), outcome).0
    case DoClose => s.(closing := true)
    case _ => s
  }

  ghost function DoWhileDown(s: State, a: Action): State {
    match a
    case DoStart => if Startable(s.config) && Rebuilds(s) then Serve(s) else s
    case DoConfigure(config) => if config.name == s.config.name then s.(config := config) else s
    case DoBeginRotation(next, at, outcome) => if next !in s.owned then BeginRotation(s, next, at, outcome) else s
    case _ => s
  }

  /** One step of an endpoint. A step that is not enabled changes nothing. */
  ghost function Do(s: State, a: Action): State {
    match a
    case DoHalt => Halt(s)
    case DoApprove(approval) =>
      if approval.messageID in s.approved then s
      else s.(approved := s.approved[approval.messageID := approval])
    case DoCommitRotation => if s.mode.Rotating? then CommitRotation(s) else s
    case DoCompleteRotation(outcome) => if s.mode.Rotating? then CompleteRotation(s, outcome) else s
    case _ =>
      if s.mode.Serving? then DoWhileServing(s, a) else if s.mode.Down? then DoWhileDown(s, a) else s
  }

  ghost predicate Reachable(s: State) {
    exists config, key, actions :: s == Run(Initial(config, key), actions)
  }

  ghost function Run(s: State, actions: seq<Action>): State {
    if actions == [] then s else Do(Run(s, actions[..|actions| - 1]), actions[|actions| - 1])
  }
}
