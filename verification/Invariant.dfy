/** What holds of an endpoint between any two steps. The part about claimed
    operations is stated one claim key at a time, on a view of the state that holds
    nothing but what concerns that key. */
module Invariant {
  import opened Wrappers
  import opened Text
  import opened Records
  import opened Replay
  import opened Ledger
  import opened SigningHistory
  import opened Endpoint

  // ----- Views -----

  /** What the log and the maps hold about one request. */
  datatype SendView = SendView(
    op: Option<Op>, logged: Option<RequestRecord>, live: Option<RequestRecord>,
    loggedSent: Option<Envelope>, liveSent: Option<Envelope>, gate: Gate, approved: Option<Approval>)

  /** What the log and the maps hold about one inbound message ID. */
  datatype ReceiveView = ReceiveView(
    op: Option<Op>, loggedSeen: Option<Digest>, liveSeen: Option<Digest>,
    logged: Option<ReceivedRecord>, live: Option<ReceivedRecord>, gate: Gate, approved: Option<Approval>)

  /** What the log and the maps hold about one confirmation. */
  datatype ConfirmView = ConfirmView(op: Option<Op>, logged: Option<ConfirmOutput>, live: Option<ConfirmOutput>)

  function LoggedOutbox(s: State): Outbox {
    IndexOf(0, s.known).box.outbox
  }

  function LoggedIntake(s: State): Intake {
    IndexOf(s.key, s.known).box.intake
  }

  function SendViewOf(s: State, key: ClaimKey): SendView {
    var outbox := LoggedOutbox(s);
    var logged := Lookup(outbox.requests, key);
    if logged.None? then
      SendView(Lookup(s.ops, key), None, Lookup(s.box.outbox.requests, key), None, None, Idle, None)
    else
      var m := logged.value.messageID;
      SendView(Lookup(s.ops, key), logged, Lookup(s.box.outbox.requests, key), Lookup(outbox.sent, m),
               Lookup(s.box.outbox.sent, m), GateOf(s.known, Scope(Outbound, m)), Lookup(s.approved, m))
  }

  function ReceiveViewOf(s: State, key: ClaimKey): ReceiveView
    requires key.ReceiveKey?
  {
    var m := key.messageID;
    ReceiveView(Lookup(s.ops, key), Lookup(LoggedIntake(s).seenInbound, m), Lookup(s.box.intake.seenInbound, m),
                Lookup(LoggedIntake(s).received, m), Lookup(s.box.intake.received, m),
                GateOf(s.known, Scope(Inbound, m)), Lookup(s.approved, m))
  }

  function ConfirmViewOf(s: State, key: ClaimKey): ConfirmView
    requires key.ConfirmKey?
  {
    ConfirmView(Lookup(s.ops, key), Lookup(LoggedOutbox(s).confirmed, key.messageID),
                Lookup(s.box.outbox.confirmed, key.messageID))
  }

  // ----- Operations -----

  /** A record up to the output of a request that is not final, which nothing reads. */
  function Observable(record: Option<RequestRecord>): Option<RequestRecord> {
    if record.Some? && !record.value.final then Some(record.value.(output := None)) else record
  }

  predicate SendSettled(v: SendView) {
    Observable(v.live) == v.logged && v.liveSent == v.loggedSent
  }

  predicate InputOk(key: ClaimKey, input: SendInput) {
    key == SendKey(input.requestID) && ValidIdentifier(input.destination) && ValidIdentifier(input.conversationID)
  }

  /** The job evaluates the request as it was submitted, and the request is still open. */
  predicate SendJobOk(key: ClaimKey, v: SendView, job: Job) {
    SendSettled(v) && job.SendJob? && InputOk(key, job.input)
    && v.logged == Some(RecordFor(job, None, false)) && v.loggedSent == None
  }

  predicate EvaluationOk(name: string, op: Op, gate: Gate, approved: Option<Approval>) {
    match op
    case Screen(_) => true
    case CallModel(_, d) => gate == Screened(d.decision, d.reason) && d.decision != Deny
    case Decide(_, v, _, _) =>
      IsVerdict(v.decision)
      && (gate == Judged(v.decision, v.reason) || (v.decision == Deny && gate == Screened(Deny, v.reason)))
    case SavePending(_, reason) => gate == Judged(Review, reason)
    case RequireApproval(_, reason) => gate == Judged(Review, reason)
    case ConsumeApproval(job, reason, _) => gate == Judged(Review, reason) && approved == Some(ApprovalFor(name, job))
    case Finalize(job, v, _, _) =>
      Opens(gate, v.decision, v.reason) && (v.decision == ReviewApproved ==> approved == Some(ApprovalFor(name, job)))
    case _ => false
  }

  predicate IsEvaluation(op: Op) {
    op.Screen? || op.CallModel? || op.Decide? || op.SavePending? || op.RequireApproval? || op.ConsumeApproval? || op.Finalize?
  }

  predicate SendOk(name: string, key: ClaimKey, v: SendView) {
    match v.op
    case None => SendSettled(v)
    case Some(SendLookup(input)) =>
      SendSettled(v) && InputOk(key, input)
      && (v.logged.Some? ==> v.logged.value.hash == Binding(input) && !v.logged.value.final)
    case Some(SendSubmit(input)) => SendSettled(v) && InputOk(key, input) && v.logged == None
    case Some(SendRecord(input, messageID, createdAt)) =>
      InputOk(key, input) && v.live == None && v.liveSent == None && v.loggedSent == None
      && v.logged == Some(RecordFor(SendJob(input, messageID, createdAt), None, false))
    case Some(SendStoreReview(job, output)) => SendJobOk(key, v, job) && output.status == ReviewRequired && output.envelope == None
    case Some(SendStoreFinal(job, output)) =>
      job.SendJob? && InputOk(key, job.input) && v.logged == Some(RecordFor(job, Some(output), true))
      && Observable(v.live) == Some(RecordFor(job, None, false))
      && v.loggedSent == output.envelope && v.liveSent == None
      && (output.envelope.Some? ==> output.status == Released)
    case Some(Done(_)) => SendSettled(v)
    case Some(op) => IsEvaluation(op) && SendJobOk(key, v, op.job) && EvaluationOk(name, op, v.gate, v.approved)
  }

  predicate ReceiveSettled(v: ReceiveView) {
    v.live == v.logged && v.liveSeen == v.loggedSeen
  }

  predicate EnvelopeOk(name: string, key: ClaimKey, envelope: Envelope) {
    key == ReceiveKey(envelope.content.messageID) && envelope.content.destination == name
    && envelope.content.bodyDigest == TextDigest(envelope.content.body)
  }

  predicate ReceiveJobOk(name: string, key: ClaimKey, v: ReceiveView, job: Job) {
    ReceiveSettled(v) && job.ReceiveJob? && EnvelopeOk(name, key, job.envelope)
    && v.logged == None && v.loggedSeen == Some(EnvelopeDigest(job.envelope))
  }

  predicate ReceiveOk(name: string, key: ClaimKey, v: ReceiveView) {
    match v.op
    case None => ReceiveSettled(v)
    case Some(ReceiveLookup(envelope)) => ReceiveSettled(v) && EnvelopeOk(name, key, envelope)
    case Some(ReceiveVerify(envelope)) =>
      ReceiveSettled(v) && EnvelopeOk(name, key, envelope) && v.logged == None
      && (v.loggedSeen == None || v.loggedSeen == Some(EnvelopeDigest(envelope)))
    case Some(ReceiveSeen(envelope)) =>
      EnvelopeOk(name, key, envelope) && v.logged == None && v.live == None && v.loggedSeen == Some(EnvelopeDigest(envelope))
    case Some(ReceiveStore(envelope, record, message)) =>
      EnvelopeOk(name, key, envelope) && v.liveSeen == v.loggedSeen && v.live == None && v.logged == Some(record)
      && record.envelopeDigest == EnvelopeDigest(envelope) && message.messageID == envelope.content.messageID
    case Some(IssueAck(envelope, record)) =>
      ReceiveSettled(v) && EnvelopeOk(name, key, envelope) && v.logged == Some(record)
      && record.envelopeDigest == EnvelopeDigest(envelope)
    case Some(StoreAck(envelope, record)) =>
      EnvelopeOk(name, key, envelope) && v.liveSeen == v.loggedSeen && v.logged == Some(record) && v.live.Some?
      && record.envelopeDigest == EnvelopeDigest(envelope)
    case Some(Done(_)) => ReceiveSettled(v)
    case Some(op) => IsEvaluation(op) && ReceiveJobOk(name, key, v, op.job) && EvaluationOk(name, op, v.gate, v.approved)
  }

  predicate ConfirmOk(key: ClaimKey, v: ConfirmView) {
    match v.op
    case None => v.live == v.logged
    case Some(ConfirmAppend(ack, _)) => v.live == v.logged && key == ConfirmKey(ack.content.messageID)
    case Some(ConfirmStore(ack, output)) => v.logged == Some(output) && key == ConfirmKey(ack.content.messageID)
    case Some(Done(_)) => v.live == v.logged
    case _ => false
  }

  predicate KeyOk(s: State, key: ClaimKey) {
    match key
    case SendKey(_) => SendOk(s.config.name, key, SendViewOf(s, key))
    case ReceiveKey(_) => key !in s.box.outbox.requests && ReceiveOk(s.config.name, key, ReceiveViewOf(s, key))
    case ConfirmKey(_) => key !in s.box.outbox.requests && ConfirmOk(key, ConfirmViewOf(s, key))
  }

  // ----- The durable part -----

  /** Every receipt in the log verifies under one of the keys. */
  predicate SignedLocally(keys: seq<Key>, log: seq<Entry>) {
    forall i :: 0 <= i < |log| && log[i].event.AcknowledgementIssued? ==>
                  exists j :: 0 <= j < |keys| && AckVerifies(keys[j], log[i].event.ack)
  }

  /** A message that crossed on an approved review was approved exactly as it crossed. */
  predicate EventAuthorized(approved: map<string, Approval>, event: Event) {
    match event
    case OutboundReleased(meta, _, envelope, _) =>
      var c := envelope.content;
      c.guardDecision == ReviewApproved ==>
        Lookup(approved, c.messageID) == Some(Approval(c.messageID, Outbound, c.source, c.destination, TextDigest(c.body)))
    case InboundAccepted(meta, _, _, body, _, decision, _) =>
      decision == ReviewApproved ==>
        Lookup(approved, meta.messageID)
        == Some(Approval(meta.messageID, Inbound, meta.source, meta.destination, TextDigest(body)))
    case _ => true
  }

  predicate Authorized(approved: map<string, Approval>, log: seq<Entry>) {
    forall i :: 0 <= i < |log| ==> EventAuthorized(approved, log[i].event)
  }

  predicate KeysOk(s: State) {
    && IsHistory(s.config.name, TransitionsOf(Disk(s)), s.keys)
    && s.keys[0] == s.key
    && forall i :: 0 <= i < |s.keys| ==> s.keys[i] in s.owned
  }

  predicate Durable(s: State) {
    && LogOk(s.config.name, Disk(s))
    && KeysOk(s)
    && SignedLocally(s.keys, Disk(s))
    && Authorized(s.approved, Disk(s))
    && |s.tail| <= 1
    && (!s.poisoned ==> s.tail == [])
    && (s.mode.Down? ==> s.tail == [])
  }

  // ----- Answers -----

  predicate AckLogged(log: seq<Entry>, ack: Ack) {
    exists i :: 0 <= i < |log| && log[i].event.AcknowledgementIssued? && log[i].event.ack == ack
  }

  /** The log holds the confirmation that `output` reports. */
  predicate ConfirmationLogged(log: seq<Entry>, messageID: string, output: ConfirmOutput) {
    exists i :: 0 <= i < |log| && log[i].event.DeliveryConfirmed? && log[i].event.meta.messageID == messageID == output.messageID
                && output.sequence == log[i].sequence && output.head == log[i].hash
  }

  /** What a caller was told is what the log says. */
  predicate AnswerOk(log: seq<Entry>, a: Answer) {
    match a
    case SendAnswer(input, output) =>
      var requests := IndexOf(0, log).box.outbox.requests;
      (output.status == Released || output.status == Status.Denied || output.envelope.Some? ==>
         var key := SendKey(input.requestID);
         key in requests && requests[key].final && requests[key].output == Some(output) && requests[key].hash == Binding(input)
         && InputOk(key, input))
    case ReceiveAnswer(envelope, output) =>
      output.ack.Some? ==> AckLogged(log, output.ack.value)
                           && output.ack.value.content.envelopeDigest == EnvelopeDigest(envelope)
    case ConfirmAnswer(ack, output) => ConfirmationLogged(log, ack.content.messageID, output)
  }

  predicate AnswersOk(s: State) {
    && (forall a :: a in s.answers ==> AnswerOk(s.known, a))
    && (forall k :: k in s.ops && s.ops[k].Done? && s.ops[k].answer.Some? ==> AnswerOk(s.known, s.ops[k].answer.value))
  }

  // ----- The serving process -----

  predicate ClaimsOk(s: State) {
    s.active.Keys == s.ops.Keys && s.semaphore == |s.ops| <= s.config.maxConcurrent && Startable(s.config)
  }

  /** A confirmation under way refers to the envelope that the log says was sent. */
  predicate ConfirmsSent(sent: map<string, Envelope>, ack: Ack, envelope: Envelope) {
    Lookup(sent, ack.content.messageID) == Some(envelope)
    && ack.content.source == envelope.content.destination && ack.content.envelopeDigest == EnvelopeDigest(envelope)
  }

  predicate LookupsOk(sent: map<string, Envelope>, looked: multiset<(Ack, Envelope)>) {
    forall p :: p in looked ==> ConfirmsSent(sent, p.0, p.1)
  }

  predicate ConfirmsOk(s: State) {
    var sent := LoggedOutbox(s).sent;
    && LookupsOk(sent, s.looked)
    && (forall k :: k in s.ops && s.ops[k].ConfirmAppend? ==> ConfirmsSent(sent, s.ops[k].ack, s.ops[k].sent))
    && (forall m :: m in s.box.outbox.sent ==> Lookup(sent, m) == Some(s.box.outbox.sent[m]))
    && (forall m :: m in s.box.outbox.confirmed ==> ConfirmationLogged(s.known, m, s.box.outbox.confirmed[m]))
  }

  /** The message that an accepted operation has yet to put into the inbox. */
  predicate Lagging(ops: map<ClaimKey, Op>, message: Message) {
    ReceiveKey(message.messageID) in ops && ops[ReceiveKey(message.messageID)].ReceiveStore?
  }

  ghost predicate InboxAgrees(ops: map<ClaimKey, Op>, live: seq<Message>, logged: seq<Message>) {
    && DistinctMessages(live)
    && (forall m :: m in live ==> m in logged && !Lagging(ops, m))
    && (forall m :: m in logged && !Lagging(ops, m) ==> m in live)
    && (forall k :: k in ops && ops[k].ReceiveStore? ==> ops[k].message in logged && k == ReceiveKey(ops[k].message.messageID))
  }

  /** With one operation at a time, messages enter the inbox in the order of the log. */
  ghost predicate OrderAgrees(s: State) {
    s.config.maxConcurrent == 1 ==>
      var live, logged := s.box.intake.inbox, LoggedIntake(s).inbox;
      live == logged || exists k :: k in s.ops && s.ops[k].ReceiveStore? && logged == live + [s.ops[k].message]
  }

  ghost predicate LiveOk(s: State) {
    && ClaimsOk(s)
    && (forall k :: KeyOk(s, k))
    && ConfirmsOk(s)
    && InboxAgrees(s.ops, s.box.intake.inbox, LoggedIntake(s).inbox)
    && OrderAgrees(s)
  }

  predicate RotationOk(s: State) {
    s.mode.Rotating? ==>
      var c := s.mode.rotation.content;
      !s.mode.committed && s.key == c.previous ==>
        IsHistory(s.config.name, TransitionsOf(Disk(s)), [c.next] + s.keys) && c.next in s.owned
  }

  /** No process is serving: nothing is claimed and nothing is in memory. */
  predicate Idles(s: State) {
    s.ops == map[] && s.active == map[] && s.semaphore == 0 && s.looked == multiset{} && s.box == EmptyMailbox
    && !s.closing && (s.mode.Down? ==> !s.poisoned)
  }

  ghost predicate Inv(s: State) {
    Durable(s) && AnswersOk(s) && RotationOk(s) && (s.mode.Serving? ==> LiveOk(s)) && (!s.mode.Serving? ==> Idles(s))
  }
}
