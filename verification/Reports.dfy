/** What callers are told, and what a released envelope states, is what the log says:
    every answer and every envelope points at the entries that it reports. */
module Reports {
  import opened Wrappers
  import opened Text
  import opened Records
  import opened Replay
  import opened Ledger
  import opened LogTheorems
  import opened GuardTheorems
  import opened SigningHistory
  import opened Endpoint
  import opened Invariant
  import opened Progress

  // ----- What an answer reports -----

  /** The mark names entry `i`. */
  predicate Names(log: seq<Entry>, i: nat, sequence: nat, head: Digest) {
    i < |log| && log[i].sequence == sequence && log[i].hash == head
  }

  /** The event concludes or holds back the request in the way that the output says. */
  predicate SendReports(event: Event, input: SendInput, output: SendOutput) {
    match event
    case OutboundReleased(meta, requestID, envelope, reason) =>
      var c := envelope.content;
      && output.status == Released && output.envelope == Some(envelope) && output.decision == c.guardDecision && output.reason == reason
      && meta.messageID == output.messageID && requestID == input.requestID
      && c.messageID == output.messageID && c.requestID == input.requestID && c.conversationID == input.conversationID
      && c.destination == input.destination && c.body == input.text
    case MessageBlocked(meta, requestID, code) =>
      && output.status == Status.Denied && output.envelope == None && output.decision == Deny && output.reason == code
      && meta.direction == Outbound && meta.messageID == output.messageID && requestID == input.requestID
    case ApprovalRequired(meta, reason) =>
      && output.status == ReviewRequired && output.envelope == None && output.decision == Review && output.reason == reason
      && meta.direction == Outbound && meta.messageID == output.messageID
    case _ => false
  }

  /** The output is about the request as it was submitted. */
  predicate IsRequest(log: seq<Entry>, input: SendInput, messageID: string) {
    var requests, key := IndexOf(0, log).box.outbox.requests, SendKey(input.requestID);
    key in requests && requests[key].messageID == messageID && requests[key].hash == Binding(input)
  }

  ghost predicate SendTold(log: seq<Entry>, input: SendInput, output: SendOutput) {
    && IsRequest(log, input, output.messageID) && InputOk(SendKey(input.requestID), input)
    && output.requestID == input.requestID && output.bodyDigest == TextDigest(input.text)
    && exists i: nat :: Names(log, i, output.sequence, output.head) && SendReports(log[i].event, input, output)
  }

  /** Entry `i` accepted a message with this digest, on this verdict. */
  predicate Accepts(log: seq<Entry>, i: nat, m: string, digest: Digest, output: ReceiveOutput) {
    i < |log| && log[i].event.InboundAccepted?
    && var e := log[i].event;
    e.meta.messageID == m && e.envelopeDigest == digest && e.decision == output.decision && e.reason == output.reason
  }

  ghost predicate ReceiveReports(log: seq<Entry>, i: nat, envelope: Envelope, output: ReceiveOutput)
    requires i < |log|
  {
    var c := envelope.content;
    match log[i].event
    case MessageBlocked(meta, requestID, code) =>
      && output.status == Status.Denied && output.ack == None && output.decision == Deny && output.reason == code
      && meta == Meta(Inbound, c.source, c.destination, c.messageID) && requestID == c.requestID
    case ApprovalRequired(meta, reason) =>
      && output.status == ReviewRequired && output.ack == None && output.decision == Review && output.reason == reason
      && meta == Meta(Inbound, c.source, c.destination, c.messageID)
    case AcknowledgementIssued(meta, ack) =>
      && output.status == Accepted && output.ack == Some(ack) && meta.messageID == c.messageID
      && exists j: nat :: j < i && Accepts(log, j, c.messageID, EnvelopeDigest(envelope), output)
    case _ => false
  }

  ghost predicate ReceiveTold(log: seq<Entry>, envelope: Envelope, output: ReceiveOutput) {
    && output.messageID == envelope.content.messageID
    && exists i: nat :: Names(log, i, output.sequence, output.head) && ReceiveReports(log, i, envelope, output)
  }

  ghost predicate AnswerTold(log: seq<Entry>, a: Answer) {
    match a
    case SendAnswer(input, output) => SendTold(log, input, output)
    case ReceiveAnswer(envelope, output) => ReceiveTold(log, envelope, output)
    case ConfirmAnswer(_, _) => true
  }

  // ----- What a release states -----

  predicate Judges(log: seq<Entry>, scope: Scope, i: nat, model: string, policy: string) {
    i < |log| && log[i].event.ModelGuard? && ScopeOf(log[i].event.meta) == scope
    && log[i].event.model == model && log[i].event.policyVersion == policy
  }

  /** The last evaluation of the scope is a verdict of `model` under `policy`, possibly
      followed by the use of an approval, and the mark names its last entry. */
  ghost predicate Evidence(log: seq<Entry>, scope: Scope, model: string, policy: string, mark: Mark, approved: bool) {
    exists i: nat, j: nat :: && Judges(log, scope, i, model, policy) && i <= j && Quiet(log, scope, j, |log|)
                   && Names(log, j, mark.sequence, mark.head)
                   && (if approved then i < j && Quiet(log, scope, i, j) && IsClearance(log, scope, j) else i == j)
  }

  /** A submission is well-formed, and a release states the verdict it rests on, its policy
      and its model, and is signed with one of the endpoint's keys. */
  ghost predicate EntryTold(keys: seq<Key>, log: seq<Entry>, i: nat)
    requires i < |log|
  {
    match log[i].event
    case MessageSubmitted(meta, requestID, conversationID, text) =>
      ValidIdentifier(meta.messageID) && ValidIdentifier(requestID) && ValidIdentifier(conversationID)
      && ValidIdentifier(meta.destination) && ValidText(text, MAX_MESSAGE_BYTES)
    case OutboundReleased(meta, _, envelope, _) =>
      var c := envelope.content;
      && Evidence(log[..i], ScopeOf(meta), c.guardModel, c.policyVersion, Mark(c.sourceSequence, c.sourceHead),
                  c.guardDecision == ReviewApproved)
      && !Blank(c.policyVersion) && envelope.signature.signer in keys && EnvelopeVerifies(envelope.signature.signer, envelope)
    case _ => true
  }

  // ----- What operations carry -----

  /** The input of a send. */
  function InputOf(op: Op): Option<SendInput> {
    match op
    case SendLookup(input) => Some(input)
    case SendSubmit(input) => Some(input)
    case _ => None
  }

  /** What an operation is about to report or to rely on is in the log. */
  ghost predicate Backed(config: Config, log: seq<Entry>, op: Op) {
    match op
    case SendLookup(input) => ValidInput(config, input)
    case SendSubmit(input) => ValidInput(config, input)
    case Decide(job, verdict, model, mark) =>
      verdict.decision == Deny || Evidence(log, ScopeOf(MetaOf(config.name, job)), model, config.policyVersion, mark, false)
    case ConsumeApproval(job, _, model) =>
      exists mark :: Evidence(log, ScopeOf(MetaOf(config.name, job)), model, config.policyVersion, mark, false)
    case Finalize(job, verdict, model, mark) =>
      Evidence(log, ScopeOf(MetaOf(config.name, job)), model, config.policyVersion, mark, verdict.decision == ReviewApproved)
    case SendStoreReview(job, output) => job.SendJob? ==> SendTold(log, job.input, output)
    case StoreAck(_, record) => record.output.ack.Some?
    case Done(Some(a)) => AnswerTold(log, a)
    case _ => true
  }

  /** Everything that callers were told and everything on disk is backed by the log. */
  ghost predicate Told(s: State) {
    && (forall a :: a in s.answers ==> AnswerTold(s.known, a))
    && (forall k :: k in s.ops ==> Backed(s.config, s.known, s.ops[k]))
    && (forall i :: 0 <= i < |Disk(s)| ==> EntryTold(s.keys, Disk(s), i))
  }

  // ----- What a longer log keeps -----

  lemma NamesStay(log: seq<Entry>, longer: seq<Entry>, i: nat, sequence: nat, head: Digest)
    requires log <= longer && Names(log, i, sequence, head)
    ensures Names(longer, i, sequence, head) && longer[i] == log[i]
  {
  }

  lemma RequestStays(name: string, log: seq<Entry>, longer: seq<Entry>, input: SendInput, messageID: string)
    requires LogOk(name, longer) && log <= longer && IsRequest(log, input, messageID)
    ensures IsRequest(longer, input, messageID)
  {
    hide LogOk, IndexOf, IntakeGrows;
    assert longer[..|log|] == log && longer[..|longer|] == longer;
    IndexGrows(name, longer, |log|, |longer|);
  }

  lemma SendToldStays(name: string, log: seq<Entry>, longer: seq<Entry>, input: SendInput, output: SendOutput)
    requires LogOk(name, longer) && log <= longer && SendTold(log, input, output)
    ensures SendTold(longer, input, output)
  {
    hide LogOk, IsRequest, SendReports, InputOk;
    RequestStays(name, log, longer, input, output.messageID);
    var i: nat :| Names(log, i, output.sequence, output.head) && SendReports(log[i].event, input, output);
    NamesStay(log, longer, i, output.sequence, output.head);
  }

  lemma ReceiveToldStays(log: seq<Entry>, longer: seq<Entry>, envelope: Envelope, output: ReceiveOutput)
    requires log <= longer && ReceiveTold(log, envelope, output)
    ensures ReceiveTold(longer, envelope, output)
  {
    var i: nat :| Names(log, i, output.sequence, output.head) && ReceiveReports(log, i, envelope, output);
    NamesStay(log, longer, i, output.sequence, output.head);
    if log[i].event.AcknowledgementIssued? {
      var j: nat :| j < i && Accepts(log, j, envelope.content.messageID, EnvelopeDigest(envelope), output);
      assert Accepts(longer, j, envelope.content.messageID, EnvelopeDigest(envelope), output);
    }
    assert ReceiveReports(longer, i, envelope, output);
  }

  lemma AnswerToldStays(name: string, log: seq<Entry>, longer: seq<Entry>, a: Answer)
    requires LogOk(name, longer) && log <= longer && AnswerTold(log, a)
    ensures AnswerTold(longer, a)
  {
    hide LogOk, SendTold, ReceiveTold;
    match a
    case SendAnswer(input, output) => SendToldStays(name, log, longer, input, output);
    case ReceiveAnswer(envelope, output) => ReceiveToldStays(log, longer, envelope, output);
    case ConfirmAnswer(_, _) =>
  }

  lemma EvidenceStays(log: seq<Entry>, e: Entry, scope: Scope, model: string, policy: string, mark: Mark, approved: bool)
    requires Evidence(log, scope, model, policy, mark, approved) && !Evaluates(e.event, scope)
    ensures Evidence(log + [e], scope, model, policy, mark, approved)
  {
    hide Evaluates;
    var i: nat, j: nat :| && Judges(log, scope, i, model, policy) && i <= j && Quiet(log, scope, j, |log|)
                && Names(log, j, mark.sequence, mark.head)
                && (if approved then i < j && Quiet(log, scope, i, j) && IsClearance(log, scope, j) else i == j);
    var longer := log + [e];
    assert Judges(longer, scope, i, model, policy) && Quiet(longer, scope, j, |longer|) && Names(longer, j, mark.sequence, mark.head);
  }

  /** The scope that an operation needs to stay as it is. */
  function ScopeFor(name: string, op: Op): Option<Scope> {
    if IsEvaluation(op) then Some(ScopeOf(MetaOf(name, op.job))) else None
  }

  lemma BackedStays(config: Config, log: seq<Entry>, e: Entry, op: Op)
    requires Backed(config, log, op) && LogOk(config.name, log + [e])
    requires ScopeFor(config.name, op).Some? ==> !Evaluates(e.event, ScopeFor(config.name, op).value)
    ensures Backed(config, log + [e], op)
  {
    hide LogOk, SendTold, AnswerTold, Evidence, Evaluates, MetaOf, ValidInput;
    match op
    case Decide(job, verdict, model, mark) =>
      if verdict.decision != Deny {
        EvidenceStays(log, e, ScopeOf(MetaOf(config.name, job)), model, config.policyVersion, mark, false);
      }
    case ConsumeApproval(job, _, model) =>
      var mark :| Evidence(log, ScopeOf(MetaOf(config.name, job)), model, config.policyVersion, mark, false);
      EvidenceStays(log, e, ScopeOf(MetaOf(config.name, job)), model, config.policyVersion, mark, false);
    case Finalize(job, verdict, model, mark) =>
      EvidenceStays(log, e, ScopeOf(MetaOf(config.name, job)), model, config.policyVersion, mark, verdict.decision == ReviewApproved);
    case SendStoreReview(job, output) =>
      if job.SendJob? { SendToldStays(config.name, log, log + [e], job.input, output); }
    case Done(Some(a)) => AnswerToldStays(config.name, log, log + [e], a);
    case _ =>
  }

  lemma EntryToldStays(keys: seq<Key>, more: seq<Key>, log: seq<Entry>, longer: seq<Entry>, i: nat)
    requires i < |log| && EntryTold(keys, log, i) && log <= longer && forall k :: k in keys ==> k in more
    ensures EntryTold(more, longer, i)
  {
    hide Evidence, ValidIdentifier, ValidText, Blank;
    assert longer[..i] == log[..i];
  }
}
