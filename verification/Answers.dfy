/** What callers can rely on about their answers, over whole runs with crashes, restarts
    and key rotations. */
module Answers {
  import opened Wrappers
  import opened Text
  import opened Records
  import opened Replay
  import opened Ledger
  import opened LogTheorems
  import opened GuardTheorems
  import opened SigningHistory
  import opened Endpoint
  import opened Invariant
  import opened Steps
  import opened EvaluationSafety
  import opened RunSafety
  import opened Guarantees
  import opened Reports
  import opened ReportSafety

  /** A chain numbers its entries. */
  lemma Numbered(name: string, log: seq<Entry>, i: nat)
    requires LogOk(name, log) && i < |log|
    ensures log[i].sequence == i + 1
  {
    hide Admissible;
    assert EntryOk(name, log, i);
  }

  /** Every answer to a send reports one entry of the log about its message: a release with
      the envelope, a denial with its reason, or a request for approval. */
  lemma SendAnswersAreLogged(s: State, input: SendInput, output: SendOutput) returns (i: nat)
    requires Reachable(s) && SendAnswer(input, output) in s.answers
    ensures i < |s.known| && output.sequence == i + 1 && output.head == s.known[i].hash
    ensures output.requestID == input.requestID && output.bodyDigest == TextDigest(input.text)
    ensures s.known[i].event.OutboundReleased? || s.known[i].event.MessageBlocked? || s.known[i].event.ApprovalRequired?
    ensures s.known[i].event.meta.messageID == output.messageID && SendReports(s.known[i].event, input, output)
    ensures output.status == Released <==> s.known[i].event.OutboundReleased?
    ensures output.status == Status.Denied <==> s.known[i].event.MessageBlocked?
    ensures output.status == ReviewRequired <==> s.known[i].event.ApprovalRequired?
  {
    hide Reachable, Inv, LogOk, IsRequest;
    ReachableTold(s);
    ReachableSafe(s);
    InvDisk(s);
    assert AnswerTold(s.known, SendAnswer(input, output));
    i :| Names(s.known, i, output.sequence, output.head) && SendReports(s.known[i].event, input, output);
    KnownIsOk(s);
    Numbered(s.config.name, s.known, i);
  }

  lemma KnownIsOk(s: State)
    requires Inv(s)
    ensures LogOk(s.config.name, s.known)
  {
    hide LogOk, SignedLocally, Authorized, AnswersOk, LiveOk, KeysOk;
    LoggedIsOk(s);
  }

  /** Every answer to an inbound envelope reports one entry of the log about its message: a
      receipt of the acceptance of exactly that envelope, a denial, or a request for
      approval, each with the verdict that led to it. */
  lemma ReceiveAnswersAreLogged(s: State, envelope: Envelope, output: ReceiveOutput) returns (i: nat, j: nat)
    requires Reachable(s) && ReceiveAnswer(envelope, output) in s.answers
    ensures i < |s.known| && output.sequence == i + 1 && output.head == s.known[i].hash
    ensures output.messageID == envelope.content.messageID == EventMeta(s.known[i].event).messageID
    ensures output.status == Accepted <==> s.known[i].event.AcknowledgementIssued?
    ensures output.status == Status.Denied <==> s.known[i].event.MessageBlocked?
    ensures output.status == ReviewRequired <==> s.known[i].event.ApprovalRequired?
    ensures output.status == Accepted || output.status == Status.Denied || output.status == ReviewRequired
    ensures output.status == Accepted ==>
              output.ack == Some(s.known[i].event.ack) && j < i && Accepts(s.known, j, output.messageID, EnvelopeDigest(envelope), output)
    ensures output.status == Status.Denied ==>
              output.ack == None && output.decision == Deny && output.reason == s.known[i].event.code
    ensures output.status == ReviewRequired ==>
              output.ack == None && output.decision == Review && output.reason == s.known[i].event.reason
  {
    hide Reachable, Inv, LogOk;
    ReachableTold(s);
    ReachableSafe(s);
    assert AnswerTold(s.known, ReceiveAnswer(envelope, output));
    i :| Names(s.known, i, output.sequence, output.head) && ReceiveReports(s.known, i, envelope, output);
    KnownIsOk(s);
    Numbered(s.config.name, s.known, i);
    j := 0;
    if s.known[i].event.AcknowledgementIssued? {
      j :| j < i && Accepts(s.known, j, envelope.content.messageID, EnvelopeDigest(envelope), output);
    }
  }

  /** The message that an event about a message is about. */
  function EventMeta(event: Event): Meta {
    match event
    case MessageBlocked(meta, _, _) => meta
    case ApprovalRequired(meta, _) => meta
    case AcknowledgementIssued(meta, _) => meta
    case _ => Meta(Outbound, "", "", "")
  }

  /** All answers under one request ID, final or not, are about one message, and were given
      to one destination, conversation and text. */
  lemma OneMessagePerRequest(s: State, input: SendInput, output: SendOutput, input': SendInput, output': SendOutput)
    requires Reachable(s) && SendAnswer(input, output) in s.answers && SendAnswer(input', output') in s.answers
    requires input.requestID == input'.requestID
    ensures input == input' && output.messageID == output'.messageID
  {
    hide Reachable, IndexOf;
    ReachableTold(s);
    assert AnswerTold(s.known, SendAnswer(input, output)) && AnswerTold(s.known, SendAnswer(input', output'));
    BindingIsInjective(input.destination, input.conversationID, input.text, input'.destination, input'.conversationID, input'.text);
  }

  // ----- Calls as they were made -----

  /** What a call asks for, with an empty request ID replaced by `id` and an empty
      conversation by the request ID; nothing that was given is changed. */
  predicate FillsIn(raw: SendInput, id: string, input: SendInput) {
    && input.destination == raw.destination && input.text == raw.text
    && (raw.requestID != "" ==> input.requestID == raw.requestID)
    && (raw.requestID == "" ==> input.requestID == id)
    && (raw.conversationID != "" ==> input.conversationID == raw.conversationID)
    && (raw.conversationID == "" ==> input.conversationID == input.requestID)
  }

  /** What a call must look like for a service with this configuration. */
  predicate IsAcceptable(config: Config, raw: SendInput, id: string) {
    && 0 < ByteLength(raw.text) <= config.maxMessageBytes && !Blank(raw.text) && NUL !in raw.text
    && ValidIdentifier(raw.destination) && raw.destination in config.peers
    && ValidIdentifier(if raw.requestID == "" then id else raw.requestID)
    && (raw.conversationID == "" || ValidIdentifier(raw.conversationID))
  }

  lemma AcceptableIsValid(config: Config, raw: SendInput, id: string, input: SendInput)
    requires FillsIn(raw, id, input)
    ensures IsAcceptable(config, raw, id) <==> ValidInput(config, input)
  {
    hide ValidIdentifier;
    if raw.text == [] {
      assert Blank(raw.text);
    }
  }

  /** Two calls with the same request ID, whatever identifiers were generated for them: their
      answers are about one message with one destination and text, and they get one final
      answer and one envelope at most. */
  lemma RawCallsAgree(s: State, raw: SendInput, id: string, input: SendInput, output: SendOutput,
                      raw': SendInput, id': string, input': SendInput, output': SendOutput)
    requires Reachable(s) && FillsIn(raw, id, input) && FillsIn(raw', id', input')
    requires SendAnswer(input, output) in s.answers && SendAnswer(input', output') in s.answers
    requires raw.requestID == raw'.requestID != ""
    ensures raw.destination == raw'.destination && raw.text == raw'.text && output.messageID == output'.messageID
    ensures output.requestID == output'.requestID == raw.requestID
    ensures raw.conversationID == raw'.conversationID || raw.conversationID == raw.requestID || raw'.conversationID == raw.requestID
    ensures IsFinal(output) && IsFinal(output') ==> output == output'
    ensures output.envelope.Some? && output'.envelope.Some? ==> output.envelope == output'.envelope
  {
    hide Reachable;
    OneMessagePerRequest(s, input, output, input', output');
    var i := SendAnswersAreLogged(s, input, output);
    var j := SendAnswersAreLogged(s, input', output');
    if IsFinal(output) && IsFinal(output') {
      OneFinalAnswer(s, input, output, input', output');
    }
    if output.envelope.Some? && output'.envelope.Some? {
      OneFinalAnswer(s, input, output, input', output');
    }
  }
}
