/** Every step keeps what callers were told backed by the log. */
module ReportSafety {
  import opened Wrappers
  import opened Text
  import opened Records
  import opened Replay
  import opened Ledger
  import opened LogTheorems
  import opened GuardTheorems
  import opened SigningHistory
  import opened Endpoint
  import opened Invariant
  import opened Steps
  import opened Origins
  import Frames
  import opened EvaluationSafety
  import opened SendSafety
  import opened ProcessSafety
  import opened RunSafety
  import opened Reports
  import opened ReportSteps

  // ----- What the index holds is told by the log -----

  /** A request with this binding has the body that the binding names. */
  lemma RequestBody(name: string, log: seq<Entry>, key: ClaimKey, input: SendInput)
    requires LogOk(name, log) && key in IndexOf(0, log).box.outbox.requests && InputOk(key, input)
    requires IndexOf(0, log).box.outbox.requests[key].hash == Binding(input)
    ensures IndexOf(0, log).box.outbox.requests[key].bodyDigest == TextDigest(input.text)
  {
    hide IndexOf, GateOf;
    var i := SubmissionOf(name, log, key);
    assert EntryOk(name, log, i);
    var e := log[i].event;
    BindingIsInjective(input.destination, input.conversationID, input.text, e.meta.destination, e.conversationID, e.text);
  }

  lemma ReleaseIsTold(name: string, box: Mailbox, gate: Gate, decisions: map<Scope, Verdict>, entry: Entry, input: SendInput)
    requires AdmissibleAt(name, box, gate, entry.event) && entry.event.OutboundReleased?
    requires entry.event.requestID == input.requestID && InputOk(SendKey(input.requestID), input)
    requires box.outbox.requests[SendKey(input.requestID)].hash == Binding(input)
    requires ReasonOf(decisions, entry.event.meta, entry.event.reason) == entry.event.reason
    ensures var output := ApplyOutbox(box.outbox, decisions, entry).requests[SendKey(input.requestID)].output;
            output.Some? && output.value.sequence == entry.sequence && output.value.head == entry.hash
            && SendReports(entry.event, input, output.value) && output.value.messageID == box.outbox.requests[SendKey(input.requestID)].messageID
            && output.value.requestID == input.requestID && output.value.bodyDigest == TextDigest(input.text)
  {
    hide Opens, ReasonOf;
    var c := entry.event.envelope.content;
    BindingIsInjective(input.destination, input.conversationID, input.text, c.destination, c.conversationID, c.body);
  }

  lemma DenialIsTold(name: string, box: Mailbox, gate: Gate, decisions: map<Scope, Verdict>, entry: Entry, input: SendInput)
    requires AdmissibleAt(name, box, gate, entry.event) && entry.event.MessageBlocked? && entry.event.meta.direction == Outbound
    requires entry.event.requestID == input.requestID
    requires box.outbox.requests[SendKey(input.requestID)].bodyDigest == TextDigest(input.text)
    ensures var output := ApplyOutbox(box.outbox, decisions, entry).requests[SendKey(input.requestID)].output;
            output.Some? && output.value.sequence == entry.sequence && output.value.head == entry.hash
            && SendReports(entry.event, input, output.value) && output.value.messageID == box.outbox.requests[SendKey(input.requestID)].messageID
            && output.value.requestID == input.requestID && output.value.bodyDigest == TextDigest(input.text)
  {
  }

  predicate ConcludesHere(event: Event, key: ClaimKey) {
    (event.OutboundReleased? || (event.MessageBlocked? && event.meta.direction == Outbound)) && key == SendKey(event.requestID)
  }

  /** Until its conclusion, nothing but a submission changes the record of a request. */
  lemma OtherwiseKept(name: string, log: seq<Entry>, key: ClaimKey)
    requires LogOk(name, log) && log != [] && key in IndexOf(0, log).box.outbox.requests && IndexOf(0, log).box.outbox.requests[key].final
    requires !ConcludesHere(log[|log| - 1].event, key)
    ensures var n := |log| - 1;
            key in IndexOf(0, log[..n]).box.outbox.requests
            && IndexOf(0, log[..n]).box.outbox.requests[key] == IndexOf(0, log).box.outbox.requests[key]
  {
    hide ApplyIntake, ApplyDecisions, ReasonOf, Binding, ReleasedOutput, DeniedOutput;
    assert EntryOk(name, log, |log| - 1);
  }

  lemma ConcludedRequest(name: string, log: seq<Entry>, key: ClaimKey)
    requires LogOk(name, log) && log != [] && ConcludesHere(log[|log| - 1].event, key)
    ensures var n := |log| - 1;
            && key in IndexOf(0, log[..n]).box.outbox.requests && key in IndexOf(0, log).box.outbox.requests
            && SameIdentity(IndexOf(0, log[..n]).box.outbox.requests[key], IndexOf(0, log).box.outbox.requests[key])
            && LogOk(name, log[..n])
            && AdmissibleAt(name, IndexOf(0, log[..n]).box, GateOf(log[..n], EventScope(log[n].event)), log[n].event)
            && (log[n].event.OutboundReleased? ==>
                  ReasonOf(IndexOf(0, log[..n]).decisions, log[n].event.meta, log[n].event.reason) == log[n].event.reason)
  {
    hide ApplyIntake, ApplyDecisions, GateOf, EnvelopeFits, Binding, ReleasedOutput, DeniedOutput, ReasonOf;
    var n := |log| - 1;
    LogOkPrefix(name, log, n);
    assert EntryOk(name, log, n);
    if log[n].event.OutboundReleased? {
      SendSafety.ReasonIsRecovered(name, log[..n], log[n].event.meta, log[n].event.envelope.content.guardDecision, log[n].event.reason);
    }
  }

  /** The final output of a request reports the entry that concluded it. */
  lemma {:induction false} FinalTold(name: string, log: seq<Entry>, input: SendInput)
    requires LogOk(name, log) && InputOk(SendKey(input.requestID), input)
    requires var requests, key := IndexOf(0, log).box.outbox.requests, SendKey(input.requestID);
             key in requests && requests[key].final && requests[key].output.Some? && requests[key].hash == Binding(input)
    ensures SendTold(log, input, IndexOf(0, log).box.outbox.requests[SendKey(input.requestID)].output.value)
  {
    hide LogOk, AdmissibleAt, GateOf, ApplyIntake, ApplyDecisions, InputOk, Binding, SendReports, ReasonOf, ApplyOutbox;
    var n, key := |log| - 1, SendKey(input.requestID);
    if ConcludesHere(log[n].event, key) {
      ConcludedRequest(name, log, key);
      var index, gate := IndexOf(0, log[..n]), GateOf(log[..n], EventScope(log[n].event));
      if log[n].event.OutboundReleased? {
        ReleaseIsTold(name, index.box, gate, index.decisions, log[n], input);
      } else {
        RequestBody(name, log[..n], key, input);
        DenialIsTold(name, index.box, gate, index.decisions, log[n], input);
      }
      assert Names(log, n, log[n].sequence, log[n].hash);
    } else {
      OtherwiseKept(name, log, key);
      LogOkPrefix(name, log, n);
      FinalTold(name, log[..n], input);
      SendToldStays(name, log[..n], log, input, IndexOf(0, log).box.outbox.requests[key].output.value);
    }
  }

  /** The record of an accepted message states its acceptance and its last receipt. */
  ghost predicate RecordTold(log: seq<Entry>, m: string, record: ReceivedRecord) {
    && record.output.status == Accepted && record.output.messageID == m
    && exists i: nat, j: nat ::
         && Names(log, i, record.output.sequence, record.output.head) && j <= i
         && Accepts(log, j, m, record.envelopeDigest, record.output)
         && (if i == j then record.output.ack == None
             else log[i].event.AcknowledgementIssued? && log[i].event.meta.messageID == m
                  && (record.output.ack == None || record.output.ack == Some(log[i].event.ack)))
  }

  lemma RecordToldStays(log: seq<Entry>, e: Entry, m: string, record: ReceivedRecord)
    requires RecordTold(log, m, record)
    ensures RecordTold(log + [e], m, record)
  {
    var i: nat, j: nat :| && Names(log, i, record.output.sequence, record.output.head) && j <= i
                          && Accepts(log, j, m, record.envelopeDigest, record.output)
                          && (if i == j then record.output.ack == None
                              else log[i].event.AcknowledgementIssued? && log[i].event.meta.messageID == m
                                   && (record.output.ack == None || record.output.ack == Some(log[i].event.ack)));
    NamesStay(log, log + [e], i, record.output.sequence, record.output.head);
    assert Accepts(log + [e], j, m, record.envelopeDigest, record.output);
  }

  lemma AcceptedTold(log: seq<Entry>, e: Entry, reason: string)
    requires e.event.InboundAccepted? && reason == e.event.reason
    ensures RecordTold(log + [e], e.event.meta.messageID, AcceptedRecord(e, reason))
  {
    var n, record := |log|, AcceptedRecord(e, reason);
    assert Names(log + [e], n, e.sequence, e.hash);
    assert Accepts(log + [e], n, e.event.meta.messageID, record.envelopeDigest, record.output);
  }

  lemma ReceiptTold(log: seq<Entry>, e: Entry, m: string, record: ReceivedRecord, kept: Option<Ack>)
    requires RecordTold(log, m, record) && e.event.AcknowledgementIssued? && e.event.meta.messageID == m
    requires kept == None || kept == Some(e.event.ack)
    ensures RecordTold(log + [e], m, WithAck(record, kept, e.sequence, e.hash))
  {
    var i: nat, j: nat :| && Names(log, i, record.output.sequence, record.output.head) && j <= i
                          && Accepts(log, j, m, record.envelopeDigest, record.output)
                          && (if i == j then record.output.ack == None
                              else log[i].event.AcknowledgementIssued? && log[i].event.meta.messageID == m
                                   && (record.output.ack == None || record.output.ack == Some(log[i].event.ack)));
    var n, after := |log|, WithAck(record, kept, e.sequence, e.hash);
    assert Names(log + [e], n, e.sequence, e.hash);
    assert Accepts(log + [e], j, m, after.envelopeDigest, after.output);
  }

  lemma {:induction false} RecordsTold(name: string, key: Key, log: seq<Entry>, m: string)
    requires LogOk(name, log) && m in IndexOf(key, log).box.intake.received
    ensures RecordTold(log, m, IndexOf(key, log).box.intake.received[m])
  {
    hide LogOk, AdmissibleAt, GateOf, ApplyOutbox, ApplyDecisions, RecordTold, AcceptedRecord, AcceptedMessage, WithAck, AckVerifies,
         ReasonOf;
    var n := |log| - 1;
    var index, e := IndexOf(key, log[..n]), log[n];
    assert log == log[..n] + [e];
    LogOkPrefix(name, log, n);
    if e.event.InboundAccepted? && e.event.meta.messageID == m {
      AcceptanceReason(name, key, log, n);
      AcceptedTold(log[..n], e, ReasonOf(index.decisions, e.event.meta, e.event.reason));
    } else {
      RecordsTold(name, key, log[..n], m);
      var record := index.box.intake.received[m];
      if e.event.AcknowledgementIssued? && e.event.meta.messageID == m {
        ReceiptTold(log[..n], e, m, record, if AckVerifies(key, e.event.ack) then Some(e.event.ack) else None);
      } else {
        RecordToldStays(log[..n], e, m, record);
      }
    }
  }

  lemma AcceptanceReason(name: string, key: Key, log: seq<Entry>, n: nat)
    requires LogOk(name, log) && n < |log| && log[n].event.InboundAccepted?
    ensures ReasonOf(IndexOf(key, log[..n]).decisions, log[n].event.meta, log[n].event.reason) == log[n].event.reason
  {
    hide IndexOf, GateOf, ReasonOf, Carries;
    LogOkPrefix(name, log, n);
    assert EntryOk(name, log, n);
    KeyIsIrrelevant(key, 0, log[..n]);
    SendSafety.ReasonIsRecovered(name, log[..n], log[n].event.meta, log[n].event.decision, log[n].event.reason);
  }

  /** An answer with a receipt reports the entry of the receipt and the acceptance. */
  lemma RecordIsTold(log: seq<Entry>, envelope: Envelope, record: ReceivedRecord)
    requires RecordTold(log, envelope.content.messageID, record)
    requires record.envelopeDigest == EnvelopeDigest(envelope) && record.output.ack.Some?
    ensures ReceiveTold(log, envelope, record.output)
  {
    var m := envelope.content.messageID;
    var i: nat, j: nat :| && Names(log, i, record.output.sequence, record.output.head) && j <= i
                          && Accepts(log, j, m, record.envelopeDigest, record.output)
                          && (if i == j then record.output.ack == None
                              else log[i].event.AcknowledgementIssued? && log[i].event.meta.messageID == m
                                   && (record.output.ack == None || record.output.ack == Some(log[i].event.ack)));
    assert ReceiveReports(log, i, envelope, record.output);
  }

  // ----- One step -----

  /** The scopes of two evaluations under way are different. */
  lemma ScopesDiffer(s: State, k: ClaimKey, k': ClaimKey)
    requires Inv(s) && s.mode.Serving? && k in s.ops && k' in s.ops && k != k' && IsEvaluation(s.ops[k]) && IsEvaluation(s.ops[k'])
    ensures ScopeOf(MetaOf(s.config.name, s.ops[k].job)) != ScopeOf(MetaOf(s.config.name, s.ops[k'].job))
  {
    hide Inv, KeyOk, LogOk, IndexOf, GateOf, EvaluationOk, Steps.Settled, LiveOk, SentOk, FinalsOk, IntakeOk, SameButReceipts;
    InvKey(s, k);
    InvKey(s, k');
    InvDurable(s);
    LoggedIsOk(s);
    EvaluatingFacts(s, k, s.ops[k].job);
    EvaluatingFacts(s, k', s.ops[k'].job);
  }

  /** An event of one operation leaves the evaluations of the others alone. */
  lemma OthersStay(s: State, key: ClaimKey, event: Event, k: ClaimKey)
    requires Inv(s) && s.mode.Serving? && key in s.ops && k in s.ops && k != key && OwnEvent(s, s.ops[key], event)
    ensures ScopeFor(s.config.name, s.ops[k]).Some? ==> !Evaluates(event, ScopeFor(s.config.name, s.ops[k]).value)
  {
    hide Inv, MetaOf, ScopeOf, ValidIdentifier;
    if IsEvaluation(s.ops[k]) && IsEvaluation(s.ops[key]) {
      ScopesDiffer(s, key, k);
    }
  }

  lemma LastJudgement(log: seq<Entry>, e: Entry, scope: Scope, model: string, policy: string)
    requires e.event.ModelGuard? && ScopeOf(e.event.meta) == scope && e.event.model == model && e.event.policyVersion == policy
    ensures Evidence(log + [e], scope, model, policy, MarkOf(e), false)
  {
    var longer, n := log + [e], |log|;
    assert Judges(longer, scope, n, model, policy) && Names(longer, n, e.sequence, e.hash) && Quiet(longer, scope, n, |longer|);
  }

  lemma LastClearance(log: seq<Entry>, e: Entry, scope: Scope, model: string, policy: string, mark: Mark)
    requires Evidence(log, scope, model, policy, mark, false) && e.event.ApprovalConsumed? && ScopeOf(e.event.meta) == scope
    ensures Evidence(log + [e], scope, model, policy, MarkOf(e), true)
  {
    hide Evaluates;
    var longer, n := log + [e], |log|;
    var i: nat :| Judges(log, scope, i, model, policy) && Quiet(log, scope, i, |log|) && Names(log, i, mark.sequence, mark.head);
    assert Judges(longer, scope, i, model, policy) && Quiet(longer, scope, i, n) && Quiet(longer, scope, n, |longer|);
    assert IsClearance(longer, scope, n) && Names(longer, n, e.sequence, e.hash);
  }

  /** What an operation goes on with after its append is backed by the entry. */
  lemma AppendedBacked(s: State, key: ClaimKey, event: Event, at: Time, next: Op)
    requires Inv(s) && s.mode.Serving? && key in s.ops && Backed(s.config, s.known, s.ops[key])
    requires AppendTells(s, s.ops[key], event, NextEntry(s.known, event, at), next)
    requires LogOk(s.config.name, s.known + [NextEntry(s.known, event, at)])
    ensures Backed(s.config, s.known + [NextEntry(s.known, event, at)], next)
  {
    hide Inv, LogOk, MetaOf, Evidence, SendTold, ReceiveTold, OwnEvent, ValidInput, Evaluates, NextEntry;
    var op, e, name := s.ops[key], NextEntry(s.known, event, at), s.config.name;
    NextHolds(s.known, event, at);
    OwnMeta(s, op, event);
    match next
    case Decide(job, verdict, model, mark) =>
      if verdict.decision != Deny {
        LastJudgement(s.known, e, ScopeOf(MetaOf(name, job)), model, s.config.policyVersion);
      }
    case Finalize(job, verdict, model, mark) =>
      var earlier :| Evidence(s.known, ScopeOf(MetaOf(name, job)), model, s.config.policyVersion, earlier, false);
      LastClearance(s.known, e, ScopeOf(MetaOf(name, job)), model, s.config.policyVersion, earlier);
    case SendStoreReview(job, output) =>
      if job.SendJob? {
        HeldBackTold(s, key, event, at, output);
      }
    case Done(Some(a)) => ReceiveAnswerTold(s, op, event, e, a.receiveOutput);
    case _ =>
  }

  lemma OwnMeta(s: State, op: Op, event: Event)
    requires OwnEvent(s, op, event)
    ensures event.ModelGuard? || event.ApprovalConsumed? || event.ApprovalRequired? || event.MessageBlocked? ==>
              IsEvaluation(op) && event.meta == MetaOf(s.config.name, op.job)
  {
    hide MetaOf, ValidIdentifier;
  }

  lemma ReceiveAnswerTold(s: State, op: Op, event: Event, e: Entry, output: ReceiveOutput)
    requires IsEvaluation(op) && op.job.ReceiveJob? && AnswersWith(op.job.envelope, event, e, output) && e.event == event
    requires event.meta == MetaOf(s.config.name, op.job)
    ensures ReceiveTold(s.known + [e], op.job.envelope, output)
  {
    var n, log := |s.known|, s.known + [e];
    assert Names(log, n, e.sequence, e.hash) && log[n].event == event;
    assert ReceiveReports(log, n, op.job.envelope, output);
  }

  /** A request that is held back is told so. */
  lemma HeldBackTold(s: State, key: ClaimKey, event: Event, at: Time, output: SendOutput)
    requires Inv(s) && s.mode.Serving? && key in s.ops && s.ops[key].RequireApproval? && s.ops[key].job.SendJob?
    requires event.ApprovalRequired? && event.meta == MetaOf(s.config.name, s.ops[key].job)
    requires var job, e := s.ops[key].job, NextEntry(s.known, event, at);
             output == SendOutput(ReviewRequired, job.messageID, job.input.requestID, TextDigest(job.input.text), Review,
                                  event.reason, None, e.sequence, e.hash)
    requires LogOk(s.config.name, s.known + [NextEntry(s.known, event, at)])
    ensures SendTold(s.known + [NextEntry(s.known, event, at)], s.ops[key].job.input, output)
  {
    hide Inv, KeyOk, LogOk, IndexOf, GateOf, EvaluationOk, Steps.Settled, LiveOk, Binding, NextEntry, Frames.MetaFits;
    var job, e := s.ops[key].job, NextEntry(s.known, event, at);
    InvKey(s, key);
    EvaluatingFacts(s, key, job);
    NextHolds(s.known, event, at);
    assert IsRequest(s.known, job.input, job.messageID);
    RequestStays(s.config.name, s.known, s.known + [e], job.input, job.messageID);
    assert Names(s.known + [e], |s.known|, e.sequence, e.hash);
    assert SendReports((s.known + [e])[|s.known|].event, job.input, output);
  }

  lemma ReleaseStates(s: State, op: Op, event: Event)
    requires Backed(s.config, s.known, op) && OwnEvent(s, op, event) && event.OutboundReleased?
    ensures var c := event.envelope.content;
            && Evidence(s.known, ScopeOf(event.meta), c.guardModel, c.policyVersion, Mark(c.sourceSequence, c.sourceHead),
                        c.guardDecision == ReviewApproved)
            && c.policyVersion == s.config.policyVersion
            && event.envelope.signature.signer == s.key && EnvelopeVerifies(s.key, event.envelope)
  {
    hide Evidence, MetaOf;
  }

  lemma SubmissionStates(s: State, op: Op, event: Event)
    requires Backed(s.config, s.known, op) && OwnEvent(s, op, event) && event.MessageSubmitted?
    requires s.config.maxMessageBytes <= MAX_MESSAGE_BYTES
    ensures ValidIdentifier(event.meta.messageID) && ValidIdentifier(event.requestID) && ValidIdentifier(event.conversationID)
    ensures ValidIdentifier(event.meta.destination) && ValidText(event.text, MAX_MESSAGE_BYTES)
  {
    hide ValidIdentifier, ValidText, ValidInput;
    InputIsValid(s.config, op.input);
  }

  /** What the event of an operation states is backed by the entries before it. */
  lemma EventTold(s: State, key: ClaimKey, event: Event, at: Time)
    requires Inv(s) && s.mode.Serving? && key in s.ops && Backed(s.config, s.known, s.ops[key]) && OwnEvent(s, s.ops[key], event)
    ensures EntryTold(s.keys, s.known + [NextEntry(s.known, event, at)], |s.known|)
  {
    hide Inv, LogOk, Evidence, NextEntry, ValidIdentifier, ValidText, Blank, OwnEvent, Backed, EnvelopeVerifies, LiveOk;
    var log := s.known + [NextEntry(s.known, event, at)];
    NextHolds(s.known, event, at);
    assert log[..|s.known|] == s.known;
    InvDurable(s);
    KeyIsUsed(s);
    InvKey(s, key);
    Limits(s);
    if event.MessageSubmitted? {
      SubmissionStates(s, s.ops[key], event);
    } else if event.OutboundReleased? {
      ReleaseStates(s, s.ops[key], event);
    }
  }

  lemma KeyIsUsed(s: State)
    requires Durable(s)
    ensures s.key in s.keys
  {
    hide LogOk, SignedLocally, Authorized, TransitionsOf;
    assert s.keys[0] == s.key;
  }

  lemma Limits(s: State)
    requires LiveOk(s)
    ensures s.config.maxMessageBytes <= MAX_MESSAGE_BYTES && !Blank(s.config.policyVersion)
  {
    hide KeyOk, ConfirmsOk, InboxAgrees, OrderAgrees, Blank;
  }

  lemma InputIsValid(config: Config, input: SendInput)
    requires ValidInput(config, input) && config.maxMessageBytes <= MAX_MESSAGE_BYTES
    ensures ValidIdentifier(input.destination) && ValidIdentifier(input.requestID) && ValidIdentifier(input.conversationID)
    ensures ValidText(input.text, MAX_MESSAGE_BYTES)
  {
    hide ValidIdentifier;
  }

  /** What an operation goes on with in memory is backed by the log as it is. */
  lemma LocalBacked(s: State, key: ClaimKey, next: Op)
    requires Inv(s) && s.mode.Serving? && key in s.ops && Backed(s.config, s.known, s.ops[key])
    requires LocalTells(s, s.ops[key], next)
    ensures Backed(s.config, s.known, next)
  {
    hide Inv, LogOk, MetaOf, Evidence, SendTold, ReceiveTold, ValidInput;
    match next
    case Finalize(job, verdict, model, mark) => DecidedByGuards(s, key);
    case Done(Some(a)) => StoredAnswerTold(s, key, a);
    case _ =>
  }

  lemma DecidedByGuards(s: State, key: ClaimKey)
    requires Inv(s) && s.mode.Serving? && key in s.ops && s.ops[key].Decide?
    ensures IsVerdict(s.ops[key].verdict.decision)
  {
    hide Inv, KeyOk, LiveOk, IndexOf, GateOf, Steps.Settled, Frames.MetaFits;
    InvKey(s, key);
    EvaluatingFacts(s, key, s.ops[key].job);
  }

  lemma StoredAnswerTold(s: State, key: ClaimKey, a: Answer)
    requires Inv(s) && s.mode.Serving? && key in s.ops && Backed(s.config, s.known, s.ops[key])
    requires StoredAnswer(s.box.intake, s.ops[key], a)
    ensures AnswerTold(s.known, a)
  {
    hide Inv, LogOk, KeyOk, LiveOk, IndexOf, SendTold, ReceiveTold, RecordTold;
    InvKey(s, key);
    InvLog(s);
    match s.ops[key]
    case SendStoreFinal(job, output) =>
      FinalFacts(s, key);
      FinalTold(s.config.name, s.known, job.input);
    case StoreAck(envelope, record) =>
      ReceiptFacts(s, key);
      RecordsTold(s.config.name, s.key, s.known, envelope.content.messageID);
      RecordIsTold(s.known, envelope, record);
    case ReceiveLookup(envelope) =>
      LookupFacts(s, key);
      RecordsTold(s.config.name, s.key, s.known, envelope.content.messageID);
      RecordIsTold(s.known, envelope, s.box.intake.received[envelope.content.messageID]);
    case _ =>
  }

  lemma FinalFacts(s: State, key: ClaimKey)
    requires KeyOk(s, key) && key in s.ops && s.ops[key].SendStoreFinal?
    ensures var job := s.ops[key].job;
            job.SendJob? && InputOk(key, job.input)
            && Lookup(LoggedOutbox(s).requests, key) == Some(RecordFor(job, Some(s.ops[key].output), true))
  {
    hide IndexOf, GateOf, EvaluationOk;
  }

  lemma ReceiptFacts(s: State, key: ClaimKey)
    requires KeyOk(s, key) && key in s.ops && s.ops[key].StoreAck?
    ensures Lookup(LoggedIntake(s).received, s.ops[key].envelope.content.messageID) == Some(s.ops[key].record)
    ensures s.ops[key].record.envelopeDigest == EnvelopeDigest(s.ops[key].envelope)
  {
    hide IndexOf, GateOf, EvaluationOk;
  }

  lemma LookupFacts(s: State, key: ClaimKey)
    requires KeyOk(s, key) && key in s.ops && s.ops[key].ReceiveLookup?
    ensures var m := s.ops[key].envelope.content.messageID;
            Lookup(s.box.intake.received, m) == Lookup(LoggedIntake(s).received, m)
  {
    hide IndexOf, GateOf, EvaluationOk;
  }

  // ----- Every step -----

  /** A state with the same log, fewer or equally backed operations, and answers that were told. */
  lemma SameTold(s: State, s': State)
    requires Told(s) && s'.config == s.config && s'.known == s.known && s'.tail == s.tail && s'.keys == s.keys
    requires forall k :: k in s'.ops ==> (k in s.ops && s'.ops[k] == s.ops[k]) || Backed(s.config, s.known, s'.ops[k])
    requires forall a :: a in s'.answers ==> a in s.answers || AnswerTold(s.known, a)
    ensures Told(s')
  {
    hide Backed, AnswerTold, EntryTold;
    assert Disk(s') == Disk(s);
  }

  lemma StoredTold(s: State, s': State, key: ClaimKey, event: Event, at: Time, next: Op)
    requires Inv(s) && Told(s) && s.mode.Serving? && !s.poisoned && key in s.ops
    requires s' == At(s.(known := s.known + [NextEntry(s.known, event, at)]), key, next) && Inv(s')
    requires AppendTells(s, s.ops[key], event, NextEntry(s.known, event, at), next)
    ensures Told(s')
  {
    hide Inv, LogOk, Backed, AnswerTold, EntryTold, NextEntry, AppendTells, OwnEvent, Evaluates, ScopeFor;
    var e := NextEntry(s.known, event, at);
    InvLog(s');
    NextHolds(s.known, event, at);
    TellsOwn(s, s.ops[key], event, e, next);
    AppendedBacked(s, key, event, at, next);
    EventTold(s, key, event, at);
    forall k | k in s'.ops ensures Backed(s'.config, s'.known, s'.ops[k]) {
      if k != key {
        OthersStay(s, key, event, k);
        BackedStays(s.config, s.known, e, s.ops[k]);
      }
    }
    forall a | a in s'.answers ensures AnswerTold(s'.known, a) {
      AnswerToldStays(s.config.name, s.known, s'.known, a);
    }
    NoTailBehind(s);
    assert Disk(s') == s.known + [e];
    MoreEntriesTold(s, s', e);
  }

  lemma NoTailBehind(s: State)
    requires Inv(s) && !s.poisoned
    ensures s.tail == [] && Disk(s) == s.known && Durable(s)
  {
    hide LogOk, SignedLocally, Authorized, KeysOk, AnswersOk, LiveOk, RotationOk;
  }

  lemma TellsOwn(s: State, op: Op, event: Event, e: Entry, next: Op)
    requires AppendTells(s, op, event, e, next)
    ensures OwnEvent(s, op, event)
  {
    hide OwnEvent;
  }

  /** One more entry on disk, told by the entries before it. */
  lemma MoreEntriesTold(s: State, s': State, e: Entry)
    requires s.tail == [] && (forall i :: 0 <= i < |Disk(s)| ==> EntryTold(s.keys, Disk(s), i))
    requires Disk(s') == s.known + [e] && s'.keys == s.keys && EntryTold(s.keys, s.known + [e], |s.known|)
    ensures forall i :: 0 <= i < |Disk(s')| ==> EntryTold(s'.keys, Disk(s'), i)
  {
    hide EntryTold;
    assert Disk(s) == s.known;
    forall i | 0 <= i < |Disk(s')| ensures EntryTold(s'.keys, Disk(s'), i) {
      if i < |s.known| {
        EntryToldStays(s.keys, s.keys, s.known, Disk(s'), i);
      }
    }
  }

  lemma FailedTold(s: State, key: ClaimKey, event: Event, outcome: Outcome)
    requires Inv(s) && Told(s) && s.mode.Serving? && key in s.ops && OwnEvent(s, s.ops[key], event)
    requires Append(s, event, outcome).1.None?
    ensures Told(At(Append(s, event, outcome).0, key, Done(None)))
  {
    hide Inv, Backed, AnswerTold, EntryTold, NextEntry, OwnEvent;
    var s' := At(Append(s, event, outcome).0, key, Done(None));
    assert Backed(s.config, s.known, Done(None)) by { NothingBacked(s.config, s.known); }
    if s.poisoned || !outcome.Uncertain? {
      SameTold(s, s');
    } else {
      var e := NextEntry(s.known, event, outcome.at);
      EventTold(s, key, event, outcome.at);
      NoTailBehind(s);
      assert Disk(s') == s.known + [e];
      MoreEntriesTold(s, s', e);
    }
  }

  lemma NothingBacked(config: Config, log: seq<Entry>)
    ensures Backed(config, log, Done(None))
  {
  }

  lemma ReleaseTold(s: State, key: ClaimKey)
    requires Told(s) && key in s.ops && s.ops[key].Done?
    ensures Told(Release(s, key))
  {
    hide AnswerTold, EntryTold;
    SameTold(s, Release(s, key));
  }

  lemma LocalTold(s: State, key: ClaimKey, next: Op, box: Mailbox)
    requires Inv(s) && Told(s) && s.mode.Serving? && key in s.ops && LocalTells(s, s.ops[key], next)
    ensures Told(At(s.(box := box), key, next))
  {
    hide Inv, Backed, AnswerTold, EntryTold, LocalTells;
    LocalBacked(s, key, next);
    SameTold(s, At(s.(box := box), key, next));
  }

  lemma AdvanceTold(s: State, key: ClaimKey, c: Choice)
    requires Inv(s) && Told(s) && s.mode.Serving? && key in s.ops
    ensures Told(Advance(s, key, c))
  {
    hide Inv, Advance, Told, Tells, Release;
    if s.ops[key].Done? {
      DoneAdvances(s, key, c);
      ReleaseTold(s, key);
    } else {
      AdvanceTells(s, key, c);
      AdvanceSafe(s, key, c);
      TellsTold(s, Advance(s, key, c), key, c);
    }
  }

  lemma DoneAdvances(s: State, key: ClaimKey, c: Choice)
    requires key in s.ops && s.ops[key].Done?
    ensures Advance(s, key, c) == Release(s, key)
  {
    hide SendStep, EvaluationStep, FinalizeStep, ReceiveStep, ConfirmStep, Release;
  }

  lemma TellsTold(s: State, s': State, key: ClaimKey, c: Choice)
    requires Inv(s) && Told(s) && s.mode.Serving? && key in s.ops && Tells(s, s', key, c) && Inv(s')
    ensures Told(s')
  {
    hide Inv, Told, LocalTells, AppendTells, Written, AppendThen, At;
    var op := s.ops[key];
    if next, box: Mailbox :| LocalTells(s, op, next) && s' == At(s.(box := box), key, next) {
      LocalTold(s, key, next, box);
    } else if s' != s {
      var event, next :| AppendTells(s, op, event, Written(s, event, c.outcome), next)
                         && s' == AppendThen(s, key, event, c.outcome, next);
      AppendedTold(s, key, event, c.outcome, next);
    }
  }

  lemma AppendedTold(s: State, key: ClaimKey, event: Event, outcome: Outcome, next: Op)
    requires Inv(s) && Told(s) && s.mode.Serving? && key in s.ops
    requires AppendTells(s, s.ops[key], event, Written(s, event, outcome), next) && Inv(AppendThen(s, key, event, outcome, next))
    ensures Told(AppendThen(s, key, event, outcome, next))
  {
    hide Inv, Told, AppendTells, OwnEvent, NextEntry;
    TellsOwn(s, s.ops[key], event, Written(s, event, outcome), next);
    if s.poisoned || !outcome.Stored? {
      FailedTold(s, key, event, outcome);
    } else {
      StoredTold(s, AppendThen(s, key, event, outcome, next), key, event, outcome.at, next);
    }
  }

  /** A claim adds an operation that knows nothing yet, and possibly an answer that is final. */
  lemma ClaimSendTold(s: State, input: SendInput)
    requires Inv(s) && Told(s) && s.mode.Serving?
    ensures Told(ClaimSend(s, input))
  {
    hide Inv, Told, ClaimStatus, ValidInput, Binding, Grant, SendTold;
    var key := SendKey(input.requestID);
    if ValidInput(s.config, input) {
      match ClaimStatus(s, key, Binding(input))
      case Turned(_) =>
      case Existing(output) =>
        if output.Some? {
          ExistingTold(s, input, output.value);
          AnsweredTold(s, input, output.value);
        }
      case Granted => GrantTold(s, key, Binding(input), SendLookup(input));
    }
  }

  lemma AnsweredTold(s: State, input: SendInput, output: SendOutput)
    requires Told(s) && SendTold(s.known, input, output)
    ensures Told(s.(answers := s.answers + {SendAnswer(input, output)}))
  {
    hide SendTold, EntryTold, Backed;
    SameTold(s, s.(answers := s.answers + {SendAnswer(input, output)}));
  }

  lemma ExistingTold(s: State, input: SendInput, output: SendOutput)
    requires Inv(s) && s.mode.Serving? && ValidInput(s.config, input)
    requires ClaimStatus(s, SendKey(input.requestID), Binding(input)) == Existing(Some(output))
    ensures SendTold(s.known, input, output)
  {
    hide Inv, KeyOk, LiveOk, LogOk, ClaimStatus, Binding, IndexOf, SendTold;
    var key := SendKey(input.requestID);
    InvKey(s, key);
    InvLog(s);
    ExistingIsFinal(s, key, Binding(input));
    FinalIsLogged(s, key);
    FinalTold(s.config.name, s.known, input);
  }

  lemma GrantTold(s: State, key: ClaimKey, binding: Digest, op: Op)
    requires Told(s) && Backed(s.config, s.known, op)
    ensures Told(Grant(s, key, binding, op))
  {
    hide Backed, AnswerTold, EntryTold;
    SameTold(s, Grant(s, key, binding, op));
  }

  lemma ClaimReceiveTold(s: State, envelope: Envelope, now: Time)
    requires Told(s)
    ensures Told(ClaimReceive(s, envelope, now))
  {
    hide Told, ValidEnvelope, ClaimStatus, Grant;
    GrantTold(s, ReceiveKey(envelope.content.messageID), EnvelopeDigest(envelope), ReceiveLookup(envelope));
  }

  lemma ConfirmationTold(s: State, s': State)
    requires Told(s) && s' == s.(looked := s'.looked, answers := s'.answers, closing := s'.closing, approved := s'.approved)
    requires forall a :: a in s'.answers ==> a in s.answers || a.ConfirmAnswer?
    ensures Told(s')
  {
    hide Backed, EntryTold;
    SameTold(s, s');
  }

  lemma ClaimConfirmTold(s: State, ack: Ack, envelope: Envelope)
    requires Told(s)
    ensures Told(ClaimConfirm(s, ack, envelope))
  {
    hide Told, ClaimStatus, Grant;
    var after := s.(looked := s.looked - multiset{(ack, envelope)});
    ConfirmationTold(s, after);
    GrantTold(after, ConfirmKey(ack.content.messageID), ack.content.envelopeDigest, ConfirmAppend(ack, envelope));
  }

  lemma LookupTold(s: State, ack: Ack, now: Time)
    requires Told(s)
    ensures Told(LookupConfirm(s, ack, now))
  {
    hide Told, ValidAck;
    ConfirmationTold(s, LookupConfirm(s, ack, now));
  }

  /** An event that no operation evaluates leaves everything backed. */
  lemma PlainAppendTold(s: State, event: Event, outcome: Outcome)
    requires TailOk(s) && Told(s) && (event.Notice? || event.RotationPrepared? || event.RotationCompleted?)
    requires LogOk(s.config.name, Disk(Append(s, event, outcome).0))
    ensures Told(Append(s, event, outcome).0)
  {
    hide AnswerTold, EntryTold, NextEntry, LogOk, Backed;
    var s' := Append(s, event, outcome).0;
    if s.poisoned || outcome.Refused? || outcome.Lost? {
      SameTold(s, s');
    } else {
      var e := NextEntry(s.known, event, outcome.at);
      NextHolds(s.known, event, outcome.at);
      assert Disk(s) == s.known && Disk(s') == s.known + [e];
      PlainEntryTold(s.keys, s.known, e);
      MoreEntriesTold(s, s', e);
      if outcome.Stored? {
        PlainEvaluates(event);
        assert s'.known == Disk(s');
        forall k | k in s'.ops ensures Backed(s'.config, s'.known, s'.ops[k]) {
          BackedStays(s.config, s.known, e, s.ops[k]);
        }
        forall a | a in s'.answers ensures AnswerTold(s'.known, a) {
          AnswerToldStays(s.config.name, s.known, s'.known, a);
        }
      }
    }
  }

  lemma PlainEvaluates(event: Event)
    requires event.Notice? || event.RotationPrepared? || event.RotationCompleted?
    ensures forall scope :: !Evaluates(event, scope)
  {
  }

  lemma PlainEntryTold(keys: seq<Key>, log: seq<Entry>, e: Entry)
    requires e.event.Notice? || e.event.RotationPrepared? || e.event.RotationCompleted?
    ensures EntryTold(keys, log + [e], |log|)
  {
  }

  lemma ServingTold(s: State, a: Action)
    requires Inv(s) && Told(s) && s.mode.Serving? && Inv(DoWhileServing(s, a))
    ensures Told(DoWhileServing(s, a))
  {
    hide Inv, Told, Advance, Append, ClaimSend, ClaimReceive, LookupConfirm, ClaimConfirm;
    match a
    case DoClaimSend(input) => ClaimSendTold(s, input);
    case DoClaimReceive(envelope, now) => ClaimReceiveTold(s, envelope, now);
    case DoLookupConfirm(ack, now) => LookupTold(s, ack, now);
    case DoClaimConfirm(ack, envelope) => ClaimConfirmTold(s, ack, envelope);
    case DoAdvance(key, choice) => if key in s.ops { AdvanceTold(s, key, choice); }
    case DoNotice(kind, outcome) =>
      TailOfDurable(s);
      InvDisk(DoWhileServing(s, a));
      AppendKeepsName(s, Notice(kind), outcome);
      PlainAppendTold(s, Notice(kind), outcome);
    case DoClose => ConfirmationTold(s, s.(closing := true));
    case _ =>
  }

  lemma HaltTold(s: State)
    requires Told(s) && LogOk(s.config.name, Disk(s))
    ensures Told(Halt(s))
  {
    hide AnswerTold, EntryTold, LogOk;
    var s' := Halt(s);
    assert Disk(s') == Disk(s);
    forall a | a in s'.answers ensures AnswerTold(s'.known, a) {
      AnswerToldStays(s.config.name, s.known, Disk(s), a);
    }
  }

  lemma InvDisk(s: State)
    requires Inv(s)
    ensures LogOk(s.config.name, Disk(s)) && (!s.mode.Serving? ==> s.ops == map[])
  {
    hide LogOk, AnswersOk, LiveOk, SignedLocally, Authorized, KeysOk, RotationOk;
  }

  /** More keys, another configuration or another mode tell nothing new while nothing runs. */
  lemma IdleTold(s: State, s': State)
    requires Told(s) && s.ops == map[] && s'.ops == map[] && s'.known == s.known && s'.tail == s.tail && s'.answers == s.answers
    requires forall k :: k in s.keys ==> k in s'.keys
    ensures Told(s')
  {
    hide AnswerTold, EntryTold, Backed;
    assert Disk(s') == Disk(s);
    forall i | 0 <= i < |Disk(s')| ensures EntryTold(s'.keys, Disk(s'), i) {
      EntryToldStays(s.keys, s'.keys, Disk(s), Disk(s), i);
    }
  }

  lemma AppendKeepsName(s: State, event: Event, outcome: Outcome)
    ensures var t := Append(s, event, outcome).0; t == s.(known := t.known, tail := t.tail, poisoned := t.poisoned)
  {
    hide NextEntry;
  }

  lemma HaltDisk(s: State)
    ensures Disk(Halt(s)) == Disk(s) && Halt(s).config == s.config && Halt(s).ops == map[]
  {
  }

  lemma BeginTold(s: State, next: Key, at: Time, outcome: Outcome)
    requires Inv(s) && Told(s) && s.mode.Down? && next !in s.owned
    ensures Told(BeginRotation(s, next, at, outcome))
  {
    hide Inv, Told, Append, Halt, MakeRotation, Disk, TailOk, LogOk;
    var mine := s.(owned := s.owned + {next});
    var event := RotationPrepared(MakeRotation(s.config.name, s.key, next, at));
    var after, s' := Append(mine, event, outcome).0, BeginRotation(s, next, at, outcome);
    TailOfDurable(s);
    SameTail(s, mine);
    InvDisk(s);
    IdleTold(s, mine);
    BeginRotationSafe(s, next, at, outcome);
    InvDisk(s');
    AppendKeepsName(mine, event, outcome);
    HaltDisk(after);
    SameDisk(after, after.(mode := s'.mode));
    PlainAppendTold(mine, event, outcome);
    HaltTold(after);
    IdleTold(after, after.(mode := s'.mode));
  }

  lemma CompleteTold(s: State, outcome: Outcome)
    requires Inv(s) && Told(s) && s.mode.Rotating?
    ensures Told(CompleteRotation(s, outcome))
  {
    hide Inv, Told, Append, Halt, Disk, TailOk, LogOk;
    if s.mode.committed {
      var c := s.mode.rotation.content;
      var event := RotationCompleted(c.previous, c.next);
      var after := Append(s, event, outcome).0;
      TailOfDurable(s);
      CompleteRotationSafe(s, outcome);
      InvDisk(CompleteRotation(s, outcome));
      AppendKeepsName(s, event, outcome);
      HaltDisk(after);
      PlainAppendTold(s, event, outcome);
      HaltTold(after);
    }
  }

  lemma ServeTold(s: State)
    requires Told(s) && s.ops == map[]
    ensures Told(Serve(s))
  {
    hide Told, IndexOf;
    IdleTold(s, Serve(s));
  }

  lemma CommitTold(s: State)
    requires Told(s) && s.mode.Rotating? && s.ops == map[]
    ensures Told(CommitRotation(s))
  {
    hide Told;
    IdleTold(s, CommitRotation(s));
  }

  /** Every step keeps answers and envelopes backed by the log. */
  lemma StepTold(s: State, a: Action)
    requires Inv(s) && Told(s)
    ensures Told(Do(s, a))
  {
    hide Inv, Told, DoWhileServing, BeginRotation, Serve, Rebuilds, Startable, CompleteRotation, CommitRotation, Halt, Disk;
    InvDisk(s);
    StepSafe(s, a);
    match a
    case DoHalt => HaltTold(s);
    case DoApprove(approval) => ConfirmationTold(s, s.(approved := Do(s, a).approved));
    case DoCommitRotation =>
      if s.mode.Rotating? {
        CommitTold(s);
      }
    case DoCompleteRotation(outcome) =>
      if s.mode.Rotating? {
        CompleteTold(s, outcome);
      }
    case _ =>
      if s.mode.Serving? {
        ServingTold(s, a);
      } else if s.mode.Down? {
        match a
        case DoStart => ServeTold(s);
        case DoConfigure(config) => IdleTold(s, s.(config := config));
        case DoBeginRotation(next, at, outcome) => if next !in s.owned { BeginTold(s, next, at, outcome); }
        case _ =>
      }
  }

  lemma {:induction false} RunTold(config: Config, key: Key, actions: seq<Action>)
    ensures Told(Run(Initial(config, key), actions))
  {
    hide Told, Do;
    if actions == [] {
      NothingTold(config, key);
    } else {
      var s := Run(Initial(config, key), actions[..|actions| - 1]);
      RunTold(config, key, actions[..|actions| - 1]);
      RunSafe(config, key, actions[..|actions| - 1]);
      StepTold(s, actions[|actions| - 1]);
    }
  }

  lemma NothingTold(config: Config, key: Key)
    ensures Told(Initial(config, key))
  {
  }

  lemma ReachableTold(s: State)
    requires Reachable(s)
    ensures Told(s)
  {
    hide Told, Run;
    var config, key, actions :| s == Run(Initial(config, key), actions);
    RunTold(config, key, actions);
  }
}
