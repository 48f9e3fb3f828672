/** The steps of Send keep the invariant. */
module SendSafety {
  import opened Wrappers
  import opened Text
  import opened Records
  import opened Replay
  import opened Ledger
  import opened LogTheorems
  import opened GuardTheorems
  import opened Endpoint
  import opened Invariant
  import opened Frames
  import opened Steps
  import opened EvaluationSafety

  lemma LookupMoves(s: State, key: ClaimKey, c: Choice)
    requires key in s.ops && s.ops[key].SendLookup?
    ensures var s' := SendStep(s, key, s.ops[key], c);
            key in s'.ops && s' == At(s, key, s'.ops[key]) && (s'.ops[key].SendSubmit? || s'.ops[key].Screen?)
  {
    hide RequestOf;
  }

  lemma SendLookupSafe(s: State, key: ClaimKey, c: Choice)
    requires Inv(s) && s.mode.Serving? && key in s.ops && s.ops[key].SendLookup?
    ensures Inv(SendStep(s, key, s.ops[key], c))
  {
    hide LogOk, SignedLocally, Authorized, Inv, Durable, KeyOk, SendStep;
    InvDurable(s);
    InvKey(s, key);
    LookupMoves(s, key, c);
    LookupKeyOk(s, key, c);
    LocalMove(s, key, SendStep(s, key, s.ops[key], c).ops[key]);
  }

  /** A request that is found again is the one that was submitted, text included. */
  lemma FoundRequest(s: State, key: ClaimKey, input: SendInput)
    requires Durable(s) && key in LoggedOutbox(s).requests && InputOk(key, input)
    requires LoggedOutbox(s).requests[key].hash == Binding(input) && !LoggedOutbox(s).requests[key].final
    ensures var record := LoggedOutbox(s).requests[key];
            record == RecordFor(SendJob(input, record.messageID, record.createdAt), None, false)
            && record.messageID != "" && record.messageID !in LoggedOutbox(s).sent
  {
    hide SignedLocally, Authorized, GateOf;
    LoggedIsOk(s);
    var i := SubmissionOf(s.config.name, s.known, key);
    assert EntryOk(s.config.name, s.known, i);
    var e := s.known[i].event;
    BindingIsInjective(input.destination, input.conversationID, input.text, e.meta.destination, e.conversationID, e.text);
  }

  lemma LookupKeyOk(s: State, key: ClaimKey, c: Choice)
    requires Durable(s) && KeyOk(s, key) && key in s.ops && s.ops[key].SendLookup?
    ensures KeyOk(SendStep(s, key, s.ops[key], c), key)
  {
    hide IndexOf, GateOf, Durable;
    var input := s.ops[key].input;
    var v := SendViewOf(s, key);
    if v.logged.Some? {
      FoundRequest(s, key, input);
    }
  }

  // ----- Submission -----

  lemma SubmitSafe(s: State, key: ClaimKey, c: Choice)
    requires Inv(s) && s.mode.Serving? && key in s.ops && s.ops[key].SendSubmit?
    ensures Inv(SendStep(s, key, s.ops[key], c))
  {
    hide LiveOk, LogOk, SignedLocally, Authorized, AnswersOk, AnswerOk, IndexOf, GateOf, RequestsOk, KeyOk, Durable, Inv, Settled,
         MayAppend, Footprint;
    var input := s.ops[key].input;
    if !c.ok {
      GiveUpSafe(s, key);
    } else if FreshID(s.known, c.id) {
      var event := MessageSubmitted(Meta(Outbound, s.config.name, input.destination, c.id), input.requestID, input.conversationID, input.text);
      InvKey(s, key);
      SubmissionMayBeAppended(s, key, c.id, event);
      if s.poisoned || !c.outcome.Stored? {
        FailedStep(s, key, event, c.outcome);
      } else {
        SubmitStored(s, key, c.id, event, c.outcome.at);
      }
    }
  }

  /** No message ID could be generated. */
  lemma GiveUpSafe(s: State, key: ClaimKey)
    requires Inv(s) && s.mode.Serving? && key in s.ops && s.ops[key].SendSubmit?
    ensures Inv(At(s, key, Done(None)))
  {
    hide Inv, Settled, AnswerOk, KeyOk;
    InvKey(s, key);
    assert Settled(s, key) by { SubmittingIsSettled(s, key); }
    SettledMayEnd(s, At(s, key, Done(None)), key, None);
    LocalMove(s, key, Done(None));
  }

  lemma SubmittingIsSettled(s: State, key: ClaimKey)
    requires KeyOk(s, key) && key in s.ops && s.ops[key].SendSubmit?
    ensures Settled(s, key)
  {
    hide IndexOf, GateOf;
  }

  lemma SubmissionMayBeAppended(s: State, key: ClaimKey, id: string, event: Event)
    requires KeyOk(s, key) && key in s.ops && s.ops[key].SendSubmit? && FreshID(s.known, id)
    requires var input := s.ops[key].input;
             event == MessageSubmitted(Meta(Outbound, s.config.name, input.destination, id), input.requestID, input.conversationID, input.text)
    ensures MayAppend(s, event) && Settled(s, key) && Footprint(LoggedOutbox(s), key, event)
  {
    hide IndexOf, GateOf;
    assert id != "";
  }

  lemma SubmitStored(s: State, key: ClaimKey, id: string, event: Event, at: Time)
    requires Inv(s) && s.mode.Serving? && !s.poisoned && key in s.ops && s.ops[key].SendSubmit? && FreshID(s.known, id)
    requires var input := s.ops[key].input;
             event == MessageSubmitted(Meta(Outbound, s.config.name, input.destination, id), input.requestID, input.conversationID, input.text)
    ensures Inv(At(s.(known := s.known + [NextEntry(s.known, event, at)]), key, SendRecord(s.ops[key].input, id, at)))
  {
    hide LogOk, SignedLocally, Authorized, AnswersOk, AnswerOk, IndexOf, GateOf, RequestsOk, KeyOk, Durable, Settled,
         MayAppend, Footprint, InboxAgrees, OrderAgrees, ClaimsOk, ConfirmsOk, FreshID;
    InvKey(s, key);
    SubmissionMayBeAppended(s, key, id, event);
    var op := SendRecord(s.ops[key].input, id, at);
    var s' := At(s.(known := s.known + [NextEntry(s.known, event, at)]), key, op);
    LoggedIsOk(s);
    SentIsLogged(s);
    SubmittedKeyOk(s, s', key, id, event, at);
    assert Appended(s, s', key, event, at);
    InboxStays(s, s', key, event, at);
    StoredStep(s, s', key, event, at, op);
  }

  /** What the live map of sent envelopes holds is in the log. */
  predicate SentLogged(s: State) {
    forall m :: m in s.box.outbox.sent ==> Lookup(LoggedOutbox(s).sent, m) == Some(s.box.outbox.sent[m])
  }

  lemma SentIsLogged(s: State)
    requires ConfirmsOk(s)
    ensures SentLogged(s)
    ensures forall m :: m in s.box.outbox.confirmed ==> ConfirmationLogged(s.known, m, s.box.outbox.confirmed[m])
  {
    hide IndexOf, ConfirmsSent, ConfirmationLogged;
  }

  lemma SubmittedIndex(s: State, id: string, event: Event, at: Time)
    requires event.MessageSubmitted? && event.meta.messageID == id && FreshID(s.known, id) && SentOk(LoggedOutbox(s)) && SentLogged(s)
    ensures var input := SendInput(event.meta.destination, event.text, event.requestID, event.conversationID);
            var record := RecordFor(SendJob(input, id, at), None, false);
            IndexOf(0, s.known + [NextEntry(s.known, event, at)]).box.outbox
            == LoggedOutbox(s).(requests := LoggedOutbox(s).requests[SendKey(event.requestID) := record])
    ensures id !in LoggedOutbox(s).sent && id !in s.box.outbox.sent
  {
    IndexOfSnoc(0, s.known, NextEntry(s.known, event, at));
  }

  lemma SubmittedKeyOk(s: State, s': State, key: ClaimKey, id: string, event: Event, at: Time)
    requires KeyOk(s, key) && key in s.ops && s.ops[key].SendSubmit? && FreshID(s.known, id)
    requires var input := s.ops[key].input;
             event == MessageSubmitted(Meta(Outbound, s.config.name, input.destination, id), input.requestID, input.conversationID, input.text)
    requires s' == At(s.(known := s.known + [NextEntry(s.known, event, at)]), key, SendRecord(s.ops[key].input, id, at))
    requires SentOk(LoggedOutbox(s)) && SentLogged(s)
    ensures KeyOk(s', key)
  {
    hide GateOf, FreshID, SentOk, SentLogged, IndexOf;
    SubmittedIndex(s, id, event, at);
  }

  // ----- Updates of the maps -----

  /** The state after the operation at `key` has written its request and, with a release, its envelope. */
  predicate WroteRequest(s: State, s': State, key: ClaimKey, record: RequestRecord, envelope: Option<Envelope>, op: Op) {
    var sent := if envelope.Some? then s.box.outbox.sent[record.messageID := envelope.value] else s.box.outbox.sent;
    s' == At(s.(box := s.box.(outbox := s.box.outbox.(sent := sent, requests := s.box.outbox.requests[key := record]))), key, op)
  }

  lemma OtherRequestsStay(s: State, s': State, key: ClaimKey, record: RequestRecord, envelope: Option<Envelope>, op: Op, k: ClaimKey)
    requires WroteRequest(s, s', key, record, envelope, op) && KeyOk(s, k) && k != key
    requires RequestsOk(LoggedOutbox(s))
    requires key in LoggedOutbox(s).requests && LoggedOutbox(s).requests[key].messageID == record.messageID
    ensures KeyOk(s', k)
  {
    hide IndexOf, GateOf;
    match k {
      case SendKey(_) => assert SendViewOf(s', k) == SendViewOf(s, k);
      case ReceiveKey(_) => assert ReceiveViewOf(s', k) == ReceiveViewOf(s, k);
      case ConfirmKey(_) => assert ConfirmViewOf(s', k) == ConfirmViewOf(s, k);
    }
  }

  lemma WriteSafe(s: State, s': State, key: ClaimKey, record: RequestRecord, envelope: Option<Envelope>, op: Op)
    requires Inv(s) && s.mode.Serving? && key in s.ops && !s.ops[key].ReceiveStore? && !op.ReceiveStore? && !op.ConfirmAppend?
    requires WroteRequest(s, s', key, record, envelope, op) && KeyOk(s', key)
    requires Lookup(LoggedOutbox(s).requests, key).Some? && LoggedOutbox(s).requests[key].messageID == record.messageID
    requires envelope.Some? ==> Lookup(LoggedOutbox(s).sent, record.messageID) == envelope
    requires op.Done? && op.answer.Some? ==> AnswerOk(s.known, op.answer.value)
    ensures Inv(s')
  {
    hide KeyOk, AnswerOk, LogOk, SignedLocally, Authorized, AnswersOk, ClaimsOk, InboxAgrees, OrderAgrees, IndexOf,
         RequestsOk, SentOk, FinalsOk, IntakeOk, SameButReceipts, ConfirmsOk;
    LoggedIsOk(s);
    InvKey(s, key);
    forall k ensures KeyOk(s', k) {
      if k != key {
        InvKey(s, k);
        OtherRequestsStay(s, s', key, record, envelope, op, k);
      }
    }
    SentIsLogged(s);
    OutboxOnly(s, s', key, op);
    MapStep(s, s', key, op);
  }

  lemma SendRecordSafe(s: State, key: ClaimKey, c: Choice)
    requires Inv(s) && s.mode.Serving? && key in s.ops && s.ops[key].SendRecord?
    ensures Inv(SendStep(s, key, s.ops[key], c))
  {
    hide LiveOk, Durable, AnswersOk, AnswerOk, IndexOf, GateOf, Inv;
    InvKey(s, key);
    var op := s.ops[key];
    var job := SendJob(op.input, op.messageID, op.createdAt);
    WriteSafe(s, SendStep(s, key, op, c), key, RecordFor(job, None, false), None, Screen(job));
  }

  lemma StoreReviewSafe(s: State, key: ClaimKey, c: Choice)
    requires Inv(s) && s.mode.Serving? && key in s.ops && s.ops[key].SendStoreReview?
    ensures Inv(SendStep(s, key, s.ops[key], c))
  {
    hide LiveOk, Durable, AnswersOk, IndexOf, GateOf, Inv;
    InvKey(s, key);
    var job, output := s.ops[key].job, s.ops[key].output;
    WriteSafe(s, SendStep(s, key, s.ops[key], c), key, RecordFor(job, Some(output), false), None,
              Done(Some(SendAnswer(job.input, output))));
  }

  lemma StoreFinalSafe(s: State, key: ClaimKey, c: Choice)
    requires Inv(s) && s.mode.Serving? && key in s.ops && s.ops[key].SendStoreFinal?
    ensures Inv(SendStep(s, key, s.ops[key], c))
  {
    hide LiveOk, Durable, AnswersOk, IndexOf, GateOf, Inv;
    InvKey(s, key);
    var job, output := s.ops[key].job, s.ops[key].output;
    WriteSafe(s, SendStep(s, key, s.ops[key], c), key, RecordFor(job, Some(output), true), output.envelope,
              Done(Some(SendAnswer(job.input, output))));
  }

  // ----- Denial and release -----

  /** The event that settles the request of `job`, and what the operation then writes. */
  predicate Settles(s: State, job: Job, event: Event, at: Time, output: SendOutput) {
    job.SendJob?
    && var e := NextEntry(s.known, event, at);
    var meta := MetaOf(s.config.name, job);
    match event
    case MessageBlocked(m, requestID, code) =>
      m == meta && requestID == job.input.requestID
      && output == BaseOutput(job, Status.Denied, Verdict(Deny, code), None, MarkOf(e))
    case OutboundReleased(m, requestID, envelope, reason) =>
      m == meta && requestID == job.input.requestID
      && envelope.content.messageID == job.messageID && envelope.content.requestID == requestID
      && envelope.content.bodyDigest == TextDigest(job.input.text)
      && output == BaseOutput(job, Released, Verdict(envelope.content.guardDecision, reason), Some(envelope), MarkOf(e))
    case _ => false
  }

  /** The index after the settling event holds the very record that the operation will write. */
  lemma SettledIndex(s: State, key: ClaimKey, job: Job, event: Event, at: Time, output: SendOutput)
    requires Settles(s, job, event, at, output) && key == SendKey(job.input.requestID)
    requires Lookup(LoggedOutbox(s).requests, key) == Some(RecordFor(job, None, false))
    requires event.OutboundReleased? ==>
               ReasonOf(IndexOf(0, s.known).decisions, event.meta, event.reason) == event.reason
    ensures var after := IndexOf(0, s.known + [NextEntry(s.known, event, at)]).box.outbox;
            after.requests == LoggedOutbox(s).requests[key := RecordFor(job, Some(output), true)]
            && after.sent == (if output.envelope.Some? then LoggedOutbox(s).sent[job.messageID := output.envelope.value]
                              else LoggedOutbox(s).sent)
  {
    IndexOfSnoc(0, s.known, NextEntry(s.known, event, at));
  }

  lemma SettledKeyOk(s: State, s': State, key: ClaimKey, job: Job, event: Event, at: Time, output: SendOutput)
    requires KeyOk(s, key) && Evaluating(s, key, job) && Settles(s, job, event, at, output)
    requires s' == At(s.(known := s.known + [NextEntry(s.known, event, at)]), key, SendStoreFinal(job, output))
    requires event.OutboundReleased? ==>
               ReasonOf(IndexOf(0, s.known).decisions, event.meta, event.reason) == event.reason
    requires SentLogged(s)
    ensures KeyOk(s', key)
  {
    hide GateOf, IndexOf, EvaluationOk, ReasonOf;
    EvaluatingFacts(s, key, job);
    SettledIndex(s, key, job, event, at, output);
  }

  lemma ReasonIsRecovered(name: string, log: seq<Entry>, meta: Meta, decision: Decision, reason: string)
    requires LogOk(name, log) && Opens(GateOf(log, ScopeOf(meta)), decision, reason)
    ensures ReasonOf(IndexOf(0, log).decisions, meta, reason) == reason
  {
    hide IndexOf, GateOf, EntryOk;
    DecisionFollowsGate(name, log, ScopeOf(meta));
  }

  lemma SettlingMayBeAppended(s: State, key: ClaimKey, job: Job, event: Event, at: Time, output: SendOutput)
    requires KeyOk(s, key) && Evaluating(s, key, job) && Settles(s, job, event, at, output)
    requires Admissible(s.config.name, s.known, event) && EventAuthorized(s.approved, event)
    ensures MayAppend(s, event) && Settled(s, key) && Footprint(LoggedOutbox(s), key, event)
  {
    hide IndexOf, GateOf, EvaluationOk, KeyOk, Admissible, Settled, EventAuthorized;
    EvaluatingFacts(s, key, job);
  }

  lemma SettleStored(s: State, key: ClaimKey, job: Job, event: Event, at: Time, output: SendOutput)
    requires Inv(s) && s.mode.Serving? && !s.poisoned && Evaluating(s, key, job) && Settles(s, job, event, at, output)
    requires Admissible(s.config.name, s.known, event) && EventAuthorized(s.approved, event)
    requires event.OutboundReleased? ==>
               ReasonOf(IndexOf(0, s.known).decisions, event.meta, event.reason) == event.reason
    ensures Inv(At(s.(known := s.known + [NextEntry(s.known, event, at)]), key, SendStoreFinal(job, output)))
  {
    hide LogOk, SignedLocally, Authorized, AnswersOk, AnswerOk, IndexOf, GateOf, KeyOk, Durable, Settled, Settles, ReasonOf,
         MayAppend, Footprint, InboxAgrees, OrderAgrees, ClaimsOk, ConfirmsOk, Admissible, EventAuthorized, SentLogged;
    InvKey(s, key);
    SettlingMayBeAppended(s, key, job, event, at, output);
    var op := SendStoreFinal(job, output);
    var s' := At(s.(known := s.known + [NextEntry(s.known, event, at)]), key, op);
    SentIsLogged(s);
    SettledKeyOk(s, s', key, job, event, at, output);
    assert Appended(s, s', key, event, at);
    assert !event.InboundAccepted? by { SettlingEvents(s, job, event, at, output); }
    InboxStays(s, s', key, event, at);
    StoredStep(s, s', key, event, at, op);
  }

  lemma SettlingEvents(s: State, job: Job, event: Event, at: Time, output: SendOutput)
    requires Settles(s, job, event, at, output)
    ensures event.MessageBlocked? || event.OutboundReleased?
  {
  }

  /** The settling event is appended and the operation goes on to write it, or the append fails. */
  lemma SettleSafe(s: State, key: ClaimKey, job: Job, event: Event, outcome: Outcome, output: SendOutput)
    requires Inv(s) && s.mode.Serving? && Evaluating(s, key, job)
    requires Settles(s, job, event, Written(s, event, outcome).at, output)
    requires Admissible(s.config.name, s.known, event) && EventAuthorized(s.approved, event)
    requires event.OutboundReleased? ==>
               ReasonOf(IndexOf(0, s.known).decisions, event.meta, event.reason) == event.reason
    ensures Inv(AppendThen(s, key, event, outcome, SendStoreFinal(job, output)))
  {
    hide MayAppend, Settled, Admissible, KeyOk, LiveOk, Durable, AnswersOk, Settles, Footprint, EventAuthorized, ReasonOf, IndexOf;
    if s.poisoned || !outcome.Stored? {
      InvKey(s, key);
      SettlingMayBeAppended(s, key, job, event, Written(s, event, outcome).at, output);
      FailedStep(s, key, event, outcome);
    } else {
      SettleStored(s, key, job, event, outcome.at, output);
    }
  }

  lemma DecideSafe(s: State, key: ClaimKey, c: Choice)
    requires Inv(s) && s.mode.Serving? && key in s.ops && s.ops[key].Decide?
    ensures Inv(EvaluationStep(s, key, s.ops[key], c))
  {
    hide KeyOk, LiveOk, Durable, AnswersOk, IndexOf, GateOf, Append, Settled, Inv, RequestsOk, InputOk, EnvelopeOk;
    var job, verdict, model, mark := s.ops[key].job, s.ops[key].verdict, s.ops[key].model, s.ops[key].mark;
    InvKey(s, key);
    EvaluatingFacts(s, key, job);
    if verdict.decision == Deny {
      DenySafe(s, key, c);
    } else if verdict.decision == Review {
      if IsApproved(s, ApprovalFor(s.config.name, job)) {
        ContinueSafe(s, key, job, ConsumeApproval(job, verdict.reason, model));
      } else {
        ContinueSafe(s, key, job, SavePending(job, verdict.reason));
      }
    } else {
      ContinueSafe(s, key, job, Finalize(job, verdict, model, mark));
    }
  }

  lemma DenySafe(s: State, key: ClaimKey, c: Choice)
    requires Inv(s) && s.mode.Serving? && key in s.ops && s.ops[key].Decide? && s.ops[key].verdict.decision == Deny
    ensures Inv(EvaluationStep(s, key, s.ops[key], c))
  {
    hide KeyOk, LiveOk, Durable, AnswersOk, IndexOf, GateOf, Append, Settled, Inv, RequestsOk, EnvelopeOk;
    var job, verdict := s.ops[key].job, s.ops[key].verdict;
    InvKey(s, key);
    EvaluatingFacts(s, key, job);
    var event := MessageBlocked(MetaOf(s.config.name, job), RequestIDOf(job), verdict.reason);
    var blocked := MarkOf(Written(s, event, c.outcome));
    if job.SendJob? {
      SettleSafe(s, key, job, event, c.outcome, BaseOutput(job, Status.Denied, verdict, None, blocked));
    } else {
      GateStepSafe(s, key, job, event, c.outcome,
                   Done(Some(ReceiveAnswer(job.envelope, BaseReceiveOutput(job.envelope, Status.Denied, verdict, blocked)))));
    }
  }

  lemma FinalizeSendSafe(s: State, key: ClaimKey, c: Choice)
    requires Inv(s) && s.mode.Serving? && key in s.ops && s.ops[key].Finalize? && s.ops[key].job.SendJob?
    ensures Inv(FinalizeStep(s, key, s.ops[key], c))
  {
    hide KeyOk, LiveOk, Durable, AnswersOk, IndexOf, GateOf, Append, Settled, Inv, RequestsOk, ReasonOf;
    var job, verdict, model, mark := s.ops[key].job, s.ops[key].verdict, s.ops[key].model, s.ops[key].mark;
    InvKey(s, key);
    InvLog(s);
    EvaluatingFacts(s, key, job);
    var meta := MetaOf(s.config.name, job);
    ReasonIsRecovered(s.config.name, s.known, meta, verdict.decision, verdict.reason);
    var envelope := SignEnvelope(s.key, ReleaseContent(s, job, verdict.decision, model, mark));
    var event := OutboundReleased(meta, job.input.requestID, envelope, verdict.reason);
    SettleSafe(s, key, job, event, c.outcome,
               BaseOutput(job, Released, verdict, Some(envelope), MarkOf(Written(s, event, c.outcome))));
  }

  lemma InvLog(s: State)
    requires Inv(s)
    ensures LogOk(s.config.name, s.known)
  {
    hide LogOk, AnswersOk, LiveOk, SignedLocally, Authorized;
    LoggedIsOk(s);
  }
}
