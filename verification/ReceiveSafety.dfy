/** The steps of Receive keep the invariant. */
module ReceiveSafety {
  import opened Wrappers
  import opened Records
  import opened Replay
  import opened Ledger
  import opened LogTheorems
  import opened Endpoint
  import opened Invariant
  import opened Frames
  import opened Steps
  import opened EvaluationSafety
  import opened SendSafety

  // ----- Receipts kept in the index come from the log -----

  predicate ReceiptsLogged(log: seq<Entry>, intake: Intake) {
    forall m :: m in intake.received && intake.received[m].output.ack.Some? ==>
                  AckLogged(log, intake.received[m].output.ack.value)
                  && intake.received[m].output.ack.value.content.envelopeDigest == intake.received[m].envelopeDigest
  }

  lemma AckStaysLogged(log: seq<Entry>, entry: Entry, ack: Ack)
    requires AckLogged(log, ack) || (entry.event.AcknowledgementIssued? && entry.event.ack == ack)
    ensures AckLogged(log + [entry], ack)
  {
    var longer := log + [entry];
    if AckLogged(log, ack) {
      var i :| 0 <= i < |log| && log[i].event.AcknowledgementIssued? && log[i].event.ack == ack;
      assert longer[i] == log[i];
    } else {
      assert longer[|log|] == entry;
    }
  }

  lemma ReceiptsStep(name: string, key: Key, log: seq<Entry>, box: Mailbox, intake: Intake, gate: Gate,
                     decisions: map<Scope, Verdict>, entry: Entry)
    requires AdmissibleAt(name, box, gate, entry.event) && SameButReceipts(intake, box.intake)
    requires ReceiptsLogged(log, intake)
    ensures ReceiptsLogged(log + [entry], ApplyIntake(key, intake, decisions, entry))
  {
    var after := ApplyIntake(key, intake, decisions, entry);
    forall m | m in after.received && after.received[m].output.ack.Some?
      ensures AckLogged(log + [entry], after.received[m].output.ack.value)
      ensures after.received[m].output.ack.value.content.envelopeDigest == after.received[m].envelopeDigest
    {
      if entry.event.AcknowledgementIssued? && entry.event.meta.messageID == m {
        var ack := after.received[m].output.ack.value;
        assert ack == entry.event.ack;
        AckStaysLogged(log, entry, ack);
      } else {
        assert m in intake.received && after.received[m] == intake.received[m];
        AckStaysLogged(log, entry, intake.received[m].output.ack.value);
      }
    }
  }

  lemma {:induction false} ReceiptsAreLogged(name: string, key: Key, log: seq<Entry>)
    requires LogOk(name, log)
    ensures ReceiptsLogged(log, IndexOf(key, log).box.intake)
  {
    if log != [] {
      var n := |log| - 1;
      LogOkPrefix(name, log, n);
      ReceiptsAreLogged(name, key, log[..n]);
      assert EntryOk(name, log, n);
      KeyIsIrrelevant(key, 0, log[..n]);
      var index := IndexOf(key, log[..n]);
      ReceiptsStep(name, key, log[..n], IndexOf(0, log[..n]).box, index.box.intake, GateOf(log[..n], EventScope(log[n].event)),
                   index.decisions, log[n]);
      assert log == log[..n] + [log[n]];
    }
  }

  lemma StoredMessageFits(name: string, key: ClaimKey, v: ReceiveView)
    requires ReceiveOk(name, key, v) && v.op.Some? && v.op.value.ReceiveStore?
    ensures var op := v.op.value;
            key == ReceiveKey(op.envelope.content.messageID)
            && ReceiveOk(name, key, v.(live := Some(op.record), op := Some(IssueAck(op.envelope, op.record))))
  {
    hide EvaluationOk;
  }

  lemma StoredAckFits(name: string, key: ClaimKey, v: ReceiveView)
    requires ReceiveOk(name, key, v) && v.op.Some? && v.op.value.StoreAck?
    ensures var op := v.op.value;
            key == ReceiveKey(op.envelope.content.messageID) && v.logged == Some(op.record)
            && op.record.envelopeDigest == EnvelopeDigest(op.envelope)
            && forall answer :: ReceiveOk(name, key, v.(live := Some(op.record), op := Some(Done(answer))))
  {
    hide EvaluationOk;
  }

  /** Operations of Receive that keep a record stand at their message's key. */
  lemma PlacedReceive(s: State, key: ClaimKey)
    requires KeyOk(s, key) && key in s.ops && (s.ops[key].ReceiveStore? || s.ops[key].StoreAck?)
    ensures key.ReceiveKey? && key !in s.box.outbox.requests && ReceiveOk(s.config.name, key, ReceiveViewOf(s, key))
  {
    hide IndexOf, GateOf, ReceiveOk, ReceiveViewOf, EvaluationOk;
  }

  // ----- Lookup -----

  lemma ReceiveLookupSafe(s: State, key: ClaimKey, c: Choice)
    requires Inv(s) && s.mode.Serving? && key in s.ops && s.ops[key].ReceiveLookup?
    ensures Inv(ReceiveStep(s, key, s.ops[key], c))
  {
    hide LiveOk, LogOk, SignedLocally, Authorized, AnswersOk, IndexOf, GateOf, RequestsOk, AckLogged, KeyOk, ReceiptsLogged, AnswerOk,
         AfterLookup;
    InvKey(s, key);
    InvLog(s);
    ReceiptsAreLogged(s.config.name, s.key, s.known);
    var op := AfterLookup(s.box.intake, s.ops[key].envelope);
    FoundMessageOk(s, key, op);
    LocalMove(s, key, op);
  }

  /** The lookup on the view of one message ID. */
  lemma FoundFits(name: string, key: ClaimKey, v: ReceiveView, intake: Intake, log: seq<Entry>, op: Op)
    requires key.ReceiveKey? && ReceiveOk(name, key, v) && v.op.Some? && v.op.value.ReceiveLookup?
    requires v.live == Lookup(intake.received, key.messageID) && v.liveSeen == Lookup(intake.seenInbound, key.messageID)
    requires op == AfterLookup(intake, v.op.value.envelope)
    requires v.logged.Some? && v.logged.value.output.ack.Some? ==>
               AckLogged(log, v.logged.value.output.ack.value)
               && v.logged.value.output.ack.value.content.envelopeDigest == v.logged.value.envelopeDigest
    ensures ReceiveOk(name, key, v.(op := Some(op)))
    ensures op.Done? && op.answer.Some? ==> AnswerOk(log, op.answer.value)
    ensures !op.ConfirmAppend? && !op.ReceiveStore?
  {
    hide AckLogged, EvaluationOk, IndexOf;
  }

  lemma FoundMessageOk(s: State, key: ClaimKey, op: Op)
    requires KeyOk(s, key) && key in s.ops && s.ops[key].ReceiveLookup?
    requires ReceiptsLogged(s.known, LoggedIntake(s))
    requires op == AfterLookup(s.box.intake, s.ops[key].envelope)
    ensures KeyOk(At(s, key, op), key)
    ensures op.Done? && op.answer.Some? ==> AnswerOk(s.known, op.answer.value)
    ensures !op.ConfirmAppend? && !op.ReceiveStore?
  {
    hide IndexOf, GateOf, AckLogged, ReceiveOk;
    var v := ReceiveViewOf(s, key);
    FoundFits(s.config.name, key, v, s.box.intake, s.known, op);
    assert ReceiveViewOf(At(s, key, op), key) == v.(op := Some(op));
  }

  // ----- Appends that change the intake -----

  /** Facts about an operation of Receive that is about to append. */
  lemma ReceivingFacts(s: State, key: ClaimKey)
    requires KeyOk(s, key) && key in s.ops && (s.ops[key].ReceiveVerify? || s.ops[key].IssueAck?)
    ensures Settled(s, key) && EnvelopeOk(s.config.name, key, s.ops[key].envelope)
    ensures var m, digest := s.ops[key].envelope.content.messageID, EnvelopeDigest(s.ops[key].envelope);
            (s.ops[key].ReceiveVerify? ==>
               m !in LoggedIntake(s).received
               && (m in LoggedIntake(s).seenInbound ==> LoggedIntake(s).seenInbound[m] == digest))
            && (s.ops[key].IssueAck? ==>
                  Lookup(LoggedIntake(s).received, m) == Some(s.ops[key].record) && s.ops[key].record.envelopeDigest == digest)
  {
    hide IndexOf, GateOf;
  }

  function VerifiedEvent(name: string, envelope: Envelope): Event {
    var n := envelope.content;
    InboundVerified(MetaOf(name, ReceiveJob(envelope)), n.requestID, n.conversationID, n.body, EnvelopeDigest(envelope))
  }

  lemma VerifiedMayBeAppended(s: State, key: ClaimKey)
    requires KeyOk(s, key) && key in s.ops && s.ops[key].ReceiveVerify?
    ensures MayAppend(s, VerifiedEvent(s.config.name, s.ops[key].envelope)) && Settled(s, key)
    ensures Footprint(LoggedOutbox(s), key, VerifiedEvent(s.config.name, s.ops[key].envelope))
  {
    hide GateOf, KeyOk, Settled;
    ReceivingFacts(s, key);
    KeyIsIrrelevant(s.key, 0, s.known);
    hide IndexOf;
  }

  lemma VerifiedKeyOk(s: State, s': State, key: ClaimKey, at: Time)
    requires KeyOk(s, key) && key in s.ops && s.ops[key].ReceiveVerify?
    requires s' == At(s.(known := s.known + [NextEntry(s.known, VerifiedEvent(s.config.name, s.ops[key].envelope), at)]), key,
                      ReceiveSeen(s.ops[key].envelope))
    ensures KeyOk(s', key)
  {
    hide GateOf;
    var entry := NextEntry(s.known, VerifiedEvent(s.config.name, s.ops[key].envelope), at);
    IndexOfSnoc(s.key, s.known, entry);
    hide IndexOf;
  }

  lemma VerifySafe(s: State, key: ClaimKey, c: Choice)
    requires Inv(s) && s.mode.Serving? && key in s.ops && s.ops[key].ReceiveVerify?
    ensures Inv(ReceiveStep(s, key, s.ops[key], c))
  {
    hide AnswersOk, AnswerOk, IndexOf, GateOf, KeyOk, Durable, Settled, MayAppend, Footprint, InboxAgrees, OrderAgrees,
         ClaimsOk, ConfirmsOk;
    InvKey(s, key);
    var envelope := s.ops[key].envelope;
    var event := VerifiedEvent(s.config.name, envelope);
    VerifiedMayBeAppended(s, key);
    if s.poisoned || !c.outcome.Stored? {
      FailedStep(s, key, event, c.outcome);
    } else {
      var at, op := c.outcome.at, ReceiveSeen(envelope);
      var s' := At(s.(known := s.known + [NextEntry(s.known, event, at)]), key, op);
      VerifiedKeyOk(s, s', key, at);
      assert Appended(s, s', key, event, at);
      InboxStays(s, s', key, event, at);
      StoredStep(s, s', key, event, at, op);
    }
  }

  // ----- Updates of the intake -----

  lemma OtherIntakesStay(s: State, s': State, key: ClaimKey, k: ClaimKey)
    requires key.ReceiveKey? && KeyOk(s, k) && k != key
    requires s'.known == s.known && s'.key == s.key && s'.config == s.config && s'.approved == s.approved
    requires s'.box.outbox == s.box.outbox
    requires forall m :: m != key.messageID ==>
               Lookup(s'.box.intake.received, m) == Lookup(s.box.intake.received, m)
               && Lookup(s'.box.intake.seenInbound, m) == Lookup(s.box.intake.seenInbound, m)
    requires Lookup(s'.ops, k) == Lookup(s.ops, k)
    ensures KeyOk(s', k)
  {
    hide IndexOf, GateOf, SendOk, ReceiveOk, ConfirmOk;
    match k {
      case SendKey(_) => assert SendViewOf(s', k) == SendViewOf(s, k);
      case ReceiveKey(_) => assert ReceiveViewOf(s', k) == ReceiveViewOf(s, k);
      case ConfirmKey(_) => assert ConfirmViewOf(s', k) == ConfirmViewOf(s, k);
    }
  }

  lemma IntakeWriteSafe(s: State, s': State, key: ClaimKey, op: Op)
    requires Inv(s) && s.mode.Serving? && key in s.ops && key.ReceiveKey? && !op.ConfirmAppend?
    requires s' == At(s.(box := s.box.(intake := s'.box.intake)), key, op) && KeyOk(s', key)
    requires forall m :: m != key.messageID ==>
               Lookup(s'.box.intake.received, m) == Lookup(s.box.intake.received, m)
               && Lookup(s'.box.intake.seenInbound, m) == Lookup(s.box.intake.seenInbound, m)
    requires InboxAgrees(s'.ops, s'.box.intake.inbox, LoggedIntake(s').inbox) && OrderAgrees(s')
    requires op.Done? && op.answer.Some? ==> AnswerOk(s.known, op.answer.value)
    ensures Inv(s')
  {
    hide KeyOk, AnswerOk, LogOk, SignedLocally, Authorized, AnswersOk, ClaimsOk, InboxAgrees, OrderAgrees, IndexOf, ConfirmsOk;
    InvKey(s, key);
    forall k ensures KeyOk(s', k) {
      if k != key {
        InvKey(s, k);
        OtherIntakesStay(s, s', key, k);
      }
    }
    SentIsLogged(s);
    MapStep(s, s', key, op);
  }

  lemma SeenSafe(s: State, key: ClaimKey, c: Choice)
    requires Inv(s) && s.mode.Serving? && key in s.ops && s.ops[key].ReceiveSeen?
    ensures Inv(ReceiveStep(s, key, s.ops[key], c))
  {
    hide Durable, AnswersOk, AnswerOk, IndexOf, GateOf, Inv, ClaimsOk, ConfirmsOk, InboxAgrees, OrderAgrees;
    InvKey(s, key);
    var s' := ReceiveStep(s, key, s.ops[key], c);
    OutboxOnly(s, s', key, s'.ops[key]);
    assert KeyOk(s', key);
    hide KeyOk;
    IntakeWriteSafe(s, s', key, s'.ops[key]);
  }

  lemma StoreAckSafe(s: State, key: ClaimKey, c: Choice)
    requires Inv(s) && s.mode.Serving? && key in s.ops && s.ops[key].StoreAck?
    ensures Inv(ReceiveStep(s, key, s.ops[key], c))
  {
    hide Durable, AnswersOk, AckLogged, IndexOf, GateOf, Inv, ClaimsOk, ConfirmsOk, InboxAgrees, OrderAgrees, LogOk;
    InvKey(s, key);
    InvLog(s);
    ReceiptsAreLogged(s.config.name, s.key, s.known);
    var s' := ReceiveStep(s, key, s.ops[key], c);
    OutboxOnly(s, s', key, s'.ops[key]);
    StoredAckOk(s, key, c);
    hide KeyOk, AnswerOk;
    IntakeWriteSafe(s, s', key, s'.ops[key]);
  }

  lemma StoredAckOk(s: State, key: ClaimKey, c: Choice)
    requires KeyOk(s, key) && key in s.ops && s.ops[key].StoreAck? && ReceiptsLogged(s.known, LoggedIntake(s))
    ensures var s' := ReceiveStep(s, key, s.ops[key], c);
            KeyOk(s', key) && key.ReceiveKey? && key.messageID == s.ops[key].envelope.content.messageID
            && s'.ops[key].Done? && s'.ops[key].answer.Some? && AnswerOk(s.known, s'.ops[key].answer.value)
  {
    hide AckLogged, IndexOf, GateOf, ReceiveOk;
    PlacedReceive(s, key);
    var op, v := s.ops[key], ReceiveViewOf(s, key);
    StoredAckFits(s.config.name, key, v);
    var s' := ReceiveStep(s, key, op, c);
    assert ReceiveViewOf(s', key)
        == v.(live := Some(op.record), op := Some(Done(Some(ReceiveAnswer(op.envelope, op.record.output)))));
  }

  // ----- Acceptance -----

  function AcceptedEvent(name: string, envelope: Envelope, verdict: Verdict): Event {
    var n := envelope.content;
    InboundAccepted(MetaOf(name, ReceiveJob(envelope)), n.requestID, n.conversationID, n.body, EnvelopeDigest(envelope),
                    verdict.decision, verdict.reason)
  }

  function AcceptingOp(envelope: Envelope, verdict: Verdict, e: Entry): Op {
    var n := envelope.content;
    ReceiveStore(envelope,
                 ReceivedRecord(EnvelopeDigest(envelope), e.at, e.sequence, e.hash,
                                BaseReceiveOutput(envelope, Accepted, verdict, MarkOf(e))),
                 Message(n.messageID, n.conversationID, n.source, n.destination, n.body, n.bodyDigest, e.at, e.sequence))
  }

  predicate Accepting(s: State, key: ClaimKey, envelope: Envelope, verdict: Verdict) {
    key in s.ops && s.ops[key].Finalize? && s.ops[key].job == ReceiveJob(envelope) && s.ops[key].verdict == verdict
  }

  lemma AcceptanceMayBeAppended(s: State, key: ClaimKey, envelope: Envelope, verdict: Verdict)
    requires KeyOk(s, key) && Accepting(s, key, envelope, verdict)
    ensures MayAppend(s, AcceptedEvent(s.config.name, envelope, verdict)) && Settled(s, key)
    ensures Footprint(LoggedOutbox(s), key, AcceptedEvent(s.config.name, envelope, verdict))
    ensures Opens(GateOf(s.known, Scope(Inbound, envelope.content.messageID)), verdict.decision, verdict.reason)
    ensures key == ReceiveKey(envelope.content.messageID) && envelope.content.messageID !in LoggedIntake(s).received
  {
    hide GateOf, KeyOk, Settled;
    EvaluatingFacts(s, key, ReceiveJob(envelope));
    KeyIsIrrelevant(s.key, 0, s.known);
    hide IndexOf;
  }

  /** The index after the acceptance holds the record and the message that the operation will store. */
  lemma AcceptedIndex(s: State, envelope: Envelope, verdict: Verdict, entry: Entry)
    requires envelope.content.bodyDigest == TextDigest(envelope.content.body)
    requires entry.event == AcceptedEvent(s.config.name, envelope, verdict)
    requires ReasonOf(IndexOf(s.key, s.known).decisions, entry.event.meta, verdict.reason) == verdict.reason
    ensures var op := AcceptingOp(envelope, verdict, entry);
            IndexOf(s.key, s.known + [entry]).box.intake
            == LoggedIntake(s).(received := LoggedIntake(s).received[envelope.content.messageID := op.record],
                                inbox := LoggedIntake(s).inbox + [op.message])
  {
    IndexOfSnoc(s.key, s.known, entry);
  }

  lemma AcceptedKeyOk(s: State, s': State, key: ClaimKey, envelope: Envelope, verdict: Verdict, at: Time)
    requires KeyOk(s, key) && Accepting(s, key, envelope, verdict)
    requires var entry := NextEntry(s.known, AcceptedEvent(s.config.name, envelope, verdict), at);
             s' == At(s.(known := s.known + [entry]), key, AcceptingOp(envelope, verdict, entry))
             && ReasonOf(IndexOf(s.key, s.known).decisions, entry.event.meta, verdict.reason) == verdict.reason
    ensures KeyOk(s', key)
  {
    hide GateOf, IndexOf, ReasonOf;
    EvaluatingFacts(s, key, ReceiveJob(envelope));
    AcceptedIndex(s, envelope, verdict, NextEntry(s.known, AcceptedEvent(s.config.name, envelope, verdict), at));
  }

  lemma NewMessageLags(ops: map<ClaimKey, Op>, ops': map<ClaimKey, Op>, live: seq<Message>, logged: seq<Message>, key: ClaimKey,
                       message: Message)
    requires InboxAgrees(ops, live, logged)
    requires key == ReceiveKey(message.messageID) && key in ops && !ops[key].ReceiveStore?
    requires key in ops' && ops' == ops[key := ops'[key]] && ops'[key].ReceiveStore? && ops'[key].message == message
    requires forall m :: m in logged ==> m.messageID != message.messageID
    ensures InboxAgrees(ops', live, logged + [message])
  {
    forall m | m in logged ensures Lagging(ops', m) == Lagging(ops, m) {}
  }

  lemma NoMessageYet(s: State, m: string)
    requires Durable(s) && m !in LoggedIntake(s).received
    ensures forall x :: x in LoggedIntake(s).inbox ==> x.messageID != m
  {
    hide LogOk, SignedLocally, Authorized, IndexOf;
    LoggedIsOk(s);
  }

  lemma AtLeastTwo<T>(s: set<T>, a: T, b: T)
    requires a in s && b in s && a != b
    ensures |s| >= 2
  {
    assert |s - {a} - {b}| == |s| - 2;
  }

  /** A single operation is alone. */
  lemma OnlyOne(s: State, key: ClaimKey, k: ClaimKey)
    requires ClaimsOk(s) && s.config.maxConcurrent == 1 && key in s.ops && k in s.ops
    ensures k == key
  {
    if k != key {
      AtLeastTwo(s.ops.Keys, key, k);
      assert false;
    }
  }

  lemma AcceptedInbox(s: State, s': State, key: ClaimKey, envelope: Envelope, verdict: Verdict, entry: Entry)
    requires Durable(s) && ClaimsOk(s) && InboxAgrees(s.ops, s.box.intake.inbox, LoggedIntake(s).inbox) && OrderAgrees(s)
    requires Accepting(s, key, envelope, verdict) && key == ReceiveKey(envelope.content.messageID)
    requires envelope.content.messageID !in LoggedIntake(s).received
    requires s' == At(s.(known := s.known + [entry]), key, AcceptingOp(envelope, verdict, entry))
    requires LoggedIntake(s').inbox == LoggedIntake(s).inbox + [AcceptingOp(envelope, verdict, entry).message]
    ensures InboxAgrees(s'.ops, s'.box.intake.inbox, LoggedIntake(s').inbox) && OrderAgrees(s')
  {
    hide Durable, IndexOf, ClaimsOk, InboxAgrees, BaseReceiveOutput;
    NoMessageYet(s, envelope.content.messageID);
    var message := AcceptingOp(envelope, verdict, entry).message;
    NewMessageLags(s.ops, s'.ops, s.box.intake.inbox, LoggedIntake(s).inbox, key, message);
    if s.config.maxConcurrent == 1 {
      forall k | k in s.ops ensures k == key {
        OnlyOne(s, key, k);
      }
      assert s'.ops[key].ReceiveStore?;
    }
  }

  lemma AcceptStored(s: State, key: ClaimKey, envelope: Envelope, verdict: Verdict, at: Time)
    requires Inv(s) && s.mode.Serving? && !s.poisoned && Accepting(s, key, envelope, verdict)
    ensures var entry := NextEntry(s.known, AcceptedEvent(s.config.name, envelope, verdict), at);
            Inv(At(s.(known := s.known + [entry]), key, AcceptingOp(envelope, verdict, entry)))
  {
    hide LogOk, AnswersOk, AnswerOk, IndexOf, GateOf, KeyOk, Durable, Settled, MayAppend, Footprint, InboxAgrees, OrderAgrees,
         ClaimsOk, ConfirmsOk, ReasonOf, Opens, BaseReceiveOutput;
    InvKey(s, key);
    InvLog(s);
    AcceptanceMayBeAppended(s, key, envelope, verdict);
    var event := AcceptedEvent(s.config.name, envelope, verdict);
    ReasonIsRecovered(s.config.name, s.known, event.meta, verdict.decision, verdict.reason);
    KeyIsIrrelevant(s.key, 0, s.known);
    var entry := NextEntry(s.known, event, at);
    var op := AcceptingOp(envelope, verdict, entry);
    var s' := At(s.(known := s.known + [entry]), key, op);
    AcceptedKeyOk(s, s', key, envelope, verdict, at);
    EnvelopeOfAcceptance(s, key, envelope, verdict);
    AcceptedIndex(s, envelope, verdict, entry);
    AcceptedInbox(s, s', key, envelope, verdict, entry);
    StoredStep(s, s', key, event, at, op);
  }

  lemma EnvelopeOfAcceptance(s: State, key: ClaimKey, envelope: Envelope, verdict: Verdict)
    requires KeyOk(s, key) && Accepting(s, key, envelope, verdict)
    ensures EnvelopeOk(s.config.name, key, envelope)
  {
    hide GateOf, IndexOf, KeyOk;
    EvaluatingFacts(s, key, ReceiveJob(envelope));
  }

  lemma FinalizeReceiveSafe(s: State, key: ClaimKey, c: Choice)
    requires Inv(s) && s.mode.Serving? && key in s.ops && s.ops[key].Finalize? && s.ops[key].job.ReceiveJob?
    ensures Inv(FinalizeStep(s, key, s.ops[key], c))
  {
    hide KeyOk, LiveOk, Durable, AnswersOk, IndexOf, GateOf, Settled, Inv, MayAppend, Footprint, BaseReceiveOutput, Opens;
    var envelope, verdict := s.ops[key].job.envelope, s.ops[key].verdict;
    var event := AcceptedEvent(s.config.name, envelope, verdict);
    if s.poisoned || !c.outcome.Stored? {
      InvKey(s, key);
      AcceptanceMayBeAppended(s, key, envelope, verdict);
      FailedStep(s, key, event, c.outcome);
    } else {
      AcceptStored(s, key, envelope, verdict, c.outcome.at);
    }
  }

  // ----- Storing what was accepted -----

  lemma MessageStored(ops: map<ClaimKey, Op>, ops': map<ClaimKey, Op>, live: seq<Message>, logged: seq<Message>, key: ClaimKey)
    requires InboxAgrees(ops, live, logged) && DistinctMessages(logged)
    requires key in ops && ops[key].ReceiveStore? && key in ops' && ops' == ops[key := ops'[key]] && !ops'[key].ReceiveStore?
    ensures InboxAgrees(ops', live + [ops[key].message], logged)
  {
    var message := ops[key].message;
    forall m | m in logged ensures Lagging(ops', m) == (Lagging(ops, m) && m != message) {
      if m.messageID == message.messageID {
        assert m == message;
      }
    }
    forall m | m in live ensures m.messageID != message.messageID {
      assert !Lagging(ops, m);
    }
  }

  lemma LoggedMessagesDistinct(s: State)
    requires Durable(s)
    ensures DistinctMessages(LoggedIntake(s).inbox)
  {
    hide LogOk, SignedLocally, Authorized, IndexOf;
    LoggedIsOk(s);
  }

  lemma StoredInbox(s: State, s': State, key: ClaimKey, op: Op)
    requires Durable(s) && ClaimsOk(s) && InboxAgrees(s.ops, s.box.intake.inbox, LoggedIntake(s).inbox) && OrderAgrees(s)
    requires key in s.ops && s.ops[key].ReceiveStore? && !op.ReceiveStore?
    requires s'.known == s.known && s'.key == s.key && s'.config == s.config && s'.ops == s.ops[key := op]
    requires s'.box.intake.inbox == s.box.intake.inbox + [s.ops[key].message]
    ensures InboxAgrees(s'.ops, s'.box.intake.inbox, LoggedIntake(s').inbox) && OrderAgrees(s')
  {
    hide Durable, IndexOf, ClaimsOk;
    LoggedMessagesDistinct(s);
    MessageStored(s.ops, s'.ops, s.box.intake.inbox, LoggedIntake(s).inbox, key);
    if s.config.maxConcurrent == 1 {
      assert s.ops[key].message in LoggedIntake(s).inbox && s.ops[key].message !in s.box.intake.inbox;
      forall k | k in s.ops ensures k == key {
        OnlyOne(s, key, k);
      }
    }
  }

  lemma StoreMessageSafe(s: State, key: ClaimKey, c: Choice)
    requires Inv(s) && s.mode.Serving? && key in s.ops && s.ops[key].ReceiveStore?
    ensures Inv(ReceiveStep(s, key, s.ops[key], c))
  {
    hide Durable, AnswersOk, AnswerOk, IndexOf, GateOf, ClaimsOk, ConfirmsOk, InboxAgrees, OrderAgrees, KeyOk;
    InvKey(s, key);
    var s' := ReceiveStep(s, key, s.ops[key], c);
    StoredInbox(s, s', key, s'.ops[key]);
    StoredMessageOk(s, key, c);
    IntakeWriteSafe(s, s', key, s'.ops[key]);
  }

  lemma StoredMessageOk(s: State, key: ClaimKey, c: Choice)
    requires KeyOk(s, key) && key in s.ops && s.ops[key].ReceiveStore?
    ensures KeyOk(ReceiveStep(s, key, s.ops[key], c), key)
    ensures key == ReceiveKey(s.ops[key].envelope.content.messageID)
  {
    hide IndexOf, GateOf, ReceiveOk;
    PlacedReceive(s, key);
    var op, v := s.ops[key], ReceiveViewOf(s, key);
    StoredMessageFits(s.config.name, key, v);
    var s' := ReceiveStep(s, key, op, c);
    assert ReceiveViewOf(s', key) == v.(live := Some(op.record), op := Some(IssueAck(op.envelope, op.record)));
  }

  // ----- Receipts -----

  function AckFor(s: State, envelope: Envelope, record: ReceivedRecord): Ack {
    SignAck(s.key, UnsignedAck(1, envelope.content.messageID, s.config.name, envelope.content.source, record.envelopeDigest,
                               record.receivedAt, record.sequence, record.head))
  }

  function IssuedEvent(s: State, envelope: Envelope, record: ReceivedRecord): Event {
    AcknowledgementIssued(MetaOf(s.config.name, ReceiveJob(envelope)), AckFor(s, envelope, record))
  }

  lemma ReceiptMayBeAppended(s: State, key: ClaimKey)
    requires KeyOk(s, key) && key in s.ops && s.ops[key].IssueAck?
    ensures var event := IssuedEvent(s, s.ops[key].envelope, s.ops[key].record);
            MayAppend(s, event) && Settled(s, key) && Footprint(LoggedOutbox(s), key, event)
  {
    hide GateOf, KeyOk, Settled;
    ReceivingFacts(s, key);
    KeyIsIrrelevant(s.key, 0, s.known);
    hide IndexOf;
  }

  lemma IssuedKeyOk(s: State, s': State, key: ClaimKey, at: Time)
    requires KeyOk(s, key) && key in s.ops && s.ops[key].IssueAck?
    requires var envelope, record := s.ops[key].envelope, s.ops[key].record;
             var entry := NextEntry(s.known, IssuedEvent(s, envelope, record), at);
             s' == At(s.(known := s.known + [entry]), key,
                      StoreAck(envelope, WithAck(record, Some(AckFor(s, envelope, record)), entry.sequence, entry.hash)))
    ensures KeyOk(s', key)
  {
    hide GateOf, IndexOf;
    ReceivingFacts(s, key);
    IssuedIndex(s, s.ops[key].envelope, s.ops[key].record, NextEntry(s.known, IssuedEvent(s, s.ops[key].envelope, s.ops[key].record), at));
  }

  lemma IssuedIndex(s: State, envelope: Envelope, record: ReceivedRecord, entry: Entry)
    requires Lookup(LoggedIntake(s).received, envelope.content.messageID) == Some(record)
    requires entry.event == IssuedEvent(s, envelope, record)
    ensures IndexOf(s.key, s.known + [entry]).box.intake
         == LoggedIntake(s).(received := LoggedIntake(s).received[envelope.content.messageID :=
                                 WithAck(record, Some(AckFor(s, envelope, record)), entry.sequence, entry.hash)])
  {
    IndexOfSnoc(s.key, s.known, entry);
  }

  lemma IssueSafe(s: State, key: ClaimKey, c: Choice)
    requires Inv(s) && s.mode.Serving? && key in s.ops && s.ops[key].IssueAck?
    ensures Inv(ReceiveStep(s, key, s.ops[key], c))
  {
    hide AnswersOk, AnswerOk, IndexOf, GateOf, KeyOk, Durable, Settled, MayAppend, Footprint, InboxAgrees, OrderAgrees,
         ClaimsOk, ConfirmsOk;
    InvKey(s, key);
    var envelope, record := s.ops[key].envelope, s.ops[key].record;
    var event := IssuedEvent(s, envelope, record);
    ReceiptMayBeAppended(s, key);
    if s.poisoned || !c.outcome.Stored? {
      FailedStep(s, key, event, c.outcome);
    } else {
      var at := c.outcome.at;
      var entry := NextEntry(s.known, event, at);
      var op := StoreAck(envelope, WithAck(record, Some(AckFor(s, envelope, record)), entry.sequence, entry.hash));
      var s' := At(s.(known := s.known + [entry]), key, op);
      IssuedKeyOk(s, s', key, at);
      assert Appended(s, s', key, event, at);
      InboxStays(s, s', key, event, at);
      StoredStep(s, s', key, event, at, op);
    }
  }
}
