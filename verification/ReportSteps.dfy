/** What one section of an operation adds to what is told: where its answers come from,
    and what its events state. */
module ReportSteps {
  import opened Wrappers
  import opened Text
  import opened Records
  import opened Replay
  import opened Ledger
  import opened Endpoint
  import opened Invariant
  import opened Progress
  import opened Reports

  /** An answer that was prepared before, or that the maps hold. */
  predicate StoredAnswer(intake: Intake, op: Op, a: Answer) {
    match op
    case SendStoreReview(job, output) => job.SendJob? && a == SendAnswer(job.input, output)
    case SendStoreFinal(job, output) => job.SendJob? && a == SendAnswer(job.input, output)
    case StoreAck(envelope, record) => a == ReceiveAnswer(envelope, record.output)
    case ReceiveLookup(envelope) =>
      var m := envelope.content.messageID;
      m in intake.received && intake.received[m].envelopeDigest == EnvelopeDigest(envelope)
      && intake.received[m].output.ack.Some? && a == ReceiveAnswer(envelope, intake.received[m].output)
    case ConfirmStore(_, _) => a.ConfirmAnswer?
    case _ => false
  }

  predicate LocalTells(s: State, op: Op, next: Op) {
    (op.ReceiveLookup? ==> next == AfterLookup(s.box.intake, op.envelope))
    && (EnvelopeOf(next).Some? ==> EnvelopeOf(next) == EnvelopeOf(op))
    && match next
       case SendLookup(_) => false
       case SendSubmit(input) => op == SendLookup(input)
       case Decide(_, _, _, _) => false
       case ConsumeApproval(job, _, model) => op.Decide? && op.job == job && op.model == model && op.verdict.decision == Review
       case Finalize(job, verdict, model, mark) => op == Decide(job, verdict, model, mark) && verdict.decision != Deny
       case SendStoreReview(_, _) => false
       case StoreAck(_, _) => false
       case Done(Some(a)) => StoredAnswer(s.box.intake, op, a)
       case _ => true
  }

  /** The event is about what the operation is about, and a release states what it rests on. */
  predicate OwnEvent(s: State, op: Op, event: Event) {
    match event
    case MessageSubmitted(meta, requestID, conversationID, text) =>
      op.SendSubmit? && ValidIdentifier(meta.messageID) && meta.destination == op.input.destination
      && requestID == op.input.requestID && conversationID == op.input.conversationID && text == op.input.text
    case OutboundReleased(meta, _, envelope, _) =>
      op.Finalize? && meta == MetaOf(s.config.name, op.job)
      && var c := envelope.content;
      c.guardModel == op.model && c.policyVersion == s.config.policyVersion && Mark(c.sourceSequence, c.sourceHead) == op.mark
      && c.guardDecision == op.verdict.decision && envelope.signature.signer == s.key && EnvelopeVerifies(s.key, envelope)
    case DeterministicGuard(meta, _, _) => IsEvaluation(op) && meta == MetaOf(s.config.name, op.job)
    case ModelGuard(meta, _, _, _, _) => IsEvaluation(op) && meta == MetaOf(s.config.name, op.job)
    case GuardFailed(meta, _) => IsEvaluation(op) && meta == MetaOf(s.config.name, op.job)
    case ApprovalRequired(meta, _) => IsEvaluation(op) && meta == MetaOf(s.config.name, op.job)
    case ApprovalConsumed(meta, _) => IsEvaluation(op) && meta == MetaOf(s.config.name, op.job)
    case MessageBlocked(meta, _, _) => IsEvaluation(op) && meta == MetaOf(s.config.name, op.job)
    case InboundAccepted(meta, _, _, _, _, _, _) => IsEvaluation(op) && meta == MetaOf(s.config.name, op.job)
    case AcknowledgementIssued(meta, _) => op.IssueAck? && meta.messageID == op.envelope.content.messageID
    case _ => true
  }

  /** What is known of received messages changes at the operation's own message only. */
  ghost predicate KeepsOthers(op: Op, before: Intake, after: Intake) {
    forall m :: ((op.ReceiveStore? || op.StoreAck?) && m == op.envelope.content.messageID)
                || Lookup(after.received, m) == Lookup(before.received, m)
  }

  /** What a denied or held-back inbound message is answered with. */
  predicate AnswersWith(envelope: Envelope, event: Event, e: Entry, output: ReceiveOutput) {
    var c := envelope.content;
    && output.messageID == c.messageID && output.sequence == e.sequence && output.head == e.hash && output.ack == None
    && match event
       case MessageBlocked(_, requestID, code) =>
         output.status == Status.Denied && output.decision == Deny && output.reason == code && requestID == c.requestID
       case ApprovalRequired(_, reason) => output.status == ReviewRequired && output.decision == Review && output.reason == reason
       case _ => false
  }

  predicate AppendTells(s: State, op: Op, event: Event, e: Entry, next: Op) {
    && OwnEvent(s, op, event) && !op.ReceiveLookup?
    && (EnvelopeOf(next).Some? ==> EnvelopeOf(next) == EnvelopeOf(op))
    && match next
       case SendLookup(_) => false
       case SendSubmit(_) => false
       case Decide(job, verdict, model, mark) =>
         verdict.decision == Deny
         || (IsEvaluation(op) && op.job == job && event.ModelGuard? && event.model == model
             && event.policyVersion == s.config.policyVersion && mark == MarkOf(e))
       case ConsumeApproval(_, _, _) => false
       case Finalize(job, verdict, model, mark) =>
         op.ConsumeApproval? && op.job == job && op.model == model && event.ApprovalConsumed? && mark == MarkOf(e)
         && verdict.decision == ReviewApproved
       case SendStoreReview(job, output) =>
         op.RequireApproval? && op.job == job && event.ApprovalRequired?
         && (job.SendJob? ==>
               output == SendOutput(ReviewRequired, job.messageID, job.input.requestID, TextDigest(job.input.text), Review,
                                    event.reason, None, e.sequence, e.hash))
       case StoreAck(_, record) => record.output.ack.Some?
       case Done(Some(a)) =>
         IsEvaluation(op) && op.job.ReceiveJob? && a.ReceiveAnswer? && a.envelope == op.job.envelope
         && AnswersWith(op.job.envelope, event, e, a.receiveOutput)
       case _ => true
  }

  ghost predicate Tells(s: State, s': State, key: ClaimKey, c: Choice)
    requires key in s.ops
  {
    || s' == s
    || (exists next, box: Mailbox ::
          LocalTells(s, s.ops[key], next) && KeepsOthers(s.ops[key], s.box.intake, box.intake) && s' == At(s.(box := box), key, next))
    || (exists event, next :: AppendTells(s, s.ops[key], event, Written(s, event, c.outcome), next)
                              && s' == AppendThen(s, key, event, c.outcome, next))
  }

  lemma TellsForms(s: State, key: ClaimKey, c: Choice)
    requires key in s.ops
    ensures Tells(s, s, key, c)
    ensures forall next :: LocalTells(s, s.ops[key], next) ==> Tells(s, At(s, key, next), key, c)
    ensures forall next, box: Mailbox :: LocalTells(s, s.ops[key], next) && KeepsOthers(s.ops[key], s.box.intake, box.intake) ==>
                                           Tells(s, At(s.(box := box), key, next), key, c)
    ensures forall event, next :: AppendTells(s, s.ops[key], event, Written(s, event, c.outcome), next) ==>
                                    Tells(s, AppendThen(s, key, event, c.outcome, next), key, c)
  {
    hide LocalTells, AppendTells, AppendThen, Written;
    forall next | LocalTells(s, s.ops[key], next) ensures Tells(s, At(s, key, next), key, c) {
      assert At(s, key, next) == At(s.(box := s.box), key, next) && KeepsOthers(s.ops[key], s.box.intake, s.box.intake);
    }
  }

  lemma FreshIsValid(log: seq<Entry>, id: string)
    ensures FreshID(log, id) ==> ValidIdentifier(id)
  {
    hide ValidIdentifier;
  }

  lemma SendTells(s: State, key: ClaimKey, c: Choice)
    requires key in s.ops
    requires s.ops[key].SendLookup? || s.ops[key].SendSubmit? || s.ops[key].SendRecord? || s.ops[key].SendStoreReview?
             || s.ops[key].SendStoreFinal?
    ensures Tells(s, SendStep(s, key, s.ops[key], c), key, c)
  {
    hide Tells, At, AppendThen, FreshID, RecordFor, Written, Binding, RequestOf, ValidIdentifier;
    FreshIsValid(s.known, c.id);
    TellsForms(s, key, c);
  }

  lemma ScreenTells(s: State, key: ClaimKey, c: Choice)
    requires key in s.ops && (s.ops[key].Screen? || s.ops[key].CallModel?)
    ensures Tells(s, EvaluationStep(s, key, s.ops[key], c), key, c)
  {
    hide Tells, At, AppendThen, MetaOf, Written, EffectiveVerdict;
    TellsForms(s, key, c);
  }

  lemma DecideTells(s: State, key: ClaimKey, c: Choice)
    requires key in s.ops && s.ops[key].Decide?
    ensures Tells(s, EvaluationStep(s, key, s.ops[key], c), key, c)
  {
    hide Tells, At, AppendThen, MetaOf, Written, IsApproved, BaseOutput;
    TellsForms(s, key, c);
  }

  lemma ApprovalTells(s: State, key: ClaimKey, c: Choice)
    requires key in s.ops && (s.ops[key].SavePending? || s.ops[key].RequireApproval? || s.ops[key].ConsumeApproval?)
    ensures Tells(s, EvaluationStep(s, key, s.ops[key], c), key, c)
  {
    hide Tells, At, AppendThen, MetaOf, Written;
    TellsForms(s, key, c);
  }

  lemma FinalizeTells(s: State, key: ClaimKey, c: Choice)
    requires key in s.ops && s.ops[key].Finalize?
    ensures Tells(s, FinalizeStep(s, key, s.ops[key], c), key, c)
  {
    hide Tells, At, AppendThen, Written, BaseOutput, BaseReceiveOutput;
    TellsForms(s, key, c);
  }

  lemma ReceiveTells(s: State, key: ClaimKey, c: Choice)
    requires key in s.ops && IsReceiving(s.ops[key]) && !IsStoring(s.ops[key])
    ensures Tells(s, ReceiveStep(s, key, s.ops[key], c), key, c)
  {
    hide Tells, At, AppendThen, Written, SignAck, KeepsOthers;
    TellsForms(s, key, c);
  }

  lemma StoreTells(s: State, key: ClaimKey, c: Choice)
    requires key in s.ops && IsStoring(s.ops[key])
    ensures Tells(s, ReceiveStep(s, key, s.ops[key], c), key, c)
  {
    hide Tells, At, AppendThen, AppendTells;
    TellsForms(s, key, c);
    var op, i := s.ops[key], s.box.intake;
    var m := op.envelope.content.messageID;
    var after := match op
                 case ReceiveSeen(envelope) => i.(seenInbound := i.seenInbound[m := EnvelopeDigest(envelope)])
                 case ReceiveStore(_, record, message) => i.(received := i.received[m := record], inbox := i.inbox + [message])
                 case StoreAck(_, record) => i.(received := i.received[m := record])
                 case _ => i;
    assert KeepsOthers(op, i, after);
  }

  lemma ConfirmTells(s: State, key: ClaimKey, c: Choice)
    requires key in s.ops && (s.ops[key].ConfirmAppend? || s.ops[key].ConfirmStore?)
    ensures Tells(s, ConfirmStep(s, key, s.ops[key], c), key, c)
  {
    hide Tells, At, AppendThen, Written;
    TellsForms(s, key, c);
  }

  /** Every step of an operation before its release is of one of these forms. */
  lemma AdvanceTells(s: State, key: ClaimKey, c: Choice)
    requires key in s.ops && !s.ops[key].Done?
    ensures Tells(s, Advance(s, key, c), key, c)
  {
    hide Tells, SendStep, EvaluationStep, FinalizeStep, ReceiveStep, ConfirmStep;
    var op := s.ops[key];
    if op.SendLookup? || op.SendSubmit? || op.SendRecord? || op.SendStoreReview? || op.SendStoreFinal? {
      SendTells(s, key, c);
    } else if op.Screen? || op.CallModel? {
      ScreenTells(s, key, c);
    } else if op.Decide? {
      DecideTells(s, key, c);
    } else if op.Finalize? {
      FinalizeTells(s, key, c);
    } else if IsEvaluation(op) {
      ApprovalTells(s, key, c);
    } else if IsStoring(op) {
      StoreTells(s, key, c);
    } else if IsReceiving(op) {
      ReceiveTells(s, key, c);
    } else {
      ConfirmTells(s, key, c);
    }
  }
}
