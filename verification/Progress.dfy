/** The one form that every section of an operation has: it goes on with what the
    operation is about, comes closer to its release, and appends at most one event. */
module Progress {
  import opened Wrappers
  import opened Records
  import opened Replay
  import opened Ledger
  import opened Endpoint
  import opened Invariant

  /** A bound on the steps until an operation is released. */
  function Weight(op: Op): nat {
    match op
    case Done(_) => 1
    case SendStoreReview(_, _) => 2
    case SendStoreFinal(_, _) => 2
    case StoreAck(_, _) => 2
    case ConfirmStore(_, _) => 2
    case IssueAck(_, _) => 3
    case ConfirmAppend(_, _) => 3
    case RequireApproval(_, _) => 3
    case SavePending(_, _) => 4
    case ReceiveStore(_, _, _) => 4
    case Finalize(_, _, _, _) => 5
    case ConsumeApproval(_, _, _) => 6
    case Decide(_, _, _, _) => 7
    case CallModel(_, _) => 8
    case Screen(_) => 9
    case SendRecord(_, _, _) => 10
    case ReceiveSeen(_) => 10
    case SendSubmit(_) => 11
    case ReceiveVerify(_) => 11
    case SendLookup(_) => 12
    case ReceiveLookup(_) => 12
  }

  /** The envelope that an operation receives. */
  function EnvelopeOf(op: Op): Option<Envelope> {
    match op
    case ReceiveLookup(envelope) => Some(envelope)
    case ReceiveVerify(envelope) => Some(envelope)
    case ReceiveSeen(envelope) => Some(envelope)
    case ReceiveStore(envelope, _, _) => Some(envelope)
    case IssueAck(envelope, _) => Some(envelope)
    case StoreAck(envelope, _) => Some(envelope)
    case _ => if IsEvaluation(op) && op.job.ReceiveJob? then Some(op.job.envelope) else None
  }

  /** The operation goes on with the same envelope, and is closer to its release. A
      confirmation is never about to be appended again. */
  predicate Continues(op: Op, next: Op) {
    Weight(next) < Weight(op) && (EnvelopeOf(next).Some? ==> EnvelopeOf(next) == EnvelopeOf(op)) && !next.ConfirmAppend?
  }

  /** Nothing is forgotten about confirmations, and only what came in changes the intake. */
  predicate Updates(op: Op, before: Mailbox, after: Mailbox) {
    before.outbox.confirmed.Keys <= after.outbox.confirmed.Keys && (EnvelopeOf(op).None? ==> after.intake == before.intake)
  }

  /** The event is about what the operation is about. */
  predicate Emits(op: Op, event: Event) {
    match event
    case InboundVerified(_, _, _, _, digest) => EnvelopeOf(op).Some? && digest == EnvelopeDigest(EnvelopeOf(op).value)
    case InboundAccepted(_, _, _, _, digest, _, _) => EnvelopeOf(op).Some? && digest == EnvelopeDigest(EnvelopeOf(op).value)
    case DeliveryConfirmed(meta, ack) => op.ConfirmAppend? && op.ack == ack && meta.messageID == ack.content.messageID
    case _ => true
  }

  /** What the environment can answer: verdicts with reasons, and unused identifiers. */
  predicate Answers(s: State, c: Choice) {
    IsVerdict(c.decision) && c.reason != "" && (c.ok ==> FreshID(s.known, c.id))
  }

  predicate Misplaced(op: Op) {
    (op.SendStoreReview? || op.SendStoreFinal?) && !op.job.SendJob?
  }

  /** One section of the operation at `key`. It has no effect only if the environment's
      choice is none that it can make. */
  ghost predicate Section(s: State, s': State, key: ClaimKey, c: Choice)
    requires key in s.ops
  {
    || (s' == s && (!Answers(s, c) || Misplaced(s.ops[key])))
    || (exists next, box: Mailbox ::
          Continues(s.ops[key], next) && Updates(s.ops[key], s.box, box) && s' == At(s.(box := box), key, next))
    || (exists event, next ::
          Emits(s.ops[key], event) && Continues(s.ops[key], next) && s' == AppendThen(s, key, event, c.outcome, next))
  }

  lemma Forms(s: State, key: ClaimKey, c: Choice)
    requires key in s.ops
    ensures !Answers(s, c) || Misplaced(s.ops[key]) ==> Section(s, s, key, c)
    ensures forall next :: Continues(s.ops[key], next) ==> Section(s, At(s, key, next), key, c)
    ensures forall next, box: Mailbox ::
              Continues(s.ops[key], next) && Updates(s.ops[key], s.box, box) ==>
                Section(s, At(s.(box := box), key, next), key, c)
    ensures forall event, next :: Emits(s.ops[key], event) && Continues(s.ops[key], next) ==>
                                    Section(s, AppendThen(s, key, event, c.outcome, next), key, c)
  {
    hide Continues, Emits, Answers, Misplaced, AppendThen;
    forall next | Continues(s.ops[key], next) ensures Section(s, At(s, key, next), key, c) {
      assert At(s, key, next) == At(s.(box := s.box), key, next) && Updates(s.ops[key], s.box, s.box);
    }
  }

  lemma SendSection(s: State, key: ClaimKey, c: Choice)
    requires key in s.ops
    requires s.ops[key].SendLookup? || s.ops[key].SendSubmit? || s.ops[key].SendRecord? || s.ops[key].SendStoreReview?
             || s.ops[key].SendStoreFinal?
    ensures Section(s, SendStep(s, key, s.ops[key], c), key, c)
  {
    hide Section, At, AppendThen, FreshID, RecordFor, Written, Binding, RequestOf;
    Forms(s, key, c);
  }

  lemma EvaluationSection(s: State, key: ClaimKey, c: Choice)
    requires key in s.ops && IsEvaluation(s.ops[key]) && !s.ops[key].Finalize? && !s.ops[key].Decide?
    ensures Section(s, EvaluationStep(s, key, s.ops[key], c), key, c)
  {
    hide Section, At, AppendThen, FreshID, MetaOf, BaseOutput, BaseReceiveOutput, Written, MarkOf, IsApproved, EffectiveVerdict;
    Forms(s, key, c);
  }

  lemma DecisionSection(s: State, key: ClaimKey, c: Choice)
    requires key in s.ops && s.ops[key].Decide?
    ensures Section(s, EvaluationStep(s, key, s.ops[key], c), key, c)
  {
    hide Section, At, AppendThen, FreshID, MetaOf, BaseOutput, BaseReceiveOutput, Written, MarkOf, IsApproved, EffectiveVerdict,
         Answers, Misplaced, Updates;
    Forms(s, key, c);
  }

  lemma FinalSection(s: State, key: ClaimKey, c: Choice)
    requires key in s.ops && s.ops[key].Finalize?
    ensures Section(s, FinalizeStep(s, key, s.ops[key], c), key, c)
  {
    hide Section, At, AppendThen, FreshID, MetaOf, BaseOutput, BaseReceiveOutput, Written, MarkOf, SignEnvelope, Answers, Misplaced,
         Updates;
    Forms(s, key, c);
  }

  lemma ConfirmSection(s: State, key: ClaimKey, c: Choice)
    requires key in s.ops && (s.ops[key].ConfirmAppend? || s.ops[key].ConfirmStore?)
    ensures Section(s, ConfirmStep(s, key, s.ops[key], c), key, c)
  {
    hide Section, At, AppendThen, FreshID, Written, Answers, Misplaced;
    Forms(s, key, c);
  }

  predicate IsReceiving(op: Op) {
    op.ReceiveLookup? || op.ReceiveVerify? || op.ReceiveSeen? || op.ReceiveStore? || op.IssueAck? || op.StoreAck?
  }

  predicate IsStoring(op: Op) {
    op.ReceiveSeen? || op.ReceiveStore? || op.StoreAck?
  }

  lemma StoreSection(s: State, key: ClaimKey, c: Choice)
    requires key in s.ops && IsStoring(s.ops[key])
    ensures Section(s, ReceiveStep(s, key, s.ops[key], c), key, c)
  {
    hide Section, At, AppendThen, FreshID, MetaOf, Written, WithAck, SignAck, Answers, Emits, IsReceiving, Misplaced;
    Forms(s, key, c);
  }

  lemma ReceiveSection(s: State, key: ClaimKey, c: Choice)
    requires key in s.ops && IsReceiving(s.ops[key]) && !IsStoring(s.ops[key])
    ensures Section(s, ReceiveStep(s, key, s.ops[key], c), key, c)
  {
    hide Section, At, AppendThen, FreshID, MetaOf, Written, WithAck, SignAck, Answers, Updates;
    Forms(s, key, c);
  }

  /** Every step of an operation before its release is such a section. */
  lemma AdvanceIsSection(s: State, key: ClaimKey, c: Choice)
    requires key in s.ops && !s.ops[key].Done?
    ensures Section(s, Advance(s, key, c), key, c)
  {
    hide Section, SendStep, EvaluationStep, FinalizeStep, ReceiveStep, ConfirmStep;
    var op := s.ops[key];
    if op.SendLookup? || op.SendSubmit? || op.SendRecord? || op.SendStoreReview? || op.SendStoreFinal? {
      SendSection(s, key, c);
    } else if IsStoring(op) {
      StoreSection(s, key, c);
    } else if IsReceiving(op) {
      ReceiveSection(s, key, c);
    } else if op.Decide? {
      DecisionSection(s, key, c);
    } else if op.Finalize? {
      FinalSection(s, key, c);
    } else if IsEvaluation(op) {
      EvaluationSection(s, key, c);
    } else {
      ConfirmSection(s, key, c);
    }
  }
}
