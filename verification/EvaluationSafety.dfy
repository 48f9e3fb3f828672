/** The guard part of both operations keeps the invariant. */
module EvaluationSafety {
  import opened Wrappers
  import opened Records
  import opened Replay
  import opened Ledger
  import opened Endpoint
  import opened Invariant
  import opened Frames
  import opened Steps

  /** Events that change nothing but the gate of their scope. */
  predicate OnlyGates(event: Event, meta: Meta) {
    match event
    case DeterministicGuard(m, _, _) => m == meta
    case ModelGuard(m, _, _, _, _) => m == meta
    case GuardFailed(m, _) => m == meta
    case ApprovalRequired(m, _) => m == meta
    case ApprovalConsumed(m, _) => m == meta
    case MessageBlocked(m, _, _) => m == meta && m.direction == Inbound
    case _ => false
  }

  /** The operation at `key` is evaluating `job`. */
  predicate Evaluating(s: State, key: ClaimKey, job: Job) {
    key in s.ops && IsEvaluation(s.ops[key]) && s.ops[key].job == job
  }

  function GateFor(s: State, job: Job): Gate {
    GateOf(s.known, ScopeOf(MetaOf(s.config.name, job)))
  }

  /** An operation under evaluation stands where its view says. */
  lemma EvaluatingFacts(s: State, key: ClaimKey, job: Job)
    requires KeyOk(s, key) && Evaluating(s, key, job)
    ensures EvaluationOk(s.config.name, s.ops[key], GateFor(s, job), Lookup(s.approved, MetaOf(s.config.name, job).messageID))
    ensures Settled(s, key)
    ensures MetaFits(LoggedOutbox(s), key, MetaOf(s.config.name, job))
    ensures job.SendJob? <==> key.SendKey?
    ensures match job
            case SendJob(input, m, _) =>
              InputOk(key, input) && Lookup(LoggedOutbox(s).requests, key) == Some(RecordFor(job, None, false))
              && m !in LoggedOutbox(s).sent
            case ReceiveJob(envelope) =>
              EnvelopeOk(s.config.name, key, envelope) && envelope.content.messageID !in LoggedIntake(s).received
              && Lookup(LoggedIntake(s).seenInbound, envelope.content.messageID) == Some(EnvelopeDigest(envelope))
  {
    hide IndexOf, GateOf;
  }

  /** The view of the evaluated message after a gate event: the gate has moved, nothing else. */
  lemma GatedView(s: State, s': State, key: ClaimKey, job: Job, event: Event, at: Time)
    requires KeyOk(s, key) && Evaluating(s, key, job) && Appended(s, s', key, event, at)
    requires OnlyGates(event, MetaOf(s.config.name, job))
    ensures LoggedOutbox(s') == LoggedOutbox(s) && LoggedIntake(s') == LoggedIntake(s)
    ensures key.SendKey? ==>
              SendViewOf(s', key) == SendViewOf(s, key).(op := Lookup(s'.ops, key), gate := GateStep(GateFor(s, job), event))
    ensures key.ReceiveKey? ==>
              ReceiveViewOf(s', key) == ReceiveViewOf(s, key).(op := Lookup(s'.ops, key), gate := GateStep(GateFor(s, job), event))
  {
    var entry := NextEntry(s.known, event, at);
    EvaluatingFacts(s, key, job);
    IndexOfSnoc(0, s.known, entry);
    IndexOfSnoc(s.key, s.known, entry);
    GateOfSnoc(s.known, entry, ScopeOf(MetaOf(s.config.name, job)));
    hide KeyOk, IndexOf, GateOf, EvaluationOk;
  }

  /** What the operation may go on with after a gate event. */
  predicate MayContinue(name: string, key: ClaimKey, job: Job, op: Op, gate: Gate, approved: Option<Approval>) {
    match op
    case SendStoreReview(j, output) => job.SendJob? && j == job && output.status == ReviewRequired && output.envelope == None
    case Done(None) => true
    case Done(Some(ReceiveAnswer(_, output))) => output.ack == None
    case _ => IsEvaluation(op) && op.job == job && EvaluationOk(name, op, gate, approved)
  }

  lemma SendContinues(name: string, key: ClaimKey, v: SendView, job: Job, op: Op, gate: Gate)
    requires SendOk(name, key, v) && v.op.Some? && IsEvaluation(v.op.value) && v.op.value.job == job
    requires MayContinue(name, key, job, op, gate, v.approved)
    ensures SendOk(name, key, v.(op := Some(op), gate := gate))
  {
  }

  lemma ReceiveContinues(name: string, key: ClaimKey, v: ReceiveView, job: Job, op: Op, gate: Gate)
    requires ReceiveOk(name, key, v) && v.op.Some? && IsEvaluation(v.op.value) && v.op.value.job == job
    requires MayContinue(name, key, job, op, gate, v.approved)
    ensures ReceiveOk(name, key, v.(op := Some(op), gate := gate))
  {
  }

  /** The approval that matters for the evaluated message. */
  function ApprovedFor(s: State, job: Job): Option<Approval> {
    Lookup(s.approved, MetaOf(s.config.name, job).messageID)
  }

  lemma ViewsAgree(s: State, key: ClaimKey, job: Job)
    requires KeyOk(s, key) && Evaluating(s, key, job)
    ensures key.SendKey? || key.ReceiveKey?
    ensures key.SendKey? ==> var v := SendViewOf(s, key);
                             v.op == Some(s.ops[key]) && v.gate == GateFor(s, job) && v.approved == ApprovedFor(s, job)
    ensures key.ReceiveKey? ==> var v := ReceiveViewOf(s, key);
                                v.op == Some(s.ops[key]) && v.gate == GateFor(s, job) && v.approved == ApprovedFor(s, job)
  {
    hide IndexOf, GateOf, EvaluationOk;
  }

  lemma GatedKeyOk(s: State, s': State, key: ClaimKey, job: Job, event: Event, at: Time)
    requires KeyOk(s, key) && Evaluating(s, key, job) && Appended(s, s', key, event, at) && key in s'.ops
    requires OnlyGates(event, MetaOf(s.config.name, job))
    requires MayContinue(s.config.name, key, job, s'.ops[key], GateStep(GateFor(s, job), event), ApprovedFor(s, job))
    ensures KeyOk(s', key)
  {
    GatedView(s, s', key, job, event, at);
    ViewsAgree(s, key, job);
    hide IndexOf, GateOf, SendOk, ReceiveOk, ConfirmOk, MayContinue, SendViewOf, ReceiveViewOf, GateStep, GateFor, OnlyGates;
    match key
    case SendKey(_) => SendContinues(s.config.name, key, SendViewOf(s, key), job, s'.ops[key], GateStep(GateFor(s, job), event));
    case ReceiveKey(_) => ReceiveContinues(s.config.name, key, ReceiveViewOf(s, key), job, s'.ops[key], GateStep(GateFor(s, job), event));
    case _ =>
  }

  lemma GateEventMayBeAppended(s: State, key: ClaimKey, job: Job, event: Event)
    requires KeyOk(s, key) && Evaluating(s, key, job)
    requires OnlyGates(event, MetaOf(s.config.name, job)) && Admissible(s.config.name, s.known, event)
    ensures MayAppend(s, event) && Settled(s, key) && Footprint(LoggedOutbox(s), key, event)
  {
    EvaluatingFacts(s, key, job);
    hide Admissible, Settled, KeyOk, IndexOf, GateOf, EvaluationOk;
  }

  lemma ContinuationIsPlain(name: string, key: ClaimKey, job: Job, op: Op, gate: Gate, approved: Option<Approval>, log: seq<Entry>)
    requires MayContinue(name, key, job, op, gate, approved)
    ensures !op.ConfirmAppend? && !op.ReceiveStore?
    ensures op.Done? && op.answer.Some? ==> AnswerOk(log, op.answer.value)
  {
  }

  /** A gate event is appended and the evaluation goes on with `op`. */
  lemma GateStored(s: State, key: ClaimKey, job: Job, event: Event, at: Time, op: Op)
    requires Inv(s) && s.mode.Serving? && !s.poisoned && Evaluating(s, key, job)
    requires OnlyGates(event, MetaOf(s.config.name, job)) && Admissible(s.config.name, s.known, event)
    requires MayContinue(s.config.name, key, job, op, GateStep(GateFor(s, job), event), ApprovedFor(s, job))
    ensures Inv(At(s.(known := s.known + [NextEntry(s.known, event, at)]), key, op))
  {
    hide KeyOk, Admissible, MayAppend, Settled, Durable, AnswersOk, IndexOf, GateOf, EvaluationOk, ClaimsOk, ConfirmsOk,
         OrderAgrees, InboxAgrees, Footprint, GateStep, GateFor, MayContinue, AnswerOk;
    InvKey(s, key);
    ContinuationIsPlain(s.config.name, key, job, op, GateStep(GateFor(s, job), event), ApprovedFor(s, job),
                        s.known + [NextEntry(s.known, event, at)]);
    GateEventMayBeAppended(s, key, job, event);
    var s' := At(s.(known := s.known + [NextEntry(s.known, event, at)]), key, op);
    assert Appended(s, s', key, event, at);
    GatedKeyOk(s, s', key, job, event, at);
    InboxStays(s, s', key, event, at);
    StoredStep(s, s', key, event, at, op);
  }

  /** A gate event is appended and the evaluation goes on, or the append fails and it ends. */
  lemma GateStepSafe(s: State, key: ClaimKey, job: Job, event: Event, outcome: Outcome, next: Op)
    requires Inv(s) && s.mode.Serving? && Evaluating(s, key, job)
    requires OnlyGates(event, MetaOf(s.config.name, job)) && Admissible(s.config.name, s.known, event)
    requires MayContinue(s.config.name, key, job, next, GateStep(GateFor(s, job), event), ApprovedFor(s, job))
    ensures Inv(AppendThen(s, key, event, outcome, next))
  {
    hide MayAppend, Settled, Admissible, KeyOk, LiveOk, Durable, AnswersOk, OnlyGates, GateStep, GateFor, MayContinue;
    if s.poisoned || !outcome.Stored? {
      InvKey(s, key);
      GateEventMayBeAppended(s, key, job, event);
      FailedStep(s, key, event, outcome);
    } else {
      GateStored(s, key, job, event, outcome.at, next);
    }
  }

  lemma InvKey(s: State, key: ClaimKey)
    requires Inv(s) && s.mode.Serving?
    ensures KeyOk(s, key) && LiveOk(s)
  {
    hide KeyOk, Durable, AnswersOk, ClaimsOk, ConfirmsOk, OrderAgrees, InboxAgrees;
  }

  // ----- The evaluation steps -----

  lemma ScreenSafe(s: State, key: ClaimKey, c: Choice)
    requires Inv(s) && s.mode.Serving? && key in s.ops && s.ops[key].Screen?
    ensures Inv(EvaluationStep(s, key, s.ops[key], c))
  {
    hide KeyOk, LiveOk, Durable, AnswersOk, IndexOf, GateOf, Append, Settled, MetaFits, Inv, RequestsOk, InputOk, EnvelopeOk, Lookup;
    var job := s.ops[key].job;
    InvKey(s, key);
    EvaluatingFacts(s, key, job);
    var meta, verdict := MetaOf(s.config.name, job), Verdict(c.decision, c.reason);
    if IsVerdict(c.decision) && c.reason != "" {
      var event := DeterministicGuard(meta, c.decision, c.reason);
      GateStepSafe(s, key, job, event, c.outcome,
                   if verdict.decision == Deny then Decide(job, verdict, "not_called", MarkOf(Written(s, event, c.outcome)))
                   else CallModel(job, verdict));
    }
  }

  lemma CallModelSafe(s: State, key: ClaimKey, c: Choice)
    requires Inv(s) && s.mode.Serving? && key in s.ops && s.ops[key].CallModel?
    ensures Inv(EvaluationStep(s, key, s.ops[key], c))
  {
    hide KeyOk, LiveOk, Durable, AnswersOk, IndexOf, GateOf, Append, Settled, MetaFits, Inv, RequestsOk, InputOk, EnvelopeOk, Lookup;
    var job, deterministic := s.ops[key].job, s.ops[key].deterministic;
    InvKey(s, key);
    EvaluatingFacts(s, key, job);
    var meta := MetaOf(s.config.name, job);
    if !c.ok {
      GateStepSafe(s, key, job, GuardFailed(meta, c.reason), c.outcome, Done(None));
    } else if IsVerdict(c.decision) && c.reason != "" {
      var verdict := EffectiveVerdict(deterministic, Verdict(c.decision, c.reason));
      var event := ModelGuard(meta, c.decision, c.reason, c.model, s.config.policyVersion);
      GateStepSafe(s, key, job, event, c.outcome, Decide(job, verdict, c.model, MarkOf(Written(s, event, c.outcome))));
    }
  }

  lemma RequireApprovalSafe(s: State, key: ClaimKey, c: Choice)
    requires Inv(s) && s.mode.Serving? && key in s.ops && s.ops[key].RequireApproval?
    ensures Inv(EvaluationStep(s, key, s.ops[key], c))
  {
    hide KeyOk, LiveOk, Durable, AnswersOk, IndexOf, GateOf, Append, Settled, MetaFits, Inv, RequestsOk, InputOk, EnvelopeOk, Lookup;
    var job, reason := s.ops[key].job, s.ops[key].reason;
    InvKey(s, key);
    EvaluatingFacts(s, key, job);
    var verdict := Verdict(Review, reason);
    var event := ApprovalRequired(MetaOf(s.config.name, job), reason);
    var pending := MarkOf(Written(s, event, c.outcome));
    GateStepSafe(s, key, job, event, c.outcome,
                 if job.SendJob? then SendStoreReview(job, BaseOutput(job, ReviewRequired, verdict, None, pending))
                 else Done(Some(ReceiveAnswer(job.envelope, BaseReceiveOutput(job.envelope, ReviewRequired, verdict, pending)))));
  }

  lemma ConsumeApprovalSafe(s: State, key: ClaimKey, c: Choice)
    requires Inv(s) && s.mode.Serving? && key in s.ops && s.ops[key].ConsumeApproval?
    ensures Inv(EvaluationStep(s, key, s.ops[key], c))
  {
    hide KeyOk, LiveOk, Durable, AnswersOk, IndexOf, GateOf, Append, Settled, MetaFits, Inv, RequestsOk, InputOk, EnvelopeOk, Lookup;
    var job, reason, model := s.ops[key].job, s.ops[key].reason, s.ops[key].model;
    InvKey(s, key);
    EvaluatingFacts(s, key, job);
    var event := ApprovalConsumed(MetaOf(s.config.name, job), reason);
    GateStepSafe(s, key, job, event, c.outcome,
                 Finalize(job, Verdict(ReviewApproved, reason), model, MarkOf(Written(s, event, c.outcome))));
  }

  lemma ContinueKeyOk(s: State, s': State, key: ClaimKey, job: Job, op: Op)
    requires KeyOk(s, key) && Evaluating(s, key, job) && s' == At(s, key, op)
    requires MayContinue(s.config.name, key, job, op, GateFor(s, job), ApprovedFor(s, job))
    ensures KeyOk(s', key)
  {
    hide IndexOf, GateOf, SendOk, ReceiveOk, MayContinue, GateFor, ApprovedFor;
    ViewsAgree(s, key, job);
    match key
    case SendKey(_) => SendContinues(s.config.name, key, SendViewOf(s, key), job, op, GateFor(s, job));
    case ReceiveKey(_) => ReceiveContinues(s.config.name, key, ReceiveViewOf(s, key), job, op, GateFor(s, job));
    case _ =>
  }

  /** The evaluation goes on without an append. */
  lemma ContinueSafe(s: State, key: ClaimKey, job: Job, op: Op)
    requires Inv(s) && s.mode.Serving? && Evaluating(s, key, job)
    requires MayContinue(s.config.name, key, job, op, GateFor(s, job), ApprovedFor(s, job))
    ensures Inv(At(s, key, op))
  {
    hide KeyOk, LiveOk, Inv, MayContinue, GateFor, ApprovedFor, AnswerOk;
    InvKey(s, key);
    ContinueKeyOk(s, At(s, key, op), key, job, op);
    ContinuationIsPlain(s.config.name, key, job, op, GateFor(s, job), ApprovedFor(s, job), s.known);
    LocalMove(s, key, op);
  }

  lemma SavePendingSafe(s: State, key: ClaimKey, c: Choice)
    requires Inv(s) && s.mode.Serving? && key in s.ops && s.ops[key].SavePending?
    ensures Inv(EvaluationStep(s, key, s.ops[key], c))
  {
    hide KeyOk, LiveOk, Durable, AnswersOk, IndexOf, GateOf, Settled, MetaFits, Inv, RequestsOk, InputOk, EnvelopeOk, Lookup;
    var job, reason := s.ops[key].job, s.ops[key].reason;
    InvKey(s, key);
    EvaluatingFacts(s, key, job);
    ContinueSafe(s, key, job, if c.ok then RequireApproval(job, reason) else Done(None));
  }
}
