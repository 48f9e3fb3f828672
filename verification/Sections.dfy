/** What single steps of the endpoint machine do to its state, one section of an
    operation at a time. */
module Sections {
  import opened Wrappers
  import opened Records
  import opened Replay
  import opened SigningHistory
  import opened Endpoint
  import opened Invariant
  import opened Ledger
  import opened LogTheorems
  import opened Steps
  import opened EvaluationSafety
  import opened ProcessSafety
  import opened RunSafety
  import opened Guarantees

  // ----- Steps of the machine -----

  lemma OnlySendsAreFinal(s: State, key: ClaimKey)
    requires KeyOk(s, key) && key in s.box.outbox.requests
    ensures key.SendKey?
  {
    hide IndexOf, GateOf, EvaluationOk, SendOk, ReceiveOk, ConfirmOk;
  }

  /** Only sends have request records, and a final one has an output. */
  lemma FinalHasOutput(s: State, key: ClaimKey)
    requires Reachable(s) && s.mode.Serving? && key in s.box.outbox.requests
    ensures key.SendKey? && (s.box.outbox.requests[key].final ==> s.box.outbox.requests[key].output.Some?)
  {
    hide Inv, Reachable, IndexOf, RequestsOk, SentOk, IntakeOk, KeyOk, LiveOk, LogOk;
    ReachableSafe(s);
    InvKey(s, key);
    InvDurable(s);
    LoggedIsOk(s);
    OnlySendsAreFinal(s, key);
    if s.box.outbox.requests[key].final {
      FinalIsLogged(s, key);
    }
  }

  lemma DoneIsReleased(s: State, k: ClaimKey, c: Choice)
    requires s.mode.Serving? && k in s.ops && s.ops[k].Done?
    ensures Do(s, DoAdvance(k, c)) == Release(s, k)
  {
    hide Release, SendStep, EvaluationStep, FinalizeStep, ReceiveStep, ConfirmStep;
  }

  /** The sections that store what an append has made durable. */
  lemma IntakeSteps(s: State, k: ClaimKey, c: Choice)
    requires k in s.ops
    ensures var i := s.box.intake;
            match s.ops[k]
            case ReceiveSeen(envelope) =>
              var seen := i.seenInbound[envelope.content.messageID := EnvelopeDigest(envelope)];
              Advance(s, k, c) == At(s.(box := Mailbox(s.box.outbox, Intake(i.received, seen, i.inbox))), k, Screen(ReceiveJob(envelope)))
            case ReceiveStore(envelope, record, message) =>
              var received := i.received[envelope.content.messageID := record];
              Advance(s, k, c)
              == At(s.(box := Mailbox(s.box.outbox, Intake(received, i.seenInbound, i.inbox + [message]))), k, IssueAck(envelope, record))
            case StoreAck(envelope, record) =>
              var received := i.received[envelope.content.messageID := record];
              Advance(s, k, c) == At(s.(box := Mailbox(s.box.outbox, Intake(received, i.seenInbound, i.inbox))), k,
                                     Done(Some(ReceiveAnswer(envelope, record.output))))
            case _ => true
  {
    hide Release, SendStep, EvaluationStep, FinalizeStep, ConfirmStep, Append, AppendThen;
  }

  lemma OutboxSteps(s: State, k: ClaimKey, c: Choice)
    requires k in s.ops
    ensures var o := s.box.outbox;
            match s.ops[k]
            case SendRecord(input, messageID, createdAt) =>
              var job := SendJob(input, messageID, createdAt);
              var requests := o.requests[k := RecordFor(job, None, false)];
              Advance(s, k, c) == At(s.(box := Mailbox(Outbox(requests, o.sent, o.confirmed), s.box.intake)), k, Screen(job))
            case SendStoreReview(job, output) =>
              job.SendJob? ==>
                var requests := o.requests[k := RecordFor(job, Some(output), false)];
                Advance(s, k, c) == At(s.(box := Mailbox(Outbox(requests, o.sent, o.confirmed), s.box.intake)), k,
                                       Done(Some(SendAnswer(job.input, output))))
            case SendStoreFinal(job, output) =>
              job.SendJob? ==>
                var requests := o.requests[k := RecordFor(job, Some(output), true)];
                var sent := if output.envelope.Some? then o.sent[job.messageID := output.envelope.value] else o.sent;
                Advance(s, k, c) == At(s.(box := Mailbox(Outbox(requests, sent, o.confirmed), s.box.intake)), k,
                                       Done(Some(SendAnswer(job.input, output))))
            case ConfirmStore(ack, output) =>
              var confirmed := o.confirmed[ack.content.messageID := output];
              Advance(s, k, c) == At(s.(box := Mailbox(Outbox(o.requests, o.sent, confirmed), s.box.intake)), k,
                                     Done(Some(ConfirmAnswer(ack, output))))
            case _ => true
  {
    hide Release, EvaluationStep, FinalizeStep, ReceiveStep, Append, AppendThen;
  }

  /** An identifier that is in use stays in use. */
  lemma TakenStaysTaken(s: State, earlier: seq<Entry>, id: string)
    requires Reachable(s) && earlier <= s.known && !FreshID(earlier, id)
    ensures !FreshID(s.known, id)
  {
    hide Reachable, LogOk;
    LogIsAlwaysOk(s);
    assert Disk(s)[..|earlier|] == earlier && Disk(s)[..|s.known|] == s.known;
    RequestsStay(s.config.name, Disk(s), |earlier|, |s.known|, id);
  }

  lemma RequestsStay(name: string, log: seq<Entry>, i: nat, j: nat, id: string)
    requires LogOk(name, log) && i <= j <= |log| && !FreshID(log[..i], id)
    ensures !FreshID(log[..j], id)
  {
    hide LogOk, IndexOf, IntakeGrows;
    IndexGrows(name, log, i, j);
  }

  lemma SubmitSteps(s: State, k: ClaimKey, c: Choice, input: SendInput)
    requires k in s.ops && s.ops[k] == SendSubmit(input)
    ensures !c.ok ==> Advance(s, k, c) == At(s, k, Done(None))
    ensures var meta := Meta(Outbound, s.config.name, input.destination, c.id);
            var event := MessageSubmitted(meta, input.requestID, input.conversationID, input.text);
            c.ok && FreshID(s.known, c.id) ==>
              Advance(s, k, c) == AppendThen(s, k, event, c.outcome, SendRecord(input, c.id, Written(s, event, c.outcome).at))
  {
    hide Release, EvaluationStep, FinalizeStep, ReceiveStep, ConfirmStep, Append, AppendThen, Written, FreshID;
  }

  lemma AcceptSteps(s: State, k: ClaimKey, c: Choice, envelope: Envelope, verdict: Verdict, model: string, mark: Mark)
    requires k in s.ops && s.ops[k] == Finalize(ReceiveJob(envelope), verdict, model, mark)
    ensures var n := envelope.content;
            var event := InboundAccepted(MetaOf(s.config.name, ReceiveJob(envelope)), n.requestID, n.conversationID, n.body,
                                         EnvelopeDigest(envelope), verdict.decision, verdict.reason);
            var e := Written(s, event, c.outcome);
            Advance(s, k, c) == AppendThen(s, k, event, c.outcome,
                                           ReceiveStore(envelope, AcceptanceRecord(envelope, verdict, e), AcceptanceMessage(envelope, e)))
  {
    hide Release, SendStep, EvaluationStep, ReceiveStep, ConfirmStep, Append, AppendThen, Written, MetaOf, BaseReceiveOutput;
  }

  /** The sections of an evaluation that append. */
  lemma EvaluationSteps(s: State, k: ClaimKey, c: Choice)
    requires k in s.ops && IsVerdict(c.decision) && c.reason != ""
    ensures match s.ops[k]
            case Screen(job) =>
              var event := DeterministicGuard(MetaOf(s.config.name, job), c.decision, c.reason);
              var verdict := Verdict(c.decision, c.reason);
              Advance(s, k, c)
              == AppendThen(s, k, event, c.outcome,
                            if c.decision == Deny then Decide(job, verdict, "not_called", MarkOf(Written(s, event, c.outcome)))
                            else CallModel(job, verdict))
            case CallModel(job, deterministic) =>
              c.ok ==>
                var event := ModelGuard(MetaOf(s.config.name, job), c.decision, c.reason, c.model, s.config.policyVersion);
                var verdict := EffectiveVerdict(deterministic, Verdict(c.decision, c.reason));
                Advance(s, k, c)
                == AppendThen(s, k, event, c.outcome, Decide(job, verdict, c.model, MarkOf(Written(s, event, c.outcome))))
            case _ => true
  {
    hide Release, SendStep, FinalizeStep, ReceiveStep, ConfirmStep, Append, AppendThen, MetaOf, Written, EffectiveVerdict;
  }

  lemma FailureSteps(s: State, k: ClaimKey, c: Choice)
    requires k in s.ops && s.ops[k].CallModel? && !c.ok
    ensures Advance(s, k, c) == AppendThen(s, k, GuardFailed(MetaOf(s.config.name, s.ops[k].job), c.reason), c.outcome, Done(None))
  {
    hide Release, SendStep, FinalizeStep, ReceiveStep, ConfirmStep, Append, AppendThen, MetaOf, Written, EffectiveVerdict;
  }

  /** What is left to do after a denial, and after a review without an approval. */
  function Blocked(job: Job, verdict: Verdict, mark: Mark): Op {
    if job.SendJob? then SendStoreFinal(job, BaseOutput(job, Status.Denied, verdict, None, mark))
    else Done(Some(ReceiveAnswer(job.envelope, BaseReceiveOutput(job.envelope, Status.Denied, verdict, mark))))
  }

  function Pending(job: Job, verdict: Verdict, mark: Mark): Op {
    if job.SendJob? then SendStoreReview(job, BaseOutput(job, ReviewRequired, verdict, None, mark))
    else Done(Some(ReceiveAnswer(job.envelope, BaseReceiveOutput(job.envelope, ReviewRequired, verdict, mark))))
  }

  lemma SendClaimed(s: State, input: SendInput)
    requires Reachable(s) && s.mode.Serving? && ValidInput(s.config, input)
    ensures var k, binding := SendKey(input.requestID), Binding(input);
            match ClaimStatus(s, k, binding)
            case Turned(_) => true
            case Existing(output) =>
              output.Some? && Do(s, DoClaimSend(input)) == s.(answers := s.answers + {SendAnswer(input, output.value)})
            case Granted => Do(s, DoClaimSend(input)) == Grant(s, k, binding, SendLookup(input))
  {
    hide Reachable, Inv, ClaimStatus, Grant, ValidInput;
    var k := SendKey(input.requestID);
    if ClaimStatus(s, k, Binding(input)).Existing? {
      ExistingIsFinal(s, k, Binding(input));
      FinalHasOutput(s, k);
    }
  }

  lemma ReceiveClaimed(s: State, envelope: Envelope, now: Time)
    requires Reachable(s) && s.mode.Serving? && ValidEnvelope(s.config, envelope, now)
    ensures var k := ReceiveKey(envelope.content.messageID);
            !ClaimStatus(s, k, EnvelopeDigest(envelope)).Existing?
            && (ClaimStatus(s, k, EnvelopeDigest(envelope)).Granted? ==>
                  Do(s, DoClaimReceive(envelope, now)) == Grant(s, k, EnvelopeDigest(envelope), ReceiveLookup(envelope)))
  {
    hide Reachable, Inv, ClaimStatus, Grant, ValidEnvelope;
    var k := ReceiveKey(envelope.content.messageID);
    if ClaimStatus(s, k, EnvelopeDigest(envelope)).Existing? {
      ExistingIsFinal(s, k, EnvelopeDigest(envelope));
      FinalHasOutput(s, k);
    }
  }

  lemma ConfirmClaimed(s: State, ack: Ack, envelope: Envelope)
    requires Reachable(s) && s.mode.Serving? && (ack, envelope) in s.looked
    ensures var k := ConfirmKey(ack.content.messageID);
            var after := s.(looked := s.looked - multiset{(ack, envelope)});
            var status := ClaimStatus(s, k, ack.content.envelopeDigest);
            !status.Existing? && status == ClaimStatus(after, k, ack.content.envelopeDigest)
            && Do(s, DoClaimConfirm(ack, envelope))
               == if status.Granted? then Grant(after, k, ack.content.envelopeDigest, ConfirmAppend(ack, envelope)) else after
  {
    hide Reachable, Inv, Grant;
    var k := ConfirmKey(ack.content.messageID);
    if ClaimStatus(s, k, ack.content.envelopeDigest).Existing? {
      ExistingIsFinal(s, k, ack.content.envelopeDigest);
      FinalHasOutput(s, k);
    }
  }

  function AcceptanceRecord(envelope: Envelope, verdict: Verdict, e: Entry): ReceivedRecord {
    ReceivedRecord(EnvelopeDigest(envelope), e.at, e.sequence, e.hash,
                   BaseReceiveOutput(envelope, Status.Accepted, verdict, MarkOf(e)))
  }

  function AcceptanceMessage(envelope: Envelope, e: Entry): Message {
    var n := envelope.content;
    Message(n.messageID, n.conversationID, n.source, n.destination, n.body, n.bodyDigest, e.at, e.sequence)
  }

  lemma AppendSplits(s: State, k: ClaimKey, event: Event, outcome: Outcome, next: Op, s': State, entry: Option<Entry>)
    requires (s', entry) == Append(s, event, outcome)
    ensures AppendThen(s, k, event, outcome, next) == At(s', k, if entry.Some? then next else Done(None))
    ensures s'.ops == s.ops && s.known <= s'.known && (s.poisoned ==> s'.poisoned)
    ensures if entry.Some? then entry.value == Written(s, event, outcome) else s'.poisoned || !outcome.Stored?
  {
    hide NextEntry;
  }

  lemma ReplaysSnoc(name: string, key: Key, keys: seq<Key>, log: seq<Entry>, i: nat)
    requires i < |log| && Replays(name, key, keys, log[..i])
    ensures Replays(name, key, keys, log[..i + 1])
        <==> (log[i].event.AcknowledgementIssued? ==>
                ReceiptFits(name, keys, IndexOf(key, log[..i]).box.intake, log[i].event))
  {
    hide ReceiptFits, IndexOf;
    forall j | 0 <= j <= i ensures log[..i + 1][..j] == log[..i][..j] && (j < i ==> log[..i + 1][j] == log[..i][j]) {}
    assert log[..i + 1][..i] == log[..i] && log[..i + 1][i] == log[i];
  }

  /** One receipt that does not fit refuses the log under every history. */
  lemma RefusedReceipt(name: string, key: Key, keys: seq<Key>, log: seq<Entry>, i: nat)
    requires i < |log| && log[i].event.AcknowledgementIssued? && IsHistory(name, TransitionsOf(log), keys) && keys[0] == key
    requires !ReceiptFits(name, keys, IndexOf(key, log[..i]).box.intake, log[i].event)
    ensures !exists other :: IsHistory(name, TransitionsOf(log), other) && other[0] == key && Replays(name, key, other, log)
  {
    hide ReceiptFits, IndexOf;
    forall other | IsHistory(name, TransitionsOf(log), other) && other[0] == key ensures !Replays(name, key, other, log) {
      HistoryIsUnique(name, TransitionsOf(log), keys, other);
    }
  }

  lemma DownState(s: State)
    requires Reachable(s) && s.mode.Down?
    ensures Idles(s) && Disk(s) == s.known && s.tail == [] && Rebuilds(s)
    ensures Do(s, DoStart) == if Startable(s.config) then Serve(s) else s
  {
    hide Reachable, LogOk, SignedLocally, Authorized, AnswersOk, LiveOk, KeysOk, RotationOk, IsHistory, Replays;
    ReachableSafe(s);
    RebuildNeverFails(s);
  }
}
