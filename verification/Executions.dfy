/** Runs that the machine can take: how an operation gets from its claim to its end when
    the log works and the guards allow. */
module Executions {
  import opened Wrappers
  import opened Text
  import opened Records
  import opened Replay
  import opened Ledger
  import opened Endpoint
  import opened Invariant
  import opened Steps
  import opened EvaluationSafety
  import opened RunSafety
  import opened Guarantees
  import opened Sections

  /** The choice under which everything goes well. */
  function Good(at: Time, id: string): Choice {
    Choice(Stored(at), id, Allow, "allowed", "model", true)
  }

  lemma Stores(s: State, k: ClaimKey, event: Event, at: Time, next: Op)
    requires !s.poisoned && k in s.ops
    ensures AppendThen(s, k, event, Stored(at), next)
         == s.(known := s.known + [NextEntry(s.known, event, at)], ops := s.ops[k := next])
    ensures Written(s, event, Stored(at)) == NextEntry(s.known, event, at)
  {
  }

  lemma Takes(s: State, k: ClaimKey, c: Choice, t: State)
    requires Reachable(s) && s.mode.Serving? && k in s.ops && Advance(s, k, c) == t
    ensures Reachable(t) && Do(s, DoAdvance(k, c)) == t
  {
    hide Reachable, Advance, Do;
    AdvanceIsDone(s, k, c);
    StepStaysReachable(s, t, DoAdvance(k, c));
  }

  /** Everything but the log, the maps and the operation at `k` is as it was. */
  predicate Beside(s: State, t: State, k: ClaimKey) {
    t.config == s.config && t.key == s.key && t.mode == s.mode && t.closing == s.closing && t.poisoned == s.poisoned
    && t.looked == s.looked && t.active == s.active && t.semaphore == s.semaphore && s.known <= t.known && t.tail == s.tail
    && k in t.ops && t.ops == s.ops[k := t.ops[k]]
  }

  /** The first process of an endpoint starts with nothing in its log and its maps. */
  lemma Starts(config: Config, key: Key) returns (s: State)
    requires Startable(config)
    ensures Reachable(s) && s == Initial(config, key).(mode := Serving)
  {
    hide Rebuilds, Do;
    var s0 := Initial(config, key);
    assert s0 == Run(Initial(config, key), []);
    assert Reachable(s0);
    DownState(s0);
    s := Serve(s0);
    StepStaysReachable(s0, s, DoStart);
  }

  /** With an empty log, a small request to a peer is valid, and any identifier is fresh. */
  lemma StartsClean(s: State, id: string, input: SendInput)
    requires s.known == [] && id == "m" && input == SendInput(input.destination, "x", "r", "c")
    requires Startable(s.config) && input.destination in s.config.peers && ValidIdentifier(input.destination)
    ensures FreshID(s.known, id) && ValidInput(s.config, input)
  {
    assert ByteLength("x") == 1 + ByteLength(""[..]);
    assert !IsSpace("x"[0]);
  }

  // ----- Evaluation -----

  lemma AllowedSteps(s: State, k: ClaimKey, c: Choice, job: Job, model: string, mark: Mark)
    requires k in s.ops && s.ops[k] == Decide(job, Verdict(Allow, "allowed"), model, mark)
    ensures Advance(s, k, c) == At(s, k, Finalize(job, Verdict(Allow, "allowed"), model, mark))
  {
    hide Release, SendStep, FinalizeStep, ReceiveStep, ConfirmStep, Append, AppendThen, MetaOf, Written;
  }

  /** Both guards allow. */
  lemma EvaluationAllows(s: State, k: ClaimKey, job: Job, at: Time) returns (t: State, mark: Mark)
    requires Reachable(s) && s.mode.Serving? && !s.poisoned && Lookup(s.ops, k) == Some(Screen(job))
    ensures Reachable(t) && Beside(s, t, k) && t.box == s.box && t.approved == s.approved && |t.known| == |s.known| + 2
    ensures t.ops[k] == Finalize(job, Verdict(Allow, "allowed"), "model", mark)
  {
    hide Reachable, Advance, Do, AppendThen, Written, NextEntry, MetaOf;
    var c := Good(at, "");
    var meta := MetaOf(s.config.name, job);
    EvaluationSteps(s, k, c);
    Stores(s, k, DeterministicGuard(meta, Allow, "allowed"), at, CallModel(job, Verdict(Allow, "allowed")));
    var s1 := Advance(s, k, c);
    Takes(s, k, c, s1);
    EvaluationSteps(s1, k, c);
    var event := ModelGuard(meta, Allow, "allowed", "model", s.config.policyVersion);
    mark := MarkOf(Written(s1, event, Stored(at)));
    Stores(s1, k, event, at, Decide(job, Verdict(Allow, "allowed"), "model", mark));
    var s2 := Advance(s1, k, c);
    Takes(s1, k, c, s2);
    AllowedSteps(s2, k, c, job, "model", mark);
    t := Advance(s2, k, c);
    Takes(s2, k, c, t);
  }

  // ----- Send -----

  lemma LookupSteps(s: State, k: ClaimKey, c: Choice, input: SendInput)
    requires k in s.ops && s.ops[k] == SendLookup(input) && k !in s.box.outbox.requests
    ensures Advance(s, k, c) == At(s, k, SendSubmit(input))
  {
    hide Release, EvaluationStep, FinalizeStep, ReceiveStep, ConfirmStep, Append, AppendThen;
  }

  /** A request that is not known yet is submitted. */
  lemma Submits(s: State, k: ClaimKey, input: SendInput, id: string, at: Time) returns (t: State, job: Job)
    requires Reachable(s) && s.mode.Serving? && !s.poisoned && Lookup(s.ops, k) == Some(SendLookup(input))
    requires k !in s.box.outbox.requests && FreshID(s.known, id)
    ensures Reachable(t) && Beside(s, t, k) && job == SendJob(input, id, at) && t.ops[k] == Screen(job)
    ensures t.box.outbox.sent == s.box.outbox.sent && t.box.outbox.confirmed == s.box.outbox.confirmed
  {
    hide Reachable, Advance, Do, AppendThen, FreshID;
    var c := Good(at, id);
    LookupSteps(s, k, c, input);
    var s1 := Advance(s, k, c);
    Takes(s, k, c, s1);
    var event := MessageSubmitted(Meta(Outbound, s.config.name, input.destination, id), input.requestID, input.conversationID, input.text);
    SubmitSteps(s1, k, c, input);
    Stores(s1, k, event, at, SendRecord(input, id, at));
    var s2 := Advance(s1, k, c);
    Takes(s1, k, c, s2);
    OutboxSteps(s2, k, c);
    job := SendJob(input, id, at);
    t := Advance(s2, k, c);
    Takes(s2, k, c, t);
  }

  lemma ReleaseSteps(s: State, k: ClaimKey, c: Choice, job: Job, verdict: Verdict, model: string, mark: Mark)
    requires k in s.ops && job.SendJob? && s.ops[k] == Finalize(job, verdict, model, mark)
    ensures var envelope := SignEnvelope(s.key, ReleaseContent(s, job, verdict.decision, model, mark));
            var event := OutboundReleased(MetaOf(s.config.name, job), job.input.requestID, envelope, verdict.reason);
            var released := MarkOf(Written(s, event, c.outcome));
            Advance(s, k, c) == AppendThen(s, k, event, c.outcome,
                                           SendStoreFinal(job, BaseOutput(job, Released, verdict, Some(envelope), released)))
  {
    hide Release, SendStep, EvaluationStep, ReceiveStep, ConfirmStep, Append, AppendThen, Written, MetaOf, BaseOutput;
  }

  /** An allowed message is released, and its envelope is stored as sent. */
  lemma Releases(s: State, k: ClaimKey, job: Job, verdict: Verdict, model: string, mark: Mark, at: Time)
    returns (t: State, envelope: Envelope)
    requires Reachable(s) && s.mode.Serving? && !s.poisoned && job.SendJob?
    requires Lookup(s.ops, k) == Some(Finalize(job, verdict, model, mark))
    ensures Reachable(t) && Beside(s, t, k) && t.ops[k].Done?
    ensures t.box.outbox.sent == s.box.outbox.sent[job.messageID := envelope] && t.box.outbox.confirmed == s.box.outbox.confirmed
    ensures envelope.content.destination == job.input.destination
  {
    hide Reachable, Advance, Do, AppendThen, Written, NextEntry, MetaOf;
    var c := Good(at, "");
    envelope := SignEnvelope(s.key, ReleaseContent(s, job, verdict.decision, model, mark));
    var event := OutboundReleased(MetaOf(s.config.name, job), job.input.requestID, envelope, verdict.reason);
    var output := BaseOutput(job, Released, verdict, Some(envelope), MarkOf(Written(s, event, Stored(at))));
    ReleaseSteps(s, k, c, job, verdict, model, mark);
    Stores(s, k, event, at, SendStoreFinal(job, output));
    var s1 := Advance(s, k, c);
    Takes(s, k, c, s1);
    OutboxSteps(s1, k, c);
    t := Advance(s1, k, c);
    Takes(s1, k, c, t);
  }

  /** A valid request that nobody has made yet can be sent. */
  lemma SendCanSucceed(s: State, input: SendInput, id: string, at: Time) returns (t: State, envelope: Envelope)
    requires Reachable(s) && s.mode.Serving? && !s.closing && !s.poisoned && s.ops == map[]
    requires ValidInput(s.config, input) && FreshID(s.known, id) && SendKey(input.requestID) !in s.box.outbox.requests
    ensures Reachable(t) && t.mode.Serving? && !t.closing && !t.poisoned && t.ops == map[] && t.looked == s.looked
    ensures t.config == s.config && t.box.outbox.sent == s.box.outbox.sent[id := envelope]
    ensures t.box.outbox.confirmed == s.box.outbox.confirmed && envelope.content.destination == input.destination
  {
    hide Reachable, Advance, Do, ValidInput, FreshID, ClaimStatus;
    var k := SendKey(input.requestID);
    IdleGrants(s, k, Binding(input));
    SendClaimed(s, input);
    var s1 := Grant(s, k, Binding(input), SendLookup(input));
    StepStaysReachable(s, s1, DoClaimSend(input));
    var s2, job := Submits(s1, k, input, id, at);
    var s3, mark := EvaluationAllows(s2, k, job, at);
    var s4, e := Releases(s3, k, job, Verdict(Allow, "allowed"), "model", mark, at);
    envelope := e;
    t := Ends(s4, k);
  }

  /** With nothing claimed, a claim of a new key is granted. */
  lemma IdleGrants(s: State, k: ClaimKey, binding: Digest)
    requires Reachable(s) && s.mode.Serving? && !s.closing && s.ops == map[] && k !in s.box.outbox.requests
    ensures ClaimStatus(s, k, binding) == Granted
  {
    hide Reachable, Durable, AnswersOk, KeyOk, ConfirmsOk, InboxAgrees, OrderAgrees;
    ReachableSafe(s);
    assert k !in s.active.Keys;
  }

  /** A finished operation is released. */
  lemma Ends(s: State, k: ClaimKey) returns (t: State)
    requires Reachable(s) && s.mode.Serving? && k in s.ops && s.ops[k].Done?
    ensures Reachable(t) && t.ops == s.ops - {k} && t.box == s.box && t.known == s.known && t.tail == s.tail && t.looked == s.looked
    ensures t.mode == s.mode && t.closing == s.closing && t.poisoned == s.poisoned && t.config == s.config
    ensures s.answers <= t.answers && t == Release(s, k)
  {
    hide Reachable, Do;
    var c := Good(0, "");
    DoneIsReleased(s, k, c);
    t := Release(s, k);
    StepStaysReachable(s, t, DoAdvance(k, c));
  }

  // ----- Receive -----

  lemma NewSteps(s: State, k: ClaimKey, c: Choice, envelope: Envelope)
    requires k in s.ops && s.ops[k] == ReceiveLookup(envelope)
    requires envelope.content.messageID !in s.box.intake.received && envelope.content.messageID !in s.box.intake.seenInbound
    ensures Advance(s, k, c) == At(s, k, ReceiveVerify(envelope))
  {
    hide Release, SendStep, EvaluationStep, FinalizeStep, ConfirmStep, Append, AppendThen;
  }

  lemma VerifySteps(s: State, k: ClaimKey, c: Choice, envelope: Envelope)
    requires k in s.ops && s.ops[k] == ReceiveVerify(envelope)
    ensures var n := envelope.content;
            var event := InboundVerified(MetaOf(s.config.name, ReceiveJob(envelope)), n.requestID, n.conversationID, n.body,
                                         EnvelopeDigest(envelope));
            Advance(s, k, c) == AppendThen(s, k, event, c.outcome, ReceiveSeen(envelope))
  {
    hide Release, SendStep, EvaluationStep, FinalizeStep, ConfirmStep, Append, AppendThen, MetaOf;
  }

  /** A new envelope is verified and remembered. */
  lemma Verifies(s: State, k: ClaimKey, envelope: Envelope, at: Time) returns (t: State)
    requires Reachable(s) && s.mode.Serving? && !s.poisoned && Lookup(s.ops, k) == Some(ReceiveLookup(envelope))
    requires envelope.content.messageID !in s.box.intake.received && envelope.content.messageID !in s.box.intake.seenInbound
    ensures Reachable(t) && Beside(s, t, k) && t.ops[k] == Screen(ReceiveJob(envelope))
    ensures t.box.outbox == s.box.outbox && t.box.intake.received == s.box.intake.received && t.box.intake.inbox == s.box.intake.inbox
    ensures t.box.intake.seenInbound == s.box.intake.seenInbound[envelope.content.messageID := EnvelopeDigest(envelope)]
  {
    hide Reachable, Advance, Do, AppendThen, Written, NextEntry, MetaOf;
    var c := Good(at, "");
    NewSteps(s, k, c, envelope);
    var s1 := Advance(s, k, c);
    Takes(s, k, c, s1);
    VerifySteps(s1, k, c, envelope);
    var n := envelope.content;
    Stores(s1, k, InboundVerified(MetaOf(s.config.name, ReceiveJob(envelope)), n.requestID, n.conversationID, n.body,
                                  EnvelopeDigest(envelope)), at, ReceiveSeen(envelope));
    var s2 := Advance(s1, k, c);
    Takes(s1, k, c, s2);
    IntakeSteps(s2, k, c);
    t := Advance(s2, k, c);
    Takes(s2, k, c, t);
  }

  /** A new valid envelope can be brought to the point at which its acceptance is in the
      log but not in the inbox yet. */
  lemma ReceiveCanBeAccepted(s: State, envelope: Envelope, now: Time) returns (t: State, message: Message)
    requires Reachable(s) && s.mode.Serving? && !s.closing && !s.poisoned && ValidEnvelope(s.config, envelope, now)
    requires var m := envelope.content.messageID;
             ReceiveKey(m) !in s.active && m !in s.box.intake.received && m !in s.box.intake.seenInbound
    requires s.semaphore < s.config.maxConcurrent
    ensures Reachable(t) && t.mode.Serving? && !t.closing && !t.poisoned && t.config == s.config && t.semaphore == s.semaphore + 1
    ensures var k := ReceiveKey(envelope.content.messageID);
            k in t.ops && t.ops[k].ReceiveStore? && t.ops[k].message == message
            && t.ops == s.ops[k := t.ops[k]] && t.active.Keys == s.active.Keys + {k}
    ensures t.box.intake.inbox == s.box.intake.inbox && t.box.intake.received == s.box.intake.received
    ensures t.box.intake.seenInbound == s.box.intake.seenInbound[envelope.content.messageID := EnvelopeDigest(envelope)]
    ensures |s.known| < message.sequence == |t.known|
  {
    hide Reachable, Advance, Do, AppendThen, MetaOf, ValidEnvelope, ClaimStatus, Beside;
    var k, binding := ReceiveKey(envelope.content.messageID), EnvelopeDigest(envelope);
    FreeGrants(s, k, binding);
    ReceiveClaimed(s, envelope, now);
    var s1 := Grant(s, k, binding, ReceiveLookup(envelope));
    StepStaysReachable(s, s1, DoClaimReceive(envelope, now));
    var s2 := Verifies(s1, k, envelope, now);
    assert Beside(s1, s2, k);
    BesideFacts(s1, s2, k);
    var s3, mark := EvaluationAllows(s2, k, ReceiveJob(envelope), now);
    BesideFacts(s2, s3, k);
    t, message := Accepts(s3, k, envelope, mark, now);
    BesideFacts(s3, t, k);
  }

  lemma BesideFacts(s: State, t: State, k: ClaimKey)
    requires Beside(s, t, k)
    ensures t.config == s.config && t.mode == s.mode && t.closing == s.closing && t.poisoned == s.poisoned
    ensures t.active == s.active && t.semaphore == s.semaphore && |s.known| <= |t.known|
    ensures k in t.ops && t.ops == s.ops[k := t.ops[k]]
  {
  }

  /** A key that is not claimed is granted while there is room. */
  lemma FreeGrants(s: State, k: ClaimKey, binding: Digest)
    requires Reachable(s) && s.mode.Serving? && !s.closing && !k.SendKey? && k !in s.active && s.semaphore < s.config.maxConcurrent
    ensures ClaimStatus(s, k, binding) == Granted
  {
    hide Reachable, Inv;
    if k in s.box.outbox.requests {
      FinalHasOutput(s, k);
    }
  }

  lemma Accepts(s: State, k: ClaimKey, envelope: Envelope, mark: Mark, at: Time) returns (t: State, message: Message)
    requires Reachable(s) && s.mode.Serving? && !s.poisoned
    requires Lookup(s.ops, k) == Some(Finalize(ReceiveJob(envelope), Verdict(Allow, "allowed"), "model", mark))
    ensures Reachable(t) && Beside(s, t, k) && t.box == s.box
    ensures t.ops[k].ReceiveStore? && t.ops[k].message == message && message.sequence == |t.known| == |s.known| + 1
  {
    hide Reachable, Advance, Do, AppendThen, MetaOf, AcceptanceRecord;
    var c, verdict := Good(at, ""), Verdict(Allow, "allowed");
    var n := envelope.content;
    var event := InboundAccepted(MetaOf(s.config.name, ReceiveJob(envelope)), n.requestID, n.conversationID, n.body,
                                 EnvelopeDigest(envelope), verdict.decision, verdict.reason);
    var e := NextEntry(s.known, event, at);
    AcceptSteps(s, k, c, envelope, verdict, "model", mark);
    message := AcceptanceMessage(envelope, e);
    Stores(s, k, event, at, ReceiveStore(envelope, AcceptanceRecord(envelope, verdict, e), message));
    t := Advance(s, k, c);
    Takes(s, k, c, t);
  }
}
