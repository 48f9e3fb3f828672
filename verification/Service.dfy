/** The mailbox service as an object whose methods update its maps in place. The
    fields are those of the endpoint machine; every atomic section of a method takes
    exactly one step of it, and between two sections any other operation may run. */
module MailboxService {
  import opened Wrappers
  import opened Text
  import opened Records
  import opened Replay
  import opened SigningHistory
  import opened Endpoint
  import opened Invariant
  import opened Ledger
  import opened LogTheorems
  import opened RunSafety
  import opened Guarantees
  import opened Sections
  import opened Reports
  import opened ReportSafety
  import opened Answers
  import Screening

  // ----- What surrounds one call -----

  datatype GuardReply = Verdicted(decision: Decision, reason: string, model: string) | Unavailable(code: string)

  /** What one call meets outside the service. `logWorks` says that the disk takes
      every append; without it each append may end in any way. */
  datatype Environment = Environment(
    now: Time, withinBudget: bool, requestID: string, messageID: Option<string>, findings: seq<Verdict>,
    guard: GuardReply, pendingSaved: bool, logWorks: bool)

  /** The guards answer with verdicts and reasons. */
  predicate Plausible(env: Environment) {
    Screening.Findings(env.findings) && (env.guard.Verdicted? ==> IsVerdict(env.guard.decision) && env.guard.reason != "")
  }

  datatype Cause = OverBudget | NoIdentifier | GuardUnavailable | NotSaved | NotRecorded

  datatype Reply<T> = Answered(value: T) | Invalid | Rejected(refusal: Refusal) | Failed(cause: Cause)

  datatype Progress<T> = Goes(value: T) | Stops(cause: Cause)

  datatype Evaluation = Evaluation(verdict: Verdict, model: string, mark: Mark)

  datatype Review = Waits(mark: Mark) | Passes(mark: Mark)

  /** A failure is reported only for what went wrong. */
  predicate Explains(env: Environment, logFailed: bool, log: seq<Entry>, cause: Cause) {
    match cause
    case OverBudget => !env.withinBudget
    case NoIdentifier => env.messageID.None? || !FreshID(log, env.messageID.value)
    case GuardUnavailable => env.guard.Unavailable?
    case NotSaved => !env.pendingSaved
    case NotRecorded => logFailed || !env.logWorks
  }

  /** An empty request ID is replaced by a new one, an empty conversation by the request ID. */
  function Normalize(raw: SendInput, id: string): (input: SendInput)
    ensures FillsIn(raw, id, input)
  {
    var requestID := if raw.requestID == "" then id else raw.requestID;
    raw.(requestID := requestID, conversationID := if raw.conversationID == "" then requestID else raw.conversationID)
  }

  /** The receipt is about an envelope that was sent, and comes from its destination. */
  predicate ConfirmFits(sent: map<string, Envelope>, ack: Ack) {
    var m := ack.content.messageID;
    m in sent && ack.content.source == sent[m].content.destination && ack.content.envelopeDigest == EnvelopeDigest(sent[m])
  }

  /** What a service is given beyond the configuration of the endpoint. */
  datatype Options = Options(timeout: int, requestsPerMinute: int, guardCallsPerHour: int, policy: string, deployment: string)

  const MAX_REQUESTS_PER_MINUTE := 600
  const MAX_GUARD_CALLS_PER_HOUR := 1000

  predicate Acceptable(options: Options) {
    0 < options.timeout && 0 < options.requestsPerMinute <= MAX_REQUESTS_PER_MINUTE
    && 0 < options.guardCallsPerHour <= MAX_GUARD_CALLS_PER_HOUR
    && !Blank(options.policy) && ByteLength(options.deployment) == 64
  }

  /** What an inbound message ID is already known for. */
  datatype Found = Unknown | Unacknowledged(record: ReceivedRecord) | Acknowledged(output: ReceiveOutput) | Clash

  /** The message ID belongs to another envelope. */
  predicate Clashes(intake: Intake, envelope: Envelope) {
    var m := envelope.content.messageID;
    (m in intake.received && intake.received[m].envelopeDigest != EnvelopeDigest(envelope))
    || (m in intake.seenInbound && intake.seenInbound[m] != EnvelopeDigest(envelope))
  }

  class Service {
    const config: Config
    const key: Key
    var log: seq<Entry>
    var logFailed: bool
    var approved: map<string, Approval>
    var closing: bool
    var active: map<ClaimKey, Digest>
    var semaphore: nat
    var requests: map<ClaimKey, RequestRecord>
    var sent: map<string, Envelope>
    var received: map<string, ReceivedRecord>
    var seenInbound: map<string, Digest>
    var confirmed: map<string, ConfirmOutput>
    var inbox: seq<Message>

    ghost var tail: seq<Entry>
    ghost var mode: Mode
    ghost var keys: seq<Key>
    ghost var owned: set<Key>
    ghost var ops: map<ClaimKey, Op>
    ghost var looked: multiset<(Ack, Envelope)>
    ghost var answers: set<Answer>

    ghost function Box(): Mailbox
      reads `requests, `sent, `confirmed, `received, `seenInbound, `inbox
    {
      Mailbox(Outbox(requests, sent, confirmed), Intake(received, seenInbound, inbox))
    }

    ghost function View(): State
      reads this
    {
      State(config, key, keys, owned, approved, log, tail, logFailed, mode, closing, Box(), active, semaphore, ops, looked,
            answers)
    }

    ghost predicate Valid()
      reads this
    {
      mode.Serving? && Reachable(View())
    }

    /** What no later step takes back while the process runs. */
    twostate predicate Grows()
      reads this
    {
      old(log) <= log && old(answers) <= answers && (old(logFailed) ==> logFailed)
    }

    // ----- Interference -----

    /** Other goroutines run: any steps of any operations but those of `own`. Lookups of
        the caller, `mine`, are not used up by others. */
    method Yield(ghost own: set<ClaimKey>, ghost mine: multiset<(Ack, Envelope)>)
      requires Valid()
      modifies this
      ensures Valid() && Grows() && (forall k :: k in own ==> Lookup(ops, k) == old(Lookup(ops, k)))
      ensures mine <= old(looked) ==> mine <= looked
    {
    }

    /** Ends a section of the operation at `k`, which took one step of the machine from `s`. */
    method EndSection(ghost s: State, ghost k: ClaimKey, ghost c: Choice)
      requires Reachable(s) && s.mode.Serving? && k in s.ops && View() == Advance(s, k, c) && mode.Serving?
      modifies this
      ensures Valid() && Grows() && Lookup(ops, k) == old(Lookup(ops, k))
    {
      hide Advance, Reachable, Do;
      AdvanceIsDone(s, k, c);
      StepStaysReachable(s, View(), DoAdvance(k, c));
      Yield({k}, multiset{});
    }

    // ----- Claims -----

    method Claim(k: ClaimKey, binding: Digest, ghost op: Op) returns (r: ClaimResult)
      modifies this`active, this`semaphore, this`ops
      ensures r == ClaimStatus(old(View()), k, binding)
      ensures View() == if r.Granted? then Grant(old(View()), k, binding, op) else old(View())
    {
      hide Reachable, Do;
      r := Admission(k, binding);
      if r.Granted? {
        semaphore := semaphore + 1;
        active := active[k := binding];
        ops := ops[k := op];
      }
    }

    method Admission(k: ClaimKey, binding: Digest) returns (r: ClaimResult)
      ensures r == ClaimStatus(View(), k, binding)
    {
      if closing { return Turned(Closed); }
      if k in requests {
        if requests[k].hash != binding { return Turned(Conflict); }
        if requests[k].final { return Existing(requests[k].output); }
      }
      if k in active {
        if active[k] != binding { return Turned(Conflict); }
        return Turned(Busy);
      }
      if semaphore >= config.maxConcurrent { return Turned(Busy); }
      return Granted;
    }

    /** The deferred release: the claim is gone and the answer is out. */
    method ReleaseClaim(k: ClaimKey)
      requires Valid() && k in ops && ops[k].Done?
      modifies this
      ensures Valid() && Grows() && k !in active && log == old(log) && logFailed == old(logFailed) && Box() == old(Box())
      ensures old(ops[k].answer).Some? ==> old(ops[k].answer).value in answers
    {
      hide Reachable, Advance, Do;
      ghost var s, c := View(), Choice(Refused, "", Allow, "", "", true);
      DoneIsReleased(s, k, c);
      Discharge(k);
      StepStaysReachable(s, View(), DoAdvance(k, c));
    }

    method Discharge(k: ClaimKey)
      requires k in ops && ops[k].Done?
      modifies this`active, this`semaphore, this`ops, this`answers
      ensures View() == Release(old(View()), k)
    {
      hide Reachable, Do, Box;
      ghost var out := if ops[k].answer.Some? then {ops[k].answer.value} else {};
      ghost var left := ops - {k};
      var places := if semaphore > 0 then semaphore - 1 else 0;
      active, semaphore := active - {k}, places;
      ops, answers := left, answers + out;
    }

    // ----- Appends -----

    /** How the next append will end. */
    method Attempt(env: Environment) returns (outcome: Outcome)
      ensures env.logWorks ==> outcome.Stored?
    {
      outcome := *;
      if env.logWorks {
        var at: Time := *;
        outcome := Stored(at);
      }
    }

    method AppendEvent(k: ClaimKey, event: Event, outcome: Outcome, ghost next: Op) returns (entry: Option<Entry>)
      requires k in ops
      modifies this`log, this`tail, this`logFailed, this`ops
      ensures View() == AppendThen(old(View()), k, event, outcome, next)
      ensures entry == Append(old(View()), event, outcome).1
      ensures entry.Some? ==> entry.value == Written(old(View()), event, outcome) && ops == old(ops)[k := next]
      ensures entry.None? ==> (logFailed || !outcome.Stored?) && ops == old(ops)[k := Done(None)]
      ensures old(log) <= log && (old(logFailed) ==> logFailed)
    {
      hide Reachable, Do, NextEntry, Append, AppendThen, Written;
      ghost var s := View();
      entry := WriteEntry(event, outcome);
      ghost var s' := View();
      AppendSplits(s, k, event, outcome, next, s', entry);
      ops := ops[k := if entry.Some? then next else Done(None)];
    }

    /** An append to the audit log, which fails for good once durability is uncertain. */
    method WriteEntry(event: Event, outcome: Outcome) returns (entry: Option<Entry>)
      modifies this`log, this`tail, this`logFailed
      ensures (View(), entry) == Append(old(View()), event, outcome)
      ensures old(log) <= log
    {
      hide Reachable, Do, NextEntry, Box;
      if logFailed { return None; }
      match outcome
      case Stored(at) =>
        var written := NextEntry(log, event, at);
        log := log + [written];
        return Some(written);
      case Refused =>
        return None;
      case Lost =>
        logFailed := true;
        return None;
      case Uncertain(at) =>
        logFailed := true;
        tail := [NextEntry(log, event, at)];
        return None;
    }

    // ----- Evaluation -----

    method Evaluate(k: ClaimKey, job: Job, env: Environment) returns (p: Progress<Evaluation>)
      requires Valid() && Lookup(ops, k) == Some(Screen(job)) && Plausible(env)
      modifies this
      ensures Valid() && Grows()
      ensures p.Goes? ==> Lookup(ops, k) == Some(Decide(job, p.value.verdict, p.value.model, p.value.mark))
      ensures p.Stops? ==> Lookup(ops, k) == Some(Done(None)) && Explains(env, logFailed, log, p.cause)
    {
      hide Valid;
      var deterministic, entry := RecordScreening(k, job, env);
      if entry.None? { return Stops(NotRecorded); }
      if deterministic.decision == Deny { return Goes(Evaluation(deterministic, "not_called", MarkOf(entry.value))); }
      p := CallGuard(k, job, deterministic, env);
    }

    /** The deterministic verdict is recorded before anything depends on it. */
    method RecordScreening(k: ClaimKey, job: Job, env: Environment) returns (deterministic: Verdict, entry: Option<Entry>)
      requires Valid() && Lookup(ops, k) == Some(Screen(job)) && Plausible(env)
      modifies this
      ensures Valid() && Grows()
      ensures entry.Some? ==> Lookup(ops, k) == Some(if deterministic.decision == Deny
                                                     then Decide(job, deterministic, "not_called", MarkOf(entry.value))
                                                     else CallModel(job, deterministic))
      ensures entry.None? ==> Lookup(ops, k) == Some(Done(None)) && (logFailed || !env.logWorks)
    {
      hide Reachable, Do, Advance, Append, AppendThen, MetaOf, Written;
      deterministic := Screening.Screen(env.findings);
      ghost var s := View();
      var outcome := Attempt(env);
      var event := DeterministicGuard(MetaOf(config.name, job), deterministic.decision, deterministic.reason);
      ghost var written := MarkOf(Written(s, event, outcome));
      ghost var next := if deterministic.decision == Deny then Decide(job, deterministic, "not_called", written)
                        else CallModel(job, deterministic);
      ghost var c := Choice(outcome, "", deterministic.decision, deterministic.reason, "", true);
      EvaluationSteps(s, k, c);
      entry := AppendEvent(k, event, outcome, next);
      EndSection(s, k, c);
    }

    method CallGuard(k: ClaimKey, job: Job, deterministic: Verdict, env: Environment) returns (p: Progress<Evaluation>)
      requires Valid() && Lookup(ops, k) == Some(CallModel(job, deterministic)) && Plausible(env)
      modifies this
      ensures Valid() && Grows()
      ensures p.Goes? ==> Lookup(ops, k) == Some(Decide(job, p.value.verdict, p.value.model, p.value.mark))
      ensures p.Stops? ==> Lookup(ops, k) == Some(Done(None)) && Explains(env, logFailed, log, p.cause)
    {
      hide Reachable, Do, Advance, Append, AppendThen, MetaOf, Written, EffectiveVerdict;
      ghost var s := View();
      var outcome := Attempt(env);
      var meta := MetaOf(config.name, job);
      match env.guard
      case Unavailable(code) =>
        ghost var c := Choice(outcome, "", Allow, code, "", false);
        FailureSteps(s, k, c);
        var _ := AppendEvent(k, GuardFailed(meta, code), outcome, Done(None));
        EndSection(s, k, c);
        return Stops(GuardUnavailable);
      case Verdicted(decision, reason, model) =>
        var verdict := EffectiveVerdict(deterministic, Verdict(decision, reason));
        var event := ModelGuard(meta, decision, reason, model, config.policyVersion);
        ghost var next := Decide(job, verdict, model, MarkOf(Written(s, event, outcome)));
        ghost var c := Choice(outcome, "", decision, reason, model, true);
        EvaluationSteps(s, k, c);
        var entry := AppendEvent(k, event, outcome, next);
        EndSection(s, k, c);
        if entry.None? { return Stops(NotRecorded); }
        return Goes(Evaluation(verdict, model, MarkOf(entry.value)));
    }

    /** Records a denial. */
    method Block(k: ClaimKey, job: Job, e: Evaluation, env: Environment) returns (p: Progress<Mark>)
      requires Valid() && Lookup(ops, k) == Some(Decide(job, e.verdict, e.model, e.mark)) && e.verdict.decision == Deny
      modifies this
      ensures Valid() && Grows()
      ensures p.Goes? ==> Lookup(ops, k) == Some(Blocked(job, e.verdict, p.value))
      ensures p.Stops? ==> Lookup(ops, k) == Some(Done(None)) && Explains(env, logFailed, log, p.cause)
    {
      hide Reachable, Do, SendStep, FinalizeStep, ReceiveStep, ConfirmStep, Append, MetaOf, Written, BaseOutput, BaseReceiveOutput;
      ghost var s := View();
      var outcome := Attempt(env);
      var event := MessageBlocked(MetaOf(config.name, job), RequestIDOf(job), e.verdict.reason);
      var entry := AppendEvent(k, event, outcome, Blocked(job, e.verdict, MarkOf(Written(s, event, outcome))));
      EndSection(s, k, Choice(outcome, "", Deny, "", "", true));
      return if entry.Some? then Goes(MarkOf(entry.value)) else Stops(NotRecorded);
    }

    /** A review either consumes the operator's approval or is left pending. */
    method SettleReview(k: ClaimKey, job: Job, e: Evaluation, env: Environment) returns (p: Progress<Review>)
      requires Valid() && Lookup(ops, k) == Some(Decide(job, e.verdict, e.model, e.mark)) && e.verdict.decision == Decision.Review
      modifies this
      ensures Valid() && Grows()
      ensures p.Goes? && p.value.Passes? ==>
                Lookup(ops, k) == Some(Finalize(job, Verdict(ReviewApproved, e.verdict.reason), e.model, p.value.mark))
      ensures p.Goes? && p.value.Waits? ==> Lookup(ops, k) == Some(Pending(job, e.verdict, p.value.mark))
      ensures p.Stops? ==> Lookup(ops, k) == Some(Done(None)) && Explains(env, logFailed, log, p.cause)
    {
      hide Reachable, Do, SendStep, FinalizeStep, ReceiveStep, ConfirmStep, Append, MetaOf, Written, AppendThen;
      ghost var s, c := View(), Choice(Refused, "", Decision.Review, "", "", true);
      var approval := ApprovalFor(config.name, job);
      if approval.messageID in approved && approved[approval.messageID] == approval {
        ops := ops[k := ConsumeApproval(job, e.verdict.reason, e.model)];
        EndSection(s, k, c);
        p := Consume(k, job, e, env);
      } else {
        ops := ops[k := SavePending(job, e.verdict.reason)];
        EndSection(s, k, c);
        p := Postpone(k, job, e, env);
      }
    }

    method Consume(k: ClaimKey, job: Job, e: Evaluation, env: Environment) returns (p: Progress<Review>)
      requires Valid() && Lookup(ops, k) == Some(ConsumeApproval(job, e.verdict.reason, e.model))
      modifies this
      ensures Valid() && Grows()
      ensures p.Goes? ==> p.value.Passes?
                          && Lookup(ops, k) == Some(Finalize(job, Verdict(ReviewApproved, e.verdict.reason), e.model, p.value.mark))
      ensures p.Stops? ==> Lookup(ops, k) == Some(Done(None)) && Explains(env, logFailed, log, p.cause)
    {
      hide Reachable, Do, SendStep, FinalizeStep, ReceiveStep, ConfirmStep, Append, MetaOf, Written;
      ghost var s := View();
      var outcome := Attempt(env);
      var event := ApprovalConsumed(MetaOf(config.name, job), e.verdict.reason);
      ghost var mark := MarkOf(Written(s, event, outcome));
      var entry := AppendEvent(k, event, outcome, Finalize(job, Verdict(ReviewApproved, e.verdict.reason), e.model, mark));
      EndSection(s, k, Choice(outcome, "", Allow, "", "", true));
      return if entry.Some? then Goes(Passes(MarkOf(entry.value))) else Stops(NotRecorded);
    }

    method Save(k: ClaimKey, job: Job, reason: string, works: bool) returns (saved: bool)
      requires Valid() && Lookup(ops, k) == Some(SavePending(job, reason))
      modifies this
      ensures Valid() && Grows() && saved == works
      ensures Lookup(ops, k) == Some(if saved then RequireApproval(job, reason) else Done(None))
    {
      hide Reachable, Do, SendStep, FinalizeStep, ReceiveStep, ConfirmStep, Append, MetaOf, Written, AppendThen;
      ghost var s := View();
      ops := ops[k := if works then RequireApproval(job, reason) else Done(None)];
      EndSection(s, k, Choice(Refused, "", Allow, "", "", works));
      return works;
    }

    method Postpone(k: ClaimKey, job: Job, e: Evaluation, env: Environment) returns (p: Progress<Review>)
      requires Valid() && Lookup(ops, k) == Some(SavePending(job, e.verdict.reason)) && e.verdict.decision == Decision.Review
      modifies this
      ensures Valid() && Grows()
      ensures p.Goes? ==> p.value.Waits? && Lookup(ops, k) == Some(Pending(job, e.verdict, p.value.mark))
      ensures p.Stops? ==> Lookup(ops, k) == Some(Done(None)) && Explains(env, logFailed, log, p.cause)
    {
      hide Reachable, Do, SendStep, FinalizeStep, ReceiveStep, ConfirmStep, Append, MetaOf, Written, BaseOutput, BaseReceiveOutput;
      var saved := Save(k, job, e.verdict.reason, env.pendingSaved);
      if !saved { return Stops(NotSaved); }
      ghost var s := View();
      var outcome := Attempt(env);
      var event := ApprovalRequired(MetaOf(config.name, job), e.verdict.reason);
      var entry := AppendEvent(k, event, outcome, Pending(job, e.verdict, MarkOf(Written(s, event, outcome))));
      EndSection(s, k, Choice(outcome, "", Allow, "", "", true));
      return if entry.Some? then Goes(Waits(MarkOf(entry.value))) else Stops(NotRecorded);
    }

    // ----- Send -----

    method NewID(candidate: Option<string>) returns (id: Option<string>)
      ensures if id.Some? then id == candidate && FreshID(log, id.value) else candidate.None? || !FreshID(log, candidate.value)
    {
      return if candidate.Some? && FreshID(log, candidate.value) then candidate else None;
    }

    /** A retry of a call that was answered. Nothing else than the request ID connects them:
        both answers are about one message, and there is one final answer and one envelope. */
    method SendAgain(raw: SendInput, env: Environment, raw': SendInput, env': Environment)
      returns (r: Reply<SendOutput>, r': Reply<SendOutput>)
      requires Valid() && Plausible(env) && Plausible(env') && raw.requestID == raw'.requestID != ""
      modifies this
      ensures Valid() && Grows()
      ensures r.Answered? && r'.Answered? ==>
                raw.destination == raw'.destination && raw.text == raw'.text && r.value.messageID == r'.value.messageID
                && r.value.requestID == r'.value.requestID == raw.requestID
                && (IsFinal(r.value) && IsFinal(r'.value) ==> r.value == r'.value)
                && (r.value.envelope.Some? && r'.value.envelope.Some? ==> r.value.envelope == r'.value.envelope)
    {
      hide Reachable, Plausible, SendTold, ClaimStatus, Explains, IsAcceptable;
      r := Send(raw, env);
      ghost var input :| FillsIn(raw, env.requestID, input) && (r.Answered? ==> SendAnswer(input, r.value) in answers);
      Yield({}, multiset{});
      r' := Send(raw', env');
      ghost var input' :| FillsIn(raw', env'.requestID, input') && (r'.Answered? ==> SendAnswer(input', r'.value) in answers);
      if r.Answered? && r'.Answered? {
        RawCallsAgree(View(), raw, env.requestID, input, r.value, raw', env'.requestID, input', r'.value);
      }
    }

    /** Every answer is about the call as it was made, and reports an entry of the log. */
    method Send(raw: SendInput, env: Environment) returns (r: Reply<SendOutput>)
      requires Valid() && Plausible(env)
      modifies this
      ensures Valid() && Grows()
      ensures exists input ::
                && FillsIn(raw, env.requestID, input)
                && (r.Answered? ==> SendAnswer(input, r.value) in answers && SendTold(log, input, r.value))
                && (r.Rejected? ==> (closing && r.refusal == Closed)
                                    || ClaimStatus(View(), SendKey(input.requestID), Binding(input)) == Turned(r.refusal))
      ensures r.Invalid? ==> !IsAcceptable(config, raw, env.requestID)
      ensures !IsAcceptable(config, raw, env.requestID) ==> r.Invalid? || r == Rejected(Closed) || r == Failed(OverBudget)
      ensures r.Failed? ==> Explains(env, logFailed, log, r.cause)
    {
      hide Reachable, Do, ClaimStatus, Binding, Plausible, SendTold, Normalize, ValidInput, IsAcceptable;
      var input := Normalize(raw, env.requestID);
      AcceptableIsValid(config, raw, env.requestID, input);
      r := SendInFull(input, env);
      if r.Answered? {
        AnswerIsTold(View(), SendAnswer(input, r.value));
      }
    }

    method SendInFull(input: SendInput, env: Environment) returns (r: Reply<SendOutput>)
      requires Valid() && Plausible(env)
      modifies this
      ensures Valid() && Grows()
      ensures && (r.Answered? ==> SendAnswer(input, r.value) in answers)
              && (r.Invalid? ==> !ValidInput(config, input))
              && (!ValidInput(config, input) ==> r.Invalid? || r == Rejected(Closed) || r == Failed(OverBudget))
              && (r.Rejected? ==> (closing && r.refusal == Closed)
                                  || ClaimStatus(View(), SendKey(input.requestID), Binding(input)) == Turned(r.refusal))
              && (r.Failed? ==> Explains(env, logFailed, log, r.cause))
    {
      hide Reachable, Do, ClaimStatus, ValidInput, Binding, Plausible;
      if closing { return Rejected(Closed); }
      if !env.withinBudget { return Failed(OverBudget); }
      Yield({}, multiset{});
      if !ValidInput(config, input) { return Invalid; }
      var k := SendKey(input.requestID);
      var claim := AdmitSend(input);
      match claim
      case Turned(refusal) => return Rejected(refusal);
      case Existing(output) => return Answered(output.value);
      case Granted =>
        Yield({k}, multiset{});
        var p := Transfer(k, input, env);
        ReleaseClaim(k);
        return if p.Goes? then Answered(p.value) else Failed(p.cause);
    }

    lemma AnswerIsTold(s: State, a: Answer)
      requires Reachable(s) && a in s.answers
      ensures AnswerTold(s.known, a)
    {
      hide Reachable, AnswerTold;
      ReachableTold(s);
    }

    method AdmitSend(input: SendInput) returns (r: ClaimResult)
      requires Valid() && ValidInput(config, input)
      modifies this
      ensures Valid() && Grows()
      ensures match r
              case Turned(_) => ClaimStatus(View(), SendKey(input.requestID), Binding(input)) == r
              case Existing(output) => output.Some? && SendAnswer(input, output.value) in answers
              case Granted => Lookup(ops, SendKey(input.requestID)) == Some(SendLookup(input))
    {
      hide Reachable, Do, ClaimStatus, ValidInput, Binding, Box;
      ghost var s, a := View(), DoClaimSend(input);
      r := Claim(SendKey(input.requestID), Binding(input), SendLookup(input));
      SendClaimed(s, input);
      if r.Existing? {
        answers := answers + {SendAnswer(input, r.output.value)};
      }
      if !r.Turned? {
        StepStaysReachable(s, View(), a);
      }
    }

    /** The body of a send, between its claim and its release. */
    method Transfer(k: ClaimKey, input: SendInput, env: Environment) returns (p: Progress<SendOutput>)
      requires Valid() && Lookup(ops, k) == Some(SendLookup(input)) && Plausible(env)
      modifies this
      ensures Valid() && Grows()
      ensures p.Goes? ==> Lookup(ops, k) == Some(Done(Some(SendAnswer(input, p.value))))
      ensures p.Stops? ==> Lookup(ops, k) == Some(Done(None)) && Explains(env, logFailed, log, p.cause)
    {
      hide Reachable, Do, Explains, Plausible;
      var proposed := Propose(k, input, env);
      if proposed.Stops? { return Stops(proposed.cause); }
      var evaluated := Evaluate(k, proposed.value, env);
      if evaluated.Stops? { return Stops(evaluated.cause); }
      p := Deliver(k, proposed.value, evaluated.value, env);
    }

    method Propose(k: ClaimKey, input: SendInput, env: Environment) returns (p: Progress<Job>)
      requires Valid() && Lookup(ops, k) == Some(SendLookup(input))
      modifies this
      ensures Valid() && Grows()
      ensures p.Goes? ==> p.value.SendJob? && p.value.input == input && Lookup(ops, k) == Some(Screen(p.value))
      ensures p.Stops? ==> Lookup(ops, k) == Some(Done(None)) && Explains(env, logFailed, log, p.cause)
    {
      hide Reachable, Do, Explains;
      var found := LookUpRequest(k, input);
      if found.Some? { return Goes(found.value); }
      p := Submit(k, input, env);
    }

    /** What a verdict leads to: a denial, a pending review, or a release. */
    method Deliver(k: ClaimKey, job: Job, e: Evaluation, env: Environment) returns (p: Progress<SendOutput>)
      requires Valid() && job.SendJob? && Lookup(ops, k) == Some(Decide(job, e.verdict, e.model, e.mark))
      modifies this
      ensures Valid() && Grows()
      ensures p.Goes? ==> Lookup(ops, k) == Some(Done(Some(SendAnswer(job.input, p.value))))
      ensures p.Stops? ==> Lookup(ops, k) == Some(Done(None)) && Explains(env, logFailed, log, p.cause)
    {
      hide Reachable, Do, Explains, BaseOutput;
      if e.verdict.decision == Deny {
        var blocked := Block(k, job, e, env);
        if blocked.Stops? { return Stops(blocked.cause); }
        var output := BaseOutput(job, Status.Denied, e.verdict, None, blocked.value);
        StoreFinal(k, job, output);
        p := Goes(output);
      } else if e.verdict.decision == Decision.Review {
        p := DeliverReviewed(k, job, e, env);
      } else {
        Pass(k, job, e);
        p := ReleaseEnvelope(k, job, e.verdict, e.model, e.mark, env);
      }
    }

    method DeliverReviewed(k: ClaimKey, job: Job, e: Evaluation, env: Environment) returns (p: Progress<SendOutput>)
      requires Valid() && job.SendJob? && Lookup(ops, k) == Some(Decide(job, e.verdict, e.model, e.mark))
      requires e.verdict.decision == Decision.Review
      modifies this
      ensures Valid() && Grows()
      ensures p.Goes? ==> Lookup(ops, k) == Some(Done(Some(SendAnswer(job.input, p.value))))
      ensures p.Stops? ==> Lookup(ops, k) == Some(Done(None)) && Explains(env, logFailed, log, p.cause)
    {
      hide Reachable, Do, Explains, BaseOutput;
      var review := SettleReview(k, job, e, env);
      if review.Stops? { return Stops(review.cause); }
      match review.value
      case Waits(mark) =>
        var output := BaseOutput(job, ReviewRequired, e.verdict, None, mark);
        StoreReview(k, job, output);
        p := Goes(output);
      case Passes(mark) =>
        p := ReleaseEnvelope(k, job, Verdict(ReviewApproved, e.verdict.reason), e.model, mark, env);
    }

    method LookUpRequest(k: ClaimKey, input: SendInput) returns (job: Option<Job>)
      requires Valid() && Lookup(ops, k) == Some(SendLookup(input))
      modifies this
      ensures Valid() && Grows()
      ensures job.Some? ==> job.value.SendJob? && job.value.input == input && Lookup(ops, k) == Some(Screen(job.value))
      ensures job.None? ==> Lookup(ops, k) == Some(SendSubmit(input))
    {
      hide Reachable, Do, EvaluationStep, FinalizeStep, ReceiveStep, ConfirmStep, Append, AppendThen;
      ghost var s := View();
      var record := if k in requests then requests[k] else NoRequest;
      job := if record.messageID == "" then None else Some(SendJob(input, record.messageID, record.createdAt));
      ops := ops[k := if job.Some? then Screen(job.value) else SendSubmit(input)];
      EndSection(s, k, Choice(Refused, "", Allow, "", "", true));
    }

    method Submit(k: ClaimKey, input: SendInput, env: Environment) returns (p: Progress<Job>)
      requires Valid() && Lookup(ops, k) == Some(SendSubmit(input))
      modifies this
      ensures Valid() && Grows()
      ensures p.Goes? ==> p.value.SendJob? && p.value.input == input && Lookup(ops, k) == Some(Screen(p.value))
      ensures p.Stops? ==> Lookup(ops, k) == Some(Done(None)) && Explains(env, logFailed, log, p.cause)
    {
      hide Reachable, Do, Advance, FreshID;
      var id := NewID(env.messageID);
      if id.Some? {
        p := SubmitAs(k, input, id.value, env);
      } else {
        ghost var s, c := View(), Choice(Refused, "", Allow, "", "", false);
        SubmitSteps(s, k, c, input);
        ops := ops[k := Done(None)];
        EndSection(s, k, c);
        if env.messageID.Some? {
          TakenStaysTaken(View(), s.known, env.messageID.value);
        }
        p := Stops(NoIdentifier);
      }
    }

    method SubmitAs(k: ClaimKey, input: SendInput, id: string, env: Environment) returns (p: Progress<Job>)
      requires Valid() && Lookup(ops, k) == Some(SendSubmit(input)) && FreshID(log, id)
      modifies this
      ensures Valid() && Grows()
      ensures p.Goes? ==> p.value.SendJob? && p.value.input == input && Lookup(ops, k) == Some(Screen(p.value))
      ensures p.Stops? ==> Lookup(ops, k) == Some(Done(None)) && Explains(env, logFailed, log, p.cause)
    {
      hide Valid;
      var entry := AppendSubmission(k, input, id, env);
      if entry.None? { return Stops(NotRecorded); }
      var job := SendJob(input, id, entry.value.at);
      RecordSubmission(k, job);
      return Goes(job);
    }

    method AppendSubmission(k: ClaimKey, input: SendInput, id: string, env: Environment) returns (entry: Option<Entry>)
      requires Valid() && Lookup(ops, k) == Some(SendSubmit(input)) && FreshID(log, id)
      modifies this
      ensures Valid() && Grows()
      ensures entry.Some? ==> Lookup(ops, k) == Some(SendRecord(input, id, entry.value.at))
      ensures entry.None? ==> Lookup(ops, k) == Some(Done(None)) && (logFailed || !env.logWorks)
    {
      hide Reachable, Do, Advance, Append, Written, FreshID, AppendThen;
      ghost var s := View();
      var outcome := Attempt(env);
      ghost var c := Choice(outcome, id, Allow, "", "", true);
      SubmitSteps(s, k, c, input);
      var event := MessageSubmitted(Meta(Outbound, config.name, input.destination, id), input.requestID, input.conversationID, input.text);
      entry := AppendEvent(k, event, outcome, SendRecord(input, id, Written(s, event, outcome).at));
      EndSection(s, k, c);
    }

    method RecordSubmission(k: ClaimKey, job: Job)
      requires Valid() && job.SendJob? && Lookup(ops, k) == Some(SendRecord(job.input, job.messageID, job.createdAt))
      modifies this
      ensures Valid() && Grows() && Lookup(ops, k) == Some(Screen(job))
    {
      hide Reachable, Do, Advance;
      ghost var s := View();
      OutboxSteps(s, k, Choice(Refused, "", Allow, "", "", true));
      requests := requests[k := RecordFor(job, None, false)];
      ops := ops[k := Screen(job)];
      EndSection(s, k, Choice(Refused, "", Allow, "", "", true));
    }

    method StoreReview(k: ClaimKey, job: Job, output: SendOutput)
      requires Valid() && job.SendJob? && Lookup(ops, k) == Some(SendStoreReview(job, output))
      modifies this
      ensures Valid() && Grows() && Lookup(ops, k) == Some(Done(Some(SendAnswer(job.input, output))))
    {
      hide Reachable, Do, Advance;
      ghost var s := View();
      OutboxSteps(s, k, Choice(Refused, "", Allow, "", "", true));
      requests := requests[k := RecordFor(job, Some(output), false)];
      ops := ops[k := Done(Some(SendAnswer(job.input, output)))];
      EndSection(s, k, Choice(Refused, "", Allow, "", "", true));
    }

    method StoreFinal(k: ClaimKey, job: Job, output: SendOutput)
      requires Valid() && job.SendJob? && Lookup(ops, k) == Some(SendStoreFinal(job, output))
      modifies this
      ensures Valid() && Grows() && Lookup(ops, k) == Some(Done(Some(SendAnswer(job.input, output))))
    {
      hide Reachable, Do, EvaluationStep, FinalizeStep, ReceiveStep, ConfirmStep, Append, AppendThen;
      ghost var s := View();
      if output.envelope.Some? {
        sent := sent[job.messageID := output.envelope.value];
      }
      requests := requests[k := RecordFor(job, Some(output), true)];
      ops := ops[k := Done(Some(SendAnswer(job.input, output)))];
      EndSection(s, k, Choice(Refused, "", Allow, "", "", true));
    }

    /** An allowed message needs no further event before it crosses. */
    method Pass(k: ClaimKey, job: Job, e: Evaluation)
      requires Valid() && Lookup(ops, k) == Some(Decide(job, e.verdict, e.model, e.mark))
      requires e.verdict.decision != Deny && e.verdict.decision != Decision.Review
      modifies this
      ensures Valid() && Grows() && Lookup(ops, k) == Some(Finalize(job, e.verdict, e.model, e.mark))
    {
      hide Reachable, Do, SendStep, FinalizeStep, ReceiveStep, ConfirmStep, Append, AppendThen;
      ghost var s := View();
      ops := ops[k := Finalize(job, e.verdict, e.model, e.mark)];
      EndSection(s, k, Choice(Refused, "", Allow, "", "", true));
    }

    method ReleaseEnvelope(k: ClaimKey, job: Job, verdict: Verdict, model: string, mark: Mark, env: Environment)
      returns (p: Progress<SendOutput>)
      requires Valid() && job.SendJob? && Lookup(ops, k) == Some(Finalize(job, verdict, model, mark))
      modifies this
      ensures Valid() && Grows()
      ensures p.Goes? ==> Lookup(ops, k) == Some(Done(Some(SendAnswer(job.input, p.value))))
      ensures p.Stops? ==> Lookup(ops, k) == Some(Done(None)) && Explains(env, logFailed, log, p.cause)
    {
      hide Reachable, Do, SendStep, EvaluationStep, ReceiveStep, ConfirmStep, Append, Written, AppendThen, MetaOf, BaseOutput;
      ghost var s := View();
      var content := UnsignedEnvelope(1, job.messageID, job.input.requestID, job.input.conversationID, config.name,
                                      job.input.destination, job.createdAt, job.input.text, TextDigest(job.input.text),
                                      config.policyVersion, model, verdict.decision, mark.sequence, mark.head);
      var envelope := SignEnvelope(key, content);
      var outcome := Attempt(env);
      var event := OutboundReleased(MetaOf(config.name, job), job.input.requestID, envelope, verdict.reason);
      ghost var released := MarkOf(Written(s, event, outcome));
      var entry := AppendEvent(k, event, outcome, SendStoreFinal(job, BaseOutput(job, Released, verdict, Some(envelope), released)));
      EndSection(s, k, Choice(outcome, "", Allow, "", "", true));
      if entry.None? { return Stops(NotRecorded); }
      var output := BaseOutput(job, Released, verdict, Some(envelope), MarkOf(entry.value));
      StoreFinal(k, job, output);
      return Goes(output);
    }

    // ----- Receive -----

    /** Every answer reports an entry of the log about the message of the envelope. */
    method Receive(envelope: Envelope, env: Environment) returns (r: Reply<ReceiveOutput>)
      requires Valid() && Plausible(env)
      modifies this
      ensures Valid() && Grows()
      ensures var k := ReceiveKey(envelope.content.messageID);
              && (r.Answered? ==> ReceiveAnswer(envelope, r.value) in answers && ReceiveTold(log, envelope, r.value))
              && (r.Invalid? ==> !ValidEnvelope(config, envelope, env.now))
              && (!ValidEnvelope(config, envelope, env.now) ==> r.Invalid? || r == Rejected(Closed) || r == Failed(OverBudget))
              && (r.Rejected? ==> (closing && r.refusal == Closed)
                                  || ClaimStatus(View(), k, EnvelopeDigest(envelope)) == Turned(r.refusal)
                                  || (r.refusal == Conflict && Clashes(Box().intake, envelope)))
              && (r.Failed? ==> Explains(env, logFailed, log, r.cause))
    {
      hide Reachable, Do, ClaimStatus, ValidEnvelope, Plausible, Clashes, Box, ReceiveTold;
      r := ReceiveInFull(envelope, env);
      if r.Answered? {
        AnswerIsTold(View(), ReceiveAnswer(envelope, r.value));
      }
    }

    method ReceiveInFull(envelope: Envelope, env: Environment) returns (r: Reply<ReceiveOutput>)
      requires Valid() && Plausible(env)
      modifies this
      ensures Valid() && Grows()
      ensures var k := ReceiveKey(envelope.content.messageID);
              && (r.Answered? ==> ReceiveAnswer(envelope, r.value) in answers)
              && (r.Invalid? ==> !ValidEnvelope(config, envelope, env.now))
              && (!ValidEnvelope(config, envelope, env.now) ==> r.Invalid? || r == Rejected(Closed) || r == Failed(OverBudget))
              && (r.Rejected? ==> (closing && r.refusal == Closed)
                                  || ClaimStatus(View(), k, EnvelopeDigest(envelope)) == Turned(r.refusal)
                                  || (r.refusal == Conflict && Clashes(Box().intake, envelope)))
              && (r.Failed? ==> Explains(env, logFailed, log, r.cause))
    {
      hide Reachable, Do, ClaimStatus, ValidEnvelope, Plausible, Clashes, Valid;
      if closing { return Rejected(Closed); }
      if !env.withinBudget { return Failed(OverBudget); }
      Yield({}, multiset{});
      if !ValidEnvelope(config, envelope, env.now) { return Invalid; }
      var k := ReceiveKey(envelope.content.messageID);
      var claim := AdmitReceive(envelope, env.now);
      if claim.Turned? { return Rejected(claim.refusal); }
      Yield({k}, multiset{});
      var found := LookUpInbound(k, envelope);
      var p: Progress<ReceiveOutput>;
      match found {
        case Clash =>
          ReleaseClaim(k);
          return Rejected(Conflict);
        case Acknowledged(output) =>
          p := Goes(output);
        case Unacknowledged(record) =>
          p := IssueAcknowledgement(k, envelope, record, env);
        case Unknown =>
          p := Admit(k, envelope, env);
      }
      ReleaseClaim(k);
      return if p.Goes? then Answered(p.value) else Failed(p.cause);
    }

    method AdmitReceive(envelope: Envelope, now: Time) returns (r: ClaimResult)
      requires Valid() && ValidEnvelope(config, envelope, now)
      modifies this
      ensures Valid() && Grows() && !r.Existing?
      ensures var k := ReceiveKey(envelope.content.messageID);
              if r.Turned? then ClaimStatus(View(), k, EnvelopeDigest(envelope)) == r
              else Lookup(ops, k) == Some(ReceiveLookup(envelope))
    {
      hide Reachable, Do, ClaimStatus, ValidEnvelope, Box;
      ghost var s, a := View(), DoClaimReceive(envelope, now);
      r := Claim(ReceiveKey(envelope.content.messageID), EnvelopeDigest(envelope), ReceiveLookup(envelope));
      ReceiveClaimed(s, envelope, now);
      if r.Granted? {
        StepStaysReachable(s, View(), a);
      }
    }

    method LookUpInbound(k: ClaimKey, envelope: Envelope) returns (found: Found)
      requires Valid() && Lookup(ops, k) == Some(ReceiveLookup(envelope))
      modifies this
      ensures Valid() && Grows() && (found.Clash? ==> Clashes(Box().intake, envelope))
      ensures Lookup(ops, k) == Some(match found
                                     case Clash => Done(None)
                                     case Acknowledged(output) => Done(Some(ReceiveAnswer(envelope, output)))
                                     case Unacknowledged(record) => IssueAck(envelope, record)
                                     case Unknown => ReceiveVerify(envelope))
    {
      hide Reachable, Do, SendStep, EvaluationStep, FinalizeStep, ConfirmStep, Append, AppendThen;
      ghost var s, c := View(), Choice(Refused, "", Allow, "", "", true);
      var m := envelope.content.messageID;
      if m in received {
        var record := received[m];
        if record.envelopeDigest != EnvelopeDigest(envelope) { found := Clash; }
        else if record.output.ack.Some? { found := Acknowledged(record.output); }
        else { found := Unacknowledged(record); }
      } else if m in seenInbound && seenInbound[m] != EnvelopeDigest(envelope) {
        found := Clash;
      } else {
        found := Unknown;
      }
      ops := ops[k := AfterLookup(Box().intake, envelope)];
      if found.Clash? {
        AdvanceIsDone(s, k, c);
        StepStaysReachable(s, View(), DoAdvance(k, c));
      } else {
        EndSection(s, k, c);
      }
    }

    /** The way of a message that is not accepted yet. */
    method Admit(k: ClaimKey, envelope: Envelope, env: Environment) returns (p: Progress<ReceiveOutput>)
      requires Valid() && Lookup(ops, k) == Some(ReceiveVerify(envelope)) && Plausible(env)
      modifies this
      ensures Valid() && Grows()
      ensures p.Goes? ==> Lookup(ops, k) == Some(Done(Some(ReceiveAnswer(envelope, p.value))))
      ensures p.Stops? ==> Lookup(ops, k) == Some(Done(None)) && Explains(env, logFailed, log, p.cause)
    {
      hide Reachable, Do, Explains, Plausible, BaseReceiveOutput;
      var verified := VerifyInbound(k, envelope, env);
      if verified.Stops? { return Stops(verified.cause); }
      var job := ReceiveJob(envelope);
      var evaluated := Evaluate(k, job, env);
      if evaluated.Stops? { return Stops(evaluated.cause); }
      var e := evaluated.value;
      if e.verdict.decision == Deny {
        var blocked := Block(k, job, e, env);
        if blocked.Stops? { return Stops(blocked.cause); }
        return Goes(BaseReceiveOutput(envelope, Status.Denied, e.verdict, blocked.value));
      }
      var verdict := e.verdict;
      if verdict.decision == Decision.Review {
        var review := SettleReview(k, job, e, env);
        if review.Stops? { return Stops(review.cause); }
        if review.value.Waits? { return Goes(BaseReceiveOutput(envelope, ReviewRequired, verdict, review.value.mark)); }
        verdict := Verdict(ReviewApproved, verdict.reason);
        p := Accept(k, envelope, verdict, e.model, review.value.mark, env);
      } else {
        Pass(k, job, e);
        p := Accept(k, envelope, verdict, e.model, e.mark, env);
      }
    }

    method VerifyInbound(k: ClaimKey, envelope: Envelope, env: Environment) returns (p: Progress<()>)
      requires Valid() && Lookup(ops, k) == Some(ReceiveVerify(envelope))
      modifies this
      ensures Valid() && Grows()
      ensures p.Goes? ==> Lookup(ops, k) == Some(Screen(ReceiveJob(envelope)))
      ensures p.Stops? ==> Lookup(ops, k) == Some(Done(None)) && Explains(env, logFailed, log, p.cause)
    {
      hide Reachable, Do, SendStep, EvaluationStep, FinalizeStep, ConfirmStep, Append, AppendThen, MetaOf;
      ghost var s := View();
      var n := envelope.content;
      var outcome := Attempt(env);
      var event := InboundVerified(MetaOf(config.name, ReceiveJob(envelope)), n.requestID, n.conversationID, n.body,
                                   EnvelopeDigest(envelope));
      var entry := AppendEvent(k, event, outcome, ReceiveSeen(envelope));
      EndSection(s, k, Choice(outcome, "", Allow, "", "", true));
      if entry.None? { return Stops(NotRecorded); }
      RememberInbound(k, envelope);
      return Goes(());
    }

    method RememberInbound(k: ClaimKey, envelope: Envelope)
      requires Valid() && Lookup(ops, k) == Some(ReceiveSeen(envelope))
      modifies this
      ensures Valid() && Grows() && Lookup(ops, k) == Some(Screen(ReceiveJob(envelope)))
    {
      hide Reachable, Do, Advance;
      ghost var s := View();
      IntakeSteps(s, k, Choice(Refused, "", Allow, "", "", true));
      seenInbound := seenInbound[envelope.content.messageID := EnvelopeDigest(envelope)];
      ops := ops[k := Screen(ReceiveJob(envelope))];
      EndSection(s, k, Choice(Refused, "", Allow, "", "", true));
    }

    /** Records the acceptance, puts the message into the inbox and acknowledges it. */
    method Accept(k: ClaimKey, envelope: Envelope, verdict: Verdict, model: string, mark: Mark, env: Environment)
      returns (p: Progress<ReceiveOutput>)
      requires Valid() && Lookup(ops, k) == Some(Finalize(ReceiveJob(envelope), verdict, model, mark))
      modifies this
      ensures Valid() && Grows()
      ensures p.Goes? ==> Lookup(ops, k) == Some(Done(Some(ReceiveAnswer(envelope, p.value))))
      ensures p.Stops? ==> Lookup(ops, k) == Some(Done(None)) && Explains(env, logFailed, log, p.cause)
    {
      hide Valid, Explains, AcceptanceRecord, AcceptanceMessage;
      var accepted := RecordAcceptance(k, envelope, verdict, model, mark, env);
      if accepted.Stops? { return Stops(accepted.cause); }
      var record := AcceptanceRecord(envelope, verdict, accepted.value);
      StoreAccepted(k, envelope, record, AcceptanceMessage(envelope, accepted.value));
      p := IssueAcknowledgement(k, envelope, record, env);
    }

    method RecordAcceptance(k: ClaimKey, envelope: Envelope, verdict: Verdict, model: string, mark: Mark, env: Environment)
      returns (p: Progress<Entry>)
      requires Valid() && Lookup(ops, k) == Some(Finalize(ReceiveJob(envelope), verdict, model, mark))
      modifies this
      ensures Valid() && Grows()
      ensures p.Goes? ==> Lookup(ops, k) == Some(ReceiveStore(envelope, AcceptanceRecord(envelope, verdict, p.value),
                                                              AcceptanceMessage(envelope, p.value)))
      ensures p.Stops? ==> Lookup(ops, k) == Some(Done(None)) && Explains(env, logFailed, log, p.cause)
    {
      hide Reachable, Do, Advance, Append, Written, AppendThen, MetaOf, AcceptanceRecord, AcceptanceMessage;
      ghost var s := View();
      var n := envelope.content;
      var outcome := Attempt(env);
      ghost var c := Choice(outcome, "", Allow, "", "", true);
      AcceptSteps(s, k, c, envelope, verdict, model, mark);
      var event := InboundAccepted(MetaOf(config.name, ReceiveJob(envelope)), n.requestID, n.conversationID, n.body,
                                   EnvelopeDigest(envelope), verdict.decision, verdict.reason);
      ghost var w := Written(s, event, outcome);
      var entry := AppendEvent(k, event, outcome,
                               ReceiveStore(envelope, AcceptanceRecord(envelope, verdict, w), AcceptanceMessage(envelope, w)));
      EndSection(s, k, c);
      return if entry.Some? then Goes(entry.value) else Stops(NotRecorded);
    }

    method StoreAccepted(k: ClaimKey, envelope: Envelope, record: ReceivedRecord, message: Message)
      requires Valid() && Lookup(ops, k) == Some(ReceiveStore(envelope, record, message))
      modifies this
      ensures Valid() && Grows() && Lookup(ops, k) == Some(IssueAck(envelope, record))
    {
      hide Reachable, Do, Advance;
      ghost var s := View();
      IntakeSteps(s, k, Choice(Refused, "", Allow, "", "", true));
      received := received[envelope.content.messageID := record];
      inbox := inbox + [message];
      ops := ops[k := IssueAck(envelope, record)];
      EndSection(s, k, Choice(Refused, "", Allow, "", "", true));
    }

    method IssueAcknowledgement(k: ClaimKey, envelope: Envelope, record: ReceivedRecord, env: Environment)
      returns (p: Progress<ReceiveOutput>)
      requires Valid() && Lookup(ops, k) == Some(IssueAck(envelope, record))
      modifies this
      ensures Valid() && Grows()
      ensures p.Goes? ==> Lookup(ops, k) == Some(Done(Some(ReceiveAnswer(envelope, p.value))))
      ensures p.Stops? ==> Lookup(ops, k) == Some(Done(None)) && Explains(env, logFailed, log, p.cause)
    {
      hide Reachable, Do, SendStep, EvaluationStep, FinalizeStep, ConfirmStep, Append, Written, AppendThen, MetaOf;
      ghost var s := View();
      var n := envelope.content;
      var ack := SignAck(key, UnsignedAck(1, n.messageID, config.name, n.source, record.envelopeDigest, record.receivedAt,
                                          record.sequence, record.head));
      var outcome := Attempt(env);
      var event := AcknowledgementIssued(MetaOf(config.name, ReceiveJob(envelope)), ack);
      ghost var w := Written(s, event, outcome);
      var entry := AppendEvent(k, event, outcome, StoreAck(envelope, WithAck(record, Some(ack), w.sequence, w.hash)));
      EndSection(s, k, Choice(outcome, "", Allow, "", "", true));
      if entry.None? { return Stops(NotRecorded); }
      var after := WithAck(record, Some(ack), entry.value.sequence, entry.value.hash);
      StoreAcknowledged(k, envelope, after);
      return Goes(after.output);
    }

    method StoreAcknowledged(k: ClaimKey, envelope: Envelope, record: ReceivedRecord)
      requires Valid() && Lookup(ops, k) == Some(StoreAck(envelope, record))
      modifies this
      ensures Valid() && Grows() && Lookup(ops, k) == Some(Done(Some(ReceiveAnswer(envelope, record.output))))
    {
      hide Reachable, Do, Advance;
      ghost var s := View();
      IntakeSteps(s, k, Choice(Refused, "", Allow, "", "", true));
      received := received[envelope.content.messageID := record];
      ops := ops[k := Done(Some(ReceiveAnswer(envelope, record.output)))];
      EndSection(s, k, Choice(Refused, "", Allow, "", "", true));
    }

    // ----- Confirm -----

    /** Every answer names a confirmation of the message in the log. */
    method Confirm(ack: Ack, env: Environment) returns (r: Reply<ConfirmOutput>)
      requires Valid()
      modifies this
      ensures Valid() && Grows()
      ensures && (r.Answered? ==> ConfirmAnswer(ack, r.value) in answers && ConfirmationLogged(log, ack.content.messageID, r.value))
              && (r.Invalid? ==> !ValidAck(config, ack, env.now))
              && (!ValidAck(config, ack, env.now) ==> r.Invalid? || r == Rejected(Closed) || r == Failed(OverBudget))
              && (r.Failed? ==> Explains(env, logFailed, log, r.cause))
      ensures r.Rejected? ==> (closing && r.refusal == Closed) || (r.refusal == Conflict && !ConfirmFits(sent, ack))
                              || ClaimStatus(View(), ConfirmKey(ack.content.messageID), ack.content.envelopeDigest) == Turned(r.refusal)
    {
      hide Reachable, Do, ClaimStatus, ValidAck, Box, ConfirmationLogged;
      r := ConfirmInFull(ack, env);
      if r.Answered? {
        ConfirmationIsLogged(View(), ack, r.value);
      }
    }

    lemma ConfirmationIsLogged(s: State, ack: Ack, output: ConfirmOutput)
      requires Reachable(s) && ConfirmAnswer(ack, output) in s.answers
      ensures ConfirmationLogged(s.known, ack.content.messageID, output)
    {
      hide Reachable, Durable, LiveOk, RotationOk, ConfirmationLogged;
      ReachableSafe(s);
      assert AnswerOk(s.known, ConfirmAnswer(ack, output));
    }

    method ConfirmInFull(ack: Ack, env: Environment) returns (r: Reply<ConfirmOutput>)
      requires Valid()
      modifies this
      ensures Valid() && Grows()
      ensures && (r.Answered? ==> ConfirmAnswer(ack, r.value) in answers)
              && (r.Invalid? ==> !ValidAck(config, ack, env.now))
              && (!ValidAck(config, ack, env.now) ==> r.Invalid? || r == Rejected(Closed) || r == Failed(OverBudget))
              && (r.Failed? ==> Explains(env, logFailed, log, r.cause))
      ensures r.Rejected? ==> (closing && r.refusal == Closed) || (r.refusal == Conflict && !ConfirmFits(sent, ack))
                              || ClaimStatus(View(), ConfirmKey(ack.content.messageID), ack.content.envelopeDigest) == Turned(r.refusal)
    {
      hide Reachable, Do, ClaimStatus, ValidAck, Valid;
      if closing { return Rejected(Closed); }
      if !env.withinBudget { return Failed(OverBudget); }
      Yield({}, multiset{});
      if !ValidAck(config, ack, env.now) { return Invalid; }
      var m := ack.content.messageID;
      if m !in sent || ack.content.source != sent[m].content.destination || ack.content.envelopeDigest != EnvelopeDigest(sent[m]) {
        assert !ConfirmFits(sent, ack);
        return Rejected(Conflict);
      }
      var envelope := sent[m];
      var existing := LookUpConfirmation(ack, env.now);
      if existing.Some? { return Answered(existing.value); }
      Yield({}, multiset{(ack, envelope)});
      var claim := AdmitConfirm(ack, envelope);
      if claim.Turned? { return Rejected(claim.refusal); }
      Yield({ConfirmKey(m)}, multiset{});
      var p := RecordConfirmation(ConfirmKey(m), ack, envelope, env);
      ReleaseClaim(ConfirmKey(m));
      return if p.Goes? then Answered(p.value) else Failed(p.cause);
    }

    method LookUpConfirmation(ack: Ack, now: Time) returns (existing: Option<ConfirmOutput>)
      requires Valid() && ValidAck(config, ack, now) && ack.content.messageID in sent
      requires var envelope := sent[ack.content.messageID];
               ack.content.source == envelope.content.destination && ack.content.envelopeDigest == EnvelopeDigest(envelope)
      modifies this
      ensures Valid() && Grows() && sent == old(sent)
      ensures existing.Some? ==> ConfirmAnswer(ack, existing.value) in answers
      ensures existing.None? ==> (ack, sent[ack.content.messageID]) in looked
    {
      hide Reachable, ValidAck;
      ghost var s := View();
      var m := ack.content.messageID;
      existing := if m in confirmed then Some(confirmed[m]) else None;
      if existing.Some? {
        answers := answers + {ConfirmAnswer(ack, existing.value)};
      } else {
        looked := looked + multiset{(ack, sent[m])};
      }
      StepStaysReachable(s, View(), DoLookupConfirm(ack, now));
    }

    method AdmitConfirm(ack: Ack, envelope: Envelope) returns (r: ClaimResult)
      requires Valid() && (ack, envelope) in looked
      modifies this
      ensures Valid() && Grows() && !r.Existing?
      ensures var k := ConfirmKey(ack.content.messageID);
              if r.Turned? then ClaimStatus(View(), k, ack.content.envelopeDigest) == r
              else Lookup(ops, k) == Some(ConfirmAppend(ack, envelope))
    {
      hide Reachable, Do, Box;
      ghost var s, a := View(), DoClaimConfirm(ack, envelope);
      looked := looked - multiset{(ack, envelope)};
      r := Claim(ConfirmKey(ack.content.messageID), ack.content.envelopeDigest, ConfirmAppend(ack, envelope));
      ConfirmClaimed(s, ack, envelope);
      StepStaysReachable(s, View(), a);
    }

    method RecordConfirmation(k: ClaimKey, ack: Ack, envelope: Envelope, env: Environment) returns (p: Progress<ConfirmOutput>)
      requires Valid() && Lookup(ops, k) == Some(ConfirmAppend(ack, envelope))
      modifies this
      ensures Valid() && Grows()
      ensures p.Goes? ==> Lookup(ops, k) == Some(Done(Some(ConfirmAnswer(ack, p.value))))
      ensures p.Stops? ==> Lookup(ops, k) == Some(Done(None)) && Explains(env, logFailed, log, p.cause)
    {
      hide Reachable, Do, SendStep, EvaluationStep, FinalizeStep, ReceiveStep, Append, Written, AppendThen;
      ghost var s := View();
      var m := ack.content.messageID;
      var outcome := Attempt(env);
      var event := DeliveryConfirmed(Meta(Outbound, envelope.content.source, envelope.content.destination, m), ack);
      ghost var w := Written(s, event, outcome);
      var entry := AppendEvent(k, event, outcome, ConfirmStore(ack, ConfirmOutput(m, w.sequence, w.hash)));
      EndSection(s, k, Choice(outcome, "", Allow, "", "", true));
      if entry.None? { return Stops(NotRecorded); }
      var output := ConfirmOutput(m, entry.value.sequence, entry.value.hash);
      StoreConfirmation(k, ack, output);
      return Goes(output);
    }

    method StoreConfirmation(k: ClaimKey, ack: Ack, output: ConfirmOutput)
      requires Valid() && Lookup(ops, k) == Some(ConfirmStore(ack, output))
      modifies this
      ensures Valid() && Grows() && Lookup(ops, k) == Some(Done(Some(ConfirmAnswer(ack, output))))
    {
      hide Reachable, Do, Advance;
      ghost var s := View();
      OutboxSteps(s, k, Choice(Refused, "", Allow, "", "", true));
      confirmed := confirmed[ack.content.messageID := output];
      ops := ops[k := Done(Some(ConfirmAnswer(ack, output)))];
      EndSection(s, k, Choice(Refused, "", Allow, "", "", true));
    }

    // ----- Shutdown -----

    method Shutdown()
      requires Valid()
      modifies this`closing
      ensures Valid() && closing && View() == old(View()).(closing := true)
    {
      hide Reachable;
      ghost var s := View();
      closing := true;
      StepStaysReachable(s, View(), DoClose);
    }

    // ----- Start -----

    /** Verifies a stored receipt under any key of the local history. */
    method VerifyHistorical(keys: seq<Key>, ack: Ack) returns (ok: bool)
      ensures ok <==> exists i :: 0 <= i < |keys| && AckVerifies(keys[i], ack)
    {
      for i := 0 to |keys|
        invariant forall j :: 0 <= j < i ==> !AckVerifies(keys[j], ack)
      {
        if AckVerifies(keys[i], ack) { return true; }
      }
      return false;
    }

    method Conclude(k: ClaimKey, output: SendOutput)
      modifies `requests
      ensures requests == old(requests)[k := (if k in old(requests) then old(requests[k]) else NoRequest)
                                             .(final := true, output := Some(output))]
    {
      var record := if k in requests then requests[k] else NoRequest;
      requests := requests[k := record.(final := true, output := Some(output))];
    }

    /** Takes one entry of the log into the maps, or refuses it. */
    method Visit(entry: Entry, decisions: map<Scope, Verdict>, keys: seq<Key>) returns (ok: bool, after: map<Scope, Verdict>)
      modifies `requests, `sent, `confirmed, `received, `seenInbound, `inbox
      ensures ok <==> entry.event.AcknowledgementIssued? ==> ReceiptFits(config.name, keys, old(Box()).intake, entry.event)
      ensures ok ==> Index(Box(), after) == Apply(key, Index(old(Box()), decisions), entry)
    {
      hide Reachable, AckVerifies, ReceiptFits, EffectiveVerdict, Binding, AcceptedRecord, AcceptedMessage, WithAck;
      ok, after := true, decisions;
      match entry.event
      case DeterministicGuard(meta, decision, reason) =>
        after := decisions[ScopeOf(meta) := Verdict(decision, reason)];
      case ModelGuard(meta, decision, reason, _, _) =>
        var prior := DecisionOf(decisions, ScopeOf(meta));
        after := decisions[ScopeOf(meta) := EffectiveVerdict(prior, Verdict(decision, reason))];
      case MessageSubmitted(meta, requestID, conversationID, text) =>
        var binding := Binding(SendInput(meta.destination, text, requestID, conversationID));
        requests := requests[SendKey(requestID) := RequestRecord(binding, meta.messageID, entry.at, TextDigest(text), None, false)];
      case MessageBlocked(meta, requestID, code) =>
        if meta.direction == Outbound {
          var k := SendKey(requestID);
          var record := if k in requests then requests[k] else NoRequest;
          Conclude(k, DeniedOutput(meta.messageID, requestID, record.bodyDigest, code, entry.sequence, entry.hash));
        }
      case OutboundReleased(meta, requestID, envelope, stated) =>
        var reason := if stated == "" then DecisionOf(decisions, ScopeOf(meta)).reason else stated;
        sent := sent[envelope.content.messageID := envelope];
        Conclude(SendKey(requestID), ReleasedOutput(envelope, reason, entry.sequence, entry.hash));
      case InboundAccepted(meta, _, conversationID, body, digest, decision, stated) =>
        var reason := if stated == "" then DecisionOf(decisions, ScopeOf(meta)).reason else stated;
        received := received[meta.messageID := AcceptedRecord(entry, reason)];
        inbox := inbox + [AcceptedMessage(entry)];
      case AcknowledgementIssued(meta, ack) =>
        ok := VisitReceipt(entry, keys);
      case InboundVerified(meta, _, _, _, digest) =>
        seenInbound := seenInbound[meta.messageID := digest];
      case DeliveryConfirmed(meta, _) =>
        confirmed := confirmed[meta.messageID := ConfirmOutput(meta.messageID, entry.sequence, entry.hash)];
      case _ =>
    }

    /** A stored receipt must match the acceptance it is about. Only the current key's is given out again. */
    method VisitReceipt(entry: Entry, keys: seq<Key>) returns (ok: bool)
      requires entry.event.AcknowledgementIssued?
      modifies `received
      ensures ok <==> ReceiptFits(config.name, keys, old(Box()).intake, entry.event)
      ensures ok ==> Box() == old(Box()).(intake := ApplyIntake(key, old(Box()).intake, map[], entry))
      ensures !ok ==> received == old(received)
    {
      hide Reachable, AckVerifies;
      var m, ack := entry.event.meta.messageID, entry.event.ack;
      if m !in received { return false; }
      var record, c := received[m], ack.content;
      var valid := VerifyHistorical(keys, ack);
      if c.version != 1 || c.messageID != m || c.source != config.name || c.destination != entry.event.meta.source
         || c.envelopeDigest != record.envelopeDigest || c.receivedAt != record.receivedAt || c.sequence != record.sequence
         || c.head != record.head || !valid {
        return false;
      }
      var kept := if AckVerifies(key, ack) then Some(ack) else None;
      received := received[m := WithAck(record, kept, entry.sequence, entry.hash)];
      return true;
    }

    /** Reconstructs the maps from the log alone; it fails exactly when no signing
        history leads to the current key or a stored receipt does not fit. */
    method RebuildIndex() returns (ok: bool)
      requires Box() == EmptyMailbox
      modifies `requests, `sent, `confirmed, `received, `seenInbound, `inbox
      ensures ok <==> exists keys :: IsHistory(config.name, TransitionsOf(log), keys) && keys[0] == key
                                     && Replays(config.name, key, keys, log)
      ensures ok ==> Box() == IndexOf(key, log).box
    {
      hide Reachable, IsPath, ReceiptFits, Apply;
      var local := LocalSigningKeys(config.name, key, log);
      if local.None? { return false; }
      var keys := local.value;
      var decisions: map<Scope, Verdict> := map[];
      for i := 0 to |log|
        invariant Index(Box(), decisions) == IndexOf(key, log[..i])
        invariant Replays(config.name, key, keys, log[..i])
      {
        assert log[..i + 1] == log[..i] + [log[i]];
        IndexOfSnoc(key, log[..i], log[i]);
        ReplaysSnoc(config.name, key, keys, log, i);
        var fits;
        fits, decisions := Visit(log[i], decisions, keys);
        if !fits {
          RefusedReceipt(config.name, key, keys, log, i);
          return false;
        }
      }
      assert log[..|log|] == log;
      return true;
    }

    /** A service in an endpoint that no process serves: its log, key and approvals are
        what the state directory holds, everything else is empty. `s` is the endpoint. */
    constructor (config: Config, key: Key, log: seq<Entry>, approved: map<string, Approval>, ghost s: State)
      requires Reachable(s) && s.mode.Down? && s.config == config && s.key == key && s.known == log && s.approved == approved
      ensures View() == s
    {
      this.config, this.key, this.log, this.approved := config, key, log, approved;
      logFailed, closing, active, semaphore := false, false, map[], 0;
      requests, sent, received, seenInbound, confirmed, inbox := map[], map[], map[], map[], map[], [];
      tail, mode, keys, owned, ops, looked, answers := [], Down, s.keys, s.owned, map[], multiset{}, s.answers;
      new;
      DownState(s);
    }

    /** Validates the limits and rebuilds the state. Limits that are not positive, or a
        message size above the protocol's, are refused; nothing else keeps an endpoint
        from starting, whatever happened to it before. */
    static method New(config: Config, options: Options, budgetsOpen: bool, key: Key, log: seq<Entry>,
                      approved: map<string, Approval>, ghost s: State)
      returns (r: Option<Service>)
      requires Reachable(s) && s.mode.Down? && s.config == config && s.key == key && s.known == log && s.approved == approved
      ensures r.Some? <==> && 0 < config.maxMessageBytes <= 1_048_576 && 0 < options.timeout && 0 < config.maxMessageAge
                           && 0 < config.maxConcurrent && 0 < options.requestsPerMinute <= 600 && 0 < options.guardCallsPerHour <= 1000
                           && !Blank(options.policy) && !Blank(config.policyVersion) && ByteLength(options.deployment) == 64
                           && budgetsOpen
      ensures r.Some? ==> fresh(r.value) && r.value.Valid() && r.value.config == config && r.value.key == key
      ensures r.Some? ==> r.value.log == log && r.value.answers == s.answers && r.value.Box() == IndexOf(key, log).box
    {
      hide Reachable, IndexOf, Blank, ByteLength;
      if !Startable(config) || !Acceptable(options) || !budgetsOpen { return None; }
      var service := new Service(config, key, log, approved, s);
      var ok := service.Start();
      return Some(service);
    }

    method Start() returns (ok: bool)
      requires mode.Down? && Reachable(View()) && Startable(config)
      modifies this
      ensures ok && Valid() && log == old(log) && answers == old(answers) && Box() == IndexOf(key, log).box
    {
      hide Reachable, Inv, IsHistory, Replays, Do, IndexOf;
      ghost var s := View();
      DownState(s);
      ok := RebuildIndex();
      closing := false;
      mode := Serving;
      StepStaysReachable(s, View(), DoStart);
    }
  }
}
