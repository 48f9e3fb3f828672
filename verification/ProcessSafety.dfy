/** Confirmations, claims, releases, crashes, restarts, approvals and key
    rotations keep the invariant; with the other steps, every run does. */
module ProcessSafety {
  import opened Wrappers
  import opened Records
  import opened Replay
  import opened Ledger
  import opened LogTheorems
  import opened SigningHistory
  import opened Endpoint
  import opened Invariant
  import opened Frames
  import opened Steps
  import opened EvaluationSafety
  import opened SendSafety
  import opened ReceiveSafety

  // ----- Confirm -----

  predicate ConfirmationsLogged(log: seq<Entry>, confirmed: map<string, ConfirmOutput>) {
    forall m :: m in confirmed ==> ConfirmationLogged(log, m, confirmed[m])
  }

  lemma {:induction false} ConfirmationsAreLogged(log: seq<Entry>)
    ensures ConfirmationsLogged(log, IndexOf(0, log).box.outbox.confirmed)
  {
    if log != [] {
      var n := |log| - 1;
      ConfirmationsAreLogged(log[..n]);
      var before, after := IndexOf(0, log[..n]).box.outbox.confirmed, IndexOf(0, log).box.outbox.confirmed;
      forall m | m in after ensures ConfirmationLogged(log, m, after[m]) {
        if log[n].event.DeliveryConfirmed? && log[n].event.meta.messageID == m {
          assert after[m] == ConfirmOutput(m, log[n].sequence, log[n].hash);
        } else {
          ConfirmationStays(log[..n], log[n], m, before[m]);
          assert log == log[..n] + [log[n]];
        }
      }
    }
  }

  function ConfirmedEvent(ack: Ack, sent: Envelope): Event {
    DeliveryConfirmed(Meta(Outbound, sent.content.source, sent.content.destination, ack.content.messageID), ack)
  }

  lemma ConfirmMayBeAppended(s: State, key: ClaimKey)
    requires KeyOk(s, key) && ConfirmsOk(s) && key in s.ops && s.ops[key].ConfirmAppend?
    ensures var event := ConfirmedEvent(s.ops[key].ack, s.ops[key].sent);
            MayAppend(s, event) && Settled(s, key) && Footprint(LoggedOutbox(s), key, event)
  {
    hide GateOf, IndexOf, ConfirmationLogged;
  }

  lemma ConfirmedKeyOk(s: State, s': State, key: ClaimKey, at: Time)
    requires KeyOk(s, key) && key in s.ops && s.ops[key].ConfirmAppend?
    requires var entry := NextEntry(s.known, ConfirmedEvent(s.ops[key].ack, s.ops[key].sent), at);
             s' == At(s.(known := s.known + [entry]), key,
                      ConfirmStore(s.ops[key].ack, ConfirmOutput(s.ops[key].ack.content.messageID, entry.sequence, entry.hash)))
    ensures KeyOk(s', key)
  {
    hide GateOf, IndexOf;
    ConfirmedIndex(s, s.ops[key].ack, s.ops[key].sent, at);
  }

  lemma ConfirmedIndex(s: State, ack: Ack, sent: Envelope, at: Time)
    ensures var entry := NextEntry(s.known, ConfirmedEvent(ack, sent), at);
            var m := ack.content.messageID;
            IndexOf(0, s.known + [entry]).box.outbox
            == LoggedOutbox(s).(confirmed := LoggedOutbox(s).confirmed[m := ConfirmOutput(m, entry.sequence, entry.hash)])
  {
    IndexOfSnoc(0, s.known, NextEntry(s.known, ConfirmedEvent(ack, sent), at));
  }

  lemma ConfirmAppendSafe(s: State, key: ClaimKey, c: Choice)
    requires Inv(s) && s.mode.Serving? && key in s.ops && s.ops[key].ConfirmAppend?
    ensures Inv(ConfirmStep(s, key, s.ops[key], c))
  {
    hide AnswersOk, AnswerOk, IndexOf, GateOf, KeyOk, Durable, Settled, MayAppend, Footprint, InboxAgrees, OrderAgrees,
         ClaimsOk, ConfirmsOk;
    InvKey(s, key);
    var ack := s.ops[key].ack;
    var event := ConfirmedEvent(ack, s.ops[key].sent);
    ConfirmMayBeAppended(s, key);
    if s.poisoned || !c.outcome.Stored? {
      FailedStep(s, key, event, c.outcome);
    } else {
      var at := c.outcome.at;
      var entry := NextEntry(s.known, event, at);
      var op := ConfirmStore(ack, ConfirmOutput(ack.content.messageID, entry.sequence, entry.hash));
      var s' := At(s.(known := s.known + [entry]), key, op);
      ConfirmedKeyOk(s, s', key, at);
      assert Appended(s, s', key, event, at);
      InboxStays(s, s', key, event, at);
      StoredStep(s, s', key, event, at, op);
    }
  }

  lemma OtherConfirmationsStay(s: State, s': State, key: ClaimKey, k: ClaimKey, output: ConfirmOutput)
    requires key.ConfirmKey? && KeyOk(s, k) && k != key
    requires s' == s.(box := s'.box, ops := s'.ops) && Lookup(s'.ops, k) == Lookup(s.ops, k)
    requires s'.box == s.box.(outbox := s.box.outbox.(confirmed := s.box.outbox.confirmed[key.messageID := output]))
    ensures KeyOk(s', k)
  {
    hide IndexOf, GateOf, SendOk, ReceiveOk, ConfirmOk;
    match k {
      case SendKey(_) => assert SendViewOf(s', k) == SendViewOf(s, k);
      case ReceiveKey(_) => assert ReceiveViewOf(s', k) == ReceiveViewOf(s, k);
      case ConfirmKey(_) => assert ConfirmViewOf(s', k) == ConfirmViewOf(s, k);
    }
  }

  lemma StoredConfirmationOk(s: State, key: ClaimKey, c: Choice)
    requires KeyOk(s, key) && key in s.ops && s.ops[key].ConfirmStore?
    ensures KeyOk(ConfirmStep(s, key, s.ops[key], c), key)
    ensures key == ConfirmKey(s.ops[key].ack.content.messageID)
    ensures Lookup(LoggedOutbox(s).confirmed, key.messageID) == Some(s.ops[key].confirmation)
  {
    hide IndexOf, GateOf;
  }

  lemma ConfirmStoreSafe(s: State, key: ClaimKey, c: Choice)
    requires Inv(s) && s.mode.Serving? && key in s.ops && s.ops[key].ConfirmStore?
    ensures Inv(ConfirmStep(s, key, s.ops[key], c))
  {
    hide KeyOk, LogOk, SignedLocally, Authorized, AnswersOk, ClaimsOk, InboxAgrees, OrderAgrees, IndexOf, ConfirmsOk, Inv, Durable,
         ConfirmationLogged;
    InvKey(s, key);
    StoredConfirmationOk(s, key, c);
    var s' := ConfirmStep(s, key, s.ops[key], c);
    forall k ensures KeyOk(s', k) {
      if k != key {
        InvKey(s, k);
        OtherConfirmationsStay(s, s', key, k, s.ops[key].confirmation);
      }
    }
    SentIsLogged(s);
    ConfirmationsAreLogged(s.known);
    OutboxOnly(s, s', key, s'.ops[key]);
    MapStep(s, s', key, s'.ops[key]);
  }

  // ----- Claims and releases -----

  /** `s'` differs from `s` in the claim of `key` and in the answers. */
  predicate Reclaimed(s: State, s': State, key: ClaimKey) {
    s' == s.(active := s'.active, semaphore := s'.semaphore, ops := s'.ops, answers := s'.answers)
    && (s'.ops == s.ops - {key} || (key in s'.ops && s'.ops == s.ops[key := s'.ops[key]]))
  }

  lemma ReclaimedViews(s: State, s': State, key: ClaimKey)
    requires Inv(s) && s.mode.Serving? && Reclaimed(s, s', key) && KeyOk(s', key)
    ensures forall k :: KeyOk(s', k)
  {
    hide KeyOk, LiveOk, Durable, AnswersOk;
    forall k ensures KeyOk(s', k) {
      if k != key {
        InvKey(s, k);
        SameViews(s, s', key, k);
      }
    }
  }

  lemma ReclaimedInbox(s: State, s': State, key: ClaimKey)
    requires InboxAgrees(s.ops, s.box.intake.inbox, LoggedIntake(s).inbox) && OrderAgrees(s) && Reclaimed(s, s', key)
    requires key in s.ops ==> !s.ops[key].ReceiveStore?
    requires key in s'.ops ==> !s'.ops[key].ReceiveStore?
    ensures InboxAgrees(s'.ops, s'.box.intake.inbox, LoggedIntake(s').inbox) && OrderAgrees(s')
  {
    hide IndexOf;
    SameLagging(s.ops, s'.ops, key);
  }

  lemma ReclaimedConfirms(s: State, s': State, key: ClaimKey)
    requires ConfirmsOk(s) && Reclaimed(s, s', key)
    requires key in s'.ops && s'.ops[key].ConfirmAppend? ==> ConfirmsSent(LoggedOutbox(s).sent, s'.ops[key].ack, s'.ops[key].sent)
    ensures ConfirmsOk(s')
  {
    hide ConfirmsSent, ConfirmationLogged, IndexOf;
  }

  lemma GrantClaims(s: State, key: ClaimKey, binding: Digest, op: Op)
    requires ClaimsOk(s) && ClaimStatus(s, key, binding).Granted?
    ensures ClaimsOk(Grant(s, key, binding, op)) && key !in s.ops
  {
    var s' := Grant(s, key, binding, op);
    assert s'.ops.Keys == s.ops.Keys + {key} && |s'.ops| == |s'.ops.Keys| && |s.ops| == |s.ops.Keys|;
  }

  lemma GrantSafe(s: State, key: ClaimKey, binding: Digest, op: Op)
    requires Inv(s) && s.mode.Serving? && ClaimStatus(s, key, binding).Granted?
    requires KeyOk(Grant(s, key, binding, op), key) && !op.ReceiveStore? && !op.Done?
    requires op.ConfirmAppend? ==> ConfirmsSent(LoggedOutbox(s).sent, op.ack, op.sent)
    ensures Inv(Grant(s, key, binding, op))
  {
    hide KeyOk, LogOk, SignedLocally, Authorized, AnswerOk, IndexOf, ConfirmsSent, ConfirmsOk, ClaimsOk, ClaimStatus,
         InboxAgrees, OrderAgrees;
    var s' := Grant(s, key, binding, op);
    GrantClaims(s, key, binding, op);
    ReclaimedViews(s, s', key);
    ReclaimedInbox(s, s', key);
    ReclaimedConfirms(s, s', key);
  }

  /** A claim is granted only where nothing is under way. */
  lemma GrantedKeyOk(s: State, key: ClaimKey, binding: Digest, op: Op)
    requires KeyOk(s, key) && ClaimsOk(s) && ClaimStatus(s, key, binding).Granted?
    requires match op
             case SendLookup(input) => binding == Binding(input) && InputOk(key, input)
             case ReceiveLookup(envelope) => EnvelopeOk(s.config.name, key, envelope)
             case ConfirmAppend(ack, _) => key == ConfirmKey(ack.content.messageID)
             case _ => false
    ensures KeyOk(Grant(s, key, binding, op), key)
  {
    hide IndexOf, GateOf;
    assert key !in s.ops;
    if key.SendKey? {
      assert Observable(SendViewOf(s, key).live) == SendViewOf(s, key).logged;
    }
  }

  /** A final request in memory is the one in the log. */
  lemma FinalIsLogged(s: State, key: ClaimKey)
    requires KeyOk(s, key) && key.SendKey? && key in s.box.outbox.requests && s.box.outbox.requests[key].final
    ensures Lookup(LoggedOutbox(s).requests, key) == Some(s.box.outbox.requests[key])
  {
    hide IndexOf, GateOf, EvaluationOk;
  }

  lemma ClaimSendSafe(s: State, input: SendInput)
    requires Inv(s) && s.mode.Serving?
    ensures Inv(ClaimSend(s, input))
  {
    hide KeyOk, Inv, Durable, LogOk, SignedLocally, Authorized, IndexOf, ConfirmsOk, ClaimStatus, InboxAgrees, OrderAgrees, ClaimsOk,
         Grant;
    var key, binding := SendKey(input.requestID), Binding(input);
    InvKey(s, key);
    InvDurable(s);
    if ValidInput(s.config, input) {
      match ClaimStatus(s, key, binding)
      case Turned(_) =>
      case Existing(output) =>
        ExistingIsFinal(s, key, binding);
        FinalIsLogged(s, key);
        AnswerAdded(s, ClaimSend(s, input));
      case Granted =>
        GrantedKeyOk(s, key, binding, SendLookup(input));
        GrantSafe(s, key, binding, SendLookup(input));
    }
  }

  lemma ExistingIsFinal(s: State, key: ClaimKey, binding: Digest)
    requires ClaimStatus(s, key, binding).Existing?
    ensures key in s.box.outbox.requests && s.box.outbox.requests[key].final && s.box.outbox.requests[key].hash == binding
    ensures ClaimStatus(s, key, binding).output == s.box.outbox.requests[key].output
  {
  }

  /** Nothing but the set of answers and of looked-up confirmations has changed. */
  lemma AnswerAdded(s: State, s': State)
    requires Inv(s) && s' == s.(answers := s'.answers, looked := s'.looked)
    requires forall a :: a in s'.answers && a !in s.answers ==> AnswerOk(s.known, a)
    requires s'.looked == s.looked
             || (s.mode.Serving? && LookupsOk(LoggedOutbox(s).sent, s'.looked))
    ensures Inv(s')
  {
    hide LogOk, SignedLocally, Authorized, IndexOf, AnswerOk, ConfirmsSent, ConfirmationLogged, LookupsOk;
    if s.mode.Serving? {
      forall k ensures KeyOk(s', k) {
        InvKey(s, k);
        SameViews(s, s', k, k);
      }
    }
  }

  lemma ClaimReceiveSafe(s: State, envelope: Envelope, now: Time)
    requires Inv(s) && s.mode.Serving?
    ensures Inv(ClaimReceive(s, envelope, now))
  {
    hide KeyOk, Inv, ClaimStatus, ClaimsOk, Durable, AnswersOk, ConfirmsOk, InboxAgrees, OrderAgrees;
    var key, binding := ReceiveKey(envelope.content.messageID), EnvelopeDigest(envelope);
    InvKey(s, key);
    if ValidEnvelope(s.config, envelope, now) && ClaimStatus(s, key, binding).Granted? {
      GrantedKeyOk(s, key, binding, ReceiveLookup(envelope));
      GrantSafe(s, key, binding, ReceiveLookup(envelope));
    }
  }

  lemma ConfirmsOfLive(s: State)
    requires LiveOk(s)
    ensures ConfirmsOk(s)
  {
    hide KeyOk, ConfirmsOk, ClaimsOk, InboxAgrees, OrderAgrees;
  }

  /** What a lookup before a confirmation finds is what the log says. */
  lemma LookedUp(s: State, ack: Ack, now: Time)
    requires ConfirmsOk(s)
    ensures var s' := LookupConfirm(s, ack, now);
            s' == s.(answers := s'.answers, looked := s'.looked)
            && (forall a :: a in s'.answers && a !in s.answers ==> AnswerOk(s.known, a))
            && (s'.looked == s.looked || LookupsOk(LoggedOutbox(s).sent, s'.looked))
  {
    hide ValidAck, ConfirmationLogged, IndexOf, LookupsOk, ConfirmsSent;
    var m := ack.content.messageID;
    if m in s.box.outbox.sent {
      OneMoreLookup(LoggedOutbox(s).sent, s.looked, ack, s.box.outbox.sent[m]);
    }
  }

  lemma OneMoreLookup(sent: map<string, Envelope>, looked: multiset<(Ack, Envelope)>, ack: Ack, envelope: Envelope)
    requires LookupsOk(sent, looked) && Lookup(sent, ack.content.messageID) == Some(envelope)
    ensures ack.content.source == envelope.content.destination && ack.content.envelopeDigest == EnvelopeDigest(envelope) ==>
              LookupsOk(sent, looked + multiset{(ack, envelope)})
    ensures LookupsOk(sent, looked - multiset{(ack, envelope)})
  {
  }

  lemma LookupConfirmSafe(s: State, ack: Ack, now: Time)
    requires Inv(s) && s.mode.Serving?
    ensures Inv(LookupConfirm(s, ack, now))
  {
    hide Inv, LiveOk, KeyOk, ConfirmsOk, ConfirmationLogged, ConfirmsSent;
    InvKey(s, ConfirmKey(""));
    assert ConfirmsOk(s) by { ConfirmsOfLive(s); }
    LookedUp(s, ack, now);
    AnswerAdded(s, LookupConfirm(s, ack, now));
  }

  lemma LookupUsed(s: State, ack: Ack, envelope: Envelope)
    requires Inv(s) && s.mode.Serving? && (ack, envelope) in s.looked
    ensures Inv(s.(looked := s.looked - multiset{(ack, envelope)}))
    ensures ConfirmsSent(LoggedOutbox(s).sent, ack, envelope)
  {
    hide Inv, LiveOk, KeyOk, ConfirmationLogged;
    InvKey(s, ConfirmKey(""));
    ConfirmsOfLive(s);
    LookupsSent(s, (ack, envelope));
    OneMoreLookup(LoggedOutbox(s).sent, s.looked, ack, envelope);
    AnswerAdded(s, s.(looked := s.looked - multiset{(ack, envelope)}));
  }

  lemma LookupsSent(s: State, p: (Ack, Envelope))
    requires ConfirmsOk(s) && p in s.looked
    ensures ConfirmsSent(LoggedOutbox(s).sent, p.0, p.1) && LookupsOk(LoggedOutbox(s).sent, s.looked)
  {
    hide IndexOf, ConfirmationLogged;
  }

  lemma ClaimConfirmSafe(s: State, ack: Ack, envelope: Envelope)
    requires Inv(s) && s.mode.Serving?
    ensures Inv(ClaimConfirm(s, ack, envelope))
  {
    hide KeyOk, Inv, ClaimStatus, ClaimsOk, Durable, AnswersOk, InboxAgrees, OrderAgrees, ConfirmationLogged;
    var key, binding := ConfirmKey(ack.content.messageID), ack.content.envelopeDigest;
    InvKey(s, key);
    if (ack, envelope) in s.looked {
      var after := s.(looked := s.looked - multiset{(ack, envelope)});
      LookupUsed(s, ack, envelope);
      InvKey(after, key);
      if ClaimStatus(after, key, binding).Granted? {
        GrantedKeyOk(after, key, binding, ConfirmAppend(ack, envelope));
        GrantSafe(after, key, binding, ConfirmAppend(ack, envelope));
      }
    }
  }

  lemma ReleasedKeyOk(s: State, key: ClaimKey)
    requires KeyOk(s, key) && key in s.ops && s.ops[key].Done?
    ensures KeyOk(Release(s, key), key)
  {
    hide IndexOf, GateOf;
  }

  lemma ReleaseClaims(s: State, key: ClaimKey)
    requires ClaimsOk(s) && key in s.ops && s.ops[key].Done?
    ensures ClaimsOk(Release(s, key))
  {
    var s' := Release(s, key);
    assert s'.ops.Keys == s.ops.Keys - {key} && |s'.ops| == |s'.ops.Keys| && |s.ops| == |s.ops.Keys|;
  }

  lemma ReleaseAnswers(s: State, key: ClaimKey)
    requires AnswersOk(s) && key in s.ops && s.ops[key].Done?
    ensures AnswersOk(Release(s, key))
  {
    hide AnswerOk;
  }

  lemma ReleaseSafe(s: State, key: ClaimKey)
    requires Inv(s) && s.mode.Serving? && key in s.ops && s.ops[key].Done?
    ensures Inv(Release(s, key))
  {
    hide KeyOk, LogOk, SignedLocally, Authorized, AnswersOk, IndexOf, ConfirmsOk, ClaimsOk, InboxAgrees, OrderAgrees;
    InvKey(s, key);
    ReleasedKeyOk(s, key);
    var s' := Release(s, key);
    ReleaseClaims(s, key);
    ReleaseAnswers(s, key);
    ReclaimedViews(s, s', key);
    ReclaimedInbox(s, s', key);
    ReclaimedConfirms(s, s', key);
  }

  // ----- All steps of a claimed operation -----

  lemma AdvanceSafe(s: State, key: ClaimKey, c: Choice)
    requires Inv(s) && s.mode.Serving? && key in s.ops
    ensures Inv(Advance(s, key, c))
  {
    hide Inv, SendStep, EvaluationStep, FinalizeStep, ReceiveStep, ConfirmStep, Release;
    match s.ops[key]
    case SendLookup(_) => SendLookupSafe(s, key, c);
    case SendSubmit(_) => SubmitSafe(s, key, c);
    case SendRecord(_, _, _) => SendRecordSafe(s, key, c);
    case SendStoreReview(_, _) => StoreReviewSafe(s, key, c);
    case SendStoreFinal(_, _) => StoreFinalSafe(s, key, c);
    case Screen(_) => ScreenSafe(s, key, c);
    case CallModel(_, _) => CallModelSafe(s, key, c);
    case Decide(_, _, _, _) => DecideSafe(s, key, c);
    case SavePending(_, _) => SavePendingSafe(s, key, c);
    case RequireApproval(_, _) => RequireApprovalSafe(s, key, c);
    case ConsumeApproval(_, _, _) => ConsumeApprovalSafe(s, key, c);
    case Finalize(job, _, _, _) =>
      if job.SendJob? { FinalizeSendSafe(s, key, c); } else { FinalizeReceiveSafe(s, key, c); }
    case ReceiveLookup(_) => ReceiveLookupSafe(s, key, c);
    case ReceiveVerify(_) => VerifySafe(s, key, c);
    case ReceiveSeen(_) => SeenSafe(s, key, c);
    case ReceiveStore(_, _, _) => StoreMessageSafe(s, key, c);
    case IssueAck(_, _) => IssueSafe(s, key, c);
    case StoreAck(_, _) => StoreAckSafe(s, key, c);
    case ConfirmAppend(_, _) => ConfirmAppendSafe(s, key, c);
    case ConfirmStore(_, _) => ConfirmStoreSafe(s, key, c);
    case Done(_) => ReleaseSafe(s, key);
  }
}
