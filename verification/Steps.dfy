/** How the invariant survives one append and one update of the maps. */
module Steps {
  import opened Wrappers
  import opened Records
  import opened Replay
  import opened Ledger
  import opened LogTheorems
  import opened SigningHistory
  import opened Endpoint
  import opened Invariant
  import opened Frames

  /** What an endpoint must know before it appends `event`. */
  predicate MayAppend(s: State, event: Event) {
    && Admissible(s.config.name, s.known, event)
    && EventAuthorized(s.approved, event)
    && (event.AcknowledgementIssued? ==> AckVerifies(s.key, event.ack))
    && !event.RotationPrepared?
  }

  lemma LogExtends(s: State, event: Event, at: Time)
    requires Durable(s) && !s.poisoned && MayAppend(s, event)
    ensures var log := s.known + [NextEntry(s.known, event, at)];
            LogOk(s.config.name, log) && SignedLocally(s.keys, log) && Authorized(s.approved, log)
            && TransitionsOf(log) == TransitionsOf(Disk(s))
  {
    assert Disk(s) == s.known;
    LogOkSnoc(s.config.name, s.known, event, at);
    TransitionsOfSnoc(s.known, NextEntry(s.known, event, at));
  }

  lemma LoggedIsOk(s: State)
    requires Durable(s)
    ensures LogOk(s.config.name, s.known)
    ensures OutboxOk(LoggedOutbox(s)) && IntakeOk(LoggedIntake(s), |s.known|)
    ensures LoggedOutbox(s) == IndexOf(s.key, s.known).box.outbox
    ensures SameButReceipts(LoggedIntake(s), IndexOf(0, s.known).box.intake)
  {
    assert Disk(s)[..|s.known|] == s.known;
    LogOkPrefix(s.config.name, Disk(s), |s.known|);
    IndexStaysOk(s.config.name, s.known);
    KeyIsIrrelevant(s.key, 0, s.known);
  }

  lemma ConfirmationStays(log: seq<Entry>, entry: Entry, m: string, output: ConfirmOutput)
    requires ConfirmationLogged(log, m, output)
    ensures ConfirmationLogged(log + [entry], m, output)
  {
    var i :| 0 <= i < |log| && log[i].event.DeliveryConfirmed? && log[i].event.meta.messageID == m == output.messageID
             && output.sequence == log[i].sequence && output.head == log[i].hash;
    assert (log + [entry])[i] == log[i];
  }

  lemma AnswerStays(name: string, log: seq<Entry>, event: Event, at: Time, a: Answer)
    requires LogOk(name, log) && Admissible(name, log, event) && AnswerOk(log, a)
    ensures AnswerOk(log + [NextEntry(log, event, at)], a)
  {
    var entry := NextEntry(log, event, at);
    var longer := log + [entry];
    match a {
      case SendAnswer(input, output) =>
        var index := IndexOf(0, log);
        IndexOfSnoc(0, log, entry);
        IndexStaysOk(name, log);
        OutboxGrowsStep(name, index.box, GateOf(log, EventScope(event)), index.decisions, entry);
      case ReceiveAnswer(_, output) =>
        if output.ack.Some? {
          var i :| 0 <= i < |log| && log[i].event.AcknowledgementIssued? && log[i].event.ack == output.ack.value;
          assert longer[i] == log[i];
        }
      case ConfirmAnswer(ack, output) =>
        ConfirmationStays(log, entry, ack.content.messageID, output);
    }
  }

  lemma AnswersStay(s: State, s': State, key: ClaimKey, event: Event, at: Time)
    requires LogOk(s.config.name, s.known) && Admissible(s.config.name, s.known, event)
    requires AnswersOk(s) && Appended(s, s', key, event, at) && s'.answers == s.answers
    requires key in s'.ops && s'.ops[key].Done? && s'.ops[key].answer.Some? ==> AnswerOk(s'.known, s'.ops[key].answer.value)
    ensures AnswersOk(s')
  {
    forall a | AnswerOk(s.known, a) ensures AnswerOk(s'.known, a) {
      AnswerStays(s.config.name, s.known, event, at, a);
    }
    forall k | k in s'.ops && k != key ensures Lookup(s'.ops, k) == Lookup(s.ops, k) {}
  }

  lemma LookupsStay(sent: map<string, Envelope>, sent': map<string, Envelope>, looked: multiset<(Ack, Envelope)>)
    requires LookupsOk(sent, looked) && forall m :: m in sent ==> Lookup(sent', m) == Some(sent[m])
    ensures LookupsOk(sent', looked)
  {
  }

  lemma ConfirmsStay(s: State, s': State, key: ClaimKey, event: Event, at: Time)
    requires Durable(s) && Admissible(s.config.name, s.known, event)
    requires ConfirmsOk(s) && Appended(s, s', key, event, at) && s'.looked == s.looked
    requires key in s'.ops && s'.ops[key].ConfirmAppend? ==> Lookup(s.ops, key) == Some(s'.ops[key])
    ensures ConfirmsOk(s')
  {
    hide ConfirmationLogged, Durable, AdmissibleAt, IndexOf, RequestsOk, SentOk, FinalsOk, IntakeOk, SameButReceipts, ApplyOutbox, LookupsOk;
    LoggedIsOk(s);
    var entry := NextEntry(s.known, event, at);
    var index := IndexOf(0, s.known);
    IndexOfSnoc(0, s.known, entry);
    OutboxGrowsStep(s.config.name, index.box, GateOf(s.known, EventScope(event)), index.decisions, entry);
    LookupsStay(LoggedOutbox(s).sent, LoggedOutbox(s').sent, s.looked);
    forall k | k in s'.ops && k != key ensures Lookup(s'.ops, k) == Lookup(s.ops, k) {}
    forall m | m in s'.box.outbox.confirmed ensures ConfirmationLogged(s'.known, m, s'.box.outbox.confirmed[m]) {
      ConfirmationStays(s.known, entry, m, s.box.outbox.confirmed[m]);
    }
  }

  lemma InboxStays(s: State, s': State, key: ClaimKey, event: Event, at: Time)
    requires InboxAgrees(s.ops, s.box.intake.inbox, LoggedIntake(s).inbox) && OrderAgrees(s)
    requires Appended(s, s', key, event, at) && !event.InboundAccepted?
    requires key in s.ops && key in s'.ops && !s.ops[key].ReceiveStore? && !s'.ops[key].ReceiveStore?
    ensures InboxAgrees(s'.ops, s'.box.intake.inbox, LoggedIntake(s').inbox) && OrderAgrees(s')
  {
    IndexOfSnoc(s.key, s.known, NextEntry(s.known, event, at));
    SameLagging(s.ops, s'.ops, key);
  }

  lemma SameLagging(ops: map<ClaimKey, Op>, ops': map<ClaimKey, Op>, key: ClaimKey)
    requires forall k :: k != key ==> Lookup(ops', k) == Lookup(ops, k)
    requires key in ops ==> !ops[key].ReceiveStore?
    requires key in ops' ==> !ops'[key].ReceiveStore?
    ensures forall m :: Lagging(ops', m) == Lagging(ops, m)
    ensures forall k :: k in ops && ops[k].ReceiveStore? <==> k in ops' && ops'[k].ReceiveStore?
    ensures forall k :: k in ops && ops[k].ReceiveStore? ==> ops'[k] == ops[k]
  {
    forall k ensures k in ops && ops[k].ReceiveStore? ==> k in ops' && ops'[k] == ops[k]
      ensures k in ops' && ops'[k].ReceiveStore? ==> k in ops && ops'[k] == ops[k]
    {
      if k != key {
        assert Lookup(ops', k) == Lookup(ops, k);
      }
    }
  }

  lemma ClaimsStay(s: State, s': State, key: ClaimKey, op: Op)
    requires ClaimsOk(s) && key in s.ops && s'.ops == s.ops[key := op]
    requires s'.active == s.active && s'.semaphore == s.semaphore && s'.config == s.config
    ensures ClaimsOk(s')
  {
    assert s'.ops.Keys == s.ops.Keys;
    assert |s'.ops| == |s'.ops.Keys|;
  }

  lemma StoredKeys(s: State, s': State, key: ClaimKey, event: Event, at: Time)
    requires forall k :: KeyOk(s, k)
    requires Appended(s, s', key, event, at)
    requires RequestsOk(LoggedOutbox(s)) && Footprint(LoggedOutbox(s), key, event) && KeyOk(s', key)
    ensures forall k :: KeyOk(s', k)
  {
    forall k ensures KeyOk(s', k) {
      if k != key {
        assert KeyOk(s, k);
        OtherKeysStayOk(s, s', key, event, at, k);
      }
    }
  }

  lemma StoredDurable(s: State, s': State, event: Event, at: Time)
    requires Durable(s) && !s.poisoned && MayAppend(s, event)
    requires s'.known == s.known + [NextEntry(s.known, event, at)] && s'.tail == s.tail
    requires s'.config == s.config && s'.key == s.key && s'.keys == s.keys && s'.owned == s.owned
    requires s'.approved == s.approved && s'.poisoned == s.poisoned
    ensures Durable(s')
  {
    hide LogOk, SignedLocally, Authorized, IsHistory, MayAppend, NextEntry, TransitionsOf;
    LogExtends(s, event, at);
    assert Disk(s') == s'.known;
  }

  /** A durable append by the operation at `key` keeps the invariant if it leaves its own key in order. */
  lemma StoredStep(s: State, s': State, key: ClaimKey, event: Event, at: Time, op: Op)
    requires Inv(s) && s.mode.Serving? && !s.poisoned && key in s.ops
    requires s' == At(s.(known := s.known + [NextEntry(s.known, event, at)]), key, op)
    requires MayAppend(s, event) && Footprint(LoggedOutbox(s), key, event)
    requires KeyOk(s', key) && !op.ConfirmAppend?
    requires op.Done? && op.answer.Some? ==> AnswerOk(s'.known, op.answer.value)
    requires InboxAgrees(s'.ops, s'.box.intake.inbox, LoggedIntake(s').inbox) && OrderAgrees(s')
    ensures Inv(s')
  {
    hide KeyOk, AnswerOk, Admissible, LogOk, ConfirmsOk, ClaimsOk, OrderAgrees, InboxAgrees, Footprint, OutboxOk, IntakeOk, IndexOf;
    LoggedIsOk(s);
    assert Appended(s, s', key, event, at);
    StoredDurable(s, s', event, at);
    AnswersStay(s, s', key, event, at);
    ConfirmsStay(s, s', key, event, at);
    StoredKeys(s, s', key, event, at);
    ClaimsStay(s, s', key, op);
  }

  /** The views depend on the operations only at their own key. */
  lemma SameViews(s: State, s': State, key: ClaimKey, k: ClaimKey)
    requires s'.known == s.known && s'.key == s.key && s'.config == s.config && s'.box == s.box && s'.approved == s.approved
    requires Lookup(s'.ops, k) == Lookup(s.ops, k) && KeyOk(s, k)
    ensures KeyOk(s', k)
  {
  }

  lemma LocalKeys(s: State, s': State, key: ClaimKey)
    requires forall k :: KeyOk(s, k)
    requires s'.known == s.known && s'.key == s.key && s'.config == s.config && s'.box == s.box && s'.approved == s.approved
    requires forall k :: k != key ==> Lookup(s'.ops, k) == Lookup(s.ops, k)
    requires KeyOk(s', key)
    ensures forall k :: KeyOk(s', k)
  {
    hide KeyOk;
    forall k ensures KeyOk(s', k) {
      if k != key {
        assert KeyOk(s, k);
        SameViews(s, s', key, k);
      }
    }
  }

  lemma LocalConfirms(s: State, s': State, key: ClaimKey, op: Op)
    requires ConfirmsOk(s) && s'.known == s.known && s'.box == s.box && s'.looked == s.looked
    requires s'.ops == s.ops[key := op] && !op.ConfirmAppend?
    ensures ConfirmsOk(s')
  {
    hide ConfirmsSent, IndexOf, ConfirmationLogged, LookupsOk;
  }

  lemma LocalInbox(s: State, s': State, key: ClaimKey, op: Op)
    requires InboxAgrees(s.ops, s.box.intake.inbox, LoggedIntake(s).inbox) && OrderAgrees(s)
    requires s'.known == s.known && s'.key == s.key && s'.config == s.config && s'.box == s.box
    requires key in s.ops && s'.ops == s.ops[key := op] && !s.ops[key].ReceiveStore? && !op.ReceiveStore?
    ensures InboxAgrees(s'.ops, s'.box.intake.inbox, LoggedIntake(s').inbox) && OrderAgrees(s')
  {
    SameLagging(s.ops, s'.ops, key);
  }

  /** An operation moves on without touching the log that it sees or the maps. */
  lemma LocalStep(s: State, s': State, key: ClaimKey, op: Op)
    requires Inv(s) && s.mode.Serving? && key in s.ops
    requires s' == At(s.(poisoned := s'.poisoned, tail := s'.tail), key, op)
    requires Durable(s')
    requires KeyOk(s', key) && !op.ConfirmAppend? && !s.ops[key].ReceiveStore? && !op.ReceiveStore?
    requires op.Done? && op.answer.Some? ==> AnswerOk(s.known, op.answer.value)
    ensures Inv(s')
  {
    hide KeyOk, AnswerOk, Durable, ConfirmsOk, ClaimsOk, InboxAgrees, OrderAgrees, IndexOf;
    LocalKeys(s, s', key);
    LocalConfirms(s, s', key, op);
    LocalInbox(s, s', key, op);
    ClaimsStay(s, s', key, op);
  }

  lemma InvDurable(s: State)
    requires Inv(s)
    ensures Durable(s) && AnswersOk(s)
  {
    hide Durable, AnswersOk, LiveOk;
  }

  /** An operation moves on in memory alone. */
  lemma LocalMove(s: State, key: ClaimKey, op: Op)
    requires Inv(s) && s.mode.Serving? && key in s.ops
    requires KeyOk(At(s, key, op), key) && !op.ConfirmAppend? && !s.ops[key].ReceiveStore? && !op.ReceiveStore?
    requires op.Done? && op.answer.Some? ==> AnswerOk(s.known, op.answer.value)
    ensures Inv(At(s, key, op))
  {
    hide KeyOk, AnswerOk, Inv, Durable;
    InvDurable(s);
    OpsKeepDurable(s, At(s, key, op));
    LocalStep(s, At(s, key, op), key, op);
  }

  lemma OpsKeepDurable(s: State, s': State)
    requires Durable(s) && s' == s.(ops := s'.ops)
    ensures Durable(s')
  {
    hide LogOk, SignedLocally, Authorized, IsHistory;
    assert Disk(s') == Disk(s);
  }

  /** The view of an operation that has nothing under way. */
  predicate Settled(s: State, key: ClaimKey) {
    match key
    case SendKey(_) => SendSettled(SendViewOf(s, key))
    case ReceiveKey(_) => key !in s.box.outbox.requests && ReceiveSettled(ReceiveViewOf(s, key))
    case ConfirmKey(_) => key !in s.box.outbox.requests && ConfirmViewOf(s, key).live == ConfirmViewOf(s, key).logged
  }

  /** A settled operation may end. */
  lemma SettledMayEnd(s: State, s': State, key: ClaimKey, answer: Option<Answer>)
    requires Settled(s, key)
    requires s'.known == s.known && s'.key == s.key && s'.config == s.config && s'.box == s.box && s'.approved == s.approved
    requires Lookup(s'.ops, key) == Some(Done(answer))
    ensures KeyOk(s', key)
  {
    hide IndexOf, GateOf;
  }

  lemma FailedDurable(s: State, event: Event, outcome: Outcome)
    requires Durable(s) && s.mode.Serving?
    requires !s.poisoned ==> MayAppend(s, event)
    requires Append(s, event, outcome).1.None?
    ensures Durable(Append(s, event, outcome).0)
  {
    hide MayAppend, LogOk, SignedLocally, Authorized, IsHistory, NextEntry, TransitionsOf;
    if !s.poisoned && outcome.Uncertain? {
      LogExtends(s, event, outcome.at);
    }
  }

  lemma FailedAppend(s: State, event: Event, outcome: Outcome)
    requires Append(s, event, outcome).1.None?
    ensures var t := Append(s, event, outcome).0; t == s.(poisoned := t.poisoned, tail := t.tail)
  {
    hide NextEntry;
  }

  /** An operation gives up after a failed append; the entry may have become durable. */
  lemma FailedStep(s: State, key: ClaimKey, event: Event, outcome: Outcome)
    requires Inv(s) && s.mode.Serving? && key in s.ops
    requires !s.poisoned ==> MayAppend(s, event)
    requires Settled(s, key) && !s.ops[key].ReceiveStore?
    requires Append(s, event, outcome).1.None?
    ensures Inv(At(Append(s, event, outcome).0, key, Done(None)))
  {
    hide MayAppend, Settled, KeyOk, Inv, Durable, Append;
    var t := Append(s, event, outcome).0;
    InvDurable(s);
    FailedDurable(s, event, outcome);
    FailedAppend(s, event, outcome);
    OpsKeepDurable(t, At(t, key, Done(None)));
    SettledMayEnd(s, At(t, key, Done(None)), key, None);
    LocalStep(s, At(t, key, Done(None)), key, Done(None));
  }

  lemma MapsConfirms(s: State, s': State, key: ClaimKey, op: Op)
    requires ConfirmsOk(s) && s'.known == s.known && s'.looked == s.looked
    requires forall m :: m in s'.box.outbox.sent ==> Lookup(LoggedOutbox(s).sent, m) == Some(s'.box.outbox.sent[m])
    requires forall m :: m in s'.box.outbox.confirmed ==> ConfirmationLogged(s.known, m, s'.box.outbox.confirmed[m])
    requires s'.ops == s.ops[key := op] && !op.ConfirmAppend?
    ensures ConfirmsOk(s')
  {
    hide ConfirmsSent, IndexOf, ConfirmationLogged, LookupsOk;
  }

  /** An operation writes to the maps what it has appended before. */
  lemma MapStep(s: State, s': State, key: ClaimKey, op: Op)
    requires Inv(s) && s.mode.Serving? && key in s.ops
    requires s' == At(s.(box := s'.box), key, op)
    requires (forall k :: KeyOk(s', k)) && !op.ConfirmAppend?
    requires forall m :: m in s'.box.outbox.sent ==> Lookup(LoggedOutbox(s).sent, m) == Some(s'.box.outbox.sent[m])
    requires forall m :: m in s'.box.outbox.confirmed ==> ConfirmationLogged(s.known, m, s'.box.outbox.confirmed[m])
    requires InboxAgrees(s'.ops, s'.box.intake.inbox, LoggedIntake(s').inbox) && OrderAgrees(s')
    requires op.Done? && op.answer.Some? ==> AnswerOk(s.known, op.answer.value)
    ensures Inv(s')
  {
    hide KeyOk, AnswerOk, LogOk, SignedLocally, Authorized, ConfirmsOk, ClaimsOk, InboxAgrees, OrderAgrees, IndexOf;
    MapsConfirms(s, s', key, op);
    ClaimsStay(s, s', key, op);
  }

  /** The inbox relation when neither inbox nor the lagging messages change. */
  lemma OutboxOnly(s: State, s': State, key: ClaimKey, op: Op)
    requires InboxAgrees(s.ops, s.box.intake.inbox, LoggedIntake(s).inbox) && OrderAgrees(s)
    requires s'.known == s.known && s'.key == s.key && s'.config == s.config && s'.box.intake.inbox == s.box.intake.inbox
    requires key in s.ops && s'.ops == s.ops[key := op] && !s.ops[key].ReceiveStore? && !op.ReceiveStore?
    ensures InboxAgrees(s'.ops, s'.box.intake.inbox, LoggedIntake(s').inbox) && OrderAgrees(s')
  {
    hide IndexOf;
    SameLagging(s.ops, s'.ops, key);
  }
}
