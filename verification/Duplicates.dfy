/** What happens to an envelope that arrives again after its receipt was given out. */
module Duplicates {
  import opened Wrappers
  import opened Records
  import opened Replay
  import opened Ledger
  import opened SigningHistory
  import opened Endpoint
  import opened Invariant
  import opened Progress
  import opened Origins
  import opened EvaluationSafety
  import opened RunSafety
  import opened Lifecycle
  import opened Reports
  import opened ReportSteps
  import opened ReportSafety

  /** The message that an operation receives. */
  predicate Receives(op: Op, m: string) {
    EnvelopeOf(op).Some? && EnvelopeOf(op).value.content.messageID == m
  }

  /** The answer is about the inbound message. */
  predicate AnswersFor(a: Answer, m: string) {
    a.ReceiveAnswer? && a.envelope.content.messageID == m
  }

  predicate WillAnswer(op: Op, m: string) {
    op.Done? && op.answer.Some? && AnswersFor(op.answer.value, m)
  }

  /** The receipt of the message is kept, and nothing is under way for it. */
  predicate Acknowledged(s: State, m: string, record: ReceivedRecord) {
    && Lookup(s.box.intake.received, m) == Some(record) && record.output.ack.Some?
    && forall k :: k in s.ops ==> !Receives(s.ops[k], m) && !WillAnswer(s.ops[k], m)
  }

  /** Since there were `before` answers, the message is answered as recorded, or not at all. */
  ghost predicate Repeats(before: set<Answer>, s: State, m: string, record: ReceivedRecord) {
    && Lookup(s.box.intake.received, m) == Some(record) && record.output.ack.Some?
    && (forall k :: k in s.ops && Receives(s.ops[k], m) ==> s.ops[k].ReceiveLookup?)
    && (forall k :: k in s.ops && WillAnswer(s.ops[k], m) ==> s.ops[k].answer.value.receiveOutput == record.output)
    && (forall a :: a in s.answers && a !in before && AnswersFor(a, m) ==> a.receiveOutput == record.output)
  }

  /** Nothing was added to the log about a receipt of the message. */
  ghost predicate NoReceipt(s: State, s': State, m: string) {
    && Disk(s) <= Disk(s')
    && forall i :: |Disk(s)| <= i < |Disk(s')| && Disk(s')[i].event.AcknowledgementIssued? ==>
                     Disk(s')[i].event.meta.messageID != m
  }

  lemma SameLog(s: State, s': State, m: string)
    requires s'.known == s.known && s'.tail == s.tail
    ensures NoReceipt(s, s', m)
  {
    assert Disk(s') == Disk(s);
  }

  lemma LookupRepeats(before: set<Answer>, s: State, key: ClaimKey, next: Op, m: string, record: ReceivedRecord)
    requires Repeats(before, s, m, record) && key in s.ops && s.ops[key].ReceiveLookup? && Receives(s.ops[key], m)
    requires next == AfterLookup(s.box.intake, s.ops[key].envelope)
    ensures !Receives(next, m) && (WillAnswer(next, m) ==> next.answer.value.receiveOutput == record.output)
  {
  }

  /** What a section of another operation leaves of the message. */
  lemma OtherSection(s: State, op: Op, next: Op, after: Intake, m: string)
    requires LocalTells(s, op, next) && KeepsOthers(op, s.box.intake, after) && !Receives(op, m) && !WillAnswer(op, m)
    ensures !Receives(next, m) && !WillAnswer(next, m) && Lookup(after.received, m) == Lookup(s.box.intake.received, m)
  {
    hide AfterLookup;
  }

  lemma LookupSection(s: State, op: Op, next: Op, after: Intake, m: string)
    requires LocalTells(s, op, next) && KeepsOthers(op, s.box.intake, after) && op.ReceiveLookup?
    ensures next == AfterLookup(s.box.intake, op.envelope) && Lookup(after.received, m) == Lookup(s.box.intake.received, m)
  {
    hide AfterLookup, StoredAnswer;
  }

  lemma LocalRepeats(before: set<Answer>, s: State, key: ClaimKey, next: Op, box: Mailbox, m: string, record: ReceivedRecord)
    requires Repeats(before, s, m, record) && key in s.ops && !s.ops[key].Done? && LocalTells(s, s.ops[key], next)
    requires KeepsOthers(s.ops[key], s.box.intake, box.intake)
    ensures Repeats(before, At(s.(box := box), key, next), m, record)
  {
    hide LocalTells, KeepsOthers, Receives, WillAnswer, Repeats, At, AfterLookup, Lookup;
    assert !WillAnswer(s.ops[key], m) by { DoneAnswers(s.ops[key], m); }
    if Receives(s.ops[key], m) {
      OnlyLookups(before, s, key, m, record);
      LookupSection(s, s.ops[key], next, box.intake, m);
      LookupRepeats(before, s, key, next, m, record);
    } else {
      OtherSection(s, s.ops[key], next, box.intake, m);
    }
    NextRepeats(before, s, key, next, box, m, record);
  }

  lemma DoneAnswers(op: Op, m: string)
    ensures WillAnswer(op, m) ==> op.Done?
  {
  }

  lemma OnlyLookups(before: set<Answer>, s: State, key: ClaimKey, m: string, record: ReceivedRecord)
    requires Repeats(before, s, m, record) && key in s.ops && Receives(s.ops[key], m)
    ensures s.ops[key].ReceiveLookup?
  {
  }

  /** One operation that went on to something harmless. */
  lemma NextRepeats(before: set<Answer>, s: State, key: ClaimKey, next: Op, box: Mailbox, m: string, record: ReceivedRecord)
    requires Repeats(before, s, m, record) && Lookup(box.intake.received, m) == Lookup(s.box.intake.received, m)
    requires !Receives(next, m) && (WillAnswer(next, m) ==> next.answer.value.receiveOutput == record.output)
    ensures Repeats(before, At(s.(box := box), key, next), m, record)
  {
    hide Receives, WillAnswer, AnswersFor, Lookup;
  }

  /** What an append of another operation means for the message. */
  lemma AppendedMessage(s: State, op: Op, event: Event, e: Entry, next: Op, m: string)
    requires AppendTells(s, op, event, e, next) && (Receives(op, m) ==> op.ReceiveLookup?)
    ensures !Receives(next, m) && !WillAnswer(next, m)
    ensures event.AcknowledgementIssued? ==> event.meta.messageID != m
  {
    hide MetaOf;
  }

  lemma LogMoves(s: State, event: Event, outcome: Outcome, m: string)
    requires TailOk(s) && (event.AcknowledgementIssued? ==> event.meta.messageID != m)
    ensures NoReceipt(s, Append(s, event, outcome).0, m)
  {
    hide TailOk, Append;
    AppendAdds(s, event, outcome);
  }

  lemma AppendRepeats(before: set<Answer>, s: State, key: ClaimKey, event: Event, outcome: Outcome, next: Op, m: string,
                      record: ReceivedRecord)
    requires TailOk(s) && Repeats(before, s, m, record) && key in s.ops
    requires AppendTells(s, s.ops[key], event, Written(s, event, outcome), next)
    ensures var s' := AppendThen(s, key, event, outcome, next); Repeats(before, s', m, record) && NoReceipt(s, s', m)
  {
    hide Written, AppendTells, EnvelopeOf, TailOk, NoReceipt, Append;
    AppendedMessage(s, s.ops[key], event, Written(s, event, outcome), next, m);
    LogMoves(s, event, outcome, m);
    GivenUp(m);
    AppendAdds(s, event, outcome);
    SameLogs(s, Append(s, event, outcome).0, AppendThen(s, key, event, outcome, next), m);
  }

  lemma GivenUp(m: string)
    ensures !Receives(Done(None), m) && !WillAnswer(Done(None), m)
  {
  }

  lemma SameLogs(s: State, t: State, s': State, m: string)
    requires NoReceipt(s, t, m) && s'.known == t.known && s'.tail == t.tail
    ensures NoReceipt(s, s', m)
  {
    assert Disk(s') == Disk(t);
  }

  lemma TellsRepeats(before: set<Answer>, s: State, s': State, key: ClaimKey, c: Choice, m: string, record: ReceivedRecord)
    requires TailOk(s) && Repeats(before, s, m, record) && key in s.ops && !s.ops[key].Done? && Tells(s, s', key, c)
    ensures Repeats(before, s', m, record) && NoReceipt(s, s', m)
  {
    hide TailOk, Repeats, NoReceipt, LocalTells, AppendTells, KeepsOthers, Written, AppendThen, At;
    var op := s.ops[key];
    SameLog(s, s, m);
    if next, box: Mailbox :| LocalTells(s, op, next) && KeepsOthers(op, s.box.intake, box.intake) && s' == At(s.(box := box), key, next) {
      LocalRepeats(before, s, key, next, box, m, record);
      LocalLog(s, key, next, box, m);
    } else if s' != s {
      var event, next :| AppendTells(s, op, event, Written(s, event, c.outcome), next)
                         && s' == AppendThen(s, key, event, c.outcome, next);
      AppendRepeats(before, s, key, event, c.outcome, next, m, record);
    }
  }

  lemma LocalLog(s: State, key: ClaimKey, next: Op, box: Mailbox, m: string)
    ensures NoReceipt(s, At(s.(box := box), key, next), m)
  {
    hide NoReceipt;
    SameLog(s, At(s.(box := box), key, next), m);
  }

  lemma ReleaseRepeats(before: set<Answer>, s: State, key: ClaimKey, m: string, record: ReceivedRecord)
    requires Repeats(before, s, m, record) && key in s.ops && s.ops[key].Done?
    ensures Repeats(before, Release(s, key), m, record) && NoReceipt(s, Release(s, key), m)
  {
    hide EnvelopeOf, NoReceipt;
    SameLog(s, Release(s, key), m);
  }

  lemma AdvanceRepeats(before: set<Answer>, s: State, key: ClaimKey, c: Choice, m: string, record: ReceivedRecord)
    requires TailOk(s) && Repeats(before, s, m, record) && key in s.ops
    ensures Repeats(before, Advance(s, key, c), m, record) && NoReceipt(s, Advance(s, key, c), m)
  {
    hide TailOk, Repeats, NoReceipt, Advance, Tells, Release;
    if s.ops[key].Done? {
      DoneAdvances(s, key, c);
      ReleaseRepeats(before, s, key, m, record);
    } else {
      AdvanceTells(s, key, c);
      TellsRepeats(before, s, Advance(s, key, c), key, c, m, record);
    }
  }

  /** A claim may add a lookup, and an answer to a send or a confirmation. */
  lemma OthersRepeat(before: set<Answer>, s: State, s': State, m: string, record: ReceivedRecord)
    requires Repeats(before, s, m, record) && s'.box == s.box
    requires forall k :: k in s'.ops ==> (k in s.ops && s'.ops[k] == s.ops[k]) || (!WillAnswer(s'.ops[k], m)
                                         && (Receives(s'.ops[k], m) ==> s'.ops[k].ReceiveLookup?))
    requires forall a :: a in s'.answers ==> a in s.answers || !AnswersFor(a, m)
    ensures Repeats(before, s', m, record)
  {
    hide EnvelopeOf;
  }

  /** What a claim or a lookup does at most. */
  ghost predicate ClaimShape(s: State, s': State) {
    && s'.box == s.box && s'.known == s.known && s'.tail == s.tail
    && (forall k :: k in s'.ops ==> (k in s.ops && s'.ops[k] == s.ops[k])
                                    || s'.ops[k].SendLookup? || s'.ops[k].ReceiveLookup? || s'.ops[k].ConfirmAppend?)
    && (forall a :: a in s'.answers ==> a in s.answers || !a.ReceiveAnswer?)
  }

  lemma GrantShape(s: State, k: ClaimKey, binding: Digest, op: Op)
    requires op.SendLookup? || op.ReceiveLookup? || op.ConfirmAppend?
    ensures ClaimShape(s, Grant(s, k, binding, op))
  {
  }

  lemma ClaimSendShape(s: State, input: SendInput)
    ensures ClaimShape(s, ClaimSend(s, input))
  {
    hide ValidInput, ClaimStatus, Binding, Grant;
    GrantShape(s, SendKey(input.requestID), Binding(input), SendLookup(input));
  }

  lemma ClaimReceiveShape(s: State, envelope: Envelope, now: Time)
    ensures ClaimShape(s, ClaimReceive(s, envelope, now))
  {
    hide ValidEnvelope, ClaimStatus, Grant;
    GrantShape(s, ReceiveKey(envelope.content.messageID), EnvelopeDigest(envelope), ReceiveLookup(envelope));
  }

  lemma ClaimConfirmShape(s: State, ack: Ack, envelope: Envelope)
    ensures ClaimShape(s, ClaimConfirm(s, ack, envelope))
  {
    hide ClaimStatus, Grant;
    var after := s.(looked := s.looked - multiset{(ack, envelope)});
    GrantShape(after, ConfirmKey(ack.content.messageID), ack.content.envelopeDigest, ConfirmAppend(ack, envelope));
  }

  lemma LookupShape(s: State, ack: Ack, now: Time)
    ensures ClaimShape(s, LookupConfirm(s, ack, now))
  {
    hide ValidAck, EnvelopeOf;
  }

  lemma ShapeRepeats(before: set<Answer>, s: State, s': State, m: string, record: ReceivedRecord)
    requires Repeats(before, s, m, record) && ClaimShape(s, s')
    ensures Repeats(before, s', m, record) && NoReceipt(s, s', m)
  {
    hide Repeats, NoReceipt;
    SameLog(s, s', m);
    OthersRepeat(before, s, s', m, record);
  }

  lemma ClaimRepeats(before: set<Answer>, s: State, a: Action, m: string, record: ReceivedRecord)
    requires s.mode.Serving? && Repeats(before, s, m, record)
    requires a.DoClaimSend? || a.DoClaimReceive? || a.DoLookupConfirm? || a.DoClaimConfirm? || a.DoClose?
    ensures Repeats(before, DoWhileServing(s, a), m, record) && NoReceipt(s, DoWhileServing(s, a), m)
  {
    hide Repeats, NoReceipt, ClaimShape, ClaimSend, ClaimReceive, ClaimConfirm, LookupConfirm, Advance, Append;
    match a {
      case DoClaimSend(input) => ClaimSendShape(s, input);
      case DoClaimReceive(envelope, now) => ClaimReceiveShape(s, envelope, now);
      case DoLookupConfirm(ack, now) => LookupShape(s, ack, now);
      case DoClaimConfirm(ack, envelope) => ClaimConfirmShape(s, ack, envelope);
      case _ => CloseShape(s);
    }
    ShapeRepeats(before, s, DoWhileServing(s, a), m, record);
  }

  lemma CloseShape(s: State)
    ensures ClaimShape(s, s.(closing := true))
  {
  }

  lemma StepRepeats(before: set<Answer>, s: State, a: Action, m: string, record: ReceivedRecord)
    requires TailOk(s) && s.mode.Serving? && Repeats(before, s, m, record) && !a.DoHalt?
    ensures Repeats(before, Do(s, a), m, record) && NoReceipt(s, Do(s, a), m)
  {
    hide TailOk, Repeats, NoReceipt, Advance, Append, ClaimSend, ClaimReceive, LookupConfirm, ClaimConfirm;
    SameLog(s, s, m);
    match a
    case DoAdvance(key, choice) => if key in s.ops { AdvanceRepeats(before, s, key, choice, m, record); }
    case DoNotice(kind, outcome) => NoticeRepeats(before, s, kind, outcome, m, record);
    case DoApprove(_) =>
      OthersRepeat(before, s, Do(s, a), m, record);
      SameLog(s, Do(s, a), m);
    case _ =>
      if a.DoClaimSend? || a.DoClaimReceive? || a.DoLookupConfirm? || a.DoClaimConfirm? || a.DoClose? {
        ClaimRepeats(before, s, a, m, record);
      }
  }

  lemma NoticeRepeats(before: set<Answer>, s: State, kind: string, outcome: Outcome, m: string, record: ReceivedRecord)
    requires TailOk(s) && Repeats(before, s, m, record)
    ensures var s' := Append(s, Notice(kind), outcome).0; Repeats(before, s', m, record) && NoReceipt(s, s', m)
  {
    hide TailOk, Repeats, NoReceipt, Append;
    AppendAdds(s, Notice(kind), outcome);
    LogMoves(s, Notice(kind), outcome, m);
    OthersRepeat(before, s, Append(s, Notice(kind), outcome).0, m, record);
  }

  lemma NoReceiptTogether(s: State, s': State, s'': State, m: string)
    requires NoReceipt(s, s', m) && NoReceipt(s', s'', m)
    ensures NoReceipt(s, s'', m)
  {
    forall i | |Disk(s)| <= i < |Disk(s'')| && Disk(s'')[i].event.AcknowledgementIssued?
      ensures Disk(s'')[i].event.meta.messageID != m
    {
      if i < |Disk(s')| {
        assert Disk(s'')[i] == Disk(s')[i];
      }
    }
  }

  /** Once the receipt of a message is kept and nothing is under way for it, then as long as
      the process serves, whatever arrives and in whatever order things happen, every answer
      for the message repeats the recorded one, and no further receipt is issued. */
  lemma {:induction false} DuplicatesRepeat(s: State, actions: seq<Action>, m: string, record: ReceivedRecord)
    requires Reachable(s) && s.mode.Serving? && Acknowledged(s, m, record) && Unbroken(actions)
    ensures var s' := Run(s, actions);
            && s'.mode.Serving? && Reachable(s') && NoReceipt(s, s', m) && Lookup(s'.box.intake.received, m) == Some(record)
            && forall a :: a in s'.answers && a !in s.answers && AnswersFor(a, m) ==> a.receiveOutput == record.output
  {
    hide Reachable, Do, NoReceipt, EnvelopeOf;
    SettledRun(s, actions, m, record);
  }

  lemma {:induction false} SettledRun(s: State, actions: seq<Action>, m: string, record: ReceivedRecord)
    requires Reachable(s) && s.mode.Serving? && Acknowledged(s, m, record) && Unbroken(actions)
    ensures var s' := Run(s, actions);
            s'.mode.Serving? && Reachable(s') && NoReceipt(s, s', m) && Repeats(s.answers, s', m, record)
  {
    hide Reachable, Do, NoReceipt, EnvelopeOf, Inv, TailOk;
    if actions == [] {
      hide Repeats;
      SameLog(s, s, m);
      BeginsSettled(s, m, record);
    } else {
      hide Repeats, Acknowledged;
      var n := |actions| - 1;
      var t := Run(s, actions[..n]);
      SettledRun(s, actions[..n], m, record);
      ReachableSafe(t);
      TailOfDurable(t);
      StepRepeats(s.answers, t, actions[n], m, record);
      StaysServing(t, actions[n]);
      StepStaysReachable(t, Do(t, actions[n]), actions[n]);
      NoReceiptTogether(s, t, Do(t, actions[n]), m);
    }
  }

  lemma BeginsSettled(s: State, m: string, record: ReceivedRecord)
    requires Acknowledged(s, m, record)
    ensures Repeats(s.answers, s, m, record)
  {
    hide EnvelopeOf;
  }

  lemma StaysServing(s: State, a: Action)
    requires s.mode.Serving? && !a.DoHalt? && TailOk(s)
    ensures Do(s, a).mode.Serving?
  {
    hide Advance, Append, ClaimStatus, ValidInput, ValidEnvelope, ValidAck, TailOk, Binding;
    match a
    case DoAdvance(key, choice) => if key in s.ops { AdvanceStaysServing(s, key, choice); }
    case DoNotice(kind, outcome) => AppendAdds(s, Notice(kind), outcome);
    case _ =>
  }

  lemma AdvanceStaysServing(s: State, key: ClaimKey, c: Choice)
    requires s.mode.Serving? && key in s.ops && TailOk(s)
    ensures Advance(s, key, c).mode.Serving?
  {
    if s.ops[key].Done? {
      hide SendStep, EvaluationStep, FinalizeStep, ReceiveStep, ConfirmStep;
    } else {
      hide Advance, TailOk, OfEvent, Disk;
      AdvanceMoves(s, key, c, Everything(), AllAcks());
    }
  }
}
