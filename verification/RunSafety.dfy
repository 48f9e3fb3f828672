/** The life of an endpoint: notices, shutdown, crashes, restarts, approvals and
    key rotations keep the invariant, and so does every run. */
module RunSafety {
  import opened Wrappers
  import opened Records
  import opened Replay
  import opened Ledger
  import opened LogTheorems
  import opened GuardTheorems
  import opened SigningHistory
  import opened Endpoint
  import opened Invariant
  import opened Frames
  import opened Steps
  import opened EvaluationSafety
  import opened SendSafety
  import opened ReceiveSafety
  import opened ProcessSafety

  // ----- Entries that belong to no operation -----

  lemma NoticeSafe(s: State, kind: string, outcome: Outcome)
    requires Inv(s) && s.mode.Serving?
    ensures Inv(Append(s, Notice(kind), outcome).0)
  {
    hide KeyOk, AnswerOk, IndexOf, ConfirmsOk, Durable, InboxAgrees, OrderAgrees, OutboxOk, IntakeOk, LogOk;
    var s' := Append(s, Notice(kind), outcome).0;
    InvKey(s, SendKey(""));
    if s.poisoned || !outcome.Stored? {
      FailedDurable(s, Notice(kind), outcome);
      forall k ensures KeyOk(s', k) {
        InvKey(s, k);
        SameViews(s, s', k, k);
      }
      NoticeFailed(s, s');
    } else {
      StoredDurable(s, s', Notice(kind), outcome.at);
      InvLog(s);
      if SendKey("") in s.ops && s.ops[SendKey("")].Done? && s.ops[SendKey("")].answer.Some? {
        AnswerStays(s.config.name, s.known, Notice(kind), outcome.at, s.ops[SendKey("")].answer.value);
      }
      AnswersStay(s, s', SendKey(""), Notice(kind), outcome.at);
      ConfirmsStay(s, s', SendKey(""), Notice(kind), outcome.at);
      NoticeKeys(s, s', kind, outcome.at);
      IndexOfSnoc(s.key, s.known, NextEntry(s.known, Notice(kind), outcome.at));
      NoticeInbox(s, s');
    }
  }

  lemma NoticeKeys(s: State, s': State, kind: string, at: Time)
    requires Inv(s) && s.mode.Serving? && s'.known == s.known + [NextEntry(s.known, Notice(kind), at)]
    requires s' == s.(known := s'.known)
    ensures forall k :: KeyOk(s', k)
  {
    hide KeyOk, AnswersOk, IndexOf, LiveOk, LogOk, SignedLocally, Authorized, SentOk, FinalsOk, IntakeOk, SameButReceipts;
    LoggedIsOk(s);
    forall k ensures KeyOk(s', k) {
      InvKey(s, k);
      var other := if k == SendKey("") then ReceiveKey("") else SendKey("");
      OtherKeysStayOk(s, s', other, Notice(kind), at, k);
    }
  }

  lemma NoticeFailed(s: State, s': State)
    requires AnswersOk(s) && ConfirmsOk(s) && OrderAgrees(s)
    requires s' == s.(poisoned := s'.poisoned, tail := s'.tail)
    ensures AnswersOk(s') && ConfirmsOk(s') && OrderAgrees(s') && LoggedIntake(s') == LoggedIntake(s)
  {
    hide AnswerOk, IndexOf, ConfirmsSent, ConfirmationLogged;
  }

  lemma NoticeInbox(s: State, s': State)
    requires InboxAgrees(s.ops, s.box.intake.inbox, LoggedIntake(s).inbox) && OrderAgrees(s)
    requires s' == s.(known := s'.known) && LoggedIntake(s') == LoggedIntake(s)
    ensures InboxAgrees(s'.ops, s'.box.intake.inbox, LoggedIntake(s').inbox) && OrderAgrees(s')
  {
    hide IndexOf;
  }

  // ----- The end of a process -----

  lemma AnswerGrows(name: string, log: seq<Entry>, n: nat, a: Answer)
    requires LogOk(name, log) && n <= |log| && AnswerOk(log[..n], a)
    ensures AnswerOk(log, a)
    decreases |log| - n
  {
    hide AnswerOk, Admissible;
    if n < |log| {
      LogOkPrefix(name, log, n);
      assert EntryOk(name, log, n);
      AnswerStays(name, log[..n], log[n].event, log[n].at, a);
      assert log[..n + 1] == log[..n] + [log[n]];
      AnswerGrows(name, log, n + 1, a);
    } else {
      assert log[..n] == log;
    }
  }

  lemma HaltSafe(s: State)
    requires Durable(s) && AnswersOk(s)
    ensures Inv(Halt(s))
  {
    hide LogOk, SignedLocally, Authorized, AnswerOk, LiveOk;
    var s' := Halt(s);
    assert Disk(s') == Disk(s);
    assert Disk(s)[..|s.known|] == s.known;
    forall a | a in s'.answers ensures AnswerOk(s'.known, a) {
      AnswerGrows(s.config.name, Disk(s), |s.known|, a);
    }
  }

  // ----- Starting -----

  /** The reconstruction reaches the end of any log in either form whose receipts are
      signed with local keys. */
  lemma LegacyReplays(name: string, key: Key, keys: seq<Key>, log: seq<Entry>, full: seq<Event>)
    requires LegacyOk(name, log, full) && SignedLocally(keys, log)
    ensures Replays(name, key, keys, log)
  {
    hide AdmissibleAt, IndexOf, GateOf, LegacyOk;
    forall i | 0 <= i < |log| && log[i].event.AcknowledgementIssued?
      ensures ReceiptFits(name, keys, IndexOf(key, log[..i]).box.intake, log[i].event)
    {
      LegacySize(name, log, full);
      LegacyEntry(name, log, full, i);
      KeyIsIrrelevant(key, 0, log[..i]);
      IssuedFacts(name, IndexOf(0, log[..i]).box, GateOf(log[..i], EventScope(full[i])), full[i]);
      SameAckContent(name, log[i].event, IndexOf(0, log[..i]).box.intake, IndexOf(key, log[..i]).box.intake);
    }
  }

  lemma SignedReceiptsFit(name: string, key: Key, keys: seq<Key>, log: seq<Entry>)
    requires LogOk(name, log) && SignedLocally(keys, log)
    ensures Replays(name, key, keys, log)
  {
    hide LogOk, SignedLocally, Replays, LegacyOk;
    CurrentIsLegacy(name, log);
    LegacyReplays(name, key, keys, log, EventsOf(log));
  }

  lemma IssuedFacts(name: string, box: Mailbox, gate: Gate, event: Event)
    requires AdmissibleAt(name, box, gate, event) && event.AcknowledgementIssued?
    ensures event.meta.messageID in box.intake.received
    ensures event.ack.content == AckContentFor(name, event.meta.messageID, event.meta.source, box.intake.received[event.meta.messageID])
  {
  }

  lemma SameAckContent(name: string, event: Event, a: Intake, b: Intake)
    requires event.AcknowledgementIssued? && SameButReceipts(b, a) && event.meta.messageID in a.received
    ensures event.meta.messageID in b.received
    ensures AckContentFor(name, event.meta.messageID, event.meta.source, a.received[event.meta.messageID])
         == AckContentFor(name, event.meta.messageID, event.meta.source, b.received[event.meta.messageID])
  {
  }

  /** The reconstruction never fails on a log that the program has written. */
  lemma RebuildNeverFails(s: State)
    requires Durable(s)
    ensures Rebuilds(s)
  {
    hide LogOk, SignedLocally, Authorized, Replays, IsPath;
    SignedReceiptsFit(s.config.name, s.key, s.keys, Disk(s));
  }

  lemma ServedKeys(s: State, key: ClaimKey)
    requires Durable(s) && s.mode.Down? && Idles(s)
    ensures KeyOk(Serve(s), key)
  {
    hide LogOk, SignedLocally, Authorized, IndexOf, GateOf, IntakeOk, SameButReceipts, IsHistory;
    LoggedIsOk(s);
  }

  lemma ServedInbox(s: State)
    requires Durable(s) && s.mode.Down? && Idles(s)
    ensures var s' := Serve(s);
            InboxAgrees(s'.ops, s'.box.intake.inbox, LoggedIntake(s').inbox) && OrderAgrees(s')
  {
    hide LogOk, SignedLocally, Authorized, IndexOf, OutboxOk, SameButReceipts, IsHistory;
    LoggedIsOk(s);
  }

  lemma ServedConfirms(s: State)
    requires Durable(s) && s.mode.Down? && Idles(s) && Startable(s.config)
    ensures ConfirmsOk(Serve(s)) && ClaimsOk(Serve(s))
  {
    hide LogOk, SignedLocally, Authorized, IndexOf, OutboxOk, IntakeOk, SameButReceipts, IsHistory, ConfirmationLogged;
    LoggedIsOk(s);
    ConfirmationsAreLogged(s.known);
  }

  lemma ServeSafe(s: State)
    requires Inv(s) && s.mode.Down? && Startable(s.config)
    ensures Inv(Serve(s))
  {
    hide KeyOk, LogOk, SignedLocally, Authorized, IndexOf, AnswerOk, InboxAgrees, OrderAgrees, ConfirmsOk, IsHistory, Startable;
    forall key ensures KeyOk(Serve(s), key) {
      ServedKeys(s, key);
    }
    ServedInbox(s);
    ServedConfirms(s);
  }

  // ----- Approvals -----

  /** Approvals are never replaced, so what was authorized stays so. */
  lemma ApprovedKeyOk(s: State, approval: Approval, key: ClaimKey)
    requires KeyOk(s, key) && approval.messageID !in s.approved
    ensures KeyOk(s.(approved := s.approved[approval.messageID := approval]), key)
  {
    hide IndexOf, GateOf;
  }

  lemma ApproveSafe(s: State, approval: Approval)
    requires Inv(s) && approval.messageID !in s.approved
    ensures Inv(s.(approved := s.approved[approval.messageID := approval]))
  {
    hide KeyOk, LogOk, SignedLocally, IndexOf, AnswerOk, ConfirmsSent, ConfirmationLogged, IsHistory, InboxAgrees;
    var s' := s.(approved := s.approved[approval.messageID := approval]);
    if s.mode.Serving? {
      forall k ensures KeyOk(s', k) {
        InvKey(s, k);
        ApprovedKeyOk(s, approval, k);
      }
    }
    forall i | 0 <= i < |Disk(s')| ensures EventAuthorized(s'.approved, Disk(s')[i].event) {
      assert EventAuthorized(s.approved, Disk(s)[i].event);
    }
  }

  // ----- Rotations -----

  lemma PreparedLog(s: State, next: Key, at: Time, when: Time)
    requires Durable(s) && s.mode.Down? && next !in s.owned
    ensures var rotation := MakeRotation(s.config.name, s.key, next, at);
            var log := s.known + [NextEntry(s.known, RotationPrepared(rotation), when)];
            LogOk(s.config.name, log) && SignedLocally(s.keys, log) && Authorized(s.approved, log)
            && IsHistory(s.config.name, TransitionsOf(log), s.keys) && IsHistory(s.config.name, TransitionsOf(log), [next] + s.keys)
  {
    var rotation := MakeRotation(s.config.name, s.key, next, at);
    assert Disk(s) == s.known;
    LogOkSnoc(s.config.name, s.known, RotationPrepared(rotation), when);
    TransitionsOfSnoc(s.known, NextEntry(s.known, RotationPrepared(rotation), when));
    RotationExtendsHistory(s.config.name, TransitionsOf(s.known), s.keys, next, at);
  }

  lemma BeginRotationSafe(s: State, next: Key, at: Time, outcome: Outcome)
    requires Inv(s) && s.mode.Down? && next !in s.owned
    ensures Inv(BeginRotation(s, next, at, outcome))
  {
    hide LogOk, SignedLocally, Authorized, IsHistory, AnswerOk, LiveOk, TransitionsOf, MakeRotation;
    var rotation := MakeRotation(s.config.name, s.key, next, at);
    var (after, entry) := Append(s.(owned := s.owned + {next}), RotationPrepared(rotation), outcome);
    RotationNames(s.config.name, s.key, next, at);
    if s.poisoned || outcome.Refused? || outcome.Lost? {
      HaltSafe(after);
    } else {
      PreparedLog(s, next, at, outcome.at);
      assert Disk(after) == s.known + [NextEntry(s.known, RotationPrepared(rotation), outcome.at)];
      if outcome.Uncertain? {
        HaltSafe(after.(mode := Rotating(rotation, false)));
      } else {
        AnswersWhileIdle(s, RotationPrepared(rotation), outcome.at);
        assert Durable(BeginRotation(s, next, at, outcome));
      }
    }
  }

  lemma RotationNames(name: string, previous: Key, next: Key, at: Time)
    ensures var c := MakeRotation(name, previous, next, at).content;
            c.previous == previous && c.next == next
  {
  }

  lemma AnswersWhileIdle(s: State, event: Event, at: Time)
    requires Durable(s) && AnswersOk(s) && Admissible(s.config.name, s.known, event)
    ensures forall a :: a in s.answers ==> AnswerOk(s.known + [NextEntry(s.known, event, at)], a)
  {
    hide AnswerOk, Admissible, SignedLocally, Authorized, IsHistory, LogOk, IndexOf;
    LoggedIsOk(s);
    forall a | a in s.answers ensures AnswerOk(s.known + [NextEntry(s.known, event, at)], a) {
      AnswerStays(s.config.name, s.known, event, at, a);
    }
  }

  lemma MoreKeys(keys: seq<Key>, next: Key, log: seq<Entry>)
    requires SignedLocally(keys, log)
    ensures SignedLocally([next] + keys, log)
  {
    forall i | 0 <= i < |log| && log[i].event.AcknowledgementIssued?
      ensures exists j :: 0 <= j < |[next] + keys| && AckVerifies(([next] + keys)[j], log[i].event.ack)
    {
      var j :| 0 <= j < |keys| && AckVerifies(keys[j], log[i].event.ack);
      assert ([next] + keys)[j + 1] == keys[j];
    }
  }

  lemma CommitRotationSafe(s: State)
    requires Inv(s) && s.mode.Rotating?
    ensures Inv(CommitRotation(s))
  {
    hide LogOk, SignedLocally, Authorized, IsHistory, AnswerOk, LiveOk, TransitionsOf;
    MoreKeys(s.keys, s.mode.rotation.content.next, Disk(s));
  }

  lemma CompleteRotationSafe(s: State, outcome: Outcome)
    requires Inv(s) && s.mode.Rotating?
    ensures Inv(CompleteRotation(s, outcome))
  {
    hide LogOk, SignedLocally, Authorized, IsHistory, AnswerOk, LiveOk, TransitionsOf, Admissible;
    if s.mode.committed {
      var c := s.mode.rotation.content;
      var event := RotationCompleted(c.previous, c.next);
      var after := Append(s, event, outcome).0;
      assert Admissible(s.config.name, s.known, event) by { CompletionIsAdmissible(s.config.name, s.known, event); }
      if s.poisoned || outcome.Refused? || outcome.Lost? {
        HaltSafe(after);
      } else {
        LogExtends(s, event, outcome.at);
        assert Disk(after) == s.known + [NextEntry(s.known, event, outcome.at)];
        if outcome.Stored? {
          AnswersWhileIdle(s, event, outcome.at);
        }
        HaltSafe(after);
      }
    }
  }

  lemma CompletionIsAdmissible(name: string, log: seq<Entry>, event: Event)
    requires event.RotationCompleted?
    ensures Admissible(name, log, event)
  {
  }

  // ----- Every run -----

  lemma ServingStepSafe(s: State, a: Action)
    requires Inv(s) && s.mode.Serving?
    ensures Inv(DoWhileServing(s, a))
  {
    match a
    case DoClaimSend(input) => ClaimSendSafe(s, input);
    case DoClaimReceive(envelope, now) => ClaimReceiveSafe(s, envelope, now);
    case DoLookupConfirm(ack, now) => LookupConfirmSafe(s, ack, now);
    case DoClaimConfirm(ack, envelope) => ClaimConfirmSafe(s, ack, envelope);
    case DoAdvance(key, choice) => if key in s.ops { AdvanceSafe(s, key, choice); }
    case DoNotice(kind, outcome) => NoticeSafe(s, kind, outcome);
    case DoClose => CloseSafe(s);
    case _ =>
  }

  lemma CloseSafe(s: State)
    requires Inv(s) && s.mode.Serving?
    ensures Inv(s.(closing := true))
  {
    hide KeyOk, AnswerOk, IndexOf, ConfirmsSent, ConfirmationLogged, LogOk, SignedLocally, Authorized;
    forall k ensures KeyOk(s.(closing := true), k) {
      InvKey(s, k);
      SameViews(s, s.(closing := true), k, k);
    }
  }

  lemma ConfigureSafe(s: State, config: Config)
    requires Inv(s) && s.mode.Down? && config.name == s.config.name
    ensures Inv(s.(config := config))
  {
    hide AnswerOk, LogOk, SignedLocally, Authorized, LiveOk, IsHistory;
  }

  lemma StepSafe(s: State, a: Action)
    requires Inv(s)
    ensures Inv(Do(s, a))
  {
    hide Inv, DoWhileServing, BeginRotation, Serve, Rebuilds, CompleteRotation, CommitRotation, Halt;
    match a
    case DoHalt => InvDurable(s); HaltSafe(s);
    case DoApprove(approval) => if approval.messageID !in s.approved { ApproveSafe(s, approval); }
    case DoCommitRotation => if s.mode.Rotating? { CommitRotationSafe(s); }
    case DoCompleteRotation(outcome) => if s.mode.Rotating? { CompleteRotationSafe(s, outcome); }
    case _ =>
      if s.mode.Serving? {
        ServingStepSafe(s, a);
      } else if s.mode.Down? {
        match a
        case DoStart => if Startable(s.config) { ServeSafe(s); }
        case DoConfigure(config) => if config.name == s.config.name { ConfigureSafe(s, config); }
        case DoBeginRotation(next, at, outcome) => if next !in s.owned { BeginRotationSafe(s, next, at, outcome); }
        case _ =>
      }
  }

  lemma {:induction false} RunSafe(config: Config, key: Key, actions: seq<Action>)
    ensures Inv(Run(Initial(config, key), actions))
  {
    if actions == [] {
      assert TransitionsOf([]) == map[];
    } else {
      RunSafe(config, key, actions[..|actions| - 1]);
      StepSafe(Run(Initial(config, key), actions[..|actions| - 1]), actions[|actions| - 1]);
    }
  }

  lemma ReachableSafe(s: State)
    requires Reachable(s)
    ensures Inv(s)
  {
    hide Inv;
    var config, key, actions :| s == Run(Initial(config, key), actions);
    RunSafe(config, key, actions);
  }

  /** Only a configuration within its limits ever serves. */
  lemma ServesStartable(s: State)
    requires Inv(s) && s.mode.Serving?
    ensures Startable(s.config)
  {
    hide Durable, AnswersOk, KeyOk, ConfirmsOk, InboxAgrees, OrderAgrees, Startable;
  }

  lemma StepStaysReachable(s: State, s': State, a: Action)
    requires Reachable(s) && s' == Do(s, a)
    ensures Reachable(s')
  {
    hide Do, Initial;
    var config, key, actions :| s == Run(Initial(config, key), actions);
    assert (actions + [a])[..|actions|] == actions;
    assert Run(Initial(config, key), actions + [a]) == Do(s, a);
  }

  lemma {:induction false} RunsCompose(s: State, a: seq<Action>, b: seq<Action>)
    ensures Run(s, a + b) == Run(Run(s, a), b)
    decreases |b|
  {
    hide Do;
    if b == [] {
      assert a + b == a;
    } else {
      RunsCompose(s, a, b[..|b| - 1]);
      assert (a + b)[..|a + b| - 1] == a + b[..|b| - 1];
    }
  }

  lemma OneStep(s: State, a: Action)
    ensures Run(s, [a]) == Do(s, a)
  {
    hide Do;
    assert [a][..0] == [];
  }

  lemma AdvanceIsDone(s: State, k: ClaimKey, c: Choice)
    requires s.mode.Serving? && k in s.ops
    ensures Do(s, DoAdvance(k, c)) == Advance(s, k, c)
  {
    hide Advance;
  }
}
