/** When a message that is confirmed can be confirmed again. */
module Confirmations {
  import opened Wrappers
  import opened Text
  import opened Records
  import opened Replay
  import opened Ledger
  import opened SigningHistory
  import opened Endpoint
  import opened Invariant
  import opened Steps
  import opened Progress
  import opened Origins
  import opened EvaluationSafety
  import opened ProcessSafety
  import opened RunSafety
  import opened Guarantees
  import opened Lifecycle
  import opened Sections
  import opened Executions

  predicate Confirms(event: Event, m: string) {
    event.DeliveryConfirmed? && event.meta.messageID == m
  }

  /** The confirmations of a message in a log. */
  function Confirmations(log: seq<Entry>, m: string): nat {
    if log == [] then 0 else Confirmations(log[..|log| - 1], m) + if Confirms(log[|log| - 1].event, m) then 1 else 0
  }

  lemma ConfirmationsSnoc(log: seq<Entry>, e: Entry, m: string)
    ensures Confirmations(log + [e], m) == Confirmations(log, m) + if Confirms(e.event, m) then 1 else 0
  {
    assert (log + [e])[..|log|] == log;
  }

  // ----- The condition -----

  /** Some call has looked up the message and found no confirmation, and has not claimed yet. */
  ghost predicate LookedUp(s: State, m: string) {
    exists p :: p in s.looked && p.0.content.messageID == m
  }

  /** Some call holds the claim and is about to append. */
  ghost predicate AtAppend(s: State, m: string) {
    exists k :: k in s.ops && s.ops[k].ConfirmAppend? && s.ops[k].ack.content.messageID == m
  }

  /** The log of the process still takes entries, and a call that looked the message up
      before it was confirmed is about to append, or may still be admitted. */
  ghost predicate MayRepeat(s: State, m: string) {
    s.mode.Serving? && !s.poisoned && (AtAppend(s, m) || (!s.closing && LookedUp(s, m)))
  }

  ghost predicate Recorded(s: State, m: string) {
    exists i :: 0 <= i < |Disk(s)| && Confirms(Disk(s)[i].event, m)
  }

  /** The message is confirmed for good. */
  ghost predicate Over(s: State, m: string) {
    Recorded(s, m) && (s.mode.Serving? ==> m in s.box.outbox.confirmed && !MayRepeat(s, m))
  }

  // ----- It is over where the condition fails -----

  ghost function OtherAcks(m: string): iset<Ack> {
    iset a: Ack | a.content.messageID != m
  }

  /** At most one entry was added, and none that confirms `m`. */
  ghost predicate Quietly(s: State, s': State, m: string) {
    Disk(s) <= Disk(s') && |Disk(s')| <= |Disk(s)| + 1
    && (|Disk(s')| == |Disk(s)| + 1 ==> !Confirms(Disk(s')[|Disk(s)|].event, m))
  }

  lemma QuietCounts(s: State, s': State, m: string)
    requires Quietly(s, s', m)
    ensures Confirmations(Disk(s'), m) == Confirmations(Disk(s), m)
    ensures Recorded(s, m) ==> Recorded(s', m)
  {
    hide Disk;
    if |Disk(s')| == |Disk(s)| + 1 {
      assert Disk(s') == Disk(s) + [Disk(s')[|Disk(s)|]];
      ConfirmationsSnoc(Disk(s), Disk(s')[|Disk(s)|], m);
    } else {
      assert Disk(s') == Disk(s);
    }
    if Recorded(s, m) {
      var i :| 0 <= i < |Disk(s)| && Confirms(Disk(s)[i].event, m);
      assert Disk(s')[i] == Disk(s)[i];
    }
  }

  /** What serving keeps of a message that is over. */
  ghost predicate Finished(s: State, s': State, m: string) {
    Quietly(s, s', m) && s'.mode == s.mode && m in s'.box.outbox.confirmed && !MayRepeat(s', m)
  }

  lemma AdvanceOver(s: State, k: ClaimKey, c: Choice, m: string)
    requires TailOk(s) && s.mode.Serving? && k in s.ops && !s.ops[k].Done? && m in s.box.outbox.confirmed && !MayRepeat(s, m)
    ensures Finished(s, Advance(s, k, c), m)
  {
    hide Advance, Disk, EnvelopeOf, TailOk;
    var s' := Advance(s, k, c);
    if s.poisoned {
      AdvanceMoves(s, k, c, Everything(), AllAcks());
    } else {
      assert OfOp(s.ops[k], Everything(), OtherAcks(m));
      AdvanceMoves(s, k, c, Everything(), OtherAcks(m));
      MovedNotAtAppend(s, s', k, m);
    }
  }

  lemma MovedNotAtAppend(s: State, s': State, k: ClaimKey, m: string)
    requires Moves(s, s', k, Everything(), OtherAcks(m)) && !AtAppend(s, m)
    ensures !AtAppend(s', m)
  {
    hide Disk, EnvelopeOf;
  }

  lemma ReleaseOver(s: State, k: ClaimKey, m: string)
    requires s.mode.Serving? && k in s.ops && s.ops[k].Done? && m in s.box.outbox.confirmed && !MayRepeat(s, m)
    ensures Finished(s, Release(s, k), m)
  {
    assert Disk(Release(s, k)) == Disk(s);
  }

  lemma GrantOver(s: State, k: ClaimKey, binding: Digest, op: Op, m: string)
    requires s.mode.Serving? && m in s.box.outbox.confirmed && !MayRepeat(s, m)
    requires !s.poisoned && op.ConfirmAppend? ==> op.ack.content.messageID != m
    ensures Finished(s, Grant(s, k, binding, op), m)
  {
    var s' := Grant(s, k, binding, op);
    assert Disk(s') == Disk(s);
  }

  lemma LookupOver(s: State, ack: Ack, now: Time, m: string)
    requires s.mode.Serving? && m in s.box.outbox.confirmed && !MayRepeat(s, m)
    ensures Finished(s, LookupConfirm(s, ack, now), m)
  {
    hide ValidAck, LookupConfirm, Disk;
    LookupAdds(s, ack, now);
    SameDisk(s, LookupConfirm(s, ack, now));
  }

  lemma FewerLookupsOver(s: State, s': State, m: string)
    requires s.mode.Serving? && m in s.box.outbox.confirmed && !MayRepeat(s, m)
    requires s' == s.(looked := s'.looked, answers := s'.answers) && s'.looked <= s.looked
    ensures Finished(s, s', m)
  {
    assert Disk(s') == Disk(s);
  }

  lemma ClaimConfirmOver(s: State, ack: Ack, envelope: Envelope, m: string)
    requires s.mode.Serving? && m in s.box.outbox.confirmed && !MayRepeat(s, m)
    ensures Finished(s, ClaimConfirm(s, ack, envelope), m)
  {
    hide MayRepeat, Finished, Grant;
    FewerLookupsOver(s, s, m);
    if (ack, envelope) in s.looked {
      var after := s.(looked := s.looked - multiset{(ack, envelope)});
      FewerLookupsOver(s, after, m);
      ClosedOrOther(s, ack, envelope, m);
      if ack.content.messageID != m || s.poisoned {
        OverTransfers(s, after, m);
        GrantOver(after, ConfirmKey(ack.content.messageID), ack.content.envelopeDigest, ConfirmAppend(ack, envelope), m);
        FinishedTogether(s, after, Grant(after, ConfirmKey(ack.content.messageID), ack.content.envelopeDigest, ConfirmAppend(ack, envelope)), m);
      }
    }
  }

  lemma ClosedOrOther(s: State, ack: Ack, envelope: Envelope, m: string)
    requires !MayRepeat(s, m) && s.mode.Serving? && (ack, envelope) in s.looked
    ensures s.closing || s.poisoned || ack.content.messageID != m
  {
  }

  lemma OverTransfers(s: State, s': State, m: string)
    requires Finished(s, s', m)
    ensures s'.mode == s.mode && m in s'.box.outbox.confirmed && !MayRepeat(s', m)
  {
  }

  lemma FinishedTogether(s: State, s': State, s'': State, m: string)
    requires Finished(s, s', m) && Finished(s', s'', m) && Disk(s') == Disk(s)
    ensures Finished(s, s'', m)
  {
  }

  lemma PlainAppendOver(s: State, event: Event, outcome: Outcome, m: string)
    requires TailOk(s) && s.mode.Serving? && m in s.box.outbox.confirmed && !MayRepeat(s, m) && !event.DeliveryConfirmed?
    ensures Finished(s, Append(s, event, outcome).0, m)
  {
    AppendsQuietly(s, event, outcome, m);
  }

  lemma AppendsQuietly(s: State, event: Event, outcome: Outcome, m: string)
    requires TailOk(s) && !event.DeliveryConfirmed?
    ensures Quietly(s, Append(s, event, outcome).0, m)
  {
    var s' := Append(s, event, outcome).0;
    if s.poisoned || outcome.Refused? || outcome.Lost? {
      assert Disk(s') == Disk(s);
    } else {
      assert Disk(s') == Disk(s) + [NextEntry(s.known, event, outcome.at)];
    }
  }

  /** No step of a serving process brings back a message that is over. */
  lemma ServingStepOver(s: State, a: Action, m: string)
    requires TailOk(s) && s.mode.Serving? && m in s.box.outbox.confirmed && !MayRepeat(s, m)
    ensures Finished(s, DoWhileServing(s, a), m)
  {
    hide MayRepeat, Finished, Advance, Append, ClaimConfirm, LookupConfirm, Grant, ValidInput, ValidEnvelope, ClaimStatus, TailOk;
    FewerLookupsOver(s, s, m);
    match a
    case DoClaimSend(input) =>
      GrantOver(s, SendKey(input.requestID), Binding(input), SendLookup(input), m);
      FewerLookupsOver(s, s.(answers := ClaimSend(s, input).answers), m);
    case DoClaimReceive(envelope, now) =>
      GrantOver(s, ReceiveKey(envelope.content.messageID), EnvelopeDigest(envelope), ReceiveLookup(envelope), m);
    case DoLookupConfirm(ack, now) => LookupOver(s, ack, now, m);
    case DoClaimConfirm(ack, envelope) => ClaimConfirmOver(s, ack, envelope, m);
    case DoAdvance(k, c) =>
      if k in s.ops {
        AdvanceOrReleaseOver(s, k, c, m);
      }
    case DoNotice(kind, outcome) => PlainAppendOver(s, Notice(kind), outcome, m);
    case DoClose => CloseOver(s, m);
    case _ =>
  }

  lemma AdvanceOrReleaseOver(s: State, k: ClaimKey, c: Choice, m: string)
    requires TailOk(s) && s.mode.Serving? && k in s.ops && m in s.box.outbox.confirmed && !MayRepeat(s, m)
    ensures Finished(s, Advance(s, k, c), m)
  {
    if s.ops[k].Done? {
      hide MayRepeat, Finished, SendStep, EvaluationStep, FinalizeStep, ReceiveStep, ConfirmStep, Release;
      ReleaseOver(s, k, m);
    } else {
      hide MayRepeat, Finished, Advance, TailOk;
      AdvanceOver(s, k, c, m);
    }
  }

  lemma CloseOver(s: State, m: string)
    requires s.mode.Serving? && m in s.box.outbox.confirmed && !MayRepeat(s, m)
    ensures Finished(s, s.(closing := true), m)
  {
    assert Disk(s.(closing := true)) == Disk(s);
  }

  lemma BeginOver(s: State, next: Key, at: Time, outcome: Outcome, m: string)
    requires TailOk(s)
    ensures Quietly(s, BeginRotation(s, next, at, outcome), m) && !BeginRotation(s, next, at, outcome).mode.Serving?
  {
    hide Append, MakeRotation, TailOk, Quietly, Disk;
    var mine := s.(owned := s.owned + {next});
    var event := RotationPrepared(MakeRotation(s.config.name, s.key, next, at));
    SameTail(s, mine);
    AppendsQuietly(mine, event, outcome, m);
    var after := Append(mine, event, outcome).0;
    HaltKeepsDisk(after);
    SameDisk(after, after.(mode := BeginRotation(s, next, at, outcome).mode));
    OnlyDiskMatters(mine, Append(mine, event, outcome).0, s, BeginRotation(s, next, at, outcome), m);
  }

  lemma CompleteOver(s: State, outcome: Outcome, m: string)
    requires TailOk(s) && s.mode.Rotating?
    ensures Quietly(s, CompleteRotation(s, outcome), m) && !CompleteRotation(s, outcome).mode.Serving?
  {
    hide Append, TailOk, Quietly, Halt, Disk;
    SameIsQuiet(s, m);
    if s.mode.committed {
      var c := s.mode.rotation.content;
      var after := Append(s, RotationCompleted(c.previous, c.next), outcome).0;
      AppendsQuietly(s, RotationCompleted(c.previous, c.next), outcome, m);
      HaltKeepsDisk(after);
      OnlyDiskMatters(s, after, s, Halt(after), m);
    }
  }

  lemma OnlyDiskMatters(s: State, s': State, t: State, t': State, m: string)
    requires Quietly(s, s', m) && Disk(t) == Disk(s) && Disk(t') == Disk(s')
    ensures Quietly(t, t', m)
  {
    hide Disk;
  }

  /** No step while no process serves does either. */
  lemma IdleStepOver(s: State, a: Action, m: string)
    requires TailOk(s) && !s.mode.Serving? && !(s.mode.Down? && a.DoStart?)
    ensures Quietly(s, Do(s, a), m) && !Do(s, a).mode.Serving?
  {
    hide BeginRotation, CompleteRotation, Rebuilds, Startable, TailOk, Quietly, Halt, Disk, DoWhileServing;
    SameIsQuiet(s, m);
    match a
    case DoBeginRotation(next, at, outcome) => BeginOver(s, next, at, outcome, m);
    case DoCompleteRotation(outcome) => if s.mode.Rotating? { CompleteOver(s, outcome, m); }
    case DoHalt =>
      HaltKeepsDisk(s);
      OnlyDiskMatters(s, s, s, Halt(s), m);
    case _ =>
      SameDisk(s, Do(s, a));
      OnlyDiskMatters(s, s, s, Do(s, a), m);
  }

  lemma HaltKeepsDisk(s: State)
    ensures Disk(Halt(s)) == Disk(s) && !Halt(s).mode.Serving?
  {
  }

  /** Every recorded confirmation is in the rebuilt map. */
  lemma {:induction false} RecordedIsRebuilt(key: Key, log: seq<Entry>, i: nat, m: string)
    requires i < |log| && Confirms(log[i].event, m)
    ensures m in IndexOf(key, log).box.outbox.confirmed
    decreases |log|
  {
    hide ApplyIntake, ApplyDecisions;
    var n := |log| - 1;
    if i < n {
      RecordedIsRebuilt(key, log[..n], i, m);
    }
  }

  lemma StartOver(s: State, m: string)
    requires Idles(s) && s.mode.Down? && TailOk(s) && Recorded(s, m)
    ensures Quietly(s, Serve(s), m) && m in Serve(s).box.outbox.confirmed && !MayRepeat(s, m) && !MayRepeat(Serve(s), m)
  {
    hide IndexOf;
    assert Disk(Serve(s)) == Disk(s) == s.known;
    var i :| 0 <= i < |Disk(s)| && Confirms(Disk(s)[i].event, m);
    RecordedIsRebuilt(s.key, s.known, i, m);
  }

  /** A message that is over stays over, and nothing confirms it again. */
  lemma StepOver(s: State, a: Action, m: string)
    requires Inv(s) && Over(s, m)
    ensures Over(Do(s, a), m) && Confirmations(Disk(Do(s, a)), m) == Confirmations(Disk(s), m)
  {
    hide Durable, AnswersOk, LiveOk, RotationOk, Quietly, Finished, MayRepeat, Recorded, Disk, Serve, Halt, DoWhileServing, TailOk,
         Idles, BeginRotation, CommitRotation, CompleteRotation, Rebuilds, Startable;
    TailOfDurable(s);
    var s' := Do(s, a);
    if s.mode.Serving? && !a.DoHalt? && !a.DoApprove? && !a.DoCommitRotation? && !a.DoCompleteRotation? {
      ServingStepOver(s, a, m);
      FinishedFacts(s, s', m);
    } else if s.mode.Serving? {
      PausedOver(s, a, m);
    } else if s.mode.Down? && a.DoStart? {
      if Startable(s.config) && Rebuilds(s) {
        StartOver(s, m);
        Served(s);
      } else {
        SameIsQuiet(s, m);
      }
    } else {
      IdleStepOver(s, a, m);
    }
    QuietCounts(s, s', m);
  }

  lemma Served(s: State)
    ensures Serve(s).mode.Serving?
  {
  }

  lemma SameIsQuiet(s: State, m: string)
    ensures Quietly(s, s, m)
  {
  }

  lemma PausedOver(s: State, a: Action, m: string)
    requires s.mode.Serving? && m in s.box.outbox.confirmed && !MayRepeat(s, m)
    requires a.DoHalt? || a.DoApprove? || a.DoCommitRotation? || a.DoCompleteRotation?
    ensures Quietly(s, Do(s, a), m)
    ensures Do(s, a).mode.Serving? ==> m in Do(s, a).box.outbox.confirmed && !MayRepeat(Do(s, a), m)
  {
    assert Disk(Do(s, a)) == Disk(s);
  }

  lemma FinishedFacts(s: State, s': State, m: string)
    requires Finished(s, s', m)
    ensures Quietly(s, s', m) && m in s'.box.outbox.confirmed && !MayRepeat(s', m)
  {
  }

  lemma {:induction false} RunOver(s: State, actions: seq<Action>, m: string)
    requires Inv(s) && Over(s, m)
    ensures Inv(Run(s, actions)) && Over(Run(s, actions), m)
    ensures Confirmations(Disk(Run(s, actions)), m) == Confirmations(Disk(s), m)
  {
    hide Inv, Over, Do, Disk;
    if actions != [] {
      var n := |actions| - 1;
      RunOver(s, actions[..n], m);
      StepSafe(Run(s, actions[..n]), actions[n]);
      StepOver(Run(s, actions[..n]), actions[n], m);
    }
  }

  /** A confirmation in memory is one in the log. */
  lemma ConfirmedIsRecorded(s: State, m: string)
    requires Inv(s) && s.mode.Serving? && m in s.box.outbox.confirmed
    ensures Recorded(s, m)
  {
    hide Durable, AnswersOk, KeyOk, InboxAgrees, OrderAgrees, ClaimsOk, LookupsOk, IndexOf, RotationOk;
    assert ConfirmationLogged(s.known, m, s.box.outbox.confirmed[m]);
    var i :| 0 <= i < |s.known| && s.known[i].event.DeliveryConfirmed? && s.known[i].event.meta.messageID == m;
    assert Disk(s)[i] == s.known[i];
  }

  // ----- It can happen again where the condition holds -----

  /** What draining a process by refused appends leaves as it was. */
  predicate SameButOps(s: State, t: State) {
    t.known == s.known && t.tail == s.tail && t.poisoned == s.poisoned && t.looked == s.looked && t.closing == s.closing
    && t.mode == s.mode && t.config == s.config
  }

  lemma RefusedSection(s: State, s': State, k: ClaimKey, c: Choice)
    requires k in s.ops && Section(s, s', k, c) && c.outcome == Refused
    ensures SameButOps(s, s')
  {
    hide Emits, Continues, Answers, Misplaced;
  }

  lemma RefusedStep(s: State, k: ClaimKey, c: Choice)
    requires k in s.ops && c.outcome == Refused
    ensures SameButOps(s, Advance(s, k, c))
  {
    if s.ops[k].Done? {
      hide SendStep, EvaluationStep, FinalizeStep, ReceiveStep, ConfirmStep;
    } else {
      hide Advance, Section, SameButOps;
      AdvanceIsSection(s, k, c);
      RefusedSection(s, Advance(s, k, c), k, c);
    }
  }

  /** All operations of a serving process can be brought to their end without a trace. */
  lemma {:induction false} Drains(s: State) returns (actions: seq<Action>)
    requires Reachable(s) && s.mode.Serving?
    ensures var t := Run(s, actions); Reachable(t) && SameButOps(s, t) && t.ops == map[]
    decreases Work(s.ops)
  {
    hide Reachable, Work, Advance, Do, Nearer, SameButOps;
    if s.ops == map[] {
      actions := [];
      SameAsItself(s);
    } else {
      var k :| k in s.ops;
      var c := Choice(Refused, "", Allow, "allowed", "model", false);
      NeverStuck(s, k, c);
      RefusedStep(s, k, c);
      AdvanceIsDone(s, k, c);
      var s' := Advance(s, k, c);
      StepStaysReachable(s, s', DoAdvance(k, c));
      SameMode(s, s');
      var rest := Drains(s');
      actions := [DoAdvance(k, c)] + rest;
      RunsCompose(s, [DoAdvance(k, c)], rest);
      OneStep(s, DoAdvance(k, c));
      SameTogether(s, s', Run(s', rest));
    }
  }

  lemma SameAsItself(s: State)
    ensures SameButOps(s, s)
  {
  }

  lemma SameMode(s: State, t: State)
    requires SameButOps(s, t)
    ensures t.mode == s.mode
  {
  }

  lemma SameTogether(s: State, t: State, u: State)
    requires SameButOps(s, t) && SameButOps(t, u)
    ensures SameButOps(s, u)
  {
  }

  lemma ConfirmSteps(s: State, k: ClaimKey, c: Choice, ack: Ack, sent: Envelope)
    requires k in s.ops && s.ops[k] == ConfirmAppend(ack, sent)
    ensures var m := ack.content.messageID;
            var event := DeliveryConfirmed(Meta(Outbound, sent.content.source, sent.content.destination, m), ack);
            var e := Written(s, event, c.outcome);
            Advance(s, k, c) == AppendThen(s, k, event, c.outcome, ConfirmStore(ack, ConfirmOutput(m, e.sequence, e.hash)))
  {
    hide Release, SendStep, EvaluationStep, FinalizeStep, ReceiveStep, Append, AppendThen, Written;
  }

  lemma OneMoreConfirmation(s: State, t: State, event: Event, at: Time, m: string)
    requires Reachable(s) && !s.poisoned && t.known == s.known + [NextEntry(s.known, event, at)] && t.tail == s.tail && Confirms(event, m)
    ensures Confirmations(Disk(t), m) == Confirmations(Disk(s), m) + 1
  {
    hide Reachable, Confirmations;
    NoTail(s);
    assert Disk(s) == s.known && Disk(t) == t.known;
    ConfirmationsSnoc(s.known, NextEntry(s.known, event, at), m);
  }

  lemma NextIsLast(log: seq<Entry>, event: Event, at: Time)
    ensures var e, longer := NextEntry(log, event, at), log + [NextEntry(log, event, at)];
            e.sequence == |longer| && e == longer[|longer| - 1]
  {
  }

  /** A call that is about to append can append. */
  lemma AppendsAgain(s: State, k: ClaimKey, at: Time) returns (t: State)
    requires Reachable(s) && s.mode.Serving? && !s.poisoned && k in s.ops && s.ops[k].ConfirmAppend?
    ensures Reachable(t) && t == Do(s, DoAdvance(k, Good(at, ""))) && Beside(s, t, k) && t.box == s.box
    ensures var m := s.ops[k].ack.content.messageID;
            t.known != [] && Confirmations(Disk(t), m) == Confirmations(Disk(s), m) + 1
            && t.ops[k] == ConfirmStore(s.ops[k].ack, ConfirmOutput(m, |t.known|, t.known[|t.known| - 1].hash))
  {
    hide Reachable, Advance, Do, AppendThen, Written, Confirmations, Disk, NextEntry;
    var c, ack, sent := Good(at, ""), s.ops[k].ack, s.ops[k].sent;
    var m := ack.content.messageID;
    var event := DeliveryConfirmed(Meta(Outbound, sent.content.source, sent.content.destination, m), ack);
    var e := NextEntry(s.known, event, at);
    ConfirmSteps(s, k, c, ack, sent);
    Stores(s, k, event, at, ConfirmStore(ack, ConfirmOutput(m, e.sequence, e.hash)));
    NextIsLast(s.known, event, at);
    t := Advance(s, k, c);
    Takes(s, k, c, t);
    OneMoreConfirmation(s, t, event, at, m);
  }

  lemma NoTail(s: State)
    requires Reachable(s) && !s.poisoned
    ensures s.tail == []
  {
    hide Reachable, LogOk, SignedLocally, Authorized, AnswersOk, LiveOk, IsHistory, KeysOk, RotationOk;
    ReachableSafe(s);
  }

  /** With nothing claimed, a call that has looked the message up is admitted. */
  lemma AdmitsAgain(s: State, ack: Ack, envelope: Envelope) returns (t: State)
    requires Reachable(s) && s.mode.Serving? && !s.closing && s.ops == map[] && (ack, envelope) in s.looked
    ensures Reachable(t) && t == Do(s, DoClaimConfirm(ack, envelope)) && t.mode == s.mode && t.poisoned == s.poisoned
    ensures Disk(t) == Disk(s) && t.box == s.box && t.closing == s.closing && t.config == s.config
    ensures t.looked == s.looked - multiset{(ack, envelope)}
    ensures t.ops == map[ConfirmKey(ack.content.messageID) := ConfirmAppend(ack, envelope)]
  {
    hide Reachable, Do, ClaimStatus;
    var k := ConfirmKey(ack.content.messageID);
    PlacesLeft(s);
    FreeGrants(s, k, ack.content.envelopeDigest);
    ConfirmClaimed(s, ack, envelope);
    t := Do(s, DoClaimConfirm(ack, envelope));
    StepStaysReachable(s, t, DoClaimConfirm(ack, envelope));
  }

  lemma PlacesLeft(s: State)
    requires Reachable(s) && s.mode.Serving? && s.ops == map[]
    ensures s.active == map[] && s.semaphore == 0 < s.config.maxConcurrent
  {
    hide Reachable, Durable, AnswersOk, KeyOk, ConfirmsOk, InboxAgrees, OrderAgrees;
    ReachableSafe(s);
    assert s.active.Keys == {};
  }

  ghost predicate ConfirmedAgain(s: State, actions: seq<Action>, m: string) {
    Confirmations(Disk(Run(s, actions)), m) > Confirmations(Disk(s), m)
  }

  lemma CanRepeat(s: State, m: string) returns (actions: seq<Action>)
    requires Reachable(s) && MayRepeat(s, m)
    ensures ConfirmedAgain(s, actions, m)
  {
    hide Reachable, Do, Confirmations, Disk, Beside;
    if AtAppend(s, m) {
      var k :| k in s.ops && s.ops[k].ConfirmAppend? && s.ops[k].ack.content.messageID == m;
      var t := AppendsAgain(s, k, 0);
      actions := [DoAdvance(k, Good(0, ""))];
      OneStep(s, actions[0]);
    } else {
      var p :| p in s.looked && p.0.content.messageID == m;
      var drain := Drains(s);
      var t := Run(s, drain);
      DrainedFacts(s, t);
      var u := AdmitsAgain(t, p.0, p.1);
      var k := ConfirmKey(m);
      var v := AppendsAgain(u, k, 0);
      actions := drain + [DoClaimConfirm(p.0, p.1)] + [DoAdvance(k, Good(0, ""))];
      RunsCompose(s, drain, [DoClaimConfirm(p.0, p.1)]);
      OneStep(t, DoClaimConfirm(p.0, p.1));
      RunsCompose(s, drain + [DoClaimConfirm(p.0, p.1)], [DoAdvance(k, Good(0, ""))]);
      OneStep(u, DoAdvance(k, Good(0, "")));
    }
  }

  lemma DrainedFacts(s: State, t: State)
    requires SameButOps(s, t)
    ensures t.mode == s.mode && t.closing == s.closing && t.poisoned == s.poisoned && t.looked == s.looked && Disk(t) == Disk(s)
  {
  }

  /** A message that is confirmed can ever be confirmed again if and only if the process
      that serves now still writes its log, and in it a call that looked the message up
      before the confirmation was stored is about to append, or waits for its claim while
      the process is not shutting down. A lookup made afterwards, or after a restart,
      never leads to a second confirmation. */
  lemma RepeatsExactlyIf(s: State, m: string)
    requires Reachable(s) && s.mode.Serving? && m in s.box.outbox.confirmed
    ensures (exists actions :: ConfirmedAgain(s, actions, m)) <==> MayRepeat(s, m)
  {
    hide Reachable, Inv, MayRepeat, Run, Disk;
    ReachableSafe(s);
    if MayRepeat(s, m) {
      var actions := CanRepeat(s, m);
      assert ConfirmedAgain(s, actions, m);
    } else {
      ConfirmedIsRecorded(s, m);
      forall actions ensures !ConfirmedAgain(s, actions, m) {
        RunOver(s, actions, m);
      }
    }
  }

  // ----- A message that is confirmed twice -----

  /** A valid receipt of a sent message that is not confirmed yet is looked up. */
  lemma LooksUp(s: State, ack: Ack, now: Time) returns (t: State)
    requires Reachable(s) && s.mode.Serving? && ValidAck(s.config, ack, now)
    requires var m := ack.content.messageID;
             && m in s.box.outbox.sent && m !in s.box.outbox.confirmed
             && ConfirmsSent(s.box.outbox.sent, ack, s.box.outbox.sent[m])
    ensures Reachable(t) && t == s.(looked := s.looked + multiset{(ack, s.box.outbox.sent[ack.content.messageID])})
  {
    hide Reachable, ValidAck;
    t := LookupConfirm(s, ack, now);
    StepStaysReachable(s, t, DoLookupConfirm(ack, now));
  }

  /** A call that has looked the message up confirms it. */
  lemma ConfirmsNow(s: State, ack: Ack, envelope: Envelope) returns (t: State)
    requires Reachable(s) && s.mode.Serving? && !s.closing && !s.poisoned && s.ops == map[] && (ack, envelope) in s.looked
    ensures Reachable(t) && t.mode.Serving? && !t.closing && !t.poisoned && t.ops == map[] && t.config == s.config
    ensures t.looked == s.looked - multiset{(ack, envelope)}
    ensures Confirmations(Disk(t), ack.content.messageID) == Confirmations(Disk(s), ack.content.messageID) + 1
  {
    hide Reachable, Do, Advance, Confirmations;
    var k, c := ConfirmKey(ack.content.messageID), Good(0, "");
    var s1 := AdmitsAgain(s, ack, envelope);
    var s2 := AppendsAgain(s1, k, 0);
    OutboxSteps(s2, k, c);
    var s3 := Advance(s2, k, c);
    Takes(s2, k, c, s3);
    t := Ends(s3, k);
    assert Disk(t) == Disk(s2) && t.ops == map[];
  }

  /** Wherever a message can be sent at all, its delivery can be confirmed twice. */
  lemma ConfirmedTwice(config: Config, key: Key, peer: string) returns (s: State, m: string)
    requires Startable(config) && peer in config.peers && ValidIdentifier(peer)
    ensures Reachable(s) && s.config == config && Confirmations(Disk(s), m) >= 2
  {
    hide Reachable, Confirmations, Disk, Startable, ClaimStatus;
    m := "m";
    var input := SendInput(peer, "x", "r", "c");
    var s0 := Starts(config, key);
    StartsClean(s0, m, input);
    var s1, envelope := SendCanSucceed(s0, input, m, 0);
    var ack := SignAck(config.peers[peer], UnsignedAck(1, m, peer, config.name, EnvelopeDigest(envelope), 0, 1, Genesis));
    ReceiptIsValid(config, ack, peer, envelope);
    var s2 := LooksUp(s1, ack, 0);
    var s3 := LooksUp(s2, ack, 0);
    var s4 := ConfirmsNow(s3, ack, envelope);
    s := ConfirmsNow(s4, ack, envelope);
  }

  lemma ReceiptIsValid(config: Config, ack: Ack, peer: string, envelope: Envelope)
    requires Startable(config) && peer in config.peers && ValidIdentifier(peer)
    requires ack == SignAck(config.peers[peer], UnsignedAck(1, "m", peer, config.name, EnvelopeDigest(envelope), 0, 1, Genesis))
    ensures ValidAck(config, ack, 0)
  {
  }
}
