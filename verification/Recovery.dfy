/** What the next process will find when the log on disk holds an entry whose append
    reported a failure. */
module Recovery {
  import opened Wrappers
  import opened Text
  import opened Records
  import opened Replay
  import opened Ledger
  import opened LogTheorems
  import opened SigningHistory
  import opened Endpoint
  import opened Invariant
  import opened Steps
  import opened EvaluationSafety
  import opened RunSafety
  import opened Guarantees
  import opened Sections
  import opened Executions

  /** The event changes nothing in the maps when they are rebuilt: it is about a verdict, an
      approval or a key, denies an inbound message, or verifies an envelope seen before. */
  predicate LeavesMapsAlone(intake: Intake, event: Event) {
    match event
    case DeterministicGuard(_, _, _) => true
    case ModelGuard(_, _, _, _, _) => true
    case GuardFailed(_, _) => true
    case ApprovalRequired(_, _) => true
    case ApprovalConsumed(_, _) => true
    case MessageBlocked(meta, _, _) => meta.direction == Inbound
    case InboundVerified(meta, _, _, _, _) => meta.messageID in intake.seenInbound
    case RotationPrepared(_) => true
    case RotationCompleted(_, _) => true
    case Notice(_) => true
    case _ => false
  }

  /** Replaying the log on disk is replaying the reported entries and then the tail. */
  lemma DiskReplay(s: State)
    requires Reachable(s)
    ensures s.tail == [] ==> IndexOf(s.key, Disk(s)) == IndexOf(s.key, s.known)
    ensures s.tail != [] ==> |s.tail| == 1 && IndexOf(s.key, Disk(s)) == Apply(s.key, IndexOf(s.key, s.known), s.tail[0])
  {
    hide Reachable, LogOk, SignedLocally, Authorized, AnswersOk, LiveOk, KeysOk, RotationOk, IndexOf, Apply;
    ReachableSafe(s);
    if s.tail == [] {
      assert Disk(s) == s.known;
    } else {
      assert s.tail == [s.tail[0]];
      IndexOfSnoc(s.key, s.known, s.tail[0]);
    }
  }

  /** No record refers to an entry after the end of the log. */
  lemma {:induction false} RecordsAreEarlier(key: Key, name: string, log: seq<Entry>)
    requires LogOk(name, log)
    ensures forall m :: m in IndexOf(key, log).box.intake.received ==> IndexOf(key, log).box.intake.received[m].output.sequence <= |log|
    ensures forall m :: m in IndexOf(key, log).box.outbox.confirmed ==> IndexOf(key, log).box.outbox.confirmed[m].sequence <= |log|
  {
    hide Admissible, ReasonOf, AckVerifies, ApplyDecisions;
    if log != [] {
      var n := |log| - 1;
      LogOkPrefix(name, log, n);
      RecordsAreEarlier(key, name, log[..n]);
      assert EntryOk(name, log, n);
    }
  }

  lemma TailIsAdmissible(s: State)
    requires Durable(s) && s.tail != []
    ensures Admissible(s.config.name, s.known, s.tail[0].event)
    ensures s.tail[0] == NextEntry(s.known, s.tail[0].event, s.tail[0].at)
  {
    hide SignedLocally, Authorized, KeysOk, AdmissibleAt, IndexOf, GateOf, NextEntry;
    var n := |s.known|;
    assert EntryOk(s.config.name, Disk(s), n);
    assert Disk(s)[..n] == s.known && Disk(s)[n] == s.tail[0];
  }

  lemma OutboxChanges(name: string, box: Mailbox, gate: Gate, decisions: map<Scope, Verdict>, entry: Entry)
    requires AdmissibleAt(name, box, gate, entry.event) && RequestsOk(box.outbox)
    requires forall m :: m in box.outbox.confirmed ==> box.outbox.confirmed[m].sequence < entry.sequence
    requires !LeavesMapsAlone(box.intake, entry.event)
    requires !entry.event.InboundAccepted? && !entry.event.AcknowledgementIssued? && !entry.event.InboundVerified?
    ensures var after := ApplyOutbox(box.outbox, decisions, entry);
            after.confirmed != box.outbox.confirmed
            || exists k :: Lookup(after.requests, k) != Lookup(box.outbox.requests, k)
  {
    var e := entry.event;
    var after := ApplyOutbox(box.outbox, decisions, entry);
    if e.DeliveryConfirmed? {
      var m := e.meta.messageID;
      assert m in after.confirmed && after.confirmed[m].sequence == entry.sequence;
    } else {
      var k := SendKey(e.requestID);
      assert Lookup(after.requests, k) != Lookup(box.outbox.requests, k);
    }
  }

  lemma IntakeChanges(name: string, key: Key, box: Mailbox, gate: Gate, decisions: map<Scope, Verdict>, entry: Entry)
    requires AdmissibleAt(name, box, gate, entry.event)
    requires forall m :: m in box.intake.received ==> box.intake.received[m].output.sequence < entry.sequence
    requires !LeavesMapsAlone(box.intake, entry.event)
    requires entry.event.InboundAccepted? || entry.event.AcknowledgementIssued? || entry.event.InboundVerified?
    ensures var after := ApplyIntake(key, box.intake, decisions, entry);
            after.received != box.intake.received || after.seenInbound != box.intake.seenInbound
  {
    var m := entry.event.meta.messageID;
    var after := ApplyIntake(key, box.intake, decisions, entry);
    assert m in after.received || m in after.seenInbound;
    if entry.event.AcknowledgementIssued? {
      assert after.received[m].output.sequence == entry.sequence;
    }
  }

  lemma QuietStep(name: string, key: Key, index: Index, gate: Gate, entry: Entry)
    requires AdmissibleAt(name, index.box, gate, entry.event) && LeavesMapsAlone(index.box.intake, entry.event)
    ensures Apply(key, index, entry).box == index.box
  {
  }

  /** The condition for an append reads nothing that depends on the key of the index. */
  lemma AdmissibleUnderKey(name: string, a: Mailbox, b: Mailbox, gate: Gate, event: Event)
    requires AdmissibleAt(name, a, gate, event) && b.outbox == a.outbox && SameButReceipts(b.intake, a.intake)
    ensures AdmissibleAt(name, b, gate, event)
  {
    hide Opens, Denies, EnvelopeFits, Carries;
  }

  /** What replaying the tail changes, for a state that agrees with the entries before it. */
  lemma TailDecides(s: State, index: Index, gate: Gate, entry: Entry)
    requires Agrees(s, index.box) && AdmissibleAt(s.config.name, index.box, gate, entry.event) && RequestsOk(index.box.outbox)
    requires forall m :: m in index.box.intake.received ==> index.box.intake.received[m].output.sequence < entry.sequence
    requires forall m :: m in index.box.outbox.confirmed ==> index.box.outbox.confirmed[m].sequence < entry.sequence
    ensures Agrees(s, Apply(s.key, index, entry).box) <==> LeavesMapsAlone(s.box.intake, entry.event)
  {
    hide AdmissibleAt, RequestsOk, ApplyOutbox, ApplyIntake, ApplyDecisions, LeavesMapsAlone, Observable;
    assert LeavesMapsAlone(s.box.intake, entry.event) == LeavesMapsAlone(index.box.intake, entry.event) by {
      SeenDecides(s.box.intake, index.box.intake, entry.event);
    }
    var e := entry.event;
    if LeavesMapsAlone(index.box.intake, e) {
      QuietStep(s.config.name, s.key, index, gate, entry);
    } else if e.InboundAccepted? || e.AcknowledgementIssued? || e.InboundVerified? {
      IntakeChanges(s.config.name, s.key, index.box, gate, index.decisions, entry);
    } else {
      OutboxChanges(s.config.name, index.box, gate, index.decisions, entry);
    }
  }

  lemma SeenDecides(a: Intake, b: Intake, event: Event)
    requires a.seenInbound == b.seenInbound
    ensures LeavesMapsAlone(a, event) == LeavesMapsAlone(b, event)
  {
  }

  lemma NextSequence(log: seq<Entry>, event: Event, at: Time)
    ensures NextEntry(log, event, at).sequence == |log| + 1
  {
  }

  /** With no operation under way, the maps are what the next process will rebuild from the
      log on disk if and only if no append that reported a failure is on disk after all, or
      its event leaves the maps alone. */
  lemma DurableAgreement(s: State)
    requires Reachable(s) && s.mode.Serving? && s.ops == map[]
    ensures Agrees(s, IndexOf(s.key, Disk(s)).box) <==> s.tail == [] || LeavesMapsAlone(s.box.intake, s.tail[0].event)
  {
    hide Reachable, Agrees, IndexOf, Apply, Admissible, LeavesMapsAlone, NextEntry, Disk, RequestsOk, Inv, LogOk, SameButReceipts, IntakeOk;
    ReplayAgreement(s);
    DiskReplay(s);
    if s.tail != [] {
      ReachableSafe(s);
      InvDurable(s);
      TailIsAdmissible(s);
      NextSequence(s.known, s.tail[0].event, s.tail[0].at);
      LoggedIsOk(s);
      RecordsAreEarlier(s.key, s.config.name, s.known);
      TailIsAdmissibleHere(s);
      TailDecides(s, IndexOf(s.key, s.known), GateOf(s.known, EventScope(s.tail[0].event)), s.tail[0]);
    }
  }

  lemma TailIsAdmissibleHere(s: State)
    requires Durable(s) && s.tail != []
    ensures AdmissibleAt(s.config.name, IndexOf(s.key, s.known).box, GateOf(s.known, EventScope(s.tail[0].event)), s.tail[0].event)
    ensures RequestsOk(IndexOf(s.key, s.known).box.outbox)
  {
    hide Durable, AdmissibleAt, IndexOf, GateOf, NextEntry, LogOk, IntakeOk, RequestsOk, SentOk, FinalsOk, SameButReceipts;
    TailIsAdmissible(s);
    LoggedIsOk(s);
    AdmissibleUnderKey(s.config.name, IndexOf(0, s.known).box, IndexOf(s.key, s.known).box,
                       GateOf(s.known, EventScope(s.tail[0].event)), s.tail[0].event);
  }

  /** Such a state is in reach: an append of a submission reports a failure and is durable. */
  lemma Diverges(config: Config, key: Key, peer: string) returns (s: State)
    requires Startable(config) && peer in config.peers && ValidIdentifier(peer)
    ensures Reachable(s) && s.mode.Serving? && s.ops == map[] && s.config == config
    ensures !Agrees(s, IndexOf(s.key, Disk(s)).box)
  {
    hide Reachable, Do, Advance, FreshID, ClaimStatus, ValidInput, Agrees, Startable, IndexOf, ValidIdentifier, Beside;
    var input := SendInput(peer, "x", "r", "c");
    var k, c := SendKey("r"), Good(0, "m").(outcome := Uncertain(0));
    var s0 := Starts(config, key);
    StartsClean(s0, "m", input);
    IdleGrants(s0, k, Binding(input));
    SendClaimed(s0, input);
    var s1 := Grant(s0, k, Binding(input), SendLookup(input));
    StepStaysReachable(s0, s1, DoClaimSend(input));
    LookupSteps(s1, k, c, input);
    var s2 := Advance(s1, k, c);
    Takes(s1, k, c, s2);
    SubmitSteps(s2, k, c, input);
    var s3 := Advance(s2, k, c);
    Takes(s2, k, c, s3);
    s := Ends(s3, k);
    assert s.ops == map[];
    DurableAgreement(s);
  }
}
