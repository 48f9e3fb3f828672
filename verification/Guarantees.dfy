/** What holds of one endpoint in every reachable state: after any interleaving of
    operations, any outcome of its appends and guards, and any crashes, restarts,
    approvals and key rotations. */
module Guarantees {
  import opened Wrappers
  import opened Text
  import opened Records
  import opened Replay
  import opened Ledger
  import opened LogTheorems
  import opened SigningHistory
  import opened Endpoint
  import opened Invariant
  import opened Steps
  import opened EvaluationSafety
  import opened RunSafety

  // ----- Live state and reconstruction -----

  lemma {:induction false} SameElementsSameMultiset(a: seq<Message>, b: seq<Message>)
    requires DistinctMessages(a) && DistinctMessages(b)
    requires forall m :: m in a <==> m in b
    ensures multiset(a) == multiset(b)
  {
    forall m ensures multiset(a)[m] == multiset(b)[m] {
      CountsOnce(a, m);
      CountsOnce(b, m);
    }
  }

  lemma {:induction false} CountsOnce(a: seq<Message>, m: Message)
    requires DistinctMessages(a)
    ensures multiset(a)[m] == if m in a then 1 else 0
  {
    if a != [] {
      var n := |a| - 1;
      CountsOnce(a[..n], m);
      assert a == a[..n] + [a[n]];
      assert a[n] !in a[..n];
    }
  }

  /** The maps agree with the reconstruction, apart from outputs that nothing reads. */
  ghost predicate OutboxAgrees(live: Outbox, rebuilt: Outbox) {
    && (forall k :: Observable(Lookup(live.requests, k)) == Lookup(rebuilt.requests, k))
    && live.sent == rebuilt.sent
    && live.confirmed == rebuilt.confirmed
  }

  lemma QuietRequests(s: State, k: ClaimKey)
    requires KeyOk(s, k) && s.ops == map[] && RequestsOk(LoggedOutbox(s))
    ensures Observable(Lookup(s.box.outbox.requests, k)) == Lookup(LoggedOutbox(s).requests, k)
    ensures k in LoggedOutbox(s).requests ==>
              var m := LoggedOutbox(s).requests[k].messageID;
              Lookup(s.box.outbox.sent, m) == Lookup(LoggedOutbox(s).sent, m)
  {
    hide IndexOf, GateOf;
  }

  lemma QuietIntake(s: State, m: string)
    requires KeyOk(s, ReceiveKey(m)) && s.ops == map[]
    ensures Lookup(s.box.intake.received, m) == Lookup(LoggedIntake(s).received, m)
    ensures Lookup(s.box.intake.seenInbound, m) == Lookup(LoggedIntake(s).seenInbound, m)
  {
    hide IndexOf, GateOf;
  }

  lemma QuietConfirmations(s: State, m: string)
    requires KeyOk(s, ConfirmKey(m)) && s.ops == map[]
    ensures Lookup(s.box.outbox.confirmed, m) == Lookup(LoggedOutbox(s).confirmed, m)
  {
    hide IndexOf, GateOf;
  }

  lemma SameLookups<K, V>(a: map<K, V>, b: map<K, V>)
    requires forall k :: k in a || k in b ==> Lookup(a, k) == Lookup(b, k)
    ensures a == b
  {
    forall k | k in a ensures k in b && b[k] == a[k] {
      assert Lookup(a, k) == Lookup(b, k);
    }
    forall k | k in b ensures k in a {
      assert Lookup(a, k) == Lookup(b, k);
    }
  }

  lemma QuietSent(s: State)
    requires Inv(s) && s.mode.Serving? && s.ops == map[]
    ensures s.box.outbox.sent == LoggedOutbox(s).sent
  {
    hide KeyOk, LogOk, SignedLocally, Authorized, AnswersOk, IndexOf, ConfirmationLogged, ConfirmsSent, FinalsOk, RequestsOk, IntakeOk,
         InboxAgrees, OrderAgrees, SameButReceipts, ClaimsOk;
    LoggedIsOk(s);
    forall m | m in s.box.outbox.sent || m in LoggedOutbox(s).sent
      ensures Lookup(s.box.outbox.sent, m) == Lookup(LoggedOutbox(s).sent, m)
    {
      if m in LoggedOutbox(s).sent {
        var k := SendKey(LoggedOutbox(s).sent[m].content.requestID);
        InvKey(s, k);
        QuietRequests(s, k);
      }
    }
    SameLookups(s.box.outbox.sent, LoggedOutbox(s).sent);
  }

  /** The maps are what a reconstruction has yielded: requests (up to outputs that are not
      final), sent and received messages, seen envelopes, confirmations, and the inbox as a
      multiset; with one operation at a time, the inbox as a sequence. */
  ghost predicate Agrees(s: State, rebuilt: Mailbox) {
    && OutboxAgrees(s.box.outbox, rebuilt.outbox)
    && s.box.intake.received == rebuilt.intake.received
    && s.box.intake.seenInbound == rebuilt.intake.seenInbound
    && multiset(s.box.intake.inbox) == multiset(rebuilt.intake.inbox)
    && (s.config.maxConcurrent == 1 ==> s.box.intake.inbox == rebuilt.intake.inbox)
  }

  /** With no operation under way, the maps are exactly what a reconstruction from the
      entries whose append was reported would yield. These are the whole log on disk, unless
      an append has failed in this process. */
  lemma ReplayAgreement(s: State)
    requires Reachable(s) && s.mode.Serving? && s.ops == map[]
    ensures Agrees(s, IndexOf(s.key, s.known).box)
    ensures !s.poisoned ==> s.known == Disk(s)
  {
    hide KeyOk, LogOk, SignedLocally, Authorized, AnswersOk, IndexOf, ConfirmsOk, SentOk, FinalsOk, SameButReceipts, ClaimsOk, Reachable;
    ReachableSafe(s);
    QuietSent(s);
    QuietOutbox(s);
    QuietInbox(s);
    LoggedIsOk(s);
    forall m ensures Lookup(s.box.intake.received, m) == Lookup(LoggedIntake(s).received, m)
      ensures Lookup(s.box.intake.seenInbound, m) == Lookup(LoggedIntake(s).seenInbound, m)
    {
      InvKey(s, ReceiveKey(m));
      QuietIntake(s, m);
    }
    SameLookups(s.box.intake.received, LoggedIntake(s).received);
    SameLookups(s.box.intake.seenInbound, LoggedIntake(s).seenInbound);
  }

  lemma QuietOutbox(s: State)
    requires Inv(s) && s.mode.Serving? && s.ops == map[]
    ensures forall k :: Observable(Lookup(s.box.outbox.requests, k)) == Lookup(LoggedOutbox(s).requests, k)
    ensures s.box.outbox.confirmed == LoggedOutbox(s).confirmed
  {
    hide KeyOk, LogOk, SignedLocally, Authorized, AnswersOk, IndexOf, ConfirmsOk, SentOk, FinalsOk, SameButReceipts, ClaimsOk,
         InboxAgrees, OrderAgrees, IntakeOk;
    LoggedIsOk(s);
    forall k ensures Observable(Lookup(s.box.outbox.requests, k)) == Lookup(LoggedOutbox(s).requests, k) {
      InvKey(s, k);
      QuietRequests(s, k);
    }
    forall m ensures Lookup(s.box.outbox.confirmed, m) == Lookup(LoggedOutbox(s).confirmed, m) {
      InvKey(s, ConfirmKey(m));
      QuietConfirmations(s, m);
    }
    SameLookups(s.box.outbox.confirmed, LoggedOutbox(s).confirmed);
  }

  lemma QuietInbox(s: State)
    requires Inv(s) && s.mode.Serving? && s.ops == map[]
    ensures multiset(s.box.intake.inbox) == multiset(LoggedIntake(s).inbox)
    ensures s.config.maxConcurrent == 1 ==> s.box.intake.inbox == LoggedIntake(s).inbox
  {
    hide KeyOk, LogOk, SignedLocally, Authorized, AnswersOk, IndexOf, ConfirmsOk, OutboxOk, SameButReceipts, ClaimsOk;
    LoggedIsOk(s);
    SameElementsSameMultiset(s.box.intake.inbox, LoggedIntake(s).inbox);
  }

  /** In every reachable state the reconstruction from the log on disk succeeds, and
      the keys it accepts receipts under are exactly those the endpoint has used. */
  lemma RebuildAlwaysSucceeds(s: State)
    requires Reachable(s)
    ensures Rebuilds(s)
    ensures IsHistory(s.config.name, TransitionsOf(Disk(s)), s.keys) && s.keys[0] == s.key
    ensures SignedLocally(s.keys, Disk(s))
  {
    hide LogOk, SignedLocally, Authorized, AnswersOk, LiveOk, IsPath, Reachable;
    ReachableSafe(s);
    RebuildNeverFails(s);
  }

  /** As many claims as occupied places, and never more than configured. */
  lemma ClaimsAreBounded(s: State)
    requires Reachable(s)
    ensures s.mode.Serving? ==> s.active.Keys == s.ops.Keys && |s.active| == s.semaphore <= s.config.maxConcurrent
  {
    hide Durable, AnswersOk, KeyOk, ConfirmsOk, InboxAgrees, OrderAgrees, Reachable;
    ReachableSafe(s);
    assert |s.active| == |s.active.Keys| && |s.ops| == |s.ops.Keys|;
  }

  /** With one operation at a time the inbox is in the order of the log, in every state. */
  lemma InboxAscends(s: State)
    requires Reachable(s) && s.mode.Serving? && s.config.maxConcurrent == 1
    ensures Ascending(s.box.intake.inbox)
  {
    hide Reachable, KeyOk, LogOk, SignedLocally, Authorized, AnswersOk, IndexOf, ConfirmsOk, OutboxOk, SameButReceipts, ClaimsOk, InboxAgrees;
    ReachableSafe(s);
    LoggedIsOk(s);
    PrefixAscends(s.box.intake.inbox, LoggedIntake(s).inbox);
  }

  lemma PrefixAscends(a: seq<Message>, b: seq<Message>)
    requires Ascending(b)
    ensures a <= b ==> Ascending(a)
  {
  }

  // ----- Answers -----

  predicate IsFinal(output: SendOutput) {
    output.status == Released || output.status == Status.Denied
  }

  /** Over a whole run, crashes included, a request ID gets one final answer, for one
      destination, conversation and text; and any envelope is part of that answer. */
  lemma OneFinalAnswer(s: State, input: SendInput, output: SendOutput, input': SendInput, output': SendOutput)
    requires Reachable(s)
    requires SendAnswer(input, output) in s.answers && SendAnswer(input', output') in s.answers
    requires input.requestID == input'.requestID
    requires IsFinal(output) || output.envelope.Some?
    requires IsFinal(output') || output'.envelope.Some?
    ensures output == output' && input == input'
  {
    hide Durable, LiveOk, IndexOf, Reachable;
    ReachableSafe(s);
    assert AnswerOk(s.known, SendAnswer(input, output)) && AnswerOk(s.known, SendAnswer(input', output'));
    BindingIsInjective(input.destination, input.conversationID, input.text, input'.destination, input'.conversationID, input'.text);
  }

  /** A request whose submission was reported cannot be taken up with any other triple,
      not even while its own submission has not reached the maps yet. */
  lemma ReportedTripleStands(s: State, input: SendInput)
    requires Reachable(s) && s.mode.Serving?
    requires Lookup(LoggedOutbox(s).requests, SendKey(input.requestID)).Some?
    requires LoggedOutbox(s).requests[SendKey(input.requestID)].hash != Binding(input)
    ensures ClaimSend(s, input) == s
  {
    hide Durable, AnswersOk, ConfirmsOk, InboxAgrees, OrderAgrees, Reachable, IndexOf, GateOf, EvaluationOk;
    ReachableSafe(s);
    var key := SendKey(input.requestID);
    InvKey(s, key);
    if key !in s.box.outbox.requests {
      assert SendViewOf(s, key).live == None;
      assert key in s.ops && key in s.active;
    }
  }

  /** The log on disk holds the request under another triple. */
  predicate TakenOnDisk(s: State, input: SendInput) {
    var requests := IndexOf(0, Disk(s)).box.outbox.requests;
    SendKey(input.requestID) in requests && requests[SendKey(input.requestID)].hash != Binding(input)
  }

  lemma ReportedIsOnDisk(s: State, key: ClaimKey)
    requires Durable(s) && key in LoggedOutbox(s).requests
    ensures var requests := IndexOf(0, Disk(s)).box.outbox.requests;
            key in requests && requests[key].hash == LoggedOutbox(s).requests[key].hash
  {
    hide LogOk, SignedLocally, Authorized, KeysOk, IndexOf, IntakeGrows;
    assert Disk(s)[..|s.known|] == s.known && Disk(s)[..|Disk(s)|] == Disk(s);
    IndexGrows(s.config.name, Disk(s), |s.known|, |Disk(s)|);
  }

  lemma OnlyTailIsUnreported(s: State)
    requires Durable(s)
    ensures Disk(s) == s.known || s.poisoned
  {
    hide LogOk, SignedLocally, Authorized, KeysOk;
    if s.tail == [] {
      assert Disk(s) == s.known;
    }
  }

  /** A request whose submission is on disk cannot be taken up with any other triple. Only
      if the append of that submission has reported a failure, a claim may still be granted;
      then this process appends nothing any more. */
  lemma OtherTripleIsRefused(s: State, input: SendInput)
    requires Reachable(s) && s.mode.Serving? && TakenOnDisk(s, input)
    ensures ClaimSend(s, input) == s
            || (SendKey(input.requestID) !in LoggedOutbox(s).requests
                && forall event, outcome :: Append(s, event, outcome) == (s, None))
  {
    hide Durable, LiveOk, AnswersOk, Reachable, IndexOf, ClaimSend;
    ReachableSafe(s);
    var key := SendKey(input.requestID);
    if key in LoggedOutbox(s).requests {
      ReportedIsOnDisk(s, key);
      ReportedTripleStands(s, input);
    } else {
      OnlyTailIsUnreported(s);
    }
  }

  /** A final answer reports the one event that concluded its request. */
  lemma {:induction false} ConclusionOf(name: string, log: seq<Entry>, key: ClaimKey) returns (i: nat)
    requires LogOk(name, log) && key in IndexOf(0, log).box.outbox.requests && IndexOf(0, log).box.outbox.requests[key].final
    ensures key.SendKey? && i < |log| && Concludes(log[i].event, key.requestID)
    ensures var output := IndexOf(0, log).box.outbox.requests[key].output;
            output.Some? && output.value.sequence == log[i].sequence == i + 1 && output.value.head == log[i].hash
            && output.value.messageID == log[i].event.meta.messageID
            && (log[i].event.OutboundReleased? ==> output.value.envelope == Some(log[i].event.envelope))
            && (log[i].event.MessageBlocked? ==> output.value.envelope == None)
  {
    var n := |log| - 1;
    LogOkPrefix(name, log, n);
    assert EntryOk(name, log, n);
    if (log[n].event.OutboundReleased? || (log[n].event.MessageBlocked? && log[n].event.meta.direction == Outbound))
       && key == SendKey(log[n].event.requestID) {
      i := n;
    } else {
      i := ConclusionOf(name, log[..n], key);
    }
  }

  lemma AnswerHasConclusion(s: State, input: SendInput, output: SendOutput) returns (i: nat)
    requires Reachable(s) && SendAnswer(input, output) in s.answers && IsFinal(output)
    ensures i < |s.known| && Concludes(s.known[i].event, input.requestID)
    ensures output.sequence == i + 1 && output.head == s.known[i].hash
    ensures s.known[i].event.OutboundReleased? ==> output.envelope == Some(s.known[i].event.envelope)
    ensures output.envelope.Some? ==> s.known[i].event.OutboundReleased?
  {
    hide LiveOk, IndexOf, Reachable, LogOk, SignedLocally, Authorized;
    ReachableSafe(s);
    assert AnswerOk(s.known, SendAnswer(input, output));
    LoggedIsOk(s);
    i := ConclusionOf(s.config.name, s.known, SendKey(input.requestID));
  }

  /** All receipts given out for a message, before and after any rotation, state the
      same acceptance; each was recorded before it was given out. */
  lemma ReceiptsAreStable(s: State, envelope: Envelope, output: ReceiveOutput, envelope': Envelope, output': ReceiveOutput)
    requires Reachable(s)
    requires ReceiveAnswer(envelope, output) in s.answers && ReceiveAnswer(envelope', output') in s.answers
    requires output.ack.Some? && output'.ack.Some?
    requires output.ack.value.content.messageID == output'.ack.value.content.messageID
    ensures output.ack.value.content == output'.ack.value.content && envelope == envelope'
  {
    hide LiveOk, IndexOf, Reachable, LogOk, SignedLocally, Authorized;
    ReachableSafe(s);
    LoggedIsOk(s);
    assert AnswerOk(s.known, ReceiveAnswer(envelope, output)) && AnswerOk(s.known, ReceiveAnswer(envelope', output'));
    var i := LoggedReceipt(s.config.name, s.known, output.ack.value);
    var j := LoggedReceipt(s.config.name, s.known, output'.ack.value);
    SameAcceptanceEntry(s.config.name, s.known, i, j);
  }

  /** The receipt states entry `i` of the log, an acceptance of the message it is about. */
  predicate ReceiptNames(name: string, log: seq<Entry>, i: nat, content: UnsignedAck) {
    i < |log| && log[i].event.InboundAccepted?
    && var e := log[i].event;
    e.meta.messageID == content.messageID
    && content == UnsignedAck(1, e.meta.messageID, name, e.meta.source, e.envelopeDigest, log[i].at, i + 1, log[i].hash)
  }

  lemma LoggedReceipt(name: string, log: seq<Entry>, ack: Ack) returns (i: nat)
    requires LogOk(name, log) && AckLogged(log, ack)
    ensures ReceiptNames(name, log, i, ack.content)
  {
    hide AdmissibleAt, IndexOf;
    var j :| 0 <= j < |log| && log[j].event.AcknowledgementIssued? && log[j].event.ack == ack;
    assert EntryOk(name, log, j);
    LogOkPrefix(name, log, j);
    IssuedFacts(name, IndexOf(0, log[..j]).box, GateOf(log[..j], EventScope(log[j].event)), log[j].event);
    i := AcceptanceOf(name, log[..j], log[j].event.meta.messageID);
    assert log[..j][i] == log[i];
    ReceiptNamesAcceptance(name, log, i, j);
  }

  lemma SameAcceptanceEntry(name: string, log: seq<Entry>, i: nat, j: nat)
    requires LogOk(name, log) && i < |log| && j < |log|
    requires log[i].event.InboundAccepted? && log[j].event.InboundAccepted?
    requires log[i].event.meta.messageID == log[j].event.meta.messageID
    ensures i == j
  {
    if i != j {
      AcceptedOnce(name, log, if i < j then i else j, if i < j then j else i);
      assert false;
    }
  }

  /** Whatever crossed on a review, in either direction, was approved by the operator
      for exactly its message ID, direction, endpoints and body. */
  lemma ReviewsWereApproved(s: State, i: nat)
    requires Reachable(s) && i < |Disk(s)|
    ensures EventAuthorized(s.approved, Disk(s)[i].event)
  {
    hide LiveOk, AnswersOk, LogOk, SignedLocally, Reachable;
    ReachableSafe(s);
  }

  /** Every log on disk satisfies the log theorems. */
  lemma LogIsAlwaysOk(s: State)
    requires Reachable(s)
    ensures LogOk(s.config.name, Disk(s))
  {
    hide LiveOk, AnswersOk, LogOk, SignedLocally, Reachable;
    ReachableSafe(s);
  }
}
