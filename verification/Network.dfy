/** Endpoints that exchange envelopes and receipts over a network that may drop,
    duplicate, reorder and replay whatever was handed out, and that may carry
    anything signed with keys that no endpoint owns. */
module Network {
  import opened Wrappers
  import opened Records
  import opened Replay
  import opened Ledger
  import opened LogTheorems
  import opened SigningHistory
  import opened Endpoint
  import opened Invariant
  import opened Steps
  import opened EvaluationSafety
  import opened RunSafety
  import opened Guarantees
  import opened Origins

  type System = map<string, State>

  // ----- What can travel -----

  ghost predicate EnvelopeHandedOut(sys: System, envelope: Envelope) {
    exists n, input, output :: n in sys && SendAnswer(input, output) in sys[n].answers && output.envelope == Some(envelope)
  }

  ghost predicate AckHandedOut(sys: System, ack: Ack) {
    exists n, envelope, output :: n in sys && ReceiveAnswer(envelope, output) in sys[n].answers && output.ack == Some(ack)
  }

  ghost predicate Owned(sys: System, key: Key) {
    exists n :: n in sys && key in sys[n].owned
  }

  /** The keys pinned for endpoints of the system are keys of theirs. */
  predicate PinsOk(sys: System, config: Config) {
    forall p :: p in config.peers && p in sys ==> config.peers[p] in sys[p].owned
  }

  /** Signatures under owned keys are not forged: what arrives under such a key was handed out. */
  ghost predicate Allowed(sys: System, a: Action) {
    match a
    case DoClaimReceive(envelope, _) => Owned(sys, envelope.signature.signer) ==> EnvelopeHandedOut(sys, envelope)
    case DoLookupConfirm(ack, _) => Owned(sys, ack.signature.signer) ==> AckHandedOut(sys, ack)
    case DoConfigure(config) => PinsOk(sys, config)
    case _ => true
  }

  ghost function Step(sys: System, n: string, a: Action): System {
    if n in sys && Allowed(sys, a) then sys[n := Do(sys[n], a)] else sys
  }

  ghost predicate IsStart(sys: System) {
    forall n :: n in sys ==> sys[n] == Initial(sys[n].config, sys[n].key) && sys[n].config.name == n && PinsOk(sys, sys[n].config)
  }

  ghost function RunFrom(sys: System, steps: seq<(string, Action)>): System {
    if steps == [] then sys
    else
      var (n, a) := steps[|steps| - 1];
      Step(RunFrom(sys, steps[..|steps| - 1]), n, a)
  }

  ghost predicate Arises(sys: System) {
    exists start, steps :: IsStart(start) && sys == RunFrom(start, steps)
  }

  // ----- The invariant of the system -----

  predicate ReleasedIn(log: seq<Entry>, envelope: Envelope) {
    exists i :: 0 <= i < |log| && log[i].event.OutboundReleased? && log[i].event.envelope == envelope
  }

  /** Envelopes whose source, if it is an endpoint here, has released them. */
  ghost function GenuineEnvelopes(sys: System): iset<Envelope> {
    iset e: Envelope | e.content.source in sys ==> ReleasedIn(Disk(sys[e.content.source]), e)
  }

  /** Receipts whose source, if it is an endpoint here, has recorded them. */
  ghost function GenuineAcks(sys: System): iset<Ack> {
    iset a: Ack | a.content.source in sys ==> AckLogged(Disk(sys[a.content.source]), a)
  }

  ghost predicate EndpointOk(sys: System, n: string)
    requires n in sys
  {
    Inv(sys[n]) && sys[n].config.name == n && PinsOk(sys, sys[n].config)
    && ComesFrom(sys[n], GenuineEnvelopes(sys), GenuineAcks(sys))
  }

  ghost predicate SystemOk(sys: System) {
    forall n :: n in sys ==> EndpointOk(sys, n)
  }

  lemma {:induction false} SentOf(name: string, log: seq<Entry>, m: string) returns (i: nat)
    requires LogOk(name, log) && m in IndexOf(0, log).box.outbox.sent
    ensures i < |log| && log[i].event.OutboundReleased? && log[i].event.envelope == IndexOf(0, log).box.outbox.sent[m]
    ensures log[i].event.meta.messageID == m
  {
    var n := |log| - 1;
    LogOkPrefix(name, log, n);
    assert EntryOk(name, log, n);
    if log[n].event.OutboundReleased? && log[n].event.envelope.content.messageID == m {
      i := n;
    } else {
      i := SentOf(name, log[..n], m);
    }
  }

  /** An envelope that was handed out was released by the endpoint it names. */
  lemma HandedOutWasReleased(sys: System, envelope: Envelope)
    requires SystemOk(sys) && EnvelopeHandedOut(sys, envelope)
    ensures envelope in GenuineEnvelopes(sys)
  {
    hide LiveOk, IndexOf, LogOk, SignedLocally, Authorized, ComesFrom, IsHistory;
    var n, input, output :| n in sys && SendAnswer(input, output) in sys[n].answers && output.envelope == Some(envelope);
    var s := sys[n];
    assert EndpointOk(sys, n) && AnswerOk(s.known, SendAnswer(input, output));
    LoggedIsOk(s);
    var i := ConclusionOf(s.config.name, s.known, SendKey(input.requestID));
    assert s.known[i].event.envelope == envelope && Disk(s)[i] == s.known[i];
    ReleaseNamesSource(s.config.name, s.known, i);
  }

  lemma ReleaseNamesSource(name: string, log: seq<Entry>, i: nat)
    requires LogOk(name, log) && i < |log| && log[i].event.OutboundReleased?
    ensures log[i].event.envelope.content.source == name
    ensures log[i].event.envelope.content.messageID == log[i].event.meta.messageID
  {
    hide IndexOf, GateOf;
    assert EntryOk(name, log, i);
  }

  /** A receipt that was handed out was recorded by the endpoint it names. */
  lemma HandedOutWasRecorded(sys: System, ack: Ack)
    requires SystemOk(sys) && AckHandedOut(sys, ack)
    ensures ack in GenuineAcks(sys)
  {
    hide LiveOk, IndexOf, LogOk, SignedLocally, Authorized, ComesFrom, IsHistory;
    var n, envelope, output :| n in sys && ReceiveAnswer(envelope, output) in sys[n].answers && output.ack == Some(ack);
    var s := sys[n];
    assert EndpointOk(sys, n) && AnswerOk(s.known, ReceiveAnswer(envelope, output));
    var i :| 0 <= i < |s.known| && s.known[i].event.AcknowledgementIssued? && s.known[i].event.ack == ack;
    assert Disk(s)[i] == s.known[i];
    LoggedIsOk(s);
    ReceiptNamesSource(s.config.name, s.known, i);
  }

  lemma ReceiptNamesSource(name: string, log: seq<Entry>, i: nat)
    requires LogOk(name, log) && i < |log| && log[i].event.AcknowledgementIssued?
    ensures log[i].event.ack.content.source == name
  {
    hide IndexOf, GateOf;
    assert EntryOk(name, log, i);
  }

  lemma GenuineGrows(sys: System, n: string, s': State)
    requires n in sys && Grows(sys[n], s')
    ensures GenuineEnvelopes(sys) <= GenuineEnvelopes(sys[n := s'])
    ensures GenuineAcks(sys) <= GenuineAcks(sys[n := s'])
  {
    hide Grows;
    forall e | e in GenuineEnvelopes(sys) ensures e in GenuineEnvelopes(sys[n := s']) {
      if e.content.source == n {
        var i :| 0 <= i < |Disk(sys[n])| && Disk(sys[n])[i].event.OutboundReleased? && Disk(sys[n])[i].event.envelope == e;
        ExtendedEntry(sys[n], s', i);
      }
    }
    forall a | a in GenuineAcks(sys) ensures a in GenuineAcks(sys[n := s']) {
      if a.content.source == n {
        var i :| 0 <= i < |Disk(sys[n])| && Disk(sys[n])[i].event.AcknowledgementIssued? && Disk(sys[n])[i].event.ack == a;
        ExtendedEntry(sys[n], s', i);
      }
    }
  }

  lemma ExtendedEntry(s: State, s': State, i: nat)
    requires Grows(s, s') && i < |Disk(s)|
    ensures i < |Disk(s')| && Disk(s')[i] == Disk(s)[i]
  {
  }

  lemma ComesFromMore(s: State, a: iset<Envelope>, b: iset<Ack>, a': iset<Envelope>, b': iset<Ack>)
    requires ComesFrom(s, a, b) && a <= a' && b <= b'
    ensures ComesFrom(s, a', b')
  {
    forall i | 0 <= i < |Disk(s)| ensures OfEvent(Disk(s)[i].event, a', b') {
      assert OfEvent(Disk(s)[i].event, a, b);
    }
    forall k | k in s.ops ensures OfOp(s.ops[k], a', b') {
      assert OfOp(s.ops[k], a, b);
    }
  }

  /** What an endpoint accepts from the network is genuine. */
  lemma AcceptedIsGenuine(sys: System, n: string, a: Action)
    requires SystemOk(sys) && n in sys && Allowed(sys, a)
    ensures a.DoClaimReceive? && ValidEnvelope(sys[n].config, a.envelope, a.now) ==> a.envelope in GenuineEnvelopes(sys)
    ensures a.DoLookupConfirm? && ValidAck(sys[n].config, a.ack, a.now) ==> a.ack in GenuineAcks(sys)
  {
    hide Inv, ComesFrom, ReleasedIn, AckLogged;
    assert EndpointOk(sys, n);
    match a
    case DoClaimReceive(envelope, now) =>
      var p := envelope.content.source;
      if ValidEnvelope(sys[n].config, envelope, now) && p in sys {
        assert sys[n].config.peers[p] in sys[p].owned;
        HandedOutWasReleased(sys, envelope);
      }
    case DoLookupConfirm(ack, now) =>
      var p := ack.content.source;
      if ValidAck(sys[n].config, ack, now) && p in sys {
        assert sys[n].config.peers[p] in sys[p].owned;
        HandedOutWasRecorded(sys, ack);
      }
    case _ =>
  }

  lemma PinsStay(sys: System, n: string, s': State, a: Action)
    requires n in sys && Allowed(sys, a) && Grows(sys[n], s') && ConfigurationFollows(sys[n], s', a)
    requires forall m :: m in sys ==> PinsOk(sys, sys[m].config)
    ensures forall m :: m in sys ==> PinsOk(sys[n := s'], sys[n := s'][m].config)
  {
    hide EnvelopeHandedOut, AckHandedOut;
    forall m | m in sys ensures PinsOk(sys[n := s'], sys[n := s'][m].config) {
      assert PinsOk(sys, sys[m].config);
      assert PinsOk(sys, sys[n := s'][m].config);
    }
  }

  lemma PinsOfSystem(sys: System)
    requires SystemOk(sys)
    ensures forall m :: m in sys ==> PinsOk(sys, sys[m].config)
  {
    hide Inv, ComesFrom, PinsOk;
    forall m | m in sys ensures PinsOk(sys, sys[m].config) {
      assert EndpointOk(sys, m);
    }
  }

  lemma DurableTail(s: State)
    requires Inv(s)
    ensures TailOk(s)
  {
    hide LogOk, SignedLocally, Authorized, AnswersOk, LiveOk, IsHistory;
  }

  lemma SystemStep(sys: System, n: string, a: Action)
    requires SystemOk(sys)
    ensures SystemOk(Step(sys, n, a))
  {
    hide Inv, ComesFrom, PinsOk, Do, Grows, ConfigurationFollows, GenuineEnvelopes, GenuineAcks, TailOk, ValidEnvelope, ValidAck;
    if n in sys && Allowed(sys, a) {
      var s, s' := sys[n], Do(sys[n], a);
      var after := sys[n := s'];
      assert EndpointOk(sys, n);
      AcceptedIsGenuine(sys, n, a);
      DurableTail(s);
      StepOrigin(s, a, GenuineEnvelopes(sys), GenuineAcks(sys));
      StepSafe(s, a);
      GenuineGrows(sys, n, s');
      PinsOfSystem(sys);
      PinsStay(sys, n, s', a);
      NameStays(s, s', a);
      forall m | m in after ensures EndpointOk(after, m) {
        assert EndpointOk(sys, m);
        ComesFromMore(after[m], GenuineEnvelopes(sys), GenuineAcks(sys), GenuineEnvelopes(after), GenuineAcks(after));
      }
    }
  }

  lemma NameStays(s: State, s': State, a: Action)
    requires ConfigurationFollows(s, s', a)
    ensures s'.config.name == s.config.name
  {
  }

  lemma {:induction false} SystemRun(start: System, steps: seq<(string, Action)>)
    requires IsStart(start)
    ensures SystemOk(RunFrom(start, steps))
  {
    hide Inv, ComesFrom, Initial;
    if steps == [] {
      forall n | n in start ensures EndpointOk(start, n) {
        RunSafe(start[n].config, start[n].key, []);
        StartsEmpty(start[n], GenuineEnvelopes(start), GenuineAcks(start));
      }
    } else {
      SystemRun(start, steps[..|steps| - 1]);
      var (n, a) := steps[|steps| - 1];
      SystemStep(RunFrom(start, steps[..|steps| - 1]), n, a);
    }
  }

  lemma StartsEmpty(s: State, envelopes: iset<Envelope>, acks: iset<Ack>)
    requires s == Initial(s.config, s.key)
    ensures ComesFrom(s, envelopes, acks)
  {
  }

  lemma ArisingSystem(sys: System, n: string)
    requires Arises(sys) && n in sys
    ensures SystemOk(sys) && EndpointOk(sys, n)
  {
    hide Inv, ComesFrom;
    var start, steps :| IsStart(start) && sys == RunFrom(start, steps);
    SystemRun(start, steps);
  }

  // ----- Agreement between endpoints -----

  /** Whatever an endpoint of the system has accepted from another one, that one has
      released: same digest, and so the same body, addressed to it, as submitted. */
  lemma AcceptedWasReleased(sys: System, n: string, i: nat) returns (j: nat)
    requires Arises(sys) && n in sys && i < |Disk(sys[n])| && Disk(sys[n])[i].event.InboundAccepted?
    requires Disk(sys[n])[i].event.meta.source in sys
    ensures var accepted := Disk(sys[n])[i].event;
            var log := Disk(sys[accepted.meta.source]);
            j < |log| && log[j].event.OutboundReleased?
            && var c := log[j].event.envelope.content;
            accepted.envelopeDigest == EnvelopeDigest(log[j].event.envelope)
            && c.messageID == accepted.meta.messageID && c.body == accepted.body && c.destination == n
            && c.conversationID == accepted.conversationID
  {
    hide LiveOk, AnswersOk, IndexOf, GateOf, SignedLocally, Authorized, IsHistory, LogOk, Arises, Inv;
    ArisingSystem(sys, n);
    ArisingLog(sys, n);
    var s := sys[n];
    AcceptanceCarries(n, Disk(s), i);
    assert OfEvent(Disk(s)[i].event, GenuineEnvelopes(sys), GenuineAcks(sys));
    var envelope := Disk(s)[i].event.envelopeDigest.envelope;
    var log := Disk(sys[envelope.content.source]);
    j :| 0 <= j < |log| && log[j].event.OutboundReleased? && log[j].event.envelope == envelope;
  }

  /** Two-endpoint agreement. Once the source has recorded a confirmation for a message,
      the destination's log holds, at the receipt's sequence and with the receipt's hash,
      the acceptance of exactly the envelope that the source released for that message. */
  lemma DeliveryAgreement(sys: System, n: string, i: nat) returns (r: nat, j: nat)
    requires Arises(sys) && n in sys && i < |Disk(sys[n])| && Disk(sys[n])[i].event.DeliveryConfirmed?
    requires Disk(sys[n])[i].event.ack.content.source in sys
    ensures var ack := Disk(sys[n])[i].event.ack.content;
            var source, destination := Disk(sys[n]), Disk(sys[ack.source]);
            && r < |source| && source[r].event.OutboundReleased?
            && j < |destination| && destination[j].event.InboundAccepted?
            && ack.sequence == j + 1 == destination[j].sequence && ack.head == destination[j].hash
            && var c, accepted := source[r].event.envelope.content, destination[j].event;
            && c.messageID == ack.messageID == Disk(sys[n])[i].event.meta.messageID == accepted.meta.messageID
            && accepted.envelopeDigest == EnvelopeDigest(source[r].event.envelope)
            && accepted.body == c.body && accepted.conversationID == c.conversationID
            && accepted.meta.source == c.source == n && accepted.meta.destination == c.destination == ack.source
  {
    hide Arises, LogOk, AckLogged;
    var ack := Disk(sys[n])[i].event.ack;
    var p := ack.content.source;
    ArisingLog(sys, n);
    ArisingLog(sys, p);
    r := ConfirmedRelease(n, Disk(sys[n]), i);
    ConfirmedReceipt(sys, n, i);
    j := LoggedReceipt(p, Disk(sys[p]), ack);
    AcceptanceCarries(p, Disk(sys[p]), j);
  }

  lemma ArisingLog(sys: System, n: string)
    requires Arises(sys) && n in sys
    ensures LogOk(n, Disk(sys[n]))
  {
    hide LiveOk, AnswersOk, IndexOf, LogOk, SignedLocally, Authorized, IsHistory, ComesFrom, Arises;
    ArisingSystem(sys, n);
  }

  /** A receipt that a source has confirmed is one that its destination recorded. */
  lemma ConfirmedReceipt(sys: System, n: string, i: nat)
    requires Arises(sys) && n in sys && i < |Disk(sys[n])| && Disk(sys[n])[i].event.DeliveryConfirmed?
    requires Disk(sys[n])[i].event.ack.content.source in sys
    ensures AckLogged(Disk(sys[Disk(sys[n])[i].event.ack.content.source]), Disk(sys[n])[i].event.ack)
  {
    hide Inv, Arises, AckLogged, ReleasedIn, OfOp;
    ArisingSystem(sys, n);
    assert OfEvent(Disk(sys[n])[i].event, GenuineEnvelopes(sys), GenuineAcks(sys));
  }

  lemma ConfirmedRelease(name: string, log: seq<Entry>, i: nat) returns (r: nat)
    requires LogOk(name, log) && i < |log| && log[i].event.DeliveryConfirmed?
    ensures r < i && log[r].event.OutboundReleased? && log[r].event.envelope.content.messageID == log[i].event.meta.messageID
    ensures log[r].event.envelope.content.source == name
    ensures var c := log[i].event.ack.content;
            c.messageID == log[i].event.meta.messageID && c.envelopeDigest == EnvelopeDigest(log[r].event.envelope)
            && c.source == log[r].event.envelope.content.destination
  {
    hide IndexOf, GateOf;
    assert EntryOk(name, log, i);
    LogOkPrefix(name, log, i);
    r := SentOf(name, log[..i], log[i].event.meta.messageID);
    assert log[..i][r] == log[r];
    ReleaseNamesSource(name, log, r);
  }

  lemma AcceptanceCarries(name: string, log: seq<Entry>, j: nat)
    requires LogOk(name, log) && j < |log| && log[j].event.InboundAccepted?
    ensures log[j].sequence == j + 1
    ensures var e := log[j].event; Carries(name, e.meta, e.requestID, e.conversationID, e.body, e.envelopeDigest)
  {
    hide IndexOf, GateOf, Carries;
    assert EntryOk(name, log, j);
  }
}
