/** Paging through the inbox of a reachable endpoint. */
module InboxReading {
  import opened Wrappers
  import opened Text
  import opened Records
  import opened Replay
  import opened Ledger
  import opened LogTheorems
  import opened SigningHistory
  import opened Endpoint
  import opened Invariant
  import opened Steps
  import opened Origins
  import opened EvaluationSafety
  import opened RunSafety
  import opened Guarantees
  import InboxPaging

  // ----- What is accepted -----

  /** An envelope that some configuration of the endpoint called `name` can admit. */
  predicate Decent(name: string, e: Envelope) {
    var c := e.content;
    && c.version == 1 && c.destination == name
    && ValidIdentifier(c.messageID) && ValidIdentifier(c.requestID) && ValidIdentifier(c.conversationID) && ValidIdentifier(c.source)
    && ValidText(c.body, MAX_MESSAGE_BYTES) && c.bodyDigest == TextDigest(c.body)
    && c.sourceSequence != 0 && c.sourceHead != NoDigest
    && !Blank(c.policyVersion) && ByteLength(c.policyVersion) <= 128 && !Blank(c.guardModel) && ByteLength(c.guardModel) <= 128
    && (c.guardDecision == Allow || c.guardDecision == ReviewApproved)
    && EnvelopeVerifies(e.signature.signer, e)
  }

  ghost function DecentOnes(name: string): iset<Envelope> {
    iset e: Envelope | Decent(name, e)
  }

  /** A receipt that some configuration of the endpoint called `name` can admit. */
  predicate DecentAck(name: string, ack: Ack) {
    var c := ack.content;
    && c.version == 1 && c.destination == name && ValidIdentifier(c.messageID) && ValidIdentifier(c.source)
    && c.envelopeDigest != NoDigest && c.sequence != 0 && c.head != NoDigest
    && AckVerifies(ack.signature.signer, ack)
  }

  ghost function DecentAcks(name: string): iset<Ack> {
    iset ack: Ack | DecentAck(name, ack)
  }

  lemma ValidIsDecent(config: Config, e: Envelope, now: Time)
    requires Startable(config) && ValidEnvelope(config, e, now)
    ensures Decent(config.name, e)
  {
    hide ValidIdentifier, Blank;
  }

  lemma ValidAckIsDecent(config: Config, ack: Ack, now: Time)
    requires ValidAck(config, ack, now)
    ensures DecentAck(config.name, ack)
  {
    hide ValidIdentifier;
  }

  lemma OtherwiseNothing(s: State, a: Action)
    requires !s.mode.Serving? && a.DoClaimReceive?
    ensures Do(s, a) == s
  {
  }

  lemma SameName(s: State, a: Action)
    requires ConfigurationFollows(s, Do(s, a), a)
    ensures Do(s, a).config.name == s.config.name
  {
  }

  lemma {:induction false} RunIsDecent(config: Config, key: Key, actions: seq<Action>)
    ensures var s := Run(Initial(config, key), actions);
            s.config.name == config.name && ComesFrom(s, DecentOnes(config.name), DecentAcks(config.name))
  {
    hide Inv, ComesFrom, Do, ValidEnvelope, ValidAck, ConfigurationFollows, Grows, TailOk, Startable;
    if actions == [] {
      NothingComes(config, key);
    } else {
      var n := |actions| - 1;
      var s, a := Run(Initial(config, key), actions[..n]), actions[n];
      RunIsDecent(config, key, actions[..n]);
      RunSafe(config, key, actions[..n]);
      TailOfDurable(s);
      if a.DoClaimReceive? && !s.mode.Serving? {
        OtherwiseNothing(s, a);
      } else {
        if a.DoClaimReceive? && ValidEnvelope(s.config, a.envelope, a.now) {
          ServesStartable(s);
          ValidIsDecent(s.config, a.envelope, a.now);
        }
        if a.DoLookupConfirm? && ValidAck(s.config, a.ack, a.now) {
          ValidAckIsDecent(s.config, a.ack, a.now);
        }
        StepOrigin(s, a, DecentOnes(config.name), DecentAcks(config.name));
        SameName(s, a);
      }
    }
  }

  lemma NothingComes(config: Config, key: Key)
    ensures ComesFrom(Initial(config, key), DecentOnes(config.name), DecentAcks(config.name))
  {
  }

  /** Everything that was ever accepted passed all checks that do not depend on the time, and
      so did every receipt that was confirmed. */
  lemma InboundIsDecent(s: State, i: nat)
    requires Reachable(s) && i < |Disk(s)|
    ensures var e := Disk(s)[i].event;
            && (e.InboundAccepted? || e.InboundVerified? ==>
                  e.envelopeDigest.EnvelopeDigest? ==> Decent(s.config.name, e.envelopeDigest.envelope))
            && (e.DeliveryConfirmed? ==> DecentAck(s.config.name, e.ack))
  {
    hide Do, Initial, OfOp, Decent, DecentAck;
    var config, key, actions :| s == Run(Initial(config, key), actions);
    RunIsDecent(config, key, actions);
    assert OfEvent(Disk(s)[i].event, DecentOnes(config.name), DecentAcks(config.name));
  }

  // ----- What is shown -----

  /** How digests and times are shown. */
  datatype Show = Show(digest: Digest -> string, time: Time -> string)

  predicate Plain(text: string) {
    forall i :: 0 <= i < |text| ==> IdentifierChar(text[i])
  }

  /** Sixty-four hexadecimal digits, and a timestamp in UTC. */
  predicate ShowsWell(show: Show, m: Message) {
    |show.digest(m.bodyDigest)| == 64 && Plain(show.digest(m.bodyDigest))
    && |show.time(m.receivedAt)| <= 35 && Plain(show.time(m.receivedAt))
  }

  function Shown(show: Show, m: Message): InboxPaging.Message {
    InboxPaging.Message(m.messageID, m.conversationID, m.source, m.destination, m.body, show.digest(m.bodyDigest),
                        show.time(m.receivedAt), m.sequence)
  }

  function ShownInbox(show: Show, inbox: seq<Message>): seq<InboxPaging.Message> {
    seq(|inbox|, i requires 0 <= i < |inbox| => Shown(show, inbox[i]))
  }

  lemma AcceptedIsLegal(name: string, show: Show, box: Mailbox, gate: Gate, entry: Entry)
    requires entry.event.InboundAccepted? && AdmissibleAt(name, box, gate, entry.event) && ValidIdentifier(name)
    requires OfEvent(entry.event, DecentOnes(name), DecentAcks(name))
    requires ShowsWell(show, AcceptedMessage(entry)) && 0 < entry.sequence <= InboxPaging.MAX_SEQUENCE
    ensures InboxPaging.Legal(Shown(show, AcceptedMessage(entry)))
  {
    hide ValidIdentifier, ValidText, IdentifierChar, Opens;
    assert Decent(name, entry.event.envelopeDigest.envelope);
  }

  lemma {:induction false} EntryOfMessage(log: seq<Entry>, m: Message) returns (i: nat)
    requires m in AcceptedMessages(log)
    ensures i < |log| && log[i].event.InboundAccepted? && m == AcceptedMessage(log[i])
  {
    var n := |log| - 1;
    if log[n].event.InboundAccepted? && m == AcceptedMessage(log[n]) {
      i := n;
    } else {
      i := EntryOfMessage(log[..n], m);
    }
  }

  lemma LiveIsLogged(s: State, m: Message)
    requires Inv(s) && s.mode.Serving? && m in s.box.intake.inbox
    ensures m in AcceptedMessages(s.known) && LogOk(s.config.name, s.known)
  {
    hide KeyOk, LogOk, SignedLocally, Authorized, AnswersOk, IndexOf, ConfirmsOk, OutboxOk, SameButReceipts, ClaimsOk, AcceptedMessages,
         OrderAgrees;
    LoggedIsOk(s);
    InboxIsExact(s.config.name, s.key, s.known);
  }

  lemma EverythingIsDecent(s: State, i: nat)
    requires Reachable(s) && i < |s.known|
    ensures OfEvent(s.known[i].event, DecentOnes(s.config.name), DecentAcks(s.config.name))
  {
    hide OfEvent, Do, Initial, OfOp;
    var config, key, actions :| s == Run(Initial(config, key), actions);
    RunIsDecent(config, key, actions);
    assert Disk(s)[i] == s.known[i];
  }

  /** Every message in a reachable inbox has legal identifiers and a body within the
      protocol's bound, so that it fits into an output. */
  lemma InboxIsLegal(s: State, show: Show, m: Message)
    requires Reachable(s) && s.mode.Serving? && m in s.box.intake.inbox
    requires ValidIdentifier(s.config.name) && ShowsWell(show, m) && |s.known| <= InboxPaging.MAX_SEQUENCE
    ensures InboxPaging.Legal(Shown(show, m))
  {
    hide Reachable, Inv, ValidIdentifier, ShowsWell, AcceptedMessages, AdmissibleAt, IndexOf, GateOf, OfEvent, InboxPaging.Legal, DecentOnes;
    ReachableSafe(s);
    LiveIsLogged(s, m);
    var i := EntryOfMessage(s.known, m);
    assert EntryOk(s.config.name, s.known, i);
    EverythingIsDecent(s, i);
    AcceptedIsLegal(s.config.name, show, IndexOf(0, s.known[..i]).box, GateOf(s.known[..i], EventScope(s.known[i].event)), s.known[i]);
  }

  ghost predicate Showable(s: State, show: Show) {
    ValidIdentifier(s.config.name) && |s.known| <= InboxPaging.MAX_SEQUENCE
    && forall m :: m in s.box.intake.inbox ==> ShowsWell(show, m)
  }

  lemma ShownIsLegal(s: State, show: Show)
    requires Reachable(s) && s.mode.Serving? && Showable(s, show)
    ensures var inbox := ShownInbox(show, s.box.intake.inbox);
            forall i :: 0 <= i < |inbox| ==> InboxPaging.Legal(inbox[i])
  {
    hide Reachable, InboxPaging.Legal, ShowsWell, ValidIdentifier;
    var inbox := ShownInbox(show, s.box.intake.inbox);
    forall i | 0 <= i < |inbox| ensures InboxPaging.Legal(inbox[i]) {
      InboxIsLegal(s, show, s.box.intake.inbox[i]);
    }
  }

  /** In every reachable state of an endpoint that runs one operation at a time, repeated
      paging returns every message of the inbox exactly once and in order. */
  lemma PagingShowsTheInbox(s: State, show: Show, limit: int)
    requires Reachable(s) && s.mode.Serving? && s.config.maxConcurrent == 1 && Showable(s, show) && 1 <= limit <= 100
    ensures InboxPaging.Paged(ShownInbox(show, s.box.intake.inbox), 0, limit) == ShownInbox(show, s.box.intake.inbox)
  {
    hide Reachable, InboxPaging.Legal, Showable, InboxPaging.Paged, InboxPaging.After;
    var inbox := ShownInbox(show, s.box.intake.inbox);
    ShownIsLegal(s, show);
    InboxAscends(s);
    InboxPaging.PagingIsComplete(inbox, 0, limit);
    InboxPaging.AfterNothing(inbox);
  }

  /** With any concurrency, pages of one message return the whole inbox of a reachable state
      exactly if it is ascending. */
  lemma SinglePagesShowTheInbox(s: State, show: Show)
    requires Reachable(s) && s.mode.Serving? && Showable(s, show)
    ensures InboxPaging.Paged(ShownInbox(show, s.box.intake.inbox), 0, 1) == ShownInbox(show, s.box.intake.inbox)
        <==> Ascending(s.box.intake.inbox)
  {
    hide Reachable, InboxPaging.Legal, Showable, InboxPaging.Paged;
    var inbox := ShownInbox(show, s.box.intake.inbox);
    ShownIsLegal(s, show);
    InboxPaging.SinglePagesNeedOrder(inbox);
    assert forall i :: 0 <= i < |inbox| ==> inbox[i].sequence == s.box.intake.inbox[i].sequence;
  }

  lemma ShownAreDistinct(s: State, show: Show)
    requires Reachable(s) && s.mode.Serving?
    ensures InboxPaging.Distinct(ShownInbox(show, s.box.intake.inbox))
  {
    hide Reachable, Durable, AnswersOk, KeyOk, ConfirmsOk, ClaimsOk, OrderAgrees, IndexOf;
    ReachableSafe(s);
    var inbox := ShownInbox(show, s.box.intake.inbox);
    assert forall i :: 0 <= i < |inbox| ==> inbox[i].messageID == s.box.intake.inbox[i].messageID;
  }

  /** With any concurrency and any limit, repeated paging returns every message of a
      reachable inbox exactly once and in its order if and only if each page ends in a
      sequence number above all before it and below all after it. */
  lemma PagesShowTheInboxIff(s: State, show: Show, limit: int)
    requires Reachable(s) && s.mode.Serving? && Showable(s, show) && 1 <= limit <= 100
    ensures var inbox := ShownInbox(show, s.box.intake.inbox);
            InboxPaging.Paged(inbox, 0, limit) == inbox <==> InboxPaging.PagesSeparate(inbox, 0, limit)
  {
    hide Reachable, InboxPaging.Legal, Showable, InboxPaging.Paged, InboxPaging.Distinct, InboxPaging.PagesSeparate, ShownInbox;
    ShownIsLegal(s, show);
    ShownAreDistinct(s, show);
    InboxPaging.PagingCompleteIff(ShownInbox(show, s.box.intake.inbox), limit);
  }
}
