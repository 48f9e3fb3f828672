/** An append by one operation leaves every other claim key's view as it was. */
module Frames {
  import opened Wrappers
  import opened Records
  import opened Replay
  import opened Ledger
  import opened Endpoint
  import opened Invariant

  /** The part of the index that an event belongs to is the one that `key` claims. */
  predicate Footprint(outbox: Outbox, key: ClaimKey, event: Event) {
    match event
    case MessageSubmitted(_, requestID, _, _) => key == SendKey(requestID)
    case DeterministicGuard(meta, _, _) => MetaFits(outbox, key, meta)
    case ModelGuard(meta, _, _, _, _) => MetaFits(outbox, key, meta)
    case GuardFailed(meta, _) => MetaFits(outbox, key, meta)
    case ApprovalRequired(meta, _) => MetaFits(outbox, key, meta)
    case ApprovalConsumed(meta, _) => MetaFits(outbox, key, meta)
    case MessageBlocked(meta, requestID, _) =>
      MetaFits(outbox, key, meta) && (meta.direction == Outbound ==> key == SendKey(requestID))
    case OutboundReleased(meta, requestID, envelope, _) =>
      MetaFits(outbox, key, meta) && key == SendKey(requestID)
      && meta.direction == Outbound && meta.messageID == envelope.content.messageID
    case InboundVerified(meta, _, _, _, _) => key == ReceiveKey(meta.messageID)
    case InboundAccepted(meta, _, _, _, _, _, _) => key == ReceiveKey(meta.messageID) && meta.direction == Inbound
    case AcknowledgementIssued(meta, _) => key == ReceiveKey(meta.messageID)
    case DeliveryConfirmed(meta, _) => key == ConfirmKey(meta.messageID)
    case _ => true
  }

  predicate MetaFits(outbox: Outbox, key: ClaimKey, meta: Meta) {
    match meta.direction
    case Inbound => key == ReceiveKey(meta.messageID)
    case Outbound => key.SendKey? && key in outbox.requests && outbox.requests[key].messageID == meta.messageID
  }

  /** The outbox after an event of `key` agrees with the outbox before it everywhere else. */
  lemma OutboxFrame(outbox: Outbox, decisions: map<Scope, Verdict>, key: ClaimKey, entry: Entry, k: ClaimKey)
    requires RequestsOk(outbox) && Footprint(outbox, key, entry.event) && k != key
    ensures var after := ApplyOutbox(outbox, decisions, entry);
            Lookup(after.requests, k) == Lookup(outbox.requests, k)
            && (k in outbox.requests ==>
                  Lookup(after.sent, outbox.requests[k].messageID) == Lookup(outbox.sent, outbox.requests[k].messageID))
            && (k.ConfirmKey? ==> Lookup(after.confirmed, k.messageID) == Lookup(outbox.confirmed, k.messageID))
  {
  }

  lemma IntakeFrame(signer: Key, outbox: Outbox, intake: Intake, decisions: map<Scope, Verdict>, key: ClaimKey, entry: Entry, m: string)
    requires Footprint(outbox, key, entry.event) && ReceiveKey(m) != key
    ensures var after := ApplyIntake(signer, intake, decisions, entry);
            Lookup(after.received, m) == Lookup(intake.received, m)
            && Lookup(after.seenInbound, m) == Lookup(intake.seenInbound, m)
  {
  }

  lemma GateFrame(outbox: Outbox, key: ClaimKey, event: Event, scope: Scope)
    requires RequestsOk(outbox) && Footprint(outbox, key, event)
    requires match scope.direction
             case Inbound => ReceiveKey(scope.messageID) != key
             case Outbound => exists k :: k in outbox.requests && k != key && outbox.requests[k].messageID == scope.messageID
    ensures !Evaluates(event, scope)
  {
  }

  /** `s'` is `s` after `key` has appended `event` and moved on. */
  ghost predicate Appended(s: State, s': State, key: ClaimKey, event: Event, at: Time) {
    s'.known == s.known + [NextEntry(s.known, event, at)]
    && s'.key == s.key && s'.config == s.config && s'.box == s.box && s'.approved == s.approved
    && forall k :: k != key ==> Lookup(s'.ops, k) == Lookup(s.ops, k)
  }

  lemma OtherKeysStayOk(s: State, s': State, key: ClaimKey, event: Event, at: Time, k: ClaimKey)
    requires Appended(s, s', key, event, at)
    requires RequestsOk(LoggedOutbox(s)) && Footprint(LoggedOutbox(s), key, event)
    requires k != key && KeyOk(s, k)
    ensures KeyOk(s', k)
  {
    var entry := NextEntry(s.known, event, at);
    var before := IndexOf(0, s.known);
    IndexOfSnoc(0, s.known, entry);
    OutboxFrame(before.box.outbox, before.decisions, key, entry, k);
    match k {
      case SendKey(_) =>
        if k in before.box.outbox.requests {
          var scope := Scope(Outbound, before.box.outbox.requests[k].messageID);
          GateFrame(before.box.outbox, key, event, scope);
          GateOfSnoc(s.known, entry, scope);
        }
        assert SendViewOf(s', k) == SendViewOf(s, k);
      case ReceiveKey(m) =>
        var mine := IndexOf(s.key, s.known);
        IndexOfSnoc(s.key, s.known, entry);
        IntakeFrame(s.key, before.box.outbox, mine.box.intake, mine.decisions, key, entry, m);
        GateFrame(before.box.outbox, key, event, Scope(Inbound, m));
        GateOfSnoc(s.known, entry, Scope(Inbound, m));
        assert ReceiveViewOf(s', k) == ReceiveViewOf(s, k);
      case ConfirmKey(_) =>
        assert ConfirmViewOf(s', k) == ConfirmViewOf(s, k);
    }
  }
}
