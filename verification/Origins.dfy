/** Where the contents of one endpoint come from: what single steps add to its log, its
    operations and its lookups. */
module Origins {
  import opened Wrappers
  import opened Records
  import opened Replay
  import opened Ledger
  import opened SigningHistory
  import opened Endpoint
  import opened Invariant
  import opened Progress

  predicate Any<T>(x: T) { true }

  ghost function Everything(): iset<Envelope> {
    iset e: Envelope | Any(e)
  }

  ghost function Nothing(): iset<Envelope> {
    iset e: Envelope | !Any(e)
  }

  ghost function AllAcks(): iset<Ack> {
    iset a: Ack | Any(a)
  }

  predicate OfEvent(event: Event, envelopes: iset<Envelope>, acks: iset<Ack>) {
    match event
    case InboundVerified(_, _, _, _, digest) => digest.EnvelopeDigest? ==> digest.envelope in envelopes
    case InboundAccepted(_, _, _, _, digest, _, _) => digest.EnvelopeDigest? ==> digest.envelope in envelopes
    case DeliveryConfirmed(meta, ack) => ack in acks && meta.messageID == ack.content.messageID
    case _ => true
  }

  predicate OfOp(op: Op, envelopes: iset<Envelope>, acks: iset<Ack>) {
    (EnvelopeOf(op).Some? ==> EnvelopeOf(op).value in envelopes) && (op.ConfirmAppend? ==> op.ack in acks)
  }

  /** Everything inbound at `s` is among `envelopes` and `acks`. */
  ghost predicate ComesFrom(s: State, envelopes: iset<Envelope>, acks: iset<Ack>) {
    && (forall i :: 0 <= i < |Disk(s)| ==> OfEvent(Disk(s)[i].event, envelopes, acks))
    && (forall k :: k in s.ops ==> OfOp(s.ops[k], envelopes, acks))
    && (forall p :: p in s.looked ==> p.0 in acks)
  }

  predicate TailOk(s: State) {
    (!s.poisoned ==> s.tail == []) && (s.mode.Down? ==> s.tail == [])
  }

  lemma TailOfDurable(s: State)
    requires Inv(s)
    ensures TailOk(s) && (!s.mode.Serving? ==> Idles(s))
  {
    hide LogOk, SignedLocally, Authorized, AnswersOk, LiveOk, IsHistory, KeysOk;
  }

  /** A step of the operation at `key` appends at most one event of known origin. */
  predicate Moves(s: State, s': State, key: ClaimKey, envelopes: iset<Envelope>, acks: iset<Ack>) {
    && Disk(s) <= Disk(s') && |Disk(s')| <= |Disk(s)| + 1
    && (|Disk(s')| == |Disk(s)| + 1 ==> OfEvent(Disk(s')[|Disk(s)|].event, envelopes, acks))
    && key in s'.ops && s'.ops == s.ops[key := s'.ops[key]] && OfOp(s'.ops[key], envelopes, acks)
    && s'.looked == s.looked && s'.owned == s.owned && s'.config == s.config && s'.closing == s.closing && s'.mode == s.mode
    && key in s.ops && Updates(s.ops[key], s.box, s'.box)
    && (s.poisoned ==> s'.poisoned && Disk(s') == Disk(s))
  }

  /** An append adds at most one entry, for the event that it was given. */
  lemma AppendAdds(s: State, event: Event, outcome: Outcome)
    requires TailOk(s)
    ensures var t := Append(s, event, outcome).0;
            && t == s.(known := t.known, tail := t.tail, poisoned := t.poisoned)
            && Disk(s) <= Disk(t) && |Disk(t)| <= |Disk(s)| + 1
            && (|Disk(t)| == |Disk(s)| + 1 ==> Disk(t)[|Disk(s)|].event == event)
            && (s.poisoned ==> t.poisoned && Disk(t) == Disk(s))
  {
    var t := Append(s, event, outcome).0;
    if s.poisoned || outcome.Refused? || outcome.Lost? {
      assert Disk(t) == Disk(s);
    } else {
      assert Disk(t) == Disk(s) + [NextEntry(s.known, event, outcome.at)];
    }
  }

  lemma AppendMoves(s: State, key: ClaimKey, event: Event, outcome: Outcome, next: Op, envelopes: iset<Envelope>, acks: iset<Ack>)
    requires TailOk(s) && key in s.ops && OfEvent(event, envelopes, acks) && OfOp(next, envelopes, acks)
    ensures Moves(s, AppendThen(s, key, event, outcome, next), key, envelopes, acks)
  {
    assert OfOp(Done(None), envelopes, acks);
    hide OfEvent, OfOp, Append, TailOk, EnvelopeOf;
    var t, s' := Append(s, event, outcome).0, AppendThen(s, key, event, outcome, next);
    AppendAdds(s, event, outcome);
    assert Disk(s') == Disk(t);
  }

  lemma FollowersMove(op: Op, envelopes: iset<Envelope>, acks: iset<Ack>)
    requires OfOp(op, envelopes, acks)
    ensures forall next :: Continues(op, next) ==> OfOp(next, envelopes, acks)
    ensures forall event :: Emits(op, event) ==> OfEvent(event, envelopes, acks)
  {
    hide EnvelopeOf, Weight;
  }

  lemma SectionMoves(s: State, s': State, key: ClaimKey, c: Choice, envelopes: iset<Envelope>, acks: iset<Ack>)
    requires TailOk(s) && key in s.ops && Section(s, s', key, c) && OfOp(s.ops[key], envelopes, acks)
    ensures Moves(s, s', key, envelopes, acks)
  {
    hide OfEvent, OfOp, Emits, Continues, Answers, Misplaced, AppendThen;
    FollowersMove(s.ops[key], envelopes, acks);
    if event, next :| Emits(s.ops[key], event) && Continues(s.ops[key], next) && s' == AppendThen(s, key, event, c.outcome, next) {
      AppendMoves(s, key, event, c.outcome, next, envelopes, acks);
    }
  }

  lemma AdvanceMoves(s: State, key: ClaimKey, c: Choice, envelopes: iset<Envelope>, acks: iset<Ack>)
    requires TailOk(s) && key in s.ops && OfOp(s.ops[key], envelopes, acks) && !s.ops[key].Done?
    ensures Moves(s, Advance(s, key, c), key, envelopes, acks)
  {
    hide Moves, OfOp, TailOk, Advance, Section;
    AdvanceIsSection(s, key, c);
    SectionMoves(s, Advance(s, key, c), key, c, envelopes, acks);
  }

  /** What a step leaves in place: the log grows and keys stay owned. */
  ghost predicate Grows(s: State, s': State) {
    Disk(s) <= Disk(s') && s.owned <= s'.owned
  }

  ghost predicate Extends(s: State, s': State) {
    Grows(s, s') && s'.config == s.config
  }

  /** Only a reconfiguration changes the configuration, and never the name. */
  predicate ConfigurationFollows(s: State, s': State, a: Action) {
    s'.config == s.config || (a == DoConfigure(s'.config) && s'.config.name == s.config.name)
  }

  lemma MovedComesFrom(s: State, s': State, key: ClaimKey, envelopes: iset<Envelope>, acks: iset<Ack>)
    requires ComesFrom(s, envelopes, acks) && Moves(s, s', key, envelopes, acks)
    ensures ComesFrom(s', envelopes, acks)
  {
    hide OfEvent, OfOp;
    forall i | 0 <= i < |Disk(s')| ensures OfEvent(Disk(s')[i].event, envelopes, acks) {
      if i < |Disk(s)| {
        assert Disk(s')[i] == Disk(s)[i];
      }
    }
  }

  lemma OperationOrigin(s: State, key: ClaimKey, c: Choice, envelopes: iset<Envelope>, acks: iset<Ack>)
    requires TailOk(s) && ComesFrom(s, envelopes, acks) && key in s.ops
    ensures ComesFrom(Advance(s, key, c), envelopes, acks) && Extends(s, Advance(s, key, c))
  {
    if s.ops[key].Done? {
      hide OfEvent, OfOp;
      assert Disk(Release(s, key)) == Disk(s);
    } else {
      hide OfEvent, OfOp, Advance;
      AdvanceMoves(s, key, c, envelopes, acks);
      MovedComesFrom(s, Advance(s, key, c), key, envelopes, acks);
    }
  }

  lemma GrantOrigin(s: State, key: ClaimKey, binding: Digest, op: Op, envelopes: iset<Envelope>, acks: iset<Ack>)
    requires ComesFrom(s, envelopes, acks) && OfOp(op, envelopes, acks)
    ensures ComesFrom(Grant(s, key, binding, op), envelopes, acks) && Extends(s, Grant(s, key, binding, op))
  {
    hide OfEvent, OfOp;
    assert Disk(Grant(s, key, binding, op)) == Disk(s);
  }

  lemma LookedOrigin(s: State, s': State, envelopes: iset<Envelope>, acks: iset<Ack>)
    requires ComesFrom(s, envelopes, acks)
    requires s' == s.(answers := s'.answers, looked := s'.looked, closing := s'.closing)
    requires forall p :: p in s'.looked ==> p in s.looked || p.0 in acks
    ensures ComesFrom(s', envelopes, acks) && Extends(s, s')
  {
    hide OfEvent, OfOp;
    assert Disk(s') == Disk(s);
  }

  lemma ClaimOrigin(s: State, a: Action, envelopes: iset<Envelope>, acks: iset<Ack>)
    requires ComesFrom(s, envelopes, acks) && s.mode.Serving?
    requires a.DoClaimSend? || a.DoClaimReceive? || a.DoLookupConfirm? || a.DoClaimConfirm? || a.DoClose?
    requires a.DoClaimReceive? && ValidEnvelope(s.config, a.envelope, a.now) ==> a.envelope in envelopes
    requires a.DoLookupConfirm? && ValidAck(s.config, a.ack, a.now) ==> a.ack in acks
    ensures ComesFrom(DoWhileServing(s, a), envelopes, acks) && Extends(s, DoWhileServing(s, a))
  {
    hide OfEvent, ComesFrom, Extends, ClaimSend, ClaimReceive, ClaimConfirm, LookupConfirm, ValidEnvelope, ValidAck, Advance, Append;
    match a
    case DoClaimSend(input) => ClaimSendOrigin(s, input, envelopes, acks);
    case DoClaimReceive(envelope, now) => ClaimReceiveOrigin(s, envelope, now, envelopes, acks);
    case DoClaimConfirm(ack, envelope) => ClaimConfirmOrigin(s, ack, envelope, envelopes, acks);
    case DoLookupConfirm(ack, now) => LookupOrigin(s, ack, now, envelopes, acks);
    case _ => LookedOrigin(s, DoWhileServing(s, a), envelopes, acks);
  }

  /** A lookup adds nothing but a valid receipt of a message that is not confirmed yet. */
  lemma LookupAdds(s: State, ack: Ack, now: Time)
    ensures var s' := LookupConfirm(s, ack, now);
            && s' == s.(answers := s'.answers, looked := s'.looked)
            && (s'.looked == s.looked
                || (ValidAck(s.config, ack, now) && ack.content.messageID !in s.box.outbox.confirmed
                    && exists envelope :: s'.looked == s.looked + multiset{(ack, envelope)}))
  {
    hide ValidAck;
  }

  lemma LookupOrigin(s: State, ack: Ack, now: Time, envelopes: iset<Envelope>, acks: iset<Ack>)
    requires ComesFrom(s, envelopes, acks) && (ValidAck(s.config, ack, now) ==> ack in acks)
    ensures ComesFrom(LookupConfirm(s, ack, now), envelopes, acks) && Extends(s, LookupConfirm(s, ack, now))
  {
    hide OfEvent, ComesFrom, Extends, ValidAck, LookupConfirm;
    LookupAdds(s, ack, now);
    LookedOrigin(s, LookupConfirm(s, ack, now), envelopes, acks);
  }

  lemma ClaimSendOrigin(s: State, input: SendInput, envelopes: iset<Envelope>, acks: iset<Ack>)
    requires ComesFrom(s, envelopes, acks)
    ensures ComesFrom(ClaimSend(s, input), envelopes, acks) && Extends(s, ClaimSend(s, input))
  {
    hide OfEvent, ValidInput, ClaimStatus, ComesFrom, Extends, Grant;
    LookedOrigin(s, s.(answers := ClaimSend(s, input).answers), envelopes, acks);
    GrantOrigin(s, SendKey(input.requestID), Binding(input), SendLookup(input), envelopes, acks);
  }

  lemma ClaimReceiveOrigin(s: State, envelope: Envelope, now: Time, envelopes: iset<Envelope>, acks: iset<Ack>)
    requires ComesFrom(s, envelopes, acks) && (ValidEnvelope(s.config, envelope, now) ==> envelope in envelopes)
    ensures ComesFrom(ClaimReceive(s, envelope, now), envelopes, acks) && Extends(s, ClaimReceive(s, envelope, now))
  {
    hide OfEvent, ValidEnvelope, ClaimStatus, ComesFrom, Extends, Grant;
    LookedOrigin(s, s, envelopes, acks);
    if envelope in envelopes {
      GrantOrigin(s, ReceiveKey(envelope.content.messageID), EnvelopeDigest(envelope), ReceiveLookup(envelope), envelopes, acks);
    }
  }

  lemma ClaimConfirmOrigin(s: State, ack: Ack, envelope: Envelope, envelopes: iset<Envelope>, acks: iset<Ack>)
    requires ComesFrom(s, envelopes, acks)
    ensures ComesFrom(ClaimConfirm(s, ack, envelope), envelopes, acks) && Extends(s, ClaimConfirm(s, ack, envelope))
  {
    hide OfEvent, ClaimStatus, ComesFrom, Grant;
    var after := s.(looked := s.looked - multiset{(ack, envelope)});
    LookedOrigin(s, s, envelopes, acks);
    if (ack, envelope) in s.looked {
      assert ack in acks by { LookedAcks(s, (ack, envelope), envelopes, acks); }
      LookedOrigin(s, after, envelopes, acks);
      GrantOrigin(after, ConfirmKey(ack.content.messageID), ack.content.envelopeDigest, ConfirmAppend(ack, envelope), envelopes, acks);
    }
  }

  lemma LookedAcks(s: State, p: (Ack, Envelope), envelopes: iset<Envelope>, acks: iset<Ack>)
    requires ComesFrom(s, envelopes, acks) && p in s.looked
    ensures p.0 in acks
  {
  }

  lemma AppendedOrigin(s: State, event: Event, outcome: Outcome, envelopes: iset<Envelope>, acks: iset<Ack>)
    requires TailOk(s) && ComesFrom(s, envelopes, acks) && OfEvent(event, envelopes, acks)
    ensures ComesFrom(Append(s, event, outcome).0, envelopes, acks) && Extends(s, Append(s, event, outcome).0)
  {
    hide OfEvent, OfOp, Append, TailOk;
    AppendAdds(s, event, outcome);
    var t := Append(s, event, outcome).0;
    forall i | 0 <= i < |Disk(t)| ensures OfEvent(Disk(t)[i].event, envelopes, acks) {
      if i < |Disk(s)| {
        assert Disk(t)[i] == Disk(s)[i];
      }
    }
  }

  lemma HaltOrigin(s: State, envelopes: iset<Envelope>, acks: iset<Ack>)
    requires ComesFrom(s, envelopes, acks)
    ensures ComesFrom(Halt(s), envelopes, acks) && Extends(s, Halt(s))
  {
    hide OfEvent, OfOp;
    assert Disk(Halt(s)) == Disk(s);
  }

  lemma BeginOrigin(s: State, next: Key, at: Time, outcome: Outcome, envelopes: iset<Envelope>, acks: iset<Ack>)
    requires TailOk(s) && ComesFrom(s, envelopes, acks)
    ensures var s' := BeginRotation(s, next, at, outcome); ComesFrom(s', envelopes, acks) && Extends(s, s')
  {
    hide OfOp, OfEvent, Append, Halt, MakeRotation, ComesFrom, TailOk, Disk;
    var event := RotationPrepared(MakeRotation(s.config.name, s.key, next, at));
    var mine := s.(owned := s.owned + {next});
    SameTail(s, mine);
    SameOrigin(s, mine, envelopes, acks);
    OwnOrigin(MakeRotation(s.config.name, s.key, next, at), envelopes, acks);
    AppendedOrigin(mine, event, outcome, envelopes, acks);
    var after := Append(mine, event, outcome).0;
    HaltOrigin(after, envelopes, acks);
    SameOrigin(after, after.(mode := BeginRotation(s, next, at, outcome).mode), envelopes, acks);
  }

  lemma SameTail(s: State, t: State)
    requires TailOk(s) && t == s.(owned := t.owned)
    ensures TailOk(t) && Disk(t) == Disk(s)
  {
  }

  lemma SameDisk(s: State, t: State)
    requires t.known == s.known && t.tail == s.tail
    ensures Disk(t) == Disk(s)
  {
  }

  lemma OwnOrigin(rotation: Rotation, envelopes: iset<Envelope>, acks: iset<Ack>)
    ensures OfEvent(RotationPrepared(rotation), envelopes, acks)
    ensures OfEvent(RotationCompleted(rotation.content.previous, rotation.content.next), envelopes, acks)
  {
  }

  lemma RotationOrigin(s: State, a: Action, envelopes: iset<Envelope>, acks: iset<Ack>)
    requires TailOk(s) && ComesFrom(s, envelopes, acks)
    requires a.DoBeginRotation? || (s.mode.Rotating? && (a.DoCommitRotation? || a.DoCompleteRotation?))
    ensures var s' := match a
                      case DoBeginRotation(next, at, outcome) => BeginRotation(s, next, at, outcome)
                      case DoCompleteRotation(outcome) => CompleteRotation(s, outcome)
                      case _ => if s.mode.Rotating? then CommitRotation(s) else s;
            ComesFrom(s', envelopes, acks) && Extends(s, s')
  {
    hide OfOp, OfEvent, Append, Halt, BeginRotation, ComesFrom, TailOk;
    if a.DoBeginRotation? {
      BeginOrigin(s, a.next, a.at, a.outcome, envelopes, acks);
    } else if a.DoCompleteRotation? {
      var c := s.mode.rotation.content;
      OwnOrigin(s.mode.rotation, envelopes, acks);
      AppendedOrigin(s, RotationCompleted(c.previous, c.next), a.outcome, envelopes, acks);
      HaltOrigin(Append(s, RotationCompleted(c.previous, c.next), a.outcome).0, envelopes, acks);
      SameOrigin(s, s, envelopes, acks);
    } else {
      SameOrigin(s, CommitRotation(s), envelopes, acks);
    }
  }

  lemma SameOrigin(s: State, s': State, envelopes: iset<Envelope>, acks: iset<Ack>)
    requires ComesFrom(s, envelopes, acks)
    requires s'.known == s.known && s'.tail == s.tail && s'.ops == s.ops && s'.looked == s.looked && s.owned <= s'.owned
    ensures ComesFrom(s', envelopes, acks) && Grows(s, s')
  {
    hide OfEvent, OfOp;
    assert Disk(s') == Disk(s);
  }

  lemma ServingOrigin(s: State, a: Action, envelopes: iset<Envelope>, acks: iset<Ack>)
    requires TailOk(s) && s.mode.Serving? && ComesFrom(s, envelopes, acks)
    requires a.DoClaimReceive? && ValidEnvelope(s.config, a.envelope, a.now) ==> a.envelope in envelopes
    requires a.DoLookupConfirm? && ValidAck(s.config, a.ack, a.now) ==> a.ack in acks
    ensures ComesFrom(DoWhileServing(s, a), envelopes, acks) && Extends(s, DoWhileServing(s, a))
  {
    hide OfEvent, OfOp, ComesFrom, Extends, Advance, Append, ClaimSend, ClaimReceive, LookupConfirm, ClaimConfirm, ValidEnvelope,
         ValidAck, TailOk;
    LookedOrigin(s, s, envelopes, acks);
    match a
    case DoAdvance(key, choice) => if key in s.ops { OperationOrigin(s, key, choice, envelopes, acks); }
    case DoNotice(kind, outcome) =>
      NoticeOrigin(kind, envelopes, acks);
      AppendedOrigin(s, Notice(kind), outcome, envelopes, acks);
    case _ =>
      if a.DoClaimSend? || a.DoClaimReceive? || a.DoLookupConfirm? || a.DoClaimConfirm? || a.DoClose? {
        ClaimOrigin(s, a, envelopes, acks);
      }
  }

  lemma StepOrigin(s: State, a: Action, envelopes: iset<Envelope>, acks: iset<Ack>)
    requires TailOk(s) && ComesFrom(s, envelopes, acks)
    requires a.DoClaimReceive? && ValidEnvelope(s.config, a.envelope, a.now) ==> a.envelope in envelopes
    requires a.DoLookupConfirm? && ValidAck(s.config, a.ack, a.now) ==> a.ack in acks
    ensures ComesFrom(Do(s, a), envelopes, acks) && Grows(s, Do(s, a)) && ConfigurationFollows(s, Do(s, a), a)
  {
    hide OfEvent, OfOp, ComesFrom, Grows, DoWhileServing, Halt, BeginRotation, CommitRotation, CompleteRotation, Rebuilds, Startable,
         IndexOf, ValidEnvelope, ValidAck, TailOk;
    SameOrigin(s, s, envelopes, acks);
    match a
    case DoHalt => HaltOrigin(s, envelopes, acks);
    case DoApprove(_) => SameOrigin(s, Do(s, a), envelopes, acks);
    case DoCommitRotation => if s.mode.Rotating? { RotationOrigin(s, a, envelopes, acks); }
    case DoCompleteRotation(_) => if s.mode.Rotating? { RotationOrigin(s, a, envelopes, acks); }
    case DoBeginRotation(_, _, _) =>
      if s.mode.Down? {
        RotationOrigin(s, a, envelopes, acks);
      } else if s.mode.Serving? {
        ServingOrigin(s, a, envelopes, acks);
      }
    case _ =>
      if s.mode.Serving? {
        ServingOrigin(s, a, envelopes, acks);
      } else {
        SameOrigin(s, Do(s, a), envelopes, acks);
      }
  }

  lemma NoticeOrigin(kind: string, envelopes: iset<Envelope>, acks: iset<Ack>)
    ensures OfEvent(Notice(kind), envelopes, acks)
  {
  }
}
