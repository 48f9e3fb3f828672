/** In which order the live inbox holds its messages. */
module InboxOrder {
  import opened Wrappers
  import opened Text
  import opened Records
  import opened Replay
  import opened Ledger
  import opened SigningHistory
  import opened Endpoint
  import opened Invariant
  import opened Steps
  import opened Progress
  import opened Origins
  import opened EvaluationSafety
  import opened ProcessSafety
  import opened RunSafety
  import opened Guarantees
  import opened Sections
  import opened Executions

  /** Some peer can be the source of a valid envelope. */
  ghost predicate CanReceive(config: Config) {
    exists p :: p in config.peers && ValidIdentifier(p)
  }

  // ----- Without a peer -----

  predicate Incoming(ops: map<ClaimKey, Op>) {
    exists k :: k in ops && EnvelopeOf(ops[k]).Some?
  }

  /** Nothing comes in, and the inbox is as it was rebuilt. */
  predicate Calm(s: State) {
    !Incoming(s.ops) && Ascending(s.box.intake.inbox)
  }

  lemma AdvanceCalm(s: State, k: ClaimKey, c: Choice)
    requires TailOk(s) && s.mode.Serving? && k in s.ops && Calm(s)
    ensures Calm(Advance(s, k, c))
  {
    if s.ops[k].Done? {
      hide SendStep, EvaluationStep, FinalizeStep, ReceiveStep, ConfirmStep;
    } else {
      hide Advance, Disk, OfEvent, TailOk;
      AdvanceMoves(s, k, c, Nothing(), AllAcks());
    }
  }

  lemma GrantCalm(s: State, k: ClaimKey, binding: Digest, op: Op)
    requires Calm(s) && EnvelopeOf(op).None?
    ensures Calm(Grant(s, k, binding, op))
  {
  }

  lemma SameCalm(s: State, t: State)
    requires Calm(s) && t == s.(answers := t.answers, looked := t.looked, closing := t.closing, known := t.known, tail := t.tail,
                                poisoned := t.poisoned, approved := t.approved)
    ensures Calm(t)
  {
  }

  lemma NobodyIsValid(config: Config, envelope: Envelope, now: Time)
    requires !CanReceive(config)
    ensures !ValidEnvelope(config, envelope, now)
  {
  }

  lemma ServingStepCalm(s: State, a: Action)
    requires TailOk(s) && s.mode.Serving? && !CanReceive(s.config) && Calm(s)
    ensures Calm(DoWhileServing(s, a))
  {
    hide Advance, ValidInput, ValidAck, ValidEnvelope, ClaimStatus, TailOk, CanReceive, Calm, ClaimSend, ClaimConfirm, LookupConfirm, Append;
    match a
    case DoAdvance(k, c) =>
      if k in s.ops {
        AdvanceCalm(s, k, c);
      }
    case DoClaimSend(input) => SendCalm(s, input);
    case DoClaimReceive(envelope, now) => NobodyIsValid(s.config, envelope, now);
    case DoClaimConfirm(ack, envelope) => ConfirmCalm(s, ack, envelope);
    case _ => OtherCalm(s, a);
  }

  lemma OtherCalm(s: State, a: Action)
    requires s.mode.Serving? && Calm(s)
    requires !a.DoAdvance? && !a.DoClaimSend? && !a.DoClaimReceive? && !a.DoClaimConfirm?
    ensures Calm(DoWhileServing(s, a))
  {
    hide Calm, Advance, ClaimSend, ClaimReceive, ClaimConfirm, LookupConfirm, Append;
    match a
    case DoLookupConfirm(ack, now) => LookupCalm(s, ack, now);
    case DoNotice(kind, outcome) => AppendCalm(s, Notice(kind), outcome);
    case _ => SameCalm(s, DoWhileServing(s, a));
  }

  lemma LookupCalm(s: State, ack: Ack, now: Time)
    requires Calm(s)
    ensures Calm(LookupConfirm(s, ack, now))
  {
    hide Calm, ValidAck;
    SameCalm(s, LookupConfirm(s, ack, now));
  }

  lemma AppendCalm(s: State, event: Event, outcome: Outcome)
    requires Calm(s)
    ensures Calm(Append(s, event, outcome).0)
  {
    hide Calm, NextEntry;
    SameCalm(s, Append(s, event, outcome).0);
  }

  lemma SendCalm(s: State, input: SendInput)
    requires Calm(s)
    ensures Calm(ClaimSend(s, input))
  {
    hide ValidInput, ClaimStatus, Calm;
    GrantCalm(s, SendKey(input.requestID), Binding(input), SendLookup(input));
    SameCalm(s, s.(answers := ClaimSend(s, input).answers));
  }

  lemma ConfirmCalm(s: State, ack: Ack, envelope: Envelope)
    requires Calm(s)
    ensures Calm(ClaimConfirm(s, ack, envelope))
  {
    hide ClaimStatus, Calm;
    var after := s.(looked := s.looked - multiset{(ack, envelope)});
    SameCalm(s, after);
    GrantCalm(after, ConfirmKey(ack.content.messageID), ack.content.envelopeDigest, ConfirmAppend(ack, envelope));
  }

  lemma AdvanceKeepsConfig(s: State, k: ClaimKey, c: Choice)
    requires TailOk(s) && k in s.ops
    ensures Advance(s, k, c).config == s.config
  {
    if s.ops[k].Done? {
      hide SendStep, EvaluationStep, FinalizeStep, ReceiveStep, ConfirmStep;
    } else {
      hide Advance, TailOk, OfEvent, Disk;
      AdvanceMoves(s, k, c, Everything(), AllAcks());
    }
  }

  lemma ConfigStays(s: State, a: Action)
    requires TailOk(s) && s.mode.Serving?
    ensures DoWhileServing(s, a).config == s.config
  {
    hide Advance, ClaimStatus, ValidInput, ValidEnvelope, ValidAck, TailOk, NextEntry, Binding;
    if a.DoAdvance? && a.key in s.ops {
      AdvanceKeepsConfig(s, a.key, a.choice);
    }
  }

  lemma StaysInService(s: State, a: Action)
    requires TailOk(s) && s.mode.Serving? && Do(s, a).mode.Serving?
    ensures Do(s, a).config == s.config
    ensures Do(s, a) == DoWhileServing(s, a) || Do(s, a) == s.(approved := Do(s, a).approved)
  {
    hide DoWhileServing, TailOk;
    ConfigStays(s, a);
  }

  ghost predicate CalmWithoutPeers(s: State) {
    s.mode.Serving? && !CanReceive(s.config) ==> Calm(s)
  }

  lemma StartCalm(s: State)
    requires Inv(s) && s.mode.Down?
    ensures Calm(Serve(s))
  {
    hide LogOk, SignedLocally, Authorized, AnswersOk, LiveOk, KeysOk, RotationOk, IndexOf, OutboxOk, SameButReceipts;
    LoggedIsOk(s);
  }

  lemma OnlyStartsServe(s: State, a: Action)
    requires !s.mode.Serving? && Do(s, a).mode.Serving?
    ensures s.mode.Down? && Do(s, a) == Serve(s)
  {
    hide Append, Rebuilds, Startable, IndexOf;
  }

  lemma StepCalm(s: State, a: Action)
    requires Inv(s) && CalmWithoutPeers(s)
    ensures CalmWithoutPeers(Do(s, a))
  {
    hide Inv, Calm, DoWhileServing, CanReceive, Append, IndexOf, Rebuilds, Startable, Serve, BeginRotation, CompleteRotation, CommitRotation;
    TailOfDurable(s);
    if !Do(s, a).mode.Serving? {
    } else if s.mode.Serving? {
      StaysInService(s, a);
      if !CanReceive(s.config) {
        ServingStepCalm(s, a);
        SameCalm(s, s.(approved := Do(s, a).approved));
      }
    } else {
      OnlyStartsServe(s, a);
      StartCalm(s);
    }
  }

  lemma {:induction false} RunCalm(config: Config, key: Key, actions: seq<Action>)
    ensures CalmWithoutPeers(Run(Initial(config, key), actions))
  {
    hide Inv, CalmWithoutPeers, Do;
    if actions != [] {
      var n := |actions| - 1;
      RunCalm(config, key, actions[..n]);
      RunSafe(config, key, actions[..n]);
      StepCalm(Run(Initial(config, key), actions[..n]), actions[n]);
    } else {
      InitiallyDown(config, key);
    }
  }

  lemma InitiallyDown(config: Config, key: Key)
    ensures CalmWithoutPeers(Initial(config, key))
  {
  }

  // ----- With two places and a peer -----

  function EnvelopeFrom(config: Config, peer: string, id: string): Envelope
    requires peer in config.peers
  {
    SignEnvelope(config.peers[peer], UnsignedEnvelope(1, id, "r", "c", peer, config.name, 0, "x", TextDigest("x"), "v", "m", Allow, 1, Genesis))
  }

  lemma EnvelopeIsValid(config: Config, peer: string, id: string)
    requires Startable(config) && peer in config.peers && ValidIdentifier(peer) && ValidIdentifier(id)
    ensures ValidEnvelope(config, EnvelopeFrom(config, peer, id), 0)
  {
    assert ByteLength("x") == 1 + ByteLength("x"[1..]) && ByteLength("v") == 1 + ByteLength("v"[1..])
           && ByteLength("m") == 1 + ByteLength("m"[1..]);
    assert !IsSpace("x"[0]) && !IsSpace("v"[0]) && !IsSpace("m"[0]);
  }

  lemma StoresMessage(s: State, k: ClaimKey) returns (t: State)
    requires Reachable(s) && s.mode.Serving? && k in s.ops && s.ops[k].ReceiveStore?
    ensures Reachable(t) && t.mode.Serving? && t.config == s.config && t.box.intake.inbox == s.box.intake.inbox + [s.ops[k].message]
    ensures k in t.ops && t.ops == s.ops[k := t.ops[k]]
  {
    hide Reachable, Advance;
    var c := Good(0, "");
    IntakeSteps(s, k, c);
    t := Advance(s, k, c);
    Takes(s, k, c, t);
  }

  /** With two places and a peer, the message accepted second can enter the inbox first. */
  lemma Disorders(config: Config, key: Key) returns (s: State)
    requires Startable(config) && config.maxConcurrent >= 2 && CanReceive(config)
    ensures Reachable(s) && s.mode.Serving? && s.config == config && !Ascending(s.box.intake.inbox)
  {
    hide Reachable, Do, Startable, ValidEnvelope, ValidIdentifier, ClaimStatus;
    var peer :| peer in config.peers && ValidIdentifier(peer);
    var a, b := EnvelopeFrom(config, peer, "a"), EnvelopeFrom(config, peer, "b");
    TwoIdentifiers();
    EnvelopeIsValid(config, peer, "a");
    EnvelopeIsValid(config, peer, "b");
    var s0 := Starts(config, key);
    var s1, first := ReceiveCanBeAccepted(s0, a, 0);
    var s2, second := ReceiveCanBeAccepted(s1, b, 0);
    var s3 := StoresMessage(s2, ReceiveKey("b"));
    s := StoresMessage(s3, ReceiveKey("a"));
    var inbox := s.box.intake.inbox;
    assert inbox == [second, first] && inbox[0].sequence >= inbox[1].sequence;
  }

  lemma TwoIdentifiers()
    ensures ValidIdentifier("a") && ValidIdentifier("b")
  {
  }

  ghost predicate AlwaysAscends(config: Config) {
    forall s :: Reachable(s) && s.mode.Serving? && s.config == config ==> Ascending(s.box.intake.inbox)
  }

  /** The live inbox of a configuration is in the order of the log in every state of every
      run exactly if the configuration does not start at all, admits one operation at a
      time, or has no peer that a valid envelope could name. */
  lemma AscendsExactlyIf(config: Config)
    ensures AlwaysAscends(config) <==> !Startable(config) || config.maxConcurrent <= 1 || !CanReceive(config)
  {
    hide Reachable, Startable, CanReceive, Ascending, Inv;
    if Startable(config) {
      StartableHasPlace(config);
    }
    if Startable(config) && config.maxConcurrent >= 2 && CanReceive(config) {
      var s := Disorders(config, 0);
      assert !AlwaysAscends(config);
    } else {
      forall s | Reachable(s) && s.mode.Serving? && s.config == config ensures Ascending(s.box.intake.inbox) {
        ReachableSafe(s);
        ServesStartable(s);
        if config.maxConcurrent <= 1 {
          InboxAscends(s);
        } else {
          AscendsWithoutPeers(s);
        }
      }
    }
  }

  lemma StartableHasPlace(config: Config)
    requires Startable(config)
    ensures 0 < config.maxConcurrent
  {
  }

  lemma AscendsWithoutPeers(s: State)
    requires Reachable(s) && s.mode.Serving? && !CanReceive(s.config)
    ensures Ascending(s.box.intake.inbox)
  {
    hide Run, CanReceive, Initial;
    var config, key, actions :| s == Run(Initial(config, key), actions);
    RunCalm(config, key, actions);
  }
}
