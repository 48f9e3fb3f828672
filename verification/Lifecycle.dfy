/** Every operation ends: it takes a bounded number of steps from its claim to its
    release. After a shutdown nothing new is claimed, so the process drains. */
module Lifecycle {
  import opened Wrappers
  import opened Records
  import opened Replay
  import opened Endpoint
  import opened Invariant
  import opened Progress
  import opened EvaluationSafety
  import opened RunSafety
  import opened Guarantees

  /** The steps that all claimed operations can still take. */
  ghost function Work(ops: map<ClaimKey, Op>): nat
    decreases |ops|
  {
    if ops == map[] then 0
    else
      var k :| k in ops;
      LessWithout(ops, k);
      Weight(ops[k]) + Work(ops - {k})
  }

  lemma LessWithout(ops: map<ClaimKey, Op>, k: ClaimKey)
    requires k in ops
    ensures |ops - {k}| < |ops|
  {
    assert (ops - {k}).Keys == ops.Keys - {k};
    assert |ops| == |ops.Keys| && |ops - {k}| == |(ops - {k}).Keys|;
  }

  /** The sum does not depend on the order in which it is taken. */
  lemma {:induction false} WorkOfOne(ops: map<ClaimKey, Op>, k: ClaimKey)
    requires k in ops
    ensures Work(ops) == Weight(ops[k]) + Work(ops - {k})
    decreases |ops|
  {
    hide Weight;
    var j :| j in ops && Work(ops) == Weight(ops[j]) + Work(ops - {j});
    if j != k {
      LessWithout(ops, j);
      LessWithout(ops, k);
      WorkOfOne(ops - {j}, k);
      WorkOfOne(ops - {k}, j);
      assert ops - {j} - {k} == ops - {k} - {j};
    }
  }

  lemma {:induction false} WorkIsBounded(ops: map<ClaimKey, Op>)
    ensures Work(ops) <= 12 * |ops|
    decreases |ops|
  {
    if ops != map[] {
      var k :| k in ops;
      LessWithout(ops, k);
      WorkOfOne(ops, k);
      WorkIsBounded(ops - {k});
    }
  }

  /** A step of an operation leaves the others alone and brings it closer to its release. */
  ghost predicate Nearer(s: State, s': State, k: ClaimKey) {
    k in s.ops && s'.closing == s.closing && s'.mode == s.mode && s'.config == s.config && s'.looked == s.looked
    && if k in s'.ops then s'.ops == s.ops[k := s'.ops[k]] && Weight(s'.ops[k]) < Weight(s.ops[k])
       else s.ops[k].Done? && s'.ops == s.ops - {k}
  }

  lemma AppendNearer(s: State, k: ClaimKey, event: Event, outcome: Outcome, next: Op)
    requires k in s.ops && Weight(next) < Weight(s.ops[k]) && 1 < Weight(s.ops[k])
    ensures Nearer(s, AppendThen(s, k, event, outcome, next), k)
  {
    assert Weight(Done(None)) == 1;
    hide Weight;
  }

  lemma SectionNearer(s: State, s': State, k: ClaimKey, c: Choice)
    requires k in s.ops && Section(s, s', k, c) && 1 < Weight(s.ops[k])
    ensures Nearer(s, s', k) || (s' == s && (!Answers(s, c) || Misplaced(s.ops[k])))
  {
    hide Emits, Answers, Misplaced, AppendThen, EnvelopeOf, Weight;
    if event, next :| Emits(s.ops[k], event) && Continues(s.ops[k], next) && s' == AppendThen(s, k, event, c.outcome, next) {
      AppendNearer(s, k, event, c.outcome, next);
    }
  }

  /** Every step of an operation brings it closer to its release, except where the
      environment's choice is none that it can make. */
  lemma AdvanceNearer(s: State, k: ClaimKey, c: Choice)
    requires k in s.ops
    ensures Nearer(s, Advance(s, k, c), k) || (Advance(s, k, c) == s && (!Answers(s, c) || Misplaced(s.ops[k])))
  {
    if s.ops[k].Done? {
      hide Weight, SendStep, EvaluationStep, FinalizeStep, ReceiveStep, ConfirmStep;
    } else {
      OnlyDoneIsLight(s.ops[k]);
      hide Weight, Advance, Section, Nearer;
      AdvanceIsSection(s, k, c);
      SectionNearer(s, Advance(s, k, c), k, c);
    }
  }

  lemma OnlyDoneIsLight(op: Op)
    requires !op.Done?
    ensures 1 < Weight(op)
  {
  }

  lemma NearerIsLess(s: State, s': State, k: ClaimKey)
    requires Nearer(s, s', k)
    ensures Work(s'.ops) < Work(s.ops) && s'.ops.Keys <= s.ops.Keys
  {
    hide Weight, Work;
    WorkOfOne(s.ops, k);
    if k in s'.ops {
      WorkOfOne(s'.ops, k);
      assert s'.ops - {k} == s.ops - {k};
    }
    WeightIsPositive(s.ops[k]);
  }

  lemma WeightIsPositive(op: Op)
    ensures Weight(op) >= 1
  {
  }

  /** While a process shuts down no step claims anything, and every effective step of
      an operation uses up part of a finite amount of work. */
  lemma DrainStep(s: State, a: Action)
    requires s.mode.Serving? && s.closing
    ensures var s' := DoWhileServing(s, a);
            s'.closing && s'.mode.Serving? && s'.config == s.config
            && s'.ops.Keys <= s.ops.Keys && Work(s'.ops) <= Work(s.ops)
            && (a.DoAdvance? && s' != s ==> Work(s'.ops) < Work(s.ops))
  {
    hide Work, Advance, Nearer, Answers, Misplaced, ClaimSend, ClaimReceive, LookupConfirm, ClaimConfirm, Append;
    NothingIsClaimed(s, a);
    if a.DoAdvance? && a.key in s.ops {
      AdvanceNearer(s, a.key, a.choice);
      if Advance(s, a.key, a.choice) != s {
        NearerKeeps(s, Advance(s, a.key, a.choice), a.key);
        NearerIsLess(s, Advance(s, a.key, a.choice), a.key);
      }
    }
  }

  lemma ClosedToSends(s: State, input: SendInput)
    requires s.closing
    ensures ClaimSend(s, input) == s
  {
    hide ValidInput, Binding, Grant;
  }

  lemma ClosedToReceives(s: State, envelope: Envelope, now: Time)
    requires s.closing
    ensures ClaimReceive(s, envelope, now) == s
  {
    hide ValidEnvelope, Grant;
  }

  lemma ClosedToConfirms(s: State, ack: Ack, envelope: Envelope)
    requires s.closing
    ensures ClaimConfirm(s, ack, envelope) == s.(looked := ClaimConfirm(s, ack, envelope).looked)
  {
    hide Grant;
  }

  lemma LookupKeeps(s: State, ack: Ack, now: Time)
    ensures var s' := LookupConfirm(s, ack, now); s' == s.(answers := s'.answers, looked := s'.looked)
  {
    hide ValidAck;
  }

  lemma NothingIsClaimed(s: State, a: Action)
    requires s.mode.Serving? && s.closing
    ensures !a.DoAdvance? ==>
              var s' := DoWhileServing(s, a);
              s'.closing && s'.mode == s.mode && s'.config == s.config && s'.ops == s.ops
  {
    hide ClaimSend, ClaimReceive, ClaimConfirm, LookupConfirm, NextEntry, Advance;
    match a
    case DoClaimSend(input) => ClosedToSends(s, input);
    case DoClaimReceive(envelope, now) => ClosedToReceives(s, envelope, now);
    case DoClaimConfirm(ack, envelope) => ClosedToConfirms(s, ack, envelope);
    case DoLookupConfirm(ack, now) => LookupKeeps(s, ack, now);
    case _ =>
  }

  lemma NearerKeeps(s: State, s': State, k: ClaimKey)
    requires Nearer(s, s', k)
    ensures s'.closing == s.closing && s'.mode == s.mode && s'.config == s.config
  {
    hide Weight;
  }

  ghost function Drained(s: State, actions: seq<Action>): State {
    if actions == [] then s else DoWhileServing(Drained(s, actions[..|actions| - 1]), actions[|actions| - 1])
  }

  /** The steps in which an operation actually moved. */
  ghost function EffectiveMoves(s: State, actions: seq<Action>): nat {
    if actions == [] then 0
    else
      var before, a := Drained(s, actions[..|actions| - 1]), actions[|actions| - 1];
      EffectiveMoves(s, actions[..|actions| - 1]) + if a.DoAdvance? && DoWhileServing(before, a) != before then 1 else 0
  }

  lemma {:induction false} DrainRun(s: State, actions: seq<Action>)
    requires s.mode.Serving? && s.closing
    ensures var s' := Drained(s, actions);
            s'.closing && s'.mode.Serving? && s'.ops.Keys <= s.ops.Keys && Work(s'.ops) + EffectiveMoves(s, actions) <= Work(s.ops)
  {
    hide Work, DoWhileServing;
    if actions != [] {
      DrainRun(s, actions[..|actions| - 1]);
      DrainStep(Drained(s, actions[..|actions| - 1]), actions[|actions| - 1]);
    }
  }

  /** From the moment a reachable process begins to shut down, whatever is scheduled,
      its operations move at most twelve times for each place of the semaphore. */
  lemma ShutdownDrains(s: State, actions: seq<Action>)
    requires Reachable(s) && s.mode.Serving? && s.closing
    ensures EffectiveMoves(s, actions) <= 12 * s.config.maxConcurrent
    ensures Drained(s, actions).ops.Keys <= s.ops.Keys
  {
    hide Reachable, Inv, Work, EffectiveMoves, Drained;
    DrainRun(s, actions);
    WorkWithinPlaces(s);
  }

  lemma WorkWithinPlaces(s: State)
    requires Reachable(s) && s.mode.Serving?
    ensures Work(s.ops) <= 12 * s.config.maxConcurrent
  {
    hide Reachable, Inv, Work;
    WorkIsBounded(s.ops);
    ClaimsAreBounded(s);
    assert |s.ops| == |s.ops.Keys| && |s.active| == |s.active.Keys|;
  }

  // ----- No operation is stuck -----

  lemma PlacedByKey(s: State, k: ClaimKey)
    requires KeyOk(s, k) && k in s.ops
    ensures !Misplaced(s.ops[k])
  {
    hide IndexOf, GateOf, EvaluationOk;
  }

  /** In a reachable state every claimed operation has an effective step, whatever the
      log does with an append and whatever the guards, the approvals and the source of
      identifiers answer. */
  lemma NeverStuck(s: State, k: ClaimKey, c: Choice)
    requires Reachable(s) && s.mode.Serving? && k in s.ops && Answers(s, c)
    ensures Nearer(s, Advance(s, k, c), k)
    ensures Work(Advance(s, k, c).ops) < Work(s.ops)
  {
    hide Reachable, Inv, KeyOk, LiveOk, Advance, Nearer, Answers, Misplaced, Work;
    ReachableSafe(s);
    InvKey(s, k);
    PlacedByKey(s, k);
    AdvanceNearer(s, k, c);
    NearerIsLess(s, Advance(s, k, c), k);
  }

  lemma WorkIsPositive(ops: map<ClaimKey, Op>, k: ClaimKey)
    requires k in ops
    ensures 0 < Work(ops)
  {
    WorkOfOne(ops, k);
    WeightIsPositive(ops[k]);
  }

  lemma NoWorkIsNothing(ops: map<ClaimKey, Op>)
    ensures Work(ops) == 0 <==> ops == map[]
  {
    if k :| k in ops {
      WorkIsPositive(ops, k);
    }
  }

  // ----- A shutdown completes -----

  /** The action takes one claimed operation further, with an answer that the environment can give. */
  ghost predicate Attends(s: State, a: Action) {
    a.DoAdvance? && a.key in s.ops && Answers(s, a.choice)
  }

  /** While the process shuts down and does not stop, the work shrinks with each step that
      attends to an operation, and no other step adds to it. */
  lemma ClosingStep(s: State, a: Action)
    requires Reachable(s) && s.mode.Serving? && s.closing && !a.DoHalt?
    ensures var s' := Do(s, a);
            Reachable(s') && s'.mode.Serving? && s'.closing && s'.config == s.config && Work(s'.ops) <= Work(s.ops)
            && (Attends(s, a) ==> Work(s'.ops) < Work(s.ops))
  {
    hide Reachable, Work, Advance, Answers, DoWhileServing, Nearer;
    StepStaysReachable(s, Do(s, a), a);
    if a.DoAdvance? && a.key in s.ops {
      AdvanceIsDone(s, a.key, a.choice);
    }
    DrainStep(s, a);
    if Attends(s, a) {
      NeverStuck(s, a.key, a.choice);
    }
  }

  ghost predicate Unbroken(actions: seq<Action>) {
    forall a :: a in actions ==> !a.DoHalt?
  }

  /** Nothing is claimed when the actions begin, or one of them attends to an operation. */
  ghost predicate Round(s: State, actions: seq<Action>) {
    s.ops == map[] || exists i :: 0 <= i < |actions| && Attends(Run(s, actions[..i]), actions[i])
  }

  lemma {:induction false} ClosingRun(s: State, actions: seq<Action>)
    requires Reachable(s) && s.mode.Serving? && s.closing && Unbroken(actions)
    ensures var s' := Run(s, actions);
            Reachable(s') && s'.mode.Serving? && s'.closing && s'.config == s.config && Work(s'.ops) <= Work(s.ops)
            && (Work(s.ops) > 0 && Round(s, actions) ==> Work(s'.ops) < Work(s.ops))
  {
    hide Reachable, Work, Do, Attends;
    NoWorkIsNothing(s.ops);
    if actions != [] {
      var n := |actions| - 1;
      ClosingRun(s, actions[..n]);
      ClosingStep(Run(s, actions[..n]), actions[n]);
      if s.ops != map[] && Round(s, actions) {
        RoundGrows(s, actions);
      }
    }
  }

  lemma RoundGrows(s: State, actions: seq<Action>)
    requires actions != [] && s.ops != map[] && Round(s, actions)
    ensures var n := |actions| - 1; Round(s, actions[..n]) || Attends(Run(s, actions[..n]), actions[n])
  {
    hide Run, Attends;
    var n := |actions| - 1;
    var i :| 0 <= i < |actions| && Attends(Run(s, actions[..i]), actions[i]);
    if i < n {
      assert actions[..n][..i] == actions[..i] && actions[..n][i] == actions[i];
    }
  }

  /** Any actions that never lose sight of the operations: each part of them attends to one
      while there is one. */
  ghost predicate Rounds(s: State, parts: seq<seq<Action>>)
    decreases |parts|
  {
    parts == [] || (Round(s, parts[0]) && Unbroken(parts[0]) && Rounds(Run(s, parts[0]), parts[1..]))
  }

  ghost function RunParts(s: State, parts: seq<seq<Action>>): State
    decreases |parts|
  {
    if parts == [] then s else RunParts(Run(s, parts[0]), parts[1..])
  }

  lemma {:induction false} RoundsDrain(s: State, parts: seq<seq<Action>>)
    requires Reachable(s) && s.mode.Serving? && s.closing && Rounds(s, parts)
    ensures var s' := RunParts(s, parts);
            Reachable(s') && s'.mode.Serving? && s'.closing && (Work(s.ops) <= |parts| ==> s'.ops == map[])
    decreases |parts|
  {
    hide Reachable, Work, Run, Round, Unbroken;
    NoWorkIsNothing(s.ops);
    if parts != [] {
      ClosingRun(s, parts[0]);
      RoundsDrain(Run(s, parts[0]), parts[1..]);
    }
  }

  /** A shutdown completes: whatever else happens in between, short of the end of the
      process, and in whatever order operations are attended to, all of them are released
      once operations have been attended to twelve times for each place of the semaphore. */
  lemma ShutdownCompletes(s: State, parts: seq<seq<Action>>)
    requires Reachable(s) && s.mode.Serving? && s.closing && Rounds(s, parts) && 12 * s.config.maxConcurrent <= |parts|
    ensures RunParts(s, parts).ops == map[] && RunParts(s, parts).mode.Serving? && RunParts(s, parts).closing
  {
    hide Reachable, Rounds, RunParts, Work;
    WorkWithinPlaces(s);
    RoundsDrain(s, parts);
  }
}
