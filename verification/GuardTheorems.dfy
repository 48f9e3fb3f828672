/** The guard as a gate on the log: what stands before every message that crosses,
    and how the reason of a verdict is recovered from the log alone. */
module GuardTheorems {
  import opened Records
  import opened Replay
  import opened Ledger

  function Severity(d: Decision): nat {
    match d
    case Allow => 0
    case Review => 1
    case _ => 2
  }

  function Worst(a: Decision, b: Decision): nat {
    if Severity(a) < Severity(b) then Severity(b) else Severity(a)
  }

  /** The reason of the more severe of two verdicts, of the second one if they are equal. */
  function WorstReason(a: Verdict, b: Verdict): string {
    if Severity(a.decision) > Severity(b.decision) then a.reason else b.reason
  }

  /** Past a deterministic deny, the effective decision is the more severe of the two verdicts. */
  lemma EffectiveIsWorst(a: Verdict, b: Verdict)
    requires IsVerdict(a.decision) && IsVerdict(b.decision) && a.decision != Deny
    ensures Severity(EffectiveVerdict(a, b).decision) == Worst(a.decision, b.decision)
    ensures EffectiveVerdict(a, b).reason == WorstReason(a, b)
  {
  }

  /** Nothing happens to the evaluation of `scope` strictly between `from` and `to`. */
  predicate Quiet(log: seq<Entry>, scope: Scope, from: nat, to: nat)
    requires to <= |log|
  {
    forall k :: from < k < to ==> !Evaluates(log[k].event, scope)
  }

  predicate IsScreening(log: seq<Entry>, scope: Scope, i: nat)
    requires i < |log|
  {
    log[i].event.DeterministicGuard? && ScopeOf(log[i].event.meta) == scope && IsVerdict(log[i].event.decision)
  }

  predicate IsJudgement(log: seq<Entry>, scope: Scope, j: nat)
    requires j < |log|
  {
    log[j].event.ModelGuard? && ScopeOf(log[j].event.meta) == scope && IsVerdict(log[j].event.decision)
  }

  predicate IsClearance(log: seq<Entry>, scope: Scope, c: nat)
    requires c < |log|
  {
    log[c].event.ApprovalConsumed? && ScopeOf(log[c].event.meta) == scope
  }

  lemma GateBefore(log: seq<Entry>, scope: Scope)
    requires log != []
    ensures var n := |log| - 1;
            GateOf(log, scope) == if Evaluates(log[n].event, scope) then GateStep(GateOf(log[..n], scope), log[n].event)
                                  else GateOf(log[..n], scope)
  {
  }

  /** A scope that has been screened was screened by its last evaluation event. */
  lemma {:induction false} ScreenedBy(name: string, log: seq<Entry>, scope: Scope) returns (i: nat)
    requires LogOk(name, log) && GateOf(log, scope).Screened?
    ensures i < |log| && IsScreening(log, scope, i) && Quiet(log, scope, i, |log|)
    ensures GateOf(log, scope) == Screened(log[i].event.decision, log[i].event.reason)
  {
    var n := |log| - 1;
    LogOkPrefix(name, log, n);
    assert EntryOk(name, log, n);
    GateBefore(log, scope);
    if Evaluates(log[n].event, scope) {
      i := n;
    } else {
      i := ScreenedBy(name, log[..n], scope);
    }
  }

  /** The verdict of a guard event. */
  function VerdictOf(event: Event): Verdict
    requires event.DeterministicGuard? || event.ModelGuard?
  {
    Verdict(event.decision, event.reason)
  }

  /** A judged scope was screened, not denied there, and then judged by the model. */
  lemma {:induction false} JudgedBy(name: string, log: seq<Entry>, scope: Scope) returns (i: nat, j: nat)
    requires LogOk(name, log) && GateOf(log, scope).Judged?
    ensures i < j < |log| && IsScreening(log, scope, i) && IsJudgement(log, scope, j)
    ensures Quiet(log, scope, i, j) && Quiet(log, scope, j, |log|)
    ensures log[i].event.decision != Deny
    ensures Severity(GateOf(log, scope).decision) == Worst(log[i].event.decision, log[j].event.decision)
    ensures GateOf(log, scope).reason == WorstReason(VerdictOf(log[i].event), VerdictOf(log[j].event))
  {
    var n := |log| - 1;
    LogOkPrefix(name, log, n);
    assert EntryOk(name, log, n);
    GateBefore(log, scope);
    if Evaluates(log[n].event, scope) {
      i := ScreenedBy(name, log[..n], scope);
      j := n;
      EffectiveIsWorst(Verdict(log[i].event.decision, log[i].event.reason),
                       Verdict(log[j].event.decision, log[j].event.reason));
    } else {
      i, j := JudgedBy(name, log[..n], scope);
    }
  }

  /** A cleared scope was judged as review and then approved. */
  lemma {:induction false} ClearedBy(name: string, log: seq<Entry>, scope: Scope) returns (i: nat, j: nat, c: nat)
    requires LogOk(name, log) && GateOf(log, scope).Cleared?
    ensures i < j < c < |log| && IsScreening(log, scope, i) && IsJudgement(log, scope, j) && IsClearance(log, scope, c)
    ensures Quiet(log, scope, i, j) && Quiet(log, scope, j, c) && Quiet(log, scope, c, |log|)
    ensures log[i].event.decision != Deny
    ensures Worst(log[i].event.decision, log[j].event.decision) == Severity(Review)
    ensures GateOf(log, scope).reason == WorstReason(VerdictOf(log[i].event), VerdictOf(log[j].event))
  {
    var n := |log| - 1;
    LogOkPrefix(name, log, n);
    assert EntryOk(name, log, n);
    GateBefore(log, scope);
    if Evaluates(log[n].event, scope) {
      c := n;
      i, j := JudgedBy(name, log[..n], scope);
    } else {
      i, j, c := ClearedBy(name, log[..n], scope);
    }
  }

  /** The scope and decision under which an event lets a message cross. */
  predicate Crosses(event: Event, scope: Scope, decision: Decision) {
    match event
    case OutboundReleased(meta, _, envelope, _) => ScopeOf(meta) == scope && envelope.content.guardDecision == decision
    case InboundAccepted(meta, _, _, _, _, d, _) => ScopeOf(meta) == scope && d == decision
    case _ => false
  }

  /** What lets a message cross stands at the gate. */
  lemma CrossingOpens(name: string, log: seq<Entry>, n: nat, scope: Scope, decision: Decision)
    requires LogOk(name, log) && n < |log| && Crosses(log[n].event, scope, decision)
    ensures LogOk(name, log[..n])
    ensures decision == Allow ==> GateOf(log[..n], scope).Judged? && GateOf(log[..n], scope).decision == Allow
    ensures !GateOf(log[..n], scope).Idle? && GateOf(log[..n], scope).reason == log[n].event.reason
    ensures decision != Allow ==> decision == ReviewApproved && GateOf(log[..n], scope).Cleared?
  {
    hide IndexOf, GateOf, EnvelopeFits, Carries;
    LogOkPrefix(name, log, n);
    assert EntryOk(name, log, n);
  }

  /** Every release and acceptance follows one deterministic and one model verdict,
      with no other evaluation of its scope in between: both allow, or their worst is
      review and an approval was consumed after them. The reason is that of the more severe. */
  lemma GuardGate(name: string, log: seq<Entry>, n: nat, scope: Scope, decision: Decision)
    returns (i: nat, j: nat, c: nat)
    requires LogOk(name, log) && n < |log| && Crosses(log[n].event, scope, decision)
    ensures i < j < n && IsScreening(log, scope, i) && IsJudgement(log, scope, j) && Quiet(log, scope, i, j)
    ensures log[i].event.decision != Deny
    ensures Worst(log[i].event.decision, log[j].event.decision) == 0 ==> decision == Allow && Quiet(log, scope, j, n)
    ensures Worst(log[i].event.decision, log[j].event.decision) == 1 ==>
              decision == ReviewApproved && j < c < n && IsClearance(log, scope, c)
              && Quiet(log, scope, j, c) && Quiet(log, scope, c, n)
    ensures Worst(log[i].event.decision, log[j].event.decision) < 2
    ensures log[n].event.reason == WorstReason(VerdictOf(log[i].event), VerdictOf(log[j].event))
  {
    hide LogOk, GateOf, Evaluates, Crosses;
    CrossingOpens(name, log, n, scope, decision);
    if decision == Allow {
      i, j := JudgedBy(name, log[..n], scope);
      c := 0;
    } else {
      i, j, c := ClearedBy(name, log[..n], scope);
    }
  }

  /** A deterministic deny is not followed by a model verdict until the scope is screened anew. */
  lemma DenialStopsEvaluation(name: string, log: seq<Entry>, scope: Scope, i: nat, n: nat) returns (k: nat)
    requires LogOk(name, log) && i < n < |log|
    requires IsScreening(log, scope, i) && log[i].event.decision == Deny && IsJudgement(log, scope, n)
    ensures i < k < n && IsScreening(log, scope, k)
  {
    LogOkPrefix(name, log, n);
    assert EntryOk(name, log, n);
    k := ScreenedBy(name, log[..n], scope);
    assert log[..n][k] == log[k];
    if k <= i {
      assert Evaluates(log[..n][i].event, scope);
      assert false;
    }
  }

  // ----- Logs whose final events do not state a reason -----

  function Erased(event: Event): Event {
    match event
    case OutboundReleased(meta, r, envelope, _) => OutboundReleased(meta, r, envelope, "")
    case InboundAccepted(meta, r, c, body, digest, decision, _) => InboundAccepted(meta, r, c, body, digest, decision, "")
    case _ => event
  }

  /** The event, or the event without its reason. */
  predicate WrittenFor(full: Event, written: Event) {
    written == full || written == Erased(full)
  }

  /** Entry `i` extends the chain before it. The event that it was written for may be
      appended there, and is the one it holds but for the reason. */
  predicate LegacyEntryOk(name: string, log: seq<Entry>, i: nat, full: Event)
    requires i < |log|
  {
    && log[i] == NextEntry(log[..i], log[i].event, log[i].at)
    && WrittenFor(full, log[i].event)
    && Admissible(name, log[..i], full)
  }

  /** The log was written for the events `full`, with their reasons or without. */
  predicate LegacyOk(name: string, log: seq<Entry>, full: seq<Event>) {
    |full| == |log| && forall i :: 0 <= i < |log| ==> LegacyEntryOk(name, log, i, full[i])
  }

  function EventsOf(log: seq<Entry>): seq<Event> {
    seq(|log|, i requires 0 <= i < |log| => log[i].event)
  }

  /** Logs in which every event states its reason are a special case. */
  lemma CurrentIsLegacy(name: string, log: seq<Entry>)
    requires LogOk(name, log)
    ensures LegacyOk(name, log, EventsOf(log))
  {
    hide Admissible;
    forall i | 0 <= i < |log| ensures LegacyEntryOk(name, log, i, EventsOf(log)[i]) {
      assert EntryOk(name, log, i);
    }
  }

  /** What follows a log in either form, with a reason or without, may be appended to it. */
  lemma LegacySnoc(name: string, log: seq<Entry>, full: seq<Event>, event: Event, written: Event, at: Time)
    requires LegacyOk(name, log, full) && Admissible(name, log, event) && WrittenFor(event, written)
    ensures LegacyOk(name, log + [NextEntry(log, written, at)], full + [event])
  {
    hide Admissible, WrittenFor, NextEntry;
    var after := log + [NextEntry(log, written, at)];
    NextHolds(log, written, at);
    forall i | 0 <= i < |after| ensures LegacyEntryOk(name, after, i, (full + [event])[i]) {
      assert after[..i] == log[..i] && log[..|log|] == log;
      if i < |log| {
        assert LegacyEntryOk(name, log, i, full[i]);
      }
    }
  }

  lemma NextHolds(log: seq<Entry>, event: Event, at: Time)
    ensures NextEntry(log, event, at).event == event && NextEntry(log, event, at).at == at
  {
  }

  lemma LegacyPrefix(name: string, log: seq<Entry>, full: seq<Event>, n: nat)
    requires LegacyOk(name, log, full) && n <= |log|
    ensures LegacyOk(name, log[..n], full[..n])
  {
    hide Admissible, WrittenFor, NextEntry;
    forall i | 0 <= i < n ensures LegacyEntryOk(name, log[..n], i, full[..n][i]) {
      assert log[..n][..i] == log[..i];
      assert LegacyEntryOk(name, log, i, full[i]);
    }
  }

  predicate Remembers(gate: Gate, verdict: Verdict) {
    match gate
    case Idle => true
    case Screened(d, r) => verdict == Verdict(d, r)
    case Judged(d, r) => verdict == Verdict(d, r)
    case Cleared(r) => verdict == Verdict(Review, r)
  }

  /** The verdict that the reconstruction remembers is the one at which the gate stands,
      whatever reasons are missing. */
  lemma {:induction false} LegacyDecision(name: string, log: seq<Entry>, full: seq<Event>, scope: Scope)
    requires LegacyOk(name, log, full)
    ensures Remembers(GateOf(log, scope), DecisionOf(IndexOf(0, log).decisions, scope))
  {
    if log != [] {
      var n := |log| - 1;
      LegacyPrefix(name, log, full, n);
      LegacyDecision(name, log[..n], full[..n], scope);
      assert LegacyEntryOk(name, log, n, full[n]);
      GateBefore(log, scope);
      RemembersStep(name, IndexOf(0, log[..n]), GateOf(log[..n], scope), GateOf(log[..n], EventScope(full[n])), full[n], log[n], scope);
    }
  }

  lemma RemembersStep(name: string, index: Index, gate: Gate, own: Gate, full: Event, entry: Entry, scope: Scope)
    requires WrittenFor(full, entry.event) && AdmissibleAt(name, index.box, own, full)
    requires EventScope(full) == scope ==> own == gate
    requires Remembers(gate, DecisionOf(index.decisions, scope))
    ensures Remembers(if Evaluates(entry.event, scope) then GateStep(gate, entry.event) else gate,
                      DecisionOf(Apply(0, index, entry).decisions, scope))
  {
    hide ApplyOutbox, ApplyIntake, EnvelopeFits, Carries;
  }

  lemma DecisionFollowsGate(name: string, log: seq<Entry>, scope: Scope)
    requires LogOk(name, log)
    ensures Remembers(GateOf(log, scope), DecisionOf(IndexOf(0, log).decisions, scope))
  {
    hide IndexOf, GateOf, LogOk, LegacyOk, Remembers;
    CurrentIsLegacy(name, log);
    LegacyDecision(name, log, EventsOf(log), scope);
  }

  predicate IsFinalEvent(event: Event) {
    event.OutboundReleased? || event.InboundAccepted?
  }

  /** From the log alone the reconstruction recovers the reason for which a message crossed. */
  lemma ReasonIsRecovered(name: string, key: Key, log: seq<Entry>, full: seq<Event>, n: nat)
    requires LegacyOk(name, log, full) && n < |log| && IsFinalEvent(full[n])
    ensures log[n].event.reason == full[n].reason || log[n].event.reason == ""
    ensures DecisionOf(IndexOf(key, log[..n]).decisions, ScopeOf(full[n].meta)).reason == full[n].reason
    ensures ReasonOf(IndexOf(key, log[..n]).decisions, full[n].meta, log[n].event.reason) == full[n].reason
  {
    hide LegacyOk, IndexOf, GateOf, AdmissibleAt;
    LegacySize(name, log, full);
    LegacyPrefix(name, log, full, n);
    LegacyDecision(name, log[..n], full[..n], EventScope(full[n]));
    KeyIsIrrelevant(key, 0, log[..n]);
    LegacyEntry(name, log, full, n);
    OpenReason(name, IndexOf(0, log[..n]).box, GateOf(log[..n], EventScope(full[n])), full[n]);
  }

  lemma LegacyEntry(name: string, log: seq<Entry>, full: seq<Event>, n: nat)
    requires LegacyOk(name, log, full) && n < |log|
    ensures LegacyEntryOk(name, log, n, full[n])
  {
    hide Admissible;
  }

  lemma OpenReason(name: string, box: Mailbox, gate: Gate, event: Event)
    requires AdmissibleAt(name, box, gate, event) && IsFinalEvent(event)
    ensures exists d :: gate == Judged(d, event.reason) || gate == Cleared(event.reason)
    ensures EventScope(event) == ScopeOf(event.meta)
  {
    hide EnvelopeFits, Carries;
    if event.OutboundReleased? {
      assert Opens(gate, event.envelope.content.guardDecision, event.reason);
    } else {
      assert Opens(gate, event.decision, event.reason);
    }
    assert gate == Judged(Allow, event.reason) || gate == Cleared(event.reason);
  }

  /** The log with its reasons filled in, under the hashes that it has. */
  function Restored(log: seq<Entry>, full: seq<Event>): seq<Entry>
    requires |full| == |log|
  {
    seq(|log|, i requires 0 <= i < |log| => log[i].(event := full[i]))
  }

  lemma RestoredPrefix(log: seq<Entry>, full: seq<Event>, n: nat)
    requires |full| == |log| && n <= |log|
    ensures Restored(log, full)[..n] == Restored(log[..n], full[..n])
  {
  }

  lemma RestoredStep(key: Key, index: Index, entry: Entry, full: Event)
    requires WrittenFor(full, entry.event)
    requires IsFinalEvent(full) ==> ReasonOf(index.decisions, full.meta, entry.event.reason) == full.reason
    ensures Apply(key, index, entry.(event := full)) == Apply(key, index, entry)
  {
    hide DecisionOf, AckVerifies, EffectiveVerdict;
    if entry.event == full {
      assert entry.(event := full) == entry;
    }
  }

  /** The reconstruction from a log in either form is the one from the log with all reasons. */
  lemma {:induction false} LegacyIndexIsRestored(name: string, key: Key, log: seq<Entry>, full: seq<Event>)
    requires LegacyOk(name, log, full)
    ensures IndexOf(key, log) == IndexOf(key, Restored(log, full))
  {
    hide Apply, LegacyOk, LegacyEntryOk, ReasonOf, WrittenFor;
    if log != [] {
      var n := |log| - 1;
      LegacySize(name, log, full);
      LegacyPrefix(name, log, full, n);
      LegacyIndexIsRestored(name, key, log[..n], full[..n]);
      RestoredPrefix(log, full, n);
      LegacyWritten(name, log, full, n);
      if IsFinalEvent(full[n]) {
        ReasonIsRecovered(name, key, log, full, n);
      }
      RestoredStep(key, IndexOf(key, log[..n]), log[n], full[n]);
    }
  }

  lemma LegacySize(name: string, log: seq<Entry>, full: seq<Event>)
    requires LegacyOk(name, log, full)
    ensures |full| == |log|
  {
  }

  lemma LegacyWritten(name: string, log: seq<Entry>, full: seq<Event>, n: nat)
    requires LegacyOk(name, log, full) && n < |log|
    ensures WrittenFor(full[n], log[n].event)
    ensures IsFinalEvent(full[n]) <==> IsFinalEvent(log[n].event)
  {
    hide Admissible;
    assert LegacyEntryOk(name, log, n, full[n]);
  }

  // ----- Logs whose reasons were erased -----

  function WithoutReason(entry: Entry): Entry {
    entry.(event := Erased(entry.event))
  }

  /** `legacy` is `log` with the reason erased from any of its releases and acceptances. */
  predicate ErasedFrom(log: seq<Entry>, legacy: seq<Entry>) {
    |legacy| == |log| && forall i :: 0 <= i < |log| ==> legacy[i] == log[i] || legacy[i] == WithoutReason(log[i])
  }

  /** Erasing reasons changes neither the reconstructed index nor whether the reconstruction succeeds. */
  lemma {:induction false} LegacyReplay(name: string, key: Key, log: seq<Entry>, legacy: seq<Entry>)
    requires LogOk(name, log) && ErasedFrom(log, legacy)
    ensures IndexOf(key, legacy) == IndexOf(key, log)
    ensures forall keys :: Replays(name, key, keys, legacy) <==> Replays(name, key, keys, log)
  {
    hide LogOk, IndexOf, ReceiptFits;
    forall i | 0 <= i <= |log|
      ensures IndexOf(key, legacy[..i]) == IndexOf(key, log[..i])
    {
      LegacyIndex(name, key, log, legacy, i);
    }
    assert legacy[..|log|] == legacy && log[..|log|] == log;
  }

  lemma {:induction false} LegacyIndex(name: string, key: Key, log: seq<Entry>, legacy: seq<Entry>, i: nat)
    requires LogOk(name, log) && ErasedFrom(log, legacy) && i <= |log|
    ensures IndexOf(key, legacy[..i]) == IndexOf(key, log[..i])
  {
    hide Apply, LogOk, DecisionOf;
    if i > 0 {
      var n := i - 1;
      LegacyIndex(name, key, log, legacy, n);
      if IsFinalEvent(log[n].event) {
        CurrentIsLegacy(name, log);
        ReasonIsRecovered(name, key, log, EventsOf(log), n);
      }
      assert log[..i][..n] == log[..n] && legacy[..i][..n] == legacy[..n];
      RestoredStep(key, IndexOf(key, log[..n]), legacy[n], log[n].event);
    }
  }
}
