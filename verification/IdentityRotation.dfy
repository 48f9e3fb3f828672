/** Replacing the private key of an endpoint: a dual-signed certificate, the prepared
    event, the key itself, and the completed event, in this order. The command may stop
    after each of them. */
module IdentityRotation {
  import opened Wrappers
  import opened Records
  import opened Replay
  import opened Ledger
  import opened SigningHistory
  import opened Endpoint
  import opened Invariant
  import opened RunSafety
  import opened Guarantees

  /** How the replacement of the stored key ends. */
  datatype Replacement = Works | FailsBefore | FailsAfter

  /** The stored private key, named by its public key. */
  class KeyStore {
    var key: Key

    constructor (key: Key)
      ensures this.key == key
    {
      this.key := key;
    }
  }

  class RotationPlan {
    const rotation: Rotation
    var newKey: Option<Key>

    /** A transition from the current key, which is not touched yet. */
    constructor Prepare(store: KeyStore, name: string, next: Key, at: Time)
      ensures newKey == Some(next) && rotation == MakeRotation(name, store.key, next, at)
      ensures rotation.content.previous == store.key && rotation.content.next == next
      ensures next != store.key ==> RotationVerifies(rotation, name, store.key)
    {
      rotation := MakeRotation(name, store.key, next, at);
      newKey := Some(next);
    }

    /** Replaces the key, once, and only if it is still the one the transition starts
        from. A replacement that reports failure may have taken effect. */
    method Commit(store: KeyStore, replacement: Replacement) returns (ok: bool)
      modifies this, store
      ensures var may := old(newKey).Some? && old(store.key) == rotation.content.previous;
              && ok == (may && replacement.Works?)
              && store.key == (if may && !replacement.FailsBefore? then old(newKey).value else old(store.key))
              && newKey == if ok then None else old(newKey)
    {
      if newKey.None? { return false; }
      if store.key != rotation.content.previous { return false; }
      if !replacement.FailsBefore? {
        store.key := newKey.value;
      }
      if !replacement.Works? { return false; }
      newKey := None;
      return true;
    }
  }

  datatype Rotated = Complete | NotRecorded | NotCommitted | NotCompleted

  /** The state directory in the hands of the rotation command. */
  class Operator {
    const config: Config
    const store: KeyStore
    var log: seq<Entry>
    var logFailed: bool
    var approved: map<string, Approval>

    /** An entry whose append failed and that is on disk all the same. */
    var tail: seq<Entry>

    ghost var keys: seq<Key>
    ghost var owned: set<Key>
    ghost var mode: Mode
    ghost var answers: set<Answer>

    ghost function View(): State
      reads this, store
    {
      State(config, store.key, keys, owned, approved, log, tail, logFailed, mode, false, EmptyMailbox, map[], 0, map[], multiset{}, answers)
    }

    /** A new endpoint. */
    constructor (config: Config, store: KeyStore)
      ensures View() == Initial(config, store.key) && Valid() && this.store == store
    {
      this.config, this.store := config, store;
      log, tail, logFailed, approved := [], [], false, map[];
      mode, keys, owned, answers := Down, [store.key], {store.key}, {};
      new;
      assert Run(Initial(config, store.key), []) == View();
    }

    ghost predicate Valid()
      reads this, store
    {
      mode.Down? && Reachable(View())
    }

    method Append(event: Event, outcome: Outcome) returns (ok: bool)
      modifies `log, `tail, `logFailed
      ensures View() == Endpoint.Append(old(View()), event, outcome).0
      ensures ok == Endpoint.Append(old(View()), event, outcome).1.Some? == (!old(logFailed) && outcome.Stored?)
      ensures ok ==> !logFailed
    {
      hide Reachable, NextEntry;
      if logFailed { return false; }
      match outcome
      case Stored(at) =>
        log := log + [NextEntry(log, event, at)];
        return true;
      case Refused =>
        return false;
      case Lost =>
        logFailed := true;
        return false;
      case Uncertain(at) =>
        logFailed, tail := true, [NextEntry(log, event, at)];
        return false;
    }

    /** The process ends; the log is what is on disk. */
    method Exit()
      modifies `log, `tail, `logFailed, `mode
      ensures View() == Halt(old(View())) && mode.Down?
    {
      hide Reachable;
      log, tail, logFailed := log + tail, [], false;
      mode := Down;
    }

    /** Runs the rotation. Wherever it stops, the endpoint can be started again, and every
        earlier receipt verifies under a key of its history; the new key is in use exactly
        when the replacement took effect. */
    method Rotate(next: Key, at: Time, prepared: Outcome, replacement: Replacement, completed: Outcome) returns (r: Rotated)
      requires Valid() && next !in owned && !logFailed
      modifies this, store
      ensures Valid() && Rebuilds(View()) && SignedLocally(keys, log)
      ensures store.key == if r == NotRecorded || (r == NotCommitted && replacement.FailsBefore?) then old(store.key) else next
      ensures keys == if store.key == next then [next] + old(keys) else old(keys)
      ensures r == if !prepared.Stored? then NotRecorded
                   else if !replacement.Works? then NotCommitted
                   else if !completed.Stored? then NotCompleted
                   else Complete
    {
      hide Reachable, Do, NextEntry, Endpoint.Append, Halt, MakeRotation, Rebuilds, SignedLocally;
      ghost var s := View();
      CurrentKey(s);
      var plan := new RotationPlan.Prepare(store, config.name, next, at);
      owned := owned + {next};
      var ok := Append(RotationPrepared(plan.rotation), prepared);
      if ok {
        mode := Rotating(plan.rotation, false);
      } else {
        Exit();
      }
      Begins(s, next, at, prepared);
      StepStaysReachable(s, View(), DoBeginRotation(next, at, prepared));
      if ok {
        r := Proceed(plan, replacement, completed);
      } else {
        r := NotRecorded;
      }
      Restartable(View());
    }

    /** From the prepared event on: the key, then the completed event. */
    method Proceed(plan: RotationPlan, replacement: Replacement, completed: Outcome) returns (r: Rotated)
      requires Reachable(View()) && mode == Rotating(plan.rotation, false)
      requires plan.newKey == Some(plan.rotation.content.next) && plan.rotation.content.previous == store.key
      requires !logFailed && plan.rotation.content.next != store.key
      modifies this, store, plan
      ensures Valid()
      ensures store.key == if r == NotCommitted && replacement.FailsBefore? then old(store.key) else plan.rotation.content.next
      ensures keys == if store.key == plan.rotation.content.next then [store.key] + old(keys) else old(keys)
      ensures r == if !replacement.Works? then NotCommitted else if !completed.Stored? then NotCompleted else Complete
    {
      hide Reachable, Do, NextEntry, Endpoint.Append, Halt;
      ghost var s := View();
      var committed := plan.Commit(store, replacement);
      if !replacement.FailsBefore? {
        keys := [store.key] + keys;
        mode := Rotating(plan.rotation, true);
        Commits(s);
        StepStaysReachable(s, View(), DoCommitRotation);
      }
      s := View();
      if !committed {
        Exit();
        Halts(s);
        StepStaysReachable(s, View(), DoHalt);
        return NotCommitted;
      }
      var ok := Append(RotationCompleted(plan.rotation.content.previous, plan.rotation.content.next), completed);
      Exit();
      Completes(s, completed);
      StepStaysReachable(s, View(), DoCompleteRotation(completed));
      return if ok then Complete else NotCompleted;
    }
  }

  // ----- The steps of the machine -----

  lemma CurrentKey(s: State)
    requires Reachable(s)
    ensures s.key in s.owned && (s.mode.Down? ==> s.tail == [])
  {
    hide LogOk, SignedLocally, Authorized, AnswersOk, LiveOk, RotationOk, IsHistory, Reachable;
    ReachableSafe(s);
    KeysExist(s);
  }

  lemma KeysExist(s: State)
    requires KeysOk(s)
    ensures s.key in s.owned
  {
  }

  lemma Begins(s: State, next: Key, at: Time, outcome: Outcome)
    requires s.mode.Down? && next !in s.owned
    ensures var rotation := MakeRotation(s.config.name, s.key, next, at);
            var (after, entry) := Endpoint.Append(s.(owned := s.owned + {next}), RotationPrepared(rotation), outcome);
            Do(s, DoBeginRotation(next, at, outcome)) == if entry.Some? then after.(mode := Rotating(rotation, false)) else Halt(after)
  {
    hide Endpoint.Append, Halt, MakeRotation;
  }

  lemma Commits(s: State)
    requires s.mode.Rotating? && !s.mode.committed && s.key == s.mode.rotation.content.previous
    ensures var next := s.mode.rotation.content.next;
            Do(s, DoCommitRotation) == s.(key := next, keys := [next] + s.keys, mode := Rotating(s.mode.rotation, true))
  {
  }

  lemma Halts(s: State)
    ensures Do(s, DoHalt) == Halt(s)
  {
  }

  lemma Completes(s: State, outcome: Outcome)
    requires s.mode.Rotating? && s.mode.committed
    ensures var c := s.mode.rotation.content;
            Do(s, DoCompleteRotation(outcome)) == Halt(Endpoint.Append(s, RotationCompleted(c.previous, c.next), outcome).0)
  {
    hide Endpoint.Append, Halt;
  }

  /** Wherever a rotation has stopped, a start succeeds and all receipts verify. */
  lemma Restartable(s: State)
    requires Reachable(s) && s.mode.Down?
    ensures Rebuilds(s) && Disk(s) == s.known && SignedLocally(s.keys, s.known)
  {
    hide Reachable, Rebuilds, SignedLocally, IsHistory;
    RebuildAlwaysSucceeds(s);
    CurrentKey(s);
  }
}
