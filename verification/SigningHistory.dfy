/** Key rotations and the walk back through them that yields every key a local
    endpoint has signed with. */
module SigningHistory {
  import opened Wrappers
  import opened Records

  /** The dual-signed transition from one key to the next. */
  function MakeRotation(name: string, previous: Key, next: Key, at: Time): Rotation {
    var content := UnsignedRotation(name, previous, next, at);
    var previousSignature := Signature(previous, RotationContent(content));
    Rotation(content, previousSignature, Signature(next, CountersignedRotation(content, previousSignature)))
  }

  predicate RotationVerifies(rotation: Rotation, name: string, pinned: Key) {
    var c := rotation.content;
    c.identity == name && c.previous == pinned && c.next != c.previous
    && rotation.previousSignature == Signature(c.previous, RotationContent(c))
    && rotation.newSignature == Signature(c.next, CountersignedRotation(c, rotation.previousSignature))
  }

  /** A transition verifies exactly if it is one that the holders of both keys made. */
  lemma VerifiesIfMade(rotation: Rotation, name: string, pinned: Key)
    ensures RotationVerifies(rotation, name, pinned)
        <==> rotation.content.next != pinned
             && rotation == MakeRotation(name, pinned, rotation.content.next, rotation.content.createdAt)
  {
  }

  /** The prepared transitions of a log, by the key they lead to. */
  function TransitionsOf(log: seq<Entry>): map<Key, Rotation> {
    if log == [] then map[]
    else
      var before, event := TransitionsOf(log[..|log| - 1]), log[|log| - 1].event;
      if event.RotationPrepared? then before[event.rotation.content.next := event.rotation] else before
  }

  lemma TransitionsOfSnoc(log: seq<Entry>, entry: Entry)
    ensures TransitionsOf(log + [entry])
         == if entry.event.RotationPrepared? then TransitionsOf(log)[entry.event.rotation.content.next := entry.event.rotation]
            else TransitionsOf(log)
  {
    assert (log + [entry])[..|log|] == log;
  }

  /** A verified transition leads from the second key to the first. */
  predicate Follows(name: string, transitions: map<Key, Rotation>, key: Key, previous: Key) {
    key in transitions && RotationVerifies(transitions[key], name, previous)
  }

  /** Distinct keys, newest first, each the verified successor of the next one. */
  predicate IsPath(name: string, transitions: map<Key, Rotation>, keys: seq<Key>) {
    keys != []
    && (forall i :: 0 <= i < |keys| - 1 ==> Follows(name, transitions, keys[i], keys[i + 1]))
    && (forall i, j :: 0 <= i < j < |keys| ==> keys[i] != keys[j])
  }

  /** A path that goes back to a key which no transition produced. */
  predicate IsHistory(name: string, transitions: map<Key, Rotation>, keys: seq<Key>) {
    IsPath(name, transitions, keys) && keys[|keys| - 1] !in transitions
  }

  /** A history runs along every path with the same first key. */
  lemma {:induction false} HistoryFollowsPath(name: string, transitions: map<Key, Rotation>, path: seq<Key>, history: seq<Key>)
    requires IsPath(name, transitions, path) && IsHistory(name, transitions, history)
    requires path[0] == history[0]
    ensures path <= history
    decreases |path|
  {
    if |path| > 1 {
      var n := |path| - 1;
      HistoryFollowsPath(name, transitions, path[..n], history);
      assert history[n - 1] == path[..n][n - 1] == path[n - 1];
      assert Follows(name, transitions, path[n - 1], path[n]);
      assert n - 1 < |history| - 1;
      assert Follows(name, transitions, history[n - 1], history[n]);
      assert path == path[..n] + [path[n]] && history[..n + 1] == history[..n] + [history[n]];
    }
  }

  /** There is at most one history for each current key. */
  lemma HistoryIsUnique(name: string, transitions: map<Key, Rotation>, a: seq<Key>, b: seq<Key>)
    requires IsHistory(name, transitions, a) && IsHistory(name, transitions, b) && a[0] == b[0]
    ensures a == b
  {
    HistoryFollowsPath(name, transitions, a, b);
    HistoryFollowsPath(name, transitions, b, a);
  }

  /** Where a path can still be followed, every history goes on with a verified and new key. */
  lemma HistoryPassesOn(name: string, transitions: map<Key, Rotation>, path: seq<Key>, history: seq<Key>)
    requires IsPath(name, transitions, path) && IsHistory(name, transitions, history) && path[0] == history[0]
    requires path[|path| - 1] in transitions
    ensures var rotation := transitions[path[|path| - 1]];
            RotationVerifies(rotation, name, rotation.content.previous) && rotation.content.previous !in path
  {
    HistoryFollowsPath(name, transitions, path, history);
    var n := |path| - 1;
    assert history[n] == path[n];
    assert Follows(name, transitions, history[n], history[n + 1]);
    assert forall i :: 0 <= i <= n ==> path[i] == history[i];
  }

  /** A transition to a key outside the history does not touch the history, and,
      if it starts at the current key, committing it extends the history. */
  lemma RotationExtendsHistory(name: string, transitions: map<Key, Rotation>, keys: seq<Key>, next: Key, at: Time)
    requires IsHistory(name, transitions, keys) && next !in keys
    ensures var extended := transitions[next := MakeRotation(name, keys[0], next, at)];
            IsHistory(name, extended, keys) && IsHistory(name, extended, [next] + keys)
  {
    var extended := transitions[next := MakeRotation(name, keys[0], next, at)];
    forall i | 0 <= i < |keys| - 1 ensures Follows(name, extended, keys[i], keys[i + 1]) {
      assert Follows(name, transitions, keys[i], keys[i + 1]);
      assert keys[i] != next;
    }
    assert keys[|keys| - 1] != next;
    var longer := [next] + keys;
    forall i | 0 <= i < |longer| - 1 ensures Follows(name, extended, longer[i], longer[i + 1]) {
      if i > 0 {
        assert longer[i] == keys[i - 1] && longer[i + 1] == keys[i];
      }
    }
  }

  /** The keys of an arbitrary transition map seen from `key`. The walk ends on
      every map; it fails exactly when a transition on the way does not verify or
      the transitions run into a cycle. */
  method WalkTransitions(name: string, key: Key, transitions: map<Key, Rotation>) returns (result: Option<seq<Key>>)
    ensures result.Some? ==> IsHistory(name, transitions, result.value) && result.value[0] == key
    ensures result.None? ==> forall keys :: IsHistory(name, transitions, keys) ==> keys[0] != key
  {
    var keys, current := [key], key;
    var seen := {key};
    ghost var left := transitions.Keys;
    while current in transitions
      invariant IsPath(name, transitions, keys) && keys[0] == key && current == keys[|keys| - 1]
      invariant forall k :: k in seen <==> k in keys
      invariant left == transitions.Keys - (set i | 0 <= i < |keys| - 1 :: keys[i])
      decreases left
    {
      var rotation := transitions[current];
      if !RotationVerifies(rotation, name, rotation.content.previous) || rotation.content.previous in seen {
        forall history | IsHistory(name, transitions, history) ensures history[0] != key {
          if history[0] == key {
            HistoryPassesOn(name, transitions, keys, history);
          }
        }
        return None;
      }
      assert current in left;
      left := left - {current};
      var before := keys;
      current := rotation.content.previous;
      keys := keys + [current];
      seen := seen + {current};
      assert forall i :: 0 <= i < |before| ==> keys[i] == before[i];
      assert (set i | 0 <= i < |keys| - 1 :: keys[i]) == (set i | 0 <= i < |before| - 1 :: before[i]) + {before[|before| - 1]};
    }
    return Some(keys);
  }

  /** The keys that may have signed a local receipt: the transitions are collected
      from the log, then walked from the current key. */
  method LocalSigningKeys(name: string, key: Key, log: seq<Entry>) returns (result: Option<seq<Key>>)
    ensures result.Some? ==> IsHistory(name, TransitionsOf(log), result.value) && result.value[0] == key
    ensures result.None? ==> forall keys :: IsHistory(name, TransitionsOf(log), keys) ==> keys[0] != key
  {
    var transitions: map<Key, Rotation> := map[];
    for i := 0 to |log|
      invariant transitions == TransitionsOf(log[..i])
    {
      TransitionsOfSnoc(log[..i], log[i]);
      assert log[..i + 1] == log[..i] + [log[i]];
      if log[i].event.RotationPrepared? {
        transitions := transitions[log[i].event.rotation.content.next := log[i].event.rotation];
      }
    }
    assert log[..|log|] == log;
    result := WalkTransitions(name, key, transitions);
  }
}
