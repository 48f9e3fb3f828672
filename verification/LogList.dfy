/** Listing the last entries of the log that match a filter, within a byte budget. */
module LogList {
  import opened Wrappers

  /** An entry as the listing sees it; `size` counts the bytes of its text and details. */
  datatype Entry = Entry(sequence: nat, kind: string, conversationID: string, size: nat)

  predicate Matches(e: Entry, kind: string, conversationID: string) {
    (kind == "" || e.kind == kind) && (conversationID == "" || e.conversationID == conversationID)
  }

  function Matching(log: seq<Entry>, kind: string, conversationID: string): seq<Entry> {
    if log == [] then []
    else
      var before := Matching(log[..|log| - 1], kind, conversationID);
      if Matches(log[|log| - 1], kind, conversationID) then before + [log[|log| - 1]] else before
  }

  /** Each entry with the kind and the conversation asked for occurs among the matches as
      often as in the log, and no other one occurs. */
  lemma {:induction false} MatchingIsExact(log: seq<Entry>, kind: string, conversationID: string, e: Entry)
    ensures multiset(Matching(log, kind, conversationID))[e]
         == if (kind != "" && e.kind != kind) || (conversationID != "" && e.conversationID != conversationID) then 0
            else multiset(log)[e]
  {
    if log != [] {
      var n := |log| - 1;
      MatchingIsExact(log[..n], kind, conversationID, e);
      assert log == log[..n] + [log[n]];
    }
  }

  lemma {:induction false} MatchingIsLogged(log: seq<Entry>, kind: string, conversationID: string)
    ensures forall e :: e in Matching(log, kind, conversationID) ==> e in log
  {
    hide Matches;
    if log != [] {
      MatchingIsLogged(log[..|log| - 1], kind, conversationID);
    }
  }

  /** All of them are entries of the log with the kind and the conversation asked for. */
  predicate Asked(entries: seq<Entry>, log: seq<Entry>, kind: string, conversationID: string) {
    forall e :: e in entries ==>
      e in log && (kind == "" || e.kind == kind) && (conversationID == "" || e.conversationID == conversationID)
  }

  predicate Ascending(entries: seq<Entry>) {
    forall i, j :: 0 <= i < j < |entries| ==> entries[i].sequence < entries[j].sequence
  }

  /** The matches keep the order of the log. */
  lemma {:induction false} MatchingAscends(log: seq<Entry>, kind: string, conversationID: string)
    requires Ascending(log)
    ensures Ascending(Matching(log, kind, conversationID))
  {
    hide Matches;
    if log != [] {
      var n := |log| - 1;
      MatchingAscends(log[..n], kind, conversationID);
      MatchingIsLogged(log[..n], kind, conversationID);
      var before := Matching(log[..n], kind, conversationID);
      forall i | 0 <= i < |before| ensures before[i].sequence < log[n].sequence {
        assert before[i] in log[..n];
      }
    }
  }

  function Total(entries: seq<Entry>): nat {
    if entries == [] then 0 else entries[0].size + Total(entries[1..])
  }

  lemma {:induction false} TotalOfConcat(a: seq<Entry>, b: seq<Entry>)
    ensures Total(a + b) == Total(a) + Total(b)
  {
    if a == [] {
      assert a + b == b;
    } else {
      TotalOfConcat(a[1..], b);
      assert (a + b)[1..] == a[1..] + b;
    }
  }

  lemma SuffixTotal(entries: seq<Entry>, i: nat, j: nat)
    requires i <= j <= |entries|
    ensures Total(entries[j..]) <= Total(entries[i..])
    ensures j == i + 1 ==> Total(entries[i..]) == entries[i].size + Total(entries[j..])
  {
    TotalOfConcat(entries[i..j], entries[j..]);
    assert entries[i..] == entries[i..j] + entries[j..];
    if j == i + 1 {
      assert entries[i..][1..] == entries[j..];
    }
  }

  /** The last entries, at most `limit` of them. */
  function LastOf(entries: seq<Entry>, limit: nat): seq<Entry> {
    if |entries| <= limit then entries else entries[|entries| - limit..]
  }

  /** The state of the pass: the retained entries with the ordinals of their matches and
      their bytes, the number of matches, and the last ordinal dropped for its bytes. */
  datatype Window = Window(entries: seq<Entry>, ordinals: seq<nat>, retained: int, matching: nat, lastBudgetDrop: nat)

  function DropOldest(w: Window): Window
    requires w.entries != [] && w.ordinals != []
  {
    w.(entries := w.entries[1..], ordinals := w.ordinals[1..], retained := w.retained - w.entries[0].size)
  }

  /** The window is a suffix of the matches with their ordinals and their total, and
      from the last entry dropped for its bytes on they exceed the budget. */
  ghost predicate WindowOk(matched: seq<Entry>, w: Window, maxBytes: nat) {
    && w.matching == |matched| && |w.ordinals| == |w.entries| <= |matched|
    && w.entries == matched[|matched| - |w.entries|..]
    && (forall i :: 0 <= i < |w.ordinals| ==> w.ordinals[i] == |matched| - |w.entries| + i + 1)
    && w.retained == Total(w.entries)
    && w.lastBudgetDrop <= |matched| - |w.entries|
    && (w.lastBudgetDrop > 0 ==> Total(matched[w.lastBudgetDrop - 1..]) > maxBytes)
  }

  /** How many of the matches are out of the window. */
  function Dropped(w: Window, limit: nat): nat {
    if w.matching - limit > w.lastBudgetDrop then w.matching - limit else w.lastBudgetDrop
  }

  lemma AddEntry(matched: seq<Entry>, e: Entry, w: Window, maxBytes: nat)
    requires WindowOk(matched, w, maxBytes)
    ensures WindowOk(matched + [e], Window(w.entries + [e], w.ordinals + [w.matching + 1], w.retained + e.size, w.matching + 1,
                                           w.lastBudgetDrop), maxBytes)
  {
    TotalOfConcat(w.entries, [e]);
    assert (matched + [e])[|matched| - |w.entries|..] == w.entries + [e];
    if w.lastBudgetDrop > 0 {
      TotalOfConcat(matched[w.lastBudgetDrop - 1..], [e]);
      assert (matched + [e])[w.lastBudgetDrop - 1..] == matched[w.lastBudgetDrop - 1..] + [e];
    }
  }

  lemma DropEntry(matched: seq<Entry>, w: Window, maxBytes: nat)
    requires WindowOk(matched, w, maxBytes) && w.entries != []
    ensures WindowOk(matched, DropOldest(w), maxBytes)
    ensures w.retained > maxBytes ==> WindowOk(matched, DropOldest(w).(lastBudgetDrop := w.ordinals[0]), maxBytes)
  {
    assert w.entries[1..] == matched[|matched| - |w.entries| + 1..];
  }

  /** Takes in one match and drops from the front until neither cap is exceeded. */
  method Retain(window: Window, e: Entry, limit: nat, maxBytes: nat, ghost matched: seq<Entry>) returns (w: Window)
    requires WindowOk(matched, window, maxBytes) && |matched| - |window.entries| == Dropped(window, limit)
    ensures WindowOk(matched + [e], w, maxBytes) && |matched| + 1 - |w.entries| == Dropped(w, limit) && w.retained <= maxBytes
  {
    hide Total;
    AddEntry(matched, e, window, maxBytes);
    w := window.(entries := window.entries + [e], ordinals := window.ordinals + [window.matching + 1],
                 retained := window.retained + e.size, matching := window.matching + 1);
    while |w.entries| > limit
      invariant WindowOk(matched + [e], w, maxBytes) && |matched| + 1 - |w.entries| <= Dropped(w, limit)
      invariant w.lastBudgetDrop == window.lastBudgetDrop && w.matching == window.matching + 1
      decreases |w.entries|
    {
      DropEntry(matched + [e], w, maxBytes);
      w := DropOldest(w);
    }
    while w.retained > maxBytes && |w.entries| > 0
      invariant WindowOk(matched + [e], w, maxBytes) && |matched| + 1 - |w.entries| == Dropped(w, limit)
      decreases |w.entries|
    {
      DropEntry(matched + [e], w, maxBytes);
      w := DropOldest(w).(lastBudgetDrop := w.ordinals[0]);
    }
    NothingLeft(w);
  }

  lemma NothingLeft(w: Window)
    ensures w.entries == [] ==> Total(w.entries) == 0
  {
  }

  /** One pass over the log with a window that drops its oldest entry for two reasons:
      too many entries, or too many bytes. It returns exactly the last matches, and it
      fails exactly when those are together larger than the budget. */
  method ScanLogEntries(log: seq<Entry>, kind: string, conversationID: string, limit: nat, maxBytes: nat)
    returns (r: Option<seq<Entry>>)
    ensures var last := LastOf(Matching(log, kind, conversationID), limit);
            r == if Total(last) > maxBytes then None else Some(last)
    ensures r.Some? ==> |r.value| <= limit && (Ascending(log) ==> Ascending(r.value))
    ensures r.Some? ==> Asked(r.value, log, kind, conversationID)
  {
    var w := Window([], [], 0, 0, 0);
    ghost var matched: seq<Entry> := [];
    for i := 0 to |log|
      invariant matched == Matching(log[..i], kind, conversationID)
      invariant WindowOk(matched, w, maxBytes) && |matched| - |w.entries| == Dropped(w, limit) && w.retained <= maxBytes
    {
      assert log[..i + 1][..i] == log[..i];
      if Matches(log[i], kind, conversationID) {
        w := Retain(w, log[i], limit, maxBytes, matched);
        matched := matched + [log[i]];
      }
    }
    assert log[..|log|] == log;
    var windowStart := w.matching - limit + 1;
    if windowStart < 1 { windowStart := 1; }
    WindowDecides(matched, w, limit, maxBytes);
    if Ascending(log) {
      MatchingAscends(log, kind, conversationID);
    }
    MatchingIsLogged(log, kind, conversationID);
    forall e | e in LastOf(matched, limit)
      ensures e in log && (kind == "" || e.kind == kind) && (conversationID == "" || e.conversationID == conversationID)
    {
      MatchingIsExact(log, kind, conversationID, e);
      assert e in matched;
    }
    return if w.lastBudgetDrop >= windowStart then None else Some(w.entries);
  }

  /** The last drop for bytes lies in the requested window exactly when that window is
      too large; otherwise the window is what was retained. */
  lemma WindowDecides(matched: seq<Entry>, w: Window, limit: nat, maxBytes: nat)
    requires WindowOk(matched, w, maxBytes) && |matched| - |w.entries| == Dropped(w, limit) && w.retained <= maxBytes
    ensures var windowStart := if w.matching - limit < 0 then 1 else w.matching - limit + 1;
            if w.lastBudgetDrop >= windowStart then Total(LastOf(matched, limit)) > maxBytes
            else LastOf(matched, limit) == w.entries && Total(LastOf(matched, limit)) <= maxBytes
  {
    var first: nat := if w.matching - limit < 0 then 0 else w.matching - limit;
    assert matched[0..] == matched;
    assert LastOf(matched, limit) == matched[first..];
    if w.lastBudgetDrop >= first + 1 {
      SuffixTotal(matched, first, w.lastBudgetDrop - 1);
    }
  }
}
