/** A counter of operations per fixed window that survives restarts: every admission is
    persisted first, and neither a restart, a failed write nor a clock that runs
    backwards replenishes it. */
module Budget {
  import opened Wrappers

  type Time = int

  /** The persisted record, if there is one and it decodes. */
  datatype Record = Record(start: Time, used: int)

  datatype Stored = Absent | Corrupt | Saved(record: Record)

  /** How a replacement of the persisted record ends. */
  datatype Persist = Works | FailsBefore | FailsAfter

  datatype Taken = Admitted | Exhausted | Unavailable

  /** The windows that can have begun since `first`, when the clock was at most `latest`. */
  function Windows(first: Time, latest: Time, window: int): int
    requires 0 < window
  {
    1 + (if latest > first then latest - first else 0) / window
  }

  lemma {:induction false} ProductGrows(n: int, a: int, b: int)
    requires 0 < n && a <= b
    ensures n * a <= n * b
    decreases b - a
  {
    if a < b {
      ProductGrows(n, a, b - 1);
      assert n * b == n * (b - 1) + n;
    }
  }

  lemma NextWindow(first: Time, previous: Time, next: Time, window: int)
    requires 0 < window && first <= previous && previous + window <= next
    ensures (next - first) / window >= (previous - first) / window + 1
  {
    var a, b := previous - first, next - first;
    assert a == window * (a / window) + a % window && b == window * (b / window) + b % window;
    if b / window <= a / window {
      ProductGrows(window, b / window, a / window);
    }
  }

  lemma QuotientGrows(a: int, b: int, window: int)
    requires 0 < window && 0 <= a <= b
    ensures a / window <= b / window
  {
    assert a == window * (a / window) + a % window && b == window * (b / window) + b % window;
    if b / window < a / window {
      ProductGrows(window, b / window + 1, a / window);
    }
  }

  /** So many admissions fit into the windows between two starts. */
  predicate Spent(n: nat, limit: int, first: Time, start: Time, window: int)
    requires 0 < window
  {
    n <= limit * ((start - first) / window)
  }

  class Counter {
    const limit: int
    const window: int
    /** What is on disk. */
    var stored: Stored
    var isOpen: bool
    var start: Option<Time>
    var used: int

    /** The first window start on disk, the latest clock value, and the admissions: all
        of them, those before the window on disk, and those in it. */
    ghost var first: Time
    ghost var latest: Time
    ghost var admitted: nat
    ghost var earlier: nat
    ghost var inWindow: nat

    ghost predicate Valid()
      reads this
    {
      if limit <= 0 || window <= 0 then !isOpen && admitted == 0 else Accounted()
    }

    ghost predicate Accounted()
      requires 0 < window
      reads this
    {
      && admitted == earlier + inWindow && inWindow <= limit
      && (!stored.Saved? ==> admitted == 0)
      && (stored.Saved? ==>
            var d := stored.record;
            first <= d.start && (d.start == first || d.start <= latest)
            && Spent(earlier, limit, first, d.start, window) && (inWindow > 0 ==> inWindow <= d.used))
      && (isOpen ==> MemoryOk())
    }

    ghost predicate MemoryOk()
      reads this
    {
      && !stored.Corrupt? && 0 <= used
      && (start.None? ==> stored.Absent? && used == 0)
      && (start.Some? && stored.Absent? ==> used == 0)
      && (start.Some? && start.value > latest ==> stored.Saved? && start.value == stored.record.start)
      && (start.Some? && stored.Saved? ==>
            if start.value == stored.record.start then inWindow <= used <= stored.record.used
            else used == 0 && stored.record.start + window <= start.value)
    }

    /** A counter over whatever the directory holds. */
    constructor (limit: int, window: int, stored: Stored)
      ensures Valid() && !isOpen && this.stored == stored && this.limit == limit && this.window == window && admitted == 0
      ensures stored.Saved? ==> first == stored.record.start
    {
      this.limit, this.window, this.stored := limit, window, stored;
      isOpen, start, used := false, None, 0;
      first := if stored.Saved? then stored.record.start else 0;
      latest := if stored.Saved? then stored.record.start else 0;
      admitted, earlier, inWindow := 0, 0, 0;
    }

    /** Loads the record. A corrupt one is refused rather than replaced, and so are limits
        and windows that are not positive. */
    method Open() returns (ok: bool)
      requires Valid() && !isOpen
      modifies `isOpen, `start, `used
      ensures Valid() && isOpen == ok && stored == old(stored)
      ensures ok <==> 0 < limit && 0 < window && (stored.Absent? || (stored.Saved? && stored.record.used >= 0))
    {
      if limit <= 0 || window <= 0 { return false; }
      match stored
      case Absent =>
        isOpen, start, used := true, None, 0;
        return true;
      case Corrupt =>
        return false;
      case Saved(record) =>
        if record.used < 0 { return false; }
        isOpen, start, used := true, Some(record.start), record.used;
        return true;
    }

    /** Also what a crash does. */
    method Close()
      requires Valid()
      modifies `isOpen
      ensures Valid() && !isOpen
    {
      isOpen := false;
    }

    /** Charges one operation. When the window is over the whole allowance is there again;
        before, each charge uses one of it, and a used-up allowance refuses. The persisted
        window start never moves backwards, and whatever is admitted has been persisted. */
    method Take(now: Time, persist: Persist) returns (r: Taken)
      requires Valid()
      modifies this
      ensures Valid() && isOpen == old(isOpen) && latest >= old(latest) && latest >= now
      ensures admitted == old(admitted) + if r.Admitted? then 1 else 0
      ensures r.Admitted? ==> persist.Works? && stored.Saved? && start == Some(stored.record.start) && used == stored.record.used <= limit
      ensures old(stored).Saved? ==> stored.Saved? && stored.record.start >= old(stored).record.start && first == old(first)
      ensures !old(stored).Saved? && stored.Saved? ==> first == stored.record.start
      ensures !old(isOpen) ==> r == Unavailable && stored == old(stored) && start == old(start) && used == old(used)
      ensures old(isOpen) && (old(start).None? || old(start).value + window <= now) ==>
                start == Some(now)
                && (if persist.Works? then r == Admitted && used == 1 else r == Unavailable && used == 0)
                && stored == if persist.FailsBefore? then old(stored) else Saved(Record(now, 1))
      ensures old(isOpen) && old(start).Some? && now < old(start).value + window && old(used) < limit ==>
                start == old(start)
                && (if persist.Works? then r == Admitted && used == old(used) + 1 else r == Unavailable && used == old(used))
                && stored == if persist.FailsBefore? then old(stored) else Saved(Record(start.value, old(used) + 1))
      ensures old(isOpen) && old(start).Some? && now < old(start).value + window && old(used) >= limit ==>
                r == Exhausted && start == old(start) && used == old(used) && stored == old(stored)
    {
      hide Spent;
      latest := if now > latest then now else latest;
      if !isOpen { return Unavailable; }
      Roll(now);
      if used >= limit { return Exhausted; }
      if persist.FailsBefore? { return Unavailable; }
      Replace(Record(start.value, used + 1), persist.Works?);
      if persist.FailsAfter? { return Unavailable; }
      used := used + 1;
      return Admitted;
    }

    /** Begins a window if none is known or the known one is over. A clock behind the
        start of the window does not end it. */
    method Roll(now: Time)
      requires Valid() && isOpen && now <= latest
      modifies `start, `used
      ensures Valid() && start.Some?
      ensures if old(start).None? || old(start).value + window <= now then start == Some(now) && used == 0
              else start == old(start) && used == old(used)
    {
      if start.None? {
        start := Some(now);
      }
      if now - start.value >= window {
        start, used := Some(now), 0;
      }
    }

    /** Replaces the record on disk, for an operation that is admitted or not. */
    method Replace(next: Record, ghost admits: bool)
      requires Valid() && isOpen && start == Some(next.start) && next.used == used + 1 <= limit
      requires next.start <= latest || (stored.Saved? && stored.record.start == next.start)
      modifies `stored, `first, `admitted, `earlier, `inWindow
      ensures stored == Saved(next) && admitted == old(admitted) + if admits then 1 else 0
      ensures first == if old(stored).Saved? then old(first) else next.start
      ensures admitted == earlier + inWindow && inWindow <= (if admits then used + 1 else used)
      ensures first <= next.start && Spent(earlier, limit, first, next.start, window)
    {
      if stored.Saved? && stored.record.start != next.start {
        NextWindow(first, stored.record.start, next.start, window);
        OneMoreWindow(limit, (stored.record.start - first) / window, (next.start - first) / window);
        earlier, inWindow := earlier + inWindow, 0;
      }
      if !stored.Saved? {
        first := next.start;
      }
      if admits {
        admitted, inWindow := admitted + 1, inWindow + 1;
      }
      stored := Saved(next);
    }

    /** Over any run of openings, charges, failures and crashes, with any clock: no more
        admissions than the limit for each window that can have begun. */
    lemma AdmissionsAreBounded()
      requires Valid()
      ensures if limit <= 0 || window <= 0 then admitted == 0 else admitted <= limit * Windows(first, latest, window)
    {
      if stored.Saved? && 0 < limit && 0 < window {
        var d, l := stored.record.start - first, if latest > first then latest - first else 0;
        QuotientGrows(d, l, window);
        OneMoreWindow(limit, d / window, l / window + 1);
      }
    }
  }

  lemma OneMoreWindow(limit: int, a: int, b: int)
    requires 0 < limit && a + 1 <= b
    ensures limit * a + limit <= limit * b
  {
    ProductGrows(limit, a + 1, b);
    assert limit * (a + 1) == limit * a + limit;
  }
}
