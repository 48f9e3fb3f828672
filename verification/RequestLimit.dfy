/** Admission of inbound messages below the protocol SDK: a bounded number of calls in
    flight, a bounded number of other messages, and busy answers for the rest. The
    methods are the sections that the program runs under its lock; `Interfere` stands
    for the sections of other goroutines in between. */
module RequestLimit {
  import opened Wrappers
  import FrameReader

  type Frame = seq<FrameReader.Byte>

  datatype RequestID = Number(n: int) | Text(s: string)

  /** What a frame decodes to. */
  datatype Kind = Batch | Undecodable | Call(id: RequestID) | Reply(id: RequestID) | Notification

  const MAX_NON_CALLS := 16

  /** What went to the SDK, and which responses entered the output lane. */
  datatype Passage = Forwarded(id: RequestID) | Responded(id: RequestID) | ForwardedOther | ForwardedUndecoded

  // ----- Alternation -----

  /** A call with this ID was forwarded and not responded to since. */
  predicate Open(trace: seq<Passage>, id: RequestID) {
    if trace == [] then false
    else
      match trace[|trace| - 1]
      case Forwarded(j) => j == id || Open(trace[..|trace| - 1], id)
      case Responded(j) => j != id && Open(trace[..|trace| - 1], id)
      case _ => Open(trace[..|trace| - 1], id)
  }

  /** Calls and responses of this ID take turns, beginning with a call. */
  predicate Alternates(trace: seq<Passage>, id: RequestID) {
    trace == []
    || (Alternates(trace[..|trace| - 1], id)
        && match trace[|trace| - 1]
           case Forwarded(j) => j == id ==> !Open(trace[..|trace| - 1], id)
           case Responded(j) => j == id ==> Open(trace[..|trace| - 1], id)
           case _ => true)
  }

  function Count(trace: seq<Passage>, p: Passage): nat {
    if trace == [] then 0 else Count(trace[..|trace| - 1], p) + if trace[|trace| - 1] == p then 1 else 0
  }

  /** Taking turns, in numbers: at every point the calls forwarded under an ID exceed
      its responses by one or not at all. */
  lemma {:induction false} AlternationCounts(trace: seq<Passage>, id: RequestID, i: nat)
    requires Alternates(trace, id) && i <= |trace|
    ensures Count(trace[..i], Forwarded(id)) == Count(trace[..i], Responded(id)) + if Open(trace[..i], id) then 1 else 0
    decreases |trace|
  {
    if i < |trace| {
      AlternationCounts(trace[..|trace| - 1], id, i);
      assert trace[..|trace| - 1][..i] == trace[..i];
    } else if trace != [] {
      AlternationCounts(trace[..|trace| - 1], id, |trace| - 1);
      assert trace[..i] == trace && trace[..|trace| - 1][..|trace| - 1] == trace[..|trace| - 1];
    }
  }

  /** What one more passage changes. */
  lemma Passed(trace: seq<Passage>, p: Passage)
    ensures Count(trace + [p], ForwardedOther) == Count(trace, ForwardedOther) + if p.ForwardedOther? then 1 else 0
    ensures forall id :: Open(trace + [p], id) == match p
                                                  case Forwarded(j) => j == id || Open(trace, id)
                                                  case Responded(j) => j != id && Open(trace, id)
                                                  case _ => Open(trace, id)
    ensures forall id :: Alternates(trace, id) && p != Forwarded(id) && p != Responded(id) ==> Alternates(trace + [p], id)
    ensures forall id :: Alternates(trace, id) && !Open(trace, id) ==> Alternates(trace + [Forwarded(id)], id)
    ensures forall id :: Alternates(trace, id) && Open(trace, id) ==> Alternates(trace + [Responded(id)], id)
  {
    assert forall q :: (trace + [q])[..|trace|] == trace;
  }

  lemma Flattened(frames: seq<Frame>, frame: Frame)
    ensures FrameReader.Flatten(frames + [frame]) == FrameReader.Flatten(frames) + frame
  {
    assert (frames + [frame])[..|frames|] == frames;
  }

  /** The responses that enter the lane for these IDs, one for each that is pending. */
  function Begun(pending: set<RequestID>, ids: seq<RequestID>): seq<Passage> {
    if ids == [] then []
    else (if ids[0] in pending then [Responded(ids[0])] else []) + Begun(pending - {ids[0]}, ids[1..])
  }

  lemma OneBegun(trace: seq<Passage>, pending: set<RequestID>, ids: seq<RequestID>, i: nat)
    requires i < |ids|
    ensures var mine := if ids[i] in pending then [Responded(ids[i])] else [];
            trace + Begun(pending, ids[i..]) == trace + mine + Begun(pending - {ids[i]}, ids[i + 1..])
    ensures Without(pending, ids[i..]) == Without(pending - {ids[i]}, ids[i + 1..])
  {
    assert ids[i..][1..] == ids[i + 1..];
  }

  lemma NoneBegun(trace: seq<Passage>, pending: set<RequestID>, ids: seq<RequestID>)
    ensures trace + Begun(pending, ids[|ids|..]) == trace && Without(pending, ids[|ids|..]) == pending
  {
  }

  function Without(pending: set<RequestID>, ids: seq<RequestID>): set<RequestID> {
    if ids == [] then pending else Without(pending - {ids[0]}, ids[1..])
  }

  /** The frames that went on to the SDK. */
  function Forwards(handled: seq<(Frame, Admission)>): seq<Frame> {
    if handled == [] then []
    else
      var before, last := Forwards(handled[..|handled| - 1]), handled[|handled| - 1];
      if last.1.Forward? then before + [last.0] else before
  }

  /** The busy answers that were owed, in order. */
  function Busies(handled: seq<(Frame, Admission)>, classify: Frame -> Kind, busy: RequestID -> Frame): seq<Frame> {
    if handled == [] then []
    else
      var before, last := Busies(handled[..|handled| - 1], classify, busy), handled[|handled| - 1];
      if last.1.Busy? && classify(last.0).Call? then before + [busy(classify(last.0).id)] else before
  }

  function FramesOf(handled: seq<(Frame, Admission)>): seq<Frame> {
    if handled == [] then [] else FramesOf(handled[..|handled| - 1]) + [handled[|handled| - 1].0]
  }

  lemma Handled(handled: seq<(Frame, Admission)>, frame: Frame, r: Admission, classify: Frame -> Kind, busy: RequestID -> Frame)
    ensures var more := handled + [(frame, r)];
            && Forwards(more) == (if r.Forward? then Forwards(handled) + [frame] else Forwards(handled))
            && Busies(more, classify, busy)
               == (if r.Busy? && classify(frame).Call? then Busies(handled, classify, busy) + [busy(classify(frame).id)]
                   else Busies(handled, classify, busy))
            && FramesOf(more) == FramesOf(handled) + [frame]
  {
    assert (handled + [(frame, r)])[..|handled|] == handled;
  }

  // ----- The stream -----

  datatype StreamError = Stopped | BudgetExhausted | BatchUnsupported | NonCallsExhausted | Duplicate
                       | OutputTooLarge | Unclassified | WriteError | ReadError(error: FrameReader.FrameError)

  datatype Admission = Forward | Busy | Refuse(error: StreamError)

  class Stream {
    const maxInFlight: nat
    const maxOutputBytes: nat
    const classify: Frame -> Kind
    /** The encoded answer to a call over the limit. */
    const busy: RequestID -> Frame
    const reader: FrameReader.Reader
    var stopped: bool
    var pending: set<RequestID>
    var responding: int
    var nonCalls: nat
    var readBuffer: Frame

    /** The output lane, with the responses that its holder began. */
    var lane: Option<nat>

    ghost var trace: seq<Passage>
    /** What was decided on each frame read, the frames that went on, and the busy answers given. */
    ghost var handled: seq<(Frame, Admission)>
    ghost var admitted: seq<Frame>
    ghost var excused: seq<Frame>
    ghost var delivered: Frame
    ghost var discarded: bool
    ghost var written: seq<Frame>

    ghost predicate Valid()
      reads this
    {
      && responding >= 0 && |pending| + responding <= maxInFlight
      && (stopped ==> pending == {} && responding == 0)
      && (!stopped ==> responding == if lane.Some? then lane.value else 0)
      && nonCalls == Count(trace, ForwardedOther) <= MAX_NON_CALLS
      && (forall id :: Alternates(trace, id))
      && (!stopped ==> forall id :: id in pending <==> Open(trace, id))
      && admitted == Forwards(handled)
      && (forall f :: f in written ==> Presentable(f))
      && (if discarded then stopped && readBuffer == [] && delivered <= FrameReader.Flatten(admitted)
          else delivered + readBuffer == FrameReader.Flatten(admitted))
    }

    /** A frame that may be written: a busy answer, or one message within the byte limit. */
    ghost predicate Presentable(frame: Frame) {
      (exists id :: frame == busy(id)) || (|frame| <= maxOutputBytes && !classify(frame).Batch? && !classify(frame).Undecodable?)
    }

    /** The frames handled so far and those to come are the frames of the input. */
    ghost predicate Sourced(whole: (seq<Frame>, FrameReader.FrameError))
      reads `handled, reader
    {
      reader.SourceOk()
      && whole == FrameReader.Prepend(FramesOf(handled), ToCome())
    }

    ghost function ToCome(): (seq<Frame>, FrameReader.FrameError)
      reads reader
    {
      if reader.afterErr.Some? then ([], reader.afterErr.value)
      else FrameReader.AllFrames(reader.input, reader.final, reader.limit, reader.check, reader.alone)
    }

    constructor (maxInFlight: nat, maxOutputBytes: nat, classify: Frame -> Kind, busy: RequestID -> Frame, reader: FrameReader.Reader)
      ensures Valid() && !stopped && lane.None? && trace == [] && handled == [] && excused == [] && written == []
      ensures this.classify == classify && this.busy == busy && this.reader == reader
      ensures this.maxInFlight == maxInFlight && this.maxOutputBytes == maxOutputBytes
    {
      this.maxInFlight, this.maxOutputBytes, this.classify, this.busy, this.reader := maxInFlight, maxOutputBytes, classify, busy, reader;
      stopped, pending, responding, nonCalls, readBuffer := false, {}, 0, 0, [];
      lane, trace, handled, admitted, excused, delivered, discarded, written := None, [], [], [], [], [], false, [];
    }

    /** Sections of other goroutines. They may stop the stream, and leave alone what the
        caller's own locks protect: the reading side, the output lane, or both. */
    method Interfere(ghost reading: bool, ghost writing: bool)
      requires Valid()
      modifies this
      ensures Valid() && (old(stopped) ==> stopped) && old(trace) <= trace && old(written) <= written
      ensures reading ==> readBuffer == old(readBuffer) && handled == old(handled) && admitted == old(admitted)
                          && excused == old(excused) && delivered == old(delivered) && discarded == old(discarded)
      ensures writing ==> lane == old(lane) && written == old(written)
    {
    }

    /** Waits for the output lane. */
    method AwaitLane(ghost reading: bool)
      requires Valid()
      modifies this
      ensures Valid() && lane.None? && (old(stopped) ==> stopped) && old(trace) <= trace && old(written) <= written
      ensures reading ==> readBuffer == old(readBuffer) && handled == old(handled) && admitted == old(admitted)
                          && excused == old(excused) && delivered == old(delivered) && discarded == old(discarded)
    {
      hide Open, Alternates, Count, FrameReader.Flatten, Forwards, Presentable;
      Interfere(reading, true);
      if lane.Some? {
        var _ := FinishResponses(lane.value);
      }
    }

    // ----- Input -----

    /** Charges, classifies and admits one frame. */
    method AdmitFrame(frame: Frame, budget: bool) returns (r: Admission)
      requires Valid() && readBuffer == [] && !discarded
      modifies `nonCalls, `pending, `trace, `admitted, `readBuffer, `handled
      ensures var kind := classify(frame);
              r == if !budget then Refuse(BudgetExhausted)
                   else if kind.Batch? then Refuse(BatchUnsupported)
                   else if kind.Undecodable? then Forward
                   else if stopped then Refuse(Stopped)
                   else if kind.Call? then
                     if kind.id in old(pending) then Refuse(Duplicate)
                     else if |old(pending)| + responding >= maxInFlight then Busy
                     else Forward
                   else if old(nonCalls) >= MAX_NON_CALLS then Refuse(NonCallsExhausted)
                   else Forward
      ensures handled == old(handled) + [(frame, r)] && readBuffer == if r.Forward? then frame else []
      ensures pending == if r.Forward? && classify(frame).Call? then old(pending) + {classify(frame).id} else old(pending)
      ensures trace == old(trace) + if !r.Forward? then []
                                    else [match classify(frame)
                                          case Call(id) => Forwarded(id)
                                          case Undecodable => ForwardedUndecoded
                                          case _ => ForwardedOther]
      ensures Valid()
    {
      hide Open, Alternates, Count, FrameReader.Flatten, Forwards, Presentable;
      if !budget {
        r := Turn(frame, Refuse(BudgetExhausted));
        return;
      }
      var kind := classify(frame);
      if kind.Batch? {
        r := Turn(frame, Refuse(BatchUnsupported));
        return;
      }
      if kind.Undecodable? {
        Passed(trace, ForwardedUndecoded);
        Pass(frame, ForwardedUndecoded);
        return Forward;
      }
      if stopped {
        r := Turn(frame, Refuse(Stopped));
        return;
      }
      if !kind.Call? {
        r := AdmitOther(frame);
        return;
      }
      r := AdmitCall(frame, kind.id);
    }

    method AdmitOther(frame: Frame) returns (r: Admission)
      requires Valid() && readBuffer == [] && !discarded
      modifies `nonCalls, `trace, `admitted, `readBuffer, `handled
      ensures r == if old(nonCalls) >= MAX_NON_CALLS then Refuse(NonCallsExhausted) else Forward
      ensures handled == old(handled) + [(frame, r)] && readBuffer == if r.Forward? then frame else []
      ensures trace == old(trace) + if r.Forward? then [ForwardedOther] else []
      ensures Valid()
    {
      hide Open, Alternates, Count, FrameReader.Flatten, Forwards, Presentable;
      if nonCalls >= MAX_NON_CALLS {
        r := Turn(frame, Refuse(NonCallsExhausted));
        return;
      }
      Passed(trace, ForwardedOther);
      nonCalls := nonCalls + 1;
      Pass(frame, ForwardedOther);
      return Forward;
    }

    method AdmitCall(frame: Frame, id: RequestID) returns (r: Admission)
      requires Valid() && readBuffer == [] && !discarded && !stopped
      modifies `pending, `trace, `admitted, `readBuffer, `handled
      ensures r == if id in old(pending) then Refuse(Duplicate)
                   else if |old(pending)| + responding >= maxInFlight then Busy
                   else Forward
      ensures handled == old(handled) + [(frame, r)] && readBuffer == if r.Forward? then frame else []
      ensures pending == if r.Forward? then old(pending) + {id} else old(pending)
      ensures trace == old(trace) + if r.Forward? then [Forwarded(id)] else []
      ensures Valid()
    {
      hide Open, Alternates, Count, FrameReader.Flatten, Forwards, Presentable;
      if id in pending {
        r := Turn(frame, Refuse(Duplicate));
        return;
      }
      if |pending| + responding >= maxInFlight {
        r := Turn(frame, Busy);
        return;
      }
      Passed(trace, Forwarded(id));
      pending := pending + {id};
      Pass(frame, Forwarded(id));
      return Forward;
    }

    /** The frame does not go on. */
    method Turn(frame: Frame, decision: Admission) returns (r: Admission)
      requires Valid() && !decision.Forward?
      modifies `handled
      ensures Valid() && r == decision && handled == old(handled) + [(frame, r)]
    {
      hide Open, Alternates, Count, FrameReader.Flatten, Forwards, Presentable;
      Handled(handled, frame, decision, classify, busy);
      handled := handled + [(frame, decision)];
      return decision;
    }

    /** The frame is next for the SDK. */
    method Pass(frame: Frame, ghost p: Passage)
      requires readBuffer == [] && admitted == Forwards(handled)
      modifies `trace, `admitted, `readBuffer, `handled
      ensures trace == old(trace) + [p] && readBuffer == frame
      ensures handled == old(handled) + [(frame, Forward)] && admitted == Forwards(handled)
      ensures delivered == FrameReader.Flatten(old(admitted)) ==> delivered + readBuffer == FrameReader.Flatten(admitted)
    {
      Flattened(admitted, frame);
      Handled(handled, frame, Forward, classify, busy);
      trace, admitted, readBuffer := trace + [p], admitted + [frame], frame;
      handled := handled + [(frame, Forward)];
    }

    /** Hands at most `size` bytes of admitted frames to the SDK, in their order. What was
        decided is about the frames of the input, each once and in their order, and every
        call that was turned away as busy was told so, unless the stream ended before. */
    method Read(size: nat, budgets: seq<bool>, works: bool, ghost whole: (seq<Frame>, FrameReader.FrameError))
      returns (bytes: Frame, error: Option<StreamError>)
      requires Valid() && Sourced(whole)
      modifies this, reader
      ensures Valid() && Sourced(whole) && |bytes| <= size && old(trace) <= trace && old(handled) <= handled
      ensures delivered == old(delivered) + bytes && delivered <= FrameReader.Flatten(Forwards(handled))
      ensures old(stopped) ==> bytes == []
      ensures bytes == [] <==> size == 0 || error.Some?
      ensures error.Some? ==> Reported(error.value, works)
      ensures error.None? ==> excused == old(excused) + Busies(handled[|old(handled)|..], classify, busy)
    {
      hide Open, Alternates, Count, FrameReader.Flatten, FrameReader.NextFrame, Forwards, Busies, Presentable, Sourced;
      NoBusies(handled);
      if size == 0 {
        DeliveredPrefix();
        return [], None;
      }
      if stopped {
        DeliveredPrefix();
        readBuffer, discarded := [], true;
        return [], Some(Stopped);
      }
      Interfere(true, false);
      error := FillBuffer(budgets, works, whole);
      DeliveredPrefix();
      if error.Some? { return [], error; }
      var n := if size < |readBuffer| then size else |readBuffer|;
      bytes := readBuffer[..n];
      assert delivered + readBuffer == delivered + bytes + readBuffer[n..];
      delivered, readBuffer := delivered + bytes, readBuffer[n..];
    }

    lemma NoBusies(h: seq<(Frame, Admission)>)
      ensures Busies(h[|h|..], classify, busy) == []
    {
    }

    /** A stop, a failed write and a failed read are reported only if they happened. */
    ghost predicate Reported(error: StreamError, works: bool)
      reads this, reader
    {
      match error
      case Stopped => stopped
      case WriteError => !works && stopped
      case ReadError(e) => reader.afterErr == Some(e)
      case OutputTooLarge => false
      case Unclassified => false
      case _ => true
    }

    lemma DeliveredPrefix()
      requires Valid()
      ensures delivered <= FrameReader.Flatten(Forwards(handled))
    {
    }

    /** Reads frames until one is forwarded; calls over the limit are answered busy. */
    method FillBuffer(budgets: seq<bool>, works: bool, ghost whole: (seq<Frame>, FrameReader.FrameError))
      returns (error: Option<StreamError>)
      requires Valid() && Sourced(whole) && !discarded
      modifies this, reader
      ensures Valid() && Sourced(whole) && !discarded && delivered == old(delivered) && old(trace) <= trace
      ensures old(handled) <= handled && (error.Some? <==> readBuffer == [])
      ensures error.Some? ==> Reported(error.value, works)
      ensures error.None? ==> excused == old(excused) + Busies(handled[|old(handled)|..], classify, busy)
    {
      hide Valid, Open, Alternates, Count, FrameReader.Flatten, Forwards, Busies, FramesOf, Presentable, Sourced, Reported;
      var i := 0;
      ghost var before, given := handled, excused;
      NoBusies(handled);
      while |readBuffer| == 0
        invariant Valid() && Sourced(whole) && !discarded && delivered == old(delivered) && old(trace) <= trace
        invariant AllExcused(before, given)
        decreases if reader.afterErr.None? then 1 else 0, |reader.slices|, |readBuffer| == 0
      {
        error := TakeFrame(i < |budgets| && budgets[i], works, whole, before, given);
        if error.Some? { return; }
        i := i + 1;
      }
      return None;
    }

    /** Reads, admits and possibly excuses one frame. */
    method TakeFrame(budget: bool, works: bool, ghost whole: (seq<Frame>, FrameReader.FrameError),
                     ghost before: seq<(Frame, Admission)>, ghost given: seq<Frame>)
      returns (error: Option<StreamError>)
      requires Valid() && Sourced(whole) && !discarded && readBuffer == [] && AllExcused(before, given)
      modifies this, reader
      ensures Valid() && Sourced(whole) && !discarded && delivered == old(delivered) && old(trace) <= trace
      ensures before <= handled && (error.Some? ==> readBuffer == [] && Reported(error.value, works))
      ensures error.None? ==> AllExcused(before, given)
      ensures error.None? ==> old(reader.afterErr).None? && (reader.afterErr.None? ==> |reader.slices| < |old(reader.slices)|)
    {
      hide Valid, Open, Alternates, Count, FrameReader.Flatten, FrameReader.NextFrame, Forwards, Busies, FramesOf, Presentable, Sourced;
      if stopped { return Some(Stopped); }
      var next := NextFrame(whole);
      if next.Failure? { return Some(ReadError(next.error)); }
      Interfere(true, false);
      error := SettleFrame(next.frame, budget, works, whole, before, given);
    }

    /** Admits and possibly excuses the frame that was read. */
    method SettleFrame(frame: Frame, budget: bool, works: bool, ghost whole: (seq<Frame>, FrameReader.FrameError),
                       ghost before: seq<(Frame, Admission)>, ghost given: seq<Frame>)
      returns (error: Option<StreamError>)
      requires Valid() && !discarded && readBuffer == [] && AllExcused(before, given)
      requires reader.SourceOk() && whole == FrameReader.Prepend(FramesOf(handled) + [frame], ToCome())
      modifies this
      ensures Valid() && Sourced(whole) && !discarded && delivered == old(delivered) && old(trace) <= trace
      ensures before <= handled && (error.Some? ==> readBuffer == [] && Reported(error.value, works))
      ensures error.None? ==> AllExcused(before, given)
    {
      hide Valid, Open, Alternates, Count, FrameReader.Flatten, FrameReader.NextFrame, Forwards, Busies, FramesOf, Presentable, Sourced, ToCome,
        FrameReader.Reader.SourceOk, FrameReader.Prepend;
      ghost var h := handled;
      var r := AdmitFrame(frame, budget);
      TakenIn(whole, h, frame, r);
      match r
      case Refuse(e) => return Some(e);
      case Busy =>
        error := Excuse(classify(frame).id, works);
        if error.None? { MoreBusies(h, before, given, frame, r); }
      case Forward =>
        MoreBusies(h, before, given, frame, r);
        return None;
    }

    /** Since `before`, when the busy answers in `given` were out, every call over the limit
        has been answered. */
    ghost predicate AllExcused(before: seq<(Frame, Admission)>, given: seq<Frame>)
      reads `handled, `excused
    {
      before <= handled && excused == given + Busies(handled[|before|..], classify, busy)
    }

    /** The next frame of the reader. */
    method NextFrame(ghost whole: (seq<Frame>, FrameReader.FrameError)) returns (next: FrameReader.Next)
      requires Sourced(whole)
      modifies reader
      ensures reader.SourceOk()
      ensures match next
              case Failure(error) => Sourced(whole) && reader.afterErr == Some(error)
              case Frame(frame, _) =>
                whole == FrameReader.Prepend(FramesOf(handled) + [frame], ToCome())
                && old(reader.afterErr).None? && (reader.afterErr.None? ==> |reader.slices| < |old(reader.slices)|)
    {
      hide FramesOf, FrameReader.NextFrame, FrameReader.LineLength, FrameReader.Cuts;
      FrameReader.FirstFrame(reader.input, reader.final, reader.limit, reader.check, reader.alone);
      next := reader.ReadFrame();
      if next.Frame? {
        FrameReader.Prepended(FramesOf(handled), [next.frame], ToCome());
      }
    }

    lemma TakenIn(whole: (seq<Frame>, FrameReader.FrameError), before: seq<(Frame, Admission)>, frame: Frame, r: Admission)
      requires reader.SourceOk() && whole == FrameReader.Prepend(FramesOf(before) + [frame], ToCome())
      requires handled == before + [(frame, r)]
      ensures Sourced(whole)
    {
      Handled(before, frame, r, classify, busy);
    }

    lemma MoreBusies(h: seq<(Frame, Admission)>, before: seq<(Frame, Admission)>, given: seq<Frame>, frame: Frame, r: Admission)
      requires before <= h && handled == h + [(frame, r)]
      requires var mine := if r.Busy? && classify(frame).Call? then [busy(classify(frame).id)] else [];
               excused == given + Busies(h[|before|..], classify, busy) + mine
      ensures AllExcused(before, given)
    {
      assert handled[|before|..] == h[|before|..] + [(frame, r)];
      Handled(h[|before|..], frame, r, classify, busy);
    }

    /** Tells the caller of `id` that the server is busy. */
    method Excuse(id: RequestID, works: bool) returns (error: Option<StreamError>)
      requires Valid()
      modifies this
      ensures Valid() && old(trace) <= trace && readBuffer == old(readBuffer) && handled == old(handled) && delivered == old(delivered)
      ensures discarded == old(discarded) && (old(stopped) ==> stopped)
      ensures match error
              case None => excused == old(excused) + [busy(id)] && busy(id) in written
              case Some(e) => stopped && (e == Stopped || (e == WriteError && !works))
    {
      hide Open, Alternates, Count, FrameReader.Flatten, Forwards;
      AwaitLane(true);
      if stopped { return Some(Stopped); }
      if !works {
        Stop();
        return Some(WriteError);
      }
      written, excused := written + [busy(id)], excused + [busy(id)];
      return None;
    }

    // ----- Output -----

    /** Moves the responses that a frame carries from pending into the output lane. */
    method BeginResponses(ids: seq<RequestID>) returns (count: nat)
      requires Valid() && lane.None?
      modifies `pending, `responding, `trace, `lane
      ensures Valid() && lane == Some(count) && count == |Begun(old(pending), ids)|
      ensures trace == old(trace) + Begun(old(pending), ids)
      ensures pending == Without(old(pending), ids) && responding == old(responding) + count
    {
      hide Valid, Open, Alternates, Count, FrameReader.Flatten, Begun, Without;
      EnterLane();
      ghost var before, held, given := trace, responding, pending;
      assert ids[0..] == ids;
      count := 0;
      var i := 0;
      while i < |ids|
        invariant i <= |ids| && Valid() && lane == Some(count)
        invariant trace + Begun(pending, ids[i..]) == before + Begun(given, ids)
        invariant |trace| == |before| + count && responding == held + count
        invariant Without(pending, ids[i..]) == Without(given, ids)
      {
        OneBegun(trace, pending, ids, i);
        var began := BeginResponse(ids[i], count);
        if began { count := count + 1; }
        i := i + 1;
      }
      NoneBegun(trace, pending, ids);
    }

    method EnterLane()
      requires Valid() && lane.None?
      modifies `lane
      ensures Valid() && lane == Some(0)
    {
      hide Open, Alternates, Count, FrameReader.Flatten;
      lane := Some(0);
    }

    method BeginResponse(id: RequestID, count: nat) returns (began: bool)
      requires Valid() && lane == Some(count)
      modifies `pending, `responding, `trace, `lane
      ensures Valid() && began == (id in old(pending)) && pending == old(pending) - {id}
      ensures lane == Some(if began then count + 1 else count) && responding == old(responding) + if began then 1 else 0
      ensures trace == old(trace) + if began then [Responded(id)] else []
    {
      hide Open, Alternates, Count, FrameReader.Flatten;
      began := id in pending;
      if began {
        Passed(trace, Responded(id));
        pending, responding := pending - {id}, responding + 1;
        trace, lane := trace + [Responded(id)], Some(count + 1);
      }
    }

    /** Takes the responses out of the lane. The count can only fall short, and be
        corrected to zero, when the stream was stopped in between. */
    method FinishResponses(count: nat) returns (clamped: bool)
      requires Valid() && lane == Some(count)
      modifies `responding, `lane
      ensures Valid() && lane.None? && (clamped ==> stopped)
      ensures responding == if clamped then 0 else old(responding) - count
    {
      lane := None;
      clamped := false;
      if count == 0 { return; }
      responding := responding - count;
      if responding < 0 {
        responding := 0;
        clamped := true;
      }
    }

    /** Writes one frame of the SDK, and counts the response in it while it is written. A
        response to a call that is open at the point `at` of the trace, where the frame enters
        the lane, closes it there and gives its place back; `mine` is what this write added. */
    method Write(frame: Frame, works: bool) returns (error: Option<StreamError>, ghost at: nat, ghost mine: seq<Passage>)
      requires Valid()
      modifies this
      ensures Valid() && old(trace) <= trace && old(written) <= written
      ensures frame == [] ==> error.None? && stopped == old(stopped) && pending == old(pending) && written == old(written)
      ensures error.None? && frame != [] ==>
                !old(stopped) && lane.None? && |frame| <= maxOutputBytes && !classify(frame).Batch? && !classify(frame).Undecodable?
                && |old(written)| < |written| && written[|written| - 1] == frame
      ensures error.None? && frame != [] ==>
                |old(trace)| <= at && at + |mine| <= |trace| && trace[at..at + |mine|] == mine
      ensures error.None? && frame != [] ==>
                match classify(frame)
                case Reply(id) =>
                  (if Open(trace[..at], id) then mine == [Responded(id)] else mine == []) && !Open(trace[..at + |mine|], id)
                case _ => mine == []
      ensures error.None? && frame != [] && classify(frame).Reply? && !stopped && |trace| == |old(trace)| + |mine| ==>
                var id := classify(frame).id;
                pending == old(pending) - {id} && responding == 0 && (id in old(pending) ==> |pending| < maxInFlight)
      ensures error.Some? ==> stopped
    {
      hide Open, Alternates, Count, FrameReader.Flatten, Forwards;
      at, mine := 0, [];
      if |frame| == 0 { return None, at, mine; }
      if stopped { return Some(Stopped), at, mine; }
      var kind := classify(frame);
      if |frame| > maxOutputBytes || kind.Batch? || kind.Undecodable? {
        error := Some(if |frame| > maxOutputBytes then OutputTooLarge else Unclassified);
        Stop();
        return;
      }
      ghost var entry, given := trace, pending;
      AwaitLane(false);
      if stopped { return Some(Stopped), at, mine; }
      at := |trace|;
      ghost var before := trace;
      error, mine := Present(frame, works);
      assert trace[..at] == before && trace[at..at + |mine|] == mine && trace[..at + |mine|] == before + mine;
      if error.None? && kind.Reply? && !stopped && |trace| == |entry| + |mine| {
        assert before == entry && trace == entry + mine;
        PlaceIsGiven(entry, given, kind.id);
      }
    }

    /** The section of a write that holds the output lane. */
    method Present(frame: Frame, works: bool) returns (error: Option<StreamError>, ghost mine: seq<Passage>)
      requires Valid() && lane.None? && !stopped && Presentable(frame)
      modifies this
      ensures Valid() && lane.None? && old(trace) + mine <= trace && old(written) <= written
      ensures match classify(frame)
              case Reply(id) =>
                (if Open(old(trace), id) then mine == [Responded(id)] else mine == []) && !Open(old(trace) + mine, id)
              case _ => mine == []
      ensures error.None? ==> written == old(written) + [frame]
      ensures error.Some? ==> stopped
    {
      hide Open, Alternates, Count, FrameReader.Flatten, Forwards, Presentable;
      var kind := classify(frame);
      mine := Begun(pending, if kind.Reply? then [kind.id] else []);
      if kind.Reply? {
        OneResponse(trace, pending, kind.id);
      }
      var count := BeginResponses(if kind.Reply? then [kind.id] else []);
      Interfere(false, true);
      var _ := FinishResponses(count);
      error := None;
      if !works {
        Stop();
        error := Some(WriteError);
        return;
      }
      written := written + [frame];
    }

    lemma OneResponse(trace: seq<Passage>, pending: set<RequestID>, id: RequestID)
      ensures Begun(pending, [id]) == if id in pending then [Responded(id)] else []
      ensures (id in pending <==> Open(trace, id)) ==> !Open(trace + Begun(pending, [id]), id)
    {
      hide Open;
      Passed(trace, Responded(id));
      assert Begun(pending - {id}, []) == [];
      assert trace + [] == trace;
    }

    /** What is pending follows from the trace. */
    lemma PlaceIsGiven(before: seq<Passage>, given: set<RequestID>, id: RequestID)
      requires Valid() && !stopped && (forall j :: j in given <==> Open(before, j))
      requires trace == before + if Open(before, id) then [Responded(id)] else []
      ensures pending == given - {id}
    {
      hide Alternates, Count, FrameReader.Flatten, Open;
      Passed(before, Responded(id));
      assert before + [] == before;
    }

    method Stop()
      requires Valid()
      modifies `stopped, `pending, `responding
      ensures Valid() && stopped
    {
      stopped, pending, responding := true, {}, 0;
    }

    // ----- What always holds -----

    /** At any time, calls in flight and responses being written stay within the limit,
        no more than sixteen other messages got through, the responses under an ID match
        the calls forwarded under it one by one, and what the SDK has been given is a
        prefix of the admitted frames. */
    lemma AlwaysBounded(id: RequestID, i: nat)
      requires Valid() && i <= |trace|
      ensures |pending| + responding <= maxInFlight && Count(trace, ForwardedOther) <= MAX_NON_CALLS
      ensures Count(trace[..i], Responded(id)) <= Count(trace[..i], Forwarded(id)) <= Count(trace[..i], Responded(id)) + 1
      ensures !stopped ==> (id in pending <==> Count(trace, Forwarded(id)) == Count(trace, Responded(id)) + 1)
      ensures delivered <= FrameReader.Flatten(admitted)
    {
      AlternationCounts(trace, id, i);
      AlternationCounts(trace, id, |trace|);
      assert trace[..|trace|] == trace;
    }
  }
}
