/** Reading newline-delimited frames from a buffered reader that hands out a line one full
    buffer at a time, under a byte limit that tolerates CRLF line ends. */
module FrameReader {
  import opened Wrappers

  type Byte = int

  const NL: Byte := 10
  const CR: Byte := 13

  /** The largest value of the machine's int. */
  const MAX_INT := 0x7FFF_FFFF_FFFF_FFFF

  /** The size of the buffer of a bufio.Reader. */
  const BUFFER := 4096

  const ENVELOPE_OVERHEAD := 64 * 1024
  const ESCAPE_EXPANSION := 6

  // ----- The input -----

  /** How the input ends. */
  datatype Final = EndOfFile | Fault(code: nat)

  /** One result of the buffered reader: a fragment up to and including a newline, a
      full buffer without one, or the rest of the input with the final error. */
  datatype Slice = Line(bytes: seq<Byte>) | Full(bytes: seq<Byte>) | Last(bytes: seq<Byte>)

  /** The slices are some way of cutting the input. */
  ghost predicate Cuts(slices: seq<Slice>, input: seq<Byte>)
    decreases |slices|
  {
    && slices != []
    && var s := slices[0];
    |s.bytes| <= BUFFER
    && match s
       case Line(bytes) =>
         bytes != [] && bytes[|bytes| - 1] == NL && NL !in bytes[..|bytes| - 1]
         && bytes <= input && Cuts(slices[1..], input[|bytes|..])
       case Full(bytes) => |bytes| == BUFFER && NL !in bytes && bytes <= input && Cuts(slices[1..], input[|bytes|..])
       case Last(bytes) => NL !in bytes && bytes == input && |slices| == 1
  }

  /** The final error comes by itself, after the last bytes. */
  predicate Alone(slices: seq<Slice>)
    requires slices != []
  {
    slices[|slices| - 1].bytes == []
  }

  // ----- What a frame is -----

  datatype FrameError = TooLarge | Rejected(code: nat) | Ended | ReadFault(code: nat)

  datatype Next = Frame(frame: seq<Byte>, after: Option<FrameError>) | Failure(error: FrameError)

  /** The frame without its line end. */
  function Payload(line: seq<Byte>): seq<Byte>
    requires line != []
  {
    var text := line[..|line| - 1];
    if text != [] && text[|text| - 1] == CR then text[..|text| - 1] else text
  }

  function Checked(check: seq<Byte> -> Option<nat>, payload: seq<Byte>, frame: seq<Byte>, after: Option<FrameError>): Next {
    match check(payload)
    case Some(code) => Failure(Rejected(code))
    case None => Frame(frame, after)
  }

  /** What a complete line is worth. */
  function OfLine(line: seq<Byte>, limit: nat, check: seq<Byte> -> Option<nat>): Next
    requires line != []
  {
    if |Payload(line)| > limit then Failure(TooLarge) else Checked(check, Payload(line), line, None)
  }

  /** What the bytes after the last newline are worth. */
  function OfRest(rest: seq<Byte>, final: Final, limit: nat, check: seq<Byte> -> Option<nat>): Next {
    match final
    case Fault(code) => Failure(ReadFault(code))
    case EndOfFile =>
      if rest == [] then Failure(Ended)
      else if |rest| > limit then Failure(TooLarge)
      else Checked(check, rest, rest, Some(Ended))
  }

  function LineLength(input: seq<Byte>): (n: nat)
    ensures n <= |input| && (forall i :: 0 <= i < n - 1 ==> input[i] != NL)
    ensures if n == 0 then NL !in input else input[n - 1] == NL
  {
    if input == [] then 0
    else if input[0] == NL then 1
    else
      var n := LineLength(input[1..]);
      assert input == [input[0]] + input[1..];
      if n == 0 then 0 else n + 1
  }

  /** The next frame of an input: cut at the newline or at the end, strip one CR, accept
      if the payload is within the limit and valid. `alone` tells whether a read fault
      came by itself, after the last bytes; it matters in one case only. */
  function NextFrame(input: seq<Byte>, final: Final, limit: nat, check: seq<Byte> -> Option<nat>, alone: bool): Next {
    var n := LineLength(input);
    if n > 0 then
      if n > MAX_INT || |Payload(input[..n])| > limit then Failure(TooLarge)
      else Checked(check, Payload(input[..n]), input[..n], None)
    else
      match final
      case EndOfFile =>
        if input == [] then Failure(Ended)
        else if |input| > limit || |input| > MAX_INT then Failure(TooLarge)
        else Checked(check, input, input, Some(Ended))
      case Fault(code) =>
        if |input| > MAX_INT || |input| > limit + 1 then Failure(TooLarge)
        else if |input| == limit + 1 && (alone || input[limit] != CR) then Failure(TooLarge)
        else Failure(ReadFault(code))
  }

  /** All frames of an input, and the error that ends them. */
  function AllFrames(input: seq<Byte>, final: Final, limit: nat, check: seq<Byte> -> Option<nat>, alone: bool): (seq<seq<Byte>>, FrameError)
    decreases |input|
  {
    match NextFrame(input, final, limit, check, alone)
    case Failure(error) => ([], error)
    case Frame(frame, Some(error)) => ([frame], error)
    case Frame(frame, None) =>
      var (rest, error) := AllFrames(input[LineLength(input)..], final, limit, check, alone);
      ([frame] + rest, error)
  }

  /** Every line of the input is accepted, and then it breaks off in a read fault one
      byte over the limit, at a CR. */
  predicate Ambiguous(input: seq<Byte>, final: Final, limit: nat, check: seq<Byte> -> Option<nat>)
    decreases |input|
  {
    var n := LineLength(input);
    if n > 0 then
      n <= MAX_INT && |Payload(input[..n])| <= limit && check(Payload(input[..n])).None?
      && Ambiguous(input[n..], final, limit, check)
    else
      final.Fault? && |input| == limit + 1 <= MAX_INT && input[limit] == CR
  }

  /** Up to two bytes below the largest int, the limit on the payload is the only one. */
  lemma PayloadLimitSuffices(input: seq<Byte>, limit: nat)
    requires LineLength(input) > 0 && limit <= MAX_INT - 2 && |Payload(input[..LineLength(input)])| <= limit
    ensures LineLength(input) <= MAX_INT
  {
  }

  // ----- The reader -----

  /** The largest frame a legal message can need, or the largest int. */
  function FrameByteLimit(maxInputBytes: int): (limit: Option<nat>)
    requires maxInputBytes <= MAX_INT
    ensures limit.None? <==> maxInputBytes <= 0
    ensures limit.Some? ==> limit.value <= MAX_INT
    ensures limit.Some? && ENVELOPE_OVERHEAD + 6 * maxInputBytes <= MAX_INT ==> limit.value == ENVELOPE_OVERHEAD + 6 * maxInputBytes
    ensures limit.Some? && ENVELOPE_OVERHEAD + 6 * maxInputBytes > MAX_INT ==> limit.value == MAX_INT
  {
    if maxInputBytes <= 0 then None
    else if maxInputBytes > (MAX_INT - ENVELOPE_OVERHEAD) / ESCAPE_EXPANSION then Some(MAX_INT)
    else Some(ENVELOPE_OVERHEAD + ESCAPE_EXPANSION * maxInputBytes)
  }

  /** Whether a frame may still fit after another fragment. One byte over the limit is
      let through while it may become the CR of a CRLF. */
  predicate FragmentFits(current: nat, fragment: seq<Byte>, limit: nat, hasNewline: bool) {
    if |fragment| > MAX_INT - current then false
    else
      var total := current + |fragment|;
      if hasNewline then
        if total - 1 <= limit then true
        else if total - 1 - limit != 1 then false
        else if |fragment| >= 2 then fragment[|fragment| - 2] == CR
        else current > 0
      else
        total <= limit || (total - limit == 1 && |fragment| > 0 && fragment[|fragment| - 1] == CR)
  }

  function Prepend(frames: seq<seq<Byte>>, rest: (seq<seq<Byte>>, FrameError)): (seq<seq<Byte>>, FrameError) {
    (frames + rest.0, rest.1)
  }

  lemma Prepended(a: seq<seq<Byte>>, b: seq<seq<Byte>>, rest: (seq<seq<Byte>>, FrameError))
    ensures Prepend(a, Prepend(b, rest)) == Prepend(a + b, rest) && Prepend([], rest) == rest
  {
    assert a + (b + rest.0) == a + b + rest.0;
    assert [] + rest.0 == rest.0;
  }

  lemma FirstFrame(input: seq<Byte>, final: Final, limit: nat, check: seq<Byte> -> Option<nat>, alone: bool)
    ensures AllFrames(input, final, limit, check, alone)
         == match NextFrame(input, final, limit, check, alone)
            case Failure(error) => ([], error)
            case Frame(frame, after) =>
              if after.Some? then Prepend([frame], ([], after.value))
              else Prepend([frame], AllFrames(input[LineLength(input)..], final, limit, check, alone))
  {
    hide LineLength, NextFrame;
    assert forall frame: seq<Byte> :: [frame] + [] == [frame];
  }

  lemma PrependIsInjective(frame: seq<Byte>, a: (seq<seq<Byte>>, FrameError), b: (seq<seq<Byte>>, FrameError))
    ensures Prepend([frame], a) == Prepend([frame], b) <==> a == b
  {
    assert ([frame] + a.0)[1..] == a.0 && ([frame] + b.0)[1..] == b.0;
  }

  /** What is checked of a frame: its payload, or all of it if no newline ends it. */
  function ContentOf(frame: seq<Byte>): seq<Byte>
    requires frame != []
  {
    if frame[|frame| - 1] == NL then Payload(frame) else frame
  }

  /** The frame is what stands in front, and its content is valid and within the limit. */
  predicate GoodFrame(frame: seq<Byte>, input: seq<Byte>, limit: nat, check: seq<Byte> -> Option<nat>) {
    frame != [] && frame <= input && |ContentOf(frame)| <= limit && check(ContentOf(frame)) == None
  }

  /** What the first frame is, and why there is none. */
  lemma FrontFrame(input: seq<Byte>, final: Final, limit: nat, check: seq<Byte> -> Option<nat>, alone: bool)
    ensures var next := NextFrame(input, final, limit, check, alone);
            && (next.Frame? ==> GoodFrame(next.frame, input, limit, check))
            && (next.Frame? && next.after.None? ==> |next.frame| == LineLength(input) > 0)
            && (next.Frame? && next.after.Some? ==> next.after == Some(Ended) && next.frame == input && final.EndOfFile?)
            && (next == Failure(Ended) ==> input == [] && final.EndOfFile?)
            && (next == Failure(TooLarge) ==> |input| > limit || |input| > MAX_INT)
  {
    var n := LineLength(input);
    if n > 0 {
      var line := input[..n];
      assert line[|line| - 1] == NL && |Payload(line)| < |input|;
    } else if input != [] {
      assert input[|input| - 1] != NL;
    }
  }

  lemma {:induction false} FlattenCons(frame: seq<Byte>, frames: seq<seq<Byte>>)
    ensures Flatten([frame] + frames) == frame + Flatten(frames)
  {
    if frames == [] {
      assert [frame] + frames == [frame] && Flatten([frame]) == Flatten([]) + frame;
      assert [frame][..0] == [];
    } else {
      var n := |frames| - 1;
      FlattenCons(frame, frames[..n]);
      assert ([frame] + frames)[..n + 1] == [frame] + frames[..n];
    }
  }

  /** Reading neither adds, drops nor changes a byte: the frames, one after the other, are the
      beginning of the input, all of it if it ends regularly, and the content of each is
      valid and within the limit. */
  lemma {:induction false} FramesAreInput(input: seq<Byte>, final: Final, limit: nat, check: seq<Byte> -> Option<nat>, alone: bool)
    ensures var (frames, error) := AllFrames(input, final, limit, check, alone);
            && Flatten(frames) <= input && (error == Ended ==> Flatten(frames) == input && final.EndOfFile?)
            && forall frame :: frame in frames ==> frame != [] && |ContentOf(frame)| <= limit && check(ContentOf(frame)) == None
    decreases |input|
  {
    hide NextFrame, LineLength, ContentOf, AllFrames;
    FrontFrame(input, final, limit, check, alone);
    FirstFrame(input, final, limit, check, alone);
    match NextFrame(input, final, limit, check, alone)
    case Failure(error) => assert Flatten([]) == [];
    case Frame(frame, Some(error)) =>
      FlattenCons(frame, []);
      assert frame + [] == frame;
    case Frame(frame, None) =>
      var rest := input[|frame|..];
      FramesAreInput(rest, final, limit, check, alone);
      var (frames, error) := AllFrames(rest, final, limit, check, alone);
      FlattenCons(frame, frames);
      assert input == frame + rest;
  }

  /** Whether the fault comes by itself matters for that one kind of input only. */
  lemma {:induction false} AloneMatters(input: seq<Byte>, final: Final, limit: nat, check: seq<Byte> -> Option<nat>)
    ensures AllFrames(input, final, limit, check, true) == AllFrames(input, final, limit, check, false)
        <==> !Ambiguous(input, final, limit, check)
    decreases |input|
  {
    hide AllFrames, LineLength, Payload;
    FirstFrame(input, final, limit, check, true);
    FirstFrame(input, final, limit, check, false);
    var n := LineLength(input);
    if n > 0 {
      AloneMatters(input[n..], final, limit, check);
      PrependIsInjective(input[..n], AllFrames(input[n..], final, limit, check, true), AllFrames(input[n..], final, limit, check, false));
    }
  }

  // ----- How an input can be cut -----

  /** The slices that the buffer produces. Only if the last line fills it exactly, the
      final error can come together with the last bytes or after them. */
  function Slices(input: seq<Byte>, together: bool): (slices: seq<Slice>)
    ensures slices != []
    decreases |input|
  {
    var n := LineLength(input);
    if n > BUFFER || (n == 0 && |input| > BUFFER) || (n == 0 && |input| == BUFFER && !together) then
      [Full(input[..BUFFER])] + Slices(input[BUFFER..], together)
    else if n > 0 then [Line(input[..n])] + Slices(input[n..], together)
    else [Last(input)]
  }

  /** The length of the last line, which no newline ends. */
  function LastLine(input: seq<Byte>): nat
    decreases |input|
  {
    var n := LineLength(input);
    if n == 0 then |input| else LastLine(input[n..])
  }

  lemma LineLengthIs(input: seq<Byte>, n: nat)
    requires n <= |input| && (forall i :: 0 <= i < n - 1 ==> input[i] != NL) && if n == 0 then NL !in input else input[n - 1] == NL
    ensures LineLength(input) == n
  {
    hide LineLength;
    var m := LineLength(input);
    assert m > 0 ==> input[m - 1] == NL;
    assert n > 0 ==> input[n - 1] == NL;
  }

  /** A full buffer without a newline is part of the first line. */
  lemma AfterBuffer(input: seq<Byte>)
    requires |input| >= BUFFER && NL !in input[..BUFFER]
    ensures var n := LineLength(input);
            (n == 0 || n > BUFFER) && LineLength(input[BUFFER..]) == (if n == 0 then 0 else n - BUFFER)
            && LastLine(input) == LastLine(input[BUFFER..]) + if n == 0 then BUFFER else 0
  {
    hide LineLength;
    var n := LineLength(input);
    assert forall i :: 0 <= i < BUFFER ==> input[i] in input[..BUFFER];
    LineLengthIs(input[BUFFER..], if n == 0 then 0 else n - BUFFER);
    if n > 0 {
      assert input[BUFFER..][n - BUFFER..] == input[n..];
    }
  }

  lemma NoNewlineBefore(input: seq<Byte>, k: nat)
    requires k <= |input| && (LineLength(input) == 0 || k < LineLength(input))
    ensures NL !in input[..k]
  {
    hide LineLength;
  }

  /** The first slice of an input, and the input after it. */
  lemma SlicesStep(input: seq<Byte>, together: bool)
    ensures var n, slices := LineLength(input), Slices(input, together);
            if n > BUFFER || (n == 0 && |input| > BUFFER) || (n == 0 && |input| == BUFFER && !together) then
              slices == [Full(input[..BUFFER])] + Slices(input[BUFFER..], together)
            else if n > 0 then slices == [Line(input[..n])] + Slices(input[n..], together)
            else slices == [Last(input)]
  {
    hide LineLength;
  }

  lemma CutsFull(input: seq<Byte>, rest: seq<Slice>)
    requires |input| >= BUFFER && NL !in input[..BUFFER] && Cuts(rest, input[BUFFER..])
    ensures Cuts([Full(input[..BUFFER])] + rest, input)
  {
    assert ([Full(input[..BUFFER])] + rest)[1..] == rest;
  }

  lemma CutsLine(input: seq<Byte>, n: nat, rest: seq<Slice>)
    requires 0 < n <= |input| && n <= BUFFER && NL !in input[..n - 1] && input[n - 1] == NL && Cuts(rest, input[n..])
    ensures Cuts([Line(input[..n])] + rest, input)
  {
    assert input[..n][..n - 1] == input[..n - 1];
    assert ([Line(input[..n])] + rest)[1..] == rest;
  }

  lemma CutsLast(input: seq<Byte>)
    requires NL !in input && |input| <= BUFFER
    ensures Cuts([Last(input)], input)
  {
  }

  lemma {:induction false} SlicesCut(input: seq<Byte>, together: bool)
    ensures Cuts(Slices(input, together), input)
    decreases |input|
  {
    hide LineLength, Slices, Cuts;
    var n := LineLength(input);
    SlicesStep(input, together);
    if n > BUFFER || (n == 0 && |input| > BUFFER) || (n == 0 && |input| == BUFFER && !together) {
      NoNewlineBefore(input, BUFFER);
      SlicesCut(input[BUFFER..], together);
      CutsFull(input, Slices(input[BUFFER..], together));
    } else if n > 0 {
      NoNewlineBefore(input, n - 1);
      SlicesCut(input[n..], together);
      CutsLine(input, n, Slices(input[n..], together));
    } else {
      CutsLast(input);
    }
  }

  lemma AloneAfter(first: Slice, rest: seq<Slice>)
    requires rest != []
    ensures Alone([first] + rest) == Alone(rest)
  {
  }

  lemma LastAlone(bytes: seq<Byte>)
    ensures Alone([Last(bytes)]) <==> |bytes| == 0
  {
  }

  /** The final error comes by itself if the last line is empty or, unless the error comes
      with the last bytes, fills the buffer without a remainder. */
  predicate EndsAlone(last: nat, together: bool) {
    last % BUFFER == 0 && (together ==> last == 0)
  }

  lemma OneBufferMore(last: nat, together: bool)
    ensures last > 0 || !together ==> EndsAlone(last + BUFFER, together) == EndsAlone(last, together)
    ensures 0 < last <= BUFFER && (together || last < BUFFER) ==> !EndsAlone(last, together)
    ensures EndsAlone(0, together)
  {
  }

  lemma LastLineStep(input: seq<Byte>)
    ensures LastLine(input) == if LineLength(input) == 0 then |input| else LastLine(input[LineLength(input)..])
  {
    hide LineLength;
  }

  lemma {:induction false} SlicesAlone(input: seq<Byte>, together: bool)
    ensures Alone(Slices(input, together)) <==> EndsAlone(LastLine(input), together)
    decreases |input|
  {
    hide LineLength, Alone, Slices, LastLine, EndsAlone;
    var n := LineLength(input);
    SlicesStep(input, together);
    LastLineStep(input);
    if n > BUFFER || (n == 0 && |input| > BUFFER) || (n == 0 && |input| == BUFFER && !together) {
      var rest := input[BUFFER..];
      NoNewlineBefore(input, BUFFER);
      AfterBuffer(input);
      SlicesAlone(rest, together);
      AloneAfter(Full(input[..BUFFER]), Slices(rest, together));
      if n == 0 {
        LastLineStep(rest);
        OneBufferMore(LastLine(rest), together);
      }
    } else if n > 0 {
      SlicesAlone(input[n..], together);
      AloneAfter(Line(input[..n]), Slices(input[n..], together));
    } else {
      LastAlone(input);
      OneBufferMore(|input|, together);
    }
  }

  /** There are no other cuttings. */
  lemma {:induction false} TwoCuttings(slices: seq<Slice>, input: seq<Byte>)
    requires Cuts(slices, input)
    ensures slices == Slices(input, true) || slices == Slices(input, false)
    decreases |slices|
  {
    hide LineLength;
    var s := slices[0];
    assert slices == [s] + slices[1..] && s.bytes == input[..|s.bytes|];
    match s
    case Line(bytes) =>
      FirstLine(input, bytes);
      TwoCuttings(slices[1..], input[|bytes|..]);
    case Full(bytes) =>
      AfterBuffer(input);
      TwoCuttings(slices[1..], input[BUFFER..]);
      if |input| == BUFFER {
        LineLengthIs([], 0);
      }
    case Last(bytes) =>
      LineLengthIs(input, 0);
  }

  lemma FirstLine(input: seq<Byte>, bytes: seq<Byte>)
    requires bytes != [] && bytes[|bytes| - 1] == NL && NL !in bytes[..|bytes| - 1] && bytes <= input
    ensures LineLength(input) == |bytes| && bytes == input[..|bytes|]
  {
    hide LineLength;
    forall i | 0 <= i < |bytes| - 1 ensures input[i] != NL {
      assert bytes[..|bytes| - 1][i] == input[i];
    }
    LineLengthIs(input, |bytes|);
  }

  lemma {:induction false} AmbiguousLastLine(input: seq<Byte>, final: Final, limit: nat, check: seq<Byte> -> Option<nat>)
    requires Ambiguous(input, final, limit, check)
    ensures LastLine(input) == limit + 1 <= MAX_INT
    decreases |input|
  {
    hide LineLength, Payload;
    var n := LineLength(input);
    if n > 0 {
      AmbiguousLastLine(input[n..], final, limit, check);
    }
  }

  /** All cuttings of the input are read alike. */
  ghost predicate ReadOneWay(input: seq<Byte>, final: Final, limit: nat, check: seq<Byte> -> Option<nat>) {
    forall a, b :: Cuts(a, input) && Cuts(b, input) ==>
                     AllFrames(input, final, limit, check, Alone(a)) == AllFrames(input, final, limit, check, Alone(b))
  }

  /** Frames and final error do not depend on how the input is cut into fragments, except
      for that one kind of input under a limit one below a multiple of the buffer size,
      where they do. */
  lemma CuttingMatters(input: seq<Byte>, final: Final, limit: nat, check: seq<Byte> -> Option<nat>)
    ensures ReadOneWay(input, final, limit, check)
        <==> !(Ambiguous(input, final, limit, check) && (limit + 1) % BUFFER == 0)
  {
    hide AllFrames, Ambiguous, Alone, Cuts, Slices, LastLine;
    AloneMatters(input, final, limit, check);
    SlicesCut(input, true);
    SlicesCut(input, false);
    SlicesAlone(input, true);
    SlicesAlone(input, false);
    if Ambiguous(input, final, limit, check) {
      AmbiguousLastLine(input, final, limit, check);
    }
    forall a | Cuts(a, input) ensures a == Slices(input, true) || a == Slices(input, false) {
      TwoCuttings(a, input);
    }
  }

  lemma OddIsNoMultiple(half: nat)
    ensures (2 * half + 1) % BUFFER != 0
  {
    var odd := 2 * half + 1;
    assert odd == 2 * (2048 * (odd / BUFFER)) + odd % BUFFER;
  }

  /** Under every limit that the program computes, the cutting never matters. */
  lemma ProgramReadsOneWay(input: seq<Byte>, final: Final, maxInputBytes: int, check: seq<Byte> -> Option<nat>)
    requires 0 < maxInputBytes <= MAX_INT
    ensures ReadOneWay(input, final, FrameByteLimit(maxInputBytes).value, check)
  {
    hide ReadOneWay, Ambiguous, LastLine;
    var limit := FrameByteLimit(maxInputBytes).value;
    CuttingMatters(input, final, limit, check);
    if Ambiguous(input, final, limit, check) {
      AmbiguousLastLine(input, final, limit, check);
      OddIsNoMultiple(32768 + 3 * maxInputBytes);
    }
  }

  /** Under another limit it does: 4095 bytes and a CR, then a fault with them or by itself. */
  lemma CuttingExample(check: seq<Byte> -> Option<nat>) returns (input: seq<Byte>)
    ensures |input| == BUFFER && Cuts([Last(input)], input) && Cuts([Full(input), Last([])], input)
    ensures AllFrames(input, Fault(7), 4095, check, Alone([Last(input)])) == ([], ReadFault(7))
    ensures AllFrames(input, Fault(7), 4095, check, Alone([Full(input), Last([])])) == ([], TooLarge)
  {
    input := seq(BUFFER, i => if i == 4095 then CR else 120);
    LineLengthIs(input, 0);
    assert Cuts([Last([])], []);
    assert [Full(input), Last([])][1..] == [Last([])] && input[BUFFER..] == [];
  }

  class Reader {
    const limit: nat
    const check: seq<Byte> -> Option<nat>
    const final: Final
    var slices: seq<Slice>
    var pending: seq<Byte>
    var afterErr: Option<FrameError>

    /** What is left of the input, and whether its final error comes by itself. */
    ghost var input: seq<Byte>
    ghost const alone: bool
    /** The frames read so far and the bytes handed on. */
    ghost var frames: seq<seq<Byte>>
    ghost var delivered: seq<Byte>

    ghost predicate SourceOk()
      reads `slices, `input, `afterErr
    {
      afterErr.None? ==> Cuts(slices, input) && (alone <==> Alone(slices))
    }

    ghost predicate Valid()
      reads this
    {
      SourceOk() && delivered + pending == Flatten(frames)
    }

    constructor (limit: nat, check: seq<Byte> -> Option<nat>, final: Final, slices: seq<Slice>, ghost input: seq<Byte>)
      requires Cuts(slices, input)
      ensures Valid() && afterErr.None? && this.input == input && this.limit == limit && this.check == check && this.final == final
      ensures frames == [] && delivered == [] && alone == Alone(slices)
    {
      this.limit, this.check, this.final, this.slices, this.input := limit, check, final, slices, input;
      alone := Alone(slices);
      pending, afterErr, frames, delivered := [], None, [], [];
    }

    /** Collects fragments until a newline or the end. */
    method ReadFragments() returns (next: Next)
      requires SourceOk() && afterErr.None?
      modifies `slices, `input
      ensures next == NextFrame(old(input), final, limit, check, alone)
      ensures next.Frame? ==> 0 < |next.frame| <= limit + 2
      ensures next.Frame? && next.after.None? ==> Follows(old(input), |old(slices)|, slices, input, alone)
    {
      hide NextFrame, FragmentFits, Cuts, Alone, OfLine, OfRest, Follows, Collecting;
      ghost var start, rest, before := input, input, |slices|;
      var frame: seq<Byte>, left := [], slices;
      FirstSlice(left, start);
      NothingCollected(start, limit, left, alone);
      while true
        invariant Collecting(start, limit, frame, left, rest, alone) && 0 < |left| <= before
        decreases |left|
      {
        var slice := left[0];
        if !FragmentFits(|frame|, slice.bytes, limit, slice.Line?) {
          Refused(start, final, limit, check, alone, frame, left, rest);
          return Failure(TooLarge);
        }
        match slice
        case Line(fragment) =>
          LineCollected(start, final, limit, check, alone, frame, left, rest, before);
          next := EndOfLine(frame + fragment);
          slices, input := left[1..], rest[|fragment|..];
          return;
        case Full(fragment) =>
          BufferCollected(start, limit, frame, left, rest, alone);
          left, rest, frame := left[1..], rest[|fragment|..], frame + fragment;
        case Last(fragment) =>
          RestCollected(start, final, limit, check, alone, frame, left, rest);
          next := EndOfInput(frame + fragment);
          return;
      }
    }

    method EndOfLine(frame: seq<Byte>) returns (next: Next)
      requires frame != []
      ensures next == OfLine(frame, limit, check)
    {
      var payload := frame[..|frame| - 1];
      if |payload| > 0 && payload[|payload| - 1] == CR {
        payload := payload[..|payload| - 1];
      }
      if |payload| > limit { return Failure(TooLarge); }
      return Checked(check, payload, frame, None);
    }

    method EndOfInput(frame: seq<Byte>) returns (next: Next)
      ensures next == OfRest(frame, final, limit, check)
    {
      match final
      case Fault(code) =>
        return Failure(ReadFault(code));
      case EndOfFile =>
        if |frame| == 0 { return Failure(Ended); }
        if |frame| > limit { return Failure(TooLarge); }
        return Checked(check, frame, frame, Some(Ended));
    }

    /** One validated frame. An error, once met, is repeated by every later call. */
    method ReadFrame() returns (next: Next)
      requires SourceOk()
      modifies `slices, `input, `afterErr
      ensures SourceOk()
      ensures old(afterErr).Some? ==> next == Failure(old(afterErr).value) && afterErr == old(afterErr)
      ensures old(afterErr).None? ==>
                match NextFrame(old(input), final, limit, check, alone)
                case Failure(error) => next == Failure(error) && afterErr == Some(error)
                case Frame(frame, after) => next == Frame(frame, None) && 0 < |frame| <= limit + 2 && afterErr == after
                                            && (after.None? ==> input == old(input)[LineLength(old(input))..]
                                                                && |slices| < |old(slices)|)
    {
      hide NextFrame, LineLength;
      if afterErr.Some? { return Failure(afterErr.value); }
      next := ReadFragments();
      match next
      case Failure(error) =>
        afterErr := Some(error);
      case Frame(frame, after) =>
        afterErr := after;
        next := Frame(frame, None);
    }

    /** Calling until an error yields exactly the frames of the input and its error. */
    method ReadAll() returns (all: seq<seq<Byte>>, error: FrameError)
      requires SourceOk() && afterErr.None?
      modifies `slices, `input, `afterErr
      ensures (all, error) == AllFrames(old(input), final, limit, check, alone)
      ensures forall frame :: frame in all ==> |frame| <= limit + 2
    {
      hide NextFrame, LineLength, AllFrames, Cuts;
      all := [];
      Prepended([], [], AllFrames(input, final, limit, check, alone));
      while true
        invariant SourceOk() && forall frame :: frame in all ==> |frame| <= limit + 2
        invariant AllFrames(old(input), final, limit, check, alone)
               == Prepend(all, if afterErr.Some? then ([], afterErr.value) else AllFrames(input, final, limit, check, alone))
        decreases if afterErr.None? then 1 else 0, |slices|
      {
        FirstFrame(input, final, limit, check, alone);
        var next := ReadFrame();
        match next
        case Failure(e) =>
          assert all + [] == all;
          return all, e;
        case Frame(frame, _) =>
          Prepended(all, [frame], if afterErr.Some? then ([], afterErr.value) else AllFrames(input, final, limit, check, alone));
          all := all + [frame];
      }
    }

    /** Hands on at most `size` bytes of the frames, in their order. */
    method Read(size: nat) returns (bytes: seq<Byte>, error: Option<FrameError>)
      requires Valid()
      modifies this
      ensures Valid() && |bytes| <= size && delivered == old(delivered) + bytes
      ensures bytes == [] <==> size == 0 || error.Some?
      ensures error.Some? ==> afterErr == error && frames == old(frames)
      ensures old(frames) <= frames && |frames| <= |old(frames)| + 1
    {
      hide NextFrame, LineLength, Cuts;
      if size == 0 { return [], None; }
      if |pending| == 0 {
        var next := ReadFrame();
        if next.Failure? { return [], Some(next.error); }
        pending := next.frame;
        frames := frames + [next.frame];
        assert frames[..|frames| - 1] == old(frames);
      }
      bytes := Hand(size);
      error := None;
    }

    method Hand(size: nat) returns (bytes: seq<Byte>)
      requires delivered + pending == Flatten(frames)
      modifies `pending, `delivered
      ensures delivered + pending == Flatten(frames) && |bytes| <= size && delivered == old(delivered) + bytes
      ensures bytes + pending == old(pending) && (bytes == [] <==> size == 0 || old(pending) == [])
    {
      var n := if size < |pending| then size else |pending|;
      bytes := pending[..n];
      delivered, pending := delivered + bytes, pending[n..];
      assert bytes + pending == old(pending);
    }
  }

  function Flatten(frames: seq<seq<Byte>>): seq<Byte> {
    if frames == [] then [] else Flatten(frames[..|frames| - 1]) + frames[|frames| - 1]
  }

  /** A prefix of a line that may still become an acceptable frame. */
  predicate Promising(input: seq<Byte>, frame: seq<Byte>, limit: nat) {
    frame <= input && NL !in frame && |frame| <= limit + 1 && |frame| <= MAX_INT && (|frame| == limit + 1 ==> frame[limit] == CR)
  }

  predicate IsSlice(slice: Slice, input: seq<Byte>) {
    && slice.bytes <= input
    && (slice.Line? ==> slice.bytes != [] && slice.bytes[|slice.bytes| - 1] == NL && NL !in slice.bytes[..|slice.bytes| - 1])
    && (!slice.Line? ==> NL !in slice.bytes)
    && (slice.Full? ==> slice.bytes != [])
    && (slice.Last? ==> slice.bytes == input)
  }

  lemma FirstSlice(slices: seq<Slice>, input: seq<Byte>)
    requires Cuts(slices, input)
    ensures slices != [] && IsSlice(slices[0], input) && (slices[0].Last? ==> (Alone(slices) <==> slices[0].bytes == []))
    ensures !slices[0].Last? ==> Cuts(slices[1..], input[|slices[0].bytes|..]) && slices[1..] != [] && Alone(slices[1..]) == Alone(slices)
  {
  }

  /** What a collected prefix and the next slice say about the line. */
  lemma Joined(input: seq<Byte>, frame: seq<Byte>, limit: nat, slice: Slice)
    requires Promising(input, frame, limit) && IsSlice(slice, input[|frame|..])
    ensures frame + slice.bytes <= input
    ensures slice.Line? ==> LineLength(input) == |frame| + |slice.bytes| && frame + slice.bytes == input[..LineLength(input)]
    ensures slice.Last? ==> LineLength(input) == 0 && frame + slice.bytes == input
    ensures slice.Full? ==> NL !in frame + slice.bytes && (LineLength(input) == 0 || LineLength(input) > |frame + slice.bytes|)
  {
  }

  lemma LongPayload(line: seq<Byte>)
    requires line != []
    ensures |line| - 2 <= |Payload(line)| <= |line| - 1
    ensures |line| >= 2 ==> (|Payload(line)| == |line| - 2 <==> line[|line| - 2] == CR)
  {
  }

  /** A line that does not fit with its last fragment is too long. */
  lemma LineOverflows(input: seq<Byte>, limit: nat, frame: seq<Byte>, slice: Slice)
    requires Promising(input, frame, limit) && IsSlice(slice, input[|frame|..]) && slice.Line?
    requires !FragmentFits(|frame|, slice.bytes, limit, true)
    ensures var n := LineLength(input); n > 0 && (n > MAX_INT || |Payload(input[..n])| > limit)
  {
    hide LineLength, Payload;
    Joined(input, frame, limit, slice);
    var line := input[..LineLength(input)];
    LongPayload(line);
    assert |slice.bytes| >= 2 ==> line[|line| - 2] == slice.bytes[|slice.bytes| - 2];
  }

  lemma TooMany(current: nat, bytes: seq<Byte>, limit: nat)
    requires !FragmentFits(current, bytes, limit, false)
    ensures var total := current + |bytes|;
            total > MAX_INT || total > limit + 1 || (total == limit + 1 && (bytes == [] || bytes[|bytes| - 1] != CR))
  {
  }

  /** Too many bytes without a newline end in no acceptable frame. */
  lemma TailOverflows(input: seq<Byte>, limit: nat, frame: seq<Byte>, slice: Slice)
    requires Promising(input, frame, limit) && IsSlice(slice, input[|frame|..]) && !slice.Line?
    requires !FragmentFits(|frame|, slice.bytes, limit, false)
    ensures var n, total := LineLength(input), |frame| + |slice.bytes|;
            total <= |input| && (slice.Last? ==> total == |input| && n == 0)
            && (n > 0 ==> n > MAX_INT || |Payload(input[..n])| > limit)
            && (total > MAX_INT || total > limit + 1 || (total == limit + 1 && (slice.bytes == [] || input[limit] != CR)))
  {
    hide LineLength, Payload, FragmentFits, Promising;
    TooMany(|frame|, slice.bytes, limit);
    Joined(input, frame, limit, slice);
    var n, total := LineLength(input), |frame| + |slice.bytes|;
    assert slice.bytes != [] ==> (frame + slice.bytes)[total - 1] == slice.bytes[|slice.bytes| - 1] == input[total - 1];
    if n > 0 {
      LongPayload(input[..n]);
      FullHasBytes(input[|frame|..], slice);
    }
  }

  /** What does not fit can never become an acceptable frame. */
  lemma Overflow(input: seq<Byte>, final: Final, limit: nat, check: seq<Byte> -> Option<nat>, alone: bool, frame: seq<Byte>, slice: Slice)
    requires Promising(input, frame, limit) && IsSlice(slice, input[|frame|..])
    requires !FragmentFits(|frame|, slice.bytes, limit, slice.Line?)
    requires slice.Last? ==> (alone <==> slice.bytes == [])
    ensures NextFrame(input, final, limit, check, alone) == Failure(TooLarge)
  {
    hide LineLength, Payload, FragmentFits, IsSlice;
    if slice.Line? {
      LineOverflows(input, limit, frame, slice);
    } else {
      FullHasBytes(input[|frame|..], slice);
      TailOverflows(input, limit, frame, slice);
    }
  }

  lemma FullHasBytes(input: seq<Byte>, slice: Slice)
    requires IsSlice(slice, input)
    ensures slice.Full? ==> slice.bytes != []
  {
  }

  /** The slices and the input are what comes after the first line of `start`. */
  ghost predicate Follows(start: seq<Byte>, before: nat, slices: seq<Slice>, input: seq<Byte>, alone: bool) {
    input == start[LineLength(start)..] && |slices| < before && Cuts(slices, input) && slices != [] && (alone <==> Alone(slices))
  }

  lemma LineComplete(input: seq<Byte>, final: Final, limit: nat, check: seq<Byte> -> Option<nat>, alone: bool, frame: seq<Byte>, slice: Slice)
    requires Promising(input, frame, limit) && IsSlice(slice, input[|frame|..]) && slice.Line?
    requires FragmentFits(|frame|, slice.bytes, limit, true)
    ensures var line := frame + slice.bytes;
            line != [] && |line| == LineLength(input)
            && var next := OfLine(line, limit, check);
            NextFrame(input, final, limit, check, alone) == next
            && (next.Frame? ==> 0 < |next.frame| <= limit + 2)
  {
    hide LineLength;
    Joined(input, frame, limit, slice);
  }

  lemma InputComplete(input: seq<Byte>, final: Final, limit: nat, check: seq<Byte> -> Option<nat>, alone: bool, frame: seq<Byte>, slice: Slice)
    requires Promising(input, frame, limit) && IsSlice(slice, input[|frame|..]) && slice.Last?
    requires FragmentFits(|frame|, slice.bytes, limit, false) && (alone <==> slice.bytes == [])
    ensures var next := OfRest(frame + slice.bytes, final, limit, check);
            NextFrame(input, final, limit, check, alone) == next
            && (next.Frame? ==> next.after.Some? && 0 < |next.frame| <= limit + 2)
  {
    hide LineLength;
    Joined(input, frame, limit, slice);
    assert slice.bytes != [] ==> input[|input| - 1] == slice.bytes[|slice.bytes| - 1];
  }

  lemma StillPromising(input: seq<Byte>, frame: seq<Byte>, limit: nat, slice: Slice)
    requires Promising(input, frame, limit) && IsSlice(slice, input[|frame|..]) && slice.Full?
    requires FragmentFits(|frame|, slice.bytes, limit, false)
    ensures Promising(input, frame + slice.bytes, limit)
    ensures input[|frame|..][|slice.bytes|..] == input[|frame + slice.bytes|..]
  {
    hide LineLength;
    Joined(input, frame, limit, slice);
  }

  // ----- Collecting a line -----

  /** `frame` was collected from `start`, and `slices` cut what is left of it. */
  ghost predicate Collecting(start: seq<Byte>, limit: nat, frame: seq<Byte>, slices: seq<Slice>, rest: seq<Byte>, alone: bool) {
    && Promising(start, frame, limit) && rest == start[|frame|..]
    && Cuts(slices, rest) && slices != [] && (alone <==> Alone(slices))
  }

  lemma NothingCollected(input: seq<Byte>, limit: nat, slices: seq<Slice>, alone: bool)
    requires Cuts(slices, input) && slices != [] && (alone <==> Alone(slices))
    ensures Collecting(input, limit, [], slices, input, alone)
  {
    hide Cuts, Alone;
  }

  lemma Refused(start: seq<Byte>, final: Final, limit: nat, check: seq<Byte> -> Option<nat>, alone: bool, frame: seq<Byte>,
                slices: seq<Slice>, rest: seq<Byte>)
    requires Collecting(start, limit, frame, slices, rest, alone) && slices != []
    requires !FragmentFits(|frame|, slices[0].bytes, limit, slices[0].Line?)
    ensures NextFrame(start, final, limit, check, alone) == Failure(TooLarge)
  {
    hide Cuts, Alone, FragmentFits, NextFrame, IsSlice;
    FirstSlice(slices, rest);
    Overflow(start, final, limit, check, alone, frame, slices[0]);
  }

  lemma LineCollected(start: seq<Byte>, final: Final, limit: nat, check: seq<Byte> -> Option<nat>, alone: bool, frame: seq<Byte>,
                      slices: seq<Slice>, rest: seq<Byte>, before: nat)
    requires Collecting(start, limit, frame, slices, rest, alone) && 0 < |slices| <= before && slices[0].Line?
    requires FragmentFits(|frame|, slices[0].bytes, limit, true)
    ensures var line := frame + slices[0].bytes;
            line != [] && |slices[0].bytes| <= |rest|
            && var next := OfLine(line, limit, check);
            NextFrame(start, final, limit, check, alone) == next && (next.Frame? ==> 0 < |next.frame| <= limit + 2)
            && Follows(start, before, slices[1..], rest[|slices[0].bytes|..], alone)
  {
    hide LineLength, Cuts, Alone, FragmentFits, NextFrame, OfLine;
    FirstSlice(slices, rest);
    LineComplete(start, final, limit, check, alone, frame, slices[0]);
    Joined(start, frame, limit, slices[0]);
  }

  lemma BufferCollected(start: seq<Byte>, limit: nat, frame: seq<Byte>, slices: seq<Slice>, rest: seq<Byte>, alone: bool)
    requires Collecting(start, limit, frame, slices, rest, alone) && slices != [] && slices[0].Full?
    requires FragmentFits(|frame|, slices[0].bytes, limit, false)
    ensures |slices[0].bytes| <= |rest| && |slices| > 1
    ensures Collecting(start, limit, frame + slices[0].bytes, slices[1..], rest[|slices[0].bytes|..], alone)
  {
    hide Cuts, Alone, FragmentFits;
    FirstSlice(slices, rest);
    StillPromising(start, frame, limit, slices[0]);
  }

  lemma RestCollected(start: seq<Byte>, final: Final, limit: nat, check: seq<Byte> -> Option<nat>, alone: bool, frame: seq<Byte>,
                      slices: seq<Slice>, rest: seq<Byte>)
    requires Collecting(start, limit, frame, slices, rest, alone) && slices != [] && slices[0].Last?
    requires FragmentFits(|frame|, slices[0].bytes, limit, false)
    ensures var next := OfRest(frame + slices[0].bytes, final, limit, check);
            NextFrame(start, final, limit, check, alone) == next
            && (next.Frame? ==> next.after.Some? && 0 < |next.frame| <= limit + 2)
  {
    hide Cuts, Alone, FragmentFits, NextFrame, OfRest, IsSlice;
    FirstSlice(slices, rest);
    InputComplete(start, final, limit, check, alone, frame, slices[0]);
  }
}
