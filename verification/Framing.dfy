/** Length-prefixed framing: the wire format, a pure parser of everything received so far,
    and the incremental decoder that refines it. */
module Framing {
  import opened Results

  const FRAME_HEADER_LENGTH: nat := 4
  const MAX_UINT32: nat := 0xffff_ffff
  const PAYLOAD_BLOCK_SIZE: nat := 64 * 1024
  const DEFAULT_MAX_FRAME_LENGTH: nat := 16 * 1024 * 1024

  type byte = b: int | 0 <= b < 256

  datatype FrameError =
    | PayloadTooLong
    | IncompletePrefix
    | LimitExceeded
    | NotExactlyOneFrame
    | DecoderEnded
    | DecoderFailed
    | TruncatedFrame

  datatype DecoderState = Open | Ended | Failed

  // ---------------------------------------------------------------------------------------
  // The wire format

  /** The unsigned 32-bit big-endian prefix: each byte store keeps the low eight bits. */
  function Prefix(length: nat): (h: seq<byte>)
    ensures |h| == FRAME_HEADER_LENGTH
  {
    [length / 0x1_000_000 % 0x100, length / 0x1_0000 % 0x100, length / 0x100 % 0x100, length % 0x100]
  }

  function PrefixValue(h: seq<byte>): nat
    requires |h| == FRAME_HEADER_LENGTH
  {
    var b0: int, b1: int, b2: int := h[0], h[1], h[2];
    b0 * 0x1_000_000 + b1 * 0x1_0000 + b2 * 0x100 + h[3]
  }

  function Framed(payload: seq<byte>): seq<byte> {
    Prefix(|payload|) + payload
  }

  function FramedAll(payloads: seq<seq<byte>>): seq<byte> {
    if payloads == [] then [] else Framed(payloads[0]) + FramedAll(payloads[1..])
  }

  lemma PrefixRoundTrip(length: nat)
    requires length <= MAX_UINT32
    ensures PrefixValue(Prefix(length)) == length
  {
    var a, b, c := length / 0x100, length / 0x1_0000, length / 0x1_000_000;
    assert length == 0x100 * a + length % 0x100;
    assert b == a / 0x100 && a == 0x100 * b + a % 0x100;
    assert c == b / 0x100 && b == 0x100 * c + b % 0x100;
    assert c < 0x100;
  }

  /** On the wire a frame is four bytes, which spell the payload's length with the most significant byte first, and then
      the payload. */
  lemma FrameLayout(payload: seq<byte>)
    requires |payload| <= MAX_UINT32
    ensures |Framed(payload)| == 4 + |payload| && Framed(payload)[4..] == payload
    ensures var f := Framed(payload);
            var b0: int, b1: int, b2: int, b3: int := f[0], f[1], f[2], f[3];
            b0 * 0x1_000_000 + b1 * 0x1_0000 + b2 * 0x100 + b3 == |payload|
  {
    PrefixRoundTrip(|payload|);
    hide Prefix;
  }

  lemma PrefixIsCanonical(h: seq<byte>)
    requires |h| == FRAME_HEADER_LENGTH
    ensures PrefixValue(h) <= MAX_UINT32
    ensures Prefix(PrefixValue(h)) == h
  {
    var b0: int, b1: int, b2: int := h[0], h[1], h[2];
    var v := PrefixValue(h);
    assert v / 0x100 == b0 * 0x1_0000 + b1 * 0x100 + b2 && v % 0x100 == h[3];
    var w := v / 0x100;
    assert w / 0x100 == b0 * 0x100 + b1 && w % 0x100 == b2;
    assert v / 0x1_0000 == w / 0x100;
    var x := w / 0x100;
    assert x / 0x100 == b0 && x % 0x100 == b1;
    assert v / 0x1_000_000 == x / 0x100;
  }

  // ---------------------------------------------------------------------------------------
  // The pure parser: what a whole input means, without any buffering

  datatype Parsed = Parsed(frames: seq<seq<byte>>, rest: seq<byte>) | Overflow

  function Parse(limit: nat, input: seq<byte>): Parsed
    decreases |input|
  {
    if |input| < FRAME_HEADER_LENGTH then Parsed([], input)
    else
      var length := PrefixValue(input[..FRAME_HEADER_LENGTH]);
      if length > limit then Overflow
      else if |input| < FRAME_HEADER_LENGTH + length then Parsed([], input)
      else Prepend([input[FRAME_HEADER_LENGTH..FRAME_HEADER_LENGTH + length]],
                   Parse(limit, input[FRAME_HEADER_LENGTH + length..]))
  }

  function Prepend(frames: seq<seq<byte>>, parsed: Parsed): Parsed {
    match parsed
    case Overflow => Overflow
    case Parsed(more, rest) => Parsed(frames + more, rest)
  }

  lemma PrependAssociates(a: seq<seq<byte>>, b: seq<seq<byte>>, parsed: Parsed)
    ensures Prepend(a, Prepend(b, parsed)) == Prepend(a + b, parsed)
  {
    if parsed.Parsed? {
      assert a + (b + parsed.frames) == (a + b) + parsed.frames;
    }
  }

  /** Parsing is incremental: the part already parsed never has to be looked at again. */
  lemma {:induction false} ParseAppend(limit: nat, a: seq<byte>, b: seq<byte>)
    ensures Parse(limit, a).Overflow? ==> Parse(limit, a + b).Overflow?
    ensures Parse(limit, a).Parsed? ==>
              Parse(limit, a + b) == Prepend(Parse(limit, a).frames, Parse(limit, Parse(limit, a).rest + b))
    decreases |a|
  {
    if |a| >= FRAME_HEADER_LENGTH {
      assert (a + b)[..FRAME_HEADER_LENGTH] == a[..FRAME_HEADER_LENGTH];
      var end := FRAME_HEADER_LENGTH + PrefixValue(a[..FRAME_HEADER_LENGTH]);
      if end - FRAME_HEADER_LENGTH <= limit && end <= |a| {
        assert (a + b)[FRAME_HEADER_LENGTH..end] == a[FRAME_HEADER_LENGTH..end];
        assert (a + b)[end..] == a[end..] + b;
        ParseAppend(limit, a[end..], b);
        if Parse(limit, a[end..]).Parsed? {
          PrependAssociates([a[FRAME_HEADER_LENGTH..end]], Parse(limit, a[end..]).frames,
                            Parse(limit, Parse(limit, a[end..]).rest + b));
        }
      } else if end - FRAME_HEADER_LENGTH <= limit {
        NothingToPrepend(Parse(limit, a + b));
      }
    } else {
      NothingToPrepend(Parse(limit, a + b));
    }
  }

  lemma NothingToPrepend(parsed: Parsed)
    ensures Prepend([], parsed) == parsed
  {
    if parsed.Parsed? {
      assert [] + parsed.frames == parsed.frames;
    }
  }

  /** What is left over after parsing holds no complete frame. */
  lemma {:induction false} RestIsIncomplete(limit: nat, input: seq<byte>)
    requires Parse(limit, input).Parsed?
    ensures Incomplete(limit, Parse(limit, input).rest)
    ensures |Parse(limit, input).rest| <= |input|
    decreases |input|
  {
    if |input| >= FRAME_HEADER_LENGTH {
      var end := FRAME_HEADER_LENGTH + PrefixValue(input[..FRAME_HEADER_LENGTH]);
      if end <= |input| {
        RestIsIncomplete(limit, input[end..]);
      }
    }
  }

  predicate Incomplete(limit: nat, input: seq<byte>) {
    Parse(limit, input) == Parsed([], input)
  }

  lemma ParseOne(limit: nat, h: seq<byte>, payload: seq<byte>, rest: seq<byte>)
    requires |h| == FRAME_HEADER_LENGTH && PrefixValue(h) == |payload| <= limit
    ensures Parse(limit, h + payload + rest) == Prepend([payload], Parse(limit, rest))
  {
    var input := h + payload + rest;
    assert input[..FRAME_HEADER_LENGTH] == h;
    assert input[FRAME_HEADER_LENGTH..FRAME_HEADER_LENGTH + |payload|] == payload;
    assert input[FRAME_HEADER_LENGTH + |payload|..] == rest;
  }

  lemma ParseOverflows(limit: nat, h: seq<byte>, rest: seq<byte>)
    requires |h| == FRAME_HEADER_LENGTH && PrefixValue(h) > limit
    ensures Parse(limit, h + rest) == Overflow
  {
    assert (h + rest)[..FRAME_HEADER_LENGTH] == h;
  }

  lemma ParseFramed(limit: nat, payload: seq<byte>, rest: seq<byte>)
    requires |payload| <= limit <= MAX_UINT32
    ensures Parse(limit, Framed(payload) + rest) == Prepend([payload], Parse(limit, rest))
  {
    PrefixRoundTrip(|payload|);
    ParseOne(limit, Prefix(|payload|), payload, rest);
  }

  /** Parsing undoes encoding, whatever follows the encoded frames. */
  lemma {:induction false} ParseUndoesFraming(limit: nat, payloads: seq<seq<byte>>, rest: seq<byte>)
    requires limit <= MAX_UINT32
    requires forall p :: p in payloads ==> |p| <= limit
    ensures Parse(limit, FramedAll(payloads) + rest) == Prepend(payloads, Parse(limit, rest))
  {
    if payloads == [] {
      assert FramedAll(payloads) + rest == rest;
      NothingToPrepend(Parse(limit, rest));
    } else {
      ParseUndoesFraming(limit, payloads[1..], rest);
      ParseFramed(limit, payloads[0], FramedAll(payloads[1..]) + rest);
      FramedFirst(payloads[0], payloads[1..], rest);
      assert [payloads[0]] + payloads[1..] == payloads;
      hide *;
      PrependAssociates([payloads[0]], payloads[1..], Parse(limit, rest));
    }
  }

  lemma ParseUndoesFramingAlone(limit: nat, payloads: seq<seq<byte>>)
    requires limit <= MAX_UINT32
    requires forall p :: p in payloads ==> |p| <= limit
    ensures Parse(limit, FramedAll(payloads)) == Parsed(payloads, [])
  {
    ParseUndoesFraming(limit, payloads, []);
    assert FramedAll(payloads) + [] == FramedAll(payloads) && payloads + [] == payloads;
  }

  lemma FramedFirst(payload: seq<byte>, payloads: seq<seq<byte>>, rest: seq<byte>)
    ensures FramedAll([payload] + payloads) + rest == Framed(payload) + (FramedAll(payloads) + rest)
  {
    assert ([payload] + payloads)[1..] == payloads;
  }

  lemma FirstIsFramed(input: seq<byte>)
    requires |input| >= FRAME_HEADER_LENGTH
    ensures var end := FRAME_HEADER_LENGTH + PrefixValue(input[..FRAME_HEADER_LENGTH]);
            end <= |input| ==> Framed(input[FRAME_HEADER_LENGTH..end]) + input[end..] == input
  {
    PrefixIsCanonical(input[..FRAME_HEADER_LENGTH]);
    var end := FRAME_HEADER_LENGTH + PrefixValue(input[..FRAME_HEADER_LENGTH]);
    if end <= |input| {
      assert Framed(input[FRAME_HEADER_LENGTH..end]) == input[..end];
    }
  }

  /** Framing loses nothing: the frames and the rest spell the input again. */
  lemma {:induction false} FramingUndoesParse(limit: nat, input: seq<byte>)
    requires Parse(limit, input).Parsed?
    ensures FramedAll(Parse(limit, input).frames) + Parse(limit, input).rest == input
    decreases |input|
  {
    if |input| >= FRAME_HEADER_LENGTH {
      var h := input[..FRAME_HEADER_LENGTH];
      var end := FRAME_HEADER_LENGTH + PrefixValue(h);
      if end <= |input| {
        var p := Parse(limit, input);
        var payload := input[FRAME_HEADER_LENGTH..end];
        var others := Parse(limit, input[end..]);
        assert p == Prepend([payload], others);
        assert p.frames == [payload] + others.frames && p.rest == others.rest;
        FirstIsFramed(input);
        hide *;
        FramingUndoesParse(limit, input[end..]);
        FramedFirst(payload, others.frames, p.rest);
      }
    }
  }

  // ---------------------------------------------------------------------------------------
  // The decoder as a machine on values: what one call does to the abstract state

  datatype Machine = Receiving(pending: seq<byte>) | Finished | Broken

  datatype PushOutcome = PushOutcome(machine: Machine, result: Result<seq<seq<byte>>, FrameError>)

  function PushStep(limit: nat, m: Machine, chunk: seq<byte>): PushOutcome {
    match m
    case Finished => PushOutcome(m, Failure(DecoderEnded))
    case Broken => PushOutcome(m, Failure(DecoderFailed))
    case Receiving(pending) =>
      match Parse(limit, pending + chunk)
      case Overflow => PushOutcome(Broken, Failure(LimitExceeded))
      case Parsed(frames, rest) => PushOutcome(Receiving(rest), Success(frames))
  }

  datatype EndOutcome = EndOutcome(machine: Machine, result: Result<(), FrameError>)

  function EndStep(m: Machine): EndOutcome {
    match m
    case Finished => EndOutcome(m, Failure(DecoderEnded))
    case Broken => EndOutcome(m, Failure(DecoderFailed))
    case Receiving(pending) =>
      if pending == [] then EndOutcome(Finished, Success(())) else EndOutcome(Broken, Failure(TruncatedFrame))
  }

  const FRESH_MACHINE := Receiving([])

  datatype Fed = Fed(machine: Machine, frames: seq<seq<byte>>, ok: bool)

  /** Pushing a list of chunks one after the other. */
  function Feed(limit: nat, m: Machine, chunks: seq<seq<byte>>): Fed
    decreases |chunks|
  {
    if chunks == [] then Fed(m, [], true)
    else
      var first := PushStep(limit, m, chunks[0]);
      if first.result.Failure? then Fed(first.machine, [], false)
      else
        var others := Feed(limit, first.machine, chunks[1..]);
        Fed(others.machine, first.result.value + others.frames, others.ok)
  }

  function Joined(chunks: seq<seq<byte>>): seq<byte> {
    if chunks == [] then [] else chunks[0] + Joined(chunks[1..])
  }

  /** Only the concatenation of the chunks matters: feeding them piecewise is one parse of it all. */
  lemma {:induction false} FeedIsOneParse(limit: nat, pending: seq<byte>, chunks: seq<seq<byte>>)
    requires Incomplete(limit, pending)
    ensures var fed := Feed(limit, Receiving(pending), chunks);
            match Parse(limit, pending + Joined(chunks))
            case Overflow => !fed.ok && fed.machine == Broken
            case Parsed(frames, rest) => fed == Fed(Receiving(rest), frames, true)
    decreases |chunks|
  {
    if chunks == [] {
      assert pending + Joined(chunks) == pending;
    } else {
      var a := pending + chunks[0];
      assert pending + Joined(chunks) == a + Joined(chunks[1..]);
      ParseAppend(limit, a, Joined(chunks[1..]));
      if Parse(limit, a).Parsed? {
        RestIsIncomplete(limit, a);
        FeedIsOneParse(limit, Parse(limit, a).rest, chunks[1..]);
      }
    }
  }

  /** push(a) then push(b) is push(a + b): it fails exactly when that fails, and otherwise yields the
      same frames and leaves the same state. */
  lemma PushSplits(limit: nat, pending: seq<byte>, a: seq<byte>, b: seq<byte>)
    requires Incomplete(limit, pending)
    ensures var whole := PushStep(limit, Receiving(pending), a + b);
            var first := PushStep(limit, Receiving(pending), a);
            var second := PushStep(limit, first.machine, b);
            && (whole.result.Success? <==> first.result.Success? && second.result.Success?)
            && whole.machine == second.machine
            && (whole.result.Success? ==> whole.result.value == first.result.value + second.result.value)
  {
    assert pending + (a + b) == (pending + a) + b;
    ParseAppend(limit, pending + a, b);
  }

  /** Round trip under every chunking: however the encoded frames are cut, the payloads come back in
      order, and the stream then ends cleanly. */
  lemma RoundTripUnderEveryChunking(limit: nat, payloads: seq<seq<byte>>, chunks: seq<seq<byte>>)
    requires limit <= MAX_UINT32
    requires forall p :: p in payloads ==> |p| <= limit
    requires Joined(chunks) == FramedAll(payloads)
    ensures Feed(limit, FRESH_MACHINE, chunks) == Fed(FRESH_MACHINE, payloads, true)
    ensures EndStep(Feed(limit, FRESH_MACHINE, chunks).machine).result.Success?
  {
    FeedIsOneParse(limit, [], chunks);
    assert [] + Joined(chunks) == Joined(chunks);
    ParseUndoesFramingAlone(limit, payloads);
  }

  /** end() succeeds exactly when what was received is a whole number of frames within the limit. */
  lemma EndSucceedsIffWholeFrames(limit: nat, chunks: seq<seq<byte>>)
    requires limit <= MAX_UINT32
    ensures var fed := Feed(limit, FRESH_MACHINE, chunks);
            (fed.ok && EndStep(fed.machine).result.Success?) <==>
            exists payloads: seq<seq<byte>> ::
              (forall p :: p in payloads ==> |p| <= limit) && Joined(chunks) == FramedAll(payloads)
  {
    FeedIsOneParse(limit, [], chunks);
    assert [] + Joined(chunks) == Joined(chunks);
    var fed := Feed(limit, FRESH_MACHINE, chunks);
    if fed.ok && EndStep(fed.machine).result.Success? {
      FramingUndoesParse(limit, Joined(chunks));
      FramesWithinLimit(limit, Joined(chunks));
      assert Joined(chunks) == FramedAll(fed.frames);
    }
    forall payloads: seq<seq<byte>> | (forall p :: p in payloads ==> |p| <= limit) && Joined(chunks) == FramedAll(payloads)
      ensures fed.ok && EndStep(fed.machine).result.Success?
    {
      ParseUndoesFramingAlone(limit, payloads);
    }
  }

  lemma {:induction false} FramesWithinLimit(limit: nat, input: seq<byte>)
    requires Parse(limit, input).Parsed?
    ensures forall p :: p in Parse(limit, input).frames ==> |p| <= limit
    decreases |input|
  {
    if |input| >= FRAME_HEADER_LENGTH {
      var end := FRAME_HEADER_LENGTH + PrefixValue(input[..FRAME_HEADER_LENGTH]);
      if end <= |input| {
        FramesWithinLimit(limit, input[end..]);
      }
    }
  }

  /** Once the decoder has failed or ended, no call ever yields frames again. */
  lemma {:induction false} NothingAfterFailure(limit: nat, m: Machine, chunks: seq<seq<byte>>)
    requires !m.Receiving?
    ensures Feed(limit, m, chunks).frames == [] && Feed(limit, m, chunks).machine == m
    ensures chunks != [] ==> !Feed(limit, m, chunks).ok
    ensures EndStep(m).machine == m && EndStep(m).result.Failure?
  {
  }

  /** Which failure it is: a prefix above the limit, or an end in the middle of a frame. Each of them breaks the decoder for
      every later call, while a clean end closes it. */
  lemma FailuresSayWhy(limit: nat, chunks: seq<seq<byte>>, chunk: seq<byte>, next: seq<byte>)
    requires Feed(limit, FRESH_MACHINE, chunks).ok
    ensures var fed := Feed(limit, FRESH_MACHINE, chunks);
            var pushed, ended := PushStep(limit, fed.machine, chunk), EndStep(fed.machine);
            && (pushed.result.Failure? ==> pushed.result.error == LimitExceeded && Refuses(limit, pushed.machine, next, DecoderFailed))
            && (ended.result.Failure? ==> ended.result.error == TruncatedFrame && Refuses(limit, ended.machine, next, DecoderFailed))
            && (ended.result.Success? ==> Refuses(limit, ended.machine, next, DecoderEnded))
  {
    FeedIsOneParse(limit, [], chunks);
  }

  predicate Refuses(limit: nat, m: Machine, next: seq<byte>, error: FrameError) {
    PushStep(limit, m, next).result == Failure(error) && EndStep(m).result == Failure(error)
  }

  /** The bytes begin with whole frames within the limit, and then a prefix that spells a length above it. */
  ghost predicate HasTooLong(limit: nat, input: seq<byte>) {
    exists payloads: seq<seq<byte>>, rest: seq<byte> ::
      && (forall p :: p in payloads ==> |p| <= limit)
      && input == FramedAll(payloads) + rest && StartsTooLong(limit, rest)
  }

  predicate StartsTooLong(limit: nat, rest: seq<byte>) {
    && |rest| >= 4
    && var b0: int, b1: int, b2: int, b3: int := rest[0], rest[1], rest[2], rest[3];
       b0 * 0x1_000_000 + b1 * 0x1_0000 + b2 * 0x100 + b3 > limit
  }

  /** A push fails exactly when, in all that was received, whole frames are followed by a prefix above the limit. */
  lemma FailsIffTooLong(limit: nat, chunks: seq<seq<byte>>)
    requires limit <= MAX_UINT32
    ensures Feed(limit, FRESH_MACHINE, chunks).ok <==> !HasTooLong(limit, Joined(chunks))
  {
    FeedIsOneParse(limit, [], chunks);
    assert [] + Joined(chunks) == Joined(chunks);
    OverflowIffTooLong(limit, Joined(chunks));
    hide HasTooLong;
  }

  lemma OverflowIffTooLong(limit: nat, input: seq<byte>)
    requires limit <= MAX_UINT32
    ensures Parse(limit, input).Overflow? <==> HasTooLong(limit, input)
  {
    if Parse(limit, input).Overflow? {
      var payloads, rest := TooLongPart(limit, input);
    }
    forall payloads: seq<seq<byte>>, rest: seq<byte> |
      (forall p :: p in payloads ==> |p| <= limit) && input == FramedAll(payloads) + rest && StartsTooLong(limit, rest)
      ensures Parse(limit, input).Overflow?
    {
      ParseUndoesFraming(limit, payloads, rest);
    }
  }

  lemma {:induction false} TooLongPart(limit: nat, input: seq<byte>) returns (payloads: seq<seq<byte>>, rest: seq<byte>)
    requires Parse(limit, input).Overflow?
    ensures forall p :: p in payloads ==> |p| <= limit
    ensures input == FramedAll(payloads) + rest && StartsTooLong(limit, rest)
    decreases |input|
  {
    var length := PrefixValue(input[..FRAME_HEADER_LENGTH]);
    if length > limit {
      payloads, rest := [], input;
    } else {
      var end := FRAME_HEADER_LENGTH + length;
      var others;
      others, rest := TooLongPart(limit, input[end..]);
      payloads := [input[FRAME_HEADER_LENGTH..end]] + others;
      FirstIsFramed(input);
      FramedFirst(input[FRAME_HEADER_LENGTH..end], others, rest);
    }
  }

  // ---------------------------------------------------------------------------------------
  // The imperative code

  method EncodeFrame(payload: array<byte>) returns (r: Result<array<byte>, FrameError>)
    ensures r.Failure? <==> payload.Length > MAX_UINT32
    ensures r.Failure? ==> r.error == PayloadTooLong
    ensures r.Success? ==> fresh(r.value) && r.value[..] == Framed(payload[..])
    ensures r.Success? ==> r.value.Length == 4 + payload.Length && r.value[4..] == payload[..]
    ensures r.Success? ==>
              var b0: int, b1: int, b2: int, b3: int := r.value[0], r.value[1], r.value[2], r.value[3];
              b0 * 0x1_000_000 + b1 * 0x1_0000 + b2 * 0x100 + b3 == payload.Length
  {
    if payload.Length > MAX_UINT32 {
      return Failure(PayloadTooLong);
    }
    var frame := new byte[FRAME_HEADER_LENGTH + payload.Length](_ => 0);
    var length := payload.Length;
    frame[0] := length / 0x1_000_000 % 0x100;
    frame[1] := length / 0x1_0000 % 0x100;
    frame[2] := length / 0x100 % 0x100;
    frame[3] := length % 0x100;
    forall i | 0 <= i < payload.Length {
      frame[FRAME_HEADER_LENGTH + i] := payload[i];
    }
    PrefixRoundTrip(length);
    hide Prefix;
    r := Success(frame);
  }

  method AssertCompleteFrame(frame: array<byte>, maxFrameLength: nat) returns (r: Result<(), FrameError>)
    requires maxFrameLength <= MAX_UINT32
    ensures r.Success? <==> CompleteFrame(maxFrameLength, frame[..])
    ensures r.Failure? ==>
              && (r.error == IncompletePrefix <==> frame.Length < FRAME_HEADER_LENGTH)
              && (r.error == LimitExceeded <==>
                    frame.Length >= FRAME_HEADER_LENGTH && PrefixValue(frame[..FRAME_HEADER_LENGTH]) > maxFrameLength)
              && (r.error != IncompletePrefix && r.error != LimitExceeded ==> r.error == NotExactlyOneFrame)
  {
    if frame.Length < FRAME_HEADER_LENGTH {
      return Failure(IncompletePrefix);
    }
    var b0: int, b1: int, b2: int := frame[0], frame[1], frame[2];
    var length := b0 * 0x1_000_000 + b1 * 0x1_0000 + b2 * 0x100 + frame[3];
    if length > maxFrameLength {
      return Failure(LimitExceeded);
    }
    if frame.Length != FRAME_HEADER_LENGTH + length {
      return Failure(NotExactlyOneFrame);
    }
    r := Success(());
  }

  lemma ParsedToNothing(limit: nat, input: seq<byte>)
    ensures Parse(limit, input) == Parsed([], []) <==> input == []
  {
    if Parse(limit, input) == Parsed([], []) {
      FramingUndoesParse(limit, input);
    }
  }

  predicate CompleteFrame(limit: nat, frame: seq<byte>) {
    && |frame| >= FRAME_HEADER_LENGTH
    && PrefixValue(frame[..FRAME_HEADER_LENGTH]) <= limit
    && |frame| == FRAME_HEADER_LENGTH + PrefixValue(frame[..FRAME_HEADER_LENGTH])
  }

  /** assertCompleteFrame accepts exactly the inputs for which a fresh decoder returns one frame and
      then ends cleanly. */
  lemma CompleteFrameIffDecodesToOne(limit: nat, frame: seq<byte>)
    ensures CompleteFrame(limit, frame) <==>
            var pushed := PushStep(limit, FRESH_MACHINE, frame);
            && pushed.result.Success? && |pushed.result.value| == 1
            && EndStep(pushed.machine).result.Success?
  {
    assert [] + frame == frame;
    OneFrameParse(limit, frame);
    hide Parse, CompleteFrame;
  }

  lemma OneFrameParse(limit: nat, frame: seq<byte>)
    ensures CompleteFrame(limit, frame) <==>
            Parse(limit, frame).Parsed? && |Parse(limit, frame).frames| == 1 && Parse(limit, frame).rest == []
  {
    if |frame| >= FRAME_HEADER_LENGTH {
      var end := FRAME_HEADER_LENGTH + PrefixValue(frame[..FRAME_HEADER_LENGTH]);
      if end - FRAME_HEADER_LENGTH <= limit && end <= |frame| {
        ParsedToNothing(limit, frame[end..]);
        OneMore(frame[FRAME_HEADER_LENGTH..end], Parse(limit, frame[end..]));
        hide PrefixValue;
      }
    }
  }

  lemma OneMore(payload: seq<byte>, tail: Parsed)
    ensures var all := Prepend([payload], tail);
            (all.Parsed? && |all.frames| == 1 && all.rest == []) <==> tail == Parsed([], [])
  {
    if tail.Parsed? && |tail.frames| == 0 {
      assert tail.frames == [];
    }
  }

  ghost function Contents(blocks: seq<array<byte>>): seq<byte>
    reads blocks
  {
    if blocks == [] then [] else Contents(blocks[..|blocks| - 1]) + blocks[|blocks| - 1][..]
  }

  /** The bytes of memory that a list of blocks occupies. */
  ghost function Held(blocks: seq<array<byte>>): nat {
    if blocks == [] then 0 else Held(blocks[..|blocks| - 1]) + blocks[|blocks| - 1].Length
  }

  lemma {:induction false} HeldByFullBlocks(blocks: seq<array<byte>>)
    requires forall i :: 0 <= i < |blocks| ==> blocks[i].Length == PAYLOAD_BLOCK_SIZE
    ensures Held(blocks) == PAYLOAD_BLOCK_SIZE * |blocks|
  {
    if blocks != [] {
      HeldByFullBlocks(blocks[..|blocks| - 1]);
    }
  }

  /** The arrays hold, in order, exactly the given values. */
  ghost predicate Hold(arrays: seq<array<byte>>, values: seq<seq<byte>>)
    reads arrays
  {
    |arrays| == |values| && forall i :: 0 <= i < |arrays| ==> arrays[i][..] == values[i]
  }

  /** target.set(source.subarray(from, from + count), at) */
  method Copy(source: seq<byte>, from: nat, count: nat, target: array<byte>, at: nat)
    requires from + count <= |source| && at + count <= target.Length
    modifies target
    ensures target[..at] == old(target[..at])
    ensures target[..at + count] == old(target[..at]) + source[from..from + count]
  {
    forall i | 0 <= i < count {
      target[at + i] := source[from + i];
    }
  }

  class FrameDecoder {
    const header: array<byte>
    var headerLength: nat
    const maxFrameLength: nat
    var payloadBlocks: seq<array<byte>>
    var currentPayloadBlock: array?<byte>
    var currentPayloadBlockLength: nat
    var expectedPayloadLength: Option<nat>
    var payloadLength: nat
    var state: DecoderState
    ghost var Repr: set<object>

    /** All blocks but the last are full-size, and the last is no larger than what was still missing
        when it was allocated. */
    ghost predicate ValidBlocks(expected: nat)
      reads this
    {
      var n := |payloadBlocks|;
      && (forall i :: 0 <= i < n ==> payloadBlocks[i] != header)
      && (forall i :: 0 <= i < n - 1 ==>
            payloadBlocks[i].Length == PAYLOAD_BLOCK_SIZE && payloadBlocks[i] != payloadBlocks[n - 1])
      && (n == 0 ==> currentPayloadBlock == null && currentPayloadBlockLength == 0 && payloadLength == 0)
      && (n > 0 ==>
            && currentPayloadBlock == payloadBlocks[n - 1]
            && 0 < currentPayloadBlockLength <= payloadBlocks[n - 1].Length
            && payloadLength == PAYLOAD_BLOCK_SIZE * (n - 1) + currentPayloadBlockLength
            && payloadBlocks[n - 1].Length == Min(PAYLOAD_BLOCK_SIZE, expected - PAYLOAD_BLOCK_SIZE * (n - 1)))
    }

    /** Holds at every point of push(), also while the last byte of a frame has just been stored. */
    ghost predicate Consistent()
      reads this, Repr
      ensures Consistent() ==> this in Repr
    {
      && this in Repr && header in Repr
      && (forall i :: 0 <= i < |payloadBlocks| ==> payloadBlocks[i] in Repr)
      && header.Length == FRAME_HEADER_LENGTH
      && maxFrameLength <= MAX_UINT32
      && headerLength < FRAME_HEADER_LENGTH
      && (expectedPayloadLength.None? ==> payloadBlocks == [] && ValidBlocks(0))
      && (expectedPayloadLength.Some? ==>
            && headerLength == 0
            && payloadLength <= expectedPayloadLength.value <= maxFrameLength
            && 0 < expectedPayloadLength.value == PrefixValue(header[..])
            && ValidBlocks(expectedPayloadLength.value))
      && (state != Open ==> headerLength == 0 && expectedPayloadLength == None)
    }

    ghost predicate Valid()
      reads this, Repr
      ensures Valid() ==> this in Repr
    {
      Consistent() && (expectedPayloadLength.Some? ==> payloadLength < expectedPayloadLength.value)
    }

    /** The payload bytes received for the current frame. */
    ghost function Received(): seq<byte>
      requires Consistent()
      reads this, Repr
    {
      var n := |payloadBlocks|;
      if n == 0 then [] else Contents(payloadBlocks[..n - 1]) + payloadBlocks[n - 1][..currentPayloadBlockLength]
    }

    /** The bytes of the frame that is still incomplete, prefix included. */
    ghost function Pending(): seq<byte>
      requires Consistent()
      reads this, Repr
    {
      if expectedPayloadLength.Some? then header[..] + Received()
      else header[..headerLength]
    }

    ghost function Abstract(): Machine
      requires Valid()
      reads this, Repr
    {
      match state
      case Open => Receiving(Pending())
      case Ended => Finished
      case Failed => Broken
    }

    /** The bound on memory: whatever length the prefix declares, the blocks held exceed the payload
        bytes received by less than one block, and never the declared length. */
    lemma BufferBound()
      requires Consistent()
      ensures payloadLength <= Held(payloadBlocks) < payloadLength + PAYLOAD_BLOCK_SIZE
      ensures expectedPayloadLength.Some? ==> Held(payloadBlocks) <= expectedPayloadLength.value
      ensures forall i :: 0 <= i < |payloadBlocks| - 1 ==> payloadBlocks[i].Length == PAYLOAD_BLOCK_SIZE
    {
      var n := |payloadBlocks|;
      if n > 0 {
        HeldByFullBlocks(payloadBlocks[..n - 1]);
      }
    }

    lemma ReceivedLength()
      requires Consistent()
      ensures |Received()| == payloadLength
    {
      var n := |payloadBlocks|;
      if n > 0 {
        ContentsLength(payloadBlocks[..n - 1]);
        HeldByFullBlocks(payloadBlocks[..n - 1]);
      }
    }

    lemma PendingIsIncomplete()
      requires Valid()
      ensures Incomplete(maxFrameLength, Pending())
    {
      if expectedPayloadLength.Some? {
        ReceivedLength();
        assert Pending()[..FRAME_HEADER_LENGTH] == header[..];
      }
    }

    constructor (maxFrameLength: nat := DEFAULT_MAX_FRAME_LENGTH)
      requires maxFrameLength <= MAX_UINT32
      ensures Valid() && fresh(Repr)
      ensures this.maxFrameLength == maxFrameLength && Abstract() == FRESH_MACHINE
    {
      header := new byte[FRAME_HEADER_LENGTH](_ => 0);
      headerLength := 0;
      this.maxFrameLength := maxFrameLength;
      payloadBlocks := [];
      currentPayloadBlock := null;
      currentPayloadBlockLength := 0;
      expectedPayloadLength := None;
      payloadLength := 0;
      state := Open;
      Repr := {this, header};
    }

    method Push(chunk: seq<byte>) returns (r: Result<seq<array<byte>>, FrameError>)
      requires Valid()
      modifies Repr
      ensures Valid()
      ensures var step := PushStep(maxFrameLength, old(Abstract()), chunk);
              && Abstract() == step.machine
              && (r.Success? <==> step.result.Success?)
              && (r.Success? ==> Hold(r.value, step.result.value))
              && (r.Failure? ==> r.error == step.result.error)
      ensures r.Success? ==> forall i :: 0 <= i < |r.value| ==> r.value[i] !in Repr
      ensures fresh(Repr - old(Repr))
    {
      if state == Ended {
        return Failure(DecoderEnded);
      }
      if state == Failed {
        return Failure(DecoderFailed);
      }
      r := Split(chunk);
    }

    /** The main loop of push(). */
    method Split(chunk: seq<byte>) returns (r: Result<seq<array<byte>>, FrameError>)
      requires Valid() && state == Open
      modifies Repr
      ensures Valid()
      ensures var parsed := Parse(maxFrameLength, old(Pending()) + chunk);
              && (r.Success? ==> state == Open && parsed.Parsed? && Hold(r.value, parsed.frames) && Pending() == parsed.rest)
              && (r.Failure? ==> state == Failed && parsed.Overflow? && r.error == LimitExceeded)
      ensures r.Success? ==> forall i :: 0 <= i < |r.value| ==> r.value[i] !in Repr
      ensures fresh(Repr - old(Repr))
    {
      hide Consistent, Parse, Pending;
      var frames: seq<array<byte>> := [];
      ghost var values: seq<seq<byte>> := [];
      ghost var unread := Pending() + chunk;
      ghost var whole := Parse(maxFrameLength, unread);
      var chunkOffset := 0;
      NothingToPrepend(whole);
      while chunkOffset < |chunk|
        invariant chunkOffset <= |chunk|
        invariant Valid() && state == Open
        invariant Hold(frames, values)
        invariant unread == Pending() + chunk[chunkOffset..]
        invariant whole == Prepend(values, Parse(maxFrameLength, unread))
        invariant forall i :: 0 <= i < |frames| ==> frames[i] !in Repr
        invariant fresh(Repr - old(Repr))
      {
        var next, frame := Advance(chunk, chunkOffset);
        if frame.Failure? {
          return Failure(frame.error);
        }
        chunkOffset := next;
        unread := Pending() + chunk[next..];
        if frame.value.Some? {
          var payload := frame.value.value;
          PrependAssociates(values, [payload[..]], Parse(maxFrameLength, unread));
          frames, values := frames + [payload], values + [payload[..]];
        }
      }
      PendingIsIncomplete();
      assert unread == Pending();
      assert values + [] == values;
      r := Success(frames);
    }

    /** One round of the main loop: completes the prefix, the payload, or uses up the chunk. */
    method Advance(chunk: seq<byte>, offset: nat) returns (next: nat, frame: Result<Option<array<byte>>, FrameError>)
      requires Valid() && state == Open
      requires offset < |chunk|
      modifies Repr
      ensures Valid()
      ensures frame.Failure? ==> frame.error == LimitExceeded && state == Failed
      ensures frame.Failure? ==> Parse(maxFrameLength, old(Pending()) + chunk[offset..]) == Overflow
      ensures frame.Success? ==> state == Open && offset < next <= |chunk|
      ensures frame.Success? && frame.value == None ==> old(Pending()) + chunk[offset..] == Pending() + chunk[next..]
      ensures frame.Success? && frame.value.Some? ==>
                var f := frame.value.value;
                && f !in Repr
                && Pending() == []
                && Parse(maxFrameLength, old(Pending()) + chunk[offset..])
                   == Prepend([f[..]], Parse(maxFrameLength, Pending() + chunk[next..]))
      ensures fresh(Repr - old(Repr))
    {
      hide Parse;
      ghost var before := Pending() + chunk[offset..];
      next := offset;
      if expectedPayloadLength == None {
        var length;
        next, length := ReadPrefix(chunk, offset);
        assert chunk[offset..] == chunk[offset..next] + chunk[next..];
        if length == None {
          return next, Success(None);
        }
        var frameLength := length.value;
        assert before == header[..] + chunk[next..];
        if frameLength > maxFrameLength {
          ParseOverflows(maxFrameLength, header[..], chunk[next..]);
          Fail();
          return next, Failure(LimitExceeded);
        }
        if frameLength == 0 {
          var empty := new byte[0];
          assert empty[..] == [] && header[..] + [] == header[..];
          ParseOne(maxFrameLength, header[..], [], chunk[next..]);
          assert Pending() + chunk[next..] == chunk[next..];
          return next, Success(Some(empty));
        }
        ExpectPayload(frameLength);
      }
      next, frame := AdvancePayload(chunk, next);
    }

    /** The prefix was read: its payload is next. */
    method ExpectPayload(frameLength: nat)
      requires Valid() && state == Open && expectedPayloadLength == None && headerLength == 0
      requires 0 < frameLength == PrefixValue(header[..]) <= maxFrameLength
      modifies this`expectedPayloadLength, this`payloadBlocks, this`currentPayloadBlock, this`currentPayloadBlockLength,
               this`payloadLength
      ensures Valid() && expectedPayloadLength == Some(frameLength) && Pending() == header[..]
    {
      expectedPayloadLength := Some(frameLength);
      payloadBlocks := [];
      currentPayloadBlock := null;
      currentPayloadBlockLength := 0;
      payloadLength := 0;
      assert Pending() == header[..];
    }

    method AdvancePayload(chunk: seq<byte>, offset: nat) returns (next: nat, frame: Result<Option<array<byte>>, FrameError>)
      requires Valid() && state == Open && expectedPayloadLength.Some?
      requires offset <= |chunk|
      modifies Repr
      ensures Valid() && state == Open && frame.Success?
      ensures offset <= next <= |chunk| && (offset < |chunk| ==> offset < next)
      ensures frame.value == None ==> old(Pending()) + chunk[offset..] == Pending() + chunk[next..]
      ensures frame.value.Some? ==>
                var f := frame.value.value;
                && f !in Repr
                && Pending() == []
                && Parse(maxFrameLength, old(Pending()) + chunk[offset..])
                   == Prepend([f[..]], Parse(maxFrameLength, Pending() + chunk[next..]))
      ensures fresh(Repr - old(Repr))
    {
      hide Parse, Contents;
      ghost var h, had, input := header[..], Received(), Pending() + chunk[offset..];
      next := ReadPayload(chunk, offset);
      ghost var received := Received();
      assert input == h + received + chunk[next..] by {
        assert chunk[offset..] == chunk[offset..next] + chunk[next..];
        assert h + (had + chunk[offset..next]) == h + had + chunk[offset..next];
      }
      if payloadLength != expectedPayloadLength.value {
        return next, Success(None);
      }
      ReceivedLength();
      ParseOne(maxFrameLength, h, received, chunk[next..]);
      var payload := TakePayload();
      assert payload[..] == received && Pending() + chunk[next..] == chunk[next..];
      frame := Success(Some(payload));
    }

    /** Moves bytes of the chunk into the header; returns the declared length once it is complete. */
    method ReadPrefix(chunk: seq<byte>, offset: nat) returns (next: nat, length: Option<nat>)
      requires Valid() && state == Open && expectedPayloadLength == None
      requires offset < |chunk|
      modifies this`headerLength, header
      ensures Valid()
      ensures offset < next <= |chunk|
      ensures length == None ==> Pending() == old(Pending()) + chunk[offset..next]
      ensures length == None ==> next == |chunk|
      ensures length.Some? ==> length.value == PrefixValue(header[..]) && Pending() == []
      ensures length.Some? ==> old(Pending()) + chunk[offset..next] == header[..]
    {
      var headerBytes := Min(FRAME_HEADER_LENGTH - headerLength, |chunk| - offset);
      Copy(chunk, offset, headerBytes, header, headerLength);
      next := offset + headerBytes;
      headerLength := headerLength + headerBytes;
      if headerLength < FRAME_HEADER_LENGTH {
        return next, None;
      }
      var b0: int, b1: int, b2: int := header[0], header[1], header[2];
      var frameLength := b0 * 0x1_000_000 + b1 * 0x1_0000 + b2 * 0x100 + header[3];
      headerLength := 0;
      return next, Some(frameLength);
    }

    /** Moves bytes of the chunk into payload blocks until either is exhausted. */
    method ReadPayload(chunk: seq<byte>, offset: nat) returns (next: nat)
      requires Valid() && state == Open && expectedPayloadLength.Some?
      requires offset <= |chunk|
      modifies Repr
      ensures header[..] == old(header[..]) && state == Open
      ensures expectedPayloadLength == old(expectedPayloadLength)
      ensures Consistent()
      ensures offset <= next <= |chunk|
      ensures payloadLength < expectedPayloadLength.value ==> next == |chunk|
      ensures Received() == old(Received()) + chunk[offset..next]
      ensures fresh(Repr - old(Repr))
      ensures offset < |chunk| ==> offset < next
    {
      next := offset;
      var expected := expectedPayloadLength.value;
      ghost var had := Received();
      assert had + chunk[offset..next] == had;
      while next < |chunk| && payloadLength < expected
        invariant offset <= next <= |chunk|
        invariant Consistent() && state == Open && expectedPayloadLength == Some(expected)
        invariant header[..] == old(header[..])
        invariant Received() == had + chunk[offset..next]
        invariant offset < |chunk| ==> offset < next || payloadLength < expected
        invariant fresh(Repr - old(Repr))
        decreases |chunk| - next
      {
        var stored := FillBlock(chunk, next);
        assert had + chunk[offset..next] + chunk[next..stored] == had + chunk[offset..stored];
        next := stored;
      }
    }

    /** Copies into the current block, allocating one when there is none or it is full. */
    method FillBlock(chunk: seq<byte>, offset: nat) returns (next: nat)
      requires Valid() && state == Open && expectedPayloadLength.Some?
      requires offset < |chunk|
      modifies Repr
      ensures header[..] == old(header[..]) && state == Open
      ensures expectedPayloadLength == old(expectedPayloadLength)
      ensures Consistent()
      ensures offset < next <= |chunk|
      ensures Received() == old(Received()) + chunk[offset..next]
      ensures fresh(Repr - old(Repr))
    {
      hide Contents;
      ghost var had := Received();
      AllocateIfNeeded();
      var block: array<byte> := currentPayloadBlock;
      var used := currentPayloadBlockLength;
      ghost var full := payloadBlocks[..|payloadBlocks| - 1];
      ghost var before, kept := Contents(full), block[..used];
      var payloadBytes := Min(block.Length - used, |chunk| - offset);
      Copy(chunk, offset, payloadBytes, block, used);
      assert Contents(full) == before;
      next := offset + payloadBytes;
      currentPayloadBlockLength := used + payloadBytes;
      payloadLength := payloadLength + payloadBytes;
      assert had + chunk[offset..next] == before + block[..used + payloadBytes] by {
        assert had == before + kept;
      }
    }

    method AllocateIfNeeded()
      requires Valid() && state == Open && expectedPayloadLength.Some?
      modifies this`payloadBlocks, this`currentPayloadBlock, this`currentPayloadBlockLength, this`Repr
      ensures |payloadBlocks| > 0
      ensures this in Repr && header in Repr && forall i :: 0 <= i < |payloadBlocks| ==> payloadBlocks[i] in Repr
      ensures var n := |payloadBlocks|; var last := payloadBlocks[n - 1];
              && currentPayloadBlock == last && currentPayloadBlockLength < last.Length
              && (forall i :: 0 <= i < n ==> payloadBlocks[i] != header)
              && (forall i :: 0 <= i < n - 1 ==>
                    payloadBlocks[i].Length == PAYLOAD_BLOCK_SIZE && payloadBlocks[i] != last)
              && payloadLength == PAYLOAD_BLOCK_SIZE * (n - 1) + currentPayloadBlockLength
              && last.Length == Min(PAYLOAD_BLOCK_SIZE, expectedPayloadLength.value - PAYLOAD_BLOCK_SIZE * (n - 1))
              && old(Received()) == Contents(payloadBlocks[..n - 1]) + last[..currentPayloadBlockLength]
      ensures fresh(Repr - old(Repr))
    {
      var block := currentPayloadBlock;
      if block == null || currentPayloadBlockLength == block.Length {
        ghost var full := payloadBlocks;
        assert Received() == Contents(full) by {
          if |full| > 0 {
            assert full[|full| - 1][..currentPayloadBlockLength] == full[|full| - 1][..];
          }
        }
        block := new byte[Min(PAYLOAD_BLOCK_SIZE, expectedPayloadLength.value - payloadLength)](_ => 0);
        payloadBlocks := payloadBlocks + [block];
        Repr := Repr + {block};
        currentPayloadBlock := block;
        currentPayloadBlockLength := 0;
        assert payloadBlocks[..|payloadBlocks| - 1] == full;
        assert Contents(full) + block[..0] == Contents(full);
      }
    }

    /** Hands the complete payload out and forgets it. */
    method TakePayload() returns (frame: array<byte>)
      requires Consistent() && state == Open && expectedPayloadLength == Some(payloadLength)
      modifies this
      ensures Valid() && state == Open && Pending() == []
      ensures frame[..] == old(Received())
      ensures frame !in Repr && fresh(Repr - old(Repr))
    {
      var blocks := payloadBlocks;
      assert blocks[|blocks| - 1][..currentPayloadBlockLength] == blocks[|blocks| - 1][..];
      assert Received() == Contents(blocks);
      ReceivedLength();
      if |blocks| == 1 {
        frame := blocks[0];
        assert Contents(blocks[..0]) == [];
      } else {
        frame := Concatenate(blocks, payloadLength);
      }
      Repr := {this, header};
      payloadBlocks := [];
      currentPayloadBlock := null;
      currentPayloadBlockLength := 0;
      expectedPayloadLength := None;
      payloadLength := 0;
    }

    method End() returns (r: Result<(), FrameError>)
      requires Valid()
      modifies this
      ensures Valid() && Repr == old(Repr)
      ensures EndStep(old(Abstract())) == EndOutcome(Abstract(), r)
    {
      if state == Ended {
        return Failure(DecoderEnded);
      }
      if state == Failed {
        return Failure(DecoderFailed);
      }
      if headerLength != 0 || expectedPayloadLength != None {
        Fail();
        return Failure(TruncatedFrame);
      }
      state := Ended;
      r := Success(());
    }

    method Fail()
      requires Valid()
      modifies this
      ensures Valid() && state == Failed && Repr == old(Repr)
    {
      state := Failed;
      headerLength := 0;
      payloadBlocks := [];
      currentPayloadBlock := null;
      currentPayloadBlockLength := 0;
      expectedPayloadLength := None;
      payloadLength := 0;
    }
  }

  method Concatenate(blocks: seq<array<byte>>, length: nat) returns (payload: array<byte>)
    requires |Contents(blocks)| == length
    ensures fresh(payload) && payload[..] == Contents(blocks)
  {
    payload := new byte[length](_ => 0);
    var offset := 0;
    assert blocks[..|blocks|] == blocks;
    for k := 0 to |blocks|
      invariant offset == |Contents(blocks[..k])| <= length
      invariant payload[..offset] == Contents(blocks[..k])
    {
      var block := blocks[k];
      ContentsPrefix(blocks, k);
      assert blocks[..k + 1][..k] == blocks[..k];
      Copy(block[..], 0, block.Length, payload, offset);
      assert block[..][0..block.Length] == block[..];
      offset := offset + block.Length;
    }
  }

  lemma {:induction false} ContentsLength(blocks: seq<array<byte>>)
    ensures |Contents(blocks)| == Held(blocks)
  {
    if blocks != [] {
      ContentsLength(blocks[..|blocks| - 1]);
    }
  }

  lemma {:induction false} ContentsPrefix(blocks: seq<array<byte>>, k: nat)
    requires k < |blocks|
    ensures |Contents(blocks[..k])| + blocks[k].Length <= |Contents(blocks)|
    decreases |blocks|
  {
    var n := |blocks| - 1;
    if k < n {
      ContentsPrefix(blocks[..n], k);
      assert blocks[..n][..k] == blocks[..k];
    }
  }
}
