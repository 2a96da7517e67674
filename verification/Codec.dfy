/** Validated protocol messages over the frame decoder. The CBOR codec and the message schema are
    parameters: all that is used of them is that decoding undoes encoding on valid messages. */
module Codec {
  import opened Results
  import opened Framing

  datatype ProtocolError = InvalidMessage | UnableToEncode | DecoderHasFailed | InvalidFrame

  /** `check` is the schema test; `encode` and `decode` are None where the CBOR codec throws. */
  datatype Schema<!M> = Schema(check: M -> bool, encode: M -> Option<seq<byte>>, decode: seq<byte> -> Option<M>)

  ghost predicate Inverts<M(!new)>(schema: Schema<M>) {
    forall m :: schema.check(m) && schema.encode(m).Some? ==> schema.decode(schema.encode(m).value) == Some(m)
  }

  predicate Encodable<M>(schema: Schema<M>, limit: nat, message: M) {
    schema.check(message) && schema.encode(message).Some? && |schema.encode(message).value| <= limit <= MAX_UINT32
  }

  method EncodeProtocolMessage<M>(schema: Schema<M>, limit: nat, message: M)
    returns (r: Result<seq<byte>, ProtocolError>)
    ensures r.Success? <==> Encodable(schema, limit, message)
    ensures r.Success? ==> r.value == Framed(schema.encode(message).value)
    ensures r.Failure? ==> r.error == if schema.check(message) then UnableToEncode else InvalidMessage
  {
    if !schema.check(message) {
      return Failure(InvalidMessage);
    }
    var encoded := schema.encode(message);
    if encoded == None {
      return Failure(UnableToEncode);
    }
    var bytes := encoded.value;
    if |bytes| > limit || limit > MAX_UINT32 {
      return Failure(UnableToEncode);
    }
    var payload := new byte[|bytes|](i requires 0 <= i < |bytes| => bytes[i]);
    assert payload[..] == bytes;
    var frame := EncodeFrame(payload);
    EncodedFrameIsComplete(limit, bytes);
    var complete := AssertCompleteFrame(frame.value, limit);
    assert complete.Success?;
    r := Success(frame.value[..]);
  }

  lemma EncodedFrameIsComplete(limit: nat, payload: seq<byte>)
    requires |payload| <= limit <= MAX_UINT32
    ensures CompleteFrame(limit, Framed(payload))
  {
    PrefixRoundTrip(|payload|);
    assert Framed(payload)[..FRAME_HEADER_LENGTH] == Prefix(|payload|);
  }

  // ---------------------------------------------------------------------------------------
  // The decoder as a machine on values

  datatype MessageMachine = MessageMachine(failed: bool, frames: Machine)

  datatype MessagesOutcome<M> = MessagesOutcome(machine: MessageMachine, result: Result<seq<M>, ProtocolError>)

  function DecodeOne<M>(schema: Schema<M>, frame: seq<byte>): Option<M> {
    match schema.decode(frame)
    case None => None
    case Some(m) => if schema.check(m) then Some(m) else None
  }

  /** One bad payload spoils the whole chunk. */
  function DecodeAll<M>(schema: Schema<M>, frames: seq<seq<byte>>): Option<seq<M>> {
    if frames == [] then Some([])
    else
      match (DecodeOne(schema, frames[0]), DecodeAll(schema, frames[1..]))
      case (Some(m), Some(ms)) => Some([m] + ms)
      case _ => None
  }

  function PushMessages<M>(schema: Schema<M>, limit: nat, mm: MessageMachine, chunk: seq<byte>): MessagesOutcome<M> {
    if mm.failed then MessagesOutcome(mm, Failure(DecoderHasFailed))
    else
      var pushed := PushStep(limit, mm.frames, chunk);
      if pushed.result.Failure? then
        MessagesOutcome(MessageMachine(true, pushed.machine), Failure(InvalidFrame))
      else
        match DecodeAll(schema, pushed.result.value)
        case None => MessagesOutcome(MessageMachine(true, pushed.machine), Failure(InvalidFrame))
        case Some(ms) => MessagesOutcome(MessageMachine(false, pushed.machine), Success(ms))
  }

  const FRESH_MESSAGES := MessageMachine(false, FRESH_MACHINE)

  datatype FedMessages<M> = FedMessages(machine: MessageMachine, messages: seq<M>, ok: bool)

  function FeedMessages<M>(schema: Schema<M>, limit: nat, mm: MessageMachine, chunks: seq<seq<byte>>): FedMessages<M>
    decreases |chunks|
  {
    if chunks == [] then FedMessages(mm, [], true)
    else
      var first := PushMessages(schema, limit, mm, chunks[0]);
      if first.result.Failure? then FedMessages(first.machine, [], false)
      else
        var others := FeedMessages(schema, limit, first.machine, chunks[1..]);
        FedMessages(others.machine, first.result.value + others.messages, others.ok)
  }

  function Encodings<M>(schema: Schema<M>, limit: nat, messages: seq<M>): seq<seq<byte>>
    requires forall i :: 0 <= i < |messages| ==> Encodable(schema, limit, messages[i])
  {
    seq(|messages|, i requires 0 <= i < |messages| && Encodable(schema, limit, messages[i]) => schema.encode(messages[i]).value)
  }

  function Both<T>(a: Option<seq<T>>, b: Option<seq<T>>): Option<seq<T>> {
    if a.Some? && b.Some? then Some(a.value + b.value) else None
  }

  lemma {:induction false} DecodeAllAppend<M>(schema: Schema<M>, a: seq<seq<byte>>, b: seq<seq<byte>>)
    ensures DecodeAll(schema, a + b) == Both(DecodeAll(schema, a), DecodeAll(schema, b))
  {
    var all := DecodeAll(schema, b);
    if a == [] {
      assert a + b == b;
      assert all.Some? ==> [] + all.value == all.value;
    } else {
      DecodeAllAppend(schema, a[1..], b);
      assert (a + b)[1..] == a[1..] + b && (a + b)[0] == a[0];
      var first, others := DecodeOne(schema, a[0]), DecodeAll(schema, a[1..]);
      if first.Some? && others.Some? && all.Some? {
        assert [first.value] + (others.value + all.value) == [first.value] + others.value + all.value;
      }
    }
  }

  lemma DecodeSnoc<M>(schema: Schema<M>, frames: seq<seq<byte>>, k: nat)
    requires k < |frames|
    ensures var m := DecodeOne(schema, frames[k]);
            DecodeAll(schema, frames[..k + 1])
            == Both(DecodeAll(schema, frames[..k]), if m.Some? then Some([m.value]) else None)
  {
    assert frames[..k + 1] == frames[..k] + [frames[k]];
    DecodeAllAppend(schema, frames[..k], [frames[k]]);
    assert DecodeAll(schema, [frames[k]][1..]) == Some([]);
    var m := DecodeOne(schema, frames[k]);
    assert m.Some? ==> [m.value] + [] == [m.value];
  }

  lemma {:induction false} DecodeAllUndoesEncoding<M(!new)>(schema: Schema<M>, limit: nat, messages: seq<M>)
    requires Inverts(schema)
    requires forall i :: 0 <= i < |messages| ==> Encodable(schema, limit, messages[i])
    ensures DecodeAll(schema, Encodings(schema, limit, messages)) == Some(messages)
  {
    if messages == [] {
      assert Encodings(schema, limit, messages) == [];
    } else {
      DecodeAllUndoesEncoding(schema, limit, messages[1..]);
      assert Encodable(schema, limit, messages[0]);
      assert Encodings(schema, limit, messages)[1..] == Encodings(schema, limit, messages[1..]);
      assert [messages[0]] + messages[1..] == messages;
    }
  }

  /** Feeding messages is feeding frames and decoding what came out, as long as nothing fails. */
  lemma {:induction false} FeedMessagesIsFeedThenDecode<M>(
      schema: Schema<M>, limit: nat, frames: Machine, chunks: seq<seq<byte>>, messages: seq<M>)
    requires Feed(limit, frames, chunks).ok
    requires DecodeAll(schema, Feed(limit, frames, chunks).frames) == Some(messages)
    ensures FeedMessages(schema, limit, MessageMachine(false, frames), chunks)
         == FedMessages(MessageMachine(false, Feed(limit, frames, chunks).machine), messages, true)
    decreases |chunks|
  {
    if chunks != [] {
      var pushed := PushStep(limit, frames, chunks[0]);
      var others := Feed(limit, pushed.machine, chunks[1..]);
      DecodeAllAppend(schema, pushed.result.value, others.frames);
      var rest := DecodeAll(schema, others.frames);
      FeedMessagesIsFeedThenDecode(schema, limit, pushed.machine, chunks[1..], rest.value);
    }
  }

  /** Round trip on messages, under every chunking of the encoded stream. */
  lemma MessagesRoundTrip<M(!new)>(schema: Schema<M>, limit: nat, messages: seq<M>, chunks: seq<seq<byte>>)
    requires limit <= MAX_UINT32 && Inverts(schema)
    requires forall i :: 0 <= i < |messages| ==> Encodable(schema, limit, messages[i])
    requires Joined(chunks) == FramedAll(Encodings(schema, limit, messages))
    ensures FeedMessages(schema, limit, FRESH_MESSAGES, chunks) == FedMessages(FRESH_MESSAGES, messages, true)
    ensures EndStep(FeedMessages(schema, limit, FRESH_MESSAGES, chunks).machine.frames).result.Success?
  {
    var payloads := Encodings(schema, limit, messages);
    forall p | p in payloads ensures |p| <= limit {
      var i :| 0 <= i < |payloads| && payloads[i] == p;
      assert Encodable(schema, limit, messages[i]);
    }
    RoundTripUnderEveryChunking(limit, payloads, chunks);
    DecodeAllUndoesEncoding(schema, limit, messages);
    FeedMessagesIsFeedThenDecode(schema, limit, FRESH_MACHINE, chunks, messages);
  }

  /** Every message a decoder ever yields passed the schema check, whatever bytes it was fed. */
  lemma {:induction false} YieldsOnlyValidMessages<M>(
      schema: Schema<M>, limit: nat, mm: MessageMachine, chunks: seq<seq<byte>>)
    ensures forall m :: m in FeedMessages(schema, limit, mm, chunks).messages ==> schema.check(m)
    decreases |chunks|
  {
    if chunks != [] {
      var first := PushMessages(schema, limit, mm, chunks[0]);
      if first.result.Success? {
        DecodedAreValid(schema, PushStep(limit, mm.frames, chunks[0]).result.value);
        YieldsOnlyValidMessages(schema, limit, first.machine, chunks[1..]);
      }
    }
  }

  /** A payload that the codec or the schema rejects spoils its push, and from then on the decoder refuses everything,
      whatever it is fed. */
  lemma OneBadPayloadFailsForGood<M>(schema: Schema<M>, limit: nat, mm: MessageMachine, chunk: seq<byte>, frame: seq<byte>,
      chunks: seq<seq<byte>>, next: seq<byte>)
    requires !mm.failed && mm.frames.Receiving? && Parse(limit, mm.frames.pending + chunk).Parsed?
    requires frame in Parse(limit, mm.frames.pending + chunk).frames
    requires schema.decode(frame) == None || !schema.check(schema.decode(frame).value)
    ensures PushMessages(schema, limit, mm, chunk).result == Failure(InvalidFrame)
    ensures var after := PushesOf(schema, limit, PushMessages(schema, limit, mm, chunk).machine, chunks);
            && after == PushMessages(schema, limit, mm, chunk).machine
            && PushMessages(schema, limit, after, next).result == Failure(DecoderHasFailed)
  {
    OneBadSpoilsAll(schema, Parse(limit, mm.frames.pending + chunk).frames, frame);
    FailedStays(schema, limit, PushMessages(schema, limit, mm, chunk).machine, chunks);
  }

  /** A push fails, of a decoder that has not failed, exactly when its framing fails or one of the payloads is rejected;
      and from then on the decoder refuses everything. */
  lemma PushFailsIff<M>(schema: Schema<M>, limit: nat, mm: MessageMachine, chunk: seq<byte>, next: seq<byte>)
    requires !mm.failed
    ensures var pushed, framed := PushMessages(schema, limit, mm, chunk), PushStep(limit, mm.frames, chunk).result;
            && (pushed.result.Failure? <==>
                  framed.Failure? || exists frame :: frame in framed.value && Rejected(schema, frame))
            && (pushed.result.Failure? ==>
                  && pushed.result.error == InvalidFrame
                  && PushMessages(schema, limit, pushed.machine, next).result == Failure(DecoderHasFailed))
  {
    var framed := PushStep(limit, mm.frames, chunk).result;
    if framed.Success? {
      DecodesIff(schema, framed.value);
    }
    hide PushStep;
  }

  predicate Rejected<M>(schema: Schema<M>, frame: seq<byte>) {
    schema.decode(frame) == None || !schema.check(schema.decode(frame).value)
  }

  lemma {:induction false} DecodesIff<M>(schema: Schema<M>, frames: seq<seq<byte>>)
    ensures DecodeAll(schema, frames).None? <==> exists frame :: frame in frames && Rejected(schema, frame)
  {
    if frames != [] {
      DecodesIff(schema, frames[1..]);
      assert DecodeAll(schema, frames).None? <==> Rejected(schema, frames[0]) || DecodeAll(schema, frames[1..]).None?;
      assert forall frame :: frame in frames <==> frame == frames[0] || frame in frames[1..];
    }
  }

  /** The machine after pushing all the chunks, whether the pushes fail or not. */
  function PushesOf<M>(schema: Schema<M>, limit: nat, mm: MessageMachine, chunks: seq<seq<byte>>): MessageMachine
    decreases |chunks|
  {
    if chunks == [] then mm else PushesOf(schema, limit, PushMessages(schema, limit, mm, chunks[0]).machine, chunks[1..])
  }

  lemma {:induction false} FailedStays<M>(schema: Schema<M>, limit: nat, mm: MessageMachine, chunks: seq<seq<byte>>)
    requires mm.failed
    ensures PushesOf(schema, limit, mm, chunks) == mm
  {
    if chunks != [] {
      FailedStays(schema, limit, mm, chunks[1..]);
    }
  }

  lemma {:induction false} OneBadSpoilsAll<M>(schema: Schema<M>, frames: seq<seq<byte>>, frame: seq<byte>)
    requires frame in frames && (schema.decode(frame) == None || !schema.check(schema.decode(frame).value))
    ensures DecodeAll(schema, frames) == None
  {
    if frame != frames[0] {
      OneBadSpoilsAll(schema, frames[1..], frame);
    }
  }

  lemma {:induction false} DecodedAreValid<M>(schema: Schema<M>, frames: seq<seq<byte>>)
    ensures DecodeAll(schema, frames).Some? ==>
              forall m :: m in DecodeAll(schema, frames).value ==> schema.check(m)
  {
    if frames != [] {
      DecodedAreValid(schema, frames[1..]);
    }
  }

  // ---------------------------------------------------------------------------------------
  // The imperative decoder

  method DecodeFrames<M(==)>(schema: Schema<M>, frames: seq<array<byte>>, ghost payloads: seq<seq<byte>>)
    returns (r: Option<seq<M>>)
    requires Hold(frames, payloads)
    ensures r == DecodeAll(schema, payloads)
  {
    var messages: seq<M> := [];
    for k := 0 to |frames|
      invariant DecodeAll(schema, payloads[..k]) == Some(messages)
    {
      var message := schema.decode(frames[k][..]);
      DecodeSnoc(schema, payloads, k);
      if message == None || !schema.check(message.value) {
        assert payloads[..k + 1] + payloads[k + 1..] == payloads;
        DecodeAllAppend(schema, payloads[..k + 1], payloads[k + 1..]);
        return None;
      }
      messages := messages + [message.value];
    }
    assert payloads[..|payloads|] == payloads;
    r := Some(messages);
  }

  class ValidatedMessageDecoder<M(==)> {
    var failed: bool
    const frames: FrameDecoder
    const schema: Schema<M>

    ghost predicate Valid()
      reads this, frames, frames.Repr
    {
      frames.Valid() && this !in frames.Repr
    }

    ghost function Abstract(): MessageMachine
      requires Valid()
      reads this, frames, frames.Repr
    {
      MessageMachine(failed, frames.Abstract())
    }

    constructor (schema: Schema<M>, maxFrameLength: nat := DEFAULT_MAX_FRAME_LENGTH)
      requires maxFrameLength <= MAX_UINT32
      ensures Valid() && fresh(frames.Repr)
      ensures this.schema == schema && frames.maxFrameLength == maxFrameLength
      ensures Abstract() == FRESH_MESSAGES
    {
      this.schema := schema;
      failed := false;
      frames := new FrameDecoder(maxFrameLength);
    }

    method Push(chunk: seq<byte>) returns (r: Result<seq<M>, ProtocolError>)
      requires Valid()
      modifies this, frames.Repr
      ensures Valid() && fresh(frames.Repr - old(frames.Repr))
      ensures PushMessages(schema, frames.maxFrameLength, old(Abstract()), chunk) == MessagesOutcome(Abstract(), r)
    {
      hide PushStep, FrameDecoder.Consistent, FrameDecoder.Abstract;
      if failed {
        return Failure(DecoderHasFailed);
      }
      var pushed := frames.Push(chunk);
      if pushed.Failure? {
        failed := true;
        return Failure(InvalidFrame);
      }
      ghost var payloads := PushStep(frames.maxFrameLength, old(frames.Abstract()), chunk).result.value;
      var messages := DecodeFrames(schema, pushed.value, payloads);
      if messages == None {
        failed := true;
        return Failure(InvalidFrame);
      }
      r := Success(messages.value);
    }

    method End() returns (r: Result<(), ProtocolError>)
      requires Valid()
      modifies this, frames.Repr
      ensures Valid()
      ensures old(failed) ==> r == Failure(DecoderHasFailed) && Abstract() == old(Abstract())
      ensures !old(failed) ==>
                var ended := EndStep(old(frames.Abstract()));
                && (r.Success? <==> ended.result.Success?)
                && Abstract() == MessageMachine(r.Failure?, ended.machine)
    {
      if failed {
        return Failure(DecoderHasFailed);
      }
      var ended := frames.End();
      if ended.Failure? {
        failed := true;
        return Failure(InvalidFrame);
      }
      r := Success(());
    }
  }
}
