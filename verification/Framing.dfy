/** Length-prefixed framing of protocol messages over a byte stream. */
module Framing {
  import opened Common

  const MAX_FRAME_SIZE: nat := 16 * 1024 * 1024

  /** The payload codec is a foreign library: serialising may fail, parsing may fail. */
  datatype PayloadCodec<!Msg> = PayloadCodec(ser: Msg -> Option<seq<byte>>, parse: seq<byte> -> Option<Msg>)

  /** What is relied on of the library: it reads back what it wrote. */
  ghost predicate RoundTrips<Msg(!new)>(c: PayloadCodec<Msg>) {
    forall m :: c.ser(m).Some? ==> c.parse(c.ser(m).value) == Some(m)
  }

  datatype CodecError = FrameTooLarge(size: nat) | Serialize | Deserialize

  /** `Ok(None)`, `Ok(Some((msg, consumed)))` and `Err(e)` of the source. */
  datatype Decoded<+Msg> = Incomplete | Frame(msg: Msg, consumed: nat) | Failed(error: CodecError)

  /** A 32-bit length in network order. */
  function PutU32(n: nat): (b: seq<byte>)
    requires n < 0x1_0000_0000
    ensures |b| == 4
  {
    [n / 0x100_0000, n / 0x1_0000 % 0x100, n / 0x100 % 0x100, n % 0x100]
  }

  function GetU32(b: seq<byte>): nat
    requires |b| >= 4
  {
    (b[0] as int) * 0x100_0000 + (b[1] as int) * 0x1_0000 + (b[2] as int) * 0x100 + (b[3] as int)
  }

  lemma GetPutU32(n: nat, rest: seq<byte>)
    requires n < 0x1_0000_0000
    ensures GetU32(PutU32(n) + rest) == n
  {
    var h := n / 0x1_0000;
    assert h == n / 0x100_0000 * 0x100 + h % 0x100;
    assert n / 0x100 == h * 0x100 + n / 0x100 % 0x100;
  }

  function Encode<Msg>(c: PayloadCodec<Msg>, m: Msg): Result<seq<byte>, CodecError> {
    var payload := c.ser(m);
    if payload.None? then Err(Serialize)
    else if |payload.value| > MAX_FRAME_SIZE then Err(FrameTooLarge(|payload.value|))
    else Ok(PutU32(|payload.value|) + payload.value)
  }

  function Decode<Msg>(c: PayloadCodec<Msg>, buf: seq<byte>): (r: Decoded<Msg>)
    ensures r.Frame? ==> 4 <= r.consumed <= |buf|
  {
    if |buf| < 4 then Incomplete
    else
      var len := GetU32(buf);
      if len > MAX_FRAME_SIZE then Failed(FrameTooLarge(len))
      else if |buf| < 4 + len then Incomplete
      else
        var m := c.parse(buf[4..4 + len]);
        if m.None? then Failed(Deserialize) else Frame(m.value, 4 + len)
  }

  /** Answers other than "incomplete" are final: more bytes do not change them. */
  lemma DecodeIsStable<Msg>(c: PayloadCodec<Msg>, buf: seq<byte>, more: seq<byte>)
    requires !Decode(c, buf).Incomplete?
    ensures Decode(c, buf + more) == Decode(c, buf)
  {
    var len := GetU32(buf);
    assert GetU32(buf + more) == len;
    if len <= MAX_FRAME_SIZE {
      assert (buf + more)[4..4 + len] == buf[4..4 + len];
    }
  }

  /** A frame decodes to its message whatever follows it, and never exceeds the cap. */
  lemma DecodeEncode<Msg(!new)>(c: PayloadCodec<Msg>, m: Msg, more: seq<byte>)
    requires RoundTrips(c) && Encode(c, m).Ok?
    ensures 4 <= |Encode(c, m).value| <= 4 + MAX_FRAME_SIZE
    ensures Decode(c, Encode(c, m).value + more) == Frame(m, |Encode(c, m).value|)
  {
    var p := c.ser(m).value;
    var f := Encode(c, m).value;
    GetPutU32(|p|, p + more);
    assert f + more == PutU32(|p|) + (p + more);
    assert (f + more)[4..4 + |p|] == p;
  }

  /** Every proper prefix of a frame is incomplete. */
  lemma PrefixIsIncomplete<Msg>(c: PayloadCodec<Msg>, m: Msg, part: seq<byte>)
    requires Encode(c, m).Ok? && part < Encode(c, m).value
    ensures Decode(c, part) == Incomplete
  {
    var p := c.ser(m).value;
    if |part| >= 4 {
      GetPutU32(|p|, p);
      assert GetU32(part) == GetU32(Encode(c, m).value);
    }
  }

  // ---- The buffering decoder ----

  class MessageDecoder<Msg> {
    const codec: PayloadCodec<Msg>
    var buf: seq<byte>

    constructor (codec: PayloadCodec<Msg>)
      ensures this.codec == codec && buf == []
    {
      this.codec := codec;
      buf := [];
    }

    method Push(data: seq<byte>)
      modifies this
      ensures buf == old(buf) + data
    {
      buf := buf + data;
    }

    /** Consumes exactly the frame it returns; on an error or a partial frame, nothing. */
    method TryDecode() returns (r: Decoded<Msg>)
      modifies this
      ensures r == Decode(codec, old(buf))
      ensures buf == if r.Frame? then old(buf)[r.consumed..] else old(buf)
    {
      r := Decode(codec, buf);
      if r.Frame? {
        buf := buf[r.consumed..];
      }
    }
  }

  /** What draining a buffer gives: the messages, the bytes left, and the error that stopped it. */
  datatype Drained<+Msg> = Drained(msgs: seq<Msg>, rest: seq<byte>, error: Option<CodecError>)

  /** All complete frames at the front of a stream. */
  function Drain<Msg>(c: PayloadCodec<Msg>, buf: seq<byte>): Drained<Msg>
    decreases |buf|
  {
    match Decode(c, buf)
    case Incomplete => Drained([], buf, None)
    case Failed(e) => Drained([], buf, Some(e))
    case Frame(m, n) =>
      var d := Drain(c, buf[n..]);
      Drained([m] + d.msgs, d.rest, d.error)
  }

  /** A consumer that takes `room` more messages, if it ever drops its channel, gets the first ones. */
  ghost predicate Delivers<Msg>(d: Drained<Msg>, room: Option<nat>, msgs: seq<Msg>, rest: seq<byte>, dropped: bool,
                                error: Option<CodecError>)
  {
    && dropped == (room.Some? && room.value < |d.msgs|)
    && (!dropped ==> d == Drained(msgs, rest, error))
    && (dropped ==> msgs == d.msgs[..room.value] && error.None?)
  }

  /** The inner read loop: every message goes to the consumer, until one cannot be decoded or delivered. */
  method DrainUntilError<Msg>(decoder: MessageDecoder<Msg>, room: Option<nat>)
      returns (msgs: seq<Msg>, dropped: bool, error: Option<CodecError>)
    modifies decoder
    ensures Delivers(Drain(decoder.codec, old(decoder.buf)), room, msgs, decoder.buf, dropped, error)
  {
    msgs := [];
    ghost var goal := Drain(decoder.codec, decoder.buf);
    ConcatEmpty(goal.msgs);
    while true
      invariant msgs + Drain(decoder.codec, decoder.buf).msgs == goal.msgs
      invariant Drain(decoder.codec, decoder.buf).rest == goal.rest
      invariant Drain(decoder.codec, decoder.buf).error == goal.error
      invariant room.Some? ==> |msgs| <= room.value
      decreases |decoder.buf|
    {
      var r := decoder.TryDecode();
      match r {
        case Frame(m, _) =>
          ConcatAssociates(msgs, [m], Drain(decoder.codec, decoder.buf).msgs);
          if room == Some(|msgs|) {
            assert goal.msgs[..|msgs|] == msgs;
            return msgs, true, None;
          }
          msgs := msgs + [m];
        case Incomplete =>
          ConcatEmpty(msgs);
          return msgs, false, None;
        case Failed(e) =>
          ConcatEmpty(msgs);
          return msgs, false, Some(e);
      }
    }
  }

  /** Appending bytes to a drained stream only continues where the drain stopped for want of
      bytes, and changes nothing where it stopped on an error. */
  lemma {:induction false} DrainAppend<Msg>(c: PayloadCodec<Msg>, a: seq<byte>, b: seq<byte>)
    ensures var d := Drain(c, a);
            Drain(c, a + b)
            == if d.error.Some? then Drained(d.msgs, d.rest + b, d.error)
               else var e := Drain(c, d.rest + b); Drained(d.msgs + e.msgs, e.rest, e.error)
    decreases |a|
  {
    match Decode(c, a)
    case Incomplete =>
      assert [] + Drain(c, a + b).msgs == Drain(c, a + b).msgs;
    case Failed(e) =>
      DecodeIsStable(c, a, b);
    case Frame(m, n) =>
      DecodeIsStable(c, a, b);
      assert (a + b)[n..] == a[n..] + b;
      DrainAppend(c, a[n..], b);
      var d := Drain(c, a[n..]);
      if d.error.None? {
        ConcatAssociates([m], d.msgs, Drain(c, d.rest + b).msgs);
      }
  }

  /** The reader fed with chunks: each is pushed and the buffer drained, until an error. */
  function ReadChunks<Msg>(c: PayloadCodec<Msg>, buf: seq<byte>, chunks: seq<seq<byte>>): Drained<Msg>
    decreases |chunks|
  {
    if chunks == [] then Drained([], buf, None)
    else
      var d := Drain(c, buf + chunks[0]);
      if d.error.Some? then d
      else
        var e := ReadChunks(c, d.rest, chunks[1..]);
        Drained(d.msgs + e.msgs, e.rest, e.error)
  }

  lemma FirstOfMore<T>(msgs: seq<T>, got: seq<T>, more: seq<T>, room: nat)
    requires |msgs| <= room && room - |msgs| < |got|
    ensures (msgs + (got + more))[..room] == msgs + got[..room - |msgs|]
    ensures (msgs + got)[..room] == msgs + got[..room - |msgs|]
  {
  }

  /** The read path of the SSH channel actor over the chunks it receives. */
  method ReadLoop<Msg>(decoder: MessageDecoder<Msg>, chunks: seq<seq<byte>>, room: Option<nat>)
      returns (msgs: seq<Msg>, dropped: bool, error: Option<CodecError>)
    modifies decoder
    ensures Delivers(ReadChunks(decoder.codec, old(decoder.buf), chunks), room, msgs, decoder.buf, dropped, error)
  {
    msgs := [];
    ghost var goal := ReadChunks(decoder.codec, decoder.buf, chunks);
    ConcatEmpty(goal.msgs);
    assert chunks[0..] == chunks;
    for i := 0 to |chunks|
      invariant ReadChunks(decoder.codec, decoder.buf, chunks[i..]).rest == goal.rest
      invariant ReadChunks(decoder.codec, decoder.buf, chunks[i..]).error == goal.error
      invariant msgs + ReadChunks(decoder.codec, decoder.buf, chunks[i..]).msgs == goal.msgs
      invariant room.Some? ==> |msgs| <= room.value
    {
      assert chunks[i..][0] == chunks[i] && chunks[i..][1..] == chunks[i + 1..];
      decoder.Push(chunks[i]);
      ghost var d := Drain(decoder.codec, decoder.buf);
      ghost var more := ReadChunks(decoder.codec, d.rest, chunks[i + 1..]).msgs;
      var left := if room.Some? then Some(room.value - |msgs|) else None;
      var got, gone, e := DrainUntilError(decoder, left);
      if gone {
        FirstOfMore(msgs, d.msgs, more, room.value);
        return msgs + got, true, None;
      } else if e.Some? {
        return msgs + got, false, e;
      }
      ConcatAssociates(msgs, got, more);
      msgs := msgs + got;
    }
    ConcatEmpty(msgs);
    return msgs, false, None;
  }

  lemma {:induction false} DrainRestIncomplete<Msg>(c: PayloadCodec<Msg>, buf: seq<byte>)
    requires Drain(c, buf).error.None?
    ensures Decode(c, Drain(c, buf).rest) == Incomplete
    decreases |buf|
  {
    if Decode(c, buf).Frame? {
      DrainRestIncomplete(c, buf[Decode(c, buf).consumed..]);
    }
  }

  /** Chunking does not matter, on any byte stream at all: the messages and the final error are
      those of draining the whole stream at once, and so are the bytes left if there is no error. */
  lemma {:induction false} ChunkingDoesNotMatter<Msg>(c: PayloadCodec<Msg>, buf: seq<byte>, chunks: seq<seq<byte>>)
    requires Decode(c, buf) == Incomplete
    ensures var r, d := ReadChunks(c, buf, chunks), Drain(c, buf + Flatten(chunks));
            && r.msgs == d.msgs && r.error == d.error
            && (r.error.None? ==> r.rest == d.rest)
    decreases |chunks|
  {
    if chunks == [] {
      ConcatEmpty(buf);
    } else {
      var rest := Flatten(chunks[1..]);
      var d := Drain(c, buf + chunks[0]);
      ConcatAssociates(buf, chunks[0], rest);
      DrainAppend(c, buf + chunks[0], rest);
      if d.error.None? {
        DrainRestIncomplete(c, buf + chunks[0]);
        ChunkingDoesNotMatter(c, d.rest, chunks[1..]);
      }
    }
  }

  // ---- Streams of encoded messages ----

  ghost predicate AllEncode<Msg>(c: PayloadCodec<Msg>, ms: seq<Msg>) {
    forall i :: 0 <= i < |ms| ==> Encode(c, ms[i]).Ok?
  }

  function Frames<Msg>(c: PayloadCodec<Msg>, ms: seq<Msg>): seq<byte>
    requires AllEncode(c, ms)
  {
    if ms == [] then [] else Encode(c, ms[0]).value + Frames(c, ms[1..])
  }

  /** The messages are the first ones of the list, and what is left is a proper prefix of the
      frame of the next one, or nothing after the last. */
  ghost predicate ReceivedSoFar<Msg>(c: PayloadCodec<Msg>, ms: seq<Msg>, stream: seq<byte>, d: Drained<Msg>)
    requires AllEncode(c, ms)
  {
    && d.msgs <= ms && d.error.None?
    && if d.msgs == ms then stream == Frames(c, ms) && d.rest == []
       else d.rest < Encode(c, ms[|d.msgs|]).value
  }

  lemma PrefixAfter<T>(f: seq<T>, rest: seq<T>, s: seq<T>)
    requires s <= f + rest && |f| <= |s|
    ensures s == f + s[|f|..] && s[|f|..] <= rest
  {
    var t := s[|f|..];
    assert forall i :: 0 <= i < |t| ==> t[i] == (f + rest)[|f| + i];
  }

  lemma PrefixWithin<T>(f: seq<T>, rest: seq<T>, s: seq<T>)
    requires s <= f + rest && |s| < |f|
    ensures s < f
  {
    assert forall i :: 0 <= i < |s| ==> s[i] == (f + rest)[i];
  }

  lemma ReceivedOneMore<Msg>(c: PayloadCodec<Msg>, ms: seq<Msg>, t: seq<byte>, d: Drained<Msg>)
    requires ms != [] && AllEncode(c, ms) && ReceivedSoFar(c, ms[1..], t, d)
    ensures ReceivedSoFar(c, ms, Encode(c, ms[0]).value + t, Drained([ms[0]] + d.msgs, d.rest, d.error))
  {
    assert ms == [ms[0]] + ms[1..];
    if d.msgs != ms[1..] {
      assert ms[1..][|d.msgs|] == ms[|d.msgs| + 1];
    }
  }

  /** The frames of a message list, cut off anywhere, drain to the messages whose frames are
      complete, and leave a proper prefix of the next frame. */
  lemma {:induction false} DrainFrames<Msg(!new)>(c: PayloadCodec<Msg>, ms: seq<Msg>, s: seq<byte>)
    requires RoundTrips(c) && AllEncode(c, ms) && s <= Frames(c, ms)
    ensures ReceivedSoFar(c, ms, s, Drain(c, s))
    decreases |ms|
  {
    if ms != [] {
      var f, rest := Encode(c, ms[0]).value, Frames(c, ms[1..]);
      if |s| < |f| {
        PrefixWithin(f, rest, s);
        PrefixIsIncomplete(c, ms[0], s);
      } else {
        PrefixAfter(f, rest, s);
        DrainFrames(c, ms[1..], s[|f|..]);
        DecodeEncode(c, ms[0], s[|f|..]);
        ReceivedOneMore(c, ms, s[|f|..], Drain(c, s[|f|..]));
      }
    }
  }

  /** However the concatenated frames of a message list are chunked, and wherever the stream is
      cut off, the reader yields the completely received messages in order and keeps a proper
      prefix of the next frame; on the whole stream it yields the whole list and keeps nothing. */
  lemma StreamRoundTrip<Msg(!new)>(c: PayloadCodec<Msg>, ms: seq<Msg>, chunks: seq<seq<byte>>)
    requires RoundTrips(c) && AllEncode(c, ms) && Flatten(chunks) <= Frames(c, ms)
    ensures ReceivedSoFar(c, ms, Flatten(chunks), ReadChunks(c, [], chunks))
  {
    ConcatEmpty(Flatten(chunks));
    ChunkingDoesNotMatter(c, [], chunks);
    DrainFrames(c, ms, Flatten(chunks));
  }

  lemma {:induction false} WholeDrain<Msg(!new)>(c: PayloadCodec<Msg>, ms: seq<Msg>)
    requires RoundTrips(c) && AllEncode(c, ms)
    ensures Drain(c, Frames(c, ms)) == Drained(ms, [], None)
    decreases |ms|
  {
    if ms != [] {
      var f, rest := Encode(c, ms[0]).value, Frames(c, ms[1..]);
      DecodeEncode(c, ms[0], rest);
      assert (f + rest)[|f|..] == rest;
      WholeDrain(c, ms[1..]);
      assert ms == [ms[0]] + ms[1..];
    }
  }

  lemma WholeStreamRoundTrip<Msg(!new)>(c: PayloadCodec<Msg>, ms: seq<Msg>, chunks: seq<seq<byte>>)
    requires RoundTrips(c) && AllEncode(c, ms) && Flatten(chunks) == Frames(c, ms)
    ensures ReadChunks(c, [], chunks) == Drained(ms, [], None)
  {
    WholeDrain(c, ms);
    ConcatEmpty(Flatten(chunks));
    ChunkingDoesNotMatter(c, [], chunks);
  }

  // ---- The stdio reader ----

  /** The stdio drain loop: what is buffered, what the handler got (an error report is None), and whether
      the loop was left. */
  datatype StdioState<+Msg> = StdioState(buf: seq<byte>, sent: seq<Option<Msg>>, left: bool)

  /** The handler's channel takes `room` items in all, if it is ever closed. */
  predicate Takes(room: Option<nat>, count: nat) {
    room.None? || count < room.value
  }

  /** One round. Unlike the SSH reader the loop goes on after an error, and nobody looks whether its report
      was taken; a message that is not taken ends it. */
  function StdioRound<Msg>(c: PayloadCodec<Msg>, s: StdioState<Msg>, room: Option<nat>): StdioState<Msg> {
    if s.left then s
    else
      match Decode(c, s.buf)
      case Incomplete => s.(left := true)
      case Failed(_) => if Takes(room, |s.sent|) then s.(sent := s.sent + [None]) else s
      case Frame(m, k) =>
        if Takes(room, |s.sent|) then StdioState(s.buf[k..], s.sent + [Some(m)], false)
        else StdioState(s.buf[k..], s.sent, true)
  }

  function StdioRounds<Msg>(c: PayloadCodec<Msg>, s: StdioState<Msg>, room: Option<nat>, n: nat): StdioState<Msg>
    decreases n
  {
    if n == 0 then s else StdioRounds(c, StdioRound(c, s, room), room, n - 1)
  }

  ghost predicate StdioLeaves<Msg>(c: PayloadCodec<Msg>, s: StdioState<Msg>, room: Option<nat>) {
    exists n: nat :: StdioRounds(c, s, room, n).left
  }

  lemma LeavesNext<Msg>(c: PayloadCodec<Msg>, s: StdioState<Msg>, room: Option<nat>)
    requires !s.left
    ensures StdioLeaves(c, s, room) <==> StdioLeaves(c, StdioRound(c, s, room), room)
  {
    var t := StdioRound(c, s, room);
    if n: nat :| StdioRounds(c, s, room, n).left {
      assert n > 0;
      assert StdioRounds(c, t, room, n - 1).left;
    }
    if n: nat :| StdioRounds(c, t, room, n).left {
      assert StdioRounds(c, s, room, n + 1).left;
    }
  }

  /** How many of the next `n` items the channel still takes. */
  function Room(room: Option<nat>, count: nat, n: nat): nat {
    if room.None? then n else if count >= room.value then 0 else Min(n, room.value - count)
  }

  /** After an error the loop reports that error in every round, as long as the channel takes the reports,
      consumes nothing and is never left. */
  lemma {:induction false} StdioStuck<Msg>(c: PayloadCodec<Msg>, s: StdioState<Msg>, room: Option<nat>, n: nat)
    requires !s.left && Decode(c, s.buf).Failed?
    ensures StdioRounds(c, s, room, n) == s.(sent := s.sent + seq(Room(room, |s.sent|, n), _ => None))
    decreases n
  {
    if n == 0 {
      ConcatEmpty(s.sent);
    } else {
      StdioStuck(c, StdioRound(c, s, room), room, n - 1);
      if Takes(room, |s.sent|) {
        var more := Room(room, |s.sent|, n);
        assert seq<Option<Msg>>(more, _ => None) == [None] + seq<Option<Msg>>(more - 1, _ => None);
        ConcatAssociates(s.sent, [None], seq<Option<Msg>>(more - 1, _ => None));
      }
    }
  }

  lemma LeftIsLeft<Msg>(c: PayloadCodec<Msg>, s: StdioState<Msg>, room: Option<nat>)
    requires s.left
    ensures StdioLeaves(c, s, room)
  {
    assert StdioRounds(c, s, room, 0).left;
  }

  /** The stdio drain loop is left exactly when no frame in the buffer errs, or the handler is gone before
      the last message in front of the error. Otherwise it spins: a failing answer consumes nothing. */
  lemma {:induction false} StdioTerminatesIff<Msg>(c: PayloadCodec<Msg>, s: StdioState<Msg>, room: Option<nat>)
    requires !s.left && (room.Some? ==> |s.sent| <= room.value)
    ensures StdioLeaves(c, s, room)
            <==> || Drain(c, s.buf).error.None?
                 || (room.Some? && room.value < |s.sent| + |Drain(c, s.buf).msgs|)
    decreases |s.buf|
  {
    LeavesNext(c, s, room);
    match Decode(c, s.buf)
    case Incomplete => LeftIsLeft(c, StdioRound(c, s, room), room);
    case Failed(_) =>
      forall n: nat ensures !StdioRounds(c, s, room, n).left {
        StdioStuck(c, s, room, n);
      }
    case Frame(_, _) =>
      if Takes(room, |s.sent|) {
        StdioTerminatesIff(c, StdioRound(c, s, room), room);
      } else {
        LeftIsLeft(c, StdioRound(c, s, room), room);
      }
  }

  /** While the handler listens, the loop is left exactly when no frame in the buffer errs. */
  lemma StdioTerminatesIffNoError<Msg>(c: PayloadCodec<Msg>, buf: seq<byte>, room: Option<nat>)
    requires room.Some? ==> |Drain(c, buf).msgs| <= room.value
    ensures StdioLeaves(c, StdioState(buf, [], false), room) <==> Drain(c, buf).error.None?
  {
    StdioTerminatesIff(c, StdioState(buf, [], false), room);
  }

  /** An over-long header alone makes the stdio loop spin: four bytes suffice. */
  lemma OverlongHeaderSpins<Msg>(c: PayloadCodec<Msg>, room: Option<nat>, n: nat)
    ensures var s: StdioState<Msg> := StdioState([255, 255, 255, 255], [], false);
            StdioRounds(c, s, room, n) == s.(sent := seq(Room(room, 0, n), _ => None))
  {
    var s: StdioState<Msg> := StdioState([255, 255, 255, 255], [], false);
    StdioStuck(c, s, room, n);
    ConcatEmpty(seq<Option<Msg>>(Room(room, 0, n), _ => None));
  }
}
