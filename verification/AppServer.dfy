// The client end of one WebSocket connection: an incrementally filled buffer, message
// reassembly with fragmentation and interleaved control frames (RFC 6455, sections 5.4
// and 5.5), and the frames written in reply.
module AppServer {
  import opened Base
  import opened Frames

  datatype ReceiveError =
    | Disconnected | InvalidFlags | Oversized | InvalidControl | ClosedByServer | UnsupportedControl | NotText

  datatype Received = Message(payload: Bytes) | Failed(error: ReceiveError)

  // What receiving does to the stream: its result, the bytes left over, and the pings met.
  datatype Parsed = Parsed(outcome: Received, rest: Bytes, pings: seq<Bytes>)

  datatype FrameRead = Got(final: bool, opcode: int, chunk: Bytes, rest: Bytes) | Bad(error: ReceiveError, rest: Bytes)

  function LengthWidth(second: int): nat {
    if second % 128 == 126 then 2 else if second % 128 == 127 then 8 else 0
  }

  // One frame from the front of the stream, when `have` payload bytes were collected before.
  function ReadFrame(stream: Bytes, have: nat): (r: FrameRead)
    ensures r.Got? ==> |r.rest| < |stream|
  {
    if |stream| < 2 then Bad(Disconnected, stream)
    else
      var first, second := stream[0] as int, stream[1] as int;
      var width := LengthWidth(second);
      if (first / 16) % 8 != 0 || second >= 128 then Bad(InvalidFlags, stream[2..])
      else if |stream| < 2 + width then Bad(Disconnected, stream[2..])
      else
        var size := if width == 0 then second % 128 else Unpack(stream[2..2 + width]);
        if have + size > MAX_MESSAGE_BYTES then Bad(Oversized, stream[2 + width..])
        else if |stream| < 2 + width + size then Bad(Disconnected, stream[2 + width..])
        else Got(first >= 128, first % 16, stream[2 + width..2 + width + size], stream[2 + width + size..])
  }

  // The chunk that a header announced, at the front of what follows the header.
  function ReadChunk(final: bool, opcode: int, size: nat, have: nat, rest: Bytes): FrameRead {
    if have + size > MAX_MESSAGE_BYTES then Bad(Oversized, rest)
    else if |rest| < size then Bad(Disconnected, rest)
    else Got(final, opcode, rest[..size], rest[size..])
  }

  // Reading a frame field by field, each from what the one before it left.
  lemma ReadInSteps(stream: Bytes, have: nat)
    requires |stream| >= 2
    requires (stream[0] as int / 16) % 8 == 0 && stream[1] as int < 128
    ensures var first, second := stream[0] as int, stream[1] as int;
            var width := LengthWidth(second);
            ReadFrame(stream, have) ==
              if |stream[2..]| < width then Bad(Disconnected, stream[2..])
              else
                var size := if width == 0 then second else Unpack(stream[2..][..width]);
                ReadChunk(first >= 128, first % 16, size, have, stream[2..][width..])
  {
    var width := LengthWidth(stream[1] as int);
    if |stream| >= 2 + width {
      SlicesOfSlices(stream, width, if width == 0 then stream[1] as int else Unpack(stream[2..2 + width]));
    }
  }

  // Why a frame ends the attempt to receive a message, if it does.
  function Rejection(r: FrameRead, fragmented: bool): Option<ReceiveError> {
    if r.Bad? then Some(r.error)
    else if r.opcode >= 8 then
      if !r.final || |r.chunk| > 125 then Some(InvalidControl)
      else if r.opcode == CLOSE then Some(ClosedByServer)
      else if r.opcode != PING && r.opcode != PONG then Some(UnsupportedControl)
      else None
    else if r.opcode != (if fragmented then CONTINUATION else TEXT) then Some(NotText)
    else None
  }

  // `receive`, as a function of everything that will ever arrive.
  function Parse(stream: Bytes, payload: Bytes, fragmented: bool): Parsed
    decreases |stream|
  {
    var r := ReadFrame(stream, |payload|);
    var rejection := Rejection(r, fragmented);
    if rejection.Some? then Parsed(Failed(rejection.value), r.rest, [])
    else if r.opcode >= 8 then Later(if r.opcode == PING then [r.chunk] else [], Parse(r.rest, payload, fragmented))
    else if r.final then Parsed(Message(payload + r.chunk), r.rest, [])
    else Parse(r.rest, payload + r.chunk, true)
  }

  // The same parse with pings met earlier put in front.
  function Later(pings: seq<Bytes>, p: Parsed): Parsed {
    p.(pings := pings + p.pings)
  }

  predicate IsProbe(r: FrameRead) {
    r.Got? && (r.opcode == PING || r.opcode == PONG) && r.final && |r.chunk| <= 125
  }

  predicate IsFragment(r: FrameRead, fragmented: bool) {
    r.Got? && r.opcode == if fragmented then CONTINUATION else TEXT
  }

  lemma ParseRejected(stream: Bytes, payload: Bytes, fragmented: bool)
    requires Rejection(ReadFrame(stream, |payload|), fragmented).Some?
    ensures var r := ReadFrame(stream, |payload|);
            Parse(stream, payload, fragmented) == Parsed(Failed(Rejection(r, fragmented).value), r.rest, [])
  {
  }

  lemma ParseProbe(stream: Bytes, payload: Bytes, fragmented: bool)
    requires IsProbe(ReadFrame(stream, |payload|))
    ensures var r := ReadFrame(stream, |payload|);
            Parse(stream, payload, fragmented) == Later(if r.opcode == PING then [r.chunk] else [], Parse(r.rest, payload, fragmented))
  {
  }

  lemma ParseFragment(stream: Bytes, payload: Bytes, fragmented: bool)
    requires IsFragment(ReadFrame(stream, |payload|), fragmented)
    ensures var r := ReadFrame(stream, |payload|);
            Parse(stream, payload, fragmented) ==
              if r.final then Parsed(Message(payload + r.chunk), r.rest, []) else Parse(r.rest, payload + r.chunk, true)
  {
  }

  lemma LaterLater(first: seq<Bytes>, second: seq<Bytes>, p: Parsed)
    ensures Later(first, Later(second, p)) == Later(first + second, p)
    ensures Later([], p) == p
  {
    assert first + second + p.pings == first + (second + p.pings);
  }

  lemma SlicesOfSlices(stream: Bytes, width: nat, size: nat)
    requires 2 + width <= |stream|
    ensures stream[2..][..width] == stream[2..2 + width] && stream[2..][width..] == stream[2 + width..]
    ensures 2 + width + size <= |stream| ==>
      stream[2 + width..][..size] == stream[2 + width..2 + width + size]
      && stream[2 + width..][size..] == stream[2 + width + size..]
  {
  }

  function Flatten(chunks: seq<Bytes>): Bytes {
    if chunks == [] then [] else chunks[0] + Flatten(chunks[1..])
  }

  // The pong frames that answer pings, masked with successive draws.
  function PongFrames(pings: seq<Bytes>, masks: nat -> Mask, drawn: nat): Bytes
    requires forall p :: p in pings ==> |p| <= 125
  {
    if pings == [] then []
    else PongFrames(pings[..|pings| - 1], masks, drawn)
         + ClientFrame(PONG, pings[|pings| - 1], masks(drawn + |pings| - 1))
  }

  // ---- What the server sent --------------------------------------------------------------

  // A server frame with the width of its length field, which need not be the shortest.
  datatype ServerFrame = ServerFrame(final: bool, opcode: int, payload: Bytes, width: nat)

  predicate WellFormed(f: ServerFrame) {
    && 0 <= f.opcode < 16
    && (f.width == 0 || f.width == 2 || f.width == 8)
    && (if f.width == 0 then |f.payload| < 126 else |f.payload| < Pow256(f.width))
  }

  function Wire(f: ServerFrame): Bytes
    requires WellFormed(f)
  {
    var code := if f.width == 0 then |f.payload| else if f.width == 2 then 126 else 127;
    [((if f.final then 0x80 else 0) + f.opcode) as Byte, code as Byte] + Pack(|f.payload|, f.width) + f.payload
  }

  function WireAll(frames: seq<ServerFrame>): Bytes
    requires forall f :: f in frames ==> WellFormed(f)
  {
    if frames == [] then [] else Wire(frames[0]) + WireAll(frames[1..])
  }

  // One whole text message: its fragments in order, with pings and pongs anywhere between.
  predicate OneMessage(frames: seq<ServerFrame>, fragmented: bool) {
    frames != [] &&
    var f := frames[0];
    if f.opcode >= 8 then
      (f.opcode == PING || f.opcode == PONG) && f.final && |f.payload| <= 125 && OneMessage(frames[1..], fragmented)
    else
      f.opcode == (if fragmented then CONTINUATION else TEXT)
      && (if f.final then |frames| == 1 else OneMessage(frames[1..], true))
  }

  function Data(frames: seq<ServerFrame>): Bytes {
    if frames == [] then []
    else (if frames[0].opcode >= 8 then [] else frames[0].payload) + Data(frames[1..])
  }

  function Pings(frames: seq<ServerFrame>): seq<Bytes> {
    if frames == [] then []
    else (if frames[0].opcode == PING then [frames[0].payload] else []) + Pings(frames[1..])
  }

  // No frame, control frames included, exceeds the limit together with the payload before it.
  predicate WithinLimit(frames: seq<ServerFrame>, have: nat) {
    frames == [] ||
    (have + |frames[0].payload| <= MAX_MESSAGE_BYTES
     && WithinLimit(frames[1..], if frames[0].opcode >= 8 then have else have + |frames[0].payload|))
  }

  lemma WireSlices(f: ServerFrame, rest: Bytes)
    requires WellFormed(f)
    ensures var stream := Wire(f) + rest;
            var start := 2 + f.width;
            && |stream| >= start + |f.payload|
            && stream[2..start] == Pack(|f.payload|, f.width)
            && stream[start..start + |f.payload|] == f.payload
            && stream[start..] == f.payload + rest && stream[start + |f.payload|..] == rest
  {
  }

  lemma WireHeader(f: ServerFrame, rest: Bytes)
    requires WellFormed(f)
    ensures var first, second := (Wire(f) + rest)[0] as int, (Wire(f) + rest)[1] as int;
            && (first / 16) % 8 == 0 && second < 128 && LengthWidth(second) == f.width
            && (first >= 128 <==> f.final) && first % 16 == f.opcode
            && (f.width == 0 ==> second % 128 == |f.payload|)
  {
  }

  lemma ReadOfWire(f: ServerFrame, rest: Bytes, have: nat)
    requires WellFormed(f)
    ensures have + |f.payload| <= MAX_MESSAGE_BYTES ==>
      ReadFrame(Wire(f) + rest, have) == Got(f.final, f.opcode, f.payload, rest)
    ensures have + |f.payload| > MAX_MESSAGE_BYTES ==>
      ReadFrame(Wire(f) + rest, have) == Bad(Oversized, f.payload + rest)
  {
    WireSlices(f, rest);
    WireHeader(f, rest);
    if f.width > 0 {
      UnpackPack(|f.payload|, f.width);
    }
  }

  lemma WireAllSplit(frames: seq<ServerFrame>, rest: Bytes)
    requires frames != [] && forall f :: f in frames ==> WellFormed(f)
    ensures WireAll(frames) + rest == Wire(frames[0]) + (WireAll(frames[1..]) + rest)
  {
  }

  lemma ParseWireProbe(f: ServerFrame, tail: Bytes, payload: Bytes, fragmented: bool)
    requires WellFormed(f) && |payload| + |f.payload| <= MAX_MESSAGE_BYTES
    requires (f.opcode == PING || f.opcode == PONG) && f.final && |f.payload| <= 125
    ensures Parse(Wire(f) + tail, payload, fragmented) ==
            Later(if f.opcode == PING then [f.payload] else [], Parse(tail, payload, fragmented))
  {
    ReadOfWire(f, tail, |payload|);
    ParseProbe(Wire(f) + tail, payload, fragmented);
  }

  lemma ParseWireFragment(f: ServerFrame, tail: Bytes, payload: Bytes, fragmented: bool)
    requires WellFormed(f) && |payload| + |f.payload| <= MAX_MESSAGE_BYTES
    requires f.opcode == if fragmented then CONTINUATION else TEXT
    ensures Parse(Wire(f) + tail, payload, fragmented) ==
            if f.final then Parsed(Message(payload + f.payload), tail, []) else Parse(tail, payload + f.payload, true)
  {
    ReadOfWire(f, tail, |payload|);
    ParseFragment(Wire(f) + tail, payload, fragmented);
  }

  // The parse yields the message the frames carry, and the pings among them.
  ghost predicate Says(p: Parsed, payload: Bytes, frames: seq<ServerFrame>, rest: Bytes) {
    p == Parsed(Message(payload + Data(frames)), rest, Pings(frames))
  }

  lemma SaysAfterProbe(p: Parsed, payload: Bytes, frames: seq<ServerFrame>, rest: Bytes)
    requires frames != [] && frames[0].opcode >= 8 && Says(p, payload, frames[1..], rest)
    ensures Says(Later(if frames[0].opcode == PING then [frames[0].payload] else [], p), payload, frames, rest)
  {
    assert Data(frames) == Data(frames[1..]);
  }

  lemma SaysAfterFragment(p: Parsed, payload: Bytes, frames: seq<ServerFrame>, rest: Bytes)
    requires frames != [] && frames[0].opcode < 8 && Says(p, payload + frames[0].payload, frames[1..], rest)
    ensures Says(p, payload, frames, rest)
  {
    assert Pings(frames) == Pings(frames[1..]);
    assert payload + frames[0].payload + Data(frames[1..]) == payload + (frames[0].payload + Data(frames[1..]));
  }

  lemma SaysLast(payload: Bytes, f: ServerFrame, rest: Bytes)
    requires f.opcode < 8
    ensures Says(Parsed(Message(payload + f.payload), rest, []), payload, [f], rest)
  {
    assert Data([f]) == f.payload;
    assert Pings([f]) == [];
  }

  lemma ProbeThenMessage(frames: seq<ServerFrame>, tail: Bytes, rest: Bytes, payload: Bytes, fragmented: bool)
    requires frames != [] && WellFormed(frames[0]) && |payload| + |frames[0].payload| <= MAX_MESSAGE_BYTES
    requires frames[0].opcode >= 8 && OneMessage(frames, fragmented)
    requires Says(Parse(tail, payload, fragmented), payload, frames[1..], rest)
    ensures Says(Parse(Wire(frames[0]) + tail, payload, fragmented), payload, frames, rest)
  {
    ParseWireProbe(frames[0], tail, payload, fragmented);
    SaysAfterProbe(Parse(tail, payload, fragmented), payload, frames, rest);
  }

  lemma FragmentThenMessage(frames: seq<ServerFrame>, tail: Bytes, rest: Bytes, payload: Bytes, fragmented: bool)
    requires frames != [] && WellFormed(frames[0]) && |payload| + |frames[0].payload| <= MAX_MESSAGE_BYTES
    requires frames[0].opcode < 8 && !frames[0].final && OneMessage(frames, fragmented)
    requires Says(Parse(tail, payload + frames[0].payload, true), payload + frames[0].payload, frames[1..], rest)
    ensures Says(Parse(Wire(frames[0]) + tail, payload, fragmented), payload, frames, rest)
  {
    ParseWireFragment(frames[0], tail, payload, fragmented);
    SaysAfterFragment(Parse(tail, payload + frames[0].payload, true), payload, frames, rest);
  }

  lemma LastFragment(f: ServerFrame, rest: Bytes, payload: Bytes, fragmented: bool)
    requires WellFormed(f) && |payload| + |f.payload| <= MAX_MESSAGE_BYTES
    requires f.final && f.opcode == if fragmented then CONTINUATION else TEXT
    ensures Says(Parse(Wire(f) + rest, payload, fragmented), payload, [f], rest)
  {
    ParseWireFragment(f, rest, payload, fragmented);
    SaysLast(payload, f, rest);
  }

  // One message, however it is fragmented and whatever control frames come between, is
  // received whole, and the rest of the stream stays where it is.
  lemma {:induction false} MessageIsReceived(frames: seq<ServerFrame>, rest: Bytes, payload: Bytes, fragmented: bool)
    requires forall f :: f in frames ==> WellFormed(f)
    requires OneMessage(frames, fragmented) && WithinLimit(frames, |payload|)
    ensures Says(Parse(WireAll(frames) + rest, payload, fragmented), payload, frames, rest)
    decreases |frames|
  {
    var f := frames[0];
    var tail := WireAll(frames[1..]) + rest;
    WireAllSplit(frames, rest);
    if f.opcode >= 8 {
      MessageIsReceived(frames[1..], rest, payload, fragmented);
      ProbeThenMessage(frames, tail, rest, payload, fragmented);
    } else if !f.final {
      MessageIsReceived(frames[1..], rest, payload + f.payload, true);
      FragmentThenMessage(frames, tail, rest, payload, fragmented);
    } else {
      assert frames == [f];
      assert tail == rest;
      LastFragment(f, rest, payload, fragmented);
    }
  }

  // The size limit is exact: one frame beyond it, even a control frame, and the message is refused.
  lemma {:induction false} OversizedIsRefused(frames: seq<ServerFrame>, rest: Bytes, payload: Bytes, fragmented: bool)
    requires forall f :: f in frames ==> WellFormed(f)
    requires OneMessage(frames, fragmented) && !WithinLimit(frames, |payload|)
    ensures Parse(WireAll(frames) + rest, payload, fragmented).outcome == Failed(Oversized)
    decreases |frames|
  {
    var f := frames[0];
    var tail := WireAll(frames[1..]) + rest;
    WireAllSplit(frames, rest);
    if |payload| + |f.payload| > MAX_MESSAGE_BYTES {
      ParseWireOversized(f, tail, payload, fragmented);
    } else {
      RestIsOversized(frames, payload, fragmented);
      if f.opcode >= 8 {
        OversizedIsRefused(frames[1..], rest, payload, fragmented);
        ParseWireProbe(f, tail, payload, fragmented);
      } else {
        OversizedIsRefused(frames[1..], rest, payload + f.payload, true);
        ParseWireFragment(f, tail, payload, fragmented);
      }
    }
  }

  lemma ParseWireOversized(f: ServerFrame, tail: Bytes, payload: Bytes, fragmented: bool)
    requires WellFormed(f) && |payload| + |f.payload| > MAX_MESSAGE_BYTES
    ensures Parse(Wire(f) + tail, payload, fragmented).outcome == Failed(Oversized)
  {
    ReadOfWire(f, tail, |payload|);
    ParseRejected(Wire(f) + tail, payload, fragmented);
  }

  // The limit is not exceeded by the first frame, so it is by a later one.
  lemma RestIsOversized(frames: seq<ServerFrame>, payload: Bytes, fragmented: bool)
    requires OneMessage(frames, fragmented) && !WithinLimit(frames, |payload|)
    requires |payload| + |frames[0].payload| <= MAX_MESSAGE_BYTES
    ensures if frames[0].opcode >= 8
            then (frames[0].opcode == PING || frames[0].opcode == PONG) && frames[0].final && |frames[0].payload| <= 125
                 && OneMessage(frames[1..], fragmented) && !WithinLimit(frames[1..], |payload|)
            else !frames[0].final && frames[0].opcode == (if fragmented then CONTINUATION else TEXT)
                 && OneMessage(frames[1..], true) && !WithinLimit(frames[1..], |payload + frames[0].payload|)
  {
  }

  // The frame a read starts from.
  function FrameOf(stream: Bytes, r: FrameRead): ServerFrame
    requires |stream| >= 2 && r.Got?
  {
    ServerFrame(r.final, r.opcode, r.chunk, LengthWidth(stream[1] as int))
  }

  lemma ReadHeader(stream: Bytes, have: nat)
    requires ReadFrame(stream, have).Got?
    ensures var r := ReadFrame(stream, have);
            var width := LengthWidth(stream[1] as int);
            && WellFormed(FrameOf(stream, r)) && have + |r.chunk| <= MAX_MESSAGE_BYTES
            && 2 + width + |r.chunk| <= |stream|
            && stream[0] as int == (if r.final then 0x80 else 0) + r.opcode
            && stream[1] as int == (if width == 0 then |r.chunk| else if width == 2 then 126 else 127)
            && stream[2..2 + width] == Pack(|r.chunk|, width)
            && r.chunk == stream[2 + width..2 + width + |r.chunk|] && r.rest == stream[2 + width + |r.chunk|..]
  {
    var r := ReadFrame(stream, have);
    var width := LengthWidth(stream[1] as int);
    PackUnpack(stream[2..2 + width]);
    ReadSlices(stream, have);
    LengthByte(stream[1] as int, |r.chunk|);
  }

  lemma ReadSlices(stream: Bytes, have: nat)
    requires ReadFrame(stream, have).Got?
    ensures var r := ReadFrame(stream, have);
            var width := LengthWidth(stream[1] as int);
            && 2 + width + |r.chunk| <= |stream| && stream[1] as int < 128
            && |r.chunk| == (if width == 0 then stream[1] as int else Unpack(stream[2..2 + width]))
            && r.chunk == stream[2 + width..2 + width + |r.chunk|] && r.rest == stream[2 + width + |r.chunk|..]
  {
  }

  lemma LengthByte(second: int, size: nat)
    requires 0 <= second < 128 && (LengthWidth(second) == 0 ==> size == second)
    ensures second == (if LengthWidth(second) == 0 then size else if LengthWidth(second) == 2 then 126 else 127)
    ensures LengthWidth(second) == 0 ==> size < 126
  {
  }

  lemma ReadGivesFrame(stream: Bytes, have: nat)
    requires ReadFrame(stream, have).Got?
    ensures var r := ReadFrame(stream, have);
            && WellFormed(FrameOf(stream, r)) && have + |r.chunk| <= MAX_MESSAGE_BYTES
            && stream == Wire(FrameOf(stream, r)) + r.rest
  {
    var r := ReadFrame(stream, have);
    var width := LengthWidth(stream[1] as int);
    ReadHeader(stream, have);
    SlicedInThree(stream, 2 + width, 2 + width + |r.chunk|);
  }

  lemma SlicedInThree(input: Bytes, i: nat, j: nat)
    requires 2 <= i <= j <= |input|
    ensures input == [input[0], input[1]] + input[2..i] + input[i..j] + input[j..]
  {
  }

  lemma MessageFrames(stream: Bytes, payload: Bytes, fragmented: bool)
    requires Parse(stream, payload, fragmented).outcome.Message?
    ensures var r := ReadFrame(stream, |payload|);
            IsProbe(r) || IsFragment(r, fragmented)
  {
  }

  // The stream starts with the frames of the message that was received from it.
  ghost predicate Spells(frames: seq<ServerFrame>, stream: Bytes, payload: Bytes, fragmented: bool, p: Parsed) {
    && (forall f :: f in frames ==> WellFormed(f))
    && OneMessage(frames, fragmented) && WithinLimit(frames, |payload|)
    && stream == WireAll(frames) + p.rest
    && Says(p, payload, frames, p.rest)
  }

  lemma SpellsAfterProbe(f: ServerFrame, later: seq<ServerFrame>, stream: Bytes, payload: Bytes, fragmented: bool, p: Parsed)
    requires WellFormed(f) && f.final && |f.payload| <= 125 && |payload| + |f.payload| <= MAX_MESSAGE_BYTES
    requires f.opcode == PING || f.opcode == PONG
    requires Spells(later, stream, payload, fragmented, p)
    ensures Spells([f] + later, Wire(f) + stream, payload, fragmented, Later(if f.opcode == PING then [f.payload] else [], p))
  {
    var frames := [f] + later;
    assert frames[1..] == later;
    SaysAfterProbe(p, payload, frames, p.rest);
    WireAllSplit(frames, p.rest);
  }

  lemma SpellsAfterFragment(f: ServerFrame, later: seq<ServerFrame>, stream: Bytes, payload: Bytes, fragmented: bool, p: Parsed)
    requires WellFormed(f) && !f.final && |payload| + |f.payload| <= MAX_MESSAGE_BYTES
    requires f.opcode == if fragmented then CONTINUATION else TEXT
    requires Spells(later, stream, payload + f.payload, true, p)
    ensures Spells([f] + later, Wire(f) + stream, payload, fragmented, p)
  {
    var frames := [f] + later;
    assert frames[1..] == later;
    SaysAfterFragment(p, payload, frames, p.rest);
    WireAllSplit(frames, p.rest);
  }

  lemma SpellsLast(f: ServerFrame, rest: Bytes, payload: Bytes, fragmented: bool)
    requires WellFormed(f) && f.final && |payload| + |f.payload| <= MAX_MESSAGE_BYTES
    requires f.opcode == if fragmented then CONTINUATION else TEXT
    ensures Spells([f], Wire(f) + rest, payload, fragmented, Parsed(Message(payload + f.payload), rest, []))
  {
    SaysLast(payload, f, rest);
    WireAllSplit([f], rest);
  }

  // Conversely, a message is only ever received from a stream that starts with one.
  lemma {:induction false} ReceivedIsMessage(stream: Bytes, payload: Bytes, fragmented: bool) returns (frames: seq<ServerFrame>)
    requires Parse(stream, payload, fragmented).outcome.Message?
    ensures Spells(frames, stream, payload, fragmented, Parse(stream, payload, fragmented))
    decreases |stream|
  {
    var r := ReadFrame(stream, |payload|);
    MessageFrames(stream, payload, fragmented);
    ReadGivesFrame(stream, |payload|);
    var f := FrameOf(stream, r);
    if f.opcode >= 8 {
      ParseProbe(stream, payload, fragmented);
      var later := ReceivedIsMessage(r.rest, payload, fragmented);
      SpellsAfterProbe(f, later, r.rest, payload, fragmented, Parse(r.rest, payload, fragmented));
      frames := [f] + later;
    } else {
      ParseFragment(stream, payload, fragmented);
      if f.final {
        SpellsLast(f, r.rest, payload, fragmented);
        frames := [f];
      } else {
        var later := ReceivedIsMessage(r.rest, payload + f.payload, true);
        SpellsAfterFragment(f, later, r.rest, payload, fragmented, Parse(r.rest, payload + f.payload, true));
        frames := [f] + later;
      }
    }
  }

  // ---- Why a message is not received -----------------------------------------------------------

  // The beginning of a message: fragments that are not the last, and probes.
  predicate IsOpen(frames: seq<ServerFrame>, fragmented: bool) {
    frames == [] ||
    var f := frames[0];
    if f.opcode >= 8 then
      (f.opcode == PING || f.opcode == PONG) && f.final && |f.payload| <= 125 && IsOpen(frames[1..], fragmented)
    else f.opcode == (if fragmented then CONTINUATION else TEXT) && !f.final && IsOpen(frames[1..], true)
  }

  // Whether a fragment has been received.
  predicate HasFragment(frames: seq<ServerFrame>, fragmented: bool) {
    fragmented || exists f :: f in frames && f.opcode < 8
  }

  // What has been received of an open message is kept, and its pings are answered.
  ghost predicate IsKept(frames: seq<ServerFrame>, tail: Bytes, payload: Bytes, fragmented: bool)
    requires forall f :: f in frames ==> WellFormed(f)
  {
    Parse(WireAll(frames) + tail, payload, fragmented)
    == Later(Pings(frames), Parse(tail, payload + Data(frames), HasFragment(frames, fragmented)))
  }

  lemma ProbeIsKept(frames: seq<ServerFrame>, tail: Bytes, payload: Bytes, fragmented: bool)
    requires frames != [] && frames[0].opcode >= 8 && forall f :: f in frames ==> WellFormed(f)
    requires IsOpen(frames, fragmented) && WithinLimit(frames, |payload|) && IsKept(frames[1..], tail, payload, fragmented)
    ensures IsKept(frames, tail, payload, fragmented)
  {
    var f := frames[0];
    var pings := if f.opcode == PING then [f.payload] else [];
    var end := Parse(tail, payload + Data(frames[1..]), HasFragment(frames[1..], fragmented));
    WireAllSplit(frames, tail);
    ParseWireProbe(f, WireAll(frames[1..]) + tail, payload, fragmented);
    LaterLater(pings, Pings(frames[1..]), end);
    assert Data(frames) == Data(frames[1..]) && HasFragment(frames, fragmented) == HasFragment(frames[1..], fragmented);
  }

  lemma FragmentIsKept(frames: seq<ServerFrame>, tail: Bytes, payload: Bytes, fragmented: bool)
    requires frames != [] && frames[0].opcode < 8 && forall f :: f in frames ==> WellFormed(f)
    requires IsOpen(frames, fragmented) && WithinLimit(frames, |payload|) && IsKept(frames[1..], tail, payload + frames[0].payload, true)
    ensures IsKept(frames, tail, payload, fragmented)
  {
    var f := frames[0];
    WireAllSplit(frames, tail);
    ParseWireFragment(f, WireAll(frames[1..]) + tail, payload, fragmented);
    DataOfFragment(frames, payload, fragmented);
  }

  lemma DataOfFragment(frames: seq<ServerFrame>, payload: Bytes, fragmented: bool)
    requires frames != [] && frames[0].opcode < 8
    ensures Pings(frames) == Pings(frames[1..]) && HasFragment(frames, fragmented) && HasFragment(frames[1..], true)
    ensures payload + frames[0].payload + Data(frames[1..]) == payload + Data(frames)
  {
    assert payload + frames[0].payload + Data(frames[1..]) == payload + (frames[0].payload + Data(frames[1..]));
  }

  lemma {:induction false} OpenMessageIsKept(frames: seq<ServerFrame>, tail: Bytes, payload: Bytes, fragmented: bool)
    requires forall f :: f in frames ==> WellFormed(f)
    requires IsOpen(frames, fragmented) && WithinLimit(frames, |payload|)
    ensures IsKept(frames, tail, payload, fragmented)
    decreases |frames|
  {
    if frames == [] {
      assert WireAll(frames) + tail == tail && payload + Data(frames) == payload;
      LaterLater([], [], Parse(tail, payload, fragmented));
    } else if frames[0].opcode >= 8 {
      OpenMessageIsKept(frames[1..], tail, payload, fragmented);
      ProbeIsKept(frames, tail, payload, fragmented);
    } else {
      OpenMessageIsKept(frames[1..], tail, payload + frames[0].payload, true);
      FragmentIsKept(frames, tail, payload, fragmented);
    }
  }

  // The frame that ends an open message in failure says why: the server closes, a control frame is
  // too long, fragmented or unknown, or the data is not the text, or its continuation, that is due.
  // The pings before it were answered and the bytes behind it stay.
  lemma BadFrameIsRefused(frames: seq<ServerFrame>, f: ServerFrame, rest: Bytes, payload: Bytes, fragmented: bool)
    requires WellFormed(f) && forall g :: g in frames ==> WellFormed(g)
    requires IsOpen(frames, fragmented) && WithinLimit(frames, |payload|) && |payload + Data(frames)| + |f.payload| <= MAX_MESSAGE_BYTES
    ensures var p := Parse(WireAll(frames) + (Wire(f) + rest), payload, fragmented);
            var due := if HasFragment(frames, fragmented) then CONTINUATION else TEXT;
            && (f.opcode >= 8 && (!f.final || |f.payload| > 125) ==> p == Parsed(Failed(InvalidControl), rest, Pings(frames)))
            && (f.opcode == CLOSE && f.final && |f.payload| <= 125 ==> p == Parsed(Failed(ClosedByServer), rest, Pings(frames)))
            && (f.opcode > PONG && f.final && |f.payload| <= 125 ==> p == Parsed(Failed(UnsupportedControl), rest, Pings(frames)))
            && (f.opcode < 8 && f.opcode != due ==> p == Parsed(Failed(NotText), rest, Pings(frames)))
  {
    var have, fragment := payload + Data(frames), HasFragment(frames, fragmented);
    OpenMessageIsKept(frames, Wire(f) + rest, payload, fragmented);
    ReadOfWire(f, rest, |have|);
    assert Pings(frames) + [] == Pings(frames);
    if Rejection(ReadFrame(Wire(f) + rest, |have|), fragment).Some? {
      ParseRejected(Wire(f) + rest, have, fragment);
    }
  }

  // One of the three reserved bits is set.
  predicate Reserved(first: nat) {
    Bit(first, 4) == 1 || Bit(first, 5) == 1 || Bit(first, 6) == 1
  }

  // Reserved bits, and masked frames, are refused as soon as a header shows them.
  lemma BadFlagsAreRefused(frames: seq<ServerFrame>, bytes: Bytes, payload: Bytes, fragmented: bool)
    requires forall f :: f in frames ==> WellFormed(f)
    requires IsOpen(frames, fragmented) && WithinLimit(frames, |payload|)
    requires |bytes| >= 2 && (bytes[1] >= 128 || Reserved(bytes[0] as nat))
    ensures Parse(WireAll(frames) + bytes, payload, fragmented) == Parsed(Failed(InvalidFlags), bytes[2..], Pings(frames))
  {
    OpenMessageIsKept(frames, bytes, payload, fragmented);
    if bytes[1] < 128 {
      FlagBits(bytes[0] as nat);
    }
    ParseRejected(bytes, payload + Data(frames), HasFragment(frames, fragmented));
    assert Pings(frames) + [] == Pings(frames);
  }

  lemma FlagBits(first: nat)
    ensures (first / 16) % 8 != 0 <==> Reserved(first)
  {
    var n := first / 16;
    assert first / 2 / 2 / 2 / 2 == n;
    assert Bit(first, 4) == Bit(first / 2, 3) == Bit(first / 2 / 2, 2) == Bit(first / 2 / 2 / 2, 1) == Bit(n, 0) == n % 2;
    assert Bit(first, 5) == Bit(first / 2, 4) == Bit(first / 2 / 2, 3) == Bit(first / 2 / 2 / 2, 2) == Bit(n, 1) == n / 2 % 2;
    assert Bit(first, 6) == Bit(first / 2, 5) == Bit(first / 2 / 2, 4) == Bit(first / 2 / 2 / 2, 3) == Bit(n, 2) == n / 2 / 2 % 2;
    assert n % 8 == n % 2 + 2 * (n / 2 % 2) + 4 * (n / 2 / 2 % 2);
  }

  // A stream that ends in the middle of a frame, or of a message, is a disconnection.
  lemma CutStreamIsDisconnected(frames: seq<ServerFrame>, f: ServerFrame, part: Bytes, payload: Bytes, fragmented: bool)
    requires WellFormed(f) && forall g :: g in frames ==> WellFormed(g)
    requires IsOpen(frames, fragmented) && WithinLimit(frames, |payload|) && |payload + Data(frames)| + |f.payload| <= MAX_MESSAGE_BYTES
    requires part < Wire(f)
    ensures Parse(WireAll(frames) + part, payload, fragmented).outcome == Failed(Disconnected)
    ensures Parse(WireAll(frames) + part, payload, fragmented).pings == Pings(frames)
  {
    var have := payload + Data(frames);
    OpenMessageIsKept(frames, part, payload, fragmented);
    CutFrame(f, part, |have|);
    ParseRejected(part, have, HasFragment(frames, fragmented));
    assert Pings(frames) + [] == Pings(frames);
  }

  lemma CutFrame(f: ServerFrame, part: Bytes, have: nat)
    requires WellFormed(f) && part < Wire(f) && have + |f.payload| <= MAX_MESSAGE_BYTES
    ensures ReadFrame(part, have).Bad? && ReadFrame(part, have).error == Disconnected
  {
    WireHeader(f, []);
    WireSlices(f, []);
    assert Wire(f) + [] == Wire(f);
    if |part| >= 2 + f.width {
      assert part[2..2 + f.width] == Wire(f)[2..2 + f.width];
      if f.width > 0 {
        UnpackPack(|f.payload|, f.width);
      }
    }
  }

  lemma {:induction false} PingsAreShort(stream: Bytes, payload: Bytes, fragmented: bool)
    ensures forall p :: p in Parse(stream, payload, fragmented).pings ==> |p| <= 125
    decreases |stream|
  {
    var r := ReadFrame(stream, |payload|);
    if r.Got? {
      PingsAreShort(r.rest, payload, fragmented);
      PingsAreShort(r.rest, payload + r.chunk, true);
    }
  }

  // Read by a server, the replies to a run of pings end with the pong for the last of them,
  // carrying the same payload; before it come the replies to the others.
  lemma PongCarriesPing(pings: seq<Bytes>, masks: nat -> Mask, drawn: nat, after: Bytes)
    requires pings != [] && forall p :: p in pings ==> |p| <= 125
    ensures var earlier := PongFrames(pings[..|pings| - 1], masks, drawn);
            && earlier <= PongFrames(pings, masks, drawn)
            && DecodeClient(PongFrames(pings, masks, drawn)[|earlier|..] + after)
               == Some(Decoded(PONG, pings[|pings| - 1], masks(drawn + |pings| - 1), after))
  {
    var earlier := PongFrames(pings[..|pings| - 1], masks, drawn);
    var last := ClientFrame(PONG, pings[|pings| - 1], masks(drawn + |pings| - 1));
    assert PongFrames(pings, masks, drawn)[|earlier|..] == last;
    DecodeOfFrame(PONG, pings[|pings| - 1], masks(drawn + |pings| - 1), after);
  }

  // ---- The connection object --------------------------------------------------------------

  class AppServer {
    // Received but not yet consumed.
    var buffer: Bytes
    // What successive recv calls will deliver; when it is used up the peer has disconnected.
    var incoming: seq<Bytes>
    // Everything written to the connection.
    var sent: Bytes
    // The source of masks, and how many were drawn.
    const masks: nat -> Mask
    var drawn: nat

    constructor (incoming: seq<Bytes>, masks: nat -> Mask)
      requires forall i :: 0 <= i < |incoming| ==> incoming[i] != []
      ensures Valid() && Stream() == Flatten(incoming) && sent == [] && drawn == 0 && this.masks == masks
    {
      this.buffer, this.incoming, this.sent, this.drawn, this.masks := [], incoming, [], 0, masks;
    }

    // recv never returns an empty chunk before the end.
    ghost predicate Valid()
      reads this
    {
      forall i :: 0 <= i < |incoming| ==> incoming[i] != []
    }

    ghost function Stream(): Bytes
      reads this
    {
      buffer + Flatten(incoming)
    }

    method ReceiveBytes() returns (alive: bool)
      requires Valid()
      modifies `buffer, `incoming
      ensures Valid() && Stream() == old(Stream())
      ensures alive <==> old(incoming) != []
      ensures if alive then |incoming| < |old(incoming)| && |buffer| > |old(buffer)|
              else buffer == old(buffer) && incoming == old(incoming)
    {
      if incoming == [] {
        return false;
      }
      var data := incoming[0];
      buffer := buffer + data;
      incoming := incoming[1..];
      return true;
    }

    // `take`: exactly the next bytes of the stream, however they are cut into chunks.
    method Take(size: nat) returns (data: Option<Bytes>)
      requires Valid()
      modifies `buffer, `incoming
      ensures Valid()
      ensures data.Some? <==> |old(Stream())| >= size
      ensures data.Some? ==> data.value == old(Stream())[..size] && Stream() == old(Stream())[size..]
      ensures data.None? ==> Stream() == old(Stream())
    {
      while |buffer| < size
        invariant Valid() && Stream() == old(Stream())
        decreases |incoming|
      {
        var alive := ReceiveBytes();
        if !alive {
          return None;
        }
      }
      data := Some(buffer[..size]);
      buffer := buffer[size..];
      assert Stream() == old(Stream())[size..];
    }

    // `frame`
    method Frame(opcode: int, payload: Bytes) returns (ok: bool)
      requires 0 <= opcode < 16
      modifies `sent, `drawn
      ensures ok <==> |payload| <= 8_388_608
      ensures ok ==> sent == old(sent) + ClientFrame(opcode, payload, masks(old(drawn))) && drawn == old(drawn) + 1
      ensures !ok ==> sent == old(sent) && drawn == old(drawn)
    {
      var size := |payload|;
      if size > MAX_MESSAGE_BYTES {
        return false;
      }
      var header := [(0x80 + opcode) as Byte];
      if size < 126 {
        header := header + [(0x80 + size) as Byte];
      } else if size <= 65535 {
        header := header + [(0x80 + 126) as Byte] + Pack(size, 2);
      } else {
        header := header + [(0x80 + 127) as Byte] + Pack(size, 8);
      }
      var mask := masks(drawn);
      drawn := drawn + 1;
      sent := sent + (header + mask + Masked(payload, mask));
      assert header + mask + Masked(payload, mask) == ClientFrame(opcode, payload, mask);
      return true;
    }

    // The payload length, from the second header byte and the extended field it announces.
    method TakeLength(second: int) returns (size: Option<nat>)
      requires Valid() && 0 <= second < 128
      modifies `buffer, `incoming
      ensures Valid()
      ensures var width := LengthWidth(second);
              if |old(Stream())| < width then size.None? && Stream() == old(Stream())
              else size == Some(if width == 0 then second else Unpack(old(Stream())[..width])) && Stream() == old(Stream())[width..]
    {
      if second == 126 {
        var length := Take(2);
        return if length.None? then None else Some(Unpack(length.value));
      } else if second == 127 {
        var length := Take(8);
        return if length.None? then None else Some(Unpack(length.value));
      }
      assert Stream()[0..] == Stream();
      return Some(second);
    }

    // The chunk a header announced, unless it is too long.
    method ReceiveChunk(final: bool, opcode: int, size: nat, have: nat) returns (frame: FrameRead)
      requires Valid()
      modifies `buffer, `incoming
      ensures Valid() && Stream() == frame.rest
      ensures frame == ReadChunk(final, opcode, size, have, old(Stream()))
    {
      if have + size > MAX_MESSAGE_BYTES {
        return Bad(Oversized, buffer + Flatten(incoming));
      }
      var chunk := Take(size);
      if chunk.None? {
        return Bad(Disconnected, buffer + Flatten(incoming));
      }
      return Got(final, opcode, chunk.value, buffer + Flatten(incoming));
    }

    // The header and chunk of one frame.
    method ReceiveFrame(have: nat) returns (frame: FrameRead)
      requires Valid()
      modifies `buffer, `incoming
      ensures Valid() && frame == ReadFrame(old(Stream()), have) && Stream() == frame.rest
    {
      ghost var stream := Stream();
      var head := Take(2);
      if head.None? {
        return Bad(Disconnected, buffer + Flatten(incoming));
      }
      var first, second := head.value[0] as int, head.value[1] as int;
      if (first / 16) % 8 != 0 || second >= 128 {
        return Bad(InvalidFlags, buffer + Flatten(incoming));
      }
      ReadInSteps(stream, have);
      var length := TakeLength(second);
      if length.None? {
        return Bad(Disconnected, buffer + Flatten(incoming));
      }
      frame := ReceiveChunk(first >= 128, first % 16, length.value, have);
    }

    // Answers a ping, ignores a pong.
    method AnswerProbe(frame: FrameRead, ghost pings: seq<Bytes>, ghost already: Bytes, ghost before: nat)
      returns (ghost answered: seq<Bytes>)
      requires IsProbe(frame) && forall p :: p in pings ==> |p| <= 125
      requires sent == already + PongFrames(pings, masks, before) && drawn == before + |pings|
      modifies `sent, `drawn
      ensures answered == pings + (if frame.opcode == PING then [frame.chunk] else [])
      ensures forall p :: p in answered ==> |p| <= 125
      ensures sent == already + PongFrames(answered, masks, before) && drawn == before + |answered|
    {
      answered := pings;
      if frame.opcode == PING {
        var ok := Frame(PONG, frame.chunk);
        answered := pings + [frame.chunk];
        assert answered[..|pings|] == pings;
      }
    }

    // `receive`: the result depends on the bytes of the stream alone, not on how they are
    // cut into chunks, and every ping is answered in order.
    method Receive() returns (outcome: Received)
      requires Valid()
      modifies this
      ensures Valid()
      ensures var p := Parse(old(Stream()), [], false);
              && (forall ping :: ping in p.pings ==> |ping| <= 125)
              && outcome == p.outcome && Stream() == p.rest
              && sent == old(sent) + PongFrames(p.pings, masks, old(drawn))
              && drawn == old(drawn) + |p.pings|
    {
      var payload: Bytes, fragmented := [], false;
      ghost var whole := Parse(Stream(), [], false);
      ghost var pings: seq<Bytes> := [];
      LaterLater([], [], whole);
      PingsAreShort(Stream(), [], false);
      while true
        invariant Valid()
        invariant whole == Later(pings, Parse(Stream(), payload, fragmented))
        invariant forall ping :: ping in pings ==> |ping| <= 125
        invariant sent == old(sent) + PongFrames(pings, masks, old(drawn)) && drawn == old(drawn) + |pings|
        decreases |Stream()|
      {
        ghost var stream := Stream();
        var frame := ReceiveFrame(|payload|);
        var rejection := Rejection(frame, fragmented);
        if rejection.Some? {
          ParseRejected(stream, payload, fragmented);
          assert whole == Parsed(Failed(rejection.value), frame.rest, pings);
          return Failed(rejection.value);
        }
        if frame.opcode >= 8 {
          ParseProbe(stream, payload, fragmented);
          LaterLater(pings, if frame.opcode == PING then [frame.chunk] else [], Parse(frame.rest, payload, fragmented));
          pings := AnswerProbe(frame, pings, old(sent), old(drawn));
          continue;
        }
        ParseFragment(stream, payload, fragmented);
        payload := payload + frame.chunk;
        if frame.final {
          assert whole == Parsed(Message(payload), frame.rest, pings);
          return Message(payload);
        }
        fragmented := true;
      }
    }
  }
}
