/** Frame types, their encoding and parsing (src/dsquic/frames.py; section 19 of
    RFC 9000, section 4 of RFC 9221). */
module Frames {
  import opened Options
  import opened Buffers

  /** An inclusive run of packet numbers, as ACK frames carry them. */
  datatype AckRange = AckRange(low: int, high: int)

  datatype EcnCounts = EcnCounts(ect0: int, ect1: int, ce: int)

  datatype Frame =
    | Padding(length: nat)
    | Ping
    | Ack(largest: int, delay: int, ranges: seq<AckRange>, ecn: Option<EcnCounts>)
    | ResetStream(resetId: int, resetCode: int, finalSize: int)
    | StopSending(stopId: int, stopCode: int)
    | Crypto(cryptoOffset: nat, cryptoData: Bytes)
    | NewToken(token: Bytes)
    | Stream(id: nat, offset: nat, data: Bytes, fin: bool)
    | MaxData(maxData: int)
    | MaxStreamData(creditId: nat, maxStreamData: int)
    | MaxStreams(maxStreams: int, bidi: bool)
    | DataBlocked(dataLimit: int)
    | StreamDataBlocked(blockedId: int, streamLimit: int)
    | StreamsBlocked(countLimit: int, blockedBidi: bool)
    | NewConnectionId(sequence: int, retirePriorTo: int, connectionId: Bytes, resetToken: Bytes)
    | RetireConnectionId(retired: int)
    | PathChallenge(challenge: Bytes)
    | PathResponse(response: Bytes)
    | ConnectionClose(errorCode: int, reason: Bytes, frameType: Option<int>)
    | HandshakeDone
    | Datagram(payload: Bytes)

  /** Every frame elicits an acknowledgement but ACK, PADDING and CONNECTION_CLOSE. */
  predicate IsAckEliciting(f: Frame) { !(f.Ack? || f.Padding? || f.ConnectionClose?) }

  // ------------------------------------------------------------------ encoding

  predicate InRange(v: int) { 0 <= v <= VARINT_MAX }

  predicate RangesFit(low: int, ranges: seq<AckRange>)
    decreases |ranges|
  {
    ranges == [] ||
    (InRange(low - ranges[0].high - 2) && InRange(ranges[0].high - ranges[0].low) &&
     RangesFit(ranges[0].low, ranges[1..]))
  }

  predicate AckFits(f: Frame)
    requires f.Ack?
  {
    && |f.ranges| >= 1
    && f.ranges[0].high == f.largest
    && InRange(f.largest) && InRange(f.delay) && InRange(|f.ranges| - 1)
    && InRange(f.ranges[0].high - f.ranges[0].low)
    && RangesFit(f.ranges[0].low, f.ranges[1..])
    && (f.ecn.Some? ==> InRange(f.ecn.value.ect0) && InRange(f.ecn.value.ect1) && InRange(f.ecn.value.ce))
  }

  /** When the source's `encode` returns rather than raising. */
  predicate Encodable(f: Frame) {
    match f
    case Padding(_) => true
    case Ping => true
    case Ack(_, _, _, _) => AckFits(f)
    case ResetStream(id, code, size) => InRange(id) && InRange(code) && InRange(size)
    case StopSending(id, code) => InRange(id) && InRange(code)
    case Crypto(offset, data) => InRange(offset) && InRange(|data|)
    case NewToken(token) => InRange(|token|)
    case Stream(id, offset, data, _) => InRange(id) && InRange(offset) && InRange(|data|)
    case MaxData(v) => InRange(v)
    case MaxStreamData(id, v) => InRange(id) && InRange(v)
    case MaxStreams(v, _) => InRange(v)
    case DataBlocked(v) => InRange(v)
    case StreamDataBlocked(id, v) => InRange(id) && InRange(v)
    case StreamsBlocked(v, _) => InRange(v)
    case NewConnectionId(sequence, prior, cid, _) => InRange(sequence) && InRange(prior) && |cid| < 256
    case RetireConnectionId(sequence) => InRange(sequence)
    case PathChallenge(_) => true
    case PathResponse(_) => true
    case ConnectionClose(code, reason, kind) =>
      InRange(code) && InRange(|reason|) && (kind.Some? ==> InRange(kind.value))
    case HandshakeDone => true
    case Datagram(data) => InRange(|data|)
  }

  function TypeOf(f: Frame): (t: int)
    ensures 0 <= t < 0x32
  {
    match f
    case Padding(_) => 0x00
    case Ping => 0x01
    case Ack(_, _, _, ecn) => if ecn.Some? then 0x03 else 0x02
    case ResetStream(_, _, _) => 0x04
    case StopSending(_, _) => 0x05
    case Crypto(_, _) => 0x06
    case NewToken(_) => 0x07
    case Stream(_, offset, _, fin) => 0x0A + (if offset != 0 then 4 else 0) + (if fin then 1 else 0)
    case MaxData(_) => 0x10
    case MaxStreamData(_, _) => 0x11
    case MaxStreams(_, bidi) => if bidi then 0x12 else 0x13
    case DataBlocked(_) => 0x14
    case StreamDataBlocked(_, _) => 0x15
    case StreamsBlocked(_, bidi) => if bidi then 0x16 else 0x17
    case NewConnectionId(_, _, _, _) => 0x18
    case RetireConnectionId(_) => 0x19
    case PathChallenge(_) => 0x1A
    case PathResponse(_) => 0x1B
    case ConnectionClose(_, _, kind) => if kind.Some? then 0x1C else 0x1D
    case HandshakeDone => 0x1E
    case Datagram(_) => 0x31
  }

  function Zeros(n: nat): (r: Bytes)
    ensures |r| == n
  {
    if n == 0 then [] else [0] + Zeros(n - 1)
  }

  function RangesBody(low: int, ranges: seq<AckRange>): Bytes
    requires RangesFit(low, ranges)
    decreases |ranges|
  {
    if ranges == [] then []
    else Varint(low - ranges[0].high - 2)
         + (Varint(ranges[0].high - ranges[0].low) + RangesBody(ranges[0].low, ranges[1..]))
  }

  function EcnBody(ecn: Option<EcnCounts>): Bytes
    requires ecn.Some? ==> InRange(ecn.value.ect0) && InRange(ecn.value.ect1) && InRange(ecn.value.ce)
  {
    if ecn.None? then [] else Varint(ecn.value.ect0) + (Varint(ecn.value.ect1) + Varint(ecn.value.ce))
  }

  function AckBody(f: Frame): Bytes
    requires f.Ack? && AckFits(f)
  {
    Varint(f.largest) + (Varint(f.delay) + (Varint(|f.ranges| - 1)
    + (Varint(f.ranges[0].high - f.ranges[0].low)
       + (RangesBody(f.ranges[0].low, f.ranges[1..]) + EcnBody(f.ecn)))))
  }

  /** Length-prefixed bytes. */
  function Block(data: Bytes): Bytes
    requires InRange(|data|)
  {
    Varint(|data|) + data
  }

  /** What follows the type of a frame. */
  function Body(f: Frame): Bytes
    requires Encodable(f)
  {
    match f
    case Padding(n) => Zeros(if n == 0 then 0 else n - 1)
    case Ping => []
    case Ack(_, _, _, _) => AckBody(f)
    case ResetStream(id, code, size) => Varint(id) + (Varint(code) + Varint(size))
    case StopSending(id, code) => Varint(id) + Varint(code)
    case Crypto(offset, data) => Varint(offset) + Block(data)
    case NewToken(token) => Block(token)
    case Stream(id, offset, data, _) =>
      Varint(id) + (if offset != 0 then Varint(offset) + Block(data) else Block(data))
    case MaxData(v) => Varint(v)
    case MaxStreamData(id, v) => Varint(id) + Varint(v)
    case MaxStreams(v, _) => Varint(v)
    case DataBlocked(v) => Varint(v)
    case StreamDataBlocked(id, v) => Varint(id) + Varint(v)
    case StreamsBlocked(v, _) => Varint(v)
    case NewConnectionId(sequence, prior, cid, token) =>
      Varint(sequence) + (Varint(prior) + ([|cid|] + (cid + token)))
    case RetireConnectionId(sequence) => Varint(sequence)
    case PathChallenge(data) => data
    case PathResponse(data) => data
    case ConnectionClose(code, reason, kind) =>
      Varint(code) + (if kind.Some? then Varint(kind.value) + Block(reason) else Block(reason))
    case HandshakeDone => []
    case Datagram(data) => Block(data)
  }

  function Wire(f: Frame): (r: Bytes)
    requires Encodable(f)
  {
    if f == Padding(0) then [] else Varint(TypeOf(f)) + Body(f)
  }

  /** `Frame.encode`, with the ValueError paths. */
  function Encode(f: Frame): (r: Option<Bytes>) {
    if Encodable(f) then Some(Wire(f)) else None
  }

  // ------------------------------------------------------------------- parsing

  function ZeroRun(b: Bytes): (n: nat)
    ensures n <= |b|
  {
    if b != [] && b[0] == 0 then 1 + ZeroRun(b[1..]) else 0
  }

  function PullBlock(b: Bytes): (r: Parse<Bytes>)
    ensures r.Ok? ==> |r.value.0| + |r.value.1| < |b|
  {
    var (n, rest) :- PullVarint(b);
    PullBytes(rest, n)
  }

  function ParseRanges(b: Bytes, low: int, count: nat): (r: Parse<seq<AckRange>>)
    ensures r.Ok? ==> |r.value.1| <= |b| && |r.value.0| == count
    decreases count
  {
    if count == 0 then Ok(([], b))
    else
      var (gap, b1) :- PullVarint(b);
      var (length, b2) :- PullVarint(b1);
      var high := low - gap - 2;
      var next := high - length;
      if next < 0 then Err(FrameParseError)
      else
        var (more, b3) :- ParseRanges(b2, next, count - 1);
        Ok(([AckRange(next, high)] + more, b3))
  }

  function ParseEcn(b: Bytes): (r: Parse<EcnCounts>)
    ensures r.Ok? ==> |r.value.1| <= |b|
  {
    var (ect0, b1) :- PullVarint(b);
    var (ect1, b2) :- PullVarint(b1);
    var (ce, b3) :- PullVarint(b2);
    Ok((EcnCounts(ect0, ect1, ce), b3))
  }

  function ParseAck(t: int, b: Bytes): (r: Parse<Frame>)
    ensures r.Ok? ==> |r.value.1| <= |b|
  {
    var (largest, b1) :- PullVarint(b);
    var (delay, b2) :- PullVarint(b1);
    var (count, b3) :- PullVarint(b2);
    var (first, b4) :- PullVarint(b3);
    if largest - first < 0 then Err(FrameParseError)
    else
      var (more, b5) :- ParseRanges(b4, largest - first, count);
      var ranges := [AckRange(largest - first, largest)] + more;
      if t == 0x03 then
        var (ecn, b6) :- ParseEcn(b5);
        Ok((Ack(largest, delay, ranges, Some(ecn)), b6))
      else Ok((Ack(largest, delay, ranges, None), b5))
  }

  /** The frames that are up to three varints. */
  function ParseNumbers(t: int, b: Bytes): (r: Parse<Frame>)
    ensures r.Ok? ==> |r.value.1| <= |b|
  {
    var (x, b1) :- PullVarint(b);
    if t == 0x10 then Ok((MaxData(x), b1))
    else if t == 0x12 || t == 0x13 then Ok((MaxStreams(x, t == 0x12), b1))
    else if t == 0x14 then Ok((DataBlocked(x), b1))
    else if t == 0x16 || t == 0x17 then Ok((StreamsBlocked(x, t == 0x16), b1))
    else if t == 0x19 then Ok((RetireConnectionId(x), b1))
    else
      var (y, b2) :- PullVarint(b1);
      if t == 0x05 then Ok((StopSending(x, y), b2))
      else if t == 0x11 then Ok((MaxStreamData(x, y), b2))
      else if t == 0x15 then Ok((StreamDataBlocked(x, y), b2))
      else
        var (z, b3) :- PullVarint(b2);
        Ok((ResetStream(x, y, z), b3))
  }

  function ParseCrypto(b: Bytes): (r: Parse<Frame>)
    ensures r.Ok? ==> |r.value.1| <= |b|
  {
    var (offset, b1) :- PullVarint(b);
    var (data, b2) :- PullBlock(b1);
    Ok((Crypto(offset, data), b2))
  }

  /** The three low type bits are OFF 4, LEN 2 and FIN 1. */
  function ParseStream(t: int, b: Bytes): (r: Parse<Frame>)
    requires 0x08 <= t <= 0x0F
    ensures r.Ok? ==> |r.value.1| <= |b|
  {
    var (id, b1) :- PullVarint(b);
    var (offset, b2) :- if (t / 4) % 2 == 1 then PullVarint(b1) else Ok((0, b1));
    var (data, b3) :- if (t / 2) % 2 == 1 then PullBlock(b2) else PullBytes(b2, |b2|);
    Ok((Stream(id, offset, data, t % 2 == 1), b3))
  }

  function ParseNewConnectionId(b: Bytes): (r: Parse<Frame>)
    ensures r.Ok? ==> |r.value.1| <= |b|
  {
    var (sequence, b1) :- PullVarint(b);
    var (prior, b2) :- PullVarint(b1);
    var (length, b3) :- PullUint8(b2);
    var (cid, b4) :- PullBytes(b3, length);
    var (token, b5) :- PullBytes(b4, 16);
    Ok((NewConnectionId(sequence, prior, cid, token), b5))
  }

  function ParsePath(t: int, b: Bytes): (r: Parse<Frame>)
    ensures r.Ok? ==> |r.value.1| <= |b|
  {
    var (data, b1) :- PullBytes(b, 8);
    Ok((if t == 0x1A then PathChallenge(data) else PathResponse(data), b1))
  }

  function ParseClose(t: int, b: Bytes): (r: Parse<Frame>)
    ensures r.Ok? ==> |r.value.1| <= |b|
  {
    var (code, b1) :- PullVarint(b);
    if t == 0x1C then
      var (kind, b2) :- PullVarint(b1);
      var (reason, b3) :- PullBlock(b2);
      Ok((ConnectionClose(code, reason, Some(kind)), b3))
    else
      var (reason, b3) :- PullBlock(b1);
      Ok((ConnectionClose(code, reason, None), b3))
  }

  function ParseBlocks(t: int, b: Bytes): (r: Parse<Frame>)
    ensures r.Ok? ==> |r.value.1| <= |b|
  {
    var (data, b1) :- if t == 0x30 then PullBytes(b, |b|) else PullBlock(b);
    Ok((if t == 0x07 then NewToken(data) else Datagram(data), b1))
  }

  predicate IsNumbers(t: int) {
    t == 0x04 || t == 0x05 || 0x10 <= t <= 0x17 || t == 0x19
  }

  /** The parser table: every valid type value selects its parser. */
  function ParseBody(t: int, b: Bytes): (r: Parse<Frame>)
    ensures r.Ok? ==> |r.value.1| <= |b|
  {
    if t == 0x00 then Ok((Padding(1 + ZeroRun(b)), b[ZeroRun(b)..]))
    else if t == 0x01 then Ok((Ping, b))
    else if t == 0x02 || t == 0x03 then ParseAck(t, b)
    else if IsNumbers(t) then ParseNumbers(t, b)
    else if t == 0x06 then ParseCrypto(b)
    else if 0x08 <= t <= 0x0F then ParseStream(t, b)
    else if t == 0x18 then ParseNewConnectionId(b)
    else if t == 0x1A || t == 0x1B then ParsePath(t, b)
    else if t == 0x1C || t == 0x1D then ParseClose(t, b)
    else if t == 0x1E then Ok((HandshakeDone, b))
    else if t == 0x07 || t == 0x30 || t == 0x31 then ParseBlocks(t, b)
    else Err(FrameParseError)
  }

  /** One frame: its type must be in shortest form. */
  function ParseFrame(b: Bytes): (r: Parse<Frame>)
    ensures r.Ok? ==> |r.value.1| < |b|
  {
    var (t, rest) :- PullVarint(b);
    if |b| - |rest| != VarintLength(t) then Err(FrameParseError)
    else ParseBody(t, rest)
  }

  function ParseAll(b: Bytes): (r: Result<seq<Frame>, ReadError>)
    decreases |b|
  {
    if b == [] then Ok([])
    else
      var (f, rest) :- ParseFrame(b);
      var more :- ParseAll(rest);
      Ok([f] + more)
  }

  /** `parse_frames`: an empty payload is an error. */
  function ParseFrames(payload: Bytes): (r: Result<seq<Frame>, ReadError>) {
    if payload == [] then Err(FrameParseError) else ParseAll(payload)
  }
}
