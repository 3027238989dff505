/** The frame codec round trips: parsing undoes encoding on every well-formed
    frame list, and what parsing accepts is a well-formed list. */
module FrameCodec {
  import opened Options
  import opened Buffers
  import opened Frames

  /** Frames that survive a round trip: encodable, and of the sizes the parser
      insists on. */
  ghost predicate WellFormed(f: Frame) {
    Encodable(f) &&
    match f
    case Padding(n) => n >= 1
    case Ack(_, _, ranges, _) => AllNonNegative(ranges)
    case NewConnectionId(_, _, _, token) => |token| == 16
    case PathChallenge(data) => |data| == 8
    case PathResponse(data) => |data| == 8
    case _ => true
  }

  ghost predicate AllNonNegative(ranges: seq<AckRange>) {
    forall k :: 0 <= k < |ranges| ==> 0 <= ranges[k].low
  }

  ghost predicate WellFormedList(fs: seq<Frame>) {
    && (forall k :: 0 <= k < |fs| ==> WellFormed(fs[k]))
    && (forall k :: 0 < k < |fs| ==> !(fs[k - 1].Padding? && fs[k].Padding?))
  }

  /** The payload of a packet: the encodings of its frames, joined. */
  ghost function WireAll(fs: seq<Frame>): Bytes
    requires forall k :: 0 <= k < |fs| ==> Encodable(fs[k])
  {
    if fs == [] then [] else Wire(fs[0]) + WireAll(fs[1..])
  }

  // ------------------------------------------------- reading back what was written

  lemma BlockRoundTrip(data: Bytes, rest: Bytes)
    requires InRange(|data|)
    ensures PullBlock(Block(data) + rest) == Ok((data, rest))
  {
    hide Varint, PullVarint;
    VarintRoundTrip(|data|, data + rest);
    Assoc(Varint(|data|), data, rest);
    PullSplit(data, rest);
  }

  lemma {:induction false} RangesRoundTrip(low: int, ranges: seq<AckRange>, rest: Bytes)
    requires RangesFit(low, ranges) && AllNonNegative(ranges)
    ensures ParseRanges(RangesBody(low, ranges) + rest, low, |ranges|) == Ok((ranges, rest))
    decreases |ranges|
  {
    hide Varint, PullVarint;
    if ranges == [] {
      assert RangesBody(low, ranges) + rest == rest;
    } else {
      var r := ranges[0];
      var tail := RangesBody(r.low, ranges[1..]) + rest;
      RangesRoundTrip(r.low, ranges[1..], rest);
      VarintRoundTrip(low - r.high - 2, Varint(r.high - r.low) + tail);
      VarintRoundTrip(r.high - r.low, tail);
      Assoc(Varint(low - r.high - 2), Varint(r.high - r.low) + RangesBody(r.low, ranges[1..]), rest);
      Assoc(Varint(r.high - r.low), RangesBody(r.low, ranges[1..]), rest);
      assert [r] + ranges[1..] == ranges;
    }
  }

  lemma EcnRoundTrip(ecn: EcnCounts, rest: Bytes)
    requires InRange(ecn.ect0) && InRange(ecn.ect1) && InRange(ecn.ce)
    ensures ParseEcn(EcnBody(Some(ecn)) + rest) == Ok((ecn, rest))
  {
    hide Varint, PullVarint;
    var b2 := Varint(ecn.ce) + rest;
    var b1 := Varint(ecn.ect1) + b2;
    Assoc(Varint(ecn.ect0), Varint(ecn.ect1) + Varint(ecn.ce), rest);
    Assoc(Varint(ecn.ect1), Varint(ecn.ce), rest);
    VarintRoundTrip(ecn.ect0, b1);
    VarintRoundTrip(ecn.ect1, b2);
    VarintRoundTrip(ecn.ce, rest);
  }

  lemma AckBodyThen(f: Frame, rest: Bytes)
    requires f.Ack? && AckFits(f)
    ensures AckBody(f) + rest ==
            Varint(f.largest) + (Varint(f.delay) + (Varint(|f.ranges| - 1)
            + (Varint(f.ranges[0].high - f.ranges[0].low)
               + (RangesBody(f.ranges[0].low, f.ranges[1..]) + (EcnBody(f.ecn) + rest)))))
  {
    hide Varint, RangesBody, EcnBody;
    var x5 := RangesBody(f.ranges[0].low, f.ranges[1..]) + EcnBody(f.ecn);
    var x4 := Varint(f.ranges[0].high - f.ranges[0].low) + x5;
    var x3 := Varint(|f.ranges| - 1) + x4;
    Assoc(Varint(f.largest), Varint(f.delay) + x3, rest);
    Assoc(Varint(f.delay), x3, rest);
    Assoc(Varint(|f.ranges| - 1), x4, rest);
    Assoc(Varint(f.ranges[0].high - f.ranges[0].low), x5, rest);
    Assoc(RangesBody(f.ranges[0].low, f.ranges[1..]), EcnBody(f.ecn), rest);
  }

  lemma AckRoundTrip(f: Frame, rest: Bytes)
    requires f.Ack? && WellFormed(f)
    ensures ParseAck(TypeOf(f), AckBody(f) + rest) == Ok((f, rest))
  {
    hide Varint, PullVarint, RangesFit, RangesBody, ParseRanges;
    var first := f.ranges[0];
    var others := f.ranges[1..];
    AckBodyThen(f, rest);
    var b5 := EcnBody(f.ecn) + rest;
    var b4 := RangesBody(first.low, others) + b5;
    var b3 := Varint(first.high - first.low) + b4;
    var b2 := Varint(|others|) + b3;
    var b1 := Varint(f.delay) + b2;
    VarintRoundTrip(f.largest, b1);
    VarintRoundTrip(f.delay, b2);
    VarintRoundTrip(|others|, b3);
    VarintRoundTrip(first.high - first.low, b4);
    assert AllNonNegative(others);
    RangesRoundTrip(first.low, others, b5);
    assert [first] + others == f.ranges;
    if f.ecn.Some? { EcnRoundTrip(f.ecn.value, rest); } else { assert b5 == rest; }
  }

  lemma NumbersRoundTrip(f: Frame, rest: Bytes)
    requires Encodable(f) && IsNumbers(TypeOf(f))
    ensures ParseNumbers(TypeOf(f), Body(f) + rest) == Ok((f, rest))
  {
    hide Varint, PullVarint;
    match f
    case MaxData(v) => VarintRoundTrip(v, rest);
    case MaxStreams(v, _) => VarintRoundTrip(v, rest);
    case DataBlocked(v) => VarintRoundTrip(v, rest);
    case StreamsBlocked(v, _) => VarintRoundTrip(v, rest);
    case RetireConnectionId(v) => VarintRoundTrip(v, rest);
    case StopSending(x, y) => TwoVarints(x, y, rest);
    case MaxStreamData(x, y) => TwoVarints(x, y, rest);
    case StreamDataBlocked(x, y) => TwoVarints(x, y, rest);
    case ResetStream(x, y, z) =>
      VarintRoundTrip(x, Varint(y) + (Varint(z) + rest));
      TwoVarints(y, z, rest);
      Assoc(Varint(x), Varint(y) + Varint(z), rest);
      Assoc(Varint(y), Varint(z), rest);
  }

  lemma TwoVarints(x: int, y: int, rest: Bytes)
    requires InRange(x) && InRange(y)
    ensures PullVarint(Varint(x) + Varint(y) + rest) == Ok((x, Varint(y) + rest))
    ensures PullVarint(Varint(x) + (Varint(y) + rest)) == Ok((x, Varint(y) + rest))
    ensures PullVarint(Varint(y) + rest) == Ok((y, rest))
  {
    hide Varint, PullVarint;
    VarintRoundTrip(x, Varint(y) + rest);
    VarintRoundTrip(y, rest);
    Assoc(Varint(x), Varint(y), rest);
  }

  lemma StreamRoundTrip(f: Frame, rest: Bytes)
    requires f.Stream? && Encodable(f)
    ensures ParseStream(TypeOf(f), Body(f) + rest) == Ok((f, rest))
  {
    hide Varint, PullVarint;
    var b2 := Block(f.data) + rest;
    var b1 := if f.offset != 0 then Varint(f.offset) + b2 else b2;
    Assoc(Varint(f.id), if f.offset != 0 then Varint(f.offset) + Block(f.data) else Block(f.data), rest);
    if f.offset != 0 { Assoc(Varint(f.offset), Block(f.data), rest); }
    VarintRoundTrip(f.id, b1);
    if f.offset != 0 { VarintRoundTrip(f.offset, b2); }
    BlockRoundTrip(f.data, rest);
  }

  lemma CloseRoundTrip(f: Frame, rest: Bytes)
    requires f.ConnectionClose? && Encodable(f)
    ensures ParseClose(TypeOf(f), Body(f) + rest) == Ok((f, rest))
  {
    hide Varint, PullVarint;
    var b2 := Block(f.reason) + rest;
    var b1 := if f.frameType.Some? then Varint(f.frameType.value) + b2 else b2;
    Assoc(Varint(f.errorCode),
          if f.frameType.Some? then Varint(f.frameType.value) + Block(f.reason) else Block(f.reason), rest);
    if f.frameType.Some? { Assoc(Varint(f.frameType.value), Block(f.reason), rest); }
    VarintRoundTrip(f.errorCode, b1);
    if f.frameType.Some? { VarintRoundTrip(f.frameType.value, b2); }
    BlockRoundTrip(f.reason, rest);
  }

  lemma ConnectionIdRoundTrip(f: Frame, rest: Bytes)
    requires f.NewConnectionId? && WellFormed(f)
    ensures ParseNewConnectionId(Body(f) + rest) == Ok((f, rest))
  {
    hide Varint, PullVarint;
    var b3 := f.connectionId + (f.resetToken + rest);
    var b2 := [|f.connectionId|] + b3;
    var b1 := Varint(f.retirePriorTo) + b2;
    var x2 := [|f.connectionId|] + (f.connectionId + f.resetToken);
    Assoc(Varint(f.sequence), Varint(f.retirePriorTo) + x2, rest);
    Assoc(Varint(f.retirePriorTo), x2, rest);
    Assoc([|f.connectionId|], f.connectionId + f.resetToken, rest);
    Assoc(f.connectionId, f.resetToken, rest);
    VarintRoundTrip(f.sequence, b1);
    VarintRoundTrip(f.retirePriorTo, b2);
    assert b2[1..] == b3;
    PullSplit(f.connectionId, f.resetToken + rest);
    PullSplit(f.resetToken, rest);
  }

  lemma {:induction false} ZeroRunOfZeros(n: nat, rest: Bytes)
    requires rest == [] || rest[0] != 0
    ensures ZeroRun(Zeros(n) + rest) == n && (Zeros(n) + rest)[n..] == rest
    decreases n
  {
    if n == 0 {
      assert Zeros(0) + rest == rest;
    } else {
      ZeroRunOfZeros(n - 1, rest);
      assert (Zeros(n) + rest)[1..] == Zeros(n - 1) + rest;
    }
  }

  lemma BodyRoundTrip(f: Frame, rest: Bytes)
    requires WellFormed(f)
    requires f.Padding? ==> rest == [] || rest[0] != 0
    ensures ParseBody(TypeOf(f), Body(f) + rest) == Ok((f, rest))
  {
    hide Varint, PullVarint, RangesFit, RangesBody;
    hide ParseAck, ParseNumbers, ParseStream, ParseClose, ParseNewConnectionId;
    if IsNumbers(TypeOf(f)) {
      NumbersRoundTrip(f, rest);
    } else {
      match f
      case Padding(n) => ZeroRunOfZeros(n - 1, rest);
      case Ack(_, _, _, _) => AckRoundTrip(f, rest);
      case Crypto(offset, data) =>
        Assoc(Varint(offset), Block(data), rest);
        VarintRoundTrip(offset, Block(data) + rest);
        BlockRoundTrip(data, rest);
      case NewToken(token) => BlockRoundTrip(token, rest);
      case Stream(_, _, _, _) => StreamRoundTrip(f, rest);
      case NewConnectionId(_, _, _, _) => ConnectionIdRoundTrip(f, rest);
      case PathChallenge(data) => PullSplit(data, rest);
      case PathResponse(data) => PullSplit(data, rest);
      case ConnectionClose(_, _, _) => CloseRoundTrip(f, rest);
      case Datagram(data) => BlockRoundTrip(data, rest);
      case Ping => assert Body(f) + rest == rest;
      case HandshakeDone => assert Body(f) + rest == rest;
    }
  }

  /** A well-formed frame followed by anything parses to itself; PADDING must
      not be followed by more of it. */
  lemma FrameRoundTrip(f: Frame, rest: Bytes)
    requires WellFormed(f)
    requires f.Padding? ==> rest == [] || rest[0] != 0
    ensures ParseFrame(Wire(f) + rest) == Ok((f, rest))
  {
    hide Varint, PullVarint;
    VarintRoundTrip(TypeOf(f), Body(f) + rest);
    Assoc(Varint(TypeOf(f)), Body(f), rest);
    BodyRoundTrip(f, rest);
  }

  lemma FirstByteIsType(f: Frame)
    requires WellFormed(f)
    ensures Wire(f) != [] && Wire(f)[0] == TypeOf(f)
  {
    assert Varint(TypeOf(f)) == ToBytes(TypeOf(f), 1);
    assert ToBytes(TypeOf(f) / 256, 0) == [];
  }

  lemma {:induction false} ParseAllWire(fs: seq<Frame>)
    requires WellFormedList(fs)
    ensures ParseAll(WireAll(fs)) == Ok(fs)
    decreases |fs|
  {
    hide ParseFrame, Wire, Encodable;
    if fs != [] {
      var rest := WireAll(fs[1..]);
      if |fs| > 1 {
        FirstByteIsType(fs[1]);
        assert rest[0] == Wire(fs[1])[0];
        assert fs[1] == fs[1..][0];
      }
      assert WellFormed(fs[0]);
      FrameRoundTrip(fs[0], rest);
      FirstByteIsType(fs[0]);
      ParseAllWire(fs[1..]);
      assert [fs[0]] + fs[1..] == fs;
    }
  }

  /** Parsing the joined encodings of any non-empty well-formed frame list gives
      the list back. */
  lemma PayloadRoundTrip(fs: seq<Frame>)
    requires WellFormedList(fs) && fs != []
    ensures ParseFrames(WireAll(fs)) == Ok(fs)
  {
    ParseAllWire(fs);
    FirstByteIsType(fs[0]);
  }

  // --------------------------------------------- what parsing accepts is well formed

  lemma {:induction false} ParsedRangesFit(b: Bytes, low: int, count: nat)
    requires ParseRanges(b, low, count).Ok? && 0 <= low <= VARINT_MAX
    ensures var ranges := ParseRanges(b, low, count).value.0; RangesFit(low, ranges) && AllNonNegative(ranges)
    decreases count
  {
    hide Varint, PullVarint;
    if count != 0 {
      PulledVarintInRange(b);
      var b1 := PullVarint(b).value.1;
      PulledVarintInRange(b1);
      var high := low - PullVarint(b).value.0 - 2;
      var next := high - PullVarint(b1).value.0;
      var b2 := PullVarint(b1).value.1;
      ParsedRangesFit(b2, next, count - 1);
      var more := ParseRanges(b2, next, count - 1).value.0;
      assert ([AckRange(next, high)] + more)[1..] == more;
    }
  }

  lemma ParsedEcn(b: Bytes)
    requires ParseEcn(b).Ok?
    ensures var e := ParseEcn(b).value.0; InRange(e.ect0) && InRange(e.ect1) && InRange(e.ce)
  {
    hide PullVarint;
    PulledVarintInRange(b);
    var b1 := PullVarint(b).value.1;
    PulledVarintInRange(b1);
    PulledVarintInRange(PullVarint(b1).value.1);
  }

  lemma AckOfParts(largest: int, delay: int, first: int, more: seq<AckRange>, ecn: Option<EcnCounts>)
    requires InRange(largest) && InRange(delay) && InRange(first) && InRange(|more|) && first <= largest
    requires RangesFit(largest - first, more) && AllNonNegative(more)
    requires ecn.Some? ==> InRange(ecn.value.ect0) && InRange(ecn.value.ect1) && InRange(ecn.value.ce)
    ensures WellFormed(Ack(largest, delay, [AckRange(largest - first, largest)] + more, ecn))
  {
    assert ([AckRange(largest - first, largest)] + more)[1..] == more;
  }

  lemma ParsedAck(t: int, b: Bytes)
    requires ParseAck(t, b).Ok? && (t == 0x02 || t == 0x03)
    ensures WellFormed(ParseAck(t, b).value.0)
  {
    hide PullVarint, ParseRanges, ParseEcn, WellFormed;
    PulledVarintInRange(b);
    var (largest, b1) := PullVarint(b).value;
    PulledVarintInRange(b1);
    var (delay, b2) := PullVarint(b1).value;
    PulledVarintInRange(b2);
    var (count, b3) := PullVarint(b2).value;
    PulledVarintInRange(b3);
    var (first, b4) := PullVarint(b3).value;
    ParsedRangesFit(b4, largest - first, count);
    var (more, b5) := ParseRanges(b4, largest - first, count).value;
    if t == 0x03 { ParsedEcn(b5); }
    AckOfParts(largest, delay, first, more, if t == 0x03 then Some(ParseEcn(b5).value.0) else None);
  }

  lemma ParsedNumbers(t: int, b: Bytes)
    requires ParseNumbers(t, b).Ok?
    ensures WellFormed(ParseNumbers(t, b).value.0)
    ensures !ParseNumbers(t, b).value.0.Padding?
  {
    hide Varint, PullVarint;
    PulledVarintInRange(b);
    var b1 := PullVarint(b).value.1;
    if PullVarint(b1).Ok? {
      PulledVarintInRange(b1);
      var b2 := PullVarint(b1).value.1;
      if PullVarint(b2).Ok? { PulledVarintInRange(b2); }
    }
  }

  lemma ParsedStream(t: int, b: Bytes)
    requires 0x08 <= t <= 0x0F && ParseStream(t, b).Ok? && |b| <= VARINT_MAX
    ensures WellFormed(ParseStream(t, b).value.0)
  {
    hide Varint, PullVarint;
    PulledVarintInRange(b);
    var b1 := PullVarint(b).value.1;
    if (t / 4) % 2 == 1 { PulledVarintInRange(b1); }
  }

  lemma ParsedOthers(t: int, b: Bytes)
    requires ParseBody(t, b).Ok? && |b| <= VARINT_MAX
    requires t == 0x06 || t == 0x18 || t == 0x1C || t == 0x1D || t == 0x07 || t == 0x30 || t == 0x31
    ensures WellFormed(ParseBody(t, b).value.0)
  {
    hide Varint, PullVarint;
    if t == 0x06 {
      PulledVarintInRange(b);
    } else if t == 0x18 {
      PulledVarintInRange(b);
      PulledVarintInRange(PullVarint(b).value.1);
    } else if t == 0x1C || t == 0x1D {
      PulledVarintInRange(b);
      if t == 0x1C { PulledVarintInRange(PullVarint(b).value.1); }
    }
  }

  lemma {:induction false} ZeroRunIsMaximal(b: Bytes)
    ensures ZeroRun(b) < |b| ==> b[ZeroRun(b)] != 0
    decreases |b|
  {
    if b != [] && b[0] == 0 { ZeroRunIsMaximal(b[1..]); }
  }

  lemma OneByteVarint(b: Bytes)
    requires PullVarint(b).Ok? && |b| - |PullVarint(b).value.1| == 1
    ensures PullVarint(b).value.0 == b[0]
  {
    assert FormLength(b[0]) == 1;
    assert b[1..][..0] == [];
  }

  /** A parsed frame is well formed, and PADDING swallows all the padding there is. */
  lemma ParsedFrame(b: Bytes)
    requires ParseFrame(b).Ok? && |b| <= VARINT_MAX
    ensures WellFormed(ParseFrame(b).value.0)
    ensures ParseFrame(b).value.0.Padding? ==>
              b[0] == 0 && (ParseFrame(b).value.1 == [] || ParseFrame(b).value.1[0] != 0)
  {
    hide Varint, PullVarint;
    var (t, rest) := PullVarint(b).value;
    PulledVarintInRange(b);
    if t == 0x02 || t == 0x03 { ParsedAck(t, rest); }
    else if IsNumbers(t) { ParsedNumbers(t, rest); }
    else if 0x08 <= t <= 0x0F { ParsedStream(t, rest); }
    else if t == 0x00 {
      ZeroRunIsMaximal(rest);
      OneByteVarint(b);
    } else if t == 0x01 || t == 0x1A || t == 0x1B || t == 0x1E {
    } else { ParsedOthers(t, rest); }
  }

  lemma {:induction false} ParsedList(b: Bytes)
    requires ParseAll(b).Ok? && |b| <= VARINT_MAX
    ensures WellFormedList(ParseAll(b).value)
    ensures b != [] ==> ParseAll(b).value != [] && (ParseAll(b).value[0].Padding? ==> b[0] == 0)
    decreases |b|
  {
    if b != [] {
      ParsedFrame(b);
      var (f, rest) := ParseFrame(b).value;
      ParsedList(rest);
    }
  }

  /** For every accepted payload, encoding the parsed frames and parsing again
      gives the same frames, whatever varint forms and whichever STREAM and
      DATAGRAM forms the payload used. */
  lemma ReparseIsStable(payload: Bytes)
    requires ParseFrames(payload).Ok? && |payload| <= VARINT_MAX
    ensures var fs := ParseFrames(payload).value;
            WellFormedList(fs) && ParseFrames(WireAll(fs)) == Ok(fs)
  {
    ParsedList(payload);
    PayloadRoundTrip(ParseFrames(payload).value);
  }

  // ------------------------------------------------------- the source's loops

  /** The loop of `Ack.encode`: one gap and one length per further range. */
  method EncodeRanges(low: int, ranges: seq<AckRange>) returns (r: Option<Bytes>)
    ensures r == if RangesFit(low, ranges) then Some(RangesBody(low, ranges)) else None
  {
    hide Varint;
    var out := [];
    var previous := low;
    var i := 0;
    while i < |ranges|
      invariant 0 <= i <= |ranges|
      invariant RangesFit(low, ranges) == RangesFit(previous, ranges[i..])
      invariant RangesFit(low, ranges) ==> out + RangesBody(previous, ranges[i..]) == RangesBody(low, ranges)
    {
      var gap := EncodeVarint(previous - ranges[i].high - 2);
      var length := EncodeVarint(ranges[i].high - ranges[i].low);
      assert ranges[i..][0] == ranges[i] && ranges[i..][1..] == ranges[i + 1..];
      if gap.None? || length.None? {
        return None;
      }
      if RangesFit(ranges[i].low, ranges[i + 1..]) {
        ghost var later := RangesBody(ranges[i].low, ranges[i + 1..]);
        Assoc(out, gap.value + length.value, later);
        Assoc(gap.value, length.value, later);
      }
      out := out + (gap.value + length.value);
      previous := ranges[i].low;
      i := i + 1;
    }
    assert ranges[i..] == [] && out + [] == out;
    return Some(out);
  }

  method EncodeAck(f: Frame) returns (r: Option<Bytes>)
    requires f.Ack?
    ensures r == Encode(f)
  {
    hide Varint, RangesFit, RangesBody;
    if |f.ranges| == 0 || f.ranges[0].high != f.largest {
      return None;
    }
    var first := f.ranges[0];
    if !(InRange(f.largest) && InRange(f.delay) && InRange(|f.ranges| - 1) && InRange(first.high - first.low)) {
      return None;
    }
    var head := Varint(f.largest) + (Varint(f.delay) + (Varint(|f.ranges| - 1) + Varint(first.high - first.low)));
    var out := EncodeRanges(first.low, f.ranges[1..]);
    if out.None? {
      return None;
    }
    if f.ecn.Some? && !(InRange(f.ecn.value.ect0) && InRange(f.ecn.value.ect1) && InRange(f.ecn.value.ce)) {
      return None;
    }
    AckBodyJoin(f, out.value, head);
    return Some(Varint(TypeOf(f)) + (head + (out.value + EcnBody(f.ecn))));
  }

  lemma AckBodyJoin(f: Frame, out: Bytes, head: Bytes)
    requires f.Ack? && AckFits(f) && out == RangesBody(f.ranges[0].low, f.ranges[1..])
    requires head == Varint(f.largest) + (Varint(f.delay) + (Varint(|f.ranges| - 1)
                     + Varint(f.ranges[0].high - f.ranges[0].low)))
    ensures head + (out + EcnBody(f.ecn)) == AckBody(f)
  {
    hide Varint, RangesBody, EcnBody;
    var tail := out + EcnBody(f.ecn);
    var x3 := Varint(f.ranges[0].high - f.ranges[0].low);
    Assoc(Varint(f.largest), Varint(f.delay) + (Varint(|f.ranges| - 1) + x3), tail);
    Assoc(Varint(f.delay), Varint(|f.ranges| - 1) + x3, tail);
    Assoc(Varint(|f.ranges| - 1), x3, tail);
  }

  /** `parse_frames`, which appends one frame at a time until the payload ends. */
  method ParseFramesLoop(payload: Bytes) returns (r: Result<seq<Frame>, ReadError>)
    ensures r == ParseFrames(payload)
  {
    hide ParseFrame;
    if payload == [] {
      return Err(FrameParseError);
    }
    var rest := payload;
    var frames := [];
    assert ParseAll(payload).Ok? ==> frames + ParseAll(payload).value == ParseAll(payload).value;
    while rest != []
      invariant match ParseAll(rest)
                case Ok(more) => ParseAll(payload) == Ok(frames + more)
                case Err(e) => ParseAll(payload) == Err(e)
      decreases |rest|
    {
      var one := ParseFrame(rest);
      if one.Err? {
        return Err(one.error);
      }
      var (f, left) := one.value;
      if ParseAll(left).Ok? {
        assert frames + ([f] + ParseAll(left).value) == frames + [f] + ParseAll(left).value;
      }
      frames := frames + [f];
      rest := left;
    }
    assert frames + [] == frames;
    return Ok(frames);
  }
}
