/** The frame formats as a grammar, and the parser as its exact recognizer: whatever
    form an integer takes, and with or without the optional fields
    (src/dsquic/frames.py; section 19 of RFC 9000, section 4 of RFC 9221). */
module FrameGrammar {
  import opened Options
  import opened Buffers
  import opened Frames
  import opened FrameCodec

  // ------------------------------------------------------------------ integers

  /** The two top bits of a form with `n` bytes after the first. */
  function Tag(n: nat): nat { if n == 0 then 0 else if n == 1 then 1 else if n == 3 then 2 else 3 }

  /** A variable-length integer in the form with `n` bytes after the first. */
  predicate FormOf(b: Bytes, v: int, n: nat) {
    (n == 0 || n == 1 || n == 3 || n == 7) && 0 <= v < Scale(64, n) && b == ToBytes(v + Scale(Tag(n) * 64, n), n + 1)
  }

  /** In any of the four forms, the shortest or not. */
  ghost predicate IsVarint(b: Bytes, v: int) { exists n: nat :: FormOf(b, v, n) }

  lemma FormIsPulled(b: Bytes, v: int, rest: Bytes)
    requires IsVarint(b, v)
    ensures PullVarint(b + rest) == Ok((v, rest))
  {
    hide PullVarint, ToBytes, Scale;
    var n: nat :| FormOf(b, v, n);
    TaggedRoundTrip(v, Tag(n), n, rest);
  }

  lemma {:induction false} ScaleAdds(a: nat, b: nat, n: nat)
    ensures Scale(a + b, n) == Scale(a, n) + Scale(b, n)
  {
    if n > 0 { ScaleAdds(a, b, n - 1); }
  }

  /** What was pulled is one of the forms of its value. */
  lemma PulledIsForm(b: Bytes)
    requires PullVarint(b).Ok?
    ensures var (v, rest) := PullVarint(b).value;
            |rest| < |b| && b == b[..|b| - |rest|] + rest && IsVarint(b[..|b| - |rest|], v)
  {
    hide ToBytes, Fold, Scale;
    var (v, rest) := PullVarint(b).value;
    var first, n := b[0], FormLength(b[0]) - 1;
    var more := b[1..][..n];
    var tag := first / 64;
    assert rest == b[1..][n..] && b[..n + 1] == [first] + more;
    FoldIsSum(first, more);
    FoldIsSum(first % 64, more);
    ScaleAdds(tag * 64, first % 64, n);
    FoldBound(first % 64, 64, more);
    FirstDigit(first, more);
    FixedWidthInverse(0, [first] + more);
    assert FormOf(b[..n + 1], v, n);
  }

  lemma FirstDigit(first: Byte, more: Bytes)
    ensures Fold(0, [first] + more) == Fold(first, more)
  {
    FoldConcat(0, [first], more);
    assert Fold(0, [first]) == first by { assert [first][..0] == []; }
  }

  // ------------------------------------------------------------------- fields

  datatype Field = Int(value: int) | Raw(bytes: Bytes)

  /** The bytes begin with the fields, integers in any form, and leave the rest. */
  ghost predicate Spells(b: Bytes, fields: seq<Field>, rest: Bytes)
    decreases |fields|
  {
    if fields == [] then b == rest
    else
      match fields[0]
      case Raw(d) => d <= b && Spells(b[|d|..], fields[1..], rest)
      case Int(v) => exists k :: StartsInt(b, v, k) && Spells(b[k..], fields[1..], rest)
  }

  ghost predicate StartsInt(b: Bytes, v: int, k: int) { 0 < k <= |b| && IsVarint(b[..k], v) }

  lemma SpellsInt(b: Bytes, v: int, fs: seq<Field>, rest: Bytes)
    ensures Spells(b, [Int(v)] + fs, rest)
            <==> PullVarint(b).Ok? && PullVarint(b).value.0 == v && Spells(PullVarint(b).value.1, fs, rest)
  {
    hide PullVarint, IsVarint;
    var all := [Int(v)] + fs;
    assert all[0] == Int(v) && all[1..] == fs;
    if Spells(b, all, rest) {
      var k :| StartsInt(b, v, k) && Spells(b[k..], fs, rest);
      assert b == b[..k] + b[k..];
      FormIsPulled(b[..k], v, b[k..]);
    }
    if PullVarint(b).Ok? && PullVarint(b).value.0 == v && Spells(PullVarint(b).value.1, fs, rest) {
      PulledIsForm(b);
      var left := PullVarint(b).value.1;
      var k := |b| - |left|;
      assert b[k..] == left;
      assert StartsInt(b, v, k);
    }
  }

  lemma SpellsRaw(b: Bytes, d: Bytes, fs: seq<Field>, rest: Bytes)
    ensures Spells(b, [Raw(d)] + fs, rest)
            <==> PullBytes(b, |d|).Ok? && PullBytes(b, |d|).value.0 == d && Spells(PullBytes(b, |d|).value.1, fs, rest)
  {
    var all := [Raw(d)] + fs;
    assert all[0] == Raw(d) && all[1..] == fs;
  }

  lemma SpellsNone(b: Bytes, rest: Bytes)
    ensures Spells(b, [], rest) <==> b == rest
  {
  }

  // ------------------------------------------------------------------- layouts

  function RangeFields(low: int, ranges: seq<AckRange>): seq<Field>
    decreases |ranges|
  {
    if ranges == [] then []
    else [Int(low - ranges[0].high - 2)]
         + ([Int(ranges[0].high - ranges[0].low)] + RangeFields(ranges[0].low, ranges[1..]))
  }

  function EcnFields(ecn: Option<EcnCounts>): seq<Field> {
    if ecn.None? then [] else [Int(ecn.value.ect0)] + ([Int(ecn.value.ect1)] + ([Int(ecn.value.ce)] + []))
  }

  function AckFields(f: Frame): seq<Field>
    requires f.Ack? && f.ranges != []
  {
    [Int(f.largest)] + ([Int(f.delay)] + ([Int(|f.ranges| - 1)] + ([Int(f.largest - f.ranges[0].low)]
    + (RangeFields(f.ranges[0].low, f.ranges[1..]) + EcnFields(f.ecn)))))
  }

  function BlockFields(data: Bytes): seq<Field> { [Int(|data|)] + ([Raw(data)] + []) }

  /** The fields after the type, where a frame can be sent with the type. */
  function Layout(t: int, f: Frame): Option<seq<Field>> {
    match f
    case Padding(n) => if t == 0x00 && n > 0 then Some([Raw(Zeros(n - 1))] + []) else None
    case Ping => if t == 0x01 then Some([]) else None
    case Ack(largest, delay, ranges, ecn) =>
      if t == (if ecn.None? then 0x02 else 0x03) && ranges != [] && ranges[0].high == largest then
        Some(AckFields(f))
      else None
    case ResetStream(id, code, size) => if t == 0x04 then Some([Int(id)] + ([Int(code)] + ([Int(size)] + []))) else None
    case StopSending(id, code) => if t == 0x05 then Some([Int(id)] + ([Int(code)] + [])) else None
    case Crypto(offset, data) => if t == 0x06 then Some([Int(offset)] + BlockFields(data)) else None
    case NewToken(token) => if t == 0x07 then Some(BlockFields(token)) else None
    case Stream(id, offset, data, fin) =>
      // 0x08 with OFF 0x04, LEN 0x02 and FIN 0x01
      if t == (if fin then 0x09 else 0x08) && offset == 0 then Some([Int(id)] + ([Raw(data)] + []))
      else if t == (if fin then 0x0B else 0x0A) && offset == 0 then Some([Int(id)] + BlockFields(data))
      else if t == (if fin then 0x0D else 0x0C) then Some([Int(id)] + ([Int(offset)] + ([Raw(data)] + [])))
      else if t == (if fin then 0x0F else 0x0E) then Some([Int(id)] + ([Int(offset)] + BlockFields(data)))
      else None
    case MaxData(v) => if t == 0x10 then Some([Int(v)] + []) else None
    case MaxStreamData(id, v) => if t == 0x11 then Some([Int(id)] + ([Int(v)] + [])) else None
    case MaxStreams(v, bidi) => if t == (if bidi then 0x12 else 0x13) then Some([Int(v)] + []) else None
    case DataBlocked(v) => if t == 0x14 then Some([Int(v)] + []) else None
    case StreamDataBlocked(id, v) => if t == 0x15 then Some([Int(id)] + ([Int(v)] + [])) else None
    case StreamsBlocked(v, bidi) => if t == (if bidi then 0x16 else 0x17) then Some([Int(v)] + []) else None
    case NewConnectionId(sequence, prior, cid, token) =>
      if t == 0x18 && |cid| < 256 && |token| == 16 then
        Some([Int(sequence)] + ([Int(prior)] + ([Raw([|cid|])] + ([Raw(cid)] + ([Raw(token)] + [])))))
      else None
    case RetireConnectionId(v) => if t == 0x19 then Some([Int(v)] + []) else None
    case PathChallenge(data) => if t == 0x1A && |data| == 8 then Some([Raw(data)] + []) else None
    case PathResponse(data) => if t == 0x1B && |data| == 8 then Some([Raw(data)] + []) else None
    case ConnectionClose(code, reason, kind) =>
      if t == 0x1C && kind.Some? then Some([Int(code)] + ([Int(kind.value)] + BlockFields(reason)))
      else if t == 0x1D && kind.None? then Some([Int(code)] + BlockFields(reason))
      else None
    case HandshakeDone => if t == 0x1E then Some([]) else None
    case Datagram(data) =>
      if t == 0x30 then Some([Raw(data)] + []) else if t == 0x31 then Some(BlockFields(data)) else None
  }

  /** Types whose data runs to the end of the packet. */
  predicate ToEnd(t: int) { t == 0x08 || t == 0x09 || t == 0x0C || t == 0x0D || t == 0x30 }

  ghost predicate Grounded(f: Frame) { f.Ack? ==> AllNonNegative(f.ranges) }

  /** After its type, the bytes are the frame's fields and then the rest; padding takes
      every zero byte there is. */
  ghost predicate Carries(t: int, f: Frame, b: Bytes, rest: Bytes) {
    && Layout(t, f).Some? && Spells(b, Layout(t, f).value, rest) && Grounded(f)
    && (ToEnd(t) ==> rest == []) && (t == 0x00 ==> rest == [] || rest[0] != 0)
  }

  // ------------------------------------------------ the parser, one kind at a time

  lemma OneInt(b: Bytes, x: int, rest: Bytes)
    ensures Spells(b, [Int(x)] + [], rest) <==> PullVarint(b) == Ok((x, rest))
  {
    hide PullVarint, Spells;
    SpellsInt(b, x, [], rest);
    if PullVarint(b).Ok? { SpellsNone(PullVarint(b).value.1, rest); }
  }

  lemma TwoInts(b: Bytes, x: int, y: int, rest: Bytes)
    ensures Spells(b, [Int(x)] + ([Int(y)] + []), rest)
            <==> PullVarint(b).Ok? && PullVarint(b).value.0 == x && PullVarint(PullVarint(b).value.1) == Ok((y, rest))
  {
    hide PullVarint, Spells;
    SpellsInt(b, x, [Int(y)] + [], rest);
    if PullVarint(b).Ok? { OneInt(PullVarint(b).value.1, y, rest); }
  }

  lemma OneRaw(b: Bytes, d: Bytes, rest: Bytes)
    ensures Spells(b, [Raw(d)] + [], rest) <==> PullBytes(b, |d|) == Ok((d, rest))
  {
    hide Spells;
    SpellsRaw(b, d, [], rest);
    if PullBytes(b, |d|).Ok? { SpellsNone(PullBytes(b, |d|).value.1, rest); }
  }

  lemma OneBlock(b: Bytes, d: Bytes, rest: Bytes)
    ensures Spells(b, BlockFields(d), rest) <==> PullBlock(b) == Ok((d, rest))
  {
    hide PullVarint, Spells;
    SpellsInt(b, |d|, [Raw(d)] + [], rest);
    if PullVarint(b).Ok? { OneRaw(PullVarint(b).value.1, d, rest); }
  }

  lemma NumbersAre(t: int, f: Frame, b: Bytes, rest: Bytes)
    requires IsNumbers(t)
    ensures ParseNumbers(t, b) == Ok((f, rest)) <==> Layout(t, f).Some? && Spells(b, Layout(t, f).value, rest)
  {
    hide PullVarint, Spells, AckFields, BlockFields, Zeros;
    match f
    case MaxData(v) => OneInt(b, v, rest);
    case MaxStreams(v, _) => OneInt(b, v, rest);
    case DataBlocked(v) => OneInt(b, v, rest);
    case StreamsBlocked(v, _) => OneInt(b, v, rest);
    case RetireConnectionId(v) => OneInt(b, v, rest);
    case StopSending(x, y) => TwoInts(b, x, y, rest);
    case MaxStreamData(x, y) => TwoInts(b, x, y, rest);
    case StreamDataBlocked(x, y) => TwoInts(b, x, y, rest);
    case ResetStream(x, y, z) =>
      SpellsInt(b, x, [Int(y)] + ([Int(z)] + []), rest);
      if PullVarint(b).Ok? { TwoInts(PullVarint(b).value.1, y, z, rest); }
    case _ =>
  }

  lemma DataIs(d: Bytes, b: Bytes, rest: Bytes)
    ensures Spells(b, BlockFields(d), rest) <==> PullBlock(b) == Ok((d, rest))
    ensures Spells(b, [Raw(d)] + [], rest) && rest == [] <==> PullBytes(b, |b|) == Ok((d, rest))
  {
    hide PullVarint, Spells;
    OneBlock(b, d, rest);
    OneRaw(b, d, rest);
    assert b[..|b|] == b && b[|b|..] == [];
  }

  /** With LEN the data is a block; without, it is all that remains. */
  lemma StreamIs(t: int, f: Frame, b: Bytes, rest: Bytes)
    requires 0x08 <= t <= 0x0F
    ensures ParseStream(t, b) == Ok((f, rest))
            <==> Layout(t, f).Some? && Spells(b, Layout(t, f).value, rest) && (ToEnd(t) ==> rest == [])
  {
    hide PullVarint, Spells, AckFields, BlockFields, Zeros;
    if f.Stream? {
      var data := if ToEnd(t) then [Raw(f.data)] + [] else BlockFields(f.data);
      var fields := if t >= 0x0C then [Int(f.offset)] + data else data;
      SpellsInt(b, f.id, fields, rest);
      if PullVarint(b).Ok? {
        var b1 := PullVarint(b).value.1;
        if t >= 0x0C {
          SpellsInt(b1, f.offset, data, rest);
          if PullVarint(b1).Ok? { DataIs(f.data, PullVarint(b1).value.1, rest); }
        } else { DataIs(f.data, b1, rest); }
      }
    }
  }

  lemma IdentityIs(b: Bytes, cid: Bytes, token: Bytes, rest: Bytes)
    requires |cid| < 256 && |token| == 16
    ensures Spells(b, [Raw([|cid|])] + ([Raw(cid)] + ([Raw(token)] + [])), rest)
            <==> b != [] && b[0] == |cid| && PullBytes(b[1..], |cid|).Ok? && PullBytes(b[1..], |cid|).value.0 == cid
                 && PullBytes(PullBytes(b[1..], |cid|).value.1, 16) == Ok((token, rest))
  {
    hide Spells;
    SpellsRaw(b, [|cid|], [Raw(cid)] + ([Raw(token)] + []), rest);
    if b != [] {
      SpellsRaw(b[1..], cid, [Raw(token)] + [], rest);
      if |cid| <= |b[1..]| { OneRaw(b[1..][|cid|..], token, rest); }
    }
  }

  lemma ConnectionIdIs(f: Frame, b: Bytes, rest: Bytes)
    ensures ParseNewConnectionId(b) == Ok((f, rest))
            <==> Layout(0x18, f).Some? && Spells(b, Layout(0x18, f).value, rest)
  {
    hide PullVarint, Spells, AckFields, BlockFields, Zeros;
    if f.NewConnectionId? && |f.connectionId| < 256 && |f.resetToken| == 16 {
      var cid, token := f.connectionId, f.resetToken;
      var ids := [Raw([|cid|])] + ([Raw(cid)] + ([Raw(token)] + []));
      SpellsInt(b, f.sequence, [Int(f.retirePriorTo)] + ids, rest);
      if PullVarint(b).Ok? {
        var b1 := PullVarint(b).value.1;
        SpellsInt(b1, f.retirePriorTo, ids, rest);
        if PullVarint(b1).Ok? { IdentityIs(PullVarint(b1).value.1, cid, token, rest); }
      }
    }
  }

  lemma CloseIs(t: int, f: Frame, b: Bytes, rest: Bytes)
    requires t == 0x1C || t == 0x1D
    ensures ParseClose(t, b) == Ok((f, rest)) <==> Layout(t, f).Some? && Spells(b, Layout(t, f).value, rest)
  {
    hide PullVarint, PullBlock, Spells, AckFields, BlockFields, Zeros;
    if f.ConnectionClose? {
      var end := BlockFields(f.reason);
      SpellsInt(b, f.errorCode, if f.frameType.Some? then [Int(f.frameType.value)] + end else end, rest);
      if PullVarint(b).Ok? {
        var b1 := PullVarint(b).value.1;
        OneBlock(b1, f.reason, rest);
        if f.frameType.Some? {
          SpellsInt(b1, f.frameType.value, end, rest);
          if PullVarint(b1).Ok? { OneBlock(PullVarint(b1).value.1, f.reason, rest); }
        }
      }
    }
  }

  lemma CryptoIs(f: Frame, b: Bytes, rest: Bytes)
    ensures ParseCrypto(b) == Ok((f, rest)) <==> Layout(0x06, f).Some? && Spells(b, Layout(0x06, f).value, rest)
  {
    hide PullVarint, PullBlock, Spells, AckFields, BlockFields, Zeros;
    if f.Crypto? {
      SpellsInt(b, f.cryptoOffset, BlockFields(f.cryptoData), rest);
      if PullVarint(b).Ok? { OneBlock(PullVarint(b).value.1, f.cryptoData, rest); }
    }
  }

  lemma BlocksAre(t: int, f: Frame, b: Bytes, rest: Bytes)
    requires t == 0x07 || t == 0x30 || t == 0x31
    ensures ParseBlocks(t, b) == Ok((f, rest))
            <==> Layout(t, f).Some? && Spells(b, Layout(t, f).value, rest) && (ToEnd(t) ==> rest == [])
  {
    hide PullVarint, PullBlock, Spells, AckFields, BlockFields, Zeros;
    if f.NewToken? { OneBlock(b, f.token, rest); }
    if f.Datagram? { DataIs(f.payload, b, rest); }
  }

  // --------------------------------------------------------------------- ACK

  lemma {:induction false} RangesAre(b: Bytes, low: int, ranges: seq<AckRange>, fs: seq<Field>, rest: Bytes)
    ensures Spells(b, RangeFields(low, ranges) + fs, rest) && AllNonNegative(ranges)
            <==> ParseRanges(b, low, |ranges|).Ok? && ParseRanges(b, low, |ranges|).value.0 == ranges
                 && Spells(ParseRanges(b, low, |ranges|).value.1, fs, rest)
    decreases |ranges|
  {
    hide PullVarint, Spells;
    if ranges == [] {
      assert RangeFields(low, ranges) + fs == fs;
    } else {
      var r, others := ranges[0], ranges[1..];
      var later := RangeFields(r.low, others) + fs;
      assert RangeFields(low, ranges) + fs == [Int(low - r.high - 2)] + ([Int(r.high - r.low)] + later);
      assert AllNonNegative(ranges) <==> r.low >= 0 && AllNonNegative(others) by { assert ranges == [r] + others; }
      SpellsInt(b, low - r.high - 2, [Int(r.high - r.low)] + later, rest);
      if PullVarint(b).Ok? {
        var b1 := PullVarint(b).value.1;
        SpellsInt(b1, r.high - r.low, later, rest);
        if PullVarint(b1).Ok? {
          RangesAre(PullVarint(b1).value.1, r.low, others, fs, rest);
          assert [r] + others == ranges;
        }
      }
    }
  }

  lemma EcnIs(b: Bytes, ecn: EcnCounts, rest: Bytes)
    ensures Spells(b, EcnFields(Some(ecn)), rest) <==> ParseEcn(b) == Ok((ecn, rest))
  {
    hide PullVarint, Spells;
    SpellsInt(b, ecn.ect0, [Int(ecn.ect1)] + ([Int(ecn.ce)] + []), rest);
    if PullVarint(b).Ok? { TwoInts(PullVarint(b).value.1, ecn.ect1, ecn.ce, rest); }
  }

  /** The ranges and counts of an ACK, once its first four integers are read. */
  ghost predicate AckEnd(t: int, f: Frame, b: Bytes, count: nat, rest: Bytes)
    requires f.Ack? && f.ranges != []
  {
    && ParseRanges(b, f.ranges[0].low, count).Ok?
    && var (more, end) := ParseRanges(b, f.ranges[0].low, count).value;
       more == f.ranges[1..] && (if t == 0x03 then f.ecn.Some? && ParseEcn(end) == Ok((f.ecn.value, rest))
                                 else f.ecn.None? && end == rest)
  }

  lemma AckEndIs(t: int, f: Frame, b: Bytes, rest: Bytes)
    requires f.Ack? && f.ranges != [] && t == (if f.ecn.None? then 0x02 else 0x03)
    ensures AckEnd(t, f, b, |f.ranges| - 1, rest)
            <==> Spells(b, RangeFields(f.ranges[0].low, f.ranges[1..]) + EcnFields(f.ecn), rest)
                 && AllNonNegative(f.ranges[1..])
  {
    hide PullVarint, Spells, RangeFields, EcnFields, ParseRanges, ParseEcn, AllNonNegative;
    var low, others := f.ranges[0].low, f.ranges[1..];
    RangesAre(b, low, others, EcnFields(f.ecn), rest);
    if ParseRanges(b, low, |others|).Ok? {
      var end := ParseRanges(b, low, |others|).value.1;
      if f.ecn.Some? { EcnIs(end, f.ecn.value, rest); } else { NoEcn(end, rest); }
    }
  }

  lemma NoEcn(b: Bytes, rest: Bytes)
    ensures Spells(b, EcnFields(None), rest) <==> b == rest
  {
  }

  lemma IntPair(b: Bytes, x: int, y: int, fs: seq<Field>, rest: Bytes)
    ensures Spells(b, [Int(x)] + ([Int(y)] + fs), rest)
            <==> && PullVarint(b).Ok? && PullVarint(b).value.0 == x && PullVarint(PullVarint(b).value.1).Ok?
                 && PullVarint(PullVarint(b).value.1).value.0 == y
                 && Spells(PullVarint(PullVarint(b).value.1).value.1, fs, rest)
  {
    hide PullVarint, Spells;
    SpellsInt(b, x, [Int(y)] + fs, rest);
    if PullVarint(b).Ok? { SpellsInt(PullVarint(b).value.1, y, fs, rest); }
  }

  lemma AckReads(t: int, f: Frame, b: Bytes, rest: Bytes)
    requires f.Ack? && f.ranges != [] && f.ranges[0].high == f.largest && t == (if f.ecn.None? then 0x02 else 0x03)
    requires Spells(b, AckFields(f), rest) && AllNonNegative(f.ranges)
    ensures ParseAck(t, b) == Ok((f, rest))
  {
    hide PullVarint, Spells, RangeFields, EcnFields, ParseRanges, ParseEcn;
    var r := f.ranges[0];
    var end := RangeFields(r.low, f.ranges[1..]) + EcnFields(f.ecn);
    var count, first := |f.ranges| - 1, f.largest - r.low;
    IntPair(b, f.largest, f.delay, [Int(count)] + ([Int(first)] + end), rest);
    var b2 := PullVarint(PullVarint(b).value.1).value.1;
    IntPair(b2, count, first, end, rest);
    var b4 := PullVarint(PullVarint(b2).value.1).value.1;
    AckEndIs(t, f, b4, rest);
    assert [AckRange(r.low, f.largest)] + f.ranges[1..] == f.ranges;
  }

  lemma AckIsSpelled(t: int, f: Frame, b: Bytes, rest: Bytes)
    requires (t == 0x02 || t == 0x03) && ParseAck(t, b) == Ok((f, rest))
    ensures f.Ack? && f.ranges != [] && f.ranges[0].high == f.largest && t == (if f.ecn.None? then 0x02 else 0x03)
    ensures Spells(b, AckFields(f), rest) && AllNonNegative(f.ranges)
  {
    hide PullVarint, Spells, RangeFields, EcnFields, ParseRanges, ParseEcn;
    var b2 := PullVarint(PullVarint(b).value.1).value.1;
    var b4 := PullVarint(PullVarint(b2).value.1).value.1;
    var first := PullVarint(PullVarint(b2).value.1).value.0;
    var more := ParseRanges(b4, f.largest - first, PullVarint(b2).value.0).value.0;
    assert f.ranges == [AckRange(f.largest - first, f.largest)] + more;
    assert f.ranges[1..] == more;
    AckEndIs(t, f, b4, rest);
    var end := RangeFields(f.ranges[0].low, more) + EcnFields(f.ecn);
    IntPair(b2, |more|, first, end, rest);
    IntPair(b, f.largest, f.delay, [Int(|more|)] + ([Int(first)] + end), rest);
  }

  lemma AckIs(t: int, f: Frame, b: Bytes, rest: Bytes)
    requires t == 0x02 || t == 0x03
    ensures ParseAck(t, b) == Ok((f, rest))
            <==> Layout(t, f).Some? && Spells(b, Layout(t, f).value, rest) && Grounded(f)
  {
    hide ParseAck, Spells, AckFields, BlockFields, Zeros;
    if Layout(t, f).Some? && Spells(b, Layout(t, f).value, rest) && Grounded(f) { AckReads(t, f, b, rest); }
    if ParseAck(t, b) == Ok((f, rest)) { AckIsSpelled(t, f, b, rest); }
  }

  lemma AckTypes(t: int, f: Frame)
    requires f.Ack?
    ensures Layout(t, f).Some? ==> t == 0x02 || t == 0x03
  {
  }

  // ------------------------------------------------------------ frames and payloads

  lemma PathIs(t: int, f: Frame, b: Bytes, rest: Bytes)
    requires t == 0x1A || t == 0x1B
    ensures ParsePath(t, b) == Ok((f, rest)) <==> Layout(t, f).Some? && Spells(b, Layout(t, f).value, rest)
  {
    hide Spells, AckFields, BlockFields, Zeros;
    if f.PathChallenge? { OneRaw(b, f.challenge, rest); }
    if f.PathResponse? { OneRaw(b, f.response, rest); }
  }

  /** The types without fields, and those there are not. */
  lemma BareIs(t: int, f: Frame, b: Bytes, rest: Bytes)
    requires t == 0x01 || t == 0x1E || t < 0 || 0x1E < t < 0x30 || 0x31 < t
    ensures Layout(t, f).Some? && Spells(b, Layout(t, f).value, rest)
            <==> (t == 0x01 && f == Ping && b == rest) || (t == 0x1E && f == HandshakeDone && b == rest)
  {
    hide Spells, AckFields, BlockFields, Zeros;
    SpellsNone(b, rest);
  }

  lemma PaddingIs(f: Frame, b: Bytes, rest: Bytes)
    ensures ParseBody(0x00, b) == Ok((f, rest)) <==> Carries(0x00, f, b, rest)
  {
    hide Spells, AckFields, BlockFields, Zeros, ZeroRun;
    if f.Padding? && f.length > 0 {
      var n := f.length - 1;
      OneRaw(b, Zeros(n), rest);
      if Carries(0x00, f, b, rest) {
        assert b == Zeros(n) + rest;
        ZeroRunOfZeros(n, rest);
      }
      if ParseBody(0x00, b) == Ok((f, rest)) {
        ZeroRunIsMaximal(b);
        ZeroRunIsZeros(b);
      }
    }
  }

  lemma {:induction false} ZeroRunIsZeros(b: Bytes)
    ensures b[..ZeroRun(b)] == Zeros(ZeroRun(b))
    decreases |b|
  {
    if b != [] && b[0] == 0 {
      var n := ZeroRun(b[1..]);
      ZeroRunIsZeros(b[1..]);
      assert b[..n + 1] == [0] + b[1..][..n];
    }
  }

  /** A body is parsed as a frame exactly when it is spelled out by the frame's fields,
      whatever forms the integers take and whichever type of several the frame has. */
  lemma BodyIsExact(t: int, f: Frame, b: Bytes, rest: Bytes)
    ensures ParseBody(t, b) == Ok((f, rest)) <==> Carries(t, f, b, rest)
  {
    hide ParseAck, ParseNumbers, ParseCrypto, ParseStream, ParseNewConnectionId, ParseClose, ParseBlocks, ParsePath;
    hide Spells, Layout, ZeroRun;
    if f.Ack? { AckTypes(t, f); }
    if t == 0x00 { PaddingIs(f, b, rest); }
    else if t == 0x02 || t == 0x03 { AckIs(t, f, b, rest); }
    else if IsNumbers(t) { NumbersAre(t, f, b, rest); }
    else if t == 0x06 { CryptoIs(f, b, rest); }
    else if 0x08 <= t <= 0x0F { StreamIs(t, f, b, rest); }
    else if t == 0x18 { ConnectionIdIs(f, b, rest); }
    else if t == 0x1A || t == 0x1B { PathIs(t, f, b, rest); }
    else if t == 0x1C || t == 0x1D { CloseIs(t, f, b, rest); }
    else if t == 0x07 || t == 0x30 || t == 0x31 { BlocksAre(t, f, b, rest); }
    else { BareIs(t, f, b, rest); }
  }

  ghost predicate FrameOf(b: Bytes, f: Frame, rest: Bytes) { b != [] && Carries(b[0], f, b[1..], rest) }

  lemma ShortType(b: Bytes)
    requires b != [] && b[0] < 64
    ensures PullVarint(b) == Ok((b[0], b[1..]))
  {
    assert b[1..][..0] == [] && b[1..][0..] == b[1..];
  }

  lemma NoType()
    ensures PullVarint([]).Err?
  {
  }

  lemma UnknownType(t: int, f: Frame, b: Bytes, rest: Bytes)
    requires t >= 64
    ensures ParseBody(t, b).Err? && !Carries(t, f, b, rest)
  {
    hide Spells;
  }

  lemma LongType(b: Bytes)
    requires b != [] && b[0] >= 64 && PullVarint(b).Ok?
    ensures |b| - |PullVarint(b).value.1| > 1
  {
  }

  /** A frame is parsed exactly when its type, in one byte, and its fields are there. */
  lemma FrameIsExact(b: Bytes, f: Frame, rest: Bytes)
    ensures ParseFrame(b) == Ok((f, rest)) <==> FrameOf(b, f, rest)
  {
    hide PullVarint, ParseBody, Carries;
    if b != [] && b[0] < 64 {
      ShortType(b);
      BodyIsExact(b[0], f, b[1..], rest);
    } else if b == [] {
      NoType();
    } else {
      UnknownType(b[0], f, b[1..], rest);
      if PullVarint(b).Ok? {
        LongType(b);
        var (t, left) := PullVarint(b).value;
        if t >= 64 { UnknownType(t, f, left, rest); }
      }
    }
  }

  /** A payload that is the frames, one after another, in any of their forms. */
  ghost predicate PayloadOf(b: Bytes, fs: seq<Frame>)
    decreases |fs|
  {
    if fs == [] then b == [] else exists rest :: FrameOf(b, fs[0], rest) && PayloadOf(rest, fs[1..])
  }

  lemma {:induction false} AllIsExact(b: Bytes, fs: seq<Frame>)
    ensures ParseAll(b) == Ok(fs) <==> PayloadOf(b, fs)
    decreases |fs|
  {
    hide ParseFrame, FrameOf;
    if fs != [] && PayloadOf(b, fs) {
      var rest :| FrameOf(b, fs[0], rest) && PayloadOf(rest, fs[1..]);
      FrameIsExact(b, fs[0], rest);
      AllIsExact(rest, fs[1..]);
      assert [fs[0]] + fs[1..] == fs;
    }
    if b != [] && ParseAll(b) == Ok(fs) {
      var (f, rest) := ParseFrame(b).value;
      assert fs[0] == f && fs[1..] == ParseAll(rest).value;
      FrameIsExact(b, f, rest);
      AllIsExact(rest, fs[1..]);
    }
  }

  /** A payload is accepted exactly when it is a frame or more, each spelled out in full,
      and the frames are those. */
  lemma PayloadIsExact(payload: Bytes, fs: seq<Frame>)
    ensures ParseFrames(payload) == Ok(fs) <==> payload != [] && PayloadOf(payload, fs)
  {
    AllIsExact(payload, fs);
  }

  /** A STREAM frame without a length is all the data to the end of the packet, with the
      identifier and the offset in any form. */
  lemma StreamToTheEnd(t: int, idBytes: Bytes, id: nat, offsetBytes: Bytes, offset: nat, data: Bytes)
    requires t == 0x08 || t == 0x09 || t == 0x0C || t == 0x0D
    requires IsVarint(idBytes, id)
    requires if t >= 0x0C then IsVarint(offsetBytes, offset) else offsetBytes == [] && offset == 0
    ensures ParseBody(t, idBytes + (offsetBytes + data)) == Ok((Stream(id, offset, data, t % 2 == 1), []))
  {
    hide PullVarint;
    FormIsPulled(idBytes, id, offsetBytes + data);
    if t >= 0x0C { FormIsPulled(offsetBytes, offset, data); } else { assert [] + data == data; }
    assert data[..|data|] == data;
  }

  /** A DATAGRAM frame without a length likewise; with one, it is as long as it says. */
  lemma DatagramToTheEnd(lengthBytes: Bytes, data: Bytes, rest: Bytes)
    requires IsVarint(lengthBytes, |data|)
    ensures ParseBody(0x30, data) == Ok((Datagram(data), []))
    ensures ParseBody(0x31, lengthBytes + (data + rest)) == Ok((Datagram(data), rest))
  {
    hide PullVarint;
    assert data[..|data|] == data;
    FormIsPulled(lengthBytes, |data|, data + rest);
    PullSplit(data, rest);
  }
}
