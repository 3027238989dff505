/** How exact the sizes of Initial and Handshake packets are: when the fixed allowance
    for headers is enough, and when padding reaches 1200 bytes
    (src/dsquic/connection.py, `_build_packet`; section 14.1 of RFC 9000). */
module Allowances {
  import opened Options
  import opened Numbers
  import opened Buffers
  import opened Frames
  import opened Acks
  import opened Crypto
  import opened PacketNumbers
  import opened Headers
  import opened NewReno
  import opened Packing
  import opened Datagrams

  // ------------------------------------------------------------------- expansion

  /** What is left of 1200 bytes beside the trial header. */
  function Remaining(l: Link, width: nat): int
    requires |l.token| <= VARINT_MAX
  {
    MIN_INITIAL_DATAGRAM - LongLength(l, InitialPacket, MIN_INITIAL_DATAGRAM, width)
  }

  /** The trial header measures the real one unless the Length field it leaves room
      for is a byte shorter: an Initial packet padded to 1200 bytes comes out at 1200,
      or at 1199 exactly then, and an unpadded one is no shorter than 1200. */
  lemma InitialIsExpanded(l: Link, width: nat, payload: nat)
    requires LinkOk(l) && 1 <= width <= 4
    ensures var size := PacketSize(l, Some(InitialPacket), width, payload, MIN_INITIAL_DATAGRAM);
            var room := Remaining(l, width);
            && (payload + AEAD_TAG <= room ==> size == if width + room <= 63 then 1199 else 1200)
            && (payload + AEAD_TAG > room ==> size == PacketSize(l, Some(InitialPacket), width, payload, 0) >= 1200)
            && (size < MIN_INITIAL_DATAGRAM <==> payload + AEAD_TAG <= room && width + room <= 63)
  {
  }

  /** A connection that has only Initial keys. */
  function InitialOnly(l: Link, isClient: bool, next: nat, q: Queue): Outbox {
    var idle := Queue([], -1, false, None, Outgoing([], 0, []), [], 0);
    Outbox(l, isClient, Space(true, false, false, next, q), Space(false, false, false, 0, idle),
           Space(false, false, false, 0, idle), Application(false, [], None), 0, [])
  }

  function FramesOf(q: Queue, room: int, ackOnly: bool): seq<Frame> { PendingFrames(q, None, room, ackOnly).2 }

  /** Its datagram is the one Initial packet. */
  lemma InitialDatagram(l: Link, isClient: bool, next: nat, q: Queue, budget: nat, ackOnly: bool)
    requires LinkOk(l) && 0 < budget && next < NUMBER_LIMIT
    ensures var frames := FramesOf(q, l.maxDatagram - HEADER_ALLOWANCE - AEAD_TAG, ackOnly);
            BuildDatagram(InitialOnly(l, isClient, next, q), budget, ackOnly).1
              == if frames == [] then None
                 else Some(PacketSize(l, Some(InitialPacket), |EncodeNumber(next, None)|,
                                      Max(TotalSize(frames), MIN_PAYLOAD), Min(MIN_INITIAL_DATAGRAM, budget)))
  {
    hide PendingFrames, EncodeNumber, TotalSize, LongLength, PaddingFor, CryptoPieces;
    var o := InitialOnly(l, isClient, next, q);
    assert [Initial, Handshake, OneRtt][1..] == [Handshake, OneRtt];
    NothingElse(o, budget, ackOnly);
    var (built, size) := BuildPacket(o, Initial, l.maxDatagram, Min(MIN_INITIAL_DATAGRAM, budget), ackOnly);
    BuildKeepsLink(o, Initial, l.maxDatagram, Min(MIN_INITIAL_DATAGRAM, budget), ackOnly);
    if size.None? { NothingElse(built, budget, ackOnly); }
  }

  lemma NothingElse(o: Outbox, budget: nat, ackOnly: bool)
    requires |o.link.token| <= VARINT_MAX
    requires !CanSend(Handshake, o.handshake) && !CanSend(OneRtt, o.oneRtt)
    ensures Fill(o, [Handshake, OneRtt], 0, budget, ackOnly) == (o, 0)
  {
    assert [Handshake, OneRtt][1..] == [OneRtt] && [OneRtt][1..] == [];
    assert Fill(o, [], 0, budget, ackOnly) == (o, 0);
    assert Fill(o, [OneRtt], 0, budget, ackOnly) == (o, 0);
  }

  // ------------------------------------------------------------ two real datagrams

  function Silent(crypto: Outgoing, held: seq<Piece>, probes: nat): Queue {
    Queue([], -1, false, None, crypto, held, probes)
  }

  lemma FirstNumberWidth()
    ensures |EncodeNumber(0, None)| == 1
  {
    FieldIsShortestSafe(1);
  }

  /** A 1130-byte token and a PING to send: the datagram is one byte short of 1200. */
  lemma ShortInitial(token: Bytes, cid: Bytes)
    requires |token| == 1130 && |cid| == 8
    ensures var l := Link(cid, cid, token, 1, 1200);
            && LinkOk(l)
            && BuildDatagram(InitialOnly(l, true, 0, Silent(Outgoing([], 0, []), [], 1)), 12000, false).1
               == Some(1199)
  {
    hide BuildDatagram, EncodeNumber, PendingFrames;
    var l := Link(cid, cid, token, 1, 1200);
    var q := Silent(Outgoing([], 0, []), [], 1);
    InitialDatagram(l, true, 0, q, 12000, false);
    FirstNumberWidth();
    PingAlone(1120);
    InitialIsExpanded(l, 1, 4);
  }

  lemma PingAlone(room: nat)
    ensures var frames := FramesOf(Silent(Outgoing([], 0, []), [], 1), room, false);
            frames != [] && TotalSize(frames) == 1
  {
    hide Size, Wire;
    TinySize(Ping);
    TotalSizeOne(Ping);
    TotalSizeNone();
    var q := Silent(Outgoing([], 0, []), [], 1);
    assert CryptoPart(q, room, 0) == (q, []);
    assert [] + [] + [Ping] == [Ping];
    assert ProbePart(q, [], room).1 == [Ping];
  }

  /** A 100-byte token and handshake bytes to send: the datagram overruns 1200 bytes. */
  lemma TokenOverruns(token: Bytes, data: Bytes)
    requires |token| == 100 && |data| >= 1104
    ensures var l := Link([], [], token, 1, 1200);
            && LinkOk(l)
            && BuildDatagram(InitialOnly(l, true, 0, Silent(Outgoing(data, 0, []), [], 0)), 12000, false).1
               == Some(1236)
  {
    hide BuildDatagram, EncodeNumber, PendingFrames;
    var l := Link([], [], token, 1, 1200);
    InitialDatagram(l, true, 0, Silent(Outgoing(data, 0, []), [], 0), 12000, false);
    FirstNumberWidth();
    CryptoAlone(data, 1120);
    InitialIsExpanded(l, 1, 1108);
  }

  lemma CryptoLength(offset: nat, data: Bytes)
    requires InRange(offset) && InRange(|data|)
    ensures Size(Frame.Crypto(offset, data)) == 1 + VarintLength(offset) + VarintLength(|data|) + |data|
  {
    hide ToBytes, Varint;
  }

  lemma CryptoAlone(data: Bytes, room: nat)
    requires |data| >= 1104 && room == 1120
    ensures var frames := FramesOf(Silent(Outgoing(data, 0, []), [], 0), room, false);
            frames != [] && TotalSize(frames) == 1108
  {
    hide Size, Wire;
    var f := Frame.Crypto(0, data[..1104]);
    CryptoLength(0, data[..1104]);
    TotalSizeOne(f);
    TotalSizeNone();
    var q := Silent(Outgoing(data, 0, []), [], 0);
    assert CryptoPart(q, room, 0).1 == [f];
    assert [] + [f] + [] == [f];
  }

  // --------------------------------------------------- the exact header allowance

  lemma {:induction false} RangesSize(low: int, ranges: seq<AckRange>)
    requires RangesFit(low, ranges)
    ensures |RangesBody(low, ranges)| <= 16 * |ranges|
    decreases |ranges|
  {
    hide Varint;
    if ranges != [] { RangesSize(ranges[0].low, ranges[1..]); }
  }

  /** An ACK reports at most 32 runs, so it is short. */
  lemma AckSize(q: Queue)
    ensures var ack := BuildAck(q.received, q.largestReceived, q.ackPending, q.ecn);
            ack.Some? ==> Size(ack.value) <= 553
  {
    hide Varint, RangesFit, RangesBody;
    var ack := BuildAck(q.received, q.largestReceived, q.ackPending, q.ecn);
    if ack.Some? && Encodable(ack.value) {
      assert |ack.value.ranges| <= 32;
      RangesSize(ack.value.ranges[0].low, ack.value.ranges[1..]);
    }
  }

  lemma {:induction false} FillerWithin(held: seq<Piece>, room: int)
    requires 1 <= room
    ensures Size(Filler(held, room)) <= room
    decreases |held|
  {
    hide Size;
    if held == [] { TinySize(Ping); } else { FillerWithin(held[1..], room); }
  }

  /** Without application frames nothing overruns a room of a whole datagram: only an
      ACK can leave a probe without room, and none is that long. */
  lemma NoOverrun(q: Queue, room: int, ackOnly: bool)
    requires 1120 <= room < 0x4000_0000
    ensures TotalSize(FramesOf(q, room, ackOnly)) <= room
  {
    hide Size, CryptoPart, AckPart, Filler, BuildAck;
    var (q1, acks) := AckPart(q, room);
    AckFitsRoom(q, room);
    if !ackOnly {
      var (q2, pieces) := CryptoPart(q1, room, TotalSize(acks));
      CryptoFits(q1, room, TotalSize(acks));
      TotalSizeConcat(acks, pieces);
      var early := acks + pieces;
      if !AnyEliciting(early) { Unprobed(q, q1, room); }
      var f := Filler(q2.held, room - TotalSize(early));
      if TotalSize(early) < room { FillerWithin(q2.held, room - TotalSize(early)); }
      TotalSizeOne(f);
      TotalSizeNone();
      TotalSizeConcat(early, ProbePart(q2, early, room).1);
    }
  }

  /** Where nothing chosen elicits an acknowledgement there is at most an ACK. */
  lemma Unprobed(q: Queue, q1: Queue, room: int)
    requires 1120 <= room && !AnyEliciting(AckPart(q, room).1 + CryptoPart(q1, room, TotalSize(AckPart(q, room).1)).1)
    ensures TotalSize(AckPart(q, room).1 + CryptoPart(q1, room, TotalSize(AckPart(q, room).1)).1) <= 553
  {
    hide Size, BuildAck, TakePiece;
    var acks: seq<Frame> := AckPart(q, room).1;
    var pieces: seq<Frame> := CryptoPart(q1, room, TotalSize(acks)).1;
    assert pieces != [] ==> IsAckEliciting((acks + pieces)[|acks|]);
    assert acks + [] == acks;
    AckSize(q);
    TotalSizeNone();
    if acks != [] { TotalSizeOne(acks[0]); }
  }

  function Zeroes(n: nat): Bytes { seq(n, i => 0) }

  /** A CRYPTO frame of exactly the given size. */
  function PieceOfSize(size: nat): Piece
    requires 1120 <= size
  {
    if size <= 16387 then Piece(0, Zeroes(size - 4))
    else if size == 16388 then Piece(64, Zeroes(16383))
    else if size == 16389 then Piece(16384, Zeroes(16382))
    else Piece(0, Zeroes(size - 6))
  }

  lemma ExactFiller(room: nat)
    requires 1120 <= room < 0x4000_0000
    ensures var q := Silent(Outgoing([], 0, []), [PieceOfSize(room)], 1);
            FramesOf(q, room, false) != [] && TotalSize(FramesOf(q, room, false)) == room
  {
    hide Size, Wire;
    var p := PieceOfSize(room);
    var q := Silent(Outgoing([], 0, []), [p], 1);
    var f := Frame.Crypto(p.offset, p.data);
    CryptoLength(p.offset, p.data);
    TotalSizeOne(f);
    TotalSizeNone();
    assert CryptoPart(q, room, 0) == (q, []);
    assert Filler([p], room) == f;
    assert ProbePart(q, [], room).1 == [f];
    assert [] + [] + [f] == [f];
  }

  /** The datagram of a connection with only Initial keys keeps to the configured size. */
  predicate Fits(l: Link, isClient: bool, next: nat, budget: nat, q: Queue, ackOnly: bool)
    requires LinkOk(l)
  {
    var size := BuildDatagram(InitialOnly(l, isClient, next, q), budget, ackOnly).1;
    size.Some? ==> size.value <= l.maxDatagram
  }

  /** The header of the fullest Initial packet. */
  function FullHeader(l: Link, next: nat): nat
    requires LinkOk(l)
  {
    LongLength(l, InitialPacket, l.maxDatagram - HEADER_ALLOWANCE, |EncodeNumber(next, None)|)
  }

  /** Whatever a connection has queued at the Initial level, its datagram fits, exactly
      when the header of the fullest packet keeps to the allowance of 64 bytes. */
  lemma AllowanceIsExact(l: Link, isClient: bool, next: nat, budget: nat)
    requires LinkOk(l) && 0 < budget && next < NUMBER_LIMIT
    ensures (forall q: Queue, ackOnly: bool :: Fits(l, isClient, next, budget, q, ackOnly))
            <==> FullHeader(l, next) <= HEADER_ALLOWANCE
  {
    hide BuildDatagram, EncodeNumber, PendingFrames, LongLength, PacketSize, TotalSize;
    var room := l.maxDatagram - HEADER_ALLOWANCE - AEAD_TAG;
    var width, padTo := |EncodeNumber(next, None)|, Min(MIN_INITIAL_DATAGRAM, budget);
    if FullHeader(l, next) <= HEADER_ALLOWANCE {
      forall q: Queue, ackOnly: bool ensures Fits(l, isClient, next, budget, q, ackOnly) {
        InitialDatagram(l, isClient, next, q, budget, ackOnly);
        NoOverrun(q, room, ackOnly);
        var payload := Max(TotalSize(FramesOf(q, room, ackOnly)), MIN_PAYLOAD);
        SizeByPayload(l, InitialPacket, width, payload, l.maxDatagram, padTo);
        LongLengthMonotone(l, InitialPacket, payload + AEAD_TAG, room + AEAD_TAG, width);
      }
    } else {
      var q := Silent(Outgoing([], 0, []), [PieceOfSize(room)], 1);
      ExactFiller(room);
      InitialDatagram(l, isClient, next, q, budget, false);
      SizeByPayload(l, InitialPacket, width, room, l.maxDatagram, padTo);
      assert !Fits(l, isClient, next, budget, q, false);
    }
  }
}
