/** Building packets and datagrams and the send loop (src/dsquic/connection.py,
    `_build_packet`, `_build_datagram`, `_send_budget` and `datagrams_to_send`;
    sections 8.1, 12.2 and 14.1 of RFC 9000). */
module Datagrams {
  import opened Options
  import opened Numbers
  import opened Buffers
  import opened Frames
  import opened Crypto
  import opened PacketNumbers
  import opened Headers
  import opened Packing
  import opened NewReno

  const HEADER_ALLOWANCE := 64
  const AEAD_TAG := 16
  const MIN_PAYLOAD := 4
  const MIN_INITIAL_DATAGRAM := 1200
  const AMPLIFICATION_FACTOR := 3

  datatype Space = Space(keys: bool, earlyKeys: bool, discarded: bool, next: nat, queue: Queue)

  /** What a connection's headers are made of, and its configured datagram size. */
  datatype Link = Link(peerCid: Bytes, hostCid: Bytes, token: Bytes, version: nat, maxDatagram: nat)

  predicate LinkOk(l: Link) {
    && |l.peerCid| <= MAX_CID_LENGTH && |l.hostCid| <= MAX_CID_LENGTH
    && l.version < 0x1_0000_0000 && |l.token| < 0x4000_0000
    && MIN_INITIAL_DATAGRAM <= l.maxDatagram < 0x4000_0000
  }

  // -------------------------------------------------------------------- packets

  function LongTemplate(l: Link, kind: PacketType): Template {
    Template(kind, l.version, l.peerCid, l.hostCid, if kind == InitialPacket then l.token else [])
  }

  /** The length of a long header; `build_long_header` appends exactly these parts. */
  function LongLength(l: Link, kind: PacketType, payloadLength: nat, width: nat): nat
    requires |l.token| <= VARINT_MAX
  {
    1 + 4 + (1 + |l.peerCid|) + (1 + |l.hostCid|)
    + (if kind == InitialPacket then VarintLength(|l.token|) + |l.token| else 0)
    + VarintLength(width + payloadLength) + width
  }

  lemma LongLengthIsExact(l: Link, kind: PacketType, payloadLength: nat, number: nat, width: nat)
    requires LinkOk(l) && 1 <= width <= 4 && payloadLength < 0x4000_0000
    ensures Buildable(LongTemplate(l, kind), payloadLength, width)
    ensures |BuildLong(LongTemplate(l, kind), payloadLength, number, width)|
         == LongLength(l, kind, payloadLength, width)
  {
    hide ToBytes, Varint;
  }

  /** PADDING bytes that bring the packet up to the size asked for, computed from
      a trial header. */
  function PaddingFor(l: Link, kind: PacketType, width: nat, payload: nat, padTo: nat): nat
    requires |l.token| <= VARINT_MAX
  {
    if padTo == 0 then 0
    else Max(0, padTo - LongLength(l, kind, padTo, width) - payload - AEAD_TAG)
  }

  /** The size of the packet `_build_packet` protects around a payload. */
  function PacketSize(l: Link, kind: Option<PacketType>, width: nat, payload: nat, padTo: nat): nat
    requires |l.token| <= VARINT_MAX
  {
    if kind.None? then 1 + |l.peerCid| + width + payload + AEAD_TAG
    else
      var padded := payload + PaddingFor(l, kind.value, width, payload, padTo);
      LongLength(l, kind.value, padded + AEAD_TAG, width) + padded + AEAD_TAG
  }

  function TokenSize(l: Link, kind: Option<PacketType>): nat {
    if kind == Some(InitialPacket) then |l.token| else 0
  }

  lemma LongLengthBounds(l: Link, kind: PacketType, payloadLength: nat, width: nat)
    requires LinkOk(l) && 1 <= width <= 4 && width + payloadLength < 0x4000_0000
    ensures LongLength(l, kind, payloadLength, width) <= 59 + TokenSize(l, Some(kind))
    ensures l.token == [] ==> LongLength(l, kind, payloadLength, width) <= 56
  {
  }

  lemma VarintLengthMonotone(a: nat, b: nat)
    requires a <= b
    ensures VarintLength(a) <= VarintLength(b)
  {
  }

  /** A packet whose frames overran their room by at most one byte still fits the
      room it was built for, but for the token an Initial packet carries. */
  lemma PacketFits(l: Link, kind: Option<PacketType>, width: nat, frames: nat, room: nat, padTo: nat)
    requires LinkOk(l) && 1 <= width <= 4 && padTo <= room <= l.maxDatagram
    requires room > HEADER_ALLOWANCE + AEAD_TAG && frames <= room - HEADER_ALLOWANCE - AEAD_TAG + 1
    requires kind != Some(InitialPacket) ==> padTo == 0
    ensures PacketSize(l, kind, width, Max(frames, MIN_PAYLOAD), padTo) <= room + TokenSize(l, kind)
    ensures l.token == [] ==> PacketSize(l, kind, width, Max(frames, MIN_PAYLOAD), padTo) <= room
  {
    if kind.Some? {
      var payload := Max(frames, MIN_PAYLOAD);
      var padding := PaddingFor(l, kind.value, width, payload, padTo);
      if padding > 0 {
        VarintLengthMonotone(width + payload + padding + AEAD_TAG, width + padTo);
      } else {
        LongLengthBounds(l, kind.value, payload + AEAD_TAG, width);
      }
    }
  }

  lemma LongLengthMonotone(l: Link, kind: PacketType, a: nat, b: nat, width: nat)
    requires |l.token| <= VARINT_MAX && a <= b
    ensures LongLength(l, kind, a, width) <= LongLength(l, kind, b, width)
  {
    VarintLengthMonotone(width + a, width + b);
  }

  /** Padding never decides whether a packet fits. */
  lemma SizeByPayload(l: Link, kind: PacketType, width: nat, payload: nat, room: nat, padTo: nat)
    requires |l.token| <= VARINT_MAX && padTo <= room
    ensures PacketSize(l, Some(kind), width, payload, padTo) <= room
            <==> LongLength(l, kind, payload + AEAD_TAG, width) + payload + AEAD_TAG <= room
  {
    hide LongLength;
    var padding := PaddingFor(l, kind, width, payload, padTo);
    if padding > 0 {
      LongLengthMonotone(l, kind, payload + padding + AEAD_TAG, padTo, width);
      LongLengthMonotone(l, kind, payload + AEAD_TAG, padTo, width);
    }
  }

  // ------------------------------------------------------------------ datagrams

  /** A packet as it was built. */
  datatype Built = Built(level: Level, frames: seq<Frame>, size: nat)

  /** The sending side of a connection, with the packets it has built so far. */
  datatype Outbox = Outbox(
    link: Link, isClient: bool, initial: Space, handshake: Space, oneRtt: Space, app: Application, bytesSent: nat,
    packets: seq<Built>)

  function At(o: Outbox, level: Level): Space {
    match level
    case Initial => o.initial
    case Handshake => o.handshake
    case OneRtt => o.oneRtt
  }

  function With(o: Outbox, level: Level, s: Space): Outbox {
    match level
    case Initial => o.(initial := s)
    case Handshake => o.(handshake := s)
    case OneRtt => o.(oneRtt := s)
  }

  /** The long packet type of a level, or None for a 1-RTT packet. */
  function KindOf(level: Level, s: Space): Option<PacketType> {
    match level
    case Initial => Some(InitialPacket)
    case Handshake => Some(HandshakePacket)
    case OneRtt => if s.keys then None else Some(ZeroRttPacket)
  }

  function CryptoPieces(fs: seq<Frame>): seq<Piece> {
    if fs == [] then []
    else
      var rest := CryptoPieces(fs[..|fs| - 1]);
      var f := fs[|fs| - 1];
      if f.Crypto? then rest + [Piece(f.cryptoOffset, f.cryptoData)] else rest
  }

  /** `_build_packet`: the outbox after it and the packet's size.  Numbers run out at
      2^62, where the source raises INTERNAL_ERROR. */
  function BuildPacket(o: Outbox, level: Level, room: int, padTo: nat, ackOnly: bool): (Outbox, Option<nat>)
    requires |o.link.token| <= VARINT_MAX
  {
    var s := At(o, level);
    if room <= HEADER_ALLOWANCE + AEAD_TAG then (o, None)
    else
      var app := if level == OneRtt then Some(o.app) else None;
      var (q, app1, frames) := PendingFrames(s.queue, app, room - HEADER_ALLOWANCE - AEAD_TAG, ackOnly);
      var used := With(o, level, s.(queue := q)).(app := if app1.Some? then app1.value else o.app);
      if frames == [] || s.next >= NUMBER_LIMIT then (used, None)
      else
        var width := |EncodeNumber(s.next, None)|;
        var size := PacketSize(o.link, KindOf(level, s), width, Max(TotalSize(frames), MIN_PAYLOAD), padTo);
        (With(used, level, s.(queue := q.(held := q.held + CryptoPieces(frames)), next := s.next + 1))
           .(packets := o.packets + [Built(level, frames, size)]),
         Some(size))
  }

  /** A client drops the Initial space once it has sent a Handshake packet. */
  function DropInitial(o: Outbox): Outbox {
    if o.initial.discarded then o
    else
      var q := o.initial.queue;
      var emptied := q.(crypto := q.crypto.(pending := [], retransmit := []), held := []);
      o.(initial := o.initial.(discarded := true, keys := false, queue := emptied))
  }

  predicate CanSend(level: Level, s: Space) { (s.keys || (level == OneRtt && s.earlyKeys)) && !s.discarded }

  /** One packet per level into what is left of the datagram; an Initial packet fills
      its datagram. */
  function Fill(o: Outbox, levels: seq<Level>, total: nat, budget: nat, ackOnly: bool): (Outbox, nat)
    requires |o.link.token| <= VARINT_MAX
    decreases |levels|
  {
    if levels == [] then (o, total)
    else if !CanSend(levels[0], At(o, levels[0])) then Fill(o, levels[1..], total, budget, ackOnly)
    else
      var level := levels[0];
      var padTo := if level == Initial then Min(MIN_INITIAL_DATAGRAM, budget) else 0;
      var (built, size) := BuildPacket(o, level, o.link.maxDatagram - total, padTo, ackOnly);
      if size.None? then Fill(built, levels[1..], total, budget, ackOnly)
      else
        var sent := if o.isClient && level == Handshake then DropInitial(built) else built;
        if padTo > 0 then (sent, total + size.value)
        else Fill(sent, levels[1..], total + size.value, budget, ackOnly)
  }

  function BuildDatagram(o: Outbox, budget: int, ackOnly: bool): (Outbox, Option<nat>)
    requires LinkOk(o.link)
  {
    if budget <= 0 then (o, None)
    else
      var (p, total) := Fill(o, [Initial, Handshake, OneRtt], 0, budget, ackOnly);
      if total == 0 then (p, None) else (p.(bytesSent := p.bytesSent + total), Some(total))
  }

  // ------------------------------------------------------------ datagrams fit

  lemma BuildKeepsLink(o: Outbox, level: Level, room: int, padTo: nat, ackOnly: bool)
    requires |o.link.token| <= VARINT_MAX
    ensures var p := BuildPacket(o, level, room, padTo, ackOnly).0;
            p.link == o.link && p.isClient == o.isClient && p.bytesSent == o.bytesSent
    ensures var p := BuildPacket(o, level, room, padTo, ackOnly).0;
            forall l :: l != level ==> At(p, l) == At(o, l)
    ensures var (p, size) := BuildPacket(o, level, room, padTo, ackOnly);
            At(p, level).next == At(o, level).next + (if size.Some? then 1 else 0)
  {
    hide PendingFrames, PacketSize, EncodeNumber, CryptoPieces;
  }

  lemma BuiltFits(o: Outbox, level: Level, room: nat, padTo: nat, ackOnly: bool)
    requires LinkOk(o.link) && padTo <= room <= o.link.maxDatagram && (level != Initial ==> padTo == 0)
    ensures var size := BuildPacket(o, level, room, padTo, ackOnly).1;
            size.Some? ==>
              && size.value <= room + (if level == Initial then |o.link.token| else 0)
              && (o.link.token == [] ==> size.value <= room)
  {
    hide PendingFrames, PacketSize, EncodeNumber, CryptoPieces, TotalSize;
    var s := At(o, level);
    if room > HEADER_ALLOWANCE + AEAD_TAG {
      var app := if level == OneRtt then Some(o.app) else None;
      var frames := PendingFrames(s.queue, app, room - HEADER_ALLOWANCE - AEAD_TAG, ackOnly).2;
      FramesFit(s.queue, app, room - HEADER_ALLOWANCE - AEAD_TAG, ackOnly);
      PacketFits(o.link, KindOf(level, s), |EncodeNumber(s.next, None)|, TotalSize(frames), room, padTo);
    }
  }

  /** Levels are tried from Initial up, and an Initial packet is alone. */
  lemma {:induction false} FillFits(o: Outbox, levels: seq<Level>, total: nat, budget: nat, ackOnly: bool)
    requires LinkOk(o.link) && 0 < budget && total <= o.link.maxDatagram
    requires forall k :: 0 <= k < |levels| && levels[k] == Initial ==> k == 0 && total == 0
    ensures var (p, n) := Fill(o, levels, total, budget, ackOnly);
            && p.link == o.link && p.isClient == o.isClient && p.bytesSent == o.bytesSent
            && o.initial.next <= p.initial.next
            && n <= o.link.maxDatagram + (if p.initial.next > o.initial.next then |o.link.token| else 0)
    decreases |levels|
  {
    hide BuildPacket;
    if levels != [] {
      var level := levels[0];
      var padTo := if level == Initial then Min(MIN_INITIAL_DATAGRAM, budget) else 0;
      var room := o.link.maxDatagram - total;
      BuiltFits(o, level, room, padTo, ackOnly);
      BuildKeepsLink(o, level, room, padTo, ackOnly);
      var (built, size) := BuildPacket(o, level, room, padTo, ackOnly);
      assert At(built, Initial) == built.initial && At(o, Initial) == o.initial;
      assert forall k :: 0 <= k < |levels[1..]| ==> levels[1..][k] == levels[k + 1];
      FillFits(o, levels[1..], total, budget, ackOnly);
      FillFits(built, levels[1..], total, budget, ackOnly);
      if size.Some? && padTo == 0 {
        var sent := if o.isClient && level == Handshake then DropInitial(built) else built;
        FillFits(sent, levels[1..], total + size.value, budget, ackOnly);
      }
    }
  }

  /** A datagram keeps to the configured size unless it is an Initial packet, and then
      exceeds it by at most the token. */
  lemma DatagramFits(o: Outbox, budget: int, ackOnly: bool)
    requires LinkOk(o.link)
    ensures var (p, size) := BuildDatagram(o, budget, ackOnly);
            && p.link == o.link && p.isClient == o.isClient && o.initial.next <= p.initial.next
            && (size.Some? ==>
                  0 < size.value
                  <= o.link.maxDatagram + (if p.initial.next > o.initial.next then |o.link.token| else 0))
            && p.bytesSent == o.bytesSent + (if size.Some? then size.value else 0)
  {
    hide Fill;
    if budget > 0 { FillFits(o, [Initial, Handshake, OneRtt], 0, budget, ackOnly); }
  }
}
