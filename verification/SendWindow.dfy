/** The send loop and the congestion window: nothing but probes and acknowledgments goes
    out beyond it, and nothing that may go out is held back
    (src/dsquic/connection.py, `_send_budget` and `datagrams_to_send`; sections 7.5
    and 7.7 of RFC 9002). */
module SendWindow {
  import opened Options
  import opened Numbers
  import opened Buffers
  import opened Frames
  import opened Acks
  import opened NewReno
  import opened Streams
  import opened Managers
  import opened Crypto
  import opened Packing
  import opened Datagrams
  import opened SendLoop

  // ----------------------------------------------------- nothing is held back

  /** A level has a probe to send or CRYPTO bytes. */
  predicate Pending(q: Queue) { q.probes > 0 || q.crypto.pending != [] || q.crypto.retransmit != [] }

  /** The application has a frame that fits a packet of its own. */
  ghost predicate PendingApp(a: Application, room: int) {
    || a.handshakeDone
    || (a.control != [] && Size(a.control[0]) <= room)
    || (a.streams.Some? && exists id :: id in Writable(a.streams.value) && Yields(a.streams.value, id, room))
  }

  ghost predicate Yields(m: Manager, id: nat, room: int) {
    id in m.send && TakeFrame(m, id, room - STREAM_OVERHEAD).1.Some?
  }

  /** A level has keys, a packet number left, and something to send. */
  ghost predicate Ready(o: Outbox, level: Level) {
    && CanSend(level, At(o, level)) && At(o, level).next < PacketNumbers.NUMBER_LIMIT
    && (Pending(At(o, level).queue)
        || (level == OneRtt && PendingApp(o.app, o.link.maxDatagram - HEADER_ALLOWANCE - AEAD_TAG)))
  }

  lemma {:induction false} SomeStream(m: Manager, ids: seq<nat>, room: int, id: nat)
    requires forall i :: i in ids ==> i in m.send
    requires id in ids && Yields(m, id, room) && room > STREAM_OVERHEAD
    ensures StreamFrames(m, ids, room, 0).1 != []
    decreases |ids|
  {
    hide NextFrame, Size;
    if TakeFrame(m, ids[0], room - STREAM_OVERHEAD).1.None? {
      SomeStream(m, ids[1..], room, id);
    }
  }

  lemma AppFrames(a: Application, room: int)
    requires PendingApp(a, room) && room > STREAM_OVERHEAD
    ensures ApplicationFrames(a, room).1 != []
  {
    hide Size, StreamFrames, WritableOf, TakeFrame;
    TotalSizeNone();
    if !a.handshakeDone && ControlCount(a.control, room, 0) == 0 {
      var m := a.streams.value;
      var id :| id in Writable(m) && Yields(m, id, room);
      WritableSends(m.order, m.send);
      SomeStream(m, Writable(m), room, id);
      assert [] + a.control[..0] == [];
    }
  }

  lemma SomeFrames(q: Queue, app: Option<Application>, room: int)
    requires Pending(q) || (app.Some? && PendingApp(app.value, room))
    requires room > STREAM_OVERHEAD
    ensures PendingFrames(q, app, room, false).2 != []
  {
    hide BuildAck, ApplicationFrames, Filler, Size, TakePiece, PendingApp;
    TotalSizeNone();
    PieceTaken(q.crypto, room - CRYPTO_OVERHEAD);
    if AckPart(q, room).1 == [] && app.Some? && PendingApp(app.value, room) {
      AppFrames(app.value, room);
      assert CryptoPart(q, room, 0).1 == [] ==> [] + CryptoPart(q, room, 0).1 == [];
    }
  }

  /** Where there is room and something to send, a CRYPTO frame is taken, as full as
      what is first in line allows. */
  lemma PieceTaken(o: Outgoing, available: nat)
    ensures var piece := TakePiece(o, available).1;
            && (piece.Some? <==> available > 0 && (o.retransmit != [] || o.pending != []))
            && (piece.Some? && o.retransmit != [] ==>
                  && |piece.value.data| == Min(available, |o.retransmit[0].data|)
                  && piece.value.offset == o.retransmit[0].offset)
            && (piece.Some? && o.retransmit == [] ==>
                  |piece.value.data| == Min(available, |o.pending|) && piece.value.offset == o.offsetSent)
  {
  }

  lemma ReadyPacket(o: Outbox, level: Level, padTo: nat)
    requires LinkOk(o.link) && Ready(o, level)
    ensures BuildPacket(o, level, o.link.maxDatagram, padTo, false).1.Some?
  {
    hide PendingFrames, PacketNumbers.EncodeNumber, TotalSize, CryptoPieces, PacketSize, PendingApp, Pending;
    SomeFrames(At(o, level).queue, if level == OneRtt then Some(o.app) else None,
               o.link.maxDatagram - HEADER_ALLOWANCE - AEAD_TAG);
  }

  lemma BuiltIsPositive(o: Outbox, level: Level, room: int, padTo: nat)
    requires |o.link.token| <= VARINT_MAX
    ensures var size := BuildPacket(o, level, room, padTo, false).1; size.Some? ==> size.value > 0
  {
    hide PendingFrames, PacketNumbers.EncodeNumber, TotalSize, CryptoPieces;
  }

  /** Building nothing at an earlier level leaves a later one ready. */
  lemma ReadyStays(o: Outbox, first: Level, padTo: nat, level: Level)
    requires LinkOk(o.link) && Ready(o, level) && first != level && first != OneRtt
    requires BuildPacket(o, first, o.link.maxDatagram, padTo, false).1.None?
    ensures var p := BuildPacket(o, first, o.link.maxDatagram, padTo, false).0; Ready(p, level) && p.link == o.link
  {
    hide PendingFrames, PacketNumbers.EncodeNumber, TotalSize, CryptoPieces, PacketSize, PendingApp, Pending;
    BuildKeepsLink(o, first, o.link.maxDatagram, padTo, false);
    AppStays(At(o, first).queue, None, o.link.maxDatagram - HEADER_ALLOWANCE - AEAD_TAG, false);
  }

  lemma {:induction false} ReadyFills(o: Outbox, levels: seq<Level>, budget: nat, level: Level)
    requires LinkOk(o.link) && level in levels && Ready(o, level)
    requires forall i :: 0 <= i < |levels| - 1 ==> levels[i] != OneRtt
    ensures Fill(o, levels, 0, budget, false).1 > 0
    decreases |levels|
  {
    hide BuildPacket, OutboxWork, Ready, PendingApp;
    var first := levels[0];
    var padTo := if first == Initial then Min(MIN_INITIAL_DATAGRAM, budget) else 0;
    assert forall i :: 0 <= i < |levels[1..]| ==> levels[1..][i] == levels[i + 1];
    ReadyCanSend(o, level);
    if !CanSend(first, At(o, first)) {
      ReadyFills(o, levels[1..], budget, level);
    } else {
      BuildKeepsLink(o, first, o.link.maxDatagram, padTo, false);
      BuiltIsPositive(o, first, o.link.maxDatagram, padTo);
      var (built, size) := BuildPacket(o, first, o.link.maxDatagram, padTo, false);
      if first == level { ReadyPacket(o, level, padTo); }
      if size.None? {
        ReadyStays(o, first, padTo, level);
        ReadyFills(built, levels[1..], budget, level);
      } else if padTo == 0 {
        var sent := if o.isClient && first == Handshake then DropInitial(built) else built;
        DropKeepsLink(built);
        FillDrains(sent, levels[1..], size.value, budget, false);
      }
    }
  }

  lemma ReadyCanSend(o: Outbox, level: Level)
    requires Ready(o, level)
    ensures CanSend(level, At(o, level))
  {
  }

  /** An endpoint that is not paced out and may send to its peer builds a datagram while
      any level is ready, given room in the congestion window or a probe owed: probes
      escape the window, and nothing sendable is held back. */
  lemma ReadyMeansSent(o: Outbox, advice: Advice, k: nat, received: nat, validated: bool, level: Level)
    requires LinkOk(o.link) && Ready(o, level) && !advice(k).1 && (advice(k).0 > 0 || Probes(o) > 0)
    requires o.isClient || validated || o.bytesSent < AMPLIFICATION_FACTOR * received
    ensures SendAll(o, advice, k, received, validated).1 != []
  {
    hide Fill, OutboxWork, Ready;
    var (allowance, paced) := advice(k);
    var budget := SendBudget(o, allowance, received, validated, paced);
    if Probes(o) > 0 { AtLeastOnce(Probes(o), o.link.maxDatagram); }
    assert budget > 0;
    assert level in [Initial, Handshake, OneRtt];
    ReadyFills(o, [Initial, Handshake, OneRtt], budget, level);
  }

  lemma AtLeastOnce(n: nat, m: nat)
    requires n > 0
    ensures n * m >= m
  {
  }

  // ------------------------------------------------------ what a datagram adds

  predicate AcksOnly(fs: seq<Frame>) { forall k :: 0 <= k < |fs| ==> fs[k].Ack? }

  /** Packets from a given one on carry ACK frames only. */
  ghost predicate OnlyAcksFrom(ps: seq<Built>, start: nat) {
    forall i :: start <= i < |ps| ==> AcksOnly(ps[i].frames)
  }

  /** The size of the packets that count as in flight. */
  function Flight(ps: seq<Built>): nat {
    if ps == [] then 0
    else Flight(ps[..|ps| - 1]) + (if AnyEliciting(ps[|ps| - 1].frames) then ps[|ps| - 1].size else 0)
  }

  lemma AckOnlyFrames(q: Queue, app: Option<Application>, room: int)
    ensures AcksOnly(PendingFrames(q, app, room, true).2)
  {
    hide Size;
  }

  lemma ProbesFall(q: Queue, app: Option<Application>, room: int, ackOnly: bool)
    ensures PendingFrames(q, app, room, ackOnly).0.probes <= q.probes
  {
    hide BuildAck, TakePiece, ApplicationFrames, Filler, TotalSize, Size, AnyEliciting;
  }

  lemma FlightAdds(ps: seq<Built>, p: Built)
    ensures Flight(ps) <= Flight(ps + [p]) <= Flight(ps) + p.size
    ensures AcksOnly(p.frames) ==> Flight(ps + [p]) == Flight(ps)
  {
    assert (ps + [p])[..|ps|] == ps;
  }

  /** What building a packet adds to the history. */
  lemma BuildAdds(o: Outbox, level: Level, room: int, padTo: nat, ackOnly: bool)
    requires |o.link.token| <= VARINT_MAX
    ensures var (p, size) := BuildPacket(o, level, room, padTo, ackOnly);
            && o.packets <= p.packets && Probes(p) <= Probes(o)
            && (ackOnly ==> OnlyAcksFrom(p.packets, |o.packets|))
            && Flight(p.packets) <= Flight(o.packets) + (if size.Some? then size.value else 0)
            && (ackOnly ==> Flight(p.packets) == Flight(o.packets))
  {
    hide PendingFrames, PacketNumbers.EncodeNumber, TotalSize, CryptoPieces, PacketSize, Flight, AcksOnly;
    if room > HEADER_ALLOWANCE + AEAD_TAG {
      var s := At(o, level);
      var app := if level == OneRtt then Some(o.app) else None;
      ProbesFall(s.queue, app, room - HEADER_ALLOWANCE - AEAD_TAG, ackOnly);
      AckOnlyFrames(s.queue, app, room - HEADER_ALLOWANCE - AEAD_TAG);
      var p := BuildPacket(o, level, room, padTo, ackOnly).0;
      if p.packets != o.packets { FlightAdds(o.packets, p.packets[|o.packets|]); }
    }
  }

  lemma DropAdds(o: Outbox)
    ensures DropInitial(o).packets == o.packets && Probes(DropInitial(o)) == Probes(o)
    ensures DropInitial(o).link == o.link && DropInitial(o).isClient == o.isClient
  {
  }

  lemma {:induction false} FillAdds(o: Outbox, levels: seq<Level>, total: nat, budget: nat, ackOnly: bool)
    requires |o.link.token| <= VARINT_MAX
    ensures var (p, n) := Fill(o, levels, total, budget, ackOnly);
            && o.packets <= p.packets && Probes(p) <= Probes(o)
            && (ackOnly ==> OnlyAcksFrom(p.packets, |o.packets|) && Flight(p.packets) == Flight(o.packets))
            && Flight(p.packets) <= Flight(o.packets) + n - total
    decreases |levels|
  {
    hide BuildPacket, DropInitial, Probes, Flight, AcksOnly;
    if levels != [] {
      if !CanSend(levels[0], At(o, levels[0])) {
        FillAdds(o, levels[1..], total, budget, ackOnly);
      } else {
        var level := levels[0];
        var padTo := if level == Initial then Min(MIN_INITIAL_DATAGRAM, budget) else 0;
        var room := o.link.maxDatagram - total;
        BuildAdds(o, level, room, padTo, ackOnly);
        BuildKeepsLink(o, level, room, padTo, ackOnly);
        var (built, size) := BuildPacket(o, level, room, padTo, ackOnly);
        DropAdds(built);
        if size.None? {
          FillAdds(built, levels[1..], total, budget, ackOnly);
        } else {
          var sent := if o.isClient && level == Handshake then DropInitial(built) else built;
          if padTo == 0 { FillAdds(sent, levels[1..], total + size.value, budget, ackOnly); }
        }
      }
    }
  }

  lemma DatagramAdds(o: Outbox, budget: int, ackOnly: bool)
    requires LinkOk(o.link)
    ensures var (p, size) := BuildDatagram(o, budget, ackOnly);
            && o.packets <= p.packets && Probes(p) <= Probes(o)
            && (ackOnly ==> OnlyAcksFrom(p.packets, |o.packets|) && Flight(p.packets) == Flight(o.packets))
            && Flight(p.packets) <= Flight(o.packets) + (if size.Some? then size.value else 0)
  {
    hide Fill, Flight, AcksOnly;
    if budget > 0 { FillAdds(o, [Initial, Handshake, OneRtt], 0, budget, ackOnly); }
  }

  // -------------------------------------------------------- the window is kept

  /** With no probe owed, nothing goes out once the congestion window is full. */
  lemma FullWindowBlocks(o: Outbox, advice: Advice, k: nat, received: nat, validated: bool)
    requires LinkOk(o.link) && Probes(o) == 0 && !advice(k).1 && advice(k).0 <= 0
    ensures SendAll(o, advice, k, received, validated) == (o, [])
  {
    hide Fill, OutboxWork;
  }

  /** The outbox before the i-th datagram of a round. */
  function Before(o: Outbox, advice: Advice, k: nat, received: nat, validated: bool, i: nat): (p: Outbox)
    requires LinkOk(o.link)
    ensures LinkOk(p.link)
    decreases i
  {
    if i == 0 then o
    else
      var (allowance, paced) := advice(k);
      var budget := SendBudget(o, allowance, received, validated, paced);
      DatagramFits(o, budget, paced);
      Before(BuildDatagram(o, budget, paced).0, advice, k + 1, received, validated, i - 1)
  }

  /** Over a round: a datagram built with no probe owed and not paced out had room in the
      congestion window, and one built while paced out carries ACK frames only. */
  lemma {:induction false} RoundKeepsWindow(o: Outbox, advice: Advice, k: nat, received: nat, validated: bool, i: nat)
    requires LinkOk(o.link) && i < |SendAll(o, advice, k, received, validated).1|
    ensures var p, q := Before(o, advice, k, received, validated, i), Before(o, advice, k, received, validated, i + 1);
            var (allowance, paced) := advice(k + i);
            && p.packets <= q.packets
            && (!paced && Probes(p) == 0 ==> allowance > 0)
            && (paced ==> OnlyAcksFrom(q.packets, |p.packets|))
    decreases i
  {
    hide Fill, OutboxWork, AcksOnly, LinkOk, Probes;
    var (allowance, paced) := advice(k);
    var budget := SendBudget(o, allowance, received, validated, paced);
    var p := BuildDatagram(o, budget, paced).0;
    DatagramFits(o, budget, paced);
    SendAllStep(o, advice, k, received, validated);
    if i == 0 {
      DatagramAdds(o, budget, paced);
      assert Before(p, advice, k + 1, received, validated, 0) == p;
    } else {
      RoundKeepsWindow(p, advice, k + 1, received, validated, i - 1);
    }
  }

  /** The advice for a datagram allows no more than a limit less what is in flight. */
  ghost predicate HonestAt(o: Outbox, advice: Advice, k: nat, received: nat, validated: bool, limit: int, i: nat)
    requires LinkOk(o.link)
  {
    advice(k + i).0 <= limit - Flight(Before(o, advice, k, received, validated, i).packets)
  }

  ghost predicate Honest(o: Outbox, advice: Advice, k: nat, received: nat, validated: bool, limit: int)
    requires LinkOk(o.link)
  {
    forall i: nat :: i <= |SendAll(o, advice, k, received, validated).1| ==>
      HonestAt(o, advice, k, received, validated, limit, i)
  }

  lemma HonestNext(o: Outbox, advice: Advice, k: nat, received: nat, validated: bool, limit: int)
    requires LinkOk(o.link) && Honest(o, advice, k, received, validated, limit)
    requires SendAll(o, advice, k, received, validated).1 != []
    ensures var (allowance, paced) := advice(k);
            var p := BuildDatagram(o, SendBudget(o, allowance, received, validated, paced), paced).0;
            LinkOk(p.link) && Honest(p, advice, k + 1, received, validated, limit)
  {
    hide Fill, OutboxWork, LinkOk, SendBudget, Flight;
    var (allowance, paced) := advice(k);
    var p := BuildDatagram(o, SendBudget(o, allowance, received, validated, paced), paced).0;
    SendAllStep(o, advice, k, received, validated);
    var next := k + 1;
    forall i: nat | i <= |SendAll(p, advice, next, received, validated).1|
      ensures HonestAt(p, advice, next, received, validated, limit, i)
    {
      assert HonestAt(o, advice, k, received, validated, limit, i + 1);
      assert Before(o, advice, k, received, validated, i + 1) == Before(p, advice, next, received, validated, i);
      assert k + (i + 1) == next + i;
    }
  }

  /** With no probe owed, a round puts less than one datagram in flight beyond what the
      congestion window allows. */
  lemma {:induction false} RoundStaysInWindow(o: Outbox, advice: Advice, k: nat, received: nat, validated: bool,
                                              limit: int)
    requires LinkOk(o.link) && Probes(o) == 0 && Honest(o, advice, k, received, validated, limit)
    ensures var p := SendAll(o, advice, k, received, validated).0;
            Flight(p.packets) > Flight(o.packets) ==>
              Flight(p.packets) < limit + o.link.maxDatagram + |o.link.token|
    decreases OutboxWork(o)
  {
    hide Fill, OutboxWork, LinkOk, Flight, Probes;
    var (allowance, paced) := advice(k);
    var budget := SendBudget(o, allowance, received, validated, paced);
    var (p, size) := BuildDatagram(o, budget, paced);
    DatagramFits(o, budget, paced);
    DatagramDrains(o, budget, paced);
    DatagramAdds(o, budget, paced);
    SendAllStep(o, advice, k, received, validated);
    assert HonestAt(o, advice, k, received, validated, limit, 0);
    assert Before(o, advice, k, received, validated, 0) == o;
    if size.Some? {
      HonestNext(o, advice, k, received, validated, limit);
      RoundStaysInWindow(p, advice, k + 1, received, validated, limit);
    }
  }
}
