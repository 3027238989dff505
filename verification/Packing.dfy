/** Choosing the frames of one packet (src/dsquic/connection.py, `_pending_frames`,
    `_probe_filler` and `_application_frames`; section 13 of RFC 9000). */
module Packing {
  import opened Options
  import opened Numbers
  import opened Buffers
  import opened RangeSets
  import opened Frames
  import opened Acks
  import opened Streams
  import opened Managers
  import opened Totals
  import opened Crypto

  const CRYPTO_OVERHEAD := 16
  const STREAM_OVERHEAD := 24

  /** What one level has to send.  `held` are the CRYPTO frames of packets still
      awaiting acknowledgment, oldest first. */
  datatype Queue = Queue(
    received: seq<Range>, largestReceived: int, ackPending: bool, ecn: Option<EcnCounts>,
    crypto: Outgoing, held: seq<Piece>, probes: nat)

  /** What only the application space carries. */
  datatype Application = Application(handshakeDone: bool, control: seq<Frame>, streams: Option<Manager>)

  /** The length of a frame's encoding; one that does not encode never reaches a packet. */
  function Size(f: Frame): nat { if Encodable(f) then |Wire(f)| else 0 }

  function TotalSize(fs: seq<Frame>): nat {
    if fs == [] then 0 else TotalSize(fs[..|fs| - 1]) + Size(fs[|fs| - 1])
  }

  predicate AnyEliciting(fs: seq<Frame>) { exists k :: 0 <= k < |fs| && IsAckEliciting(fs[k]) }

  // ------------------------------------------------------------------ selection

  /** How many control frames, from the front, fit. */
  function ControlCount(control: seq<Frame>, room: int, used: int): (n: nat)
    ensures n <= |control|
    decreases |control|
  {
    if control == [] || used >= room || Size(control[0]) > room - used then 0
    else 1 + ControlCount(control[1..], room, used + Size(control[0]))
  }

  /** One frame from each writable stream while room lasts. */
  function StreamFrames(m: Manager, ids: seq<nat>, room: int, used: int): (Manager, seq<Frame>)
    requires forall id :: id in ids ==> id in m.send
    decreases |ids|
  {
    if ids == [] || room - used - STREAM_OVERHEAD <= 0 then (m, [])
    else
      var (after, frame) := TakeFrame(m, ids[0], room - used - STREAM_OVERHEAD);
      if frame.None? then StreamFrames(after, ids[1..], room, used)
      else
        var (last, more) := StreamFrames(after, ids[1..], room, used + Size(frame.value));
        (last, [frame.value] + more)
  }

  lemma {:induction false} WritableSends(order: seq<nat>, send: map<nat, Sender>)
    ensures forall id :: id in WritableOf(order, send) ==> id in send && id in order
    decreases |order|
  {
    if order != [] { WritableSends(order[..|order| - 1], send); }
  }

  /** `_application_frames`: HANDSHAKE_DONE, then control frames, then stream data. */
  function ApplicationFrames(a: Application, room: int): (Application, seq<Frame>) {
    var done := if a.handshakeDone then [HandshakeDone] else [];
    var n := ControlCount(a.control, room, TotalSize(done));
    var first := done + a.control[..n];
    var b := Application(false, a.control[n..], a.streams);
    if a.streams.None? then (b, first)
    else
      var m := a.streams.value;
      WritableSends(m.order, m.send);
      var (after, frames) := StreamFrames(m, Writable(m), room, TotalSize(first));
      (b.(streams := Some(after)), first + frames)
  }

  /** `_probe_filler`: the oldest held CRYPTO frame that fits, or a PING. */
  function Filler(held: seq<Piece>, room: int): Frame {
    if held == [] then Ping
    else
      var f := Frame.Crypto(held[0].offset, held[0].data);
      if Size(f) <= room then f else Filler(held[1..], room)
  }

  function AckPart(q: Queue, room: int): (Queue, seq<Frame>) {
    var ack := BuildAck(q.received, q.largestReceived, q.ackPending, q.ecn);
    if ack.Some? && Size(ack.value) <= room then (q.(ackPending := false), [ack.value]) else (q, [])
  }

  function CryptoPart(q: Queue, room: int, used: int): (Queue, seq<Frame>) {
    var available := Max(0, room - used - CRYPTO_OVERHEAD);
    var (out, piece) := TakePiece(q.crypto, available);
    (q.(crypto := out), if piece.None? then [] else [Frame.Crypto(piece.value.offset, piece.value.data)])
  }

  function ProbePart(q: Queue, chosen: seq<Frame>, room: int): (Queue, seq<Frame>) {
    if q.probes == 0 then (q, [])
    else (q.(probes := q.probes - 1), if AnyEliciting(chosen) then [] else [Filler(q.held, room - TotalSize(chosen))])
  }

  /** `_pending_frames`; `app` is None at the levels without application data. */
  function PendingFrames(q: Queue, app: Option<Application>, room: int, ackOnly: bool)
    : (Queue, Option<Application>, seq<Frame>)
  {
    var (q1, acks) := AckPart(q, room);
    if ackOnly then (q1, app, acks)
    else
      var (q2, pieces) := CryptoPart(q1, room, TotalSize(acks));
      var early := acks + pieces;
      if app.None? then
        var (q3, fill) := ProbePart(q2, early, room);
        (q3, None, early + fill)
      else
        var (app1, frames) := ApplicationFrames(app.value, room - TotalSize(early));
        var (q3, fill) := ProbePart(q2, early + frames, room);
        (q3, Some(app1), early + frames + fill)
  }

  // ------------------------------------------------------------ as the source runs

  /** The control loop of `_application_frames`. */
  method ChooseControl(control: seq<Frame>, room: int, start: int) returns (n: nat, used: int)
    ensures n == ControlCount(control, room, start) <= |control|
    ensures used == start + TotalSize(control[..n])
  {
    hide Size;
    n, used := 0, start;
    TotalSizeNone();
    assert control[..0] == [] && control[0..] == control;
    while n < |control| && used < room
      invariant 0 <= n <= |control|
      invariant used == start + TotalSize(control[..n])
      invariant ControlCount(control, room, start) == n + ControlCount(control[n..], room, used)
    {
      var encoded := Size(control[n]);
      if encoded > room - used {
        break;
      }
      assert control[n..][1..] == control[n + 1..];
      assert control[..n + 1][..n] == control[..n];
      used := used + encoded;
      n := n + 1;
    }
  }

  /** The stream loop of `_application_frames`. */
  method ChooseStreams(m: Manager, ids: seq<nat>, room: int, start: int)
    returns (after: Manager, frames: seq<Frame>, used: int)
    requires forall id :: id in ids ==> id in m.send
    ensures after == StreamFrames(m, ids, room, start).0
    ensures frames == StreamFrames(m, ids, room, start).1
    ensures used == start + TotalSize(frames)
  {
    hide Size, TakeFrame;
    after, frames, used := m, [], start;
    TotalSizeNone();
    var i := 0;
    assert ids[0..] == ids;
    while i < |ids|
      invariant 0 <= i <= |ids|
      invariant after.send.Keys == m.send.Keys
      invariant used == start + TotalSize(frames)
      invariant StreamFrames(m, ids, room, start).0 == StreamFrames(after, ids[i..], room, used).0
      invariant StreamFrames(m, ids, room, start).1 == frames + StreamFrames(after, ids[i..], room, used).1
    {
      var available := room - used - STREAM_OVERHEAD;
      if available <= 0 {
        return;
      }
      var (next, frame) := TakeFrame(after, ids[i], available);
      SameStreams(after, ids[i], available);
      assert ids[i..][0] == ids[i] && ids[i..][1..] == ids[i + 1..];
      if frame.Some? {
        TotalSizeOne(frame.value);
        TotalSizeConcat(frames, [frame.value]);
        frames := frames + [frame.value];
        used := used + Size(frame.value);
      }
      after := next;
      i := i + 1;
    }
  }

  // ------------------------------------------------------------- packing bound

  lemma {:induction false} TotalSizeConcat(a: seq<Frame>, b: seq<Frame>)
    ensures TotalSize(a + b) == TotalSize(a) + TotalSize(b)
    decreases |b|
  {
    hide Size;
    if b == [] {
      assert a + b == a;
    } else {
      var n := |b| - 1;
      assert (a + b)[..|a| + n] == a + b[..n];
      TotalSizeConcat(a, b[..n]);
    }
  }

  lemma TotalSizeOne(f: Frame)
    ensures TotalSize([f]) == Size(f)
  {
    assert [f][..0] == [];
  }

  lemma TotalSizeNone()
    ensures TotalSize([]) == 0
  {
  }

  /** The allowances for frame headers hold for data shorter than 2^30 bytes. */
  lemma CryptoSize(offset: nat, data: Bytes)
    requires |data| < 0x4000_0000
    ensures Size(Frame.Crypto(offset, data)) <= |data| + 13
  {
  }

  lemma StreamSize(f: StreamFrame)
    requires |f.data| < 0x4000_0000
    ensures Size(f) <= |f.data| + 21
  {
  }

  lemma TinySize(f: Frame)
    requires f == Ping || f == HandshakeDone
    ensures Size(f) == 1
  {
  }

  lemma {:induction false} ControlFits(control: seq<Frame>, room: int, used: int)
    requires used <= room
    ensures used + TotalSize(control[..ControlCount(control, room, used)]) <= room
    decreases |control|
  {
    hide Size;
    var n := ControlCount(control, room, used);
    if n == 0 {
      assert control[..0] == [];
    } else {
      ControlFits(control[1..], room, used + Size(control[0]));
      assert control[..n] == [control[0]] + control[1..][..n - 1];
      TotalSizeOne(control[0]);
      TotalSizeConcat([control[0]], control[1..][..n - 1]);
    }
  }

  lemma FrameFits(m: Manager, id: nat, maxBytes: int)
    requires id in m.send
    ensures var f := TakeFrame(m, id, maxBytes).1; f.Some? ==> |f.value.data| <= Max(0, maxBytes)
  {
  }

  lemma {:induction false} StreamsFit(m: Manager, ids: seq<nat>, room: int, used: int)
    requires forall id :: id in ids ==> id in m.send
    requires room < 0x4000_0000 && 0 <= used
    ensures used <= room ==> used + TotalSize(StreamFrames(m, ids, room, used).1) <= room
    ensures used > room ==> StreamFrames(m, ids, room, used).1 == []
    decreases |ids|
  {
    hide Size, TakeFrame;
    var max := room - used - STREAM_OVERHEAD;
    if ids != [] && max > 0 {
      var (after, frame) := TakeFrame(m, ids[0], max);
      SameStreams(m, ids[0], max);
      if frame.None? {
        StreamsFit(after, ids[1..], room, used);
      } else {
        FrameFits(m, ids[0], max);
        StreamSize(frame.value);
        StreamsFit(after, ids[1..], room, used + Size(frame.value));
        var more := StreamFrames(after, ids[1..], room, used + Size(frame.value)).1;
        TotalSizeOne(frame.value);
        TotalSizeConcat([frame.value], more);
      }
    } else {
      TotalSizeNone();
    }
  }

  lemma SameStreams(m: Manager, id: nat, maxBytes: int)
    requires id in m.send
    ensures TakeFrame(m, id, maxBytes).0.send.Keys == m.send.Keys
    ensures TakeFrame(m, id, maxBytes).0.order == m.order
  {
  }

  /** HANDSHAKE_DONE is chosen without asking for room, so it may overrun by its one byte. */
  lemma ApplicationFits(a: Application, room: int)
    requires 0 <= room < 0x4000_0000
    ensures var frames := ApplicationFrames(a, room).1;
            || TotalSize(frames) <= room
            || (TotalSize(frames) == 1 && room == 0 && a.handshakeDone && HandshakeDone in frames)
  {
    hide Size, StreamFrames, WritableOf;
    var done := if a.handshakeDone then [HandshakeDone] else [];
    TinySize(HandshakeDone);
    TotalSizeOne(HandshakeDone);
    TotalSizeNone();
    var used := TotalSize(done);
    var n := ControlCount(a.control, room, used);
    if used <= room { ControlFits(a.control, room, used); }
    TotalSizeConcat(done, a.control[..n]);
    var first := done + a.control[..n];
    if a.handshakeDone { assert first[0] == HandshakeDone; }
    if a.streams.Some? {
      var m := a.streams.value;
      WritableSends(m.order, m.send);
      StreamsFit(m, Writable(m), room, TotalSize(first));
      var frames := StreamFrames(m, Writable(m), room, TotalSize(first)).1;
      TotalSizeConcat(first, frames);
      if a.handshakeDone { assert (first + frames)[0] == HandshakeDone; }
    }
  }

  lemma {:induction false} FillerFits(held: seq<Piece>, room: int)
    requires 0 <= room
    ensures Size(Filler(held, room)) <= room + 1
    decreases |held|
  {
    hide Size;
    if held == [] { TinySize(Ping); } else { FillerFits(held[1..], room); }
  }

  lemma CryptoFits(q: Queue, room: int, used: int)
    requires 0 <= used <= room < 0x4000_0000
    ensures used + TotalSize(CryptoPart(q, room, used).1) <= room
  {
    hide Size;
    var available := Max(0, room - used - CRYPTO_OVERHEAD);
    var piece := TakePiece(q.crypto, available).1;
    TotalSizeNone();
    if piece.Some? {
      assert available > 0 && |piece.value.data| <= available;
      CryptoSize(piece.value.offset, piece.value.data);
      TotalSizeOne(Frame.Crypto(piece.value.offset, piece.value.data));
    }
  }

  lemma AckFitsRoom(q: Queue, room: int)
    requires 0 <= room
    ensures TotalSize(AckPart(q, room).1) <= room
  {
    hide Size;
    TotalSizeNone();
    var ack := BuildAck(q.received, q.largestReceived, q.ackPending, q.ecn);
    if ack.Some? { TotalSizeOne(ack.value); }
  }

  /** The frames chosen for a packet encode to at most one byte more than its room. */
  lemma FramesFit(q: Queue, app: Option<Application>, room: int, ackOnly: bool)
    requires 0 <= room < 0x4000_0000
    ensures TotalSize(PendingFrames(q, app, room, ackOnly).2) <= room + 1
  {
    hide Size, CryptoPart, AckPart, ApplicationFrames, Filler;
    var (q1, acks) := AckPart(q, room);
    AckFitsRoom(q, room);
    if !ackOnly {
      var (q2, pieces) := CryptoPart(q1, room, TotalSize(acks));
      CryptoFits(q1, room, TotalSize(acks));
      TotalSizeConcat(acks, pieces);
      var early := acks + pieces;
      if app.None? {
        ProbeFits(q2, early, room);
        TotalSizeConcat(early, ProbePart(q2, early, room).1);
      } else {
        var frames := ApplicationFrames(app.value, room - TotalSize(early)).1;
        ApplicationFits(app.value, room - TotalSize(early));
        TotalSizeConcat(early, frames);
        var chosen := early + frames;
        if TotalSize(chosen) <= room { ProbeFits(q2, chosen, room); }
        else {
          var k :| 0 <= k < |frames| && frames[k] == HandshakeDone;
          assert chosen[|early| + k] == HandshakeDone;
          assert AnyEliciting(chosen);
        }
        TotalSizeNone();
        TotalSizeConcat(chosen, ProbePart(q2, chosen, room).1);
      }
    }
  }

  lemma ProbeFits(q: Queue, chosen: seq<Frame>, room: int)
    requires TotalSize(chosen) <= room
    ensures TotalSize(chosen) + TotalSize(ProbePart(q, chosen, room).1) <= room + 1
  {
    hide Size, Filler;
    TotalSizeNone();
    var f := Filler(q.held, room - TotalSize(chosen));
    TotalSizeOne(f);
    FillerFits(q.held, room - TotalSize(chosen));
  }

  // ---------------------------------------------------------------- the measure

  function QueuedBytes(ps: seq<Piece>): nat {
    if ps == [] then 0 else 1 + |ps[0].data| + QueuedBytes(ps[1..])
  }

  /** Everything a level still has to send. */
  function QueueWork(q: Queue): nat {
    (if q.ackPending then 1 else 0) + |q.crypto.pending| + QueuedBytes(q.crypto.retransmit) + q.probes
  }

  function SenderWork(s: Sender): nat {
    |s.pending| + |s.retransmit| + (if s.finQueued && !s.finSent then 1 else 0)
  }

  function SenderWorks(send: map<nat, Sender>): map<nat, nat> { map id | id in send :: SenderWork(send[id]) }

  function StreamWork(m: Manager): nat { Total(m.order, SenderWorks(m.send)) }

  function ApplicationWork(a: Application): nat {
    (if a.handshakeDone then 1 else 0) + |a.control| + (if a.streams.Some? then StreamWork(a.streams.value) else 0)
  }

  function Work(q: Queue, app: Option<Application>): nat {
    QueueWork(q) + (if app.Some? then ApplicationWork(app.value) else 0)
  }

  lemma {:induction false} TotalDrops(order: seq<nat>, a: map<nat, nat>, b: map<nat, nat>, id: nat)
    requires (forall x: nat :: Get(b, x) <= Get(a, x)) && id in order && Get(b, id) < Get(a, id)
    ensures Total(order, b) < Total(order, a)
    decreases |order|
  {
    var n := |order| - 1;
    if order[n] == id {
      TotalMonotone(order[..n], b, a);
    } else {
      TotalDrops(order[..n], a, b, id);
    }
  }

  lemma NextFrameDrains(s: Sender, maxBytes: int, credit: int)
    ensures var (t, f) := NextFrame(s, maxBytes, credit);
            SenderWork(t) <= SenderWork(s) && (f.Some? ==> SenderWork(t) < SenderWork(s))
  {
  }

  lemma TakeDrains(m: Manager, id: nat, maxBytes: int)
    requires id in m.send && id in m.order
    ensures var (n, f) := TakeFrame(m, id, maxBytes);
            StreamWork(n) <= StreamWork(m) && (f.Some? ==> StreamWork(n) < StreamWork(m))
  {
    hide NextFrame, SenderWork;
    var (n, f) := TakeFrame(m, id, maxBytes);
    NextFrameDrains(m.send[id], maxBytes, m.maxData - m.dataSent);
    if f.Some? {
      var a, b := SenderWorks(m.send), SenderWorks(n.send);
      forall x: nat ensures Get(b, x) <= Get(a, x) {
        assert x in n.send <==> x in m.send;
      }
      TotalDrops(m.order, a, b, id);
    }
  }

  lemma {:induction false} StreamsDrain(m: Manager, ids: seq<nat>, room: int, used: int)
    requires forall id :: id in ids ==> id in m.send && id in m.order
    ensures var (n, fs) := StreamFrames(m, ids, room, used);
            StreamWork(n) + |fs| <= StreamWork(m)
    decreases |ids|
  {
    hide TakeFrame, StreamWork, Size;
    var max := room - used - STREAM_OVERHEAD;
    if ids != [] && max > 0 {
      var (after, frame) := TakeFrame(m, ids[0], max);
      SameStreams(m, ids[0], max);
      TakeDrains(m, ids[0], max);
      StreamsDrain(after, ids[1..], room, if frame.None? then used else used + Size(frame.value));
    }
  }

  lemma ApplicationDrains(a: Application, room: int)
    ensures var (b, fs) := ApplicationFrames(a, room);
            ApplicationWork(b) + |fs| <= ApplicationWork(a)
  {
    hide StreamFrames, WritableOf, StreamWork, ControlCount, TotalSize;
    if a.streams.Some? {
      var m := a.streams.value;
      WritableSends(m.order, m.send);
      var done := if a.handshakeDone then [HandshakeDone] else [];
      var first := done + a.control[..ControlCount(a.control, room, TotalSize(done))];
      StreamsDrain(m, Writable(m), room, TotalSize(first));
    }
  }

  lemma CryptoDrains(q: Queue, room: int, used: int)
    ensures var (r, fs) := CryptoPart(q, room, used);
            && QueueWork(r) + |fs| <= QueueWork(q)
            && r.probes == q.probes && r.held == q.held
  {
    var available := Max(0, room - used - CRYPTO_OVERHEAD);
    var o := q.crypto;
    if o.retransmit != [] && available > 0 {
      var lost := o.retransmit[0];
      var n := Min(available, |lost.data|);
      var cut := [Piece(lost.offset + n, lost.data[n..])];
      assert (cut + o.retransmit[1..])[1..] == o.retransmit[1..];
    }
  }

  /** Every packet built takes at least one unit of work off the queues, and no
      selection adds any. */
  lemma FramesDrain(q: Queue, app: Option<Application>, room: int, ackOnly: bool)
    ensures var (r, b, fs) := PendingFrames(q, app, room, ackOnly);
            && Work(r, b) <= Work(q, app)
            && (fs != [] ==> Work(r, b) < Work(q, app))
  {
    hide CryptoPart, ApplicationFrames, ApplicationWork, Filler, TotalSize, Size, AnyEliciting, BuildAck;
    var (q1, acks) := AckPart(q, room);
    AckDrains(q, room);
    if !ackOnly {
      CryptoDrains(q1, room, TotalSize(acks));
      var (q2, pieces) := CryptoPart(q1, room, TotalSize(acks));
      if app.Some? {
        ApplicationDrains(app.value, room - TotalSize(acks + pieces));
      }
    }
  }

  lemma AckDrains(q: Queue, room: int)
    ensures var (r, fs) := AckPart(q, room); QueueWork(r) + |fs| <= QueueWork(q)
  {
    hide Size;
  }

  // ------------------------------------------------------- nothing is dropped

  function AsFrame(p: Piece): Frame { Frame.Crypto(p.offset, p.data) }

  /** Choosing takes nothing from the queues but what it puts in the packet: the pending
      ACK is settled only by an ACK frame, HANDSHAKE_DONE only by its frame, control
      frames go out in order and the rest stay, CRYPTO bytes leave only in a frame
      that carries them, and a probe is settled only by a packet that elicits an ACK. */
  lemma NothingIsDropped(q: Queue, app: Option<Application>, room: int, ackOnly: bool)
    ensures var (r, b, fs) := PendingFrames(q, app, room, ackOnly);
            && (r.ackPending != q.ackPending ==> q.ackPending && fs != [] && fs[0].Ack?)
            && (r.crypto != q.crypto ==>
                  exists p: Piece, n: nat :: TakePiece(q.crypto, n) == (r.crypto, Some(p)) && AsFrame(p) in fs)
            && (r.probes == q.probes || (r.probes == q.probes - 1 && AnyEliciting(fs)))
            && (b.Some? <==> app.Some?)
            && (app.Some? ==>
                  && (b.value.handshakeDone != app.value.handshakeDone ==> HandshakeDone in fs)
                  && |b.value.control| <= |app.value.control|
                  && var n := |app.value.control| - |b.value.control|;
                     && b.value.control == app.value.control[n..]
                     && Within(app.value.control[..n], fs))
  {
    hide BuildAck, TotalSize, Size, Filler, ApplicationFrames, CryptoPart, AnyEliciting, TakePiece;
    var (q1, acks) := AckPart(q, room);
    AckFirst(q, room);
    if ackOnly {
      if app.Some? { NoneWithin(acks); }
    } else {
      var (q2, pieces) := CryptoPart(q1, room, TotalSize(acks));
      CryptoTakes(q1, room, TotalSize(acks));
      var early := acks + pieces;
      if app.None? {
        ProbeSettles(q2, early, room);
        CryptoStays(q1, q2, acks, pieces, ProbePart(q2, early, room).1);
      } else {
        var frames := ApplicationFrames(app.value, room - TotalSize(early)).1;
        ApplicationTakes(app.value, room - TotalSize(early));
        ProbeSettles(q2, early + frames, room);
        var fill := ProbePart(q2, early + frames, room).1;
        CryptoStays(q1, q2, acks, pieces, frames + fill);
        assert early + frames + fill == early + (frames + fill);
        assert acks + pieces + (frames + fill) == early + (frames + fill);
        var n := |app.value.control| - |ApplicationFrames(app.value, room - TotalSize(early)).0.control|;
        WithinLonger(app.value.control[..n], early, frames, fill);
      }
    }
  }

  /** The frames stand in the packet one after the other. */
  ghost predicate Within(part: seq<Frame>, fs: seq<Frame>) { exists k :: PartAt(part, fs, k) }

  ghost predicate PartAt(part: seq<Frame>, fs: seq<Frame>, k: int) {
    0 <= k && k + |part| <= |fs| && fs[k..k + |part|] == part
  }

  lemma NoneWithin(fs: seq<Frame>)
    ensures forall control: seq<Frame> :: Within(control[..0], fs)
  {
    forall control: seq<Frame> ensures Within(control[..0], fs) {
      assert PartAt(control[..0], fs, 0);
    }
  }

  lemma WithinLonger(part: seq<Frame>, before: seq<Frame>, fs: seq<Frame>, after: seq<Frame>)
    requires Within(part, fs)
    ensures Within(part, before + fs + after)
  {
    var k :| PartAt(part, fs, k);
    var all := before + fs + after;
    assert all[|before| + k..|before| + k + |part|] == fs[k..k + |part|];
    assert PartAt(part, all, |before| + k);
  }

  lemma AckFirst(q: Queue, room: int)
    ensures var (r, fs) := AckPart(q, room);
            && r == q.(ackPending := r.ackPending)
            && (r.ackPending != q.ackPending ==> q.ackPending && fs != [] && fs[0].Ack?)
  {
    hide Size;
  }

  lemma CryptoTakes(q: Queue, room: int, used: int)
    ensures var (r, fs) := CryptoPart(q, room, used);
            && r == q.(crypto := r.crypto)
            && (r.crypto != q.crypto ==>
                  exists p: Piece, n: nat :: TakePiece(q.crypto, n) == (r.crypto, Some(p)) && fs == [AsFrame(p)])
  {
    var n: nat := Max(0, room - used - CRYPTO_OVERHEAD);
    var (out, piece) := TakePiece(q.crypto, n);
    if piece.Some? { assert TakePiece(q.crypto, n) == (out, Some(piece.value)); }
  }

  lemma CryptoStays(q: Queue, r: Queue, acks: seq<Frame>, pieces: seq<Frame>, rest: seq<Frame>)
    requires r.crypto != q.crypto ==>
               exists p: Piece, n: nat :: TakePiece(q.crypto, n) == (r.crypto, Some(p)) && pieces == [AsFrame(p)]
    ensures r.crypto != q.crypto ==>
              exists p: Piece, n: nat :: TakePiece(q.crypto, n) == (r.crypto, Some(p))
                                  && AsFrame(p) in acks + pieces + rest
  {
    hide TakePiece;
    if r.crypto != q.crypto {
      var p: Piece, n: nat :| TakePiece(q.crypto, n) == (r.crypto, Some(p)) && pieces == [AsFrame(p)];
      assert (acks + pieces + rest)[|acks|] == AsFrame(p);
    }
  }

  lemma {:induction false} FillerElicits(held: seq<Piece>, room: int)
    ensures IsAckEliciting(Filler(held, room))
    decreases |held|
  {
    hide Size;
    if held != [] { FillerElicits(held[1..], room); }
  }

  lemma ProbeSettles(q: Queue, chosen: seq<Frame>, room: int)
    ensures var (r, fs) := ProbePart(q, chosen, room);
            && r == q.(probes := r.probes)
            && (r.probes == q.probes || (r.probes == q.probes - 1 && AnyEliciting(chosen + fs)))
  {
    hide Size, Filler, TotalSize;
    var (r, fs) := ProbePart(q, chosen, room);
    FillerElicits(q.held, room - TotalSize(chosen));
    if q.probes > 0 {
      if AnyEliciting(chosen) {
        var k :| 0 <= k < |chosen| && IsAckEliciting(chosen[k]);
        assert IsAckEliciting((chosen + fs)[k]);
      } else {
        assert IsAckEliciting((chosen + fs)[|chosen|]);
      }
    }
  }

  lemma ApplicationTakes(a: Application, room: int)
    ensures var (b, fs) := ApplicationFrames(a, room);
            && (b.handshakeDone != a.handshakeDone ==> HandshakeDone in fs)
            && |b.control| <= |a.control|
            && var n := |a.control| - |b.control|; b.control == a.control[n..] && Within(a.control[..n], fs)
  {
    hide ControlCount, StreamFrames, WritableOf, TotalSize;
    var (b, fs) := ApplicationFrames(a, room);
    var done := if a.handshakeDone then [HandshakeDone] else [];
    var n := ControlCount(a.control, room, TotalSize(done));
    assert |a.control| - |b.control| == n;
    assert fs[|done|..|done| + n] == a.control[..n];
    assert PartAt(a.control[..n], fs, |done|);
    if a.handshakeDone { assert fs[0] == HandshakeDone; }
  }

  /** The control frames chosen are the longest run from the front that fits. */
  lemma {:induction false} ControlIsMaximal(control: seq<Frame>, room: int, used: int)
    ensures var n := ControlCount(control, room, used);
            n < |control| ==> used + TotalSize(control[..n]) >= room
                              || used + TotalSize(control[..n]) + Size(control[n]) > room
    decreases |control|
  {
    hide Size;
    var n := ControlCount(control, room, used);
    if n == 0 {
      TotalSizeNone();
      assert control[..0] == [];
    } else {
      ControlIsMaximal(control[1..], room, used + Size(control[0]));
      assert control[..n] == [control[0]] + control[1..][..n - 1];
      TotalSizeOne(control[0]);
      TotalSizeConcat([control[0]], control[1..][..n - 1]);
    }
  }
}
