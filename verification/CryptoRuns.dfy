/** CRYPTO fidelity: every run of one level's sender, its loss recovery and its peer
    over a network that loses, repeats, delays and reorders packets. */
module CryptoRuns {
  import opened Options
  import opened Numbers
  import opened Buffers
  import opened RangeSets
  import opened Frames
  import opened Acks
  import opened Streams
  import opened Delivery
  import opened Handshakes
  import opened Crypto

  /** `output` is everything TLS has produced; `packets` the CRYPTO frame, if any, of
      every packet sent, by number; `held` the packets recovery holds and `acked`
      those it was told of; `record` and `acks` what the peer received and the ACKs
      it sent; `fed` the byte strings handed to the peer's TLS machine. */
  datatype Level = Level(
    output: Bytes, out: Outgoing, packets: seq<Option<Piece>>, held: set<nat>, acked: set<nat>,
    peer: Incoming, record: seq<Range>, acks: seq<seq<AckRange>>, fed: seq<Bytes>, refused: bool)

  datatype Action =
    | Emits(data: Bytes)        // TLS produces handshake bytes
    | Sends(available: nat)     // a packet with so much room for CRYPTO is built
    | Copies(number: nat)       // a probe carries a copy of a held packet's frame
    | Loses(number: nat)        // recovery gives a packet up: loss or Retry
    | Requeues(number: nat)     // a probe timeout queues a held packet's frame again
    | Arrives(number: nat)      // the network delivers a packet
    | PeerAcks                  // the peer sends an ACK of its record
    | AckArrives(index: nat)    // the network delivers an ACK

  function Start(): Level {
    Level([], Outgoing([], 0, []), [], {}, {}, Incoming([], [], 0), [], [], [], false)
  }

  /** The next packet number is taken and recovery holds the packet. */
  function NewPacket(s: Level, out: Outgoing, piece: Option<Piece>): Level {
    s.(out := out, packets := s.packets + [piece], held := s.held + {|s.packets|})
  }

  /** `_requeue_lost`: the frame goes to the retransmission queue. */
  function Queued(s: Level, n: nat): (t: Level)
    requires n < |s.packets|
    ensures t.held == s.held
  {
    if s.packets[n].None? then s
    else s.(out := s.out.(retransmit := s.out.retransmit + [s.packets[n].value]))
  }

  function Arrival(s: Level, p: Piece): Level {
    var (peer, effect) := OnCrypto(s.peer, p);
    match effect
    case Refused => s.(refused := true)
    case Gap => s.(peer := peer)
    case Feed(data) => s.(peer := peer, fed := s.fed + [data])
  }

  /** `_process_packet` at the peer: a duplicate is dropped, a closed one takes nothing. */
  function Received(s: Level, n: nat): Level
    requires n < |s.packets|
  {
    if s.refused || Covers(s.record, n, n + 1) then s
    else
      var t := s.(record := Insert(s.record, n, n + 1));
      if s.packets[n].None? then t else Arrival(t, s.packets[n].value)
  }

  function Newly(held: set<nat>, ranges: seq<AckRange>): set<nat> {
    set n | n in held && Acknowledges(ranges, n)
  }

  function Act(s: Level, a: Action): Level {
    match a
    case Emits(data) => s.(output := s.output + data, out := s.out.(pending := s.out.pending + data))
    case Sends(available) => NewPacket(s, TakePiece(s.out, available).0, TakePiece(s.out, available).1)
    case Copies(n) => if n in s.held && n < |s.packets| then NewPacket(s, s.out, s.packets[n]) else s
    case Loses(n) =>
      if n in s.held && n < |s.packets| then Queued(s, n).(held := s.held - {n}) else s
    case Requeues(n) => if n in s.held && n < |s.packets| then Queued(s, n) else s
    case Arrives(n) => if n < |s.packets| then Received(s, n) else s
    case PeerAcks =>
      if s.refused || s.record == [] then s else s.(acks := s.acks + [Descending(TopRanges(s.record))])
    case AckArrives(k) =>
      if k >= |s.acks| then s
      else
        var newly := Newly(s.held, s.acks[k]);
        s.(held := s.held - newly, acked := s.acked + newly)
  }

  function Run(acts: seq<Action>): Level {
    if acts == [] then Start() else Act(Run(acts[..|acts| - 1]), acts[|acts| - 1])
  }

  // -------------------------------------------------------------- the invariant

  /** A non-empty cut of the output, below what has been sent. */
  ghost predicate PieceOk(output: Bytes, limit: nat, p: Piece) {
    p.data != [] && EndOf(p) <= limit <= |output| && p.data == output[p.offset..EndOf(p)]
  }

  ghost predicate PiecesOk(output: Bytes, limit: nat, ps: seq<Piece>) {
    forall k :: 0 <= k < |ps| ==> PieceOk(output, limit, ps[k])
  }

  ghost predicate PacketsOk(output: Bytes, limit: nat, packets: seq<Option<Piece>>) {
    forall n :: 0 <= n < |packets| && packets[n].Some? ==> PieceOk(output, limit, packets[n].value)
  }

  ghost predicate SendOk(s: Level) {
    && s.out.offsetSent <= |s.output| && s.out.pending == s.output[s.out.offsetSent..]
    && PiecesOk(s.output, s.out.offsetSent, s.out.retransmit)
    && PacketsOk(s.output, s.out.offsetSent, s.packets)
    && (forall n :: n in s.held ==> n < |s.packets|)
  }

  ghost predicate InPiece(p: Piece, x: int) { p.offset <= x < EndOf(p) }

  ghost predicate InPacket(p: Option<Piece>, x: int) { p.Some? && InPiece(p.value, x) }

  ghost predicate InQueue(ps: seq<Piece>, x: int) { exists k :: 0 <= k < |ps| && InPiece(ps[k], x) }

  ghost predicate Carried(packets: seq<Option<Piece>>, numbers: set<nat>, x: int) {
    exists n :: n in numbers && n < |packets| && InPacket(packets[n], x)
  }

  /** A byte is in an acknowledged frame, queued again, or in a packet recovery holds. */
  ghost predicate ByteKept(s: Level, x: int) {
    Carried(s.packets, s.acked, x) || InQueue(s.out.retransmit, x) || Carried(s.packets, s.held, x)
  }

  ghost predicate Kept(s: Level) { forall x :: 0 <= x < s.out.offsetSent ==> ByteKept(s, x) }

  ghost predicate PeerOk(s: Level, i: Incoming) {
    && Normal(i.received)
    && (forall x :: Has(i.received, x) ==>
          && 0 <= x < s.out.offsetSent <= |s.output| && x < MAX_CRYPTO_BUFFER
          && x < |i.buffer| && i.buffer[x] == s.output[x])
  }

  ghost predicate FedOk(s: Level) {
    && s.peer.readOffset == ContiguousFrom(s.peer.received, 0) <= s.out.offsetSent <= |s.output|
    && Join(s.fed) == s.output[..s.peer.readOffset]
    && (s.refused ==> |s.output| > MAX_CRYPTO_BUFFER)
  }

  /** The peer holds the bytes of a packet. */
  ghost predicate Holds(i: Incoming, p: Option<Piece>) { forall x :: InPacket(p, x) ==> Has(i.received, x) }

  ghost predicate HoldsAt(i: Incoming, packets: seq<Option<Piece>>, n: int) {
    0 <= n < |packets| && Holds(i, packets[n])
  }

  ghost predicate AckSound(i: Incoming, packets: seq<Option<Piece>>, ranges: seq<AckRange>) {
    forall n :: Acknowledges(ranges, n) ==> HoldsAt(i, packets, n)
  }

  /** What the peer recorded, acknowledged, and was heard to acknowledge it holds. */
  ghost predicate Heard(s: Level) {
    && Normal(s.record)
    && (!s.refused ==> forall n :: Has(s.record, n) ==> HoldsAt(s.peer, s.packets, n))
    && (forall k :: 0 <= k < |s.acks| ==> AckSound(s.peer, s.packets, s.acks[k]))
    && (forall n :: n in s.acked ==> HoldsAt(s.peer, s.packets, n))
  }

  ghost predicate Faithful(s: Level) { SendOk(s) && Kept(s) && PeerOk(s, s.peer) && FedOk(s) && Heard(s) }

  // ------------------------------------------------------------- sender's moves

  lemma PieceStays(output: Bytes, limit: nat, more: Bytes, higher: nat)
    requires output <= more && limit <= higher <= |more|
    ensures forall p :: PieceOk(output, limit, p) ==> PieceOk(more, higher, p)
  {
    forall p | PieceOk(output, limit, p) ensures PieceOk(more, higher, p) {
      assert more[p.offset..EndOf(p)] == output[p.offset..EndOf(p)];
    }
  }

  lemma EmitKeeps(s: Level, data: Bytes)
    requires Faithful(s)
    ensures Faithful(Act(s, Emits(data)))
  {
    hide PieceOk, Heard, Has, ContiguousFrom, Join, Normal, Carried, InQueue;
    var t := Act(s, Emits(data));
    assert t.output[s.out.offsetSent..] == s.output[s.out.offsetSent..] + data;
    PieceStays(s.output, s.out.offsetSent, t.output, s.out.offsetSent);
    assert t.output[..s.peer.readOffset] == s.output[..s.peer.readOffset];
    SameHeard(s, t);
    forall x | 0 <= x < t.out.offsetSent ensures ByteKept(t, x) { assert ByteKept(s, x); }
  }

  lemma SameHeard(s: Level, t: Level)
    requires Heard(s) && t.peer == s.peer && t.packets == s.packets && t.record == s.record
    requires t.acks == s.acks && t.acked == s.acked && t.refused == s.refused
    ensures Heard(t)
  {
    hide HoldsAt, Has, AckSound, Normal;
  }

  /** Cutting a queued piece in two gives two pieces of the same output. */
  lemma CutPiece(output: Bytes, limit: nat, p: Piece, n: nat)
    requires PieceOk(output, limit, p) && 0 < n <= |p.data|
    ensures PieceOk(output, limit, Piece(p.offset, p.data[..n]))
    ensures n < |p.data| ==> PieceOk(output, limit, Piece(p.offset + n, p.data[n..]))
  {
    assert output[p.offset..EndOf(p)][..n] == output[p.offset..p.offset + n];
    assert output[p.offset..EndOf(p)][n..] == output[p.offset + n..EndOf(p)];
  }

  /** What `TakePiece` does to the queues: pieces stay pieces of the output, and every
      byte that was queued or is newly sent is in the new piece or still queued. */
  ghost predicate Took(output: Bytes, o: Outgoing, q: Outgoing, p: Option<Piece>) {
    && o.offsetSent <= q.offsetSent <= |output| && q.pending == output[q.offsetSent..]
    && PiecesOk(output, q.offsetSent, q.retransmit)
    && (p.Some? ==> PieceOk(output, q.offsetSent, p.value))
    && (forall x :: InQueue(o.retransmit, x) ==> InPacket(p, x) || InQueue(q.retransmit, x))
    && (forall x :: o.offsetSent <= x < q.offsetSent ==> InPacket(p, x))
  }

  lemma ResendTook(output: Bytes, o: Outgoing, n: nat)
    requires o.offsetSent <= |output| && o.pending == output[o.offsetSent..]
    requires PiecesOk(output, o.offsetSent, o.retransmit) && o.retransmit != [] && 0 < n <= |o.retransmit[0].data|
    ensures var lost, rest := o.retransmit[0], o.retransmit[1..];
            var left := if n < |lost.data| then [Piece(lost.offset + n, lost.data[n..])] + rest else rest;
            Took(output, o, o.(retransmit := left), Some(Piece(lost.offset, lost.data[..n])))
  {
    hide PieceOk, PiecesOk, InQueue;
    var lost, rest := o.retransmit[0], o.retransmit[1..];
    var cut := Piece(lost.offset + n, lost.data[n..]);
    var left := if n < |lost.data| then [cut] + rest else rest;
    assert o.retransmit == [lost] + rest;
    PiecesCons(output, o.offsetSent, lost, rest);
    CutPiece(output, o.offsetSent, lost, n);
    PiecesCons(output, o.offsetSent, cut, rest);
    forall x | InQueue(o.retransmit, x)
      ensures InPacket(Some(Piece(lost.offset, lost.data[..n])), x) || InQueue(left, x)
    {
      InQueueCons(lost, rest, x);
      InQueueCons(cut, rest, x);
    }
  }

  lemma PiecesCons(output: Bytes, limit: nat, p: Piece, ps: seq<Piece>)
    ensures PiecesOk(output, limit, [p] + ps) <==> PieceOk(output, limit, p) && PiecesOk(output, limit, ps)
  {
    hide PieceOk;
    var all := [p] + ps;
    assert all[0] == p && forall k :: 0 <= k < |ps| ==> ps[k] == all[k + 1];
  }

  lemma InQueueCons(p: Piece, ps: seq<Piece>, x: int)
    ensures InQueue([p] + ps, x) <==> InPiece(p, x) || InQueue(ps, x)
  {
    var all := [p] + ps;
    assert all[0] == p;
    if InQueue(ps, x) {
      var k :| 0 <= k < |ps| && InPiece(ps[k], x);
      assert all[k + 1] == ps[k];
    }
    if InQueue(all, x) {
      var k :| 0 <= k < |all| && InPiece(all[k], x);
      assert k > 0 ==> ps[k - 1] == all[k];
    }
  }

  lemma FreshTook(output: Bytes, o: Outgoing, n: nat)
    requires o.offsetSent <= |output| && o.pending == output[o.offsetSent..] && 0 < n <= |o.pending|
    requires PiecesOk(output, o.offsetSent, o.retransmit)
    ensures Took(output, o, o.(pending := o.pending[n..], offsetSent := o.offsetSent + n),
                 Some(Piece(o.offsetSent, o.pending[..n])))
  {
    hide InQueue;
    var mark := o.offsetSent;
    assert output[mark..][n..] == output[mark + n..];
    assert output[mark..][..n] == output[mark..mark + n];
    PieceStays(output, mark, output, mark + n);
  }

  lemma FirstNonEmpty(output: Bytes, limit: nat, ps: seq<Piece>)
    requires PiecesOk(output, limit, ps) && ps != []
    ensures ps[0].data != []
  {
    assert PieceOk(output, limit, ps[0]);
  }

  lemma TakeTook(s: Level, available: nat)
    requires SendOk(s)
    ensures var (q, p) := TakePiece(s.out, available); Took(s.output, s.out, q, p)
  {
    hide PieceOk, Took, InQueue;
    var o := s.out;
    if o.retransmit != [] && available > 0 {
      FirstNonEmpty(s.output, o.offsetSent, o.retransmit);
      ResendTook(s.output, o, Min(available, |o.retransmit[0].data|));
    } else if Min(available, |o.pending|) > 0 {
      FreshTook(s.output, o, Min(available, |o.pending|));
    } else {
      NothingTook(s.output, o);
    }
  }

  lemma NothingTook(output: Bytes, o: Outgoing)
    requires o.offsetSent <= |output| && o.pending == output[o.offsetSent..]
    requires PiecesOk(output, o.offsetSent, o.retransmit)
    ensures Took(output, o, o, None)
  {
    hide PieceOk, InQueue;
  }

  /** A packet around what was taken keeps every byte. */
  lemma NewPacketSends(s: Level, q: Outgoing, p: Option<Piece>)
    requires SendOk(s) && Took(s.output, s.out, q, p)
    ensures SendOk(NewPacket(s, q, p))
  {
    hide InQueue, PieceOk;
    PieceStays(s.output, s.out.offsetSent, s.output, q.offsetSent);
  }

  lemma CarriedGrows(packets: seq<Option<Piece>>, more: seq<Option<Piece>>, a: set<nat>, b: set<nat>, x: int)
    requires Carried(packets, a, x) && packets <= more && a <= b
    ensures Carried(more, b, x)
  {
    var n :| n in a && n < |packets| && InPacket(packets[n], x);
    assert n in b && InPacket(more[n], x);
  }

  lemma NewPacketKept(s: Level, q: Outgoing, p: Option<Piece>)
    requires Kept(s) && Took(s.output, s.out, q, p)
    ensures Kept(NewPacket(s, q, p))
  {
    hide InQueue, PieceOk, Carried;
    var t := NewPacket(s, q, p);
    forall x | 0 <= x < t.out.offsetSent ensures ByteKept(t, x) {
      if InPacket(p, x) {
        LastCarried(t, x);
      } else {
        assert ByteKept(s, x);
        if Carried(s.packets, s.acked, x) { CarriedGrows(s.packets, t.packets, s.acked, t.acked, x); }
        if Carried(s.packets, s.held, x) { CarriedGrows(s.packets, t.packets, s.held, t.held, x); }
      }
    }
  }

  lemma LastCarried(t: Level, x: int)
    requires t.packets != [] && |t.packets| - 1 in t.held && InPacket(t.packets[|t.packets| - 1], x)
    ensures Carried(t.packets, t.held, x)
  {
  }

  /** More packets and a peer that forgets nothing keep what was heard. */
  lemma HoldsGrows(i: Incoming, j: Incoming, packets: seq<Option<Piece>>, more: seq<Option<Piece>>)
    requires packets <= more && forall x :: Has(i.received, x) ==> Has(j.received, x)
    ensures forall n :: HoldsAt(i, packets, n) ==> HoldsAt(j, more, n)
    ensures forall ranges :: AckSound(i, packets, ranges) ==> AckSound(j, more, ranges)
  {
    hide Has, Acknowledges;
  }

  lemma NewPacketKeeps(s: Level, q: Outgoing, p: Option<Piece>)
    requires Faithful(s) && Took(s.output, s.out, q, p)
    ensures Faithful(NewPacket(s, q, p))
  {
    hide SendOk, Kept, Has, ContiguousFrom, Join, HoldsAt, AckSound, Normal, InQueue, PieceOk;
    var t := NewPacket(s, q, p);
    NewPacketSends(s, q, p);
    NewPacketKept(s, q, p);
    HoldsGrows(s.peer, t.peer, s.packets, t.packets);
  }

  /** A probe's copy of a held frame takes nothing from the queues. */
  lemma CopyTook(s: Level, n: nat)
    requires SendOk(s) && n < |s.packets|
    ensures Took(s.output, s.out, s.out, s.packets[n])
  {
    hide PieceOk, InQueue;
  }

  lemma QueuedSends(s: Level, n: nat)
    requires SendOk(s) && n < |s.packets|
    ensures SendOk(Queued(s, n))
  {
    hide PieceOk;
  }

  lemma QueueGrows(ps: seq<Piece>, p: Piece, x: int)
    ensures InQueue(ps, x) || InPiece(p, x) ==> InQueue(ps + [p], x)
  {
    if InQueue(ps, x) {
      var k :| 0 <= k < |ps| && InPiece(ps[k], x);
      assert InPiece((ps + [p])[k], x);
    }
    if InPiece(p, x) { assert InPiece((ps + [p])[|ps|], x); }
  }

  lemma CarriedWithout(packets: seq<Option<Piece>>, numbers: set<nat>, n: nat, x: int)
    requires Carried(packets, numbers, x) && n < |packets| && !InPacket(packets[n], x)
    ensures Carried(packets, numbers - {n}, x)
  {
    var k :| k in numbers && k < |packets| && InPacket(packets[k], x);
    assert k in numbers - {n};
  }

  /** A frame queued again is kept whether or not recovery lets the packet go. */
  lemma QueuedKept(s: Level, n: nat, held: set<nat>)
    requires Kept(s) && n < |s.packets| && (held == s.held || held == s.held - {n})
    ensures Kept(Queued(s, n).(held := held))
  {
    hide Carried, InQueue;
    var t := Queued(s, n).(held := held);
    forall x | 0 <= x < t.out.offsetSent ensures ByteKept(t, x) {
      assert ByteKept(s, x);
      if s.packets[n].Some? { QueueGrows(s.out.retransmit, s.packets[n].value, x); }
      if Carried(s.packets, s.held, x) && !InPacket(s.packets[n], x) { CarriedWithout(s.packets, s.held, n, x); }
    }
  }

  lemma QueuedKeeps(s: Level, n: nat, held: set<nat>)
    requires Faithful(s) && n < |s.packets| && (held == s.held || held == s.held - {n})
    ensures Faithful(Queued(s, n).(held := held))
  {
    hide Kept, Has, ContiguousFrom, Join, Normal, Heard, PieceOk;
    var t := Queued(s, n).(held := held);
    QueuedSends(s, n);
    QueuedKept(s, n, held);
    SameHeard(s, t);
  }

  lemma AckKept(s: Level, newly: set<nat>)
    requires Kept(s) && newly <= s.held
    ensures Kept(s.(held := s.held - newly, acked := s.acked + newly))
  {
    hide InQueue;
    var t := s.(held := s.held - newly, acked := s.acked + newly);
    forall x | 0 <= x < t.out.offsetSent ensures ByteKept(t, x) {
      assert ByteKept(s, x);
      if Carried(s.packets, s.acked, x) { CarriedGrows(s.packets, t.packets, s.acked, t.acked, x); }
      if Carried(s.packets, s.held, x) {
        var n :| n in s.held && n < |s.packets| && InPacket(s.packets[n], x);
        assert if n in newly then n in t.acked else n in t.held;
      }
    }
  }

  lemma AckArrivesKeeps(s: Level, k: nat)
    requires Faithful(s)
    ensures Faithful(Act(s, AckArrives(k)))
  {
    hide Kept, Has, ContiguousFrom, Join, Normal, HoldsAt, PieceOk, Acknowledges;
    if k < |s.acks| {
      AckKept(s, Newly(s.held, s.acks[k]));
      assert AckSound(s.peer, s.packets, s.acks[k]);
    }
  }

  // ----------------------------------------------------------- receiver's moves

  lemma PeerAcksKeeps(s: Level)
    requires Faithful(s)
    ensures Faithful(Act(s, PeerAcks))
  {
    hide SendOk, Kept, PeerOk, FedOk, Has, HoldsAt, Normal, Acknowledges, TopRanges, Descending;
    var t := Act(s, PeerAcks);
    if t != s {
      var ack := Descending(TopRanges(s.record));
      forall n | Acknowledges(ack, n) ensures HoldsAt(s.peer, s.packets, n) {
        DescendingDenotes(TopRanges(s.record), n);
        TopRunsReceived(s.record, n);
      }
      assert AckSound(s.peer, s.packets, ack);
    }
    SameSender(s, t);
    SamePeer(s, t);
  }

  lemma TakenIn(s: Level, p: Piece)
    requires PeerOk(s, s.peer) && PieceOk(s.output, s.out.offsetSent, p) && EndOf(p) <= MAX_CRYPTO_BUFFER
    ensures PeerOk(s, OnCrypto(s.peer, p).0)
    ensures forall x :: Has(OnCrypto(s.peer, p).0.received, x) <==> Has(s.peer.received, x) || InPiece(p, x)
  {
    hide Insert, ContiguousFrom, Overlay, Has;
    InsertIsUnion(s.peer.received, p.offset, EndOf(p));
    var i := OnCrypto(s.peer, p).0;
    forall x | Has(i.received, x)
      ensures 0 <= x < s.out.offsetSent && x < MAX_CRYPTO_BUFFER && x < |i.buffer| && i.buffer[x] == s.output[x]
    {
      if p.offset <= x < EndOf(p) {
        assert s.output[p.offset..EndOf(p)][x - p.offset] == s.output[x];
      } else {
        assert Has(s.peer.received, x);
      }
    }
  }

  lemma RunBelow(s: Level, i: Incoming)
    requires PeerOk(s, i) && s.out.offsetSent <= |s.output|
    ensures 0 <= ContiguousFrom(i.received, 0) <= s.out.offsetSent
    ensures forall x :: 0 <= x < ContiguousFrom(i.received, 0) ==> Has(i.received, x)
  {
    ContiguousIsMaximalRun(i.received, 0);
    var end := ContiguousFrom(i.received, 0);
    assert end > 0 ==> Has(i.received, end - 1);
  }

  /** What is handed over are the next bytes of the output. */
  lemma FeedsNext(s: Level, i: Incoming, from: nat, end: nat)
    requires PeerOk(s, i) && from < end <= s.out.offsetSent <= |s.output|
    requires forall x :: 0 <= x < end ==> Has(i.received, x)
    ensures Slice(i.buffer, from, end) == s.output[from..end]
  {
    hide Has, Normal;
    assert Has(i.received, end - 1);
    forall x | from <= x < end ensures i.buffer[x] == s.output[x] {
      assert Has(i.received, x);
    }
  }

  lemma JoinSnoc(fed: seq<Bytes>, data: Bytes)
    ensures Join(fed + [data]) == Join(fed) + data
  {
    assert (fed + [data])[..|fed|] == fed;
  }

  /** One packet's frame at the peer, before the packet counts as handled. */
  lemma ArrivalFeeds(s: Level, p: Piece)
    requires PeerOk(s, s.peer) && FedOk(s) && PieceOk(s.output, s.out.offsetSent, p) && !s.refused
    ensures var t := Arrival(s, p);
            && PeerOk(t, t.peer) && FedOk(t)
            && (forall x :: Has(s.peer.received, x) ==> Has(t.peer.received, x))
            && (!t.refused ==> Holds(t.peer, Some(p)))
  {
    hide Insert, ContiguousFrom, Overlay, Slice, Join, Has, Normal;
    if EndOf(p) <= MAX_CRYPTO_BUFFER {
      var (i, effect) := OnCrypto(s.peer, p);
      TakenIn(s, p);
      ResumeRun(s.peer.received, i.received);
      RunBelow(s, i);
      if effect.Feed? {
        FeedsNext(s, i, s.peer.readOffset, i.readOffset);
        JoinSnoc(s.fed, effect.data);
        assert s.output[..s.peer.readOffset] + s.output[s.peer.readOffset..i.readOffset] == s.output[..i.readOffset];
      }
    }
  }

  lemma RecordGrows(s: Level, n: nat, t: Level)
    requires Heard(s) && !s.refused && n < |s.packets| && t.packets == s.packets && t.acks == s.acks
    requires t.acked == s.acked && t.record == Insert(s.record, n, n + 1)
    requires forall x :: Has(s.peer.received, x) ==> Has(t.peer.received, x)
    requires !t.refused ==> Holds(t.peer, s.packets[n])
    ensures Heard(t)
  {
    hide Has, Insert, Normal, AckSound;
    InsertIsUnion(s.record, n, n + 1);
    HoldsGrows(s.peer, t.peer, s.packets, t.packets);
  }

  lemma ReceivedKeeps(s: Level, n: nat)
    requires Faithful(s) && n < |s.packets|
    ensures Faithful(Received(s, n))
  {
    hide Kept, Has, ContiguousFrom, Join, Normal, Heard, Insert, Covers, Arrival, FedOk, PeerOk, PieceOk;
    var t := Received(s, n);
    if !s.refused && !Covers(s.record, n, n + 1) {
      var r := s.(record := Insert(s.record, n, n + 1));
      SamePeer(s, r);
      if s.packets[n].Some? {
        ArrivalFeeds(r, s.packets[n].value);
        ArrivalSender(r, s.packets[n].value);
      }
      RecordGrows(s, n, t);
      SameSender(s, t);
    }
  }

  lemma ArrivalSender(s: Level, p: Piece)
    ensures var t := Arrival(s, p);
            && t.output == s.output && t.out == s.out && t.packets == s.packets && t.held == s.held
            && t.acked == s.acked && t.record == s.record && t.acks == s.acks
  {
  }

  lemma SamePeer(s: Level, t: Level)
    requires t.output == s.output && t.out == s.out && t.peer == s.peer && t.fed == s.fed && t.refused == s.refused
    ensures PeerOk(s, s.peer) ==> PeerOk(t, t.peer)
    ensures FedOk(s) ==> FedOk(t)
  {
  }

  lemma SameSender(s: Level, t: Level)
    requires t.output == s.output && t.out == s.out && t.packets == s.packets && t.held == s.held && t.acked == s.acked
    ensures SendOk(s) ==> SendOk(t)
    ensures Kept(s) ==> Kept(t)
  {
    hide PieceOk, Carried, InQueue;
    if Kept(s) {
      forall x | 0 <= x < t.out.offsetSent ensures ByteKept(t, x) { assert ByteKept(s, x); }
    }
  }

  lemma ActKeeps(s: Level, a: Action)
    requires Faithful(s)
    ensures Faithful(Act(s, a))
  {
    hide Faithful, NewPacket, Queued, Received, TakePiece;
    match a {
      case Emits(data) => EmitKeeps(s, data);
      case Sends(available) => SendsKeeps(s, available);
      case Copies(n) =>
        if n in s.held && n < |s.packets| { CopyKeeps(s, n); }
      case Loses(n) =>
        if n in s.held && n < |s.packets| { QueuedKeeps(s, n, s.held - {n}); }
      case Requeues(n) =>
        if n in s.held && n < |s.packets| { QueuedKeeps(s, n, s.held); }
      case Arrives(n) =>
        if n < |s.packets| { ReceivedKeeps(s, n); }
      case PeerAcks => PeerAcksKeeps(s);
      case AckArrives(k) => AckArrivesKeeps(s, k);
    }
  }

  lemma SendsKeeps(s: Level, available: nat)
    requires Faithful(s)
    ensures Faithful(Act(s, Sends(available)))
  {
    hide SendOk, Kept, PeerOk, FedOk, Heard, Took, TakePiece;
    TakeTook(s, available);
    NewPacketKeeps(s, TakePiece(s.out, available).0, TakePiece(s.out, available).1);
  }

  lemma CopyKeeps(s: Level, n: nat)
    requires Faithful(s) && n < |s.packets|
    ensures Faithful(NewPacket(s, s.out, s.packets[n]))
  {
    hide SendOk, Kept, PeerOk, FedOk, Heard, Took;
    CopyTook(s, n);
    NewPacketKeeps(s, s.out, s.packets[n]);
  }

  lemma {:induction false} RunKeeps(acts: seq<Action>)
    ensures Faithful(Run(acts))
    decreases |acts|
  {
    if acts == [] {
      StartFaithful(Start());
    } else {
      hide Faithful, Act;
      RunKeeps(acts[..|acts| - 1]);
      ActKeeps(Run(acts[..|acts| - 1]), acts[|acts| - 1]);
    }
  }

  lemma StartFaithful(s: Level)
    requires s == Start()
    ensures Faithful(s)
  {
  }

  // ------------------------------------------------------------------ theorems

  /** Whatever was lost, split, copied, repeated or reordered, the peer's TLS machine
      has been fed exactly a prefix of the output, and the messages it handled are
      the first messages of the output. */
  lemma TlsIsFedAPrefix(acts: seq<Action>)
    ensures var s := Run(acts);
            && s.peer.readOffset <= |s.output|
            && Join(s.fed) == s.output[..s.peer.readOffset]
            && Handled(s.fed) == Messages(s.output[..s.peer.readOffset])
            && Handled(s.fed) <= Messages(s.output)
  {
    hide Run, Messages, Handled, Join;
    RunKeeps(acts);
    var s := Run(acts);
    HandledIsMessages(s.fed);
    MessagesOfPrefix(s.output[..s.peer.readOffset], s.output);
  }

  /** The receiver refuses a frame only where TLS produced more than the bound. */
  lemma RefusalMeansOverflow(acts: seq<Action>)
    ensures Run(acts).refused ==> |Run(acts).output| > 65536
  {
    hide Run;
    RunKeeps(acts);
  }

  /** In every run each CRYPTO byte sent is in a frame of an acknowledged packet, in
      the retransmission queue, or in a frame of a packet recovery still holds; and
      the peer holds every byte of an acknowledged packet. */
  lemma NoCryptoByteLeftBehind(acts: seq<Action>, x: nat)
    ensures var s := Run(acts);
            && (x < s.out.offsetSent ==> ByteKept(s, x))
            && (Carried(s.packets, s.acked, x) ==> Has(s.peer.received, x))
  {
    hide Run, Has;
    RunKeeps(acts);
    var s := Run(acts);
    if Carried(s.packets, s.acked, x) {
      var n :| n in s.acked && n < |s.packets| && InPacket(s.packets[n], x);
      assert HoldsAt(s.peer, s.packets, n);
    }
  }

  /** In every run, once nothing is pending or queued and no held packet carries CRYPTO
      data, the peer's TLS machine has been fed the whole output. */
  lemma IdleMeansFed(acts: seq<Action>)
    ensures var s := Run(acts);
            s.out.pending == [] && s.out.retransmit == [] && (forall x :: !Carried(s.packets, s.held, x)) ==>
              && Join(s.fed) == s.output && Handled(s.fed) == Messages(s.output)
  {
    hide Run, Messages, Handled, Join, Has, Carried;
    RunKeeps(acts);
    var s := Run(acts);
    if s.out.pending == [] && s.out.retransmit == [] && (forall x :: !Carried(s.packets, s.held, x)) {
      assert s.out.offsetSent == |s.output|;
      forall x | 0 <= x < |s.output| ensures Has(s.peer.received, x) {
        assert ByteKept(s, x);
        NoCryptoByteLeftBehind(acts, x);
      }
      RunReaches(s.peer.received, |s.output|);
      assert s.output[..|s.output|] == s.output;
      HandledIsMessages(s.fed);
    }
  }

  lemma RunReaches(rs: seq<Range>, end: nat)
    requires Normal(rs) && forall x :: 0 <= x < end ==> Has(rs, x)
    ensures ContiguousFrom(rs, 0) >= end
  {
    ContiguousIsMaximalRun(rs, 0);
  }
}
