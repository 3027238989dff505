/** The invariant of the two-endpoint system, direction by direction: `Tx` is
    what an endpoint is as a sender of stream data, `Rx` what it is as the
    receiver of the peer's. */
module TransferInv {
  import opened Buffers
  import opened RangeSets
  import opened Frames
  import opened Acks
  import opened Streams
  import opened Managers
  import opened Delivery
  import opened Transfer

  datatype Tx = Tx(
    isClient: bool, peer: Limits, order: seq<nat>, send: map<nat, Sender>, written: map<nat, Bytes>,
    emitted: seq<seq<Frame>>, held: set<nat>,
    maxData: int, maxStreamsBidi: int, maxStreamsUni: int, dataSent: int)

  datatype Rx = Rx(
    isClient: bool, local: Limits, order: seq<nat>, recv: map<nat, Receiver>, log: map<nat, seq<Chunk>>,
    emitted: seq<seq<Frame>>, control: seq<Frame>, received: seq<Range>, largestReceived: int,
    localMaxData: int, localStreamsBidi: int, localStreamsUni: int,
    dataWindow: int, windowBidi: int, windowUni: int, dataReceived: int)

  function TxOf(e: Endpoint): Tx {
    Tx(e.mgr.isClient, e.mgr.peer, e.mgr.order, e.mgr.send, e.written, e.emitted, e.held,
       e.mgr.maxData, e.mgr.maxStreamsBidi, e.mgr.maxStreamsUni, e.mgr.dataSent)
  }

  function RxOf(e: Endpoint): Rx {
    Rx(e.mgr.isClient, e.mgr.local, e.mgr.order, e.mgr.recv, e.log, e.emitted, e.control, e.received,
       e.largestReceived, e.mgr.localMaxData, e.mgr.localStreamsBidi, e.mgr.localStreamsUni,
       e.mgr.dataWindow, e.mgr.windowBidi, e.mgr.windowUni, e.mgr.dataReceived)
  }

  /** A stream's halves; one that does not exist yet is as it will be created. */
  function SenderOf(t: Tx, id: nat): Sender {
    if id in t.send then t.send[id] else NewSender(id, SendCredit(t.isClient, t.peer, id))
  }

  function ReceiverOf(r: Rx, id: nat): Receiver {
    if id in r.recv then r.recv[id] else NewReceiver(id, RecvCredit(r.isClient, r.local, id))
  }

  ghost predicate PairAt(t: Tx, r: Rx, id: nat) {
    && SenderOf(t, id).id == id
    && Pair(SenderOf(t, id), WrittenOf(t.written, id), ReceiverOf(r, id), LogOf(r.log, id))
  }

  ghost predicate Pairs(t: Tx, r: Rx) { forall id: nat :: PairAt(t, r, id) }

  /** Every stream frame ever emitted is a frame of what was written. */
  ghost predicate SentFrameOk(t: Tx, f: Frame) {
    f.Stream? ==> f.id in t.send && FrameOk(t.send[f.id], WrittenOf(t.written, f.id), f)
  }

  ghost predicate SentOk(t: Tx) {
    && (forall n, k :: 0 <= n < |t.emitted| && 0 <= k < |t.emitted[n]| ==> SentFrameOk(t, t.emitted[n][k]))
    && (forall n :: n in t.held ==> n < |t.emitted|)
  }

  /** Credit and acknowledgements on the wire are at most what the receiver granted. */
  ghost predicate AdvertOk(t: Tx, r: Rx, f: Frame) {
    match f
    case MaxData(v) => v <= r.localMaxData
    case MaxStreamData(id, v) => id in t.send && id in r.recv && v <= r.recv[id].maxStreamData
    case MaxStreams(v, bidi) => v <= if bidi then r.localStreamsBidi else r.localStreamsUni
    case Ack(largest, _, ranges, _) =>
      Has(r.received, largest) && forall pn :: Acknowledges(ranges, pn) ==> Has(r.received, pn)
    case _ => true
  }

  /** Control frames are acknowledged and carry no stream data. */
  predicate IsControl(f: Frame) { IsAckEliciting(f) && !f.Stream? }

  ghost predicate AdvertsOk(t: Tx, r: Rx) {
    && (forall n, k :: 0 <= n < |r.emitted| && 0 <= k < |r.emitted[n]| ==> AdvertOk(t, r, r.emitted[n][k]))
    && (forall k :: 0 <= k < |r.control| ==> AdvertOk(t, r, r.control[k]) && IsControl(r.control[k]))
  }

  ghost predicate HoldsFrame(r: Rx, f: Frame) {
    f.Stream? ==> f.id in r.recv && Holds(r.recv[f.id], f)
  }

  ghost predicate HoldsPacket(r: Rx, p: seq<Frame>) {
    forall k :: 0 <= k < |p| ==> HoldsFrame(r, p[k])
  }

  /** Every received packet was emitted and has been taken in, but for `skip`,
      the one being handled. */
  ghost predicate Absorbed(t: Tx, r: Rx, skip: int) {
    && RecordOk(r.received, r.largestReceived)
    && (forall n :: Has(r.received, n) ==> 0 <= n < |t.emitted| && (n != skip ==> HoldsPacket(r, t.emitted[n])))
  }

  function Bases(send: map<nat, Sender>): map<nat, nat> { map id | id in send :: send[id].base }

  function Highs(recv: map<nat, Receiver>): map<nat, nat> { map id | id in recv :: recv[id].highest }

  /** Connection credit: what was sent is charged, and within what was granted. */
  ghost predicate Credit(t: Tx, r: Rx) {
    && t.dataSent == Total(t.order, Bases(t.send)) <= t.maxData <= r.localMaxData
    && r.dataReceived == Total(r.order, Highs(r.recv))
    && t.maxStreamsBidi <= r.localStreamsBidi && t.maxStreamsUni <= r.localStreamsUni
    && r.dataWindow >= 0
  }

  /** A byte is acknowledged, queued again, or in a packet recovery holds. */
  ghost predicate Covered(f: Frame, id: nat, x: int) { f.Stream? && f.id == id && f.offset <= x < f.offset + |f.data| }

  ghost predicate Carries(frames: seq<Frame>, id: nat, x: int) {
    exists k :: 0 <= k < |frames| && Covered(frames[k], id, x)
  }

  ghost predicate CarriesFin(frames: seq<Frame>, id: nat) {
    exists k :: 0 <= k < |frames| && frames[k].Stream? && frames[k].id == id && frames[k].fin
  }

  ghost predicate ByteKept(t: Tx, id: nat, x: int) {
    || Has(SenderOf(t, id).acked, x)
    || Carries(SenderOf(t, id).retransmit, id, x)
    || (exists n :: n in t.held && n < |t.emitted| && Carries(t.emitted[n], id, x))
  }

  ghost predicate FinKept(t: Tx, id: nat) {
    || SenderOf(t, id).finAcked
    || CarriesFin(SenderOf(t, id).retransmit, id)
    || (exists n :: n in t.held && n < |t.emitted| && CarriesFin(t.emitted[n], id))
  }

  ghost predicate Kept(t: Tx) {
    && (forall id: nat, x :: 0 <= x < SenderOf(t, id).base ==> ByteKept(t, id, x))
    && (forall id: nat :: SenderOf(t, id).finSent ==> FinKept(t, id))
  }

  /** One direction of the connection, from the sender of the data to its receiver. */
  ghost predicate Dir(t: Tx, r: Rx, skip: int) {
    && t.peer == r.local && t.isClient != r.isClient
    && Pairs(t, r) && SentOk(t) && AdvertsOk(t, r) && Absorbed(t, r, skip) && Credit(t, r) && Kept(t)
  }

  /** The stream table of `x`: both halves of bidirectional streams, each opened
      by `x` within its allowance or known to the peer that opened it. */
  ghost predicate Table(x: Endpoint, y: Endpoint) {
    var m := x.mgr;
    && m.send.Keys == m.recv.Keys == (set id | id in m.order)
    && (forall i, j :: 0 <= i < j < |m.order| ==> m.order[i] != m.order[j])
    && (forall id :: id in m.send ==> IsBidirectional(id))
    && (forall id :: id in m.send && LocalId(m.isClient, id) ==> id / 4 < m.nextBidi)
    && (forall id :: id in m.send && !LocalId(m.isClient, id) ==> id in y.mgr.send)
    && m.nextBidi <= m.maxStreamsBidi
    && (forall id :: id in x.written ==> id in m.send)
    && (forall id :: id in x.log ==> id in m.recv)
  }

  /** The invariant when `x` has handled packet `skip` in part, -1 for none. */
  ghost predicate InvBut(x: Endpoint, y: Endpoint, skip: int) {
    && Dir(TxOf(x), RxOf(y), -1) && Dir(TxOf(y), RxOf(x), skip)
    && Table(x, y) && Table(y, x)
    && x.failed.None? && y.failed.None?
  }

  ghost predicate Inv(x: Endpoint, y: Endpoint) { InvBut(x, y, -1) }
}
