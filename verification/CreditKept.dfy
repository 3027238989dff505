/** Credit is never lost: whatever the network does, a limit an endpoint has raised is
    known to its peer, or a frame that says so is queued or in a packet still held
    (src/dsquic/connection.py, `_requeue_lost` and `_maybe_extend_credit`; section
    13.3 of RFC 9000). */
module CreditKept {
  import opened Options
  import opened RangeSets
  import opened Frames
  import opened Acks
  import opened Streams
  import opened Managers
  import opened Transfer
  import opened TransferInv
  import opened TransferTheorems

  /** The limits an endpoint advertises. */
  datatype Limit = DataLimit | CountLimit(bidi: bool) | StreamLimit(id: nat)

  /** The limit as its receiver has set it. */
  function Granted(m: Manager, l: Limit): int {
    match l
    case DataLimit => m.localMaxData
    case CountLimit(bidi) => LocalStreams(m, bidi)
    case StreamLimit(id) => if id in m.recv then m.recv[id].maxStreamData else RecvCredit(m.isClient, m.local, id)
  }

  /** The limit as the peer that it binds knows it. */
  function Known(m: Manager, l: Limit): int {
    match l
    case DataLimit => m.maxData
    case CountLimit(bidi) => if bidi then m.maxStreamsBidi else m.maxStreamsUni
    case StreamLimit(id) => if id in m.send then m.send[id].maxStreamData else SendCredit(m.isClient, m.peer, id)
  }

  /** The frame that advertises a limit at a value. */
  function Advert(l: Limit, value: int): Frame {
    match l
    case DataLimit => MaxData(value)
    case CountLimit(bidi) => MaxStreams(value, bidi)
    case StreamLimit(id) => MaxStreamData(id, value)
  }

  /** The frame is queued, or in a packet recovery still holds. */
  ghost predicate Underway(e: Endpoint, f: Frame) {
    f in e.control || exists n :: n in e.held && n < |e.emitted| && f in e.emitted[n]
  }

  /** The peer `y` knows the limit of `x`, or the current value is on its way. */
  ghost predicate Promised(x: Endpoint, y: Endpoint, l: Limit) {
    Known(y.mgr, l) >= Granted(x.mgr, l) || Underway(x, Advert(l, Granted(x.mgr, l)))
  }

  /** Endpoints open only bidirectional streams, and so grant each other credit on them. */
  predicate InUse(l: Limit) { l.StreamLimit? ==> IsBidirectional(l.id) }

  ghost predicate AllPromised(x: Endpoint, y: Endpoint) { forall l :: InUse(l) ==> Promised(x, y, l) }

  /** An endpoint has acted on a credit frame. */
  ghost predicate Heeds(m: Manager, f: Frame) { forall l, v :: f == Advert(l, v) ==> Known(m, l) >= v }

  /** `y` has acted on every packet of `x` that it received. */
  ghost predicate Heeded(x: Endpoint, y: Endpoint) {
    forall n, k :: Has(y.received, n) && 0 <= n < |x.emitted| && 0 <= k < |x.emitted[n]| ==>
      Heeds(y.mgr, x.emitted[n][k])
  }

  // ----------------------------------------------------- what each move upholds

  /** Frames underway stay so, and a limit that changes is announced. */
  ghost predicate Upholds(x: Endpoint, x': Endpoint) {
    && (forall l, v :: Underway(x, Advert(l, v)) ==> Underway(x', Advert(l, v)))
    && (forall l :: Granted(x'.mgr, l) == Granted(x.mgr, l) || Underway(x', Advert(l, Granted(x'.mgr, l))))
  }

  ghost predicate Grows(m: Manager, m': Manager) { forall l :: Known(m, l) <= Known(m', l) }

  lemma UpholdsTrans(x: Endpoint, y: Endpoint, z: Endpoint)
    requires Upholds(x, y) && Upholds(y, z)
    ensures Upholds(x, z)
  {
    hide Underway, Granted;
  }

  lemma UpholdsPromises(x: Endpoint, x': Endpoint, y: Endpoint)
    requires Upholds(x, x') && AllPromised(x, y)
    ensures AllPromised(x', y)
  {
    hide Underway, Granted, Known;
    forall l | InUse(l) ensures Promised(x', y, l) { assert Promised(x, y, l); }
  }

  /** Longer queues and fuller packets, with the limits unchanged. */
  lemma MoreUnderway(x: Endpoint, x': Endpoint)
    requires forall f :: f in x.control ==> f in x'.control
    requires x.held <= x'.held && |x.emitted| <= |x'.emitted|
    requires forall n, f :: 0 <= n < |x.emitted| && f in x.emitted[n] ==> f in x'.emitted[n]
    requires forall l :: Granted(x'.mgr, l) == Granted(x.mgr, l)
    ensures Upholds(x, x')
  {
    forall l, v | Underway(x, Advert(l, v)) ensures Underway(x', Advert(l, v)) {
      if Advert(l, v) !in x.control {
        var n :| n in x.held && n < |x.emitted| && Advert(l, v) in x.emitted[n];
        assert n in x'.held && Advert(l, v) in x'.emitted[n];
      }
    }
  }

  // ------------------------------------------------------------------- sending

  lemma OpenUpholds(e: Endpoint)
    requires OpenBidi(e.mgr).Some? ==> OpenBidi(e.mgr).value.1 !in e.mgr.recv && OpenBidi(e.mgr).value.1 !in e.mgr.send
    ensures Upholds(e, Open(e)) && Grows(e.mgr, Open(e).mgr)
  {
    MoreUnderway(e, Open(e));
  }

  lemma WriteUpholds(e: Endpoint, id: nat, data: Buffers.Bytes, fin: bool)
    ensures Upholds(e, WriteData(e, id, data, fin)) && Grows(e.mgr, WriteData(e, id, data, fin).mgr)
  {
    MoreUnderway(e, WriteData(e, id, data, fin));
  }

  lemma PutHas(emitted: seq<seq<Frame>>, f: Frame)
    requires emitted != []
    ensures |Put(emitted, f)| == |emitted| && f in Put(emitted, f)[|emitted| - 1]
    ensures forall n, g :: 0 <= n < |emitted| && g in emitted[n] ==> g in Put(emitted, f)[n]
  {
  }

  lemma TakeFrameCredit(m: Manager, id: nat, maxBytes: int)
    requires id in m.send
    ensures var n := TakeFrame(m, id, maxBytes).0;
            forall l :: Known(n, l) == Known(m, l) && Granted(n, l) == Granted(m, l)
  {
  }

  lemma AppendUpholds(e: Endpoint, item: Item)
    requires e.emitted != [] && |e.emitted| - 1 in e.held
    ensures Upholds(e, Append(e, item)) && Grows(e.mgr, Append(e, item).mgr) && Append(e, item).held == e.held
  {
    hide Put, TakeFrame, BuildAck;
    var d := Append(e, item);
    match item {
      case ItemAck =>
        if BuildAck(e.received, e.largestReceived, e.ackPending, None).Some? {
          PutHas(e.emitted, BuildAck(e.received, e.largestReceived, e.ackPending, None).value);
        }
        MoreUnderway(e, d);
      case ItemControl => if e.control != [] { PopUpholds(e); }
      case ItemStream(id, maxBytes) =>
        if id in e.mgr.send {
          TakeFrameCredit(e.mgr, id, maxBytes);
          if TakeFrame(e.mgr, id, maxBytes).1.Some? { PutHas(e.emitted, TakeFrame(e.mgr, id, maxBytes).1.value); }
        }
        MoreUnderway(e, d);
      case ItemOther(f) =>
        PutHas(e.emitted, f);
        MoreUnderway(e, d);
    }
  }

  /** A control frame that goes into the packet being built is in a held packet. */
  lemma PopUpholds(e: Endpoint)
    requires e.emitted != [] && |e.emitted| - 1 in e.held && e.control != []
    ensures Upholds(e, e.(emitted := Put(e.emitted, e.control[0]), control := e.control[1..]))
  {
    hide Put;
    var d := e.(emitted := Put(e.emitted, e.control[0]), control := e.control[1..]);
    PutHas(e.emitted, e.control[0]);
    forall l, v | Underway(e, Advert(l, v)) ensures Underway(d, Advert(l, v)) {
      var f := Advert(l, v);
      if f in e.control {
        var k :| 0 <= k < |e.control| && e.control[k] == f;
        if k > 0 { assert d.control[k - 1] == f; }
      } else {
        var n :| n in e.held && n < |e.emitted| && f in e.emitted[n];
        assert f in d.emitted[n];
      }
    }
  }

  lemma {:induction false} AppendAllUpholds(e: Endpoint, items: seq<Item>)
    requires e.emitted != [] && |e.emitted| - 1 in e.held
    ensures Upholds(e, AppendAll(e, items)) && Grows(e.mgr, AppendAll(e, items).mgr)
    decreases |items|
  {
    hide Append, Upholds, Known;
    if items == [] {
      SelfUpholds(e);
    } else {
      AppendUpholds(e, items[0]);
      AppendAllUpholds(Append(e, items[0]), items[1..]);
      UpholdsTrans(e, Append(e, items[0]), AppendAll(e, items));
    }
  }

  lemma SelfUpholds(e: Endpoint)
    ensures Upholds(e, e)
  {
    hide Underway, Granted;
  }

  lemma SendUpholds(e: Endpoint, items: seq<Item>)
    ensures Upholds(e, Send(e, items)) && Grows(e.mgr, Send(e, items).mgr)
  {
    hide AppendAll, Upholds, Known;
    var n := NewPacket(e);
    NewPacketUpholds(e);
    AppendAllUpholds(n, items);
    UpholdsTrans(e, n, AppendAll(n, items));
    SelfUpholds(e);
  }

  lemma NewPacketUpholds(e: Endpoint)
    ensures Upholds(e, NewPacket(e))
  {
    MoreUnderway(e, NewPacket(e));
  }

  // ------------------------------------------------------------ loss and probes

  /** Credit in a lost frame is queued again at its current value. */
  lemma RequeueRenews(e: Endpoint, l: Limit, v: int)
    requires l.StreamLimit? ==> l.id in e.mgr.recv
    ensures Advert(l, Granted(e.mgr, l)) in RequeueFrame(e, Advert(l, v)).control
  {
    var d := RequeueFrame(e, Advert(l, v));
    assert d.control[|d.control| - 1] == Advert(l, Granted(e.mgr, l));
  }

  lemma RequeueUpholds(e: Endpoint, f: Frame)
    ensures Upholds(e, RequeueFrame(e, f)) && Grows(e.mgr, RequeueFrame(e, f).mgr)
    ensures forall l :: Granted(RequeueFrame(e, f).mgr, l) == Granted(e.mgr, l)
    ensures RequeueFrame(e, f).mgr.recv == e.mgr.recv
    ensures forall g :: g in e.control ==> g in RequeueFrame(e, f).control
  {
    hide Requeue;
    RequeueKeepsCredit(e, f);
    MoreUnderway(e, RequeueFrame(e, f));
  }

  lemma RequeueKeepsCredit(e: Endpoint, f: Frame)
    ensures forall l :: Known(RequeueFrame(e, f).mgr, l) == Known(e.mgr, l)
  {
  }

  lemma {:induction false} RequeueAllUpholds(e: Endpoint, frames: seq<Frame>)
    ensures Upholds(e, RequeueAll(e, frames)) && Grows(e.mgr, RequeueAll(e, frames).mgr)
    ensures forall l :: Granted(RequeueAll(e, frames).mgr, l) == Granted(e.mgr, l)
    ensures forall g :: g in e.control ==> g in RequeueAll(e, frames).control
    decreases |frames|
  {
    hide RequeueFrame, Upholds, Known, Granted;
    if frames == [] {
      SelfUpholds(e);
    } else {
      RequeueUpholds(e, frames[0]);
      RequeueAllUpholds(RequeueFrame(e, frames[0]), frames[1..]);
      UpholdsTrans(e, RequeueFrame(e, frames[0]), RequeueAll(e, frames));
    }
  }

  /** The current value of every limit a lost packet carried is queued again. */
  lemma {:induction false} RequeueAllRenews(e: Endpoint, frames: seq<Frame>, l: Limit, v: int)
    requires Advert(l, v) in frames && (l.StreamLimit? ==> l.id in e.mgr.recv)
    ensures Advert(l, Granted(e.mgr, l)) in RequeueAll(e, frames).control
    decreases |frames|
  {
    hide RequeueFrame, Granted, Advert;
    var d := RequeueFrame(e, frames[0]);
    RequeueUpholds(e, frames[0]);
    if frames[0] == Advert(l, v) {
      RequeueRenews(e, l, v);
      RequeueAllUpholds(d, frames[1..]);
    } else {
      RequeueAllRenews(d, frames[1..], l, v);
    }
  }

  /** Credit for a stream is only ever sent for a stream that exists. */
  ghost predicate CreditIds(e: Endpoint) {
    forall n, id, v :: 0 <= n < |e.emitted| && MaxStreamData(id, v) in e.emitted[n] ==> id in e.mgr.recv
  }

  lemma LosePromises(x: Endpoint, y: Endpoint, pn: nat)
    requires AllPromised(x, y) && CreditIds(x)
    ensures AllPromised(Lose(x, pn), y) && Grows(x.mgr, Lose(x, pn).mgr)
  {
    hide RequeueAll, Granted, Known, Advert;
    if pn in x.held && pn < |x.emitted| {
      var d := RequeueAll(x, x.emitted[pn]);
      RequeueAllUpholds(x, x.emitted[pn]);
      forall l | InUse(l) ensures Promised(Lose(x, pn), y, l) {
        assert Promised(x, y, l);
        var f := Advert(l, Granted(x.mgr, l));
        if f in x.emitted[pn] {
          AdvertId(x, pn, l, Granted(x.mgr, l));
          RequeueAllRenews(x, x.emitted[pn], l, Granted(x.mgr, l));
        } else if f !in x.control && Known(y.mgr, l) < Granted(x.mgr, l) {
          var n :| n in x.held && n < |x.emitted| && f in x.emitted[n];
          assert n in Lose(x, pn).held;
        }
      }
    }
  }

  lemma AdvertId(e: Endpoint, n: nat, l: Limit, v: int)
    requires CreditIds(e) && n < |e.emitted| && Advert(l, v) in e.emitted[n]
    ensures l.StreamLimit? ==> l.id in e.mgr.recv
  {
  }

  lemma ProbePromises(x: Endpoint, y: Endpoint, pn: nat)
    requires AllPromised(x, y)
    ensures AllPromised(Probe(x, pn), y) && Grows(x.mgr, Probe(x, pn).mgr)
  {
    hide RequeueAll, Upholds, Known;
    if pn in x.held && pn < |x.emitted| {
      RequeueAllUpholds(x, x.emitted[pn]);
      UpholdsPromises(x, Probe(x, pn), y);
    }
  }

  // -------------------------------------------------------------------- receiving

  /** What an ACK does: it releases exactly the held packets it names and leaves every
      limit, queue and packet as it was. */
  lemma {:induction false} AckReleases(e: Endpoint, ranges: seq<AckRange>, n: nat)
    requires n <= |e.emitted|
    ensures var d := AckBelow(e, ranges, n);
            && d == e.(mgr := e.mgr.(send := d.mgr.send), held := d.held)
            && d.held == e.held - (set k | k in e.held && k < n && Acknowledges(ranges, k))
            && (forall l :: Known(d.mgr, l) == Known(e.mgr, l))
    decreases n
  {
    hide Acknowledges, AckFrames, Known;
    if n > 0 {
      AckReleases(e, ranges, n - 1);
      var d := AckBelow(e, ranges, n - 1);
      if n - 1 in e.held && Acknowledges(ranges, n - 1) { AckFramesCredit(d.mgr, e.emitted[n - 1]); }
    }
  }

  lemma {:induction false} AckFramesKeys(send: map<nat, Sender>, frames: seq<Frame>)
    ensures var t := AckFrames(send, frames);
            t.Keys == send.Keys && forall id :: id in send ==> t[id].maxStreamData == send[id].maxStreamData
    decreases |frames|
  {
    hide Insert, Covers;
    if frames != [] {
      var f := frames[0];
      AckFramesKeys(if f.Stream? && f.id in send then send[f.id := FrameAcked(send[f.id], f)] else send, frames[1..]);
    }
  }

  lemma AckFramesCredit(m: Manager, frames: seq<Frame>)
    ensures forall l :: Known(m.(send := AckFrames(m.send, frames)), l) == Known(m, l)
  {
    hide AckFrames;
    AckFramesKeys(m.send, frames);
  }

  /** A packet acknowledged by the peer was acted on by it, so its credit is known. */
  lemma AckPromises(x: Endpoint, y: Endpoint, largest: int, ranges: seq<AckRange>)
    requires AllPromised(x, y) && Heeded(x, y)
    requires forall n :: Acknowledges(ranges, n) ==> Has(y.received, n)
    ensures AllPromised(HandleAck(x, largest, ranges), y) && Grows(x.mgr, HandleAck(x, largest, ranges).mgr)
  {
    hide Acknowledges, Known, Granted, Advert, Has, AckBelow;
    if largest < |x.emitted| {
      AckReleases(x, ranges, |x.emitted|);
      var d := AckBelow(x, ranges, |x.emitted|);
      SendOnly(x.mgr, d.mgr);
      forall l | InUse(l) ensures Promised(d, y, l) {
        assert Promised(x, y, l);
        var f := Advert(l, Granted(x.mgr, l));
        if f !in x.control && Known(y.mgr, l) < Granted(x.mgr, l) {
          var n :| n in x.held && n < |x.emitted| && f in x.emitted[n];
          assert n in d.held;
        }
      }
    } else {
      SameGrants(x, HandleAck(x, largest, ranges), y);
    }
  }

  lemma SendOnly(m: Manager, n: Manager)
    requires n == m.(send := n.send)
    ensures forall l :: Granted(n, l) == Granted(m, l)
  {
  }

  /** Flags that no promise depends on. */
  lemma SameGrants(x: Endpoint, x': Endpoint, y: Endpoint)
    requires AllPromised(x, y) && x'.mgr == x.mgr
    requires x'.control == x.control && x'.held == x.held && x'.emitted == x.emitted
    ensures AllPromised(x', y)
  {
    hide Known, Granted, Advert;
    forall l | InUse(l) ensures Promised(x', y, l) { assert Promised(x, y, l); }
  }

  // -------------------------------------------------------------- stream frames

  /** Taking in a frame, or creating its stream, changes no limit. */
  lemma AcceptCredit(m: Manager, f: StreamFrame)
    requires m.send.Keys <= m.recv.Keys
    ensures var n := AcceptFrame(m, f).0;
            forall l :: Granted(n, l) == Granted(m, l) && Known(n, l) == Known(m, l)
  {
    hide Insert, Overlay, Covers;
  }

  lemma ReadCredit(m: Manager, id: nat)
    requires id in m.recv
    ensures var n := m.(recv := m.recv[id := Read(m.recv[id]).0]);
            forall l :: Granted(n, l) == Granted(m, l) && Known(n, l) == Known(m, l)
  {
    hide ContiguousFrom;
  }

  lemma StreamCreditUpholds(e: Endpoint, id: nat)
    requires id in e.mgr.recv
    ensures Upholds(e, ExtendStreamCredit(e, id)) && Grows(e.mgr, ExtendStreamCredit(e, id).mgr)
  {
    var d := ExtendStreamCredit(e, id);
    QueuedUpholds(e, d, StreamLimit(id));
  }

  lemma DataCreditUpholds(e: Endpoint)
    ensures Upholds(e, ExtendData(e)) && Grows(e.mgr, ExtendData(e).mgr)
  {
    hide Total;
    QueuedUpholds(e, ExtendData(e), DataLimit);
  }

  lemma CountUpholds(e: Endpoint, bidi: bool)
    ensures Upholds(e, ExtendStreams(e, bidi)) && Grows(e.mgr, ExtendStreams(e, bidi).mgr)
  {
    hide Opened, ClosedCount;
    QueuedUpholds(e, ExtendStreams(e, bidi), CountLimit(bidi));
  }

  /** One limit may change, and then the frame that says so ends the queue. */
  lemma QueuedUpholds(e: Endpoint, d: Endpoint, l: Limit)
    requires d.held == e.held && d.emitted == e.emitted && e.control <= d.control
    requires forall k :: k != l ==> Granted(d.mgr, k) == Granted(e.mgr, k)
    requires || Granted(d.mgr, l) == Granted(e.mgr, l)
             || (d.control != [] && d.control[|d.control| - 1] == Advert(l, Granted(d.mgr, l)))
    ensures Upholds(e, d)
  {
    hide Granted, Advert;
    forall k, v | Underway(e, Advert(k, v)) ensures Underway(d, Advert(k, v)) {
      if Advert(k, v) in e.control { assert Advert(k, v) in d.control; }
    }
    assert Granted(d.mgr, l) != Granted(e.mgr, l) ==> Advert(l, Granted(d.mgr, l)) in d.control;
  }

  lemma ExtendUpholds(e: Endpoint, id: nat)
    requires id in e.mgr.recv
    ensures Upholds(e, ExtendCredit(e, id)) && Grows(e.mgr, ExtendCredit(e, id).mgr)
  {
    hide Upholds, Known, ExtendStreamCredit, ExtendData, ExtendStreams;
    var e1 := ExtendStreamCredit(e, id);
    var e2 := ExtendData(e1);
    var e3 := ExtendStreams(e2, true);
    StreamCreditUpholds(e, id);
    DataCreditUpholds(e1);
    CountUpholds(e2, true);
    CountUpholds(e3, false);
    UpholdsTrans(e, e1, e2);
    UpholdsTrans(e, e2, e3);
    UpholdsTrans(e, e3, ExtendStreams(e3, false));
  }

  lemma StreamUpholds(e: Endpoint, f: StreamFrame)
    requires e.mgr.send.Keys <= e.mgr.recv.Keys
    ensures Upholds(e, HandleStream(e, f)) && Grows(e.mgr, HandleStream(e, f).mgr)
  {
    hide AcceptFrame, Read, ExtendCredit, Upholds, Known, Granted;
    var (m, error) := AcceptFrame(e.mgr, f);
    AcceptCredit(e.mgr, f);
    if error.Some? {
      LimitsUphold(e, HandleStream(e, f));
    } else {
      ReadCredit(m, f.id);
      var d := Reported(e, m, f);
      LimitsUphold(e, d);
      ExtendUpholds(d, f.id);
      UpholdsTrans(e, d, ExtendCredit(d, f.id));
    }
  }

  lemma LimitsUphold(e: Endpoint, d: Endpoint)
    requires d.held == e.held && d.emitted == e.emitted && d.control == e.control
    requires forall l :: Granted(d.mgr, l) == Granted(e.mgr, l)
    ensures Upholds(e, d)
  {
    hide Granted;
    MoreUnderway(e, d);
  }

  // ---------------------------------------------------------- a whole packet

  /** Handling a credit frame is acting on it. */
  lemma HandleHeeds(e: Endpoint, f: Frame)
    requires HandleFrame(e, f).failed.None?
    ensures Heeds(HandleFrame(e, f).mgr, f)
  {
    hide HandleStream, HandleAck;
  }

  lemma CreditGrows(e: Endpoint, f: Frame)
    requires !f.Ack? && !f.Stream?
    ensures var d := HandleFrame(e, f);
            && d == e.(mgr := d.mgr, ackPending := d.ackPending, failed := d.failed)
            && Grows(e.mgr, d.mgr) && (forall l :: Granted(d.mgr, l) == Granted(e.mgr, l))
            && d.mgr.send.Keys == e.mgr.send.Keys && d.mgr.recv.Keys == e.mgr.recv.Keys
  {
  }

  /** ACKs report only what their sender received. */
  ghost predicate Truthful(y: Endpoint, f: Frame) {
    f.Ack? ==> forall n :: Acknowledges(f.ranges, n) ==> Has(y.received, n)
  }

  lemma FramePromises(x: Endpoint, y: Endpoint, f: Frame)
    requires AllPromised(x, y) && Heeded(x, y) && Truthful(y, f) && x.mgr.send.Keys <= x.mgr.recv.Keys
    ensures var d := HandleFrame(x, f);
            && AllPromised(d, y) && Grows(x.mgr, d.mgr) && d.emitted == x.emitted
            && d.mgr.send.Keys <= d.mgr.recv.Keys
  {
    hide AllPromised, Heeded, HandleStream, HandleAck, Known, Granted, Upholds;
    var d := x.(ackPending := x.ackPending || IsAckEliciting(f));
    SameGrants(x, d, y);
    SameHeeded(x, d, y);
    if f.Ack? {
      AckPromises(d, y, f.largest, f.ranges);
      AckShape(d, f.largest, f.ranges);
    } else if f.Stream? {
      StreamUpholds(d, f);
      UpholdsPromises(d, HandleStream(d, f), y);
      StreamShape(d, f);
    } else {
      CreditGrows(x, f);
      LimitsUphold(x, HandleFrame(x, f));
      UpholdsPromises(x, HandleFrame(x, f), y);
    }
  }

  lemma SameHeeded(x: Endpoint, d: Endpoint, y: Endpoint)
    requires Heeded(x, y) && d.emitted == x.emitted
    ensures Heeded(d, y)
  {
    hide Heeds;
  }

  lemma AckShape(e: Endpoint, largest: int, ranges: seq<AckRange>)
    ensures var d := HandleAck(e, largest, ranges);
            d.emitted == e.emitted && d.mgr.send.Keys == e.mgr.send.Keys && d.mgr.recv == e.mgr.recv
  {
    hide AckBelow, Acknowledges;
    if largest < |e.emitted| {
      AckReleases(e, ranges, |e.emitted|);
      AckKeys(e, ranges, |e.emitted|);
    }
  }

  lemma {:induction false} AckKeys(e: Endpoint, ranges: seq<AckRange>, n: nat)
    requires n <= |e.emitted|
    ensures AckBelow(e, ranges, n).mgr.send.Keys == e.mgr.send.Keys
    decreases n
  {
    hide Acknowledges, AckFrames;
    if n > 0 {
      AckKeys(e, ranges, n - 1);
      AckFramesKeys(AckBelow(e, ranges, n - 1).mgr.send, e.emitted[n - 1]);
    }
  }

  lemma StreamShape(e: Endpoint, f: StreamFrame)
    requires e.mgr.send.Keys <= e.mgr.recv.Keys
    ensures var d := HandleStream(e, f); d.emitted == e.emitted && d.mgr.send.Keys <= d.mgr.recv.Keys
  {
    hide AcceptFrame, Read, ExtendCredit;
    AcceptKeys(e.mgr, f);
    var (m, error) := AcceptFrame(e.mgr, f);
    if error.None? { ExtendOnlyCredit(Reported(e, m, f), f.id); }
  }

  /** Extending credit touches limits and announces them. */
  ghost predicate OnlyCredit(e: Endpoint, d: Endpoint) {
    && d == e.(mgr := e.mgr.(recv := d.mgr.recv, localMaxData := d.mgr.localMaxData,
                             localStreamsBidi := d.mgr.localStreamsBidi, localStreamsUni := d.mgr.localStreamsUni),
               control := d.control)
    && d.mgr.recv.Keys == e.mgr.recv.Keys
  }

  lemma ExtendOnlyCredit(e: Endpoint, id: nat)
    requires id in e.mgr.recv
    ensures OnlyCredit(e, ExtendCredit(e, id))
  {
    hide ExtendStreamCredit, ExtendData, ExtendStreams;
    var e1 := ExtendStreamCredit(e, id);
    StreamCreditOnly(e, id);
    LimitsOnly(e1, true);
    var e2 := ExtendData(e1);
    LimitsOnly(e2, true);
    LimitsOnly(ExtendStreams(e2, true), false);
  }

  lemma StreamCreditOnly(e: Endpoint, id: nat)
    requires id in e.mgr.recv
    ensures OnlyCredit(e, ExtendStreamCredit(e, id))
  {
    hide CreditUpdate;
  }

  lemma LimitsOnly(e: Endpoint, bidi: bool)
    ensures OnlyCredit(e, ExtendData(e)) && OnlyCredit(e, ExtendStreams(e, bidi))
  {
    hide Total, Opened, ClosedCount;
  }

  lemma AcceptKeys(m: Manager, f: StreamFrame)
    requires m.send.Keys <= m.recv.Keys
    ensures AcceptFrame(m, f).0.send.Keys <= AcceptFrame(m, f).0.recv.Keys
  {
    hide Accept;
  }

  lemma {:induction false} PayloadPromises(x: Endpoint, y: Endpoint, frames: seq<Frame>)
    requires AllPromised(x, y) && Heeded(x, y) && x.mgr.send.Keys <= x.mgr.recv.Keys
    requires forall k :: 0 <= k < |frames| ==> Truthful(y, frames[k])
    ensures var d := HandleAll(x, frames);
            && AllPromised(d, y) && Grows(x.mgr, d.mgr) && d.emitted == x.emitted
            && (d.failed.None? ==> forall k :: 0 <= k < |frames| ==> Heeds(d.mgr, frames[k]))
    decreases |frames|
  {
    hide AllPromised, Heeded, HandleFrame, Truthful, Known, Advert;
    if frames != [] && x.failed.None? {
      var d := HandleFrame(x, frames[0]);
      FramePromises(x, y, frames[0]);
      SameHeeded(x, d, y);
      PayloadPromises(d, y, frames[1..]);
      FailureStays(d, frames[1..]);
      if HandleAll(d, frames[1..]).failed.None? { HandleHeeds(x, frames[0]); }
    }
  }

  lemma {:induction false} FailureStays(e: Endpoint, frames: seq<Frame>)
    ensures e.failed.Some? ==> HandleAll(e, frames) == e
  {
  }

  lemma HeedsGrows(m: Manager, n: Manager, f: Frame)
    requires Heeds(m, f) && Grows(m, n)
    ensures Heeds(n, f)
  {
    hide Known, Advert;
  }

  // ------------------------------------------------------------- the system

  /** Both promises of a direction: `x` advertises, `y` is bound. */
  ghost predicate Kept(x: Endpoint, y: Endpoint) { AllPromised(x, y) && Heeded(x, y) }

  /** What the transfer invariant says of packets, ACKs and streams. */
  lemma Facts(x: Endpoint, y: Endpoint)
    requires Inv(x, y)
    ensures x.mgr.send.Keys <= x.mgr.recv.Keys && CreditIds(x)
    ensures forall n :: Has(y.received, n) ==> 0 <= n < |x.emitted|
    ensures forall n, k :: 0 <= n < |y.emitted| && 0 <= k < |y.emitted[n]| ==> Truthful(y, y.emitted[n][k])
    ensures x.failed.None?
  {
    hide Has, Pairs, SentOk, Credit, TransferInv.Kept, HoldsPacket, Acknowledges;
    forall n, id, v | 0 <= n < |x.emitted| && MaxStreamData(id, v) in x.emitted[n] ensures id in x.mgr.recv {
      var k :| 0 <= k < |x.emitted[n]| && x.emitted[n][k] == MaxStreamData(id, v);
      assert AdvertOk(TxOf(y), RxOf(x), x.emitted[n][k]);
    }
    forall n, k | 0 <= n < |y.emitted| && 0 <= k < |y.emitted[n]| ensures Truthful(y, y.emitted[n][k]) {
      assert AdvertOk(TxOf(x), RxOf(y), y.emitted[n][k]);
    }
  }

  /** The bound endpoint moves on: it forgets no credit. */
  lemma BoundMoves(x: Endpoint, y: Endpoint, y': Endpoint)
    requires Kept(x, y) && Grows(y.mgr, y'.mgr)
    ensures AllPromised(x, y')
    ensures forall n, k :: Has(y.received, n) && 0 <= n < |x.emitted| && 0 <= k < |x.emitted[n]| ==>
              Heeds(y'.mgr, x.emitted[n][k])
  {
    hide Known, Granted, Advert, Has, Underway;
    forall l | InUse(l) ensures Promised(x, y', l) { assert Promised(x, y, l); }
    forall n, k | Has(y.received, n) && 0 <= n < |x.emitted| && 0 <= k < |x.emitted[n]|
      ensures Heeds(y'.mgr, x.emitted[n][k])
    {
      HeedsGrows(y.mgr, y'.mgr, x.emitted[n][k]);
    }
  }

  lemma {:induction false} AppendAllLast(e: Endpoint, items: seq<Item>)
    requires e.emitted != []
    ensures forall n :: 0 <= n < |e.emitted| - 1 ==> AppendAll(e, items).emitted[n] == e.emitted[n]
    ensures AppendAll(e, items).received == e.received
    decreases |items|
  {
    hide TakeFrame, BuildAck;
    if items != [] { AppendAllLast(Append(e, items[0]), items[1..]); }
  }

  /** A packet newly built is not one the peer has received. */
  lemma SendKept(x: Endpoint, y: Endpoint, items: seq<Item>)
    requires Kept(x, y) && forall n :: Has(y.received, n) ==> 0 <= n < |x.emitted|
    ensures Kept(Send(x, items), y) && Send(x, items).received == x.received
  {
    hide AppendAll, Upholds, AllPromised, Heeds, Has;
    SendUpholds(x, items);
    UpholdsPromises(x, Send(x, items), y);
    AppendAllLast(NewPacket(x), items);
  }

  lemma SamePackets(x: Endpoint, x': Endpoint, y: Endpoint)
    requires Heeded(x, y) && x'.emitted == x.emitted
    ensures Heeded(x', y)
  {
    hide Heeds, Has;
  }

  /** A move of `x` other than receiving. */
  lemma LocalKept(x: Endpoint, y: Endpoint, a: Action)
    requires Inv(x, y) && Kept(x, y) && !a.ActReceive?
    ensures var x' := Act(x, y, a); Kept(x', y) && Grows(x.mgr, x'.mgr) && x'.received == x.received
  {
    hide InvBut, AllPromised, Heeded, Upholds, Known, RequeueAll, AppendAll;
    Facts(x, y);
    match a {
      case ActOpen =>
        if OpenBidi(x.mgr).Some? { OpenIsNew(x, y); }
        OpenUpholds(x);
        UpholdsPromises(x, Open(x), y);
        SamePackets(x, Open(x), y);
      case ActWrite(id, data, fin) =>
        WriteUpholds(x, id, data, fin);
        UpholdsPromises(x, WriteData(x, id, data, fin), y);
        SamePackets(x, WriteData(x, id, data, fin), y);
      case ActSend(items) =>
        SendUpholds(x, items);
        SendKept(x, y, items);
      case ActLose(pn) =>
        LosePromises(x, y, pn);
        if pn < |x.emitted| { RequeueSame(x, x.emitted[pn]); }
        SamePackets(x, Lose(x, pn), y);
      case ActProbe(pn) =>
        ProbePromises(x, y, pn);
        if pn < |x.emitted| { RequeueSame(x, x.emitted[pn]); }
        SamePackets(x, Probe(x, pn), y);
    }
  }

  lemma OpenIsNew(x: Endpoint, y: Endpoint)
    requires Inv(x, y) && OpenBidi(x.mgr).Some?
    ensures OpenBidi(x.mgr).value.1 !in x.mgr.recv && OpenBidi(x.mgr).value.1 !in x.mgr.send
  {
    hide Dir;
    BidiIdNumber(x.mgr.isClient, x.mgr.nextBidi);
  }

  lemma {:induction false} RequeueSame(e: Endpoint, frames: seq<Frame>)
    ensures RequeueAll(e, frames).received == e.received
    decreases |frames|
  {
    if frames != [] { RequeueSame(RequeueFrame(e, frames[0]), frames[1..]); }
  }

  lemma {:induction false} PayloadRecord(e: Endpoint, frames: seq<Frame>)
    ensures HandleAll(e, frames).received == e.received
    decreases |frames|
  {
    hide HandleFrame;
    if frames != [] && e.failed.None? {
      FrameRecord(e, frames[0]);
      PayloadRecord(HandleFrame(e, frames[0]), frames[1..]);
    }
  }

  lemma StreamRecord(e: Endpoint, f: StreamFrame)
    ensures HandleStream(e, f).received == e.received
  {
    hide AcceptFrame, Read, ExtendCredit;
    var (m, error) := AcceptFrame(e.mgr, f);
    if error.None? { ExtendOnlyCredit(Reported(e, m, f), f.id); }
  }

  lemma FrameRecord(e: Endpoint, f: Frame)
    ensures HandleFrame(e, f).received == e.received
  {
    hide HandleStream, AckBelow, RaiseMaxData, RaiseMaxStreams, RaiseCredit;
    if f.Stream? { StreamRecord(e.(ackPending := true), f); }
    if f.Ack? && f.largest < |e.emitted| {
      AckReleases(e.(ackPending := e.ackPending || IsAckEliciting(f)), f.ranges, |e.emitted|);
    }
  }

  /** Receiving packet `pn` of `y`: every frame of it is acted on. */
  lemma ReceiveKept(x: Endpoint, y: Endpoint, pn: nat)
    requires Inv(x, y) && Kept(x, y) && Kept(y, x) && pn < |y.emitted|
    ensures var x' := Receive(x, pn, y.emitted[pn]); Kept(x', y) && Kept(y, x')
  {
    hide InvBut, AllPromised, Heeds, Known, HandleAll, Has, Insert, Covers, Truthful;
    Facts(x, y);
    Symmetric(x, y);
    Facts(y, x);
    if !Covers(x.received, pn, pn + 1) {
      var r := Record(x, pn);
      SameGrants(x, r, y);
      PayloadPromises(r, y, y.emitted[pn]);
      PayloadRecord(r, y.emitted[pn]);
      var x' := HandleAll(r, y.emitted[pn]);
      TransferReceive.ReceiveKeeps(x, y, pn);
      Facts(x', y);
      BoundMoves(y, x, x');
      RecordOfInv(x, y);
      InsertIsUnion(x.received, pn, pn + 1);
    }
  }

  lemma RecordOfInv(x: Endpoint, y: Endpoint)
    requires Inv(x, y)
    ensures Normal(x.received)
  {
    hide Pairs, SentOk, AdvertsOk, Credit, TransferInv.Kept, HoldsPacket, Has;
  }

  lemma ActKept(x: Endpoint, y: Endpoint, a: Action)
    requires Inv(x, y) && Kept(x, y) && Kept(y, x)
    ensures Kept(Act(x, y, a), y) && Kept(y, Act(x, y, a))
  {
    hide InvBut, AllPromised, Heeds, Known, Receive, Has;
    if a.ActReceive? {
      if a.pn < |y.emitted| && x.failed.None? { ReceiveKept(x, y, a.pn); }
    } else {
      LocalKept(x, y, a);
      BoundMoves(y, x, Act(x, y, a));
    }
  }

  lemma NextKept(s: System, t: Step)
    requires Inv(s.left, s.right) && Kept(s.left, s.right) && Kept(s.right, s.left)
    ensures var u := Next(s, t); Kept(u.left, u.right) && Kept(u.right, u.left)
  {
    hide InvBut, Act, AllPromised, Heeded;
    Symmetric(s.left, s.right);
    if t.onLeft { ActKept(s.left, s.right, t.action); } else { ActKept(s.right, s.left, t.action); }
  }

  lemma StartKept(isClient: bool, local: Limits, other: Limits)
    ensures Kept(NewEndpoint(isClient, local, other), NewEndpoint(!isClient, other, local))
  {
    var x, y := NewEndpoint(isClient, local, other), NewEndpoint(!isClient, other, local);
    forall l | InUse(l) ensures Promised(x, y, l) {
      if l.StreamLimit? { CreditsMatch(isClient, local, l.id); }
    }
  }

  /** Both sides start a bidirectional stream from the same transport parameter. */
  lemma CreditsMatch(isClient: bool, local: Limits, id: nat)
    ensures IsBidirectional(id) ==> SendCredit(!isClient, local, id) == RecvCredit(isClient, local, id)
  {
  }

  lemma {:induction false} RunKept(client: Limits, server: Limits, steps: seq<Step>)
    ensures var s := Run(Start(client, server), steps); Kept(s.left, s.right) && Kept(s.right, s.left)
    decreases |steps|
  {
    hide Kept, Next;
    if steps == [] {
      StartKept(true, client, server);
      StartKept(false, server, client);
    } else {
      var before := steps[..|steps| - 1];
      RunKept(client, server, before);
      RunKeeps(client, server, before);
      NextKept(Run(Start(client, server), before), steps[|steps| - 1]);
    }
  }

  // ------------------------------------------------------------------ theorems

  /** In every run, each current limit (for the connection, for the number of streams of
      either kind, for every stream) is the one the peer holds, or a frame at that
      value is queued or in a packet recovery still holds. */
  lemma NoCreditLeftBehind(client: Limits, server: Limits, steps: seq<Step>, fromLeft: bool, l: Limit)
    requires InUse(l)
    ensures var (y, x) := Ends(client, server, steps, fromLeft);
            Known(y.mgr, l) == Granted(x.mgr, l) || Underway(x, Advert(l, Granted(x.mgr, l)))
  {
    hide Run, Start, Granted, Known, Underway, Heeded, Advert;
    RunKept(client, server, steps);
    var (y, x) := Ends(client, server, steps, fromLeft);
    assert Promised(x, y, l);
    KnownIsGranted(client, server, steps, fromLeft, l);
  }

  lemma KnownIsGranted(client: Limits, server: Limits, steps: seq<Step>, fromLeft: bool, l: Limit)
    requires InUse(l)
    ensures var (y, x) := Ends(client, server, steps, fromLeft); Known(y.mgr, l) <= Granted(x.mgr, l)
  {
    hide Run, Start, SentOk, AdvertsOk, Absorbed, Credit, TransferInv.Kept, Table;
    EndsKeep(client, server, steps, fromLeft);
    var (y, x) := Ends(client, server, steps, fromLeft);
    if l.StreamLimit? {
      CreditAgreement(client, server, steps, fromLeft, l.id);
      assert PairAt(TxOf(y), RxOf(x), l.id);
    } else {
      CreditAgreement(client, server, steps, fromLeft, 0);
    }
  }

  /** So once nothing is queued and no credit is in a packet held, the peer holds every
      current limit. */
  lemma IdleMeansCreditKnown(client: Limits, server: Limits, steps: seq<Step>, fromLeft: bool, l: Limit)
    requires InUse(l)
    ensures var (y, x) := Ends(client, server, steps, fromLeft);
            x.control == [] && (forall n, v :: n in x.held && n < |x.emitted| ==> Advert(l, v) !in x.emitted[n]) ==>
              Known(y.mgr, l) == Granted(x.mgr, l)
  {
    hide Run, Start, Granted, Known, Advert;
    NoCreditLeftBehind(client, server, steps, fromLeft, l);
  }
}
