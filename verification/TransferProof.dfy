/** Every move of either endpoint keeps the invariant of the system, and what
    follows for every run. */
module TransferProof {
  import opened Options
  import opened Buffers
  import opened RangeSets
  import opened Frames
  import opened Acks
  import opened Streams
  import opened Managers
  import opened Delivery
  import opened Transfer
  import opened Totals
  import opened TransferInv
  import opened SenderSide
  import opened ReceiverSide

  // ------------------------------------------------------------ the stream table

  lemma TableKnows(x: Endpoint, y: Endpoint, id: nat)
    requires Table(x, y) && (id in x.mgr.send || id in x.mgr.recv || id in x.mgr.order)
    ensures id in x.mgr.send && id in x.mgr.recv && id in x.mgr.order && Distinct(x.mgr.order)
  {
    assert id in (set i | i in x.mgr.order);
  }

  /** The table of `x` when its streams stay and the peer's may grow. */
  lemma TableStays(x: Endpoint, x': Endpoint, y: Endpoint, y': Endpoint)
    requires Table(x, y)
    requires x'.mgr.send.Keys == x.mgr.send.Keys && x'.mgr.recv.Keys == x.mgr.recv.Keys && x'.mgr.order == x.mgr.order
    requires x'.mgr.isClient == x.mgr.isClient && x'.mgr.nextBidi == x.mgr.nextBidi
    requires x.mgr.maxStreamsBidi <= x'.mgr.maxStreamsBidi
    requires x'.written.Keys <= x.mgr.send.Keys && x'.log.Keys <= x.mgr.recv.Keys
    requires y.mgr.send.Keys <= y'.mgr.send.Keys
    ensures Table(x', y')
  {
  }

  lemma SideOf(x: Endpoint, y: Endpoint)
    requires Table(x, y)
    ensures Distinct(x.mgr.order)
    ensures forall id :: id in x.mgr.send ==> id in x.mgr.order
    ensures x.written.Keys <= x.mgr.send.Keys && x.log.Keys <= x.mgr.recv.Keys
  {
    forall id | id in x.mgr.send ensures id in x.mgr.order { TableKnows(x, y, id); }
  }

  /** The streams of `x` stay and its allowance does not fall. */
  ghost predicate SameStreams(x: Endpoint, x': Endpoint) {
    && x'.mgr.send.Keys == x.mgr.send.Keys && x'.mgr.recv.Keys == x.mgr.recv.Keys && x'.mgr.order == x.mgr.order
    && x'.mgr.isClient == x.mgr.isClient && x'.mgr.nextBidi == x.mgr.nextBidi
    && x.mgr.maxStreamsBidi <= x'.mgr.maxStreamsBidi
    && x'.written.Keys <= x.written.Keys + x.mgr.send.Keys && x'.log.Keys <= x.log.Keys + x.mgr.recv.Keys
    && x'.failed == x.failed
  }

  /** A move that keeps both directions and the streams keeps the invariant. */
  lemma MoveKeeps(x: Endpoint, x': Endpoint, y: Endpoint, skip: int, skip': int)
    requires InvBut(x, y, skip) && SameStreams(x, x')
    requires Dir(TxOf(x'), RxOf(y), -1) && Dir(TxOf(y), RxOf(x'), skip')
    ensures InvBut(x', y, skip')
  {
    hide Dir;
    SideOf(x, y);
    SideOf(y, x);
    TableStays(x, x', y, y);
    TableStays(y, y, x, x');
  }

  lemma TableAdds(x: Endpoint, y: Endpoint, id: nat, next: nat)
    requires Table(x, y) && id !in x.mgr.recv && IsBidirectional(id)
    requires x.mgr.nextBidi <= next <= x.mgr.maxStreamsBidi
    requires if LocalId(x.mgr.isClient, id) then id / 4 < next else id in y.mgr.send
    ensures id !in x.mgr.send && id !in x.mgr.order
    ensures Table(x.(mgr := AddStream(x.mgr, id, true).(nextBidi := next)), y)
  {
    var m := x.mgr;
    var m' := AddStream(x.mgr, id, true).(nextBidi := next);
    assert id !in (set i | i in m.order);
    assert (set i | i in m'.order) == (set i | i in m.order) + {id};
    DistinctSnoc(m.order, id);
  }

  /** A new stream joins both halves of the table. */
  lemma AddKeeps(x: Endpoint, y: Endpoint, skip: int, id: nat, next: nat)
    requires InvBut(x, y, skip) && id !in x.mgr.recv && IsBidirectional(id)
    requires x.mgr.nextBidi <= next <= x.mgr.maxStreamsBidi
    requires if LocalId(x.mgr.isClient, id) then id / 4 < next else id in y.mgr.send
    ensures InvBut(x.(mgr := AddStream(x.mgr, id, true).(nextBidi := next)), y, skip)
  {
    hide Dir;
    SideOf(y, x);
    TableAdds(x, y, id, next);
    AddSendSide(TxOf(x), RxOf(y), -1, id);
    AddRecvSide(TxOf(y), RxOf(x), skip, id);
    TableStays(y, y, x, x.(mgr := AddStream(x.mgr, id, true).(nextBidi := next)));
  }

  // ---------------------------------------------------------- application moves

  lemma NextIdIsNew(x: Endpoint, y: Endpoint)
    requires Table(x, y)
    ensures var id := BidiId(x.mgr.isClient, x.mgr.nextBidi);
            id !in x.mgr.recv && IsBidirectional(id) && LocalId(x.mgr.isClient, id) && id / 4 == x.mgr.nextBidi
  {
    var id := BidiId(x.mgr.isClient, x.mgr.nextBidi);
    BidiIdNumber(x.mgr.isClient, x.mgr.nextBidi);
    assert id in x.mgr.recv ==> id in x.mgr.send;
  }

  lemma OpenKeeps(x: Endpoint, y: Endpoint)
    requires Inv(x, y)
    ensures Inv(Open(x), y)
  {
    hide Dir, Table, AddStream;
    match OpenBidi(x.mgr)
    case None => QueueKeeps(x, y, -1, StreamsBlocked(x.mgr.maxStreamsBidi, true));
    case Some((mgr, id)) =>
      NextIdIsNew(x, y);
      AddKeeps(x, y, -1, id, x.mgr.nextBidi + 1);
  }

  lemma WriteDataKeeps(x: Endpoint, y: Endpoint, id: nat, data: Bytes, fin: bool)
    requires Inv(x, y)
    ensures Inv(WriteData(x, id, data, fin), y)
  {
    hide Dir, Write, Table;
    if id in x.mgr.send && Write(x.mgr.send[id], data, fin).Some? {
      var x' := WriteData(x, id, data, fin);
      SideOf(x, y);
      SideOf(y, x);
      WriteSide(TxOf(x), RxOf(y), -1, id, data, fin);
      assert RxOf(x') == RxOf(x);
      TableStays(x, x', y, y);
      TableStays(y, y, x, x');
    }
  }

  // --------------------------------------------------------------- sending moves

  /** A packet is being built and everything else is in order. */
  ghost predicate InvBuild(x: Endpoint, y: Endpoint) { Inv(x, y) && Building(TxOf(x), RxOf(y)) }

  lemma NewPacketKeeps(x: Endpoint, y: Endpoint)
    requires Inv(x, y)
    ensures InvBuild(NewPacket(x), y)
  {
    hide Dir, Building;
    NewPacketSide(TxOf(x), RxOf(y), -1);
    NewPacketAdvert(TxOf(y), RxOf(x), -1);
    SideOf(x, y);
    SideOf(y, x);
    TableStays(x, NewPacket(x), y, y);
    TableStays(y, y, x, NewPacket(x));
  }

  lemma RecordOf(t: Tx, r: Rx, skip: int)
    requires Dir(t, r, skip)
    ensures RecordOk(r.received, r.largestReceived)
  {
  }

  /** Putting a frame that carries no stream data and is in order as an advert. */
  lemma PutKeeps(x: Endpoint, y: Endpoint, f: Frame, control: seq<Frame>, ackPending: bool)
    requires InvBuild(x, y) && !f.Stream? && x.emitted != []
    requires Dir(TxOf(y), RxOf(x).(control := control), -1) && AdvertOk(TxOf(y), RxOf(x).(control := control), f)
    ensures InvBuild(x.(emitted := Put(x.emitted, f), control := control, ackPending := ackPending), y)
  {
    hide Dir, Building, AdvertOk;
    var x' := x.(emitted := Put(x.emitted, f), control := control, ackPending := ackPending);
    PutOtherSide(TxOf(x), RxOf(y), -1, f);
    PutAdvertSide(TxOf(y), RxOf(x).(control := control), -1, f);
    SideOf(x, y);
    SideOf(y, x);
    TableStays(x, x', y, y);
    TableStays(y, y, x, x');
  }

  lemma EmitKeeps(x: Endpoint, y: Endpoint, id: nat, maxBytes: int)
    requires InvBuild(x, y) && x.emitted != [] && id in x.mgr.send && TakeFrame(x.mgr, id, maxBytes).1.Some?
    ensures InvBuild(Append(x, ItemStream(id, maxBytes)), y)
  {
    hide Dir, Building, NextFrame, Table;
    var x' := Append(x, ItemStream(id, maxBytes));
    SideOf(x, y);
    SideOf(y, x);
    EmitSide(TxOf(x), RxOf(y), -1, id, maxBytes);
    var (u, f) := NextFrame(x.mgr.send[id], maxBytes, x.mgr.maxData - x.mgr.dataSent);
    assert TxOf(x') == Emit(TxOf(x), id, u, f.value);
    PutAdvertSide(TxOf(y), RxOf(x), -1, f.value);
    TableStays(x, x', y, y);
    TableStays(y, y, x, x');
  }

  lemma AppendKeeps(x: Endpoint, y: Endpoint, item: Item)
    requires InvBuild(x, y) && x.emitted != []
    ensures InvBuild(Append(x, item), y)
  {
    hide Dir, Building, AdvertOk;
    match item
    case ItemAck =>
      RecordOf(TxOf(y), RxOf(x), -1);
      if BuildAck(x.received, x.largestReceived, x.ackPending, None).Some? {
        AckIsSound(TxOf(y), RxOf(x), x.ackPending);
        PutKeeps(x, y, BuildAck(x.received, x.largestReceived, x.ackPending, None).value, x.control, false);
      }
    case ItemControl =>
      if x.control != [] {
        PopControlSide(TxOf(y), RxOf(x), -1);
        PoppedAdvert(TxOf(y), RxOf(x));
        PutKeeps(x, y, x.control[0], x.control[1..], x.ackPending);
      }
    case ItemStream(id, maxBytes) =>
      if id in x.mgr.send && TakeFrame(x.mgr, id, maxBytes).1.Some? { EmitKeeps(x, y, id, maxBytes); }
    case ItemOther(f) =>
      if Inert(f) {
        InertAdvert(TxOf(y), RxOf(x), f);
        PutKeeps(x, y, f, x.control, x.ackPending);
      }
  }

  lemma InertAdvert(t: Tx, r: Rx, f: Frame)
    requires Inert(f)
    ensures AdvertOk(t, r, f)
  {
  }

  lemma PoppedAdvert(t: Tx, r: Rx)
    requires r.control != [] && AdvertOk(t, r, r.control[0])
    ensures AdvertOk(t, r.(control := r.control[1..]), r.control[0])
  {
  }

  lemma {:induction false} AppendAllKeeps(x: Endpoint, y: Endpoint, items: seq<Item>)
    requires InvBuild(x, y) && x.emitted != []
    ensures InvBuild(AppendAll(x, items), y)
    decreases |items|
  {
    hide InvBuild, Append;
    if items != [] {
      AppendKeeps(x, y, items[0]);
      AppendAllKeeps(Append(x, items[0]), y, items[1..]);
    }
  }

  lemma SendKeeps(x: Endpoint, y: Endpoint, items: seq<Item>)
    requires Inv(x, y)
    ensures Inv(Send(x, items), y)
  {
    hide InvBut, Building;
    NewPacketKeeps(x, y);
    AppendAllKeeps(NewPacket(x), y, items);
  }

  // ------------------------------------------------------------- loss and probes

  /** What requeueing leaves as it is. */
  ghost predicate SameBut(x: Endpoint, x': Endpoint) {
    && x'.emitted == x.emitted && x'.held == x.held
    && x'.mgr.send.Keys == x.mgr.send.Keys
    && (forall id :: id in x.mgr.send ==> Keeps(x.mgr.send[id], x'.mgr.send[id]))
  }

  lemma KeepsRefl(s: Sender)
    ensures Keeps(s, s)
  {
  }

  lemma KeepsTrans(s: Sender, u: Sender, v: Sender)
    requires Keeps(s, u) && Keeps(u, v)
    ensures Keeps(s, v)
  {
    hide Has, Carries, CarriesFin;
  }

  lemma SameButTrans(x: Endpoint, y: Endpoint, z: Endpoint)
    requires SameBut(x, y) && SameBut(y, z)
    ensures SameBut(x, z)
  {
    hide Keeps;
    forall id | id in x.mgr.send ensures Keeps(x.mgr.send[id], z.mgr.send[id]) {
      KeepsTrans(x.mgr.send[id], y.mgr.send[id], z.mgr.send[id]);
    }
  }

  lemma ReleasedStays(t: Tx, t': Tx, f: Frame)
    requires Released(t, f) && (f.Stream? ==> f.id in t.send && f.id in t'.send && Keeps(t.send[f.id], t'.send[f.id]))
    ensures Released(t', f)
  {
    hide Has, Carries, CarriesFin;
    if f.Stream? {
      var s, u := SenderOf(t, f.id), SenderOf(t', f.id);
      forall x | f.offset <= x < f.offset + |f.data| ensures Has(u.acked, x) || Carries(u.retransmit, f.id, x) {
        assert Has(s.acked, x) || Carries(s.retransmit, f.id, x);
      }
    }
  }

  lemma FrameEmitted(t: Tx, r: Rx, skip: int, n: nat, k: nat)
    requires Dir(t, r, skip) && n < |t.emitted| && k < |t.emitted[n]|
    ensures SentFrameOk(t, t.emitted[n][k])
  {
  }

  lemma AdvertEmitted(t: Tx, r: Rx, skip: int, n: nat, k: nat)
    requires Dir(t, r, skip) && n < |r.emitted| && k < |r.emitted[n]|
    ensures AdvertOk(t, r, r.emitted[n][k])
  {
  }

  lemma RequeueStreamKeeps(x: Endpoint, y: Endpoint, f: StreamFrame)
    requires Inv(x, y) && SentFrameOk(TxOf(x), f)
    ensures var x' := RequeueFrame(x, f); Inv(x', y) && SameBut(x, x') && Released(TxOf(x'), f)
  {
    hide Dir, Has, FrameOk, Requeue, Table, Keeps;
    SideOf(x, y);
    SideOf(y, x);
    RequeueSide(TxOf(x), RxOf(y), -1, f);
    var x' := RequeueFrame(x, f);
    assert TxOf(x') == SetSender(TxOf(x), f.id, Requeue(x.mgr.send[f.id], f), x.written);
    assert RxOf(x') == RxOf(x);
    forall id | id in x.mgr.send ensures Keeps(x.mgr.send[id], x'.mgr.send[id]) { KeepsRefl(x.mgr.send[id]); }
    TableStays(x, x', y, y);
    TableStays(y, y, x, x');
  }

  lemma QueueKeeps(x: Endpoint, y: Endpoint, skip: int, f: Frame)
    requires InvBut(x, y, skip) && AdvertOk(TxOf(y), RxOf(x), f) && IsControl(f)
    ensures InvBut(x.(control := x.control + [f]), y, skip)
    ensures SameBut(x, x.(control := x.control + [f]))
  {
    hide Dir, AdvertOk;
    QueueSide(TxOf(y), RxOf(x), skip, f);
    SideOf(x, y);
    SideOf(y, x);
    var x' := x.(control := x.control + [f]);
    forall id | id in x.mgr.send ensures Keeps(x.mgr.send[id], x'.mgr.send[id]) { KeepsRefl(x.mgr.send[id]); }
    TableStays(x, x', y, y);
    TableStays(y, y, x, x');
  }

  lemma RequeueFrameKeeps(x: Endpoint, y: Endpoint, n: nat, k: nat)
    requires Inv(x, y) && n < |x.emitted| && k < |x.emitted[n]|
    ensures var x' := RequeueFrame(x, x.emitted[n][k]);
            Inv(x', y) && SameBut(x, x') && Released(TxOf(x'), x.emitted[n][k])
  {
    hide Dir, Has, FrameOk, Keeps, SentFrameOk, Table;
    var f := x.emitted[n][k];
    FrameEmitted(TxOf(x), RxOf(y), -1, n, k);
    AdvertEmitted(TxOf(y), RxOf(x), -1, n, k);
    if f.Stream? {
      RequeueStreamKeeps(x, y, f);
    } else if f.MaxData? {
      QueueKeeps(x, y, -1, MaxData(x.mgr.localMaxData));
    } else if f.MaxStreamData? {
      QueueKeeps(x, y, -1, MaxStreamData(f.creditId, x.mgr.recv[f.creditId].maxStreamData));
    } else if f.MaxStreams? {
      QueueKeeps(x, y, -1, MaxStreams(LocalStreams(x.mgr, f.bidi), f.bidi));
    } else {
      forall id | id in x.mgr.send ensures Keeps(x.mgr.send[id], x.mgr.send[id]) { KeepsRefl(x.mgr.send[id]); }
    }
  }

  lemma {:induction false} RequeueAllKeeps(x: Endpoint, y: Endpoint, n: nat, k: nat)
    requires Inv(x, y) && n < |x.emitted| && k <= |x.emitted[n]|
    ensures var x' := RequeueAll(x, x.emitted[n][k..]);
            && Inv(x', y) && SameBut(x, x')
            && (forall j :: k <= j < |x.emitted[n]| ==> Released(TxOf(x'), x.emitted[n][j]))
    decreases |x.emitted[n]| - k
  {
    hide InvBut, RequeueFrame, Keeps, Released, SentFrameOk;
    var p := x.emitted[n];
    if k == |p| {
      forall id | id in x.mgr.send ensures Keeps(x.mgr.send[id], x.mgr.send[id]) { KeepsRefl(x.mgr.send[id]); }
    } else {
      RequeueFrameKeeps(x, y, n, k);
      var x1 := RequeueFrame(x, p[k]);
      RequeueAllKeeps(x1, y, n, k + 1);
      assert p[k..][0] == p[k] && p[k..][1..] == p[k + 1..];
      var x' := RequeueAll(x1, p[k + 1..]);
      SameButTrans(x, x1, x');
      EmittedSender(x, y, n, k);
      ReleasedStays(TxOf(x1), TxOf(x'), p[k]);
    }
  }

  lemma EmittedSender(x: Endpoint, y: Endpoint, n: nat, k: nat)
    requires Inv(x, y) && n < |x.emitted| && k < |x.emitted[n]|
    ensures x.emitted[n][k].Stream? ==> x.emitted[n][k].id in x.mgr.send
  {
    FrameEmitted(TxOf(x), RxOf(y), -1, n, k);
  }

  lemma ReleaseHeld(x: Endpoint, y: Endpoint, skip: int, pn: nat)
    requires InvBut(x, y, skip) && pn < |x.emitted|
    requires forall k :: 0 <= k < |x.emitted[pn]| ==> Released(TxOf(x), x.emitted[pn][k])
    ensures InvBut(x.(held := x.held - {pn}), y, skip)
  {
    hide Dir, Released;
    ReleaseKeeps(TxOf(x), RxOf(y), -1, pn);
    var x' := x.(held := x.held - {pn});
    SideOf(x, y);
    SideOf(y, x);
    TableStays(x, x', y, y);
    TableStays(y, y, x, x');
  }

  lemma LoseKeeps(x: Endpoint, y: Endpoint, pn: nat)
    requires Inv(x, y)
    ensures Inv(Lose(x, pn), y) && Inv(Probe(x, pn), y)
  {
    hide InvBut, Released;
    if pn in x.held && pn < |x.emitted| {
      assert x.emitted[pn][0..] == x.emitted[pn];
      RequeueAllKeeps(x, y, pn, 0);
      ReleaseHeld(RequeueAll(x, x.emitted[pn]), y, -1, pn);
    }
  }
}
