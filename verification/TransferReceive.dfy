/** Handling a packet of the peer keeps the invariant, and never fails. */
module TransferReceive {
  import opened Options
  import opened Numbers
  import opened RangeSets
  import opened Frames
  import opened Acks
  import opened Streams
  import opened Managers
  import opened Delivery
  import opened Transfer
  import opened TransferInv
  import opened SenderSide
  import opened ReceiverSide
  import opened TransferProof

  // --------------------------------------------------------- acknowledgements

  function WithSend(x: Endpoint, send: map<nat, Sender>): Endpoint { x.(mgr := x.mgr.(send := send)) }

  function AckOne(send: map<nat, Sender>, f: Frame): map<nat, Sender> {
    if f.Stream? && f.id in send then send[f.id := FrameAcked(send[f.id], f)] else send
  }

  lemma SetSenderKeeps(x: Endpoint, x': Endpoint, y: Endpoint, skip: int, id: nat, u: Sender)
    requires InvBut(x, y, skip) && id in x.mgr.send && x' == WithSend(x, x.mgr.send[id := u])
    requires Dir(SetSender(TxOf(x), id, u, x.written), RxOf(y), -1)
    ensures InvBut(x', y, skip)
  {
    hide Dir;
    assert TxOf(x') == SetSender(TxOf(x), id, u, x.written) && RxOf(x') == RxOf(x);
    SideOf(x, y);
    TableStays(x, x', y, y);
    SideOf(y, x);
    TableStays(y, y, x, x');
  }

  lemma AckFrameKeeps(x: Endpoint, y: Endpoint, skip: int, n: nat, k: nat)
    requires InvBut(x, y, skip) && n < |x.emitted| && k < |x.emitted[n]| && HoldsFrame(RxOf(y), x.emitted[n][k])
    ensures var x' := WithSend(x, AckOne(x.mgr.send, x.emitted[n][k]));
            InvBut(x', y, skip) && SameBut(x, x') && Released(TxOf(x'), x.emitted[n][k])
  {
    hide Dir, Has, FrameOk, FrameAcked, Holds, Table, Keeps;
    var f := x.emitted[n][k];
    FrameEmitted(TxOf(x), RxOf(y), -1, n, k);
    var x' := WithSend(x, AckOne(x.mgr.send, f));
    if f.Stream? {
      SideOf(x, y);
      AckedSide(TxOf(x), RxOf(y), -1, f);
      AckedFin(x.mgr.send[f.id], f);
      SetSenderKeeps(x, x', y, skip, f.id, FrameAcked(x.mgr.send[f.id], f));
    }
    forall id | id in x.mgr.send ensures Keeps(x.mgr.send[id], x'.mgr.send[id]) { KeepsRefl(x.mgr.send[id]); }
  }

  lemma AckedFin(s: Sender, f: StreamFrame)
    ensures f.fin ==> FrameAcked(s, f).finAcked
  {
  }

  lemma {:induction false} AckFramesKeeps(x: Endpoint, y: Endpoint, skip: int, n: nat, k: nat)
    requires InvBut(x, y, skip) && n < |x.emitted| && k <= |x.emitted[n]| && HoldsPacket(RxOf(y), x.emitted[n])
    ensures var x' := WithSend(x, AckFrames(x.mgr.send, x.emitted[n][k..]));
            && InvBut(x', y, skip) && SameBut(x, x')
            && (forall j :: k <= j < |x.emitted[n]| ==> Released(TxOf(x'), x.emitted[n][j]))
    decreases |x.emitted[n]| - k
  {
    hide InvBut, Keeps, Released, HoldsFrame, FrameAcked;
    var p := x.emitted[n];
    if k == |p| {
      forall id | id in x.mgr.send ensures Keeps(x.mgr.send[id], x.mgr.send[id]) { KeepsRefl(x.mgr.send[id]); }
      assert WithSend(x, x.mgr.send) == x;
    } else {
      AckFrameKeeps(x, y, skip, n, k);
      var x1 := WithSend(x, AckOne(x.mgr.send, p[k]));
      AckFramesKeeps(x1, y, skip, n, k + 1);
      assert p[k..][0] == p[k] && p[k..][1..] == p[k + 1..];
      var x' := WithSend(x1, AckFrames(x1.mgr.send, p[k + 1..]));
      SameButTrans(x, x1, x');
      SenderOfEmitted(x, y, skip, n, k);
      ReleasedStays(TxOf(x1), TxOf(x'), p[k]);
    }
  }

  lemma SenderOfEmitted(x: Endpoint, y: Endpoint, skip: int, n: nat, k: nat)
    requires InvBut(x, y, skip) && n < |x.emitted| && k < |x.emitted[n]|
    ensures x.emitted[n][k].Stream? ==> x.emitted[n][k].id in x.mgr.send
  {
    FrameEmitted(TxOf(x), RxOf(y), -1, n, k);
  }

  lemma AckPacketKeeps(x: Endpoint, y: Endpoint, skip: int, n: nat)
    requires InvBut(x, y, skip) && n < |x.emitted| && HoldsPacket(RxOf(y), x.emitted[n])
    ensures InvBut(AckPacket(x, n), y, skip)
  {
    hide InvBut, Released, HoldsPacket, AckFrames;
    assert x.emitted[n][0..] == x.emitted[n];
    AckFramesKeeps(x, y, skip, n, 0);
    ReleaseHeld(WithSend(x, AckFrames(x.mgr.send, x.emitted[n])), y, skip, n);
  }

  lemma PeerHolds(x: Endpoint, y: Endpoint, skip: int, n: nat)
    requires InvBut(x, y, skip) && Has(y.received, n)
    ensures n < |x.emitted| && HoldsPacket(RxOf(y), x.emitted[n])
  {
  }

  lemma {:induction false} AckBelowKeeps(x: Endpoint, y: Endpoint, skip: int, ranges: seq<AckRange>, n: nat)
    requires InvBut(x, y, skip) && n <= |x.emitted|
    requires forall pn :: Acknowledges(ranges, pn) ==> Has(y.received, pn)
    ensures var x' := AckBelow(x, ranges, n);
            InvBut(x', y, skip) && x'.mgr.recv == x.mgr.recv
    decreases n
  {
    hide InvBut, Has, Acknowledges, AckFrames;
    if n != 0 {
      AckBelowKeeps(x, y, skip, ranges, n - 1);
      var done := AckBelow(x, ranges, n - 1);
      if n - 1 in x.held && Acknowledges(ranges, n - 1) {
        PeerHolds(done, y, skip, n - 1);
        AckPacketKeeps(done, y, skip, n - 1);
      }
    }
  }

  lemma HandleAckKeeps(x: Endpoint, y: Endpoint, skip: int, largest: int, ranges: seq<AckRange>)
    requires InvBut(x, y, skip) && Has(y.received, largest)
    requires forall pn :: Acknowledges(ranges, pn) ==> Has(y.received, pn)
    ensures InvBut(HandleAck(x, largest, ranges), y, skip)
    ensures HandleAck(x, largest, ranges).mgr.recv == x.mgr.recv
  {
    hide Has, Acknowledges;
    assert 0 <= largest < |x.emitted|;
    AckBelowKeeps(x, y, skip, ranges, |x.emitted|);
  }

  // -------------------------------------------------------------- allowances

  lemma RaiseStreamKeeps(x: Endpoint, y: Endpoint, skip: int, id: nat, maximum: int)
    requires InvBut(x, y, skip) && AdvertOk(TxOf(x), RxOf(y), MaxStreamData(id, maximum))
    ensures id in x.mgr.send && InvBut(WithSend(x, x.mgr.send[id := RaiseCredit(x.mgr.send[id], maximum)]), y, skip)
  {
    hide Dir;
    SideOf(x, y);
    RaiseSide(TxOf(x), RxOf(y), -1, id, maximum);
    var u := RaiseCredit(x.mgr.send[id], maximum);
    SetSenderKeeps(x, WithSend(x, x.mgr.send[id := u]), y, skip, id, u);
  }

  lemma RaiseAllowanceKeeps(x: Endpoint, y: Endpoint, skip: int, data: int, bidi: int, uni: int)
    requires InvBut(x, y, skip)
    requires x.mgr.maxData <= data <= y.mgr.localMaxData
    requires x.mgr.maxStreamsBidi <= bidi <= y.mgr.localStreamsBidi
    requires x.mgr.maxStreamsUni <= uni <= y.mgr.localStreamsUni
    ensures InvBut(x.(mgr := x.mgr.(maxData := data, maxStreamsBidi := bidi, maxStreamsUni := uni)), y, skip)
  {
    hide Dir, Table;
    AllowSide(TxOf(x), RxOf(y), -1, data, bidi, uni);
    var x' := x.(mgr := x.mgr.(maxData := data, maxStreamsBidi := bidi, maxStreamsUni := uni));
    assert TxOf(x') == TxOf(x).(maxData := data, maxStreamsBidi := bidi, maxStreamsUni := uni);
    assert RxOf(x') == RxOf(x);
    MoveKeeps(x, x', y, skip, skip);
  }

  /** A credit frame of the peer raises an allowance within what the peer granted. */
  lemma HandleLimitKeeps(x: Endpoint, y: Endpoint, skip: int, f: Frame)
    requires InvBut(x, y, skip) && AdvertOk(TxOf(x), RxOf(y), f) && (f.MaxData? || f.MaxStreamData? || f.MaxStreams?)
    ensures InvBut(HandleFrame(x, f), y, skip)
    ensures HandleFrame(x, f).mgr.recv == x.mgr.recv
  {
    hide InvBut;
    CreditOf(x, y, skip);
    var d := x.(ackPending := x.ackPending || IsAckEliciting(f));
    PendingKeeps(x, d, y, skip);
    var m := x.mgr;
    if f.MaxStreamData? {
      RaiseStreamKeeps(d, y, skip, f.creditId, f.maxStreamData);
    } else if f.MaxData? {
      RaiseAllowanceKeeps(d, y, skip, Max(m.maxData, f.maxData), m.maxStreamsBidi, m.maxStreamsUni);
    } else if f.bidi {
      RaiseAllowanceKeeps(d, y, skip, m.maxData, Max(m.maxStreamsBidi, f.maxStreams), m.maxStreamsUni);
    } else {
      RaiseAllowanceKeeps(d, y, skip, m.maxData, m.maxStreamsBidi, Max(m.maxStreamsUni, f.maxStreams));
    }
  }

  lemma CreditOf(x: Endpoint, y: Endpoint, skip: int)
    requires InvBut(x, y, skip)
    ensures x.mgr.maxData <= y.mgr.localMaxData
    ensures x.mgr.maxStreamsBidi <= y.mgr.localStreamsBidi && x.mgr.maxStreamsUni <= y.mgr.localStreamsUni
    ensures y.mgr.maxStreamsBidi <= x.mgr.localStreamsBidi && x.mgr.isClient != y.mgr.isClient
    ensures x.mgr.dataWindow >= 0
  {
  }

  // -------------------------------------------------------------- stream data

  function Charged(x: Endpoint, id: nat, u: Receiver): int
    requires id in x.mgr.recv
  {
    x.mgr.dataReceived + u.highest - x.mgr.recv[id].highest
  }

  /** The stream of a frame exists, or the peer may open it. */
  lemma StreamKnown(x: Endpoint, y: Endpoint, skip: int, f: StreamFrame)
    requires InvBut(x, y, skip) && SentFrameOk(TxOf(y), f)
    ensures f.id in x.mgr.recv || CreatePeerInitiated(x.mgr, f.id) == Ok(AddStream(x.mgr, f.id, true))
    ensures f.id !in x.mgr.recv ==>
              var x' := x.(mgr := AddStream(x.mgr, f.id, true));
              InvBut(x', y, skip) && StillHolds(RxOf(x), RxOf(x'))
  {
    if f.id !in x.mgr.recv {
      CreditOf(x, y, skip);
      PeerOpened(x, y, f.id);
      AddKeeps(x, y, skip, f.id, x.mgr.nextBidi);
      var x' := x.(mgr := AddStream(x.mgr, f.id, true));
      forall g: Frame | HoldsFrame(RxOf(x), g) ensures HoldsFrame(RxOf(x'), g) {}
    }
  }

  lemma PeerOpened(x: Endpoint, y: Endpoint, id: nat)
    requires Table(x, y) && Table(y, x) && x.mgr.isClient != y.mgr.isClient
    requires id in y.mgr.send && id !in x.mgr.recv
    ensures !LocalId(x.mgr.isClient, id) && IsBidirectional(id) && id / 4 < y.mgr.nextBidi <= y.mgr.maxStreamsBidi
  {
    assert id !in x.mgr.send;
  }

  function Stored(x: Endpoint, id: nat, u: Receiver, log: map<nat, seq<Chunk>>): Endpoint
    requires id in x.mgr.recv
  {
    x.(mgr := x.mgr.(recv := x.mgr.recv[id := u], dataReceived := Charged(x, id, u)), log := log)
  }

  lemma StoreKeeps(x: Endpoint, y: Endpoint, skip: int, id: nat, u: Receiver, log: map<nat, seq<Chunk>>)
    requires InvBut(x, y, skip) && id in x.mgr.recv
    requires SameLogs(x.log, log, id) && log.Keys <= x.log.Keys + {id}
    requires Pair(SenderOf(TxOf(y), id), WrittenOf(y.written, id), u, LogOf(log, id))
    requires x.mgr.recv[id].maxStreamData <= u.maxStreamData
    requires forall g: StreamFrame :: Holds(x.mgr.recv[id], g) ==> Holds(u, g)
    ensures var x' := Stored(x, id, u, log);
            && InvBut(x', y, skip) && StillHolds(RxOf(x), RxOf(x'))
            && x'.mgr.dataReceived <= x'.mgr.localMaxData
  {
    hide Dir, Pair, Holds, Table;
    var x' := Stored(x, id, u, log);
    TableKnows(x, y, id);
    SideOf(x, y);
    SideOf(y, x);
    SetReceiverKeeps(TxOf(y), RxOf(x), skip, id, u, log);
    assert RxOf(x') == SetReceiver(RxOf(x), id, u, log, Charged(x, id, u));
    assert TxOf(x') == TxOf(x);
    MoveKeeps(x, x', y, skip, skip);
    WithinCredit(TxOf(y), RxOf(x'), skip);
  }

  /** Taking in a frame on a known stream and reading it. */
  lemma TakeInKeeps(x: Endpoint, y: Endpoint, skip: int, f: StreamFrame)
    requires InvBut(x, y, skip) && SentFrameOk(TxOf(y), f) && f.id in x.mgr.recv
    ensures Accept(x.mgr.recv[f.id], f).1 == None
    ensures var (u, more) := Deliver(x.mgr.recv[f.id], LogOf(x.log, f.id), f);
            var x' := Stored(x, f.id, u, x.log[f.id := more]);
            && InvBut(x', y, skip) && StillHolds(RxOf(x), RxOf(x')) && HoldsFrame(RxOf(x'), f)
            && x'.mgr.dataReceived <= x'.mgr.localMaxData
  {
    hide Dir, Table, Pair, FrameOk, Holds, Deliver;
    var (u, more) := Deliver(x.mgr.recv[f.id], LogOf(x.log, f.id), f);
    AtId(TxOf(y), RxOf(x), skip, f.id);
    DeliverKeeps(y.mgr.send[f.id], WrittenOf(y.written, f.id), x.mgr.recv[f.id], LogOf(x.log, f.id), f);
    StoreKeeps(x, y, skip, f.id, u, x.log[f.id := more]);
  }

  // ---------------------------------------------------------- extending credit

  lemma StreamCreditKeeps(x: Endpoint, y: Endpoint, skip: int, id: nat)
    requires InvBut(x, y, skip) && id in x.mgr.recv && id in y.mgr.send
    ensures var x' := ExtendStreamCredit(x, id); InvBut(x', y, skip) && StillHolds(RxOf(x), RxOf(x'))
  {
    hide Dir, Table, Pair, Holds, CreditUpdate;
    var (u, limit) := CreditUpdate(x.mgr.recv[id]);
    AtId(TxOf(y), RxOf(x), skip, id);
    CreditKeeps(y.mgr.send[id], WrittenOf(y.written, id), x.mgr.recv[id], LogOf(x.log, id));
    CreditSameHigh(x.mgr.recv[id]);
    StoreKeeps(x, y, skip, id, u, x.log);
    var x1 := x.(mgr := x.mgr.(recv := x.mgr.recv[id := u]));
    assert x1 == Stored(x, id, u, x.log);
    if limit.Some? {
      QueueKeeps(x1, y, skip, MaxStreamData(id, u.maxStreamData));
      var x2 := x1.(control := x1.control + [MaxStreamData(id, u.maxStreamData)]);
      forall g: Frame | HoldsFrame(RxOf(x), g) ensures HoldsFrame(RxOf(x2), g) { assert HoldsFrame(RxOf(x1), g); }
    }
  }

  lemma CreditSameHigh(r: Receiver)
    ensures CreditUpdate(r).0.highest == r.highest
  {
  }

  lemma GrantKeeps(x: Endpoint, y: Endpoint, skip: int, m: Manager, f: Frame)
    requires InvBut(x, y, skip)
    requires m == x.mgr.(localMaxData := m.localMaxData,
                         localStreamsBidi := m.localStreamsBidi, localStreamsUni := m.localStreamsUni)
    requires x.mgr.localMaxData <= m.localMaxData
    requires x.mgr.localStreamsBidi <= m.localStreamsBidi && x.mgr.localStreamsUni <= m.localStreamsUni
    requires || f == MaxData(m.localMaxData)
             || f == MaxStreams(m.localStreamsBidi, true) || f == MaxStreams(m.localStreamsUni, false)
    ensures InvBut(x.(mgr := m), y, skip)
    ensures InvBut(x.(mgr := m, control := x.control + [f]), y, skip)
  {
    hide Dir;
    GrantSide(TxOf(y), RxOf(x), skip, m.localMaxData, m.localStreamsBidi, m.localStreamsUni);
    var x1 := x.(mgr := m);
    assert TxOf(x1) == TxOf(x);
    assert RxOf(x1) == RxOf(x).(localMaxData := m.localMaxData,
                                localStreamsBidi := m.localStreamsBidi, localStreamsUni := m.localStreamsUni);
    SideOf(x, y);
    SideOf(y, x);
    TableStays(x, x1, y, y);
    TableStays(y, y, x, x1);
    QueueKeeps(x1, y, skip, f);
  }

  lemma DataLimitKeeps(x: Endpoint, y: Endpoint, skip: int)
    requires InvBut(x, y, skip)
    ensures InvBut(ExtendData(x), y, skip) && ExtendData(x).mgr.recv == x.mgr.recv
  {
    hide Dir;
    CreditOf(x, y, skip);
    var m := MaxDataUpdate(x.mgr).0;
    GrantKeeps(x, y, skip, m, MaxData(m.localMaxData));
  }

  lemma StreamLimitKeeps(x: Endpoint, y: Endpoint, skip: int, bidi: bool)
    requires InvBut(x, y, skip)
    ensures InvBut(ExtendStreams(x, bidi), y, skip) && ExtendStreams(x, bidi).mgr.recv == x.mgr.recv
  {
    hide Dir;
    var m := MaxStreamsUpdate(x.mgr, bidi).0;
    GrantKeeps(x, y, skip, m, MaxStreams(LocalStreams(m, bidi), bidi));
  }

  lemma ExtendKeeps(x: Endpoint, y: Endpoint, skip: int, id: nat)
    requires InvBut(x, y, skip) && id in x.mgr.recv && id in y.mgr.send
    ensures var x' := ExtendCredit(x, id); InvBut(x', y, skip) && StillHolds(RxOf(x), RxOf(x'))
  {
    hide InvBut, ExtendStreamCredit, ExtendData, ExtendStreams, Holds;
    StreamCreditKeeps(x, y, skip, id);
    var x1 := ExtendStreamCredit(x, id);
    DataLimitKeeps(x1, y, skip);
    var x2 := ExtendData(x1);
    StreamLimitKeeps(x2, y, skip, true);
    var x3 := ExtendStreams(x2, true);
    StreamLimitKeeps(x3, y, skip, false);
    var x4 := ExtendStreams(x3, false);
    forall g: Frame | HoldsFrame(RxOf(x), g) ensures HoldsFrame(RxOf(x4), g) { assert HoldsFrame(RxOf(x1), g); }
  }

  // ------------------------------------------------------------- whole packets

  /** Handling a stream frame of the peer never fails. */
  lemma HandleStreamKeeps(x: Endpoint, y: Endpoint, skip: int, f: StreamFrame)
    requires InvBut(x, y, skip) && SentFrameOk(TxOf(y), f)
    ensures var x' := HandleStream(x, f);
            InvBut(x', y, skip) && StillHolds(RxOf(x), RxOf(x')) && HoldsFrame(RxOf(x'), f)
  {
    hide InvBut, ExtendCredit, HandleStream, Deliver, Holds, AddStream, FrameOk;
    StreamKnown(x, y, skip, f);
    var x1 := if f.id in x.mgr.recv then x else x.(mgr := AddStream(x.mgr, f.id, true));
    AddedStream(x.mgr, f.id);
    TakeInKeeps(x1, y, skip, f);
    var (u, more) := Deliver(x1.mgr.recv[f.id], LogOf(x1.log, f.id), f);
    var x2 := Stored(x1, f.id, u, x1.log[f.id := more]);
    HandleStreamIs(x, x1, f);
    ExtendKeeps(x2, y, skip, f.id);
    forall g: Frame | HoldsFrame(RxOf(x), g) ensures HoldsFrame(RxOf(HandleStream(x, f)), g) {
      assert HoldsFrame(RxOf(x1), g);
      assert HoldsFrame(RxOf(x2), g);
    }
  }

  /** `_handle_stream` on a stream that is there, or has just been added. */
  lemma HandleStreamIs(x: Endpoint, x1: Endpoint, f: StreamFrame)
    requires if f.id in x.mgr.recv then x1 == x
             else x1 == x.(mgr := AddStream(x.mgr, f.id, true)) && CreatePeerInitiated(x.mgr, f.id) == Ok(x1.mgr)
    requires f.id in x1.mgr.recv && Accept(x1.mgr.recv[f.id], f).1 == None
    requires var (u, more) := Deliver(x1.mgr.recv[f.id], LogOf(x1.log, f.id), f);
             Charged(x1, f.id, u) <= x1.mgr.localMaxData
    ensures var (u, more) := Deliver(x1.mgr.recv[f.id], LogOf(x1.log, f.id), f);
            HandleStream(x, f) == ExtendCredit(Stored(x1, f.id, u, x1.log[f.id := more]), f.id)
  {
    hide ExtendCredit, Accept, Read, AddStream, CreatePeerInitiated;
    var before := x1.mgr.recv[f.id];
    var after := Accept(before, f).0;
    ReadSameHigh(after);
    var (u, data) := Read(after);
    var m := AcceptFrame(x.mgr, f).0;
    assert m == x1.mgr.(recv := x1.mgr.recv[f.id := after], dataReceived := Charged(x1, f.id, u));
    assert AcceptFrame(x.mgr, f).1 == None;
    assert m.recv[f.id := u] == x1.mgr.recv[f.id := u];
  }

  lemma AddedStream(m: Manager, id: nat)
    ensures id in AddStream(m, id, true).recv
  {
  }

  lemma ReadSameHigh(r: Receiver)
    ensures Read(r).0.highest == r.highest
  {
  }

  lemma HandleFrameKeeps(x: Endpoint, y: Endpoint, skip: int, n: nat, k: nat)
    requires InvBut(x, y, skip) && n < |y.emitted| && k < |y.emitted[n]|
    ensures var f := y.emitted[n][k];
            var x' := HandleFrame(x, f);
            InvBut(x', y, skip) && StillHolds(RxOf(x), RxOf(x')) && HoldsFrame(RxOf(x'), f)
  {
    hide Dir, Table, HandleStream, HandleAck, Has, Acknowledges, FrameOk, Holds;
    var f := y.emitted[n][k];
    FrameEmitted(TxOf(y), RxOf(x), skip, n, k);
    AdvertEmitted(TxOf(x), RxOf(y), -1, n, k);
    var d := x.(ackPending := x.ackPending || IsAckEliciting(f));
    PendingKeeps(x, d, y, skip);
    if f.Stream? {
      HandleStreamKeeps(d, y, skip, f);
    } else {
      if f.Ack? {
        HandleAckKeeps(d, y, skip, f.largest, f.ranges);
      } else if f.MaxData? || f.MaxStreamData? || f.MaxStreams? {
        HandleLimitKeeps(x, y, skip, f);
      }
      assert HandleFrame(x, f).mgr.recv == x.mgr.recv;
      forall g: Frame | HoldsFrame(RxOf(x), g) ensures HoldsFrame(RxOf(HandleFrame(x, f)), g) {}
    }
  }

  lemma PendingKeeps(x: Endpoint, d: Endpoint, y: Endpoint, skip: int)
    requires InvBut(x, y, skip) && d == x.(ackPending := d.ackPending)
    ensures InvBut(d, y, skip)
  {
    hide Dir;
    assert TxOf(d) == TxOf(x) && RxOf(d) == RxOf(x);
    SideOf(x, y);
    SideOf(y, x);
    TableStays(x, d, y, y);
    TableStays(y, y, x, d);
  }

  lemma {:induction false} HandleAllKeeps(x: Endpoint, y: Endpoint, n: nat, k: nat)
    requires InvBut(x, y, n) && n < |y.emitted| && k <= |y.emitted[n]|
    requires forall j :: 0 <= j < k ==> HoldsFrame(RxOf(x), y.emitted[n][j])
    ensures var x' := HandleAll(x, y.emitted[n][k..]);
            InvBut(x', y, n) && HoldsPacket(RxOf(x'), y.emitted[n])
    decreases |y.emitted[n]| - k
  {
    hide InvBut, HandleFrame, HoldsFrame;
    var p := y.emitted[n];
    NotFailed(x, y, n);
    if k < |p| {
      HandleFrameKeeps(x, y, n, n, k);
      assert p[k..][0] == p[k] && p[k..][1..] == p[k + 1..];
      HandleAllKeeps(HandleFrame(x, p[k]), y, n, k + 1);
    }
  }

  lemma NotFailed(x: Endpoint, y: Endpoint, skip: int)
    requires InvBut(x, y, skip)
    ensures x.failed.None?
  {
  }

  lemma RecordKeeps(x: Endpoint, y: Endpoint, pn: nat)
    requires Inv(x, y) && pn < |y.emitted|
    ensures InvBut(Record(x, pn), y, pn)
  {
    hide Dir, Insert;
    RecordSide(TxOf(y), RxOf(x), pn);
    SideOf(x, y);
    SideOf(y, x);
    TableStays(x, Record(x, pn), y, y);
    TableStays(y, y, x, Record(x, pn));
  }

  lemma ReceiveKeeps(x: Endpoint, y: Endpoint, pn: nat)
    requires Inv(x, y) && pn < |y.emitted|
    ensures Inv(Receive(x, pn, y.emitted[pn]), y)
  {
    hide Dir, Table, HandleAll, HoldsPacket, Record, Covers;
    if !Covers(x.received, pn, pn + 1) {
      RecordKeeps(x, y, pn);
      assert y.emitted[pn][0..] == y.emitted[pn];
      HandleAllKeeps(Record(x, pn), y, pn, 0);
      AbsorbSide(TxOf(y), RxOf(Receive(x, pn, y.emitted[pn])), pn);
    }
  }
}
