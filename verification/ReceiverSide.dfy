/** What the moves of the receiving side keep, for one direction of the connection. */
module ReceiverSide {
  import opened Options
  import opened RangeSets
  import opened Frames
  import opened Acks
  import opened Streams
  import opened Managers
  import opened Delivery
  import opened Transfer
  import opened Totals
  import opened TransferInv
  import opened SenderSide

  /** Nothing the receiver granted or took in is withdrawn. */
  ghost predicate Grants(r: Rx, r': Rx) {
    && r.localMaxData <= r'.localMaxData
    && r.localStreamsBidi <= r'.localStreamsBidi && r.localStreamsUni <= r'.localStreamsUni
    && (forall id :: id in r.recv ==> id in r'.recv && r.recv[id].maxStreamData <= r'.recv[id].maxStreamData)
    && (forall n :: Has(r.received, n) ==> Has(r'.received, n))
  }

  lemma AdvertGrows(t: Tx, r: Rx, r': Rx, f: Frame)
    requires AdvertOk(t, r, f) && Grants(r, r')
    ensures AdvertOk(t, r', f)
  {
  }

  lemma AdvertsGrow(t: Tx, r: Rx, r': Rx)
    requires AdvertsOk(t, r) && Grants(r, r') && r'.emitted == r.emitted && r'.control == r.control
    ensures AdvertsOk(t, r')
  {
    hide AdvertOk;
    forall n, k | 0 <= n < |r'.emitted| && 0 <= k < |r'.emitted[n]| ensures AdvertOk(t, r', r'.emitted[n][k]) {
      AdvertGrows(t, r, r', r.emitted[n][k]);
    }
    forall k | 0 <= k < |r'.control| ensures AdvertOk(t, r', r'.control[k]) && IsControl(r'.control[k]) {
      AdvertGrows(t, r, r', r.control[k]);
    }
  }

  ghost predicate StillHolds(r: Rx, r': Rx) { forall f: Frame :: HoldsFrame(r, f) ==> HoldsFrame(r', f) }

  lemma AbsorbedGrows(t: Tx, r: Rx, r': Rx, skip: int)
    requires Absorbed(t, r, skip) && StillHolds(r, r')
    requires r'.received == r.received && r'.largestReceived == r.largestReceived
    ensures Absorbed(t, r', skip)
  {
    hide Has, HoldsFrame;
  }

  // --------------------------------------------------------- packet numbers

  lemma RecordSide(t: Tx, r: Rx, pn: nat)
    requires Dir(t, r, -1) && pn < |t.emitted|
    ensures Dir(t, r.(received := Insert(r.received, pn, pn + 1),
                      largestReceived := if pn > r.largestReceived then pn else r.largestReceived), pn)
  {
    hide Has, Insert, HoldsPacket, Kept;
    var r' := r.(received := Insert(r.received, pn, pn + 1),
                 largestReceived := if pn > r.largestReceived then pn else r.largestReceived);
    RecordNormal(r.received, r.largestReceived);
    InsertIsUnion(r.received, pn, pn + 1);
    RecordingKeeps(r.received, r.largestReceived, pn);
    forall i: nat ensures PairAt(t, r', i) { assert PairAt(t, r, i); }
    AdvertsGrow(t, r, r');
    HoldsPacketsSame(t, r, r');
    forall n | Has(r'.received, n) ensures 0 <= n < |t.emitted| && (n != pn ==> HoldsPacket(r', t.emitted[n])) {}
  }

  lemma RecordNormal(rs: seq<Range>, largest: int)
    requires RecordOk(rs, largest)
    ensures Normal(rs)
  {
  }

  lemma HoldsPacketsSame(t: Tx, r: Rx, r': Rx)
    requires r'.recv == r.recv
    ensures forall p: seq<Frame> :: HoldsPacket(r, p) ==> HoldsPacket(r', p)
  {
    forall p: seq<Frame> | HoldsPacket(r, p) ensures HoldsPacket(r', p) {
      forall k | 0 <= k < |p| ensures HoldsFrame(r', p[k]) { assert HoldsFrame(r, p[k]); }
    }
  }

  /** The packet handled is taken in. */
  lemma AbsorbSide(t: Tx, r: Rx, pn: nat)
    requires Dir(t, r, pn) && pn < |t.emitted| && HoldsPacket(r, t.emitted[pn])
    ensures Dir(t, r, -1)
  {
    hide Has, HoldsPacket, Kept;
  }

  // --------------------------------------------------------------- streams

  function SetReceiver(r: Rx, id: nat, u: Receiver, log: map<nat, seq<Chunk>>, charged: int): Rx {
    r.(recv := r.recv[id := u], log := log, dataReceived := charged)
  }

  ghost predicate SameLogs(a: map<nat, seq<Chunk>>, b: map<nat, seq<Chunk>>, id: nat) {
    forall i: nat :: i != id ==> LogOf(a, i) == LogOf(b, i)
  }

  lemma HighsUpdate(recv: map<nat, Receiver>, id: nat, u: Receiver)
    ensures Highs(recv[id := u]) == Highs(recv)[id := u.highest]
  {
  }

  /** Replacing a receiver by one that holds as much and grants as much. */
  lemma SetReceiverKeeps(t: Tx, r: Rx, skip: int, id: nat, u: Receiver, log: map<nat, seq<Chunk>>)
    requires Dir(t, r, skip) && id in r.recv && id in r.order && Distinct(r.order) && SameLogs(r.log, log, id)
    requires Pair(SenderOf(t, id), WrittenOf(t.written, id), u, LogOf(log, id))
    requires r.recv[id].maxStreamData <= u.maxStreamData
    requires forall g: StreamFrame :: Holds(r.recv[id], g) ==> Holds(u, g)
    ensures Dir(t, SetReceiver(r, id, u, log, r.dataReceived + u.highest - r.recv[id].highest), skip)
    ensures StillHolds(r, SetReceiver(r, id, u, log, r.dataReceived + u.highest - r.recv[id].highest))
  {
    hide Pair, Holds, Has, Kept;
    var r' := SetReceiver(r, id, u, log, r.dataReceived + u.highest - r.recv[id].highest);
    forall i: nat ensures PairAt(t, r', i) { assert PairAt(t, r, i); }
    AdvertsGrow(t, r, r');
    forall f: Frame | HoldsFrame(r, f) ensures HoldsFrame(r', f) {}
    AbsorbedGrows(t, r, r', skip);
    HighsUpdate(r.recv, id, u);
    TotalUpdate(r.order, Highs(r.recv), id, u.highest);
  }

  /** A frame of the sender stays within the connection's credit. */
  lemma WithinCredit(t: Tx, r: Rx, skip: int)
    requires Dir(t, r, skip) && Distinct(t.order) && Distinct(r.order)
    requires forall id :: id in t.send ==> id in t.order
    ensures r.dataReceived <= t.dataSent <= r.localMaxData
  {
    hide Has, Kept, SentOk, AdvertsOk, Absorbed;
    forall id: nat | id in r.order
      ensures Get(Highs(r.recv), id) <= Get(Bases(t.send), id) && (Get(Highs(r.recv), id) > 0 ==> id in t.order)
    {
      assert PairAt(t, r, id);
    }
    TotalLe(r.order, Highs(r.recv), t.order, Bases(t.send));
  }

  // ----------------------------------------------------- credit and control

  /** Queueing a credit frame at its current value. */
  lemma QueueSide(t: Tx, r: Rx, skip: int, f: Frame)
    requires Dir(t, r, skip) && AdvertOk(t, r, f) && IsControl(f)
    ensures Dir(t, r.(control := r.control + [f]), skip)
  {
    hide Has, Kept, Pair, AdvertOk;
    var r' := r.(control := r.control + [f]);
    forall i: nat ensures PairAt(t, r', i) { assert PairAt(t, r, i); }
    AbsorbedSame(t, r, r', skip);
    SameAdverts(t, r, r');
  }

  lemma SameAdverts(t: Tx, r: Rx, r': Rx)
    requires r'.recv == r.recv && r'.received == r.received && r'.localMaxData == r.localMaxData
    requires r'.localStreamsBidi == r.localStreamsBidi && r'.localStreamsUni == r.localStreamsUni
    ensures forall f: Frame :: AdvertOk(t, r, f) ==> AdvertOk(t, r', f)
  {
    forall f: Frame | AdvertOk(t, r, f) ensures AdvertOk(t, r', f) { AdvertGrows(t, r, r', f); }
  }

  lemma AbsorbedSame(t: Tx, r: Rx, r': Rx, skip: int)
    requires Absorbed(t, r, skip) && r'.recv == r.recv
    requires r'.received == r.received && r'.largestReceived == r.largestReceived
    ensures Absorbed(t, r', skip)
  {
    forall f: Frame | HoldsFrame(r, f) ensures HoldsFrame(r', f) {}
    AbsorbedGrows(t, r, r', skip);
  }

  lemma GrantSide(t: Tx, r: Rx, skip: int, data: int, bidi: int, uni: int)
    requires Dir(t, r, skip)
    requires r.localMaxData <= data && r.localStreamsBidi <= bidi && r.localStreamsUni <= uni
    ensures Dir(t, r.(localMaxData := data, localStreamsBidi := bidi, localStreamsUni := uni), skip)
  {
    hide Has, Kept, Pair;
    var r' := r.(localMaxData := data, localStreamsBidi := bidi, localStreamsUni := uni);
    forall i: nat ensures PairAt(t, r', i) { assert PairAt(t, r, i); }
    AbsorbedSame(t, r, r', skip);
    AdvertsGrow(t, r, r');
  }

  // -------------------------------------------------------- packets emitted

  lemma PutAdvertSide(t: Tx, r: Rx, skip: int, f: Frame)
    requires Dir(t, r, skip) && r.emitted != [] && AdvertOk(t, r, f)
    ensures Dir(t, r.(emitted := Put(r.emitted, f)), skip)
  {
    hide Has, Kept, Pair, AdvertOk;
    var r' := r.(emitted := Put(r.emitted, f));
    forall i: nat ensures PairAt(t, r', i) { assert PairAt(t, r, i); }
    AbsorbedSame(t, r, r', skip);
    SameAdverts(t, r, r');
    forall n, k | 0 <= n < |r'.emitted| && 0 <= k < |r'.emitted[n]| ensures AdvertOk(t, r', r'.emitted[n][k]) {
      PutAt(r.emitted, f, n);
      if k < |r.emitted[n]| { assert AdvertOk(t, r, r.emitted[n][k]); }
    }
  }

  lemma NewPacketAdvert(t: Tx, r: Rx, skip: int)
    requires Dir(t, r, skip)
    ensures Dir(t, r.(emitted := r.emitted + [[]]), skip)
  {
    hide Has, Kept, Pair, AdvertOk;
    var r' := r.(emitted := r.emitted + [[]]);
    forall i: nat ensures PairAt(t, r', i) { assert PairAt(t, r, i); }
    AbsorbedSame(t, r, r', skip);
    SameAdverts(t, r, r');
    forall n, k | 0 <= n < |r'.emitted| && 0 <= k < |r'.emitted[n]| ensures AdvertOk(t, r', r'.emitted[n][k]) {
      assert AdvertOk(t, r, r.emitted[n][k]);
    }
  }

  lemma PopControlSide(t: Tx, r: Rx, skip: int)
    requires Dir(t, r, skip) && r.control != []
    ensures Dir(t, r.(control := r.control[1..]), skip)
    ensures AdvertOk(t, r, r.control[0]) && IsControl(r.control[0])
  {
    hide Has, Kept, Pair, AdvertOk;
    var r' := r.(control := r.control[1..]);
    forall i: nat ensures PairAt(t, r', i) { assert PairAt(t, r, i); }
    AbsorbedSame(t, r, r', skip);
    SameAdverts(t, r, r');
    forall k | 0 <= k < |r'.control| ensures AdvertOk(t, r', r'.control[k]) && IsControl(r'.control[k]) {
      assert AdvertOk(t, r, r.control[k + 1]);
    }
  }

  /** An ACK built from the record reports only what was received. */
  lemma AckIsSound(t: Tx, r: Rx, pending: bool)
    requires RecordOk(r.received, r.largestReceived)
    requires BuildAck(r.received, r.largestReceived, pending, None).Some?
    ensures AdvertOk(t, r, BuildAck(r.received, r.largestReceived, pending, None).value)
  {
    hide Has;
    RecordMaximum(r.received, r.largestReceived);
    assert r.received != [];
    forall pn | Acknowledges(Descending(TopRanges(r.received)), pn) ensures Has(r.received, pn) {
      DescendingDenotes(TopRanges(r.received), pn);
      TopRunsReceived(r.received, pn);
    }
  }

  // ------------------------------------------------- connection-wide allowances

  lemma AllowSide(t: Tx, r: Rx, skip: int, data: int, bidi: int, uni: int)
    requires Dir(t, r, skip)
    requires t.maxData <= data <= r.localMaxData
    requires bidi <= r.localStreamsBidi && uni <= r.localStreamsUni
    ensures Dir(t.(maxData := data, maxStreamsBidi := bidi, maxStreamsUni := uni), r, skip)
  {
    hide Has, Pair, Carries, CarriesFin;
    var t' := t.(maxData := data, maxStreamsBidi := bidi, maxStreamsUni := uni);
    forall i: nat ensures PairAt(t', r, i) { assert PairAt(t, r, i); }
    SentFramesSame(t, t');
    AdvertsFollowKeys(t, t', r);
    forall i: nat, x | 0 <= x < SenderOf(t', i).base ensures ByteKept(t', i, x) { assert ByteKept(t, i, x); }
    forall i: nat | SenderOf(t', i).finSent ensures FinKept(t', i) { assert FinKept(t, i); }
  }

  // -------------------------------------------------------------- new streams

  lemma KeptSame(t: Tx, t': Tx)
    requires Kept(t) && t'.emitted == t.emitted && t'.held == t.held
    requires forall i: nat :: SenderOf(t', i) == SenderOf(t, i)
    ensures Kept(t')
  {
    hide Has, Carries, CarriesFin;
    forall i: nat, x | 0 <= x < SenderOf(t', i).base ensures ByteKept(t', i, x) { assert ByteKept(t, i, x); }
    forall i: nat | SenderOf(t', i).finSent ensures FinKept(t', i) { assert FinKept(t, i); }
  }

  lemma AddedSendOk(t: Tx, id: nat, s: Sender)
    requires SentOk(t) && id !in t.send
    ensures SentOk(t.(order := t.order + [id], send := t.send[id := s]))
  {
    hide FrameOk;
    var t' := t.(order := t.order + [id], send := t.send[id := s]);
    forall n, k | 0 <= n < |t'.emitted| && 0 <= k < |t'.emitted[n]| ensures SentFrameOk(t', t'.emitted[n][k]) {
      assert SentFrameOk(t, t.emitted[n][k]);
    }
  }

  lemma AddedCredit(t: Tx, r: Rx, id: nat, s: Sender)
    requires Credit(t, r) && id !in t.send && id !in t.order && s.base == 0
    ensures Credit(t.(order := t.order + [id], send := t.send[id := s]), r)
  {
    hide Total;
    BasesUpdate(t.send, id, s);
    TotalAppend(t.order, Bases(t.send[id := s]), id);
    TotalSame(t.order, Bases(t.send), Bases(t.send[id := s]));
  }

  lemma AddSendSide(t: Tx, r: Rx, skip: int, id: nat)
    requires Dir(t, r, skip) && id !in t.send && id !in t.order
    ensures var s := NewSender(id, SendCredit(t.isClient, t.peer, id));
            Dir(t.(order := t.order + [id], send := t.send[id := s]), r, skip)
  {
    hide Has, Pair, Kept, SentOk, AdvertsOk, Credit, HoldsPacket;
    var s := NewSender(id, SendCredit(t.isClient, t.peer, id));
    var t' := t.(order := t.order + [id], send := t.send[id := s]);
    forall i: nat ensures SenderOf(t', i) == SenderOf(t, i) {}
    forall i: nat ensures PairAt(t', r, i) { assert PairAt(t, r, i); }
    AddedSendOk(t, id, s);
    AdvertsFollowKeys(t, t', r);
    KeptSame(t, t');
    AddedCredit(t, r, id, s);
  }

  lemma AddRecvSide(t: Tx, r: Rx, skip: int, id: nat)
    requires Dir(t, r, skip) && id !in r.recv && id !in r.order
    ensures var u := NewReceiver(id, RecvCredit(r.isClient, r.local, id));
            Dir(t, r.(order := r.order + [id], recv := r.recv[id := u]), skip)
  {
    hide Has, Pair, Kept, Holds;
    var u := NewReceiver(id, RecvCredit(r.isClient, r.local, id));
    var r' := r.(order := r.order + [id], recv := r.recv[id := u]);
    forall i: nat ensures ReceiverOf(r', i) == ReceiverOf(r, i) {}
    forall i: nat ensures PairAt(t, r', i) { assert PairAt(t, r, i); }
    AdvertsGrow(t, r, r');
    forall f: Frame | HoldsFrame(r, f) ensures HoldsFrame(r', f) {}
    AbsorbedGrows(t, r, r', skip);
    HighsUpdate(r.recv, id, u);
    TotalAppend(r.order, Highs(r'.recv), id);
    TotalSame(r.order, Highs(r.recv), Highs(r'.recv));
  }
}
