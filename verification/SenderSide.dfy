/** What the moves of the sending side keep, for one direction of the connection. */
module SenderSide {
  import opened Numbers
  import opened Buffers
  import opened RangeSets
  import opened Frames
  import opened Streams
  import opened Delivery
  import opened Transfer
  import opened Totals
  import opened TransferInv

  /** A sender that has moved without sending: nothing it kept is dropped. */
  ghost predicate Keeps(s: Sender, u: Sender) {
    && u.base == s.base && u.finSent == s.finSent
    && (forall x :: Has(s.acked, x) ==> Has(u.acked, x))
    && (s.finAcked ==> u.finAcked)
    && (forall id: nat, x :: Carries(s.retransmit, id, x) ==> Carries(u.retransmit, id, x))
    && (forall id: nat :: CarriesFin(s.retransmit, id) ==> CarriesFin(u.retransmit, id))
  }

  ghost predicate StillOk(s: Sender, w: Bytes, u: Sender, v: Bytes) {
    forall g: StreamFrame :: FrameOk(s, w, g) ==> FrameOk(u, v, g)
  }

  function SetSender(t: Tx, id: nat, u: Sender, written: map<nat, Bytes>): Tx {
    t.(send := t.send[id := u], written := written)
  }

  ghost predicate SameElsewhere(a: map<nat, Bytes>, b: map<nat, Bytes>, id: nat) {
    forall i: nat :: i != id ==> WrittenOf(a, i) == WrittenOf(b, i)
  }

  lemma SetKeepsPairs(t: Tx, r: Rx, id: nat, u: Sender, v: map<nat, Bytes>)
    requires Pairs(t, r) && id in t.send && u.id == id && SameElsewhere(t.written, v, id)
    requires Pair(u, WrittenOf(v, id), ReceiverOf(r, id), LogOf(r.log, id))
    ensures Pairs(SetSender(t, id, u, v), r)
  {
    var t' := SetSender(t, id, u, v);
    forall i: nat ensures PairAt(t', r, i) {
      assert PairAt(t, r, i);
    }
  }

  lemma SetKeepsSent(t: Tx, id: nat, u: Sender, v: map<nat, Bytes>)
    requires SentOk(t) && id in t.send && SameElsewhere(t.written, v, id)
    requires StillOk(t.send[id], WrittenOf(t.written, id), u, WrittenOf(v, id))
    ensures SentOk(SetSender(t, id, u, v))
  {
    hide FrameOk;
    var t' := SetSender(t, id, u, v);
    forall n, k | 0 <= n < |t'.emitted| && 0 <= k < |t'.emitted[n]| ensures SentFrameOk(t', t'.emitted[n][k]) {
      assert SentFrameOk(t, t.emitted[n][k]);
    }
  }

  lemma SetKeepsKept(t: Tx, id: nat, u: Sender, v: map<nat, Bytes>)
    requires Kept(t) && id in t.send && Keeps(t.send[id], u)
    ensures Kept(SetSender(t, id, u, v))
  {
    hide Has, Carries, CarriesFin;
    var t' := SetSender(t, id, u, v);
    forall i: nat, x | 0 <= x < SenderOf(t', i).base ensures ByteKept(t', i, x) {
      assert ByteKept(t, i, x);
    }
    forall i: nat | SenderOf(t', i).finSent ensures FinKept(t', i) {
      assert FinKept(t, i);
    }
  }

  lemma BasesUpdate(send: map<nat, Sender>, id: nat, u: Sender)
    ensures Bases(send[id := u]) == Bases(send)[id := u.base]
  {
  }

  lemma AdvertsFollowKeys(t: Tx, t': Tx, r: Rx)
    requires AdvertsOk(t, r) && t.send.Keys <= t'.send.Keys
    ensures AdvertsOk(t', r)
  {
    forall n, k | 0 <= n < |r.emitted| && 0 <= k < |r.emitted[n]| ensures AdvertOk(t', r, r.emitted[n][k]) {
      assert AdvertOk(t, r, r.emitted[n][k]);
    }
    forall k | 0 <= k < |r.control| ensures AdvertOk(t', r, r.control[k]) && IsControl(r.control[k]) {
      assert AdvertOk(t, r, r.control[k]);
    }
  }

  /** Replacing a sender by one that keeps everything and has sent nothing more. */
  lemma SetKeeps(t: Tx, r: Rx, skip: int, id: nat, u: Sender, v: map<nat, Bytes>)
    requires Dir(t, r, skip) && id in t.send && id in t.order && u.id == id && SameElsewhere(t.written, v, id)
    requires Pair(u, WrittenOf(v, id), ReceiverOf(r, id), LogOf(r.log, id))
    requires Keeps(t.send[id], u) && StillOk(t.send[id], WrittenOf(t.written, id), u, WrittenOf(v, id))
    ensures Dir(SetSender(t, id, u, v), r, skip)
  {
    var t' := SetSender(t, id, u, v);
    SetKeepsPairs(t, r, id, u, v);
    SetKeepsSent(t, id, u, v);
    SetKeepsKept(t, id, u, v);
    AdvertsFollowKeys(t, t', r);
    BasesUpdate(t.send, id, u);
    assert Bases(t.send)[id := u.base] == Bases(t.send);
    assert Credit(t', r);
  }

  // ----------------------------------------------------------- the four moves

  lemma WriteSide(t: Tx, r: Rx, skip: int, id: nat, data: Bytes, fin: bool)
    requires Dir(t, r, skip) && id in t.send && id in t.order && Write(t.send[id], data, fin).Some?
    ensures Dir(SetSender(t, id, Write(t.send[id], data, fin).value,
                          t.written[id := WrittenOf(t.written, id) + data]), r, skip)
  {
    hide Dir, Pair;
    var w := WrittenOf(t.written, id);
    AtId(t, r, skip, id);
    WriteKeeps(t.send[id], w, ReceiverOf(r, id), LogOf(r.log, id), data, fin);
    SetKeeps(t, r, skip, id, Write(t.send[id], data, fin).value, t.written[id := w + data]);
  }

  lemma AtId(t: Tx, r: Rx, skip: int, id: nat)
    requires Dir(t, r, skip)
    ensures PairAt(t, r, id)
  {
  }

  lemma RaiseSide(t: Tx, r: Rx, skip: int, id: nat, maximum: int)
    requires Dir(t, r, skip) && id in t.send && id in t.order && id in r.recv && maximum <= r.recv[id].maxStreamData
    ensures Dir(SetSender(t, id, RaiseCredit(t.send[id], maximum), t.written), r, skip)
  {
    hide Dir, Pair;
    AtId(t, r, skip, id);
    RaiseKeeps(t.send[id], WrittenOf(t.written, id), ReceiverOf(r, id), LogOf(r.log, id), maximum);
    SetKeeps(t, r, skip, id, RaiseCredit(t.send[id], maximum), t.written);
  }

  lemma AckedSide(t: Tx, r: Rx, skip: int, f: StreamFrame)
    requires Dir(t, r, skip) && f.id in t.order && SentFrameOk(t, f) && HoldsFrame(r, f)
    ensures Dir(SetSender(t, f.id, FrameAcked(t.send[f.id], f), t.written), r, skip)
    ensures Keeps(t.send[f.id], FrameAcked(t.send[f.id], f))
    ensures forall x :: f.offset <= x < End(f) ==> Has(FrameAcked(t.send[f.id], f).acked, x)
  {
    hide Dir, Pair, FrameOk, Holds, SendOk, Has;
    var s := t.send[f.id];
    AtId(t, r, skip, f.id);
    AckedKeeps(s, WrittenOf(t.written, f.id), ReceiverOf(r, f.id), LogOf(r.log, f.id), f);
    PairNormal(s, WrittenOf(t.written, f.id), ReceiverOf(r, f.id), LogOf(r.log, f.id));
    InsertIsUnion(s.acked, f.offset, End(f));
    SetKeeps(t, r, skip, f.id, FrameAcked(s, f), t.written);
  }

  lemma PairNormal(s: Sender, w: Bytes, r: Receiver, log: seq<Chunk>)
    requires Pair(s, w, r, log)
    ensures Normal(s.acked)
  {
  }

  lemma CarriesGrow(frames: seq<Frame>, f: Frame)
    ensures forall id: nat, x :: Carries(frames + [f], id, x) <==> Carries(frames, id, x) || Covered(f, id, x)
    ensures forall id: nat :: CarriesFin(frames + [f], id)
                          <==> CarriesFin(frames, id) || (f.Stream? && f.id == id && f.fin)
  {
    var more := frames + [f];
    assert more[|frames|] == f;
    forall id: nat, x ensures Carries(more, id, x) <==> Carries(frames, id, x) || Covered(f, id, x) {
      if Carries(frames, id, x) {
        var k :| 0 <= k < |frames| && Covered(frames[k], id, x);
        assert more[k] == frames[k];
      }
    }
    forall id: nat ensures CarriesFin(more, id) <==> CarriesFin(frames, id) || (f.Stream? && f.id == id && f.fin) {
      if CarriesFin(frames, id) {
        var k :| 0 <= k < |frames| && frames[k].Stream? && frames[k].id == id && frames[k].fin;
        assert more[k] == frames[k];
      }
    }
  }

  lemma RequeueSide(t: Tx, r: Rx, skip: int, f: StreamFrame)
    requires Dir(t, r, skip) && f.id in t.order && SentFrameOk(t, f)
    ensures var u := Requeue(t.send[f.id], f);
            && Dir(SetSender(t, f.id, u, t.written), r, skip)
            && Keeps(t.send[f.id], u)
            && (forall x :: f.offset <= x < End(f) ==> Carries(u.retransmit, f.id, x))
            && (f.fin ==> CarriesFin(u.retransmit, f.id))
  {
    hide Dir, Pair, SendOk, Carries, CarriesFin;
    var s := t.send[f.id];
    AtId(t, r, skip, f.id);
    RequeueKeeps(s, WrittenOf(t.written, f.id), ReceiverOf(r, f.id), LogOf(r.log, f.id), f);
    CarriesGrow(s.retransmit, f);
    SetKeeps(t, r, skip, f.id, Requeue(s, f), t.written);
  }

  /** A packet whose stream frames are all acknowledged or queued again need not
      be held any longer. */
  ghost predicate Released(t: Tx, f: Frame) {
    f.Stream? ==>
      && (forall x :: f.offset <= x < f.offset + |f.data| ==>
            Has(SenderOf(t, f.id).acked, x) || Carries(SenderOf(t, f.id).retransmit, f.id, x))
      && (f.fin ==> SenderOf(t, f.id).finAcked || CarriesFin(SenderOf(t, f.id).retransmit, f.id))
  }

  lemma ReleaseKeeps(t: Tx, r: Rx, skip: int, pn: nat)
    requires Dir(t, r, skip) && pn < |t.emitted|
    requires forall k :: 0 <= k < |t.emitted[pn]| ==> Released(t, t.emitted[pn][k])
    ensures Dir(t.(held := t.held - {pn}), r, skip)
  {
    var t' := t.(held := t.held - {pn});
    forall i: nat ensures PairAt(t', r, i) { assert PairAt(t, r, i); }
    SentFramesSame(t, t');
    AdvertsFollowKeys(t, t', r);
    ReleaseKeepsKept(t, pn);
  }

  lemma SentFramesSame(t: Tx, t': Tx)
    requires SentOk(t) && t'.emitted == t.emitted && t'.send == t.send && t'.written == t.written && t'.held <= t.held
    ensures SentOk(t')
  {
    forall n, k | 0 <= n < |t'.emitted| && 0 <= k < |t'.emitted[n]| ensures SentFrameOk(t', t'.emitted[n][k]) {
      assert SentFrameOk(t, t.emitted[n][k]);
    }
  }

  lemma ReleaseKeepsKept(t: Tx, pn: nat)
    requires Kept(t) && pn < |t.emitted|
    requires forall k :: 0 <= k < |t.emitted[pn]| ==> Released(t, t.emitted[pn][k])
    ensures Kept(t.(held := t.held - {pn}))
  {
    hide Has;
    var t' := t.(held := t.held - {pn});
    forall i: nat, x | 0 <= x < SenderOf(t', i).base ensures ByteKept(t', i, x) {
      assert ByteKept(t, i, x);
      if Carries(t.emitted[pn], i, x) {
        var k :| 0 <= k < |t.emitted[pn]| && Covered(t.emitted[pn][k], i, x);
        assert Released(t, t.emitted[pn][k]);
      }
    }
    forall i: nat | SenderOf(t', i).finSent ensures FinKept(t', i) {
      assert FinKept(t, i);
      if CarriesFin(t.emitted[pn], i) {
        var k :| 0 <= k < |t.emitted[pn]| && t.emitted[pn][k].Stream?
                 && t.emitted[pn][k].id == i && t.emitted[pn][k].fin;
        assert Released(t, t.emitted[pn][k]);
      }
    }
  }

  // ---------------------------------------------------------------- packets

  lemma PutAt(emitted: seq<seq<Frame>>, f: Frame, n: int)
    requires emitted != [] && 0 <= n < |emitted|
    ensures |Put(emitted, f)| == |emitted|
    ensures Put(emitted, f)[n] == (if n == |emitted| - 1 then emitted[n] + [f] else emitted[n])
  {
  }

  /** The packet being built: the last one, held, and not yet seen by the peer. */
  ghost predicate Building(t: Tx, r: Rx) {
    t.emitted != [] && |t.emitted| - 1 in t.held && !Has(r.received, |t.emitted| - 1)
  }

  lemma PutKeepsAbsorbed(t: Tx, t': Tx, r: Rx, skip: int, f: Frame)
    requires Absorbed(t, r, skip) && Building(t, r) && t'.emitted == Put(t.emitted, f)
    ensures Absorbed(t', r, skip)
  {
    hide Has;
    forall n | Has(r.received, n) ensures 0 <= n < |t'.emitted| && (n != skip ==> HoldsPacket(r, t'.emitted[n])) {
      PutAt(t.emitted, f, n);
    }
  }

  lemma PutKeepsSent(t: Tx, t': Tx, f: Frame)
    requires SentOk(t) && t.emitted != [] && t'.emitted == Put(t.emitted, f) && t'.held == t.held
    requires forall g: Frame :: SentFrameOk(t, g) ==> SentFrameOk(t', g)
    requires SentFrameOk(t', f)
    ensures SentOk(t')
  {
    hide SentFrameOk;
    forall n, k | 0 <= n < |t'.emitted| && 0 <= k < |t'.emitted[n]| ensures SentFrameOk(t', t'.emitted[n][k]) {
      PutAt(t.emitted, f, n);
      if k < |t.emitted[n]| { assert SentFrameOk(t, t.emitted[n][k]); }
    }
  }

  /** Bytes in held packets stay there when a frame is put, and those of the
      frame join them. */
  ghost predicate HeldCarries(t: Tx, id: nat, x: int) {
    exists n :: n in t.held && n < |t.emitted| && Carries(t.emitted[n], id, x)
  }

  ghost predicate HeldCarriesFin(t: Tx, id: nat) {
    exists n :: n in t.held && n < |t.emitted| && CarriesFin(t.emitted[n], id)
  }

  lemma PutCarries(t: Tx, t': Tx, f: Frame, id: nat, x: int)
    requires t.emitted != [] && |t.emitted| - 1 in t.held && t'.emitted == Put(t.emitted, f) && t'.held == t.held
    ensures HeldCarries(t, id, x) || Covered(f, id, x) ==> HeldCarries(t', id, x)
    ensures HeldCarriesFin(t, id) || (f.Stream? && f.id == id && f.fin) ==> HeldCarriesFin(t', id)
  {
    var last := |t.emitted| - 1;
    CarriesGrow(t.emitted[last], f);
    PutAt(t.emitted, f, last);
    if HeldCarries(t, id, x) {
      var n :| n in t.held && n < |t.emitted| && Carries(t.emitted[n], id, x);
      PutAt(t.emitted, f, n);
      assert Carries(t'.emitted[n], id, x);
    }
    if Covered(f, id, x) { assert Carries(t'.emitted[last], id, x); }
    if HeldCarriesFin(t, id) {
      var n :| n in t.held && n < |t.emitted| && CarriesFin(t.emitted[n], id);
      PutAt(t.emitted, f, n);
      assert CarriesFin(t'.emitted[n], id);
    }
    if f.Stream? && f.id == id && f.fin { assert CarriesFin(t'.emitted[last], id); }
  }

  /** Putting a frame that carries no stream data. */
  lemma PutOtherSide(t: Tx, r: Rx, skip: int, f: Frame)
    requires Dir(t, r, skip) && Building(t, r) && !f.Stream?
    ensures Dir(t.(emitted := Put(t.emitted, f)), r, skip)
    ensures Building(t.(emitted := Put(t.emitted, f)), r)
  {
    hide Pair, Has, FrameOk, Carries, CarriesFin;
    var t' := t.(emitted := Put(t.emitted, f));
    forall i: nat ensures PairAt(t', r, i) { assert PairAt(t, r, i); }
    forall g: Frame | SentFrameOk(t, g) ensures SentFrameOk(t', g) {}
    PutKeepsSent(t, t', f);
    AdvertsFollowKeys(t, t', r);
    PutKeepsAbsorbed(t, t', r, skip, f);
    forall i: nat, x | 0 <= x < SenderOf(t', i).base ensures ByteKept(t', i, x) {
      assert ByteKept(t, i, x);
      PutCarries(t, t', f, i, x);
    }
    forall i: nat | SenderOf(t', i).finSent ensures FinKept(t', i) {
      assert FinKept(t, i);
      PutCarries(t, t', f, i, 0);
    }
  }

  lemma NewPacketSide(t: Tx, r: Rx, skip: int)
    requires Dir(t, r, skip)
    ensures var t' := t.(emitted := t.emitted + [[]], held := t.held + {|t.emitted|});
            Dir(t', r, skip) && Building(t', r)
  {
    hide Pair, Has, FrameOk, Carries, CarriesFin;
    var t' := t.(emitted := t.emitted + [[]], held := t.held + {|t.emitted|});
    forall i: nat ensures PairAt(t', r, i) { assert PairAt(t, r, i); }
    forall n, k | 0 <= n < |t'.emitted| && 0 <= k < |t'.emitted[n]| ensures SentFrameOk(t', t'.emitted[n][k]) {
      assert SentFrameOk(t, t.emitted[n][k]);
    }
    AdvertsFollowKeys(t, t', r);
    forall n | Has(r.received, n) ensures 0 <= n < |t'.emitted| && (n != skip ==> HoldsPacket(r, t'.emitted[n])) {}
    forall i: nat, x | 0 <= x < SenderOf(t', i).base ensures ByteKept(t', i, x) {
      assert ByteKept(t, i, x);
      if HeldCarries(t, i, x) {
        var n :| n in t.held && n < |t.emitted| && Carries(t.emitted[n], i, x);
        assert t'.emitted[n] == t.emitted[n];
      }
    }
    forall i: nat | SenderOf(t', i).finSent ensures FinKept(t', i) {
      assert FinKept(t, i);
      if HeldCarriesFin(t, i) {
        var n :| n in t.held && n < |t.emitted| && CarriesFin(t.emitted[n], i);
        assert t'.emitted[n] == t.emitted[n];
      }
    }
  }

  /** The state after cutting a frame of stream `id` and putting it in the packet. */
  function Emit(t: Tx, id: nat, u: Sender, f: StreamFrame): Tx
    requires id in t.send && t.emitted != []
  {
    t.(send := t.send[id := u], dataSent := t.dataSent + u.highest - t.send[id].highest, emitted := Put(t.emitted, f))
  }

  /** What a cut drops from the sender is in the frame. */
  lemma CutIsCarried(s: Sender, maxBytes: int, credit: int, x: int)
    requires NextFrame(s, maxBytes, credit).1.Some?
    requires forall k :: 0 <= k < |s.retransmit| ==> s.retransmit[k].id == s.id
    ensures var (u, f) := NextFrame(s, maxBytes, credit);
            && u.acked == s.acked && u.finAcked == s.finAcked
            && (s.base <= x < u.base ==> Covered(f.value, s.id, x))
            && (Carries(s.retransmit, s.id, x) ==> Carries(u.retransmit, s.id, x) || Covered(f.value, s.id, x))
            && (CarriesFin(s.retransmit, s.id) ==> CarriesFin(u.retransmit, s.id) || f.value.fin)
            && (u.finSent && !s.finSent ==> f.value.fin)
            && f.value.id == s.id
  {
    var (u, f) := NextFrame(s, maxBytes, credit);
    if u.retransmit != s.retransmit {
      if Carries(s.retransmit, s.id, x) {
        var k :| 0 <= k < |s.retransmit| && Covered(s.retransmit[k], s.id, x);
        if k > 0 { assert u.retransmit[k - 1] == s.retransmit[k]; }
      }
      if CarriesFin(s.retransmit, s.id) {
        var k :| 0 <= k < |s.retransmit| && s.retransmit[k].Stream?
                 && s.retransmit[k].id == s.id && s.retransmit[k].fin;
        if k > 0 { assert u.retransmit[k - 1] == s.retransmit[k]; }
      }
    }
  }

  lemma PairIds(s: Sender, w: Bytes, r: Receiver, log: seq<Chunk>)
    requires Pair(s, w, r, log)
    ensures forall k :: 0 <= k < |s.retransmit| ==> s.retransmit[k].id == s.id
    ensures s.highest == s.base && r.id == s.id
  {
    forall k | 0 <= k < |s.retransmit| ensures s.retransmit[k].id == s.id {
      assert FrameOk(s, w, s.retransmit[k]);
    }
  }

  lemma EmitKeepsKept(t: Tx, r: Rx, id: nat, maxBytes: int, credit: int)
    requires Kept(t) && id in t.send && t.send[id].id == id && t.emitted != [] && |t.emitted| - 1 in t.held
    requires forall k :: 0 <= k < |t.send[id].retransmit| ==> t.send[id].retransmit[k].id == id
    requires NextFrame(t.send[id], maxBytes, credit).1.Some?
    ensures var (u, f) := NextFrame(t.send[id], maxBytes, credit); Kept(Emit(t, id, u, f.value))
  {
    hide Has, Carries, CarriesFin;
    var s := t.send[id];
    var (u, f) := NextFrame(s, maxBytes, credit);
    var t' := Emit(t, id, u, f.value);
    forall i: nat, x | 0 <= x < SenderOf(t', i).base ensures ByteKept(t', i, x) {
      PutCarries(t, t', f.value, i, x);
      CutIsCarried(s, maxBytes, credit, x);
      if i != id || x < s.base { assert ByteKept(t, i, x); }
    }
    forall i: nat | SenderOf(t', i).finSent ensures FinKept(t', i) {
      PutCarries(t, t', f.value, i, 0);
      CutIsCarried(s, maxBytes, credit, 0);
      if i != id || s.finSent { assert FinKept(t, i); }
    }
  }

  lemma EmitKeepsCredit(t: Tx, r: Rx, id: nat, u: Sender, f: StreamFrame)
    requires Credit(t, r) && Distinct(t.order) && id in t.order && id in t.send && t.emitted != []
    requires t.send[id].highest == t.send[id].base && u.highest == u.base
    requires u.highest - t.send[id].highest <= Max(0, t.maxData - t.dataSent)
    ensures Credit(Emit(t, id, u, f), r)
  {
    BasesUpdate(t.send, id, u);
    TotalUpdate(t.order, Bases(t.send), id, u.base);
  }

  /** Cutting a frame within the connection's credit and putting it in the packet. */
  lemma EmitSide(t: Tx, r: Rx, skip: int, id: nat, maxBytes: int)
    requires Dir(t, r, skip) && Building(t, r) && Distinct(t.order) && id in t.order && id in t.send
    requires NextFrame(t.send[id], maxBytes, t.maxData - t.dataSent).1.Some?
    ensures var (u, f) := NextFrame(t.send[id], maxBytes, t.maxData - t.dataSent);
            Dir(Emit(t, id, u, f.value), r, skip) && Building(Emit(t, id, u, f.value), r)
  {
    hide Pair, Has, FrameOk, Carries, CarriesFin, NextFrame, Credit, Kept;
    var s := t.send[id];
    var w := WrittenOf(t.written, id);
    var credit := t.maxData - t.dataSent;
    var (u, f) := NextFrame(s, maxBytes, credit);
    var t' := Emit(t, id, u, f.value);
    assert PairAt(t, r, id);
    NextKeeps(s, w, ReceiverOf(r, id), LogOf(r.log, id), maxBytes, credit);
    PairIds(s, w, ReceiverOf(r, id), LogOf(r.log, id));
    PairIds(u, w, ReceiverOf(r, id), LogOf(r.log, id));
    forall i: nat ensures PairAt(t', r, i) { assert PairAt(t, r, i); }
    FrameIds(u, w, f.value);
    forall g: Frame | SentFrameOk(t, g) ensures SentFrameOk(t', g) {}
    PutKeepsSent(t, t', f.value);
    AdvertsFollowKeys(t, t', r);
    PutKeepsAbsorbed(t, t', r, skip, f.value);
    EmitKeepsCredit(t, r, id, u, f.value);
    EmitKeepsKept(t, r, id, maxBytes, credit);
  }

  lemma FrameIds(u: Sender, w: Bytes, f: StreamFrame)
    requires FrameOk(u, w, f)
    ensures f.id == u.id
  {
  }
}
