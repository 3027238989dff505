/** One round trip of the newest packet of an endpoint: it arrives, is acknowledged, and
    recovery lets it go, with everything else there is to send as it was
    (src/dsquic/connection.py: `_process_packet`, `_build_ack` and `_handle_ack`). */
module RoundTrips {
  import opened Options
  import opened RangeSets
  import opened Frames
  import opened Acks
  import opened Streams
  import opened Managers
  import opened Totals
  import opened Transfer
  import opened TransferInv
  import TransferTheorems
  import CreditKept
  import CreditFlow
  import PeerStreams

  // --------------------------------------------------------- what every run keeps

  /** Two endpoints of a run with the limits they started from. */
  ghost predicate Live(x: Endpoint, y: Endpoint, m: Manager, n: Manager) {
    && Inv(x, y) && CreditKept.Kept(x, y) && CreditKept.Kept(y, x)
    && CreditFlow.Granting(m, x) && CreditFlow.Granting(n, y)
  }

  lemma LiveSymmetric(x: Endpoint, y: Endpoint, m: Manager, n: Manager)
    requires Live(x, y, m, n)
    ensures Live(y, x, n, m)
  {
    hide InvBut, CreditKept.Kept, CreditFlow.Granting;
    TransferTheorems.Symmetric(x, y);
  }

  lemma ActLive(x: Endpoint, y: Endpoint, m: Manager, n: Manager, a: Action)
    requires Live(x, y, m, n)
    ensures Live(Act(x, y, a), y, m, n)
  {
    hide InvBut, CreditKept.Kept, CreditFlow.Granting, Receive, Open, WriteData, Send, Lose, Probe;
    TransferTheorems.ActKeeps(x, y, a);
    CreditKept.ActKept(x, y, a);
    match a
    case ActReceive(pn) =>
      if pn < |y.emitted| { CreditFlow.StepFlows(m, x, PeerStreams.FromPeer(pn, y.emitted[pn])); }
    case _ => CreditFlow.StepFlows(m, x, PeerStreams.Local(a));
  }

  // ------------------------------------------------------------- what is left to do

  function Rest(s: Sender): nat { |s.pending| + if s.finQueued && !s.finSent then 1 else 0 }

  function Rests(send: map<nat, Sender>): map<nat, nat> { map id | id in send :: Rest(send[id]) }

  function Agains(send: map<nat, Sender>): map<nat, nat> { map id | id in send :: |send[id].retransmit| }

  /** Bytes and ends never sent, and lost frames not sent again. */
  function Unsent(e: Endpoint): nat { Total(e.mgr.order, Rests(e.mgr.send)) }

  function Unrepaired(e: Endpoint): nat { Total(e.mgr.order, Agains(e.mgr.send)) }

  predicate AcksOnly(frames: seq<Frame>) { forall k :: 0 <= k < |frames| ==> frames[k].Ack? }

  /** Packets recovery holds that carry more than acknowledgements. */
  function Carrying(e: Endpoint): set<nat> { set n | n in e.held && n < |e.emitted| && !AcksOnly(e.emitted[n]) }

  /** A sender with as much left to send, and to repair. */
  predicate SameRest(s: Sender, t: Sender) {
    && t.pending == s.pending && t.base == s.base && t.finQueued == s.finQueued && t.finSent == s.finSent
    && t.retransmit == s.retransmit
  }

  /** Streams stay, finished or not as they were. */
  ghost predicate SameEnds(e: Endpoint, d: Endpoint) {
    forall id :: id in e.mgr.send ==> id in d.mgr.send && d.mgr.send[id].finQueued == e.mgr.send[id].finQueued
  }

  // ------------------------------------------------------------------------- loss

  /** A frame of the stream with something to send again. */
  predicate Worth(f: Frame, id: nat) { f.Stream? && f.id == id && (f.data != [] || f.fin) }

  function WorthRepeating(frames: seq<Frame>, id: nat): seq<StreamFrame> {
    if frames == [] then []
    else
      var later := WorthRepeating(frames[1..], id);
      if Worth(frames[0], id) then [frames[0]] + later else later
  }

  lemma RequeueOneVerbatim(e: Endpoint, f: Frame, id: nat)
    requires id in e.mgr.send
    ensures var d, s := RequeueFrame(e, f), e.mgr.send[id];
            id in d.mgr.send && d.mgr.send[id] == if Worth(f, id) then s.(retransmit := s.retransmit + [f]) else s
  {
  }

  lemma {:induction false} RequeueIsVerbatim(e: Endpoint, frames: seq<Frame>, id: nat)
    requires id in e.mgr.send
    ensures var d, s := RequeueAll(e, frames), e.mgr.send[id];
            id in d.mgr.send && d.mgr.send[id] == s.(retransmit := s.retransmit + WorthRepeating(frames, id))
    decreases |frames|
  {
    hide RequeueFrame;
    var waiting := e.mgr.send[id].retransmit;
    if frames == [] {
      assert waiting + [] == waiting;
    } else {
      RequeueOneVerbatim(e, frames[0], id);
      RequeueIsVerbatim(RequeueFrame(e, frames[0]), frames[1..], id);
      if Worth(frames[0], id) { Regroup(waiting, frames[0], WorthRepeating(frames[1..], id)); }
    }
  }

  lemma Regroup(a: seq<StreamFrame>, f: StreamFrame, b: seq<StreamFrame>)
    ensures (a + [f]) + b == a + ([f] + b)
  {
  }

  /** Whether a packet is given up or probed for, every stream gets back exactly the frames
      it had in it, verbatim and behind those already waiting, and a probe leaves the
      packet with recovery. */
  lemma LostAndProbedAlike(e: Endpoint, pn: nat, id: nat)
    requires pn in e.held && pn < |e.emitted| && id in e.mgr.send
    ensures var again := e.mgr.send[id].retransmit + WorthRepeating(e.emitted[pn], id);
            && id in Lose(e, pn).mgr.send && id in Probe(e, pn).mgr.send
            && Lose(e, pn).mgr.send[id] == e.mgr.send[id].(retransmit := again) == Probe(e, pn).mgr.send[id]
            && Lose(e, pn).held == e.held - {pn} && Probe(e, pn).held == e.held
  {
    hide RequeueAll;
    RequeueIsVerbatim(e, e.emitted[pn], id);
  }

  /** Nothing but the queues changes when a packet is given up. */
  lemma {:induction false} RequeueLeaves(e: Endpoint, frames: seq<Frame>)
    ensures var d := RequeueAll(e, frames);
            && d.emitted == e.emitted && d.held == e.held && d.written == e.written && d.mgr.order == e.mgr.order
            && d.mgr.send.Keys == e.mgr.send.Keys
    decreases |frames|
  {
    hide Requeue;
    if frames != [] { RequeueLeaves(RequeueFrame(e, frames[0]), frames[1..]); }
  }

  lemma LoseLeaves(e: Endpoint, pn: nat)
    requires pn in Carrying(e)
    ensures var d := Lose(e, pn);
            && Unsent(d) == Unsent(e) && Carrying(d) == Carrying(e) - {pn} && d.written == e.written
            && SameEnds(e, d)
  {
    hide RequeueAll, Total;
    RequeueLeaves(e, e.emitted[pn]);
    var d := Lose(e, pn);
    forall id | id in e.mgr.send
      ensures d.mgr.send[id] == e.mgr.send[id].(retransmit := d.mgr.send[id].retransmit)
    {
      RequeueIsVerbatim(e, e.emitted[pn], id);
    }
    TotalSame(e.mgr.order, Rests(e.mgr.send), Rests(d.mgr.send));
  }

  // ---------------------------------------------------------------- one round trip

  /** The endpoint after it sent one more packet, with one frame. */
  function Sent(e: Endpoint, f: Frame): Endpoint {
    e.(emitted := e.emitted + [[f]], held := e.held + {|e.emitted|})
  }

  lemma SendOne(e: Endpoint, item: Item)
    ensures var built := Append(NewPacket(e), item);
            Send(e, [item]) == if built.emitted[|e.emitted|] == [] then e else built
  {
    hide Append;
    var one := Append(NewPacket(e), item);
    assert [item][0] == item && [item][1..] == [];
    assert AppendAll(NewPacket(e), [item]) == AppendAll(one, []) == one;
  }

  lemma FirstFrame(emitted: seq<seq<Frame>>, f: Frame)
    ensures Put(emitted + [[]], f) == emitted + [[f]]
  {
    assert [] + [f] == [f];
  }

  lemma StreamSent(e: Endpoint, id: nat, maxBytes: int)
    requires id in e.mgr.send && TakeFrame(e.mgr, id, maxBytes).1.Some?
    ensures var (mgr, f) := TakeFrame(e.mgr, id, maxBytes);
            Send(e, [ItemStream(id, maxBytes)]) == Sent(e.(mgr := mgr), f.value)
  {
    hide TakeFrame;
    SendOne(e, ItemStream(id, maxBytes));
    FirstFrame(e.emitted, TakeFrame(e.mgr, id, maxBytes).1.value);
  }

  lemma ControlSent(e: Endpoint)
    requires e.control != []
    ensures Send(e, [ItemControl]) == Sent(e.(control := e.control[1..]), e.control[0])
  {
    SendOne(e, ItemControl);
    FirstFrame(e.emitted, e.control[0]);
  }

  lemma AckSent(e: Endpoint)
    requires e.ackPending && e.largestReceived >= 0
    ensures Send(e, [ItemAck])
            == Sent(e.(ackPending := false), BuildAck(e.received, e.largestReceived, true, None).value)
  {
    hide Descending, TopRanges;
    SendOne(e, ItemAck);
    FirstFrame(e.emitted, BuildAck(e.received, e.largestReceived, true, None).value);
  }

  lemma ReceiveOne(e: Endpoint, pn: nat, f: Frame)
    requires !Covers(e.received, pn, pn + 1) && e.failed.None?
    ensures Receive(e, pn, [f]) == HandleFrame(Record(e, pn), f)
  {
    hide HandleFrame;
    var d := HandleFrame(Record(e, pn), f);
    assert [f][0] == f && [f][1..] == [];
    assert HandleAll(Record(e, pn), [f]) == HandleAll(d, []) == d;
  }

  /** Handling a frame that asks for an acknowledgement: it is owed, and nothing this side
      has to send changes but the credit it announces. */
  ghost predicate Took(e: Endpoint, d: Endpoint) {
    && d.ackPending && d.received == e.received && d.largestReceived == e.largestReceived
    && d.emitted == e.emitted && d.held == e.held && d.written == e.written
    && Unsent(d) == Unsent(e) && Unrepaired(d) == Unrepaired(e) && SameEnds(e, d)
  }

  lemma SameSenders(e: Endpoint, d: Endpoint)
    requires d.mgr.order == e.mgr.order && d.mgr.send.Keys == e.mgr.send.Keys
    requires forall id :: id in e.mgr.send ==> SameRest(e.mgr.send[id], d.mgr.send[id])
    ensures Unsent(d) == Unsent(e) && Unrepaired(d) == Unrepaired(e) && SameEnds(e, d)
  {
    hide Total;
    TotalSame(e.mgr.order, Rests(e.mgr.send), Rests(d.mgr.send));
    TotalSame(e.mgr.order, Agains(e.mgr.send), Agains(d.mgr.send));
  }

  lemma RaisesKeep(m: Manager, f: Frame)
    ensures f.MaxData? ==> RaiseMaxData(m, f.maxData).order == m.order && RaiseMaxData(m, f.maxData).send == m.send
    ensures f.MaxStreams? ==> var n := RaiseMaxStreams(m, f.maxStreams, f.bidi); n.order == m.order && n.send == m.send
  {
  }

  lemma ControlTaken(e: Endpoint, f: Frame)
    requires IsControl(f)
    ensures var d := HandleFrame(e, f); Took(e, d) && d.control == e.control
  {
    hide Total, HandleAck, HandleStream, Unsent, Unrepaired, SameEnds, RaiseMaxData, RaiseMaxStreams;
    RaisesKeep(e.mgr, f);
    SameSenders(e, HandleFrame(e, f));
  }

  /** A frame of a new stream adds a half with nothing to send. */
  lemma StreamTaken(e: Endpoint, f: StreamFrame)
    requires (forall id :: id in e.mgr.order ==> id in e.mgr.recv) && e.ackPending && HandleStream(e, f).failed.None?
    requires forall id :: id in e.mgr.send ==> id in e.mgr.order
    ensures Took(e, HandleStream(e, f))
  {
    hide AcceptFrame, ExtendCredit, Unsent, Unrepaired, Read;
    var (m, error) := AcceptFrame(e.mgr, f);
    AcceptSenders(e, f);
    AcceptEnds(e, f);
    if error.None? { CreditKept.ExtendOnlyCredit(Reported(e, m, f), f.id); }
    SameUnsent(e.(mgr := m), HandleStream(e, f));
  }

  lemma SameUnsent(e: Endpoint, d: Endpoint)
    requires d.mgr.order == e.mgr.order && d.mgr.send == e.mgr.send
    ensures Unsent(d) == Unsent(e) && Unrepaired(d) == Unrepaired(e)
  {
  }

  lemma AcceptTable(m: Manager, f: StreamFrame)
    ensures var n := AcceptFrame(m, f).0;
            || (n.order == m.order && n.send == m.send)
            || (&& f.id !in m.recv && n.order == m.order + [f.id]
                && (|| n.send == m.send
                    || n.send == m.send[f.id := NewSender(f.id, SendCredit(m.isClient, m.peer, f.id))]))
  {
    hide Accept, SendCredit, RecvCredit;
  }

  lemma AcceptEnds(e: Endpoint, f: StreamFrame)
    requires forall id :: id in e.mgr.send ==> id in e.mgr.recv
    ensures SameEnds(e, e.(mgr := AcceptFrame(e.mgr, f).0))
  {
    hide AcceptFrame;
    AcceptTable(e.mgr, f);
  }

  lemma AcceptSenders(e: Endpoint, f: StreamFrame)
    requires forall id :: id in e.mgr.order ==> id in e.mgr.recv
    requires forall id :: id in e.mgr.send ==> id in e.mgr.order
    ensures var d := e.(mgr := AcceptFrame(e.mgr, f).0);
            Unsent(d) == Unsent(e) && Unrepaired(d) == Unrepaired(e)
  {
    hide AcceptFrame, Total;
    var n := AcceptFrame(e.mgr, f).0;
    AcceptTable(e.mgr, f);
    if n.order != e.mgr.order {
      assert f.id !in e.mgr.order;
      TotalAppend(e.mgr.order, Rests(n.send), f.id);
      TotalAppend(e.mgr.order, Agains(n.send), f.id);
      TotalSame(e.mgr.order, Rests(e.mgr.send), Rests(n.send));
      TotalSame(e.mgr.order, Agains(e.mgr.send), Agains(n.send));
    }
  }

  /** An acknowledgement leaves what there is to send as it was. */
  lemma {:induction false} AckFramesRest(send: map<nat, Sender>, frames: seq<Frame>)
    ensures AckFrames(send, frames).Keys == send.Keys
    ensures forall id :: id in send ==> SameRest(send[id], AckFrames(send, frames)[id])
    decreases |frames|
  {
    if frames != [] {
      var f := frames[0];
      AckFramesRest(if f.Stream? && f.id in send then send[f.id := FrameAcked(send[f.id], f)] else send, frames[1..]);
    }
  }

  lemma {:induction false} AckBelowRest(e: Endpoint, ranges: seq<AckRange>, n: nat)
    requires n <= |e.emitted|
    ensures var d := AckBelow(e, ranges, n);
            && d.mgr.send.Keys == e.mgr.send.Keys
            && (forall id :: id in e.mgr.send ==> SameRest(e.mgr.send[id], d.mgr.send[id]))
    decreases n
  {
    hide Acknowledges, AckFrames;
    if n > 0 {
      AckBelowRest(e, ranges, n - 1);
      var d := AckBelow(e, ranges, n - 1);
      if n - 1 in e.held && Acknowledges(ranges, n - 1) { AckFramesRest(d.mgr.send, e.emitted[n - 1]); }
    }
  }

  lemma AckTaken(e: Endpoint, ack: Frame)
    requires ack.Ack? && ack.largest < |e.emitted|
    ensures var d := HandleFrame(e, ack);
            && d.emitted == e.emitted && d.control == e.control && d.written == e.written
            && d.held == e.held - (set k | k in e.held && k < |e.emitted| && Acknowledges(ack.ranges, k))
            && Unsent(d) == Unsent(e) && Unrepaired(d) == Unrepaired(e) && SameEnds(e, d)
  {
    hide AckBelow, Acknowledges, Unsent, Unrepaired, CreditKept.Known;
    CreditKept.AckReleases(e, ack.ranges, |e.emitted|);
    AckBelowRest(e, ack.ranges, |e.emitted|);
    var d := HandleFrame(e, ack);
    assert d == AckBelow(e, ack.ranges, |e.emitted|);
    SameSenders(e, d);
  }

  /** The newest packet is always acknowledged, however many gaps there are. */
  lemma NewestIsAcknowledged(received: seq<Range>, largest: int)
    requires RecordOk(received, largest) && largest >= 0
    ensures Acknowledges(BuildAck(received, largest, true, None).value.ranges, largest)
  {
    var top := TopRanges(received);
    TopRangesNormal(received);
    var last := received[|received| - 1];
    assert top[|top| - 1] == last && last.start <= largest < last.end;
    assert Has(top, largest);
    DescendingDenotes(top, largest);
  }

  lemma NotYetReceived(received: seq<Range>, pn: nat)
    requires Normal(received) && (forall k :: Has(received, k) ==> k < pn)
    ensures !Covers(received, pn, pn + 1)
  {
    CoversIsInclusion(received, pn, pn + 1);
    assert !Has(received, pn);
  }

  /** The packet taken in and the acknowledgement owed. */
  lemma PacketTaken(x: Endpoint, y: Endpoint, f: Frame, m: Manager, n: Manager)
    requires Live(x, y, m, n) && IsAckEliciting(f) && x.emitted != [] && x.emitted[|x.emitted| - 1] == [f]
    requires forall k :: Has(y.received, k) ==> k < |x.emitted| - 1
    ensures var pn := |x.emitted| - 1;
            var y1 := Act(y, x, ActReceive(pn));
            && Live(x, y1, m, n) && Took(Record(y, pn), y1) && y1.largestReceived == pn
            && RecordOk(y1.received, pn) && (!f.Stream? ==> y1.control == y.control)
  {
    hide InvBut, CreditKept.Kept, CreditFlow.Granting, HandleFrame, Insert, Has, Covers, RecordOk, Unsent, Unrepaired;
    var pn := |x.emitted| - 1;
    LiveSymmetric(x, y, m, n);
    ActLive(y, x, n, m, ActReceive(pn));
    LiveSymmetric(Act(y, x, ActReceive(pn)), x, n, m);
    Sides(y, x);
    Sides(Act(y, x, ActReceive(pn)), x);
    NotYetReceived(y.received, pn);
    ReceiveOne(y, pn, f);
    NewestRecord(y, pn);
    var d := Record(y, pn);
    if f.Stream? {
      OwedTaken(d, f);
    } else {
      ControlTaken(d, f);
    }
  }

  lemma OwedTaken(e: Endpoint, f: StreamFrame)
    requires (forall id :: id in e.mgr.order ==> id in e.mgr.recv) && HandleFrame(e, f).failed.None?
    requires forall id :: id in e.mgr.send ==> id in e.mgr.order
    ensures Took(e, HandleFrame(e, f))
  {
    hide HandleStream, Unsent, Unrepaired;
    StreamTaken(e.(ackPending := true), f);
    SameUnsent(e, e.(ackPending := true));
  }

  lemma NewestRecord(e: Endpoint, pn: nat)
    requires RecordOk(e.received, e.largestReceived) && (forall k :: Has(e.received, k) ==> k < pn)
    ensures RecordOk(Record(e, pn).received, pn) && Record(e, pn).largestReceived == pn
  {
    hide Insert, Has;
    RecordMaximum(e.received, e.largestReceived);
    RecordingKeeps(e.received, e.largestReceived, pn);
  }

  /** What the invariant says of one endpoint. */
  lemma Sides(x: Endpoint, y: Endpoint)
    requires Inv(x, y)
    ensures RecordOk(x.received, x.largestReceived) && Normal(x.received) && x.failed.None?
    ensures forall n :: Has(x.received, n) ==> 0 <= n < |y.emitted|
    ensures forall id :: id in x.mgr.recv <==> id in x.mgr.order
    ensures forall id :: id in x.mgr.send <==> id in x.mgr.order
    ensures Distinct(x.mgr.order)
    ensures forall k :: 0 <= k < |x.control| ==> IsControl(x.control[k])
  {
    hide Has, Pairs, SentOk, Credit, TransferInv.Kept, HoldsPacket, AdvertOk;
  }

  ghost predicate Traded(x: Endpoint, x2: Endpoint, y: Endpoint, y2: Endpoint, f: Frame) {
    && Unsent(x2) == Unsent(x) && Unrepaired(x2) == Unrepaired(x) && x2.control == x.control
    && x2.written == x.written && Carrying(x2) <= Carrying(x) - {|x.emitted| - 1}
    && Unsent(y2) == Unsent(y) && Unrepaired(y2) == Unrepaired(y) && (!f.Stream? ==> y2.control == y.control)
    && y2.written == y.written && Carrying(y2) == Carrying(y) && SameEnds(x, x2) && SameEnds(y, y2)
  }

  /** The last packet `x` sent arrives, is acknowledged, and `x` is rid of it. */
  lemma RoundTrip(x: Endpoint, y: Endpoint, f: Frame, m: Manager, n: Manager)
    requires Live(x, y, m, n) && IsAckEliciting(f) && x.emitted != [] && x.emitted[|x.emitted| - 1] == [f]
    requires forall k :: Has(y.received, k) ==> k < |x.emitted| - 1
    ensures var y1 := Act(y, x, ActReceive(|x.emitted| - 1));
            var y2 := Act(y1, x, ActSend([ItemAck]));
            var x2 := Act(x, y2, ActReceive(|y.emitted|));
            Live(x2, y2, m, n) && Traded(x, x2, y, y2, f)
  {
    hide InvBut, CreditKept.Kept, CreditFlow.Granting, Receive, Send, HandleFrame, Insert, Has, Covers;
    hide RecordOk, Unsent, Unrepaired, Acknowledges, Carrying, BuildAck;
    var pn := |x.emitted| - 1;
    var y1 := Act(y, x, ActReceive(pn));
    PacketTaken(x, y, f, m, n);
    SameUnsent(y, Record(y, pn));
    LiveSymmetric(x, y1, m, n);
    ActLive(y1, x, n, m, ActSend([ItemAck]));
    var y2 := Act(y1, x, ActSend([ItemAck]));
    LiveSymmetric(y2, x, n, m);
    ActLive(x, y2, m, n, ActReceive(|y.emitted|));
    Sides(x, y);
    Sides(y1, x);
    AckSent(y1);
    SameUnsent(y1, y2);
    AckOf(y1.received, pn);
    var ack := BuildAck(y1.received, pn, true, None).value;
    NewestIsAcknowledged(y1.received, pn);
    NotYetReceived(x.received, |y.emitted|);
    ReceiveOne(x, |y.emitted|, ack);
    AckTaken(Record(x, |y.emitted|), ack);
    SameUnsent(x, Record(x, |y.emitted|));
    AckCarries(y, y2, ack);
    Freed(x, Act(x, y2, ActReceive(|y.emitted|)), ack.ranges);
  }

  lemma AckOf(received: seq<Range>, largest: int)
    requires largest >= 0
    ensures var ack := BuildAck(received, largest, true, None);
            ack.Some? && ack.value.Ack? && ack.value.largest == largest
  {
  }

  lemma AckCarries(y: Endpoint, y2: Endpoint, ack: Frame)
    requires ack.Ack? && y2.emitted == y.emitted + [[ack]] && y2.held == y.held + {|y.emitted|}
    ensures Carrying(y2) == Carrying(y)
  {
  }

  lemma Freed(x: Endpoint, x2: Endpoint, ranges: seq<AckRange>)
    requires x.emitted != [] && Acknowledges(ranges, |x.emitted| - 1) && x2.emitted == x.emitted
    requires x2.held == x.held - (set k | k in x.held && k < |x.emitted| && Acknowledges(ranges, k))
    ensures Carrying(x2) <= Carrying(x) - {|x.emitted| - 1}
  {
  }
}
