/** Credit keeps flowing: against any peer, every window stays at least half open and is
    never opened further than promised (src/dsquic/streams.py, `credit_update`,
    `max_data_update` and `max_streams_update`; section 4.2 of RFC 9000). */
module CreditFlow {
  import opened RangeSets
  import opened Frames
  import opened Streams
  import opened Managers
  import opened Totals
  import opened Transfer
  import opened PeerStreams

  /** Unless its size is known a stream may send at least half a window more than was
      read, and never more than a window. */
  ghost predicate StreamOpen(r: Receiver) {
    && r.maxStreamData <= r.readOffset + r.window
    && (r.finalSize.Some? || 2 * (r.maxStreamData - r.readOffset) >= r.window)
  }

  function Consumed(m: Manager): nat { Total(m.order, ReadOffsets(m.recv)) }

  /** The same for the connection. */
  ghost predicate DataOpen(m: Manager) {
    m.localMaxData <= Consumed(m) + m.dataWindow && 2 * (m.localMaxData - Consumed(m)) >= m.dataWindow
  }

  /** The peer may open half a window of streams more, or all that closed ones make room for. */
  ghost predicate CountOpen(m: Manager, bidi: bool) {
    || 2 * (LocalStreams(m, bidi) - Opened(m.isClient, m.order, bidi)) >= StreamWindow(m, bidi)
    || LocalStreams(m, bidi) >= ClosedCount(m.isClient, m.order, m.recv, bidi) + StreamWindow(m, bidi)
  }

  ghost predicate StreamsOpen(m: Manager) { forall id :: id in m.recv ==> StreamOpen(m.recv[id]) }

  ghost predicate Flowing(m: Manager) {
    StreamsOpen(m) && DataOpen(m) && CountOpen(m, true) && CountOpen(m, false) && m.dataWindow >= 0
  }

  // ---------------------------------------------------------- moves that do not read

  /** Nothing on the receiving side changes. */
  ghost predicate SameReceiving(m: Manager, n: Manager) {
    && n.order == m.order && n.recv == m.recv && n.isClient == m.isClient && n.local == m.local
    && n.localMaxData == m.localMaxData && n.dataWindow == m.dataWindow
    && n.localStreamsBidi == m.localStreamsBidi && n.localStreamsUni == m.localStreamsUni
    && n.windowBidi == m.windowBidi && n.windowUni == m.windowUni
  }

  lemma SameFlows(m: Manager, n: Manager)
    requires Flowing(m) && SameReceiving(m, n)
    ensures Flowing(n)
  {
    hide StreamOpen, Total, Opened, ClosedCount;
  }

  /** A stream this side opens has nothing read and counts against no peer limit. */
  lemma OpenFlows(o: Manager, m: Manager)
    requires Flowing(m) && Sound(o, m) && OpenBidi(m).Some?
    ensures Flowing(OpenBidi(m).value.0)
  {
    hide Total, Opened, ClosedCount, BidiId, LocalId;
    var id := BidiId(m.isClient, m.nextBidi);
    BidiIdNumber(m.isClient, m.nextBidi);
    var n := OpenBidi(m).value.0;
    OwnIsNew(o, m, id);
    TotalAppend(m.order, ReadOffsets(n.recv), id);
    TotalSame(m.order, ReadOffsets(m.recv), ReadOffsets(n.recv));
    OwnDoesNotCount(m, n, id, true);
    OwnDoesNotCount(m, n, id, false);
  }

  lemma OwnIsNew(o: Manager, m: Manager, id: nat)
    requires Sound(o, m) && LocalId(m.isClient, id) && id / 4 == m.nextBidi
    ensures id !in m.recv && id !in m.order
  {
    hide Bounded;
  }

  lemma OwnDoesNotCount(m: Manager, n: Manager, id: nat, bidi: bool)
    requires LocalId(m.isClient, id) && n.isClient == m.isClient && n.order == m.order + [id] && id !in m.recv
    requires forall i :: i in m.recv ==> i in n.recv && n.recv[i] == m.recv[i]
    requires forall i :: i in m.order ==> i in m.recv
    ensures Opened(n.isClient, n.order, bidi) == Opened(m.isClient, m.order, bidi)
    ensures ClosedCount(n.isClient, n.order, n.recv, bidi) == ClosedCount(m.isClient, m.order, m.recv, bidi)
  {
    assert n.order[..|m.order|] == m.order;
    ClosedSame(m.isClient, m.order, m.recv, n.recv, bidi);
  }

  lemma {:induction false} ClosedSame(isClient: bool, order: seq<nat>, a: map<nat, Receiver>, b: map<nat, Receiver>,
                                      bidi: bool)
    requires forall i :: i in order ==> i in a && i in b && a[i] == b[i]
    ensures ClosedCount(isClient, order, a, bidi) == ClosedCount(isClient, order, b, bidi)
    decreases |order|
  {
    if order != [] { ClosedSame(isClient, order[..|order| - 1], a, b, bidi); }
  }

  // ---------------------------------------------------------------- stream frames

  /** Streams other than one are open. */
  ghost predicate OthersOpen(m: Manager, id: nat) {
    forall i :: i in m.recv && i != id ==> StreamOpen(m.recv[i])
  }

  lemma AcceptOthers(m: Manager, f: StreamFrame)
    requires StreamsOpen(m)
    ensures var n := AcceptFrame(m, f).0;
            && OthersOpen(n, f.id) && n.dataWindow == m.dataWindow
            && (f.id in n.recv ==> n.recv[f.id].maxStreamData <= n.recv[f.id].readOffset + n.recv[f.id].window)
            && (f.id in n.recv ==> n.recv[f.id].window >= 0 || f.id in m.recv)
  {
    hide Insert, Overlay, Covers;
  }

  lemma ReadAdvances(r: Receiver)
    ensures var u := Read(r).0;
            u.readOffset >= r.readOffset && u.maxStreamData == r.maxStreamData && u.window == r.window
  {
  }

  /** Whatever was left of the windows, extending credit opens them again. */
  lemma ExtendFlows(e: Endpoint, id: nat)
    requires id in e.mgr.recv && OthersOpen(e.mgr, id) && e.mgr.dataWindow >= 0
    requires e.mgr.recv[id].maxStreamData <= e.mgr.recv[id].readOffset + e.mgr.recv[id].window
    requires e.mgr.recv[id].window >= 0 && e.mgr.localMaxData <= Consumed(e.mgr) + e.mgr.dataWindow
    ensures Flowing(ExtendCredit(e, id).mgr)
  {
    hide Total, Opened, ClosedCount;
    var e1 := ExtendStreamCredit(e, id);
    CreditOpens(e, id);
    var e2 := ExtendData(e1);
    DataOpens(e1);
    var e3 := ExtendStreams(e2, true);
    CountOpens(e2, true);
    CountOpens(e3, false);
  }

  lemma CreditOpens(e: Endpoint, id: nat)
    requires id in e.mgr.recv && OthersOpen(e.mgr, id) && e.mgr.recv[id].window >= 0
    requires e.mgr.recv[id].maxStreamData <= e.mgr.recv[id].readOffset + e.mgr.recv[id].window
    ensures var d := ExtendStreamCredit(e, id);
            && StreamsOpen(d.mgr) && Consumed(d.mgr) == Consumed(e.mgr)
            && d.mgr == e.mgr.(recv := d.mgr.recv)
  {
    var d := ExtendStreamCredit(e, id);
    assert ReadOffsets(d.mgr.recv) == ReadOffsets(e.mgr.recv);
  }

  lemma DataOpens(e: Endpoint)
    requires e.mgr.dataWindow >= 0 && e.mgr.localMaxData <= Consumed(e.mgr) + e.mgr.dataWindow
    ensures var d := ExtendData(e);
            DataOpen(d.mgr) && d.mgr == e.mgr.(localMaxData := d.mgr.localMaxData)
  {
    hide Total;
  }

  lemma CountOpens(e: Endpoint, bidi: bool)
    ensures var d := ExtendStreams(e, bidi);
            && CountOpen(d.mgr, bidi) && LocalStreams(d.mgr, !bidi) == LocalStreams(e.mgr, !bidi)
            && d.mgr == e.mgr.(localStreamsBidi := d.mgr.localStreamsBidi, localStreamsUni := d.mgr.localStreamsUni)
  {
    hide Opened, ClosedCount;
  }

  /** Reading only raises what was consumed. */
  lemma ReadConsumes(m: Manager, id: nat)
    requires id in m.recv
    ensures var n := m.(recv := m.recv[id := Read(m.recv[id]).0]); Consumed(n) >= Consumed(m)
  {
    hide Read;
    ReadAdvances(m.recv[id]);
    var n := m.(recv := m.recv[id := Read(m.recv[id]).0]);
    TotalMonotone(m.order, ReadOffsets(m.recv), ReadOffsets(n.recv));
  }

  lemma AcceptConsumes(o: Manager, m: Manager, f: StreamFrame)
    requires Sound(o, m)
    ensures var n := AcceptFrame(m, f).0; Consumed(n) == Consumed(m) && n.localMaxData == m.localMaxData
  {
    hide Bounded, OwnIds, Insert, Overlay, Covers, Total;
    var n := AcceptFrame(m, f).0;
    if f.id in m.recv || CreatePeerInitiated(m, f.id).Ok? {
      if f.id in m.recv {
        TotalSame(m.order, ReadOffsets(m.recv), ReadOffsets(n.recv));
      } else {
        TotalAppend(m.order, ReadOffsets(n.recv), f.id);
        TotalSame(m.order, ReadOffsets(m.recv), ReadOffsets(n.recv));
      }
    }
  }

  /** Every window is the one first advertised. */
  ghost predicate Windows(m: Manager) {
    forall id :: id in m.recv ==> m.recv[id].window == RecvCredit(m.isClient, m.local, id)
  }

  lemma StreamFlows(o: Manager, e: Endpoint, f: StreamFrame)
    requires Flowing(e.mgr) && Sound(o, e.mgr) && Windows(e.mgr) && HandleStream(e, f).failed.None?
    ensures Flowing(HandleStream(e, f).mgr)
  {
    hide AcceptFrame, Read, ExtendCredit, Total, Opened, ClosedCount, Sound;
    var (m, error) := AcceptFrame(e.mgr, f);
    AcceptOthers(e.mgr, f);
    AcceptConsumes(o, e.mgr, f);
    if error.None? {
      ReadAdvances(m.recv[f.id]);
      ReadConsumes(m, f.id);
      var d := Reported(e, m, f);
      AcceptWindow(e.mgr, f);
      ExtendFlows(d, f.id);
    }
  }

  lemma AcceptWindow(m: Manager, f: StreamFrame)
    requires Windows(m)
    ensures Windows(AcceptFrame(m, f).0)
  {
    hide Insert, Overlay, Covers;
  }

  // ------------------------------------------------------------------ whole runs

  /** The invariant of an endpoint that has not failed. */
  ghost predicate Granting(o: Manager, e: Endpoint) {
    Sound(o, e.mgr) && (e.failed.None? ==> Flowing(e.mgr) && Windows(e.mgr))
  }

  lemma ExtendWindows(e: Endpoint, id: nat)
    requires Windows(e.mgr) && id in e.mgr.recv
    ensures Windows(ExtendCredit(e, id).mgr)
  {
    hide ExtendStreamCredit, ExtendData, ExtendStreams;
    var e1 := ExtendStreamCredit(e, id);
    CreditWindows(e, id);
    var e2 := ExtendData(e1);
    DataRecv(e1);
    CountOpens(e2, true);
    CountOpens(ExtendStreams(e2, true), false);
  }

  lemma CreditWindows(e: Endpoint, id: nat)
    requires Windows(e.mgr) && id in e.mgr.recv
    ensures Windows(ExtendStreamCredit(e, id).mgr)
  {
  }

  lemma DataRecv(e: Endpoint)
    ensures ExtendData(e).mgr == e.mgr.(localMaxData := ExtendData(e).mgr.localMaxData)
  {
    hide Total;
  }

  lemma StreamWindows(e: Endpoint, f: StreamFrame)
    requires Windows(e.mgr)
    ensures Windows(HandleStream(e, f).mgr)
  {
    hide AcceptFrame, ExtendCredit, Read;
    AcceptWindow(e.mgr, f);
    var (m, error) := AcceptFrame(e.mgr, f);
    if error.None? {
      ReadAdvances(m.recv[f.id]);
      ExtendWindows(Reported(e, m, f), f.id);
    }
  }

  lemma FrameFlows(o: Manager, e: Endpoint, f: Frame)
    requires Granting(o, e) && e.failed.None?
    ensures Granting(o, HandleFrame(e, f))
  {
    hide Flowing, Sound, Windows, HandleStream, AckBelow, RaiseCredit;
    var d := e.(ackPending := e.ackPending || IsAckEliciting(f));
    HandleFrameKeeps(o, e, f);
    if f.Ack? {
      if f.largest < |e.emitted| {
        AckBelowSends(d, f.ranges, |d.emitted|);
        SameWindows(e.mgr, HandleFrame(e, f).mgr);
      }
    } else if f.Stream? {
      StreamWindows(d, f);
      if HandleStream(d, f).failed.None? { StreamFlows(o, d, f); }
    } else {
      SameWindows(e.mgr, HandleFrame(e, f).mgr);
    }
  }

  lemma SameWindows(m: Manager, n: Manager)
    requires Flowing(m) && Windows(m) && SameReceiving(m, n)
    ensures Flowing(n) && Windows(n)
  {
    hide Flowing;
    SameFlows(m, n);
  }

  lemma {:induction false} PayloadFlows(o: Manager, e: Endpoint, frames: seq<Frame>)
    requires Granting(o, e)
    ensures Granting(o, HandleAll(e, frames))
    decreases |frames|
  {
    hide Granting, HandleFrame;
    if frames != [] && e.failed.None? {
      FrameFlows(o, e, frames[0]);
      PayloadFlows(o, HandleFrame(e, frames[0]), frames[1..]);
    }
  }

  lemma ActFlows(o: Manager, e: Endpoint, a: Action)
    requires Granting(o, e) && !a.ActReceive?
    ensures Granting(o, Act(e, e, a))
  {
    hide Flowing, Sound, Windows, OpenBidi, Write, AppendAll, RequeueAll;
    ActKeeps(o, e, a);
    if e.failed.None? {
      match a {
        case ActOpen =>
          if OpenBidi(e.mgr).Some? {
            OpenFlows(o, e.mgr);
            OpenWindows(e.mgr);
          }
        case ActWrite(id, data, fin) => SameWindows(e.mgr, Act(e, e, a).mgr);
        case ActSend(items) =>
          AppendAllSends(NewPacket(e), items);
          SameWindows(e.mgr, AppendAll(NewPacket(e), items).mgr);
        case ActLose(pn) =>
          if pn in e.held && pn < |e.emitted| { RequeueFlows(e, e.emitted[pn]); }
        case ActProbe(pn) =>
          if pn in e.held && pn < |e.emitted| { RequeueFlows(e, e.emitted[pn]); }
      }
    }
  }

  lemma RequeueFlows(e: Endpoint, frames: seq<Frame>)
    requires Flowing(e.mgr) && Windows(e.mgr)
    ensures Flowing(RequeueAll(e, frames).mgr) && Windows(RequeueAll(e, frames).mgr)
  {
    hide Flowing, Windows, RequeueAll;
    RequeueAllSends(e, frames);
    SameWindows(e.mgr, RequeueAll(e, frames).mgr);
  }

  lemma OpenWindows(m: Manager)
    requires Windows(m) && OpenBidi(m).Some?
    ensures Windows(OpenBidi(m).value.0)
  {
  }

  lemma StepFlows(o: Manager, e: Endpoint, event: Event)
    requires Granting(o, e)
    ensures Granting(o, PeerStreams.Step(e, event))
  {
    hide Flowing, Sound, Windows, Act, HandleAll;
    match event {
      case Local(a) =>
        if !a.ActReceive? { ActFlows(o, e, a); }
      case FromPeer(pn, frames) =>
        if e.failed.None? { PayloadFlows(o, Record(e, pn), frames); }
    }
  }

  lemma {:induction false} RunFlows(isClient: bool, local: Limits, peer: Limits, events: seq<Event>)
    ensures Granting(NewManager(isClient, local, peer), PeerStreams.Run(NewEndpoint(isClient, local, peer), events))
    decreases |events|
  {
    hide PeerStreams.Step, Granting;
    if events == [] {
      FreshFlows(isClient, local, peer);
    } else {
      var before := events[..|events| - 1];
      RunFlows(isClient, local, peer, before);
      StepFlows(NewManager(isClient, local, peer),
                PeerStreams.Run(NewEndpoint(isClient, local, peer), before), events[|events| - 1]);
    }
  }

  lemma FreshFlows(isClient: bool, local: Limits, peer: Limits)
    ensures Granting(NewManager(isClient, local, peer), NewEndpoint(isClient, local, peer))
  {
    FreshOk(isClient, local, peer);
  }

  // ------------------------------------------------------------------ theorems

  /** Against any peer, in every run that has not failed: each stream whose size is not
      known may send at least half its window beyond what was read, and none more than
      a whole window. */
  lemma StreamCreditFlows(isClient: bool, local: Limits, peer: Limits, events: seq<Event>, id: nat)
    ensures var e := PeerStreams.Run(NewEndpoint(isClient, local, peer), events);
            e.failed.None? && id in e.mgr.recv ==>
              var r, window := e.mgr.recv[id], RecvCredit(isClient, local, id);
              && r.maxStreamData <= r.readOffset + window
              && (r.finalSize.None? ==> 2 * (r.maxStreamData - r.readOffset) >= window)
  {
    hide PeerStreams.Run, PeerStreams.Ok, OwnIds;
    RunFlows(isClient, local, peer, events);
  }

  /** Against any peer, in every run that has not failed, the same holds of the connection,
      and the peer may open half a window of streams more or as many as were closed. */
  lemma ConnectionCreditFlows(isClient: bool, local: Limits, peer: Limits, events: seq<Event>, bidi: bool)
    ensures var e := PeerStreams.Run(NewEndpoint(isClient, local, peer), events);
            var m := e.mgr;
            var window := if bidi then local.streamsBidi else local.streamsUni;
            e.failed.None? ==>
              && m.localMaxData <= Consumed(m) + local.maxData
              && 2 * (m.localMaxData - Consumed(m)) >= local.maxData
              && LocalStreams(m, bidi) <= ClosedCount(isClient, m.order, m.recv, bidi) + window
              && (|| 2 * (LocalStreams(m, bidi) - Opened(isClient, m.order, bidi)) >= window
                  || LocalStreams(m, bidi) == ClosedCount(isClient, m.order, m.recv, bidi) + window)
  {
    hide PeerStreams.Run, Total, Opened, ClosedCount;
    RunFlows(isClient, local, peer, events);
  }
}
