/** How many streams a peer can hold open (src/dsquic/streams.py, `max_streams_update`
    and `_create_peer_initiated`; section 4.6 of RFC 9000).  The endpoint is that of
    module Transfer with all its operations; the peer is arbitrary: its packets may
    hold any frames, in any order. */
module PeerStreams {
  import opened Frames
  import opened Streams
  import opened Managers
  import opened Totals
  import opened Acks
  import opened Transfer
  import Delivery

  datatype Event =
    | Local(action: Action)                       // opening, writing, sending, loss, probing
    | FromPeer(number: nat, frames: seq<Frame>)   // a packet of any content

  function Step(e: Endpoint, event: Event): Endpoint {
    match event
    case Local(action) => if action.ActReceive? then e else Act(e, e, action)
    case FromPeer(pn, frames) => if e.failed.Some? then e else Receive(e, pn, frames)
  }

  function Run(e: Endpoint, events: seq<Event>): Endpoint {
    if events == [] then e else Step(Run(e, events[..|events| - 1]), events[|events| - 1])
  }

  // --------------------------------------------------------------- pigeonhole

  /** The sequence numbers of the peer's streams of one kind. */
  ghost function Sequences(isClient: bool, order: seq<nat>, bidi: bool): set<nat> {
    set k | 0 <= k < |order| && Counts(isClient, order[k], bidi) :: order[k] / 4
  }

  lemma SequenceIdentifies(isClient: bool, bidi: bool, a: nat, b: nat)
    requires Counts(isClient, a, bidi) && Counts(isClient, b, bidi) && a / 4 == b / 4
    ensures a == b
  {
    IdParts(a);
    IdParts(b);
  }

  lemma IdParts(id: nat)
    ensures id == 4 * (id / 4) + 2 * ((id / 2) % 2) + id % 2
  {
    var half := id / 2;
    assert id == 2 * half + id % 2 && half == 2 * (half / 2) + half % 2;
    assert half / 2 == id / 4;
  }

  lemma NewSequence(isClient: bool, order: seq<nat>, id: nat, bidi: bool)
    requires id !in order && Counts(isClient, id, bidi)
    ensures id / 4 !in Sequences(isClient, order, bidi)
  {
    hide Counts;
    forall k | 0 <= k < |order| && Counts(isClient, order[k], bidi) ensures order[k] / 4 != id / 4 {
      if order[k] / 4 == id / 4 { SequenceIdentifies(isClient, bidi, order[k], id); }
    }
  }

  lemma {:induction false} OpenedIsCardinality(isClient: bool, order: seq<nat>, bidi: bool)
    requires Distinct(order)
    ensures Opened(isClient, order, bidi) == |Sequences(isClient, order, bidi)|
    decreases |order|
  {
    hide Sequences, Counts;
    if order == [] {
      NoSequences(isClient, bidi);
    } else {
      var n := |order| - 1;
      OpenedIsCardinality(isClient, order[..n], bidi);
      SequencesSnoc(isClient, order[..n], order[n], bidi);
      assert order[..n] + [order[n]] == order;
      if Counts(isClient, order[n], bidi) { NewSequence(isClient, order[..n], order[n], bidi); }
    }
  }

  lemma NoSequences(isClient: bool, bidi: bool)
    ensures Sequences(isClient, [], bidi) == {}
  {
  }

  lemma SequencesSnoc(isClient: bool, order: seq<nat>, id: nat, bidi: bool)
    ensures Sequences(isClient, order + [id], bidi)
         == Sequences(isClient, order, bidi) + (if Counts(isClient, id, bidi) then {id / 4} else {})
  {
    var all := order + [id];
    assert all[|order|] == id;
    forall s | s in Sequences(isClient, order, bidi) ensures s in Sequences(isClient, all, bidi) {
      var k :| 0 <= k < |order| && Counts(isClient, order[k], bidi) && order[k] / 4 == s;
      assert all[k] == order[k];
    }
    if Counts(isClient, id, bidi) { assert all[|order|] / 4 in Sequences(isClient, all, bidi); }
  }

  lemma {:induction false} BelowCardinality(s: set<nat>, limit: nat)
    requires forall x :: x in s ==> x < limit
    ensures |s| <= limit
    decreases limit
  {
    if limit == 0 {
      assert s == {};
    } else {
      BelowCardinality(s - {limit - 1}, limit - 1);
      assert s <= (s - {limit - 1}) + {limit - 1};
      assert limit - 1 in s ==> |s| == |s - {limit - 1}| + 1;
      assert limit - 1 !in s ==> s - {limit - 1} == s;
    }
  }

  // ---------------------------------------------------------------- invariant

  ghost predicate Table(m: Manager) {
    Distinct(m.order) && (forall id :: id in m.order <==> id in m.recv)
  }

  ghost predicate Bounded(m: Manager, bidi: bool) {
    && (forall id :: id in m.order && Counts(m.isClient, id, bidi) ==> id / 4 < LocalStreams(m, bidi))
    && 0 <= LocalStreams(m, bidi) <= ClosedCount(m.isClient, m.order, m.recv, bidi) + StreamWindow(m, bidi)
  }

  ghost predicate Ok(m: Manager) { Table(m) && Bounded(m, true) && Bounded(m, false) }

  lemma WithinAdvertised(m: Manager, bidi: bool)
    requires Table(m) && Bounded(m, bidi)
    ensures Opened(m.isClient, m.order, bidi) <= LocalStreams(m, bidi)
  {
    OpenedIsCardinality(m.isClient, m.order, bidi);
    BelowCardinality(Sequences(m.isClient, m.order, bidi), LocalStreams(m, bidi));
  }

  /** Data Read is terminal: a stream that counts as closed stays closed. */
  ghost predicate StaysClosed(a: map<nat, Receiver>, b: map<nat, Receiver>) {
    forall id: nat :: Closed(a, id) ==> Closed(b, id)
  }

  lemma {:induction false} ClosedGrows(isClient: bool, order: seq<nat>, a: map<nat, Receiver>, b: map<nat, Receiver>,
                                       bidi: bool)
    requires StaysClosed(a, b)
    ensures ClosedCount(isClient, order, a, bidi) <= ClosedCount(isClient, order, b, bidi)
    decreases |order|
  {
    if order != [] { ClosedGrows(isClient, order[..|order| - 1], a, b, bidi); }
  }

  lemma ClosedAppend(isClient: bool, order: seq<nat>, id: nat, recv: map<nat, Receiver>, bidi: bool)
    ensures ClosedCount(isClient, order + [id], recv, bidi) >= ClosedCount(isClient, order, recv, bidi)
  {
    assert (order + [id])[..|order|] == order;
  }

  lemma DataReadIsTerminal(r: Receiver, f: StreamFrame)
    requires r.state.AllRead?
    ensures Accept(r, f).0.state.AllRead? && Read(r).0.state.AllRead?
  {
  }

  // ------------------------------------------------------------- preservation

  lemma UpdateKeeps(m: Manager, id: nat, u: Receiver, n: Manager)
    requires Ok(m) && id in m.recv && (m.recv[id].state.AllRead? ==> u.state.AllRead?)
    requires n == m.(recv := m.recv[id := u], dataReceived := n.dataReceived)
    ensures Ok(n)
  {
    assert StaysClosed(m.recv, n.recv);
    ClosedGrows(m.isClient, m.order, m.recv, n.recv, true);
    ClosedGrows(m.isClient, m.order, m.recv, n.recv, false);
  }

  lemma AddKeeps(m: Manager, id: nat, writable: bool, next: nat)
    requires Ok(m) && id !in m.recv
    requires !LocalId(m.isClient, id) ==> id / 4 < LocalStreams(m, IsBidirectional(id))
    ensures Ok(AddStream(m, id, writable).(nextBidi := next))
  {
    var n := AddStream(m, id, writable).(nextBidi := next);
    DistinctSnoc(m.order, id);
    assert StaysClosed(m.recv, n.recv);
    forall bidi ensures Bounded(n, bidi) {
      ClosedGrows(m.isClient, m.order, m.recv, n.recv, bidi);
      ClosedAppend(m.isClient, m.order, id, n.recv, bidi);
      assert Bounded(m, bidi);
    }
  }

  /** The stream a frame names, once it exists. */
  function Found(m: Manager, id: nat): Manager {
    if id in m.recv || CreatePeerInitiated(m, id).Err? then m else CreatePeerInitiated(m, id).value
  }

  lemma FoundKeeps(m: Manager, id: nat)
    requires Ok(m)
    ensures Ok(Found(m, id))
    ensures id in m.recv || CreatePeerInitiated(m, id).Ok? ==> id in Found(m, id).recv
  {
    hide Ok;
    if id !in m.recv && CreatePeerInitiated(m, id).Ok? {
      AddKeeps(m, id, IsBidirectional(id), m.nextBidi);
      assert Found(m, id) == AddStream(m, id, IsBidirectional(id)).(nextBidi := m.nextBidi);
    }
  }

  /** What the streams this side opens look like. */
  ghost predicate OwnIds(m: Manager) {
    forall id :: id in m.recv && LocalId(m.isClient, id) ==> id / 4 < m.nextBidi
  }

  ghost predicate SameSide(m: Manager, n: Manager) {
    && n.isClient == m.isClient && n.local == m.local
    && n.dataWindow == m.dataWindow && n.windowBidi == m.windowBidi && n.windowUni == m.windowUni
  }

  /** The invariant of an endpoint on the side of `m`. */
  ghost predicate Sound(m: Manager, n: Manager) { Ok(n) && OwnIds(n) && SameSide(m, n) }

  /** Nothing the bound depends on changes but streams being read to their end. */
  ghost predicate SameTable(m: Manager, n: Manager) {
    && SameSide(m, n) && n.order == m.order && n.recv.Keys == m.recv.Keys && n.nextBidi == m.nextBidi
    && n.localStreamsBidi == m.localStreamsBidi && n.localStreamsUni == m.localStreamsUni
    && StaysClosed(m.recv, n.recv)
  }

  lemma SameTableKeeps(o: Manager, m: Manager, n: Manager)
    requires Sound(o, m) && SameTable(m, n)
    ensures Sound(o, n)
  {
    ClosedGrows(m.isClient, m.order, m.recv, n.recv, true);
    ClosedGrows(m.isClient, m.order, m.recv, n.recv, false);
  }

  lemma FrameKeeps(o: Manager, m: Manager, f: StreamFrame)
    requires Sound(o, m)
    ensures Sound(o, AcceptFrame(m, f).0)
  {
    hide Ok, Accept, CreatePeerInitiated;
    FoundKeeps(m, f.id);
    FoundSide(m, f.id);
    var n := Found(m, f.id);
    if f.id in m.recv || CreatePeerInitiated(m, f.id).Ok? {
      if n.recv[f.id].state.AllRead? { DataReadIsTerminal(n.recv[f.id], f); }
      UpdateKeeps(n, f.id, Accept(n.recv[f.id], f).0, AcceptFrame(m, f).0);
    }
  }

  lemma FoundSide(m: Manager, id: nat)
    requires OwnIds(m)
    ensures OwnIds(Found(m, id)) && SameSide(m, Found(m, id))
  {
  }

  lemma OpenKeeps(o: Manager, m: Manager)
    requires Sound(o, m) && OpenBidi(m).Some?
    ensures Sound(o, OpenBidi(m).value.0)
  {
    hide Ok, BidiId, LocalId;
    var id := BidiId(m.isClient, m.nextBidi);
    BidiIdNumber(m.isClient, m.nextBidi);
    AddKeeps(m, id, true, m.nextBidi + 1);
  }

  lemma LimitKeeps(o: Manager, m: Manager, bidi: bool)
    requires Sound(o, m)
    ensures Sound(o, MaxStreamsUpdate(m, bidi).0)
  {
  }

  // ------------------------------------------------- the endpoint's operations

  /** Only sending halves and what they are charged change. */
  ghost predicate OnlySending(m: Manager, n: Manager) { n == m.(send := n.send, dataSent := n.dataSent) }

  lemma SendingKeeps(o: Manager, m: Manager, n: Manager)
    requires Sound(o, m) && OnlySending(m, n)
    ensures Sound(o, n)
  {
    hide Ok;
    SameTableKeeps(o, m, n);
  }

  lemma {:induction false} AppendAllSends(e: Endpoint, items: seq<Item>)
    requires e.emitted != []
    ensures OnlySending(e.mgr, AppendAll(e, items).mgr)
    decreases |items|
  {
    hide NextFrame;
    if items != [] { AppendAllSends(Append(e, items[0]), items[1..]); }
  }

  lemma {:induction false} AckBelowSends(e: Endpoint, ranges: seq<AckRange>, n: nat)
    requires n <= |e.emitted|
    ensures OnlySending(e.mgr, AckBelow(e, ranges, n).mgr)
    decreases n
  {
    hide AckFrames, Acknowledges;
    if n > 0 { AckBelowSends(e, ranges, n - 1); }
  }

  lemma {:induction false} RequeueAllSends(e: Endpoint, frames: seq<Frame>)
    ensures OnlySending(e.mgr, RequeueAll(e, frames).mgr)
    decreases |frames|
  {
    hide Requeue;
    if frames != [] { RequeueAllSends(RequeueFrame(e, frames[0]), frames[1..]); }
  }

  /** Reading, and extending one stream's credit, leave a closed stream closed. */
  lemma ReceiverKeeps(o: Manager, m: Manager, id: nat, u: Receiver)
    requires Sound(o, m) && id in m.recv && (m.recv[id].state.AllRead? ==> u.state.AllRead?)
    ensures Sound(o, m.(recv := m.recv[id := u]))
  {
    hide Ok;
    UpdateKeeps(m, id, u, m.(recv := m.recv[id := u]));
  }

  lemma ExtendKeeps(o: Manager, e: Endpoint, id: nat)
    requires Sound(o, e.mgr) && id in e.mgr.recv
    ensures Sound(o, ExtendCredit(e, id).mgr)
  {
    hide Sound, MaxStreamsUpdate;
    var e1 := ExtendStreamCredit(e, id);
    CreditKeepsState(e.mgr.recv[id]);
    ReceiverKeeps(o, e.mgr, id, CreditUpdate(e.mgr.recv[id]).0);
    var e2 := ExtendData(e1);
    DataKeeps(o, e1.mgr);
    LimitKeeps(o, e2.mgr, true);
    LimitKeeps(o, ExtendStreams(e2, true).mgr, false);
  }

  lemma CreditKeepsState(r: Receiver)
    ensures CreditUpdate(r).0.state == r.state
  {
  }

  lemma DataKeeps(o: Manager, m: Manager)
    requires Sound(o, m)
    ensures Sound(o, MaxDataUpdate(m).0)
  {
    hide Ok, Total;
    SameTableKeeps(o, m, MaxDataUpdate(m).0);
  }

  /** `_handle_stream` with its credit updates, for any frame. */
  lemma HandleStreamKeeps(o: Manager, e: Endpoint, f: StreamFrame)
    requires Sound(o, e.mgr)
    ensures Sound(o, HandleStream(e, f).mgr)
  {
    hide Sound, AcceptFrame, Read, ExtendCredit;
    FrameKeeps(o, e.mgr, f);
    var (m, error) := AcceptFrame(e.mgr, f);
    if error.None? {
      var taken := m.recv[f.id];
      if taken.state.AllRead? { DataReadIsTerminal(taken, f); }
      ReceiverKeeps(o, m, f.id, Read(taken).0);
      var e1 := Reported(e, m, f);
      ExtendKeeps(o, e1, f.id);
    }
  }

  lemma HandleFrameKeeps(o: Manager, e: Endpoint, f: Frame)
    requires Sound(o, e.mgr)
    ensures Sound(o, HandleFrame(e, f).mgr)
  {
    hide Ok, HandleStream, AckBelow, RaiseCredit;
    var d := e.(ackPending := e.ackPending || IsAckEliciting(f));
    if f.Ack? {
      if f.largest < |e.emitted| {
        AckBelowSends(d, f.ranges, |d.emitted|);
        SendingKeeps(o, d.mgr, AckBelow(d, f.ranges, |d.emitted|).mgr);
      }
    } else if f.Stream? {
      HandleStreamKeeps(o, d, f);
    } else {
      SameTableKeeps(o, e.mgr, HandleFrame(e, f).mgr);
    }
  }

  lemma {:induction false} HandleAllKeeps(o: Manager, e: Endpoint, frames: seq<Frame>)
    requires Sound(o, e.mgr)
    ensures Sound(o, HandleAll(e, frames).mgr)
    decreases |frames|
  {
    hide Sound, HandleFrame;
    if frames != [] && e.failed.None? {
      HandleFrameKeeps(o, e, frames[0]);
      HandleAllKeeps(o, HandleFrame(e, frames[0]), frames[1..]);
    }
  }

  lemma ActKeeps(o: Manager, e: Endpoint, a: Action)
    requires Sound(o, e.mgr) && !a.ActReceive?
    ensures Sound(o, Act(e, e, a).mgr)
  {
    hide Ok, OpenBidi, Write, AppendAll, RequeueAll;
    match a {
      case ActOpen => if OpenBidi(e.mgr).Some? { OpenKeeps(o, e.mgr); }
      case ActWrite(id, data, fin) => SendingKeeps(o, e.mgr, Act(e, e, a).mgr);
      case ActSend(items) =>
        AppendAllSends(NewPacket(e), items);
        SendingKeeps(o, e.mgr, AppendAll(NewPacket(e), items).mgr);
      case ActLose(pn) =>
        if pn in e.held && pn < |e.emitted| {
          RequeueAllSends(e, e.emitted[pn]);
          SendingKeeps(o, e.mgr, RequeueAll(e, e.emitted[pn]).mgr);
        }
      case ActProbe(pn) =>
        if pn in e.held && pn < |e.emitted| {
          RequeueAllSends(e, e.emitted[pn]);
          SendingKeeps(o, e.mgr, RequeueAll(e, e.emitted[pn]).mgr);
        }
    }
  }

  lemma StepKeeps(o: Manager, e: Endpoint, event: Event)
    requires Sound(o, e.mgr)
    ensures Sound(o, Step(e, event).mgr)
  {
    hide Sound, Act, HandleAll;
    match event {
      case Local(a) =>
        if !a.ActReceive? { ActKeeps(o, e, a); }
      case FromPeer(pn, frames) =>
        if e.failed.None? { HandleAllKeeps(o, Record(e, pn), frames); }
    }
  }

  lemma {:induction false} RunKeeps(isClient: bool, local: Limits, peer: Limits, events: seq<Event>)
    ensures Sound(NewManager(isClient, local, peer), Run(NewEndpoint(isClient, local, peer), events).mgr)
    decreases |events|
  {
    hide Step, Sound;
    if events == [] {
      FreshOk(isClient, local, peer);
    } else {
      RunKeeps(isClient, local, peer, events[..|events| - 1]);
      StepKeeps(NewManager(isClient, local, peer),
                Run(NewEndpoint(isClient, local, peer), events[..|events| - 1]), events[|events| - 1]);
    }
  }

  lemma FreshOk(isClient: bool, local: Limits, peer: Limits)
    ensures Sound(NewManager(isClient, local, peer), NewManager(isClient, local, peer))
  {
  }

  // ----------------------------------------------------------------- theorems

  /** Against any peer, in every run of the endpoint: the streams of a kind the peer has
      opened are within what was advertised, and those not yet fully read are never
      more than the initial limit. */
  lemma ConcurrencyBound(isClient: bool, local: Limits, peer: Limits, events: seq<Event>, bidi: bool)
    ensures var m := Run(NewEndpoint(isClient, local, peer), events).mgr;
            var count := Opened(isClient, m.order, bidi);
            && count <= LocalStreams(m, bidi)
            && count - ClosedCount(isClient, m.order, m.recv, bidi)
               <= if bidi then local.streamsBidi else local.streamsUni
  {
    hide Run, Opened, ClosedCount;
    RunKeeps(isClient, local, peer, events);
    WithinAdvertised(Run(NewEndpoint(isClient, local, peer), events).mgr, bidi);
  }

  /** An update strictly raises the advertised limit, and only when some of the
      peer's streams have closed since it last was raised. */
  lemma UpdatesRaise(m: Manager, bidi: bool)
    ensures match MaxStreamsUpdate(m, bidi)
            case (n, None) => n == m
            case (n, Some(limit)) =>
              && limit == LocalStreams(n, bidi) > LocalStreams(m, bidi)
              && LocalStreams(n, !bidi) == LocalStreams(m, !bidi)
              && limit - StreamWindow(m, bidi) == ClosedCount(m.isClient, m.order, m.recv, bidi)
  {
  }
}
