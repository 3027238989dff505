/** All streams of one connection and the connection-level accounting
    (src/dsquic/streams.py, class StreamManager; sections 2.1, 4.1 and 4.6 of
    RFC 9000).

    The source's dictionary of stream halves is `order`, its insertion order,
    with `send` and `recv` for the halves: every stream has a receiving half, and
    all but the peer's unidirectional ones have a sending half. */
module Managers {
  import opened Options
  import opened Numbers
  import opened RangeSets
  import opened Streams

  /** One side's advertised limits. */
  datatype Limits = Limits(
    maxData: nat, bidiLocal: nat, bidiRemote: nat, uni: nat, streamsBidi: nat, streamsUni: nat)

  datatype Manager = Manager(
    isClient: bool, local: Limits, peer: Limits,
    order: seq<nat>, send: map<nat, Sender>, recv: map<nat, Receiver>,
    nextBidi: nat,
    maxData: int, localMaxData: int, dataWindow: int,
    maxStreamsBidi: int, maxStreamsUni: int,
    localStreamsBidi: int, localStreamsUni: int,
    windowBidi: int, windowUni: int,
    dataSent: int, dataReceived: int)

  function NewManager(isClient: bool, local: Limits, peer: Limits): Manager {
    Manager(isClient, local, peer, [], map[], map[], 0,
            peer.maxData, local.maxData, local.maxData,
            peer.streamsBidi, peer.streamsUni, local.streamsBidi, local.streamsUni,
            local.streamsBidi, local.streamsUni, 0, 0)
  }

  // -------------------------------------------------------------- stream ids

  predicate IsClientInitiated(id: nat) { id % 2 == 0 }

  predicate IsBidirectional(id: nat) { (id / 2) % 2 == 0 }

  predicate LocalId(isClient: bool, id: nat) { IsClientInitiated(id) == isClient }

  /** The stream opened with sequence number `n`. */
  function BidiId(isClient: bool, n: nat): nat { 4 * n + (if isClient then 0 else 1) }

  lemma BidiIdNumber(isClient: bool, n: nat)
    ensures var id := BidiId(isClient, n); id / 4 == n && LocalId(isClient, id) && IsBidirectional(id)
  {
    var id := BidiId(isClient, n);
    assert id / 2 == 2 * n;
  }

  /** Credit for sending on a stream, and credit granted on it, at creation. */
  function SendCredit(isClient: bool, peer: Limits, id: nat): nat {
    if !IsBidirectional(id) then 0
    else if LocalId(isClient, id) then peer.bidiRemote else peer.bidiLocal
  }

  function RecvCredit(isClient: bool, local: Limits, id: nat): nat {
    if !IsBidirectional(id) then (if LocalId(isClient, id) then 0 else local.uni)
    else if LocalId(isClient, id) then local.bidiLocal else local.bidiRemote
  }

  // ------------------------------------------------------------------ totals

  function Get(amounts: map<nat, nat>, id: nat): nat {
    if id in amounts then amounts[id] else 0
  }

  function Total(order: seq<nat>, amounts: map<nat, nat>): nat {
    if order == [] then 0 else Total(order[..|order| - 1], amounts) + Get(amounts, order[|order| - 1])
  }

  function ReadOffsets(recv: map<nat, Receiver>): map<nat, nat> { map id | id in recv :: recv[id].readOffset }

  /** Streams of one kind that the peer opened, and those of them fully read. */
  predicate Counts(isClient: bool, id: nat, bidi: bool) {
    !LocalId(isClient, id) && IsBidirectional(id) == bidi
  }

  predicate Closed(recv: map<nat, Receiver>, id: nat) { id in recv && recv[id].state.AllRead? }

  function Opened(isClient: bool, order: seq<nat>, bidi: bool): nat {
    if order == [] then 0
    else Opened(isClient, order[..|order| - 1], bidi) + (if Counts(isClient, order[|order| - 1], bidi) then 1 else 0)
  }

  function ClosedCount(isClient: bool, order: seq<nat>, recv: map<nat, Receiver>, bidi: bool): nat {
    if order == [] then 0
    else ClosedCount(isClient, order[..|order| - 1], recv, bidi)
         + (if Counts(isClient, order[|order| - 1], bidi) && Closed(recv, order[|order| - 1]) then 1 else 0)
  }

  // -------------------------------------------------------------- operations

  function AddStream(m: Manager, id: nat, writable: bool): Manager {
    m.(order := m.order + [id],
       send := if writable then m.send[id := NewSender(id, SendCredit(m.isClient, m.peer, id))] else m.send,
       recv := m.recv[id := NewReceiver(id, RecvCredit(m.isClient, m.local, id))])
  }

  /** `open_bidi`: None when the peer's limit is reached. */
  function OpenBidi(m: Manager): Option<(Manager, nat)> {
    if m.nextBidi >= m.maxStreamsBidi then None
    else
      var id := BidiId(m.isClient, m.nextBidi);
      Some((AddStream(m, id, true).(nextBidi := m.nextBidi + 1), id))
  }

  /** `_create_peer_initiated`. */
  function CreatePeerInitiated(m: Manager, id: nat): Result<Manager, int> {
    if LocalId(m.isClient, id) then Err(STREAM_STATE_ERROR)
    else if id / 4 >= (if IsBidirectional(id) then m.localStreamsBidi else m.localStreamsUni) then
      Err(STREAM_LIMIT_ERROR)
    else Ok(AddStream(m, id, IsBidirectional(id)))
  }

  /** `on_stream_frame`: route a frame, creating the stream if the peer opened it. */
  function AcceptFrame(m: Manager, f: StreamFrame): (r: (Manager, Option<int>))
    ensures r.1.None? ==> f.id in r.0.recv
  {
    var found := if f.id in m.recv then Ok(m) else CreatePeerInitiated(m, f.id);
    if found.Err? then (m, Some(found.error))
    else
      var n := found.value;
      var before := n.recv[f.id];
      var (after, error) := Accept(before, f);
      var stored := n.(recv := n.recv[f.id := after]);
      if error.Some? then (stored, error)
      else
        var charged := stored.(dataReceived := n.dataReceived + after.highest - before.highest);
        (charged, if charged.dataReceived > charged.localMaxData then Some(FLOW_CONTROL_ERROR) else None)
  }

  /** A frame taken without error charges the connection for exactly the offsets it
      reaches for the first time on its stream, stays within the credit granted, and
      touches no other stream. */
  lemma FrameIsCharged(m: Manager, f: StreamFrame)
    requires AcceptFrame(m, f).1.None?
    ensures var n := AcceptFrame(m, f).0;
            var before := if f.id in m.recv then m.recv[f.id].highest else 0;
            && n.recv[f.id].highest == Max(before, End(f))
            && n.dataReceived == m.dataReceived + n.recv[f.id].highest - before <= n.localMaxData == m.localMaxData
            && n.recv.Keys == m.recv.Keys + {f.id}
            && (forall id :: id in m.recv && id != f.id ==> n.recv[id] == m.recv[id])
  {
    hide Insert, Overlay, Covers;
  }

  /** `next_frame`: only offsets sent for the first time are charged. */
  function TakeFrame(m: Manager, id: nat, maxBytes: int): (Manager, Option<StreamFrame>)
    requires id in m.send
  {
    var before := m.send[id];
    var (after, frame) := NextFrame(before, maxBytes, m.maxData - m.dataSent);
    (if frame.None? then m
     else m.(send := m.send[id := after], dataSent := m.dataSent + after.highest - before.highest),
     frame)
  }

  function RaiseMaxData(m: Manager, maximum: int): Manager { m.(maxData := Max(m.maxData, maximum)) }

  function RaiseMaxStreams(m: Manager, maximum: int, bidi: bool): Manager {
    if bidi then m.(maxStreamsBidi := Max(m.maxStreamsBidi, maximum))
    else m.(maxStreamsUni := Max(m.maxStreamsUni, maximum))
  }

  function LocalStreams(m: Manager, bidi: bool): int { if bidi then m.localStreamsBidi else m.localStreamsUni }

  function StreamWindow(m: Manager, bidi: bool): int { if bidi then m.windowBidi else m.windowUni }

  /** `max_streams_update`: closing streams frees room for as many new ones. */
  function MaxStreamsUpdate(m: Manager, bidi: bool): (Manager, Option<int>) {
    var window := StreamWindow(m, bidi);
    var advertised := LocalStreams(m, bidi);
    if 2 * (advertised - Opened(m.isClient, m.order, bidi)) >= window then (m, None)
    else
      var limit := ClosedCount(m.isClient, m.order, m.recv, bidi) + window;
      if limit <= advertised then (m, None)
      else (if bidi then m.(localStreamsBidi := limit) else m.(localStreamsUni := limit), Some(limit))
  }

  /** `max_data_update`. */
  function MaxDataUpdate(m: Manager): (Manager, Option<int>) {
    var consumed := Total(m.order, ReadOffsets(m.recv));
    if 2 * (m.localMaxData - consumed) >= m.dataWindow then (m, None)
    else (m.(localMaxData := consumed + m.dataWindow), Some(consumed + m.dataWindow))
  }

  function Writable(m: Manager): seq<nat> { WritableOf(m.order, m.send) }

  function WritableOf(order: seq<nat>, send: map<nat, Sender>): seq<nat> {
    if order == [] then []
    else WritableOf(order[..|order| - 1], send)
         + (if order[|order| - 1] in send && HasPending(send[order[|order| - 1]]) then [order[|order| - 1]] else [])
  }

  // -------------------------------------------------------- the source's object

  /** The connection's stream table.  Stream halves are held as values. */
  class StreamManager {
    const isClient: bool
    const local: Limits
    const peer: Limits
    var order: seq<nat>
    var send: map<nat, Sender>
    var recv: map<nat, Receiver>
    var nextBidi: nat
    var maxData: int
    var localMaxData: int
    const dataWindow: int
    var maxStreamsBidi: int
    var maxStreamsUni: int
    var localStreamsBidi: int
    var localStreamsUni: int
    const windowBidi: int
    const windowUni: int
    var dataSent: int
    var dataReceived: int

    function Model(): Manager
      reads this
    {
      Manager(isClient, local, peer, order, send, recv, nextBidi, maxData, localMaxData, dataWindow,
              maxStreamsBidi, maxStreamsUni, localStreamsBidi, localStreamsUni, windowBidi, windowUni,
              dataSent, dataReceived)
    }

    constructor (isClient: bool, local: Limits, peer: Limits)
      ensures Model() == NewManager(isClient, local, peer)
    {
      this.isClient, this.local, this.peer := isClient, local, peer;
      order, send, recv, nextBidi := [], map[], map[], 0;
      maxData, localMaxData, dataWindow := peer.maxData, local.maxData, local.maxData;
      maxStreamsBidi, maxStreamsUni := peer.streamsBidi, peer.streamsUni;
      localStreamsBidi, localStreamsUni := local.streamsBidi, local.streamsUni;
      windowBidi, windowUni := local.streamsBidi, local.streamsUni;
      dataSent, dataReceived := 0, 0;
    }

    method Open() returns (id: Option<nat>)
      modifies this
      ensures match OpenBidi(old(Model()))
              case None => id == None && Model() == old(Model())
              case Some((after, stream)) => id == Some(stream) && Model() == after
    {
      if nextBidi >= maxStreamsBidi {
        return None;
      }
      var stream := BidiId(isClient, nextBidi);
      nextBidi := nextBidi + 1;
      order := order + [stream];
      send := send[stream := NewSender(stream, peer.bidiRemote)];
      recv := recv[stream := NewReceiver(stream, local.bidiLocal)];
      return Some(stream);
    }

    method OnStreamFrame(frame: StreamFrame) returns (error: Option<int>)
      modifies this
      ensures (Model(), error) == AcceptFrame(old(Model()), frame)
    {
      if frame.id !in recv {
        var created := CreatePeerInitiated(Model(), frame.id);
        if created.Err? {
          return Some(created.error);
        }
        order, send, recv := created.value.order, created.value.send, created.value.recv;
      }
      var before := recv[frame.id].highest;
      var (after, failure) := Accept(recv[frame.id], frame);
      recv := recv[frame.id := after];
      if failure.Some? {
        return failure;
      }
      dataReceived := dataReceived + after.highest - before;
      if dataReceived > localMaxData {
        return Some(FLOW_CONTROL_ERROR);
      }
      return None;
    }

    method NextStreamFrame(id: nat, maxBytes: int) returns (frame: Option<StreamFrame>)
      requires id in send
      modifies this
      ensures (Model(), frame) == TakeFrame(old(Model()), id, maxBytes)
    {
      var before := send[id].highest;
      var (after, taken) := NextFrame(send[id], maxBytes, maxData - dataSent);
      if taken.Some? {
        send := send[id := after];
        dataSent := dataSent + after.highest - before;
      }
      return taken;
    }

    method OnMaxData(maximum: int)
      modifies this
      ensures Model() == RaiseMaxData(old(Model()), maximum)
    {
      maxData := Max(maxData, maximum);
    }

    method OnMaxStreams(maximum: int, bidi: bool)
      modifies this
      ensures Model() == RaiseMaxStreams(old(Model()), maximum, bidi)
    {
      if bidi {
        maxStreamsBidi := Max(maxStreamsBidi, maximum);
      } else {
        maxStreamsUni := Max(maxStreamsUni, maximum);
      }
    }

    /** One sending half changes. */
    method SetSend(id: nat, half: Sender)
      modifies this
      ensures Model() == old(Model()).(send := old(send)[id := half])
    {
      send := send[id := half];
    }

    /** Counts the peer's streams of one kind in a loop over the table. */
    method NewStreamLimit(bidi: bool) returns (limit: Option<int>)
      modifies this
      ensures (Model(), limit) == MaxStreamsUpdate(old(Model()), bidi)
    {
      var window := if bidi then windowBidi else windowUni;
      var advertised := if bidi then localStreamsBidi else localStreamsUni;
      var openedCount, closed := 0, 0;
      var i := 0;
      while i < |order|
        invariant 0 <= i <= |order|
        invariant openedCount == Opened(isClient, order[..i], bidi)
        invariant closed == ClosedCount(isClient, order[..i], recv, bidi)
      {
        var id := order[i];
        assert order[..i + 1][..i] == order[..i] && order[..i + 1][i] == id;
        if Counts(isClient, id, bidi) {
          openedCount := openedCount + 1;
          if Closed(recv, id) {
            closed := closed + 1;
          }
        }
        i := i + 1;
      }
      assert order[..i] == order;
      if 2 * (advertised - openedCount) >= window {
        return None;
      }
      var newLimit := closed + window;
      if newLimit <= advertised {
        return None;
      }
      if bidi { localStreamsBidi := newLimit; } else { localStreamsUni := newLimit; }
      return Some(newLimit);
    }

    method NewDataLimit() returns (limit: Option<int>)
      modifies this
      ensures (Model(), limit) == MaxDataUpdate(old(Model()))
    {
      var consumed := 0;
      var i := 0;
      while i < |order|
        invariant 0 <= i <= |order|
        invariant consumed == Total(order[..i], ReadOffsets(recv))
      {
        assert order[..i + 1][..i] == order[..i] && order[..i + 1][i] == order[i];
        if order[i] in recv {
          consumed := consumed + recv[order[i]].readOffset;
        }
        i := i + 1;
      }
      assert order[..i] == order;
      if 2 * (localMaxData - consumed) >= dataWindow {
        return None;
      }
      localMaxData := consumed + dataWindow;
      return Some(localMaxData);
    }
  }
}
