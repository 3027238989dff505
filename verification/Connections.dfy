/** The connection object's handlers for streams, credit, acknowledgements and loss
    (src/dsquic/connection.py), with the source's loops, proved equal to the
    functions of module Transfer. */
module Connections {
  import opened Options
  import opened Buffers
  import opened RangeSets
  import opened Frames
  import opened Acks
  import opened Streams
  import opened Managers
  import opened Delivery
  import opened Transfer

  class Connection {
    const streams: StreamManager
    const received: RangeSet
    var emitted: seq<seq<Frame>>
    var held: set<nat>
    var largestReceived: int
    var ackPending: bool
    var control: seq<Frame>
    var events: map<nat, seq<Chunk>>
    var failed: Option<int>
    ghost var written: map<nat, Bytes>

    ghost predicate Valid()
      reads this, received
    {
      received.Valid()
    }

    ghost function Model(): Endpoint
      reads this, streams, received
    {
      Endpoint(streams.Model(), emitted, held, received.ranges, largestReceived, ackPending, control,
               written, events, failed)
    }

    constructor (isClient: bool, local: Limits, peer: Limits)
      ensures Valid() && Model() == NewEndpoint(isClient, local, peer) && fresh(streams) && fresh(received)
    {
      streams := new StreamManager(isClient, local, peer);
      received := new RangeSet();
      emitted, held, largestReceived, ackPending, control := [], {}, -1, false, [];
      events, failed, written := map[], None, map[];
    }

    method OpenStream() returns (id: Option<nat>)
      requires Valid()
      modifies this, streams
      ensures Valid() && Model() == Open(old(Model()))
      ensures id == match OpenBidi(old(streams.Model())) { case None => None case Some((_, stream)) => Some(stream) }
    {
      id := streams.Open();
      if id.None? {
        control := control + [StreamsBlocked(streams.maxStreamsBidi, true)];
      }
    }

    method SendStreamData(id: nat, data: Bytes, fin: bool)
      requires Valid()
      modifies this, streams
      ensures Valid() && Model() == WriteData(old(Model()), id, data, fin)
    {
      if id !in streams.send {
        return;
      }
      var half := Write(streams.send[id], data, fin);
      if half.Some? {
        streams.send := streams.send[id := half.value];
        written := written[id := WrittenOf(written, id) + data];
      }
    }

    /** The frames of one acknowledged packet reach their streams. */
    method AckedFrames(frames: seq<Frame>)
      modifies streams
      ensures streams.Model() == old(streams.Model()).(send := AckFrames(old(streams.send), frames))
    {
      var i := 0;
      assert frames[0..] == frames;
      while i < |frames|
        invariant 0 <= i <= |frames|
        invariant streams.Model() == old(streams.Model()).(send := streams.send)
        invariant AckFrames(old(streams.send), frames) == AckFrames(streams.send, frames[i..])
      {
        var f := frames[i];
        if f.Stream? && f.id in streams.send {
          streams.send := streams.send[f.id := FrameAcked(streams.send[f.id], f)];
        }
        assert frames[i..][1..] == frames[i + 1..];
        i := i + 1;
      }
    }

    method OnAck(largest: int, ranges: seq<AckRange>)
      requires Valid()
      modifies this, streams
      ensures Valid() && Model() == HandleAck(old(Model()), largest, ranges)
    {
      hide AckFrames, Acknowledges;
      if largest >= |emitted| {
        failed := Some(PROTOCOL_VIOLATION);
        return;
      }
      var outstanding := held;
      var n := 0;
      while n < |emitted|
        invariant 0 <= n <= |emitted|
        invariant emitted == old(emitted) && Valid()
        invariant Model() == AckBelow(old(Model()), ranges, n)
      {
        if n in outstanding && Acknowledges(ranges, n) {
          AckedFrames(emitted[n]);
          held := held - {n};
        }
        n := n + 1;
      }
    }

    method MaybeExtendCredit(id: nat)
      requires Valid() && id in streams.recv
      modifies this, streams
      ensures Valid() && Model() == ExtendCredit(old(Model()), id)
    {
      hide Opened, ClosedCount, Total;
      var (r, limit) := CreditUpdate(streams.recv[id]);
      streams.recv := streams.recv[id := r];
      if limit.Some? {
        control := control + [MaxStreamData(id, r.maxStreamData)];
      }
      assert Model() == ExtendStreamCredit(old(Model()), id);
      ExtendDataCredit();
      ExtendStreamLimit(true);
      ExtendStreamLimit(false);
    }

    method ExtendDataCredit()
      requires Valid()
      modifies this, streams
      ensures Valid() && Model() == ExtendData(old(Model()))
    {
      hide Total;
      var limit := streams.NewDataLimit();
      if limit.Some? {
        control := control + [MaxData(streams.localMaxData)];
      }
    }

    method ExtendStreamLimit(bidi: bool)
      requires Valid()
      modifies this, streams
      ensures Valid() && Model() == ExtendStreams(old(Model()), bidi)
    {
      hide Opened, ClosedCount;
      var limit := streams.NewStreamLimit(bidi);
      if limit.Some? {
        control := control + [MaxStreams(if bidi then streams.localStreamsBidi else streams.localStreamsUni, bidi)];
      }
    }

    method OnStream(f: StreamFrame)
      requires Valid()
      modifies this, streams
      ensures Valid() && Model() == HandleStream(old(Model()), f)
    {
      hide AcceptFrame, ExtendCredit, Read;
      var error := streams.OnStreamFrame(f);
      if error.Some? {
        failed := error;
        return;
      }
      var taken := streams.recv[f.id];
      var (r, data) := Read(taken);
      streams.recv := streams.recv[f.id := r];
      var log := LogOf(events, f.id);
      if data != [] || (r.state.AllRead? && !taken.state.AllRead?) {
        log := log + [Chunk(data, r.state.AllRead?)];
      }
      events := events[f.id := log];
      MaybeExtendCredit(f.id);
    }

    method OnFrame(f: Frame)
      requires Valid()
      modifies this, streams
      ensures Valid() && Model() == HandleFrame(old(Model()), f)
    {
      hide HandleStream, HandleAck;
      if f.Ack? {
        OnAck(f.largest, f.ranges);
      } else if f.Stream? {
        ackPending := true;
        OnStream(f);
      } else {
        OnCredit(f);
      }
    }

    method OnCredit(f: Frame)
      requires Valid() && !f.Ack? && !f.Stream?
      modifies this, streams
      ensures Valid() && Model() == HandleFrame(old(Model()), f)
    {
      hide HandleStream, HandleAck, RaiseCredit, RaiseMaxStreams;
      ackPending := ackPending || IsAckEliciting(f);
      if f.MaxData? {
        streams.OnMaxData(f.maxData);
      } else if f.MaxStreams? {
        streams.OnMaxStreams(f.maxStreams, f.bidi);
      } else if f.MaxStreamData? {
        if f.creditId in streams.send {
          streams.SetSend(f.creditId, RaiseCredit(streams.send[f.creditId], f.maxStreamData));
        } else {
          failed := Some(INTERNAL_ERROR);
        }
      }
    }

    method OnPayload(frames: seq<Frame>)
      requires Valid()
      modifies this, streams
      ensures Valid() && Model() == HandleAll(old(Model()), frames)
    {
      hide HandleFrame;
      var i := 0;
      assert frames[0..] == frames;
      while i < |frames| && failed.None?
        invariant 0 <= i <= |frames| && Valid()
        invariant HandleAll(old(Model()), frames) == HandleAll(Model(), frames[i..])
      {
        OnFrame(frames[i]);
        assert frames[i..][1..] == frames[i + 1..];
        i := i + 1;
      }
    }

    /** `_process_packet`, once the packet is decrypted. */
    method OnPacket(pn: nat, frames: seq<Frame>)
      requires Valid()
      modifies this, streams, received
      ensures Valid() && Model() == Receive(old(Model()), pn, frames)
    {
      hide HandleAll;
      if Covers(received.ranges, pn, pn + 1) {
        return;
      }
      received.Add(pn, pn + 1);
      if pn > largestReceived {
        largestReceived := pn;
      }
      OnPayload(frames);
    }

    /** `_requeue_lost`. */
    method RequeueLost(frames: seq<Frame>)
      requires Valid()
      modifies this, streams
      ensures Valid() && Model() == RequeueAll(old(Model()), frames)
    {
      var i := 0;
      assert frames[0..] == frames;
      while i < |frames|
        invariant 0 <= i <= |frames| && Valid()
        invariant RequeueAll(old(Model()), frames) == RequeueAll(Model(), frames[i..])
      {
        RequeueOne(frames[i]);
        assert frames[i..][1..] == frames[i + 1..];
        i := i + 1;
      }
    }

    method RequeueOne(f: Frame)
      requires Valid()
      modifies this, streams
      ensures Valid() && Model() == RequeueFrame(old(Model()), f)
    {
      hide Requeue;
      if f.Stream? {
        if f.id in streams.send {
          streams.SetSend(f.id, Requeue(streams.send[f.id], f));
        }
        return;
      }
      var again: Option<Frame> := None;
      if f.MaxData? {
        again := Some(MaxData(streams.localMaxData));
      } else if f.MaxStreamData? && f.creditId in streams.recv {
        again := Some(MaxStreamData(f.creditId, streams.recv[f.creditId].maxStreamData));
      } else if f.MaxStreams? {
        again := Some(MaxStreams(if f.bidi then streams.localStreamsBidi else streams.localStreamsUni, f.bidi));
      }
      if again.Some? {
        control := control + [again.value];
      }
    }

    method OnLost(pn: nat)
      requires Valid()
      modifies this, streams
      ensures Valid() && Model() == Lose(old(Model()), pn)
    {
      hide RequeueAll;
      if pn in held && pn < |emitted| {
        RequeueLost(emitted[pn]);
        held := held - {pn};
      }
    }
  }
}
