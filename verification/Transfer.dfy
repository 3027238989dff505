/** Two connected endpoints exchanging stream data over a network that loses,
    repeats and reorders packets (src/dsquic/connection.py: the frame handlers,
    `_requeue_lost`, `_prepare_probe` and `_application_frames`; sections 4 and
    13.3 of RFC 9000).

    An endpoint keeps every packet it ever emitted, by packet number; the network
    may deliver any of them to the peer, any number of times, in any order.  When
    a packet is declared lost, probed for or put together, and out of what, is
    left to the run. */
module Transfer {
  import opened Options
  import opened Buffers
  import opened RangeSets
  import opened Frames
  import opened Acks
  import opened Streams
  import opened Managers
  import opened Delivery

  const PROTOCOL_VIOLATION := 0x0A
  const INTERNAL_ERROR := 0x01

  datatype Endpoint = Endpoint(
    mgr: Manager,
    emitted: seq<seq<Frame>>,        // every packet sent, by packet number
    held: set<nat>,                  // packet numbers loss recovery still holds
    received: seq<Range>,            // packet numbers received
    largestReceived: int,
    ackPending: bool,
    control: seq<Frame>,             // queued control frames
    written: map<nat, Bytes>,        // history: what the application wrote
    log: map<nat, seq<Chunk>>,       // history: events delivered, by stream
    failed: Option<int>)             // the error that closed the connection

  function NewEndpoint(isClient: bool, local: Limits, peer: Limits): Endpoint {
    Endpoint(NewManager(isClient, local, peer), [], {}, [], -1, false, [], map[], map[], None)
  }

  function WrittenOf(written: map<nat, Bytes>, id: nat): Bytes { if id in written then written[id] else [] }

  function LogOf(log: map<nat, seq<Chunk>>, id: nat): seq<Chunk> { if id in log then log[id] else [] }

  // ------------------------------------------------------------- application

  /** `open_stream`: at the peer's limit it queues STREAMS_BLOCKED and raises. */
  function Open(e: Endpoint): Endpoint {
    match OpenBidi(e.mgr)
    case None => e.(control := e.control + [StreamsBlocked(e.mgr.maxStreamsBidi, true)])
    case Some((mgr, _)) => e.(mgr := mgr)
  }

  /** `send_stream_data`: writing after the FIN, or to an unknown stream, raises. */
  function WriteData(e: Endpoint, id: nat, data: Bytes, fin: bool): Endpoint {
    if id !in e.mgr.send then e
    else
      match Write(e.mgr.send[id], data, fin)
      case None => e
      case Some(s) => e.(mgr := e.mgr.(send := e.mgr.send[id := s]),
                         written := e.written[id := WrittenOf(e.written, id) + data])
  }

  // ----------------------------------------------------------------- sending

  /** What goes into a packet, one frame at a time.  `ItemOther` stands for the
      frames that carry neither stream data, nor credit, nor acknowledgements. */
  datatype Item =
    | ItemAck
    | ItemControl
    | ItemStream(id: nat, maxBytes: int)
    | ItemOther(frame: Frame)

  predicate Inert(f: Frame) {
    !(f.Ack? || f.Stream? || f.MaxData? || f.MaxStreamData? || f.MaxStreams?)
  }

  /** Append a frame to the packet being built, the last one. */
  function Put(emitted: seq<seq<Frame>>, f: Frame): seq<seq<Frame>>
    requires emitted != []
  {
    emitted[..|emitted| - 1] + [emitted[|emitted| - 1] + [f]]
  }

  function Append(e: Endpoint, item: Item): (r: Endpoint)
    requires e.emitted != []
    ensures |r.emitted| == |e.emitted|
  {
    match item
    case ItemAck =>
      (match BuildAck(e.received, e.largestReceived, e.ackPending, None)
       case None => e
       case Some(ack) => e.(emitted := Put(e.emitted, ack), ackPending := false))
    case ItemControl =>
      if e.control == [] then e
      else e.(emitted := Put(e.emitted, e.control[0]), control := e.control[1..])
    case ItemStream(id, maxBytes) =>
      if id !in e.mgr.send then e
      else
        (match TakeFrame(e.mgr, id, maxBytes)
         case (_, None) => e
         case (mgr, Some(f)) => e.(mgr := mgr, emitted := Put(e.emitted, f)))
    case ItemOther(f) => if Inert(f) then e.(emitted := Put(e.emitted, f)) else e
  }

  function AppendAll(e: Endpoint, items: seq<Item>): (r: Endpoint)
    requires e.emitted != []
    ensures |r.emitted| == |e.emitted|
    decreases |items|
  {
    if items == [] then e else AppendAll(Append(e, items[0]), items[1..])
  }

  /** The next packet number is taken and recovery holds the packet. */
  function NewPacket(e: Endpoint): Endpoint {
    e.(emitted := e.emitted + [[]], held := e.held + {|e.emitted|})
  }

  /** `_build_packet`: nothing to send, no packet. */
  function Send(e: Endpoint, items: seq<Item>): Endpoint {
    var built := AppendAll(NewPacket(e), items);
    if built.emitted[|built.emitted| - 1] == [] then e else built
  }

  // --------------------------------------------------------------- receiving

  function AckFrames(send: map<nat, Sender>, frames: seq<Frame>): map<nat, Sender> {
    if frames == [] then send
    else
      var f := frames[0];
      AckFrames(if f.Stream? && f.id in send then send[f.id := FrameAcked(send[f.id], f)] else send, frames[1..])
  }

  function AckPacket(e: Endpoint, pn: nat): Endpoint
    requires pn < |e.emitted|
  {
    e.(mgr := e.mgr.(send := AckFrames(e.mgr.send, e.emitted[pn])), held := e.held - {pn})
  }

  /** The held packets below `n` that an ACK reports, lowest first. */
  function AckBelow(e: Endpoint, ranges: seq<AckRange>, n: nat): (r: Endpoint)
    requires n <= |e.emitted|
    ensures r.emitted == e.emitted
  {
    if n == 0 then e
    else
      var done := AckBelow(e, ranges, n - 1);
      if n - 1 in e.held && Acknowledges(ranges, n - 1) then AckPacket(done, n - 1) else done
  }

  /** `_handle_ack`: an ACK of a packet never sent closes the connection. */
  function HandleAck(e: Endpoint, largest: int, ranges: seq<AckRange>): Endpoint {
    if largest >= |e.emitted| then e.(failed := Some(PROTOCOL_VIOLATION))
    else AckBelow(e, ranges, |e.emitted|)
  }

  function Queue(e: Endpoint, limit: Option<int>, frame: Frame): Endpoint {
    if limit.Some? then e.(control := e.control + [frame]) else e
  }

  function ExtendStreamCredit(e: Endpoint, id: nat): Endpoint
    requires id in e.mgr.recv
  {
    var (r, limit) := CreditUpdate(e.mgr.recv[id]);
    Queue(e.(mgr := e.mgr.(recv := e.mgr.recv[id := r])), limit, MaxStreamData(id, r.maxStreamData))
  }

  function ExtendData(e: Endpoint): Endpoint {
    var (m, limit) := MaxDataUpdate(e.mgr);
    Queue(e.(mgr := m), limit, MaxData(m.localMaxData))
  }

  function ExtendStreams(e: Endpoint, bidi: bool): Endpoint {
    var (m, limit) := MaxStreamsUpdate(e.mgr, bidi);
    Queue(e.(mgr := m), limit, MaxStreams(LocalStreams(m, bidi), bidi))
  }

  /** `_maybe_extend_credit`. */
  function ExtendCredit(e: Endpoint, id: nat): Endpoint
    requires id in e.mgr.recv
  {
    ExtendStreams(ExtendStreams(ExtendData(ExtendStreamCredit(e, id)), true), false)
  }

  /** The stream is read and what was read reported, before credit is extended. */
  function Reported(e: Endpoint, m: Manager, f: StreamFrame): Endpoint
    requires f.id in m.recv
  {
    var taken := m.recv[f.id];
    var (r, data) := Read(taken);
    var log := LogOf(e.log, f.id);
    var more := if data != [] || (r.state.AllRead? && !taken.state.AllRead?)
                then log + [Chunk(data, r.state.AllRead?)] else log;
    e.(mgr := m.(recv := m.recv[f.id := r]), log := e.log[f.id := more])
  }

  /** `_handle_stream`: take the frame, read, report, extend credit. */
  function HandleStream(e: Endpoint, f: StreamFrame): Endpoint {
    var (m, error) := AcceptFrame(e.mgr, f);
    if error.Some? then e.(mgr := m, failed := error) else ExtendCredit(Reported(e, m, f), f.id)
  }

  function HandleFrame(e: Endpoint, f: Frame): Endpoint {
    var d := e.(ackPending := e.ackPending || IsAckEliciting(f));
    match f
    case Ack(largest, _, ranges, _) => HandleAck(d, largest, ranges)
    case Stream(_, _, _, _) => HandleStream(d, f)
    case MaxData(maximum) => d.(mgr := RaiseMaxData(d.mgr, maximum))
    case MaxStreamData(id, maximum) =>
      if id !in d.mgr.send then d.(failed := Some(INTERNAL_ERROR))
      else d.(mgr := d.mgr.(send := d.mgr.send[id := RaiseCredit(d.mgr.send[id], maximum)]))
    case MaxStreams(maximum, bidi) => d.(mgr := RaiseMaxStreams(d.mgr, maximum, bidi))
    case _ => d
  }

  /** `_handle_payload`: in order, until an error closes the connection. */
  function HandleAll(e: Endpoint, frames: seq<Frame>): Endpoint
    decreases |frames|
  {
    if frames == [] || e.failed.Some? then e else HandleAll(HandleFrame(e, frames[0]), frames[1..])
  }

  function Record(e: Endpoint, pn: nat): Endpoint {
    e.(received := Insert(e.received, pn, pn + 1),
       largestReceived := if pn > e.largestReceived then pn else e.largestReceived)
  }

  /** `_process_packet`: a duplicate is dropped. */
  function Receive(e: Endpoint, pn: nat, frames: seq<Frame>): Endpoint {
    if Covers(e.received, pn, pn + 1) then e else HandleAll(Record(e, pn), frames)
  }

  // ------------------------------------------------------------ loss and probes

  /** `_requeue_lost`, per frame: stream data verbatim, credit at its current value. */
  function RequeueFrame(e: Endpoint, f: Frame): (r: Endpoint)
    ensures r.emitted == e.emitted && r.held == e.held
  {
    match f
    case Stream(id, _, _, _) =>
      if id in e.mgr.send then e.(mgr := e.mgr.(send := e.mgr.send[id := Requeue(e.mgr.send[id], f)])) else e
    case MaxData(_) => e.(control := e.control + [MaxData(e.mgr.localMaxData)])
    case MaxStreamData(id, _) =>
      if id in e.mgr.recv then e.(control := e.control + [MaxStreamData(id, e.mgr.recv[id].maxStreamData)]) else e
    case MaxStreams(_, bidi) => e.(control := e.control + [MaxStreams(LocalStreams(e.mgr, bidi), bidi)])
    case _ => e
  }

  function RequeueAll(e: Endpoint, frames: seq<Frame>): (r: Endpoint)
    ensures r.emitted == e.emitted && r.held == e.held
    decreases |frames|
  {
    if frames == [] then e else RequeueAll(RequeueFrame(e, frames[0]), frames[1..])
  }

  /** Recovery gives a packet up: its frames are queued again. */
  function Lose(e: Endpoint, pn: nat): Endpoint {
    if pn in e.held && pn < |e.emitted| then
      var queued := RequeueAll(e, e.emitted[pn]);
      queued.(held := queued.held - {pn})
    else e
  }

  /** A probe copies a packet's frames while recovery goes on holding it. */
  function Probe(e: Endpoint, pn: nat): Endpoint {
    if pn in e.held && pn < |e.emitted| then RequeueAll(e, e.emitted[pn]) else e
  }

  // ---------------------------------------------------------------- the system

  datatype Action =
    | ActOpen
    | ActWrite(id: nat, data: Bytes, fin: bool)
    | ActSend(items: seq<Item>)
    | ActReceive(pn: nat)
    | ActLose(pn: nat)
    | ActProbe(pn: nat)

  /** A move of `x`; a connection that failed makes no more. */
  function Act(x: Endpoint, y: Endpoint, a: Action): Endpoint {
    if x.failed.Some? then x
    else
      match a
      case ActOpen => Open(x)
      case ActWrite(id, data, fin) => WriteData(x, id, data, fin)
      case ActSend(items) => Send(x, items)
      case ActReceive(pn) => if pn < |y.emitted| then Receive(x, pn, y.emitted[pn]) else x
      case ActLose(pn) => Lose(x, pn)
      case ActProbe(pn) => Probe(x, pn)
  }

  datatype System = System(left: Endpoint, right: Endpoint)

  datatype Step = Step(onLeft: bool, action: Action)

  function Next(s: System, t: Step): System {
    if t.onLeft then s.(left := Act(s.left, s.right, t.action))
    else s.(right := Act(s.right, s.left, t.action))
  }

  function Run(s: System, steps: seq<Step>): System
    decreases |steps|
  {
    if steps == [] then s else Next(Run(s, steps[..|steps| - 1]), steps[|steps| - 1])
  }

  /** A client and a server, each holding the other's advertised limits. */
  function Start(client: Limits, server: Limits): System {
    System(NewEndpoint(true, client, server), NewEndpoint(false, server, client))
  }
}
