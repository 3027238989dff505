/** The sending and receiving halves of a stream (src/dsquic/streams.py, classes
    SendStream and RecvStream; sections 2 to 4 of RFC 9000).

    `Sender` and `Receiver` are the halves as values, with one function per
    method; the classes are the source's mutable objects, proved against them. */
module Streams {
  import opened Options
  import opened Numbers
  import opened Buffers
  import opened RangeSets
  import opened Frames

  const FLOW_CONTROL_ERROR := 0x03
  const STREAM_LIMIT_ERROR := 0x04
  const STREAM_STATE_ERROR := 0x05
  const FINAL_SIZE_ERROR := 0x06

  type StreamFrame = f: Frame | f.Stream? witness Stream(0, 0, [], false)

  function End(f: StreamFrame): nat { f.offset + |f.data| }

  // ------------------------------------------------------------------ sending

  datatype SendState = Ready | Sending | DataSent | DataRecvd

  datatype Sender = Sender(
    id: nat,
    maxStreamData: int,            // the peer's credit for us
    state: SendState,
    pending: Bytes,
    base: nat,                     // stream offset of pending[0]
    retransmit: seq<StreamFrame>,  // lost frames, resent verbatim
    highest: nat,                  // what connection flow control counts
    finQueued: bool,
    finSent: bool,
    finalSize: Option<nat>,
    acked: seq<Range>,
    finAcked: bool)

  function NewSender(id: nat, credit: int): Sender {
    Sender(id, credit, Ready, [], 0, [], 0, false, false, None, [], false)
  }

  /** `write`: None when the stream was already finished. */
  function Write(s: Sender, data: Bytes, fin: bool): Option<Sender> {
    if s.finQueued then None
    else
      var queued := s.(pending := s.pending + data);
      Some(if fin then queued.(finQueued := true, finalSize := Some(s.base + |queued.pending|)) else queued)
  }

  /** How many new bytes fit all the budgets. */
  function Budget(s: Sender, maxBytes: int, credit: int): (r: nat)
    ensures r <= |s.pending|
  {
    Max(0, Min(Min(|s.pending|, maxBytes), Min(s.maxStreamData - s.base, credit)))
  }

  /** `next_frame`: lost frames first and verbatim, then new data and the FIN. */
  function NextFrame(s: Sender, maxBytes: int, credit: int): (Sender, Option<StreamFrame>) {
    if s.retransmit != [] && |s.retransmit[0].data| <= maxBytes then
      (s.(retransmit := s.retransmit[1..]), Some(s.retransmit[0]))
    else
      var n := Budget(s, maxBytes, credit);
      var finNow := s.finQueued && !s.finSent && n == |s.pending|;
      if n == 0 && !finNow then (s, None)
      else
        (s.(pending := s.pending[n..], base := s.base + n, finSent := s.finSent || finNow,
            highest := Max(s.highest, s.base + n),
            state := if s.finSent || finNow then DataSent else Sending),
         Some(Stream(s.id, s.base, s.pending[..n], finNow)))
  }

  function RaiseCredit(s: Sender, maximum: int): Sender {
    s.(maxStreamData := Max(s.maxStreamData, maximum))
  }

  /** `on_frame_acked`. */
  function FrameAcked(s: Sender, f: StreamFrame): Sender {
    var acked := Insert(s.acked, f.offset, End(f));
    var finAcked := s.finAcked || f.fin;
    s.(acked := acked, finAcked := finAcked,
       state := if finAcked && s.finalSize.Some? && Covers(acked, 0, s.finalSize.value) then DataRecvd else s.state)
  }

  function Requeue(s: Sender, f: StreamFrame): Sender {
    if f.data != [] || f.fin then s.(retransmit := s.retransmit + [f]) else s
  }

  predicate HasPending(s: Sender) {
    s.retransmit != [] || s.pending != [] || (s.finQueued && !s.finSent)
  }

  // ---------------------------------------------------------------- receiving

  datatype RecvState = Recv | SizeKnown | AllRecvd | AllRead

  datatype Receiver = Receiver(
    id: nat,
    maxStreamData: int,   // credit we advertised
    window: int,
    state: RecvState,
    buffer: Bytes,
    received: seq<Range>,
    readOffset: nat,
    finalSize: Option<nat>,
    highest: nat)

  function NewReceiver(id: nat, credit: int): Receiver {
    Receiver(id, credit, credit, Recv, [], [], 0, None, 0)
  }

  /** Write `data` at `offset`, extending with zeros when the buffer is short. */
  function Overlay(buffer: Bytes, offset: nat, data: Bytes): (r: Bytes)
    ensures |r| == Max(|buffer|, offset + |data|)
    ensures forall i :: 0 <= i < |r| ==>
              r[i] == if offset <= i < offset + |data| then data[i - offset]
                      else if i < |buffer| then buffer[i] else 0
  {
    var end := offset + |data|;
    var b := if |buffer| < end then buffer + seq(end - |buffer|, _ => 0) else buffer;
    b[..offset] + data + b[end..]
  }

  /** `on_stream_frame`: the new state, and the error code it raises if any.  The
      final size is recorded before the credit check, as in the source. */
  function Accept(r: Receiver, f: StreamFrame): (Receiver, Option<int>) {
    var end := End(f);
    if r.finalSize.Some? && (end > r.finalSize.value || (f.fin && end != r.finalSize.value)) then
      (r, Some(FINAL_SIZE_ERROR))
    else if f.fin && end < r.highest then (r, Some(FINAL_SIZE_ERROR))
    else
      var sized := if f.fin then r.(finalSize := Some(end)) else r;
      if end > r.maxStreamData then (sized, Some(FLOW_CONTROL_ERROR))
      else
        var received := Insert(r.received, f.offset, end);
        (sized.(buffer := Overlay(r.buffer, f.offset, f.data),
                received := received,
                highest := Max(r.highest, end),
                state := if sized.finalSize.None? || r.state.AllRead? then r.state
                         else if Covers(received, 0, sized.finalSize.value) then AllRecvd else SizeKnown),
         None)
  }

  /** Python's `b[lo:hi]`. */
  function Slice(b: Bytes, lo: nat, hi: nat): Bytes
    requires lo <= hi
  {
    b[Min(lo, |b|)..Min(hi, |b|)]
  }

  /** `read`: the contiguous data not yet delivered. */
  function Read(r: Receiver): (Receiver, Bytes) {
    var end := ContiguousFrom(r.received, r.readOffset);
    (r.(readOffset := end, state := if r.finalSize == Some(end) then AllRead else r.state),
     Slice(r.buffer, r.readOffset, end))
  }

  /** `credit_update`: a new limit once half the window is consumed. */
  function CreditUpdate(r: Receiver): (Receiver, Option<int>) {
    if r.finalSize.Some? || 2 * (r.maxStreamData - r.readOffset) >= r.window then (r, None)
    else (r.(maxStreamData := r.readOffset + r.window), Some(r.readOffset + r.window))
  }

  // ------------------------------------------------------- the source's objects

  class SendStream {
    const id: nat
    var maxStreamData: int
    var state: SendState
    var pending: Bytes
    var base: nat
    var retransmit: seq<StreamFrame>
    var highest: nat
    var finQueued: bool
    var finSent: bool
    var finalSize: Option<nat>
    const acked: RangeSet
    var finAcked: bool

    ghost predicate Valid()
      reads this, acked
    {
      acked.Valid()
    }

    ghost function Model(): Sender
      reads this, acked
    {
      Sender(id, maxStreamData, state, pending, base, retransmit, highest,
             finQueued, finSent, finalSize, acked.ranges, finAcked)
    }

    constructor (id: nat, credit: int)
      ensures Valid() && Model() == NewSender(id, credit) && fresh(acked)
    {
      this.id, maxStreamData, state, pending, base := id, credit, Ready, [], 0;
      retransmit, highest, finQueued, finSent, finalSize, finAcked := [], 0, false, false, None, false;
      acked := new RangeSet();
    }

    /** Returns false where the source raises ValueError. */
    method Put(data: Bytes, fin: bool) returns (ok: bool)
      requires Valid()
      modifies this
      ensures Valid()
      ensures ok == Write(old(Model()), data, fin).Some?
      ensures Model() == if ok then Write(old(Model()), data, fin).value else old(Model())
    {
      if finQueued {
        return false;
      }
      pending := pending + data;
      if fin {
        finQueued := true;
        finalSize := Some(base + |pending|);
      }
      return true;
    }

    method Take(maxBytes: int, credit: int) returns (frame: Option<StreamFrame>)
      requires Valid()
      modifies this
      ensures Valid()
      ensures (Model(), frame) == NextFrame(old(Model()), maxBytes, credit)
    {
      if retransmit != [] && |retransmit[0].data| <= maxBytes {
        frame := Some(retransmit[0]);
        retransmit := retransmit[1..];
        return;
      }
      var offset := base;
      var budget := Min(Min(|pending|, maxBytes), Min(maxStreamData - offset, credit));
      budget := Max(0, budget);
      var chunk := pending[..budget];
      var finNow := finQueued && !finSent && budget == |pending|;
      if chunk == [] && !finNow {
        return None;
      }
      pending := pending[budget..];
      base := base + budget;
      if finNow {
        finSent := true;
      }
      highest := Max(highest, offset + |chunk|);
      state := if finSent then DataSent else Sending;
      return Some(Stream(id, offset, chunk, finNow));
    }

    method OnMaxStreamData(maximum: int)
      requires Valid()
      modifies this
      ensures Valid() && Model() == RaiseCredit(old(Model()), maximum)
    {
      maxStreamData := Max(maxStreamData, maximum);
    }

    method OnFrameAcked(frame: StreamFrame)
      requires Valid()
      modifies this, acked
      ensures Valid() && Model() == FrameAcked(old(Model()), frame)
    {
      acked.Add(frame.offset, frame.offset + |frame.data|);
      if frame.fin {
        finAcked := true;
      }
      if finAcked && finalSize.Some? {
        var end := acked.ContiguousEnd(0);
        if end >= finalSize.value {
          state := DataRecvd;
        }
      }
    }

    method Lost(frame: StreamFrame)
      requires Valid()
      modifies this
      ensures Valid() && Model() == Requeue(old(Model()), frame)
    {
      if frame.data != [] || frame.fin {
        retransmit := retransmit + [frame];
      }
    }
  }

  class RecvStream {
    const id: nat
    var maxStreamData: int
    const window: int
    var state: RecvState
    var buffer: Bytes
    const received: RangeSet
    var readOffset: nat
    var finalSize: Option<nat>
    var highest: nat

    ghost function Model(): Receiver
      reads this, received
    {
      Receiver(id, maxStreamData, window, state, buffer, received.ranges, readOffset, finalSize, highest)
    }

    ghost predicate Valid()
      reads this, received
    {
      received.Valid()
    }

    constructor (id: nat, credit: int)
      ensures Valid() && Model() == NewReceiver(id, credit) && fresh(received)
    {
      this.id, maxStreamData, window, state, buffer := id, credit, credit, Recv, [];
      readOffset, finalSize, highest := 0, None, 0;
      received := new RangeSet();
    }

    method OnStreamFrame(frame: StreamFrame) returns (error: Option<int>)
      requires Valid()
      modifies this, received
      ensures Valid()
      ensures (Model(), error) == Accept(old(Model()), frame)
    {
      var end := frame.offset + |frame.data|;
      if finalSize.Some? && (end > finalSize.value || (frame.fin && end != finalSize.value)) {
        return Some(FINAL_SIZE_ERROR);
      }
      if frame.fin {
        if end < highest {
          return Some(FINAL_SIZE_ERROR);
        }
        finalSize := Some(end);
      }
      if end > maxStreamData {
        return Some(FLOW_CONTROL_ERROR);
      }
      buffer := Overlay(buffer, frame.offset, frame.data);
      received.Add(frame.offset, end);
      highest := Max(highest, end);
      if finalSize.Some? && state != AllRead {
        state := SizeKnown;
        var covered := received.ContiguousEnd(0);
        if covered >= finalSize.value {
          state := AllRecvd;
        }
      }
      return None;
    }

    method ReadData() returns (data: Bytes)
      requires Valid()
      modifies this
      ensures Valid()
      ensures (Model(), data) == Read(old(Model()))
    {
      var end := received.ContiguousEnd(readOffset);
      data := Slice(buffer, readOffset, end);
      readOffset := end;
      if finalSize.Some? && readOffset == finalSize.value {
        state := AllRead;
      }
    }

    method NewCredit() returns (limit: Option<int>)
      requires Valid()
      modifies this
      ensures Valid()
      ensures (Model(), limit) == CreditUpdate(old(Model()))
    {
      if finalSize.Some? || 2 * (maxStreamData - readOffset) >= window {
        return None;
      }
      maxStreamData := readOffset + window;
      return Some(maxStreamData);
    }
  }
}
