/** One stream, one sending half and the peer's receiving half: what every
    operation on either of them keeps (src/dsquic/streams.py). */
module Delivery {
  import opened Options
  import opened Numbers
  import opened Buffers
  import opened RangeSets
  import opened Frames
  import opened Streams

  /** One StreamDataReceived event. */
  datatype Chunk = Chunk(data: Bytes, end: bool)

  /** The concatenated data of the events of a stream. */
  function Joined(log: seq<Chunk>): Bytes {
    if log == [] then [] else Joined(log[..|log| - 1]) + log[|log| - 1].data
  }

  /** A frame the sender has produced: its bytes are the written bytes at its
      offset, and a FIN sits at the end of what was written. */
  ghost predicate FrameOk(s: Sender, w: Bytes, f: StreamFrame) {
    && f.id == s.id
    && End(f) <= s.base <= |w|
    && f.data == w[f.offset..End(f)]
    && (f.fin ==> s.finSent && End(f) == |w|)
    && (f.data != [] || f.fin)
  }

  /** A sender after writing `w` in all. */
  ghost predicate SendOk(s: Sender, w: Bytes) {
    && s.base <= |w| && s.pending == w[s.base..]
    && s.highest == s.base <= s.maxStreamData
    && s.finalSize == (if s.finQueued then Some(|w|) else None)
    && (s.finSent ==> s.finQueued && s.base == |w|)
    && (forall k :: 0 <= k < |s.retransmit| ==> FrameOk(s, w, s.retransmit[k]))
    && Normal(s.acked)
    && (s.finAcked ==> s.finSent)
    && (s.state.DataRecvd? <==> s.finAcked && Covers(s.acked, 0, |w|))
  }

  /** A receiver holds bytes of `w` only, and its final size is that of `w`. */
  ghost predicate RecvOk(s: Sender, w: Bytes, r: Receiver) {
    && r.id == s.id
    && Normal(r.received)
    && r.highest <= s.base <= |w|
    && |r.buffer| <= r.highest
    && (forall x :: Has(r.received, x) ==> 0 <= x < |r.buffer| && r.buffer[x] == w[x])
    && r.readOffset == ContiguousFrom(r.received, 0)
    && (r.finalSize.Some? ==> s.finSent && r.finalSize.value == |w|)
    && (r.state.AllRead? <==> r.finalSize == Some(r.readOffset))
    && 0 <= r.window
  }

  /** The events delivered the bytes read, and the end only with the last of them. */
  ghost predicate LogOk(w: Bytes, r: Receiver, log: seq<Chunk>) {
    && r.readOffset <= |w|
    && Joined(log) == w[..r.readOffset]
    && (forall k :: 0 <= k < |log| - 1 ==> !log[k].end)
    && (r.state.AllRead? <==> log != [] && log[|log| - 1].end)
  }

  /** What the sender takes as acknowledged, and its credit, are the receiver's. */
  ghost predicate Agreed(s: Sender, r: Receiver) {
    && (forall x :: Has(s.acked, x) ==> Has(r.received, x))
    && (s.finAcked ==> r.finalSize.Some?)
    && s.maxStreamData <= r.maxStreamData
  }

  ghost predicate Pair(s: Sender, w: Bytes, r: Receiver, log: seq<Chunk>) {
    SendOk(s, w) && RecvOk(s, w, r) && LogOk(w, r, log) && Agreed(s, r)
  }

  /** The receiver has taken in a frame. */
  ghost predicate Holds(r: Receiver, f: StreamFrame) {
    && (forall x :: f.offset <= x < End(f) ==> Has(r.received, x))
    && (f.fin ==> r.finalSize.Some?)
  }

  lemma FreshPair(id: nat, credit: nat, granted: nat)
    requires credit <= granted
    ensures Pair(NewSender(id, credit), [], NewReceiver(id, granted), [])
  {
  }

  // ------------------------------------------------------------ sender's moves

  lemma WriteKeeps(s: Sender, w: Bytes, r: Receiver, log: seq<Chunk>, data: Bytes, fin: bool)
    requires Pair(s, w, r, log) && Write(s, data, fin).Some?
    ensures Pair(Write(s, data, fin).value, w + data, r, log)
    ensures forall f: StreamFrame :: FrameOk(s, w, f) ==> FrameOk(Write(s, data, fin).value, w + data, f)
  {
    var t := Write(s, data, fin).value;
    var v := w + data;
    assert v[s.base..] == w[s.base..] + data;
    forall f: StreamFrame | FrameOk(s, w, f) ensures FrameOk(t, v, f) {
      assert v[f.offset..End(f)] == w[f.offset..End(f)];
    }
    assert v[..r.readOffset] == w[..r.readOffset];
  }

  lemma ResendKeeps(s: Sender, w: Bytes)
    requires SendOk(s, w) && s.retransmit != []
    ensures var t := s.(retransmit := s.retransmit[1..]);
            && SendOk(t, w) && FrameOk(t, w, s.retransmit[0])
            && (forall g: StreamFrame :: FrameOk(s, w, g) ==> FrameOk(t, w, g))
  {
    var t := s.(retransmit := s.retransmit[1..]);
    forall g: StreamFrame | FrameOk(s, w, g) ensures FrameOk(t, w, g) {}
    assert FrameOk(s, w, s.retransmit[0]);
    forall k | 0 <= k < |t.retransmit| ensures FrameOk(t, w, t.retransmit[k]) {
      assert FrameOk(s, w, s.retransmit[k + 1]);
    }
  }

  lemma CutKeeps(s: Sender, w: Bytes, n: nat, finNow: bool, state: SendState)
    requires SendOk(s, w) && !s.finSent && !state.DataRecvd?
    requires n <= |s.pending| && s.base + n <= s.maxStreamData && (n > 0 || finNow)
    requires finNow ==> s.finQueued && n == |s.pending|
    ensures var t := s.(pending := s.pending[n..], base := s.base + n, finSent := s.finSent || finNow,
                        highest := s.base + n, state := state);
            && SendOk(t, w) && FrameOk(t, w, Stream(s.id, s.base, s.pending[..n], finNow))
            && (forall g: StreamFrame :: FrameOk(s, w, g) ==> FrameOk(t, w, g))
  {
    var t := s.(pending := s.pending[n..], base := s.base + n, finSent := s.finSent || finNow,
                highest := s.base + n, state := state);
    forall g: StreamFrame | FrameOk(s, w, g) ensures FrameOk(t, w, g) {}
    assert w[s.base..][n..] == w[s.base + n..];
    assert w[s.base..][..n] == w[s.base..s.base + n];
  }

  /** A frame the sender has just cut is a frame of the written bytes, and all
      the earlier ones still are.  New bytes stay within both credits. */
  lemma NextKeeps(s: Sender, w: Bytes, r: Receiver, log: seq<Chunk>, maxBytes: int, credit: int)
    requires Pair(s, w, r, log)
    ensures var (t, f) := NextFrame(s, maxBytes, credit);
            && Pair(t, w, r, log)
            && (f.Some? ==> FrameOk(t, w, f.value))
            && (forall g: StreamFrame :: FrameOk(s, w, g) ==> FrameOk(t, w, g))
            && t.highest - s.highest <= Max(0, credit)
  {
    hide FrameOk, LogOk, Covers;
    var n := Budget(s, maxBytes, credit);
    var finNow := s.finQueued && !s.finSent && n == |s.pending|;
    if s.retransmit != [] && |s.retransmit[0].data| <= maxBytes {
      ResendKeeps(s, w);
    } else if n != 0 || finNow {
      CutKeeps(s, w, n, finNow, if s.finSent || finNow then DataSent else Sending);
    }
  }

  lemma RaiseKeeps(s: Sender, w: Bytes, r: Receiver, log: seq<Chunk>, maximum: int)
    requires Pair(s, w, r, log) && maximum <= r.maxStreamData
    ensures Pair(RaiseCredit(s, maximum), w, r, log)
    ensures forall g: StreamFrame :: FrameOk(s, w, g) ==> FrameOk(RaiseCredit(s, maximum), w, g)
  {
    var t := RaiseCredit(s, maximum);
    forall g: StreamFrame | FrameOk(s, w, g) ensures FrameOk(t, w, g) {}
  }

  lemma AckedKeeps(s: Sender, w: Bytes, r: Receiver, log: seq<Chunk>, f: StreamFrame)
    requires Pair(s, w, r, log) && FrameOk(s, w, f) && Holds(r, f)
    ensures Pair(FrameAcked(s, f), w, r, log)
    ensures forall g: StreamFrame :: FrameOk(s, w, g) ==> FrameOk(FrameAcked(s, f), w, g)
  {
    var t := FrameAcked(s, f);
    InsertIsUnion(s.acked, f.offset, End(f));
    forall g: StreamFrame | FrameOk(s, w, g) ensures FrameOk(t, w, g) {}
    forall x | 0 <= x < |w| && s.state.DataRecvd? ensures Has(t.acked, x) {
      CoversIsInclusion(s.acked, 0, |w|);
    }
    CoversIsInclusion(t.acked, 0, |w|);
  }

  lemma RequeueKeeps(s: Sender, w: Bytes, r: Receiver, log: seq<Chunk>, f: StreamFrame)
    requires Pair(s, w, r, log) && FrameOk(s, w, f)
    ensures Pair(Requeue(s, f), w, r, log)
    ensures forall g: StreamFrame :: FrameOk(s, w, g) ==> FrameOk(Requeue(s, f), w, g)
  {
    var t := Requeue(s, f);
    forall g: StreamFrame | FrameOk(s, w, g) ensures FrameOk(t, w, g) {}
    forall k | 0 <= k < |t.retransmit| ensures FrameOk(t, w, t.retransmit[k]) {
      if k < |s.retransmit| { assert FrameOk(s, w, s.retransmit[k]); }
    }
  }

  // ---------------------------------------------------------- receiver's moves

  /** What `_handle_stream` does to a receiving half and its events. */
  function Deliver(r: Receiver, log: seq<Chunk>, f: StreamFrame): (Receiver, seq<Chunk>) {
    var taken := Accept(r, f).0;
    var (after, data) := Read(taken);
    (after,
     if data != [] || (after.state.AllRead? && !taken.state.AllRead?) then log + [Chunk(data, after.state.AllRead?)]
     else log)
  }

  /** A frame of the sender is never refused. */
  lemma NeverRefused(s: Sender, w: Bytes, r: Receiver, log: seq<Chunk>, f: StreamFrame)
    requires Pair(s, w, r, log) && FrameOk(s, w, f)
    ensures Accept(r, f).1 == None
  {
  }

  /** The receiver after `Accept`, before it is read. */
  ghost predicate Taken(s: Sender, w: Bytes, r: Receiver, t: Receiver) {
    && t.id == s.id
    && Normal(t.received)
    && t.highest <= s.base <= |w|
    && |t.buffer| <= t.highest
    && (forall x :: Has(t.received, x) ==> 0 <= x < |t.buffer| && t.buffer[x] == w[x])
    && (forall x :: Has(r.received, x) ==> Has(t.received, x))
    && t.readOffset == r.readOffset && t.window == r.window && t.maxStreamData == r.maxStreamData
    && (t.finalSize.Some? ==> s.finSent && t.finalSize.value == |w|)
    && (r.finalSize.Some? ==> t.finalSize == r.finalSize)
    && (t.state.AllRead? <==> r.state.AllRead?)
  }

  lemma AcceptTakes(s: Sender, w: Bytes, r: Receiver, log: seq<Chunk>, f: StreamFrame)
    requires Pair(s, w, r, log) && FrameOk(s, w, f)
    ensures Taken(s, w, r, Accept(r, f).0) && Holds(Accept(r, f).0, f)
  {
    NeverRefused(s, w, r, log, f);
    InsertIsUnion(r.received, f.offset, End(f));
    var t := Accept(r, f).0;
    forall x | Has(t.received, x) ensures 0 <= x < |t.buffer| && t.buffer[x] == w[x] {
      if f.offset <= x < End(f) {
        assert w[f.offset..End(f)][x - f.offset] == w[x];
      } else {
        assert Has(r.received, x);
      }
    }
  }

  /** Reading from the last read offset is reading from the start. */
  lemma ResumeRun(before: seq<Range>, after: seq<Range>)
    requires Normal(before) && Normal(after) && (forall x :: Has(before, x) ==> Has(after, x))
    ensures ContiguousFrom(after, ContiguousFrom(before, 0)) == ContiguousFrom(after, 0)
    ensures ContiguousFrom(before, 0) <= ContiguousFrom(after, 0)
  {
    ContiguousIsMaximalRun(before, 0);
    ContiguousIsMaximalRun(after, 0);
    ContiguousIsMaximalRun(after, ContiguousFrom(before, 0));
    var a := ContiguousFrom(after, ContiguousFrom(before, 0));
    var b := ContiguousFrom(after, 0);
    assert !Has(after, a) && !Has(after, b);
    assert a < b ==> Has(after, a);
    assert b < a && b >= ContiguousFrom(before, 0) ==> Has(after, b);
    assert b < ContiguousFrom(before, 0) ==> Has(before, b);
  }

  lemma JoinedSnoc(log: seq<Chunk>, c: Chunk)
    ensures Joined(log + [c]) == Joined(log) + c.data
  {
    assert (log + [c])[..|log|] == log;
  }

  /** What is read is exactly the next bytes of the written data. */
  lemma ReadsWritten(s: Sender, w: Bytes, r: Receiver, log: seq<Chunk>, t: Receiver)
    requires Pair(s, w, r, log) && Taken(s, w, r, t)
    ensures var (u, data) := Read(t);
            && r.readOffset <= u.readOffset <= |w|
            && data == w[r.readOffset..u.readOffset]
            && u.readOffset == ContiguousFrom(u.received, 0)
  {
    ResumeRun(r.received, t.received);
    ContiguousIsMaximalRun(t.received, 0);
    var (u, data) := Read(t);
    assert u.readOffset <= |t.buffer| by {
      if u.readOffset > 0 { assert Has(t.received, u.readOffset - 1); }
    }
    assert data == t.buffer[r.readOffset..u.readOffset];
    forall i | 0 <= i < |data| ensures data[i] == w[r.readOffset..u.readOffset][i] {
      assert Has(t.received, r.readOffset + i);
    }
  }

  lemma LogKeeps(s: Sender, w: Bytes, r: Receiver, log: seq<Chunk>, t: Receiver)
    requires Pair(s, w, r, log) && Taken(s, w, r, t)
    ensures var (u, data) := Read(t);
            LogOk(w, u, if data != [] || (u.state.AllRead? && !t.state.AllRead?)
                        then log + [Chunk(data, u.state.AllRead?)] else log)
  {
    ReadsWritten(s, w, r, log, t);
    var (u, data) := Read(t);
    assert t.state.AllRead? ==> r.finalSize == Some(r.readOffset) && r.readOffset == |w|;
    LogGrows(w, r, log, u, data, t.state.AllRead?);
  }

  lemma LogGrows(w: Bytes, r: Receiver, log: seq<Chunk>, u: Receiver, data: Bytes, done: bool)
    requires LogOk(w, r, log) && r.readOffset <= u.readOffset <= |w| && data == w[r.readOffset..u.readOffset]
    requires done == r.state.AllRead?
    requires done ==> r.readOffset == |w| && u.state.AllRead?
    ensures LogOk(w, u, if data != [] || (u.state.AllRead? && !done) then log + [Chunk(data, u.state.AllRead?)]
                        else log)
  {
    assert w[..u.readOffset] == w[..r.readOffset] + w[r.readOffset..u.readOffset];
    if data != [] || (u.state.AllRead? && !done) {
      JoinedSnoc(log, Chunk(data, u.state.AllRead?));
    }
  }

  /** Delivering a frame of the sender never fails, keeps everything, and leaves
      the receiver holding the frame and all it held before. */
  lemma DeliverKeeps(s: Sender, w: Bytes, r: Receiver, log: seq<Chunk>, f: StreamFrame)
    requires Pair(s, w, r, log) && FrameOk(s, w, f)
    ensures var (u, more) := Deliver(r, log, f);
            && Accept(r, f).1 == None
            && Pair(s, w, u, more)
            && Holds(u, f)
            && (forall g: StreamFrame :: Holds(r, g) ==> Holds(u, g))
            && u.maxStreamData == r.maxStreamData && u.window == r.window
            && r.readOffset <= u.readOffset
            && (r.state.AllRead? ==> u.state.AllRead?)
  {
    NeverRefused(s, w, r, log, f);
    AcceptTakes(s, w, r, log, f);
    var t := Accept(r, f).0;
    ReadsWritten(s, w, r, log, t);
    LogKeeps(s, w, r, log, t);
    var (u, more) := Deliver(r, log, f);
    forall g: StreamFrame | Holds(r, g) ensures Holds(u, g) {}
    assert u.received == t.received && u.finalSize == t.finalSize;
    assert RecvOk(s, w, u);
    assert Agreed(s, u);
  }

  lemma CreditKeeps(s: Sender, w: Bytes, r: Receiver, log: seq<Chunk>)
    requires Pair(s, w, r, log)
    ensures Pair(s, w, CreditUpdate(r).0, log)
    ensures r.maxStreamData <= CreditUpdate(r).0.maxStreamData
    ensures CreditUpdate(r).1.Some? ==> r.maxStreamData < CreditUpdate(r).1.value == CreditUpdate(r).0.maxStreamData
    ensures forall g: StreamFrame :: Holds(r, g) ==> Holds(CreditUpdate(r).0, g)
  {
    forall g: StreamFrame | Holds(r, g) ensures Holds(CreditUpdate(r).0, g) {}
  }

  // -------------------------------------------------------------- consequences

  /** What was delivered is a prefix of what was written; the end was reported at
      most once, as the last event, and only with every byte up to the FIN. */
  lemma DeliveredIsPrefix(s: Sender, w: Bytes, r: Receiver, log: seq<Chunk>)
    requires Pair(s, w, r, log)
    ensures Joined(log) <= w
    ensures forall k :: 0 <= k < |log| && log[k].end ==>
              k == |log| - 1 && s.finSent && Joined(log) == w
  {
    assert w[..r.readOffset] <= w;
    if r.state.AllRead? { assert w[..|w|] == w; }
  }

  /** A sender in Data Recvd knows that the peer holds every byte and the size. */
  lemma DataRecvdIsSound(s: Sender, w: Bytes, r: Receiver, log: seq<Chunk>)
    requires Pair(s, w, r, log) && s.state.DataRecvd?
    ensures r.finalSize == Some(|w|) && r.buffer == w && r.readOffset == |w|
    ensures r.state.AllRead? && Joined(log) == w
  {
    CoversIsInclusion(s.acked, 0, |w|);
    ContiguousIsMaximalRun(r.received, 0);
    if |w| > 0 { assert Has(r.received, |w| - 1); }
    assert r.readOffset == |w|;
    assert w[..|w|] == w;
    forall x | 0 <= x < |w| ensures r.buffer[x] == w[x] {
      assert Has(r.received, x);
    }
  }
}
