/** Building ACK frames from the record of received packet numbers
    (src/dsquic/connection.py, `_build_ack` and the bookkeeping in
    `_process_packet`; section 19.3.1 of RFC 9000). */
module Acks {
  import opened Options
  import opened Buffers
  import opened RangeSets
  import opened Frames
  import opened FrameCodec

  const MAX_ACK_RANGES: int := 32

  /** The inclusive runs of a range list, highest first. */
  function Descending(rs: seq<Range>): (r: seq<AckRange>)
    ensures |r| == |rs|
  {
    if rs == [] then []
    else [AckRange(rs[|rs| - 1].start, rs[|rs| - 1].end - 1)] + Descending(rs[..|rs| - 1])
  }

  function TopRanges(rs: seq<Range>): seq<Range> {
    if |rs| <= MAX_ACK_RANGES then rs else rs[|rs| - MAX_ACK_RANGES..]
  }

  /** `_build_ack`: None unless something ack-eliciting is pending. */
  function BuildAck(received: seq<Range>, largest: int, pending: bool, ecn: Option<EcnCounts>): Option<Frame> {
    if !pending || largest < 0 then None
    else Some(Ack(largest, 0, Descending(TopRanges(received)), ecn))
  }

  /** Which packet numbers an ACK frame acknowledges. */
  predicate Acknowledges(ranges: seq<AckRange>, pn: int) {
    exists k :: 0 <= k < |ranges| && ranges[k].low <= pn <= ranges[k].high
  }

  lemma {:induction false} DescendingAt(rs: seq<Range>, k: nat)
    requires k < |rs|
    ensures Descending(rs)[k] == AckRange(rs[|rs| - 1 - k].start, rs[|rs| - 1 - k].end - 1)
    decreases |rs|
  {
    if k > 0 { DescendingAt(rs[..|rs| - 1], k - 1); }
  }

  lemma DescendingDenotes(rs: seq<Range>, pn: int)
    ensures Acknowledges(Descending(rs), pn) <==> Has(rs, pn)
  {
    var d := Descending(rs);
    if Acknowledges(d, pn) {
      var k :| 0 <= k < |d| && d[k].low <= pn <= d[k].high;
      DescendingAt(rs, k);
    }
    if Has(rs, pn) {
      var k :| 0 <= k < |rs| && rs[k].start <= pn < rs[k].end;
      DescendingAt(rs, |rs| - 1 - k);
    }
  }

  /** Non-adjacent runs have gaps that encode: no gap is negative. */
  lemma {:induction false} GapsEncode(rs: seq<Range>, low: int)
    requires Normal(rs) && (forall k :: 0 <= k < |rs| ==> 0 <= rs[k].start)
    requires rs != [] ==> rs[|rs| - 1].end < low
    requires low <= VARINT_MAX
    ensures RangesFit(low, Descending(rs))
    decreases |rs|
  {
    if rs != [] {
      var n := |rs| - 1;
      GapsEncode(rs[..n], rs[n].start);
      assert Descending(rs)[1..] == Descending(rs[..n]);
    }
  }

  lemma TopRangesNormal(rs: seq<Range>)
    requires Normal(rs)
    ensures Normal(TopRanges(rs))
    ensures forall k :: 0 <= k < |TopRanges(rs)| ==> TopRanges(rs)[k] in rs
    ensures rs != [] ==> TopRanges(rs) != [] && TopRanges(rs)[|TopRanges(rs)| - 1] == rs[|rs| - 1]
  {
  }

  /** The received record: packet numbers in normal form, and their maximum. */
  ghost predicate RecordOk(received: seq<Range>, largest: int) {
    && Normal(received)
    && (forall k :: 0 <= k < |received| ==> 0 <= received[k].start)
    && largest == (if received == [] then -1 else received[|received| - 1].end - 1)
  }

  lemma LastIsGreatest(rs: seq<Range>, x: int)
    requires Normal(rs) && Has(rs, x)
    ensures rs != [] && x <= rs[|rs| - 1].end - 1 && Has(rs, rs[|rs| - 1].end - 1)
  {
    var k :| 0 <= k < |rs| && rs[k].start <= x < rs[k].end;
    var n := |rs| - 1;
    assert rs[n].start <= rs[n].end - 1 < rs[n].end;
  }

  lemma StartsCovered(rs: seq<Range>)
    requires Normal(rs)
    ensures forall k :: 0 <= k < |rs| ==> Has(rs, rs[k].start)
  {
  }

  lemma TopIsMaximum(rs: seq<Range>, m: int)
    requires Normal(rs) && Has(rs, m) && (forall x :: Has(rs, x) ==> x <= m)
    ensures rs != [] && rs[|rs| - 1].end - 1 == m
  {
    LastIsGreatest(rs, m);
  }

  lemma RecordMaximum(received: seq<Range>, largest: int)
    requires RecordOk(received, largest)
    ensures received != [] ==> Has(received, largest)
    ensures forall x :: Has(received, x) ==> 0 <= x <= largest
  {
    if received != [] {
      var n := |received| - 1;
      assert received[n].start <= largest < received[n].end;
    }
    forall x | Has(received, x) ensures 0 <= x <= largest {
      LastIsGreatest(received, x);
    }
  }

  /** Recording a packet keeps `largest_received` the maximum of the record. */
  lemma RecordingKeeps(received: seq<Range>, largest: int, pn: nat)
    requires RecordOk(received, largest)
    ensures RecordOk(Insert(received, pn, pn + 1), if pn > largest then pn else largest)
  {
    hide Insert, Has;
    var after := Insert(received, pn, pn + 1);
    InsertIsUnion(received, pn, pn + 1);
    RecordMaximum(received, largest);
    assert Has(after, if pn > largest then pn else largest);
    TopIsMaximum(after, if pn > largest then pn else largest);
    StartsCovered(after);
  }

  ghost predicate CountsFit(ecn: Option<EcnCounts>) {
    ecn.Some? ==> InRange(ecn.value.ect0) && InRange(ecn.value.ect1) && InRange(ecn.value.ce)
  }

  lemma DescendingFits(rs: seq<Range>)
    requires Normal(rs) && rs != [] && (forall k :: 0 <= k < |rs| ==> 0 <= rs[k].start)
    requires rs[|rs| - 1].end <= VARINT_MAX + 1
    ensures var more := Descending(rs[..|rs| - 1]);
            RangesFit(rs[|rs| - 1].start, more) && AllNonNegative(more)
  {
    var n := |rs| - 1;
    GapsEncode(rs[..n], rs[n].start);
    forall k | 0 <= k < |Descending(rs[..n])| ensures 0 <= Descending(rs[..n])[k].low {
      DescendingAt(rs[..n], k);
    }
  }

  /** Every ACK that `_build_ack` produces is well formed. */
  lemma BuiltAckWellFormed(received: seq<Range>, largest: int, ecn: Option<EcnCounts>)
    requires RecordOk(received, largest) && 0 <= largest <= VARINT_MAX && CountsFit(ecn)
    ensures WellFormed(BuildAck(received, largest, true, ecn).value)
  {
    hide WellFormed, RangesFit, AllNonNegative, Normal, Has;
    var top := TopRanges(received);
    TopRangesNormal(received);
    DescendingFits(top);
    var n := |top| - 1;
    AckOfParts(largest, 0, largest - top[n].start, Descending(top[..n]), ecn);
  }

  lemma BuiltAckStarts(received: seq<Range>, largest: int, ecn: Option<EcnCounts>)
    requires RecordOk(received, largest) && 0 <= largest
    ensures Normal(received)
    ensures var ack := BuildAck(received, largest, true, ecn).value; ack.ranges != [] && ack.ranges[0].high == largest
  {
    TopRangesNormal(received);
    DescendingAt(TopRanges(received), 0);
  }

  lemma SingleFrame(f: Frame)
    requires WellFormed(f)
    ensures Encode(f).Some? && ParseFrames(Encode(f).value) == Ok([f])
  {
    hide Wire, ParseFrames;
    PayloadRoundTrip([f]);
    assert [f][1..] == [];
    assert Wire(f) + [] == Wire(f);
  }

  /** Every ACK built from a record of received packet numbers encodes without a
      negative gap, parses back to itself, starts at the largest number received,
      and acknowledges exactly the numbers in the top 32 runs of the record. */
  lemma AckReportsTopRuns(received: seq<Range>, largest: int, ecn: Option<EcnCounts>, pn: int)
    requires RecordOk(received, largest) && 0 <= largest <= VARINT_MAX && CountsFit(ecn)
    ensures var ack := BuildAck(received, largest, true, ecn).value;
            && Encode(ack).Some?
            && ParseFrames(Encode(ack).value) == Ok([ack])
            && ack.ranges[0].high == largest
            && (Acknowledges(ack.ranges, pn) <==> Has(TopRanges(received), pn))
            && (Acknowledges(ack.ranges, pn) ==> Has(received, pn))
            && |ack.ranges| == (if |received| <= 32 then |received| else 32)
            && (|received| <= 32 ==> (Acknowledges(ack.ranges, pn) <==> Has(received, pn)))
  {
    hide Wire, ParseFrames, WellFormed, Has, Acknowledges, RecordOk;
    BuiltAckWellFormed(received, largest, ecn);
    var ack := BuildAck(received, largest, true, ecn).value;
    SingleFrame(ack);
    BuiltAckStarts(received, largest, ecn);
    DescendingDenotes(TopRanges(received), pn);
    TopRunsReceived(received, pn);
  }

  lemma TopRunsReceived(rs: seq<Range>, pn: int)
    requires Normal(rs)
    ensures Has(TopRanges(rs), pn) ==> Has(rs, pn)
    ensures |rs| <= MAX_ACK_RANGES ==> TopRanges(rs) == rs
  {
    TopRangesNormal(rs);
    var top := TopRanges(rs);
    if Has(top, pn) {
      var k :| 0 <= k < |top| && top[k].start <= pn < top[k].end;
      var m :| 0 <= m < |rs| && rs[m] == top[k];
    }
  }
}
