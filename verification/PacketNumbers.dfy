/** Truncated packet numbers (src/dsquic/packet.py; section 17.1 and Appendices A.2
    and A.3 of RFC 9000). */
module PacketNumbers {
  import opened Options
  import opened Numbers
  import opened Buffers

  const NUMBER_LIMIT := 0x4000_0000_0000_0000   // 2^62

  /** How many numbers a field of `n` bytes tells apart. */
  function Window(n: nat): nat
    requires 1 <= n <= 4
  {
    if n == 1 then 0x100 else if n == 2 then 0x1_0000 else if n == 3 then 0x100_0000 else 0x1_0000_0000
  }

  function BitLength(v: nat): nat { if v == 0 then 0 else 1 + BitLength(v / 2) }

  function Magnitude(v: int): nat { if v < 0 then -v else v }

  /** The source's choice of field width for a number of unacknowledged packets. */
  function FieldLength(unacked: int): (n: nat)
    ensures 1 <= n <= 4
  {
    Min(4, Max(1, (BitLength(Magnitude(unacked)) + 8) / 8))
  }

  function EncodeNumber(number: nat, largestAcked: Option<int>): (r: Bytes)
    ensures 1 <= |r| <= 4
  {
    var n := FieldLength(if largestAcked.None? then number + 1 else number - largestAcked.value);
    ToBytes(number, 8)[8 - n..]
  }

  /** `decode_packet_number`; the candidate is the expected number with its low
      part replaced. */
  function Resolve(expected: int, truncated: nat, window: nat): int
    requires window > 0
  {
    var half := window / 2;
    var candidate := expected - expected % window + truncated;
    if candidate <= expected - half && candidate < NUMBER_LIMIT - window then candidate + window
    else if candidate > expected + half && candidate >= window then candidate - window
    else candidate
  }

  function DecodeNumber(largest: int, truncated: nat, n: nat): int
    requires 1 <= n <= 4
  {
    Resolve(largest + 1, truncated, Window(n))
  }

  // ------------------------------------------------------------------- decoding

  /** The window in which section 17.1 of RFC 9000 promises recovery. */
  predicate InWindow(expected: int, number: int, window: nat) {
    expected - window / 2 < number <= expected + window / 2
  }

  /** Outside the window the number is still recovered where the correction is
      suppressed at either end of the number space. */
  predicate AtEdge(expected: int, number: int, window: nat) {
    || (number > expected + window / 2 && number < window)
    || (number <= expected - window / 2 && number >= NUMBER_LIMIT - window && expected < NUMBER_LIMIT)
  }

  /** A packet number is recovered exactly when it lies in the window or the
      correction is suppressed at an edge of the number space. */
  lemma DecodeIsExact(largest: int, number: nat, n: nat)
    requires -1 <= largest && 1 <= n <= 4 && number < NUMBER_LIMIT
    ensures DecodeNumber(largest, number % Window(n), n) == number
            <==> InWindow(largest + 1, number, Window(n)) || AtEdge(largest + 1, number, Window(n))
  {
    hide Resolve, InWindow, AtEdge;
    var e := largest + 1;
    OneByte(e, number);
    TwoBytes(e, number);
    ThreeBytes(e, number);
    FourBytes(e, number);
  }

  lemma OneByte(e: int, number: nat)
    requires 0 <= e && number < NUMBER_LIMIT
    ensures Resolve(e, number % 0x100, 0x100) == number <==> InWindow(e, number, 0x100) || AtEdge(e, number, 0x100)
  {
  }

  lemma TwoBytes(e: int, number: nat)
    requires 0 <= e && number < NUMBER_LIMIT
    ensures Resolve(e, number % 0x1_0000, 0x1_0000) == number
            <==> InWindow(e, number, 0x1_0000) || AtEdge(e, number, 0x1_0000)
  {
  }

  lemma ThreeBytes(e: int, number: nat)
    requires 0 <= e && number < NUMBER_LIMIT
    ensures Resolve(e, number % 0x100_0000, 0x100_0000) == number
            <==> InWindow(e, number, 0x100_0000) || AtEdge(e, number, 0x100_0000)
  {
  }

  lemma FourBytes(e: int, number: nat)
    requires 0 <= e && number < NUMBER_LIMIT
    ensures Resolve(e, number % 0x1_0000_0000, 0x1_0000_0000) == number
            <==> InWindow(e, number, 0x1_0000_0000) || AtEdge(e, number, 0x1_0000_0000)
  {
  }

  /** The window alone is not the exact condition: before anything was received a
      one-byte field still recovers 200, which lies outside it. */
  lemma WindowIsNotExact()
    ensures !InWindow(0, 200, 0x100) && DecodeNumber(-1, 200, 1) == 200
  {
    assert Resolve(0, 200, 0x100) == 200;
  }

  // ------------------------------------------------------------------- encoding

  lemma {:induction false} LastBytes(v: nat, n: nat, m: nat)
    requires n <= m
    ensures ToBytes(v, m)[m - n..] == ToBytes(v, n)
    decreases m
  {
    if n != 0 {
      LastBytes(v / 256, n - 1, m - 1);
      var high := ToBytes(v / 256, m - 1);
      assert (high + [v % 256])[m - n..] == high[m - n..] + [v % 256];
    }
  }

  lemma LowValue(v: nat, n: nat)
    requires 1 <= n <= 4
    ensures FromBytes(ToBytes(v, n)) == v % Window(n)
  {
    hide Fold, ToBytes, Shift, Scale;
    FoldToBytes(v, n);
    FoldIsSum(Shift(v, n), ToBytes(v, n));
    FoldBound(0, 1, ToBytes(v, n));
    ScaleValue(Shift(v, n), n);
    ScaleValue(1, n);
    Remainder(v, Shift(v, n), FromBytes(ToBytes(v, n)), Window(n));
  }

  lemma Remainder(v: int, q: int, r: int, w: int)
    requires 0 <= r < w && v == q * w + r
    ensures v % w == r
  {
    var d := q - v / w;
    assert v == (v / w) * w + v % w;
    assert d * w == v % w - r;
    assert d > 0 ==> d * w >= w;
    assert d < 0 ==> d * w <= -w;
  }

  /** The field holds the number modulo its window. */
  lemma FieldHoldsLowPart(number: nat, largestAcked: Option<int>)
    ensures var r := EncodeNumber(number, largestAcked);
            FromBytes(r) == number % Window(|r|)
  {
    hide ToBytes, Fold;
    var n := |EncodeNumber(number, largestAcked)|;
    LastBytes(number, n, 8);
    LowValue(number, n);
  }

  lemma {:induction false} BitLengthBounds(v: nat, bits: nat, limit: nat)
    requires limit == Power(bits)
    ensures BitLength(v) <= bits <==> v < limit
    decreases bits
  {
    if bits > 0 {
      if v > 0 { BitLengthBounds(v / 2, bits - 1, Power(bits - 1)); }
    }
  }

  function Power(n: nat): (r: nat)
    ensures r >= 1
  {
    if n == 0 then 1 else 2 * Power(n - 1)
  }

  lemma Powers()
    ensures Power(7) == 0x80 && Power(15) == 0x8000 && Power(23) == 0x80_0000
  {
    assert Power(3) == 8;
    assert Power(11) == 0x800;
    assert Power(19) == 0x8_0000;
  }

  /** The field is the shortest whose half window exceeds the unacknowledged count,
      or four bytes where none does. */
  lemma FieldIsShortestSafe(unacked: int)
    ensures var n, m := FieldLength(unacked), Magnitude(unacked);
            && (n < 4 ==> m < Window(n) / 2)
            && (n > 1 ==> m >= Window(n - 1) / 2)
  {
    hide BitLength, Power;
    var m := Magnitude(unacked);
    Powers();
    BitLengthBounds(m, 7, 0x80);
    BitLengthBounds(m, 15, 0x8000);
    BitLengthBounds(m, 23, 0x80_0000);
  }

  /** Where a receiver that has seen numbers up to `largest` recovers a number. */
  predicate Recoverable(largest: int, number: int, n: nat)
    requires 1 <= n <= 4
  {
    InWindow(largest + 1, number, Window(n)) || AtEdge(largest + 1, number, Window(n))
  }

  /** The sender encodes against no acknowledgment.  Every number is recovered exactly
      under the decoder's condition.  Below 2^31 - 1 the field holds the whole number,
      so the upper end of the window is met whatever the receiver has seen, and
      recovery fails exactly when the receiver is half a window ahead. */
  lemma SendersNumberIsRecovered(number: nat, largest: int)
    requires number < NUMBER_LIMIT && -1 <= largest
    ensures var r := EncodeNumber(number, None);
            && FromBytes(r) == number % Window(|r|)
            && (DecodeNumber(largest, FromBytes(r), |r|) == number <==> Recoverable(largest, number, |r|))
            && (number + 1 < 0x8000_0000 ==>
                  && FromBytes(r) == number
                  && number <= largest + 1 + Window(|r|) / 2
                  && (Recoverable(largest, number, |r|) <==> largest + 1 - Window(|r|) / 2 < number))
  {
    hide Resolve, ToBytes, Fold, BitLength;
    var n := |EncodeNumber(number, None)|;
    FieldIsShortestSafe(number + 1);
    FieldHoldsLowPart(number, None);
    DecodeIsExact(largest, number, n);
  }
}
