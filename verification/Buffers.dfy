/** Big-endian integers, variable-length integers and the sequential byte reader
    (src/dsquic/buffer.py; section 16 of RFC 9000).

    The parser functions take the unread bytes and return what they leave; class
    `Buffer` is the source's reader, which advances a position instead. */
module Buffers {
  import opened Options

  type Byte = x: int | 0 <= x < 256 witness 0
  type Bytes = seq<Byte>

  datatype ReadError = BufferReadError | FrameParseError | HeaderParseError

  type Parse<+T> = Result<(T, Bytes), ReadError>

  const VARINT_MAX: int := 0x3FFF_FFFF_FFFF_FFFF

  // ------------------------------------------------------ fixed-width integers

  /** `int.to_bytes(n, "big")`, keeping the low `n` bytes. */
  function ToBytes(v: nat, n: nat): (r: Bytes)
    ensures |r| == n
  {
    if n == 0 then [] else ToBytes(v / 256, n - 1) + [v % 256]
  }

  /** Append the digits of `b` to `acc`, most significant first. */
  function Fold(acc: nat, b: Bytes): nat {
    if b == [] then acc else Fold(acc, b[..|b| - 1]) * 256 + b[|b| - 1]
  }

  /** `int.from_bytes(b, "big")`. */
  function FromBytes(b: Bytes): nat { Fold(0, b) }

  /** The number without its low `n` bytes. */
  function Shift(v: nat, n: nat): nat {
    if n == 0 then v else Shift(v / 256, n - 1)
  }

  function Scale(v: nat, n: nat): nat {
    if n == 0 then v else 256 * Scale(v, n - 1)
  }

  lemma FoldSnoc(acc: nat, b: Bytes, x: Byte)
    ensures Fold(acc, b + [x]) == Fold(acc, b) * 256 + x
  {
    assert (b + [x])[..|b|] == b;
  }

  /** A number is its high part followed by its low bytes. */
  lemma {:induction false} FoldToBytes(v: nat, n: nat)
    ensures Fold(Shift(v, n), ToBytes(v, n)) == v
    decreases n
  {
    if n != 0 {
      FoldToBytes(v / 256, n - 1);
      FoldSnoc(Shift(v, n), ToBytes(v / 256, n - 1), v % 256);
    }
  }

  lemma {:induction false} FoldIsSum(acc: nat, b: Bytes)
    ensures Fold(acc, b) == Scale(acc, |b|) + FromBytes(b)
    decreases |b|
  {
    if b != [] { FoldIsSum(acc, b[..|b| - 1]); }
  }

  lemma {:induction false} FoldBound(acc: nat, limit: nat, b: Bytes)
    requires acc < limit
    ensures Fold(acc, b) < Scale(limit, |b|)
    decreases |b|
  {
    if b != [] { FoldBound(acc, limit, b[..|b| - 1]); }
  }

  lemma {:induction false} FoldConcat(acc: nat, a: Bytes, b: Bytes)
    ensures Fold(acc, a + b) == Fold(Fold(acc, a), b)
    decreases |b|
  {
    if b == [] {
      assert a + b == a;
    } else {
      var n := |a + b| - 1;
      assert (a + b)[..n] == a + b[..|b| - 1];
      FoldConcat(acc, a, b[..|b| - 1]);
    }
  }

  lemma {:induction false} ScaleValue(v: nat, n: nat)
    requires n <= 4
    ensures Scale(v, n) == v * (if n == 0 then 1 else if n == 1 then 0x100 else if n == 2 then 0x1_0000
                                else if n == 3 then 0x100_0000 else 0x1_0000_0000)
  {
    assert n >= 1 ==> Scale(v, n) == 256 * Scale(v, n - 1);
    assert n >= 2 ==> Scale(v, n - 1) == 256 * Scale(v, n - 2);
    assert n >= 3 ==> Scale(v, n - 2) == 256 * Scale(v, n - 3);
    assert n >= 4 ==> Scale(v, n - 3) == 256 * Scale(v, n - 4);
  }

  /** Every byte string is the fixed-width form of its value. */
  lemma {:induction false} FixedWidthInverse(acc: nat, b: Bytes)
    ensures ToBytes(Fold(acc, b), |b|) == b && Shift(Fold(acc, b), |b|) == acc
    decreases |b|
  {
    if b != [] {
      var n := |b| - 1;
      FixedWidthInverse(acc, b[..n]);
      var top := Fold(acc, b[..n]);
      assert Fold(acc, b) == top * 256 + b[n];
      assert Fold(acc, b) / 256 == top && Fold(acc, b) % 256 == b[n];
      assert b == b[..n] + [b[n]];
    }
  }

  /** The digits of a number, top first. */
  lemma {:induction false} TopByte(v: nat, n: nat)
    ensures ToBytes(v, n + 1) == [Shift(v, n) % 256] + ToBytes(v, n)
    decreases n
  {
    if n != 0 {
      TopByte(v / 256, n - 1);
    }
  }

  // ------------------------------------------------- variable-length integers

  /** The shortest form of a value in range. */
  function Varint(v: int): (r: Bytes)
    requires 0 <= v <= VARINT_MAX
    ensures |r| == VarintLength(v)
  {
    if v <= 0x3F then ToBytes(v, 1)
    else if v <= 0x3FFF then ToBytes(v + 0x4000, 2)
    else if v <= 0x3FFF_FFFF then ToBytes(v + 0x8000_0000, 4)
    else ToBytes(v + 0xC000_0000_0000_0000, 8)
  }

  function VarintLength(v: int): (n: nat)
    ensures 1 <= n <= 8
  {
    if v <= 0x3F then 1 else if v <= 0x3FFF then 2 else if v <= 0x3FFF_FFFF then 4 else 8
  }

  /** `encode_varint`: a value out of range raises ValueError. */
  function EncodeVarint(v: int): (r: Option<Bytes>) {
    if 0 <= v <= VARINT_MAX then Some(Varint(v)) else None
  }

  function PullBytes(b: Bytes, n: int): (r: Parse<Bytes>)
    requires 0 <= n
    ensures r.Ok? ==> |r.value.0| == n && |r.value.0| + |r.value.1| == |b|
  {
    if n > |b| then Err(BufferReadError) else Ok((b[..n], b[n..]))
  }

  function PullUint8(b: Bytes): (r: Parse<Byte>)
    ensures r.Ok? ==> |r.value.1| + 1 == |b|
  {
    if b == [] then Err(BufferReadError) else Ok((b[0], b[1..]))
  }

  /** How many bytes a varint occupies, from its first byte. */
  function FormLength(first: Byte): nat {
    if first < 64 then 1 else if first < 128 then 2 else if first < 192 then 4 else 8
  }

  function PullVarint(b: Bytes): (r: Parse<nat>)
    ensures r.Ok? ==> |r.value.1| < |b|
  {
    var (first, rest) :- PullUint8(b);
    var n := FormLength(first) - 1;
    var (more, left) :- PullBytes(rest, n);
    Ok((Fold(first % 64, more), left))
  }

  /** Adding a multiple of 256^n leaves the low `n` bytes alone. */
  lemma {:induction false} LowBytes(v: nat, tag: nat, n: nat)
    ensures ToBytes(v + Scale(tag, n), n) == ToBytes(v, n)
    ensures Shift(v + Scale(tag, n), n) == Shift(v, n) + tag
    decreases n
  {
    if n != 0 {
      assert (v + 256 * Scale(tag, n - 1)) / 256 == v / 256 + Scale(tag, n - 1);
      assert (v + 256 * Scale(tag, n - 1)) % 256 == v % 256;
      LowBytes(v / 256, tag, n - 1);
    }
  }

  lemma {:induction false} ShiftBound(v: nat, limit: nat, n: nat)
    requires v < Scale(limit, n)
    ensures Shift(v, n) < limit
    decreases n
  {
    if n != 0 { ShiftBound(v / 256, limit, n - 1); }
  }

  lemma PullTagged(b: Bytes, first: Byte, tag: nat, more: Bytes, rest: Bytes)
    requires b == [first] + more + rest && tag < 4
    requires tag * 64 <= first < tag * 64 + 64
    requires |more| + 1 == (if tag == 0 then 1 else if tag == 1 then 2 else if tag == 2 then 4 else 8)
    ensures PullVarint(b) == Ok((Fold(first - tag * 64, more), rest))
  {
    assert b[1..] == more + rest;
    assert b[1..][..|more|] == more && b[1..][|more|..] == rest;
  }

  /** A tagged number decodes to the number under any tag in the top two bits. */
  lemma TaggedRoundTrip(v: nat, tag: nat, n: nat, rest: Bytes)
    requires tag < 4 && n + 1 == (if tag == 0 then 1 else if tag == 1 then 2 else if tag == 2 then 4 else 8)
    requires v < Scale(64, n)
    ensures PullVarint(ToBytes(v + Scale(tag * 64, n), n + 1) + rest) == Ok((v, rest))
  {
    var w := v + Scale(tag * 64, n);
    var b := ToBytes(w, n + 1) + rest;
    TopByte(w, n);
    LowBytes(v, tag * 64, n);
    ShiftBound(v, 64, n);
    FoldToBytes(v, n);
    assert Shift(w, n) % 256 == Shift(v, n) + tag * 64;
    assert ToBytes(w, n) == ToBytes(v, n);
    assert b == [Shift(w, n)] + ToBytes(v, n) + rest;
    PullTagged(b, Shift(w, n), tag, ToBytes(v, n), rest);
  }

  /** Decoding the shortest form gives the value back and leaves what follows it. */
  lemma VarintRoundTrip(v: int, rest: Bytes)
    requires 0 <= v <= VARINT_MAX
    ensures PullVarint(Varint(v) + rest) == Ok((v, rest))
  {
    hide ToBytes, Scale, PullVarint;
    var n := VarintLength(v) - 1;
    var tag := if n == 0 then 0 else if n == 1 then 1 else if n == 3 then 2 else 3;
    ScaleDigits();
    TaggedRoundTrip(v, tag, n, rest);
  }

  lemma ScaleDigits()
    ensures Scale(0, 0) == 0 && Scale(64, 0) == 64
    ensures Scale(64, 1) == 0x4000 && Scale(64, 3) == 0x4000_0000 && Scale(64, 7) == 0x4000_0000_0000_0000
    ensures Scale(128, 3) == 0x8000_0000 && Scale(192, 7) == 0xC000_0000_0000_0000
  {
    assert Scale(64, 2) == 0x40_0000;
    assert Scale(64, 4) == 0x40_0000_0000;
    assert Scale(64, 5) == 0x4000_0000_0000;
    assert Scale(64, 6) == 0x40_0000_0000_0000;
    assert Scale(128, 2) == 0x80_0000;
    assert Scale(192, 4) == 0xC0_0000_0000;
    assert Scale(192, 5) == 0xC000_0000_0000;
    assert Scale(192, 6) == 0xC0_0000_0000_0000;
  }

  /** Whatever form was received, the value is in range and its shortest form
      is no longer than the one that was read. */
  lemma PulledVarintInRange(b: Bytes)
    requires PullVarint(b).Ok?
    ensures 0 <= PullVarint(b).value.0 <= VARINT_MAX
    ensures VarintLength(PullVarint(b).value.0) <= |b| - |PullVarint(b).value.1|
  {
    ScaleDigits();
    var n := FormLength(b[0]) - 1;
    FoldBound(b[0] % 64, 64, b[1..][..n]);
  }

  lemma Assoc(a: Bytes, b: Bytes, c: Bytes)
    ensures a + b + c == a + (b + c)
  {
  }

  lemma PullSplit(data: Bytes, rest: Bytes)
    ensures PullBytes(data + rest, |data|) == Ok((data, rest))
  {
    assert (data + rest)[..|data|] == data && (data + rest)[|data|..] == rest;
  }

  // -------------------------------------------------------- the source's reader

  class Buffer {
    const data: Bytes
    var position: nat

    ghost predicate Valid()
      reads this
    {
      position <= |data|
    }

    function Unread(): Bytes
      requires Valid()
      reads this
    {
      data[position..]
    }

    constructor (bytes: Bytes)
      ensures Valid() && data == bytes && Unread() == bytes
    {
      data := bytes;
      position := 0;
    }

    method Pull(length: int) returns (r: Result<Bytes, ReadError>)
      requires Valid() && 0 <= length
      modifies this
      ensures Valid()
      ensures match PullBytes(old(Unread()), length)
              case Err(e) => r == Err(e) && position == old(position)
              case Ok((value, rest)) => r == Ok(value) && Unread() == rest
    {
      if length > |data| - position {
        return Err(BufferReadError);
      }
      var start := position;
      position := position + length;
      assert data[start..][..length] == data[start..position];
      return Ok(data[start..position]);
    }

    /** A varint that is cut short raises after its first byte was consumed. */
    method Varint() returns (r: Result<nat, ReadError>)
      requires Valid()
      modifies this
      ensures Valid()
      ensures match PullVarint(old(Unread()))
              case Err(e) => r == Err(e)
              case Ok((value, rest)) => r == Ok(value) && Unread() == rest
    {
      ghost var unread := Unread();
      var head := Pull(1);
      if head.Err? {
        return Err(head.error);
      }
      var first := head.value[0];
      var length := FormLength(first);
      var value: nat := first % 64;
      var tail := Pull(length - 1);
      if tail.Err? {
        return Err(tail.error);
      }
      var more := tail.value;
      assert more == unread[1..][..length - 1];
      var i := 0;
      while i < |more|
        invariant 0 <= i <= |more|
        invariant value == Fold(first % 64, more[..i])
      {
        assert more[..i + 1][..i] == more[..i];
        value := value * 256 + more[i];
        i := i + 1;
      }
      assert more[..|more|] == more;
      return Ok(value);
    }
  }
}
