/** The TLS message-slicing loop fed by CRYPTO reassembly
    (src/dsquic/tls.py; section 4 of RFC 8446). */
module Handshakes {
  import opened Buffers

  const HEADER_LENGTH := 4

  /** One-byte type, three-byte length. */
  function MessageLength(b: Bytes): (n: nat)
    requires |b| >= HEADER_LENGTH
    ensures n >= HEADER_LENGTH
  {
    HEADER_LENGTH + FromBytes(b[1..4])
  }

  predicate Complete(b: Bytes) { |b| >= HEADER_LENGTH && |b| >= MessageLength(b) }

  /** The complete messages at the front of a byte string, in order. */
  function Messages(b: Bytes): seq<Bytes>
    decreases |b|
  {
    if !Complete(b) then [] else [b[..MessageLength(b)]] + Messages(b[MessageLength(b)..])
  }

  /** What is left after them. */
  function Remainder(b: Bytes): Bytes
    decreases |b|
  {
    if !Complete(b) then b else Remainder(b[MessageLength(b)..])
  }

  function Join(chunks: seq<Bytes>): Bytes {
    if chunks == [] then [] else Join(chunks[..|chunks| - 1]) + chunks[|chunks| - 1]
  }

  /** The source's per-level buffer. */
  class Slicer {
    var buffer: Bytes

    constructor ()
      ensures buffer == []
    {
      buffer := [];
    }

    /** `receive`, with the messages handed to the state machine collected. */
    method Receive(data: Bytes) returns (handled: seq<Bytes>)
      modifies this
      ensures handled == Messages(old(buffer) + data)
      ensures buffer == Remainder(old(buffer) + data)
    {
      buffer := buffer + data;
      handled := [];
      while |buffer| >= HEADER_LENGTH
        invariant handled + Messages(buffer) == Messages(old(buffer) + data)
        invariant Remainder(buffer) == Remainder(old(buffer) + data)
        decreases |buffer|
      {
        var length := HEADER_LENGTH + FromBytes(buffer[1..4]);
        if |buffer| < length {
          break;
        }
        handled := handled + [buffer[..length]];
        buffer := buffer[length..];
      }
    }
  }

  /** Slicing loses and invents nothing, and leaves no complete message behind. */
  lemma {:induction false} SlicingIsExact(b: Bytes)
    ensures Join(Messages(b)) + Remainder(b) == b && !Complete(Remainder(b))
    decreases |b|
  {
    hide Fold, FromBytes, MessageLength, Join;
    if Complete(b) {
      var n := MessageLength(b);
      var head, rest := b[..n], b[n..];
      SlicingIsExact(rest);
      var ms, left := Messages(rest), Remainder(rest);
      JoinCons(head, ms);
      Assoc(head, Join(ms), left);
      Halves(b, n);
    } else {
      JoinNone();
    }
  }

  lemma Halves(b: Bytes, n: nat)
    requires n <= |b|
    ensures b[..n] + b[n..] == b
  {
  }

  lemma JoinNone()
    ensures Join([]) == []
  {
  }

  lemma {:induction false} JoinCons(c: Bytes, cs: seq<Bytes>)
    ensures Join([c] + cs) == c + Join(cs)
    decreases |cs|
  {
    if cs == [] {
      assert [c] + cs == [c] && [c][..0] == [];
      assert Join([c]) == [] + c;
    } else {
      var n := |cs| - 1;
      assert ([c] + cs)[..n + 1] == [c] + cs[..n];
      JoinCons(c, cs[..n]);
      Assoc(c, Join(cs[..n]), cs[n]);
    }
  }

  /** The messages do not depend on where the bytes were cut. */
  lemma {:induction false} SlicingIgnoresChunks(a: Bytes, b: Bytes)
    ensures Messages(a + b) == Messages(a) + Messages(Remainder(a) + b)
    ensures Remainder(a + b) == Remainder(Remainder(a) + b)
    decreases |a|
  {
    if Complete(a) {
      var n := MessageLength(a);
      var rest := a[n..];
      assert (a + b)[1..4] == a[1..4];
      assert (a + b)[..n] == a[..n] && (a + b)[n..] == rest + b;
      SlicingIgnoresChunks(rest, b);
      var head := [a[..n]];
      var later := Messages(Remainder(rest) + b);
      assert head + (Messages(rest) + later) == head + Messages(rest) + later;
    }
  }

  /** All messages handled when the chunks are received one by one. */
  function Handled(chunks: seq<Bytes>): seq<Bytes> {
    if chunks == [] then []
    else
      var before := chunks[..|chunks| - 1];
      Handled(before) + Messages(Remainder(Join(before)) + chunks[|chunks| - 1])
  }

  /** However a byte stream is chunked, the state machine handles its messages. */
  lemma {:induction false} HandledIsMessages(chunks: seq<Bytes>)
    ensures Handled(chunks) == Messages(Join(chunks))
    decreases |chunks|
  {
    if chunks != [] {
      var n := |chunks| - 1;
      HandledIsMessages(chunks[..n]);
      SlicingIgnoresChunks(Join(chunks[..n]), chunks[n]);
    }
  }

  /** More bytes only add messages at the end. */
  lemma MessagesOfPrefix(a: Bytes, b: Bytes)
    requires a <= b
    ensures Messages(a) <= Messages(b)
  {
    assert b == a + b[|a|..];
    SlicingIgnoresChunks(a, b[|a|..]);
  }
}
