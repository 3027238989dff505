/** CRYPTO data at one encryption level: the sender's queues, reassembly, and the
    TLS machine it feeds (src/dsquic/connection.py; section 19.6 of RFC 9000). */
module Crypto {
  import opened Options
  import opened Numbers
  import opened Buffers
  import opened RangeSets
  import opened Streams

  const MAX_CRYPTO_BUFFER := 65536

  datatype Piece = Piece(offset: nat, data: Bytes)

  function EndOf(p: Piece): nat { p.offset + |p.data| }

  /** `crypto_pending`, `crypto_offset_sent` and `crypto_retransmit`. */
  datatype Outgoing = Outgoing(pending: Bytes, offsetSent: nat, retransmit: seq<Piece>)

  /** `crypto_buffer`, `crypto_received` and `crypto_read_offset`. */
  datatype Incoming = Incoming(buffer: Bytes, received: seq<Range>, readOffset: nat)

  /** One CRYPTO frame of at most `available` bytes: lost bytes first, split if they
      do not fit, otherwise new ones. */
  function TakePiece(o: Outgoing, available: nat): (Outgoing, Option<Piece>) {
    if o.retransmit != [] && available > 0 then
      var lost := o.retransmit[0];
      var n := Min(available, |lost.data|);
      (o.(retransmit := if n < |lost.data| then [Piece(lost.offset + n, lost.data[n..])] + o.retransmit[1..]
                        else o.retransmit[1..]),
       Some(Piece(lost.offset, lost.data[..n])))
    else
      var n := Min(available, |o.pending|);
      if n == 0 then (o, None)
      else (o.(pending := o.pending[n..], offsetSent := o.offsetSent + n), Some(Piece(o.offsetSent, o.pending[..n])))
  }

  datatype Effect = Refused | Gap | Feed(data: Bytes)

  /** `_handle_crypto`: only contiguous bytes reach TLS. */
  function OnCrypto(i: Incoming, p: Piece): (Incoming, Effect) {
    if EndOf(p) > MAX_CRYPTO_BUFFER then (i, Refused)
    else
      var buffer := Overlay(i.buffer, p.offset, p.data);
      var received := Insert(i.received, p.offset, EndOf(p));
      var end := ContiguousFrom(received, i.readOffset);
      if end == i.readOffset then (Incoming(buffer, received, i.readOffset), Gap)
      else (Incoming(buffer, received, end), Feed(Slice(buffer, i.readOffset, end)))
  }

  // -------------------------------------------------------- the source's fields

  class CryptoSpace {
    var pending: Bytes
    var offsetSent: nat
    var retransmit: seq<Piece>
    var buffer: Bytes
    var received: RangeSet
    var readOffset: nat

    ghost predicate Valid()
      reads this, received
    {
      received.Valid()
    }

    function Sending(): Outgoing
      reads this
    {
      Outgoing(pending, offsetSent, retransmit)
    }

    function Receiving(): Incoming
      reads this, received
    {
      Incoming(buffer, received.ranges, readOffset)
    }

    constructor ()
      ensures Valid() && fresh(received)
      ensures Sending() == Outgoing([], 0, []) && Receiving() == Incoming([], [], 0)
    {
      pending, offsetSent, retransmit, buffer, readOffset := [], 0, [], [], 0;
      received := new RangeSet();
    }

    method Next(available: nat) returns (piece: Option<Piece>)
      modifies this
      ensures (Sending(), piece) == TakePiece(old(Sending()), available)
      ensures received == old(received) && buffer == old(buffer) && readOffset == old(readOffset)
    {
      if retransmit != [] && available > 0 {
        var lost := retransmit[0];
        var chunk := lost.data[..Min(available, |lost.data|)];
        if |chunk| < |lost.data| {
          retransmit := [Piece(lost.offset + |chunk|, lost.data[|chunk|..])] + retransmit[1..];
        } else {
          retransmit := retransmit[1..];
        }
        return Some(Piece(lost.offset, chunk));
      }
      var chunk := pending[..Min(available, |pending|)];
      if chunk == [] {
        return None;
      }
      piece := Some(Piece(offsetSent, chunk));
      pending := pending[|chunk|..];
      offsetSent := offsetSent + |chunk|;
    }

    method OnFrame(p: Piece) returns (effect: Effect)
      requires Valid()
      modifies this, received
      ensures Valid() && received == old(received)
      ensures (Receiving(), effect) == OnCrypto(old(Receiving()), p)
      ensures Sending() == old(Sending())
    {
      var end := p.offset + |p.data|;
      if end > MAX_CRYPTO_BUFFER {
        return Refused;
      }
      buffer := Overlay(buffer, p.offset, p.data);
      received.Add(p.offset, end);
      var readable := received.ContiguousEnd(readOffset);
      if readable == readOffset {
        return Gap;
      }
      effect := Feed(Slice(buffer, readOffset, readable));
      readOffset := readable;
    }
  }
}
