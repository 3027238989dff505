/** Packet headers and coalesced datagrams (src/dsquic/packet.py and
    src/dsquic/connection.py; sections 12.2, 17.2 and 17.3 of RFC 9000). */
module Headers {
  import opened Options
  import opened Buffers
  import opened PacketNumbers
  import opened Protection

  const QUIC_V1 := 1
  const MAX_CID_LENGTH := 20

  datatype PacketType = InitialPacket | ZeroRttPacket | HandshakePacket | RetryPacket

  function TypeBits(t: PacketType): nat {
    match t
    case InitialPacket => 0
    case ZeroRttPacket => 1
    case HandshakePacket => 2
    case RetryPacket => 3
  }

  function TypeOfBits(v: nat): PacketType {
    if v == 0 then InitialPacket else if v == 1 then ZeroRttPacket
    else if v == 2 then HandshakePacket else RetryPacket
  }

  datatype HeaderError = Truncated | Malformed | UnsupportedVersion(version: nat)

  datatype LongHeader = LongHeader(
    packetType: PacketType, version: nat, destination: Bytes, source: Bytes, token: Bytes,
    length: nat, numberOffset: nat)

  datatype Template = Template(packetType: PacketType, version: nat, destination: Bytes, source: Bytes, token: Bytes)

  type Reader<+T> = Result<(T, Bytes), HeaderError>

  function Lift<T>(p: Parse<T>): (r: Reader<T>)
    ensures r.Ok? <==> p.Ok?
    ensures r.Ok? ==> r.value == p.value
  {
    if p.Ok? then Ok(p.value) else Err(Truncated)
  }

  function PullCid(b: Bytes): (r: Reader<Bytes>)
    ensures r.Ok? ==> |r.value.1| < |b|
  {
    var (length, rest) :- Lift(PullUint8(b));
    Lift(PullBytes(rest, length))
  }

  function PullToken(t: PacketType, b: Bytes): (r: Reader<Bytes>)
    ensures r.Ok? ==> |r.value.1| <= |b|
  {
    if t != InitialPacket then Ok(([], b))
    else
      var (length, rest) :- Lift(PullVarint(b));
      Lift(PullBytes(rest, length))
  }

  /** `parse_long_header`: up to the Packet Number field.  Only the version-independent
      fields are read before the version is checked. */
  function ParseLong(data: Bytes): (r: Result<LongHeader, HeaderError>)
    ensures r.Ok? ==> 0 < r.value.numberOffset <= |data|
  {
    var (first, b0) :- Lift(PullUint8(data));
    if first < 128 || (first / 64) % 2 == 0 then Err(Malformed)
    else
      var (field, b1) :- Lift(PullBytes(b0, 4));
      var version := FromBytes(field);
      if version == 0 then Err(Malformed)
      else
        var (destination, b2) :- PullCid(b1);
        var (source, b3) :- PullCid(b2);
        if |destination| > MAX_CID_LENGTH || |source| > MAX_CID_LENGTH then Err(Malformed)
        else if version != QUIC_V1 then Err(UnsupportedVersion(version))
        else ParseRest(data, first, destination, source, b3)
  }

  /** The version 1 fields after the connection IDs. */
  function ParseRest(data: Bytes, first: Byte, destination: Bytes, source: Bytes, b3: Bytes)
    : (r: Result<LongHeader, HeaderError>)
    requires |b3| < |data|
    ensures r.Ok? ==> 0 < r.value.numberOffset <= |data|
  {
    var t := TypeOfBits((first / 16) % 4);
    if t == RetryPacket then Err(Malformed)
    else
      var (token, b4) :- PullToken(t, b3);
      var (length, b5) :- Lift(PullVarint(b4));
      Ok(LongHeader(t, QUIC_V1, destination, source, token, length, |data| - |b5|))
  }

  /** What the source's own headers satisfy. */
  predicate Buildable(t: Template, payloadLength: nat, width: nat) {
    && t.version < 0x1_0000_0000 && |t.destination| <= MAX_CID_LENGTH && |t.source| <= MAX_CID_LENGTH
    && |t.token| <= VARINT_MAX && 1 <= width <= 4 && width + payloadLength <= VARINT_MAX
  }

  function TokenPart(t: Template): Bytes
    requires |t.token| <= VARINT_MAX
  {
    if t.packetType == InitialPacket then Varint(|t.token|) + t.token else []
  }

  function CidPart(cid: Bytes): Bytes
    requires |cid| <= MAX_CID_LENGTH
  {
    [|cid|] + cid
  }

  function FirstByte(t: Template, width: nat): Byte
    requires 1 <= width <= 4
  {
    192 + 16 * TypeBits(t.packetType) + (width - 1)
  }

  /** Everything between the first byte and the packet number. */
  function Fields(t: Template, payloadLength: nat, width: nat): Bytes
    requires Buildable(t, payloadLength, width)
  {
    ToBytes(t.version, 4)
      + (CidPart(t.destination) + (CidPart(t.source) + (TokenPart(t) + Varint(width + payloadLength))))
  }

  /** `build_long_header`, ending with the truncated packet number. */
  function BuildLong(t: Template, payloadLength: nat, number: nat, width: nat): (r: Bytes)
    requires Buildable(t, payloadLength, width)
    ensures IsHeader(r)
  {
    [FirstByte(t, width)] + Fields(t, payloadLength, width) + ToBytes(number, 8)[8 - width..]
  }

  // ------------------------------------------------------------------ round trip

  lemma CidRoundTrip(cid: Bytes, rest: Bytes)
    requires |cid| <= MAX_CID_LENGTH
    ensures PullCid(CidPart(cid) + rest) == Ok((cid, rest))
  {
    var b := CidPart(cid) + rest;
    assert b[0] == |cid| && b[1..] == cid + rest;
    PullSplit(cid, rest);
  }

  lemma TokenRoundTrip(t: Template, rest: Bytes)
    requires |t.token| <= VARINT_MAX
    ensures PullToken(t.packetType, TokenPart(t) + rest)
         == Ok((if t.packetType == InitialPacket then t.token else [], rest))
  {
    if t.packetType == InitialPacket {
      Assoc(Varint(|t.token|), t.token, rest);
      VarintRoundTrip(|t.token|, t.token + rest);
      PullSplit(t.token, rest);
    } else {
      assert TokenPart(t) + rest == rest;
    }
  }

  lemma VersionRoundTrip(v: nat, rest: Bytes)
    requires v < 0x1_0000_0000
    ensures PullBytes(ToBytes(v, 4) + rest, 4) == Ok((ToBytes(v, 4), rest)) && FromBytes(ToBytes(v, 4)) == v
  {
    hide ToBytes, Fold;
    PullSplit(ToBytes(v, 4), rest);
    LowValue(v, 4);
  }

  lemma CidsRoundTrip(t: Template, rest: Bytes)
    requires |t.destination| <= MAX_CID_LENGTH && |t.source| <= MAX_CID_LENGTH
    ensures PullCid(CidPart(t.destination) + (CidPart(t.source) + rest))
         == Ok((t.destination, CidPart(t.source) + rest))
    ensures PullCid(CidPart(t.source) + rest) == Ok((t.source, rest))
  {
    CidRoundTrip(t.destination, CidPart(t.source) + rest);
    CidRoundTrip(t.source, rest);
  }

  lemma FieldsAssociate(t: Template, payloadLength: nat, width: nat, tail: Bytes)
    requires Buildable(t, payloadLength, width)
    ensures Fields(t, payloadLength, width) + tail
         == ToBytes(t.version, 4) + (CidPart(t.destination) + (CidPart(t.source)
            + (TokenPart(t) + (Varint(width + payloadLength) + tail))))
  {
    hide ToBytes, Varint, CidPart, TokenPart;
    var l := Varint(width + payloadLength);
    Assoc(TokenPart(t), l, tail);
    Assoc(CidPart(t.source), TokenPart(t) + l, tail);
    Assoc(CidPart(t.destination), CidPart(t.source) + (TokenPart(t) + l), tail);
    Assoc(ToBytes(t.version, 4), CidPart(t.destination) + (CidPart(t.source) + (TokenPart(t) + l)), tail);
  }

  /** The header of the template, as the parser should report it. */
  function Reported(t: Template, payloadLength: nat, width: nat): LongHeader
    requires Buildable(t, payloadLength, width)
  {
    LongHeader(t.packetType, t.version, t.destination, t.source,
               if t.packetType == InitialPacket then t.token else [],
               width + payloadLength, 1 + |Fields(t, payloadLength, width)|)
  }

  /** Parsing depends neither on the masked bits of the first byte nor on anything
      from the packet number on. */
  lemma ParseFields(t: Template, payloadLength: nat, width: nat, first: Byte, tail: Bytes)
    requires Buildable(t, payloadLength, width) && first / 16 == FirstByte(t, width) / 16
    requires t.version == QUIC_V1 && t.packetType != RetryPacket
    ensures ParseLong([first] + (Fields(t, payloadLength, width) + tail)) == Ok(Reported(t, payloadLength, width))
  {
    hide ToBytes, Fold, Varint, CidPart, TokenPart, Fields, PullVarint, PullBytes, PullToken, PullCid;
    var length := Varint(width + payloadLength);
    var b4 := length + tail;
    var b3 := TokenPart(t) + b4;
    var b2 := CidPart(t.source) + b3;
    var b1 := CidPart(t.destination) + b2;
    var b0 := ToBytes(t.version, 4) + b1;
    FieldsAssociate(t, payloadLength, width, tail);
    var data := [first] + b0;
    assert data[0] == first && data[1..] == b0;
    VersionRoundTrip(t.version, b1);
    CidsRoundTrip(t, b3);
    TokenRoundTrip(t, b4);
    VarintRoundTrip(width + payloadLength, tail);
    assert |data| - |tail| == 1 + |Fields(t, payloadLength, width)|;
  }

  /** A version other than 1 is refused by its number, whatever follows the
      connection IDs. */
  lemma OtherVersionRefused(t: Template, first: Byte, tail: Bytes)
    requires first >= 192 && 0 < t.version < 0x1_0000_0000 && t.version != QUIC_V1
    requires |t.destination| <= MAX_CID_LENGTH && |t.source| <= MAX_CID_LENGTH
    ensures ParseLong([first] + (ToBytes(t.version, 4) + (CidPart(t.destination) + (CidPart(t.source) + tail))))
         == Err(UnsupportedVersion(t.version))
  {
    hide ToBytes, Fold, CidPart, PullBytes, PullCid;
    var b1 := CidPart(t.destination) + (CidPart(t.source) + tail);
    var data := [first] + (ToBytes(t.version, 4) + b1);
    assert data[0] == first && data[1..] == ToBytes(t.version, 4) + b1;
    VersionRoundTrip(t.version, b1);
    CidsRoundTrip(t, tail);
  }

  /** The first byte of a 1-RTT packet. */
  function ShortFirstByte(keyPhase: bool, width: nat): Byte
    requires 1 <= width <= 4
  {
    64 + (if keyPhase then 4 else 0) + (width - 1)
  }

  /** Both kinds of header the connection builds end in the number they carry, and
      the short one announces the key phase. */
  lemma BuiltHeadersCarry(t: Template, payloadLength: nat, cid: Bytes, keyPhase: bool, number: nat)
    requires Buildable(t, payloadLength, |EncodeNumber(number, None)|)
    ensures Carries(BuildLong(t, payloadLength, number, |EncodeNumber(number, None)|), number)
    ensures var header := [ShortFirstByte(keyPhase, |EncodeNumber(number, None)|)] + cid + EncodeNumber(number, None);
            Carries(header, number) && ((header[0] / 4) % 2 == 1 <==> keyPhase)
  {
    hide ToBytes, Fields;
    var width := |EncodeNumber(number, None)|;
    var long := BuildLong(t, payloadLength, number, width);
    assert long[0] % 4 + 1 == width;
    assert long[|long| - width..] == ToBytes(number, 8)[8 - width..];
    var short := [ShortFirstByte(keyPhase, width)] + cid + EncodeNumber(number, None);
    assert short[0] % 4 + 1 == width;
    assert short[|short| - width..] == EncodeNumber(number, None);
  }

  // ----------------------------------------------------------------- datagrams

  /** One packet found in a datagram: where its number starts, and its bytes. */
  datatype Located = Located(numberOffset: nat, packet: Bytes)

  /** `_locate_packet` and how far it advances; None ends the datagram.  A short
      header packet runs to the end. */
  function Locate(isClient: bool, cidLength: nat, data: Bytes): (r: Option<(Located, nat)>)
    requires data != []
    ensures r.Some? ==> r.value.1 > 0
  {
    if data[0] < 128 then
      if (data[0] / 64) % 2 == 0 || |data| < 1 + cidLength then None
      else Some((Located(1 + cidLength, data), |data|))
    else
      var h := ParseLong(data);
      if h.Err? || (isClient && h.value.packetType == ZeroRttPacket) then None
      else
        var end := h.value.numberOffset + h.value.length;
        Some((Located(h.value.numberOffset, if end < |data| then data[..end] else data), end))
  }

  /** The packets of a datagram in order: the loop of `datagram_received`. */
  function Split(isClient: bool, cidLength: nat, data: Bytes): seq<Located>
    decreases |data|
  {
    if data == [] then []
    else
      var found := Locate(isClient, cidLength, data);
      if found.None? then []
      else if found.value.1 >= |data| then [found.value.0]
      else [found.value.0] + Split(isClient, cidLength, data[found.value.1..])
  }

  method SplitLoop(isClient: bool, cidLength: nat, data: Bytes) returns (packets: seq<Located>)
    ensures packets == Split(isClient, cidLength, data)
  {
    hide Locate;
    packets := [];
    var offset := 0;
    assert data[0..] == data;
    while offset < |data|
      invariant 0 <= offset
      invariant Split(isClient, cidLength, data)
             == packets + (if offset < |data| then Split(isClient, cidLength, data[offset..]) else [])
    {
      var found := Locate(isClient, cidLength, data[offset..]);
      if found.None? {
        return;
      }
      packets := packets + [found.value.0];
      if offset + found.value.1 < |data| {
        assert data[offset..][found.value.1..] == data[offset + found.value.1..];
      }
      offset := offset + found.value.1;
    }
  }

  /** A packet that tells where it ends, whatever is coalesced behind it. */
  ghost predicate SelfDelimiting(isClient: bool, p: Located) {
    && p.packet != [] && p.packet[0] >= 128
    && forall rest: Bytes :: DelimitedBefore(isClient, p, rest)
  }

  predicate DelimitedBefore(isClient: bool, p: Located, rest: Bytes) {
    var h := ParseLong(p.packet + rest);
    && h.Ok? && !(isClient && h.value.packetType == ZeroRttPacket)
    && h.value.numberOffset == p.numberOffset && h.value.numberOffset + h.value.length == |p.packet|
  }

  /** Every long packet the sender protects is self-delimiting. */
  lemma ProtectedPacketDelimits(isClient: bool, mask: Bytes -> Mask, t: Template, number: nat, width: nat,
                                ciphertext: Bytes)
    requires Buildable(t, |ciphertext|, width) && |ciphertext| >= SAMPLE_LENGTH + MAX_PN_LENGTH - width
    requires t.version == QUIC_V1 && t.packetType != RetryPacket
    requires !(isClient && t.packetType == ZeroRttPacket)
    ensures var header := BuildLong(t, |ciphertext|, number, width);
            SelfDelimiting(isClient, Located(FieldOffset(header), ProtectHeader(mask, header, ciphertext)))
  {
    hide ToBytes, Fields, Xor, XorAll, ParseLong;
    var header := BuildLong(t, |ciphertext|, number, width);
    var p := Located(FieldOffset(header), ProtectHeader(mask, header, ciphertext));
    var m := mask(Sample(header, ciphertext));
    var first := Xor(header[0], FirstMask(header[0], m));
    XorKeepsForm(header[0], FirstMask(header[0], m));
    var at := FieldOffset(header);
    assert header[1..at] == Fields(t, |ciphertext|, width);
    forall rest: Bytes ensures DelimitedBefore(isClient, p, rest) {
      var tail := XorAll(header[at..], m[1..]) + (ciphertext + rest);
      assert p.packet + rest == [first] + (Fields(t, |ciphertext|, width) + tail);
      ParseFields(t, |ciphertext|, width, first, tail);
    }
  }

  function Coalesce(ps: seq<Located>): Bytes {
    if ps == [] then [] else ps[0].packet + Coalesce(ps[1..])
  }

  lemma LocateFirst(isClient: bool, cidLength: nat, p: Located, rest: Bytes)
    requires SelfDelimiting(isClient, p)
    ensures p.packet != [] && Locate(isClient, cidLength, p.packet + rest) == Some((p, |p.packet|))
  {
    hide ParseLong;
    assert DelimitedBefore(isClient, p, rest);
    assert (p.packet + rest)[0] == p.packet[0];
    assert (p.packet + rest)[..|p.packet|] == p.packet;
    assert rest == [] ==> p.packet + rest == p.packet;
  }

  /** Packets coalesced into one datagram are found again exactly, in order, with a
      short header packet allowed last. */
  lemma {:induction false} CoalescedPacketsSeparate(isClient: bool, cidLength: nat, ps: seq<Located>, last: Bytes)
    requires forall k :: 0 <= k < |ps| ==> SelfDelimiting(isClient, ps[k])
    requires last == [] || (64 <= last[0] < 128 && |last| >= 1 + cidLength)
    ensures Split(isClient, cidLength, Coalesce(ps) + last)
         == ps + (if last == [] then [] else [Located(1 + cidLength, last)])
    decreases |ps|
  {
    hide Locate, SelfDelimiting;
    if ps == [] {
      assert Coalesce(ps) + last == last;
      ShortLast(isClient, cidLength, last);
    } else {
      var rest := Coalesce(ps[1..]) + last;
      assert Coalesce(ps) + last == ps[0].packet + rest;
      LocateFirst(isClient, cidLength, ps[0], rest);
      CoalescedPacketsSeparate(isClient, cidLength, ps[1..], last);
      SplitFirst(isClient, cidLength, ps[0], rest);
      assert ps == [ps[0]] + ps[1..];
    }
  }

  lemma ShortLast(isClient: bool, cidLength: nat, last: Bytes)
    requires last == [] || (64 <= last[0] < 128 && |last| >= 1 + cidLength)
    ensures Split(isClient, cidLength, last) == if last == [] then [] else [Located(1 + cidLength, last)]
  {
  }

  lemma SplitFirst(isClient: bool, cidLength: nat, p: Located, rest: Bytes)
    requires p.packet != [] && Locate(isClient, cidLength, p.packet + rest) == Some((p, |p.packet|))
    ensures Split(isClient, cidLength, p.packet + rest) == [p] + Split(isClient, cidLength, rest)
  {
    hide Locate;
    assert (p.packet + rest)[|p.packet|..] == rest;
  }
}
