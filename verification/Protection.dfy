/** Packet protection (src/dsquic/protection.py; sections 5.3 and 5.4 of RFC 9001).
    The ciphers are parameters: a mask function of the sample, and a pair of
    functions that seal and open a payload. */
module Protection {
  import opened Options
  import opened Buffers
  import opened PacketNumbers

  const SAMPLE_LENGTH := 16
  const MAX_PN_LENGTH := 4
  const TAG_LENGTH := 16

  // --------------------------------------------------------------- exclusive or

  /** Exclusive or of the low `bits` bits. */
  function XorBits(a: nat, b: nat, bits: nat): nat {
    if bits == 0 then 0 else 2 * XorBits(a / 2, b / 2, bits - 1) + (a % 2 + b % 2) % 2
  }

  function Xor(a: Byte, b: Byte): Byte {
    XorByteBound(a, b);
    XorBits(a, b, 8)
  }

  lemma {:induction false} XorBound(a: nat, b: nat, bits: nat)
    ensures XorBits(a, b, bits) < Power(bits)
    decreases bits
  {
    if bits > 0 { XorBound(a / 2, b / 2, bits - 1); }
  }

  lemma XorByteBound(a: nat, b: nat)
    ensures XorBits(a, b, 8) < 256
  {
    XorBound(a, b, 8);
    assert Power(4) == 16;
  }

  lemma {:induction false} XorUndoes(a: nat, b: nat, bits: nat)
    requires a < Power(bits)
    ensures XorBits(XorBits(a, b, bits), b, bits) == a
    decreases bits
  {
    if bits > 0 {
      XorUndoes(a / 2, b / 2, bits - 1);
      var x := XorBits(a, b, bits);
      XorStep(a, b, bits);
      XorStep(x, b, bits);
    }
  }

  /** Bit by bit: the rest, and the lowest bit. */
  lemma XorStep(a: nat, b: nat, bits: nat)
    requires bits > 0
    ensures XorBits(a, b, bits) / 2 == XorBits(a / 2, b / 2, bits - 1)
    ensures XorBits(a, b, bits) % 2 == (a % 2 + b % 2) % 2
  {
  }

  /** Masking twice with the same byte restores the byte. */
  lemma XorInvolution(a: Byte, b: Byte)
    ensures Xor(Xor(a, b), b) == a
  {
    assert Power(4) == 16 && Power(8) == 256;
    XorUndoes(a, b, 8);
  }

  function Halve(a: nat, k: nat): nat { if k == 0 then a else Halve(a / 2, k - 1) }

  lemma {:induction false} XorKeepsHigh(a: nat, b: nat, bits: nat, k: nat)
    requires k <= bits && a < Power(bits) && Halve(b, k) == 0
    ensures Halve(XorBits(a, b, bits), k) == Halve(a, k)
    decreases bits
  {
    if bits > 0 {
      XorStep(a, b, bits);
      XorKeepsHigh(a / 2, b / 2, bits - 1, if k > 0 then k - 1 else 0);
    }
  }

  /** The header form bit is never masked, nor are a long header's type bits. */
  lemma XorKeepsForm(a: Byte, b: Byte)
    ensures b < 32 ==> Xor(a, b) / 32 == a / 32
    ensures b < 16 ==> Xor(a, b) / 16 == a / 16
  {
    assert Power(4) == 16 && Power(8) == 256;
    HalveIsDivision(b);
    HalveIsDivision(a);
    HalveIsDivision(Xor(a, b));
    if b < 32 { XorKeepsHigh(a, b, 8, 5); }
    if b < 16 { XorKeepsHigh(a, b, 8, 4); }
  }

  lemma HalveIsDivision(a: nat)
    ensures Halve(a, 4) == a / 16 && Halve(a, 5) == a / 32
  {
    assert Halve(a, 5) == Halve(a / 2, 4) == Halve(a / 2 / 2, 3) == Halve(a / 2 / 2 / 2, 2);
    assert Halve(a, 4) == Halve(a / 2, 3) == Halve(a / 2 / 2, 2) == Halve(a / 2 / 2 / 2, 1);
    var b := a / 2 / 2 / 2;
    assert Halve(b, 1) == b / 2;
    assert Halve(b, 2) == Halve(b / 2, 1) == Halve(b / 2 / 2, 0) == b / 2 / 2;
  }

  function XorAll(a: Bytes, m: Bytes): (r: Bytes)
    requires |a| <= |m|
    ensures |r| == |a|
  {
    if a == [] then [] else [Xor(a[0], m[0])] + XorAll(a[1..], m[1..])
  }

  lemma {:induction false} XorAllInvolution(a: Bytes, m: Bytes)
    requires |a| <= |m|
    ensures XorAll(XorAll(a, m), m) == a
    decreases |a|
  {
    if a != [] {
      XorInvolution(a[0], m[0]);
      XorAllInvolution(a[1..], m[1..]);
      var r := XorAll(a, m);
      assert r[0] == Xor(a[0], m[0]) && r[1..] == XorAll(a[1..], m[1..]);
    }
  }

  // ---------------------------------------------------------- header protection

  /** Five mask bytes, from the header protection cipher. */
  type Mask = m: Bytes | |m| == 5 witness [0, 0, 0, 0, 0]

  function FieldBytes(first: Byte): (n: nat)
    ensures 1 <= n <= 4
  {
    first % 4 + 1
  }

  /** Which bits of the first byte are masked depends on the header form. */
  function FirstMask(first: Byte, m: Mask): Byte {
    if first >= 128 then m[0] % 16 else m[0] % 32
  }

  predicate IsHeader(header: Bytes) { header != [] && |header| >= 1 + FieldBytes(header[0]) }

  function FieldOffset(header: Bytes): nat
    requires IsHeader(header)
  {
    |header| - FieldBytes(header[0])
  }

  function MaskHeader(header: Bytes, m: Mask): (r: Bytes)
    requires IsHeader(header)
    ensures |r| == |header|
  {
    var at := FieldOffset(header);
    [Xor(header[0], FirstMask(header[0], m))] + header[1..at] + XorAll(header[at..], m[1..])
  }

  /** What is sampled depends on the field width so that both ends sample the same
      bytes: as though the field were four bytes wide. */
  function Sample(header: Bytes, ciphertext: Bytes): Bytes
    requires IsHeader(header) && |ciphertext| >= SAMPLE_LENGTH + MAX_PN_LENGTH - FieldBytes(header[0])
  {
    var at := MAX_PN_LENGTH - FieldBytes(header[0]);
    ciphertext[at..at + SAMPLE_LENGTH]
  }

  function ProtectHeader(mask: Bytes -> Mask, header: Bytes, ciphertext: Bytes): Bytes
    requires IsHeader(header) && |ciphertext| >= SAMPLE_LENGTH + MAX_PN_LENGTH - FieldBytes(header[0])
  {
    MaskHeader(header, mask(Sample(header, ciphertext))) + ciphertext
  }

  /** The masking loop of `protect`, in place on the packet's bytes. */
  method MaskInPlace(packet: array<Byte>, header: Bytes, ciphertext: Bytes, m: Mask)
    requires IsHeader(header) && packet[..] == header + ciphertext
    modifies packet
    ensures packet[..] == MaskHeader(header, m) + ciphertext
  {
    hide Xor, MaskHeader;
    var width := FieldBytes(header[0]);
    var at := |header| - width;
    var first := if header[0] >= 128 then m[0] % 16 else m[0] % 32;
    ghost var all := packet[..];
    packet[0] := Xor(packet[0], first);
    var i := 0;
    while i < width
      invariant 0 <= i <= width
      invariant packet[0] == Xor(header[0], first)
      invariant forall k :: 1 <= k < packet.Length && !(at <= k < at + i) ==> packet[k] == all[k]
      invariant forall k :: at <= k < at + i ==> packet[k] == Xor(header[k], m[1 + k - at])
    {
      packet[at + i] := Xor(packet[at + i], m[1 + i]);
      i := i + 1;
    }
    MaskedAt(header, m);
  }

  lemma {:induction false} XorAllAt(a: Bytes, m: Bytes, k: nat)
    requires |a| <= |m| && k < |a|
    ensures XorAll(a, m)[k] == Xor(a[k], m[k])
    decreases |a|
  {
    if k > 0 { XorAllAt(a[1..], m[1..], k - 1); }
  }

  lemma MaskedAt(header: Bytes, m: Mask)
    requires IsHeader(header)
    ensures var r, at := MaskHeader(header, m), FieldOffset(header);
            && r[0] == Xor(header[0], FirstMask(header[0], m))
            && (forall k :: 1 <= k < at ==> r[k] == header[k])
            && (forall k :: at <= k < |header| ==> r[k] == Xor(header[k], m[1 + k - at]))
  {
    var at := FieldOffset(header);
    forall k | at <= k < |header| ensures MaskHeader(header, m)[k] == Xor(header[k], m[1 + k - at]) {
      XorAllAt(header[at..], m[1..], k - at);
    }
  }

  datatype Unprotected = Unprotected(number: int, keyPhase: bool, header: Bytes, ciphertext: Bytes)

  /** `remove_header_protection`; None where the packet is too short to sample. */
  function Unprotect(mask: Bytes -> Mask, packet: Bytes, at: nat, largest: int): Option<Unprotected>
    requires 1 <= at
  {
    if |packet| < at + MAX_PN_LENGTH + SAMPLE_LENGTH then None
    else
      var m := mask(packet[at + MAX_PN_LENGTH..at + MAX_PN_LENGTH + SAMPLE_LENGTH]);
      var first := Xor(packet[0], FirstMask(packet[0], m));
      var width := FieldBytes(first);
      var field := XorAll(packet[at..at + width], m[1..]);
      Some(Unprotected(DecodeNumber(largest, FromBytes(field), width), (first / 4) % 2 == 1,
                       [first] + packet[1..at] + field, packet[at + width..]))
  }

  /** Masking leaves the header form, so the receiver computes the same first mask
      and undoes it. */
  lemma FirstByteRestored(first: Byte, m: Mask)
    ensures var masked := Xor(first, FirstMask(first, m));
            FirstMask(masked, m) == FirstMask(first, m) && Xor(masked, FirstMask(masked, m)) == first
  {
    hide Xor;
    XorKeepsForm(first, FirstMask(first, m));
    XorInvolution(first, FirstMask(first, m));
  }

  /** For any mask function, removing header protection from what `protect` produced
      restores the header, the key phase and the ciphertext, and decodes the packet
      number from the field that was sent. */
  lemma HeaderProtectionRoundTrip(mask: Bytes -> Mask, header: Bytes, ciphertext: Bytes, largest: int)
    requires IsHeader(header) && |ciphertext| >= SAMPLE_LENGTH + MAX_PN_LENGTH - FieldBytes(header[0])
    ensures var width := FieldBytes(header[0]);
            Unprotect(mask, ProtectHeader(mask, header, ciphertext), FieldOffset(header), largest)
              == Some(Unprotected(DecodeNumber(largest, FromBytes(header[FieldOffset(header)..]), width),
                                  (header[0] / 4) % 2 == 1, header, ciphertext))
  {
    hide Xor, XorAll, FirstMask, DecodeNumber, Fold;
    var at, width := FieldOffset(header), FieldBytes(header[0]);
    var m := mask(Sample(header, ciphertext));
    var field := header[at..];
    var packet := ProtectHeader(mask, header, ciphertext);
    FirstByteRestored(header[0], m);
    XorAllInvolution(field, m[1..]);
    assert packet[at + MAX_PN_LENGTH..at + MAX_PN_LENGTH + SAMPLE_LENGTH] == Sample(header, ciphertext);
    assert packet[at..at + width] == XorAll(field, m[1..]);
    assert packet[1..at] == header[1..at];
    assert packet[at + width..] == ciphertext;
    assert [header[0]] + header[1..at] + field == header;
  }

  // ------------------------------------------------------------- whole packets

  /** The AEAD nonce: the IV masked with the left-padded packet number. */
  function Nonce(iv: Bytes, number: nat): Bytes { XorAll(iv, ToBytes(number, |iv|)) }

  lemma {:induction false} XorAllInjective(iv: Bytes, a: Bytes, b: Bytes)
    requires |iv| == |a| == |b| && XorAll(iv, a) == XorAll(iv, b)
    ensures a == b
    decreases |iv|
  {
    if iv != [] {
      var r, s := XorAll(iv, a), XorAll(iv, b);
      assert r[0] == Xor(iv[0], a[0]) && s[0] == Xor(iv[0], b[0]);
      assert r[1..] == XorAll(iv[1..], a[1..]) && s[1..] == XorAll(iv[1..], b[1..]);
      XorAllInjective(iv[1..], a[1..], b[1..]);
      XorCommutes(iv[0], a[0], 8);
      XorCommutes(iv[0], b[0], 8);
      XorInvolution(a[0], iv[0]);
      XorInvolution(b[0], iv[0]);
      assert a == [a[0]] + a[1..] && b == [b[0]] + b[1..];
    }
  }

  lemma {:induction false} XorCommutes(a: nat, b: nat, bits: nat)
    ensures XorBits(a, b, bits) == XorBits(b, a, bits)
    decreases bits
  {
    if bits > 0 { XorCommutes(a / 2, b / 2, bits - 1); }
  }

  /** Under one key no two packet numbers share a nonce. */
  lemma NoncesAreDistinct(iv: Bytes, a: nat, b: nat)
    requires |iv| == 12 && a < NUMBER_LIMIT && b < NUMBER_LIMIT && Nonce(iv, a) == Nonce(iv, b)
    ensures a == b
  {
    hide Fold, ToBytes, XorAll, Shift;
    XorAllInjective(iv, ToBytes(a, 12), ToBytes(b, 12));
    FoldToBytes(a, 12);
    FoldToBytes(b, 12);
    SmallShift(a);
    SmallShift(b);
  }

  lemma SmallShift(a: nat)
    requires a < NUMBER_LIMIT
    ensures Shift(a, 12) == 0
  {
    ScaleDigits();
    assert Scale(64, 8) == 256 * Scale(64, 7);
    assert Scale(1, 4) == 0x1_0000_0000 by { ScaleValue(1, 4); }
    GrowingScale(1, 4);
    ShiftBound(a, 1, 12);
  }

  lemma GrowingScale(v: nat, n: nat)
    requires Scale(v, n) >= 0x1_0000_0000
    ensures Scale(v, n + 8) >= 0x1_0000_0000_0000_0000
  {
    assert Scale(v, n + 1) == 256 * Scale(v, n) && Scale(v, n + 2) == 256 * Scale(v, n + 1);
    assert Scale(v, n + 3) == 256 * Scale(v, n + 2) && Scale(v, n + 4) == 256 * Scale(v, n + 3);
    assert Scale(v, n + 5) == 256 * Scale(v, n + 4) && Scale(v, n + 6) == 256 * Scale(v, n + 5);
    assert Scale(v, n + 7) == 256 * Scale(v, n + 6) && Scale(v, n + 8) == 256 * Scale(v, n + 7);
  }

  /** Keys of one direction: the IV, the mask function and the sealing pair. */
  datatype Keys = Keys(
    iv: Bytes, mask: Bytes -> Mask,
    seal: (Bytes, Bytes, Bytes) -> Bytes,            // nonce, payload, header
    open: (Bytes, Bytes, Bytes) -> Option<Bytes>)    // nonce, ciphertext, header

  /** Opening undoes sealing under the same nonce and header; the tag adds 16 bytes. */
  ghost predicate Ideal(keys: Keys) {
    && (forall nonce, payload, header ::
          keys.open(nonce, keys.seal(nonce, payload, header), header) == Some(payload))
    && (forall nonce, payload, header :: |keys.seal(nonce, payload, header)| == |payload| + TAG_LENGTH)
  }

  /** `protect`: seal under the full number, then mask the header. */
  function Protect(keys: Keys, header: Bytes, payload: Bytes, number: nat): Option<Bytes>
    requires IsHeader(header)
  {
    var ciphertext := keys.seal(Nonce(keys.iv, number), payload, header);
    if |ciphertext| < SAMPLE_LENGTH + MAX_PN_LENGTH - FieldBytes(header[0]) then None
    else Some(ProtectHeader(keys.mask, header, ciphertext))
  }

  function Decrypt(keys: Keys, u: Unprotected): Option<Bytes> {
    if u.number < 0 then None else keys.open(Nonce(keys.iv, u.number), u.ciphertext, u.header)
  }

  function Padded(payload: Bytes): (r: Bytes)
    ensures |r| >= MAX_PN_LENGTH
  {
    if |payload| < MAX_PN_LENGTH then payload + seq(MAX_PN_LENGTH - |payload|, i => 0) else payload
  }

  /** A packet built by the sender: a header that ends in the encoded number. */
  ghost predicate Carries(header: Bytes, number: nat) {
    && IsHeader(header)
    && header[FieldOffset(header)..] == EncodeNumber(number, None)
  }

  /** Whole packets: the sender's padding always makes the packet long enough to
      sample; the receiver gets back header, key phase and ciphertext, and it gets
      back the number, hence the payload, exactly where the decoder recovers it. */
  lemma PacketRoundTrip(keys: Keys, header: Bytes, payload: Bytes, number: nat, largest: int)
    requires Ideal(keys) && Carries(header, number)
    requires number < NUMBER_LIMIT && -1 <= largest
    ensures var packet := Protect(keys, header, Padded(payload), number);
            && packet.Some?
            && var u := Unprotect(keys.mask, packet.value, FieldOffset(header), largest);
               && u.Some? && u.value.header == header
               && u.value.keyPhase == ((header[0] / 4) % 2 == 1)
               && (u.value.number == number <==> Recoverable(largest, number, FieldBytes(header[0])))
               && (u.value.number == number ==> Decrypt(keys, u.value) == Some(Padded(payload)))
  {
    hide Unprotect, ProtectHeader, Nonce, DecodeNumber, EncodeNumber, Fold;
    var sealed := keys.seal(Nonce(keys.iv, number), Padded(payload), header);
    HeaderProtectionRoundTrip(keys.mask, header, sealed, largest);
    SendersNumberIsRecovered(number, largest);
  }

  /** `protect` as the source runs it, masking a byte array. */
  method ProtectPacket(keys: Keys, header: Bytes, payload: Bytes, number: nat) returns (r: Option<Bytes>)
    requires IsHeader(header)
    ensures r == Protect(keys, header, payload, number)
  {
    hide MaskHeader, Nonce;
    var width := FieldBytes(header[0]);
    var ciphertext := keys.seal(Nonce(keys.iv, number), payload, header);
    if |ciphertext| < SAMPLE_LENGTH + MAX_PN_LENGTH - width {
      return None;
    }
    var at := MAX_PN_LENGTH - width;
    var m := keys.mask(ciphertext[at..at + SAMPLE_LENGTH]);
    var all := header + ciphertext;
    var packet := new Byte[|all|](i requires 0 <= i < |all| => all[i]);
    assert packet[..] == all;
    MaskInPlace(packet, header, ciphertext, m);
    return Some(packet[..]);
  }
}
