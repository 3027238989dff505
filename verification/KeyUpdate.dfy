/** 1-RTT key update (src/dsquic/connection.py, `_decrypt` to `initiate_key_update`;
    section 6 of RFC 9001).

    Secrets and keys are named by their generation: deriving the next generation
    adds one, and the ideal AEAD opens a packet only under the generation and
    packet number it was sealed with.  Two endpoints and a network that keeps
    every packet ever emitted, and may deliver any of them at any time, make up
    the system whose runs the theorems at the end speak about. */
module KeyUpdate {
  import opened Options

  // -------------------------------------------------------- one endpoint's keys

  datatype Keys = Keys(
    send: nat, secretSend: nat,
    recv: nat, recvNext: nat, secretRecvNext: nat,
    recvPrevious: Option<nat>, previousExpiry: real,
    phase: bool,
    phaseFirst: Option<int>,   // lowest packet number received in this phase
    phaseSendFirst: nat        // first packet number sent in this phase
  )

  /** `next_generation`: the secret and keys derived from a secret. */
  function NextGeneration(secret: nat): nat { secret + 1 }

  function InitialKeys(): Keys {
    Keys(0, 0, 0, 1, 1, None, 0.0, false, Some(0), 0)
  }

  /** `_receive_keys`: the generation to try, and whether it means an update. */
  function ReceiveKeys(k: Keys, confirmed: bool, pn: int, phase: bool, now: real): (nat, bool) {
    if phase == k.phase then (k.recv, false)
    else if k.phaseFirst.None? || pn < k.phaseFirst.value then
      if k.recvPrevious.None? || now > k.previousExpiry then (k.recv, false)
      else (k.recvPrevious.value, false)
    else if !confirmed then (k.recv, false)
    else (k.recvNext, true)
  }

  /** `_rotate_keys`: both directions advance together. */
  function Rotate(k: Keys, nextPn: nat, now: real, pto: real): Keys {
    Keys(NextGeneration(k.secretSend), NextGeneration(k.secretSend),
         k.recvNext, NextGeneration(k.secretRecvNext), NextGeneration(k.secretRecvNext),
         Some(k.recv), now + 3.0 * pto,
         !k.phase, None, nextPn)
  }

  /** `_note_key_phase`: lower the boundary of the current phase. */
  function NotePhase(k: Keys, pn: int, phase: bool): Keys {
    if phase != k.phase then k
    else if k.phaseFirst.None? || pn < k.phaseFirst.value then k.(phaseFirst := Some(pn))
    else k
  }

  /** The mutable record of the source, proved against the functions above. */
  class KeySpace {
    var keysSend: nat
    var secretSend: nat
    var keysRecv: nat
    var keysRecvNext: nat
    var secretRecvNext: nat
    var keysRecvPrevious: Option<nat>
    var keysRecvPreviousExpiry: real
    var keyPhase: bool
    var keyPhaseFirst: Option<int>
    var keyPhaseSendFirst: nat
    var nextPacketNumber: nat

    ghost function Model(): Keys
      reads this
    {
      Keys(keysSend, secretSend, keysRecv, keysRecvNext, secretRecvNext, keysRecvPrevious,
           keysRecvPreviousExpiry, keyPhase, keyPhaseFirst, keyPhaseSendFirst)
    }

    constructor ()
      ensures Model() == InitialKeys() && nextPacketNumber == 0
    {
      keysSend, secretSend, keysRecv := 0, 0, 0;
      keysRecvNext, secretRecvNext := 1, 1;
      keysRecvPrevious, keysRecvPreviousExpiry := None, 0.0;
      keyPhase, keyPhaseFirst, keyPhaseSendFirst := false, Some(0), 0;
      nextPacketNumber := 0;
    }

    method RotateKeys(now: real, pto: real)
      modifies this
      ensures Model() == Rotate(old(Model()), nextPacketNumber, now, pto)
      ensures nextPacketNumber == old(nextPacketNumber)
    {
      var currentSecret := secretRecvNext;
      keysRecvPrevious := Some(keysRecv);
      keysRecvPreviousExpiry := now + 3.0 * pto;
      keysRecv := keysRecvNext;
      secretRecvNext, keysRecvNext := NextGeneration(currentSecret), NextGeneration(currentSecret);
      secretSend, keysSend := NextGeneration(secretSend), NextGeneration(secretSend);
      keyPhase := !keyPhase;
      keyPhaseSendFirst := nextPacketNumber;
      keyPhaseFirst := None;
    }

    /** Key selection, ideal AEAD, and the updates that follow a packet that opens. */
    method Decrypt(confirmed: bool, packet: Packet, decoded: int, now: real, pto: real)
        returns (unsealed: bool)
      modifies this
      ensures unsealed == Opens(old(Model()), confirmed, packet, decoded, now)
      ensures Model() == (if unsealed
                          then AfterOpen(old(Model()), old(nextPacketNumber), confirmed, packet, decoded, now, pto)
                                    else old(Model()))
      ensures nextPacketNumber == old(nextPacketNumber)
    {
      var selected := ReceiveKeys(
        Keys(keysSend, secretSend, keysRecv, keysRecvNext, secretRecvNext, keysRecvPrevious,
             keysRecvPreviousExpiry, keyPhase, keyPhaseFirst, keyPhaseSendFirst),
        confirmed, decoded, packet.phase, now);
      if selected.0 != packet.generation || decoded != packet.pn {
        return false;
      }
      if selected.1 {
        RotateKeys(now, pto);
      }
      if packet.phase == keyPhase && (keyPhaseFirst.None? || decoded < keyPhaseFirst.value) {
        keyPhaseFirst := Some(decoded);
      }
      return true;
    }

    method InitiateKeyUpdate(confirmed: bool, largestAcked: int, now: real, pto: real) returns (started: bool)
      modifies this
      ensures started == (confirmed && largestAcked >= old(keyPhaseSendFirst))
      ensures Model() == (if started then Rotate(old(Model()), old(nextPacketNumber), now, pto) else old(Model()))
    {
      if !confirmed || largestAcked < keyPhaseSendFirst {
        return false;
      }
      RotateKeys(now, pto);
      return true;
    }
  }

  // ------------------------------------------------------------ the system

  /** One 1-RTT packet: what seals it, its number and phase bit, and the largest
      number its ACK frame reports, -1 when it carries none. */
  datatype Packet = Packet(generation: nat, pn: nat, phase: bool, ackLargest: int)

  /** `emitted[n]` is the packet sent with number n, so the next number is its length. */
  datatype Party = Party(
    keys: Keys, confirmed: bool, emitted: seq<Packet>,
    received: set<nat>, largestReceived: int, largestAcked: int, violated: bool)

  datatype System = System(left: Party, right: Party)

  predicate Opens(k: Keys, confirmed: bool, p: Packet, decoded: int, now: real) {
    ReceiveKeys(k, confirmed, decoded, p.phase, now).0 == p.generation && decoded == p.pn
  }

  function AfterOpen(k: Keys, nextPn: nat, confirmed: bool, p: Packet, decoded: int, now: real, pto: real): Keys {
    var updating := ReceiveKeys(k, confirmed, decoded, p.phase, now).1;
    NotePhase(if updating then Rotate(k, nextPn, now, pto) else k, decoded, p.phase)
  }

  function Send(x: Party, withAck: bool): Party {
    var ack := if withAck then x.largestReceived else -1;
    x.(emitted := x.emitted + [Packet(x.keys.send, |x.emitted|, x.keys.phase, ack)])
  }

  function Initiate(x: Party, now: real, pto: real): Party {
    if !x.confirmed || x.largestAcked < x.keys.phaseSendFirst then x
    else x.(keys := Rotate(x.keys, |x.emitted|, now, pto))
  }

  /** Delivery of packet `n` of the peer.  `decoded` is what the truncated number
      was taken for; `news` says whether its ACK newly acknowledges anything. */
  function Receive(x: Party, p: Packet, decoded: int, now: real, pto: real, news: bool): Party {
    if !Opens(x.keys, x.confirmed, p, decoded, now) then x
    else
      var unsealed := x.(keys := AfterOpen(x.keys, |x.emitted|, x.confirmed, p, decoded, now, pto));
      if p.pn in x.received then unsealed
      else
        var noted := Noted(unsealed, p.pn);
        if p.ackLargest < 0 then noted
        else if p.ackLargest >= |x.emitted| then noted.(violated := true)
        else if news && p.ackLargest > x.largestAcked then noted.(largestAcked := p.ackLargest)
        else noted
  }

  datatype Action =
    | ActSend(withAck: bool)
    | ActInitiate(now: real, pto: real)
    | ActConfirm
    | ActReceive(n: nat, decoded: int, now: real, pto: real, news: bool)

  function Act(x: Party, y: Party, a: Action): Party {
    match a
    case ActSend(withAck) => Send(x, withAck)
    case ActInitiate(now, pto) => Initiate(x, now, pto)
    case ActConfirm => x.(confirmed := true)
    case ActReceive(n, decoded, now, pto, news) =>
      if n < |y.emitted| then Receive(x, y.emitted[n], decoded, now, pto, news) else x
  }

  datatype Step = Step(onLeft: bool, action: Action)

  function Next(s: System, t: Step): System {
    if t.onLeft then s.(left := Act(s.left, s.right, t.action))
    else s.(right := Act(s.right, s.left, t.action))
  }

  function Run(s: System, steps: seq<Step>): System
    decreases |steps|
  {
    if steps == [] then s else Next(Run(s, steps[..|steps| - 1]), steps[|steps| - 1])
  }

  function Start(): System {
    var p := Party(InitialKeys(), false, [], {}, -1, -1, false);
    System(p, p)
  }

  // ---------------------------------------------------------- the invariant

  /** The phase bit of a generation. */
  predicate Odd(g: nat) { g != 0 && !Odd(g - 1) }

  /** The generations of one endpoint agree with each other and with its phase bit. */
  ghost predicate KeysOk(k: Keys) {
    && k.send == k.secretSend == k.recv
    && k.recvNext == k.secretRecvNext == k.recv + 1
    && k.phase == Odd(k.recv)
    && k.recvPrevious == (if k.recv == 0 then None else Some(k.recv - 1))
  }

  /** What an endpoint has emitted: numbers are positions, generations never go
      down, and those of the current phase start at `phaseSendFirst`. */
  ghost predicate EmittedOk(x: Party) {
    && x.keys.phaseSendFirst <= |x.emitted|
    && (forall n :: 0 <= n < |x.emitted| ==> PacketOk(x, n))
    && (forall m, n :: 0 <= m <= n < |x.emitted| ==> x.emitted[m].generation <= x.emitted[n].generation)
  }

  ghost predicate PacketOk(x: Party, n: int)
    requires 0 <= n < |x.emitted|
  {
    var p := x.emitted[n];
    && p.pn == n
    && p.phase == Odd(p.generation)
    && p.generation <= x.keys.send
    && (n >= x.keys.phaseSendFirst ==> p.generation == x.keys.send)
  }

  /** What `y` knows about what `x` emitted. */
  ghost predicate Heard(x: Party, y: Party) {
    && (forall n :: n in y.received ==> n < |x.emitted| && x.emitted[n].generation <= y.keys.recv)
    && (y.largestReceived == -1 || y.largestReceived in y.received)
    && (match y.keys.phaseFirst
        case None => forall n :: n in y.received && n < |x.emitted| ==> x.emitted[n].generation != y.keys.recv
        case Some(f) => && ((f == 0 && y.keys.recv == 0)
                            || (0 <= f < |x.emitted| && x.emitted[f].generation == y.keys.recv))
                        && (forall n :: n in y.received && n < |x.emitted| ==>
                              x.emitted[n].generation == y.keys.recv ==> f <= n))
  }

  /** Acknowledgements of `y` report only what `y` received. */
  ghost predicate AcksSound(x: Party, y: Party) {
    && (forall n :: 0 <= n < |y.emitted| ==> y.emitted[n].ackLargest < 0 || y.emitted[n].ackLargest in y.received)
    && (x.largestAcked == -1 || x.largestAcked in y.received)
    && !x.violated
  }

  /** `x` is at most one generation ahead, and not ahead at all while `y` has
      received nothing in its current phase. */
  ghost predicate Close(x: Party, y: Party) {
    && x.keys.recv <= y.keys.recv + 1
    && (y.keys.phaseFirst.None? ==> x.keys.recv <= y.keys.recv)
  }

  ghost predicate Towards(x: Party, y: Party) {
    KeysOk(x.keys) && EmittedOk(x) && Heard(x, y) && AcksSound(x, y) && Close(x, y)
  }

  ghost predicate Inv(x: Party, y: Party) { Towards(x, y) && Towards(y, x) }

  // ------------------------------------------------- key selection is exact

  /** For a packet of the peer, the selected generation is the packet's own
      exactly when it is the current one, the previous one before its expiry, or
      the next one once the handshake is confirmed; and an update is signalled
      exactly in that last case. */
  lemma SelectionIsExact(x: Party, y: Party, n: nat, now: real)
    requires Towards(x, y) && KeysOk(y.keys) && n < |x.emitted|
    ensures var p := x.emitted[n];
            var chosen := ReceiveKeys(y.keys, y.confirmed, p.pn, p.phase, now);
            && p.generation <= y.keys.recv + 1
            && (chosen.0 == p.generation <==>
                  || p.generation == y.keys.recv
                  || (p.generation + 1 == y.keys.recv && now <= y.keys.previousExpiry)
                  || (p.generation == y.keys.recv + 1 && y.confirmed))
            && (chosen.1 <==> p.generation == y.keys.recv + 1 && y.confirmed)
  {
    var p := x.emitted[n];
    assert PacketOk(x, n);
    var g := y.keys.recv;
    if p.generation == g + 1 {
      assert y.keys.phaseFirst.Some?;
      var f := y.keys.phaseFirst.value;
      assert 0 <= f < |x.emitted| && n <= f ==> x.emitted[n].generation <= x.emitted[f].generation;
    } else if p.phase != y.keys.phase && y.keys.phaseFirst.Some? {
      var f := y.keys.phaseFirst.value;
      assert 0 <= f <= n ==> x.emitted[f].generation <= x.emitted[n].generation;
    }
  }

  // -------------------------------------------------- preservation, by action

  lemma SendKeepsEmitted(x: Party, withAck: bool)
    requires KeysOk(x.keys) && EmittedOk(x)
    ensures EmittedOk(Send(x, withAck))
  {
    var z := Send(x, withAck);
    forall n | 0 <= n < |z.emitted| ensures PacketOk(z, n) {
      if n < |x.emitted| { assert PacketOk(x, n); }
    }
    forall m, n | 0 <= m <= n < |z.emitted| ensures z.emitted[m].generation <= z.emitted[n].generation {
      assert PacketOk(z, m);
    }
  }

  lemma SendKeeps(x: Party, y: Party, withAck: bool)
    requires Inv(x, y)
    ensures Inv(Send(x, withAck), y)
  {
    SendKeepsEmitted(x, withAck);
    var z := Send(x, withAck);
    assert forall n :: 0 <= n < |x.emitted| ==> z.emitted[n] == x.emitted[n];
    assert Heard(z, y);
    assert AcksSound(y, z);
  }

  /** The acknowledgement gate: a packet of the current phase that the peer
      acknowledged puts the peer in that phase with its boundary set. */
  lemma GateImpliesFollowed(x: Party, y: Party)
    requires Inv(x, y) && x.largestAcked >= x.keys.phaseSendFirst
    ensures x.keys.recv <= y.keys.recv
    ensures x.keys.recv == y.keys.recv ==> y.keys.phaseFirst.Some?
  {
    assert PacketOk(x, x.largestAcked);
  }

  lemma RotateKeeps(x: Party, y: Party, now: real, pto: real)
    requires Inv(x, y)
    requires x.keys.recv <= y.keys.recv
    requires x.keys.recv == y.keys.recv ==> y.keys.phaseFirst.Some?
    ensures Inv(x.(keys := Rotate(x.keys, |x.emitted|, now, pto)), y)
  {
    var z := x.(keys := Rotate(x.keys, |x.emitted|, now, pto));
    assert KeysOk(z.keys);
    assert EmittedOk(z) by {
      forall n | 0 <= n < |z.emitted| ensures PacketOk(z, n) { assert PacketOk(x, n); }
    }
    assert Heard(z, y) && Close(z, y) && AcksSound(z, y);
    assert Heard(y, z) && Close(y, z) && AcksSound(y, z);
  }

  lemma ReceiveKeeps(x: Party, y: Party, n: nat, decoded: int, now: real, pto: real, news: bool)
    requires Inv(x, y) && n < |y.emitted|
    ensures Inv(Receive(x, y.emitted[n], decoded, now, pto, news), y)
  {
    var p := y.emitted[n];
    if Opens(x.keys, x.confirmed, p, decoded, now) {
      assert PacketOk(y, n);
      SelectionIsExact(y, x, n, now);
      var rotated := x;
      if ReceiveKeys(x.keys, x.confirmed, decoded, p.phase, now).1 {
        RotateKeeps(x, y, now, pto);
        rotated := x.(keys := Rotate(x.keys, |x.emitted|, now, pto));
      }
      assert p.generation == rotated.keys.recv || p.generation + 1 == rotated.keys.recv;
      NoteKeeps(rotated, y, n);
      var unsealed := rotated.(keys := NotePhase(rotated.keys, p.pn, p.phase));
      if n !in x.received {
        NotedKeeps(unsealed, y, n);
        if p.ackLargest >= 0 { AckedKeeps(Noted(unsealed, n), y, n); }
      }
    }
  }

  lemma NoteKeeps(x: Party, y: Party, n: nat)
    requires Inv(x, y) && n < |y.emitted|
    requires y.emitted[n].generation == x.keys.recv || y.emitted[n].generation + 1 == x.keys.recv
    ensures var z := x.(keys := NotePhase(x.keys, n, y.emitted[n].phase));
            && Inv(z, y)
            && (y.emitted[n].generation == x.keys.recv ==> z.keys.phaseFirst.Some? && z.keys.phaseFirst.value <= n)
  {
    hide KeysOk, EmittedOk, Heard, AcksSound;
    NoteHeard(x, y, n);
    NoteSame(x, y, NotePhase(x.keys, n, y.emitted[n].phase).phaseFirst);
  }

  /** Where the boundary lies matters only to what was heard. */
  lemma NoteSame(x: Party, y: Party, first: Option<int>)
    ensures var z := x.(keys := x.keys.(phaseFirst := first));
            && (KeysOk(x.keys) ==> KeysOk(z.keys)) && (EmittedOk(x) ==> EmittedOk(z)) && (Heard(x, y) ==> Heard(z, y))
            && (AcksSound(x, y) ==> AcksSound(z, y)) && (AcksSound(y, x) ==> AcksSound(y, z))
  {
    var z := x.(keys := x.keys.(phaseFirst := first));
    if EmittedOk(x) {
      forall m | 0 <= m < |z.emitted| ensures PacketOk(z, m) { assert PacketOk(x, m); }
    }
  }

  /** The boundary moves down to a packet of the current phase, and only for one. */
  lemma NoteHeard(x: Party, y: Party, n: nat)
    requires Heard(y, x) && EmittedOk(y) && KeysOk(x.keys) && n < |y.emitted|
    requires y.emitted[n].generation == x.keys.recv || y.emitted[n].generation + 1 == x.keys.recv
    ensures PacketOk(y, n)
    ensures var z := x.(keys := NotePhase(x.keys, n, y.emitted[n].phase));
            && Heard(y, z)
            && (y.emitted[n].generation == x.keys.recv ==> z.keys.phaseFirst.Some? && z.keys.phaseFirst.value <= n)
  {
    assert PacketOk(y, n);
  }

  function Noted(x: Party, n: nat): Party {
    x.(received := x.received + {n}, largestReceived := if n > x.largestReceived then n else x.largestReceived)
  }

  lemma NotedKeeps(x: Party, y: Party, n: nat)
    requires Inv(x, y) && n < |y.emitted|
    requires y.emitted[n].generation <= x.keys.recv
    requires y.emitted[n].generation == x.keys.recv ==> x.keys.phaseFirst.Some? && x.keys.phaseFirst.value <= n
    ensures Inv(Noted(x, n), y)
  {
    var z := Noted(x, n);
    assert Heard(y, z) && Close(y, z) && AcksSound(y, z);
    assert EmittedOk(z) by {
      forall m | 0 <= m < |z.emitted| ensures PacketOk(z, m) { assert PacketOk(x, m); }
    }
    assert Heard(z, y) && Close(z, y) && AcksSound(z, y);
  }

  lemma AckedKeeps(x: Party, y: Party, n: nat)
    requires Inv(x, y) && n < |y.emitted| && y.emitted[n].ackLargest >= 0
    ensures y.emitted[n].ackLargest < |x.emitted|
    ensures Inv(x.(largestAcked := y.emitted[n].ackLargest), y)
  {
    var z := x.(largestAcked := y.emitted[n].ackLargest);
    assert EmittedOk(z) by {
      forall m | 0 <= m < |z.emitted| ensures PacketOk(z, m) { assert PacketOk(x, m); }
    }
    assert Heard(z, y) && Close(z, y) && AcksSound(z, y);
    assert Heard(y, z) && Close(y, z) && AcksSound(y, z);
  }

  lemma ActKeeps(x: Party, y: Party, a: Action)
    requires Inv(x, y)
    ensures Inv(Act(x, y, a), y)
  {
    match a
    case ActSend(withAck) => SendKeeps(x, y, withAck);
    case ActInitiate(now, pto) =>
      if x.confirmed && x.largestAcked >= x.keys.phaseSendFirst {
        GateImpliesFollowed(x, y);
        RotateKeeps(x, y, now, pto);
      }
    case ActConfirm =>
      var z := x.(confirmed := true);
      forall m | 0 <= m < |z.emitted| ensures PacketOk(z, m) { assert PacketOk(x, m); }
    case ActReceive(n, decoded, now, pto, news) =>
      if n < |y.emitted| { ReceiveKeeps(x, y, n, decoded, now, pto, news); }
  }

  lemma FreshOk(p: Party)
    requires KeysOk(p.keys) && p.keys.recv == 0 && p.keys.phaseFirst == Some(0) && p.keys.phaseSendFirst == 0
    requires p.emitted == [] && p.received == {} && p.largestReceived == -1 && p.largestAcked == -1 && !p.violated
    ensures Inv(p, p)
  {
  }

  lemma NextKeeps(s: System, t: Step)
    requires Inv(s.left, s.right)
    ensures Inv(Next(s, t).left, Next(s, t).right)
  {
    if t.onLeft { ActKeeps(s.left, s.right, t.action); } else { ActKeeps(s.right, s.left, t.action); }
  }

  lemma {:induction false} RunKeeps(steps: seq<Step>)
    ensures Inv(Run(Start(), steps).left, Run(Start(), steps).right)
    decreases |steps|
  {
    if steps == [] {
      FreshOk(Start().left);
    } else {
      RunKeeps(steps[..|steps| - 1]);
      NextKeeps(Run(Start(), steps[..|steps| - 1]), steps[|steps| - 1]);
    }
  }

  // ------------------------------------------------------------- the theorems

  ghost predicate Ahead(x: Party, y: Party) {
    forall n :: 0 <= n < |x.emitted| ==> x.emitted[n].generation <= y.keys.recv + 1
  }

  /** In every run the generations differ by at most one, both directions of an
      endpoint are in the same generation, no packet in the network is more than
      one generation ahead of its receiver, and no acknowledgement names a
      packet that was never sent. */
  lemma GenerationsAgree(steps: seq<Step>)
    ensures var s := Run(Start(), steps);
            && -1 <= s.left.keys.recv - s.right.keys.recv <= 1
            && s.left.keys.send == s.left.keys.recv && s.right.keys.send == s.right.keys.recv
            && Ahead(s.left, s.right) && Ahead(s.right, s.left)
            && !s.left.violated && !s.right.violated
  {
    RunKeeps(steps);
    var s := Run(Start(), steps);
    forall n | 0 <= n < |s.left.emitted| ensures s.left.emitted[n].generation <= s.right.keys.recv + 1 {
      assert PacketOk(s.left, n);
    }
    forall n | 0 <= n < |s.right.emitted| ensures s.right.emitted[n].generation <= s.left.keys.recv + 1 {
      assert PacketOk(s.right, n);
    }
  }

  /** The endpoint that sent, and the one that receives. */
  function Pair(s: System, fromLeft: bool): (Party, Party) {
    if fromLeft then (s.left, s.right) else (s.right, s.left)
  }

  /** In every run, a packet opens exactly when its number was recovered and its
      generation is one the receiver may hold: the current one, the previous one
      until it expires, or the next one once the handshake is confirmed. */
  lemma DeliveryIsExact(steps: seq<Step>, fromLeft: bool, n: nat, decoded: int, now: real)
    requires n < |Pair(Run(Start(), steps), fromLeft).0.emitted|
    ensures var (x, y) := Pair(Run(Start(), steps), fromLeft);
            var p := x.emitted[n];
            var g := y.keys.recv;
            Opens(y.keys, y.confirmed, p, decoded, now) <==>
              && decoded == n
              && (|| p.generation == g
                  || (p.generation + 1 == g && now <= y.keys.previousExpiry)
                  || (p.generation == g + 1 && y.confirmed))
  {
    RunKeeps(steps);
    var (x, y) := Pair(Run(Start(), steps), fromLeft);
    assert PacketOk(x, n);
    SelectionIsExact(x, y, n, now);
  }

  // ------------------------------------------------------ the phase's boundary

  /** The boundary was received, but for the one every connection starts with. */
  ghost predicate Marked(x: Party) {
    x.keys.phaseFirst.Some? ==>
      x.keys.phaseFirst.value in x.received || (x.keys.phaseFirst.value == 0 && x.keys.recv == 0)
  }

  lemma ActMarks(x: Party, y: Party, a: Action)
    requires Marked(x)
    ensures Marked(Act(x, y, a))
  {
  }

  lemma {:induction false} RunMarks(steps: seq<Step>)
    ensures Marked(Run(Start(), steps).left) && Marked(Run(Start(), steps).right)
    decreases |steps|
  {
    hide Marked, Act;
    if steps == [] {
      StartMarked(Start().left);
    } else {
      var s := Run(Start(), steps[..|steps| - 1]);
      RunMarks(steps[..|steps| - 1]);
      ActMarks(s.left, s.right, steps[|steps| - 1].action);
      ActMarks(s.right, s.left, steps[|steps| - 1].action);
    }
  }

  lemma StartMarked(p: Party)
    requires p.keys == InitialKeys()
    ensures Marked(p)
  {
  }

  /** Number `n` was received and belongs to the receiver's current phase. */
  ghost predicate InPhase(x: Party, y: Party, n: int) {
    n in y.received && 0 <= n < |x.emitted| && x.emitted[n].generation == y.keys.recv
  }

  /** In every run, the boundary of the current phase is the least packet number
      received in it, or the 0 that the first phase starts with, and is unset exactly
      when nothing of the phase was received. */
  lemma BoundaryIsLowest(steps: seq<Step>, fromLeft: bool)
    ensures var (x, y) := Pair(Run(Start(), steps), fromLeft);
            match y.keys.phaseFirst
            case None => forall n :: !InPhase(x, y, n)
            case Some(f) =>
              (InPhase(x, y, f) || (f == 0 && y.keys.recv == 0)) && forall n :: InPhase(x, y, n) ==> f <= n
  {
    hide Run, Start;
    RunKeeps(steps);
    RunMarks(steps);
  }

  // -------------------------------------------------------- the previous phase

  /** When an action of an endpoint takes place, and its probe timeout. */
  function Moment(a: Action): (real, real) {
    match a
    case ActInitiate(now, pto) => (now, pto)
    case ActReceive(_, _, now, pto, _) => (now, pto)
    case _ => (0.0, 0.0)
  }

  /** A rotation sets the expiry three probe timeouts ahead; nothing else moves it. */
  lemma ActExpiry(x: Party, y: Party, a: Action)
    requires KeysOk(x.keys)
    ensures var z := Act(x, y, a);
            && x.keys.recv <= z.keys.recv
            && z.keys.previousExpiry
               == (if z.keys.recv == x.keys.recv then x.keys.previousExpiry else Moment(a).0 + 3.0 * Moment(a).1)
  {
  }

  lemma KeysOfRun(steps: seq<Step>)
    ensures KeysOk(Run(Start(), steps).left.keys) && KeysOk(Run(Start(), steps).right.keys)
  {
    hide Run, Start, KeysOk;
    RunKeeps(steps);
  }

  lemma {:induction false} RunConcat(s: System, a: seq<Step>, b: seq<Step>)
    ensures Run(s, a + b) == Run(Run(s, a), b)
    decreases |b|
  {
    hide Next;
    if b == [] {
      assert a + b == a;
    } else {
      assert (a + b)[..|a + b| - 1] == a + b[..|b| - 1];
      RunConcat(s, a, b[..|b| - 1]);
    }
  }

  lemma {:induction false} RunExpiry(steps: seq<Step>, more: seq<Step>, fromLeft: bool)
    ensures var s := Run(Start(), steps);
            var (y, z) := (Pair(s, fromLeft).1, Pair(Run(s, more), fromLeft).1);
            && y.keys.recv <= z.keys.recv
            && (y.keys.recv == z.keys.recv ==> y.keys.previousExpiry == z.keys.previousExpiry)
    decreases |more|
  {
    hide Act, KeysOk, Start;
    if more != [] {
      var before := more[..|more| - 1];
      RunExpiry(steps, before, fromLeft);
      RunConcat(Start(), steps, before);
      KeysOfRun(steps + before);
      var u := Run(Run(Start(), steps), before);
      ActExpiry(u.left, u.right, more[|more| - 1].action);
      ActExpiry(u.right, u.left, more[|more| - 1].action);
    }
  }

  /** In every run, once an endpoint has rotated its keys, a packet of the phase it left
      opens until three probe timeouts after the rotation and not after, for as long
      as it does not rotate again, whatever else happens. */
  lemma PreviousKeysExpire(steps: seq<Step>, t: Step, more: seq<Step>, fromLeft: bool, n: nat, now: real)
    ensures var s := Run(Start(), steps);
            var left := Pair(s, fromLeft).1.keys.recv;
            var (x, y) := Pair(Run(Next(s, t), more), fromLeft);
            && t.onLeft != fromLeft && Pair(Next(s, t), fromLeft).1.keys.recv == left + 1 == y.keys.recv
            && n < |x.emitted| && x.emitted[n].generation == left ==>
              (Opens(y.keys, y.confirmed, x.emitted[n], n, now)
               <==> now <= Moment(t.action).0 + 3.0 * Moment(t.action).1)
  {
    hide Act, Opens, Start, KeysOk;
    var s := Run(Start(), steps);
    KeysOfRun(steps);
    assert (steps + [t])[..|steps|] == steps;
    assert Run(Start(), steps + [t]) == Next(s, t);
    RunConcat(Start(), steps + [t], more);
    ActExpiry(s.left, s.right, t.action);
    ActExpiry(s.right, s.left, t.action);
    RunExpiry(steps + [t], more, fromLeft);
    if n < |Pair(Run(Start(), steps + [t] + more), fromLeft).0.emitted| {
      DeliveryIsExact(steps + [t] + more, fromLeft, n, n, now);
    }
  }
}
