/** Whole runs of loss recovery, under the operations the connection performs on
    it, with a ledger of what became of every packet sent. */
module RecoveryRuns {
  import opened Options
  import opened Frames
  import opened NewReno
  import opened Recovery
  import opened RecoveryProof

  datatype Op =
    | OpSend(packet: SentPacket)
    | OpAck(level: Level, largest: int, ranges: seq<AckRange>, delay: real, at: real)
    | OpTimeout(firedAt: real)
    | OpRestart(restarted: Level)
    | OpDiscardInitial
    | OpConfirm
    | OpEcnCe(sentTime: real, markedAt: real)

  type Name = (Level, nat)

  function Names(ps: seq<SentPacket>): set<Name> { set p | p in ps :: (p.level, p.number) }

  /** The detector with the names of all packets sent and of those that were
      acknowledged, declared lost, and dropped with their space. */
  datatype Ledger = Ledger(
    d: Detector, sent: set<Name>, acked: set<Name>, lost: set<Name>, dropped: set<Name>)

  function Start(datagram: nat, isClient: bool, maxAckDelay: real): Ledger {
    Ledger(NewDetector(datagram, isClient, maxAckDelay), {}, {}, {}, {})
  }

  /** Dropping a space's keys happens once per space. */
  function Drop(t: Ledger, level: Level): Ledger {
    if Get(t.d, level).discarded then t
    else t.(d := DiscardSpace(t.d, level), dropped := t.dropped + Names(Held(Get(t.d, level))))
  }

  /** Packet numbers are used once, in increasing order, and only while the space
      has keys.  A server confirms after a Handshake packet, which discarded Initial. */
  function Step(t: Ledger, op: Op): Ledger {
    match op
    case OpSend(p) =>
      if Get(t.d, p.level).discarded || p.number <= Get(t.d, p.level).largestSent then t
      else t.(d := OnPacketSent(t.d, p), sent := t.sent + {(p.level, p.number)})
    case OpAck(level, largest, ranges, delay, now) =>
      var (d, outcome) := OnAckReceived(t.d, level, largest, ranges, delay, now);
      if outcome.None? then t.(d := d)
      else t.(d := d, acked := t.acked + Names(outcome.value.acked), lost := t.lost + Names(outcome.value.lost))
    case OpTimeout(now) =>
      var (d, outcome) := OnTimeout(t.d, now);
      t.(d := d, lost := t.lost + Names(outcome.lost))
    case OpRestart(level) =>
      t.(d := RestartSpace(t.d, level), dropped := t.dropped + Names(Held(Get(t.d, level))))
    case OpDiscardInitial => Drop(t, Initial)
    case OpConfirm =>
      if t.d.isClient then
        var u := Drop(Drop(t, Handshake), Initial);
        u.(d := u.d.(confirmed := true))
      else if t.d.initial.discarded then
        var u := Drop(t, Handshake);
        u.(d := u.d.(confirmed := true))
      else t
    case OpEcnCe(sentTime, now) => t.(d := t.d.(controller := OnEcnCe(t.d.controller, sentTime, now)))
  }

  function Run(t: Ledger, ops: seq<Op>): Ledger
    decreases |ops|
  {
    if ops == [] then t else Step(Run(t, ops[..|ops| - 1]), ops[|ops| - 1])
  }

  // ------------------------------------------------------------ the ledger

  ghost predicate Holds(d: Detector, name: Name) { name.1 in Get(d, name.0).sent }

  /** How many of the four places a packet's name is in. */
  function Places(t: Ledger, name: Name): nat {
    (if name.1 in Get(t.d, name.0).sent then 1 else 0) + (if name in t.acked then 1 else 0)
    + (if name in t.lost then 1 else 0) + (if name in t.dropped then 1 else 0)
  }

  /** Every packet sent is in exactly one place, and nothing else is in any. */
  ghost predicate Settled(t: Ledger) {
    && (forall name: Name :: Places(t, name) == if name in t.sent then 1 else 0)
    && (forall name: Name :: name in t.sent ==> name.1 <= Get(t.d, name.0).largestSent)
  }

  ghost predicate Good(t: Ledger) { Accounted(t.d) && Settled(t) }

  /** A batch taken out of one space: its names leave `sent` and enter one column. */
  ghost predicate Taken(s: Space, t: Space, level: Level, ps: seq<SentPacket>) {
    && t.largestSent == s.largestSent
    && (forall n: nat :: n in t.sent <==> n in s.sent && (level, n) !in Names(ps))
    && (forall name: Name :: name in Names(ps) ==> name.0 == level && name.1 in s.sent)
  }

  lemma BatchTaken(s: Space, t: Space, level: Level, taken: set<nat>)
    requires Filed(s, level) && t.largestSent == s.largestSent && t.sent == s.sent - taken
    ensures Taken(s, t, level, Ascending(Only(s.sent, taken), s.largestSent + 1))
  {
    var ps := Ascending(Only(s.sent, taken), s.largestSent + 1);
    forall name: Name ensures name in Names(ps) <==> name.0 == level && name.1 in s.sent && name.1 in taken {
      if name in Names(ps) {
        var p :| p in ps && (p.level, p.number) == name;
        AscendingHas(Only(s.sent, taken), s.largestSent + 1, p);
      }
      if name.0 == level && name.1 in s.sent && name.1 in taken {
        var p := s.sent[name.1];
        AscendingHas(Only(s.sent, taken), s.largestSent + 1, p);
        assert name.1 in Only(s.sent, taken) && Only(s.sent, taken)[name.1] == p;
        assert p in ps && (p.level, p.number) == name;
      }
    }
  }

  /** Moving a batch from its space to one column keeps the ledger settled. */
  lemma MoveKeeps(t: Ledger, u: Ledger, level: Level, ps: seq<SentPacket>)
    requires Settled(t) && Taken(Get(t.d, level), Get(u.d, level), level, ps)
    requires forall l :: l != level ==> Get(u.d, l) == Get(t.d, l)
    requires u.sent == t.sent
    requires || (u.acked == t.acked + Names(ps) && u.lost == t.lost && u.dropped == t.dropped)
             || (u.acked == t.acked && u.lost == t.lost + Names(ps) && u.dropped == t.dropped)
             || (u.acked == t.acked && u.lost == t.lost && u.dropped == t.dropped + Names(ps))
    ensures Settled(u)
  {
    forall name: Name ensures Places(u, name) == if name in u.sent then 1 else 0 {
      assert Places(t, name) == if name in t.sent then 1 else 0;
      if name.0 == level {
        assert name == (level, name.1);
        assert name.1 in Get(u.d, level).sent <==> name.1 in Get(t.d, level).sent && name !in Names(ps);
      } else {
        assert name !in Names(ps);
      }
    }
  }

  lemma DetectMoves(t: Ledger, level: Level, now: real)
    requires Settled(t) && Filed(Get(t.d, level), level)
    ensures Settled(t.(d := DetectLost(t.d, level, now), lost := t.lost + Names(LossOf(t.d, level, now))))
  {
    hide Settled, Names, LossOf, AfterLoss, LostNumbers, EarliestDeadline, Taken, Filed;
    var s := Get(t.d, level);
    var e := DetectLost(t.d, level, now);
    var taken := LostNumbers(s, LossDelay(t.d.rtt), now);
    LossUnfolds(t.d, level, now);
    BatchTaken(s, Get(e, level), level, taken);
    MoveKeeps(t, t.(d := e, lost := t.lost + Names(LossOf(t.d, level, now))), level, LossOf(t.d, level, now));
  }

  lemma LossUnfolds(d: Detector, level: Level, now: real)
    ensures var s := Get(d, level);
            LossOf(d, level, now)
              == Ascending(Only(s.sent, LostNumbers(s, LossDelay(d.rtt), now)), s.largestSent + 1)
  {
  }

  lemma AckMoves(t: Ledger, level: Level, largest: int, ranges: seq<AckRange>, delay: real, now: real)
    requires Settled(t) && Filed(Get(t.d, level), level) && NewlyAcked(Get(t.d, level), ranges) != []
    ensures var e := Acknowledge(t.d, level, largest, ranges, delay, now);
            && Settled(t.(d := e, acked := t.acked + Names(NewlyAcked(Get(t.d, level), ranges))))
            && Filed(Get(e, level), level)
  {
    hide Settled, Names, OnAcked, Taken;
    var s := Get(t.d, level);
    var e := Acknowledge(t.d, level, largest, ranges, delay, now);
    BatchTaken(s, Get(e, level), level, Newly(s, ranges));
    MoveKeeps(t, t.(d := e, acked := t.acked + Names(NewlyAcked(s, ranges))), level, NewlyAcked(s, ranges));
  }

  lemma AckSettles(t: Ledger, op: Op)
    requires Good(t) && op.OpAck?
    ensures Settled(Step(t, op))
  {
    hide Names, Acknowledge, DetectLost, LossOf, NewlyAcked, Accounted, Settled, Filed;
    var s := Get(t.d, op.level);
    FiledHere(t.d, op.level);
    if op.largest > s.largestSent || NewlyAcked(s, op.ranges) == [] {
      NoNames();
      SameSpaces(t, Step(t, op));
    } else {
      AckMoves(t, op.level, op.largest, op.ranges, op.delay, op.at);
      var e := Acknowledge(t.d, op.level, op.largest, op.ranges, op.delay, op.at);
      var u := t.(d := e, acked := t.acked + Names(NewlyAcked(s, op.ranges)));
      DetectMoves(u, op.level, op.at);
    }
  }

  lemma NoNames()
    ensures Names([]) == {}
  {
  }

  lemma FiledHere(d: Detector, level: Level)
    requires Accounted(d)
    ensures Filed(Get(d, level), level)
  {
  }

  /** Changes that touch no space and no column keep the ledger. */
  lemma SameSpaces(t: Ledger, u: Ledger)
    requires Settled(t) && forall level :: Get(u.d, level) == Get(t.d, level)
    requires u.sent == t.sent && u.acked == t.acked && u.lost == t.lost && u.dropped == t.dropped
    ensures Settled(u)
  {
    forall name: Name ensures Places(u, name) == if name in u.sent then 1 else 0 {
      assert Places(u, name) == Places(t, name);
    }
  }

  lemma TimeoutSettles(t: Ledger, now: real)
    requires Good(t)
    ensures Settled(Step(t, OpTimeout(now)))
  {
    hide Names, DetectLost, LossOf, Accounted, Settled, Filed, EarliestPto;
    var d0 := t.d.(lastEvent := Some(now));
    SameSpaces(t, t.(d := d0));
    if EarliestLoss(t.d).Some? {
      var level := EarliestLoss(t.d).value.level;
      AccountIgnoresTimers(t.d, d0);
      FiledHere(d0, level);
      DetectMoves(t.(d := d0), level, now);
    } else {
      NoNames();
      SameSpaces(t, Step(t, OpTimeout(now)));
    }
  }

  lemma RestartSettles(t: Ledger, level: Level, u: Ledger)
    requires Good(t)
    requires Get(u.d, level).sent == map[] && Get(u.d, level).largestSent == Get(t.d, level).largestSent
    requires forall l :: l != level ==> Get(u.d, l) == Get(t.d, l)
    requires u.sent == t.sent && u.acked == t.acked && u.lost == t.lost
    requires u.dropped == t.dropped + Names(Held(Get(t.d, level)))
    ensures Settled(u)
  {
    hide Names, Accounted, Settled, Taken;
    var s := Get(t.d, level);
    FiledHere(t.d, level);
    assert s.sent - s.sent.Keys == map[] && Only(s.sent, s.sent.Keys) == s.sent;
    BatchTaken(s, Get(u.d, level), level, s.sent.Keys);
    MoveKeeps(t, u, level, Held(s));
  }

  /** Dropping a space's keys, except that the flags may then disagree. */
  lemma DropKeeps(t: Ledger, level: Level)
    requires Good(t)
    ensures Settled(Drop(t, level))
    ensures Get(Drop(t, level).d, level).discarded
    ensures level.Initial? ==> Good(Drop(t, level))
    ensures level.Handshake? && t.d.initial.discarded ==>
              Good(Drop(t, level).(d := Drop(t, level).d.(confirmed := true)))
  {
    hide Names, Settled, FlightOf, Ascending;
    var u := Drop(t, level);
    if u != t {
      RestartSettles(t, level, u);
      RestartKeeps(t.d, level);
    }
    SameSpaces(u, u.(d := u.d.(confirmed := true)));
  }

  lemma ConfirmKeeps(t: Ledger)
    requires Good(t)
    ensures Good(Step(t, OpConfirm))
  {
    hide Good, Drop;
    if t.d.isClient {
      DropKeeps(t, Initial);
      DropKeeps(Drop(t, Initial), Handshake);
      DropsCommute(t);
    } else if t.d.initial.discarded {
      DropKeeps(t, Handshake);
    }
  }

  /** The source drops Handshake first; the order makes no difference. */
  lemma DropsCommute(t: Ledger)
    ensures Drop(Drop(t, Handshake), Initial) == Drop(Drop(t, Initial), Handshake)
    ensures Drop(t, Initial).d.initial.discarded
    ensures Drop(t, Initial).d.isClient == t.d.isClient
  {
    hide Names, Held, InFlightOnly, FlightOf;
    var u := Drop(Drop(t, Handshake), Initial);
    var v := Drop(Drop(t, Initial), Handshake);
    assert u.dropped == v.dropped;
    assert u.d == v.d;
  }

  lemma SendKeeps(t: Ledger, p: SentPacket)
    requires Good(t)
    ensures Good(Step(t, OpSend(p)))
  {
    hide Names, FlightOf, Ascending;
    var u := Step(t, OpSend(p));
    if u != t {
      SentKeeps(t.d, p);
      forall name: Name ensures Places(u, name) == if name in u.sent then 1 else 0 {
        assert Places(t, name) == if name in t.sent then 1 else 0;
        assert name.0 != p.level ==> Get(u.d, name.0) == Get(t.d, name.0);
      }
      forall name: Name | name in u.sent ensures name.1 <= Get(u.d, name.0).largestSent {
        assert name.0 != p.level ==> Get(u.d, name.0) == Get(t.d, name.0);
      }
    }
  }

  lemma StepKeeps(t: Ledger, op: Op)
    requires Good(t)
    ensures Good(Step(t, op))
  {
    hide Names, Settled, Accounted, Drop, DetectLost, Acknowledge, LossOf, NewlyAcked;
    match op {
      case OpSend(p) => SendKeeps(t, p);
      case OpAck(level, largest, ranges, delay, now) =>
        AckKeeps(t.d, level, largest, ranges, delay, now);
        AckSettles(t, op);
      case OpTimeout(now) =>
        TimeoutKeeps(t.d, now);
        TimeoutSettles(t, now);
      case OpRestart(level) =>
        RestartKeeps(t.d, level);
        RestartSettles(t, level, Step(t, op));
      case OpDiscardInitial => DropKeeps(t, Initial);
      case OpConfirm => ConfirmKeeps(t);
      case OpEcnCe(sentTime, now) => EcnKeeps(t, op);
    }
  }

  lemma EcnKeeps(t: Ledger, op: Op)
    requires Good(t) && op.OpEcnCe?
    ensures Good(Step(t, op))
  {
    hide SpaceOk, Held, FlightOf, Settled;
    var u := Step(t, op);
    forall level ensures SpaceOk(Get(u.d, level), level) {
      assert Get(u.d, level) == Get(t.d, level);
    }
    SameSpaces(t, u);
  }

  lemma StartGood(datagram: nat, isClient: bool, maxAckDelay: real)
    ensures Good(Start(datagram, isClient, maxAckDelay))
  {
    var t := Start(datagram, isClient, maxAckDelay);
    forall level ensures Get(t.d, level) == NewSpace() {
    }
    assert FlightOf([]) == 0;
  }

  lemma {:induction false} RunKeeps(datagram: nat, isClient: bool, maxAckDelay: real, ops: seq<Op>)
    ensures Good(Run(Start(datagram, isClient, maxAckDelay), ops))
    decreases |ops|
  {
    hide Good, Step, Start;
    if ops == [] {
      StartGood(datagram, isClient, maxAckDelay);
    } else {
      RunKeeps(datagram, isClient, maxAckDelay, ops[..|ops| - 1]);
      StepKeeps(Run(Start(datagram, isClient, maxAckDelay), ops[..|ops| - 1]), ops[|ops| - 1]);
    }
  }

  // ------------------------------------------------------------------ the clock

  /** Once a packet was sent there has been an event. */
  ghost predicate Stamped(t: Ledger) { t.d.lastEvent.None? ==> t.sent == {} }

  lemma StepStamps(t: Ledger, op: Op)
    requires Stamped(t)
    ensures Stamped(Step(t, op))
  {
    hide Names, SpaceAfterLoss, AfterLoss, LossOf, NewlyAcked, Held, EarliestPto, EarliestLoss;
  }

  lemma {:induction false} RunStamps(datagram: nat, isClient: bool, maxAckDelay: real, ops: seq<Op>)
    ensures Stamped(Run(Start(datagram, isClient, maxAckDelay), ops))
    decreases |ops|
  {
    hide Step;
    if ops != [] {
      RunStamps(datagram, isClient, maxAckDelay, ops[..|ops| - 1]);
      StepStamps(Run(Start(datagram, isClient, maxAckDelay), ops[..|ops| - 1]), ops[|ops| - 1]);
    }
  }
}
