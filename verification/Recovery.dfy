/** Loss detection over the three packet number spaces
    (src/dsquic/recovery.py; sections 5 and 6 and Appendix A of RFC 9002).
    Times are real numbers of seconds. */
module Recovery {
  import opened Options
  import opened Frames
  import opened Acks
  import opened NewReno

  const PACKET_THRESHOLD := 3
  const GRANULARITY := 0.001
  const INITIAL_RTT := 0.333
  const MAX_PTO := 60.0

  function Larger(a: real, b: real): real { if a < b then b else a }

  function Smaller(a: real, b: real): real { if b < a then b else a }

  function Abs(a: real): real { if a < 0.0 then -a else a }

  // ------------------------------------------------------------- RTT estimation

  datatype Rtt = Rtt(latest: real, min: real, smoothed: real, rttvar: real, hasSample: bool)

  function NewRtt(): Rtt { Rtt(INITIAL_RTT, INITIAL_RTT, INITIAL_RTT, INITIAL_RTT / 2.0, false) }

  /** The peer's reported delay comes off only if the rest is not below the minimum. */
  function Adjusted(min: real, sample: real, ackDelay: real): real {
    if sample - ackDelay >= min then sample - ackDelay else sample
  }

  function Fold(r: Rtt, sample: real, ackDelay: real): Rtt {
    if !r.hasSample then Rtt(sample, sample, sample, sample / 2.0, true)
    else
      var m := Smaller(r.min, sample);
      var a := Adjusted(m, sample, ackDelay);
      Rtt(sample, m, 0.875 * r.smoothed + 0.125 * a, 0.75 * r.rttvar + 0.25 * Abs(r.smoothed - a), true)
  }

  class RttEstimator {
    var latest: real
    var min: real
    var smoothed: real
    var rttvar: real
    var hasSample: bool

    function Model(): Rtt
      reads this
    {
      Rtt(latest, min, smoothed, rttvar, hasSample)
    }

    constructor ()
      ensures Model() == NewRtt()
    {
      latest, min, smoothed, rttvar := INITIAL_RTT, INITIAL_RTT, INITIAL_RTT, INITIAL_RTT / 2.0;
      hasSample := false;
    }

    method Update(sample: real, ackDelay: real)
      modifies this
      ensures Model() == Fold(old(Model()), sample, ackDelay)
    {
      latest := sample;
      if !hasSample {
        min, smoothed, rttvar, hasSample := sample, sample, sample / 2.0, true;
        return;
      }
      min := Smaller(min, sample);
      var adjusted := sample;
      if sample - ackDelay >= min {
        adjusted := sample - ackDelay;
      }
      rttvar := 0.75 * rttvar + 0.25 * Abs(smoothed - adjusted);
      smoothed := 0.875 * smoothed + 0.125 * adjusted;
    }
  }

  // ------------------------------------------------------ the state of recovery

  type Number = x: int | -1 <= x

  /** One packet number space: the packets still awaiting acknowledgment and the
      timers that hang on them. */
  datatype Space = Space(
    sent: map<nat, SentPacket>, largestSent: Number, largestAcked: int,
    lossTime: Option<real>, discarded: bool)

  datatype Detector = Detector(
    controller: Reno, rtt: Rtt, confirmed: bool, isClient: bool, maxAckDelay: real, ptoCount: nat,
    initial: Space, handshake: Space, oneRtt: Space, lastEvent: Option<real>)

  function NewSpace(): Space { Space(map[], -1, -1, None, false) }

  function NewDetector(datagram: nat, isClient: bool, maxAckDelay: real): Detector {
    Detector(NewController(datagram), NewRtt(), false, isClient, maxAckDelay, 0,
             NewSpace(), NewSpace(), NewSpace(), None)
  }

  function Get(d: Detector, level: Level): Space {
    match level
    case Initial => d.initial
    case Handshake => d.handshake
    case OneRtt => d.oneRtt
  }

  function Put(d: Detector, level: Level, s: Space): Detector {
    match level
    case Initial => d.(initial := s)
    case Handshake => d.(handshake := s)
    case OneRtt => d.(oneRtt := s)
  }

  /** Every packet of a space with a number below the bound, oldest first. */
  function Ascending(sent: map<nat, SentPacket>, bound: nat): seq<SentPacket> {
    if bound == 0 then []
    else if bound - 1 in sent then Ascending(sent, bound - 1) + [sent[bound - 1]]
    else Ascending(sent, bound - 1)
  }

  function Only(sent: map<nat, SentPacket>, keep: set<nat>): map<nat, SentPacket> {
    map n | n in sent && n in keep :: sent[n]
  }

  function Held(s: Space): seq<SentPacket> { Ascending(s.sent, s.largestSent + 1) }

  function InFlightOnly(ps: seq<SentPacket>): seq<SentPacket> {
    if ps == [] then []
    else
      var rest := InFlightOnly(ps[..|ps| - 1]);
      if ps[|ps| - 1].inFlight then rest + [ps[|ps| - 1]] else rest
  }

  function ElicitingOnly(ps: seq<SentPacket>): seq<SentPacket> {
    if ps == [] then []
    else
      var rest := ElicitingOnly(ps[..|ps| - 1]);
      if ps[|ps| - 1].ackEliciting then rest + [ps[|ps| - 1]] else rest
  }

  // ------------------------------------------------------------- loss detection

  function LossDelay(r: Rtt): real { Larger(1.125 * Larger(r.latest, r.smoothed), GRANULARITY) }

  predicate IsLost(s: Space, n: nat, delay: real, now: real) {
    && n in s.sent && n <= s.largestAcked
    && (n <= s.largestAcked - PACKET_THRESHOLD || s.sent[n].timeSent <= now - delay)
  }

  function LostNumbers(s: Space, delay: real, now: real): set<nat> {
    set n | n in s.sent && IsLost(s, n, delay, now)
  }

  /** The least deadline of the packets below the bound and at or below `acked`. */
  function EarliestDeadline(sent: map<nat, SentPacket>, acked: int, delay: real, bound: nat): Option<real> {
    if bound == 0 then None
    else
      var before := EarliestDeadline(sent, acked, delay, bound - 1);
      if bound - 1 !in sent || bound - 1 > acked then before
      else
        var candidate := sent[bound - 1].timeSent + delay;
        if before.None? || candidate < before.value then Some(candidate) else before
  }

  function BasePto(r: Rtt): real { r.smoothed + Larger(4.0 * r.rttvar, GRANULARITY) }

  predicate SpansPersistentCongestion(d: Detector, lost: seq<SentPacket>) {
    var eliciting := ElicitingOnly(lost);
    && |eliciting| >= 2
    && eliciting[|eliciting| - 1].timeSent - eliciting[0].timeSent
       > (BasePto(d.rtt) + d.maxAckDelay) * 3.0
  }

  function AfterLoss(d: Detector, lost: seq<SentPacket>, now: real): Reno {
    var flight := InFlightOnly(lost);
    if flight == [] then d.controller
    else
      var reduced := OnLost(d.controller, flight, now);
      if d.rtt.hasSample && SpansPersistentCongestion(d, flight) then OnPersistentCongestion(reduced)
      else reduced
  }

  function LossOf(d: Detector, level: Level, now: real): seq<SentPacket> {
    var s := Get(d, level);
    Ascending(Only(s.sent, LostNumbers(s, LossDelay(d.rtt), now)), s.largestSent + 1)
  }

  function SpaceAfterLoss(s: Space, delay: real, now: real): Space {
    var kept := s.sent - LostNumbers(s, delay, now);
    s.(sent := kept, lossTime := EarliestDeadline(kept, s.largestAcked, delay, s.largestSent + 1))
  }

  /** `_detect_and_remove_lost`, the state after it; what it returns is `LossOf`. */
  function DetectLost(d: Detector, level: Level, now: real): Detector {
    Put(d, level, SpaceAfterLoss(Get(d, level), LossDelay(d.rtt), now))
      .(controller := AfterLoss(d, LossOf(d, level, now), now))
  }

  // ----------------------------------------------------------------- operations

  function OnPacketSent(d: Detector, p: SentPacket): Detector {
    var s := Get(d, p.level);
    var most := if s.largestSent < p.number then p.number else s.largestSent;
    Put(d, p.level, s.(sent := s.sent[p.number := p], largestSent := most))
      .(lastEvent := Some(p.timeSent), controller := OnSent(d.controller, p))
  }

  datatype AckOutcome = AckOutcome(acked: seq<SentPacket>, lost: seq<SentPacket>)

  function Newly(s: Space, ranges: seq<AckRange>): set<nat> {
    set n | n in s.sent && Acknowledges(ranges, n)
  }

  function NewlyAcked(s: Space, ranges: seq<AckRange>): seq<SentPacket> {
    Ascending(Only(s.sent, Newly(s, ranges)), s.largestSent + 1)
  }

  function Sampled(d: Detector, acked: seq<SentPacket>, largest: int, delay: real, now: real): Rtt
    requires acked != []
  {
    var last := acked[|acked| - 1];
    if last.number == largest && ElicitingOnly(acked) != [] then
      Fold(d.rtt, now - last.timeSent, if d.confirmed then Smaller(delay, d.maxAckDelay) else delay)
    else d.rtt
  }

  /** The state after the acknowledged packets are taken out, before loss detection. */
  function Acknowledge(d: Detector, level: Level, largest: int, ranges: seq<AckRange>, delay: real, now: real): Detector
    requires NewlyAcked(Get(d, level), ranges) != []
  {
    var s := Get(d, level);
    var acked := NewlyAcked(s, ranges);
    var most := if s.largestAcked < largest then largest else s.largestAcked;
    Put(d, level, s.(sent := s.sent - Newly(s, ranges), largestAcked := most))
      .(rtt := Sampled(d, acked, largest, delay, now), ptoCount := 0, lastEvent := Some(now),
        controller := OnAcked(d.controller, InFlightOnly(acked)))
  }

  /** `on_ack_received`; None for an acknowledgment of a packet never sent. */
  function OnAckReceived(d: Detector, level: Level, largest: int, ranges: seq<AckRange>, delay: real, now: real)
    : (Detector, Option<AckOutcome>)
  {
    var s := Get(d, level);
    if largest > s.largestSent then (d.(lastEvent := Some(now)), None)
    else if NewlyAcked(s, ranges) == [] then (d.(lastEvent := Some(now)), Some(AckOutcome([], [])))
    else
      var d1 := Acknowledge(d, level, largest, ranges, delay, now);
      (DetectLost(d1, level, now), Some(AckOutcome(NewlyAcked(s, ranges), LossOf(d1, level, now))))
  }

  // --------------------------------------------------------------------- timers

  /** The interval shifted left: doubled once per expiration. */
  function Doubled(interval: real, count: nat): real {
    if count == 0 then interval else 2.0 * Doubled(interval, count - 1)
  }

  /** The interval with its backoff, truncated at MAX_PTO. */
  function Backoff(interval: real, count: nat): real { Smaller(Doubled(interval, count), MAX_PTO) }

  function PtoDuration(d: Detector, level: Level): real {
    Backoff(if level == OneRtt then BasePto(d.rtt) + d.maxAckDelay else BasePto(d.rtt), d.ptoCount)
  }

  datatype Alarm = Alarm(at: real, level: Level)

  /** The earlier of two candidates; the first wins a tie. */
  function Sooner(a: Option<Alarm>, b: Option<Alarm>): Option<Alarm> {
    if b.None? then a
    else if a.None? || b.value.at < a.value.at then b
    else a
  }

  function LossAlarm(d: Detector, level: Level): Option<Alarm> {
    var s := Get(d, level);
    if s.lossTime.Some? && !s.discarded then Some(Alarm(s.lossTime.value, level)) else None
  }

  function EarliestLoss(d: Detector): Option<Alarm> {
    Sooner(Sooner(LossAlarm(d, Initial), LossAlarm(d, Handshake)), LossAlarm(d, OneRtt))
  }

  /** When the last ack-eliciting packet below the bound was sent. */
  function LastEliciting(sent: map<nat, SentPacket>, bound: nat): Option<real> {
    if bound == 0 then None
    else
      var before := LastEliciting(sent, bound - 1);
      if bound - 1 !in sent || !sent[bound - 1].ackEliciting then before
      else if before.None? || before.value < sent[bound - 1].timeSent then Some(sent[bound - 1].timeSent)
      else before
  }

  function PtoAlarm(d: Detector, level: Level): Option<Alarm> {
    var s := Get(d, level);
    if s.discarded || (level == OneRtt && !d.confirmed) then None
    else
      var last := LastEliciting(s.sent, s.largestSent + 1);
      if last.None? then None else Some(Alarm(last.value + PtoDuration(d, level), level))
  }

  function EarliestPto(d: Detector): Option<Alarm> {
    Sooner(Sooner(PtoAlarm(d, Initial), PtoAlarm(d, Handshake)), PtoAlarm(d, OneRtt))
  }

  function AntiDeadlockLevel(d: Detector): Level {
    if !d.initial.discarded then Initial else Handshake
  }

  function Timer(d: Detector): Option<real> {
    if EarliestLoss(d).Some? then Some(EarliestLoss(d).value.at)
    else if EarliestPto(d).Some? then Some(EarliestPto(d).value.at)
    else if d.isClient && !d.confirmed && d.lastEvent.Some? then
      Some(d.lastEvent.value + PtoDuration(d, AntiDeadlockLevel(d)))
    else None
  }

  datatype TimeoutOutcome = TimeoutOutcome(lost: seq<SentPacket>, probe: Option<Level>)

  function OnTimeout(d: Detector, now: real): (Detector, TimeoutOutcome) {
    var d0 := d.(lastEvent := Some(now));
    if EarliestLoss(d).Some? then
      var level := EarliestLoss(d).value.level;
      (DetectLost(d0, level, now), TimeoutOutcome(LossOf(d0, level, now), None))
    else
      var d1 := d0.(ptoCount := d.ptoCount + 1);
      var probe := if EarliestPto(d1).Some? then EarliestPto(d1).value.level else AntiDeadlockLevel(d1);
      (d1, TimeoutOutcome([], Some(probe)))
  }

  /** `restart_space`: what was held leaves with no congestion signal. */
  function RestartSpace(d: Detector, level: Level): Detector {
    var s := Get(d, level);
    Put(d, level, s.(sent := map[], lossTime := None))
      .(controller := OnDiscarded(d.controller, InFlightOnly(Held(s))), ptoCount := 0)
  }

  function DiscardSpace(d: Detector, level: Level): Detector {
    var d1 := RestartSpace(d, level);
    Put(d1, level, Get(d1, level).(discarded := true))
  }
}
