/** The rules of loss recovery written out: what an ACK takes, when it is a round trip
    sample, how long a probe timeout is, and what persistent congestion means
    (src/dsquic/recovery.py; sections 5, 6.2 and 7.6 of RFC 9002). */
module RecoveryRules {
  import opened Options
  import opened Frames
  import opened Acks
  import opened NewReno
  import opened Recovery
  import opened RecoveryProof
  import opened RecoveryTheorems

  /** An ACK of a number never sent is refused; otherwise it takes exactly the held
      packets it names, and what is held afterwards is exactly what it neither named
      nor exposed as lost. */
  lemma AckTakesExactly(d: Detector, level: Level, largest: int, ranges: seq<AckRange>, delay: real, now: real,
                        p: SentPacket)
    requires Filed(Get(d, level), level) && p.level == level
    ensures var (e, outcome) := OnAckReceived(d, level, largest, ranges, delay, now);
            var s, t := Get(d, level), Get(e, level);
            && (outcome.None? <==> largest > s.largestSent)
            && (outcome.None? ==> t == s && e.controller == d.controller)
            && (outcome.Some? ==>
                  && (p in outcome.value.acked
                      <==> p.number in s.sent && s.sent[p.number] == p && Acknowledges(ranges, p.number))
                  && (p.number in t.sent && t.sent[p.number] == p
                      <==> && p.number in s.sent && s.sent[p.number] == p
                           && p !in outcome.value.acked && p !in outcome.value.lost))
  {
    hide LossOf, DetectLost;
    var s := Get(d, level);
    AckedAre(s, level, ranges, p);
    if largest <= s.largestSent && NewlyAcked(s, ranges) != [] {
      var e := Acknowledge(d, level, largest, ranges, delay, now);
      LossIsExact(e, level, now, p);
    }
  }

  lemma AckedAre(s: Space, level: Level, ranges: seq<AckRange>, p: SentPacket)
    requires Filed(s, level)
    ensures p in NewlyAcked(s, ranges)
            <==> p.number in s.sent && s.sent[p.number] == p && Acknowledges(ranges, p.number)
  {
    hide Acknowledges;
    var newly := Newly(s, ranges);
    AscendingHas(Only(s.sent, newly), s.largestSent + 1, p);
    if p in NewlyAcked(s, ranges) {
      var n: nat :| n < s.largestSent + 1 && n in Only(s.sent, newly) && Only(s.sent, newly)[n] == p;
      assert s.sent[n].number == n;
    }
    if p.number in s.sent && s.sent[p.number] == p && Acknowledges(ranges, p.number) {
      assert p.number in Only(s.sent, newly) && p.number < s.largestSent + 1;
    }
  }

  /** What a batch says of the packets in it: it is in order of packet number. */
  lemma {:induction false} AscendingIsOrdered(sent: map<nat, SentPacket>, bound: nat)
    requires forall n :: n in sent ==> sent[n].number == n
    ensures forall i, j :: 0 <= i < j < |Ascending(sent, bound)| ==>
              Ascending(sent, bound)[i].number < Ascending(sent, bound)[j].number
    ensures forall i :: 0 <= i < |Ascending(sent, bound)| ==> Ascending(sent, bound)[i].number < bound
  {
    if bound > 0 { AscendingIsOrdered(sent, bound - 1); }
  }

  lemma {:induction false} ElicitingAre(ps: seq<SentPacket>)
    ensures ElicitingOnly(ps) != [] <==> exists k :: 0 <= k < |ps| && ps[k].ackEliciting
    decreases |ps|
  {
    if ps != [] {
      var n := |ps| - 1;
      var before := ps[..n];
      ElicitingAre(before);
      if k :| 0 <= k < n && before[k].ackEliciting { assert ps[k].ackEliciting; }
      if k :| 0 <= k < |ps| && ps[k].ackEliciting { assert k < n ==> before[k].ackEliciting; }
    }
  }

  /** An ACK that takes something resets the backoff and raises the largest
      acknowledged; it is a round trip sample exactly when the packet it names as
      largest is newly acknowledged and some newly acknowledged packet elicits ACKs;
      the delay counts in full until confirmation and up to the peer's maximum after. */
  lemma SampleRule(d: Detector, level: Level, largest: int, ranges: seq<AckRange>, delay: real, now: real)
    requires Filed(Get(d, level), level) && NewlyAcked(Get(d, level), ranges) != []
    ensures var e, acked := Acknowledge(d, level, largest, ranges, delay, now), NewlyAcked(Get(d, level), ranges);
            var last := acked[|acked| - 1];
            && e.ptoCount == 0
            && Get(e, level).largestAcked >= largest && Get(e, level).largestAcked >= Get(d, level).largestAcked
            && (Get(e, level).largestAcked == largest || Get(e, level).largestAcked == Get(d, level).largestAcked)
            && (forall k :: 0 <= k < |acked| - 1 ==> acked[k].number < last.number)
            && e.rtt == (if last.number == largest && (exists k :: 0 <= k < |acked| && acked[k].ackEliciting)
                         then Fold(d.rtt, now - last.timeSent,
                                   if d.confirmed && d.maxAckDelay < delay then d.maxAckDelay else delay)
                         else d.rtt)
  {
    hide OnAcked, Fold;
    var s := Get(d, level);
    ElicitingAre(NewlyAcked(s, ranges));
    AscendingIsOrdered(Only(s.sent, Newly(s, ranges)), s.largestSent + 1);
  }

  /** A timeout that finds no pending loss backs off by one; one that does leaves the
      backoff alone. */
  lemma TimeoutRule(d: Detector, now: real)
    ensures var (e, outcome) := OnTimeout(d, now);
            && e.lastEvent == Some(now)
            && e.ptoCount == d.ptoCount + (if outcome.probe.Some? then 1 else 0)
            && (outcome.probe.Some? <==>
                  forall level :: Get(d, level).discarded || Get(d, level).lossTime.None?)
  {
    hide SpaceAfterLoss, AfterLoss, LossOf, EarliestPto;
    assert EarliestLoss(d).None? <==> forall level :: LossAlarm(d, level).None? by {
      assert LossAlarm(d, Initial).None? && LossAlarm(d, Handshake).None? && LossAlarm(d, OneRtt).None?
             ==> forall level :: LossAlarm(d, level).None?;
    }
  }

  /** A probe timeout without backoff: the smoothed round trip, four times its variation
      or a millisecond, and at the application level the peer's delay on top. */
  lemma ProbeInterval(d: Detector, level: Level)
    requires d.ptoCount == 0
    ensures var wait := PtoDuration(d, level) - (if level == OneRtt then d.maxAckDelay else 0.0) - d.rtt.smoothed;
            && PtoDuration(d, level) <= 60.0
            && (PtoDuration(d, level) < 60.0 ==>
                  && wait >= 4.0 * d.rtt.rttvar && wait >= 0.001
                  && (wait == 4.0 * d.rtt.rttvar || wait == 0.001))
  {
  }

  // -------------------------------------------------------- persistent congestion

  /** `first` and `last` are the outermost ack-eliciting packets of a batch. */
  ghost predicate Outermost(ps: seq<SentPacket>, first: int, last: int) {
    && 0 <= first <= last < |ps| && ps[first].ackEliciting && ps[last].ackEliciting
    && forall k :: 0 <= k < |ps| && (k < first || last < k) ==> !ps[k].ackEliciting
  }

  lemma {:induction false} ElicitingEnds(ps: seq<SentPacket>, first: int, last: int)
    requires Outermost(ps, first, last)
    ensures var e := ElicitingOnly(ps);
            && e != [] && e[0] == ps[first] && e[|e| - 1] == ps[last]
            && (|e| >= 2 <==> first < last)
    decreases |ps|
  {
    var n := |ps| - 1;
    var before := ps[..n];
    if last < n {
      assert forall k :: 0 <= k < n ==> before[k] == ps[k];
      ElicitingEnds(before, first, last);
    } else if first == last {
      ElicitingAre(before);
      assert forall k :: 0 <= k < n ==> before[k] == ps[k];
    } else {
      var k := n - 1;
      while !ps[k].ackEliciting
        invariant first <= k < n
        invariant forall i :: k < i < n ==> !ps[i].ackEliciting
        decreases k
      {
        k := k - 1;
      }
      assert forall i :: 0 <= i < n ==> before[i] == ps[i];
      ElicitingEnds(before, first, k);
    }
  }

  /** Losses are persistent congestion exactly when the outermost ack-eliciting ones are
      two packets sent further apart than three probe timeouts. */
  lemma PersistentIsExact(d: Detector, lost: seq<SentPacket>, first: int, last: int)
    requires Outermost(lost, first, last)
    ensures var apart := lost[last].timeSent - lost[first].timeSent - 3.0 * (d.rtt.smoothed + d.maxAckDelay);
            SpansPersistentCongestion(d, lost) <==> first < last && apart > 12.0 * d.rtt.rttvar && apart > 0.003
  {
    ElicitingEnds(lost, first, last);
  }

  /** What a detection pass tells the congestion controller: nothing when nothing in flight
      was lost; two datagrams under persistent congestion, once there is a round trip
      sample; otherwise half the window for a loss outside recovery. */
  lemma CongestionRule(d: Detector, level: Level, now: real)
    ensures var flight := InFlightOnly(LossOf(d, level, now));
            var c, e := d.controller, DetectLost(d, level, now).controller;
            if flight == [] then e == c
            else if d.rtt.hasSample && SpansPersistentCongestion(d, flight) then e.window == 2 * c.datagram
            else if InRecovery(c, LatestSent(flight)) then e.window == c.window
            else (e.window == c.window / 2 || e.window == 2 * c.datagram)
                 && e.window >= c.window / 2 && e.window >= 2 * c.datagram
  {
    hide LossOf, SpansPersistentCongestion, SpaceAfterLoss;
    var flight := InFlightOnly(LossOf(d, level, now));
    if flight != [] {
      SignalsHalve(d.controller, NewReno.Lost(flight, now));
      SignalsHalve(OnLost(d.controller, flight, now), Persistent);
    }
  }

  // ------------------------------------------------------------------- the timer

  /** When a live space has a loss pending. */
  function LossAt(d: Detector, level: Level): Option<real> {
    if Get(d, level).discarded then None else Get(d, level).lossTime
  }

  predicate Elicits(s: Space, n: nat) { n in s.sent && s.sent[n].ackEliciting }

  /** The ack-eliciting packet sent last. */
  ghost predicate Newest(s: Space, n: nat) {
    Elicits(s, n) && forall m :: Elicits(s, m) ==> s.sent[m].timeSent <= s.sent[n].timeSent
  }

  /** A probe timeout of the space may run: it is live, confirmed for application data,
      and has something outstanding. */
  ghost predicate Waits(d: Detector, level: Level) {
    !Get(d, level).discarded && (level == OneRtt ==> d.confirmed) && exists n :: Elicits(Get(d, level), n)
  }

  function Due(d: Detector, level: Level, n: nat): real
    requires n in Get(d, level).sent
  {
    Get(d, level).sent[n].timeSent + PtoDuration(d, level)
  }

  lemma {:induction false} LastIsNewest(s: Space, bound: nat)
    ensures match LastEliciting(s.sent, bound)
            case None => forall n: nat :: n < bound ==> !Elicits(s, n)
            case Some(t) =>
              && (exists n: nat :: n < bound && Elicits(s, n) && s.sent[n].timeSent == t)
              && (forall n: nat :: n < bound && Elicits(s, n) ==> s.sent[n].timeSent <= t)
    decreases bound
  {
    if bound > 0 {
      LastIsNewest(s, bound - 1);
      if Elicits(s, bound - 1) { assert bound - 1 < bound; }
    }
  }

  lemma AlarmIsExact(d: Detector, level: Level)
    requires Filed(Get(d, level), level)
    ensures PtoAlarm(d, level).Some? <==> Waits(d, level)
    ensures PtoAlarm(d, level).Some? ==>
              && (exists n :: Newest(Get(d, level), n) && PtoAlarm(d, level).value.at == Due(d, level, n))
              && (forall n :: Newest(Get(d, level), n) ==> PtoAlarm(d, level).value.at == Due(d, level, n))
  {
    hide PtoDuration, LastEliciting;
    var s := Get(d, level);
    LastIsNewest(s, s.largestSent + 1);
    assert forall n: nat :: Elicits(s, n) ==> n < s.largestSent + 1;
    if PtoAlarm(d, level).Some? {
      var n: nat :| n < s.largestSent + 1 && Elicits(s, n)
                    && Some(s.sent[n].timeSent) == LastEliciting(s.sent, s.largestSent + 1);
      assert Newest(s, n);
    }
  }

  lemma NoAlarm(d: Detector)
    ensures EarliestLoss(d).None? <==> forall level :: LossAlarm(d, level).None?
    ensures EarliestPto(d).None? <==> forall level :: PtoAlarm(d, level).None?
  {
    hide PtoAlarm;
    if EarliestLoss(d).None? {
      forall level ensures LossAlarm(d, level).None? {
        match level
        case Initial =>
        case Handshake =>
        case OneRtt =>
      }
    }
    if EarliestPto(d).None? {
      forall level ensures PtoAlarm(d, level).None? {
        match level
        case Initial =>
        case Handshake =>
        case OneRtt =>
      }
    }
  }

  /** The timer is the earliest pending loss; without one, the earliest of the probe
      timeouts, each counted from the last ack-eliciting packet of its space; without
      one, an unconfirmed client counts from the last thing that happened. */
  lemma TimerRule(d: Detector)
    requires forall level :: Filed(Get(d, level), level)
    ensures if exists level :: LossAt(d, level).Some? then
              && (exists level :: LossAt(d, level).Some? && Timer(d) == LossAt(d, level))
              && (forall level :: LossAt(d, level).Some? ==> Timer(d).value <= LossAt(d, level).value)
            else if exists level :: Waits(d, level) then
              && Timer(d).Some?
              && (exists level, n :: Waits(d, level) && Newest(Get(d, level), n) && Timer(d).value == Due(d, level, n))
              && (forall level, n :: Waits(d, level) && Newest(Get(d, level), n) ==> Timer(d).value <= Due(d, level, n))
            else if d.isClient && !d.confirmed && d.lastEvent.Some? then
              Timer(d) == Some(d.lastEvent.value + PtoDuration(d, if d.initial.discarded then Handshake else Initial))
            else Timer(d).None?
  {
    hide PtoDuration, PtoAlarm, EarliestLoss, EarliestPto, Waits, Filed;
    NoAlarm(d);
    forall level ensures (LossAlarm(d, level).Some? <==> LossAt(d, level).Some?) {}
    if EarliestLoss(d).Some? { SoonestLoss(d); } else if EarliestPto(d).Some? { SoonestPto(d); }
    forall level ensures PtoAlarm(d, level).Some? <==> Waits(d, level) { AlarmIsExact(d, level); }
    if EarliestLoss(d).None? && EarliestPto(d).Some? {
      var first := EarliestPto(d).value.level;
      AlarmIsExact(d, first);
      var n: nat :| Newest(Get(d, first), n) && PtoAlarm(d, first).value.at == Due(d, first, n);
      forall level, k | Waits(d, level) && Newest(Get(d, level), k) ensures Timer(d).value <= Due(d, level, k) {
        AlarmIsExact(d, level);
      }
    }
  }

  /** Before any sample a probe goes out after 0.999 seconds. */
  lemma FirstProbe(datagram: nat, isClient: bool, maxAckDelay: real)
    ensures PtoDuration(NewDetector(datagram, isClient, maxAckDelay), Initial) == 0.999
  {
  }
}
