/** The promises of loss recovery, over every run. */
module RecoveryTheorems {
  import opened Options
  import opened NewReno
  import opened Recovery
  import opened RecoveryProof
  import opened RecoveryRuns

  /** After every run the controller's count is the size of the packets still held
      in flight over the three spaces, so it is never negative. */
  lemma InFlightIsConserved(datagram: nat, isClient: bool, maxAckDelay: real, ops: seq<Op>)
    ensures var d := RecoveryRuns.Run(Start(datagram, isClient, maxAckDelay), ops).d;
            d.controller.inFlight
              == FlightOf(Held(d.initial)) + FlightOf(Held(d.handshake)) + FlightOf(Held(d.oneRtt)) >= 0
  {
    hide FlightOf, Held, RecoveryRuns.Run, Start;
    RunKeeps(datagram, isClient, maxAckDelay, ops);
  }

  /** After every run a packet that was sent is in exactly one place: still held,
      acknowledged, lost or dropped; a packet never sent is in none. */
  lemma EachPacketHasOneFate(datagram: nat, isClient: bool, maxAckDelay: real, ops: seq<Op>, name: Name)
    ensures var t := RecoveryRuns.Run(Start(datagram, isClient, maxAckDelay), ops);
            && (name in t.sent <==> Holds(t.d, name) || name in t.acked || name in t.lost || name in t.dropped)
            && (Holds(t.d, name) ==> name !in t.acked && name !in t.lost && name !in t.dropped)
            && (name in t.acked ==> name !in t.lost && name !in t.dropped)
            && (name in t.lost ==> name !in t.dropped)
  {
    RunKeeps(datagram, isClient, maxAckDelay, ops);
    var t := RecoveryRuns.Run(Start(datagram, isClient, maxAckDelay), ops);
    assert Places(t, name) == if name in t.sent then 1 else 0;
  }

  lemma SoonestLoss(d: Detector)
    requires EarliestLoss(d).Some?
    ensures LossAlarm(d, EarliestLoss(d).value.level) == EarliestLoss(d)
    ensures forall level :: LossAlarm(d, level).Some? ==> EarliestLoss(d).value.at <= LossAlarm(d, level).value.at
  {
  }

  /** A pass over a space with a pending deadline declares a loss or leaves a later one. */
  lemma PassMakesProgress(d: Detector, level: Level, now: real)
    requires Filed(Get(d, level), level) && Backed(Get(d, level)) && Get(d, level).lossTime.Some?
    ensures LossOf(d, level, now) != []
         || (Get(DetectLost(d, level, now), level).lossTime.Some?
             && Get(DetectLost(d, level, now), level).lossTime.value > now)
  {
    var s := Get(d, level);
    var n :| n in s.sent && n <= s.largestAcked;
    LossIsExact(d, level, now, s.sent[n]);
    NextDeadlineIsExact(d, level, now);
  }

  /** The loss deadline of a space has come. */
  predicate Due(d: Detector, level: Level, now: real) {
    LossAlarm(d, level).Some? && LossAlarm(d, level).value.at <= now
  }

  function DueCount(d: Detector, now: real): nat {
    (if Due(d, Initial, now) then 1 else 0) + (if Due(d, Handshake, now) then 1 else 0)
    + (if Due(d, OneRtt, now) then 1 else 0)
  }

  lemma OtherSpacesStay(d: Detector, level: Level, now: real)
    ensures forall l :: l != level ==> Get(DetectLost(d, level, now), l) == Get(d, l)
    ensures Get(DetectLost(d, level, now), level).discarded == Get(d, level).discarded
  {
    hide SpaceAfterLoss, AfterLoss, LossOf;
    DiscardStays(Get(d, level), LossDelay(d.rtt), now);
  }

  lemma DiscardStays(s: Space, delay: real, now: real)
    ensures SpaceAfterLoss(s, delay, now).discarded == s.discarded
  {
  }

  /** A pass leaves its space not due, and the others as they were. */
  lemma PassSettles(d: Detector, level: Level, now: real)
    requires Filed(Get(d, level), level)
    ensures var e := DetectLost(d, level, now);
            DueCount(e, now) == DueCount(d, now) - (if Due(d, level, now) then 1 else 0)
  {
    hide DetectLost;
    OtherSpacesStay(d, level, now);
    NextDeadlineIsExact(d, level, now);
  }

  /** A fired loss timer declares losses or re-arms its space strictly later, and never
      probes; when the deadline had come, one space fewer is due, so the timer moves
      past the present after at most three passes. */
  lemma LossTimerMakesProgress(datagram: nat, isClient: bool, maxAckDelay: real, ops: seq<Op>, now: real)
    ensures var d := RecoveryRuns.Run(Start(datagram, isClient, maxAckDelay), ops).d;
            var (e, outcome) := OnTimeout(d, now);
            EarliestLoss(d).Some? ==>
              && outcome.probe.None?
              && (|| outcome.lost != []
                  || (Get(e, EarliestLoss(d).value.level).lossTime.Some?
                      && Get(e, EarliestLoss(d).value.level).lossTime.value > now))
              && (EarliestLoss(d).value.at <= now ==> DueCount(e, now) == DueCount(d, now) - 1)
  {
    hide RecoveryRuns.Run, Start, DetectLost, LossOf, EarliestPto;
    RunKeeps(datagram, isClient, maxAckDelay, ops);
    var d := RecoveryRuns.Run(Start(datagram, isClient, maxAckDelay), ops).d;
    if EarliestLoss(d).Some? {
      SoonestLoss(d);
      var level := EarliestLoss(d).value.level;
      var d0 := d.(lastEvent := Some(now));
      assert forall l :: Get(d0, l) == Get(d, l);
      PassMakesProgress(d0, level, now);
      PassSettles(d0, level, now);
    }
  }

  // -------------------------------------------------------------- probe timeouts

  lemma {:induction false} LastElicitingIsMaximum(sent: map<nat, SentPacket>, bound: nat)
    ensures var t := LastEliciting(sent, bound);
            && (t.None? ==> forall n: nat :: n < bound && n in sent ==> !sent[n].ackEliciting)
            && (t.Some? ==>
                  && (exists n: nat :: n < bound && n in sent && sent[n].ackEliciting && sent[n].timeSent == t.value)
                  && (forall n: nat :: n < bound && n in sent && sent[n].ackEliciting ==> sent[n].timeSent <= t.value))
  {
    if bound > 0 {
      LastElicitingIsMaximum(sent, bound - 1);
      var t := LastEliciting(sent, bound);
      var before := LastEliciting(sent, bound - 1);
      var n := bound - 1;
      if n in sent && sent[n].ackEliciting {
        assert t.Some? && sent[n].timeSent <= t.value;
        if before.Some? && t == before {
          var k: nat :| k < n && k in sent && sent[k].ackEliciting && sent[k].timeSent == before.value;
          assert k < bound;
        } else {
          assert n < bound && sent[n].timeSent == t.value;
        }
      } else if before.Some? {
        var k: nat :| k < n && k in sent && sent[k].ackEliciting && sent[k].timeSent == before.value;
        assert k < bound;
      }
    }
  }

  lemma SoonestPto(d: Detector)
    requires EarliestPto(d).Some?
    ensures PtoAlarm(d, EarliestPto(d).value.level) == EarliestPto(d)
    ensures forall level :: PtoAlarm(d, level).Some? ==> EarliestPto(d).value.at <= PtoAlarm(d, level).value.at
  {
    hide PtoAlarm;
    AlarmsNameTheirLevel(d);
  }

  lemma AlarmsNameTheirLevel(d: Detector)
    ensures forall level :: PtoAlarm(d, level).Some? ==> PtoAlarm(d, level).value.level == level
  {
  }

  /** Changing the backoff moves every deadline but not the order of the spaces,
      given that confirmation implies Initial and Handshake are discarded. */
  lemma BackoffKeepsOrder(d: Detector, count: nat)
    requires d.confirmed ==> d.initial.discarded && d.handshake.discarded
    ensures var e := d.(ptoCount := count);
            && (EarliestPto(e).Some? <==> EarliestPto(d).Some?)
            && (EarliestPto(d).Some? ==> EarliestPto(e).value.level == EarliestPto(d).value.level)
  {
    hide PtoDuration, LastEliciting;
    var e := d.(ptoCount := count);
    PtoLevelsAgree(d);
    PtoLevelsAgree(e);
    assert forall level :: Get(e, level) == Get(d, level);
  }

  lemma PtoLevelsAgree(d: Detector)
    ensures PtoDuration(d, Initial) == PtoDuration(d, Handshake)
  {
    hide Backoff;
  }

  /** A PTO probes the space whose deadline the timer was set for: a live space with
      an ack-eliciting packet outstanding and no earlier deadline, although the
      backoff is doubled before the level is recomputed. */
  lemma ProbeHitsExpiredSpace(datagram: nat, isClient: bool, maxAckDelay: real, ops: seq<Op>, now: real)
    ensures var d := RecoveryRuns.Run(Start(datagram, isClient, maxAckDelay), ops).d;
            EarliestLoss(d).None? && EarliestPto(d).Some? ==>
              var probe := OnTimeout(d, now).1.probe;
              && probe.Some?
              && Timer(d).Some? && PtoAlarm(d, probe.value) == Some(Alarm(Timer(d).value, probe.value))
              && !Get(d, probe.value).discarded
              && (exists n :: n in Get(d, probe.value).sent && Get(d, probe.value).sent[n].ackEliciting)
              && (forall level :: PtoAlarm(d, level).Some? ==> Timer(d).value <= PtoAlarm(d, level).value.at)
  {
    hide RecoveryRuns.Run, Start, DetectLost, LossOf, PtoDuration, LastEliciting, EarliestLoss;
    RunKeeps(datagram, isClient, maxAckDelay, ops);
    var d := RecoveryRuns.Run(Start(datagram, isClient, maxAckDelay), ops).d;
    if EarliestLoss(d).None? && EarliestPto(d).Some? {
      var d1 := d.(lastEvent := Some(now), ptoCount := d.ptoCount + 1);
      BackoffKeepsOrder(d, d.ptoCount + 1);
      ClockIgnored(d.(ptoCount := d.ptoCount + 1), now);
      SoonestPto(d);
      var s := Get(d, EarliestPto(d).value.level);
      LastElicitingIsMaximum(s.sent, s.largestSent + 1);
    }
  }

  lemma ClockIgnored(d: Detector, now: real)
    ensures EarliestPto(d.(lastEvent := Some(now))) == EarliestPto(d)
  {
    hide Backoff;
    var e := d.(lastEvent := Some(now));
    assert forall level :: Get(e, level) == Get(d, level);
    assert forall level :: PtoDuration(e, level) == PtoDuration(d, level);
  }

  /** An unconfirmed client with nothing to wait for still has a timer once it has
      sent, and what it then probes is a live space. */
  lemma AntiDeadlockProbesLiveSpace(datagram: nat, isClient: bool, maxAckDelay: real, ops: seq<Op>, now: real)
    ensures var d := RecoveryRuns.Run(Start(datagram, isClient, maxAckDelay), ops).d;
            d.isClient && EarliestLoss(d).None? && EarliestPto(d).None? && !d.confirmed ==>
              var probe := OnTimeout(d, now).1.probe;
              && (Timer(d).Some? <==> d.lastEvent.Some?)
              && probe.Some? && !Get(d, probe.value).discarded
              && probe.value == (if d.initial.discarded then Handshake else Initial)
  {
    hide RecoveryRuns.Run, Start, DetectLost, LossOf, PtoDuration, LastEliciting, EarliestLoss;
    RunKeeps(datagram, isClient, maxAckDelay, ops);
    var d := RecoveryRuns.Run(Start(datagram, isClient, maxAckDelay), ops).d;
    BackoffKeepsOrder(d, d.ptoCount + 1);
    ClockIgnored(d.(ptoCount := d.ptoCount + 1), now);
  }

  /** While an ack-eliciting packet is held, a timer is armed, except for a server's
      application data before confirmation with nothing else to wait for. */
  lemma OutstandingDataArmsTimer(datagram: nat, isClient: bool, maxAckDelay: real, ops: seq<Op>, name: Name)
    ensures var d := RecoveryRuns.Run(Start(datagram, isClient, maxAckDelay), ops).d;
            Holds(d, name) && Get(d, name.0).sent[name.1].ackEliciting
            && (name.0 == OneRtt && !d.confirmed ==> d.isClient) ==>
              Timer(d).Some?
  {
    hide RecoveryRuns.Run, Start, PtoDuration, LastEliciting, EarliestLoss;
    RunKeeps(datagram, isClient, maxAckDelay, ops);
    RunStamps(datagram, isClient, maxAckDelay, ops);
    var t := RecoveryRuns.Run(Start(datagram, isClient, maxAckDelay), ops);
    var d := t.d;
    var s := Get(d, name.0);
    LastElicitingIsMaximum(s.sent, s.largestSent + 1);
    if Holds(d, name) {
      assert SpaceOk(s, name.0) && !s.discarded;
      assert Places(t, name) == if name in t.sent then 1 else 0;
      assert d.lastEvent.Some?;
      assert s.sent[name.1].ackEliciting && (name.0 == OneRtt ==> d.confirmed) ==> PtoAlarm(d, name.0).Some?;
    }
  }

  /** Each expiration doubles the interval, up to a minute. */
  lemma BackoffDoubles(interval: real, count: nat)
    ensures Backoff(interval, 0) == Smaller(interval, MAX_PTO)
    ensures Backoff(interval, count + 1) == Smaller(2.0 * Backoff(interval, count), MAX_PTO)
  {
    assert Doubled(interval, count + 1) == 2.0 * Doubled(interval, count);
  }

  /** Without the connection's invariant the recomputed level can be the wrong one:
      with Handshake still live after confirmation, the application deadline comes
      first, yet the doubled backoff names Handshake. */
  lemma OrderNeedsInvariant()
    ensures exists d: Detector :: d.confirmed && !d.handshake.discarded
              && EarliestPto(d).Some? && EarliestPto(d).value.level == OneRtt
              && OnTimeout(d, EarliestPto(d).value.at).1.probe == Some(Handshake)
  {
    var h := SentPacket(Handshake, 0, 1.5, true, true, 1200);
    var a := SentPacket(OneRtt, 0, 0.0, true, true, 1200);
    var rtt := Rtt(0.2, 0.2, 0.2, 0.2, true);
    var d := Detector(NewController(1200), rtt, true, true, 1.0, 0, NewSpace(),
                      Space(map[0 := h], 0, -1, None, false), Space(map[0 := a], 0, -1, None, false), None);
    assert LastEliciting(map[0 := h], 0).None? && LastEliciting(map[0 := a], 0).None?;
    assert LastEliciting(d.handshake.sent, 1) == Some(1.5);
    assert LastEliciting(d.oneRtt.sent, 1) == Some(0.0);
    assert LastEliciting(d.initial.sent, 0) == None;
    assert BasePto(rtt) == 1.0;
    assert Doubled(1.0, 0) == 1.0 && Doubled(1.0, 1) == 2.0;
    assert Doubled(2.0, 0) == 2.0 && Doubled(2.0, 1) == 4.0;
    assert PtoAlarm(d, Handshake) == Some(Alarm(2.5, Handshake));
    assert PtoAlarm(d, OneRtt) == Some(Alarm(2.0, OneRtt));
    var e := d.(ptoCount := 1);
    assert PtoAlarm(e, Handshake) == Some(Alarm(3.5, Handshake));
    assert PtoAlarm(e, OneRtt) == Some(Alarm(4.0, OneRtt));
    ClockIgnored(e, 2.0);
  }

  // ------------------------------------------------------------ RTT estimation

  ghost predicate RttOk(r: Rtt) { r.hasSample ==> r.min <= r.smoothed && r.min <= r.latest && r.rttvar >= 0.0 }

  /** The first sample sets the estimate; later ones move the smoothed value an eighth and
      the variation a quarter of the way, by the sample less the peer's delay unless
      that would fall below the minimum. */
  lemma SampleMovesEstimate(r: Rtt, sample: real, ackDelay: real)
    ensures var u := Fold(r, sample, ackDelay);
            var least := if r.hasSample && r.min < sample then r.min else sample;
            var taken := if sample < least + ackDelay then sample else sample - ackDelay;
            && u.hasSample && u.latest == sample && u.min == least
            && (!r.hasSample ==> u.smoothed == sample && 2.0 * u.rttvar == sample)
            && (r.hasSample ==>
                  && 8.0 * (u.smoothed - r.smoothed) == taken - r.smoothed
                  && 4.0 * (u.rttvar - r.rttvar) == Abs(taken - r.smoothed) - r.rttvar)
  {
  }

  /** A sample never drags the smoothed round trip below the minimum seen, whatever
      delay the peer reports, and the minimum is the least of the samples. */
  lemma SmoothedStaysAboveMinimum(r: Rtt, sample: real, ackDelay: real)
    requires RttOk(r) && sample >= 0.0
    ensures var u := Fold(r, sample, ackDelay);
            && RttOk(u) && u.hasSample && u.latest == sample
            && u.min == (if r.hasSample && r.min <= sample then r.min else sample)
            && (r.hasSample ==> u.smoothed <= Larger(r.smoothed, Larger(sample, sample - ackDelay)))
  {
    var m := Smaller(r.min, sample);
    assert Adjusted(m, sample, ackDelay) >= m;
  }
}
