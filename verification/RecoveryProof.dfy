/** What every run of loss recovery keeps: bytes in flight are exactly those of the
    packets still held, every packet meets at most one fate, losses are exactly the
    packets the thresholds name, and the timers point at the right space. */
module RecoveryProof {
  import opened Options
  import opened Frames
  import opened NewReno
  import opened Recovery

  // ------------------------------------------------- packets held, in order

  lemma {:induction false} AscendingHas(sent: map<nat, SentPacket>, bound: nat, p: SentPacket)
    ensures p in Ascending(sent, bound) <==> exists n: nat :: n < bound && n in sent && sent[n] == p
  {
    if bound > 0 {
      AscendingHas(sent, bound - 1, p);
    }
  }

  /** Splitting the held packets in two splits the bytes in flight. */
  lemma {:induction false} FlightSplits(sent: map<nat, SentPacket>, taken: set<nat>, bound: nat)
    ensures FlightOf(Ascending(sent, bound))
         == FlightOf(Ascending(Only(sent, taken), bound)) + FlightOf(Ascending(sent - taken, bound))
  {
    if bound > 0 {
      FlightSplits(sent, taken, bound - 1);
      var n := bound - 1;
      assert n in Only(sent, taken) <==> n in sent && n in taken;
      assert n in sent - taken <==> n in sent && n !in taken;
      FlightStep(sent, bound);
      FlightStep(Only(sent, taken), bound);
      FlightStep(sent - taken, bound);
    }
  }

  lemma FlightStep(sent: map<nat, SentPacket>, bound: nat)
    requires bound > 0
    ensures FlightOf(Ascending(sent, bound)) == FlightOf(Ascending(sent, bound - 1))
         + (if bound - 1 in sent && sent[bound - 1].inFlight then sent[bound - 1].size else 0)
  {
    if bound - 1 in sent {
      var before := Ascending(sent, bound - 1);
      assert (before + [sent[bound - 1]])[..|before|] == before;
    }
  }

  lemma FlightOfNone()
    ensures FlightOf([]) == 0
  {
  }

  lemma {:induction false} FlightOfFiltered(ps: seq<SentPacket>)
    ensures FlightOf(InFlightOnly(ps)) == FlightOf(ps)
    decreases |ps|
  {
    if ps != [] {
      var n := |ps| - 1;
      FlightOfFiltered(ps[..n]);
      var rest := InFlightOnly(ps[..n]);
      assert (rest + [ps[n]])[..|rest|] == rest;
    }
  }

  /** Packet numbers above every held one add nothing. */
  lemma {:induction false} AscendingBeyond(sent: map<nat, SentPacket>, low: nat, high: nat)
    requires low <= high && forall n :: n in sent ==> n < low
    ensures Ascending(sent, high) == Ascending(sent, low)
    decreases high
  {
    if low < high { AscendingBeyond(sent, low, high - 1); }
  }

  lemma {:induction false} AscendingSame(a: map<nat, SentPacket>, b: map<nat, SentPacket>, bound: nat)
    requires forall n: nat :: n < bound ==> (n in a <==> n in b) && (n in a ==> a[n] == b[n])
    ensures Ascending(a, bound) == Ascending(b, bound)
  {
    if bound > 0 { AscendingSame(a, b, bound - 1); }
  }

  lemma {:induction false} AscendingEmpty(bound: nat)
    ensures Ascending(map[], bound) == []
  {
    if bound > 0 { AscendingEmpty(bound - 1); }
  }

  // ------------------------------------------------------------ the invariant

  /** Packets are filed under their own number and space, at or below the largest sent. */
  ghost predicate Filed(s: Space, level: Level) {
    forall n :: n in s.sent ==> n <= s.largestSent && s.sent[n].number == n && s.sent[n].level == level
  }

  /** A pending loss deadline always has a packet behind it. */
  ghost predicate Backed(s: Space) {
    s.lossTime.Some? ==> exists n :: n in s.sent && n <= s.largestAcked
  }

  ghost predicate SpaceOk(s: Space, level: Level) {
    && Filed(s, level) && Backed(s) && s.largestAcked <= s.largestSent
    && (s.discarded ==> s.sent == map[] && s.lossTime.None?)
  }

  function FlightHeld(d: Detector): nat {
    FlightOf(Held(d.initial)) + FlightOf(Held(d.handshake)) + FlightOf(Held(d.oneRtt))
  }

  ghost predicate Accounted(d: Detector) {
    && (forall level :: SpaceOk(Get(d, level), level))
    && d.controller.inFlight == FlightHeld(d)
    && (d.handshake.discarded <==> d.confirmed)
    && (d.confirmed ==> d.initial.discarded)
    && !d.oneRtt.discarded
  }

  // ------------------------------------------------------------ loss detection

  lemma {:induction false} DeadlineIsMinimum(sent: map<nat, SentPacket>, acked: int, delay: real, bound: nat)
    ensures var t := EarliestDeadline(sent, acked, delay, bound);
            && (t.None? ==> forall n: nat :: n < bound && n in sent ==> n > acked)
            && (t.Some? ==>
                  && (exists n: nat :: n < bound && n in sent && n <= acked && sent[n].timeSent + delay == t.value)
                  && (forall n: nat :: n < bound && n in sent && n <= acked ==> t.value <= sent[n].timeSent + delay))
  {
    if bound > 0 {
      DeadlineIsMinimum(sent, acked, delay, bound - 1);
      var t := EarliestDeadline(sent, acked, delay, bound);
      var before := EarliestDeadline(sent, acked, delay, bound - 1);
      var n := bound - 1;
      if n in sent && n <= acked {
        assert t.Some? && t.value <= sent[n].timeSent + delay;
        if before.Some? && t == before {
          var k: nat :| k < n && k in sent && k <= acked && sent[k].timeSent + delay == before.value;
          assert k < bound;
        } else {
          assert n < bound && sent[n].timeSent + delay == t.value;
        }
      } else if before.Some? {
        var k: nat :| k < n && k in sent && k <= acked && sent[k].timeSent + delay == before.value;
        assert k < bound;
      }
    }
  }

  /** A packet sent at the given time is lost by time: nine eighths of both round trip
      values have passed, and at least a millisecond. */
  predicate Overdue(sent: real, r: Rtt, now: real) {
    sent + 9.0 * r.latest / 8.0 <= now && sent + 9.0 * r.smoothed / 8.0 <= now && sent + 0.001 <= now
  }

  lemma OverdueByDelay(sent: real, r: Rtt, now: real)
    ensures Overdue(sent, r, now) <==> sent + LossDelay(r) <= now
  {
  }

  /** One detection pass returns precisely the packets at or below the largest
      acknowledged that are three behind it or overdue, and keeps the rest. */
  lemma LossIsExact(d: Detector, level: Level, now: real, p: SentPacket)
    requires Filed(Get(d, level), level)
    ensures var s := Get(d, level);
            p in LossOf(d, level, now) <==>
              && p.number in s.sent && s.sent[p.number] == p
              && p.number <= s.largestAcked
              && (p.number + 3 <= s.largestAcked || Overdue(p.timeSent, d.rtt, now))
    ensures var s, t := Get(d, level), Get(DetectLost(d, level, now), level);
            (p.number in t.sent && t.sent[p.number] == p)
              <==> (p.number in s.sent && s.sent[p.number] == p && p !in LossOf(d, level, now))
  {
    hide LossDelay;
    OverdueByDelay(p.timeSent, d.rtt, now);
    var s := Get(d, level);
    var lost := LostNumbers(s, LossDelay(d.rtt), now);
    AscendingHas(Only(s.sent, lost), s.largestSent + 1, p);
    if p in LossOf(d, level, now) {
      var n: nat :| n < s.largestSent + 1 && n in Only(s.sent, lost) && Only(s.sent, lost)[n] == p;
      assert s.sent[n].number == n;
    }
    if p.number in s.sent && s.sent[p.number] == p && IsLost(s, p.number, LossDelay(d.rtt), now) {
      assert p.number in Only(s.sent, lost) && p.number < s.largestSent + 1;
    }
  }

  /** Some packet held at or below the largest acknowledged is overdue. */
  ghost predicate SomeOverdue(s: Space, r: Rtt, at: real) {
    exists n :: n in s.sent && n <= s.largestAcked && Overdue(s.sent[n].timeSent, r, at)
  }

  /** The deadline left behind is the first moment at which a survivor at or below the
      largest acknowledged will be overdue; it lies strictly after the pass, and is
      absent exactly when there is no such survivor. */
  lemma NextDeadlineIsExact(d: Detector, level: Level, now: real)
    requires Filed(Get(d, level), level)
    ensures var s := Get(DetectLost(d, level, now), level);
            && (s.lossTime.None? <==> forall n :: n in s.sent ==> n > s.largestAcked)
            && (s.lossTime.Some? ==>
                  && s.lossTime.value > now && SomeOverdue(s, d.rtt, s.lossTime.value)
                  && forall at :: at < s.lossTime.value ==> !SomeOverdue(s, d.rtt, at))
  {
    hide LossDelay, Overdue;
    var s := Get(d, level);
    var t := Get(DetectLost(d, level, now), level);
    DeadlineIsMinimum(t.sent, s.largestAcked, LossDelay(d.rtt), s.largestSent + 1);
    forall n | n in t.sent ensures n < s.largestSent + 1 {
      assert n in s.sent;
    }
    if t.lossTime.Some? {
      var due := t.lossTime.value;
      var n: nat :| n < s.largestSent + 1 && n in t.sent && n <= s.largestAcked
                    && t.sent[n].timeSent + LossDelay(d.rtt) == due;
      assert !IsLost(s, n, LossDelay(d.rtt), now);
      OverdueByDelay(t.sent[n].timeSent, d.rtt, due);
      forall at | at < due ensures !SomeOverdue(t, d.rtt, at) {
        forall k | k in t.sent && k <= t.largestAcked ensures !Overdue(t.sent[k].timeSent, d.rtt, at) {
          OverdueByDelay(t.sent[k].timeSent, d.rtt, at);
        }
      }
    }
  }

  // ------------------------------------------------------- what each step keeps

  /** Replacing one space and moving the counter by the same amount keeps the account. */
  lemma PutKeeps(d: Detector, level: Level, s: Space, c: Reno)
    requires Accounted(d) && SpaceOk(s, level) && s.discarded == Get(d, level).discarded
    requires c.inFlight - d.controller.inFlight == FlightOf(Held(s)) - FlightOf(Held(Get(d, level)))
    ensures Accounted(Put(d, level, s).(controller := c))
  {
    hide SpaceOk, Held, FlightOf;
    var e := Put(d, level, s).(controller := c);
    forall l ensures SpaceOk(Get(e, l), l) {
      assert l != level ==> Get(e, l) == Get(d, l);
    }
  }

  lemma AfterLossFlight(d: Detector, lost: seq<SentPacket>, now: real)
    ensures AfterLoss(d, lost, now).inFlight == d.controller.inFlight - FlightOf(lost)
  {
    FlightOfFiltered(lost);
  }

  lemma SurvivorsOk(s: Space, level: Level, delay: real, now: real)
    requires Filed(s, level) && s.largestAcked <= s.largestSent
    requires s.discarded ==> s.sent == map[]
    ensures SpaceOk(SpaceAfterLoss(s, delay, now), level)
  {
    var t := SpaceAfterLoss(s, delay, now);
    DeadlineIsMinimum(t.sent, s.largestAcked, delay, s.largestSent + 1);
    if s.discarded { assert t.sent == map[]; }
  }

  lemma DetectKeeps(d: Detector, level: Level, now: real)
    requires Accounted(d)
    ensures Accounted(DetectLost(d, level, now))
  {
    hide FlightOf, Ascending;
    var s, delay := Get(d, level), LossDelay(d.rtt);
    SurvivorsOk(s, level, delay, now);
    AfterLossFlight(d, LossOf(d, level, now), now);
    FlightSplits(s.sent, LostNumbers(s, delay, now), s.largestSent + 1);
    PutKeeps(d, level, SpaceAfterLoss(s, delay, now), AfterLoss(d, LossOf(d, level, now), now));
  }

  lemma SentKeeps(d: Detector, p: SentPacket)
    requires Accounted(d) && p.number > Get(d, p.level).largestSent && !Get(d, p.level).discarded
    ensures Accounted(OnPacketSent(d, p))
  {
    hide FlightOf, Ascending;
    var s := Get(d, p.level);
    var t := s.(sent := s.sent[p.number := p], largestSent := p.number);
    AscendingBeyond(s.sent, s.largestSent + 1, p.number);
    AscendingSame(s.sent, t.sent, p.number);
    FlightStep(t.sent, p.number + 1);
    if t.lossTime.Some? {
      var n :| n in s.sent && n <= s.largestAcked;
      assert n in t.sent;
    }
    assert SpaceOk(t, p.level);
    PutKeeps(d, p.level, t, OnSent(d.controller, p));
    AccountIgnoresTimers(Put(d, p.level, t).(controller := OnSent(d.controller, p)), OnPacketSent(d, p));
  }

  lemma AckedFlight(c: Reno, ps: seq<SentPacket>)
    ensures OnAcked(c, InFlightOnly(ps)).inFlight == c.inFlight - FlightOf(ps)
  {
    AckedKeeps(c, InFlightOnly(ps));
    FlightOfFiltered(ps);
  }

  /** Between taking the acknowledged packets out and the detection pass a loss
      deadline may be stale, so the account holds with the deadline cleared. */
  lemma AcknowledgeKeeps(d: Detector, level: Level, largest: int, ranges: seq<AckRange>, delay: real, now: real)
    requires Accounted(d) && largest <= Get(d, level).largestSent && NewlyAcked(Get(d, level), ranges) != []
    ensures var e := Acknowledge(d, level, largest, ranges, delay, now);
            Accounted(Put(e, level, Get(e, level).(lossTime := None)))
  {
    hide FlightOf, Ascending, OnAcked;
    var s := Get(d, level);
    var most := if s.largestAcked < largest then largest else s.largestAcked;
    var t := s.(sent := s.sent - Newly(s, ranges), largestAcked := most, lossTime := None);
    var c := OnAcked(d.controller, InFlightOnly(NewlyAcked(s, ranges)));
    AckedFlight(d.controller, NewlyAcked(s, ranges));
    FlightSplits(s.sent, Newly(s, ranges), s.largestSent + 1);
    if s.discarded { assert t.sent == map[]; }
    assert SpaceOk(t, level);
    PutKeeps(d, level, t, c);
    var e := Acknowledge(d, level, largest, ranges, delay, now);
    var f := Put(e, level, Get(e, level).(lossTime := None));
    AccountIgnoresTimers(Put(d, level, t).(controller := c), f);
  }

  /** The account does not depend on the estimator, the backoff or the clock. */
  lemma AccountIgnoresTimers(d: Detector, e: Detector)
    requires Accounted(d) && e.controller == d.controller && e.confirmed == d.confirmed
    requires e.initial == d.initial && e.handshake == d.handshake && e.oneRtt == d.oneRtt
    ensures Accounted(e)
  {
    hide SpaceOk, Held, FlightOf;
    forall level ensures SpaceOk(Get(e, level), level) {
      assert Get(e, level) == Get(d, level);
    }
  }

  /** The pass recomputes the deadline, so a stale one does not matter. */
  lemma DetectIgnoresDeadline(d: Detector, level: Level, now: real)
    ensures var e := Put(d, level, Get(d, level).(lossTime := None));
            DetectLost(e, level, now) == DetectLost(d, level, now) && LossOf(e, level, now) == LossOf(d, level, now)
  {
    var e := Put(d, level, Get(d, level).(lossTime := None));
    assert LostNumbers(Get(e, level), LossDelay(e.rtt), now) == LostNumbers(Get(d, level), LossDelay(d.rtt), now);
    AfterLossIgnores(d, e, LossOf(d, level, now), now);
  }

  lemma AfterLossIgnores(d: Detector, e: Detector, lost: seq<SentPacket>, now: real)
    requires e.controller == d.controller && e.rtt == d.rtt && e.maxAckDelay == d.maxAckDelay
    ensures AfterLoss(d, lost, now) == AfterLoss(e, lost, now)
  {
  }

  lemma AckKeeps(d: Detector, level: Level, largest: int, ranges: seq<AckRange>, delay: real, now: real)
    requires Accounted(d)
    ensures Accounted(OnAckReceived(d, level, largest, ranges, delay, now).0)
  {
    hide DetectLost, Acknowledge, NewlyAcked, Accounted, LossOf;
    var s := Get(d, level);
    if largest > s.largestSent || NewlyAcked(s, ranges) == [] {
      AccountIgnoresTimers(d, d.(lastEvent := Some(now)));
    } else {
      var e := Acknowledge(d, level, largest, ranges, delay, now);
      AcknowledgeKeeps(d, level, largest, ranges, delay, now);
      DetectIgnoresDeadline(e, level, now);
      DetectKeeps(Put(e, level, Get(e, level).(lossTime := None)), level, now);
    }
  }

  lemma RestartKeeps(d: Detector, level: Level)
    requires Accounted(d)
    ensures Accounted(RestartSpace(d, level))
  {
    hide FlightOf, Ascending;
    var s := Get(d, level);
    var t := s.(sent := map[], lossTime := None);
    AscendingEmpty(s.largestSent + 1);
    FlightOfFiltered(Held(s));
    FlightOfNone();
    var c := OnDiscarded(d.controller, InFlightOnly(Held(s)));
    PutKeeps(d, level, t, c);
    AccountIgnoresTimers(Put(d, level, t).(controller := c), RestartSpace(d, level));
  }

  lemma TimeoutKeeps(d: Detector, now: real)
    requires Accounted(d)
    ensures Accounted(OnTimeout(d, now).0)
  {
    hide DetectLost, Accounted, LossOf, EarliestPto;
    var d0 := d.(lastEvent := Some(now));
    AccountIgnoresTimers(d, d0);
    if EarliestLoss(d).Some? {
      DetectKeeps(d0, EarliestLoss(d).value.level, now);
    } else {
      AccountIgnoresTimers(d, OnTimeout(d, now).0);
    }
  }
}
