/** The object of src/dsquic/recovery.py with its loops, proved equal to the
    functions of module Recovery. */
module LossDetection {
  import opened Options
  import opened Frames
  import opened Acks
  import opened NewReno
  import opened Recovery

  ghost predicate Numbered(s: Space) { forall n :: n in s.sent ==> n <= s.largestSent }

  /** The packets of one acknowledged range leave the space. */
  method TakeRange(sent: map<nat, SentPacket>, low: int, high: int)
    returns (kept: map<nat, SentPacket>, taken: map<nat, SentPacket>)
    ensures kept == map n | n in sent && !(low <= n <= high) :: sent[n]
    ensures taken == map n | n in sent && low <= n <= high :: sent[n]
  {
    kept, taken := sent, map[];
    var numbers := sent.Keys;
    while numbers != {}
      invariant numbers <= sent.Keys
      invariant kept == map n | n in sent && (n in numbers || !(low <= n <= high)) :: sent[n]
      invariant taken == map n | n in sent && n !in numbers && low <= n <= high :: sent[n]
      decreases |numbers|
    {
      var n :| n in numbers;
      if low <= n <= high {
        taken := taken[n := kept[n]];
        kept := kept - {n};
      }
      numbers := numbers - {n};
    }
  }

  method Sorted(packets: map<nat, SentPacket>, bound: nat) returns (ps: seq<SentPacket>)
    ensures ps == Ascending(packets, bound)
  {
    ps := [];
    var n := 0;
    while n < bound
      invariant 0 <= n <= bound && ps == Ascending(packets, n)
    {
      if n in packets {
        ps := ps + [packets[n]];
      }
      n := n + 1;
    }
  }

  lemma NothingAcknowledged()
    ensures forall n :: !Acknowledges([], n)
  {
  }

  /** The union over the ranges of an acknowledgment. */
  method TakeAcknowledged(s: Space, ranges: seq<AckRange>)
    returns (kept: map<nat, SentPacket>, acked: seq<SentPacket>)
    ensures kept == s.sent - Newly(s, ranges)
    ensures acked == NewlyAcked(s, ranges)
  {
    hide Acknowledges, Ascending;
    kept := s.sent;
    NothingAcknowledged();
    assert ranges[..0] == [];
    var newly: map<nat, SentPacket> := map[];
    var k := 0;
    while k < |ranges|
      invariant 0 <= k <= |ranges|
      invariant forall n :: n in kept <==> n in s.sent && !Acknowledges(ranges[..k], n)
      invariant forall n :: n in kept ==> kept[n] == s.sent[n]
      invariant forall n :: n in newly <==> n in s.sent && Acknowledges(ranges[..k], n)
      invariant forall n :: n in newly ==> newly[n] == s.sent[n]
    {
      var rest, taken := TakeRange(kept, ranges[k].low, ranges[k].high);
      AcknowledgesNext(ranges, k);
      kept, newly := rest, newly + taken;
      k := k + 1;
    }
    assert ranges[..|ranges|] == ranges;
    acked := Sorted(newly, s.largestSent + 1);
    assert newly == Only(s.sent, Newly(s, ranges));
  }

  lemma AcknowledgesNext(ranges: seq<AckRange>, k: nat)
    requires k < |ranges|
    ensures forall n :: Acknowledges(ranges[..k + 1], n)
                    <==> Acknowledges(ranges[..k], n) || ranges[k].low <= n <= ranges[k].high
  {
    var more, less := ranges[..k + 1], ranges[..k];
    forall n ensures Acknowledges(more, n) <==> Acknowledges(less, n) || ranges[k].low <= n <= ranges[k].high {
      if Acknowledges(less, n) {
        var i :| 0 <= i < k && less[i].low <= n <= less[i].high;
        assert more[i] == less[i];
      }
      if ranges[k].low <= n <= ranges[k].high {
        assert more[k] == ranges[k];
      }
      if Acknowledges(more, n) {
        var i :| 0 <= i < k + 1 && more[i].low <= n <= more[i].high;
        assert i < k ==> less[i] == more[i];
      }
    }
  }

  /** The loop of one detection pass over a space. */
  method Sweep(s: Space, delay: real, now: real) returns (t: Space, lost: seq<SentPacket>)
    requires Numbered(s)
    ensures t == SpaceAfterLoss(s, delay, now)
    ensures lost == Ascending(Only(s.sent, LostNumbers(s, delay, now)), s.largestSent + 1)
  {
    ghost var doomed := LostNumbers(s, delay, now);
    t, lost := s.(lossTime := None), [];
    var n := 0;
    while n < s.largestSent + 1
      invariant 0 <= n <= s.largestSent + 1
      invariant t.largestSent == s.largestSent && t.largestAcked == s.largestAcked && t.discarded == s.discarded
      invariant forall k :: k in t.sent <==> k in s.sent && !(k in doomed && k < n)
      invariant forall k :: k in t.sent ==> t.sent[k] == s.sent[k]
      invariant lost == Ascending(Only(s.sent, doomed), n)
      invariant t.lossTime == EarliestDeadline(s.sent - doomed, s.largestAcked, delay, n)
    {
      if n in t.sent && n <= s.largestAcked {
        var p := t.sent[n];
        if n <= s.largestAcked - PACKET_THRESHOLD || p.timeSent <= now - delay {
          t := t.(sent := t.sent - {n});
          lost := lost + [p];
        } else {
          var candidate := p.timeSent + delay;
          if t.lossTime.None? || candidate < t.lossTime.value {
            t := t.(lossTime := Some(candidate));
          }
        }
      }
      n := n + 1;
    }
    assert t.sent == s.sent - doomed;
  }

  lemma SampleIgnores(d: Detector, e: Detector, acked: seq<SentPacket>, largest: int, delay: real, now: real)
    requires acked != [] && e.rtt == d.rtt && e.confirmed == d.confirmed && e.maxAckDelay == d.maxAckDelay
    ensures Sampled(e, acked, largest, delay, now) == Sampled(d, acked, largest, delay, now)
  {
  }

  class LossDetection {
    const controller: Controller
    const rtt: RttEstimator
    const isClient: bool
    const maxAckDelay: real
    var confirmed: bool
    var ptoCount: nat
    var initial: Space
    var handshake: Space
    var oneRtt: Space
    var lastEvent: Option<real>

    function Model(): Detector
      reads this, controller, rtt
    {
      Detector(controller.Model(), rtt.Model(), confirmed, isClient, maxAckDelay, ptoCount,
               initial, handshake, oneRtt, lastEvent)
    }

    ghost predicate Valid()
      reads this
    {
      Numbered(initial) && Numbered(handshake) && Numbered(oneRtt)
    }

    constructor (controller: Controller, isClient: bool, maxAckDelay: real)
      ensures Valid() && this.controller == controller && fresh(rtt)
      ensures Model() == Detector(controller.Model(), NewRtt(), false, isClient, maxAckDelay, 0,
                                  NewSpace(), NewSpace(), NewSpace(), None)
    {
      this.controller, this.isClient, this.maxAckDelay := controller, isClient, maxAckDelay;
      rtt := new RttEstimator();
      confirmed, ptoCount, lastEvent := false, 0, None;
      initial, handshake, oneRtt := NewSpace(), NewSpace(), NewSpace();
    }

    function SpaceAt(level: Level): Space
      reads this
    {
      match level
      case Initial => initial
      case Handshake => handshake
      case OneRtt => oneRtt
    }

    method SetSpace(level: Level, s: Space)
      requires Valid() && Numbered(s)
      modifies this
      ensures Valid() && Model() == Put(old(Model()), level, s)
    {
      match level {
        case Initial => initial := s;
        case Handshake => handshake := s;
        case OneRtt => oneRtt := s;
      }
    }

    method PacketSent(p: SentPacket)
      requires Valid()
      modifies this, controller
      ensures Valid() && Model() == OnPacketSent(old(Model()), p)
    {
      var s := SpaceAt(p.level);
      SetSpace(p.level, s.(sent := s.sent[p.number := p],
                           largestSent := if s.largestSent < p.number then p.number else s.largestSent));
      lastEvent := Some(p.timeSent);
      controller.PacketSent(p);
    }

    method DetectAndRemoveLost(level: Level, now: real) returns (lost: seq<SentPacket>)
      requires Valid()
      modifies this, controller
      ensures Valid() && Model() == DetectLost(old(Model()), level, now)
      ensures lost == LossOf(old(Model()), level, now)
    {
      var s: Space;
      s, lost := Sweep(SpaceAt(level), LossDelay(rtt.Model()), now);
      var spans := SpansPersistentCongestion(Model(), InFlightOnly(lost));
      SetSpace(level, s);
      if lost != [] {
        var flight := InFlightOnly(lost);
        if flight != [] {
          controller.PacketsLost(flight, now);
          if rtt.hasSample && spans {
            controller.PersistentCongestion();
          }
        }
      }
    }

    /** A sample needs the largest packet newly acknowledged and an ack-eliciting one. */
    method SampleRtt(acked: seq<SentPacket>, largest: int, delay: real, now: real)
      requires acked != []
      modifies rtt
      ensures rtt.Model() == Sampled(old(Model()), acked, largest, delay, now)
    {
      hide Fold, ElicitingOnly;
      var last := acked[|acked| - 1];
      if last.number == largest && ElicitingOnly(acked) != [] {
        rtt.Update(now - last.timeSent, if confirmed then Smaller(delay, maxAckDelay) else delay);
      }
    }

    method AckReceived(level: Level, largest: int, ranges: seq<AckRange>, delay: real, now: real)
      returns (outcome: Option<AckOutcome>)
      requires Valid()
      modifies this, controller, rtt
      ensures Valid() && (Model(), outcome) == OnAckReceived(old(Model()), level, largest, ranges, delay, now)
    {
      hide Newly, OnAcked, InFlightOnly, DetectLost, LossOf, NewlyAcked, Sampled;
      lastEvent := Some(now);
      var s := SpaceAt(level);
      if largest > s.largestSent {
        return None;
      }
      var kept, acked := TakeAcknowledged(s, ranges);
      if acked == [] {
        return Some(AckOutcome([], []));
      }
      SetSpace(level, s.(sent := kept, largestAcked := if s.largestAcked < largest then largest else s.largestAcked));
      SampleIgnores(old(Model()), Model(), acked, largest, delay, now);
      SampleRtt(acked, largest, delay, now);
      ptoCount := 0;
      controller.PacketsAcked(InFlightOnly(acked));
      assert Model() == Acknowledge(old(Model()), level, largest, ranges, delay, now);
      var lost := DetectAndRemoveLost(level, now);
      outcome := Some(AckOutcome(acked, lost));
    }

    /** When the connection must call `TimeoutFired`. */
    function LossDetectionTimeout(): Option<real>
      reads this, controller, rtt
    {
      Timer(Model())
    }

    method TimeoutFired(now: real) returns (outcome: TimeoutOutcome)
      requires Valid()
      modifies this, controller
      ensures Valid() && (Model(), outcome) == OnTimeout(old(Model()), now)
    {
      var loss := EarliestLoss(Model());
      lastEvent := Some(now);
      if loss.Some? {
        var lost := DetectAndRemoveLost(loss.value.level, now);
        return TimeoutOutcome(lost, None);
      }
      ptoCount := ptoCount + 1;
      var pto := EarliestPto(Model());
      outcome := TimeoutOutcome([], Some(if pto.Some? then pto.value.level else AntiDeadlockLevel(Model())));
    }

    method Restart(level: Level) returns (dropped: seq<SentPacket>)
      requires Valid()
      modifies this, controller
      ensures Valid() && Model() == RestartSpace(old(Model()), level)
      ensures dropped == Held(old(SpaceAt(level)))
    {
      var s := SpaceAt(level);
      dropped := Sorted(s.sent, s.largestSent + 1);
      controller.PacketsDiscarded(InFlightOnly(dropped));
      SetSpace(level, s.(sent := map[], lossTime := None));
      ptoCount := 0;
    }

    method Discard(level: Level)
      requires Valid()
      modifies this, controller
      ensures Valid() && Model() == DiscardSpace(old(Model()), level)
    {
      var s := SpaceAt(level);
      var dropped := Sorted(s.sent, s.largestSent + 1);
      controller.PacketsDiscarded(InFlightOnly(dropped));
      SetSpace(level, s.(sent := map[], lossTime := None, discarded := true));
      ptoCount := 0;
    }
  }
}
