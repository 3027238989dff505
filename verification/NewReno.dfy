/** The NewReno congestion controller (src/dsquic/new_reno.py; section 7 and
    Appendix B of RFC 9002).  Times are real numbers; windows are integers and the
    source's `int(...)` truncation is integer division of non-negative numbers. */
module NewReno {
  import opened Options
  import opened Numbers

  datatype Level = Initial | Handshake | OneRtt

  /** One sent packet, without the frames the connection keeps beside it. */
  datatype SentPacket = SentPacket(
    level: Level, number: nat, timeSent: real, ackEliciting: bool, inFlight: bool, size: nat)

  const MINIMUM_WINDOW_DATAGRAMS := 2
  const INITIAL_WINDOW_FLOOR := 14720

  datatype Reno = Reno(
    datagram: nat, window: int, inFlight: int,
    threshold: Option<int>,          // None is the source's infinity
    recoveryStart: Option<real>)

  function NewController(datagram: nat): Reno {
    Reno(datagram, Min(10 * datagram, Max(INITIAL_WINDOW_FLOOR, 2 * datagram)), 0, None, None)
  }

  predicate InRecovery(c: Reno, sentTime: real) {
    c.recoveryStart.Some? && sentTime <= c.recoveryStart.value
  }

  function Minimum(c: Reno): int { MINIMUM_WINDOW_DATAGRAMS * c.datagram }

  predicate SlowStart(c: Reno) { c.threshold.None? || c.window < c.threshold.value }

  function OnSent(c: Reno, p: SentPacket): Reno {
    if p.inFlight then c.(inFlight := c.inFlight + p.size) else c
  }

  /** Growth on one acknowledged packet: by its size in slow start, otherwise by
      one datagram per window. */
  function OnAckedOne(c: Reno, p: SentPacket): Reno {
    if !p.inFlight then c
    else
      var freed := c.(inFlight := c.inFlight - p.size);
      if InRecovery(c, p.timeSent) then freed
      else if SlowStart(c) then freed.(window := c.window + p.size)
      else if c.window <= 0 then freed
      else freed.(window := c.window + (c.datagram * p.size) / c.window)
  }

  function OnAcked(c: Reno, ps: seq<SentPacket>): Reno {
    if ps == [] then c else OnAckedOne(OnAcked(c, ps[..|ps| - 1]), ps[|ps| - 1])
  }

  function FlightOf(ps: seq<SentPacket>): nat {
    if ps == [] then 0
    else FlightOf(ps[..|ps| - 1]) + (if ps[|ps| - 1].inFlight then ps[|ps| - 1].size else 0)
  }

  function LatestSent(ps: seq<SentPacket>): real
    requires ps != []
  {
    var last := ps[|ps| - 1].timeSent;
    if |ps| == 1 then last
    else
      var before := LatestSent(ps[..|ps| - 1]);
      if last > before then last else before
  }

  /** The window halves, floored, and a recovery period begins. */
  function Reduce(c: Reno, now: real): Reno {
    var w := Max(c.window / 2, Minimum(c));
    c.(recoveryStart := Some(now), window := w, threshold := Some(w))
  }

  /** `on_packets_lost`: at most one reduction per recovery period. */
  function OnLost(c: Reno, ps: seq<SentPacket>, now: real): Reno
    requires ps != []
  {
    var freed := c.(inFlight := c.inFlight - FlightOf(ps));
    if InRecovery(c, LatestSent(ps)) then freed else Reduce(freed, now)
  }

  function OnEcnCe(c: Reno, sentTime: real, now: real): Reno {
    if InRecovery(c, sentTime) then c else Reduce(c, now)
  }

  function OnDiscarded(c: Reno, ps: seq<SentPacket>): Reno { c.(inFlight := c.inFlight - FlightOf(ps)) }

  function OnPersistentCongestion(c: Reno): Reno { c.(window := Minimum(c), recoveryStart := None) }

  // -------------------------------------------------------- the source's object

  class Controller {
    const datagram: nat
    var window: int
    var inFlight: int
    var threshold: Option<int>
    var recoveryStart: Option<real>

    function Model(): Reno
      reads this
    {
      Reno(datagram, window, inFlight, threshold, recoveryStart)
    }

    constructor (datagram: nat)
      ensures Model() == NewController(datagram)
    {
      this.datagram := datagram;
      window := Min(10 * datagram, Max(INITIAL_WINDOW_FLOOR, 2 * datagram));
      inFlight, threshold, recoveryStart := 0, None, None;
    }

    method PacketSent(p: SentPacket)
      modifies this
      ensures Model() == OnSent(old(Model()), p)
    {
      if p.inFlight {
        inFlight := inFlight + p.size;
      }
    }

    method PacketsAcked(ps: seq<SentPacket>)
      modifies this
      ensures Model() == OnAcked(old(Model()), ps)
    {
      var i := 0;
      assert ps[..0] == [];
      while i < |ps|
        invariant 0 <= i <= |ps|
        invariant Model() == OnAcked(old(Model()), ps[..i])
      {
        var p := ps[i];
        assert ps[..i + 1][..i] == ps[..i];
        i := i + 1;
        if !p.inFlight {
          continue;
        }
        inFlight := inFlight - p.size;
        if recoveryStart.Some? && p.timeSent <= recoveryStart.value {
          continue;
        }
        if threshold.None? || window < threshold.value {
          window := window + p.size;
        } else if window > 0 {
          window := window + (datagram * p.size) / window;
        }
      }
      assert ps[..|ps|] == ps;
    }

    method PacketsLost(ps: seq<SentPacket>, now: real)
      requires ps != []
      modifies this
      ensures Model() == OnLost(old(Model()), ps, now)
    {
      var i := 0;
      var latest := ps[0].timeSent;
      while i < |ps|
        invariant 0 <= i <= |ps|
        invariant Model() == old(Model()).(inFlight := old(inFlight) - FlightOf(ps[..i]))
        invariant i > 0 ==> latest == LatestSent(ps[..i])
      {
        assert ps[..i + 1][..i] == ps[..i];
        if ps[i].inFlight {
          inFlight := inFlight - ps[i].size;
        }
        if i == 0 || ps[i].timeSent > latest {
          latest := ps[i].timeSent;
        }
        i := i + 1;
      }
      assert ps[..|ps|] == ps;
      if recoveryStart.Some? && latest <= recoveryStart.value {
        return;
      }
      recoveryStart := Some(now);
      window := Max(window / 2, MINIMUM_WINDOW_DATAGRAMS * datagram);
      threshold := Some(window);
    }

    method EcnMarked(sentTime: real, now: real)
      modifies this
      ensures Model() == OnEcnCe(old(Model()), sentTime, now)
    {
      if recoveryStart.Some? && sentTime <= recoveryStart.value {
        return;
      }
      recoveryStart := Some(now);
      window := Max(window / 2, MINIMUM_WINDOW_DATAGRAMS * datagram);
      threshold := Some(window);
    }

    method PacketsDiscarded(ps: seq<SentPacket>)
      modifies this
      ensures Model() == OnDiscarded(old(Model()), ps)
    {
      var i := 0;
      while i < |ps|
        invariant 0 <= i <= |ps|
        invariant Model() == OnDiscarded(old(Model()), ps[..i])
      {
        assert ps[..i + 1][..i] == ps[..i];
        if ps[i].inFlight {
          inFlight := inFlight - ps[i].size;
        }
        i := i + 1;
      }
      assert ps[..|ps|] == ps;
    }

    method PersistentCongestion()
      modifies this
      ensures Model() == OnPersistentCongestion(old(Model()))
    {
      window := MINIMUM_WINDOW_DATAGRAMS * datagram;
      recoveryStart := None;
    }
  }

  // ------------------------------------------------------------------ bounds

  lemma MulMono(a: int, b: int, c: int)
    requires a >= b && c >= 0
    ensures a * c >= b * c
  {
  }

  lemma GrowthIsNonNegative(a: int, b: int, w: int)
    requires a >= 0 && b >= 0 && w > 0
    ensures a * b / w >= 0
  {
    assert a * b >= 0;
  }

  lemma {:induction false} AckedKeeps(c: Reno, ps: seq<SentPacket>)
    ensures OnAcked(c, ps).inFlight == c.inFlight - FlightOf(ps)
    ensures OnAcked(c, ps).window >= c.window
    ensures OnAcked(c, ps).datagram == c.datagram && OnAcked(c, ps).threshold == c.threshold
    ensures OnAcked(c, ps).recoveryStart == c.recoveryStart
    decreases |ps|
  {
    if ps != [] {
      var n := |ps| - 1;
      AckedKeeps(c, ps[..n]);
      var d := OnAcked(c, ps[..n]);
      if d.window > 0 { GrowthIsNonNegative(d.datagram, ps[n].size, d.window); }
    }
  }

  ghost predicate WindowOk(c: Reno) { c.window >= Minimum(c) }

  lemma {:induction false} LatestIsMaximum(ps: seq<SentPacket>)
    requires ps != []
    ensures exists k :: 0 <= k < |ps| && ps[k].timeSent == LatestSent(ps)
    ensures forall k :: 0 <= k < |ps| ==> ps[k].timeSent <= LatestSent(ps)
    decreases |ps|
  {
    var n := |ps| - 1;
    if n > 0 {
      LatestIsMaximum(ps[..n]);
      var k :| 0 <= k < n && ps[..n][k].timeSent == LatestSent(ps[..n]);
      assert ps[k].timeSent == LatestSent(ps[..n]);
    }
    assert ps[n].timeSent <= LatestSent(ps);
  }

  // -------------------------------------------------- growth per window acknowledged

  lemma FloorSum(m: int, a: int, b: int, w: int, v: int)
    requires 0 < w <= v && 0 <= m && 0 <= a && 0 <= b
    ensures (m * a) / w + (m * b) / v <= (m * (a + b)) / w
  {
    var x, y := (m * a) / w, (m * b) / v;
    assert w * x <= m * a;
    assert m * b >= 0;
    assert y >= 0 && v * y <= m * b;
    MulMono(v, w, y);
    assert w * (x + y) <= m * a + m * b == m * (a + b);
    DivLower(m * (a + b), w, x + y);
  }

  lemma DivLower(n: int, w: int, q: int)
    requires w > 0 && q * w <= n
    ensures q <= n / w
  {
    var r := n / w;
    if q > r { MulMono(q, r + 1, w); }
  }

  lemma DivUpper(n: int, w: int, m: int)
    requires w > 0 && n <= m * w
    ensures n / w <= m
  {
    var q := n / w;
    if q > m { MulMono(q, m + 1, w); }
  }

  /** In congestion avoidance a batch of acknowledgements grows the window by at
      most one datagram per window's worth of acknowledged bytes. */
  lemma {:induction false} AvoidanceGrowth(c: Reno, ps: seq<SentPacket>)
    requires !SlowStart(c) && c.window > 0
    ensures OnAcked(c, ps).window - c.window <= (c.datagram * FlightOf(ps)) / c.window
    decreases |ps|
  {
    if ps == [] {
      assert c.datagram * 0 == 0;
    } else {
      var n := |ps| - 1;
      AvoidanceGrowth(c, ps[..n]);
      AckedKeeps(c, ps[..n]);
      var d := OnAcked(c, ps[..n]);
      var f := FlightOf(ps[..n]);
      if ps[n].inFlight {
        FloorSum(c.datagram, f, ps[n].size, c.window, d.window);
        assert c.datagram * ps[n].size >= 0;
        GrowthIsNonNegative(c.datagram, ps[n].size, d.window);
      }
    }
  }

  /** A batch of at most one window grows it by at most one datagram. */
  lemma OneDatagramPerWindow(c: Reno, ps: seq<SentPacket>)
    requires !SlowStart(c) && c.window > 0 && FlightOf(ps) <= c.window
    ensures OnAcked(c, ps).window <= c.window + c.datagram
  {
    AvoidanceGrowth(c, ps);
    MulMono(c.window, FlightOf(ps), c.datagram);
    DivUpper(c.datagram * FlightOf(ps), c.window, c.datagram);
  }

  // ------------------------------------------------------- growth in slow start

  /** Every in-flight packet of the batch was sent after recovery began. */
  ghost predicate OutsideRecovery(c: Reno, ps: seq<SentPacket>) {
    forall k :: 0 <= k < |ps| && ps[k].inFlight ==> c.recoveryStart.None? || ps[k].timeSent > c.recoveryStart.value
  }

  /** In slow start, for as long as the threshold is not reached, a batch grows the
      window by exactly its bytes in flight. */
  lemma {:induction false} SlowStartGrowth(c: Reno, ps: seq<SentPacket>)
    requires OutsideRecovery(c, ps)
    requires c.threshold.Some? ==> ps == [] || c.window + FlightOf(ps[..|ps| - 1]) < c.threshold.value
    ensures OnAcked(c, ps).window == c.window + FlightOf(ps)
    decreases |ps|
  {
    if ps != [] {
      var n := |ps| - 1;
      var before := ps[..n];
      assert forall k :: 0 <= k < n ==> before[k] == ps[k];
      assert n > 0 ==> FlightOf(before[..n - 1]) <= FlightOf(before);
      SlowStartGrowth(c, before);
      AckedKeeps(c, before);
      assert ps[n].inFlight ==> !InRecovery(c, ps[n].timeSent);
    }
  }

  /** Acknowledgments of packets sent before recovery began leave the window alone. */
  lemma {:induction false} NoGrowthInRecovery(c: Reno, ps: seq<SentPacket>)
    requires c.recoveryStart.Some?
    requires forall k :: 0 <= k < |ps| && ps[k].inFlight ==> ps[k].timeSent <= c.recoveryStart.value
    ensures OnAcked(c, ps).window == c.window
    decreases |ps|
  {
    if ps != [] {
      var n := |ps| - 1;
      assert forall k :: 0 <= k < n ==> ps[..n][k] == ps[k];
      NoGrowthInRecovery(c, ps[..n]);
      AckedKeeps(c, ps[..n]);
    }
  }

  /** In congestion avoidance one packet grows the window by the whole datagrams' worth
      that its share of the window earns, no more and no less. */
  lemma AvoidanceStep(c: Reno, p: SentPacket)
    requires !SlowStart(c) && c.window > 0 && p.inFlight && !InRecovery(c, p.timeSent)
    ensures var growth := OnAckedOne(c, p).window - c.window;
            0 <= growth && growth * c.window <= c.datagram * p.size < (growth + 1) * c.window
  {
    GrowthIsNonNegative(c.datagram, p.size, c.window);
    var n, q := c.datagram * p.size, (c.datagram * p.size) / c.window;
    assert n == q * c.window + n % c.window;
  }

  /** Ten datagrams, but no more than 14720 bytes unless two datagrams are. */
  lemma InitialWindow(datagram: nat)
    ensures var w := NewController(datagram).window;
            && w <= 10 * datagram && (w <= 14720 || w == 2 * datagram)
            && (w == 10 * datagram || w == 14720 || w == 2 * datagram)
            && (w < 10 * datagram ==> w >= 14720 && w >= 2 * datagram)
  {
  }

  // ------------------------------------------------ reductions over a whole run

  datatype Event =
    | Sent(packet: SentPacket)
    | Acked(acked: seq<SentPacket>)
    | Lost(lost: seq<SentPacket>, lostAt: real)
    | EcnCe(sentTime: real, markedAt: real)
    | Discarded(discarded: seq<SentPacket>)
    | Persistent

  function Apply(c: Reno, e: Event): Reno {
    match e
    case Sent(p) => OnSent(c, p)
    case Acked(ps) => OnAcked(c, ps)
    case Lost(ps, now) => if ps == [] then c else OnLost(c, ps, now)
    case EcnCe(sentTime, now) => OnEcnCe(c, sentTime, now)
    case Discarded(ps) => OnDiscarded(c, ps)
    case Persistent => OnPersistentCongestion(c)
  }

  function Run(c: Reno, es: seq<Event>): Reno
    decreases |es|
  {
    if es == [] then c else Apply(Run(c, es[..|es| - 1]), es[|es| - 1])
  }

  /** The event is a congestion signal that opens a new recovery period. */
  predicate Reduces(c: Reno, e: Event) {
    || (e.Lost? && e.lost != [] && !InRecovery(c, LatestSent(e.lost)))
    || (e.EcnCe? && !InRecovery(c, e.sentTime))
  }

  /** No event of the run reduces the window. */
  ghost predicate Quiet(c: Reno, es: seq<Event>) {
    forall i :: 0 <= i < |es| ==> !es[i].Persistent? && !Reduces(Run(c, es[..i]), es[i])
  }

  function Moment(e: Event): real
    requires e.Lost? || e.EcnCe?
  {
    if e.Lost? then e.lostAt else e.markedAt
  }

  /** The event tells of a packet sent after the given moment. */
  ghost predicate TellsOfLaterPacket(e: Event, moment: real) {
    || (e.Lost? && exists p :: p in e.lost && p.timeSent > moment)
    || (e.EcnCe? && e.sentTime > moment)
  }

  /** The window never drops below two datagrams on any run. */
  lemma {:induction false} WindowNeverBelowMinimum(datagram: nat, es: seq<Event>)
    ensures Run(NewController(datagram), es).datagram == datagram
    ensures Run(NewController(datagram), es).window >= 2 * datagram
    decreases |es|
  {
    if es != [] {
      var n := |es| - 1;
      WindowNeverBelowMinimum(datagram, es[..n]);
      ApplyKeeps(Run(NewController(datagram), es[..n]), es[n]);
    }
  }

  lemma ApplyKeeps(c: Reno, e: Event)
    requires WindowOk(c)
    ensures Apply(c, e).datagram == c.datagram && WindowOk(Apply(c, e))
  {
    if e.Acked? { AckedKeeps(c, e.acked); }
  }

  /** A congestion signal that opens a recovery period halves the window, down to two
      datagrams, and slow start ends there; persistent congestion collapses it to two
      datagrams and leaves the threshold; any other loss or mark leaves both. */
  lemma SignalsHalve(c: Reno, e: Event)
    requires e.Lost? || e.EcnCe? || e.Persistent?
    ensures var d := Apply(c, e);
            if Reduces(c, e) then
              && (d.window == c.window / 2 || d.window == 2 * c.datagram)
              && d.window >= c.window / 2 && d.window >= 2 * c.datagram
              && d.threshold == Some(d.window) && d.recoveryStart == Some(Moment(e))
            else if e.Persistent? then d.window == 2 * c.datagram && d.threshold == c.threshold && d.recoveryStart.None?
            else d.window == c.window && d.threshold == c.threshold && d.recoveryStart == c.recoveryStart
  {
  }

  /** Only a new congestion signal or persistent congestion lowers the window. */
  lemma OnlySignalsReduce(c: Reno, e: Event)
    requires Apply(c, e).window < c.window
    ensures Reduces(c, e) || e.Persistent?
  {
    if e.Acked? { AckedKeeps(c, e.acked); }
  }

  lemma {:induction false} QuietKeepsPeriod(c: Reno, es: seq<Event>)
    requires Quiet(c, es)
    ensures Run(c, es).recoveryStart == c.recoveryStart
    decreases |es|
  {
    if es != [] {
      var n := |es| - 1;
      var before := es[..n];
      forall i | 0 <= i < n ensures !before[i].Persistent? && !Reduces(Run(c, before[..i]), before[i]) {
        assert before[i] == es[i] && before[..i] == es[..i];
      }
      QuietKeepsPeriod(c, before);
      assert !Reduces(Run(c, before), es[n]);
      if es[n].Acked? { AckedKeeps(Run(c, before), es[n].acked); }
    }
  }

  /** Two successive reductions, by loss or by ECN marks, are separated by the
      sending of a packet: the second is caused by one sent after the first. */
  lemma ReductionsAreSeparated(c: Reno, first: Event, between: seq<Event>, second: Event)
    requires Reduces(c, first) && Quiet(Apply(c, first), between)
    requires Reduces(Run(Apply(c, first), between), second)
    ensures TellsOfLaterPacket(second, Moment(first))
  {
    QuietKeepsPeriod(Apply(c, first), between);
    if second.Lost? {
      LatestIsMaximum(second.lost);
      var k :| 0 <= k < |second.lost| && second.lost[k].timeSent == LatestSent(second.lost);
      assert second.lost[k] in second.lost;
    }
  }
}
