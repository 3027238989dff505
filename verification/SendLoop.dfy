/** The send loop: it terminates, its datagrams fit, and a server that has not
    validated its peer stays within the anti-amplification bound. */
module SendLoop {
  import opened Options
  import opened Numbers
  import opened Buffers
  import opened NewReno
  import opened Packing
  import opened Datagrams

  // ---------------------------------------------------------------- termination

  /** Pending ACK flags, CRYPTO bytes and queued frames, owed probes, control frames,
      unsent stream bytes and FINs, and stream retransmissions. */
  function OutboxWork(o: Outbox): nat {
    QueueWork(o.initial.queue) + QueueWork(o.handshake.queue) + QueueWork(o.oneRtt.queue) + ApplicationWork(o.app)
  }

  lemma WithWork(o: Outbox, level: Level, s: Space, app: Application)
    ensures OutboxWork(With(o, level, s).(app := app))
         == OutboxWork(o) - QueueWork(At(o, level).queue) + QueueWork(s.queue)
            - ApplicationWork(o.app) + ApplicationWork(app)
  {
    hide QueueWork, ApplicationWork;
  }

  /** The measure depends on the queues and the application data alone. */
  lemma SameWork(o: Outbox, p: Outbox)
    requires o.initial.queue == p.initial.queue && o.handshake.queue == p.handshake.queue
    requires o.oneRtt.queue == p.oneRtt.queue && o.app == p.app
    ensures OutboxWork(o) == OutboxWork(p)
  {
    hide QueueWork, ApplicationWork;
  }

  lemma HeldIsFree(q: Queue, held: seq<Crypto.Piece>)
    ensures QueueWork(q.(held := held)) == QueueWork(q)
  {
  }

  lemma BuildDrains(o: Outbox, level: Level, room: int, padTo: nat, ackOnly: bool)
    requires |o.link.token| <= VARINT_MAX
    ensures var (p, size) := BuildPacket(o, level, room, padTo, ackOnly);
            OutboxWork(p) <= OutboxWork(o) && (size.Some? ==> OutboxWork(p) < OutboxWork(o))
  {
    hide PendingFrames, PacketSize, PacketNumbers.EncodeNumber, CryptoPieces, TotalSize;
    hide QueueWork, ApplicationWork, OutboxWork;
    var s := At(o, level);
    if room > HEADER_ALLOWANCE + AEAD_TAG {
      var app := if level == OneRtt then Some(o.app) else None;
      FramesDrain(s.queue, app, room - HEADER_ALLOWANCE - AEAD_TAG, ackOnly);
      var (q, app1, frames) := PendingFrames(s.queue, app, room - HEADER_ALLOWANCE - AEAD_TAG, ackOnly);
      AppStays(s.queue, app, room - HEADER_ALLOWANCE - AEAD_TAG, ackOnly);
      var after := if app1.Some? then app1.value else o.app;
      HeldIsFree(q, q.held + CryptoPieces(frames));
      WithWork(o, level, s.(queue := q), after);
      var t := s.(queue := q.(held := q.held + CryptoPieces(frames)), next := s.next + 1);
      WithWork(o, level, t, after);
      if BuildPacket(o, level, room, padTo, ackOnly).1.Some? {
        SameWork(BuildPacket(o, level, room, padTo, ackOnly).0, With(o, level, t).(app := after));
      }
    }
  }

  lemma AppStays(q: Queue, app: Option<Application>, room: int, ackOnly: bool)
    ensures PendingFrames(q, app, room, ackOnly).1.Some? <==> app.Some?
  {
    hide AckPart, CryptoPart, ProbePart, ApplicationFrames, TotalSize;
  }

  lemma DropDrains(o: Outbox)
    ensures OutboxWork(DropInitial(o)) <= OutboxWork(o)
  {
    hide ApplicationWork;
  }

  lemma {:induction false} FillDrains(o: Outbox, levels: seq<Level>, total: nat, budget: nat, ackOnly: bool)
    requires |o.link.token| <= VARINT_MAX
    ensures var (p, n) := Fill(o, levels, total, budget, ackOnly);
            n >= total && OutboxWork(p) <= OutboxWork(o) && (n > total ==> OutboxWork(p) < OutboxWork(o))
    decreases |levels|
  {
    hide BuildPacket, OutboxWork, DropInitial;
    if levels != [] {
      if !CanSend(levels[0], At(o, levels[0])) {
        FillDrains(o, levels[1..], total, budget, ackOnly);
      } else {
        var level := levels[0];
        var padTo := if level == Initial then Min(MIN_INITIAL_DATAGRAM, budget) else 0;
        var room := o.link.maxDatagram - total;
        BuildDrains(o, level, room, padTo, ackOnly);
        BuildKeepsLink(o, level, room, padTo, ackOnly);
        var (built, size) := BuildPacket(o, level, room, padTo, ackOnly);
        DropDrains(built);
        DropKeepsLink(built);
        if size.None? {
          FillDrains(built, levels[1..], total, budget, ackOnly);
        } else {
          var sent := if o.isClient && level == Handshake then DropInitial(built) else built;
          if padTo == 0 { FillDrains(sent, levels[1..], total + size.value, budget, ackOnly); }
        }
      }
    }
  }

  lemma DropKeepsLink(o: Outbox)
    ensures DropInitial(o).link == o.link
  {
  }

  /** Every datagram built takes work off the queues. */
  lemma DatagramDrains(o: Outbox, budget: int, ackOnly: bool)
    requires LinkOk(o.link)
    ensures var (p, size) := BuildDatagram(o, budget, ackOnly);
            size.Some? ==> OutboxWork(p) < OutboxWork(o)
  {
    hide Fill;
    if budget > 0 { FillDrains(o, [Initial, Handshake, OneRtt], 0, budget, ackOnly); }
  }

  // ------------------------------------------------------------------- the loop

  function Probes(o: Outbox): nat { o.initial.queue.probes + o.handshake.queue.probes + o.oneRtt.queue.probes }

  /** `_send_budget`.  `allowance` is the congestion window less what is in flight. */
  function SendBudget(o: Outbox, allowance: int, received: nat, validated: bool, ackOnly: bool): int {
    var plain := if ackOnly then o.link.maxDatagram else allowance;
    var probed := if Probes(o) > 0 then Max(plain, Probes(o) * o.link.maxDatagram) else plain;
    if !o.isClient && !validated then Min(probed, AMPLIFICATION_FACTOR * received - o.bytesSent) else probed
  }

  /** What the congestion controller and the pacer say before each datagram. */
  type Advice = nat -> (int, bool)

  /** `datagrams_to_send`: the outbox after the loop and the sizes of what it built. */
  function SendAll(o: Outbox, advice: Advice, k: nat, received: nat, validated: bool): (Outbox, seq<nat>)
    requires LinkOk(o.link)
    decreases OutboxWork(o)
  {
    var (allowance, paced) := advice(k);
    var (p, size) := BuildDatagram(o, SendBudget(o, allowance, received, validated, paced), paced);
    DatagramDrains(o, SendBudget(o, allowance, received, validated, paced), paced);
    DatagramFits(o, SendBudget(o, allowance, received, validated, paced), paced);
    if size.None? then (p, [])
    else
      var (last, sizes) := SendAll(p, advice, k + 1, received, validated);
      (last, [size.value] + sizes)
  }

  lemma SendAllStep(o: Outbox, advice: Advice, k: nat, received: nat, validated: bool)
    requires LinkOk(o.link)
    ensures var (allowance, paced) := advice(k);
            var (p, size) := BuildDatagram(o, SendBudget(o, allowance, received, validated, paced), paced);
            && LinkOk(p.link)
            && (size.None? ==> SendAll(o, advice, k, received, validated) == (p, []))
            && (size.Some? ==>
                  && SendAll(o, advice, k, received, validated).0 == SendAll(p, advice, k + 1, received, validated).0
                  && SendAll(o, advice, k, received, validated).1
                     == [size.value] + SendAll(p, advice, k + 1, received, validated).1)
  {
    hide BuildDatagram, OutboxWork, SendBudget, LinkOk;
    var (allowance, paced) := advice(k);
    DatagramFits(o, SendBudget(o, allowance, received, validated, paced), paced);
  }

  /** The loop as the source runs it. */
  method DatagramsToSend(o: Outbox, advice: Advice, received: nat, validated: bool)
    returns (after: Outbox, sizes: seq<nat>)
    requires LinkOk(o.link)
    ensures after == SendAll(o, advice, 0, received, validated).0
    ensures sizes == SendAll(o, advice, 0, received, validated).1
  {
    hide BuildDatagram, OutboxWork, SendAll, SendBudget, LinkOk;
    after, sizes := o, [];
    var k := 0;
    while true
      invariant LinkOk(after.link)
      invariant SendAll(o, advice, 0, received, validated).0 == SendAll(after, advice, k, received, validated).0
      invariant SendAll(o, advice, 0, received, validated).1 == sizes + SendAll(after, advice, k, received, validated).1
      decreases OutboxWork(after)
    {
      var (allowance, paced) := advice(k);
      var budget := SendBudget(after, allowance, received, validated, paced);
      DatagramDrains(after, budget, paced);
      DatagramFits(after, budget, paced);
      SendAllStep(after, advice, k, received, validated);
      var (next, size) := BuildDatagram(after, budget, paced);
      if size.None? {
        after := next;
        break;
      }
      sizes := sizes + [size.value];
      after, k := next, k + 1;
    }
  }

  function Sum(ns: seq<nat>): nat { if ns == [] then 0 else ns[0] + Sum(ns[1..]) }

  /** How many datagrams exceed a size. */
  function Over(sizes: seq<nat>, limit: nat): nat {
    if sizes == [] then 0 else (if sizes[0] > limit then 1 else 0) + Over(sizes[1..], limit)
  }

  /** The datagrams of a round keep to the configured size but for at most as many as
      Initial packets were sent, each over by at most its token; the bytes are counted,
      and there are no more datagrams than units of work. */
  lemma {:induction false} RoundIsBounded(o: Outbox, advice: Advice, k: nat, received: nat, validated: bool)
    requires LinkOk(o.link)
    ensures var (p, sizes) := SendAll(o, advice, k, received, validated);
            && p.link == o.link && p.isClient == o.isClient
            && (forall i :: 0 <= i < |sizes| ==> 0 < sizes[i] <= o.link.maxDatagram + |o.link.token|)
            && Over(sizes, o.link.maxDatagram) <= p.initial.next - o.initial.next
            && p.bytesSent == o.bytesSent + Sum(sizes)
            && |sizes| <= OutboxWork(o)
    decreases OutboxWork(o)
  {
    hide BuildDatagram, OutboxWork, SendBudget;
    var (allowance, paced) := advice(k);
    var budget := SendBudget(o, allowance, received, validated, paced);
    var (p, size) := BuildDatagram(o, budget, paced);
    DatagramDrains(o, budget, paced);
    DatagramFits(o, budget, paced);
    if size.Some? {
      RoundIsBounded(p, advice, k + 1, received, validated);
      var (last, sizes) := SendAll(p, advice, k + 1, received, validated);
      assert ([size.value] + sizes)[1..] == sizes;
    }
  }

  // -------------------------------------------------------------- amplification

  /** Below three times what was received, plus one datagram. */
  ghost predicate Limited(o: Outbox, received: nat) {
    o.bytesSent < AMPLIFICATION_FACTOR * received + o.link.maxDatagram + |o.link.token|
  }

  /** The budget is only tested for being positive, so one datagram may overrun it. */
  lemma {:induction false} RoundStaysLimited(o: Outbox, advice: Advice, k: nat, received: nat)
    requires LinkOk(o.link) && !o.isClient && Limited(o, received)
    ensures Limited(SendAll(o, advice, k, received, false).0, received)
    decreases OutboxWork(o)
  {
    hide OutboxWork, Fill;
    var (allowance, paced) := advice(k);
    var budget := SendBudget(o, allowance, received, false, paced);
    var (p, size) := BuildDatagram(o, budget, paced);
    DatagramDrains(o, budget, paced);
    DatagramFits(o, budget, paced);
    if size.Some? {
      assert budget > 0 && o.bytesSent < AMPLIFICATION_FACTOR * received;
      RoundStaysLimited(p, advice, k + 1, received);
    }
  }

  datatype Server = Server(outbox: Outbox, received: nat, validated: bool)

  datatype Event =
    | Datagram(size: nat)                  // a datagram arrives
    | Validated                            // the peer's address is validated
    | Queued(initial: Space, handshake: Space, oneRtt: Space, app: Application)   // anything may be queued
    | Round(advice: Advice)                // the send loop runs

  function Handle(s: Server, e: Event): Server {
    match e
    case Datagram(n) => s.(received := s.received + n)
    case Validated => s.(validated := true)
    case Queued(i, h, a, app) => s.(outbox := s.outbox.(initial := i, handshake := h, oneRtt := a, app := app))
    case Round(advice) =>
      if !LinkOk(s.outbox.link) then s
      else s.(outbox := SendAll(s.outbox, advice, 0, s.received, s.validated).0)
  }

  function Run(s: Server, es: seq<Event>): Server
    decreases |es|
  {
    if es == [] then s else Handle(Run(s, es[..|es| - 1]), es[|es| - 1])
  }

  ghost predicate Within(s: Server, link: Link) {
    s.outbox.link == link && !s.outbox.isClient && (!s.validated ==> Limited(s.outbox, s.received))
  }

  lemma HandleKeeps(s: Server, link: Link, e: Event)
    requires LinkOk(link) && Within(s, link)
    ensures Within(Handle(s, e), link)
  {
    hide SendAll;
    if e.Round? {
      RoundIsBounded(s.outbox, e.advice, 0, s.received, s.validated);
      if !s.validated { RoundStaysLimited(s.outbox, e.advice, 0, s.received); }
    }
  }

  lemma {:induction false} RunKeeps(s: Server, link: Link, es: seq<Event>)
    requires LinkOk(link) && Within(s, link)
    ensures Within(Run(s, es), link)
    decreases |es|
  {
    hide Handle, Within;
    if es != [] {
      RunKeeps(s, link, es[..|es| - 1]);
      HandleKeeps(Run(s, es[..|es| - 1]), link, es[|es| - 1]);
    }
  }

  /** Whatever arrives and whatever is queued, an unvalidated server has counted less
      than three times what it received plus one datagram. */
  lemma AmplificationIsBounded(s: Server, es: seq<Event>)
    requires LinkOk(s.outbox.link) && s.outbox.link.token == [] && !s.outbox.isClient && s.outbox.bytesSent == 0
    ensures var t := Run(s, es);
            !t.validated ==> t.outbox.bytesSent < 3 * t.received + s.outbox.link.maxDatagram
  {
    RunKeeps(s, s.outbox.link, es);
  }
}
