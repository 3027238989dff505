/** Nothing gets stuck: from every state of every run, whatever was lost or withheld
    so far, everything written can still be delivered (src/dsquic/connection.py and
    src/dsquic/streams.py; sections 4 and 13.3 of RFC 9000). */
module Progress {
  import opened Buffers
  import opened RangeSets
  import opened Frames
  import opened Streams
  import opened Managers
  import opened Totals
  import opened Delivery
  import opened Transfer
  import opened TransferInv
  import TransferProof
  import TransferTheorems
  import CreditKept
  import CreditFlow
  import PeerStreams
  import opened RoundTrips

  // -------------------------------------------------------------------- getting on

  /** A frame is sent, arrives, is acknowledged, and the acknowledgement arrives. */
  function Exchange(x: Endpoint, y: Endpoint, item: Item): (Endpoint, Endpoint) {
    var x1 := Act(x, y, ActSend([item]));
    var y1 := Act(y, x1, ActReceive(|x.emitted|));
    var y2 := Act(y1, x1, ActSend([ItemAck]));
    (Act(x1, y2, ActReceive(|y.emitted|)), y2)
  }

  /** Less is left: to send for the first time, held by recovery, to repair, to announce. */
  ghost predicate Less(x2: Endpoint, y2: Endpoint, x: Endpoint, y: Endpoint) {
    var (a2, a) := (Unsent(x2) + Unsent(y2), Unsent(x) + Unsent(y));
    var (b2, b) := (|Carrying(x2)| + |Carrying(y2)|, |Carrying(x)| + |Carrying(y)|);
    var (c2, c) := (Unrepaired(x2) + Unrepaired(y2), Unrepaired(x) + Unrepaired(y));
    var (d2, d) := (|x2.control| + |y2.control|, |x.control| + |y.control|);
    a2 < a || (a2 == a && (b2 < b || (b2 == b && (c2 < c || (c2 == c && d2 < d)))))
  }

  ghost predicate Advances(x: Endpoint, y: Endpoint, x2: Endpoint, y2: Endpoint, m: Manager, n: Manager) {
    && Live(x2, y2, m, n) && Less(x2, y2, x, y)
    && x2.written == x.written && y2.written == y.written && SameEnds(x, x2) && SameEnds(y, y2)
  }

  lemma SubsetSize(a: set<nat>, b: set<nat>)
    requires a <= b
    ensures |a| <= |b|
  {
    assert b == a + (b - a);
  }

  lemma LosePays(x: Endpoint, y: Endpoint, m: Manager, n: Manager, pn: nat)
    requires Live(x, y, m, n) && pn in Carrying(x)
    ensures Advances(x, y, Act(x, y, ActLose(pn)), y, m, n)
  {
    hide InvBut, CreditKept.Kept, CreditFlow.Granting, Lose, Carrying, Unsent, Unrepaired;
    ActLive(x, y, m, n, ActLose(pn));
    Sides(x, y);
    LoseLeaves(x, pn);
    assert |Carrying(x) - {pn}| == |Carrying(x)| - 1;
  }

  /** An exchange that leaves `x1` with less to do. */
  lemma ExchangePays(x: Endpoint, y: Endpoint, m: Manager, n: Manager, item: Item, f: Frame)
    requires Live(x, y, m, n) && IsAckEliciting(f)
    requires var x1 := Act(x, y, ActSend([item]));
             && x1.emitted == x.emitted + [[f]] && x1.held == x.held + {|x.emitted|} && x1.written == x.written
             && SameEnds(x, x1)
             && Unsent(x1) <= Unsent(x) && Unrepaired(x1) <= Unrepaired(x)
             && (|| Unsent(x1) < Unsent(x) || Unrepaired(x1) < Unrepaired(x)
                 || (!f.Stream? && |x1.control| < |x.control|))
    ensures var (x2, y2) := Exchange(x, y, item); Advances(x, y, x2, y2, m, n)
  {
    hide InvBut, CreditKept.Kept, CreditFlow.Granting, Act, Carrying, Unsent, Unrepaired, Has;
    var x1 := Act(x, y, ActSend([item]));
    LiveSymmetric(x, y, m, n);
    Sides(y, x);
    ActLive(x, y, m, n, ActSend([item]));
    RoundTrip(x1, y, f, m, n);
    var (x2, y2) := Exchange(x, y, item);
    NewCarrying(x, x1);
    assert Carrying(x2) <= Carrying(x);
    SubsetSize(Carrying(x2), Carrying(x));
  }

  lemma NewCarrying(x: Endpoint, x1: Endpoint)
    requires |x1.emitted| == |x.emitted| + 1 && x1.emitted[..|x.emitted|] == x.emitted
    requires x1.held == x.held + {|x.emitted|}
    ensures Carrying(x1) - {|x.emitted|} <= Carrying(x)
  {
    forall n | n in Carrying(x1) && n != |x.emitted| ensures n in Carrying(x) {
      assert x1.emitted[n] == x.emitted[n];
    }
  }

  lemma {:induction false} TotalPositive(order: seq<nat>, a: map<nat, nat>)
    requires Total(order, a) > 0
    ensures exists id: nat :: id in order && Get(a, id) > 0
    decreases |order|
  {
    var last := order[|order| - 1];
    if Get(a, last) == 0 { TotalPositive(order[..|order| - 1], a); }
  }

  lemma TakeEnds(x: Endpoint, id: nat, maxBytes: int)
    requires id in x.mgr.send
    ensures SameEnds(x, x.(mgr := TakeFrame(x.mgr, id, maxBytes).0))
  {
  }

  /** What taking a frame of a stream changes of what is left. */
  lemma TakePays(x: Endpoint, y: Endpoint, id: nat, maxBytes: int)
    requires Inv(x, y) && id in x.mgr.send && TakeFrame(x.mgr, id, maxBytes).1.Some?
    ensures var s, mgr := x.mgr.send[id], TakeFrame(x.mgr, id, maxBytes).0;
            var d := x.(mgr := mgr);
            && id in mgr.send
            && Unsent(d) == Unsent(x) - Rest(s) + Rest(mgr.send[id])
            && Unrepaired(d) == Unrepaired(x) - |s.retransmit| + |mgr.send[id].retransmit|
  {
    hide InvBut, NextFrame, Total, Rest, Has;
    Sides(x, y);
    var t := TakeFrame(x.mgr, id, maxBytes).0.send[id];
    assert Rests(x.mgr.send[id := t]) == Rests(x.mgr.send)[id := Rest(t)];
    assert Agains(x.mgr.send[id := t]) == Agains(x.mgr.send)[id := |t.retransmit|];
    TotalUpdate(x.mgr.order, Rests(x.mgr.send), id, Rest(t));
    TotalUpdate(x.mgr.order, Agains(x.mgr.send), id, |t.retransmit|);
  }

  /** A frame taken is one fewer to repair, or new bytes or the end sent. */
  lemma NextPays(s: Sender, maxBytes: int, credit: int)
    requires NextFrame(s, maxBytes, credit).1.Some?
    ensures var t := NextFrame(s, maxBytes, credit).0;
            && Rest(t) <= Rest(s) && |t.retransmit| <= |s.retransmit|
            && (Rest(t) < Rest(s) || |t.retransmit| < |s.retransmit|)
  {
  }

  lemma EndsOf(x: Endpoint, e: Endpoint, d: Endpoint)
    requires SameEnds(x, e) && d.mgr.send == e.mgr.send
    ensures SameEnds(x, d)
  {
  }

  lemma StreamPays(x: Endpoint, y: Endpoint, m: Manager, n: Manager, id: nat, maxBytes: int)
    requires Live(x, y, m, n) && id in x.mgr.send && TakeFrame(x.mgr, id, maxBytes).1.Some?
    ensures var (x2, y2) := Exchange(x, y, ItemStream(id, maxBytes)); Advances(x, y, x2, y2, m, n)
  {
    hide InvBut, CreditKept.Kept, CreditFlow.Granting, Send, Exchange, NextFrame, Advances, SameEnds;
    hide Unsent, Unrepaired, Rest;
    Sides(x, y);
    StreamSent(x, id, maxBytes);
    TakePays(x, y, id, maxBytes);
    TakeEnds(x, id, maxBytes);
    NextPays(x.mgr.send[id], maxBytes, x.mgr.maxData - x.mgr.dataSent);
    var (mgr, f) := TakeFrame(x.mgr, id, maxBytes);
    var x1 := Act(x, y, ActSend([ItemStream(id, maxBytes)]));
    SameUnsent(x.(mgr := mgr), x1);
    EndsOf(x, x.(mgr := mgr), x1);
    ExchangePays(x, y, m, n, ItemStream(id, maxBytes), f.value);
  }

  lemma RepairPays(x: Endpoint, y: Endpoint, m: Manager, n: Manager) returns (item: Item)
    requires Live(x, y, m, n) && Unrepaired(x) > 0
    ensures var (x2, y2) := Exchange(x, y, item); Advances(x, y, x2, y2, m, n)
  {
    hide InvBut, CreditKept.Kept, CreditFlow.Granting, Total, Advances, Exchange;
    Sides(x, y);
    TotalPositive(x.mgr.order, Agains(x.mgr.send));
    var id: nat :| id in x.mgr.order && Get(Agains(x.mgr.send), id) > 0;
    var maxBytes := |x.mgr.send[id].retransmit[0].data|;
    StreamPays(x, y, m, n, id, maxBytes);
    item := ItemStream(id, maxBytes);
  }

  lemma ControlPays(x: Endpoint, y: Endpoint, m: Manager, n: Manager)
    requires Live(x, y, m, n) && x.control != []
    ensures var (x2, y2) := Exchange(x, y, ItemControl); Advances(x, y, x2, y2, m, n)
  {
    hide InvBut, CreditKept.Kept, CreditFlow.Granting, Send, Exchange, Unsent, Unrepaired, Advances;
    Sides(x, y);
    ControlSent(x);
    SameUnsent(x, Act(x, y, ActSend([ItemControl])));
    ExchangePays(x, y, m, n, ItemControl, x.control[0]);
  }

  // -------------------------------------------------------- an idle pair can send more

  /** Nothing of this side is lost, held or waiting to be announced. */
  ghost predicate Idle(e: Endpoint) { Carrying(e) == {} && Unrepaired(e) == 0 && e.control == [] }

  /** The limits a side starts from let something through. */
  predicate Generous(n: Manager) { n.dataWindow > 0 && n.local.bidiLocal > 0 && n.local.bidiRemote > 0 }

  lemma {:induction false} TotalZero(order: seq<nat>, a: map<nat, nat>, id: nat)
    requires Total(order, a) == 0 && id in order
    ensures Get(a, id) == 0
    decreases |order|
  {
    if id != order[|order| - 1] { TotalZero(order[..|order| - 1], a, id); }
  }

  lemma IdleHolds(e: Endpoint)
    requires Carrying(e) == {}
    ensures forall n, k :: n in e.held && n < |e.emitted| && 0 <= k < |e.emitted[n]| ==> e.emitted[n][k].Ack?
  {
    forall n | n in e.held && n < |e.emitted| ensures AcksOnly(e.emitted[n]) {
      assert n !in Carrying(e);
    }
  }

  lemma IdleRead(x: Endpoint, y: Endpoint, id: nat)
    requires Inv(x, y) && Idle(x) && id in x.mgr.send
    ensures x.mgr.send[id].retransmit == [] && ReceiverOf(RxOf(y), id).readOffset == x.mgr.send[id].base
    ensures x.mgr.send[id].finSent <==> ReceiverOf(RxOf(y), id).finalSize.Some?
    ensures TransferTheorems.NoneHeld(x.emitted, x.held, id)
  {
    hide Dir, Table, Has, Carrying;
    Sides(x, y);
    TotalZero(x.mgr.order, Agains(x.mgr.send), id);
    IdleHolds(x);
    TransferTheorems.IdleReceives(TxOf(x), RxOf(y), id);
  }

  /** An idle peer has told us every limit. */
  lemma IdleKnows(x: Endpoint, y: Endpoint, l: CreditKept.Limit)
    requires CreditKept.Kept(y, x) && Idle(y) && CreditKept.InUse(l)
    ensures CreditKept.Known(x.mgr, l) >= CreditKept.Granted(y.mgr, l)
  {
    hide CreditKept.Known, CreditKept.Granted, CreditKept.Heeded, Carrying;
    IdleHolds(y);
    assert CreditKept.Promised(y, x, l);
  }

  lemma StreamCredit(x: Endpoint, y: Endpoint, m: Manager, n: Manager, id: nat)
    requires Live(x, y, m, n) && Idle(x) && Idle(y) && Generous(n) && id in x.mgr.send && !x.mgr.send[id].finSent
    ensures x.mgr.send[id].maxStreamData > x.mgr.send[id].base
  {
    hide Dir, CreditKept.Kept, Idle, CreditFlow.DataOpen, CreditFlow.CountOpen, PeerStreams.Ok, PeerStreams.OwnIds;
    IdleRead(x, y, id);
    IdleKnows(x, y, CreditKept.StreamLimit(id));
  }

  lemma DataCredit(x: Endpoint, y: Endpoint, m: Manager, n: Manager)
    requires Live(x, y, m, n) && Idle(x) && Idle(y) && Generous(n)
    ensures x.mgr.maxData > x.mgr.dataSent
  {
    hide InvBut, CreditKept.Kept, Idle, Total, Has;
    hide CreditFlow.StreamsOpen, CreditFlow.CountOpen, PeerStreams.Ok, PeerStreams.OwnIds;
    IdleKnows(x, y, CreditKept.DataLimit);
    Sides(x, y);
    LiveSymmetric(x, y, m, n);
    Sides(y, x);
    forall id: nat | id in x.mgr.order
      ensures Get(Bases(x.mgr.send), id) <= Get(ReadOffsets(y.mgr.recv), id)
      ensures Get(Bases(x.mgr.send), id) > 0 ==> id in y.mgr.order
    {
      IdleRead(x, y, id);
    }
    TotalLe(x.mgr.order, Bases(x.mgr.send), y.mgr.order, ReadOffsets(y.mgr.recv));
    Charged(x, y);
  }

  lemma Charged(x: Endpoint, y: Endpoint)
    requires Inv(x, y)
    ensures x.mgr.dataSent == Total(x.mgr.order, Bases(x.mgr.send))
  {
    hide Pairs, SentOk, AdvertsOk, Absorbed, TransferInv.Kept, Table, Total;
  }

  /** When all is quiet and something was never sent, some of it can be sent now. */
  lemma DataPays(x: Endpoint, y: Endpoint, m: Manager, n: Manager) returns (item: Item)
    requires Live(x, y, m, n) && Idle(x) && Idle(y) && Generous(n) && Unsent(x) > 0
    ensures var (x2, y2) := Exchange(x, y, item); Advances(x, y, x2, y2, m, n)
  {
    hide InvBut, CreditKept.Kept, CreditFlow.Granting, Total, Advances, Exchange, Idle;
    Sides(x, y);
    TotalPositive(x.mgr.order, Rests(x.mgr.send));
    var id: nat :| id in x.mgr.order && Get(Rests(x.mgr.send), id) > 0;
    IdleRead(x, y, id);
    DataCredit(x, y, m, n);
    Unfinished(x, y, id);
    StreamCredit(x, y, m, n, id);
    StreamPays(x, y, m, n, id, 1);
    item := ItemStream(id, 1);
  }

  lemma Unfinished(x: Endpoint, y: Endpoint, id: nat)
    requires Inv(x, y) && id in x.mgr.send && Rest(x.mgr.send[id]) > 0
    ensures !x.mgr.send[id].finSent
  {
    hide SentOk, AdvertsOk, Absorbed, Credit, TransferInv.Kept, Table, FrameOk, RecvOk, LogOk, Agreed, Has;
    assert PairAt(TxOf(x), RxOf(y), id);
  }

  // ------------------------------------------------------------------- whole runs

  function View(s: System, left: bool): (Endpoint, Endpoint) {
    if left then (s.left, s.right) else (s.right, s.left)
  }

  /** The steps of an exchange. */
  function Trip(s: System, left: bool, item: Item): seq<Step> {
    var (x, y) := View(s, left);
    [Step(left, ActSend([item])), Step(!left, ActReceive(|x.emitted|)), Step(!left, ActSend([ItemAck])),
     Step(left, ActReceive(|y.emitted|))]
  }

  lemma {:induction false} RunAppends(s: System, a: seq<Step>, b: seq<Step>)
    ensures Run(s, a + b) == Run(Run(s, a), b)
    decreases |b|
  {
    hide Next;
    if b == [] {
      assert a + b == a;
    } else {
      var n := |b| - 1;
      RunAppends(s, a, b[..n]);
      assert (a + b)[..|a + b| - 1] == a + b[..n];
    }
  }

  lemma RunOne(s: System, t: Step)
    ensures Run(s, [t]) == Next(s, t)
  {
    hide Next;
    assert [t][..0] == [];
    assert Run(s, []) == s;
  }

  lemma RunMore(s: System, steps: seq<Step>, t: Step)
    ensures Run(s, steps + [t]) == Next(Run(s, steps), t)
  {
    hide Next, Run;
    RunAppends(s, steps, [t]);
    RunOne(Run(s, steps), t);
  }

  lemma TripRuns(s: System, left: bool, item: Item)
    ensures var (x, y) := View(s, left); View(Run(s, Trip(s, left, item)), left) == Exchange(x, y, item)
  {
    hide Act, Run;
    var t := Trip(s, left, item);
    RunOne(s, t[0]);
    RunMore(s, [t[0]], t[1]);
    RunMore(s, [t[0]] + [t[1]], t[2]);
    RunMore(s, [t[0]] + [t[1]] + [t[2]], t[3]);
    assert t == [t[0]] + [t[1]] + [t[2]] + [t[3]];
  }

  /** Everything was sent and nothing of it is under way. */
  ghost predicate Done(s: System) { Idle(s.left) && Idle(s.right) && Unsent(s.left) == 0 && Unsent(s.right) == 0 }

  predicate Quiet(steps: seq<Step>) {
    forall k :: 0 <= k < |steps| ==> !steps[k].action.ActOpen? && !steps[k].action.ActWrite?
  }

  ghost predicate GetsOn(s: System, u: System, m: Manager, n: Manager) {
    Advances(s.left, s.right, u.left, u.right, m, n)
  }

  lemma TripGetsOn(s: System, left: bool, item: Item, m: Manager, n: Manager)
    requires var ((x, y), (o, p)) := (View(s, left), if left then (m, n) else (n, m));
             var (x2, y2) := Exchange(x, y, item); Advances(x, y, x2, y2, o, p)
    ensures Quiet(Trip(s, left, item)) && GetsOn(s, Run(s, Trip(s, left, item)), m, n)
  {
    hide Exchange, Live, Run, Unsent, Unrepaired, Carrying;
    TripRuns(s, left, item);
    if !left {
      var u := Run(s, Trip(s, left, item));
      LiveSymmetric(u.right, u.left, n, m);
    }
  }

  lemma LoseGetsOn(s: System, left: bool, pn: nat, m: Manager, n: Manager) returns (steps: seq<Step>)
    requires Live(s.left, s.right, m, n) && pn in Carrying(View(s, left).0)
    ensures Quiet(steps) && GetsOn(s, Run(s, steps), m, n)
  {
    hide Live, Run, Unsent, Unrepaired, Carrying, Act;
    steps := [Step(left, ActLose(pn))];
    RunOne(s, steps[0]);
    if left {
      LosePays(s.left, s.right, m, n, pn);
    } else {
      LiveSymmetric(s.left, s.right, m, n);
      LosePays(s.right, s.left, n, m, pn);
      LiveSymmetric(Run(s, steps).right, s.left, n, m);
    }
  }

  /** Whenever something is left to do, some of it can be done. */
  lemma SomethingWorks(s: System, m: Manager, n: Manager) returns (steps: seq<Step>)
    requires Live(s.left, s.right, m, n) && Generous(m) && Generous(n) && !Done(s)
    ensures Quiet(steps) && GetsOn(s, Run(s, steps), m, n)
  {
    hide Live, Run, Unsent, Unrepaired, Carrying, Advances, Exchange, Quiet;
    LiveSymmetric(s.left, s.right, m, n);
    if Carrying(s.left) != {} {
      var pn :| pn in Carrying(s.left);
      steps := LoseGetsOn(s, true, pn, m, n);
    } else if Carrying(s.right) != {} {
      var pn :| pn in Carrying(s.right);
      steps := LoseGetsOn(s, false, pn, m, n);
    } else {
      var left, item;
      if Unrepaired(s.left) > 0 { left := true; item := RepairPays(s.left, s.right, m, n); }
      else if Unrepaired(s.right) > 0 { left := false; item := RepairPays(s.right, s.left, n, m); }
      else if s.left.control != [] { left, item := true, ItemControl; ControlPays(s.left, s.right, m, n); }
      else if s.right.control != [] { left, item := false, ItemControl; ControlPays(s.right, s.left, n, m); }
      else if Unsent(s.left) > 0 { left := true; item := DataPays(s.left, s.right, m, n); }
      else { left := false; item := DataPays(s.right, s.left, n, m); }
      TripGetsOn(s, left, item, m, n);
      steps := Trip(s, left, item);
    }
  }

  /** All that `x` wrote was delivered to `y`, and every end reported. */
  ghost predicate AllDelivered(x: Endpoint, y: Endpoint) {
    forall id :: id in x.mgr.send ==>
      var log := LogOf(y.log, id);
      && Joined(log) == WrittenOf(x.written, id)
      && (x.mgr.send[id].finQueued ==> log != [] && log[|log| - 1].end)
  }

  /** These steps write nothing more, and bring home what was written. */
  ghost predicate Completes(s: System, steps: seq<Step>) {
    var u := Run(s, steps);
    && Quiet(steps) && u.left.written == s.left.written && u.right.written == s.right.written
    && SameEnds(s.left, u.left) && SameEnds(s.right, u.right)
    && AllDelivered(u.left, u.right) && AllDelivered(u.right, u.left)
  }

  lemma DoneDelivers(x: Endpoint, y: Endpoint)
    requires Inv(x, y) && Idle(x) && Unsent(x) == 0
    ensures AllDelivered(x, y)
  {
    hide InvBut, Idle, Total, TransferTheorems.NoneHeld;
    Sides(x, y);
    forall id | id in x.mgr.send
      ensures var log := LogOf(y.log, id);
              && Joined(log) == WrittenOf(x.written, id)
              && (x.mgr.send[id].finQueued ==> log != [] && log[|log| - 1].end)
    {
      TotalZero(x.mgr.order, Rests(x.mgr.send), id);
      IdleRead(x, y, id);
      TransferTheorems.IdleDelivers(x, y, id);
    }
  }

  lemma {:induction false} Finish(s: System, m: Manager, n: Manager) returns (steps: seq<Step>)
    requires Live(s.left, s.right, m, n) && Generous(m) && Generous(n)
    ensures Completes(s, steps)
    decreases Unsent(s.left) + Unsent(s.right), |Carrying(s.left)| + |Carrying(s.right)|,
              Unrepaired(s.left) + Unrepaired(s.right), |s.left.control| + |s.right.control|
  {
    hide InvBut, CreditKept.Kept, CreditFlow.Granting, Unsent, Unrepaired, Carrying, Run, AllDelivered;
    if Done(s) {
      steps := [];
      NoSteps(s);
      LiveSymmetric(s.left, s.right, m, n);
      DoneDelivers(s.left, s.right);
      DoneDelivers(s.right, s.left);
    } else {
      var first := SomethingWorks(s, m, n);
      var later := Finish(Run(s, first), m, n);
      RunAppends(s, first, later);
      steps := first + later;
    }
  }

  lemma NoSteps(s: System)
    ensures Run(s, []) == s
  {
  }

  lemma {:induction false} RunLive(client: Limits, server: Limits, steps: seq<Step>)
    ensures var s := Run(Start(client, server), steps);
            Live(s.left, s.right, NewManager(true, client, server), NewManager(false, server, client))
    decreases |steps|
  {
    hide InvBut, CreditKept.Kept, CreditFlow.Granting, Act;
    var m, n := NewManager(true, client, server), NewManager(false, server, client);
    if steps == [] {
      TransferTheorems.StartOk(client, server);
      CreditKept.StartKept(true, client, server);
      CreditKept.StartKept(false, server, client);
      CreditFlow.FreshFlows(true, client, server);
      CreditFlow.FreshFlows(false, server, client);
    } else {
      var t := steps[|steps| - 1];
      RunLive(client, server, steps[..|steps| - 1]);
      var s := Run(Start(client, server), steps[..|steps| - 1]);
      if t.onLeft {
        ActLive(s.left, s.right, m, n, t.action);
      } else {
        LiveSymmetric(s.left, s.right, m, n);
        ActLive(s.right, s.left, n, m, t.action);
        LiveSymmetric(Act(s.right, s.left, t.action), s.left, n, m);
      }
    }
  }

  // ------------------------------------------------------------------- theorems

  /** The limits let something through both ways. */
  predicate Usable(client: Limits, server: Limits) {
    && client.maxData > 0 && client.bidiLocal > 0 && client.bidiRemote > 0
    && server.maxData > 0 && server.bidiLocal > 0 && server.bidiRemote > 0
  }

  /** From every state of every run there is a way on, with nothing more written, to a
      state in which both sides have been given all that was written to every stream, and
      the end of every stream that was finished: whatever was lost, withheld, repeated
      or probed for before, flow control never deadlocks.  The limits both sides start
      from must let something through. */
  lemma EveryRunCanFinish(client: Limits, server: Limits, steps: seq<Step>)
    requires Usable(client, server)
    ensures exists more :: Completes(Run(Start(client, server), steps), more)
  {
    hide Live, Run, Completes;
    RunLive(client, server, steps);
    var more := Finish(Run(Start(client, server), steps), NewManager(true, client, server),
                       NewManager(false, server, client));
  }

  /** After one side wrote to a stream, these steps deliver that and all before it. */
  ghost predicate Brings(s: System, left: bool, id: nat, data: Bytes, fin: bool, more: seq<Step>) {
    var u := Run(Next(s, Step(left, ActWrite(id, data, fin))), more);
    var log := LogOf(View(u, left).1.log, id);
    && Quiet(more) && Joined(log) == WrittenOf(View(s, left).0.written, id) + data
    && (fin ==> log != [] && log[|log| - 1].end)
  }

  lemma LiveView(s: System, left: bool, m: Manager, n: Manager)
    requires Live(s.left, s.right, m, n)
    ensures var (x, y) := View(s, left); Inv(x, y)
  {
    hide InvBut, CreditKept.Kept, CreditFlow.Granting;
    LiveSymmetric(s.left, s.right, m, n);
  }

  lemma StartGenerous(client: Limits, server: Limits)
    requires Usable(client, server)
    ensures Generous(NewManager(true, client, server)) && Generous(NewManager(false, server, client))
  {
  }

  lemma NextView(s: System, left: bool, a: Action)
    ensures var (x, y) := View(s, left); View(Next(s, Step(left, a)), left) == (Act(x, y, a), y)
  {
    hide Act;
  }

  lemma WriteCounts(x: Endpoint, y: Endpoint, id: nat, data: Bytes, fin: bool)
    requires x.failed.None? && id in x.mgr.send && !x.mgr.send[id].finQueued
    ensures var d := Act(x, y, ActWrite(id, data, fin));
            && id in d.mgr.send && d.mgr.send[id].finQueued == fin
            && WrittenOf(d.written, id) == WrittenOf(x.written, id) + data
  {
  }

  lemma Arrives(s: System, more: seq<Step>, left: bool, id: nat)
    requires Completes(s, more) && id in View(s, left).0.mgr.send
    ensures var (x, y) := (View(s, left).0, View(Run(s, more), left).1);
            var log := LogOf(y.log, id);
            && Quiet(more) && Joined(log) == WrittenOf(x.written, id)
            && (x.mgr.send[id].finQueued ==> log != [] && log[|log| - 1].end)
  {
    hide Run, Quiet;
  }

  /** In every run, what either side writes to a stream it has not finished can be brought
      to the other whole, after everything written to it before, and its end with it. */
  lemma WrittenCanArrive(client: Limits, server: Limits, steps: seq<Step>, left: bool, id: nat, data: Bytes, fin: bool)
    requires Usable(client, server)
    requires var x := View(Run(Start(client, server), steps), left).0;
             id in x.mgr.send && !x.mgr.send[id].finQueued
    ensures exists more :: Brings(Run(Start(client, server), steps), left, id, data, fin, more)
  {
    hide Live, InvBut, Run, Completes, Start, Act, Next, Generous;
    var s, t := Run(Start(client, server), steps), Step(left, ActWrite(id, data, fin));
    RunLive(client, server, steps);
    RunMore(Start(client, server), steps, t);
    RunLive(client, server, steps + [t]);
    StartGenerous(client, server);
    var more := Finish(Next(s, t), NewManager(true, client, server), NewManager(false, server, client));
    var (x, y) := View(s, left);
    LiveView(s, left, NewManager(true, client, server), NewManager(false, server, client));
    Sides(x, y);
    WriteCounts(x, y, id, data, fin);
    NextView(s, left, t.action);
    Arrives(Next(s, t), more, left, id);
    assert Brings(s, left, id, data, fin, more);
  }

  /** The stream a side would open next. */
  function NextStream(x: Endpoint): nat { BidiId(x.mgr.isClient, x.mgr.nextBidi) }

  ghost predicate Opens(s: System, left: bool, data: Bytes, fin: bool, more: seq<Step>) {
    var after := Next(s, Step(left, ActOpen));
    && Brings(after, left, NextStream(View(s, left).0), data, fin, more)
    && WrittenOf(View(after, left).0.written, NextStream(View(s, left).0)) == []
  }

  lemma OpenCounts(x: Endpoint, y: Endpoint)
    requires Inv(x, y) && x.mgr.nextBidi < x.mgr.maxStreamsBidi
    ensures var d := Act(x, y, ActOpen);
            && NextStream(x) in d.mgr.send && !d.mgr.send[NextStream(x)].finQueued
            && WrittenOf(d.written, NextStream(x)) == []
  {
    hide Dir, BidiId;
    TransferProof.NextIdIsNew(x, y);
  }

  /** In every run in which the peer's limit allows another stream, opening it and
      writing to it can bring exactly that to the peer. */
  lemma OpenedCanArrive(client: Limits, server: Limits, steps: seq<Step>, left: bool, data: Bytes, fin: bool)
    requires Usable(client, server)
    requires var x := View(Run(Start(client, server), steps), left).0; x.mgr.nextBidi < x.mgr.maxStreamsBidi
    ensures var s := Run(Start(client, server), steps);
            exists more :: Opens(s, left, data, fin, more)
  {
    hide Live, InvBut, Run, Start, Act, Next, Brings, NextStream;
    var s, t := Run(Start(client, server), steps), Step(left, ActOpen);
    var (x, y) := View(s, left);
    RunLive(client, server, steps);
    LiveView(s, left, NewManager(true, client, server), NewManager(false, server, client));
    OpenCounts(x, y);
    NextView(s, left, ActOpen);
    RunMore(Start(client, server), steps, t);
    WrittenCanArrive(client, server, steps + [t], left, NextStream(x), data, fin);
    var more :| Brings(Next(s, t), left, NextStream(x), data, fin, more);
    assert Opens(s, left, data, fin, more);
  }

}
