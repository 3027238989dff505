/** What holds in every run of two connected endpoints, whatever is written, sent,
    lost, repeated, reordered, declared lost or probed for, and in what order. */
module TransferTheorems {
  import opened Options
  import opened RangeSets
  import opened Frames
  import opened Streams
  import opened Managers
  import opened Delivery
  import opened Transfer
  import opened TransferInv
  import ReceiverSide
  import opened TransferProof
  import opened TransferReceive

  lemma ActKeeps(x: Endpoint, y: Endpoint, a: Action)
    requires Inv(x, y)
    ensures Inv(Act(x, y, a), y)
  {
    hide InvBut;
    match a
    case ActOpen => OpenKeeps(x, y);
    case ActWrite(id, data, fin) => WriteDataKeeps(x, y, id, data, fin);
    case ActSend(items) => SendKeeps(x, y, items);
    case ActReceive(pn) => if pn < |y.emitted| { ReceiveKeeps(x, y, pn); }
    case ActLose(pn) => LoseKeeps(x, y, pn);
    case ActProbe(pn) => LoseKeeps(x, y, pn);
  }

  lemma Symmetric(x: Endpoint, y: Endpoint)
    requires Inv(x, y)
    ensures Inv(y, x)
  {
    hide Dir, Table;
  }

  lemma NextKeeps(s: System, t: Step)
    requires Inv(s.left, s.right)
    ensures Inv(Next(s, t).left, Next(s, t).right)
  {
    hide InvBut, Act;
    if t.onLeft {
      ActKeeps(s.left, s.right, t.action);
    } else {
      Symmetric(s.left, s.right);
      ActKeeps(s.right, s.left, t.action);
      Symmetric(Act(s.right, s.left, t.action), s.left);
    }
  }

  lemma FreshDir(isClient: bool, limits: Limits, other: Limits)
    ensures Dir(TxOf(NewEndpoint(isClient, other, limits)), RxOf(NewEndpoint(!isClient, limits, other)), -1)
  {
    var t := TxOf(NewEndpoint(isClient, other, limits));
    var r := RxOf(NewEndpoint(!isClient, limits, other));
    forall id: nat ensures PairAt(t, r, id) {
      FreshPair(id, SendCredit(isClient, limits, id), RecvCredit(!isClient, limits, id));
    }
    assert Bases(t.send) == map[] && Highs(r.recv) == map[];
  }

  lemma StartOk(client: Limits, server: Limits)
    ensures Inv(Start(client, server).left, Start(client, server).right)
  {
    hide Dir;
    FreshDir(true, server, client);
    FreshDir(false, client, server);
  }

  lemma {:induction false} RunKeeps(client: Limits, server: Limits, steps: seq<Step>)
    ensures var s := Run(Start(client, server), steps); Inv(s.left, s.right)
    decreases |steps|
  {
    hide InvBut, Next;
    if steps == [] {
      StartOk(client, server);
    } else {
      RunKeeps(client, server, steps[..|steps| - 1]);
      NextKeeps(Run(Start(client, server), steps[..|steps| - 1]), steps[|steps| - 1]);
    }
  }

  /** The sender and the receiver of one direction, after a run. */
  function Ends(client: Limits, server: Limits, steps: seq<Step>, fromLeft: bool): (Endpoint, Endpoint) {
    var s := Run(Start(client, server), steps);
    if fromLeft then (s.left, s.right) else (s.right, s.left)
  }

  lemma EndsKeep(client: Limits, server: Limits, steps: seq<Step>, fromLeft: bool)
    ensures var (x, y) := Ends(client, server, steps, fromLeft); Inv(x, y)
  {
    hide InvBut;
    RunKeeps(client, server, steps);
    var s := Run(Start(client, server), steps);
    Symmetric(s.left, s.right);
  }

  /** No run makes either endpoint close the connection: no FLOW_CONTROL_ERROR,
      FINAL_SIZE_ERROR, STREAM_LIMIT_ERROR or STREAM_STATE_ERROR, no
      acknowledgement of a packet never sent, no credit for an unknown stream. */
  lemma NoRunFails(client: Limits, server: Limits, steps: seq<Step>)
    ensures var s := Run(Start(client, server), steps); s.left.failed == None && s.right.failed == None
  {
    hide Dir, Table;
    RunKeeps(client, server, steps);
  }

  /** In every run, the data of a stream's events is a prefix of what was written
      to it; the end is reported at most once, with the last event, and then
      everything written up to the FIN has been delivered. */
  lemma EndToEnd(client: Limits, server: Limits, steps: seq<Step>, fromLeft: bool, id: nat)
    ensures var (x, y) := Ends(client, server, steps, fromLeft);
            var log := LogOf(y.log, id);
            && Joined(log) <= WrittenOf(x.written, id)
            && (forall k :: 0 <= k < |log| && log[k].end ==>
                  && k == |log| - 1 && Joined(log) == WrittenOf(x.written, id)
                  && id in x.mgr.send && x.mgr.send[id].finSent)
  {
    EndsKeep(client, server, steps, fromLeft);
    var (x, y) := Ends(client, server, steps, fromLeft);
    assert PairAt(TxOf(x), RxOf(y), id);
    DeliveredIsPrefix(SenderOf(TxOf(x), id), WrittenOf(x.written, id), ReceiverOf(RxOf(y), id), LogOf(y.log, id));
  }

  /** In every run, every allowance a sender holds is at most what its peer has
      advertised, and what it has used is within it: per stream, for the
      connection, and for the number of streams. */
  lemma CreditAgreement(client: Limits, server: Limits, steps: seq<Step>, fromLeft: bool, id: nat)
    ensures var (x, y) := Ends(client, server, steps, fromLeft);
            && x.mgr.dataSent <= x.mgr.maxData <= y.mgr.localMaxData
            && y.mgr.dataReceived <= x.mgr.dataSent
            && x.mgr.nextBidi <= x.mgr.maxStreamsBidi <= y.mgr.localStreamsBidi
            && x.mgr.maxStreamsUni <= y.mgr.localStreamsUni
            && (id in x.mgr.send ==>
                  x.mgr.send[id].base <= x.mgr.send[id].maxStreamData <= ReceiverOf(RxOf(y), id).maxStreamData)
            && ReceiverOf(RxOf(y), id).highest <= SenderOf(TxOf(x), id).base
  {
    EndsKeep(client, server, steps, fromLeft);
    var (x, y) := Ends(client, server, steps, fromLeft);
    assert PairAt(TxOf(x), RxOf(y), id);
    SideOf(x, y);
    SideOf(y, x);
    ReceiverSide.WithinCredit(TxOf(x), RxOf(y), -1);
  }

  /** In every run, a sending half in Data Recvd implies that the peer's receiving
      half holds every byte and the same final size, and has delivered them. */
  lemma AcknowledgedIsDelivered(client: Limits, server: Limits, steps: seq<Step>, fromLeft: bool, id: nat)
    ensures var (x, y) := Ends(client, server, steps, fromLeft);
            id in x.mgr.send && x.mgr.send[id].state.DataRecvd? ==>
              var w := WrittenOf(x.written, id);
              && id in y.mgr.recv && y.mgr.recv[id].finalSize == Some(|w|) && y.mgr.recv[id].buffer == w
              && y.mgr.recv[id].state.AllRead? && Joined(LogOf(y.log, id)) == w
  {
    EndsKeep(client, server, steps, fromLeft);
    var (x, y) := Ends(client, server, steps, fromLeft);
    if id in x.mgr.send && x.mgr.send[id].state.DataRecvd? {
      assert PairAt(TxOf(x), RxOf(y), id);
      DataRecvdIsSound(x.mgr.send[id], WrittenOf(x.written, id), ReceiverOf(RxOf(y), id), LogOf(y.log, id));
    }
  }

  /** In every run, a sending half is in Data Recvd exactly when its FIN and every byte
      up to the final size are acknowledged. */
  lemma DataRecvdIsExact(client: Limits, server: Limits, steps: seq<Step>, fromLeft: bool, id: nat)
    ensures var (x, y) := Ends(client, server, steps, fromLeft);
            id in x.mgr.send ==>
              (x.mgr.send[id].state.DataRecvd?
               <==> && x.mgr.send[id].finAcked && x.mgr.send[id].finalSize.Some?
                    && forall b :: 0 <= b < x.mgr.send[id].finalSize.value ==> Has(x.mgr.send[id].acked, b))
  {
    hide Run, Start, SentOk, AdvertsOk, Absorbed, Credit, Kept, Table, FrameOk, RecvOk, LogOk, Agreed, Has;
    EndsKeep(client, server, steps, fromLeft);
    var (x, y) := Ends(client, server, steps, fromLeft);
    if id in x.mgr.send {
      assert PairAt(TxOf(x), RxOf(y), id);
      CoversIsInclusion(x.mgr.send[id].acked, 0, |WrittenOf(x.written, id)|);
    }
  }

  /** In every run, each byte sent and each FIN sent is acknowledged, queued for
      retransmission, or in a frame of a packet that loss recovery still holds. */
  lemma NoByteLeftBehind(client: Limits, server: Limits, steps: seq<Step>, fromLeft: bool, id: nat, x: nat)
    ensures var (e, y) := Ends(client, server, steps, fromLeft);
            id in e.mgr.send ==>
              && (x < e.mgr.send[id].base ==> ByteKept(TxOf(e), id, x))
              && (e.mgr.send[id].finSent ==> FinKept(TxOf(e), id))
  {
    EndsKeep(client, server, steps, fromLeft);
  }

  /** No packet recovery holds carries a frame of the stream. */
  ghost predicate NoneHeld(emitted: seq<seq<Frame>>, held: set<nat>, id: nat) {
    forall n, k :: n in held && n < |emitted| && 0 <= k < |emitted[n]| ==>
      !(emitted[n][k].Stream? && emitted[n][k].id == id)
  }

  /** Then the peer has read all that was sent of it. */
  lemma IdleReceives(t: Tx, r: Rx, id: nat)
    requires Dir(t, r, -1) && id in t.send && t.send[id].retransmit == [] && NoneHeld(t.emitted, t.held, id)
    ensures ReceiverOf(r, id).readOffset == t.send[id].base
    ensures t.send[id].finSent <==> ReceiverOf(r, id).finalSize.Some?
  {
    var s, u := t.send[id], ReceiverOf(r, id);
    assert PairAt(t, r, id);
    assert SenderOf(t, id) == s;
    forall b | 0 <= b < s.base ensures Has(u.received, b) {
      assert ByteKept(t, id, b);
    }
    ContiguousIsMaximalRun(u.received, 0);
    assert u.readOffset < s.base ==> Has(u.received, u.readOffset);
    if u.readOffset > 0 { assert Has(u.received, u.readOffset - 1); }
    if s.finSent { assert FinKept(t, id); }
  }

  lemma IdleDelivers(x: Endpoint, y: Endpoint, id: nat)
    requires Inv(x, y) && id in x.mgr.send && !HasPending(x.mgr.send[id]) && NoneHeld(x.emitted, x.held, id)
    ensures var log := LogOf(y.log, id);
            && Joined(log) == WrittenOf(x.written, id)
            && (x.mgr.send[id].finQueued ==> log != [] && log[|log| - 1].end)
  {
    hide SentOk, AdvertsOk, Absorbed, Credit, Kept, Table, Agreed;
    IdleReceives(TxOf(x), RxOf(y), id);
    assert PairAt(TxOf(x), RxOf(y), id);
    var w := WrittenOf(x.written, id);
    assert x.mgr.send[id].base == |w| && w[..|w|] == w;
  }

  /** So in every run, when nothing of a stream is pending, queued or in a packet held,
      everything written to it has been delivered, and its end reported if it was
      finished. */
  lemma IdleMeansDelivered(client: Limits, server: Limits, steps: seq<Step>, fromLeft: bool, id: nat)
    ensures var (x, y) := Ends(client, server, steps, fromLeft);
            var log := LogOf(y.log, id);
            id in x.mgr.send && !HasPending(x.mgr.send[id]) && NoneHeld(x.emitted, x.held, id) ==>
              && Joined(log) == WrittenOf(x.written, id)
              && (x.mgr.send[id].finQueued ==> log != [] && log[|log| - 1].end)
  {
    hide InvBut, HasPending, NoneHeld, Run, Start;
    EndsKeep(client, server, steps, fromLeft);
    var (x, y) := Ends(client, server, steps, fromLeft);
    if id in x.mgr.send && !HasPending(x.mgr.send[id]) && NoneHeld(x.emitted, x.held, id) { IdleDelivers(x, y, id); }
  }
}
