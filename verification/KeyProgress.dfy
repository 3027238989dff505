/** Key updates never get stuck: from every state of every run of two confirmed endpoints
    the next update can be brought about, and both then share it
    (src/dsquic/connection.py, `initiate_key_update`; section 6 of RFC 9001). */
module KeyProgress {
  import opened Numbers
  import opened KeyUpdate

  /** A packet sent and delivered at once, its number recovered. */
  function Sender(x: Party, y: Party, withAck: bool): Party { Act(x, y, ActSend(withAck)) }

  function Receiver(x: Party, y: Party, withAck: bool, now: real, pto: real): Party {
    Act(y, Sender(x, y, withAck), ActReceive(|x.emitted|, |x.emitted|, now, pto, true))
  }

  /** A confirmed receiver that is not ahead opens the newest packet, follows its sender
      into its generation, and takes in what it acknowledges. */
  lemma Hop(x: Party, y: Party, withAck: bool, now: real, pto: real)
    requires Inv(x, y) && y.confirmed && x.keys.recv >= y.keys.recv
    ensures var (x1, y1) := (Sender(x, y, withAck), Receiver(x, y, withAck, now, pto));
            && Inv(x1, y1) && x1 == x.(emitted := x1.emitted) && |x1.emitted| == |x.emitted| + 1
            && y1.keys.recv == x.keys.recv && y1.confirmed && y1.emitted == y.emitted
            && y1.largestReceived == |x.emitted|
            && (y.keys.recv == x.keys.recv ==> y1.keys.phaseSendFirst == y.keys.phaseSendFirst)
            && (withAck && x.largestReceived > y.largestAcked ==> y1.largestAcked == x.largestReceived)
  {
    var x1, n := Sender(x, y, withAck), |x.emitted|;
    ActKeeps(x, y, ActSend(withAck));
    ActKeeps(y, x1, ActReceive(n, n, now, pto, true));
    SelectionIsExact(x1, y, n, now);
  }

  /** The steps of a hop. */
  function HopSteps(s: System, left: bool, withAck: bool, now: real, pto: real): seq<Step> {
    var n := |Pair(s, left).0.emitted|;
    [Step(left, ActSend(withAck)), Step(!left, ActReceive(n, n, now, pto, true))]
  }

  lemma RunOne(s: System, t: Step)
    ensures Run(s, [t]) == Next(s, t)
  {
    hide Next;
    assert [t][..0] == [];
    assert Run(s, []) == s;
  }

  lemma HopRuns(s: System, left: bool, withAck: bool, now: real, pto: real)
    ensures var (x, y) := Pair(s, left);
            Pair(Run(s, HopSteps(s, left, withAck, now, pto)), left)
            == (Sender(x, y, withAck), Receiver(x, y, withAck, now, pto))
  {
    hide Act;
    var t := HopSteps(s, left, withAck, now, pto);
    assert t == [t[0]] + [t[1]];
    RunOne(s, t[0]);
    RunConcat(s, [t[0]], [t[1]]);
    RunOne(Run(s, [t[0]]), t[1]);
  }

  /** What is needed of a state to go on. */
  ghost predicate Ready(s: System) { Inv(s.left, s.right) && s.left.confirmed && s.right.confirmed }

  lemma HopReady(s: System, left: bool, withAck: bool, now: real, pto: real)
    requires Ready(s) && Pair(s, left).0.keys.recv >= Pair(s, left).1.keys.recv
    ensures Ready(Run(s, HopSteps(s, left, withAck, now, pto)))
    ensures var ((x, y), (x1, y1)) := (Pair(s, left), Pair(Run(s, HopSteps(s, left, withAck, now, pto)), left));
            && x1 == x.(emitted := x1.emitted) && |x1.emitted| == |x.emitted| + 1 && y1.keys.recv == x.keys.recv
            && y1.emitted == y.emitted && y1.largestReceived == |x.emitted|
            && (y.keys.recv == x.keys.recv ==> y1.keys.phaseSendFirst == y.keys.phaseSendFirst)
            && (withAck && x.largestReceived > y.largestAcked ==> y1.largestAcked == x.largestReceived)
  {
    hide Towards, Run, Sender, Receiver;
    var (x, y) := Pair(s, left);
    HopRuns(s, left, withAck, now, pto);
    Hop(x, y, withAck, now, pto);
  }

  /** The acknowledged numbers of an endpoint are below the next one it will use. */
  lemma AckedBelow(x: Party, y: Party)
    requires Inv(x, y)
    ensures x.largestAcked < |x.emitted| && x.keys.phaseSendFirst <= |x.emitted|
  {
  }

  /** Both endpoints are in the generation, and the steps only send, receive and ask
      for an update. */
  ghost predicate Updates(s: System, steps: seq<Step>, generation: nat) {
    var u := Run(s, steps);
    && u.left.keys.recv == u.left.keys.send == generation == u.right.keys.recv == u.right.keys.send
    && (forall k :: 0 <= k < |steps| ==> !steps[k].action.ActConfirm?)
  }

  /** An endpoint that is not behind starts the next update and the other follows. */
  lemma Update(s: System, left: bool, now: real, pto: real) returns (steps: seq<Step>)
    requires Ready(s) && Pair(s, left).0.keys.recv >= Pair(s, left).1.keys.recv
    ensures Updates(s, steps, Pair(s, left).0.keys.recv + 1)
  {
    hide Towards, Run, Act, HopSteps;
    var (x, y) := Pair(s, left);
    // a packet of this generation goes out and is acknowledged
    var a := HopSteps(s, left, false, now, pto);
    HopReady(s, left, false, now, pto);
    var s1 := Run(s, a);
    AckedBelow(x, y);
    var b := HopSteps(s1, !left, true, now, pto);
    HopReady(s1, !left, true, now, pto);
    var s2 := Run(s1, b);
    // which opens the gate
    var t := Step(left, ActInitiate(now, pto));
    var (x2, y2) := Pair(s2, left);
    assert x2.largestAcked == |x.emitted| >= x2.keys.phaseSendFirst;
    Started(x2, y2, now, pto);
    RunOne(s2, t);
    var s3 := Run(s2, [t]);
    NextKeeps(s2, t);
    // and the peer follows the next packet
    var c := HopSteps(s3, left, false, now, pto);
    HopReady(s3, left, false, now, pto);
    steps := a + (b + ([t] + c));
    RunConcat(s, a, b + ([t] + c));
    RunConcat(s1, b, [t] + c);
    RunConcat(s2, [t], c);
    SameKeys(Run(s3, c));
    Actions(s, left, false, now, pto);
    Actions(s1, !left, true, now, pto);
    Actions(s3, left, false, now, pto);
  }

  lemma Started(x: Party, y: Party, now: real, pto: real)
    requires Inv(x, y) && x.confirmed && x.largestAcked >= x.keys.phaseSendFirst
    ensures Act(x, y, ActInitiate(now, pto)).keys.recv == x.keys.recv + 1 && x.keys.recv <= y.keys.recv
    ensures Act(x, y, ActInitiate(now, pto)).confirmed
  {
    GateImpliesFollowed(x, y);
  }

  lemma SameKeys(s: System)
    requires Inv(s.left, s.right)
    ensures s.left.keys.send == s.left.keys.recv && s.right.keys.send == s.right.keys.recv
  {
  }

  lemma Actions(s: System, left: bool, withAck: bool, now: real, pto: real)
    ensures var steps := HopSteps(s, left, withAck, now, pto);
            forall k :: 0 <= k < |steps| ==> !steps[k].action.ActConfirm?
  {
  }

  /** The generation after the later of the two. */
  function NextUp(s: System): nat { Max(s.left.keys.recv, s.right.keys.recv) + 1 }

  /** In every run of two confirmed endpoints the next key update can be brought about:
      some way on ends with both sending and receiving under the generation after the
      later of theirs. */
  lemma UpdateCanComplete(steps: seq<Step>)
    requires var s := Run(Start(), steps); s.left.confirmed && s.right.confirmed
    ensures var s := Run(Start(), steps); exists more :: Updates(s, more, NextUp(s))
  {
    hide Run, Updates, Towards, Start;
    RunKeeps(steps);
    var s := Run(Start(), steps);
    var left := s.left.keys.recv >= s.right.keys.recv;
    var more := Update(s, left, 0.0, 0.0);
    assert Updates(s, more, NextUp(s));
  }
}
