/** The handshake never gets stuck: from every state of every run of a level, all that
    TLS produced can still be fed to the peer and acknowledged, if and only if it is
    within the receiver's bound (src/dsquic/connection.py: `_handle_crypto`,
    `_crypto_frames` and `_requeue_lost`; section 7.5 of RFC 9000). */
module CryptoProgress {
  import opened RangeSets
  import opened Acks
  import opened Handshakes
  import opened Crypto
  import opened CryptoRuns

  /** Packets the peer has not received. */
  ghost function Missing(s: Level): set<nat> { set n: nat | n < |s.packets| && !Has(s.record, n) }

  /** Nothing is left to send, and everything sent was received. */
  ghost predicate Quiet(s: Level) { s.out.pending == [] && s.out.retransmit == [] && Missing(s) == {} }

  /** The peer's TLS machine was fed the whole output, and the sender knows. */
  ghost predicate Complete(s: Level) {
    && Join(s.fed) == s.output && Handled(s.fed) == Messages(s.output)
    && s.out.pending == [] && s.out.retransmit == [] && s.held == {}
  }

  predicate Silent(acts: seq<Action>) { forall k :: 0 <= k < |acts| ==> !acts[k].Emits? }

  ghost predicate Completes(acts: seq<Action>, more: seq<Action>) { Silent(more) && Complete(Run(acts + more)) }

  lemma RunMore(acts: seq<Action>, a: Action)
    ensures Run(acts + [a]) == Act(Run(acts), a)
  {
    assert (acts + [a])[..|acts|] == acts;
  }

  // ------------------------------------------------------------------- getting on

  lemma ResendPays(s: Level)
    requires Faithful(s) && s.out.retransmit != []
    ensures var t := Act(s, Sends(|s.out.retransmit[0].data|));
            t.out.pending == s.out.pending && |t.out.retransmit| < |s.out.retransmit| && t.output == s.output
  {
    hide Kept, PeerOk, FedOk, Heard;
    FirstNonEmpty(s.output, s.out.offsetSent, s.out.retransmit);
  }

  lemma SendPays(s: Level)
    requires s.out.retransmit == [] && s.out.pending != []
    ensures var t := Act(s, Sends(|s.out.pending|));
            t.out.pending == [] && t.out.retransmit == [] && t.output == s.output
  {
  }

  lemma ArrivalPays(s: Level, n: nat)
    requires Faithful(s) && !s.refused && n in Missing(s)
    ensures var t := Act(s, Arrives(n));
            t.out == s.out && t.output == s.output && Missing(t) < Missing(s)
  {
    hide SendOk, Kept, PeerOk, FedOk, Covers, Insert, Has;
    CoversIsInclusion(s.record, n, n + 1);
    InsertIsUnion(s.record, n, n + 1);
    assert !Has(s.record, n);
    var t := Act(s, Arrives(n));
    assert Has(t.record, n);
  }

  lemma SubsetSize(a: set<nat>, b: set<nat>)
    requires a < b
    ensures |a| < |b|
  {
    var x :| x in b && x !in a;
    assert b == a + (b - a) && x in b - a;
  }

  lemma FirstGap(rs: seq<Range>)
    requires Normal(rs) && |rs| > 1
    ensures Has(rs, rs[0].start) && !Has(rs, rs[0].end) && Has(rs, rs[1].start)
  {
  }

  /** What covers a whole stretch and nothing else is one run. */
  lemma OneRun(rs: seq<Range>, count: nat)
    requires Normal(rs) && forall n :: Has(rs, n) <==> 0 <= n < count
    ensures |rs| <= 1
  {
    if |rs| > 1 { FirstGap(rs); }
  }

  /** When all arrived, one acknowledgement frees everything held. */
  lemma AckFrees(s: Level)
    requires Faithful(s) && !s.refused && Quiet(s) && s.packets != []
    ensures var t := Act(Act(s, PeerAcks), AckArrives(|s.acks|));
            t == s.(acks := t.acks, acked := t.acked, held := {})
  {
    hide Kept, PeerOk, FedOk, Has, TopRanges, Descending, Acknowledges, PieceOk;
    forall n ensures Has(s.record, n) <==> 0 <= n < |s.packets| {
      if 0 <= n < |s.packets| { assert (n as nat) !in Missing(s); }
    }
    OneRun(s.record, |s.packets|);
    assert Has(s.record, 0);
    TopRunsReceived(s.record, 0);
    forall n | n in s.held ensures Acknowledges(Descending(TopRanges(s.record)), n) {
      DescendingDenotes(s.record, n);
    }
    assert s.record != [] by { NotEmpty(s.record, 0); }
  }

  lemma NotEmpty(rs: seq<Range>, x: int)
    requires Has(rs, x)
    ensures rs != []
  {
  }

  /** When all arrived, all was fed. */
  lemma QuietIsFed(s: Level)
    requires Faithful(s) && !s.refused && Quiet(s)
    ensures Join(s.fed) == s.output && Handled(s.fed) == Messages(s.output)
  {
    hide Messages, Handled, Join, Has;
    forall x | 0 <= x < |s.output| ensures Has(s.peer.received, x) {
      assert ByteKept(s, x);
      var n :| (n in s.acked || n in s.held) && n < |s.packets| && InPacket(s.packets[n], x);
      assert n !in Missing(s);
      assert HoldsAt(s.peer, s.packets, n);
    }
    RunReaches(s.peer.received, |s.output|);
    assert s.output[..|s.output|] == s.output;
    HandledIsMessages(s.fed);
  }

  /** The last step: the acknowledgement of everything. */
  lemma Close(acts: seq<Action>) returns (more: seq<Action>)
    requires Faithful(Run(acts)) && !Run(acts).refused && Quiet(Run(acts))
    ensures Completes(acts, more)
  {
    hide Faithful, Run, Act, Missing, Join, Handled, Messages;
    var s := Run(acts);
    QuietIsFed(s);
    if s.packets == [] {
      more := [];
      assert acts + more == acts;
      assert s.held == {} by { NothingHeld(s); }
    } else {
      more := [PeerAcks] + [AckArrives(|s.acks|)];
      assert acts + more == acts + [PeerAcks] + [AckArrives(|s.acks|)];
      RunMore(acts, PeerAcks);
      RunMore(acts + [PeerAcks], AckArrives(|s.acks|));
      AckFrees(s);
    }
  }

  lemma NothingHeld(s: Level)
    requires Faithful(s) && s.packets == []
    ensures s.held == {}
  {
    hide Kept, PeerOk, FedOk, Heard;
  }

  lemma {:induction false} Finish(acts: seq<Action>) returns (more: seq<Action>)
    requires |Run(acts).output| <= MAX_CRYPTO_BUFFER
    ensures Completes(acts, more)
    decreases |Run(acts).out.pending|, |Run(acts).out.retransmit|, |Missing(Run(acts))|
  {
    hide Run, Act, Missing, Complete;
    RunKeeps(acts);
    RefusalMeansOverflow(acts);
    var s := Run(acts);
    if Quiet(s) {
      more := Close(acts);
    } else {
      var a;
      if s.out.retransmit != [] {
        a := Sends(|s.out.retransmit[0].data|);
        ResendPays(s);
      } else if s.out.pending != [] {
        a := Sends(|s.out.pending|);
        SendPays(s);
      } else {
        var n :| n in Missing(s);
        a := Arrives(n);
        ArrivalPays(s, n);
        SubsetSize(Missing(Act(s, a)), Missing(s));
      }
      RunMore(acts, a);
      var later := Finish(acts + [a]);
      more := [a] + later;
      assert acts + more == acts + [a] + later;
    }
  }

  // -------------------------------------------------------------------- the theorem

  lemma {:induction false} SilentOutput(acts: seq<Action>, more: seq<Action>)
    requires Silent(more)
    ensures Run(acts + more).output == Run(acts).output
    decreases |more|
  {
    hide Run, TakePiece, OnCrypto, Covers, Insert;
    if more == [] {
      assert acts + more == acts;
    } else {
      var n := |more| - 1;
      SilentOutput(acts, more[..n]);
      RunMore(acts + more[..n], more[n]);
      assert acts + more == acts + more[..n] + [more[n]];
    }
  }

  /** From every state of every run a way on, without more output, leads to the peer's TLS
      machine having been fed the whole output and handled all its messages, with nothing
      left to send or in doubt, exactly when the output is within the bound on what
      a receiver buffers. */
  lemma LevelCanFinish(acts: seq<Action>)
    ensures (exists more :: Completes(acts, more)) <==> |Run(acts).output| <= 65536
  {
    hide Run, Complete, Silent;
    if |Run(acts).output| <= MAX_CRYPTO_BUFFER {
      var more := Finish(acts);
    }
    if exists more :: Completes(acts, more) {
      var more :| Completes(acts, more);
      SilentOutput(acts, more);
      FedIsBounded(acts + more);
    }
  }

  lemma FedIsBounded(acts: seq<Action>)
    requires Complete(Run(acts))
    ensures |Run(acts).output| <= MAX_CRYPTO_BUFFER
  {
    hide Run, Join, Handled, Messages, Kept, Heard;
    RunKeeps(acts);
    var s := Run(acts);
    assert |Join(s.fed)| == s.peer.readOffset;
    if |s.output| > 0 {
      ContiguousIsMaximalRun(s.peer.received, 0);
      assert Has(s.peer.received, |s.output| - 1);
    }
  }
}
