/** What every run of a socket and its owner guarantees. */
module SocketGuarantees {
  import opened Prelude
  import opened Tcp
  import opened Socket
  import opened SocketRuns

  // ---- Wakeups ------------------------------------------------------------------------------

  /**
   No lost wakeup: after any run, a future that last answered Pending either has its task woken, or
   still has nothing to answer and its waker sits in the slot that the event it waits for will wake.
   */
  lemma NoLostWakeup(owner: Task, rxCap: nat, txCap: nat, ls: seq<Label>)
    requires Legal(Init(owner, rxCap, txCap), ls)
    ensures var w := Final(Init(owner, rxCap, txCap), ls);
            forall op :: op in w.parked && !w.pending ==>
              && Blocked(w.sock, op)
              && HeldBy(w.sock, SlotOf(op)) == Some(owner)
  {
    var start := Init(owner, rxCap, txCap);
    InitIsSound(owner, rxCap, txCap);
    RunKeepsInv(start, ls);
    OwnerStays(start, ls);
    var w := Final(start, ls);
    forall op | op in w.parked && !w.pending
      ensures Blocked(w.sock, op) && HeldBy(w.sock, SlotOf(op)) == Some(owner)
    {
      var i :| 0 <= i < |w.parked| && w.parked[i] == op;
      assert Safe(w, w.parked[i]);
    }
  }

  lemma {:induction false} OwnerStays(w: World, ls: seq<Label>)
    requires Legal(w, ls)
    ensures Final(w, ls).owner == w.owner
    decreases |ls|
  {
    if ls != [] {
      assert Do(w, ls[0]).owner == w.owner;
      OwnerStays(Do(w, ls[0]), ls[1..]);
    }
  }

  /** The event that ends the wait is the one that wakes: it never takes a second event. */
  lemma UnblockingWakes(owner: Task, rxCap: nat, txCap: nat, ls: seq<Label>, n: NetStep, op: Op)
    requires Legal(Init(owner, rxCap, txCap), ls)
    requires var w := Final(Init(owner, rxCap, txCap), ls);
             op in w.parked && NetEnabled(w.sock, n) && !Blocked(Net(w.sock, n).sock, op)
    ensures Do(Final(Init(owner, rxCap, txCap), ls), Segment(n)).pending
  {
    InitIsSound(owner, rxCap, txCap);
    RunKeepsInv(Init(owner, rxCap, txCap), ls);
    var w := Final(Init(owner, rxCap, txCap), ls);
    var i :| 0 <= i < |w.parked| && w.parked[i] == op;
    assert Safe(w, w.parked[i]);
    NetKeepsWaiting(w.sock, n, w.owner);
  }

  // ---- The octets ---------------------------------------------------------------------------

  /**
   Nothing is repeated, reordered or made up on either side of a socket: over every run, what the writer
   was told was accepted is what the peer acknowledged followed by the send queue, and what the network
   delivered is what readers were given followed by the receive queue, exactly unless TIME-WAIT ran out
   over octets nobody had read.
   */
  lemma BytesAreConserved(owner: Task, rxCap: nat, txCap: nat, ls: seq<Label>)
    requires Legal(Init(owner, rxCap, txCap), ls)
    ensures var w := Final(Init(owner, rxCap, txCap), ls);
            && w.h.accepted == w.h.acked + w.sock.tx.data
            && w.h.handed <= w.h.delivered
            && (w.h.delivered == w.h.handed + w.sock.rx.data <==> !w.h.expired || w.h.handed == w.h.delivered)
            && |w.sock.rx.data| <= w.sock.rx.cap && |w.sock.tx.data| <= w.sock.tx.cap
  {
    InitIsSound(owner, rxCap, txCap);
    RunKeepsInv(Init(owner, rxCap, txCap), ls);
    var w := Final(Init(owner, rxCap, txCap), ls);
    assert w.h.handed + [] == w.h.handed;
  }

  // One octet arrives, and both ends close.
  lemma ReceiveStep(w: World)
    requires On(w, true, LIVE)
    ensures Enabled(w, Segment(Data([7]))) && Enabled(Do(w, Segment(Data([7]))), CloseCall)
    ensures var v := Do(Do(w, Segment(Data([7]))), CloseCall);
            v.h.delivered == [7] && v.h.handed == [] && v.sock.state == FinWait1 && v.sock.tx.data == []
  {
  }

  lemma CloseStep(w: World)
    requires w.h.delivered == [7] && w.h.handed == [] && w.sock.state == FinWait1 && w.sock.tx.data == []
    ensures Enabled(w, Segment(FinAcked)) && Enabled(Do(w, Segment(FinAcked)), Segment(PeerFin))
    ensures var v := Do(Do(w, Segment(FinAcked)), Segment(PeerFin));
            v.h.delivered == [7] && v.h.handed == [] && v.sock.state == TimeWait && v.h.peerFin
  {
  }

  lemma ExpireStep(w: World)
    requires Inv(w) && w.sock.state == TimeWait && w.h.delivered == [7] && w.h.handed == []
    ensures Enabled(w, Segment(TimeWaitOver))
    ensures var v := Do(w, Segment(TimeWaitOver));
            && v.h.delivered == [7] && v.h.handed == [] && v.h.peerFin
            && PollOp(v.sock, Read(1), v.owner).reply == Poll.Ready(ConnReset)
  {
    TimeWaitForgetsTheEnd(w, 1);
  }

  /** Delivered octets can be lost: the end of TIME-WAIT empties the receive ring. */
  lemma UnreadCanBeLost() returns (w: World)
    ensures Reaches(START, w) && w.h.delivered == [7] && w.h.handed == [] && w.h.peerFin
    ensures PollOp(w.sock, Read(1), w.owner).reply == Poll.Ready(ConnReset)
  {
    w := BothClosed();
    ReachableIsSound(0, 4, 4, w);
    ExpireStep(w);
    ReachesNext(START, w, Segment(TimeWaitOver));
    w := Do(w, Segment(TimeWaitOver));
  }

  lemma BothClosed() returns (w: World)
    ensures Reaches(START, w) && w.h.delivered == [7] && w.h.handed == [] && w.sock.state == TimeWait
  {
    w := Connected();
    ReceiveStep(w);
    ReachesNext(START, w, Segment(Data([7])));
    w := Do(w, Segment(Data([7])));
    ReachesNext(START, w, CloseCall);
    w := Do(w, CloseCall);
    CloseStep(w);
    ReachesNext(START, w, Segment(FinAcked));
    w := Do(w, Segment(FinAcked));
    ReachesNext(START, w, Segment(PeerFin));
    w := Do(w, Segment(PeerFin));
  }

  lemma EofAt(w: World, size: nat)
    requires Inv(w) && size > 0
    ensures var reply := PollOp(w.sock, Read(size), w.owner).reply;
            && (reply == Poll.Ready(Bytes([])) <==>
                 w.h.peerFin && w.h.handed == w.h.delivered && !w.h.expired)
            && (reply == Poll.Ready(ConnReset) <==>
                 (!w.h.peerFin || w.h.expired) && w.sock.rx.data == [] && !w.sock.Receiving())
            && (reply == Pending <==> w.sock.rx.data == [] && w.sock.Receiving())
            && (reply == Pending ==> !w.h.peerFin)
  {
  }

  /**
   The answers of a read are exact: after any run, a read into a non-empty buffer answers no octets
   exactly when the peer's FIN was taken, every octet before it has been given out, and TIME-WAIT has
   not run out since. It reports a reset exactly when no FIN was taken (or TIME-WAIT has run out),
   nothing is queued and nothing more can arrive; and it is pending exactly while nothing is queued
   and the peer may still send.
   */
  lemma EofIsExact(owner: Task, rxCap: nat, txCap: nat, ls: seq<Label>, size: nat)
    requires Legal(Init(owner, rxCap, txCap), ls) && size > 0
    ensures var w := Final(Init(owner, rxCap, txCap), ls);
            var reply := PollOp(w.sock, Read(size), owner).reply;
            && (reply == Poll.Ready(Bytes([])) <==>
                 w.h.peerFin && w.h.handed == w.h.delivered && !w.h.expired)
            && (reply == Poll.Ready(ConnReset) <==>
                 (!w.h.peerFin || w.h.expired) && w.sock.rx.data == [] && !w.sock.Receiving())
            && (reply == Pending <==> w.sock.rx.data == [] && w.sock.Receiving())
            && (reply == Pending ==> !w.h.peerFin)
  {
    InitIsSound(owner, rxCap, txCap);
    RunKeepsInv(Init(owner, rxCap, txCap), ls);
    EofAt(Final(Init(owner, rxCap, txCap), ls), size);
    OwnerStays(Init(owner, rxCap, txCap), ls);
  }

  /** `read_with` does not tell the end from a reset: where `read` answers no octets, it fails. */
  lemma ReadWithHidesEof(s: Sock, size: nat, take: seq<Byte> -> nat, t: Task)
    requires s.Inv() && size > 0 && Honest(s, ReadWith(take))
    ensures PollOp(s, ReadWith(take), t).reply == Poll.Ready(ConnReset) <==>
            PollOp(s, Read(size), t).reply in {Poll.Ready(Bytes([])), Poll.Ready(ConnReset)}
  {
  }

  /** The end of TIME-WAIT forgets the end of the stream, and whatever was not yet read: a read then fails. */
  lemma TimeWaitForgetsTheEnd(w: World, size: nat)
    requires Inv(w) && w.sock.state == TimeWait && size > 0
    ensures var v := Do(w, Segment(TimeWaitOver));
            v.h.peerFin && PollOp(v.sock, Read(size), v.owner).reply == Poll.Ready(ConnReset)
  {
  }

  ghost predicate Reopens(l: Label) { l.ListenCall? || l.ConnectCall? }

  ghost predicate NoneReopens(ls: seq<Label>) { forall l :: l in ls ==> !Reopens(l) }

  /** EOF is final: until the socket is reopened, nothing is delivered after the peer's FIN. */
  lemma {:induction false} EofIsFinal(w: World, ls: seq<Label>)
    requires Inv(w) && w.h.peerFin && Legal(w, ls) && NoneReopens(ls)
    ensures Final(w, ls).h.delivered == w.h.delivered
    ensures Final(w, ls).h.peerFin
    decreases |ls|
  {
    if ls != [] {
      assert ls[0] in ls;
      StepKeepsInv(w, ls[0]);
      EofStep(w, ls[0]);
      EofIsFinal(Do(w, ls[0]), ls[1..]);
    }
  }

  lemma EofSegment(w: World, n: NetStep)
    requires Inv(w) && w.h.peerFin && NetEnabled(w.sock, n)
    ensures Observe(w.h, w.sock, n).delivered == w.h.delivered && Observe(w.h, w.sock, n).peerFin
  {
  }

  lemma EofStep(w: World, l: Label)
    requires Inv(w) && w.h.peerFin && Enabled(w, l) && !Reopens(l)
    ensures Do(w, l).h.delivered == w.h.delivered && Do(w, l).h.peerFin
  {
    if l.Segment? {
      EofSegment(w, l.n);
    }
  }

  // ---- The readiness waits ------------------------------------------------------------------

  // From any state of the handshake the connection can be made.
  lemma HandshakeCanEnd(s: Sock) returns (ns: seq<NetStep>)
    requires s.Handshaking()
    ensures NetLegal(s, ns)
    ensures NetFinal(s, ns).sock.state == Established
    ensures NetFinal(s, ns).sock.rx == s.rx && NetFinal(s, ns).sock.tx == s.tx
  {
    ns := [];
    if s.state == Listen {
      NetSnoc(s, ns, Syn(Endpoint(1, 1)));
      ns := ns + [Syn(Endpoint(1, 1))];
    }
    var last := if s.state == SynSent then SynAck else HandshakeDone;
    NetSnoc(s, ns, last);
    ns := ns + [last];
  }

  // A network run that leaves the future without an answer.
  ghost predicate StuckUnder(s: Sock, op: Op, ns: seq<NetStep>) {
    NetLegal(s, ns) ==> Blocked(NetFinal(s, ns).sock, op)
  }

  ghost predicate NeverReadable(s: Sock) {
    s.rx.cap == 0 || (s.rx.data == [] && !s.Receiving() && !s.Handshaking())
  }

  ghost predicate NeverWritable(s: Sock) { s.tx.cap == 0 || (!s.MaySend() && !s.Handshaking()) }

  lemma {:induction false} NeverIsStable(s: Sock, ns: seq<NetStep>)
    requires NetLegal(s, ns)
    ensures NeverReadable(s) ==> NeverReadable(NetFinal(s, ns).sock)
    ensures NeverWritable(s) ==> NeverWritable(NetFinal(s, ns).sock)
    decreases |ns|
  {
    if ns != [] {
      NeverIsStable(Net(s, ns[0]).sock, ns[1..]);
    }
  }

  /**
   `wait_read_ready` does not report the end: it waits for ever, whatever the network does, exactly
   when nothing is queued and nothing more can arrive (or the ring has no room at all). That is so in
   CLOSE-WAIT already, while our own side is open.
   */
  lemma ReadReadyMissesTheEnd(s: Sock)
    requires s.Inv()
    ensures (forall ns :: StuckUnder(s, ReadReady, ns)) <==> NeverReadable(s)
  {
    if NeverReadable(s) {
      forall ns ensures StuckUnder(s, ReadReady, ns) {
        if NetLegal(s, ns) {
          NeverIsStable(s, ns);
        }
      }
    } else if s.rx.data != [] {
      assert NetFinal(s, []).sock == s;
      assert !StuckUnder(s, ReadReady, []);
    } else {
      var ns := [];
      if s.Handshaking() {
        ns := HandshakeCanEnd(s);
      }
      NetSnoc(s, ns, Data([0]));
      assert !StuckUnder(s, ReadReady, ns + [Data([0])]);
    }
  }

  /**
   Nor does `wait_write_ready`: it waits for ever exactly when the send half is closed and no
   connection is being made, so also in FIN-WAIT after our own close.
   */
  lemma WriteReadyMissesTheEnd(s: Sock)
    requires s.Inv()
    ensures (forall ns :: StuckUnder(s, WriteReady, ns)) <==> NeverWritable(s)
  {
    if NeverWritable(s) {
      forall ns ensures StuckUnder(s, WriteReady, ns) {
        if NetLegal(s, ns) {
          NeverIsStable(s, ns);
        }
      }
    } else if s.Handshaking() {
      var ns := HandshakeCanEnd(s);
      assert !StuckUnder(s, WriteReady, ns);
    } else if s.tx.Full() {
      NetSnoc(s, [], Ack(1));
      assert !StuckUnder(s, WriteReady, [] + [Ack(1)]);
    } else {
      assert NetFinal(s, []).sock == s;
      assert !StuckUnder(s, WriteReady, []);
    }
  }

  // ---- Flush --------------------------------------------------------------------------------

  lemma FlushAt(w: World)
    requires Inv(w) && PollOp(w.sock, Flush, w.owner).reply.Ready?
    ensures w.h.accepted == w.h.acked <==> w.sock.state != Closed || w.sock.tx.data == []
    ensures w.sock.state != Closed ==>
              !w.sock.FinOutstanding() && (w.h.finAcked || w.sock.MaySend() || w.sock.Handshaking())
    ensures w.sock.state == Closed ==> w.sock.remote == None
  {
    assert w.h.acked + [] == w.h.acked;
    assert |w.h.accepted| == |w.h.acked| + |w.sock.tx.data|;
  }

  /**
   Flush is honest: when it answers, after any run, every octet accepted on the connection has been
   acknowledged exactly when the socket is not CLOSED or its send queue is empty. If it is not CLOSED
   and a FIN of ours went out, that was acknowledged too; if it is CLOSED, no RST is owed.
   */
  lemma FlushIsHonest(owner: Task, rxCap: nat, txCap: nat, ls: seq<Label>)
    requires Legal(Init(owner, rxCap, txCap), ls)
    ensures var w := Final(Init(owner, rxCap, txCap), ls);
            PollOp(w.sock, Flush, owner).reply.Ready? ==>
              && (w.h.accepted == w.h.acked <==> w.sock.state != Closed || w.sock.tx.data == [])
              && (w.sock.state != Closed ==>
                   !w.sock.FinOutstanding() && (w.h.finAcked || w.sock.MaySend() || w.sock.Handshaking()))
              && (w.sock.state == Closed ==> w.sock.remote == None)
  {
    InitIsSound(owner, rxCap, txCap);
    RunKeepsInv(Init(owner, rxCap, txCap), ls);
    OwnerStays(Init(owner, rxCap, txCap), ls);
    var w := Final(Init(owner, rxCap, txCap), ls);
    if PollOp(w.sock, Flush, owner).reply.Ready? {
      FlushAt(w);
    }
  }

  /** Octets can be lost under a successful flush: a reset closes the socket with them still queued. */
  lemma FlushCanFollowLoss() returns (w: World)
    ensures Reaches(START, w) && w.h.accepted == [7] && w.h.acked == []
    ensures PollOp(w.sock, Flush, w.owner).reply == Poll.Ready(Unit)
  {
    w := Connected();
    WriteStep(w);
    ReachesNext(START, w, PollFuture(Write([7])));
    w := Do(w, PollFuture(Write([7])));
    LossStep(w);
    ReachesNext(START, w, Segment(RstIn));
    w := Do(w, Segment(RstIn));
  }

  lemma WriteStep(w: World)
    requires On(w, true, LIVE)
    ensures Enabled(w, PollFuture(Write([7])))
    ensures var v := Do(w, PollFuture(Write([7])));
            v.h.accepted == [7] && v.h.acked == [] && v.sock.state == Established
  {
  }

  lemma LossStep(w: World)
    requires w.h.accepted == [7] && w.h.acked == [] && w.sock.state == Established
    ensures Enabled(w, Segment(RstIn))
    ensures var v := Do(w, Segment(RstIn));
            v.h.accepted == [7] && v.h.acked == [] && PollOp(v.sock, Flush, v.owner).reply == Poll.Ready(Unit)
  {
  }

  /** After an abort, flush does not answer before the RST has left (or the socket is reopened). */
  lemma FlushWaitsForTheRst(w: World, ls: seq<Label>)
    requires Inv(w) && Acting(w) && w.sock.remote.Some? && Legal(Do(w, AbortCall), ls) && NoneReopens(ls)
    ensures var v := Final(Do(w, AbortCall), ls);
            PollOp(v.sock, Flush, v.owner).reply.Ready? <==> Segment(RstOut) in ls
  {
    StepKeepsInv(w, AbortCall);
    RstIsOwed(Do(w, AbortCall), ls);
    RunKeepsInv(Do(w, AbortCall), ls);
  }

  lemma {:induction false} RstIsOwed(w: World, ls: seq<Label>)
    requires Inv(w) && w.sock.state == Closed && Legal(w, ls) && NoneReopens(ls)
    ensures Final(w, ls).sock.state == Closed
    ensures Final(w, ls).sock.remote.Some? <==> w.sock.remote.Some? && Segment(RstOut) !in ls
    decreases |ls|
  {
    if ls != [] {
      var l := ls[0];
      assert l in ls;
      assert Segment(RstOut) in ls <==> l == Segment(RstOut) || Segment(RstOut) in ls[1..];
      StepKeepsInv(w, l);
      ClosedStep(w, l);
      RstIsOwed(Do(w, l), ls[1..]);
    }
  }

  lemma ClosedStep(w: World, l: Label)
    requires Inv(w) && w.sock.state == Closed && Enabled(w, l) && !Reopens(l)
    ensures Do(w, l).sock.state == Closed
    ensures Do(w, l).sock.remote == if l == Segment(RstOut) then None else w.sock.remote
  {
    if l.PollFuture? {
      PollKeepsInv(w.sock, l.op, w.owner);
    }
  }

  // ---- Connect ------------------------------------------------------------------------------

  ghost predicate NeverListens(ls: seq<Label>) { forall l :: l in ls ==> !l.ListenCall? }

  /**
   On a handle that is never used to listen, the `unreachable!()` of `connect` is never reached, and
   a connect that succeeds without a local close has found ESTABLISHED or CLOSE-WAIT.
   */
  lemma ConnectIsSound(owner: Task, rxCap: nat, txCap: nat, ls: seq<Label>)
    requires Legal(Init(owner, rxCap, txCap), ls) && NeverListens(ls)
    ensures var w := Final(Init(owner, rxCap, txCap), ls);
            var reply := PollOp(w.sock, Connect, owner).reply;
            && reply != Poll.Ready(Unreachable)
            && (reply == Poll.Ready(Unit) && !w.h.localClose ==> w.sock.state in {Established, CloseWait})
            && (reply == Poll.Ready(ConnReset) <==> !w.sock.IsOpen())
  {
    var start := Init(owner, rxCap, txCap);
    InitIsSound(owner, rxCap, txCap);
    RunKeepsInv(start, ls);
    StaysActive(start, ls);
  }

  lemma {:induction false} StaysActive(w: World, ls: seq<Label>)
    requires Inv(w) && w.sock.listenPort == 0 && Legal(w, ls) && NeverListens(ls)
    ensures Final(w, ls).sock.listenPort == 0
    decreases |ls|
  {
    if ls != [] {
      assert ls[0] in ls;
      StepKeepsInv(w, ls[0]);
      StepStaysActive(w, ls[0]);
      StaysActive(Do(w, ls[0]), ls[1..]);
    }
  }

  lemma StepStaysActive(w: World, l: Label)
    requires Inv(w) && w.sock.listenPort == 0 && Enabled(w, l) && !l.ListenCall?
    ensures Do(w, l).sock.listenPort == 0
  {
    if l.PollFuture? {
      PollKeepsListenPort(w.sock, l.op, w.owner);
    }
  }

  // ---- Accept -------------------------------------------------------------------------------

  /**
   After any run, `accept` answers Ok exactly when no handshake is under way. Before a local close it
   has then found a connection exactly when the socket is not CLOSED, that is, unless the connection
   was cut off in the meantime; the caller can see which from `state()`.
   */
  lemma AcceptFindsConnection(owner: Task, rxCap: nat, txCap: nat, ls: seq<Label>)
    requires Legal(Init(owner, rxCap, txCap), ls)
    ensures var w := Final(Init(owner, rxCap, txCap), ls);
            && (PollOp(w.sock, Accept, owner).reply == Poll.Ready(Unit) <==> !w.sock.Handshaking())
            && (!w.sock.Handshaking() && w.h.begun && !w.h.localClose ==>
                 && w.sock.state in {Established, CloseWait, Closed}
                 && (w.sock.MaySend() <==> w.sock.state != Closed)
                 && (w.sock.state == Closed <==> w.h.cut))
  {
    InitIsSound(owner, rxCap, txCap);
    RunKeepsInv(Init(owner, rxCap, txCap), ls);
    OwnerStays(Init(owner, rxCap, txCap), ls);
  }
}
