/**
 What each future of the socket answers, and what it does to the connection, after any run: in terms of
 what was accepted, acknowledged, delivered and handed out, and of the state a caller can ask for.
 */
module Answers {
  import opened Prelude
  import opened Tcp
  import opened Socket
  import opened SocketRuns
  import opened SocketGuarantees

  ghost predicate Reachable(w: World) {
    exists owner, rxCap, txCap :: Reaches(Init(owner, rxCap, txCap), w)
  }

  lemma ReachableInv(w: World)
    requires Reachable(w)
    ensures Inv(w)
  {
    var owner, rxCap, txCap :| Reaches(Init(owner, rxCap, txCap), w);
    ReachableIsSound(owner, rxCap, txCap, w);
  }

  function Answer(w: World, op: Op): Poll<Outcome>
    requires Honest(w.sock, op)
  {
    PollOp(w.sock, op, w.owner).reply
  }

  function Polled(w: World, op: Op): World
    requires Enabled(w, PollFuture(op))
  {
    Do(w, PollFuture(op))
  }

  // ---- Write --------------------------------------------------------------------------------

  // The octets were queued behind the others, and counted as accepted.
  predicate Queued(w: World, v: World, bytes: seq<Byte>) {
    && v.sock.tx.data == w.sock.tx.data + bytes && v.sock.tx.cap == w.sock.tx.cap
    && v.h.accepted == w.h.accepted + bytes
  }

  /**
   A write answers how many octets it queued: they are the first ones of its buffer, at least one, and all
   of them unless the ring is full afterwards. It counts exactly while the send half is open and there is
   room for something to write; it reports a reset exactly when the send half is closed; and otherwise it
   is pending and queues nothing.
   */
  lemma WriteCountsWhatItQueues(w: World, bytes: seq<Byte>)
    requires Enabled(w, PollFuture(Write(bytes)))
    ensures var a, v := Answer(w, Write(bytes)), Polled(w, Write(bytes));
            && (a.Ready? && a.value.Count? <==> w.sock.MaySend() && bytes != [] && !w.sock.tx.Full())
            && (a == Poll.Ready(ConnReset) <==> !w.sock.MaySend())
            && (a.Pending? <==> w.sock.MaySend() && (bytes == [] || w.sock.tx.Full()))
            && (a.Ready? && a.value.Count? ==>
                 var n := a.value.count;
                 0 < n <= |bytes| && Queued(w, v, bytes[..n]) && (n == |bytes| || v.sock.tx.Full()))
            && (!(a.Ready? && a.value.Count?) ==> Queued(w, v, []))
  {
    assert bytes[..|bytes|] == bytes && bytes[..0] == [];
    assert w.h.accepted + [] == w.h.accepted && w.sock.tx.data + [] == w.sock.tx.data;
  }

  /**
   So does `write_with`: it calls its closure exactly while the send half is open and the ring has room,
   and answers the number of octets the closure put, all of which it queued.
   */
  lemma WriteWithCountsWhatItQueues(w: World, put: nat -> seq<Byte>)
    requires Enabled(w, PollFuture(WriteWith(put)))
    ensures var a, v := Answer(w, WriteWith(put)), Polled(w, WriteWith(put));
            && (a.Ready? && a.value.Count? <==> w.sock.MaySend() && !w.sock.tx.Full())
            && (a == Poll.Ready(ConnReset) <==> !w.sock.MaySend())
            && (a.Pending? <==> w.sock.MaySend() && w.sock.tx.Full())
            && (a.Ready? && a.value.Count? ==>
                 var bytes := put(Back(w.sock.tx));
                 a.value.count == |bytes| && Queued(w, v, bytes))
            && (!(a.Ready? && a.value.Count?) ==> Queued(w, v, []))
  {
    assert w.h.accepted + [] == w.h.accepted && w.sock.tx.data + [] == w.sock.tx.data;
  }

  // ---- Read ---------------------------------------------------------------------------------

  function Unread(h: History): seq<Byte>
    requires |h.handed| <= |h.delivered|
  {
    h.delivered[|h.handed|..]
  }

  lemma UnreadIsQueued(w: World)
    requires Inv(w)
    ensures |w.h.handed| <= |w.h.delivered| && (!w.h.expired ==> Unread(w.h) == w.sock.rx.data)
  {
  }

  // The octets were handed out, and are gone from the ring.
  predicate Handed(w: World, v: World, bytes: seq<Byte>) {
    && v.h.handed == w.h.handed + bytes && v.h.delivered == w.h.delivered
    && w.sock.rx.data == bytes + v.sock.rx.data && v.sock.rx.cap == w.sock.rx.cap
  }

  /**
   A read keeps to its buffer and to the order of the stream: what it answers is the next octets that were
   delivered and not yet read, as many as there are and fit, and exactly those are gone afterwards. A read
   that answers anything else hands out nothing; and a read into no buffer always answers and changes
   nothing, whether it answers no octets or a reset.
   */
  lemma ReadKeepsToItsBuffer(w: World, size: nat)
    requires Reachable(w) && Enabled(w, PollFuture(Read(size)))
    ensures |w.h.handed| <= |w.h.delivered|
    ensures var a, v := Answer(w, Read(size)), Polled(w, Read(size));
            && (a.Ready? && a.value.Bytes? ==>
                 var n := Min(size, |w.h.delivered| - |w.h.handed|);
                 && !w.h.expired && a.value.bytes == Unread(w.h)[..n] && |a.value.bytes| <= size
                 && Handed(w, v, a.value.bytes))
            && (!(a.Ready? && a.value.Bytes?) ==> Handed(w, v, []))
            && (size == 0 ==> a in {Poll.Ready(Bytes([])), Poll.Ready(ConnReset)} && v.sock.rx.data == w.sock.rx.data)
            && (size == 0 ==> (a == Poll.Ready(ConnReset) <==>
                 (!w.h.peerFin || w.h.expired) && w.sock.rx.data == [] && !w.sock.Receiving()))
  {
    ReachableInv(w);
    UnreadIsQueued(w);
    ReadAnswers(w, size);
    ReadHandsOver(w, size);
  }

  // What a poll of a read makes of the ring.
  lemma ReadTakes(s: Sock, size: nat, t: Task)
    requires s.Inv()
    ensures var p := PollOp(s, Read(size), t);
            && (p.reply.Ready? && p.reply.value.Bytes? ==>
                 var n := Min(size, |s.rx.data|);
                 p.reply.value.bytes == s.rx.data[..n] && p.sock.rx.data == s.rx.data[n..])
            && (!(p.reply.Ready? && p.reply.value.Bytes?) ==> p.sock.rx == s.rx)
            && p.sock.rx.cap == s.rx.cap
  {
  }

  lemma ReadHands(w: World, op: Op)
    requires Enabled(w, PollFuture(op))
    ensures var a, v := Answer(w, op), Polled(w, op);
            && v.sock == PollOp(w.sock, op, w.owner).sock && v.h.delivered == w.h.delivered
            && (a.Ready? && a.value.Bytes? ==> v.h.handed == w.h.handed + a.value.bytes)
            && (!(a.Ready? && a.value.Bytes?) ==> v.h.handed == w.h.handed + [])
  {
  }

  lemma ReadAnswers(w: World, size: nat)
    requires Inv(w)
    ensures var a := Answer(w, Read(size));
            && (a.Ready? && a.value.Bytes? ==> !w.h.expired)
            && (size == 0 ==> a in {Poll.Ready(Bytes([])), Poll.Ready(ConnReset)})
            && (size == 0 ==> (a == Poll.Ready(ConnReset) <==>
                 (!w.h.peerFin || w.h.expired) && w.sock.rx.data == [] && !w.sock.Receiving()))
  {
  }

  lemma ReadHandsOver(w: World, size: nat)
    requires w.sock.Inv() && Enabled(w, PollFuture(Read(size)))
    ensures var a, v := Answer(w, Read(size)), Polled(w, Read(size));
            && (a.Ready? && a.value.Bytes? ==>
                 a.value.bytes == w.sock.rx.data[..Min(size, |w.sock.rx.data|)] && Handed(w, v, a.value.bytes))
            && (!(a.Ready? && a.value.Bytes?) ==> Handed(w, v, []))
  {
    ReadTakes(w.sock, size, w.owner);
    ReadHands(w, Read(size));
  }

  /**
   `read_with` shows its closure the next octets that were delivered and not yet read, at least one,
   exactly while there are any; it answers as many of them as the closure took, and leaves the rest.
   */
  lemma ReadWithLeavesTheRest(w: World, take: seq<Byte> -> nat)
    requires Reachable(w) && Enabled(w, PollFuture(ReadWith(take)))
    ensures |w.h.handed| <= |w.h.delivered|
    ensures var a, v, window := Answer(w, ReadWith(take)), Polled(w, ReadWith(take)), Shown(w.sock);
            && (a.Ready? && a.value.Bytes? <==> w.h.handed != w.h.delivered && !w.h.expired)
            && (a.Pending? <==> w.sock.rx.data == [] && w.sock.Receiving())
            && (a == Poll.Ready(ConnReset) <==> w.sock.rx.data == [] && !w.sock.Receiving())
            && (a.Ready? && a.value.Bytes? ==>
                 && window != [] && window <= Unread(w.h)
                 && a.value.bytes == window[..take(window)] && Handed(w, v, a.value.bytes))
            && (!(a.Ready? && a.value.Bytes?) ==> Handed(w, v, []))
  {
    ReachableInv(w);
    UnreadIsQueued(w);
    ClosuresSeeAWindow(w.sock);
    ReadWithAt(w, take);
    assert w.h.handed + [] == w.h.handed;
  }

  lemma ReadWithTakes(s: Sock, take: seq<Byte> -> nat, t: Task)
    requires s.Inv() && Honest(s, ReadWith(take))
    ensures var p, window := PollOp(s, ReadWith(take), t), Shown(s);
            && (p.reply.Ready? && p.reply.value.Bytes? <==> s.rx.data != [])
            && (p.reply.Pending? <==> s.rx.data == [] && s.Receiving())
            && (p.reply == Poll.Ready(ConnReset) <==> s.rx.data == [] && !s.Receiving())
            && (p.reply.Ready? && p.reply.value.Bytes? ==>
                 p.reply.value.bytes == window[..take(window)] && p.sock.rx.data == s.rx.data[take(window)..])
            && (!(p.reply.Ready? && p.reply.value.Bytes?) ==> p.sock.rx == s.rx)
            && p.sock.rx.cap == s.rx.cap
  {
  }

  lemma ReadWithAt(w: World, take: seq<Byte> -> nat)
    requires Inv(w) && Enabled(w, PollFuture(ReadWith(take)))
    ensures var a, v, window := Answer(w, ReadWith(take)), Polled(w, ReadWith(take)), Shown(w.sock);
            && (a.Ready? && a.value.Bytes? <==> w.sock.rx.data != [])
            && (a.Pending? <==> w.sock.rx.data == [] && w.sock.Receiving())
            && (a == Poll.Ready(ConnReset) <==> w.sock.rx.data == [] && !w.sock.Receiving())
            && (a.Ready? && a.value.Bytes? ==>
                 a.value.bytes == window[..take(window)] && Handed(w, v, a.value.bytes))
            && (!(a.Ready? && a.value.Bytes?) ==> Handed(w, v, []))
  {
    ReadWithTakes(w.sock, take, w.owner);
    ReadHands(w, ReadWith(take));
  }

  // ---- Flush --------------------------------------------------------------------------------

  /**
   Flush answers Ok exactly when there is nothing left to wait for: off CLOSED, when every octet accepted
   was acknowledged and so was our FIN if we closed; on CLOSED, when no RST is owed. Otherwise it is
   pending.
   */
  lemma FlushIsExact(w: World)
    requires Reachable(w)
    ensures Answer(w, Flush) == if NothingOutstanding(w) then Poll.Ready(Unit) else Pending
  {
    ReachableInv(w);
    FlushAnswers(w);
  }

  predicate NothingOutstanding(w: World) {
    if w.sock.state == Closed then w.sock.remote == None
    else w.h.accepted == w.h.acked && (w.h.localClose ==> w.h.finAcked)
  }

  lemma FlushAnswers(w: World)
    requires Inv(w)
    ensures Answer(w, Flush) == if NothingOutstanding(w) then Poll.Ready(Unit) else Pending
  {
    assert |w.h.accepted| == |w.h.acked| + |w.sock.tx.data| && w.h.acked + [] == w.h.acked;
  }

  lemma WrittenStep(w: World)
    requires On(w, true, LIVE)
    ensures Enabled(w, PollFuture(Write([7])))
    ensures var v := Polled(w, Write([7]));
            v.h.accepted == [7] && v.h.acked == [] && v.sock.state == Established && v.sock.tx.data == [7]
  {
  }

  lemma AckedStep(w: World)
    requires w.h.accepted == [7] && w.h.acked == [] && w.sock.state == Established && w.sock.tx.data == [7]
    ensures Answer(w, Flush).Pending? && Enabled(w, Segment(Ack(1)))
    ensures var v := Do(w, Segment(Ack(1)));
            v.h.accepted == v.h.acked == [7] && v.sock.state == Established && Answer(v, Flush) == Poll.Ready(Unit)
  {
  }

  /** It does answer: an octet is written, flush waits, the octet is acknowledged, flush answers Ok. */
  lemma FlushCanAnswer() returns (before: World, w: World)
    ensures Reaches(START, before) && before.h.accepted == [7] && Answer(before, Flush).Pending?
    ensures Reaches(START, w) && Enabled(before, Segment(Ack(1))) && w == Do(before, Segment(Ack(1)))
    ensures w.h.accepted == w.h.acked == [7] && w.sock.state == Established && Answer(w, Flush) == Poll.Ready(Unit)
  {
    var live := Connected();
    WrittenStep(live);
    ReachesNext(START, live, PollFuture(Write([7])));
    before := Polled(live, Write([7]));
    AckedStep(before);
    ReachesNext(START, before, Segment(Ack(1)));
    w := Do(before, Segment(Ack(1)));
  }

  // ---- The readiness waits ------------------------------------------------------------------

  /** `wait_read_ready` answers exactly while there is something to read, `wait_write_ready` while there is room. */
  lemma ReadyWaitsAreExact(w: World)
    requires Reachable(w)
    ensures Answer(w, ReadReady) ==
            if w.h.handed != w.h.delivered && !w.h.expired then Poll.Ready(Unit) else Pending
    ensures Answer(w, WriteReady) ==
            if w.sock.MaySend() && |w.sock.tx.data| < w.sock.tx.cap then Poll.Ready(Unit) else Pending
  {
    ReachableInv(w);
    assert w.h.handed + [] == w.h.handed;
  }

  // ---- Connect and accept -------------------------------------------------------------------

  /**
   Connect waits exactly for the handshake it started, and then answers once and for all: Ok while the
   socket is open, a reset when it is not. Before a local close, on a socket that does not listen, Ok
   means that octets can be sent, and a reset that the connection was cut off.
   */
  lemma ConnectIsExact(w: World)
    requires Reachable(w)
    ensures var a := Answer(w, Connect);
            && (a.Pending? <==> w.sock.state == SynSent || w.sock.state == SynReceived)
            && (a == Poll.Ready(Unreachable) <==> w.sock.state == Listen)
            && (a == Poll.Ready(ConnReset) <==> !w.sock.IsOpen())
            && (a == Poll.Ready(Unit) <==> w.sock.IsOpen() && !w.sock.Handshaking())
            && (w.h.begun && !w.h.localClose ==>
                 && (a == Poll.Ready(Unit) <==> w.sock.MaySend())
                 && (a == Poll.Ready(ConnReset) <==> w.h.cut))
  {
    ReachableInv(w);
  }

  /** Accept waits exactly for the handshake, and answers nothing but Ok. */
  lemma AcceptIsExact(w: World)
    requires Reachable(w)
    ensures Answer(w, Accept) == if w.sock.Handshaking() then Pending else Poll.Ready(Unit)
    ensures w.h.begun && !w.h.localClose && Answer(w, Accept) == Poll.Ready(Unit) ==>
              (w.sock.MaySend() <==> !w.h.cut)
  {
    ReachableInv(w);
  }

  // ---- What a poll leaves alone -------------------------------------------------------------

  /**
   A poll that is pending does nothing but leave the owner's waker in one slot, the receive slot for the
   three reads and the send slot for all else; a poll that answers leaves both slots as they were. No
   poll changes the state, the endpoints or the FIN mark, only reads touch the receive ring, and only
   writes the send ring.
   */
  lemma PollsKeepToThemselves(w: World, op: Op)
    requires Enabled(w, PollFuture(op))
    ensures var a, v := Answer(w, op), Polled(w, op);
            && (a.Pending? && (op.Read? || op.ReadReady? || op.ReadWith?) ==>
                 v.sock == w.sock.(rxWaker := Some(w.owner)))
            && (a.Pending? && !(op.Read? || op.ReadReady? || op.ReadWith?) ==>
                 v.sock == w.sock.(txWaker := Some(w.owner)))
            && (a.Pending? ==> v.parked == w.parked + [op])
            && (a.Ready? ==> v.sock == w.sock.(rx := v.sock.rx, tx := v.sock.tx) && v.parked == w.parked)
            && (a.Ready? && !op.Read? && !op.ReadWith? ==> v.sock.rx == w.sock.rx)
            && (a.Ready? && !op.Write? && !op.WriteWith? ==> v.sock.tx == w.sock.tx)
  {
  }

  // ---- Calls --------------------------------------------------------------------------------

  /**
   `close` closes the send half only: nothing more can be written and no handshake goes on, what was
   queued is still to be sent, what is queued can still be read, and on a connection a FIN of ours is owed.
   */
  lemma CloseClosesOneHalf(w: World)
    requires Reachable(w) && Enabled(w, CloseCall)
    ensures var v := Do(w, CloseCall);
            && v.h.localClose && !v.sock.MaySend() && !v.sock.Handshaking()
            && v.sock.tx == w.sock.tx && v.sock.rx == w.sock.rx && v.sock.remote == w.sock.remote
            && (v.sock.FinOutstanding() <==>
                 w.sock.MaySend() || w.sock.state == SynReceived || w.sock.FinOutstanding())
            && (w.sock.state == Established ==> v.sock.Receiving())
  {
    ReachableInv(w);
  }

  /** `abort` closes both halves at once, wakes whoever waits, and owes a RST exactly to a known peer. */
  lemma AbortClosesBothHalves(w: World)
    requires Reachable(w) && Enabled(w, AbortCall)
    ensures var v := Do(w, AbortCall);
            && v.h.localClose && v.sock.state == Closed && v.sock.Holders() == {}
            && (w.owner in w.sock.Holders() ==> v.pending)
            && (Answer(v, Flush).Pending? <==> w.sock.remote.Some?)
  {
  }
}
