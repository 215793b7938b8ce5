/**
 The life of the HTTP socket: accept, serve, then picoserve's `shutdown` or `abort`, and round again
 (`src/http.rs`, and the `picoserve_impl` of `src/socket.rs`). One step is one lock section, one
 expiry of a timer, or one thing the network does.

 `discard_all_data` reads into a non-empty buffer until a read answers no octets; that, and what
 `serve` does before it tears the connection down, is picoserve's and is an assumption here.
 */
module Lifecycle {
  import opened Prelude
  import opened Tcp
  import opened Socket
  import opened SocketRuns
  import SocketGuarantees
  import Answers

  const HTTP_PORT: nat := 80

  datatype Ending =
    | ShutDown          // shutdown returned Ok
    | ReadTimedOut      // shutdown: the peer did not close in time
    | ReadFailed        // shutdown: the read half reported a reset
    | WriteTimedOut     // shutdown: the last flush did not finish in time
    | Aborted           // abort returned Ok
    | AbortTimedOut     // abort: the RST did not leave in time

  predicate TimedOut(e: Ending) { e == ReadTimedOut || e == WriteTimedOut }

  datatype Phase =
    | Start
    | Accepting
    | Serving
    | Discarding(txFlushed: bool)   // the `or` of reading to the end and flushing for ever
    | Flushing
    | Aborting
    | Finished(e: Ending)
    | Panicked                      // `accept(80).await.unwrap()`

  /** The read branch of the `or`: only it can complete. */
  function AfterDiscard(txFlushed: bool, reply: Poll<Outcome>): Phase {
    if reply.Pending? then Discarding(txFlushed)
    else if reply.value == Bytes([]) then Flushing
    else if reply.value.Bytes? then Discarding(txFlushed)
    else Finished(ReadFailed)
  }

  function AfterFlush(phase: Phase, reply: Poll<Outcome>, done: Ending): Phase {
    if reply.Pending? then phase else Finished(done)
  }

  datatype Http = Http(w: World, phase: Phase)

  datatype Act =
    | Network(n: NetStep)
    | Schedule(l: Label)            // the executor dispatches or suspends the task, or a timer wakes it
    | AcceptCall
    | AcceptPoll
    | Serve(op: Op)
    | ShutdownCall
    | DiscardPoll(size: nat)
    | TxFlushPoll
    | ReadTimer
    | FlushPoll
    | WriteTimer
    | AbortAct
    | AbortFlushPoll
    | AbortTimer

  predicate AtTop(p: Phase) { p.Start? || p.Finished? }

  ghost predicate CanAct(k: Http, a: Act) {
    match a
    case Network(n) => NetEnabled(k.w.sock, n)
    case Schedule(l) => (l.Dispatch? || l.Suspend? || l.OtherWake?) && Enabled(k.w, l)
    case AcceptCall => Acting(k.w) && AtTop(k.phase)
    case AcceptPoll => Acting(k.w) && k.phase.Accepting?
    case Serve(op) => Acting(k.w) && k.phase.Serving? && !op.Connect? && !op.Accept? && Honest(k.w.sock, op)
    case ShutdownCall => Acting(k.w) && k.phase.Serving?
    case DiscardPoll(size) => Acting(k.w) && k.phase.Discarding? && size > 0
    case TxFlushPoll => Acting(k.w) && k.phase == Discarding(false)
    case ReadTimer => k.phase.Discarding?
    case FlushPoll => Acting(k.w) && k.phase.Flushing?
    case WriteTimer => k.phase.Flushing?
    case AbortAct => Acting(k.w) && k.phase.Serving?
    case AbortFlushPoll => Acting(k.w) && k.phase.Aborting?
    case AbortTimer => k.phase.Aborting?
  }

  function Reply(w: World, op: Op): Poll<Outcome>
    requires Honest(w.sock, op)
  {
    PollOp(w.sock, op, w.owner).reply
  }

  function Perform(k: Http, a: Act): Http
    requires CanAct(k, a)
  {
    match a
    case Network(n) => k.(w := Do(k.w, Segment(n)))
    case Schedule(l) => k.(w := Do(k.w, l))
    case AcceptCall =>
      if ListenOn(k.w.sock, HTTP_PORT).Err? then k.(phase := Panicked)
      else Http(Do(k.w, ListenCall(HTTP_PORT)), Accepting)
    case AcceptPoll =>
      Http(PollStep(k.w, Accept), if Reply(k.w, Accept).Ready? then Serving else Accepting)
    case Serve(op) => k.(w := PollStep(k.w, op))
    case ShutdownCall => Http(Do(k.w, CloseCall), Discarding(false))
    case DiscardPoll(size) =>
      Http(PollStep(k.w, Read(size)), AfterDiscard(k.phase.txFlushed, Reply(k.w, Read(size))))
    case TxFlushPoll => Http(PollStep(k.w, Flush), Discarding(Reply(k.w, Flush).Ready?))
    case ReadTimer => k.(phase := Finished(ReadTimedOut))
    case FlushPoll => Http(PollStep(k.w, Flush), AfterFlush(Flushing, Reply(k.w, Flush), ShutDown))
    case WriteTimer => k.(phase := Finished(WriteTimedOut))
    case AbortAct => Http(Do(k.w, AbortCall), Aborting)
    case AbortFlushPoll => Http(PollStep(k.w, Flush), AfterFlush(Aborting, Reply(k.w, Flush), Aborted))
    case AbortTimer => k.(phase := Finished(AbortTimedOut))
  }

  ghost predicate Acts(k: Http, acts: seq<Act>)
    decreases |acts|
  {
    acts == [] || (CanAct(k, acts[0]) && Acts(Perform(k, acts[0]), acts[1..]))
  }

  ghost function After(k: Http, acts: seq<Act>): Http
    requires Acts(k, acts)
    decreases |acts|
  {
    if acts == [] then k else After(Perform(k, acts[0]), acts[1..])
  }

  // Our side is closed: nothing more can be written on this connection.
  ghost predicate HalfClosed(w: World) {
    w.h.begun && !w.sock.Handshaking() && !w.sock.MaySend()
  }

  // The peer's side is closed too, and everything it sent has been given out.
  ghost predicate ReadOut(w: World) {
    HalfClosed(w) && !w.sock.Receiving() && w.h.peerFin && w.h.handed == w.h.delivered
  }

  ghost predicate PhaseInv(w: World, p: Phase) {
    match p
    case Start => !w.h.begun
    case Accepting => w.h.begun && !w.h.localClose
    case Serving => w.h.begun && !w.sock.Handshaking()
    case Discarding(_) => HalfClosed(w)
    case Flushing => ReadOut(w)
    case Aborting => w.h.begun && w.sock.state == Closed
    case Finished(e) =>
      && !w.sock.Handshaking()
      && (!TimedOut(e) ==> !w.sock.IsOpen())
      && (e == ShutDown ==> ReadOut(w))
    case Panicked => true
  }

  ghost predicate HttpInv(k: Http) { Inv(k.w) && PhaseInv(k.w, k.phase) }

  // What a connection has behind it, no segment brings back.
  lemma SegmentKeepsHalfClosed(w: World, n: NetStep)
    requires Inv(w) && NetEnabled(w.sock, n) && HalfClosed(w)
    ensures HalfClosed(Do(w, Segment(n)))
  {
  }

  lemma SegmentKeepsState(w: World, n: NetStep)
    requires Inv(w) && NetEnabled(w.sock, n)
    ensures w.h.begun && !w.sock.Handshaking() ==> !Do(w, Segment(n)).sock.Handshaking()
    ensures !w.sock.IsOpen() ==> !Do(w, Segment(n)).sock.IsOpen()
    ensures w.sock.state == Closed ==> Do(w, Segment(n)).sock.state == Closed
  {
  }

  lemma ObservedCalls(h: History, s: Sock, n: NetStep)
    requires NetEnabled(s, n)
    ensures Observe(h, s, n).begun == h.begun && Observe(h, s, n).localClose == h.localClose
  {
  }

  lemma SegmentKeepsReadOut(w: World, n: NetStep)
    requires Inv(w) && NetEnabled(w.sock, n) && ReadOut(w)
    ensures ReadOut(Do(w, Segment(n)))
  {
  }

  lemma SegmentKeepsPhase(w: World, p: Phase, n: NetStep)
    requires Inv(w) && PhaseInv(w, p) && NetEnabled(w.sock, n)
    ensures PhaseInv(Do(w, Segment(n)), p)
  {
    SegmentKeepsState(w, n);
    ObservedCalls(w.h, w.sock, n);
    if p.Discarding? {
      SegmentKeepsHalfClosed(w, n);
    }
    if p == Flushing || p == Finished(ShutDown) {
      SegmentKeepsReadOut(w, n);
    }
  }

  // Polling changes nothing the phases speak of, save the octets given out.
  lemma PollKeepsPhase(w: World, op: Op)
    requires Inv(w) && Honest(w.sock, op)
    ensures var v := PollStep(w, op);
            && v.sock.state == w.sock.state && v.sock.fin == w.sock.fin && v.sock.remote == w.sock.remote
            && v.h.begun == w.h.begun && v.h.peerFin == w.h.peerFin && v.h.delivered == w.h.delivered
            && v.h.localClose == w.h.localClose
            && (!op.Read? && !op.ReadWith? ==> v.h.handed == w.h.handed)
  {
  }

  lemma DiscardKeepsInv(k: Http, size: nat)
    requires HttpInv(k) && CanAct(k, DiscardPoll(size))
    ensures HttpInv(Perform(k, DiscardPoll(size)))
  {
    StepKeepsInv(k.w, PollFuture(Read(size)));
    PollKeepsPhase(k.w, Read(size));
    if Reply(k.w, Read(size)) == Poll.Ready(Bytes([])) {
      assert k.w.h.handed + [] == k.w.h.handed;
    }
  }

  lemma FlushKeepsInv(k: Http, a: Act)
    requires HttpInv(k) && CanAct(k, a) && (a.TxFlushPoll? || a.FlushPoll? || a.AbortFlushPoll?)
    ensures HttpInv(Perform(k, a))
  {
    StepKeepsInv(k.w, PollFuture(Flush));
    PollKeepsPhase(k.w, Flush);
  }

  lemma ServeKeepsInv(k: Http, a: Act)
    requires HttpInv(k) && CanAct(k, a) && (a.AcceptPoll? || a.Serve?)
    ensures HttpInv(Perform(k, a))
  {
    var op := if a.AcceptPoll? then Accept else a.op;
    StepKeepsInv(k.w, PollFuture(op));
    PollKeepsPhase(k.w, op);
  }

  lemma AcceptCallKeepsInv(k: Http)
    requires HttpInv(k) && CanAct(k, AcceptCall)
    ensures HttpInv(Perform(k, AcceptCall))
  {
    StepKeepsInv(k.w, ListenCall(HTTP_PORT));
  }

  lemma ShutdownCallKeepsInv(k: Http)
    requires HttpInv(k) && CanAct(k, ShutdownCall)
    ensures HttpInv(Perform(k, ShutdownCall))
  {
    StepKeepsInv(k.w, CloseCall);
  }

  lemma AbortActKeepsInv(k: Http)
    requires HttpInv(k) && CanAct(k, AbortAct)
    ensures HttpInv(Perform(k, AbortAct))
  {
    StepKeepsInv(k.w, AbortCall);
  }

  lemma ActKeepsInv(k: Http, a: Act)
    requires HttpInv(k) && CanAct(k, a)
    ensures HttpInv(Perform(k, a))
  {
    match a
    case Network(n) =>
      StepKeepsInv(k.w, Segment(n));
      SegmentKeepsPhase(k.w, k.phase, n);
    case Schedule(l) => StepKeepsInv(k.w, l);
    case AcceptCall => AcceptCallKeepsInv(k);
    case ShutdownCall => ShutdownCallKeepsInv(k);
    case AbortAct => AbortActKeepsInv(k);
    case AcceptPoll | Serve(_) => ServeKeepsInv(k, a);
    case DiscardPoll(size) => DiscardKeepsInv(k, size);
    case TxFlushPoll | FlushPoll | AbortFlushPoll => FlushKeepsInv(k, a);
    case ReadTimer | WriteTimer | AbortTimer =>
  }

  lemma {:induction false} ActsKeepInv(k: Http, acts: seq<Act>)
    requires HttpInv(k) && Acts(k, acts)
    ensures HttpInv(After(k, acts))
    decreases |acts|
  {
    if acts != [] {
      ActKeepsInv(k, acts[0]);
      ActsKeepInv(Perform(k, acts[0]), acts[1..]);
    }
  }

  ghost predicate Gets(k: Http, v: Http) { exists acts :: Acts(k, acts) && After(k, acts) == v }

  lemma {:induction false} ActSnoc(k: Http, acts: seq<Act>, a: Act)
    requires Acts(k, acts) && CanAct(After(k, acts), a)
    ensures Acts(k, acts + [a]) && After(k, acts + [a]) == Perform(After(k, acts), a)
    decreases |acts|
  {
    if acts == [] {
      assert acts + [a] == [a];
      assert Acts(Perform(k, a), [a][1..]);
    } else {
      ActSnoc(Perform(k, acts[0]), acts[1..], a);
      assert (acts + [a])[1..] == acts[1..] + [a];
    }
  }

  lemma GetsNext(k: Http, v: Http, a: Act)
    requires Gets(k, v) && CanAct(v, a)
    ensures Gets(k, Perform(v, a))
  {
    var acts :| Acts(k, acts) && After(k, acts) == v;
    ActSnoc(k, acts, a);
  }

  lemma GetsItself(k: Http)
    ensures Gets(k, k)
  {
    assert Acts(k, []) && After(k, []) == k;
  }

  lemma {:induction false} GetsOn(k: Http, v: Http, acts: seq<Act>)
    requires Gets(k, v) && Acts(v, acts)
    ensures Gets(k, After(v, acts))
    decreases |acts|
  {
    if acts != [] {
      GetsNext(k, v, acts[0]);
      GetsOn(k, Perform(v, acts[0]), acts[1..]);
    }
  }

  function Boot(owner: Task, rxCap: nat, txCap: nat): Http { Http(Init(owner, rxCap, txCap), Start) }

  /** What the end of a connection leaves behind. */
  predicate EndsWell(k: Http) {
    k.phase.Finished? ==>
      && (!TimedOut(k.phase.e) ==> !k.w.sock.IsOpen() && ListenOn(k.w.sock, HTTP_PORT).Ok?)
      && (k.phase.e == ShutDown ==>
           && k.w.h.peerFin && k.w.h.handed == k.w.h.delivered
           && (k.w.h.finAcked <==> !k.w.h.cut))
  }

  /** When the next round panics. */
  ghost predicate PanicsInTurn(k: Http) {
    Acting(k.w) && AtTop(k.phase) ==>
      && (Perform(k, AcceptCall).phase.Panicked? <==> k.w.sock.IsOpen())
      && (k.w.sock.IsOpen() ==> k.phase.Finished? && TimedOut(k.phase.e))
  }

  lemma InvMeansPromises(k: Http)
    requires HttpInv(k)
    ensures EndsWell(k) && PanicsInTurn(k)
  {
    if Acting(k.w) && AtTop(k.phase) {
      PanicsWhenOpen(k);
    }
  }

  /**
   Shutdown closes: over every run, however the network interleaves, every ending other than a
   timeout of `shutdown` leaves the socket neither open nor able to reopen by itself. When `shutdown`
   answers Ok the peer's FIN was taken, everything before it was read, and our own FIN was
   acknowledged exactly unless the connection was cut off first.
   */
  lemma ShutdownCloses(owner: Task, rxCap: nat, txCap: nat, acts: seq<Act>)
    requires Acts(Boot(owner, rxCap, txCap), acts)
    ensures EndsWell(After(Boot(owner, rxCap, txCap), acts))
  {
    ActsKeepInv(Boot(owner, rxCap, txCap), acts);
    InvMeansPromises(After(Boot(owner, rxCap, txCap), acts));
  }

  /**
   The `unwrap` of `accept` panics exactly when the socket is still open at the top of the loop, and
   then the connection before it ended in a timeout of `shutdown`: in particular never on the first
   round, nor after an abort, timed out or not.
   */
  lemma AcceptPanicsOnlyAfterTimeout(owner: Task, rxCap: nat, txCap: nat, acts: seq<Act>)
    requires Acts(Boot(owner, rxCap, txCap), acts)
    ensures PanicsInTurn(After(Boot(owner, rxCap, txCap), acts))
  {
    ActsKeepInv(Boot(owner, rxCap, txCap), acts);
    InvMeansPromises(After(Boot(owner, rxCap, txCap), acts));
  }

  lemma PanicsWhenOpen(k: Http)
    requires HttpInv(k) && Acting(k.w) && AtTop(k.phase)
    ensures Perform(k, AcceptCall).phase.Panicked? <==> k.w.sock.IsOpen()
    ensures k.w.sock.IsOpen() ==> k.phase.Finished? && TimedOut(k.phase.e)
  {
  }

  // ---- Every step of every run --------------------------------------------------------------

  // The peer reset the connection, or it is over: nothing is queued, nothing more can arrive, and no FIN was seen.
  predicate ResetSeen(w: World) {
    w.sock.rx.data == [] && !w.sock.Receiving() && (!w.h.peerFin || w.h.expired)
  }

  // The peer has closed its side, and all that came before has been read.
  predicate EndSeen(w: World) { w.h.peerFin && w.h.handed == w.h.delivered && !w.h.expired }

  /** How each act moves the server on, in terms of what became of the connection. */
  ghost predicate MovesRight(k: Http, a: Act, after: Http)
    requires CanAct(k, a)
  {
    match a
    case Network(_) | Schedule(_) | Serve(_) => after.phase == k.phase
    case AcceptCall =>
      if k.w.sock.IsOpen() then after == k.(phase := Panicked)
      else after.phase == Accepting && after.w.sock.state == Listen && after.w.sock.listenPort == 80
    case AcceptPoll => after.phase == if k.w.sock.Handshaking() then Accepting else Serving
    case ShutdownCall => after.phase == Discarding(false) && !after.w.sock.MaySend() && after.w.sock.rx == k.w.sock.rx
    case DiscardPoll(_) =>
      after.phase == if EndSeen(k.w) then Flushing else if ResetSeen(k.w) then Finished(ReadFailed) else k.phase
    case TxFlushPoll => after.phase == Discarding(Answers.NothingOutstanding(k.w))
    case ReadTimer => after == k.(phase := Finished(ReadTimedOut))
    case FlushPoll => after.phase == if Answers.NothingOutstanding(k.w) then Finished(ShutDown) else Flushing
    case WriteTimer => after == k.(phase := Finished(WriteTimedOut))
    case AbortAct => after.phase == Aborting && after.w.sock.state == Closed
    case AbortFlushPoll => after.phase == if Answers.NothingOutstanding(k.w) then Finished(Aborted) else Aborting
    case AbortTimer => after == k.(phase := Finished(AbortTimedOut))
  }

  lemma DiscardMovesRight(k: Http, size: nat)
    requires HttpInv(k) && CanAct(k, DiscardPoll(size))
    ensures MovesRight(k, DiscardPoll(size), Perform(k, DiscardPoll(size)))
  {
    SocketGuarantees.EofAt(k.w, size);
  }

  lemma FlushMovesRight(k: Http, a: Act)
    requires HttpInv(k) && CanAct(k, a) && (a.TxFlushPoll? || a.FlushPoll? || a.AbortFlushPoll?)
    ensures MovesRight(k, a, Perform(k, a))
  {
    Answers.FlushAnswers(k.w);
  }

  lemma ActMovesRight(k: Http, a: Act)
    requires HttpInv(k) && CanAct(k, a)
    ensures MovesRight(k, a, Perform(k, a))
  {
    if a.DiscardPoll? {
      DiscardMovesRight(k, a.size);
    } else if a.TxFlushPoll? || a.FlushPoll? || a.AbortFlushPoll? {
      FlushMovesRight(k, a);
    } else {
      OtherMovesRight(k, a);
    }
  }

  lemma OtherMovesRight(k: Http, a: Act)
    requires HttpInv(k) && CanAct(k, a)
    requires !a.DiscardPoll? && !a.TxFlushPoll? && !a.FlushPoll? && !a.AbortFlushPoll?
    ensures MovesRight(k, a, Perform(k, a))
  {
  }

  /**
   Every step is the right one: over every run, each act leads on exactly as what became of the connection
   says. A timed-out ending follows a timer and nothing else; `shutdown` fails on its read exactly when a
   read of the discard finds the connection reset, goes on to the flush exactly at the end of the stream,
   and succeeds exactly when the last flush finds nothing outstanding.
   */
  lemma StepsAreRight(owner: Task, rxCap: nat, txCap: nat, acts: seq<Act>, a: Act)
    requires Acts(Boot(owner, rxCap, txCap), acts) && CanAct(After(Boot(owner, rxCap, txCap), acts), a)
    ensures var k := After(Boot(owner, rxCap, txCap), acts); MovesRight(k, a, Perform(k, a))
  {
    ActsKeepInv(Boot(owner, rxCap, txCap), acts);
    ActMovesRight(After(Boot(owner, rxCap, txCap), acts), a);
  }

  // Which act ends a connection so.
  predicate Ends(a: Act, e: Ending) {
    match e
    case ShutDown => a.FlushPoll?
    case ReadTimedOut => a.ReadTimer?
    case ReadFailed => a.DiscardPoll?
    case WriteTimedOut => a.WriteTimer?
    case Aborted => a.AbortFlushPoll?
    case AbortTimedOut => a.AbortTimer?
  }

  /** An error means what it says: each ending is reached by its own act, and only by that. */
  lemma EndingsAreExact(owner: Task, rxCap: nat, txCap: nat, acts: seq<Act>, a: Act)
    requires Acts(Boot(owner, rxCap, txCap), acts) && CanAct(After(Boot(owner, rxCap, txCap), acts), a)
    ensures var k := After(Boot(owner, rxCap, txCap), acts);
            var after := Perform(k, a);
            && (after.phase.Finished? && !k.phase.Finished? ==> Ends(a, after.phase.e))
            && (after.phase == Finished(ReadFailed) && !k.phase.Finished? ==> ResetSeen(k.w))
  {
    StepsAreRight(owner, rxCap, txCap, acts, a);
  }

  /**
   A connection is served only when there is one: over every run, when `accept` answers Ok the state is
   ESTABLISHED or CLOSE-WAIT and can be written to, or it is CLOSED and the connection was cut off
   before `accept` was polled again.
   */
  lemma ServesAConnection(owner: Task, rxCap: nat, txCap: nat, acts: seq<Act>)
    requires Acts(Boot(owner, rxCap, txCap), acts) && Accepts(After(Boot(owner, rxCap, txCap), acts))
    ensures var w := After(Boot(owner, rxCap, txCap), acts).w;
            && w.sock.state in {Established, CloseWait, Closed}
            && (w.sock.MaySend() <==> w.sock.state != Closed)
            && (w.sock.state == Closed <==> w.h.cut)
  {
    ActsKeepInv(Boot(owner, rxCap, txCap), acts);
    AcceptedAt(After(Boot(owner, rxCap, txCap), acts));
  }

  // The next poll of `accept` answers Ok.
  ghost predicate Accepts(k: Http) { CanAct(k, AcceptPoll) && Perform(k, AcceptPoll).phase == Serving }

  lemma AcceptedAt(k: Http)
    requires HttpInv(k) && Accepts(k)
    ensures k.w.sock.state in {Established, CloseWait, Closed}
    ensures k.w.sock.MaySend() <==> k.w.sock.state != Closed
    ensures k.w.sock.state == Closed <==> k.w.h.cut
  {
  }

  // ---- Three runs ---------------------------------------------------------------------------

  const BOOT: Http := Boot(1, 4, 4)

  predicate At(k: Http, phase: Phase, state: State) {
    && k.phase == phase && Acting(k.w) && k.w.owner == 1 && k.w.sock.state == state
    && k.w.h.begun && !k.w.h.finAcked && k.w.h.delivered == k.w.h.handed == []
    && k.w.sock.rx == k.w.sock.tx == Ring(4, 0, [])
    && (state != Closed ==> !k.w.h.cut && k.w.sock.listenPort == HTTP_PORT)
    && (state != Closed ==> (k.w.sock.fin <==> state in {CloseWait, LastAck}))
  }

  // The steps of the runs below, one at a time.

  const STARTED: Http := BOOT.(w := BOOT.w.(running := true, pending := false))

  lemma StartStep()
    ensures CanAct(BOOT, Schedule(Dispatch)) && Perform(BOOT, Schedule(Dispatch)) == STARTED
  {
  }

  lemma ListenStep()
    ensures CanAct(STARTED, AcceptCall) && At(Perform(STARTED, AcceptCall), Accepting, Listen)
  {
  }

  lemma NetworkStep(k: Http, n: NetStep, state: State)
    requires At(k, k.phase, k.w.sock.state) && k.phase != Panicked
    requires (k.w.sock.state, n, state) in {
               (Listen, Syn(Endpoint(1, 5000)), SynReceived), (SynReceived, HandshakeDone, Established),
               (SynReceived, GiveUp, Closed), (Established, PeerFin, CloseWait)}
    ensures NetEnabled(k.w.sock, n) && At(Perform(k, Network(n)), k.phase, state)
    ensures n == PeerFin ==> Perform(k, Network(n)).w.h.peerFin
  {
  }

  lemma AcceptStep(k: Http)
    requires At(k, Accepting, Established) || At(k, Accepting, Closed)
    ensures CanAct(k, AcceptPoll) && At(Perform(k, AcceptPoll), Serving, k.w.sock.state)
  {
  }

  lemma ShutdownStep(k: Http)
    requires At(k, Serving, Established) || At(k, Serving, CloseWait)
    ensures CanAct(k, ShutdownCall)
    ensures At(Perform(k, ShutdownCall), Discarding(false), if k.w.sock.state == CloseWait then LastAck else FinWait1)
  {
  }

  lemma DiscardStep(k: Http)
    requires At(k, Discarding(false), LastAck)
    ensures CanAct(k, DiscardPoll(1)) && At(Perform(k, DiscardPoll(1)), Flushing, LastAck)
  {
  }

  lemma ResetStep(k: Http)
    requires At(k, Flushing, LastAck)
    ensures CanAct(k, Network(RstIn)) && At(Perform(k, Network(RstIn)), Flushing, Closed)
    ensures Perform(k, Network(RstIn)).w.h.cut && Perform(k, Network(RstIn)).w.sock.remote == None
  {
  }

  lemma FlushStep(k: Http)
    requires At(k, Flushing, Closed) && k.w.h.cut && k.w.sock.remote == None
    ensures CanAct(k, FlushPoll)
    ensures var v := Perform(k, FlushPoll); v.phase == Finished(ShutDown) && !v.w.h.finAcked && v.w.h.cut
  {
  }

  // A client has begun to connect; the task has not polled `accept` yet.
  lemma HalfOpen() returns (k: Http)
    ensures Gets(BOOT, k) && At(k, Accepting, SynReceived)
  {
    GetsItself(BOOT);
    StartStep();
    GetsNext(BOOT, BOOT, Schedule(Dispatch));
    ListenStep();
    GetsNext(BOOT, STARTED, AcceptCall);
    k := Perform(STARTED, AcceptCall);
    NetworkStep(k, Syn(Endpoint(1, 5000)), SynReceived);
    GetsNext(BOOT, k, Network(Syn(Endpoint(1, 5000))));
    k := Perform(k, Network(Syn(Endpoint(1, 5000))));
  }

  lemma Served() returns (k: Http)
    ensures Gets(BOOT, k) && At(k, Serving, Established)
  {
    k := HalfOpen();
    NetworkStep(k, HandshakeDone, Established);
    GetsNext(BOOT, k, Network(HandshakeDone));
    k := Perform(k, Network(HandshakeDone));
    AcceptStep(k);
    GetsNext(BOOT, k, AcceptPoll);
    k := Perform(k, AcceptPoll);
  }

  /** `accept` can succeed without a connection: the handshake times out just before it is polled. */
  lemma AcceptCanFindClosed() returns (k: Http)
    ensures Gets(BOOT, k) && k.phase == Serving && k.w.sock.state == Closed
  {
    k := HalfOpen();
    NetworkStep(k, GiveUp, Closed);
    GetsNext(BOOT, k, Network(GiveUp));
    k := Perform(k, Network(GiveUp));
    AcceptStep(k);
    GetsNext(BOOT, k, AcceptPoll);
    k := Perform(k, AcceptPoll);
  }

  lemma PanicSteps(k: Http)
    requires At(k, Discarding(false), FinWait1)
    ensures CanAct(k, ReadTimer) && CanAct(Perform(k, ReadTimer), AcceptCall)
    ensures Perform(Perform(k, ReadTimer), AcceptCall).phase == Panicked
  {
  }

  /** The client keeps its side open for longer than `read_request`, and the next `accept` panics. */
  lemma AcceptCanPanic() returns (k: Http)
    ensures Gets(BOOT, k) && k.phase == Panicked
  {
    k := Served();
    ShutdownStep(k);
    GetsNext(BOOT, k, ShutdownCall);
    k := Perform(k, ShutdownCall);
    PanicSteps(k);
    GetsNext(BOOT, k, ReadTimer);
    k := Perform(k, ReadTimer);
    GetsNext(BOOT, k, AcceptCall);
    k := Perform(k, AcceptCall);
  }

  // The client has closed, and so have we; our FIN is on its way.
  lemma Closing() returns (k: Http)
    ensures Gets(BOOT, k) && At(k, Discarding(false), LastAck)
  {
    k := Served();
    NetworkStep(k, PeerFin, CloseWait);
    GetsNext(BOOT, k, Network(PeerFin));
    k := Perform(k, Network(PeerFin));
    ShutdownStep(k);
    GetsNext(BOOT, k, ShutdownCall);
    k := Perform(k, ShutdownCall);
  }

  /** Ok without our FIN being acknowledged: the peer resets the connection while we wait for it. */
  lemma ShutdownOkCanFollowReset() returns (k: Http)
    ensures Gets(BOOT, k) && k.phase == Finished(ShutDown) && !k.w.h.finAcked && k.w.h.cut
  {
    k := Closing();
    DiscardStep(k);
    GetsNext(BOOT, k, DiscardPoll(1));
    k := Perform(k, DiscardPoll(1));
    ResetStep(k);
    GetsNext(BOOT, k, Network(RstIn));
    k := Perform(k, Network(RstIn));
    FlushStep(k);
    GetsNext(BOOT, k, FlushPoll);
    k := Perform(k, FlushPoll);
  }

  // ---- The code -----------------------------------------------------------------------------

  lemma {:induction false} NetworkActs(k: Http, ns: seq<NetStep>) returns (acts: seq<Act>)
    requires NetLegal(k.w.sock, ns)
    ensures Acts(k, acts) && After(k, acts).w.sock == NetFinal(k.w.sock, ns).sock
    ensures After(k, acts) == k.(w := After(k, acts).w) && Acting(After(k, acts).w) == Acting(k.w)
    ensures After(k, acts).w.owner == k.w.owner && forall a :: a in acts ==> a.Network?
    decreases |ns|
  {
    if ns == [] {
      acts := [];
    } else {
      var rest := NetworkActs(Perform(k, Network(ns[0])), ns[1..]);
      acts := [Network(ns[0])] + rest;
      assert acts[1..] == rest;
    }
  }

  // What the task itself has done, as opposed to the network.
  function Own(acts: seq<Act>): nat {
    if acts == [] then 0
    else Own(acts[..|acts| - 1]) + if acts[|acts| - 1].Network? then 0 else 1
  }

  lemma {:induction false} OwnGrows(acts: seq<Act>, more: seq<Act>)
    ensures Own(acts) <= Own(acts + more)
    ensures (forall a :: a in more ==> a.Network?) ==> Own(acts + more) == Own(acts)
    decreases |more|
  {
    if more == [] {
      assert acts + more == acts;
    } else {
      var init := more[..|more| - 1];
      assert (acts + more)[..|acts + more| - 1] == acts + init;
      assert forall a :: a in init ==> a in more;
      OwnGrows(acts, init);
    }
  }

  lemma OneMore(acts: seq<Act>, a: Act)
    ensures Tally(acts + [a], a) == Tally(acts, a) + 1
    ensures Own(acts + [a]) == Own(acts) + if a.Network? then 0 else 1
    ensures forall b :: b != a ==> Tally(acts + [a], b) == Tally(acts, b)
  {
    assert (acts + [a])[..|acts|] == acts;
    forall b ensures Tally(acts + [a], b) == Tally(acts, b) + if a == b then 1 else 0 {
      TallySnoc(acts, b, a);
    }
  }

  /** `acts` is a run from `start` to `k`. Behind two more calls, so that naming a run does not unfold it. */
  ghost predicate Ran(start: Http, acts: seq<Act>, k: Http) { RanBehind(2, start, acts, k) }

  ghost predicate RanBehind(calls: nat, start: Http, acts: seq<Act>, k: Http) {
    if calls == 0 then Acts(start, acts) && After(start, acts) == k else RanBehind(calls - 1, start, acts, k)
  }

  lemma RanIs(start: Http, acts: seq<Act>, k: Http)
    ensures Ran(start, acts, k) <==> Acts(start, acts) && After(start, acts) == k
  {
    assert RanBehind(2, start, acts, k) == RanBehind(1, start, acts, k) == RanBehind(0, start, acts, k);
  }

  lemma RanNext(start: Http, acts: seq<Act>, k: Http, a: Act)
    requires Ran(start, acts, k) && CanAct(k, a)
    ensures Ran(start, acts + [a], Perform(k, a))
  {
    RanIs(start, acts, k);
    ActSnoc(start, acts, a);
    RanIs(start, acts + [a], Perform(k, a));
  }

  lemma {:induction false} RanOn(start: Http, acts: seq<Act>, k: Http, more: seq<Act>)
    requires Ran(start, acts, k) && Acts(k, more)
    ensures Ran(start, acts + more, After(k, more))
    decreases |more|
  {
    if more == [] {
      assert acts + more == acts;
    } else {
      RanNext(start, acts, k, more[0]);
      RanOn(start, acts + [more[0]], Perform(k, more[0]), more[1..]);
      assert acts + [more[0]] + more[1..] == acts + more;
    }
  }

  /**
   The task of `src/http.rs`: accept, serve, and picoserve's `shutdown` or `abort`, which are the state
   machines the compiler makes of them. `trace` is the run of the machine above that the code has made.
   */
  class HttpServer {
    const io: SocketInner
    const cx: Task
    var phase: Phase
    ghost const start: Http
    ghost var trace: seq<Act>
    ghost var w: World
    // How the last connection ended.
    ghost var last: Option<Ending>

    ghost function Machine(): Http
      reads this
    {
      Http(w, phase)
    }

    ghost predicate Valid()
      reads this, io.net, io.net.socket
    {
      && io.Ready() && w.sock == io.net.socket.View() && w.owner == cx && Acting(w)
      && HttpInv(Machine()) && Ran(start, trace, Machine())
      && (phase.Finished? ==> last == Some(phase.e))
      && (phase.Start? ==> last == None)
      && (phase.Panicked? ==> last.Some? && TimedOut(last.value))
    }

    /** The code did what the machine does in one act. */
    twostate predicate Did(a: Act)
      reads this
    {
      && old(CanAct(Machine(), a)) && Machine() == old(Perform(Machine(), a))
      && trace == old(trace) + [a]
    }

    constructor (io: SocketInner, cx: Task)
      requires io.Ready() && io.net.socket.View() == Init(cx, io.net.socket.rx.cap, io.net.socket.tx.cap).sock
      ensures Valid() && this.io == io && this.cx == cx && phase == Start
      ensures start == Perform(Boot(cx, io.net.socket.rx.cap, io.net.socket.tx.cap), Schedule(Dispatch)) && trace == []
    {
      this.io, this.cx := io, cx;
      phase, last, trace := Start, None, [];
      w := Init(cx, io.net.socket.rx.cap, io.net.socket.tx.cap).(running := true, pending := false);
      start := Http(Init(cx, io.net.socket.rx.cap, io.net.socket.tx.cap).(running := true, pending := false), Start);
      new;
      RanIs(start, [], start);
    }

    // Performs `a` on the machine; the socket has already done its part, and `phase` is still to follow.
    ghost method Follow(a: Act)
      requires CanAct(Machine(), a) && HttpInv(Machine()) && Ran(start, trace, Machine())
      modifies this`w, this`trace
      ensures w == Perform(old(Machine()), a).w && trace == old(trace) + [a]
      ensures HttpInv(Http(w, Perform(old(Machine()), a).phase))
      ensures Ran(start, trace, Http(w, Perform(old(Machine()), a).phase))
    {
      ActKeepsInv(Machine(), a);
      RanNext(start, trace, Machine(), a);
      trace := trace + [a];
      w := Perform(Machine(), a).w;
    }

    /** The network runs for as long as it likes. */
    method Elapse()
      requires Valid()
      modifies this`w, this`trace, io.net.socket
      ensures Valid() && old(trace) <= trace
      ensures Own(trace) == Own(old(trace)) && Tally(trace, AcceptCall) == Tally(old(trace), AcceptCall)
    {
      ghost var ns := io.net.socket.Interfere();
      ghost var acts := NetworkActs(Machine(), ns);
      NetRunKeepsInv(w.sock, ns);
      ActsKeepInv(Machine(), acts);
      RanOn(start, trace, Machine(), acts);
      OwnGrows(trace, acts);
      TallyWithout(trace, acts, AcceptCall);
      w := After(Machine(), acts).w;
      trace := trace + acts;
    }

    // `socket.accept(80).await.unwrap()`, up to its first await.
    method Accept()
      requires Valid() && AtTop(phase)
      modifies this, io.net, io.net.socket
      ensures Valid() && Did(AcceptCall) && last == old(last)
      ensures io.MutSection()
    {
      var listening := io.AcceptStart(HTTP_PORT);
      Follow(AcceptCall);
      phase := if listening.Ok? then Accepting else Panicked;
    }

    method PollAccept() returns (r: Poll<Outcome>)
      requires Valid() && phase.Accepting?
      modifies this, io.net, io.net.socket
      ensures Valid() && Did(AcceptPoll) && io.Polls(Socket.Accept, cx, r) && last == old(last)
      ensures phase == if r.Ready? then Serving else Accepting
    {
      r := io.PollAccept(cx);
      Follow(AcceptPoll);
      if r.Ready? {
        phase := Serving;
      }
    }

    // Whatever `serve` reads.
    method ServeRead(size: nat) returns (r: Poll<Outcome>)
      requires Valid() && phase.Serving?
      modifies this, io.net, io.net.socket
      ensures Valid() && Did(Serve(Read(size))) && io.Polls(Read(size), cx, r) && last == old(last)
    {
      r := io.PollRead(size, cx);
      Follow(Serve(Read(size)));
    }

    // Whatever `serve` writes.
    method ServeWrite(bytes: seq<Byte>) returns (r: Poll<Outcome>)
      requires Valid() && phase.Serving?
      modifies this, io.net, io.net.socket
      ensures Valid() && Did(Serve(Write(bytes))) && io.Polls(Write(bytes), cx, r) && last == old(last)
    {
      r := io.PollWrite(bytes, cx);
      Follow(Serve(Write(bytes)));
    }

    method StartShutdown()
      requires Valid() && phase.Serving?
      modifies this, io.net, io.net.socket
      ensures Valid() && Did(ShutdownCall) && io.MutSection() && phase == Discarding(false) && last == old(last)
      ensures io.net.socket.View() == Close(old(io.net.socket.View())).sock
    {
      io.Close();
      Follow(ShutdownCall);
      phase := Discarding(false);
    }

    method PollDiscard(size: nat) returns (r: Poll<Outcome>)
      requires Valid() && phase.Discarding? && size > 0
      modifies this, io.net, io.net.socket
      ensures Valid() && Did(DiscardPoll(size)) && io.Polls(Read(size), cx, r)
      ensures r == Prelude.Poll.Ready(Bytes([])) <==> phase == Flushing
      ensures r == Prelude.Poll.Ready(ConnReset) <==> phase == Finished(ReadFailed)
      ensures phase == Flushing || phase == Finished(ReadFailed) || phase == old(phase)
    {
      r := io.PollRead(size, cx);
      Follow(DiscardPoll(size));
      if r.Ready? {
        if r.value == Bytes([]) {
          phase := Flushing;
        } else if !r.value.Bytes? {
          Finish(ReadFailed);
        }
      }
    }

    // Flush the send half once, then wait for ever: this branch never completes the `or`.
    method PollTxFlush() returns (r: Poll<Outcome>)
      requires Valid() && phase == Discarding(false)
      modifies this, io.net, io.net.socket
      ensures Valid() && Did(TxFlushPoll) && io.Polls(Flush, cx, r) && last == old(last)
      ensures phase == Discarding(r.Ready?)
    {
      r := io.PollFlush(cx);
      Follow(TxFlushPoll);
      if r.Ready? {
        phase := Discarding(true);
      }
    }

    method PollFlush() returns (r: Poll<Outcome>)
      requires Valid() && phase in {Flushing, Aborting}
      modifies this, io.net, io.net.socket
      ensures Valid() && Did(if old(phase) == Flushing then FlushPoll else AbortFlushPoll) && io.Polls(Flush, cx, r)
      ensures r.Pending? ==> phase == old(phase)
      ensures r.Ready? ==> phase == Finished(if old(phase) == Flushing then ShutDown else Aborted)
    {
      r := io.PollFlush(cx);
      Follow(if phase == Flushing then FlushPoll else AbortFlushPoll);
      if r.Ready? {
        Finish(if phase == Flushing then ShutDown else Aborted);
      }
    }

    method TimerFires()
      requires Valid() && (phase.Discarding? || phase in {Flushing, Aborting})
      modifies this
      ensures Valid()
      ensures Did(if old(phase).Discarding? then ReadTimer
                  else if old(phase) == Flushing then WriteTimer else AbortTimer)
      ensures phase == Finished(if old(phase).Discarding? then ReadTimedOut
                                else if old(phase) == Flushing then WriteTimedOut else AbortTimedOut)
    {
      if phase.Discarding? {
        Follow(ReadTimer);
        Finish(ReadTimedOut);
      } else if phase == Flushing {
        Follow(WriteTimer);
        Finish(WriteTimedOut);
      } else {
        Follow(AbortTimer);
        Finish(AbortTimedOut);
      }
    }

    method StartAbort()
      requires Valid() && phase.Serving?
      modifies this, io.net, io.net.socket
      ensures Valid() && Did(AbortAct) && io.MutSection() && phase == Aborting && last == old(last)
      ensures io.net.socket.View() == Abort(old(io.net.socket.View())).sock
    {
      io.Abort();
      Follow(AbortAct);
      phase := Aborting;
    }

    method Finish(e: Ending)
      modifies this`phase, this`last
      ensures phase == Finished(e) && last == Some(e)
    {
      phase := Finished(e);
      last := Some(e);
    }

    // Progress of the code's own: the trace goes on, and at least `least` acts of it are the task's.
    twostate predicate GoesOn(least: nat)
      reads this
    {
      && old(trace) <= trace && Own(trace) >= Own(old(trace)) + least
      && Tally(trace, AcceptCall) == Tally(old(trace), AcceptCall)
    }

    /**
     `handle_connection` and the await of `accept` before it. `patience` bounds the polls of each await;
     where `serve` stops, which way it tears down, and when a timer fires are left open. The connection
     comes to an end, unless one of the awaits has used up its polls.
     */
    method HandleConnection(patience: nat)
      requires Valid() && phase.Accepting?
      modifies this, io.net, io.net.socket
      ensures Valid() && !phase.Panicked? && GoesOn(if phase.Finished? then 3 else patience)
    {
      AwaitAccept(patience);
      if phase.Accepting? {
        return;
      }
      ServeFor(patience);
      StopServing();
      TearDown(patience);
    }

    method StopServing()
      requires Valid() && phase.Serving?
      modifies this, io.net, io.net.socket
      ensures Valid() && (phase == Discarding(false) || phase == Aborting) && GoesOn(1)
    {
      var failed: bool := *;
      OneMore(trace, if failed then AbortAct else ShutdownCall);
      if failed {
        StartAbort();
      } else {
        StartShutdown();
      }
    }

    method AwaitAccept(patience: nat)
      requires Valid() && phase.Accepting?
      modifies this, io.net, io.net.socket
      ensures Valid() && (phase.Serving? || phase.Accepting?)
      ensures GoesOn(if phase.Serving? then 1 else patience)
    {
      var polls := 0;
      while polls < patience && phase.Accepting?
        invariant Valid() && polls <= patience && (phase.Accepting? || phase.Serving?)
        invariant old(trace) <= trace && Own(trace) >= Own(old(trace)) + polls
        invariant Tally(trace, AcceptCall) == Tally(old(trace), AcceptCall)
        invariant phase.Serving? ==> polls > 0
      {
        Elapse();
        OneMore(trace, AcceptPoll);
        var accepted := PollAccept();
        polls := polls + 1;
      }
    }

    // Something is read, or something is written.
    method ServeOnce()
      requires Valid() && phase.Serving?
      modifies this, io.net, io.net.socket
      ensures Valid() && phase.Serving? && GoesOn(1)
    {
      var reading: bool, size: nat, bytes: seq<Byte> := *, *, *;
      OneMore(trace, Serve(if reading then Read(size) else Write(bytes)));
      if reading {
        var got := ServeRead(size);
      } else {
        var put := ServeWrite(bytes);
      }
    }

    method ServeFor(patience: nat)
      requires Valid() && phase.Serving?
      modifies this, io.net, io.net.socket
      ensures Valid() && phase.Serving? && GoesOn(patience)
    {
      var polls := 0;
      while polls < patience
        invariant Valid() && phase.Serving? && polls <= patience
        invariant old(trace) <= trace && Own(trace) >= Own(old(trace)) + polls
        invariant Tally(trace, AcceptCall) == Tally(old(trace), AcceptCall)
      {
        Elapse();
        ServeOnce();
        polls := polls + 1;
      }
    }

    method ReadBranch()
      requires Valid() && phase.Discarding?
      modifies this, io.net, io.net.socket
      ensures Valid() && (phase.Discarding? || phase == Flushing || phase.Finished?) && GoesOn(1)
    {
      OneMore(trace, DiscardPoll(128));
      var got := PollDiscard(128);
    }

    method FlushBranch()
      requires Valid() && phase == Discarding(false)
      modifies this, io.net, io.net.socket
      ensures Valid() && phase.Discarding? && GoesOn(1)
    {
      Elapse();
      OneMore(trace, TxFlushPoll);
      var flushed := PollTxFlush();
    }

    // The `or` of the two branches: read, and flush the send half if that is still to do.
    method DiscardOnce()
      requires Valid() && phase.Discarding?
      modifies this, io.net, io.net.socket
      ensures Valid() && (phase.Discarding? || phase == Flushing || phase.Finished?) && GoesOn(1)
    {
      ReadBranch();
      if phase == Discarding(false) {
        FlushBranch();
      }
    }

    // One poll of what is left of `shutdown` or `abort`, or the end of its timer.
    method TearDownOnce()
      requires Valid() && (phase.Discarding? || phase in {Flushing, Aborting})
      modifies this, io.net, io.net.socket
      ensures Valid() && (phase.Discarding? || phase in {Flushing, Aborting} || phase.Finished?)
      ensures GoesOn(1)
    {
      var expired: bool := *;
      if expired {
        OneMore(trace, if phase.Discarding? then ReadTimer else if phase == Flushing then WriteTimer else AbortTimer);
        TimerFires();
      } else if phase.Discarding? {
        DiscardOnce();
      } else {
        OneMore(trace, if phase == Flushing then FlushPoll else AbortFlushPoll);
        var flushed := PollFlush();
      }
    }

    method TearDown(patience: nat)
      requires Valid() && (phase.Discarding? || phase in {Flushing, Aborting})
      modifies this, io.net, io.net.socket
      ensures Valid() && (phase.Discarding? || phase in {Flushing, Aborting} || phase.Finished?)
      ensures GoesOn(if phase.Finished? then 1 else patience)
    {
      var polls := 0;
      while polls < patience && !phase.Finished?
        invariant Valid() && (phase.Discarding? || phase in {Flushing, Aborting} || phase.Finished?)
        invariant old(trace) <= trace && Own(trace) >= Own(old(trace)) + polls && polls <= patience
        invariant Tally(trace, AcceptCall) == Tally(old(trace), AcceptCall)
        invariant phase.Finished? ==> polls > 0
      {
        Elapse();
        TearDownOnce();
        polls := polls + 1;
      }
    }

    // The top of the loop.
    method NextAccept()
      requires Valid() && AtTop(phase)
      modifies this, io.net, io.net.socket
      ensures Valid() && (phase.Accepting? || phase.Panicked?)
      ensures old(trace) <= trace && Tally(trace, AcceptCall) == Tally(old(trace), AcceptCall) + 1
    {
      Elapse();
      OneMore(trace, AcceptCall);
      Accept();
    }

    /**
     The loop of `http`, for any number of rounds: it accepts once a round, goes on until the rounds are
     done, an await has used up its polls, or it panics, and it panics only if the connection before
     ended in a timeout of `shutdown`.
     */
    method Run(rounds: nat, patience: nat) returns (panicked: bool, done: nat)
      requires Valid() && AtTop(phase)
      modifies this, io.net, io.net.socket
      ensures Valid() && panicked == phase.Panicked?
      ensures panicked ==> last.Some? && TimedOut(last.value)
      ensures old(trace) <= trace && Tally(trace, AcceptCall) == Tally(old(trace), AcceptCall) + done
      ensures done <= rounds && (done < rounds ==> !AtTop(phase))
    {
      done := 0;
      while done < rounds && AtTop(phase)
        invariant Valid() && !phase.Panicked? && done <= rounds
        invariant old(trace) <= trace && Tally(trace, AcceptCall) == Tally(old(trace), AcceptCall) + done
      {
        NextAccept();
        done := done + 1;
        if phase.Panicked? {
          return true, done;
        }
        HandleConnection(patience);
      }
      panicked := false;
    }
  }
}
