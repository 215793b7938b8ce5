/**
 Whole runs of one socket: the task that owns its handle, interleaved at every lock section with
 whatever the network does. A run is a sequence of labels; `Final` is the state it ends in.

 A task poll re-polls every future the task still awaits, or drops it: dispatching the task
 empties `parked`, and each future that answers Pending is parked again.
 */
module SocketRuns {
  import opened Prelude
  import opened Tcp
  import opened Socket

  /** What has happened on the connection the socket was last opened for. */
  datatype History = History(
    accepted: seq<Byte>,   // octets taken from write and write_with
    acked: seq<Byte>,      // octets the peer has acknowledged
    delivered: seq<Byte>,  // octets the network has put in the receive ring
    handed: seq<Byte>,     // octets given out by read and read_with
    begun: bool,           // listen or connect has succeeded
    localClose: bool,      // close or abort was called
    peerFin: bool,         // the peer's FIN was taken
    finAcked: bool,        // our FIN was acknowledged
    dropped: bool,         // RST, timeout, abort, or a close before any connection
    cut: bool,             // the same, before our FIN was acknowledged
    expired: bool)         // TIME-WAIT ran out and the socket was recycled

  const UNUSED := History([], [], [], [], false, false, false, false, false, false, false)
  const FRESH := UNUSED.(begun := true)

  function Drop(h: History): History { h.(dropped := true, cut := h.cut || !h.finAcked) }

  datatype World = World(
    sock: Sock,
    owner: Task,
    running: bool,    // the owner is being polled
    checking: bool,   // `disconnect` has found the socket open, and has not registered yet
    pending: bool,    // the owner has been woken and not dispatched since
    parked: seq<Op>,  // futures whose last poll answered Pending
    h: History)

  datatype Label =
    | Segment(n: NetStep)
    | Dispatch
    | Suspend
    | OtherWake           // a timer, or anything else that holds the owner's waker
    | PollFuture(op: Op)
    | DisconnectCheck     // the two sections of one poll of `disconnect`
    | DisconnectRegister
    | CloseCall
    | AbortCall
    | ListenCall(port: nat)
    | ConnectCall(remote: Endpoint, localPort: nat, routable: bool)

  function Init(owner: Task, rxCap: nat, txCap: nat): World {
    World(Sock(Closed, 0, 0, None, false, Ring(rxCap, 0, []), Ring(txCap, 0, []), None, None),
          owner, false, false, true, [], UNUSED)
  }

  // The owner may start its next lock section, or suspend.
  predicate Acting(w: World) { w.running && !w.checking }

  ghost predicate Enabled(w: World, l: Label) {
    match l
    case Segment(n) => NetEnabled(w.sock, n)
    case OtherWake => true
    case Dispatch => !w.running && w.pending
    case PollFuture(op) => Acting(w) && Honest(w.sock, op)
    case DisconnectRegister => w.running && w.checking
    case _ => Acting(w)
  }

  // A segment or timeout that closes the connection for good.
  predicate Drops(s: Sock, n: NetStep) { n.GiveUp? || (n.RstIn? && (s.state != SynReceived || s.listenPort == 0)) }

  function Observe(h: History, s: Sock, n: NetStep): History
    requires NetEnabled(s, n)
  {
    History(
      h.accepted,
      if n.Ack? then h.acked + s.tx.data[..n.count] else h.acked,
      if n.Data? then h.delivered + n.bytes else h.delivered,
      h.handed,
      h.begun,
      h.localClose,
      h.peerFin || n.PeerFin?,
      h.finAcked || n.FinAcked?,
      h.dropped || Drops(s, n),
      h.cut || (Drops(s, n) && !h.finAcked),
      h.expired || n.TimeWaitOver?)
  }

  /** The octets a write future hands over when it is polled now. */
  function Taken(s: Sock, op: Op): seq<Byte>
    requires Honest(s, op)
  {
    match op
    case Write(bytes) => if s.MaySend() then bytes[..Min(|bytes|, Free(s.tx))] else []
    case WriteWith(put) => if s.CanSend() then put(Back(s.tx)) else []
    case _ => []
  }

  function Given(reply: Poll<Outcome>): seq<Byte> {
    if reply.Ready? && reply.value.Bytes? then reply.value.bytes else []
  }

  function Hit(w: World, e: Effect): World {
    w.(sock := e.sock, pending := w.pending || w.owner in e.woken)
  }

  function PollStep(w: World, op: Op): World
    requires Honest(w.sock, op)
  {
    var p := PollOp(w.sock, op, w.owner);
    w.(sock := p.sock,
       parked := if p.reply.Pending? then w.parked + [op] else w.parked,
       h := w.h.(accepted := w.h.accepted + Taken(w.sock, op), handed := w.h.handed + Given(p.reply)))
  }

  function Do(w: World, l: Label): World
    requires Enabled(w, l)
  {
    match l
    case Segment(n) => Hit(w, Net(w.sock, n)).(h := Observe(w.h, w.sock, n))
    case Dispatch => w.(running := true, pending := false, parked := [])
    case Suspend => w.(running := false)
    case OtherWake => w.(pending := true)
    case PollFuture(op) => PollStep(w, op)
    case DisconnectCheck => w.(checking := w.sock.IsOpen())
    case DisconnectRegister => w.(sock := RegisterRecv(w.sock, w.owner), checking := false)
    case _ => Hit(w, EffectOf(w.sock, l)).(h := CallHistory(w.sock, w.h, l))
  }

  /** What a call of the owner does to the socket. */
  function EffectOf(s: Sock, l: Label): Effect {
    match l
    case CloseCall => Close(s)
    case AbortCall => Abort(s)
    case ListenCall(port) =>
      var r := ListenOn(s, port);
      if r.Err? then Effect(s, {}) else r.value
    case ConnectCall(remote, localPort, routable) =>
      var r := ConnectTo(s, remote, localPort, routable);
      if r.Err? then Effect(s, {}) else r.value
    case _ => Effect(s, {})
  }

  function CallHistory(s: Sock, h: History, l: Label): History {
    match l
    case CloseCall =>
      (if s.state == Listen || s.state == SynSent then Drop(h) else h).(localClose := true)
    case AbortCall => (if s.state != Closed then Drop(h) else h).(localClose := true)
    case ListenCall(port) => if ListenOn(s, port).Err? || s.IsOpen() then h else FRESH
    case ConnectCall(remote, localPort, routable) =>
      if ConnectTo(s, remote, localPort, routable).Err? then h else FRESH
    case _ => h
  }

  ghost predicate Legal(w: World, ls: seq<Label>)
    decreases |ls|
  {
    ls == [] || (Enabled(w, ls[0]) && Legal(Do(w, ls[0]), ls[1..]))
  }

  ghost function Final(w: World, ls: seq<Label>): World
    requires Legal(w, ls)
    decreases |ls|
  {
    if ls == [] then w else Final(Do(w, ls[0]), ls[1..])
  }

  ghost predicate Reaches(v: World, w: World) { exists ls :: Legal(v, ls) && Final(v, ls) == w }

  lemma {:induction false} Snoc(w: World, ls: seq<Label>, l: Label)
    requires Legal(w, ls) && Enabled(Final(w, ls), l)
    ensures Legal(w, ls + [l]) && Final(w, ls + [l]) == Do(Final(w, ls), l)
    decreases |ls|
  {
    if ls == [] {
      assert ls + [l] == [l];
      assert Legal(Do(w, l), [l][1..]);
    } else {
      Snoc(Do(w, ls[0]), ls[1..], l);
      assert (ls + [l])[1..] == ls[1..] + [l];
    }
  }

  ghost predicate OnlySegments(ls: seq<Label>) { forall l :: l in ls ==> l.Segment? }

  lemma ReachesItself(w: World)
    ensures Reaches(w, w)
  {
    assert Legal(w, []) && Final(w, []) == w;
  }

  lemma ReachesNext(v: World, w: World, l: Label)
    requires Reaches(v, w) && Enabled(w, l)
    ensures Reaches(v, Do(w, l))
  {
    var ls :| Legal(v, ls) && Final(v, ls) == w;
    Snoc(v, ls, l);
  }

  lemma {:induction false} ReachesOn(v: World, w: World, ls: seq<Label>)
    requires Reaches(v, w) && Legal(w, ls)
    ensures Reaches(v, Final(w, ls))
    decreases |ls|
  {
    if ls != [] {
      ReachesNext(v, w, ls[0]);
      ReachesOn(v, Do(w, ls[0]), ls[1..]);
    }
  }

  // ---- The invariant ------------------------------------------------------------------------

  /** A parked future is either about to be polled again or still waiting, with its waker in place. */
  ghost predicate Safe(w: World, op: Op) {
    w.pending || (Blocked(w.sock, op) && HeldBy(w.sock, SlotOf(op)) == Some(w.owner))
  }

  ghost predicate WakerInv(w: World) {
    && w.sock.Inv()
    && (forall i :: 0 <= i < |w.parked| ==> Safe(w, w.parked[i]))
    && (w.sock.rxWaker.Some? ==> w.sock.rxWaker.value == w.owner)
    && (w.sock.txWaker.Some? ==> w.sock.txWaker.value == w.owner)
  }

  /** The octets of both directions are where they should be, in order. */
  ghost predicate BytesInv(s: Sock, h: History) {
    && h.accepted == h.acked + s.tx.data
    && h.handed <= h.delivered
    && (!h.expired ==> h.delivered == h.handed + s.rx.data)
  }

  /** How the state of the socket remembers what became of the connection. */
  ghost predicate EndInv(s: Sock, h: History) {
    && (!h.begun ==> s.state == Closed && s.listenPort == 0 && s.remote == None && s.rx.data == [])
    && (s.fin ==> h.peerFin) && (h.peerFin && !h.expired ==> s.fin)
    && (h.expired ==> s.state == Closed && s.remote == None && !s.fin && s.rx.data == [])
    && (h.localClose ==> !s.MaySend() && !s.Handshaking())
    && (!h.localClose ==> !s.FinOutstanding() && s.state != FinWait2 && s.state != TimeWait)
    && (s.state in {FinWait2, TimeWait} ==> h.finAcked)
    && (h.finAcked ==> h.localClose && s.state in {FinWait2, TimeWait, Closed})
    && (h.begun && s.state == Closed ==> h.dropped || (h.finAcked && h.peerFin))
    && (h.cut <==> h.begun && s.state == Closed && !h.finAcked)
  }

  ghost predicate Inv(w: World) {
    WakerInv(w) && BytesInv(w.sock, w.h) && EndInv(w.sock, w.h)
  }

  // What a change of the socket may do without stranding anyone: wake the owner, or leave every
  // future that waits in a slot waiting, with the slot as it was.
  ghost predicate KeepsWaiting(s: Sock, e: Effect, t: Task) {
    forall op :: Blocked(s, op) && HeldBy(s, SlotOf(op)) == Some(t) && t !in e.woken ==>
      Blocked(e.sock, op) && HeldBy(e.sock, SlotOf(op)) == Some(t)
  }

  lemma NetKeepsWaiting(s: Sock, n: NetStep, t: Task)
    requires s.Inv() && NetEnabled(s, n)
    ensures KeepsWaiting(s, Net(s, n), t)
  {
  }

  lemma CallsKeepWaiting(s: Sock, port: nat, remote: Endpoint, localPort: nat, routable: bool, t: Task)
    requires s.Inv()
    ensures KeepsWaiting(s, Close(s), t) && KeepsWaiting(s, Abort(s), t)
    ensures ListenOn(s, port).Ok? ==> KeepsWaiting(s, ListenOn(s, port).value, t)
    ensures ConnectTo(s, remote, localPort, routable).Ok? ==>
              KeepsWaiting(s, ConnectTo(s, remote, localPort, routable).value, t)
  {
  }

  /** Polling one future never unblocks, or takes the waker from, another one of the same task. */
  lemma PollKeepsWaiting(s: Sock, op: Op, t: Task)
    requires s.Inv() && Honest(s, op)
    ensures KeepsWaiting(s, Effect(PollOp(s, op, t).sock, {}), t)
    ensures PollOp(s, op, t).reply.Pending? ==>
              Blocked(PollOp(s, op, t).sock, op) && HeldBy(PollOp(s, op, t).sock, SlotOf(op)) == Some(t)
  {
  }

  lemma HitKeepsWakerInv(w: World, e: Effect)
    requires WakerInv(w) && e.sock.Inv() && KeepsWaiting(w.sock, e, w.owner)
    requires e.sock.rxWaker == None || e.sock.rxWaker == w.sock.rxWaker
    requires e.sock.txWaker == None || e.sock.txWaker == w.sock.txWaker
    ensures WakerInv(Hit(w, e))
  {
  }

  lemma PollStepKeepsWakerInv(w: World, op: Op)
    requires WakerInv(w) && Honest(w.sock, op)
    ensures WakerInv(PollStep(w, op))
  {
    PollKeepsInv(w.sock, op, w.owner);
    PollKeepsWaiting(w.sock, op, w.owner);
    var after := PollStep(w, op);
    forall i | 0 <= i < |after.parked| ensures Safe(after, after.parked[i]) {
      if i < |w.parked| {
        assert Safe(w, w.parked[i]) && after.parked[i] == w.parked[i];
      }
    }
  }

  lemma CallKeepsWakerInv(w: World, l: Label)
    requires WakerInv(w) && Enabled(w, l) && (l.CloseCall? || l.AbortCall? || l.ListenCall? || l.ConnectCall?)
    ensures WakerInv(Do(w, l))
  {
    var e := EffectOf(w.sock, l);
    if l.ListenCall? {
      CallsKeepInv(w.sock, l.port, Endpoint(0, 0), 0, false);
      CallsKeepWaiting(w.sock, l.port, Endpoint(0, 0), 0, false, w.owner);
    } else if l.ConnectCall? {
      CallsKeepInv(w.sock, 0, l.remote, l.localPort, l.routable);
      CallsKeepWaiting(w.sock, 0, l.remote, l.localPort, l.routable, w.owner);
    } else {
      CallsKeepInv(w.sock, 0, Endpoint(0, 0), 0, false);
      CallsKeepWaiting(w.sock, 0, Endpoint(0, 0), 0, false, w.owner);
    }
    HitKeepsWakerInv(w, e);
    WakerInvIgnoresHistory(Hit(w, e), Do(w, l));
  }

  lemma StepKeepsWakerInv(w: World, l: Label)
    requires WakerInv(w) && Enabled(w, l)
    ensures WakerInv(Do(w, l))
  {
    match l
    case Segment(n) =>
      NetKeepsInv(w.sock, n);
      NetKeepsWaiting(w.sock, n, w.owner);
      HitKeepsWakerInv(w, Net(w.sock, n));
      WakerInvIgnoresHistory(Hit(w, Net(w.sock, n)), Do(w, l));
    case PollFuture(op) => PollStepKeepsWakerInv(w, op);
    case CloseCall | AbortCall | ListenCall(_) | ConnectCall(_, _, _) => CallKeepsWakerInv(w, l);
    case Dispatch | OtherWake | DisconnectCheck =>
    case Suspend | DisconnectRegister => RegisteringKeepsWakerInv(w, l);
  }

  lemma RegisteringKeepsWakerInv(w: World, l: Label)
    requires WakerInv(w) && Enabled(w, l) && (l.Suspend? || l.DisconnectRegister?)
    ensures WakerInv(Do(w, l))
  {
    forall i | 0 <= i < |Do(w, l).parked| ensures Safe(Do(w, l), Do(w, l).parked[i]) {
      assert Safe(w, w.parked[i]);
    }
  }

  lemma WakerInvIgnoresHistory(w: World, v: World)
    requires WakerInv(w) && v == w.(h := v.h)
    ensures WakerInv(v)
  {
  }

  lemma SegmentKeepsHistory(s: Sock, h: History, n: NetStep)
    requires s.Inv() && NetEnabled(s, n) && BytesInv(s, h) && EndInv(s, h)
    ensures BytesInv(Net(s, n).sock, Observe(h, s, n)) && EndInv(Net(s, n).sock, Observe(h, s, n))
  {
    match n
    case Data(bytes) => assert h.handed + s.rx.data + bytes == h.handed + (s.rx.data + bytes);
    case Ack(count) =>
      assert s.tx.data == s.tx.data[..count] + s.tx.data[count..];
      assert h.acked + s.tx.data[..count] + s.tx.data[count..] == h.acked + s.tx.data;
    case _ =>
  }

  lemma ReadMovesBytes(s: Sock, op: Op, t: Task)
    requires s.Inv() && Honest(s, op) && (op.Read? || op.ReadWith?)
    ensures s.rx.data == Given(PollOp(s, op, t).reply) + PollOp(s, op, t).sock.rx.data
    ensures Given(PollOp(s, op, t).reply) != [] ==> s.rx.data != []
  {
  }

  lemma WriteMovesBytes(s: Sock, op: Op, t: Task)
    requires s.Inv() && Honest(s, op) && (op.Write? || op.WriteWith?)
    ensures PollOp(s, op, t).sock.tx.data == s.tx.data + Taken(s, op)
    ensures Taken(s, op) != [] ==> s.MaySend()
  {
  }

  // What an operation does not read or write, it leaves.
  lemma PollKeepsBytesOf(s: Sock, op: Op, t: Task)
    requires s.Inv() && Honest(s, op)
    ensures !op.Read? && !op.ReadWith? ==> Given(PollOp(s, op, t).reply) == [] && PollOp(s, op, t).sock.rx == s.rx
    ensures !op.Write? && !op.WriteWith? ==> Taken(s, op) == [] && PollOp(s, op, t).sock.tx == s.tx
  {
  }

  /** A poll moves octets out of the front of one ring or into the back of the other; it makes up none. */
  lemma PollMovesBytes(s: Sock, op: Op, t: Task)
    requires s.Inv() && Honest(s, op)
    ensures s.rx.data == Given(PollOp(s, op, t).reply) + PollOp(s, op, t).sock.rx.data
    ensures PollOp(s, op, t).sock.tx.data == s.tx.data + Taken(s, op)
    ensures Given(PollOp(s, op, t).reply) != [] ==> s.rx.data != []
    ensures Taken(s, op) != [] ==> s.MaySend()
  {
    PollKeepsBytesOf(s, op, t);
    if op.Read? || op.ReadWith? {
      ReadMovesBytes(s, op, t);
    } else if op.Write? || op.WriteWith? {
      WriteMovesBytes(s, op, t);
    }
  }

  lemma PollKeepsHistory(w: World, op: Op)
    requires w.sock.Inv() && Honest(w.sock, op) && BytesInv(w.sock, w.h) && EndInv(w.sock, w.h)
    ensures BytesInv(PollStep(w, op).sock, PollStep(w, op).h) && EndInv(PollStep(w, op).sock, PollStep(w, op).h)
  {
    var p := PollOp(w.sock, op, w.owner);
    var h := w.h.(accepted := w.h.accepted + Taken(w.sock, op), handed := w.h.handed + Given(p.reply));
    assert PollStep(w, op).sock == p.sock && PollStep(w, op).h == h;
    assert BytesInv(p.sock, h) by {
      PollMovesBytes(w.sock, op, w.owner);
      PollKeepsBytes(w.sock, w.h, p.sock, Taken(w.sock, op), Given(p.reply));
    }
    assert EndInv(p.sock, h) by {
      PollKeepsInv(w.sock, op, w.owner);
      PollKeepsListenPort(w.sock, op, w.owner);
    }
  }

  lemma PollKeepsListenPort(s: Sock, op: Op, t: Task)
    requires s.Inv() && Honest(s, op)
    ensures PollOp(s, op, t).sock.listenPort == s.listenPort
    ensures s.rx.data == [] ==> PollOp(s, op, t).sock.rx.data == []
  {
  }

  lemma PollKeepsBytes(s: Sock, h: History, after: Sock, taken: seq<Byte>, given: seq<Byte>)
    requires BytesInv(s, h) && (h.expired ==> s.rx.data == [])
    requires s.rx.data == given + after.rx.data && after.tx.data == s.tx.data + taken
    ensures BytesInv(after, h.(accepted := h.accepted + taken, handed := h.handed + given))
  {
  }

  lemma CallKeepsHistory(w: World, l: Label)
    requires Inv(w) && Enabled(w, l) && (l.CloseCall? || l.AbortCall? || l.ListenCall? || l.ConnectCall?)
    ensures BytesInv(Do(w, l).sock, Do(w, l).h) && EndInv(Do(w, l).sock, Do(w, l).h)
  {
    CallKeepsHistoryOf(w.sock, w.h, l, EffectOf(w.sock, l).sock, CallHistory(w.sock, w.h, l));
  }

  lemma CallKeepsHistoryOf(s: Sock, h: History, l: Label, after: Sock, later: History)
    requires s.Inv() && BytesInv(s, h) && EndInv(s, h)
    requires l.CloseCall? || l.AbortCall? || l.ListenCall? || l.ConnectCall?
    requires after == EffectOf(s, l).sock && later == CallHistory(s, h, l)
    ensures BytesInv(after, later) && EndInv(after, later)
  {
  }

  lemma StepKeepsInv(w: World, l: Label)
    requires Inv(w) && Enabled(w, l)
    ensures Inv(Do(w, l))
  {
    StepKeepsWakerInv(w, l);
    match l
    case Segment(n) => SegmentKeepsHistory(w.sock, w.h, n);
    case PollFuture(op) => PollKeepsHistory(w, op);
    case CloseCall | AbortCall | ListenCall(_) | ConnectCall(_, _, _) => CallKeepsHistory(w, l);
    case Dispatch | Suspend | OtherWake | DisconnectCheck | DisconnectRegister =>
  }

  lemma {:induction false} RunKeepsInv(w: World, ls: seq<Label>)
    requires Inv(w) && Legal(w, ls)
    ensures Inv(Final(w, ls))
    decreases |ls|
  {
    if ls != [] {
      StepKeepsInv(w, ls[0]);
      RunKeepsInv(Do(w, ls[0]), ls[1..]);
    }
  }

  lemma InitIsSound(owner: Task, rxCap: nat, txCap: nat)
    ensures Inv(Init(owner, rxCap, txCap))
  {
  }

  lemma ReachableIsSound(owner: Task, rxCap: nat, txCap: nat, w: World)
    requires Reaches(Init(owner, rxCap, txCap), w)
    ensures Inv(w)
  {
    var ls :| Legal(Init(owner, rxCap, txCap), ls) && Final(Init(owner, rxCap, txCap), ls) == w;
    InitIsSound(owner, rxCap, txCap);
    RunKeepsInv(Init(owner, rxCap, txCap), ls);
  }

  // ---- A connection, made ------------------------------------------------------------------

  const START: World := Init(0, 4, 4)

  const LIVE: Sock :=
    Sock(Established, 0, 58026, Some(Endpoint(1, 80)), false, Ring(4, 0, []), Ring(4, 0, []), None, None)

  predicate Fresh(h: History) {
    h.accepted == h.acked == h.delivered == h.handed == [] && h.begun && !h.localClose && !h.finAcked && !h.cut
  }

  // A fresh connection of task 0, which is at work or asleep.
  predicate On(w: World, acting: bool, sock: Sock) {
    w.owner == 0 && Fresh(w.h) && w.running == acting && !w.checking && w.sock == sock
  }

  const OPENING: Label := ConnectCall(Endpoint(1, 80), 58026, true)

  lemma OpenStep(w: World)
    requires w == Do(START, Dispatch)
    ensures Enabled(w, OPENING) && !Do(w, OPENING).pending && On(Do(w, OPENING), true, LIVE.(state := SynSent))
  {
  }

  lemma WaitStep(w: World)
    requires On(w, true, LIVE.(state := SynSent)) && !w.pending
    ensures Enabled(w, PollFuture(Connect)) && Enabled(Do(w, PollFuture(Connect)), Suspend)
    ensures On(Do(Do(w, PollFuture(Connect)), Suspend), false, LIVE.(state := SynSent, txWaker := Some(0)))
  {
  }

  lemma SynAckStep(w: World)
    requires On(w, false, LIVE.(state := SynSent, txWaker := Some(0)))
    ensures Enabled(w, Segment(SynAck)) && On(Do(w, Segment(SynAck)), false, LIVE) && Do(w, Segment(SynAck)).pending
  {
  }

  lemma ResumeStep(w: World)
    requires On(w, false, LIVE) && w.pending
    ensures Enabled(w, Dispatch) && Enabled(Do(w, Dispatch), PollFuture(Connect))
    ensures var v := Do(Do(w, Dispatch), PollFuture(Connect)); On(v, true, LIVE) && !v.pending
  {
  }

  // The task sleeps in `connect`.
  lemma Connecting() returns (w: World)
    ensures Reaches(START, w) && On(w, false, LIVE.(state := SynSent, txWaker := Some(0)))
  {
    ReachesItself(START);
    ReachesNext(START, START, Dispatch);
    w := Do(START, Dispatch);
    OpenStep(w);
    ReachesNext(START, w, OPENING);
    w := Do(w, OPENING);
    WaitStep(w);
    ReachesNext(START, w, PollFuture(Connect));
    w := Do(w, PollFuture(Connect));
    ReachesNext(START, w, Suspend);
    w := Do(w, Suspend);
  }

  // The connection was made and woke it, and `connect` has answered.
  lemma Connected() returns (w: World)
    ensures Reaches(START, w) && On(w, true, LIVE) && !w.pending
  {
    w := Connecting();
    SynAckStep(w);
    ReachesNext(START, w, Segment(SynAck));
    w := Do(w, Segment(SynAck));
    ResumeStep(w);
    ReachesNext(START, w, Dispatch);
    w := Do(w, Dispatch);
    ReachesNext(START, w, PollFuture(Connect));
    w := Do(w, PollFuture(Connect));
  }
}
