/**
 `src/socket.rs`: the async socket. Every future there is a `poll_fn` that takes the network lock
 once, looks at the socket once, and either answers or leaves its waker in one of two slots.

 `Blocked`, `SlotOf` and `Complete` say what each future waits for, where it leaves its waker, and
 what it answers. The class `SocketInner` is the code; its methods are proved against `PollOp`.
 */
module Socket {
  import opened Prelude
  import opened Tcp

  /** The futures of the socket. The two closures are the callers' `FnOnce(&mut [u8])`. */
  datatype Op =
    | Read(size: nat)
    | ReadReady
    | ReadWith(take: seq<Byte> -> nat)
    | Write(bytes: seq<Byte>)
    | WriteReady
    | WriteWith(put: nat -> seq<Byte>)
    | Flush
    | Connect
    | Accept

  datatype Slot = RxSlot | TxSlot

  /** `Unreachable` is the `unreachable!()` of `connect`. */
  datatype Outcome = Bytes(bytes: seq<Byte>) | Count(count: nat) | Unit | ConnReset | Unreachable

  datatype Polled = Polled(sock: Sock, reply: Poll<Outcome>)

  /** The future has nothing to answer yet. */
  predicate Blocked(s: Sock, op: Op) {
    match op
    case Read(size) => size > 0 && s.MayRecv() && s.rx.data == []
    case ReadReady => !s.CanRecv()
    case ReadWith(_) => !s.CanRecv() && s.MayRecv()
    case Write(bytes) => s.MaySend() && (bytes == [] || s.tx.Full())
    case WriteReady => !s.CanSend()
    case WriteWith(_) => !s.CanSend() && s.MaySend()
    case Flush =>
      || (s.tx.data != [] && s.state != Closed)
      || s.FinOutstanding()
      || (s.state == Closed && s.remote.Some?)
    case Connect => s.state == SynSent || s.state == SynReceived
    case Accept => s.Handshaking()
  }

  function SlotOf(op: Op): Slot {
    match op
    case Read(_) | ReadReady | ReadWith(_) => RxSlot
    case _ => TxSlot
  }

  function HeldBy(s: Sock, slot: Slot): Option<Task> {
    if slot == RxSlot then s.rxWaker else s.txWaker
  }

  function Register(s: Sock, slot: Slot, t: Task): Sock {
    if slot == RxSlot then RegisterRecv(s, t) else RegisterSend(s, t)
  }

  /** The slice a `read_with` closure is shown: the readable octets up to the end of the storage. */
  function Shown(s: Sock): (slice: seq<Byte>)
    ensures slice <= s.rx.data
  {
    s.rx.data[..Front(s.rx)]
  }

  /** The closure keeps to the slice it is given; smoltcp panics otherwise. */
  ghost predicate Honest(s: Sock, op: Op)
  {
    match op
    case ReadWith(take) => take(Shown(s)) <= |Shown(s)|
    case WriteWith(put) => |put(Back(s.tx))| <= Back(s.tx)
    case _ => true
  }

  function Complete(s: Sock, op: Op): (Sock, Outcome)
    requires Honest(s, op) && !Blocked(s, op)
  {
    match op
    case Read(size) =>
      if s.MayRecv() then
        var n := Min(size, |s.rx.data|);
        (s.(rx := Pop(s.rx, n)), Bytes(s.rx.data[..n]))
      else (s, if s.fin then Bytes([]) else ConnReset)
    case ReadReady => (s, Unit)
    case ReadWith(take) =>
      if s.CanRecv() then
        var n := take(Shown(s));
        (s.(rx := Pop(s.rx, n)), Bytes(s.rx.data[..n]))
      else (s, ConnReset)
    case Write(bytes) =>
      if s.MaySend() then
        var n := Min(|bytes|, Free(s.tx));
        (s.(tx := Push(s.tx, bytes[..n])), Count(n))
      else (s, ConnReset)
    case WriteReady => (s, Unit)
    case WriteWith(put) =>
      if s.CanSend() then
        var bytes := put(Back(s.tx));
        (s.(tx := Push(s.tx, bytes)), Count(|bytes|))
      else (s, ConnReset)
    case Flush => (s, Unit)
    case Connect =>
      (s, if s.state == Closed || s.state == TimeWait then ConnReset
          else if s.state == Listen then Unreachable else Unit)
    case Accept => (s, Unit)
  }

  /** One poll of a future by task `t`. */
  function PollOp(s: Sock, op: Op, t: Task): Polled
    requires Honest(s, op)
  {
    if Blocked(s, op) then Polled(Register(s, SlotOf(op), t), Pending)
    else
      var (after, answer) := Complete(s, op);
      Polled(after, Ready(answer))
  }

  // `ReadReady::read_ready` and `WriteReady::write_ready` of the embedded-io traits.
  predicate ReadReadyQuery(s: Sock) { s.CanRecv() || !s.MayRecv() }

  predicate WriteReadyQuery(s: Sock) { s.CanSend() }

  // ---- Facts about a single poll ------------------------------------------------------------

  lemma PollKeepsInv(s: Sock, op: Op, t: Task)
    requires s.Inv() && Honest(s, op)
    ensures PollOp(s, op, t).sock.Inv()
    ensures PollOp(s, op, t).sock.state == s.state && PollOp(s, op, t).sock.remote == s.remote
    ensures PollOp(s, op, t).sock.fin == s.fin
  {
  }

  /**
   The readiness queries agree with the operations, in every state of the socket:
   `read_ready` holds exactly when a read into a non-empty buffer would answer now, and
   `write_ready` exactly when a non-empty write would put between 1 and all of its octets.
   */
  lemma ReadinessAgrees(s: Sock, size: nat, bytes: seq<Byte>, t: Task)
    requires size > 0 && bytes != []
    ensures ReadReadyQuery(s) <==> PollOp(s, Read(size), t).reply.Ready?
    ensures WriteReadyQuery(s) <==>
            var reply := PollOp(s, Write(bytes), t).reply;
            reply.Ready? && reply.value.Count? && 1 <= reply.value.count <= |bytes|
    ensures !WriteReadyQuery(s) <==> PollOp(s, Write(bytes), t).reply in {Pending, Ready(ConnReset)}
  {
  }

  /** A closure is shown a non-empty contiguous window of the ring, so it always has work to do. */
  lemma ClosuresSeeAWindow(s: Sock)
    ensures s.CanRecv() ==> Shown(s) != [] && s.rx.start + |Shown(s)| <= s.rx.cap
    ensures s.CanRecv() ==> |Shown(s)| == |s.rx.data| || s.rx.start + |Shown(s)| == s.rx.cap
    ensures s.CanSend() ==> 0 < Back(s.tx) <= Free(s.tx)
    ensures (if s.tx.data == [] then 0 else s.tx.Wrap(s.tx.start + |s.tx.data|)) + Back(s.tx) <= s.tx.cap
    ensures s.CanSend() && Back(s.tx) < Free(s.tx) ==>
              s.tx.data != [] && s.tx.start + |s.tx.data| + Back(s.tx) == s.tx.cap
  {
  }

  /** A write of no octets never answers while the send half is open, unlike a read into no buffer. */
  lemma EmptyWriteNeverResolves(s: Sock, t: Task)
    ensures PollOp(s, Write([]), t).reply.Pending? <==> s.MaySend()
    ensures PollOp(s, Read(0), t).reply.Ready?
  {
  }

  // ---- The code -----------------------------------------------------------------------------

  datatype RecvError = RecvFinished | RecvInvalidState
  datatype SendError = SendInvalidState

  /** The smoltcp socket behind a handle; an environment object whose methods are assumptions. */
  class TcpEndpoint {
    var state: State
    var listenPort: nat
    var localPort: nat
    var remote: Option<Endpoint>
    var fin: bool
    var rx: Ring
    var tx: Ring
    var rxWaker: Option<Task>
    var txWaker: Option<Task>
    // Tasks woken so far and not yet polled again: the executors' pending bits.
    var woken: set<Task>

    constructor (rxCap: nat, txCap: nat)
      ensures View() == Sock(Closed, 0, 0, None, false, Ring(rxCap, 0, []), Ring(txCap, 0, []), None, None)
      ensures View().Inv() && woken == {}
    {
      state, listenPort, localPort, remote, fin := Closed, 0, 0, None, false;
      rx, tx := Ring(rxCap, 0, []), Ring(txCap, 0, []);
      rxWaker, txWaker, woken := None, None, {};
    }

    function View(): Sock
      reads this
    {
      Sock(state, listenPort, localPort, remote, fin, rx, tx, rxWaker, txWaker)
    }

    method Become(e: Effect)
      modifies this
      ensures View() == e.sock && woken == old(woken) + e.woken
    {
      var s := e.sock;
      state, listenPort, localPort, remote, fin := s.state, s.listenPort, s.localPort, s.remote, s.fin;
      rx, tx, rxWaker, txWaker := s.rx, s.tx, s.rxWaker, s.txWaker;
      woken := woken + e.woken;
    }

    /** Whatever the network does while the owner is between two lock sections. */
    method Interfere() returns (ghost ns: seq<NetStep>)
      modifies this
      ensures NetLegal(old(View()), ns)
      ensures NetFinal(old(View()), ns).sock == View()
      ensures woken == old(woken) + NetFinal(old(View()), ns).woken
    {
      ns := [];
      var more: bool := *;
      var left: nat := *;
      while more && left > 0
        invariant NetLegal(old(View()), ns)
        invariant NetFinal(old(View()), ns).sock == View()
        invariant woken == old(woken) + NetFinal(old(View()), ns).woken
        decreases left
      {
        var n: NetStep := *;
        if NetEnabled(View(), n) {
          NetSnoc(old(View()), ns, n);
          Become(Net(View(), n));
          ns := ns + [n];
        }
        left := left - 1;
      }
    }

    method RecvSlice(size: nat) returns (r: Result<seq<Byte>, RecvError>)
      modifies this`rx
      ensures old(View()).MayRecv() ==>
                var n := Min(size, |old(rx).data|);
                r == Ok(old(rx).data[..n]) && rx == Pop(old(rx), n)
      ensures !old(View()).MayRecv() ==>
                r == Err(if fin then RecvFinished else RecvInvalidState) && rx == old(rx)
    {
      if !View().MayRecv() {
        return Err(if fin then RecvFinished else RecvInvalidState);
      }
      var n := Min(size, |rx.data|);
      r := Ok(rx.data[..n]);
      rx := Pop(rx, n);
    }

    method Recv(take: seq<Byte> -> nat) returns (r: Result<seq<Byte>, RecvError>)
      requires take(Shown(View())) <= |Shown(View())|
      modifies this`rx
      ensures old(View()).MayRecv() ==>
                var n := take(Shown(old(View())));
                r == Ok(old(rx).data[..n]) && rx == Pop(old(rx), n)
      ensures !old(View()).MayRecv() ==> r.Err? && rx == old(rx)
    {
      if !View().MayRecv() {
        return Err(if fin then RecvFinished else RecvInvalidState);
      }
      var n := take(Shown(View()));
      r := Ok(rx.data[..n]);
      rx := Pop(rx, n);
    }

    method SendSlice(bytes: seq<Byte>) returns (r: Result<nat, SendError>)
      modifies this`tx
      ensures old(View()).MaySend() ==>
                var n := Min(|bytes|, Free(old(tx)));
                r == Ok(n) && tx == Push(old(tx), bytes[..n])
      ensures !old(View()).MaySend() ==> r == Err(SendInvalidState) && tx == old(tx)
    {
      if !View().MaySend() {
        return Err(SendInvalidState);
      }
      var n := Min(|bytes|, Free(tx));
      tx := Push(tx, bytes[..n]);
      r := Ok(n);
    }

    method Send(put: nat -> seq<Byte>) returns (r: Result<nat, SendError>)
      requires |put(Back(tx))| <= Back(tx)
      modifies this`tx
      ensures old(View()).MaySend() ==>
                var bytes := put(Back(old(tx)));
                r == Ok(|bytes|) && tx == Push(old(tx), bytes)
      ensures !old(View()).MaySend() ==> r == Err(SendInvalidState) && tx == old(tx)
    {
      if !View().MaySend() {
        return Err(SendInvalidState);
      }
      var bytes := put(Back(tx));
      tx := Push(tx, bytes);
      r := Ok(|bytes|);
    }

    method RegisterRecvWaker(t: Task)
      modifies this`rxWaker
      ensures rxWaker == Some(t)
    {
      rxWaker := Some(t);
    }

    method RegisterSendWaker(t: Task)
      modifies this`txWaker
      ensures txWaker == Some(t)
    {
      txWaker := Some(t);
    }
  }

  lemma {:induction false} NetSnoc(s: Sock, ns: seq<NetStep>, n: NetStep)
    requires NetLegal(s, ns) && NetEnabled(NetFinal(s, ns).sock, n)
    ensures NetLegal(s, ns + [n])
    ensures NetFinal(s, ns + [n]).sock == Net(NetFinal(s, ns).sock, n).sock
    ensures NetFinal(s, ns + [n]).woken == NetFinal(s, ns).woken + Net(NetFinal(s, ns).sock, n).woken
    decreases |ns|
  {
    if ns == [] {
      assert ns + [n] == [n];
      assert NetLegal(Net(s, n).sock, [n][1..]);
    } else {
      NetSnoc(Net(s, ns[0]).sock, ns[1..], n);
      assert (ns + [n])[1..] == ns[1..] + [n];
    }
  }

  /** What happens in one use of the token, in order. */
  datatype Event = Locked | PollRequested | Unlocked

  const MUT_SECTION: seq<Event> := [Locked, PollRequested, Unlocked]
  const READ_SECTION: seq<Event> := [Locked, Unlocked]

  /**
   `src/poll_share.rs`: a RefCell around the RTIC resource proxy. Entering it while it is borrowed
   panics, which is the precondition of `Lock`; every caller below discharges it.
   */
  class TokenProvider {
    const socket: TcpEndpoint
    var borrowed: bool
    // NETWORK_POLL_REQUEST of `src/network.rs`.
    var requested: bool
    ghost var trace: seq<Event>
    // The socket as it was when the last poll was requested.
    ghost var published: Sock

    constructor (socket: TcpEndpoint)
      ensures this.socket == socket && !borrowed && !requested && trace == []
    {
      this.socket := socket;
      borrowed, requested, trace := false, false, [];
      published := socket.View();
    }

    method Lock()
      requires !borrowed
      modifies this`borrowed, this`trace
      ensures borrowed && trace == old(trace) + [Locked]
    {
      borrowed := true;
      trace := trace + [Locked];
    }

    // crate::POLL_NETWORK(), called by `with_mut` once the closure has returned.
    method PollNetwork()
      requires borrowed
      modifies this`requested, this`trace, this`published
      ensures requested && trace == old(trace) + [PollRequested] && published == socket.View()
    {
      requested := true;
      trace := trace + [PollRequested];
      published := socket.View();
    }

    method Unlock()
      requires borrowed
      modifies this`borrowed, this`trace
      ensures !borrowed && trace == old(trace) + [Unlocked]
    {
      borrowed := false;
      trace := trace + [Unlocked];
    }
  }

  datatype ConnectError = ConnectInvalidState | ConnectReset | NoRoute
  datatype AcceptError = AcceptInvalidState | InvalidPort

  /** A copyable handle on one socket; `TcpSocket`, `TcpReader` and `TcpWriter` only wrap it. */
  class SocketInner {
    const net: TokenProvider

    constructor (net: TokenProvider)
      ensures this.net == net
    {
      this.net := net;
    }

    /** The lock is free and the socket behind it is sound: what every call finds and leaves. */
    ghost predicate Ready()
      reads net, net.socket
    {
      !net.borrowed && net.socket.View().Inv()
    }

    /** One `with_mut` section in which future `op` is polled and answers `r`. */
    twostate predicate Polls(op: Op, cx: Task, new r: Poll<Outcome>)
      requires old(net.socket.View().Inv() && Honest(net.socket.View(), op))
      reads net, net.socket
    {
      var p := PollOp(old(net.socket.View()), op, cx);
      && net.socket.View() == p.sock && r == p.reply
      && net.socket.woken == old(net.socket.woken)
      && MutSection()
    }

    /**
     The lock was taken and given back once; in between, and when the socket was already as the section
     leaves it, a poll was requested.
     */
    twostate predicate MutSection()
      reads net, net.socket
    {
      && net.trace == old(net.trace) + MUT_SECTION
      && net.requested && net.published == net.socket.View() && Ready()
    }

    method PollReadReady(cx: Task) returns (r: Poll<Outcome>)
      requires Ready()
      modifies net, net.socket
      ensures Polls(ReadReady, cx, r)
    {
      net.Lock();
      if net.socket.View().CanRecv() {
        r := Poll.Ready(Unit);
      } else {
        net.socket.RegisterRecvWaker(cx);
        r := Pending;
      }
      net.PollNetwork();
      net.Unlock();
    }

    method PollRead(size: nat, cx: Task) returns (r: Poll<Outcome>)
      requires Ready()
      modifies net, net.socket
      ensures Polls(Read(size), cx, r)
    {
      PollKeepsInv(net.socket.View(), Read(size), cx);
      net.Lock();
      var got := net.socket.RecvSlice(size);
      match got {
        case Ok(bytes) =>
          if bytes == [] && size == 0 {
            r := Poll.Ready(Bytes([]));
          } else if bytes == [] {
            net.socket.RegisterRecvWaker(cx);
            r := Pending;
          } else {
            r := Poll.Ready(Bytes(bytes));
          }
        case Err(RecvFinished) => r := Poll.Ready(Bytes([]));
        case Err(RecvInvalidState) => r := Poll.Ready(ConnReset);
      }
      net.PollNetwork();
      net.Unlock();
    }

    method PollWriteReady(cx: Task) returns (r: Poll<Outcome>)
      requires Ready()
      modifies net, net.socket
      ensures Polls(WriteReady, cx, r)
    {
      net.Lock();
      if net.socket.View().CanSend() {
        r := Poll.Ready(Unit);
      } else {
        net.socket.RegisterSendWaker(cx);
        r := Pending;
      }
      net.PollNetwork();
      net.Unlock();
    }

    method PollWrite(bytes: seq<Byte>, cx: Task) returns (r: Poll<Outcome>)
      requires Ready()
      modifies net, net.socket
      ensures Polls(Write(bytes), cx, r)
    {
      PollKeepsInv(net.socket.View(), Write(bytes), cx);
      net.Lock();
      var sent := net.socket.SendSlice(bytes);
      match sent {
        case Ok(n) =>
          if n == 0 {
            net.socket.RegisterSendWaker(cx);
            r := Pending;
          } else {
            r := Poll.Ready(Count(n));
          }
        case Err(_) => r := Poll.Ready(ConnReset);
      }
      net.PollNetwork();
      net.Unlock();
    }

    method PollFlush(cx: Task) returns (r: Poll<Outcome>)
      requires Ready()
      modifies net, net.socket
      ensures Polls(Flush, cx, r)
    {
      net.Lock();
      var s := net.socket;
      var dataPending := |s.tx.data| > 0 && s.state != Closed;
      var finPending := s.state == FinWait1 || s.state == Closing || s.state == LastAck;
      var rstPending := s.state == Closed && s.remote.Some?;
      if dataPending || finPending || rstPending {
        s.RegisterSendWaker(cx);
        r := Pending;
      } else {
        r := Poll.Ready(Unit);
      }
      net.PollNetwork();
      net.Unlock();
    }

    method ConnectStart(remote: Endpoint, localPort: nat, routable: bool) returns (r: Result<(), ConnectError>)
      requires Ready()
      modifies net, net.socket
      ensures MutSection()
      ensures match ConnectTo(old(net.socket.View()), remote, localPort, routable)
              case Ok(e) =>
                r == Ok(()) && net.socket.View() == e.sock && net.socket.woken == old(net.socket.woken) + e.woken
              case Err(why) =>
                && r == Err(if why.OpenInvalidState? then ConnectInvalidState else NoRoute)
                && net.socket.View() == old(net.socket.View()) && net.socket.woken == old(net.socket.woken)
    {
      net.Lock();
      var connecting := ConnectTo(net.socket.View(), remote, localPort, routable);
      match connecting {
        case Ok(e) =>
          net.socket.Become(e);
          r := Ok(());
        case Err(OpenInvalidState) => r := Err(ConnectInvalidState);
        case Err(OpenUnaddressable) => r := Err(NoRoute);
      }
      net.PollNetwork();
      net.Unlock();
    }

    method PollConnect(cx: Task) returns (r: Poll<Outcome>)
      requires Ready()
      modifies net, net.socket
      ensures Polls(Connect, cx, r)
    {
      net.Lock();
      match net.socket.state {
        case Closed | TimeWait => r := Poll.Ready(ConnReset);
        case Listen => r := Poll.Ready(Unreachable);
        case SynSent | SynReceived =>
          net.socket.RegisterSendWaker(cx);
          r := Pending;
        case _ => r := Poll.Ready(Unit);
      }
      net.PollNetwork();
      net.Unlock();
    }

    method AcceptStart(port: nat) returns (r: Result<(), AcceptError>)
      requires Ready()
      modifies net, net.socket
      ensures MutSection()
      ensures match ListenOn(old(net.socket.View()), port)
              case Ok(e) =>
                r == Ok(()) && net.socket.View() == e.sock && net.socket.woken == old(net.socket.woken) + e.woken
              case Err(why) =>
                && r == Err(if why.ListenInvalidState? then AcceptInvalidState else InvalidPort)
                && net.socket.View() == old(net.socket.View()) && net.socket.woken == old(net.socket.woken)
    {
      net.Lock();
      var listening := ListenOn(net.socket.View(), port);
      match listening {
        case Ok(e) =>
          net.socket.Become(e);
          r := Ok(());
        case Err(ListenInvalidState) => r := Err(AcceptInvalidState);
        case Err(ListenUnaddressable) => r := Err(InvalidPort);
      }
      net.PollNetwork();
      net.Unlock();
    }

    method PollAccept(cx: Task) returns (r: Poll<Outcome>)
      requires Ready()
      modifies net, net.socket
      ensures Polls(Accept, cx, r)
    {
      net.Lock();
      match net.socket.state {
        case Listen | SynSent | SynReceived =>
          net.socket.RegisterSendWaker(cx);
          r := Pending;
        case _ => r := Poll.Ready(Unit);
      }
      net.PollNetwork();
      net.Unlock();
    }

    method Close()
      requires Ready()
      modifies net, net.socket
      ensures MutSection()
      ensures net.socket.View() == Tcp.Close(old(net.socket.View())).sock
      ensures net.socket.woken == old(net.socket.woken) + Tcp.Close(old(net.socket.View())).woken
    {
      net.Lock();
      net.socket.Become(Tcp.Close(net.socket.View()));
      net.PollNetwork();
      net.Unlock();
    }

    method Abort()
      requires Ready()
      modifies net, net.socket
      ensures MutSection()
      ensures net.socket.View() == Tcp.Abort(old(net.socket.View())).sock
      ensures net.socket.woken == old(net.socket.woken) + Tcp.Abort(old(net.socket.View())).woken
    {
      net.Lock();
      net.socket.Become(Tcp.Abort(net.socket.View()));
      net.PollNetwork();
      net.Unlock();
    }

    // `set_timeout` and `set_keep_alive`: a section that leaves the modelled part of the socket alone.
    method Configure()
      requires Ready()
      modifies net
      ensures MutSection()
    {
      net.Lock();
      net.PollNetwork();
      net.Unlock();
    }

    method IsOpen() returns (open: bool)
      requires Ready()
      modifies net
      ensures open == net.socket.View().IsOpen()
      ensures net.trace == old(net.trace) + READ_SECTION && net.requested == old(net.requested) && Ready()
    {
      net.Lock();
      open := net.socket.View().IsOpen();
      net.Unlock();
    }

    /**
     One poll of `disconnect` after its `close`. The check and the registration are two separate
     sections: the network runs in between, and what it does there is returned as `between`.
     */
    method PollDisconnect(cx: Task) returns (r: Poll<Outcome>, ghost between: seq<NetStep>)
      requires Ready()
      modifies net, net.socket
      ensures Ready() && NetLegal(old(net.socket.View()), between)
      ensures r == if old(net.socket.View()).IsOpen() then Pending else Poll.Ready(Unit)
      ensures r.Ready? ==> between == [] && net.socket.View() == old(net.socket.View())
                           && net.trace == old(net.trace) + READ_SECTION
      ensures r.Pending? ==>
                && net.socket.View() == RegisterRecv(NetFinal(old(net.socket.View()), between).sock, cx)
                && net.socket.woken == old(net.socket.woken) + NetFinal(old(net.socket.View()), between).woken
                && net.trace == old(net.trace) + READ_SECTION + MUT_SECTION
    {
      between := [];
      var open := IsOpen();
      if open {
        between := net.socket.Interfere();
        NetRunKeepsInv(old(net.socket.View()), between);
        net.Lock();
        net.socket.RegisterRecvWaker(cx);
        net.PollNetwork();
        net.Unlock();
        r := Pending;
      } else {
        r := Poll.Ready(Unit);
      }
    }
  }

  /** The future of `read_with`: it owns the closure until the poll that uses it. */
  class ReadWithFuture {
    const io: SocketInner
    var f: Option<seq<Byte> -> nat>
    // The slices the closure has been shown.
    ghost var shown: seq<seq<Byte>>

    constructor (io: SocketInner, f: seq<Byte> -> nat)
      ensures this.io == io && this.f == Some(f) && shown == []
    {
      this.io := io;
      this.f := Some(f);
      shown := [];
    }

    /** The closure runs at most once, and only on octets that were there. */
    ghost predicate Valid()
      reads this
    {
      |shown| <= 1 && (f.Some? <==> shown == []) && (forall slice :: slice in shown ==> slice != [])
    }

    method Poll(cx: Task) returns (r: Poll<Outcome>)
      requires Valid() && io.Ready()
      requires f.Some? ==> Honest(io.net.socket.View(), ReadWith(f.value))
      modifies this, io.net, io.net.socket
      ensures Valid()
      ensures old(f).Some? ==> io.Polls(ReadWith(old(f).value), cx, r)
      ensures old(f).Some? ==> (f.None? <==> old(io.net.socket.View()).CanRecv())
      ensures old(f).None? ==> f.None? && shown == old(shown) && io.MutSection()
      ensures old(f).None? && old(io.net.socket.View()).CanRecv() ==>
                r == Pending && io.net.socket.View() == old(io.net.socket.View())
      ensures old(f).None? && !old(io.net.socket.View()).CanRecv() ==>
                if old(io.net.socket.View()).MayRecv()
                then r == Pending && io.net.socket.View() == RegisterRecv(old(io.net.socket.View()), cx)
                else r == Prelude.Poll.Ready(ConnReset) && io.net.socket.View() == old(io.net.socket.View())
    {
      var s := io.net.socket;
      io.net.Lock();
      if !s.View().CanRecv() {
        if s.View().MayRecv() {
          s.RegisterRecvWaker(cx);
          r := Pending;
        } else {
          r := Prelude.Poll.Ready(ConnReset);
        }
      } else if f.Some? {
        ClosuresSeeAWindow(s.View());
        shown := shown + [Shown(s.View())];
        var got := s.Recv(f.value);
        f := None;
        match got {
          case Err(_) => r := Prelude.Poll.Ready(ConnReset);
          case Ok(bytes) => r := Prelude.Poll.Ready(Bytes(bytes));
        }
        PollKeepsInv(old(s.View()), ReadWith(old(f).value), cx);
      } else {
        // Poll after completion.
        r := Pending;
      }
      io.net.PollNetwork();
      io.net.Unlock();
    }
  }

  /** The future of `write_with`. */
  class WriteWithFuture {
    const io: SocketInner
    var f: Option<nat -> seq<Byte>>
    // The sizes of the windows the closure has been given.
    ghost var offered: seq<nat>

    constructor (io: SocketInner, f: nat -> seq<Byte>)
      ensures this.io == io && this.f == Some(f) && offered == []
    {
      this.io := io;
      this.f := Some(f);
      offered := [];
    }

    ghost predicate Valid()
      reads this
    {
      |offered| <= 1 && (f.Some? <==> offered == []) && (forall room :: room in offered ==> room > 0)
    }

    method Poll(cx: Task) returns (r: Poll<Outcome>)
      requires Valid() && io.Ready()
      requires f.Some? ==> Honest(io.net.socket.View(), WriteWith(f.value))
      modifies this, io.net, io.net.socket
      ensures Valid()
      ensures old(f).Some? ==> io.Polls(WriteWith(old(f).value), cx, r)
      ensures old(f).Some? ==> (f.None? <==> old(io.net.socket.View()).CanSend())
      ensures old(f).None? ==> f.None? && offered == old(offered) && io.MutSection()
      ensures old(f).None? && old(io.net.socket.View()).CanSend() ==>
                r == Pending && io.net.socket.View() == old(io.net.socket.View())
      ensures old(f).None? && !old(io.net.socket.View()).CanSend() ==>
                if old(io.net.socket.View()).MaySend()
                then r == Pending && io.net.socket.View() == RegisterSend(old(io.net.socket.View()), cx)
                else r == Prelude.Poll.Ready(ConnReset) && io.net.socket.View() == old(io.net.socket.View())
    {
      var s := io.net.socket;
      io.net.Lock();
      if !s.View().CanSend() {
        if s.View().MaySend() {
          s.RegisterSendWaker(cx);
          r := Pending;
        } else {
          r := Prelude.Poll.Ready(ConnReset);
        }
      } else if f.Some? {
        ClosuresSeeAWindow(s.View());
        offered := offered + [Back(s.tx)];
        var put := s.Send(f.value);
        f := None;
        match put {
          case Err(_) => r := Prelude.Poll.Ready(ConnReset);
          case Ok(n) => r := Prelude.Poll.Ready(Count(n));
        }
        PollKeepsInv(old(s.View()), WriteWith(old(f).value), cx);
      } else {
        // Poll after completion.
        r := Pending;
      }
      io.net.PollNetwork();
      io.net.Unlock();
    }
  }
}
