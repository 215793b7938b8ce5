/**
 The part of smoltcp's `tcp::Socket` that the async wrapper leans on, as a value.
 smoltcp itself is not in the repository: everything here is an ASSUMPTION about it,
 taken from what `src/socket.rs` documents and relies on.

   - every change of state wakes, and empties, both waker slots;
   - arriving data wakes the receive slot, an ACK that dequeues data wakes the send slot;
   - emitting the RST owed after an abort clears the remote endpoint and wakes the send slot;
   - SYN-RECEIVED goes back to LISTEN on a RST only after a passive open
     (section 3.10.7.4 of RFC 9293);
   - the end of TIME-WAIT recycles the socket, buffers and FIN mark included.
 */
module Tcp {
  import opened Prelude

  newtype Byte = x: int | 0 <= x < 256

  type Task = nat

  datatype Endpoint = Endpoint(addr: nat, port: nat)

  // Section 3.3.2 of RFC 9293.
  datatype State =
    | Closed | Listen | SynSent | SynReceived | Established | FinWait1 | FinWait2
    | CloseWait | Closing | LastAck | TimeWait

  /** A ring buffer: `start` is where the oldest octet sits in the storage of `cap` octets. */
  datatype RawRing = Ring(cap: nat, start: nat, data: seq<Byte>) {
    predicate Valid() { |data| <= cap && (start < cap || start == 0) }

    predicate Full() { |data| == cap }

    function Wrap(i: nat): nat { if i >= cap then i - cap else i }
  }

  type Ring = r: RawRing | r.Valid() witness Ring(0, 0, [])

  function EmptyRing(cap: nat): Ring { Ring(cap, 0, []) }

  function Free(r: Ring): nat { r.cap - |r.data| }

  // How many octets can be read, or written, without crossing the end of the storage.
  function Front(r: Ring): nat { Min(|r.data|, r.cap - r.start) }

  function Back(r: Ring): (n: nat)
    ensures n <= Free(r)
  {
    var at := if r.data == [] then 0 else r.Wrap(r.start + |r.data|);
    Min(Free(r), r.cap - at)
  }

  // Enqueueing octets by the user rewinds an empty ring; the network fills it where it stands.
  function Push(r: Ring, bytes: seq<Byte>): Ring
    requires |bytes| <= Free(r)
  {
    if bytes == [] then r else Ring(r.cap, if r.data == [] then 0 else r.start, r.data + bytes)
  }

  function Fill(r: Ring, bytes: seq<Byte>): Ring
    requires |bytes| <= Free(r)
  {
    Ring(r.cap, r.start, r.data + bytes)
  }

  function Pop(r: Ring, n: nat): Ring
    requires n <= |r.data|
  {
    Ring(r.cap, r.Wrap(r.start + n), r.data[n..])
  }

  /** `listenPort` is 0 unless the socket was opened passively, `localPort` unless it was opened actively. */
  datatype Sock = Sock(
    state: State,
    listenPort: nat,
    localPort: nat,
    remote: Option<Endpoint>,
    fin: bool,
    rx: Ring,
    tx: Ring,
    rxWaker: Option<Task>,
    txWaker: Option<Task>)
  {
    predicate IsOpen() { state != Closed && state != TimeWait }

    predicate MaySend() { state == Established || state == CloseWait }

    predicate CanSend() { MaySend() && !tx.Full() }

    predicate Receiving() { state == Established || state == FinWait1 || state == FinWait2 }

    predicate MayRecv() { Receiving() || rx.data != [] }

    predicate CanRecv() { MayRecv() && rx.data != [] }

    // Our own FIN is (or will be, once the queue is empty) on its way and not acknowledged.
    predicate FinOutstanding() { state == FinWait1 || state == Closing || state == LastAck }

    predicate Handshaking() { state == Listen || state == SynSent || state == SynReceived }

    function RxHolder(): set<Task> { if rxWaker.Some? then {rxWaker.value} else {} }

    function TxHolder(): set<Task> { if txWaker.Some? then {txWaker.value} else {} }

    function Holders(): set<Task> { RxHolder() + TxHolder() }

    function To(next: State): Sock { this.(state := next, rxWaker := None, txWaker := None) }

    function Recycled(): Sock { Sock(Closed, 0, 0, None, false, EmptyRing(rx.cap), EmptyRing(tx.cap), None, None) }

    /** What holds of a socket at every moment of every run. */
    predicate Inv() {
      && (state in {CloseWait, LastAck, Closing, TimeWait} ==> fin)
      && (Receiving() || Handshaking() ==> !fin)
      && (state in {FinWait2, TimeWait} ==> tx.data == [])
      && (Handshaking() ==> rx.data == [] && tx.data == [])
      && (state == Listen ==> listenPort != 0 && remote == None)
      && (state == SynSent ==> listenPort == 0)
      && (state != Closed && state != Listen ==> remote.Some?)
    }
  }

  /** A socket after a call or a segment, and the tasks that were woken on the way. */
  datatype Effect = Effect(sock: Sock, woken: set<Task>)

  /** What the network can do to a socket between two lock sections of its owner. */
  datatype NetStep =
    | Syn(from: Endpoint)
    | SynAck
    | SimultaneousSyn
    | HandshakeDone
    | Data(bytes: seq<Byte>)
    | Ack(count: nat)
    | PeerFin
    | FinAcked
    | RstIn
    | GiveUp
    | RstOut
    | TimeWaitOver

  predicate NetEnabled(s: Sock, n: NetStep) {
    match n
    case Syn(_) => s.state == Listen
    case SynAck => s.state == SynSent
    case SimultaneousSyn => s.state == SynSent
    case HandshakeDone => s.state == SynReceived
    case Data(bytes) => s.Receiving() && bytes != [] && |bytes| <= Free(s.rx)
    case Ack(count) => (s.MaySend() || s.FinOutstanding()) && 0 < count <= |s.tx.data|
    case PeerFin => s.Receiving()
    case FinAcked => s.FinOutstanding() && s.tx.data == []
    case RstIn => s.state != Closed && s.state != Listen
    case GiveUp => s.state != Closed && s.state != Listen
    case RstOut => s.state == Closed && s.remote.Some?
    case TimeWaitOver => s.state == TimeWait
  }

  function Net(s: Sock, n: NetStep): Effect
    requires NetEnabled(s, n)
  {
    match n
    case Syn(from) => Effect(s.To(SynReceived).(remote := Some(from)), s.Holders())
    case SynAck => Effect(s.To(Established), s.Holders())
    case SimultaneousSyn => Effect(s.To(SynReceived), s.Holders())
    case HandshakeDone => Effect(s.To(Established), s.Holders())
    case Data(bytes) => Effect(s.(rx := Fill(s.rx, bytes), rxWaker := None), s.RxHolder())
    case Ack(count) => Effect(s.(tx := Pop(s.tx, count), txWaker := None), s.TxHolder())
    case PeerFin =>
      var next := if s.state == Established then CloseWait else if s.state == FinWait1 then Closing else TimeWait;
      Effect(s.To(next).(fin := true), s.Holders())
    case FinAcked =>
      if s.state == LastAck then Effect(s.To(Closed).(remote := None), s.Holders())
      else Effect(s.To(if s.state == FinWait1 then FinWait2 else TimeWait), s.Holders())
    case RstIn =>
      var next := if s.state == SynReceived && s.listenPort != 0 then Listen else Closed;
      Effect(s.To(next).(remote := None), s.Holders())
    case GiveUp => Effect(s.To(Closed), s.Holders())
    case RstOut => Effect(s.(remote := None, txWaker := None), s.TxHolder())
    case TimeWaitOver => Effect(s.Recycled(), s.Holders())
  }

  // ---- Calls the wrapper makes on the socket ------------------------------------------------

  datatype ListenError = ListenInvalidState | ListenUnaddressable
  datatype OpenError = OpenInvalidState | OpenUnaddressable

  function Close(s: Sock): Effect {
    match s.state
    case Listen => Effect(s.To(Closed), s.Holders())
    case SynSent => Effect(s.To(Closed), s.Holders())
    case SynReceived => Effect(s.To(FinWait1), s.Holders())
    case Established => Effect(s.To(FinWait1), s.Holders())
    case CloseWait => Effect(s.To(LastAck), s.Holders())
    case _ => Effect(s, {})
  }

  function Abort(s: Sock): Effect { Effect(s.To(Closed), s.Holders()) }

  function ListenOn(s: Sock, port: nat): Result<Effect, ListenError> {
    if port == 0 then Err(ListenUnaddressable)
    else if s.IsOpen() then
      if s.state == Listen && s.listenPort == port then Ok(Effect(s, {})) else Err(ListenInvalidState)
    else Ok(Effect(s.Recycled().(state := Listen, listenPort := port), s.Holders()))
  }

  function ConnectTo(s: Sock, remote: Endpoint, localPort: nat, routable: bool): Result<Effect, OpenError> {
    if s.IsOpen() then Err(OpenInvalidState)
    else if remote.port == 0 || remote.addr == 0 || localPort == 0 || !routable then Err(OpenUnaddressable)
    else Ok(Effect(s.Recycled().(state := SynSent, localPort := localPort, remote := Some(remote)), s.Holders()))
  }

  function RegisterRecv(s: Sock, t: Task): Sock { s.(rxWaker := Some(t)) }

  function RegisterSend(s: Sock, t: Task): Sock { s.(txWaker := Some(t)) }

  // ---- Runs of the network alone ------------------------------------------------------------

  ghost predicate NetLegal(s: Sock, ns: seq<NetStep>)
    decreases |ns|
  {
    ns == [] || (NetEnabled(s, ns[0]) && NetLegal(Net(s, ns[0]).sock, ns[1..]))
  }

  ghost function NetFinal(s: Sock, ns: seq<NetStep>): Effect
    requires NetLegal(s, ns)
    decreases |ns|
  {
    if ns == [] then Effect(s, {})
    else
      var first := Net(s, ns[0]);
      var rest := NetFinal(first.sock, ns[1..]);
      Effect(rest.sock, first.woken + rest.woken)
  }

  lemma NetKeepsInv(s: Sock, n: NetStep)
    requires s.Inv() && NetEnabled(s, n)
    ensures Net(s, n).sock.Inv()
  {
  }

  lemma CallsKeepInv(s: Sock, port: nat, remote: Endpoint, localPort: nat, routable: bool)
    requires s.Inv()
    ensures Close(s).sock.Inv() && Abort(s).sock.Inv()
    ensures ListenOn(s, port).Ok? ==> ListenOn(s, port).value.sock.Inv()
    ensures ConnectTo(s, remote, localPort, routable).Ok? ==>
              ConnectTo(s, remote, localPort, routable).value.sock.Inv()
  {
  }

  lemma {:induction false} NetRunKeepsInv(s: Sock, ns: seq<NetStep>)
    requires s.Inv() && NetLegal(s, ns)
    ensures NetFinal(s, ns).sock.Inv()
    decreases |ns|
  {
    if ns != [] {
      NetKeepsInv(s, ns[0]);
      NetRunKeepsInv(Net(s, ns[0]).sock, ns[1..]);
    }
  }

  /** No segment and no timer ever opens a socket that is CLOSED or in TIME-WAIT. */
  lemma {:induction false} NotOpenIsStable(s: Sock, ns: seq<NetStep>)
    requires !s.IsOpen() && NetLegal(s, ns)
    ensures !NetFinal(s, ns).sock.IsOpen()
    decreases |ns|
  {
    if ns != [] {
      NotOpenIsStable(Net(s, ns[0]).sock, ns[1..]);
    }
  }
}
