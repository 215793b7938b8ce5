/**
 Two sockets joined by a reliable link that keeps order, from the handshake on: end A connects, end B
 listens, and what one end writes the other reads. Either end may close, abort, time out or be reset
 at any moment; neither is reopened.

 `takenA` counts the octets at the front of a's send queue that b already has: the octets whose
 acknowledgement is on its way back. `syn` and `synAck` say which segments of the handshake have
 arrived, and so what may be on its way in answer.
 */
module Stream {
  import opened Prelude
  import opened Tcp
  import opened Socket
  import opened SocketRuns
  import opened SocketGuarantees

  datatype End = A | B

  function Other(e: End): End { if e == A then B else A }

  datatype Link = Link(a: World, b: World, takenA: nat, takenB: nat, syn: bool, synAck: bool) {
    function At(e: End): World { if e == A then a else b }

    function Taken(e: End): nat { if e == A then takenA else takenB }

    function Set(e: End, w: World): Link { if e == A then this.(a := w) else this.(b := w) }

    function SetTaken(e: End, n: nat): Link { if e == A then this.(takenA := n) else this.(takenB := n) }
  }

  datatype Move =
    | Local(e: End, l: Label)         // the owner of e runs, or e's connection ends on its own
    | CarrySyn(client: Endpoint)      // B takes A's SYN
    | CarrySynAck                     // A takes the answer to it
    | CarryHandshake                  // B takes the acknowledgement of that
    | Carry(from: End, count: nat)    // a segment with the next `count` octets arrives
    | Acknowledge(to: End, count: nat)
    | CarryFin(from: End)
    | AcknowledgeFin(to: End)

  function Opened(owner: Task, s: Sock): World { World(s, owner, true, false, false, [], FRESH) }

  /** What `connect` makes of a socket, and what `listen` does. */
  function Connecting(owner: Task, peer: Endpoint, port: nat, rxCap: nat, txCap: nat): World {
    Opened(owner, Sock(SynSent, 0, port, Some(peer), false, EmptyRing(rxCap), EmptyRing(txCap), None, None))
  }

  function Listening(owner: Task, port: nat, rxCap: nat, txCap: nat): World {
    Opened(owner, Sock(Listen, port, 0, None, false, EmptyRing(rxCap), EmptyRing(txCap), None, None))
  }

  predicate LocalLabel(l: Label) {
    match l
    case Segment(n) => n == RstIn || n == GiveUp || n == RstOut || n == TimeWaitOver
    case ListenCall(_) => false
    case ConnectCall(_, _, _) => false
    case _ => true
  }

  // A state in which the octets of the send queue are (re)transmitted.
  predicate Transmits(s: Sock) { s.MaySend() || s.FinOutstanding() }

  function Chunk(k: Link, from: End, count: nat): seq<Byte>
    requires k.Taken(from) + count <= |k.At(from).sock.tx.data|
  {
    k.At(from).sock.tx.data[k.Taken(from)..k.Taken(from) + count]
  }

  /** Every move is one label of the world at one end. */
  function EndOf(m: Move): End {
    match m
    case Local(e, _) => e
    case CarrySyn(_) | CarryHandshake => B
    case CarrySynAck => A
    case Carry(from, _) => Other(from)
    case CarryFin(from) => Other(from)
    case Acknowledge(to, _) => to
    case AcknowledgeFin(to) => to
  }

  function LabelOf(k: Link, m: Move): Label
    requires m.Carry? ==> k.Taken(m.from) + m.count <= |k.At(m.from).sock.tx.data|
  {
    match m
    case Local(_, l) => l
    case CarrySyn(client) => Segment(Syn(client))
    case CarrySynAck => Segment(SynAck)
    case CarryHandshake => Segment(HandshakeDone)
    case Carry(from, count) => Segment(Data(Chunk(k, from, count)))
    case Acknowledge(_, count) => Segment(Ack(count))
    case CarryFin(_) => Segment(PeerFin)
    case AcknowledgeFin(_) => Segment(FinAcked)
  }

  // The segment is on its way.
  ghost predicate Sent(k: Link, m: Move) {
    match m
    case Local(_, l) => LocalLabel(l)
    case CarrySyn(_) => k.a.sock.state == SynSent
    case CarrySynAck => k.syn
    case CarryHandshake => k.synAck
    case Carry(from, count) =>
      Transmits(k.At(from).sock) && 0 < count && k.Taken(from) + count <= |k.At(from).sock.tx.data|
    case Acknowledge(to, count) => count <= k.Taken(to)
    case CarryFin(from) => k.At(from).sock.FinOutstanding() && k.Taken(from) == |k.At(from).sock.tx.data|
    case AcknowledgeFin(to) => k.At(Other(to)).h.peerFin
  }

  ghost predicate CanMove(k: Link, m: Move) { Sent(k, m) && Enabled(k.At(EndOf(m)), LabelOf(k, m)) }

  // What the link remembers of a move.
  function Noted(k: Link, m: Move): Link
    requires m.Acknowledge? ==> m.count <= k.Taken(m.to)
  {
    match m
    case CarrySyn(_) => k.(syn := true)
    case CarrySynAck => k.(synAck := true)
    case Carry(from, count) => k.SetTaken(from, k.Taken(from) + count)
    case Acknowledge(to, count) => k.SetTaken(to, k.Taken(to) - count)
    case _ => k
  }

  function Make(k: Link, m: Move): Link
    requires CanMove(k, m)
  {
    Noted(k.Set(EndOf(m), Do(k.At(EndOf(m)), LabelOf(k, m))), m)
  }

  ghost predicate Playable(k: Link, ms: seq<Move>)
    decreases |ms|
  {
    ms == [] || (CanMove(k, ms[0]) && Playable(Make(k, ms[0]), ms[1..]))
  }

  ghost function Played(k: Link, ms: seq<Move>): Link
    requires Playable(k, ms)
    decreases |ms|
  {
    if ms == [] then k else Played(Make(k, ms[0]), ms[1..])
  }

  /** One direction: what `y` has been delivered is what `x` was told is acknowledged, and what is under way. */
  ghost predicate Half(x: World, y: World, taken: nat) {
    && taken <= |x.sock.tx.data|
    && y.h.delivered == x.h.acked + x.sock.tx.data[..taken]
    && (y.h.peerFin ==> taken == |x.sock.tx.data| && !x.sock.MaySend() && !x.sock.Handshaking())
  }

  ghost predicate Halves(x: World, y: World, takenX: nat, takenY: nat) { Half(x, y, takenX) && Half(y, x, takenY) }

  ghost predicate LinkInv(k: Link) { Inv(k.a) && Inv(k.b) && Halves(k.a, k.b, k.takenA, k.takenB) }

  // What a step that carries nothing between the ends leaves as it was.
  ghost predicate StaysLocal(w: World, after: World) {
    && (after.sock.Handshaking() ==> w.sock.Handshaking())
    && after.h.delivered == w.h.delivered && after.h.peerFin == w.h.peerFin
    && after.h.acked == w.h.acked && w.sock.tx.data <= after.sock.tx.data
    && (after.sock.MaySend() ==> w.sock.MaySend())
    && (!w.sock.MaySend() ==> after.sock.tx.data == w.sock.tx.data)
  }

  lemma PollStaysLocal(w: World, op: Op)
    requires Inv(w) && Enabled(w, PollFuture(op))
    ensures StaysLocal(w, Do(w, PollFuture(op)))
  {
    PollMovesBytes(w.sock, op, w.owner);
    PollKeepsInv(w.sock, op, w.owner);
  }

  lemma CallStaysLocal(w: World, l: Label)
    requires Inv(w) && Enabled(w, l) && (l.CloseCall? || l.AbortCall?)
    ensures StaysLocal(w, Do(w, l))
  {
  }

  lemma LossStaysLocal(w: World, n: NetStep)
    requires Inv(w) && LocalLabel(Segment(n)) && NetEnabled(w.sock, n)
    ensures StaysLocal(w, Do(w, Segment(n)))
  {
  }

  lemma LocalStep(w: World, l: Label)
    requires Inv(w) && LocalLabel(l) && Enabled(w, l)
    ensures StaysLocal(w, Do(w, l))
  {
    if l.PollFuture? {
      PollStaysLocal(w, l.op);
    } else if l.CloseCall? || l.AbortCall? {
      CallStaysLocal(w, l);
    } else if l.Segment? {
      LossStaysLocal(w, l.n);
    }
  }

  lemma LocalKeeps(x: World, l: Label, y: World, takenX: nat, takenY: nat)
    requires Inv(x) && Halves(x, y, takenX, takenY) && LocalLabel(l) && Enabled(x, l)
    ensures Halves(Do(x, l), y, takenX, takenY)
  {
    LocalStep(x, l);
    assert Do(x, l).sock.tx.data[..takenX] == x.sock.tx.data[..takenX];
  }

  lemma TakeMore(acked: seq<Byte>, tx: seq<Byte>, taken: nat, count: nat)
    requires taken + count <= |tx|
    ensures acked + tx[..taken] + tx[taken..taken + count] == acked + tx[..taken + count]
  {
  }

  lemma AckMore(acked: seq<Byte>, tx: seq<Byte>, taken: nat, count: nat)
    requires count <= taken <= |tx|
    ensures acked + tx[..count] + tx[count..][..taken - count] == acked + tx[..taken]
  {
  }

  lemma CarryKeeps(x: World, y: World, bytes: seq<Byte>, count: nat, takenX: nat, takenY: nat)
    requires Halves(x, y, takenX, takenY) && takenX + count <= |x.sock.tx.data|
    requires bytes == x.sock.tx.data[takenX..takenX + count] && Enabled(y, Segment(Data(bytes))) && Inv(y)
    ensures Halves(x, Do(y, Segment(Data(bytes))), takenX + count, takenY)
  {
    TakeMore(x.h.acked, x.sock.tx.data, takenX, count);
  }

  lemma AckKeeps(x: World, y: World, count: nat, takenX: nat, takenY: nat)
    requires Halves(x, y, takenX, takenY) && count <= takenX && Enabled(x, Segment(Ack(count)))
    ensures Halves(Do(x, Segment(Ack(count))), y, takenX - count, takenY)
  {
    AckMore(x.h.acked, x.sock.tx.data, takenX, count);
  }

  // A FIN is taken after everything that was written before it.
  lemma FinKeeps(x: World, y: World, takenX: nat, takenY: nat)
    requires Halves(x, y, takenX, takenY) && x.sock.FinOutstanding() && takenX == |x.sock.tx.data|
    requires Enabled(y, Segment(PeerFin))
    ensures Halves(x, Do(y, Segment(PeerFin)), takenX, takenY)
  {
  }

  // Nor do its acknowledgement and the segments of a handshake carry octets.
  lemma ControlKeeps(x: World, n: NetStep, y: World, takenX: nat, takenY: nat)
    requires Inv(x) && Halves(x, y, takenX, takenY) && NetEnabled(x.sock, n)
    requires n.Syn? || n.SynAck? || n.HandshakeDone? || n.FinAcked?
    ensures Halves(Do(x, Segment(n)), y, takenX, takenY)
  {
  }

  ghost predicate HalvesAt(k: Link, e: End) { Halves(k.At(e), k.At(Other(e)), k.Taken(e), k.Taken(Other(e))) }

  // Seen from either end, it is the same.
  lemma Sides(k: Link, e: End)
    ensures HalvesAt(k, e) <==> Halves(k.a, k.b, k.takenA, k.takenB)
  {
  }

  // What a move leaves at its own end and at the other.
  lemma NotedSides(k: Link, m: Move, w: World)
    requires m.Acknowledge? ==> m.count <= k.Taken(m.to)
    ensures var after, e := Noted(k.Set(EndOf(m), w), m), EndOf(m);
            && after.At(e) == w && after.At(Other(e)) == k.At(Other(e))
            && after.Taken(e) == k.Taken(e) - (if m.Acknowledge? then m.count else 0)
            && after.Taken(Other(e)) == k.Taken(Other(e)) + (if m.Carry? then m.count else 0)
  {
  }

  lemma LabelKeepsHalves(k: Link, m: Move, x: World, y: World, takenX: nat, takenY: nat)
    requires CanMove(k, m) && x == k.At(EndOf(m)) && y == k.At(Other(EndOf(m)))
    requires takenX == k.Taken(EndOf(m)) && takenY == k.Taken(Other(EndOf(m)))
    requires Inv(x) && Halves(x, y, takenX, takenY)
    ensures Halves(Do(x, LabelOf(k, m)), y,
                   takenX - (if m.Acknowledge? then m.count else 0), takenY + (if m.Carry? then m.count else 0))
  {
    if m.Local? {
      LocalKeeps(x, m.l, y, takenX, takenY);
    } else if m.Carry? {
      CarryKeeps(y, x, Chunk(k, m.from, m.count), m.count, takenY, takenX);
    } else if m.Acknowledge? {
      AckKeeps(x, y, m.count, takenX, takenY);
    } else if m.CarryFin? {
      FinKeeps(y, x, takenY, takenX);
    } else {
      ControlKeeps(x, LabelOf(k, m).n, y, takenX, takenY);
    }
  }

  lemma MoveKeepsHalves(k: Link, m: Move)
    requires Inv(k.At(EndOf(m))) && HalvesAt(k, EndOf(m)) && CanMove(k, m)
    ensures HalvesAt(Make(k, m), EndOf(m))
  {
    var e := EndOf(m);
    LabelKeepsHalves(k, m, k.At(e), k.At(Other(e)), k.Taken(e), k.Taken(Other(e)));
    NotedSides(k, m, Do(k.At(e), LabelOf(k, m)));
  }

  lemma MoveKeepsWorlds(k: Link, m: Move)
    requires Inv(k.At(EndOf(m))) && Inv(k.At(Other(EndOf(m)))) && CanMove(k, m)
    ensures Inv(Make(k, m).At(EndOf(m))) && Inv(Make(k, m).At(Other(EndOf(m))))
  {
    StepKeepsInv(k.At(EndOf(m)), LabelOf(k, m));
    NotedSides(k, m, Do(k.At(EndOf(m)), LabelOf(k, m)));
  }

  lemma MoveKeepsInv(k: Link, m: Move)
    requires LinkInv(k) && CanMove(k, m)
    ensures LinkInv(Make(k, m))
  {
    MoveKeepsWorlds(k, m);
    Sides(k, EndOf(m));
    MoveKeepsHalves(k, m);
    Sides(Make(k, m), EndOf(m));
  }

  lemma {:induction false} PlayKeepsInv(k: Link, ms: seq<Move>)
    requires LinkInv(k) && Playable(k, ms)
    ensures LinkInv(Played(k, ms))
    decreases |ms|
  {
    if ms != [] {
      MoveKeepsInv(k, ms[0]);
      PlayKeepsInv(Make(k, ms[0]), ms[1..]);
    }
  }

  /** A has called `connect`, B has called `listen`, and nothing has happened since. */
  ghost predicate Joined(k: Link) {
    exists ta, tb, peer, local, port, ra, rb, sa, sb ::
      port != 0 && k == Link(Connecting(ta, peer, local, ra, sa), Listening(tb, port, rb, sb), 0, 0, false, false)
  }

  lemma JoinedIsSound(k: Link)
    requires Joined(k)
    ensures LinkInv(k)
  {
  }

  /**
   Over every run of a link, in each direction and for ring buffers of any size: the octets read at
   one end are a prefix of those written at the other, and every octet written is read, waiting in
   the reader's ring, or waiting in the writer's ring, in that order.
   */
  lemma ReadsArePrefixOfWrites(k: Link, ms: seq<Move>, e: End)
    requires Joined(k) && Playable(k, ms)
    ensures var after := Played(k, ms);
            var writer, reader := after.At(e), after.At(Other(e));
            && reader.h.handed <= writer.h.accepted
            && after.Taken(e) <= |writer.sock.tx.data|
            && (!reader.h.expired ==>
                 writer.h.accepted == reader.h.handed + reader.sock.rx.data + writer.sock.tx.data[after.Taken(e)..])
  {
    JoinedIsSound(k);
    PlayKeepsInv(k, ms);
    var after := Played(k, ms);
    var writer, reader, taken := after.At(e), after.At(Other(e)), after.Taken(e);
    assert Half(writer, reader, taken);
    SplitWritten(writer, reader, taken);
  }

  lemma SplitWritten(writer: World, reader: World, taken: nat)
    requires Inv(writer) && Half(writer, reader, taken)
    ensures writer.h.accepted == reader.h.delivered + writer.sock.tx.data[taken..]
    ensures reader.h.delivered <= writer.h.accepted
  {
  }

  /**
   End of file, end to end: a reader that is told so has read everything the other end ever wrote,
   and the other end can write no more.
   */
  lemma EofMeansAllWasRead(k: Link, ms: seq<Move>, e: End, size: nat)
    requires Joined(k) && Playable(k, ms) && size > 0
    ensures var writer, reader := Played(k, ms).At(e), Played(k, ms).At(Other(e));
            PollOp(reader.sock, Read(size), reader.owner).reply == Poll.Ready(Bytes([])) ==>
              reader.h.handed == writer.h.accepted && !writer.sock.MaySend()
  {
    JoinedIsSound(k);
    PlayKeepsInv(k, ms);
    var after := Played(k, ms);
    var writer, reader, taken := after.At(e), after.At(Other(e)), after.Taken(e);
    assert Half(writer, reader, taken);
    EofAt(reader, size);
    SplitWritten(writer, reader, taken);
  }

  /** A flush that answers on a live socket has put every written octet into the other end's ring. */
  lemma FlushMeansDelivered(k: Link, ms: seq<Move>, e: End)
    requires Joined(k) && Playable(k, ms)
    ensures var writer, reader := Played(k, ms).At(e), Played(k, ms).At(Other(e));
            PollOp(writer.sock, Flush, writer.owner).reply.Ready? && writer.sock.state != Closed ==>
              reader.h.delivered == writer.h.accepted
  {
    JoinedIsSound(k);
    PlayKeepsInv(k, ms);
    var after := Played(k, ms);
    var writer, reader, taken := after.At(e), after.At(Other(e)), after.Taken(e);
    assert Half(writer, reader, taken);
    if PollOp(writer.sock, Flush, writer.owner).reply.Ready? {
      FlushAt(writer);
      SplitWritten(writer, reader, taken);
    }
  }

  /**
   The stream never stalls over a waiting reader: if its task sleeps in a read while octets the other
   end has written are still unread, the link can carry one, and carrying it wakes the reader.
   */
  lemma WaitingReaderIsServed(k: Link, ms: seq<Move>, e: End, size: nat)
    requires Joined(k) && Playable(k, ms)
    requires var writer, reader := Played(k, ms).At(e), Played(k, ms).At(Other(e));
             && Read(size) in reader.parked && !reader.pending && reader.sock.rx.cap > 0
             && writer.sock.state != Closed && writer.h.accepted != reader.h.handed
    ensures CanMove(Played(k, ms), Carry(e, 1))
    ensures Make(Played(k, ms), Carry(e, 1)).At(Other(e)).pending
  {
    JoinedIsSound(k);
    PlayKeepsInv(k, ms);
    ReaderIsServed(Played(k, ms), e, size);
  }

  lemma ReaderIsServed(k: Link, e: End, size: nat)
    requires LinkInv(k)
    requires var writer, reader := k.At(e), k.At(Other(e));
             && Read(size) in reader.parked && !reader.pending && reader.sock.rx.cap > 0
             && writer.sock.state != Closed && writer.h.accepted != reader.h.handed
    ensures CanMove(k, Carry(e, 1)) && Make(k, Carry(e, 1)).At(Other(e)).pending
  {
    var bytes := ReaderCanTake(k.At(e), k.At(Other(e)), k.Taken(e), size);
    assert Chunk(k, e, 1) == bytes;
  }

  lemma ReaderCanTake(writer: World, reader: World, taken: nat, size: nat) returns (bytes: seq<Byte>)
    requires Inv(writer) && Inv(reader) && Half(writer, reader, taken)
    requires Read(size) in reader.parked && !reader.pending && reader.sock.rx.cap > 0
    requires writer.sock.state != Closed && writer.h.accepted != reader.h.handed
    ensures taken < |writer.sock.tx.data| && Transmits(writer.sock)
    ensures bytes == writer.sock.tx.data[taken..taken + 1] && Enabled(reader, Segment(Data(bytes)))
    ensures Do(reader, Segment(Data(bytes))).pending
  {
    var i :| 0 <= i < |reader.parked| && reader.parked[i] == Read(size);
    assert Safe(reader, reader.parked[i]);
    assert reader.sock.rx.data == [] && reader.h.handed + [] == reader.h.handed;
    SplitWritten(writer, reader, taken);
    assert taken < |writer.sock.tx.data| by {
      assert reader.h.delivered + [] == reader.h.delivered;
    }
    bytes := writer.sock.tx.data[taken..taken + 1];
  }

  // A segment with the next octet finds its way into the reader's ring.
  predicate ReaderTakes(reader: World) {
    reader.sock.state != Closed && !reader.sock.Handshaking() && !reader.sock.rx.Full()
  }

  /**
   Nor over a waiting writer. While its task sleeps in a non-empty write, the link can move one of its
   octets, or the acknowledgement of one, exactly when the other end has octets of the queue already,
   or is past its handshake, not CLOSED, and has room for one. Either way it ends in an acknowledgement that wakes the
   writer and makes room for it.
   */
  lemma WaitingWriterIsServed(k: Link, ms: seq<Move>, e: End, bytes: seq<Byte>)
    requires Joined(k) && Playable(k, ms)
    requires var writer := Played(k, ms).At(e);
             Write(bytes) in writer.parked && !writer.pending && bytes != [] && writer.sock.tx.cap > 0
    ensures var after := Played(k, ms);
            && (CanMove(after, Acknowledge(e, 1)) || CanMove(after, Carry(e, 1)) <==>
                 after.Taken(e) > 0 || ReaderTakes(after.At(Other(e))))
            && (CanMove(after, Acknowledge(e, 1)) ==> AckWakes(after, e, bytes))
            && (CanMove(after, Carry(e, 1)) ==> AckWakes(Make(after, Carry(e, 1)), e, bytes))
  {
    JoinedIsSound(k);
    PlayKeepsInv(k, ms);
    WriterIsServed(Played(k, ms), e, bytes);
  }

  // The acknowledgement of one octet can arrive, wakes the writer and unblocks its write.
  ghost predicate AckWakes(k: Link, e: End, bytes: seq<Byte>) {
    && CanMove(k, Acknowledge(e, 1))
    && var writer := Make(k, Acknowledge(e, 1)).At(e);
       writer.pending && !Blocked(writer.sock, Write(bytes))
  }

  ghost predicate SleepsInWrite(writer: World, bytes: seq<Byte>) {
    Inv(writer) && Write(bytes) in writer.parked && !writer.pending && bytes != []
  }

  lemma WriterIsServed(k: Link, e: End, bytes: seq<Byte>)
    requires LinkInv(k) && SleepsInWrite(k.At(e), bytes) && k.At(e).sock.tx.cap > 0
    ensures CanMove(k, Acknowledge(e, 1)) || CanMove(k, Carry(e, 1)) <==> k.Taken(e) > 0 || ReaderTakes(k.At(Other(e)))
    ensures CanMove(k, Acknowledge(e, 1)) ==> AckWakes(k, e, bytes)
    ensures CanMove(k, Carry(e, 1)) ==> AckWakes(Make(k, Carry(e, 1)), e, bytes)
  {
    WriterIsFull(k.At(e), bytes);
    WhatCanMove(k, e);
    if k.Taken(e) > 0 {
      AckWakesWriter(k, e, bytes);
    }
    if CanMove(k, Carry(e, 1)) {
      AckWakesWriter(Make(k, Carry(e, 1)), e, bytes);
    }
  }

  lemma WhatCanMove(k: Link, e: End)
    requires LinkInv(k) && k.At(e).sock.MaySend() && k.At(e).sock.tx.data != []
    ensures CanMove(k, Acknowledge(e, 1)) <==> k.Taken(e) > 0
    ensures CanMove(k, Carry(e, 1)) <==> k.Taken(e) < |k.At(e).sock.tx.data| && ReaderTakes(k.At(Other(e)))
  {
    ReaderReceives(k.At(e), k.At(Other(e)), k.Taken(e));
  }

  lemma AckWakesWriter(k: Link, e: End, bytes: seq<Byte>)
    requires SleepsInWrite(k.At(e), bytes) && 0 < k.Taken(e) <= |k.At(e).sock.tx.data|
    ensures AckWakes(k, e, bytes)
  {
    AckServesWriter(k.At(e), bytes);
  }

  lemma WriterIsFull(writer: World, bytes: seq<Byte>)
    requires SleepsInWrite(writer, bytes)
    ensures writer.sock.MaySend() && writer.sock.tx.Full() && writer.sock.txWaker == Some(writer.owner)
  {
    var i :| 0 <= i < |writer.parked| && writer.parked[i] == Write(bytes);
    assert Safe(writer, writer.parked[i]);
  }

  // While the writer may send, the reader has not taken its FIN: it receives, or it is CLOSED.
  lemma ReaderReceives(writer: World, reader: World, taken: nat)
    requires Inv(reader) && Half(writer, reader, taken) && writer.sock.MaySend()
    ensures reader.sock.Receiving() <==> reader.sock.state != Closed && !reader.sock.Handshaking()
  {
  }

  lemma AckServesWriter(writer: World, bytes: seq<Byte>)
    requires SleepsInWrite(writer, bytes) && writer.sock.tx.data != []
    ensures Enabled(writer, Segment(Ack(1)))
    ensures Do(writer, Segment(Ack(1))).pending && !Blocked(Do(writer, Segment(Ack(1))).sock, Write(bytes))
  {
    WriterIsFull(writer, bytes);
  }

  // ---- How soon the rings empty -------------------------------------------------------------

  /** Each octet still has to be carried, unless it was, and then to be read. */
  function Left(k: Link, e: End): nat {
    var queued := |k.At(e).sock.tx.data|;
    2 * (if k.Taken(e) <= queued then queued - k.Taken(e) else 0) + |k.At(Other(e)).sock.rx.data|
  }

  // Octets written at e are carried, or the other end reads some.
  predicate Useful(k: Link, m: Move, e: End) {
    || (m.Carry? && m.from == e)
    || (m.Local? && m.e == Other(e) && m.l.PollFuture? && m.l.op.Read? && m.l.op.size > 0
        && k.At(Other(e)).sock.rx.data != [])
  }

  function Bit(b: bool): nat { if b then 1 else 0 }

  ghost function UsefulMoves(k: Link, ms: seq<Move>, e: End): nat
    requires Playable(k, ms)
    decreases |ms|
  {
    if ms == [] then 0 else Bit(Useful(k, ms[0], e)) + UsefulMoves(Make(k, ms[0]), ms[1..], e)
  }

  function Written(k: Link, e: End): nat { |k.At(e).h.accepted| }

  lemma WriterQueues(w: World, l: Label)
    requires Inv(w) && LocalLabel(l) && Enabled(w, l)
    ensures |Do(w, l).sock.tx.data| + |w.h.accepted| == |w.sock.tx.data| + |Do(w, l).h.accepted|
    ensures |Do(w, l).h.accepted| >= |w.h.accepted|
  {
    if l.PollFuture? {
      PollMovesBytes(w.sock, l.op, w.owner);
    }
  }

  lemma ReaderEmpties(w: World, l: Label)
    requires Inv(w) && LocalLabel(l) && Enabled(w, l)
    ensures |Do(w, l).sock.rx.data| <= |w.sock.rx.data|
    ensures l.PollFuture? && l.op.Read? && l.op.size > 0 && w.sock.rx.data != [] ==>
              |Do(w, l).sock.rx.data| < |w.sock.rx.data|
  {
    if l.PollFuture? {
      PollMovesBytes(w.sock, l.op, w.owner);
    }
  }

  // What is on its way back is still in the send queue.
  predicate Counted(k: Link) { k.takenA <= |k.a.sock.tx.data| && k.takenB <= |k.b.sock.tx.data| }

  // What a segment other than data or its acknowledgement leaves of a socket.
  lemma ControlKeepsRings(w: World, n: NetStep)
    requires NetEnabled(w.sock, n) && (n.Syn? || n.SynAck? || n.HandshakeDone? || n.PeerFin? || n.FinAcked?)
    ensures Do(w, Segment(n)).sock.rx == w.sock.rx && Do(w, Segment(n)).sock.tx == w.sock.tx
    ensures Do(w, Segment(n)).h.accepted == w.h.accepted
  {
  }

  lemma DataMoves(w: World, bytes: seq<Byte>)
    requires NetEnabled(w.sock, Data(bytes))
    ensures var after := Do(w, Segment(Data(bytes)));
            && |after.sock.rx.data| == |w.sock.rx.data| + |bytes|
            && after.sock.tx == w.sock.tx && after.h.accepted == w.h.accepted
  {
  }

  lemma AckMoves(w: World, count: nat)
    requires NetEnabled(w.sock, Ack(count))
    ensures var after := Do(w, Segment(Ack(count)));
            && |after.sock.tx.data| == |w.sock.tx.data| - count
            && after.sock.rx == w.sock.rx && after.h.accepted == w.h.accepted
  {
  }

  // How far a move takes one end's queue, ring and record: enough to know what it leaves.
  ghost predicate Moves(k: Link, m: Move, w: World) {
    var before := k.At(EndOf(m));
    var queued := |w.sock.tx.data| - |before.sock.tx.data|;
    var unread := |w.sock.rx.data| - |before.sock.rx.data|;
    var written := |w.h.accepted| - |before.h.accepted|;
    && queued == written - (if m.Acknowledge? then m.count else 0)
    && (m.Local? ==> written >= 0 && unread <= 0)
    && (m.Local? && Useful(k, m, EndOf(m)) ==> unread < 0)
    && (m.Local? && Useful(k, m, Other(EndOf(m))) ==> unread < 0)
    && (!m.Local? ==> written == 0 && unread == if m.Carry? then m.count else 0)
  }

  lemma HowFar(k: Link, m: Move)
    requires Inv(k.At(EndOf(m))) && CanMove(k, m)
    ensures Moves(k, m, Do(k.At(EndOf(m)), LabelOf(k, m)))
  {
    var w := k.At(EndOf(m));
    if m.Local? {
      WriterQueues(w, m.l);
      ReaderEmpties(w, m.l);
    } else if m.Carry? {
      DataMoves(w, Chunk(k, m.from, m.count));
    } else if m.Acknowledge? {
      AckMoves(w, m.count);
    } else {
      ControlKeepsRings(w, LabelOf(k, m).n);
    }
  }

  lemma WhatIsLeft(k: Link, m: Move, w: World, e: End)
    requires Counted(k) && Sent(k, m) && Moves(k, m, w)
    ensures var after := Noted(k.Set(EndOf(m), w), m);
            Bit(Useful(k, m, e)) + Left(after, e) + 2 * Written(k, e) <= Left(k, e) + 2 * Written(after, e)
  {
    NotedSides(k, m, w);
    if e == EndOf(m) {
      assert !Useful(k, m, e);
    } else {
      assert e == Other(EndOf(m)) && Useful(k, m, e) ==> m.Carry? || m.Local?;
    }
  }

  lemma MoveLeft(k: Link, m: Move, e: End)
    requires LinkInv(k) && CanMove(k, m)
    ensures Bit(Useful(k, m, e)) + Left(Make(k, m), e) + 2 * Written(k, e)
         <= Left(k, e) + 2 * Written(Make(k, m), e)
  {
    HowFar(k, m);
    WhatIsLeft(k, m, Do(k.At(EndOf(m)), LabelOf(k, m)), e);
  }

  lemma {:induction false} RunLeft(k: Link, ms: seq<Move>, e: End)
    requires LinkInv(k) && Playable(k, ms)
    ensures UsefulMoves(k, ms, e) + Left(Played(k, ms), e) + 2 * Written(k, e)
         <= Left(k, e) + 2 * Written(Played(k, ms), e)
    decreases |ms|
  {
    if ms != [] {
      MoveLeft(k, ms[0], e);
      MoveKeepsInv(k, ms[0]);
      RunLeft(Make(k, ms[0]), ms[1..], e);
    }
  }

  /**
   No octet is moved for nothing: over every run from the handshake on, the segments that carry octets of
   one end and the reads that yield some at the other are together at most two for each octet written,
   less what is still in the rings.
   */
  lemma MovesArePaidFor(k: Link, ms: seq<Move>, e: End)
    requires Joined(k) && Playable(k, ms)
    ensures UsefulMoves(k, ms, e) + Left(Played(k, ms), e) <= 2 * Written(Played(k, ms), e)
  {
    JoinedIsSound(k);
    RunLeft(k, ms, e);
  }

  // Both ends are past the handshake and not CLOSED, and the reader is at work.
  ghost predicate Flows(k: Link, e: End) {
    && LinkInv(k) && k.At(e).sock.state != Closed
    && k.At(Other(e)).sock.state != Closed && !k.At(Other(e)).sock.Handshaking()
    && Acting(k.At(Other(e))) && k.At(Other(e)).sock.rx.cap > 0
  }

  ghost predicate AllUseful(k: Link, ms: seq<Move>, e: End)
    requires Playable(k, ms)
    decreases |ms|
  {
    ms == [] || (Useful(k, ms[0], e) && AllUseful(Make(k, ms[0]), ms[1..], e))
  }

  // Nothing is left to carry or to read.
  ghost predicate Spent(k: Link, e: End) { forall m :: CanMove(k, m) ==> !Useful(k, m, e) }

  lemma UsefulKeepsFlow(k: Link, m: Move, e: End)
    requires Flows(k, e) && CanMove(k, m) && Useful(k, m, e)
    ensures Flows(Make(k, m), e) && Make(k, m).At(e) == k.At(e)
  {
    MoveKeepsInv(k, m);
    if m.Local? {
      PollKeepsInv(k.At(Other(e)).sock, m.l.op, k.At(Other(e)).owner);
    }
  }

  lemma SpentIsEmpty(k: Link, e: End)
    requires Flows(k, e) && Spent(k, e)
    ensures k.At(Other(e)).h.handed == k.At(e).h.accepted
  {
    var writer, reader, taken := k.At(e), k.At(Other(e)), k.Taken(e);
    if reader.sock.rx.data != [] {
      var m := Local(Other(e), PollFuture(Read(1)));
      assert CanMove(k, m) && Useful(k, m, e);
    } else if taken < |writer.sock.tx.data| {
      CanCarry(writer, reader, taken);
      assert CanMove(k, Carry(e, 1)) && Useful(k, Carry(e, 1), e);
    } else {
      SplitWritten(writer, reader, taken);
      AllHanded(writer, reader, taken);
    }
  }

  lemma CanCarry(writer: World, reader: World, taken: nat)
    requires Inv(writer) && Inv(reader) && Half(writer, reader, taken) && taken < |writer.sock.tx.data|
    requires writer.sock.state != Closed && reader.sock.state != Closed && !reader.sock.Handshaking()
    ensures Transmits(writer.sock) && reader.sock.Receiving()
  {
  }

  lemma AllHanded(writer: World, reader: World, taken: nat)
    requires Inv(reader) && Half(writer, reader, taken) && taken == |writer.sock.tx.data|
    requires writer.h.accepted == reader.h.delivered + writer.sock.tx.data[taken..]
    requires reader.sock.state != Closed && reader.sock.rx.data == []
    ensures reader.h.handed == writer.h.accepted
  {
    assert reader.h.handed + [] == reader.h.handed && reader.h.delivered + [] == reader.h.delivered;
  }

  /** The handshake opens both directions: three segments, with nothing lost, and each end may send and receive. */
  lemma HandshakeOpens(k: Link, client: Endpoint, e: End)
    requires Joined(k) && k.At(Other(e)).sock.rx.cap > 0
    ensures var ms := [CarrySyn(client), CarrySynAck, CarryHandshake];
            && Playable(k, ms) && Flows(Played(k, ms), e)
            && Played(k, ms).At(e).sock.MaySend() && Played(k, ms).At(Other(e)).sock.Receiving()
  {
    var ms := [CarrySyn(client), CarrySynAck, CarryHandshake];
    JoinedIsSound(k);
    var k1 := Make(k, ms[0]);
    SynArrives(k, client);
    var k2 := Make(k1, CarrySynAck);
    SynAckArrives(k1);
    assert ms[1..] == [CarrySynAck, CarryHandshake] && ms[1..][1..] == [CarryHandshake] && ms[1..][1..][1..] == [];
    LastStep(k2, e);
    assert Playable(k1, ms[1..]) && Played(k1, ms[1..]) == Played(k2, ms[1..][1..]);
  }

  // How far the handshake has come, with both owners at work.
  ghost predicate At(k: Link, client: State, server: State) {
    LinkInv(k) && Acting(k.a) && Acting(k.b) && k.a.sock.state == client && k.b.sock.state == server
  }

  lemma SynArrives(k: Link, client: Endpoint)
    requires At(k, SynSent, Listen)
    ensures CanMove(k, CarrySyn(client))
    ensures var after := Make(k, CarrySyn(client));
            && At(after, SynSent, SynReceived) && after.syn
            && after.a.sock.rx == k.a.sock.rx && after.b.sock.rx == k.b.sock.rx
  {
    MoveKeepsInv(k, CarrySyn(client));
  }

  lemma SynAckArrives(k: Link)
    requires At(k, SynSent, SynReceived) && k.syn
    ensures CanMove(k, CarrySynAck)
    ensures var after := Make(k, CarrySynAck);
            && At(after, State.Established, SynReceived) && after.synAck
            && after.a.sock.rx == k.a.sock.rx && after.b.sock.rx == k.b.sock.rx
  {
    MoveKeepsInv(k, CarrySynAck);
  }

  lemma LastStep(k: Link, e: End)
    requires At(k, State.Established, SynReceived) && k.synAck && k.At(Other(e)).sock.rx.cap > 0
    ensures Playable(k, [CarryHandshake])
    ensures var after := Played(k, [CarryHandshake]);
            Flows(after, e) && after.At(e).sock.MaySend() && after.At(Other(e)).sock.Receiving()
  {
    MoveKeepsInv(k, CarryHandshake);
    assert [CarryHandshake][1..] == [];
    assert Playable(Make(k, CarryHandshake), []);
    assert Played(k, [CarryHandshake]) == Make(k, CarryHandshake);
  }

  /**
   A reader that keeps reading gets everything, and soon: from any moment of any run with both ends past
   the handshake and neither CLOSED, carrying and reading ends after at most `Left` moves, in whatever
   order, and then every octet written has been read.
   */
  lemma DrainsWhatWasWritten(start: Link, before: seq<Move>, ms: seq<Move>, e: End)
    requires Joined(start) && Playable(start, before) && Flows(Played(start, before), e)
    requires Playable(Played(start, before), ms) && AllUseful(Played(start, before), ms, e)
    ensures |ms| <= Left(Played(start, before), e)
    ensures var k := Played(start, before);
            var after := Played(k, ms);
            Spent(after, e) ==> after.At(Other(e)).h.handed == after.At(e).h.accepted == k.At(e).h.accepted
  {
    Drains(Played(start, before), ms, e);
  }

  lemma {:induction false} Drains(k: Link, ms: seq<Move>, e: End)
    requires Flows(k, e) && Playable(k, ms) && AllUseful(k, ms, e)
    ensures |ms| + Left(Played(k, ms), e) <= Left(k, e)
    ensures Played(k, ms).At(e) == k.At(e)
    ensures Spent(Played(k, ms), e) ==> Played(k, ms).At(Other(e)).h.handed == k.At(e).h.accepted
    decreases |ms|
  {
    if ms == [] {
      if Spent(k, e) {
        SpentIsEmpty(k, e);
      }
    } else {
      MoveLeft(k, ms[0], e);
      UsefulKeepsFlow(k, ms[0], e);
      Drains(Make(k, ms[0]), ms[1..], e);
    }
  }
}
