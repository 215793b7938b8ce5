/**
 `src/mqtt.rs`: the reconnect loop. Every round waits out the backoff, takes the next local port,
 drops whatever the last session left open, and connects. The session itself is minimq's: it may
 leave the socket in any sound state. When the loop stalls is in module Reconnect.
 */
module Mqtt {
  import opened Prelude
  import opened Tcp
  import opened Socket
  import Reconnect
  import Disconnect
  import SocketRuns
  import Clock

  const MQTT_CLIENT_PORT: nat := 58026
  const RECONNECT_INTERVAL_MS: nat := 2_000
  const TICKS_PER_MS: nat := Clock.CLOCK_HZ / 1000
  const INTERVAL: nat := RECONNECT_INTERVAL_MS * TICKS_PER_MS
  // Sections 3.4.2 and 3.6.1 of RFC 9293: TIME-WAIT lasts twice the two minutes of MSL.
  const TIME_WAIT: nat := 2 * 120 * Clock.CLOCK_HZ

  /** One connection attempt: when it began, in ticks, and from which local port. */
  datatype Attempt = Attempt(time: nat, port: nat)

  ghost predicate Backoff(log: seq<Attempt>) {
    forall i :: 0 < i < |log| ==> log[i].time >= log[i - 1].time + INTERVAL
  }

  ghost predicate Shifted(log: seq<Attempt>) {
    forall i :: 0 <= i < |log| ==> log[i].port == (MQTT_CLIENT_PORT + i % 256) % 0x1_0000
  }

  // One more attempt, no sooner than the backoff allows and from the next port.
  lemma LogGrows(log: seq<Attempt>, stamp: nat)
    requires Backoff(log) && Shifted(log)
    requires log != [] ==> stamp >= log[|log| - 1].time + INTERVAL
    ensures var port := (MQTT_CLIENT_PORT + |log| % 256) % 0x1_0000;
            port != 0 && Backoff(log + [Attempt(stamp, port)]) && Shifted(log + [Attempt(stamp, port)])
  {
  }

  lemma NextShift(n: nat)
    ensures (n % 256 + 1) % 256 == (n + 1) % 256
  {
  }

  // ---- What the log of any run shows --------------------------------------------------------

  lemma {:induction false} Spaced(log: seq<Attempt>, i: nat, j: nat)
    requires Backoff(log) && i <= j < |log|
    ensures log[j].time >= log[i].time + (j - i) * INTERVAL
    decreases j - i
  {
    if i < j {
      Spaced(log, i, j - 1);
      assert (j - i) * INTERVAL == (j - 1 - i) * INTERVAL + INTERVAL;
    }
  }

  /** The port never wraps and is never 0, and two attempts share one exactly when they are 256 apart. */
  lemma PortsCycle(log: seq<Attempt>, i: nat, j: nat)
    requires Shifted(log) && i < |log| && j < |log|
    ensures MQTT_CLIENT_PORT <= log[i].port <= MQTT_CLIENT_PORT + 255 < 0x1_0000
    ensures log[i].port == log[j].port <==> i % 256 == j % 256
  {
  }

  lemma SameShift(i: nat, j: nat)
    requires i < j && i % 256 == j % 256
    ensures j >= i + 256
  {
  }

  /**
   Port quiet time: once attempt i is over (attempt i+1 has begun), its port stays unused for at least
   255 backoffs, 510 seconds: more than the TIME-WAIT the broker may still be in.
   */
  lemma PortsStayQuiet(log: seq<Attempt>, i: nat, j: nat)
    requires Backoff(log) && Shifted(log) && i < j < |log| && log[i].port == log[j].port
    ensures log[j].time - log[i + 1].time >= 255 * INTERVAL == 510 * Clock.CLOCK_HZ > TIME_WAIT
  {
    PortsCycle(log, i, j);
    SameShift(i, j);
    Spaced(log, i + 1, j);
    Clock.MulLe(255, j - (i + 1), INTERVAL);
  }

  ghost function InWindow(log: seq<Attempt>, from: nat, length: nat): set<nat> {
    set i: nat | i < |log| && from <= log[i].time <= from + length
  }

  /** Rate bound: any window of time holds at most one attempt for each whole backoff in it, and one more. */
  lemma RateIsBounded(log: seq<Attempt>, from: nat, length: nat)
    requires Backoff(log)
    ensures |InWindow(log, from, length)| <= length / INTERVAL + 1
  {
    var inside := InWindow(log, from, length);
    if inside != {} {
      var first := Least(inside);
      var span := length / INTERVAL;
      forall i | i in inside ensures first <= i <= first + span {
        Spaced(log, first, i);
        Clock.FloorAtLeast(length, INTERVAL, i - first);
      }
      WithinRange(inside, first, first + span);
    }
  }

  lemma {:induction false} Least(s: set<nat>) returns (m: nat)
    requires s != {}
    ensures m in s && forall x :: x in s ==> m <= x
  {
    var y :| y in s;
    if s - {y} == {} {
      m := y;
      assert forall x :: x in s ==> x == y || x in s - {y};
    } else {
      var rest := Least(s - {y});
      m := Min(rest, y);
      assert forall x :: x in s ==> x == y || x in s - {y};
    }
  }

  lemma {:induction false} WithinRange(s: set<nat>, lo: nat, hi: nat)
    requires lo <= hi && forall x :: x in s ==> lo <= x <= hi
    ensures |s| <= hi - lo + 1
    decreases hi - lo
  {
    if lo == hi {
      assert s <= {lo};
      if s != {} {
        assert s == {lo};
      }
    } else {
      WithinRange(s - {hi}, lo, hi - 1);
    }
  }

  // ---- The socket across reconnects ---------------------------------------------------------

  /**
   A reconnect always finds a usable socket: from any state, with anything the network does before
   the check, between the check and the abort, and between the abort and the connect, the connect
   never reports InvalidState.
   */
  lemma ReconnectFindsUsable(
    s: Sock, before: seq<NetStep>, between: seq<NetStep>, remote: Endpoint, port: nat, routable: bool)
    requires NetLegal(s, before)
    requires var seen := s.IsOpen();
             var dropped := if seen then Abort(NetFinal(s, before).sock).sock else NetFinal(s, before).sock;
             NetLegal(dropped, between)
    ensures var dropped := if s.IsOpen() then Abort(NetFinal(s, before).sock).sock else NetFinal(s, before).sock;
            ConnectTo(NetFinal(dropped, between).sock, remote, port, routable) != Err(OpenInvalidState)
  {
    if !s.IsOpen() {
      NotOpenIsStable(s, before);
    }
    var dropped := if s.IsOpen() then Abort(NetFinal(s, before).sock).sock else NetFinal(s, before).sock;
    NotOpenIsStable(dropped, between);
  }

  /** Every connect of a run went to `broker`, from the port its attempt logged. */
  ghost predicate OpenedAs(opens: seq<Reconnect.Act>, log: seq<Attempt>, broker: Endpoint) {
    && |opens| <= |log|
    && forall i :: 0 <= i < |opens| ==>
         opens[i].Open? && opens[i].port == log[i].port && opens[i].remote == broker
  }

  /** So the ports that were really opened are quiet for as long. */
  lemma OpenedPortsStayQuiet(opens: seq<Reconnect.Act>, log: seq<Attempt>, broker: Endpoint, i: nat, j: nat)
    requires Backoff(log) && Shifted(log) && OpenedAs(opens, log, broker)
    requires i < j < |opens| && opens[i].port == opens[j].port
    ensures log[j].time - log[i + 1].time >= 510 * Clock.CLOCK_HZ > TIME_WAIT
  {
    PortsStayQuiet(log, i, j);
  }

  // ---- The code -----------------------------------------------------------------------------

  /** `Mono`: monotone, and `delay_until` never returns early. */
  class Monotonic {
    var reading: nat
    // The deadlines that were waited for.
    ghost var delays: seq<nat>

    constructor ()
      ensures delays == []
    {
      reading, delays := 0, [];
    }

    method Now() returns (t: nat)
      modifies this`reading
      ensures old(reading) <= reading == t
    {
      var passed :| 0 <= passed;
      reading := reading + passed;
      t := reading;
    }

    method DelayUntil(deadline: nat)
      modifies this
      ensures reading >= old(reading) && reading >= deadline && delays == old(delays) + [deadline]
    {
      var passed :| 0 <= passed;
      reading := Max(reading, deadline) + passed;
      delays := delays + [deadline];
    }
  }

  const LOOKING: Reconnect.Phase := Reconnect.Disconnecting(Disconnect.Look)
  const REGISTERING: Reconnect.Phase := Reconnect.Disconnecting(Disconnect.Register)
  const LEAVING: Reconnect.Phase := Reconnect.Disconnecting(Disconnect.Leave)

  datatype Attempted = Connected | Failed(why: ConnectError) | Waiting

  /** `trace` is the run of the machine of module Reconnect that the code has made, and `k` where that is. */
  class Client {
    const clock: Monotonic
    const io: SocketInner
    const cx: Task
    const broker: Endpoint
    var portShift: nat              // Wrapping<u8>
    var lastAttempt: Option<nat>
    ghost var log: seq<Attempt>
    ghost const start: Reconnect.Loop
    ghost var k: Reconnect.Loop
    ghost var trace: seq<Reconnect.Act>

    ghost predicate Following()
      reads this
    {
      Reconnect.LoopInv(k) && Reconnect.Ran(start, trace, k) && k.w.owner == cx
    }

    ghost predicate OnTheRun()
      reads this, io.net, io.net.socket
    {
      io.Ready() && k.w.sock == io.net.socket.View() && k.w.running && Following()
    }

    ghost predicate Logged()
      reads this, clock
    {
      && Backoff(log) && Shifted(log)
      && portShift == |log| % 256
      && (log == [] <==> lastAttempt == None)
      && (log != [] ==> lastAttempt == Some(log[|log| - 1].time) && log[|log| - 1].time <= clock.reading)
    }

    // Between two attempts every logged one has been made.
    ghost predicate Valid()
      reads this, clock, io.net, io.net.socket
    {
      OnTheRun() && Logged() && OpenedAs(Reconnect.Opens(trace), log, broker)
    }

    ghost predicate AllOpened()
      reads this
    {
      |Reconnect.Opens(trace)| == |log|
    }

    constructor (clock: Monotonic, io: SocketInner, cx: Task, broker: Endpoint)
      requires io.Ready()
      requires io.net.socket.View() == SocketRuns.Init(cx, io.net.socket.rx.cap, io.net.socket.tx.cap).sock
      ensures this.clock == clock && this.io == io && this.cx == cx && this.broker == broker
      ensures Valid() && log == [] && AllOpened() && trace == [] && k == start && k.phase == Reconnect.Backoff
      ensures var boot := Reconnect.Boot(cx, io.net.socket.rx.cap, io.net.socket.tx.cap);
              start == Reconnect.Perform(boot, Reconnect.Resume)
    {
      this.clock, this.io, this.cx, this.broker := clock, io, cx, broker;
      portShift, lastAttempt, log := 0, None, [];
      var w := SocketRuns.Init(cx, io.net.socket.rx.cap, io.net.socket.tx.cap).(running := true, pending := false);
      start, k, trace := Reconnect.Loop(w, Reconnect.Backoff), Reconnect.Loop(w, Reconnect.Backoff), [];
      new;
      Reconnect.RanIs(start, [], start);
    }

    /** The code did what the machine does in one act. */
    twostate predicate Did(a: Reconnect.Act)
      reads this
    {
      old(Reconnect.CanAct(k, a)) && k == old(Reconnect.Perform(k, a)) && trace == old(trace) + [a]
    }

    // Performs `a` on the machine; the socket has already done its part.
    ghost method FollowAct(a: Reconnect.Act)
      requires Following() && Reconnect.CanAct(k, a)
      modifies this`k, this`trace
      ensures Following() && k == Reconnect.Perform(old(k), a) && trace == old(trace) + [a]
    {
      Reconnect.ActKeepsInv(k, a);
      Reconnect.RanNext(start, trace, k, a);
      trace := trace + [a];
      k := Reconnect.Perform(k, a);
    }

    ghost method Follow(a: Reconnect.Act)
      requires Following() && Reconnect.CanAct(k, a)
      modifies this`k, this`trace
      ensures Following() && k == Reconnect.Perform(old(k), a) && trace == old(trace) + [a]
      ensures Reconnect.Opens(trace) == Reconnect.Opens(old(trace)) + if a.Open? then [a] else []
    {
      Reconnect.OpensSnoc(trace, a);
      FollowAct(a);
    }

    // The acts of the executor, and of a session: they leave the socket alone.
    ghost method FollowAside(a: Reconnect.Act)
      requires Following() && Reconnect.CanAct(k, a)
      requires a.Yield? || a.Wake? || a.Resume? || a.SessionUp? || a.SessionFails?
      modifies this`k, this`trace
      ensures Following() && NoOpen() && trace == old(trace) + [a]
      ensures k.w.sock == old(k).w.sock && k.phase == PhaseAfter(old(k).phase, a)
      ensures k.w.running == (if a.Yield? then false else if a.Resume? then true else old(k).w.running)
      ensures a.Wake? ==> k.w.pending
    {
      Follow(a);
    }

    ghost function PhaseAfter(p: Reconnect.Phase, a: Reconnect.Act): Reconnect.Phase {
      if a.Yield? then Reconnect.Yielded(p)
      else if a.Resume? then Reconnect.Resumed(p)
      else if a.SessionUp? then Reconnect.Session(true)
      else if a.SessionFails? then Reconnect.Backoff
      else p
    }

    ghost method FollowCheck()
      requires Following() && k.phase == LOOKING
      modifies this`k, this`trace
      ensures Following() && NoOpen() && k.w.sock == old(k).w.sock && k.w.running && trace == old(trace) + [CHECK]
      ensures k.phase == if k.w.sock.IsOpen() then REGISTERING else Reconnect.Backoff
    {
      Follow(CHECK);
    }

    ghost method FollowRegister()
      requires Following() && k.phase == REGISTERING
      modifies this`k, this`trace
      ensures Following() && NoOpen() && trace == old(trace) + [REGISTER] && k.w.running
      ensures k.w.sock == RegisterRecv(old(k).w.sock, cx)
      ensures k.phase == LEAVING
    {
      Follow(REGISTER);
    }

    // `last + RECONNECT_INTERVAL_MS`, unless that has passed.
    method WaitOut(last: nat)
      modifies clock
      ensures clock.reading >= old(clock.reading) && clock.reading >= last + INTERVAL
      ensures clock.delays == old(clock.delays) || (
                clock.delays == old(clock.delays) + [last + INTERVAL] && old(clock.reading) < last + INTERVAL)
    {
      var deadline := last + INTERVAL;
      var now := clock.Now();
      if now < deadline {
        clock.DelayUntil(deadline);
      }
    }

    /**
     The backoff, the timestamp and the port of one attempt. It waits for the deadline of the backoff, once,
     if that has not come, and for nothing else.
     */
    method NextAttempt() returns (port: nat)
      requires Logged()
      modifies this`portShift, this`lastAttempt, this`log, clock
      ensures Logged() && |log| == |old(log)| + 1 && old(log) <= log
      ensures port == log[|log| - 1].port == (58026 + |old(log)| % 256) % 0x1_0000 && port != 0
      ensures log[|log| - 1].time >= old(clock.reading)
      ensures clock.delays == old(clock.delays) || (
                && old(log) != [] && clock.delays == old(clock.delays) + [old(log)[|old(log)| - 1].time + INTERVAL]
                && old(clock.reading) < old(log)[|old(log)| - 1].time + INTERVAL)
    {
      if lastAttempt.Some? {
        WaitOut(lastAttempt.value);
      }
      var stamp := clock.Now();
      lastAttempt := Some(stamp);
      port := (MQTT_CLIENT_PORT + portShift) % 0x1_0000;
      portShift := (portShift + 1) % 256;
      LogGrows(log, stamp);
      NextShift(|log|);
      log := log + [Attempt(stamp, port)];
    }

    // The trace has gone on without a connect.
    twostate predicate NoOpen()
      reads this
    {
      old(trace) <= trace && Reconnect.Opens(trace) == old(Reconnect.Opens(trace)) && log == old(log)
    }

    /** The network runs for as long as it likes. */
    method Elapse()
      requires OnTheRun()
      modifies this`k, this`trace, io.net.socket
      ensures OnTheRun() && NoOpen() && k.phase == old(k).phase
      ensures NetStable(old(io.net.socket.View()), io.net.socket.View())
      ensures Tally(trace, Reconnect.PollConnect) == Tally(old(trace), Reconnect.PollConnect)
      ensures Tally(trace, CHECK) == Tally(old(trace), CHECK)
    {
      ghost var ns := io.net.socket.Interfere();
      FollowNetwork(ns);
    }

    // What the network never does.
    ghost predicate NetStable(s: Sock, after: Sock) {
      && (!s.IsOpen() ==> !after.IsOpen())
      && (!s.MaySend() && !s.Handshaking() ==> !after.MaySend() && !after.Handshaking())
    }

    ghost method FollowNetwork(ns: seq<NetStep>)
      requires Following() && NetLegal(k.w.sock, ns)
      modifies this`k, this`trace
      ensures Following() && k.w.running == old(k).w.running
      ensures k.w.sock == NetFinal(old(k).w.sock, ns).sock && k.phase == old(k).phase
      ensures NoOpen() && NetStable(old(k).w.sock, k.w.sock)
      ensures Tally(trace, Reconnect.PollConnect) == Tally(old(trace), Reconnect.PollConnect)
      ensures Tally(trace, CHECK) == Tally(old(trace), CHECK)
    {
      var acts := Reconnect.NetworkActs(k, ns);
      Reconnect.ActsKeepInv(k, acts);
      Reconnect.RanOn(start, trace, k, acts);
      Reconnect.OpensWithout(trace, acts);
      NetKeepsStable(k.w.sock, ns);
      TallyWithout(trace, acts, Reconnect.PollConnect);
      TallyWithout(trace, acts, CHECK);
      k := Reconnect.After(k, acts);
      trace := trace + acts;
    }

    lemma {:induction false} NetKeepsStable(s: Sock, ns: seq<NetStep>)
      requires NetLegal(s, ns)
      ensures NetStable(s, NetFinal(s, ns).sock)
      decreases |ns|
    {
      if ns != [] {
        NetKeepsStable(Net(s, ns[0]).sock, ns[1..]);
      }
    }

    // `is_open`.
    method Look() returns (open: bool)
      requires OnTheRun() && k.phase == Reconnect.Backoff
      modifies this`k, this`trace, io.net
      ensures OnTheRun() && Did(Reconnect.LookAtSocket) && NoOpen()
      ensures open == io.net.socket.View().IsOpen()
      ensures k.phase == if open then Reconnect.Found else Reconnect.Usable
    {
      open := io.IsOpen();
      Follow(Reconnect.LookAtSocket);
    }

    /** Configures the socket the last session left behind, and drops it if it is open. */
    method DropOpen()
      requires OnTheRun() && k.phase == Reconnect.Backoff
      modifies this`k, this`trace, io.net, io.net.socket
      ensures OnTheRun() && k.phase == Reconnect.Usable && NoOpen()
    {
      io.Configure();
      io.Configure();
      var open := Look();
      Elapse();
      if open {
        Drop();
      }
    }

    method Drop()
      requires OnTheRun() && k.phase == Reconnect.Found
      modifies this`k, this`trace, io.net, io.net.socket
      ensures OnTheRun() && Did(Reconnect.Drop) && NoOpen() && k.phase == Reconnect.Usable
    {
      io.Abort();
      Follow(Reconnect.Drop);
    }

    // `connect`, up to its await.
    method Connect(port: nat, routable: bool) returns (r: Result<(), ConnectError>)
      requires OnTheRun() && k.phase == Reconnect.Usable
      modifies this`k, this`trace, io.net, io.net.socket
      ensures OnTheRun() && Did(Reconnect.Open(broker, port, routable)) && log == old(log)
      ensures Reconnect.Opens(trace) == Reconnect.Opens(old(trace)) + [Reconnect.Open(broker, port, routable)]
      ensures r == if Reconnect.Addressable(broker, port, routable) then Ok(()) else Err(NoRoute)
      ensures r.Ok? ==> k.phase == Reconnect.Connecting(false) && IsOpening(io.net.socket.View(), port)
      ensures r.Err? ==> k.phase == Reconnect.Backoff
    {
      r := io.ConnectStart(broker, port, routable);
      Follow(Reconnect.Open(broker, port, routable));
    }

    // A connect to the broker from `port` is under way.
    predicate IsOpening(s: Sock, port: nat) {
      s.state == SynSent && s.localPort == port && s.remote == Some(broker) && s.listenPort == 0
    }

    /** From any socket the last session left behind: configure it, drop it if it is open, and open it anew. */
    method Reopen(port: nat, routable: bool) returns (r: Result<(), ConnectError>)
      requires OnTheRun() && k.phase == Reconnect.Backoff
      modifies this`k, this`trace, io.net, io.net.socket
      ensures OnTheRun() && old(trace) <= trace && log == old(log)
      ensures Reconnect.Opens(trace) == Reconnect.Opens(old(trace)) + [Reconnect.Open(broker, port, routable)]
      ensures r == if Reconnect.Addressable(broker, port, routable) then Ok(()) else Err(NoRoute)
      ensures r.Ok? ==> k.phase == Reconnect.Connecting(false) && IsOpening(io.net.socket.View(), port)
      ensures r.Err? ==> k.phase == Reconnect.Backoff
    {
      DropOpen();
      Elapse();
      r := Connect(port, routable);
    }

    // One poll of `connect`.
    method PollConnect() returns (r: Poll<Outcome>)
      requires OnTheRun() && k.phase == Reconnect.Connecting(false)
      modifies this`k, this`trace, io.net, io.net.socket
      ensures OnTheRun() && Did(Reconnect.PollConnect) && io.Polls(Socket.Connect, cx, r)
      ensures NoOpen() && !k.w.checking && Answered(r, io.net.socket.View())
    {
      r := io.PollConnect(cx);
      Follow(Reconnect.PollConnect);
    }

    // What an answer of `connect` means for the loop, and finds.
    ghost predicate Answered(r: Poll<Outcome>, s: Sock)
      reads this
    {
      && r in {Pending, Ready(Unit), Ready(ConnReset)}
      && k.phase == (if r.Pending? then Reconnect.Connecting(true)
                     else if r == Ready(Unit) then Reconnect.Session(false) else Reconnect.Backoff)
      && (r == Ready(Unit) ==> s.state in {Established, CloseWait})
      && (r == Ready(ConnReset) ==> s.state == Closed)
    }

    // The task suspends, and some time later it is woken and dispatched.
    ghost method Sleep()
      requires Following() && k.w.running && !k.w.checking && Reconnect.MayYield(k.phase)
      modifies this`k, this`trace
      ensures Following() && NoOpen() && k.w.running && k.w.sock == old(k).w.sock
      ensures k.phase == Reconnect.Resumed(Reconnect.Yielded(old(k).phase))
      ensures trace == old(trace) + [Reconnect.Yield] + [Reconnect.Wake] + [Reconnect.Resume]
    {
      FollowAside(Reconnect.Yield);
      FollowAside(Reconnect.Wake);
      FollowAside(Reconnect.Resume);
    }

    lemma SleepTally(before: seq<Reconnect.Act>, a: Reconnect.Act)
      requires !a.Yield? && !a.Wake? && !a.Resume?
      ensures Tally(before + [Reconnect.Yield] + [Reconnect.Wake] + [Reconnect.Resume], a) == Tally(before, a)
    {
      TallySnoc(before, a, Reconnect.Yield);
      TallySnoc(before + [Reconnect.Yield], a, Reconnect.Wake);
      TallySnoc(before + [Reconnect.Yield] + [Reconnect.Wake], a, Reconnect.Resume);
    }

    // One poll of the await, counted.
    method ConnectPoll() returns (r: Poll<Outcome>)
      requires OnTheRun() && k.phase == Reconnect.Connecting(false)
      modifies this`k, this`trace, io.net, io.net.socket
      ensures OnTheRun() && NoOpen() && !k.w.checking && Answered(r, io.net.socket.View())
      ensures Tally(trace, Reconnect.PollConnect) == Tally(old(trace), Reconnect.PollConnect) + 1
    {
      TallySnoc(trace, Reconnect.PollConnect, Reconnect.PollConnect);
      r := PollConnect();
    }

    // The network, a poll, and the sleep after it if it is pending.
    method ConnectOnce() returns (r: Poll<Outcome>)
      requires OnTheRun() && k.phase == Reconnect.Connecting(false)
      modifies this`k, this`trace, io.net, io.net.socket
      ensures OnTheRun() && NoOpen()
      ensures Tally(trace, Reconnect.PollConnect) == Tally(old(trace), Reconnect.PollConnect) + 1
      ensures r in {Pending, Ready(Unit), Ready(ConnReset)}
      ensures k.phase == (if r.Pending? then Reconnect.Connecting(false)
                          else if r == Ready(Unit) then Reconnect.Session(false) else Reconnect.Backoff)
      ensures r == Ready(Unit) ==> io.net.socket.View().state in {Established, CloseWait}
      ensures r == Ready(ConnReset) ==> io.net.socket.View().state == Closed
    {
      Elapse();
      r := ConnectPoll();
      if r.Pending? {
        SleepTally(trace, Reconnect.PollConnect);
        Sleep();
      }
    }

    /** The await of `connect`, polled until it answers or `patience` times; its `unreachable!()` is not reached. */
    method AwaitConnect(patience: nat) returns (r: Attempted)
      requires OnTheRun() && k.phase == Reconnect.Connecting(false)
      modifies this`k, this`trace, io.net, io.net.socket
      ensures OnTheRun() && NoOpen()
      ensures r in {Connected, Failed(ConnectReset), Waiting}
      ensures r == Connected ==>
                k.phase == Reconnect.Session(false) && io.net.socket.View().state in {Established, CloseWait}
      ensures r == Failed(ConnectReset) ==> k.phase == Reconnect.Backoff && io.net.socket.View().state == Closed
      ensures r == Waiting ==>
                && k.phase == Reconnect.Connecting(false)
                && Tally(trace, Reconnect.PollConnect) == Tally(old(trace), Reconnect.PollConnect) + patience
    {
      var polls := 0;
      while polls < patience
        invariant OnTheRun() && NoOpen() && k.phase == Reconnect.Connecting(false) && polls <= patience
        invariant Tally(trace, Reconnect.PollConnect) == Tally(old(trace), Reconnect.PollConnect) + polls
      {
        var answer := ConnectOnce();
        if answer.Ready? {
          return if answer.value == ConnReset then Failed(ConnectReset) else Connected;
        }
        polls := polls + 1;
      }
      r := Waiting;
    }

    // One attempt, up to the await of its `connect`: it is logged, and made from the port it logged.
    method BeginAttempt(routable: bool) returns (r: Result<(), ConnectError>)
      requires Valid() && AllOpened() && k.phase == Reconnect.Backoff
      modifies this, clock, io.net, io.net.socket
      ensures Valid() && AllOpened() && |log| == |old(log)| + 1 && old(log) <= log && old(trace) <= trace
      ensures r == if Reconnect.Addressable(broker, log[|log| - 1].port, routable) then Ok(()) else Err(NoRoute)
      ensures r.Ok? ==> k.phase == Reconnect.Connecting(false) && IsOpening(io.net.socket.View(), log[|log| - 1].port)
      ensures r.Err? ==> k.phase == Reconnect.Backoff
    {
      var port := NextAttempt();
      r := Reopen(port, routable);
    }

    /** `connect_transport_inner`: one attempt, not refused for the state of the socket. */
    method ConnectTransport(routable: bool, patience: nat) returns (r: Attempted)
      requires Valid() && AllOpened() && k.phase == Reconnect.Backoff
      modifies this, clock, io.net, io.net.socket
      ensures Valid() && AllOpened() && |log| == |old(log)| + 1 && old(log) <= log && old(trace) <= trace
      ensures r != Failed(ConnectInvalidState)
      ensures r == Failed(NoRoute) <==> !Reconnect.Addressable(broker, log[|log| - 1].port, routable)
      ensures r == Connected <==> k.phase == Reconnect.Session(false)
      ensures r == Connected ==> io.net.socket.View().state in {Established, CloseWait}
      ensures r.Failed? <==> k.phase == Reconnect.Backoff
      ensures r == Failed(ConnectReset) ==> io.net.socket.View().state == Closed
      ensures r == Waiting ==> k.phase == Reconnect.Connecting(false)
    {
      var opening := BeginAttempt(routable);
      if opening.Err? {
        return Failed(opening.error);
      }
      r := AwaitConnect(patience);
    }

    method Use(op: Op) returns (r: Poll<Outcome>)
      requires OnTheRun() && k.phase.Session? && (op.Read? || op.Write? || op.Flush?)
      modifies this`k, this`trace, io.net, io.net.socket
      ensures OnTheRun() && Did(Reconnect.Use(op)) && NoOpen() && io.Polls(op, cx, r) && k.phase == old(k).phase
    {
      if op.Read? {
        r := io.PollRead(op.size, cx);
      } else if op.Write? {
        r := io.PollWrite(op.bytes, cx);
      } else {
        r := io.PollFlush(cx);
      }
      Follow(Reconnect.Use(op));
    }

    /** What the session does with the socket is minimq's: any reads, writes and flushes, for any time. */
    method UseSocket(polls: nat)
      requires OnTheRun() && k.phase.Session?
      modifies this`k, this`trace, io.net, io.net.socket
      ensures OnTheRun() && NoOpen() && k.phase == old(k).phase
    {
      for i := 0 to polls
        invariant OnTheRun() && NoOpen() && k.phase == old(k).phase
      {
        Elapse();
        var op: Op := *;
        if op.Read? || op.Write? || op.Flush? {
          var r := Use(op);
        }
      }
    }

    // One poll of `disconnect` after its close; if it is pending, the task sleeps until it is woken.
    method PollDisconnect() returns (done: bool)
      requires OnTheRun() && k.phase == LOOKING
      modifies this`k, this`trace, io.net, io.net.socket
      ensures OnTheRun() && NoOpen() && NetStable(old(io.net.socket.View()), io.net.socket.View())
      ensures done == !old(io.net.socket.View()).IsOpen()
      ensures k.phase == if done then Reconnect.Backoff else LOOKING
      ensures Tally(trace, CHECK) == Tally(old(trace), CHECK) + 1
    {
      var answer, between := io.PollDisconnect(cx);
      TallySnoc(trace, CHECK, CHECK);
      FollowCheck();
      if answer.Ready? {
        return true;
      }
      FollowPending(between);
      done := false;
    }

    // The rest of a pending poll: what the network does before the registration, and the sleep after it.
    ghost method FollowPending(between: seq<NetStep>)
      requires Following() && k.phase == REGISTERING && NetLegal(k.w.sock, between)
      modifies this`k, this`trace
      ensures Following() && NoOpen() && k.w.running && k.phase == LOOKING
      ensures k.w.sock == RegisterRecv(NetFinal(old(k).w.sock, between).sock, cx)
      ensures NetStable(old(k).w.sock, k.w.sock) && Tally(trace, CHECK) == Tally(old(trace), CHECK)
    {
      FollowNetwork(between);
      TallySnoc(trace, CHECK, REGISTER);
      FollowRegister();
      SleepTally(trace, CHECK);
      Sleep();
    }

    ghost const CHECK := Reconnect.PollDisconnect(SocketRuns.DisconnectCheck)
    ghost const REGISTER := Reconnect.PollDisconnect(SocketRuns.DisconnectRegister)

    // `disconnect`, up to its await: the send half is closed.
    method StartDisconnect()
      requires OnTheRun() && k.phase == Reconnect.Session(true)
      modifies this`k, this`trace, io.net, io.net.socket
      ensures OnTheRun() && Did(Reconnect.StartDisconnect) && NoOpen() && HalfClosed(io.net.socket.View())
      ensures k.phase == LOOKING
      ensures io.net.socket.View() == Close(old(io.net.socket.View())).sock
    {
      io.Close();
      Follow(Reconnect.StartDisconnect);
    }

    predicate HalfClosed(s: Sock) { !s.MaySend() && !s.Handshaking() }

    // The network, and then one poll of the await.
    method DisconnectOnce() returns (done: bool)
      requires OnTheRun() && k.phase == LOOKING && HalfClosed(io.net.socket.View())
      modifies this`k, this`trace, io.net, io.net.socket
      ensures OnTheRun() && NoOpen() && HalfClosed(io.net.socket.View())
      ensures done ==> k.phase == Reconnect.Backoff && !io.net.socket.View().IsOpen()
      ensures !done ==> k.phase == LOOKING
      ensures Tally(trace, CHECK) == Tally(old(trace), CHECK) + 1
    {
      Elapse();
      done := PollDisconnect();
    }

    /**
     `disconnect`, polled until it answers or `patience` times. It closes the send half first, which stays
     closed; when it completes the socket is not open.
     */
    method Disconnect(patience: nat) returns (done: bool)
      requires OnTheRun() && k.phase == Reconnect.Session(true)
      modifies this`k, this`trace, io.net, io.net.socket
      ensures OnTheRun() && NoOpen() && HalfClosed(io.net.socket.View())
      ensures |trace| > |old(trace)| && trace[|old(trace)|] == Reconnect.StartDisconnect
      ensures done ==> k.phase == Reconnect.Backoff && !io.net.socket.View().IsOpen()
      ensures !done ==> k.phase == LOOKING && Tally(trace, CHECK) == Tally(old(trace), CHECK) + patience
    {
      TallySnoc(trace, CHECK, Reconnect.StartDisconnect);
      StartDisconnect();
      var polls := 0;
      while polls < patience
        invariant OnTheRun() && NoOpen() && HalfClosed(io.net.socket.View()) && polls <= patience
        invariant k.phase == LOOKING
        invariant |trace| > |old(trace)| && trace[|old(trace)|] == Reconnect.StartDisconnect
        invariant Tally(trace, CHECK) == Tally(old(trace), CHECK) + polls
      {
        done := DisconnectOnce();
        if done {
          return;
        }
        polls := polls + 1;
      }
      done := false;
    }

    // The trace has gone on, and `disconnect` was called.
    twostate predicate Disconnects()
      reads this
    {
      old(trace) <= trace && Reconnect.StartDisconnect in trace[|old(trace)|..]
    }

    /**
     What follows a connect: a session that fails before or after it has `connected`. A connection that was
     handed over is disconnected; one that was not is dropped as it is.
     */
    method Session(connected: bool, polls: nat, patience: nat) returns (over: bool)
      requires OnTheRun() && k.phase == Reconnect.Session(false)
      modifies this`k, this`trace, io.net, io.net.socket
      ensures OnTheRun() && NoOpen() && (connected ==> Disconnects()) && (!connected ==> over)
      ensures k.phase == if over then Reconnect.Backoff else LOOKING
    {
      UseSocket(polls);
      if !connected {
        FollowAside(Reconnect.SessionFails);
        return true;
      }
      over := ConnectedSession(polls, patience);
    }

    method ConnectedSession(polls: nat, patience: nat) returns (over: bool)
      requires OnTheRun() && k.phase == Reconnect.Session(false)
      modifies this`k, this`trace, io.net, io.net.socket
      ensures OnTheRun() && NoOpen() && Disconnects()
      ensures k.phase == if over then Reconnect.Backoff else LOOKING
    {
      FollowAside(Reconnect.SessionUp);
      UseSocket(polls);
      over := Disconnect(patience);
    }

    // One round: an attempt, and a session if it succeeds.
    method Round(routable: bool, connected: bool, polls: nat, patience: nat) returns (r: Attempted, going: bool)
      requires Valid() && AllOpened() && k.phase == Reconnect.Backoff
      modifies this, clock, io.net, io.net.socket
      ensures Valid() && AllOpened() && |log| == |old(log)| + 1 && old(log) <= log && old(trace) <= trace
      ensures r == Connected && connected ==> Disconnects()
      ensures going <==> k.phase == Reconnect.Backoff
      ensures !going ==> k.phase == Reconnect.Connecting(false) || k.phase == LOOKING
      ensures r.Failed? || (r == Connected && !connected) ==> going
    {
      r := ConnectTransport(routable, patience);
      if r == Connected {
        going := Session(connected, polls, patience);
      } else {
        going := r.Failed?;
      }
    }

    /**
     The loop of `mqtt`, for any number of rounds and any mix of outcomes: transport failure, a session
     that fails before or after it has connected, and a `disconnect` that may never complete. It goes on
     until the rounds are done or an await has used up its polls; each round is one attempt, connected to
     the broker from the port it logged, and the log keeps the backoff and the port sequence throughout.
     */
    method Run(routable: bool, connected: nat -> bool, rounds: nat, polls: nat, patience: nat) returns (done: nat)
      requires Valid() && AllOpened() && k.phase == Reconnect.Backoff
      modifies this, clock, io.net, io.net.socket
      ensures Valid() && AllOpened() && old(log) <= log && old(trace) <= trace
      ensures |log| == |old(log)| + done && done <= rounds
      ensures done < rounds ==> k.phase == Reconnect.Connecting(false) || k.phase == LOOKING
    {
      done := 0;
      var going := true;
      while done < rounds && going
        invariant Valid() && AllOpened() && old(log) <= log && old(trace) <= trace
        invariant |log| == |old(log)| + done && done <= rounds && (going <==> k.phase == Reconnect.Backoff)
        invariant !going ==> k.phase == Reconnect.Connecting(false) || k.phase == LOOKING
      {
        var r: Attempted;
        r, going := Round(routable, connected(done), polls, patience);
        done := done + 1;
      }
    }
  }
}
