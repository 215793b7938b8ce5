/**
 The life of the MQTT socket: `mqtt` and `connect_transport_inner` of `src/mqtt.rs`, round after round.
 One step is one lock section, one turn of the executor, or one thing the network does. What the
 session does with the socket is minimq's: any reads, writes and flushes.
 */
module Reconnect {
  import opened Prelude
  import opened Tcp
  import opened Socket
  import opened SocketRuns
  import opened Disconnect

  datatype Phase =
    | Backoff                       // the top of the loop, up to `is_open`
    | Found                         // a previous session left the socket open
    | Usable                         // the socket can be connected
    | Connecting(waiting: bool)     // `waiting` if this turn has polled it already
    | Session(connected: bool)      // `connected` if `conn` holds the connection
    | Disconnecting(stage: Stage)
    | Panicked                      // the `unreachable!()` of `connect`

  datatype Loop = Loop(w: World, phase: Phase)

  datatype Act =
    | Network(n: NetStep)
    | Wake                          // by a timer
    | Resume
    | Yield
    | LookAtSocket
    | Drop
    | Open(remote: Endpoint, port: nat, routable: bool)
    | PollConnect
    | SessionUp
    | Use(op: Op)
    | SessionFails                  // before it had connected: the transport is dropped as it is
    | StartDisconnect               // after that
    | PollDisconnect(l: Label)

  predicate MayYield(p: Phase) {
    p == Backoff || p == Connecting(true) || p.Session? || p == Disconnecting(Leave)
  }

  ghost predicate CanAct(k: Loop, a: Act) {
    match a
    case Network(n) => NetEnabled(k.w.sock, n)
    case Wake => true
    case Resume => Enabled(k.w, Dispatch)
    case Yield => Acting(k.w) && MayYield(k.phase)
    case LookAtSocket => Acting(k.w) && k.phase == Backoff
    case Drop => Acting(k.w) && k.phase == Found
    case Open(_, _, _) => Acting(k.w) && k.phase == Usable
    case PollConnect => Acting(k.w) && k.phase == Connecting(false)
    case SessionUp => Acting(k.w) && k.phase == Session(false)
    case Use(op) => Acting(k.w) && k.phase.Session? && !op.Connect? && !op.Accept? && Honest(k.w.sock, op)
    case SessionFails => Acting(k.w) && k.phase == Session(false)
    case StartDisconnect => Acting(k.w) && k.phase == Session(true)
    case PollDisconnect(l) =>
      k.phase.Disconnecting? && (l.DisconnectCheck? || l.DisconnectRegister?) && CanStep(Call(k.w, k.phase.stage), l)
  }

  // What a turn of the executor does to the await the task is in.
  function Resumed(p: Phase): Phase {
    if p.Connecting? then Connecting(false) else if p == Disconnecting(Asleep) then Disconnecting(Look) else p
  }

  function Yielded(p: Phase): Phase { if p.Disconnecting? then Disconnecting(Asleep) else p }

  function AfterConnect(reply: Poll<Outcome>): Phase {
    if reply.Pending? then Connecting(true)
    else if reply.value == Unit then Session(false)
    else if reply.value == ConnReset then Backoff
    else Panicked
  }

  function AfterStage(stage: Stage): Phase { if stage == Done then Backoff else Disconnecting(stage) }

  function Perform(k: Loop, a: Act): Loop
    requires CanAct(k, a)
  {
    match a
    case Network(n) => k.(w := Do(k.w, Segment(n)))
    case Wake => k.(w := Do(k.w, OtherWake))
    case Resume => Loop(Do(k.w, Dispatch), Resumed(k.phase))
    case Yield => Loop(Do(k.w, Suspend), Yielded(k.phase))
    case LookAtSocket => k.(phase := if k.w.sock.IsOpen() then Found else Usable)
    case Drop => Loop(Do(k.w, AbortCall), Usable)
    case Open(remote, port, routable) =>
      if ConnectTo(k.w.sock, remote, port, routable).Err? then k.(phase := Backoff)
      else Loop(Do(k.w, ConnectCall(remote, port, routable)), Connecting(false))
    case PollConnect => Loop(PollStep(k.w, Connect), AfterConnect(PollOp(k.w.sock, Connect, k.w.owner).reply))
    case SessionUp => k.(phase := Session(true))
    case Use(op) => k.(w := PollStep(k.w, op))
    case SessionFails => k.(phase := Backoff)
    case StartDisconnect => Loop(Do(k.w, CloseCall), Disconnecting(Look))
    case PollDisconnect(l) => Loop(Do(k.w, l), AfterStage(Next(Call(k.w, k.phase.stage), l)))
  }

  ghost predicate Acts(k: Loop, acts: seq<Act>)
    decreases |acts|
  {
    acts == [] || (CanAct(k, acts[0]) && Acts(Perform(k, acts[0]), acts[1..]))
  }

  ghost function After(k: Loop, acts: seq<Act>): Loop
    requires Acts(k, acts)
    decreases |acts|
  {
    if acts == [] then k else After(Perform(k, acts[0]), acts[1..])
  }

  function Boot(owner: Task, rxCap: nat, txCap: nat): Loop { Loop(Init(owner, rxCap, txCap), Backoff) }

  // ---- The invariant ------------------------------------------------------------------------

  ghost predicate PhaseInv(w: World, p: Phase) {
    match p
    case Backoff => !w.checking
    case Found => Acting(w)
    case Usable => Acting(w) && !w.sock.IsOpen()
    case Connecting(waiting) =>
      && !w.checking && w.h.begun && !w.h.localClose
      && if waiting then Safe(w, Connect) else w.running
    case Session(_) => !w.checking && w.h.begun && !w.h.localClose
    case Disconnecting(stage) =>
      && stage != Done && w.h.localClose
      && (w.running <==> stage != Asleep) && (w.checking <==> stage == Register)
    case Panicked => false
  }

  ghost predicate LoopInv(k: Loop) { Inv(k.w) && k.w.sock.listenPort == 0 && PhaseInv(k.w, k.phase) }

  lemma SegmentKeepsPhase(w: World, p: Phase, n: NetStep)
    requires Inv(w) && PhaseInv(w, p) && NetEnabled(w.sock, n)
    ensures PhaseInv(Do(w, Segment(n)), p)
    ensures w.sock.listenPort == 0 ==> Do(w, Segment(n)).sock.listenPort == 0
  {
    NetKeepsWaiting(w.sock, n, w.owner);
  }

  lemma PollKeepsPhase(w: World, op: Op)
    requires Inv(w) && Acting(w) && Honest(w.sock, op)
    ensures var v := PollStep(w, op);
            && Acting(v) && v.h.begun == w.h.begun && v.h.localClose == w.h.localClose
            && v.sock.state == w.sock.state && v.sock.listenPort == w.sock.listenPort
  {
    PollKeepsInv(w.sock, op, w.owner);
    PollKeepsListenPort(w.sock, op, w.owner);
  }

  lemma ConnectKeepsInv(k: Loop)
    requires LoopInv(k) && CanAct(k, PollConnect)
    ensures LoopInv(Perform(k, PollConnect))
  {
    StepKeepsInv(k.w, PollFuture(Connect));
    PollKeepsPhase(k.w, Connect);
    PollKeepsWaiting(k.w.sock, Connect, k.w.owner);
  }

  lemma UseKeepsInv(k: Loop, op: Op)
    requires LoopInv(k) && CanAct(k, Use(op))
    ensures LoopInv(Perform(k, Use(op)))
  {
    StepKeepsInv(k.w, PollFuture(op));
    PollKeepsPhase(k.w, op);
  }

  lemma DropKeepsInv(k: Loop)
    requires LoopInv(k) && CanAct(k, Drop)
    ensures LoopInv(Perform(k, Drop))
  {
    StepKeepsInv(k.w, AbortCall);
  }

  lemma OpenKeepsInv(k: Loop, a: Act)
    requires LoopInv(k) && CanAct(k, a) && a.Open?
    ensures LoopInv(Perform(k, a))
  {
    StepKeepsInv(k.w, ConnectCall(a.remote, a.port, a.routable));
  }

  lemma DisconnectKeepsInv(k: Loop, a: Act)
    requires LoopInv(k) && CanAct(k, a) && (a.StartDisconnect? || a.PollDisconnect?)
    ensures LoopInv(Perform(k, a))
  {
    StepKeepsInv(k.w, if a.StartDisconnect? then CloseCall else a.l);
  }

  lemma TurnKeepsInv(k: Loop, a: Act)
    requires LoopInv(k) && CanAct(k, a) && (a.Resume? || a.Yield? || a.Wake?)
    ensures LoopInv(Perform(k, a))
  {
    StepKeepsInv(k.w, if a.Resume? then Dispatch else if a.Yield? then Suspend else OtherWake);
  }

  lemma ActKeepsInv(k: Loop, a: Act)
    requires LoopInv(k) && CanAct(k, a)
    ensures LoopInv(Perform(k, a))
  {
    match a
    case Network(n) =>
      StepKeepsInv(k.w, Segment(n));
      SegmentKeepsPhase(k.w, k.phase, n);
    case Wake | Resume | Yield => TurnKeepsInv(k, a);
    case Drop => DropKeepsInv(k);
    case Open(_, _, _) => OpenKeepsInv(k, a);
    case PollConnect => ConnectKeepsInv(k);
    case Use(op) => UseKeepsInv(k, op);
    case StartDisconnect | PollDisconnect(_) => DisconnectKeepsInv(k, a);
    case LookAtSocket | SessionUp | SessionFails =>
  }

  lemma {:induction false} ActsKeepInv(k: Loop, acts: seq<Act>)
    requires LoopInv(k) && Acts(k, acts)
    ensures LoopInv(After(k, acts))
    decreases |acts|
  {
    if acts != [] {
      ActKeepsInv(k, acts[0]);
      ActsKeepInv(Perform(k, acts[0]), acts[1..]);
    }
  }

  lemma BootIsSound(owner: Task, rxCap: nat, txCap: nat)
    ensures LoopInv(Boot(owner, rxCap, txCap))
  {
    InitIsSound(owner, rxCap, txCap);
  }

  // ---- Every step of every run --------------------------------------------------------------

  predicate Addressable(remote: Endpoint, port: nat, routable: bool) {
    remote.addr != 0 && remote.port != 0 && port != 0 && routable
  }

  /** How each act moves the loop on, in terms of what became of the connection. */
  ghost predicate MovesRight(k: Loop, a: Act, after: Loop)
    requires CanAct(k, a)
  {
    match a
    case Network(_) | Wake | Use(_) => after.phase == k.phase
    case Resume =>
      && after.w.sock == k.w.sock
      && after.phase == (if k.phase.Connecting? then Connecting(false)
                         else if k.phase == Disconnecting(Asleep) then Disconnecting(Look) else k.phase)
    case Yield =>
      after.w.sock == k.w.sock && after.phase == if k.phase.Disconnecting? then Disconnecting(Asleep) else k.phase
    case LookAtSocket => after == k.(phase := if k.w.sock.IsOpen() then Found else Usable)
    case Drop => after.phase == Usable && after.w.sock.state == Closed
    case Open(remote, port, routable) =>
      if Addressable(remote, port, routable) then
        && after.phase == Connecting(false) && after.w.sock.state == SynSent
        && after.w.sock.localPort == port && after.w.sock.remote == Some(remote)
      else after == k.(phase := Backoff)
    case PollConnect =>
      after.phase == if k.w.sock.MaySend() then Session(false) else if k.w.h.cut then Backoff else Connecting(true)
    case SessionUp => after == k.(phase := Session(true))
    case SessionFails => after == k.(phase := Backoff)
    case StartDisconnect =>
      && after.phase == Disconnecting(Look) && !after.w.sock.MaySend() && !after.w.sock.Handshaking()
      && after.w.sock.tx == k.w.sock.tx && after.w.sock.rx == k.w.sock.rx
    case PollDisconnect(l) =>
      if l.DisconnectCheck? then
        after.w.sock == k.w.sock && after.phase == if k.w.sock.IsOpen() then Disconnecting(Register) else Backoff
      else after.w.sock == k.w.sock.(rxWaker := Some(k.w.owner)) && after.phase == Disconnecting(Leave)
  }

  lemma ConnectMovesRight(k: Loop)
    requires LoopInv(k) && CanAct(k, PollConnect)
    ensures MovesRight(k, PollConnect, Perform(k, PollConnect))
  {
  }

  lemma CallMovesRight(k: Loop, a: Act)
    requires LoopInv(k) && CanAct(k, a) && (a.Drop? || a.Open? || a.StartDisconnect?)
    ensures MovesRight(k, a, Perform(k, a))
  {
  }

  lemma OtherMovesRight(k: Loop, a: Act)
    requires LoopInv(k) && CanAct(k, a) && !a.PollConnect? && !a.Drop? && !a.Open? && !a.StartDisconnect?
    ensures MovesRight(k, a, Perform(k, a))
  {
  }

  lemma ActMovesRight(k: Loop, a: Act)
    requires LoopInv(k) && CanAct(k, a)
    ensures MovesRight(k, a, Perform(k, a))
  {
    if a.PollConnect? {
      ConnectMovesRight(k);
    } else if a.Drop? || a.Open? || a.StartDisconnect? {
      CallMovesRight(k, a);
    } else {
      OtherMovesRight(k, a);
    }
  }

  /** Every step is the right one: over every run of the loop, each act leads on exactly as the socket says. */
  lemma StepsAreRight(owner: Task, rxCap: nat, txCap: nat, acts: seq<Act>, a: Act)
    requires Acts(Boot(owner, rxCap, txCap), acts) && CanAct(After(Boot(owner, rxCap, txCap), acts), a)
    ensures var k := After(Boot(owner, rxCap, txCap), acts); MovesRight(k, a, Perform(k, a))
  {
    BootIsSound(owner, rxCap, txCap);
    ActsKeepInv(Boot(owner, rxCap, txCap), acts);
    ActMovesRight(After(Boot(owner, rxCap, txCap), acts), a);
  }

  // ---- Connecting ---------------------------------------------------------------------------

  /**
   Over every run of the loop, connecting works: the socket is never refused for its state, the
   `unreachable!()` is not reached, a session is only started on ESTABLISHED or CLOSE-WAIT, and a
   connect that fails leaves the socket CLOSED.
   */
  lemma ConnectsCleanly(owner: Task, rxCap: nat, txCap: nat, acts: seq<Act>, a: Act)
    requires Acts(Boot(owner, rxCap, txCap), acts) && CanAct(After(Boot(owner, rxCap, txCap), acts), a)
    ensures var k := After(Boot(owner, rxCap, txCap), acts);
            && (a.Open? ==> ConnectTo(k.w.sock, a.remote, a.port, a.routable) != Err(OpenInvalidState))
            && Perform(k, a).phase != Panicked
            && (a.PollConnect? && Perform(k, a).phase.Session? ==> k.w.sock.state in {Established, CloseWait})
            && (a.PollConnect? && Perform(k, a).phase == Backoff ==> k.w.sock.state == Closed)
  {
    BootIsSound(owner, rxCap, txCap);
    ActsKeepInv(Boot(owner, rxCap, txCap), acts);
    ConnectsAt(After(Boot(owner, rxCap, txCap), acts), a);
  }

  lemma ConnectsAt(k: Loop, a: Act)
    requires LoopInv(k) && CanAct(k, a)
    ensures a.Open? ==> ConnectTo(k.w.sock, a.remote, a.port, a.routable) != Err(OpenInvalidState)
    ensures Perform(k, a).phase != Panicked
    ensures a.PollConnect? && Perform(k, a).phase.Session? ==> k.w.sock.state in {Established, CloseWait}
    ensures a.PollConnect? && Perform(k, a).phase == Backoff ==> k.w.sock.state == Closed
  {
    ActKeepsInv(k, a);
  }

  /** Waiting for the connection never stalls the loop: something the network may do wakes the task. */
  lemma ConnectNeverStalls(owner: Task, rxCap: nat, txCap: nat, acts: seq<Act>)
    requires Acts(Boot(owner, rxCap, txCap), acts)
    ensures var k := After(Boot(owner, rxCap, txCap), acts);
            k.phase.Connecting? && !k.w.running ==> !SleepsForEver(k.w)
  {
    BootIsSound(owner, rxCap, txCap);
    ActsKeepInv(Boot(owner, rxCap, txCap), acts);
    var k := After(Boot(owner, rxCap, txCap), acts);
    if k.phase.Connecting? && !k.w.running {
      WokenInTime(k.w);
    }
  }

  // ---- Stalling -----------------------------------------------------------------------------

  /** Asleep in `disconnect` for ever, before the loop has looked at the socket again. */
  ghost predicate StallsAfter(k: Loop, acts: seq<Act>) {
    && Acts(k, acts) && LookAtSocket !in acts
    && After(k, acts).phase == Disconnecting(Asleep) && SleepsForEver(After(k, acts).w)
  }

  ghost predicate CanStall(k: Loop) { exists acts :: StallsAfter(k, acts) }

  function CallOf(k: Loop): Call
    requires k.phase.Disconnecting?
  {
    Call(k.w, k.phase.stage)
  }

  // In `disconnect`, the loop does what the call does.
  function LabelOf(a: Act): Label {
    match a
    case Network(n) => Segment(n)
    case Wake => OtherWake
    case Resume => Dispatch
    case PollDisconnect(l) => l
    case _ => Suspend
  }

  function ActOf(l: Label): Act {
    match l
    case Segment(n) => Network(n)
    case OtherWake => Wake
    case Dispatch => Resume
    case Suspend => Yield
    case _ => PollDisconnect(l)
  }

  lemma ActIsStep(k: Loop, a: Act)
    requires LoopInv(k) && k.phase.Disconnecting? && CanAct(k, a)
    ensures CanStep(CallOf(k), LabelOf(a))
    ensures var c := Step(CallOf(k), LabelOf(a)); Perform(k, a) == Loop(c.w, AfterStage(c.stage))
  {
  }

  lemma StepIsAct(k: Loop, l: Label)
    requires LoopInv(k) && k.phase.Disconnecting? && CanStep(CallOf(k), l)
    ensures CanAct(k, ActOf(l)) && ActOf(l) != LookAtSocket
    ensures var c := Step(CallOf(k), l); Perform(k, ActOf(l)) == Loop(c.w, AfterStage(c.stage))
  {
  }

  lemma {:induction false} BackoffStays(k: Loop, acts: seq<Act>)
    requires k.phase == Backoff && Acts(k, acts) && LookAtSocket !in acts
    ensures After(k, acts).phase == Backoff
    decreases |acts|
  {
    if acts != [] {
      assert acts[0] in acts && Perform(k, acts[0]).phase == Backoff;
      BackoffStays(Perform(k, acts[0]), acts[1..]);
    }
  }

  lemma {:induction false} DoneStays(c: Call, ls: seq<Label>)
    requires c.stage == Done
    ensures !SleepsAfter(c, ls)
    decreases |ls|
  {
    if Awaits(c, ls) && ls != [] {
      assert Step(c, ls[0]).stage == Done;
      DoneStays(Step(c, ls[0]), ls[1..]);
    }
  }

  lemma {:induction false} LoopSleepsCallSleeps(k: Loop, acts: seq<Act>)
    requires LoopInv(k) && k.phase.Disconnecting? && StallsAfter(k, acts)
    ensures CanSleep(CallOf(k))
    decreases |acts|
  {
    if acts == [] {
      assert SleepsAfter(CallOf(k), []);
    } else {
      var next := Perform(k, acts[0]);
      assert acts[0] in acts;
      ActIsStep(k, acts[0]);
      ActKeepsInv(k, acts[0]);
      if next.phase == Backoff {
        BackoffStays(next, acts[1..]);
      }
      assert StallsAfter(next, acts[1..]);
      LoopSleepsCallSleeps(next, acts[1..]);
      Sooner(CallOf(k), LabelOf(acts[0]));
    }
  }

  lemma {:induction false} CallSleepsLoopSleeps(k: Loop, ls: seq<Label>)
    requires LoopInv(k) && k.phase.Disconnecting? && SleepsAfter(CallOf(k), ls)
    ensures CanStall(k)
    decreases |ls|
  {
    if ls == [] {
      assert StallsAfter(k, []);
    } else {
      var c, next := Step(CallOf(k), ls[0]), Perform(k, ActOf(ls[0]));
      StepIsAct(k, ls[0]);
      ActKeepsInv(k, ActOf(ls[0]));
      if c.stage == Done {
        DoneStays(c, ls[1..]);
      }
      CallSleepsLoopSleeps(next, ls[1..]);
      var acts :| StallsAfter(next, acts);
      assert ([ActOf(ls[0])] + acts)[1..] == acts;
      assert StallsAfter(k, [ActOf(ls[0])] + acts);
    }
  }

  /**
   A round whose session ends with `disconnect` may never reach its next attempt exactly when
   `MayStall` holds of the socket the session leaves behind, over every run of the loop.
   */
  lemma RoundCanStall(owner: Task, rxCap: nat, txCap: nat, acts: seq<Act>)
    requires Acts(Boot(owner, rxCap, txCap), acts) && CanAct(After(Boot(owner, rxCap, txCap), acts), StartDisconnect)
    ensures var k := After(Boot(owner, rxCap, txCap), acts);
            CanStall(Perform(k, StartDisconnect)) <==> MayStall(k.w)
  {
    BootIsSound(owner, rxCap, txCap);
    ActsKeepInv(Boot(owner, rxCap, txCap), acts);
    StallsAt(After(Boot(owner, rxCap, txCap), acts));
  }

  lemma StallsAt(k: Loop)
    requires LoopInv(k) && CanAct(k, StartDisconnect)
    ensures CanStall(Perform(k, StartDisconnect)) <==> MayStall(k.w)
  {
    var closed := Perform(k, StartDisconnect);
    ActKeepsInv(k, StartDisconnect);
    CallCanSleepForever(k.w);
    assert CallOf(closed) == Begun(k.w);
    if CanStall(closed) {
      var acts :| StallsAfter(closed, acts);
      LoopSleepsCallSleeps(closed, acts);
    }
    if CanSleep(Begun(k.w)) {
      var ls :| SleepsAfter(Begun(k.w), ls);
      CallSleepsLoopSleeps(closed, ls);
    }
  }

  lemma SleepsOn(w: World, n: NetStep)
    requires SleepsForEver(w) && NetEnabled(w.sock, n)
    ensures SleepsForEver(Do(w, Segment(n)))
  {
    var next := Do(w, Segment(n));
    forall ls ensures SleepsThrough(next, ls) {
      assert ([Segment(n)] + ls)[1..] == ls;
      assert SleepsThrough(w, [Segment(n)] + ls);
    }
  }

  /** Once stalled, the loop stays stalled: nothing that happens to the socket ever makes it go on. */
  lemma {:induction false} StalledStays(k: Loop, acts: seq<Act>)
    requires k.phase == Disconnecting(Asleep) && SleepsForEver(k.w) && Acts(k, acts) && Wake !in acts
    ensures After(k, acts).phase == Disconnecting(Asleep)
    decreases |acts|
  {
    if acts != [] {
      assert acts[0] in acts && SleepsThrough(k.w, []) && !k.w.pending;
      assert acts[0].Network?;
      SleepsOn(k.w, acts[0].n);
      StalledStays(Perform(k, acts[0]), acts[1..]);
    }
  }

  // ---- It happens ---------------------------------------------------------------------------

  ghost predicate Gets(k: Loop, v: Loop) { exists acts :: Acts(k, acts) && After(k, acts) == v }

  lemma {:induction false} ActSnoc(k: Loop, acts: seq<Act>, a: Act)
    requires Acts(k, acts) && CanAct(After(k, acts), a)
    ensures Acts(k, acts + [a]) && After(k, acts + [a]) == Perform(After(k, acts), a)
    decreases |acts|
  {
    if acts == [] {
      assert acts + [a] == [a];
      assert Acts(Perform(k, a), [a][1..]);
    } else {
      ActSnoc(Perform(k, acts[0]), acts[1..], a);
      assert (acts + [a])[1..] == acts[1..] + [a];
    }
  }

  lemma GetsNext(k: Loop, v: Loop, a: Act)
    requires Gets(k, v) && CanAct(v, a)
    ensures Gets(k, Perform(v, a))
  {
    var acts :| Acts(k, acts) && After(k, acts) == v;
    ActSnoc(k, acts, a);
  }

  lemma GetsItself(k: Loop)
    ensures Gets(k, k)
  {
    assert Acts(k, []) && After(k, []) == k;
  }

  lemma {:induction false} GetsOn(k: Loop, v: Loop, acts: seq<Act>)
    requires Gets(k, v) && Acts(v, acts)
    ensures Gets(k, After(v, acts))
    decreases |acts|
  {
    if acts != [] {
      GetsNext(k, v, acts[0]);
      GetsOn(k, Perform(v, acts[0]), acts[1..]);
    }
  }

  const BOOT: Loop := Boot(0, 4, 4)

  // Where the run is, and that it is still in its first connection.
  predicate At(k: Loop, phase: Phase, state: State) {
    && k.phase == phase && k.w.owner == 0 && !k.w.checking && k.w.sock.listenPort == 0
    && k.w.sock.state == state && (state != Closed ==> k.w.sock.rx == Ring(4, 0, []))
  }

  const OPEN: Act := Open(Endpoint(1, 80), 58026, true)

  lemma LookSteps()
    ensures CanAct(BOOT, Resume) && CanAct(Perform(BOOT, Resume), LookAtSocket)
    ensures var k := Perform(Perform(BOOT, Resume), LookAtSocket);
            At(k, Usable, Closed) && Acting(k.w) && k.w.sock.rx.cap == 4
  {
  }

  lemma OpenStep(k: Loop)
    requires At(k, Usable, Closed) && Acting(k.w) && k.w.sock.rx.cap == 4
    ensures CanAct(k, OPEN)
    ensures At(Perform(k, OPEN), Connecting(false), SynSent) && Acting(Perform(k, OPEN).w)
  {
  }

  lemma WaitSteps(k: Loop)
    requires At(k, Connecting(false), SynSent) && Acting(k.w)
    ensures CanAct(k, PollConnect) && CanAct(Perform(k, PollConnect), Yield)
    ensures var v := Perform(Perform(k, PollConnect), Yield);
            At(v, Connecting(true), SynSent) && !v.w.running && v.w.sock.txWaker == Some(0)
  {
  }

  lemma WakeSteps(k: Loop)
    requires At(k, Connecting(true), SynSent) && !k.w.running && k.w.sock.txWaker == Some(0)
    ensures CanAct(k, Network(SynAck)) && CanAct(Perform(k, Network(SynAck)), Resume)
    ensures var v := Perform(Perform(k, Network(SynAck)), Resume);
            At(v, Connecting(false), Established) && Acting(v.w)
  {
  }

  lemma SessionSteps(k: Loop)
    requires At(k, Connecting(false), Established) && Acting(k.w)
    ensures CanAct(k, PollConnect) && CanAct(Perform(k, PollConnect), SessionUp)
    ensures var v := Perform(Perform(k, PollConnect), SessionUp);
            At(v, Session(true), Established) && Acting(v.w)
  {
  }

  lemma ReadStep(k: Loop)
    requires At(k, Session(true), Established) && Acting(k.w)
    ensures CanAct(k, Use(Read(1)))
    ensures var v := Perform(k, Use(Read(1)));
            At(v, Session(true), Established) && Acting(v.w) && v.w.sock.rxWaker == Some(0)
  {
  }

  lemma InConnect() returns (k: Loop)
    ensures Gets(BOOT, k) && At(k, Connecting(false), Established) && Acting(k.w)
  {
    GetsItself(BOOT);
    LookSteps();
    GetsNext(BOOT, BOOT, Resume);
    GetsNext(BOOT, Perform(BOOT, Resume), LookAtSocket);
    k := Perform(Perform(BOOT, Resume), LookAtSocket);
    OpenStep(k);
    GetsNext(BOOT, k, OPEN);
    k := Perform(k, OPEN);
    WaitSteps(k);
    GetsNext(BOOT, k, PollConnect);
    GetsNext(BOOT, Perform(k, PollConnect), Yield);
    k := Perform(Perform(k, PollConnect), Yield);
    WakeSteps(k);
    GetsNext(BOOT, k, Network(SynAck));
    GetsNext(BOOT, Perform(k, Network(SynAck)), Resume);
    k := Perform(Perform(k, Network(SynAck)), Resume);
  }

  // A session on an ESTABLISHED connection, which waits to read.
  lemma InSession() returns (k: Loop)
    ensures Gets(BOOT, k) && At(k, Session(true), Established) && Acting(k.w) && k.w.sock.rxWaker == Some(0)
  {
    k := InConnect();
    SessionSteps(k);
    GetsNext(BOOT, k, PollConnect);
    GetsNext(BOOT, Perform(k, PollConnect), SessionUp);
    k := Perform(Perform(k, PollConnect), SessionUp);
    ReadStep(k);
    GetsNext(BOOT, k, Use(Read(1)));
    k := Perform(k, Use(Read(1)));
  }

  lemma GetsKeepsInv(k: Loop)
    requires Gets(BOOT, k)
    ensures LoopInv(k)
  {
    var acts :| Acts(BOOT, acts) && After(BOOT, acts) == k;
    BootIsSound(0, 4, 4);
    ActsKeepInv(BOOT, acts);
  }

  /** The loop does stall: the first session fails on an ESTABLISHED connection, its waker in place. */
  lemma LoopStalls() returns (session: Loop, k: Loop)
    ensures Gets(BOOT, session) && CanAct(session, StartDisconnect) && session.w.sock.rxWaker == Some(session.w.owner)
    ensures Gets(Perform(session, StartDisconnect), k) && Gets(BOOT, k)
    ensures k.phase == Disconnecting(Asleep) && SleepsForEver(k.w)
  {
    session := InSession();
    GetsKeepsInv(session);
    StallsAt(session);
    var closed := Perform(session, StartDisconnect);
    var acts :| StallsAfter(closed, acts);
    k := After(closed, acts);
    GetsNext(BOOT, session, StartDisconnect);
    GetsOn(BOOT, closed, acts);
  }

  // ---- For the code that follows a run ------------------------------------------------------

  lemma {:induction false} NetworkActs(k: Loop, ns: seq<NetStep>) returns (acts: seq<Act>)
    requires NetLegal(k.w.sock, ns)
    ensures Acts(k, acts) && forall a :: a in acts ==> a.Network?
    ensures var v := After(k, acts);
            && v == k.(w := v.w) && v.w.sock == NetFinal(k.w.sock, ns).sock
            && v.w.owner == k.w.owner && v.w.running == k.w.running && v.w.checking == k.w.checking
    decreases |ns|
  {
    if ns == [] {
      acts := [];
    } else {
      var rest := NetworkActs(Perform(k, Network(ns[0])), ns[1..]);
      acts := [Network(ns[0])] + rest;
      assert acts[1..] == rest;
    }
  }

  /** `acts` is a run from `start` to `k`. Behind two more calls, so that naming a run does not unfold it. */
  ghost predicate Ran(start: Loop, acts: seq<Act>, k: Loop) { RanBehind(2, start, acts, k) }

  ghost predicate RanBehind(calls: nat, start: Loop, acts: seq<Act>, k: Loop) {
    if calls == 0 then Acts(start, acts) && After(start, acts) == k else RanBehind(calls - 1, start, acts, k)
  }

  lemma RanIs(start: Loop, acts: seq<Act>, k: Loop)
    ensures Ran(start, acts, k) <==> Acts(start, acts) && After(start, acts) == k
  {
    assert RanBehind(2, start, acts, k) == RanBehind(1, start, acts, k) == RanBehind(0, start, acts, k);
  }

  lemma RanNext(start: Loop, acts: seq<Act>, k: Loop, a: Act)
    requires Ran(start, acts, k) && CanAct(k, a)
    ensures Ran(start, acts + [a], Perform(k, a))
  {
    RanIs(start, acts, k);
    ActSnoc(start, acts, a);
    RanIs(start, acts + [a], Perform(k, a));
  }

  lemma {:induction false} RanOn(start: Loop, acts: seq<Act>, k: Loop, more: seq<Act>)
    requires Ran(start, acts, k) && Acts(k, more)
    ensures Ran(start, acts + more, After(k, more))
    decreases |more|
  {
    if more == [] {
      assert acts + more == acts;
    } else {
      RanNext(start, acts, k, more[0]);
      RanOn(start, acts + [more[0]], Perform(k, more[0]), more[1..]);
      assert acts + [more[0]] + more[1..] == acts + more;
    }
  }

  /** The connects of a run, in order. */
  function Opens(acts: seq<Act>): (opens: seq<Act>)
    ensures forall a :: a in opens ==> a.Open?
  {
    if acts == [] then []
    else Opens(acts[..|acts| - 1]) + if acts[|acts| - 1].Open? then [acts[|acts| - 1]] else []
  }

  lemma OpensSnoc(acts: seq<Act>, a: Act)
    ensures Opens(acts + [a]) == Opens(acts) + if a.Open? then [a] else []
  {
    assert (acts + [a])[..|acts|] == acts;
  }

  lemma {:induction false} OpensWithout(acts: seq<Act>, more: seq<Act>)
    requires forall a :: a in more ==> !a.Open?
    ensures Opens(acts + more) == Opens(acts)
    decreases |more|
  {
    if more == [] {
      assert acts + more == acts;
    } else {
      var init := more[..|more| - 1];
      assert (acts + more)[..|acts + more| - 1] == acts + init;
      assert forall a :: a in init ==> a in more;
      OpensWithout(acts, init);
    }
  }
}
