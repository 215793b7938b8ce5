/**
 The tasks of `src/main.rs` and the two sockets together: module Rtic says which frame runs, modules
 Reconnect and Lifecycle what the MQTT and the HTTP task do when it is theirs, and the network touches
 a socket only inside `iface.poll`.
 */
module Firmware {
  import opened Prelude
  import opened Tcp
  import opened Socket
  import opened SocketRuns
  import Rtic
  import RticGuarantees
  import Reconnect
  import Lifecycle
  import Disconnect
  import P = PollRequest

  datatype System = System(
    core: Rtic.Core,
    mqtt: Reconnect.Loop,
    http: Lifecycle.Http,
    shown: (Sock, Sock))   // both sockets, as the last `iface.poll` left them

  /** What an act of a task is to the executor and to the lock. */
  datatype Touch =
    | ByNetwork
    | Wakes
    | Resumes
    | Yields
    | Looks       // a section that only reads
    | Sections    // any other section
    | Aside       // no section at all

  function MqttTouch(a: Reconnect.Act): Touch {
    match a
    case Network(_) => ByNetwork
    case Wake => Wakes
    case Resume => Resumes
    case Yield => Yields
    case LookAtSocket => Looks
    case PollDisconnect(l) => if l.DisconnectCheck? then Looks else Sections
    case SessionUp | SessionFails => Aside
    case _ => Sections
  }

  function HttpTouch(a: Lifecycle.Act): Touch {
    match a
    case Network(_) => ByNetwork
    case Schedule(l) => if l.Dispatch? then Resumes else if l.Suspend? then Yields else Wakes
    case ReadTimer | WriteTimer | AbortTimer => Aside
    case _ => Sections
  }

  const IFACE_POLL: Rtic.Act := Rtic.PollerAct(P.IfacePoll)

  datatype Move =
    | TaskMove(step: Rtic.Act)                                   // touches no socket
    | MqttMove(step: Rtic.Act, mqtt: Reconnect.Act)
    | HttpMove(step: Rtic.Act, http: Lifecycle.Act)
    | PollMove(mqtts: seq<Reconnect.Act>, https: seq<Lifecycle.Act>)   // `iface.poll`

  function StepOf(m: Move): Rtic.Act { if m.PollMove? then IFACE_POLL else m.step }

  /** Where in the life of its frame task `t` may do what touches its socket so. */
  predicate Allowed(core: Rtic.Core, step: Rtic.Act, t: Rtic.Task, touch: Touch)
    requires Rtic.Enabled(core, step)
  {
    match touch
    case ByNetwork => false
    case Wakes | Aside => step.Tick?
    case Resumes => step == Rtic.Enter(t)
    case Yields => step == Rtic.Return && Rtic.Top(core).task == t
    case Looks => step == Rtic.Unlock && Rtic.Top(core).task == t && Rtic.Top(core).at == Rtic.InLock
    case Sections => step == Rtic.Mutate && Rtic.Top(core).task == t
  }

  predicate HasSocket(t: Rtic.Task) { t == Rtic.Mqtt || t == Rtic.Http }

  // A step that neither begins nor ends a turn of a task with a socket, nor lets the network at one.
  predicate Plain(core: Rtic.Core, step: Rtic.Act)
    requires Rtic.Enabled(core, step)
  {
    step != IFACE_POLL && !(step.Enter? && HasSocket(step.t)) && !(step.Return? && HasSocket(Rtic.Top(core).task))
  }

  ghost predicate CanMove(f: System, m: Move) {
    && Rtic.Enabled(f.core, StepOf(m))
    && match m
       case TaskMove(step) => Plain(f.core, step)
       case MqttMove(step, a) => Allowed(f.core, step, Rtic.Mqtt, MqttTouch(a)) && Reconnect.CanAct(f.mqtt, a)
       case HttpMove(step, a) => Allowed(f.core, step, Rtic.Http, HttpTouch(a)) && Lifecycle.CanAct(f.http, a)
       case PollMove(mqtts, https) =>
         && Reconnect.Acts(f.mqtt, mqtts) && (forall a :: a in mqtts ==> a.Network?)
         && Lifecycle.Acts(f.http, https) && (forall a :: a in https ==> a.Network?)
  }

  ghost function Make(f: System, m: Move): System
    requires CanMove(f, m)
  {
    var core := Rtic.Do(f.core, StepOf(m));
    match m
    case TaskMove(_) => f.(core := core)
    case MqttMove(_, a) => f.(core := core, mqtt := Reconnect.Perform(f.mqtt, a))
    case HttpMove(_, a) => f.(core := core, http := Lifecycle.Perform(f.http, a))
    case PollMove(mqtts, https) =>
      var mqtt, http := Reconnect.After(f.mqtt, mqtts), Lifecycle.After(f.http, https);
      System(core, mqtt, http, (mqtt.w.sock, http.w.sock))
  }

  ghost predicate Playable(f: System, ms: seq<Move>)
    decreases |ms|
  {
    ms == [] || (CanMove(f, ms[0]) && Playable(Make(f, ms[0]), ms[1..]))
  }

  ghost function Played(f: System, ms: seq<Move>): System
    requires Playable(f, ms)
    decreases |ms|
  {
    if ms == [] then f else Played(Make(f, ms[0]), ms[1..])
  }

  /** init spawns both tasks, each with a socket of its own. */
  function Boot(rxCap: nat, txCap: nat): System {
    var mqtt, http := Reconnect.Boot(0, rxCap, txCap), Lifecycle.Boot(1, rxCap, txCap);
    System(Rtic.BOOT, mqtt, http, (mqtt.w.sock, http.w.sock))
  }

  // ---- The parts are runs of their own ------------------------------------------------------

  lemma {:induction false} TasksRun(f: System, ms: seq<Move>) returns (acts: seq<Rtic.Act>)
    requires Playable(f, ms)
    ensures Rtic.Legal(f.core, acts) && Rtic.Final(f.core, acts) == Played(f, ms).core
    decreases |ms|
  {
    if ms == [] {
      acts := [];
    } else {
      var rest := TasksRun(Make(f, ms[0]), ms[1..]);
      acts := [StepOf(ms[0])] + rest;
      assert acts[1..] == rest;
    }
  }

  lemma {:induction false} SocketsRun(mqtt: Reconnect.Loop, http: Lifecycle.Http, f: System, ms: seq<Move>)
    requires Playable(f, ms) && Reconnect.Gets(mqtt, f.mqtt) && Lifecycle.Gets(http, f.http)
    ensures Reconnect.Gets(mqtt, Played(f, ms).mqtt) && Lifecycle.Gets(http, Played(f, ms).http)
    decreases |ms|
  {
    if ms != [] {
      var m := ms[0];
      if m.MqttMove? {
        Reconnect.GetsNext(mqtt, f.mqtt, m.mqtt);
      } else if m.HttpMove? {
        Lifecycle.GetsNext(http, f.http, m.http);
      } else if m.PollMove? {
        Reconnect.GetsOn(mqtt, f.mqtt, m.mqtts);
        Lifecycle.GetsOn(http, f.http, m.https);
      }
      SocketsRun(mqtt, http, Make(f, m), ms[1..]);
    }
  }

  /** Every run of the firmware is a run of the tasks, one of the MQTT loop, and one of the HTTP server. */
  lemma RunsAreRuns(rxCap: nat, txCap: nat, ms: seq<Move>) returns (acts: seq<Rtic.Act>)
    requires Playable(Boot(rxCap, txCap), ms)
    ensures Rtic.Legal(Rtic.BOOT, acts) && Rtic.Final(Rtic.BOOT, acts) == Played(Boot(rxCap, txCap), ms).core
    ensures Reconnect.Gets(Reconnect.Boot(0, rxCap, txCap), Played(Boot(rxCap, txCap), ms).mqtt)
    ensures Lifecycle.Gets(Lifecycle.Boot(1, rxCap, txCap), Played(Boot(rxCap, txCap), ms).http)
  {
    acts := TasksRun(Boot(rxCap, txCap), ms);
    Reconnect.GetsItself(Reconnect.Boot(0, rxCap, txCap));
    Lifecycle.GetsItself(Lifecycle.Boot(1, rxCap, txCap));
    SocketsRun(Reconnect.Boot(0, rxCap, txCap), Lifecycle.Boot(1, rxCap, txCap), Boot(rxCap, txCap), ms);
  }

  // ---- The invariant ------------------------------------------------------------------------

  // The executor has the task on the stack exactly while its world is being polled.
  predicate InTurn(stack: seq<Rtic.Frame>, t: Rtic.Task, w: World) { w.running <==> Rtic.HasTask(stack, t) }

  ghost predicate SystemInv(f: System) {
    && Rtic.Inv(f.core) && Reconnect.LoopInv(f.mqtt) && Lifecycle.HttpInv(f.http)
    && InTurn(f.core.stack, Rtic.Mqtt, f.mqtt.w) && InTurn(f.core.stack, Rtic.Http, f.http.w)
    && !f.http.w.checking
    && (f.core.seen == f.core.mutated ==> f.shown == (f.mqtt.w.sock, f.http.w.sock))
  }

  lemma BootIsSound(rxCap: nat, txCap: nat)
    ensures SystemInv(Boot(rxCap, txCap))
  {
    RticGuarantees.BootIsSound();
    InitIsSound(0, rxCap, txCap);
    InitIsSound(1, rxCap, txCap);
  }

  // Which steps put a task on the stack or take it off.
  lemma WhoIsOnTheStack(core: Rtic.Core, step: Rtic.Act, t: Rtic.Task)
    requires Rtic.Inv(core) && Rtic.Enabled(core, step) && t != Rtic.Poller
    ensures Rtic.HasTask(Rtic.Do(core, step).stack, t) <==>
            step == Rtic.Enter(t) || (Rtic.HasTask(core.stack, t) && !(step.Return? && Rtic.Top(core).task == t))
  {
    if step.Enter? {
      Rtic.Pushed(core.stack, Rtic.Fresh(step.t));
    } else if step.Return? || (step.PollerWait? && Rtic.Do(core, step).r.pc == P.Suspended) {
      Rtic.OnlyOne(Rtic.Below(core.stack), Rtic.Top(core).task);
    } else if !step.PollerWait? && !step.Tick? && !step.TimerWake? {
      RetopKeepsTask(core, step, t);
    }
  }

  predicate StaysOnTop(step: Rtic.Act) {
    || step.Lock? || step.Mutate? || step.Publish? || step.Notify?
    || step.PollerLock? || step.PollerAct? || step.Unlock?
  }

  function NewTop(core: Rtic.Core, step: Rtic.Act): Rtic.Frame
    requires Rtic.Enabled(core, step) && StaysOnTop(step)
  {
    match step
    case Lock(r) => Rtic.Locking(Rtic.Top(core), {r})
    case Mutate => Rtic.Top(core).(at := Rtic.Mutated)
    case Publish => Rtic.Top(core).(at := Rtic.Stored)
    case Notify => Rtic.Top(core).(at := Rtic.Woken)
    case PollerLock => Rtic.Locking(Rtic.Top(core), Rtic.Needs(core.r.pc))
    case PollerAct(_) => Rtic.Top(core).(at := Rtic.Acted)
    case Unlock => Rtic.Fresh(Rtic.Top(core).task)
  }

  lemma RetopKeepsTask(core: Rtic.Core, step: Rtic.Act, t: Rtic.Task)
    requires Rtic.Enabled(core, step) && StaysOnTop(step)
    ensures Rtic.HasTask(Rtic.Do(core, step).stack, t) <==> Rtic.HasTask(core.stack, t)
  {
    assert Rtic.Do(core, step).stack == Rtic.Below(core.stack) + [NewTop(core, step)];
    NewTopKeepsTask(core.stack, NewTop(core, step), t);
  }

  lemma NewTopKeepsTask(stack: seq<Rtic.Frame>, f: Rtic.Frame, t: Rtic.Task)
    requires stack != [] && f.task == Rtic.Last(stack).task
    ensures Rtic.HasTask(Rtic.Below(stack) + [f], t) <==> Rtic.HasTask(stack, t)
  {
    Rtic.Pushed(Rtic.Below(stack), f);
  }

  // What an act does to the turn of its task and to its socket.
  ghost predicate Touches(before: World, after: World, touch: Touch) {
    && (after.running <==> touch == Resumes || (before.running && touch != Yields))
    && (touch != ByNetwork && touch != Sections ==> after.sock == before.sock)
  }

  lemma MqttTouches(k: Reconnect.Loop, a: Reconnect.Act)
    requires Reconnect.CanAct(k, a)
    ensures Touches(k.w, Reconnect.Perform(k, a).w, MqttTouch(a))
  {
  }

  lemma HttpTouches(k: Lifecycle.Http, a: Lifecycle.Act)
    requires Lifecycle.CanAct(k, a)
    ensures Touches(k.w, Lifecycle.Perform(k, a).w, HttpTouch(a))
    ensures Lifecycle.Perform(k, a).w.checking == k.w.checking
  {
  }

  lemma {:induction false} PollKeepsMqttTurn(k: Reconnect.Loop, acts: seq<Reconnect.Act>)
    requires Reconnect.Acts(k, acts) && forall a :: a in acts ==> a.Network?
    ensures Reconnect.After(k, acts).w.running == k.w.running
    decreases |acts|
  {
    if acts != [] {
      assert acts[0] in acts;
      MqttTouches(k, acts[0]);
      PollKeepsMqttTurn(Reconnect.Perform(k, acts[0]), acts[1..]);
    }
  }

  lemma {:induction false} PollKeepsHttpTurn(k: Lifecycle.Http, acts: seq<Lifecycle.Act>)
    requires Lifecycle.Acts(k, acts) && forall a :: a in acts ==> a.Network?
    ensures Lifecycle.After(k, acts).w.running == k.w.running && Lifecycle.After(k, acts).w.checking == k.w.checking
    decreases |acts|
  {
    if acts != [] {
      assert acts[0] in acts;
      HttpTouches(k, acts[0]);
      PollKeepsHttpTurn(Lifecycle.Perform(k, acts[0]), acts[1..]);
    }
  }

  // How far one move takes the counts of changes.
  lemma CountsChanges(core: Rtic.Core, step: Rtic.Act)
    requires Rtic.Enabled(core, step) && core.seen <= core.mutated
    ensures step == Rtic.Mutate ==> Rtic.Do(core, step).seen < Rtic.Do(core, step).mutated
    ensures step != Rtic.Mutate && step != IFACE_POLL ==>
              Rtic.Do(core, step).seen == core.seen && Rtic.Do(core, step).mutated == core.mutated
  {
  }

  // A world takes its turn exactly when its task enters the stack, and ends it when that returns.
  lemma ActKeepsTurn(core: Rtic.Core, step: Rtic.Act, t: Rtic.Task, before: World, after: World, touch: Touch)
    requires Rtic.Inv(core) && Rtic.Enabled(core, step) && HasSocket(t) && Allowed(core, step, t, touch)
    requires InTurn(core.stack, t, before) && Touches(before, after, touch)
    ensures InTurn(Rtic.Do(core, step).stack, t, after)
  {
    WhoIsOnTheStack(core, step, t);
  }

  // What the other tasks do leaves it alone.
  lemma OthersKeepTurn(core: Rtic.Core, step: Rtic.Act, t: Rtic.Task, w: World)
    requires Rtic.Inv(core) && Rtic.Enabled(core, step) && HasSocket(t) && InTurn(core.stack, t, w)
    requires step != Rtic.Enter(t) && !(step.Return? && Rtic.Top(core).task == t)
    ensures InTurn(Rtic.Do(core, step).stack, t, w)
  {
    WhoIsOnTheStack(core, step, t);
  }

  lemma MqttTurnAfter(f: System, m: Move)
    requires SystemInv(f) && CanMove(f, m)
    ensures InTurn(Make(f, m).core.stack, Rtic.Mqtt, Make(f, m).mqtt.w)
  {
    if m.MqttMove? {
      MqttTouches(f.mqtt, m.mqtt);
      ActKeepsTurn(f.core, m.step, Rtic.Mqtt, f.mqtt.w, Make(f, m).mqtt.w, MqttTouch(m.mqtt));
    } else {
      OthersKeepTurn(f.core, StepOf(m), Rtic.Mqtt, f.mqtt.w);
      if m.PollMove? {
        PollKeepsMqttTurn(f.mqtt, m.mqtts);
      }
    }
  }

  lemma HttpTurnAfter(f: System, m: Move)
    requires SystemInv(f) && CanMove(f, m)
    ensures InTurn(Make(f, m).core.stack, Rtic.Http, Make(f, m).http.w) && !Make(f, m).http.w.checking
  {
    if m.HttpMove? {
      HttpTouches(f.http, m.http);
      ActKeepsTurn(f.core, m.step, Rtic.Http, f.http.w, Make(f, m).http.w, HttpTouch(m.http));
    } else {
      OthersKeepTurn(f.core, StepOf(m), Rtic.Http, f.http.w);
      if m.PollMove? {
        PollKeepsHttpTurn(f.http, m.https);
      }
    }
  }

  lemma PartsAfter(f: System, m: Move)
    requires SystemInv(f) && CanMove(f, m)
    ensures Rtic.Inv(Make(f, m).core)
    ensures Reconnect.LoopInv(Make(f, m).mqtt) && Lifecycle.HttpInv(Make(f, m).http)
  {
    Rtic.StepKeepsInv(f.core, StepOf(m));
    if m.MqttMove? {
      Reconnect.ActKeepsInv(f.mqtt, m.mqtt);
    } else if m.HttpMove? {
      Lifecycle.ActKeepsInv(f.http, m.http);
    } else if m.PollMove? {
      Reconnect.ActsKeepInv(f.mqtt, m.mqtts);
      Lifecycle.ActsKeepInv(f.http, m.https);
    }
  }

  // A socket changes in `iface.poll`, or in a section of its owner.
  lemma WhoChanges(f: System, m: Move)
    requires CanMove(f, m)
    ensures Make(f, m).mqtt.w.sock != f.mqtt.w.sock ==>
              m.PollMove? || (StepOf(m) == Rtic.Mutate && Rtic.Top(f.core).task == Rtic.Mqtt)
    ensures Make(f, m).http.w.sock != f.http.w.sock ==>
              m.PollMove? || (StepOf(m) == Rtic.Mutate && Rtic.Top(f.core).task == Rtic.Http)
  {
    if m.MqttMove? {
      MqttTouches(f.mqtt, m.mqtt);
    } else if m.HttpMove? {
      HttpTouches(f.http, m.http);
    }
  }

  lemma MoveKeepsInv(f: System, m: Move)
    requires SystemInv(f) && CanMove(f, m)
    ensures SystemInv(Make(f, m))
  {
    PartsAfter(f, m);
    MqttTurnAfter(f, m);
    HttpTurnAfter(f, m);
    WhoChanges(f, m);
    CountsChanges(f.core, StepOf(m));
  }

  lemma {:induction false} PlayKeepsInv(f: System, ms: seq<Move>)
    requires SystemInv(f) && Playable(f, ms)
    ensures SystemInv(Played(f, ms))
    decreases |ms|
  {
    if ms != [] {
      MoveKeepsInv(f, ms[0]);
      PlayKeepsInv(Make(f, ms[0]), ms[1..]);
    }
  }

  // ---- What the whole guarantees ------------------------------------------------------------

  predicate Changes(f: Rtic.Frame, owner: Rtic.Task) {
    || (f.task == owner && f.held == {Rtic.NetRes})
    || (f.task == Rtic.Poller && f.held == {Rtic.NetRes, Rtic.Device})
  }

  lemma LockOfTheOwner(f: Rtic.Frame)
    requires Rtic.FrameOk(f) && f.at == Rtic.InLock && HasSocket(f.task)
    ensures f.held == {Rtic.NetRes}
  {
    var r :| r in f.held;
    assert forall q :: q in f.held ==> q == Rtic.NetRes;
  }

  ghost predicate Guarded(f: System, after: System) {
    && (after.mqtt.w.sock != f.mqtt.w.sock ==> f.core.stack != [] && Changes(Rtic.Top(f.core), Rtic.Mqtt))
    && (after.http.w.sock != f.http.w.sock ==> f.core.stack != [] && Changes(Rtic.Top(f.core), Rtic.Http))
  }

  // Who may change a socket holds the lock it needs.
  lemma ChangerHoldsTheLock(core: Rtic.Core, step: Rtic.Act, t: Rtic.Task)
    requires Rtic.Inv(core) && Rtic.Enabled(core, step) && HasSocket(t)
    requires step == IFACE_POLL || (step == Rtic.Mutate && Rtic.Top(core).task == t)
    ensures core.stack != [] && Changes(Rtic.Top(core), t)
  {
    if step == Rtic.Mutate {
      LockOfTheOwner(Rtic.Top(core));
    }
  }

  lemma MovesAreGuarded(f: System, m: Move)
    requires Rtic.Inv(f.core) && CanMove(f, m)
    ensures Guarded(f, Make(f, m))
  {
    WhoChanges(f, m);
    if Make(f, m).mqtt.w.sock != f.mqtt.w.sock {
      ChangerHoldsTheLock(f.core, StepOf(m), Rtic.Mqtt);
    }
    if Make(f, m).http.w.sock != f.http.w.sock {
      ChangerHoldsTheLock(f.core, StepOf(m), Rtic.Http);
    }
  }

  /**
   Sockets change under the network lock only: whatever moves a socket, the frame on top holds `net`,
   and it is the owner of that socket in one of its sections or the poller in `iface.poll`.
   */
  lemma SocketsChangeUnderTheLock(rxCap: nat, txCap: nat, ms: seq<Move>, m: Move)
    requires Playable(Boot(rxCap, txCap), ms) && CanMove(Played(Boot(rxCap, txCap), ms), m)
    ensures Guarded(Played(Boot(rxCap, txCap), ms), Make(Played(Boot(rxCap, txCap), ms), m))
  {
    BootIsSound(rxCap, txCap);
    PlayKeepsInv(Boot(rxCap, txCap), ms);
    MovesAreGuarded(Played(Boot(rxCap, txCap), ms), m);
  }

  predicate Shown(f: System) { f.shown == (f.mqtt.w.sock, f.http.w.sock) || f.core.linkDown }

  lemma RestShows(f: System)
    requires SystemInv(f) && RticGuarantees.AtRest(f.core)
    ensures Shown(f) && f.core.r.done == f.core.r.raised
  {
    RticGuarantees.RestOwesNothing(f.core);
  }

  /**
   Egress is visible, in the sockets themselves: whenever a priority-1 task steps outside every lock,
   or the core idles, both sockets are as the last `iface.poll` left them, so that it has seen all
   there is to send; unless the link was down.
   */
  lemma EgressReachesTheNetwork(rxCap: nat, txCap: nat, ms: seq<Move>)
    requires Playable(Boot(rxCap, txCap), ms)
    ensures RticGuarantees.AtRest(Played(Boot(rxCap, txCap), ms).core) ==> Shown(Played(Boot(rxCap, txCap), ms))
  {
    BootIsSound(rxCap, txCap);
    PlayKeepsInv(Boot(rxCap, txCap), ms);
    if RticGuarantees.AtRest(Played(Boot(rxCap, txCap), ms).core) {
      RestShows(Played(Boot(rxCap, txCap), ms));
    }
  }

  ghost predicate Waiting(w: World) {
    forall op :: op in w.parked ==> Blocked(w.sock, op) && HeldBy(w.sock, SlotOf(op)) == Some(w.owner)
  }

  predicate Idle(f: System) {
    f.core.stack == [] && !Rtic.Urgent(f.core) && !f.mqtt.w.pending && !f.http.w.pending
  }

  /**
   An idle core has nothing to do: unless the executor has a task to dispatch, every future of both
   tasks waits for an event that has not happened and will wake it, every request has had its pass,
   and the network has seen both sockets as they are, or found the link down.
   */
  lemma IdleIsQuiet(rxCap: nat, txCap: nat, ms: seq<Move>)
    requires Playable(Boot(rxCap, txCap), ms) && Idle(Played(Boot(rxCap, txCap), ms))
    ensures var f := Played(Boot(rxCap, txCap), ms);
            Waiting(f.mqtt.w) && Waiting(f.http.w) && f.core.r.done == f.core.r.raised && Shown(f)
  {
    BootIsSound(rxCap, txCap);
    PlayKeepsInv(Boot(rxCap, txCap), ms);
    var f := Played(Boot(rxCap, txCap), ms);
    RestShows(f);
    ParkedIsWaiting(f.mqtt.w);
    ParkedIsWaiting(f.http.w);
  }

  lemma ParkedIsWaiting(w: World)
    requires Inv(w) && !w.pending
    ensures Waiting(w)
  {
    forall op | op in w.parked ensures Blocked(w.sock, op) && HeldBy(w.sock, SlotOf(op)) == Some(w.owner) {
      var i :| 0 <= i < |w.parked| && w.parked[i] == op;
      assert Safe(w, w.parked[i]);
    }
  }

  /**
   The HTTP server keeps its promises under the priorities of the firmware, whatever preempts it: an
   ending other than a timeout of `shutdown` leaves a socket that can listen, Ok means what it means on
   its own, and `accept` panics only after a timeout of `shutdown`.
   */
  lemma HttpKeepsItsPromises(rxCap: nat, txCap: nat, ms: seq<Move>)
    requires Playable(Boot(rxCap, txCap), ms)
    ensures var k := Played(Boot(rxCap, txCap), ms).http;
            Lifecycle.EndsWell(k) && Lifecycle.PanicsInTurn(k)
  {
    BootIsSound(rxCap, txCap);
    PlayKeepsInv(Boot(rxCap, txCap), ms);
    Lifecycle.InvMeansPromises(Played(Boot(rxCap, txCap), ms).http);
  }

  /**
   So does the MQTT loop: it is never refused for the state of the socket, and where its `disconnect` may
   stall is exactly where `MayStall` says.
   */
  lemma MqttKeepsItsPromises(rxCap: nat, txCap: nat, ms: seq<Move>, a: Reconnect.Act)
    requires Playable(Boot(rxCap, txCap), ms) && Reconnect.CanAct(Played(Boot(rxCap, txCap), ms).mqtt, a)
    ensures var k := Played(Boot(rxCap, txCap), ms).mqtt;
            && (a.Open? ==> ConnectTo(k.w.sock, a.remote, a.port, a.routable) != Err(OpenInvalidState))
            && Reconnect.Perform(k, a).phase != Reconnect.Panicked
            && (a.StartDisconnect? ==>
                 (Reconnect.CanStall(Reconnect.Perform(k, a)) <==> Disconnect.MayStall(k.w)))
  {
    BootIsSound(rxCap, txCap);
    PlayKeepsInv(Boot(rxCap, txCap), ms);
    var k := Played(Boot(rxCap, txCap), ms).mqtt;
    Reconnect.ConnectsAt(k, a);
    if a.StartDisconnect? {
      Reconnect.StallsAt(k);
    }
  }

  // ---- Progress -----------------------------------------------------------------------------

  predicate Awake(f: System) { f.core.stack != [] || f.core.r.pending || f.mqtt.w.pending || f.http.w.pending }

  /** The firmware never deadlocks: while a frame is on the stack or a task is woken, something can move. */
  lemma SomethingCanMove(rxCap: nat, txCap: nat, ms: seq<Move>) returns (m: Move)
    requires Playable(Boot(rxCap, txCap), ms) && Awake(Played(Boot(rxCap, txCap), ms))
    ensures CanMove(Played(Boot(rxCap, txCap), ms), m) && !StepOf(m).Tick? && !StepOf(m).TimerWake?
  {
    BootIsSound(rxCap, txCap);
    PlayKeepsInv(Boot(rxCap, txCap), ms);
    m := SomeMove(Played(Boot(rxCap, txCap), ms));
  }

  lemma SomeMove(f: System) returns (m: Move)
    requires SystemInv(f) && Awake(f)
    ensures CanMove(f, m) && !StepOf(m).Tick? && !StepOf(m).TimerWake?
  {
    if Rtic.Urgent(f.core) {
      m := TaskMove(Rtic.Enter(Rtic.Poller));
    } else if f.core.stack == [] {
      m := FirstMove(f);
    } else if Rtic.Top(f.core).at == Rtic.Body && HasSocket(Rtic.Top(f.core).task) {
      m := TurnMove(f);
    } else {
      m := NextMove(f);
    }
  }

  lemma FirstMove(f: System) returns (m: Move)
    requires SystemInv(f) && !Rtic.Urgent(f.core) && f.core.stack == [] && Awake(f)
    ensures CanMove(f, m) && StepOf(m).Enter?
  {
    if f.mqtt.w.pending {
      m := MqttMove(Rtic.Enter(Rtic.Mqtt), Reconnect.Resume);
    } else {
      m := HttpMove(Rtic.Enter(Rtic.Http), Lifecycle.Schedule(Dispatch));
    }
  }

  // A task between two sections suspends, or, if it has not got so far, goes on to the next one.
  lemma TurnMove(f: System) returns (m: Move)
    requires SystemInv(f) && !Rtic.Urgent(f.core) && f.core.stack != []
    requires Rtic.Top(f.core).at == Rtic.Body && HasSocket(Rtic.Top(f.core).task)
    ensures CanMove(f, m) && !StepOf(m).Tick? && !StepOf(m).TimerWake?
  {
    if Rtic.Top(f.core).task == Rtic.Http {
      m := HttpMove(Rtic.Return, Lifecycle.Schedule(Suspend));
    } else if Reconnect.CanAct(f.mqtt, Reconnect.Yield) {
      m := MqttMove(Rtic.Return, Reconnect.Yield);
    } else {
      m := TaskMove(Rtic.Lock(Rtic.NetRes));
    }
  }

  lemma NextMove(f: System) returns (m: Move)
    requires SystemInv(f) && !Rtic.Urgent(f.core) && f.core.stack != []
    requires !(Rtic.Top(f.core).at == Rtic.Body && HasSocket(Rtic.Top(f.core).task))
    ensures CanMove(f, m) && !StepOf(m).Tick? && !StepOf(m).TimerWake?
  {
    var step := RticGuarantees.NextAct(f.core);
    if step == IFACE_POLL {
      m := PollMove([], []);
    } else {
      m := TaskMove(step);
    }
  }
}
