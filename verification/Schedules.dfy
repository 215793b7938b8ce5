/**
 Nothing the two tasks may do is ruled out by the priorities: every run of the MQTT loop, and every run
 of the HTTP server, happens in some run of the firmware. A network step takes an Ethernet interrupt
 and a pass of the poller; a section of a task is followed by the pass it requests.
 */
module Schedules {
  import opened Prelude
  import opened Firmware
  import opened Rtic
  import Reconnect
  import Lifecycle
  import Disconnect
  import RticGuarantees
  import P = PollRequest

  // ---- Steps of the core --------------------------------------------------------------------

  // Nothing is owed, and no deadline is set.
  predicate Resting(c: Core, base: seq<Frame>) {
    c.stack == base && c.r.pc == P.Suspended && !c.r.pending && !c.r.flag && c.r.mid == 0 && c.r.next == None
  }

  // The poller has been asked for a pass.
  predicate Asked(c: Core, base: seq<Frame>, flag: bool) {
    c.stack == base && c.r.pc == P.Suspended && c.r.pending && c.r.flag == flag && c.r.mid == 0 && c.r.next == None
  }

  // The poller runs on top of `base`.
  predicate PollerAt(c: Core, base: seq<Frame>, at: Point, pc: P.Pc, flag: bool) {
    && c.stack != [] && Below(c.stack) == base && Top(c).task == Poller && Top(c).at == at
    && c.r.pc == pc && pc != P.Suspended && c.r.flag == flag && !c.r.pending && c.r.mid == 0 && c.r.next == None
  }

  // Nothing on the stack keeps the poller out.
  predicate Low(base: seq<Frame>) { base == [] || Last(base).level < Priority(Poller) }

  lemma PollerEnters(c: Core, base: seq<Frame>, flag: bool)
    requires Asked(c, base, flag) && Low(base)
    ensures Enabled(c, Enter(Poller)) && Plain(c, Enter(Poller))
    ensures PollerAt(Do(c, Enter(Poller)), base, Body, P.AtSwap, flag)
  {
    Pushed(base, Rtic.Fresh(Poller));
  }

  lemma PollerSwaps(c: Core, base: seq<Frame>, flag: bool)
    requires PollerAt(c, base, Body, P.AtSwap, flag)
    ensures Enabled(c, PollerWait(P.Swap)) && Plain(c, PollerWait(P.Swap))
    ensures PollerAt(Do(c, PollerWait(P.Swap)), base, Body, if flag then P.AtLink else P.AtTimer, false)
  {
  }

  lemma PollerLocks(c: Core, base: seq<Frame>, pc: P.Pc)
    requires PollerAt(c, base, Body, pc, false) && P.InPass(pc)
    ensures Enabled(c, PollerLock) && Plain(c, PollerLock)
    ensures PollerAt(Do(c, PollerLock), base, InLock, pc, false)
  {
    Pushed(base, Locking(Top(c), Needs(c.r.pc)));
  }

  // What the poller finds: the link up, and nothing more to come.
  function WorkAt(pc: P.Pc): P.Step
    requires P.InPass(pc)
  {
    if pc == P.AtLink then P.LinkCheck(true) else if pc == P.AtIface then P.IfacePoll else P.PollAt(None)
  }

  function Beyond(pc: P.Pc): P.Pc {
    if pc == P.AtLink then P.AtIface else if pc == P.AtIface then P.AtPollAt else P.AtSwap
  }

  lemma PollerWorks(c: Core, base: seq<Frame>, pc: P.Pc)
    requires PollerAt(c, base, InLock, pc, false) && P.InPass(pc)
    ensures Enabled(c, PollerAct(WorkAt(pc)))
    ensures PollerAt(Do(c, PollerAct(WorkAt(pc))), base, Acted, Beyond(pc), false)
  {
    Pushed(base, Top(c).(at := Acted));
  }

  lemma PollerUnlocks(c: Core, base: seq<Frame>, pc: P.Pc)
    requires PollerAt(c, base, Acted, pc, false)
    ensures Enabled(c, Unlock) && Plain(c, Unlock)
    ensures PollerAt(Do(c, Unlock), base, Body, pc, false)
  {
    Pushed(base, Rtic.Fresh(Poller));
  }

  lemma PollerLeaves(c: Core, base: seq<Frame>)
    requires PollerAt(c, base, Body, P.AtTimer, false)
    ensures Enabled(c, PollerWait(P.TimerPoll)) && Plain(c, PollerWait(P.TimerPoll))
    ensures Resting(Do(c, PollerWait(P.TimerPoll)), base)
  {
  }

  // A producer runs on top of `base`, raised to the ceiling from its lock on.
  predicate ProducerIs(c: Core, base: seq<Frame>, t: Task, at: Point) {
    && c.stack != [] && Below(c.stack) == base && Top(c).task == t && Top(c).at == at && Producer(t)
    && (if at == Body then Top(c) == Rtic.Fresh(t) else Top(c).level == 4)
    && c.r.pc == P.Suspended && c.r.next == None
    && c.r.mid == (if at == Stored then 1 else 0)
    && (at == InLock || at == Mutated ==> !c.r.flag && !c.r.pending)
    && (at == Stored ==> c.r.flag && !c.r.pending)
    && (at == Woken ==> c.r.flag && c.r.pending)
  }

  lemma ProducerLocks(c: Core, base: seq<Frame>, t: Task, r: Resource)
    requires ProducerIs(c, base, t, Body) && Shares(t, r) && !c.r.flag && !c.r.pending
    ensures Enabled(c, Lock(r)) && Plain(c, Lock(r)) && ProducerIs(Do(c, Lock(r)), base, t, InLock)
    ensures Do(c, Lock(r)).r == c.r
  {
    RticGuarantees.CeilingsAreFour(r);
    Pushed(base, Locking(Top(c), {r}));
  }

  // The three steps of `with_mut` under the lock.
  function NextPoint(at: Point): (Act, Point) {
    if at == InLock then (Mutate, Mutated) else if at == Mutated then (Publish, Stored) else (Notify, Woken)
  }

  lemma ProducerGoesOn(c: Core, base: seq<Frame>, t: Task, at: Point)
    requires ProducerIs(c, base, t, at) && at in {InLock, Mutated, Stored}
    ensures var (step, next) := NextPoint(at);
            Enabled(c, step) && Plain(c, step) && ProducerIs(Do(c, step), base, t, next)
  {
    Pushed(base, Top(c).(at := NextPoint(at).1));
  }

  lemma ProducerUnlocks(c: Core, base: seq<Frame>, t: Task, at: Point)
    requires ProducerIs(c, base, t, at) && (at == Woken || at == InLock)
    ensures Enabled(c, Unlock) && Plain(c, Unlock) && ProducerIs(Do(c, Unlock), base, t, Body)
    ensures Do(c, Unlock).r == c.r
  {
    Pushed(base, Rtic.Fresh(t));
  }

  // ---- Runs of the firmware -----------------------------------------------------------------

  ghost predicate Leads(f: System, g: System) { exists ms :: Playable(f, ms) && Played(f, ms) == g }

  lemma {:induction false} MoveSnoc(f: System, ms: seq<Move>, m: Move)
    requires Playable(f, ms) && CanMove(Played(f, ms), m)
    ensures Playable(f, ms + [m]) && Played(f, ms + [m]) == Make(Played(f, ms), m)
    decreases |ms|
  {
    if ms == [] {
      assert ms + [m] == [m];
      assert Playable(Make(f, m), [m][1..]);
    } else {
      MoveSnoc(Make(f, ms[0]), ms[1..], m);
      assert (ms + [m])[1..] == ms[1..] + [m];
    }
  }

  lemma LeadsItself(f: System)
    ensures Leads(f, f)
  {
    assert Playable(f, []) && Played(f, []) == f;
  }

  lemma LeadsNext(f: System, g: System, m: Move)
    requires Leads(f, g) && CanMove(g, m)
    ensures Leads(f, Make(g, m))
  {
    var ms :| Playable(f, ms) && Played(f, ms) == g;
    MoveSnoc(f, ms, m);
  }

  lemma Steps(f: System, g: System, step: Act) returns (h: System)
    requires Leads(f, g) && Enabled(g.core, step) && Plain(g.core, step)
    ensures Leads(f, h) && h == g.(core := Do(g.core, step))
  {
    LeadsNext(f, g, TaskMove(step));
    h := Make(g, TaskMove(step));
  }

  // The poller's lock, work and unlock of one stage of its pass, on its own.
  lemma Stage(f: System, g: System, base: seq<Frame>, pc: P.Pc) returns (h: System)
    requires Leads(f, g) && PollerAt(g.core, base, Body, pc, false) && (pc == P.AtLink || pc == P.AtPollAt)
    ensures Leads(f, h) && PollerAt(h.core, base, Body, Beyond(pc), false)
    ensures h == g.(core := h.core)
  {
    PollerLocks(g.core, base, pc);
    h := Steps(f, g, PollerLock);
    PollerWorks(h.core, base, pc);
    h := Steps(f, h, PollerAct(WorkAt(pc)));
    PollerUnlocks(h.core, base, Beyond(pc));
    h := Steps(f, h, Unlock);
  }

  // `iface.poll`, with what the network does in it.
  lemma Iface(f: System, g: System, base: seq<Frame>, m: Move) returns (h: System)
    requires Leads(f, g) && PollerAt(g.core, base, Body, P.AtIface, false)
    requires m.PollMove? && (forall a :: a in m.mqtts ==> a.Network?) && (forall a :: a in m.https ==> a.Network?)
    requires Reconnect.Acts(g.mqtt, m.mqtts) && Lifecycle.Acts(g.http, m.https)
    ensures Leads(f, h) && PollerAt(h.core, base, Body, P.AtPollAt, false)
    ensures h.mqtt == Reconnect.After(g.mqtt, m.mqtts) && h.http == Lifecycle.After(g.http, m.https)
  {
    PollerLocks(g.core, base, P.AtIface);
    h := Steps(f, g, PollerLock);
    PollerWorks(h.core, base, P.AtIface);
    LeadsNext(f, h, m);
    h := Make(h, m);
    PollerUnlocks(h.core, base, P.AtPollAt);
    h := Steps(f, h, Unlock);
  }

  // The end of a poll of the poller's task: nothing more to do.
  lemma Suspends(f: System, g: System, base: seq<Frame>) returns (h: System)
    requires Leads(f, g) && PollerAt(g.core, base, Body, P.AtSwap, false)
    ensures Leads(f, h) && Resting(h.core, base) && h == g.(core := h.core)
  {
    PollerSwaps(g.core, base, false);
    h := Steps(f, g, PollerWait(P.Swap));
    PollerLeaves(h.core, base);
    h := Steps(f, h, PollerWait(P.TimerPoll));
  }

  /** One pass of the poller, from the request to the suspension. */
  lemma Pass(f: System, g: System, base: seq<Frame>, m: Move) returns (h: System)
    requires Leads(f, g) && Asked(g.core, base, true) && Low(base)
    requires m.PollMove? && (forall a :: a in m.mqtts ==> a.Network?) && (forall a :: a in m.https ==> a.Network?)
    requires Reconnect.Acts(g.mqtt, m.mqtts) && Lifecycle.Acts(g.http, m.https)
    ensures Leads(f, h) && Resting(h.core, base)
    ensures h.mqtt == Reconnect.After(g.mqtt, m.mqtts) && h.http == Lifecycle.After(g.http, m.https)
  {
    PollerEnters(g.core, base, true);
    h := Steps(f, g, Enter(Poller));
    PollerSwaps(h.core, base, true);
    h := Steps(f, h, PollerWait(P.Swap));
    h := Stage(f, h, base, P.AtLink);
    h := Iface(f, h, base, m);
    h := Stage(f, h, base, P.AtPollAt);
    h := Suspends(f, h, base);
  }

  // The request that follows a change under the lock.
  lemma Requests(f: System, g: System, base: seq<Frame>, t: Task) returns (h: System)
    requires Leads(f, g) && ProducerIs(g.core, base, t, Mutated)
    ensures Leads(f, h) && ProducerIs(h.core, base, t, Body) && h.core.r.flag && h.core.r.pending
    ensures h == g.(core := h.core)
  {
    ProducerGoesOn(g.core, base, t, Mutated);
    h := Steps(f, g, Publish);
    ProducerGoesOn(h.core, base, t, Stored);
    h := Steps(f, h, Notify);
    ProducerUnlocks(h.core, base, t, Woken);
    h := Steps(f, h, Unlock);
  }

  lemma InterruptEnters(c: Core, base: seq<Frame>)
    requires Resting(c, base) && Low(base)
    ensures Enabled(c, Enter(EthIsr)) && Plain(c, Enter(EthIsr))
    ensures ProducerIs(Do(c, Enter(EthIsr)), base, EthIsr, Body) && Do(c, Enter(EthIsr)).r == c.r
  {
    Pushed(base, Rtic.Fresh(EthIsr));
  }

  lemma InterruptReturns(c: Core, base: seq<Frame>)
    requires ProducerIs(c, base, EthIsr, Body) && c.r.flag && c.r.pending
    ensures Enabled(c, Return) && Plain(c, Return) && Asked(Do(c, Return), base, true)
  {
  }

  /** An Ethernet interrupt, and the pass it asks for. */
  lemma Interrupt(f: System, g: System, base: seq<Frame>, m: Move) returns (h: System)
    requires Leads(f, g) && Resting(g.core, base) && Low(base)
    requires m.PollMove? && (forall a :: a in m.mqtts ==> a.Network?) && (forall a :: a in m.https ==> a.Network?)
    requires Reconnect.Acts(g.mqtt, m.mqtts) && Lifecycle.Acts(g.http, m.https)
    ensures Leads(f, h) && Resting(h.core, base)
    ensures h.mqtt == Reconnect.After(g.mqtt, m.mqtts) && h.http == Lifecycle.After(g.http, m.https)
  {
    InterruptEnters(g.core, base);
    h := Steps(f, g, Enter(EthIsr));
    ProducerLocks(h.core, base, EthIsr, Device);
    h := Steps(f, h, Lock(Device));
    ProducerGoesOn(h.core, base, EthIsr, InLock);
    h := Steps(f, h, Mutate);
    h := Requests(f, h, base, EthIsr);
    InterruptReturns(h.core, base);
    h := Steps(f, h, Return);
    h := Pass(f, h, base, m);
  }

  // ---- The MQTT loop, scheduled -------------------------------------------------------------

  // The task `t` is on the stack, alone, while it runs; otherwise nothing is.
  function Base(t: Task, running: bool): seq<Frame> { if running then [Rtic.Fresh(t)] else [] }

  lemma BaseIsLow(t: Task, running: bool)
    requires HasSocket(t)
    ensures Low(Base(t, running))
    ensures running ==> Base(t, true) == [] + [Rtic.Fresh(t)] && Below(Base(t, true)) == []
  {
  }

  predicate AtRest(f: System, t: Task, running: bool) { Resting(f.core, Base(t, running)) }

  lemma AtBody(c: Core, t: Task)
    requires HasSocket(t) && Resting(c, Base(t, true))
    ensures ProducerIs(c, [], t, Body) && Shares(t, NetRes) && !c.r.flag && !c.r.pending
  {
  }

  lemma OnlyBody(c: Core, t: Task)
    requires HasSocket(t) && ProducerIs(c, [], t, Body)
    ensures c.stack == Base(t, true)
  {
    assert c.stack == Below(c.stack) + [Top(c)];
  }

  // A task with a socket enters an idle core, or leaves it to be idle.
  lemma TurnSteps(c: Core, t: Task, running: bool)
    requires HasSocket(t) && Resting(c, Base(t, running))
    ensures var step := if running then Return else Enter(t);
            Enabled(c, step) && Resting(Do(c, step), Base(t, !running))
  {
    if !running {
      assert [] + [Rtic.Fresh(t)] == Base(t, true);
    }
  }

  lemma MqttNetwork(f: System, g: System, n: Reconnect.Act) returns (h: System)
    requires Leads(f, g) && AtRest(g, Mqtt, g.mqtt.w.running) && n.Network? && Reconnect.CanAct(g.mqtt, n)
    ensures Leads(f, h) && AtRest(h, Mqtt, g.mqtt.w.running) && h.mqtt == Reconnect.Perform(g.mqtt, n)
  {
    BaseIsLow(Mqtt, g.mqtt.w.running);
    OneMqtt(g.mqtt, n);
    assert Lifecycle.Acts(g.http, []);
    h := Interrupt(f, g, Base(Mqtt, g.mqtt.w.running), PollMove([n], []));
  }

  lemma OneMqtt(k: Reconnect.Loop, a: Reconnect.Act)
    requires Reconnect.CanAct(k, a)
    ensures Reconnect.Acts(k, [a]) && Reconnect.After(k, [a]) == Reconnect.Perform(k, a)
  {
    assert [a][1..] == [];
    assert Reconnect.Acts(Reconnect.Perform(k, a), []);
  }

  // The task takes the network lock, outside of which it was alone at work.
  lemma Takes(f: System, g: System, t: Task) returns (h: System)
    requires Leads(f, g) && HasSocket(t) && AtRest(g, t, true)
    ensures Leads(f, h) && h == g.(core := h.core) && ProducerIs(h.core, [], t, InLock) && !Urgent(h.core)
  {
    AtBody(g.core, t);
    ProducerLocks(g.core, [], t, NetRes);
    h := Steps(f, g, Lock(NetRes));
  }

  // It gives the lock back after a change, and the poller runs.
  lemma GivesBack(f: System, g: System, t: Task) returns (h: System)
    requires Leads(f, g) && HasSocket(t) && ProducerIs(g.core, [], t, Mutated)
    ensures Leads(f, h) && AtRest(h, t, true) && h.mqtt == g.mqtt && h.http == g.http
  {
    h := Requests(f, g, [], t);
    OnlyBody(h.core, t);
    BaseIsLow(t, true);
    h := Pass(f, h, Base(t, true), PollMove([], []));
  }

  lemma MqttMoves(f: System, g: System, step: Act, a: Reconnect.Act) returns (h: System)
    requires Leads(f, g) && CanMove(g, MqttMove(step, a))
    ensures Leads(f, h) && h.core == Do(g.core, step) && h.mqtt == Reconnect.Perform(g.mqtt, a) && h.http == g.http
  {
    LeadsNext(f, g, MqttMove(step, a));
    h := Make(g, MqttMove(step, a));
  }

  lemma MqttChanges(f: System, g: System, a: Reconnect.Act) returns (h: System)
    requires Leads(f, g) && ProducerIs(g.core, [], Mqtt, InLock)
    requires MqttTouch(a) == Sections && Reconnect.CanAct(g.mqtt, a)
    ensures Leads(f, h) && ProducerIs(h.core, [], Mqtt, Mutated) && h.mqtt == Reconnect.Perform(g.mqtt, a)
  {
    ProducerGoesOn(g.core, [], Mqtt, InLock);
    h := MqttMoves(f, g, Mutate, a);
  }

  lemma MqttSection(f: System, g: System, a: Reconnect.Act) returns (h: System)
    requires Leads(f, g) && AtRest(g, Mqtt, true) && MqttTouch(a) == Sections && Reconnect.CanAct(g.mqtt, a)
    ensures Leads(f, h) && AtRest(h, Mqtt, true) && h.mqtt == Reconnect.Perform(g.mqtt, a)
  {
    h := Takes(f, g, Mqtt);
    h := MqttChanges(f, h, a);
    h := GivesBack(f, h, Mqtt);
  }

  lemma MqttLook(f: System, g: System, a: Reconnect.Act) returns (h: System)
    requires Leads(f, g) && AtRest(g, Mqtt, true) && MqttTouch(a) == Looks && Reconnect.CanAct(g.mqtt, a)
    ensures Leads(f, h) && AtRest(h, Mqtt, true) && h.mqtt == Reconnect.Perform(g.mqtt, a)
  {
    h := Takes(f, g, Mqtt);
    ProducerUnlocks(h.core, [], Mqtt, InLock);
    h := MqttMoves(f, h, Unlock, a);
    OnlyBody(h.core, Mqtt);
  }

  lemma MqttTurn(f: System, g: System, a: Reconnect.Act) returns (h: System)
    requires Leads(f, g) && AtRest(g, Mqtt, g.mqtt.w.running) && (a.Resume? || a.Yield?) && Reconnect.CanAct(g.mqtt, a)
    ensures Leads(f, h) && AtRest(h, Mqtt, h.mqtt.w.running) && h.mqtt == Reconnect.Perform(g.mqtt, a)
  {
    TurnSteps(g.core, Mqtt, g.mqtt.w.running);
    MqttTouches(g.mqtt, a);
    h := MqttMoves(f, g, if a.Resume? then Enter(Mqtt) else Return, a);
  }

  lemma MqttActs(f: System, g: System, a: Reconnect.Act) returns (h: System)
    requires Leads(f, g) && AtRest(g, Mqtt, g.mqtt.w.running) && Reconnect.CanAct(g.mqtt, a)
    ensures Leads(f, h) && AtRest(h, Mqtt, h.mqtt.w.running) && h.mqtt == Reconnect.Perform(g.mqtt, a)
  {
    MqttTouches(g.mqtt, a);
    var touch := MqttTouch(a);
    if touch == ByNetwork {
      h := MqttNetwork(f, g, a);
    } else if touch == Sections {
      h := MqttSection(f, g, a);
    } else if touch == Looks {
      h := MqttLook(f, g, a);
    } else if touch == Resumes || touch == Yields {
      h := MqttTurn(f, g, a);
    } else {
      h := MqttMoves(f, g, Tick(0), a);
    }
  }

  lemma {:induction false} MqttRuns(f: System, g: System, acts: seq<Reconnect.Act>) returns (h: System)
    requires Leads(f, g) && AtRest(g, Mqtt, g.mqtt.w.running) && Reconnect.Acts(g.mqtt, acts)
    ensures Leads(f, h) && h.mqtt == Reconnect.After(g.mqtt, acts)
    decreases |acts|
  {
    if acts == [] {
      h := g;
    } else {
      h := MqttActs(f, g, acts[0]);
      h := MqttRuns(f, h, acts[1..]);
    }
  }

  // ---- The HTTP server, scheduled -----------------------------------------------------------

  lemma HttpMoves(f: System, g: System, step: Act, a: Lifecycle.Act) returns (h: System)
    requires Leads(f, g) && CanMove(g, HttpMove(step, a))
    ensures Leads(f, h) && h.core == Do(g.core, step) && h.http == Lifecycle.Perform(g.http, a) && h.mqtt == g.mqtt
  {
    LeadsNext(f, g, HttpMove(step, a));
    h := Make(g, HttpMove(step, a));
  }

  lemma OneHttp(k: Lifecycle.Http, a: Lifecycle.Act)
    requires Lifecycle.CanAct(k, a)
    ensures Lifecycle.Acts(k, [a]) && Lifecycle.After(k, [a]) == Lifecycle.Perform(k, a)
  {
    assert [a][1..] == [];
    assert Lifecycle.Acts(Lifecycle.Perform(k, a), []);
  }

  lemma HttpNetwork(f: System, g: System, n: Lifecycle.Act) returns (h: System)
    requires Leads(f, g) && AtRest(g, Http, g.http.w.running) && n.Network? && Lifecycle.CanAct(g.http, n)
    ensures Leads(f, h) && AtRest(h, Http, g.http.w.running) && h.http == Lifecycle.Perform(g.http, n)
  {
    BaseIsLow(Http, g.http.w.running);
    OneHttp(g.http, n);
    assert Reconnect.Acts(g.mqtt, []);
    h := Interrupt(f, g, Base(Http, g.http.w.running), PollMove([], [n]));
  }

  lemma HttpChanges(f: System, g: System, a: Lifecycle.Act) returns (h: System)
    requires Leads(f, g) && ProducerIs(g.core, [], Http, InLock)
    requires HttpTouch(a) == Sections && Lifecycle.CanAct(g.http, a)
    ensures Leads(f, h) && ProducerIs(h.core, [], Http, Mutated) && h.http == Lifecycle.Perform(g.http, a)
  {
    ProducerGoesOn(g.core, [], Http, InLock);
    h := HttpMoves(f, g, Mutate, a);
  }

  lemma HttpSection(f: System, g: System, a: Lifecycle.Act) returns (h: System)
    requires Leads(f, g) && AtRest(g, Http, true) && HttpTouch(a) == Sections && Lifecycle.CanAct(g.http, a)
    ensures Leads(f, h) && AtRest(h, Http, true) && h.http == Lifecycle.Perform(g.http, a)
  {
    h := Takes(f, g, Http);
    h := HttpChanges(f, h, a);
    h := GivesBack(f, h, Http);
  }

  lemma HttpTurn(f: System, g: System, a: Lifecycle.Act) returns (h: System)
    requires Leads(f, g) && AtRest(g, Http, g.http.w.running) && Lifecycle.CanAct(g.http, a)
    requires HttpTouch(a) == Resumes || HttpTouch(a) == Yields
    ensures Leads(f, h) && AtRest(h, Http, h.http.w.running) && h.http == Lifecycle.Perform(g.http, a)
  {
    TurnSteps(g.core, Http, g.http.w.running);
    HttpTouches(g.http, a);
    h := HttpMoves(f, g, if HttpTouch(a) == Resumes then Enter(Http) else Return, a);
  }

  lemma HttpActs(f: System, g: System, a: Lifecycle.Act) returns (h: System)
    requires Leads(f, g) && AtRest(g, Http, g.http.w.running) && Lifecycle.CanAct(g.http, a)
    ensures Leads(f, h) && AtRest(h, Http, h.http.w.running) && h.http == Lifecycle.Perform(g.http, a)
  {
    HttpTouches(g.http, a);
    var touch := HttpTouch(a);
    if touch == ByNetwork {
      h := HttpNetwork(f, g, a);
    } else if touch == Sections {
      h := HttpSection(f, g, a);
    } else if touch == Resumes || touch == Yields {
      h := HttpTurn(f, g, a);
    } else {
      h := HttpMoves(f, g, Tick(0), a);
    }
  }

  lemma {:induction false} HttpRuns(f: System, g: System, acts: seq<Lifecycle.Act>) returns (h: System)
    requires Leads(f, g) && AtRest(g, Http, g.http.w.running) && Lifecycle.Acts(g.http, acts)
    ensures Leads(f, h) && h.http == Lifecycle.After(g.http, acts)
    decreases |acts|
  {
    if acts == [] {
      h := g;
    } else {
      h := HttpActs(f, g, acts[0]);
      h := HttpRuns(f, h, acts[1..]);
    }
  }

  // ---- Every run happens --------------------------------------------------------------------

  // The poller's first poll: init spawned it, and nothing has been requested.
  lemma Begins(f: System) returns (g: System)
    requires f.core == BOOT
    ensures Leads(f, g) && Resting(g.core, []) && g == f.(core := g.core)
  {
    LeadsItself(f);
    PollerEnters(f.core, [], false);
    g := Steps(f, f, Enter(Poller));
    g := Suspends(f, g, []);
  }

  /** Every run of the MQTT loop happens in a run of the firmware. */
  lemma MqttRunsHappen(rxCap: nat, txCap: nat, acts: seq<Reconnect.Act>) returns (f: System)
    requires Reconnect.Acts(Reconnect.Boot(0, rxCap, txCap), acts)
    ensures Leads(Boot(rxCap, txCap), f) && f.mqtt == Reconnect.After(Reconnect.Boot(0, rxCap, txCap), acts)
  {
    f := Begins(Boot(rxCap, txCap));
    f := MqttRuns(Boot(rxCap, txCap), f, acts);
  }

  /** So the firmware can stall: its MQTT task sleeps in `disconnect`, and nothing on its socket wakes it. */
  lemma FirmwareStalls() returns (f: System)
    ensures Leads(Boot(4, 4), f)
    ensures f.mqtt.phase == Reconnect.Disconnecting(Disconnect.Asleep) && Disconnect.SleepsForEver(f.mqtt.w)
  {
    var session, k := Reconnect.LoopStalls();
    var acts :| Reconnect.Acts(Reconnect.BOOT, acts) && Reconnect.After(Reconnect.BOOT, acts) == k;
    f := MqttRunsHappen(4, 4, acts);
  }

  /** Every run of the HTTP server happens in a run of the firmware. */
  lemma HttpRunsHappen(rxCap: nat, txCap: nat, acts: seq<Lifecycle.Act>) returns (f: System)
    requires Lifecycle.Acts(Lifecycle.Boot(1, rxCap, txCap), acts)
    ensures Leads(Boot(rxCap, txCap), f) && f.http == Lifecycle.After(Lifecycle.Boot(1, rxCap, txCap), acts)
  {
    f := Begins(Boot(rxCap, txCap));
    f := HttpRuns(Boot(rxCap, txCap), f, acts);
  }

  /** And the firmware can panic: a client that keeps its side open makes the next `accept` do so. */
  lemma FirmwarePanics() returns (f: System)
    ensures Leads(Boot(4, 4), f) && f.http.phase == Lifecycle.Panicked
  {
    var k := Lifecycle.AcceptCanPanic();
    var acts :| Lifecycle.Acts(Lifecycle.BOOT, acts) && Lifecycle.After(Lifecycle.BOOT, acts) == k;
    f := HttpRunsHappen(4, 4, acts);
  }
}
