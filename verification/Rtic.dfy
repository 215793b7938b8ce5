/**
 The tasks of `src/main.rs` on one core, as RTIC runs them: a stack of frames, each preempting the
 one below. Locking a resource raises the running frame to the ceiling of the resource, the highest
 priority among the tasks that share it, and never waits. Every request goes through the protocol of
 module PollRequest, and every step here is a step of that protocol or leaves it alone.
 */
module Rtic {
  import opened Prelude
  import P = PollRequest

  datatype Task = Mqtt | Http | LinkPoll | Blinky | EthIsr | Poller | Timers

  datatype Resource = NetRes | Device

  const TASKS: seq<Task> := [Mqtt, Http, LinkPoll, Blinky, EthIsr, Poller, Timers]

  function Priority(t: Task): nat {
    match t
    case Mqtt | Http | LinkPoll => 1
    case Blinky => 2
    case EthIsr | Poller => 4
    case Timers => 5
  }

  // The `shared = [..]` lists.
  predicate Shares(t: Task, r: Resource) {
    match t
    case Mqtt | Http => r == NetRes
    case LinkPoll | EthIsr => r == Device
    case Poller => true
    case Blinky | Timers => false
  }

  function CeilingOver(ts: seq<Task>, r: Resource): nat {
    if ts == [] then 0
    else Max(if Shares(ts[0], r) then Priority(ts[0]) else 0, CeilingOver(ts[1..], r))
  }

  function Ceiling(r: Resource): nat { CeilingOver(TASKS, r) }

  /** Where a frame is in its program. */
  datatype Point =
    | Body      // outside every lock
    | InLock    // a lock was just taken
    | Mutated   // the shared state has been changed: the closure of `with_mut` has run
    | Stored    // the request flag is set, the poller not yet woken
    | Woken     // request_network_poll has returned
    | Acted     // the poller has done the work of this lock section

  // `level` is the priority the frame runs at: BASEPRI while it holds a lock.
  datatype Frame = Frame(task: Task, held: set<Resource>, at: Point, level: nat)

  function Fresh(t: Task): Frame { Frame(t, {}, Body, Priority(t)) }

  function CeilingOf(rs: set<Resource>): nat {
    Max(if NetRes in rs then Ceiling(NetRes) else 0, if Device in rs then Ceiling(Device) else 0)
  }

  function Locking(f: Frame, rs: set<Resource>): Frame {
    f.(held := rs, at := InLock, level := Max(f.level, CeilingOf(rs)))
  }

  /** The core: what is on the stack, and how far the poll requests are. */
  datatype Core = Core(
    stack: seq<Frame>,
    r: P.Protocol,
    mutated: nat,     // changes made under a lock that must reach the network
    seen: nat,        // of those, the ones made before the last `iface.poll`
    linkDown: bool)   // the last pass found the link down

  const BOOT := Core([], P.INIT, 0, 0, false)

  function Last(stack: seq<Frame>): Frame
    requires stack != []
  {
    stack[|stack| - 1]
  }

  function Below(stack: seq<Frame>): seq<Frame>
    requires stack != []
  {
    stack[..|stack| - 1]
  }

  function Top(k: Core): Frame
    requires k.stack != []
  {
    Last(k.stack)
  }

  function Retop(k: Core, f: Frame): Core
    requires k.stack != []
  {
    k.(stack := Below(k.stack) + [f])
  }

  function Popped(k: Core): Core
    requires k.stack != []
  {
    k.(stack := Below(k.stack))
  }

  // The poller's dispatcher interrupt is pending and nothing masks it: it is taken first.
  predicate Urgent(k: Core) {
    k.r.pc == P.Suspended && k.r.pending && (k.stack == [] || Top(k).level < Priority(Poller))
  }

  // A task that requests polls for what it changes; a look at the PHY may run the Ethernet callback.
  predicate Producer(t: Task) { t == Mqtt || t == Http || t == LinkPoll || t == EthIsr }

  // The resources a pass of the poller locks for its next action.
  function Needs(pc: P.Pc): set<Resource> {
    match pc
    case AtLink => {Device}
    case AtIface => {NetRes, Device}
    case AtPollAt => {NetRes}
    case _ => {}
  }

  datatype Act =
    | Enter(t: Task)
    | Return
    | Lock(r: Resource)
    | Mutate
    | Publish
    | Notify
    | PollerLock
    | PollerAct(l: P.Step)   // work under the lock
    | PollerWait(l: P.Step)  // a swap of the flag, or a look at the deadline
    | Unlock
    | TimerWake
    | Tick(ticks: nat)

  predicate Runs(k: Core, t: Task, at: Point) { k.stack != [] && !Urgent(k) && Top(k).task == t && Top(k).at == at }

  predicate ProducerAt(k: Core, at: Point) {
    k.stack != [] && !Urgent(k) && Producer(Top(k).task) && Top(k).at == at
  }

  predicate Enabled(k: Core, a: Act) {
    match a
    case Enter(t) =>
      && (k.stack == [] || Priority(t) > Top(k).level)
      && (Urgent(k) ==> Priority(t) >= Priority(Poller))
      && (t == Poller ==> P.Enabled(k.r, P.Dispatch))
    case Return => k.stack != [] && !Urgent(k) && Top(k).at == Body && Top(k).task != Poller
    case Lock(r) =>
      k.stack != [] && !Urgent(k) && Top(k).at == Body && Top(k).task != Poller && Shares(Top(k).task, r)
    case Mutate => ProducerAt(k, InLock)
    case Publish => ProducerAt(k, Mutated)
    case Notify => ProducerAt(k, Stored) && P.Enabled(k.r, P.Wake)
    case PollerLock => Runs(k, Poller, Body) && P.InPass(k.r.pc)
    case PollerAct(l) =>
      Runs(k, Poller, InLock) && (l.LinkCheck? || l.IfacePoll? || l.PollAt?) && P.Enabled(k.r, l)
    case PollerWait(l) => Runs(k, Poller, Body) && (l.Swap? || l.TimerPoll?) && P.Enabled(k.r, l)
    case Unlock =>
      && k.stack != [] && !Urgent(k)
      && (Top(k).at == Woken || Top(k).at == Acted || (Top(k).at == InLock && Top(k).task != Poller))
    case TimerWake => Runs(k, Timers, Body)
    case Tick(_) => true
  }

  function Do(k: Core, a: Act): Core
    requires Enabled(k, a)
  {
    match a
    case Enter(t) =>
      k.(stack := k.stack + [Fresh(t)], r := if t == Poller then P.Do(k.r, P.Dispatch) else k.r)
    case Return => Popped(k)
    case Lock(r) => Retop(k, Locking(Top(k), {r}))
    case Mutate => Retop(k, Top(k).(at := Mutated)).(mutated := k.mutated + 1)
    case Publish => Retop(k, Top(k).(at := Stored)).(r := P.Do(k.r, P.Store))
    case Notify => Retop(k, Top(k).(at := Woken)).(r := P.Do(k.r, P.Wake))
    case PollerLock => Retop(k, Locking(Top(k), Needs(k.r.pc)))
    case PollerAct(l) =>
      var after := Retop(k, Top(k).(at := Acted)).(r := P.Do(k.r, l));
      if l == P.IfacePoll then after.(seen := k.mutated, linkDown := false)
      else if l == P.LinkCheck(false) then after.(linkDown := true)
      else after
    case PollerWait(l) =>
      var after := k.(r := P.Do(k.r, l));
      if after.r.pc == P.Suspended then Popped(after) else after
    case Unlock => Retop(k, Fresh(Top(k).task))
    case TimerWake => k.(r := P.Do(k.r, P.OtherWake))
    case Tick(ticks) => k.(r := P.Do(k.r, P.Tick(ticks)))
  }

  ghost predicate Legal(k: Core, acts: seq<Act>)
    decreases |acts|
  {
    acts == [] || (Enabled(k, acts[0]) && Legal(Do(k, acts[0]), acts[1..]))
  }

  ghost function Final(k: Core, acts: seq<Act>): Core
    requires Legal(k, acts)
    decreases |acts|
  {
    if acts == [] then k else Final(Do(k, acts[0]), acts[1..])
  }

  // ---- The invariant ------------------------------------------------------------------------

  /** No task that shares a held resource could preempt this frame. */
  ghost predicate Shields(f: Frame) {
    forall t, r :: r in f.held && Shares(t, r) ==> Priority(t) <= f.level
  }

  ghost predicate FrameOk(f: Frame) {
    && Priority(f.task) <= f.level
    && (f.at == Body ==> f.level == Priority(f.task))
    && (f.at == Body <==> f.held == {})
    && (forall r :: r in f.held ==> Shares(f.task, r))
    && Shields(f)
    && (f.at in {Mutated, Stored, Woken} ==> Producer(f.task))
    && (f.at == Acted ==> f.task == Poller)
  }

  // Each frame preempted the one below it, so it outranks whatever that one was raised to.
  ghost predicate StackInv(stack: seq<Frame>) {
    || stack == []
    || (FrameOk(Last(stack)) && StackInv(Below(stack)) && Outranks(Below(stack), Priority(Last(stack).task)))
  }

  predicate Outranks(stack: seq<Frame>, priority: nat) { stack == [] || Last(stack).level < priority }

  function Storing(stack: seq<Frame>): nat {
    if stack == [] then 0 else Storing(Below(stack)) + P.Bit(Last(stack).at == Stored)
  }

  predicate HasTask(stack: seq<Frame>, t: Task) {
    stack != [] && (Last(stack).task == t || HasTask(Below(stack), t))
  }

  predicate HasMutated(stack: seq<Frame>) {
    stack != [] && (Last(stack).at == Mutated || HasMutated(Below(stack)))
  }

  /** Between its lock and its work under it, the poller holds exactly `rs`. */
  predicate PollerHolds(stack: seq<Frame>, rs: set<Resource>) {
    stack == [] || ((Last(stack).task == Poller && Last(stack).at == InLock ==> Last(stack).held == rs)
                    && PollerHolds(Below(stack), rs))
  }

  // Every change has been shown to the network, or a request or a pass that will show it is under way.
  predicate Covered(k: Core) {
    || k.mutated == k.seen || k.linkDown || k.r.flag
    || k.r.pc == P.AtLink || k.r.pc == P.AtIface
  }

  ghost predicate Inv(k: Core) {
    && StackInv(k.stack) && P.Inv(k.r)
    && k.r.mid == Storing(k.stack)
    && (HasTask(k.stack, Poller) <==> k.r.pc != P.Suspended)
    && PollerHolds(k.stack, Needs(k.r.pc))
    && k.seen <= k.mutated && (Covered(k) || HasMutated(k.stack))
  }

  lemma {:induction false} CeilingBounds(ts: seq<Task>, t: Task, r: Resource)
    requires t in ts && Shares(t, r)
    ensures Priority(t) <= CeilingOver(ts, r)
  {
    if t != ts[0] {
      CeilingBounds(ts[1..], t, r);
    }
  }

  lemma EveryTaskIsListed(t: Task)
    ensures t in TASKS
  {
  }

  /** Raised to the ceiling of what it locks, a frame shields all of it. */
  lemma LockingShields(f: Frame, rs: set<Resource>)
    requires f.held == {} && FrameOk(f) && rs != {} && f.task != Blinky && f.task != Timers
    requires forall r :: r in rs ==> Shares(f.task, r)
    ensures FrameOk(Locking(f, rs))
  {
    forall t, r | r in rs && Shares(t, r) ensures Priority(t) <= Locking(f, rs).level {
      EveryTaskIsListed(t);
      CeilingBounds(TASKS, t, r);
      assert r == NetRes || r == Device;
    }
  }

  // ---- Stacks -------------------------------------------------------------------------------

  lemma Pushed(stack: seq<Frame>, f: Frame)
    ensures Last(stack + [f]) == f && Below(stack + [f]) == stack
  {
  }

  // Whoever runs at a priority, nothing it outranks is of that priority or above.
  lemma {:induction false} OnlyOne(stack: seq<Frame>, t: Task)
    requires StackInv(stack) && Outranks(stack, Priority(t))
    ensures !HasTask(stack, t)
  {
    if stack != [] {
      OnlyOne(Below(stack), t);
    }
  }

  lemma {:induction false} NoPollerHolds(stack: seq<Frame>, rs: set<Resource>)
    requires !HasTask(stack, Poller)
    ensures PollerHolds(stack, rs)
  {
    if stack != [] {
      NoPollerHolds(Below(stack), rs);
    }
  }

  // Below the poller's own frame there is no other, so its locks are whatever that frame holds.
  lemma PollerSetsHolds(stack: seq<Frame>, f: Frame, rs: set<Resource>)
    requires stack != [] && StackInv(stack) && Last(stack).task == f.task == Poller
    requires f.at == InLock ==> f.held == rs
    ensures PollerHolds(Below(stack), rs) && PollerHolds(Below(stack) + [f], rs)
  {
    OnlyOne(Below(stack), Poller);
    NoPollerHolds(Below(stack), rs);
    Pushed(Below(stack), f);
  }

  // A frame that moves on within its lock section.
  lemma MovesOn(f: Frame, at: Point)
    requires FrameOk(f) && f.at != Body && at != Body
    requires (at in {Mutated, Stored, Woken} ==> Producer(f.task)) && (at == Acted ==> f.task == Poller)
    ensures FrameOk(f.(at := at))
  {
    assert Shields(f.(at := at)) by {
      assert f.(at := at).held == f.held && f.(at := at).level == f.level;
    }
  }

  // ---- Steps of the frame on top ------------------------------------------------------------

  // The poller's frame moves on.
  lemma PollerKeepsInv(k: Core, f: Frame, after: Core)
    requires Inv(k) && k.stack != [] && f.task == Top(k).task == Poller && FrameOk(f)
    requires after.stack == Below(k.stack) + [f] && P.Inv(after.r) && after.r.pc != P.Suspended
    requires after.r.mid == k.r.mid && (f.at == InLock ==> f.held == Needs(after.r.pc))
    requires after.seen <= after.mutated && (Covered(after) || !Covered(k))
    ensures Inv(after)
  {
    Pushed(Below(k.stack), f);
    PollerSetsHolds(k.stack, f, Needs(after.r.pc));
  }

  // A producer's frame moves on; where the poller is stays as it was.
  lemma ProducerKeepsInv(k: Core, f: Frame, after: Core)
    requires Inv(k) && k.stack != [] && f.task == Top(k).task && f.task != Poller && FrameOk(f)
    requires after.stack == Below(k.stack) + [f] && P.Inv(after.r) && after.r.pc == k.r.pc
    requires after.r.mid + P.Bit(Top(k).at == Stored) == k.r.mid + P.Bit(f.at == Stored)
    requires after.seen <= after.mutated
    requires Covered(after) || f.at == Mutated || (!Covered(k) && Top(k).at != Mutated)
    ensures Inv(after)
  {
    Pushed(Below(k.stack), f);
  }

  lemma PollerRaises(f: Frame, pc: P.Pc)
    requires FrameOk(f) && f.task == Poller && f.at == Body && P.InPass(pc)
    ensures FrameOk(Locking(f, Needs(pc)))
  {
    LockingShields(f, Needs(pc));
  }

  lemma PollerLockKeepsInv(k: Core)
    requires Inv(k) && Enabled(k, PollerLock)
    ensures Inv(Do(k, PollerLock))
  {
    var f := Locking(Top(k), Needs(k.r.pc));
    PollerRaises(Top(k), k.r.pc);
    PollerKeepsInv(k, f, Do(k, PollerLock));
  }

  lemma PollerActKeepsInv(k: Core, l: P.Step)
    requires Inv(k) && Enabled(k, PollerAct(l))
    ensures Inv(Do(k, PollerAct(l)))
  {
    var f, after := Top(k).(at := Acted), Do(k, PollerAct(l));
    P.StepKeepsInv(k.r, l);
    MovesOn(Top(k), Acted);
    PollerKeepsInv(k, f, after);
  }

  lemma PollerUnlockKeepsInv(k: Core)
    requires Inv(k) && Enabled(k, Unlock) && Top(k).task == Poller
    ensures Inv(Do(k, Unlock))
  {
    PollerKeepsInv(k, Fresh(Poller), Do(k, Unlock));
  }

  // The poller looks at its flag or its deadline.
  lemma LookKeepsInv(k: Core, after: Core)
    requires Inv(k) && k.stack != [] && Top(k).task == Poller && Top(k).at == Body
    requires P.Inv(after.r) && after.r.mid == k.r.mid && after.r.pc != P.Suspended
    requires after == k.(r := after.r) && (Covered(after) || !Covered(k))
    ensures Inv(after)
  {
    PollerSetsHolds(k.stack, Top(k), Needs(after.r.pc));
  }

  // It finds neither, and leaves the stack.
  lemma LeaveKeepsInv(k: Core, after: Core)
    requires Inv(k) && k.stack != [] && Top(k).task == Poller && Top(k).at == Body
    requires P.Inv(after.r) && after.r.mid == k.r.mid && after.r.pc == P.Suspended
    requires after == Popped(k).(r := after.r) && (Covered(after) || !Covered(k))
    ensures Inv(after)
  {
    PollerSetsHolds(k.stack, Top(k), Needs(after.r.pc));
    OnlyOne(Below(k.stack), Poller);
  }

  lemma PollerWaitKeepsInv(k: Core, l: P.Step)
    requires Inv(k) && Enabled(k, PollerWait(l))
    ensures Inv(Do(k, PollerWait(l)))
  {
    P.StepKeepsInv(k.r, l);
    if P.Do(k.r, l).pc == P.Suspended {
      LeaveKeepsInv(k, Do(k, PollerWait(l)));
    } else {
      LookKeepsInv(k, Do(k, PollerWait(l)));
    }
  }

  lemma LockKeepsInv(k: Core, r: Resource)
    requires Inv(k) && Enabled(k, Lock(r))
    ensures Inv(Do(k, Lock(r)))
  {
    LockingShields(Top(k), {r});
    ProducerKeepsInv(k, Locking(Top(k), {r}), Do(k, Lock(r)));
  }

  lemma MutateKeepsInv(k: Core)
    requires Inv(k) && Enabled(k, Mutate)
    ensures Inv(Do(k, Mutate))
  {
    MovesOn(Top(k), Mutated);
    ProducerKeepsInv(k, Top(k).(at := Mutated), Do(k, Mutate));
  }

  lemma PublishKeepsInv(k: Core)
    requires Inv(k) && Enabled(k, Publish)
    ensures Inv(Do(k, Publish))
  {
    P.StepKeepsInv(k.r, P.Store);
    MovesOn(Top(k), Stored);
    ProducerKeepsInv(k, Top(k).(at := Stored), Do(k, Publish));
  }

  lemma NotifyKeepsInv(k: Core)
    requires Inv(k) && Enabled(k, Notify)
    ensures Inv(Do(k, Notify))
  {
    P.StepKeepsInv(k.r, P.Wake);
    MovesOn(Top(k), Woken);
    ProducerKeepsInv(k, Top(k).(at := Woken), Do(k, Notify));
  }

  lemma UnlockKeepsInv(k: Core)
    requires Inv(k) && Enabled(k, Unlock) && Top(k).task != Poller
    ensures Inv(Do(k, Unlock))
  {
    ProducerKeepsInv(k, Fresh(Top(k).task), Do(k, Unlock));
  }

  lemma PollerEnterKeepsInv(k: Core)
    requires Inv(k) && Enabled(k, Enter(Poller))
    ensures Inv(Do(k, Enter(Poller)))
  {
    P.StepKeepsInv(k.r, P.Dispatch);
    Pushed(k.stack, Fresh(Poller));
    NoPollerHolds(k.stack, Needs(P.AtSwap));
  }

  lemma EnterKeepsInv(k: Core, t: Task)
    requires Inv(k) && Enabled(k, Enter(t)) && t != Poller
    ensures Inv(Do(k, Enter(t)))
  {
    Pushed(k.stack, Fresh(t));
  }

  lemma ReturnKeepsInv(k: Core)
    requires Inv(k) && Enabled(k, Return)
    ensures Inv(Do(k, Return))
  {
  }

  lemma TimeKeepsInv(k: Core, l: P.Step)
    requires Inv(k) && (l.OtherWake? || l.Tick?)
    ensures Inv(k.(r := P.Do(k.r, l)))
  {
    P.StepKeepsInv(k.r, l);
  }

  lemma StepKeepsInv(k: Core, a: Act)
    requires Inv(k) && Enabled(k, a)
    ensures Inv(Do(k, a))
  {
    match a
    case Enter(t) =>
      if t == Poller {
        PollerEnterKeepsInv(k);
      } else {
        EnterKeepsInv(k, t);
      }
    case Return => ReturnKeepsInv(k);
    case Lock(r) => LockKeepsInv(k, r);
    case Mutate => MutateKeepsInv(k);
    case Publish => PublishKeepsInv(k);
    case Notify => NotifyKeepsInv(k);
    case Unlock =>
      if Top(k).task == Poller {
        PollerUnlockKeepsInv(k);
      } else {
        UnlockKeepsInv(k);
      }
    case PollerLock => PollerLockKeepsInv(k);
    case PollerAct(l) => PollerActKeepsInv(k, l);
    case PollerWait(l) => PollerWaitKeepsInv(k, l);
    case TimerWake => TimeKeepsInv(k, P.OtherWake);
    case Tick(ticks) => TimeKeepsInv(k, P.Tick(ticks));
  }

  lemma {:induction false} RunKeepsInv(k: Core, acts: seq<Act>)
    requires Inv(k) && Legal(k, acts)
    ensures Inv(Final(k, acts))
    decreases |acts|
  {
    if acts != [] {
      StepKeepsInv(k, acts[0]);
      RunKeepsInv(Do(k, acts[0]), acts[1..]);
    }
  }
}
