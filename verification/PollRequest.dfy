/**
 The poll-request protocol of `src/network.rs`, one atomic action a step.

 Any number of producers run `request_network_poll`: store true, then wake. The poller swaps the flag
 and starts a pass if it was set; otherwise it polls its deadline, and suspends if that has not come.
 A wake only sets the executor's pending bit; dispatching the poller clears it. Nothing here says who
 may interrupt whom: the priorities of the firmware are added in module Rtic.
 */
module PollRequest {
  import opened Prelude
  import Clock

  datatype Pc = Suspended | AtSwap | AtTimer | AtLink | AtIface | AtPollAt

  /** The state of the protocol. */
  datatype Protocol = Protocol(
    flag: bool,             // NETWORK_POLL_REQUEST
    pending: bool,          // the poller has been woken
    mid: nat,               // producers between their store and their wake
    pc: Pc,
    next: Option<nat>,      // next_poll_at, in ticks
    now: nat,               // the clock, in ticks
    // History.
    raised: nat,            // stores
    covered: nat,           // stores that came before the last swap that found the flag set
    done: nat,              // stores covered by a pass that has finished
    won: nat, fired: nat,   // passes started by a request, and by the deadline
    armed: nat,             // passes that asked for a deadline
    passes: nat,            // passes finished
    last: Option<nat>)      // what the last pass asked for, in microseconds

  datatype Step =
    | Store
    | Wake
    | OtherWake             // anything else that holds the poller's waker: the timer queue
    | Tick(ticks: nat)
    | Dispatch
    | Swap
    | TimerPoll
    | LinkCheck(up: bool)
    | IfacePoll
    | PollAt(at: Option<nat>)

  const INIT := Protocol(false, true, 0, Suspended, None, 0, 0, 0, 0, 0, 0, 0, 0, None)

  function DeadlineOf(at: Option<nat>): Option<nat> {
    if at.Some? then Some(Clock.Deadline(at.value)) else None
  }

  predicate InPass(pc: Pc) { pc == AtLink || pc == AtIface || pc == AtPollAt }

  predicate PollerStep(l: Step) {
    l.Dispatch? || l.Swap? || l.TimerPoll? || l.LinkCheck? || l.IfacePoll? || l.PollAt?
  }

  predicate Due(r: Protocol) { r.next.Some? && r.now >= r.next.value }

  predicate Enabled(r: Protocol, l: Step) {
    match l
    case Store | OtherWake => true
    case Tick(_) => true
    case Wake => r.mid > 0
    case Dispatch => r.pc == Suspended && r.pending
    case Swap => r.pc == AtSwap
    case TimerPoll => r.pc == AtTimer
    case LinkCheck(_) => r.pc == AtLink
    case IfacePoll => r.pc == AtIface
    case PollAt(_) => r.pc == AtPollAt
  }

  // `next_poll_at = poll_network(..)`, and back to the top of the loop.
  function FinishPass(r: Protocol, at: Option<nat>): Protocol {
    r.(pc := AtSwap, next := DeadlineOf(at), last := at, done := r.covered,
       passes := r.passes + 1, armed := r.armed + if at.Some? then 1 else 0)
  }

  function Do(r: Protocol, l: Step): Protocol
    requires Enabled(r, l)
  {
    match l
    case Store => r.(flag := true, mid := r.mid + 1, raised := r.raised + 1)
    case Wake => r.(mid := r.mid - 1, pending := true)
    case OtherWake => r.(pending := true)
    case Tick(ticks) => r.(now := r.now + ticks)
    case Dispatch => r.(pending := false, pc := AtSwap)
    case Swap =>
      if r.flag then r.(flag := false, covered := r.raised, won := r.won + 1, pc := AtLink)
      else r.(pc := AtTimer)
    case TimerPoll =>
      if Due(r) then r.(next := None, fired := r.fired + 1, pc := AtLink)
      else r.(pc := Suspended)
    case LinkCheck(up) => if up then r.(pc := AtIface) else FinishPass(r, None)
    case IfacePoll => r.(pc := AtPollAt)
    case PollAt(at) => FinishPass(r, at)
  }

  ghost predicate Legal(r: Protocol, ls: seq<Step>)
    decreases |ls|
  {
    ls == [] || (Enabled(r, ls[0]) && Legal(Do(r, ls[0]), ls[1..]))
  }

  ghost function Final(r: Protocol, ls: seq<Step>): Protocol
    requires Legal(r, ls)
    decreases |ls|
  {
    if ls == [] then r else Final(Do(r, ls[0]), ls[1..])
  }

  function Bit(b: bool): nat { if b then 1 else 0 }

  ghost predicate Inv(r: Protocol) {
    && r.done <= r.covered <= r.raised
    && (!r.flag ==> r.covered == r.raised)
    && (!InPass(r.pc) ==> r.done == r.covered && r.next == DeadlineOf(r.last))
    && (r.flag && (r.pc == AtTimer || r.pc == Suspended) ==> r.pending || r.mid > 0)
    && r.won + Bit(r.flag) <= r.raised
    && r.fired + Bit(!InPass(r.pc) && r.next.Some?) <= r.armed
    && r.passes + Bit(InPass(r.pc)) == r.won + r.fired
  }

  lemma InitIsSound()
    ensures Inv(INIT)
  {
  }

  lemma ProducerKeepsInv(r: Protocol, l: Step)
    requires Inv(r) && Enabled(r, l) && !PollerStep(l)
    ensures Inv(Do(r, l))
  {
  }

  lemma WaitingKeepsInv(r: Protocol, l: Step)
    requires Inv(r) && Enabled(r, l) && (l.Dispatch? || l.Swap? || l.TimerPoll?)
    ensures Inv(Do(r, l))
  {
  }

  lemma PassKeepsInv(r: Protocol, l: Step)
    requires Inv(r) && Enabled(r, l) && (l.LinkCheck? || l.IfacePoll? || l.PollAt?)
    ensures Inv(Do(r, l))
  {
  }

  lemma StepKeepsInv(r: Protocol, l: Step)
    requires Inv(r) && Enabled(r, l)
    ensures Inv(Do(r, l))
  {
    if !PollerStep(l) {
      ProducerKeepsInv(r, l);
    } else if InPass(r.pc) {
      PassKeepsInv(r, l);
    } else {
      WaitingKeepsInv(r, l);
    }
  }

  lemma {:induction false} RunKeepsInv(r: Protocol, ls: seq<Step>)
    requires Inv(r) && Legal(r, ls)
    ensures Inv(Final(r, ls))
    decreases |ls|
  {
    if ls != [] {
      StepKeepsInv(r, ls[0]);
      RunKeepsInv(Do(r, ls[0]), ls[1..]);
    }
  }

  /**
   No lost request, for any number of producers: the poller is never suspended over a raised flag
   unless it is already scheduled, or a producer still has its wake to do. When neither is so, every
   request ever raised is covered by a finished pass that started after it.
   */
  lemma NoLostRequest(ls: seq<Step>)
    requires Legal(INIT, ls)
    ensures var r := Final(INIT, ls);
            r.pc == Suspended && !r.pending && r.mid == 0 ==> !r.flag && r.done == r.raised
  {
    InitIsSound();
    RunKeepsInv(INIT, ls);
  }

  /**
   Passes are paid for: over every run there are at most as many as there were requests and armed
   deadlines together, and whenever the poller waits, the deadline it waits for is the one the last
   pass asked for. A deadline left behind by a request that won the race is never used.
   */
  lemma PassesArePaidFor(ls: seq<Step>)
    requires Legal(INIT, ls)
    ensures var r := Final(INIT, ls);
            && r.passes <= r.won + r.fired <= r.raised + r.armed
            && r.won <= r.raised && r.fired <= r.armed
            && (!InPass(r.pc) ==> r.next == DeadlineOf(r.last))
  {
    InitIsSound();
    RunKeepsInv(INIT, ls);
  }

  // ---- Every request is served soon ---------------------------------------------------------

  ghost function PollerSteps(ls: seq<Step>): nat
    decreases |ls|
  {
    if ls == [] then 0 else Bit(PollerStep(ls[0])) + PollerSteps(ls[1..])
  }

  // How many steps of the poller are left, at most, before the first `target` stores are served.
  ghost function Distance(r: Protocol, target: nat): nat {
    if r.done >= target then 0
    else
      var behind := if r.covered >= target then 0 else 4;
      match r.pc
      case AtPollAt => 1 + behind
      case AtIface => 2 + behind
      case AtLink => 3 + behind
      case AtSwap => 4
      case Suspended => 5
      case AtTimer => 8
  }

  lemma StepComesCloser(r: Protocol, l: Step, target: nat)
    requires Inv(r) && Enabled(r, l) && target <= r.raised
    ensures Distance(Do(r, l), target) + Bit(PollerStep(l)) <= Max(Distance(r, target), Bit(PollerStep(l)))
  {
  }

  /** Whatever the interleaving, eight steps of the poller are enough to serve every request raised before them. */
  lemma ServedWithinEightSteps(r: Protocol, ls: seq<Step>)
    requires Inv(r) && Legal(r, ls) && PollerSteps(ls) >= 8
    ensures Final(r, ls).done >= r.raised
  {
    ServedInTime(r, ls, r.raised);
  }

  lemma {:induction false} ServedInTime(r: Protocol, ls: seq<Step>, target: nat)
    requires Inv(r) && Legal(r, ls) && target <= r.raised && PollerSteps(ls) >= Distance(r, target)
    ensures Final(r, ls).done >= target
    decreases |ls|
  {
    if ls != [] {
      StepKeepsInv(r, ls[0]);
      StepComesCloser(r, ls[0], target);
      ServedInTime(Do(r, ls[0]), ls[1..], target);
    }
  }

  /** And the poller can always take its next step while a published request is not served. */
  lemma PollerIsNeverStuck(r: Protocol) returns (l: Step)
    requires Inv(r) && r.done < r.raised && r.mid == 0
    ensures PollerStep(l) && Enabled(r, l)
  {
    l := match r.pc
      case Suspended => Dispatch
      case AtSwap => Swap
      case AtTimer => TimerPoll
      case AtLink => LinkCheck(true)
      case AtIface => IfacePoll
      case AtPollAt => PollAt(None);
  }

  // ---- No spinning --------------------------------------------------------------------------

  /** After a pass that finds the link down, no further pass starts until a new request is stored. */
  lemma LinkDownDoesNotSpin(r: Protocol, ls: seq<Step>)
    requires Inv(r) && r.pc == AtLink && !r.flag
    requires Legal(Do(r, LinkCheck(false)), ls) && Store !in ls
    ensures Final(Do(r, LinkCheck(false)), ls).passes == r.passes + 1
    ensures !InPass(Final(Do(r, LinkCheck(false)), ls).pc)
  {
    StepKeepsInv(r, LinkCheck(false));
    QuietStaysQuiet(Do(r, LinkCheck(false)), ls);
  }

  lemma {:induction false} QuietStaysQuiet(r: Protocol, ls: seq<Step>)
    requires !InPass(r.pc) && r.next == None && !r.flag && Legal(r, ls) && Store !in ls
    ensures Final(r, ls).passes == r.passes && !InPass(Final(r, ls).pc)
    decreases |ls|
  {
    if ls != [] {
      assert ls[0] in ls;
      QuietStaysQuiet(Do(r, ls[0]), ls[1..]);
    }
  }

  // ---- Deadlines ----------------------------------------------------------------------------

  /**
   Timer passes are never early and never wasted: after any run, the deadline starts a pass exactly
   when the clock smoltcp will be shown has reached the instant the last pass asked for.
   */
  lemma TimerPassIsDue(ls: seq<Step>)
    requires Legal(INIT, ls) && Final(INIT, ls).pc == AtTimer
    requires Final(INIT, ls).now < Clock.U64
    ensures var r := Final(INIT, ls);
            (r.last.Some? ==> r.last.value <= Clock.MAX_MICROS) ==>
              (InPass(Do(r, TimerPoll).pc) <==> r.last.Some? && Clock.SmolNow(r.now) >= r.last.value)
  {
    InitIsSound();
    RunKeepsInv(INIT, ls);
    var r := Final(INIT, ls);
    if r.last.Some? && r.last.value <= Clock.MAX_MICROS {
      Clock.DueWhenReached(r.now, r.last.value);
    }
  }
}
