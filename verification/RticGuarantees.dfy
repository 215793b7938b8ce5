/** What the priorities and ceilings of `src/main.rs` guarantee over every run of the firmware. */
module RticGuarantees {
  import opened Prelude
  import opened Rtic
  import P = PollRequest

  lemma BootIsSound()
    ensures Inv(BOOT)
  {
    P.InitIsSound();
  }

  /** Both resources are shared with a task of priority 4, and with none above it. */
  lemma CeilingsAreFour(r: Resource)
    ensures Ceiling(r) == 4
    ensures forall t :: Shares(t, r) ==> Priority(t) <= Ceiling(r)
  {
    EveryTaskIsListed(Poller);
    CeilingBounds(TASKS, Poller, r);
    CeilingReached(TASKS, r, 4);
  }

  lemma {:induction false} CeilingReached(ts: seq<Task>, r: Resource, bound: nat)
    requires forall t :: t in ts && Shares(t, r) ==> Priority(t) <= bound
    ensures CeilingOver(ts, r) <= bound
  {
    if ts != [] {
      assert ts[0] in ts;
      CeilingReached(ts[1..], r, bound);
    }
  }

  lemma OutrankedDoesNotHold(f: Frame, t: Task, r: Resource)
    requires FrameOk(f) && f.level < Priority(t) && Shares(t, r)
    ensures r !in f.held
  {
  }

  lemma OutranksSomebody(f: Frame, t: Task)
    requires FrameOk(f) && f.level < Priority(t)
    ensures Priority(t) > 1 && t != f.task
  {
  }

  lemma Preempted(f: Frame, g: Frame)
    requires FrameOk(f) && FrameOk(g) && f.level < Priority(g.task)
    ensures f.held !! g.held && f.task != g.task
  {
  }

  // What adjacent frames keep, all frames keep.
  lemma {:induction false} Outranked(stack: seq<Frame>, i: nat)
    requires StackInv(stack) && i < |stack|
    ensures FrameOk(stack[i]) && (i < |stack| - 1 ==> stack[i].level < Priority(Last(stack).task))
  {
    if i < |stack| - 1 {
      Outranked(Below(stack), i);
    }
  }

  lemma {:induction false} PairExcludes(stack: seq<Frame>, i: nat, j: nat)
    requires StackInv(stack) && i < j < |stack|
    ensures stack[i].held !! stack[j].held && stack[i].task != stack[j].task
  {
    if j == |stack| - 1 {
      Outranked(stack, i);
      Preempted(stack[i], stack[j]);
    } else {
      PairExcludes(Below(stack), i, j);
    }
  }

  /**
   Locks exclude each other, although taking one never waits: in no run do two frames hold the same
   resource. Nor does a task ever appear twice on the stack, so the RefCell of its token provider is
   never entered while it is borrowed.
   */
  lemma LocksExclude(acts: seq<Act>)
    requires Legal(BOOT, acts)
    ensures var stack := Final(BOOT, acts).stack;
            forall i, j :: 0 <= i < j < |stack| ==> stack[i].held !! stack[j].held && stack[i].task != stack[j].task
  {
    BootIsSound();
    RunKeepsInv(BOOT, acts);
    var stack := Final(BOOT, acts).stack;
    forall i, j | 0 <= i < j < |stack|
      ensures stack[i].held !! stack[j].held && stack[i].task != stack[j].task
    {
      PairExcludes(stack, i, j);
    }
  }

  // What a task is about to lock.
  function Wanted(k: Core, a: Act): set<Resource> {
    if a.Lock? then {a.r} else if a.PollerLock? then Needs(k.r.pc) else {}
  }

  /**
   A lock that is about to be taken is free: the running frame finds nobody below it holding it, nor
   any of the pair that the poller takes for `iface.poll`.
   */
  lemma LocksNeverWait(acts: seq<Act>, a: Act)
    requires Legal(BOOT, acts) && Enabled(Final(BOOT, acts), a)
    ensures var k := Final(BOOT, acts);
            forall i :: 0 <= i < |k.stack| ==> Wanted(k, a) !! k.stack[i].held
  {
    BootIsSound();
    RunKeepsInv(BOOT, acts);
    var k := Final(BOOT, acts);
    forall i, r | 0 <= i < |k.stack| && r in Wanted(k, a) ensures r !in k.stack[i].held {
      Outranked(k.stack, i);
      if i < |k.stack| - 1 {
        OutrankedDoesNotHold(k.stack[i], Top(k).task, r);
      }
    }
  }

  /** The firmware never deadlocks: whatever is on the stack, something can take its next step. */
  lemma SomethingCanRun(acts: seq<Act>) returns (a: Act)
    requires Legal(BOOT, acts) && (Final(BOOT, acts).stack != [] || Final(BOOT, acts).r.pending)
    ensures Enabled(Final(BOOT, acts), a) && !a.Tick? && !a.TimerWake?
  {
    BootIsSound();
    RunKeepsInv(BOOT, acts);
    var k := Final(BOOT, acts);
    if Urgent(k) || k.stack == [] {
      a := Enter(Poller);
    } else {
      a := NextAct(k);
    }
  }

  lemma NextAct(k: Core) returns (a: Act)
    requires Inv(k) && k.stack != [] && !Urgent(k)
    ensures Enabled(k, a) && !a.Tick? && !a.TimerWake? && !a.Enter? && !a.Mutate?
  {
    var f := Top(k);
    assert FrameOk(f);
    if f.task != Poller {
      a := match f.at
        case Body => Return
        case InLock => Unlock
        case Mutated => Publish
        case Stored => Notify
        case _ => Unlock;
    } else {
      a := PollerNext(k);
    }
  }

  lemma PollerNext(k: Core) returns (a: Act)
    requires Inv(k) && k.stack != [] && !Urgent(k) && Top(k).task == Poller
    ensures Enabled(k, a) && !a.Tick? && !a.TimerWake? && !a.Enter? && !a.Mutate?
  {
    assert FrameOk(Top(k));
    if Top(k).at == Acted {
      a := Unlock;
    } else if Top(k).at == Body {
      a := if P.InPass(k.r.pc) then PollerLock
      else if k.r.pc == P.AtSwap then PollerWait(P.Swap) else PollerWait(P.TimerPoll);
    } else {
      assert Top(k).at == InLock && P.InPass(k.r.pc);
      a := PollerAct(if k.r.pc == P.AtLink then P.LinkCheck(true)
                     else if k.r.pc == P.AtIface then P.IfacePoll else P.PollAt(None));
    }
  }

  // The code runs at the lowest priority, outside every lock, or not at all.
  predicate AtRest(k: Core) {
    !Urgent(k) && (k.stack == [] || (Priority(Top(k).task) == 1 && Top(k).at == Body))
  }

  lemma NothingBelow(k: Core)
    requires Inv(k) && k.stack != [] && Priority(Top(k).task) == 1
    ensures |k.stack| == 1
  {
    if |k.stack| > 1 {
      assert StackInv(Below(k.stack));
      OutranksSomebody(Last(Below(k.stack)), Top(k).task);
    }
  }

  // One frame in Body, or none: no store is without its wake, no change without its request.
  lemma RestingStack(stack: seq<Frame>)
    requires stack == [] || (|stack| == 1 && stack[0].at == Body)
    ensures Storing(stack) == 0 && !HasMutated(stack)
    ensures HasTask(stack, Poller) ==> stack != [] && stack[0].task == Poller
  {
    if stack != [] {
      assert Below(stack) == [];
    }
  }

  lemma RestOwesNothing(k: Core)
    requires Inv(k) && AtRest(k)
    ensures |k.stack| <= 1 && !k.r.flag && k.r.mid == 0 && k.r.done == k.r.raised
    ensures k.seen == k.mutated || k.linkDown
  {
    if k.stack != [] {
      NothingBelow(k);
      assert FrameOk(Top(k));
    }
    RestingStack(k.stack);
  }

  /**
   Egress is visible: whenever a priority-1 task is about to take a step outside every lock, in any
   run, no request is outstanding. Every request raised so far has had its pass, and every change
   made under a lock was made before the last `iface.poll`, unless that pass found the link down.
   */
  lemma EgressIsVisible(acts: seq<Act>)
    requires Legal(BOOT, acts)
    ensures var k := Final(BOOT, acts);
            k.stack != [] && AtRest(k) ==>
              && |k.stack| == 1
              && !k.r.flag && k.r.mid == 0 && k.r.done == k.r.raised
              && (k.seen == k.mutated || k.linkDown)
  {
    BootIsSound();
    RunKeepsInv(BOOT, acts);
    if AtRest(Final(BOOT, acts)) {
      RestOwesNothing(Final(BOOT, acts));
    }
  }

  /** The same for the idle task: the core sleeps only when nothing is left to send. */
  lemma IdleOwesNothing(acts: seq<Act>)
    requires Legal(BOOT, acts)
    ensures var k := Final(BOOT, acts);
            k.stack == [] && !Urgent(k) ==>
              !k.r.flag && k.r.done == k.r.raised && (k.seen == k.mutated || k.linkDown)
  {
    BootIsSound();
    RunKeepsInv(BOOT, acts);
    if AtRest(Final(BOOT, acts)) {
      RestOwesNothing(Final(BOOT, acts));
    }
  }

  // ---- The firmware refines the protocol ----------------------------------------------------

  predicate PollerMoves(a: Act) { a == Enter(Poller) || a.PollerAct? || a.PollerWait? }

  ghost function PollerActs(acts: seq<Act>): nat
    decreases |acts|
  {
    if acts == [] then 0 else P.Bit(PollerMoves(acts[0])) + PollerActs(acts[1..])
  }

  /**
   Every run of the tasks is a run of the poll-request protocol: what is proved there for any number
   of producers under any interleaving holds here.
   */
  lemma {:induction false} RunsRefineProtocol(k: Core, acts: seq<Act>) returns (ls: seq<P.Step>)
    requires Legal(k, acts)
    ensures P.Legal(k.r, ls) && P.Final(k.r, ls) == Final(k, acts).r
    ensures P.PollerSteps(ls) == PollerActs(acts)
    decreases |acts|
  {
    if acts == [] {
      ls := [];
    } else {
      var after := Do(k, acts[0]);
      var rest := RunsRefineProtocol(after, acts[1..]);
      var step := ProtocolStep(acts[0]);
      StepRefinesProtocol(k, acts[0]);
      if step.None? {
        ls := rest;
      } else {
        ls := [step.value] + rest;
        assert ls[1..] == rest;
      }
    }
  }

  function ProtocolStep(a: Act): Option<P.Step> {
    match a
    case Enter(t) => if t == Poller then Some(P.Dispatch) else None
    case Publish => Some(P.Store)
    case Notify => Some(P.Wake)
    case PollerAct(step) => Some(step)
    case PollerWait(step) => Some(step)
    case TimerWake => Some(P.OtherWake)
    case Tick(ticks) => Some(P.Tick(ticks))
    case _ => None
  }

  lemma StepRefinesProtocol(k: Core, a: Act)
    requires Enabled(k, a)
    ensures var l := ProtocolStep(a);
            && (l.None? ==> Do(k, a).r == k.r && !PollerMoves(a))
            && (l.Some? ==> P.Enabled(k.r, l.value) && Do(k, a).r == P.Do(k.r, l.value))
            && (l.Some? ==> (P.PollerStep(l.value) <==> PollerMoves(a)))
  {
  }

  /** So, whatever preempts what, eight moves of the poller task serve every request raised before them. */
  lemma RequestsAreServed(before: seq<Act>, after: seq<Act>)
    requires Legal(BOOT, before) && Legal(Final(BOOT, before), after) && PollerActs(after) >= 8
    ensures Final(Final(BOOT, before), after).r.done >= Final(BOOT, before).r.raised
  {
    BootIsSound();
    RunKeepsInv(BOOT, before);
    var ls := RunsRefineProtocol(Final(BOOT, before), after);
    P.ServedWithinEightSteps(Final(BOOT, before).r, ls);
  }
}
