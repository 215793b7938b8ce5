/**
 `disconnect` closes the socket, and then each of its polls looks at it in one lock section and
 registers for a wakeup in another. What the network does between the two may be missed.
 */
module Disconnect {
  import opened Prelude
  import opened Tcp
  import opened Socket
  import opened SocketRuns

  // What happens to the socket in `ls` does not wake the task.
  ghost predicate SleepsThrough(w: World, ls: seq<Label>) {
    Legal(w, ls) && OtherWake !in ls ==> !Final(w, ls).pending
  }

  /** The task sleeps, and nothing that may still happen to its socket ever wakes it. */
  ghost predicate SleepsForEver(w: World) { !w.running && forall ls :: SleepsThrough(w, ls) }

  lemma {:induction false} SegmentsKeepTheTurn(w: World, ls: seq<Label>)
    requires OnlySegments(ls) && Legal(w, ls)
    ensures var v := Final(w, ls);
            v.owner == w.owner && v.running == w.running && v.checking == w.checking && (w.pending ==> v.pending)
    decreases |ls|
  {
    if ls != [] {
      assert ls[0] in ls;
      SegmentsKeepTheTurn(Do(w, ls[0]), ls[1..]);
    }
  }

  /** The state after a poll that finds the socket open, when `between` separates its two sections. */
  ghost function Parked(w: World, between: seq<Label>): World
    requires Acting(w) && w.sock.IsOpen()
    requires OnlySegments(between) && Legal(Do(w, DisconnectCheck), between)
  {
    SegmentsKeepTheTurn(Do(w, DisconnectCheck), between);
    Do(Do(Final(Do(w, DisconnectCheck), between), DisconnectRegister), Suspend)
  }

  // This poll of `disconnect` may be the last one.
  ghost predicate CanMiss(w: World)
    requires Acting(w) && w.sock.IsOpen()
  {
    exists between :: MissedIn(w, between)
  }

  ghost predicate MissedIn(w: World, between: seq<Label>)
    requires Acting(w) && w.sock.IsOpen()
  {
    OnlySegments(between) && Legal(Do(w, DisconnectCheck), between) && SleepsForEver(Parked(w, between))
  }

  // Someone who is woken no later than the moment the socket stops being open.
  predicate WillWake(w: World) { w.pending || (w.sock.IsOpen() && w.owner in w.sock.Holders()) }

  lemma {:induction false} SegmentsKeepWillWake(w: World, ls: seq<Label>)
    requires WillWake(w) && OnlySegments(ls) && Legal(w, ls)
    ensures WillWake(Final(w, ls))
    decreases |ls|
  {
    if ls != [] {
      assert ls[0] in ls;
      SegmentKeepsWillWake(w, ls[0].n);
      SegmentsKeepWillWake(Do(w, ls[0]), ls[1..]);
    }
  }

  lemma SegmentKeepsWillWake(w: World, n: NetStep)
    requires WillWake(w) && NetEnabled(w.sock, n)
    ensures WillWake(Do(w, Segment(n)))
  {
  }

  // A connection that times out, after it was made where there was none.
  function Ending(s: Sock): seq<Label> {
    if s.state == Listen then [Segment(Syn(Endpoint(1, 1))), Segment(GiveUp)] else [Segment(GiveUp)]
  }

  lemma TimesOut(w: World)
    requires w.sock.IsOpen() && w.sock.state != Listen
    ensures Legal(w, [Segment(GiveUp)]) && Final(w, [Segment(GiveUp)]) == Do(w, Segment(GiveUp))
    ensures var v := Do(w, Segment(GiveUp));
            v.sock.state == Closed && v.sock.Holders() == {} && v.pending == (w.pending || w.owner in w.sock.Holders())
  {
    assert [Segment(GiveUp)][1..] == [];
    assert Legal(Do(w, Segment(GiveUp)), []);
  }

  lemma EndingEnds(w: World)
    requires w.sock.IsOpen()
    ensures OnlySegments(Ending(w.sock)) && Legal(w, Ending(w.sock))
    ensures var v := Final(w, Ending(w.sock));
            && v.sock.state == Closed && v.sock.Holders() == {}
            && v.pending == (w.pending || w.owner in w.sock.Holders())
  {
    if w.sock.state == Listen {
      var next := Do(w, Segment(Syn(Endpoint(1, 1))));
      TimesOut(next);
      assert Ending(w.sock)[1..] == [Segment(GiveUp)];
      assert next.sock.Holders() == {};
    } else {
      TimesOut(w);
    }
  }

  lemma {:induction false} ClosedSleeps(w: World, ls: seq<Label>)
    requires !w.running && !w.pending && w.sock.state == Closed && w.sock.txWaker != Some(w.owner)
    requires Legal(w, ls) && OtherWake !in ls
    ensures !Final(w, ls).pending
    decreases |ls|
  {
    if ls != [] {
      assert ls[0] in ls && ls[0] == Segment(RstOut);
      ClosedSleeps(Do(w, ls[0]), ls[1..]);
    }
  }

  lemma ClosedSleepsForEver(w: World)
    requires !w.running && !w.pending && w.sock.state == Closed && w.sock.txWaker != Some(w.owner)
    ensures SleepsForEver(w)
  {
    forall ls ensures SleepsThrough(w, ls) {
      if Legal(w, ls) && OtherWake !in ls {
        ClosedSleeps(w, ls);
      }
    }
  }

  lemma WokenInTime(w: World)
    requires w.pending || (w.sock.IsOpen() && w.owner in w.sock.Holders())
    ensures !SleepsForEver(w)
  {
    if w.pending {
      assert !SleepsThrough(w, []);
    } else {
      EndingEnds(w);
      assert !SleepsThrough(w, Ending(w.sock));
    }
  }

  /**
   A poll of `disconnect` that finds the socket open may leave the task asleep for ever exactly when
   the task was neither woken already nor in a slot of the socket when the poll began.
   */
  lemma DisconnectCanSleepForever(w: World)
    requires Inv(w) && Acting(w) && w.sock.IsOpen()
    ensures CanMiss(w) <==> !w.pending && w.owner !in w.sock.Holders()
  {
    var checked := Do(w, DisconnectCheck);
    if w.pending || w.owner in w.sock.Holders() {
      forall between ensures !MissedIn(w, between) {
        if OnlySegments(between) && Legal(checked, between) {
          SegmentsKeepTheTurn(checked, between);
          SegmentsKeepWillWake(checked, between);
          WokenInTime(Parked(w, between));
        }
      }
    } else {
      var between := Ending(w.sock);
      EndingEnds(checked);
      var parked := Parked(w, between);
      ClosedSleepsForEver(parked);
      assert MissedIn(w, between);
    }
  }

  /**
   In terms of the moment before the `close`, for the first poll of a call: whatever the network does
   between the `close` and the first look, that poll may be the last one exactly when the task was
   neither woken nor in a slot when the call was made. Later polls are another matter: see
   `CallCanSleepForever`.
   */
  lemma FirstPollCanMiss(w: World)
    requires Inv(w) && Acting(w) && Do(w, CloseCall).sock.IsOpen()
    ensures (exists before :: MissesAfter(Do(w, CloseCall), before)) <==> !w.pending && w.owner !in w.sock.Holders()
  {
    var closed := Do(w, CloseCall);
    StepKeepsInv(w, CloseCall);
    CloseKeepsWillWake(w);
    if w.pending || w.owner in w.sock.Holders() {
      forall before ensures !MissesAfter(closed, before) {
        if OnlySegments(before) && Legal(closed, before) && Final(closed, before).sock.IsOpen() {
          WillWakeStays(closed, before);
        }
      }
    } else {
      DisconnectCanSleepForever(closed);
      assert Legal(closed, []) && Final(closed, []) == closed;
      assert MissesAfter(closed, []);
    }
  }

  // The first look comes after `before`, and the poll it belongs to may be the last one.
  ghost predicate MissesAfter(closed: World, before: seq<Label>) {
    && OnlySegments(before) && Legal(closed, before)
    && var v := Final(closed, before); Acting(v) && v.sock.IsOpen() && CanMiss(v)
  }

  lemma CloseKeepsWillWake(w: World)
    requires Acting(w) && Do(w, CloseCall).sock.IsOpen()
    ensures w.pending || w.owner in w.sock.Holders() ==> WillWake(Do(w, CloseCall))
    ensures !w.pending && w.owner !in w.sock.Holders() ==>
              !Do(w, CloseCall).pending && w.owner !in Do(w, CloseCall).sock.Holders()
    ensures Acting(Do(w, CloseCall)) && Do(w, CloseCall).owner == w.owner
  {
  }

  lemma WillWakeStays(w: World, ls: seq<Label>)
    requires Inv(w) && Acting(w) && WillWake(w) && OnlySegments(ls) && Legal(w, ls) && Final(w, ls).sock.IsOpen()
    ensures !MissesAfter(w, ls)
  {
    SegmentsKeepTheTurn(w, ls);
    SegmentsKeepWillWake(w, ls);
    RunKeepsInv(w, ls);
    DisconnectCanSleepForever(Final(w, ls));
  }

  /** What is missed in TIME-WAIT is made up for when that runs out; on a CLOSED socket it never is. */
  lemma SleepsForEverWhenClosed(w: World)
    requires !w.running && !w.pending && !w.sock.IsOpen()
    requires w.sock.rxWaker == Some(w.owner) && w.sock.txWaker != Some(w.owner)
    ensures SleepsForEver(w) <==> w.sock.state == Closed
  {
    if w.sock.state == Closed {
      ClosedSleepsForEver(w);
    } else {
      var over := [Segment(TimeWaitOver)];
      assert over[1..] == [] && Legal(Do(w, over[0]), over[1..]);
      assert !SleepsThrough(w, over);
    }
  }

  // ---- The whole call -----------------------------------------------------------------------

  /** Where a call of `disconnect` is, once it has closed the socket. */
  datatype Stage =
    | Look       // about to ask whether the socket is open
    | Register   // it is; about to register
    | Leave      // about to answer Pending
    | Asleep
    | Done

  datatype Call = Call(w: World, stage: Stage)

  predicate Fits(stage: Stage, l: Label) {
    || l.Segment? || l.OtherWake?
    || (stage == Look && l.DisconnectCheck?) || (stage == Register && l.DisconnectRegister?)
    || (stage == Leave && l.Suspend?) || (stage == Asleep && l.Dispatch?)
  }

  function Next(c: Call, l: Label): Stage {
    match l
    case DisconnectCheck => if c.w.sock.IsOpen() then Register else Done
    case DisconnectRegister => Leave
    case Suspend => Asleep
    case Dispatch => Look
    case _ => c.stage
  }

  ghost predicate CanStep(c: Call, l: Label) { Fits(c.stage, l) && Enabled(c.w, l) }

  ghost function Step(c: Call, l: Label): Call
    requires CanStep(c, l)
  {
    Call(Do(c.w, l), Next(c, l))
  }

  // A run of the awaited call: its polls, with the network and other wakes at every point.
  ghost predicate Awaits(c: Call, ls: seq<Label>)
    decreases |ls|
  {
    ls == [] || (CanStep(c, ls[0]) && Awaits(Step(c, ls[0]), ls[1..]))
  }

  ghost function Awaited(c: Call, ls: seq<Label>): Call
    requires Awaits(c, ls)
    decreases |ls|
  {
    if ls == [] then c else Awaited(Step(c, ls[0]), ls[1..])
  }

  ghost predicate SleepsAfter(c: Call, ls: seq<Label>) {
    Awaits(c, ls) && Awaited(c, ls).stage == Asleep && SleepsForEver(Awaited(c, ls).w)
  }

  ghost predicate CanSleep(c: Call) { exists ls :: SleepsAfter(c, ls) }

  /** A call made by `w`, after its `close`. */
  function Begun(w: World): Call
    requires Acting(w)
  {
    Call(Do(w, CloseCall), Look)
  }

  /**
   What a caller can look at before the call: `state()`, the room in the receive ring, and whether its
   own task is woken or waits in a slot.
   */
  predicate MayStall(w: World) {
    && w.sock.state !in {Closed, TimeWait, Listen, SynSent}
    && (|| (!w.pending && w.owner !in w.sock.Holders())
        || w.sock.state in {SynReceived, State.Established, FinWait1}
        || (w.sock.state == FinWait2 && !w.sock.rx.Full() && w.sock.txWaker != Some(w.owner)))
  }

  // The states in which no wakeup leaves the socket open and the task in no slot.
  predicate Settled(w: World) {
    || !w.sock.IsOpen() || w.sock.state == LastAck || w.sock.state == Tcp.Closing
    || (w.sock.state == FinWait2 && (w.sock.rx.Full() || w.sock.txWaker == Some(w.owner)))
  }

  // A slot that stays taken for as long as the socket is open.
  predicate Firm(w: World) {
    w.sock.rxWaker == Some(w.owner) || (w.sock.state == FinWait2 && w.sock.txWaker == Some(w.owner))
  }

  predicate SafeCall(c: Call) {
    && Settled(c.w)
    && match c.stage
       case Look => c.w.sock.IsOpen() ==> WillWake(c.w)
       case Register => WillWake(c.w)
       case Leave | Asleep => WillWake(c.w) && (c.w.sock.IsOpen() ==> Firm(c.w))
       case Done => !c.w.sock.IsOpen()
  }

  lemma SegmentKeepsSafeCall(c: Call, n: NetStep)
    requires SafeCall(c) && NetEnabled(c.w.sock, n)
    ensures SafeCall(Step(c, Segment(n)))
  {
  }

  lemma StepKeepsSafeCall(c: Call, l: Label)
    requires SafeCall(c) && CanStep(c, l)
    ensures SafeCall(Step(c, l))
  {
    if l.Segment? {
      SegmentKeepsSafeCall(c, l.n);
    }
  }

  lemma {:induction false} SafeCallsAreWoken(c: Call, ls: seq<Label>)
    requires SafeCall(c)
    ensures !SleepsAfter(c, ls)
    decreases |ls|
  {
    if Awaits(c, ls) {
      if ls == [] {
        if c.stage == Asleep {
          WokenInTime(c.w);
        }
      } else {
        StepKeepsSafeCall(c, ls[0]);
        SafeCallsAreWoken(Step(c, ls[0]), ls[1..]);
      }
    }
  }

  lemma Sooner(c: Call, l: Label)
    requires CanStep(c, l) && CanSleep(Step(c, l))
    ensures CanSleep(c)
  {
    var ls :| SleepsAfter(Step(c, l), ls);
    assert ([l] + ls)[1..] == ls;
    assert SleepsAfter(c, [l] + ls);
  }

  // About to look, with nobody to wake it.
  predicate Exposed(c: Call) {
    && c.stage == Look && Acting(c.w) && c.w.sock.IsOpen() && c.w.sock.state != Listen
    && !c.w.pending && c.w.owner !in c.w.sock.Holders()
  }

  lemma LastSteps(c: Call)
    requires c.stage == Register && c.w.running && c.w.checking && c.w.sock.state == Closed
    requires !c.w.pending && c.w.sock.txWaker == None
    ensures CanSleep(c)
  {
    var leaving := Step(c, DisconnectRegister);
    var asleep := Step(leaving, Suspend);
    ClosedSleepsForEver(asleep.w);
    assert SleepsAfter(asleep, []);
    Sooner(leaving, Suspend);
    Sooner(c, DisconnectRegister);
  }

  lemma ExposedCanSleep(c: Call)
    requires Exposed(c)
    ensures CanSleep(c)
  {
    var looked := Step(c, DisconnectCheck);
    LastSteps(Step(looked, Segment(GiveUp)));
    Sooner(looked, Segment(GiveUp));
    Sooner(c, DisconnectCheck);
  }

  // An event that wakes the task, and leaves the socket open and both slots without it.
  predicate Disturbs(s: Sock, n: NetStep) {
    || (s.state == FinWait1 && n == PeerFin)
    || (s.state == FinWait2 && n == Data([0]) && !s.rx.Full())
  }

  lemma Disturbed(c: Call, n: NetStep)
    requires c.stage == Asleep && !c.w.running && !c.w.checking && c.w.sock.rxWaker == Some(c.w.owner)
    requires Disturbs(c.w.sock, n) && (n.Data? ==> c.w.sock.txWaker != Some(c.w.owner))
    ensures CanStep(c, Segment(n)) && CanStep(Step(c, Segment(n)), Dispatch)
    ensures Exposed(Step(Step(c, Segment(n)), Dispatch))
  {
  }

  lemma DisturbedCanSleep(c: Call, n: NetStep)
    requires c.stage == Look && Acting(c.w) && Disturbs(c.w.sock, n)
    requires n.Data? ==> c.w.sock.txWaker != Some(c.w.owner)
    ensures CanSleep(c)
  {
    var looked := Step(c, DisconnectCheck);
    var leaving := Step(looked, DisconnectRegister);
    var asleep := Step(leaving, Suspend);
    Disturbed(asleep, n);
    var woken := Step(asleep, Segment(n));
    ExposedCanSleep(Step(woken, Dispatch));
    Sooner(woken, Dispatch);
    Sooner(asleep, Segment(n));
    Sooner(leaving, Suspend);
    Sooner(looked, DisconnectRegister);
    Sooner(c, DisconnectCheck);
  }

  // What the `close` makes of the caller's view of the socket.
  lemma AfterClose(w: World)
    requires Inv(w) && Acting(w)
    ensures var c := Begun(w);
            && Acting(c.w) && c.w.owner == w.owner
            && (!MayStall(w) ==> SafeCall(c))
            && (MayStall(w) ==>
                 || Exposed(c) || c.w.sock.state == FinWait1
                 || (c.w.sock.state == FinWait2 && !c.w.sock.rx.Full() && c.w.sock.txWaker != Some(c.w.owner)))
  {
  }

  /**
   A call of `disconnect` may sleep for ever, in some poll of some run, exactly in the states that
   `MayStall` names. A waker in place does not help in ESTABLISHED, SYN-RECEIVED or FIN-WAIT-1: every
   wakeup that leaves the socket open empties the slots, and the next poll looks before it registers.
   */
  lemma CallCanSleepForever(w: World)
    requires Inv(w) && Acting(w)
    ensures CanSleep(Begun(w)) <==> MayStall(w)
  {
    var c := Begun(w);
    AfterClose(w);
    if !MayStall(w) {
      forall ls ensures !SleepsAfter(c, ls) {
        SafeCallsAreWoken(c, ls);
      }
    } else if Exposed(c) {
      ExposedCanSleep(c);
    } else if c.w.sock.state == FinWait1 {
      DisturbedCanSleep(c, PeerFin);
    } else {
      DisturbedCanSleep(c, Data([0]));
    }
  }

  // ---- Two runs -----------------------------------------------------------------------------

  /** It does happen: connect, wait for the connection, and disconnect. */
  lemma DisconnectMisses() returns (w: World)
    ensures Reaches(START, w) && w.h.localClose && Acting(w) && w.sock.IsOpen() && CanMiss(w)
  {
    var connected := Connected();
    w := Do(connected, CloseCall);
    ReachesNext(START, connected, CloseCall);
    ReachableIsSound(0, 4, 4, w);
    DisconnectCanSleepForever(w);
  }

  lemma ReadStep(w: World)
    requires On(w, true, LIVE)
    ensures Enabled(w, PollFuture(Read(1)))
    ensures var v := Do(w, PollFuture(Read(1))); Acting(v) && v.sock == LIVE.(rxWaker := Some(v.owner))
  {
  }

  /** Nor does a waker in place prevent it: a task that was waiting to read disconnects an ESTABLISHED socket. */
  lemma ReaderMisses() returns (w: World)
    ensures Reaches(START, w) && Acting(w) && w.sock.state == State.Established && w.sock.rxWaker == Some(w.owner)
    ensures CanSleep(Begun(w))
  {
    w := Connected();
    ReadStep(w);
    ReachesNext(START, w, PollFuture(Read(1)));
    w := Do(w, PollFuture(Read(1)));
    ReachableIsSound(0, 4, 4, w);
    CallCanSleepForever(w);
  }
}
