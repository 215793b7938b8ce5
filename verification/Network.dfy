/**
 `src/network.rs` and its producer in `src/net_ra6m3.rs`, as the code runs: the flag, the poller's
 pending bit and `next_poll_at` are updated in place. Each method is proved against the steps of
 module PollRequest, which the ghost field `r` follows.
 */
module Network {
  import opened Prelude
  import opened PollRequest
  import Clock

  /** What the world answers to one pass: the time that went by, the link, and smoltcp's `poll_at`. */
  datatype Answer = Answer(ticks: nat, up: bool, at: Option<nat>)

  /** What comes before one poll of the task: time, an Ethernet interrupt, and the timer queue. */
  datatype Round = Round(ticks: nat, receive: bool, transmits: bool, wentUp: bool, timer: bool, answers: seq<Answer>)

  // How many of the interrupts request a poll.
  function Requests(rounds: seq<Round>): nat {
    if rounds == [] then 0
    else
      var last := rounds[|rounds| - 1];
      Requests(rounds[..|rounds| - 1]) + Bit(last.receive || last.transmits || last.wentUp)
  }

  class NetworkPoller {
    var flag: bool
    var pending: bool
    var nextPollAt: Option<nat>
    ghost var r: Protocol

    ghost predicate Valid()
      reads this
    {
      r.flag == flag && r.pending == pending && r.next == nextPollAt && r.mid == 0 && Inv(r)
    }

    // init spawns the poller, so it starts with its bit set.
    constructor ()
      ensures Valid() && r == INIT
    {
      flag, pending, nextPollAt := false, true, None;
      r := INIT;
    }

    method RequestNetworkPoll()
      requires Valid()
      modifies this
      ensures Valid() && r == Do(Do(old(r), Store), Wake)
      ensures flag && pending && nextPollAt == old(nextPollAt)
    {
      StepKeepsInv(r, Store);
      StepKeepsInv(Do(r, Store), Wake);
      flag := true;
      pending := true;
      r := Do(Do(r, Store), Wake);
    }

    /** The Ethernet callback requests a poll exactly when the interrupt has something for the poller. */
    method EthernetCallback(receive: bool, transmits: bool, wentUp: bool)
      requires Valid()
      modifies this
      ensures Valid()
      ensures r.raised == old(r.raised) + Bit(receive || transmits || wentUp)
      ensures r == if receive || transmits || wentUp then Do(Do(old(r), Store), Wake) else old(r)
    {
      if receive || transmits || wentUp {
        RequestNetworkPoll();
      }
    }

    // The executor clears the bit before it polls the task.
    method Dispatched()
      requires Valid() && pending && r.pc == Suspended
      modifies this
      ensures Valid() && r == Do(old(r), Dispatch)
    {
      StepKeepsInv(r, Dispatch);
      pending := false;
      r := Do(r, Dispatch);
    }

    method PollRequested() returns (ready: bool)
      requires Valid() && r.pc == AtSwap
      modifies this
      ensures Valid() && r == Do(old(r), Swap) && !flag
      ensures ready <==> InPass(r.pc)
      ensures r.pc == if ready then AtLink else AtTimer
    {
      StepKeepsInv(r, Swap);
      ready := flag;
      flag := false;
      r := Do(r, Swap);
    }

    method PollWaitUntil(now: nat) returns (ready: bool)
      requires Valid() && r.pc == AtTimer && now == r.now
      modifies this
      ensures Valid() && r == Do(old(r), TimerPoll)
      ensures ready <==> InPass(r.pc)
      ensures r.pc == if ready then AtLink else Suspended
      ensures nextPollAt == if ready then None else old(nextPollAt)
    {
      StepKeepsInv(r, TimerPoll);
      ready := false;
      match nextPollAt {
        case Some(at) =>
          if now >= at {
            nextPollAt := None;
            ready := true;
          }
        case None =>
      }
      r := Do(r, TimerPoll);
    }

    /** One poll of `or(requested, poll_at)`: the request is looked at first. */
    method Race(now: nat) returns (ready: bool)
      requires Valid() && r.pc == AtSwap && now == r.now
      modifies this
      ensures Valid() && pending == old(pending) && r.now == now
      ensures r.passes == old(r.passes) && r.raised == old(r.raised)
      ensures r.pc == if ready then AtLink else Suspended
      ensures ready <==> old(flag) || Due(old(r))
      ensures !ready ==> !flag && r.done == r.raised && !Due(r) && nextPollAt == old(nextPollAt)
    {
      ready := PollRequested();
      if !ready {
        ready := PollWaitUntil(now);
      }
    }

    /** One pass, and the assignment of its result to `next_poll_at`. */
    method PollNetwork(up: bool, at: Option<nat>)
      requires Valid() && r.pc == AtLink
      modifies this
      ensures Valid() && flag == old(flag) && pending == old(pending)
      ensures r == if up then Do(Do(Do(old(r), LinkCheck(true)), IfacePoll), PollAt(at))
                   else Do(old(r), LinkCheck(false))
      ensures nextPollAt == if up then DeadlineOf(at) else None
      ensures r.pc == AtSwap && r.passes == old(r.passes) + 1 && r.raised == old(r.raised) && r.now == old(r.now)
    {
      if !up {
        StepKeepsInv(r, LinkCheck(false));
        nextPollAt := None;
        r := Do(r, LinkCheck(false));
      } else {
        ghost var linked := Do(r, LinkCheck(true));
        StepKeepsInv(r, LinkCheck(true));
        StepKeepsInv(linked, IfacePoll);
        StepKeepsInv(Do(linked, IfacePoll), PollAt(at));
        match at {
          case Some(micros) => nextPollAt := Some(Clock.Deadline(micros));
          case None => nextPollAt := None;
        }
        r := Do(Do(linked, IfacePoll), PollAt(at));
      }
    }

    /**
     One poll of `network_poller_task`: passes, as long as a request or a deadline that has come
     starts one. `answers` is what the world says to each; the poll suspends, or uses them all up.
     When it suspends every request has been served, the deadline it waits for is the one the last
     pass asked for, and that has not come.
     */
    method PollTask(start: nat, answers: seq<Answer>) returns (used: nat, suspended: bool, now: nat)
      requires Valid() && r.pc == AtSwap && start == r.now
      modifies this
      ensures Valid() && used <= |answers| && pending == old(pending) && now == r.now
      ensures r.passes == old(r.passes) + used && r.raised == old(r.raised)
      ensures suspended ==> r.pc == Suspended && !flag && r.done == r.raised && !Due(r)
      ensures !suspended ==> used == |answers| && r.pc == AtLink
      ensures used > 0 && suspended ==>
                nextPollAt == if answers[used - 1].up then DeadlineOf(answers[used - 1].at) else None
      ensures used == 0 && suspended ==> nextPollAt == old(nextPollAt)
    {
      used, now := 0, start;
      while true
        invariant Valid() && r.pc == AtSwap && now == r.now && used <= |answers| && pending == old(pending)
        invariant r.passes == old(r.passes) + used && r.raised == old(r.raised)
        invariant used > 0 ==>
                    nextPollAt == if answers[used - 1].up then DeadlineOf(answers[used - 1].at) else None
        invariant used == 0 ==> nextPollAt == old(nextPollAt)
        decreases |answers| - used
      {
        var ready := Race(now);
        if !ready {
          return used, true, now;
        }
        if used == |answers| {
          return used, false, now;
        }
        PollNetwork(answers[used].up, answers[used].at);
        now := now + answers[used].ticks;
        StepKeepsInv(r, Tick(answers[used].ticks));
        r := Do(r, Tick(answers[used].ticks));
        used := used + 1;
      }
    }

    method Elapse(ticks: nat, timer: bool)
      requires Valid()
      modifies this
      ensures Valid() && r == (if timer then Do(Do(old(r), Tick(ticks)), OtherWake) else Do(old(r), Tick(ticks)))
      ensures flag == old(flag) && nextPollAt == old(nextPollAt)
    {
      StepKeepsInv(r, Tick(ticks));
      r := Do(r, Tick(ticks));
      if timer {
        StepKeepsInv(r, OtherWake);
        pending := true;
        r := Do(r, OtherWake);
      }
    }

    // One round: what comes before a poll of the task, and the poll if it is pending.
    method OneRound(start: nat, round: Round) returns (suspended: bool, now: nat)
      requires Valid() && r.pc == Suspended && start == r.now
      modifies this
      ensures Valid() && now == r.now
      ensures r.raised == old(r.raised) + Bit(round.receive || round.transmits || round.wentUp)
      ensures if suspended then r.pc == Suspended && !pending else r.pc == AtLink
    {
      Elapse(round.ticks, round.timer);
      EthernetCallback(round.receive, round.transmits, round.wentUp);
      suspended, now := true, start + round.ticks;
      if pending {
        Dispatched();
        var used: nat;
        used, suspended, now := PollTask(now, round.answers);
      }
    }

    /**
     The task under its executor, for any number of rounds: time goes by, interrupts raise requests, and
     the task is polled whenever it is pending. Whenever its last poll suspends it owes nothing, and
     every interrupt that asked for a pass has had it.
     */
    method Run(start: nat, rounds: seq<Round>) returns (suspended: bool)
      requires Valid() && r.pc == Suspended && start == r.now
      modifies this
      ensures Valid()
      ensures suspended && rounds != [] ==>
                && r.pc == Suspended && !pending && !flag
                && r.done == r.raised == old(r.raised) + Requests(rounds)
      ensures !suspended ==> r.pc == AtLink
    {
      var now := start;
      for i := 0 to |rounds|
        invariant Valid() && r.pc == Suspended && now == r.now
        invariant r.raised == old(r.raised) + Requests(rounds[..i])
        invariant i > 0 ==> !pending
      {
        assert rounds[..i + 1][..i] == rounds[..i];
        suspended, now := OneRound(now, rounds[i]);
        if !suspended {
          return;
        }
      }
      assert rounds[..|rounds|] == rounds;
      suspended := true;
    }
  }
}
