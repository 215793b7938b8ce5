# The asynchronous network stack of the RA6M3 firmware, in Dafny

The firmware runs smoltcp under RTIC: tasks of several priorities share one network interface, ask for
it to be polled through an atomic flag, and wait for their sockets through single-slot wakers. This
project models that glue, `src/socket.rs`, `src/network.rs`, `src/mqtt.rs`, `src/http.rs`,
`src/poll_share.rs`, the task table of `src/main.rs`, the callback of `src/net_ra6m3.rs` and the
address parser of `src/conf.rs`, and proves what it does over every run.

## How it is built

| file | what it holds |
|---|---|
| `Prelude.dfy` | Option, Result, Poll |
| `Tcp.dfy` | the environment: a smoltcp socket as a value, the calls made on it, what the network may do to it |
| `Socket.dfy` | `src/socket.rs`: what each future waits for and answers (`PollOp`), and the code, as classes proved against it |
| `SocketRuns.dfy` | a socket, the task that owns it and the network, interleaved at every lock section; the invariant of every run |
| `SocketGuarantees.dfy` | what every such run guarantees: wakeups, octets, end of file, flush, connect, accept |
| `Answers.dfy` | what each future answers and what it does to the connection, in terms of the history of the connection |
| `Disconnect.dfy` | when `disconnect` can sleep for ever |
| `Stream.dfy` | two sockets joined by a link, from the handshake on: what arrives, and how soon |
| `Lifecycle.dfy` | accept, serve, `shutdown` or `abort`, and round again, as a machine and as the code on it |
| `PollRequest.dfy` | the poll-request protocol, one atomic action a step, any number of producers |
| `Rtic.dfy`, `RticGuarantees.dfy` | the tasks, priorities and ceilings as a preemption stack running that protocol |
| `Reconnect.dfy` | the MQTT loop as a machine: back off, reopen, connect, session, `disconnect`, and where it stalls |
| `Firmware.dfy` | the tasks and both machines together: who touches a socket when, and what the network has seen |
| `Schedules.dfy` | the other way round: every run of either machine happens in a run of the firmware |
| `Network.dfy` | the code of `src/network.rs`, proved against the protocol |
| `Mqtt.dfy` | the code of the reconnect loop: backoff, ports, reopening the socket |
| `Clock.dfy` | ticks and microseconds |
| `Conf.dfy` | addresses as text |

A run is a sequence of labels; `Legal` says that each step is enabled where it is taken, and `Final`
(`Played`, `After`) is the state the run ends in. Properties of runs are stated for every legal
sequence; what is shown to happen is shown on a run from the initial state (`Reaches`, `Gets`). Code that updates state in place is a class; every method states its new state through the
function of the old state that the runs are built from.

## Assumptions about what is not in the repository

smoltcp: a change of state wakes and empties both waker slots; arriving data wakes the receive slot; an
ACK that dequeues data wakes the send slot; emitting the RST owed after an abort clears the remote
endpoint and wakes the send slot. "Open" is neither CLOSED nor TIME-WAIT. `listen` and `connect` fail
with InvalidState exactly on an open socket, save a `listen` repeated on the port already listened on; `connect` records its local port and remote endpoint.
SYN-RECEIVED returns to LISTEN on a RST only after a passive open (section 3.10.7.4 of RFC 9293). When
TIME-WAIT runs out the socket is recycled: rings emptied, FIN mark and remote endpoint cleared. A FIN of
the peer is taken after all its data; ours is acknowledged after all of ours. A connection may time out
or be reset at any moment. A closure given to `read_with` or `write_with` stays within its slice
(smoltcp panics otherwise).

RTIC: a lock raises the running task to the ceiling of the resource and never waits; an interrupt that
is pending and not masked is taken before the next step of what it preempts; waking a task sets a bit
that dispatching it clears. A poll of a task re-polls every future the task still awaits, or drops it.
The network touches a socket inside `iface.poll` only. `poll_link` may run the Ethernet callback.

Clock: 64 bits, monotone; `delay_until` never returns early. picoserve: `discard_all_data` reads into a
non-empty buffer until a read answers no octets.

## Where the obvious claim is false

The code is kept as it is; each of these has a lemma that shows it and, where the claim can be repaired,
the exact condition under which it holds.

- `disconnect` can sleep for ever (`DisconnectMisses`). One poll that finds the socket open can do so exactly
  when the task was neither woken nor in a slot of the socket when it began (`DisconnectCanSleepForever`). For
  the whole call that is not enough, since every wakeup that leaves the socket open empties the slots again: a
  call can sleep for ever exactly when its `close` leaves the socket open and either the task was neither woken
  nor in a slot, or the state was SYN-RECEIVED, ESTABLISHED or FIN-WAIT-1, or it was FIN-WAIT-2 with room in the
  receive ring and the send slot not the task's own (`MayStall`, `CallCanSleepForever`). A task that was waiting
  to read on an ESTABLISHED socket is such a case (`ReaderMisses`).
- so the MQTT loop can stall for good, on a live connection (`LoopStalls`), in the firmware as it is scheduled
  (`FirmwareStalls`); a round may do so exactly where `MayStall` says (`RoundCanStall`).
- a socket does not keep delivered octets until they are read (`UnreadCanBeLost`): TIME-WAIT running out
  drops them; `BytesAreConserved` says exactly when they are all there.
- `flush` may answer Ok although octets were lost (`FlushCanFollowLoss`), against its documentation
  (`src/socket.rs:363-364`); `FlushIsHonest` says exactly when everything was acknowledged.
- `accept(80).await.unwrap()` can panic (`AcceptCanPanic`): exactly when the socket is still open, which
  only a timed-out `shutdown` leaves behind; it happens in the firmware as it is scheduled (`FirmwarePanics`).
- `shutdown` may answer Ok without our FIN having been acknowledged (`ShutdownOkCanFollowReset`): exactly
  when the connection was cut off before that (`ShutdownCloses`).
- `accept` succeeds on a connection that is already CLOSED (`AcceptCanFindClosed`), though documented as
  waiting for a connection (`src/socket.rs:500`); before a local close there is one exactly when the state
  is not CLOSED (`AcceptFindsConnection`).
- ConnectionReset may be reported after a FIN, once TIME-WAIT has run out (`TimeWaitForgetsTheEnd`);
  `EofIsExact` says exactly when the end of file is.
- `read_with` does not tell the end of file from a reset (`ReadWithHidesEof`).
- a write of no octets never answers while the send half is open (`EmptyWriteNeverResolves`).
- `wait_read_ready` and `wait_write_ready` never report the end: each waits for ever exactly when its half is
  closed, the receive ring being empty, and no connection is being made, or its ring has no room at all
  (`ReadReadyMissesTheEnd`, `WriteReadyMissesTheEnd`).
- beyond `MAX_MICROS` the deadline wraps and lies too early (`DeadlineIsExact`).

## Model

| member | source | states |
|---|---|---|
| SocketGuarantees.NoLostWakeup | src/socket.rs:126-272 | after every run of the owner and the network, a future that last answered Pending has its task woken, or is still waiting with its waker in the slot its event wakes |
| SocketGuarantees.UnblockingWakes | src/socket.rs:261-266 | the one network event that lets a parked future answer is the event that wakes its task |
| Disconnect.DisconnectCanSleepForever | src/socket.rs:640-651 | a poll of disconnect that finds the socket open may leave its task asleep under every later network run if and only if the task was neither woken nor in a slot when it began |
| Disconnect.CallCanSleepForever | src/socket.rs:640-651 | an awaited call of disconnect, over all its polls and whatever the network and timers do around them, may sleep for ever if and only if MayStall held when it was made: a condition on the state, the receive ring, the slots and the pending bit |
| Disconnect.FirstPollCanMiss | src/socket.rs:640-651 | for the first poll of a call only, in terms of the moment before its close, whatever the network does between the close and the first look: it can be the last one if and only if the task was neither woken nor in a slot |
| Disconnect.ReaderMisses | src/socket.rs:640-651 | a run from the initial state in which a task with its waker in the receive slot of an ESTABLISHED socket makes a call that may sleep for ever |
| Disconnect.SleepsForEverWhenClosed | src/socket.rs:643-645 | registered too late, a task is woken by some network run if and only if the socket is in TIME-WAIT and not CLOSED |
| Disconnect.DisconnectMisses | src/socket.rs:640-651 | a run from the initial state, connect then disconnect, in which the poll can be the last one |
| Answers.WriteCountsWhatItQueues | src/socket.rs:167-181 | a write that answers a count queued exactly that many octets, the first of its buffer, all of them unless the ring is full afterwards; it counts, fails or waits exactly by the state of the send half, the room and the buffer |
| Answers.WriteWithCountsWhatItQueues | src/socket.rs:183-214 | write_with answers the number of octets its closure put, all of which were queued, exactly while the send half is open and has room |
| Answers.ReadKeepsToItsBuffer | src/socket.rs:126-154 | over every run a read answers exactly the next octets delivered and not yet read, as many as there are and fit the buffer, and exactly those are gone; a read into no buffer changes nothing |
| Answers.ReadWithLeavesTheRest | src/socket.rs:216-249 | over every run read_with shows the next unread octets, answers those the closure took and leaves the rest; it answers, fails or waits exactly by what is queued and may come |
| Answers.FlushIsExact | src/socket.rs:251-272 | over every run flush answers Ok if and only if CLOSED with no RST owed, or not CLOSED with everything accepted acknowledged and, after a close, our FIN too; otherwise it is pending |
| Answers.FlushCanAnswer | src/socket.rs:251-272 | a run from the initial state in which flush waits for one octet and answers Ok once it is acknowledged |
| Answers.ReadyWaitsAreExact | src/socket.rs:115-165 | over every run the readiness waits answer if and only if something is unread, or the send half is open with room |
| Answers.ConnectIsExact | src/socket.rs:482-495 | over every run connect waits, succeeds, fails or is unreachable exactly by the state; before a local close success means able to send, and failure cut off |
| Answers.AcceptIsExact | src/socket.rs:510-519 | over every run accept waits exactly during the handshake and else answers Ok |
| Answers.PollsKeepToThemselves | src/socket.rs:115-272 | a pending poll leaves a waker in its slot and nothing else; an answer leaves both slots, the state, the endpoints and the other ring alone |
| Answers.CloseClosesOneHalf | src/socket.rs:625-634 | close ends sending and any handshake, keeps both queues, and owes a FIN exactly on a connection |
| Answers.AbortClosesBothHalves | src/socket.rs:653-664 | abort closes, wakes the waiting owner, and owes a RST exactly to a known peer |
| SocketGuarantees.BytesAreConserved | src/socket.rs:126-249 | over every run, octets accepted are octets acknowledged then the send queue; octets delivered are octets handed out then the receive queue, in order, if and only if TIME-WAIT has not run out over unread ones |
| SocketGuarantees.UnreadCanBeLost | src/socket.rs:148-151 | a run from the initial state in which a delivered octet is dropped with TIME-WAIT and the reader is told of a reset |
| SocketGuarantees.EofIsExact | src/socket.rs:133-152 | each of the three answers of a non-empty read exactly: no octets iff the FIN was taken, all before it handed out and TIME-WAIT not over; reset iff no FIN (or TIME-WAIT over), nothing queued and nothing to come; pending iff nothing queued and more may come |
| SocketGuarantees.ReadWithHidesEof | src/socket.rs:222-241 | read_with fails exactly where read answers the end of file or a reset |
| SocketGuarantees.TimeWaitForgetsTheEnd | src/socket.rs:148-151 | once TIME-WAIT has run out a read reports a reset although the FIN was taken |
| SocketGuarantees.EofIsFinal | src/socket.rs:302-314 | after the peer's FIN nothing more is delivered until the socket is reopened |
| SocketGuarantees.ReadReadyMissesTheEnd | src/socket.rs:115-124 | wait_read_ready stays pending under every network run if and only if nothing is queued or can arrive any more, CLOSE-WAIT included, or the ring has no room |
| SocketGuarantees.WriteReadyMissesTheEnd | src/socket.rs:156-165 | wait_write_ready stays pending under every network run if and only if the send half is closed with no handshake under way, FIN-WAIT included, or the ring has no room |
| SocketGuarantees.FlushIsHonest | src/socket.rs:251-272 | flush answering off CLOSED means all acknowledged and no FIN of ours outstanding; in general all was acknowledged if and only if not CLOSED or the queue is empty |
| SocketGuarantees.FlushCanFollowLoss | src/socket.rs:254-268 | a run from the initial state in which flush answers Ok with accepted octets never acknowledged |
| SocketGuarantees.FlushWaitsForTheRst | src/socket.rs:653-664 | after abort on a connection, flush answers if and only if the RST has been emitted, in every run without a reopening |
| SocketGuarantees.ConnectIsSound | src/socket.rs:465-496 | on a handle never used to listen, unreachable!() is not reached in any run, Ok without a local close means ESTABLISHED or CLOSE-WAIT, and reset means not open |
| SocketGuarantees.AcceptFindsConnection | src/socket.rs:510-518 | over every run accept answers Ok if and only if no handshake is under way; before a local close it found ESTABLISHED or CLOSE-WAIT, able to send, if and only if not CLOSED, that is, if and only if the connection was not cut off |
| SocketRuns.StepKeepsInv | src/socket.rs:98-289 | every step of task or network keeps the wakers, the octets and the record of how the connection ended |
| SocketRuns.NetKeepsWaiting | src/socket.rs:123-266 | no network step unblocks a future, or empties its slot, without waking its task |
| SocketRuns.PollMovesBytes | src/socket.rs:126-249 | a poll takes octets off the front of the receive ring or adds them to the back of the send ring, and makes up none |
| Socket.ReadinessAgrees | src/socket.rs:767-787 | read_ready if and only if a non-empty read answers now; write_ready if and only if a non-empty write puts 1 to len octets |
| Socket.ClosuresSeeAWindow | src/socket.rs:319-328 | the slice shown to a closure is not empty, contiguous, and the largest such |
| Socket.EmptyWriteNeverResolves | src/socket.rs:167-174 | a write of no octets is pending exactly while the send half is open; an empty read always answers |
| Socket.SocketInner.PollReadReady | src/socket.rs:115-124 | one section, request raised after it; answers if octets can be received, else registers in the receive slot |
| Socket.SocketInner.PollRead | src/socket.rs:126-154 | the four arms of the match give exactly the answer, the ring and the waker that the specification of a read says |
| Socket.SocketInner.PollWriteReady | src/socket.rs:156-165 | answers if octets can be sent, else registers in the send slot |
| Socket.SocketInner.PollWrite | src/socket.rs:167-181 | as much of the buffer as fits is queued, or the send slot is registered, or reset |
| Socket.ReadWithFuture.Poll | src/socket.rs:216-249 | the closure is consumed exactly when octets can be received, runs at most once, on a non-empty slice; later polls leave the socket alone |
| Socket.WriteWithFuture.Poll | src/socket.rs:183-214 | the same for the send ring |
| Socket.SocketInner.PollFlush | src/socket.rs:251-272 | pending on data, FIN or RST outstanding, with the send slot registered; else Ok |
| Socket.SocketInner.ConnectStart | src/socket.rs:473-480 | the socket is opened actively, or the error of smoltcp is mapped and nothing changes |
| Socket.SocketInner.PollConnect | src/socket.rs:482-495 | the five arms on the state |
| Socket.SocketInner.AcceptStart | src/socket.rs:505-508 | the socket listens, or the error is mapped and nothing changes |
| Socket.SocketInner.PollAccept | src/socket.rs:510-519 | pending in the handshake with the send slot registered, else Ok |
| Socket.SocketInner.Close | src/socket.rs:632-634 | close under one section |
| Socket.SocketInner.Abort | src/socket.rs:662-664 | CLOSED under one section, both slots woken |
| Socket.SocketInner.IsOpen | src/socket.rs:636-638 | a reading section: no poll is requested |
| Socket.SocketInner.PollDisconnect | src/socket.rs:642-649 | answers if and only if not open at the check; else registers in a second section, after any network run in between |
| Socket.TokenProvider.Lock | src/poll_share.rs:34-36 | the borrow is taken; entering while it is taken is excluded for every caller |
| Stream.ReadsArePrefixOfWrites | src/socket.rs:126-249 | over every run of two joined sockets, handshake included, octets read are a prefix of octets written, and what is not read is in the two rings, in order |
| Stream.EofMeansAllWasRead | src/socket.rs:302-314 | a reader told end of file has read everything the other end ever wrote, and the other end can write no more |
| Stream.FlushMeansDelivered | src/socket.rs:361-364 | a flush that answers on a live socket has put every written octet into the peer's ring |
| Stream.WaitingReaderIsServed | src/socket.rs:142-145 | a reader asleep while written octets are unread: one can be carried to it, and that wakes it |
| Stream.WaitingWriterIsServed | src/socket.rs:170-174 | a writer asleep in a non-empty write: an octet of its queue or an acknowledgement can move if and only if the peer holds some already, or is past its handshake, not CLOSED and has room; either way an acknowledgement then wakes the writer and makes room |
| Stream.MovesArePaidFor | src/socket.rs:126-181 | over every run from the handshake on, segments that carry octets one way and reads that yield some are together at most two for each octet written, less what is in the rings |
| Stream.DrainsWhatWasWritten | src/socket.rs:126-154 | from any moment with neither end CLOSED, carrying and reading in any order ends within the measure of what is left, and then everything written has been read |
| Stream.HandshakeOpens | src/socket.rs:465-520 | from a connecting and a listening socket three segments open the direction asked for |
| Lifecycle.ShutdownCloses | src/socket.rs:855-901 | every ending but a timeout of shutdown leaves a socket that is not open and can listen; Ok means FIN taken, all read, and our FIN acknowledged if and only if the connection was not cut off before |
| Lifecycle.StepsAreRight | src/socket.rs:855-901 | over every run each act of the server leads on exactly as the connection says: the discard goes on at the end of the stream and fails exactly on a reset, the flushes end exactly when nothing is outstanding, accept waits exactly for the handshake |
| Lifecycle.EndingsAreExact | src/socket.rs:881-900 | over every run each ending is reached by its own act only, a timed-out one by its timer; a read error only when nothing is queued, nothing can arrive, and no FIN was seen |
| Lifecycle.ServesAConnection | src/http.rs:47-53 | over every run of the server, what accept hands to serve is a connection that can be written to if and only if the socket is not CLOSED |
| Lifecycle.AcceptCanFindClosed | src/socket.rs:510-518 | a run from boot in which serve is handed a CLOSED socket |
| Lifecycle.AcceptPanicsOnlyAfterTimeout | src/http.rs:44-50 | at the top of the loop accept panics if and only if the socket is open, and that only follows a timeout of shutdown |
| Lifecycle.AcceptCanPanic | src/http.rs:47 | a run from boot that reaches the panic |
| Lifecycle.ShutdownOkCanFollowReset | src/socket.rs:895-900 | a run from boot in which shutdown answers Ok and our FIN was never acknowledged |
| Lifecycle.HttpServer.Accept | src/http.rs:44-47 | listens on port 80 and goes on to wait, or panics, as the machine does |
| Lifecycle.HttpServer.PollAccept | src/socket.rs:510-519 | serves once accept answers |
| Lifecycle.HttpServer.StartShutdown | src/socket.rs:870-877 | close, then the or of reading out and flushing |
| Lifecycle.HttpServer.PollDiscard | src/socket.rs:881-887 | the read branch: on to the flush at end of file, a read error on reset, otherwise round again |
| Lifecycle.HttpServer.PollTxFlush | src/socket.rs:888-891 | the flush branch never completes the or |
| Lifecycle.HttpServer.PollFlush | src/socket.rs:895-900 | the last flush of shutdown, and of abort |
| Lifecycle.HttpServer.TimerFires | src/socket.rs:883-899 | each timeout ends in its own error |
| Lifecycle.HttpServer.StartAbort | src/socket.rs:855-863 | abort, then flush |
| Lifecycle.HttpServer.HandleConnection | src/http.rs:53-77 | one connection, however it is torn down, extends the code's run of the machine, does not panic, and ends unless an await has used up its polls |
| Lifecycle.HttpServer.Run | src/http.rs:44-50 | any number of rounds, each with one accept, until they are done, an await has used up its polls, or it panics, which only follows a timeout of shutdown |
| PollRequest.NoLostRequest | src/network.rs:33-47 | never suspended over a raised flag unless scheduled or a producer still has its wake to do; otherwise every request has a finished pass that started after it |
| PollRequest.ServedWithinEightSteps | src/network.rs:114-131 | under any interleaving eight steps of the poller serve every request raised before |
| PollRequest.PollerIsNeverStuck | src/network.rs:114-131 | while a published request is not served the poller has a step to take |
| PollRequest.PassesArePaidFor | src/network.rs:102-131 | passes are at most requests plus armed deadlines; the deadline waited for is the last pass's |
| PollRequest.LinkDownDoesNotSpin | src/network.rs:138-142 | after a pass that finds the link down only a new request starts another |
| PollRequest.TimerPassIsDue | src/network.rs:102-110 | the deadline starts a pass if and only if smol_now has reached the instant last asked for |
| RticGuarantees.CeilingsAreFour | src/main.rs:159-193 | net and device have ceiling 4, and nobody above it shares them |
| RticGuarantees.LocksExclude | src/main.rs:138-193 | no two frames hold one resource, and no task is on the stack twice, in any run |
| RticGuarantees.LocksNeverWait | src/main.rs:159-193 | every resource about to be locked is free, each of the pair the poller takes included |
| RticGuarantees.SomethingCanRun | src/main.rs:159-193 | the firmware never deadlocks |
| RticGuarantees.EgressIsVisible | src/socket.rs:106-113 | when a priority-1 task steps outside every lock no request is outstanding, and the last poll saw every change, unless the link was down |
| RticGuarantees.IdleOwesNothing | src/main.rs:221-226 | the core idles only when every request is served |
| RticGuarantees.RunsRefineProtocol | src/main.rs:159-193 | every run of the tasks is a run of the poll-request protocol, with as many steps of the poller |
| RticGuarantees.RequestsAreServed | src/network.rs:114-131 | eight moves of the poller task serve every request raised before, whatever preempts what |
| Firmware.RunsAreRuns | src/main.rs:159-193 | every run of the tasks with both sockets is a run of the tasks, a run of the MQTT loop and a run of the HTTP server, so what is proved of those holds in it |
| Firmware.SocketsChangeUnderTheLock | src/socket.rs:98-113 | whatever changes a socket, the running frame holds net and is its owner or the poller |
| Firmware.EgressReachesTheNetwork | src/socket.rs:106-113 | when a priority-1 task steps outside every lock, or the core idles, both sockets are as the last iface.poll left them, unless it found the link down |
| Firmware.IdleIsQuiet | src/main.rs:221-226 | an idle core with no task woken: every parked future still waits with its waker in place, every request is served, and the network has seen both sockets |
| Firmware.SomethingCanMove | src/main.rs:159-193 | while a frame is on the stack or a task is woken, tasks and sockets together have a next step |
| Firmware.HttpKeepsItsPromises | src/http.rs:44-50 | in every run of the firmware an ending of a connection other than a timeout of shutdown leaves a socket that can listen, Ok means all read and our FIN acknowledged unless cut off, and accept panics exactly on an open socket, after such a timeout |
| Firmware.MqttKeepsItsPromises | src/mqtt.rs:119-125 | in every run of the firmware connect is never refused for the state of the socket nor unreachable, and a disconnect may stall if and only if MayStall holds |
| Schedules.MqttRunsHappen | src/main.rs:159-193 | every run of the MQTT loop is that of a run of the firmware: the priorities rule out none of its interleavings with the network |
| Schedules.HttpRunsHappen | src/main.rs:159-193 | the same for the HTTP server |
| Schedules.FirmwareStalls | src/mqtt.rs:247-250 | a run of the firmware from boot after which the MQTT task sleeps in disconnect for ever |
| Schedules.FirmwarePanics | src/http.rs:47 | a run of the firmware from boot that reaches the panic of accept |
| Network.NetworkPoller.RequestNetworkPoll | src/network.rs:34-37 | store, then wake |
| Network.NetworkPoller.EthernetCallback | src/net_ra6m3.rs:56-73 | a request exactly when something was received, sent, or the link came up |
| Network.NetworkPoller.PollRequested | src/network.rs:39-47 | the swap: ready exactly when the flag was set, and clear afterwards |
| Network.NetworkPoller.PollWaitUntil | src/network.rs:102-110 | ready exactly when the deadline has come, which forgets it |
| Network.NetworkPoller.Race | src/network.rs:117-120 | ready if and only if requested or due; otherwise nothing is outstanding |
| Network.NetworkPoller.PollNetwork | src/network.rs:122-153 | a pass stops at a link that is down and arms the deadline asked for otherwise |
| Network.NetworkPoller.PollTask | src/network.rs:114-131 | one poll of the task: when it suspends every request is served and the deadline is the last pass's and has not come |
| Network.NetworkPoller.Run | src/network.rs:114-131 | any number of rounds of interrupts, timers and polls: when the last poll suspends, every interrupt that asked for a pass has had it |
| Clock.RoundingsAgree | src/network.rs:49-53 | at any tick rate the clock reads D microseconds exactly from the tick micros_at_least gives |
| Clock.ConversionsAreExact | src/network.rs:148-152 | the mask and the casts change nothing; at 30 MHz the product fits if and only if within MAX_MICROS |
| Clock.DeadlineIsExact | src/network.rs:146-152 | for all 64-bit readings the deadline has passed if and only if smol_now has reached the instant; this holds if and only if that is within MAX_MICROS |
| Mqtt.ReconnectFindsUsable | src/mqtt.rs:119-125 | from any state and under any network steps, check, abort, connect never reports InvalidState |
| Mqtt.PortsCycle | src/mqtt.rs:112-113 | ports stay in 58026 to 58281; two attempts share one if and only if they agree modulo 256 |
| Mqtt.PortsStayQuiet | src/mqtt.rs:16-20 | a port rests for at least 510 s after its attempt, more than TIME-WAIT |
| Mqtt.OpenedPortsStayQuiet | src/mqtt.rs:112-113 | the same for the local ports the socket was really connected from |
| Mqtt.RateIsBounded | src/mqtt.rs:97-104 | any window of length T holds at most T / 2000 ms + 1 attempts |
| Reconnect.StepsAreRight | src/mqtt.rs:115-130 | over every run each act of the loop leads on exactly as the socket says; a connect sets the remote and the local port it was given, a disconnect closes the send half first |
| Reconnect.ConnectsCleanly | src/mqtt.rs:115-125 | over every run of the loop connect is never refused for the state of the socket nor unreachable, a session starts on ESTABLISHED or CLOSE-WAIT only, and a failed connect leaves CLOSED |
| Reconnect.ConnectNeverStalls | src/socket.rs:482-495 | over every run of the loop a task asleep in connect is woken by some network run |
| Reconnect.RoundCanStall | src/mqtt.rs:247-250 | over every run of the loop, a round whose session ends in disconnect may never look at the socket again if and only if MayStall holds of what the session leaves |
| Reconnect.StalledStays | src/mqtt.rs:247-250 | once so asleep the loop stays there, whatever happens to the socket |
| Reconnect.LoopStalls | src/mqtt.rs:247-250 | a run from boot: the first session fails on an ESTABLISHED connection, its waker in place, and the loop stalls |
| Mqtt.Client.NextAttempt | src/mqtt.rs:97-113 | one attempt is logged from the next port, after the backoff: its deadline is waited for if it has not come, and nothing else is |
| Mqtt.Client.Reopen | src/mqtt.rs:115-125 | from whatever the last session left, with interference at every section, the socket is connecting to the broker from the port given, or the address was refused |
| Mqtt.Client.ConnectTransport | src/mqtt.rs:87-130 | one attempt, connected to the broker from the port it logged; Ok means ESTABLISHED or CLOSE-WAIT, reset means CLOSED |
| Mqtt.Client.Disconnect | src/socket.rs:640-651 | the send half is closed first and stays closed; completion means the socket is not open |
| Mqtt.Client.Run | src/mqtt.rs:177-259 | any number of rounds and outcomes follow the machine, keep the backoff and the port sequence, and connect from the ports logged |
| Mqtt.Client.Session | src/mqtt.rs:229-250 | a session that had connected is disconnected, one that had not is dropped as it is |
| Conf.ParseAcceptsWhatFits | src/conf.rs:53-58 | a text is accepted if and only if it is a numeral of the radix whose value fits, and yields it |
| Conf.SignsAreExact | src/conf.rs:53-58 | the same spelled out: one or more digits, with or without a plus sign |
| Conf.DigitsAreThese | src/conf.rs:53-58 | the digits are 0 to 9 and a to z in either case, and count from 0 |
| Conf.AddressKinds | src/conf.rs:6-32 | an IPv4 address is four decimals up to 255, an IPv6 address eight hexadecimals up to 65535, a MAC address six up to 255, and nothing else is accepted |
| Conf.AddressesAreExact | src/conf.rs:6-51 | an address is accepted if and only if it is exactly as many fitting numerals as it should have, joined by the separator, and yields their values |
| Conf.MasksAreExact | src/conf.rs:48-51 | an address with a mask is accepted if and only if a fitting decimal follows its first slash |
| Conf.AddressesRoundTrip | src/conf.rs:6-51 | every IPv4, IPv6 or MAC address, and every mask, written out parses back to itself |

## Left out

- smoltcp, picoserve, minimq, embedded-tls and RTIC themselves: not in the repository; the contract above stands for them.
- Retransmission, congestion control, keep-alive and sequence numbers: their outcome is a step that drops the connection.
- Lifecycle.HttpServer.TimerFires: when a timer fires relative to the sections is left to the environment; timeouts may strike at any moment.
- Lifecycle.HttpServer.Run: each await is polled a bounded number of times, for every bound; suspending between polls is in the machine, not in the class.
- Mqtt.Client.Run: ends when an await outlasts its bound; when `disconnect` never answers is Reconnect.RoundCanStall.
- Reconnect.RoundCanStall: "for ever" is whatever the network does; the task holds no timer while it awaits `disconnect` (src/mqtt.rs:249), so none is counted on.
- Schedules.MqttRunsHappen: in the run it builds the other task with a socket is never dispatched.
- Stream: a simultaneous open, where both ends connect.
- Mqtt.Client.ConnectTransport: the await is polled a bounded number of times, for every bound; what never answers ends the run.
- Mqtt.Client.NextAttempt: the sum of a clock reading and the backoff is not bounded to 64 bits, which takes 19 500 years to matter.
- Network.NetworkPoller.PollTask: no request arrives during one poll, since every producer has at most the poller's priority; the interleavings are in PollRequest and Rtic.
- Clock.DeadlineIsExact: the product wraps as in a release build; a debug build panics there instead.
- Socket.TokenProvider.Lock: the class has the borrow of the RefCell only; that the RTIC lock below it excludes other tasks is RticGuarantees.LocksExclude and Firmware.SocketsChangeUnderTheLock.
- Firmware.RunsAreRuns: wakes by timers are possible at every tick; which future asked for one is not recorded.
- Socket.TcpEndpoint: the rings are values, not the arrays smoltcp keeps them in; `start` keeps their contiguous windows.
- The 32-to-64-bit extension of the timers: part of ra-fsp-rs.
- The TLS transport, MQTT session semantics, HTTP routing, logging, pin tables, descriptors, build and linker scripts.
- `network_link_poll` and `blinky`: their periodic loops only add a period to a timestamp.
- The log branch of `src/network.rs:125-129`, whose condition compares a value with itself.
- The queue-length and capacity getters and option setters of the socket: one read, or one write of a field the model does not have.
