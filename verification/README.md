# Phoenix Channels client: verified model

A Dafny model of the asyncio client in `phoenix_channels_python_client/`, with proofs about every run
of it. `dafny verify dfyconfig.toml` checks everything.

The client is a set of asyncio tasks (socket reader, supervisor, join callers, recoveries, leave and
loss tasks, message processors, write tasks, timers) that share mutable records. Between two awaits a
task runs alone, so each such stretch is one step, and the steps interleave freely. Two forms of every
component stand side by side:

- the stretches as functions on values, the steps as a state machine, and theorems about all its runs;
- the mutable objects as classes, with the source's loops over pushes, operations, topics, queues and
  timestamps, proved to compute exactly those functions. The objects of the send session, the client,
  the heartbeat and the decider carry the history of their method calls, which `Valid` ties to the state
  machine: what is proved about every run holds of every object.

## Components

**Channels** (`wrappers`, `client_state`, `mailbox`, `channels`, `channel_*`, `topic_runtime`). `Channels`
holds the synchronous code of one channel record; `ChannelProtocol` runs any number of channels with the
supervisor's rejoin pass, recoveries, leave and loss tasks, connection loss, stop and shutdown, on V1 or
V2. The server is adversarial: it may delay, duplicate and reorder frames and send any event, but it
answers only refs that reached its socket. `ChannelInvariant` says what holds of a channel after every
step: `Sound` relates its record to the client, `Attended` says that somebody owns what happens next.
`ChannelHandlers`, `ChannelSteps`, `ChannelAttended`, `ChannelSweeps`, `ChannelPass` and `ChannelSystem`
prove that every step keeps it; `ChannelHistory` and `ChannelLedger` do the same for what spans channels:
refs, names, frames on the wire and answers. `ChannelLosses` and `ChannelReports` follow why a channel was
lost and who reports it. `ChannelEffects`, `ChannelDepartures` and `ChannelQuiet` say what each step has
to do to a channel and what it leaves alone. `ChannelTheorems`, `ChannelProgress` (every step takes
effect, nobody waits in vain) and `ChannelOrder` (blocking channels are rejoined first) draw the
conclusions, `ChannelGaps` the three runs that fall short of the documentation. `TopicRuntimes` is the
class form: its `Valid` is the protocol's invariant for every registered topic.

**Send sessions** (`send_session`, `send_objects`, `channel_sends`). One operation's outcome, write and
deadline end in any order, callers are cancelled, sessions fail, retire or are replaced; callbacks are
later steps. `ChannelSends` shows that these are the operations of the channel protocol.

**Supervisor, entry and shutdown** (`supervisor`, `supervisor_object`). The
connect/adopt/run/clean-up/decide loop racing `shutdown()`, send failures and a second entry.

**Heartbeat** (`heartbeat`), **reconnect policy** (`decider`, `decider_object`): timed models over reals.

**Binary codec and close reasons** (`utf8`, `codec`, `close_reason`): strict UTF-8 (section 3 of
RFC 3629), length-prefixed frames, and the 123 bytes a close frame leaves for its reason (sections 5.5
and 5.5.1 of RFC 6455).

## What the proofs found

Three promises of the client's own documentation (`README.md` of the repository) do not hold as
written. Each has a run that breaks it and the exact condition under which it holds.

1. Lines 599-603 there count rejected rejoins, bad params, installation failures and server closes as
   permanent loss. There is a fifth reason: a recovery that restarts its channel after the connection's
   send session failed (a stalled push write of any channel is enough) has its join refused by that
   session, and `_join` takes the refusal for a configuration failure, though the server never refused
   anything (`StalledWriteLosesChannel`). A join is refused so if and only if the session has failed when
   its write starts (`JoinIsSentUnlessSessionFailed`, `NotCurrentComesFromFailedSession`), and the refusal
   loses the channel if and only if nothing else has moved the channel before its waiter resumes
   (`RecoveryLosesRefused`, `PassLosesRefused`). These five are all the reasons (`LossReports`).
2. A permanent loss should be reported once and the name freed. It is never reported twice, and it is
   reported unless one of three steps drops the report (`EveryLossIsReported`): a recovery is cancelled
   while it holds a refusal, by a closing connection or an explicit leave, or the name was freed by an
   earlier leave before the loss task or the pass got to it (`ReportIsDroppedExactly`). A cancelled
   recovery moreover leaves its channel with nobody to leave it if and only if its rejoin had been refused
   and no leave task exists (`CancellationStrandsRefusals`, `CancelledRefusalKeepsName`); nothing else
   does (`OnlyCancelledRefusalsAreStuck`).
3. Whenever the client counts as connected, a rejoining channel should have a recovery or a place in
   the supervisor's pass. Between the end of the routing task and `_cleanup_connection` it may have
   neither (`StrandedUntilCleanup`); when routing stops, a joined channel keeps an owner if and only if
   its recovery had not ended (`RoutingStopStrands`). Before that, `NoStranded` holds without exception,
   and after it the supervisor's own cleanup is the next owner.

## Conventions

- Futures are pending, succeeded or failed; cancelling one fails it. A settled future never changes.
- The event loop is first-in first-out where the code relies on it: a woken join caller resumes before
  its channel restarts, and a shutdown task starts after a supervisor created before it.
- User callbacks, params providers and hooks are a nondeterministic success or failure and do not
  re-enter the client's lifecycle. Clocks and random draws are parameters.
- Refs are increasing numbers; sockets are numbered as they come.

## Model

| member | source | states |
|---|---|---|
| ChannelSystem.RunKeeps | phoenix_channels_python_client/topic_runtime.py:140-1107 | the invariant: after every run, every channel satisfies all of it: record, tasks, reservation, delivery, loss, and who acts next; what each step has to do is stated by the rows of ChannelProgress and ChannelOrder |
| ChannelLedger.RunLedger | phoenix_channels_python_client/topic_runtime.py:673-779 | after every run, refs belong to the channel they were generated for, names are unique, and the wire and the answers agree with every channel's record |
| ChannelTheorems.NoStranded | phoenix_channels_python_client/topic_runtime.py:418-502 | while replies arrive, every registered REJOINING channel has a live recovery, a place in the current pass, or the pass awaiting a join that has not succeeded, even after a crash between ack and resumption; afterwards the supervisor's cleanup is next |
| ChannelOrder.PassIsSorted | phoenix_channels_python_client/topic_runtime.py:991-1005 | over every run: what the pass works on or awaits blocks the reconnect, what it leaves for the end does not, and every channel registered at the adoption and not rejoined yet is in its half of the pass |
| ChannelOrder.RequiredBeforeOptional | phoenix_channels_python_client/topic_runtime.py:995-1001 | when the pass turns to the optional channels, every blocking channel registered at the adoption was restarted on the new connection, is LEFT, or gave up its name |
| ChannelOrder.OptionalAreRecovered | phoenix_channels_python_client/topic_runtime.py:1003-1005 | then exactly the non-blocking channels of before the adoption that can be rejoined get a recovery for the new generation |
| ChannelOrder.PassStepsTakeEffect | phoenix_channels_python_client/topic_runtime.py:1007-1091 | the pass restarts exactly what can be rejoined, waits for the fresh join, removes a refused channel and hands any other failure to a recovery |
| ChannelProgress.RecoveriesTakeEffect | phoenix_channels_python_client/topic_runtime.py:450-502 | a recovery restarts its channel, retries, ends, or loses it exactly when it should |
| ChannelProgress.CallsArePossible | phoenix_channels_python_client/topic_runtime.py:781-943 | leave, a first join of a free name while connected, and a push while JOINED are possible whenever the code lets them through, and the server may send any frame it can answer for |
| ChannelProgress.OperationsMove | phoenix_channels_python_client/topic_runtime.py:722-779 | every write starts and ends, and every pending outcome has a deadline that can fire |
| ChannelProgress.WaitersMove | phoenix_channels_python_client/topic_runtime.py:463-502 | no deadlock: a caller, recovery or leave task that awaits an outcome can resume, or the outcome's deadline can still fire |
| ChannelProgress.TasksMove | phoenix_channels_python_client/topic_runtime.py:418-526 | every other task of a channel has its next step enabled or waits for another task of the channel |
| ChannelProgress.SupervisorMoves | phoenix_channels_python_client/topic_runtime.py:991-1091 | the pass, a lost connection, the cleanup and the next socket never block the supervisor for good |
| ChannelTheorems.OneJoinWaiter | phoenix_channels_python_client/topic_runtime.py:1007-1027 | at most one of join caller, recovery and pass awaits a channel's join, and only its current one |
| ChannelTheorems.PendingIsCurrent | phoenix_channels_python_client/topic_runtime.py:722-744 | a pending outcome belongs to a registered channel's current join on the client's current connection |
| ChannelTheorems.ClosedConnectionIsQuiet | phoenix_channels_python_client/supervisor.py:459-492 | from the start of a connection's cleanup on, over any continuation, no outcome on that connection is pending or becomes pending |
| ChannelTheorems.MembershipIsAcknowledged | phoenix_channels_python_client/topic_runtime.py:295-343 | JOINED with a join_ref on a connection only if the frame reached that connection and the server answered ok to exactly that ref there |
| ChannelTheorems.SuccessIsAnswered | phoenix_channels_python_client/topic_runtime.py:228-270 | a join, push or leave succeeds only by the server's favourable answer to its own ref on its own connection |
| ChannelTheorems.HookOncePerJoin | phoenix_channels_python_client/topic_runtime.py:332-343 | the join-response hook runs at most once per join_ref, only for acknowledged refs, and before any delivery under that ref |
| ChannelTheorems.DeliveryStaysInItsEpoch | phoenix_channels_python_client/topic_runtime.py:188-217 | on V1 and V2, dispatched messages are an in-order subsequence of the accepted ones, each dispatched under the join_ref it was accepted under; whatever is queued belongs to the current one |
| ChannelTheorems.MessagesConserved | phoenix_channels_python_client/protocol_handler.py:105-127 | accepted = taken + dropped + drained + queued, and the queue keeps its bound |
| ChannelProgress.DeliveryIsExact | phoenix_channels_python_client/protocol_handler.py:74-127 | a frame for the handlers (JOINED, current generation and join, application event or unawaited reply) is queued under the join_ref, a full queue loses its oldest, and nothing else changes; every other frame leaves the messages alone |
| ChannelProgress.DispatchIsExact | phoenix_channels_python_client/topic_runtime.py:196-217 | the processor hands the oldest queued message to the handlers if and only if the channel is JOINED, no restart was requested and the message is not of another join; either way it leaves the queue |
| ChannelProgress.MessagesMoveOnlySo | phoenix_channels_python_client/protocol_handler.py:98-127 | no step of the client but those two accepts a message or hands one over |
| ChannelProgress.FramesTakeEffect | phoenix_channels_python_client/topic_runtime.py:228-343 | what each frame has to do, by event, ref and state: an ok join makes the channel JOINED, a refused or uninstallable one LEFT with its reason, push and leave replies settle their own operation as they say, a crash rejoins and a close loses an established channel, a frame of another membership changes nothing |
| ChannelTheorems.OneHolderPerName | phoenix_channels_python_client/topic_runtime.py:886-897 | no two registered channels share a name |
| ChannelTheorems.FreedOnlyWhenOver | phoenix_channels_python_client/topic_runtime.py:613-626 | a channel without its name is LEFT, its join never reached a socket or a terminal was observed, and no write is pending |
| ChannelTheorems.NoReservationLeaks | phoenix_channels_python_client/topic_runtime.py:650-666 | once cleanup is done the name is free unless the join is on the wire and no terminal was observed; once its connection is cleaned up too, it is free for certain |
| ChannelProgress.LeaveIsSentExactly | phoenix_channels_python_client/topic_runtime.py:945-970 | the leave task sends phx_leave under a fresh ref, with the join's ref on the channel's connection, and awaits it, if and only if the submitted join was not ended by the server, that connection is the connected client's, and the unsubscription is open; otherwise it goes to cleanup |
| ChannelProgress.CleanupFollowsLeave | phoenix_channels_python_client/topic_runtime.py:945-973 | over every run, a leave task in cleanup had the outcome of its phx_leave settled, or owed the server none when it started |
| ChannelProgress.LeaveTasksTakeEffect | phoenix_channels_python_client/topic_runtime.py:511-666 | what each step of the leave task and the loss task has to do, the release of the name included |
| ChannelTheorems.LifecycleAgrees | phoenix_channels_python_client/topic_runtime.py:140-174 | leave_requested exactly when LEFT, a successful current join exactly when JOINED, JOINED implies established, no pending pushes unless JOINED, live channels registered and not stopped |
| ChannelProgress.CallsTakeEffect | phoenix_channels_python_client/topic_runtime.py:781-943 | what join, leave and push calls, and a caller that resumes or is cancelled, have to do: the fresh operation and its ref, or LEFT with its reason and a leave task |
| ChannelTheorems.NothingIsTakenBack | phoenix_channels_python_client/topic_runtime.py:157-174 | over any continuation of any run LEFT is absorbing, its first reason final, established stays, names are taken only by a first join, logs only grow |
| ChannelTheorems.LossReports | phoenix_channels_python_client/topic_runtime.py:438-448 | a loss is reported at most once, only of an established channel whose first move to LEFT was a server close, a refused rejoin, bad params, a failed installation, or the refusal of its rejoin by the connection's own failed send session |
| ChannelTheorems.EveryLossIsReported | phoenix_channels_python_client/topic_runtime.py:511-526 | while the client runs, every loss of an established channel was reported, will be by a loss task, the pass or the task whose rejoin was refused, or was dropped by a named step of the run |
| ChannelTheorems.ReportIsDroppedExactly | phoenix_channels_python_client/topic_runtime.py:478-502 | a step leaves an owed report without a reporter if and only if it cancels a recovery that holds a refusal, or lets the loss task or the pass find the name free already |
| ChannelReports.RunStory | phoenix_channels_python_client/topic_runtime.py:418-526 | after every run, why each channel left, what its join waiter will find, and who reports its loss, given what the run dropped and refused before |
| ChannelTheorems.OneLossTask | phoenix_channels_python_client/topic_runtime.py:438-448 | wherever a loss task is started none exists yet |
| ChannelTheorems.WireDiscipline | phoenix_channels_python_client/topic_runtime.py:747-768 | a frame enters the wire only from its own write task, once, for a registered channel on the current connection under its current join_ref; pushes only while joined, joins only of channels that are not LEFT |
| ChannelTheorems.RepliesMatchOnce | phoenix_channels_python_client/topic_runtime.py:241-262 | leave ref, join ref and pending push refs are distinct, and a ref belongs to one channel, so the reply branches exclude each other |
| ChannelTheorems.RoutingStopStrands | phoenix_channels_python_client/supervisor.py:335-340 | when routing stops, a JOINED channel keeps an owner if and only if its recovery had not ended |
| ChannelGaps.StrandedUntilCleanup | phoenix_channels_python_client/supervisor.py:448-457 | a run in which a connected client has a REJOINING channel without any owner |
| ChannelTheorems.JoinIsSentUnlessSessionFailed | phoenix_channels_python_client/send_session.py:87-101 | a pending join whose write starts reaches the socket if and only if the session has not failed; otherwise it fails as no longer current |
| ChannelProgress.PendingIsSentUnlessSessionFailed | phoenix_channels_python_client/send_session.py:87-101 | the same for joins, pushes and leaves: a frame reaches its socket when its write starts if and only if its caller still waits and the session has not failed |
| ChannelProgress.SessionFailsExactly | phoenix_channels_python_client/topic_runtime.py:702-711 | a lost write fails the session if and only if it was on the client's connection, a deadline if and only if it fires during the write; the client then reconnects and every channel is swept, otherwise only the operation fails |
| ChannelTheorems.NotCurrentComesFromFailedSession | phoenix_channels_python_client/send_session.py:87-101 | over every run, a channel left as "no longer current" only if the write of its current join started after the send session had failed |
| ChannelTheorems.RecoveryLosesRefused | phoenix_channels_python_client/topic_runtime.py:863-880 | a recovery resuming with a join refused by the session loses its channel if and only if the channel's cause is still empty; otherwise a live channel stays REJOINING |
| ChannelTheorems.PassLosesRefused | phoenix_channels_python_client/topic_runtime.py:1064-1091 | the same if and only if for the supervisor's pass |
| ChannelGaps.StalledWriteLosesChannel | phoenix_channels_python_client/topic_runtime.py:1007-1027 | a run in which a stalled push write makes a channel lost although the server answered only ok |
| ChannelTheorems.OnlyCancelledRefusalsAreStuck | phoenix_channels_python_client/topic_runtime.py:478-485 | while the client runs, a registered LEFT channel that nobody will leave is one whose refused rejoin was cancelled |
| ChannelTheorems.CancellationStrandsRefusals | phoenix_channels_python_client/supervisor.py:463-483 | cancelling a recovery strands its channel if and only if its rejoin had been refused and no leave task exists |
| ChannelGaps.CancelledRefusalKeepsName | phoenix_channels_python_client/supervisor.py:482-492 | a run that ends with a LEFT channel holding its name, unreported, with nothing left to free it |
| ChannelSweeps.FailPendingIdle | phoenix_channels_python_client/topic_runtime.py:582-593 | after `_fail_pending_joins` no outcome of the channel is pending and it is not JOINING or JOINED |
| ChannelProgress.SweepsTakeEffect | phoenix_channels_python_client/supervisor.py:448-492 | what the end of routing, a cleanup, a refused or adopted socket and a stop do to the client and to every channel: established ones wait to be rejoined, first joins are left, cleaned-up memberships are over, stopped ones are LEFT |
| ChannelSteps.ActSound | phoenix_channels_python_client/topic_runtime.py:188-1062 | the invariant of one record, kept by every step of one channel; what each step has to do is stated by CallsTakeEffect, FramesTakeEffect, RecoveriesTakeEffect, LeaveTasksTakeEffect |
| ChannelAttended.ActAttended | phoenix_channels_python_client/topic_runtime.py:418-526 | every step of one channel leaves somebody to rejoin it, somebody to leave it, and at most one loss task |
| ChannelLosses.ActStory | phoenix_channels_python_client/topic_runtime.py:418-526 | every step of one channel keeps the reason it left for and, unless it drops it, a reporter of its loss |
| ChannelHandlers.TransitionSettles | phoenix_channels_python_client/topic_runtime.py:157-174 | a moving channel fails exactly the joins and pushes that are still awaited; a success survives for its caller but not as the current join |
| ChannelHistory.ActFollows | phoenix_channels_python_client/topic_runtime.py:228-357 | apart from a matching reply and a submitted frame, a step lets nothing succeed, keeps or freshly replaces the current join, and takes nothing back |
| ChannelPass.PassFailedOk | phoenix_channels_python_client/topic_runtime.py:1064-1091 | a failed rejoin of the pass leaves the channel removed, recovering or stopped, never unowned |
| ChannelSweeps.RetireOk | phoenix_channels_python_client/topic_runtime.py:595-601 | stopping moves a channel so that the invariant holds in the stopped client |
| ChannelSweeps.EndCleanupOk | phoenix_channels_python_client/supervisor.py:484-492 | the end of a cleanup observes the connection's channels as terminal and frees what may be freed |
| TopicRuntimes.TopicRuntime.JoinChannel | phoenix_channels_python_client/topic_runtime.py:886-909 | a handle is admitted exactly if it is CREATED, the client connected and its name free; the invariant of every registered topic is kept |
| TopicRuntimes.TopicRuntime.RouteMessage | phoenix_channels_python_client/protocol_handler.py:74-103 | a frame has the effect its event and ref call for, delivery included, and keeps the invariant of every registered topic |
| TopicRuntimes.TopicRuntime.TakeNextMessage | phoenix_channels_python_client/topic_runtime.py:198-217 | which queued message is skipped, dispatched or ends the processor; the invariant is kept |
| TopicRuntimes.TopicRuntime.LeaveChannel | phoenix_channels_python_client/topic_runtime.py:917-943 | leaving a new handle and leaving any other; the invariant is kept |
| TopicRuntimes.TopicRuntime.FinishCleanup | phoenix_channels_python_client/topic_runtime.py:650-666 | the end of a cleanup frees the name exactly under the release conditions; the invariant is kept |
| TopicRuntimes.TopicRuntime.LoseTopic | phoenix_channels_python_client/topic_runtime.py:511-514 | the loss task unregisters its topic; the invariant is kept |
| TopicRuntimes.TopicRuntime.UnregisterTopic | phoenix_channels_python_client/topic_runtime.py:628-642 | nothing happens for a name that is free or another's; a live topic is moved as CLOSE before its leave task starts |
| TopicRuntimes.TopicRuntime.ReportTopicLost | phoenix_channels_python_client/topic_runtime.py:516-526 | the callback is due exactly the first time; the invariant is kept |
| TopicRuntimes.TopicRuntime.StopRouting | phoenix_channels_python_client/supervisor.py:448-457 | when routing stops, every registered topic becomes its `FailPending` image and the invariant holds without routing |
| TopicRuntimes.TopicRuntime.FailSendSession | phoenix_channels_python_client/topic_runtime.py:702-711 | the same sweep for a failed send session, which also leaves CONNECTED |
| TopicRuntimes.TopicRuntime.RequestStop | phoenix_channels_python_client/client.py:273-279 | every registered topic is retired and the invariant holds in the stopped client |
| TopicRuntimes.TopicRuntime.EndSupervisor | phoenix_channels_python_client/supervisor.py:432-440 | when the supervisor ends without a shutdown, every registered topic is retired and the invariant holds in the CLOSED client |
| TopicRuntimes.TopicRuntime.RetireChannels | phoenix_channels_python_client/topic_runtime.py:595-601 | the loop over a copy of the registry retires every topic while entries disappear |
| TopicRuntimes.TopicRuntime.FailPendingJoins | phoenix_channels_python_client/topic_runtime.py:582-593 | the loop over the registry applies `FailPending` to every registered topic |
| TopicRuntimes.TopicRuntime.FailPushOutcomes | phoenix_channels_python_client/topic_runtime.py:172-174 | the loop fails every pending push, keeps settled ones, and leaves none registered |
| TopicRuntimes.TopicRuntime.AnySendPending | phoenix_channels_python_client/topic_runtime.py:622-625 | the loop finds whether any write of the topic is still pending |
| TopicRuntimes.TopicRuntime.ReleaseReservation | phoenix_channels_python_client/topic_runtime.py:613-626 | the name is removed exactly under the release conditions, and no other name |
| TopicRuntimes.TopicRuntime.DrainTopicQueue | phoenix_channels_python_client/topic_runtime.py:1093-1107 | the loop drains the queue and counts every drained message |
| SendSession.NothingIsUndone | phoenix_channels_python_client/send_session.py:87-180 | over any continuation: settled outcomes keep their result, ended writes stay ended, doomed writes are never submitted, and a failed, retired or replaced session submits nothing more |
| SendSession.SubmittedOnce | phoenix_channels_python_client/send_session.py:94-120 | each frame is submitted at most once and only by a current session that neither failed nor retired; on_failure is called at most once |
| SendSession.DeadlineBindsWrite | phoenix_channels_python_client/send_session.py:122-133 | after a deadline on a current session the caller is settled and the write is over, never submitted, or the session failed, for ever |
| SendSession.TableDrains | phoenix_channels_python_client/send_session.py:135-151 | once both callbacks have run the operation is neither listed nor timed; only listed operations have timers |
| SendSession.WaitingHasDeadline | phoenix_channels_python_client/send_session.py:74-85 | whoever waits on a current session has a running deadline, and an ended write has delivered the frame |
| SendSession.OutcomeIsFirstReason | phoenix_channels_python_client/send_session.py:87-133 | over every run, an outcome is the first reason the events give to settle it, and it waits as long as there is none |
| SendSession.SubmittedExactly | phoenix_channels_python_client/send_session.py:94-101 | a frame is submitted if and only if its write starts while its caller waits, undoomed and eligible, on a current session neither retired nor failed |
| SendSession.SessionFailsExactly | phoenix_channels_python_client/send_session.py:101-133 | the session fails exactly by a write that loses its connection or is cancelled, or a deadline during a write; a deadline or cancelled caller dooms a write that has not started |
| SendSession.TableForgetsExactly | phoenix_channels_python_client/send_session.py:122-151 | when an operation leaves the table, and that only a replacement ends being current |
| SendSession.FinishStops | phoenix_channels_python_client/send_session.py:166-180 | finishing stops every listed deadline and unstarted write, and empties the table |
| SendObjects.SessionSends.Promises | phoenix_channels_python_client/send_session.py:50-180 | whatever methods were called: timers only on listed operations of a session that has not retired, noticed operations unlisted, waiters of a current session timed, frames exactly the submitted ones, at most one failure |
| SendObjects.SessionSends.Admit | phoenix_channels_python_client/send_session.py:60-76 | a known or settled outcome admits nothing, another one continues the run by an admission |
| SendObjects.SessionSends.StartSend | phoenix_channels_python_client/send_session.py:87-101 | the objects take the step of a write that starts, so the run of `SendSession` goes on |
| SendObjects.SessionSends.FinishSend | phoenix_channels_python_client/send_session.py:101-114 | likewise for the end of a write |
| SendObjects.SessionSends.Expire | phoenix_channels_python_client/send_session.py:122-133 | likewise for a deadline |
| SendObjects.SessionSends.CancelCaller | phoenix_channels_python_client/send_session.py:80-85 | likewise for a cancelled caller |
| SendObjects.SessionSends.SendDone | phoenix_channels_python_client/send_session.py:135-139 | likewise for the write's callback |
| SendObjects.SessionSends.OutcomeDone | phoenix_channels_python_client/send_session.py:141-145 | likewise for the outcome's callback |
| SendObjects.SessionSends.RetireListed | phoenix_channels_python_client/send_session.py:166-178 | the loop of `finish` retires every listed operation and no other object |
| ChannelSends.StartsAlike | phoenix_channels_python_client/send_session.py:94-101 | a write that starts submits in the channel protocol if and only if it does in its send session |
| ChannelSends.EndsAlike | phoenix_channels_python_client/send_session.py:101-114 | a write ends alike in both, and a lost connection fails the session in both |
| ChannelSends.ExpiresAlike | phoenix_channels_python_client/send_session.py:122-133 | a deadline settles alike in both, and fails the session in both exactly if the write was going on |
| ChannelSends.CancelsAlike | phoenix_channels_python_client/send_session.py:80-85 | a cancelled caller settles alike in both |
| Supervisors.TransitionsNeverRaise | phoenix_channels_python_client/client_state_machine.py:6-36 | in every interleaving no transition raises, and the shutdown event is set exactly in SHUTTING_DOWN or a later CLOSED |
| Supervisors.NothingStartsAfterStop | phoenix_channels_python_client/supervisor.py:246-271 | after a stop or a refusal no handshake starts and the decider is asked nothing until the next entry |
| Supervisors.ClosedMeansSocketsShut | phoenix_channels_python_client/supervisor.py:459-492 | in CLOSED the supervisor has ended and every socket ever returned by `_connect` is closed |
| Supervisors.ConversationFollowsGrammar | phoenix_channels_python_client/supervisor.py:392-414 | the events asked in one entry are a prefix of Connecting, then ConnectFailed or Connected and Disconnected, repeated; Connected counts 1, 2, 3, ... |
| Supervisors.EntrySettledOnce | phoenix_channels_python_client/supervisor.py:422-440 | the entry future is settled at most once and by the supervisor's end at the latest; with which result is stated by EntryFollowsSession and EntrySucceeds |
| Supervisors.EntryFollowsSession | phoenix_channels_python_client/supervisor.py:422-440 | over every run: beyond the first session's rejoins the entry has succeeded unless its caller gave up, and it fails only with a supervisor that ends or closes a refused socket |
| Supervisors.EntrySucceeds | phoenix_channels_python_client/supervisor.py:347-359 | the end of the rejoins lets a waiting entry succeed |
| Supervisors.StateFollowsSession | phoenix_channels_python_client/supervisor.py:246-271 | CONNECTED only within a session, RECONNECTING between two; an automatically reconnecting supervisor ends only by a stop or a refusal, without auto_reconnect there is one attempt |
| Supervisors.StepsTakeEffect | phoenix_channels_python_client/supervisor.py:246-440 | what every step has to do: handshakes, adoption, sessions, the decision with its event and close code, retries, ends and the shutdown task |
| Supervisors.EverySuspensionEnds | phoenix_channels_python_client/supervisor.py:246-271 | a living supervisor and a running shutdown have a next step |
| ClientObjects.PhoenixClient.Promises | phoenix_channels_python_client/supervisor.py:246-326 | whatever methods were called: no transition raised, a stop shows in the state, CLOSED means every socket shut, the conversation parses, the entry settled at most once and with success beyond the first session's rejoins, CONNECTED only within a session |
| ClientObjects.PhoenixClient.Enter | phoenix_channels_python_client/client.py:228-245 | entered exactly from CLOSED without an active shutdown; the run of `Supervisors` goes on |
| ClientObjects.PhoenixClient.RequestShutdown | phoenix_channels_python_client/client.py:261-278 | a stop shows at once, unless a shutdown is active or the client fully closed; the run goes on |
| ClientObjects.PhoenixClient.BeginTurn | phoenix_channels_python_client/supervisor.py:246-252 | the loop test and the Connecting gate are a step of the run |
| ClientObjects.PhoenixClient.RetryAfterConnectFailure | phoenix_channels_python_client/supervisor.py:280-302 | so is a failed handshake: a requested stop outranks a refusal, without auto_reconnect the entry fails |
| ClientObjects.PhoenixClient.AdoptConnection | phoenix_channels_python_client/supervisor.py:304-326 | so is a new socket: late ones are kept for the shutdown, refused ones handed to cleanup, others adopted |
| ClientObjects.PhoenixClient.DecideReconnection | phoenix_channels_python_client/supervisor.py:392-403 | so is the decision after a close, which hides the code of a forced one |
| ClientObjects.PhoenixClient.CancelSupervisor | phoenix_channels_python_client/supervisor.py:478-492 | so is the cancelled supervisor, which still closes the socket of its cleanup |
| ClientObjects.PhoenixClient.FinishShutdown | phoenix_channels_python_client/client.py:281-299 | at the end of a shutdown the client is CLOSED and every socket it ever got is closed |
| Heartbeats.DeadlineFollowsAcks | phoenix_channels_python_client/supervisor.py:318-323 | over every run the deadline is the threshold after the last acknowledgement or the adoption, where the events alone decide what an acknowledgement is; the outstanding ref likewise |
| Heartbeats.OnlyTimelyAcksCount | phoenix_channels_python_client/supervisor.py:127-141 | replies with a wrong ref, or at or after the deadline, can be deleted from any run without changing where it leads, and a reply changes the state if and only if it counts |
| Heartbeats.OneOutstanding | phoenix_channels_python_client/supervisor.py:220-243 | over every run with a threshold, the heartbeats sent, under increasing refs, are as many as the acknowledgements or one more, the outstanding one |
| Heartbeats.PromptServerStaysConnected | phoenix_channels_python_client/supervisor.py:190-218 | a server that answers within r, interval + r below the threshold, has every answer accepted and is never closed |
| Heartbeats.NoThresholdNeverCloses | phoenix_channels_python_client/supervisor.py:220-243 | without a threshold, the default: no deadline and no close, every turn sends, and the outstanding ref is that of the last turn until a reply names it |
| Heartbeats.TurnsKeepPace | phoenix_channels_python_client/supervisor.py:220-243 | the loop turns once per interval, counted from the adoption |
| Heartbeats.HeartbeatTracker.SendHeartbeat | phoenix_channels_python_client/supervisor.py:224-243 | one turn of the sending loop continues the run |
| Heartbeats.HeartbeatTracker.HandleResponse | phoenix_channels_python_client/supervisor.py:127-141 | a heartbeat reply continues the run |
| Deciders.DequeIsRecentLog | phoenix_channels_python_client/default_decider.py:161-179 | with a monotone clock the deque is exactly the rapid disconnects since the last stable reset still within the window |
| Deciders.RateIsBounded | phoenix_channels_python_client/default_decider.py:198-226 | if events respect the granted delays, (n - 3) * low_ratio * cooldown_base <= rapid_window for the number n of remembered disconnects |
| Deciders.DefaultsNeverSuppress | phoenix_channels_python_client/client_types.py:52-72 | with the default numbers n is at most 7, below the threshold of 10 |
| Deciders.VerdictIsValid | phoenix_channels_python_client/default_decider.py:92-143 | exactly when reconnecting stops, with or without a terminal error, and no granted delay is negative |
| Deciders.BackoffInRange | phoenix_channels_python_client/default_decider.py:198-226 | the jittered wait lies between half the wait and the wait, from the third rapid disconnect on between its two ratios; the wait is the base multiplied by the factor once per attempt up to its cap, or the floor of that many rapid disconnects |
| Deciders.DelayGrows | phoenix_channels_python_client/default_decider.py:42-47 | the first delay is the base, each further one the factor times the last, up to the cap |
| Deciders.DrawsSpread | phoenix_channels_python_client/default_decider.py:34-39 | the draw spreads the jitter evenly from its lower end |
| Deciders.AttemptCountsRetries | phoenix_channels_python_client/default_decider.py:92-125 | over every conversation the attempt is the number of retries granted since the last stable close, whose uptime is measured from the last connection |
| Deciders.GrantedDelayInRange | phoenix_channels_python_client/default_decider.py:92-125 | every delay granted in a conversation is in the range of that attempt and of the rapid disconnects in the window, and no less than the close code asks for |
| DeciderObjects.DefaultReconnectDecider.Suppressed | phoenix_channels_python_client/default_decider.py:161-179 | recording, the pruning loop and the suppression test |
| DeciderObjects.DefaultReconnectDecider.AfterClose | phoenix_channels_python_client/default_decider.py:92-110 | the memory and the decision after a close |
| DeciderObjects.DefaultReconnectDecider.AfterConnectFailure | phoenix_channels_python_client/default_decider.py:112-125 | the memory and the decision after a refused or failed attempt |
| DeciderObjects.DefaultReconnectDecider.Decide | phoenix_channels_python_client/default_decider.py:80-90 | every possible next call continues the conversation that the deque is proved to remember |
| Codec.ServerLayouts | phoenix_channels_python_client/codec.py:118-147 | decoding inverts the server's encoder for push, reply and broadcast; empty refs come back absent |
| Codec.DecodeInvertsServer | tests/binary_support.py:31-37 | decoding a laid-out frame yields exactly its fields and payload |
| Codec.ServerReadsClient | phoenix_channels_python_client/codec.py:162-182 | a four-field server parser inverts `_encode_binary`, empty and absent refs identified |
| Codec.OnlySendableIsEncoded | phoenix_channels_python_client/codec.py:162-182 | a binary push is encoded if and only if it is not phx_join, phx_leave or the phoenix heartbeat and every field fits in 255 bytes |
| Codec.AcceptedFramePartitions | phoenix_channels_python_client/codec.py:103-115 | an accepted frame is exactly kind, sizes, fields and payload, every byte accounted for |
| Codec.CutHeaderIsRejected | phoenix_channels_python_client/codec.py:104-109 | an accepted frame cut anywhere before the end of its last field is rejected |
| Codec.ParseBinaryFields | phoenix_channels_python_client/codec.py:103-115 | the loop with its moving offset computes the parse, with its error cases |
| Utf8.DecodeEncode | phoenix_channels_python_client/codec.py:166-174 | encoding a text and decoding it strictly returns it |
| Utf8.EncodeDecode | phoenix_channels_python_client/codec.py:112-114 | strict decoding accepts only encodings of texts |
| CloseReasons.CutEncoding | phoenix_channels_python_client/supervisor.py:47-51 | decoding a cut encoding while ignoring errors leaves the whole code points that fit |
| CloseReasons.TruncateIsLongestPrefix | phoenix_channels_python_client/supervisor.py:42-51 | the truncated reason is the longest code-point prefix whose UTF-8 fits in 123 bytes |

## Left out

- The `websockets` transport, TLS and JSON parsing: the socket is an adversarial source of frames, and a JSON payload is abstracted to whether it is a map, its status and whether it is a valid reply.
- The stretches of `_push_channel`, `_recover_channel`, `_rejoin_topics` and of a waiting `_join` or `_leave_and_cleanup`: functions and steps on values; as methods of a class only their pieces (`_restart_topic`, the failure handling of `_join`, transitions, sweeps) exist.
- ClientObjects.PhoenixClient.RequestShutdown: without the channels, which TopicRuntimes.TopicRuntime.RequestStop retires.
- ClientObjects.PhoenixClient.SettleSupervisorExit: without the channels, which TopicRuntimes.TopicRuntime.EndSupervisor retires.
- A processor that dies of an exception of its own (`topic_runtime.py:219-226`): handler exceptions are caught before it.
- `_drain_callback` and the cancellation of a running callback: that a handler has finished before a restart is an assumption of the restart step.
- Timers of recoveries and deadlines of channel operations: when they fire is nondeterministic; `SendSession` and `Deciders` model them in detail.
- A second `async with` entry within one channel run; `Supervisors` has re-entry.
- Changing `auto_reconnect` during a run: it is fixed per run.
- Liveness beyond ownership: retries are unbounded by design, so an owner is proved to exist, not that a rejoin succeeds.
- Heartbeats.PromptServerStaysConnected: sends take no time and the interval wait is exact, because the source gives no bound on either.
- Deciders.RateIsBounded: arithmetic over reals; Python's float power raises OverflowError for very large attempts (`default_decider.py:42-47`).
- CloseReasons.TruncateIsLongestPrefix: strings of Unicode scalar values only; Python refuses to encode a lone surrogate.
- `shutdown_signals.py`, `diagnostics.py`, `authentication.py`, URL building, Pydantic models, `channel.py`, logging and packaging: thin or driven by libraries.
