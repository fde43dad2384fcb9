/**
 * One channel record and the synchronous code that changes it (`topic_subscription.py`,
 * `topic_runtime.py`). Every function here is one stretch of code between two awaits;
 * `TopicRuntimes` holds the same stretches as methods on mutable objects.
 */
module Channels {
  import opened Wrappers
  import opened ClientStates
  import opened Mailboxes

  /** `_generate_ref`: 1, 2, 3, ...; 0 is the empty ref of a channel that never joined. */
  type Ref = nat
  type ConnectionId = nat

  datatype ChannelState = Created | Joining | Joined | Rejoining | Left

  datatype Cause =
    | Accepted | Rejected | Configuration | Crash | Close | Transport | Timeout | Leave | Stop

  datatype Reason =
    | Crashed | ClosedByServer | WasLeft | StoppingClient | JoinRefused | BadParams | HookFailed
    | NotCurrent | LeaveRefused | MalformedReply | DeadlineExpired

  /** The exceptions an operation's outcome can hold. */
  datatype Failure = SocketFailure | ChannelFailure(reason: Reason) | TimeoutFailure | CallerCancelled

  datatype Future = Pending | Succeeded | Failed(failure: Failure)

  datatype OperationKind = JoinOperation | LeaveOperation | PushOperation

  /** The write task of an operation: not started, inside `connection.send`, or over. */
  datatype SendStage = Scheduled | Writing | Finished

  /** One `_send_channel_operation`; `epoch` is the join_ref frozen into its frame. */
  datatype Operation = Operation(
    kind: OperationKind, connection: ConnectionId, epoch: Ref, outcome: Future, send: SendStage)

  /** Where `_recover_channel` is suspended. */
  datatype Recovery =
    | NoRecovery
    | Backoff(generation: nat)
    | StoppingProcessor(generation: nat)
    | AwaitingRejoin(generation: nat, ref: Ref)

  /** Where `_leave_and_cleanup` is suspended. */
  datatype Leaver = NoLeaver | LeaveScheduled | AwaitingLeave(ref: Ref) | CleaningUp | LeaverDone

  /** Where `_lose_topic` is suspended. */
  datatype Loss = NoLoss | LossScheduled | LossUnregistering | LossReporting | LossDone

  datatype Processor = NoProcessor | WaitingForMessage | HandlingMessage | ProcessorEnded

  /** What the handlers read of the client. */
  datatype Context = Context(
    v2: bool,
    queueLimit: nat,
    state: ClientState,
    connection: Option<ConnectionId>,
    generation: nat,
    shutdown: bool,
    sendFailed: bool,   // the current connection's `SessionSends.failed`
    routing: bool,      // the current connection's routing task has not stopped
    refs: nat)

  datatype Channel = Channel(
    name: string,
    blocksReconnect: bool,
    state: ChannelState,
    cause: Option<Cause>,
    established: bool,
    leaveRequested: bool,
    registered: bool,   // `topic_subscriptions.get(name) is topic`
    connection: Option<ConnectionId>,
    generation: nat,
    joinRef: Ref,
    ready: Future,
    joinSubmitted: bool,
    terminal: bool,
    leaveRef: Option<Ref>,
    unsubscribed: Future,
    cleanupDone: bool,
    lossReported: bool,
    restartRequested: bool,
    pushes: set<Ref>,
    operations: map<Ref, Operation>,
    joiner: Option<Ref>,   // a caller suspended in `_join_channel`
    recovery: Recovery,
    recoveryCancelled: bool,
    leaver: Leaver,
    loss: Loss,
    processor: Processor,
    mail: Mailbox,
    // Histories: the first move to LEFT, the join refs whose response was installed, the number
    // of times on_topic_lost was started, and whether a cancelled recovery left a rejected
    // channel with nothing that would leave it.
    leftBy: Option<(Cause, Failure)>,
    installed: seq<Ref>,
    lossReports: nat,
    abandoned: bool)

  function NewChannel(name: string, blocksReconnect: bool): Channel {
    Channel(name, blocksReconnect, Created, None, false, false, false, None, 0, 0, Pending, false, false,
            None, Pending, false, false, false, {}, map[], None, NoRecovery, false, NoLeaver, NoLoss,
            NoProcessor, EmptyMailbox(), None, [], 0, false)
  }

  predicate IsConnected(x: Context) {
    x.state == Connected && x.connection.Some?
  }

  predicate OnCurrentConnection(x: Context, c: Channel) {
    IsConnected(x) && c.generation == x.generation && (c.connection.None? || c.connection == x.connection)
  }

  predicate ChannelJoined(x: Context, c: Channel) {
    c.state == Joined && c.registered && OnCurrentConnection(x, c) && c.ready.Succeeded? && !c.leaveRequested
  }

  predicate ShouldRejoin(c: Channel) {
    c.registered && c.established && !c.leaveRequested && c.state != Left
  }

  predicate CanRecover(x: Context, c: Channel, generation: nat) {
    !x.shutdown && ShouldRejoin(c) && IsConnected(x) && generation == x.generation
  }

  predicate HasPendingSend(operations: map<Ref, Operation>) {
    exists r :: r in operations && !operations[r].send.Finished?
  }

  // Futures

  predicate IsPending(operations: map<Ref, Operation>, r: Ref) {
    r in operations && operations[r].outcome.Pending?
  }

  /** A settled future keeps its result. */
  function SettleOutcome(operations: map<Ref, Operation>, r: Ref, f: Future): map<Ref, Operation> {
    if IsPending(operations, r) then operations[r := operations[r].(outcome := f)] else operations
  }

  function FailOutcomes(operations: map<Ref, Operation>, pushes: set<Ref>, failure: Failure): (r: map<Ref, Operation>)
    ensures r.Keys == operations.Keys
    ensures forall k :: k in operations ==>
      r[k] == if k in pushes && operations[k].outcome.Pending?
              then operations[k].(outcome := Failed(failure)) else operations[k]
  {
    map k | k in operations ::
      if k in pushes && operations[k].outcome.Pending? then operations[k].(outcome := Failed(failure)) else operations[k]
  }

  /** Settles an operation together with the channel field that holds the same future. */
  function Settle(c: Channel, r: Ref, f: Future): Channel {
    if !IsPending(c.operations, r) then c
    else c.(
      operations := SettleOutcome(c.operations, r, f),
      ready := if c.operations[r].kind == JoinOperation && r == c.joinRef && c.ready.Pending? then f else c.ready,
      unsubscribed := if c.operations[r].kind == LeaveOperation && c.leaveRef == Some(r) && c.unsubscribed.Pending?
                      then f else c.unsubscribed)
  }

  function SettleLeave(c: Channel, f: Future): map<Ref, Operation> {
    if c.leaveRef.Some? then SettleOutcome(c.operations, c.leaveRef.value, f) else c.operations
  }

  function SettleUnsubscribed(c: Channel, f: Future): Channel {
    if !c.unsubscribed.Pending? then c else c.(unsubscribed := f, operations := SettleLeave(c, f))
  }

  // Lifecycle

  predicate Recoverable(cause: Cause) {
    cause == Crash || cause == Transport || cause == Timeout
  }

  /** `_transition_channel` for ACCEPTED. */
  function Accept(c: Channel): Channel {
    if c.state == Left || c.leaveRequested then c.(cause := Some(Accepted))
    else c.(
      cause := Some(Accepted), state := Joined, established := true,
      ready := if c.ready.Pending? then Succeeded else c.ready,
      operations := SettleOutcome(c.operations, c.joinRef, Succeeded))
  }

  /** `_transition_channel` for every other cause: a settled current join is replaced by a failed
      one, so a successful join never survives. */
  function Transition(x: Context, c: Channel, cause: Cause, failure: Failure): Channel {
    var recovers := c.established && Recoverable(cause) && !c.leaveRequested && !x.shutdown;
    c.(
      cause := Some(cause),
      state := if recovers then Rejoining else Left,
      leaveRequested := c.leaveRequested || !recovers,
      leftBy := if c.leftBy.None? && !recovers then Some((cause, failure)) else c.leftBy,
      ready := Failed(failure),
      pushes := {},
      operations := FailOutcomes(SettleOutcome(c.operations, c.joinRef, Failed(failure)), c.pushes, failure))
  }

  function Release(x: Context, c: Channel): Channel {
    if !c.registered || c.state != Left then c
    else if !c.cleanupDone && (c.connection == x.connection || c.leaver.NoLeaver?) then c
    else if c.joinSubmitted && !c.terminal then c
    else if HasPendingSend(c.operations) then c
    else c.(registered := false)
  }

  function StartLeave(x: Context, c: Channel): Channel {
    if !c.leaver.NoLeaver? then c
    else if c.state == Left then c.(leaver := LeaveScheduled)
    else Transition(x, c, Leave, ChannelFailure(WasLeft)).(leaver := LeaveScheduled)
  }

  function StartRecovery(x: Context, c: Channel, generation: Option<nat>): Channel {
    var g := if generation.Some? then generation.value else x.generation;
    if !c.recovery.NoRecovery? || !CanRecover(x, c, g) || (generation.None? && c.generation != g) then c
    else c.(recovery := Backoff(g), recoveryCancelled := false)
  }

  function StartLoss(x: Context, c: Channel, failure: Failure): Channel {
    if c.state == Left then
      if c.established then c.(loss := LossScheduled) else StartLeave(x, c)
    else if c.established then Transition(x, c, Close, failure).(loss := LossScheduled)
    else StartLeave(x, Transition(x, c, Close, failure))
  }

  /** `_fail_pending_joins` on one registered channel. */
  function FailPending(x: Context, c: Channel): Channel {
    if !c.registered || (c.connection.Some? && c.connection != x.connection) then c
    else if c.state == Left then SettleUnsubscribed(c, Failed(SocketFailure))
    else FailLive(x, Transition(x, c, Transport, SocketFailure))
  }

  /** The rest of `_fail_pending_joins` for a channel it has just moved. */
  function FailLive(x: Context, c: Channel): Channel {
    if c.state != Left then c
    else StartLeave(x, SettleUnsubscribed(c, Failed(SocketFailure)))
  }

  /** `_retire_channels` on one registered channel. */
  function Retire(x: Context, c: Channel, failure: Failure): Channel {
    if !c.registered then c
    else if c.connection == x.connection then Transition(x, c, Stop, failure)
    else Release(x, StartLeave(x, Observe(Transition(x, c, Stop, failure))))
  }

  /** `terminal_received.set()` */
  function Observe(c: Channel): Channel {
    c.(terminal := true)
  }

  // Server frames

  datatype Status = StatusOk | StatusError | StatusOther

  /** A reply payload: is it a map, its status, and is it a valid `Reply`. */
  datatype Body = Body(isMap: bool, status: Status, wellFormed: bool)

  datatype Event = ErrorEvent | CloseEvent | ReplyEvent(body: Body) | ApplicationEvent

  datatype Message = Message(event: Event, ref: Option<Ref>, joinRef: Option<Ref>)

  predicate IsStaleJoin(x: Context, carried: Option<Ref>, current: Ref) {
    x.v2 && carried.Some? && carried.value != current
  }

  function HandleLifecycle(x: Context, c: Channel, m: Message): Channel {
    if m.ref.Some? && m.ref.value != c.joinRef then c
    else if c.state == Left then Release(x, Observe(c))
    else if m.event.ErrorEvent? then
      if c.established then StartRecovery(x, Transition(x, Observe(c), Crash, ChannelFailure(Crashed)), None)
      else Transition(x, Observe(c), Crash, ChannelFailure(Crashed))
    else if c.established
    then StartLoss(x, Transition(x, Observe(c), Close, ChannelFailure(ClosedByServer)), ChannelFailure(ClosedByServer))
    else Transition(x, Observe(c), Close, ChannelFailure(ClosedByServer))
  }

  /** `_install_join_response` was called for the current join_ref. */
  function Install(c: Channel): Channel {
    c.(installed := c.installed + [c.joinRef])
  }

  /** `hookOk` is whether `on_join_response` returned None. */
  function HandleJoinReply(x: Context, c: Channel, body: Body, hookOk: bool): Channel {
    if !c.ready.Pending? || c.leaveRequested || x.shutdown then
      if c.state == Left && body.isMap && body.status == StatusError then Release(x, Observe(c)) else c
    else if !body.isMap then Transition(x, c, Rejected, ChannelFailure(JoinRefused))
    else if body.status != StatusOk then Transition(x, Observe(c), Rejected, ChannelFailure(JoinRefused))
    else if hookOk then Accept(Install(c))
    else Transition(x, Install(c), Configuration, ChannelFailure(HookFailed))
  }

  function HandleLeaveReply(c: Channel, body: Body): Channel {
    SettleUnsubscribed(c, if body.isMap && body.status == StatusOk then Succeeded else Failed(ChannelFailure(LeaveRefused)))
  }

  function SettlePush(c: Channel, r: Ref, f: Future): Channel {
    c.(pushes := c.pushes - {r}, operations := SettleOutcome(c.operations, r, f))
  }

  function ResolvePush(c: Channel, r: Ref, body: Body): Channel {
    SettlePush(c, r, if body.wellFormed then Succeeded else Failed(ChannelFailure(MalformedReply)))
  }

  /** `_handle_channel_control`: the new record, and whether the frame was consumed. */
  function HandleControl(x: Context, c: Channel, m: Message, hookOk: bool): (Channel, bool) {
    if !c.registered || !OnCurrentConnection(x, c) then (c, true)
    else match m.event
      case ErrorEvent => (HandleLifecycle(x, c, m), true)
      case CloseEvent => (HandleLifecycle(x, c, m), true)
      case ApplicationEvent => (c, c.state != Joined)
      case ReplyEvent(body) =>
        if c.leaveRef.Some? && m.ref == c.leaveRef then (HandleLeaveReply(c, body), true)
        else if m.ref == Some(c.joinRef) then (HandleJoinReply(x, c, body, hookOk), true)
        else if m.ref.Some? && m.ref.value in c.pushes then (ResolvePush(c, m.ref.value, body), true)
        else (c, c.state != Joined)
  }

  function Keep(x: Context, c: Channel, m: Message): Channel {
    c.(mail := Enqueue(c.mail, c.joinRef, m.joinRef, x.queueLimit))
  }

  /** The body of the routing loop for a frame that names this channel's topic. */
  function Route(x: Context, c: Channel, generation: nat, m: Message, hookOk: bool): Channel {
    if c.generation != generation || IsStaleJoin(x, m.joinRef, c.joinRef) then c
    else if HandleControl(x, c, m, hookOk).1 then HandleControl(x, c, m, hookOk).0
    else Keep(x, c, m)
  }

  // Operations

  /** `eligible`, asked by the write task just before it submits the frame. */
  predicate Eligible(x: Context, c: Channel, op: Operation) {
    && c.registered
    && x.connection == Some(op.connection)
    && (|| op.kind == LeaveOperation
        || ((op.kind == JoinOperation || ChannelJoined(x, c)) && c.state != Left && !x.shutdown))
    && op.epoch == c.joinRef
  }

  predicate Submits(x: Context, c: Channel, r: Ref)
    requires r in c.operations
  {
    var op := c.operations[r];
    op.outcome.Pending? && !x.sendFailed && Eligible(x, c, op)
  }

  /** The first step of the write task. */
  function StartSend(x: Context, c: Channel, r: Ref): Channel
    requires r in c.operations
  {
    if Submits(x, c, r) then c.(
      operations := c.operations[r := c.operations[r].(send := Writing)],
      joinSubmitted := c.joinSubmitted || c.operations[r].kind == JoinOperation)
    else Settle(FinishSend(c, r), r, Failed(ChannelFailure(NotCurrent)))
  }

  function FinishSend(c: Channel, r: Ref): Channel
    requires r in c.operations
  {
    c.(operations := c.operations[r := c.operations[r].(send := Finished)])
  }

  function FinishWrite(c: Channel, r: Ref, lost: bool): Channel
    requires r in c.operations
  {
    if lost then Settle(FinishSend(c, r), r, Failed(SocketFailure)) else FinishSend(c, r)
  }

  function TimeoutError(kind: OperationKind): Failure {
    if kind == JoinOperation then TimeoutFailure else ChannelFailure(DeadlineExpired)
  }

  // Joins

  /** What `_join` does with the exception its operation raised. */
  function JoinFailed(x: Context, c: Channel, failure: Failure): Channel {
    match failure
    case ChannelFailure(_) =>
      if c.cause.None? || c.cause == Some(Accepted) || c.cause == Some(Timeout)
      then Transition(x, c, Configuration, failure) else c
    case TimeoutFailure => Transition(x, c, Timeout, ChannelFailure(DeadlineExpired))
    case _ => c
  }

  /** Registers the join operation for the fresh ref `c.joinRef`; `_join` until it suspends. */
  function SubmitJoin(x: Context, c: Channel, paramsOk: bool): Channel {
    if !paramsOk then JoinFailed(x, c, ChannelFailure(BadParams))
    else if c.connection.None? then c
    else c.(operations := c.operations[c.joinRef := Operation(JoinOperation, c.connection.value, c.joinRef, Pending, Scheduled)])
  }

  /** The part of `_join_channel` under the lock. */
  function Admit(x: Context, c: Channel): Channel {
    c.(state := Joining, generation := x.generation, connection := x.connection, joinRef := x.refs + 1,
       registered := true, processor := WaitingForMessage)
  }

  /** `_join_channel` until it suspends or hands over to the leave task. */
  function BeginJoin(x: Context, c: Channel, hookSync: bool, paramsOk: bool): Channel {
    if hookSync && paramsOk then SubmitJoin(x, Admit(x, c), true).(joiner := Some(x.refs + 1))
    else if hookSync then StartLeave(x, SubmitJoin(x, Admit(x, c), false))
    else StartLeave(x, Admit(x, c))
  }

  function WithoutJoiner(c: Channel): Channel {
    c.(joiner := None)
  }

  /** `_join_channel` resuming with its outcome. */
  function ResumeJoiner(x: Context, c: Channel, outcome: Future): Channel {
    if outcome.Failed? then StartLeave(x, JoinFailed(x, WithoutJoiner(c), outcome.failure)) else WithoutJoiner(c)
  }

  /** `_restart_topic` */
  function Restart(x: Context, c: Channel, generation: nat): Channel {
    c.(generation := generation, connection := x.connection, state := Rejoining, cause := None,
       joinSubmitted := false, terminal := false, restartRequested := false, joinRef := x.refs + 1,
       ready := Pending, mail := Drain(c.mail), processor := WaitingForMessage)
  }

  /** `_rejoin_topic` after the old processor stopped: `_restart_topic`, then `_join`. */
  function Rejoin(x: Context, c: Channel, generation: nat, paramsOk: bool): Channel {
    SubmitJoin(x, Restart(x, c, generation), paramsOk)
  }

  /** `_rejoin_topic` until it waits for the old processor. */
  function BeginRejoin(x: Context, c: Channel): Channel {
    if c.state == Joined then Transition(x, c, Transport, SocketFailure).(restartRequested := true)
    else c.(restartRequested := true)
  }

  // Leaving

  function BeginLeave(x: Context, c: Channel): Channel {
    if c.state == Created
    then c.(state := Left, cause := Some(Leave), leaveRequested := true, leftBy := Some((Leave, ChannelFailure(WasLeft))))
    else StartLeave(x, c)
  }

  function BeginCleanup(c: Channel): Channel {
    c.(leaver := CleaningUp, recoveryCancelled := c.recoveryCancelled || !c.recovery.NoRecovery?)
  }

  predicate SendsLeave(x: Context, c: Channel) {
    c.joinSubmitted && !c.terminal && c.connection == x.connection && IsConnected(x)
  }

  function WithLeaveRef(x: Context, c: Channel): Channel {
    c.(leaveRef := Some(x.refs + 1))
  }

  function SubmitLeave(x: Context, c: Channel, connection: ConnectionId): Channel {
    c.(leaveRef := Some(x.refs + 1), leaver := AwaitingLeave(x.refs + 1),
       operations := c.operations[x.refs + 1 := Operation(LeaveOperation, connection, c.joinRef, Pending, Scheduled)])
  }

  /** The first step of `_leave_and_cleanup`. */
  function RunLeave(x: Context, c: Channel): Channel {
    if SendsLeave(x, c) then
      if c.unsubscribed.Pending? then SubmitLeave(x, c, c.connection.value) else BeginCleanup(WithLeaveRef(x, c))
    else if c.connection != x.connection || x.connection.None? then BeginCleanup(Observe(c))
    else BeginCleanup(c)
  }

  function EndLeave(c: Channel): Channel {
    c.(processor := ProcessorEnded, cleanupDone := true, leaver := LeaverDone)
  }

  function FinishCleanup(x: Context, c: Channel): Channel {
    Release(x, EndLeave(c))
  }

  // Losing

  predicate Rejection(cause: Option<Cause>) {
    cause == Some(Rejected) || cause == Some(Configuration)
  }

  /** `_unregister_topic` until it waits for the leave task. */
  function Unregister(x: Context, c: Channel): Channel {
    if c.state == Left then StartLeave(x, c)
    else StartLeave(x, Transition(x, c, Close, ChannelFailure(ClosedByServer)))
  }

  function StartUnregister(x: Context, c: Channel): Channel {
    if !c.registered then c.(loss := LossDone) else Unregister(x, c).(loss := LossUnregistering)
  }

  function ReportLoss(c: Channel): Channel {
    if c.lossReported then c.(loss := LossDone)
    else c.(loss := LossDone, lossReported := true, lossReports := c.lossReports + 1)
  }

  // Delivery

  function SkipMessage(c: Channel, processor: Processor): Channel
    requires c.mail.queue != []
  {
    c.(mail := Skip(c.mail), processor := processor)
  }

  function DispatchMessage(c: Channel, processor: Processor): Channel
    requires c.mail.queue != []
  {
    c.(mail := Dispatch(c.mail, c.joinRef), processor := processor)
  }

  /** The processor's loop test. */
  function LoopTest(c: Channel): Processor {
    if c.state == Left then ProcessorEnded else WaitingForMessage
  }

  /** The processor's resumption with the next queued message. */
  function TakeMessage(x: Context, c: Channel, handled: bool): Channel
    requires c.mail.queue != []
  {
    if c.restartRequested then SkipMessage(c, ProcessorEnded)
    else if IsStaleJoin(x, c.mail.queue[0].joinRef, c.joinRef) || !ChannelJoined(x, c) then SkipMessage(c, LoopTest(c))
    else DispatchMessage(c, if handled then HandlingMessage else LoopTest(c))
  }
}
