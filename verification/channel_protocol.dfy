/**
 * All channels of one client run, with everything that works on them concurrently, as a state machine. A step is
 * one stretch of code between two awaits of one task; steps interleave freely. The server may
 * delay, duplicate and reorder what it sends, and answers only refs that reached its socket.
 */
module ChannelProtocol {
  import opened Wrappers
  import opened ClientStates
  import opened Channels

  /** Where the supervisor is in `_rejoin_topics`. */
  datatype Active = Between | Stopping(channel: nat) | Awaiting(channel: nat, ref: Ref) | Unregistering(channel: nat)

  datatype Pass = NoPass | Pass(required: set<nat>, optional: set<nat>, active: Active)

  /** What the pass is doing with one channel. */
  datatype Role = Uninvolved | Queued | Restarting | Rejoins(ref: Ref) | Removes

  datatype Answer = Answer(connection: ConnectionId, ref: Ref, body: Body)

  /** `owners[r - 1]` is the channel ref r was generated for, `wire` the operation frames handed
      to a socket, `cleaning` the connection whose `_cleanup_connection` has not ended. */
  datatype System = System(
    client: Context,
    channels: seq<Channel>,
    pass: Pass,
    cleaning: Option<Option<ConnectionId>>,
    sessions: map<nat, ConnectionId>,
    sockets: nat,
    owners: seq<nat>,
    wire: set<(ConnectionId, Ref)>,
    answers: set<Answer>)

  function Init(v2: bool, queueLimit: nat): System {
    System(Context(v2, queueLimit, Connecting, None, 0, false, false, false, 0),
           [], NoPass, None, map[], 0, [], {}, {})
  }

  function RoleOf(pass: Pass, i: nat): Role {
    if pass.NoPass? then Uninvolved
    else if pass.active.Stopping? && pass.active.channel == i then Restarting
    else if pass.active.Awaiting? && pass.active.channel == i then Rejoins(pass.active.ref)
    else if pass.active.Unregistering? && pass.active.channel == i then Removes
    else if i in pass.required || i in pass.optional then Queued
    else Uninvolved
  }

  datatype Action =
    | JoinCall(hookSync: bool, paramsOk: bool)
    | JoinerResumes
    | JoinerCancelled
    | LeaveCall
    | PushCall
    | PushReturns(ref: Ref)
    | PushCancelled(ref: Ref)
    | SendStarts(ref: Ref)
    | WriteCompletes(ref: Ref)
    | Receive(generation: nat, message: Message, hookOk: bool)
    | RecoveryWakes
    | RecoveryRestarts(paramsOk: bool)
    | RecoveryResumes
    | RecoveryCancelled
    | LossStarts
    | LossUnregistered
    | LossReported
    | LeaveStarts
    | LeaveAnswered
    | LeaveCleansUp
    | ProcessorTakes(handled: bool)
    | HandlersDone

  datatype Step =
    | Open(name: string, blocksReconnect: bool)
    | At(channel: nat, action: Action)
    | WriteLost(channel: nat, ref: Ref)
    | Expires(channel: nat, ref: Ref)
    | Answers(connection: ConnectionId, ref: Ref, body: Body)
    | PassNext(channel: nat)
    | PassRestarts(paramsOk: bool)
    | PassResumes
    | PassUnregistered
    | PassOptional
    | Adopt
    | AdoptRefused
    | AdoptWhileStopping
    | RoutingStops
    | CleanupBegins
    | CleanupEnds
    | RequestStop
    | SupervisorCancelled
    | SupervisorExits

  predicate OutcomeDone(c: Channel, r: Ref) {
    r in c.operations && !c.operations[r].outcome.Pending?
  }

  // Recovery

  /** `_recover_channel` after its attempt raised. */
  function RecoveryFailed(x: Context, c: Channel, generation: nat): Channel {
    if Rejection(c.cause) then StartLoss(x, c, ChannelFailure(JoinRefused)).(recovery := NoRecovery)
    else RecoveryLoops(x, c, generation)
  }

  function RecoveryLoops(x: Context, c: Channel, generation: nat): Channel {
    c.(recovery := if CanRecover(x, c, generation) then Backoff(generation) else NoRecovery)
  }

  function RecoveryStep(x: Context, c: Channel, a: Action): Channel
    requires a.RecoveryWakes? || a.RecoveryRestarts? || a.RecoveryResumes?
  {
    match c.recovery
    case Backoff(g) =>
      if CanRecover(x, c, g) then BeginRejoin(x, c).(recovery := StoppingProcessor(g)) else c.(recovery := NoRecovery)
    case StoppingProcessor(g) =>
      if !ShouldRejoin(c) then RecoveryLoops(x, c, g)
      else if a.RecoveryRestarts? && a.paramsOk && x.connection.Some?
      then Rejoin(x, c, g, true).(recovery := AwaitingRejoin(g, x.refs + 1))
      else RecoveryFailed(x, Rejoin(x, c, g, a.RecoveryRestarts? && a.paramsOk), g)
    case AwaitingRejoin(g, r) =>
      if r !in c.operations then c
      else match c.operations[r].outcome {
        case Pending => c
        case Succeeded => if c.ready.Succeeded? then c.(recovery := NoRecovery) else RecoveryLoops(x, c, g)
        case Failed(f) => RecoveryFailed(x, JoinFailed(x, c, f), g)
      }
    case NoRecovery => c
  }

  // Single-channel steps

  /** When an action can happen, given what the supervisor's pass does with the channel. A woken
      join waiter resumes before the same channel restarts: the event loop is first-in first-out. */
  predicate ActionEnabled(x: Context, role: Role, c: Channel, a: Action) {
    match a
    case JoinCall(_, _) => c.state == Created && IsConnected(x)
    case JoinerResumes => c.joiner.Some? && OutcomeDone(c, c.joiner.value)
    case JoinerCancelled => c.joiner.Some? && c.joiner.value in c.operations
    case LeaveCall => true
    case PushCall => ChannelJoined(x, c)
    case PushReturns(r) => OutcomeDone(c, r) && c.operations[r].kind == PushOperation
    case PushCancelled(r) => r in c.operations && c.operations[r].kind == PushOperation
    case SendStarts(r) => r in c.operations && c.operations[r].send == Scheduled
    case WriteCompletes(r) => r in c.operations && c.operations[r].send == Writing
    case Receive(g, _, _) => c.registered && (g == x.generation ==> x.routing)
    case RecoveryWakes => c.recovery.Backoff? && !c.recoveryCancelled
    case RecoveryRestarts(_) => c.recovery.StoppingProcessor? && !c.recoveryCancelled && c.joiner.None? && !role.Rejoins?
    case RecoveryResumes => c.recovery.AwaitingRejoin? && OutcomeDone(c, c.recovery.ref)
    case RecoveryCancelled => !c.recovery.NoRecovery? && c.recoveryCancelled
    case LossStarts => c.loss.LossScheduled?
    case LossUnregistered => c.loss.LossUnregistering? && c.leaver.LeaverDone?
    case LossReported => c.loss.LossReporting?
    case LeaveStarts => c.leaver.LeaveScheduled?
    case LeaveAnswered => c.leaver.AwaitingLeave? && OutcomeDone(c, c.leaver.ref)
    case LeaveCleansUp => c.leaver.CleaningUp? && c.recovery.NoRecovery? && !HasPendingSend(c.operations)
    case ProcessorTakes(_) => c.processor.WaitingForMessage? && c.mail.queue != []
    case HandlersDone => c.processor.HandlingMessage?
  }

  /** `_push_channel` until it suspends. */
  function SubmitPush(x: Context, c: Channel, connection: ConnectionId): Channel {
    c.(pushes := c.pushes + {x.refs + 1},
       operations := c.operations[x.refs + 1 := Operation(PushOperation, connection, c.joinRef, Pending, Scheduled)])
  }

  function Act(x: Context, c: Channel, a: Action): Channel {
    match a
    case JoinCall(hookSync, paramsOk) => BeginJoin(x, c, hookSync, paramsOk)
    case JoinerResumes =>
      if c.joiner.Some? && c.joiner.value in c.operations
      then ResumeJoiner(x, c, c.operations[c.joiner.value].outcome) else c
    case JoinerCancelled =>
      if c.joiner.Some?
      then StartLeave(x, Settle(WithoutJoiner(c), c.joiner.value, Failed(CallerCancelled))) else c
    case LeaveCall => BeginLeave(x, c)
    case PushCall =>
      if c.connection.Some? then SubmitPush(x, c, c.connection.value) else c
    case PushReturns(r) => c.(pushes := c.pushes - {r})
    case PushCancelled(r) => SettlePush(c, r, Failed(CallerCancelled))
    case SendStarts(r) => if r in c.operations then StartSend(x, c, r) else c
    case WriteCompletes(r) => if r in c.operations then FinishWrite(c, r, false) else c
    case Receive(g, m, hookOk) => Route(x, c, g, m, hookOk)
    case RecoveryWakes => RecoveryStep(x, c, a)
    case RecoveryRestarts(_) => RecoveryStep(x, c, a)
    case RecoveryResumes => RecoveryStep(x, c, a)
    case RecoveryCancelled =>
      (if c.recovery.AwaitingRejoin? then Settle(c, c.recovery.ref, Failed(CallerCancelled)) else c).(
        recovery := NoRecovery,
        abandoned := c.abandoned || (c.recovery.AwaitingRejoin? && Rejection(c.cause) && c.leaver.NoLeaver?))
    case LossStarts => StartUnregister(x, c)
    case LossUnregistered => c.(loss := LossReporting)
    case LossReported => ReportLoss(c)
    case LeaveStarts => RunLeave(x, c)
    case LeaveAnswered => BeginCleanup(c)
    case LeaveCleansUp => FinishCleanup(x, c)
    case ProcessorTakes(handled) => if c.mail.queue != [] then TakeMessage(x, c, handled) else c
    case HandlersDone => c.(processor := LoopTest(c))
  }

  /** Whether the action generates a ref. */
  predicate Generates(x: Context, c: Channel, a: Action) {
    match a
    case JoinCall(_, _) => true
    case PushCall => true
    case RecoveryRestarts(_) => ShouldRejoin(c)
    case LeaveStarts => SendsLeave(x, c)
    case _ => false
  }

  // The supervisor's pass

  /** `_handle_rejoin_failure`: the channel, and whether the pass now waits for its removal. */
  function RejoinFailure(x: Context, c: Channel): (Channel, bool) {
    if x.shutdown || x.state == ShuttingDown then (c, false)
    else if Rejection(c.cause) then
      if !c.registered then (c, false)
      else (Unregister(x, c), true)
    else (StartRecovery(x, c, None), false)
  }

  // Whole-client steps

  function Update(s: System, i: nat, c: Channel): System
    requires i < |s.channels|
  {
    s.(channels := s.channels[i := c])
  }

  function Generate(s: System, i: nat): System {
    s.(client := s.client.(refs := s.client.refs + 1), owners := s.owners + [i])
  }

  function Each(channels: seq<Channel>, f: Channel -> Channel): (r: seq<Channel>)
    ensures |r| == |channels|
    ensures forall i :: 0 <= i < |r| ==> r[i] == f(channels[i])
  {
    seq(|channels|, i requires 0 <= i < |channels| => f(channels[i]))
  }

  /** The context changes of `_fail_send_session`, `_cleanup_connection`, a new socket, adoption and `_request_stop`. */
  function SessionFailed(x: Context): Context {
    x.(sendFailed := true, state := if x.state == Connected then Reconnecting else x.state)
  }

  function Disconnecting(x: Context): Context {
    x.(connection := None, routing := false, sendFailed := false)
  }

  function Opened(x: Context, socket: ConnectionId): Context {
    x.(connection := Some(socket), generation := x.generation + 1)
  }

  function Adopted(x: Context, socket: ConnectionId): Context {
    x.(connection := Some(socket), generation := x.generation + 1, state := Connected, routing := true, sendFailed := false)
  }

  function StopRequested(x: Context): Context {
    x.(state := if x.state == Closed then Closed else ShuttingDown, shutdown := true)
  }

  /** `_fail_send_session` on the current session, at most once. */
  function FailSession(s: System): System {
    if s.client.sendFailed then s
    else s.(client := SessionFailed(s.client), channels := Each(s.channels, c => FailPending(s.client, c)))
  }

  predicate NameTaken(s: System, name: string) {
    exists j :: 0 <= j < |s.channels| && s.channels[j].registered && s.channels[j].name == name
  }

  predicate Enabled(s: System, e: Step) {
    var x := s.client;
    match e
    case Open(_, _) => true
    case At(i, a) =>
      && i < |s.channels|
      && ActionEnabled(x, RoleOf(s.pass, i), s.channels[i], a)
      && (a.JoinCall? ==> !NameTaken(s, s.channels[i].name))
      && (a.Receive? ==> a.generation in s.sessions)
      && (a.Receive? && a.message.event.ReplyEvent? && a.message.ref.Some? ==>
            Answer(s.sessions[a.generation], a.message.ref.value, a.message.event.body) in s.answers)
    case WriteLost(i, r) =>
      i < |s.channels| && r in s.channels[i].operations && s.channels[i].operations[r].send == Writing
    case Expires(i, r) =>
      && i < |s.channels| && r in s.channels[i].operations
      && x.connection == Some(s.channels[i].operations[r].connection)
    case Answers(k, r, _) => (k, r) in s.wire
    case PassNext(i) => s.pass.Pass? && s.pass.active.Between? && i in s.pass.required && i < |s.channels|
    case PassRestarts(_) =>
      && s.pass.Pass? && s.pass.active.Stopping? && s.pass.active.channel < |s.channels|
      && s.channels[s.pass.active.channel].joiner.None?
    case PassResumes =>
      && s.pass.Pass? && s.pass.active.Awaiting? && s.pass.active.channel < |s.channels|
      && OutcomeDone(s.channels[s.pass.active.channel], s.pass.active.ref)
    case PassUnregistered =>
      && s.pass.Pass? && s.pass.active.Unregistering? && s.pass.active.channel < |s.channels|
      && s.channels[s.pass.active.channel].leaver.LeaverDone?
    case PassOptional => s.pass.Pass? && s.pass.active.Between? && s.pass.required == {}
    case Adopt => Disconnected(s) && !x.shutdown
    case AdoptRefused => Disconnected(s) && !x.shutdown
    case AdoptWhileStopping => x.connection.None? && s.pass.NoPass? && s.cleaning.None? && x.shutdown
    case RoutingStops => x.connection.Some? && x.routing
    case CleanupBegins => s.pass.NoPass? && s.cleaning.None? && (x.shutdown || (x.connection.Some? && !x.routing))
    case CleanupEnds =>
      && s.cleaning.Some?
      && forall i :: 0 <= i < |s.channels| ==> CleanedUp(x, s.cleaning.value, s.channels[i])
    case RequestStop => !x.shutdown
    case SupervisorCancelled => x.shutdown
    case SupervisorExits => x.connection.None? && s.pass.NoPass? && s.cleaning.None? && x.state != ShuttingDown
  }

  /** The supervisor is about to connect: nothing of the previous connection is left running. */
  predicate Disconnected(s: System) {
    && s.client.connection.None? && s.pass.NoPass? && s.cleaning.None?
    && (s.client.state == Connecting || s.client.state == Connected || s.client.state == Reconnecting)
  }

  /** What `_cleanup_connection` waits for: cancelled recoveries and the session's writes. */
  predicate CleanedUp(x: Context, closed: Option<ConnectionId>, c: Channel) {
    && (c.registered && !x.shutdown ==> c.recovery.NoRecovery?)
    && (forall r :: r in c.operations && Some(c.operations[r].connection) == closed ==> c.operations[r].send.Finished?)
  }

  /** The end of `_cleanup_connection` on one registered channel. */
  function EndCleanup(x: Context, closed: Option<ConnectionId>, c: Channel): Channel {
    if !c.registered || c.connection != closed then c
    else if c.state == Left then Release(x, Observe(c)) else Observe(c)
  }

  /** The synchronous start of `_cleanup_connection` on one channel. */
  function BeginDisconnect(x: Context, c: Channel): Channel {
    if c.registered && !c.recovery.NoRecovery? then FailPending(x, c).(recoveryCancelled := true) else FailPending(x, c)
  }

  function BeginCleanupOf(s: System, closed: Option<ConnectionId>): System {
    s.(client := Disconnecting(s.client),
       channels := Each(s.channels, c => BeginDisconnect(s.client, c)),
       cleaning := Some(closed))
  }

  function Next(s: System, e: Step): System
    requires Enabled(s, e)
  {
    var x := s.client;
    match e
    case Open(name, blocks) => s.(channels := s.channels + [NewChannel(name, blocks)])
    case At(i, a) =>
      var c := s.channels[i];
      var t := Update(s, i, Act(x, c, a));
      if a.SendStarts? && Submits(x, c, a.ref) then t.(wire := s.wire + {(c.operations[a.ref].connection, a.ref)})
      else if Generates(x, c, a) then Generate(t, i) else t
    case WriteLost(i, r) =>
      var c := s.channels[i];
      var t := Update(s, i, FinishWrite(c, r, true));
      if x.connection == Some(c.operations[r].connection) then FailSession(t) else t
    case Expires(i, r) =>
      var c := s.channels[i];
      var t := Update(s, i, Settle(c, r, Failed(TimeoutError(c.operations[r].kind))));
      if c.operations[r].send == Writing then FailSession(t) else t
    case Answers(k, r, body) => s.(answers := s.answers + {Answer(k, r, body)})
    case PassNext(i) =>
      var pass := s.pass.(required := s.pass.required - {i});
      if !ShouldRejoin(s.channels[i]) then s.(pass := pass)
      else Update(s, i, BeginRejoin(x, s.channels[i])).(pass := pass.(active := Stopping(i)))
    case PassRestarts(paramsOk) =>
      var i := s.pass.active.channel;
      var c := s.channels[i];
      if !ShouldRejoin(c) then s.(pass := s.pass.(active := Between))
      else
        var c := Rejoin(x, c, x.generation, paramsOk);
        if paramsOk && x.connection.Some?
        then Generate(Update(s, i, c), i).(pass := s.pass.(active := Awaiting(i, c.joinRef)))
        else
          var (d, removing) := RejoinFailure(x, c);
          Generate(Update(s, i, d), i).(pass := s.pass.(active := if removing then Unregistering(i) else Between))
    case PassResumes =>
      var i := s.pass.active.channel;
      var c := s.channels[i];
      var outcome := c.operations[s.pass.active.ref].outcome;
      if outcome.Succeeded? then s.(pass := s.pass.(active := Between))
      else
        var (d, removing) := RejoinFailure(x, JoinFailed(x, c, outcome.failure));
        Update(s, i, d).(pass := s.pass.(active := if removing then Unregistering(i) else Between))
    case PassUnregistered =>
      var i := s.pass.active.channel;
      Update(s, i, s.channels[i].(loss := LossReporting)).(pass := s.pass.(active := Between))
    case PassOptional =>
      s.(pass := NoPass,
         channels := seq(|s.channels|, i requires 0 <= i < |s.channels| =>
           if i in s.pass.optional then StartRecovery(x, s.channels[i], Some(x.generation)) else s.channels[i]))
    case Adopt =>
      s.(client := Adopted(x, s.sockets),
         sockets := s.sockets + 1,
         sessions := s.sessions[x.generation + 1 := s.sockets],
         pass := Pass(Registered(s, true), Registered(s, false), Between))
    case AdoptRefused =>
      BeginCleanupOf(s.(client := Opened(x, s.sockets), sockets := s.sockets + 1), Some(s.sockets))
    case AdoptWhileStopping =>
      s.(client := x.(connection := Some(s.sockets)), sockets := s.sockets + 1)
    case RoutingStops =>
      s.(client := x.(routing := false), channels := Each(s.channels, c => FailPending(x, c)))
    case CleanupBegins => BeginCleanupOf(s, x.connection)
    case CleanupEnds =>
      s.(cleaning := None, channels := Each(s.channels, c => EndCleanup(x, s.cleaning.value, c)))
    case RequestStop =>
      s.(client := StopRequested(x),
         channels := Each(s.channels, c => Retire(StopRequested(x), c, ChannelFailure(StoppingClient))))
    case SupervisorCancelled => s.(pass := NoPass)
    case SupervisorExits =>
      s.(client := x.(state := Closed), channels := Each(s.channels, c => Retire(x, c, SocketFailure)))
  }

  function Registered(s: System, blocksReconnect: bool): set<nat> {
    set i: nat | i < |s.channels| && s.channels[i].registered && s.channels[i].blocksReconnect == blocksReconnect
  }

  /** The state after a run, or None if a step was not possible. */
  function Run(v2: bool, queueLimit: nat, steps: seq<Step>): Option<System> {
    if steps == [] then Some(Init(v2, queueLimit))
    else
      var before := Run(v2, queueLimit, steps[..|steps| - 1]);
      if before.Some? && Enabled(before.value, steps[|steps| - 1])
      then Some(Next(before.value, steps[|steps| - 1])) else None
  }
}
