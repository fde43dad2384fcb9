/**
 * What the code between two awaits has to do: for every channel that satisfies the invariant, the effect of a frame,
 * a call and a task's resumption, in terms of the record's fields.
 */
module ChannelEffects {
  import opened Wrappers
  import opened ClientStates
  import opened Channels
  import opened Mailboxes
  import opened ChannelProtocol
  import opened ChannelInvariant
  import opened ChannelHandlers
  import opened ChannelSteps
  import opened ChannelAttended

  /** The channel moved to a state for this reason; its current join, if any, failed with it. */
  predicate MovedTo(c: Channel, d: Channel, state: ChannelState, cause: Cause, failure: Failure) {
    && d.state == state && d.cause == Some(cause) && d.ready == Failed(failure)
    && (state == Left ==> d.leftBy == Some((cause, failure)))
    && d.joinRef == c.joinRef && d.registered == c.registered && d.established == c.established
    && d.connection == c.connection && d.joiner == c.joiner
  }

  lemma TransitionMoves(x: Context, c: Channel, cause: Cause, failure: Failure)
    requires c.leftBy.None?
    ensures
      var recovers := c.established && Recoverable(cause) && !c.leaveRequested && !x.shutdown;
      MovedTo(c, Transition(x, c, cause, failure), if recovers then Rejoining else Left, cause, failure)
  {
    hide Transition;
    TransitionFrame(x, c, cause, failure);
  }

  lemma TransitionTerminal(x: Context, c: Channel, cause: Cause, failure: Failure)
    ensures
      var d := Transition(x, c, cause, failure);
      d.terminal == c.terminal && d.installed == c.installed && d.leaveRequested == (c.leaveRequested || d.state == Left)
  {
    hide SettleOutcome, FailOutcomes;
  }

  // Server frames

  /** The frame is for the channel's current membership on the client's connection. */
  predicate Hears(x: Context, c: Channel, g: nat, m: Message) {
    && x.state == Connected && x.connection.Some? && c.connection == x.connection && c.generation == g == x.generation
    && (x.v2 && m.joinRef.Some? ==> m.joinRef.value == c.joinRef)
  }

  /** The reply names no leave, join or pending push of the channel. */
  predicate Unmatched(c: Channel, ref: Option<Ref>) {
    ref.Some? ==> ref != c.leaveRef && ref.value != c.joinRef && ref.value !in c.pushes
  }

  /** The mailbox after a message was accepted under join_ref `epoch`: a full queue loses its oldest. */
  function Accepting(m: Mailbox, epoch: Ref, carried: Option<Ref>, limit: nat): Mailbox {
    var item := Item(|m.log|, carried);
    if |m.queue| >= limit && m.queue != []
    then m.(log := m.log + [epoch], queue := m.queue[1..] + [item], dropped := m.dropped + 1)
    else m.(log := m.log + [epoch], queue := m.queue + [item])
  }

  predicate LifecycleEffect(x: Context, c: Channel, m: Message, d: Channel) {
    if m.ref.Some? && m.ref.value != c.joinRef then d == c
    else
      && d.terminal
      && if c.state == Left then d.state == Left && (d.registered <==> !c.cleanupDone)
         else if m.event.ErrorEvent? then
           && MovedTo(c, d, if c.established then Rejoining else Left, Crash, ChannelFailure(Crashed))
           && d.recovery == (if c.established && c.recovery.NoRecovery? then Backoff(x.generation) else c.recovery)
         else
           && MovedTo(c, d, Left, Close, ChannelFailure(ClosedByServer))
           && d.loss == (if c.established then LossScheduled else c.loss)
  }

  predicate JoinReplyEffect(c: Channel, body: Body, hookOk: bool, d: Channel) {
    if !c.ready.Pending? then
      if c.state == Left && body.isMap && body.status == StatusError
      then d.terminal && d.state == Left && (d.registered <==> !c.cleanupDone)
      else d == c
    else if !body.isMap then MovedTo(c, d, Left, Rejected, ChannelFailure(JoinRefused)) && d.terminal == c.terminal
    else if body.status != StatusOk then MovedTo(c, d, Left, Rejected, ChannelFailure(JoinRefused)) && d.terminal
    else
      && d.installed == c.installed + [c.joinRef]
      && if hookOk
         then
           && d.state == Joined && d.established && d.ready == Succeeded && d.joinRef == c.joinRef && d.registered
           && d.joinRef in d.operations && d.operations[d.joinRef].outcome == Succeeded
         else MovedTo(c, d, Left, Configuration, ChannelFailure(HookFailed))
  }

  predicate LeaveReplyEffect(c: Channel, r: Ref, body: Body, d: Channel) {
    var answer := if body.isMap && body.status == StatusOk then Succeeded else Failed(ChannelFailure(LeaveRefused));
    if !c.unsubscribed.Pending? then d == c
    else d.unsubscribed == answer && (IsPending(c.operations, r) ==> r in d.operations && d.operations[r].outcome == answer)
  }

  predicate PushReplyEffect(c: Channel, r: Ref, body: Body, d: Channel) {
    && d.pushes == c.pushes - {r}
    && (IsPending(c.operations, r) ==>
          && r in d.operations
          && d.operations[r].outcome == if body.wellFormed then Succeeded else Failed(ChannelFailure(MalformedReply)))
  }

  predicate FrameEffect(x: Context, c: Channel, g: nat, m: Message, hookOk: bool, d: Channel) {
    if !Hears(x, c, g, m) then d == c
    else match m.event
      case ErrorEvent => LifecycleEffect(x, c, m, d)
      case CloseEvent => LifecycleEffect(x, c, m, d)
      case ApplicationEvent => d == if c.state == Joined then c.(mail := Accepting(c.mail, c.joinRef, m.joinRef, x.queueLimit)) else c
      case ReplyEvent(body) =>
        if Unmatched(c, m.ref) then
          d == if c.state == Joined then c.(mail := Accepting(c.mail, c.joinRef, m.joinRef, x.queueLimit)) else c
        else if m.ref == c.leaveRef then LeaveReplyEffect(c, m.ref.value, body, d)
        else if m.ref.value == c.joinRef then JoinReplyEffect(c, body, hookOk, d)
        else PushReplyEffect(c, m.ref.value, body, d)
  }

  /** What the invariant says of a channel that hears a frame. */
  lemma HearingFacts(x: Context, cleaning: Cleaning, role: Role, c: Channel)
    requires Sound(x, cleaning, role, c) && c.registered
    ensures c.connection.Some? && (c.state == Joined ==> c.leaveRef.None? && c.leaver.NoLeaver?)
    ensures c.state != Left <==> c.leftBy.None?
    ensures c.state == Left <==> c.leaveRequested
    ensures c.state != Created && (c.state != Left ==> !x.shutdown)
    ensures c.ready.Pending? ==> c.state != Left && c.joinRef in c.operations && c.operations[c.joinRef].outcome.Pending?
    ensures c.cleanupDone ==> !HasPendingSend(c.operations) && !c.leaver.NoLeaver?
  {
    hide MailOk;
  }

  lemma FreedByTerminal(x: Context, c: Channel)
    requires c.registered && c.state == Left && c.connection == x.connection && (c.cleanupDone ==> !HasPendingSend(c.operations))
    ensures
      var d := Release(x, Observe(c));
      d.terminal && d.state == Left && (d.registered <==> !c.cleanupDone)
  {
    hide HasPendingSend;
  }

  lemma CrashedRecovers(x: Context, c: Channel)
    requires !x.shutdown && c.registered && c.established && !c.leaveRequested && c.state == Rejoining
    requires x.state == Connected && x.connection.Some? && c.generation == x.generation
    ensures StartRecovery(x, c, None) == if c.recovery.NoRecovery? then c.(recovery := Backoff(x.generation), recoveryCancelled := false) else c
  {
  }

  lemma ClosedIsLost(x: Context, c: Channel)
    requires c.state == Left && c.established
    ensures StartLoss(x, c, ChannelFailure(ClosedByServer)) == c.(loss := LossScheduled)
  {
    hide StartLeave, Transition;
  }

  lemma RecoveringMoved(c: Channel, d: Channel, state: ChannelState, cause: Cause, failure: Failure, g: nat)
    requires MovedTo(c, d, state, cause, failure)
    ensures MovedTo(c, d.(recovery := Backoff(g), recoveryCancelled := false), state, cause, failure)
  {
  }

  lemma LosingMoved(c: Channel, d: Channel, state: ChannelState, cause: Cause, failure: Failure)
    requires MovedTo(c, d, state, cause, failure)
    ensures MovedTo(c, d.(loss := LossScheduled), state, cause, failure)
  {
  }

  lemma ObservedMoves(c: Channel, d: Channel, state: ChannelState, cause: Cause, failure: Failure)
    requires MovedTo(Observe(c), d, state, cause, failure)
    ensures MovedTo(c, d, state, cause, failure)
  {
  }

  lemma ObservedFields(c: Channel)
    ensures
      var d := Observe(c);
      && d.terminal && d.state == c.state && d.leftBy == c.leftBy && d.established == c.established && d.leaveRequested == c.leaveRequested
      && d.recovery == c.recovery && d.loss == c.loss && d.registered == c.registered && d.generation == c.generation
      && d.connection == c.connection
  {
  }

  lemma LifecycleTakesEffect(x: Context, cleaning: Cleaning, role: Role, c: Channel, m: Message)
    requires Sound(x, cleaning, role, c) && c.registered && (m.event.ErrorEvent? || m.event.CloseEvent?)
    requires x.state == Connected && x.connection.Some? && c.connection == x.connection && c.generation == x.generation
    ensures LifecycleEffect(x, c, m, HandleLifecycle(x, c, m))
  {
    hide Sound, Transition, StartRecovery, StartLoss, Release, Observe, MovedTo;
    HearingFacts(x, cleaning, role, c);
    ObservedFields(c);
    if m.ref.Some? && m.ref.value != c.joinRef {
    } else if c.state == Left {
      FreedByTerminal(x, c);
    } else {
      var d := Observe(c);
      var cause := if m.event.ErrorEvent? then Crash else Close;
      var failure := ChannelFailure(if m.event.ErrorEvent? then Crashed else ClosedByServer);
      var t := Transition(x, d, cause, failure);
      TransitionFrame(x, d, cause, failure);
      TransitionMoves(x, d, cause, failure);
      TransitionTerminal(x, d, cause, failure);
      ObservedMoves(c, t, t.state, cause, failure);
      RecoveringMoved(c, t, t.state, cause, failure, x.generation);
      LosingMoved(c, t, t.state, cause, failure);
      if c.established {
        if m.event.ErrorEvent? {
          CrashedRecovers(x, t);
        } else {
          ClosedIsLost(x, t);
        }
      }
    }
  }

  lemma AcceptedFields(c: Channel)
    requires !c.leaveRequested && c.state != Left && c.ready.Pending? && IsPending(c.operations, c.joinRef)
    ensures
      var d := Accept(Install(c));
      && d.state == Joined && d.established && d.ready == Succeeded && d.joinRef == c.joinRef && d.registered == c.registered
      && d.joinRef in d.operations && d.operations[d.joinRef].outcome == Succeeded && d.installed == c.installed + [c.joinRef]
  {
  }

  lemma InstalledMoves(x: Context, c: Channel)
    requires c.leftBy.None?
    ensures
      var d := Transition(x, Install(c), Configuration, ChannelFailure(HookFailed));
      MovedTo(c, d, Left, Configuration, ChannelFailure(HookFailed)) && d.installed == c.installed + [c.joinRef]
  {
    hide Transition;
    TransitionMoves(x, Install(c), Configuration, ChannelFailure(HookFailed));
    TransitionTerminal(x, Install(c), Configuration, ChannelFailure(HookFailed));
  }

  lemma JoinReplyTakesEffect(x: Context, cleaning: Cleaning, role: Role, c: Channel, body: Body, hookOk: bool)
    requires Sound(x, cleaning, role, c) && c.registered && c.connection == x.connection
    ensures JoinReplyEffect(c, body, hookOk, HandleJoinReply(x, c, body, hookOk))
  {
    hide Sound, Transition, Release, Observe, Accept, Install, MovedTo;
    HearingFacts(x, cleaning, role, c);
    ObservedFields(c);
    var failure := ChannelFailure(JoinRefused);
    if !c.ready.Pending? {
      if c.state == Left {
        FreedByTerminal(x, c);
      }
    } else if !body.isMap {
      TransitionMoves(x, c, Rejected, failure);
      TransitionTerminal(x, c, Rejected, failure);
    } else if body.status != StatusOk {
      TransitionMoves(x, Observe(c), Rejected, failure);
      TransitionTerminal(x, Observe(c), Rejected, failure);
      ObservedMoves(c, Transition(x, Observe(c), Rejected, failure), Left, Rejected, failure);
    } else if hookOk {
      AcceptedFields(c);
    } else {
      InstalledMoves(x, c);
    }
  }

  lemma LeaveReplyTakesEffect(c: Channel, r: Ref, body: Body)
    requires c.leaveRef == Some(r)
    ensures LeaveReplyEffect(c, r, body, HandleLeaveReply(c, body))
  {
  }

  lemma PushReplyTakesEffect(c: Channel, r: Ref, body: Body)
    ensures PushReplyEffect(c, r, body, ResolvePush(c, r, body))
  {
  }

  lemma AcceptingIsEnqueue(m: Mailbox, epoch: Ref, carried: Option<Ref>, limit: nat)
    ensures Enqueue(m, epoch, carried, limit) == Accepting(m, epoch, carried, limit)
  {
  }

  lemma UnheardIsIgnored(x: Context, cleaning: Cleaning, role: Role, c: Channel, g: nat, m: Message, hookOk: bool)
    requires Sound(x, cleaning, role, c) && c.registered && !Hears(x, c, g, m)
    ensures Route(x, c, g, m, hookOk) == c
  {
    hide Sound, HandleLifecycle, HandleJoinReply, HandleLeaveReply, ResolvePush, Keep;
    HearingFacts(x, cleaning, role, c);
  }

  /** The channel's frames are handled by the branch their event and ref name. */
  lemma HeardIs(x: Context, cleaning: Cleaning, role: Role, c: Channel, g: nat, m: Message, hookOk: bool)
    requires Sound(x, cleaning, role, c) && c.registered && Hears(x, c, g, m)
    ensures Route(x, c, g, m, hookOk) ==
      match m.event
      case ErrorEvent => HandleLifecycle(x, c, m)
      case CloseEvent => HandleLifecycle(x, c, m)
      case ApplicationEvent => if c.state == Joined then Keep(x, c, m) else c
      case ReplyEvent(body) =>
        if Unmatched(c, m.ref) then if c.state == Joined then Keep(x, c, m) else c
        else if m.ref == c.leaveRef then HandleLeaveReply(c, body)
        else if m.ref.value == c.joinRef then HandleJoinReply(x, c, body, hookOk)
        else ResolvePush(c, m.ref.value, body)
  {
    hide Sound, HandleLifecycle, HandleJoinReply, HandleLeaveReply, ResolvePush, Keep;
    HearingFacts(x, cleaning, role, c);
  }

  /** Every frame has the effect its event and ref call for. */
  lemma FrameTakesEffect(x: Context, cleaning: Cleaning, role: Role, c: Channel, g: nat, m: Message, hookOk: bool)
    requires Sound(x, cleaning, role, c) && c.registered
    ensures FrameEffect(x, c, g, m, hookOk, Route(x, c, g, m, hookOk))
  {
    hide Sound, Route, HandleLifecycle, HandleJoinReply, HandleLeaveReply, ResolvePush, Accepting, Enqueue, LifecycleEffect, JoinReplyEffect,
      LeaveReplyEffect, PushReplyEffect;
    if !Hears(x, c, g, m) {
      UnheardIsIgnored(x, cleaning, role, c, g, m, hookOk);
    } else {
      HeardIs(x, cleaning, role, c, g, m, hookOk);
      AcceptingIsEnqueue(c.mail, c.joinRef, m.joinRef, x.queueLimit);
      match m.event
      case ErrorEvent => LifecycleTakesEffect(x, cleaning, role, c, m);
      case CloseEvent => LifecycleTakesEffect(x, cleaning, role, c, m);
      case ApplicationEvent =>
      case ReplyEvent(body) =>
        if !Unmatched(c, m.ref) {
          if m.ref == c.leaveRef {
            LeaveReplyTakesEffect(c, m.ref.value, body);
          } else if m.ref.value == c.joinRef {
            JoinReplyTakesEffect(x, cleaning, role, c, body, hookOk);
          } else {
            PushReplyTakesEffect(c, m.ref.value, body);
          }
        }
    }
  }

  // Delivery

  /** The next queued message is taken: handed to the handlers exactly if the channel is JOINED, no restart was requested
      and the message is not stale. */
  predicate TakingEffect(x: Context, c: Channel, d: Channel)
    requires c.mail.queue != []
  {
    var m, item := c.mail, c.mail.queue[0];
    var delivered := c.state == Joined && !c.restartRequested && (x.v2 && item.joinRef.Some? ==> item.joinRef.value == c.joinRef);
    d.mail == m.(
      queue := m.queue[1..], taken := m.taken + 1,
      dispatched := if delivered then m.dispatched + [item.index] else m.dispatched,
      epochs := if delivered then m.epochs + [c.joinRef] else m.epochs)
    && (c.restartRequested ==> d.processor == ProcessorEnded)
    && (!c.restartRequested && c.state == Left ==> d.processor == ProcessorEnded)
    && (!c.restartRequested && c.state != Left && !delivered ==> d.processor == WaitingForMessage)
    && d.state == c.state
  }

  lemma JoinedIsOpen(x: Context, cleaning: Cleaning, role: Role, c: Channel)
    requires Sound(x, cleaning, role, c)
    ensures ChannelJoined(x, c) <==> c.state == Joined
  {
    hide MailOk, LossOk, ReservationOk, TasksOk;
  }

  lemma SkippedFields(c: Channel, processor: Processor)
    requires c.mail.queue != []
    ensures
      var d := SkipMessage(c, processor);
      d.mail == Skip(c.mail) && d.processor == processor && d.state == c.state
  {
    hide Skip;
  }

  lemma DispatchedFields(c: Channel, processor: Processor)
    requires c.mail.queue != []
    ensures
      var d := DispatchMessage(c, processor);
      d.mail == Dispatch(c.mail, c.joinRef) && d.processor == processor && d.state == c.state
  {
    hide Dispatch;
  }

  lemma TakenIs(x: Context, c: Channel, handled: bool)
    requires c.mail.queue != []
    ensures
      var d := TakeMessage(x, c, handled);
      var stale := IsStaleJoin(x, c.mail.queue[0].joinRef, c.joinRef) || !ChannelJoined(x, c);
      && d.state == c.state
      && d.mail == (if c.restartRequested || stale then Skip(c.mail) else Dispatch(c.mail, c.joinRef))
      && (c.restartRequested ==> d.processor == ProcessorEnded)
      && (!c.restartRequested && stale ==> d.processor == LoopTest(c))
  {
    hide Skip, Dispatch, IsStaleJoin, ChannelJoined, LoopTest, SkipMessage, DispatchMessage;
    SkippedFields(c, ProcessorEnded);
    SkippedFields(c, LoopTest(c));
    DispatchedFields(c, if handled then HandlingMessage else LoopTest(c));
  }

  lemma TakingTakesEffect(x: Context, cleaning: Cleaning, role: Role, c: Channel, handled: bool)
    requires Sound(x, cleaning, role, c) && c.mail.queue != []
    ensures TakingEffect(x, c, TakeMessage(x, c, handled))
  {
    hide Sound, ChannelJoined, TakeMessage;
    JoinedIsOpen(x, cleaning, role, c);
    TakenIs(x, c, handled);
  }

  // Calls of the application

  /** The leave task exists; a live channel leaves for this reason. */
  predicate Leaves(c: Channel, d: Channel, cause: Cause, failure: Failure) {
    && d.state == Left
    && d.leaver == (if c.leaver.NoLeaver? then LeaveScheduled else c.leaver)
    && d.leftBy == (if c.leftBy.None? then Some((cause, failure)) else c.leftBy)
  }

  lemma StartLeaveLeaves(x: Context, c: Channel)
    requires (c.state == Left <==> c.leftBy.Some?) && (!c.leaver.NoLeaver? ==> c.state == Left)
    ensures Leaves(c, StartLeave(x, c), Leave, ChannelFailure(WasLeft))
    ensures StartLeave(x, c).joiner == c.joiner && StartLeave(x, c).registered == c.registered
  {
    hide Transition;
    if c.leaver.NoLeaver? && c.state != Left {
      TransitionFrame(x, c, Leave, ChannelFailure(WasLeft));
    }
  }

  function Fresh(x: Context, kind: OperationKind, connection: ConnectionId, epoch: Ref): Operation {
    Operation(kind, connection, epoch, Pending, Scheduled)
  }

  /** The channel awaits the join r, whose write task is about to start on the client's connection. */
  predicate AwaitsJoin(x: Context, d: Channel, r: Ref) {
    && d.joinRef == r && d.generation == x.generation && d.connection == x.connection && x.connection.Some?
    && d.ready.Pending? && !d.joinSubmitted && d.registered && d.leaver.NoLeaver?
    && r in d.operations && d.operations[r] == Fresh(x, JoinOperation, x.connection.value, r)
    && d.processor == WaitingForMessage && d.mail.queue == []
  }

  predicate JoinCallEffect(x: Context, d: Channel, hookSync: bool, paramsOk: bool) {
    if hookSync && paramsOk then d.state == Joining && AwaitsJoin(x, d, x.refs + 1) && d.joiner == Some(x.refs + 1)
    else
      && d.state == Left && d.leaver.LeaveScheduled? && d.registered && d.joiner.None?
      && d.leftBy == Some(if hookSync then (Configuration, ChannelFailure(BadParams)) else (Leave, ChannelFailure(WasLeft)))
  }

  predicate JoinerEffect(c: Channel, outcome: Future, d: Channel) {
    && d.joiner.None?
    && match outcome
       case Succeeded => d.state == c.state && d.leaver == c.leaver
       case Failed(ChannelFailure(reason)) =>
         if c.cause.None? || c.cause == Some(Accepted) || c.cause == Some(Timeout)
         then Leaves(c, d, Configuration, ChannelFailure(reason)) else Leaves(c, d, Leave, ChannelFailure(WasLeft))
       case Failed(TimeoutFailure) => Leaves(c, d, Timeout, ChannelFailure(DeadlineExpired))
       case Failed(_) => Leaves(c, d, Leave, ChannelFailure(WasLeft))
       case Pending => false
  }

  predicate PushCallEffect(x: Context, c: Channel, d: Channel) {
    && x.connection.Some? && x.refs + 1 in d.pushes && x.refs + 1 in d.operations
    && d.operations[x.refs + 1] == Fresh(x, PushOperation, x.connection.value, c.joinRef)
  }

  predicate CallEffect(x: Context, c: Channel, a: Action, d: Channel) {
    match a
    case JoinCall(hookSync, paramsOk) => JoinCallEffect(x, d, hookSync, paramsOk)
    case JoinerResumes => c.joiner.Some? && c.joiner.value in c.operations && JoinerEffect(c, c.operations[c.joiner.value].outcome, d)
    case JoinerCancelled =>
      c.joiner.Some? && d.joiner.None? && Leaves(c, d, Leave, ChannelFailure(WasLeft)) && !IsPending(d.operations, c.joiner.value)
    case LeaveCall =>
      if c.state == Created then d.state == Left && !d.registered && d.leaver.NoLeaver? && d.leftBy == Some((Leave, ChannelFailure(WasLeft)))
      else Leaves(c, d, Leave, ChannelFailure(WasLeft)) && d.registered == c.registered
    case PushCall => PushCallEffect(x, c, d)
    case PushReturns(r) => d.pushes == c.pushes - {r} && d.operations == c.operations
    case PushCancelled(r) =>
      d.pushes == c.pushes - {r}
      && (IsPending(c.operations, r) ==> r in d.operations && d.operations[r].outcome == Failed(CallerCancelled))
    case _ => true
  }

  lemma NewFacts(x: Context, cleaning: Cleaning, role: Role, c: Channel)
    requires Sound(x, cleaning, role, c) && c.state == Created
    ensures c == NewChannel(c.name, c.blocksReconnect)
  {
    hide OperationsOk, PlaceOk, TasksOk, ReservationOk, LossOk, MailOk;
  }

  lemma AdmittedFields(x: Context, c: Channel)
    requires c == NewChannel(c.name, c.blocksReconnect)
    ensures
      var d := Admit(x, c);
      && d.state == Joining && d.generation == x.generation && d.connection == x.connection && d.joinRef == x.refs + 1 && d.registered
      && d.processor == WaitingForMessage && d.ready.Pending? && !d.joinSubmitted && d.leaver.NoLeaver? && d.mail == EmptyMailbox()
      && d.leftBy.None? && d.cause.None? && d.joiner.None? && !d.established && !d.leaveRequested
  {
  }

  lemma SubmittedAwaits(x: Context, c: Channel, r: Ref, joiner: Option<Ref>)
    requires c.joinRef == r && c.generation == x.generation && c.connection == x.connection && x.connection.Some?
    requires c.ready.Pending? && !c.joinSubmitted && c.registered && c.leaver.NoLeaver?
    requires c.processor == WaitingForMessage && c.mail.queue == []
    ensures
      var d := SubmitJoin(x, c, true).(joiner := joiner);
      AwaitsJoin(x, d, r) && d.state == c.state && d.joiner == joiner
  {
    hide JoinFailed;
  }

  lemma RefusedParams(x: Context, c: Channel)
    requires c.cause.None? && c.leftBy.None? && !c.established && !c.leaveRequested && c.leaver.NoLeaver?
    ensures
      var d := SubmitJoin(x, c, false);
      && d.state == Left && d.leftBy == Some((Configuration, ChannelFailure(BadParams))) && d.leaver.NoLeaver?
      && d.registered == c.registered && d.joiner == c.joiner
  {
    hide Transition;
    TransitionFrame(x, c, Configuration, ChannelFailure(BadParams));
  }

  lemma JoinCallTakesEffect(x: Context, cleaning: Cleaning, role: Role, c: Channel, hookSync: bool, paramsOk: bool)
    requires Sound(x, cleaning, role, c) && c.state == Created && IsConnected(x)
    ensures JoinCallEffect(x, BeginJoin(x, c, hookSync, paramsOk), hookSync, paramsOk)
  {
    hide Sound, Admit, SubmitJoin, StartLeave, AwaitsJoin, NewChannel;
    NewFacts(x, cleaning, role, c);
    AdmittedFields(x, c);
    var d := Admit(x, c);
    if hookSync && paramsOk {
      SubmittedAwaits(x, d, x.refs + 1, Some(x.refs + 1));
    } else if hookSync {
      RefusedParams(x, d);
      StartLeaveLeaves(x, SubmitJoin(x, d, false));
    } else {
      StartLeaveLeaves(x, d);
    }
  }

  lemma JoinFailedLeaves(x: Context, c: Channel, failure: Failure)
    requires (c.state == Left <==> c.leftBy.Some?) && (c.state == Left <==> c.leaveRequested) && !c.established
    requires !c.leaver.NoLeaver? ==> c.state == Left
    ensures
      var d := StartLeave(x, JoinFailed(x, c, failure));
      d.joiner == c.joiner && match failure
      case ChannelFailure(_) =>
        if c.cause.None? || c.cause == Some(Accepted) || c.cause == Some(Timeout) then Leaves(c, d, Configuration, failure)
        else Leaves(c, d, Leave, ChannelFailure(WasLeft))
      case TimeoutFailure => Leaves(c, d, Timeout, ChannelFailure(DeadlineExpired))
      case _ => Leaves(c, d, Leave, ChannelFailure(WasLeft))
  {
    hide Transition, StartLeave;
    TransitionFrame(x, c, Configuration, failure);
    TransitionFrame(x, c, Timeout, ChannelFailure(DeadlineExpired));
    StartLeaveLeaves(x, JoinFailed(x, c, failure));
  }

  lemma WithoutJoinerFields(c: Channel)
    ensures
      var d := WithoutJoiner(c);
      && d.joiner.None? && d.state == c.state && d.leftBy == c.leftBy && d.leaveRequested == c.leaveRequested
      && d.established == c.established && d.leaver == c.leaver && d.cause == c.cause && d.operations == c.operations
  {
  }

  lemma JoinerTakesEffect(x: Context, cleaning: Cleaning, role: Role, c: Channel, outcome: Future)
    requires Sound(x, cleaning, role, c) && c.joiner.Some? && OutcomeDone(c, c.joiner.value)
    requires outcome == c.operations[c.joiner.value].outcome
    ensures JoinerEffect(c, outcome, ResumeJoiner(x, c, outcome))
  {
    hide Sound, JoinFailed, StartLeave, WithoutJoiner;
    Facts(x, cleaning, role, c);
    LeftFacts(x, cleaning, role, c);
    WithoutJoinerFields(c);
    if outcome.Failed? {
      JoinFailedLeaves(x, WithoutJoiner(c), outcome.failure);
    }
  }

  lemma LeftFacts(x: Context, cleaning: Cleaning, role: Role, c: Channel)
    requires Sound(x, cleaning, role, c)
    ensures c.state == Left <==> c.leftBy.Some?
    ensures c.state == Left <==> c.leaveRequested
    ensures !c.leaver.NoLeaver? ==> c.state == Left
  {
    hide OperationsOk, PlaceOk, TasksOk, LossOk, MailOk;
  }

  /** Nothing but futures moved. */
  predicate OnlySettles(c: Channel, d: Channel) {
    && d.joiner == c.joiner && d.state == c.state && d.leftBy == c.leftBy && d.leaver == c.leaver && d.established == c.established
  }

  lemma SettlingFields(c: Channel, operations: map<Ref, Operation>, ready: Future, unsubscribed: Future)
    ensures OnlySettles(c, c.(operations := operations, ready := ready, unsubscribed := unsubscribed))
  {
  }

  lemma NothingSettles(c: Channel)
    ensures OnlySettles(c, c)
  {
  }

  lemma SettledFields(c: Channel, r: Ref, f: Future)
    ensures OnlySettles(c, Settle(c, r, f))
  {
    hide SettleOutcome, OnlySettles;
    NothingSettles(c);
    if IsPending(c.operations, r) {
      var op := c.operations[r];
      SettlingFields(c, SettleOutcome(c.operations, r, f),
                     if op.kind == JoinOperation && r == c.joinRef && c.ready.Pending? then f else c.ready,
                     if op.kind == LeaveOperation && c.leaveRef == Some(r) && c.unsubscribed.Pending? then f else c.unsubscribed);
    }
  }

  lemma FailedOperations(x: Context, c: Channel, cause: Cause, failure: Failure, r: Ref)
    requires !IsPending(c.operations, r)
    ensures !IsPending(Transition(x, c, cause, failure).operations, r)
  {
    hide Transition;
    OperationsFailed(c.operations, c.joinRef, c.pushes, failure, r);
    TransitionOutcomes(x, c, cause, failure);
  }

  lemma TransitionOutcomes(x: Context, c: Channel, cause: Cause, failure: Failure)
    ensures Transition(x, c, cause, failure).operations
            == FailOutcomes(SettleOutcome(c.operations, c.joinRef, Failed(failure)), c.pushes, failure)
  {
    hide FailOutcomes, SettleOutcome;
  }

  lemma OperationsFailed(operations: map<Ref, Operation>, k: Ref, pushes: set<Ref>, failure: Failure, r: Ref)
    requires !IsPending(operations, r)
    ensures !IsPending(FailOutcomes(SettleOutcome(operations, k, Failed(failure)), pushes, failure), r)
  {
  }

  lemma StaysSettled(x: Context, c: Channel, r: Ref)
    requires !IsPending(c.operations, r)
    ensures !IsPending(StartLeave(x, c).operations, r)
  {
    hide Transition, IsPending;
    FailedOperations(x, c, Leave, ChannelFailure(WasLeft), r);
  }

  lemma CancelledJoinerTakesEffect(x: Context, cleaning: Cleaning, role: Role, c: Channel, r: Ref)
    requires Sound(x, cleaning, role, c)
    ensures
      var d := StartLeave(x, Settle(WithoutJoiner(c), r, Failed(CallerCancelled)));
      d.joiner.None? && Leaves(c, d, Leave, ChannelFailure(WasLeft)) && !IsPending(d.operations, r)
  {
    hide Sound, Settle, StartLeave, WithoutJoiner;
    LeftFacts(x, cleaning, role, c);
    WithoutJoinerFields(c);
    var e := Settle(WithoutJoiner(c), r, Failed(CallerCancelled));
    SettledFields(WithoutJoiner(c), r, Failed(CallerCancelled));
    SettledNotPending(WithoutJoiner(c), r, Failed(CallerCancelled));
    StartLeaveLeaves(x, e);
    StaysSettled(x, e, r);
  }

  lemma LeaveTakesEffect(x: Context, cleaning: Cleaning, role: Role, c: Channel)
    requires Sound(x, cleaning, role, c)
    ensures CallEffect(x, c, LeaveCall, BeginLeave(x, c))
  {
    hide Sound, StartLeave, NewChannel;
    LeftFacts(x, cleaning, role, c);
    if c.state == Created {
      UnregisteredNew(x, cleaning, role, c);
    } else {
      StartLeaveLeaves(x, c);
    }
  }

  lemma UnregisteredNew(x: Context, cleaning: Cleaning, role: Role, c: Channel)
    requires Sound(x, cleaning, role, c) && c.state == Created
    ensures !c.registered && c.leaver.NoLeaver?
  {
    hide OperationsOk, PlaceOk, TasksOk, LossOk, MailOk;
  }

  lemma PushCallTakesEffect(x: Context, c: Channel)
    requires ChannelJoined(x, c) && c.connection.Some?
    ensures PushCallEffect(x, c, SubmitPush(x, c, c.connection.value))
  {
  }

  lemma ConnectedPush(x: Context, cleaning: Cleaning, role: Role, c: Channel)
    requires Sound(x, cleaning, role, c) && ChannelJoined(x, c)
    ensures c.connection.Some?
  {
    hide OperationsOk, TasksOk, LossOk, MailOk;
  }

  lemma CancelledPushTakesEffect(x: Context, c: Channel, r: Ref)
    requires r in c.operations
    ensures CallEffect(x, c, PushCancelled(r), SettlePush(c, r, Failed(CallerCancelled)))
  {
  }

  lemma CallTakesEffect(x: Context, cleaning: Cleaning, role: Role, c: Channel, a: Action)
    requires Sound(x, cleaning, role, c) && ActionEnabled(x, role, c, a)
    ensures CallEffect(x, c, a, Act(x, c, a))
  {
    hide Sound, BeginJoin, ResumeJoiner, Settle, SettlePush, WithoutJoiner, StartLeave, BeginLeave, SubmitPush, JoinCallEffect,
      JoinerEffect, Leaves, PushCallEffect, ChannelJoined, StartSend, FinishWrite, Route, RecoveryStep, StartUnregister, ReportLoss,
      RunLeave, BeginCleanup, FinishCleanup, TakeMessage, LoopTest, HasPendingSend;
    match a
    case JoinCall(hookSync, paramsOk) => JoinCallTakesEffect(x, cleaning, role, c, hookSync, paramsOk);
    case JoinerResumes => JoinerTakesEffect(x, cleaning, role, c, c.operations[c.joiner.value].outcome);
    case JoinerCancelled => CancelledJoinerTakesEffect(x, cleaning, role, c, c.joiner.value);
    case LeaveCall => LeaveTakesEffect(x, cleaning, role, c);
    case PushCall =>
      ConnectedPush(x, cleaning, role, c);
      PushCallTakesEffect(x, c);
    case PushReturns(r) =>
    case PushCancelled(r) => CancelledPushTakesEffect(x, c, r);
    case _ =>
  }

  // Recoveries

  /** The recovery tries again exactly while the client is connected and the channel is REJOINING and registered. */
  predicate GoesOn(x: Context, c: Channel) {
    x.state == Connected && c.registered && c.state == Rejoining
  }

  predicate RestartEffect(x: Context, c: Channel, paramsOk: bool, d: Channel) {
    if !(c.registered && c.state == Rejoining) then d.recovery.NoRecovery? && d.state == c.state && d.joinRef == c.joinRef
    else if paramsOk then
      && d.state == Rejoining && AwaitsJoin(x, d, x.refs + 1) && d.recovery == AwaitingRejoin(x.generation, x.refs + 1)
      && d.cause.None? && !d.terminal && !d.restartRequested
    else
      && d.state == Left && d.leftBy == Some((Configuration, ChannelFailure(BadParams))) && d.loss.LossScheduled?
      && d.recovery.NoRecovery?
  }

  /** A failed rejoin loses the channel if it was refused, now or before; otherwise the recovery goes on. */
  predicate RejoinEffect(x: Context, c: Channel, outcome: Future, d: Channel) {
    match outcome
    case Pending => false
    case Succeeded =>
      && d.state == c.state
      && d.recovery == (if c.state != Joined && GoesOn(x, c) then Backoff(x.generation) else NoRecovery)
    case Failed(failure) =>
      var refused := failure.ChannelFailure? && (c.cause.None? || c.cause == Some(Accepted) || c.cause == Some(Timeout));
      if refused || Rejection(c.cause) then
        && d.state == Left && d.loss.LossScheduled? && d.recovery.NoRecovery?
        && (refused ==> d.leftBy == Some(if c.leftBy.None? then (Configuration, failure) else c.leftBy.value))
      else d.state == c.state && d.loss == c.loss && d.recovery == (if GoesOn(x, c) then Backoff(x.generation) else NoRecovery)
  }

  predicate RecoveryEffect(x: Context, c: Channel, a: Action, d: Channel) {
    match a
    case RecoveryWakes =>
      if GoesOn(x, c)
      then d.state == Rejoining && d.recovery == StoppingProcessor(x.generation) && d.restartRequested
      else d.state == c.state && d.recovery.NoRecovery?
    case RecoveryRestarts(paramsOk) => RestartEffect(x, c, paramsOk, d)
    case RecoveryResumes =>
      c.recovery.AwaitingRejoin? && c.recovery.ref in c.operations
      && (!c.recoveryCancelled ==> RejoinEffect(x, c, c.operations[c.recovery.ref].outcome, d))
    case RecoveryCancelled =>
      d.recovery.NoRecovery? && d.state == c.state && (c.recovery.AwaitingRejoin? ==> !IsPending(d.operations, c.recovery.ref))
    case _ => true
  }

  lemma RecoveringFacts(x: Context, cleaning: Cleaning, role: Role, c: Channel)
    requires ContextOk(x) && Sound(x, cleaning, role, c) && !c.recovery.NoRecovery?
    ensures c.established && c.state != Created
    ensures ShouldRejoin(c) <==> c.registered && c.state != Left
    ensures !c.recoveryCancelled && c.registered ==> c.recovery.generation == x.generation && x.connection.Some?
    ensures !c.recoveryCancelled ==> (CanRecover(x, c, c.recovery.generation) <==> x.state == Connected && c.registered && c.state != Left)
    ensures !c.recovery.AwaitingRejoin? ==> c.state == Rejoining || c.state == Left
    ensures c.state != Left ==> c.registered && c.leaver.NoLeaver? && c.leftBy.None? && !c.leaveRequested && !x.shutdown
    ensures c.state == Left ==> c.leftBy.Some? && c.leaveRequested
    ensures c.recovery.AwaitingRejoin? ==> c.recovery.ref == c.joinRef && (c.state == Rejoining || c.state == Joined || c.state == Left)
    ensures c.recovery.AwaitingRejoin? ==> (c.state == Joined ==> c.joinRef in c.operations && c.operations[c.joinRef].outcome.Succeeded?)
    ensures c.ready.Succeeded? <==> c.state == Joined
  {
    hide MailOk, LossOk;
  }

  lemma WakeFields(c: Channel, recovery: Recovery)
    ensures
      var d := c.(recovery := recovery, restartRequested := true);
      d.state == c.state && d.recovery == recovery && d.restartRequested
  {
  }

  lemma EndedFields(c: Channel)
    ensures
      var d := c.(recovery := NoRecovery);
      d.state == c.state && d.recovery.NoRecovery? && d.joinRef == c.joinRef && d.loss == c.loss && d.leftBy == c.leftBy
  {
  }

  lemma WakingTakesEffect(x: Context, cleaning: Cleaning, role: Role, c: Channel)
    requires ContextOk(x) && Sound(x, cleaning, role, c) && c.recovery.Backoff? && !c.recoveryCancelled
    ensures RecoveryEffect(x, c, RecoveryWakes, RecoveryStep(x, c, RecoveryWakes))
  {
    hide Sound, CanRecover, RecoveryStep, ShouldRejoin;
    RecoveringFacts(x, cleaning, role, c);
    WakeIs(x, c);
    if CanRecover(x, c, c.recovery.generation) {
      WakeFields(c, StoppingProcessor(x.generation));
    } else {
      EndedFields(c);
    }
  }

  lemma RestartFields(x: Context, c: Channel, g: nat)
    ensures
      var d := Restart(x, c, g);
      && d.state == Rejoining && d.joinRef == x.refs + 1 && d.generation == g && d.connection == x.connection && d.ready.Pending?
      && !d.joinSubmitted && !d.terminal && !d.restartRequested && d.cause.None? && d.processor == WaitingForMessage && d.mail.queue == []
      && d.registered == c.registered && d.leaver == c.leaver && d.leftBy == c.leftBy && d.established == c.established
      && d.leaveRequested == c.leaveRequested && d.joiner == c.joiner
  {
  }

  lemma SubmittedFields(x: Context, c: Channel)
    requires c.connection.Some?
    ensures
      var d := SubmitJoin(x, c, true);
      d.cause == c.cause && d.terminal == c.terminal && d.restartRequested == c.restartRequested
  {
    hide JoinFailed;
  }

  lemma RecoveringAwaits(x: Context, c: Channel, r: Ref, recovery: Recovery)
    requires AwaitsJoin(x, c, r)
    ensures
      var d := c.(recovery := recovery);
      && AwaitsJoin(x, d, r) && d.recovery == recovery && d.cause == c.cause && d.terminal == c.terminal && d.state == c.state
      && d.restartRequested == c.restartRequested
  {
  }

  lemma SameJoiner(c: Channel)
    ensures c.(joiner := c.joiner) == c
  {
  }

  lemma RejoinAwaits(x: Context, c: Channel)
    requires c.registered && c.leaver.NoLeaver? && x.connection.Some?
    ensures
      var d := Rejoin(x, c, x.generation, true);
      && AwaitsJoin(x, d, x.refs + 1) && d.state == Rejoining && d.cause.None? && !d.terminal && !d.restartRequested
  {
    hide Restart, SubmitJoin, AwaitsJoin;
    RestartFields(x, c, x.generation);
    var e := Restart(x, c, x.generation);
    SubmittedAwaits(x, e, x.refs + 1, e.joiner);
    SubmittedFields(x, e);
    SubmittedJoiner(x, e);
    SameJoiner(SubmitJoin(x, e, true));
  }

  lemma SubmittedJoiner(x: Context, c: Channel)
    requires c.connection.Some?
    ensures SubmitJoin(x, c, true).joiner == c.joiner
  {
    hide JoinFailed;
  }

  lemma RefusedRestart(x: Context, c: Channel)
    requires c.established && c.leftBy.None?
    ensures
      var d := RecoveryFailed(x, Rejoin(x, c, x.generation, false), x.generation);
      && d.state == Left && d.leftBy == Some((Configuration, ChannelFailure(BadParams))) && d.loss.LossScheduled?
      && d.recovery.NoRecovery?
  {
    hide Restart, Transition, RecoveryLoops;
    RestartFields(x, c, x.generation);
    TransitionFrame(x, Restart(x, c, x.generation), Configuration, ChannelFailure(BadParams));
  }

  lemma RestartingTakesEffect(x: Context, cleaning: Cleaning, role: Role, c: Channel, paramsOk: bool)
    requires ContextOk(x) && Sound(x, cleaning, role, c) && c.recovery.StoppingProcessor? && !c.recoveryCancelled
    ensures RestartEffect(x, c, paramsOk, RecoveryStep(x, c, RecoveryRestarts(paramsOk)))
  {
    hide Sound, CanRecover, ShouldRejoin, Rejoin, RecoveryFailed, AwaitsJoin;
    RecoveringFacts(x, cleaning, role, c);
    if !ShouldRejoin(c) {
      EndedFields(c);
    } else if paramsOk {
      RejoinAwaits(x, c);
      RecoveringAwaits(x, Rejoin(x, c, x.generation, true), x.refs + 1, AwaitingRejoin(x.generation, x.refs + 1));
    } else {
      RefusedRestart(x, c);
    }
  }

  lemma LoopsOrNot(x: Context, c: Channel, g: nat)
    ensures
      var d := RecoveryLoops(x, c, g);
      d.state == c.state && d.loss == c.loss && d.recovery == (if CanRecover(x, c, g) then Backoff(g) else NoRecovery)
  {
    hide CanRecover;
  }

  lemma TimedOutFields(x: Context, c: Channel)
    requires (c.state == Left <==> c.leaveRequested) && (c.state == Rejoining || c.state == Left) && c.established
    requires c.state == Rejoining ==> !x.shutdown
    ensures
      var d := JoinFailed(x, c, TimeoutFailure);
      && d.state == c.state && d.loss == c.loss && d.registered == c.registered && d.established && !Rejection(d.cause)
      && d.leaveRequested == c.leaveRequested
  {
    hide Transition;
    TransitionFrame(x, c, Timeout, ChannelFailure(DeadlineExpired));
  }

  lemma RefusedJoinLoses(x: Context, c: Channel, failure: Failure, g: nat)
    requires failure.ChannelFailure? && (c.cause.None? || c.cause == Some(Accepted) || c.cause == Some(Timeout))
    requires c.established && (c.state == Left <==> c.leaveRequested) && (c.state == Left <==> c.leftBy.Some?)
    ensures
      var d := RecoveryFailed(x, JoinFailed(x, c, failure), g);
      && d.state == Left && d.loss.LossScheduled? && d.recovery.NoRecovery?
      && d.leftBy == Some(if c.leftBy.None? then (Configuration, failure) else c.leftBy.value)
  {
    hide Transition, RecoveryLoops;
    TransitionFrame(x, c, Configuration, failure);
  }

  lemma RejectedLoses(x: Context, c: Channel, g: nat)
    requires Rejection(c.cause) && c.state == Left && c.established
    ensures
      var d := RecoveryFailed(x, c, g);
      d.state == Left && d.loss.LossScheduled? && d.recovery.NoRecovery?
  {
    hide Transition, RecoveryLoops, StartLeave;
  }

  lemma CanRecoverAlike(x: Context, c: Channel, d: Channel, g: nat)
    requires d.registered == c.registered && d.established == c.established && d.state == c.state && d.leaveRequested == c.leaveRequested
    ensures CanRecover(x, d, g) == CanRecover(x, c, g)
  {
  }

  lemma FailedRejoinTakesEffect(x: Context, cleaning: Cleaning, role: Role, c: Channel, failure: Failure)
    requires ContextOk(x) && Sound(x, cleaning, role, c) && CauseKept(role, c) && c.recovery.AwaitingRejoin? && !c.recoveryCancelled
    requires c.joinRef in c.operations && c.operations[c.joinRef].outcome == Failed(failure)
    ensures RejoinEffect(x, c, Failed(failure), RecoveryFailed(x, JoinFailed(x, c, failure), c.recovery.generation))
  {
    hide Sound, CanRecover, ShouldRejoin, RecoveryFailed, JoinFailed;
    RecoveringFacts(x, cleaning, role, c);
    Facts(x, cleaning, role, c);
    var g := c.recovery.generation;
    if failure.ChannelFailure? && (c.cause.None? || c.cause == Some(Accepted) || c.cause == Some(Timeout)) {
      RefusedJoinLoses(x, c, failure, g);
    } else if Rejection(c.cause) {
      RejectedJoinFailed(x, c, failure);
      RejectedLoses(x, c, g);
    } else {
      var d := JoinFailed(x, c, failure);
      if failure.TimeoutFailure? {
        TimedOutFields(x, c);
      } else {
        OtherFailure(x, c, failure);
      }
      CanRecoverAlike(x, c, d, g);
      RecoveryGoes(x, d, g);
      LoopsOrNot(x, d, g);
    }
  }

  lemma RejectedJoinFailed(x: Context, c: Channel, failure: Failure)
    requires Rejection(c.cause) && !failure.TimeoutFailure?
    ensures JoinFailed(x, c, failure) == c
  {
    hide Transition;
  }

  lemma OtherFailure(x: Context, c: Channel, failure: Failure)
    requires !failure.TimeoutFailure? && !(failure.ChannelFailure? && (c.cause.None? || c.cause == Some(Accepted) || c.cause == Some(Timeout)))
    ensures JoinFailed(x, c, failure) == c
  {
    hide Transition;
  }

  lemma RecoveryGoes(x: Context, c: Channel, g: nat)
    requires !Rejection(c.cause)
    ensures RecoveryFailed(x, c, g) == RecoveryLoops(x, c, g)
  {
    hide StartLoss, RecoveryLoops;
  }

  lemma ResumingTakesEffect(x: Context, cleaning: Cleaning, role: Role, c: Channel)
    requires ContextOk(x) && Sound(x, cleaning, role, c) && CauseKept(role, c) && c.recovery.AwaitingRejoin? && OutcomeDone(c, c.recovery.ref)
    ensures RecoveryEffect(x, c, RecoveryResumes, RecoveryStep(x, c, RecoveryResumes))
  {
    hide Sound, CanRecover, ShouldRejoin, RecoveryFailed, JoinFailed, CauseKept;
    RecoveringFacts(x, cleaning, role, c);
    if c.recoveryCancelled {
    } else if c.operations[c.recovery.ref].outcome.Succeeded? {
      EndedFields(c);
      LoopsOrNot(x, c, c.recovery.generation);
    } else {
      FailedRejoinTakesEffect(x, cleaning, role, c, c.operations[c.recovery.ref].outcome.failure);
    }
  }

  lemma CancelledTakesEffect(x: Context, cleaning: Cleaning, role: Role, c: Channel)
    requires Sound(x, cleaning, role, c)
    ensures RecoveryEffect(x, c, RecoveryCancelled, Act(x, c, RecoveryCancelled))
  {
    hide Sound, Settle;
    if c.recovery.AwaitingRejoin? {
      SettledFields(c, c.recovery.ref, Failed(CallerCancelled));
      SettledNotPending(c, c.recovery.ref, Failed(CallerCancelled));
    }
  }

  lemma RecoveryTakesEffect(x: Context, cleaning: Cleaning, role: Role, c: Channel, a: Action)
    requires ContextOk(x) && Sound(x, cleaning, role, c) && CauseKept(role, c) && ActionEnabled(x, role, c, a)
    ensures RecoveryEffect(x, c, a, Act(x, c, a))
  {
    hide Sound, CauseKept, RestartEffect, RejoinEffect, RecoveryStep, Settle, StartLeave, BeginJoin, ResumeJoiner, BeginLeave, SubmitPush,
      SettlePush, StartSend, FinishWrite, Route, StartUnregister, ReportLoss, RunLeave, BeginCleanup, FinishCleanup, TakeMessage, LoopTest,
      HasPendingSend, ChannelJoined, GoesOn;
    match a
    case RecoveryWakes =>
      WakingTakesEffect(x, cleaning, role, c);
    case RecoveryRestarts(paramsOk) => RestartingTakesEffect(x, cleaning, role, c, paramsOk);
    case RecoveryResumes => ResumingTakesEffect(x, cleaning, role, c);
    case RecoveryCancelled => CancelledTakesEffect(x, cleaning, role, c);
    case _ =>
  }
}
