/** What holds of every channel after every step of every run. */
module ChannelInvariant {
  import opened Wrappers
  import opened ClientStates
  import opened Channels
  import opened ChannelProtocol
  import opened Mailboxes

  /** The connection whose `_cleanup_connection` has not ended, if any. */
  type Cleaning = Option<Option<ConnectionId>>

  predicate Live(c: Channel) {
    c.state == Joining || c.state == Joined || c.state == Rejoining
  }

  predicate ContextOk(x: Context) {
    && (x.sendFailed ==> x.state != Connected)
    && (x.shutdown ==> x.state == ShuttingDown || x.state == Closed)
    && (x.state == ShuttingDown ==> x.shutdown)
    && (x.connection.None? ==> !x.routing && !x.sendFailed)
  }

  /** LEFT is entered once, JOINED is exactly a successful current join. */
  predicate LifeOk(c: Channel) {
    && (c.leaveRequested <==> c.state == Left)
    && (c.leftBy.Some? <==> c.state == Left)
    && (c.ready.Succeeded? <==> c.state == Joined)
    && (c.state == Joined ==> c.established)
    && (c.state == Joining ==> !c.established)
    && (c.state == Rejoining ==> c.established)
    && (c.state != Joined ==> c.pushes == {})
    && (Rejection(c.cause) ==> c.state == Left && c.leftBy.value.0 == c.cause.value)
    && (c.joinRef == 0 ==> !c.established && !Live(c))
    && (c.state == Created ==> c == NewChannel(c.name, c.blocksReconnect))
  }

  /** A pending outcome is one that `_fail_pending_joins` reaches. */
  predicate OperationOk(x: Context, c: Channel, r: Ref, op: Operation) {
    && 1 <= r <= x.refs
    && (op.kind == JoinOperation ==> op.epoch == r)
    && (op.outcome.Pending? ==>
        && c.registered && Some(op.connection) == c.connection == x.connection && op.epoch == c.joinRef
        && match op.kind {
             case JoinOperation => r == c.joinRef && c.ready.Pending?
             case PushOperation => r in c.pushes
             case LeaveOperation => c.leaver == AwaitingLeave(r) && c.unsubscribed.Pending?
           })
  }

  predicate OperationsOk(x: Context, c: Channel) {
    && (forall r :: r in c.operations ==> OperationOk(x, c, r, c.operations[r]))
    && c.joinRef <= x.refs
    && (c.joinRef in c.operations ==> c.operations[c.joinRef].kind == JoinOperation)
    && (forall r :: r in c.pushes ==> r in c.operations && c.operations[r].kind == PushOperation)
    && (c.leaveRef.Some? ==>
        && c.joinRef < c.leaveRef.value <= x.refs && !c.leaver.NoLeaver? && !c.leaver.LeaveScheduled?
        && (c.leaveRef.value in c.operations ==> c.operations[c.leaveRef.value].kind == LeaveOperation))
    && (c.leaver.AwaitingLeave? ==> c.leaveRef == Some(c.leaver.ref) && c.leaver.ref in c.operations)
    && (c.ready.Pending? && c.joinRef > 0 ==>
        c.joinRef in c.operations && c.operations[c.joinRef].outcome.Pending?)
    && (c.state == Joined ==> c.joinRef in c.operations && c.operations[c.joinRef].outcome.Succeeded?)
  }

  /** Where a live channel stands relative to the current connection. */
  predicate PlaceOk(x: Context, c: Channel) {
    && c.generation <= x.generation
    && (c.registered ==> c.connection.Some? && c.joinRef > 0)
    && (Live(c) ==> c.registered && !x.shutdown && x.state != Closed)
    && (c.state == Joining || c.state == Joined ==> c.connection == x.connection && c.generation == x.generation)
    && (c.state == Joined ==> IsConnected(x) && x.routing && !x.sendFailed)
    && (c.state == Joining ==> c.joiner == Some(c.joinRef))
  }

  /** Running and not asked to stop. */
  predicate Recovers(c: Channel) {
    !c.recoveryCancelled && !c.recovery.NoRecovery?
  }

  /** At most one task restarts or awaits the join of a channel. */
  predicate TasksOk(x: Context, cleaning: Cleaning, role: Role, c: Channel) {
    && (c.ready.Pending? && c.joinRef > 0 ==>
        || (c.state == Joining && c.joiner == Some(c.joinRef))
        || (c.state == Rejoining && (c.recovery == AwaitingRejoin(x.generation, c.joinRef) || role == Rejoins(c.joinRef))))
    && (c.joiner.Some? ==>
        && c.joiner.value == c.joinRef && c.joinRef in c.operations
        && (c.established <==> c.operations[c.joinRef].outcome.Succeeded?))
    && (!c.recovery.NoRecovery? ==> c.established)
    && (c.recovery.Backoff? || c.recovery.StoppingProcessor? ==> c.state == Rejoining || c.state == Left)
    && (Recovers(c) && c.registered ==> c.recovery.generation == x.generation && x.connection.Some?)
    && (!c.recovery.NoRecovery? && c.recoveryCancelled ==> x.connection.None? || c.state == Left)
    && (c.recovery.AwaitingRejoin? ==>
        c.recovery.ref == c.joinRef && c.joinRef in c.operations && c.joiner.None? && !role.Rejoins? && role != Removes)
    && (x.connection.None? && cleaning.None? && !x.shutdown && c.registered ==> c.recovery.NoRecovery?)
    && (role == Queued || role == Restarting ==>
        c.recovery.NoRecovery? && c.generation < x.generation && (c.state == Rejoining || c.state == Left))
    && (role.Rejoins? ==>
        && role.ref == c.joinRef && c.joinRef in c.operations && c.established && c.joiner.None?
        && c.generation == x.generation && c.connection == x.connection
        && (c.operations[c.joinRef].outcome.Pending? ==> c.recovery.NoRecovery?))
    && (role != Uninvolved ==> x.connection.Some? && c.state != Created)
    && (role == Removes ==> c.joiner.None?)
  }

  /** A name is free only when its join cannot be live on the server. */
  predicate ReservationOk(x: Context, cleaning: Cleaning, c: Channel) {
    && (!c.registered && c.state == Left ==>
        (c.joinSubmitted ==> c.terminal) && !HasPendingSend(c.operations))
    && (c.leaver.LeaverDone? <==> c.cleanupDone)
    && (!c.leaver.NoLeaver? ==> c.state == Left)
    && (c.cleanupDone ==> !HasPendingSend(c.operations))
    && (c.registered && c.cleanupDone ==> c.joinSubmitted && !c.terminal)
    && (c.registered && c.connection != x.connection && cleaning != Some(c.connection) ==> c.terminal)
  }

  predicate LossCause(cause: Cause) {
    cause == Close || cause == Rejected || cause == Configuration
  }

  predicate LossOk(role: Role, c: Channel) {
    && c.lossReports == (if c.lossReported then 1 else 0)
    && (!c.loss.NoLoss? || c.lossReported || role == Removes ==>
        c.established && c.leftBy.Some? && LossCause(c.leftBy.value.0))
  }

  predicate Ascending(s: seq<nat>) {
    forall i, j :: 0 <= i < j < |s| ==> s[i] < s[j]
  }

  predicate MailboxOk(m: Mailbox, limit: nat) {
    && m.taken + m.dropped + m.drained + |m.queue| == |m.log|
    && |m.queue| <= (if limit == 0 then 1 else limit)
    && (forall i :: 0 <= i < |m.queue| ==> m.queue[i].index < |m.log|)
    && (forall i, j :: 0 <= i < j < |m.queue| ==> m.queue[i].index < m.queue[j].index)
    && Ascending(m.dispatched) && |m.epochs| == |m.dispatched|
    && (forall i :: 0 <= i < |m.dispatched| ==> m.dispatched[i] < |m.log| && m.log[m.dispatched[i]] == m.epochs[i])
    && (forall i, j :: 0 <= i < |m.dispatched| && 0 <= j < |m.queue| ==> m.dispatched[i] < m.queue[j].index)
  }

  /** Everything queued was accepted under `joinRef`, and every delivery happened under a
      join_ref whose response had been installed. */
  predicate DeliveryOk(m: Mailbox, limit: nat, joinRef: Ref, installed: seq<Ref>) {
    && MailboxOk(m, limit)
    && (forall i :: 0 <= i < |m.queue| ==> m.log[m.queue[i].index] == joinRef)
    && (forall i :: 0 <= i < |m.epochs| ==> m.epochs[i] in installed)
    && Ascending(installed)
    && (forall i :: 0 <= i < |installed| ==> installed[i] <= joinRef)
  }

  predicate MailOk(x: Context, c: Channel) {
    && DeliveryOk(c.mail, x.queueLimit, c.joinRef, c.installed)
    && (c.ready.Pending? ==> c.joinRef !in c.installed)
    && (c.state == Joined ==> c.joinRef in c.installed)
  }

  predicate Sound(x: Context, cleaning: Cleaning, role: Role, c: Channel) {
    && LifeOk(c)
    && OperationsOk(x, c)
    && PlaceOk(x, c)
    && TasksOk(x, cleaning, role, c)
    && ReservationOk(x, cleaning, c)
    && LossOk(role, c)
    && MailOk(x, c)
  }

  predicate JoinSucceeded(c: Channel) {
    c.joinRef in c.operations && c.operations[c.joinRef].outcome.Succeeded?
  }

  /** A REJOINING channel on a working connection has somebody who rejoins it. The supervisor's
      pass does not retry a join that succeeded, so a crash after the ack needs a recovery. */
  predicate Owned(x: Context, role: Role, c: Channel) {
    IsConnected(x) && x.routing && c.state == Rejoining ==>
      Recovers(c) || role == Queued || role == Restarting || (role.Rejoins? && !JoinSucceeded(c))
  }

  /** A registered LEFT channel has somebody who leaves it and frees its name. */
  predicate WillLeave(x: Context, role: Role, c: Channel) {
    c.registered && c.state == Left && c.leaver.NoLeaver? && !x.shutdown && !c.abandoned ==>
      || (c.joiner.Some? && !c.established)
      || c.loss.LossScheduled?
      || ((c.recovery.AwaitingRejoin? || role.Rejoins?) && Rejection(c.cause))
  }

  /** A caller, recovery or pass suspended in `_join`. */
  predicate JoinWaiter(role: Role, c: Channel) {
    c.joiner.Some? || c.recovery.AwaitingRejoin? || role.Rejoins?
  }

  /** A waiter that resumes on a LEFT channel finds the cause that explains its failure. */
  predicate CauseKept(role: Role, c: Channel) {
    && (JoinWaiter(role, c) && c.state == Left ==>
        c.cause.Some? && c.cause != Some(Accepted) && c.cause != Some(Timeout))
    && (JoinWaiter(role, c) && Rejection(c.cause) ==>
        && c.joinRef in c.operations && c.operations[c.joinRef].outcome.Failed?
        && c.operations[c.joinRef].outcome.failure.ChannelFailure?)
  }

  /** Whoever will report a refused rejoin finds no other loss task. */
  predicate LossFree(role: Role, c: Channel) {
    (JoinWaiter(role, c) && Rejection(c.cause)) || role == Removes ==> c.loss.NoLoss?
  }

  /** The promises about who acts next. */
  predicate Attended(x: Context, role: Role, c: Channel) {
    Owned(x, role, c) && WillLeave(x, role, c) && CauseKept(role, c) && LossFree(role, c)
  }

  predicate ChannelOk(x: Context, cleaning: Cleaning, role: Role, c: Channel) {
    Sound(x, cleaning, role, c) && Attended(x, role, c)
  }
}
