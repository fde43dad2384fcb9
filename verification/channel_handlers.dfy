/** The building blocks of the steps keep `Sound`. */
module ChannelHandlers {
  import opened Wrappers
  import opened Channels
  import opened ChannelProtocol
  import opened ChannelInvariant
  import opened Mailboxes

  /** What the operations table must keep for `Sound`: every write stage. */
  lemma SameSends(before: map<Ref, Operation>, after: map<Ref, Operation>)
    requires before.Keys == after.Keys
    requires forall r :: r in before ==> before[r].send == after[r].send
    ensures HasPendingSend(after) == HasPendingSend(before)
  {
    if HasPendingSend(before) {
      var r :| r in before && !before[r].send.Finished?;
      assert r in after && !after[r].send.Finished?;
    }
  }

  // Delivery

  lemma EnqueueDelivers(m: Mailbox, limit: nat, joinRef: Ref, carried: Option<Ref>, installed: seq<Ref>)
    requires DeliveryOk(m, limit, joinRef, installed)
    ensures DeliveryOk(Enqueue(m, joinRef, carried, limit), limit, joinRef, installed)
  {
  }

  lemma DrainDelivers(m: Mailbox, limit: nat, joinRef: Ref, next: Ref, installed: seq<Ref>)
    requires DeliveryOk(m, limit, joinRef, installed) && joinRef <= next
    ensures DeliveryOk(Drain(m), limit, next, installed)
  {
  }

  lemma SkipDelivers(m: Mailbox, limit: nat, joinRef: Ref, installed: seq<Ref>)
    requires DeliveryOk(m, limit, joinRef, installed) && m.queue != []
    ensures DeliveryOk(Skip(m), limit, joinRef, installed)
  {
  }

  lemma DispatchDelivers(m: Mailbox, limit: nat, joinRef: Ref, installed: seq<Ref>)
    requires DeliveryOk(m, limit, joinRef, installed) && m.queue != [] && joinRef in installed
    ensures DeliveryOk(Dispatch(m, joinRef), limit, joinRef, installed)
  {
    SkipDelivers(m, limit, joinRef, installed);
  }

  lemma InstallDelivers(m: Mailbox, limit: nat, joinRef: Ref, installed: seq<Ref>)
    requires DeliveryOk(m, limit, joinRef, installed) && joinRef !in installed
    ensures DeliveryOk(m, limit, joinRef, installed + [joinRef])
  {
    assert forall i :: 0 <= i < |installed| ==> installed[i] in installed;
  }

  // Transition

  lemma TransitionOperations(x: Context, c: Channel, cause: Cause, failure: Failure)
    requires OperationsOk(x, c) && LifeOk(c) && c.state != Created
    ensures OperationsOk(x, Transition(x, c, cause, failure))
  {
  }

  lemma TransitionTasks(x: Context, cleaning: Cleaning, role: Role, c: Channel, cause: Cause, failure: Failure)
    requires OperationsOk(x, c) && LifeOk(c) && PlaceOk(x, c) && TasksOk(x, cleaning, role, c)
    requires c.state != Created
    ensures TasksOk(x, cleaning, role, Transition(x, c, cause, failure))
  {
  }

  lemma TransitionRest(x: Context, cleaning: Cleaning, role: Role, c: Channel, cause: Cause, failure: Failure)
    requires LifeOk(c) && PlaceOk(x, c) && ReservationOk(x, cleaning, c) && LossOk(role, c) && MailOk(x, c)
    requires c.state != Created && cause != Accepted
    requires c.state == Left ==> !Rejection(Some(cause))
    ensures
      var d := Transition(x, c, cause, failure);
      LifeOk(d) && PlaceOk(x, d) && ReservationOk(x, cleaning, d) && LossOk(role, d) && MailOk(x, d)
  {
    hide DeliveryOk;
    SameSends(c.operations, Transition(x, c, cause, failure).operations);
  }

  lemma TransitionSound(x: Context, cleaning: Cleaning, role: Role, c: Channel, cause: Cause, failure: Failure)
    requires Sound(x, cleaning, role, c)
    requires c.state != Created && cause != Accepted
    requires c.state == Left ==> !Rejection(Some(cause))
    ensures Sound(x, cleaning, role, Transition(x, c, cause, failure))
  {
    hide Transition, LifeOk, OperationsOk, PlaceOk, TasksOk, ReservationOk, LossOk, MailOk;
    TransitionOperations(x, c, cause, failure);
    TransitionTasks(x, cleaning, role, c, cause, failure);
    TransitionRest(x, cleaning, role, c, cause, failure);
  }

  /** A channel that moves fails every join and push that is still awaited and no other operation; a
      join that succeeded before is no longer the current one, but its caller keeps the success. */
  lemma TransitionSettles(x: Context, c: Channel, cause: Cause, failure: Failure)
    requires OperationsOk(x, c)
    ensures
      var d := Transition(x, c, cause, failure);
      && d.ready == Failed(failure) && d.pushes == {} && d.operations.Keys == c.operations.Keys
      && forall r :: r in c.operations ==>
           d.operations[r] == if c.operations[r].outcome.Pending? && !c.operations[r].kind.LeaveOperation?
                              then c.operations[r].(outcome := Failed(failure)) else c.operations[r]
  {
  }

  // Settling

  lemma SettleOperations(x: Context, c: Channel, r: Ref, f: Future)
    requires OperationsOk(x, c) && LifeOk(c) && !f.Pending?
    requires r in c.operations && c.operations[r].kind == JoinOperation ==> !f.Succeeded?
    ensures OperationsOk(x, Settle(c, r, f))
  {
  }

  lemma SettleTasks(x: Context, cleaning: Cleaning, role: Role, c: Channel, r: Ref, f: Future)
    requires OperationsOk(x, c) && LifeOk(c) && TasksOk(x, cleaning, role, c) && !f.Pending?
    requires r in c.operations && c.operations[r].kind == JoinOperation ==> !f.Succeeded?
    ensures TasksOk(x, cleaning, role, Settle(c, r, f))
  {
  }

  lemma SettleRest(x: Context, cleaning: Cleaning, role: Role, c: Channel, r: Ref, f: Future)
    requires LifeOk(c) && PlaceOk(x, c) && ReservationOk(x, cleaning, c) && LossOk(role, c) && MailOk(x, c)
    requires r in c.operations && c.operations[r].kind == JoinOperation ==> !f.Succeeded?
    ensures
      var d := Settle(c, r, f);
      LifeOk(d) && PlaceOk(x, d) && ReservationOk(x, cleaning, d) && LossOk(role, d) && MailOk(x, d)
  {
    hide DeliveryOk;
    SameSends(c.operations, Settle(c, r, f).operations);
  }

  /** Only `Accept` may let a join succeed. */
  lemma SettleSound(x: Context, cleaning: Cleaning, role: Role, c: Channel, r: Ref, f: Future)
    requires Sound(x, cleaning, role, c) && !f.Pending?
    requires r in c.operations && c.operations[r].kind == JoinOperation ==> !f.Succeeded?
    ensures Sound(x, cleaning, role, Settle(c, r, f))
  {
    hide Settle, LifeOk, OperationsOk, PlaceOk, TasksOk, ReservationOk, LossOk, MailOk;
    SettleOperations(x, c, r, f);
    SettleTasks(x, cleaning, role, c, r, f);
    SettleRest(x, cleaning, role, c, r, f);
  }

  lemma DropPushOperations(x: Context, c: Channel, r: Ref)
    requires OperationsOk(x, c) && !IsPending(c.operations, r)
    ensures OperationsOk(x, c.(pushes := c.pushes - {r}))
  {
  }

  lemma DropPushRest(x: Context, cleaning: Cleaning, role: Role, c: Channel, r: Ref)
    requires LifeOk(c) && PlaceOk(x, c) && TasksOk(x, cleaning, role, c) && ReservationOk(x, cleaning, c)
    requires LossOk(role, c) && MailOk(x, c)
    ensures
      var d := c.(pushes := c.pushes - {r});
      && LifeOk(d) && PlaceOk(x, d) && TasksOk(x, cleaning, role, d) && ReservationOk(x, cleaning, d)
      && LossOk(role, d) && MailOk(x, d)
  {
    hide DeliveryOk;
  }

  lemma DropPushSound(x: Context, cleaning: Cleaning, role: Role, c: Channel, r: Ref)
    requires Sound(x, cleaning, role, c) && !IsPending(c.operations, r)
    ensures Sound(x, cleaning, role, c.(pushes := c.pushes - {r}))
  {
    hide LifeOk, OperationsOk, PlaceOk, TasksOk, ReservationOk, LossOk, MailOk, IsPending;
    DropPushOperations(x, c, r);
    DropPushRest(x, cleaning, role, c, r);
  }

  lemma UnsubscribedOperationsOk(x: Context, c: Channel, f: Future)
    requires OperationsOk(x, c) && (c.leaveRef.Some? ==> !IsPending(c.operations, c.leaveRef.value))
    ensures OperationsOk(x, c.(unsubscribed := f))
  {
  }

  lemma UnsubscribedRest(x: Context, cleaning: Cleaning, role: Role, c: Channel, f: Future)
    requires LifeOk(c) && PlaceOk(x, c) && TasksOk(x, cleaning, role, c) && ReservationOk(x, cleaning, c)
    requires LossOk(role, c) && MailOk(x, c) && c.state != Created
    ensures
      var d := c.(unsubscribed := f);
      && LifeOk(d) && PlaceOk(x, d) && TasksOk(x, cleaning, role, d) && ReservationOk(x, cleaning, d)
      && LossOk(role, d) && MailOk(x, d)
  {
    hide DeliveryOk;
  }

  lemma UnsubscribedSound(x: Context, cleaning: Cleaning, role: Role, c: Channel, f: Future)
    requires Sound(x, cleaning, role, c) && c.state != Created
    requires c.leaveRef.Some? ==> !IsPending(c.operations, c.leaveRef.value)
    ensures Sound(x, cleaning, role, c.(unsubscribed := f))
  {
    hide LifeOk, OperationsOk, PlaceOk, TasksOk, ReservationOk, LossOk, MailOk, IsPending;
    UnsubscribedOperationsOk(x, c, f);
    UnsubscribedRest(x, cleaning, role, c, f);
  }

  lemma SettleIsUnsubscribed(x: Context, c: Channel, f: Future)
    requires OperationsOk(x, c) && c.leaveRef.Some? && IsPending(c.operations, c.leaveRef.value)
    ensures SettleUnsubscribed(c, f) == Settle(c, c.leaveRef.value, f)
    ensures c.operations[c.leaveRef.value].kind == LeaveOperation
  {
  }

  lemma SettleUnsubscribedSound(x: Context, cleaning: Cleaning, role: Role, c: Channel, f: Future)
    requires Sound(x, cleaning, role, c) && c.state != Created && !f.Pending?
    ensures Sound(x, cleaning, role, SettleUnsubscribed(c, f))
  {
    hide Settle, LifeOk, OperationsOk, PlaceOk, TasksOk, ReservationOk, LossOk, MailOk;
    if c.leaveRef.Some? && IsPending(c.operations, c.leaveRef.value) {
      SettleIsUnsubscribed(x, c, f);
      SettleSound(x, cleaning, role, c, c.leaveRef.value, f);
    } else {
      UnsubscribedSound(x, cleaning, role, c, f);
      assert SettleUnsubscribed(c, f) == c.(unsubscribed := f) || SettleUnsubscribed(c, f) == c;
    }
  }

  // Leaving

  lemma ReleaseSound(x: Context, cleaning: Cleaning, role: Role, c: Channel)
    requires Sound(x, cleaning, role, c)
    ensures Sound(x, cleaning, role, Release(x, c))
  {
    hide DeliveryOk;
  }

  lemma ScheduleLeaveSound(x: Context, cleaning: Cleaning, role: Role, c: Channel)
    requires Sound(x, cleaning, role, c) && c.state == Left && c.leaver.NoLeaver?
    ensures Sound(x, cleaning, role, c.(leaver := LeaveScheduled))
  {
    hide DeliveryOk;
  }

  lemma TransitionFrame(x: Context, c: Channel, cause: Cause, failure: Failure)
    ensures
      var d := Transition(x, c, cause, failure);
      && d.leaver == c.leaver && d.established == c.established && d.registered == c.registered
      && d.connection == c.connection && d.joiner == c.joiner && d.recovery == c.recovery && d.joinRef == c.joinRef
      && d.recoveryCancelled == c.recoveryCancelled && d.loss == c.loss && d.abandoned == c.abandoned
      && d.cause == Some(cause) && d.generation == c.generation && d.ready == Failed(failure)
      && d.joinSubmitted == c.joinSubmitted
      && d.state == (if c.established && Recoverable(cause) && !c.leaveRequested && !x.shutdown then Rejoining else Left)
      && d.leaveRequested == (c.leaveRequested || d.state == Left)
      && d.leftBy == (if c.leftBy.None? && d.state == Left then Some((cause, failure)) else c.leftBy)
  {
  }

  lemma StartLeaveSound(x: Context, cleaning: Cleaning, role: Role, c: Channel)
    requires Sound(x, cleaning, role, c) && c.state != Created
    ensures
      var d := StartLeave(x, c);
      && Sound(x, cleaning, role, d) && d.state == Left && !d.leaver.NoLeaver?
      && d.established == c.established && d.registered == c.registered && d.connection == c.connection
      && d.joiner == c.joiner && d.recovery == c.recovery && d.loss == c.loss
      && d.cause == (if c.state == Left then c.cause else Some(Leave))
  {
    hide Transition;
    if c.leaver.NoLeaver? {
      if c.state == Left {
        ScheduleLeaveSound(x, cleaning, role, c);
      } else {
        TransitionSound(x, cleaning, role, c, Leave, ChannelFailure(WasLeft));
        TransitionFrame(x, c, Leave, ChannelFailure(WasLeft));
        ScheduleLeaveSound(x, cleaning, role, Transition(x, c, Leave, ChannelFailure(WasLeft)));
      }
    } else {
      assert ReservationOk(x, cleaning, c);
    }
  }

  lemma ObserveSound(x: Context, cleaning: Cleaning, role: Role, c: Channel)
    requires Sound(x, cleaning, role, c) && c.state != Created && !(c.registered && c.cleanupDone)
    ensures Sound(x, cleaning, role, Observe(c))
  {
    hide DeliveryOk;
  }

  lemma ForgetSound(x: Context, cleaning: Cleaning, role: Role, c: Channel)
    requires Sound(x, cleaning, role, c) && c.cleanupDone
    ensures Sound(x, cleaning, role, c.(terminal := true, registered := false))
  {
    hide DeliveryOk;
  }

  lemma ForgetIs(x: Context, cleaning: Cleaning, role: Role, c: Channel)
    requires Sound(x, cleaning, role, c) && c.cleanupDone && c.registered
    ensures Release(x, Observe(c)) == c.(terminal := true, registered := false)
  {
    hide MailOk, OperationsOk, PlaceOk, TasksOk, LossOk, HasPendingSend;
  }

  /** Learning that the server has ended a left membership frees the name once cleanup is done. */
  lemma ObserveReleaseSound(x: Context, cleaning: Cleaning, role: Role, c: Channel)
    requires Sound(x, cleaning, role, c) && c.state == Left
    ensures Sound(x, cleaning, role, Release(x, Observe(c)))
  {
    hide LifeOk, OperationsOk, PlaceOk, TasksOk, ReservationOk, LossOk, MailOk, Release, Observe;
    if c.registered && c.cleanupDone {
      ForgetSound(x, cleaning, role, c);
      ForgetIs(x, cleaning, role, c);
    } else {
      ObserveSound(x, cleaning, role, c);
      ReleaseSound(x, cleaning, role, Observe(c));
    }
  }

  lemma EndLeaveKept(x: Context, cleaning: Cleaning, role: Role, c: Channel)
    requires Sound(x, cleaning, role, c) && c.leaver.CleaningUp? && !HasPendingSend(c.operations)
    requires !c.registered || (c.joinSubmitted && !c.terminal)
    ensures Sound(x, cleaning, role, EndLeave(c)) && Release(x, EndLeave(c)) == EndLeave(c)
  {
    hide DeliveryOk;
  }

  lemma EndLeaveFreed(x: Context, cleaning: Cleaning, role: Role, c: Channel)
    requires Sound(x, cleaning, role, c) && c.leaver.CleaningUp? && !HasPendingSend(c.operations)
    requires c.registered && !(c.joinSubmitted && !c.terminal)
    ensures Sound(x, cleaning, role, Release(x, EndLeave(c)))
  {
    hide DeliveryOk;
  }

  lemma EndLeaveSound(x: Context, cleaning: Cleaning, role: Role, c: Channel)
    requires Sound(x, cleaning, role, c) && c.leaver.CleaningUp? && !HasPendingSend(c.operations)
    ensures Sound(x, cleaning, role, Release(x, EndLeave(c)))
  {
    hide LifeOk, OperationsOk, PlaceOk, TasksOk, ReservationOk, LossOk, MailOk, Release, EndLeave;
    if !c.registered || (c.joinSubmitted && !c.terminal) {
      EndLeaveKept(x, cleaning, role, c);
    } else {
      EndLeaveFreed(x, cleaning, role, c);
    }
  }

  lemma BeginCleanupSound(x: Context, cleaning: Cleaning, role: Role, c: Channel)
    requires Sound(x, cleaning, role, c) && c.state == Left
    requires c.leaver.LeaveScheduled? || (c.leaver.AwaitingLeave? && !IsPending(c.operations, c.leaver.ref))
    ensures Sound(x, cleaning, role, BeginCleanup(c))
  {
    hide DeliveryOk;
  }

  lemma ObserveFrame(c: Channel)
    ensures Observe(c).state == c.state && Observe(c).leaver == c.leaver && Observe(c).established == c.established
    ensures Observe(c).leftBy == c.leftBy
  {
  }

  lemma SubmitLeaveSound(x: Context, cleaning: Cleaning, role: Role, c: Channel)
    requires Sound(x, cleaning, role, c) && c.leaver.LeaveScheduled? && SendsLeave(x, c) && c.unsubscribed.Pending?
    ensures Sound(x.(refs := x.refs + 1), cleaning, role, SubmitLeave(x, c, c.connection.value))
  {
  }

  lemma UnsentLeaveSound(x: Context, cleaning: Cleaning, role: Role, c: Channel)
    requires Sound(x, cleaning, role, c) && c.leaver.LeaveScheduled?
    ensures Sound(x.(refs := x.refs + 1), cleaning, role, BeginCleanup(WithLeaveRef(x, c)))
  {
  }

  lemma RunLeaveSound(x: Context, cleaning: Cleaning, role: Role, c: Channel)
    requires Sound(x, cleaning, role, c) && c.leaver.LeaveScheduled? && c.state == Left && !c.cleanupDone
    ensures Sound(if SendsLeave(x, c) then x.(refs := x.refs + 1) else x, cleaning, role, RunLeave(x, c))
  {
    hide LifeOk, OperationsOk, PlaceOk, TasksOk, ReservationOk, LossOk, MailOk, BeginCleanup, SubmitLeave, WithLeaveRef, Observe;
    if SendsLeave(x, c) && c.unsubscribed.Pending? {
      SubmitLeaveSound(x, cleaning, role, c);
    } else if SendsLeave(x, c) {
      UnsentLeaveSound(x, cleaning, role, c);
    } else if c.connection != x.connection || x.connection.None? {
      ObserveSound(x, cleaning, role, c);
      ObserveFrame(c);
      BeginCleanupSound(x, cleaning, role, Observe(c));
    } else {
      BeginCleanupSound(x, cleaning, role, c);
    }
  }

  // Joining

  lemma AcceptSound(x: Context, cleaning: Cleaning, role: Role, c: Channel)
    requires ContextOk(x) && Sound(x, cleaning, role, c)
    requires c.ready.Pending? && !c.leaveRequested && !x.shutdown
    requires c.registered && OnCurrentConnection(x, c) && x.routing
    ensures Sound(x, cleaning, role, Accept(Install(c)))
  {
    hide DeliveryOk;
    InstallDelivers(c.mail, x.queueLimit, c.joinRef, c.installed);
  }

  lemma InstallSound(x: Context, cleaning: Cleaning, role: Role, c: Channel)
    requires Sound(x, cleaning, role, c) && c.registered && c.ready.Pending?
    ensures Sound(x, cleaning, role, Transition(x, Install(c), Configuration, ChannelFailure(HookFailed)))
  {
    hide DeliveryOk;
    InstallDelivers(c.mail, x.queueLimit, c.joinRef, c.installed);
  }

  /** `_restart_topic` and a submitted join, by the only task that restarts the channel. */
  lemma RejoinSound(x: Context, cleaning: Cleaning, role: Role, role': Role, c: Channel, g: nat, recovery: Recovery)
    requires Sound(x, cleaning, role, c)
    requires c.state == Rejoining && !c.ready.Pending? && c.joiner.None? && g == x.generation && x.connection.Some?
    requires role != Removes && !role.Rejoins? && role' != Removes
    requires || (recovery == AwaitingRejoin(g, x.refs + 1) && Recovers(c) && role' == role && role == Uninvolved)
             || (recovery == NoRecovery && role' == Rejoins(x.refs + 1))
    ensures Sound(x.(refs := x.refs + 1), cleaning, role', Rejoin(x, c, g, true).(recovery := recovery))
  {
    DrainDelivers(c.mail, x.queueLimit, c.joinRef, x.refs + 1, c.installed);
  }

  /** The join params could not be resolved: the restarted channel is LEFT at once. */
  function Refused(x: Context, c: Channel, g: nat): Channel {
    c.(generation := g, connection := x.connection, state := Left, cause := Some(Configuration),
       leaveRequested := true, leftBy := Some((Configuration, ChannelFailure(BadParams))),
       joinSubmitted := false, terminal := false, restartRequested := false, joinRef := x.refs + 1,
       ready := Failed(ChannelFailure(BadParams)), pushes := {}, mail := Drain(c.mail), processor := WaitingForMessage)
  }

  lemma RejoinIsRefused(x: Context, c: Channel, g: nat)
    requires c.state == Rejoining && c.leftBy.None? && c.pushes == {} && x.refs + 1 !in c.operations
    ensures Rejoin(x, c, g, false) == Refused(x, c, g)
  {
    assert FailOutcomes(c.operations, {}, ChannelFailure(BadParams)) == c.operations;
  }

  lemma RejoinRefusedSound(x: Context, cleaning: Cleaning, role: Role, c: Channel, g: nat)
    requires Sound(x, cleaning, role, c)
    requires c.state == Rejoining && !c.ready.Pending? && c.joiner.None? && g == x.generation && x.connection.Some?
    requires role == Uninvolved && !c.recovery.AwaitingRejoin?
    ensures Sound(x.(refs := x.refs + 1), cleaning, role, Refused(x, c, g))
    ensures Rejoin(x, c, g, false) == Refused(x, c, g)
  {
    DrainDelivers(c.mail, x.queueLimit, c.joinRef, x.refs + 1, c.installed);
    hide Rejoin;
    RejoinIsRefused(x, c, g);
  }

  lemma AdmitSound(x: Context, cleaning: Cleaning, role: Role, c: Channel)
    requires ContextOk(x) && Sound(x, cleaning, role, c) && c.state == Created && IsConnected(x)
    ensures Sound(x.(refs := x.refs + 1), cleaning, role, SubmitJoin(x, Admit(x, c), true).(joiner := Some(x.refs + 1)))
  {
  }

  lemma AdmitRefusedSound(x: Context, cleaning: Cleaning, role: Role, c: Channel)
    requires ContextOk(x) && Sound(x, cleaning, role, c) && c.state == Created && IsConnected(x)
    ensures Sound(x.(refs := x.refs + 1), cleaning, role, SubmitJoin(x, Admit(x, c), false))
  {
  }

  lemma AdmitLeftSound(x: Context, cleaning: Cleaning, role: Role, c: Channel)
    requires ContextOk(x) && Sound(x, cleaning, role, c) && c.state == Created && IsConnected(x)
    ensures Sound(x.(refs := x.refs + 1), cleaning, role, Transition(x, Admit(x, c), Leave, ChannelFailure(WasLeft)))
  {
  }

  // Sending

  lemma StartSendSound(x: Context, cleaning: Cleaning, role: Role, c: Channel, r: Ref)
    requires ContextOk(x) && Sound(x, cleaning, role, c)
    requires r in c.operations && c.operations[r].send == Scheduled && Submits(x, c, r)
    ensures Sound(x, cleaning, role, StartSend(x, c, r))
  {
    hide DeliveryOk;
  }

  lemma FinishSendSound(x: Context, cleaning: Cleaning, role: Role, c: Channel, r: Ref)
    requires Sound(x, cleaning, role, c) && r in c.operations
    ensures Sound(x, cleaning, role, FinishSend(c, r))
  {
    hide DeliveryOk;
  }

  // Queueing

  lemma MailSound(x: Context, cleaning: Cleaning, role: Role, c: Channel, m: Mailbox, processor: Processor)
    requires Sound(x, cleaning, role, c) && c.state != Created && DeliveryOk(m, x.queueLimit, c.joinRef, c.installed)
    ensures Sound(x, cleaning, role, c.(mail := m, processor := processor))
  {
    hide DeliveryOk;
  }

  lemma KeepSound(x: Context, cleaning: Cleaning, role: Role, c: Channel, m: Message)
    requires Sound(x, cleaning, role, c) && c.state == Joined
    ensures Sound(x, cleaning, role, Keep(x, c, m))
  {
    EnqueueDelivers(c.mail, x.queueLimit, c.joinRef, m.joinRef, c.installed);
    hide DeliveryOk;
    MailSound(x, cleaning, role, c, Enqueue(c.mail, c.joinRef, m.joinRef, x.queueLimit), c.processor);
    hide Sound, Enqueue;
  }

  lemma TakeMessageSound(x: Context, cleaning: Cleaning, role: Role, c: Channel, handled: bool)
    requires Sound(x, cleaning, role, c) && c.mail.queue != [] && c.state != Created
    ensures Sound(x, cleaning, role, TakeMessage(x, c, handled))
  {
    SkipDelivers(c.mail, x.queueLimit, c.joinRef, c.installed);
    if c.state == Joined {
      DispatchDelivers(c.mail, x.queueLimit, c.joinRef, c.installed);
    }
    hide Sound, DeliveryOk, Skip, Dispatch;
    MailSound(x, cleaning, role, c, Skip(c.mail), ProcessorEnded);
    MailSound(x, cleaning, role, c, Skip(c.mail), LoopTest(c));
    if c.state == Joined {
      MailSound(x, cleaning, role, c, Dispatch(c.mail, c.joinRef), HandlingMessage);
      MailSound(x, cleaning, role, c, Dispatch(c.mail, c.joinRef), LoopTest(c));
    }
  }
}
