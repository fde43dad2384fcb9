/** Every single-channel step keeps `Attended`: somebody owns what happens next. */
module ChannelAttended {
  import opened Wrappers
  import opened Channels
  import opened ChannelProtocol
  import opened ChannelInvariant
  import opened ChannelHandlers
  import opened ChannelSteps
  import opened Mailboxes

  /** The facts about one channel that ownership arguments use. */
  lemma Facts(x: Context, cleaning: Cleaning, role: Role, c: Channel)
    requires Sound(x, cleaning, role, c)
    ensures !c.leaver.NoLeaver? ==> c.state == Left
    ensures c.joiner.Some? ==>
      && c.joiner.value == c.joinRef && c.joinRef in c.operations && !c.recovery.AwaitingRejoin? && !role.Rejoins?
      && (c.established <==> c.operations[c.joinRef].outcome.Succeeded?)
    ensures !c.recovery.NoRecovery? ==> c.established && role != Queued && role != Restarting
    ensures !c.recovery.NoRecovery? && c.recoveryCancelled ==> x.connection.None? || c.state == Left
    ensures Recovers(c) && c.registered ==> c.recovery.generation == x.generation && x.connection.Some?
    ensures c.recovery.AwaitingRejoin? || role.Rejoins? ==> c.joinRef in c.operations
    ensures c.recovery.AwaitingRejoin? ==> c.recovery.ref == c.joinRef && !role.Rejoins? && role != Removes
    ensures c.recovery.Backoff? || c.recovery.StoppingProcessor? ==> c.state == Rejoining || c.state == Left
    ensures Rejection(c.cause) ==> c.state == Left
    ensures Live(c) ==> c.registered && !x.shutdown && c.leaver.NoLeaver?
    ensures c.state == Joining ==> c.joiner == Some(c.joinRef) && !c.established
    ensures c.state == Rejoining || c.state == Joined ==> c.established
    ensures c.state == Left <==> c.leaveRequested
    ensures c.ready.Succeeded? <==> c.state == Joined
    ensures c.state == Joined ==> c.joinRef in c.operations && c.operations[c.joinRef].outcome.Succeeded?
    ensures c.ready.Pending? && c.registered ==>
      && c.joinRef in c.operations && c.operations[c.joinRef].outcome.Pending?
      && (c.state == Joining || (c.state == Rejoining && (c.recovery.AwaitingRejoin? || role.Rejoins?)))
    ensures !c.loss.NoLoss? || role == Removes ==> c.state == Left && c.established
    ensures role == Removes ==> c.joiner.None?
    ensures c.joinRef <= x.refs && forall r :: r in c.operations ==> r <= x.refs
    ensures c.joinRef !in c.pushes && (c.leaveRef.Some? ==> c.leaveRef.value != c.joinRef)
    ensures c.state == Created ==>
      c.joiner.None? && !c.registered && c.cause.None? && c.recovery.NoRecovery? && c.loss.NoLoss? && c.leaver.NoLeaver? && role == Uninvolved
  {
    hide MailOk;
  }

  /** The fields, apart from the outcomes, that `Attended` looks at. */
  predicate SamePlans(c: Channel, d: Channel) {
    && d.state == c.state && d.registered == c.registered && d.leaver == c.leaver && d.abandoned == c.abandoned
    && d.joiner == c.joiner && d.established == c.established && d.loss == c.loss && d.recovery == c.recovery
    && d.recoveryCancelled == c.recoveryCancelled && d.cause == c.cause && d.joinRef == c.joinRef
  }

  /** `Attended` looks only at these fields. */
  lemma SamePosture(x: Context, y: Context, role: Role, c: Channel, d: Channel)
    requires Attended(x, role, c)
    requires y == x.(refs := y.refs)
    requires d.state == c.state && (d.registered ==> c.registered) && (!c.leaver.NoLeaver? ==> !d.leaver.NoLeaver?)
    requires (c.abandoned ==> d.abandoned) && d.joiner == c.joiner && d.established == c.established
    requires (c.loss.LossScheduled? && d.registered && d.leaver.NoLeaver? ==> d.loss.LossScheduled?)
    requires d.recovery == c.recovery && (c.recoveryCancelled == d.recoveryCancelled || d.state == Left)
    requires d.cause == c.cause && d.joinRef == c.joinRef
    requires c.joinRef in c.operations && c.operations[c.joinRef].outcome.Failed? ==>
      c.joinRef in d.operations && d.operations[c.joinRef].outcome == c.operations[c.joinRef].outcome
    requires JoinSucceeded(d) ==> JoinSucceeded(c)
    requires c.loss.NoLoss? ==> d.loss.NoLoss?
    ensures Attended(y, role, d)
  {
  }

  // Calls of the application

  /** A left channel with a leave task and no join waiter needs nothing else. */
  lemma LeavingAttended(x: Context, role: Role, c: Channel)
    requires c.state == Left && !c.leaver.NoLeaver? && !JoinWaiter(role, c) && (role == Removes ==> c.loss.NoLoss?)
    ensures Attended(x, role, c)
  {
  }

  /** A channel that is neither LEFT nor REJOINING needs nobody. */
  lemma WaitingAttended(x: Context, role: Role, c: Channel)
    requires c.state == Created || c.state == Joining || c.state == Joined
    requires !Rejection(c.cause) && role != Removes
    ensures Attended(x, role, c)
  {
  }

  lemma AdmitFrame(x: Context, c: Channel)
    ensures
      var d := Admit(x, c);
      && d.state == Joining && d.leaver == c.leaver && d.joiner == c.joiner && d.recovery == c.recovery && d.cause == c.cause
  {
  }

  lemma SubmitJoinFrame(x: Context, c: Channel)
    requires c.cause.None?
    ensures SubmitJoin(x, c, false) == Transition(x, c, Configuration, ChannelFailure(BadParams))
  {
    hide Transition;
  }

  lemma SubmittedFrame(x: Context, c: Channel)
    ensures SubmitJoin(x, c, true).state == c.state && SubmitJoin(x, c, true).cause == c.cause
  {
    hide JoinFailed;
  }

  lemma BeginJoinAttended(x: Context, cleaning: Cleaning, role: Role, c: Channel, hookSync: bool, paramsOk: bool)
    requires Sound(x, cleaning, role, c) && c.state == Created
    ensures Attended(x.(refs := x.refs + 1), role, BeginJoin(x, c, hookSync, paramsOk))
  {
    hide Sound, Transition, StartLeave, Admit, SubmitJoin, Attended;
    Facts(x, cleaning, role, c);
    AdmitFrame(x, c);
    SubmitJoinFrame(x, Admit(x, c));
    SubmittedFrame(x, Admit(x, c));
    TransitionFrame(x, Admit(x, c), Configuration, ChannelFailure(BadParams));
    StartLeaveFrame(x, Admit(x, c));
    StartLeaveFrame(x, SubmitJoin(x, Admit(x, c), false));
    if hookSync && paramsOk {
      WaitingAttended(x.(refs := x.refs + 1), role, BeginJoin(x, c, true, true));
    } else {
      LeavingAttended(x.(refs := x.refs + 1), role, BeginJoin(x, c, hookSync, paramsOk));
    }
  }

  /** After `_start_leave_task` the leave task exists, whatever happened before. */
  lemma StartLeaveFrame(x: Context, c: Channel)
    requires !c.leaver.NoLeaver? ==> c.state == Left
    ensures
      var d := StartLeave(x, c);
      && d.state == Left && !d.leaver.NoLeaver? && d.joiner == c.joiner && d.recovery == c.recovery
      && d.joinRef == c.joinRef && d.cause == (if c.state == Left then c.cause else Some(Leave))
      && (c.state == Left ==> d.operations == c.operations) && d.loss == c.loss
  {
    hide Transition;
    if c.leaver.NoLeaver? && c.state != Left {
      TransitionFrame(x, c, Leave, ChannelFailure(WasLeft));
    }
  }

  lemma JoinFailedLeaver(x: Context, c: Channel, failure: Failure)
    requires !c.leaver.NoLeaver? ==> c.state == Left && c.leaveRequested
    ensures
      var d := JoinFailed(x, WithoutJoiner(c), failure);
      d.loss == c.loss && (!d.leaver.NoLeaver? ==> d.state == Left) && d.joiner.None? && d.recovery == c.recovery
  {
    hide Transition;
    TransitionFrame(x, WithoutJoiner(c), Configuration, failure);
    TransitionFrame(x, WithoutJoiner(c), Timeout, ChannelFailure(DeadlineExpired));
  }

  lemma FailedJoinerAttended(x: Context, cleaning: Cleaning, role: Role, c: Channel, failure: Failure)
    requires Sound(x, cleaning, role, c) && c.joiner.Some?
    ensures Attended(x, role, StartLeave(x, JoinFailed(x, WithoutJoiner(c), failure)))
  {
    hide Sound, StartLeave, JoinFailed, WithoutJoiner, Attended;
    Facts(x, cleaning, role, c);
    JoinFailedLeaver(x, c, failure);
    StartLeaveFrame(x, JoinFailed(x, WithoutJoiner(c), failure));
    LeavingAttended(x, role, StartLeave(x, JoinFailed(x, WithoutJoiner(c), failure)));
  }

  lemma ResumeJoinerAttended(x: Context, cleaning: Cleaning, role: Role, c: Channel)
    requires Sound(x, cleaning, role, c) && Attended(x, role, c) && c.joiner.Some? && OutcomeDone(c, c.joiner.value)
    ensures Attended(x, role, ResumeJoiner(x, c, c.operations[c.joiner.value].outcome))
  {
    hide Sound, StartLeave, JoinFailed;
    Facts(x, cleaning, role, c);
    if c.operations[c.joiner.value].outcome.Failed? {
      FailedJoinerAttended(x, cleaning, role, c, c.operations[c.joiner.value].outcome.failure);
    }
  }

  lemma SettleFrame(c: Channel, r: Ref, f: Future)
    ensures SamePlans(c, Settle(c, r, f)) && Settle(c, r, f).operations == SettleOutcome(c.operations, r, f)
  {
    hide SettleOutcome;
    if !IsPending(c.operations, r) {
      NothingToSettle(c.operations, r, f);
    }
  }

  lemma CancelJoinerAttended(x: Context, cleaning: Cleaning, role: Role, c: Channel, r: Ref)
    requires Sound(x, cleaning, role, c) && c.joiner.Some?
    ensures Attended(x, role, StartLeave(x, Settle(WithoutJoiner(c), r, Failed(CallerCancelled))))
  {
    hide Sound, StartLeave, Settle;
    Facts(x, cleaning, role, c);
    SettleFrame(WithoutJoiner(c), r, Failed(CallerCancelled));
    StartLeaveFrame(x, Settle(WithoutJoiner(c), r, Failed(CallerCancelled)));
  }

  lemma StartLeaveAttended(x: Context, cleaning: Cleaning, role: Role, c: Channel)
    requires Sound(x, cleaning, role, c) && Attended(x, role, c)
    ensures Attended(x, role, StartLeave(x, c))
  {
    hide Sound, StartLeave;
    Facts(x, cleaning, role, c);
    StartLeaveFrame(x, c);
  }

  lemma BeginLeaveAttended(x: Context, cleaning: Cleaning, role: Role, c: Channel)
    requires Sound(x, cleaning, role, c) && Attended(x, role, c)
    ensures Attended(x, role, BeginLeave(x, c))
  {
    hide Sound, StartLeave;
    Facts(x, cleaning, role, c);
    StartLeaveAttended(x, cleaning, role, c);
  }

  lemma SubmitPushAttended(x: Context, cleaning: Cleaning, role: Role, c: Channel, connection: ConnectionId)
    requires Sound(x, cleaning, role, c) && Attended(x, role, c)
    ensures Attended(x.(refs := x.refs + 1), role, SubmitPush(x, c, connection))
  {
    hide Sound, Attended;
    Facts(x, cleaning, role, c);
    SamePosture(x, x.(refs := x.refs + 1), role, c, SubmitPush(x, c, connection));
  }

  lemma JoinStays(operations: map<Ref, Operation>, r: Ref, f: Future, k: Ref)
    requires r == k ==> !f.Succeeded?
    ensures k in operations && operations[k].outcome.Failed? ==>
      k in SettleOutcome(operations, r, f) && SettleOutcome(operations, r, f)[k] == operations[k]
    ensures k in SettleOutcome(operations, r, f) && SettleOutcome(operations, r, f)[k].outcome.Succeeded? ==>
      k in operations && operations[k].outcome.Succeeded?
  {
  }

  lemma SettleAttended(x: Context, role: Role, c: Channel, r: Ref, f: Future)
    requires Attended(x, role, c) && !f.Succeeded?
    ensures Attended(x, role, Settle(c, r, f))
  {
    hide Attended, Settle, SettleOutcome;
    SettleFrame(c, r, f);
    JoinStays(c.operations, r, f, c.joinRef);
    SamePosture(x, x, role, c, Settle(c, r, f));
  }

  lemma SettlePushFrame(c: Channel, r: Ref, f: Future)
    ensures SamePlans(c, SettlePush(c, r, f)) && SettlePush(c, r, f).operations == SettleOutcome(c.operations, r, f)
  {
  }

  lemma SettlePushAttended(x: Context, role: Role, c: Channel, r: Ref, f: Future)
    requires Attended(x, role, c) && (r == c.joinRef ==> !f.Succeeded?)
    ensures Attended(x, role, SettlePush(c, r, f))
  {
    hide Attended, SettlePush, SettleOutcome;
    SettlePushFrame(c, r, f);
    JoinStays(c.operations, r, f, c.joinRef);
    SamePosture(x, x, role, c, SettlePush(c, r, f));
  }

  lemma FinishSendAttended(x: Context, role: Role, c: Channel, r: Ref)
    requires Attended(x, role, c) && r in c.operations
    ensures Attended(x, role, FinishSend(c, r))
  {
    hide Attended;
    SamePosture(x, x, role, c, FinishSend(c, r));
  }

  lemma StartSendAttended(x: Context, role: Role, c: Channel, r: Ref)
    requires Attended(x, role, c) && r in c.operations
    ensures Attended(x, role, StartSend(x, c, r))
  {
    hide Submits, Settle, Attended, FinishSend;
    FinishSendAttended(x, role, c, r);
    SettleAttended(x, role, FinishSend(c, r), r, Failed(ChannelFailure(NotCurrent)));
    if Submits(x, c, r) {
      SamePosture(x, x, role, c, StartSend(x, c, r));
    }
  }

  // Server frames

  lemma ReleaseFrame(x: Context, c: Channel)
    ensures Release(x, c) == c || Release(x, c) == c.(registered := false)
  {
  }

  lemma ReleaseAttended(x: Context, role: Role, c: Channel)
    requires Attended(x, role, c)
    ensures Attended(x, role, Release(x, Observe(c))) && Attended(x, role, Release(x, c))
  {
    hide Release, Attended;
    ReleaseFrame(x, c);
    ReleaseFrame(x, Observe(c));
    SamePosture(x, x, role, c, Release(x, c));
    SamePosture(x, x, role, c, Release(x, Observe(c)));
  }

  lemma CrashAttended(x: Context, cleaning: Cleaning, role: Role, c: Channel)
    requires Sound(x, cleaning, role, c) && Attended(x, role, c) && Live(c) && OnCurrentConnection(x, c)
    ensures
      var d := Transition(x, Observe(c), Crash, ChannelFailure(Crashed));
      Attended(x, role, if c.established then StartRecovery(x, d, None) else d)
  {
    hide Sound, Transition;
    Facts(x, cleaning, role, c);
    TransitionFrame(x, Observe(c), Crash, ChannelFailure(Crashed));
  }

  lemma CloseAttended(x: Context, cleaning: Cleaning, role: Role, c: Channel)
    requires Sound(x, cleaning, role, c) && Attended(x, role, c) && Live(c)
    ensures
      var d := Transition(x, Observe(c), Close, ChannelFailure(ClosedByServer));
      Attended(x, role, if c.established then StartLoss(x, d, ChannelFailure(ClosedByServer)) else d)
  {
    hide Sound, Transition;
    Facts(x, cleaning, role, c);
    TransitionFrame(x, Observe(c), Close, ChannelFailure(ClosedByServer));
  }

  lemma HandleLifecycleAttended(x: Context, cleaning: Cleaning, role: Role, c: Channel, m: Message)
    requires Sound(x, cleaning, role, c) && Attended(x, role, c) && OnCurrentConnection(x, c) && c.registered && c.state != Created
    ensures Attended(x, role, HandleLifecycle(x, c, m))
  {
    hide Sound, Attended, Transition, Release, StartRecovery, StartLoss, OnCurrentConnection;
    Facts(x, cleaning, role, c);
    ReleaseAttended(x, role, c);
    if c.state != Left {
      CrashAttended(x, cleaning, role, c);
      CloseAttended(x, cleaning, role, c);
    }
  }

  lemma TransitionOutcome(x: Context, c: Channel, cause: Cause, failure: Failure)
    requires IsPending(c.operations, c.joinRef)
    ensures
      var d := Transition(x, c, cause, failure);
      d.joinRef == c.joinRef && c.joinRef in d.operations && d.operations[c.joinRef].outcome == Failed(failure)
  {
  }

  /** A refused join leaves the channel to the waiter whose join was refused. */
  lemma RefusalAttended(x: Context, cleaning: Cleaning, role: Role, c: Channel, cause: Cause, failure: Failure)
    requires Sound(x, cleaning, role, c) && c.registered && c.ready.Pending? && Rejection(Some(cause)) && failure.ChannelFailure?
    ensures Attended(x, role, Transition(x, c, cause, failure))
    ensures Attended(x, role, Transition(x, Observe(c), cause, failure))
    ensures Attended(x, role, Transition(x, Install(c), cause, failure))
  {
    hide Sound, Transition;
    Facts(x, cleaning, role, c);
    TransitionFrame(x, c, cause, failure);
    TransitionFrame(x, Observe(c), cause, failure);
    TransitionFrame(x, Install(c), cause, failure);
    TransitionOutcome(x, c, cause, failure);
    TransitionOutcome(x, Observe(c), cause, failure);
    TransitionOutcome(x, Install(c), cause, failure);
  }

  lemma HandleJoinReplyAttended(x: Context, cleaning: Cleaning, role: Role, c: Channel, body: Body, hookOk: bool)
    requires Sound(x, cleaning, role, c) && Attended(x, role, c) && c.registered
    ensures Attended(x, role, HandleJoinReply(x, c, body, hookOk))
  {
    hide Sound, Transition, Release;
    if !c.ready.Pending? || c.leaveRequested || x.shutdown {
      ReleaseAttended(x, role, c);
    } else {
      RefusalAttended(x, cleaning, role, c, Rejected, ChannelFailure(JoinRefused));
      RefusalAttended(x, cleaning, role, c, Configuration, ChannelFailure(HookFailed));
      Facts(x, cleaning, role, c);
    }
  }

  lemma RouteAttended(x: Context, cleaning: Cleaning, role: Role, c: Channel, g: nat, m: Message, hookOk: bool)
    requires Sound(x, cleaning, role, c) && Attended(x, role, c) && c.registered && c.state != Created
    ensures Attended(x, role, Route(x, c, g, m, hookOk))
  {
    hide Sound, Attended, HandleLifecycle, HandleJoinReply, HandleLeaveReply, ResolvePush, Enqueue, OnCurrentConnection;
    if c.registered && OnCurrentConnection(x, c) {
      HandleLifecycleAttended(x, cleaning, role, c, m);
      SamePosture(x, x, role, c, Keep(x, c, m));
      if m.event.ReplyEvent? {
        HandleJoinReplyAttended(x, cleaning, role, c, m.event.body, hookOk);
        ReplyAttended(x, cleaning, role, c, m.event.body, if m.ref.Some? then m.ref.value else 0);
      }
    }
  }

  lemma ReplyAttended(x: Context, cleaning: Cleaning, role: Role, c: Channel, body: Body, r: Ref)
    requires Sound(x, cleaning, role, c) && Attended(x, role, c)
    ensures Attended(x, role, HandleLeaveReply(c, body))
    ensures r in c.pushes ==> Attended(x, role, ResolvePush(c, r, body))
  {
    hide Sound, Attended, SettlePush, SettleUnsubscribed;
    Facts(x, cleaning, role, c);
    if r in c.pushes {
      SettlePushAttended(x, role, c, r, Succeeded);
    }
    SettlePushAttended(x, role, c, r, Failed(ChannelFailure(MalformedReply)));
    UnsubscribedAttended(x, role, c, Succeeded);
    UnsubscribedAttended(x, role, c, Failed(ChannelFailure(LeaveRefused)));
  }

  lemma UnsubscribedFrame(c: Channel, f: Future)
    ensures SamePlans(c, SettleUnsubscribed(c, f)) && SettleUnsubscribed(c, f).ready == c.ready
  {
    hide SettleLeave;
    if c.unsubscribed.Pending? {
      UnsubscribedPlans(c, f, SettleLeave(c, f));
    }
  }

  lemma UnsubscribedPlans(c: Channel, f: Future, operations: map<Ref, Operation>)
    ensures SamePlans(c, c.(unsubscribed := f, operations := operations))
    ensures c.(unsubscribed := f, operations := operations).ready == c.ready
  {
  }

  lemma UnsubscribedOperations(c: Channel, f: Future)
    ensures SettleUnsubscribed(c, f).operations ==
            if c.unsubscribed.Pending? && c.leaveRef.Some? then SettleOutcome(c.operations, c.leaveRef.value, f)
            else c.operations
  {
    hide SettleOutcome;
  }

  lemma UnsubscribedAttended(x: Context, role: Role, c: Channel, f: Future)
    requires Attended(x, role, c) && (c.leaveRef.Some? ==> c.leaveRef.value != c.joinRef)
    ensures Attended(x, role, SettleUnsubscribed(c, f))
  {
    hide Attended, SettleOutcome, SettleUnsubscribed;
    UnsubscribedFrame(c, f);
    UnsubscribedOperations(c, f);
    if c.leaveRef.Some? {
      JoinStays(c.operations, c.leaveRef.value, f, c.joinRef);
    }
    SamePosture(x, x, role, c, SettleUnsubscribed(c, f));
  }

  // Recovery

  /** The recovery ended, or loops, on a channel whose rejection it does not have to report. */
  lemma LoopsAttended(x: Context, cleaning: Cleaning, role: Role, c: Channel, g: nat)
    requires Sound(x, cleaning, role, c) && Attended(x, role, c)
    requires c.recovery.AwaitingRejoin? ==> !Rejection(c.cause)
    requires !c.recovery.NoRecovery? && g == c.recovery.generation
    ensures Attended(x, role, RecoveryLoops(x, c, g))
  {
    hide Sound;
    Facts(x, cleaning, role, c);
  }

  lemma EndAttended(x: Context, cleaning: Cleaning, role: Role, c: Channel, abandoned: bool)
    requires Sound(x, cleaning, role, c) && Attended(x, role, c)
    requires !c.recovery.NoRecovery? && (c.state == Joined || (c.state != Rejoining || !IsConnected(x)))
    requires c.recovery.AwaitingRejoin? && Rejection(c.cause) ==> abandoned || !c.leaver.NoLeaver?
    requires c.abandoned ==> abandoned
    ensures Attended(x, role, c.(recovery := NoRecovery, abandoned := abandoned))
  {
    hide Sound;
    Facts(x, cleaning, role, c);
  }

  lemma KeepsRecovering(x: Context, role: Role, c: Channel)
    requires Attended(x, role, c) && c.recovery.Backoff?
    ensures Attended(x, role, c.(recovery := StoppingProcessor(c.recovery.generation), restartRequested := true))
  {
  }

  lemma RecoveryWakesAttended(x: Context, cleaning: Cleaning, role: Role, c: Channel)
    requires Sound(x, cleaning, role, c) && Attended(x, role, c) && c.recovery.Backoff? && !c.recoveryCancelled
    ensures Attended(x, role, RecoveryStep(x, c, RecoveryWakes))
  {
    hide Sound, RecoveryStep, Attended;
    Facts(x, cleaning, role, c);
    WakeIs(x, c);
    if CanRecover(x, c, c.recovery.generation) {
      KeepsRecovering(x, role, c);
    } else {
      EndAttended(x, cleaning, role, c, c.abandoned);
    }
  }

  lemma RejoinFrame(x: Context, c: Channel, g: nat)
    requires x.connection.Some?
    ensures
      var d := Rejoin(x, c, g, true);
      && d.state == Rejoining && d.cause.None? && d.joiner == c.joiner && d.recoveryCancelled == c.recoveryCancelled
      && d.joinRef == x.refs + 1 && d.leaver == c.leaver && d.registered == c.registered
  {
    hide JoinFailed;
  }

  lemma RecoveryRestartsAttended(x: Context, cleaning: Cleaning, role: Role, c: Channel, paramsOk: bool)
    requires Sound(x, cleaning, role, c) && Attended(x, role, c) && c.recovery.StoppingProcessor?
    requires !c.recoveryCancelled && c.joiner.None? && !role.Rejoins?
    ensures Attended(After(x, c, RecoveryRestarts(paramsOk)), role, RecoveryStep(x, c, RecoveryRestarts(paramsOk)))
  {
    hide Sound, Rejoin, Refused, RecoveryLoops, RecoveryFailed, Attended, CanRecover;
    Facts(x, cleaning, role, c);
    var g := c.recovery.generation;
    if !ShouldRejoin(c) {
      LoopsAttended(x, cleaning, role, c, g);
    } else {
      RestartFacts(x, cleaning, role, c);
      RejoinRefusedSound(x, cleaning, role, c, g);
      RefusedFrame(x, c, g);
      RefusedAttended(x, role, c, g);
      RejoiningAttended(x, role, c, g);
    }
  }

  lemma RejoiningAttended(x: Context, role: Role, c: Channel, g: nat)
    requires x.connection.Some? && !c.recoveryCancelled && role != Removes
    ensures Attended(x.(refs := x.refs + 1), role,
                     Rejoin(x, c, g, true).(recovery := AwaitingRejoin(g, x.refs + 1)))
  {
    hide Rejoin;
    RejoinFrame(x, c, g);
  }

  lemma RefusedAttended(x: Context, role: Role, c: Channel, g: nat)
    requires c.joiner.None? && !role.Rejoins? && role != Removes && c.established
    ensures Attended(x.(refs := x.refs + 1), role, RecoveryFailed(x, Refused(x, c, g), g))
  {
    hide Transition;
  }

  lemma RecoveryFailedAttended(x: Context, cleaning: Cleaning, role: Role, c: Channel, g: nat)
    requires Sound(x, cleaning, role, c) && Attended(x, role, c)
    requires c.recovery.AwaitingRejoin? && g == c.recovery.generation
    ensures Attended(x, role, RecoveryFailed(x, c, g))
  {
    hide Sound, RecoveryLoops, Transition;
    Facts(x, cleaning, role, c);
    if !Rejection(c.cause) {
      LoopsAttended(x, cleaning, role, c, g);
    }
  }

  /** A rejoin refused on the client's side is reported by the recovery that tried it. */
  lemma ReportedAttended(x: Context, role: Role, c: Channel, g: nat)
    requires c.state == Left && c.established && Rejection(c.cause) && c.joiner.None? && !role.Rejoins? && role != Removes
    ensures Attended(x, role, RecoveryFailed(x, c, g))
  {
    hide Transition, CanRecover;
  }

  lemma ConfigurationAttended(x: Context, cleaning: Cleaning, role: Role, c: Channel, failure: Failure, g: nat)
    requires Sound(x, cleaning, role, c) && c.recovery.AwaitingRejoin?
    ensures Attended(x, role, RecoveryFailed(x, Transition(x, c, Configuration, failure), g))
  {
    hide Sound, Transition, RecoveryFailed, Attended;
    Facts(x, cleaning, role, c);
    TransitionFrame(x, c, Configuration, failure);
    ReportedAttended(x, role, Transition(x, c, Configuration, failure), g);
  }

  /** A rejoin that timed out is tried again. */
  lemma TimeoutAttended(x: Context, cleaning: Cleaning, role: Role, c: Channel, g: nat)
    requires Sound(x, cleaning, role, c) && Attended(x, role, c)
    requires c.recovery.AwaitingRejoin? && g == c.recovery.generation && c.joinRef in c.operations
    requires c.operations[c.joinRef].outcome == Failed(TimeoutFailure)
    ensures Attended(x, role, RecoveryFailed(x, Transition(x, c, Timeout, ChannelFailure(DeadlineExpired)), g))
  {
    hide Sound, Transition;
    Facts(x, cleaning, role, c);
    TransitionFrame(x, c, Timeout, ChannelFailure(DeadlineExpired));
  }

  lemma RecoveryResumesAttended(x: Context, cleaning: Cleaning, role: Role, c: Channel)
    requires Sound(x, cleaning, role, c) && Attended(x, role, c)
    requires c.recovery.AwaitingRejoin? && OutcomeDone(c, c.recovery.ref)
    ensures Attended(x, role, RecoveryStep(x, c, RecoveryResumes))
  {
    hide Sound, Attended, RecoveryLoops, RecoveryFailed, Transition;
    Facts(x, cleaning, role, c);
    var g := c.recovery.generation;
    match c.operations[c.recovery.ref].outcome
    case Succeeded =>
      SucceededFact(x, role, c);
      if c.ready.Succeeded? {
        EndAttended(x, cleaning, role, c, c.abandoned);
      } else {
        LoopsAttended(x, cleaning, role, c, g);
      }
    case Failed(failure) =>
      RecoveryFailedAttended(x, cleaning, role, c, g);
      ConfigurationAttended(x, cleaning, role, c, failure, g);
      if failure.TimeoutFailure? {
        TimeoutAttended(x, cleaning, role, c, g);
      }
  }

  lemma SucceededFact(x: Context, role: Role, c: Channel)
    requires Attended(x, role, c) && JoinWaiter(role, c)
    requires c.joinRef in c.operations && c.operations[c.joinRef].outcome.Succeeded?
    ensures !Rejection(c.cause)
  {
  }

  lemma RecoveryCancelledAttended(x: Context, cleaning: Cleaning, role: Role, c: Channel)
    requires Sound(x, cleaning, role, c) && Attended(x, role, c) && !c.recovery.NoRecovery? && c.recoveryCancelled
    ensures Attended(x, role, Act(x, c, RecoveryCancelled))
  {
    hide Sound, Attended;
    Facts(x, cleaning, role, c);
    RecoveryFacts(x, cleaning, role, c);
    EndAttended(x, cleaning, role, c, Act(x, c, RecoveryCancelled).abandoned);
  }

  // Losing and leaving

  lemma LossStartsAttended(x: Context, cleaning: Cleaning, role: Role, c: Channel)
    requires Sound(x, cleaning, role, c) && Attended(x, role, c) && c.loss.LossScheduled?
    ensures Attended(x, role, StartUnregister(x, c))
  {
    hide Sound, StartLeave;
    Facts(x, cleaning, role, c);
    StartLeaveFrame(x, c);
  }

  lemma LossAttended(x: Context, role: Role, c: Channel, loss: Loss)
    requires Attended(x, role, c) && !c.loss.LossScheduled? && !c.loss.NoLoss?
    ensures Attended(x, role, c.(loss := loss))
  {
    hide Attended;
    SamePosture(x, x, role, c, c.(loss := loss));
  }

  lemma ReportAttended(x: Context, role: Role, c: Channel)
    requires Attended(x, role, c) && !c.loss.LossScheduled? && !c.loss.NoLoss?
    ensures Attended(x, role, ReportLoss(c))
  {
    hide Attended;
    SamePosture(x, x, role, c, ReportLoss(c));
  }

  /** A leave task that runs changes nothing that somebody else waits for. */
  lemma SubmitLeaveAttended(x: Context, cleaning: Cleaning, role: Role, c: Channel, connection: ConnectionId)
    requires Sound(x, cleaning, role, c) && Attended(x, role, c)
    ensures Attended(x.(refs := x.refs + 1), role, SubmitLeave(x, c, connection))
  {
    hide Sound, Attended;
    Facts(x, cleaning, role, c);
    SamePosture(x, x.(refs := x.refs + 1), role, c, SubmitLeave(x, c, connection));
  }

  lemma SameAttended(x: Context, y: Context, role: Role, c: Channel)
    requires Attended(x, role, c) && y == x.(refs := y.refs)
    ensures Attended(y, role, c)
  {
    hide Attended;
    SamePosture(x, y, role, c, c);
  }

  lemma CleanupAttended(x: Context, y: Context, role: Role, c: Channel)
    requires Attended(x, role, c) && c.state == Left && !c.leaver.NoLeaver? && y == x.(refs := y.refs)
    ensures Attended(y, role, BeginCleanup(c))
  {
    hide Attended;
    SamePosture(x, y, role, c, BeginCleanup(c));
  }

  lemma ObserveAttended(x: Context, role: Role, c: Channel)
    requires Attended(x, role, c)
    ensures Attended(x, role, Observe(c))
  {
    hide Attended;
    SamePosture(x, x, role, c, Observe(c));
  }

  lemma LeaveRefAttended(x: Context, role: Role, c: Channel)
    requires Attended(x, role, c)
    ensures Attended(x, role, WithLeaveRef(x, c))
    ensures WithLeaveRef(x, c).state == c.state && WithLeaveRef(x, c).leaver == c.leaver
  {
    hide Attended;
    SamePosture(x, x, role, c, WithLeaveRef(x, c));
  }

  lemma RunLeaveAttended(x: Context, cleaning: Cleaning, role: Role, c: Channel)
    requires Sound(x, cleaning, role, c) && Attended(x, role, c) && c.leaver.LeaveScheduled?
    ensures Attended(After(x, c, LeaveStarts), role, RunLeave(x, c))
  {
    hide Sound, Attended, SubmitLeave, BeginCleanup, WithLeaveRef, Observe;
    Facts(x, cleaning, role, c);
    ObserveAttended(x, role, c);
    LeaveRefAttended(x, role, c);
    ObserveFrame(c);
    if SendsLeave(x, c) {
      SubmitLeaveAttended(x, cleaning, role, c, c.connection.value);
      CleanupAttended(x, x.(refs := x.refs + 1), role, WithLeaveRef(x, c));
    } else {
      CleanupAttended(x, x, role, Observe(c));
      CleanupAttended(x, x, role, c);
    }
  }

  lemma EndLeaveAttended(x: Context, role: Role, c: Channel)
    requires Attended(x, role, c)
    ensures Attended(x, role, EndLeave(c))
  {
    hide Attended;
    SamePosture(x, x, role, c, EndLeave(c));
  }

  lemma FinishCleanupAttended(x: Context, role: Role, c: Channel)
    requires Attended(x, role, c)
    ensures Attended(x, role, FinishCleanup(x, c))
  {
    hide Attended, Release, EndLeave;
    EndLeaveAttended(x, role, c);
    ReleaseAttended(x, role, EndLeave(c));
  }

  // Delivery

  lemma MailAttended(x: Context, role: Role, c: Channel, m: Mailbox, processor: Processor)
    requires Attended(x, role, c)
    ensures Attended(x, role, c.(mail := m, processor := processor))
  {
    hide Attended;
    SamePosture(x, x, role, c, c.(mail := m, processor := processor));
  }

  lemma TakeMessageAttended(x: Context, role: Role, c: Channel, handled: bool)
    requires Attended(x, role, c) && c.mail.queue != []
    ensures Attended(x, role, TakeMessage(x, c, handled))
  {
    hide Attended, Skip, Dispatch, LoopTest, IsStaleJoin, ChannelJoined;
    var p := TakeMessage(x, c, handled).processor;
    MailAttended(x, role, c, Skip(c.mail), p);
    MailAttended(x, role, c, Dispatch(c.mail, c.joinRef), p);
  }

  /** Every step of one channel keeps its promises. */
  lemma ActAttended(x: Context, cleaning: Cleaning, role: Role, c: Channel, a: Action)
    requires Sound(x, cleaning, role, c) && Attended(x, role, c) && ActionEnabled(x, role, c, a)
    ensures Attended(After(x, c, a), role, Act(x, c, a))
  {
    hide Sound, Attended, BeginJoin, ResumeJoiner, StartLeave, Settle, SettlePush, WithoutJoiner, BeginLeave, StartSend, Route,
      RecoveryStep, StartUnregister, RunLeave, BeginCleanup, FinishCleanup, TakeMessage, LoopTest, SettleOutcome, FinishSend,
      ChannelJoined, SubmitPush, ReportLoss;
    match a
    case JoinCall(hookSync, paramsOk) => BeginJoinAttended(x, cleaning, role, c, hookSync, paramsOk);
    case JoinerResumes => ResumeJoinerAttended(x, cleaning, role, c);
    case JoinerCancelled => CancelJoinerAttended(x, cleaning, role, c, c.joiner.value);
    case LeaveCall => BeginLeaveAttended(x, cleaning, role, c);
    case PushCall =>
      JoinedConnection(x, cleaning, role, c);
      SubmitPushAttended(x, cleaning, role, c, c.connection.value);
    case PushReturns(r) => DropPushAttended(x, role, c, r);
    case PushCancelled(r) => SettlePushAttended(x, role, c, r, Failed(CallerCancelled));
    case SendStarts(r) => StartSendAttended(x, role, c, r);
    case WriteCompletes(r) => FinishSendAttended(x, role, c, r);
    case Receive(g, m, hookOk) =>
      CreatedFacts(x, cleaning, role, c);
      RouteAttended(x, cleaning, role, c, g, m, hookOk);
    case RecoveryWakes => RecoveryWakesAttended(x, cleaning, role, c);
    case RecoveryRestarts(paramsOk) => RecoveryRestartsAttended(x, cleaning, role, c, paramsOk);
    case RecoveryResumes => RecoveryResumesAttended(x, cleaning, role, c);
    case RecoveryCancelled => RecoveryCancelledAttended(x, cleaning, role, c);
    case LossStarts => LossStartsAttended(x, cleaning, role, c);
    case LossUnregistered => LossAttended(x, role, c, LossReporting);
    case LossReported => ReportAttended(x, role, c);
    case LeaveStarts => RunLeaveAttended(x, cleaning, role, c);
    case LeaveAnswered =>
      LeaverFacts(x, cleaning, role, c);
      CleanupAttended(x, x, role, c);
    case LeaveCleansUp => FinishCleanupAttended(x, role, c);
    case ProcessorTakes(handled) => TakeMessageAttended(x, role, c, handled);
    case HandlersDone => MailAttended(x, role, c, c.mail, LoopTest(c));
  }

  lemma JoinedConnection(x: Context, cleaning: Cleaning, role: Role, c: Channel)
    requires Sound(x, cleaning, role, c) && ChannelJoined(x, c)
    ensures c.connection.Some? && c.connection == x.connection
  {
  }

  lemma DropPushAttended(x: Context, role: Role, c: Channel, r: Ref)
    requires Attended(x, role, c)
    ensures Attended(x, role, c.(pushes := c.pushes - {r}))
  {
    hide Attended;
    SamePosture(x, x, role, c, c.(pushes := c.pushes - {r}));
  }
}
