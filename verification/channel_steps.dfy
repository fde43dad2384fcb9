/** Every single-channel step keeps `Sound`. */
module ChannelSteps {
  import opened Wrappers
  import opened Channels
  import opened ChannelProtocol
  import opened ChannelInvariant
  import opened ChannelHandlers

  function After(x: Context, c: Channel, a: Action): Context {
    if Generates(x, c, a) then x.(refs := x.refs + 1) else x
  }

  // Calls of the application

  lemma JoinCallFrame(x: Context, cleaning: Cleaning, role: Role, c: Channel)
    requires Sound(x, cleaning, role, c) && c.state == Created
    ensures
      var left := Transition(x, Admit(x, c), Leave, ChannelFailure(WasLeft));
      var refused := SubmitJoin(x, Admit(x, c), false);
      && left.state == refused.state == Left && left.leaver == refused.leaver == NoLeaver
      && Admit(x, c).state == Joining && Admit(x, c).leaver == NoLeaver
  {
  }

  lemma JoinCallSound(x: Context, cleaning: Cleaning, role: Role, c: Channel, hookSync: bool, paramsOk: bool)
    requires ContextOk(x) && Sound(x, cleaning, role, c) && c.state == Created && IsConnected(x)
    ensures Sound(x.(refs := x.refs + 1), cleaning, role, BeginJoin(x, c, hookSync, paramsOk))
  {
    hide Sound, Transition, SubmitJoin, Admit;
    JoinCallFrame(x, cleaning, role, c);
    AdmitSound(x, cleaning, role, c);
    AdmitRefusedSound(x, cleaning, role, c);
    AdmitLeftSound(x, cleaning, role, c);
    var y := x.(refs := x.refs + 1);
    ScheduleLeaveSound(y, cleaning, role, Transition(x, Admit(x, c), Leave, ChannelFailure(WasLeft)));
    ScheduleLeaveSound(y, cleaning, role, SubmitJoin(x, Admit(x, c), false));
  }

  lemma WithoutJoinerSound(x: Context, cleaning: Cleaning, role: Role, c: Channel)
    requires Sound(x, cleaning, role, c) && c.state != Joining && c.state != Created
    ensures Sound(x, cleaning, role, WithoutJoiner(c))
  {
    hide DeliveryOk;
  }

  lemma JoinFailedSound(x: Context, cleaning: Cleaning, role: Role, c: Channel, failure: Failure)
    requires Sound(x, cleaning, role, c) && CauseKept(role, c) && JoinWaiter(role, c) && c.state != Created
    ensures Sound(x, cleaning, role, JoinFailed(x, c, failure)) && JoinFailed(x, c, failure).state != Created
  {
    hide Sound, Transition;
    TransitionFrame(x, c, Configuration, failure);
    TransitionFrame(x, c, Timeout, ChannelFailure(DeadlineExpired));
    if failure.ChannelFailure? && (c.cause.None? || c.cause == Some(Accepted) || c.cause == Some(Timeout)) {
      TransitionSound(x, cleaning, role, c, Configuration, failure);
    } else if failure.TimeoutFailure? {
      TransitionSound(x, cleaning, role, c, Timeout, ChannelFailure(DeadlineExpired));
    }
  }

  // Forgetting the caller commutes with what the caller does on its way out.

  lemma TransitionCommutes(x: Context, c: Channel, cause: Cause, failure: Failure)
    ensures Transition(x, WithoutJoiner(c), cause, failure) == WithoutJoiner(Transition(x, c, cause, failure))
  {
  }

  lemma ScheduleCommutes(c: Channel)
    ensures WithoutJoiner(c.(leaver := LeaveScheduled)) == WithoutJoiner(c).(leaver := LeaveScheduled)
    ensures WithoutJoiner(c).state == c.state && WithoutJoiner(c).leaver == c.leaver
  {
  }

  lemma StartLeaveCommutes(x: Context, c: Channel)
    ensures StartLeave(x, WithoutJoiner(c)) == WithoutJoiner(StartLeave(x, c))
  {
    hide Transition, WithoutJoiner;
    ScheduleCommutes(c);
    ScheduleCommutes(Transition(x, c, Leave, ChannelFailure(WasLeft)));
    TransitionCommutes(x, c, Leave, ChannelFailure(WasLeft));
  }

  lemma JoinFailedCommutes(x: Context, c: Channel, failure: Failure)
    ensures JoinFailed(x, WithoutJoiner(c), failure) == WithoutJoiner(JoinFailed(x, c, failure))
  {
    hide Transition;
    TransitionCommutes(x, c, Configuration, failure);
    TransitionCommutes(x, c, Timeout, ChannelFailure(DeadlineExpired));

  }

  lemma SettleCommutes(c: Channel, r: Ref, f: Future)
    ensures Settle(WithoutJoiner(c), r, f) == WithoutJoiner(Settle(c, r, f))
    ensures Settle(c, r, f).state == c.state
  {
  }

  lemma ResumeJoinerSound(x: Context, cleaning: Cleaning, role: Role, c: Channel, outcome: Future)
    requires Sound(x, cleaning, role, c) && CauseKept(role, c) && c.joiner.Some? && c.state != Created
    requires outcome.Succeeded? ==> c.state != Joining
    requires !outcome.Pending?
    ensures Sound(x, cleaning, role, ResumeJoiner(x, c, outcome))
  {
    hide Sound, JoinFailed, StartLeave, WithoutJoiner;
    if outcome.Failed? {
      JoinFailedSound(x, cleaning, role, c, outcome.failure);
      var d := JoinFailed(x, c, outcome.failure);
      JoinFailedCommutes(x, c, outcome.failure);
      StartLeaveCommutes(x, d);
      StartLeaveSound(x, cleaning, role, d);
      WithoutJoinerSound(x, cleaning, role, StartLeave(x, d));
    } else {
      WithoutJoinerSound(x, cleaning, role, c);
    }
  }

  lemma CancelJoinerSound(x: Context, cleaning: Cleaning, role: Role, c: Channel, r: Ref)
    requires Sound(x, cleaning, role, c) && c.state != Created
    ensures Sound(x, cleaning, role, StartLeave(x, Settle(WithoutJoiner(c), r, Failed(CallerCancelled))))
  {
    hide Sound, Settle, StartLeave, WithoutJoiner;
    var f := Failed(CallerCancelled);
    SettleCommutes(c, r, f);
    StartLeaveCommutes(x, Settle(c, r, f));
    SettleSound(x, cleaning, role, c, r, f);
    StartLeaveSound(x, cleaning, role, Settle(c, r, f));
    WithoutJoinerSound(x, cleaning, role, StartLeave(x, Settle(c, r, f)));
  }

  lemma LeaveNewSound(x: Context, cleaning: Cleaning, role: Role, c: Channel)
    requires Sound(x, cleaning, role, c) && c.state == Created
    ensures Sound(x, cleaning, role, BeginLeave(x, c))
  {
  }

  lemma BeginLeaveSound(x: Context, cleaning: Cleaning, role: Role, c: Channel)
    requires Sound(x, cleaning, role, c)
    ensures Sound(x, cleaning, role, BeginLeave(x, c))
  {
    hide Sound, StartLeave;
    if c.state == Created {
      LeaveNewSound(x, cleaning, role, c);
    } else {
      StartLeaveSound(x, cleaning, role, c);
    }
  }

  lemma PushCallSound(x: Context, cleaning: Cleaning, role: Role, c: Channel)
    requires ContextOk(x) && Sound(x, cleaning, role, c) && ChannelJoined(x, c)
    ensures c.connection.Some?
    ensures Sound(x.(refs := x.refs + 1), cleaning, role, SubmitPush(x, c, c.connection.value))
  {
  }

  lemma NothingToSettle(operations: map<Ref, Operation>, r: Ref, f: Future)
    requires !IsPending(operations, r)
    ensures SettleOutcome(operations, r, f) == operations
  {
  }

  lemma SettleOfPush(c: Channel, r: Ref, f: Future)
    requires r in c.operations && c.operations[r].kind == PushOperation
    ensures Settle(c, r, f) == c.(operations := SettleOutcome(c.operations, r, f))
  {
    hide SettleOutcome;
    if !IsPending(c.operations, r) {
      NothingToSettle(c.operations, r, f);
    }
  }

  lemma SettlePushIs(c: Channel, r: Ref, f: Future)
    requires r in c.operations && c.operations[r].kind == PushOperation && !f.Pending?
    ensures SettlePush(c, r, f) == Settle(c, r, f).(pushes := Settle(c, r, f).pushes - {r})
  {
    hide SettleOutcome, Settle;
    SettleOfPush(c, r, f);
  }

  lemma SettledNotPending(c: Channel, r: Ref, f: Future)
    requires !f.Pending?
    ensures !IsPending(Settle(c, r, f).operations, r)
  {
  }

  lemma SettlePushSound(x: Context, cleaning: Cleaning, role: Role, c: Channel, r: Ref, f: Future)
    requires Sound(x, cleaning, role, c) && r in c.operations && c.operations[r].kind == PushOperation && !f.Pending?
    ensures Sound(x, cleaning, role, SettlePush(c, r, f))
  {
    hide Sound, Settle, SettlePush;
    SettlePushIs(c, r, f);
    SettledNotPending(c, r, f);
    SettleSound(x, cleaning, role, c, r, f);
    DropPushSound(x, cleaning, role, Settle(c, r, f), r);
  }

  // Write tasks

  lemma SendStartsSound(x: Context, cleaning: Cleaning, role: Role, c: Channel, r: Ref)
    requires ContextOk(x) && Sound(x, cleaning, role, c) && r in c.operations && c.operations[r].send == Scheduled
    ensures Sound(x, cleaning, role, StartSend(x, c, r))
  {
    hide Sound, Submits, FinishSend, Settle;
    if Submits(x, c, r) {
      StartSendSound(x, cleaning, role, c, r);
    } else {
      FinishSendSound(x, cleaning, role, c, r);
      SettleSound(x, cleaning, role, FinishSend(c, r), r, Failed(ChannelFailure(NotCurrent)));
    }
  }

  // Server frames

  lemma BackoffSound(x: Context, cleaning: Cleaning, role: Role, c: Channel)
    requires Sound(x, cleaning, role, c) && c.recovery.NoRecovery? && c.state == Rejoining && !c.ready.Pending?
    requires x.connection.Some? && role != Queued && role != Restarting
    ensures Sound(x, cleaning, role, c.(recovery := Backoff(x.generation), recoveryCancelled := false))
  {
    hide DeliveryOk;
  }

  lemma StartRecoverySound(x: Context, cleaning: Cleaning, role: Role, c: Channel)
    requires Sound(x, cleaning, role, c) && (c.state == Rejoining || c.state == Left) && !c.ready.Pending?
    requires role != Queued && role != Restarting
    ensures Sound(x, cleaning, role, StartRecovery(x, c, None))
  {
    hide Sound;
    if c.recovery.NoRecovery? && c.state == Rejoining && x.connection.Some? {
      BackoffSound(x, cleaning, role, c);
    }
  }

  lemma LossSound(x: Context, cleaning: Cleaning, role: Role, c: Channel, loss: Loss)
    requires Sound(x, cleaning, role, c) && c.established && c.leftBy.Some? && LossCause(c.leftBy.value.0)
    ensures Sound(x, cleaning, role, c.(loss := loss))
  {
    hide DeliveryOk;
  }

  lemma LifecycleFacts(x: Context, cleaning: Cleaning, role: Role, c: Channel)
    requires Sound(x, cleaning, role, c) && c.registered && c.state != Created && c.generation == x.generation
    ensures c.state != Left ==> !c.cleanupDone && c.leftBy.None?
    ensures role != Queued && role != Restarting
    ensures c.state == Joining ==> !c.established
  {
  }

  lemma CrashSound(x: Context, cleaning: Cleaning, role: Role, c: Channel)
    requires Sound(x, cleaning, role, c) && Live(c) && role != Queued && role != Restarting
    ensures
      var d := Transition(x, c, Crash, ChannelFailure(Crashed));
      Sound(x, cleaning, role, d) && Sound(x, cleaning, role, StartRecovery(x, d, None))
  {
    hide Sound, Transition, StartRecovery;
    TransitionSound(x, cleaning, role, c, Crash, ChannelFailure(Crashed));
    TransitionFrame(x, c, Crash, ChannelFailure(Crashed));
    StartRecoverySound(x, cleaning, role, Transition(x, c, Crash, ChannelFailure(Crashed)));
  }

  lemma CloseSound(x: Context, cleaning: Cleaning, role: Role, c: Channel)
    requires Sound(x, cleaning, role, c) && Live(c) && c.leftBy.None?
    ensures
      var d := Transition(x, c, Close, ChannelFailure(ClosedByServer));
      && Sound(x, cleaning, role, d) && d.established == c.established
      && (c.established ==> Sound(x, cleaning, role, StartLoss(x, d, ChannelFailure(ClosedByServer))))
  {
    hide Sound, Transition;
    TransitionSound(x, cleaning, role, c, Close, ChannelFailure(ClosedByServer));
    TransitionFrame(x, c, Close, ChannelFailure(ClosedByServer));
    if c.established {
      LossSound(x, cleaning, role, Transition(x, c, Close, ChannelFailure(ClosedByServer)), LossScheduled);
    }
  }

  lemma HandleLifecycleSound(x: Context, cleaning: Cleaning, role: Role, c: Channel, m: Message)
    requires Sound(x, cleaning, role, c) && c.registered && c.state != Created
    requires c.generation == x.generation && (m.event.ErrorEvent? || m.event.CloseEvent?)
    ensures Sound(x, cleaning, role, HandleLifecycle(x, c, m))
  {
    hide Sound, Transition, Release, StartRecovery, StartLoss, Observe;
    LifecycleFacts(x, cleaning, role, c);
    TransitionFrame(x, Observe(c), Crash, ChannelFailure(Crashed));
    ObserveFrame(c);
    if c.state == Left {
      ObserveReleaseSound(x, cleaning, role, c);
    } else {
      ObserveSound(x, cleaning, role, c);
      CrashSound(x, cleaning, role, Observe(c));
      CloseSound(x, cleaning, role, Observe(c));
    }
  }

  lemma PendingJoinFacts(x: Context, cleaning: Cleaning, role: Role, c: Channel)
    requires Sound(x, cleaning, role, c) && c.ready.Pending? && c.registered
    ensures (c.state == Joining || c.state == Rejoining) && !c.cleanupDone
  {
  }

  lemma HandleJoinReplySound(x: Context, cleaning: Cleaning, role: Role, c: Channel, body: Body, hookOk: bool)
    requires ContextOk(x) && Sound(x, cleaning, role, c) && c.registered && OnCurrentConnection(x, c) && x.routing
    ensures Sound(x, cleaning, role, HandleJoinReply(x, c, body, hookOk))
  {
    hide LifeOk, OperationsOk, PlaceOk, TasksOk, ReservationOk, LossOk, MailOk, Transition, Release, Accept, Install;
    if c.ready.Pending? && !c.leaveRequested && !x.shutdown {
      PendingJoinFacts(x, cleaning, role, c);
      if !body.isMap {
        TransitionSound(x, cleaning, role, c, Rejected, ChannelFailure(JoinRefused));
      } else if body.status != StatusOk {
        ObserveSound(x, cleaning, role, c);
        TransitionSound(x, cleaning, role, Observe(c), Rejected, ChannelFailure(JoinRefused));
      } else {
        AcceptSound(x, cleaning, role, c);
        InstallSound(x, cleaning, role, c);
      }
    } else if c.state == Left {
      ObserveReleaseSound(x, cleaning, role, c);
      hide Sound, Release, Observe;
    }
  }

  lemma RouteSound(x: Context, cleaning: Cleaning, role: Role, c: Channel, g: nat, m: Message, hookOk: bool)
    requires ContextOk(x) && Sound(x, cleaning, role, c) && c.registered && c.state != Created
    requires g == x.generation ==> x.routing
    ensures Sound(x, cleaning, role, Route(x, c, g, m, hookOk))
  {
    hide Sound, HandleLifecycle, HandleJoinReply, HandleLeaveReply, ResolvePush, Keep;
    PushesFact(x, cleaning, role, c);
    if c.generation == g && OnCurrentConnection(x, c) {
      match m.event
      case ErrorEvent => HandleLifecycleSound(x, cleaning, role, c, m);
      case CloseEvent => HandleLifecycleSound(x, cleaning, role, c, m);
      case ApplicationEvent => if c.state == Joined { KeepSound(x, cleaning, role, c, m); }
      case ReplyEvent(body) =>
        if c.leaveRef.Some? && m.ref == c.leaveRef { HandleLeaveReplySound(x, cleaning, role, c, body); }
        else if m.ref == Some(c.joinRef) { HandleJoinReplySound(x, cleaning, role, c, body, hookOk); }
        else if m.ref.Some? && m.ref.value in c.pushes { ResolvePushSound(x, cleaning, role, c, m.ref.value, body); }
        else if c.state == Joined { KeepSound(x, cleaning, role, c, m); }
    }
  }

  lemma PushesFact(x: Context, cleaning: Cleaning, role: Role, c: Channel)
    requires Sound(x, cleaning, role, c)
    ensures forall r :: r in c.pushes ==> r in c.operations && c.operations[r].kind == PushOperation
  {
  }

  lemma HandleLeaveReplySound(x: Context, cleaning: Cleaning, role: Role, c: Channel, body: Body)
    requires Sound(x, cleaning, role, c) && c.state != Created
    ensures Sound(x, cleaning, role, HandleLeaveReply(c, body))
  {
    hide Sound, SettleUnsubscribed;
    SettleUnsubscribedSound(x, cleaning, role, c, Succeeded);
    SettleUnsubscribedSound(x, cleaning, role, c, Failed(ChannelFailure(LeaveRefused)));
  }

  lemma ResolvePushSound(x: Context, cleaning: Cleaning, role: Role, c: Channel, r: Ref, body: Body)
    requires Sound(x, cleaning, role, c) && r in c.operations && c.operations[r].kind == PushOperation
    ensures Sound(x, cleaning, role, ResolvePush(c, r, body))
  {
    hide Sound, SettlePush;
    SettlePushSound(x, cleaning, role, c, r, Succeeded);
    SettlePushSound(x, cleaning, role, c, r, Failed(ChannelFailure(MalformedReply)));
  }

  // Recovery

  lemma NoRecoverySound(x: Context, cleaning: Cleaning, role: Role, c: Channel)
    requires Sound(x, cleaning, role, c) && !c.ready.Pending?
    ensures Sound(x, cleaning, role, c.(recovery := NoRecovery))
  {
    hide DeliveryOk;
  }

  lemma AbandonSound(x: Context, cleaning: Cleaning, role: Role, c: Channel, abandoned: bool)
    requires Sound(x, cleaning, role, c) && c.state != Created && !c.ready.Pending?
    ensures Sound(x, cleaning, role, c.(recovery := NoRecovery, abandoned := abandoned))
  {
    hide DeliveryOk;
  }

  lemma LoopSound(x: Context, cleaning: Cleaning, role: Role, c: Channel, recovery: Recovery, restart: bool)
    requires Sound(x, cleaning, role, c) && !c.recovery.NoRecovery? && !c.ready.Pending?
    requires recovery == Backoff(c.recovery.generation) || recovery == StoppingProcessor(c.recovery.generation)
    requires c.state == Rejoining || c.state == Left
    ensures Sound(x, cleaning, role, c.(recovery := recovery, restartRequested := restart))
  {
    hide DeliveryOk;
  }

  lemma RecoveryLoopsSound(x: Context, cleaning: Cleaning, role: Role, c: Channel, g: nat)
    requires Sound(x, cleaning, role, c) && !c.recovery.NoRecovery? && !c.ready.Pending?
    requires g == c.recovery.generation && (c.state == Rejoining || c.state == Left)
    ensures Sound(x, cleaning, role, RecoveryLoops(x, c, g))
  {
    hide Sound, CanRecover;
    NoRecoverySound(x, cleaning, role, c);
    LoopSound(x, cleaning, role, c, Backoff(g), c.restartRequested);
  }

  lemma RejectionFacts(x: Context, cleaning: Cleaning, role: Role, c: Channel)
    requires Sound(x, cleaning, role, c) && Rejection(c.cause)
    ensures c.state == Left && c.leftBy.Some? && LossCause(c.leftBy.value.0)
  {
  }

  lemma RecoveryFailedSound(x: Context, cleaning: Cleaning, role: Role, c: Channel, g: nat)
    requires Sound(x, cleaning, role, c) && !c.recovery.NoRecovery? && !c.ready.Pending? && c.established
    requires g == c.recovery.generation && (c.state == Rejoining || c.state == Left)
    ensures Sound(x, cleaning, role, RecoveryFailed(x, c, g))
  {
    hide Sound;
    if Rejection(c.cause) {
      RejectionFacts(x, cleaning, role, c);
      LossSound(x, cleaning, role, c, LossScheduled);
      NoRecoverySound(x, cleaning, role, c.(loss := LossScheduled));
    } else {
      RecoveryLoopsSound(x, cleaning, role, c, g);
    }
  }

  lemma RecoveryFacts(x: Context, cleaning: Cleaning, role: Role, c: Channel)
    requires Sound(x, cleaning, role, c) && !c.recovery.NoRecovery?
    ensures c.state != Created && c.established && role != Queued && role != Restarting
    ensures !c.recovery.AwaitingRejoin? ==> !c.ready.Pending? && (c.state == Rejoining || c.state == Left)
    ensures c.recovery.AwaitingRejoin? ==>
      c.recovery.ref == c.joinRef && c.joinRef in c.operations && (c.ready.Pending? <==> c.operations[c.joinRef].outcome.Pending?)
    ensures c.recovery.AwaitingRejoin? && c.operations[c.joinRef].outcome.Failed? ==> c.state == Rejoining || c.state == Left
    ensures c.recovery.AwaitingRejoin? && c.state == Joined ==> c.ready.Succeeded?
    ensures c.state == Joined || c.state == Rejoining || c.state == Left
    ensures c.recoveryCancelled ==> !c.ready.Pending?
  {
  }

  lemma WakeIs(x: Context, c: Channel)
    requires c.recovery.Backoff? && c.state != Joined
    ensures RecoveryStep(x, c, RecoveryWakes) ==
            if CanRecover(x, c, c.recovery.generation)
            then c.(recovery := StoppingProcessor(c.recovery.generation), restartRequested := true)
            else c.(recovery := NoRecovery)
  {
    hide CanRecover;
  }

  lemma RecoveryWakesSound(x: Context, cleaning: Cleaning, role: Role, c: Channel)
    requires Sound(x, cleaning, role, c) && c.recovery.Backoff?
    ensures Sound(x, cleaning, role, RecoveryStep(x, c, RecoveryWakes))
  {
    hide Sound, CanRecover, RecoveryStep;
    RecoveryFacts(x, cleaning, role, c);
    WakeIs(x, c);
    NoRecoverySound(x, cleaning, role, c);
    LoopSound(x, cleaning, role, c, StoppingProcessor(c.recovery.generation), true);
  }

  lemma RestartFacts(x: Context, cleaning: Cleaning, role: Role, c: Channel)
    requires Sound(x, cleaning, role, c)
    requires Recovers(c) && ShouldRejoin(c) && c.recovery.StoppingProcessor? && !role.Rejoins?
    ensures c.state == Rejoining && c.recovery.generation == x.generation && x.connection.Some? && role == Uninvolved
  {
  }

  lemma RefusedFrame(x: Context, c: Channel, g: nat)
    ensures
      var d := Refused(x, c, g);
      && d.recovery == c.recovery && d.state == Left && !d.ready.Pending? && d.established == c.established
      && Rejection(d.cause)
  {
  }

  lemma RecoveryRestartsSound(x: Context, cleaning: Cleaning, role: Role, c: Channel, paramsOk: bool)
    requires ContextOk(x) && Sound(x, cleaning, role, c) && c.recovery.StoppingProcessor?
    requires !c.recoveryCancelled && c.joiner.None? && !role.Rejoins?
    ensures Sound(After(x, c, RecoveryRestarts(paramsOk)), cleaning, role, RecoveryStep(x, c, RecoveryRestarts(paramsOk)))
  {
    hide Sound, Rejoin, Refused, RecoveryLoops, RecoveryFailed;
    RecoveryFacts(x, cleaning, role, c);
    var g := c.recovery.generation;
    if !ShouldRejoin(c) {
      RecoveryLoopsSound(x, cleaning, role, c, g);
    } else {
      RestartFacts(x, cleaning, role, c);
      RejoinSound(x, cleaning, role, role, c, g, AwaitingRejoin(g, x.refs + 1));
      RejoinRefusedSound(x, cleaning, role, c, g);
      RefusedFrame(x, c, g);
      RecoveryFailedSound(x.(refs := x.refs + 1), cleaning, role, Refused(x, c, g), g);
      RecoveryFailedContext(x, Refused(x, c, g), g);
    }
  }

  /** Generating a ref does not change what the failed recovery does. */
  lemma RecoveryFailedContext(x: Context, c: Channel, g: nat)
    requires Rejection(c.cause) && c.state == Left && c.established
    ensures RecoveryFailed(x.(refs := x.refs + 1), c, g) == RecoveryFailed(x, c, g)
  {
  }

  lemma JoinFailedFrame(x: Context, c: Channel, failure: Failure)
    requires c.state == Rejoining || c.state == Left
    requires !c.ready.Pending?
    ensures
      var d := JoinFailed(x, c, failure);
      && d.recovery == c.recovery && !d.ready.Pending? && d.established == c.established
      && (d.state == Rejoining || d.state == Left)
  {
    hide Transition;
    TransitionFrame(x, c, Configuration, failure);
    TransitionFrame(x, c, Timeout, ChannelFailure(DeadlineExpired));
  }

  lemma RecoveryResumesSound(x: Context, cleaning: Cleaning, role: Role, c: Channel)
    requires Sound(x, cleaning, role, c) && CauseKept(role, c)
    requires c.recovery.AwaitingRejoin? && OutcomeDone(c, c.recovery.ref)
    ensures Sound(x, cleaning, role, RecoveryStep(x, c, RecoveryResumes))
  {
    hide Sound, RecoveryLoops, JoinFailed, RecoveryFailed, CauseKept;
    RecoveryFacts(x, cleaning, role, c);
    var g := c.recovery.generation;
    match c.operations[c.recovery.ref].outcome
    case Succeeded =>
      if c.ready.Succeeded? {
        NoRecoverySound(x, cleaning, role, c);
      } else {
        RecoveryLoopsSound(x, cleaning, role, c, g);
      }
    case Failed(failure) =>
      JoinFailedSound(x, cleaning, role, c, failure);
      JoinFailedFrame(x, c, failure);
      RecoveryFailedSound(x, cleaning, role, JoinFailed(x, c, failure), g);
  }

  lemma RecoveryCancelledSound(x: Context, cleaning: Cleaning, role: Role, c: Channel)
    requires Sound(x, cleaning, role, c) && !c.recovery.NoRecovery? && c.recoveryCancelled
    ensures Sound(x, cleaning, role, Act(x, c, RecoveryCancelled))
  {
    hide Sound;
    RecoveryFacts(x, cleaning, role, c);
    AbandonSound(x, cleaning, role, c, Act(x, c, RecoveryCancelled).abandoned);
  }

  // Leaving and losing

  lemma StartUnregisterSound(x: Context, cleaning: Cleaning, role: Role, c: Channel)
    requires Sound(x, cleaning, role, c) && c.loss.LossScheduled?
    ensures Sound(x, cleaning, role, StartUnregister(x, c))
  {
    hide Sound, StartLeave;
    LossFacts(x, cleaning, role, c);
    if c.registered {
      StartLeaveSound(x, cleaning, role, c);
      StartLeaveKeepsCause(x, c);
      LossSound(x, cleaning, role, StartLeave(x, c), LossUnregistering);
    } else {
      LossSound(x, cleaning, role, c, LossDone);
    }
  }

  lemma LossFacts(x: Context, cleaning: Cleaning, role: Role, c: Channel)
    requires Sound(x, cleaning, role, c) && !c.loss.NoLoss?
    ensures c.state == Left && c.established && c.leftBy.Some? && LossCause(c.leftBy.value.0)
  {
  }

  lemma StartLeaveKeepsCause(x: Context, c: Channel)
    requires c.state == Left
    ensures StartLeave(x, c).leftBy == c.leftBy
  {
  }

  lemma ReportLossSound(x: Context, cleaning: Cleaning, role: Role, c: Channel)
    requires Sound(x, cleaning, role, c) && c.loss.LossReporting? && !c.lossReported
    ensures Sound(x, cleaning, role, ReportLoss(c))
  {
    hide DeliveryOk;
  }

  lemma HandlersDoneSound(x: Context, cleaning: Cleaning, role: Role, c: Channel, processor: Processor)
    requires Sound(x, cleaning, role, c) && c.state != Created
    ensures Sound(x, cleaning, role, c.(processor := processor))
  {
    hide DeliveryOk;
  }

  lemma LeaverFacts(x: Context, cleaning: Cleaning, role: Role, c: Channel)
    requires Sound(x, cleaning, role, c) && !c.leaver.NoLeaver?
    ensures c.state == Left && (c.cleanupDone <==> c.leaver.LeaverDone?)
  {
  }

  lemma CreatedFacts(x: Context, cleaning: Cleaning, role: Role, c: Channel)
    requires Sound(x, cleaning, role, c)
    requires || c.registered || c.joiner.Some? || c.mail.queue != [] || !c.processor.NoProcessor?
    ensures c.state != Created
  {
  }

  lemma JoinerFacts(x: Context, cleaning: Cleaning, role: Role, c: Channel)
    requires Sound(x, cleaning, role, c) && c.joiner.Some? && OutcomeDone(c, c.joiner.value)
    ensures c.operations[c.joiner.value].outcome.Succeeded? ==> c.state != Joining
  {
  }

  lemma ActSound(x: Context, cleaning: Cleaning, role: Role, c: Channel, a: Action)
    requires ContextOk(x) && Sound(x, cleaning, role, c) && CauseKept(role, c) && ActionEnabled(x, role, c, a)
    ensures Sound(After(x, c, a), cleaning, role, Act(x, c, a))
  {
    hide ContextOk, Sound, CauseKept, BeginJoin, ResumeJoiner, StartLeave, Settle, SettlePush, WithoutJoiner, BeginLeave, StartSend, Route,
      RecoveryStep, StartUnregister, RunLeave, BeginCleanup, Release, TakeMessage, LoopTest, SettleOutcome, FinishSend, ChannelJoined, SubmitPush;
    match a
    case JoinCall(hookSync, paramsOk) => JoinCallSound(x, cleaning, role, c, hookSync, paramsOk);
    case JoinerResumes =>
      CreatedFacts(x, cleaning, role, c);
      JoinerFacts(x, cleaning, role, c);
      ResumeJoinerSound(x, cleaning, role, c, c.operations[c.joiner.value].outcome);
    case JoinerCancelled =>
      CreatedFacts(x, cleaning, role, c);
      CancelJoinerSound(x, cleaning, role, c, c.joiner.value);
    case LeaveCall => BeginLeaveSound(x, cleaning, role, c);
    case PushCall => PushCallSound(x, cleaning, role, c);
    case PushReturns(r) => DropPushSound(x, cleaning, role, c, r);
    case PushCancelled(r) => SettlePushSound(x, cleaning, role, c, r, Failed(CallerCancelled));
    case SendStarts(r) => SendStartsSound(x, cleaning, role, c, r);
    case WriteCompletes(r) => FinishSendSound(x, cleaning, role, c, r);
    case Receive(g, m, hookOk) =>
      CreatedFacts(x, cleaning, role, c);
      RouteSound(x, cleaning, role, c, g, m, hookOk);
    case RecoveryWakes => RecoveryWakesSound(x, cleaning, role, c);
    case RecoveryRestarts(paramsOk) => RecoveryRestartsSound(x, cleaning, role, c, paramsOk);
    case RecoveryResumes => RecoveryResumesSound(x, cleaning, role, c);
    case RecoveryCancelled => RecoveryCancelledSound(x, cleaning, role, c);
    case LossStarts => StartUnregisterSound(x, cleaning, role, c);
    case LossUnregistered =>
      LossFacts(x, cleaning, role, c);
      LossSound(x, cleaning, role, c, LossReporting);
    case LossReported =>
      LossFacts(x, cleaning, role, c);
      LossSound(x, cleaning, role, c, LossDone);
      if !c.lossReported { ReportLossSound(x, cleaning, role, c); }
    case LeaveStarts =>
      LeaverFacts(x, cleaning, role, c);
      RunLeaveSound(x, cleaning, role, c);
    case LeaveAnswered =>
      LeaverFacts(x, cleaning, role, c);
      BeginCleanupSound(x, cleaning, role, c);
    case LeaveCleansUp => EndLeaveSound(x, cleaning, role, c);
    case ProcessorTakes(handled) =>
      CreatedFacts(x, cleaning, role, c);
      TakeMessageSound(x, cleaning, role, c, handled);
    case HandlersDone =>
      CreatedFacts(x, cleaning, role, c);
      HandlersDoneSound(x, cleaning, role, c, LoopTest(c));
  }
}
