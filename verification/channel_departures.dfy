/** What leaving, losing and sending have to do, and what a lost connection or a stop does to each channel. */
module ChannelDepartures {
  import opened Wrappers
  import opened ClientStates
  import opened Channels
  import opened ChannelProtocol
  import opened ChannelInvariant
  import opened ChannelHandlers
  import opened ChannelSteps
  import opened ChannelEffects
  import opened ChannelLosses

  // Leaving

  /** The server may hold a membership that a leave on the live connection ends. */
  predicate OwesLeave(x: Context, c: Channel) {
    && c.joinSubmitted && !c.terminal && c.unsubscribed.Pending?
    && x.state == Connected && x.connection.Some? && c.connection == x.connection
  }

  predicate LeaveStartEffect(x: Context, c: Channel, d: Channel) {
    && d.state == c.state
    && if OwesLeave(x, c) then
         && d.leaver == AwaitingLeave(x.refs + 1) && d.leaveRef == Some(x.refs + 1) && d.unsubscribed.Pending?
         && x.refs + 1 in d.operations
         && d.operations[x.refs + 1] == Fresh(x, LeaveOperation, x.connection.value, c.joinRef)
       else
         && d.leaver == CleaningUp && d.operations == c.operations
         && d.recoveryCancelled == (c.recoveryCancelled || !c.recovery.NoRecovery?)
         && (c.connection != x.connection || x.connection.None? ==> d.terminal)
         && (c.connection == x.connection && x.connection.Some? ==> d.terminal == c.terminal)
  }

  predicate LeaveEffect(x: Context, c: Channel, a: Action, d: Channel) {
    match a
    case LeaveStarts => LeaveStartEffect(x, c, d)
    case LeaveAnswered => d.leaver == CleaningUp && d.recoveryCancelled == (c.recoveryCancelled || !c.recovery.NoRecovery?) && d.state == c.state
    case LeaveCleansUp =>
      && d.cleanupDone && d.leaver == LeaverDone && d.processor == ProcessorEnded && d.state == c.state
      && (d.registered <==> c.registered && c.joinSubmitted && !c.terminal)
    case LossStarts =>
      && d.state == Left && d.leftBy == c.leftBy && d.registered == c.registered
      && d.loss == (if c.registered then LossUnregistering else LossDone)
      && d.leaver == (if c.registered && c.leaver.NoLeaver? then LeaveScheduled else c.leaver)
    case LossUnregistered => d.loss == LossReporting && d.state == c.state
    case LossReported => d.loss == LossDone && d.lossReported && d.lossReports == 1 && d.state == c.state
    case _ => true
  }

  lemma LeavingFacts(x: Context, cleaning: Cleaning, role: Role, c: Channel)
    requires Sound(x, cleaning, role, c) && !c.leaver.NoLeaver?
    ensures c.state == Left
    ensures c.registered ==> c.connection.Some?
    ensures !c.registered && c.joinSubmitted ==> c.terminal
  {
    hide MailOk, OperationsOk, TasksOk, LossOk;
  }

  lemma CleaningFields(c: Channel)
    ensures
      var d := BeginCleanup(c);
      && d.leaver == CleaningUp && d.operations == c.operations && d.state == c.state && d.terminal == c.terminal
      && d.recoveryCancelled == (c.recoveryCancelled || !c.recovery.NoRecovery?)
  {
  }

  lemma ReferredFields(x: Context, c: Channel)
    ensures
      var d := WithLeaveRef(x, c);
      && d.operations == c.operations && d.state == c.state && d.terminal == c.terminal && d.recovery == c.recovery
      && d.recoveryCancelled == c.recoveryCancelled
  {
  }

  lemma ObservedTerminal(c: Channel)
    ensures
      var d := Observe(c);
      && d.operations == c.operations && d.state == c.state && d.terminal && d.recovery == c.recovery
      && d.recoveryCancelled == c.recoveryCancelled
  {
  }

  lemma SubmittedLeaveFields(x: Context, c: Channel, connection: ConnectionId)
    ensures
      var d := SubmitLeave(x, c, connection);
      && d.leaver == AwaitingLeave(x.refs + 1) && d.leaveRef == Some(x.refs + 1) && d.unsubscribed == c.unsubscribed && d.state == c.state
      && x.refs + 1 in d.operations && d.operations[x.refs + 1] == Fresh(x, LeaveOperation, connection, c.joinRef)
  {
  }

  lemma LeaveStartTakesEffect(x: Context, cleaning: Cleaning, role: Role, c: Channel)
    requires Sound(x, cleaning, role, c) && c.leaver.LeaveScheduled?
    ensures LeaveStartEffect(x, c, RunLeave(x, c))
  {
    hide Sound, SubmitLeave, BeginCleanup, WithLeaveRef, Observe;
    LeavingFacts(x, cleaning, role, c);
    if SendsLeave(x, c) {
      SubmittedLeaveFields(x, c, c.connection.value);
      ReferredFields(x, c);
      CleaningFields(WithLeaveRef(x, c));
    } else {
      ObservedTerminal(c);
      CleaningFields(Observe(c));
      CleaningFields(c);
    }
  }

  lemma EndedLeaveFields(c: Channel)
    ensures
      var d := EndLeave(c);
      && d.cleanupDone && d.leaver == LeaverDone && d.processor == ProcessorEnded && d.state == c.state && d.registered == c.registered
      && d.joinSubmitted == c.joinSubmitted && d.terminal == c.terminal && d.operations == c.operations
  {
  }

  lemma ForgottenFields(c: Channel)
    ensures
      var d := c.(registered := false);
      && d.cleanupDone == c.cleanupDone && d.leaver == c.leaver && d.processor == c.processor && d.state == c.state
      && d.terminal == c.terminal && d.leftBy == c.leftBy
  {
  }

  lemma ReleasedFields(x: Context, c: Channel)
    ensures
      var d := Release(x, c);
      && d.cleanupDone == c.cleanupDone && d.leaver == c.leaver && d.processor == c.processor && d.state == c.state
      && d.terminal == c.terminal && d.leftBy == c.leftBy
      && (d.registered <==>
            && c.registered
            && (|| c.state != Left || (!c.cleanupDone && (c.connection == x.connection || c.leaver.NoLeaver?))
                || (c.joinSubmitted && !c.terminal) || HasPendingSend(c.operations)))
  {
    hide HasPendingSend;
    ForgottenFields(c);
    ReleaseIs(x, c);
    hide Release;
  }

  lemma ReleaseIs(x: Context, c: Channel)
    ensures
      var kept := || !c.registered || c.state != Left || (!c.cleanupDone && (c.connection == x.connection || c.leaver.NoLeaver?))
                  || (c.joinSubmitted && !c.terminal) || HasPendingSend(c.operations);
      Release(x, c) == if kept then c else c.(registered := false)
  {
    hide HasPendingSend;
  }

  lemma CleanUpTakesEffect(x: Context, cleaning: Cleaning, role: Role, c: Channel)
    requires Sound(x, cleaning, role, c) && c.leaver.CleaningUp? && !HasPendingSend(c.operations)
    ensures LeaveEffect(x, c, LeaveCleansUp, FinishCleanup(x, c))
  {
    hide Sound, Release, EndLeave, HasPendingSend;
    LeavingFacts(x, cleaning, role, c);
    EndedLeaveFields(c);
    ReleasedFields(x, EndLeave(c));
  }

  lemma LosingFields(c: Channel, loss: Loss)
    ensures
      var d := c.(loss := loss);
      d.state == c.state && d.leftBy == c.leftBy && d.registered == c.registered && d.loss == loss && d.leaver == c.leaver
  {
  }

  lemma LossFacts(x: Context, cleaning: Cleaning, role: Role, c: Channel)
    requires Sound(x, cleaning, role, c) && !c.loss.NoLoss?
    ensures c.state == Left && c.leftBy.Some? && c.lossReports == (if c.lossReported then 1 else 0)
  {
    hide MailOk, OperationsOk, TasksOk, PlaceOk;
  }

  lemma ReportedFields(c: Channel)
    requires c.lossReports == (if c.lossReported then 1 else 0)
    ensures
      var d := ReportLoss(c);
      d.loss == LossDone && d.lossReported && d.lossReports == 1 && d.state == c.state
  {
  }

  lemma UnregisteringTakesEffect(x: Context, cleaning: Cleaning, role: Role, c: Channel)
    requires Sound(x, cleaning, role, c) && c.loss.LossScheduled?
    ensures LeaveEffect(x, c, LossStarts, StartUnregister(x, c))
  {
    hide Sound, StartLeave, Transition;
    LossFacts(x, cleaning, role, c);
    LeftFacts(x, cleaning, role, c);
    StartLeaveLeaves(x, c);
    LosingFields(c, LossDone);
    LosingFields(StartLeave(x, c), LossUnregistering);
  }

  lemma LeaveTaskTakesEffect(x: Context, cleaning: Cleaning, role: Role, c: Channel, a: Action)
    requires Sound(x, cleaning, role, c) && ActionEnabled(x, role, c, a)
    ensures LeaveEffect(x, c, a, Act(x, c, a))
  {
    hide Sound, RecoveryStep, Settle, StartLeave, BeginJoin, ResumeJoiner, BeginLeave, SubmitPush, SettlePush, StartSend, FinishWrite, Route,
      StartUnregister, ReportLoss, RunLeave, BeginCleanup, FinishCleanup, TakeMessage, LoopTest, HasPendingSend, ChannelJoined, LeaveStartEffect;
    match a
    case LeaveStarts => LeaveStartTakesEffect(x, cleaning, role, c);
    case LeaveAnswered => CleaningFields(c);
    case LeaveCleansUp => CleanUpTakesEffect(x, cleaning, role, c);
    case LossStarts => UnregisteringTakesEffect(x, cleaning, role, c);
    case LossUnregistered => LosingFields(c, LossReporting);
    case LossReported =>
      LossFacts(x, cleaning, role, c);
      ReportedFields(c);
    case _ =>
  }

  // Sending

  /** A pending operation's frame is written exactly if the session has not failed; nothing else is ever written. */
  predicate SendEffect(x: Context, c: Channel, r: Ref, d: Channel)
    requires r in c.operations
  {
    var op := c.operations[r];
    && r in d.operations && d.operations[r].kind == op.kind && d.operations[r].connection == op.connection && d.operations[r].epoch == op.epoch
    && d.operations[r].send == (if op.outcome.Pending? && !x.sendFailed then Writing else Finished)
    && d.operations[r].outcome == (if op.outcome.Pending? && x.sendFailed then Failed(ChannelFailure(NotCurrent)) else op.outcome)
    && d.joinSubmitted == (c.joinSubmitted || (op.kind == JoinOperation && op.outcome.Pending? && !x.sendFailed))
  }

  lemma PendingSubmitsUnlessFailed(x: Context, cleaning: Cleaning, role: Role, c: Channel, r: Ref)
    requires Sound(x, cleaning, role, c) && IsPending(c.operations, r)
    ensures Submits(x, c, r) <==> !x.sendFailed
  {
    match c.operations[r].kind
    case JoinOperation => JoinSubmitsUnlessFailed(x, cleaning, role, c, r);
    case PushOperation => PendingPushSubmits(x, cleaning, role, c, r);
    case LeaveOperation => PendingLeaveSubmits(x, cleaning, role, c, r);
  }

  lemma PendingPushSubmits(x: Context, cleaning: Cleaning, role: Role, c: Channel, r: Ref)
    requires Sound(x, cleaning, role, c) && IsPending(c.operations, r) && c.operations[r].kind == PushOperation
    ensures Submits(x, c, r) && !x.sendFailed
  {
    hide MailOk, LossOk, ReservationOk;
  }

  lemma PendingLeaveSubmits(x: Context, cleaning: Cleaning, role: Role, c: Channel, r: Ref)
    requires Sound(x, cleaning, role, c) && IsPending(c.operations, r) && c.operations[r].kind == LeaveOperation
    ensures Submits(x, c, r) <==> !x.sendFailed
  {
    hide MailOk, LossOk, ReservationOk, TasksOk;
  }

  lemma WritingFields(c: Channel, r: Ref, submitted: bool)
    requires r in c.operations
    ensures
      var d := c.(operations := c.operations[r := c.operations[r].(send := Writing)], joinSubmitted := submitted);
      d.operations == c.operations[r := c.operations[r].(send := Writing)] && d.joinSubmitted == submitted
  {
  }

  lemma FinishedFields(c: Channel, r: Ref)
    requires r in c.operations
    ensures
      var d := FinishSend(c, r);
      d.operations == c.operations[r := c.operations[r].(send := Finished)] && d.joinSubmitted == c.joinSubmitted && d.state == c.state
  {
  }

  lemma SettledOperations(c: Channel, r: Ref, f: Future)
    ensures Settle(c, r, f).operations == SettleOutcome(c.operations, r, f) && Settle(c, r, f).joinSubmitted == c.joinSubmitted
  {
    hide SettleOutcome;
    if !IsPending(c.operations, r) {
      NothingToSettle(c.operations, r, f);
    }
  }

  lemma SendTakesEffect(x: Context, cleaning: Cleaning, role: Role, c: Channel, r: Ref)
    requires Sound(x, cleaning, role, c) && r in c.operations
    ensures SendEffect(x, c, r, StartSend(x, c, r))
  {
    hide Sound, Settle, FinishSend, Eligible;
    if IsPending(c.operations, r) {
      PendingSubmitsUnlessFailed(x, cleaning, role, c, r);
    }
    WritingFields(c, r, c.joinSubmitted || c.operations[r].kind == JoinOperation);
    FinishedFields(c, r);
    SettledOperations(FinishSend(c, r), r, Failed(ChannelFailure(NotCurrent)));
  }

  // A lost connection, its cleanup, and a stop

  /** `_fail_pending_joins` at one channel: an established one waits to be rejoined, a first join is left. */
  predicate FailEffect(x: Context, c: Channel, d: Channel) {
    if !c.registered || c.connection != x.connection then d == c.(recoveryCancelled := d.recoveryCancelled)
    else if c.state == Left then
      && d.state == Left && d.leaver == c.leaver && d.registered == c.registered
      && d.unsubscribed == (if c.unsubscribed.Pending? then Failed(SocketFailure) else c.unsubscribed)
    else
      && d.registered && d.ready == Failed(SocketFailure)
      && if c.established then d.state == Rejoining && d.leaver.NoLeaver? && d.recovery == c.recovery && d.joiner == c.joiner
         else Leaves(c, d, Transport, SocketFailure) && !d.unsubscribed.Pending?
  }

  lemma LiveFacts(x: Context, cleaning: Cleaning, role: Role, c: Channel)
    requires Sound(x, cleaning, role, c) && c.registered
    ensures c.connection.Some? && c.state != Created && (c.cleanupDone ==> !HasPendingSend(c.operations))
    ensures c.state != Left ==> !x.shutdown && c.leftBy.None? && !c.leaveRequested && c.leaver.NoLeaver?
    ensures c.state == Left ==> c.leftBy.Some? && c.leaveRequested
  {
    hide MailOk, OperationsOk, TasksOk, LossOk;
  }

  lemma UnsubscribedFields(c: Channel, f: Future)
    ensures
      var d := SettleUnsubscribed(c, f);
      && d.unsubscribed == (if c.unsubscribed.Pending? then f else c.unsubscribed) && d.state == c.state && d.leaver == c.leaver
      && d.registered == c.registered && d.leftBy == c.leftBy && d.ready == c.ready
  {
    hide SettleLeave;
  }

  lemma LeftScheduled(x: Context, c: Channel)
    requires c.state == Left && c.leaver.NoLeaver?
    ensures
      var d := StartLeave(x, c);
      && d.state == Left && d.leaver == LeaveScheduled && d.leftBy == c.leftBy && d.registered == c.registered && d.ready == c.ready
      && d.unsubscribed == c.unsubscribed
  {
    hide Transition;
  }

  lemma FailTakesEffect(x: Context, cleaning: Cleaning, role: Role, c: Channel)
    requires Sound(x, cleaning, role, c)
    ensures FailEffect(x, c, FailPending(x, c))
  {
    hide Sound, Transition, SettleUnsubscribed, StartLeave;
    if c.registered && c.connection == x.connection {
      LiveFacts(x, cleaning, role, c);
      UnsubscribedFields(c, Failed(SocketFailure));
      if c.state != Left {
        var t := Transition(x, c, Transport, SocketFailure);
        TransitionFrame(x, c, Transport, SocketFailure);
        UnsubscribedFields(t, Failed(SocketFailure));
        if t.state == Left {
          LeftScheduled(x, SettleUnsubscribed(t, Failed(SocketFailure)));
        }
      }
    } else if c.registered {
      LiveFacts(x, cleaning, role, c);
    }
  }

  lemma FailKeepsRecovery(x: Context, c: Channel)
    ensures FailPending(x, c).recoveryCancelled == c.recoveryCancelled
  {
    hide Transition, SettleUnsubscribed, StartLeave;
    TransitionFrame(x, c, Transport, SocketFailure);
    UnsubscribedRecovery(c, Failed(SocketFailure));
    var t := Transition(x, c, Transport, SocketFailure);
    UnsubscribedRecovery(t, Failed(SocketFailure));
    LeavingRecovery(x, SettleUnsubscribed(t, Failed(SocketFailure)));
  }

  lemma UnsubscribedRecovery(c: Channel, f: Future)
    ensures SettleUnsubscribed(c, f).recoveryCancelled == c.recoveryCancelled
  {
    hide SettleLeave;
  }

  lemma LeavingRecovery(x: Context, c: Channel)
    ensures StartLeave(x, c).recoveryCancelled == c.recoveryCancelled
  {
    hide Transition;
    TransitionFrame(x, c, Leave, ChannelFailure(WasLeft));
    ScheduledRecovery(c);
    ScheduledRecovery(Transition(x, c, Leave, ChannelFailure(WasLeft)));
  }

  lemma ScheduledRecovery(c: Channel)
    ensures c.(leaver := LeaveScheduled).recoveryCancelled == c.recoveryCancelled
  {
  }

  /** The start of a cleanup also cancels the recoveries of the registered channels. */
  lemma DisconnectTakesEffect(x: Context, cleaning: Cleaning, role: Role, c: Channel)
    requires Sound(x, cleaning, role, c)
    ensures
      var d := BeginDisconnect(x, c);
      FailEffect(x, c, d) && d.recoveryCancelled == (c.recoveryCancelled || (c.registered && !c.recovery.NoRecovery?))
  {
    hide Sound, FailPending, FailEffect;
    FailTakesEffect(x, cleaning, role, c);
    FailKeepsRecovery(x, c);
    CancelledAlike(x, c, FailPending(x, c));
  }

  lemma CancelledAlike(x: Context, c: Channel, d: Channel)
    requires FailEffect(x, c, d)
    ensures FailEffect(x, c, d.(recoveryCancelled := true))
  {
  }

  /** The end of a cleanup: the server's memberships on the connection are over, and a LEFT channel's name is free unless its own
      cleanup has yet to begin or one of its frames is still being written. */
  predicate EndEffect(closed: Option<ConnectionId>, c: Channel, d: Channel) {
    if !c.registered || c.connection != closed then d == c
    else
      && d.terminal && d.state == c.state
      && (d.registered <==> c.state != Left || (!c.cleanupDone && c.leaver.NoLeaver?) || HasPendingSend(c.operations))
  }

  lemma ObservedRelease(c: Channel)
    ensures
      var d := Observe(c);
      && d.terminal && d.state == c.state && d.registered == c.registered && d.cleanupDone == c.cleanupDone && d.connection == c.connection
      && d.leaver == c.leaver && d.operations == c.operations && d.leftBy == c.leftBy
  {
  }

  lemma EndTakesEffect(x: Context, cleaning: Cleaning, role: Role, closed: Option<ConnectionId>, c: Channel)
    requires Sound(x, cleaning, role, c) && x.connection.None?
    ensures EndEffect(closed, c, EndCleanup(x, closed, c))
  {
    hide Sound, Release, Observe, HasPendingSend;
    if c.registered {
      LiveFacts(x, cleaning, role, c);
      ObservedRelease(c);
      ReleasedFields(x, Observe(c));
    }
  }

  /** `_retire_channels` at one channel: LEFT for good; off the client's connection it is left and freed at once unless a frame of
      it is still being written. */
  predicate RetireEffect(x: Context, c: Channel, failure: Failure, d: Channel) {
    if !c.registered then d == c
    else
      && d.state == Left && d.leftBy == (if c.leftBy.None? then Some((Stop, failure)) else c.leftBy)
      && if c.connection == x.connection then d.registered && d.leaver == c.leaver && d.terminal == c.terminal
         else
           && d.terminal && d.leaver == (if c.leaver.NoLeaver? then LeaveScheduled else c.leaver)
           && (d.registered <==> HasPendingSend(c.operations))
  }

  lemma TransitionSends(x: Context, c: Channel, cause: Cause, failure: Failure)
    ensures
      var d := Transition(x, c, cause, failure);
      HasPendingSend(d.operations) == HasPendingSend(c.operations) && d.cleanupDone == c.cleanupDone && d.terminal == c.terminal
  {
    hide HasPendingSend;
    SameSends(c.operations, FailOutcomes(SettleOutcome(c.operations, c.joinRef, Failed(failure)), c.pushes, failure));
  }

  lemma LeftStarts(x: Context, c: Channel)
    requires c.state == Left
    ensures
      var d := StartLeave(x, c);
      && d.state == Left && d.leaver == (if c.leaver.NoLeaver? then LeaveScheduled else c.leaver) && d.leftBy == c.leftBy
      && d.registered == c.registered && d.terminal == c.terminal && d.cleanupDone == c.cleanupDone && d.operations == c.operations
      && d.connection == c.connection
  {
    hide Transition;
  }

  lemma RetireTakesEffect(x: Context, c: Channel, failure: Failure)
    requires c.cleanupDone ==> !HasPendingSend(c.operations)
    ensures RetireEffect(x, c, failure, Retire(x, c, failure))
  {
    hide Transition, Observe, StartLeave, Release, HasPendingSend;
    var t := Transition(x, c, Stop, failure);
    TransitionFrame(x, c, Stop, failure);
    TransitionSends(x, c, Stop, failure);
    ObservedRelease(t);
    LeftStarts(x, Observe(t));
    ReleasedFields(x, StartLeave(x, Observe(t)));
  }
}
