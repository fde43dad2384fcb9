/**
 * What most steps leave alone: a channel's messages, the generation it belongs to, and how far it has
 * left. `ActIsQuiet` and `NextIsQuiet` name the steps that do not.
 */
module ChannelQuiet {
  import opened Wrappers
  import opened Channels
  import opened Mailboxes
  import opened ChannelProtocol

  /** A leave task may be started, but none moves; terminals and a settled unsubscription are kept. */
  predicate Quiet(c: Channel, d: Channel) {
    && d.mail == c.mail && d.generation == c.generation && d.joinRef == c.joinRef && d.leaveRef == c.leaveRef
    && (d.leaver == c.leaver || (c.leaver.NoLeaver? && d.leaver.LeaveScheduled?))
    && (c.terminal ==> d.terminal)
    && (!c.unsubscribed.Pending? ==> !d.unsubscribed.Pending?)
  }

  lemma Same(c: Channel)
    ensures Quiet(c, c)
  {
  }

  lemma Through(c: Channel, d: Channel, e: Channel)
    requires Quiet(c, d) && Quiet(d, e)
    ensures Quiet(c, e)
  {
  }

  // The building blocks

  lemma SettlingQuiet(c: Channel, operations: map<Ref, Operation>, ready: Future, unsubscribed: Future)
    requires !c.unsubscribed.Pending? ==> unsubscribed == c.unsubscribed
    ensures Quiet(c, c.(operations := operations, ready := ready, unsubscribed := unsubscribed))
  {
  }

  lemma SettleQuiet(c: Channel, r: Ref, f: Future)
    ensures Quiet(c, Settle(c, r, f))
  {
    hide SettleOutcome, Quiet;
    Same(c);
    if IsPending(c.operations, r) {
      var op := c.operations[r];
      SettlingQuiet(c, SettleOutcome(c.operations, r, f),
                    if op.kind == JoinOperation && r == c.joinRef && c.ready.Pending? then f else c.ready,
                    if op.kind == LeaveOperation && c.leaveRef == Some(r) && c.unsubscribed.Pending? then f else c.unsubscribed);
    }
  }

  lemma SettlePushQuiet(c: Channel, r: Ref, f: Future)
    ensures Quiet(c, SettlePush(c, r, f))
  {
    hide SettleOutcome;
  }

  lemma UnsubscribingQuiet(c: Channel, f: Future, operations: map<Ref, Operation>)
    requires c.unsubscribed.Pending?
    ensures Quiet(c, c.(unsubscribed := f, operations := operations))
  {
  }

  lemma UnsubscribedQuiet(c: Channel, f: Future)
    ensures Quiet(c, SettleUnsubscribed(c, f))
  {
    hide SettleLeave, Quiet;
    Same(c);
    if c.unsubscribed.Pending? {
      UnsubscribingQuiet(c, f, SettleLeave(c, f));
    }
  }

  lemma TransitionQuiet(x: Context, c: Channel, cause: Cause, failure: Failure)
    ensures Quiet(c, Transition(x, c, cause, failure))
  {
    hide SettleOutcome, FailOutcomes;
  }

  lemma ScheduleQuiet(c: Channel)
    requires c.leaver.NoLeaver?
    ensures Quiet(c, c.(leaver := LeaveScheduled))
  {
  }

  lemma StartLeaveQuiet(x: Context, c: Channel)
    ensures Quiet(c, StartLeave(x, c))
  {
    hide Transition;
    if !c.leaver.NoLeaver? {
    } else if c.state == Left {
      ScheduleQuiet(c);
    } else {
      var t := Transition(x, c, Leave, ChannelFailure(WasLeft));
      TransitionQuiet(x, c, Leave, ChannelFailure(WasLeft));
      TransitionLeaver(x, c, Leave, ChannelFailure(WasLeft));
      ScheduleQuiet(t);
      hide Quiet;
      Through(c, t, t.(leaver := LeaveScheduled));
    }
  }

  lemma TransitionLeaver(x: Context, c: Channel, cause: Cause, failure: Failure)
    ensures Transition(x, c, cause, failure).leaver == c.leaver
  {
    hide SettleOutcome, FailOutcomes;
  }

  lemma ReleaseQuiet(x: Context, c: Channel)
    ensures Quiet(c, Release(x, c))
  {
    hide HasPendingSend;
  }

  lemma ObserveQuiet(c: Channel)
    ensures Quiet(c, Observe(c))
  {
  }

  lemma ReleaseObservedQuiet(x: Context, c: Channel)
    ensures Quiet(c, Release(x, Observe(c)))
  {
    hide Quiet, Release, Observe;
    ObserveQuiet(c);
    ReleaseQuiet(x, Observe(c));
    Through(c, Observe(c), Release(x, Observe(c)));
  }

  lemma JoinFailedQuiet(x: Context, c: Channel, failure: Failure)
    ensures Quiet(c, JoinFailed(x, c, failure))
  {
    hide Transition, Quiet;
    Same(c);
    TransitionQuiet(x, c, Configuration, failure);
    TransitionQuiet(x, c, Timeout, ChannelFailure(DeadlineExpired));
  }

  lemma WithoutJoinerQuiet(c: Channel)
    ensures Quiet(c, WithoutJoiner(c))
  {
  }

  lemma BackoffQuiet(c: Channel, g: nat)
    ensures Quiet(c, c.(recovery := Backoff(g), recoveryCancelled := false))
  {
  }

  lemma StartRecoveryQuiet(x: Context, c: Channel, generation: Option<nat>)
    ensures Quiet(c, StartRecovery(x, c, generation))
  {
    hide CanRecover, Quiet;
    Same(c);
    BackoffQuiet(c, if generation.Some? then generation.value else x.generation);
  }

  lemma LossQuiet(c: Channel, loss: Loss)
    ensures Quiet(c, c.(loss := loss))
  {
  }

  lemma StartLossQuiet(x: Context, c: Channel, failure: Failure)
    ensures Quiet(c, StartLoss(x, c, failure))
  {
    hide Transition, StartLeave, Quiet;
    var t := Transition(x, c, Close, failure);
    LossQuiet(c, LossScheduled);
    StartLeaveQuiet(x, c);
    TransitionQuiet(x, c, Close, failure);
    LossQuiet(t, LossScheduled);
    StartLeaveQuiet(x, t);
    if c.state != Left {
      Through(c, t, StartLoss(x, c, failure));
    }
  }

  lemma UnregisterQuiet(x: Context, c: Channel)
    ensures Quiet(c, Unregister(x, c))
  {
    hide Transition, StartLeave, Quiet;
    var t := Transition(x, c, Close, ChannelFailure(ClosedByServer));
    StartLeaveQuiet(x, c);
    TransitionQuiet(x, c, Close, ChannelFailure(ClosedByServer));
    StartLeaveQuiet(x, t);
    Through(c, t, StartLeave(x, t));
  }

  lemma StartUnregisterQuiet(x: Context, c: Channel)
    ensures Quiet(c, StartUnregister(x, c))
  {
    hide Unregister, Quiet;
    LossQuiet(c, LossDone);
    UnregisterQuiet(x, c);
    LossQuiet(Unregister(x, c), LossUnregistering);
    Through(c, Unregister(x, c), Unregister(x, c).(loss := LossUnregistering));
  }

  lemma FinishSendQuiet(c: Channel, r: Ref)
    requires r in c.operations
    ensures Quiet(c, FinishSend(c, r))
  {
  }

  lemma SettledWriteQuiet(c: Channel, r: Ref, f: Future)
    requires r in c.operations
    ensures Quiet(c, Settle(FinishSend(c, r), r, f))
  {
    hide Settle, FinishSend, Quiet;
    FinishSendQuiet(c, r);
    SettleQuiet(FinishSend(c, r), r, f);
    Through(c, FinishSend(c, r), Settle(FinishSend(c, r), r, f));
  }

  lemma FinishWriteQuiet(c: Channel, r: Ref, lost: bool)
    requires r in c.operations
    ensures Quiet(c, FinishWrite(c, r, lost))
  {
    hide Settle, FinishSend, Quiet;
    FinishSendQuiet(c, r);
    SettledWriteQuiet(c, r, Failed(SocketFailure));
  }

  lemma WritingQuiet(c: Channel, operations: map<Ref, Operation>, submitted: bool)
    ensures Quiet(c, c.(operations := operations, joinSubmitted := submitted))
  {
  }

  lemma StartSendQuiet(x: Context, c: Channel, r: Ref)
    requires r in c.operations
    ensures Quiet(c, StartSend(x, c, r))
  {
    hide Settle, FinishSend, Submits, Quiet;
    SettledWriteQuiet(c, r, Failed(ChannelFailure(NotCurrent)));
    WritingQuiet(c, c.operations[r := c.operations[r].(send := Writing)], c.joinSubmitted || c.operations[r].kind == JoinOperation);
  }

  // Server frames

  lemma HandleLifecycleQuiet(x: Context, c: Channel, m: Message)
    ensures Quiet(c, HandleLifecycle(x, c, m))
  {
    hide Transition, StartRecovery, StartLoss, Release, Observe, Quiet;
    Same(c);
    ReleaseObservedQuiet(x, c);
    var d := Observe(c);
    ObserveQuiet(c);
    var crashed := Transition(x, d, Crash, ChannelFailure(Crashed));
    TransitionQuiet(x, d, Crash, ChannelFailure(Crashed));
    Through(c, d, crashed);
    StartRecoveryQuiet(x, crashed, None);
    Through(c, crashed, StartRecovery(x, crashed, None));
    var closed := Transition(x, d, Close, ChannelFailure(ClosedByServer));
    TransitionQuiet(x, d, Close, ChannelFailure(ClosedByServer));
    Through(c, d, closed);
    StartLossQuiet(x, closed, ChannelFailure(ClosedByServer));
    Through(c, closed, StartLoss(x, closed, ChannelFailure(ClosedByServer)));
  }

  lemma InstallQuiet(c: Channel)
    ensures Quiet(c, Install(c))
  {
  }

  lemma AcceptingQuiet(c: Channel, ready: Future, operations: map<Ref, Operation>)
    ensures Quiet(c, c.(cause := Some(Accepted), state := Joined, established := true, ready := ready, operations := operations))
    ensures Quiet(c, c.(cause := Some(Accepted)))
  {
  }

  lemma AcceptQuiet(c: Channel)
    ensures Quiet(c, Accept(c))
  {
    hide SettleOutcome, Quiet;
    AcceptingQuiet(c, if c.ready.Pending? then Succeeded else c.ready, SettleOutcome(c.operations, c.joinRef, Succeeded));
  }

  lemma HandleJoinReplyQuiet(x: Context, c: Channel, body: Body, hookOk: bool)
    ensures Quiet(c, HandleJoinReply(x, c, body, hookOk))
  {
    hide Transition, Release, Observe, Accept, Install, Quiet;
    Same(c);
    ReleaseObservedQuiet(x, c);
    ObserveQuiet(c);
    InstallQuiet(c);
    TransitionQuiet(x, c, Rejected, ChannelFailure(JoinRefused));
    TransitionQuiet(x, Observe(c), Rejected, ChannelFailure(JoinRefused));
    Through(c, Observe(c), Transition(x, Observe(c), Rejected, ChannelFailure(JoinRefused)));
    AcceptQuiet(Install(c));
    Through(c, Install(c), Accept(Install(c)));
    TransitionQuiet(x, Install(c), Configuration, ChannelFailure(HookFailed));
    Through(c, Install(c), Transition(x, Install(c), Configuration, ChannelFailure(HookFailed)));
  }

  lemma HandleControlQuiet(x: Context, c: Channel, m: Message, hookOk: bool)
    ensures Quiet(c, HandleControl(x, c, m, hookOk).0)
  {
    hide HandleLifecycle, HandleJoinReply, SettleUnsubscribed, SettlePush, OnCurrentConnection, Quiet;
    Same(c);
    HandleLifecycleQuiet(x, c, m);
    if m.event.ReplyEvent? {
      HandleJoinReplyQuiet(x, c, m.event.body, hookOk);
      UnsubscribedQuiet(c, Succeeded);
      UnsubscribedQuiet(c, Failed(ChannelFailure(LeaveRefused)));
      if m.ref.Some? {
        SettlePushQuiet(c, m.ref.value, Succeeded);
        SettlePushQuiet(c, m.ref.value, Failed(ChannelFailure(MalformedReply)));
      }
    }
  }

  // Calls

  lemma SubmitJoinQuiet(x: Context, c: Channel, paramsOk: bool)
    ensures Quiet(c, SubmitJoin(x, c, paramsOk))
  {
    hide JoinFailed, Quiet;
    Same(c);
    JoinFailedQuiet(x, c, ChannelFailure(BadParams));
    if c.connection.Some? {
      WritingQuiet(c, c.operations[c.joinRef := Operation(JoinOperation, c.connection.value, c.joinRef, Pending, Scheduled)],
                   c.joinSubmitted);
    }
  }

  lemma ResumeJoinerQuiet(x: Context, c: Channel, outcome: Future)
    ensures Quiet(c, ResumeJoiner(x, c, outcome))
  {
    hide JoinFailed, StartLeave, WithoutJoiner, Quiet;
    var d := WithoutJoiner(c);
    WithoutJoinerQuiet(c);
    if outcome.Failed? {
      var e := JoinFailed(x, d, outcome.failure);
      JoinFailedQuiet(x, d, outcome.failure);
      Through(c, d, e);
      StartLeaveQuiet(x, e);
      Through(c, e, StartLeave(x, e));
    }
  }

  lemma CancelJoinerQuiet(x: Context, c: Channel, r: Ref)
    ensures Quiet(c, StartLeave(x, Settle(WithoutJoiner(c), r, Failed(CallerCancelled))))
  {
    hide Settle, StartLeave, WithoutJoiner, Quiet;
    var d := WithoutJoiner(c);
    var e := Settle(d, r, Failed(CallerCancelled));
    WithoutJoinerQuiet(c);
    SettleQuiet(d, r, Failed(CallerCancelled));
    Through(c, d, e);
    StartLeaveQuiet(x, e);
    Through(c, e, StartLeave(x, e));
  }

  lemma LeaveNewQuiet(x: Context, c: Channel)
    requires c.state == Created
    ensures Quiet(c, BeginLeave(x, c))
  {
  }

  lemma BeginLeaveQuiet(x: Context, c: Channel)
    ensures Quiet(c, BeginLeave(x, c))
  {
    hide StartLeave, Quiet;
    if c.state == Created {
      LeaveNewQuiet(x, c);
    } else {
      StartLeaveQuiet(x, c);
    }
  }

  lemma SubmitPushQuiet(x: Context, c: Channel, connection: ConnectionId)
    ensures Quiet(c, SubmitPush(x, c, connection))
  {
  }

  // Recoveries

  lemma RecoveryQuiet(c: Channel, recovery: Recovery)
    ensures Quiet(c, c.(recovery := recovery))
  {
  }

  lemma AbandonQuiet(c: Channel, abandoned: bool)
    ensures Quiet(c, c.(recovery := NoRecovery, abandoned := abandoned))
  {
  }

  lemma RecoveryLoopsQuiet(x: Context, c: Channel, g: nat)
    ensures Quiet(c, RecoveryLoops(x, c, g))
  {
    hide CanRecover, Quiet;
    RecoveryQuiet(c, if CanRecover(x, c, g) then Backoff(g) else NoRecovery);
  }

  lemma RecoveryFailedQuiet(x: Context, c: Channel, g: nat)
    ensures Quiet(c, RecoveryFailed(x, c, g))
  {
    hide StartLoss, RecoveryLoops, Quiet;
    var d := StartLoss(x, c, ChannelFailure(JoinRefused));
    StartLossQuiet(x, c, ChannelFailure(JoinRefused));
    RecoveryQuiet(d, NoRecovery);
    Through(c, d, d.(recovery := NoRecovery));
    RecoveryLoopsQuiet(x, c, g);
  }

  lemma RestartRequestQuiet(c: Channel)
    ensures Quiet(c, c.(restartRequested := true))
  {
  }

  lemma BeginRejoinQuiet(x: Context, c: Channel)
    ensures Quiet(c, BeginRejoin(x, c))
  {
    hide Transition, Quiet;
    var t := Transition(x, c, Transport, SocketFailure);
    RestartRequestQuiet(c);
    TransitionQuiet(x, c, Transport, SocketFailure);
    RestartRequestQuiet(t);
    Through(c, t, t.(restartRequested := true));
  }

  lemma RecoveryWakesQuiet(x: Context, c: Channel)
    requires c.recovery.Backoff?
    ensures Quiet(c, RecoveryStep(x, c, RecoveryWakes))
  {
    hide BeginRejoin, CanRecover, Quiet;
    var d := BeginRejoin(x, c);
    BeginRejoinQuiet(x, c);
    RecoveryQuiet(d, StoppingProcessor(c.recovery.generation));
    Through(c, d, d.(recovery := StoppingProcessor(c.recovery.generation)));
    RecoveryQuiet(c, NoRecovery);
  }

  lemma RecoveryResumesQuiet(x: Context, c: Channel)
    requires c.recovery.AwaitingRejoin?
    ensures Quiet(c, RecoveryStep(x, c, RecoveryResumes))
  {
    hide JoinFailed, RecoveryFailed, RecoveryLoops, Quiet;
    Same(c);
    RecoveryQuiet(c, NoRecovery);
    RecoveryLoopsQuiet(x, c, c.recovery.generation);
    if OutcomeDone(c, c.recovery.ref) && c.operations[c.recovery.ref].outcome.Failed? {
      var d := JoinFailed(x, c, c.operations[c.recovery.ref].outcome.failure);
      JoinFailedQuiet(x, c, c.operations[c.recovery.ref].outcome.failure);
      RecoveryFailedQuiet(x, d, c.recovery.generation);
      Through(c, d, RecoveryFailed(x, d, c.recovery.generation));
    }
  }

  lemma RecoveryEndsQuiet(x: Context, c: Channel, paramsOk: bool)
    requires c.recovery.StoppingProcessor? && !ShouldRejoin(c)
    ensures Quiet(c, RecoveryStep(x, c, RecoveryRestarts(paramsOk)))
  {
    hide RecoveryLoops, Quiet, ShouldRejoin;
    RecoveryLoopsQuiet(x, c, c.recovery.generation);
  }

  lemma RecoveryCancelledQuiet(x: Context, c: Channel)
    ensures Quiet(c, Act(x, c, RecoveryCancelled))
  {
    hide Settle, Quiet;
    var d := if c.recovery.AwaitingRejoin? then Settle(c, c.recovery.ref, Failed(CallerCancelled)) else c;
    Same(c);
    if c.recovery.AwaitingRejoin? {
      SettleQuiet(c, c.recovery.ref, Failed(CallerCancelled));
    }
    AbandonQuiet(d, Act(x, c, RecoveryCancelled).abandoned);
    Through(c, d, d.(recovery := NoRecovery, abandoned := Act(x, c, RecoveryCancelled).abandoned));
  }

  // One channel

  lemma PushesQuiet(c: Channel, pushes: set<Ref>)
    ensures Quiet(c, c.(pushes := pushes))
  {
  }

  lemma ProcessorQuiet(c: Channel, processor: Processor)
    ensures Quiet(c, c.(processor := processor))
  {
  }

  lemma ReportLossQuiet(c: Channel)
    ensures Quiet(c, ReportLoss(c))
  {
  }

  /** The actions that move messages, start a join or move the leave task. */
  predicate Stirs(c: Channel, a: Action) {
    || a.JoinCall? || a.Receive? || a.ProcessorTakes? || a.LeaveStarts? || a.LeaveAnswered? || a.LeaveCleansUp?
    || (a.RecoveryRestarts? && ShouldRejoin(c))
  }

  lemma ActIsQuiet(x: Context, role: Role, c: Channel, a: Action)
    requires ActionEnabled(x, role, c, a) && !Stirs(c, a)
    ensures Quiet(c, Act(x, c, a))
  {
    hide Quiet, ResumeJoiner, StartLeave, Settle, SettlePush, WithoutJoiner, BeginLeave, StartSend, FinishWrite, RecoveryStep,
      StartUnregister, LoopTest, ChannelJoined, SubmitPush, ReportLoss, ShouldRejoin, HasPendingSend;
    Same(c);
    match a
    case JoinerResumes => ResumeJoinerQuiet(x, c, c.operations[c.joiner.value].outcome);
    case JoinerCancelled => CancelJoinerQuiet(x, c, c.joiner.value);
    case LeaveCall => BeginLeaveQuiet(x, c);
    case PushCall =>
      if c.connection.Some? {
        SubmitPushQuiet(x, c, c.connection.value);
      }
    case PushReturns(r) => PushesQuiet(c, c.pushes - {r});
    case PushCancelled(r) => SettlePushQuiet(c, r, Failed(CallerCancelled));
    case SendStarts(r) => StartSendQuiet(x, c, r);
    case WriteCompletes(r) => FinishWriteQuiet(c, r, false);
    case RecoveryWakes => RecoveryWakesQuiet(x, c);
    case RecoveryRestarts(paramsOk) => RecoveryEndsQuiet(x, c, paramsOk);
    case RecoveryResumes => RecoveryResumesQuiet(x, c);
    case RecoveryCancelled => RecoveryCancelledQuiet(x, c);
    case LossStarts => StartUnregisterQuiet(x, c);
    case LossUnregistered => LossQuiet(c, LossReporting);
    case LossReported => ReportLossQuiet(c);
    case HandlersDone => ProcessorQuiet(c, LoopTest(c));
    case _ =>
  }

  // The steps that do move them

  /** A fresh join: a new generation, and nothing else of these. */
  predicate Reborn(c: Channel, d: Channel, mail: Mailbox, g: nat) {
    && d.mail == mail && d.generation == g && d.leaveRef == c.leaveRef
    && (d.leaver == c.leaver || (c.leaver.NoLeaver? && d.leaver.LeaveScheduled?))
    && (!c.unsubscribed.Pending? ==> !d.unsubscribed.Pending?)
  }

  lemma QuietlyReborn(c: Channel, d: Channel, e: Channel, mail: Mailbox, g: nat)
    requires Reborn(c, d, mail, g) && Quiet(d, e)
    ensures Reborn(c, e, mail, g)
  {
  }

  lemma AdmitReborn(x: Context, c: Channel)
    ensures Reborn(c, Admit(x, c), c.mail, x.generation)
  {
  }

  lemma JoinerQuiet(c: Channel, joiner: Option<Ref>)
    ensures Quiet(c, c.(joiner := joiner))
  {
  }

  lemma BeginJoinReborn(x: Context, c: Channel, hookSync: bool, paramsOk: bool)
    ensures Reborn(c, BeginJoin(x, c, hookSync, paramsOk), c.mail, x.generation)
  {
    hide Admit, SubmitJoin, StartLeave, Quiet, Reborn;
    var d := Admit(x, c);
    var e := if hookSync then SubmitJoin(x, d, paramsOk) else d;
    AdmitReborn(x, c);
    Same(d);
    SubmitJoinQuiet(x, d, paramsOk);
    JoinerQuiet(e, Some(x.refs + 1));
    StartLeaveQuiet(x, e);
    Through(d, e, e.(joiner := Some(x.refs + 1)));
    Through(d, e, StartLeave(x, e));
    QuietlyReborn(c, d, BeginJoin(x, c, hookSync, paramsOk), c.mail, x.generation);
  }

  lemma RestartReborn(x: Context, c: Channel, g: nat)
    ensures Reborn(c, Restart(x, c, g), Drain(c.mail), g)
  {
    hide Drain;
  }

  lemma RejoinReborn(x: Context, c: Channel, g: nat, paramsOk: bool)
    ensures Reborn(c, Rejoin(x, c, g, paramsOk), Drain(c.mail), g)
  {
    hide Restart, SubmitJoin, Quiet, Reborn;
    RestartReborn(x, c, g);
    SubmitJoinQuiet(x, Restart(x, c, g), paramsOk);
    QuietlyReborn(c, Restart(x, c, g), Rejoin(x, c, g, paramsOk), Drain(c.mail), g);
  }

  lemma RecoveryRestartsReborn(x: Context, c: Channel, paramsOk: bool)
    requires c.recovery.StoppingProcessor? && ShouldRejoin(c)
    ensures Reborn(c, RecoveryStep(x, c, RecoveryRestarts(paramsOk)), Drain(c.mail), c.recovery.generation)
  {
    hide Rejoin, RecoveryFailed, ShouldRejoin, Quiet, Reborn, Drain;
    var g := c.recovery.generation;
    var ok := paramsOk && x.connection.Some?;
    var d := if ok then Rejoin(x, c, g, true) else Rejoin(x, c, g, paramsOk);
    RejoinReborn(x, c, g, true);
    RejoinReborn(x, c, g, paramsOk);
    RecoveryQuiet(d, AwaitingRejoin(g, x.refs + 1));
    RecoveryFailedQuiet(x, d, g);
    QuietlyReborn(c, d, RecoveryStep(x, c, RecoveryRestarts(paramsOk)), Drain(c.mail), g);
  }

  /** Taking a message touches only the mailbox of these. */
  predicate OnlyMail(c: Channel, d: Channel) {
    && d.generation == c.generation && d.leaveRef == c.leaveRef && d.leaver == c.leaver && d.terminal == c.terminal
    && d.unsubscribed == c.unsubscribed
  }

  lemma KeepOnlyMail(x: Context, c: Channel, m: Message)
    ensures OnlyMail(c, Keep(x, c, m)) && Keep(x, c, m).mail == Enqueue(c.mail, c.joinRef, m.joinRef, x.queueLimit)
  {
    hide Enqueue;
  }

  lemma SkipOnlyMail(c: Channel, processor: Processor)
    requires c.mail.queue != []
    ensures OnlyMail(c, SkipMessage(c, processor)) && OnlyMail(c, DispatchMessage(c, processor))
  {
    hide Skip, Dispatch;
  }

  lemma TakeMessageOnlyMail(x: Context, c: Channel, handled: bool)
    requires c.mail.queue != []
    ensures OnlyMail(c, TakeMessage(x, c, handled))
  {
    hide SkipMessage, DispatchMessage, IsStaleJoin, ChannelJoined, OnlyMail, LoopTest;
    SkipOnlyMail(c, ProcessorEnded);
    SkipOnlyMail(c, LoopTest(c));
    SkipOnlyMail(c, HandlingMessage);
  }

  /** The leave task moves; messages, generation, terminals and a settled unsubscription are kept. */
  predicate OnlyLeaves(c: Channel, d: Channel) {
    && d.mail == c.mail && d.generation == c.generation && (c.terminal ==> d.terminal)
    && (!c.unsubscribed.Pending? ==> !d.unsubscribed.Pending?)
  }

  lemma QuietLeaves(c: Channel, d: Channel, e: Channel)
    requires Quiet(c, d) && OnlyLeaves(d, e)
    ensures OnlyLeaves(c, e)
  {
  }

  lemma LeavesQuietly(c: Channel, d: Channel, e: Channel)
    requires OnlyLeaves(c, d) && Quiet(d, e)
    ensures OnlyLeaves(c, e)
  {
  }

  lemma BothLeave(c: Channel, d: Channel, e: Channel)
    requires OnlyLeaves(c, d) && OnlyLeaves(d, e)
    ensures OnlyLeaves(c, e)
  {
  }

  lemma BeginCleanupLeaves(c: Channel)
    ensures OnlyLeaves(c, BeginCleanup(c))
  {
  }

  lemma WithLeaveRefLeaves(x: Context, c: Channel)
    ensures OnlyLeaves(c, WithLeaveRef(x, c))
  {
  }

  lemma SubmitLeaveLeaves(x: Context, c: Channel, connection: ConnectionId)
    ensures OnlyLeaves(c, SubmitLeave(x, c, connection))
  {
  }

  lemma RunLeaveLeaves(x: Context, c: Channel)
    ensures OnlyLeaves(c, RunLeave(x, c))
  {
    hide OnlyLeaves, Quiet, BeginCleanup, WithLeaveRef, SubmitLeave, Observe;
    if SendsLeave(x, c) {
      SubmitLeaveLeaves(x, c, c.connection.value);
      WithLeaveRefLeaves(x, c);
      BeginCleanupLeaves(WithLeaveRef(x, c));
      BothLeave(c, WithLeaveRef(x, c), BeginCleanup(WithLeaveRef(x, c)));
    } else {
      BeginCleanupLeaves(c);
      ObserveQuiet(c);
      BeginCleanupLeaves(Observe(c));
      QuietLeaves(c, Observe(c), BeginCleanup(Observe(c)));
    }
  }

  lemma EndLeaveLeaves(c: Channel)
    ensures OnlyLeaves(c, EndLeave(c))
  {
  }

  lemma FinishCleanupLeaves(x: Context, c: Channel)
    ensures OnlyLeaves(c, FinishCleanup(x, c))
  {
    hide OnlyLeaves, Quiet, EndLeave, Release;
    EndLeaveLeaves(c);
    ReleaseQuiet(x, EndLeave(c));
    LeavesQuietly(c, EndLeave(c), FinishCleanup(x, c));
  }

  lemma LeaveTaskLeaves(x: Context, c: Channel, a: Action)
    requires a.LeaveStarts? || a.LeaveAnswered? || a.LeaveCleansUp?
    ensures OnlyLeaves(c, Act(x, c, a))
  {
    hide OnlyLeaves, RunLeave, BeginCleanup, FinishCleanup;
    RunLeaveLeaves(x, c);
    BeginCleanupLeaves(c);
    FinishCleanupLeaves(x, c);
  }

  // Sweeps and the pass

  lemma FailPendingQuiet(x: Context, c: Channel)
    ensures Quiet(c, FailPending(x, c))
  {
    hide Transition, SettleUnsubscribed, StartLeave, Quiet;
    Same(c);
    var u := SettleUnsubscribed(c, Failed(SocketFailure));
    UnsubscribedQuiet(c, Failed(SocketFailure));
    var t := Transition(x, c, Transport, SocketFailure);
    TransitionQuiet(x, c, Transport, SocketFailure);
    var v := SettleUnsubscribed(t, Failed(SocketFailure));
    UnsubscribedQuiet(t, Failed(SocketFailure));
    Through(c, t, v);
    StartLeaveQuiet(x, v);
    Through(c, v, StartLeave(x, v));
  }

  lemma CancelRecoveryQuiet(c: Channel)
    ensures Quiet(c, c.(recoveryCancelled := true))
  {
  }

  lemma BeginDisconnectQuiet(x: Context, c: Channel)
    ensures Quiet(c, BeginDisconnect(x, c))
  {
    hide FailPending, Quiet;
    FailPendingQuiet(x, c);
    CancelRecoveryQuiet(FailPending(x, c));
    Through(c, FailPending(x, c), FailPending(x, c).(recoveryCancelled := true));
  }

  lemma EndCleanupQuiet(x: Context, closed: Option<ConnectionId>, c: Channel)
    ensures Quiet(c, EndCleanup(x, closed, c))
  {
    hide Release, Observe, Quiet;
    Same(c);
    ObserveQuiet(c);
    ReleaseObservedQuiet(x, c);
  }

  lemma RetireQuiet(x: Context, c: Channel, failure: Failure)
    ensures Quiet(c, Retire(x, c, failure))
  {
    hide Transition, Observe, StartLeave, Release, Quiet;
    Same(c);
    var t := Transition(x, c, Stop, failure);
    TransitionQuiet(x, c, Stop, failure);
    ObserveQuiet(t);
    Through(c, t, Observe(t));
    var l := StartLeave(x, Observe(t));
    StartLeaveQuiet(x, Observe(t));
    Through(c, Observe(t), l);
    ReleaseQuiet(x, l);
    Through(c, l, Release(x, l));
  }

  lemma RejoinFailureQuiet(x: Context, c: Channel)
    ensures Quiet(c, RejoinFailure(x, c).0)
  {
    hide Unregister, StartRecovery, Quiet;
    Same(c);
    UnregisterQuiet(x, c);
    StartRecoveryQuiet(x, c, None);
  }

  // Every step of the client

  /** The steps that move messages, start a join or move the leave task of channel i. */
  predicate StirsAt(s: System, e: Step, i: nat)
    requires i < |s.channels|
  {
    match e
    case At(j, a) => j == i && Stirs(s.channels[i], a)
    case PassRestarts(_) => s.pass.Pass? && s.pass.active.Stopping? && s.pass.active.channel == i && ShouldRejoin(s.channels[i])
    case _ => false
  }

  lemma ActAt(s: System, j: nat, a: Action)
    requires Enabled(s, At(j, a))
    ensures ActionEnabled(s.client, RoleOf(s.pass, j), s.channels[j], a)
    ensures |Next(s, At(j, a)).channels| == |s.channels| && Next(s, At(j, a)).channels[j] == Act(s.client, s.channels[j], a)
    ensures forall i: nat :: i < |s.channels| && i != j ==> Next(s, At(j, a)).channels[i] == s.channels[i]
  {
    hide Act, Generates, ActionEnabled, Submits;
  }

  lemma FailSessionQuiet(s: System, i: nat)
    requires i < |s.channels|
    ensures |FailSession(s).channels| == |s.channels| && Quiet(s.channels[i], FailSession(s).channels[i])
  {
    hide FailPending, Quiet;
    Same(s.channels[i]);
    FailPendingQuiet(s.client, s.channels[i]);
  }

  lemma UpdatedThenFailed(s: System, j: nat, d: Channel, i: nat)
    requires i < |s.channels| && j < |s.channels| && Quiet(s.channels[j], d)
    ensures Quiet(s.channels[i], Update(s, j, d).channels[i])
    ensures Quiet(s.channels[i], FailSession(Update(s, j, d)).channels[i])
  {
    hide FailSession, Quiet;
    Same(s.channels[i]);
    FailSessionQuiet(Update(s, j, d), i);
    Through(s.channels[i], Update(s, j, d).channels[i], FailSession(Update(s, j, d)).channels[i]);
  }

  lemma SettlingStepQuiet(s: System, e: Step, i: nat)
    requires Enabled(s, e) && i < |s.channels| && (e.WriteLost? || e.Expires?)
    ensures i < |Next(s, e).channels| && Quiet(s.channels[i], Next(s, e).channels[i])
  {
    hide FailSession, Quiet, FinishWrite, Settle;
    var c := s.channels[e.channel];
    var failure := TimeoutError(c.operations[e.ref].kind);
    FinishWriteQuiet(c, e.ref, true);
    SettleQuiet(c, e.ref, Failed(failure));
    if e.WriteLost? {
      UpdatedThenFailed(s, e.channel, FinishWrite(c, e.ref, true), i);
      FailSessionQuiet(Update(s, e.channel, FinishWrite(c, e.ref, true)), i);
    } else {
      UpdatedThenFailed(s, e.channel, Settle(c, e.ref, Failed(failure)), i);
      FailSessionQuiet(Update(s, e.channel, Settle(c, e.ref, Failed(failure))), i);
    }
  }

  lemma SweepQuiet(s: System, e: Step, i: nat)
    requires Enabled(s, e) && i < |s.channels|
    requires e.RoutingStops? || e.CleanupBegins? || e.CleanupEnds? || e.AdoptRefused? || e.RequestStop? || e.SupervisorExits?
    ensures i < |Next(s, e).channels| && Quiet(s.channels[i], Next(s, e).channels[i])
  {
    hide FailPending, BeginDisconnect, EndCleanup, Retire, Quiet, CleanedUp;
    var x, c := s.client, s.channels[i];
    FailPendingQuiet(x, c);
    BeginDisconnectQuiet(x, c);
    BeginDisconnectQuiet(Opened(x, s.sockets), c);
    RetireQuiet(StopRequested(x), c, ChannelFailure(StoppingClient));
    RetireQuiet(x, c, SocketFailure);
    if e.CleanupEnds? {
      EndCleanupQuiet(x, s.cleaning.value, c);
    }
  }

  lemma PassStepQuiet(s: System, e: Step, i: nat)
    requires Enabled(s, e) && i < |s.channels|
    requires e.PassNext? || e.PassResumes? || e.PassUnregistered? || e.PassOptional?
    ensures i < |Next(s, e).channels| && Quiet(s.channels[i], Next(s, e).channels[i])
  {
    hide BeginRejoin, ShouldRejoin, RejoinFailure, JoinFailed, StartRecovery, Quiet;
    var x, c := s.client, s.channels[i];
    Same(c);
    BeginRejoinQuiet(x, c);
    LossQuiet(c, LossReporting);
    StartRecoveryQuiet(x, c, Some(x.generation));
    if e.PassResumes? && s.pass.active.channel == i && c.operations[s.pass.active.ref].outcome.Failed? {
      var d := JoinFailed(x, c, c.operations[s.pass.active.ref].outcome.failure);
      JoinFailedQuiet(x, c, c.operations[s.pass.active.ref].outcome.failure);
      RejoinFailureQuiet(x, d);
      Through(c, d, RejoinFailure(x, d).0);
    }
  }

  lemma PassRestartsQuiet(s: System, paramsOk: bool, i: nat)
    requires Enabled(s, PassRestarts(paramsOk)) && i < |s.channels|
    ensures
      var t := Next(s, PassRestarts(paramsOk));
      && i < |t.channels|
      && if StirsAt(s, PassRestarts(paramsOk), i)
         then Reborn(s.channels[i], t.channels[i], Drain(s.channels[i].mail), s.client.generation)
         else Quiet(s.channels[i], t.channels[i])
  {
    hide Rejoin, ShouldRejoin, RejoinFailure, Quiet, Reborn, Drain;
    var x, c := s.client, s.channels[i];
    Same(c);
    if StirsAt(s, PassRestarts(paramsOk), i) {
      var d := Rejoin(x, c, x.generation, paramsOk);
      RejoinReborn(x, c, x.generation, paramsOk);
      RejoinFailureQuiet(x, d);
      QuietlyReborn(c, d, RejoinFailure(x, d).0, Drain(c.mail), x.generation);
    }
  }

  /** A step that does not stir channel i leaves its messages, its generation and its leave task alone. */
  lemma NextIsQuiet(s: System, e: Step, i: nat)
    requires Enabled(s, e) && i < |s.channels| && !StirsAt(s, e, i)
    ensures i < |Next(s, e).channels| && Quiet(s.channels[i], Next(s, e).channels[i])
  {
    hide Next, Enabled, Quiet, Stirs, ShouldRejoin, Act, ActionEnabled;
    Same(s.channels[i]);
    match e
    case At(j, a) =>
      ActAt(s, j, a);
      if i == j {
        ActIsQuiet(s.client, RoleOf(s.pass, i), s.channels[i], a);
      }
    case WriteLost(_, _) => SettlingStepQuiet(s, e, i);
    case Expires(_, _) => SettlingStepQuiet(s, e, i);
    case PassNext(_) => PassStepQuiet(s, e, i);
    case PassRestarts(paramsOk) => PassRestartsQuiet(s, paramsOk, i);
    case PassResumes => PassStepQuiet(s, e, i);
    case PassUnregistered => PassStepQuiet(s, e, i);
    case PassOptional => PassStepQuiet(s, e, i);
    case RoutingStops => SweepQuiet(s, e, i);
    case CleanupBegins => SweepQuiet(s, e, i);
    case CleanupEnds => SweepQuiet(s, e, i);
    case AdoptRefused => SweepQuiet(s, e, i);
    case RequestStop => SweepQuiet(s, e, i);
    case SupervisorExits => SweepQuiet(s, e, i);
    case _ => IdleStepQuiet(s, e, i);
  }

  lemma IdleStepQuiet(s: System, e: Step, i: nat)
    requires Enabled(s, e) && i < |s.channels|
    requires e.Open? || e.Answers? || e.Adopt? || e.AdoptWhileStopping? || e.SupervisorCancelled?
    ensures i < |Next(s, e).channels| && Next(s, e).channels[i] == s.channels[i]
  {
    hide NewChannel;
  }
}
