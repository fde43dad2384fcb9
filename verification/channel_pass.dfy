/** The supervisor's rejoin pass, the send failures and new channels, seen from one channel. */
module ChannelPass {
  import opened Wrappers
  import opened ClientStates
  import opened Channels
  import opened ChannelProtocol
  import opened ChannelInvariant
  import opened ChannelHandlers
  import opened ChannelSteps
  import opened ChannelAttended
  import opened ChannelSweeps

  /** The pass is done with a channel whose join it does not await. */
  lemma DoneSound(x: Context, cleaning: Cleaning, role: Role, c: Channel)
    requires Sound(x, cleaning, role, c) && (role.Rejoins? ==> !c.ready.Pending?)
    ensures Sound(x, cleaning, Uninvolved, c)
  {
    hide DeliveryOk;
  }

  lemma SkippedOk(x: Context, cleaning: Cleaning, role: Role, c: Channel)
    requires ChannelOk(x, cleaning, role, c) && !ShouldRejoin(c) && (role == Queued || role == Restarting)
    ensures ChannelOk(x, cleaning, Uninvolved, c)
  {
    hide Sound;
    DoneSound(x, cleaning, role, c);
    Facts(x, cleaning, role, c);
  }

  lemma QueuedFacts(x: Context, cleaning: Cleaning, role: Role, c: Channel)
    requires Sound(x, cleaning, role, c) && (role == Queued || role == Restarting)
    ensures (c.state == Rejoining || c.state == Left) && c.recovery.NoRecovery? && x.connection.Some?
    ensures c.state == Rejoining ==> !c.ready.Pending? && c.loss.NoLoss?
    ensures c.established || c.state == Left
    ensures ShouldRejoin(c) ==> !x.shutdown
  {
  }

  lemma StoppingSound(x: Context, cleaning: Cleaning, c: Channel)
    requires Sound(x, cleaning, Queued, c)
    ensures Sound(x, cleaning, Restarting, c.(restartRequested := true))
  {
    hide DeliveryOk;
  }

  lemma StoppingAttended(x: Context, c: Channel)
    requires Attended(x, Queued, c)
    ensures Attended(x, Restarting, c.(restartRequested := true))
  {
  }

  lemma PassNextOk(x: Context, cleaning: Cleaning, c: Channel)
    requires ChannelOk(x, cleaning, Queued, c)
    ensures ChannelOk(x, cleaning, Restarting, BeginRejoin(x, c))
  {
    hide Sound, Attended;
    QueuedFacts(x, cleaning, Queued, c);
    StoppingSound(x, cleaning, c);
    StoppingAttended(x, c);
  }

  lemma RejoinKeepsRecovery(x: Context, c: Channel, g: nat)
    requires x.connection.Some?
    ensures
      var d := Rejoin(x, c, g, true);
      && d.recovery == c.recovery && d.joinRef == x.refs + 1
      && d.joinRef in d.operations && d.operations[d.joinRef].outcome.Pending?
  {
    hide JoinFailed;
  }

  lemma PassRejoinsSound(x: Context, cleaning: Cleaning, c: Channel)
    requires Sound(x, cleaning, Restarting, c) && ShouldRejoin(c) && c.joiner.None?
    ensures Sound(x.(refs := x.refs + 1), cleaning, Rejoins(x.refs + 1), Rejoin(x, c, x.generation, true))
  {
    hide Sound, Rejoin;
    QueuedFacts(x, cleaning, Restarting, c);
    RejoinSound(x, cleaning, Restarting, Rejoins(x.refs + 1), c, x.generation, NoRecovery);
    RejoinKeepsRecovery(x, c, x.generation);
  }

  lemma PassRejoinsAttended(x: Context, c: Channel)
    requires x.connection.Some?
    ensures Attended(x.(refs := x.refs + 1), Rejoins(x.refs + 1), Rejoin(x, c, x.generation, true))
  {
    hide Rejoin;
    RejoinFrame(x, c, x.generation);
    RejoinKeepsRecovery(x, c, x.generation);
  }

  lemma PassRejoinsOk(x: Context, cleaning: Cleaning, c: Channel)
    requires ChannelOk(x, cleaning, Restarting, c) && ShouldRejoin(c) && c.joiner.None?
    ensures ChannelOk(x.(refs := x.refs + 1), cleaning, Rejoins(x.refs + 1), Rejoin(x, c, x.generation, true))
  {
    hide Sound, Attended, Rejoin;
    QueuedFacts(x, cleaning, Restarting, c);
    PassRejoinsSound(x, cleaning, c);
    PassRejoinsAttended(x, c);
  }

  // Failed rejoins

  lemma RemovesSound(x: Context, cleaning: Cleaning, c: Channel)
    requires Sound(x, cleaning, Uninvolved, c) && x.connection.Some? && !JoinWaiter(Uninvolved, c)
    requires c.established && c.leftBy.Some? && LossCause(c.leftBy.value.0)
    ensures Sound(x, cleaning, Removes, c)
  {
    hide DeliveryOk;
  }

  /** A rejected rejoin: the pass unregisters the channel before it goes on. */
  lemma RejectedOk(x: Context, y: Context, cleaning: Cleaning, c: Channel)
    requires Sound(y, cleaning, Uninvolved, c) && y.connection.Some?
    requires Rejection(c.cause) && c.established && !JoinWaiter(Uninvolved, c) && c.loss.NoLoss?
    ensures ChannelOk(y, cleaning, Removes, Unregister(x, c))
  {
    hide Sound, Attended, StartLeave;
    RejectionFacts(y, cleaning, Uninvolved, c);
    LeftLeavesAlike(x, y, c);
    StartLeaveSound(y, cleaning, Uninvolved, c);
    StartLeaveKeepsCause(y, c);
    StillWaiting(y, cleaning, c);
    RemovesSound(y, cleaning, StartLeave(y, c));
    LeavingAttended(y, Removes, StartLeave(y, c));
  }

  lemma StillWaiting(x: Context, cleaning: Cleaning, c: Channel)
    requires Sound(x, cleaning, Uninvolved, c) && c.state != Created && !JoinWaiter(Uninvolved, c)
    ensures StartLeave(x, c).loss == c.loss && !JoinWaiter(Uninvolved, StartLeave(x, c))
    ensures !JoinWaiter(Removes, StartLeave(x, c)) && StartLeave(x, c).state == Left && !StartLeave(x, c).leaver.NoLeaver?
  {
    hide Sound, StartLeave;
    StartLeaveSound(x, cleaning, Uninvolved, c);
  }

  lemma PassRefusedOk(x: Context, cleaning: Cleaning, c: Channel)
    requires ContextOk(x) && ChannelOk(x, cleaning, Restarting, c) && ShouldRejoin(c) && c.joiner.None?
    ensures
      var (d, removing) := RejoinFailure(x, Rejoin(x, c, x.generation, false));
      removing && ChannelOk(x.(refs := x.refs + 1), cleaning, Removes, d)
  {
    hide Sound, Attended, Rejoin, Refused, Unregister;
    QueuedFacts(x, cleaning, Restarting, c);
    DoneSound(x, cleaning, Restarting, c);
    RejoinRefusedSound(x, cleaning, Uninvolved, c, x.generation);
    RefusedKeeps(x, c, x.generation);
    RejectedOk(x, x.(refs := x.refs + 1), cleaning, Refused(x, c, x.generation));
  }

  lemma RefusedKeeps(x: Context, c: Channel, g: nat)
    ensures
      var d := Refused(x, c, g);
      d.registered == c.registered && d.established == c.established && d.joiner == c.joiner && d.recovery == c.recovery
      && d.loss == c.loss && Rejection(d.cause)
  {
  }

  // The pass resumes

  lemma PassSucceededOk(x: Context, cleaning: Cleaning, role: Role, c: Channel)
    requires ChannelOk(x, cleaning, role, c) && role.Rejoins?
    requires c.joinRef in c.operations && c.operations[c.joinRef].outcome.Succeeded?
    ensures ChannelOk(x, cleaning, Uninvolved, c)
  {
    hide DeliveryOk;
  }

  lemma RejoinsFacts(x: Context, cleaning: Cleaning, role: Role, c: Channel)
    requires Sound(x, cleaning, role, c) && role.Rejoins? && OutcomeDone(c, role.ref)
    ensures role.ref == c.joinRef && c.established && c.joiner.None? && !c.recovery.AwaitingRejoin? && c.state != Created
    ensures x.connection.Some? && c.generation == x.generation && !c.ready.Pending?
    ensures c.operations[c.joinRef].outcome.Failed? ==> c.state == Rejoining || c.state == Left
    ensures c.recovery.NoRecovery? || c.state == Left || Recovers(c)
  {
  }

  lemma RecoveryStartsOk(x: Context, cleaning: Cleaning, c: Channel)
    requires Sound(x, cleaning, Uninvolved, c) && WillLeave(x, Uninvolved, c) && !JoinWaiter(Uninvolved, c)
    requires (c.state == Rejoining || c.state == Left) && !c.ready.Pending? && c.generation == x.generation
    requires c.recovery.NoRecovery? || c.state == Left || Recovers(c)
    ensures ChannelOk(x, cleaning, Uninvolved, StartRecovery(x, c, None))
  {
    hide Sound, Attended, StartRecovery;
    StartRecoverySound(x, cleaning, Uninvolved, c);
    Facts(x, cleaning, Uninvolved, c);
    StartRecoveryAttended(x, c, None);
  }

  lemma BackoffAttended(x: Context, c: Channel, g: nat)
    requires Tended(x, Uninvolved, c) && !c.recovery.AwaitingRejoin?
    ensures Attended(x, Uninvolved, c.(recovery := Backoff(g), recoveryCancelled := false))
  {
  }

  lemma UnownedAttended(x: Context, c: Channel)
    requires Tended(x, Uninvolved, c)
    requires c.state != Rejoining || !IsConnected(x) || Recovers(c)
    ensures Attended(x, Uninvolved, c)
  {
  }

  /** `_start_channel_recovery` starts one whenever a REJOINING channel could be rejoined and has none. */
  lemma StartRecoveryAttended(x: Context, c: Channel, generation: Option<nat>)
    requires Tended(x, Uninvolved, c)
    requires c.recovery.NoRecovery? || c.state == Left || Recovers(c)
    requires c.state == Rejoining ==> c.registered && c.established && !c.leaveRequested && !x.shutdown
    requires if generation.Some? then generation.value == x.generation else c.generation == x.generation
    ensures Attended(x, Uninvolved, StartRecovery(x, c, generation))
  {
    hide Attended, Tended;
    if StartRecovery(x, c, generation) == c {
      UnownedAttended(x, c);
    } else {
      BackoffAttended(x, c, x.generation);
    }
  }

  lemma JoinFailedResult(x: Context, cleaning: Cleaning, role: Role, c: Channel, failure: Failure)
    requires Sound(x, cleaning, role, c) && Attended(x, role, c)
    requires role.Rejoins? && OutcomeDone(c, role.ref) && c.operations[role.ref].outcome == Failed(failure)
    ensures
      var d := JoinFailed(x, c, failure);
      && (d.state == Rejoining || d.state == Left) && !d.ready.Pending? && d.generation == c.generation
      && d.established && !JoinWaiter(Uninvolved, d) && d.registered == c.registered
      && (if Rejection(d.cause) then d.loss.NoLoss? else WillLeave(x, Uninvolved, d))
      && (d.recovery.NoRecovery? || d.state == Left || Recovers(d))
  {
    hide Sound, Transition;
    Facts(x, cleaning, role, c);
    RejoinsFacts(x, cleaning, role, c);
    TransitionFrame(x, c, Configuration, failure);
    TransitionFrame(x, c, Timeout, ChannelFailure(DeadlineExpired));
  }

  lemma StoppingResumeAttended(x: Context, c: Channel)
    requires x.shutdown && ContextOk(x) && !JoinWaiter(Uninvolved, c)
    ensures Attended(x, Uninvolved, c)
  {
  }

  lemma UnregisteredAttended(x: Context, cleaning: Cleaning, c: Channel)
    requires Sound(x, cleaning, Uninvolved, c) && !c.registered && !JoinWaiter(Uninvolved, c)
    ensures Attended(x, Uninvolved, c)
  {
    hide Sound;
    Facts(x, cleaning, Uninvolved, c);
  }

  lemma PassFailedOk(x: Context, cleaning: Cleaning, role: Role, c: Channel, failure: Failure)
    requires ContextOk(x) && ChannelOk(x, cleaning, role, c)
    requires role.Rejoins? && OutcomeDone(c, role.ref) && c.operations[role.ref].outcome == Failed(failure)
    ensures
      var (d, removing) := RejoinFailure(x, JoinFailed(x, c, failure));
      ChannelOk(x, cleaning, if removing then Removes else Uninvolved, d)
  {
    hide Sound, JoinFailed, Unregister, StartRecovery, WillLeave;
    JoinFailedResult(x, cleaning, role, c, failure);
    RejoinsFacts(x, cleaning, role, c);
    JoinFailedSound(x, cleaning, role, c, failure);
    var d := JoinFailed(x, c, failure);
    DoneSound(x, cleaning, role, d);
    hide Attended;
    if x.shutdown || x.state == ShuttingDown {
      StoppingResumeAttended(x, d);
    } else if Rejection(d.cause) {
      if d.registered {
        RejectedOk(x, x, cleaning, d);
      } else {
        UnregisteredAttended(x, cleaning, d);
      }
    } else {
      RecoveryStartsOk(x, cleaning, d);
    }
  }

  lemma UnregisteredOk(x: Context, cleaning: Cleaning, c: Channel)
    requires ChannelOk(x, cleaning, Removes, c) && !c.leaver.NoLeaver?
    ensures ChannelOk(x, cleaning, Uninvolved, c.(loss := LossReporting))
  {
    hide Sound;
    RemovedFacts(x, cleaning, c);
    LossSound(x, cleaning, Removes, c, LossReporting);
    DoneSound(x, cleaning, Removes, c.(loss := LossReporting));
  }

  lemma RemovedFacts(x: Context, cleaning: Cleaning, c: Channel)
    requires Sound(x, cleaning, Removes, c)
    ensures c.established && c.leftBy.Some? && LossCause(c.leftBy.value.0) && c.state == Left
    ensures !JoinWaiter(Uninvolved, c)
  {
  }

  /** The end of the pass hands the channels that do not block it to their own recoveries. */
  lemma OptionalSound(x: Context, cleaning: Cleaning, c: Channel)
    requires Sound(x, cleaning, Queued, c)
    ensures Sound(x, cleaning, Uninvolved, StartRecovery(x, c, Some(x.generation)))
  {
    hide Sound;
    QueuedFacts(x, cleaning, Queued, c);
    DoneSound(x, cleaning, Queued, c);
    if c.state == Rejoining {
      BackoffSound(x, cleaning, Uninvolved, c);
    }
  }

  lemma OptionalAttended(x: Context, cleaning: Cleaning, c: Channel)
    requires Sound(x, cleaning, Queued, c) && Attended(x, Queued, c)
    ensures Attended(x, Uninvolved, StartRecovery(x, c, Some(x.generation)))
  {
    hide Sound, Attended, StartRecovery, Tended;
    QueuedFacts(x, cleaning, Queued, c);
    Facts(x, cleaning, Queued, c);
    QueuedTended(x, c);
    StartRecoveryAttended(x, c, Some(x.generation));
  }

  lemma QueuedTended(x: Context, c: Channel)
    requires Attended(x, Queued, c)
    ensures Tended(x, Uninvolved, c)
  {
  }

  lemma OptionalOk(x: Context, cleaning: Cleaning, c: Channel)
    requires ChannelOk(x, cleaning, Queued, c)
    ensures ChannelOk(x, cleaning, Uninvolved, StartRecovery(x, c, Some(x.generation)))
  {
    hide Sound, Attended, StartRecovery;
    OptionalSound(x, cleaning, c);
    OptionalAttended(x, cleaning, c);
  }

  // Sends that fail or stall, and new channels

  lemma WriteLostOk(x: Context, cleaning: Cleaning, role: Role, c: Channel, r: Ref)
    requires ChannelOk(x, cleaning, role, c) && r in c.operations
    ensures ChannelOk(x, cleaning, role, FinishWrite(c, r, true))
  {
    hide Sound, Attended, FinishSend, Settle;
    FinishSendSound(x, cleaning, role, c, r);
    SettleSound(x, cleaning, role, FinishSend(c, r), r, Failed(SocketFailure));
    FinishSendAttended(x, role, c, r);
    SettleAttended(x, role, FinishSend(c, r), r, Failed(SocketFailure));
  }

  lemma ExpiresOk(x: Context, cleaning: Cleaning, role: Role, c: Channel, r: Ref, failure: Failure)
    requires ChannelOk(x, cleaning, role, c)
    ensures ChannelOk(x, cleaning, role, Settle(c, r, Failed(failure)))
  {
    hide Sound, Attended, Settle;
    SettleSound(x, cleaning, role, c, r, Failed(failure));
    SettleAttended(x, role, c, r, Failed(failure));
  }

  lemma NewChannelOk(x: Context, cleaning: Cleaning, name: string, blocksReconnect: bool)
    ensures ChannelOk(x, cleaning, Uninvolved, NewChannel(name, blocksReconnect))
  {
  }
}
