/** The story of every loss through the sweeps, the supervisor's pass and whole runs. */
module ChannelReports {
  import opened Wrappers
  import opened ClientStates
  import opened Channels
  import opened ChannelProtocol
  import opened ChannelInvariant
  import opened ChannelHandlers
  import opened ChannelAttended
  import opened ChannelSweeps
  import opened ChannelPass
  import opened ChannelSystem
  import opened ChannelLosses

  // Sweeps

  lemma FailLiveStory(x: Context, role: Role, c: Channel, p: Past)
    requires Told(x.shutdown, role, p, StandingOf(c)) && (!c.leaver.NoLeaver? ==> c.state == Left)
    requires c.leaveRef.Some? ==> c.leaveRef.value != c.joinRef
    ensures Carried(x.shutdown, role, p, StandingOf(c), StandingOf(FailLive(x, c)))
  {
    hide StandingOf, SettleUnsubscribed, StartLeave, Told;
    UnsubscribedStanding(c, Failed(SocketFailure));
    SameStory(x.shutdown, role, p, StandingOf(c));
    if c.state == Left {
      StartLeaveStanding(x, SettleUnsubscribed(c, Failed(SocketFailure)));
      LeavingStory(x.shutdown, role, p, StandingOf(c));
    }
  }

  lemma FailPendingStory(x: Context, cleaning: Cleaning, role: Role, c: Channel, p: Past)
    requires Sound(x, cleaning, role, c) && Told(x.shutdown, role, p, StandingOf(c))
    ensures Carried(x.shutdown, role, p, StandingOf(c), StandingOf(FailPending(x, c)))
  {
    hide Sound, StandingOf, SettleUnsubscribed, Transition, FailLive, Told;
    StandingFacts(x, cleaning, role, c);
    SameStory(x.shutdown, role, p, StandingOf(c));
    UnsubscribedStanding(c, Failed(SocketFailure));
    if c.state != Left {
      var t := Transition(x, c, Transport, SocketFailure);
      ReadsWell(c);
      TransitionFrame(x, c, Transport, SocketFailure);
      TransitionStanding(x, c, Transport, SocketFailure);
      TransitionLeaveRef(x, c, Transport, SocketFailure);
      DepartingStory(x.shutdown, role, p, StandingOf(c), Transport, SocketFailure, t.state == Left);
      FailLiveStory(x, role, t, p);
      ReadsWell(t);
    }
  }

  lemma TransitionLeaveRef(x: Context, c: Channel, cause: Cause, failure: Failure)
    ensures Transition(x, c, cause, failure).leaveRef == c.leaveRef
  {
  }

  lemma BeginDisconnectStory(x: Context, cleaning: Cleaning, role: Role, c: Channel, p: Past)
    requires Sound(x, cleaning, role, c) && Told(x.shutdown, role, p, StandingOf(c))
    ensures Carried(x.shutdown, role, p, StandingOf(c), StandingOf(BeginDisconnect(x, c)))
  {
    hide Sound, StandingOf, FailPending, Told;
    FailPendingStory(x, cleaning, role, c, p);
    CancelledStanding(FailPending(x, c));
  }

  lemma CancelledStanding(c: Channel)
    ensures StandingOf(c.(recoveryCancelled := true)) == StandingOf(c)
  {
    hide JoinOf;
  }

  lemma EndCleanupStory(x: Context, cleaning: Cleaning, role: Role, closed: Option<ConnectionId>, c: Channel, p: Past)
    requires Sound(x, cleaning, role, c) && Told(x.shutdown, role, p, StandingOf(c))
    ensures Carried(x.shutdown, role, p, StandingOf(c), StandingOf(EndCleanup(x, closed, c)))
  {
    hide Sound, StandingOf, Release, Observe, Told;
    SameStory(x.shutdown, role, p, StandingOf(c));
    ObserveStanding(c);
    ReleaseStory(x, cleaning, role, c, p);
  }

  /** A stopped channel keeps the first reason it left for. */
  lemma StoppedStory(before: bool, stopping: bool, role: Role, p: Past, s: Standing, failure: Failure)
    requires Told(before, role, p, s) && (s.reported ==> s.leftBy.Some?) && (before ==> stopping)
    requires stopping || (!s.recovery.AwaitingRejoin? && !role.Rejoins?)
    requires failure != ChannelFailure(NotCurrent)
    ensures Carried(stopping, role, p, s, Departing(s, Stop, failure, true))
  {
  }

  lemma StoppingStory(before: bool, stopping: bool, role: Role, p: Past, s: Standing)
    requires Told(before, role, p, s) && (before ==> stopping)
    ensures Carried(stopping, role, p, s, s)
  {
  }

  lemma RetireStanding(x: Context, c: Channel, failure: Failure)
    requires c.registered && (!c.leaver.NoLeaver? ==> c.state == Left) && (c.cleanupDone ==> !c.leaver.NoLeaver?)
    ensures
      var t := Departing(StandingOf(c), Stop, failure, true);
      var d := StandingOf(Retire(x, c, failure));
      d == t || d == t.(leaving := true) || d == t.(leaving := true, registered := false)
  {
    hide StandingOf, Transition, Observe, StartLeave, Release;
    var t := Transition(x, c, Stop, failure);
    TransitionFrame(x, c, Stop, failure);
    TransitionStanding(x, c, Stop, failure);
    TransitionCleanup(x, c, Stop, failure);
    ObserveStanding(t);
    ObserveFrame(t);
    StartLeaveStanding(x, Observe(t));
    StartLeaveFrame(x, Observe(t));
    ReleaseStanding(x, StartLeave(x, Observe(t)));
    ReadsWell(StartLeave(x, Observe(t)));
  }

  lemma TransitionCleanup(x: Context, c: Channel, cause: Cause, failure: Failure)
    ensures Transition(x, c, cause, failure).cleanupDone == c.cleanupDone
  {
  }

  lemma ReleasingStory(stopping: bool, role: Role, p: Past, s: Standing, t: Standing)
    requires Carried(stopping, role, p, s, t)
    ensures Carried(stopping, role, p, s, t.(leaving := true))
    ensures Carried(stopping, role, p, s, t.(leaving := true, registered := false))
  {
    hide Told;
    LeavingStory(stopping, role, p, t);
    LeavingStory(stopping, role, p, t.(leaving := true));
  }

  lemma RetireStory(x: Context, y: Context, cleaning: Cleaning, role: Role, c: Channel, failure: Failure, p: Past)
    requires Sound(x, cleaning, role, c) && Told(x.shutdown, role, p, StandingOf(c)) && (x.shutdown ==> y.shutdown)
    requires y.shutdown || (c.registered ==> c.recovery.NoRecovery? && !role.Rejoins?)
    requires failure != ChannelFailure(NotCurrent)
    ensures Carried(y.shutdown, role, p, StandingOf(c), StandingOf(Retire(y, c, failure)))
  {
    hide Sound, StandingOf, Retire, Told;
    StandingFacts(x, cleaning, role, c);
    ReadsWell(c);
    if c.registered {
      RetireStanding(y, c, failure);
      StoppedStory(x.shutdown, y.shutdown, role, p, StandingOf(c), failure);
      hide Departing;
      ReleasingStory(y.shutdown, role, p, StandingOf(c), Departing(StandingOf(c), Stop, failure, true));
    } else {
      RetiresNothing(y, c, failure);
      StoppingStory(x.shutdown, y.shutdown, role, p, StandingOf(c));
    }
  }

  lemma RetiresNothing(x: Context, c: Channel, failure: Failure)
    requires !c.registered
    ensures Retire(x, c, failure) == c
  {
  }

  // The supervisor's pass

  /** Roles that wait for nothing and report nothing are interchangeable. */
  lemma IdleRole(stopping: bool, role: Role, next: Role, p: Past, s: Standing)
    requires Told(stopping, role, p, s) && !next.Rejoins? && next != Removes && role != Removes
    requires role.Rejoins? ==> !Rejection(s.cause)
    ensures Carried(stopping, next, p, s, s)
  {
  }

  lemma AbandonedRole(role: Role, p: Past, s: Standing)
    requires Told(true, role, p, s)
    ensures Carried(true, Uninvolved, p, s, s)
  {
  }

  lemma BeginRejoinStanding(x: Context, c: Channel)
    requires c.state != Joined
    ensures StandingOf(BeginRejoin(x, c)) == StandingOf(c)
  {
    hide JoinOf;
  }

  lemma PassNextStory(x: Context, cleaning: Cleaning, c: Channel, p: Past)
    requires Sound(x, cleaning, Queued, c) && Told(x.shutdown, Queued, p, StandingOf(c))
    ensures Carried(x.shutdown, Restarting, p, StandingOf(c), StandingOf(BeginRejoin(x, c)))
  {
    hide Sound, StandingOf, Told, BeginRejoin;
    QueuedFacts(x, cleaning, Queued, c);
    BeginRejoinStanding(x, c);
    IdleRole(x.shutdown, Queued, Restarting, p, StandingOf(c));
  }

  lemma PassRejoinsStory(x: Context, cleaning: Cleaning, c: Channel, p: Past)
    requires Sound(x, cleaning, Restarting, c) && Told(x.shutdown, Restarting, p, StandingOf(c)) && ShouldRejoin(c)
    ensures Carried(x.shutdown, Rejoins(x.refs + 1), p, StandingOf(c), StandingOf(Rejoin(x, c, x.generation, true)))
  {
    hide Sound, StandingOf, Told, Rejoin;
    QueuedFacts(x, cleaning, Restarting, c);
    StandingFacts(x, cleaning, Restarting, c);
    ReadsWell(c);
    IdleRole(x.shutdown, Restarting, Uninvolved, p, StandingOf(c));
    RejoinedStanding(x, c, x.generation, NoRecovery);
    RejoinStory(x.shutdown, Rejoins(x.refs + 1), p, StandingOf(c), x.refs + 1, c.recovery);
  }

  lemma UnregisterStanding(x: Context, c: Channel)
    requires c.state == Left
    ensures StandingOf(Unregister(x, c)) == StandingOf(c).(leaving := true)
  {
    hide StartLeave, StandingOf;
    StartLeaveStanding(x, c);
  }

  lemma PassRefusedStory(x: Context, cleaning: Cleaning, c: Channel, p: Past)
    requires ContextOk(x) && Sound(x, cleaning, Restarting, c) && Told(x.shutdown, Restarting, p, StandingOf(c)) && ShouldRejoin(c)
    requires c.joiner.None?
    ensures
      var (d, removing) := RejoinFailure(x, Rejoin(x, c, x.generation, false));
      removing && Carried(x.shutdown, Removes, p, StandingOf(c), StandingOf(d))
  {
    hide Sound, StandingOf, Told, Rejoin, Unregister, Refused;
    QueuedFacts(x, cleaning, Restarting, c);
    ReadsWell(c);
    IdleRole(x.shutdown, Restarting, Uninvolved, p, StandingOf(c));
    RejoinRefusedIs(x, cleaning, Restarting, c, x.generation);
    RefusedKeeps(x, c, x.generation);
    RefusedStanding(x, c, x.generation);
    UnregisterStanding(x, Refused(x, c, x.generation));
    RefusedRejoinStory(x.shutdown, p, StandingOf(c), x.refs + 1);
  }

  lemma PassSucceededStory(x: Context, cleaning: Cleaning, role: Role, c: Channel, p: Past)
    requires Sound(x, cleaning, role, c) && Attended(x, role, c) && Told(x.shutdown, role, p, StandingOf(c)) && role.Rejoins?
    requires c.joinRef in c.operations && c.operations[c.joinRef].outcome.Succeeded?
    ensures Carried(x.shutdown, Uninvolved, p, StandingOf(c), StandingOf(c))
  {
    hide Sound, Attended, StandingOf, Told;
    SucceededFact(x, role, c);
    ReadsWell(c);
    IdleRole(x.shutdown, role, Uninvolved, p, StandingOf(c));
  }

  /** What the pass makes of a failed join: a removal, a recovery, or nothing. */
  lemma PassResumedStory(stopping: bool, role: Role, p: Past, s: Standing, t: Standing)
    requires Told(stopping, role, p, s) && role.Rejoins? && !s.joiner && !s.recovery.AwaitingRejoin?
    requires t.joiner == s.joiner && t.loss == s.loss && t.reported == s.reported && t.joinRef == s.joinRef
    requires t.registered == s.registered && t.leaving == s.leaving && t.established == s.established && t.recovery == s.recovery
    requires Explained(Uninvolved, p, t.(joiner := false, recovery := NoRecovery))
    requires t.leftBy.Some? && s.leftBy.None? && LossCause(t.leftBy.value.0) ==> Rejection(t.cause)
    requires Rejection(s.cause) ==> t == s
    requires t.leftBy == s.leftBy || s.leftBy.None?
    ensures Rejection(t.cause) ==> Carried(stopping, Removes, p, s, t.(leaving := true))
    ensures !Rejection(t.cause) || stopping || p.dropped ==> Carried(stopping, Uninvolved, p, s, t)
  {
  }

  lemma FailedRejoinStanding(x: Context, cleaning: Cleaning, role: Role, c: Channel, failure: Failure, p: Past)
    requires Sound(x, cleaning, role, c) && Attended(x, role, c) && Told(x.shutdown, role, p, StandingOf(c)) && role.Rejoins?
    requires c.joinRef in c.operations && c.operations[c.joinRef].outcome == Failed(failure)
    ensures
      var d := JoinFailed(x, c, failure);
      && (Rejection(d.cause) ==> d.state == Left && Carried(x.shutdown, Removes, p, StandingOf(c), StandingOf(d).(leaving := true)))
      && (!Rejection(d.cause) || x.shutdown || p.dropped ==> Carried(x.shutdown, Uninvolved, p, StandingOf(c), StandingOf(d)))
      && d.registered == c.registered && (Rejection(d.cause) && !c.registered ==> Rejection(c.cause))
  {
    hide Sound, Attended, Told, Explained, StandingOf, JoinFailed, Carried;
    Facts(x, cleaning, role, c);
    StandingFacts(x, cleaning, role, c);
    CauseIsKeptHere(x, role, c);
    ReadsWell(c);
    var s, d := StandingOf(c), JoinFailed(x, c, failure);
    JoinFailedStanding(x, c, failure);
    ReadsWell(d);
    FailingStory(x.shutdown, role, p, s, failure, d.state == Left);
    PassResumedStory(x.shutdown, role, p, s, StandingOf(d));
    RejectionFrame(x, c, failure);
  }

  lemma RejectionFrame(x: Context, c: Channel, failure: Failure)
    requires c.leaver.NoLeaver? || c.state == Left
    ensures
      var d := JoinFailed(x, c, failure);
      d.registered == c.registered && (Rejection(d.cause) ==> d.state == Left || Rejection(c.cause))
  {
    hide Transition;
    TransitionFrame(x, c, Configuration, failure);
    TransitionFrame(x, c, Timeout, ChannelFailure(DeadlineExpired));
  }

  lemma PassFailedStory(x: Context, cleaning: Cleaning, role: Role, c: Channel, failure: Failure, p: Past)
    requires ContextOk(x) && Sound(x, cleaning, role, c) && Attended(x, role, c) && Told(x.shutdown, role, p, StandingOf(c))
    requires role.Rejoins? && c.joinRef in c.operations && c.operations[c.joinRef].outcome == Failed(failure)
    requires !c.registered && Rejection(c.cause) && !x.shutdown ==> p.dropped
    ensures
      var (d, removing) := RejoinFailure(x, JoinFailed(x, c, failure));
      Carried(x.shutdown, if removing then Removes else Uninvolved, p, StandingOf(c), StandingOf(d))
  {
    hide Sound, Attended, Told, StandingOf, JoinFailed, Unregister, StartRecovery;
    FailedRejoinStanding(x, cleaning, role, c, failure, p);
    var d := JoinFailed(x, c, failure);
    if x.shutdown || x.state == ShuttingDown {
    } else if Rejection(d.cause) {
      UnregisterStanding(x, d);
    } else {
      StartRecoveryStory(x, Uninvolved, d, None, p);
      StartRecoveryStanding(x, d, None);
    }
  }

  lemma PassUnregisteredStory(x: Context, role: Role, c: Channel, p: Past)
    requires Attended(x, Removes, c) && Told(x.shutdown, Removes, p, StandingOf(c))
    ensures Carried(x.shutdown, Uninvolved, p, StandingOf(c), StandingOf(c.(loss := LossReporting)))
  {
    hide JoinOf;
  }

  lemma OptionalStory(x: Context, c: Channel, p: Past)
    requires Told(x.shutdown, Queued, p, StandingOf(c))
    ensures Carried(x.shutdown, Uninvolved, p, StandingOf(c), StandingOf(StartRecovery(x, c, Some(x.generation))))
  {
    hide StandingOf, Told, StartRecovery;
    IdleRole(x.shutdown, Queued, Uninvolved, p, StandingOf(c));
    StartRecoveryStory(x, Uninvolved, c, Some(x.generation), p);
  }

  // Steps of the whole client

  /** The step drops the report of channel i: its recovery is cancelled while it holds a refusal, or
      its loss task or the pass finds the name of the lost channel free already. */
  predicate Drops(s: System, e: Step, i: nat) {
    i < |s.channels| &&
    match e
    case At(j, a) => j == i && DropsReport(s.channels[i], a)
    case PassResumes =>
      && s.pass.Pass? && s.pass.active.Awaiting? && s.pass.active.channel == i
      && !s.channels[i].registered && Rejection(s.channels[i].cause) && !s.client.shutdown
    case _ => false
  }

  /** The write of channel i's pending join r starts on a send session that has failed. */
  predicate RefusedAt(s: System, e: Step, i: nat, r: Ref) {
    i < |s.channels| && e == At(i, SendStarts(r)) && s.client.sendFailed && IsPending(s.channels[i].operations, r)
  }

  /** The story of channel i. */
  predicate ToldOf(s: System, i: nat, p: Past)
    requires i < |s.channels|
  {
    Told(s.client.shutdown, RoleOf(s.pass, i), p, StandingOf(s.channels[i]))
  }

  predicate CarriedOf(s: System, t: System, i: nat, p: Past)
    requires i < |s.channels|
  {
    i < |t.channels| &&
    Carried(t.client.shutdown, RoleOf(t.pass, i), p, StandingOf(s.channels[i]), StandingOf(t.channels[i]))
  }

  /** Channel i stays, and so does its role. */
  lemma Untouched(s: System, t: System, i: nat, p: Past)
    requires i < |s.channels| <= |t.channels| && t.channels[i] == s.channels[i] && ToldOf(s, i, p)
    requires t.client.shutdown == s.client.shutdown && RoleOf(t.pass, i) == RoleOf(s.pass, i)
    ensures CarriedOf(s, t, i, p)
  {
    hide Told, StandingOf;
    SameStory(s.client.shutdown, RoleOf(s.pass, i), p, StandingOf(s.channels[i]));
  }

  lemma ActOf(s: System, j: nat, a: Action, i: nat)
    requires Enabled(s, At(j, a)) && i < |s.channels|
    ensures
      var t := Next(s, At(j, a));
      && |t.channels| == |s.channels| && t.client.shutdown == s.client.shutdown && t.pass == s.pass
      && t.channels[i] == (if i == j then Act(s.client, s.channels[i], a) else s.channels[i])
  {
    hide Act, Generates, ActionEnabled, Submits;
  }

  lemma AtStory(s: System, j: nat, a: Action, i: nat, p: Past)
    requires SystemOk(s) && Enabled(s, At(j, a)) && i < |s.channels| && ToldOf(s, i, p)
    requires (Drops(s, At(j, a), i) ==> p.dropped) && (RefusedAt(s, At(j, a), i, s.channels[i].joinRef) ==> p.refused)
    ensures CarriedOf(s, Next(s, At(j, a)), i, p)
  {
    hide SystemOk, Next, Told, Carried, StandingOf, Sound, Attended, ContextOk, Act, ActionEnabled;
    ActOf(s, j, a, i);
    if i == j {
      OkAt(s, i);
      ActStory(s.client, s.cleaning, RoleOf(s.pass, i), s.channels[i], a, p);
    } else {
      Untouched(s, Next(s, At(j, a)), i, p);
    }
  }

  /** A channel that first moves alone, then is swept. */
  lemma FailedSessionOf(s: System, t: System, i: nat, c: Channel, p: Past)
    requires SystemOk(s) && i < |s.channels| && s.channels[i] == c && ToldOf(s, i, p)
    requires t == FailSession(s)
    ensures CarriedOf(s, t, i, p) && t.pass == s.pass && t.client.shutdown == s.client.shutdown
  {
    hide SystemOk, Told, StandingOf, Sound, Attended, ContextOk, FailPending;
    OkAt(s, i);
    if s.client.sendFailed {
      Untouched(s, t, i, p);
    } else {
      FailPendingStory(s.client, s.cleaning, RoleOf(s.pass, i), c, p);
    }
  }

  lemma LostWriteStanding(c: Channel, r: Ref)
    requires r in c.operations
    ensures StandingOf(FinishWrite(c, r, true)) == Settling(StandingOf(c), r, Failed(SocketFailure))
  {
    hide StandingOf, Settle, FinishSend;
    StageStanding(c, r, Finished, false);
    SettleStanding(FinishSend(c, r), r, Failed(SocketFailure));
  }

  /** An operation of channel j is settled, other than by the session's refusal of its join. */
  lemma SettledOf(s: System, j: nat, d: Channel, i: nat, failure: Failure, r: Ref, p: Past)
    requires j < |s.channels| && i < |s.channels| && ToldOf(s, i, p)
    requires StandingOf(d) == Settling(StandingOf(s.channels[j]), r, Failed(failure))
    requires r == s.channels[j].joinRef ==> !failure.ChannelFailure?
    ensures CarriedOf(s, Update(s, j, d), i, p)
    ensures Update(s, j, d).channels[i].joinRef == s.channels[i].joinRef
  {
    hide Told, StandingOf;
    ReadsWell(s.channels[j]);
    ReadsWell(d);
    if i == j {
      SettlingStory(s.client.shutdown, RoleOf(s.pass, i), p, StandingOf(s.channels[i]), r, failure);
    } else {
      Untouched(s, Update(s, j, d), i, p);
    }
  }

  lemma CarriedThrough(s: System, t: System, u: System, i: nat, p: Past)
    requires i < |s.channels| && i < |t.channels| && CarriedOf(s, t, i, p) && CarriedOf(t, u, i, p)
    requires t.channels[i].joinRef == s.channels[i].joinRef
    ensures CarriedOf(s, u, i, p)
  {
    hide Told, StandingOf;
    ReadsWell(s.channels[i]);
    ReadsWell(t.channels[i]);
  }

  lemma WriteLostOf(s: System, j: nat, r: Ref, i: nat, p: Past)
    requires SystemOk(s) && Enabled(s, WriteLost(j, r)) && i < |s.channels| && ToldOf(s, i, p)
    ensures CarriedOf(s, Next(s, WriteLost(j, r)), i, p)
  {
    hide ChannelOk, FinishWrite, FailSession, ToldOf, CarriedOf;
    var d := FinishWrite(s.channels[j], r, true);
    var t := Update(s, j, d);
    LostWriteStanding(s.channels[j], r);
    SettledOf(s, j, d, i, SocketFailure, r, p);
    WriteLostOk(s.client, s.cleaning, RoleOf(s.pass, j), s.channels[j], r);
    OneMoves(s, j, d, false);
    SweptAfter(s, t, i, p);
  }

  /** The session fails after one channel has moved. */
  lemma SweptAfter(s: System, t: System, i: nat, p: Past)
    requires i < |s.channels| == |t.channels| && SystemOk(t) && CarriedOf(s, t, i, p)
    requires t.channels[i].joinRef == s.channels[i].joinRef
    ensures CarriedOf(s, FailSession(t), i, p)
  {
    hide SystemOk, Told, StandingOf, FailSession;
    FailedSessionOf(t, FailSession(t), i, t.channels[i], p);
    CarriedThrough(s, t, FailSession(t), i, p);
  }

  lemma JoinKind(s: System, j: nat)
    requires SystemOk(s) && j < |s.channels|
    ensures
      var c := s.channels[j];
      c.joinRef in c.operations ==> c.operations[c.joinRef].kind == JoinOperation
  {
    hide SystemOk, Sound, Attended, ContextOk;
    OkAt(s, j);
    StandingFacts(s.client, s.cleaning, RoleOf(s.pass, j), s.channels[j]);
  }

  lemma ExpiresOf(s: System, j: nat, r: Ref, i: nat, p: Past)
    requires SystemOk(s) && Enabled(s, Expires(j, r)) && i < |s.channels| && ToldOf(s, i, p)
    ensures CarriedOf(s, Next(s, Expires(j, r)), i, p)
  {
    hide ChannelOk, Settle, FailSession, ToldOf, CarriedOf;
    var failure := TimeoutError(s.channels[j].operations[r].kind);
    var d := Settle(s.channels[j], r, Failed(failure));
    var t := Update(s, j, d);
    JoinKind(s, j);
    SettleStanding(s.channels[j], r, Failed(failure));
    SettledOf(s, j, d, i, failure, r, p);
    ExpiresOk(s.client, s.cleaning, RoleOf(s.pass, j), s.channels[j], r, failure);
    OneMoves(s, j, d, false);
    SweptAfter(s, t, i, p);
  }

  lemma SweepOf(s: System, e: Step, i: nat, p: Past)
    requires SystemOk(s) && Enabled(s, e) && i < |s.channels| && ToldOf(s, i, p)
    requires e.RoutingStops? || e.CleanupBegins? || e.CleanupEnds?
    ensures CarriedOf(s, Next(s, e), i, p)
  {
    hide SystemOk, Told, StandingOf, Sound, Attended, ContextOk, FailPending, BeginDisconnect, EndCleanup, CleanedUp;
    OkAt(s, i);
    var x, role, c := s.client, RoleOf(s.pass, i), s.channels[i];
    FailPendingStory(x, s.cleaning, role, c, p);
    BeginDisconnectStory(x, s.cleaning, role, c, p);
    if e.CleanupEnds? {
      EndCleanupStory(x, s.cleaning, role, s.cleaning.value, c, p);
    }
  }

  lemma AdoptRefusedOf(s: System, i: nat, p: Past)
    requires SystemOk(s) && Enabled(s, AdoptRefused) && i < |s.channels| && ToldOf(s, i, p)
    ensures CarriedOf(s, Next(s, AdoptRefused), i, p)
  {
    hide SystemOk, Told, StandingOf, Sound, Attended, BeginDisconnect;
    OkAt(s, i);
    OpenedSound(s.client, s.channels[i], s.sockets);
    BeginDisconnectStory(Opened(s.client, s.sockets), None, Uninvolved, s.channels[i], p);
  }

  lemma AdoptOf(s: System, i: nat, p: Past)
    requires SystemOk(s) && Enabled(s, Adopt) && i < |s.channels| && ToldOf(s, i, p)
    ensures CarriedOf(s, Next(s, Adopt), i, p)
  {
    hide SystemOk, Told, StandingOf;
    var role := RoleOf(Next(s, Adopt).pass, i);
    assert role == Queued || role == Uninvolved;
    IdleRole(s.client.shutdown, Uninvolved, role, p, StandingOf(s.channels[i]));
  }

  lemma StopOf(s: System, e: Step, i: nat, p: Past)
    requires SystemOk(s) && Enabled(s, e) && i < |s.channels| && ToldOf(s, i, p) && (e.RequestStop? || e.SupervisorExits?)
    ensures CarriedOf(s, Next(s, e), i, p)
  {
    hide SystemOk, Told, StandingOf, Sound, Attended, Retire;
    OkAt(s, i);
    var x, y, role, c := s.client, Next(s, e).client, RoleOf(s.pass, i), s.channels[i];
    if e.RequestStop? {
      RetireStory(x, y, s.cleaning, role, c, ChannelFailure(StoppingClient), p);
    } else {
      IdleAtExit(x, role, c);
      RetireSame(x, y, c, SocketFailure);
      RetireStory(x, y, s.cleaning, role, c, SocketFailure, p);
    }
  }

  lemma IdleAtExit(x: Context, role: Role, c: Channel)
    requires ContextOk(x) && Sound(x, None, role, c) && x.connection.None? && x.state != ShuttingDown
    ensures x.shutdown || (c.registered ==> c.recovery.NoRecovery? && !role.Rejoins?)
  {
    hide MailOk, OperationsOk, LifeOk, PlaceOk;
  }

  lemma PassNextOf(s: System, j: nat, i: nat, p: Past)
    requires SystemOk(s) && Enabled(s, PassNext(j)) && i < |s.channels| && ToldOf(s, i, p)
    ensures CarriedOf(s, Next(s, PassNext(j)), i, p)
  {
    hide SystemOk, Told, StandingOf, Sound, Attended, ContextOk, BeginRejoin, ShouldRejoin;
    var t := Next(s, PassNext(j));
    OkAt(s, i);
    PassShape(s);
    if i != j {
      Untouched(s, t, i, p);
    } else if ShouldRejoin(s.channels[i]) {
      PassNextStory(s.client, s.cleaning, s.channels[i], p);
    } else {
      IdleRole(s.client.shutdown, Queued, Uninvolved, p, StandingOf(s.channels[i]));
    }
  }

  lemma PassShape(s: System)
    requires SystemOk(s)
    ensures PassOk(s)
  {
    hide ChannelOk, ContextOk, PassOk;
  }

  lemma PassRestartsOf(s: System, paramsOk: bool, i: nat, p: Past)
    requires SystemOk(s) && Enabled(s, PassRestarts(paramsOk)) && i < |s.channels| && ToldOf(s, i, p)
    ensures CarriedOf(s, Next(s, PassRestarts(paramsOk)), i, p)
  {
    hide SystemOk, Told, StandingOf, Sound, Attended, ContextOk, Rejoin, ShouldRejoin, RejoinFailure;
    var x, c, t := s.client, s.channels[i], Next(s, PassRestarts(paramsOk));
    OkAt(s, i);
    PassShape(s);
    if i != s.pass.active.channel {
      Untouched(s, t, i, p);
    } else if !ShouldRejoin(c) {
      IdleRole(x.shutdown, Restarting, Uninvolved, p, StandingOf(c));
    } else if paramsOk {
      PassRejoinsStory(x, s.cleaning, c, p);
      RejoinKeepsRecovery(x, c, x.generation);
    } else {
      PassRefusedStory(x, s.cleaning, c, p);
    }
  }

  lemma PassResumesOf(s: System, i: nat, p: Past)
    requires SystemOk(s) && Enabled(s, PassResumes) && i < |s.channels| && ToldOf(s, i, p)
    requires Drops(s, PassResumes, i) ==> p.dropped
    ensures CarriedOf(s, Next(s, PassResumes), i, p)
  {
    hide SystemOk, Told, StandingOf, Sound, Attended, ContextOk, JoinFailed, RejoinFailure;
    var x, role, c, t := s.client, RoleOf(s.pass, i), s.channels[i], Next(s, PassResumes);
    OkAt(s, i);
    PassShape(s);
    if i != s.pass.active.channel {
      Untouched(s, t, i, p);
    } else {
      OwnRef(x, s.cleaning, role, c);
      var outcome := c.operations[c.joinRef].outcome;
      if outcome.Succeeded? {
        PassSucceededStory(x, s.cleaning, role, c, p);
      } else {
        PassFailedStory(x, s.cleaning, role, c, outcome.failure, p);
      }
    }
  }

  lemma OwnRef(x: Context, cleaning: Cleaning, role: Role, c: Channel)
    requires Sound(x, cleaning, role, c) && role.Rejoins?
    ensures role.ref == c.joinRef && c.joinRef in c.operations
  {
    hide MailOk, LifeOk, PlaceOk, OperationsOk;
  }

  lemma PassEndsOf(s: System, e: Step, i: nat, p: Past)
    requires SystemOk(s) && Enabled(s, e) && i < |s.channels| && ToldOf(s, i, p)
    requires e.PassUnregistered? || e.PassOptional? || e.SupervisorCancelled?
    ensures CarriedOf(s, Next(s, e), i, p)
  {
    hide SystemOk, Told, StandingOf, Sound, Attended, ContextOk, StartRecovery;
    var x, c := s.client, s.channels[i];
    OkAt(s, i);
    PassShape(s);
    if e.SupervisorCancelled? {
      AbandonedRole(RoleOf(s.pass, i), p, StandingOf(c));
    } else if e.PassUnregistered? {
      if i == s.pass.active.channel {
        PassUnregisteredStory(x, Removes, c, p);
      } else {
        Untouched(s, Next(s, e), i, p);
      }
    } else if i in s.pass.optional {
      OptionalStory(x, c, p);
    } else {
      Untouched(s, Next(s, e), i, p);
    }
  }

  lemma QuietOf(s: System, e: Step, i: nat, p: Past)
    requires SystemOk(s) && Enabled(s, e) && i < |s.channels| && ToldOf(s, i, p)
    requires e.Open? || e.Answers? || e.AdoptWhileStopping?
    ensures CarriedOf(s, Next(s, e), i, p)
  {
    hide SystemOk, Told, StandingOf, NewChannel;
    Untouched(s, Next(s, e), i, p);
  }

  /** Every step of the client keeps the story of every channel. */
  lemma NextStory(s: System, e: Step, i: nat, p: Past)
    requires SystemOk(s) && Enabled(s, e) && i < |s.channels| && ToldOf(s, i, p)
    requires (Drops(s, e, i) ==> p.dropped) && (RefusedAt(s, e, i, s.channels[i].joinRef) ==> p.refused)
    ensures CarriedOf(s, Next(s, e), i, p)
  {
    hide SystemOk, Next, ToldOf, CarriedOf, Enabled;
    match e
    case Open(_, _) => QuietOf(s, e, i, p);
    case At(j, a) => AtStory(s, j, a, i, p);
    case WriteLost(j, r) => WriteLostOf(s, j, r, i, p);
    case Expires(j, r) => ExpiresOf(s, j, r, i, p);
    case Answers(_, _, _) => QuietOf(s, e, i, p);
    case PassNext(j) => PassNextOf(s, j, i, p);
    case PassRestarts(paramsOk) => PassRestartsOf(s, paramsOk, i, p);
    case PassResumes => PassResumesOf(s, i, p);
    case PassUnregistered => PassEndsOf(s, e, i, p);
    case PassOptional => PassEndsOf(s, e, i, p);
    case Adopt => AdoptOf(s, i, p);
    case AdoptRefused => AdoptRefusedOf(s, i, p);
    case AdoptWhileStopping => QuietOf(s, e, i, p);
    case RoutingStops => SweepOf(s, e, i, p);
    case CleanupBegins => SweepOf(s, e, i, p);
    case CleanupEnds => SweepOf(s, e, i, p);
    case RequestStop => StopOf(s, e, i, p);
    case SupervisorCancelled => PassEndsOf(s, e, i, p);
    case SupervisorExits => StopOf(s, e, i, p);
  }

  // Whole runs

  /** An earlier step dropped the report of channel i. */
  ghost predicate WasDropped(v2: bool, queueLimit: nat, steps: seq<Step>, i: nat) {
    exists n: nat :: n < |steps| && Run(v2, queueLimit, steps[..n]).Some?
      && Drops(Run(v2, queueLimit, steps[..n]).value, steps[n], i)
  }

  /** The write of channel i's join r once started on a send session that had failed. */
  ghost predicate WasRefused(v2: bool, queueLimit: nat, steps: seq<Step>, i: nat, r: Ref) {
    exists n: nat :: n < |steps| && Run(v2, queueLimit, steps[..n]).Some?
      && RefusedAt(Run(v2, queueLimit, steps[..n]).value, steps[n], i, r)
  }

  ghost function PastOf(v2: bool, queueLimit: nat, steps: seq<Step>, i: nat, r: Ref): Past {
    Past(WasDropped(v2, queueLimit, steps, i), WasRefused(v2, queueLimit, steps, i, r))
  }

  lemma PastGrows(v2: bool, queueLimit: nat, steps: seq<Step>, i: nat, r: Ref)
    requires steps != [] && Run(v2, queueLimit, steps).Some?
    ensures
      var before := steps[..|steps| - 1];
      var s, e := Run(v2, queueLimit, before).value, steps[|steps| - 1];
      && (WasDropped(v2, queueLimit, before, i) || Drops(s, e, i) ==> WasDropped(v2, queueLimit, steps, i))
      && (WasRefused(v2, queueLimit, before, i, r) || RefusedAt(s, e, i, r) ==> WasRefused(v2, queueLimit, steps, i, r))
  {
    hide Run, Drops, RefusedAt;
    var before := steps[..|steps| - 1];
    var last := |steps| - 1;
    assert Run(v2, queueLimit, before).Some? by {
      LastStep(v2, queueLimit, steps);
    }
    if WasDropped(v2, queueLimit, before, i) {
      var n: nat :| n < |before| && Run(v2, queueLimit, before[..n]).Some? && Drops(Run(v2, queueLimit, before[..n]).value, before[n], i);
      assert before[..n] == steps[..n] && before[n] == steps[n];
    }
    if WasRefused(v2, queueLimit, before, i, r) {
      var n: nat :| n < |before| && Run(v2, queueLimit, before[..n]).Some? && RefusedAt(Run(v2, queueLimit, before[..n]).value, before[n], i, r);
      assert before[..n] == steps[..n] && before[n] == steps[n];
    }
    assert steps[..last] == before;
  }

  lemma LastStep(v2: bool, queueLimit: nat, steps: seq<Step>)
    requires steps != [] && Run(v2, queueLimit, steps).Some?
    ensures
      var before := Run(v2, queueLimit, steps[..|steps| - 1]);
      && before.Some? && Enabled(before.value, steps[|steps| - 1])
      && Run(v2, queueLimit, steps).value == Next(before.value, steps[|steps| - 1])
  {
    hide Enabled, Next;
  }

  /** A past that says more explains no less. */
  lemma LongerPast(stopping: bool, role: Role, p: Past, q: Past, s: Standing)
    requires Told(stopping, role, p, s) && (p.dropped ==> q.dropped)
    requires p.refused && s.join == Some(NOT_CURRENT_FAILURE) ==> q.refused
    ensures Told(stopping, role, q, s)
  {
  }

  lemma NewlyOpened(s: System, e: Step, i: nat, p: Past)
    requires Enabled(s, e) && |s.channels| <= i < |Next(s, e).channels| && SystemOk(s)
    ensures ToldOf(Next(s, e), i, p)
  {
    hide Told, StandingOf, NewChannel, Act, Generates, Submits, FinishWrite, Settle, BeginRejoin, Rejoin, RejoinFailure,
      ShouldRejoin, JoinFailed, ActionEnabled, CleanedUp, NameTaken, OutcomeDone, ChannelOk, ContextOk;
    assert e.Open?;
    NewStory(s.client.shutdown, RoleOf(s.pass, i), p, e.name, e.blocksReconnect);
  }

  /** The story of every channel is told after every run. */
  lemma {:induction false} RunStory(v2: bool, queueLimit: nat, steps: seq<Step>, i: nat)
    requires Run(v2, queueLimit, steps).Some? && i < |Run(v2, queueLimit, steps).value.channels|
    ensures
      var s := Run(v2, queueLimit, steps).value;
      ToldOf(s, i, PastOf(v2, queueLimit, steps, i, s.channels[i].joinRef))
  {
    hide Run, Next, Enabled, SystemOk, Told, WasDropped, WasRefused, Drops, RefusedAt, StandingOf;
    if steps == [] {
      EmptyRun(v2, queueLimit);
    } else {
      LastStep(v2, queueLimit, steps);
      var before := steps[..|steps| - 1];
      var s, t := Run(v2, queueLimit, before).value, Run(v2, queueLimit, steps).value;
      var e := steps[|steps| - 1];
      var q := PastOf(v2, queueLimit, steps, i, t.channels[i].joinRef);
      RunKeeps(v2, queueLimit, before);
      if i < |s.channels| {
        RunStory(v2, queueLimit, before, i);
        StepStory(v2, queueLimit, steps, i);
      } else {
        NewlyOpened(s, e, i, q);
      }
    }
  }

  lemma EmptyRun(v2: bool, queueLimit: nat)
    ensures Run(v2, queueLimit, []) == Some(Init(v2, queueLimit)) && Init(v2, queueLimit).channels == []
  {
  }

  lemma StepStory(v2: bool, queueLimit: nat, steps: seq<Step>, i: nat)
    requires steps != [] && Run(v2, queueLimit, steps).Some? && Run(v2, queueLimit, steps[..|steps| - 1]).Some?
    requires
      var s := Run(v2, queueLimit, steps[..|steps| - 1]).value;
      SystemOk(s) && i < |s.channels| && ToldOf(s, i, PastOf(v2, queueLimit, steps[..|steps| - 1], i, s.channels[i].joinRef))
    ensures
      var t := Run(v2, queueLimit, steps).value;
      i < |t.channels| && ToldOf(t, i, PastOf(v2, queueLimit, steps, i, t.channels[i].joinRef))
  {
    hide Run, Next, Enabled, SystemOk, Told, WasDropped, WasRefused, Drops, RefusedAt, StandingOf;
    LastStep(v2, queueLimit, steps);
    var before, e := steps[..|steps| - 1], steps[|steps| - 1];
    var s, t := Run(v2, queueLimit, before).value, Run(v2, queueLimit, steps).value;
    var r := s.channels[i].joinRef;
    var p, q := PastOf(v2, queueLimit, before, i, r), PastOf(v2, queueLimit, steps, i, r);
    PastGrows(v2, queueLimit, steps, i, r);
    LongerPast(s.client.shutdown, RoleOf(s.pass, i), p, q, StandingOf(s.channels[i]));
    NextStory(s, e, i, q);
    ReadsWell(s.channels[i]);
    ReadsWell(t.channels[i]);
    LongerPast(t.client.shutdown, RoleOf(t.pass, i), q, PastOf(v2, queueLimit, steps, i, t.channels[i].joinRef), StandingOf(t.channels[i]));
  }
}
