/** Steps of the whole client, seen from one of its channels. */
module ChannelSweeps {
  import opened Wrappers
  import opened ClientStates
  import opened Channels
  import opened ChannelProtocol
  import opened ChannelInvariant
  import opened ChannelHandlers
  import opened ChannelSteps
  import opened ChannelAttended

  /** Another channel's step may only generate a ref. */
  lemma OthersSound(x: Context, cleaning: Cleaning, role: Role, c: Channel)
    requires Sound(x, cleaning, role, c)
    ensures Sound(x.(refs := x.refs + 1), cleaning, role, c)
  {
    hide DeliveryOk;
  }

  lemma OthersOk(x: Context, cleaning: Cleaning, role: Role, c: Channel)
    requires ChannelOk(x, cleaning, role, c)
    ensures ChannelOk(x.(refs := x.refs + 1), cleaning, role, c)
  {
    hide Sound, Attended;
    OthersSound(x, cleaning, role, c);
    SameAttended(x, x.(refs := x.refs + 1), role, c);
  }

  // The connection stops carrying replies

  /** Nothing is awaited: no outcome is pending and the channel is not JOINING or JOINED. */
  predicate Idle(c: Channel) {
    && (c.state == Created || c.state == Rejoining || c.state == Left)
    && (forall r :: r in c.operations ==> !IsPending(c.operations, r))
    && (c.registered ==> !c.ready.Pending?)
  }

  lemma FailLiveSound(x: Context, cleaning: Cleaning, role: Role, c: Channel)
    requires Sound(x, cleaning, role, c) && c.state != Created
    ensures Sound(x, cleaning, role, FailLive(x, c)) && FailLive(x, c).state == c.state
  {
    hide Sound, SettleUnsubscribed, StartLeave;
    if c.state == Left {
      UnsubscribedLeft(c, Failed(SocketFailure));
      SettleUnsubscribedSound(x, cleaning, role, c, Failed(SocketFailure));
      StartLeaveSound(x, cleaning, role, SettleUnsubscribed(c, Failed(SocketFailure)));
    }
  }

  lemma UnsubscribedLeft(c: Channel, f: Future)
    ensures SettleUnsubscribed(c, f).state == c.state
  {
  }

  lemma FailPendingSound(x: Context, cleaning: Cleaning, role: Role, c: Channel)
    requires Sound(x, cleaning, role, c)
    ensures Sound(x, cleaning, role, FailPending(x, c))
  {
    hide Sound, SettleUnsubscribed, Transition, FailLive;
    if c.registered {
      CreatedFacts(x, cleaning, role, c);
      if c.state == Left {
        SettleUnsubscribedSound(x, cleaning, role, c, Failed(SocketFailure));
      } else {
        TransitionFrame(x, c, Transport, SocketFailure);
        TransitionSound(x, cleaning, role, c, Transport, SocketFailure);
        FailLiveSound(x, cleaning, role, Transition(x, c, Transport, SocketFailure));
      }
    }
  }

  lemma UntouchedIdle(x: Context, cleaning: Cleaning, role: Role, c: Channel)
    requires Sound(x, cleaning, role, c) && (!c.registered || (c.connection.Some? && c.connection != x.connection))
    ensures Idle(c)
  {
    hide DeliveryOk;
  }

  lemma LeftPending(x: Context, cleaning: Cleaning, role: Role, c: Channel)
    requires Sound(x, cleaning, role, c) && c.state == Left
    ensures forall r: Ref :: IsPending(c.operations, r) ==> c.leaveRef == Some(r) && c.unsubscribed.Pending?
    ensures c.registered ==> !c.ready.Pending?
  {
    hide DeliveryOk;
  }

  lemma UnsubscribedIdle(x: Context, cleaning: Cleaning, role: Role, c: Channel)
    requires Sound(x, cleaning, role, c) && c.state == Left
    ensures Idle(SettleUnsubscribed(c, Failed(SocketFailure)))
  {
    hide Sound, SettleUnsubscribed, SettleOutcome, IsPending;
    LeftPending(x, cleaning, role, c);
    UnsubscribedFrame(c, Failed(SocketFailure));
    UnsubscribedOperations(c, Failed(SocketFailure));
    if c.leaveRef.Some? {
      SettlesOne(c.operations, c.leaveRef.value, Failed(SocketFailure));
    }
  }

  lemma SettlesOne(operations: map<Ref, Operation>, settled: Ref, f: Future)
    requires !f.Pending?
    ensures SettleOutcome(operations, settled, f).Keys == operations.Keys
    ensures forall r: Ref :: IsPending(SettleOutcome(operations, settled, f), r) ==> r != settled && IsPending(operations, r)
  {
  }

  lemma TransportIdle(x: Context, cleaning: Cleaning, role: Role, c: Channel)
    requires Sound(x, cleaning, role, c) && c.state != Left && c.registered
    ensures Idle(Transition(x, c, Transport, SocketFailure))
  {
    hide DeliveryOk;
  }

  lemma FailLiveIdle(x: Context, cleaning: Cleaning, role: Role, c: Channel)
    requires Sound(x, cleaning, role, c) && Idle(c) && c.state != Created
    ensures Idle(FailLive(x, c))
  {
    hide Sound, Transition, SettleUnsubscribed;
    if c.state == Left {
      UnsubscribedIdle(x, cleaning, role, c);
      UnsubscribedLeft(c, Failed(SocketFailure));
    }
  }

  /** `_fail_pending_joins` settles every outcome of the connection. */
  lemma FailPendingIdle(x: Context, cleaning: Cleaning, role: Role, c: Channel)
    requires Sound(x, cleaning, role, c)
    ensures Idle(FailPending(x, c))
  {
    hide Sound, SettleUnsubscribed, Transition, FailLive, Idle;
    if !c.registered || (c.connection.Some? && c.connection != x.connection) {
      UntouchedIdle(x, cleaning, role, c);
    } else if c.state == Left {
      UnsubscribedIdle(x, cleaning, role, c);
    } else {
      CreatedFacts(x, cleaning, role, c);
      TransitionFrame(x, c, Transport, SocketFailure);
      TransportIdle(x, cleaning, role, c);
      TransitionSound(x, cleaning, role, c, Transport, SocketFailure);
      FailLiveIdle(x, cleaning, role, Transition(x, c, Transport, SocketFailure));
    }
  }

  /** Whoever acts next still does, apart from who rejoins the channel. */
  predicate Tended(x: Context, role: Role, c: Channel) {
    WillLeave(x, role, c) && CauseKept(role, c) && LossFree(role, c)
  }

  lemma UnsubscribedTended(x: Context, role: Role, c: Channel)
    requires Tended(x, role, c) && (c.leaveRef.Some? ==> c.leaveRef.value != c.joinRef)
    ensures Tended(x, role, SettleUnsubscribed(c, Failed(SocketFailure)))
  {
    hide SettleOutcome, SettleUnsubscribed;
    UnsubscribedFrame(c, Failed(SocketFailure));
    UnsubscribedOperations(c, Failed(SocketFailure));
    if c.leaveRef.Some? {
      JoinStays(c.operations, c.leaveRef.value, Failed(SocketFailure), c.joinRef);
    }
  }

  /** After FailLive a left channel has a leave task, and the cause stays TRANSPORT. */
  lemma FailLiveTended(x: Context, role: Role, c: Channel)
    requires c.cause == Some(Transport) && (!c.leaver.NoLeaver? ==> c.state == Left) && role != Removes
    ensures Tended(x, role, FailLive(x, c))
  {
    hide SettleUnsubscribed, StartLeave;
    UnsubscribedFrame(c, Failed(SocketFailure));
    UnsubscribedOperations(c, Failed(SocketFailure));
    StartLeaveFrame(x, SettleUnsubscribed(c, Failed(SocketFailure)));
  }

  lemma FailPendingTended(x: Context, cleaning: Cleaning, role: Role, c: Channel)
    requires Sound(x, cleaning, role, c) && Tended(x, role, c)
    ensures Tended(x, role, FailPending(x, c))
  {
    hide Sound, SettleUnsubscribed, Transition, FailLive, Tended;
    Facts(x, cleaning, role, c);
    UnsubscribedTended(x, role, c);
    if c.state != Left {
      TransitionFrame(x, c, Transport, SocketFailure);
      FailLiveTended(x, role, Transition(x, c, Transport, SocketFailure));
    }
  }

  // Context changes on an idle channel

  lemma SessionFailedSound(x: Context, cleaning: Cleaning, role: Role, c: Channel)
    requires Sound(x, cleaning, role, c) && Idle(c)
    ensures Sound(SessionFailed(x), cleaning, role, c)
  {
    hide DeliveryOk;
  }

  lemma UnroutedSound(x: Context, cleaning: Cleaning, role: Role, c: Channel)
    requires Sound(x, cleaning, role, c) && Idle(c)
    ensures Sound(x.(routing := false), cleaning, role, c)
  {
    hide DeliveryOk;
  }

  lemma DisconnectingSound(x: Context, c: Channel)
    requires Sound(x, None, Uninvolved, c) && Idle(c)
    ensures c.registered && !c.recovery.NoRecovery? ==>
      Sound(Disconnecting(x), Some(x.connection), Uninvolved, c.(recoveryCancelled := true))
    ensures !(c.registered && !c.recovery.NoRecovery?) ==> Sound(Disconnecting(x), Some(x.connection), Uninvolved, c)
  {
    hide DeliveryOk;
  }

  /** Without a connection nobody needs to rejoin a channel. */
  lemma TendedIsAttended(x: Context, y: Context, role: Role, c: Channel)
    requires Tended(x, role, c) && x.shutdown == y.shutdown
    requires !IsConnected(y) || !y.routing
    ensures Attended(y, role, c)
  {
  }

  lemma CancelledIsTended(x: Context, role: Role, c: Channel)
    requires Tended(x, role, c)
    ensures Tended(x, role, c.(recoveryCancelled := true))
  {
  }

  lemma IsTended(x: Context, role: Role, c: Channel)
    requires Attended(x, role, c)
    ensures Tended(x, role, c)
  {
  }

  lemma FailPendingFrame(x: Context, c: Channel)
    ensures FailPending(x, c).registered == c.registered && FailPending(x, c).recovery == c.recovery
  {
    hide Transition, SettleOutcome;
    TransitionFrame(x, c, Transport, SocketFailure);
    var d := Transition(x, c, Transport, SocketFailure);
    UnsubscribedFrame(d, Failed(SocketFailure));
    UnsubscribedFrame(c, Failed(SocketFailure));
    hide SettleUnsubscribed;
    LeaveFrame(x, SettleUnsubscribed(d, Failed(SocketFailure)));
    hide StartLeave;
  }

  lemma LeaveFrame(x: Context, c: Channel)
    ensures StartLeave(x, c).registered == c.registered && StartLeave(x, c).recovery == c.recovery
  {
    hide Transition;
    if c.leaver.NoLeaver? && c.state != Left {
      TransitionFrame(x, c, Leave, ChannelFailure(WasLeft));
    }
  }

  lemma FailSessionOk(x: Context, cleaning: Cleaning, role: Role, c: Channel)
    requires ChannelOk(x, cleaning, role, c)
    ensures ChannelOk(SessionFailed(x), cleaning, role, FailPending(x, c))
  {
    hide Sound, Idle, Attended, FailPending, Tended;
    FailPendingSound(x, cleaning, role, c);
    FailPendingIdle(x, cleaning, role, c);
    SessionFailedSound(x, cleaning, role, FailPending(x, c));
    IsTended(x, role, c);
    FailPendingTended(x, cleaning, role, c);
    TendedIsAttended(x, SessionFailed(x), role, FailPending(x, c));
  }

  lemma RoutingStopsOk(x: Context, cleaning: Cleaning, role: Role, c: Channel)
    requires ChannelOk(x, cleaning, role, c)
    ensures ChannelOk(x.(routing := false), cleaning, role, FailPending(x, c))
  {
    hide Sound, Idle, Attended, FailPending, Tended;
    FailPendingSound(x, cleaning, role, c);
    FailPendingIdle(x, cleaning, role, c);
    UnroutedSound(x, cleaning, role, FailPending(x, c));
    IsTended(x, role, c);
    FailPendingTended(x, cleaning, role, c);
    TendedIsAttended(x, x.(routing := false), role, FailPending(x, c));
  }

  lemma BeginDisconnectOk(x: Context, c: Channel)
    requires ChannelOk(x, None, Uninvolved, c)
    ensures ChannelOk(Disconnecting(x), Some(x.connection), Uninvolved, BeginDisconnect(x, c))
  {
    hide Sound, Idle, Attended, FailPending, Tended;
    FailPendingSound(x, None, Uninvolved, c);
    FailPendingIdle(x, None, Uninvolved, c);
    FailPendingFrame(x, c);
    DisconnectingSound(x, FailPending(x, c));
    IsTended(x, Uninvolved, c);
    FailPendingTended(x, None, Uninvolved, c);
    CancelledIsTended(x, Uninvolved, FailPending(x, c));
    TendedIsAttended(x, Disconnecting(x), Uninvolved, BeginDisconnect(x, c));
  }

  // A new connection

  lemma OpenedSound(x: Context, c: Channel, socket: ConnectionId)
    requires Sound(x, None, Uninvolved, c) && x.connection.None? && !x.shutdown
    ensures Sound(Opened(x, socket), None, Uninvolved, c)
  {
    hide DeliveryOk;
  }

  lemma OpenedOk(x: Context, c: Channel, socket: ConnectionId)
    requires ContextOk(x) && ChannelOk(x, None, Uninvolved, c) && x.connection.None? && !x.shutdown
    ensures ChannelOk(Opened(x, socket), None, Uninvolved, c)
  {
    hide Sound, Tended, Attended;
    OpenedSound(x, c, socket);
    IsTended(x, Uninvolved, c);
    TendedIsAttended(x, Opened(x, socket), Uninvolved, c);
  }

  lemma AdoptedSound(x: Context, c: Channel, socket: ConnectionId)
    requires Sound(x, None, Uninvolved, c) && x.connection.None? && !x.shutdown
    ensures Sound(Adopted(x, socket), None, if c.registered then Queued else Uninvolved, c)
  {
    hide DeliveryOk;
  }

  lemma AdoptedAttended(x: Context, c: Channel, socket: ConnectionId)
    requires Sound(x, None, Uninvolved, c) && Attended(x, Uninvolved, c) && !x.shutdown
    ensures Attended(Adopted(x, socket), if c.registered then Queued else Uninvolved, c)
  {
    hide Sound;
    Facts(x, None, Uninvolved, c);
  }

  lemma LateSocketSound(x: Context, c: Channel, socket: ConnectionId)
    requires Sound(x, None, Uninvolved, c) && x.connection.None? && x.shutdown
    ensures Sound(x.(connection := Some(socket)), None, Uninvolved, c)
  {
    hide DeliveryOk;
  }

  lemma LateSocketOk(x: Context, c: Channel, socket: ConnectionId)
    requires ContextOk(x) && ChannelOk(x, None, Uninvolved, c) && x.connection.None? && x.shutdown
    ensures ChannelOk(x.(connection := Some(socket)), None, Uninvolved, c)
  {
    hide Sound, Tended, Attended;
    LateSocketSound(x, c, socket);
    IsTended(x, Uninvolved, c);
    TendedIsAttended(x, x.(connection := Some(socket)), Uninvolved, c);
  }

  // The end of a cleanup

  lemma EndedSound(x: Context, closed: Option<ConnectionId>, c: Channel)
    requires Sound(x, Some(closed), Uninvolved, c) && x.connection.None? && CleanedUp(x, closed, c)
    requires c.registered && c.connection == closed ==> c.terminal
    ensures Sound(x, None, Uninvolved, c)
  {
    hide DeliveryOk;
  }

  lemma ObserveFact(x: Context, cleaning: Cleaning, role: Role, c: Channel)
    requires Sound(x, cleaning, role, c)
    ensures c.cleanupDone ==> c.state == Left
    ensures Observe(c).registered == c.registered && Observe(c).connection == c.connection && Observe(c).terminal
    ensures Observe(c).recovery == c.recovery && Observe(c).operations == c.operations
    ensures c.registered ==> c.state != Created
  {
  }

  lemma ReleasedFrame(x: Context, c: Channel)
    ensures
      var d := Release(x, c);
      && d.connection == c.connection && d.terminal == c.terminal && d.operations == c.operations
      && d.recovery == c.recovery && (d.registered ==> c.registered)
  {
  }

  lemma EndCleanupOk(x: Context, closed: Option<ConnectionId>, c: Channel)
    requires ChannelOk(x, Some(closed), Uninvolved, c) && x.connection.None? && CleanedUp(x, closed, c)
    ensures ChannelOk(x, None, Uninvolved, EndCleanup(x, closed, c))
  {
    hide Sound, Attended, Release, Observe;
    ObserveFact(x, Some(closed), Uninvolved, c);
    if !c.registered || c.connection != closed {
      EndedSound(x, closed, c);
    } else if c.state == Left {
      ObserveReleaseSound(x, Some(closed), Uninvolved, c);
      ReleasedFrame(x, Observe(c));
      EndedSound(x, closed, Release(x, Observe(c)));
      ReleaseAttended(x, Uninvolved, c);
    } else {
      ObserveSound(x, Some(closed), Uninvolved, c);
      EndedSound(x, closed, Observe(c));
      ObserveAttended(x, Uninvolved, c);
    }
  }

  // Stopping

  /** Stopping moves every registered channel to LEFT, whatever the client's state. */
  lemma StopTransition(x: Context, y: Context, c: Channel, failure: Failure)
    ensures Transition(x, c, Stop, failure) == Transition(y, c, Stop, failure)
  {
    hide FailOutcomes, SettleOutcome;
  }

  lemma ReleaseSame(x: Context, y: Context, c: Channel)
    requires x.connection == y.connection
    ensures Release(x, c) == Release(y, c)
  {
  }

  lemma LeftLeavesAlike(x: Context, y: Context, c: Channel)
    requires c.state == Left
    ensures StartLeave(x, c) == StartLeave(y, c)
  {
  }

  lemma RetireSame(x: Context, y: Context, c: Channel, failure: Failure)
    requires x.connection == y.connection
    ensures Retire(x, c, failure) == Retire(y, c, failure)
  {
    hide Transition, Observe, StartLeave, Release;
    StopTransition(x, y, c, failure);
    var d := Transition(x, c, Stop, failure);
    TransitionFrame(x, c, Stop, failure);
    ObserveKeeps(d);
    LeftLeavesAlike(x, y, Observe(d));
    ReleaseSame(x, y, StartLeave(x, Observe(d)));
  }

  lemma StoppedSound(x: Context, y: Context, cleaning: Cleaning, role: Role, c: Channel)
    requires Sound(x, cleaning, role, c) && (c.state == Left || c.state == Created)
    requires y == StopRequested(x) || y == x.(state := Closed)
    ensures Sound(y, cleaning, role, c)
  {
    hide DeliveryOk;
  }

  lemma RetireSound(x: Context, cleaning: Cleaning, role: Role, c: Channel, failure: Failure)
    requires Sound(x, cleaning, role, c) && c.registered && c.state == Left
    ensures Sound(x, cleaning, role, Release(x, StartLeave(x, Observe(c))))
  {
    hide Sound, Observe, StartLeave, Release;
    ObserveFact(x, cleaning, role, c);
    ObserveFrame(c);
    if c.cleanupDone {
      CleanupFacts(x, cleaning, role, c);
      AlreadyLeaving(x, Observe(c));
      ObserveReleaseSound(x, cleaning, role, c);
    } else {
      ObserveSound(x, cleaning, role, c);
      StartLeaveSound(x, cleaning, role, Observe(c));
      ReleaseSound(x, cleaning, role, StartLeave(x, Observe(c)));
    }
  }

  lemma CleanupFacts(x: Context, cleaning: Cleaning, role: Role, c: Channel)
    requires Sound(x, cleaning, role, c) && c.cleanupDone
    ensures c.leaver.LeaverDone?
  {
  }

  lemma AlreadyLeaving(x: Context, c: Channel)
    requires !c.leaver.NoLeaver?
    ensures StartLeave(x, c) == c
  {
  }

  lemma UnregisteredFact(x: Context, cleaning: Cleaning, role: Role, c: Channel)
    requires Sound(x, cleaning, role, c) && !c.registered
    ensures c.state == Left || c.state == Created
  {
  }

  lemma StoppedRetireSound(x: Context, y: Context, cleaning: Cleaning, role: Role, c: Channel, failure: Failure)
    requires Sound(x, cleaning, role, c) && (y == StopRequested(x) || y == x.(state := Closed))
    ensures Sound(y, cleaning, role, Retire(y, c, failure))
  {
    hide Sound, Transition, Observe, StartLeave, Release;
    if c.registered {
      CreatedFacts(x, cleaning, role, c);
      TransitionSound(x, cleaning, role, c, Stop, failure);
      TransitionFrame(x, c, Stop, failure);
      StopTransition(x, y, c, failure);
      StoppedSound(x, y, cleaning, role, Transition(x, c, Stop, failure));
      RetireSound(y, cleaning, role, Transition(x, c, Stop, failure), failure);
    } else {
      UnregisteredFact(x, cleaning, role, c);
      StoppedSound(x, y, cleaning, role, c);
    }
  }

  lemma RetiredFrame(x: Context, c: Channel, failure: Failure)
    ensures
      var d := Retire(x, c, failure);
      && (!c.registered ==> d == c) && d.loss == c.loss
      && (c.registered ==> d.cause == Some(Stop))
      && (c.registered && c.connection != x.connection ==> !d.leaver.NoLeaver?)
  {
    hide Transition, Observe, StartLeave, Release;
    var d := Transition(x, c, Stop, failure);
    TransitionFrame(x, c, Stop, failure);
    ObserveKeeps(d);
    if d.state == Left {
      StartLeaveFrame(x, Observe(d));
    }
    ReleaseFrame(x, StartLeave(x, Observe(d)));
  }

  lemma ObserveKeeps(c: Channel)
    ensures Observe(c).state == c.state && Observe(c).cause == c.cause && Observe(c).leaver == c.leaver
    ensures Observe(c).loss == c.loss
  {
  }

  /** A stopped client retries nothing, and a stopped channel explains its waiter's failure. */
  lemma RetireAttended(x: Context, y: Context, role: Role, c: Channel, failure: Failure)
    requires Attended(x, role, c) && (y == StopRequested(x) || (y == x.(state := Closed) && x.connection.None?))
    requires c.registered ==> c.connection.Some?
    ensures Attended(y, role, Retire(y, c, failure))
  {
    hide Retire;
    RetiredFrame(y, c, failure);
  }

  lemma RetireOk(x: Context, y: Context, cleaning: Cleaning, role: Role, c: Channel, failure: Failure)
    requires ChannelOk(x, cleaning, role, c) && (y == StopRequested(x) || (y == x.(state := Closed) && x.connection.None?))
    ensures ChannelOk(y, cleaning, role, Retire(y, c, failure))
  {
    hide Sound, Attended, Retire;
    StoppedRetireSound(x, y, cleaning, role, c, failure);
    ConnectedOnce(x, cleaning, role, c);
    RetireAttended(x, y, role, c, failure);
  }

  lemma ConnectedOnce(x: Context, cleaning: Cleaning, role: Role, c: Channel)
    requires Sound(x, cleaning, role, c)
    ensures c.registered ==> c.connection.Some?
  {
  }

  /** A cancelled supervisor abandons its pass; a stopping client has nothing to rejoin. */
  lemma PassCancelledOk(x: Context, cleaning: Cleaning, role: Role, c: Channel)
    requires ContextOk(x) && ChannelOk(x, cleaning, role, c) && x.shutdown
    ensures ChannelOk(x, cleaning, Uninvolved, c)
  {
    hide DeliveryOk;
  }
}
