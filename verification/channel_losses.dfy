/**
 * Permanent losses: why a channel was lost, and who will report it. `Told` is kept by every step of
 * every channel, except that three kinds of step drop a report (`Drops`).
 */
module ChannelLosses {
  import opened Wrappers
  import opened Channels
  import opened Mailboxes
  import opened ChannelProtocol
  import opened ChannelInvariant
  import opened ChannelHandlers
  import opened ChannelSteps
  import opened ChannelAttended

  /** What the story of a loss reads of a channel; `join` is the outcome of its current join. */
  datatype Standing = Standing(
    cause: Option<Cause>,
    leftBy: Option<(Cause, Failure)>,
    established: bool,
    registered: bool,
    leaving: bool,   // a leave task was started
    loss: Loss,
    reported: bool,
    recovery: Recovery,
    joiner: bool,
    joinRef: Ref,
    join: Option<Future>)

  function JoinOf(operations: map<Ref, Operation>, r: Ref): Option<Future> {
    if r in operations then Some(operations[r].outcome) else None
  }

  function StandingOf(c: Channel): Standing {
    Standing(c.cause, c.leftBy, c.established, c.registered, !c.leaver.NoLeaver?, c.loss, c.lossReported, c.recovery,
             c.joiner.Some?, c.joinRef, JoinOf(c.operations, c.joinRef))
  }

  const NOT_CURRENT_FAILURE := Failed(ChannelFailure(NotCurrent))

  /** The reasons for which an established channel can be lost for good. */
  predicate Permanent(cause: Cause, failure: Failure) {
    match cause
    case Close => failure == ChannelFailure(ClosedByServer)
    case Rejected => failure == ChannelFailure(JoinRefused)
    case Configuration =>
      failure == ChannelFailure(BadParams) || failure == ChannelFailure(HookFailed) || failure == ChannelFailure(NotCurrent)
    case _ => false
  }

  predicate Waits(role: Role, s: Standing) {
    s.joiner || s.recovery.AwaitingRejoin? || role.Rejoins?
  }

  /** A join waiter that will find no other cause has a join that succeeded, or was refused by the
      send session. */
  predicate WaiterOk(s: Standing) {
    && s.cause != Some(Timeout) && (s.cause == Some(Accepted) ==> s.join == Some(Succeeded))
    && (s.cause.None? && s.join.Some? && s.join.value.Failed? && s.join.value.failure.ChannelFailure? ==>
          s.join == Some(NOT_CURRENT_FAILURE))
  }

  /** What the past of a run says of a channel: its report was dropped; the write of its current join
      started after the send session had failed. */
  datatype Past = Past(dropped: bool, refused: bool)

  predicate Explained(role: Role, p: Past, s: Standing) {
    && (s.leftBy.Some? && LossCause(s.leftBy.value.0) ==> Permanent(s.leftBy.value.0, s.leftBy.value.1))
    && (s.leftBy == Some((Configuration, ChannelFailure(NotCurrent))) ==> s.join == Some(NOT_CURRENT_FAILURE))
    && (s.join == Some(NOT_CURRENT_FAILURE) ==> p.refused)
    && (Waits(role, s) ==> WaiterOk(s))
    && (s.reported ==> s.loss.LossDone?)
    && (s.established && !s.registered ==> s.leaving)
  }

  /** An established channel is lost, and nobody was told yet. */
  predicate Owed(stopping: bool, s: Standing) {
    s.established && s.leftBy.Some? && LossCause(s.leftBy.value.0) && !stopping && !s.reported
  }

  /** A loss task, the pass that removes the channel, or the task whose rejoin was refused. */
  predicate HasReporter(role: Role, s: Standing) {
    || s.loss.LossScheduled? || s.loss.LossUnregistering? || s.loss.LossReporting?
    || role == Removes || ((s.recovery.AwaitingRejoin? || role.Rejoins?) && Rejection(s.cause))
  }

  predicate Told(stopping: bool, role: Role, p: Past, s: Standing) {
    Explained(role, p, s) && (Owed(stopping, s) ==> HasReporter(role, s) || p.dropped)
  }

  /** A step keeps the story, and a new join starts a new one. */
  predicate Carried(stopping: bool, role: Role, p: Past, s: Standing, t: Standing) {
    Told(stopping, role, p, t) && (t.joinRef == s.joinRef || t.join != Some(NOT_CURRENT_FAILURE))
  }

  // Standings of the building blocks

  function Departing(s: Standing, cause: Cause, failure: Failure, left: bool): Standing {
    s.(cause := Some(cause),
       leftBy := if s.leftBy.None? && left then Some((cause, failure)) else s.leftBy,
       join := if s.join == Some(Pending) then Some(Failed(failure)) else s.join)
  }

  function Settling(s: Standing, r: Ref, f: Future): Standing {
    if r == s.joinRef && s.join == Some(Pending) then s.(join := Some(f)) else s
  }

  lemma SettledJoin(operations: map<Ref, Operation>, r: Ref, f: Future, k: Ref)
    ensures
      var join := JoinOf(operations, k);
      JoinOf(SettleOutcome(operations, r, f), k) == if r == k && join == Some(Pending) then Some(f) else join
  {
  }

  lemma FailedJoin(operations: map<Ref, Operation>, pushes: set<Ref>, failure: Failure, k: Ref)
    requires JoinOf(operations, k) != Some(Pending)
    ensures JoinOf(FailOutcomes(operations, pushes, failure), k) == JoinOf(operations, k)
  {
  }

  lemma TransitionStanding(x: Context, c: Channel, cause: Cause, failure: Failure)
    ensures
      var d := Transition(x, c, cause, failure);
      StandingOf(d) == Departing(StandingOf(c), cause, failure, d.state == Left)
  {
    hide SettleOutcome, FailOutcomes, JoinOf;
    SettledJoin(c.operations, c.joinRef, Failed(failure), c.joinRef);
    var settled := SettleOutcome(c.operations, c.joinRef, Failed(failure));
    FailedJoin(settled, c.pushes, failure, c.joinRef);
  }

  lemma SettleStanding(c: Channel, r: Ref, f: Future)
    ensures StandingOf(Settle(c, r, f)) == Settling(StandingOf(c), r, f) && Settle(c, r, f).state == c.state
  {
    hide SettleOutcome, JoinOf;
    SettledJoin(c.operations, r, f, c.joinRef);
    if !IsPending(c.operations, r) {
      NothingToSettle(c.operations, r, f);
    }
  }

  lemma StartLeaveStanding(x: Context, c: Channel)
    requires !c.leaver.NoLeaver? ==> c.state == Left
    ensures
      var s := StandingOf(c);
      StandingOf(StartLeave(x, c))
      == (if c.state == Left then s else Departing(s, Leave, ChannelFailure(WasLeft), true)).(leaving := true)
  {
    hide Transition, JoinOf;
    if c.leaver.NoLeaver? && c.state != Left {
      TransitionStanding(x, c, Leave, ChannelFailure(WasLeft));
      TransitionFrame(x, c, Leave, ChannelFailure(WasLeft));
    }
  }

  lemma ReleaseStanding(x: Context, c: Channel)
    requires c.cleanupDone ==> !c.leaver.NoLeaver?
    ensures
      var s, t := StandingOf(c), StandingOf(Release(x, c));
      t == s || (t == s.(registered := false) && s.leaving)
  {
    hide JoinOf, HasPendingSend;
  }

  lemma ObserveStanding(c: Channel)
    ensures StandingOf(Observe(c)) == StandingOf(c)
    ensures Observe(c).cleanupDone == c.cleanupDone && Observe(c).leaver == c.leaver
  {
  }

  lemma UnsubscribedStanding(c: Channel, f: Future)
    requires c.leaveRef.Some? ==> c.leaveRef.value != c.joinRef
    ensures StandingOf(SettleUnsubscribed(c, f)) == StandingOf(c)
    ensures SettleUnsubscribed(c, f).state == c.state && SettleUnsubscribed(c, f).leaver == c.leaver
  {
    hide SettleOutcome, JoinOf;
    if c.leaveRef.Some? {
      SettledJoin(c.operations, c.leaveRef.value, f, c.joinRef);
    }
  }

  lemma SettlePushStanding(c: Channel, r: Ref, f: Future)
    requires r != c.joinRef
    ensures StandingOf(SettlePush(c, r, f)) == StandingOf(c)
  {
    hide SettleOutcome, JoinOf;
    SettledJoin(c.operations, r, f, c.joinRef);
  }

  // The story through the building blocks

  lemma SameStory(stopping: bool, role: Role, p: Past, s: Standing)
    requires Told(stopping, role, p, s)
    ensures Carried(stopping, role, p, s, s)
  {
  }

  /** A live channel moves for a reason of its own. */
  lemma DepartingStory(stopping: bool, role: Role, p: Past, s: Standing, cause: Cause, failure: Failure, left: bool)
    requires Told(stopping, role, p, s) && s.leftBy.None? && !s.reported
    requires cause != Timeout && cause != Accepted && failure != ChannelFailure(NotCurrent)
    requires LossCause(cause) ==> Permanent(cause, failure)
    requires LossCause(cause) && s.established && left ==> HasReporter(role, s.(cause := Some(cause)))
    ensures Carried(stopping, role, p, s, Departing(s, cause, failure, left))
  {
  }

  lemma LeavingStory(stopping: bool, role: Role, p: Past, s: Standing)
    requires Told(stopping, role, p, s)
    ensures Carried(stopping, role, p, s, s.(leaving := true))
    ensures s.leaving ==> Carried(stopping, role, p, s, s.(registered := false))
  {
  }

  lemma SettlingStory(stopping: bool, role: Role, p: Past, s: Standing, r: Ref, failure: Failure)
    requires Told(stopping, role, p, s) && (r == s.joinRef && s.join == Some(Pending) ==> !failure.ChannelFailure?)
    ensures Carried(stopping, role, p, s, Settling(s, r, Failed(failure)))
  {
    if r == s.joinRef && s.join == Some(Pending) {
      assert Explained(role, p, s.(join := Some(Failed(failure))));
    } else {
      SameStory(stopping, role, p, s);
    }
  }

  // Facts

  lemma StandingFacts(x: Context, cleaning: Cleaning, role: Role, c: Channel)
    requires Sound(x, cleaning, role, c)
    ensures c.leftBy.Some? <==> c.state == Left
    ensures c.lossReported ==> c.state == Left
    ensures c.cleanupDone ==> !c.leaver.NoLeaver?
    ensures Rejection(c.cause) ==> c.state == Left && c.leftBy.value.0 == c.cause.value
    ensures c.leaveRef.Some? ==> c.leaveRef.value != c.joinRef
    ensures !c.leaver.NoLeaver? ==> c.state == Left
    ensures !c.loss.NoLoss? || role == Removes ==> c.established && c.state == Left && LossCause(c.leftBy.value.0)
    ensures c.joinRef <= x.refs && c.joinRef !in c.pushes
    ensures c.joinRef in c.operations ==> c.operations[c.joinRef].kind == JoinOperation
  {
    hide MailOk;
  }

  // Calls of the application

  lemma NewStory(stopping: bool, role: Role, p: Past, name: string, blocksReconnect: bool)
    requires !role.Rejoins?
    ensures Told(stopping, role, p, StandingOf(NewChannel(name, blocksReconnect)))
  {
  }

  lemma AdmitStanding(x: Context, c: Channel)
    requires c == NewChannel(c.name, c.blocksReconnect)
    ensures StandingOf(Admit(x, c)) ==
      Standing(None, None, false, true, false, NoLoss, false, NoRecovery, false, x.refs + 1, None)
    ensures Admit(x, c).state == Joining && Admit(x, c).cause.None? && Admit(x, c).leaver.NoLeaver? && Admit(x, c).connection == x.connection
  {
  }

  lemma SubmittedStanding(x: Context, c: Channel)
    requires c.connection.Some?
    ensures StandingOf(SubmitJoin(x, c, true)) == StandingOf(c).(join := Some(Pending))
  {
    hide JoinFailed;
  }

  lemma JoinerStanding(c: Channel, r: Ref)
    ensures StandingOf(c.(joiner := Some(r))) == StandingOf(c).(joiner := true)
    ensures StandingOf(WithoutJoiner(c)) == StandingOf(c).(joiner := false)
    ensures WithoutJoiner(c).state == c.state && WithoutJoiner(c).leaver == c.leaver
    ensures WithoutJoiner(c).leaveRequested == c.leaveRequested && WithoutJoiner(c).leftBy == c.leftBy
  {
    hide JoinOf;
  }

  lemma CreatedIs(x: Context, cleaning: Cleaning, role: Role, c: Channel)
    requires Sound(x, cleaning, role, c) && c.state == Created
    ensures c == NewChannel(c.name, c.blocksReconnect) && role == Uninvolved
  {
    hide MailOk, OperationsOk;
  }

  lemma BeginJoinStory(x: Context, cleaning: Cleaning, role: Role, c: Channel, hookSync: bool, paramsOk: bool, p: Past)
    requires Sound(x, cleaning, role, c) && c.state == Created && x.connection.Some?
    ensures Carried(x.shutdown, role, p, StandingOf(c), StandingOf(BeginJoin(x, c, hookSync, paramsOk)))
  {
    hide Sound, Admit, SubmitJoin, StartLeave, StandingOf, Transition, NewChannel;
    CreatedIs(x, cleaning, role, c);
    AdmitStanding(x, c);
    var d := Admit(x, c);
    SubmittedStanding(x, d);
    JoinerStanding(SubmitJoin(x, d, true), x.refs + 1);
    SubmitJoinFrame(x, d);
    TransitionStanding(x, d, Configuration, ChannelFailure(BadParams));
    TransitionFrame(x, d, Configuration, ChannelFailure(BadParams));
    StartLeaveStanding(x, d);
    StartLeaveStanding(x, SubmitJoin(x, d, false));
  }

  /** What `_join` makes of the exception its operation raised; `left` is where a timeout leads. */
  function Failing(s: Standing, failure: Failure, left: bool): Standing {
    match failure
    case ChannelFailure(_) =>
      if s.cause.None? || s.cause == Some(Accepted) || s.cause == Some(Timeout)
      then Departing(s, Configuration, failure, true) else s
    case TimeoutFailure => Departing(s, Timeout, ChannelFailure(DeadlineExpired), left)
    case _ => s
  }

  lemma JoinFailedStanding(x: Context, c: Channel, failure: Failure)
    requires (!c.leaver.NoLeaver? ==> c.state == Left) && (c.leaveRequested <==> c.state == Left)
    requires c.leftBy.Some? <==> c.state == Left
    ensures
      var d := JoinFailed(x, c, failure);
      && StandingOf(d) == Failing(StandingOf(c), failure, d.state == Left)
      && (!d.leaver.NoLeaver? ==> d.state == Left) && (d.leftBy.Some? <==> d.state == Left)
  {
    hide Transition, JoinOf;
    TransitionStanding(x, c, Configuration, failure);
    TransitionFrame(x, c, Configuration, failure);
    TransitionStanding(x, c, Timeout, ChannelFailure(DeadlineExpired));
    TransitionFrame(x, c, Timeout, ChannelFailure(DeadlineExpired));
  }

  /** The waiter of a failed join: where it finds no other cause, the failure was the session's refusal. */
  lemma FailingStory(stopping: bool, role: Role, p: Past, s: Standing, failure: Failure, left: bool)
    requires Told(stopping, role, p, s) && Waits(role, s) && s.join == Some(Failed(failure))
    requires s.leftBy.Some? ==> s.cause.Some?
    requires Rejection(s.cause) ==> failure.ChannelFailure?
    ensures
      var t := Failing(s, failure, left);
      && t.join == s.join && Explained(Uninvolved, p, t.(joiner := false, recovery := NoRecovery))
      && (t.leftBy.Some? && s.leftBy.None? && LossCause(t.leftBy.value.0) ==> Rejection(t.cause))
      && (Rejection(t.cause) ==> t == s || (s.leftBy.None? && t.leftBy.Some?)) && (Rejection(s.cause) ==> t == s)
      && (t.leftBy == s.leftBy || s.leftBy.None?)
  {
  }

  lemma ResumeJoinerStory(x: Context, cleaning: Cleaning, role: Role, c: Channel, p: Past)
    requires Sound(x, cleaning, role, c) && Attended(x, role, c) && c.joiner.Some? && OutcomeDone(c, c.joiner.value)
    requires Told(x.shutdown, role, p, StandingOf(c))
    ensures Carried(x.shutdown, role, p, StandingOf(c),
                    StandingOf(ResumeJoiner(x, c, c.operations[c.joiner.value].outcome)))
  {
    hide Sound, StartLeave, JoinFailed, WithoutJoiner, Attended, Carried, StandingOf;
    Facts(x, cleaning, role, c);
    JoinerStanding(c, 0);
    var outcome := c.operations[c.joiner.value].outcome;
    if outcome.Failed? {
      FailedJoinerStory(x, cleaning, role, c, outcome.failure, p);
    } else {
      GoneJoinerStory(x.shutdown, role, p, StandingOf(c));
    }
  }

  lemma GoneJoinerStory(stopping: bool, role: Role, p: Past, s: Standing)
    requires Told(stopping, role, p, s)
    ensures Carried(stopping, role, p, s, s.(joiner := false))
  {
  }

  lemma FailedJoinerStory(x: Context, cleaning: Cleaning, role: Role, c: Channel, failure: Failure, p: Past)
    requires Sound(x, cleaning, role, c) && Attended(x, role, c) && c.joiner.Some?
    requires c.joinRef in c.operations && c.operations[c.joinRef].outcome == Failed(failure)
    requires Told(x.shutdown, role, p, StandingOf(c))
    ensures Carried(x.shutdown, role, p, StandingOf(c), StandingOf(StartLeave(x, JoinFailed(x, WithoutJoiner(c), failure))))
  {
    hide Sound, StartLeave, JoinFailed, WithoutJoiner, Attended, Explained, Told;
    Facts(x, cleaning, role, c);
    StandingFacts(x, cleaning, role, c);
    JoinerStanding(c, 0);
    CauseIsKeptHere(x, role, c);
    var s, d := StandingOf(c), JoinFailed(x, WithoutJoiner(c), failure);
    JoinFailedStanding(x, WithoutJoiner(c), failure);
    FailingStory(x.shutdown, role, p, s, failure, d.state == Left);
    StartLeaveStanding(x, d);
    LeftJoinerStory(x.shutdown, role, p, s, Failing(s, failure, d.state == Left), d.state == Left);
  }

  /** A channel whose first join failed was never established: its loss is nobody's. */
  lemma LeftJoinerStory(stopping: bool, role: Role, p: Past, s: Standing, t: Standing, left: bool)
    requires !s.established && t.established == s.established && t.joinRef == s.joinRef && s.recovery == t.recovery
    requires !s.recovery.AwaitingRejoin? && !role.Rejoins? && (t.leftBy.Some? <==> left)
    requires Explained(Uninvolved, p, t.(joiner := false, recovery := NoRecovery)) && t.join != Some(Pending)
    ensures
      var u := t.(joiner := false);
      Carried(stopping, role, p, s, (if left then u else Departing(u, Leave, ChannelFailure(WasLeft), true)).(leaving := true))
  {
  }

  lemma CauseIsKeptHere(x: Context, role: Role, c: Channel)
    requires Attended(x, role, c)
    ensures CauseKept(role, c) && LossFree(role, c)
  {
  }

  lemma CancelJoinerStory(x: Context, cleaning: Cleaning, role: Role, c: Channel, r: Ref, p: Past)
    requires Sound(x, cleaning, role, c) && c.joiner.Some? && Told(x.shutdown, role, p, StandingOf(c))
    ensures Carried(x.shutdown, role, p, StandingOf(c),
                    StandingOf(StartLeave(x, Settle(WithoutJoiner(c), r, Failed(CallerCancelled)))))
  {
    hide Sound, StartLeave, Settle, WithoutJoiner, StandingOf, Carried, Told;
    Facts(x, cleaning, role, c);
    StandingFacts(x, cleaning, role, c);
    JoinerStanding(c, 0);
    var d := WithoutJoiner(c);
    SettleStanding(d, r, Failed(CallerCancelled));
    SettleFrame(d, r, Failed(CallerCancelled));
    StartLeaveStanding(x, Settle(d, r, Failed(CallerCancelled)));
    ReadsWell(c);
    CancelledJoinerStory(x.shutdown, role, p, StandingOf(c), r, c.state == Left);
  }

  lemma ReadsWell(c: Channel)
    ensures
      var s := StandingOf(c);
      && s.leftBy == c.leftBy && s.cause == c.cause && s.established == c.established && s.registered == c.registered
      && s.loss == c.loss && s.reported == c.lossReported && s.recovery == c.recovery && s.joiner == c.joiner.Some?
      && s.joinRef == c.joinRef && s.leaving == !c.leaver.NoLeaver?
      && (s.join == Some(Pending) <==> IsPending(c.operations, c.joinRef))
      && (c.joinRef in c.operations ==> s.join == Some(c.operations[c.joinRef].outcome))
  {
  }

  lemma CancelledJoinerStory(stopping: bool, role: Role, p: Past, s: Standing, r: Ref, left: bool)
    requires Told(stopping, role, p, s) && s.joiner && !s.recovery.AwaitingRejoin? && !role.Rejoins?
    requires (s.leftBy.Some? <==> left) && (s.reported ==> left)
    ensures
      var t := Settling(s.(joiner := false), r, Failed(CallerCancelled));
      Carried(stopping, role, p, s, (if left then t else Departing(t, Leave, ChannelFailure(WasLeft), true)).(leaving := true))
  {
  }

  lemma StartLeaveStory(x: Context, cleaning: Cleaning, role: Role, c: Channel, p: Past)
    requires Sound(x, cleaning, role, c) && Told(x.shutdown, role, p, StandingOf(c))
    ensures Carried(x.shutdown, role, p, StandingOf(c), StandingOf(StartLeave(x, c)))
  {
    hide Sound, StartLeave, StandingOf, Told;
    StandingFacts(x, cleaning, role, c);
    StartLeaveStanding(x, c);
    ReadsWell(c);
    var s := StandingOf(c);
    if c.state == Left {
      LeavingStory(x.shutdown, role, p, s);
    } else {
      DepartingStory(x.shutdown, role, p, s, Leave, ChannelFailure(WasLeft), true);
      LeavingStory(x.shutdown, role, p, Departing(s, Leave, ChannelFailure(WasLeft), true));
    }
  }

  lemma LeaveNewStory(x: Context, c: Channel, p: Past, role: Role)
    requires c.state == Created && c == NewChannel(c.name, c.blocksReconnect) && role == Uninvolved
    ensures Carried(x.shutdown, role, p, StandingOf(c), StandingOf(BeginLeave(x, c)))
  {
  }

  lemma BeginLeaveStory(x: Context, cleaning: Cleaning, role: Role, c: Channel, p: Past)
    requires Sound(x, cleaning, role, c) && Told(x.shutdown, role, p, StandingOf(c))
    ensures Carried(x.shutdown, role, p, StandingOf(c), StandingOf(BeginLeave(x, c)))
  {
    hide Sound, StartLeave, StandingOf, Carried, Told, NewChannel;
    StartLeaveStory(x, cleaning, role, c, p);
    if c.state == Created {
      CreatedIs(x, cleaning, role, c);
      LeaveNewStory(x, c, p, role);
    }
  }

  // Pushes and write tasks

  lemma PushStanding(x: Context, c: Channel, connection: ConnectionId)
    requires c.joinRef <= x.refs
    ensures StandingOf(SubmitPush(x, c, connection)) == StandingOf(c)
  {
  }

  lemma DropStanding(c: Channel, r: Ref)
    ensures StandingOf(c.(pushes := c.pushes - {r})) == StandingOf(c)
  {
    hide JoinOf;
  }

  lemma StageStanding(c: Channel, r: Ref, send: SendStage, submitted: bool)
    requires r in c.operations
    ensures StandingOf(c.(operations := c.operations[r := c.operations[r].(send := send)], joinSubmitted := submitted)) == StandingOf(c)
    ensures StandingOf(FinishSend(c, r)) == StandingOf(c)
  {
  }

  /** A pending join whose write starts on a failed session is refused by it. */
  predicate Refuses(x: Context, c: Channel, a: Action) {
    a == SendStarts(c.joinRef) && x.sendFailed && IsPending(c.operations, c.joinRef)
  }

  lemma StartSendStory(x: Context, cleaning: Cleaning, role: Role, c: Channel, r: Ref, p: Past)
    requires Sound(x, cleaning, role, c) && Told(x.shutdown, role, p, StandingOf(c)) && r in c.operations
    requires Refuses(x, c, SendStarts(r)) ==> p.refused
    ensures Carried(x.shutdown, role, p, StandingOf(c), StandingOf(StartSend(x, c, r)))
  {
    hide Sound, StandingOf, Submits, Settle, FinishSend, Told;
    StageStanding(c, r, Writing, c.joinSubmitted || c.operations[r].kind == JoinOperation);
    ReadsWell(c);
    if !Submits(x, c, r) {
      var d := FinishSend(c, r);
      StageStanding(c, r, Finished, false);
      SettleStanding(d, r, NOT_CURRENT_FAILURE);
      if IsPending(c.operations, r) && r == c.joinRef {
        StandingFacts(x, cleaning, role, c);
        JoinSubmitsUnlessFailed(x, cleaning, role, c, r);
      }
      RefusedStory(x.shutdown, role, p, StandingOf(c), r);
    }
  }

  lemma RefusedStory(stopping: bool, role: Role, p: Past, s: Standing, r: Ref)
    requires Told(stopping, role, p, s) && (r == s.joinRef && s.join == Some(Pending) ==> p.refused)
    ensures Carried(stopping, role, p, s, Settling(s, r, NOT_CURRENT_FAILURE))
  {
  }

  lemma PendingJoinPosture(x: Context, cleaning: Cleaning, role: Role, c: Channel, r: Ref)
    requires Sound(x, cleaning, role, c) && IsPending(c.operations, r) && c.operations[r].kind == JoinOperation
    ensures c.registered && r == c.joinRef && c.operations[r].epoch == c.joinRef && c.state != Left && !x.shutdown
    ensures x.connection == Some(c.operations[r].connection)
  {
    hide MailOk, LossOk;
  }

  lemma JoinSubmitsUnlessFailed(x: Context, cleaning: Cleaning, role: Role, c: Channel, r: Ref)
    requires Sound(x, cleaning, role, c) && IsPending(c.operations, r) && c.operations[r].kind == JoinOperation
    ensures Submits(x, c, r) <==> !x.sendFailed
  {
    hide Sound, ChannelJoined;
    PendingJoinPosture(x, cleaning, role, c, r);
  }

  // Server frames

  lemma ReleaseStory(x: Context, cleaning: Cleaning, role: Role, c: Channel, p: Past)
    requires Sound(x, cleaning, role, c) && Told(x.shutdown, role, p, StandingOf(c))
    ensures Carried(x.shutdown, role, p, StandingOf(c), StandingOf(Release(x, c)))
    ensures Carried(x.shutdown, role, p, StandingOf(c), StandingOf(Release(x, Observe(c))))
  {
    hide Sound, Release, Observe, StandingOf, Told;
    StandingFacts(x, cleaning, role, c);
    ObserveStanding(c);
    ReleaseStanding(x, c);
    ReleaseStanding(x, Observe(c));
    LeavingStory(x.shutdown, role, p, StandingOf(c));
  }

  lemma StartRecoveryStanding(x: Context, c: Channel, generation: Option<nat>)
    ensures
      var s, t := StandingOf(c), StandingOf(StartRecovery(x, c, generation));
      t == s || (s.recovery.NoRecovery? && exists g :: t == s.(recovery := Backoff(g)))
  {
    hide JoinOf, CanRecover;
    var g := if generation.Some? then generation.value else x.generation;
    if StartRecovery(x, c, generation) != c {
      assert StandingOf(StartRecovery(x, c, generation)) == StandingOf(c).(recovery := Backoff(g));
    }
  }

  lemma BackoffStory(stopping: bool, role: Role, p: Past, s: Standing, recovery: Recovery)
    requires Told(stopping, role, p, s) && !recovery.AwaitingRejoin?
    requires s.recovery.AwaitingRejoin? ==> !Rejection(s.cause)
    ensures Carried(stopping, role, p, s, s.(recovery := recovery))
  {
  }

  lemma StartRecoveryStory(x: Context, role: Role, c: Channel, generation: Option<nat>, p: Past)
    requires Told(x.shutdown, role, p, StandingOf(c))
    ensures Carried(x.shutdown, role, p, StandingOf(c), StandingOf(StartRecovery(x, c, generation)))
  {
    hide StandingOf, StartRecovery, Told;
    StartRecoveryStanding(x, c, generation);
    var s, t := StandingOf(c), StandingOf(StartRecovery(x, c, generation));
    if t != s {
      BackoffStory(x.shutdown, role, p, s, t.recovery);
    }
  }

  lemma CrashStory(x: Context, cleaning: Cleaning, role: Role, c: Channel, p: Past)
    requires Sound(x, cleaning, role, c) && c.state != Left && Told(x.shutdown, role, p, StandingOf(c))
    ensures
      var d := Transition(x, c, Crash, ChannelFailure(Crashed));
      && Carried(x.shutdown, role, p, StandingOf(c), StandingOf(d))
      && Carried(x.shutdown, role, p, StandingOf(c), StandingOf(StartRecovery(x, d, None)))
  {
    hide Sound, StandingOf, StartRecovery, Transition, Told;
    StandingFacts(x, cleaning, role, c);
    ReadsWell(c);
    var d := Transition(x, c, Crash, ChannelFailure(Crashed));
    TransitionStanding(x, c, Crash, ChannelFailure(Crashed));
    DepartingStory(x.shutdown, role, p, StandingOf(c), Crash, ChannelFailure(Crashed), d.state == Left);
    StartRecoveryStory(x, role, d, None, p);
    StartRecoveryStanding(x, d, None);
  }

  lemma CloseStory(x: Context, cleaning: Cleaning, role: Role, c: Channel, p: Past)
    requires Sound(x, cleaning, role, c) && c.state != Left && Told(x.shutdown, role, p, StandingOf(c))
    ensures
      var d := Transition(x, c, Close, ChannelFailure(ClosedByServer));
      Carried(x.shutdown, role, p, StandingOf(c),
              StandingOf(if c.established then StartLoss(x, d, ChannelFailure(ClosedByServer)) else d))
  {
    hide Sound, StandingOf, Transition, Told;
    StandingFacts(x, cleaning, role, c);
    ReadsWell(c);
    var d := Transition(x, c, Close, ChannelFailure(ClosedByServer));
    TransitionStanding(x, c, Close, ChannelFailure(ClosedByServer));
    TransitionFrame(x, c, Close, ChannelFailure(ClosedByServer));
    ScheduledStanding(d, LossScheduled);
    ClosedStory(x.shutdown, role, p, StandingOf(c));
  }

  lemma ScheduledStanding(c: Channel, loss: Loss)
    ensures StandingOf(c.(loss := loss)) == StandingOf(c).(loss := loss)
  {
    hide JoinOf;
  }

  lemma ClosedStory(stopping: bool, role: Role, p: Past, s: Standing)
    requires Told(stopping, role, p, s) && s.leftBy.None? && !s.reported
    ensures
      var t := Departing(s, Close, ChannelFailure(ClosedByServer), true);
      Carried(stopping, role, p, s, if s.established then t.(loss := LossScheduled) else t)
  {
  }

  lemma HandleLifecycleStory(x: Context, cleaning: Cleaning, role: Role, c: Channel, m: Message, p: Past)
    requires Sound(x, cleaning, role, c) && Told(x.shutdown, role, p, StandingOf(c)) && c.registered && c.state != Created
    requires c.generation == x.generation
    ensures Carried(x.shutdown, role, p, StandingOf(c), StandingOf(HandleLifecycle(x, c, m)))
  {
    hide Sound, StandingOf, Transition, Release, StartRecovery, StartLoss, Observe, Told;
    ObserveStanding(c);
    ObserveFrame(c);
    SameStory(x.shutdown, role, p, StandingOf(c));
    if c.state == Left {
      ReleaseStory(x, cleaning, role, c, p);
    } else {
      LifecycleFacts(x, cleaning, role, c);
      ObserveSound(x, cleaning, role, c);
      CrashStory(x, cleaning, role, Observe(c), p);
      CloseStory(x, cleaning, role, Observe(c), p);
    }
  }

  lemma AcceptStanding(c: Channel)
    requires c.state != Left && !c.leaveRequested && IsPending(c.operations, c.joinRef)
    ensures StandingOf(Accept(Install(c))) == StandingOf(c).(cause := Some(Accepted), established := true, join := Some(Succeeded))
  {
    hide SettleOutcome;
    SettledJoin(c.operations, c.joinRef, Succeeded, c.joinRef);
  }

  lemma InstallStanding(c: Channel)
    ensures StandingOf(Install(c)) == StandingOf(c) && Install(c).state == c.state && Install(c).established == c.established
    ensures Install(c).leaveRequested == c.leaveRequested
  {
    hide JoinOf;
  }

  lemma AcceptedStory(stopping: bool, role: Role, p: Past, s: Standing)
    requires Told(stopping, role, p, s) && s.leftBy.None? && s.registered
    ensures Carried(stopping, role, p, s, s.(cause := Some(Accepted), established := true, join := Some(Succeeded)))
  {
  }

  lemma PendingJoinStanding(x: Context, cleaning: Cleaning, role: Role, c: Channel)
    requires Sound(x, cleaning, role, c) && c.registered && c.ready.Pending?
    ensures c.state != Left && IsPending(c.operations, c.joinRef) && !c.leaveRequested
    ensures c.established ==> c.recovery.AwaitingRejoin? || role.Rejoins?
  {
    hide MailOk, LossOk;
  }

  /** A refused or failed join of an established channel leaves the report to its waiter. */
  lemma RefusalStory(x: Context, cleaning: Cleaning, role: Role, c: Channel, cause: Cause, failure: Failure, p: Past)
    requires Sound(x, cleaning, role, c) && c.registered && c.ready.Pending? && Told(x.shutdown, role, p, StandingOf(c))
    requires Rejection(Some(cause)) && Permanent(cause, failure) && failure != ChannelFailure(NotCurrent)
    ensures Carried(x.shutdown, role, p, StandingOf(c), StandingOf(Transition(x, c, cause, failure)))
  {
    hide Sound, StandingOf, Transition, Told;
    StandingFacts(x, cleaning, role, c);
    PendingJoinStanding(x, cleaning, role, c);
    ReadsWell(c);
    TransitionStanding(x, c, cause, failure);
    DepartingStory(x.shutdown, role, p, StandingOf(c), cause, failure, Transition(x, c, cause, failure).state == Left);
  }

  lemma ReplyFrames(x: Context, c: Channel, cause: Cause, failure: Failure)
    ensures StandingOf(Transition(x, Observe(c), cause, failure)) == StandingOf(Transition(x, c, cause, failure))
    ensures StandingOf(Transition(x, Install(c), cause, failure)) == StandingOf(Transition(x, c, cause, failure))
  {
    hide Transition, StandingOf, Observe, Install;
    ObserveStanding(c);
    InstallStanding(c);
    ObserveFrame(c);
    TransitionStanding(x, c, cause, failure);
    TransitionStanding(x, Observe(c), cause, failure);
    TransitionStanding(x, Install(c), cause, failure);
    TransitionFrame(x, c, cause, failure);
    TransitionFrame(x, Observe(c), cause, failure);
    TransitionFrame(x, Install(c), cause, failure);
    ObserveRequests(c);
  }

  lemma ObserveRequests(c: Channel)
    ensures Observe(c).leaveRequested == c.leaveRequested
  {
  }

  lemma HandleJoinReplyStory(x: Context, cleaning: Cleaning, role: Role, c: Channel, body: Body, hookOk: bool, p: Past)
    requires Sound(x, cleaning, role, c) && Told(x.shutdown, role, p, StandingOf(c)) && c.registered
    ensures Carried(x.shutdown, role, p, StandingOf(c), StandingOf(HandleJoinReply(x, c, body, hookOk)))
  {
    hide Sound, StandingOf, Transition, Release, Observe, Accept, Install, Told;
    SameStory(x.shutdown, role, p, StandingOf(c));
    ReleaseStory(x, cleaning, role, c, p);
    if c.ready.Pending? && !c.leaveRequested && !x.shutdown {
      PendingJoinStanding(x, cleaning, role, c);
      RefusalStory(x, cleaning, role, c, Rejected, ChannelFailure(JoinRefused), p);
      RefusalStory(x, cleaning, role, c, Configuration, ChannelFailure(HookFailed), p);
      ReplyFrames(x, c, Rejected, ChannelFailure(JoinRefused));
      ReplyFrames(x, c, Configuration, ChannelFailure(HookFailed));
      AcceptStanding(c);
      StandingFacts(x, cleaning, role, c);
      ReadsWell(c);
      AcceptedStory(x.shutdown, role, p, StandingOf(c));
    }
  }

  lemma KeepStanding(x: Context, c: Channel, m: Message)
    ensures StandingOf(Keep(x, c, m)) == StandingOf(c)
  {
    hide JoinOf;
  }

  lemma RouteStory(x: Context, cleaning: Cleaning, role: Role, c: Channel, g: nat, m: Message, hookOk: bool, p: Past)
    requires Sound(x, cleaning, role, c) && Told(x.shutdown, role, p, StandingOf(c)) && c.registered && c.state != Created
    ensures Carried(x.shutdown, role, p, StandingOf(c), StandingOf(Route(x, c, g, m, hookOk)))
  {
    hide Sound, StandingOf, HandleLifecycle, HandleJoinReply, SettleUnsubscribed, SettlePush, Keep, Told, Carried;
    SameStory(x.shutdown, role, p, StandingOf(c));
    StandingFacts(x, cleaning, role, c);
    KeepStanding(x, c, m);
    if c.generation == g && OnCurrentConnection(x, c) {
      match m.event
      case ErrorEvent => HandleLifecycleStory(x, cleaning, role, c, m, p);
      case CloseEvent => HandleLifecycleStory(x, cleaning, role, c, m, p);
      case ApplicationEvent =>
      case ReplyEvent(body) =>
        if c.leaveRef.Some? && m.ref == c.leaveRef {
          UnsubscribedStanding(c, Succeeded);
          UnsubscribedStanding(c, Failed(ChannelFailure(LeaveRefused)));
        } else if m.ref == Some(c.joinRef) {
          HandleJoinReplyStory(x, cleaning, role, c, body, hookOk, p);
        } else if m.ref.Some? && m.ref.value in c.pushes {
          SettlePushStanding(c, m.ref.value, Succeeded);
          SettlePushStanding(c, m.ref.value, Failed(ChannelFailure(MalformedReply)));
        }
    }
  }

  // Recovery

  lemma RecoveryStanding(c: Channel, recovery: Recovery)
    ensures StandingOf(c.(recovery := recovery)) == StandingOf(c).(recovery := recovery)
    ensures StandingOf(c.(recovery := recovery, restartRequested := true)) == StandingOf(c).(recovery := recovery)
  {
    hide JoinOf;
  }

  lemma RecoveryWakesStory(x: Context, cleaning: Cleaning, role: Role, c: Channel, p: Past)
    requires Sound(x, cleaning, role, c) && Told(x.shutdown, role, p, StandingOf(c)) && c.recovery.Backoff?
    ensures Carried(x.shutdown, role, p, StandingOf(c), StandingOf(RecoveryStep(x, c, RecoveryWakes)))
  {
    hide Sound, RecoveryStep, StandingOf, Told, CanRecover;
    RecoveryFacts(x, cleaning, role, c);
    WakeIs(x, c);
    ReadsWell(c);
    var g := c.recovery.generation;
    RecoveryStanding(c, StoppingProcessor(g));
    RecoveryStanding(c, NoRecovery);
    BackoffStory(x.shutdown, role, p, StandingOf(c), StoppingProcessor(g));
    BackoffStory(x.shutdown, role, p, StandingOf(c), NoRecovery);
  }

  lemma LoopsStory(x: Context, role: Role, c: Channel, g: nat, p: Past)
    requires Told(x.shutdown, role, p, StandingOf(c)) && (c.recovery.AwaitingRejoin? ==> !Rejection(c.cause))
    ensures Carried(x.shutdown, role, p, StandingOf(c), StandingOf(RecoveryLoops(x, c, g)))
  {
    hide StandingOf, Told, CanRecover;
    ReadsWell(c);
    RecoveryStanding(c, Backoff(g));
    RecoveryStanding(c, NoRecovery);
    BackoffStory(x.shutdown, role, p, StandingOf(c), Backoff(g));
    BackoffStory(x.shutdown, role, p, StandingOf(c), NoRecovery);
  }

  lemma RejoinedStanding(x: Context, c: Channel, g: nat, recovery: Recovery)
    requires x.connection.Some?
    ensures StandingOf(Rejoin(x, c, g, true)) == StandingOf(c).(cause := None, joinRef := x.refs + 1, join := Some(Pending))
    ensures StandingOf(Rejoin(x, c, g, true).(recovery := recovery))
            == StandingOf(c).(cause := None, joinRef := x.refs + 1, join := Some(Pending), recovery := recovery)
  {
    hide JoinFailed;
  }

  lemma RefusedStanding(x: Context, c: Channel, g: nat)
    requires x.refs + 1 !in c.operations
    ensures
      StandingOf(Refused(x, c, g))
      == StandingOf(c).(cause := Some(Configuration), leftBy := Some((Configuration, ChannelFailure(BadParams))),
                        joinRef := x.refs + 1, join := None)
    ensures Refused(x, c, g).state == Left && Refused(x, c, g).leaver == c.leaver
  {
  }

  lemma RejoinStory(stopping: bool, role: Role, p: Past, s: Standing, next: Ref, recovery: Recovery)
    requires Told(stopping, Uninvolved, p, s) && s.leftBy.None? && !s.reported && role != Removes
    requires next != s.joinRef
    ensures Carried(stopping, role, p, s, s.(cause := None, joinRef := next, join := Some(Pending), recovery := recovery))
  {
  }

  lemma RefusedRejoinStory(stopping: bool, p: Past, s: Standing, next: Ref)
    requires Told(stopping, Uninvolved, p, s) && s.leftBy.None? && !s.reported && !s.joiner && s.established
    requires next != s.joinRef
    ensures
      var t := s.(cause := Some(Configuration), leftBy := Some((Configuration, ChannelFailure(BadParams))),
                  joinRef := next, join := None);
      && Carried(stopping, Uninvolved, p, s, t.(loss := LossScheduled, recovery := NoRecovery))
      && (s.recovery.NoRecovery? ==> Carried(stopping, Removes, p, s, t.(leaving := true)))
  {
  }

  lemma RejoinRefusedIs(x: Context, cleaning: Cleaning, role: Role, c: Channel, g: nat)
    requires Sound(x, cleaning, role, c) && c.state == Rejoining
    ensures Rejoin(x, c, g, false) == Refused(x, c, g) && x.refs + 1 !in c.operations && c.leftBy.None? && !c.lossReported
    ensures c.joinRef <= x.refs && c.established && c.leaver.NoLeaver?
  {
    hide Rejoin, Refused, MailOk;
    RejoinIsRefused(x, c, g);
  }

  lemma RecoveryFailedStanding(x: Context, c: Channel, g: nat)
    requires Rejection(c.cause) ==> c.state == Left && c.established
    ensures
      var s, t := StandingOf(c), StandingOf(RecoveryFailed(x, c, g));
      if Rejection(c.cause) then t == s.(loss := LossScheduled, recovery := NoRecovery)
      else t == StandingOf(RecoveryLoops(x, c, g))
  {
    hide JoinOf, Transition, StartLeave;
  }

  lemma RecoveryRestartsStory(x: Context, cleaning: Cleaning, role: Role, c: Channel, paramsOk: bool, p: Past)
    requires Sound(x, cleaning, role, c) && Told(x.shutdown, role, p, StandingOf(c)) && c.recovery.StoppingProcessor?
    requires !c.recoveryCancelled && c.joiner.None? && !role.Rejoins?
    ensures Carried(x.shutdown, role, p, StandingOf(c), StandingOf(RecoveryStep(x, c, RecoveryRestarts(paramsOk))))
  {
    hide Sound, Rejoin, Refused, RecoveryLoops, RecoveryFailed, Told, Carried, CanRecover, StandingOf;
    var g := c.recovery.generation;
    ReadsWell(c);
    if !ShouldRejoin(c) {
      LoopsStory(x, role, c, g, p);
    } else {
      RestartFacts(x, cleaning, role, c);
      RejoinRefusedIs(x, cleaning, role, c, g);
      RejoinedStanding(x, c, g, AwaitingRejoin(g, x.refs + 1));
      RejoinStory(x.shutdown, role, p, StandingOf(c), x.refs + 1, AwaitingRejoin(g, x.refs + 1));
      RefusedStanding(x, c, g);
      RefusedFrame(x, c, g);
      RecoveryFailedStanding(x, Refused(x, c, g), g);
      RefusedRejoinStory(x.shutdown, p, StandingOf(c), x.refs + 1);
    }
  }

  lemma RecoveryResumesStory(x: Context, cleaning: Cleaning, role: Role, c: Channel, p: Past)
    requires Sound(x, cleaning, role, c) && Attended(x, role, c) && Told(x.shutdown, role, p, StandingOf(c))
    requires c.recovery.AwaitingRejoin? && OutcomeDone(c, c.recovery.ref)
    ensures Carried(x.shutdown, role, p, StandingOf(c), StandingOf(RecoveryStep(x, c, RecoveryResumes)))
  {
    hide Sound, Attended, RecoveryLoops, RecoveryFailed, Told, Carried, StandingOf, JoinFailed;
    Facts(x, cleaning, role, c);
    ReadsWell(c);
    var g := c.recovery.generation;
    match c.operations[c.recovery.ref].outcome
    case Succeeded =>
      SucceededFact(x, role, c);
      LoopsStory(x, role, c, g, p);
      RecoveryStanding(c, NoRecovery);
      BackoffStory(x.shutdown, role, p, StandingOf(c), NoRecovery);
    case Failed(failure) =>
      FailedRecoveryStory(x, cleaning, role, c, failure, g, p);
  }

  lemma FailedRecoveryStory(x: Context, cleaning: Cleaning, role: Role, c: Channel, failure: Failure, g: nat, p: Past)
    requires Sound(x, cleaning, role, c) && Attended(x, role, c) && Told(x.shutdown, role, p, StandingOf(c))
    requires c.recovery.AwaitingRejoin? && c.joinRef in c.operations && c.operations[c.joinRef].outcome == Failed(failure)
    ensures Carried(x.shutdown, role, p, StandingOf(c), StandingOf(RecoveryFailed(x, JoinFailed(x, c, failure), g)))
  {
    hide Sound, Attended, RecoveryFailed, Told, Explained, StandingOf, JoinFailed, CanRecover;
    Facts(x, cleaning, role, c);
    StandingFacts(x, cleaning, role, c);
    CauseIsKeptHere(x, role, c);
    ReadsWell(c);
    var s, d := StandingOf(c), JoinFailed(x, c, failure);
    JoinFailedStanding(x, c, failure);
    ReadsWell(d);
    FailingStory(x.shutdown, role, p, s, failure, d.state == Left);
    RecoveryFailedStanding(x, d, g);
    RecoveryStanding(d, Backoff(g));
    RecoveryStanding(d, NoRecovery);
    ResumedStory(x.shutdown, role, p, s, StandingOf(d), Backoff(g));
    ResumedStory(x.shutdown, role, p, s, StandingOf(d), NoRecovery);
  }

  /** What the recovery makes of its failed join: a loss task, or another round. */
  lemma ResumedStory(stopping: bool, role: Role, p: Past, s: Standing, t: Standing, recovery: Recovery)
    requires Told(stopping, role, p, s) && !role.Rejoins? && role != Removes && !s.joiner && !recovery.AwaitingRejoin?
    requires t.joiner == s.joiner && t.loss == s.loss && t.reported == s.reported && t.joinRef == s.joinRef
    requires t.registered == s.registered && t.leaving == s.leaving && t.established == s.established
    requires Explained(Uninvolved, p, t.(joiner := false, recovery := NoRecovery))
    requires t.leftBy.Some? && s.leftBy.None? && LossCause(t.leftBy.value.0) ==> Rejection(t.cause)
    requires Rejection(s.cause) ==> t == s && s.loss.NoLoss?
    requires Rejection(t.cause) && t != s ==> s.leftBy.None?
    requires s.reported ==> s.leftBy.Some?
    requires t.leftBy == s.leftBy || s.leftBy.None?
    ensures
      if Rejection(t.cause) then Carried(stopping, role, p, s, t.(loss := LossScheduled, recovery := NoRecovery))
      else Carried(stopping, role, p, s, t.(recovery := recovery))
  {
  }

  // Steps that drop a report

  /** A recovery that holds a refusal is cancelled, or a loss task finds the name free already. */
  predicate DropsReport(c: Channel, a: Action) {
    || (a.RecoveryCancelled? && c.recovery.AwaitingRejoin? && Rejection(c.cause))
    || (a.LossStarts? && !c.registered)
  }

  lemma AbandonStanding(c: Channel, abandoned: bool)
    ensures StandingOf(c.(recovery := NoRecovery, abandoned := abandoned)) == StandingOf(c).(recovery := NoRecovery)
  {
    hide JoinOf;
  }

  lemma EndedStory(stopping: bool, role: Role, p: Past, s: Standing)
    requires Told(stopping, role, p, s) && (s.recovery.AwaitingRejoin? && Rejection(s.cause) ==> p.dropped)
    ensures Carried(stopping, role, p, s, s.(recovery := NoRecovery))
  {
  }

  lemma RecoveryCancelledStory(x: Context, role: Role, c: Channel, p: Past)
    requires Told(x.shutdown, role, p, StandingOf(c)) && (DropsReport(c, RecoveryCancelled) ==> p.dropped)
    ensures Carried(x.shutdown, role, p, StandingOf(c), StandingOf(Act(x, c, RecoveryCancelled)))
  {
    hide StandingOf, Told, Settle;
    ReadsWell(c);
    var abandoned := Act(x, c, RecoveryCancelled).abandoned;
    if c.recovery.AwaitingRejoin? {
      var r := c.recovery.ref;
      SettleStanding(c, r, Failed(CallerCancelled));
      AbandonStanding(Settle(c, r, Failed(CallerCancelled)), abandoned);
      SettlingStory(x.shutdown, role, p, StandingOf(c), r, CallerCancelled);
      EndedStory(x.shutdown, role, p, Settling(StandingOf(c), r, Failed(CallerCancelled)));
    } else {
      AbandonStanding(c, abandoned);
      EndedStory(x.shutdown, role, p, StandingOf(c));
    }
  }

  // Losing and leaving

  lemma LossStory(stopping: bool, role: Role, p: Past, s: Standing, loss: Loss)
    requires Told(stopping, role, p, s) && !s.loss.NoLoss? && !s.loss.LossDone?
    requires loss.LossUnregistering? || loss.LossReporting? || p.dropped
    ensures Carried(stopping, role, p, s, s.(loss := loss))
  {
  }

  lemma LossStartsStory(x: Context, cleaning: Cleaning, role: Role, c: Channel, p: Past)
    requires Sound(x, cleaning, role, c) && Told(x.shutdown, role, p, StandingOf(c)) && c.loss.LossScheduled?
    requires DropsReport(c, LossStarts) ==> p.dropped
    ensures Carried(x.shutdown, role, p, StandingOf(c), StandingOf(StartUnregister(x, c)))
  {
    hide Sound, StandingOf, Told, StartLeave, Transition;
    StandingFacts(x, cleaning, role, c);
    ReadsWell(c);
    ScheduledStanding(c, LossDone);
    StartLeaveStanding(x, c);
    ScheduledStanding(StartLeave(x, c), LossUnregistering);
    if c.registered {
      LossStory(x.shutdown, role, p, StandingOf(c), LossUnregistering);
      LeavingStory(x.shutdown, role, p, StandingOf(c).(loss := LossUnregistering));
    } else {
      LossStory(x.shutdown, role, p, StandingOf(c), LossDone);
    }
  }

  lemma LossUnregisteredStory(x: Context, role: Role, c: Channel, p: Past)
    requires Told(x.shutdown, role, p, StandingOf(c)) && c.loss.LossUnregistering?
    ensures Carried(x.shutdown, role, p, StandingOf(c), StandingOf(c.(loss := LossReporting)))
  {
    hide StandingOf, Told;
    ReadsWell(c);
    ScheduledStanding(c, LossReporting);
    LossStory(x.shutdown, role, p, StandingOf(c), LossReporting);
  }

  lemma ReportStory(x: Context, role: Role, c: Channel, p: Past)
    requires Told(x.shutdown, role, p, StandingOf(c)) && c.loss.LossReporting?
    ensures Carried(x.shutdown, role, p, StandingOf(c), StandingOf(ReportLoss(c)))
  {
    hide JoinOf;
  }

  lemma BeginCleanupStanding(c: Channel)
    requires !c.leaver.NoLeaver?
    ensures StandingOf(BeginCleanup(c)) == StandingOf(c)
  {
    hide JoinOf;
  }

  lemma SubmitLeaveStanding(x: Context, c: Channel, connection: ConnectionId)
    requires !c.leaver.NoLeaver? && c.joinRef <= x.refs
    ensures StandingOf(SubmitLeave(x, c, connection)) == StandingOf(c)
    ensures StandingOf(WithLeaveRef(x, c)) == StandingOf(c) && WithLeaveRef(x, c).leaver == c.leaver
  {
  }

  lemma RunLeaveStory(x: Context, cleaning: Cleaning, role: Role, c: Channel, p: Past)
    requires Sound(x, cleaning, role, c) && Told(x.shutdown, role, p, StandingOf(c)) && c.leaver.LeaveScheduled?
    ensures Carried(x.shutdown, role, p, StandingOf(c), StandingOf(RunLeave(x, c)))
  {
    hide Sound, StandingOf, Told, SubmitLeave, BeginCleanup, WithLeaveRef, Observe, SendsLeave;
    StandingFacts(x, cleaning, role, c);
    SameStory(x.shutdown, role, p, StandingOf(c));
    ObserveStanding(c);
    BeginCleanupStanding(c);
    BeginCleanupStanding(Observe(c));
    if SendsLeave(x, c) {
      SubmitLeaveStanding(x, c, SentTo(c, x));
      BeginCleanupStanding(WithLeaveRef(x, c));
    }
  }

  /** The connection a leave is sent on. */
  function SentTo(c: Channel, x: Context): ConnectionId
    requires SendsLeave(x, c)
  {
    c.connection.value
  }

  lemma EndLeaveStanding(c: Channel)
    requires !c.leaver.NoLeaver?
    ensures StandingOf(EndLeave(c)) == StandingOf(c) && EndLeave(c).leaver.LeaverDone?
  {
    hide JoinOf;
  }

  lemma FinishCleanupStory(x: Context, role: Role, c: Channel, p: Past)
    requires Told(x.shutdown, role, p, StandingOf(c)) && !c.leaver.NoLeaver?
    ensures Carried(x.shutdown, role, p, StandingOf(c), StandingOf(FinishCleanup(x, c)))
  {
    hide StandingOf, Told, Release, EndLeave;
    EndLeaveStanding(c);
    ReleaseStanding(x, EndLeave(c));
    SameStory(x.shutdown, role, p, StandingOf(c));
    ReadsWell(EndLeave(c));
    LeavingStory(x.shutdown, role, p, StandingOf(c));
  }

  // Delivery

  lemma MailStanding(c: Channel, m: Mailbox, processor: Processor)
    ensures StandingOf(c.(mail := m, processor := processor)) == StandingOf(c)
    ensures StandingOf(c.(processor := processor)) == StandingOf(c)
  {
    hide JoinOf;
  }

  lemma TakeMessageStanding(x: Context, c: Channel, handled: bool)
    requires c.mail.queue != []
    ensures StandingOf(TakeMessage(x, c, handled)) == StandingOf(c)
  {
    hide StandingOf, Skip, Dispatch, LoopTest, IsStaleJoin, ChannelJoined;
    var next := TakeMessage(x, c, handled).processor;
    MailStanding(c, Skip(c.mail), next);
    MailStanding(c, Dispatch(c.mail, c.joinRef), next);
  }

  // Every step of one channel

  /** The steps of recoveries, loss tasks, leave tasks and the processor. */
  lemma TaskStory(x: Context, cleaning: Cleaning, role: Role, c: Channel, a: Action, p: Past)
    requires Sound(x, cleaning, role, c) && Attended(x, role, c) && ActionEnabled(x, role, c, a)
    requires Told(x.shutdown, role, p, StandingOf(c)) && (DropsReport(c, a) ==> p.dropped)
    requires !a.JoinCall? && !a.JoinerResumes? && !a.JoinerCancelled? && !a.LeaveCall? && !a.PushCall? && !a.PushReturns?
    requires !a.PushCancelled? && !a.SendStarts? && !a.WriteCompletes? && !a.Receive?
    ensures Carried(x.shutdown, role, p, StandingOf(c), StandingOf(Act(x, c, a)))
  {
    hide Sound, Attended, Settle, RecoveryStep, StartUnregister, RunLeave, BeginCleanup, FinishCleanup, TakeMessage, LoopTest,
      ReportLoss, Told, Carried, StandingOf, HasPendingSend;
    StandingFacts(x, cleaning, role, c);
    SameStory(x.shutdown, role, p, StandingOf(c));
    match a
    case RecoveryWakes => RecoveryWakesStory(x, cleaning, role, c, p);
    case RecoveryRestarts(paramsOk) => RecoveryRestartsStory(x, cleaning, role, c, paramsOk, p);
    case RecoveryResumes => RecoveryResumesStory(x, cleaning, role, c, p);
    case RecoveryCancelled => RecoveryCancelledStory(x, role, c, p);
    case LossStarts => LossStartsStory(x, cleaning, role, c, p);
    case LossUnregistered => LossUnregisteredStory(x, role, c, p);
    case LossReported => ReportStory(x, role, c, p);
    case LeaveStarts => RunLeaveStory(x, cleaning, role, c, p);
    case LeaveAnswered => BeginCleanupStanding(c);
    case LeaveCleansUp => FinishCleanupStory(x, role, c, p);
    case ProcessorTakes(handled) => TakeMessageStanding(x, c, handled);
    case HandlersDone => MailStanding(c, c.mail, LoopTest(c));
    case _ =>
  }

  /** Every step of one channel keeps the story, apart from the reports it drops. */
  lemma ActStory(x: Context, cleaning: Cleaning, role: Role, c: Channel, a: Action, p: Past)
    requires ContextOk(x) && Sound(x, cleaning, role, c) && Attended(x, role, c) && ActionEnabled(x, role, c, a)
    requires Told(x.shutdown, role, p, StandingOf(c))
    requires (DropsReport(c, a) ==> p.dropped) && (Refuses(x, c, a) ==> p.refused)
    ensures Carried(x.shutdown, role, p, StandingOf(c), StandingOf(Act(x, c, a)))
  {
    hide Sound, Attended, BeginJoin, ResumeJoiner, StartLeave, Settle, SettlePush, WithoutJoiner, BeginLeave, StartSend, Route,
      FinishSend, ChannelJoined, SubmitPush, Told, Carried, StandingOf, DropsReport;
    StandingFacts(x, cleaning, role, c);
    match a
    case JoinCall(hookSync, paramsOk) => BeginJoinStory(x, cleaning, role, c, hookSync, paramsOk, p);
    case JoinerResumes =>
      Facts(x, cleaning, role, c);
      ResumeJoinerStory(x, cleaning, role, c, p);
    case JoinerCancelled => CancelJoinerStory(x, cleaning, role, c, c.joiner.value, p);
    case LeaveCall => BeginLeaveStory(x, cleaning, role, c, p);
    case PushCall =>
      JoinedConnection(x, cleaning, role, c);
      PushStanding(x, c, c.connection.value);
      SameStory(x.shutdown, role, p, StandingOf(c));
    case PushReturns(r) =>
      DropStanding(c, r);
      SameStory(x.shutdown, role, p, StandingOf(c));
    case PushCancelled(r) =>
      SettlePushStanding(c, r, Failed(CallerCancelled));
      SameStory(x.shutdown, role, p, StandingOf(c));
    case SendStarts(r) => StartSendStory(x, cleaning, role, c, r, p);
    case WriteCompletes(r) =>
      StageStanding(c, r, Finished, false);
      SameStory(x.shutdown, role, p, StandingOf(c));
    case Receive(g, m, hookOk) =>
      CreatedFacts(x, cleaning, role, c);
      RouteStory(x, cleaning, role, c, g, m, hookOk, p);
    case _ =>
      hide ActionEnabled, Act;
      TaskStory(x, cleaning, role, c, a, p);
  }
}
