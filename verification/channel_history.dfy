/** What a step may change in a channel's record, and what it can never take back. */
module ChannelHistory {
  import opened Wrappers
  import opened Channels
  import opened ChannelProtocol
  import opened ChannelInvariant
  import opened ChannelHandlers
  import opened ChannelAttended
  import opened Mailboxes

  /** The same frame, no less sent and no less settled. */
  predicate SameFrame(p: Operation, q: Operation) {
    && q.kind == p.kind && q.connection == p.connection && q.epoch == p.epoch
    && (q.send == Scheduled ==> p.send == Scheduled)
    && (p.send == Finished ==> q.send == Finished)
    && (!p.outcome.Pending? ==> q.outcome == p.outcome)
  }

  predicate FramesKept(p: map<Ref, Operation>, q: map<Ref, Operation>, next: Ref) {
    && (forall r :: r in p ==> r in q && SameFrame(p[r], q[r]))
    && (forall r :: r in q ==> r in p || r == next)
  }

  predicate Marked(c: Channel) {
    c.state == Left ==> c.leaveRequested && c.leftBy.Some?
  }

  /** LEFT and its reason are final, a name is taken only by a channel's first join. */
  predicate Grows(c: Channel, d: Channel) {
    && d.name == c.name && d.blocksReconnect == c.blocksReconnect
    && (c.state == Left ==> d.state == Left && d.leftBy == c.leftBy)
    && (c.established ==> d.established)
    && (c.state != Created ==> d.state != Created)
    && (d.registered && !c.registered ==> c.state == Created)
    && (Marked(c) ==> Marked(d))
    && c.lossReports <= d.lossReports
    && c.mail.log <= d.mail.log && c.mail.dispatched <= d.mail.dispatched && c.mail.epochs <= d.mail.epochs
  }

  /** The current join and what is known of it: kept, or replaced by a fresh unsent one. */
  predicate Wired(x: Context, c: Channel, d: Channel) {
    && d.installed == c.installed
    && (d.state == Joined ==> c.state == Joined && d.joinRef == c.joinRef)
    && (|| (d.joinRef == c.joinRef && d.connection == c.connection && d.joinSubmitted == c.joinSubmitted)
        || (d.joinRef == x.refs + 1 && !d.joinSubmitted))
  }

  predicate Moves(x: Context, c: Channel, d: Channel) {
    Grows(c, d) && Wired(x, c, d) && FramesKept(c.operations, d.operations, x.refs + 1)
  }

  /** No operation succeeds. */
  predicate NoSuccess(p: map<Ref, Operation>, q: map<Ref, Operation>) {
    forall r :: r in q && q[r].outcome.Succeeded? ==> r in p && p[r].outcome.Succeeded?
  }

  predicate Follows(x: Context, c: Channel, d: Channel) {
    Moves(x, c, d) && NoSuccess(c.operations, d.operations)
  }

  lemma Unchanged(x: Context, c: Channel)
    ensures Follows(x, c, c)
  {
  }

  lemma FollowsThrough(x: Context, c: Channel, d: Channel, e: Channel)
    requires Follows(x, c, d) && Follows(x, d, e)
    ensures Follows(x, c, e)
  {
    forall r | r in c.operations ensures r in e.operations && SameFrame(c.operations[r], e.operations[r]) {
      assert r in d.operations;
    }
  }

  /** A record that differs in none of the fields above. */
  lemma Alike(x: Context, c: Channel, d: Channel)
    requires d.name == c.name && d.blocksReconnect == c.blocksReconnect && d.state == c.state && d.leftBy == c.leftBy
    requires d.leaveRequested == c.leaveRequested
    requires (c.established ==> d.established) && (d.registered ==> c.registered) && c.lossReports <= d.lossReports
    requires d.mail == c.mail && d.installed == c.installed
    requires d.joinRef == c.joinRef && d.connection == c.connection && d.joinSubmitted == c.joinSubmitted
    requires FramesKept(c.operations, d.operations, x.refs + 1)
    ensures Moves(x, c, d) && (NoSuccess(c.operations, d.operations) ==> Follows(x, c, d))
  {
    hide NoSuccess;
  }

  // Futures

  lemma OutcomesKept(operations: map<Ref, Operation>, r: Ref, f: Future, next: Ref)
    ensures FramesKept(operations, SettleOutcome(operations, r, f), next)
    ensures !f.Succeeded? ==> NoSuccess(operations, SettleOutcome(operations, r, f))
  {
  }

  lemma FailuresKept(operations: map<Ref, Operation>, r: Ref, f: Future, pushes: set<Ref>, failure: Failure, next: Ref)
    ensures FramesKept(operations, FailOutcomes(SettleOutcome(operations, r, f), pushes, failure), next)
    ensures !f.Succeeded? ==> NoSuccess(operations, FailOutcomes(SettleOutcome(operations, r, f), pushes, failure))
  {
    OutcomesKept(operations, r, f, next);
  }

  lemma SettleFollows(x: Context, c: Channel, r: Ref, f: Future)
    requires !f.Succeeded?
    ensures Follows(x, c, Settle(c, r, f))
  {
    hide SettleOutcome, Follows, FramesKept, NoSuccess;
    OutcomesKept(c.operations, r, f, x.refs + 1);
    if IsPending(c.operations, r) {
      Alike(x, c, Settle(c, r, f));
    } else {
      Unchanged(x, c);
    }
  }

  lemma SettlePushMoves(x: Context, c: Channel, r: Ref, f: Future)
    ensures Moves(x, c, SettlePush(c, r, f))
    ensures !f.Succeeded? ==> Follows(x, c, SettlePush(c, r, f))
  {
    hide SettleOutcome, Follows, Moves, FramesKept, NoSuccess;
    OutcomesKept(c.operations, r, f, x.refs + 1);
    Alike(x, c, SettlePush(c, r, f));
  }

  lemma LeaveKept(c: Channel, f: Future, next: Ref)
    ensures FramesKept(c.operations, SettleLeave(c, f), next)
    ensures !f.Succeeded? ==> NoSuccess(c.operations, SettleLeave(c, f))
  {
    if c.leaveRef.Some? {
      OutcomesKept(c.operations, c.leaveRef.value, f, next);
    }
  }

  lemma SettleUnsubscribedMoves(x: Context, c: Channel, f: Future)
    ensures Moves(x, c, SettleUnsubscribed(c, f))
    ensures !f.Succeeded? ==> Follows(x, c, SettleUnsubscribed(c, f))
  {
    hide SettleLeave, FramesKept, NoSuccess, Grows, Wired;
    if c.unsubscribed.Pending? {
      LeaveKept(c, f, x.refs + 1);
      Alike(x, c, SettleUnsubscribed(c, f));
    } else {
      Unchanged(x, c);
    }
  }

  // Transitions

  lemma TransitionFollows(x: Context, c: Channel, cause: Cause, failure: Failure)
    requires Marked(c)
    ensures Follows(x, c, Transition(x, c, cause, failure))
  {
    hide SettleOutcome, FailOutcomes, FramesKept, NoSuccess;
    FailuresKept(c.operations, c.joinRef, Failed(failure), c.pushes, failure, x.refs + 1);
  }

  lemma StartLeaveFollows(x: Context, c: Channel)
    requires Marked(c)
    ensures Follows(x, c, StartLeave(x, c))
  {
    hide Transition, Follows, Marked;
    if !c.leaver.NoLeaver? {
      Unchanged(x, c);
    } else if c.state == Left {
      ScheduleFollows(x, c);
    } else {
      var t := Transition(x, c, Leave, ChannelFailure(WasLeft));
      TransitionFollows(x, c, Leave, ChannelFailure(WasLeft));
      ScheduleFollows(x, t);
      FollowsThrough(x, c, t, t.(leaver := LeaveScheduled));
    }
  }

  lemma ScheduleFollows(x: Context, c: Channel)
    ensures Follows(x, c, c.(leaver := LeaveScheduled))
  {
  }

  lemma KeepsFrames(c: Channel, next: Ref)
    ensures FramesKept(c.operations, c.operations, next) && NoSuccess(c.operations, c.operations)
  {
  }

  lemma JoinFailedFollows(x: Context, c: Channel, failure: Failure)
    requires Marked(c)
    ensures Follows(x, c, JoinFailed(x, c, failure))
  {
    hide Transition, Follows;
    Unchanged(x, c);
    TransitionFollows(x, c, Configuration, failure);
    TransitionFollows(x, c, Timeout, ChannelFailure(DeadlineExpired));
  }

  lemma ReleaseFollows(x: Context, c: Channel)
    ensures Follows(x, c, Release(x, c))
  {
    hide Release;
    ReleaseFrame(x, c);
  }

  lemma ObserveFollows(x: Context, c: Channel)
    ensures Follows(x, c, Observe(c))
  {
  }

  lemma WithoutJoinerFollows(x: Context, c: Channel)
    ensures Follows(x, c, WithoutJoiner(c))
  {
  }

  // Tasks and their flags

  lemma StartedFollows(x: Context, c: Channel, recovery: Recovery)
    ensures Follows(x, c, c.(recovery := recovery, recoveryCancelled := false))
  {
  }

  lemma RestartRequestFollows(x: Context, c: Channel)
    ensures Follows(x, c, c.(restartRequested := true))
  {
  }

  lemma AbandonFollows(x: Context, c: Channel, abandoned: bool)
    ensures Follows(x, c, c.(recovery := NoRecovery, abandoned := abandoned))
  {
  }

  lemma LossFollows(x: Context, c: Channel, loss: Loss)
    ensures Follows(x, c, c.(loss := loss))
  {
  }

  lemma StartRecoveryFollows(x: Context, c: Channel, generation: Option<nat>)
    ensures Follows(x, c, StartRecovery(x, c, generation))
  {
    hide Follows, CanRecover;
    Unchanged(x, c);
    var g := if generation.Some? then generation.value else x.generation;
    StartedFollows(x, c, Backoff(g));
  }

  lemma StartLossFollows(x: Context, c: Channel, failure: Failure)
    requires Marked(c)
    ensures Follows(x, c, StartLoss(x, c, failure))
  {
    hide Follows, Transition, StartLeave;
    if c.state == Left {
      LossFollows(x, c, LossScheduled);
      StartLeaveFollows(x, c);
    } else {
      var t := Transition(x, c, Close, failure);
      TransitionFollows(x, c, Close, failure);
      MarkedStays(x, c, t);
      LossFollows(x, t, LossScheduled);
      StartLeaveFollows(x, t);
      FollowsThrough(x, c, t, StartLoss(x, c, failure));
    }
  }

  lemma MarkedStays(x: Context, c: Channel, d: Channel)
    requires Follows(x, c, d) && Marked(c)
    ensures Marked(d)
  {
  }

  // Server frames

  lemma HandleLifecycleFollows(x: Context, c: Channel, m: Message)
    requires Marked(c)
    ensures Follows(x, c, HandleLifecycle(x, c, m))
  {
    hide Follows, Transition, StartRecovery, StartLoss, Release, Observe;
    var d := Observe(c);
    ObserveFollows(x, c);
    MarkedStays(x, c, d);
    if m.ref.Some? && m.ref.value != c.joinRef {
      Unchanged(x, c);
    } else if c.state == Left {
      ReleaseFollows(x, d);
      FollowsThrough(x, c, d, Release(x, d));
    } else {
      var cause := if m.event.ErrorEvent? then Crash else Close;
      var failure := ChannelFailure(if m.event.ErrorEvent? then Crashed else ClosedByServer);
      var t := Transition(x, d, cause, failure);
      TransitionFollows(x, d, cause, failure);
      MarkedStays(x, d, t);
      FollowsThrough(x, c, d, t);
      LifecycleIs(x, c, m);
      if c.established {
        StartRecoveryFollows(x, t, None);
        StartLossFollows(x, t, failure);
        FollowsThrough(x, c, t, HandleLifecycle(x, c, m));
      }
    }
  }

  lemma LifecycleIs(x: Context, c: Channel, m: Message)
    requires c.state != Left && !(m.ref.Some? && m.ref.value != c.joinRef)
    ensures
      var cause := if m.event.ErrorEvent? then Crash else Close;
      var failure := ChannelFailure(if m.event.ErrorEvent? then Crashed else ClosedByServer);
      var t := Transition(x, Observe(c), cause, failure);
      HandleLifecycle(x, c, m) ==
        if !c.established then t else if m.event.ErrorEvent? then StartRecovery(x, t, None) else StartLoss(x, t, failure)
  {
    hide Transition, StartRecovery, StartLoss, Release, Observe;
  }

  /** The frame acknowledges the channel's current join. */
  predicate Acknowledges(x: Context, c: Channel, g: nat, m: Message) {
    && c.registered && OnCurrentConnection(x, c) && c.generation == g && m.ref == Some(c.joinRef)
    && m.event.ReplyEvent? && m.event.body.isMap && m.event.body.status == StatusOk
    && c.ready.Pending? && !c.leaveRequested && !x.shutdown
  }

  /** A reply that lets an operation of this kind succeed. */
  predicate Good(kind: OperationKind, body: Body) {
    match kind
    case PushOperation => body.wellFormed
    case JoinOperation => body.isMap && body.status == StatusOk
    case LeaveOperation => body.isMap && body.status == StatusOk
  }

  /** Only the operation whose ref the reply names may succeed, and only on a good reply. */
  predicate Replied(p: map<Ref, Operation>, q: map<Ref, Operation>, r: Ref, body: Body) {
    forall k :: k in q && q[k].outcome.Succeeded? && !(k in p && p[k].outcome.Succeeded?) ==>
      k == r && IsPending(p, k) && Good(p[k].kind, body)
  }

  predicate Resolves(x: Context, c: Channel, g: nat, m: Message, d: Channel) {
    && c.registered && OnCurrentConnection(x, c) && c.generation == g && m.event.ReplyEvent? && m.ref.Some?
    && Moves(x, c, d) && Replied(c.operations, d.operations, m.ref.value, m.event.body)
  }

  /** The matched refs belong to operations of the matching kind. */
  predicate KindsOk(c: Channel) {
    && (c.joinRef in c.operations ==> c.operations[c.joinRef].kind == JoinOperation)
    && (c.leaveRef.Some? && c.leaveRef.value in c.operations ==> c.operations[c.leaveRef.value].kind == LeaveOperation)
    && (forall r :: r in c.pushes && r in c.operations ==> c.operations[r].kind == PushOperation)
  }

  lemma SuccessAt(operations: map<Ref, Operation>, r: Ref, f: Future, body: Body)
    requires f.Succeeded? && IsPending(operations, r) ==> Good(operations[r].kind, body)
    requires !f.Pending?
    ensures Replied(operations, SettleOutcome(operations, r, f), r, body)
  {
  }

  lemma FailureReplies(p: map<Ref, Operation>, q: map<Ref, Operation>, r: Ref, body: Body)
    requires NoSuccess(p, q)
    ensures Replied(p, q, r, body)
  {
  }

  /** What an acknowledged join changes. */
  predicate Installs(c: Channel, d: Channel, next: Ref, body: Body) {
    && Replied(c.operations, d.operations, c.joinRef, body)
    && Grows(c, d) && FramesKept(c.operations, d.operations, next)
    && d.installed == c.installed + [c.joinRef]
    && d.joinRef == c.joinRef && d.connection == c.connection && d.joinSubmitted == c.joinSubmitted
  }

  lemma AcceptInstalls(x: Context, c: Channel, body: Body)
    requires !c.leaveRequested && Marked(c) && KindsOk(c) && Good(JoinOperation, body)
    ensures Installs(c, Accept(Install(c)), x.refs + 1, body)
  {
    hide SettleOutcome, FramesKept, Replied;
    OutcomesKept(c.operations, c.joinRef, Succeeded, x.refs + 1);
    SuccessAt(c.operations, c.joinRef, Succeeded, body);
    KeepsFrames(c, x.refs + 1);
  }

  lemma HookFailureInstalls(x: Context, c: Channel, failure: Failure, body: Body)
    requires !c.leaveRequested && Marked(c)
    ensures Installs(c, Transition(x, Install(c), Configuration, failure), x.refs + 1, body)
  {
    hide Transition, Replied;
    TransitionFollows(x, Install(c), Configuration, failure);
    InstallKeeps(c);
    TransitionFrame(x, Install(c), Configuration, failure);
    FailureReplies(c.operations, Transition(x, Install(c), Configuration, failure).operations, c.joinRef, body);
  }

  lemma InstallKeeps(c: Channel)
    ensures
      var d := Install(c);
      && Grows(c, d) && d.operations == c.operations && d.joinRef == c.joinRef && d.connection == c.connection
      && d.joinSubmitted == c.joinSubmitted && d.installed == c.installed + [c.joinRef] && (Marked(c) ==> Marked(d))
  {
  }

  lemma RefusalFollows(x: Context, c: Channel, failure: Failure)
    requires Marked(c)
    ensures Follows(x, c, Transition(x, c, Rejected, failure)) && Follows(x, c, Transition(x, Observe(c), Rejected, failure))
  {
    hide Transition, Follows, Observe;
    TransitionFollows(x, c, Rejected, failure);
    ObserveFollows(x, c);
    MarkedStays(x, c, Observe(c));
    TransitionFollows(x, Observe(c), Rejected, failure);
    FollowsThrough(x, c, Observe(c), Transition(x, Observe(c), Rejected, failure));
  }

  lemma ReleaseObserved(x: Context, c: Channel)
    ensures Follows(x, c, Release(x, Observe(c)))
  {
    hide Follows, Release, Observe;
    ObserveFollows(x, c);
    ReleaseFollows(x, Observe(c));
    FollowsThrough(x, c, Observe(c), Release(x, Observe(c)));
  }

  lemma HandleJoinReplyFollows(x: Context, c: Channel, body: Body, hookOk: bool)
    requires Marked(c) && KindsOk(c)
    ensures
      var d := HandleJoinReply(x, c, body, hookOk);
      || Follows(x, c, d)
      || (&& Installs(c, d, x.refs + 1, body) && c.ready.Pending? && !c.leaveRequested && !x.shutdown
          && body.isMap && body.status == StatusOk)
  {
    hide Follows, Transition, Release, Observe, Install, Accept, Installs, Marked, KindsOk;
    Unchanged(x, c);
    if !c.ready.Pending? || c.leaveRequested || x.shutdown {
      ReleaseObserved(x, c);
    } else {
      RefusalFollows(x, c, ChannelFailure(JoinRefused));
      if body.isMap && body.status == StatusOk {
        AcceptInstalls(x, c, body);
        HookFailureInstalls(x, c, ChannelFailure(HookFailed), body);
      }
    }
  }

  lemma LeaveReplyAnswers(x: Context, c: Channel, body: Body)
    requires KindsOk(c) && c.leaveRef.Some?
    ensures Moves(x, c, HandleLeaveReply(c, body))
    ensures Replied(c.operations, HandleLeaveReply(c, body).operations, c.leaveRef.value, body)
  {
    hide Moves, Replied, SettleOutcome, SettleUnsubscribed;
    var f := if body.isMap && body.status == StatusOk then Succeeded else Failed(ChannelFailure(LeaveRefused));
    SettleUnsubscribedMoves(x, c, f);
    UnsubscribedOperations(c, f);
    SuccessAt(c.operations, c.leaveRef.value, f, body);
    KeepsFrames(c, x.refs + 1);
    FailureReplies(c.operations, c.operations, c.leaveRef.value, body);
  }

  lemma PushReplyAnswers(x: Context, c: Channel, r: Ref, body: Body)
    requires KindsOk(c) && r in c.pushes
    ensures Moves(x, c, ResolvePush(c, r, body)) && Replied(c.operations, ResolvePush(c, r, body).operations, r, body)
  {
    hide Moves, Replied, SettleOutcome;
    var f := if body.wellFormed then Succeeded else Failed(ChannelFailure(MalformedReply));
    SettlePushMoves(x, c, r, f);
    SuccessAt(c.operations, r, f, body);
  }

  lemma KeepFollows(x: Context, c: Channel, m: Message)
    ensures Follows(x, c, Keep(x, c, m))
  {
    KeepsFrames(c, x.refs + 1);
  }

  /** What a routed frame can do to a channel. */
  predicate Routed(x: Context, c: Channel, g: nat, m: Message, d: Channel) {
    || Follows(x, c, d)
    || Resolves(x, c, g, m, d)
    || (m.event.ReplyEvent? && Installs(c, d, x.refs + 1, m.event.body) && Acknowledges(x, c, g, m))
  }

  lemma RouteFollows(x: Context, c: Channel, g: nat, m: Message, hookOk: bool)
    requires Marked(c) && KindsOk(c)
    ensures Routed(x, c, g, m, Route(x, c, g, m, hookOk))
  {
    hide Follows, Moves, Replied, Installs, HandleLifecycle, HandleJoinReply, HandleLeaveReply, ResolvePush, Keep, Marked, KindsOk,
      OnCurrentConnection, IsStaleJoin;
    Unchanged(x, c);
    KeepFollows(x, c, m);
    HandleLifecycleFollows(x, c, m);
    if m.event.ReplyEvent? {
      HandleJoinReplyFollows(x, c, m.event.body, hookOk);
      if c.leaveRef.Some? {
        LeaveReplyAnswers(x, c, m.event.body);
      }
      if m.ref.Some? && m.ref.value in c.pushes {
        PushReplyAnswers(x, c, m.ref.value, m.event.body);
      }
    }
  }

  // Joins

  lemma AdmitFollows(x: Context, c: Channel)
    requires c.state == Created && !c.joinSubmitted
    ensures Follows(x, c, Admit(x, c))
  {
    KeepsFrames(c, x.refs + 1);
  }

  lemma SubmitsOperation(x: Context, c: Channel, op: Operation)
    requires x.refs + 1 !in c.operations && op.outcome.Pending?
    ensures Follows(x, c, c.(operations := c.operations[x.refs + 1 := op]))
  {
  }

  lemma SubmitJoinFollows(x: Context, c: Channel, paramsOk: bool)
    requires Marked(c) && c.joinRef == x.refs + 1 && x.refs + 1 !in c.operations
    ensures Follows(x, c, SubmitJoin(x, c, paramsOk))
  {
    hide Follows, JoinFailed;
    Unchanged(x, c);
    JoinFailedFollows(x, c, ChannelFailure(BadParams));
    if c.connection.Some? {
      SubmitsOperation(x, c, Operation(JoinOperation, c.connection.value, c.joinRef, Pending, Scheduled));
    }
  }

  lemma JoinerFollows(x: Context, c: Channel, joiner: Option<Ref>)
    ensures Follows(x, c, c.(joiner := joiner))
  {
  }

  lemma AdmitMeans(x: Context, c: Channel)
    ensures Admit(x, c).joinRef == x.refs + 1 && Admit(x, c).operations == c.operations && Admit(x, c).state == Joining
  {
  }

  lemma BeginJoinFollows(x: Context, c: Channel, hookSync: bool, paramsOk: bool)
    requires c.state == Created && !c.joinSubmitted && x.refs + 1 !in c.operations
    ensures Follows(x, c, BeginJoin(x, c, hookSync, paramsOk))
  {
    hide Follows, Admit, SubmitJoin, StartLeave, Marked;
    var a := Admit(x, c);
    AdmitFollows(x, c);
    AdmitMeans(x, c);
    NotLeftMarked(a);
    StartLeaveFollows(x, a);
    FollowsThrough(x, c, a, StartLeave(x, a));
    SubmitJoinFollows(x, a, hookSync && paramsOk);
    var d := SubmitJoin(x, a, hookSync && paramsOk);
    FollowsThrough(x, c, a, d);
    MarkedStays(x, a, d);
    JoinerFollows(x, d, Some(x.refs + 1));
    FollowsThrough(x, c, d, d.(joiner := Some(x.refs + 1)));
    StartLeaveFollows(x, d);
    FollowsThrough(x, c, d, StartLeave(x, d));
  }

  lemma NotLeftMarked(c: Channel)
    requires c.state != Left
    ensures Marked(c)
  {
  }

  lemma ResumeJoinerFollows(x: Context, c: Channel, outcome: Future)
    requires Marked(c)
    ensures Follows(x, c, ResumeJoiner(x, c, outcome))
  {
    hide Follows, JoinFailed, StartLeave, WithoutJoiner, Marked;
    var d := WithoutJoiner(c);
    WithoutJoinerFollows(x, c);
    MarkedStays(x, c, d);
    if outcome.Failed? {
      var e := JoinFailed(x, d, outcome.failure);
      JoinFailedFollows(x, d, outcome.failure);
      MarkedStays(x, d, e);
      FollowsThrough(x, c, d, e);
      StartLeaveFollows(x, e);
      FollowsThrough(x, c, e, StartLeave(x, e));
    }
  }

  lemma CancelJoinerFollows(x: Context, c: Channel, r: Ref)
    requires Marked(c)
    ensures Follows(x, c, StartLeave(x, Settle(WithoutJoiner(c), r, Failed(CallerCancelled))))
  {
    hide Follows, Settle, StartLeave, WithoutJoiner, Marked;
    var d := WithoutJoiner(c);
    var e := Settle(d, r, Failed(CallerCancelled));
    WithoutJoinerFollows(x, c);
    SettleFollows(x, d, r, Failed(CallerCancelled));
    FollowsThrough(x, c, d, e);
    MarkedStays(x, c, e);
    StartLeaveFollows(x, e);
    FollowsThrough(x, c, e, StartLeave(x, e));
  }

  lemma LeaveNewFollows(x: Context, c: Channel)
    requires c.state == Created
    ensures Follows(x, c, BeginLeave(x, c))
  {
    KeepsFrames(c, x.refs + 1);
  }

  lemma BeginLeaveFollows(x: Context, c: Channel)
    requires Marked(c)
    ensures Follows(x, c, BeginLeave(x, c))
  {
    hide Follows, StartLeave;
    if c.state == Created {
      LeaveNewFollows(x, c);
    } else {
      StartLeaveFollows(x, c);
    }
  }

  // Pushes and sends

  lemma SubmitPushFollows(x: Context, c: Channel, connection: ConnectionId)
    requires x.refs + 1 !in c.operations
    ensures Follows(x, c, SubmitPush(x, c, connection))
  {
  }

  lemma DropPushFollows(x: Context, c: Channel, r: Ref)
    ensures Follows(x, c, c.(pushes := c.pushes - {r}))
  {
  }

  lemma FinishSendFollows(x: Context, c: Channel, r: Ref)
    requires r in c.operations
    ensures Follows(x, c, FinishSend(c, r))
  {
  }

  lemma FinishWriteFollows(x: Context, c: Channel, r: Ref, f: Future)
    requires r in c.operations && !f.Succeeded?
    ensures Follows(x, c, Settle(FinishSend(c, r), r, f))
  {
    hide Follows, FinishSend, Settle;
    FinishSendFollows(x, c, r);
    SettleFollows(x, FinishSend(c, r), r, f);
    FollowsThrough(x, c, FinishSend(c, r), Settle(FinishSend(c, r), r, f));
  }

  // Recovery

  lemma RecoveryFollows(x: Context, c: Channel, recovery: Recovery)
    ensures Follows(x, c, c.(recovery := recovery))
  {
  }

  lemma RestartFollows(x: Context, c: Channel, g: nat)
    requires c.state != Left && c.state != Created
    ensures Follows(x, c, Restart(x, c, g))
  {
    KeepsFrames(c, x.refs + 1);
  }

  lemma RestartMeans(x: Context, c: Channel, g: nat)
    ensures Restart(x, c, g).joinRef == x.refs + 1 && Restart(x, c, g).operations == c.operations
    ensures Restart(x, c, g).state == Rejoining
  {
  }

  lemma RejoinFollows(x: Context, c: Channel, g: nat, paramsOk: bool)
    requires c.state != Left && c.state != Created && x.refs + 1 !in c.operations
    ensures Follows(x, c, Rejoin(x, c, g, paramsOk))
  {
    hide Follows, Restart, SubmitJoin, Marked;
    var d := Restart(x, c, g);
    RestartFollows(x, c, g);
    RestartMeans(x, c, g);
    NotLeftMarked(d);
    SubmitJoinFollows(x, d, paramsOk);
    FollowsThrough(x, c, d, SubmitJoin(x, d, paramsOk));
  }

  lemma BeginRejoinFollows(x: Context, c: Channel)
    requires Marked(c)
    ensures Follows(x, c, BeginRejoin(x, c))
  {
    hide Follows, Transition, Marked;
    var t := if c.state == Joined then Transition(x, c, Transport, SocketFailure) else c;
    Unchanged(x, c);
    TransitionFollows(x, c, Transport, SocketFailure);
    RestartRequestFollows(x, t);
    FollowsThrough(x, c, t, t.(restartRequested := true));
  }

  lemma RecoveryFailedFollows(x: Context, c: Channel, g: nat)
    requires Marked(c)
    ensures Follows(x, c, RecoveryFailed(x, c, g))
  {
    hide Follows, StartLoss, CanRecover, Marked;
    var d := StartLoss(x, c, ChannelFailure(JoinRefused));
    StartLossFollows(x, c, ChannelFailure(JoinRefused));
    RecoveryFollows(x, d, NoRecovery);
    FollowsThrough(x, c, d, d.(recovery := NoRecovery));
    RecoveryFollows(x, c, RecoveryLoops(x, c, g).recovery);
  }

  lemma RecoveryLoopsFollows(x: Context, c: Channel, g: nat)
    ensures Follows(x, c, RecoveryLoops(x, c, g))
  {
    hide Follows, CanRecover;
    RecoveryFollows(x, c, RecoveryLoops(x, c, g).recovery);
  }

  lemma RecoveryWakesFollows(x: Context, c: Channel)
    requires Marked(c) && c.recovery.Backoff?
    ensures Follows(x, c, RecoveryStep(x, c, RecoveryWakes))
  {
    hide Follows, BeginRejoin, CanRecover, Marked;
    var d := BeginRejoin(x, c);
    BeginRejoinFollows(x, c);
    RecoveryFollows(x, d, StoppingProcessor(c.recovery.generation));
    FollowsThrough(x, c, d, d.(recovery := StoppingProcessor(c.recovery.generation)));
    RecoveryFollows(x, c, NoRecovery);
  }

  lemma RecoveryRestartsFollows(x: Context, c: Channel, paramsOk: bool)
    requires c.recovery.StoppingProcessor? && (ShouldRejoin(c) ==> c.state != Created && x.refs + 1 !in c.operations)
    ensures Follows(x, c, RecoveryStep(x, c, RecoveryRestarts(paramsOk)))
  {
    hide Follows, Rejoin, RecoveryFailed, RecoveryLoops, Marked;
    var g := c.recovery.generation;
    if !ShouldRejoin(c) {
      RecoveryLoopsFollows(x, c, g);
    } else {
      var d := Rejoin(x, c, g, paramsOk);
      RejoinFollows(x, c, g, paramsOk);
      RejoinFollows(x, c, g, false);
      RecoveryFollows(x, d, AwaitingRejoin(g, x.refs + 1));
      FollowsThrough(x, c, d, d.(recovery := AwaitingRejoin(g, x.refs + 1)));
      var e := Rejoin(x, c, g, paramsOk);
      NotLeftMarked(c);
      MarkedStays(x, c, e);
      RecoveryFailedFollows(x, e, g);
      FollowsThrough(x, c, e, RecoveryFailed(x, e, g));
    }
  }

  lemma RecoveryResumesFollows(x: Context, c: Channel)
    requires Marked(c) && c.recovery.AwaitingRejoin?
    ensures Follows(x, c, RecoveryStep(x, c, RecoveryResumes))
  {
    hide Follows, JoinFailed, RecoveryFailed, RecoveryLoops, Marked;
    var g := c.recovery.generation;
    Unchanged(x, c);
    RecoveryFollows(x, c, NoRecovery);
    RecoveryLoopsFollows(x, c, g);
    if OutcomeDone(c, c.recovery.ref) && c.operations[c.recovery.ref].outcome.Failed? {
      var failure := c.operations[c.recovery.ref].outcome.failure;
      var d := JoinFailed(x, c, failure);
      JoinFailedFollows(x, c, failure);
      MarkedStays(x, c, d);
      RecoveryFailedFollows(x, d, g);
      FollowsThrough(x, c, d, RecoveryFailed(x, d, g));
    }
  }

  lemma RecoveryCancelledFollows(x: Context, c: Channel)
    ensures Follows(x, c, Act(x, c, RecoveryCancelled))
  {
    hide Follows, Settle;
    var d := if c.recovery.AwaitingRejoin? then Settle(c, c.recovery.ref, Failed(CallerCancelled)) else c;
    Unchanged(x, c);
    if c.recovery.AwaitingRejoin? {
      SettleFollows(x, c, c.recovery.ref, Failed(CallerCancelled));
    }
    var e := Act(x, c, RecoveryCancelled);
    AbandonFollows(x, d, e.abandoned);
    FollowsThrough(x, c, d, d.(recovery := NoRecovery, abandoned := e.abandoned));
  }

  // Leaving and losing

  lemma LeaverFollows(x: Context, c: Channel, leaver: Leaver, cancelled: bool)
    ensures Follows(x, c, c.(leaver := leaver, recoveryCancelled := cancelled))
  {
  }

  lemma StartUnregisterFollows(x: Context, c: Channel)
    requires Marked(c)
    ensures Follows(x, c, StartUnregister(x, c))
  {
    hide Follows, Transition, StartLeave, Marked;
    UnregisterFollows(x, c);
    LossFollows(x, c, LossDone);
    var d := Unregister(x, c);
    LossFollows(x, d, LossUnregistering);
    FollowsThrough(x, c, d, d.(loss := LossUnregistering));
  }

  lemma UnregisterFollows(x: Context, c: Channel)
    requires Marked(c)
    ensures Follows(x, c, Unregister(x, c))
  {
    hide Follows, Transition, StartLeave, Marked;
    StartLeaveFollows(x, c);
    var t := Transition(x, c, Close, ChannelFailure(ClosedByServer));
    TransitionFollows(x, c, Close, ChannelFailure(ClosedByServer));
    MarkedStays(x, c, t);
    StartLeaveFollows(x, t);
    FollowsThrough(x, c, t, StartLeave(x, t));
  }

  lemma ReportLossFollows(x: Context, c: Channel)
    ensures Follows(x, c, ReportLoss(c))
  {
    hide FramesKept;
    KeepsFrames(c, x.refs + 1);
  }

  lemma SubmitLeaveFollows(x: Context, c: Channel, connection: ConnectionId)
    requires x.refs + 1 !in c.operations
    ensures Follows(x, c, SubmitLeave(x, c, connection))
  {
  }

  lemma LeaveRefFollows(x: Context, c: Channel)
    ensures Follows(x, c, WithLeaveRef(x, c))
  {
  }

  lemma BeginCleanupFollows(x: Context, c: Channel)
    ensures Follows(x, c, BeginCleanup(c))
  {
    hide Follows;
    LeaverFollows(x, c, CleaningUp, BeginCleanup(c).recoveryCancelled);
  }

  lemma RunLeaveFollows(x: Context, c: Channel)
    requires x.refs + 1 !in c.operations
    ensures Follows(x, c, RunLeave(x, c))
  {
    hide Follows, SubmitLeave, BeginCleanup, WithLeaveRef, Observe;
    if SendsLeave(x, c) {
      SubmitLeaveFollows(x, c, c.connection.value);
      LeaveRefFollows(x, c);
      BeginCleanupFollows(x, WithLeaveRef(x, c));
      FollowsThrough(x, c, WithLeaveRef(x, c), BeginCleanup(WithLeaveRef(x, c)));
    } else {
      ObserveFollows(x, c);
      BeginCleanupFollows(x, c);
      BeginCleanupFollows(x, Observe(c));
      FollowsThrough(x, c, Observe(c), BeginCleanup(Observe(c)));
    }
  }

  lemma EndLeaveFollows(x: Context, c: Channel)
    ensures Follows(x, c, EndLeave(c))
  {
  }

  lemma FinishCleanupFollows(x: Context, c: Channel)
    ensures Follows(x, c, FinishCleanup(x, c))
  {
    hide Follows, Release, EndLeave;
    EndLeaveFollows(x, c);
    ReleaseFollows(x, EndLeave(c));
    FollowsThrough(x, c, EndLeave(c), FinishCleanup(x, c));
  }

  // Delivery

  lemma MailFollows(x: Context, c: Channel, m: Mailbox, processor: Processor)
    requires c.mail.log <= m.log && c.mail.dispatched <= m.dispatched && c.mail.epochs <= m.epochs
    ensures Follows(x, c, c.(mail := m, processor := processor))
  {
    KeepsFrames(c, x.refs + 1);
  }

  lemma TakeMessageFollows(x: Context, c: Channel, handled: bool)
    requires c.mail.queue != []
    ensures Follows(x, c, TakeMessage(x, c, handled))
  {
    hide Follows, LoopTest, IsStaleJoin, ChannelJoined, Skip, Dispatch;
    MailGrows(c.mail, c.joinRef);
    var p := TakeMessage(x, c, handled).processor;
    MailFollows(x, c, Skip(c.mail), p);
    MailFollows(x, c, Dispatch(c.mail, c.joinRef), p);
  }

  lemma MailGrows(m: Mailbox, epoch: nat)
    requires m.queue != []
    ensures Skip(m).log == m.log && Skip(m).dispatched == m.dispatched && Skip(m).epochs == m.epochs
    ensures Dispatch(m, epoch).log == m.log
    ensures m.dispatched <= Dispatch(m, epoch).dispatched && m.epochs <= Dispatch(m, epoch).epochs
  {
  }

  // Every single-channel step

  lemma SoundMarks(x: Context, cleaning: Cleaning, role: Role, c: Channel)
    requires Sound(x, cleaning, role, c)
    ensures Marked(c) && x.refs + 1 !in c.operations && (c.state == Created ==> !c.joinSubmitted && !c.registered)
    ensures KindsOk(c)
    ensures !c.recovery.NoRecovery? ==> c.state != Created
  {
  }

  /** Apart from an acknowledged join and a submitted frame, a step leaves the current join alone. */
  lemma ActFollows(x: Context, cleaning: Cleaning, role: Role, c: Channel, a: Action)
    requires Sound(x, cleaning, role, c) && ActionEnabled(x, role, c, a) && !(a.SendStarts? && Submits(x, c, a.ref))
    ensures
      var d := Act(x, c, a);
      Follows(x, c, d) || (a.Receive? && Routed(x, c, a.generation, a.message, d))
  {
    hide Sound, Follows, Marked, KindsOk, Routed, BeginJoin, ResumeJoiner, StartLeave, Settle, SettlePush, WithoutJoiner, BeginLeave, Route,
      RecoveryStep, StartUnregister, RunLeave, BeginCleanup, FinishCleanup, TakeMessage, LoopTest, SettleOutcome, FinishSend,
      ChannelJoined, SubmitPush, ReportLoss, Submits;
    SoundMarks(x, cleaning, role, c);
    match a
    case JoinCall(hookSync, paramsOk) => BeginJoinFollows(x, c, hookSync, paramsOk);
    case JoinerResumes => ResumeJoinerFollows(x, c, c.operations[c.joiner.value].outcome);
    case JoinerCancelled => CancelJoinerFollows(x, c, c.joiner.value);
    case LeaveCall => BeginLeaveFollows(x, c);
    case PushCall =>
      JoinedConnection(x, cleaning, role, c);
      SubmitPushFollows(x, c, c.connection.value);
    case PushReturns(r) => DropPushFollows(x, c, r);
    case PushCancelled(r) => SettlePushMoves(x, c, r, Failed(CallerCancelled));
    case SendStarts(r) => FinishWriteFollows(x, c, r, Failed(ChannelFailure(NotCurrent)));
    case WriteCompletes(r) => FinishSendFollows(x, c, r);
    case Receive(g, m, hookOk) => RouteFollows(x, c, g, m, hookOk);
    case RecoveryWakes => RecoveryWakesFollows(x, c);
    case RecoveryRestarts(paramsOk) => RecoveryRestartsFollows(x, c, paramsOk);
    case RecoveryResumes => RecoveryResumesFollows(x, c);
    case RecoveryCancelled => RecoveryCancelledFollows(x, c);
    case LossStarts => StartUnregisterFollows(x, c);
    case LossUnregistered => LossFollows(x, c, LossReporting);
    case LossReported => ReportLossFollows(x, c);
    case LeaveStarts => RunLeaveFollows(x, c);
    case LeaveAnswered => BeginCleanupFollows(x, c);
    case LeaveCleansUp => FinishCleanupFollows(x, c);
    case ProcessorTakes(handled) => TakeMessageFollows(x, c, handled);
    case HandlersDone => MailFollows(x, c, c.mail, LoopTest(c));
  }

  /** A submitted frame: its write has begun, and a submitted join is remembered. */
  lemma SubmittedFollows(x: Context, c: Channel, r: Ref)
    requires r in c.operations && c.operations[r].send == Scheduled && Submits(x, c, r) && Marked(c)
    ensures
      var d := StartSend(x, c, r);
      && Grows(c, d) && FramesKept(c.operations, d.operations, x.refs + 1) && d.operations.Keys == c.operations.Keys
      && d.operations[r].send == Writing && d.joinRef == c.joinRef && d.connection == c.connection && d.installed == c.installed
      && d.state == c.state && d.registered == c.registered && NoSuccess(c.operations, d.operations)
      && d.joinSubmitted == (c.joinSubmitted || c.operations[r].kind == JoinOperation)
  {
    hide Submits;
  }

  // Sweeps

  lemma FailLiveFollows(x: Context, c: Channel)
    requires Marked(c)
    ensures Follows(x, c, FailLive(x, c))
  {
    hide Follows, SettleUnsubscribed, StartLeave, Marked;
    Unchanged(x, c);
    var d := SettleUnsubscribed(c, Failed(SocketFailure));
    SettleUnsubscribedMoves(x, c, Failed(SocketFailure));
    MarkedStays(x, c, d);
    StartLeaveFollows(x, d);
    FollowsThrough(x, c, d, StartLeave(x, d));
  }

  lemma FailPendingFollows(x: Context, c: Channel)
    requires Marked(c)
    ensures Follows(x, c, FailPending(x, c))
  {
    hide Follows, SettleUnsubscribed, Transition, FailLive, Marked;
    Unchanged(x, c);
    SettleUnsubscribedMoves(x, c, Failed(SocketFailure));
    var t := Transition(x, c, Transport, SocketFailure);
    TransitionFollows(x, c, Transport, SocketFailure);
    MarkedStays(x, c, t);
    FailLiveFollows(x, t);
    FollowsThrough(x, c, t, FailLive(x, t));
  }

  lemma CancelRecoveryFollows(x: Context, c: Channel)
    ensures Follows(x, c, c.(recoveryCancelled := true))
  {
  }

  lemma BeginDisconnectFollows(x: Context, c: Channel)
    requires Marked(c)
    ensures Follows(x, c, BeginDisconnect(x, c))
  {
    hide Follows, FailPending;
    FailPendingFollows(x, c);
    var d := FailPending(x, c);
    CancelRecoveryFollows(x, d);
    FollowsThrough(x, c, d, d.(recoveryCancelled := true));
  }

  lemma EndCleanupFollows(x: Context, closed: Option<ConnectionId>, c: Channel)
    ensures Follows(x, c, EndCleanup(x, closed, c))
  {
    hide Follows, Release, Observe;
    Unchanged(x, c);
    ObserveFollows(x, c);
    ReleaseObserved(x, c);
  }

  lemma RetireFollows(x: Context, c: Channel, failure: Failure)
    requires Marked(c)
    ensures Follows(x, c, Retire(x, c, failure))
  {
    hide Follows, Transition, Observe, StartLeave, Release, Marked;
    Unchanged(x, c);
    var t := Transition(x, c, Stop, failure);
    TransitionFollows(x, c, Stop, failure);
    MarkedStays(x, c, t);
    var d := Observe(t);
    ObserveFollows(x, t);
    MarkedStays(x, t, d);
    FollowsThrough(x, c, t, d);
    StartLeaveFollows(x, d);
    FollowsThrough(x, c, d, StartLeave(x, d));
    ReleaseFollows(x, StartLeave(x, d));
    FollowsThrough(x, c, StartLeave(x, d), Release(x, StartLeave(x, d)));
  }

  lemma RejoinFailureFollows(x: Context, c: Channel)
    requires Marked(c)
    ensures Follows(x, c, RejoinFailure(x, c).0)
  {
    hide Follows, Unregister, StartRecovery, Marked;
    Unchanged(x, c);
    UnregisterFollows(x, c);
    StartRecoveryFollows(x, c, None);
  }
}
