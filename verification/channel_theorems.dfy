/** What the client promises about its channels, over every run. */
module ChannelTheorems {
  import opened Wrappers
  import opened Channels
  import opened ChannelProtocol
  import opened ChannelInvariant
  import opened ChannelHandlers
  import opened ChannelAttended
  import opened ChannelPass
  import opened ChannelHistory
  import opened ChannelLosses
  import opened ChannelReports
  import opened ChannelSystem
  import opened ChannelLedger

  /** Some run ends in `s`. */
  ghost predicate Reachable(s: System) {
    exists v2: bool, queueLimit: nat, steps: seq<Step> :: Run(v2, queueLimit, steps) == Some(s)
  }

  lemma ReachableOk(s: System)
    requires Reachable(s)
    ensures SystemOk(s) && LedgerOk(s)
  {
    hide SystemOk, LedgerOk, Run;
    var v2: bool, queueLimit: nat, steps: seq<Step> :| Run(v2, queueLimit, steps) == Some(s);
    RunLedger(v2, queueLimit, steps);
  }

  /** The invariant of channel i, opened. */
  lemma SoundAt(s: System, i: nat)
    requires Reachable(s) && i < |s.channels|
    ensures Sound(s.client, s.cleaning, RoleOf(s.pass, i), s.channels[i])
    ensures Attended(s.client, RoleOf(s.pass, i), s.channels[i])
    ensures RecordOk(s, i, s.channels[i])
    ensures ContextOk(s.client)
  {
    hide Sound, Attended, RecordOk, Reachable, ContextOk;
    ReachableOk(s);
  }

  // No established channel is stranded

  /** Who restarts a REJOINING channel: its own recovery, or the supervisor's pass. */
  predicate HasOwner(s: System, i: nat)
    requires i < |s.channels|
  {
    var c := s.channels[i];
    || (!c.recovery.NoRecovery? && !c.recoveryCancelled)
    || RoleOf(s.pass, i) == Queued || RoleOf(s.pass, i) == Restarting
    || (RoleOf(s.pass, i).Rejoins? && !JoinSucceeded(c))
  }

  /** While replies still arrive, every REJOINING channel has an owner, even after a crash between
      the join ack and its waiter's resumption; once routing has stopped, the supervisor's next
      cleanup takes the channel over. */
  lemma NoStranded(s: System, i: nat)
    requires Reachable(s) && i < |s.channels| && IsConnected(s.client)
    requires s.channels[i].registered && s.channels[i].state == Rejoining
    ensures HasOwner(s, i) || (!s.client.routing && (s.pass.NoPass? ==> Enabled(s, CleanupBegins)))
  {
    hide Reachable, Sound, RecordOk, ChannelOk;
    SoundAt(s, i);
    ReachableOk(s);
  }

  /** At most one task waits for the channel's join, and for nothing but its current one. */
  lemma OneJoinWaiter(s: System, i: nat)
    requires Reachable(s) && i < |s.channels|
    ensures
      var c, role := s.channels[i], RoleOf(s.pass, i);
      && !(c.joiner.Some? && c.recovery.AwaitingRejoin?)
      && !(c.joiner.Some? && role.Rejoins?)
      && !(c.recovery.AwaitingRejoin? && role.Rejoins?)
      && (c.joiner.Some? ==> c.joiner.value == c.joinRef)
      && (c.recovery.AwaitingRejoin? ==> c.recovery.ref == c.joinRef)
      && (role.Rejoins? ==> role.ref == c.joinRef)
  {
    hide Reachable, MailOk, LifeOk, LossOk, ReservationOk, Attended, RecordOk, OperationsOk, PlaceOk;
    SoundAt(s, i);
  }

  // No waiter hangs on connection loss

  /** Whoever waits for an outcome waits for the current join of a registered channel on the current
      connection, where the next loss of the connection settles it. */
  lemma PendingIsCurrent(s: System, i: nat, r: Ref)
    requires Reachable(s) && i < |s.channels|
    ensures
      var c := s.channels[i];
      IsPending(c.operations, r) ==>
        && c.registered && s.client.connection.Some?
        && c.connection == s.client.connection == Some(c.operations[r].connection)
        && c.operations[r].epoch == c.joinRef
  {
    hide Reachable, Attended, RecordOk, TasksOk, MailOk, LossOk, ReservationOk;
    SoundAt(s, i);
  }

  /** Socket k is not, and will not be, the client's connection. */
  predicate Gone(s: System, k: ConnectionId) {
    k < s.sockets && s.client.connection != Some(k)
  }

  predicate SocketsOk(s: System) {
    s.client.connection.Some? ==> s.client.connection.value < s.sockets
  }

  lemma NextSockets(s: System, e: Step, k: ConnectionId)
    requires SocketsOk(s) && Enabled(s, e)
    ensures SocketsOk(Next(s, e)) && (Gone(s, k) ==> Gone(Next(s, e), k))
  {
    hide Act, Generates, Submits, FinishWrite, Settle, BeginRejoin, Rejoin, RejoinFailure, ShouldRejoin, JoinFailed, Each,
      ActionEnabled, CleanedUp, TimeoutError, NameTaken, OutcomeDone;
  }

  lemma {:induction false} RunSockets(v2: bool, queueLimit: nat, steps: seq<Step>)
    requires Run(v2, queueLimit, steps).Some?
    ensures SocketsOk(Run(v2, queueLimit, steps).value)
  {
    hide Next, Enabled;
    if steps == [] {
    } else {
      RunSockets(v2, queueLimit, steps[..|steps| - 1]);
      NextSockets(Run(v2, queueLimit, steps[..|steps| - 1]).value, steps[|steps| - 1], 0);
    }
  }

  lemma PrefixRuns(v2: bool, queueLimit: nat, steps: seq<Step>, k: nat)
    requires Run(v2, queueLimit, steps).Some? && k <= |steps|
    ensures Run(v2, queueLimit, steps[..k]).Some?
  {
    hide Next, Enabled;
    if k < |steps| {
      PrefixRuns(v2, queueLimit, steps[..|steps| - 1], k);
      assert steps[..|steps| - 1][..k] == steps[..k];
    } else {
      assert steps[..k] == steps;
    }
  }

  lemma RunReaches(v2: bool, queueLimit: nat, steps: seq<Step>)
    requires Run(v2, queueLimit, steps).Some?
    ensures Reachable(Run(v2, queueLimit, steps).value)
  {
    hide Run;
  }

  lemma {:induction false} StaysGone(v2: bool, queueLimit: nat, steps: seq<Step>, n: nat, k: ConnectionId)
    requires n <= |steps| && Run(v2, queueLimit, steps).Some? && Run(v2, queueLimit, steps[..n]).Some?
    requires Gone(Run(v2, queueLimit, steps[..n]).value, k)
    ensures Gone(Run(v2, queueLimit, steps).value, k)
  {
    hide Next, Enabled, Gone, SocketsOk;
    if n < |steps| {
      var before := steps[..|steps| - 1];
      assert before[..n] == steps[..n];
      StaysGone(v2, queueLimit, before, n, k);
      RunSockets(v2, queueLimit, before);
      NextSockets(Run(v2, queueLimit, before).value, steps[|steps| - 1], k);
    } else {
      assert steps[..n] == steps;
    }
  }

  /** The run up to step n ended with the socket k, and step n starts its cleanup. */
  predicate CleansUp(v2: bool, queueLimit: nat, steps: seq<Step>, n: nat, k: ConnectionId) {
    && n < |steps| && steps[n] == CleanupBegins
    && Run(v2, queueLimit, steps[..n]).Some? && Run(v2, queueLimit, steps[..n]).value.client.connection == Some(k)
  }

  /** From the moment `_cleanup_connection` starts, no outcome on its connection is pending ever again. */
  lemma ClosedConnectionIsQuiet(v2: bool, queueLimit: nat, steps: seq<Step>, n: nat, k: ConnectionId, i: nat, r: Ref)
    requires Run(v2, queueLimit, steps).Some?
    ensures
      var s := Run(v2, queueLimit, steps).value;
      CleansUp(v2, queueLimit, steps, n, k) && i < |s.channels| && IsPending(s.channels[i].operations, r) ==>
        s.channels[i].operations[r].connection != k
  {
    hide Next, Enabled, SystemOk, Reachable;
    var s := Run(v2, queueLimit, steps).value;
    if CleansUp(v2, queueLimit, steps, n, k) && i < |s.channels| && IsPending(s.channels[i].operations, r) {
      PrefixRuns(v2, queueLimit, steps, n + 1);
      assert steps[..n + 1][..n] == steps[..n];
      RunSockets(v2, queueLimit, steps[..n]);
      CleanupDisconnects(Run(v2, queueLimit, steps[..n]).value);
      StaysGone(v2, queueLimit, steps, n + 1, k);
      RunReaches(v2, queueLimit, steps);
      PendingIsCurrent(s, i, r);
    }
  }

  lemma CleanupDisconnects(s: System)
    requires Enabled(s, CleanupBegins)
    ensures Next(s, CleanupBegins).client.connection.None? && Next(s, CleanupBegins).sockets == s.sockets
  {
  }

  // Membership

  /** JOINED on a connection only by the server's ok to exactly the current join on that connection,
      and that join's frame had reached the connection. */
  lemma MembershipIsAcknowledged(s: System, i: nat)
    requires Reachable(s) && i < |s.channels| && s.channels[i].state == Joined
    ensures
      var c := s.channels[i];
      && c.connection.Some? && c.connection == s.client.connection && c.generation == s.client.generation
      && c.registered && c.established && !s.client.sendFailed && !s.client.shutdown
      && (c.connection.value, c.joinRef) in s.wire
      && exists body: Body :: body.isMap && body.status == StatusOk && Answer(c.connection.value, c.joinRef, body) in s.answers
  {
    hide Reachable, Sound, SystemOk, LedgerOk, Attended, OwnsRefs, SentOk;
    SoundAt(s, i);
    JoinedFacts(s, i);
    var c := s.channels[i];
    var a :| a in s.answers && Acks(a, c.joinRef) && c.connection == Some(a.connection);
    AnswersWereSent(s, a);
    assert a == Answer(c.connection.value, c.joinRef, a.body);
  }

  lemma JoinedFacts(s: System, i: nat)
    requires i < |s.channels| && Sound(s.client, s.cleaning, RoleOf(s.pass, i), s.channels[i]) && s.channels[i].state == Joined
    ensures
      var c := s.channels[i];
      && c.connection == s.client.connection && c.generation == s.client.generation
      && c.registered && c.established && !s.client.sendFailed && !s.client.shutdown
  {
    hide MailOk, ReservationOk, OperationsOk, TasksOk;
  }

  lemma AnswersWereSent(s: System, a: Answer)
    requires Reachable(s) && a in s.answers
    ensures (a.connection, a.ref) in s.wire
  {
    hide Reachable, SystemOk, NamesOk, SessionOk, RecordOk;
    ReachableOk(s);
  }

  /** An operation succeeds only by the server's answer to its own ref on its own connection: a join or
      leave by an ok, a push by a well-formed reply. */
  lemma SuccessIsAnswered(s: System, i: nat, r: Ref)
    requires Reachable(s) && i < |s.channels|
    ensures
      var ops := s.channels[i].operations;
      r in ops && ops[r].outcome.Succeeded? ==>
        && (ops[r].connection, r) in s.wire
        && exists body: Body :: Answer(ops[r].connection, r, body) in s.answers
             && (if ops[r].kind == PushOperation then body.wellFormed else body.isMap && body.status == StatusOk)
  {
    hide Reachable, Sound, Attended, OwnsRefs, SentOk, AckedOk, ContextOk;
    SoundAt(s, i);
    var ops := s.channels[i].operations;
    if r in ops && ops[r].outcome.Succeeded? {
      var a :| a in s.answers && a.ref == r && a.connection == ops[r].connection && Good(ops[r].kind, a.body);
      AnswersWereSent(s, a);
      assert a == Answer(ops[r].connection, r, a.body);
    }
  }

  /** The join-response hook runs at most once for a join_ref, and before any message is delivered
      under that join_ref. */
  lemma HookOncePerJoin(s: System, i: nat)
    requires Reachable(s) && i < |s.channels|
    ensures
      var c := s.channels[i];
      && (forall a, b :: 0 <= a < b < |c.installed| ==> c.installed[a] != c.installed[b])
      && (forall k :: 0 <= k < |c.mail.epochs| ==> c.mail.epochs[k] in c.installed)
      && (c.state == Joined ==> c.joinRef in c.installed)
      && (forall r :: r in c.installed ==> exists a :: a in s.answers && Acks(a, r))
  {
    hide Reachable, LifeOk, PlaceOk, TasksOk, ReservationOk, LossOk, OperationsOk, Attended, OwnsRefs, SentOk;
    SoundAt(s, i);
  }

  // Delivery

  /** Messages are dispatched in the order they were accepted, each at most once and under the
      join_ref it was accepted under; all that is queued belongs to the current one. */
  lemma DeliveryStaysInItsEpoch(s: System, i: nat)
    requires Reachable(s) && i < |s.channels|
    ensures
      var m, joinRef := s.channels[i].mail, s.channels[i].joinRef;
      && (forall a, b :: 0 <= a < b < |m.dispatched| ==> m.dispatched[a] < m.dispatched[b])
      && |m.epochs| == |m.dispatched|
      && (forall k :: 0 <= k < |m.dispatched| ==> m.dispatched[k] < |m.log| && m.log[m.dispatched[k]] == m.epochs[k])
      && (forall k :: 0 <= k < |m.queue| ==> m.queue[k].index < |m.log| && m.log[m.queue[k].index] == joinRef)
      && (forall a, b :: 0 <= a < |m.dispatched| && 0 <= b < |m.queue| ==> m.dispatched[a] < m.queue[b].index)
  {
    hide Reachable, LifeOk, PlaceOk, TasksOk, ReservationOk, LossOk, OperationsOk, Attended, RecordOk;
    SoundAt(s, i);
  }

  /** Every accepted message was taken by the processor, dropped by a full queue, drained by a
      rejoin, or is still queued; the queue stays within its bound. */
  lemma MessagesConserved(s: System, i: nat)
    requires Reachable(s) && i < |s.channels|
    ensures
      var m := s.channels[i].mail;
      && |m.log| == m.taken + m.dropped + m.drained + |m.queue|
      && (s.client.queueLimit > 0 ==> |m.queue| <= s.client.queueLimit)
  {
    hide Reachable, LifeOk, PlaceOk, TasksOk, ReservationOk, LossOk, OperationsOk, Attended, RecordOk, Ascending;
    SoundAt(s, i);
  }

  // Reservations

  /** At most one channel holds a name. */
  lemma OneHolderPerName(s: System, i: nat, j: nat)
    requires Reachable(s) && i < j < |s.channels|
    requires s.channels[i].registered && s.channels[j].registered
    ensures s.channels[i].name != s.channels[j].name
  {
    hide Reachable, SystemOk, WireOk, SessionOk, RecordOk;
    ReachableOk(s);
  }

  /** A channel that gave up its name is LEFT, its current join never reached a socket or was
      answered by a terminal event, and none of its frames is still being written. */
  lemma FreedOnlyWhenOver(s: System, i: nat)
    requires Reachable(s) && i < |s.channels|
    requires !s.channels[i].registered && s.channels[i].state != Created
    ensures
      var c := s.channels[i];
      && c.state == Left
      && (c.terminal || forall k :: k in s.wire ==> k.1 != c.joinRef)
      && (forall r :: r in c.operations ==> c.operations[r].send == Finished)
  {
    hide Reachable, MailOk, LossOk, OperationsOk, Attended, OwnsRefs, AckedOk;
    SoundAt(s, i);
    var c := s.channels[i];
    forall r | r in c.operations ensures c.operations[r].send == Finished {
      assert !HasPendingSend(c.operations);
    }
  }

  /** Once a channel's cleanup is done, its name is free unless the server may still hold the join; once
      the cleanup of its connection is done too, it is free for certain. */
  lemma NoReservationLeaks(s: System, i: nat)
    requires Reachable(s) && i < |s.channels| && s.channels[i].cleanupDone
    ensures
      var c := s.channels[i];
      && c.state == Left
      && (c.registered ==> !c.terminal && c.connection.Some? && (c.connection.value, c.joinRef) in s.wire)
      && (c.connection != s.client.connection && s.cleaning != Some(c.connection) ==> !c.registered)
  {
    hide Reachable, MailOk, LossOk, OperationsOk, Attended, OwnsRefs, AckedOk, LifeOk;
    SoundAt(s, i);
  }

  // Lifecycle

  /** The lifecycle fields always agree with the state. */
  lemma LifecycleAgrees(s: System, i: nat)
    requires Reachable(s) && i < |s.channels|
    ensures
      var c := s.channels[i];
      && (c.leaveRequested <==> c.state == Left)
      && (c.ready.Succeeded? <==> c.state == Joined)
      && (c.state == Joined ==> c.established)
      && (c.state != Joined ==> c.pushes == {})
      && (c.state == Joined || c.state == Joining || c.state == Rejoining ==> c.registered && !s.client.shutdown)
      && (c.leftBy.Some? <==> c.state == Left)
  {
    hide Reachable, MailOk, LossOk, OperationsOk, Attended, RecordOk, TasksOk, ReservationOk;
    SoundAt(s, i);
  }

  lemma NextGrows(s: System, e: Step)
    requires Reachable(s) && Enabled(s, e)
    ensures AllGrow(s, Next(s, e))
  {
    hide Reachable, SystemOk, LedgerOk, Enabled, Next, Grows;
    ReachableOk(s);
    NextLedger(s, e);
  }

  /** LEFT is absorbing and its first reason final; a message once accepted or dispatched stays so. */
  lemma {:induction false} NothingIsTakenBack(v2: bool, queueLimit: nat, steps: seq<Step>, n: nat)
    requires n <= |steps| && Run(v2, queueLimit, steps).Some? && Run(v2, queueLimit, steps[..n]).Some?
    ensures AllGrow(Run(v2, queueLimit, steps[..n]).value, Run(v2, queueLimit, steps).value)
  {
    hide Next, Enabled, Grows, Reachable;
    if n < |steps| {
      var before := steps[..|steps| - 1];
      assert before[..n] == steps[..n];
      NothingIsTakenBack(v2, queueLimit, before, n);
      RunReaches(v2, queueLimit, before);
      NextGrows(Run(v2, queueLimit, before).value, steps[|steps| - 1]);
      AllGrowThrough(Run(v2, queueLimit, steps[..n]).value, Run(v2, queueLimit, before).value, Run(v2, queueLimit, steps).value);
    } else {
      assert steps[..n] == steps;
      SameGrow(Run(v2, queueLimit, steps).value, Run(v2, queueLimit, steps).value);
    }
  }

  // Loss

  /** The story of channel i, whatever the past. */
  lemma ToldAt(s: System, i: nat)
    requires Reachable(s) && i < |s.channels|
    ensures ToldOf(s, i, Past(true, true))
  {
    hide Run, Told, WasDropped, WasRefused, StandingOf;
    var v2: bool, queueLimit: nat, steps: seq<Step> :| Run(v2, queueLimit, steps) == Some(s);
    RunStory(v2, queueLimit, steps, i);
    LongerPast(s.client.shutdown, RoleOf(s.pass, i), PastOf(v2, queueLimit, steps, i, s.channels[i].joinRef), Past(true, true),
               StandingOf(s.channels[i]));
  }

  /** A loss is reported at most once, and only of an established channel that the server closed, whose
      rejoin the server refused, whose params or installation failed, or whose rejoin was refused by the
      connection's own send session. */
  lemma LossReports(s: System, i: nat)
    requires Reachable(s) && i < |s.channels|
    ensures
      var c := s.channels[i];
      && c.lossReports <= 1
      && (c.lossReports == 1 || !c.loss.NoLoss? ==>
          c.state == Left && c.established && c.leftBy.Some? && Permanent(c.leftBy.value.0, c.leftBy.value.1))
  {
    hide Reachable, MailOk, OperationsOk, Attended, RecordOk, TasksOk, ReservationOk, PlaceOk, StandingOf;
    SoundAt(s, i);
    ToldAt(s, i);
    ReadsWell(s.channels[i]);
  }

  /** An established channel is lost for good, and its loss was not reported although the client runs. */
  predicate OwesReport(s: System, i: nat)
    requires i < |s.channels|
  {
    Owed(s.client.shutdown, StandingOf(s.channels[i]))
  }

  /** A loss task, the pass, or the task whose rejoin was refused will report it. */
  predicate WillReport(s: System, i: nat)
    requires i < |s.channels|
  {
    HasReporter(RoleOf(s.pass, i), StandingOf(s.channels[i]))
  }

  /** While the client runs, every loss of an established channel has been reported, will be, or was
      dropped by one of the steps in `Drops`. */
  lemma EveryLossIsReported(v2: bool, queueLimit: nat, steps: seq<Step>, i: nat)
    requires Run(v2, queueLimit, steps).Some? && i < |Run(v2, queueLimit, steps).value.channels|
    ensures
      var s := Run(v2, queueLimit, steps).value;
      OwesReport(s, i) ==> WillReport(s, i) || WasDropped(v2, queueLimit, steps, i)
  {
    hide Run, WasDropped, WasRefused, StandingOf, Explained;
    RunStory(v2, queueLimit, steps, i);
  }

  /** A step leaves an owed report without anybody to make it exactly if it drops it: it cancels a
      recovery that holds a refusal, or lets the loss task or the pass find the name free already. */
  lemma ReportIsDroppedExactly(s: System, e: Step, i: nat)
    requires Reachable(s) && Enabled(s, e) && i < |s.channels| && OwesReport(s, i) && WillReport(s, i)
    ensures
      var t := Next(s, e);
      i < |t.channels| && (OwesReport(t, i) ==> (!WillReport(t, i) <==> Drops(s, e, i)))
  {
    hide Reachable, Enabled, Next, SystemOk, LedgerOk, StandingOf, Drops, Told;
    ReachableOk(s);
    ToldAt(s, i);
    NextStory(s, e, i, Past(true, true));
    if Drops(s, e, i) {
      DropLeavesNobody(s, e, i);
    } else {
      Undropped(s.client.shutdown, RoleOf(s.pass, i), StandingOf(s.channels[i]));
      NextStory(s, e, i, Past(false, true));
      StillReported(Next(s, e).client.shutdown, RoleOf(Next(s, e).pass, i), StandingOf(Next(s, e).channels[i]));
    }
  }

  lemma Undropped(stopping: bool, role: Role, s: Standing)
    requires Told(stopping, role, Past(true, true), s) && HasReporter(role, s)
    ensures Told(stopping, role, Past(false, true), s)
  {
  }

  lemma StillReported(stopping: bool, role: Role, s: Standing)
    requires Told(stopping, role, Past(false, true), s)
    ensures Owed(stopping, s) ==> HasReporter(role, s)
  {
  }

  lemma DropLeavesNobody(s: System, e: Step, i: nat)
    requires SystemOk(s) && Enabled(s, e) && i < |s.channels| && Drops(s, e, i)
    ensures i < |Next(s, e).channels| && !WillReport(Next(s, e), i)
  {
    hide SystemOk, Sound, Attended, ContextOk, StandingOf, ActionEnabled;
    OkAt(s, i);
    var x, role, c, t := s.client, RoleOf(s.pass, i), s.channels[i], Next(s, e);
    if e.At? {
      hide Act;
      ActOf(s, i, e.action, i);
      ActDrops(x, s.cleaning, role, c, e.action);
    } else {
      hide RejoinFailure, JoinFailed;
      PassDrops(x, s.cleaning, role, c);
    }
  }

  lemma ActDrops(x: Context, cleaning: Cleaning, role: Role, c: Channel, a: Action)
    requires Sound(x, cleaning, role, c) && Attended(x, role, c) && ActionEnabled(x, role, c, a) && DropsReport(c, a)
    ensures !HasReporter(role, StandingOf(Act(x, c, a)))
  {
    hide Sound, StandingOf, Settle, Owned, WillLeave;
    Facts(x, cleaning, role, c);
    ReadsWell(Act(x, c, a));
    if a.RecoveryCancelled? {
      SettleFrame(c, c.recovery.ref, Failed(CallerCancelled));
    }
  }

  lemma PassDrops(x: Context, cleaning: Cleaning, role: Role, c: Channel)
    requires ContextOk(x) && Sound(x, cleaning, role, c) && Attended(x, role, c) && role.Rejoins? && OutcomeDone(c, role.ref)
    requires !c.registered && Rejection(c.cause) && !x.shutdown
    ensures c.operations[role.ref].outcome.Failed?
    ensures
      var (d, removing) := RejoinFailure(x, JoinFailed(x, c, c.operations[role.ref].outcome.failure));
      !removing && !HasReporter(Uninvolved, StandingOf(d))
  {
    hide Sound, StandingOf, Owned, WillLeave;
    Facts(x, cleaning, role, c);
    RejoinsFacts(x, cleaning, role, c);
    ReadsWell(c);
  }

  // A join refused by the send session

  /** A channel that was lost because its rejoin was "no longer current" had the write of that join
      start after the connection's send session had failed. */
  lemma NotCurrentComesFromFailedSession(v2: bool, queueLimit: nat, steps: seq<Step>, i: nat)
    requires Run(v2, queueLimit, steps).Some? && i < |Run(v2, queueLimit, steps).value.channels|
    ensures
      var c := Run(v2, queueLimit, steps).value.channels[i];
      c.leftBy == Some((Configuration, ChannelFailure(NotCurrent))) ==> WasRefused(v2, queueLimit, steps, i, c.joinRef)
  {
    hide Run, WasDropped, WasRefused, StandingOf;
    RunStory(v2, queueLimit, steps, i);
    ReadsWell(Run(v2, queueLimit, steps).value.channels[i]);
  }

  /** The waiter of a join refused by the send session: it finds no cause, or one that is not its own. */
  lemma RefusedWaiter(x: Context, cleaning: Cleaning, role: Role, c: Channel)
    requires Sound(x, cleaning, role, c) && Attended(x, role, c) && Told(x.shutdown, role, Past(true, true), StandingOf(c))
    requires c.recovery.AwaitingRejoin? || role.Rejoins?
    requires JoinOf(c.operations, c.joinRef) == Some(NOT_CURRENT_FAILURE)
    ensures c.established && c.cause != Some(Timeout) && c.cause != Some(Accepted)
    ensures c.state == Left || (c.state == Rejoining && c.leftBy.None? && !x.shutdown)
    ensures c.cause.None? ==> c.state != Left && c.registered
    ensures Rejection(c.cause) ==> c.state == Left
    ensures !c.leaver.NoLeaver? ==> c.state == Left
  {
    hide MailOk, LossOk;
  }

  /** A recovery whose rejoin was refused by the send session loses its channel exactly if nothing else
      has happened to it meanwhile: its cause is still empty. */
  lemma RecoveryLosesRefused(s: System, i: nat)
    requires Reachable(s) && Enabled(s, At(i, RecoveryResumes)) && i < |s.channels|
    requires
      var c := s.channels[i];
      c.recovery.ref in c.operations && c.operations[c.recovery.ref].outcome == NOT_CURRENT_FAILURE
    ensures
      var c, d := s.channels[i], Next(s, At(i, RecoveryResumes)).channels[i];
      && (c.state != Left && d.state == Left <==> c.cause.None?)
      && (c.cause.None? ==> d.loss.LossScheduled? && d.leftBy == Some((Configuration, ChannelFailure(NotCurrent))))
      && (c.state != Left && c.cause.Some? ==> d.state == Rejoining && d.leftBy.None? && d.loss == c.loss)
  {
    hide Reachable, Sound, Attended, RecordOk, ContextOk, RecoveryStep, Told, StandingOf;
    SoundAt(s, i);
    ToldAt(s, i);
    var x, c := s.client, s.channels[i];
    Facts(x, s.cleaning, RoleOf(s.pass, i), c);
    RefusedWaiter(x, s.cleaning, RoleOf(s.pass, i), c);
    if c.cause.None? {
      RecoveryLoses(x, c);
    } else if c.state != Left {
      RecoveryGoesOn(x, c);
    }
  }

  lemma RecoveryLoses(x: Context, c: Channel)
    requires c.recovery.AwaitingRejoin? && JoinOf(c.operations, c.recovery.ref) == Some(NOT_CURRENT_FAILURE)
    requires c.cause.None? && c.established && c.leftBy.None?
    ensures
      var d := RecoveryStep(x, c, RecoveryResumes);
      d.state == Left && d.loss.LossScheduled? && d.leftBy == Some((Configuration, ChannelFailure(NotCurrent)))
  {
    hide Transition;
    TransitionFrame(x, c, Configuration, ChannelFailure(NotCurrent));
  }

  lemma RecoveryGoesOn(x: Context, c: Channel)
    requires c.recovery.AwaitingRejoin? && JoinOf(c.operations, c.recovery.ref) == Some(NOT_CURRENT_FAILURE)
    requires c.cause.Some? && c.cause != Some(Timeout) && c.cause != Some(Accepted) && !Rejection(c.cause)
    ensures
      var d := RecoveryStep(x, c, RecoveryResumes);
      d.state == c.state && d.leftBy == c.leftBy && d.loss == c.loss
  {
    hide Transition, StartLoss, CanRecover, Rejection;
    var f, g := ChannelFailure(NotCurrent), c.recovery.generation;
    assert JoinFailed(x, c, f) == c;
    assert RecoveryStep(x, c, RecoveryResumes) == RecoveryLoops(x, c, g);
  }

  /** So does the supervisor's pass. */
  lemma PassLosesRefused(s: System, i: nat)
    requires Reachable(s) && Enabled(s, PassResumes) && i == s.pass.active.channel
    requires s.channels[i].operations[s.pass.active.ref].outcome == NOT_CURRENT_FAILURE
    ensures
      var c, t := s.channels[i], Next(s, PassResumes);
      && i < |t.channels|
      && (c.state != Left && t.channels[i].state == Left <==> c.cause.None?)
      && (c.cause.None? ==>
            t.pass.active == Unregistering(i) && t.channels[i].leftBy == Some((Configuration, ChannelFailure(NotCurrent))))
      && (c.state != Left && c.cause.Some? ==> t.channels[i].state == Rejoining && t.channels[i].leftBy.None?)
  {
    hide Reachable, Sound, Attended, RecordOk, JoinFailed, RejoinFailure, Told, StandingOf;
    SoundAt(s, i);
    ToldAt(s, i);
    var x, c := s.client, s.channels[i];
    Facts(x, s.cleaning, RoleOf(s.pass, i), c);
    OwnRef(x, s.cleaning, RoleOf(s.pass, i), c);
    RefusedWaiter(x, s.cleaning, RoleOf(s.pass, i), c);
    if c.cause.None? {
      PassLoses(x, c);
    } else {
      PassGoesOn(x, c);
    }
  }

  lemma PassLoses(x: Context, c: Channel)
    requires ContextOk(x) && !x.shutdown && c.cause.None? && c.registered && c.leftBy.None? && c.leaver.NoLeaver?
    ensures
      var (d, removing) := RejoinFailure(x, JoinFailed(x, c, ChannelFailure(NotCurrent)));
      removing && d.state == Left && d.leftBy == Some((Configuration, ChannelFailure(NotCurrent)))
  {
    hide Transition;
    TransitionFrame(x, c, Configuration, ChannelFailure(NotCurrent));
  }

  lemma PassGoesOn(x: Context, c: Channel)
    requires ContextOk(x) && c.cause.Some? && c.cause != Some(Timeout) && c.cause != Some(Accepted)
    requires Rejection(c.cause) ==> c.state == Left
    ensures
      var d := RejoinFailure(x, JoinFailed(x, c, ChannelFailure(NotCurrent))).0;
      c.state != Left ==> d.state == c.state && d.leftBy == c.leftBy
  {
    hide Transition, StartLeave, CanRecover;
  }

  /** Wherever a loss task is started there is none yet: on a live channel, by the waiter whose rejoin
      was refused, and by the pass that removes the channel. */
  lemma OneLossTask(s: System, i: nat)
    requires Reachable(s) && i < |s.channels|
    ensures
      var c, role := s.channels[i], RoleOf(s.pass, i);
      (Live(c) || (JoinWaiter(role, c) && Rejection(c.cause)) || role == Removes) ==> c.loss.NoLoss?
  {
    hide Reachable, MailOk, OperationsOk, RecordOk, ReservationOk, Owned, WillLeave;
    SoundAt(s, i);
  }

  // The wire

  lemma SendsOnly(s: System, e: Step, w: (ConnectionId, Ref))
    requires Enabled(s, e) && w in Next(s, e).wire && w !in s.wire
    ensures e.At? && e.action == SendStarts(w.1) && e.channel < |s.channels|
    ensures w.1 in s.channels[e.channel].operations && s.channels[e.channel].operations[w.1].send == Scheduled
    ensures Submits(s.client, s.channels[e.channel], w.1) && s.channels[e.channel].operations[w.1].connection == w.0
  {
    hide Act, Generates, FinishWrite, Settle, BeginRejoin, Rejoin, RejoinFailure, ShouldRejoin, JoinFailed, Each, CleanedUp,
      TimeoutError, NameTaken, Submits, FailPending, BeginDisconnect;
  }

  lemma SubmittedFrame(x: Context, cleaning: Cleaning, role: Role, c: Channel, r: Ref)
    requires Sound(x, cleaning, role, c) && r in c.operations && Submits(x, c, r)
    ensures c.registered && c.connection == x.connection == Some(c.operations[r].connection)
    ensures c.operations[r].epoch == c.joinRef && c.operations[r].outcome.Pending?
    ensures match c.operations[r].kind {
              case JoinOperation => c.state != Left && r == c.joinRef
              case PushOperation => ChannelJoined(x, c) && c.state == Joined
              case LeaveOperation => c.state == Left
            }
  {
    hide MailOk, LossOk;
  }

  lemma NotYetOnWire(s: System, i: nat, r: Ref)
    requires LedgerOk(s) && i < |s.channels| && r in s.channels[i].operations
    requires s.channels[i].operations[r].send == Scheduled
    ensures 1 <= r <= |s.owners| && s.owners[r - 1] == i && forall k :: k in s.wire ==> k.1 != r
    ensures r == s.channels[i].joinRef ==> !s.channels[i].joinSubmitted
  {
    hide AckedOk, NamesOk, SessionOk;
    assert RecordOk(s, i, s.channels[i]);
    assert RefOf(s.owners, i, r);
    forall k | k in s.wire ensures k.1 != r {
      assert OnWire(s, k);
    }
  }

  /** What was true of the channel and of the frame when the frame entered the wire. */
  predicate SentProperly(s: System, e: Step, w: (ConnectionId, Ref)) {
    && e.At? && e.action == SendStarts(w.1) && e.channel < |s.channels|
    && var c := s.channels[e.channel];
       && w.1 in c.operations && c.registered && c.connection == s.client.connection == Some(w.0)
       && c.operations[w.1].epoch == c.joinRef && c.operations[w.1].outcome.Pending?
       && 1 <= w.1 <= |s.owners| && s.owners[w.1 - 1] == e.channel && (forall k :: k in s.wire ==> k.1 != w.1)
       && match c.operations[w.1].kind {
            case JoinOperation => c.state != Left && w.1 == c.joinRef && !c.joinSubmitted
            case PushOperation => ChannelJoined(s.client, c) && c.state == Joined
            case LeaveOperation => c.state == Left
          }
  }

  /** A frame enters the wire only by the first step of its own write task, from a registered channel
      on the current connection, under its current join_ref, and never twice; a push only while
      JOINED, a join only of a channel that is not LEFT. */
  lemma WireDiscipline(s: System, e: Step, w: (ConnectionId, Ref))
    requires Reachable(s)
    ensures Enabled(s, e) && w in Next(s, e).wire && w !in s.wire ==> SentProperly(s, e, w)
  {
    hide Reachable, Enabled, Next, SystemOk, LedgerOk, Sound, Submits, ChannelJoined, Attended, RecordOk;
    if Enabled(s, e) && w in Next(s, e).wire && w !in s.wire {
      SendsOnly(s, e, w);
      ReachableOk(s);
      SoundAt(s, e.channel);
      SubmittedFrame(s.client, s.cleaning, RoleOf(s.pass, e.channel), s.channels[e.channel], w.1);
      NotYetOnWire(s, e.channel, w.1);
    }
  }

  /** A reply can match at most one of the leave, join and push branches, and only its own channel's. */
  lemma RepliesMatchOnce(s: System, i: nat, r: Ref)
    requires Reachable(s) && i < |s.channels|
    ensures
      var c := s.channels[i];
      && !(c.leaveRef == Some(r) && r == c.joinRef) && !(c.leaveRef == Some(r) && r in c.pushes)
      && !(r == c.joinRef && r in c.pushes)
      && (r in c.operations || (r == c.joinRef && r > 0) ==> 1 <= r <= |s.owners| && s.owners[r - 1] == i)
  {
    hide Reachable, MailOk, LossOk, TasksOk, ReservationOk, PlaceOk, LifeOk, Attended, SentOk, AckedOk;
    SoundAt(s, i);
    var c := s.channels[i];
    if r in c.operations || r == c.joinRef > 0 {
      assert RefOf(s.owners, i, r);
    }
  }

  // Exact conditions

  lemma TransportKeepsSuccess(x: Context, c: Channel)
    requires JoinSucceeded(c) && Marked(c)
    ensures JoinSucceeded(Transition(x, c, Transport, SocketFailure))
  {
    hide Transition, Marked;
    TransitionFollows(x, c, Transport, SocketFailure);
    TransitionFrame(x, c, Transport, SocketFailure);
  }

  lemma JoinedPosture(x: Context, cleaning: Cleaning, role: Role, c: Channel)
    requires Sound(x, cleaning, role, c) && c.state == Joined && x.connection.Some?
    ensures JoinSucceeded(c) && Marked(c) && role != Queued && role != Restarting && c.registered && c.established
    ensures c.connection == x.connection && !x.shutdown && !c.leaveRequested && IsConnected(x)
    ensures !c.recovery.NoRecovery? ==> !c.recoveryCancelled
  {
    hide MailOk, LossOk;
  }

  /** When routing stops under a JOINED channel, the channel keeps an owner exactly if its recovery
      had not ended yet; otherwise only the coming cleanup takes it over. */
  lemma RoutingStopStrands(s: System, i: nat)
    requires Reachable(s) && Enabled(s, RoutingStops) && i < |s.channels| && s.channels[i].state == Joined
    ensures
      var t := Next(s, RoutingStops);
      && t.channels[i].state == Rejoining && IsConnected(t.client)
      && (HasOwner(t, i) <==> !s.channels[i].recovery.NoRecovery?)
  {
    hide Reachable, Sound, Attended, RecordOk, Transition, SettleUnsubscribed, StartLeave, Marked, JoinSucceeded;
    SoundAt(s, i);
    var t := Next(s, RoutingStops);
    var x, c := s.client, s.channels[i];
    JoinedPosture(x, s.cleaning, RoleOf(s.pass, i), c);
    TransitionFrame(x, c, Transport, SocketFailure);
    TransportKeepsSuccess(x, c);
    assert t.channels[i] == FailPending(x, c) == Transition(x, c, Transport, SocketFailure);
  }

  lemma RefusedSend(x: Context, c: Channel, r: Ref)
    requires IsPending(c.operations, r) && !Submits(x, c, r)
    ensures
      var d := StartSend(x, c, r);
      r in d.operations && d.operations[r].outcome == Failed(ChannelFailure(NotCurrent))
  {
    hide Submits;
  }

  lemma SendStartsMeans(s: System, i: nat, r: Ref)
    requires Enabled(s, At(i, SendStarts(r)))
    ensures
      var t := Next(s, At(i, SendStarts(r)));
      && r in s.channels[i].operations && t.channels[i] == StartSend(s.client, s.channels[i], r)
      && t.wire == if Submits(s.client, s.channels[i], r) then s.wire + {(s.channels[i].operations[r].connection, r)} else s.wire
  {
    hide Submits, StartSend;
  }

  /** A join whose write task is about to start reaches the socket exactly if the connection's send
      session has not failed; otherwise it is refused as "no longer current". */
  lemma JoinIsSentUnlessSessionFailed(s: System, i: nat, r: Ref)
    requires Reachable(s) && i < |s.channels| && Enabled(s, At(i, SendStarts(r)))
    requires IsPending(s.channels[i].operations, r) && s.channels[i].operations[r].kind == JoinOperation
    ensures
      var t := Next(s, At(i, SendStarts(r)));
      && s.client.connection.Some? && i < |t.channels|
      && t.wire == (if s.client.sendFailed then s.wire else s.wire + {(s.client.connection.value, r)})
      && (s.client.sendFailed ==>
            r in t.channels[i].operations && t.channels[i].operations[r].outcome == Failed(ChannelFailure(NotCurrent)))
  {
    hide Reachable, Sound, Attended, RecordOk, Submits, StartSend, Enabled, Next;
    SoundAt(s, i);
    SendStartsMeans(s, i, r);
    PendingJoinPosture(s.client, s.cleaning, RoleOf(s.pass, i), s.channels[i], r);
    JoinSubmitsUnlessFailed(s.client, s.cleaning, RoleOf(s.pass, i), s.channels[i], r);
    if s.client.sendFailed {
      RefusedSend(s.client, s.channels[i], r);
    }
    SameCount(s, i, r);
  }

  lemma SameCount(s: System, i: nat, r: Ref)
    requires Enabled(s, At(i, SendStarts(r)))
    ensures |Next(s, At(i, SendStarts(r))).channels| == |s.channels|
  {
    hide Submits, StartSend;
  }

  /** A registered LEFT channel with no leave task and nobody who would start one. */
  predicate Stuck(s: System, i: nat)
    requires i < |s.channels|
  {
    var c := s.channels[i];
    && c.registered && c.state == Left && c.leaver.NoLeaver?
    && !(c.joiner.Some? && !c.established) && !c.loss.LossScheduled?
    && !c.recovery.AwaitingRejoin? && !RoleOf(s.pass, i).Rejoins?
  }

  /** While the client runs, only a channel whose refused rejoin was cancelled is stuck. */
  lemma OnlyCancelledRefusalsAreStuck(s: System, i: nat)
    requires Reachable(s) && i < |s.channels|
    ensures Stuck(s, i) && !s.client.shutdown ==> s.channels[i].abandoned
  {
    hide Reachable, Sound, RecordOk, ContextOk;
    SoundAt(s, i);
  }

  /** Cancelling a recovery leaves its channel stuck exactly if its rejoin had been refused. */
  lemma CancellationStrandsRefusals(s: System, i: nat)
    requires Reachable(s) && i < |s.channels| && s.channels[i].registered
    requires !s.client.shutdown && !s.channels[i].abandoned && RoleOf(s.pass, i) == Uninvolved
    ensures Enabled(s, At(i, RecoveryCancelled)) ==>
      (Stuck(Next(s, At(i, RecoveryCancelled)), i) <==>
        s.channels[i].recovery.AwaitingRejoin? && Rejection(s.channels[i].cause) && s.channels[i].leaver.NoLeaver?)
  {
    hide Reachable, Sound, RecordOk, ContextOk, Settle;
    SoundAt(s, i);
    if Enabled(s, At(i, RecoveryCancelled)) {
      CancelledPosture(s.client, s.cleaning, RoleOf(s.pass, i), s.channels[i]);
    }
  }

  lemma CancelledPosture(x: Context, cleaning: Cleaning, role: Role, c: Channel)
    requires Sound(x, cleaning, role, c) && !c.recovery.NoRecovery? && c.recoveryCancelled
    ensures c.established && (Rejection(c.cause) ==> c.state == Left)
    ensures c.recovery.AwaitingRejoin? ==> Settle(c, c.recovery.ref, Failed(CallerCancelled)) == c
  {
    hide MailOk, LossOk;
  }
}
