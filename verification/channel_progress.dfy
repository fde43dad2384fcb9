/** What each step has to do: the counterpart of the invariants, at every reachable state. */
module ChannelProgress {
  import opened Wrappers
  import opened ClientStates
  import opened Channels
  import opened Mailboxes
  import opened ChannelProtocol
  import opened ChannelInvariant
  import opened ChannelAttended
  import opened ChannelPass
  import opened ChannelSweeps
  import opened ChannelHistory
  import opened ChannelSystem
  import opened ChannelQuiet
  import opened ChannelEffects
  import opened ChannelDepartures
  import opened ChannelLedger
  import opened ChannelReports
  import opened ChannelTheorems

  /** A step of channel i's own tasks changes channel i, generates at most its ref, and writes at most its frame. */
  lemma ActTouchesOneChannel(s: System, i: nat, a: Action)
    requires Enabled(s, At(i, a))
    ensures
      var x, c, t := s.client, s.channels[i], Next(s, At(i, a));
      var refs := if Generates(x, c, a) then 1 else 0;
      && t.channels == s.channels[i := Act(x, c, a)]
      && t.client == x.(refs := x.refs + refs) && t.owners == s.owners + seq(refs, _ => i)
      && t.pass == s.pass && t.cleaning == s.cleaning && t.sessions == s.sessions && t.sockets == s.sockets && t.answers == s.answers
      && (a.SendStarts? || t.wire == s.wire)
  {
    hide Act, ActionEnabled, Submits;
  }

  lemma OkHere(s: System, i: nat)
    requires Reachable(s) && i < |s.channels|
    ensures Sound(s.client, s.cleaning, RoleOf(s.pass, i), s.channels[i])
    ensures CauseKept(RoleOf(s.pass, i), s.channels[i]) && ContextOk(s.client)
  {
    hide Reachable, Sound, RecordOk, ContextOk, CauseKept, Owned, WillLeave, LossFree;
    SoundAt(s, i);
  }

  // Server frames

  lemma RouteIsAct(s: System, i: nat, g: nat, m: Message, hookOk: bool)
    requires Enabled(s, At(i, Receive(g, m, hookOk)))
    ensures i < |s.channels| && s.channels[i].registered
    ensures Next(s, At(i, Receive(g, m, hookOk))) == Update(s, i, Route(s.client, s.channels[i], g, m, hookOk))
  {
    hide Route;
  }

  /** Every frame has the effect that its event and its ref call for, on the channel it names and on no other. */
  lemma FramesTakeEffect(s: System, i: nat, g: nat, m: Message, hookOk: bool)
    requires Reachable(s) && Enabled(s, At(i, Receive(g, m, hookOk)))
    ensures
      var t := Next(s, At(i, Receive(g, m, hookOk)));
      && |t.channels| == |s.channels| && t == s.(channels := s.channels[i := t.channels[i]])
      && FrameEffect(s.client, s.channels[i], g, m, hookOk, t.channels[i])
  {
    hide Reachable, Sound, CauseKept, ContextOk, Route, FrameEffect, Enabled, Next;
    RouteIsAct(s, i, g, m, hookOk);
    OkHere(s, i);
    FrameTakesEffect(s.client, s.cleaning, RoleOf(s.pass, i), s.channels[i], g, m, hookOk);
  }

  /** A message for the handlers: the channel is JOINED, the frame is of its generation and not of another join, and it is an
      application event or a reply that nothing of the channel awaits. */
  predicate ForHandlers(x: Context, c: Channel, g: nat, m: Message) {
    && c.state == Joined && c.generation == g && (x.v2 && m.joinRef.Some? ==> m.joinRef.value == c.joinRef)
    && (m.event.ApplicationEvent?
        || (m.event.ReplyEvent? && (m.ref.Some? ==> m.ref.value != c.joinRef && m.ref.value !in c.pushes)))
  }

  lemma JoinedHears(x: Context, cleaning: Cleaning, role: Role, c: Channel, g: nat, m: Message)
    requires Sound(x, cleaning, role, c) && c.state == Joined
    ensures Hears(x, c, g, m) <==> c.generation == g && (x.v2 && m.joinRef.Some? ==> m.joinRef.value == c.joinRef)
    ensures c.leaveRef.None?
  {
    hide MailOk, LossOk, TasksOk;
  }

  /** A message for the handlers is accepted: it joins the queue under the channel's join_ref, a full queue loses its oldest message,
      and nothing else changes. Any other frame leaves the channel's messages alone. */
  lemma DeliveryIsExact(s: System, i: nat, g: nat, m: Message, hookOk: bool)
    requires Reachable(s) && Enabled(s, At(i, Receive(g, m, hookOk)))
    ensures
      var c, t := s.channels[i], Next(s, At(i, Receive(g, m, hookOk)));
      var full := |c.mail.queue| >= s.client.queueLimit && c.mail.queue != [];
      i < |t.channels| &&
      if ForHandlers(s.client, c, g, m) then
        t == s.(channels := s.channels[i := c.(mail := c.mail.(
               log := c.mail.log + [c.joinRef],
               queue := (if full then c.mail.queue[1..] else c.mail.queue) + [Item(|c.mail.log|, m.joinRef)],
               dropped := if full then c.mail.dropped + 1 else c.mail.dropped))])
      else t.channels[i].mail == c.mail
  {
    hide Reachable, Sound, CauseKept, ContextOk, Route, Enabled, Next, LifecycleEffect, JoinReplyEffect, LeaveReplyEffect, PushReplyEffect;
    FramesTakeEffect(s, i, g, m, hookOk);
    RouteIsAct(s, i, g, m, hookOk);
    OkHere(s, i);
    var x, c := s.client, s.channels[i];
    if c.state == Joined {
      JoinedHears(x, s.cleaning, RoleOf(s.pass, i), c, g, m);
    }
    if !ForHandlers(x, c, g, m) {
      OthersAreConsumed(x, s.cleaning, RoleOf(s.pass, i), c, g, m, hookOk);
    }
  }

  lemma OthersAreConsumed(x: Context, cleaning: Cleaning, role: Role, c: Channel, g: nat, m: Message, hookOk: bool)
    requires Sound(x, cleaning, role, c) && c.registered && !ForHandlers(x, c, g, m)
    ensures Route(x, c, g, m, hookOk).mail == c.mail
  {
    hide Sound, HandleLifecycle, HandleJoinReply, HandleLeaveReply, ResolvePush, Keep;
    HandleControlQuiet(x, c, m, hookOk);
    if c.state == Joined {
      JoinedHears(x, cleaning, role, c, g, m);
    }
    if Hears(x, c, g, m) {
      HeardIs(x, cleaning, role, c, g, m, hookOk);
      ConsumedIs(x, cleaning, role, c, g, m, hookOk);
    } else {
      UnheardIsIgnored(x, cleaning, role, c, g, m, hookOk);
    }
  }

  lemma ConsumedIs(x: Context, cleaning: Cleaning, role: Role, c: Channel, g: nat, m: Message, hookOk: bool)
    requires Sound(x, cleaning, role, c) && c.registered && !ForHandlers(x, c, g, m) && Hears(x, c, g, m)
    ensures Route(x, c, g, m, hookOk) == HandleControl(x, c, m, hookOk).0
  {
    hide Sound, HandleLifecycle, HandleJoinReply, HandleLeaveReply, ResolvePush, Keep;
    if c.state == Joined {
      JoinedHears(x, cleaning, role, c, g, m);
    }
  }

  // Messages and their handlers

  /** The processor hands the oldest queued message to the handlers exactly if the channel is JOINED, no restart was requested and
      the message is not of another join; either way the message leaves the queue. */
  lemma DispatchIsExact(s: System, i: nat, handled: bool)
    requires Reachable(s) && Enabled(s, At(i, ProcessorTakes(handled)))
    ensures
      var c, t := s.channels[i], Next(s, At(i, ProcessorTakes(handled)));
      var m, item := c.mail, c.mail.queue[0];
      var delivered := c.state == Joined && !c.restartRequested && (s.client.v2 && item.joinRef.Some? ==> item.joinRef.value == c.joinRef);
      && t.channels == s.channels[i := t.channels[i]]
      && t.channels[i].mail == m.(
           queue := m.queue[1..], taken := m.taken + 1,
           dispatched := if delivered then m.dispatched + [item.index] else m.dispatched,
           epochs := if delivered then m.epochs + [c.joinRef] else m.epochs)
  {
    hide Reachable, Sound, CauseKept, ContextOk, Act, Generates, Submits, TakeMessage;
    OkHere(s, i);
    ActTouchesOneChannel(s, i, ProcessorTakes(handled));
    TakingIsAct(s.client, s.channels[i], handled);
    TakingTakesEffect(s.client, s.cleaning, RoleOf(s.pass, i), s.channels[i], handled);
  }

  lemma TakingIsAct(x: Context, c: Channel, handled: bool)
    requires c.mail.queue != []
    ensures Act(x, c, ProcessorTakes(handled)) == TakeMessage(x, c, handled)
  {
    hide TakeMessage;
  }

  /** Messages are accepted by nothing but `DeliveryIsExact`, and handed over by nothing but `DispatchIsExact`. */
  lemma MessagesMoveOnlySo(s: System, e: Step, i: nat)
    requires Reachable(s) && Enabled(s, e) && i < |s.channels|
    ensures
      var c, t := s.channels[i], Next(s, e);
      && i < |t.channels|
      && (t.channels[i].mail.log != c.mail.log ==>
            e.At? && e.channel == i && e.action.Receive? && ForHandlers(s.client, c, e.action.generation, e.action.message))
      && (t.channels[i].mail.dispatched != c.mail.dispatched ==>
            e.At? && e.channel == i && e.action.ProcessorTakes? && c.state == Joined && !c.restartRequested)
  {
    hide Reachable, Enabled, Next, Quiet, Reborn, ForHandlers, ShouldRejoin;
    if StirsAt(s, e, i) {
      if e.PassRestarts? {
        PassRestartsQuiet(s, e.paramsOk, i);
        RebornMail(s.channels[i], Next(s, e).channels[i], s.client.generation);
      } else {
        StirredMail(s, i, e.action);
      }
    } else {
      NextIsQuiet(s, e, i);
      QuietMail(s.channels[i], Next(s, e).channels[i]);
    }
  }

  lemma QuietMail(c: Channel, d: Channel)
    requires Quiet(c, d)
    ensures d.mail == c.mail
  {
  }

  lemma RebornMail(c: Channel, d: Channel, g: nat)
    requires Reborn(c, d, Drain(c.mail), g) || Reborn(c, d, c.mail, g)
    ensures d.mail.log == c.mail.log && d.mail.dispatched == c.mail.dispatched
  {
  }

  lemma StirredMail(s: System, i: nat, a: Action)
    requires Reachable(s) && Enabled(s, At(i, a)) && i < |s.channels| && Stirs(s.channels[i], a)
    ensures
      var c, t := s.channels[i], Next(s, At(i, a));
      && i < |t.channels|
      && (t.channels[i].mail.log != c.mail.log ==> a.Receive? && ForHandlers(s.client, c, a.generation, a.message))
      && (t.channels[i].mail.dispatched != c.mail.dispatched ==> a.ProcessorTakes? && c.state == Joined && !c.restartRequested)
  {
    hide Reachable, Enabled, Next, Quiet, Reborn, ForHandlers, ShouldRejoin, Act, ActionEnabled, Drain, RecoveryStep;
    var x, c := s.client, s.channels[i];
    ActAt(s, i, a);
    match a
    case Receive(g, m, hookOk) => DeliveryIsExact(s, i, g, m, hookOk);
    case ProcessorTakes(handled) =>
      TakingEnabled(s, i, handled);
      DispatchIsExact(s, i, handled);
    case JoinCall(hookSync, paramsOk) =>
      JoiningIs(x, c, hookSync, paramsOk);
      BeginJoinReborn(x, c, hookSync, paramsOk);
      RebornMail(c, Act(x, c, a), x.generation);
    case RecoveryRestarts(paramsOk) =>
      RestartingIs(x, RoleOf(s.pass, i), c, paramsOk);
      RecoveryRestartsReborn(x, c, paramsOk);
      RebornMail(c, Act(x, c, a), c.recovery.generation);
    case LeaveStarts => LeaveTaskLeaves(x, c, a);
    case LeaveAnswered => LeaveTaskLeaves(x, c, a);
    case LeaveCleansUp => LeaveTaskLeaves(x, c, a);
    case _ =>
  }

  lemma TakingEnabled(s: System, i: nat, handled: bool)
    requires Enabled(s, At(i, ProcessorTakes(handled)))
    ensures i < |s.channels| && s.channels[i].mail.queue != []
  {
  }

  lemma JoiningIs(x: Context, c: Channel, hookSync: bool, paramsOk: bool)
    ensures Act(x, c, JoinCall(hookSync, paramsOk)) == BeginJoin(x, c, hookSync, paramsOk)
  {
    hide BeginJoin;
  }

  lemma RestartingIs(x: Context, role: Role, c: Channel, paramsOk: bool)
    requires ActionEnabled(x, role, c, RecoveryRestarts(paramsOk))
    ensures Act(x, c, RecoveryRestarts(paramsOk)) == RecoveryStep(x, c, RecoveryRestarts(paramsOk)) && c.recovery.StoppingProcessor?
  {
    hide RecoveryStep;
  }

  // Calls and tasks

  /** A join, leave or push call, and a caller that resumes or is cancelled, have their effect. */
  lemma CallsTakeEffect(s: System, i: nat, a: Action)
    requires Reachable(s) && Enabled(s, At(i, a))
    ensures i < |Next(s, At(i, a)).channels| && CallEffect(s.client, s.channels[i], a, Next(s, At(i, a)).channels[i])
  {
    hide Reachable, Sound, CauseKept, ContextOk, Act, ActionEnabled, CallEffect;
    ActAt(s, i, a);
    OkHere(s, i);
    CallTakesEffect(s.client, s.cleaning, RoleOf(s.pass, i), s.channels[i], a);
  }

  /** A recovery goes on, restarts its channel, retries, ends or loses its channel exactly when it should. */
  lemma RecoveriesTakeEffect(s: System, i: nat, a: Action)
    requires Reachable(s) && Enabled(s, At(i, a))
    ensures i < |Next(s, At(i, a)).channels| && RecoveryEffect(s.client, s.channels[i], a, Next(s, At(i, a)).channels[i])
  {
    hide Reachable, Sound, CauseKept, ContextOk, Act, ActionEnabled, RecoveryEffect;
    ActAt(s, i, a);
    OkHere(s, i);
    RecoveryTakesEffect(s.client, s.cleaning, RoleOf(s.pass, i), s.channels[i], a);
  }

  /** The leave task and the loss task do what they are for. */
  lemma LeaveTasksTakeEffect(s: System, i: nat, a: Action)
    requires Reachable(s) && Enabled(s, At(i, a))
    ensures i < |Next(s, At(i, a)).channels| && LeaveEffect(s.client, s.channels[i], a, Next(s, At(i, a)).channels[i])
  {
    hide Reachable, Sound, CauseKept, ContextOk, Act, ActionEnabled, LeaveEffect;
    ActAt(s, i, a);
    OkHere(s, i);
    LeaveTaskTakesEffect(s.client, s.cleaning, RoleOf(s.pass, i), s.channels[i], a);
  }

  /** The leave task sends phx_leave, and waits for its answer, exactly if the submitted join was not ended by the server, the
      channel's connection is the live one and the unsubscription is still open; otherwise it goes straight to cleanup. */
  lemma LeaveIsSentExactly(s: System, i: nat)
    requires Reachable(s) && Enabled(s, At(i, LeaveStarts))
    ensures
      var c, t, r := s.channels[i], Next(s, At(i, LeaveStarts)), s.client.refs + 1;
      i < |t.channels| &&
      var d := t.channels[i];
      if && c.joinSubmitted && !c.terminal && c.unsubscribed.Pending?
         && c.connection == s.client.connection && s.client.connection.Some? && s.client.state == Connected
      then
        && r !in c.operations && r in d.operations
        && d.operations[r] == Operation(LeaveOperation, c.connection.value, c.joinRef, Pending, Scheduled)
        && d.leaver == AwaitingLeave(r) && d.leaveRef == Some(r) && t.client.refs == r && t.owners == s.owners + [i]
      else d.leaver == CleaningUp && d.operations == c.operations
  {
    hide Reachable, Sound, CauseKept, ContextOk, Act, ActionEnabled;
    LeaveTasksTakeEffect(s, i, LeaveStarts);
    OkHere(s, i);
    FreshRef(s.client, s.cleaning, RoleOf(s.pass, i), s.channels[i]);
    ActTouchesOneChannel(s, i, LeaveStarts);
    assert OwesLeave(s.client, s.channels[i]) ==> Generates(s.client, s.channels[i], LeaveStarts);
  }

  lemma FreshRef(x: Context, cleaning: Cleaning, role: Role, c: Channel)
    requires Sound(x, cleaning, role, c)
    ensures x.refs + 1 !in c.operations
  {
    hide MailOk, LossOk, TasksOk, PlaceOk, ReservationOk;
  }

  // Frames to the server

  lemma SendIs(s: System, i: nat, r: Ref)
    requires Enabled(s, At(i, SendStarts(r)))
    ensures
      var t := Next(s, At(i, SendStarts(r)));
      && i < |s.channels| == |t.channels| && r in s.channels[i].operations && t.channels[i] == StartSend(s.client, s.channels[i], r)
      && t.wire == if Submits(s.client, s.channels[i], r) then s.wire + {(s.channels[i].operations[r].connection, r)} else s.wire
  {
    hide Submits, StartSend;
  }

  lemma SettledNotSubmitted(x: Context, c: Channel, r: Ref)
    requires r in c.operations && !IsPending(c.operations, r)
    ensures !Submits(x, c, r)
  {
    hide Eligible;
  }

  /** The frame of a join, push or leave reaches its socket when its write task starts, exactly if its caller still waits and the
      send session has not failed; on a failed session the caller is told so. */
  lemma PendingIsSentUnlessSessionFailed(s: System, i: nat, r: Ref)
    requires Reachable(s) && Enabled(s, At(i, SendStarts(r)))
    ensures
      var c, t := s.channels[i], Next(s, At(i, SendStarts(r)));
      && i < |t.channels| && SendEffect(s.client, c, r, t.channels[i])
      && t.wire == if IsPending(c.operations, r) && !s.client.sendFailed then s.wire + {(c.operations[r].connection, r)} else s.wire
  {
    hide Reachable, Sound, CauseKept, ContextOk, Submits, StartSend, Enabled, Next, SendEffect;
    SendIs(s, i, r);
    OkHere(s, i);
    var x, role, c := s.client, RoleOf(s.pass, i), s.channels[i];
    SendTakesEffect(x, s.cleaning, role, c, r);
    if IsPending(c.operations, r) {
      PendingSubmitsUnlessFailed(x, s.cleaning, role, c, r);
    } else {
      SettledNotSubmitted(x, c, r);
    }
  }

  // The whole client

  /** What a new handle, an answer, the end of routing, a cleanup, a refused or adopted socket and a stop do to the client's own fields. */
  predicate ClientEffect(s: System, e: Step, t: System) {
    var x, y := s.client, t.client;
    match e
    case Open(name, blocksReconnect) =>
      && t == s.(channels := t.channels) && |t.channels| == |s.channels| + 1
      && var d := t.channels[|s.channels|];
         d.name == name && d.blocksReconnect == blocksReconnect && d.state == Created && !d.registered
    case Answers(k, r, body) => t == s.(answers := s.answers + {Answer(k, r, body)})
    case RoutingStops => y == x.(routing := false) && t.cleaning == s.cleaning
    case CleanupBegins =>
      y == x.(connection := None, routing := false, sendFailed := false) && t.cleaning == Some(x.connection)
    case CleanupEnds => y == x && t.cleaning.None?
    case AdoptRefused =>
      && y == x.(connection := None, routing := false, sendFailed := false, generation := x.generation + 1)
      && t.cleaning == Some(Some(s.sockets)) && t.sockets == s.sockets + 1
    case Adopt =>
      && y == x.(connection := Some(s.sockets), routing := true, sendFailed := false, generation := x.generation + 1, state := Connected)
      && t.cleaning.None? && t.sockets == s.sockets + 1 && t.sessions == s.sessions[x.generation + 1 := s.sockets]
    case AdoptWhileStopping => y == x.(connection := Some(s.sockets)) && t.sockets == s.sockets + 1
    case RequestStop => y == x.(shutdown := true, state := if x.state == Closed then Closed else ShuttingDown)
    case SupervisorExits => y == x.(state := Closed)
    case SupervisorCancelled => y == x && t.pass.NoPass?
    case _ => true
  }

  /** What the same steps do to each channel. */
  predicate SweepEffect(s: System, e: Step, c: Channel, d: Channel) {
    var x := s.client;
    var cancelled := c.recoveryCancelled || (c.registered && !c.recovery.NoRecovery?);
    match e
    case RoutingStops => FailEffect(x, c, d) && d.recoveryCancelled == c.recoveryCancelled
    case CleanupBegins => FailEffect(x, c, d) && d.recoveryCancelled == cancelled
    case CleanupEnds => s.cleaning.Some? && EndEffect(s.cleaning.value, c, d)
    case AdoptRefused => FailEffect(x.(connection := Some(s.sockets)), c, d) && d.recoveryCancelled == cancelled
    case RequestStop => RetireEffect(x, c, ChannelFailure(StoppingClient), d)
    case SupervisorExits => RetireEffect(x, c, SocketFailure, d)
    case Open(_, _) => d == c
    case Answers(_, _, _) => d == c
    case Adopt => d == c
    case AdoptWhileStopping => d == c
    case SupervisorCancelled => d == c
    case _ => true
  }

  /** The supervisor's steps change the client, and every channel, as they should. */
  lemma SweepsTakeEffect(s: System, e: Step, i: nat)
    requires Reachable(s) && Enabled(s, e) && i < |s.channels|
    ensures ClientEffect(s, e, Next(s, e)) && |Next(s, e).channels| >= |s.channels|
    ensures SweepEffect(s, e, s.channels[i], Next(s, e).channels[i])
  {
    hide Reachable, Sound, CauseKept, ContextOk, Quiet, Next, Enabled, FailEffect, EndEffect, RetireEffect;
    OkHere(s, i);
    ClientTakesEffect(s, e);
    NextIsLong(s, e);
    var x, role, c := s.client, RoleOf(s.pass, i), s.channels[i];
    match e
    case RoutingStops => LossTakesEffect(s, e, i);
    case CleanupBegins => LossTakesEffect(s, e, i);
    case CleanupEnds => EndsTakeEffect(s, i);
    case AdoptRefused => RefusalTakesEffect(s, i);
    case RequestStop => StopsTakeEffect(s, e, i);
    case SupervisorExits => StopsTakeEffect(s, e, i);
    case Open(_, _) => IdleStepQuiet(s, e, i);
    case Answers(_, _, _) => IdleStepQuiet(s, e, i);
    case Adopt => IdleStepQuiet(s, e, i);
    case AdoptWhileStopping => IdleStepQuiet(s, e, i);
    case SupervisorCancelled => IdleStepQuiet(s, e, i);
    case _ =>
  }

  lemma NextIsLong(s: System, e: Step)
    requires Reachable(s) && Enabled(s, e)
    ensures |Next(s, e).channels| >= |s.channels|
  {
    hide Reachable, Enabled, Next, Grows;
    NextGrows(s, e);
  }

  lemma ClientTakesEffect(s: System, e: Step)
    requires Enabled(s, e)
    ensures ClientEffect(s, e, Next(s, e))
  {
    hide Act, Generates, Submits, FinishWrite, Settle, BeginRejoin, Rejoin, RejoinFailure, ShouldRejoin, JoinFailed, Each,
      ActionEnabled, CleanedUp, TimeoutError, NameTaken, OutcomeDone, FailSession;
  }

  lemma LossTakesEffect(s: System, e: Step, i: nat)
    requires Reachable(s) && Enabled(s, e) && i < |s.channels| && (e.RoutingStops? || e.CleanupBegins?)
    ensures |Next(s, e).channels| == |s.channels| && SweepEffect(s, e, s.channels[i], Next(s, e).channels[i])
  {
    hide Reachable, Sound, CauseKept, ContextOk, FailPending, BeginDisconnect, FailEffect;
    OkHere(s, i);
    FailTakesEffect(s.client, s.cleaning, RoleOf(s.pass, i), s.channels[i]);
    FailKeepsRecovery(s.client, s.channels[i]);
    DisconnectTakesEffect(s.client, s.cleaning, RoleOf(s.pass, i), s.channels[i]);
  }

  lemma EndsTakeEffect(s: System, i: nat)
    requires Reachable(s) && Enabled(s, CleanupEnds) && i < |s.channels|
    ensures |Next(s, CleanupEnds).channels| == |s.channels| && SweepEffect(s, CleanupEnds, s.channels[i], Next(s, CleanupEnds).channels[i])
  {
    hide Reachable, Sound, CauseKept, ContextOk, EndCleanup, EndEffect, CleanedUp;
    OkHere(s, i);
    CleansOffline(s);
    EndTakesEffect(s.client, s.cleaning, RoleOf(s.pass, i), s.cleaning.value, s.channels[i]);
  }

  lemma CleansOffline(s: System)
    requires Reachable(s)
    ensures s.cleaning.Some? ==> s.client.connection.None?
  {
    hide Reachable, LedgerOk, ChannelOk, ContextOk;
    ReachableOk(s);
  }

  lemma RefusalTakesEffect(s: System, i: nat)
    requires Reachable(s) && Enabled(s, AdoptRefused) && i < |s.channels|
    ensures |Next(s, AdoptRefused).channels| == |s.channels| && SweepEffect(s, AdoptRefused, s.channels[i], Next(s, AdoptRefused).channels[i])
  {
    hide Reachable, Sound, CauseKept, ContextOk, BeginDisconnect, FailEffect;
    OkHere(s, i);
    var c, y := s.channels[i], Opened(s.client, s.sockets);
    OpenedSound(s.client, c, s.sockets);
    DisconnectTakesEffect(y, None, Uninvolved, c);
    SameConnectionFails(y, s.client.(connection := Some(s.sockets)), c, BeginDisconnect(y, c));
  }

  lemma SameConnectionFails(x: Context, y: Context, c: Channel, d: Channel)
    requires FailEffect(x, c, d) && y.connection == x.connection
    ensures FailEffect(y, c, d)
  {
  }

  lemma StopsTakeEffect(s: System, e: Step, i: nat)
    requires Reachable(s) && Enabled(s, e) && i < |s.channels| && (e.RequestStop? || e.SupervisorExits?)
    ensures |Next(s, e).channels| == |s.channels| && SweepEffect(s, e, s.channels[i], Next(s, e).channels[i])
  {
    hide Reachable, Sound, CauseKept, ContextOk, Retire, RetireEffect;
    OkHere(s, i);
    var x, c := s.client, s.channels[i];
    CleanChannels(x, s.cleaning, RoleOf(s.pass, i), c);
    RetireTakesEffect(StopRequested(x), c, ChannelFailure(StoppingClient));
    RetiredAlike(StopRequested(x), x, c, ChannelFailure(StoppingClient), Retire(StopRequested(x), c, ChannelFailure(StoppingClient)));
    RetireTakesEffect(x, c, SocketFailure);
  }

  lemma CleanChannels(x: Context, cleaning: Cleaning, role: Role, c: Channel)
    requires Sound(x, cleaning, role, c)
    ensures c.cleanupDone ==> !HasPendingSend(c.operations)
  {
    hide MailOk, OperationsOk, TasksOk, PlaceOk, LossOk, LifeOk;
  }

  lemma RetiredAlike(x: Context, y: Context, c: Channel, failure: Failure, d: Channel)
    requires RetireEffect(x, c, failure, d) && y.connection == x.connection
    ensures RetireEffect(y, c, failure, d)
  {
  }

  // The send session

  /** Channel j after one of its operations was settled by a lost write or a deadline. */
  function SettledBy(s: System, e: Step): Channel
    requires Enabled(s, e) && (e.WriteLost? || e.Expires?)
  {
    var c := s.channels[e.channel];
    if e.WriteLost? then FinishWrite(c, e.ref, true) else Settle(c, e.ref, Failed(TimeoutError(c.operations[e.ref].kind)))
  }

  predicate FailsSession(s: System, e: Step)
    requires Enabled(s, e) && (e.WriteLost? || e.Expires?)
  {
    var op := s.channels[e.channel].operations[e.ref];
    !s.client.sendFailed && if e.WriteLost? then s.client.connection == Some(op.connection) else op.send == Writing
  }

  /** The operation fails, unless it was settled before: a lost write with the connection, a deadline with the kind's own error. */
  predicate FailsOperation(e: Step, op: Operation, q: Operation)
    requires e.WriteLost? || e.Expires?
  {
    var failure :=
      if e.WriteLost? then SocketFailure
      else if op.kind == JoinOperation then TimeoutFailure else ChannelFailure(DeadlineExpired);
    && q.outcome == (if op.outcome.Pending? then Failed(failure) else op.outcome)
    && q.send == (if e.WriteLost? then Finished else op.send)
  }

  /** A write lost on the client's connection, and a deadline that fires during a write, fail the whole send session: the client turns
      to reconnecting and every channel is swept. Any other lost write or deadline fails only its own operation. */
  lemma SessionFailsExactly(s: System, e: Step, i: nat)
    requires Reachable(s) && Enabled(s, e) && (e.WriteLost? || e.Expires?) && i < |s.channels|
    ensures
      var x, t := s.client, Next(s, e);
      var c := if i == e.channel then SettledBy(s, e) else s.channels[i];
      && |t.channels| == |s.channels|
      && t.client == (if FailsSession(s, e) then x.(sendFailed := true, state := if x.state == Connected then Reconnecting else x.state) else x)
      && (if FailsSession(s, e) then FailEffect(x, c, t.channels[i]) else t.channels[i] == c)
    ensures
      var j, r := e.channel, e.ref;
      r in SettledBy(s, e).operations && FailsOperation(e, s.channels[j].operations[r], SettledBy(s, e).operations[r])
  {
    hide Reachable, Sound, CauseKept, ContextOk, FailPending, FailEffect, Next, Enabled, FailsOperation, SettledBy;
    InChannels(s, e);
    SettlingIs(s, e, i);
    SettlesOperation(s, e);
    OkHere(s, i);
    SettledOk(s, e);
    FailTakesEffect(s.client, s.cleaning, RoleOf(s.pass, e.channel), SettledBy(s, e));
    FailTakesEffect(s.client, s.cleaning, RoleOf(s.pass, i), s.channels[i]);
  }

  lemma InChannels(s: System, e: Step)
    requires Enabled(s, e) && (e.WriteLost? || e.Expires?)
    ensures e.channel < |s.channels| && e.ref in s.channels[e.channel].operations
    ensures e.WriteLost? ==> s.channels[e.channel].operations[e.ref].send == Writing
    ensures e.Expires? ==> s.client.connection == Some(s.channels[e.channel].operations[e.ref].connection)
  {
  }

  lemma SettlingIs(s: System, e: Step, i: nat)
    requires Enabled(s, e) && (e.WriteLost? || e.Expires?) && i < |s.channels|
    ensures
      var x, t := s.client, Next(s, e);
      var c := if i == e.channel then SettledBy(s, e) else s.channels[i];
      && |t.channels| == |s.channels|
      && t.client == (if FailsSession(s, e) then x.(sendFailed := true, state := if x.state == Connected then Reconnecting else x.state) else x)
      && t.channels[i] == (if FailsSession(s, e) then FailPending(x, c) else c)
  {
    hide FailPending, Settle, FinishWrite;
  }

  lemma SettlesOperation(s: System, e: Step)
    requires Enabled(s, e) && (e.WriteLost? || e.Expires?)
    ensures
      var j, r := e.channel, e.ref;
      r in SettledBy(s, e).operations && FailsOperation(e, s.channels[j].operations[r], SettledBy(s, e).operations[r])
  {
    hide Settle, FinishSend;
    var c, r := s.channels[e.channel], e.ref;
    FinishedFields(c, r);
    SettledOperations(FinishSend(c, r), r, Failed(SocketFailure));
    SettledOperations(c, r, Failed(TimeoutError(c.operations[r].kind)));
  }

  lemma SettledOk(s: System, e: Step)
    requires Reachable(s) && Enabled(s, e) && (e.WriteLost? || e.Expires?)
    ensures Sound(s.client, s.cleaning, RoleOf(s.pass, e.channel), SettledBy(s, e))
  {
    hide Reachable, Sound, Attended, LedgerOk, SystemOk, Settle, FinishWrite;
    InChannels(s, e);
    ReachableOk(s);
    OkAt(s, e.channel);
    var x, role, c := s.client, RoleOf(s.pass, e.channel), s.channels[e.channel];
    if e.WriteLost? {
      WriteLostOk(x, s.cleaning, role, c, e.ref);
    } else {
      ExpiresOk(x, s.cleaning, role, c, e.ref, TimeoutError(c.operations[e.ref].kind));
    }
  }

  // How a leave ends, over whole runs

  predicate InCleanup(c: Channel) {
    c.leaver.CleaningUp? || c.leaver.LeaverDone?
  }

  /** The leave task goes to cleanup: the outcome of its phx_leave was settled, or it owed the server none. */
  predicate LeaveEnds(s: System, e: Step, i: nat) {
    i < |s.channels| &&
    var c := s.channels[i];
    || (e == At(i, LeaveAnswered) && c.leaver.AwaitingLeave? && OutcomeDone(c, c.leaver.ref))
    || (e == At(i, LeaveStarts) && !OwesLeave(s.client, c))
  }

  lemma LeaverMoves(s: System, e: Step, i: nat)
    requires Reachable(s) && Enabled(s, e) && i < |s.channels|
    ensures i < |Next(s, e).channels| && (InCleanup(Next(s, e).channels[i]) ==> InCleanup(s.channels[i]) || LeaveEnds(s, e, i))
  {
    hide Reachable, Enabled, Next, Quiet, Reborn, ShouldRejoin, OwesLeave;
    if StirsAt(s, e, i) {
      if e.PassRestarts? {
        PassRestartsQuiet(s, e.paramsOk, i);
        RebornLeaver(s.channels[i], Next(s, e).channels[i], s.client.generation);
      } else {
        StirredLeaver(s, i, e.action);
      }
    } else {
      NextIsQuiet(s, e, i);
      QuietLeaver(s.channels[i], Next(s, e).channels[i]);
    }
  }

  lemma QuietLeaver(c: Channel, d: Channel)
    requires Quiet(c, d)
    ensures d.leaver == c.leaver || d.leaver.LeaveScheduled?
  {
  }

  lemma RebornLeaver(c: Channel, d: Channel, g: nat)
    requires Reborn(c, d, Drain(c.mail), g) || Reborn(c, d, c.mail, g)
    ensures d.leaver == c.leaver || d.leaver.LeaveScheduled?
  {
  }

  lemma RoutedLeaver(x: Context, c: Channel, g: nat, m: Message, hookOk: bool)
    ensures
      var d := Route(x, c, g, m, hookOk);
      d.leaver == c.leaver || d.leaver.LeaveScheduled?
  {
    hide HandleControl, Keep, Quiet;
    HandleControlQuiet(x, c, m, hookOk);
    QuietLeaver(c, HandleControl(x, c, m, hookOk).0);
    KeepOnlyMail(x, c, m);
  }

  lemma LeaveEnabled(s: System, i: nat, a: Action)
    requires Enabled(s, At(i, a)) && (a.LeaveAnswered? || a.LeaveCleansUp?)
    ensures i < |s.channels|
    ensures a.LeaveAnswered? ==> s.channels[i].leaver.AwaitingLeave? && OutcomeDone(s.channels[i], s.channels[i].leaver.ref)
    ensures a.LeaveCleansUp? ==> s.channels[i].leaver.CleaningUp?
  {
  }

  lemma StirredLeaver(s: System, i: nat, a: Action)
    requires Reachable(s) && Enabled(s, At(i, a)) && i < |s.channels| && Stirs(s.channels[i], a)
    ensures
      var c, t := s.channels[i], Next(s, At(i, a));
      i < |t.channels| && (InCleanup(t.channels[i]) ==> InCleanup(c) || LeaveEnds(s, At(i, a), i))
  {
    hide Reachable, Enabled, Next, Quiet, Reborn, ShouldRejoin, Act, ActionEnabled, Drain, RecoveryStep, Route, TakeMessage;
    var x, c := s.client, s.channels[i];
    ActAt(s, i, a);
    match a
    case Receive(g, m, hookOk) =>
      RouteIsAct(s, i, g, m, hookOk);
      RoutedLeaver(x, c, g, m, hookOk);
    case ProcessorTakes(handled) =>
      TakingEnabled(s, i, handled);
      TakingIsAct(x, c, handled);
      TakeMessageOnlyMail(x, c, handled);
    case JoinCall(hookSync, paramsOk) =>
      JoiningIs(x, c, hookSync, paramsOk);
      BeginJoinReborn(x, c, hookSync, paramsOk);
      RebornLeaver(c, Act(x, c, a), x.generation);
    case RecoveryRestarts(paramsOk) =>
      RestartingIs(x, RoleOf(s.pass, i), c, paramsOk);
      RecoveryRestartsReborn(x, c, paramsOk);
      RebornLeaver(c, Act(x, c, a), c.recovery.generation);
    case LeaveStarts => LeaveIsSentExactly(s, i);
    case LeaveAnswered => LeaveEnabled(s, i, a);
    case LeaveCleansUp => LeaveEnabled(s, i, a);
    case _ =>
  }

  /** Some step of the run took channel i's leave task to cleanup. */
  ghost predicate LeaveEnded(v2: bool, queueLimit: nat, steps: seq<Step>, i: nat) {
    exists n: nat :: n < |steps| && Run(v2, queueLimit, steps[..n]).Some?
      && LeaveEnds(Run(v2, queueLimit, steps[..n]).value, steps[n], i)
  }

  lemma LeaveEndedGrows(v2: bool, queueLimit: nat, steps: seq<Step>, i: nat)
    requires steps != [] && Run(v2, queueLimit, steps[..|steps| - 1]).Some?
    ensures
      var before := steps[..|steps| - 1];
      var s := Run(v2, queueLimit, before).value;
      LeaveEnded(v2, queueLimit, before, i) || LeaveEnds(s, steps[|steps| - 1], i) ==> LeaveEnded(v2, queueLimit, steps, i)
  {
    hide Run, LeaveEnds;
    var before := steps[..|steps| - 1];
    if LeaveEnded(v2, queueLimit, before, i) {
      var n: nat :| n < |before| && Run(v2, queueLimit, before[..n]).Some? && LeaveEnds(Run(v2, queueLimit, before[..n]).value, before[n], i);
      assert before[..n] == steps[..n] && before[n] == steps[n];
    }
  }

  lemma OpensFresh(s: System, e: Step, i: nat)
    requires Enabled(s, e) && |s.channels| <= i < |Next(s, e).channels|
    ensures !InCleanup(Next(s, e).channels[i])
  {
    hide Act, Generates, Submits, FinishWrite, Settle, BeginRejoin, Rejoin, RejoinFailure, ShouldRejoin, JoinFailed, ActionEnabled, CleanedUp,
      NameTaken, OutcomeDone;
    assert e.Open?;
  }

  /** Over every run: a leave task that is cleaning up had the outcome of its phx_leave settled, or, when it started, the server held
      no membership that a leave on the live connection could end. */
  lemma {:induction false} CleanupFollowsLeave(v2: bool, queueLimit: nat, steps: seq<Step>, i: nat)
    requires Run(v2, queueLimit, steps).Some? && i < |Run(v2, queueLimit, steps).value.channels|
    ensures InCleanup(Run(v2, queueLimit, steps).value.channels[i]) ==> LeaveEnded(v2, queueLimit, steps, i)
  {
    hide Run, Next, Enabled, Reachable, LeaveEnded, LeaveEnds, InCleanup;
    if steps == [] {
      EmptyRun(v2, queueLimit);
    } else {
      LastStep(v2, queueLimit, steps);
      var before := steps[..|steps| - 1];
      var s := Run(v2, queueLimit, before).value;
      RunReaches(v2, queueLimit, before);
      LeaveEndedGrows(v2, queueLimit, steps, i);
      if i < |s.channels| {
        CleanupFollowsLeave(v2, queueLimit, before, i);
        LeaverMoves(s, steps[|steps| - 1], i);
      } else {
        OpensFresh(s, steps[|steps| - 1], i);
      }
    }
  }

  // Nobody waits in vain

  /** An awaited outcome can still be settled: at the latest its deadline fires. */
  predicate StillOpen(s: System, i: nat, r: Ref)
    requires i < |s.channels|
  {
    IsPending(s.channels[i].operations, r) && Enabled(s, Expires(i, r))
  }

  /** Every write starts and ends, and every pending outcome has a deadline that can fire. */
  lemma OperationsMove(s: System, i: nat, r: Ref)
    requires Reachable(s) && i < |s.channels| && r in s.channels[i].operations
    ensures
      var op := s.channels[i].operations[r];
      && (op.send == Scheduled ==> Enabled(s, At(i, SendStarts(r))))
      && (op.send == Writing ==> Enabled(s, At(i, WriteCompletes(r))) && Enabled(s, WriteLost(i, r)))
      && (op.outcome.Pending? ==> StillOpen(s, i, r))
  {
    hide Reachable;
    PendingIsCurrent(s, i, r);
  }

  /** Who awaits an outcome can resume, or the outcome can still be settled. */
  lemma WaitersMove(s: System, i: nat)
    requires Reachable(s) && i < |s.channels|
    ensures
      var c := s.channels[i];
      && (c.joiner.Some? ==> Enabled(s, At(i, JoinerResumes)) || StillOpen(s, i, c.joiner.value))
      && (c.recovery.AwaitingRejoin? ==> Enabled(s, At(i, RecoveryResumes)) || StillOpen(s, i, c.recovery.ref))
      && (c.leaver.AwaitingLeave? ==> Enabled(s, At(i, LeaveAnswered)) || StillOpen(s, i, c.leaver.ref))
  {
    hide Reachable, Sound, CauseKept, ContextOk, StillOpen;
    OkHere(s, i);
    var c, role := s.channels[i], RoleOf(s.pass, i);
    Facts(s.client, s.cleaning, role, c);
    AwaitedLeave(s.client, s.cleaning, role, c);
    if c.joiner.Some? {
      OperationsMove(s, i, c.joiner.value);
    }
    if c.recovery.AwaitingRejoin? {
      OperationsMove(s, i, c.recovery.ref);
    }
    if c.leaver.AwaitingLeave? {
      OperationsMove(s, i, c.leaver.ref);
    }
  }

  /** Every other task of a channel can take its next step, or waits for another task of the channel. */
  lemma TasksMove(s: System, i: nat)
    requires Reachable(s) && i < |s.channels|
    ensures
      var c, role := s.channels[i], RoleOf(s.pass, i);
      && (c.recovery.Backoff? ==> Enabled(s, At(i, RecoveryWakes)) || Enabled(s, At(i, RecoveryCancelled)))
      && (c.recovery.StoppingProcessor? ==>
            || Enabled(s, At(i, RecoveryRestarts(true))) || Enabled(s, At(i, RecoveryCancelled)) || c.joiner.Some? || role.Rejoins?)
      && (c.leaver.LeaveScheduled? ==> Enabled(s, At(i, LeaveStarts)))
      && (c.leaver.CleaningUp? ==>
            || Enabled(s, At(i, LeaveCleansUp)) || !c.recovery.NoRecovery? || exists r :: r in c.operations && c.operations[r].send != Finished)
      && (c.loss.LossScheduled? ==> Enabled(s, At(i, LossStarts)))
      && (c.loss.LossUnregistering? ==> Enabled(s, At(i, LossUnregistered)) || !c.leaver.LeaverDone?)
      && (c.loss.LossReporting? ==> Enabled(s, At(i, LossReported)))
      && (c.processor.WaitingForMessage? && c.mail.queue != [] ==> Enabled(s, At(i, ProcessorTakes(true))))
      && (c.processor.HandlingMessage? ==> Enabled(s, At(i, HandlersDone)))
  {
    hide Reachable;
  }

  lemma AwaitedLeave(x: Context, cleaning: Cleaning, role: Role, c: Channel)
    requires Sound(x, cleaning, role, c)
    ensures c.leaver.AwaitingLeave? ==> c.leaver.ref in c.operations
  {
    hide MailOk, LossOk, TasksOk, PlaceOk, ReservationOk;
  }

  /** The application may call, the server may send, and the connection may be lost, whenever they can. */
  lemma CallsArePossible(s: System, i: nat, g: nat, m: Message)
    requires Reachable(s) && i < |s.channels|
    ensures
      var x, c := s.client, s.channels[i];
      && Enabled(s, At(i, LeaveCall))
      && (c.state == Created && IsConnected(x) && (forall j :: 0 <= j < |s.channels| && s.channels[j].registered ==> s.channels[j].name != c.name) ==>
            Enabled(s, At(i, JoinCall(true, true))))
      && (c.state == Joined ==> Enabled(s, At(i, PushCall)))
      && (c.registered && g in s.sessions && (g == x.generation ==> x.routing)
          && (m.event.ReplyEvent? && m.ref.Some? ==> Answer(s.sessions[g], m.ref.value, m.event.body) in s.answers) ==>
            Enabled(s, At(i, Receive(g, m, true))))
  {
    hide Reachable, Sound, CauseKept, ContextOk, ChannelJoined;
    OkHere(s, i);
    JoinedIsOpen(s.client, s.cleaning, RoleOf(s.pass, i), s.channels[i]);
  }

  /** The supervisor can always go on: with its pass, with a lost connection, with the cleanup, or with the next socket. */
  lemma SupervisorMoves(s: System)
    requires Reachable(s)
    ensures
      var x := s.client;
      && (s.pass.Pass? ==>
            match s.pass.active
            case Between => Enabled(s, PassOptional) || exists j :: j in s.pass.required && Enabled(s, PassNext(j))
            case Stopping(j) => j < |s.channels| && (Enabled(s, PassRestarts(true)) || s.channels[j].joiner.Some?)
            case Awaiting(j, r) => j < |s.channels| && (Enabled(s, PassResumes) || StillOpen(s, j, r))
            case Unregistering(j) => j < |s.channels| && (Enabled(s, PassUnregistered) || !s.channels[j].leaver.LeaverDone?))
      && (x.connection.Some? && x.routing ==> Enabled(s, RoutingStops))
      && (x.connection.Some? && !x.routing && s.pass.NoPass? ==> Enabled(s, CleanupBegins))
      && (s.cleaning.Some? ==> Enabled(s, CleanupEnds) || exists i :: 0 <= i < |s.channels| && !CleanedUp(x, s.cleaning.value, s.channels[i]))
      && (x.connection.None? && s.cleaning.None? && (x.state == Connecting || x.state == Connected || x.state == Reconnecting) ==>
            Enabled(s, Adopt) && Enabled(s, AdoptRefused))
      && (x.shutdown || Enabled(s, RequestStop))
  {
    hide Reachable, LedgerOk, ChannelOk, ContextOk, CleanedUp;
    ReachableOk(s);
    StateRules(s);
    if s.pass.Pass? {
      PassMoves(s);
    }
  }

  lemma StateRules(s: System)
    requires Reachable(s)
    ensures s.client.shutdown ==> s.client.state == ShuttingDown || s.client.state == Closed
    ensures s.cleaning.Some? ==> s.client.connection.None?
    ensures s.pass.Pass? ==> s.client.connection.Some? && s.cleaning.None?
  {
    hide Reachable, LedgerOk, ChannelOk;
    ReachableOk(s);
  }

  lemma PassMoves(s: System)
    requires Reachable(s) && s.pass.Pass?
    ensures
      match s.pass.active
      case Between => Enabled(s, PassOptional) || exists j :: j in s.pass.required && Enabled(s, PassNext(j))
      case Stopping(j) => j < |s.channels| && (Enabled(s, PassRestarts(true)) || s.channels[j].joiner.Some?)
      case Awaiting(j, r) => j < |s.channels| && (Enabled(s, PassResumes) || StillOpen(s, j, r))
      case Unregistering(j) => j < |s.channels| && (Enabled(s, PassUnregistered) || !s.channels[j].leaver.LeaverDone?)
  {
    hide Reachable, LedgerOk, ChannelOk, ContextOk, Sound, CauseKept;
    ReachableOk(s);
    if s.pass.active.Between? {
      if s.pass.required != {} {
        var j :| j in s.pass.required;
        assert Enabled(s, PassNext(j));
      }
    } else if s.pass.active.Awaiting? {
      var j, r := s.pass.active.channel, s.pass.active.ref;
      OkHere(s, j);
      PendingIsCurrent(s, j, r);
      AwaitedRejoin(s.client, s.cleaning, RoleOf(s.pass, j), s.channels[j]);
    }
  }

  lemma AwaitedRejoin(x: Context, cleaning: Cleaning, role: Role, c: Channel)
    requires Sound(x, cleaning, role, c) && role.Rejoins?
    ensures role.ref in c.operations
  {
    hide MailOk, LossOk, OperationsOk, PlaceOk, ReservationOk;
  }
}
